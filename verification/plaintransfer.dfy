/**
 Transfers whose acceptance can be told before they are made: no constraints are added
 to the main output but the sender's and the origin of a new chain, and the consumed
 outputs have nothing after their lock. And what the adjusted amount is good for.
 */
module PlainTransfers {
  import opened Bytes
  import opened Codec
  import opened LazyTree
  import opened Context
  import opened Constraints
  import opened Validation
  import opened Ledger
  import opened Supply
  import opened Signatures
  import opened OutputView
  import opened UTXODatabase
  import opened Selection
  import opened Builder
  import opened StandardOutputs
  import opened Transfer
  import opened BuiltTransactions
  import opened SimpleTransferAccepted

  /** The constraint that starts a chain. */
  function OriginBlock(e: Env): Bytes {
    e.encode(Chain(ORIGIN_CHAIN_DATA))
  }

  /** Nothing is added to the main output, except perhaps the origin of a chain. */
  predicate AddsPlain(e: Env, par: TransferData) {
    par.addConstraints == [] || par.addConstraints == [OriginBlock(e)]
  }

  /** And no unlock data is given. */
  predicate IsPlain(e: Env, par: TransferData) {
    AddsPlain(e, par) && par.unlockData == []
  }

  /** An output with nothing after its lock. */
  predicate EndsWithLock(output: Bytes) {
    Blocks(output).Some? && |Blocks(output).value| == 3
  }

  /** An output the sender can consume in a transaction at this time. */
  predicate OwnInput(e: Env, par: TransferData, output: Bytes, ts: nat)
    requires ParsesAsOutput(e, output)
  {
    && TimestampIn(e, output) < ts && |output| <= AmountIn(e, output)
    && AddressAtTime(e, LockOf(e, output), ts) == Some(SenderAddress(e, par))
  }

  /** Main output and remainder cover their deposits. */
  predicate DepositsCovered(e: Env, par: TransferData, amount: nat, available: nat, ts: nat)
    requires amount <= available
  {
    && MainCovered(e, par, amount, ts)
    && (available > amount ==> RemainderCovered(e, par, available - amount, ts))
  }

  predicate MainCovered(e: Env, par: TransferData, amount: nat, ts: nat) {
    MainOutputBytes(e, par, amount, ts).Some? && Covered(MainOutputBytes(e, par, amount, ts).value, amount)
  }

  // ------------------------------------------------------------------ the main output

  lemma OriginHolds(e: Env, c: Context, i: Byte, j: Byte)
    requires Sound(e) && i != 0xff
    ensures EvalConstraint(e, c, Place(false, i, j), OriginBlock(e)) == True
  {
    assert WellSized(Chain(ORIGIN_CHAIN_DATA));
    assert ORIGIN_CHAIN_DATA[0..32] == Zeros(32);
  }

  /** The blocks of a plain main output are calls of different functions. */
  lemma {:induction false} PlainBlocksDiffer(e: Env, par: TransferData, amount: nat, ts: nat)
    requires SignedTransfer(e, par) && AddsPlain(e, par)
    ensures Distinct(MainBlocks(e, par, amount, ts)) && |MainBlocks(e, par, amount, ts)| <= 5
    ensures forall j :: 3 <= j < |MainBlocks(e, par, amount, ts)| ==>
      MainBlocks(e, par, amount, ts)[j] == OriginBlock(e)
      || MainBlocks(e, par, amount, ts)[j] == e.encode(Sender(SenderAddress(e, par)))
  {
    hide SignsFor;
    var blocks, sender := MainBlocks(e, par, amount, ts), Sender(SenderAddress(e, par));
    assert WellSized(Amount(BigEndian(amount, 8))) && WellSized(Timestamp(BigEndian(ts, 4)));
    assert WellSized(sender) && WellSized(Chain(ORIGIN_CHAIN_DATA));
    assert e.decode(blocks[0]).Amount? && e.decode(blocks[1]).Timestamp? && e.decode(blocks[2]) == par.lock;
    forall j, k | 0 <= j < k < |blocks|
      ensures blocks[j] != blocks[k]
    {
      assert e.decode(blocks[j]) != e.decode(blocks[k]);
    }
  }

  /** So a plain main output is in order exactly when it covers its deposit. */
  lemma {:induction false} PlainMainHolds(e: Env, c: Context, par: TransferData, i: Byte, amount: nat, ts: nat)
    requires SignedTransfer(e, par) && AddsPlain(e, par) && SignedBy(e, c, par.key) && i != 0xff
    ensures |MainBlocks(e, par, amount, ts)| <= MAX_ELEMENTS
    ensures MadeHolds(e, c, i, MainBlocks(e, par, amount, ts), amount) <==> MainCovered(e, par, amount, ts)
  {
    hide EvalConstraint, Sound, SignsFor, SignedBy, Encode, AddsPlain, Distinct;
    PlainBlocksDiffer(e, par, amount, ts);
    forall j: Byte | 3 <= j < |MainBlocks(e, par, amount, ts)|
      ensures EvalConstraint(e, c, Place(false, i, j), MainBlocks(e, par, amount, ts)[j]) == True
    {
      OriginHolds(e, c, i, j);
      SenderHolds(e, c, par.key, i, j);
    }
  }

  // ------------------------------------------------------------------ the consumed outputs

  /** A chain lock is not opened by unlock parameters of one byte. */
  lemma OneByteOpensNoChainLock(e: Env, c: Context, i: Byte, u: Bytes, lock: Bytes)
    requires LockTags(e, lock).Some? && !AsksForAddress(e, lock)
    requires SelfUnlock(c, Place(true, i, LOCK_BLOCK)) == Some(u) && |u| == 1
    ensures EvalConstraint(e, c, Place(true, i, LOCK_BLOCK), lock) != True
  {
    hide SelfUnlock, UnlockParamsByConstraintIndex;
  }

  /** Without unlock data, an output that ends with its lock holds and opens exactly when it is the sender's own. */
  lemma {:induction false} PlainInputMeans(e: Env, utxos: UTXOs, par: TransferData, t: Transaction, c: Context,
                                           output: Bytes, i: Byte)
    requires Sound(e) && BuiltIn(e, utxos, t, c) && ParsesAsOutput(e, output) && EndsWithLock(output)
    requires i < |t.unlockBlocks| && |t.unlockBlocks[i]| > LOCK_BLOCK && |t.unlockBlocks[i][LOCK_BLOCK]| == 1
    ensures InputOpens(e, c, SenderAddress(e, par), i, output, t.unlockBlocks[i][LOCK_BLOCK], t.timestamp)
      <==> OwnInput(e, par, output, t.timestamp)
  {
    hide Sound, BuiltIn, ParsesAsOutput, TimestampIn, AmountIn, EvalConstraint, AddressAtTime, LockTags,
      AsksForAddress, TxTimestamp, SelfUnlock;
    var lock := LockOf(e, output);
    ThreeBlocks(e, output);
    BuiltReads(e, utxos, t, c);
    AddressAtTimeIsAsked(e, c, lock, t.timestamp);
    UnlockIs(e, utxos, t, c, i);
    if AddressAtTime(e, lock, t.timestamp).None? {
      OneByteOpensNoChainLock(e, c, i, t.unlockBlocks[i][LOCK_BLOCK], lock);
    }
  }

  lemma UnlockIs(e: Env, utxos: UTXOs, t: Transaction, c: Context, i: Byte)
    requires BuiltIn(e, utxos, t, c) && i < |t.unlockBlocks| && |t.unlockBlocks[i]| > LOCK_BLOCK
    ensures SelfUnlock(c, Place(true, i, LOCK_BLOCK)) == Some(t.unlockBlocks[i][LOCK_BLOCK])
  {
    hide TransactionBytes, MakeContext, Buildable, InputCommitment, SelfUnlock;
    UnlockAgrees(t, c, i, LOCK_BLOCK);
  }

  lemma {:induction false} PlainInputsMean(e: Env, utxos: UTXOs, par: TransferData, t: Transaction, c: Context,
                                           chosen: seq<OutputWithID>)
    requires Sound(e) && BuiltIn(e, utxos, t, c) && AllOutputs(e, chosen) && |chosen| <= MAX_CONSUMED
    requires par.unlockData == []
    requires forall k :: 0 <= k < |chosen| ==> EndsWithLock(chosen[k].output)
    requires UnlocksOf(par, |chosen|) == Some(t.unlockBlocks)
    ensures InputsHold(e, c, par, chosen, t.timestamp)
      <==> forall k :: 0 <= k < |chosen| ==> OwnInput(e, par, chosen[k].output, t.timestamp)
  {
    hide Sound, BuiltIn, ParsesAsOutput, InputOpens, OwnInput, EndsWithLock;
    SimpleUnlocksAre(|chosen|);
    forall k: Byte | k < |chosen|
      ensures InputOpens(e, c, SenderAddress(e, par), k, chosen[k].output, t.unlockBlocks[k][LOCK_BLOCK], t.timestamp)
        <==> OwnInput(e, par, chosen[k].output, t.timestamp)
    {
      PlainInputMeans(e, utxos, par, t, c, chosen[k].output, k);
    }
  }

  // ------------------------------------------------------------------ the transfer

  /**
   A plain transfer of outputs that end with their locks goes through if and only if its
   outputs cover their deposits, and every consumed output is older than the transaction,
   covers its own size, and has a lock, of an address or with a deadline, that asks for
   the sender's address at this time.
   */
  lemma {:induction false} PlainTransferIsAccepted(e: Env, utxos: UTXOs, par: TransferData, amount: nat,
                                                   available: nat, ts: nat,
                                                   chosen: seq<OutputWithID>)
    requires SignedTransfer(e, par) && HasSource(par) && IsPlain(e, par)
    requires amount <= available <= MAX_UINT64 && ts <= MAX_UINT32 && available == PrefixSum(e, chosen, |chosen|)
    requires |chosen| <= MAX_CONSUMED && FromLedger(utxos, chosen) && SizedLedger(utxos) && AllOutputs(e, chosen)
    requires forall k :: 0 <= k < |chosen| ==> EndsWithLock(chosen[k].output)
    ensures var b := SimpleTransferBytes(e, par, amount, available, ts, chosen);
      b.Some? && Accepts(e, utxos, b.value) <==>
        && DepositsCovered(e, par, amount, available, ts)
        && forall k :: 0 <= k < |chosen| ==> OwnInput(e, par, chosen[k].output, ts)
  {
    hide Sound, SignsFor, HasSource, FromLedger, SizedLedger, AllOutputs, EndsWithLock, PrefixSum, SimpleTransferBytes,
      Accepts, InputsHold, BuiltIn, SignedBy, UnlockedWithSignature, MadeHolds, MainBlocks, MainCovered,
      RemainderCovered, UnlocksOf;
    if DepositsCovered(e, par, amount, available, ts) {
      CoveredIsMade(e, utxos, par, amount, available, ts, chosen);
    }
    if SimpleTransferBytes(e, par, amount, available, ts, chosen).Some? {
      SimpleTransferIsAccepted(e, utxos, par, amount, available, ts, chosen);
      var t, c := SimpleTransferBuilds(e, utxos, par, amount, available, ts, chosen);
      PlainMainHolds(e, c, par, if available > amount then 1 else 0, amount, ts);
      PlainInputsMean(e, utxos, par, t, c, chosen);
    }
  }

  lemma {:induction false} CoveredIsMade(e: Env, utxos: UTXOs, par: TransferData, amount: nat, available: nat, ts: nat,
                                         chosen: seq<OutputWithID>)
    requires SignedTransfer(e, par) && par.unlockData == [] && amount <= available
    requires |chosen| <= MAX_CONSUMED && FromLedger(utxos, chosen) && SizedLedger(utxos)
    requires DepositsCovered(e, par, amount, available, ts)
    ensures SimpleTransferBytes(e, par, amount, available, ts, chosen).Some?
  {
    hide SignedTransfer, FromLedger, SizedLedger, SimpleTransferBytes, MainOutputBytes, Encode;
    SimpleTransferIsMade(e, utxos, par, amount, available, ts, chosen);
  }

  /**
   Plain transfers from the account list: with enough tokens within the first 256 outputs
   the maker reaches the amount, and its transaction goes through if and only if deposits
   are covered, no chosen output has the largest timestamp, and every chosen output covers
   its own size and asks for the sender's address at the time of the transaction.
   */
  lemma {:induction false} PlainTransferCompletes(e: Env, utxos: UTXOs, par: TransferData, amount: nat,
                                                  outs: seq<OutputWithID>,
                                                  n: nat, available: nat, ts: nat)
    requires SignedTransfer(e, par) && HasSource(par) && IsPlain(e, par) && par.timestamp <= MAX_UINT32
    requires FromLedger(utxos, outs) && SizedLedger(utxos) && AllOutputs(e, outs) && Total(e, utxos) <= MAX_UINT64
    requires forall k :: 0 <= k < |outs| ==> EndsWithLock(outs[k].output)
    requires PrefixSum(e, outs, Reach(outs)) >= amount
    requires Chosen(e, outs, par.timestamp, amount, n, available, ts)
    ensures available >= amount
    ensures var b := SimpleTransferBytes(e, par, amount, available, ts, outs[..n]);
      b.Some? && Accepts(e, utxos, b.value) <==>
        && DepositsCovered(e, par, amount, available, ts)
        && (forall k :: 0 <= k < n ==> TimestampIn(e, outs[k].output) != MAX_UINT32)
        && (forall k :: 0 <= k < n ==> |outs[k].output| <= AmountIn(e, outs[k].output))
        && (forall k :: 0 <= k < n ==> AddressAtTime(e, LockOf(e, outs[k].output), ts) == Some(SenderAddress(e, par)))
  {
    hide SignedTransfer, HasSource, IsPlain, FromLedger, SizedLedger, PrefixSum, SimpleTransferBytes, Accepts,
      ParsesAsOutput, TimestampIn, AmountIn, AddressAtTime, DepositsCovered, Total, EndsWithLock, LockOf,
      TimestampAfter, Available;
    ChosenIsBacked(e, utxos, par, amount, outs, n, available, ts);
    EnoughIsAvailable(e, utxos, outs, amount, n);
    PlainTransferIsAccepted(e, utxos, par, amount, available, ts, outs[..n]);
    assert forall k :: 0 <= k < n ==> outs[..n][k] == outs[k];
  }

  /**
   The balance filter looks at the other side of a deadline than the lock does: a
   deadline-locked output with two different addresses, which the filter lets the sender
   consume at the time of the transaction, makes the ledger reject the transaction.
   */
  lemma {:induction false} FilteredDeadlineIsRejected(e: Env, utxos: UTXOs, par: TransferData, amount: nat,
                                                      available: nat, ts: nat,
                                                      chosen: seq<OutputWithID>, k: nat)
    requires SignedTransfer(e, par) && HasSource(par) && amount <= available <= MAX_UINT64 && ts <= MAX_UINT32
    requires |chosen| <= MAX_CONSUMED && FromLedger(utxos, chosen) && SizedLedger(utxos) && AllOutputs(e, chosen)
    requires available == PrefixSum(e, chosen, |chosen|)
    requires k < |chosen| && e.decode(LockOf(e, chosen[k].output)).DeadlineLock?
    requires e.decode(LockOf(e, chosen[k].output)).main != e.decode(LockOf(e, chosen[k].output)).expiry
    requires UnlockableWith(e, LockOf(e, chosen[k].output), AccountID(e, AddressED25519(SenderAddress(e, par))), ts)
    ensures var b := SimpleTransferBytes(e, par, amount, available, ts, chosen);
      !(b.Some? && Accepts(e, utxos, b.value))
  {
    hide Sound, SignsFor, HasSource, FromLedger, SizedLedger, PrefixSum, SimpleTransferBytes, Accepts, ParsesAsOutput,
      ProducedHold, UnlocksOf, InputHolds, LockOf, UnlockableWith;
    FilterNamesOther(e, par, chosen[k].output, ts);
    if SimpleTransferBytes(e, par, amount, available, ts, chosen).Some? {
      SimpleTransferIsAccepted(e, utxos, par, amount, available, ts, chosen);
    }
  }

  lemma FilterNamesOther(e: Env, par: TransferData, output: Bytes, ts: nat)
    requires Sound(e) && ParsesAsOutput(e, output) && e.decode(LockOf(e, output)).DeadlineLock?
    requires e.decode(LockOf(e, output)).main != e.decode(LockOf(e, output)).expiry
    requires UnlockableWith(e, LockOf(e, output), AccountID(e, AddressED25519(SenderAddress(e, par))), ts)
    ensures AddressAtTime(e, LockOf(e, output), ts).Some?
    ensures AddressAtTime(e, LockOf(e, output), ts) != Some(SenderAddress(e, par))
  {
    hide Parse;
    ThreeBlocks(e, output);
    var lock := e.decode(LockOf(e, output));
    assert WellSized(AddressED25519(lock.main)) && WellSized(AddressED25519(lock.expiry))
      && WellSized(AddressED25519(SenderAddress(e, par)));
  }

  // ------------------------------------------------------------------ the adjusted amount

  lemma {:induction false} SameLengths(xs: seq<Bytes>, ys: seq<Bytes>)
    requires |xs| == |ys| && forall k :: 0 <= k < |xs| ==> |xs[k]| == |ys[k]|
    ensures MaxClass(xs) == MaxClass(ys) && TotalLength(xs) == TotalLength(ys)
    ensures Encode(xs).Some? == Encode(ys).Some?
    ensures Encode(xs).Some? ==> |Encode(xs).value| == |Encode(ys).value|
  {
    if xs == [] {
    } else {
      SameLengths(xs[1..], ys[1..]);
    }
    BodyLength(xs, Width(MaxClass(xs)));
    BodyLength(ys, Width(MaxClass(ys)));
  }

  /**
   The adjusted amount is the larger of the amount asked for and the size of the main
   output, in 32 bits, whatever its final amount and timestamp, without the sender
   constraint. So it covers a main output within 32 bits if no sender is added, and with a
   sender exactly when the amount was enough in the first place.
   */
  lemma {:induction false} AdjustedAmountCoversDeposit(e: Env, par: TransferData, ts: nat)
    requires Sound(e) && AdjustedAmount(e, par).Some?
    ensures var amount := AdjustedAmount(e, par).value;
      var main, plain := MainOutputBytes(e, par, amount, ts), MainOutputBytes(e, par.(addSender := false), amount, ts);
      if par.adjustToMinimum then
        && plain.Some?
        && var size := |plain.value| % (MAX_UINT32 + 1);
        && amount == (if size > par.amount then size else par.amount)
        && (par.addSender && main.Some? && |plain.value| <= MAX_UINT32 ==>
             (|main.value| <= amount <==> |main.value| <= par.amount))
      else amount == par.amount
  {
    hide NewOutputBytes, Sound;
    var amount := AdjustedAmount(e, par).value;
    NewOutputLength(e, par.amount, 0, amount, ts, par.lock, par.addConstraints);
    if par.addSender && MainOutputBytes(e, par, amount, ts).Some? {
      SenderIsLonger(e, par, amount, ts);
    }
    assert [] + par.addConstraints == par.addConstraints;
  }

  lemma SenderIsLonger(e: Env, par: TransferData, amount: nat, ts: nat)
    requires Sound(e) && par.addSender && MainOutputBytes(e, par, amount, ts).Some?
    ensures var without := NewOutputBytes(e, amount, ts, par.lock, par.addConstraints);
      without.Some? && |without.value| < |MainOutputBytes(e, par, amount, ts).value|
  {
    var front := OutputBlocks(e, amount, ts, par.lock, []);
    var sender := e.encode(Sender(e.blake2b(par.key.publicKey)));
    assert WellSized(Sender(e.blake2b(par.key.publicKey)));
    assert OutputBlocks(e, amount, ts, par.lock, par.addConstraints) == front + par.addConstraints;
    assert MainBlocks(e, par, amount, ts) == front + [sender] + par.addConstraints;
    InsertedIsLonger(front, sender, par.addConstraints);
  }

  /** An encoding grows with its elements. */
  lemma InsertedIsLonger(xs: seq<Bytes>, x: Bytes, ys: seq<Bytes>)
    requires Encode(xs + [x] + ys).Some?
    ensures Encode(xs + ys).Some? && |Encode(xs + ys).value| + |x| <= |Encode(xs + [x] + ys).value|
  {
    hide Body, MaxClass, TotalLength, Encodable;
    InsertedLengths(xs, x, ys);
    var less, more := xs + ys, xs + [x] + ys;
    EncodesMeansEncodable(less);
    EncodesMeansEncodable(more);
    InsertedEncodable(xs, x, ys);
    BodyLength(less, Width(MaxClass(less)));
    BodyLength(more, Width(MaxClass(more)));
    var v, w := Width(MaxClass(less)), Width(MaxClass(more));
    ProductsGrow(|less|, |more|, v, w);
  }

  lemma ProductsGrow(m: nat, n: nat, v: nat, w: nat)
    requires m <= n && v <= w
    ensures m * v <= n * w
  {
    assert m * v <= n * v <= n * w;
  }

  lemma InsertedEncodable(xs: seq<Bytes>, x: Bytes, ys: seq<Bytes>)
    requires Encodable(xs + [x] + ys)
    ensures Encodable(xs + ys)
  {
    var more := xs + [x] + ys;
    forall k | 0 <= k < |xs + ys|
      ensures (xs + ys)[k] == more[if k < |xs| then k else k + 1]
    {
    }
  }

  lemma {:induction false} InsertedLengths(xs: seq<Bytes>, x: Bytes, ys: seq<Bytes>)
    ensures TotalLength(xs + ys) + |x| == TotalLength(xs + [x] + ys) && MaxClass(xs + ys) <= MaxClass(xs + [x] + ys)
  {
    if xs == [] {
      assert xs + ys == ys && (xs + [x] + ys)[1..] == ys;
    } else {
      InsertedLengths(xs[1..], x, ys);
      assert (xs + ys)[1..] == xs[1..] + ys && (xs + [x] + ys)[1..] == xs[1..] + [x] + ys;
    }
  }

  /** The size of a new output depends neither on its amount nor on its timestamp. */
  lemma NewOutputLength(e: Env, amount: nat, ts: nat, amount': nat, ts': nat, lock: Script, extra: seq<Bytes>)
    requires Sound(e)
    ensures NewOutputBytes(e, amount, ts, lock, extra).Some? == NewOutputBytes(e, amount', ts', lock, extra).Some?
    ensures NewOutputBytes(e, amount, ts, lock, extra).Some? ==>
      |NewOutputBytes(e, amount, ts, lock, extra).value| == |NewOutputBytes(e, amount', ts', lock, extra).value|
  {
    hide Encode, BigEndian;
    var before, after := OutputBlocks(e, amount, ts, lock, extra), OutputBlocks(e, amount', ts', lock, extra);
    assert |before[0]| == |after[0]| && |before[1]| == |after[1]|;
    SameLengths(before, after);
  }
}
