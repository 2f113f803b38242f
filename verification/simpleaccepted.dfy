/**
 Completeness of the simple transfer: exactly when the ledger accepts the transaction
 that the maker puts together.
 */
module SimpleTransferAccepted {
  import opened Bytes
  import opened Codec
  import opened LazyTree
  import opened Context
  import opened Constraints
  import opened Validation
  import opened Ledger
  import opened Supply
  import opened OutputView
  import opened Selection
  import opened Builder
  import opened StandardOutputs
  import opened Transfer
  import opened BuiltTransactions

  /** The sender's key makes valid signatures, and the target is a lock of the library. */
  ghost predicate SignedTransfer(e: Env, par: TransferData) {
    Sound(e) && SignsFor(e, par.key) && WellSized(par.lock) && IsLock(par.lock)
  }

  /** The remainder goes to an address or to a chain. */
  predicate HasSource(par: TransferData) {
    WellSized(par.sourceAccount) && (par.sourceAccount.AddressED25519? || par.sourceAccount.ChainLock?)
  }

  function SenderAddress(e: Env, par: TransferData): Bytes {
    e.blake2b(par.key.publicKey)
  }

  // ------------------------------------------------------------------ consumed outputs

  /** The unlock blocks of the transaction; None if unlock data is put at an input that does not exist. */
  function UnlocksOf(par: TransferData, n: nat): (r: Option<seq<seq<Bytes>>>)
    ensures r.Some? ==> |r.value| == n && forall k :: 0 <= k < n ==> |r.value[k]| > LOCK_BLOCK
  {
    UnlocksGrow(SimpleUnlocks(n), par.unlockData);
    SimpleUnlocksAre(n);
    ApplyUnlocks(SimpleUnlocks(n), par.unlockData)
  }

  lemma SimpleUnlocksAre(n: nat)
    ensures forall k :: 0 <= k < n ==> SimpleUnlocks(n)[k] == [[], [], [if k == 0 then 0xff else 0]]
  {
    forall k | 0 <= k < n
      ensures SimpleUnlocks(n)[k] == [[], [], [if k == 0 then 0xff else 0]]
    {
      var block := Grow([], LOCK_BLOCK, [if k == 0 then 0xff else 0]);
      assert SimpleUnlocks(n)[k] == block;
    }
  }

  /**
   When a lock opens: if it asks for an address at this time, that has to be the
   sender's, and the unlock parameters must have one byte. A chain lock is evaluated.
   */
  predicate LockOpens(e: Env, c: Context, address: Bytes, i: Byte, lock: Bytes, u: Bytes, ts: nat) {
    if AddressAtTime(e, lock, ts).Some? then AddressAtTime(e, lock, ts) == Some(address) && |u| == 1
    else EvalConstraint(e, c, Place(true, i, LOCK_BLOCK), lock) == True
  }

  /** The consumed output holds in everything but its lock, and its lock opens with these unlock parameters. */
  predicate InputOpens(e: Env, c: Context, address: Bytes, i: Byte, output: Bytes, u: Bytes, ts: nat)
    requires ParsesAsOutput(e, output)
  {
    InputHolds(e, c, i, output, ts) && LockOpens(e, c, address, i, LockOf(e, output), u, ts)
  }

  /** Every consumed output holds and opens. */
  ghost predicate InputsHold(e: Env, c: Context, par: TransferData, chosen: seq<OutputWithID>, ts: nat)
    requires AllOutputs(e, chosen) && |chosen| <= MAX_CONSUMED
  {
    && UnlocksOf(par, |chosen|).Some?
    && forall k: Byte {:trigger chosen[k]} :: k < |chosen| ==>
         InputOpens(e, c, SenderAddress(e, par), k, chosen[k].output, UnlocksOf(par, |chosen|).value[k][LOCK_BLOCK], ts)
  }

  /** In a signed transaction a lock that opens holds, and in an accepted one a lock that holds opens. */
  lemma {:induction false} LockMeans(e: Env, utxos: UTXOs, t: Transaction, c: Context, key: SigningKey, i: Byte)
    requires Sound(e) && BuiltIn(e, utxos, t, c) && SignedBy(e, c, key)
    requires UnlockedWithSignature(e, c, e.blake2b(key.publicKey)) == True
    requires forall k :: 0 <= k < |c.consumed| ==> ParsesAsOutput(e, c.consumed[k])
    requires i < |c.consumed| && i < |t.unlockBlocks| && LOCK_BLOCK < |t.unlockBlocks[i]|
    ensures var lock := LockOf(e, c.consumed[i]);
      var holds := EvalConstraint(e, c, Place(true, i, LOCK_BLOCK), lock) == True;
      var opens := LockOpens(e, c, e.blake2b(key.publicKey), i, lock, t.unlockBlocks[i][LOCK_BLOCK], t.timestamp);
      && (opens ==> holds) && (holds && Accepts(e, utxos, c.txBytes) ==> opens)
  {
    hide Sound, TransactionBytes, MakeContext, Buildable, Accepts, EvalConstraint, InputCommitment, ParsesAsOutput,
      AddressAtTime, LockTags, UnlockedWithSignature, SignedBy, TxTimestamp, ConsumedOutput, ConsumedConstraintByIndex,
      Self, Parse;
    var lock, u := LockOf(e, c.consumed[i]), t.unlockBlocks[i][LOCK_BLOCK];
    var address := AddressAtTime(e, lock, t.timestamp);
    BuiltReads(e, utxos, t, c);
    ThreeBlocks(e, c.consumed[i]);
    BlockByIndex(c, true, i, c.consumed[i], LOCK_BLOCK);
    UnlockAgrees(t, c, i, LOCK_BLOCK);
    LockIsThere(e, c.consumed[i]);
    if |u| == 1 && u[0] < i {
      ThreeBlocks(e, c.consumed[u[0]]);
      BlockByIndex(c, true, u[0], c.consumed[u[0]], LOCK_BLOCK);
    }
    if address.Some? {
      if Accepts(e, utxos, c.txBytes) {
        AcceptedLockIsSender(e, utxos, t, c, key, i);
      }
      if address == Some(e.blake2b(key.publicKey)) {
        SignedLockMeans(e, c, i, u, lock, t.timestamp);
      }
    }
  }

  lemma LockIsThere(e: Env, output: Bytes)
    requires Sound(e) && ParsesAsOutput(e, output)
    ensures LockOf(e, output) != []
  {
    hide Parse;
  }

  lemma {:induction false} ConsumedSide(e: Env, utxos: UTXOs, par: TransferData, t: Transaction, c: Context,
                                        chosen: seq<OutputWithID>)
    requires SignedTransfer(e, par) && BuiltIn(e, utxos, t, c) && SignedBy(e, c, par.key)
    requires UnlockedWithSignature(e, c, SenderAddress(e, par)) == True
    requires |chosen| <= MAX_CONSUMED && c.consumed == OutputsOf(chosen) && AllOutputs(e, chosen)
    requires UnlocksOf(par, |chosen|) == Some(t.unlockBlocks)
    ensures InputsHold(e, c, par, chosen, t.timestamp) ==> OutputsOK(e, c, true, c.consumed)
    ensures OutputsOK(e, c, true, c.consumed) && Accepts(e, utxos, c.txBytes) ==>
      InputsHold(e, c, par, chosen, t.timestamp)
  {
    hide Sound, BuiltIn, Accepts, EvalConstraint, ParsesAsOutput, UnlockedWithSignature, SignedBy, OutputOK, UnlocksOf,
      InputHolds, LockOpens, SignsFor, Blocks;
    var address := SenderAddress(e, par);
    forall k: Byte | k < |chosen|
      ensures var opens := InputOpens(e, c, address, k, chosen[k].output, t.unlockBlocks[k][LOCK_BLOCK], t.timestamp);
        var ok := OutputOK(e, c, true, k, c.consumed[k]);
        (opens ==> ok) && (ok && Accepts(e, utxos, c.txBytes) ==> opens)
    {
      assert c.consumed[k] == chosen[k].output;
      ConsumedMeans(e, utxos, t, c, k);
      LockMeans(e, utxos, t, c, par.key, k);
    }
  }

  // ------------------------------------------------------------------ produced outputs

  function MainBlocks(e: Env, par: TransferData, amount: nat, ts: nat): seq<Bytes> {
    OutputBlocks(e, amount, ts, par.lock, MainExtra(e, par))
  }

  function RemainderBlocks(e: Env, par: TransferData, amount: nat, ts: nat): seq<Bytes> {
    OutputBlocks(e, amount, ts, par.sourceAccount, [])
  }

  /** Main output and remainder cover their deposits, and the constraints of the main output hold and differ. */
  predicate ProducedHold(e: Env, c: Context, par: TransferData, amount: nat, available: nat, ts: nat)
    requires amount <= available
  {
    && |MainBlocks(e, par, amount, ts)| <= MAX_ELEMENTS
    && MadeHolds(e, c, if available > amount then 1 else 0, MainBlocks(e, par, amount, ts), amount)
    && (available > amount ==> RemainderCovered(e, par, available - amount, ts))
  }

  predicate RemainderCovered(e: Env, par: TransferData, amount: nat, ts: nat) {
    && Encode(RemainderBlocks(e, par, amount, ts)).Some?
    && Covered(Encode(RemainderBlocks(e, par, amount, ts)).value, amount)
  }

  /** The blocks of an output without further constraints differ. */
  lemma ThreeBlocksDiffer(e: Env, amount: nat, ts: nat, lock: Script)
    requires Sound(e) && WellSized(lock) && IsLock(lock)
    ensures Distinct(OutputBlocks(e, amount, ts, lock, []))
  {
    var blocks := OutputBlocks(e, amount, ts, lock, []);
    assert WellSized(Amount(BigEndian(amount, 8))) && WellSized(Timestamp(BigEndian(ts, 4)));
    assert e.decode(blocks[0]).Amount? && e.decode(blocks[1]).Timestamp? && e.decode(blocks[2]) == lock;
  }

  lemma {:induction false} ProducedSide(e: Env, utxos: UTXOs, par: TransferData, t: Transaction, c: Context,
                                        amount: nat, available: nat)
    requires SignedTransfer(e, par) && HasSource(par) && BuiltIn(e, utxos, t, c)
    requires amount <= available <= MAX_UINT64
    requires SimpleOutputs(e, par, amount, available, t.timestamp) == Some(t.outputs)
    ensures OutputsOK(e, c, false, t.outputs) <==> ProducedHold(e, c, par, amount, available, t.timestamp)
    ensures Sum(e, t.outputs) == available
  {
    hide Sound, BuiltIn, OutputOK, MadeHolds, Encode, AmountIn, MainExtra, SignsFor, OutputBlocks, Distinct, Covered;
    var ts, last := t.timestamp, |t.outputs| - 1;
    TimestampFits(e, utxos, t, c);
    MainFits(e, par, amount, ts);
    NewBlocks(e, amount, ts, par.lock, MainExtra(e, par));
    ProducedMeans(e, utxos, t, c, last, MainBlocks(e, par, amount, ts), amount);
    assert SumTo(e, t.outputs, 1) == SumTo(e, t.outputs, 0) + AmountIn(e, t.outputs[0]);
    if available > amount {
      NewBlocks(e, available - amount, ts, par.sourceAccount, []);
      ProducedMeans(e, utxos, t, c, 0, RemainderBlocks(e, par, available - amount, ts), available - amount);
      RemainderHolds(e, c, par, available - amount, ts);
      assert SumTo(e, t.outputs, 2) == SumTo(e, t.outputs, 1) + AmountIn(e, t.outputs[1]);
    }
  }

  lemma MainFits(e: Env, par: TransferData, amount: nat, ts: nat)
    requires MainOutputBytes(e, par, amount, ts).Some?
    ensures |MainExtra(e, par)| + 3 <= MAX_ELEMENTS
    ensures |MainBlocks(e, par, amount, ts)| == |MainExtra(e, par)| + 3
  {
    hide Encode;
  }

  lemma RemainderHolds(e: Env, c: Context, par: TransferData, amount: nat, ts: nat)
    requires Sound(e) && HasSource(par)
    ensures MadeHolds(e, c, 0, RemainderBlocks(e, par, amount, ts), amount) <==> RemainderCovered(e, par, amount, ts)
  {
    hide Encode, Sound;
    ThreeBlocksDiffer(e, amount, ts, par.sourceAccount);
  }

  lemma TimestampFits(e: Env, utxos: UTXOs, t: Transaction, c: Context)
    requires BuiltIn(e, utxos, t, c)
    ensures t.timestamp <= MAX_UINT32
  {
  }

  // ------------------------------------------------------------------ the transfer

  /** The transfer as a transaction that is ready to be validated. */
  lemma {:induction false} SimpleTransferBuilds(e: Env, utxos: UTXOs, par: TransferData, amount: nat, available: nat,
                                                ts: nat,
                                                chosen: seq<OutputWithID>) returns (t: Transaction, c: Context)
    requires SignedTransfer(e, par) && amount <= available && ts <= MAX_UINT32
    requires |chosen| <= MAX_CONSUMED && FromLedger(utxos, chosen) && SizedLedger(utxos)
    requires SimpleTransferBytes(e, par, amount, available, ts, chosen).Some?
    ensures BuiltIn(e, utxos, t, c) && c.consumed == OutputsOf(chosen) && t.timestamp == ts
    ensures t.inputIDs == IDsOf(chosen)
    ensures SimpleTransferBytes(e, par, amount, available, ts, chosen) == Some(c.txBytes)
    ensures UnlocksOf(par, |chosen|) == Some(t.unlockBlocks)
    ensures SimpleOutputs(e, par, amount, available, ts) == Some(t.outputs)
    ensures SignedBy(e, c, par.key) && UnlockedWithSignature(e, c, SenderAddress(e, par)) == True
  {
    hide Sound, TransactionBytes, Sealed, FromLedger, SizedLedger, SignsFor, UnlockedWithSignature, SignedBy,
      MakeContext, Buildable, InputCommitment, MainOutputBytes, NewOutputBytes;
    t := SimpleTransaction(e, par, amount, available, ts, chosen).value;
    c := Context(TransactionBytes(t).value, OutputsOf(chosen));
    var raw := EMPTY_TRANSACTION.(inputIDs := IDsOf(chosen),
                                  outputs := SimpleOutputs(e, par, amount, available, ts).value,
                                  unlockBlocks := UnlocksOf(par, |chosen|).value);
    SealedIsBuilt(e, utxos, par.key, chosen, raw, ts, c.txBytes);
  }

  /**
   The ledger accepts the transfer of outputs it holds, whatever they are, if and only if
   the main output and the remainder cover their deposits, the constraints added to the
   main output hold and differ, and every consumed output is older than the transaction,
   covers its own size, asks for the sender's address at this time and is given unlock
   data of one byte for it, and holds in its further blocks.
   */
  lemma {:induction false} SimpleTransferIsAccepted(e: Env, utxos: UTXOs, par: TransferData, amount: nat,
                                                    available: nat, ts: nat,
                                                    chosen: seq<OutputWithID>)
    requires SignedTransfer(e, par) && HasSource(par) && amount <= available <= MAX_UINT64 && ts <= MAX_UINT32
    requires |chosen| <= MAX_CONSUMED && FromLedger(utxos, chosen) && SizedLedger(utxos) && AllOutputs(e, chosen)
    requires available == PrefixSum(e, chosen, |chosen|)
    requires SimpleTransferBytes(e, par, amount, available, ts, chosen).Some?
    ensures var b := SimpleTransferBytes(e, par, amount, available, ts, chosen).value;
      var c := Context(b, OutputsOf(chosen));
      Accepts(e, utxos, b) <==> ProducedHold(e, c, par, amount, available, ts) && InputsHold(e, c, par, chosen, ts)
  {
    hide SignedTransfer, HasSource, FromLedger, SizedLedger, AllOutputs, PrefixSum, SimpleTransferBytes, BuiltIn,
      Accepts, ProducedHold, InputsHold, SignedBy, UnlockedWithSignature, OutputsOK, Sum, SimpleOutputs, UnlocksOf;
    var t, c := SimpleTransferBuilds(e, utxos, par, amount, available, ts, chosen);
    BuiltIsAccepted(e, utxos, t, c);
    ConsumedSide(e, utxos, par, t, c, chosen);
    ProducedSide(e, utxos, par, t, c, amount, available);
    SumIsPrefix(e, chosen);
  }

  lemma {:induction false} SumOfChosen(e: Env, chosen: seq<OutputWithID>, n: nat)
    requires n <= |chosen|
    ensures SumTo(e, OutputsOf(chosen), n) == PrefixSum(e, chosen, n)
  {
    hide AmountIn;
    if n == 0 {
    } else {
      SumOfChosen(e, chosen, n - 1);
    }
  }

  lemma SumIsPrefix(e: Env, chosen: seq<OutputWithID>)
    ensures Sum(e, OutputsOf(chosen)) == PrefixSum(e, chosen, |chosen|)
  {
    SumOfChosen(e, chosen, |chosen|);
  }

  /** Unlock data for existing inputs, not too long. */
  predicate UnlockDataFits(data: seq<UnlockData>, n: nat) {
    forall k :: 0 <= k < |data| ==> data[k].outputIndex < n && |data[k].data| <= MAX_UNLOCK_DATA
  }

  lemma {:induction false} UnlocksFit(blocks: seq<seq<Bytes>>, data: seq<UnlockData>)
    requires UnlockDataFits(data, |blocks|) && forall k :: 0 <= k < |blocks| ==> SmallBlock(blocks[k])
    ensures var r := ApplyUnlocks(blocks, data);
      r.Some? && |r.value| == |blocks| && forall k :: 0 <= k < |blocks| ==> SmallBlock(r.value[k])
  {
    hide Grow;
    if data == [] {
    } else {
      UnlocksFit(blocks, data[..|data| - 1]);
    }
  }

  /** The transfer can be made when its outputs fit in 16 bits and its unlock data fits. */
  lemma {:induction false} SimpleTransferIsMade(e: Env, utxos: UTXOs, par: TransferData, amount: nat, available: nat,
                                                ts: nat,
                                                chosen: seq<OutputWithID>)
    requires SignedTransfer(e, par) && amount <= available
    requires |chosen| <= MAX_CONSUMED && FromLedger(utxos, chosen) && SizedLedger(utxos)
    requires UnlockDataFits(par.unlockData, |chosen|)
    requires var outputs := SimpleOutputs(e, par, amount, available, ts);
      outputs.Some? && forall k :: 0 <= k < |outputs.value| ==> |outputs.value[k]| <= MAX_UINT16
    ensures SimpleTransferBytes(e, par, amount, available, ts, chosen).Some?
  {
    hide Sound, TransactionBytes, Sealed, FromLedger, SizedLedger, SignsFor, MainOutputBytes, NewOutputBytes,
      SmallBlock, ApplyUnlocks, UnlockDataFits, Fetched, InputsOK, SimpleUnlocks;
    var outputs := SimpleOutputs(e, par, amount, available, ts).value;
    ListedInputs(utxos, chosen);
    SimpleUnlocksSmall(|chosen|);
    UnlocksFit(SimpleUnlocks(|chosen|), par.unlockData);
    var unlocks := ApplyUnlocks(SimpleUnlocks(|chosen|), par.unlockData).value;
    var raw := EMPTY_TRANSACTION.(inputIDs := IDsOf(chosen), outputs := outputs, unlockBlocks := unlocks);
    SmallSeals(e, par.key, OutputsOf(chosen), raw, ts);
  }

  lemma SimpleUnlocksSmall(n: nat)
    ensures |SimpleUnlocks(n)| == n && forall k :: 0 <= k < n ==> SmallBlock(SimpleUnlocks(n)[k])
  {
    SimpleUnlocksAre(n);
  }

  // ------------------------------------------------------------------ from the list of outputs to the ledger

  /** The number of outputs the maker looks at. */
  function Reach(outs: seq<OutputWithID>): (n: nat)
    ensures n <= |outs| && n <= MAX_CONSUMED
  {
    if |outs| < MAX_CONSUMED then |outs| else MAX_CONSUMED
  }

  /** If the first 256 outputs have enough tokens, a shortest prefix exists within them. */
  lemma {:induction false} PrefixExists(e: Env, outs: seq<OutputWithID>, amount: nat, n: nat) returns (k: nat)
    requires n <= |outs| && (n < |outs| ==> n > 0 && Available(e, outs, n) >= amount)
    ensures k <= n && ShortestPrefix(e, outs, amount, k)
  {
    hide Available;
    if m: nat :| 0 < m < n && Available(e, outs, m) >= amount {
      k := PrefixExists(e, outs, amount, m);
    } else {
      k := n;
    }
  }

  lemma {:induction false} PrefixSumGrows(e: Env, outs: seq<OutputWithID>, m: nat, n: nat)
    requires m <= n <= |outs|
    ensures PrefixSum(e, outs, m) <= PrefixSum(e, outs, n)
    decreases n - m
  {
    hide AmountIn;
    if m == n {
    } else {
      PrefixSumGrows(e, outs, m, n - 1);
    }
  }

  lemma {:induction false} PrefixOfSum(e: Env, outs: seq<OutputWithID>, n: nat, m: nat)
    requires n <= m <= |outs|
    ensures PrefixSum(e, outs[..m], n) == PrefixSum(e, outs, n)
  {
    hide AmountIn;
    if n == 0 {
    } else {
      PrefixOfSum(e, outs, n - 1, m);
    }
  }

  /** What the choice of the maker gives: an exact sum within 64 bits, and the timestamp of the transaction. */
  lemma {:induction false} ChosenIsBacked(e: Env, utxos: UTXOs, par: TransferData, amount: nat,
                                          outs: seq<OutputWithID>, n: nat,
                                          available: nat, ts: nat)
    requires par.timestamp <= MAX_UINT32 && FromLedger(utxos, outs) && AllOutputs(e, outs)
    requires Total(e, utxos) <= MAX_UINT64
    requires Chosen(e, outs, par.timestamp, amount, n, available, ts)
    ensures FromLedger(utxos, outs[..n]) && AllOutputs(e, outs[..n])
    ensures available == PrefixSum(e, outs[..n], n) <= MAX_UINT64 && ts <= MAX_UINT32
    ensures (forall k :: 0 <= k < n ==> TimestampIn(e, outs[k].output) < ts)
      <==> (forall k :: 0 <= k < n ==> TimestampIn(e, outs[k].output) != MAX_UINT32)
  {
    hide AmountIn, TimestampIn, ParsesAsOutput, Total, TimestampAfter, Available;
    SelectionSumIsExact(e, utxos, outs, n);
    PrefixSumBounded(e, utxos, outs, n);
    TimestampBounds(e, par.timestamp, outs, n);
    TimestampIsLater(e, par.timestamp, outs, n);
    PrefixOfSum(e, outs, n, n);
  }

  /**
   Simple-transfer completeness: if listed outputs of the ledger have enough tokens within
   the first 256, then the maker's choice reaches the amount, and the ledger accepts the
   transaction the maker puts together, if it can be put together, exactly under the
   conditions of `SimpleTransferIsAccepted`.
   */
  lemma {:induction false} SimpleTransferCompletes(e: Env, utxos: UTXOs, par: TransferData, amount: nat,
                                                   outs: seq<OutputWithID>,
                                                   n: nat, available: nat, ts: nat)
    requires SignedTransfer(e, par) && HasSource(par) && par.timestamp <= MAX_UINT32
    requires FromLedger(utxos, outs) && SizedLedger(utxos) && AllOutputs(e, outs) && Total(e, utxos) <= MAX_UINT64
    requires PrefixSum(e, outs, Reach(outs)) >= amount
    requires Chosen(e, outs, par.timestamp, amount, n, available, ts)
    ensures available >= amount && AllOutputs(e, outs[..n])
    ensures SimpleTransferBytes(e, par, amount, available, ts, outs[..n]).Some? ==>
      var b := SimpleTransferBytes(e, par, amount, available, ts, outs[..n]).value;
      var c := Context(b, OutputsOf(outs[..n]));
      Accepts(e, utxos, b) <==> ProducedHold(e, c, par, amount, available, ts) && InputsHold(e, c, par, outs[..n], ts)
  {
    hide SignedTransfer, HasSource, FromLedger, SizedLedger, AllOutputs, PrefixSum, SimpleTransferBytes, Accepts,
      ProducedHold, InputsHold, Total, Available, TimestampAfter;
    ChosenIsBacked(e, utxos, par, amount, outs, n, available, ts);
    EnoughIsAvailable(e, utxos, outs, amount, n);
    if SimpleTransferBytes(e, par, amount, available, ts, outs[..n]).Some? {
      SimpleTransferIsAccepted(e, utxos, par, amount, available, ts, outs[..n]);
    }
  }

  lemma EnoughIsAvailable(e: Env, utxos: UTXOs, outs: seq<OutputWithID>, amount: nat, n: nat)
    requires FromLedger(utxos, outs) && Total(e, utxos) <= MAX_UINT64
    requires PrefixSum(e, outs, Reach(outs)) >= amount
    requires ShortestPrefix(e, outs, amount, n) && n <= MAX_CONSUMED
    ensures Available(e, outs, n) >= amount
  {
    hide AmountIn, Total;
    SelectionSumIsExact(e, utxos, outs, n);
    if n == |outs| {
      PrefixSumGrows(e, outs, Reach(outs), n);
    }
  }

  /** With enough tokens within the first 256 outputs the maker does find a choice. */
  lemma ChoiceExists(e: Env, utxos: UTXOs, outs: seq<OutputWithID>, ts: nat, amount: nat)
    requires FromLedger(utxos, outs) && Total(e, utxos) <= MAX_UINT64 && AllOutputs(e, outs)
    requires PrefixSum(e, outs, Reach(outs)) >= amount
    ensures exists n: nat, available: nat, timestamp: nat :: Chosen(e, outs, ts, amount, n, available, timestamp)
  {
    hide AmountIn, Total, ParsesAsOutput, TimestampIn;
    SelectionSumIsExact(e, utxos, outs, Reach(outs));
    var n := PrefixExists(e, outs, amount, Reach(outs));
    assert Chosen(e, outs, ts, amount, n, Available(e, outs, n), TimestampAfter(e, ts, outs, n));
  }
}
