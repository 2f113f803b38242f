/**
 What transfers deliver: the outputs that an accepted transfer leaves in the ledger, read
 from their bytes, and what the recipient's account gains by them.
 */
module Delivery {
  import opened Bytes
  import opened Codec
  import opened Context
  import opened Constraints
  import opened Validation
  import opened Ledger
  import opened Supply
  import opened Runs
  import opened Lineage
  import opened Accounts
  import opened OutputView
  import opened ConstraintMeanings
  import opened Acceptance
  import opened UTXODatabase
  import opened Selection
  import opened Builder
  import opened StandardOutputs
  import opened Transfer
  import opened ChainTransfer
  import opened BuiltTransactions
  import opened SimpleTransferAccepted
  import opened ChainTransferAccepted

  /** The blocks of an output: this amount, this timestamp, this lock, and then exactly the further ones. */
  predicate Reads(e: Env, output: Bytes, amount: nat, ts: nat, lock: Script, further: seq<Bytes>) {
    && IsOutput(e, output) && Tokens(e, output) == amount && TimeOf(e, output) == Some(ts)
    && LockIn(e, output) == lock
    && Parse(output, 256).value[3..] == further
  }

  /** The recipient's output: after the lock comes the sender's address, if so asked, and then the added constraints. */
  ghost predicate ReadsAsMain(e: Env, output: Bytes, par: TransferData, amount: nat, ts: nat) {
    if par.addSender then
      exists sender :: Reads(e, output, amount, ts, par.lock, [sender] + par.addConstraints)
                       && e.decode(sender) == Sender(e.blake2b(par.key.publicKey))
    else Reads(e, output, amount, ts, par.lock, par.addConstraints)
  }

  lemma NewOutputReads(e: Env, amount: nat, ts: nat, lock: Script, extra: seq<Bytes>, output: Bytes)
    requires Sound(e) && WellSized(lock) && IsLock(lock) && amount <= MAX_UINT64 && ts <= MAX_UINT32
    requires NewOutputBytes(e, amount, ts, lock, extra) == Some(output)
    ensures Reads(e, output, amount, ts, lock, extra)
  {
    hide Parse, Encode, Sound;
    EncodedReads(e, OutputBlocks(e, amount, ts, lock, extra), output);
    NumberBlocks(e, amount, ts);
    assert e.decode(e.encode(lock)) == lock by { DecodesBack(e, lock); }
    assert OutputBlocks(e, amount, ts, lock, extra)[3..] == extra;
  }

  lemma DecodesBack(e: Env, s: Script)
    requires Sound(e) && WellSized(s)
    ensures e.decode(e.encode(s)) == s
  {
  }

  lemma EncodedReads(e: Env, blocks: seq<Bytes>, output: Bytes)
    requires EncodeUpTo256(blocks) == Some(output)
    ensures Parse(output, 256) == Some(blocks)
  {
    hide Parse, Encode;
    ListAgrees(blocks);
  }

  /** Amount and timestamp constraints of the builder decode to their numbers. */
  lemma NumberBlocks(e: Env, amount: nat, ts: nat)
    requires Sound(e) && amount <= MAX_UINT64 && ts <= MAX_UINT32
    ensures var a := e.decode(e.encode(Amount(BigEndian(amount, 8))));
      var t := e.decode(e.encode(Timestamp(BigEndian(ts, 4))));
      && a.Amount? && |a.arg| == 8 && FromBigEndian(a.arg) == amount
      && t.Timestamp? && |t.arg| == 4 && FromBigEndian(t.arg) == ts && e.encode(Timestamp(BigEndian(ts, 4))) != []
  {
    assert WellSized(Amount(BigEndian(amount, 8))) && WellSized(Timestamp(BigEndian(ts, 4)));
    Pow256Values();
    BigEndianRoundTrip(amount, 8);
    BigEndianRoundTrip(ts, 4);
  }

  lemma MainReads(e: Env, par: TransferData, amount: nat, ts: nat, output: Bytes)
    requires SignedTransfer(e, par) && amount <= MAX_UINT64 && ts <= MAX_UINT32
    requires MainOutputBytes(e, par, amount, ts) == Some(output)
    ensures ReadsAsMain(e, output, par, amount, ts)
  {
    hide Sound, SignsFor, NewOutputBytes, Reads;
    NewOutputReads(e, amount, ts, par.lock, MainExtra(e, par), output);
    if par.addSender {
      var sender := Sender(e.blake2b(par.key.publicKey));
      assert WellSized(sender) by { DigestsHave32(e, par.key.publicKey); }
      DecodesBack(e, sender);
      assert MainExtra(e, par) == [e.encode(sender)] + par.addConstraints;
    } else {
      assert MainExtra(e, par) == par.addConstraints;
    }
  }

  lemma DigestsHave32(e: Env, x: Bytes)
    requires Sound(e)
    ensures |e.blake2b(x)| == 32
  {
  }

  // ------------------------------------------------------------------ the ledger after a transaction

  /** The ledger after the transaction: without what it consumes, and with its outputs under its ID and their index. */
  ghost predicate LeavesBehind(e: Env, before: UTXOs, b: Bytes, consumed: seq<OutputWithID>, outputs: seq<Bytes>,
                               after: UTXOs)
    requires |outputs| <= 256
  {
    && (forall i: Byte :: i < |outputs| ==> e.blake2b(b) + [i] in after && after[e.blake2b(b) + [i]] == outputs[i])
    && (forall id :: id in after && (forall i: Byte :: i < |outputs| ==> id != e.blake2b(b) + [i]) ==>
          id in before && after[id] == before[id] && forall k :: 0 <= k < |consumed| ==> consumed[k].id != id)
    && (forall id :: id in before && (forall k :: 0 <= k < |consumed| ==> consumed[k].id != id) ==> id in after)
  }

  /** What a built transaction consumes and produces, by ID. */
  lemma {:induction false} BuiltIDs(e: Env, utxos: UTXOs, t: Transaction, c: Context, consumed: seq<OutputWithID>,
                                    id: Bytes)
    requires BuiltIn(e, utxos, t, c) && t.inputIDs == IDsOf(consumed)
    ensures Consumes(c.txBytes, id) <==> exists k :: 0 <= k < |consumed| && consumed[k].id == id
    ensures Produces(e, c.txBytes, id) <==> exists i: Byte :: i < |t.outputs| && id == e.blake2b(c.txBytes) + [i]
    ensures forall i: Byte :: i < |t.outputs| && id == e.blake2b(c.txBytes) + [i] ==>
      Produces(e, c.txBytes, id) && ProducedAt(e, c.txBytes, id) == t.outputs[i]
  {
    hide TransactionBytes, MakeContext, Buildable, InputCommitment, InputIDs, Outputs, KeyOf;
    ListsAgree(t);
    if k :| 0 <= k < |consumed| && consumed[k].id == id {
      assert t.inputIDs[k] == id;
    }
    forall i: Byte
      ensures KeyOf(e.blake2b(c.txBytes), |t.outputs|, e.blake2b(c.txBytes) + [i]) <==> i < |t.outputs|
      ensures (e.blake2b(c.txBytes) + [i])[|e.blake2b(c.txBytes)|] == i
    {
      OutputIDIsKey(e.blake2b(c.txBytes), i, |t.outputs|);
    }
    if Produces(e, c.txBytes, id) {
      KeyOfIsID(e.blake2b(c.txBytes), |t.outputs|, id);
    }
  }

  lemma KeyOfIsID(txid: Bytes, n: nat, id: Bytes)
    requires KeyOf(txid, n, id)
    ensures exists i: Byte :: i < n && id == txid + [i]
  {
    KeyIsOutputID(txid, n, id);
    assert id == txid + [id[|txid|]];
  }

  /** A built transaction that is accepted leaves behind what it was built from. */
  lemma {:induction false} BuiltLeavesBehind(e: Env, s: State, t: Transaction, c: Context,
                                             consumed: seq<OutputWithID>)
    requires BuiltIn(e, s.utxos, t, c) && Accepts(e, s.utxos, c.txBytes) && t.inputIDs == IDsOf(consumed)
    ensures |t.outputs| <= 256
    ensures LeavesBehind(e, s.utxos, c.txBytes, consumed, t.outputs, Step(e, s, c.txBytes).utxos)
  {
    hide TransactionBytes, MakeContext, Buildable, InputCommitment, Accepts, Apply, Produces, Consumes, ProducedAt;
    var b := c.txBytes;
    AcceptedParses(e, s.utxos, b);
    ApplyContents(e, s.utxos, b);
    forall id
      ensures Consumes(b, id) <==> exists k :: 0 <= k < |consumed| && consumed[k].id == id
      ensures Produces(e, b, id) <==> exists i: Byte :: i < |t.outputs| && id == e.blake2b(b) + [i]
      ensures forall i: Byte :: i < |t.outputs| && id == e.blake2b(b) + [i] ==>
        Produces(e, b, id) && ProducedAt(e, b, id) == t.outputs[i]
    {
      BuiltIDs(e, s.utxos, t, c, consumed, id);
    }
  }

  lemma OutputIsThere(e: Env, before: UTXOs, b: Bytes, consumed: seq<OutputWithID>, outputs: seq<Bytes>, after: UTXOs,
                      i: Byte)
    requires |outputs| <= 256 && LeavesBehind(e, before, b, consumed, outputs, after) && i < |outputs|
    ensures e.blake2b(b) + [i] in after && after[e.blake2b(b) + [i]] == outputs[i]
  {
  }

  // ------------------------------------------------------------------ the simple transfer

  /**
   What an accepted transfer leaves behind: the chosen outputs are gone; the recipient's
   output is there with exactly the amount, under the recipient's lock; and if more was
   chosen, the rest is there under the lock of the source account, at index 0.
   */
  lemma {:induction false} SimpleTransferDelivers(e: Env, s: State, par: TransferData, amount: nat, available: nat,
                                                  ts: nat, chosen: seq<OutputWithID>)
    requires SignedTransfer(e, par) && HasSource(par) && amount <= available <= MAX_UINT64 && ts <= MAX_UINT32
    requires |chosen| <= MAX_CONSUMED && FromLedger(s.utxos, chosen) && SizedLedger(s.utxos)
    requires SimpleTransferBytes(e, par, amount, available, ts, chosen).Some?
    requires Accepts(e, s.utxos, SimpleTransferBytes(e, par, amount, available, ts, chosen).value)
    ensures var b := SimpleTransferBytes(e, par, amount, available, ts, chosen).value;
      if available == amount then
        exists main :: ReadsAsMain(e, main, par, amount, ts)
                       && LeavesBehind(e, s.utxos, b, chosen, [main], Step(e, s, b).utxos)
      else
        exists remainder, main :: ReadsAsMain(e, main, par, amount, ts)
                                  && Reads(e, remainder, available - amount, ts, par.sourceAccount, [])
                                  && LeavesBehind(e, s.utxos, b, chosen, [remainder, main], Step(e, s, b).utxos)
  {
    hide Sound, SignsFor, FromLedger, SizedLedger, SimpleTransferBytes, Accepts, BuiltIn, SignedBy,
      UnlockedWithSignature, UnlocksOf, MainOutputBytes, NewOutputBytes, Reads, ReadsAsMain, LeavesBehind, Step;
    var t, c := SimpleTransferBuilds(e, s.utxos, par, amount, available, ts, chosen);
    BuiltLeavesBehind(e, s, t, c, chosen);
    MainReads(e, par, amount, ts, t.outputs[|t.outputs| - 1]);
    if available != amount {
      NewOutputReads(e, available - amount, ts, par.sourceAccount, [], t.outputs[0]);
      assert t.outputs == [t.outputs[0], t.outputs[1]];
    } else {
      assert t.outputs == [t.outputs[0]];
    }
  }

  // ------------------------------------------------------------------ the transfer from a chain

  /**
   The successor of a chain output: a new amount and timestamp, a chain constraint with the
   id of the chain and the transition from input 0, and every other block as it was.
   */
  predicate ReadsAsSuccessor(e: Env, output: Bytes, chain: ChainOutput, amount: nat, ts: nat) {
    && IsOutput(e, output) && Tokens(e, output) == amount && TimeOf(e, output) == Some(ts)
    && Parse(chain.output, 256).Some?
    && var blocks, was := Parse(output, 256).value, Parse(chain.output, 256).value;
    && 2 < chain.block < |blocks| == |was|
    && e.decode(blocks[chain.block]) == Chain(chain.chainID + [0, chain.block, 0])
    && forall j :: 2 <= j < |was| && j != chain.block ==> blocks[j] == was[j]
  }

  lemma {:induction false} SuccessorReads(e: Env, utxos: UTXOs, chain: ChainOutput, amount: nat, ts: nat, output: Bytes)
    requires Sound(e) && ChainOutputFound(e, utxos, chain) && amount <= MAX_UINT64 && ts <= MAX_UINT32
    requires EncodeUpTo256(SuccessorBlocks(e, chain, amount, ts)) == Some(output)
    ensures ReadsAsSuccessor(e, output, chain, amount, ts)
  {
    hide Parse, Encode, Sound, ParsesAsOutput, ChainBlockFor, SuccessorBlocks, EncodeUpTo256;
    ThreeBlocks(e, chain.output);
    ChainIDSized(e, chain, Blocks(chain.output).value[chain.block]);
    ChainCallDecodes(e, chain);
    EncodedReads(e, SuccessorBlocks(e, chain, amount, ts), output);
    SuccessorBlocksAre(e, utxos, chain, amount, ts);
    NumberBlocks(e, amount, ts);
  }

  /**
   What an accepted transfer from a chain leaves behind: the chain output and the chosen
   ones are gone; at index 0 the chain lives on, with the tokens that remain; at index 1
   is the recipient's output with exactly the amount.
   */
  lemma {:induction false} ChainTransferDelivers(e: Env, s: State, par: TransferData, chain: ChainOutput, amount: nat,
                                                 fromOutputs: nat, ts: nat, chosen: seq<OutputWithID>)
    requires SignedTransfer(e, par) && ChainOutputFound(e, s.utxos, chain) && SizedLedger(s.utxos) && ts <= MAX_UINT32
    requires Besides(s.utxos, chain, chosen) && AllOutputs(e, chosen) && fromOutputs == PrefixSum(e, chosen, |chosen|)
    requires amount < fromOutputs + AmountIn(e, chain.output) <= MAX_UINT64
    requires ChainTransferBytes(e, par, chain, amount, fromOutputs, ts, chosen).Some?
    requires Accepts(e, s.utxos, ChainTransferBytes(e, par, chain, amount, fromOutputs, ts, chosen).value)
    ensures var b := ChainTransferBytes(e, par, chain, amount, fromOutputs, ts, chosen).value;
      && (exists successor, main ::
            ReadsAsSuccessor(e, successor, chain, fromOutputs + AmountIn(e, chain.output) - amount, ts)
            && ReadsAsMain(e, main, par, amount, ts)
            && LeavesBehind(e, s.utxos, b, AllConsumed(chain, chosen), [successor, main], Step(e, s, b).utxos))
      && LiveChain(e, Step(e, s, b).utxos, Holder(e.blake2b(b) + [0], chain.block), chain.chainID)
  {
    hide Sound, SignsFor, FromLedger, SizedLedger, AllOutputs, PrefixSum, Accepts, SignedBy, UnlockedWithSignature,
      MainOutputBytes, Reads, ReadsAsMain, LeavesBehind, Step, AmountIn, ChainTransaction, TransactionBytes, BuiltIn,
      ChainUnlocks, ParsesAsOutput, ChainBlockFor, SuccessorHolds, MainHolds, ChainInputHolds, ChosenHold,
      ReadsAsSuccessor, SuccessorBlocks, Besides, LiveChain, ChainOutputFound;
    var available := fromOutputs + AmountIn(e, chain.output);
    FoundParses(e, s.utxos, chain);
    ChainTransferIsAccepted(e, s.utxos, par, chain, amount, fromOutputs, ts, chosen);
    var t, c := ChainTransferBuilds(e, s.utxos, par, chain, amount, available, ts, chosen);
    BuiltLeavesBehind(e, s, t, c, AllConsumed(chain, chosen));
    SuccessorReads(e, s.utxos, chain, available - amount, ts, t.outputs[0]);
    MainReads(e, par, amount, ts, t.outputs[1]);
    assert t.outputs == [t.outputs[0], t.outputs[1]];
    OutputIsThere(e, s.utxos, c.txBytes, AllConsumed(chain, chosen), t.outputs, Step(e, s, c.txBytes).utxos, 0);
    ChainIsThere(e, s.utxos, chain, c.txBytes, t.outputs, available - amount, ts, Step(e, s, c.txBytes).utxos);
  }

  lemma {:induction false} ChainIsThere(e: Env, utxos: UTXOs, chain: ChainOutput, b: Bytes, outputs: seq<Bytes>,
                                        amount: nat, ts: nat, after: UTXOs)
    requires Sound(e) && ChainOutputFound(e, utxos, chain) && chain.chainID != Zeros(32)
    requires |outputs| == 2 && ReadsAsSuccessor(e, outputs[0], chain, amount, ts)
    requires e.blake2b(b) + [0] in after && after[e.blake2b(b) + [0]] == outputs[0]
    ensures LiveChain(e, after, Holder(e.blake2b(b) + [0], chain.block), chain.chainID)
  {
    hide Parse, Sound, ParsesAsOutput, ChainBlockFor;
    ThreeBlocks(e, chain.output);
    ChainIDSized(e, chain, Blocks(chain.output).value[chain.block]);
    assert (chain.chainID + [0, chain.block, 0])[..32] == chain.chainID;
  }

  // ------------------------------------------------------------------ the account of the recipient

  /** An output that is not for the account. */
  predicate Elsewhere(e: Env, output: Bytes, account: Script) {
    IsOutput(e, output) ==> !LockNames(LockIn(e, output), account)
  }

  /** None of the outputs that are consumed, and none but output `k` of those produced, is for the account. */
  predicate OnlyForAccount(e: Env, consumed: seq<OutputWithID>, outputs: seq<Bytes>, k: Byte, account: Script) {
    && k < |outputs| && !Elsewhere(e, outputs[k], account)
    && (forall i :: 0 <= i < |outputs| && i != k ==> Elsewhere(e, outputs[i], account))
    && (forall j :: 0 <= j < |consumed| ==> Elsewhere(e, consumed[j].output, account))
  }

  /** The account has exactly what it had and this new output, and its tokens. */
  ghost predicate Receives(e: Env, before: UTXOs, after: UTXOs, account: Script, id: Bytes, output: Bytes) {
    && OnlyOutputs(e, before) && OnlyOutputs(e, after) && id !in before
    && var had, has := OwnedBy(e, before, account, None), OwnedBy(e, after, account, None);
    && has == had[id := output] && |has| == |had| + 1
    && Total(e, has) == Total(e, had) + AmountIn(e, output)
    && (TimeOf(e, output).Some? && AllTimed(e, had) ==> AllTimed(e, has))
  }

  /** What was spent is gone and what was produced is new, and only output `k` of all these is for the account. */
  ghost predicate Settles(e: Env, before: UTXOs, b: Bytes, consumed: seq<OutputWithID>, outputs: seq<Bytes>,
                          after: UTXOs, k: Byte, account: Script) {
    && |outputs| <= 256 && FromLedger(before, consumed) && LeavesBehind(e, before, b, consumed, outputs, after)
    && OnlyForAccount(e, consumed, outputs, k, account)
    && forall i: Byte :: i < |outputs| ==> e.blake2b(b) + [i] !in before
  }

  lemma {:induction false} OwnedAfter(e: Env, before: UTXOs, b: Bytes, consumed: seq<OutputWithID>,
                                      outputs: seq<Bytes>, after: UTXOs, k: Byte, account: Script, oid: Bytes)
    requires OnlyOutputs(e, before) && OnlyOutputs(e, after)
    requires Settles(e, before, b, consumed, outputs, after, k, account)
    ensures var had, has := OwnedBy(e, before, account, None), OwnedBy(e, after, account, None);
      && (oid in has <==> oid in had || oid == e.blake2b(b) + [k])
      && (oid in had ==> has[oid] == had[oid])
  {
    hide IsOutput, LockNames, LockIn;
    if i: Byte :| i < |outputs| && oid == e.blake2b(b) + [i] {
      assert after[oid] == outputs[i];
      if i == k {
      } else {
        assert oid != e.blake2b(b) + [k] by { assert (e.blake2b(b) + [k])[|e.blake2b(b)|] == k; }
      }
    } else if oid in before {
      if j :| 0 <= j < |consumed| && consumed[j].id == oid {
        assert Elsewhere(e, consumed[j].output, account);
      }
    }
  }

  lemma {:induction false} AccountReceives(e: Env, before: UTXOs, b: Bytes, consumed: seq<OutputWithID>,
                                           outputs: seq<Bytes>, after: UTXOs, k: Byte, account: Script)
    requires OnlyOutputs(e, before) && OnlyOutputs(e, after)
    requires Settles(e, before, b, consumed, outputs, after, k, account)
    ensures k < |outputs| && Receives(e, before, after, account, e.blake2b(b) + [k], outputs[k])
  {
    hide IsOutput, LockNames, LockIn, Total, AmountIn, TimeOf, OwnedBy, OnlyOutputs, AllTimed, Settles;
    var id, had, has := e.blake2b(b) + [k], OwnedBy(e, before, account, None), OwnedBy(e, after, account, None);
    OutputSettles(e, before, b, consumed, outputs, after, k, account);
    forall oid
      ensures oid in has <==> oid in had || oid == id
      ensures oid in had ==> has[oid] == had[oid]
    {
      OwnedAfter(e, before, b, consumed, outputs, after, k, account, oid);
    }
    OwnedAreThere(e, before, account);
    OwnedAreThere(e, after, account);
    OneMore(e, had, has, id, outputs[k]);
  }

  lemma OutputSettles(e: Env, before: UTXOs, b: Bytes, consumed: seq<OutputWithID>, outputs: seq<Bytes>, after: UTXOs,
                      k: Byte, account: Script)
    requires Settles(e, before, b, consumed, outputs, after, k, account)
    ensures k < |outputs| && e.blake2b(b) + [k] !in before
    ensures e.blake2b(b) + [k] in after && after[e.blake2b(b) + [k]] == outputs[k]
  {
    hide Elsewhere, FromLedger;
  }

  lemma OneMore(e: Env, had: UTXOs, has: UTXOs, id: Bytes, output: Bytes)
    requires id !in had && id in has && has[id] == output
    requires forall oid :: oid in has <==> oid in had || oid == id
    requires forall oid :: oid in had ==> has[oid] == had[oid]
    ensures has == had[id := output] && |has| == |had| + 1
    ensures Total(e, has) == Total(e, had) + AmountIn(e, output)
    ensures TimeOf(e, output).Some? && AllTimed(e, had) ==> AllTimed(e, has)
  {
    hide Total, AmountIn, TimeOf;
    assert has == had[id := output];
    hide AllTimed;
    KeysGrow(had, id, output);
    TotalAdd(e, had, id, output);
  }

  lemma KeysGrow(m: UTXOs, id: Bytes, output: Bytes)
    requires id !in m
    ensures |m[id := output]| == |m| + 1
  {
    assert m[id := output].Keys == m.Keys + {id};
  }

  lemma OwnedAreThere(e: Env, utxos: UTXOs, account: Script)
    requires OnlyOutputs(e, utxos)
    ensures var owned := OwnedBy(e, utxos, account, None);
      forall oid :: oid in owned ==> oid in utxos && owned[oid] == utxos[oid]
  {
    hide IsOutput, LockNames, LockIn;
  }

  lemma {:induction false} ReachableIsSized(e: Env, db: Database)
    requires IsReachable(e, db)
    ensures SizedLedger(db.state.utxos)
  {
    hide SizedLedger, CollisionFree, Sound, Genesis, RunTo, DatabaseAt;
    var supply, address, ts, txs :|
      CleanRun(e, supply, address, ts, txs) && db == DatabaseAt(e, InitialDatabase(e, supply, address, ts), txs, |txs|);
    DatabaseRuns(e, InitialDatabase(e, supply, address, ts), txs, |txs|);
    ReachableSized(e, supply, address, ts, txs, |txs|);
  }

  /** The IDs of the outputs are new. */
  lemma {:induction false} IDsAreNew(e: Env, db: Database, t: Transaction, c: Context)
    requires IsReachable(e, db) && CollisionFree(e, Step(e, db.state, c.txBytes).accepted)
    requires BuiltIn(e, db.state.utxos, t, c) && Accepts(e, db.state.utxos, c.txBytes)
    ensures IsReachable(e, Accounts.AddTransaction(e, db, c.txBytes))
    ensures forall i: Byte :: i < |t.outputs| ==> e.blake2b(c.txBytes) + [i] !in db.state.utxos
  {
    hide TransactionBytes, MakeContext, Buildable, InputCommitment, Accepts, Outputs, IsReachable, CollisionFree,
      CommandsOf;
    ReachableNext(e, db, c.txBytes);
    ListsAgree(t);
    forall i: Byte | i < |t.outputs|
      ensures Produces(e, c.txBytes, e.blake2b(c.txBytes) + [i])
    {
      OutputIDIsKey(e.blake2b(c.txBytes), i, |t.outputs|);
    }
  }

  /** An output read like this has this amount and a timestamp, and is for the accounts its lock names. */
  lemma ReadsMeans(e: Env, output: Bytes, amount: nat, ts: nat, lock: Script, further: seq<Bytes>, account: Script)
    requires Reads(e, output, amount, ts, lock, further)
    ensures AmountIn(e, output) == amount && TimeOf(e, output) == Some(ts)
    ensures Elsewhere(e, output, account) <==> !LockNames(lock, account)
  {
    hide Parse, IsLockCall, LockNames;
    AmountIsTokens(e, output);
  }

  /** A database in which this transaction can be added without a digest collision. */
  ghost predicate CanFollow(e: Env, db: Database, b: Bytes) {
    IsReachable(e, db) && Accepts(e, db.state.utxos, b) && CollisionFree(e, Step(e, db.state, b).accepted)
  }

  /** The recipient's output is produced and is the only one for the account: the account then receives it. */
  lemma {:induction false} MainIsReceived(e: Env, db: Database, par: TransferData, amount: nat, ts: nat, t: Transaction,
                                          c: Context, consumed: seq<OutputWithID>, account: Script)
    requires CanFollow(e, db, c.txBytes) && BuiltIn(e, db.state.utxos, t, c)
    requires t.inputIDs == IDsOf(consumed) && FromLedger(db.state.utxos, consumed) && 0 < |t.outputs|
    requires ReadsAsMain(e, t.outputs[|t.outputs| - 1], par, amount, ts) && LockNames(par.lock, account)
    requires forall i :: 0 <= i < |t.outputs| - 1 ==> Elsewhere(e, t.outputs[i], account)
    requires forall j :: 0 <= j < |consumed| ==> Elsewhere(e, consumed[j].output, account)
    ensures var next := Accounts.AddTransaction(e, db, c.txBytes);
      IsReachable(e, next) && exists id, main ::
        ReadsAsMain(e, main, par, amount, ts) && AmountIn(e, main) == amount && TimeOf(e, main) == Some(ts)
        && Receives(e, db.state.utxos, next.state.utxos, account, id, main)
  {
    hide IsReachable, BuiltIn, Accepts, CollisionFree, FromLedger, ReadsAsMain, LockNames, Receives, OnlyOutputs,
      LeavesBehind, CommandsOf, AmountIn, TimeOf, IsOutput, LockIn;
    var b, k := c.txBytes, |t.outputs| - 1;
    var next := Accounts.AddTransaction(e, db, b);
    assert next.state == Step(e, db.state, b);
    hide Accounts.AddTransaction, Step;
    IDsAreNew(e, db, t, c);
    ReachableFacts(e, db);
    ReachableFacts(e, next);
    BuiltLeavesBehind(e, db.state, t, c, consumed);
    MainMeans(e, t.outputs[k], par, amount, ts, account);
    AccountReceives(e, db.state.utxos, b, consumed, t.outputs, next.state.utxos, k, account);
  }

  lemma MainMeans(e: Env, output: Bytes, par: TransferData, amount: nat, ts: nat, account: Script)
    requires ReadsAsMain(e, output, par, amount, ts)
    ensures AmountIn(e, output) == amount && TimeOf(e, output) == Some(ts)
    ensures Elsewhere(e, output, account) <==> !LockNames(par.lock, account)
  {
    hide Reads, LockNames, Elsewhere, AmountIn, TimeOf;
    if par.addSender {
      var sender :| Reads(e, output, amount, ts, par.lock, [sender] + par.addConstraints);
      ReadsMeans(e, output, amount, ts, par.lock, [sender] + par.addConstraints, account);
    } else {
      ReadsMeans(e, output, amount, ts, par.lock, par.addConstraints, account);
    }
  }

  /**
   Delivery: when a transfer is accepted, every account that the recipient's lock names has
   exactly one more output, with exactly the amount, and a balance that is greater by
   exactly that; unless the account also owned what was spent, or gets the rest.
   */
  lemma {:induction false} SimpleTransferPays(e: Env, db: Database, par: TransferData, amount: nat, available: nat,
                                              ts: nat, chosen: seq<OutputWithID>, account: Script)
    requires SignedTransfer(e, par) && HasSource(par) && amount <= available <= MAX_UINT64 && ts <= MAX_UINT32
    requires |chosen| <= MAX_CONSUMED && FromLedger(db.state.utxos, chosen)
    requires SimpleTransferBytes(e, par, amount, available, ts, chosen).Some?
    requires CanFollow(e, db, SimpleTransferBytes(e, par, amount, available, ts, chosen).value)
    requires LockNames(par.lock, account) && (available == amount || !LockNames(par.sourceAccount, account))
    requires forall j :: 0 <= j < |chosen| ==> Elsewhere(e, chosen[j].output, account)
    ensures var b := SimpleTransferBytes(e, par, amount, available, ts, chosen).value;
      var next := Accounts.AddTransaction(e, db, b);
      IsReachable(e, next) && exists id, main ::
        ReadsAsMain(e, main, par, amount, ts) && AmountIn(e, main) == amount && TimeOf(e, main) == Some(ts)
        && Receives(e, db.state.utxos, next.state.utxos, account, id, main)
  {
    hide Sound, SignsFor, FromLedger, SizedLedger, SimpleTransferBytes, Accepts, BuiltIn, SignedBy, CollisionFree,
      UnlockedWithSignature, UnlocksOf, MainOutputBytes, NewOutputBytes, Reads, ReadsAsMain, Receives, Step,
      LockNames, Elsewhere, Accounts.AddTransaction, IsReachable, AmountIn, TimeOf;
    ReachableIsSized(e, db);
    var t, c := SimpleTransferBuilds(e, db.state.utxos, par, amount, available, ts, chosen);
    MainReads(e, par, amount, ts, t.outputs[|t.outputs| - 1]);
    if available != amount {
      NewOutputReads(e, available - amount, ts, par.sourceAccount, [], t.outputs[0]);
      ReadsMeans(e, t.outputs[0], available - amount, ts, par.sourceAccount, [], account);
    }
    MainIsReceived(e, db, par, amount, ts, t, c, chosen, account);
  }

  /** The same for a transfer from a chain, if the lock of the chain output is not for the account. */
  lemma {:induction false} ChainTransferPays(e: Env, db: Database, par: TransferData, chain: ChainOutput, amount: nat,
                                             fromOutputs: nat, ts: nat, chosen: seq<OutputWithID>, account: Script)
    requires SignedTransfer(e, par) && ChainOutputFound(e, db.state.utxos, chain) && ts <= MAX_UINT32
    requires Besides(db.state.utxos, chain, chosen) && amount < fromOutputs + AmountIn(e, chain.output) <= MAX_UINT64
    requires ChainTransferBytes(e, par, chain, amount, fromOutputs, ts, chosen).Some?
    requires CanFollow(e, db, ChainTransferBytes(e, par, chain, amount, fromOutputs, ts, chosen).value)
    requires LockNames(par.lock, account) && Elsewhere(e, chain.output, account)
    requires forall j :: 0 <= j < |chosen| ==> Elsewhere(e, chosen[j].output, account)
    ensures var b := ChainTransferBytes(e, par, chain, amount, fromOutputs, ts, chosen).value;
      var next := Accounts.AddTransaction(e, db, b);
      IsReachable(e, next) && exists id, main ::
        ReadsAsMain(e, main, par, amount, ts) && AmountIn(e, main) == amount && TimeOf(e, main) == Some(ts)
        && Receives(e, db.state.utxos, next.state.utxos, account, id, main)
  {
    hide Sound, SignsFor, FromLedger, SizedLedger, Accepts, SignedBy, UnlockedWithSignature, CollisionFree,
      MainOutputBytes, Reads, ReadsAsMain, Step, AmountIn, ChainTransaction, TransactionBytes, BuiltIn, IsReachable,
      ChainUnlocks, ParsesAsOutput, ChainBlockFor, ReadsAsSuccessor, SuccessorBlocks, ChainOutputFound, Receives,
      LockNames, Elsewhere, Accounts.AddTransaction, TimeOf;
    var available := fromOutputs + AmountIn(e, chain.output);
    ReachableIsSized(e, db);
    ReachableFacts(e, db);
    FoundParses(e, db.state.utxos, chain);
    var t, c := ChainTransferBuilds(e, db.state.utxos, par, chain, amount, available, ts, chosen);
    var all := AllConsumed(chain, chosen);
    AllFromLedger(e, db.state.utxos, chain, chosen);
    SuccessorReads(e, db.state.utxos, chain, available - amount, ts, t.outputs[0]);
    SuccessorElsewhere(e, db.state.utxos, chain, t.outputs[0], available - amount, ts, account);
    MainReads(e, par, amount, ts, t.outputs[1]);
    MainIsReceived(e, db, par, amount, ts, t, c, all, account);
  }

  /** The successor has the lock of the chain output. */
  lemma {:induction false} SuccessorElsewhere(e: Env, utxos: UTXOs, chain: ChainOutput, output: Bytes, amount: nat,
                                              ts: nat, account: Script)
    requires ReadsAsSuccessor(e, output, chain, amount, ts) && ChainOutputFound(e, utxos, chain)
    requires OnlyOutputs(e, utxos) && Elsewhere(e, chain.output, account)
    ensures Elsewhere(e, output, account)
  {
    hide Parse, IsLockCall, LockNames, ParsesAsOutput, ChainBlockFor;
  }

  /** The balance of an account after it has received an output. */
  lemma BalanceGrows(e: Env, before: UTXOs, after: UTXOs, account: Script, amount: nat)
    requires exists id, main ::
      AmountIn(e, main) == amount && TimeOf(e, main).Some? && Receives(e, before, after, account, id, main)
    ensures OnlyOutputs(e, before) && OnlyOutputs(e, after)
    ensures var had := BalanceOf(e, OwnedBy(e, before, account, None), OwnedBy(e, before, account, None));
      var has := BalanceOf(e, OwnedBy(e, after, account, None), OwnedBy(e, after, account, None));
      had.Some? ==> has == Some((had.value.0 + amount, had.value.1 + 1))
  {
    hide AmountIn, TimeOf, OwnedBy, OnlyOutputs, AllTimed, Total;
  }

  /** As the database shows it: the balance grows by the amount, and the number of outputs by one. */
  method PayAndLook(db: UTXODB, par: TransferData, amount: nat, available: nat, ts: nat, chosen: seq<OutputWithID>,
                    account: Script) returns (before: Option<(nat, nat)>, after: Option<(nat, nat)>)
    requires db.ledger.e == db.e
    requires SignedTransfer(db.e, par) && HasSource(par) && amount <= available <= MAX_UINT64 && ts <= MAX_UINT32
    requires |chosen| <= MAX_CONSUMED && FromLedger(db.ledger.utxos, chosen)
    requires SimpleTransferBytes(db.e, par, amount, available, ts, chosen).Some?
    requires CanFollow(db.e, db.Now(), SimpleTransferBytes(db.e, par, amount, available, ts, chosen).value)
    requires IsAccount(account) && LockNames(par.lock, account)
    requires available == amount || !LockNames(par.sourceAccount, account)
    requires forall j :: 0 <= j < |chosen| ==> Elsewhere(db.e, chosen[j].output, account)
    modifies db.ledger, db.indexer
    ensures before.Some? ==> after == Some((before.value.0 + amount, before.value.1 + 1))
  {
    hide *;
    ghost var b := SimpleTransferBytes(db.e, par, amount, available, ts, chosen).value;
    ghost var utxos, next := db.ledger.utxos, Accounts.AddTransaction(db.e, db.Now(), b).state.utxos;
    assert IsReachable(db.e, db.Now()) && db.Now().state.utxos == utxos by { NowIs(db, b); }
    SimpleTransferPays(db.e, db.Now(), par, amount, available, ts, chosen, account);
    BalanceGrows(db.e, utxos, next, account, amount);
    var acc := db.e.encode(account);
    before := db.Account(acc, None);
    var _ := db.AddTransaction(SimpleTransferBytes(db.e, par, amount, available, ts, chosen).value);
    assert db.Now().state.utxos == db.ledger.utxos by { NowHas(db); }
    after := db.Account(acc, None);
  }

  lemma NowHas(db: UTXODB)
    ensures db.Now().state.utxos == db.ledger.utxos
  {
  }

  lemma NowIs(db: UTXODB, b: Bytes)
    requires CanFollow(db.e, db.Now(), b)
    ensures IsReachable(db.e, db.Now()) && db.Now().state.utxos == db.ledger.utxos
  {
    hide IsReachable, Accepts, CollisionFree;
  }
}
