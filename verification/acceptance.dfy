/**
 Acceptance, stated once more without the steps of the validator: what the ledger asks of
 the bytes of a transaction, and what is therefore true of every unspent output.
 */
module Acceptance {
  import opened Bytes
  import opened Codec
  import opened LazyTree
  import opened Context
  import opened Constraints
  import opened Validation
  import opened Ledger
  import opened Supply
  import opened Runs
  import opened Chains
  import opened Lineage
  import opened StandardOutputs
  import opened ConstraintMeanings

  /** A lock of the library: an address, a chain, or a deadline with two addresses. */
  predicate IsLockCall(lock: Script) {
    || (lock.AddressED25519? && |lock.arg| == 32)
    || (lock.ChainLock? && |lock.arg| == 32)
    || (lock.DeadlineLock? && |lock.deadline| == 4 && |lock.main| == 32 && |lock.expiry| == 32)
  }

  /** The bytes are a list of at most 256 constraints: first an amount of eight bytes, third a lock. */
  predicate IsOutput(e: Env, output: Bytes) {
    && Parse(output, 256).Some? && |Parse(output, 256).value| >= 3
    && var blocks := Parse(output, 256).value;
    && e.decode(blocks[0]).Amount? && |e.decode(blocks[0]).arg| == 8
    && IsLockCall(e.decode(blocks[2]))
  }

  /** The amount of an output. */
  function Tokens(e: Env, output: Bytes): nat
    requires IsOutput(e, output)
  {
    FromBigEndian(e.decode(Parse(output, 256).value[0]).arg)
  }

  /** The lock of an output. */
  function LockIn(e: Env, output: Bytes): Script
    requires IsOutput(e, output)
  {
    e.decode(Parse(output, 256).value[2])
  }

  /** And the amount covers one token a byte. */
  predicate WellFormed(e: Env, output: Bytes) {
    IsOutput(e, output) && |output| <= Tokens(e, output)
  }

  /** Every constraint of the output evaluates to true, and a produced output has none twice. */
  predicate ConstraintsHold(e: Env, c: Context, consumed: bool, i: Byte, output: Bytes)
    requires Parse(output, 256).Some?
  {
    var blocks := Parse(output, 256).value;
    && (forall j {:trigger EvalConstraint(e, c, Place(consumed, i, j), blocks[j])} ::
          0 <= j < |blocks| ==> EvalConstraint(e, c, Place(consumed, i, j), blocks[j]) == True)
    && (consumed || forall j, k :: 0 <= j < k < |blocks| ==> blocks[j] != blocks[k])
  }

  // ------------------------------------------------------------------ one output

  lemma LockTagsMean(e: Env, block: Bytes)
    ensures LockTags(e, block).Some? <==> IsLockCall(e.decode(block))
  {
  }

  /** Index entries can always be made: an index command never makes the validator reject or panic. */
  lemma {:induction false} IndexNeverFails(e: Env, c: Context, consumed: bool, i: Byte, blocks: seq<Bytes>)
    requires 3 <= |blocks| <= MAX_ELEMENTS && OutputIDAt(e, c, consumed, i).Some?
    requires BlocksHold(e, c, consumed, i, blocks, 0)
    ensures IndexOK(e, c, consumed, i, blocks) <==> IsLockCall(e.decode(blocks[2]))
  {
    hide EvalConstraint, FirstChainFrom, LockTags, InputID, SelfUnlock, IsLockCall, ChainIDOf;
    LockTagsMean(e, blocks[LOCK_BLOCK]);
    FirstChainIs(e, blocks, 3);
    var k := FirstChainFrom(e, blocks, 3);
    if consumed && k.Some? {
      ConsumedChainHasUnlock(e, c, i, k.value, blocks[k.value]);
    }
  }

  /** An output is in order exactly when it is well formed and its constraints hold. */
  lemma {:induction false} OutputInOrder(e: Env, c: Context, consumed: bool, i: Byte, output: Bytes)
    requires OutputIDAt(e, c, consumed, i).Some?
    ensures OutputOK(e, c, consumed, i, output)
      <==> WellFormed(e, output) && ConstraintsHold(e, c, consumed, i, output)
  {
    hide EvalConstraint, Parse, OutputIDAt, IndexOK, IsLockCall;
    var blocks := Blocks(output);
    if blocks.Some? && |blocks.value| >= 3 && RunsOK(e, c, consumed, i, blocks.value) {
      IndexNeverFails(e, c, consumed, i, blocks.value);
    } else if blocks.Some? && |blocks.value| < 3 {
      assert !IndexOK(e, c, consumed, i, blocks.value) by { NoLock(e, c, consumed, i, blocks.value); }
    }
  }

  lemma NoLock(e: Env, c: Context, consumed: bool, i: Byte, blocks: seq<Bytes>)
    requires |blocks| < 3
    ensures !IndexOK(e, c, consumed, i, blocks)
  {
  }

  // ------------------------------------------------------------------ one transaction

  /** The inputs are distinct IDs of 33 bytes of unspent outputs. */
  predicate InputsUnspent(utxos: UTXOs, ids: seq<Bytes>) {
    && (forall i :: 0 <= i < |ids| ==> |ids[i]| == 33 && ids[i] in utxos && utxos[ids[i]] != [])
    && (forall i, j :: 0 <= i < j < |ids| ==> ids[i] != ids[j])
  }

  /** The sum of the amounts of well-formed outputs. */
  function AllTokens(e: Env, outputs: seq<Bytes>): nat
    requires forall i :: 0 <= i < |outputs| ==> WellFormed(e, outputs[i])
  {
    if outputs == [] then 0
    else
      var last := outputs[|outputs| - 1];
      assert WellFormed(e, last);
      AllTokens(e, outputs[..|outputs| - 1]) + Tokens(e, last)
  }

  ghost predicate SideInOrder(e: Env, c: Context, consumed: bool, outputs: seq<Bytes>)
    requires |outputs| <= 256
  {
    forall i: Byte {:trigger outputs[i]} :: i < |outputs| ==>
      WellFormed(e, outputs[i]) && ConstraintsHold(e, c, consumed, i, outputs[i])
  }

  /** What the ledger asks of a transaction. */
  ghost predicate InOrder(e: Env, utxos: UTXOs, tx: Bytes) {
    && Parse(tx, 8).Some? && |Parse(tx, 8).value| > 5
    && var fields := Parse(tx, 8).value;
    && Parse(fields[1], 256).Some? && Parse(fields[2], 256).Some?
    && var ids, outputs := Parse(fields[1], 256).value, Parse(fields[2], 256).value;
    && InputsUnspent(utxos, ids)
    && var consumed := seq(|ids|, i requires 0 <= i < |ids| => utxos[ids[i]]);
    && Encode(consumed).Some? && |Encode(consumed).value| <= 0xFFFF_FFFF
    && fields[5] == e.blake2b(Encode(consumed).value)
    && var c := Context(tx, consumed);
    && SideInOrder(e, c, true, consumed) && SideInOrder(e, c, false, outputs)
    && AllTokens(e, consumed) == AllTokens(e, outputs) <= 0xFFFF_FFFF_FFFF_FFFF
  }

  lemma {:induction false} SumIsTokens(e: Env, outputs: seq<Bytes>, n: nat)
    requires n <= |outputs| && forall i :: 0 <= i < |outputs| ==> WellFormed(e, outputs[i])
    ensures AllTokens(e, outputs[..n]) == SumTo(e, outputs, n)
  {
    hide IsOutput, Parse;
    if n == 0 {
    } else {
      assert WellFormed(e, outputs[n - 1]);
      SumIsTokens(e, outputs, n - 1);
      assert outputs[..n][..n - 1] == outputs[..n - 1];
      AmountIsTokens(e, outputs[n - 1]);
    }
  }

  lemma AmountIsTokens(e: Env, output: Bytes)
    requires IsOutput(e, output)
    ensures AmountIn(e, output) == Tokens(e, output)
  {
    hide Parse;
  }

  lemma {:induction false} SideMeans(e: Env, c: Context, consumed: bool, outputs: seq<Bytes>)
    requires |outputs| <= MAX_ELEMENTS
    requires forall i: Byte :: i < |outputs| ==> OutputIDAt(e, c, consumed, i).Some?
    ensures OutputsOK(e, c, consumed, outputs) <==> SideInOrder(e, c, consumed, outputs)
    ensures SideInOrder(e, c, consumed, outputs) ==> Sum(e, outputs) == AllTokens(e, outputs)
  {
    hide OutputOK, OutputIDAt, Parse, IsLockCall, ConstraintsHold, AllTokens;
    forall i: Byte | i < |outputs|
      ensures OutputOK(e, c, consumed, i, outputs[i])
        <==> WellFormed(e, outputs[i]) && ConstraintsHold(e, c, consumed, i, outputs[i])
    {
      OutputInOrder(e, c, consumed, i, outputs[i]);
    }
    if SideInOrder(e, c, consumed, outputs) {
      SumIsTokens(e, outputs, |outputs|);
      assert outputs[..|outputs|] == outputs;
    }
  }

  lemma BuildableMeans(c: Context)
    requires |c.consumed| <= 256
    ensures Buildable(c) <==> Encode(c.consumed).Some? && |Encode(c.consumed).value| <= 0xFFFF_FFFF
  {
    hide Encode;
    if Encode(c.consumed).Some? {
      var all := Encode(c.consumed).value;
      EncodesMeansEncodable([all]);
      assert [all][0] == all;
    }
  }

  /** The context that is put together for a transaction, and when there is one. */
  lemma {:induction false} ContextMeans(utxos: UTXOs, tx: Bytes)
    ensures MakeContext(utxos, tx).Some? <==>
      && Parse(tx, 8).Some? && |Parse(tx, 8).value| > 1
      && Parse(Parse(tx, 8).value[1], 256).Some?
      && var ids := Parse(Parse(tx, 8).value[1], 256).value;
      && InputsUnspent(utxos, ids)
      && var consumed := seq(|ids|, i requires 0 <= i < |ids| => utxos[ids[i]]);
      Encode(consumed).Some? && |Encode(consumed).value| <= 0xFFFF_FFFF
    ensures MakeContext(utxos, tx).Some? ==>
      var ids := Parse(Parse(tx, 8).value[1], 256).value;
      MakeContext(utxos, tx) == Some(Context(tx, seq(|ids|, i requires 0 <= i < |ids| => utxos[ids[i]])))
  {
    hide Parse, Encode, Buildable;
    var ids := InputIDs(tx);
    if Parse(tx, 8).Some? {
      FieldsMean(tx, 1);
    }
    if Parse(tx, 8).Some? && ids.Some? {
      InputsMean(utxos, ids.value);
      if InputsOK(utxos, ids.value) {
        assert Fetched(utxos, ids.value) == seq(|ids.value|, i requires 0 <= i < |ids.value| => utxos[ids.value[i]]);
        BuildableMeans(Context(tx, Fetched(utxos, ids.value)));
      }
    }
  }

  lemma InputsMean(utxos: UTXOs, ids: seq<Bytes>)
    ensures InputsOK(utxos, ids) <==> InputsUnspent(utxos, ids)
  {
  }

  lemma FieldsMean(tx: Bytes, k: Byte)
    requires Parse(tx, 8).Some?
    ensures TxField(tx, k) == Nth(Parse(tx, 8), k)
  {
    ParseMonotone(tx, 8, MAX_ELEMENTS);
  }

  /** Every output of either side has an ID. */
  lemma {:induction false} IDsThere(e: Env, utxos: UTXOs, tx: Bytes, consumed: bool, i: Byte)
    requires MakeContext(utxos, tx).Some? && (consumed ==> i < |MakeContext(utxos, tx).value.consumed|)
    ensures OutputIDAt(e, MakeContext(utxos, tx).value, consumed, i).Some?
  {
    hide Parse, InputIDs, InputsOK, Buildable;
  }

  /** What is checked in the context of a transaction. */
  lemma {:induction false} ValidMeans(e: Env, utxos: UTXOs, tx: Bytes)
    requires MakeContext(utxos, tx).Some? && |MakeContext(utxos, tx).value.consumed| <= 256
    ensures var c := MakeContext(utxos, tx).value;
      Accepts(e, utxos, tx) <==>
        && Outputs(tx).Some? && Encode(c.consumed).Some?
        && TxField(tx, 5) == Some(e.blake2b(Encode(c.consumed).value))
        && SideInOrder(e, c, true, c.consumed) && SideInOrder(e, c, false, Outputs(tx).value)
        && AllTokens(e, c.consumed) == AllTokens(e, Outputs(tx).value) <= 0xFFFF_FFFF_FFFF_FFFF
  {
    var c := MakeContext(utxos, tx).value;
    assert c.txBytes == tx;
    assert Encode(c.consumed).Some?;
    hide MakeContext, Parse, Encode, OutputsOK, Sum, SideInOrder, AllTokens, Buildable, Outputs, TxField, OutputIDAt;
    forall i: Byte | i < |c.consumed| ensures OutputIDAt(e, c, true, i).Some? { IDsThere(e, utxos, tx, true, i); }
    SideMeans(e, c, true, c.consumed);
    if Outputs(tx).Some? {
      forall i: Byte ensures OutputIDAt(e, c, false, i).Some? { IDsThere(e, utxos, tx, false, i); }
      SideMeans(e, c, false, Outputs(tx).value);
    }
  }

  /**
   Acceptance: the ledger accepts exactly the transactions that are in order. Nothing else
   can fail, index entries included.
   */
  lemma {:induction false} AcceptanceMeans(e: Env, utxos: UTXOs, tx: Bytes)
    ensures Accepts(e, utxos, tx) <==> InOrder(e, utxos, tx)
  {
    hide MakeContext, Parse, Encode, OutputsOK, Sum, SideInOrder, AllTokens, InputsUnspent, Buildable, InputIDs;
    ContextMeans(utxos, tx);
    if MakeContext(utxos, tx).Some? {
      FieldsMean(tx, 2);
      FieldsMean(tx, 5);
      ValidMeans(e, utxos, tx);
    }
  }

  // ------------------------------------------------------------------ every unspent output

  ghost predicate OnlyOutputs(e: Env, utxos: UTXOs) {
    forall id :: id in utxos ==> IsOutput(e, utxos[id])
  }

  /** Every produced output is well formed and within 65535 bytes. */
  lemma {:induction false} ProducedWellFormed(e: Env, utxos: UTXOs, tx: Bytes, id: Bytes)
    requires Accepts(e, utxos, tx) && Produces(e, tx, id)
    ensures WellFormed(e, ProducedAt(e, tx, id)) && 0 < |ProducedAt(e, tx, id)| <= 0xFFFF
  {
    hide Parse, MakeContext, OutputsOK, Accepted, IsLockCall, SideInOrder, AllTokens, EvalConstraint, TxField;
    ContextOf(e, utxos, tx);
    ProducedInOrder(e, utxos, tx, id[|e.blake2b(tx)|]);
    var c, i, output := MakeContext(utxos, tx).value, id[|e.blake2b(tx)|], ProducedAt(e, tx, id);
    var block := Parse(output, 256).value[0];
    assert EvalConstraint(e, c, Place(false, i, 0), block) == True;
    NonEmptyHolds(e, c, Place(false, i, 0), block);
    AmountMeans(e, c, Place(false, i, 0), block);
    ParseInverse(output, 256, Parse(output, 256).value);
  }

  lemma NonEmptyHolds(e: Env, c: Context, at: Place, block: Bytes)
    requires EvalConstraint(e, c, at, block) == True
    ensures block != []
  {
  }

  lemma {:induction false} ProducedInOrder(e: Env, utxos: UTXOs, tx: Bytes, i: Byte)
    requires Accepts(e, utxos, tx) && MakeContext(utxos, tx).Some?
    requires Outputs(tx).Some? && i < |Outputs(tx).value|
    ensures var output := Outputs(tx).value[i];
      WellFormed(e, output) && ConstraintsHold(e, MakeContext(utxos, tx).value, false, i, output)
  {
    var c := MakeContext(utxos, tx).value;
    hide MakeContext, Parse, Outputs, SideInOrder, AllTokens, EvalConstraint, Buildable, Sum, CommitmentOK, OutputOK;
    IDsThere(e, utxos, tx, false, i);
    OutputInOrder(e, c, false, i, Outputs(tx).value[i]);
    assert OutputOK(e, c, false, i, Outputs(tx).value[i]);
  }

  /** In every reachable ledger every unspent output has an amount and a lock of the library. */
  lemma {:induction false} OutputsAlwaysRead(e: Env, supply: nat, address: Bytes, ts: nat, txs: seq<Bytes>, n: nat)
    requires GenesisOK(e, supply, address, ts) && n <= |txs|
    ensures OnlyOutputs(e, RunTo(e, Genesis(e, supply, address, ts), txs, n).utxos)
  {
    hide OnlyOutputs, Step, Genesis, Sound;
    if n == 0 {
      GenesisIsOutput(e, supply, address, ts);
    } else {
      OutputsAlwaysRead(e, supply, address, ts, txs, n - 1);
      StepReads(e, RunTo(e, Genesis(e, supply, address, ts), txs, n - 1), txs[n - 1]);
    }
  }

  lemma {:induction false} StepReads(e: Env, s: State, tx: Bytes)
    requires OnlyOutputs(e, s.utxos)
    ensures OnlyOutputs(e, Step(e, s, tx).utxos)
  {
    hide Accepts, Apply, IsOutput, Produces, ProducedAt, Consumes;
    if Accepts(e, s.utxos, tx) {
      AcceptedParses(e, s.utxos, tx);
      ApplyContents(e, s.utxos, tx);
      forall id | Produces(e, tx, id)
        ensures IsOutput(e, ProducedAt(e, tx, id))
      {
        ProducedWellFormed(e, s.utxos, tx, id);
      }
    }
  }

  /** The genesis ledger is one output: the whole supply, for this address, under an ID of 33 zeros. */
  lemma GenesisIsOutput(e: Env, supply: nat, address: Bytes, ts: nat)
    requires GenesisOK(e, supply, address, ts)
    ensures var utxos, id := Genesis(e, supply, address, ts).utxos, seq(33, _ => 0);
      && utxos.Keys == {id} && OnlyOutputs(e, utxos)
      && Tokens(e, utxos[id]) == supply && TimeOf(e, utxos[id]) == Some(ts)
      && LockIn(e, utxos[id]) == AddressED25519(address) && |Parse(utxos[id], 256).value| == 3
  {
    GenesisParses(e, supply, address, ts);
    hide Parse, Encode;
    assert WellSized(Amount(BigEndian(supply, 8))) && WellSized(Timestamp(BigEndian(ts, 4)))
      && WellSized(AddressED25519(address));
    Pow256Values();
    BigEndianRoundTrip(supply, 8);
    BigEndianRoundTrip(ts, 4);
    assert GENESIS_OUTPUT_ID == seq(33, _ => 0);
  }
}
