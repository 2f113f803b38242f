/**
 Safety over whole runs: the supply is conserved, nothing is spent twice, and the
 unspent outputs are exactly those produced and not yet consumed.
 */
module Runs {
  import opened Bytes
  import opened Codec
  import opened LazyTree
  import opened Context
  import opened Constraints
  import opened Validation
  import opened Ledger
  import opened Supply

  /** An accepted transaction produced an output with this ID, or it is the genesis output. */
  ghost predicate Known(e: Env, txs: seq<Bytes>, id: Bytes) {
    id == GENESIS_OUTPUT_ID || exists a :: 0 <= a < |txs| && Produces(e, txs[a], id)
  }

  ghost predicate Spent(txs: seq<Bytes>, id: Bytes) {
    exists a :: 0 <= a < |txs| && Consumes(txs[a], id)
  }

  /** The bytes stored under an ID are the ones the transaction produced. */
  ghost predicate Stored(e: Env, genesis: Bytes, txs: seq<Bytes>, id: Bytes, output: Bytes) {
    (id == GENESIS_OUTPUT_ID && output == genesis)
    || exists a :: 0 <= a < |txs| && Produces(e, txs[a], id) && output == ProducedAt(e, txs[a], id)
  }

  /** The unspent outputs are the known ones that no accepted transaction has consumed. */
  ghost predicate UnspentExactly(e: Env, s: State) {
    forall id :: id in s.utxos <==> Known(e, s.accepted, id) && !Spent(s.accepted, id)
  }

  ghost predicate AllStored(e: Env, genesis: Bytes, s: State) {
    forall id :: id in s.utxos ==> Stored(e, genesis, s.accepted, id, s.utxos[id])
  }

  /** No output ID is an input of two accepted transactions. */
  ghost predicate NoDoubleSpend(txs: seq<Bytes>) {
    forall a, b, id :: 0 <= a < b < |txs| && Consumes(txs[a], id) ==> !Consumes(txs[b], id)
  }

  ghost predicate InputsForOutputs(txs: seq<Bytes>) {
    forall a :: 0 <= a < |txs| ==> HasInputsForOutputs(txs[a])
  }

  predicate HasInputsForOutputs(tx: Bytes) {
    && InputIDs(tx).Some? && Outputs(tx).Some?
    && (Outputs(tx).value != [] ==> InputIDs(tx).value != [])
  }

  ghost predicate KnownInputs(e: Env, txs: seq<Bytes>) {
    forall id :: Spent(txs, id) ==> Known(e, txs, id)
  }

  ghost predicate Inv(e: Env, genesis: Bytes, supply: nat, s: State) {
    && UnspentExactly(e, s)
    && AllStored(e, genesis, s)
    && NoDoubleSpend(s.accepted)
    && InputsForOutputs(s.accepted)
    && KnownInputs(e, s.accepted)
    && Total(e, s.utxos) == supply
  }

  // ------------------------------------------------------------------ one step

  lemma KnownAppend(e: Env, txs: seq<Bytes>, tx: Bytes, id: Bytes)
    ensures Known(e, txs + [tx], id) <==> Known(e, txs, id) || Produces(e, tx, id)
    ensures Spent(txs + [tx], id) <==> Spent(txs, id) || Consumes(tx, id)
  {
    var all := txs + [tx];
    assert all[|txs|] == tx;
    assert forall a :: 0 <= a < |txs| ==> all[a] == txs[a];
  }

  /** A transaction with outputs that can be accepted now has not been accepted before. */
  lemma {:induction false} NotYetAccepted(e: Env, genesis: Bytes, supply: nat, s: State, tx: Bytes, a: nat)
    requires Inv(e, genesis, supply, s) && Accepts(e, s.utxos, tx) && a < |s.accepted|
    requires Outputs(tx).Some? && Outputs(tx).value != []
    ensures s.accepted[a] != tx
  {
    AcceptedParses(e, s.utxos, tx);
    OutputsNeedInputs(e, s.utxos, tx);
    hide Accepts, Outputs, InputIDs, Total;
    var input := InputIDs(tx).value[0];
    assert input in s.utxos && Consumes(tx, input);
    assert !Spent(s.accepted, input);
  }

  lemma KeyOfOne(t: Bytes, t': Bytes, n: nat, n': nat, id: Bytes)
    requires |t| == |t'| && t != t'
    ensures KeyOf(t, n, id) ==> !KeyOf(t', n', id)
  {
  }

  /** The output IDs of a newly accepted transaction have never been seen before. */
  lemma {:induction false} ProducedIsNew(e: Env, genesis: Bytes, supply: nat, s: State, tx: Bytes, id: Bytes)
    requires Sound(e) && Inv(e, genesis, supply, s)
    requires Accepts(e, s.utxos, tx) && CollisionFree(e, s.accepted + [tx])
    requires Produces(e, tx, id)
    ensures !Known(e, s.accepted, id)
  {
    hide Accepts, Outputs, InputIDs, Total, Inv;
    var n, all := |s.accepted|, s.accepted + [tx];
    assert all[n] == tx;
    assert id != GENESIS_OUTPUT_ID by {
      assert e.blake2b(all[n]) != Zeros(32);
      assert GENESIS_OUTPUT_ID[..32] == Zeros(32);
    }
    forall a | 0 <= a < n
      ensures !Produces(e, s.accepted[a], id)
    {
      NotYetAccepted(e, genesis, supply, s, tx, a);
      assert all[a] == s.accepted[a] && e.blake2b(all[a]) != e.blake2b(all[n]);
      if Outputs(all[a]).Some? {
        KeyOfOne(e.blake2b(tx), e.blake2b(all[a]), |Outputs(tx).value|, |Outputs(all[a]).value|, id);
      }
    }
  }

  lemma {:induction false} StepTotal(e: Env, utxos: UTXOs, tx: Bytes)
    requires Accepts(e, utxos, tx) && InputIDs(tx).Some? && Outputs(tx).Some?
    requires forall id :: Produces(e, tx, id) ==> id !in utxos
    ensures Total(e, Apply(e, utxos, tx)) == Total(e, utxos)
  {
    AcceptedParses(e, utxos, tx);
    var ids, outputs := InputIDs(tx).value, Outputs(tx).value;
    assert Sum(e, Fetched(utxos, ids)) == Sum(e, outputs);
    hide Accepts, Outputs, InputIDs, Total, KeyOf;
    DeleteToTotal(e, utxos, ids, |ids|);
    DeleteToContents(utxos, ids, |ids|);
    PutToTotal(e, DeleteTo(utxos, ids, |ids|), e.blake2b(tx), outputs, |outputs|);
  }

  lemma {:induction false} StepSpending(e: Env, genesis: Bytes, supply: nat, s: State, tx: Bytes)
    requires Inv(e, genesis, supply, s) && Accepts(e, s.utxos, tx)
    ensures NoDoubleSpend(s.accepted + [tx])
    ensures InputsForOutputs(s.accepted + [tx])
    ensures KnownInputs(e, s.accepted + [tx])
    ensures forall id :: Consumes(tx, id) ==> id in s.utxos
  {
    AcceptedParses(e, s.utxos, tx);
    OutputsNeedInputs(e, s.utxos, tx);
    assert forall id :: Consumes(tx, id) ==> id in s.utxos;
    assert HasInputsForOutputs(tx);
    hide Accepts, Consumes, Total, Produces, HasInputsForOutputs;
    var all := s.accepted + [tx];
    forall a, b, id | 0 <= a < b < |all| && Consumes(all[a], id)
      ensures !Consumes(all[b], id)
    {
      if b == |s.accepted| {
        assert Spent(s.accepted, id);
      }
    }
    forall id | Spent(all, id)
      ensures Known(e, all, id)
    {
      KnownAppend(e, s.accepted, tx, id);
    }
  }

  lemma {:induction false} StepContents(e: Env, genesis: Bytes, supply: nat, s: State, tx: Bytes)
    requires Sound(e) && Inv(e, genesis, supply, s)
    requires Accepts(e, s.utxos, tx) && CollisionFree(e, s.accepted + [tx])
    ensures UnspentExactly(e, Step(e, s, tx)) && AllStored(e, genesis, Step(e, s, tx))
    ensures Total(e, Step(e, s, tx).utxos) == supply
  {
    AcceptedParses(e, s.utxos, tx);
    StepSpending(e, genesis, supply, s, tx);
    var t := Step(e, s, tx);
    forall id | Produces(e, tx, id)
      ensures !Known(e, s.accepted, id) && id !in s.utxos
    {
      ProducedIsNew(e, genesis, supply, s, tx, id);
    }
    StepTotal(e, s.utxos, tx);
    ApplyContents(e, s.utxos, tx);
    hide Accepts, Consumes, Total, Produces, ProducedAt, CollisionFree, Sound, Outputs, InputIDs;
    forall id
      ensures id in t.utxos <==> Known(e, t.accepted, id) && !Spent(t.accepted, id)
    {
      KnownAppend(e, s.accepted, tx, id);
    }
    forall id | id in t.utxos
      ensures Stored(e, genesis, t.accepted, id, t.utxos[id])
    {
      StoredAppend(e, genesis, s.accepted, tx, id, t.utxos[id]);
    }
  }

  lemma StoredAppend(e: Env, genesis: Bytes, txs: seq<Bytes>, tx: Bytes, id: Bytes, output: Bytes)
    requires Stored(e, genesis, txs, id, output) || (Produces(e, tx, id) && output == ProducedAt(e, tx, id))
    ensures Stored(e, genesis, txs + [tx], id, output)
  {
    var all := txs + [tx];
    assert all[|txs|] == tx;
    assert forall a :: 0 <= a < |txs| ==> all[a] == txs[a];
  }

  lemma {:induction false} StepInv(e: Env, genesis: Bytes, supply: nat, s: State, tx: Bytes)
    requires Sound(e) && Inv(e, genesis, supply, s)
    requires CollisionFree(e, Step(e, s, tx).accepted)
    ensures Inv(e, genesis, supply, Step(e, s, tx))
  {
    if Accepts(e, s.utxos, tx) {
      StepSpending(e, genesis, supply, s, tx);
      StepContents(e, genesis, supply, s, tx);
    }
  }

  // ------------------------------------------------------------------ whole runs

  lemma {:induction false} GenesisParses(e: Env, supply: nat, address: Bytes, ts: nat)
    requires GenesisOK(e, supply, address, ts)
    ensures Blocks(GenesisOutput(e, supply, address, ts)) == Some(GenesisBlocks(e, supply, address, ts))
    ensures AmountIn(e, GenesisOutput(e, supply, address, ts)) == supply
  {
    RoundTrip(GenesisBlocks(e, supply, address, ts), MAX_ELEMENTS);
    hide Encode, Parse;
    Pow256Values();
    BigEndianRoundTrip(supply, 8);
    assert WellSized(Amount(BigEndian(supply, 8)));
  }

  lemma GenesisInv(e: Env, supply: nat, address: Bytes, ts: nat)
    requires GenesisOK(e, supply, address, ts)
    ensures Inv(e, GenesisOutput(e, supply, address, ts), supply, Genesis(e, supply, address, ts))
  {
    GenesisParses(e, supply, address, ts);
    var s := Genesis(e, supply, address, ts);
    hide GenesisOutput, AmountIn;
    TotalAdd(e, map[], GENESIS_OUTPUT_ID, s.utxos[GENESIS_OUTPUT_ID]);
    assert map[][GENESIS_OUTPUT_ID := s.utxos[GENESIS_OUTPUT_ID]] == s.utxos;
  }

  lemma {:induction false} AcceptedGrows(e: Env, s: State, txs: seq<Bytes>, m: nat, n: nat)
    requires m <= n <= |txs|
    ensures RunTo(e, s, txs, m).accepted <= RunTo(e, s, txs, n).accepted
    decreases n - m
  {
    hide Accepts;
    if m == n {
    } else {
      AcceptedGrows(e, s, txs, m, n - 1);
    }
  }

  lemma CollisionFreePrefix(e: Env, txs: seq<Bytes>, more: seq<Bytes>)
    requires txs <= more && CollisionFree(e, more)
    ensures CollisionFree(e, txs)
  {
    assert forall a :: 0 <= a < |txs| ==> txs[a] == more[a];
  }

  lemma {:induction false} RunInv(e: Env, genesis: Bytes, supply: nat, s: State, txs: seq<Bytes>, n: nat)
    requires n <= |txs| && Sound(e) && Inv(e, genesis, supply, s)
    requires CollisionFree(e, RunTo(e, s, txs, n).accepted)
    ensures Inv(e, genesis, supply, RunTo(e, s, txs, n))
  {
    hide Accepts, Inv, CollisionFree, Sound;
    if n == 0 {
    } else {
      AcceptedGrows(e, s, txs, n - 1, n);
      CollisionFreePrefix(e, RunTo(e, s, txs, n - 1).accepted, RunTo(e, s, txs, n).accepted);
      RunInv(e, genesis, supply, s, txs, n - 1);
      StepInv(e, genesis, supply, RunTo(e, s, txs, n - 1), txs[n - 1]);
    }
  }

  /** A run from genesis whose accepted transactions have no digest collisions. */
  ghost predicate CleanRun(e: Env, supply: nat, address: Bytes, ts: nat, txs: seq<Bytes>) {
    && GenesisOK(e, supply, address, ts)
    && CollisionFree(e, RunTo(e, Genesis(e, supply, address, ts), txs, |txs|).accepted)
  }

  /** The invariant holds at every point of a clean run. */
  lemma {:induction false} Reachable(e: Env, supply: nat, address: Bytes, ts: nat, txs: seq<Bytes>, n: nat)
    requires CleanRun(e, supply, address, ts, txs) && n <= |txs|
    ensures CollisionFree(e, RunTo(e, Genesis(e, supply, address, ts), txs, n).accepted)
    ensures Inv(e, GenesisOutput(e, supply, address, ts), supply, RunTo(e, Genesis(e, supply, address, ts), txs, n))
  {
    var g := Genesis(e, supply, address, ts);
    hide Inv, CollisionFree, RunTo, GenesisOutput;
    AcceptedGrows(e, g, txs, n, |txs|);
    CollisionFreePrefix(e, RunTo(e, g, txs, n).accepted, RunTo(e, g, txs, |txs|).accepted);
    GenesisInv(e, supply, address, ts);
    RunInv(e, GenesisOutput(e, supply, address, ts), supply, g, txs, n);
  }

  /** Supply conservation: whatever is submitted, the unspent amounts add up to the initial supply. */
  lemma {:induction false} SupplyConserved(e: Env, supply: nat, address: Bytes, ts: nat, txs: seq<Bytes>)
    requires CleanRun(e, supply, address, ts, txs)
    ensures Total(e, RunTo(e, Genesis(e, supply, address, ts), txs, |txs|).utxos) == supply
  {
    Reachable(e, supply, address, ts, txs, |txs|);
  }

  /** The ledger holds exactly what was produced and not consumed, and no output is consumed twice. */
  lemma {:induction false} NothingSpentTwice(e: Env, supply: nat, address: Bytes, ts: nat, txs: seq<Bytes>)
    requires CleanRun(e, supply, address, ts, txs)
    ensures var s := RunTo(e, Genesis(e, supply, address, ts), txs, |txs|);
      && UnspentExactly(e, s)
      && NoDoubleSpend(s.accepted)
  {
    Reachable(e, supply, address, ts, txs, |txs|);
  }

  /** No transaction that produces outputs is accepted twice. */
  lemma {:induction false} NoReplay(e: Env, supply: nat, address: Bytes, ts: nat, txs: seq<Bytes>, a: nat, b: nat)
    requires CleanRun(e, supply, address, ts, txs)
    requires a < b < |RunTo(e, Genesis(e, supply, address, ts), txs, |txs|).accepted|
    ensures var accepted := RunTo(e, Genesis(e, supply, address, ts), txs, |txs|).accepted;
      accepted[a] == accepted[b] ==> Outputs(accepted[a]) == Some([])
  {
    Reachable(e, supply, address, ts, txs, |txs|);
    var accepted := RunTo(e, Genesis(e, supply, address, ts), txs, |txs|).accepted;
    hide RunTo, Total, CollisionFree, Outputs, InputIDs;
    assert HasInputsForOutputs(accepted[a]);
    if InputIDs(accepted[a]).value != [] {
      var input := InputIDs(accepted[a]).value[0];
      assert Consumes(accepted[a], input) && !Consumes(accepted[b], input);
    }
  }

  /** Once consumed, an output ID is never again unspent, however the run goes on. */
  lemma {:induction false} SpentForever(e: Env, supply: nat, address: Bytes, ts: nat, txs: seq<Bytes>, m: nat, n: nat,
                                        id: Bytes)
    requires CleanRun(e, supply, address, ts, txs) && m <= n <= |txs|
    requires Spent(RunTo(e, Genesis(e, supply, address, ts), txs, m).accepted, id)
    ensures id !in RunTo(e, Genesis(e, supply, address, ts), txs, n).utxos
  {
    var g := Genesis(e, supply, address, ts);
    Reachable(e, supply, address, ts, txs, n);
    AcceptedGrows(e, g, txs, m, n);
    hide RunTo, Total, CollisionFree, Consumes;
    var before, after := RunTo(e, g, txs, m).accepted, RunTo(e, g, txs, n).accepted;
    var a :| 0 <= a < |before| && Consumes(before[a], id);
    assert after[a] == before[a];
  }

  /** The output IDs of an accepted transaction were never in the ledger before, nor consumed. */
  lemma {:induction false} ProducedIDsAreFresh(e: Env, supply: nat, address: Bytes, ts: nat, txs: seq<Bytes>, m: nat,
                                               n: nat, id: Bytes)
    requires CleanRun(e, supply, address, ts, txs) && m <= n < |txs|
    requires Accepts(e, RunTo(e, Genesis(e, supply, address, ts), txs, n).utxos, txs[n]) && Produces(e, txs[n], id)
    ensures id !in RunTo(e, Genesis(e, supply, address, ts), txs, m).utxos
    ensures !Spent(RunTo(e, Genesis(e, supply, address, ts), txs, n).accepted, id)
    ensures id in RunTo(e, Genesis(e, supply, address, ts), txs, n + 1).utxos
  {
    var g := Genesis(e, supply, address, ts);
    var r, s := RunTo(e, g, txs, m), RunTo(e, g, txs, n);
    Reachable(e, supply, address, ts, txs, m);
    Reachable(e, supply, address, ts, txs, n);
    Reachable(e, supply, address, ts, txs, n + 1);
    assert RunTo(e, g, txs, n + 1) == Step(e, s, txs[n]);
    AcceptedGrows(e, g, txs, m, n);
    hide RunTo, Total, CollisionFree, Accepts, Produces, GenesisOutput;
    ProducedIsStored(e, GenesisOutput(e, supply, address, ts), supply, s, txs[n], id);
    assert forall a :: 0 <= a < |r.accepted| ==> r.accepted[a] == s.accepted[a];
    assert Known(e, r.accepted, id) ==> Known(e, s.accepted, id);
  }

  lemma {:induction false} ProducedIsStored(e: Env, genesis: Bytes, supply: nat, s: State, tx: Bytes, id: Bytes)
    requires Sound(e) && Inv(e, genesis, supply, s)
    requires Accepts(e, s.utxos, tx) && CollisionFree(e, Step(e, s, tx).accepted)
    requires Produces(e, tx, id)
    ensures !Known(e, s.accepted, id) && id in Step(e, s, tx).utxos
  {
    hide Accepts, Inv, Produces;
    AcceptedParses(e, s.utxos, tx);
    ApplyContents(e, s.utxos, tx);
    ProducedIsNew(e, genesis, supply, s, tx, id);
  }
}
