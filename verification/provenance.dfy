/**
 Where chain ids come from: every chain id in the ledger is the hash of the ID of an
 origin output that one accepted transaction produced and a later one consumed.
 Nothing is assumed about collisions.
 */
module Provenance {
  import opened Bytes
  import opened Codec
  import opened Context
  import opened Constraints
  import opened Ledger
  import opened Supply
  import opened Runs
  import opened Chains
  import opened Lineage

  function ChainIn(e: Env, output: Bytes, q: Byte): Value {
    ChainData(e, BlockOf(output, q))
  }

  /** Transaction `a` produced output `oid` with a chain origin in block `q`, and transaction `b` consumed it. */
  ghost predicate StartedAt(e: Env, txs: seq<Bytes>, a: nat, b: nat, oid: Bytes, q: Byte) {
    && a < b < |txs|
    && Produces(e, txs[a], oid)
    && ChainIn(e, ProducedAt(e, txs[a], oid), q) == Some(ORIGIN_CHAIN_DATA)
    && Consumes(txs[b], oid)
  }

  ghost predicate FromOrigin(e: Env, txs: seq<Bytes>, chainID: Bytes) {
    exists a, b, oid, q :: StartedAt(e, txs, a, b, oid, q) && chainID == e.blake2b(oid)
  }

  /** The nonzero chain id in block `q` of an output. */
  function ChainIDAt(e: Env, output: Bytes, q: Byte): Value {
    var data := ChainIn(e, output, q);
    if data.Some? && |data.value| >= 32 && data.value[..32] != Zeros(32) then Some(data.value[..32]) else None
  }

  ghost predicate AllFromOrigin(e: Env, s: State) {
    forall id, q: Byte :: id in s.utxos && ChainIDAt(e, s.utxos[id], q).Some? ==>
      FromOrigin(e, s.accepted, ChainIDAt(e, s.utxos[id], q).value)
  }

  lemma {:induction false} FromOriginAppend(e: Env, txs: seq<Bytes>, tx: Bytes, chainID: Bytes)
    requires FromOrigin(e, txs, chainID)
    ensures FromOrigin(e, txs + [tx], chainID)
  {
    hide Produces, Consumes, ChainIn;
    var a, b, oid, q :| StartedAt(e, txs, a, b, oid, q) && chainID == e.blake2b(oid);
    assert StartedAt(e, txs + [tx], a, b, oid, q);
  }

  /** The origin itself is in the ledger until the transition that first names its id. */
  lemma OriginConsumed(e: Env, genesis: Bytes, s: State, tx: Bytes, oid: Bytes, q: Byte)
    requires AllStored(e, genesis, s) && ChainIn(e, genesis, q).None?
    requires oid in s.utxos && ChainIn(e, s.utxos[oid], q) == Some(ORIGIN_CHAIN_DATA)
    requires Consumes(tx, oid)
    ensures FromOrigin(e, s.accepted + [tx], e.blake2b(oid))
  {
    hide Consumes, Produces, ChainIn, ProducedAt;
    var all := s.accepted + [tx];
    assert Stored(e, genesis, s.accepted, oid, s.utxos[oid]);
    var a :| 0 <= a < |s.accepted| && Produces(e, s.accepted[a], oid)
      && s.utxos[oid] == ProducedAt(e, s.accepted[a], oid);
    assert all[a] == s.accepted[a] && all[|s.accepted|] == tx;
    assert StartedAt(e, all, a, |s.accepted|, oid, q);
  }

  /** A produced chain id is that of its predecessor, or the hash of the ID of the origin it continues. */
  lemma {:induction false} ProducedFromOrigin(e: Env, genesis: Bytes, s: State, tx: Bytes, k: Byte, q: Byte,
                                              data: Bytes)
    requires Accepts(e, s.utxos, tx) && AllStored(e, genesis, s) && AllFromOrigin(e, s)
    requires forall j: Byte :: ChainIn(e, genesis, j).None?
    requires ChainAt(e, MakeContext(s.utxos, tx).value, false, k, q) == Some(data)
    requires |data| >= 32 && data[..32] != Zeros(32)
    ensures FromOrigin(e, s.accepted + [tx], data[..32])
  {
    hide Accepts, MakeContext, Accepted, OutputsRead, Parse, BlockAt, BlockOf, ChainConstraint, Consumes, InputID,
      FromOrigin, AllStored, UnlockParamsByConstraintIndex;
    ContextOf(e, s.utxos, tx);
    var c := MakeContext(s.utxos, tx).value;
    ChainIsSound(e, c, false, k, q);
    AcceptedReads(e, c);
    ProducedChainMeans(e, c, k, q, data);
    assert ORIGIN_CHAIN_DATA[..32] == Zeros(32);
    var p, r := data[32], data[33];
    InputInLedger(e, s.utxos, tx, p, r);
    var oid := InputID(c, p).value;
    var pred := ChainAt(e, c, true, p, r).value;
    if pred[..32] == Zeros(32) {
      OriginConsumed(e, genesis, s, tx, oid, r);
    } else {
      assert ChainIDAt(e, s.utxos[oid], r) == Some(data[..32]);
      FromOriginAppend(e, s.accepted, tx, data[..32]);
    }
  }

  lemma {:induction false} StepProvenance(e: Env, genesis: Bytes, s: State, tx: Bytes)
    requires AllStored(e, genesis, s) && AllFromOrigin(e, s)
    requires forall j: Byte :: ChainIn(e, genesis, j).None?
    ensures AllStored(e, genesis, Step(e, s, tx)) && AllFromOrigin(e, Step(e, s, tx))
  {
    hide Accepts, MakeContext, Consumes, Produces, ProducedAt, FromOrigin, ChainIDAt, Apply, Stored;
    if Accepts(e, s.utxos, tx) {
      AcceptedParses(e, s.utxos, tx);
      ApplyContents(e, s.utxos, tx);
      var t := Step(e, s, tx);
      forall id | id in t.utxos
        ensures Stored(e, genesis, t.accepted, id, t.utxos[id])
      {
        StoredAppend(e, genesis, s.accepted, tx, id, t.utxos[id]);
      }
      forall id, q: Byte | id in t.utxos && ChainIDAt(e, t.utxos[id], q).Some?
        ensures FromOrigin(e, t.accepted, ChainIDAt(e, t.utxos[id], q).value)
      {
        if Produces(e, tx, id) {
          ProducedOutputFromOrigin(e, genesis, s, tx, id, q);
        } else {
          FromOriginAppend(e, s.accepted, tx, ChainIDAt(e, s.utxos[id], q).value);
        }
      }
    }
  }

  lemma {:induction false} ProducedOutputFromOrigin(e: Env, genesis: Bytes, s: State, tx: Bytes, id: Bytes, q: Byte)
    requires Accepts(e, s.utxos, tx) && AllStored(e, genesis, s) && AllFromOrigin(e, s)
    requires forall j: Byte :: ChainIn(e, genesis, j).None?
    requires Produces(e, tx, id) && ChainIDAt(e, ProducedAt(e, tx, id), q).Some?
    ensures FromOrigin(e, s.accepted + [tx], ChainIDAt(e, ProducedAt(e, tx, id), q).value)
  {
    hide Accepts, MakeContext, Accepted, Parse, Outputs, AllStored, AllFromOrigin, FromOrigin;
    ContextOf(e, s.utxos, tx);
    var c, k := MakeContext(s.utxos, tx).value, id[|e.blake2b(tx)|];
    assert BlockAt(c, false, k, q) == BlockOf(ProducedAt(e, tx, id), q);
    ProducedFromOrigin(e, genesis, s, tx, k, q, ChainIn(e, ProducedAt(e, tx, id), q).value);
  }

  /**
   In every reachable state, every nonzero chain id on an unspent output is the hash of
   the ID of an output with a chain origin, which an accepted transaction produced and
   a later accepted transaction consumed.
   */
  lemma {:induction false} ChainIDsComeFromOrigins(e: Env, supply: nat, address: Bytes, ts: nat, txs: seq<Bytes>,
                                                   n: nat)
    requires GenesisOK(e, supply, address, ts) && n <= |txs|
    ensures var s := RunTo(e, Genesis(e, supply, address, ts), txs, n);
      AllStored(e, GenesisOutput(e, supply, address, ts), s) && AllFromOrigin(e, s)
  {
    hide Step, Sound, GenesisOutput, FromOrigin, BlockOf;
    forall j: Byte ensures ChainIn(e, GenesisOutput(e, supply, address, ts), j).None? {
      GenesisHasNoChain(e, supply, address, ts, j);
    }
    if n == 0 {
    } else {
      ChainIDsComeFromOrigins(e, supply, address, ts, txs, n - 1);
      StepProvenance(e, GenesisOutput(e, supply, address, ts), RunTo(e, Genesis(e, supply, address, ts), txs, n - 1),
                     txs[n - 1]);
    }
  }
}
