/**
 Following a chain through the ledger: from the output that carries it to the
 successor named by its unlock parameters, transaction after transaction.
 */
module Lineage {
  import opened Bytes
  import opened Codec
  import opened LazyTree
  import opened Context
  import opened Constraints
  import opened Validation
  import opened Ledger
  import opened Supply
  import opened Runs
  import opened Chains

  /** A chain constraint in the ledger: the output and the block it is in. */
  datatype Holder = Holder(id: Bytes, block: Byte)

  function BlockOf(output: Bytes, j: Byte): Value {
    Element(Some(output), MAX_ELEMENTS, j)
  }

  /** The chain id that chain data on output `id` stands for. */
  function ChainIDIn(e: Env, id: Bytes, data: Bytes): Bytes
    requires |data| >= 32
  {
    if data[..32] == Zeros(32) then e.blake2b(id) else data[..32]
  }

  /** The holder is an unspent output with a chain constraint of this id. */
  ghost predicate LiveChain(e: Env, utxos: UTXOs, h: Holder, chainID: Bytes) {
    && h.id in utxos
    && var data := ChainData(e, BlockOf(utxos[h.id], h.block));
    && data.Some? && |data.value| >= 32
    && ChainIDIn(e, h.id, data.value) == chainID
  }

  /** The position of `id` among the inputs of a transaction. */
  ghost function InputIndex(tx: Bytes, id: Bytes): (i: nat)
    requires Consumes(tx, id)
    ensures i < |InputIDs(tx).value| <= MAX_ELEMENTS && InputIDs(tx).value[i] == id
  {
    var i :| 0 <= i < |InputIDs(tx).value| && InputIDs(tx).value[i] == id;
    i
  }

  /** Where the chain is after the transaction, if submitted now; None if it is destroyed. */
  ghost function Follow(e: Env, utxos: UTXOs, tx: Bytes, h: Holder): Option<Holder> {
    if !Accepts(e, utxos, tx) || !Consumes(tx, h.id) then Some(h)
    else
      var u := Unlock(MakeContext(utxos, tx).value, InputIndex(tx, h.id), h.block);
      if u.None? || |u.value| < 2 || u.value == DESTROY_UNLOCK_PARAMS then None
      else Some(Holder(OutputID(e.blake2b(tx), u.value[0]), u.value[1]))
  }

  /** The context of an accepted transaction, and where its outputs and inputs are in the ledger. */
  lemma ContextOf(e: Env, utxos: UTXOs, tx: Bytes)
    requires Accepts(e, utxos, tx)
    ensures MakeContext(utxos, tx).Some?
    ensures var c := MakeContext(utxos, tx).value;
      && Accepted(e, c) && c.txBytes == tx && InputIDs(tx).Some? && Outputs(tx).Some?
      && (forall i: Byte :: i < |InputIDs(tx).value| ==>
           InputID(c, i) == Some(InputIDs(tx).value[i]) && InputIDs(tx).value[i] in utxos
           && ConsumedOutput(c, i) == Some(utxos[InputIDs(tx).value[i]]))
      && |c.consumed| == |InputIDs(tx).value|
  {
    AcceptedParses(e, utxos, tx);
  }

  lemma {:induction false} ConsumedBlockIs(e: Env, utxos: UTXOs, tx: Bytes, id: Bytes, j: Byte)
    requires Accepts(e, utxos, tx) && Consumes(tx, id)
    ensures id in utxos
    ensures BlockAt(MakeContext(utxos, tx).value, true, InputIndex(tx, id), j) == BlockOf(utxos[id], j)
    ensures InputID(MakeContext(utxos, tx).value, InputIndex(tx, id)) == Some(id)
  {
    hide Accepts, MakeContext, InputIDs, Accepted;
    ContextOf(e, utxos, tx);
  }

  lemma {:induction false} InputInLedger(e: Env, utxos: UTXOs, tx: Bytes, p: Byte, q: Byte)
    requires Accepts(e, utxos, tx) && BlockAt(MakeContext(utxos, tx).value, true, p, q).Some?
    ensures var oid := InputID(MakeContext(utxos, tx).value, p);
      && oid.Some? && oid.value in utxos && Consumes(tx, oid.value)
      && BlockAt(MakeContext(utxos, tx).value, true, p, q) == BlockOf(utxos[oid.value], q)
  {
    hide Accepts, MakeContext, Accepted, Parse, InputIDs;
    ContextOf(e, utxos, tx);
  }

  lemma {:induction false} ProducedBlockIs(e: Env, utxos: UTXOs, tx: Bytes, k: Byte, j: Byte)
    requires Accepts(e, utxos, tx) && BlockAt(MakeContext(utxos, tx).value, false, k, j).Some?
    ensures InputIDs(tx).Some? && Outputs(tx).Some?
    ensures var id := OutputID(e.blake2b(tx), k);
      && Produces(e, tx, id) && id in Apply(e, utxos, tx)
      && BlockAt(MakeContext(utxos, tx).value, false, k, j) == BlockOf(Apply(e, utxos, tx)[id], j)
  {
    hide Accepts, MakeContext, InputIDs, Accepted, Apply, Parse;
    ContextOf(e, utxos, tx);
    ApplyContents(e, utxos, tx);
    OutputIDIsKey(e.blake2b(tx), k, |Outputs(tx).value|);
  }

  /** The blocks the constraints see on the produced side are those of the output. */
  lemma {:induction false} ProducedBlocks(e: Env, utxos: UTXOs, tx: Bytes, oid: Bytes, q: Byte)
    requires Accepts(e, utxos, tx) && Produces(e, tx, oid)
    ensures MakeContext(utxos, tx).Some?
    ensures BlockAt(MakeContext(utxos, tx).value, false, oid[|e.blake2b(tx)|], q) == BlockOf(ProducedAt(e, tx, oid), q)
  {
    hide Accepts, MakeContext, Accepted, Parse, Outputs;
    ContextOf(e, utxos, tx);
  }

  /** No transaction that can be accepted produces an output that exists already. */
  lemma {:induction false} UnspentNotProduced(e: Env, genesis: Bytes, supply: nat, s: State, tx: Bytes, id: Bytes)
    requires Sound(e) && Inv(e, genesis, supply, s)
    requires Accepts(e, s.utxos, tx) && CollisionFree(e, s.accepted + [tx])
    requires id in s.utxos
    ensures !Produces(e, tx, id)
  {
    assert Known(e, s.accepted, id);
    hide Accepts, Inv, Produces, Known;
    if Produces(e, tx, id) {
      ProducedIsNew(e, genesis, supply, s, tx, id);
    }
  }

  /** An output not consumed by a transaction is untouched by it. */
  lemma {:induction false} Untouched(e: Env, genesis: Bytes, supply: nat, s: State, tx: Bytes, id: Bytes)
    requires Sound(e) && Inv(e, genesis, supply, s) && CollisionFree(e, Step(e, s, tx).accepted)
    requires id in s.utxos && (Accepts(e, s.utxos, tx) ==> !Consumes(tx, id))
    ensures id in Step(e, s, tx).utxos && Step(e, s, tx).utxos[id] == s.utxos[id]
  {
    hide Accepts, Inv, Produces, Consumes;
    if Accepts(e, s.utxos, tx) {
      AcceptedParses(e, s.utxos, tx);
      ApplyContents(e, s.utxos, tx);
      UnspentNotProduced(e, genesis, supply, s, tx, id);
    }
  }

  lemma GenesisHasNoChain(e: Env, supply: nat, address: Bytes, ts: nat, j: Byte)
    requires GenesisOK(e, supply, address, ts)
    ensures ChainData(e, BlockOf(GenesisOutput(e, supply, address, ts), j)).None?
  {
    GenesisParses(e, supply, address, ts);
    hide GenesisOutput, Parse;
    assert WellSized(Amount(BigEndian(supply, 8))) && WellSized(Timestamp(BigEndian(ts, 4)))
      && WellSized(AddressED25519(address));
  }

  // ------------------------------------------------------------------ chains

  /** After any transaction, where the chain went is a live chain with the same id. */
  lemma {:induction false} FollowStep(e: Env, genesis: Bytes, supply: nat, s: State, tx: Bytes, h: Holder,
                                      chainID: Bytes)
    requires Sound(e) && Inv(e, genesis, supply, s) && CollisionFree(e, Step(e, s, tx).accepted)
    requires LiveChain(e, s.utxos, h, chainID) && Follow(e, s.utxos, tx, h).Some?
    ensures LiveChain(e, Step(e, s, tx).utxos, Follow(e, s.utxos, tx, h).value, chainID)
  {
    hide Accepts, Inv, Accepted, CollisionFree, Unlock, ChainConstraint, BlockAt, BlockOf, MakeContext, Consumes;
    if Accepts(e, s.utxos, tx) && Consumes(tx, h.id) {
      ContextOf(e, s.utxos, tx);
      var c, i := MakeContext(s.utxos, tx).value, InputIndex(tx, h.id);
      ConsumedBlockIs(e, s.utxos, tx, h.id, h.block);
      ChainStep(e, c, i, h.block);
      var u := Unlock(c, i, h.block).value;
      ProducedBlockIs(e, s.utxos, tx, u[0], u[1]);
    } else {
      Untouched(e, genesis, supply, s, tx, h.id);
    }
  }

  /** A chain ends exactly when the output that carries it is consumed and unlocked for destruction. */
  lemma {:induction false} FollowEnds(e: Env, utxos: UTXOs, tx: Bytes, h: Holder, chainID: Bytes)
    requires LiveChain(e, utxos, h, chainID)
    ensures Follow(e, utxos, tx, h).None? <==>
      Accepts(e, utxos, tx) && Consumes(tx, h.id)
      && Unlock(MakeContext(utxos, tx).value, InputIndex(tx, h.id), h.block) == Some([0xff, 0xff, 0xff])
  {
    hide Accepts, Accepted, Unlock, ChainConstraint, BlockAt, BlockOf, MakeContext, Consumes;
    if Accepts(e, utxos, tx) && Consumes(tx, h.id) {
      ContextOf(e, utxos, tx);
      ConsumedBlockIs(e, utxos, tx, h.id, h.block);
      ChainStep(e, MakeContext(utxos, tx).value, InputIndex(tx, h.id), h.block);
    }
  }

  /** Where the chain is after the first `n` transactions, having been at `h` after the first `m`. */
  ghost function HolderAt(e: Env, s: State, txs: seq<Bytes>, m: nat, n: nat, h: Holder): Option<Holder>
    requires m <= n <= |txs|
    decreases n - m
  {
    if n == m then Some(h)
    else
      match HolderAt(e, s, txs, m, n - 1, h)
      case None => None
      case Some(g) => Follow(e, RunTo(e, s, txs, n - 1).utxos, txs[n - 1], g)
  }

  /** As long as a chain is not destroyed it lives on with the same id where its unlock parameters sent it. */
  lemma {:induction false} ChainsLiveOn(e: Env, supply: nat, address: Bytes, ts: nat, txs: seq<Bytes>, m: nat, n: nat,
                                        h: Holder, chainID: Bytes)
    requires CleanRun(e, supply, address, ts, txs) && m <= n <= |txs|
    requires LiveChain(e, RunTo(e, Genesis(e, supply, address, ts), txs, m).utxos, h, chainID)
    requires HolderAt(e, Genesis(e, supply, address, ts), txs, m, n, h).Some?
    ensures LiveChain(e, RunTo(e, Genesis(e, supply, address, ts), txs, n).utxos,
                      HolderAt(e, Genesis(e, supply, address, ts), txs, m, n, h).value, chainID)
    decreases n - m
  {
    hide LiveChain, Follow, Inv, CollisionFree, Sound, Accepts, GenesisOutput, Genesis;
    if m == n {
    } else {
      var g := Genesis(e, supply, address, ts);
      ChainsLiveOn(e, supply, address, ts, txs, m, n - 1, h, chainID);
      Reachable(e, supply, address, ts, txs, n - 1);
      Reachable(e, supply, address, ts, txs, n);
      FollowStep(e, GenesisOutput(e, supply, address, ts), supply, RunTo(e, g, txs, n - 1), txs[n - 1],
                 HolderAt(e, g, txs, m, n - 1, h).value, chainID);
    }
  }
}
