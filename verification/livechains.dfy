/**
 When the chain records of the index are exactly the live chains.
 */
module LiveChains {
  import opened Bytes
  import opened Codec
  import opened Context
  import opened Constraints
  import opened Validation
  import opened Ledger
  import opened Supply
  import opened Runs
  import opened Chains
  import opened Lineage
  import opened Index
  import opened Accounts
  import opened ChainIndex

  // ------------------------------------------------------------------ the discipline the constraints do not enforce

  /** Block `q` of an output is a chain constraint. */
  predicate HasChain(e: Env, output: Bytes, q: Byte) {
    ChainData(e, BlockOf(output, q)).Some?
  }

  /** At most one chain constraint, at block 3 or later, with data of the standard length. */
  ghost predicate OneChain(e: Env, output: Bytes) {
    && (forall q: Byte :: HasChain(e, output, q) ==> q >= 3 && |ChainData(e, BlockOf(output, q)).value| == 35)
    && (forall q: Byte, r: Byte :: HasChain(e, output, q) && HasChain(e, output, r) ==> q == r)
  }

  ghost predicate OneChainEach(e: Env, utxos: UTXOs) {
    forall oid :: oid in utxos ==> OneChain(e, utxos[oid])
  }

  /** Output `k` has in block `q` a chain constraint that continues the one consumed at `(p, r)`. */
  predicate ContinuesFrom(e: Env, c: Context, k: Byte, q: Byte, p: Byte, r: Byte) {
    var data := ChainAt(e, c, false, k, q);
    data.Some? && |data.value| >= 34 && data.value != ORIGIN_CHAIN_DATA && data.value[32..34] == [p, r]
  }

  /** No predecessor is continued by two produced chain constraints. */
  ghost predicate NoForks(e: Env, c: Context) {
    forall k: Byte, q: Byte, k': Byte, q': Byte, p: Byte, r: Byte ::
      ContinuesFrom(e, c, k, q, p, r) && ContinuesFrom(e, c, k', q', p, r) ==> k == k' && q == q'
  }

  ghost predicate OneChainOutputs(e: Env, tx: Bytes) {
    forall oid :: Produces(e, tx, oid) ==> OneChain(e, ProducedAt(e, tx, oid))
  }

  /** A transaction that puts at most one chain on each output and continues each at most once. */
  ghost predicate Disciplined(e: Env, utxos: UTXOs, tx: Bytes)
    requires Accepts(e, utxos, tx)
  {
    var c := MakeContext(utxos, tx).value;
    OneChainOutputs(e, tx) && NoForks(e, c)
  }

  /** Different known output IDs have different digests. */
  ghost predicate DistinctDigests(e: Env, txs: seq<Bytes>) {
    forall a, b :: Known(e, txs, a) && Known(e, txs, b) && e.blake2b(a) == e.blake2b(b) ==> a == b
  }

  // ------------------------------------------------------------------ the invariant

  /** The index resolves a chain id to an output exactly when that output is unspent and indexed under the id. */
  ghost predicate IndexExact(e: Env, db: Database) {
    forall id, oid :: ChainEntry(db.index, id) == Some(oid) <==> Lives(e, db.state.utxos, id, oid)
  }

  ghost predicate Lives(e: Env, utxos: UTXOs, id: Bytes, oid: Bytes) {
    oid in utxos && IndexedChain(e, oid, utxos[oid]) == Some(id)
  }

  /** Live chain ids are digests of known output IDs. */
  ghost predicate IDsKnown(e: Env, s: State) {
    forall id, oid :: Lives(e, s.utxos, id, oid) ==> IsDigest(e, s.accepted, id)
  }

  ghost predicate IsDigest(e: Env, txs: seq<Bytes>, id: Bytes) {
    exists o :: Known(e, txs, o) && id == e.blake2b(o)
  }

  ghost predicate Exact(e: Env, db: Database) {
    IndexExact(e, db) && OneChainEach(e, db.state.utxos) && IDsKnown(e, db.state)
  }

  // ------------------------------------------------------------------ reading outputs with one chain

  /** With one chain constraint per output, its block is the indexed one. */
  lemma OneChainIndexed(e: Env, oid: Bytes, output: Bytes, q: Byte)
    requires OneChain(e, output) && HasChain(e, output, q)
    ensures IndexedBlockOf(e, output) == Some(q)
    ensures IndexedChain(e, oid, output) == Some(ChainIDOf(e, ChainData(e, BlockOf(output, q)).value, oid))
  {
    var blocks := Blocks(output).value;
    FirstChainIs(e, blocks, 3);
    hide Parse, FirstChainFrom;
    assert ChainData(e, BlockOf(output, q)) == Some(e.decode(blocks[q]).arg);
    assert IsChainBlock(e, blocks[q]);
    var k := FirstChain(e, blocks).value;
    assert HasChain(e, output, k);
  }

  lemma IndexedHasChain(e: Env, oid: Bytes, output: Bytes)
    ensures IndexedChain(e, oid, output).Some? <==> IndexedBlockOf(e, output).Some?
    ensures IndexedChain(e, oid, output).Some? ==>
      var q := IndexedBlockOf(e, output).value;
      3 <= q < 256 && HasChain(e, output, q) && |ChainData(e, BlockOf(output, q)).value| == 35
      && IndexedChain(e, oid, output) == Some(ChainIDOf(e, ChainData(e, BlockOf(output, q)).value, oid))
  {
    if Blocks(output).Some? {
      FirstChainIs(e, Blocks(output).value, 3);
    }
    hide Parse, FirstChainFrom;
  }

  // ------------------------------------------------------------------ one transaction

  /** The chain indexed at produced output `oid` continues the chain `id` of the input at `(p, r)`. */
  ghost predicate Continuation(e: Env, utxos: UTXOs, tx: Bytes, oid: Bytes, id: Bytes, q: Byte, p: Byte, r: Byte)
    requires Accepts(e, utxos, tx) && Produces(e, tx, oid)
  {
    var c := MakeContext(utxos, tx).value;
    && ContinuesFrom(e, c, oid[|e.blake2b(tx)|], q, p, r)
    && InputID(c, p).Some? && Consumes(tx, InputID(c, p).value)
    && Lives(e, utxos, id, InputID(c, p).value)
    && HasChain(e, utxos[InputID(c, p).value], r)
  }

  /** A produced chain that is indexed is an origin, or continues a consumed live chain of the same id. */
  lemma {:induction false} ProducedChain(e: Env, utxos: UTXOs, tx: Bytes, oid: Bytes, id: Bytes)
    requires Accepts(e, utxos, tx) && OneChainEach(e, utxos)
    requires Produces(e, tx, oid) && IndexedChain(e, oid, ProducedAt(e, tx, oid)) == Some(id)
    ensures id == e.blake2b(oid) || exists q: Byte, p: Byte, r: Byte :: Continuation(e, utxos, tx, oid, id, q, p, r)
  {
    hide Accepts, MakeContext, Accepted, OutputsRead, BlockAt, BlockOf, IndexedChain, IndexedBlockOf, OneChain,
      ChainConstraint, Consumes, InputID, Outputs, ProducedAt, PredecessorNamed, Lives, Zeros;
    IndexedHasChain(e, oid, ProducedAt(e, tx, oid));
    var q := IndexedBlockOf(e, ProducedAt(e, tx, oid)).value;
    ProducedBlocks(e, utxos, tx, oid, q);
    ContextOf(e, utxos, tx);
    var c, k := MakeContext(utxos, tx).value, oid[|e.blake2b(tx)|];
    var data := ChainAt(e, c, false, k, q).value;
    ChainIsSound(e, c, false, k, q);
    AcceptedReads(e, c);
    ProducedChainMeans(e, c, k, q, data);
    if data != ORIGIN_CHAIN_DATA {
      var p, r := data[32], data[33];
      NamedLength(e, c, data);
      ConsumedPredecessor(e, utxos, tx, data);
      assert Continuation(e, utxos, tx, oid, id, q, p, r);
    }
  }

  lemma {:induction false} ConsumedPredecessor(e: Env, utxos: UTXOs, tx: Bytes, data: Bytes)
    requires Accepts(e, utxos, tx) && OneChainEach(e, utxos)
    requires MakeContext(utxos, tx).Some? && |data| >= 32 && PredecessorNamed(e, MakeContext(utxos, tx).value, data)
    ensures var oid := InputID(MakeContext(utxos, tx).value, data[32]);
      oid.Some? && Consumes(tx, oid.value) && Lives(e, utxos, data[..32], oid.value)
      && HasChain(e, utxos[oid.value], data[33])
  {
    hide Accepts, MakeContext, BlockAt, BlockOf, IndexedChain, IndexedBlockOf, OneChain, Consumes, InputID,
      UnlockParamsByConstraintIndex;
    var c := MakeContext(utxos, tx).value;
    var p, r := data[32], data[33];
    InputInLedger(e, utxos, tx, p, r);
    var oid := InputID(c, p).value;
    OneChainIndexed(e, oid, utxos[oid], r);
    OneChainLength(e, utxos[oid], r);
    assert ORIGIN_CHAIN_DATA[..32] == Zeros(32);
  }

  lemma NamedLength(e: Env, c: Context, data: Bytes)
    requires |data| >= 32 && PredecessorNamed(e, c, data)
    ensures |data| >= 35 && data[32..34] == [data[32], data[33]]
  {
    hide ChainAt, UnlockParamsByConstraintIndex;
  }

  lemma OneChainLength(e: Env, output: Bytes, r: Byte)
    requires OneChain(e, output) && HasChain(e, output, r)
    ensures |ChainData(e, BlockOf(output, r)).value| == 35
  {
    hide BlockOf;
  }

  /** A consumed live chain that is not destroyed lives on, under the same id, at a produced output. */
  lemma {:induction false} SuccessorLives(e: Env, utxos: UTXOs, tx: Bytes, oid: Bytes, id: Bytes) returns (next: Bytes)
    requires Accepts(e, utxos, tx) && OneChainOutputs(e, tx)
    requires Consumes(tx, oid) && Lives(e, utxos, id, oid) && !Destroys(e, utxos, tx, oid)
    ensures Produces(e, tx, next) && IndexedChain(e, next, ProducedAt(e, tx, next)) == Some(id)
  {
    hide Accepts, MakeContext, Accepted, OutputsRead, BlockAt, BlockOf, IndexedChain, IndexedBlockOf, OneChain,
      ChainConstraint, Consumes, InputID, Produces, ProducedAt, Unlock;
    IndexedHasChain(e, oid, utxos[oid]);
    var q := IndexedBlockOf(e, utxos[oid]).value;
    ConsumedBlockIs(e, utxos, tx, oid, q);
    ContextOf(e, utxos, tx);
    var c, i := MakeContext(utxos, tx).value, InputIndex(tx, oid);
    var data := ChainAt(e, c, true, i, q).value;
    ChainStep(e, c, i, q);
    ChainIsSound(e, c, true, i, q);
    AcceptedReads(e, c);
    ConsumedChainMeans(e, c, i, q, data);
    var u := Unlock(c, i, q).value;
    ProducedBlockIs(e, utxos, tx, u[0], u[1]);
    next := OutputID(e.blake2b(tx), u[0]);
    OutputIDIsKey(e.blake2b(tx), u[0], 256);
    ProducedBlocks(e, utxos, tx, next, u[1]);
    OneChainIndexed(e, next, ProducedAt(e, tx, next), u[1]);
    OneChainLength(e, ProducedAt(e, tx, next), u[1]);
    assert ORIGIN_CHAIN_DATA[..32] == Zeros(32);
  }

  /** The ledger's invariants, the index's, and a disciplined transaction that can be accepted next. */
  ghost predicate Ready(e: Env, genesis: Bytes, supply: nat, db: Database, tx: Bytes) {
    && Sound(e) && Inv(e, genesis, supply, db.state) && Exact(e, db)
    && Accepts(e, db.state.utxos, tx) && Disciplined(e, db.state.utxos, tx)
    && CollisionFree(e, db.state.accepted + [tx]) && DistinctDigests(e, db.state.accepted + [tx])
  }

  /** The id of a new origin is that of no live chain. */
  lemma {:induction false} OriginIDIsNew(e: Env, genesis: Bytes, supply: nat, db: Database, tx: Bytes, oid: Bytes,
                                         x: Bytes)
    requires Ready(e, genesis, supply, db, tx) && Produces(e, tx, oid)
    ensures !Lives(e, db.state.utxos, e.blake2b(oid), x)
  {
    hide Inv, Accepts, Disciplined, CollisionFree, Known, Produces, Lives, IndexExact, OneChainEach;
    var s, all := db.state, db.state.accepted + [tx];
    KnownAppend(e, s.accepted, tx, oid);
    forall o | Known(e, s.accepted, o)
      ensures e.blake2b(o) != e.blake2b(oid)
    {
      KnownAppend(e, s.accepted, tx, o);
      KnownNotProduced(e, genesis, supply, s, tx, o);
    }
    assert !IsDigest(e, s.accepted, e.blake2b(oid));
  }

  /** Two produced outputs are never indexed under the same chain id. */
  lemma {:induction false} ProducedIDsDiffer(e: Env, genesis: Bytes, supply: nat, db: Database, tx: Bytes, oid: Bytes,
                                             oid': Bytes, id: Bytes)
    requires Ready(e, genesis, supply, db, tx)
    requires Produces(e, tx, oid) && IndexedChain(e, oid, ProducedAt(e, tx, oid)) == Some(id)
    requires Produces(e, tx, oid') && IndexedChain(e, oid', ProducedAt(e, tx, oid')) == Some(id)
    ensures oid == oid'
  {
    hide Inv, Accepts, Disciplined, CollisionFree, Known, Produces, Lives, Exact, Continuation, ProducedAt,
      IndexedChain, Sound;
    var s := db.state;
    ExactOneChain(e, db);
    ProducedChain(e, s.utxos, tx, oid, id);
    ProducedChain(e, s.utxos, tx, oid', id);
    if id == e.blake2b(oid) && id == e.blake2b(oid') {
      KnownAppend(e, s.accepted, tx, oid);
      KnownAppend(e, s.accepted, tx, oid');
    } else if id == e.blake2b(oid) {
      var q, p, r :| Continuation(e, s.utxos, tx, oid', id, q, p, r);
      ContinuesLive(e, s.utxos, tx, oid', id, q, p, r);
      OriginIDIsNew(e, genesis, supply, db, tx, oid, InputID(MakeContext(s.utxos, tx).value, p).value);
    } else if id == e.blake2b(oid') {
      var q, p, r :| Continuation(e, s.utxos, tx, oid, id, q, p, r);
      ContinuesLive(e, s.utxos, tx, oid, id, q, p, r);
      OriginIDIsNew(e, genesis, supply, db, tx, oid', InputID(MakeContext(s.utxos, tx).value, p).value);
    } else {
      var q, p, r :| Continuation(e, s.utxos, tx, oid, id, q, p, r);
      var q', p', r' :| Continuation(e, s.utxos, tx, oid', id, q', p', r');
      SamePredecessor(e, genesis, supply, db, tx, oid, oid', id, q, p, r, q', p', r');
    }
  }

  lemma ExactOneChain(e: Env, db: Database)
    requires Exact(e, db)
    ensures OneChainEach(e, db.state.utxos)
  {
    hide IndexExact, OneChainEach, IDsKnown;
  }

  lemma {:induction false} ContinuesLive(e: Env, utxos: UTXOs, tx: Bytes, oid: Bytes, id: Bytes, q: Byte, p: Byte,
                                         r: Byte)
    requires Accepts(e, utxos, tx) && Produces(e, tx, oid) && Continuation(e, utxos, tx, oid, id, q, p, r)
    ensures MakeContext(utxos, tx).Some? && InputID(MakeContext(utxos, tx).value, p).Some?
    ensures Lives(e, utxos, id, InputID(MakeContext(utxos, tx).value, p).value)
  {
    hide MakeContext, InputID, Lives, ContinuesFrom;
  }

  lemma {:induction false} SamePredecessor(e: Env, genesis: Bytes, supply: nat, db: Database, tx: Bytes, oid: Bytes,
                                           oid': Bytes, id: Bytes,
                        q: Byte, p: Byte, r: Byte, q': Byte, p': Byte, r': Byte)
    requires Ready(e, genesis, supply, db, tx) && Produces(e, tx, oid) && Produces(e, tx, oid')
    requires Continuation(e, db.state.utxos, tx, oid, id, q, p, r)
    requires Continuation(e, db.state.utxos, tx, oid', id, q', p', r')
    ensures oid == oid'
  {
    var utxos := db.state.utxos;
    hide Inv, Accepts, CollisionFree, Known, Lives, Outputs, InputIDs, MakeContext, ContinuesFrom, HasChain,
      ChainEntry, Accepted, DistinctDigests, IDsKnown;
    ContextOf(e, utxos, tx);
    AcceptedParses(e, utxos, tx);
    var c, ids := MakeContext(utxos, tx).value, InputIDs(tx).value;
    var x, x' := InputID(c, p).value, InputID(c, p').value;
    assert ChainEntry(db.index, id) == Some(x) && ChainEntry(db.index, id) == Some(x');
    assert ids[p] == ids[p'] && p == p';
    assert r == r' by {
      assert OneChain(e, utxos[x]) && HasChain(e, utxos[x], r) && HasChain(e, utxos[x], r');
    }
    KeyIsOutputID(e.blake2b(tx), |Outputs(tx).value|, oid);
    KeyIsOutputID(e.blake2b(tx), |Outputs(tx).value|, oid');
  }

  // ------------------------------------------------------------------ the index after one transaction

  /** What is live after a transaction: what it produced, and what was live and is not consumed. */
  lemma {:induction false} LivesAfter(e: Env, genesis: Bytes, supply: nat, db: Database, tx: Bytes, id: Bytes,
                                      oid: Bytes)
    requires Ready(e, genesis, supply, db, tx)
    ensures Lives(e, Step(e, db.state, tx).utxos, id, oid) <==>
      (Produces(e, tx, oid) && IndexedChain(e, oid, ProducedAt(e, tx, oid)) == Some(id))
      || (Lives(e, db.state.utxos, id, oid) && !Consumes(tx, oid))
  {
    hide Inv, Accepts, Exact, Produces, Consumes, IndexedChain, ProducedAt, CollisionFree, Sound, DistinctDigests,
      Disciplined;
    AcceptedParses(e, db.state.utxos, tx);
    ApplyContents(e, db.state.utxos, tx);
    if oid in db.state.utxos {
      UnspentNotProduced(e, genesis, supply, db.state, tx, oid);
    }
  }

  lemma {:induction false} AddedNames(e: Env, utxos: UTXOs, tx: Bytes, id: Bytes)
    requires Accepts(e, utxos, tx)
    ensures NamesChain(AddCommands(e, utxos, tx), id) <==>
      exists oid :: Produces(e, tx, oid) && IndexedChain(e, oid, ProducedAt(e, tx, oid)) == Some(id)
  {
    hide Accepts, AddCommands, Produces, ProducedAt, IndexedChain;
    var add := AddCommands(e, utxos, tx);
    if k :| 0 <= k < |add| && add[k].partition == ChainPartition && add[k].id == id {
      AddedChains(e, utxos, tx, add[k]);
    }
    forall oid | Produces(e, tx, oid) && IndexedChain(e, oid, ProducedAt(e, tx, oid)) == Some(id)
      ensures NamesChain(add, id)
    {
      AddedChains(e, utxos, tx, Command(id, oid, false, ChainPartition));
    }
  }

  lemma OnlyOneLives(e: Env, db: Database, id: Bytes, oid: Bytes, oid': Bytes)
    requires Exact(e, db) && Lives(e, db.state.utxos, id, oid) && Lives(e, db.state.utxos, id, oid')
    ensures oid == oid'
  {
    hide Lives, OneChainEach, IDsKnown, ChainEntry;
    assert ChainEntry(db.index, id) == Some(oid) && ChainEntry(db.index, id) == Some(oid');
  }

  /** A live chain whose id is produced again was consumed. */
  lemma {:induction false} ReplacedIsConsumed(e: Env, genesis: Bytes, supply: nat, db: Database, tx: Bytes, id: Bytes,
                                              x: Bytes, oid: Bytes)
    requires Ready(e, genesis, supply, db, tx)
    requires Produces(e, tx, x) && IndexedChain(e, x, ProducedAt(e, tx, x)) == Some(id)
    ensures Lives(e, db.state.utxos, id, oid) ==> Consumes(tx, oid)
  {
    hide Inv, Accepts, Exact, Lives, IndexedChain, ProducedAt, CollisionFree, Sound, DistinctDigests, Disciplined,
      Produces, Consumes;
    ExactOneChain(e, db);
    ProducedChain(e, db.state.utxos, tx, x, id);
    if id == e.blake2b(x) {
      OriginIDIsNew(e, genesis, supply, db, tx, x, oid);
    } else {
      var q, p, r :| Continuation(e, db.state.utxos, tx, x, id, q, p, r);
      ContinuesLive(e, db.state.utxos, tx, x, id, q, p, r);
      if Lives(e, db.state.utxos, id, oid) {
        OnlyOneLives(e, db, id, oid, InputID(MakeContext(db.state.utxos, tx).value, p).value);
      }
    }
  }

  /** A live chain whose record is neither deleted nor replaced was not consumed. */
  lemma {:induction false} UnnamedIsUntouched(e: Env, utxos: UTXOs, tx: Bytes, id: Bytes, oid: Bytes)
    requires Accepts(e, utxos, tx) && OneChainOutputs(e, tx)
    requires !NamesChain(AddCommands(e, utxos, tx), id) && !NamesChain(DeleteCommands(e, utxos, tx), id)
    ensures Lives(e, utxos, id, oid) ==> !Consumes(tx, oid)
  {
    hide Accepts, AddCommands, DeleteCommands, IndexedChain, ProducedAt, Produces, Consumes, Destroys, NamesChain,
      OneChainOutputs;
    AddedNames(e, utxos, tx, id);
    DeletedChains(e, utxos, tx, id);
    if Lives(e, utxos, id, oid) && Consumes(tx, oid) {
      var next := SuccessorLives(e, utxos, tx, oid, id);
    }
  }

  lemma {:induction false} EntryExact(e: Env, genesis: Bytes, supply: nat, db: Database, tx: Bytes, id: Bytes,
                                      oid: Bytes)
    requires Ready(e, genesis, supply, db, tx)
    ensures var db' := AddTransaction(e, db, tx);
      ChainEntry(db'.index, id) == Some(oid) <==> Lives(e, db'.state.utxos, id, oid)
  {
    hide Inv, Accepts, Lives, IndexedChain, ProducedAt, CollisionFree, Sound, DistinctDigests, Produces, Consumes,
      DeleteCommands, AddCommands, CommandsOf, RunCommands, Uniform, CommandsOK, NamesChain, OneChainEach, IDsKnown,
      ChainEntry, DestroysInput, OneChainOutputs, NoForks;
    var utxos := db.state.utxos;
    UpdatePhases(e, utxos, tx, db.index);
    var del, add := DeleteCommands(e, utxos, tx), AddCommands(e, utxos, tx);
    UniformChains(db.index, del, true, id);
    UniformChains(RunCommands(db.index, del), add, false, id);
    LivesAfter(e, genesis, supply, db, tx, id, oid);
    AddedNames(e, utxos, tx, id);
    DeletedChains(e, utxos, tx, id);
    if NamesChain(add, id) {
      RecordedExact(e, genesis, supply, db, tx, id, oid);
    } else if NamesChain(del, id) {
      var y :| Destroys(e, utxos, tx, y) && IndexedChain(e, y, utxos[y]) == Some(id);
      DestroyedLives(e, utxos, tx, id, y);
      if Lives(e, utxos, id, oid) {
        OnlyOneLives(e, db, id, oid, y);
      }
    } else {
      UnnamedIsUntouched(e, utxos, tx, id, oid);
    }
  }

  lemma {:induction false} DestroyedLives(e: Env, utxos: UTXOs, tx: Bytes, id: Bytes, y: Bytes)
    requires Accepts(e, utxos, tx) && Destroys(e, utxos, tx, y) && IndexedChain(e, y, utxos[y]) == Some(id)
    ensures Lives(e, utxos, id, y) && Consumes(tx, y)
  {
    hide Accepts, IndexedChain, Consumes;
  }

  lemma {:induction false} RecordedExact(e: Env, genesis: Bytes, supply: nat, db: Database, tx: Bytes, id: Bytes,
                                         oid: Bytes)
    requires Ready(e, genesis, supply, db, tx)
    requires var add := AddCommands(e, db.state.utxos, tx);
      NamesChain(add, id) && Recorded(AddTransaction(e, db, tx).index, add, id)
    ensures var db' := AddTransaction(e, db, tx);
      ChainEntry(db'.index, id) == Some(oid) <==> Lives(e, db'.state.utxos, id, oid)
  {
    hide Inv, Accepts, Lives, IndexedChain, ProducedAt, CollisionFree, Sound, DistinctDigests, Produces, Consumes,
      AddCommands, CommandsOf, RunCommands, CommandsOK, NamesChain, Exact, ChainEntry, Disciplined;
    var x := ChainEntry(AddTransaction(e, db, tx).index, id).value;
    AddedChains(e, db.state.utxos, tx, Command(id, x, false, ChainPartition));
    LivesAfter(e, genesis, supply, db, tx, id, x);
    LivesAfter(e, genesis, supply, db, tx, id, oid);
    ReplacedIsConsumed(e, genesis, supply, db, tx, id, x, oid);
    if Produces(e, tx, oid) && IndexedChain(e, oid, ProducedAt(e, tx, oid)) == Some(id) {
      ProducedIDsDiffer(e, genesis, supply, db, tx, oid, x, id);
    }
  }

  lemma {:induction false} StepExact(e: Env, genesis: Bytes, supply: nat, db: Database, tx: Bytes)
    requires Ready(e, genesis, supply, db, tx)
    ensures Exact(e, AddTransaction(e, db, tx))
  {
    hide Inv, Accepts, Lives, IndexedChain, ProducedAt, CollisionFree, Sound, DistinctDigests, Produces, Consumes,
      CommandsOf, RunCommands, CommandsOK, ChainEntry, NoForks, OneChain, Exact, IsDigest;
    var s, s' := db.state, Step(e, db.state, tx);
    ExactOneChain(e, db);
    AcceptedParses(e, s.utxos, tx);
    ApplyContents(e, s.utxos, tx);
    assert IndexExact(e, AddTransaction(e, db, tx)) by {
      forall id, oid
        ensures var db' := AddTransaction(e, db, tx);
          ChainEntry(db'.index, id) == Some(oid) <==> Lives(e, db'.state.utxos, id, oid)
      {
        EntryExact(e, genesis, supply, db, tx, id, oid);
      }
    }
    forall id, oid | Lives(e, s'.utxos, id, oid)
      ensures IsDigest(e, s'.accepted, id)
    {
      LiveIDKnown(e, genesis, supply, db, tx, id, oid);
    }
    ExactParts(e, AddTransaction(e, db, tx));
  }

  lemma ExactParts(e: Env, db: Database)
    ensures Exact(e, db) <==> IndexExact(e, db) && OneChainEach(e, db.state.utxos) && IDsKnown(e, db.state)
  {
    hide IndexExact, OneChainEach, IDsKnown;
  }

  lemma {:induction false} LiveIDKnown(e: Env, genesis: Bytes, supply: nat, db: Database, tx: Bytes, id: Bytes,
                                       oid: Bytes)
    requires Ready(e, genesis, supply, db, tx) && Lives(e, Step(e, db.state, tx).utxos, id, oid)
    ensures IsDigest(e, Step(e, db.state, tx).accepted, id)
  {
    hide Inv, Accepts, Lives, IndexedChain, ProducedAt, CollisionFree, Sound, DistinctDigests, Produces, Consumes,
      Known, Exact, Disciplined;
    var s := db.state;
    LivesAfter(e, genesis, supply, db, tx, id, oid);
    ExactOneChain(e, db);
    ExactParts(e, db);
    if Lives(e, s.utxos, id, oid) {
      DigestGrows(e, s.accepted, tx, id);
    } else {
      ProducedChain(e, s.utxos, tx, oid, id);
      if id == e.blake2b(oid) {
        KnownAppend(e, s.accepted, tx, oid);
      } else {
        var q, p, r :| Continuation(e, s.utxos, tx, oid, id, q, p, r);
        ContinuesLive(e, s.utxos, tx, oid, id, q, p, r);
        DigestGrows(e, s.accepted, tx, id);
      }
    }
  }

  lemma DigestGrows(e: Env, txs: seq<Bytes>, tx: Bytes, id: Bytes)
    requires IsDigest(e, txs, id)
    ensures IsDigest(e, txs + [tx], id)
  {
    hide Known;
    var o :| Known(e, txs, o) && id == e.blake2b(o);
    KnownAppend(e, txs, tx, o);
  }

  // ------------------------------------------------------------------ whole runs

  /** Every accepted transaction of the run is disciplined when it is accepted. */
  ghost predicate DisciplinedRun(e: Env, s: State, txs: seq<Bytes>) {
    forall n :: 0 <= n < |txs| && Accepts(e, RunTo(e, s, txs, n).utxos, txs[n]) ==>
      Disciplined(e, RunTo(e, s, txs, n).utxos, txs[n])
  }

  lemma DistinctDigestsPrefix(e: Env, txs: seq<Bytes>, more: seq<Bytes>)
    requires txs <= more && DistinctDigests(e, more)
    ensures DistinctDigests(e, txs)
  {
    hide Produces;
    assert forall a :: 0 <= a < |txs| ==> txs[a] == more[a];
    assert forall id :: Known(e, txs, id) ==> Known(e, more, id);
  }

  lemma {:induction false} InitialExact(e: Env, supply: nat, address: Bytes, ts: nat)
    requires GenesisOK(e, supply, address, ts)
    ensures Exact(e, InitialDatabase(e, supply, address, ts))
  {
    hide ChainEntry, IndexedChain, GenesisOutput, BlockOf;
    var init := InitialDatabase(e, supply, address, ts);
    forall id ensures ChainEntry(init.index, id).None? { InitialHasNoChains(e, supply, address, ts, id); }
    InitialHasNoChains(e, supply, address, ts, []);
    forall q: Byte ensures !HasChain(e, GenesisOutput(e, supply, address, ts), q) {
      GenesisHasNoChain(e, supply, address, ts, q);
    }
  }

  /**
   In every reachable state of a disciplined run, the index resolves a chain id to an
   output exactly when the output is unspent and carries the chain; so each live chain
   is at one output, and no record is stale.
   */
  lemma {:induction false} ChainIndexIsExact(e: Env, supply: nat, address: Bytes, ts: nat, txs: seq<Bytes>, n: nat)
    requires CleanRun(e, supply, address, ts, txs) && n <= |txs|
    requires DistinctDigests(e, RunTo(e, Genesis(e, supply, address, ts), txs, |txs|).accepted)
    requires DisciplinedRun(e, Genesis(e, supply, address, ts), txs)
    ensures Exact(e, DatabaseAt(e, InitialDatabase(e, supply, address, ts), txs, n))
  {
    hide Exact, CollisionFree, Sound, Accepts, AddTransaction, Genesis, InitialDatabase, DistinctDigests,
      DisciplinedRun, RunTo, Ready;
    if n == 0 {
      InitialExact(e, supply, address, ts);
    } else {
      ChainIndexIsExact(e, supply, address, ts, txs, n - 1);
      var db := DatabaseAt(e, InitialDatabase(e, supply, address, ts), txs, n - 1);
      if Accepts(e, db.state.utxos, txs[n - 1]) {
        RunReady(e, supply, address, ts, txs, n);
        StepExact(e, GenesisOutput(e, supply, address, ts), supply, db, txs[n - 1]);
      } else {
        Rejected(e, db, txs[n - 1]);
      }
    }
  }

  /** Every accepted transaction of such a run is ready for the step. */
  lemma {:induction false} RunReady(e: Env, supply: nat, address: Bytes, ts: nat, txs: seq<Bytes>, n: nat)
    requires CleanRun(e, supply, address, ts, txs) && 0 < n <= |txs|
    requires DistinctDigests(e, RunTo(e, Genesis(e, supply, address, ts), txs, |txs|).accepted)
    requires DisciplinedRun(e, Genesis(e, supply, address, ts), txs)
    requires Exact(e, DatabaseAt(e, InitialDatabase(e, supply, address, ts), txs, n - 1))
    requires var db := DatabaseAt(e, InitialDatabase(e, supply, address, ts), txs, n - 1);
      Accepts(e, db.state.utxos, txs[n - 1])
    ensures GenesisOK(e, supply, address, ts)
    ensures var db := DatabaseAt(e, InitialDatabase(e, supply, address, ts), txs, n - 1);
      Ready(e, GenesisOutput(e, supply, address, ts), supply, db, txs[n - 1])
  {
    hide Exact, Inv, CollisionFree, Sound, Accepts, GenesisOutput, AddTransaction, Genesis, DistinctDigests,
      Disciplined, DatabaseAt;
    var init, g := InitialDatabase(e, supply, address, ts), Genesis(e, supply, address, ts);
    DatabaseRuns(e, init, txs, n - 1);
    Reachable(e, supply, address, ts, txs, n - 1);
    Reachable(e, supply, address, ts, txs, n);
    AcceptedGrows(e, g, txs, n, |txs|);
    DistinctDigestsPrefix(e, RunTo(e, g, txs, n).accepted, RunTo(e, g, txs, |txs|).accepted);
  }

  lemma Rejected(e: Env, db: Database, tx: Bytes)
    requires !Accepts(e, db.state.utxos, tx)
    ensures AddTransaction(e, db, tx) == db
  {
    hide Accepts;
  }
}
