/**
 The chain records of the index. What a record says is always true of the output it
 names, if that is unspent. The records are exactly the live chains when every output
 has at most one chain constraint and no predecessor is continued twice or after its
 destruction, which the chain constraint itself does not enforce.
 */
module ChainIndex {
  import opened Bytes
  import opened Codec
  import opened Context
  import opened Constraints
  import opened Validation
  import opened Ledger
  import opened Supply
  import opened Runs
  import opened Chains
  import opened Lineage
  import opened Index
  import opened Accounts

  /** The chain id an output is indexed under: that of its first chain constraint at block 3 or later. */
  function IndexedChain(e: Env, oid: Bytes, output: Bytes): Option<Bytes> {
    match Blocks(output)
    case None => None
    case Some(blocks) =>
      FirstChainIs(e, blocks, 3);
      match FirstChain(e, blocks)
      case None => None
      case Some(k) => Some(ChainIDOf(e, e.decode(blocks[k]).arg, oid))
  }

  /** The block of the chain constraint that is indexed. */
  function IndexedBlockOf(e: Env, output: Bytes): Option<nat> {
    match Blocks(output) case None => None case Some(blocks) => FirstChain(e, blocks)
  }

  /** Block `q` is the first constraint after the lock that is a chain constraint with 35 bytes of data. */
  predicate FirstChainAt(e: Env, output: Bytes, q: nat) {
    && Parse(output, 256).Some? && 3 <= q < |Parse(output, 256).value|
    && var blocks := Parse(output, 256).value;
    && e.decode(blocks[q]).Chain? && |e.decode(blocks[q]).arg| == 35
    && forall j :: 3 <= j < q ==> !(e.decode(blocks[j]).Chain? && |e.decode(blocks[j]).arg| == 35)
  }

  /** What an output is indexed under: the id in that constraint, or for an origin the hash of the output's ID. */
  lemma IndexedChainMeans(e: Env, oid: Bytes, output: Bytes, id: Bytes)
    ensures IndexedChain(e, oid, output) == Some(id) <==>
      exists q: nat :: FirstChainAt(e, output, q)
        && var data := e.decode(Parse(output, 256).value[q]).arg;
        id == if data == seq(32, _ => 0) + [0xff, 0xff, 0xff] then e.blake2b(oid) else data[..32]
    ensures forall q: nat :: IndexedBlockOf(e, output) == Some(q) <==> FirstChainAt(e, output, q)
  {
    if Blocks(output).Some? {
      FirstChainIs(e, Blocks(output).value, 3);
    }
    assert ORIGIN_CHAIN_DATA == seq(32, _ => 0) + [0xff, 0xff, 0xff];
    hide Parse, FirstChainFrom;
    assert forall q: nat :: FirstChainAt(e, output, q) ==> IndexedBlockOf(e, output) == Some(q);
    if q: nat :| IndexedBlockOf(e, output) == Some(q) {
      assert FirstChainAt(e, output, q);
    }
  }

  /** Input `i` holds an indexed chain, and unlocks it for destruction. */
  predicate DestroysInput(e: Env, c: Context, i: Byte, output: Bytes) {
    var k := IndexedBlockOf(e, output);
    k.Some? && k.value < 256 && Unlock(c, i, k.value) == Some(DESTROY_UNLOCK_PARAMS)
  }

  // ------------------------------------------------------------------ the chain commands

  lemma {:induction false} ChainEntriesOf(e: Env, c: Context, consumed: bool, i: Byte, output: Bytes, cmd: Command)
    requires OutputOK(e, c, consumed, i, output) && cmd.partition == ChainPartition
    ensures OutputIDAt(e, c, consumed, i).Some?
    ensures var oid := OutputIDAt(e, c, consumed, i).value;
      cmd in EntriesOf(e, c, consumed, i, output) <==>
        IndexedChain(e, oid, output) == Some(cmd.id) && cmd.delete == consumed
        && (if consumed then DestroysInput(e, c, i, output) && cmd.outputID == Zeros(OUTPUT_ID_LENGTH)
            else cmd.outputID == oid)
  {
    EntryIn(e, c, consumed, i, output, cmd);
    var blocks, oid := Blocks(output).value, OutputIDAt(e, c, consumed, i).value;
    FirstChainIs(e, blocks, 3);
    hide RunsOK, AmountIn, AmountOf, LockTags, OutputIDAt, Blocks, EntriesOf, FirstChainFrom, SelfUnlock;
  }

  /** What is recorded: exactly the indexed chains of the produced outputs. */
  lemma {:induction false} AddedChains(e: Env, utxos: UTXOs, tx: Bytes, cmd: Command)
    requires Accepts(e, utxos, tx) && cmd.partition == ChainPartition
    ensures cmd in AddCommands(e, utxos, tx) <==>
      !cmd.delete && Produces(e, tx, cmd.outputID)
      && IndexedChain(e, cmd.outputID, ProducedAt(e, tx, cmd.outputID)) == Some(cmd.id)
  {
    hide MakeContext, Accepts, InputIDs, Outputs, EntriesOf, Accepted, OutputOK, IndexedChain;
    ContextOf(e, utxos, tx);
    var c, outputs, oid := MakeContext(utxos, tx).value, Outputs(tx).value, cmd.outputID;
    CommandIn(e, c, false, outputs, |outputs|, cmd);
    forall i: Byte | i < |outputs|
      ensures cmd in EntriesOf(e, c, false, i, outputs[i]) <==>
        !cmd.delete && oid == OutputID(e.blake2b(tx), i) && IndexedChain(e, oid, outputs[i]) == Some(cmd.id)
    {
      ProducedOutputOK(e, c, i);
      ChainEntriesOf(e, c, false, i, outputs[i], cmd);
    }
    if Produces(e, tx, oid) {
      KeyIsOutputID(e.blake2b(tx), |outputs|, oid);
    }
    forall i: Byte | i < |outputs| && oid == OutputID(e.blake2b(tx), i)
      ensures Produces(e, tx, oid) && ProducedAt(e, tx, oid) == outputs[i]
    {
      OutputIDIsKey(e.blake2b(tx), i, |outputs|);
    }
  }

  /** The transaction consumes `oid` and unlocks its indexed chain for destruction. */
  ghost predicate Destroys(e: Env, utxos: UTXOs, tx: Bytes, oid: Bytes)
    requires Accepts(e, utxos, tx)
  {
    Consumes(tx, oid) && oid in utxos && DestroysInput(e, MakeContext(utxos, tx).value, InputIndex(tx, oid), utxos[oid])
  }

  /** A command to delete the record of an indexed chain the transaction destroys. */
  ghost predicate IsDeletion(e: Env, utxos: UTXOs, tx: Bytes, cmd: Command)
    requires Accepts(e, utxos, tx)
  {
    && cmd.delete && cmd.outputID == Zeros(OUTPUT_ID_LENGTH)
    && exists oid :: Destroys(e, utxos, tx, oid) && IndexedChain(e, oid, utxos[oid]) == Some(cmd.id)
  }

  /** What is deleted: exactly the indexed chains of the consumed outputs that are destroyed. */
  lemma {:induction false} DeletedChains(e: Env, utxos: UTXOs, tx: Bytes, id: Bytes)
    requires Accepts(e, utxos, tx)
    ensures NamesChain(DeleteCommands(e, utxos, tx), id) <==>
      exists oid :: Destroys(e, utxos, tx, oid) && IndexedChain(e, oid, utxos[oid]) == Some(id)
  {
    hide MakeContext, Accepts, Outputs, EntriesOf, Accepted, OutputOK, IndexedChain, DestroysInput, DeleteCommands;
    var del := DeleteCommands(e, utxos, tx);
    forall cmd: Command | cmd.partition == ChainPartition
      ensures cmd in del <==> IsDeletion(e, utxos, tx, cmd)
    {
      DeletedChain(e, utxos, tx, cmd);
    }
    if oid :| Destroys(e, utxos, tx, oid) && IndexedChain(e, oid, utxos[oid]) == Some(id) {
      assert Command(id, Zeros(OUTPUT_ID_LENGTH), true, ChainPartition) in del;
    }
  }

  lemma {:induction false} DeletedChain(e: Env, utxos: UTXOs, tx: Bytes, cmd: Command)
    requires Accepts(e, utxos, tx) && cmd.partition == ChainPartition
    ensures cmd in DeleteCommands(e, utxos, tx) <==> IsDeletion(e, utxos, tx, cmd)
  {
    hide MakeContext, Accepts, InputIDs, Outputs, EntriesOf, Accepted, OutputOK, IndexedChain, DestroysInput;
    ContextOf(e, utxos, tx);
    AcceptedParses(e, utxos, tx);
    var c, ids := MakeContext(utxos, tx).value, InputIDs(tx).value;
    CommandIn(e, c, true, c.consumed, |c.consumed|, cmd);
    forall i: Byte | i < |ids|
      ensures ids[i] in utxos && InputIndex(tx, ids[i]) == i
      ensures cmd in EntriesOf(e, c, true, i, c.consumed[i]) <==>
        cmd.delete && cmd.outputID == Zeros(OUTPUT_ID_LENGTH)
        && Destroys(e, utxos, tx, ids[i]) && IndexedChain(e, ids[i], utxos[ids[i]]) == Some(cmd.id)
    {
      ConsumedOutputOK(e, c, i);
      ChainEntriesOf(e, c, true, i, c.consumed[i], cmd);
    }
    if cmd in DeleteCommands(e, utxos, tx) {
      var i :| 0 <= i < |ids| && cmd in EntriesOf(e, c, true, i, c.consumed[i]);
      assert Destroys(e, utxos, tx, ids[i]);
    }
    if oid :| Destroys(e, utxos, tx, oid) && IndexedChain(e, oid, utxos[oid]) == Some(cmd.id) {
      assert ids[InputIndex(tx, oid)] == oid;
    }
  }

  // ------------------------------------------------------------------ every record is true

  /** A record names a known output, and if that is unspent it is indexed under this very chain id. */
  ghost predicate RecordsTrue(e: Env, db: Database) {
    forall id :: ChainEntry(db.index, id).Some? ==> RecordTrue(e, db.state, id, ChainEntry(db.index, id).value)
  }

  ghost predicate RecordTrue(e: Env, s: State, id: Bytes, oid: Bytes) {
    && Known(e, s.accepted, oid)
    && (oid in s.utxos ==> IndexedChain(e, oid, s.utxos[oid]) == Some(id))
  }

  lemma {:induction false} StepRecordsTrue(e: Env, genesis: Bytes, supply: nat, db: Database, tx: Bytes)
    requires Sound(e) && Inv(e, genesis, supply, db.state) && CollisionFree(e, Step(e, db.state, tx).accepted)
    requires RecordsTrue(e, db)
    ensures RecordsTrue(e, AddTransaction(e, db, tx))
  {
    hide Accepts, Inv, DeleteCommands, AddCommands, CommandsOf, RunCommands, Uniform, Consumes, Produces, CommandsOK,
      ChainEntry, Known, IndexedChain, NamesChain;
    if Accepts(e, db.state.utxos, tx) {
      var s, s' := db.state, Step(e, db.state, tx);
      AcceptedParses(e, s.utxos, tx);
      ApplyContents(e, s.utxos, tx);
      UpdatePhases(e, s.utxos, tx, db.index);
      var del, add := DeleteCommands(e, s.utxos, tx), AddCommands(e, s.utxos, tx);
      var db' := AddTransaction(e, db, tx);
      forall id | ChainEntry(db'.index, id).Some?
        ensures RecordTrue(e, s', id, ChainEntry(db'.index, id).value)
      {
        var oid := ChainEntry(db'.index, id).value;
        UniformChains(db.index, del, true, id);
        UniformChains(RunCommands(db.index, del), add, false, id);
        KnownAppend(e, s.accepted, tx, oid);
        if NamesChain(add, id) {
          AddedChains(e, s.utxos, tx, Command(id, oid, false, ChainPartition));
        } else {
          assert RecordTrue(e, s, id, oid);
          KnownNotProduced(e, genesis, supply, s, tx, oid);
        }
      }
    }
  }

  lemma {:induction false} KnownNotProduced(e: Env, genesis: Bytes, supply: nat, s: State, tx: Bytes, id: Bytes)
    requires Sound(e) && Inv(e, genesis, supply, s)
    requires Accepts(e, s.utxos, tx) && CollisionFree(e, s.accepted + [tx])
    ensures Known(e, s.accepted, id) ==> !Produces(e, tx, id)
  {
    hide Accepts, Inv, Produces, Known;
    if Produces(e, tx, id) {
      ProducedIsNew(e, genesis, supply, s, tx, id);
    }
  }

  lemma InitialHasNoChains(e: Env, supply: nat, address: Bytes, ts: nat, id: Bytes)
    requires GenesisOK(e, supply, address, ts)
    ensures ChainEntry(InitialDatabase(e, supply, address, ts).index, id).None?
    ensures IndexedChain(e, GENESIS_OUTPUT_ID, GenesisOutput(e, supply, address, ts)).None?
  {
    GenesisParses(e, supply, address, ts);
    hide GenesisOutput, Blocks;
    assert WellSized(AddressED25519(address));
    assert AccountKey(GenesisAccount(e, address), GENESIS_OUTPUT_ID)[0] == 0 && ChainKey(id)[0] == 1;
  }

  /**
   In every reachable state of the database, a chain id that the index resolves to an
   unspent output is the adjusted id of that output's indexed chain constraint.
   */
  lemma {:induction false} ChainRecordsAreTrue(e: Env, supply: nat, address: Bytes, ts: nat, txs: seq<Bytes>, n: nat)
    requires CleanRun(e, supply, address, ts, txs) && n <= |txs|
    ensures RecordsTrue(e, DatabaseAt(e, InitialDatabase(e, supply, address, ts), txs, n))
  {
    hide RecordTrue, Inv, CollisionFree, Sound, Accepts, GenesisOutput, AddTransaction, CommandsOf, ChainEntry;
    var init := InitialDatabase(e, supply, address, ts);
    if n == 0 {
      forall id ensures ChainEntry(init.index, id).None? { InitialHasNoChains(e, supply, address, ts, id); }
    } else {
      ChainRecordsAreTrue(e, supply, address, ts, txs, n - 1);
      DatabaseRuns(e, init, txs, n - 1);
      Reachable(e, supply, address, ts, txs, n - 1);
      Reachable(e, supply, address, ts, txs, n);
      StepRecordsTrue(e, GenesisOutput(e, supply, address, ts), supply, DatabaseAt(e, init, txs, n - 1), txs[n - 1]);
    }
  }
}
