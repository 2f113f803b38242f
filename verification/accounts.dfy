/**
 The ledger together with its index, as one database, and the agreement of the
 account records with the ledger in every reachable state.
 */
module Accounts {
  import opened Bytes
  import opened LazyTree
  import opened Context
  import opened Constraints
  import opened Validation
  import opened Ledger
  import opened Supply
  import opened Runs
  import opened Chains
  import opened Lineage
  import opened Index

  datatype Database = Database(state: State, index: Store)

  function GenesisAccount(e: Env, address: Bytes): Bytes {
    AccountID(e, AddressED25519(address))
  }

  function InitialDatabase(e: Env, supply: nat, address: Bytes, ts: nat): Database
    requires GenesisOK(e, supply, address, ts)
  {
    assert WellSized(AddressED25519(address));
    Database(Genesis(e, supply, address, ts),
             map[AccountKey(GenesisAccount(e, address), GENESIS_OUTPUT_ID) := [0xff]])
  }

  function CommandsOf(e: Env, utxos: UTXOs, tx: Bytes): seq<Command>
    requires Accepts(e, utxos, tx)
  {
    IndexCommands(e, MakeContext(utxos, tx).value)
  }

  /** The ledger is updated first; if the index rejects the commands it stays behind. */
  function AddTransaction(e: Env, db: Database, tx: Bytes): Database {
    if Accepts(e, db.state.utxos, tx) then
      var cmds := CommandsOf(e, db.state.utxos, tx);
      Database(Step(e, db.state, tx), if CommandsOK(cmds) then RunCommands(db.index, cmds) else db.index)
    else db
  }

  function DatabaseAt(e: Env, db: Database, txs: seq<Bytes>, n: nat): Database
    requires n <= |txs|
  {
    if n == 0 then db else AddTransaction(e, DatabaseAt(e, db, txs, n - 1), txs[n - 1])
  }

  lemma {:induction false} DatabaseRuns(e: Env, db: Database, txs: seq<Bytes>, n: nat)
    requires n <= |txs|
    ensures DatabaseAt(e, db, txs, n).state == RunTo(e, db.state, txs, n)
  {
    hide Accepts, CommandsOf;
    if n == 0 {
    } else {
      DatabaseRuns(e, db, txs, n - 1);
    }
  }

  // ------------------------------------------------------------------ what the commands of a transaction say

  /** The accounts an output is locked in. */
  function TagsOf(e: Env, output: Bytes): seq<Bytes> {
    match Blocks(output)
    case None => []
    case Some(blocks) =>
      if |blocks| <= LOCK_BLOCK then []
      else match LockTags(e, blocks[LOCK_BLOCK]) case None => [] case Some(tags) => tags
  }

  lemma LockCommandIn(tags: seq<Bytes>, oid: Bytes, consumed: bool, cmd: Command)
    ensures cmd in LockCommands(tags, oid, consumed) <==>
      cmd.partition == AccountPartition && cmd.id in tags && cmd.outputID == oid && cmd.delete == consumed
  {
    var cmds := LockCommands(tags, oid, consumed);
    if cmd.id in tags {
      var k :| 0 <= k < |tags| && tags[k] == cmd.id;
      assert cmds[k] == Command(cmd.id, oid, consumed, AccountPartition);
    }
  }

  /** The index entries of one output: one for each of its accounts, and at most one for its chain. */
  lemma {:induction false} EntryIn(e: Env, c: Context, consumed: bool, i: Byte, output: Bytes, cmd: Command)
    requires OutputOK(e, c, consumed, i, output)
    ensures OutputIDAt(e, c, consumed, i).Some?
    ensures cmd.partition == AccountPartition ==>
      (cmd in EntriesOf(e, c, consumed, i, output) <==>
        cmd.id in TagsOf(e, output) && Some(cmd.outputID) == OutputIDAt(e, c, consumed, i) && cmd.delete == consumed)
    ensures cmd.partition == ChainPartition ==>
      (cmd in EntriesOf(e, c, consumed, i, output) <==>
        cmd in ChainCommands(e, c, consumed, i, Blocks(output).value, OutputIDAt(e, c, consumed, i).value).value)
  {
    hide RunsOK, AmountIn, AmountOf, LockTags, OutputIDAt, Blocks;
    var blocks, oid := Blocks(output).value, OutputIDAt(e, c, consumed, i).value;
    LockCommandIn(LockTags(e, blocks[LOCK_BLOCK]).value, oid, consumed, cmd);
    hide LockCommands;
  }

  lemma {:induction false} CommandIn(e: Env, c: Context, consumed: bool, outputs: seq<Bytes>, n: nat, cmd: Command)
    requires n <= |outputs| <= MAX_ELEMENTS
    ensures cmd in CommandsTo(e, c, consumed, outputs, n) <==>
      exists i :: 0 <= i < n && cmd in EntriesOf(e, c, consumed, i, outputs[i])
  {
    hide EntriesOf;
    if n == 0 {
    } else {
      CommandIn(e, c, consumed, outputs, n - 1, cmd);
    }
  }

  lemma TagsAreShort(e: Env, output: Bytes, tag: Bytes)
    requires Sound(e) && tag in TagsOf(e, output)
    ensures |tag| <= MAX_ID_LENGTH
  {
    hide Blocks;
    var lock := e.decode(Blocks(output).value[LOCK_BLOCK]);
    match lock
    case AddressED25519(a) => assert WellSized(AddressED25519(a));
    case ChainLock(id) => assert WellSized(ChainLock(id));
    case DeadlineLock(d, m, x) => assert WellSized(AddressED25519(m)) && WellSized(AddressED25519(x));
  }

  lemma ChainCommandShape(e: Env, c: Context, consumed: bool, i: Byte, blocks: seq<Bytes>, oid: Bytes, cmd: Command)
    requires Sound(e) && |blocks| <= MAX_ELEMENTS && |oid| == OUTPUT_ID_LENGTH
    requires ChainCommands(e, c, consumed, i, blocks, oid).Some?
    requires cmd in ChainCommands(e, c, consumed, i, blocks, oid).value
    ensures CommandOK(cmd) && cmd.delete == consumed && |cmd.outputID| == OUTPUT_ID_LENGTH
    ensures cmd.partition == ChainPartition
  {
    FirstChainIs(e, blocks, 3);
    hide FirstChainFrom, SelfUnlock;
  }

  /** All commands of one side have the same direction and are well formed. */
  lemma {:induction false} UniformCommands(e: Env, c: Context, consumed: bool, outputs: seq<Bytes>)
    requires Sound(e) && |outputs| <= MAX_ELEMENTS && OutputsOK(e, c, consumed, outputs)
    requires forall i: Byte :: i < |outputs| && OutputIDAt(e, c, consumed, i).Some? ==>
      |OutputIDAt(e, c, consumed, i).value| == OUTPUT_ID_LENGTH
    ensures Uniform(CommandsTo(e, c, consumed, outputs, |outputs|), consumed)
  {
    hide OutputOK, OutputIDAt, TagsOf, ChainCommands, EntriesOf, Sound;
    var cmds := CommandsTo(e, c, consumed, outputs, |outputs|);
    forall k | 0 <= k < |cmds|
      ensures CommandOK(cmds[k]) && cmds[k].delete == consumed && |cmds[k].outputID| == OUTPUT_ID_LENGTH
    {
      var cmd := cmds[k];
      CommandIn(e, c, consumed, outputs, |outputs|, cmd);
      var i :| 0 <= i < |outputs| && cmd in EntriesOf(e, c, consumed, i, outputs[i]);
      assert OutputOK(e, c, consumed, i, outputs[i]);
      EntryIn(e, c, consumed, i, outputs[i], cmd);
      if cmd.partition == AccountPartition {
        TagsAreShort(e, outputs[i], cmd.id);
      } else {
        ChainShape(e, c, consumed, i, outputs[i], cmd);
      }
    }
  }

  lemma {:induction false} ChainShape(e: Env, c: Context, consumed: bool, i: Byte, output: Bytes, cmd: Command)
    requires Sound(e) && OutputOK(e, c, consumed, i, output) && OutputIDAt(e, c, consumed, i).Some?
    requires |OutputIDAt(e, c, consumed, i).value| == OUTPUT_ID_LENGTH
    requires cmd in ChainCommands(e, c, consumed, i, Blocks(output).value, OutputIDAt(e, c, consumed, i).value).value
    ensures CommandOK(cmd) && cmd.delete == consumed && |cmd.outputID| == OUTPUT_ID_LENGTH
  {
    hide RunsOK, AmountIn, AmountOf, LockTags, OutputIDAt, Blocks, ChainCommands, Sound;
    ChainCommandShape(e, c, consumed, i, Blocks(output).value, OutputIDAt(e, c, consumed, i).value, cmd);
  }

  // ------------------------------------------------------------------ the two phases of an update

  function DeleteCommands(e: Env, utxos: UTXOs, tx: Bytes): seq<Command>
    requires Accepts(e, utxos, tx)
  {
    var c := MakeContext(utxos, tx).value;
    CommandsTo(e, c, true, c.consumed, |c.consumed|)
  }

  function AddCommands(e: Env, utxos: UTXOs, tx: Bytes): seq<Command>
    requires Accepts(e, utxos, tx)
  {
    var outputs := Outputs(tx).value;
    CommandsTo(e, MakeContext(utxos, tx).value, false, outputs, |outputs|)
  }

  /** Index commands first delete what is consumed and then record what is produced. */
  lemma {:induction false} UpdatePhases(e: Env, utxos: UTXOs, tx: Bytes, index: Store)
    requires Sound(e) && Accepts(e, utxos, tx)
    ensures var del, add := DeleteCommands(e, utxos, tx), AddCommands(e, utxos, tx);
      && Uniform(del, true) && Uniform(add, false) && CommandsOK(del) && CommandsOK(add)
      && CommandsOK(CommandsOf(e, utxos, tx))
      && RunCommands(index, CommandsOf(e, utxos, tx)) == RunCommands(RunCommands(index, del), add)
  {
    AcceptedParses(e, utxos, tx);
    var c := MakeContext(utxos, tx).value;
    assert OutputsOK(e, c, true, c.consumed) && OutputsOK(e, c, false, Outputs(tx).value);
    assert forall i: Byte :: i < |c.consumed| ==>
      InputID(c, i) == Some(InputIDs(tx).value[i]) && |InputID(c, i).value| == OUTPUT_ID_LENGTH;
    hide MakeContext, Validation.Valid, CommandsTo, OutputsOK, InputIDs, Outputs, RunCommands, InputID;
    UniformCommands(e, c, true, c.consumed);
    UniformCommands(e, c, false, Outputs(tx).value);
    RunCommandsAppend(index, DeleteCommands(e, utxos, tx), AddCommands(e, utxos, tx));
  }

  lemma {:induction false} DeletedAccounts(e: Env, utxos: UTXOs, tx: Bytes, acc: Bytes, oid: Bytes)
    requires Accepts(e, utxos, tx)
    ensures Consumes(tx, oid) ==> oid in utxos
    ensures Command(acc, oid, true, AccountPartition) in DeleteCommands(e, utxos, tx) <==>
      Consumes(tx, oid) && acc in TagsOf(e, utxos[oid])
  {
    hide MakeContext, Accepts, InputIDs, TagsOf, Outputs, EntriesOf, Accepted, OutputOK;
    ContextOf(e, utxos, tx);
    var c, ids := MakeContext(utxos, tx).value, InputIDs(tx).value;
    var cmd := Command(acc, oid, true, AccountPartition);
    CommandIn(e, c, true, c.consumed, |c.consumed|, cmd);
    forall i: Byte | i < |ids|
      ensures cmd in EntriesOf(e, c, true, i, c.consumed[i]) <==> ids[i] == oid && acc in TagsOf(e, utxos[oid])
    {
      ConsumedOutputOK(e, c, i);
      EntryIn(e, c, true, i, c.consumed[i], cmd);
    }
  }

  lemma {:induction false} ConsumedOutputOK(e: Env, c: Context, i: Byte)
    requires Accepted(e, c) && i < |c.consumed|
    ensures OutputOK(e, c, true, i, c.consumed[i])
  {
    hide OutputOK, Buildable, Outputs, Sum, CommitmentOK;
  }

  lemma {:induction false} ProducedOutputOK(e: Env, c: Context, i: Byte)
    requires Accepted(e, c) && Outputs(c.txBytes).Some? && i < |Outputs(c.txBytes).value|
    ensures OutputOK(e, c, false, i, Outputs(c.txBytes).value[i])
  {
    hide OutputOK, Buildable, Outputs, Sum, CommitmentOK;
  }

  lemma {:induction false} AddedAccounts(e: Env, utxos: UTXOs, tx: Bytes, acc: Bytes, oid: Bytes)
    requires Accepts(e, utxos, tx)
    ensures Command(acc, oid, false, AccountPartition) in AddCommands(e, utxos, tx) <==>
      Produces(e, tx, oid) && acc in TagsOf(e, ProducedAt(e, tx, oid))
  {
    hide MakeContext, Accepts, InputIDs, TagsOf, Outputs, EntriesOf, Accepted, OutputOK;
    ContextOf(e, utxos, tx);
    var c, outputs := MakeContext(utxos, tx).value, Outputs(tx).value;
    var cmd := Command(acc, oid, false, AccountPartition);
    CommandIn(e, c, false, outputs, |outputs|, cmd);
    forall i: Byte | i < |outputs|
      ensures cmd in EntriesOf(e, c, false, i, outputs[i]) <==>
        oid == OutputID(e.blake2b(tx), i) && acc in TagsOf(e, outputs[i])
    {
      ProducedOutputOK(e, c, i);
      EntryIn(e, c, false, i, outputs[i], cmd);
    }
    if Produces(e, tx, oid) {
      KeyIsOutputID(e.blake2b(tx), |outputs|, oid);
    }
    forall i: Byte | i < |outputs| && oid == OutputID(e.blake2b(tx), i)
      ensures Produces(e, tx, oid) && ProducedAt(e, tx, oid) == outputs[i]
    {
      OutputIDIsKey(e.blake2b(tx), i, |outputs|);
    }
  }

  // ------------------------------------------------------------------ agreement

  /** An output is recorded under an account exactly when it is unspent and locked in that account. */
  ghost predicate AccountsAgree(e: Env, db: Database) {
    forall acc, oid :: |oid| == OUTPUT_ID_LENGTH ==>
      (HasAccount(db.index, acc, oid) <==> oid in db.state.utxos && acc in TagsOf(e, db.state.utxos[oid]))
  }

  predicate WholeKey(k: Bytes) {
    |k| > 0 && (k[0] == PARTITION_ACCOUNT ==> |k| >= 2 && |k| == 2 + k[1] + OUTPUT_ID_LENGTH)
  }

  ghost predicate WholeKeys(index: Store) {
    forall k :: k in index ==> WholeKey(k)
  }

  lemma WholeKeysWholeIDs(index: Store, acc: Bytes)
    requires WholeKeys(index) && |acc| <= MAX_ID_LENGTH
    ensures WholeIDs(index, acc)
  {
    forall k | k in index && AccountPrefix(acc) <= k
      ensures |k| == |AccountPrefix(acc)| + OUTPUT_ID_LENGTH
    {
      assert k[0] == AccountPrefix(acc)[0] == PARTITION_ACCOUNT && k[1] == AccountPrefix(acc)[1] == |acc|;
      assert WholeKey(k);
    }
  }

  lemma {:induction false} UniformWhole(store: Store, cmds: seq<Command>, delete: bool)
    requires Uniform(cmds, delete) && WholeKeys(store) && CommandsOK(cmds)
    ensures WholeKeys(RunCommands(store, cmds))
  {
    if cmds == [] {
    } else {
      UniformSplit(cmds, delete);
      UniformWhole(store, cmds[..|cmds| - 1], delete);
    }
  }

  lemma {:induction false} StepAgrees(e: Env, genesis: Bytes, supply: nat, db: Database, tx: Bytes)
    requires Sound(e) && Inv(e, genesis, supply, db.state) && CollisionFree(e, Step(e, db.state, tx).accepted)
    requires AccountsAgree(e, db) && WholeKeys(db.index)
    ensures AccountsAgree(e, AddTransaction(e, db, tx)) && WholeKeys(AddTransaction(e, db, tx).index)
  {
    hide Accepts, Inv, TagsOf, HasAccount, DeleteCommands, AddCommands, CommandsOf, RunCommands, Uniform, WholeKeys,
      Consumes, Produces, CommandsOK;
    if Accepts(e, db.state.utxos, tx) {
      UpdatePhases(e, db.state.utxos, tx, db.index);
      var del, add := DeleteCommands(e, db.state.utxos, tx), AddCommands(e, db.state.utxos, tx);
      UniformWhole(db.index, del, true);
      UniformWhole(RunCommands(db.index, del), add, false);
      forall acc, oid | |oid| == OUTPUT_ID_LENGTH
        ensures var db' := AddTransaction(e, db, tx);
          HasAccount(db'.index, acc, oid) <==> oid in db'.state.utxos && acc in TagsOf(e, db'.state.utxos[oid])
      {
        RecordAgrees(e, genesis, supply, db, tx, acc, oid);
      }
    }
  }

  lemma {:induction false} RecordAgrees(e: Env, genesis: Bytes, supply: nat, db: Database, tx: Bytes, acc: Bytes,
                                        oid: Bytes)
    requires Sound(e) && Inv(e, genesis, supply, db.state) && CollisionFree(e, Step(e, db.state, tx).accepted)
    requires AccountsAgree(e, db) && Accepts(e, db.state.utxos, tx) && |oid| == OUTPUT_ID_LENGTH
    ensures var db' := AddTransaction(e, db, tx);
      HasAccount(db'.index, acc, oid) <==> oid in db'.state.utxos && acc in TagsOf(e, db'.state.utxos[oid])
  {
    hide Accepts, Inv, TagsOf, HasAccount, DeleteCommands, AddCommands, CommandsOf, RunCommands, Uniform, Consumes,
      Produces, CommandsOK;
    var s := db.state;
    AcceptedParses(e, s.utxos, tx);
    ApplyContents(e, s.utxos, tx);
    UpdatePhases(e, s.utxos, tx, db.index);
    var del, add := DeleteCommands(e, s.utxos, tx), AddCommands(e, s.utxos, tx);
    UniformAccounts(db.index, del, true, acc, oid);
    UniformAccounts(RunCommands(db.index, del), add, false, acc, oid);
    DeletedAccounts(e, s.utxos, tx, acc, oid);
    AddedAccounts(e, s.utxos, tx, acc, oid);
    if oid in s.utxos {
      UnspentNotProduced(e, genesis, supply, s, tx, oid);
    }
  }

  lemma InitialAgrees(e: Env, supply: nat, address: Bytes, ts: nat)
    requires GenesisOK(e, supply, address, ts)
    ensures AccountsAgree(e, InitialDatabase(e, supply, address, ts))
    ensures WholeKeys(InitialDatabase(e, supply, address, ts).index)
  {
    GenesisParses(e, supply, address, ts);
    hide GenesisOutput, Blocks;
    assert WellSized(AddressED25519(address));
    var acc0 := GenesisAccount(e, address);
    assert TagsOf(e, GenesisOutput(e, supply, address, ts)) == [acc0];
    forall acc, oid | |oid| == OUTPUT_ID_LENGTH && |acc| <= MAX_ID_LENGTH
      ensures AccountKey(acc, oid) == AccountKey(acc0, GENESIS_OUTPUT_ID) <==> acc == acc0 && oid == GENESIS_OUTPUT_ID
    {
      AccountKeyInjective(acc, oid, acc0, GENESIS_OUTPUT_ID);
    }
    assert AccountKey(acc0, GENESIS_OUTPUT_ID)[1] == |acc0|;
  }

  /** In every reachable state of the database the account records agree with the ledger. */
  lemma {:induction false} AccountsAlwaysAgree(e: Env, supply: nat, address: Bytes, ts: nat, txs: seq<Bytes>, n: nat)
    requires CleanRun(e, supply, address, ts, txs) && n <= |txs|
    ensures var db := DatabaseAt(e, InitialDatabase(e, supply, address, ts), txs, n);
      AccountsAgree(e, db) && WholeKeys(db.index)
  {
    hide AccountsAgree, WholeKeys, Inv, CollisionFree, Sound, Accepts, GenesisOutput, AddTransaction, CommandsOf;
    if n == 0 {
      InitialAgrees(e, supply, address, ts);
    } else {
      AccountsAlwaysAgree(e, supply, address, ts, txs, n - 1);
      var init := InitialDatabase(e, supply, address, ts);
      DatabaseRuns(e, init, txs, n - 1);
      Reachable(e, supply, address, ts, txs, n - 1);
      Reachable(e, supply, address, ts, txs, n);
      StepAgrees(e, GenesisOutput(e, supply, address, ts), supply, DatabaseAt(e, init, txs, n - 1), txs[n - 1]);
    }
  }
}
