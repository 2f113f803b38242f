/**
 The index: a key-value store that maps accounts to the outputs locked in them, and
 chain ids to the outputs that carry them, updated by commands.
 */
module Index {
  import opened Bytes
  import opened Validation
  import opened Ledger

  type Store = map<Bytes, Bytes>

  const PARTITION_ACCOUNT: Byte := 0
  const PARTITION_CHAIN_ID: Byte := 1
  const MAX_ID_LENGTH: nat := 255

  /** The account ID is prefixed with its length. */
  function AccountPrefix(acc: Bytes): Bytes
    requires |acc| <= MAX_ID_LENGTH
  {
    [PARTITION_ACCOUNT, |acc|] + acc
  }

  function AccountKey(acc: Bytes, oid: Bytes): Bytes
    requires |acc| <= MAX_ID_LENGTH
  {
    AccountPrefix(acc) + oid
  }

  function ChainKey(id: Bytes): Bytes {
    [PARTITION_CHAIN_ID] + id
  }

  /** Setting an empty value deletes the key. */
  function SetKey(store: Store, key: Bytes, value: Bytes): Store {
    if value == [] then store - {key} else store[key := value]
  }

  predicate CommandOK(cmd: Command) {
    |cmd.id| <= MAX_ID_LENGTH && (cmd.partition == ChainPartition ==> |cmd.id| == 32)
  }

  function RunCommand(store: Store, cmd: Command): Store
    requires CommandOK(cmd)
  {
    match cmd.partition
    case AccountPartition => SetKey(store, AccountKey(cmd.id, cmd.outputID), if cmd.delete then [] else [0xff])
    case ChainPartition => SetKey(store, ChainKey(cmd.id), if cmd.delete then [] else cmd.outputID)
  }

  predicate CommandsOK(cmds: seq<Command>) {
    forall k :: 0 <= k < |cmds| ==> CommandOK(cmds[k])
  }

  function RunCommands(store: Store, cmds: seq<Command>): Store
    requires CommandsOK(cmds)
  {
    if cmds == [] then store
    else RunCommand(RunCommands(store, cmds[..|cmds| - 1]), cmds[|cmds| - 1])
  }

  // ------------------------------------------------------------------ the store as two relations

  predicate HasAccount(store: Store, acc: Bytes, oid: Bytes) {
    |acc| <= MAX_ID_LENGTH && AccountKey(acc, oid) in store
  }

  function ChainEntry(store: Store, id: Bytes): Option<Bytes> {
    if ChainKey(id) in store then Some(store[ChainKey(id)]) else None
  }

  lemma AccountKeyInjective(acc: Bytes, oid: Bytes, acc': Bytes, oid': Bytes)
    requires |acc| <= MAX_ID_LENGTH && |acc'| <= MAX_ID_LENGTH
    ensures AccountKey(acc, oid) == AccountKey(acc', oid') <==> acc == acc' && oid == oid'
  {
    var k, k' := AccountKey(acc, oid), AccountKey(acc', oid');
    assert k[1] == |acc| && k'[1] == |acc'|;
    assert k[2..2 + |acc|] == acc && k'[2..2 + |acc'|] == acc';
    assert k[2 + |acc|..] == oid && k'[2 + |acc'|..] == oid';
  }

  /** Keys of one account never begin with the prefix of another. */
  lemma PrefixIsolated(acc: Bytes, acc': Bytes, oid: Bytes)
    requires |acc| <= MAX_ID_LENGTH && |acc'| <= MAX_ID_LENGTH
    ensures AccountPrefix(acc) <= AccountKey(acc', oid) <==> acc == acc'
    ensures AccountKey(acc, oid)[|AccountPrefix(acc)|..] == oid
  {
    var k := AccountKey(acc', oid);
    assert k[1] == |acc'| && k[2..2 + |acc'|] == acc';
    if AccountPrefix(acc) <= k {
      assert AccountPrefix(acc)[1] == |acc|;
      assert AccountPrefix(acc)[2..] == acc;
      assert k[..2 + |acc|][2..] == acc;
    }
  }

  lemma ChainKeyInjective(id: Bytes, id': Bytes)
    ensures ChainKey(id) == ChainKey(id') <==> id == id'
  {
    assert ChainKey(id)[1..] == id && ChainKey(id')[1..] == id';
  }

  lemma RunCommandEffect(store: Store, cmd: Command, acc: Bytes, oid: Bytes, id: Bytes)
    requires CommandOK(cmd) && |cmd.outputID| > 0
    ensures HasAccount(RunCommand(store, cmd), acc, oid) <==>
      if cmd == Command(acc, oid, cmd.delete, AccountPartition) then !cmd.delete else HasAccount(store, acc, oid)
    ensures ChainEntry(RunCommand(store, cmd), id) ==
      if cmd == Command(id, cmd.outputID, cmd.delete, ChainPartition)
      then (if cmd.delete then None else Some(cmd.outputID))
      else ChainEntry(store, id)
  {
    if |acc| <= MAX_ID_LENGTH {
      AccountKeyInjective(acc, oid, cmd.id, cmd.outputID);
      assert AccountKey(acc, oid)[0] == 0 && ChainKey(cmd.id)[0] == 1;
    }
    ChainKeyInjective(id, cmd.id);
    assert ChainKey(id)[0] == 1 && AccountKey(cmd.id, cmd.outputID)[0] == 0;
  }

  /**
   What the commands write, byte by byte: under 0, the length of the account ID, the account
   ID and the output ID, a single 0xff; under 1 and the chain id, the output ID.
   */
  lemma RunCommandWrites(store: Store, acc: Bytes, id: Bytes, oid: Bytes, delete: bool)
    requires |acc| <= 255 && |id| == 32 && oid != []
    ensures RunCommand(store, Command(acc, oid, delete, AccountPartition)) ==
      if delete then store - {[0, |acc|] + acc + oid} else store[[0, |acc|] + acc + oid := [0xff]]
    ensures RunCommand(store, Command(id, oid, delete, ChainPartition)) ==
      if delete then store - {[1] + id} else store[[1] + id := oid]
    ensures HasAccount(store, acc, oid) <==> [0, |acc|] + acc + oid in store
    ensures ChainEntry(store, id) == if [1] + id in store then Some(store[[1] + id]) else None
  {
  }

  /** Commands that all delete, or all record, and name whole output IDs. */
  predicate Uniform(cmds: seq<Command>, delete: bool) {
    forall k :: 0 <= k < |cmds| ==>
      CommandOK(cmds[k]) && cmds[k].delete == delete && |cmds[k].outputID| == OUTPUT_ID_LENGTH
  }

  predicate NamesChain(cmds: seq<Command>, id: Bytes) {
    exists k :: 0 <= k < |cmds| && cmds[k].partition == ChainPartition && cmds[k].id == id
  }

  /** The entry for `id` is what one of the recording commands for it says. */
  predicate Recorded(store: Store, cmds: seq<Command>, id: Bytes) {
    ChainEntry(store, id).Some? && Command(id, ChainEntry(store, id).value, false, ChainPartition) in cmds
  }

  lemma UniformSplit(cmds: seq<Command>, delete: bool)
    requires Uniform(cmds, delete) && cmds != []
    ensures var front, last := cmds[..|cmds| - 1], cmds[|cmds| - 1];
      && Uniform(front, delete) && cmds == front + [last] && last.delete == delete
      && CommandOK(last) && |last.outputID| == OUTPUT_ID_LENGTH
  {
  }

  /** The effect of uniform commands on the account records. */
  lemma {:induction false} UniformAccounts(store: Store, cmds: seq<Command>, delete: bool, acc: Bytes, oid: Bytes)
    requires Uniform(cmds, delete)
    ensures CommandsOK(cmds)
    ensures HasAccount(RunCommands(store, cmds), acc, oid) <==>
      if Command(acc, oid, delete, AccountPartition) in cmds then !delete else HasAccount(store, acc, oid)
  {
    if cmds == [] {
    } else {
      UniformSplit(cmds, delete);
      var front, last := cmds[..|cmds| - 1], cmds[|cmds| - 1];
      UniformAccounts(store, front, delete, acc, oid);
      RunCommandEffect(RunCommands(store, front), last, acc, oid, []);
    }
    hide RunCommand, HasAccount;
  }

  /** The effect of uniform commands on the chain records. */
  lemma {:induction false} UniformChains(store: Store, cmds: seq<Command>, delete: bool, id: Bytes)
    requires Uniform(cmds, delete)
    ensures CommandsOK(cmds)
    ensures !NamesChain(cmds, id) ==> ChainEntry(RunCommands(store, cmds), id) == ChainEntry(store, id)
    ensures NamesChain(cmds, id) && delete ==> ChainEntry(RunCommands(store, cmds), id) == None
    ensures NamesChain(cmds, id) && !delete ==> Recorded(RunCommands(store, cmds), cmds, id)
  {
    hide RunCommand, HasAccount, ChainEntry;
    if cmds == [] {
    } else {
      UniformSplit(cmds, delete);
      var front, last := cmds[..|cmds| - 1], cmds[|cmds| - 1];
      UniformChains(store, front, delete, id);
      RunCommandEffect(RunCommands(store, front), last, [], [], id);
      NamesChainAppend(front, last, id);
    }
  }

  lemma NamesChainAppend(cmds: seq<Command>, cmd: Command, id: Bytes)
    ensures NamesChain(cmds + [cmd], id) <==> NamesChain(cmds, id) || (cmd.partition == ChainPartition && cmd.id == id)
  {
    var all := cmds + [cmd];
    assert all[|cmds|] == cmd;
    assert forall k :: 0 <= k < |cmds| ==> all[k] == cmds[k];
  }

  lemma {:induction false} RunCommandsAppend(store: Store, a: seq<Command>, b: seq<Command>)
    requires CommandsOK(a) && CommandsOK(b)
    ensures CommandsOK(a + b) && RunCommands(store, a + b) == RunCommands(RunCommands(store, a), b)
    decreases |b|
  {
    hide RunCommand;
    if b == [] {
      assert a + b == a;
    } else {
      var n := |b| - 1;
      assert (a + b)[..|a + b| - 1] == a + b[..n];
      RunCommandsAppend(store, a, b[..n]);
    }
  }

  // ------------------------------------------------------------------ the indexer

  /** Every key under the account's prefix ends in a whole output ID. */
  ghost predicate WholeIDs(store: Store, acc: Bytes)
    requires |acc| <= MAX_ID_LENGTH
  {
    forall k :: k in store && AccountPrefix(acc) <= k ==> |k| == |AccountPrefix(acc)| + OUTPUT_ID_LENGTH
  }

  class Indexer {
    var store: Store

    constructor (genesisAccount: Bytes)
      requires |genesisAccount| <= MAX_ID_LENGTH
      ensures store == map[AccountKey(genesisAccount, GENESIS_OUTPUT_ID) := [0xff]]
    {
      store := map[AccountKey(genesisAccount, GENESIS_OUTPUT_ID) := [0xff]];
    }

    /** The commands are written in one batch: on an error nothing is written. */
    method Update(cmds: seq<Command>) returns (ok: bool)
      modifies this
      ensures ok <==> CommandsOK(cmds)
      ensures ok <==> forall k :: 0 <= k < |cmds| ==>
        |cmds[k].id| <= 255 && (cmds[k].partition == ChainPartition ==> |cmds[k].id| == 32)
      ensures store == if ok then RunCommands(old(store), cmds) else old(store)
    {
      var batch := store;
      for i := 0 to |cmds|
        modifies {}
        invariant CommandsOK(cmds[..i])
        invariant batch == RunCommands(store, cmds[..i])
      {
        assert cmds[..i + 1][..i] == cmds[..i];
        if !CommandOK(cmds[i]) { return false; }
        batch := RunCommand(batch, cmds[i]);
      }
      assert cmds[..|cmds|] == cmds;
      store := batch;
      return true;
    }

    /**
     The unspent outputs recorded under an account, each once, in the order the store
     iterates in; records of outputs no longer in the ledger are skipped. None is an error.
     */
    method GetUTXOsLockedInAccount(acc: Bytes, utxos: UTXOs) returns (r: Option<seq<(Bytes, Bytes)>>)
      ensures r.Some? <==> |acc| <= MAX_ID_LENGTH && WholeIDs(store, acc)
      ensures r.Some? ==> forall oid, data :: (oid, data) in r.value <==>
        |oid| == OUTPUT_ID_LENGTH && HasAccount(store, acc, oid) && GetUTXO(utxos, oid) == Some(data)
      ensures r.Some? ==> forall j, k :: 0 <= j < k < |r.value| ==> r.value[j].0 != r.value[k].0
    {
      if |acc| > MAX_ID_LENGTH { return None; }
      var prefix := AccountPrefix(acc);
      var todo := set k | k in store && prefix <= k;
      ghost var all := todo;
      var found: seq<(Bytes, Bytes)> := [];
      while todo != {}
        invariant todo <= all
        invariant forall k :: k in all - todo ==> |k| == |prefix| + OUTPUT_ID_LENGTH
        invariant forall oid, data :: (oid, data) in found <==>
          |oid| == OUTPUT_ID_LENGTH && AccountKey(acc, oid) in all - todo && GetUTXO(utxos, oid) == Some(data)
        invariant forall j, k :: 0 <= j < k < |found| ==> found[j].0 != found[k].0
        decreases |todo|
      {
        var key :| key in todo;
        var oid := key[|prefix|..];
        assert key == AccountKey(acc, oid);
        if |oid| != OUTPUT_ID_LENGTH {
          assert key in store && prefix <= key;
          return None;
        }
        todo := todo - {key};
        var data := GetUTXO(utxos, oid);
        forall other | |other| == OUTPUT_ID_LENGTH
          ensures AccountKey(acc, other) == key <==> other == oid
        {
          AccountKeyInjective(acc, other, acc, oid);
        }
        if data.Some? {
          assert forall k :: 0 <= k < |found| ==> (found[k].0, found[k].1) in found;
          found := found + [(oid, data.value)];
        }
      }
      return Some(found);
    }

    /** The output a chain is recorded at; None is an error: a malformed id, no record, or a spent output. */
    method GetUTXOForChainID(id: Bytes, utxos: UTXOs) returns (r: Option<(Bytes, Bytes)>)
      ensures r.Some? == (|id| == 32 && ChainEntry(store, id).Some?
        && |ChainEntry(store, id).value| == OUTPUT_ID_LENGTH && GetUTXO(utxos, ChainEntry(store, id).value).Some?)
      ensures r.Some? ==> ChainEntry(store, id) == Some(r.value.0) && GetUTXO(utxos, r.value.0) == Some(r.value.1)
    {
      if |id| != 32 || ChainKey(id) !in store { return None; }
      var oid := store[ChainKey(id)];
      if |oid| != OUTPUT_ID_LENGTH { return None; }
      var data := GetUTXO(utxos, oid);
      if data.None? { return None; }
      return Some((oid, data.value));
    }
  }
}
