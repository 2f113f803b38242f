/**
 The centralized database: the ledger, its index, and balances.
 */
module UTXODatabase {
  import opened Bytes
  import opened Codec
  import opened Context
  import opened Constraints
  import opened Validation
  import opened Ledger
  import opened Supply
  import opened Runs
  import opened Index
  import opened Accounts
  import opened ChainIndex
  import opened Lineage
  import opened Signatures
  import opened OutputView
  import opened ConstraintMeanings
  import opened Acceptance

  /** A state of the database after some run from genesis without digest collisions. */
  ghost predicate IsReachable(e: Env, db: Database) {
    exists supply, address, ts, txs ::
      CleanRun(e, supply, address, ts, txs) && db == DatabaseAt(e, InitialDatabase(e, supply, address, ts), txs, |txs|)
  }

  lemma {:induction false} ReachableFacts(e: Env, db: Database)
    requires IsReachable(e, db)
    ensures AccountsAgree(e, db) && WholeKeys(db.index) && RecordsTrue(e, db)
    ensures Total(e, db.state.utxos) <= MAX_UINT64
    ensures forall oid :: oid in db.state.utxos ==> |oid| == OUTPUT_ID_LENGTH
    ensures Sound(e) && OnlyOutputs(e, db.state.utxos)
  {
    hide Inv, CollisionFree, Accepts, AccountsAgree, WholeKeys, RecordsTrue, GenesisOutput, Genesis, DatabaseAt, RunTo,
      OnlyOutputs;
    var supply, address, ts, txs :|
      CleanRun(e, supply, address, ts, txs) && db == DatabaseAt(e, InitialDatabase(e, supply, address, ts), txs, |txs|);
    AccountsAlwaysAgree(e, supply, address, ts, txs, |txs|);
    ChainRecordsAreTrue(e, supply, address, ts, txs, |txs|);
    DatabaseRuns(e, InitialDatabase(e, supply, address, ts), txs, |txs|);
    SupplyConserved(e, supply, address, ts, txs);
    Reachable(e, supply, address, ts, txs, |txs|);
    OutputsAlwaysRead(e, supply, address, ts, txs, |txs|);
    IDLengths(e, GenesisOutput(e, supply, address, ts), supply, db.state);
  }

  lemma IDLengths(e: Env, genesis: Bytes, supply: nat, s: State)
    requires Sound(e) && Inv(e, genesis, supply, s)
    ensures forall oid :: oid in s.utxos ==> |oid| == OUTPUT_ID_LENGTH
  {
    hide Outputs, Total;
    forall oid | oid in s.utxos
      ensures |oid| == OUTPUT_ID_LENGTH
    {
      assert Known(e, s.accepted, oid);
    }
  }

  /** A transaction without a digest collision leads to another reachable state, and to output IDs that are new. */
  lemma {:induction false} ReachableNext(e: Env, db: Database, tx: Bytes)
    requires IsReachable(e, db) && CollisionFree(e, Step(e, db.state, tx).accepted)
    ensures IsReachable(e, Accounts.AddTransaction(e, db, tx))
    ensures Accepts(e, db.state.utxos, tx) ==> forall id :: id in db.state.utxos ==> !Produces(e, tx, id)
  {
    hide Inv, CollisionFree, Accepts, Sound, GenesisOutput, Genesis, InitialDatabase, Produces, CommandsOf;
    var supply, address, ts, txs :|
      CleanRun(e, supply, address, ts, txs) && db == DatabaseAt(e, InitialDatabase(e, supply, address, ts), txs, |txs|);
    var init, g, more := InitialDatabase(e, supply, address, ts), Genesis(e, supply, address, ts), txs + [tx];
    DatabaseRuns(e, init, txs, |txs|);
    InitialIsGenesis(e, supply, address, ts);
    SamePrefix(e, init, txs, more, |txs|);
    assert more[|txs|] == tx;
    DatabaseRuns(e, init, more, |more|);
    assert DatabaseAt(e, init, more, |more|) == Accounts.AddTransaction(e, db, tx);
    assert RunTo(e, g, more, |more|) == Step(e, db.state, tx);
    assert CleanRun(e, supply, address, ts, more);
    if Accepts(e, db.state.utxos, tx) {
      Reachable(e, supply, address, ts, txs, |txs|);
      forall id | id in db.state.utxos
        ensures !Produces(e, tx, id)
      {
        UnspentNotProduced(e, GenesisOutput(e, supply, address, ts), supply, db.state, tx, id);
      }
    }
  }

  lemma InitialIsGenesis(e: Env, supply: nat, address: Bytes, ts: nat)
    requires GenesisOK(e, supply, address, ts)
    ensures InitialDatabase(e, supply, address, ts).state == Genesis(e, supply, address, ts)
  {
  }

  lemma {:induction false} SamePrefix(e: Env, db: Database, txs: seq<Bytes>, more: seq<Bytes>, n: nat)
    requires txs <= more && n <= |txs|
    ensures DatabaseAt(e, db, txs, n) == DatabaseAt(e, db, more, n)
  {
    hide Accounts.AddTransaction;
    if n == 0 {
    } else {
      SamePrefix(e, db, txs, more, n - 1);
      assert txs[n - 1] == more[n - 1];
    }
  }

  // ------------------------------------------------------------------ filtering outputs by time

  /** What the balance filter takes an account to be able to unlock at time `ts`. */
  predicate UnlockableWith(e: Env, lock: Bytes, acc: Bytes, ts: nat) {
    match e.decode(lock)
    case AddressED25519(a) => AccountID(e, AddressED25519(a)) == acc
    case ChainLock(id) => AccountID(e, ChainLock(id)) == acc
    case DeadlineLock(d, m, x) =>
      AccountID(e, AddressED25519(if ts <= FromBigEndian(d) then m else x)) == acc
    case _ => false
  }

  /** The output parses and passes the time filter, if there is one. */
  predicate Passes(e: Env, output: Bytes, acc: Bytes, ts: Option<nat>) {
    ParsesAsOutput(e, output) && (ts.None? || UnlockableWith(e, Blocks(output).value[LOCK_BLOCK], acc, ts.value))
  }

  // ------------------------------------------------------------------ totals of parts of the ledger

  lemma {:induction false} TotalPart(e: Env, part: UTXOs, whole: UTXOs)
    requires forall k :: k in part ==> k in whole && whole[k] == part[k]
    ensures Total(e, part) <= Total(e, whole)
    decreases |part|
  {
    hide AmountIn, Total;
    if part == map[] {
      TotalEmpty(e);
    } else {
      var k :| k in part;
      TotalRemove(e, part, k);
      TotalRemove(e, whole, k);
      TotalPart(e, part - {k}, whole - {k});
    }
  }

  lemma TotalEmpty(e: Env)
    ensures Total(e, map[]) == 0
  {
  }

  /** The unspent outputs of an account that pass the filter. */
  function AccountOutputs(e: Env, utxos: UTXOs, acc: Bytes, ts: Option<nat>): UTXOs {
    map oid | oid in utxos && acc in TagsOf(e, utxos[oid]) && Passes(e, utxos[oid], acc, ts)
      :: utxos[oid]
  }

  /** What the index returns for an account: its unspent outputs, each once, in any order. */
  ghost predicate ListsAccount(e: Env, utxos: UTXOs, acc: Bytes, list: seq<(Bytes, Bytes)>) {
    && (forall oid, data :: (oid, data) in list <==>
         oid in utxos && acc in TagsOf(e, utxos[oid]) && data == utxos[oid])
    && (forall j, k :: 0 <= j < k < |list| ==> list[j].0 != list[k].0)
  }

  /** In a reachable state, the outputs found for an account are exactly its unspent outputs. */
  lemma FoundIsAccount(e: Env, db: Database, acc: Bytes, list: seq<(Bytes, Bytes)>)
    requires AccountsAgree(e, db) && |acc| <= MAX_ID_LENGTH
    requires forall oid :: oid in db.state.utxos ==> |oid| == OUTPUT_ID_LENGTH
    requires forall oid, data :: (oid, data) in list <==>
      |oid| == OUTPUT_ID_LENGTH && HasAccount(db.index, acc, oid) && GetUTXO(db.state.utxos, oid) == Some(data)
    requires forall j, k :: 0 <= j < k < |list| ==> list[j].0 != list[k].0
    ensures ListsAccount(e, db.state.utxos, acc, list)
  {
    forall oid | oid in db.state.utxos && acc in TagsOf(e, db.state.utxos[oid])
      ensures db.state.utxos[oid] != []
    {
    }
    hide TagsOf, HasAccount;
  }

  // ------------------------------------------------------------------ accounts, read from the locks

  /** What has an account: an address or a chain. */
  predicate IsAccount(account: Script) {
    (account.AddressED25519? || account.ChainLock?) && |account.arg| == 32
  }

  /** The lock is that of the address, or a deadline lock between it and another address; or it is that of the chain. */
  predicate LockNames(lock: Script, account: Script) {
    match account
    case AddressED25519(a) =>
      lock == AddressED25519(a) || (lock.DeadlineLock? && (lock.main == a || lock.expiry == a))
    case ChainLock(id) => lock == ChainLock(id)
    case _ => false
  }

  /**
   The time filter of balances: without a time everything counts, and with one a deadline
   lock counts for its main address up to the deadline and for the other one after it.
   */
  predicate LockCounts(lock: Script, account: Script, ts: Option<nat>) {
    LockNames(lock, account) && (ts.Some? && lock.DeadlineLock? ==>
      account == AddressED25519(if ts.value <= FromBigEndian(lock.deadline) then lock.main else lock.expiry))
  }

  /** The unspent outputs that count for an account. */
  function OwnedBy(e: Env, utxos: UTXOs, account: Script, ts: Option<nat>): UTXOs
    requires OnlyOutputs(e, utxos)
  {
    map oid | oid in utxos && LockCounts(LockIn(e, utxos[oid]), account, ts) :: utxos[oid]
  }

  /** The list holds exactly the entries of the map, each once. */
  ghost predicate Enumerates(list: seq<(Bytes, Bytes)>, m: UTXOs) {
    && (forall oid, data :: (oid, data) in list <==> oid in m && m[oid] == data)
    && (forall j, k :: 0 <= j < k < |list| ==> list[j].0 != list[k].0)
  }

  /** Every output has a timestamp. */
  ghost predicate AllTimed(e: Env, utxos: UTXOs) {
    forall oid :: oid in utxos ==> TimeOf(e, utxos[oid]).Some?
  }

  /** The exact total and number of the outputs that count, if all that are listed have timestamps. */
  ghost function BalanceOf(e: Env, listed: UTXOs, counted: UTXOs): Option<(nat, nat)> {
    if AllTimed(e, listed) then Some((Total(e, counted), |counted|)) else None
  }

  /** Which accounts an output is indexed under. */
  lemma TagsMean(e: Env, output: Bytes, account: Script)
    requires Sound(e) && IsOutput(e, output) && IsAccount(account)
    ensures e.encode(account) in TagsOf(e, output) <==> LockNames(LockIn(e, output), account)
  {
    hide Parse;
    assert WellSized(account);
    var lock := LockIn(e, output);
    match lock
    case AddressED25519(a) => assert WellSized(AddressED25519(a));
    case ChainLock(a) => assert WellSized(ChainLock(a));
    case DeadlineLock(d, m, x) => assert WellSized(AddressED25519(m)) && WellSized(AddressED25519(x));
  }

  /** Which outputs of an account the builder can read, and which of them pass the filter. */
  lemma PassesMeans(e: Env, output: Bytes, account: Script, ts: Option<nat>)
    requires Sound(e) && IsOutput(e, output) && IsAccount(account)
    ensures ParsesAsOutput(e, output) <==> TimeOf(e, output).Some?
    ensures LockNames(LockIn(e, output), account) && TimeOf(e, output).Some? ==>
      (Passes(e, output, e.encode(account), ts) <==> LockCounts(LockIn(e, output), account, ts))
  {
    hide Parse;
    assert WellSized(account);
    var lock := LockIn(e, output);
    if lock.DeadlineLock? {
      assert WellSized(AddressED25519(lock.main)) && WellSized(AddressED25519(lock.expiry));
    }
  }

  /** What the index lists for an account is what its locks name. */
  lemma {:induction false} AccountMeans(e: Env, utxos: UTXOs, account: Script, list: seq<(Bytes, Bytes)>,
                                        ts: Option<nat>)
    requires Sound(e) && OnlyOutputs(e, utxos) && IsAccount(account)
    ensures var acc := e.encode(account);
      && |acc| <= MAX_ID_LENGTH
      && (ListsAccount(e, utxos, acc, list) <==> Enumerates(list, OwnedBy(e, utxos, account, None)))
      && AccountBalance(e, utxos, acc, ts)
         == BalanceOf(e, OwnedBy(e, utxos, account, None), OwnedBy(e, utxos, account, ts))
  {
    assert WellSized(account);
    hide Sound, IsOutput, TagsOf, ParsesAsOutput, TimeOf, LockCounts, Total, LockIn, AccountOutputs, AllTimed;
    var acc, owned := e.encode(account), OwnedBy(e, utxos, account, None);
    OwnedContents(e, utxos, account);
    forall oid | oid in utxos
      ensures ParsesAsOutput(e, utxos[oid]) <==> TimeOf(e, utxos[oid]).Some?
    {
      PassesMeans(e, utxos[oid], account, ts);
    }
    AllTimedMeans(e, utxos, owned, acc);
    if AllTimed(e, owned) {
      CountedContents(e, utxos, account, ts);
    }
  }

  lemma {:induction false} OwnedContents(e: Env, utxos: UTXOs, account: Script)
    requires Sound(e) && OnlyOutputs(e, utxos) && IsAccount(account)
    ensures var owned := OwnedBy(e, utxos, account, None);
      && (forall oid :: oid in owned <==> oid in utxos && e.encode(account) in TagsOf(e, utxos[oid]))
      && (forall oid :: oid in owned ==> owned[oid] == utxos[oid])
  {
    hide Sound, IsOutput, TagsOf, LockNames, LockCounts, LockIn;
    forall oid | oid in utxos
      ensures e.encode(account) in TagsOf(e, utxos[oid]) <==> LockCounts(LockIn(e, utxos[oid]), account, None)
    {
      TagsMean(e, utxos[oid], account);
      UnfilteredCounts(LockIn(e, utxos[oid]), account, None);
    }
  }

  lemma {:induction false} CountedContents(e: Env, utxos: UTXOs, account: Script, ts: Option<nat>)
    requires Sound(e) && OnlyOutputs(e, utxos) && IsAccount(account)
    requires AllTimed(e, OwnedBy(e, utxos, account, None))
    ensures AccountOutputs(e, utxos, e.encode(account), ts) == OwnedBy(e, utxos, account, ts)
  {
    hide Sound, IsOutput, TagsOf, LockNames, LockCounts, LockIn, Passes, TimeOf;
    var acc, owned := e.encode(account), OwnedBy(e, utxos, account, None);
    forall oid | oid in utxos
      ensures acc in TagsOf(e, utxos[oid]) && Passes(e, utxos[oid], acc, ts)
        <==> LockCounts(LockIn(e, utxos[oid]), account, ts)
    {
      TagsMean(e, utxos[oid], account);
      UnfilteredCounts(LockIn(e, utxos[oid]), account, ts);
      if oid in owned {
        assert TimeOf(e, owned[oid]).Some?;
        PassesMeans(e, utxos[oid], account, ts);
      }
    }
  }

  lemma UnfilteredCounts(lock: Script, account: Script, ts: Option<nat>)
    ensures LockCounts(lock, account, None) <==> LockNames(lock, account)
    ensures LockCounts(lock, account, ts) ==> LockNames(lock, account)
  {
    hide LockNames;
  }

  lemma AllTimedMeans(e: Env, utxos: UTXOs, owned: UTXOs, acc: Bytes)
    requires forall oid :: oid in owned <==> oid in utxos && acc in TagsOf(e, utxos[oid])
    requires forall oid :: oid in owned ==> owned[oid] == utxos[oid]
    requires forall oid :: oid in utxos ==> (ParsesAsOutput(e, utxos[oid]) <==> TimeOf(e, utxos[oid]).Some?)
    ensures AllTimed(e, owned)
      <==> forall oid :: oid in utxos && acc in TagsOf(e, utxos[oid]) ==> ParsesAsOutput(e, utxos[oid])
  {
    hide TagsOf, ParsesAsOutput, TimeOf;
    forall oid | oid in owned
      ensures TimeOf(e, owned[oid]).Some? <==> ParsesAsOutput(e, utxos[oid])
    {
    }
  }

  /** The balance of an account ID: None if it is too long, or an output of the account cannot be read. */
  ghost function AccountBalance(e: Env, utxos: UTXOs, acc: Bytes, ts: Option<nat>): Option<(nat, nat)> {
    if |acc| <= MAX_ID_LENGTH
      && forall oid :: oid in utxos && acc in TagsOf(e, utxos[oid]) ==> ParsesAsOutput(e, utxos[oid])
    then Some((Total(e, AccountOutputs(e, utxos, acc, ts)), |AccountOutputs(e, utxos, acc, ts)|))
    else None
  }

  predicate AllParse(e: Env, list: seq<(Bytes, Bytes)>) {
    forall k :: 0 <= k < |list| ==> ParsesAsOutput(e, list[k].1)
  }

  /** Those of the first `n` listed outputs that pass the filter. */
  ghost function Taken(e: Env, acc: Bytes, ts: Option<nat>, list: seq<(Bytes, Bytes)>, n: nat): UTXOs
    requires n <= |list|
  {
    if n == 0 then map[]
    else
      var before := Taken(e, acc, ts, list, n - 1);
      if Passes(e, list[n - 1].1, acc, ts) then before[list[n - 1].0 := list[n - 1].1] else before
  }

  lemma {:induction false} TakenContents(e: Env, acc: Bytes, ts: Option<nat>, list: seq<(Bytes, Bytes)>, n: nat)
    requires n <= |list|
    requires forall j, k :: 0 <= j < k < |list| ==> list[j].0 != list[k].0
    ensures forall oid :: oid in Taken(e, acc, ts, list, n) <==>
      exists k :: 0 <= k < n && list[k].0 == oid && Passes(e, list[k].1, acc, ts)
    ensures forall k :: 0 <= k < n && list[k].0 in Taken(e, acc, ts, list, n) ==>
      Taken(e, acc, ts, list, n)[list[k].0] == list[k].1
  {
    hide Passes;
    if n == 0 {
    } else {
      TakenContents(e, acc, ts, list, n - 1);
    }
  }

  /** The exact totals after one more output, which fit in 64 bits because the ledger's total does. */
  lemma NotTakenYet(e: Env, utxos: UTXOs, acc: Bytes, ts: Option<nat>, list: seq<(Bytes, Bytes)>, n: nat)
    requires ListsAccount(e, utxos, acc, list) && n < |list|
    ensures list[n].0 !in Taken(e, acc, ts, list, n)
  {
    hide Passes, Taken;
    TakenContents(e, acc, ts, list, n);
  }

  lemma TakenStep(e: Env, utxos: UTXOs, acc: Bytes, ts: Option<nat>, list: seq<(Bytes, Bytes)>, n: nat)
    requires ListsAccount(e, utxos, acc, list) && Total(e, utxos) <= MAX_UINT64 && n < |list|
    ensures var t, t' := Taken(e, acc, ts, list, n), Taken(e, acc, ts, list, n + 1);
      if Passes(e, list[n].1, acc, ts) then
        Total(e, t') == AddUint64(Total(e, t), AmountIn(e, list[n].1)) && |t'| == |t| + 1
      else t' == t
  {
    hide Passes, AmountIn, Total, ListsAccount;
    if Passes(e, list[n].1, acc, ts) {
      var t := Taken(e, acc, ts, list, n);
      NotTakenYet(e, utxos, acc, ts, list, n);
      TotalAdd(e, t, list[n].0, list[n].1);
      TakenPart(e, utxos, acc, ts, list, n + 1);
      TotalPart(e, Taken(e, acc, ts, list, n + 1), utxos);
    }
  }

  lemma TakenPart(e: Env, utxos: UTXOs, acc: Bytes, ts: Option<nat>, list: seq<(Bytes, Bytes)>, n: nat)
    requires ListsAccount(e, utxos, acc, list) && n <= |list|
    ensures forall k :: k in Taken(e, acc, ts, list, n) ==> k in utxos && utxos[k] == Taken(e, acc, ts, list, n)[k]
  {
    hide Passes, TagsOf;
    TakenContents(e, acc, ts, list, n);
    assert forall k :: 0 <= k < |list| ==> (list[k].0, list[k].1) in list;
  }

  /** The amounts of the listed outputs that pass the filter, added in 64 bits; None is a panic. */
  method SumAmounts(e: Env, utxos: UTXOs, acc: Bytes, ts: Option<nat>, list: seq<(Bytes, Bytes)>)
    returns (r: Option<(nat, nat)>)
    requires ListsAccount(e, utxos, acc, list) && Total(e, utxos) <= MAX_UINT64
    ensures r == if AllParse(e, list)
      then Some((Total(e, AccountOutputs(e, utxos, acc, ts)), |AccountOutputs(e, utxos, acc, ts)|)) else None
  {
    hide ListsAccount, ParsesAsOutput, Passes, AmountIn, Total, AddUint64, Taken;
    var balance: nat, count: nat := 0, 0;
    TakenNone(e, acc, ts, list);
    for i := 0 to |list|
      invariant AllParse(e, list[..i])
      invariant balance == Total(e, Taken(e, acc, ts, list, i)) && count == |Taken(e, acc, ts, list, i)|
    {
      if !ParsesAsOutput(e, list[i].1) { return None; }
      TakenStep(e, utxos, acc, ts, list, i);
      if Passes(e, list[i].1, acc, ts) {
        balance, count := AddUint64(balance, AmountIn(e, list[i].1)), count + 1;
      }
    }
    assert list[..|list|] == list;
    TakenIsAccount(e, utxos, acc, ts, list);
    return Some((balance, count));
  }

  lemma TakenNone(e: Env, acc: Bytes, ts: Option<nat>, list: seq<(Bytes, Bytes)>)
    ensures Taken(e, acc, ts, list, 0) == map[] && Total(e, map[]) == 0
  {
  }

  lemma {:induction false} TakenIsAccount(e: Env, utxos: UTXOs, acc: Bytes, ts: Option<nat>, list: seq<(Bytes, Bytes)>)
    requires ListsAccount(e, utxos, acc, list) && AllParse(e, list)
    ensures Taken(e, acc, ts, list, |list|) == AccountOutputs(e, utxos, acc, ts)
  {
    hide TagsOf, ParsesAsOutput, Passes;
    TakenContents(e, acc, ts, list, |list|);
    assert forall k :: 0 <= k < |list| ==> (list[k].0, list[k].1) in list;
    forall oid | oid in AccountOutputs(e, utxos, acc, ts)
      ensures oid in Taken(e, acc, ts, list, |list|)
    {
      assert (oid, utxos[oid]) in list;
    }
  }

  lemma AllParseMeans(e: Env, utxos: UTXOs, acc: Bytes, list: seq<(Bytes, Bytes)>)
    requires ListsAccount(e, utxos, acc, list)
    ensures AllParse(e, list)
      <==> forall oid :: oid in utxos && acc in TagsOf(e, utxos[oid]) ==> ParsesAsOutput(e, utxos[oid])
  {
    hide TagsOf, ParsesAsOutput;
    assert forall k :: 0 <= k < |list| ==> (list[k].0, list[k].1) in list;
    forall oid | AllParse(e, list) && oid in utxos && acc in TagsOf(e, utxos[oid])
      ensures ParsesAsOutput(e, utxos[oid])
    {
      assert (oid, utxos[oid]) in list;
    }
  }

  class UTXODB {
    const e: Env
    const ledger: Updatable
    const indexer: Indexer

    ghost function Now(): Database
      reads ledger, indexer
    {
      Database(ledger.Now(), indexer.store)
    }

    constructor (e: Env, supply: nat, address: Bytes, ts: nat)
      requires GenesisOK(e, supply, address, ts)
      ensures this.e == e && ledger.e == e && fresh(ledger) && fresh(indexer)
      ensures Now() == InitialDatabase(e, supply, address, ts)
    {
      this.e := e;
      ledger := new Updatable(e, supply, address, ts);
      assert WellSized(AddressED25519(address));
      indexer := new Indexer(GenesisAccount(e, address));
    }

    /** False means the transaction, or the index update after it, was rejected. */
    method AddTransaction(tx: Bytes) returns (ok: bool)
      requires ledger.e == e
      modifies ledger, indexer
      ensures Now() == Accounts.AddTransaction(e, old(Now()), tx)
      ensures ok ==> Accepts(e, old(Now()).state.utxos, tx)
      ensures Accepts(e, old(Now()).state.utxos, tx) ==> ok == CommandsOK(CommandsOf(e, old(Now()).state.utxos, tx))
    {
      hide Accepts, RunCommands, MakeContext, IndexCommands;
      var r := ledger.Update(tx);
      if r.None? { return false; }
      ok := indexer.Update(r.value);
    }

    /**
     The unspent outputs of an account: exactly those locked in it, each once. The account
     of an address has the outputs of its address locks and of the deadline locks that name
     it on either side; the account of a chain has those of its chain locks.
     */
    method AccountList(acc: Bytes) returns (r: Option<seq<(Bytes, Bytes)>>)
      requires ledger.e == e && IsReachable(e, Now())
      ensures r.Some? <==> |acc| <= MAX_ID_LENGTH
      ensures r.Some? ==> ListsAccount(e, ledger.utxos, acc, r.value)
      ensures OnlyOutputs(e, ledger.utxos)
      ensures forall account: Script :: IsAccount(account) && acc == e.encode(account) ==>
        r.Some? && Enumerates(r.value, OwnedBy(e, ledger.utxos, account, None))
    {
      hide CleanRun, DatabaseAt, AccountsAgree, WholeKeys, ListsAccount, Enumerates, OnlyOutputs, Sound, OwnedBy;
      ReachableFacts(e, Now());
      r := indexer.GetUTXOsLockedInAccount(acc, ledger.utxos);
      if |acc| <= MAX_ID_LENGTH {
        WholeKeysWholeIDs(indexer.store, acc);
        FoundIsAccount(e, Now(), acc, r.value);
      }
      forall account: Script | IsAccount(account) && acc == e.encode(account)
        ensures r.Some? && Enumerates(r.value, OwnedBy(e, ledger.utxos, account, None))
      {
        AccountMeans(e, ledger.utxos, account, if r.Some? then r.value else [], None);
      }
    }

    /**
     The balance of an account and the number of its outputs. None is a panic: the
     account ID is too long, or an output of the account has no timestamp. The 64-bit
     sum never wraps around: the balance is the exact total.
     */
    method Account(acc: Bytes, ts: Option<nat>) returns (r: Option<(nat, nat)>)
      requires ledger.e == e && IsReachable(e, Now())
      ensures r == AccountBalance(e, ledger.utxos, acc, ts)
      ensures OnlyOutputs(e, ledger.utxos)
      ensures forall account: Script :: IsAccount(account) && acc == e.encode(account) ==>
        r == BalanceOf(e, OwnedBy(e, ledger.utxos, account, None), OwnedBy(e, ledger.utxos, account, ts))
    {
      hide CleanRun, DatabaseAt, AccountsAgree, WholeKeys, TagsOf, ParsesAsOutput, Passes, ListsAccount, Total, Sound,
        OnlyOutputs, AccountOutputs, OwnedBy, AllTimed, Enumerates;
      ReachableFacts(e, Now());
      forall account: Script | IsAccount(account) && acc == e.encode(account)
        ensures AccountBalance(e, ledger.utxos, acc, ts)
          == BalanceOf(e, OwnedBy(e, ledger.utxos, account, None), OwnedBy(e, ledger.utxos, account, ts))
      {
        AccountMeans(e, ledger.utxos, account, [], ts);
      }
      var list := AccountList(acc);
      if list.None? { return None; }
      AllParseMeans(e, ledger.utxos, acc, list.value);
      r := SumAmounts(e, ledger.utxos, acc, ts, list.value);
    }

    /**
     The tokens locked in a chain, and those on the output that carries it. None is an
     error or a panic, exactly when the chain account cannot be read. The chain output is
     an unspent output indexed under this very id, and the sum over the outputs locked in
     the chain never wraps around.
     */
    method BalanceOnChain(chainID: Bytes) returns (r: Option<(nat, nat)>)
      requires ledger.e == e && IsReachable(e, Now())
      ensures OnlyOutputs(e, ledger.utxos)
      ensures r.Some? <==> ChainAccountReadable(e, Now(), chainID)
      ensures r.Some? ==>
        var oid := ChainEntry(indexer.store, chainID).value;
        && CarriesChain(e, ledger.utxos, chainID, oid)
        && r.value.0 == Total(e, AccountOutputs(e, ledger.utxos, AccountID(e, ChainLock(chainID)), None))
        && r.value.0 == Total(e, OwnedBy(e, ledger.utxos, ChainLock(chainID), None))
        && r.value.1 == AmountIn(e, ledger.utxos[oid])
    {
      hide CleanRun, DatabaseAt, AccountsAgree, WholeKeys, TagsOf, ParsesAsOutput, Passes, ListsAccount, Total,
        FirstChain, AmountIn, Sound, OwnedBy, OnlyOutputs, AllTimed, AccountBalance, RecordsTrue,
        AccountOutputs;
      ReachableFacts(e, Now());
      if |chainID| != 32 { return None; }
      ReachableIsSound(e, Now());
      ChainAccountIsShort(e, chainID);
      if ChainEntry(indexer.store, chainID).Some? {
        RecordCarries(e, Now(), chainID);
      }
      var chain := indexer.GetUTXOForChainID(chainID, ledger.utxos);
      if chain.None? { return None; }
      var (oid, output) := chain.value;
      if !ParsesAsOutput(e, output) { return None; }
      var block := IndexedBlockOf(e, output);
      if block == None || block == Some(0xff) { return None; }
      var sum := Account(AccountID(e, ChainLock(chainID)), None);
      BalanceMeans(e, ledger.utxos, AccountID(e, ChainLock(chainID)));
      if sum.None? { return None; }
      return Some((sum.value.0, AmountIn(e, output)));
    }
  }

  /**
   The index leads from the chain id to an unspent output that the builder can read and
   whose chain constraint is not in block 255, and the builder can read all outputs
   locked in the chain.
   */
  ghost predicate ChainAccountReadable(e: Env, db: Database, chainID: Bytes) {
    var utxos := db.state.utxos;
    && |chainID| == 32 && ChainEntry(db.index, chainID).Some?
    && var oid := ChainEntry(db.index, chainID).value;
    && oid in utxos && ParsesAsOutput(e, utxos[oid]) && IndexedBlockOf(e, utxos[oid]) != Some(0xff)
    && forall o :: o in utxos && AccountID(e, ChainLock(chainID)) in TagsOf(e, utxos[o]) ==> ParsesAsOutput(e, utxos[o])
  }

  lemma {:induction false} ReachableIsSound(e: Env, db: Database)
    requires IsReachable(e, db)
    ensures Sound(e)
  {
    hide DatabaseAt, InitialDatabase, CollisionFree, RunTo, Genesis, Sound;
  }

  lemma RecordCarries(e: Env, db: Database, chainID: Bytes)
    requires RecordsTrue(e, db) && ChainEntry(db.index, chainID).Some?
    ensures var oid := ChainEntry(db.index, chainID).value;
      oid in db.state.utxos ==> CarriesChain(e, db.state.utxos, chainID, oid) && db.state.utxos[oid] != []
  {
    hide FirstChain, ChainEntry;
    assert RecordTrue(e, db.state, chainID, ChainEntry(db.index, chainID).value);
  }

  lemma BalanceMeans(e: Env, utxos: UTXOs, acc: Bytes)
    ensures AccountBalance(e, utxos, acc, None).Some? <==>
      |acc| <= MAX_ID_LENGTH && forall o :: o in utxos && acc in TagsOf(e, utxos[o]) ==> ParsesAsOutput(e, utxos[o])
    ensures AccountBalance(e, utxos, acc, None).Some? ==>
      AccountBalance(e, utxos, acc, None).value.0 == Total(e, AccountOutputs(e, utxos, acc, None))
  {
    hide TagsOf, ParsesAsOutput, Total, AccountOutputs;
  }

  lemma ChainAccountIsShort(e: Env, chainID: Bytes)
    requires Sound(e) && |chainID| == 32
    ensures |AccountID(e, ChainLock(chainID))| <= MAX_ID_LENGTH
  {
    assert WellSized(ChainLock(chainID));
  }

  /** The output that carries a chain, in the ledger now. */
  ghost predicate CarriesChain(e: Env, utxos: UTXOs, chainID: Bytes, oid: Bytes) {
    oid in utxos && IndexedChain(e, oid, utxos[oid]) == Some(chainID)
  }

  /** A new database that is given a list of transactions one after the other. */
  method RunAll(e: Env, supply: nat, address: Bytes, ts: nat, txs: seq<Bytes>) returns (db: UTXODB)
    requires GenesisOK(e, supply, address, ts)
    ensures db.e == e && db.ledger.e == e && fresh(db)
    ensures db.Now() == DatabaseAt(e, InitialDatabase(e, supply, address, ts), txs, |txs|)
  {
    hide Accounts.AddTransaction, GenesisOK;
    db := new UTXODB(e, supply, address, ts);
    for i := 0 to |txs|
      invariant db.e == e && db.ledger.e == e && fresh(db) && fresh(db.ledger) && fresh(db.indexer)
      invariant db.Now() == DatabaseAt(e, InitialDatabase(e, supply, address, ts), txs, i)
    {
      var _ := db.AddTransaction(txs[i]);
    }
  }

  // ------------------------------------------------------------------ the balance filter and the deadline lock

  /** The account that, by the balance filter, can unlock a deadline lock at time `ts`. */
  function FilteredAddress(deadline: Bytes, main: Bytes, expiry: Bytes, ts: nat): Bytes {
    if ts <= FromBigEndian(deadline) then main else expiry
  }

  /**
   The balance filter and the deadline lock take opposite sides of the deadline: the
   address the filter names for the time of a transaction is the one the lock asks for
   there if and only if the two addresses of the lock are the same.
   */
  lemma DeadlineSidesDiffer(e: Env, c: Context, lock: Bytes, deadline: Bytes, main: Bytes, expiry: Bytes, ts: Bytes)
    requires e.decode(lock) == DeadlineLock(deadline, main, expiry) && |deadline| == 4 && |ts| == 4
    requires TxTimestamp(c) == Some(ts)
    ensures AddressToUnlock(e, c, lock) == Some(FilteredAddress(deadline, main, expiry, FromBigEndian(ts)))
      <==> main == expiry
    ensures forall acc :: UnlockableWith(e, lock, acc, FromBigEndian(ts)) <==>
      acc == AccountID(e, AddressED25519(FilteredAddress(deadline, main, expiry, FromBigEndian(ts))))
  {
    hide TxTimestamp;
    LexLessIsNumeric(deadline, ts);
  }
}
