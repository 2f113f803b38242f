/**
 Outputs without a timestamp: the validator accepts them, and the builder cannot read
 them. One of them makes the balance of its recipient panic.
 */
module UntimedOutputs {
  import opened Bytes
  import opened Codec
  import opened LazyTree
  import opened Context
  import opened Constraints
  import opened Validation
  import opened Ledger
  import opened Supply
  import opened Runs
  import opened OutputView
  import opened Index
  import opened Accounts
  import opened UTXODatabase
  import opened Selection
  import opened Builder
  import opened StandardOutputs
  import opened Transfer
  import opened BuiltTransactions
  import opened SimpleTransferAccepted
  import opened PlainTransfers

  /** An amount, the origin of a chain in the place of the timestamp, and the recipient's lock. */
  function UntimedBlocks(e: Env, amount: nat, recipient: Bytes): seq<Bytes> {
    [e.encode(Amount(BigEndian(amount, 8))), OriginBlock(e), e.encode(AddressED25519(recipient))]
  }

  /** The largest size of an output of three library constraints. */
  const MAX_THREE_BLOCKS: nat := 2 + 3 * 259

  lemma UntimedReads(e: Env, amount: nat, recipient: Bytes)
    requires Sound(e) && |recipient| == 32 && amount <= MAX_UINT64
    ensures var blocks := UntimedBlocks(e, amount, recipient);
      && Encode(blocks).Some? && Blocks(Encode(blocks).value) == Some(blocks)
      && |Encode(blocks).value| <= MAX_THREE_BLOCKS
      && e.decode(blocks[0]) == Amount(BigEndian(amount, 8)) && blocks[0] != []
      && e.decode(blocks[1]) == Chain(ORIGIN_CHAIN_DATA) && blocks[1] != []
      && e.decode(blocks[2]) == AddressED25519(recipient) && blocks[2] != []
      && AmountIn(e, Encode(blocks).value) == amount
  {
    var blocks := UntimedBlocks(e, amount, recipient);
    assert WellSized(Amount(BigEndian(amount, 8))) && WellSized(Chain(ORIGIN_CHAIN_DATA))
      && WellSized(AddressED25519(recipient));
    Pow256Values();
    BigEndianRoundTrip(amount, 8);
    EncodedLength(blocks, MAX_UINT8);
    RoundTrip(blocks, MAX_ELEMENTS);
    hide Parse, Encode, Sound;
  }

  /** The validator finds the output in order wherever it covers its deposit, and the builder cannot read it. */
  lemma {:induction false} UntimedIsValid(e: Env, c: Context, i: Byte, amount: nat, recipient: Bytes, ts: nat)
    requires Sound(e) && |recipient| == 32 && amount <= MAX_UINT64 && i != 0xff
    requires ProducedOutput(c, i) == Encode(UntimedBlocks(e, amount, recipient))
    requires TxTimestamp(c) == Some(BigEndian(ts, 4))
    ensures Encode(UntimedBlocks(e, amount, recipient)).Some?
    ensures var output := Encode(UntimedBlocks(e, amount, recipient)).value;
      (OutputOK(e, c, false, i, output) <==> |output| <= amount) && !ParsesAsOutput(e, output)
  {
    hide EvalConstraint, Parse, Encode, AmountIn, Sound, UntimedBlocks, ProducedOutput, TxTimestamp;
    UntimedReads(e, amount, recipient);
    var blocks := UntimedBlocks(e, amount, recipient);
    var output := Encode(blocks).value;
    UntimedBlocksAre(e, amount, recipient);
    ProducedAmountMeans(e, c, i, blocks[0], output, amount);
    OriginHolds(e, c, i, 1);
    ProducedLockHolds(e, c, i, blocks[2], ts);
    FirstChainIs(e, blocks, 3);
    assert Distinct(blocks);
    assert RunsOK(e, c, false, i, blocks) <==> |output| <= amount by {
      if |output| <= amount {
        forall j: Byte | j < |blocks|
          ensures EvalConstraint(e, c, Place(false, i, j), blocks[j]) == True
        {
        }
      }
    }
  }

  lemma UntimedBlocksAre(e: Env, amount: nat, recipient: Bytes)
    ensures |UntimedBlocks(e, amount, recipient)| == 3 && UntimedBlocks(e, amount, recipient)[1] == OriginBlock(e)
  {
  }

  // ------------------------------------------------------------------ a transaction with such an output

  /** The owner of the genesis output, which is all there is at first. */
  function GenesisInput(e: Env, supply: nat, key: SigningKey, ts: nat): OutputWithID
    requires GenesisOK(e, supply, e.blake2b(key.publicKey), ts)
  {
    OutputWithID(GENESIS_OUTPUT_ID, GenesisOutput(e, supply, e.blake2b(key.publicKey), ts))
  }

  /** Sends the whole supply to the recipient in an output without a timestamp. */
  function UntimedTransaction(e: Env, supply: nat, key: SigningKey, ts: nat, recipient: Bytes,
                              now: nat): Option<Transaction>
    requires GenesisOK(e, supply, e.blake2b(key.publicKey), ts)
  {
    var output := Encode(UntimedBlocks(e, supply, recipient));
    var outs := [GenesisInput(e, supply, key, ts)];
    if output.None? then None
    else
      Sealed(e, key, OutputsOf(outs),
             EMPTY_TRANSACTION.(inputIDs := IDsOf(outs), outputs := [output.value],
                                unlockBlocks := SimpleUnlocks(1)), now)
  }

  function UntimedTransfer(e: Env, supply: nat, key: SigningKey, ts: nat, recipient: Bytes, now: nat): Option<Bytes>
    requires GenesisOK(e, supply, e.blake2b(key.publicKey), ts)
  {
    var t := UntimedTransaction(e, supply, key, ts, recipient, now);
    if t.None? then None else TransactionBytes(t.value)
  }

  /** The sender can sign, the supply covers an output of three constraints, and time has passed since genesis. */
  ghost predicate CanSend(e: Env, supply: nat, key: SigningKey, ts: nat, recipient: Bytes, now: nat) {
    && GenesisOK(e, supply, e.blake2b(key.publicKey), ts) && SignsFor(e, key)
    && MAX_THREE_BLOCKS <= supply && |recipient| == 32 && ts < now <= MAX_UINT32
  }

  lemma GenesisReads(e: Env, supply: nat, address: Bytes, ts: nat)
    requires GenesisOK(e, supply, address, ts)
    ensures var output := GenesisOutput(e, supply, address, ts);
      && ParsesAsOutput(e, output) && |output| <= MAX_THREE_BLOCKS && AmountIn(e, output) == supply
      && EndsWithLock(output) && TimestampIn(e, output) == ts && e.decode(LockOf(e, output)) == AddressED25519(address)
  {
    hide Parse, Encode;
    var blocks := GenesisBlocks(e, supply, address, ts);
    assert WellSized(Amount(BigEndian(supply, 8))) && WellSized(Timestamp(BigEndian(ts, 4)))
      && WellSized(AddressED25519(address));
    Pow256Values();
    BigEndianRoundTrip(ts, 4);
    EncodedLength(blocks, MAX_UINT8);
    GenesisParses(e, supply, address, ts);
  }

  lemma {:induction false} UntimedIsMade(e: Env, supply: nat, key: SigningKey, ts: nat, recipient: Bytes, now: nat)
    requires CanSend(e, supply, key, ts, recipient, now)
    ensures UntimedTransfer(e, supply, key, ts, recipient, now).Some?
  {
    hide Sound, Sealed, TransactionBytes, Encode, GenesisOutput, SignsFor, SimpleUnlocks, UntimedBlocks, SmallBlock;
    var outs := [GenesisInput(e, supply, key, ts)];
    GenesisReads(e, supply, e.blake2b(key.publicKey), ts);
    UntimedReads(e, supply, recipient);
    SimpleUnlocksSmall(1);
    var raw := EMPTY_TRANSACTION.(inputIDs := IDsOf(outs),
                                  outputs := [Encode(UntimedBlocks(e, supply, recipient)).value],
                                  unlockBlocks := SimpleUnlocks(1));
    SmallSeals(e, key, OutputsOf(outs), raw, now);
  }

  /** The ledger accepts it. */
  lemma {:induction false} UntimedIsAccepted(e: Env, supply: nat, key: SigningKey, ts: nat, recipient: Bytes, now: nat)
    requires CanSend(e, supply, key, ts, recipient, now)
    ensures UntimedTransfer(e, supply, key, ts, recipient, now).Some?
    ensures var b := UntimedTransfer(e, supply, key, ts, recipient, now).value;
      && Accepts(e, Genesis(e, supply, e.blake2b(key.publicKey), ts).utxos, b)
      && Outputs(b) == Some([Encode(UntimedBlocks(e, supply, recipient)).value])
  {
    hide Sound, Sealed, TransactionBytes, Encode, GenesisOutput, SignsFor, UntimedBlocks, Accepts, BuiltIn, SignedBy,
      UnlockedWithSignature, ParsesAsOutput, OutputOK, AmountIn, TimestampIn, AddressAtTime, Outputs, SimpleUnlocks;
    var address, outs := e.blake2b(key.publicKey), [GenesisInput(e, supply, key, ts)];
    var utxos, b := Genesis(e, supply, address, ts).utxos, UntimedTransfer(e, supply, key, ts, recipient, now);
    UntimedIsMade(e, supply, key, ts, recipient, now);
    GenesisReads(e, supply, address, ts);
    GenesisSized(e, supply, address, ts);
    UntimedReads(e, supply, recipient);
    SimpleUnlocksAre(1);
    assert SimpleUnlocks(1) == [[[], [], [0xff]]] by { SimpleUnlocksSmall(1); }
    var raw := EMPTY_TRANSACTION.(inputIDs := IDsOf(outs),
                                  outputs := [Encode(UntimedBlocks(e, supply, recipient)).value],
                                  unlockBlocks := SimpleUnlocks(1));
    var t, c := Sealed(e, key, OutputsOf(outs), raw, now).value, Context(b.value, OutputsOf(outs));
    SealedIsBuilt(e, utxos, key, outs, raw, now, b.value);
    GenesisSpends(e, utxos, t, c, key, supply, ts);
    BuiltReads(e, utxos, t, c);
    UntimedIsValid(e, c, 0, supply, recipient, now);
    OneEach(e, c, t);
    BuiltIsAccepted(e, utxos, t, c);
    BuiltOutputs(e, utxos, t, c);
  }

  lemma BuiltOutputs(e: Env, utxos: UTXOs, t: Transaction, c: Context)
    requires BuiltIn(e, utxos, t, c)
    ensures Outputs(c.txBytes) == Some(t.outputs)
  {
    hide TransactionBytes, MakeContext, Buildable, InputCommitment, Outputs;
    ListsAgree(t);
  }

  /** One input and one output. */
  lemma OneEach(e: Env, c: Context, t: Transaction)
    requires |c.consumed| == 1 && |t.outputs| == 1
    ensures OutputsOK(e, c, true, c.consumed) <==> OutputOK(e, c, true, 0, c.consumed[0])
    ensures OutputsOK(e, c, false, t.outputs) <==> OutputOK(e, c, false, 0, t.outputs[0])
    ensures Sum(e, c.consumed) == AmountIn(e, c.consumed[0]) && Sum(e, t.outputs) == AmountIn(e, t.outputs[0])
  {
    hide OutputOK, AmountIn;
    assert SumTo(e, c.consumed, 1) == SumTo(e, c.consumed, 0) + AmountIn(e, c.consumed[0]);
    assert SumTo(e, t.outputs, 1) == SumTo(e, t.outputs, 0) + AmountIn(e, t.outputs[0]);
  }

  /** The genesis output is unlocked by the signature of its owner. */
  lemma {:induction false} GenesisSpends(e: Env, utxos: UTXOs, t: Transaction, c: Context, key: SigningKey,
                                         supply: nat, ts: nat)
    requires GenesisOK(e, supply, e.blake2b(key.publicKey), ts) && MAX_THREE_BLOCKS <= supply && ts < t.timestamp
    requires BuiltIn(e, utxos, t, c) && SignedBy(e, c, key)
    requires UnlockedWithSignature(e, c, e.blake2b(key.publicKey)) == True
    requires c.consumed == [GenesisOutput(e, supply, e.blake2b(key.publicKey), ts)]
    requires t.unlockBlocks == [[[], [], [0xff]]]
    ensures OutputOK(e, c, true, 0, c.consumed[0])
  {
    hide Sound, GenesisOutput, BuiltIn, SignedBy, UnlockedWithSignature, ParsesAsOutput, OutputOK, EvalConstraint,
      AmountIn, TimestampIn, LockOf;
    GenesisReads(e, supply, e.blake2b(key.publicKey), ts);
    ConsumedMeans(e, utxos, t, c, 0);
    LockMeans(e, utxos, t, c, key, 0);
  }

  // ------------------------------------------------------------------ the balance of its recipient

  /**
   After that transaction the recipient has an unspent output that the builder cannot
   read, in a database that a run from genesis leads to.
   */
  lemma {:induction false} UntimedIsReached(e: Env, supply: nat, key: SigningKey, ts: nat, recipient: Bytes, now: nat)
    requires CanSend(e, supply, key, ts, recipient, now)
    ensures UntimedTransfer(e, supply, key, ts, recipient, now).Some?
    ensures var b := UntimedTransfer(e, supply, key, ts, recipient, now).value;
      var db := Accounts.AddTransaction(e, InitialDatabase(e, supply, e.blake2b(key.publicKey), ts), b);
      && (e.blake2b(b) != Zeros(32) ==> IsReachable(e, db))
      && exists oid ::
           oid in db.state.utxos && AccountID(e, AddressED25519(recipient)) in TagsOf(e, db.state.utxos[oid])
           && !ParsesAsOutput(e, db.state.utxos[oid])
  {
    hide Sound, SignsFor, Accepts, Encode, UntimedBlocks, Genesis, ParsesAsOutput, RunCommands, CommandsOK,
      UntimedTransfer, Outputs, InputIDs, Apply, MakeContext;
    var address := e.blake2b(key.publicKey);
    UntimedIsAccepted(e, supply, key, ts, recipient, now);
    UntimedTags(e, supply, recipient);
    var s, b := Genesis(e, supply, address, ts), UntimedTransfer(e, supply, key, ts, recipient, now).value;
    AcceptedParses(e, s.utxos, b);
    ApplyContents(e, s.utxos, b);
    var oid := OutputID(e.blake2b(b), 0);
    OutputIDIsKey(e.blake2b(b), 0, 1);
    assert Produces(e, b, oid) && ProducedAt(e, b, oid) == Encode(UntimedBlocks(e, supply, recipient)).value;
    var db := Accounts.AddTransaction(e, InitialDatabase(e, supply, address, ts), b);
    assert db.state.utxos == Apply(e, s.utxos, b) && oid in db.state.utxos;
    assert db.state.utxos[oid] == Encode(UntimedBlocks(e, supply, recipient)).value;
    if e.blake2b(b) != Zeros(32) {
      FirstIsReachable(e, supply, address, ts, b);
    }
  }

  lemma UntimedTags(e: Env, amount: nat, recipient: Bytes)
    requires Sound(e) && |recipient| == 32 && amount <= MAX_UINT64
    ensures Encode(UntimedBlocks(e, amount, recipient)).Some?
    ensures var output := Encode(UntimedBlocks(e, amount, recipient)).value;
      AccountID(e, AddressED25519(recipient)) in TagsOf(e, output) && !ParsesAsOutput(e, output)
  {
    hide Parse, Encode, Sound;
    UntimedReads(e, amount, recipient);
  }

  /** The database after one transaction on genesis. */
  lemma {:induction false} FirstIsReachable(e: Env, supply: nat, address: Bytes, ts: nat, tx: Bytes)
    requires GenesisOK(e, supply, address, ts) && e.blake2b(tx) != Zeros(32)
    ensures IsReachable(e, Accounts.AddTransaction(e, InitialDatabase(e, supply, address, ts), tx))
  {
    hide Accounts.AddTransaction, InitialDatabase, Accepts, Genesis, GenesisOK;
    var g, txs := Genesis(e, supply, address, ts), [tx];
    assert RunTo(e, g, txs, 0) == g;
    assert RunTo(e, g, txs, 1) == Step(e, g, tx);
    GenesisAccepted(e, supply, address, ts);
    assert CleanRun(e, supply, address, ts, txs);
    var db := InitialDatabase(e, supply, address, ts);
    assert DatabaseAt(e, db, txs, 0) == db;
    assert DatabaseAt(e, db, txs, 1) == Accounts.AddTransaction(e, db, tx);
  }

  lemma GenesisAccepted(e: Env, supply: nat, address: Bytes, ts: nat)
    requires GenesisOK(e, supply, address, ts)
    ensures Genesis(e, supply, address, ts).accepted == []
  {
  }

  /** So the balance of the recipient panics. */
  method BalancePanics(e: Env, supply: nat, key: SigningKey, ts: nat, recipient: Bytes,
                       now: nat) returns (r: Option<(nat, nat)>)
    requires CanSend(e, supply, key, ts, recipient, now)
    requires UntimedTransfer(e, supply, key, ts, recipient, now).Some? ==>
      e.blake2b(UntimedTransfer(e, supply, key, ts, recipient, now).value) != Zeros(32)
    ensures r == None
  {
    hide Sound, SignsFor, IsReachable, ParsesAsOutput, UntimedTransfer, InitialDatabase, Accounts.AddTransaction,
      TagsOf;
    UntimedIsReached(e, supply, key, ts, recipient, now);
    var db := new UTXODB(e, supply, e.blake2b(key.publicKey), ts);
    var _ := db.AddTransaction(UntimedTransfer(e, supply, key, ts, recipient, now).value);
    r := db.Account(AccountID(e, AddressED25519(recipient)), None);
  }
}
