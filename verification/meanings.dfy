/**
 What the constraints mean: when exactly each of them evaluates to true, wherever it is
 placed, in terms of the transaction's fields and blocks. And what follows for the
 amounts and timestamps of any transaction that is accepted.
 */
module ConstraintMeanings {
  import opened Bytes
  import opened Codec
  import opened LazyTree
  import opened Context
  import opened Constraints
  import opened Validation
  import opened Ledger
  import opened Supply
  import opened Chains
  import opened Lineage
  import opened OutputView

  // ------------------------------------------------------------------ the tree

  /** Where everything is in the tree that the constraints look at: its branches, fields, outputs and blocks. */
  lemma Layout(c: Context, i: Byte, j: Byte)
    requires Buildable(c)
    ensures AtPath(Root(c), [0, 0, i, j]) == Unlock(c, i, j)
    ensures AtPath(Root(c), [0, 1, i]) == InputID(c, i)
    ensures AtPath(Root(c), [0, 2, i, j]) == BlockAt(c, false, i, j)
    ensures AtPath(Root(c), [0, 3]) == TxSignature(c) && AtPath(Root(c), [0, 4]) == TxTimestamp(c)
    ensures AtPath(Root(c), [0, 5]) == TxField(c.txBytes, TX_INPUT_COMMITMENT)
    ensures AtPath(Root(c), [1, 0]) == Encode(c.consumed) && AtPath(Root(c), [1, 0, i, j]) == BlockAt(c, true, i, j)
  {
    TransactionPaths(c, 0, i, j);
    TransactionPaths(c, 1, i, j);
    TransactionPaths(c, 2, i, j);
    TransactionPaths(c, 3, i, j);
    TransactionPaths(c, 4, i, j);
    TransactionPaths(c, 5, i, j);
    ConsumedPaths(c, i, j);
    hide AtPath, Root, TxField, TxList, Parse, Buildable;
  }

  /** Blocks and unlock parameters reached by a two-byte index, in arrays of up to 16383 elements. */
  lemma ByIndex(c: Context, i: Byte, j: Byte)
    ensures ConsumedConstraintByIndex(c, Some([i, j])) == Element(ConsumedOutput(c, i), 0x3FFF, j)
    ensures ProducedConstraintByIndex(c, Some([i, j])) == Element(ProducedOutput(c, i), 0x3FFF, j)
    ensures UnlockParamsByConstraintIndex(c, Some([i, j])) == Element(UnlockBlock(c, i), 0x3FFF, j)
  {
    hide Element, Outputs, TxList;
    assert [i, j][0..1] == [i] && [i, j][1..2] == [j];
  }

  // ------------------------------------------------------------------ amount and timestamp

  /** In block 0 only; when produced, eight bytes of a number that is at least the size of the output. */
  lemma AmountMeans(e: Env, c: Context, at: Place, block: Bytes)
    requires e.decode(block).Amount? && block != []
    ensures EvalConstraint(e, c, at, block) == True <==>
      at.block == 0 && (at.consumed ||
        var amount, output := e.decode(block).arg, ProducedOutput(c, at.output);
        |amount| == 8 && output.Some? && |output.value| <= 0xFFFF && |output.value| <= FromBigEndian(amount))
  {
    hide Outputs;
    var amount, output := e.decode(block).arg, ProducedOutput(c, at.output);
    if !at.consumed && output.Some? && |output.value| <= MAX_UINT16 && |amount| == 8 {
      Pow256Values();
      BigEndianRoundTrip(|output.value|, 8);
      LexLessIsNumeric(amount, BigEndian(|output.value|, 8));
    }
  }

  /** In block 1 only; the timestamp of the transaction when produced, an earlier one when consumed. */
  lemma TimestampMeans(e: Env, c: Context, at: Place, block: Bytes)
    requires e.decode(block).Timestamp? && block != []
    ensures EvalConstraint(e, c, at, block) == True <==>
      && at.block == 1 && TxField(c.txBytes, 4).Some?
      && var ts, now := e.decode(block).arg, TxField(c.txBytes, 4).value;
      && |ts| == |now|
      && if at.consumed then FromBigEndian(ts) < FromBigEndian(now) else FromBigEndian(ts) == FromBigEndian(now)
  {
    hide TxField;
    var ts, now := e.decode(block).arg, TxField(c.txBytes, 4);
    if now.Some? && |ts| == |now.value| {
      LexLessIsNumeric(ts, now.value);
      FromBigEndianRoundTrip(ts);
      FromBigEndianRoundTrip(now.value);
    }
  }

  // ------------------------------------------------------------------ locks and sender

  /** The signature field: a signature of the input IDs, the outputs and the commitment, then the key of the address. */
  predicate SignedByAddress(e: Env, tx: Bytes, address: Bytes) {
    && TxField(tx, 1).Some? && TxField(tx, 2).Some? && TxField(tx, 5).Some? && TxField(tx, 3).Some?
    && var essence := TxField(tx, 1).value + TxField(tx, 2).value + TxField(tx, 5).value;
    && var signature := TxField(tx, 3).value;
    && |signature| >= 96 && address == e.blake2b(signature[64..96])
    && e.verify(essence, signature[..64], signature[64..96])
  }

  /**
   What is signed determines the inputs, the outputs and the commitment to the consumed
   outputs, and nothing else.
   */
  lemma EssenceBinds(tx: Bytes, tx': Bytes)
    requires InputIDs(tx).Some? && Outputs(tx).Some? && TxField(tx, 5).Some?
    requires InputIDs(tx').Some? && Outputs(tx').Some? && TxField(tx', 5).Some?
    ensures TxEssence(tx).Some? && (TxEssence(tx) == TxEssence(tx') <==>
      TxField(tx, 1) == TxField(tx', 1) && TxField(tx, 2) == TxField(tx', 2) && TxField(tx, 5) == TxField(tx', 5))
  {
    hide Parse, TxField;
    var ids, outputs, commitment := TxField(tx, 1).value, TxField(tx, 2).value, TxField(tx, 5).value;
    var ids', outputs', commitment' := TxField(tx', 1).value, TxField(tx', 2).value, TxField(tx', 5).value;
    assert TxEssence(tx).value == ids + (outputs + commitment);
    assert TxEssence(tx').value == ids' + (outputs' + commitment');
    if TxEssence(tx) == TxEssence(tx') {
      PrefixFree(ids, ids', outputs + commitment, outputs' + commitment', MAX_ELEMENTS);
      PrefixFree(outputs, outputs', commitment, commitment', MAX_ELEMENTS);
    }
  }

  lemma SignatureMeans(e: Env, c: Context, address: Bytes)
    ensures UnlockedWithSignature(e, c, address) == True <==> SignedByAddress(e, c.txBytes, address)
  {
    hide TxField;
    var signature := TxField(c.txBytes, TX_SIGNATURE);
    assert signature.Some? && |signature.value| >= 64 ==> signature.value[0..64] == signature.value[..64];
  }

  /**
   Consumed, an address is unlocked by one byte of unlock parameters: the index of a
   smaller input whose lock is the same, or any other if the address signed. An index of
   a smaller input without a lock panics.
   */
  predicate AddressUnlocked(e: Env, c: Context, i: Byte, lock: Bytes, address: Bytes) {
    var u := Unlock(c, i, 2);
    && u.Some? && |u.value| == 1
    && var k := u.value[0];
    && (k < i ==> BlockAt(c, true, k, 2).Some?)
    && ((k < i && BlockAt(c, true, k, 2) == Some(lock)) || SignedByAddress(e, c.txBytes, address))
  }

  /** An address lock, in block 2 only: 32 bytes when produced, unlocked when consumed. */
  lemma {:induction false} AddressMeans(e: Env, c: Context, at: Place, block: Bytes, address: Bytes)
    requires OutputsRead(c) && Self(c, at) == Some(block)
    ensures AddressConstraint(e, c, at, address) == True <==>
      at.block == 2 && if at.consumed then AddressUnlocked(e, c, at.output, block, address) else |address| == 32
  {
    hide OutputsRead, BlockAt, Self, UnlockedWithSignature, ConsumedConstraintByIndex, SignedByAddress, SelfUnlock;
    SignatureMeans(e, c, address);
    var u := Unlock(c, at.output, 2);
    if at.consumed && at.block == 2 && u.Some? && |u.value| == 1 {
      assert SelfUnlock(c, at) == u && u.value == [u.value[0]];
      assert u.value + [LOCK_BLOCK] == [u.value[0], LOCK_BLOCK];
      LexLessOne(u.value[0], at.output);
      IndexedBlock(c, true, u.value[0], LOCK_BLOCK);
    }
  }

  lemma {:induction false} AddressLockMeans(e: Env, c: Context, at: Place, block: Bytes)
    requires OutputsRead(c) && Self(c, at) == Some(block) && block != [] && e.decode(block).AddressED25519?
    ensures EvalConstraint(e, c, at, block) == True <==>
      && at.block == 2
      && var address := e.decode(block).arg;
      if at.consumed then AddressUnlocked(e, c, at.output, block, address) else |address| == 32
  {
    hide OutputsRead, Self, AddressConstraint, AddressUnlocked;
    AddressMeans(e, c, at, block, e.decode(block).arg);
  }

  /** A deadline lock asks for its main address after the deadline, and until then for the other one. */
  lemma {:induction false} DeadlineLockMeans(e: Env, c: Context, at: Place, block: Bytes)
    requires OutputsRead(c) && Self(c, at) == Some(block) && block != [] && e.decode(block).DeadlineLock?
    ensures EvalConstraint(e, c, at, block) == True <==>
      && at.block == 2 && TxField(c.txBytes, 4).Some?
      && var lock, now := e.decode(block), TxField(c.txBytes, 4).value;
      && |lock.deadline| == |now|
      && var address := if FromBigEndian(lock.deadline) < FromBigEndian(now) then lock.main else lock.expiry;
      if at.consumed then AddressUnlocked(e, c, at.output, block, address) else |address| == 32
  {
    hide OutputsRead, Self, AddressConstraint, AddressUnlocked, TxField;
    var lock, now := e.decode(block), TxField(c.txBytes, 4);
    AddressMeans(e, c, at, block, lock.main);
    AddressMeans(e, c, at, block, lock.expiry);
    if now.Some? && |lock.deadline| == |now.value| {
      LexLessIsNumeric(lock.deadline, now.value);
    }
  }

  /** A chain lock, in block 2 only: 32 bytes when produced, a chain of this id in transit when consumed. */
  lemma {:induction false} ChainLockMeans(e: Env, c: Context, at: Place, block: Bytes)
    requires OutputsRead(c) && block != [] && e.decode(block).ChainLock?
    ensures EvalConstraint(e, c, at, block) == True <==>
      && at.block == 2
      && var id := e.decode(block).arg;
      if at.consumed then ChainNamed(e, c, at.output, id) else |id| == 32
  {
    hide OutputsRead, SelfUnlock, ValidChainUnlock, ChainNamed;
    if at.consumed && at.block == 2 {
      assert at == Place(true, at.output, LOCK_BLOCK);
      ConsumedChainLockMeans(e, c, at.output, e.decode(block).arg);
    }
  }

  /** A sender constraint means nothing when consumed; produced, it names the address of the signature's key. */
  lemma SenderMeans(e: Env, c: Context, at: Place, block: Bytes)
    requires e.decode(block).Sender? && block != []
    ensures EvalConstraint(e, c, at, block) == True <==>
      at.consumed ||
      var signature := TxField(c.txBytes, 3);
      signature.Some? && |signature.value| >= 96 && e.decode(block).arg == e.blake2b(signature.value[64..96])
  {
    hide TxField;
  }

  /** Any other script is evaluated where it is; no bytes at all are no constraint. */
  lemma OtherMeans(e: Env, c: Context, at: Place, block: Bytes)
    ensures e.decode(block).Other? ==> (EvalConstraint(e, c, at, block) == True <==> block != [] && e.other(c, at))
    ensures EvalConstraint(e, c, at, []) != True
  {
  }

  // ------------------------------------------------------------------ chains

  /**
   A chain constraint is never on output 255 and has an id. Produced, it is an origin or
   continues the predecessor it names; consumed, it is unlocked for destruction by three
   bytes 0xff or continued by the successor its unlock parameters name.
   */
  lemma {:induction false} ChainMeans(e: Env, c: Context, at: Place, block: Bytes)
    requires OutputsRead(c) && e.decode(block).Chain? && block != []
    ensures EvalConstraint(e, c, at, block) == True <==>
      && at.output != 255 && |e.decode(block).arg| >= 32
      && var data, u := e.decode(block).arg, Unlock(c, at.output, at.block);
      if at.consumed then
        u.Some? && (u.value == [0xff, 0xff, 0xff] || SuccessorNamed(e, c, at.output, at.block, data, u.value))
      else
        data == seq(32, _ => 0) + [0xff, 0xff, 0xff] || PredecessorNamed(e, c, data)
  {
    hide OutputsRead, Unlock, ChainConstraint, SuccessorNamed, PredecessorNamed;
    var data := e.decode(block).arg;
    assert ORIGIN_CHAIN_DATA == seq(32, _ => 0) + [0xff, 0xff, 0xff];
    assert at == Place(at.consumed, at.output, at.block);
    if ChainConstraint(e, c, at, data) == True {
      ChainNeedsID(e, c, at, data);
    }
    if at.consumed && |data| >= 32 {
      ConsumedChainMeans(e, c, at.output, at.block, data);
    } else {
      ProducedChainMeans(e, c, at.output, at.block, data);
    }
  }

  // ------------------------------------------------------------------ any accepted transaction

  /** The number in block 1 of an output, if that is a timestamp of four bytes. */
  function TimeOf(e: Env, output: Bytes): Option<nat> {
    var block := BlockOf(output, 1);
    if block.Some? && block.value != [] then TimestampOf(e, block.value) else None
  }

  /** The number in the timestamp field of a transaction. */
  function TransactionTime(tx: Bytes): Option<nat> {
    var now := TxField(tx, 4);
    if now.Some? then Some(FromBigEndian(now.value)) else None
  }

  /** Every produced output with a timestamp has that of its transaction. */
  lemma {:induction false} ProducedAtItsTime(e: Env, utxos: UTXOs, tx: Bytes, id: Bytes)
    requires Accepts(e, utxos, tx) && Produces(e, tx, id) && TimeOf(e, ProducedAt(e, tx, id)).Some?
    ensures TransactionTime(tx) == TimeOf(e, ProducedAt(e, tx, id))
  {
    hide Accepts, MakeContext, Accepted, Outputs, EvalConstraint, BlockOf, OutputOK, TxField;
    ContextOf(e, utxos, tx);
    var c, i := MakeContext(utxos, tx).value, id[|e.blake2b(tx)|];
    ProducedBlocks(e, utxos, tx, id, 1);
    BlockHolds(e, c, false, i, 1);
    TimestampMeans(e, c, Place(false, i, 1), BlockOf(ProducedAt(e, tx, id), 1).value);
  }

  /** Every consumed output with a timestamp is older than its transaction. */
  lemma {:induction false} ConsumedBeforeItsTime(e: Env, utxos: UTXOs, tx: Bytes, id: Bytes)
    requires Accepts(e, utxos, tx) && Consumes(tx, id) && id in utxos && TimeOf(e, utxos[id]).Some?
    ensures TransactionTime(tx).Some? && TimeOf(e, utxos[id]).value < TransactionTime(tx).value
  {
    hide Accepts, MakeContext, Accepted, EvalConstraint, BlockOf, OutputOK, TxField, BlockAt, Consumes;
    ContextOf(e, utxos, tx);
    var c, i := MakeContext(utxos, tx).value, InputIndex(tx, id);
    ConsumedBlockIs(e, utxos, tx, id, 1);
    BlockHolds(e, c, true, i, 1);
    TimestampMeans(e, c, Place(true, i, 1), BlockOf(utxos[id], 1).value);
  }

  /** So every timed output that is consumed is older than every timed output that is produced. */
  lemma {:induction false} TimeMovesOn(e: Env, utxos: UTXOs, tx: Bytes, from: Bytes, to: Bytes)
    requires Accepts(e, utxos, tx)
    requires Consumes(tx, from) && from in utxos && TimeOf(e, utxos[from]).Some?
    requires Produces(e, tx, to) && TimeOf(e, ProducedAt(e, tx, to)).Some?
    ensures TimeOf(e, utxos[from]).value < TimeOf(e, ProducedAt(e, tx, to)).value
  {
    hide Accepts, Consumes, Produces, ProducedAt, TimeOf, TransactionTime;
    ConsumedBeforeItsTime(e, utxos, tx, from);
    ProducedAtItsTime(e, utxos, tx, to);
  }
}
