/**
 Transactions the builder makes, in the ledger they are made for: when they can be
 serialized, what the ledger's acceptance of them comes down to, and what unlocks the
 outputs they consume.
 */
module BuiltTransactions {
  import opened Bytes
  import opened Codec
  import opened LazyTree
  import opened Context
  import opened Constraints
  import opened Validation
  import opened Ledger
  import opened Supply
  import opened Runs
  import opened Chains
  import opened Signatures
  import opened OutputView
  import opened Selection
  import opened Builder
  import opened StandardOutputs
  import opened Transfer

  // ------------------------------------------------------------------ serialization

  /** No longer than this, unlock data always fits in a transaction. */
  const MAX_UNLOCK_DATA: nat := 0x7fff

  /** Small enough to be serialized whatever the contents. */
  predicate Small(tx: Transaction) {
    && |tx.inputIDs| <= MAX_OUTPUTS && (forall k :: 0 <= k < |tx.inputIDs| ==> |tx.inputIDs[k]| <= OUTPUT_ID_LENGTH)
    && |tx.outputs| <= 2 && (forall k :: 0 <= k < |tx.outputs| ==> |tx.outputs[k]| <= MAX_UINT16)
    && |tx.unlockBlocks| <= MAX_OUTPUTS
    && (forall k :: 0 <= k < |tx.unlockBlocks| ==> SmallBlock(tx.unlockBlocks[k]))
    && |tx.signature| <= 96 && |tx.inputCommitment| <= 32
    && tx.endorsements == [] && tx.localLibraries == []
  }

  predicate SmallBlock(block: seq<Bytes>) {
    |block| <= MAX_OUTPUTS && forall k :: 0 <= k < |block| ==> |block[k]| <= MAX_UNLOCK_DATA
  }

  lemma EncodedUpTo256(xs: seq<Bytes>, bound: nat)
    requires |xs| <= MAX_OUTPUTS && bound <= 16_000_000
    requires forall k :: 0 <= k < |xs| ==> |xs[k]| <= bound
    ensures EncodeUpTo256(xs).Some? && |EncodeUpTo256(xs).value| <= 2 + 256 * (4 + bound) <= MAX_UINT32
    ensures |EncodeUpTo256(xs).value| <= 2 + |xs| * (4 + bound)
  {
    EncodedLength(xs, bound);
    hide Encode;
    assert |xs| * (4 + bound) <= 256 * (4 + bound);
  }

  const MAX_BLOCK_BYTES: nat := 2 + 256 * (4 + MAX_UNLOCK_DATA)

  lemma {:induction false} EncodedBlocks(xss: seq<seq<Bytes>>)
    requires forall k :: 0 <= k < |xss| ==> SmallBlock(xss[k])
    ensures EncodeAll(xss).Some? && |EncodeAll(xss).value| == |xss|
    ensures forall k :: 0 <= k < |xss| ==> |EncodeAll(xss).value[k]| <= MAX_BLOCK_BYTES
  {
    hide EncodeUpTo256;
    if xss == [] {
    } else {
      EncodedBlocks(xss[..|xss| - 1]);
      EncodedUpTo256(xss[|xss| - 1], MAX_UNLOCK_DATA);
    }
  }

  lemma {:induction false} SmallSerializes(tx: Transaction)
    requires Small(tx)
    ensures ToArray(tx).Some? && TransactionBytes(tx).Some? && EssenceBytes(tx).Some?
  {
    hide EncodeUpTo256, EncodeAll, Encode, SmallBlock;
    EncodedBlocks(tx.unlockBlocks);
    EncodedUpTo256(EncodeAll(tx.unlockBlocks).value, MAX_BLOCK_BYTES);
    EncodedUpTo256(tx.inputIDs, OUTPUT_ID_LENGTH);
    EncodedUpTo256(tx.outputs, MAX_UINT16);
    EncodedUpTo256([], 0);
    EncodedLength([], 0);
    assert EncodeUpTo256([]).Some? && Encode([]).Some?;
    var a := ToArray(tx).value;
    assert forall k :: 0 <= k < |a| ==> |a[k]| <= MAX_UINT32;
    EncodesMeansEncodable(a);
  }

  /** Sealing a small transaction succeeds, and gives one that serializes. */
  lemma {:induction false} SmallSeals(e: Env, key: SigningKey, consumed: seq<Bytes>, tx: Transaction, ts: nat)
    requires Sound(e) && SignsFor(e, key) && Small(tx)
    requires |consumed| <= MAX_OUTPUTS && forall k :: 0 <= k < |consumed| ==> |consumed[k]| <= MAX_UINT16
    ensures Sealed(e, key, consumed, tx, ts).Some?
    ensures TransactionBytes(Sealed(e, key, consumed, tx, ts).value).Some?
  {
    hide EncodeUpTo256, EncodeAll, Encode, SmallBlock, EssenceBytes, TransactionBytes;
    EncodedUpTo256(consumed, MAX_UINT16);
    var commitment := InputCommitment(e, consumed).value;
    var ready := tx.(timestamp := ts, inputCommitment := commitment);
    SmallSerializes(ready);
    SmallSerializes(Sealed(e, key, consumed, tx, ts).value);
  }

  // ------------------------------------------------------------------ in the ledger

  /** An output with an ID of the right length that is not empty and within 65535 bytes. */
  predicate SizedInput(o: OutputWithID) {
    |o.id| == OUTPUT_ID_LENGTH && o.output != [] && |o.output| <= MAX_UINT16
  }

  /** All unspent outputs are like that. */
  ghost predicate SizedLedger(utxos: UTXOs) {
    forall id :: id in utxos ==> SizedInput(OutputWithID(id, utxos[id]))
  }

  lemma ProducedIsSized(e: Env, c: Context, i: Byte, output: Bytes)
    requires OutputOK(e, c, false, i, output) && ProducedOutput(c, i) == Some(output)
    ensures output != [] && |output| <= MAX_UINT16
  {
    hide IndexOK, ProducedOutput, AmountIn;
    var blocks := Blocks(output).value;
    assert EvalConstraint(e, c, Place(false, i, 0), blocks[0]) == True;
  }

  lemma {:induction false} StepSized(e: Env, s: State, tx: Bytes)
    requires Sound(e) && SizedLedger(s.utxos)
    ensures SizedLedger(Step(e, s, tx).utxos)
  {
    if Accepts(e, s.utxos, tx) {
      hide Accepts, Apply, Sound;
      AcceptedParses(e, s.utxos, tx);
      ApplyContents(e, s.utxos, tx);
      forall id | Produces(e, tx, id)
        ensures SizedInput(OutputWithID(id, ProducedAt(e, tx, id)))
      {
        AcceptedIsSized(e, s.utxos, tx, id);
      }
    }
  }

  lemma {:induction false} AcceptedIsSized(e: Env, utxos: UTXOs, tx: Bytes, id: Bytes)
    requires Sound(e) && Accepts(e, utxos, tx) && Produces(e, tx, id)
    ensures SizedInput(OutputWithID(id, ProducedAt(e, tx, id)))
  {
    hide EvalConstraint, OutputOK, MakeContext, Outputs, CommitmentOK, Sum, Buildable;
    var c := MakeContext(utxos, tx).value;
    AcceptedParses(e, utxos, tx);
    var i: Byte := id[|e.blake2b(tx)|];
    assert OutputOK(e, c, false, i, Outputs(tx).value[i]);
    ProducedIsSized(e, c, i, Outputs(tx).value[i]);
  }

  lemma GenesisSized(e: Env, supply: nat, address: Bytes, ts: nat)
    requires GenesisOK(e, supply, address, ts)
    ensures SizedLedger(Genesis(e, supply, address, ts).utxos)
  {
    hide Encode, Parse;
    var blocks := GenesisBlocks(e, supply, address, ts);
    assert WellSized(Amount(BigEndian(supply, 8))) && WellSized(Timestamp(BigEndian(ts, 4)))
      && WellSized(AddressED25519(address));
    EncodedLength(blocks, MAX_UINT8);
    GenesisParses(e, supply, address, ts);
    ParseInverse(GenesisOutput(e, supply, address, ts), MAX_ELEMENTS, blocks);
  }

  /** The unspent outputs of every run have IDs of 33 bytes and at most 65535 bytes. */
  lemma {:induction false} ReachableSized(e: Env, supply: nat, address: Bytes, ts: nat, txs: seq<Bytes>, n: nat)
    requires GenesisOK(e, supply, address, ts) && n <= |txs|
    ensures SizedLedger(RunTo(e, Genesis(e, supply, address, ts), txs, n).utxos)
  {
    hide SizedLedger, Genesis, Step;
    GenesisSized(e, supply, address, ts);
    if n == 0 {
    } else {
      ReachableSized(e, supply, address, ts, txs, n - 1);
      StepSized(e, RunTo(e, Genesis(e, supply, address, ts), txs, n - 1), txs[n - 1]);
    }
  }

  /** Outputs listed from the ledger, each once, are fetched as they are listed. */
  lemma ListedInputs(utxos: UTXOs, outs: seq<OutputWithID>)
    requires FromLedger(utxos, outs) && SizedLedger(utxos)
    ensures InputsOK(utxos, IDsOf(outs))
    ensures Fetched(utxos, IDsOf(outs)) == OutputsOf(outs)
    ensures forall k :: 0 <= k < |outs| ==> |IDsOf(outs)[k]| <= OUTPUT_ID_LENGTH
    ensures forall k :: 0 <= k < |outs| ==> IDsOf(outs)[k] in utxos && |utxos[IDsOf(outs)[k]]| <= MAX_UINT16
    ensures forall k :: 0 <= k < |outs| ==> |OutputsOf(outs)[k]| <= MAX_UINT16
  {
    forall k | 0 <= k < |outs|
      ensures SizedInput(outs[k])
    {
      assert outs[k] == OutputWithID(outs[k].id, utxos[outs[k].id]);
    }
  }

  /** The context of a built transaction, in a ledger that holds its inputs. */
  lemma {:induction false} BuiltContext(e: Env, utxos: UTXOs, t: Transaction, b: Bytes)
    requires TransactionBytes(t) == Some(b) && |t.inputIDs| <= MAX_OUTPUTS && InputsOK(utxos, t.inputIDs)
    requires forall k :: 0 <= k < |t.inputIDs| ==> |utxos[t.inputIDs[k]]| <= MAX_UINT16
    ensures MakeContext(utxos, b) == Some(Context(b, Fetched(utxos, t.inputIDs)))
    ensures Buildable(Context(b, Fetched(utxos, t.inputIDs)))
  {
    hide EncodeUpTo256, Encode, TransactionBytes, InputIDs, Parse;
    ListsAgree(t);
    FieldsAgree(t, 0);
    var consumed := Fetched(utxos, t.inputIDs);
    EncodedLength(consumed, MAX_UINT16);
    var n := |consumed| * (4 + MAX_UINT16);
    assert n <= 256 * (4 + MAX_UINT16);
    EncodesMeansEncodable([Encode(consumed).value]);
  }

  /** The transaction, as bytes, in its context, ready to be validated. */
  ghost predicate BuiltIn(e: Env, utxos: UTXOs, t: Transaction, c: Context) {
    && TransactionBytes(t) == Some(c.txBytes)
    && MakeContext(utxos, c.txBytes) == Some(c) && Buildable(c)
    && Some(t.inputCommitment) == InputCommitment(e, c.consumed)
    && |t.outputs| <= MAX_ELEMENTS && |t.inputIDs| == |c.consumed| <= MAX_ELEMENTS
    && t.timestamp <= MAX_UINT32
  }

  /** A sealed transaction that serializes is ready to be validated, and signed. */
  lemma SealedIsBuilt(e: Env, utxos: UTXOs, key: SigningKey, outs: seq<OutputWithID>, raw: Transaction, ts: nat,
                      b: Bytes)
    requires SignsFor(e, key) && FromLedger(utxos, outs) && SizedLedger(utxos) && |outs| <= MAX_OUTPUTS
    requires raw.inputIDs == IDsOf(outs) && |raw.outputs| <= MAX_OUTPUTS && ts <= MAX_UINT32
    requires Sealed(e, key, OutputsOf(outs), raw, ts).Some?
    requires TransactionBytes(Sealed(e, key, OutputsOf(outs), raw, ts).value) == Some(b)
    ensures var t := Sealed(e, key, OutputsOf(outs), raw, ts).value;
      && BuiltIn(e, utxos, t, Context(b, OutputsOf(outs)))
      && t.outputs == raw.outputs && t.unlockBlocks == raw.unlockBlocks && t.inputIDs == raw.inputIDs
      && t.timestamp == ts
    ensures UnlockedWithSignature(e, Context(b, OutputsOf(outs)), e.blake2b(key.publicKey)) == True
    ensures SignedBy(e, Context(b, OutputsOf(outs)), key)
  {
    hide TransactionBytes, InputsOK, Fetched, EssenceBytes, InputCommitment, SizedLedger, UnlockedWithSignature,
      MakeContext, Buildable, FromLedger, SignsFor, SignedBy;
    var t := Sealed(e, key, OutputsOf(outs), raw, ts).value;
    var c := Context(b, OutputsOf(outs));
    ListedInputs(utxos, outs);
    BuiltContext(e, utxos, t, b);
    SealedIsSigned(e, key, OutputsOf(outs), raw, ts, c);
    SealedHasKey(e, key, OutputsOf(outs), raw, ts, c);
  }

  /** The public key of the signature is this key. */
  predicate SignedBy(e: Env, c: Context, key: SigningKey) {
    Slice(TxSignature(c), 64, 95) == Some(key.publicKey)
  }

  lemma SealedHasKey(e: Env, key: SigningKey, consumed: seq<Bytes>, tx: Transaction, ts: nat, c: Context)
    requires SignsFor(e, key) && Sealed(e, key, consumed, tx, ts).Some?
    requires TransactionBytes(Sealed(e, key, consumed, tx, ts).value) == Some(c.txBytes)
    ensures SignedBy(e, c, key)
  {
    hide Parse, Encode, EncodeAll, EncodeUpTo256, TransactionBytes, Sealed, EssenceBytes, TxField;
    var t := Sealed(e, key, consumed, tx, ts).value;
    SealedEssence(e, key, consumed, tx, ts);
    ListsAgree(t);
    assert t.signature[64..96] == key.publicKey;
  }

  /** The ledger accepts a built transaction exactly when its outputs are in order on both sides and balance. */
  lemma {:induction false} BuiltIsAccepted(e: Env, utxos: UTXOs, t: Transaction, c: Context)
    requires BuiltIn(e, utxos, t, c)
    ensures Accepts(e, utxos, c.txBytes) <==>
      && OutputsOK(e, c, true, c.consumed) && OutputsOK(e, c, false, t.outputs)
      && Sum(e, c.consumed) == Sum(e, t.outputs) <= MAX_UINT64
  {
    hide MakeContext, TransactionBytes, OutputsOK, Sum, InputCommitment, CommitmentOK, Outputs, Buildable;
    ListsAgree(t);
    CommitmentAgrees(e, t, c);
  }

  /** What the validator reads from a built transaction. */
  lemma BuiltReads(e: Env, utxos: UTXOs, t: Transaction, c: Context)
    requires BuiltIn(e, utxos, t, c)
    ensures TxTimestamp(c) == Some(BigEndian(t.timestamp, 4)) && t.timestamp <= MAX_UINT32
    ensures forall i: Byte :: i < |c.consumed| ==>
      InputID(c, i) == Some(t.inputIDs[i]) && ConsumedOutput(c, i) == Some(c.consumed[i])
    ensures forall i: Byte :: i < |t.outputs| ==> ProducedOutput(c, i) == Some(t.outputs[i])
  {
    hide TransactionBytes, MakeContext, Buildable, InputCommitment, InputIDs, Outputs;
    ListsAgree(t);
  }

  // ------------------------------------------------------------------ consumed outputs

  /** The lock of an output that can be read. */
  function LockOf(e: Env, output: Bytes): Bytes
    requires ParsesAsOutput(e, output)
  {
    Blocks(output).value[LOCK_BLOCK]
  }

  /** The output is older than the transaction, its amount covers its size, and the blocks after its lock hold. */
  predicate InputHolds(e: Env, c: Context, i: Byte, output: Bytes, ts: nat)
    requires ParsesAsOutput(e, output)
  {
    && TimestampIn(e, output) < ts && |output| <= AmountIn(e, output)
    && BlocksHold(e, c, true, i, Blocks(output).value, LOCK_BLOCK + 1)
  }

  lemma ConsumedMeans(e: Env, utxos: UTXOs, t: Transaction, c: Context, i: Byte)
    requires Sound(e) && BuiltIn(e, utxos, t, c) && i < |c.consumed| && ParsesAsOutput(e, c.consumed[i])
    ensures OutputOK(e, c, true, i, c.consumed[i]) <==>
      && InputHolds(e, c, i, c.consumed[i], t.timestamp)
      && EvalConstraint(e, c, Place(true, i, LOCK_BLOCK), LockOf(e, c.consumed[i])) == True
  {
    hide BuiltIn, Sound, ParsesAsOutput, OutputOK, EvalConstraint, AmountIn, TimestampIn, TxTimestamp, InputID, Parse,
      ConsumedOutput;
    BuiltReads(e, utxos, t, c);
    var output := c.consumed[i];
    ConsumedIsOK(e, c, i, output, t.timestamp);
    ThreeBlocks(e, output);
    var blocks := Blocks(output).value;
    assert BlocksHold(e, c, true, i, blocks, LOCK_BLOCK) <==>
      BlocksHold(e, c, true, i, blocks, LOCK_BLOCK + 1)
      && EvalConstraint(e, c, Place(true, i, LOCK_BLOCK), blocks[LOCK_BLOCK]) == True;
  }

  lemma ThreeBlocks(e: Env, output: Bytes)
    requires ParsesAsOutput(e, output)
    ensures Blocks(output).Some? && 3 <= |Blocks(output).value| <= MAX_ELEMENTS
    ensures LockTags(e, LockOf(e, output)).Some?
  {
  }

  // ------------------------------------------------------------------ locks

  /** The address a lock asks for in a transaction with this timestamp. */
  function AddressAtTime(e: Env, lock: Bytes, ts: nat): Option<Bytes> {
    match e.decode(lock)
    case AddressED25519(a) => Some(a)
    case DeadlineLock(d, m, x) => Some(if FromBigEndian(d) < ts then m else x)
    case _ => None
  }

  lemma AddressAtTimeIsAsked(e: Env, c: Context, lock: Bytes, ts: nat)
    requires LockTags(e, lock).Some? && TxTimestamp(c) == Some(BigEndian(ts, 4)) && ts <= MAX_UINT32
    ensures AddressToUnlock(e, c, lock) == AddressAtTime(e, lock, ts)
    ensures AddressAtTime(e, lock, ts).Some? <==> AsksForAddress(e, lock)
  {
    hide TxTimestamp;
    Pow256Values();
    BigEndianRoundTrip(ts, 4);
    if e.decode(lock).DeadlineLock? {
      LexLessIsNumeric(e.decode(lock).deadline, BigEndian(ts, 4));
    }
  }

  /** Looking at the referenced lock does not panic when the unlock parameters have one byte. */
  lemma ReferenceIsRead(e: Env, c: Context, i: Byte, u: Bytes, lock: Bytes)
    requires SelfUnlock(c, Place(true, i, LOCK_BLOCK)) == Some(u) && Self(c, Place(true, i, LOCK_BLOCK)) == Some(lock)
    requires |u| == 1 && u[0] < i ==> ConsumedConstraintByIndex(c, Some([u[0], LOCK_BLOCK])).Some?
    ensures UnlockedByReference(c, Place(true, i, LOCK_BLOCK)) != Panic <==> |u| == 1
  {
    hide SelfUnlock, Self, ConsumedConstraintByIndex;
    if |u| == 1 {
      assert u == [u[0]];
      LexLessOne(u[0], i);
      assert [u[0]] + [LOCK_BLOCK] == [u[0], LOCK_BLOCK];
    }
  }

  /** With a signature by the address it asks for, a lock holds exactly when its unlock parameters have one byte. */
  lemma SignedLockMeans(e: Env, c: Context, i: Byte, u: Bytes, lock: Bytes, ts: nat)
    requires LockTags(e, lock).Some? && lock != [] && TxTimestamp(c) == Some(BigEndian(ts, 4)) && ts <= MAX_UINT32
    requires SelfUnlock(c, Place(true, i, LOCK_BLOCK)) == Some(u) && Self(c, Place(true, i, LOCK_BLOCK)) == Some(lock)
    requires |u| == 1 && u[0] < i ==> ConsumedConstraintByIndex(c, Some([u[0], LOCK_BLOCK])).Some?
    requires AddressAtTime(e, lock, ts).Some? && UnlockedWithSignature(e, c, AddressAtTime(e, lock, ts).value) == True
    ensures EvalConstraint(e, c, Place(true, i, LOCK_BLOCK), lock) == True <==> |u| == 1
  {
    hide SelfUnlock, Self, ConsumedConstraintByIndex, UnlockedByReference, UnlockedWithSignature, TxTimestamp;
    ReferenceIsRead(e, c, i, u, lock);
    AddressAtTimeIsAsked(e, c, lock, ts);
    LockEvaluates(e, c, i, lock);
  }

  /** An address lock, or the branch of a deadline lock, is unlocked by reference or else by signature. */
  lemma LockEvaluates(e: Env, c: Context, i: Byte, lock: Bytes)
    requires AddressToUnlock(e, c, lock).Some? && lock != []
    ensures EvalConstraint(e, c, Place(true, i, LOCK_BLOCK), lock) == True <==>
      Or(UnlockedByReference(c, Place(true, i, LOCK_BLOCK)),
         UnlockedWithSignature(e, c, AddressToUnlock(e, c, lock).value)) == True
  {
    hide UnlockedByReference, UnlockedWithSignature, TxTimestamp, LessThan;
  }

  /** Reaching block `j` of an output by index. */
  lemma BlockByIndex(c: Context, consumed: bool, i: Byte, output: Bytes, j: Byte)
    requires (if consumed then ConsumedOutput(c, i) else ProducedOutput(c, i)) == Some(output)
    requires Blocks(output).Some? && j < |Blocks(output).value|
    ensures
      (if consumed then ConsumedConstraintByIndex(c, Some([i, j])) else ProducedConstraintByIndex(c, Some([i, j])))
      == Some(Blocks(output).value[j])
    ensures Self(c, Place(consumed, i, j)) == Some(Blocks(output).value[j])
  {
    hide Parse, ConsumedOutput, ProducedOutput;
    ParseMonotone(output, MAX_ELEMENTS, MAX_ARRAY_LEN);
    assert [i, j][0..1] == [i] && [i, j][1..2] == [j];
  }

  /** Only the address that signed can be asked for. */
  lemma SignerIsSender(e: Env, c: Context, key: SigningKey, address: Bytes)
    requires SignedBy(e, c, key) && UnlockedWithSignature(e, c, address) == True
    ensures address == e.blake2b(key.publicKey)
  {
    hide TxSignature, TxEssence;
  }

  /** In an accepted transaction every lock that asks for an address asks for the sender's. */
  lemma {:induction false} AcceptedLockIsSender(e: Env, utxos: UTXOs, t: Transaction, c: Context, key: SigningKey,
                                                i: Byte)
    requires Sound(e) && BuiltIn(e, utxos, t, c) && Accepts(e, utxos, c.txBytes) && SignedBy(e, c, key)
    requires i < |c.consumed| && ParsesAsOutput(e, c.consumed[i])
    requires AddressAtTime(e, LockOf(e, c.consumed[i]), t.timestamp).Some?
    ensures AddressAtTime(e, LockOf(e, c.consumed[i]), t.timestamp) == Some(e.blake2b(key.publicKey))
  {
    hide Sound, TransactionBytes, MakeContext, Buildable, Validation.Valid, EvalConstraint, OutputOK, InputCommitment,
      ParsesAsOutput, AddressAtTime, LockTags, Parse, UnlockedWithSignature, SignedBy, AsksForAddress, AddressToUnlock,
      TxTimestamp, ConsumedOutput, Self, BlockAt;
    var lock := LockOf(e, c.consumed[i]);
    BuiltReads(e, utxos, t, c);
    ThreeBlocks(e, c.consumed[i]);
    AddressAtTimeIsAsked(e, c, lock, t.timestamp);
    BlockByIndex(c, true, i, c.consumed[i], LOCK_BLOCK);
    assert BlockAt(c, true, i, LOCK_BLOCK) == Some(lock) by { BlockAtIsSelf(c, i); }
    ReferencesAreGrounded(e, c, i);
    SignerIsSender(e, c, key, AddressToUnlock(e, c, lock).value);
  }

  lemma BlockAtIsSelf(c: Context, i: Byte)
    ensures BlockAt(c, true, i, LOCK_BLOCK) == Self(c, Place(true, i, LOCK_BLOCK))
  {
  }

  // ------------------------------------------------------------------ produced outputs

  /** A produced output made of these blocks is in order: covered, what follows its lock holds, nothing is repeated. */
  predicate MadeHolds(e: Env, c: Context, i: Byte, blocks: seq<Bytes>, amount: nat)
    requires |blocks| <= MAX_ELEMENTS
  {
    && Encode(blocks).Some? && Covered(Encode(blocks).value, amount)
    && BlocksHold(e, c, false, i, blocks, LOCK_BLOCK + 1) && Distinct(blocks)
  }

  lemma ProducedMeans(e: Env, utxos: UTXOs, t: Transaction, c: Context, i: Byte, blocks: seq<Bytes>, amount: nat)
    requires Sound(e) && BuiltIn(e, utxos, t, c) && i < |t.outputs| && amount <= MAX_UINT64
    requires BuiltBlocks(e, blocks, amount, t.timestamp) && Encode(blocks) == Some(t.outputs[i])
    ensures OutputOK(e, c, false, i, t.outputs[i]) <==> MadeHolds(e, c, i, blocks, amount)
    ensures AmountIn(e, t.outputs[i]) == amount
  {
    hide BuiltIn, Sound, OutputOK, EvalConstraint, AmountIn, TxTimestamp, Encode, BuiltBlocks, ProducedOutput, Covered,
      BlocksHold;
    BuiltReads(e, utxos, t, c);
    BuiltOutputReads(e, blocks, amount, t.timestamp);
    ProducedIsOK(e, c, i, blocks, amount, t.timestamp);
  }

  /** A block of a produced output that repeats the sender's address as a constraint holds. */
  lemma SenderHolds(e: Env, c: Context, key: SigningKey, i: Byte, j: Byte)
    requires Sound(e) && SignedBy(e, c, key)
    ensures EvalConstraint(e, c, Place(false, i, j), e.encode(Sender(e.blake2b(key.publicKey)))) == True
  {
    hide TxSignature;
    assert WellSized(Sender(e.blake2b(key.publicKey)));
  }

  // ------------------------------------------------------------------ what acceptance implies

  /** A consumed output with a timestamp is older than any transaction that is accepted. */
  lemma {:induction false} AcceptedIsLater(e: Env, utxos: UTXOs, t: Transaction, c: Context, i: Byte)
    requires BuiltIn(e, utxos, t, c) && Accepts(e, utxos, c.txBytes)
    requires i < |c.consumed| && ParsesAsOutput(e, c.consumed[i])
    ensures TimestampIn(e, c.consumed[i]) < t.timestamp
  {
    hide Parse, TransactionBytes, MakeContext, Buildable, Validation.Valid, EvalConstraint, OutputOK, InputCommitment;
    ListsAgree(t);
    ParsedBlocks(e, c, i);
    BlockHolds(e, c, true, i, TIMESTAMP_BLOCK);
    EarlierTimestamp(e, c, i, Blocks(c.consumed[i]).value[TIMESTAMP_BLOCK], t.timestamp);
  }

  lemma ParsedBlocks(e: Env, c: Context, i: Byte)
    requires i < |c.consumed| && ParsesAsOutput(e, c.consumed[i])
    ensures BlockAt(c, true, i, TIMESTAMP_BLOCK) == Some(Blocks(c.consumed[i]).value[TIMESTAMP_BLOCK])
  {
    hide Parse;
  }

  lemma EarlierTimestamp(e: Env, c: Context, i: Byte, block: Bytes, ts: nat)
    requires EvalConstraint(e, c, Place(true, i, TIMESTAMP_BLOCK), block) == True && TimestampOf(e, block).Some?
    requires TxTimestamp(c) == Some(BigEndian(ts, 4)) && ts <= MAX_UINT32
    ensures TimestampOf(e, block).value < ts
  {
    hide TxTimestamp;
    Pow256Values();
    BigEndianRoundTrip(ts, 4);
    LexLessIsNumeric(e.decode(block).arg, BigEndian(ts, 4));
  }

  /** Every produced output of an accepted transaction covers its storage deposit. */
  lemma {:induction false} AcceptedCoversDeposits(e: Env, utxos: UTXOs, t: Transaction, c: Context, k: nat)
    requires BuiltIn(e, utxos, t, c) && Accepts(e, utxos, c.txBytes) && k < |t.outputs|
    ensures |t.outputs[k]| <= AmountIn(e, t.outputs[k])
  {
    hide Parse, TransactionBytes, MakeContext, Buildable, EvalConstraint, InputCommitment, AmountIn, Outputs, IndexOK,
      CommitmentOK, Sum;
    ListsAgree(t);
    assert OutputOK(e, c, false, k, t.outputs[k]);
  }
}
