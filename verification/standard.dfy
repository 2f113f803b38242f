/**
 Outputs the builder can read: an amount, a timestamp and a lock, and possibly more
 blocks. When exactly the validator finds them in order, on either side of a transaction.
 */
module StandardOutputs {
  import opened Bytes
  import opened Codec
  import opened LazyTree
  import opened Context
  import opened Constraints
  import opened Validation
  import opened OutputView

  /** The blocks of a new output. */
  function OutputBlocks(e: Env, amount: nat, ts: nat, lock: Script, extra: seq<Bytes>): seq<Bytes> {
    [e.encode(Amount(BigEndian(amount, 8))), e.encode(Timestamp(BigEndian(ts, 4))), e.encode(lock)] + extra
  }

  predicate IsLock(lock: Script) {
    lock.AddressED25519? || lock.ChainLock? || lock.DeadlineLock?
  }

  /** The blocks from `from` on evaluate to true at their places. */
  predicate BlocksHold(e: Env, c: Context, consumed: bool, i: Byte, blocks: seq<Bytes>, from: nat)
    requires |blocks| <= MAX_ELEMENTS
  {
    forall j {:trigger EvalConstraint(e, c, Place(consumed, i, j), blocks[j])} ::
      from <= j < |blocks| ==> EvalConstraint(e, c, Place(consumed, i, j), blocks[j]) == True
  }

  // ------------------------------------------------------------------ consumed outputs

  lemma ParsedBlocksDecode(e: Env, output: Bytes)
    requires Sound(e) && ParsesAsOutput(e, output)
    ensures var blocks := Blocks(output).value;
      && e.decode(blocks[AMOUNT_BLOCK]).Amount? && blocks[AMOUNT_BLOCK] != []
      && e.decode(blocks[TIMESTAMP_BLOCK]).Timestamp? && blocks[TIMESTAMP_BLOCK] != []
      && |e.decode(blocks[TIMESTAMP_BLOCK]).arg| == 4 && blocks[LOCK_BLOCK] != []
  {
    hide Parse;
  }

  /** The timestamp of a consumed output holds exactly when the transaction is later. */
  lemma ConsumedTimestampMeans(e: Env, c: Context, i: Byte, block: Bytes, ts: nat)
    requires e.decode(block).Timestamp? && |e.decode(block).arg| == 4 && block != []
    requires TxTimestamp(c) == Some(BigEndian(ts, 4)) && ts <= MAX_UINT32
    ensures EvalConstraint(e, c, Place(true, i, TIMESTAMP_BLOCK), block) == True
      <==> FromBigEndian(e.decode(block).arg) < ts
  {
    hide TxTimestamp;
    Pow256Values();
    BigEndianRoundTrip(ts, 4);
    LexLessIsNumeric(e.decode(block).arg, BigEndian(ts, 4));
  }

  lemma ConsumedAmountHolds(e: Env, c: Context, i: Byte, block: Bytes)
    requires e.decode(block).Amount? && block != []
    ensures EvalConstraint(e, c, Place(true, i, AMOUNT_BLOCK), block) == True
  {
    hide StorageDepositEnough;
  }

  /** A chain constraint that holds on the consumed side has unlock parameters. */
  lemma ConsumedChainHasUnlock(e: Env, c: Context, i: Byte, j: Byte, block: Bytes)
    requires IsChainBlock(e, block) && EvalConstraint(e, c, Place(true, i, j), block) == True
    ensures SelfUnlock(c, Place(true, i, j)).Some?
  {
    hide SelfUnlock, ValidSuccessorData, ProducedConstraintByIndex;
    var data := e.decode(block).arg;
    assert |data[0..32]| == 32;
  }

  /** Then the index entries of a consumed output can be made. */
  lemma ConsumedIndexOK(e: Env, c: Context, i: Byte, blocks: seq<Bytes>)
    requires 3 <= |blocks| <= MAX_ELEMENTS && LockTags(e, blocks[LOCK_BLOCK]).Some? && InputID(c, i).Some?
    requires BlocksHold(e, c, true, i, blocks, LOCK_BLOCK)
    ensures IndexOK(e, c, true, i, blocks)
  {
    hide EvalConstraint, FirstChainFrom, LockTags, InputID, SelfUnlock;
    FirstChainIs(e, blocks, 3);
    var k := FirstChainFrom(e, blocks, 3);
    if k.Some? {
      ConsumedChainHasUnlock(e, c, i, k.value, blocks[k.value]);
    }
  }

  /**
   A consumed output that the builder can read is in order exactly when the transaction
   is later, its amount covers its size, and its lock and all blocks after it hold.
   */
  lemma ConsumedIsOK(e: Env, c: Context, i: Byte, output: Bytes, ts: nat)
    requires Sound(e) && ParsesAsOutput(e, output)
    requires TxTimestamp(c) == Some(BigEndian(ts, 4)) && ts <= MAX_UINT32 && InputID(c, i).Some?
    ensures OutputOK(e, c, true, i, output) <==>
      && TimestampIn(e, output) < ts && |output| <= AmountIn(e, output)
      && BlocksHold(e, c, true, i, Blocks(output).value, LOCK_BLOCK)
  {
    hide EvalConstraint, Parse, TxTimestamp, IndexOK, AmountIn, InputID, Sound, LockTags;
    var blocks := Blocks(output).value;
    ParsedBlocksDecode(e, output);
    ConsumedAmountHolds(e, c, i, blocks[AMOUNT_BLOCK]);
    ConsumedTimestampMeans(e, c, i, blocks[TIMESTAMP_BLOCK], ts);
    assert RunsOK(e, c, true, i, blocks) <==>
      BlocksHold(e, c, true, i, blocks, LOCK_BLOCK) && TimestampIn(e, output) < ts by {
      if BlocksHold(e, c, true, i, blocks, LOCK_BLOCK) && TimestampIn(e, output) < ts {
        forall j: Byte | j < |blocks|
          ensures EvalConstraint(e, c, Place(true, i, j), blocks[j]) == True
        {
        }
      }
    }
    if BlocksHold(e, c, true, i, blocks, LOCK_BLOCK) {
      ConsumedIndexOK(e, c, i, blocks);
    }
  }

  // ------------------------------------------------------------------ produced outputs

  /** Blocks as the builder puts them together: this amount and timestamp in front of some lock. */
  predicate BuiltBlocks(e: Env, blocks: seq<Bytes>, amount: nat, ts: nat) {
    && 3 <= |blocks| <= MAX_ELEMENTS
    && blocks[AMOUNT_BLOCK] == e.encode(Amount(BigEndian(amount, 8)))
    && blocks[TIMESTAMP_BLOCK] == e.encode(Timestamp(BigEndian(ts, 4)))
    && LockTags(e, blocks[LOCK_BLOCK]).Some?
  }

  /** The amount covers the storage deposit of the output, whose size has to fit in 16 bits. */
  predicate Covered(output: Bytes, amount: nat) {
    |output| <= amount && |output| <= MAX_UINT16
  }

  lemma BuiltBlocksDecode(e: Env, blocks: seq<Bytes>, amount: nat, ts: nat)
    requires Sound(e) && BuiltBlocks(e, blocks, amount, ts)
    ensures e.decode(blocks[AMOUNT_BLOCK]) == Amount(BigEndian(amount, 8)) && blocks[AMOUNT_BLOCK] != []
    ensures e.decode(blocks[TIMESTAMP_BLOCK]) == Timestamp(BigEndian(ts, 4)) && blocks[TIMESTAMP_BLOCK] != []
    ensures blocks[LOCK_BLOCK] != []
  {
    assert WellSized(Amount(BigEndian(amount, 8))) && WellSized(Timestamp(BigEndian(ts, 4)));
  }

  /** An encoded output has the blocks it was made from, and its amount. */
  lemma BuiltOutputReads(e: Env, blocks: seq<Bytes>, amount: nat, ts: nat)
    requires Sound(e) && BuiltBlocks(e, blocks, amount, ts) && amount <= MAX_UINT64 && Encode(blocks).Some?
    ensures Blocks(Encode(blocks).value) == Some(blocks)
    ensures AmountOf(e, blocks[AMOUNT_BLOCK]) == Some(amount) && AmountIn(e, Encode(blocks).value) == amount
  {
    hide Parse, Encode, Sound;
    EncodesMeansEncodable(blocks);
    RoundTrip(blocks, MAX_ELEMENTS);
    BuiltBlocksDecode(e, blocks, amount, ts);
    Pow256Values();
    BigEndianRoundTrip(amount, 8);
  }

  /** The amount holds on the produced side exactly when it covers the deposit; the size must fit in 16 bits. */
  lemma ProducedAmountMeans(e: Env, c: Context, i: Byte, block: Bytes, output: Bytes, amount: nat)
    requires e.decode(block) == Amount(BigEndian(amount, 8)) && block != []
    requires ProducedOutput(c, i) == Some(output) && amount <= MAX_UINT64
    ensures EvalConstraint(e, c, Place(false, i, AMOUNT_BLOCK), block) == True <==> Covered(output, amount)
  {
    hide ProducedOutput;
    Pow256Values();
    BigEndianRoundTrip(amount, 8);
    if |output| <= MAX_UINT16 {
      BigEndianRoundTrip(|output|, 8);
      LexLessIsNumeric(BigEndian(amount, 8), BigEndian(|output|, 8));
    }
  }

  lemma ProducedLockHolds(e: Env, c: Context, i: Byte, block: Bytes, ts: nat)
    requires LockTags(e, block).Some? && block != [] && TxTimestamp(c) == Some(BigEndian(ts, 4))
    ensures EvalConstraint(e, c, Place(false, i, LOCK_BLOCK), block) == True
  {
    hide TxTimestamp;
  }

  lemma ProducedTimestampHolds(e: Env, c: Context, i: Byte, block: Bytes, ts: nat)
    requires e.decode(block) == Timestamp(BigEndian(ts, 4)) && block != []
    requires TxTimestamp(c) == Some(BigEndian(ts, 4))
    ensures EvalConstraint(e, c, Place(false, i, TIMESTAMP_BLOCK), block) == True
  {
    hide TxTimestamp;
  }

  /**
   A produced output with the timestamp of the transaction is in order exactly when its
   amount covers its deposit, the blocks after the lock hold, and no block is repeated.
   */
  lemma ProducedIsOK(e: Env, c: Context, i: Byte, blocks: seq<Bytes>, amount: nat, ts: nat)
    requires Sound(e) && BuiltBlocks(e, blocks, amount, ts) && amount <= MAX_UINT64 && ts <= MAX_UINT32
    requires Encode(blocks).Some? && ProducedOutput(c, i) == Encode(blocks)
    requires TxTimestamp(c) == Some(BigEndian(ts, 4))
    ensures OutputOK(e, c, false, i, Encode(blocks).value) <==>
      && Covered(Encode(blocks).value, amount)
      && BlocksHold(e, c, false, i, blocks, LOCK_BLOCK + 1) && Distinct(blocks)
  {
    hide EvalConstraint, Parse, TxTimestamp, Encode, AmountIn, Sound, AmountOf, LockTags, FirstChainFrom,
      ProducedOutput;
    var output := Encode(blocks).value;
    BuiltBlocksDecode(e, blocks, amount, ts);
    BuiltOutputReads(e, blocks, amount, ts);
    ProducedAmountMeans(e, c, i, blocks[AMOUNT_BLOCK], output, amount);
    ProducedTimestampHolds(e, c, i, blocks[TIMESTAMP_BLOCK], ts);
    ProducedLockHolds(e, c, i, blocks[LOCK_BLOCK], ts);
    FirstChainIs(e, blocks, 3);
    assert RunsOK(e, c, false, i, blocks) <==>
      Covered(output, amount) && BlocksHold(e, c, false, i, blocks, LOCK_BLOCK + 1) && Distinct(blocks) by {
      if Covered(output, amount) && BlocksHold(e, c, false, i, blocks, LOCK_BLOCK + 1) {
        forall j: Byte | j < |blocks|
          ensures EvalConstraint(e, c, Place(false, i, j), blocks[j]) == True
        {
        }
      }
    }
  }

  // ------------------------------------------------------------------ sizes

  lemma EncodedLength(xs: seq<Bytes>, bound: nat)
    requires |xs| <= MAX_ARRAY_LEN && bound <= MAX_UINT32
    requires forall i :: 0 <= i < |xs| ==> |xs[i]| <= bound
    ensures Encode(xs).Some? && |Encode(xs).value| <= 2 + |xs| * (4 + bound)
  {
    TotalBound(xs, bound);
    BodyLength(xs, Width(MaxClass(xs)));
    hide Body, MaxClass, TotalLength;
    var n, w := |xs|, Width(MaxClass(xs));
    assert n * w <= n * 4;
    assert n * 4 + n * bound == n * (4 + bound);
  }

  lemma {:induction false} TotalBound(xs: seq<Bytes>, bound: nat)
    requires forall i :: 0 <= i < |xs| ==> |xs[i]| <= bound
    ensures TotalLength(xs) <= |xs| * bound
  {
    if xs == [] {
    } else {
      TotalBound(xs[1..], bound);
      assert |xs| * bound == bound + (|xs| - 1) * bound;
    }
  }

  /** The blocks of a new output are built blocks, in front of at most 253 more. */
  lemma NewBlocks(e: Env, amount: nat, ts: nat, lock: Script, extra: seq<Bytes>)
    requires Sound(e) && WellSized(lock) && IsLock(lock) && |extra| + 3 <= MAX_ELEMENTS
    ensures BuiltBlocks(e, OutputBlocks(e, amount, ts, lock, extra), amount, ts)
    ensures forall k :: 0 <= k < 3 ==> |OutputBlocks(e, amount, ts, lock, extra)[k]| <= MAX_UINT8
  {
    assert WellSized(Amount(BigEndian(amount, 8))) && WellSized(Timestamp(BigEndian(ts, 4)));
  }
}
