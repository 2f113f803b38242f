/**
 The builder's view of an output, and its unchecked 64- and 32-bit arithmetic.
 */
module OutputView {
  import opened Bytes
  import opened Context
  import opened Constraints
  import opened Validation

  function TimestampOf(e: Env, block: Bytes): Option<nat> {
    if e.decode(block).Timestamp? && |e.decode(block).arg| == 4 then Some(FromBigEndian(e.decode(block).arg)) else None
  }

  /** The builder's view of an output requires a timestamp in block 1, which validation does not. */
  predicate ParsesAsOutput(e: Env, output: Bytes) {
    var blocks := Blocks(output);
    && blocks.Some? && |blocks.value| >= 3
    && AmountOf(e, blocks.value[AMOUNT_BLOCK]).Some?
    && TimestampOf(e, blocks.value[TIMESTAMP_BLOCK]).Some?
    && LockTags(e, blocks.value[LOCK_BLOCK]).Some?
  }

  /** The timestamp of an output that parses. */
  function TimestampIn(e: Env, output: Bytes): nat
    requires ParsesAsOutput(e, output)
  {
    TimestampOf(e, Blocks(output).value[TIMESTAMP_BLOCK]).value
  }

  lemma TimestampFits(e: Env, output: Bytes)
    requires ParsesAsOutput(e, output)
    ensures TimestampIn(e, output) <= MAX_UINT32
  {
    hide Blocks;
    FromBigEndianRoundTrip(e.decode(Blocks(output).value[TIMESTAMP_BLOCK]).arg);
    Pow256Values();
  }

  /** Addition of 64-bit unsigned integers: what does not fit is lost. */
  function AddUint64(a: nat, b: nat): (r: nat)
    ensures r <= MAX_UINT64
    ensures a <= MAX_UINT64 && b <= MAX_UINT64 ==> r == a + b || r + MAX_UINT64 + 1 == a + b
  {
    (a + b) % 0x1_0000_0000_0000_0000
  }

  /** Addition of 32-bit unsigned integers. */
  function AddUint32(a: nat, b: nat): (r: nat)
    ensures r <= MAX_UINT32
    ensures a <= MAX_UINT32 && b <= MAX_UINT32 ==> r == a + b || r + MAX_UINT32 + 1 == a + b
  {
    (a + b) % 0x1_0000_0000
  }
}
