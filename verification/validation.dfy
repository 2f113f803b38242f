/**
 Validation of a transaction in its context: every constraint of every consumed and
 produced output, the storage deposits, the balance, the input commitment, and the
 commands that bring the index up to date.
 */
module Validation {
  import opened Bytes
  import opened Codec
  import opened LazyTree
  import opened Context
  import opened Constraints

  datatype Partition = AccountPartition | ChainPartition

  /** One update of the index. */
  datatype Command = Command(id: Bytes, outputID: Bytes, delete: bool, partition: Partition)

  const OUTPUT_ID_LENGTH: nat := 33

  function OutputID(txid: Bytes, idx: Byte): Bytes {
    txid + [idx]
  }

  // ------------------------------------------------------------------ reading an output

  function AmountOf(e: Env, block: Bytes): Option<nat> {
    if e.decode(block).Amount? && |e.decode(block).arg| == 8 then Some(FromBigEndian(e.decode(block).arg)) else None
  }

  /** The account an address or a chain lock stands for, as the index names it. */
  function AccountID(e: Env, account: Script): Bytes
    requires account.AddressED25519? || account.ChainLock?
  {
    e.encode(account)
  }

  /** The accounts a lock is indexed under; None if the block is not a lock. */
  function LockTags(e: Env, block: Bytes): Option<seq<Bytes>> {
    match e.decode(block)
    case AddressED25519(a) => if |a| == 32 then Some([AccountID(e, AddressED25519(a))]) else None
    case ChainLock(id) => if |id| == 32 then Some([AccountID(e, ChainLock(id))]) else None
    case DeadlineLock(d, m, x) =>
      if |d| == 4 && |m| == 32 && |x| == 32 then
        Some([AccountID(e, AddressED25519(m)), AccountID(e, AddressED25519(x))])
      else None
    case _ => None
  }

  predicate IsChainBlock(e: Env, block: Bytes) {
    e.decode(block).Chain? && |e.decode(block).arg| == 35
  }

  /** The first chain constraint at block `k` or later. */
  function FirstChainFrom(e: Env, blocks: seq<Bytes>, k: nat): Option<nat>
    decreases |blocks| - k
  {
    if k >= |blocks| then None
    else if IsChainBlock(e, blocks[k]) then Some(k)
    else FirstChainFrom(e, blocks, k + 1)
  }

  /** The chain constraint that is indexed: the first one after amount, timestamp and lock. */
  function FirstChain(e: Env, blocks: seq<Bytes>): Option<nat> {
    FirstChainFrom(e, blocks, LOCK_BLOCK + 1)
  }

  lemma {:induction false} FirstChainIs(e: Env, blocks: seq<Bytes>, k: nat)
    ensures var r := FirstChainFrom(e, blocks, k);
      && (r.Some? ==> k <= r.value < |blocks| && IsChainBlock(e, blocks[r.value]))
      && (r.Some? ==> forall j :: k <= j < r.value ==> !IsChainBlock(e, blocks[j]))
      && (r.None? ==> forall j :: k <= j < |blocks| ==> !IsChainBlock(e, blocks[j]))
    decreases |blocks| - k
  {
    if k < |blocks| && !IsChainBlock(e, blocks[k]) {
      FirstChainIs(e, blocks, k + 1);
    }
  }

  /** The chain id an output stands for; an origin stands for the hash of its own output ID. */
  function ChainIDOf(e: Env, data: Bytes, oid: Bytes): Bytes
    requires |data| == 35
  {
    if data == ORIGIN_CHAIN_DATA then e.blake2b(oid) else data[..32]
  }

  // ------------------------------------------------------------------ conditions on one output

  predicate Distinct<T(==)>(xs: seq<T>) {
    forall j, k :: 0 <= j < k < |xs| ==> xs[j] != xs[k]
  }

  /** Every constraint evaluates to true, and a produced output has no constraint twice. */
  predicate RunsOK(e: Env, c: Context, consumed: bool, i: Byte, blocks: seq<Bytes>)
    requires |blocks| <= MAX_ELEMENTS
  {
    && (forall j {:trigger EvalConstraint(e, c, Place(consumed, i, j), blocks[j])} ::
          0 <= j < |blocks| ==> EvalConstraint(e, c, Place(consumed, i, j), blocks[j]) == True)
    && (consumed || Distinct(blocks))
  }

  function AmountIn(e: Env, output: Bytes): nat {
    match Blocks(output)
    case None => 0
    case Some(blocks) =>
      if |blocks| == 0 then 0
      else match AmountOf(e, blocks[AMOUNT_BLOCK]) case None => 0 case Some(a) => a
  }

  /** The index commands for the lock of an output. */
  function LockCommands(tags: seq<Bytes>, oid: Bytes, consumed: bool): (cmds: seq<Command>)
  {
    seq(|tags|, k requires 0 <= k < |tags| => Command(tags[k], oid, consumed, AccountPartition))
  }

  /**
   The index command for the chain of an output: a produced chain output is recorded,
   a consumed one is only removed when it is destroyed. None is a panic.
   */
  function ChainCommands(e: Env, c: Context, consumed: bool, i: Byte, blocks: seq<Bytes>,
                         oid: Bytes): Option<seq<Command>>
    requires |blocks| <= MAX_ELEMENTS
  {
    FirstChainIs(e, blocks, 3);
    match FirstChain(e, blocks)
    case None => Some([])
    case Some(k) =>
      var id := ChainIDOf(e, e.decode(blocks[k]).arg, oid);
      if consumed then
        var u := SelfUnlock(c, Place(true, i, k));
        if u.None? then None
        else if u.value != DESTROY_UNLOCK_PARAMS then Some([])
        else Some([Command(id, Zeros(OUTPUT_ID_LENGTH), true, ChainPartition)])
      else Some([Command(id, oid, false, ChainPartition)])
  }

  function OutputIDAt(e: Env, c: Context, consumed: bool, i: Byte): Value {
    if consumed then InputID(c, i) else Some(OutputID(e.blake2b(c.txBytes), i))
  }

  /** The constraints hold and the amount covers the storage deposit, one token a byte. */
  predicate ContentOK(e: Env, c: Context, consumed: bool, i: Byte, output: Bytes) {
    var blocks := Blocks(output);
    && blocks.Some? && |blocks.value| >= 1
    && RunsOK(e, c, consumed, i, blocks.value)
    && AmountOf(e, blocks.value[AMOUNT_BLOCK]).Some?
    && AmountIn(e, output) >= |output|
  }

  /** The output has a lock, and its index entries can be made. */
  predicate IndexOK(e: Env, c: Context, consumed: bool, i: Byte, blocks: seq<Bytes>)
    requires |blocks| <= MAX_ELEMENTS
  {
    var oid := OutputIDAt(e, c, consumed, i);
    && |blocks| > LOCK_BLOCK
    && LockTags(e, blocks[LOCK_BLOCK]).Some?
    && oid.Some?
    && ChainCommands(e, c, consumed, i, blocks, oid.value).Some?
  }

  function IndexEntries(e: Env, c: Context, consumed: bool, i: Byte, blocks: seq<Bytes>): seq<Command>
    requires |blocks| <= MAX_ELEMENTS && IndexOK(e, c, consumed, i, blocks)
  {
    var oid := OutputIDAt(e, c, consumed, i).value;
    LockCommands(LockTags(e, blocks[LOCK_BLOCK]).value, oid, consumed)
      + ChainCommands(e, c, consumed, i, blocks, oid).value
  }

  predicate OutputOK(e: Env, c: Context, consumed: bool, i: Byte, output: Bytes) {
    ContentOK(e, c, consumed, i, output) && IndexOK(e, c, consumed, i, Blocks(output).value)
  }

  // ------------------------------------------------------------------ conditions on a transaction

  predicate OutputsOK(e: Env, c: Context, consumed: bool, outputs: seq<Bytes>)
    requires |outputs| <= MAX_ELEMENTS
  {
    OutputsOKTo(e, c, consumed, outputs, |outputs|)
  }

  predicate OutputsOKTo(e: Env, c: Context, consumed: bool, outputs: seq<Bytes>, n: nat)
    requires n <= |outputs| <= MAX_ELEMENTS
  {
    forall i {:trigger OutputOK(e, c, consumed, i, outputs[i])} :: 0 <= i < n ==>
      OutputOK(e, c, consumed, i, outputs[i])
  }

  /** The amounts of the first `n` outputs. */
  function SumTo(e: Env, outputs: seq<Bytes>, n: nat): nat
    requires n <= |outputs|
  {
    if n == 0 then 0 else SumTo(e, outputs, n - 1) + AmountIn(e, outputs[n - 1])
  }

  function Sum(e: Env, outputs: seq<Bytes>): nat {
    SumTo(e, outputs, |outputs|)
  }

  /** The index entries of an output that is in order. */
  function EntriesOf(e: Env, c: Context, consumed: bool, i: Byte, output: Bytes): seq<Command> {
    if OutputOK(e, c, consumed, i, output) then IndexEntries(e, c, consumed, i, Blocks(output).value) else []
  }

  function CommandsTo(e: Env, c: Context, consumed: bool, outputs: seq<Bytes>, n: nat): seq<Command>
    requires n <= |outputs| <= MAX_ELEMENTS
  {
    if n == 0 then []
    else CommandsTo(e, c, consumed, outputs, n - 1) + EntriesOf(e, c, consumed, n - 1, outputs[n - 1])
  }

  predicate CommitmentOK(e: Env, c: Context)
    requires Buildable(c)
  {
    TxField(c.txBytes, TX_INPUT_COMMITMENT) == Some(e.blake2b(Encode(c.consumed).value))
  }

  predicate Valid(e: Env, c: Context)
    requires Buildable(c)
  {
    var outputs := Outputs(c.txBytes);
    && outputs.Some?
    && OutputsOK(e, c, true, c.consumed)
    && Sum(e, c.consumed) <= MAX_UINT64
    && OutputsOK(e, c, false, outputs.value)
    && Sum(e, outputs.value) <= MAX_UINT64
    && CommitmentOK(e, c)
    && Sum(e, c.consumed) == Sum(e, outputs.value)
  }

  function IndexCommands(e: Env, c: Context): seq<Command>
    requires Buildable(c) && Outputs(c.txBytes).Some?
  {
    var outputs := Outputs(c.txBytes).value;
    CommandsTo(e, c, true, c.consumed, |c.consumed|) + CommandsTo(e, c, false, outputs, |outputs|)
  }

  // ------------------------------------------------------------------ the validating loops

  method RunOutput(e: Env, c: Context, consumed: bool, i: Byte, blocks: seq<Bytes>) returns (ok: bool)
    requires |blocks| <= MAX_ELEMENTS
    ensures ok == RunsOK(e, c, consumed, i, blocks)
  {
    var seen: set<Bytes> := {};
    for j := 0 to |blocks|
      invariant forall k :: 0 <= k < j ==> EvalConstraint(e, c, Place(consumed, i, k), blocks[k]) == True
      invariant !consumed ==> Distinct(blocks[..j])
      invariant !consumed ==> forall b :: b in seen <==> b in blocks[..j]
    {
      assert blocks[..j + 1] == blocks[..j] + [blocks[j]];
      if !consumed {
        if blocks[j] in seen {
          var k :| 0 <= k < j && blocks[..j][k] == blocks[j];
          assert blocks[k] == blocks[j];
          return false;
        }
        seen := seen + {blocks[j]};
      }
      if EvalConstraint(e, c, Place(consumed, i, j), blocks[j]) != True { return false; }
    }
    assert blocks[..|blocks|] == blocks;
    return true;
  }

  method IndexChainID(e: Env, c: Context, consumed: bool, i: Byte, blocks: seq<Bytes>, oid: Bytes)
    returns (r: Option<seq<Command>>)
    requires |blocks| <= MAX_ELEMENTS
    ensures r == ChainCommands(e, c, consumed, i, blocks, oid)
  {
    for k := 0 to |blocks|
      invariant FirstChain(e, blocks) == FirstChainFrom(e, blocks, if k < 3 then 3 else k)
    {
      if k == AMOUNT_BLOCK || k == TIMESTAMP_BLOCK || k == LOCK_BLOCK { continue; }
      if !IsChainBlock(e, blocks[k]) { continue; }
      var id := ChainIDOf(e, e.decode(blocks[k]).arg, oid);
      if consumed {
        var u := SelfUnlock(c, Place(true, i, k));
        if u.None? { return None; }
        if u.value != DESTROY_UNLOCK_PARAMS { return Some([]); }
        return Some([Command(id, Zeros(OUTPUT_ID_LENGTH), true, ChainPartition)]);
      }
      return Some([Command(id, oid, false, ChainPartition)]);
    }
    return Some([]);
  }

  /** The blocks and the amount of an output whose content is right. */
  method CheckContent(e: Env, c: Context, consumed: bool, i: Byte, output: Bytes) returns (r: Option<(seq<Bytes>, nat)>)
    ensures r.Some? <==> ContentOK(e, c, consumed, i, output)
    ensures r.Some? ==> Some(r.value.0) == Blocks(output) && r.value.1 == AmountIn(e, output)
  {
    var blocks := ParseArray(output, MAX_ELEMENTS);
    if blocks.None? { return None; }
    var ok := RunOutput(e, c, consumed, i, blocks.value);
    if !ok || |blocks.value| == 0 { return None; }
    var amount := AmountOf(e, blocks.value[AMOUNT_BLOCK]);
    if amount.None? || amount.value < |output| { return None; }
    return Some((blocks.value, amount.value));
  }

  method CreateIndexEntries(e: Env, c: Context, consumed: bool, i: Byte,
                            blocks: seq<Bytes>) returns (r: Option<seq<Command>>)
    requires |blocks| <= MAX_ELEMENTS
    ensures r == if IndexOK(e, c, consumed, i, blocks) then Some(IndexEntries(e, c, consumed, i, blocks)) else None
  {
    if |blocks| <= LOCK_BLOCK { return None; }
    var tags := LockTags(e, blocks[LOCK_BLOCK]);
    var oid := OutputIDAt(e, c, consumed, i);
    if tags.None? || oid.None? { return None; }
    var chain := IndexChainID(e, c, consumed, i, blocks, oid.value);
    if chain.None? { return None; }
    return Some(LockCommands(tags.value, oid.value, consumed) + chain.value);
  }

  /**
   One output, with the sum of the amounts before it: None on any failure, a sum that
   does not fit in 64 bits included, else the new sum and the index entries.
   */
  method ValidateOutput(e: Env, c: Context, consumed: bool, i: Byte, output: Bytes, sum: nat)
    returns (r: Option<(nat, seq<Command>)>)
    requires sum <= MAX_UINT64
    ensures r == if OutputOK(e, c, consumed, i, output) && sum + AmountIn(e, output) <= MAX_UINT64
                 then Some((sum + AmountIn(e, output), EntriesOf(e, c, consumed, i, output))) else None
  {
    hide ContentOK, IndexOK, IndexEntries, AmountIn, Blocks;
    var content := CheckContent(e, c, consumed, i, output);
    if content.None? { return None; }
    var (blocks, amount) := content.value;
    if amount > MAX_UINT64 - sum { return None; }
    var entries := CreateIndexEntries(e, c, consumed, i, blocks);
    if entries.None? { return None; }
    return Some((sum + amount, entries.value));
  }

  /** All outputs of one side: None on any failure, else the sum of the amounts and the commands. */
  method ValidateOutputs(e: Env, c: Context, consumed: bool, outputs: seq<Bytes>)
    returns (r: Option<(nat, seq<Command>)>)
    requires |outputs| <= MAX_ELEMENTS
    ensures r == if OutputsOK(e, c, consumed, outputs) && Sum(e, outputs) <= MAX_UINT64
                 then Some((Sum(e, outputs), CommandsTo(e, c, consumed, outputs, |outputs|))) else None
  {
    hide OutputOK, EntriesOf;
    var sum: nat, cmds: seq<Command> := 0, [];
    for i := 0 to |outputs|
      invariant OutputsOKTo(e, c, consumed, outputs, i)
      invariant sum == SumTo(e, outputs, i) <= MAX_UINT64
      invariant cmds == CommandsTo(e, c, consumed, outputs, i)
    {
      var r := ValidateOutput(e, c, consumed, i, outputs[i], sum);
      if r.None? {
        SumToMonotone(e, outputs, i + 1);
        return None;
      }
      sum, cmds := r.value.0, cmds + r.value.1;
    }
    return Some((sum, cmds));
  }

  lemma {:induction false} SumToMonotone(e: Env, outputs: seq<Bytes>, n: nat)
    requires n <= |outputs|
    ensures SumTo(e, outputs, n) <= Sum(e, outputs)
    decreases |outputs| - n
  {
    if n < |outputs| {
      SumToMonotone(e, outputs, n + 1);
    }
  }

  /** None is any validation error. */
  method Validate(e: Env, c: Context) returns (r: Option<seq<Command>>)
    requires Buildable(c)
    ensures r == if Valid(e, c) then Some(IndexCommands(e, c)) else None
  {
    var consumed := ValidateOutputs(e, c, true, c.consumed);
    if consumed.None? { return None; }
    var outputs := Outputs(c.txBytes);
    if outputs.None? { return None; }
    var produced := ValidateOutputs(e, c, false, outputs.value);
    if produced.None? { return None; }
    if !CommitmentOK(e, c) { return None; }
    if consumed.value.0 != produced.value.0 { return None; }
    return Some(consumed.value.1 + produced.value.1);
  }
}
