/**
 The simple transfer: outputs of one account are consumed, the first unlocked by the
 signature and the others by reference to it, and the amount and the remainder are
 produced.
 */
module Transfer {
  import opened Bytes
  import opened Codec
  import opened LazyArray
  import opened Context
  import opened Constraints
  import opened Validation
  import opened OutputView
  import opened Selection
  import opened Builder
  import opened StandardOutputs

  datatype UnlockData = UnlockData(outputIndex: Byte, constraintIndex: Byte, data: Bytes)

  datatype TransferData = TransferData(
    key: SigningKey,
    sourceAccount: Script,
    timestamp: nat,
    lock: Script,
    amount: nat,
    adjustToMinimum: bool,
    addSender: bool,
    addConstraints: seq<Bytes>,
    unlockData: seq<UnlockData>
  )

  function OutputsOf(outs: seq<OutputWithID>): seq<Bytes> {
    seq(|outs|, k requires 0 <= k < |outs| => outs[k].output)
  }

  function IDsOf(outs: seq<OutputWithID>): seq<Bytes> {
    seq(|outs|, k requires 0 <= k < |outs| => outs[k].id)
  }

  /** The bytes of a new output; None is an error or a panic: too many or too long constraints. */
  function NewOutputBytes(e: Env, amount: nat, ts: nat, lock: Script, extra: seq<Bytes>): Option<Bytes> {
    EncodeUpTo256(OutputBlocks(e, amount, ts, lock, extra))
  }

  /** The constraints pushed to the main output after the lock: the sender's, if so asked, and the added ones. */
  function MainExtra(e: Env, par: TransferData): seq<Bytes> {
    (if par.addSender then [e.encode(Sender(e.blake2b(par.key.publicKey)))] else []) + par.addConstraints
  }

  function MainOutputBytes(e: Env, par: TransferData, amount: nat, ts: nat): Option<Bytes> {
    NewOutputBytes(e, amount, ts, par.lock, MainExtra(e, par))
  }

  /**
   The amount to transfer, raised to the storage deposit of the main output if so
   asked. The sender's constraint is not counted.
   */
  function AdjustedAmount(e: Env, par: TransferData): Option<nat> {
    if !par.adjustToMinimum then Some(par.amount)
    else
      var tentative := NewOutputBytes(e, par.amount, 0, par.lock, par.addConstraints);
      if tentative.None? then None
      else
        var minimum := |tentative.value| % 0x1_0000_0000;
        Some(if par.amount < minimum then minimum else par.amount)
  }

  function ApplyUnlocks(blocks: seq<seq<Bytes>>, data: seq<UnlockData>): Option<seq<seq<Bytes>>> {
    if data == [] then Some(blocks)
    else
      var un := data[|data| - 1];
      match ApplyUnlocks(blocks, data[..|data| - 1])
      case None => None
      case Some(before) =>
        if un.outputIndex < |before| then
          Some(before[un.outputIndex := Grow(before[un.outputIndex], un.constraintIndex, un.data)])
        else None
  }

  /** The unlock blocks of new inputs. */
  function NoUnlocks(n: nat): seq<seq<Bytes>> {
    seq(n, _ => [])
  }

  /** The unlock data of the chosen inputs: the signature marker, then references to input 0. */
  function SimpleUnlocks(n: nat): seq<seq<Bytes>> {
    seq(n, i => Grow([], LOCK_BLOCK, [if i == 0 then 0xff else 0]))
  }

  /** The remainder, if there is one, and the main output. */
  function SimpleOutputs(e: Env, par: TransferData, amount: nat, available: nat, ts: nat): Option<seq<Bytes>>
    requires amount <= available
  {
    var main := MainOutputBytes(e, par, amount, ts);
    var remainder := NewOutputBytes(e, available - amount, ts, par.sourceAccount, []);
    if main.None? then None
    else if available == amount then Some([main.value])
    else if remainder.None? then None
    else Some([remainder.value, main.value])
  }

  /** The transaction for the chosen outputs; None is an error or a panic. */
  function SimpleTransaction(e: Env, par: TransferData, amount: nat, available: nat, ts: nat,
                             chosen: seq<OutputWithID>): Option<Transaction>
    requires amount <= available
  {
    var outputs := SimpleOutputs(e, par, amount, available, ts);
    var unlocks := ApplyUnlocks(SimpleUnlocks(|chosen|), par.unlockData);
    if outputs.None? || unlocks.None? then None
    else
      Sealed(e, par.key, OutputsOf(chosen),
             EMPTY_TRANSACTION.(inputIDs := IDsOf(chosen), outputs := outputs.value, unlockBlocks := unlocks.value), ts)
  }

  /** Unlock data can be applied exactly when all of it is for inputs that exist. */
  lemma {:induction false} UnlockDataApplies(blocks: seq<seq<Bytes>>, data: seq<UnlockData>)
    ensures ApplyUnlocks(blocks, data).Some? <==> forall k :: 0 <= k < |data| ==> data[k].outputIndex < |blocks|
    ensures ApplyUnlocks(blocks, data).Some? ==> |ApplyUnlocks(blocks, data).value| == |blocks|
  {
    if data == [] {
    } else {
      var n := |data| - 1;
      UnlockDataApplies(blocks, data[..n]);
      assert forall k :: 0 <= k < n ==> data[..n][k] == data[k];
    }
  }

  lemma {:induction false} UnlocksGrow(blocks: seq<seq<Bytes>>, data: seq<UnlockData>)
    ensures var r := ApplyUnlocks(blocks, data);
      r.Some? ==> |r.value| == |blocks| && forall k :: 0 <= k < |blocks| ==> |r.value[k]| >= |blocks[k]|
  {
    if data == [] {
    } else {
      UnlocksGrow(blocks, data[..|data| - 1]);
    }
  }

  predicate IsFor(un: UnlockData, i: Byte, j: Byte) {
    un.outputIndex == i && un.constraintIndex == j
  }

  /**
   The last entry for block `j` of input `i`, number `n - 1`, is what is put there; without
   one, when `n` is zero, the block stays as it was.
   */
  lemma {:induction false} LastUnlockCounts(blocks: seq<seq<Bytes>>, data: seq<UnlockData>, i: Byte, j: Byte, n: nat)
    requires ApplyUnlocks(blocks, data).Some? && i < |blocks| && n <= |data|
    requires forall l :: n <= l < |data| ==> !IsFor(data[l], i, j)
    requires n > 0 ==> IsFor(data[n - 1], i, j)
    ensures |ApplyUnlocks(blocks, data).value| == |blocks|
    ensures var block, was := ApplyUnlocks(blocks, data).value[i], blocks[i];
      && |was| <= |block|
      && (n > 0 ==> j < |block| && block[j] == data[n - 1].data)
      && (n == 0 && j < |block| ==> block[j] == if j < |was| then was[j] else [])
  {
    UnlockDataApplies(blocks, data);
    if data == [] {
    } else {
      var last, front := data[|data| - 1], data[..|data| - 1];
      UnlockDataApplies(blocks, front);
      if IsFor(last, i, j) {
        UnlocksGrow(blocks, front);
      } else {
        LastUnlockCounts(blocks, front, i, j, n);
      }
    }
  }

  // ------------------------------------------------------------------ making outputs

  /** Puts amount, timestamp and lock in place and pushes the other constraints; None is an error or a panic. */
  method MakeOutput(e: Env, amount: nat, ts: nat, lock: Script, extra: seq<Bytes>) returns (r: Option<Bytes>)
    ensures r == NewOutputBytes(e, amount, ts, lock, extra)
  {
    hide Parse, Encode;
    var front := OutputBlocks(e, amount, ts, lock, []);
    var arr := new Array.Empty(MAX_OUTPUTS);
    var _ := arr.PutAtIdxGrow(AMOUNT_BLOCK, front[0]);
    assert Padded([], 1)[0 := front[0]] == front[..1];
    var _ := arr.PutAtIdxGrow(TIMESTAMP_BLOCK, front[1]);
    assert Padded(front[..1], 1)[1 := front[1]] == front[..2];
    var _ := arr.PutAtIdxGrow(LOCK_BLOCK, front[2]);
    assert Padded(front[..2], 1)[2 := front[2]] == front + extra[..0];
    for i := 0 to |extra|
      invariant arr.Valid() && fresh(arr) && arr.max == MAX_OUTPUTS && arr.parsed.Some?
      invariant arr.Contents() == Some(front + extra[..i]) && 3 + i <= MAX_OUTPUTS
      invariant arr.bytes == None
    {
      assert front + extra[..i + 1] == front + extra[..i] + [extra[i]];
      var pushed := arr.Push(extra[i]);
      if pushed.None? { return None; }
    }
    EncodesMeansEncodable(OutputBlocks(e, amount, ts, lock, extra));
    assert front + extra[..|extra|] == OutputBlocks(e, amount, ts, lock, extra);
    var ok, b := arr.GetBytes();
    if !ok { return None; }
    return b;
  }

  // ------------------------------------------------------------------ the transfer maker

  method ConsumeAll(txb: TransactionBuilder, chosen: seq<OutputWithID>) returns (ok: bool)
    requires txb.Valid() && |txb.consumed| + |chosen| <= MAX_OUTPUTS
    modifies txb
    ensures txb.Valid() && ok
    ensures txb.consumed == old(txb.consumed) + OutputsOf(chosen)
    ensures txb.tx == old(txb.tx).(inputIDs := old(txb.tx).inputIDs + IDsOf(chosen),
                                   unlockBlocks := old(txb.tx).unlockBlocks + NoUnlocks(|chosen|))
  {
    for i := 0 to |chosen|
      invariant txb.Valid()
      invariant txb.consumed == old(txb.consumed) + OutputsOf(chosen)[..i]
      invariant txb.tx == old(txb.tx).(inputIDs := old(txb.tx).inputIDs + IDsOf(chosen)[..i],
                                       unlockBlocks := old(txb.tx).unlockBlocks + NoUnlocks(i))
    {
      var r := txb.ConsumeOutput(chosen[i].output, chosen[i].id);
      assert OutputsOf(chosen)[..i + 1] == OutputsOf(chosen)[..i] + [chosen[i].output];
      assert IDsOf(chosen)[..i + 1] == IDsOf(chosen)[..i] + [chosen[i].id];
      assert NoUnlocks(i + 1) == NoUnlocks(i) + [[]];
      if r.None? { return false; }
    }
    return true;
  }

  /** The next unlock block takes the place of an empty one. */
  lemma PutNext(all: seq<seq<Bytes>>, i: nat)
    requires i < |all|
    ensures var blocks := all[..i] + NoUnlocks(|all| - i);
      |blocks| == |all| && blocks[i] == [] && blocks[i := all[i]] == all[..i + 1] + NoUnlocks(|all| - i - 1)
  {
  }

  lemma SimpleUnlockIs(n: nat, i: nat)
    requires i < n
    ensures |SimpleUnlocks(n)| == n
    ensures SimpleUnlocks(n)[i] == Grow([], LOCK_BLOCK, [if i == 0 then 0xff else 0])
  {
  }

  method UnlockAll(txb: TransactionBuilder) returns (ok: bool)
    requires txb.Valid() && txb.tx.unlockBlocks == NoUnlocks(|txb.consumed|)
    modifies txb
    ensures txb.Valid() && txb.consumed == old(txb.consumed) && ok
    ensures txb.tx == old(txb.tx).(unlockBlocks := SimpleUnlocks(|txb.consumed|))
  {
    var n := |txb.consumed|;
    ghost var all := SimpleUnlocks(n);
    assert all[..0] + NoUnlocks(n) == NoUnlocks(n);
    hide Grow, SimpleUnlocks, NoUnlocks;
    for i := 0 to n
      invariant txb.Valid() && txb.consumed == old(txb.consumed)
      invariant txb.tx == old(txb.tx).(unlockBlocks := all[..i] + NoUnlocks(n - i))
    {
      PutNext(all, i);
      SimpleUnlockIs(n, i);
      if i == 0 {
        ok := txb.PutSignatureUnlock(0, LOCK_BLOCK);
      } else {
        ok := txb.PutUnlockReference(i, LOCK_BLOCK, 0);
      }
      if !ok { return; }
    }
    AllPut(all);
    ok := true;
  }

  lemma AllPut(all: seq<seq<Bytes>>)
    ensures all[..|all|] + NoUnlocks(0) == all
  {
  }

  method ApplyUnlockData(txb: TransactionBuilder, data: seq<UnlockData>) returns (ok: bool)
    requires txb.Valid()
    modifies txb
    ensures txb.Valid() && txb.consumed == old(txb.consumed)
    ensures ok <==> ApplyUnlocks(old(txb.tx).unlockBlocks, data).Some?
    ensures ok ==> txb.tx == old(txb.tx).(unlockBlocks := ApplyUnlocks(old(txb.tx).unlockBlocks, data).value)
  {
    for i := 0 to |data|
      invariant txb.Valid() && txb.consumed == old(txb.consumed)
      invariant ApplyUnlocks(old(txb.tx).unlockBlocks, data[..i]).Some?
      invariant txb.tx == old(txb.tx).(unlockBlocks := ApplyUnlocks(old(txb.tx).unlockBlocks, data[..i]).value)
    {
      assert data[..i + 1][..i] == data[..i];
      var done := txb.PutUnlockParams(data[i].outputIndex, data[i].constraintIndex, data[i].data);
      if !done {
        ApplyUnlocksFails(old(txb.tx).unlockBlocks, data, i + 1);
        return false;
      }
    }
    assert data[..|data|] == data;
    return true;
  }

  lemma {:induction false} ApplyUnlocksFails(blocks: seq<seq<Bytes>>, data: seq<UnlockData>, n: nat)
    requires n <= |data| && ApplyUnlocks(blocks, data[..n]).None?
    ensures ApplyUnlocks(blocks, data).None?
    decreases |data| - n
  {
    if n < |data| {
      assert data[..n + 1][..n] == data[..n];
      ApplyUnlocksFails(blocks, data, n + 1);
    } else {
      assert data[..n] == data;
    }
  }

  /** The outputs chosen for the amount, if 256 suffice, as the selection describes them. */
  ghost predicate Chosen(e: Env, outs: seq<OutputWithID>, ts: nat, amount: nat, n: nat, available: nat, timestamp: nat)
    requires AllOutputs(e, outs)
  {
    && ShortestPrefix(e, outs, amount, n) && n <= MAX_CONSUMED
    && available == Available(e, outs, n) && timestamp == TimestampAfter(e, ts, outs, n)
  }

  /** The chosen outputs are determined by the list, the timestamp and the amount. */
  lemma ChosenIsUnique(e: Env, outs: seq<OutputWithID>, ts: nat, amount: nat, n: nat, available: nat, timestamp: nat,
                       n': nat, available': nat, timestamp': nat)
    requires AllOutputs(e, outs)
    requires Chosen(e, outs, ts, amount, n, available, timestamp)
    requires Chosen(e, outs, ts, amount, n', available', timestamp')
    ensures n == n' && available == available' && timestamp == timestamp'
  {
    hide ParsesAsOutput, Available, TimestampAfter;
  }

  /** The bytes of the transfer of `amount` that consumes `chosen`; None is an error or a panic. */
  function SimpleTransferBytes(e: Env, par: TransferData, amount: nat, available: nat, ts: nat,
                               chosen: seq<OutputWithID>): Option<Bytes> {
    if available < amount then None
    else
      var tx := SimpleTransaction(e, par, amount, available, ts, chosen);
      if tx.None? then None else TransactionBytes(tx.value)
  }

  /**
   Makes the bytes of the transfer. None is an error or a panic: 256 outputs or the whole
   list are not enough, or the transaction cannot be put together.
   */
  method MakeSimpleTransfer(e: Env, par: TransferData, outs: array<OutputWithID>)
    returns (r: Option<Bytes>, ghost n: nat, ghost available: nat, ghost ts: nat)
    requires AllOutputs(e, outs[..])
    modifies outs
    ensures outs[..] == old(outs[..])
    ensures AdjustedAmount(e, par).None? ==> r.None?
    ensures AdjustedAmount(e, par).Some? ==>
      var amount := AdjustedAmount(e, par).value;
      if Chosen(e, outs[..], par.timestamp, amount, n, available, ts)
      then r == SimpleTransferBytes(e, par, amount, available, ts, outs[..n])
      else r.None? && !exists k: nat :: k <= MAX_CONSUMED && ShortestPrefix(e, outs[..], amount, k)
  {
    hide ParsesAsOutput, ShortestPrefix, TimestampAfter, AdjustedAmount, SimpleTransaction, TransactionBytes, Available;
    n, available, ts := MAX_CONSUMED + 1, 0, 0;
    var adjusted := AdjustedAmount(e, par);
    if adjusted.None? { return None, n, available, ts; }
    var amount := adjusted.value;
    var selection := OutputsToConsume(e, outs, par.timestamp, amount);
    if selection.None? { return None, n, available, ts; }
    var (tokens, timestamp, count) := selection.value;
    n, available, ts := count, tokens, timestamp;
    PrefixFits(e, outs[..], amount, count);
    if tokens < amount { return None, n, available, ts; }
    r := BuildSimple(e, par, amount, tokens, timestamp, outs[..count]);
  }

  lemma PrefixFits(e: Env, outs: seq<OutputWithID>, amount: nat, n: nat)
    requires ShortestPrefix(e, outs, amount, n)
    ensures n <= |outs|
  {
  }

  /** Produces the remainder, if there is one, and the main output; false is an error or a panic. */
  method ProduceSimple(e: Env, txb: TransactionBuilder, par: TransferData, amount: nat, available: nat, ts: nat)
    returns (ok: bool)
    requires txb.Valid() && txb.tx.outputs == [] && amount <= available
    modifies txb
    ensures txb.Valid() && txb.consumed == old(txb.consumed)
    ensures ok == SimpleOutputs(e, par, amount, available, ts).Some?
    ensures ok ==> txb.tx == old(txb.tx).(outputs := SimpleOutputs(e, par, amount, available, ts).value)
  {
    hide NewOutputBytes, MainExtra;
    var main := MakeOutput(e, amount, ts, par.lock, MainExtra(e, par));
    if main.None? { return false; }
    if available > amount {
      var remainder := MakeOutput(e, available - amount, ts, par.sourceAccount, []);
      if remainder.None? { return false; }
      var _ := txb.ProduceOutput(remainder.value);
      assert [] + [remainder.value] + [main.value] == [remainder.value, main.value];
    }
    var _ := txb.ProduceOutput(main.value);
    assert [] + [main.value] == [main.value];
    return true;
  }

  method BuildSimple(e: Env, par: TransferData, amount: nat, available: nat, ts: nat, chosen: seq<OutputWithID>)
    returns (r: Option<Bytes>)
    requires amount <= available && |chosen| <= MAX_OUTPUTS
    ensures var tx := SimpleTransaction(e, par, amount, available, ts, chosen);
      r == if tx.Some? then TransactionBytes(tx.value) else None
  {
    hide TransactionBytes, Sealed, SimpleOutputs, ApplyUnlocks, SimpleUnlocks;
    var txb := new TransactionBuilder();
    var ok := ConsumeAll(txb, chosen);
    assert [] + OutputsOf(chosen) == OutputsOf(chosen) && [] + IDsOf(chosen) == IDsOf(chosen);
    assert [] + NoUnlocks(|chosen|) == NoUnlocks(|chosen|);
    ok := ProduceSimple(e, txb, par, amount, available, ts);
    if !ok { return None; }
    ok := UnlockAll(txb);
    ok := ApplyUnlockData(txb, par.unlockData);
    if !ok { return None; }
    ok := txb.Finish(e, par.key, ts);
    if !ok { return None; }
    r := SerializeTransaction(txb.tx);
  }
}
