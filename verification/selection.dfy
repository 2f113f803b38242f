/**
 Choosing the outputs to consume: the shortest prefix of the list that reaches the
 amount, found by appending to a slice that shares its memory with the list.
 */
module Selection {
  import opened Bytes
  import opened Constraints
  import opened Validation
  import opened Ledger
  import opened Supply
  import opened UTXODatabase
  import opened OutputView

  datatype OutputWithID = OutputWithID(id: Bytes, output: Bytes)

  const MAX_CONSUMED: nat := 256

  ghost predicate AllOutputs(e: Env, outs: seq<OutputWithID>) {
    forall k :: 0 <= k < |outs| ==> ParsesAsOutput(e, outs[k].output)
  }

  /** The exact sum of the first `n` amounts. */
  function PrefixSum(e: Env, outs: seq<OutputWithID>, n: nat): nat
    requires n <= |outs|
  {
    if n == 0 then 0 else PrefixSum(e, outs, n - 1) + AmountIn(e, outs[n - 1].output)
  }

  /** The sum of the first `n` amounts in 64-bit arithmetic. */
  function Available(e: Env, outs: seq<OutputWithID>, n: nat): nat
    requires n <= |outs|
  {
    if n == 0 then 0 else AddUint64(Available(e, outs, n - 1), AmountIn(e, outs[n - 1].output))
  }

  /** The transaction timestamp after the first `n` outputs, in 32-bit arithmetic. */
  function TimestampAfter(e: Env, ts: nat, outs: seq<OutputWithID>, n: nat): nat
    requires n <= |outs| && forall k :: 0 <= k < n ==> ParsesAsOutput(e, outs[k].output)
  {
    if n == 0 then ts
    else
      var before := TimestampAfter(e, ts, outs, n - 1);
      var t := TimestampIn(e, outs[n - 1].output);
      if t >= before then AddUint32(t, 1) else before
  }

  /** `n` is the length of the shortest non-empty prefix that reaches the amount, or of the whole list. */
  ghost predicate ShortestPrefix(e: Env, outs: seq<OutputWithID>, amount: nat, n: nat) {
    && n <= |outs|
    && (outs != [] ==> n > 0)
    && (forall k :: 0 < k < n ==> Available(e, outs, k) < amount)
    && (n < |outs| ==> Available(e, outs, n) >= amount)
  }

  /** `t` is the least timestamp from `base` on that is later than outputs `m` to `n`. */
  ghost predicate LeastLater(e: Env, base: nat, outs: seq<OutputWithID>, m: nat, n: nat, t: nat)
    requires m <= n <= |outs| && AllOutputs(e, outs)
  {
    && base <= t && Later(e, outs, m, n, t)
    && forall u: nat :: base <= u && Later(e, outs, m, n, u) ==> t <= u
  }

  ghost predicate Later(e: Env, outs: seq<OutputWithID>, m: nat, n: nat, t: nat)
    requires m <= n <= |outs| && AllOutputs(e, outs)
  {
    forall k :: m <= k < n ==> TimestampIn(e, outs[k].output) < t
  }

  /** None of the outputs `m` to `n` has the largest 32-bit timestamp. */
  ghost predicate NoneLast(e: Env, outs: seq<OutputWithID>, m: nat, n: nat)
    requires m <= n <= |outs| && AllOutputs(e, outs)
  {
    forall k :: m <= k < n ==> TimestampIn(e, outs[k].output) != 0xFFFF_FFFF
  }

  /**
   The sum, the timestamp and the number of the chosen outputs; None when 256 of them
   are not enough. The list is unchanged, although the chosen outputs are written over it.
   */
  method OutputsToConsume(e: Env, outs: array<OutputWithID>, ts: nat, amount: nat) returns (r: Option<(nat, nat, nat)>)
    requires AllOutputs(e, outs[..])
    modifies outs
    ensures outs[..] == old(outs[..])
    ensures r.Some? ==>
      var (available, timestamp, n) := r.value;
      ShortestPrefix(e, outs[..], amount, n) && n <= MAX_CONSUMED
      && available == Available(e, outs[..], n) && timestamp == TimestampAfter(e, ts, outs[..], n)
    ensures r.Some? && ts <= MAX_UINT32 && NoneLast(e, outs[..], 0, r.value.2) ==>
      LeastLater(e, ts, outs[..], 0, r.value.2, r.value.1)
    ensures r.None? ==> !exists n: nat :: n <= MAX_CONSUMED && ShortestPrefix(e, outs[..], amount, n)
    ensures r.None? <==> outs.Length > 256 && forall k :: 0 < k <= 256 ==> Available(e, outs[..], k) < amount
  {
    hide ParsesAsOutput, AmountIn, TimestampIn, TimestampAfter, Available, LeastLater, NoneLast;
    ghost var all := outs[..];
    StartOfList(e, all, ts);
    var timestamp, available: nat, n := ts, 0, 0;
    for i := 0 to outs.Length
      invariant n == i && outs[..] == all
      invariant forall k :: 0 < k <= i ==> Available(e, all, k) < amount
      invariant i <= MAX_CONSUMED
      invariant available == Available(e, all, i) && timestamp == TimestampAfter(e, ts, all, i)
    {
      var o := outs[i];
      assert o == all[i];
      if n >= MAX_CONSUMED { return None; }
      NextOfList(e, all, ts, i);
      outs[n] := o;
      if TimestampIn(e, o.output) >= timestamp {
        timestamp := AddUint32(TimestampIn(e, o.output), 1);
      }
      n := n + 1;
      available := AddUint64(available, AmountIn(e, o.output));
      if available >= amount { break; }
    }
    if ts <= MAX_UINT32 && NoneLast(e, all, 0, n) {
      TimestampIsLeast(e, ts, all, 0, n);
    }
    return Some((available, timestamp, n));
  }

  lemma StartOfList(e: Env, outs: seq<OutputWithID>, ts: nat)
    ensures Available(e, outs, 0) == 0 && TimestampAfter(e, ts, outs, 0) == ts
  {
  }

  /** What one more output adds to the sum and to the timestamp. */
  lemma NextOfList(e: Env, outs: seq<OutputWithID>, ts: nat, i: nat)
    requires i < |outs| && AllOutputs(e, outs)
    ensures Available(e, outs, i + 1) == AddUint64(Available(e, outs, i), AmountIn(e, outs[i].output))
    ensures var before, t := TimestampAfter(e, ts, outs, i), TimestampIn(e, outs[i].output);
      TimestampAfter(e, ts, outs, i + 1) == if t >= before then AddUint32(t, 1) else before
  {
    hide ParsesAsOutput, AmountIn, TimestampIn;
  }

  // ------------------------------------------------------------------ what the unchecked arithmetic gives

  lemma {:induction false} AvailableIsSum(e: Env, outs: seq<OutputWithID>, n: nat)
    requires n <= |outs| && PrefixSum(e, outs, n) <= MAX_UINT64
    ensures Available(e, outs, n) == PrefixSum(e, outs, n)
  {
    hide AmountIn;
    if n == 0 {
    } else {
      AvailableIsSum(e, outs, n - 1);
    }
  }

  /** Outputs listed from the ledger, each once. */
  ghost predicate FromLedger(utxos: UTXOs, outs: seq<OutputWithID>) {
    && (forall k :: 0 <= k < |outs| ==> outs[k].id in utxos && utxos[outs[k].id] == outs[k].output)
    && (forall j, k :: 0 <= j < k < |outs| ==> outs[j].id != outs[k].id)
  }

  lemma {:induction false} PrefixSumBounded(e: Env, utxos: UTXOs, outs: seq<OutputWithID>, n: nat)
    requires FromLedger(utxos, outs) && n <= |outs|
    ensures PrefixSum(e, outs, n) <= Total(e, utxos)
  {
    var part := PrefixMap(outs, n);
    PrefixMapTotal(e, utxos, outs, n);
    TotalPart(e, part, utxos);
  }

  function PrefixMap(outs: seq<OutputWithID>, n: nat): UTXOs
    requires n <= |outs|
  {
    if n == 0 then map[] else PrefixMap(outs, n - 1)[outs[n - 1].id := outs[n - 1].output]
  }

  lemma {:induction false} PrefixMapTotal(e: Env, utxos: UTXOs, outs: seq<OutputWithID>, n: nat)
    requires FromLedger(utxos, outs) && n <= |outs|
    ensures forall id :: id in PrefixMap(outs, n) <==> exists k :: 0 <= k < n && outs[k].id == id
    ensures forall id :: id in PrefixMap(outs, n) ==> id in utxos && PrefixMap(outs, n)[id] == utxos[id]
    ensures Total(e, PrefixMap(outs, n)) == PrefixSum(e, outs, n)
  {
    hide AmountIn, Total;
    if n == 0 {
      TotalEmpty(e);
    } else {
      PrefixMapTotal(e, utxos, outs, n - 1);
      TotalAdd(e, PrefixMap(outs, n - 1), outs[n - 1].id, outs[n - 1].output);
    }
  }

  /**
   The chosen sum is exact for distinct outputs of a ledger whose total fits in 64 bits,
   as every reachable one does.
   */
  lemma SelectionSumIsExact(e: Env, utxos: UTXOs, outs: seq<OutputWithID>, n: nat)
    requires FromLedger(utxos, outs) && n <= |outs| && Total(e, utxos) <= MAX_UINT64
    ensures Available(e, outs, n) == PrefixSum(e, outs, n)
  {
    PrefixSumBounded(e, utxos, outs, n);
    AvailableIsSum(e, outs, n);
  }

  /** The transaction timestamp never goes back, unless an output has the largest one. */
  lemma {:induction false} TimestampBounds(e: Env, ts: nat, outs: seq<OutputWithID>, n: nat)
    requires n <= |outs| && ts <= MAX_UINT32 && AllOutputs(e, outs)
    ensures TimestampAfter(e, ts, outs, n) <= MAX_UINT32
    ensures (forall k :: 0 <= k < n ==> TimestampIn(e, outs[k].output) < MAX_UINT32) ==>
      ts <= TimestampAfter(e, ts, outs, n) && forall k :: 0 <= k < n ==>
        TimestampIn(e, outs[k].output) < TimestampAfter(e, ts, outs, n)
  {
    hide ParsesAsOutput, TimestampIn;
    if n == 0 {
    } else {
      TimestampBounds(e, ts, outs, n - 1);
      TimestampFits(e, outs[n - 1].output);
    }
  }

  /**
   The chosen timestamp is later than that of every chosen output exactly when none of
   them has the largest 32-bit timestamp, after which adding one wraps around to zero.
   */
  lemma TimestampIsLater(e: Env, ts: nat, outs: seq<OutputWithID>, n: nat)
    requires n <= |outs| && ts <= MAX_UINT32 && AllOutputs(e, outs)
    ensures (forall k :: 0 <= k < n ==> TimestampIn(e, outs[k].output) < TimestampAfter(e, ts, outs, n))
      <==> (forall k :: 0 <= k < n ==> TimestampIn(e, outs[k].output) != MAX_UINT32)
  {
    hide ParsesAsOutput, TimestampIn;
    TimestampBounds(e, ts, outs, n);
    forall k | 0 <= k < n
      ensures TimestampIn(e, outs[k].output) <= MAX_UINT32
    {
      TimestampFits(e, outs[k].output);
    }
  }

  /**
   What the chosen timestamp is: with no largest timestamp among the chosen outputs, the
   least one that is not before `ts` and later than all of them. Adding one to the
   largest timestamp gives zero, and the search starts again from there.
   */
  lemma {:induction false} TimestampIsLeast(e: Env, ts: nat, outs: seq<OutputWithID>, m: nat, n: nat)
    requires m <= n <= |outs| && AllOutputs(e, outs) && ts <= MAX_UINT32 && NoneLast(e, outs, m, n)
    requires m > 0 ==> TimestampIn(e, outs[m - 1].output) == 0xFFFF_FFFF
    ensures LeastLater(e, if m == 0 then ts else 0, outs, m, n, TimestampAfter(e, ts, outs, n))
  {
    hide ParsesAsOutput, TimestampIn;
    TimestampBounds(e, ts, outs, n);
    if n == m {
      if m > 0 {
        TimestampBounds(e, ts, outs, n - 1);
      }
    } else {
      TimestampIsLeast(e, ts, outs, m, n - 1);
      TimestampFits(e, outs[n - 1].output);
      var t, before := TimestampAfter(e, ts, outs, n), TimestampAfter(e, ts, outs, n - 1);
      forall u: nat | (if m == 0 then ts else 0) <= u && Later(e, outs, m, n, u)
        ensures t <= u
      {
        assert Later(e, outs, m, n - 1, u);
      }
    }
  }

  /**
   In other words: it is `ts` if and only if all chosen outputs are older than that, and
   otherwise one more than the largest of their timestamps.
   */
  lemma {:induction false} LeastLaterIs(e: Env, ts: nat, outs: seq<OutputWithID>, n: nat, t: nat)
    requires n <= |outs| && AllOutputs(e, outs)
    ensures LeastLater(e, ts, outs, 0, n, t) <==>
      if Later(e, outs, 0, n, ts) then t == ts
      else
        && (exists k :: 0 <= k < n && t == TimestampIn(e, outs[k].output) + 1)
        && (forall k :: 0 <= k < n ==> TimestampIn(e, outs[k].output) + 1 <= t)
  {
    hide ParsesAsOutput, TimestampIn;
    if LeastLater(e, ts, outs, 0, n, t) && !Later(e, outs, 0, n, ts) {
      assert t > ts && !Later(e, outs, 0, n, (t - 1) as nat);
      var k :| 0 <= k < n && TimestampIn(e, outs[k].output) >= t - 1;
      assert t == TimestampIn(e, outs[k].output) + 1;
    }
  }

  /** The first `k` outputs reach the amount, in exact arithmetic. */
  predicate Reaches(e: Env, outs: seq<OutputWithID>, amount: nat, k: nat)
    requires k <= |outs|
  {
    PrefixSum(e, outs, k) >= amount
  }

  /**
   Which outputs are chosen: the least number of them, and at least one, that reaches the
   amount, or all if they do not.
   */
  lemma {:induction false} ShortestPrefixIs(e: Env, utxos: UTXOs, outs: seq<OutputWithID>, amount: nat, n: nat)
    requires FromLedger(utxos, outs) && Total(e, utxos) <= MAX_UINT64
    ensures ShortestPrefix(e, outs, amount, n) <==>
      && n <= |outs|
      && (forall k :: 0 < k < n ==> !Reaches(e, outs, amount, k))
      && (if n < |outs| then n > 0 && Reaches(e, outs, amount, n) else n == |outs|)
  {
    hide FromLedger, Total, Available, PrefixSum;
    forall k | 0 <= k <= |outs|
      ensures Reaches(e, outs, amount, k) <==> Available(e, outs, k) >= amount
    {
      SelectionSumIsExact(e, utxos, outs, k);
    }
    assert outs != [] <==> |outs| > 0;
  }
}
