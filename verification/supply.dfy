/**
 Totals of the unspent amounts: what deleting inputs and adding outputs does to the
 ledger and to its total, and why a transaction with outputs has inputs.
 */
module Supply {
  import opened Bytes
  import opened LazyTree
  import opened Context
  import opened Constraints
  import opened Validation
  import opened Ledger

  /** The state after the first `n` of the submitted transactions. */
  function RunTo(e: Env, s: State, txs: seq<Bytes>, n: nat): State
    requires n <= |txs|
  {
    if n == 0 then s else Step(e, RunTo(e, s, txs, n - 1), txs[n - 1])
  }

  ghost predicate CollisionFree(e: Env, txs: seq<Bytes>) {
    && (forall a {:trigger e.blake2b(txs[a])} :: 0 <= a < |txs| ==> e.blake2b(txs[a]) != Zeros(32))
    && (forall a, b {:trigger e.blake2b(txs[a]), e.blake2b(txs[b])} ::
          0 <= a < |txs| && 0 <= b < |txs| && e.blake2b(txs[a]) == e.blake2b(txs[b]) ==> txs[a] == txs[b])
  }

  // ------------------------------------------------------------------ totals of a map

  ghost function Total(e: Env, m: UTXOs): nat {
    if m == map[] then 0 else
      var k :| k in m;
      AmountIn(e, m[k]) + Total(e, m - {k})
  }

  lemma {:induction false} TotalRemove(e: Env, m: UTXOs, k: Bytes)
    requires k in m
    ensures Total(e, m) == AmountIn(e, m[k]) + Total(e, m - {k})
    decreases |m|
  {
    hide AmountIn;
    var j :| j in m && Total(e, m) == AmountIn(e, m[j]) + Total(e, m - {j});
    if j != k {
      TotalRemove(e, m - {j}, k);
      TotalRemove(e, m - {k}, j);
      assert m - {j} - {k} == m - {k} - {j};
    }
  }

  lemma TotalAdd(e: Env, m: UTXOs, k: Bytes, v: Bytes)
    requires k !in m
    ensures Total(e, m[k := v]) == Total(e, m) + AmountIn(e, v)
  {
    TotalRemove(e, m[k := v], k);
    assert m[k := v] - {k} == m;
  }

  lemma {:induction false} DeleteToContents(m: UTXOs, ids: seq<Bytes>, n: nat)
    requires n <= |ids|
    ensures forall id :: id in DeleteTo(m, ids, n) <==> id in m && id !in ids[..n]
    ensures forall id :: id in DeleteTo(m, ids, n) ==> DeleteTo(m, ids, n)[id] == m[id]
  {
    if n == 0 {
    } else {
      DeleteToContents(m, ids, n - 1);
      assert ids[..n] == ids[..n - 1] + [ids[n - 1]];
    }
  }

  lemma {:induction false} DeleteToTotal(e: Env, m: UTXOs, ids: seq<Bytes>, n: nat)
    requires n <= |ids| && InputsOK(m, ids)
    ensures Total(e, DeleteTo(m, ids, n)) + SumTo(e, Fetched(m, ids), n) == Total(e, m)
  {
    hide AmountIn, Total;
    if n > 0 {
      DeleteToTotal(e, m, ids, n - 1);
      DeleteToContents(m, ids, n - 1);
      var id, rest := ids[n - 1], DeleteTo(m, ids, n - 1);
      assert id !in ids[..n - 1];
      TotalRemove(e, rest, id);
      assert rest[id] == m[id] == Fetched(m, ids)[n - 1];
    } else {
      assert DeleteTo(m, ids, 0) == m;
    }
  }

  /** `id` is the ID of one of the first `n` outputs of the transaction with ID `txid`. */
  predicate KeyOf(txid: Bytes, n: nat, id: Bytes) {
    |id| == |txid| + 1 && id[..|txid|] == txid && id[|txid|] < n
  }

  lemma OutputIDIsKey(txid: Bytes, i: Byte, n: nat)
    ensures KeyOf(txid, n, OutputID(txid, i)) <==> i < n
    ensures OutputID(txid, i)[|txid|] == i
  {
    assert OutputID(txid, i)[..|txid|] == txid;
  }

  lemma KeyIsOutputID(txid: Bytes, n: nat, id: Bytes)
    requires KeyOf(txid, n, id)
    ensures id == OutputID(txid, id[|txid|])
  {
    assert id == id[..|txid|] + [id[|txid|]];
  }

  lemma {:induction false} PutToContents(m: UTXOs, txid: Bytes, outputs: seq<Bytes>, n: nat)
    requires n <= |outputs| <= MAX_ELEMENTS
    ensures forall id :: id in PutTo(m, txid, outputs, n) <==> id in m || KeyOf(txid, n, id)
    ensures forall id :: KeyOf(txid, n, id) ==> PutTo(m, txid, outputs, n)[id] == outputs[id[|txid|]]
    ensures forall id :: id in m && !KeyOf(txid, n, id) ==> PutTo(m, txid, outputs, n)[id] == m[id]
  {
    if n == 0 {
    } else {
      PutToContents(m, txid, outputs, n - 1);
      OutputIDIsKey(txid, n - 1, n);
      forall id | KeyOf(txid, n, id) && !KeyOf(txid, n - 1, id)
        ensures id == OutputID(txid, n - 1)
      {
        KeyIsOutputID(txid, n, id);
      }
    }
  }

  lemma {:induction false} PutToTotal(e: Env, m: UTXOs, txid: Bytes, outputs: seq<Bytes>, n: nat)
    requires n <= |outputs| <= MAX_ELEMENTS
    requires forall id :: KeyOf(txid, n, id) ==> id !in m
    ensures Total(e, PutTo(m, txid, outputs, n)) == Total(e, m) + SumTo(e, outputs, n)
  {
    hide AmountIn, Total;
    if n == 0 {
    } else {
      assert forall id :: KeyOf(txid, n - 1, id) ==> KeyOf(txid, n, id);
      PutToTotal(e, m, txid, outputs, n - 1);
      PutToContents(m, txid, outputs, n - 1);
      OutputIDIsKey(txid, n - 1, n);
      OutputIDIsKey(txid, n - 1, n - 1);
      TotalAdd(e, PutTo(m, txid, outputs, n - 1), OutputID(txid, n - 1), outputs[n - 1]);
    }
  }

  // ------------------------------------------------------------------ one accepted transaction

  /** `id` is the ID of an output of `tx`. */
  predicate Produces(e: Env, tx: Bytes, id: Bytes) {
    Outputs(tx).Some? && KeyOf(e.blake2b(tx), |Outputs(tx).value|, id)
  }

  function ProducedAt(e: Env, tx: Bytes, id: Bytes): Bytes
    requires Produces(e, tx, id)
  {
    Outputs(tx).value[id[|e.blake2b(tx)|]]
  }

  predicate Consumes(tx: Bytes, id: Bytes) {
    InputIDs(tx).Some? && id in InputIDs(tx).value
  }

  /** The state after an accepted transaction, key by key. */
  lemma ApplyContents(e: Env, utxos: UTXOs, tx: Bytes)
    requires InputIDs(tx).Some? && Outputs(tx).Some?
    ensures var next := Apply(e, utxos, tx);
      && (forall id :: id in next <==> (id in utxos && !Consumes(tx, id)) || Produces(e, tx, id))
      && (forall id :: Produces(e, tx, id) ==> next[id] == ProducedAt(e, tx, id))
      && (forall id :: id in utxos && !Consumes(tx, id) && !Produces(e, tx, id) ==> next[id] == utxos[id])
  {
    hide InputIDs, Outputs, KeyOf;
    var ids, outputs := InputIDs(tx).value, Outputs(tx).value;
    assert ids[..|ids|] == ids;
    DeleteToContents(utxos, ids, |ids|);
    PutToContents(DeleteTo(utxos, ids, |ids|), e.blake2b(tx), outputs, |outputs|);
  }

  /** An output in order carries at least one token, because its deposit is its size. */
  lemma {:induction false} SumPositive(e: Env, c: Context, consumed: bool, outputs: seq<Bytes>, n: nat)
    requires n <= |outputs| <= MAX_ELEMENTS && OutputsOK(e, c, consumed, outputs)
    ensures SumTo(e, outputs, n) >= n
  {
    hide OutputOK, AmountIn;
    if n == 0 {
    } else {
      SumPositive(e, c, consumed, outputs, n - 1);
      AmountPositive(e, c, consumed, n - 1, outputs[n - 1]);
    }
  }

  lemma {:induction false} AmountPositive(e: Env, c: Context, consumed: bool, i: Byte, output: Bytes)
    requires OutputOK(e, c, consumed, i, output)
    ensures AmountIn(e, output) >= |output| >= 2
  {
    hide RunsOK, IndexOK, AmountOf;
  }

  /** Every accepted transaction that produces outputs consumes inputs. */
  lemma OutputsNeedInputs(e: Env, utxos: UTXOs, tx: Bytes)
    requires Accepts(e, utxos, tx) && InputIDs(tx).Some? && Outputs(tx).Some?
    ensures Outputs(tx).value != [] ==> InputIDs(tx).value != []
  {
    AcceptedParses(e, utxos, tx);
    var c := MakeContext(utxos, tx).value;
    hide MakeContext, InputIDs, Outputs, OutputOK, AmountIn;
    SumPositive(e, c, false, Outputs(tx).value, |Outputs(tx).value|);
  }
}
