/**
 The validation context of a transaction: the transaction bytes and the outputs it
 consumes, put together in one tree and addressed by paths.
 */
module Context {
  import opened Bytes
  import opened Codec
  import opened LazyTree

  // top-level branches
  const TRANSACTION_BRANCH: Byte := 0
  const CONSUMED_BRANCH: Byte := 1
  const CONSUMED_OUTPUTS: Byte := 0

  // elements of a transaction
  const TX_UNLOCK_PARAMS: Byte := 0
  const TX_INPUT_IDS: Byte := 1
  const TX_OUTPUTS: Byte := 2
  const TX_SIGNATURE: Byte := 3
  const TX_TIMESTAMP: Byte := 4
  const TX_INPUT_COMMITMENT: Byte := 5
  const TX_ENDORSEMENTS: Byte := 6
  const TX_LOCAL_LIBRARIES: Byte := 7
  const TX_TREE_INDEX_MAX: nat := 8

  // mandatory blocks of an output
  const AMOUNT_BLOCK: Byte := 0
  const TIMESTAMP_BLOCK: Byte := 1
  const LOCK_BLOCK: Byte := 2

  datatype Context = Context(txBytes: Bytes, consumed: seq<Bytes>)

  // ------------------------------------------------------------------ elements of a transaction

  function TxField(tx: Bytes, k: Byte): Option<Bytes> {
    Element(Some(tx), MAX_ELEMENTS, k)
  }

  /** All elements of a transaction field that is itself an array. */
  function TxList(tx: Bytes, k: Byte): (r: Option<seq<Bytes>>)
    ensures r.Some? ==> |r.value| <= MAX_ELEMENTS
  {
    var f := TxField(tx, k);
    if f.None? then None else Parse(f.value, MAX_ELEMENTS)
  }

  function InputIDs(tx: Bytes): (r: Option<seq<Bytes>>)
    ensures r.Some? ==> |r.value| <= MAX_ELEMENTS
  {
    TxList(tx, TX_INPUT_IDS)
  }

  function Outputs(tx: Bytes): (r: Option<seq<Bytes>>)
    ensures r.Some? ==> |r.value| <= MAX_ELEMENTS
  {
    TxList(tx, TX_OUTPUTS)
  }

  function Blocks(output: Bytes): (r: Option<seq<Bytes>>)
    ensures r.Some? ==> |r.value| <= MAX_ELEMENTS
  {
    Parse(output, MAX_ELEMENTS)
  }

  // ------------------------------------------------------------------ the context tree

  /** Serializing the consumed outputs for the tree can only fail on excessive size. */
  predicate Buildable(c: Context) {
    && |c.consumed| <= MAX_ELEMENTS
    && Encode(c.consumed).Some?
    && Encode([Encode(c.consumed).value]).Some?
  }

  function Root(c: Context): Doc
    requires Buildable(c)
  {
    var elements := [c.txBytes, Encode([Encode(c.consumed).value]).value];
    Doc(Encode(elements), Some(elements))
  }

  /** What the accessors below name: an output, its blocks, unlock data, input IDs. */
  function ConsumedOutput(c: Context, i: Byte): Option<Bytes> {
    Nth(Some(c.consumed), i)
  }

  function ProducedOutput(c: Context, i: Byte): Option<Bytes> {
    Nth(Outputs(c.txBytes), i)
  }

  function InputID(c: Context, i: Byte): Option<Bytes> {
    Nth(InputIDs(c.txBytes), i)
  }

  function UnlockBlock(c: Context, i: Byte): Option<Bytes> {
    Nth(TxList(c.txBytes, TX_UNLOCK_PARAMS), i)
  }

  lemma LookupCons(b: Option<Bytes>, i: Byte, path: Bytes)
    requires b.Some?
    ensures Lookup(b.value, [i] + path) ==
      var x := Element(b, MAX_ELEMENTS, i); if x.None? then None else Lookup(x.value, path)
  {
    assert ([i] + path)[1..] == path;
  }

  lemma LookupShort(b: Bytes, i: Byte, j: Byte, k: Byte)
    ensures Lookup(b, [i]) == Element(Some(b), MAX_ELEMENTS, i)
    ensures Lookup(b, [i, j]) == Element(Element(Some(b), MAX_ELEMENTS, i), MAX_ELEMENTS, j)
    ensures Lookup(b, [i, j, k]) ==
      Element(Element(Element(Some(b), MAX_ELEMENTS, i), MAX_ELEMENTS, j), MAX_ELEMENTS, k)
  {
    assert [i, j] == [i] + [j] && [i, j, k] == [i] + [j, k] && [j, k] == [j] + [k];
    assert [i] == [i] + [] && [j] == [j] + [] && [k] == [k] + [];
    LookupCons(Some(b), i, []);
    LookupCons(Some(b), i, [j]);
    LookupCons(Some(b), i, [j, k]);
    var x := Element(Some(b), MAX_ELEMENTS, i);
    if x.Some? {
      LookupCons(x, j, []);
      LookupCons(x, j, [k]);
      var y := Element(x, MAX_ELEMENTS, j);
      if y.Some? { LookupCons(y, k, []); }
    }
  }

  /** Paths into the transaction branch reach the elements of the transaction bytes. */
  lemma TransactionPaths(c: Context, k: Byte, i: Byte, j: Byte)
    requires Buildable(c)
    ensures AtPath(Root(c), [TRANSACTION_BRANCH, k]) == TxField(c.txBytes, k)
    ensures AtPath(Root(c), [TRANSACTION_BRANCH, k, i]) == Nth(TxList(c.txBytes, k), i)
    ensures AtPath(Root(c), [TRANSACTION_BRANCH, k, i, j]) == Element(Nth(TxList(c.txBytes, k), i), MAX_ELEMENTS, j)
  {
    LookupShort(c.txBytes, k, i, j);
    assert [TRANSACTION_BRANCH, k][1..] == [k];
    assert [TRANSACTION_BRANCH, k, i][1..] == [k, i];
    assert [TRANSACTION_BRANCH, k, i, j][1..] == [k, i, j];
  }

  /** Paths into the consumed branch reach the outputs fetched from the ledger, through two layers of encoding. */
  lemma ConsumedPaths(c: Context, i: Byte, j: Byte)
    requires Buildable(c)
    ensures AtPath(Root(c), [CONSUMED_BRANCH, CONSUMED_OUTPUTS]) == Encode(c.consumed)
    ensures AtPath(Root(c), [CONSUMED_BRANCH, CONSUMED_OUTPUTS, i]) == ConsumedOutput(c, i)
    ensures AtPath(Root(c), [CONSUMED_BRANCH, CONSUMED_OUTPUTS, i, j]) == Element(ConsumedOutput(c, i), MAX_ELEMENTS, j)
  {
    var all := Encode(c.consumed).value;
    var branch := Encode([all]).value;
    RoundTrip(c.consumed, MAX_ELEMENTS);
    RoundTrip([all], MAX_ELEMENTS);
    LookupShort(branch, CONSUMED_OUTPUTS, i, j);
    assert [CONSUMED_BRANCH, CONSUMED_OUTPUTS][1..] == [CONSUMED_OUTPUTS];
    assert [CONSUMED_BRANCH, CONSUMED_OUTPUTS, i][1..] == [CONSUMED_OUTPUTS, i];
    assert [CONSUMED_BRANCH, CONSUMED_OUTPUTS, i, j][1..] == [CONSUMED_OUTPUTS, i, j];
  }
}
