/**
 Building transactions. The builder collects inputs, outputs and unlock data and
 serializes them; the signature and the input commitment it stores are computed from
 the same bytes the validator will look at.
 */
module Builder {
  import opened Bytes
  import opened Codec
  import opened LazyTree
  import opened LazyArray
  import opened Context
  import opened Constraints
  import opened Validation

  const MAX_OUTPUTS: nat := 256

  /** Outputs are given by their bytes, unlock blocks by their elements. */
  datatype Transaction = Transaction(
    inputIDs: seq<Bytes>,
    outputs: seq<Bytes>,
    unlockBlocks: seq<seq<Bytes>>,
    signature: Bytes,
    timestamp: nat,
    inputCommitment: Bytes,
    endorsements: seq<Bytes>,
    localLibraries: seq<Bytes>
  )

  const EMPTY_TRANSACTION := Transaction([], [], [], [], 0, Zeros(32), [], [])

  /** Serializing with at most 256 elements; None is a panic. */
  function EncodeUpTo256(xs: seq<Bytes>): Option<Bytes> {
    if |xs| <= MAX_OUTPUTS then Encode(xs) else None
  }

  function EncodeAll(xss: seq<seq<Bytes>>): Option<seq<Bytes>> {
    if xss == [] then Some([])
    else
      match EncodeAll(xss[..|xss| - 1])
      case None => None
      case Some(front) =>
        match EncodeUpTo256(xss[|xss| - 1]) case None => None case Some(last) => Some(front + [last])
  }

  function ToArray(tx: Transaction): Option<seq<Bytes>> {
    var blocks := EncodeAll(tx.unlockBlocks);
    var unlock := if blocks.Some? then EncodeUpTo256(blocks.value) else None;
    var inputIDs := EncodeUpTo256(tx.inputIDs);
    var outputs := EncodeUpTo256(tx.outputs);
    var endorsements := EncodeUpTo256(tx.endorsements);
    var libraries := Encode(tx.localLibraries);
    if unlock.None? || inputIDs.None? || outputs.None? || endorsements.None? || libraries.None? then None
    else Some([unlock.value, inputIDs.value, outputs.value, tx.signature, BigEndian(tx.timestamp, 4),
               tx.inputCommitment, endorsements.value, libraries.value])
  }

  function TransactionBytes(tx: Transaction): Option<Bytes> {
    var elements := ToArray(tx);
    if elements.None? then None else Encode(elements.value)
  }

  /** What the builder signs. */
  function EssenceBytes(tx: Transaction): Option<Bytes> {
    var a := ToArray(tx);
    if a.None? then None
    else Some(a.value[TX_INPUT_IDS] + a.value[TX_OUTPUTS] + a.value[TX_INPUT_COMMITMENT])
  }

  function InputCommitment(e: Env, consumed: seq<Bytes>): Option<Bytes> {
    var b := EncodeUpTo256(consumed);
    if b.None? then None else Some(e.blake2b(b.value))
  }

  // ------------------------------------------------------------------ the validator reads what the builder wrote

  lemma {:induction false} EncodeAllElements(xss: seq<seq<Bytes>>)
    requires EncodeAll(xss).Some?
    ensures |EncodeAll(xss).value| == |xss|
    ensures forall i :: 0 <= i < |xss| ==> EncodeUpTo256(xss[i]) == Some(EncodeAll(xss).value[i])
  {
    hide EncodeUpTo256;
    if xss == [] {
    } else {
      EncodeAllElements(xss[..|xss| - 1]);
    }
  }

  /** Every field of the serialized transaction is the one the builder put there. */
  lemma FieldsAgree(tx: Transaction, k: Byte)
    requires TransactionBytes(tx).Some?
    ensures Parse(TransactionBytes(tx).value, TX_TREE_INDEX_MAX).Some?
    ensures TxField(TransactionBytes(tx).value, k) == Nth(ToArray(tx), k)
  {
    hide Parse, Encode, EncodeAll, EncodeUpTo256;
    var a := ToArray(tx).value;
    assert Encode(a).Some? ==> Encodable(a) by { EncodesMeansEncodable(a); }
    RoundTrip(a, TX_TREE_INDEX_MAX);
    RoundTrip(a, MAX_ELEMENTS);
  }

  lemma ListAgrees(xs: seq<Bytes>)
    requires EncodeUpTo256(xs).Some?
    ensures Parse(EncodeUpTo256(xs).value, MAX_ELEMENTS) == Some(xs)
  {
    hide Parse, Encode;
    EncodesMeansEncodable(xs);
    RoundTrip(xs, MAX_ELEMENTS);
  }

  /** The lists the validator finds in the bytes are the builder's. */
  lemma ListsAgree(tx: Transaction)
    requires TransactionBytes(tx).Some?
    ensures var b := TransactionBytes(tx).value;
      && InputIDs(b) == Some(tx.inputIDs)
      && Outputs(b) == Some(tx.outputs)
      && TxList(b, TX_UNLOCK_PARAMS) == EncodeAll(tx.unlockBlocks)
      && TxField(b, TX_SIGNATURE) == Some(tx.signature)
      && TxField(b, TX_TIMESTAMP) == Some(BigEndian(tx.timestamp, 4))
      && TxField(b, TX_INPUT_COMMITMENT) == Some(tx.inputCommitment)
      && TxList(b, TX_ENDORSEMENTS) == Some(tx.endorsements)
      && TxField(b, TX_LOCAL_LIBRARIES) == Encode(tx.localLibraries)
  {
    hide Parse, Encode, EncodeAll, TxField;
    FieldsAgree(tx, TX_UNLOCK_PARAMS);
    FieldsAgree(tx, TX_INPUT_IDS);
    FieldsAgree(tx, TX_OUTPUTS);
    FieldsAgree(tx, TX_SIGNATURE);
    FieldsAgree(tx, TX_TIMESTAMP);
    FieldsAgree(tx, TX_INPUT_COMMITMENT);
    FieldsAgree(tx, TX_ENDORSEMENTS);
    FieldsAgree(tx, TX_LOCAL_LIBRARIES);
    ListAgrees(tx.endorsements);
    ListAgrees(tx.inputIDs);
    ListAgrees(tx.outputs);
    ListAgrees(EncodeAll(tx.unlockBlocks).value);
  }

  /** The unlock data the validator finds by path is the builder's. */
  lemma {:induction false} UnlockAgrees(tx: Transaction, c: Context, i: Byte, j: Byte)
    requires TransactionBytes(tx) == Some(c.txBytes) && i < |tx.unlockBlocks| && j < |tx.unlockBlocks[i]|
    ensures SelfUnlock(c, Place(true, i, j)) == Some(tx.unlockBlocks[i][j])
    ensures UnlockParamsByConstraintIndex(c, Some([i, j])) == Some(tx.unlockBlocks[i][j])
  {
    hide Parse, Encode, EncodeAll, TxList, TransactionBytes;
    UnlockEncoded(tx);
    EncodeAllElements(tx.unlockBlocks);
    ListsAgree(tx);
    ListAgrees(tx.unlockBlocks[i]);
    ParseMonotone(EncodeUpTo256(tx.unlockBlocks[i]).value, MAX_ELEMENTS, MAX_ARRAY_LEN);
    assert [i, j][0..1] == [i] && [i, j][1..2] == [j];
  }

  lemma UnlockEncoded(tx: Transaction)
    requires TransactionBytes(tx).Some?
    ensures EncodeAll(tx.unlockBlocks).Some?
  {
  }

  /**
   Builder and validator agree: the essence the builder signs is the essence the
   validator takes from the tree of the serialized transaction.
   */
  lemma {:induction false} EssenceAgrees(tx: Transaction)
    requires TransactionBytes(tx).Some?
    ensures EssenceBytes(tx).Some? && TxEssence(TransactionBytes(tx).value) == EssenceBytes(tx)
  {
    hide Parse, Encode, EncodeAll, EncodeUpTo256, TxField;
    FieldsAgree(tx, TX_INPUT_IDS);
    FieldsAgree(tx, TX_OUTPUTS);
    FieldsAgree(tx, TX_INPUT_COMMITMENT);
  }

  /**
   The commitment the builder computes is the one the validator recomputes from the
   tree, provided the outputs fetched from the ledger are the ones the builder consumed.
   */
  lemma {:induction false} CommitmentAgrees(e: Env, tx: Transaction, c: Context)
    requires TransactionBytes(tx) == Some(c.txBytes) && Buildable(c)
    ensures InputCommitment(e, c.consumed).Some?
    ensures CommitmentOK(e, c) <==> Some(tx.inputCommitment) == InputCommitment(e, c.consumed)
    ensures CommitmentOK(e, c) <==>
      Some(tx.inputCommitment) == Blake2b(e, AtPath(Root(c), [CONSUMED_BRANCH, CONSUMED_OUTPUTS]))
  {
    hide Parse, Encode, TransactionBytes, TxField;
    ListsAgree(tx);
    ConsumedPaths(c, 0, 0);
  }

  // ------------------------------------------------------------------ building

  lemma EmptyEncoding()
    ensures Encode([]) == Some([0, 0])
  {
    assert BigEndian(0, 2) == [0, 0];
    assert Prefix(0, 0) + Body([], 0) == [0, 0];
  }

  /** Serializes a list through an array of at most `max` elements; None is a panic. */
  method SerializeUpTo(xs: seq<Bytes>, max: nat) returns (r: Option<Bytes>)
    ensures r == if |xs| <= max then Encode(xs) else None
  {
    hide Parse;
    var arr := new Array.Empty(max);
    for i := 0 to |xs|
      invariant arr.Valid() && fresh(arr) && arr.max == max
      invariant arr.Contents() == Some(xs[..i]) && i <= max
      invariant if i == 0 then arr.parsed == None && arr.bytes == Some([0, 0])
                else arr.parsed == Some(xs[..i]) && arr.bytes == None
    {
      assert xs[..i + 1] == xs[..i] + [xs[i]];
      var pushed := arr.Push(xs[i]);
      if pushed.None? { return None; }
    }
    assert xs[..|xs|] == xs;
    EmptyEncoding();
    var ok, b := arr.GetBytes();
    if !ok { return None; }
    return b;
  }

  method SerializeList(xs: seq<Bytes>) returns (r: Option<Bytes>)
    ensures r == EncodeUpTo256(xs)
  {
    r := SerializeUpTo(xs, MAX_OUTPUTS);
  }

  method SerializeBlocks(xss: seq<seq<Bytes>>) returns (r: Option<seq<Bytes>>)
    ensures r == EncodeAll(xss)
  {
    hide EncodeUpTo256;
    var blocks: seq<Bytes> := [];
    for i := 0 to |xss|
      invariant EncodeAll(xss[..i]) == Some(blocks)
    {
      assert xss[..i + 1][..i] == xss[..i];
      var b := SerializeList(xss[i]);
      if b.None? {
        EncodeAllFails(xss, i + 1);
        return None;
      }
      blocks := blocks + [b.value];
    }
    assert xss[..|xss|] == xss;
    return Some(blocks);
  }

  lemma {:induction false} EncodeAllFails(xss: seq<seq<Bytes>>, n: nat)
    requires n <= |xss| && EncodeAll(xss[..n]).None?
    ensures EncodeAll(xss).None?
    decreases |xss| - n
  {
    if n == |xss| {
      assert xss[..n] == xss;
    } else {
      assert xss[..n + 1][..n] == xss[..n];
      EncodeAllFails(xss, n + 1);
    }
  }

  /** The elements of the transaction tree; None is a panic. */
  method SerializeFields(tx: Transaction) returns (r: Option<seq<Bytes>>)
    ensures r == ToArray(tx)
  {
    hide EncodeAll, EncodeUpTo256, Encode;
    var blocks := SerializeBlocks(tx.unlockBlocks);
    if blocks.None? { return None; }
    var unlock := SerializeList(blocks.value);
    var inputIDs := SerializeList(tx.inputIDs);
    var outputs := SerializeList(tx.outputs);
    var endorsements := SerializeList(tx.endorsements);
    var libraries := SerializeUpTo(tx.localLibraries, |tx.localLibraries|);
    if unlock.None? || inputIDs.None? || outputs.None? || endorsements.None? || libraries.None? { return None; }
    return Some([unlock.value, inputIDs.value, outputs.value, tx.signature, BigEndian(tx.timestamp, 4),
                 tx.inputCommitment, endorsements.value, libraries.value]);
  }

  method SerializeTransaction(tx: Transaction) returns (r: Option<Bytes>)
    ensures r == TransactionBytes(tx)
  {
    hide ToArray;
    var elements := SerializeFields(tx);
    if elements.None? { return None; }
    r := SerializeUpTo(elements.value, |elements.value|);
  }

  /** What is signed; None is a panic. */
  method Essence(tx: Transaction) returns (r: Option<Bytes>)
    ensures r == EssenceBytes(tx)
  {
    var a := SerializeFields(tx);
    if a.None? { return None; }
    return Some(a.value[TX_INPUT_IDS] + a.value[TX_OUTPUTS] + a.value[TX_INPUT_COMMITMENT]);
  }

  /** An element put at an index of an unlock block, which grows with empty elements as needed. */
  function Grow(block: seq<Bytes>, j: Byte, data: Bytes): (r: seq<Bytes>)
    ensures |r| == if j < |block| then |block| else j + 1
    ensures r[j] == data
    ensures forall k :: 0 <= k < |r| && k != j ==> r[k] == if k < |block| then block[k] else []
  {
    if j < |block| then block[j := data] else Padded(block, j + 1 - |block|)[j := data]
  }

  class TransactionBuilder {
    var consumed: seq<Bytes>
    var tx: Transaction

    ghost predicate Valid()
      reads this
    {
      |consumed| == |tx.inputIDs| == |tx.unlockBlocks| <= MAX_OUTPUTS && |tx.outputs| <= MAX_OUTPUTS
    }

    constructor ()
      ensures Valid() && consumed == [] && tx == EMPTY_TRANSACTION
    {
      consumed, tx := [], EMPTY_TRANSACTION;
    }

    /** The index of the new input; None if there are 256 already. */
    method ConsumeOutput(output: Bytes, oid: Bytes) returns (r: Option<Byte>)
      requires Valid()
      modifies this
      ensures Valid()
      ensures r == if |old(consumed)| < MAX_OUTPUTS then Some(|old(consumed)|) else None
      ensures r.None? ==> consumed == old(consumed) && tx == old(tx)
      ensures r.Some? ==> consumed == old(consumed) + [output]
      ensures r.Some? ==>
        tx == old(tx).(inputIDs := old(tx).inputIDs + [oid], unlockBlocks := old(tx).unlockBlocks + [[]])
    {
      if |consumed| >= MAX_OUTPUTS { return None; }
      consumed := consumed + [output];
      tx := tx.(inputIDs := tx.inputIDs + [oid], unlockBlocks := tx.unlockBlocks + [[]]);
      return Some(|consumed| - 1);
    }

    /** The index of the new output; None if there are 256 already. */
    method ProduceOutput(output: Bytes) returns (r: Option<Byte>)
      requires Valid()
      modifies this
      ensures Valid() && consumed == old(consumed)
      ensures r == if |old(tx).outputs| < MAX_OUTPUTS then Some(|old(tx).outputs|) else None
      ensures tx == if r.Some? then old(tx).(outputs := old(tx).outputs + [output]) else old(tx)
    {
      if |tx.outputs| >= MAX_OUTPUTS { return None; }
      tx := tx.(outputs := tx.outputs + [output]);
      return Some(|tx.outputs| - 1);
    }

    /** False is a panic: there is no such input. */
    method PutUnlockParams(i: Byte, j: Byte, data: Bytes) returns (ok: bool)
      requires Valid()
      modifies this
      ensures Valid() && consumed == old(consumed)
      ensures ok <==> i < |old(consumed)|
      ensures tx ==
        if ok then old(tx).(unlockBlocks := old(tx).unlockBlocks[i := Grow(old(tx).unlockBlocks[i], j, data)])
        else old(tx)
    {
      if i >= |tx.unlockBlocks| { return false; }
      tx := tx.(unlockBlocks := tx.unlockBlocks[i := Grow(tx.unlockBlocks[i], j, data)]);
      return true;
    }

    method PutSignatureUnlock(i: Byte, j: Byte) returns (ok: bool)
      requires Valid()
      modifies this
      ensures Valid() && consumed == old(consumed)
      ensures ok <==> i < |old(consumed)|
      ensures tx ==
        if ok then old(tx).(unlockBlocks := old(tx).unlockBlocks[i := Grow(old(tx).unlockBlocks[i], j, [0xff])])
        else old(tx)
    {
      ok := PutUnlockParams(i, j, [0xff]);
    }

    /** References a preceding input; false is an error or a panic. */
    method PutUnlockReference(i: Byte, j: Byte, referenced: Byte) returns (ok: bool)
      requires Valid()
      modifies this
      ensures Valid() && consumed == old(consumed)
      ensures ok <==> referenced < i < |old(consumed)|
      ensures tx ==
        if ok then old(tx).(unlockBlocks := old(tx).unlockBlocks[i := Grow(old(tx).unlockBlocks[i], j, [referenced])])
        else old(tx)
    {
      if referenced >= i { return false; }
      ok := PutUnlockParams(i, j, [referenced]);
    }

    method Commitment(e: Env) returns (r: Option<Bytes>)
      requires Valid()
      ensures r == InputCommitment(e, consumed)
    {
      var b := SerializeList(consumed);
      if b.None? { return None; }
      return Some(e.blake2b(b.value));
    }

    /** Stores the timestamp, the input commitment and the signature; false is a panic. */
    method Finish(e: Env, key: SigningKey, timestamp: nat) returns (ok: bool)
      requires Valid()
      modifies this
      ensures Valid() && consumed == old(consumed)
      ensures ok <==> Sealed(e, key, old(consumed), old(tx), timestamp).Some?
      ensures ok ==> Sealed(e, key, old(consumed), old(tx), timestamp) == Some(tx)
    {
      var commitment := Commitment(e);
      if commitment.None? { return false; }
      tx := tx.(timestamp := timestamp, inputCommitment := commitment.value);
      var essence := Essence(tx);
      if essence.None? { return false; }
      tx := tx.(signature := key.sign(essence.value) + key.publicKey);
      return true;
    }
  }

  /** A private key as the signature function it gives, with the public key. */
  datatype SigningKey = SigningKey(sign: Bytes -> Bytes, publicKey: Bytes)

  /** Signatures made with the key verify under its public key. */
  ghost predicate SignsFor(e: Env, key: SigningKey) {
    && |key.publicKey| == 32
    && forall m: Bytes :: |key.sign(m)| == 64 && e.verify(m, key.sign(m), key.publicKey)
  }

  /** The transaction with its timestamp, input commitment and signature filled in. */
  function Sealed(e: Env, key: SigningKey, consumed: seq<Bytes>, tx: Transaction, timestamp: nat): Option<Transaction> {
    var commitment := InputCommitment(e, consumed);
    if commitment.None? then None
    else
      var ready := tx.(timestamp := timestamp, inputCommitment := commitment.value);
      var essence := EssenceBytes(ready);
      if essence.None? then None
      else Some(ready.(signature := key.sign(essence.value) + key.publicKey))
  }

  /** The signature does not change the essence it signs. */
  lemma {:induction false} SealedEssence(e: Env, key: SigningKey, consumed: seq<Bytes>, tx: Transaction, timestamp: nat)
    requires Sealed(e, key, consumed, tx, timestamp).Some?
    ensures var t := Sealed(e, key, consumed, tx, timestamp).value;
      && EssenceBytes(t).Some?
      && t.signature == key.sign(EssenceBytes(t).value) + key.publicKey
  {
    hide EncodeUpTo256, Encode, EncodeAll;
  }

  /** A sealed transaction carries a valid signature of its own essence by the key's address. */
  lemma {:induction false} SealedIsSigned(e: Env, key: SigningKey, consumed: seq<Bytes>, tx: Transaction,
                                          timestamp: nat, c: Context)
    requires SignsFor(e, key)
    requires Sealed(e, key, consumed, tx, timestamp).Some?
    requires TransactionBytes(Sealed(e, key, consumed, tx, timestamp).value) == Some(c.txBytes)
    ensures UnlockedWithSignature(e, c, e.blake2b(key.publicKey)) == True
  {
    hide Parse, Encode, EncodeAll, EncodeUpTo256, TransactionBytes, Sealed, EssenceBytes, TxEssence, TxField;
    var t := Sealed(e, key, consumed, tx, timestamp).value;
    SealedEssence(e, key, consumed, tx, timestamp);
    EssenceAgrees(t);
    ListsAgree(t);
    var m := EssenceBytes(t).value;
    assert t.signature[0..64] == key.sign(m);
    assert t.signature[64..96] == key.publicKey;
  }
}
