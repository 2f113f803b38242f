/**
 A read-only view of an array whose elements are again arrays, addressed by paths
 of one-byte indices. Visited subtrees are kept in a cache.
 */
module LazyTree {
  import opened Bytes
  import opened Codec
  import opened LazyArray

  /** Each node of a tree made from bytes has at most this many elements. */
  const MAX_ELEMENTS: nat := 256

  function Nth(xs: Option<seq<Bytes>>, i: nat): Option<Bytes> {
    if xs.Some? && i < |xs.value| then Some(xs.value[i]) else None
  }

  /** Element `i` of a serialized array with at most `max` elements; None if there is none. */
  function Element(b: Option<Bytes>, max: nat, i: nat): Option<Bytes> {
    if b.None? then None else Nth(Parse(b.value, max), i)
  }

  /** The pure meaning of a path: parse and index, level by level. */
  function Lookup(b: Bytes, path: Bytes): Option<Bytes>
    decreases path
  {
    if path == [] then Some(b)
    else
      match Element(Some(b), MAX_ELEMENTS, path[0])
      case None => None
      case Some(x) => Lookup(x, path[1..])
  }

  /** What a node stands for: its serialized form (None if serializing panics) and its elements. */
  datatype Doc = Doc(bytes: Option<Bytes>, elements: Option<seq<Bytes>>)

  function DocOf(b: Bytes): Doc {
    Doc(Some(b), Parse(b, MAX_ELEMENTS))
  }

  function AtPath(d: Doc, path: Bytes): Option<Bytes> {
    if path == [] then d.bytes
    else
      match Nth(d.elements, path[0])
      case None => None
      case Some(x) => Lookup(x, path[1..])
  }

  function SubDoc(d: Doc, path: Bytes): Option<Doc> {
    if path == [] then Some(d)
    else
      match AtPath(d, path)
      case None => None
      case Some(x) => Some(DocOf(x))
  }

  lemma AtPathOfBytes(b: Bytes, path: Bytes)
    ensures AtPath(DocOf(b), path) == Lookup(b, path)
  {
  }

  lemma SubDocStep(d: Doc, path: Bytes)
    requires path != []
    ensures SubDoc(d, path) ==
      match Nth(d.elements, path[0]) case None => None case Some(x) => SubDoc(DocOf(x), path[1..])
  {
    match Nth(d.elements, path[0])
    case None =>
    case Some(x) => AtPathOfBytes(x, path[1..]);
  }

  class Tree {
    const sa: Array
    var subtrees: map<Byte, Tree>

    /** nil bytes count as the empty string. */
    ghost function Content(): Doc
      reads this, sa
    {
      Doc(if sa.bytes.Some? then sa.bytes
          else if sa.parsed.Some? then Encode(sa.parsed.value)
          else Some([]),
          sa.Contents())
    }

    /** Every cached subtree is in `S` and stands for the element at its index. */
    ghost predicate CacheOK(S: set<Tree>)
      reads this, sa, S, set t | t in S :: t.sa
    {
      && sa.Valid()
      && forall i :: i in subtrees ==>
        && subtrees[i] in S
        && subtrees[i].sa.bytes.Some?
        && Nth(sa.Contents(), i).Some?
        && subtrees[i].Content() == DocOf(Nth(sa.Contents(), i).value)
    }

    constructor FromBytes(data: Bytes)
      ensures sa.bytes == Some(data) && sa.max == MAX_ELEMENTS
      ensures sa.Valid() && fresh(sa)
      ensures subtrees == map[] && Content() == DocOf(data)
    {
      sa := new Array.FromBytes(Some(data), MAX_ELEMENTS);
      subtrees := map[];
    }

    constructor OfArray(a: Array)
      ensures sa == a && subtrees == map[]
    {
      sa := a;
      subtrees := map[];
    }

    method ElementAt(idx: Byte, ghost S: set<Tree>) returns (r: Option<Bytes>)
      requires this in S && Closed(S)
      modifies sa
      ensures Closed(S)
      ensures forall t :: t in S ==> t.Content() == old(t.Content())
      ensures forall t :: t in S && old(t.sa.bytes.Some?) ==> t.sa.bytes.Some?
      ensures r == Nth(Content().elements, idx)
    {
      r := sa.At(idx);
    }

    method CountHere(ghost S: set<Tree>) returns (r: Option<nat>)
      requires this in S && Closed(S)
      modifies sa
      ensures Closed(S)
      ensures forall t :: t in S ==> t.Content() == old(t.Content())
      ensures r == var xs := Content().elements; if xs.Some? then Some(|xs.value|) else None
    {
      r := sa.NumElements();
    }

    method GetSubtree(idx: Byte, ghost S: set<Tree>) returns (r: Option<Tree>, ghost S': set<Tree>)
      requires this in S && Closed(S)
      modifies sa
      ensures Closed(S') && S <= S' && fresh(S' - S) && fresh(Arrays(S') - Arrays(S))
      ensures forall t :: t in S ==> t.Content() == old(t.Content())
      ensures forall t :: t in S && old(t.sa.bytes.Some?) ==> t.sa.bytes.Some?
      ensures r.None? <==> Nth(Content().elements, idx).None?
      ensures r.Some? ==> r.value in S' && r.value.Content() == DocOf(Nth(Content().elements, idx).value)
      ensures r.Some? ==> r.value.sa.bytes.Some?
    {
      S' := S;
      if idx in subtrees {
        return Some(subtrees[idx]), S';
      }
      var data := ElementAt(idx, S);
      if data.None? { return None, S'; }
      var t := new Tree.FromBytes(data.value);
      S' := S + {t};
      return Some(t), S';
    }

    method Remember(idx: Byte, sub: Tree, ghost S: set<Tree>)
      requires this in S && sub in S && Closed(S)
      requires sub.sa.bytes.Some? && Nth(Content().elements, idx).Some?
      requires sub.Content() == DocOf(Nth(Content().elements, idx).value)
      modifies this
      ensures Closed(S)
      ensures forall t :: t in S ==> t.Content() == old(t.Content())
      ensures forall t :: t in S && old(t.sa.bytes.Some?) ==> t.sa.bytes.Some?
    {
      subtrees := subtrees[idx := sub];
    }

    /** The node at a path; None is a panic. */
    method Subtree(path: Bytes, ghost S: set<Tree>) returns (r: Option<Tree>, ghost S': set<Tree>)
      requires this in S && Closed(S)
      modifies S, Arrays(S)
      ensures Closed(S') && S <= S' && fresh(S' - S) && fresh(Arrays(S') - Arrays(S))
      ensures forall t :: t in S ==> t.Content() == old(t.Content())
      ensures forall t :: t in S && old(t.sa.bytes.Some?) ==> t.sa.bytes.Some?
      ensures r.None? <==> SubDoc(Content(), path).None?
      ensures r.Some? ==> r.value in S' && Some(r.value.Content()) == SubDoc(Content(), path)
      decreases path
    {
      if |path| == 0 { return Some(this), S; }
      SubDocStep(Content(), path);
      var sub;
      sub, S' := GetSubtree(path[0], S);
      if sub.None? { return None, S'; }
      r, S' := sub.value.Subtree(path[1..], S');
      if r.None? { return None, S'; }
      Remember(path[0], sub.value, S');
    }

    /** Whether the cached serialized form can be used as it is. */
    predicate ValidBytes()
      reads this, sa
    {
      (sa.bytes.Some? && |sa.bytes.value| > 0) || sa.ParsedLen() == 0
    }

    /** Would write changed subtrees back; a tree is only read, so there never is one. */
    method WriteBack(ghost S: set<Tree>)
      requires this in S && Closed(S)
      ensures forall i :: i in subtrees ==> subtrees[i].ValidBytes()
    {
      var todo := subtrees.Keys;
      while todo != {}
        invariant todo <= subtrees.Keys
        invariant forall i :: i in subtrees && i !in todo ==> subtrees[i].ValidBytes()
        decreases |todo|
      {
        var i :| i in todo;
        CachedBytesAreValid(subtrees[i]);
        if !subtrees[i].ValidBytes() { assert false; }
        todo := todo - {i};
      }
    }

    /** The serialized form of the node; None is a panic. */
    method GetBytes(ghost S: set<Tree>) returns (r: Option<Bytes>)
      requires this in S && Closed(S)
      modifies sa
      ensures Closed(S)
      ensures forall t :: t in S ==> t.Content() == old(t.Content())
      ensures forall t :: t in S && old(t.sa.bytes.Some?) ==> t.sa.bytes.Some?
      ensures r == Content().bytes
    {
      hide Parse;
      if !ValidBytes() { WriteBack(S); }
      var ok, b := sa.GetBytes();
      if !ok { return None; }
      return if b.Some? then b else Some([]);
    }

    /** The bytes at a path; None is a panic. */
    method BytesAtPath(path: Bytes, ghost S: set<Tree>) returns (r: Option<Bytes>, ghost S': set<Tree>)
      requires this in S && Closed(S)
      modifies S, Arrays(S)
      ensures Closed(S') && S <= S' && fresh(S' - S) && fresh(Arrays(S') - Arrays(S))
      ensures forall t :: t in S ==> t.Content() == old(t.Content())
      ensures forall t :: t in S && old(t.sa.bytes.Some?) ==> t.sa.bytes.Some?
      ensures r == AtPath(Content(), path)
      decreases path
    {
      if |path| == 0 {
        r := GetBytes(S);
        return r, S;
      }
      if |path| == 1 {
        r := ElementAt(path[0], S);
        return r, S;
      }
      var sub;
      sub, S' := GetSubtree(path[0], S);
      if sub.None? { return None, S'; }
      AtPathOfBytes(Nth(Content().elements, path[0]).value, path[1..]);
      r, S' := sub.value.BytesAtPath(path[1..], S');
      if r.None? { return None, S'; }
      Remember(path[0], sub.value, S');
    }

    /** The number of elements of the node at a path; None is a panic. */
    method NumElements(path: Bytes, ghost S: set<Tree>) returns (r: Option<nat>, ghost S': set<Tree>)
      requires this in S && Closed(S)
      modifies S, Arrays(S)
      ensures Closed(S') && S <= S' && fresh(S' - S) && fresh(Arrays(S') - Arrays(S))
      ensures forall t :: t in S ==> t.Content() == old(t.Content())
      ensures r == CountAt(Content(), path)
    {
      var sub;
      sub, S' := Subtree(path, S);
      if sub.None? { return None, S'; }
      r := sub.value.CountHere(S');
    }
  }

  lemma {:induction false} LookupAppend(b: Bytes, p: Bytes, q: Bytes)
    ensures Lookup(b, p + q) == match Lookup(b, p) case None => None case Some(x) => Lookup(x, q)
    decreases |p|
  {
    if p == [] {
      assert p + q == q;
    } else {
      assert (p + q)[1..] == p[1..] + q;
      var x := Element(Some(b), MAX_ELEMENTS, p[0]);
      if x.Some? {
        LookupAppend(x.value, p[1..], q);
      }
    }
  }

  /** A path can be followed in two parts. */
  lemma PathsCompose(d: Doc, p: Bytes, q: Bytes)
    requires p != []
    ensures AtPath(d, p + q) == match AtPath(d, p) case None => None case Some(x) => AtPath(DocOf(x), q)
  {
    assert (p + q)[1..] == p[1..] + q;
    var x := Nth(d.elements, p[0]);
    if x.Some? {
      LookupAppend(x.value, p[1..], q);
      if Lookup(x.value, p[1..]).Some? {
        AtPathOfBytes(Lookup(x.value, p[1..]).value, q);
      }
    }
  }

  /** The number of elements at a path is the number of indices that lead on from there. */
  lemma CountsElements(d: Doc, path: Bytes, n: nat, i: Byte)
    requires CountAt(d, path) == Some(n)
    ensures AtPath(d, path + [i]).Some? <==> i < n
  {
    if path == [] {
      assert path + [i] == [i] && [i][1..] == [];
    } else {
      PathsCompose(d, path, [i]);
      assert [i][1..] == [];
    }
  }

  function CountAt(d: Doc, path: Bytes): Option<nat> {
    match SubDoc(d, path)
    case None => None
    case Some(sub) => if sub.elements.Some? then Some(|sub.elements.value|) else None
  }

  // ------------------------------------------------------------------ any sequence of calls

  datatype Query = Read(path: Bytes) | Measure(path: Bytes) | Visit(path: Bytes)

  datatype Answer = Data(data: Option<Bytes>) | Size(n: Option<nat>) | Visited(ok: bool)

  function PureAnswer(d: Doc, q: Query): Answer {
    match q
    case Read(path) => Data(AtPath(d, path))
    case Measure(path) => Size(CountAt(d, path))
    case Visit(path) => Visited(SubDoc(d, path).Some?)
  }

  /**
   Whatever was asked before, and whatever is cached, each answer (failures included)
   is the one pure nested parsing gives for the original content, which never changes.
   */
  method Session(root: Tree, queries: seq<Query>, ghost S: set<Tree>)
    returns (answers: seq<Answer>, ghost S': set<Tree>)
    requires root in S && Closed(S)
    modifies S, Arrays(S)
    ensures root in S' && Closed(S') && root.Content() == old(root.Content())
    ensures |answers| == |queries|
    ensures forall k :: 0 <= k < |queries| ==> answers[k] == PureAnswer(old(root.Content()), queries[k])
  {
    hide PureAnswer, Closed;
    answers, S' := [], S;
    for i := 0 to |queries|
      invariant root in S' && Closed(S') && S <= S' && fresh(S' - S) && fresh(Arrays(S') - Arrays(S))
      invariant root.Content() == old(root.Content())
      invariant |answers| == i
      invariant forall k :: 0 <= k < i ==> answers[k] == PureAnswer(old(root.Content()), queries[k])
    {
      var answer;
      answer, S' := Ask(root, queries[i], S');
      answers := answers + [answer];
    }
  }

  method Ask(root: Tree, q: Query, ghost S: set<Tree>) returns (answer: Answer, ghost S': set<Tree>)
    requires root in S && Closed(S)
    modifies S, Arrays(S)
    ensures Closed(S') && S <= S' && fresh(S' - S) && fresh(Arrays(S') - Arrays(S))
    ensures root.Content() == old(root.Content())
    ensures answer == PureAnswer(root.Content(), q)
  {
    match q {
      case Read(path) =>
        var r;
        r, S' := root.BytesAtPath(path, S);
        answer := Data(r);
      case Measure(path) =>
        var r;
        r, S' := root.NumElements(path, S);
        answer := Size(r);
      case Visit(path) =>
        var r;
        r, S' := root.Subtree(path, S);
        answer := Visited(r.Some?);
    }
  }

  lemma CachedBytesAreValid(t: Tree)
    requires t.sa.bytes.Some? && t.sa.Valid()
    ensures t.ValidBytes()
  {
    assert Parse([], MAX_ARRAY_LEN) == None;
  }

  ghost function Arrays(S: set<Tree>): set<Array> {
    set t | t in S :: t.sa
  }

  /** `S` holds every cached descendant of its members, and every cache is right. */
  ghost predicate Closed(S: set<Tree>)
    reads S, set t | t in S :: t.sa
  {
    forall t :: t in S ==> t.CacheOK(S)
  }
}
