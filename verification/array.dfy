/**
 The lazily parsed array: a serialized form and a parsed form, either of which may
 be missing and is computed from the other on demand.
 */
module LazyArray {
  import opened Bytes
  import opened Codec

  /** The elements a pair of cached representations stands for; None if the bytes do not parse. */
  function View(bytes: Option<Bytes>, parsed: Option<seq<Bytes>>, max: nat): Option<seq<Bytes>> {
    match parsed
    case Some(xs) => Some(xs)
    case None => if bytes.Some? then Parse(bytes.value, max) else None
  }

  /** `n` empty elements appended to `xs`. */
  function Padded(xs: seq<Bytes>, n: nat): seq<Bytes> {
    xs + seq(n, _ => [])
  }

  class Array {
    /** None is Go's nil. */
    var bytes: Option<Bytes>
    var parsed: Option<seq<Bytes>>
    const max: nat

    /** Where both representations exist they agree; a parsed form without bytes is not empty. */
    ghost predicate Valid()
      reads this
    {
      && (parsed.Some? && bytes.Some? ==> Parse(bytes.value, MAX_ARRAY_LEN) == parsed)
      && (parsed.Some? && bytes.None? ==> parsed.value != [])
    }

    ghost function Contents(): Option<seq<Bytes>>
      reads this
    {
      View(bytes, parsed, max)
    }

    constructor FromBytes(data: Option<Bytes>, max: nat)
      ensures Valid() && this.max == max
      ensures bytes == data && parsed == None
    {
      bytes, parsed := data, None;
      this.max := max;
    }

    constructor Empty(max: nat)
      ensures Valid() && this.max == max
      ensures Contents() == Some([]) && parsed == None && bytes == Some([0, 0])
    {
      bytes, parsed := Some([0, 0]), None;
      this.max := max;
      new;
      RoundTrip([], max);
      assert BigEndian(0, 2) == [0, 0];
    }

    /** False is a panic; the array is then as before. */
    method EnsureParsed() returns (ok: bool)
      requires Valid()
      modifies this
      ensures Valid() && bytes == old(bytes)
      ensures Contents() == old(Contents())
      ensures ok == old(Contents()).Some?
      ensures ok ==> parsed == Contents()
      ensures !ok ==> parsed == None
    {
      if parsed.Some? { return true; }
      if bytes.None? { return false; }
      var r := ParseArray(bytes.value, max);
      if r.None? { return false; }
      parsed := r;
      return true;
    }

    /** What `len(a.parsed)` reads: 0 while the array is unparsed. */
    function ParsedLen(): nat
      reads this
    {
      if parsed.Some? then |parsed.value| else 0
    }

    /**
     Appends an element and returns its index; None is a panic. The limit is tested
     before an unparsed array is parsed, so it does not bind an unparsed array.
     */
    method Push(data: Bytes) returns (r: Option<nat>)
      requires Valid()
      modifies this
      ensures Valid()
      ensures r.None? <==> old(Contents()).None? || old(ParsedLen()) >= max
      ensures r.None? ==> bytes == old(bytes) && parsed == old(parsed)
      ensures r.Some? ==> r.value == |old(Contents()).value| && parsed.Some? && bytes == None
      ensures r.Some? ==> Contents() == Some(old(Contents()).value + [data])
    {
      if ParsedLen() >= max { return None; }
      var ok := EnsureParsed();
      if !ok { return None; }
      parsed := Some(parsed.value + [data]);
      bytes := None;
      return Some(|parsed.value| - 1);
    }

    /** Replaces an element of a parsed array; false is a panic. */
    method PutAtIdx(idx: Byte, data: Bytes) returns (ok: bool)
      requires Valid()
      modifies this
      ensures Valid()
      ensures ok <==> idx < old(ParsedLen())
      ensures !ok ==> bytes == old(bytes) && parsed == old(parsed)
      ensures ok ==> parsed == Some(old(parsed).value[idx := data]) && bytes == None
    {
      if idx >= ParsedLen() { return false; }
      parsed := Some(parsed.value[idx := data]);
      bytes := None;
      return true;
    }

    /** The number of elements; None is a panic. */
    method NumElements() returns (r: Option<nat>)
      requires Valid()
      modifies this
      ensures Valid() && bytes == old(bytes) && Contents() == old(Contents())
      ensures r == match Contents() case Some(xs) => Some(|xs|) case None => None
      ensures r.Some? ==> parsed == Contents()
      ensures r.None? ==> parsed == None
    {
      var ok := EnsureParsed();
      if !ok { return None; }
      return Some(|parsed.value|);
    }

    method At(idx: nat) returns (r: Option<Bytes>)
      requires Valid()
      modifies this
      ensures Valid() && bytes == old(bytes) && Contents() == old(Contents())
      ensures r == if Contents().Some? && idx < |Contents().value| then Some(Contents().value[idx]) else None
      ensures Contents().Some? ==> parsed.Some?
    {
      var ok := EnsureParsed();
      if !ok || idx >= |parsed.value| { return None; }
      return Some(parsed.value[idx]);
    }

    /**
     Puts an element at any index, growing the array with empty elements first. It
     panics when the array does not parse or would have to grow past its limit, and
     then the array has been grown up to the limit.
     */
    method PutAtIdxGrow(idx: Byte, data: Bytes) returns (ok: bool)
      requires Valid()
      modifies this
      ensures Valid()
      ensures ok <==> old(Contents()).Some? && (idx < |old(Contents()).value| || idx < max)
      ensures old(Contents()).Some? ==> parsed.Some?
      ensures ok ==> bytes == None
      ensures var xs := old(Contents());
        Contents() == match xs
          case None => None
          case Some(xs) =>
            if idx < |xs| then Some(xs[idx := data])
            else if idx < max then Some(Padded(xs, idx + 1 - |xs|)[idx := data])
            else Some(Padded(xs, if |xs| < max then max - |xs| else 0))
    {
      ghost var xs := Contents();
      var n := NumElements();
      if n.None? { return false; }
      var num := n.value;
      ghost var k := 0;
      assert Padded(xs.value, 0) == xs.value;
      while idx >= num
        invariant Valid() && parsed.Some? && num == |parsed.value| == |xs.value| + k
        invariant Contents() == Some(Padded(xs.value, k))
        invariant k > 0 ==> num <= max && num <= idx + 1
        decreases idx - num
      {
        assert Padded(xs.value, k + 1) == Padded(xs.value, k) + [[]];
        var r := Push([]);
        if r.None? { return false; }
        k := k + 1;
        num := num + 1;
      }
      ok := PutAtIdx(idx, data);
    }

    /**
     The serialized form. A failed call is a panic (the elements are too many or too
     long); a nil result only comes from an array made from nil.
     */
    method GetBytes() returns (ok: bool, r: Option<Bytes>)
      requires Valid()
      modifies this
      ensures Valid() && parsed == old(parsed)
      ensures Contents() == old(Contents())
      ensures old(bytes).Some? ==> ok && r == old(bytes)
      ensures old(bytes).None? && old(parsed).None? ==> ok && r == None
      ensures old(bytes).None? && old(parsed).Some? ==>
        ok == Encodable(old(parsed).value) && (ok ==> r == Encode(old(parsed).value))
      ensures ok && r.Some? && Contents().Some? ==> Parse(r.value, MAX_ARRAY_LEN) == Contents()
      ensures if ok then r == bytes else bytes == old(bytes)
    {
      if bytes.Some? {
        if parsed.None? && Contents().Some? {
          assert Parse(bytes.value, MAX_ARRAY_LEN) == Parse(bytes.value, max);
        }
        return true, bytes;
      }
      if parsed.None? { return true, None; }
      var b := EncodeArray(parsed.value);
      if b.None? { return false, None; }
      RoundTrip(parsed.value, MAX_ARRAY_LEN);
      bytes := b;
      return true, bytes;
    }
  }

  // ------------------------------------------------------------------ any sequence of calls

  datatype Op = Push(data: Bytes) | Put(idx: Byte, data: Bytes) | Get(i: nat) | Count | Serialize

  datatype Reply = Index(n: nat) | Done | Element(data: Bytes) | Number(n: nat) | Serialized(data: Bytes) | Panicked

  /** One call on a plain sequence of at most `max` byte strings: the answer and the new sequence. */
  predicate PlainStep(max: nat, xs: seq<Bytes>, op: Op, reply: Reply, xs': seq<Bytes>) {
    match op
    case Push(data) =>
      if |xs| < max then reply == Index(|xs|) && xs' == xs + [data]
      else reply == Panicked && xs' == xs
    case Put(idx, data) =>
      if idx < |xs| then reply == Done && xs' == xs[idx := data]
      else if idx < max then reply == Done && xs' == Padded(xs, idx + 1 - |xs|)[idx := data]
      else reply == Panicked && xs' == Padded(xs, if |xs| < max then max - |xs| else 0)
    case Get(i) => xs' == xs && reply == if i < |xs| then Element(xs[i]) else Panicked
    case Count => xs' == xs && reply == Number(|xs|)
    case Serialize =>
      xs' == xs && if reply.Serialized? then Parse(reply.data, MAX_ARRAY_LEN) == Some(xs)
                   else reply == Panicked && !Encodable(xs)
  }

  /**
   Any sequence of calls on a parseable array behaves like the same calls on the
   plain sequence it stands for, provided the array is parsed already or is not full.
   */
  method Exec(a: Array, ops: seq<Op>) returns (replies: seq<Reply>, ghost states: seq<seq<Bytes>>)
    requires a.Valid() && a.Contents().Some?
    requires a.parsed.Some? || |a.Contents().value| < a.max || a.max == 0
    modifies a
    ensures a.Valid() && |replies| == |ops| && |states| == |ops| + 1
    ensures Some(states[0]) == old(a.Contents()) && Some(states[|ops|]) == a.Contents()
    ensures forall k :: 0 <= k < |ops| ==> PlainStep(a.max, states[k], ops[k], replies[k], states[k + 1])
  {
    replies, states := [], [a.Contents().value];
    for i := 0 to |ops|
      invariant a.Valid() && |replies| == i && |states| == i + 1
      invariant a.parsed.Some? || |states[i]| < a.max || a.max == 0
      invariant Some(states[0]) == old(a.Contents()) && Some(states[i]) == a.Contents()
      invariant forall k :: 0 <= k < i ==> PlainStep(a.max, states[k], ops[k], replies[k], states[k + 1])
    {
      var reply := ExecOne(a, ops[i]);
      replies, states := replies + [reply], states + [a.Contents().value];
    }
  }

  method ExecOne(a: Array, op: Op) returns (reply: Reply)
    requires a.Valid() && a.Contents().Some?
    requires a.parsed.Some? || |a.Contents().value| < a.max || a.max == 0
    modifies a
    ensures a.Valid() && a.Contents().Some?
    ensures a.parsed.Some? || |a.Contents().value| < a.max || a.max == 0
    ensures PlainStep(a.max, old(a.Contents()).value, op, reply, a.Contents().value)
  {
    match op
    case Push(data) =>
      var r := a.Push(data);
      return if r.Some? then Index(r.value) else Panicked;
    case Put(idx, data) =>
      var ok := a.PutAtIdxGrow(idx, data);
      return if ok then Done else Panicked;
    case Get(i) =>
      var r := a.At(i);
      return if r.Some? then Element(r.value) else Panicked;
    case Count =>
      var r := a.NumElements();
      return if r.Some? then Number(r.value) else Panicked;
    case Serialize =>
      var ok, r := a.GetBytes();
      return if ok && r.Some? then Serialized(r.value) else Panicked;
  }

  /** Any bytes that fill the limit, as long as they are not parsed yet, take one more element. */
  method PushPastTheLimit(b: Bytes, xs: seq<Bytes>, data: Bytes) returns (a: Array, r: Option<nat>)
    requires Parse(b, |xs|) == Some(xs) && xs != []
    ensures a.Valid() && a.max == |xs|
    ensures r == Some(|xs|) && a.Contents() == Some(xs + [data])
  {
    a := new Array.FromBytes(Some(b), |xs|);
    r := a.Push(data);
  }

  /**
   Why `Exec` needs its proviso: a push keeps a parseable array within its limit exactly
   when the array is parsed already, or is not full, or its limit is zero.
   */
  method PushWithinLimit(a: Array, data: Bytes) returns (r: Option<nat>)
    requires a.Valid() && a.Contents().Some? && |a.Contents().value| <= a.max
    modifies a
    ensures a.Valid() && a.Contents().Some?
    ensures |a.Contents().value| <= a.max
      <==> old(a.parsed.Some? || |a.Contents().value| < a.max || a.max == 0)
  {
    r := a.Push(data);
  }
}
