/**
 The constraint library. A constraint is an EasyFL expression; each one modelled here
 keeps the and/or/if structure of its source, evaluated left to right and stopping as
 soon as the result is known. A lookup that fails and the `!!!` operator panic, and a
 panic fails the whole constraint.
 */
module Constraints {
  import opened Bytes
  import opened Codec
  import opened LazyTree
  import opened Context

  // ------------------------------------------------------------------ the foreign environment

  /** A parsed constraint: a call of a library function on literal arguments, or any other script. */
  datatype Script =
    | Amount(arg: Bytes)
    | Timestamp(arg: Bytes)
    | AddressED25519(arg: Bytes)
    | DeadlineLock(deadline: Bytes, main: Bytes, expiry: Bytes)
    | ChainLock(arg: Bytes)
    | Chain(arg: Bytes)
    | Immutable(arg: Bytes)
    | Sender(arg: Bytes)
    | Other

  /** Where a constraint is evaluated: in a consumed or a produced output, at which output and block. */
  datatype Place = Place(consumed: bool, output: Byte, block: Byte)

  /**
   What the ledger takes from elsewhere: the hash, signature verification, the bytecode
   parser and compiler, and the evaluation of scripts outside the library.
   */
  datatype Env = Env(
    blake2b: Bytes -> Bytes,
    verify: (Bytes, Bytes, Bytes) -> bool,
    decode: Bytes -> Script,
    encode: Script -> Bytes,
    other: (Context, Place) -> bool
  )

  /** A library call whose literal arguments have the lengths the library gives them. */
  predicate WellSized(s: Script) {
    match s
    case Amount(a) => |a| == 8
    case Timestamp(ts) => |ts| == 4
    case AddressED25519(a) => |a| == 32
    case DeadlineLock(d, m, x) => |d| == 4 && |m| == 32 && |x| == 32
    case ChainLock(id) => |id| == 32
    case Chain(data) => |data| == 35
    case Immutable(arg) => |arg| == 2
    case Sender(a) => |a| == 32
    case Other => false
  }

  /**
   What is assumed of the foreign parts where it is needed: digests have 32 bytes, the
   bytecode of a library call parses back and is short, the length of an amount or a
   timestamp does not depend on its value, and no bytes at all are no library call.
   */
  ghost predicate Sound(e: Env) {
    && (forall x: Bytes :: |e.blake2b(x)| == 32)
    && (forall s: Script :: WellSized(s) ==> e.decode(e.encode(s)) == s && 0 < |e.encode(s)| <= MAX_UINT8)
    && (forall a: Bytes {:trigger e.encode(Amount(a))} ::
          |a| == 8 ==> |e.encode(Amount(a))| == |e.encode(Amount(Zeros(8)))|)
    && (forall a: Bytes {:trigger e.encode(Timestamp(a))} ::
          |a| == 4 ==> |e.encode(Timestamp(a))| == |e.encode(Timestamp(Zeros(4)))|)
    && e.decode([]) == Other
  }

  // ------------------------------------------------------------------ EasyFL values

  datatype Truth = Panic | False | True

  /** An evaluated argument; None is a panic. */
  type Value = Option<Bytes>

  function Holds(b: bool): Truth {
    if b then True else False
  }

  function And(a: Truth, b: Truth): Truth {
    if a == True then b else a
  }

  function Or(a: Truth, b: Truth): Truth {
    if a == False then b else a
  }

  function Not(a: Truth): Truth {
    match a case Panic => Panic case False => True case True => False
  }

  function If(cond: Truth, a: Truth, b: Truth): Truth {
    match cond case Panic => Panic case True => a case False => b
  }

  function Equal(x: Value, y: Value): Truth {
    if x.None? || y.None? then Panic else Holds(x == y)
  }

  function LessThan(x: Value, y: Value): Truth {
    if x.None? || y.None? || |x.value| != |y.value| then Panic else Holds(LexLess(x.value, y.value))
  }

  function GreaterOrEqual(x: Value, y: Value): Truth {
    Not(LessThan(x, y))
  }

  function Zeros(n: nat): Bytes {
    seq(n, _ => 0)
  }

  function IsZero(x: Value): Truth {
    if x.None? then Panic else Holds(x.value == Zeros(|x.value|))
  }

  /** Bytes `lo` to `hi`, both included. */
  function Slice(x: Value, lo: nat, hi: nat): Value
    requires lo <= hi
  {
    if x.None? || hi >= |x.value| then None else Some(x.value[lo..hi + 1])
  }

  function ByteOf(x: Value, i: nat): Value {
    Slice(x, i, i)
  }

  function Cat(x: Value, y: Value): Value {
    if x.None? || y.None? then None else Some(x.value + y.value)
  }

  function Len8(x: Bytes): Value {
    if |x| > MAX_UINT8 then None else Some([|x|])
  }

  function Blake2b(e: Env, x: Value): Value {
    if x.None? then None else Some(e.blake2b(x.value))
  }

  // ------------------------------------------------------------------ access to the context

  function Array8(x: Value, i: Value): Value {
    if i.None? || |i.value| != 1 then None else Element(x, MAX_ARRAY_LEN, i.value[0])
  }

  function OutputAt(c: Context, consumed: bool, i: Value): Value {
    if i.None? || |i.value| != 1 then None
    else if consumed then ConsumedOutput(c, i.value[0])
    else ProducedOutput(c, i.value[0])
  }

  function ConsumedConstraintByIndex(c: Context, i: Value): Value {
    Array8(OutputAt(c, true, ByteOf(i, 0)), ByteOf(i, 1))
  }

  function ProducedConstraintByIndex(c: Context, i: Value): Value {
    Array8(OutputAt(c, false, ByteOf(i, 0)), ByteOf(i, 1))
  }

  function UnlockParamsByConstraintIndex(c: Context, i: Value): Value {
    var k := ByteOf(i, 0);
    if k.None? then None else Array8(UnlockBlock(c, k.value[0]), ByteOf(i, 1))
  }

  function InputIDByIndex(c: Context, i: Value): Value {
    if i.None? || |i.value| != 1 then None else InputID(c, i.value[0])
  }

  function TxTimestamp(c: Context): Value {
    TxField(c.txBytes, TX_TIMESTAMP)
  }

  function TxSignature(c: Context): Value {
    TxField(c.txBytes, TX_SIGNATURE)
  }

  /** What is signed; the timestamp is not part of it. */
  function TxEssence(tx: Bytes): Value {
    Cat(Cat(TxField(tx, TX_INPUT_IDS), TxField(tx, TX_OUTPUTS)), TxField(tx, TX_INPUT_COMMITMENT))
  }

  function SelfOutput(c: Context, at: Place): Value {
    if at.consumed then ConsumedOutput(c, at.output) else ProducedOutput(c, at.output)
  }

  function Self(c: Context, at: Place): Value {
    Element(SelfOutput(c, at), MAX_ELEMENTS, at.block)
  }

  function SelfSibling(c: Context, at: Place, i: Value): Value {
    Array8(SelfOutput(c, at), i)
  }

  function SelfUnlock(c: Context, at: Place): Value {
    Element(UnlockBlock(c, at.output), MAX_ELEMENTS, at.block)
  }

  function SelfSiblingUnlock(c: Context, at: Place, i: Value): Value {
    Array8(UnlockBlock(c, at.output), i)
  }

  // ------------------------------------------------------------------ amount and timestamp

  function StorageDepositEnough(c: Context, at: Place, amount: Bytes): Truth {
    var out := SelfOutput(c, at);
    var minimum := if out.None? || |out.value| > MAX_UINT16 then None else Some(BigEndian(|out.value|, 8));
    If(GreaterOrEqual(Some(amount), minimum), True, Panic)
  }

  function AmountConstraint(c: Context, at: Place, amount: Bytes): Truth {
    And(Holds(at.block == AMOUNT_BLOCK),
        Or(Holds(at.consumed),
           And(Equal(Len8(amount), Some([8])),
               StorageDepositEnough(c, at, amount))))
  }

  function TimestampConstraint(c: Context, at: Place, ts: Bytes): Truth {
    And(Holds(at.block == TIMESTAMP_BLOCK),
        Or(And(Holds(!at.consumed), Equal(Some(ts), TxTimestamp(c))),
           And(Holds(at.consumed), LessThan(Some(ts), TxTimestamp(c)))))
  }

  // ------------------------------------------------------------------ locks

  function UnlockedWithSignature(e: Env, c: Context, address: Bytes): Truth {
    var sig := Slice(TxSignature(c), 0, 63);
    var pk := Slice(TxSignature(c), 64, 95);
    var essence := TxEssence(c.txBytes);
    And(Equal(Some(address), Blake2b(e, pk)),
        if essence.None? || sig.None? || pk.None? then Panic
        else Holds(e.verify(essence.value, sig.value, pk.value)))
  }

  /** The same lock at a smaller input index, named by the unlock parameters. */
  function UnlockedByReference(c: Context, at: Place): Truth {
    var u := SelfUnlock(c, at);
    And(LessThan(u, Some([at.output])),
        Equal(Self(c, at), ConsumedConstraintByIndex(c, Cat(u, Some([LOCK_BLOCK])))))
  }

  function AddressConstraint(e: Env, c: Context, at: Place, address: Bytes): Truth {
    And(Holds(at.block == LOCK_BLOCK),
        Or(And(Holds(!at.consumed), Equal(Len8(address), Some([32]))),
           Or(And(Holds(at.consumed), Or(UnlockedByReference(c, at), UnlockedWithSignature(e, c, address))),
              Panic)))
  }

  function DeadlineConstraint(e: Env, c: Context, at: Place, deadline: Bytes, main: Bytes, expiry: Bytes): Truth {
    And(Holds(at.block == LOCK_BLOCK),
        If(LessThan(Some(deadline), TxTimestamp(c)),
           AddressConstraint(e, c, at, main),
           AddressConstraint(e, c, at, expiry)))
  }

  /** The argument of a chain call; anything else panics. */
  function ChainData(e: Env, block: Value): Value {
    if block.Some? && e.decode(block.value).Chain? then Some(e.decode(block.value).arg) else None
  }

  function ChainID(data: Value): Value {
    Slice(data, 0, 31)
  }

  function AdjustedChainID(e: Env, c: Context, unlock: Value, id: Value): Value {
    match IsZero(id)
    case Panic => None
    case True => Blake2b(e, InputIDByIndex(c, ByteOf(unlock, 0)))
    case False => id
  }

  function ValidChainUnlock(e: Env, c: Context, at: Place, id: Bytes): Truth {
    var u := SelfUnlock(c, at);
    var data := ChainData(e, ConsumedConstraintByIndex(c, u));
    And(Equal(Some(id), AdjustedChainID(e, c, u, ChainID(data))),
        Equal(ByteOf(UnlockParamsByConstraintIndex(c, u), 2), Some([0])))
  }

  function ChainLockConstraint(e: Env, c: Context, at: Place, id: Bytes): Truth {
    And(Holds(at.block == LOCK_BLOCK),
        Or(And(Holds(!at.consumed), Equal(Len8(id), Some([32]))),
           And(Holds(at.consumed),
               And(Not(Equal(Some([at.output]), ByteOf(SelfUnlock(c, at), 0))),
                   ValidChainUnlock(e, c, at, id)))))
  }

  // ------------------------------------------------------------------ chain

  const ORIGIN_CHAIN_DATA: Bytes := Zeros(32) + [0xff, 0xff, 0xff]
  const DESTROY_UNLOCK_PARAMS: Bytes := [0xff, 0xff, 0xff]

  function PredecessorIndex(data: Value): Value {
    Slice(data, 32, 33)
  }

  function TransitionMode(data: Value): Value {
    ByteOf(data, 34)
  }

  /** Produced side: the predecessor named in the data has the same identity and was unlocked in the same mode. */
  function ValidPredecessorData(e: Env, c: Context, data: Value, pred: Value): Truth {
    And(If(IsZero(ChainID(pred)),
           And(Equal(pred, Some(ORIGIN_CHAIN_DATA)),
               Equal(ChainID(data), Blake2b(e, InputIDByIndex(c, ByteOf(data, 32))))),
           Equal(ChainID(data), ChainID(pred))),
        Equal(TransitionMode(data), ByteOf(UnlockParamsByConstraintIndex(c, PredecessorIndex(data)), 2)))
  }

  /** Consumed side: the successor named in the unlock parameters has the same identity and points back. */
  function ValidSuccessorData(at: Place, data: Value, succ: Value): Truth {
    And(If(IsZero(ChainID(data)),
           Equal(data, Some(ORIGIN_CHAIN_DATA)),
           Equal(ChainID(data), ChainID(succ))),
        Equal(PredecessorIndex(succ), Some([at.output, at.block])))
  }

  function ChainConstraint(e: Env, c: Context, at: Place, arg: Bytes): Truth {
    var data: Value := Some(arg);
    var u := SelfUnlock(c, at);
    And(Not(Holds(at.output == 0xff)),
        Or(If(And(IsZero(ChainID(data)), Holds(!at.consumed)),
              Or(Equal(data, Some(ORIGIN_CHAIN_DATA)), Panic),
              False),
        Or(And(Holds(at.consumed),
               Or(Equal(u, Some(DESTROY_UNLOCK_PARAMS)),
               Or(ValidSuccessorData(at, data, ChainData(e, ProducedConstraintByIndex(c, Slice(u, 0, 1)))),
                  Panic))),
        Or(And(Holds(!at.consumed),
               Or(ValidPredecessorData(e, c, data, ChainData(e, ConsumedConstraintByIndex(c, PredecessorIndex(data)))),
                  Panic)),
           Panic))))
  }

  // ------------------------------------------------------------------ immutable

  function ImmutableArg(e: Env, block: Value): Value {
    if block.Some? && e.decode(block.value).Immutable? then Some(e.decode(block.value).arg) else None
  }

  function NonEmpty(x: Value): Truth {
    if x.None? then Panic else Holds(x.value != [])
  }

  function ImmutableConstraint(e: Env, c: Context, at: Place, arg: Bytes): Truth {
    var data: Value := Some(arg);
    var u := SelfUnlock(c, at);
    var succ := SelfSiblingUnlock(c, at, ByteOf(data, 0));
    var sibling := SelfSibling(c, at, ByteOf(data, 0));
    Or(And(Holds(!at.consumed),
           And(if sibling.None? then Panic else Holds(e.decode(sibling.value).Chain?),
               NonEmpty(SelfSibling(c, at, ByteOf(data, 1))))),
    Or(And(Holds(at.consumed),
           And(Equal(SelfSibling(c, at, ByteOf(data, 1)),
                     ProducedConstraintByIndex(c, Cat(ByteOf(succ, 0), ByteOf(u, 0)))),
               Equal(ImmutableArg(e, ProducedConstraintByIndex(c, Cat(ByteOf(succ, 0), ByteOf(u, 1)))),
                     Cat(ByteOf(succ, 1), ByteOf(u, 0))))),
       Panic))
  }

  // ------------------------------------------------------------------ sender

  /** The address is that of the key that signed the transaction. */
  function SenderConstraint(e: Env, c: Context, at: Place, address: Bytes): Truth {
    Or(Holds(at.consumed),
       And(Holds(!at.consumed), Equal(Some(address), Blake2b(e, Slice(TxSignature(c), 64, 95)))))
  }

  // ------------------------------------------------------------------ evaluation

  /** The constraint in block `block` of the output, evaluated at its place. */
  function EvalConstraint(e: Env, c: Context, at: Place, block: Bytes): Truth {
    if block == [] then Panic
    else
      match e.decode(block)
      case Amount(a) => AmountConstraint(c, at, a)
      case Timestamp(ts) => TimestampConstraint(c, at, ts)
      case AddressED25519(a) => AddressConstraint(e, c, at, a)
      case DeadlineLock(d, m, x) => DeadlineConstraint(e, c, at, d, m, x)
      case ChainLock(id) => ChainLockConstraint(e, c, at, id)
      case Chain(data) => ChainConstraint(e, c, at, data)
      case Immutable(arg) => ImmutableConstraint(e, c, at, arg)
      case Sender(a) => SenderConstraint(e, c, at, a)
      case Other => Holds(e.other(c, at))
  }
}
