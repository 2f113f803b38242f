/**
 What the chain constraints establish together in one accepted transaction. Each of
 them is a partial check from one side, consumed or produced.
 */
module Chains {
  import opened Bytes
  import opened Codec
  import opened LazyTree
  import opened Context
  import opened Constraints
  import opened Validation

  /** Block `j` of output `i` on one side of the transaction. */
  function BlockAt(c: Context, consumed: bool, i: Byte, j: Byte): Value {
    Self(c, Place(consumed, i, j))
  }

  /** A transaction that passed validation in its context. */
  predicate Accepted(e: Env, c: Context) {
    Buildable(c) && Validation.Valid(e, c)
  }

  /** The data of a chain constraint at block `j` of output `i`; None if there is none. */
  function ChainAt(e: Env, c: Context, consumed: bool, i: Byte, j: Byte): Value {
    ChainData(e, BlockAt(c, consumed, i, j))
  }

  function Unlock(c: Context, i: Byte, j: Byte): Value {
    SelfUnlock(c, Place(true, i, j))
  }

  /** The chain id of consumed chain data; for an origin it is the hash of the consumed output's ID. */
  function AdjustedID(e: Env, c: Context, i: Byte, data: Bytes): Value {
    if |data| < 32 then None
    else if data[..32] == Zeros(32) then Blake2b(e, InputID(c, i))
    else Some(data[..32])
  }

  /** Every block of every output of an accepted transaction was evaluated to true. */
  lemma {:induction false} BlockHolds(e: Env, c: Context, consumed: bool, i: Byte, j: Byte)
    requires Accepted(e, c) && BlockAt(c, consumed, i, j).Some?
    ensures EvalConstraint(e, c, Place(consumed, i, j), BlockAt(c, consumed, i, j).value) == True
    ensures OutputOK(e, c, consumed, i, SelfOutput(c, Place(consumed, i, j)).value)
  {
    var outputs := if consumed then c.consumed else Outputs(c.txBytes).value;
    assert OutputsOK(e, c, consumed, outputs);
    hide EvalConstraint, Outputs, Parse, IndexOK, AmountIn, AmountOf, Buildable, Sum, CommitmentOK;
    assert OutputOK(e, c, consumed, i, outputs[i]);
  }

  /** Every output on either side parses, with at most 256 blocks. */
  predicate OutputsRead(c: Context) {
    forall consumed: bool, i: Byte {:trigger SelfOutput(c, Place(consumed, i, 0))} ::
      SelfOutput(c, Place(consumed, i, 0)).Some? ==> Blocks(SelfOutput(c, Place(consumed, i, 0)).value).Some?
  }

  lemma {:induction false} OutputParses(e: Env, c: Context, consumed: bool, i: Byte)
    requires Accepted(e, c) && SelfOutput(c, Place(consumed, i, 0)).Some?
    ensures Parse(SelfOutput(c, Place(consumed, i, 0)).value, MAX_ELEMENTS).Some?
  {
    var outputs := if consumed then c.consumed else Outputs(c.txBytes).value;
    assert OutputsOK(e, c, consumed, outputs);
    hide Outputs, RunsOK, IndexOK, AmountIn, AmountOf, Buildable, Validation.Valid, Parse;
    assert OutputOK(e, c, consumed, i, outputs[i]);
  }

  /** In an accepted transaction they all do. */
  lemma {:induction false} AcceptedReads(e: Env, c: Context)
    requires Accepted(e, c)
    ensures OutputsRead(c)
  {
    hide Accepted, SelfOutput, Parse;
    forall consumed: bool, i: Byte | SelfOutput(c, Place(consumed, i, 0)).Some?
      ensures Blocks(SelfOutput(c, Place(consumed, i, 0)).value).Some?
    {
      OutputParses(e, c, consumed, i);
    }
  }

  /** Reaching a block by its two-byte index reaches the same block. */
  lemma IndexedBlock(c: Context, consumed: bool, i: Byte, j: Byte)
    requires OutputsRead(c)
    ensures
      (if consumed then ConsumedConstraintByIndex(c, Some([i, j])) else ProducedConstraintByIndex(c, Some([i, j])))
      == BlockAt(c, consumed, i, j)
  {
    hide Outputs, Parse;
    assert [i, j][0..1] == [i] && [i, j][1..2] == [j];
    var output := SelfOutput(c, Place(consumed, i, 0));
    if output.Some? {
      ParseMonotone(output.value, MAX_ELEMENTS, MAX_ARRAY_LEN);
    }
  }

  lemma IndexedUnlock(c: Context, i: Byte, j: Byte)
    requires Unlock(c, i, j).Some?
    ensures UnlockParamsByConstraintIndex(c, Some([i, j])) == Unlock(c, i, j)
  {
    assert [i, j][0..1] == [i] && [i, j][1..2] == [j];
    ParseMonotone(UnlockBlock(c, i).value, MAX_ELEMENTS, MAX_ARRAY_LEN);
  }

  // ------------------------------------------------------------------ reading the chain constraint

  /** On the consumed side: destroyed, or the named successor has the same identity and points back. */
  predicate SuccessorNamed(e: Env, c: Context, i: Byte, j: Byte, data: Bytes, u: Bytes)
    requires |data| >= 32
  {
    && |u| >= 2
    && var succ := ChainAt(e, c, false, u[0], u[1]);
    && succ.Some? && |succ.value| >= 34
    && succ.value[32..34] == [i, j]
    && (if data[..32] == Zeros(32) then data == ORIGIN_CHAIN_DATA else data[..32] == succ.value[..32])
  }

  lemma {:induction false} ConsumedChainMeans(e: Env, c: Context, i: Byte, j: Byte, data: Bytes)
    requires OutputsRead(c) && |data| >= 32
    ensures ChainConstraint(e, c, Place(true, i, j), data) == True <==>
      && i != 0xff && Unlock(c, i, j).Some?
      && (Unlock(c, i, j).value == DESTROY_UNLOCK_PARAMS || SuccessorNamed(e, c, i, j, data, Unlock(c, i, j).value))
  {
    hide OutputsRead, Outputs, Parse;
    var u := Unlock(c, i, j);
    if u.Some? && |u.value| >= 2 {
      assert u.value[0..2] == [u.value[0], u.value[1]];
      IndexedBlock(c, false, u.value[0], u.value[1]);
    }
    assert data[0..32] == data[..32];
  }

  /** On the produced side: an origin, or the named predecessor has this identity and was unlocked in this mode. */
  predicate PredecessorNamed(e: Env, c: Context, data: Bytes)
    requires |data| >= 32
  {
    && |data| >= 35 && data[..32] != Zeros(32)
    && var p, q := data[32], data[33];
    && var pred := ChainAt(e, c, true, p, q);
    && pred.Some? && |pred.value| >= 32
    && (if pred.value[..32] == Zeros(32)
        then pred.value == ORIGIN_CHAIN_DATA && Some(data[..32]) == Blake2b(e, InputID(c, p))
        else data[..32] == pred.value[..32])
    && var u := UnlockParamsByConstraintIndex(c, Some([p, q]));
    && u.Some? && |u.value| >= 3 && u.value[2] == data[34]
  }

  lemma {:induction false} PredecessorMeans(e: Env, c: Context, data: Bytes)
    requires OutputsRead(c) && |data| >= 32 && data[..32] != Zeros(32)
    ensures
      ValidPredecessorData(e, c, Some(data), ChainData(e, ConsumedConstraintByIndex(c, PredecessorIndex(Some(data)))))
      == True
      <==> PredecessorNamed(e, c, data)
  {
    hide OutputsRead, Outputs, Parse, Array8, InputID;
    assert data[0..32] == data[..32];
    if |data| >= 35 {
      var p, q := data[32], data[33];
      assert data[32..34] == [p, q] && data[32..33] == [p] && data[34..35] == [data[34]];
      IndexedBlock(c, true, p, q);
      var u := UnlockParamsByConstraintIndex(c, Some([p, q]));
      assert u.Some? && |u.value| >= 3 ==> u.value[2..3] == [u.value[2]];
      var pred := ChainAt(e, c, true, p, q);
      assert pred.Some? && |pred.value| >= 32 ==> pred.value[0..32] == pred.value[..32];
    }
  }

  lemma {:induction false} ProducedChainMeans(e: Env, c: Context, i: Byte, j: Byte, data: Bytes)
    requires OutputsRead(c)
    ensures ChainConstraint(e, c, Place(false, i, j), data) == True <==>
      i != 0xff && |data| >= 32 && (data == ORIGIN_CHAIN_DATA || PredecessorNamed(e, c, data))
  {
    hide OutputsRead, ValidPredecessorData, ConsumedConstraintByIndex, ProducedConstraintByIndex;
    assert |data| >= 32 ==> data[0..32] == data[..32];
    assert ORIGIN_CHAIN_DATA[..32] == Zeros(32);
    if |data| >= 32 && data[..32] != Zeros(32) {
      PredecessorMeans(e, c, data);
    }
  }

  /** Chain data in an accepted transaction has an identity, and is not on output 255. */
  lemma {:induction false} ChainIsSound(e: Env, c: Context, consumed: bool, i: Byte, j: Byte)
    requires Accepted(e, c) && ChainAt(e, c, consumed, i, j).Some?
    ensures i != 0xff && |ChainAt(e, c, consumed, i, j).value| >= 32
    ensures ChainConstraint(e, c, Place(consumed, i, j), ChainAt(e, c, consumed, i, j).value) == True
  {
    hide Accepted, BlockAt, OutputOK, ChainConstraint;
    BlockHolds(e, c, consumed, i, j);
    ChainNeedsID(e, c, Place(consumed, i, j), ChainAt(e, c, consumed, i, j).value);
  }

  lemma ChainNeedsID(e: Env, c: Context, at: Place, data: Bytes)
    requires ChainConstraint(e, c, at, data) == True
    ensures at.output != 0xff && |data| >= 32
  {
    hide ValidPredecessorData, ValidSuccessorData, SelfUnlock, ChainData, ConsumedConstraintByIndex,
      ProducedConstraintByIndex;
  }

  // ------------------------------------------------------------------ what they establish together

  ghost predicate IsSuccessor(e: Env, c: Context, i: Byte, j: Byte, u: Bytes) {
    && |u| >= 3
    && ChainAt(e, c, true, i, j).Some?
    && var succ := ChainAt(e, c, false, u[0], u[1]);
    && succ.Some? && |succ.value| >= 35
    && succ.value[32..34] == [i, j]
    && succ.value[..32] != Zeros(32)
    && Some(succ.value[..32]) == AdjustedID(e, c, i, ChainAt(e, c, true, i, j).value)
    && succ.value[34] == u[2]
  }

  /** The chain goes on at the named successor, or is destroyed. */
  ghost predicate Continues(e: Env, c: Context, i: Byte, j: Byte) {
    && Unlock(c, i, j).Some?
    && (Unlock(c, i, j).value == DESTROY_UNLOCK_PARAMS || IsSuccessor(e, c, i, j, Unlock(c, i, j).value))
  }

  /**
   Chain step: a consumed chain constraint is either destroyed, or its unlock
   parameters name a produced chain constraint that points back to it, has the same
   (adjusted) chain id, and carries the unlocked mode.
   */
  lemma {:induction false} ChainStep(e: Env, c: Context, i: Byte, j: Byte)
    requires Accepted(e, c) && ChainAt(e, c, true, i, j).Some?
    ensures Continues(e, c, i, j)
  {
    hide Accepted, OutputsRead, ChainAt, ChainConstraint, Unlock, IsSuccessor, SuccessorNamed;
    var data := ChainAt(e, c, true, i, j).value;
    ChainIsSound(e, c, true, i, j);
    AcceptedReads(e, c);
    ConsumedChainMeans(e, c, i, j, data);
    var u := Unlock(c, i, j).value;
    if u != DESTROY_UNLOCK_PARAMS {
      SuccessorStep(e, c, i, j, data, u);
    }
  }

  lemma {:induction false} SuccessorStep(e: Env, c: Context, i: Byte, j: Byte, data: Bytes, u: Bytes)
    requires Accepted(e, c) && ChainAt(e, c, true, i, j) == Some(data) && i != 0xff && |data| >= 32
    requires Unlock(c, i, j) == Some(u) && SuccessorNamed(e, c, i, j, data, u)
    ensures IsSuccessor(e, c, i, j, u)
  {
    hide Accepted, OutputsRead, ChainAt, ChainConstraint, Unlock, UnlockParamsByConstraintIndex;
    var succ := ChainAt(e, c, false, u[0], u[1]).value;
    ChainIsSound(e, c, false, u[0], u[1]);
    AcceptedReads(e, c);
    ProducedChainMeans(e, c, u[0], u[1], succ);
    IndexedUnlock(c, i, j);
    assert succ[32] == succ[32..34][0] == i && succ[33] == succ[32..34][1] == j;
    assert ORIGIN_CHAIN_DATA[32] == 0xff;
  }

  /** The destroy marker can never be mistaken for a successor: nothing at output 255 is a chain. */
  lemma {:induction false} DestroyMarkerNamesNoSuccessor(e: Env, c: Context, i: Byte, j: Byte)
    requires Accepted(e, c)
    ensures !IsSuccessor(e, c, i, j, DESTROY_UNLOCK_PARAMS)
  {
    hide Accepted, ChainAt;
    if ChainAt(e, c, false, 0xff, 0xff).Some? {
      ChainIsSound(e, c, false, 0xff, 0xff);
    }
  }

  /** Different consumed chain constraints that go on have different successors. */
  lemma SuccessorsDiffer(e: Env, c: Context, i: Byte, j: Byte, u: Bytes, i': Byte, j': Byte, u': Bytes)
    requires IsSuccessor(e, c, i, j, u) && IsSuccessor(e, c, i', j', u') && u[..2] == u'[..2]
    ensures i == i' && j == j'
  {
    hide ChainAt, AdjustedID;
    assert u[0] == u[..2][0] == u'[0] && u[1] == u[..2][1] == u'[1];
    assert [i, j] == [i', j'];
    assert [i, j][0] == [i', j'][0] && [i, j][1] == [i', j'][1];
  }

  // ------------------------------------------------------------------ chain locks

  /** The chain that unlocks a chain-locked output: a consumed chain constraint at (p, q) on another input. */
  ghost predicate InTransit(e: Env, c: Context, i: Byte, id: Bytes, p: Byte, q: Byte) {
    && p != i
    && ChainAt(e, c, true, p, q).Some?
    && AdjustedID(e, c, p, ChainAt(e, c, true, p, q).value) == Some(id)
    && Unlock(c, p, q).Some?
    && IsSuccessor(e, c, p, q, Unlock(c, p, q).value)
    && Unlock(c, p, q).value[2] == 0
  }

  /**
   Consuming an output locked to chain `id` implies that the chain makes a state
   transition in the same transaction: a chain constraint with this adjusted id is
   consumed at another input, and its successor, of mode 0, is produced.
   */
  lemma {:induction false} ChainLockMeansTransit(e: Env, c: Context, i: Byte, id: Bytes)
    requires Accepted(e, c) && BlockAt(c, true, i, LOCK_BLOCK).Some?
    requires e.decode(BlockAt(c, true, i, LOCK_BLOCK).value) == ChainLock(id)
    ensures Unlock(c, i, LOCK_BLOCK).Some? && |Unlock(c, i, LOCK_BLOCK).value| >= 2
    ensures var u := Unlock(c, i, LOCK_BLOCK).value;
      InTransit(e, c, i, id, u[0], u[1])
  {
    hide Accepted, OutputsRead, ChainAt, BlockAt, Unlock, AdjustedID, ChainLockConstraint, OutputOK,
      UnlockParamsByConstraintIndex;
    BlockHolds(e, c, true, i, LOCK_BLOCK);
    AcceptedReads(e, c);
    ConsumedChainLockMeans(e, c, i, id);
    var u := Unlock(c, i, LOCK_BLOCK).value;
    ChainStep(e, c, u[0], u[1]);
    IndexedUnlock(c, u[0], u[1]);
    assert DESTROY_UNLOCK_PARAMS[2] == 0xff;
  }

  /** The unlock parameters of a consumed chain lock name a chain constraint of this id on another input, in mode 0. */
  predicate ChainNamed(e: Env, c: Context, i: Byte, id: Bytes) {
    var u := Unlock(c, i, LOCK_BLOCK);
    && u.Some? && |u.value| >= 2 && u.value[0] != i
    && var p, q := u.value[0], u.value[1];
    && ChainAt(e, c, true, p, q).Some?
    && AdjustedID(e, c, p, ChainAt(e, c, true, p, q).value) == Some(id)
    && var v := UnlockParamsByConstraintIndex(c, Some([p, q]));
    && v.Some? && |v.value| >= 3 && v.value[2] == 0
  }

  lemma {:induction false} ConsumedChainLockMeans(e: Env, c: Context, i: Byte, id: Bytes)
    requires OutputsRead(c)
    ensures ChainLockConstraint(e, c, Place(true, i, LOCK_BLOCK), id) == True <==> ChainNamed(e, c, i, id)
  {
    hide OutputsRead, Outputs, InputID, Parse;
    var u := Unlock(c, i, LOCK_BLOCK);
    if u.Some? && |u.value| >= 1 {
      assert u.value[0..1] == [u.value[0]];
    }
    if u.Some? && |u.value| >= 2 {
      assert u.value[1..2] == [u.value[1]];
      var p, q := u.value[0], u.value[1];
      assert [p, q][0..1] == [p] && [p, q][1..2] == [q];
      assert ConsumedConstraintByIndex(c, u) == ConsumedConstraintByIndex(c, Some([p, q]));
      assert UnlockParamsByConstraintIndex(c, u) == UnlockParamsByConstraintIndex(c, Some([p, q]));
      IndexedBlock(c, true, p, q);
      var data := ChainAt(e, c, true, p, q);
      assert data.Some? && |data.value| >= 32 ==> data.value[0..32] == data.value[..32];
      var v := UnlockParamsByConstraintIndex(c, Some([p, q]));
      assert v.Some? && |v.value| >= 3 ==> v.value[2..3] == [v.value[2]];
    }
  }
}
