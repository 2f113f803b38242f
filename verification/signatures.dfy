/**
 Unlocking by reference: whatever the chains of references, every address that has to
 be unlocked is the one that signed the transaction.
 */
module Signatures {
  import opened Bytes
  import opened LazyTree
  import opened Context
  import opened Constraints
  import opened Validation
  import opened Chains

  /** The address a lock asks for in this transaction; a deadline lock chooses by the transaction timestamp. */
  function AddressToUnlock(e: Env, c: Context, lock: Bytes): Value {
    match e.decode(lock)
    case AddressED25519(a) => Some(a)
    case DeadlineLock(d, m, x) =>
      (match LessThan(Some(d), TxTimestamp(c)) case Panic => None case True => Some(m) case False => Some(x))
    case _ => None
  }

  predicate AsksForAddress(e: Env, lock: Bytes) {
    e.decode(lock).AddressED25519? || e.decode(lock).DeadlineLock?
  }

  lemma LockHolds(e: Env, c: Context, i: Byte, lock: Bytes)
    requires AsksForAddress(e, lock)
    requires EvalConstraint(e, c, Place(true, i, LOCK_BLOCK), lock) == True
    ensures AddressToUnlock(e, c, lock).Some?
    ensures UnlockedByReference(c, Place(true, i, LOCK_BLOCK)) == True
      || UnlockedWithSignature(e, c, AddressToUnlock(e, c, lock).value) == True
  {
    hide UnlockedByReference, UnlockedWithSignature, TxTimestamp, LessThan;
  }

  lemma {:induction false} ReferenceReads(e: Env, c: Context, i: Byte)
    requires Accepted(e, c)
    requires UnlockedByReference(c, Place(true, i, LOCK_BLOCK)) == True
    ensures var u := Unlock(c, i, LOCK_BLOCK);
      u.Some? && |u.value| == 1 && u.value[0] < i
      && BlockAt(c, true, u.value[0], LOCK_BLOCK).Some?
      && BlockAt(c, true, u.value[0], LOCK_BLOCK) == BlockAt(c, true, i, LOCK_BLOCK)
  {
    hide Accepted, OutputsRead, Element, ConsumedConstraintByIndex;
    var u := Unlock(c, i, LOCK_BLOCK).value;
    assert LexLess(u, [i]) && u == [u[0]];
    LexLessOne(u[0], i);
    assert u + [LOCK_BLOCK] == [u[0], LOCK_BLOCK];
    AcceptedReads(e, c);
    IndexedBlock(c, true, u[0], LOCK_BLOCK);
  }

  /**
   The address asked for by any consumed address lock, or by the branch a consumed
   deadline lock evaluates, is the hash of the public key whose signature on the
   essence is valid. References go to strictly smaller inputs, so they end.
   */
  lemma {:induction false} ReferencesAreGrounded(e: Env, c: Context, i: Byte)
    requires Accepted(e, c) && BlockAt(c, true, i, LOCK_BLOCK).Some?
    requires AsksForAddress(e, BlockAt(c, true, i, LOCK_BLOCK).value)
    ensures AddressToUnlock(e, c, BlockAt(c, true, i, LOCK_BLOCK).value).Some?
    ensures UnlockedWithSignature(e, c, AddressToUnlock(e, c, BlockAt(c, true, i, LOCK_BLOCK).value).value) == True
    decreases i
  {
    hide Accepted, BlockAt, Unlock, UnlockedByReference, UnlockedWithSignature, EvalConstraint, OutputOK;
    BlockHolds(e, c, true, i, LOCK_BLOCK);
    LockHolds(e, c, i, BlockAt(c, true, i, LOCK_BLOCK).value);
    if UnlockedByReference(c, Place(true, i, LOCK_BLOCK)) == True {
      ReferenceReads(e, c, i);
      ReferencesAreGrounded(e, c, Unlock(c, i, LOCK_BLOCK).value[0]);
    }
  }

  /** All addresses unlocked in one transaction are the same one: it has a single signer. */
  lemma {:induction false} SingleSigner(e: Env, c: Context, i: Byte, j: Byte)
    requires Accepted(e, c)
    requires BlockAt(c, true, i, LOCK_BLOCK).Some? && AsksForAddress(e, BlockAt(c, true, i, LOCK_BLOCK).value)
    requires BlockAt(c, true, j, LOCK_BLOCK).Some? && AsksForAddress(e, BlockAt(c, true, j, LOCK_BLOCK).value)
    ensures AddressToUnlock(e, c, BlockAt(c, true, i, LOCK_BLOCK).value)
      == AddressToUnlock(e, c, BlockAt(c, true, j, LOCK_BLOCK).value)
  {
    hide Accepted, BlockAt, AsksForAddress, AddressToUnlock;
    ReferencesAreGrounded(e, c, i);
    ReferencesAreGrounded(e, c, j);
  }
}
