/**
 Completeness of the transfer from a chain: exactly when the ledger accepts the
 transaction that the maker puts together.
 */
module ChainTransferAccepted {
  import opened Bytes
  import opened Codec
  import opened LazyTree
  import opened Context
  import opened Constraints
  import opened Validation
  import opened Ledger
  import opened Supply
  import opened Signatures
  import opened OutputView
  import opened Selection
  import opened Builder
  import opened StandardOutputs
  import opened Transfer
  import opened ChainTransfer
  import opened BuiltTransactions
  import opened SimpleTransferAccepted
  import opened PlainTransfers

  /**
   The chain output as the builder finds it: an unspent output it can read, and after the
   lock a chain constraint that stands for the chain id.
   */
  ghost predicate ChainOutputFound(e: Env, utxos: UTXOs, chain: ChainOutput) {
    && chain.id in utxos && utxos[chain.id] == chain.output && ParsesAsOutput(e, chain.output)
    && LOCK_BLOCK < chain.block < |Blocks(chain.output).value|
    && ChainBlockFor(e, chain, Blocks(chain.output).value[chain.block])
  }

  /** A chain constraint that stands for the chain id: an origin on this output, or one that carries the id. */
  predicate ChainBlockFor(e: Env, chain: ChainOutput, block: Bytes) {
    && IsChainBlock(e, block)
    && ChainIDOf(e, e.decode(block).arg, chain.id) == chain.chainID
  }

  // ------------------------------------------------------------------ the constraints, one by one

  lemma SuccessorDataParts(chain: ChainOutput)
    requires |chain.chainID| == 32
    ensures var data := SuccessorData(chain);
      && |data| == 35 && data[0..32] == chain.chainID && data[32..34] == [0, chain.block]
      && data[34..35] == [0] && data[32..33] == [0]
  {
  }

  lemma ChainIDSized(e: Env, chain: ChainOutput, block: Bytes)
    requires Sound(e) && ChainBlockFor(e, chain, block)
    ensures |chain.chainID| == 32 && block != []
  {
  }

  /** Chain data that stands for a chain id other than zero is the origin data or has that id. */
  lemma ZeroIDIsOrigin(e: Env, chain: ChainOutput, data: Bytes)
    requires |data| == 35 && ChainIDOf(e, data, chain.id) == chain.chainID && chain.chainID != Zeros(32)
    ensures ORIGIN_CHAIN_DATA[..32] == Zeros(32)
    ensures if data[..32] == Zeros(32) then data == ORIGIN_CHAIN_DATA && chain.chainID == e.blake2b(chain.id)
            else data[..32] == chain.chainID
  {
  }

  /** The consumed chain constraint is unlocked for the transition to its successor. */
  lemma ConsumedChainHolds(e: Env, c: Context, chain: ChainOutput, block: Bytes, succ: Bytes)
    requires ChainBlockFor(e, chain, block) && block != [] && |chain.chainID| == 32 && chain.chainID != Zeros(32)
    requires SelfUnlock(c, Place(true, 0, chain.block)) == Some([0, chain.block, 0])
    requires ProducedConstraintByIndex(c, Some([0, chain.block])) == Some(succ)
    requires e.decode(succ) == Chain(SuccessorData(chain))
    ensures EvalConstraint(e, c, Place(true, 0, chain.block), block) == True
  {
    hide SelfUnlock, ProducedConstraintByIndex, SuccessorData, ConsumedConstraintByIndex;
    SuccessorDataParts(chain);
    var data := e.decode(block).arg;
    assert [0, chain.block, 0][0..2] == [0, chain.block];
    assert data[0..32] == data[..32];
    ZeroIDIsOrigin(e, chain, data);
  }

  /** The produced chain constraint continues the consumed one. */
  lemma ProducedChainHolds(e: Env, c: Context, chain: ChainOutput, block: Bytes, succ: Bytes)
    requires ChainBlockFor(e, chain, block) && block != [] && |chain.chainID| == 32 && chain.chainID != Zeros(32)
    requires ConsumedConstraintByIndex(c, Some([0, chain.block])) == Some(block)
    requires UnlockParamsByConstraintIndex(c, Some([0, chain.block])) == Some([0, chain.block, 0])
    requires InputID(c, 0) == Some(chain.id)
    requires e.decode(succ) == Chain(SuccessorData(chain)) && succ != []
    ensures EvalConstraint(e, c, Place(false, 0, chain.block), succ) == True
  {
    hide SelfUnlock, ProducedConstraintByIndex, SuccessorData, ConsumedConstraintByIndex,
      UnlockParamsByConstraintIndex, InputID;
    SuccessorDataParts(chain);
    var data := e.decode(block).arg;
    assert [0, chain.block, 0][2..3] == [0];
    assert data[0..32] == data[..32];
    ZeroIDIsOrigin(e, chain, data);
  }

  /** A produced chain constraint with the id zero that is no origin never holds. */
  lemma ZeroIDFails(e: Env, c: Context, chain: ChainOutput, succ: Bytes)
    requires chain.chainID == Zeros(32) && e.decode(succ) == Chain(SuccessorData(chain))
    ensures EvalConstraint(e, c, Place(false, 0, chain.block), succ) != True
  {
    hide ValidPredecessorData, ValidSuccessorData, ConsumedConstraintByIndex;
    SuccessorDataParts(chain);
    hide SuccessorData;
    assert ORIGIN_CHAIN_DATA[34..35] == [0xff];
  }

  /** An output locked in the chain is unlocked by the chain's transition. */
  lemma ChainLockHolds(e: Env, c: Context, i: Byte, chain: ChainOutput, block: Bytes, lock: Bytes)
    requires ChainBlockFor(e, chain, block) && i > 0 && |chain.chainID| == 32 && chain.chainID != Zeros(32)
    requires e.decode(lock) == ChainLock(chain.chainID) && lock != []
    requires SelfUnlock(c, Place(true, i, LOCK_BLOCK)) == Some([0, chain.block])
    requires ConsumedConstraintByIndex(c, Some([0, chain.block])) == Some(block)
    requires UnlockParamsByConstraintIndex(c, Some([0, chain.block])) == Some([0, chain.block, 0])
    requires InputID(c, 0) == Some(chain.id)
    ensures EvalConstraint(e, c, Place(true, i, LOCK_BLOCK), lock) == True
  {
    hide SelfUnlock, ConsumedConstraintByIndex, UnlockParamsByConstraintIndex, InputID;
    var data := e.decode(block).arg;
    assert [0, chain.block][0..1] == [0];
    assert [0, chain.block, 0][2..3] == [0];
    assert data[0..32] == data[..32];
    ZeroIDIsOrigin(e, chain, data);
  }

  /** Nothing but a lock in this chain is unlocked by it. */
  lemma OnlyChainLockHolds(e: Env, c: Context, i: Byte, chain: ChainOutput, block: Bytes, lock: Bytes)
    requires ChainBlockFor(e, chain, block) && |chain.chainID| == 32 && chain.chainID != Zeros(32)
    requires LockTags(e, lock).Some?
    requires SelfUnlock(c, Place(true, i, LOCK_BLOCK)) == Some([0, chain.block])
    requires ConsumedConstraintByIndex(c, Some([0, chain.block])) == Some(block)
    requires InputID(c, 0) == Some(chain.id)
    requires EvalConstraint(e, c, Place(true, i, LOCK_BLOCK), lock) == True
    ensures e.decode(lock) == ChainLock(chain.chainID)
  {
    hide SelfUnlock, ConsumedConstraintByIndex, UnlockParamsByConstraintIndex, InputID, UnlockedWithSignature,
      TxTimestamp, Self;
    var data := e.decode(block).arg;
    assert [0, chain.block][0..1] == [0];
    assert data[0..32] == data[..32];
    ZeroIDIsOrigin(e, chain, data);
  }

  // ------------------------------------------------------------------ what the built transaction holds

  lemma ChainUnlocksAt(n: nat, block: Byte, i: nat)
    requires i <= n && block > LOCK_BLOCK
    ensures |ChainUnlocks(n, block)| == n + 1
    ensures |ChainUnlocks(n, block)[i]| == if i == 0 then block + 1 else 3
    ensures ChainUnlocks(n, block)[i][LOCK_BLOCK] == if i == 0 then [0xff] else [0, block]
    ensures i == 0 ==> ChainUnlocks(n, block)[0][block] == [0, block, 0]
    ensures forall j :: 0 <= j < |ChainUnlocks(n, block)[i]| && j != LOCK_BLOCK && (i == 0 ==> j != block) ==>
      ChainUnlocks(n, block)[i][j] == []
  {
    var first := Grow(Grow([], LOCK_BLOCK, [0xff]), block, [0, block, 0]);
    var other := Grow([], LOCK_BLOCK, [0, block]);
    assert ChainUnlocks(n, block)[i] == if i == 0 then first else other;
  }

  lemma ChainUnlocksSmall(n: nat, block: Byte)
    requires block > LOCK_BLOCK
    ensures forall k :: 0 <= k < n + 1 ==> SmallBlock(ChainUnlocks(n, block)[k])
  {
    forall k | 0 <= k < n + 1
      ensures SmallBlock(ChainUnlocks(n, block)[k])
    {
      ChainUnlocksAt(n, block, k);
    }
  }

  /** The chain output, then the chosen outputs. */
  function AllConsumed(chain: ChainOutput, chosen: seq<OutputWithID>): seq<OutputWithID> {
    [OutputWithID(chain.id, chain.output)] + chosen
  }

  lemma AllConsumedLists(chain: ChainOutput, chosen: seq<OutputWithID>)
    ensures OutputsOf(AllConsumed(chain, chosen)) == [chain.output] + OutputsOf(chosen)
    ensures IDsOf(AllConsumed(chain, chosen)) == [chain.id] + IDsOf(chosen)
  {
  }

  /** A built transfer whose consumed side is the chain output and the chosen outputs. */
  ghost predicate TransferContext(e: Env, utxos: UTXOs, t: Transaction, c: Context, chain: ChainOutput,
                                  chosen: seq<OutputWithID>) {
    && BuiltIn(e, utxos, t, c)
    && |chosen| < MAX_OUTPUTS
    && c.consumed == OutputsOf(AllConsumed(chain, chosen))
    && t.inputIDs == IDsOf(AllConsumed(chain, chosen))
    && t.unlockBlocks == ChainUnlocks(|chosen|, chain.block)
  }

  /** The unlock data of the chain input, and the chain constraint reached from elsewhere. */
  lemma {:induction false} ChainInputFacts(e: Env, utxos: UTXOs, t: Transaction, c: Context, chain: ChainOutput,
                                           chosen: seq<OutputWithID>)
    requires TransferContext(e, utxos, t, c, chain, chosen) && ChainOutputFound(e, utxos, chain)
    ensures SelfUnlock(c, Place(true, 0, LOCK_BLOCK)) == Some([0xff])
    ensures SelfUnlock(c, Place(true, 0, chain.block)) == Some([0, chain.block, 0])
    ensures UnlockParamsByConstraintIndex(c, Some([0, chain.block])) == Some([0, chain.block, 0])
    ensures ConsumedConstraintByIndex(c, Some([0, chain.block])) == Some(Blocks(chain.output).value[chain.block])
    ensures InputID(c, 0) == Some(chain.id)
    ensures c.consumed[0] == chain.output
  {
    hide TransactionBytes, MakeContext, Buildable, InputCommitment, SelfUnlock, UnlockParamsByConstraintIndex,
      ConsumedConstraintByIndex, Self, Parse, InputIDs, ChainUnlocks, ChainBlockFor, ParsesAsOutput, ConsumedOutput,
      InputID;
    BuiltReads(e, utxos, t, c);
    ThreeBlocks(e, chain.output);
    ChainUnlocksAt(|chosen|, chain.block, 0);
    UnlockAgrees(t, c, 0, LOCK_BLOCK);
    UnlockAgrees(t, c, 0, chain.block);
    BlockByIndex(c, true, 0, chain.output, chain.block);
  }

  /** The unlock data of every other input. */
  lemma {:induction false} OtherInputFacts(e: Env, utxos: UTXOs, t: Transaction, c: Context, chain: ChainOutput,
                                           chosen: seq<OutputWithID>,
                                           i: Byte)
    requires TransferContext(e, utxos, t, c, chain, chosen) && chain.block > LOCK_BLOCK && 0 < i <= |chosen|
    ensures SelfUnlock(c, Place(true, i, LOCK_BLOCK)) == Some([0, chain.block])
    ensures c.consumed[i] == chosen[i - 1].output
  {
    hide TransactionBytes, MakeContext, Buildable, InputCommitment, SelfUnlock, UnlockParamsByConstraintIndex,
      ChainUnlocks;
    ChainUnlocksAt(|chosen|, chain.block, i);
    UnlockAgrees(t, c, i, LOCK_BLOCK);
  }

  // ------------------------------------------------------------------ the conditions

  /** The blocks after the lock, other than the chain constraint, hold in the first output of this side. */
  predicate OthersHold(e: Env, c: Context, consumed: bool, blocks: seq<Bytes>, chain: Byte)
    requires |blocks| <= MAX_ELEMENTS
  {
    forall j {:trigger EvalConstraint(e, c, Place(consumed, 0, j), blocks[j])} ::
      LOCK_BLOCK < j < |blocks| && j != chain ==> EvalConstraint(e, c, Place(consumed, 0, j), blocks[j]) == True
  }

  /** The chain output is older, covers its size, asks for the sender's address, and holds in its other blocks. */
  predicate ChainInputHolds(e: Env, c: Context, par: TransferData, chain: ChainOutput, ts: nat)
    requires ParsesAsOutput(e, chain.output)
  {
    && TimestampIn(e, chain.output) < ts && |chain.output| <= AmountIn(e, chain.output)
    && AddressAtTime(e, LockOf(e, chain.output), ts) == Some(SenderAddress(e, par))
    && OthersHold(e, c, true, Blocks(chain.output).value, chain.block)
  }

  /** The successor covers its deposit, its copied blocks hold again, and no block is repeated. */
  predicate SuccessorHolds(e: Env, c: Context, chain: ChainOutput, amount: nat, ts: nat)
    requires ParsesAsOutput(e, chain.output)
  {
    && Encode(SuccessorBlocks(e, chain, amount, ts)).Some?
    && Covered(Encode(SuccessorBlocks(e, chain, amount, ts)).value, amount)
    && OthersHold(e, c, false, Blocks(chain.output).value, chain.block)
    && Distinct(SuccessorBlocks(e, chain, amount, ts))
  }

  /** The main output covers its deposit, and its constraints hold and differ. */
  predicate MainHolds(e: Env, c: Context, par: TransferData, amount: nat, ts: nat) {
    |MainBlocks(e, par, amount, ts)| <= MAX_ELEMENTS && MadeHolds(e, c, 1, MainBlocks(e, par, amount, ts), amount)
  }

  /** Every chosen output is older, covers its size, is locked in the chain, and holds in the blocks after its lock. */
  ghost predicate ChosenHold(e: Env, c: Context, chain: ChainOutput, chosen: seq<OutputWithID>, ts: nat)
    requires AllOutputs(e, chosen) && |chosen| < MAX_OUTPUTS
  {
    forall k: Byte {:trigger chosen[k]} :: k < |chosen| ==>
      && InputHolds(e, c, k + 1, chosen[k].output, ts)
      && e.decode(LockOf(e, chosen[k].output)) == ChainLock(chain.chainID)
  }

  // ------------------------------------------------------------------ the consumed side

  lemma {:induction false} OthersAndChain(e: Env, c: Context, consumed: bool, blocks: seq<Bytes>, chain: Byte)
    requires LOCK_BLOCK < chain < |blocks| <= MAX_ELEMENTS
    requires EvalConstraint(e, c, Place(consumed, 0, chain), blocks[chain]) == True
    ensures BlocksHold(e, c, consumed, 0, blocks, LOCK_BLOCK + 1) <==> OthersHold(e, c, consumed, blocks, chain)
  {
    hide EvalConstraint;
  }

  lemma {:induction false} ChainInputMeans(e: Env, utxos: UTXOs, par: TransferData, t: Transaction, c: Context,
                                           chain: ChainOutput,
                                           chosen: seq<OutputWithID>, succ: Bytes)
    requires SignedTransfer(e, par) && ChainOutputFound(e, utxos, chain)
    requires TransferContext(e, utxos, t, c, chain, chosen)
    requires AllOutputs(e, chosen) && SignedBy(e, c, par.key)
    requires UnlockedWithSignature(e, c, SenderAddress(e, par)) == True
    requires chain.chainID != Zeros(32)
    requires ProducedConstraintByIndex(c, Some([0, chain.block])) == Some(succ)
    requires e.decode(succ) == Chain(SuccessorData(chain))
    ensures var holds := ChainInputHolds(e, c, par, chain, t.timestamp);
      var ok := OutputOK(e, c, true, 0, c.consumed[0]);
      (holds ==> ok) && (ok && Accepts(e, utxos, c.txBytes) ==> holds)
  {
    hide Sound, SignsFor, BuiltIn, Accepts, EvalConstraint, ParsesAsOutput, UnlockedWithSignature, SignedBy, OutputOK,
      Parse, ChainBlockFor, AddressAtTime, ProducedConstraintByIndex, ConsumedConstraintByIndex,
      UnlockParamsByConstraintIndex, InputID, SelfUnlock, SuccessorData, TimestampIn, AmountIn, BlocksHold, OthersHold,
      TxTimestamp, LockTags, AsksForAddress;
    ThreeBlocks(e, chain.output);
    var blocks, lock := Blocks(chain.output).value, LockOf(e, chain.output);
    AllParse(e, chain, chosen);
    ChainInputFacts(e, utxos, t, c, chain, chosen);
    ChainIDSized(e, chain, blocks[chain.block]);
    ConsumedChainHolds(e, c, chain, blocks[chain.block], succ);
    OthersAndChain(e, c, true, blocks, chain.block);
    ConsumedMeans(e, utxos, t, c, 0);
    ChainUnlocksAt(|chosen|, chain.block, 0);
    LockMeans(e, utxos, t, c, par.key, 0);
    BuiltReads(e, utxos, t, c);
    AddressAtTimeIsAsked(e, c, lock, t.timestamp);
    if AddressAtTime(e, lock, t.timestamp).None? {
      OneByteOpensNoChainLock(e, c, 0, [0xff], lock);
    }
  }

  lemma AllParse(e: Env, chain: ChainOutput, chosen: seq<OutputWithID>)
    requires ParsesAsOutput(e, chain.output) && AllOutputs(e, chosen)
    ensures AllOutputs(e, AllConsumed(chain, chosen))
    ensures forall k :: 0 <= k < |OutputsOf(AllConsumed(chain, chosen))| ==>
      ParsesAsOutput(e, OutputsOf(AllConsumed(chain, chosen))[k])
  {
    hide ParsesAsOutput;
  }

  lemma {:induction false} ChosenInputMeans(e: Env, utxos: UTXOs, par: TransferData, t: Transaction, c: Context,
                                            chain: ChainOutput,
                                            chosen: seq<OutputWithID>, k: nat)
    requires SignedTransfer(e, par) && ChainOutputFound(e, utxos, chain)
    requires TransferContext(e, utxos, t, c, chain, chosen)
    requires AllOutputs(e, chosen) && chain.chainID != Zeros(32) && k < |chosen|
    ensures OutputOK(e, c, true, k + 1, c.consumed[k + 1]) <==>
      InputHolds(e, c, k + 1, chosen[k].output, t.timestamp)
      && e.decode(LockOf(e, chosen[k].output)) == ChainLock(chain.chainID)
  {
    hide Sound, SignsFor, BuiltIn, EvalConstraint, ParsesAsOutput, OutputOK, Parse, ChainBlockFor,
      ConsumedConstraintByIndex, InputHolds, UnlockParamsByConstraintIndex, InputID, SelfUnlock, LockTags, BlocksHold,
      ChainUnlocks;
    ThreeBlocks(e, chain.output);
    var block, lock := Blocks(chain.output).value[chain.block], LockOf(e, chosen[k].output);
    ChainInputFacts(e, utxos, t, c, chain, chosen);
    OtherInputFacts(e, utxos, t, c, chain, chosen, k + 1);
    ChainIDSized(e, chain, block);
    ThreeBlocks(e, chosen[k].output);
    LockIsThere(e, chosen[k].output);
    ConsumedMeans(e, utxos, t, c, k + 1);
    if e.decode(lock) == ChainLock(chain.chainID) {
      ChainLockHolds(e, c, k + 1, chain, block, lock);
    }
    if EvalConstraint(e, c, Place(true, k + 1, LOCK_BLOCK), lock) == True {
      OnlyChainLockHolds(e, c, k + 1, chain, block, lock);
    }
  }

  /**
   The inputs hold exactly when the consumed side is in order; for the lock of the chain
   output, in an accepted transaction.
   */
  lemma {:induction false} InputsMean(e: Env, utxos: UTXOs, par: TransferData, t: Transaction, c: Context,
                                      chain: ChainOutput,
                                      chosen: seq<OutputWithID>, succ: Bytes)
    requires SignedTransfer(e, par) && ChainOutputFound(e, utxos, chain)
    requires TransferContext(e, utxos, t, c, chain, chosen)
    requires AllOutputs(e, chosen) && SignedBy(e, c, par.key)
    requires UnlockedWithSignature(e, c, SenderAddress(e, par)) == True
    requires chain.chainID != Zeros(32)
    requires ProducedConstraintByIndex(c, Some([0, chain.block])) == Some(succ)
    requires e.decode(succ) == Chain(SuccessorData(chain))
    ensures |c.consumed| <= MAX_ELEMENTS
    ensures var hold := ChainInputHolds(e, c, par, chain, t.timestamp) && ChosenHold(e, c, chain, chosen, t.timestamp);
      var ok := OutputsOK(e, c, true, c.consumed);
      (hold ==> ok) && (ok && Accepts(e, utxos, c.txBytes) ==> hold)
  {
    hide SignedTransfer, ChainOutputFound, BuiltIn, Accepts, ParsesAsOutput, UnlockedWithSignature, SignedBy, OutputOK,
      SuccessorData, ProducedConstraintByIndex, ChainInputHolds, InputHolds, LockOf, ChainUnlocks, IDsOf;
    FoundParses(e, utxos, chain);
    ChainInputMeans(e, utxos, par, t, c, chain, chosen, succ);
    forall k: Byte | k < |chosen|
      ensures OutputOK(e, c, true, k + 1, c.consumed[k + 1]) <==>
        InputHolds(e, c, k + 1, chosen[k].output, t.timestamp)
        && e.decode(LockOf(e, chosen[k].output)) == ChainLock(chain.chainID)
    {
      ChosenInputMeans(e, utxos, par, t, c, chain, chosen, k);
    }
    if ChainInputHolds(e, c, par, chain, t.timestamp) && ChosenHold(e, c, chain, chosen, t.timestamp) {
      forall i: Byte | i < |c.consumed|
        ensures OutputOK(e, c, true, i, c.consumed[i])
      {
        if i > 0 {
          assert chosen[i - 1] == chosen[i - 1];
        }
      }
    }
  }

  lemma FoundParses(e: Env, utxos: UTXOs, chain: ChainOutput)
    requires ChainOutputFound(e, utxos, chain)
    ensures ParsesAsOutput(e, chain.output) && chain.block > LOCK_BLOCK
  {
  }

  // ------------------------------------------------------------------ the produced side

  /** The copied blocks of the successor, and the new ones. */
  lemma {:induction false} SuccessorBlocksAre(e: Env, utxos: UTXOs, chain: ChainOutput, amount: nat, ts: nat)
    requires Sound(e) && ChainOutputFound(e, utxos, chain)
    ensures var from, copy := Blocks(chain.output).value, SuccessorBlocks(e, chain, amount, ts);
      && |copy| == |from| <= MAX_ELEMENTS && BuiltBlocks(e, copy, amount, ts)
      && copy[chain.block] == e.encode(Chain(SuccessorData(chain)))
      && forall j :: LOCK_BLOCK <= j < |from| && j != chain.block ==> copy[j] == from[j]
  {
    hide Parse, AmountOf, TimestampOf, LockTags, ChainBlockFor, SuccessorData, Sound;
  }

  lemma ChainCallDecodes(e: Env, chain: ChainOutput)
    requires Sound(e) && |chain.chainID| == 32
    ensures e.decode(e.encode(Chain(SuccessorData(chain)))) == Chain(SuccessorData(chain))
    ensures e.encode(Chain(SuccessorData(chain))) != []
  {
    assert WellSized(Chain(SuccessorData(chain)));
  }

  /** Where the consumed side finds the successor's chain constraint. */
  lemma {:induction false} SuccessorIsFound(e: Env, utxos: UTXOs, t: Transaction, c: Context, chain: ChainOutput,
                                            chosen: seq<OutputWithID>, amount: nat)
    requires Sound(e) && ChainOutputFound(e, utxos, chain) && TransferContext(e, utxos, t, c, chain, chosen)
    requires amount <= MAX_UINT64
    requires |t.outputs| > 0 && EncodeUpTo256(SuccessorBlocks(e, chain, amount, t.timestamp)) == Some(t.outputs[0])
    ensures ProducedConstraintByIndex(c, Some([0, chain.block])) == Some(e.encode(Chain(SuccessorData(chain))))
  {
    hide BuiltIn, Sound, Encode, Parse, BuiltBlocks, SuccessorBlocks, SuccessorData, ProducedConstraintByIndex,
      ProducedOutput, ChainBlockFor, ParsesAsOutput, ChainUnlocks, OutputsOf, IDsOf;
    SuccessorBlocksAre(e, utxos, chain, amount, t.timestamp);
    BuiltOutputReads(e, SuccessorBlocks(e, chain, amount, t.timestamp), amount, t.timestamp);
    BuiltReads(e, utxos, t, c);
    BlockByIndex(c, false, 0, t.outputs[0], chain.block);
  }

  lemma {:induction false} SuccessorMeans(e: Env, utxos: UTXOs, t: Transaction, c: Context, chain: ChainOutput,
                                          chosen: seq<OutputWithID>, amount: nat)
    requires Sound(e) && ChainOutputFound(e, utxos, chain) && TransferContext(e, utxos, t, c, chain, chosen)
    requires amount <= MAX_UINT64
    requires |t.outputs| > 0 && EncodeUpTo256(SuccessorBlocks(e, chain, amount, t.timestamp)) == Some(t.outputs[0])
    ensures OutputOK(e, c, false, 0, t.outputs[0]) <==>
      chain.chainID != Zeros(32) && SuccessorHolds(e, c, chain, amount, t.timestamp)
    ensures AmountIn(e, t.outputs[0]) == amount
  {
    hide BuiltIn, Sound, Encode, Parse, BuiltBlocks, SuccessorBlocks, SuccessorData, ChainBlockFor, ParsesAsOutput,
      ChainUnlocks, OutputsOf, IDsOf, EvalConstraint, OutputOK, AmountIn, ConsumedConstraintByIndex,
      UnlockParamsByConstraintIndex, InputID, SelfUnlock, Distinct, Covered;
    var blocks, block := SuccessorBlocks(e, chain, amount, t.timestamp), chain.block;
    var succ := e.encode(Chain(SuccessorData(chain)));
    FoundParses(e, utxos, chain);
    ThreeBlocks(e, chain.output);
    SuccessorBlocksAre(e, utxos, chain, amount, t.timestamp);
    ProducedMeans(e, utxos, t, c, 0, blocks, amount);
    ChainIDSized(e, chain, Blocks(chain.output).value[block]);
    ChainCallDecodes(e, chain);
    if chain.chainID == Zeros(32) {
      ZeroIDFails(e, c, chain, succ);
    } else {
      ChainInputFacts(e, utxos, t, c, chain, chosen);
      ProducedChainHolds(e, c, chain, Blocks(chain.output).value[block], succ);
      OthersAndChain(e, c, false, blocks, block);
      OthersAreCopied(e, c, Blocks(chain.output).value, blocks, block);
    }
  }

  lemma {:induction false} OthersAreCopied(e: Env, c: Context, from: seq<Bytes>, copy: seq<Bytes>, chain: Byte)
    requires |copy| == |from| <= MAX_ELEMENTS
    requires forall j :: LOCK_BLOCK <= j < |from| && j != chain ==> copy[j] == from[j]
    ensures OthersHold(e, c, false, copy, chain) <==> OthersHold(e, c, false, from, chain)
  {
    hide EvalConstraint;
    forall j: Byte | LOCK_BLOCK < j < |from| && j != chain
      ensures EvalConstraint(e, c, Place(false, 0, j), copy[j]) == EvalConstraint(e, c, Place(false, 0, j), from[j])
    {
    }
  }

  lemma {:induction false} ProducedMean(e: Env, utxos: UTXOs, par: TransferData, t: Transaction, c: Context,
                                        chain: ChainOutput,
                                        chosen: seq<OutputWithID>, amount: nat, available: nat)
    requires SignedTransfer(e, par) && ChainOutputFound(e, utxos, chain)
    requires TransferContext(e, utxos, t, c, chain, chosen)
    requires amount < available <= MAX_UINT64
    requires ChainOutputs(e, par, chain, amount, available, t.timestamp) == Some(t.outputs)
    ensures OutputsOK(e, c, false, t.outputs) <==>
      && chain.chainID != Zeros(32) && SuccessorHolds(e, c, chain, available - amount, t.timestamp)
      && MainHolds(e, c, par, amount, t.timestamp)
    ensures Sum(e, t.outputs) == available
  {
    hide BuiltIn, Sound, ChainOutputFound, ParsesAsOutput, OutputOK, AmountIn, SuccessorHolds, MadeHolds, SignsFor,
      MainBlocks, SuccessorBlocks, ChainUnlocks, OutputsOf, IDsOf, Encode, BuiltBlocks, MainExtra;
    var ts := t.timestamp;
    SuccessorMeans(e, utxos, t, c, chain, chosen, available - amount);
    MainFits(e, par, amount, ts);
    NewBlocks(e, amount, ts, par.lock, MainExtra(e, par));
    MainBlocksAre(e, par, amount, ts);
    ProducedMeans(e, utxos, t, c, 1, MainBlocks(e, par, amount, ts), amount);
    assert SumTo(e, t.outputs, 2) == SumTo(e, t.outputs, 1) + AmountIn(e, t.outputs[1]);
    assert SumTo(e, t.outputs, 1) == SumTo(e, t.outputs, 0) + AmountIn(e, t.outputs[0]);
  }

  lemma MainBlocksAre(e: Env, par: TransferData, amount: nat, ts: nat)
    requires MainOutputBytes(e, par, amount, ts).Some?
    ensures MainBlocks(e, par, amount, ts) == OutputBlocks(e, amount, ts, par.lock, MainExtra(e, par))
    ensures Encode(MainBlocks(e, par, amount, ts)) == MainOutputBytes(e, par, amount, ts)
  {
    hide Encode;
  }

  // ------------------------------------------------------------------ the transfer

  /** Listed outputs of the ledger, other than the chain output, that fit in one transaction with it. */
  ghost predicate Besides(utxos: UTXOs, chain: ChainOutput, chosen: seq<OutputWithID>) {
    && FromLedger(utxos, chosen) && |chosen| < MAX_OUTPUTS
    && forall k :: 0 <= k < |chosen| ==> chosen[k].id != chain.id
  }

  lemma AllFromLedger(e: Env, utxos: UTXOs, chain: ChainOutput, chosen: seq<OutputWithID>)
    requires ChainOutputFound(e, utxos, chain) && FromLedger(utxos, chosen)
    requires forall k :: 0 <= k < |chosen| ==> chosen[k].id != chain.id
    ensures FromLedger(utxos, AllConsumed(chain, chosen))
  {
    hide ParsesAsOutput, ChainBlockFor, Blocks;
  }

  /** The transfer as a transaction that is ready to be validated. */
  lemma {:induction false} ChainTransferBuilds(e: Env, utxos: UTXOs, par: TransferData, chain: ChainOutput,
                                               amount: nat, available: nat,
                                               ts: nat, chosen: seq<OutputWithID>) returns (t: Transaction, c: Context)
    requires SignedTransfer(e, par) && ChainOutputFound(e, utxos, chain) && Besides(utxos, chain, chosen)
    requires SizedLedger(utxos)
    requires amount < available && ts <= MAX_UINT32
    requires ChainTransaction(e, par, chain, amount, available, ts, chosen).Some?
    requires TransactionBytes(ChainTransaction(e, par, chain, amount, available, ts, chosen).value).Some?
    ensures t == ChainTransaction(e, par, chain, amount, available, ts, chosen).value
    ensures TransferContext(e, utxos, t, c, chain, chosen) && t.timestamp == ts
    ensures TransactionBytes(t) == Some(c.txBytes) && c.consumed == OutputsOf(AllConsumed(chain, chosen))
    ensures ChainOutputs(e, par, chain, amount, available, ts) == Some(t.outputs)
    ensures SignedBy(e, c, par.key) && UnlockedWithSignature(e, c, SenderAddress(e, par)) == True
  {
    hide Sound, TransactionBytes, Sealed, FromLedger, SizedLedger, SignsFor, UnlockedWithSignature, SignedBy,
      MakeContext, Buildable, InputCommitment, ChainOutputs, ChainOutputFound, ChainUnlocks, ParsesAsOutput;
    FoundParses(e, utxos, chain);
    var all := AllConsumed(chain, chosen);
    t := ChainTransaction(e, par, chain, amount, available, ts, chosen).value;
    c := Context(TransactionBytes(t).value, OutputsOf(all));
    AllConsumedLists(chain, chosen);
    AllFromLedger(e, utxos, chain, chosen);
    TwoOutputs(e, par, chain, amount, available, ts);
    var raw := EMPTY_TRANSACTION.(inputIDs := IDsOf(all),
                                  outputs := ChainOutputs(e, par, chain, amount, available, ts).value,
                                  unlockBlocks := ChainUnlocks(|chosen|, chain.block));
    SealedIsBuilt(e, utxos, par.key, all, raw, ts, c.txBytes);
  }

  lemma TwoOutputs(e: Env, par: TransferData, chain: ChainOutput, amount: nat, available: nat, ts: nat)
    requires ParsesAsOutput(e, chain.output) && amount < available
    requires ChainOutputs(e, par, chain, amount, available, ts).Some?
    ensures |ChainOutputs(e, par, chain, amount, available, ts).value| == 2
  {
  }

  lemma SumOfAll(e: Env, chain: ChainOutput, chosen: seq<OutputWithID>)
    ensures Sum(e, OutputsOf(AllConsumed(chain, chosen))) == AmountIn(e, chain.output) + PrefixSum(e, chosen, |chosen|)
  {
    hide AmountIn;
    SumIsPrefix(e, AllConsumed(chain, chosen));
    SumWithChain(e, chain, chosen, |chosen|);
  }

  lemma {:induction false} SumWithChain(e: Env, chain: ChainOutput, chosen: seq<OutputWithID>, n: nat)
    requires n <= |chosen|
    ensures PrefixSum(e, AllConsumed(chain, chosen), n + 1) == AmountIn(e, chain.output) + PrefixSum(e, chosen, n)
  {
    hide AmountIn;
    var all := AllConsumed(chain, chosen);
    assert PrefixSum(e, all, n + 1) == PrefixSum(e, all, n) + AmountIn(e, all[n].output);
    if n == 0 {
    } else {
      SumWithChain(e, chain, chosen, n - 1);
    }
  }

  /**
   The ledger accepts the transfer from a chain, in whatever block its constraint is and
   whatever else the consumed outputs carry, if and only if successor and main output
   cover their deposits; the chain output asks for the sender's address at this time and
   every other consumed output is locked in the chain; all of them are older than the
   transaction and cover their sizes; every other block after a lock holds, those of the
   chain output again in the successor; and no block of a produced output is repeated.
   */
  lemma {:induction false} ChainTransferIsAccepted(e: Env, utxos: UTXOs, par: TransferData, chain: ChainOutput,
                                                   amount: nat,
                                                   fromOutputs: nat, ts: nat, chosen: seq<OutputWithID>)
    requires SignedTransfer(e, par) && ChainOutputFound(e, utxos, chain) && SizedLedger(utxos) && ts <= MAX_UINT32
    requires Besides(utxos, chain, chosen) && AllOutputs(e, chosen) && fromOutputs == PrefixSum(e, chosen, |chosen|)
    requires amount < fromOutputs + AmountIn(e, chain.output) <= MAX_UINT64
    requires ChainTransferBytes(e, par, chain, amount, fromOutputs, ts, chosen).Some?
    ensures var b := ChainTransferBytes(e, par, chain, amount, fromOutputs, ts, chosen).value;
      var c := Context(b, OutputsOf(AllConsumed(chain, chosen)));
      Accepts(e, utxos, b) <==>
        && chain.chainID != Zeros(32)
        && SuccessorHolds(e, c, chain, fromOutputs + AmountIn(e, chain.output) - amount, ts)
        && MainHolds(e, c, par, amount, ts)
        && ChainInputHolds(e, c, par, chain, ts) && ChosenHold(e, c, chain, chosen, ts)
  {
    hide SignedTransfer, ChainOutputFound, SizedLedger, AllOutputs, PrefixSum, Accepts, SuccessorHolds, MainHolds,
      ChainInputHolds, ChosenHold, SignedBy, UnlockedWithSignature, OutputsOK, Sum, ChainOutputs, AmountIn,
      ChainTransaction, TransactionBytes, FromLedger, ParsesAsOutput, BuiltIn, ChainUnlocks, ProducedConstraintByIndex,
      SuccessorData, SuccessorBlocks;
    var available := fromOutputs + AmountIn(e, chain.output);
    FoundParses(e, utxos, chain);
    var t, c := ChainTransferBuilds(e, utxos, par, chain, amount, available, ts, chosen);
    BuiltIsAccepted(e, utxos, t, c);
    ProducedMean(e, utxos, par, t, c, chain, chosen, amount, available);
    SumOfAll(e, chain, chosen);
    if chain.chainID != Zeros(32) {
      ChainSideMeans(e, utxos, par, t, c, chain, chosen, amount, available);
    }
  }

  lemma {:induction false} ChainSideMeans(e: Env, utxos: UTXOs, par: TransferData, t: Transaction, c: Context,
                                          chain: ChainOutput,
                                          chosen: seq<OutputWithID>, amount: nat, available: nat)
    requires SignedTransfer(e, par) && ChainOutputFound(e, utxos, chain)
    requires TransferContext(e, utxos, t, c, chain, chosen)
    requires AllOutputs(e, chosen) && SignedBy(e, c, par.key)
    requires UnlockedWithSignature(e, c, SenderAddress(e, par)) == True
    requires chain.chainID != Zeros(32) && amount < available <= MAX_UINT64
    requires ChainOutputs(e, par, chain, amount, available, t.timestamp) == Some(t.outputs)
    ensures |c.consumed| <= MAX_ELEMENTS
    ensures var hold := ChainInputHolds(e, c, par, chain, t.timestamp) && ChosenHold(e, c, chain, chosen, t.timestamp);
      var ok := OutputsOK(e, c, true, c.consumed);
      (hold ==> ok) && (ok && Accepts(e, utxos, c.txBytes) ==> hold)
  {
    hide Sound, SignsFor, AllOutputs, Accepts, ChainInputHolds, ChosenHold, SignedBy, UnlockedWithSignature, OutputsOK,
      ParsesAsOutput, TransferContext, ProducedConstraintByIndex, SuccessorData, SuccessorBlocks, ChainBlockFor,
      EncodeUpTo256, MainOutputBytes;
    SuccessorIsFound(e, utxos, t, c, chain, chosen, available - amount);
    ThreeBlocks(e, chain.output);
    ChainIDSized(e, chain, Blocks(chain.output).value[chain.block]);
    ChainCallDecodes(e, chain);
    InputsMean(e, utxos, par, t, c, chain, chosen, e.encode(Chain(SuccessorData(chain))));
  }

  /** The transfer can be made when its outputs fit in 16 bits. */
  lemma {:induction false} ChainTransferIsMade(e: Env, utxos: UTXOs, par: TransferData, chain: ChainOutput,
                                               amount: nat, available: nat,
                                               ts: nat, chosen: seq<OutputWithID>)
    requires SignedTransfer(e, par) && ChainOutputFound(e, utxos, chain) && Besides(utxos, chain, chosen)
    requires SizedLedger(utxos)
    requires amount < available
    requires var outputs := ChainOutputs(e, par, chain, amount, available, ts);
      outputs.Some? && forall k :: 0 <= k < |outputs.value| ==> |outputs.value[k]| <= MAX_UINT16
    ensures ChainTransaction(e, par, chain, amount, available, ts, chosen).Some?
    ensures TransactionBytes(ChainTransaction(e, par, chain, amount, available, ts, chosen).value).Some?
  {
    hide Sound, TransactionBytes, Sealed, FromLedger, SizedLedger, SignsFor, SmallBlock, Fetched, InputsOK,
      ChainOutputs, ChainUnlocks, ChainOutputFound, ParsesAsOutput, AllConsumed;
    FoundParses(e, utxos, chain);
    var all, outputs := AllConsumed(chain, chosen), ChainOutputs(e, par, chain, amount, available, ts).value;
    TwoOutputs(e, par, chain, amount, available, ts);
    AllConsumedLists(chain, chosen);
    AllFromLedger(e, utxos, chain, chosen);
    ListedInputs(utxos, all);
    ChainUnlocksSmall(|chosen|, chain.block);
    ChainUnlocksAt(|chosen|, chain.block, 0);
    var raw := EMPTY_TRANSACTION.(inputIDs := IDsOf(all), outputs := outputs,
                                  unlockBlocks := ChainUnlocks(|chosen|, chain.block));
    SmallSeals(e, par.key, OutputsOf(all), raw, ts);
  }

  // ------------------------------------------------------------------ from the list of outputs to the ledger

  /**
   Chain-transfer completeness: for any chain output the builder finds and any listed
   outputs of the ledger besides it, with more tokens together than the amount, the
   ledger accepts what the maker puts together from its choice, if it can be put
   together, exactly under the conditions of `ChainTransferIsAccepted`.
   */
  lemma {:induction false} ChainTransferCompletes(e: Env, utxos: UTXOs, par: TransferData, chain: ChainOutput,
                                                  amount: nat,
                                                  outs: seq<OutputWithID>, n: nat, fromOutputs: nat, ts: nat)
    requires SignedTransfer(e, par) && par.timestamp <= MAX_UINT32 && Total(e, utxos) <= MAX_UINT64
    requires ChainOutputFound(e, utxos, chain) && SizedLedger(utxos)
    requires FromLedger(utxos, outs) && AllOutputs(e, outs) && forall k :: 0 <= k < |outs| ==> outs[k].id != chain.id
    requires Chosen(e, outs, par.timestamp, amount, n, fromOutputs, ts)
    requires amount < fromOutputs + AmountIn(e, chain.output)
    ensures fromOutputs + AmountIn(e, chain.output) <= MAX_UINT64 && AllOutputs(e, outs[..n])
    ensures n == MAX_OUTPUTS ==> ChainTransferBytes(e, par, chain, amount, fromOutputs, ts, outs[..n]).None?
    ensures ChainTransferBytes(e, par, chain, amount, fromOutputs, ts, outs[..n]).Some? ==>
      var b := ChainTransferBytes(e, par, chain, amount, fromOutputs, ts, outs[..n]).value;
      var c := Context(b, OutputsOf(AllConsumed(chain, outs[..n])));
      Accepts(e, utxos, b) <==>
        && chain.chainID != Zeros(32)
        && SuccessorHolds(e, c, chain, fromOutputs + AmountIn(e, chain.output) - amount, ts)
        && MainHolds(e, c, par, amount, ts)
        && ChainInputHolds(e, c, par, chain, ts) && ChosenHold(e, c, chain, outs[..n], ts)
  {
    hide SignedTransfer, ChainOutputFound, SizedLedger, FromLedger, PrefixSum, Accepts, SuccessorHolds, MainHolds,
      ChainInputHolds, ChosenHold, AmountIn, Total, Available, TimestampAfter, ParsesAsOutput, TransactionBytes,
      Sealed, ChainOutputs;
    FoundParses(e, utxos, chain);
    ChosenIsBacked(e, utxos, par, amount, outs, n, fromOutputs, ts);
    TransferIsBacked(e, utxos, chain, outs[..n]);
    if ChainTransferBytes(e, par, chain, amount, fromOutputs, ts, outs[..n]).Some? {
      ChainTransferIsAccepted(e, utxos, par, chain, amount, fromOutputs, ts, outs[..n]);
    }
  }

  /** The consumed amounts together are within the total supply. */
  lemma TransferIsBacked(e: Env, utxos: UTXOs, chain: ChainOutput, chosen: seq<OutputWithID>)
    requires ChainOutputFound(e, utxos, chain) && FromLedger(utxos, chosen)
    requires forall k :: 0 <= k < |chosen| ==> chosen[k].id != chain.id
    ensures PrefixSum(e, chosen, |chosen|) + AmountIn(e, chain.output) <= Total(e, utxos)
  {
    hide AmountIn, Total, ChainOutputFound, FromLedger, PrefixSum;
    var all := AllConsumed(chain, chosen);
    AllFromLedger(e, utxos, chain, chosen);
    PrefixSumBounded(e, utxos, all, |all|);
    SumWithChain(e, chain, chosen, |chosen|);
  }
}
