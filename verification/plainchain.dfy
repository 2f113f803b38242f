/**
 Transfers from a chain whose acceptance can be told before they are made: from chain
 outputs with immutable data or another's sender constraint they are always rejected;
 from chain outputs with nothing else it comes down to deposits, owners and times.
 */
module PlainChainTransfers {
  import opened Bytes
  import opened Codec
  import opened Context
  import opened Constraints
  import opened Validation
  import opened Ledger
  import opened Supply
  import opened OutputView
  import opened Selection
  import opened Builder
  import opened StandardOutputs
  import opened Transfer
  import opened ChainTransfer
  import opened BuiltTransactions
  import opened SimpleTransferAccepted
  import opened PlainTransfers
  import opened ChainTransferAccepted

  // ------------------------------------------------------------------ chain outputs with more constraints

  /** The maker gives no unlock data to blocks other than the lock and the chain constraint. */
  lemma {:induction false} OtherBlocksLocked(e: Env, utxos: UTXOs, t: Transaction, c: Context, chain: ChainOutput,
                                             chosen: seq<OutputWithID>, j: Byte)
    requires TransferContext(e, utxos, t, c, chain, chosen) && chain.block > LOCK_BLOCK && j > LOCK_BLOCK
    requires j != chain.block
    ensures SelfUnlock(c, Place(true, 0, j)) == if j < chain.block then Some([]) else None
  {
    hide TransactionBytes, MakeContext, Buildable, InputCommitment, ChainUnlocks, Parse, TxList;
    ChainUnlocksAt(|chosen|, chain.block, 0);
    if j < chain.block {
      UnlockAgrees(t, c, 0, j);
    } else {
      UnlockEnds(t, c, j);
    }
  }

  /** Past the end of the unlock block there is no unlock data. */
  lemma {:induction false} UnlockEnds(t: Transaction, c: Context, j: Byte)
    requires TransactionBytes(t) == Some(c.txBytes) && |t.unlockBlocks| > 0 && j >= |t.unlockBlocks[0]|
    ensures SelfUnlock(c, Place(true, 0, j)) == None
  {
    hide Parse, Encode, EncodeAll, TxList, TransactionBytes;
    UnlockEncoded(t);
    EncodeAllElements(t.unlockBlocks);
    ListsAgree(t);
    ListAgrees(t.unlockBlocks[0]);
  }

  /** Without unlock data an `immutable` constraint does not hold on the consumed side. */
  lemma ImmutableNeedsUnlock(e: Env, c: Context, j: Byte, block: Bytes)
    requires e.decode(block).Immutable? && SelfUnlock(c, Place(true, 0, j)) in {None, Some([])}
    ensures EvalConstraint(e, c, Place(true, 0, j), block) != True
  {
    hide SelfUnlock, SelfSibling, SelfSiblingUnlock, ProducedConstraintByIndex;
  }

  /** So the maker's transfer from a chain with immutable data is always rejected. */
  lemma {:induction false} ImmutableChainIsRejected(e: Env, utxos: UTXOs, par: TransferData, chain: ChainOutput,
                                                    amount: nat,
                                                    fromOutputs: nat, ts: nat, chosen: seq<OutputWithID>, j: Byte)
    requires SignedTransfer(e, par) && ChainOutputFound(e, utxos, chain) && SizedLedger(utxos) && ts <= MAX_UINT32
    requires Besides(utxos, chain, chosen) && AllOutputs(e, chosen) && fromOutputs == PrefixSum(e, chosen, |chosen|)
    requires amount < fromOutputs + AmountIn(e, chain.output) <= MAX_UINT64
    requires LOCK_BLOCK < j < |Blocks(chain.output).value| && e.decode(Blocks(chain.output).value[j]).Immutable?
    ensures var b := ChainTransferBytes(e, par, chain, amount, fromOutputs, ts, chosen);
      !(b.Some? && Accepts(e, utxos, b.value))
  {
    hide SignedTransfer, SizedLedger, AllOutputs, PrefixSum, Accepts, SuccessorHolds, MainHolds, ChosenHold, AmountIn,
      ChainTransaction, TransactionBytes, FromLedger, ParsesAsOutput, ChainOutputs, EvalConstraint, SelfUnlock, Parse,
      ChainIDOf, TransferContext;
    FoundParses(e, utxos, chain);
    ThreeBlocks(e, chain.output);
    if ChainTransferBytes(e, par, chain, amount, fromOutputs, ts, chosen).Some? {
      ChainTransferIsAccepted(e, utxos, par, chain, amount, fromOutputs, ts, chosen);
      var t, c := ChainTransferBuilds(e, utxos, par, chain, amount, fromOutputs + AmountIn(e, chain.output), ts,
                                      chosen);
      OtherBlocksLocked(e, utxos, t, c, chain, chosen, j);
      ImmutableNeedsUnlock(e, c, j, Blocks(chain.output).value[j]);
    }
  }

  /** A copied sender constraint holds exactly when it names the sender of the transfer. */
  lemma SenderCopyMeans(e: Env, c: Context, key: SigningKey, j: Byte, block: Bytes)
    requires SignedBy(e, c, key) && e.decode(block).Sender? && block != []
    ensures EvalConstraint(e, c, Place(true, 0, j), block) == True
    ensures EvalConstraint(e, c, Place(false, 0, j), block) == True <==> e.decode(block).arg == e.blake2b(key.publicKey)
  {
    hide TxSignature;
  }

  /** So a chain output with a sender constraint can only be continued by that sender. */
  lemma {:induction false} ForeignSenderIsRejected(e: Env, utxos: UTXOs, par: TransferData, chain: ChainOutput,
                                                   amount: nat,
                                                   fromOutputs: nat, ts: nat, chosen: seq<OutputWithID>, j: Byte)
    requires SignedTransfer(e, par) && ChainOutputFound(e, utxos, chain) && SizedLedger(utxos) && ts <= MAX_UINT32
    requires Besides(utxos, chain, chosen) && AllOutputs(e, chosen) && fromOutputs == PrefixSum(e, chosen, |chosen|)
    requires amount < fromOutputs + AmountIn(e, chain.output) <= MAX_UINT64
    requires LOCK_BLOCK < j < |Blocks(chain.output).value| && e.decode(Blocks(chain.output).value[j]).Sender?
    requires e.decode(Blocks(chain.output).value[j]).arg != SenderAddress(e, par)
    ensures var b := ChainTransferBytes(e, par, chain, amount, fromOutputs, ts, chosen);
      !(b.Some? && Accepts(e, utxos, b.value))
  {
    hide SizedLedger, SignsFor, AllOutputs, PrefixSum, Accepts, ChainInputHolds, MainHolds, ChosenHold, AmountIn,
      ChainTransaction, TransactionBytes, FromLedger, ParsesAsOutput, ChainOutputs, EvalConstraint, Parse, ChainIDOf,
      TransferContext, SignedBy, SuccessorBlocks, Distinct, Covered;
    FoundParses(e, utxos, chain);
    ThreeBlocks(e, chain.output);
    if ChainTransferBytes(e, par, chain, amount, fromOutputs, ts, chosen).Some? {
      ChainTransferIsAccepted(e, utxos, par, chain, amount, fromOutputs, ts, chosen);
      var t, c := ChainTransferBuilds(e, utxos, par, chain, amount, fromOutputs + AmountIn(e, chain.output), ts,
                                      chosen);
      SenderCopyMeans(e, c, par.key, j, Blocks(chain.output).value[j]);
    }
  }

  // ------------------------------------------------------------------ chain outputs with nothing else

  /** The blocks of the successor of a plain chain output differ. */
  lemma {:induction false} PlainSuccessorDiffers(e: Env, utxos: UTXOs, chain: ChainOutput, amount: nat, ts: nat)
    requires Sound(e) && ChainOutputFound(e, utxos, chain) && |Blocks(chain.output).value| == 4
    ensures Distinct(SuccessorBlocks(e, chain, amount, ts))
  {
    hide Parse, AmountOf, TimestampOf, SuccessorBlocks, SuccessorData, ChainIDOf;
    var blocks := SuccessorBlocks(e, chain, amount, ts);
    SuccessorBlocksAre(e, utxos, chain, amount, ts);
    BuiltBlocksDecode(e, blocks, amount, ts);
    ChainIDSized(e, chain, Blocks(chain.output).value[3]);
    ChainCallDecodes(e, chain);
    forall j, k | 0 <= j < k < |blocks|
      ensures blocks[j] != blocks[k]
    {
      assert e.decode(blocks[j]) != e.decode(blocks[k]);
    }
  }

  /** The successor covers its deposit. */
  predicate SuccessorCovered(e: Env, chain: ChainOutput, amount: nat, ts: nat)
    requires ParsesAsOutput(e, chain.output)
  {
    && EncodeUpTo256(SuccessorBlocks(e, chain, amount, ts)).Some?
    && Covered(EncodeUpTo256(SuccessorBlocks(e, chain, amount, ts)).value, amount)
  }

  /** An output that ends with a lock in the chain, and is older than the transaction. */
  predicate ChainsInput(e: Env, chain: ChainOutput, output: Bytes, ts: nat)
    requires ParsesAsOutput(e, output)
  {
    && TimestampIn(e, output) < ts && |output| <= AmountIn(e, output)
    && e.decode(LockOf(e, output)) == ChainLock(chain.chainID)
  }

  /**
   A plain transfer from a chain output that carries nothing else goes through if and only
   if deposits are covered, the chain output is the sender's own and every other consumed
   output is locked in the chain, and all of them are older than the transaction and cover
   their sizes.
   */
  lemma {:induction false} PlainChainTransferIsAccepted(e: Env, utxos: UTXOs, par: TransferData, chain: ChainOutput,
                                                        amount: nat,
                                                        fromOutputs: nat, ts: nat, chosen: seq<OutputWithID>)
    requires SignedTransfer(e, par) && AddsPlain(e, par)
    requires ChainOutputFound(e, utxos, chain) && |Blocks(chain.output).value| == 4 && SizedLedger(utxos)
    requires ts <= MAX_UINT32
    requires Besides(utxos, chain, chosen) && AllOutputs(e, chosen) && fromOutputs == PrefixSum(e, chosen, |chosen|)
    requires forall k :: 0 <= k < |chosen| ==> EndsWithLock(chosen[k].output)
    requires amount < fromOutputs + AmountIn(e, chain.output) <= MAX_UINT64
    ensures var b := ChainTransferBytes(e, par, chain, amount, fromOutputs, ts, chosen);
      b.Some? && Accepts(e, utxos, b.value) <==>
        && chain.chainID != Zeros(32)
        && SuccessorCovered(e, chain, fromOutputs + AmountIn(e, chain.output) - amount, ts)
        && MainCovered(e, par, amount, ts)
        && OwnInput(e, par, chain.output, ts)
        && forall k :: 0 <= k < |chosen| ==> ChainsInput(e, chain, chosen[k].output, ts)
  {
    hide SignedTransfer, AddsPlain, ChainOutputFound, SizedLedger, PrefixSum, Accepts, SuccessorCovered, MainCovered,
      SuccessorHolds, MainHolds, AmountIn, ChainTransaction, TransactionBytes, FromLedger, ParsesAsOutput,
      ChainOutputs, ChainInputHolds, ChosenHold, OwnInput, ChainsInput, EndsWithLock, Blocks, TransferContext,
      SignedBy, UnlockedWithSignature;
    var available := fromOutputs + AmountIn(e, chain.output);
    FoundParses(e, utxos, chain);
    if SuccessorCovered(e, chain, available - amount, ts) && MainCovered(e, par, amount, ts) {
      CoveredChainIsMade(e, utxos, par, chain, amount, available, ts, chosen);
    }
    if ChainTransferBytes(e, par, chain, amount, fromOutputs, ts, chosen).Some? {
      ChainTransferIsAccepted(e, utxos, par, chain, amount, fromOutputs, ts, chosen);
      var t, c := ChainTransferBuilds(e, utxos, par, chain, amount, available, ts, chosen);
      PlainChainConditions(e, utxos, par, c, chain, chosen, amount, available, ts);
    }
  }

  lemma {:induction false} CoveredChainIsMade(e: Env, utxos: UTXOs, par: TransferData, chain: ChainOutput, amount: nat,
                                              available: nat,
                                              ts: nat, chosen: seq<OutputWithID>)
    requires SignedTransfer(e, par) && ChainOutputFound(e, utxos, chain) && Besides(utxos, chain, chosen)
    requires SizedLedger(utxos)
    requires amount < available && SuccessorCovered(e, chain, available - amount, ts) && MainCovered(e, par, amount, ts)
    ensures ChainTransaction(e, par, chain, amount, available, ts, chosen).Some?
    ensures TransactionBytes(ChainTransaction(e, par, chain, amount, available, ts, chosen).value).Some?
  {
    hide SignedTransfer, SizedLedger, ChainOutputFound, Besides, MainOutputBytes, EncodeUpTo256, SuccessorBlocks,
      ParsesAsOutput, ChainTransaction, TransactionBytes;
    FoundParses(e, utxos, chain);
    ChainTransferIsMade(e, utxos, par, chain, amount, available, ts, chosen);
  }

  /** The conditions of acceptance for outputs that carry nothing else. */
  lemma {:induction false} PlainChainConditions(e: Env, utxos: UTXOs, par: TransferData, c: Context, chain: ChainOutput,
                                                chosen: seq<OutputWithID>, amount: nat, available: nat, ts: nat)
    requires SignedTransfer(e, par) && AddsPlain(e, par) && SignedBy(e, c, par.key) && amount < available
    requires ChainOutputFound(e, utxos, chain) && |Blocks(chain.output).value| == 4
    requires AllOutputs(e, chosen) && |chosen| < MAX_OUTPUTS
    requires forall k :: 0 <= k < |chosen| ==> EndsWithLock(chosen[k].output)
    ensures MainHolds(e, c, par, amount, ts) <==> MainCovered(e, par, amount, ts)
    ensures SuccessorHolds(e, c, chain, available - amount, ts) <==> SuccessorCovered(e, chain, available - amount, ts)
    ensures ChainInputHolds(e, c, par, chain, ts) <==> OwnInput(e, par, chain.output, ts)
    ensures ChosenHold(e, c, chain, chosen, ts)
      <==> forall k :: 0 <= k < |chosen| ==> ChainsInput(e, chain, chosen[k].output, ts)
  {
    hide Sound, SignsFor, AddsPlain, SignedBy, ParsesAsOutput, AmountIn, TimestampIn, MadeHolds, MainCovered,
      MainBlocks, Encode, Covered, Distinct, EvalConstraint, ChainBlockFor, SuccessorBlocks, AddressAtTime;
    PlainMainHolds(e, c, par, 1, amount, ts);
    PlainSuccessorDiffers(e, utxos, chain, available - amount, ts);
    SuccessorBlocksAre(e, utxos, chain, available - amount, ts);
    forall k: Byte | k < |chosen|
      ensures InputHolds(e, c, k + 1, chosen[k].output, ts) <==>
        TimestampIn(e, chosen[k].output) < ts && |chosen[k].output| <= AmountIn(e, chosen[k].output)
    {
      assert EndsWithLock(chosen[k].output);
    }
  }

  /**
   Plain transfers from a chain account: the maker's choice goes through if and only if
   deposits are covered, the chain output is the sender's own and, although the maker does
   not look at its timestamp, older than the transaction, and every chosen output is locked
   in the chain, covers its size and does not have the largest timestamp.
   */
  lemma {:induction false} PlainChainTransferCompletes(e: Env, utxos: UTXOs, par: TransferData, chain: ChainOutput,
                                                       amount: nat,
                                                       outs: seq<OutputWithID>, n: nat, fromOutputs: nat, ts: nat)
    requires SignedTransfer(e, par) && AddsPlain(e, par) && par.timestamp <= MAX_UINT32 && Total(e, utxos) <= MAX_UINT64
    requires ChainOutputFound(e, utxos, chain) && |Blocks(chain.output).value| == 4 && SizedLedger(utxos)
    requires FromLedger(utxos, outs) && AllOutputs(e, outs) && forall k :: 0 <= k < |outs| ==> outs[k].id != chain.id
    requires forall k :: 0 <= k < |outs| ==> EndsWithLock(outs[k].output)
    requires Chosen(e, outs, par.timestamp, amount, n, fromOutputs, ts) && n < MAX_OUTPUTS
    requires amount < fromOutputs + AmountIn(e, chain.output)
    ensures var b := ChainTransferBytes(e, par, chain, amount, fromOutputs, ts, outs[..n]);
      b.Some? && Accepts(e, utxos, b.value) <==>
        && chain.chainID != Zeros(32)
        && SuccessorCovered(e, chain, fromOutputs + AmountIn(e, chain.output) - amount, ts)
        && MainCovered(e, par, amount, ts)
        && OwnInput(e, par, chain.output, ts)
        && (forall k :: 0 <= k < n ==> TimestampIn(e, outs[k].output) != MAX_UINT32)
        && (forall k :: 0 <= k < n ==> |outs[k].output| <= AmountIn(e, outs[k].output))
        && (forall k :: 0 <= k < n ==> e.decode(LockOf(e, outs[k].output)) == ChainLock(chain.chainID))
  {
    hide SignedTransfer, AddsPlain, ChainOutputFound, SizedLedger, FromLedger, PrefixSum, Accepts, SuccessorCovered,
      MainCovered, AmountIn, Total, Available, TimestampAfter, ParsesAsOutput, ChainTransferBytes, OwnInput,
      EndsWithLock, Blocks, LockOf, TimestampIn;
    FoundParses(e, utxos, chain);
    ChosenIsBacked(e, utxos, par, amount, outs, n, fromOutputs, ts);
    TransferIsBacked(e, utxos, chain, outs[..n]);
    PlainChainTransferIsAccepted(e, utxos, par, chain, amount, fromOutputs, ts, outs[..n]);
    assert forall k :: 0 <= k < n ==> outs[..n][k] == outs[k];
  }
}
