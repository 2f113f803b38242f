/**
 The transfer from a chain: the output that carries the chain is consumed first, then
 outputs locked in the chain, each unlocked by the chain's transition; the successor
 of the chain and the amount are produced.
 */
module ChainTransfer {
  import opened Bytes
  import opened Codec
  import opened LazyArray
  import opened Context
  import opened Constraints
  import opened Validation
  import opened OutputView
  import opened Selection
  import opened Builder
  import opened Transfer

  /** The output that carries the chain, its chain id, and the block of the chain constraint. */
  datatype ChainOutput = ChainOutput(id: Bytes, output: Bytes, chainID: Bytes, block: Byte)

  /** The data of the successor's chain constraint: same id, predecessor at input 0, state transition. */
  function SuccessorData(chain: ChainOutput): Bytes {
    chain.chainID + [0, chain.block, 0]
  }

  /** A copy of the chain output with a new amount, timestamp and chain constraint. */
  function SuccessorBlocks(e: Env, chain: ChainOutput, amount: nat, ts: nat): seq<Bytes>
    requires ParsesAsOutput(e, chain.output)
  {
    var blocks := Blocks(chain.output).value;
    var amountBlock, timestampBlock := e.encode(Amount(BigEndian(amount, 8))), e.encode(Timestamp(BigEndian(ts, 4)));
    Grow(blocks[AMOUNT_BLOCK := amountBlock][TIMESTAMP_BLOCK := timestampBlock],
         chain.block, e.encode(Chain(SuccessorData(chain))))
  }

  /** Input 0: the signature marker for the lock, and the successor for the chain. The others: the chain input. */
  function ChainUnlocks(n: nat, block: Byte): seq<seq<Bytes>> {
    [Grow(Grow([], LOCK_BLOCK, [0xff]), block, [0, block, 0])] + seq(n, _ => Grow([], LOCK_BLOCK, [0, block]))
  }

  function ChainOutputs(e: Env, par: TransferData, chain: ChainOutput, amount: nat, available: nat,
                        ts: nat): Option<seq<Bytes>>
    requires ParsesAsOutput(e, chain.output) && amount < available
  {
    var successor := EncodeUpTo256(SuccessorBlocks(e, chain, available - amount, ts));
    var main := MainOutputBytes(e, par, amount, ts);
    if successor.None? || main.None? then None else Some([successor.value, main.value])
  }

  /** The transaction for the chosen outputs; None is an error or a panic. */
  function ChainTransaction(e: Env, par: TransferData, chain: ChainOutput, amount: nat, available: nat, ts: nat,
                            chosen: seq<OutputWithID>): Option<Transaction>
    requires ParsesAsOutput(e, chain.output) && amount < available
  {
    var outputs := ChainOutputs(e, par, chain, amount, available, ts);
    if |chosen| >= MAX_OUTPUTS || outputs.None? then None
    else
      Sealed(e, par.key, [chain.output] + OutputsOf(chosen),
             EMPTY_TRANSACTION.(inputIDs := [chain.id] + IDsOf(chosen), outputs := outputs.value,
                                unlockBlocks := ChainUnlocks(|chosen|, chain.block)), ts)
  }

  /** The bytes of the transfer; some tokens must remain on the chain output. None is an error or a panic. */
  function ChainTransferBytes(e: Env, par: TransferData, chain: ChainOutput, amount: nat, fromOutputs: nat, ts: nat,
                              chosen: seq<OutputWithID>): Option<Bytes>
    requires ParsesAsOutput(e, chain.output)
  {
    var available := AddUint64(fromOutputs, AmountIn(e, chain.output));
    if available <= amount then None
    else
      var tx := ChainTransaction(e, par, chain, amount, available, ts, chosen);
      if tx.None? then None else TransactionBytes(tx.value)
  }

  // ------------------------------------------------------------------ the transfer maker

  /** Copies the chain output and puts the new amount, timestamp and chain constraint in place; None is a panic. */
  method MakeSuccessor(e: Env, chain: ChainOutput, amount: nat, ts: nat) returns (r: Option<Bytes>)
    requires ParsesAsOutput(e, chain.output)
    ensures r == EncodeUpTo256(SuccessorBlocks(e, chain, amount, ts))
  {
    hide Parse, Encode, AmountOf, TimestampOf, LockTags;
    ghost var blocks := Blocks(chain.output).value;
    var arr := new Array.FromBytes(Some(chain.output), MAX_OUTPUTS);
    var a, t := e.encode(Amount(BigEndian(amount, 8))), e.encode(Timestamp(BigEndian(ts, 4)));
    var _ := arr.PutAtIdxGrow(AMOUNT_BLOCK, a);
    var _ := arr.PutAtIdxGrow(TIMESTAMP_BLOCK, t);
    var _ := arr.PutAtIdxGrow(chain.block, e.encode(Chain(SuccessorData(chain))));
    assert arr.Contents() == Some(SuccessorBlocks(e, chain, amount, ts));
    EncodesMeansEncodable(SuccessorBlocks(e, chain, amount, ts));
    var ok, b := arr.GetBytes();
    if !ok { return None; }
    return b;
  }

  method UnlockByChain(txb: TransactionBuilder, block: Byte) returns (ok: bool)
    requires txb.Valid() && txb.consumed != [] && txb.tx.unlockBlocks == NoUnlocks(|txb.consumed|)
    modifies txb
    ensures txb.Valid() && txb.consumed == old(txb.consumed) && ok
    ensures txb.tx == old(txb.tx).(unlockBlocks := ChainUnlocks(|txb.consumed| - 1, block))
  {
    var n := |txb.consumed| - 1;
    ghost var all := ChainUnlocks(n, block);
    assert all[..1] + NoUnlocks(n) == NoUnlocks(n + 1)[0 := all[0]];
    hide Grow, ChainUnlocks, NoUnlocks;
    ok := txb.PutSignatureUnlock(0, LOCK_BLOCK);
    ok := txb.PutUnlockParams(0, block, [0, block, 0]);
    ChainUnlockIs(n, block, 0);
    for i := 0 to n
      invariant txb.Valid() && txb.consumed == old(txb.consumed)
      invariant txb.tx == old(txb.tx).(unlockBlocks := all[..i + 1] + NoUnlocks(n - i))
    {
      PutNext(all, i + 1);
      ChainUnlockIs(n, block, i + 1);
      ok := txb.PutUnlockParams(i + 1, LOCK_BLOCK, [0, block]);
    }
    AllPut(all);
    ok := true;
  }

  lemma ChainUnlockIs(n: nat, block: Byte, i: nat)
    requires i <= n
    ensures |ChainUnlocks(n, block)| == n + 1
    ensures ChainUnlocks(n, block)[i] ==
      if i == 0 then Grow(Grow([], LOCK_BLOCK, [0xff]), block, [0, block, 0]) else Grow([], LOCK_BLOCK, [0, block])
  {
  }

  /** Consumes the chain output, then the chosen ones; false is the error of too many inputs. */
  method ConsumeChain(txb: TransactionBuilder, chain: ChainOutput, chosen: seq<OutputWithID>) returns (ok: bool)
    requires txb.Valid() && txb.consumed == [] && txb.tx == EMPTY_TRANSACTION && |chosen| <= MAX_OUTPUTS
    modifies txb
    ensures txb.Valid() && (ok <==> |chosen| < MAX_OUTPUTS)
    ensures ok ==> txb.consumed == [chain.output] + OutputsOf(chosen)
    ensures ok ==> txb.tx == EMPTY_TRANSACTION.(inputIDs := [chain.id] + IDsOf(chosen),
                                                unlockBlocks := NoUnlocks(|chosen| + 1))
  {
    var _ := txb.ConsumeOutput(chain.output, chain.id);
    // the builder takes 256 inputs, and the chain output is one of them
    if |chosen| >= MAX_OUTPUTS { return false; }
    ok := ConsumeAll(txb, chosen);
    assert [] + [chain.output] == [chain.output] && [] + [chain.id] == [chain.id];
    assert [] + [[]] + NoUnlocks(|chosen|) == NoUnlocks(|chosen| + 1);
  }

  /** Produces the successor and the main output; false is an error or a panic. */
  method ProduceChain(e: Env, txb: TransactionBuilder, par: TransferData, chain: ChainOutput, amount: nat,
                      available: nat, ts: nat) returns (ok: bool)
    requires txb.Valid() && txb.tx.outputs == [] && ParsesAsOutput(e, chain.output) && amount < available
    modifies txb
    ensures txb.Valid() && txb.consumed == old(txb.consumed)
    ensures ok == ChainOutputs(e, par, chain, amount, available, ts).Some?
    ensures ok ==> txb.tx == old(txb.tx).(outputs := ChainOutputs(e, par, chain, amount, available, ts).value)
  {
    hide NewOutputBytes, MainExtra, SuccessorBlocks, ParsesAsOutput, EncodeUpTo256;
    var successor := MakeSuccessor(e, chain, available - amount, ts);
    if successor.None? { return false; }
    var _ := txb.ProduceOutput(successor.value);
    var main := MakeOutput(e, amount, ts, par.lock, MainExtra(e, par));
    if main.None? { return false; }
    var _ := txb.ProduceOutput(main.value);
    assert [] + [successor.value] + [main.value] == [successor.value, main.value];
    return true;
  }

  method BuildChain(e: Env, par: TransferData, chain: ChainOutput, amount: nat, available: nat, ts: nat,
                    chosen: seq<OutputWithID>) returns (r: Option<Bytes>)
    requires ParsesAsOutput(e, chain.output) && amount < available && |chosen| <= MAX_OUTPUTS
    ensures var tx := ChainTransaction(e, par, chain, amount, available, ts, chosen);
      r == if tx.Some? then TransactionBytes(tx.value) else None
  {
    hide TransactionBytes, Sealed, ChainOutputs, ChainUnlocks, ParsesAsOutput, NoUnlocks;
    var txb := new TransactionBuilder();
    var ok := ConsumeChain(txb, chain, chosen);
    if !ok { return None; }
    ok := ProduceChain(e, txb, par, chain, amount, available, ts);
    if !ok { return None; }
    ok := UnlockByChain(txb, chain.block);
    ok := txb.Finish(e, par.key, ts);
    if !ok { return None; }
    r := SerializeTransaction(txb.tx);
  }

  /**
   Makes the bytes of the transfer. None is an error or a panic: 256 outputs or the whole
   list are not enough, or the transaction cannot be put together.
   */
  method MakeChainTransfer(e: Env, par: TransferData, chain: ChainOutput, outs: array<OutputWithID>)
    returns (r: Option<Bytes>, ghost n: nat, ghost fromOutputs: nat, ghost ts: nat)
    requires AllOutputs(e, outs[..]) && ParsesAsOutput(e, chain.output)
    modifies outs
    ensures outs[..] == old(outs[..])
    ensures AdjustedAmount(e, par).None? ==> r.None?
    ensures AdjustedAmount(e, par).Some? ==>
      var amount := AdjustedAmount(e, par).value;
      if Chosen(e, outs[..], par.timestamp, amount, n, fromOutputs, ts)
      then r == ChainTransferBytes(e, par, chain, amount, fromOutputs, ts, outs[..n])
      else r.None? && !exists k: nat :: k <= MAX_CONSUMED && ShortestPrefix(e, outs[..], amount, k)
  {
    hide ParsesAsOutput, ShortestPrefix, TimestampAfter, AdjustedAmount, ChainTransaction, TransactionBytes, Available;
    n, fromOutputs, ts := MAX_CONSUMED + 1, 0, 0;
    var adjusted := AdjustedAmount(e, par);
    if adjusted.None? { return None, n, fromOutputs, ts; }
    var amount := adjusted.value;
    var selection := OutputsToConsume(e, outs, par.timestamp, amount);
    if selection.None? { return None, n, fromOutputs, ts; }
    var (tokens, timestamp, count) := selection.value;
    n, fromOutputs, ts := count, tokens, timestamp;
    PrefixFits(e, outs[..], amount, count);
    var available := AddUint64(tokens, AmountIn(e, chain.output));
    if available <= amount { return None, n, fromOutputs, ts; }
    r := BuildChain(e, par, chain, amount, available, timestamp, outs[..count]);
  }
}
