/**
 The ledger state: the map from output IDs to unspent outputs, and its update by a
 transaction given as bytes.
 */
module Ledger {
  import opened Bytes
  import opened Codec
  import opened LazyTree
  import opened Context
  import opened Constraints
  import opened Validation

  type UTXOs = map<Bytes, Bytes>

  const GENESIS_OUTPUT_ID: Bytes := Zeros(OUTPUT_ID_LENGTH)

  /** An empty value counts as absent. */
  function GetUTXO(utxos: UTXOs, oid: Bytes): Option<Bytes> {
    if oid in utxos && utxos[oid] != [] then Some(utxos[oid]) else None
  }

  // ------------------------------------------------------------------ the context of a transaction

  predicate InputsOK(utxos: UTXOs, ids: seq<Bytes>) {
    && (forall i :: 0 <= i < |ids| ==> |ids[i]| == OUTPUT_ID_LENGTH && GetUTXO(utxos, ids[i]).Some?)
    && Distinct(ids)
  }

  function Fetched(utxos: UTXOs, ids: seq<Bytes>): (r: seq<Bytes>)
    requires InputsOK(utxos, ids)
    ensures |r| == |ids|
  {
    seq(|ids|, i requires 0 <= i < |ids| => utxos[ids[i]])
  }

  /**
   The transaction with the outputs it consumes. None if it does not parse, names an
   input that is malformed, repeated or not in the ledger, or is too large.
   */
  function MakeContext(utxos: UTXOs, tx: Bytes): (r: Option<Context>)
    ensures r.Some? ==> Buildable(r.value)
  {
    var ids := InputIDs(tx);
    if Parse(tx, TX_TREE_INDEX_MAX).None? || ids.None? || !InputsOK(utxos, ids.value) then None
    else
      var c := Context(tx, Fetched(utxos, ids.value));
      if Buildable(c) then Some(c) else None
  }

  method ContextFromBytes(utxos: UTXOs, tx: Bytes) returns (r: Option<Context>)
    ensures r == MakeContext(utxos, tx)
  {
    hide Parse, Encode;
    var fields := ParseArray(tx, TX_TREE_INDEX_MAX);
    if fields.None? { return None; }
    ParseMonotone(tx, TX_TREE_INDEX_MAX, MAX_ELEMENTS);
    if |fields.value| <= TX_INPUT_IDS { return None; }
    var ids := ParseArray(fields.value[TX_INPUT_IDS], MAX_ELEMENTS);
    if ids.None? { return None; }
    var consumed: seq<Bytes>, seen: set<Bytes> := [], {};
    for i := 0 to |ids.value|
      invariant InputsOK(utxos, ids.value[..i])
      invariant consumed == Fetched(utxos, ids.value[..i])
      invariant forall id :: id in seen <==> id in ids.value[..i]
    {
      var id := ids.value[i];
      ghost var now := ids.value[..i + 1];
      assert now == ids.value[..i] + [id];
      assert forall k :: 0 <= k < i ==> now[k] == ids.value[k];
      if |id| != OUTPUT_ID_LENGTH { return None; }
      if id in seen {
        var k :| 0 <= k < i && ids.value[..i][k] == id;
        assert ids.value[k] == ids.value[i];
        return None;
      }
      var od := GetUTXO(utxos, id);
      if od.None? { return None; }
      consumed, seen := consumed + [od.value], seen + {id};
    }
    assert ids.value[..|ids.value|] == ids.value;
    var c := Context(tx, consumed);
    if !Buildable(c) { return None; }
    return Some(c);
  }

  // ------------------------------------------------------------------ the transition

  function DeleteTo(utxos: UTXOs, ids: seq<Bytes>, n: nat): UTXOs
    requires n <= |ids|
  {
    if n == 0 then utxos else DeleteTo(utxos, ids, n - 1) - {ids[n - 1]}
  }

  function PutTo(utxos: UTXOs, txid: Bytes, outputs: seq<Bytes>, n: nat): UTXOs
    requires n <= |outputs| <= MAX_ELEMENTS
  {
    if n == 0 then utxos else PutTo(utxos, txid, outputs, n - 1)[OutputID(txid, n - 1) := outputs[n - 1]]
  }

  predicate Accepts(e: Env, utxos: UTXOs, tx: Bytes) {
    MakeContext(utxos, tx).Some? && Validation.Valid(e, MakeContext(utxos, tx).value)
  }

  /** Inputs out, outputs in. */
  function Apply(e: Env, utxos: UTXOs, tx: Bytes): UTXOs
    requires InputIDs(tx).Some? && Outputs(tx).Some?
  {
    var ids, outputs := InputIDs(tx).value, Outputs(tx).value;
    PutTo(DeleteTo(utxos, ids, |ids|), e.blake2b(tx), outputs, |outputs|)
  }

  lemma AcceptedParses(e: Env, utxos: UTXOs, tx: Bytes)
    requires Accepts(e, utxos, tx)
    ensures InputIDs(tx).Some? && Outputs(tx).Some?
    ensures InputsOK(utxos, InputIDs(tx).value)
    ensures MakeContext(utxos, tx) == Some(Context(tx, Fetched(utxos, InputIDs(tx).value)))
  {
  }

  /** The ledger and the transactions accepted so far. */
  datatype State = State(utxos: UTXOs, accepted: seq<Bytes>)

  function Step(e: Env, s: State, tx: Bytes): State {
    if Accepts(e, s.utxos, tx) then
      AcceptedParses(e, s.utxos, tx);
      State(Apply(e, s.utxos, tx), s.accepted + [tx])
    else s
  }

  // ------------------------------------------------------------------ genesis

  function GenesisBlocks(e: Env, supply: nat, address: Bytes, ts: nat): seq<Bytes> {
    [e.encode(Amount(BigEndian(supply, 8))), e.encode(Timestamp(BigEndian(ts, 4))), e.encode(AddressED25519(address))]
  }

  ghost predicate GenesisOK(e: Env, supply: nat, address: Bytes, ts: nat) {
    Sound(e) && supply <= MAX_UINT64 && |address| == 32 && ts <= MAX_UINT32
  }

  function GenesisOutput(e: Env, supply: nat, address: Bytes, ts: nat): Bytes
    requires GenesisOK(e, supply, address, ts)
  {
    Encode(GenesisBlocks(e, supply, address, ts)).value
  }

  function Genesis(e: Env, supply: nat, address: Bytes, ts: nat): State
    requires GenesisOK(e, supply, address, ts)
  {
    State(map[GENESIS_OUTPUT_ID := GenesisOutput(e, supply, address, ts)], [])
  }

  class Updatable {
    const e: Env
    var utxos: UTXOs
    ghost var accepted: seq<Bytes>

    ghost function Now(): State
      reads this
    {
      State(utxos, accepted)
    }

    constructor (e: Env, supply: nat, address: Bytes, ts: nat)
      requires GenesisOK(e, supply, address, ts)
      ensures this.e == e && Now() == Genesis(e, supply, address, ts)
    {
      this.e := e;
      var output := EncodeArray(GenesisBlocks(e, supply, address, ts));
      utxos := map[GENESIS_OUTPUT_ID := output.value];
      accepted := [];
    }

    /** None is a rejected transaction; the state is then as before. */
    method Update(tx: Bytes) returns (r: Option<seq<Command>>)
      modifies this
      ensures Now() == Step(e, old(Now()), tx)
      ensures r.Some? <==> Accepts(e, old(utxos), tx)
      ensures r.Some? ==> r.value == IndexCommands(e, MakeContext(old(utxos), tx).value)
    {
      var next;
      next, r := UpdateTrie(e, utxos, tx);
      if r.Some? {
        utxos, accepted := next, accepted + [tx];
      }
    }
  }

  /** Validates the transaction, then deletes its inputs and adds its outputs. */
  method UpdateTrie(e: Env, utxos: UTXOs, tx: Bytes) returns (next: UTXOs, r: Option<seq<Command>>)
    ensures r.Some? <==> Accepts(e, utxos, tx)
    ensures next == Step(e, State(utxos, []), tx).utxos
    ensures r.Some? ==> r.value == IndexCommands(e, MakeContext(utxos, tx).value)
  {
    hide Validation.Valid, MakeContext, IndexCommands;
    next := utxos;
    var c := ContextFromBytes(utxos, tx);
    if c.None? { return next, None; }
    r := Validate(e, c.value);
    if r.None? { return next, None; }
    AcceptedParses(e, utxos, tx);
    hide *;
    next := ApplyUpdate(e, utxos, tx);
  }

  method ApplyUpdate(e: Env, utxos: UTXOs, tx: Bytes) returns (next: UTXOs)
    requires InputIDs(tx).Some? && Outputs(tx).Some?
    ensures next == Apply(e, utxos, tx)
  {
    hide InputIDs, Outputs;
    var ids := InputIDs(tx).value;
    var outputs := Outputs(tx).value;
    next := utxos;
    for i := 0 to |ids|
      invariant next == DeleteTo(utxos, ids, i)
    {
      next := next - {ids[i]};
    }
    var txid := e.blake2b(tx);
    for i := 0 to |outputs|
      invariant next == PutTo(DeleteTo(utxos, ids, |ids|), txid, outputs, i)
    {
      next := next[OutputID(txid, i) := outputs[i]];
    }
  }
}
