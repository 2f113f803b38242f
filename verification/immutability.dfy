/**
 Immutable data: a block attached to a chain by an `immutable` constraint stays
 attached, unchanged, for as long as the ledger runs, and the chain can never be
 destroyed.
 */
module Immutability {
  import opened Bytes
  import opened Codec
  import opened LazyTree
  import opened Context
  import opened Constraints
  import opened Validation
  import opened Ledger
  import opened Supply
  import opened Runs
  import opened Chains
  import opened Lineage

  /** Block `m` is an `immutable` constraint that ties block `data` to the chain constraint in block `chain`. */
  predicate Ties(e: Env, blocks: Byte -> Value, m: Byte, chain: Byte, data: Bytes) {
    && var arg := ImmutableArg(e, blocks(m));
    && arg.Some? && |arg.value| >= 2
    && arg.value[0] == chain
    && ChainData(e, blocks(chain)).Some?
    && blocks(arg.value[1]) == Some(data) && data != []
  }

  function BlocksAt(c: Context, consumed: bool, i: Byte): Byte -> Value {
    (j: Byte) => BlockAt(c, consumed, i, j)
  }

  function BlocksOf(output: Bytes): Byte -> Value {
    (j: Byte) => BlockOf(output, j)
  }

  /** Reaching a sibling block reaches the same block. */
  lemma SiblingBlock(c: Context, at: Place, j: Byte)
    requires OutputsRead(c)
    ensures SelfSibling(c, at, Some([j])) == BlockAt(c, at.consumed, at.output, j)
  {
    hide Parse, Outputs;
    var output := SelfOutput(c, at);
    assert output == SelfOutput(c, Place(at.consumed, at.output, 0));
    if output.Some? {
      ParseMonotone(output.value, MAX_ELEMENTS, MAX_ARRAY_LEN);
    }
  }

  /** Where a constraint has unlock parameters, those of its siblings are found next to them. */
  lemma SiblingUnlock(c: Context, at: Place, j: Byte)
    requires SelfUnlock(c, at).Some?
    ensures SelfSiblingUnlock(c, at, Some([j])) == Unlock(c, at.output, j)
  {
    ParseMonotone(UnlockBlock(c, at.output).value, MAX_ELEMENTS, MAX_ARRAY_LEN);
  }

  // ------------------------------------------------------------------ both sides of one constraint

  /** A produced `immutable` constraint holds exactly when it names a chain constraint and a nonempty block. */
  lemma {:induction false} ProducedSide(e: Env, c: Context, i: Byte, m: Byte, arg: Bytes)
    requires OutputsRead(c)
    ensures ImmutableConstraint(e, c, Place(false, i, m), arg) == True <==>
      && |arg| >= 2
      && ChainData(e, BlockAt(c, false, i, arg[0])).Some?
      && BlockAt(c, false, i, arg[1]).Some? && BlockAt(c, false, i, arg[1]).value != []
  {
    hide OutputsRead, Element, Outputs, SelfSiblingUnlock, ProducedConstraintByIndex, BlockAt, SelfSibling;
    var at := Place(false, i, m);
    assert SelfSibling(c, at, None) == None by { NoSibling(c, at); }
    if |arg| >= 1 {
      assert arg[0..1] == [arg[0]];
      SiblingBlock(c, at, arg[0]);
    }
    if |arg| >= 2 {
      assert arg[1..2] == [arg[1]];
      SiblingBlock(c, at, arg[1]);
    }
  }

  lemma NoSibling(c: Context, at: Place)
    ensures SelfSibling(c, at, None) == None && SelfSiblingUnlock(c, at, None) == None
    ensures ProducedConstraintByIndex(c, None) == None
  {
  }

  /**
   A consumed `immutable` constraint holds exactly when unlock parameters name the
   successor of the chain, `w`, and for this constraint `v` a block there that equals the
   data block and an `immutable` constraint there that names the successor's chain
   constraint and this very block.
   */
  lemma {:induction false} ConsumedSide(e: Env, c: Context, i: Byte, m: Byte, arg: Bytes)
    requires OutputsRead(c)
    ensures ImmutableConstraint(e, c, Place(true, i, m), arg) == True <==>
      && |arg| >= 2 && Unlock(c, i, arg[0]).Some? && Unlock(c, i, m).Some?
      && var w, v := Unlock(c, i, arg[0]).value, Unlock(c, i, m).value;
      && |w| >= 2 && |v| >= 2
      && BlockAt(c, true, i, arg[1]).Some?
      && BlockAt(c, false, w[0], v[0]) == BlockAt(c, true, i, arg[1])
      && ImmutableArg(e, BlockAt(c, false, w[0], v[1])) == Some([w[1], v[0]])
  {
    hide OutputsRead, Parse, Outputs, SelfSibling, SelfSiblingUnlock, ProducedConstraintByIndex, BlockAt, SelfUnlock;
    var at := Place(true, i, m);
    NoSibling(c, at);
    assert |arg| >= 1 ==> arg[0..1] == [arg[0]];
    assert |arg| >= 2 ==> arg[1..2] == [arg[1]];
    if |arg| >= 2 && Unlock(c, i, m).Some? {
      var v := Unlock(c, i, m).value;
      SiblingBlock(c, at, arg[1]);
      SiblingUnlock(c, at, arg[0]);
      assert |v| >= 1 ==> v[0..1] == [v[0]];
      assert |v| >= 2 ==> v[1..2] == [v[1]];
      if Unlock(c, i, arg[0]).Some? {
        var w := Unlock(c, i, arg[0]).value;
        assert |w| >= 1 ==> w[0..1] == [w[0]];
        assert |w| >= 2 ==> w[1..2] == [w[1]];
        if |w| >= 2 && |v| >= 2 {
          NamedBlocks(c, w, v);
        }
      }
    }
  }

  /** The blocks of the successor that the unlock parameters name. */
  lemma NamedBlocks(c: Context, w: Bytes, v: Bytes)
    requires OutputsRead(c) && |w| >= 2 && |v| >= 2
    ensures [w[1]] + [v[0]] == [w[1], v[0]]
    ensures ProducedConstraintByIndex(c, Some([w[0]] + [v[0]])) == BlockAt(c, false, w[0], v[0])
    ensures ProducedConstraintByIndex(c, Some([w[0]] + [v[1]])) == BlockAt(c, false, w[0], v[1])
  {
    hide OutputsRead, BlockAt, ProducedConstraintByIndex;
    assert [w[0]] + [v[0]] == [w[0], v[0]];
    assert [w[0]] + [v[1]] == [w[0], v[1]];
    IndexedBlock(c, false, w[0], v[0]);
    IndexedBlock(c, false, w[0], v[1]);
  }

  /** A produced `immutable` constraint evaluates to true exactly when it ties some block to a chain constraint. */
  lemma {:induction false} ProducedTiesExactly(e: Env, c: Context, i: Byte, m: Byte)
    requires OutputsRead(c) && ImmutableArg(e, BlockAt(c, false, i, m)).Some?
    requires BlockAt(c, false, i, m) != Some([])
    ensures EvalConstraint(e, c, Place(false, i, m), BlockAt(c, false, i, m).value) == True <==>
      exists chain, data :: Ties(e, BlocksAt(c, false, i), m, chain, data)
  {
    hide OutputsRead, BlockAt, ImmutableConstraint;
    var arg := ImmutableArg(e, BlockAt(c, false, i, m)).value;
    ProducedSide(e, c, i, m, arg);
    if |arg| >= 2 && BlockAt(c, false, i, arg[1]).Some? && BlockAt(c, false, i, arg[1]).value != []
      && ChainData(e, BlockAt(c, false, i, arg[0])).Some? {
      assert Ties(e, BlocksAt(c, false, i), m, arg[0], BlockAt(c, false, i, arg[1]).value);
    }
  }

  /** Every `immutable` constraint an accepted transaction produces ties some block to a chain constraint. */
  lemma {:induction false} ProducedImmutableTies(e: Env, c: Context, i: Byte, m: Byte)
    requires Accepted(e, c) && ImmutableArg(e, BlockAt(c, false, i, m)).Some?
    ensures var arg := ImmutableArg(e, BlockAt(c, false, i, m)).value;
      && |arg| >= 2 && BlockAt(c, false, i, arg[1]).Some?
      && Ties(e, BlocksAt(c, false, i), m, arg[0], BlockAt(c, false, i, arg[1]).value)
  {
    hide Accepted, OutputsRead, BlockAt, OutputOK, ImmutableConstraint;
    BlockHolds(e, c, false, i, m);
    AcceptedReads(e, c);
    ProducedSide(e, c, i, m, ImmutableArg(e, BlockAt(c, false, i, m)).value);
  }

  /**
   A transition that keeps tied data satisfies the constraint on both sides: the chain's
   unlock parameters name chain constraint `w[1]` of output `w[0]`, and those of the
   `immutable` constraint name a copy of the data there and an `immutable` constraint
   there that ties this copy to that chain constraint.
   */
  lemma {:induction false} KeptDataHolds(e: Env, c: Context, i: Byte, m: Byte, chain: Byte, data: Bytes, w: Bytes,
                                         v: Bytes)
    requires OutputsRead(c) && Ties(e, BlocksAt(c, true, i), m, chain, data)
    requires Unlock(c, i, chain) == Some(w) && |w| >= 2 && Unlock(c, i, m) == Some(v) && |v| >= 2
    requires BlockAt(c, false, w[0], v[0]) == Some(data) && ChainData(e, BlockAt(c, false, w[0], w[1])).Some?
    requires ImmutableArg(e, BlockAt(c, false, w[0], v[1])) == Some([w[1], v[0]])
    requires BlockAt(c, true, i, m) != Some([]) && BlockAt(c, false, w[0], v[1]) != Some([])
    ensures EvalConstraint(e, c, Place(true, i, m), BlockAt(c, true, i, m).value) == True
    ensures EvalConstraint(e, c, Place(false, w[0], v[1]), BlockAt(c, false, w[0], v[1]).value) == True
  {
    hide OutputsRead, BlockAt, Unlock, ImmutableConstraint;
    ConsumedSide(e, c, i, m, ImmutableArg(e, BlockAt(c, true, i, m)).value);
    ProducedSide(e, c, w[0], v[1], [w[1], v[0]]);
  }

  /** In particular, the chain, the data and the constraint may all stay in their blocks, unlocked by `[d, m]`. */
  lemma {:induction false} UnmovedDataHolds(e: Env, c: Context, i: Byte, m: Byte, chain: Byte, d: Byte, k: Byte,
                                            mode: Byte)
    requires OutputsRead(c) && ImmutableArg(e, BlockAt(c, true, i, m)) == Some([chain, d])
    requires ChainData(e, BlockAt(c, true, i, chain)).Some? && ChainData(e, BlockAt(c, false, k, chain)).Some?
    requires BlockAt(c, true, i, d).Some? && BlockAt(c, true, i, d) != Some([]) && BlockAt(c, true, i, m) != Some([])
    requires BlockAt(c, false, k, d) == BlockAt(c, true, i, d) && BlockAt(c, false, k, m) == BlockAt(c, true, i, m)
    requires Unlock(c, i, chain) == Some([k, chain, mode]) && Unlock(c, i, m) == Some([d, m])
    ensures EvalConstraint(e, c, Place(true, i, m), BlockAt(c, true, i, m).value) == True
    ensures EvalConstraint(e, c, Place(false, k, m), BlockAt(c, true, i, m).value) == True
  {
    hide OutputsRead, BlockAt, Unlock, EvalConstraint;
    KeptDataHolds(e, c, i, m, chain, BlockAt(c, true, i, d).value, [k, chain, mode], [d, m]);
  }

  /**
   One transition: a consumed chain with immutable data is not destroyed, and the
   successor named by its unlock parameters carries the same data, tied to the
   successor's chain constraint.
   */
  lemma {:induction false} ImmutableStep(e: Env, c: Context, i: Byte, m: Byte, chain: Byte, data: Bytes)
    requires Accepted(e, c) && Ties(e, BlocksAt(c, true, i), m, chain, data)
    ensures Unlock(c, i, chain).Some? && IsSuccessor(e, c, i, chain, Unlock(c, i, chain).value)
    ensures var w := Unlock(c, i, chain).value;
      exists m' :: Ties(e, BlocksAt(c, false, w[0]), m', w[1], data)
  {
    hide Accepted, OutputsRead, BlockAt, OutputOK, ImmutableConstraint, Unlock, ChainConstraint, IsSuccessor;
    var arg := ImmutableArg(e, BlockAt(c, true, i, m)).value;
    BlockHolds(e, c, true, i, m);
    ChainStep(e, c, i, chain);
    AcceptedReads(e, c);
    ConsumedSide(e, c, i, m, arg);
    var w, v := Unlock(c, i, chain).value, Unlock(c, i, m).value;
    ProducedImmutableTies(e, c, w[0], v[1]);
    assert Ties(e, BlocksAt(c, false, w[0]), v[1], w[1], data);
    ChainIsSound(e, c, false, w[0], w[1]);
    assert DESTROY_UNLOCK_PARAMS[0] == 0xff;
  }

  // ------------------------------------------------------------------ over whole runs

  /** An unspent output with immutable data tied to the chain constraint held at `h`. */
  ghost predicate Carries(e: Env, utxos: UTXOs, h: Holder, data: Bytes) {
    h.id in utxos && exists m :: Ties(e, BlocksOf(utxos[h.id]), m, h.block, data)
  }

  lemma TiesSame(e: Env, f: Byte -> Value, g: Byte -> Value, m: Byte, chain: Byte, data: Bytes)
    requires Ties(e, f, m, chain, data) && forall j: Byte :: f(j) == g(j)
    ensures Ties(e, g, m, chain, data)
  {
  }

  lemma {:induction false} FollowCarries(e: Env, genesis: Bytes, supply: nat, s: State, tx: Bytes, h: Holder,
                                         data: Bytes)
    requires Sound(e) && Inv(e, genesis, supply, s) && CollisionFree(e, Step(e, s, tx).accepted)
    requires Carries(e, s.utxos, h, data)
    ensures var h' := Follow(e, s.utxos, tx, h);
      h'.Some? && Carries(e, Step(e, s, tx).utxos, h'.value, data)
  {
    hide Accepts, Inv, Accepted, CollisionFree, Unlock, BlockAt, BlockOf, MakeContext, Consumes, Ties, Apply;
    if Accepts(e, s.utxos, tx) && Consumes(tx, h.id) {
      ContextOf(e, s.utxos, tx);
      var c, i := MakeContext(s.utxos, tx).value, InputIndex(tx, h.id);
      var m :| Ties(e, BlocksOf(s.utxos[h.id]), m, h.block, data);
      forall j: Byte ensures BlocksOf(s.utxos[h.id])(j) == BlocksAt(c, true, i)(j) {
        ConsumedBlockIs(e, s.utxos, tx, h.id, j);
      }
      TiesSame(e, BlocksOf(s.utxos[h.id]), BlocksAt(c, true, i), m, h.block, data);
      ImmutableStep(e, c, i, m, h.block, data);
      DestroyMarkerNamesNoSuccessor(e, c, i, h.block);
      var w := Unlock(c, i, h.block).value;
      var m' :| Ties(e, BlocksAt(c, false, w[0]), m', w[1], data);
      ProducedTies(e, s.utxos, tx, w[0], m', w[1], data);
    } else {
      Untouched(e, genesis, supply, s, tx, h.id);
    }
  }

  lemma {:induction false} ProducedTies(e: Env, utxos: UTXOs, tx: Bytes, k: Byte, m: Byte, chain: Byte, data: Bytes)
    requires Accepts(e, utxos, tx)
    requires Ties(e, BlocksAt(MakeContext(utxos, tx).value, false, k), m, chain, data)
    ensures InputIDs(tx).Some? && Outputs(tx).Some?
    ensures var id := OutputID(e.blake2b(tx), k);
      id in Apply(e, utxos, tx) && Ties(e, BlocksOf(Apply(e, utxos, tx)[id]), m, chain, data)
  {
    hide Accepts, MakeContext, Apply, Parse, Accepted;
    ContextOf(e, utxos, tx);
    var f := BlocksAt(MakeContext(utxos, tx).value, false, k);
    var arg := ImmutableArg(e, f(m)).value;
    ProducedBlockIs(e, utxos, tx, k, m);
    ProducedBlockIs(e, utxos, tx, k, chain);
    ProducedBlockIs(e, utxos, tx, k, arg[1]);
  }

  /**
   Once data is tied to a chain, then after any further transactions the output the
   chain has moved to still has an `immutable` constraint that ties exactly that data
   to the chain constraint. In particular the chain is never destroyed.
   */
  lemma {:induction false} ImmutableForever(e: Env, supply: nat, address: Bytes, ts: nat, txs: seq<Bytes>, m: nat,
                                            n: nat,
                                            h: Holder, data: Bytes)
    requires CleanRun(e, supply, address, ts, txs) && m <= n <= |txs|
    requires Carries(e, RunTo(e, Genesis(e, supply, address, ts), txs, m).utxos, h, data)
    ensures var h' := HolderAt(e, Genesis(e, supply, address, ts), txs, m, n, h);
      h'.Some? && Carries(e, RunTo(e, Genesis(e, supply, address, ts), txs, n).utxos, h'.value, data)
    decreases n - m
  {
    hide Carries, Follow, Inv, CollisionFree, Sound, Accepts, GenesisOutput, Genesis;
    if m == n {
    } else {
      var g := Genesis(e, supply, address, ts);
      ImmutableForever(e, supply, address, ts, txs, m, n - 1, h, data);
      Reachable(e, supply, address, ts, txs, n - 1);
      Reachable(e, supply, address, ts, txs, n);
      FollowCarries(e, GenesisOutput(e, supply, address, ts), supply, RunTo(e, g, txs, n - 1), txs[n - 1],
                    HolderAt(e, g, txs, m, n - 1, h).value, data);
    }
  }

  /** Every `immutable` constraint in the ledger ties some block of its output to a chain constraint. */
  ghost predicate AllTied(e: Env, utxos: UTXOs) {
    forall id, m: Byte :: id in utxos && ImmutableArg(e, BlockOf(utxos[id], m)).Some? ==> Tied(e, utxos[id], m)
  }

  ghost predicate Tied(e: Env, output: Bytes, m: Byte) {
    exists chain, data :: Ties(e, BlocksOf(output), m, chain, data)
  }

  lemma {:induction false} StepAllTied(e: Env, s: State, tx: Bytes)
    requires Sound(e) && AllTied(e, s.utxos)
    ensures AllTied(e, Step(e, s, tx).utxos)
  {
    hide Accepts, MakeContext, ImmutableArg, Ties, Produces, ProducedAt, Consumes, BlockOf;
    if Accepts(e, s.utxos, tx) {
      AcceptedParses(e, s.utxos, tx);
      ApplyContents(e, s.utxos, tx);
      var next := Step(e, s, tx).utxos;
      forall id, m: Byte | id in next && ImmutableArg(e, BlockOf(next[id], m)).Some?
        ensures Tied(e, next[id], m)
      {
        if Produces(e, tx, id) {
          ProducedTied(e, s.utxos, tx, id, m);
        }
      }
    }
  }

  lemma {:induction false} ProducedTied(e: Env, utxos: UTXOs, tx: Bytes, id: Bytes, m: Byte)
    requires Sound(e) && Accepts(e, utxos, tx) && Produces(e, tx, id)
    requires ImmutableArg(e, BlockOf(ProducedAt(e, tx, id), m)).Some?
    ensures Tied(e, ProducedAt(e, tx, id), m)
  {
    hide Accepts, MakeContext, ImmutableArg, Ties, Accepted, Outputs, Parse;
    ContextOf(e, utxos, tx);
    var c, k := MakeContext(utxos, tx).value, id[|e.blake2b(tx)|];
    forall j: Byte ensures BlockAt(c, false, k, j) == BlockOf(ProducedAt(e, tx, id), j) {
    }
    ProducedImmutableTies(e, c, k, m);
    var arg := ImmutableArg(e, BlockAt(c, false, k, m)).value;
    TiesSame(e, BlocksAt(c, false, k), BlocksOf(ProducedAt(e, tx, id)), m, arg[0], BlockAt(c, false, k, arg[1]).value);
  }

  lemma GenesisTied(e: Env, supply: nat, address: Bytes, ts: nat)
    requires GenesisOK(e, supply, address, ts)
    ensures AllTied(e, Genesis(e, supply, address, ts).utxos)
  {
    GenesisParses(e, supply, address, ts);
    var blocks := GenesisBlocks(e, supply, address, ts);
    hide GenesisOutput, Parse;
    assert WellSized(Amount(BigEndian(supply, 8))) && WellSized(Timestamp(BigEndian(ts, 4)))
      && WellSized(AddressED25519(address));
  }

  /** In every reachable state each `immutable` constraint ties a block of its output to a chain constraint. */
  lemma {:induction false} ImmutablesAreTied(e: Env, supply: nat, address: Bytes, ts: nat, txs: seq<Bytes>, n: nat)
    requires GenesisOK(e, supply, address, ts) && n <= |txs|
    ensures AllTied(e, RunTo(e, Genesis(e, supply, address, ts), txs, n).utxos)
  {
    hide AllTied, Step, Genesis, Sound;
    if n == 0 {
      GenesisTied(e, supply, address, ts);
    } else {
      ImmutablesAreTied(e, supply, address, ts, txs, n - 1);
      StepAllTied(e, RunTo(e, Genesis(e, supply, address, ts), txs, n - 1), txs[n - 1]);
    }
  }
}
