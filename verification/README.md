# A verified model of the EasyUTXO ledger

EasyUTXO is a UTXO ledger. Outputs are lists of constraints written in the EasyFL
language, a transaction is a tree of bytes, and a transaction is accepted when every
constraint of every consumed and produced output evaluates to true. This project models
the ledger in Dafny, from bytes to whole runs, and proves what the constraints, the
state, the indexer and the transaction builder guarantee together.

Everything works on the actual byte format. Transactions and outputs are byte strings,
their fields are found by parsing, and constraints look at the transaction through the
same tree paths as in the program. The modules, from the bottom up:

- **Bytes and codec** (`bytes.dfy`, `codec.dfy`): big-endian numbers, the length-prefixed
  array encoding with four length classes, its round trip, uniqueness and minimality.
- **Lazy arrays and trees** (`array.dfy`, `tree.dfy`): the classes with their two caches,
  bytes against parsed elements and memoised subtrees, refined to plain sequences and to
  pure nested parsing for any sequence of calls.
- **Constraints** (`context.dfy`, `constraints.dfy`): the tree layout, and each EasyFL
  library constraint with its and/or/if structure. Evaluation has three values, because
  a failed lookup and the `!!!` operator panic, and `or` does not recover from a panic.
- **Ledger** (`validation.dfy`, `ledger.dfy`, `supply.dfy`, `runs.dfy`): validation of a
  transaction in its context, the update of the unspent outputs, and the invariant of
  all runs from genesis.
- **Meanings** (`meanings.dfy`, `acceptance.dfy`): for each constraint exactly when it
  evaluates to true, wherever it is placed, in terms of fields and blocks; and acceptance
  as one condition on the bytes of a transaction, without the steps of the validator.
- **Chains** (`chains.dfy`, `signatures.dfy`, `lineage.dfy`, `immutability.dfy`,
  `provenance.dfy`): what the one-sided checks of `chain`, `chainLock`, `immutable`, the
  address lock and the deadline lock establish together in one accepted transaction, and
  then along runs.
- **Indexer and database** (`indexer.dfy`, `accounts.dfy`, `chainindex.dfy`,
  `livechains.dfy`, `output.dfy`, `utxodb.dfy`): the key-value index, its agreement with
  the ledger, and balances.
- **Builder** (`selection.dfy`, `builder.dfy`, `standard.dfy`, `transfer.dfy`,
  `chaintransfer.dfy`): coin selection in place, the transaction builder and the two
  transfer makers.
- **Transfers** (`accepted.dfy`, `simpleaccepted.dfy`, `chainaccepted.dfy`,
  `plaintransfer.dfy`, `plainchain.dfy`, `delivery.dfy`, `untimed.dfy`): exactly when the
  ledger accepts what the makers make, in general and where it can be told beforehand, what
  the recipient then has, and an accepted output that makes a balance panic.

Code that changes state is modelled by methods and classes with the same loops; their
contracts tie them to functions, and the properties are proved about those functions. What
a function computes is stated once more in other terms, from the decoded bytes: constraints
in `ConstraintMeanings`, acceptance in `Acceptance`, accounts in
`UTXODatabase.AccountMeans`, the choice of outputs in `Selection.ShortestPrefixIs` and
`TimestampIsLeast`, and what a transfer delivers in `Delivery`.
`Option.None` stands for an error or a panic of the program.

## What is assumed of the foreign parts

The hash, signature verification, the bytecode parser and compiler, and scripts outside
the library are fields of the datatype `Env`, and every theorem is for all `Env`.

- `Sound(e)`: digests have 32 bytes, the bytecode of a library call parses back and has
  between 1 and 255 bytes, and the bytecode of `amount` and `timestamp` has a fixed length;
  no bytes at all are no library call.
- `SignsFor(e, key)`: a signature made with the key verifies under its public key.
- `CollisionFree` (in `CleanRun`): different transactions accepted in a run have different
  digests. It speaks of the accepted transactions of this run only, so it does not
  contradict the finite size of digests. `Provenance.ChainIDsComeFromOrigins` and
  `Immutability.ImmutablesAreTied` do without it.
- `DistinctDigests`: different output IDs known in the run have different digests. Only the
  exactness of the chain index needs it.

Some properties need a discipline that the constraints do not enforce, stated as a
hypothesis: `OneChain` (an output has at most one chain constraint, at block 3 or later,
with 35 bytes of data; only the first one is indexed) and `NoForks` (a predecessor is
named by at most one produced chain constraint; the produced side checks the identity and
mode of the predecessor but not that the predecessor names it as successor).

## What the proofs found

- The guard of `Array.Push` looks at the number of elements before parsing
  (lazyslice/lazyslice.go:120-128), so an array made from bytes takes one element over its
  limit: `LazyArray.PushPastTheLimit`. `LazyArray.PushWithinLimit` says exactly when a
  push keeps the limit.
- `DeadlineLock.UnlockableWith` and the EasyFL source of the lock take opposite sides of
  the deadline: `UTXODatabase.DeadlineSidesDiffer` shows that they agree only when the two
  addresses are equal. Validation follows the EasyFL source, so a transfer that consumes
  what the filter lets through is rejected: `PlainTransfers.FilteredDeadlineIsRejected`.
- The 32-bit timestamp of a transfer wraps around when a chosen output has the largest
  timestamp: `Selection.TimestampIsLater` is an equivalence, and so are all results about
  acceptance.
- The maker of chain transfers does not look at the timestamp of the chain output, and
  copies its other blocks without unlock data for them. From a chain output that is not
  older, has an `immutable` constraint, or has another's sender constraint, it makes a
  transaction that is always rejected: `PlainChainTransfers.ImmutableChainIsRejected`,
  `PlainChainTransfers.ForeignSenderIsRejected`.
- An amount adjusted to the minimum does not count the sender constraint:
  `PlainTransfers.AdjustedAmountCoversDeposit` says when it is enough all the same.
- Validation does not require a timestamp, and a balance panics on an unspent output of
  the account without one. `UntimedOutputs.UntimedIsAccepted` gives the transaction, and
  `UntimedOutputs.BalancePanics` the panic of its recipient's balance.
- An output with an `immutable` constraint can only be consumed by continuing its chain:
  `Immutability.ImmutableForever` proves that such a chain is never destroyed.
- One transaction has one signer: `Signatures.SingleSigner`.

## Model

| member | source | states |
|---|---|---|
| `Bytes.LexLessIsNumeric` | ledger/constraints/timestamp.go:13-21 | the bytewise comparison of equally long big-endian numbers that the constraints use is the numeric comparison, both ways |
| `Codec.MaxClassIsLeast` | lazyslice/lazyslice.go:225-251 | the length class written in the prefix is the least one whose width holds the length of every element |
| `Codec.DecodeBody` | lazyslice/lazyslice.go:253-316 | decoding the written elements gives them back, with nothing left over |
| `Codec.DecodeOnlyBody` | lazyslice/lazyslice.go:285-316 | whatever decodes is exactly the body of what it decodes to: no other byte string is accepted for these elements and this width |
| `Codec.ParseInverse` | lazyslice/lazyslice.go:329-339 | a byte string parses to a list if and only if it is a two-byte prefix with that number of elements, followed by the body in the width of the prefix |
| `Codec.RoundTrip` | lazyslice/lazyslice.go:225-339 | for every list of at most 16383 elements of at most 2^32-1 bytes, parsing the encoding gives the list back, and fails exactly when the caller allows fewer elements |
| `Codec.ParsedFits` | lazyslice/lazyslice.go:329-339 | what parses can be encoded, has the number of elements in the prefix, and needs no larger length class than the prefix has |
| `Codec.Minimality` | lazyslice/lazyslice.go:225-339 | encoding again what was parsed is never longer, and gives the same bytes exactly when the prefix had the least length class |
| `Codec.PrefixBytes` | lazyslice/lazyslice.go:29-66 | the prefix byte by byte: two bits of length class, which stand for lengths in 0, 1, 2 or 4 bytes, and fourteen bits of element count |
| `Codec.Format` | lazyslice/lazyslice.go:253-316 | whatever parses has, for each element at its offset, the length big-endian in the width of the prefix and then the data, and nothing else |
| `Codec.EncodedClass` | lazyslice/lazyslice.go:225-251 | the length class that is written is 0, 1 or 2 exactly when all elements are empty, within 255 or within 65535 bytes, and no smaller one will do |
| `Codec.PrefixFree` | lazyslice/lazyslice.go:285-316 | a serialized array tells where it ends: no two different ones begin the same bytes |
| `Codec.CalcLenPrefix` | lazyslice/lazyslice.go:225-251 | the loop finds the least length class, and fails exactly on a list that is too long or has an element over 2^32-1 bytes |
| `Codec.WriteData` | lazyslice/lazyslice.go:253-281 | the loop writes every element with its length in the chosen width |
| `Codec.EncodeArray` | lazyslice/lazyslice.go:318-327 | prefix and body together, or the error of either |
| `Codec.DecodeData` | lazyslice/lazyslice.go:303-316 | the loop reads exactly the given number of elements and rejects leftover bytes |
| `Codec.ParseArray` | lazyslice/lazyslice.go:329-339 | the prefix, the limit on the number of elements and the elements, as the pure parser reads them |
| `LazyArray.Array.FromBytes` | lazyslice/lazyslice.go:73-82 | a new array holds the bytes and has parsed nothing |
| `LazyArray.Array.Empty` | lazyslice/lazyslice.go:84-86 | a new empty array: no elements, nothing parsed, the bytes of the empty prefix |
| `LazyArray.Array.EnsureParsed` | lazyslice/lazyslice.go:163-172 | parsing fills the cache and changes neither bytes nor contents; it fails exactly on malformed bytes and then leaves nothing cached |
| `LazyArray.Array.Push` | lazyslice/lazyslice.go:120-128 | appends and drops the cached bytes; refused exactly when the contents are malformed or the number of elements already parsed has reached the limit (the guard looks before parsing) |
| `LazyArray.Array.PutAtIdx` | lazyslice/lazyslice.go:131-134 | replaces one parsed element, and fails exactly past the parsed elements |
| `LazyArray.Array.PutAtIdxGrow` | lazyslice/lazyslice.go:137-142 | replaces an element, padding with empty ones up to the index; past the limit it fails after having padded up to the limit |
| `LazyArray.Array.NumElements` | lazyslice/lazyslice.go:208-211 | the number of elements of the contents, which do not change |
| `LazyArray.Array.At` | lazyslice/lazyslice.go:189-192 | the element of the contents at the index, which do not change |
| `LazyArray.Array.GetBytes` | lazyslice/lazyslice.go:174-216 | cached bytes are returned as they are, otherwise the parsed elements are encoded and cached; what is returned parses back to the contents |
| `LazyArray.Exec` | lazyslice/lazyslice.go:120-216 | any sequence of push, put with growth, get, count and serialize calls on a parseable array that is parsed or not full answers and ends as the same calls on a plain sequence |
| `LazyArray.ExecOne` | lazyslice/lazyslice.go:120-216 | one such call is one step of the plain sequence, failures included |
| `LazyArray.PushPastTheLimit` | lazyslice/lazyslice.go:120-128 | any unparsed byte string that fills the limit of its array takes one element more |
| `LazyArray.PushWithinLimit` | lazyslice/lazyslice.go:120-128 | a push keeps a parseable array within its limit if and only if the array is parsed, or not full, or has the limit zero |
| `LazyTree.Tree.FromBytes` | lazyslice/lazyslice.go:356-361 | a new tree stands for the document of its bytes and has no cached subtrees |
| `LazyTree.Tree.OfArray` | lazyslice/lazyslice.go:218-223 | a tree over an array shares the array and has no cached subtrees |
| `LazyTree.Tree.GetSubtree` | lazyslice/lazyslice.go:397-403 | a cached or new subtree stands for the bytes of the element; no tree in the family changes content |
| `LazyTree.Tree.Subtree` | lazyslice/lazyslice.go:405-413 | the subtree at a path is pure nested parsing along the path, failing exactly where that fails |
| `LazyTree.Tree.GetBytes` | lazyslice/lazyslice.go:384-394 | serializing returns the original bytes of the root and changes no content |
| `LazyTree.Tree.WriteBack` | lazyslice/lazyslice.go:384-394 | every cached subtree already has its bytes, so that nothing is written back |
| `LazyTree.Tree.BytesAtPath` | lazyslice/lazyslice.go:416-427 | the bytes at a path are pure nested parsing and indexing of the content, failing exactly where that fails |
| `LazyTree.Tree.NumElements` | lazyslice/lazyslice.go:430-432 | the number of elements at a path, likewise |
| `LazyTree.Session` | lazyslice/lazyslice.go:384-432 | for any sequence of subtree, bytes-at-path, count and bytes queries every answer, failures included, is that of pure nested parsing of the root, whose content never changes |
| `LazyTree.Ask` | lazyslice/lazyslice.go:384-432 | one such query |
| `LazyTree.PathsCompose` | lazyslice/lazyslice.go:416-427 | following a path in two parts, failures included, is following it at once |
| `LazyTree.CountsElements` | lazyslice/lazyslice.go:430-432 | the number of elements at a path is the number of indices that lead on from there |
| `Context.TransactionPaths` | ledger/constraints/extensions.go:126-167 | tree paths under the transaction branch reach the fields, lists and list elements of the transaction bytes |
| `Context.ConsumedPaths` | ledger/constraints/extensions.go:126-167 | tree paths under the consumed branch reach the consumed outputs that were fetched from the ledger and their blocks |
| `Validation.FirstChainIs` | ledger/state/validate.go:167-190 | the search finds the first chain constraint at or after a block, or reports that there is none |
| `Validation.RunOutput` | ledger/state/validate.go:214-259 | the loop over the blocks accepts exactly when every constraint evaluates to true and, on the produced side, no block is repeated |
| `Validation.CheckContent` | ledger/state/validate.go:101-118 | an output is accepted with its blocks and amount exactly when it parses, its constraints hold, it has an amount, and the amount covers one token a byte |
| `Validation.IndexChainID` | ledger/state/validate.go:167-207 | the chain command of an output: recorded when produced, deleted only when destroyed, the panics kept |
| `Validation.CreateIndexEntries` | ledger/state/validate.go:137-207 | the commands of one output, or the error of a missing lock or ID |
| `Validation.ValidateOutput` | ledger/state/validate.go:101-130 | one turn of the loop: the checked sum and the index commands, or the error of any check or of the 64-bit overflow test |
| `Validation.ValidateOutputs` | ledger/state/validate.go:89-135 | the loop accepts exactly when every output is in order and the exact sum fits in 64 bits, and returns that sum and all commands in order |
| `Validation.Validate` | ledger/state/validate.go:48-79 | accepts exactly the valid transactions and returns the consumed and then the produced commands; what valid means is `Acceptance.AcceptanceMeans` |
| `Ledger.ContextFromBytes` | ledger/state/txcontext.go:33-79 | the loop fetches the consumed outputs in input order and fails exactly on malformed bytes, an input ID of the wrong length, a repeated input or an unknown one |
| `Ledger.AcceptedParses` | ledger/state/txcontext.go:33-79 | an accepted transaction parses, its inputs are distinct and unspent, and its context holds the outputs stored under them |
| `Acceptance.AcceptanceMeans` | ledger/state/validate.go:48-135 | acceptance stated without the steps of the validator: the bytes are a list of at most 8 fields, the inputs are distinct IDs of 33 bytes of unspent outputs, the commitment is the hash of the encoded consumed outputs, every output on both sides has an 8-byte amount of at least its size, a lock and only constraints that hold, produced blocks differ, and the sums are equal and within 64 bits; the ledger accepts if and only if all this holds |
| `Acceptance.OutputInOrder` | ledger/state/validate.go:101-130 | one output is in order if and only if it is well formed and its constraints hold; the amount the sums use is the number in its first block |
| `Acceptance.IndexNeverFails` | ledger/state/validate.go:137-207 | the index commands of an output whose constraints hold can always be made: they never reject a transaction that has locks |
| `Acceptance.ContextMeans` | ledger/state/txcontext.go:33-79 | the context exists, with the outputs stored under the inputs, exactly for a list of at most 8 fields with distinct unspent input IDs of 33 bytes |
| `Acceptance.ProducedWellFormed` | ledger/state/validate.go:101-130 | every output an accepted transaction produces, whatever its bytes, has an amount of at least its size, a lock, and at most 65535 bytes |
| `Acceptance.OutputsAlwaysRead` | ledger/state/validate.go:101-164 | over any run every unspent output has an 8-byte amount and a lock of the library |
| `Acceptance.GenesisIsOutput` | ledger/state/state.go:28-50 | the genesis ledger is one output of three blocks with the whole supply, the timestamp and the address, under an ID of 33 zeros |
| `Ledger.Updatable.constructor` | ledger/state/state.go:28-50 | the new ledger holds the genesis output alone |
| `Ledger.Updatable.Update` | ledger/state/state.go:105-121 | the ledger makes one step: unchanged unless the transaction is accepted, in the sense of `Acceptance.AcceptanceMeans`; the index commands are returned exactly on acceptance |
| `Ledger.UpdateTrie` | ledger/state/state.go:137-158 | the same on the map of unspent outputs alone |
| `Ledger.ApplyUpdate` | ledger/state/state.go:143-155 | the loops delete the inputs and then add the outputs under the transaction ID and their index |
| `Supply.ApplyContents` | ledger/state/state.go:143-155 | exactly the unspent outputs that are not consumed, and the produced ones with their bytes, are in the ledger afterwards |
| `Supply.DeleteToTotal` | ledger/state/state.go:143-147 | deleting distinct inputs takes exactly their sum off the total |
| `Supply.PutToTotal` | ledger/state/state.go:149-155 | adding outputs under new IDs adds exactly their sum to the total |
| `Supply.SumPositive` | ledger/state/validate.go:107-123 | the sum of outputs that pass validation is at least their number: each has a positive amount |
| `Supply.OutputsNeedInputs` | ledger/state/validate.go:48-79 | an accepted transaction with outputs has inputs |
| `Runs.NotYetAccepted` | ledger/state/state.go:105-158 | a transaction with outputs that is accepted now was not accepted before |
| `Runs.ProducedIsNew` | ledger/state/state.go:137-158 | an accepted transaction produces only IDs that were never known |
| `Runs.StepTotal` | ledger/state/validate.go:48-79 | one accepted transaction with new IDs keeps the total supply |
| `Runs.StepInv` | ledger/state/state.go:105-158 | every update, accepted or rejected, keeps the invariant: the unspent outputs are those produced and not consumed, stored as produced, never consumed twice, and add up to the supply |
| `Runs.GenesisInv` | ledger/state/state.go:28-50 | the invariant holds of the genesis ledger |
| `Runs.Reachable` | ledger/state/state.go:105-158 | the invariant holds at every point of every run |
| `Runs.SupplyConserved` | ledger/state/state.go:105-158 | supply conservation: after any sequence of accepted and rejected updates the unspent amounts add up to the initial supply |
| `Runs.NothingSpentTwice` | ledger/state/state.go:137-158 | after any run an ID is unspent if and only if it was produced and not consumed, and no ID is an input of two accepted transactions |
| `Runs.NoReplay` | ledger/state/state.go:105-158 | a transaction accepted twice in a run has no outputs |
| `Runs.SpentForever` | ledger/state/state.go:137-158 | an ID that was consumed is never unspent again |
| `Runs.ProducedIDsAreFresh` | ledger/state/state.go:137-158 | an ID that is produced was not unspent at any earlier point nor ever consumed, and is unspent afterwards |
| `Chains.BlockHolds` | ledger/state/validate.go:214-259 | every block on either side of an accepted transaction was evaluated to true at its place |
| `ConstraintMeanings.Layout` | ledger/constraints/extensions.go:41-198 | the tree byte by byte: unlock parameters at 0.0, input IDs at 0.1, outputs and their blocks at 0.2, signature, timestamp and commitment at 0.3 to 0.5, consumed outputs and their blocks at 1.0 |
| `ConstraintMeanings.AmountMeans` | ledger/constraints/amount.go:12-32 | an amount, anywhere in any context, evaluates to true if and only if it is in block 0 and, when produced, has eight bytes of a number not less than the size of its output, which is at most 65535 |
| `ConstraintMeanings.TimestampMeans` | ledger/constraints/timestamp.go:13-21 | a timestamp, anywhere in any context, evaluates to true if and only if it is in block 1 and has the length of the timestamp field of the transaction and, produced, the same number, consumed, a smaller one |
| `ConstraintMeanings.SignatureMeans` | ledger/constraints/lock_ed25519.go:103-139 | an address is unlocked by signature if and only if it is the hash of the last 32 of 96 bytes of the signature field and the first 64 verify, under that key, input IDs, outputs and commitment in this order |
| `ConstraintMeanings.EssenceBinds` | ledger/constraints/extensions.go:156 | the essences of two transactions are equal if and only if their inputs, outputs and commitments are |
| `ConstraintMeanings.AddressLockMeans` | ledger/constraints/lock_ed25519.go:103-139 | an address lock in its place evaluates to true if and only if it is in block 2 and, produced, has 32 bytes, consumed, has one byte of unlock parameters and either that names a smaller input with the same lock or the address signed (the index of a smaller input without a lock panics) |
| `ConstraintMeanings.DeadlineLockMeans` | ledger/constraints/lock_deadline.go:103-110 | a deadline lock in its place evaluates to true if and only if it is in block 2 and the main address, after the deadline, or else the other one is unlocked like that |
| `ConstraintMeanings.ChainLockMeans` | ledger/constraints/lock_chain.go:103-140 | a chain lock evaluates to true if and only if it is in block 2 and, produced, has 32 bytes, consumed, its unlock parameters name a chain constraint of this id on another input that is unlocked in mode 0 |
| `ConstraintMeanings.SenderMeans` | ledger/constraints/sender_ed25519.go:73-82 | a sender constraint evaluates to true if and only if it is consumed or names the address of the key in the signature field |
| `ConstraintMeanings.ChainMeans` | ledger/constraints/chain.go:145-271 | a chain constraint evaluates to true if and only if it is not on output 255, has an id and, produced, is an origin or continues the predecessor it names, consumed, is unlocked by three bytes 0xff or continued by the successor it names |
| `ConstraintMeanings.ProducedAtItsTime` | ledger/constraints/timestamp.go:13-21 | in any accepted transaction every produced output with a timestamp of four bytes in block 1 has exactly the number in the timestamp field |
| `ConstraintMeanings.ConsumedBeforeItsTime` | ledger/constraints/timestamp.go:13-21 | and every consumed output with a timestamp is older than that |
| `ConstraintMeanings.TimeMovesOn` | ledger/constraints/timestamp.go:13-21 | so every consumed output with a timestamp is strictly older than every produced one |
| `Chains.ConsumedChainMeans` | ledger/constraints/chain.go:196-271 | where outputs parse, a consumed chain constraint holds if and only if the output index is not 255 and it is destroyed or names a produced chain constraint with the same identity that points back |
| `Chains.ProducedChainMeans` | ledger/constraints/chain.go:166-271 | where outputs parse, a produced chain constraint holds if and only if the output index is not 255 and it is an origin or names a consumed chain constraint with its adjusted id, unlocked in its mode |
| `Chains.ChainIsSound` | ledger/constraints/chain.go:229-271 | every chain constraint of an accepted transaction holds, is not on output 255 and has an id |
| `Chains.ChainStep` | ledger/constraints/chain.go:166-271 | in an accepted transaction a consumed chain constraint is destroyed, or its unlock parameters name a produced one with the same adjusted id, the unlocked mode, and a pointer back |
| `Chains.DestroyMarkerNamesNoSuccessor` | ledger/constraints/chain.go:145-146 | the destroy marker is never the name of a successor |
| `Chains.SuccessorsDiffer` | ledger/constraints/chain.go:196-215 | chain constraints with the same successor are the same one |
| `Chains.ChainLockMeansTransit` | ledger/constraints/lock_chain.go:103-140 | consuming an output locked in a chain implies that a chain constraint with this adjusted id is consumed at another input and its successor of mode 0 is produced |
| `Signatures.ReferencesAreGrounded` | ledger/constraints/lock_ed25519.go:103-139 | the address a consumed lock asks for, also through a deadline lock and any chain of references, is that of the key whose signature on the essence is valid |
| `Signatures.SingleSigner` | ledger/constraints/lock_deadline.go:103-110 | all addresses unlocked in one accepted transaction are the same |
| `Lineage.FollowStep` | ledger/constraints/chain.go:196-215 | one update keeps a chain alive with its id at the place its unlock parameters name, unless it is destroyed |
| `Lineage.FollowEnds` | ledger/constraints/chain.go:196-271 | a chain ends exactly when the output that carries it is consumed by an accepted transaction and unlocked by three bytes 0xff |
| `Lineage.ChainsLiveOn` | ledger/constraints/chain.go:196-215 | over any run a chain that is not destroyed lives on with the same id where its unlock parameters sent it |
| `Immutability.ProducedImmutableTies` | ledger/constraints/immutable.go:87-131 | in an accepted transaction every produced immutable constraint points at a chain constraint and at a nonempty block of its own output |
| `Immutability.ConsumedSide` | ledger/constraints/immutable.go:97-127 | a consumed immutable constraint holds if and only if the unlock parameters of its chain name a successor and its own name there a block equal to the data and an immutable constraint that names the successor's chain constraint and that block |
| `Immutability.ProducedSide` | ledger/constraints/immutable.go:88-96 | a produced immutable constraint holds if and only if its two bytes name a chain constraint and a nonempty block of its output |
| `Immutability.ProducedTiesExactly` | ledger/constraints/immutable.go:88-96 | in other words if and only if it ties some block to a chain constraint |
| `Immutability.KeptDataHolds` | ledger/constraints/immutable.go:87-131 | completeness: a transition whose unlock parameters name a copy of the data and an immutable constraint that ties it to the successor satisfies the constraint on both sides |
| `Immutability.UnmovedDataHolds` | ledger/constraints/immutable.go:87-131 | in particular chain, data and constraint may all stay in their blocks, unlocked by the indices of the last two |
| `Immutability.ImmutableStep` | ledger/constraints/immutable.go:87-131 | a consumed chain with tied data is not destroyed, and its successor carries the same data tied to it; which transitions are accepted is `ConsumedSide` and `KeptDataHolds` |
| `Immutability.FollowCarries` | ledger/constraints/immutable.go:87-131 | one update keeps tied data tied to the chain it follows |
| `Immutability.ImmutableForever` | ledger/constraints/immutable.go:87-131 | over any run a chain with tied data is never destroyed, and its current output ties an equal data block to it |
| `Immutability.ImmutablesAreTied` | ledger/constraints/immutable.go:87-96 | every immutable constraint on an unspent output of any run ties a nonempty block to a chain constraint, with no assumption on digests |
| `Provenance.StepProvenance` | ledger/constraints/chain.go:166-184 | one update keeps the provenance of all chain ids |
| `Provenance.ChainIDsComeFromOrigins` | ledger/constraints/chain.go:166-271 | after any run every nonzero chain id on an unspent output is the hash of the ID of a chain origin that one accepted transaction produced and a later one consumed, with no assumption on digests |
| `Index.AccountKeyInjective` | ledger/indexer/indexer.go:142-174 | account keys are equal exactly when account and output ID are |
| `Index.PrefixIsolated` | ledger/indexer/indexer.go:70-101 | a key is found under the prefix of an account exactly when it belongs to that account, and what follows the prefix is the output ID |
| `Index.ChainKeyInjective` | ledger/indexer/indexer.go:142-174 | chain keys are equal exactly when the chain ids are |
| `Index.RunCommandEffect` | ledger/indexer/indexer.go:142-174 | one command changes exactly the record it names |
| `Index.RunCommandWrites` | ledger/indexer/indexer.go:132-174 | the records byte by byte: 0, length of the account ID, account ID and output ID lead to 0xff; 1 and chain id lead to the output ID; a deletion takes the key away |
| `Index.UniformAccounts` | ledger/indexer/indexer.go:132-174 | a batch that only deletes or only adds leaves an account record exactly as its commands say |
| `Index.UniformChains` | ledger/indexer/indexer.go:132-174 | likewise for chain records, which keep one of the output IDs the batch records |
| `Index.Indexer.constructor` | ledger/indexer/indexer.go:59-68 | the new index holds the genesis output in the genesis account |
| `Index.Indexer.Update` | ledger/indexer/indexer.go:132-174 | all commands are run in order, or none if one of them is malformed |
| `Index.Indexer.GetUTXOsLockedInAccount` | ledger/indexer/indexer.go:70-101 | exactly the recorded outputs of the account that the ledger still has, each once; fails exactly on an ID that is too long or a key without a whole output ID |
| `Index.Indexer.GetUTXOForChainID` | ledger/indexer/indexer.go:103-128 | the recorded output of the chain with its bytes in the ledger, and exactly when it fails |
| `Accounts.DeletedAccounts` | ledger/state/validate.go:145-165 | an accepted transaction deletes the account records of exactly the consumed outputs under their lock tags |
| `Accounts.AddedAccounts` | ledger/state/validate.go:145-165 | and adds those of exactly the produced outputs |
| `Accounts.UpdatePhases` | ledger/state/validate.go:48-79 | the commands of an accepted transaction are well formed, all deletions come before all additions |
| `Accounts.StepAgrees` | ledger/utxodb/utxodb.go:95-104 | one transaction, state then index, keeps account records and ledger in agreement |
| `Accounts.AccountsAlwaysAgree` | ledger/indexer/indexer.go:132-174 | in every reachable state an output is recorded under an account exactly when it is unspent and its lock has the account as a tag; which locks do is `UTXODatabase.AccountMeans` |
| `ChainIndex.AddedChains` | ledger/state/validate.go:167-207 | the chain commands added are exactly those of produced outputs with their chain ids |
| `ChainIndex.IndexedChainMeans` | ledger/state/validate.go:167-207 | an output is indexed under the id in its first chain constraint of 35 bytes after the lock, or, if that is an origin, under the hash of its own ID |
| `ChainIndex.DeletedChains` | ledger/state/validate.go:167-207 | a chain id is deleted exactly when an output indexed under it is consumed and destroyed |
| `ChainIndex.StepRecordsTrue` | ledger/utxodb/utxodb.go:95-104 | one transaction keeps the chain records true |
| `ChainIndex.ChainRecordsAreTrue` | ledger/indexer/indexer.go:103-128 | over any run an output that a chain id leads to is indexed under this very id |
| `LiveChains.SuccessorLives` | ledger/constraints/chain.go:196-215 | the successor of a live chain that is not destroyed is indexed under the same id |
| `LiveChains.ProducedIDsDiffer` | ledger/constraints/chain.go:166-184 | without forks no two produced outputs are indexed under the same chain id |
| `LiveChains.EntryExact` | ledger/state/validate.go:167-207 | after a disciplined transaction a chain id leads to an output exactly when the output is unspent and indexed under it |
| `LiveChains.StepExact` | ledger/utxodb/utxodb.go:95-104 | a disciplined transaction keeps the chain index exact |
| `LiveChains.ChainIndexIsExact` | ledger/indexer/indexer.go:103-128 | over any run in which outputs have at most one chain constraint and predecessors at most one produced successor, the chain index is exactly the map from live chain ids to their unspent outputs |
| `UTXODatabase.ReachableFacts` | ledger/utxodb/utxodb.go:95-104 | in every reachable database index and ledger agree, and the supply fits in 64 bits |
| `UTXODatabase.ReachableNext` | ledger/utxodb/utxodb.go:95-104 | adding any transaction without a digest collision leads to another reachable state |
| `UTXODatabase.AccountMeans` | ledger/state/validate.go:137-164 | read from the locks: the account of an address has the outputs of its address locks and of the deadline locks that name it on either side, the account of a chain those of its chain locks; the balance counts, at a time, deadline locks for their main address up to the deadline and for the other one after it |
| `UTXODatabase.UTXODB.constructor` | ledger/utxodb/utxodb.go:41-66 | a new database holds the genesis ledger and its index |
| `UTXODatabase.UTXODB.AddTransaction` | ledger/utxodb/utxodb.go:95-104 | state and then index make one step; what is returned says whether both succeeded |
| `UTXODatabase.UTXODB.AccountList` | ledger/utxodb/utxodb.go:182-208 | for an address, exactly the unspent outputs whose lock is this address or a deadline lock with it on either side, each once; for a chain, exactly those whose lock is this chain |
| `UTXODatabase.SumAmounts` | ledger/utxodb/utxodb.go:221-227 | the unchecked 64-bit loop gives the exact total and number of the outputs that pass the filter |
| `UTXODatabase.UTXODB.Account` | ledger/utxodb/utxodb.go:210-227 | the exact total and number of those of them that count at the given time, and a panic exactly if one of them has no timestamp; the 64-bit sum never wraps around |
| `UTXODatabase.UTXODB.BalanceOnChain` | ledger/utxodb/utxodb.go:237-247 | the exact total locked in the chain and the amount on an unspent output indexed under this id; fails exactly when the chain account cannot be read |
| `UTXODatabase.RunAll` | ledger/utxodb/utxodb.go:95-104 | a database that is given a list of transactions is the database after that run |
| `UTXODatabase.DeadlineSidesDiffer` | ledger/constraints/lock_deadline.go:51-56 | the balance filter names the address the deadline lock asks for if and only if the two addresses of the lock are equal |
| `Selection.OutputsToConsume` | ledger/txbuilder/txbuilder.go:295-319 | the shortest prefix of the list that reaches the amount, with its sum and timestamp, the list unchanged although the loop writes over it; without a largest timestamp among the chosen the timestamp is the least that is not before the given one and later than all chosen; fails exactly when 256 outputs are not enough |
| `Selection.SelectionSumIsExact` | ledger/txbuilder/txbuilder.go:313-316 | the unchecked sum of distinct outputs of a ledger within 64 bits is exact |
| `Selection.PrefixSumBounded` | ledger/txbuilder/txbuilder.go:313-316 | and bounded by the supply |
| `Selection.TimestampBounds` | ledger/txbuilder/txbuilder.go:309-311 | the chosen timestamp is within 32 bits and, without a largest timestamp, never goes back |
| `Selection.TimestampIsLater` | ledger/txbuilder/txbuilder.go:309-311 | the chosen timestamp is later than every chosen output if and only if none of them has the largest 32-bit timestamp |
| `Selection.TimestampIsLeast` | ledger/txbuilder/txbuilder.go:309-311 | in general: after the last chosen output with the largest timestamp, where it wraps around to zero, the timestamp is the least from there on that is later than all chosen outputs after it |
| `Selection.LeastLaterIs` | ledger/txbuilder/txbuilder.go:309-311 | that least timestamp is the given one if and only if all chosen outputs are older, and otherwise one more than the largest of theirs |
| `Selection.ShortestPrefixIs` | ledger/txbuilder/txbuilder.go:300-317 | in exact sums: the least number of outputs, and at least one, that reaches the amount, or the whole list |
| `Builder.FieldsAgree` | ledger/txbuilder/txbuilder.go:117-152 | every field the validator reads from the serialized transaction is the one the builder put there |
| `Builder.ListsAgree` | ledger/txbuilder/txbuilder.go:117-152 | so are the input IDs, the outputs, the unlock blocks, signature, timestamp, commitment, endorsements and local libraries |
| `Builder.UnlockAgrees` | ledger/txbuilder/txbuilder.go:77-94 | unlock data is found by the validator at the input and block where the builder put it |
| `Builder.EssenceAgrees` | ledger/txbuilder/txbuilder.go:154-161 | the essence the builder signs is the essence the validator reads through the tree |
| `Builder.CommitmentAgrees` | ledger/txbuilder/txbuilder.go:108-115 | the validator's commitment check passes exactly when the stored commitment is the one the builder computes from the fetched outputs, which is the hash at the consumed path |
| `Builder.SerializeUpTo` | ledger/txbuilder/txbuilder.go:117-152 | pushing element by element into an array with a limit gives the encoding of the list, or panics exactly when there are more or one of them is too long |
| `Builder.SerializeList` | ledger/txbuilder/txbuilder.go:108-148 | the same with the limit of 256 |
| `Builder.SerializeFields` | ledger/txbuilder/txbuilder.go:117-148 | the elements of the transaction tree in their order, or the panic of any of them |
| `Builder.SerializeTransaction` | ledger/txbuilder/txbuilder.go:150-152 | the bytes of the transaction |
| `Builder.Essence` | ledger/txbuilder/txbuilder.go:154-161 | the bytes that are signed |
| `Builder.Grow` | lazyslice/lazyslice.go:137-142 | an unlock block grows with empty elements up to the index and changes nowhere else |
| `Builder.TransactionBuilder.constructor` | ledger/txbuilder/txbuilder.go:41-54 | an empty builder |
| `Builder.TransactionBuilder.ConsumeOutput` | ledger/txbuilder/txbuilder.go:66-75 | adds the output, its ID and an empty unlock block, unless there are 256 inputs |
| `Builder.TransactionBuilder.ProduceOutput` | ledger/txbuilder/txbuilder.go:100-106 | adds the output, unless there are 256 |
| `Builder.TransactionBuilder.PutUnlockParams` | ledger/txbuilder/txbuilder.go:77-79 | sets one element of one unlock block; panics exactly without such an input |
| `Builder.TransactionBuilder.PutSignatureUnlock` | ledger/txbuilder/txbuilder.go:83-85 | puts the one-byte marker 0xff |
| `Builder.TransactionBuilder.PutUnlockReference` | ledger/txbuilder/txbuilder.go:88-94 | puts a reference, only to a strictly smaller index |
| `Builder.TransactionBuilder.Commitment` | ledger/txbuilder/txbuilder.go:108-115 | the hash of the encoded consumed outputs |
| `Builder.TransactionBuilder.Finish` | ledger/txbuilder/txbuilder.go:165-170 | stores timestamp and commitment and then signs the essence they are part of |
| `Builder.SealedIsSigned` | ledger/txbuilder/txbuilder.go:165-170 | a finished transaction carries a signature of its own essence that unlocks the address of the key |
| `StandardOutputs.ConsumedIsOK` | ledger/state/validate.go:101-130 | a consumed output the builder can read is in order if and only if the transaction is later, the amount covers its size, and its lock and all blocks after it hold |
| `StandardOutputs.BuiltOutputReads` | ledger/txbuilder/output.go:59-84 | an encoded output has the blocks it was built from, and its amount |
| `StandardOutputs.ProducedIsOK` | ledger/state/validate.go:101-130 | a produced output with the timestamp of the transaction is in order if and only if it covers its deposit within 16 bits of size, all blocks after the lock hold, and no block is repeated |
| `Transfer.MakeOutput` | ledger/txbuilder/output.go:59-110 | putting amount, timestamp and lock and pushing the other constraints gives the encoding of those blocks, which reads back as `Delivery.NewOutputReads` says, or fails exactly past 256 or on too long ones |
| `Transfer.ConsumeAll` | ledger/txbuilder/txbuilder.go:338-342 | the loop consumes the chosen outputs in order |
| `Transfer.UnlockAll` | ledger/txbuilder/txbuilder.go:376-384 | input 0 gets the signature marker, the others a reference to it |
| `SimpleTransferAccepted.SimpleUnlocksAre` | ledger/txbuilder/txbuilder.go:376-384 | these unlock blocks byte by byte: two empty elements and then 0xff for input 0, or 0 for any other |
| `Transfer.ApplyUnlockData` | ledger/txbuilder/txbuilder.go:386-388 | the caller's unlock data is applied in order; panics exactly on an input that does not exist |
| `Transfer.UnlockDataApplies` | ledger/txbuilder/txbuilder.go:386-388 | unlock data can be applied if and only if all of it is for inputs that exist |
| `Transfer.LastUnlockCounts` | ledger/txbuilder/txbuilder.go:386-388 | the last entry for a block of an input is what the block gets, and without one it stays as it was |
| `Transfer.MakeSimpleTransfer` | ledger/txbuilder/txbuilder.go:321-404 | the transfer of the selected prefix; the caller's list is unchanged; fails exactly when the selection or the transaction does; what it delivers is `Delivery.SimpleTransferDelivers` |
| `Transfer.ChosenIsUnique` | ledger/txbuilder/txbuilder.go:295-319 | list, timestamp and amount determine the selection |
| `BuiltTransactions.SmallSeals` | ledger/txbuilder/txbuilder.go:108-170 | a transaction of two outputs within 16 bits, and unlock data within 32767 bytes, can be committed, signed and serialized |
| `BuiltTransactions.ReachableSized` | ledger/state/validate.go:101-130 | the unspent outputs of every run are not empty and within 65535 bytes, and their IDs have 33 |
| `BuiltTransactions.SealedIsBuilt` | ledger/txbuilder/txbuilder.go:389-391 | a finished transaction over listed outputs of the ledger has a context there, with exactly those outputs, and is signed by its key |
| `BuiltTransactions.BuiltIsAccepted` | ledger/state/validate.go:48-79 | the ledger accepts a built transaction if and only if its outputs are in order on both sides and balance |
| `BuiltTransactions.ConsumedMeans` | ledger/state/validate.go:101-130 | an input of a built transaction is in order if and only if it is older, covers its size, and its lock and further blocks hold |
| `BuiltTransactions.ProducedMeans` | ledger/state/validate.go:101-130 | an output of a built transaction is in order if and only if it is covered, holds in its further blocks and repeats none |
| `BuiltTransactions.AddressAtTimeIsAsked` | ledger/constraints/lock_deadline.go:103-110 | the address a lock asks for is decided by comparing the deadline with the transaction timestamp as numbers |
| `BuiltTransactions.SignedLockMeans` | ledger/constraints/lock_ed25519.go:103-139 | with a signature by the address it asks for, a lock holds if and only if its unlock parameters have one byte, whatever the byte |
| `BuiltTransactions.AcceptedLockIsSender` | ledger/constraints/lock_ed25519.go:103-139 | in an accepted transaction every lock that asks for an address asks for the sender's |
| `BuiltTransactions.SenderHolds` | ledger/constraints/sender_ed25519.go:73-82 | a produced sender constraint with the address of the signing key holds |
| `SimpleTransferAccepted.LockMeans` | ledger/constraints/lock_ed25519.go:103-139 | in a built transaction a lock that opens holds, and in an accepted one a lock that holds opens |
| `SimpleTransferAccepted.SimpleTransferIsAccepted` | ledger/txbuilder/txbuilder.go:321-404 | for any outputs of the ledger, added constraints and unlock data: accepted if and only if deposits are covered, added constraints hold and differ, and every consumed output is older, covers its size, asks for the sender's address with one byte of unlock data (or is a chain lock that holds), and holds in its further blocks |
| `SimpleTransferAccepted.SimpleTransferIsMade` | ledger/txbuilder/txbuilder.go:321-404 | the transaction can be put together when its outputs fit in 16 bits and its unlock data is for existing inputs and within 32767 bytes |
| `SimpleTransferAccepted.SimpleTransferCompletes` | ledger/txbuilder/txbuilder.go:321-404 | simple-transfer completeness: with enough tokens in the first 256 outputs the maker's own choice reaches the amount and its transaction is accepted if and only if the same conditions hold |
| `SimpleTransferAccepted.ChoiceExists` | ledger/txbuilder/txbuilder.go:295-319 | with enough tokens in the first 256 outputs the maker finds a choice |
| `PlainTransfers.OriginHolds` | ledger/constraints/chain.go:229-246 | an origin chain constraint holds in any produced output but the one at index 255 |
| `PlainTransfers.OneByteOpensNoChainLock` | ledger/constraints/lock_chain.go:118-140 | unlock parameters of one byte never open a chain lock |
| `PlainTransfers.PlainTransferIsAccepted` | ledger/txbuilder/txbuilder.go:321-404 | a transfer that adds at most the sender and the origin of a chain, from outputs that end with their locks, goes through if and only if deposits are covered and every output is older, covers its size, and asks for the sender's address at this time, deadline locks included |
| `PlainTransfers.PlainTransferCompletes` | ledger/txbuilder/txbuilder.go:321-404 | the same for the maker's own choice, where being older comes down to no chosen output having the largest timestamp |
| `PlainTransfers.FilteredDeadlineIsRejected` | ledger/utxodb/utxodb.go:167-180 | a transfer that consumes a deadline-locked output with two different addresses which the time filter lets the sender have is always rejected |
| `PlainTransfers.AdjustedAmountCoversDeposit` | ledger/txbuilder/txbuilder.go:262-282 | the adjusted amount is exactly the larger of the amount asked for and the size, in 32 bits, of the main output without the sender constraint, whatever its final amount and timestamp; with a sender it covers the main output if and only if the amount asked for did |
| `ChainTransfer.UnlockByChain` | ledger/txbuilder/txbuilder.go:464-472 | input 0 gets the signature marker and the successor of its chain, the others point at the chain input |
| `ChainTransferAccepted.ChainUnlocksAt` | ledger/txbuilder/txbuilder.go:464-472 | these unlock blocks byte by byte |
| `ChainTransfer.MakeSuccessor` | ledger/txbuilder/txbuilder.go:434-439 | copying the chain output and putting amount, timestamp and chain constraint gives the encoding of the successor's blocks, or panics exactly on too many or too long ones |
| `ChainTransfer.MakeChainTransfer` | ledger/txbuilder/txbuilder.go:406-489 | the transfer of the chain output and the selected prefix; the caller's list is unchanged; fails exactly when the selection, the balance or the transaction does; what it delivers is `Delivery.ChainTransferDelivers` |
| `ChainTransferAccepted.ConsumedChainHolds` | ledger/constraints/chain.go:196-271 | the consumed chain constraint of the transfer, origin or not and in any block, finds its successor |
| `ChainTransferAccepted.ProducedChainHolds` | ledger/constraints/chain.go:166-271 | the successor continues it in the same block, with the adjusted id |
| `ChainTransferAccepted.ZeroIDFails` | ledger/constraints/chain.go:229-271 | a successor with the chain id zero never holds |
| `ChainTransferAccepted.ChainLockHolds` | ledger/constraints/lock_chain.go:103-140 | every output locked in the chain is unlocked by the transition |
| `ChainTransferAccepted.OnlyChainLockHolds` | ledger/constraints/lock_chain.go:103-140 | and no other lock is |
| `ChainTransferAccepted.ChainTransferIsAccepted` | ledger/txbuilder/txbuilder.go:406-489 | for a chain constraint in any block after the lock and any further blocks: accepted if and only if the id is not zero, deposits are covered, the chain output asks for the sender's address, every other output is locked in the chain, all are older and cover their sizes, all other blocks hold, those of the chain output on both sides, and no produced block is repeated |
| `ChainTransferAccepted.ChainTransferIsMade` | ledger/txbuilder/txbuilder.go:406-489 | the transaction can be put together when its outputs fit in 16 bits |
| `ChainTransferAccepted.ChainTransferCompletes` | ledger/txbuilder/txbuilder.go:406-489 | chain-transfer completeness: the maker's own choice gives a transaction that is accepted if and only if the same conditions hold; with 256 chosen outputs it gives none |
| `PlainChainTransfers.ImmutableChainIsRejected` | ledger/txbuilder/txbuilder.go:406-489 | the transfer from a chain output with an immutable constraint is always rejected: the maker gives that block no unlock data |
| `PlainChainTransfers.SenderCopyMeans` | ledger/constraints/sender_ed25519.go:73-82 | a copied sender constraint holds on the produced side if and only if it names the sender of this transfer |
| `PlainChainTransfers.ForeignSenderIsRejected` | ledger/txbuilder/txbuilder.go:434-442 | the transfer from a chain output with the sender constraint of another is always rejected |
| `PlainChainTransfers.PlainChainTransferIsAccepted` | ledger/txbuilder/txbuilder.go:406-489 | from a chain output with nothing but its chain constraint, and outputs that end with their locks: accepted if and only if deposits are covered, owners are right, and all are older and cover their sizes |
| `PlainChainTransfers.PlainChainTransferCompletes` | ledger/txbuilder/txbuilder.go:406-489 | the same for the maker's own choice, which does not look at the timestamp of the chain output |
| `BuiltTransactions.AcceptedIsLater` | ledger/constraints/timestamp.go:13-21 | a built transaction that is accepted is later than every consumed output that carries a timestamp; for any bytes and both sides see `ConstraintMeanings.TimeMovesOn` |
| `BuiltTransactions.AcceptedCoversDeposits` | ledger/constraints/amount.go:12-32 | every output of an accepted transaction covers its storage deposit |
| `Delivery.NewOutputReads` | ledger/txbuilder/output.go:59-110 | a new output reads as exactly this amount, this timestamp, this lock, and then these blocks |
| `Delivery.SimpleTransferDelivers` | ledger/txbuilder/txbuilder.go:321-404 | after an accepted transfer the chosen outputs are gone and the ledger has, under the transaction ID, an output with exactly the amount, the timestamp, the lock of the recipient, the sender if asked for, and the added constraints; and before it, if more was chosen, one with the rest under the lock of the source account; nothing else changes |
| `Delivery.ChainTransferDelivers` | ledger/txbuilder/txbuilder.go:406-489 | after an accepted transfer from a chain the ledger has the successor at index 0, with the remaining tokens, the same chain alive in the same block and every other block unchanged, and the recipient's output at index 1; nothing else changes |
| `Delivery.SimpleTransferPays` | ledger/txbuilder/txbuilder.go:321-404 | delivery: every account that the recipient's lock names then lists exactly one more output, with exactly the amount, and its total grows by exactly that, unless it owned what was spent or gets the rest |
| `Delivery.ChainTransferPays` | ledger/txbuilder/txbuilder.go:406-489 | the same for the transfer from a chain, unless the chain output or what was spent was the account's |
| `Delivery.PayAndLook` | ledger/utxodb/utxodb.go:95-227 | as the database shows it: balance, transaction, balance; the second is the first plus the amount and one output |
| `UntimedOutputs.UntimedIsValid` | ledger/state/validate.go:101-130 | an output of an amount, a chain origin in the place of the timestamp, and an address is in order if and only if it covers its deposit, and the builder cannot read it |
| `UntimedOutputs.UntimedIsAccepted` | ledger/state/validate.go:48-79 | the genesis ledger accepts a transaction that sends the supply to such an output |
| `UntimedOutputs.UntimedIsReached` | ledger/utxodb/utxodb.go:95-104 | after it the recipient has an unspent output that the builder cannot read, in a reachable database |
| `UntimedOutputs.BalancePanics` | ledger/utxodb/utxodb.go:210-227 | so the balance of the recipient panics |

## Definitions

The functions the contracts are stated with, and what they model:

- `Constraints.AmountConstraint` (ledger/constraints/amount.go:12-32),
  `TimestampConstraint` (ledger/constraints/timestamp.go:13-21), `AddressConstraint`
  (ledger/constraints/lock_ed25519.go:103-139), `DeadlineConstraint`
  (ledger/constraints/lock_deadline.go:103-110), `ChainLockConstraint`
  (ledger/constraints/lock_chain.go:103-140), `ChainConstraint`
  (ledger/constraints/chain.go:145-271), `ImmutableConstraint`
  (ledger/constraints/immutable.go:87-131), `SenderConstraint`
  (ledger/constraints/sender_ed25519.go:73-82): the EasyFL expressions.
- `Context.Root` and the layout constants, `Constraints.TxEssence`, the `Self` functions
  (ledger/constraints/extensions.go:41-198).
- `Codec.Encode`, `Codec.Parse` (lazyslice/lazyslice.go:225-339), `LazyTree.AtPath`: pure
  encoding, parsing and nested lookup.
- `Validation.Valid`, `Validation.IndexCommands` (ledger/state/validate.go:48-207),
  `Ledger.MakeContext` (ledger/state/txcontext.go:33-79), `Ledger.Step`
  (ledger/state/state.go:105-158), `Ledger.Genesis` (ledger/state/state.go:28-50).
- `Index.RunCommands` (ledger/indexer/indexer.go:132-174), `Accounts.AddTransaction`
  (ledger/utxodb/utxodb.go:95-104).
- `Builder.ToArray`, `Builder.EssenceBytes`, `Builder.InputCommitment`, `Builder.Sealed`
  (ledger/txbuilder/txbuilder.go:108-170), `Transfer.AdjustedAmount`
  (ledger/txbuilder/txbuilder.go:262-282), `Transfer.SimpleTransferBytes`
  (ledger/txbuilder/txbuilder.go:321-404), `ChainTransfer.ChainTransferBytes`
  (ledger/txbuilder/txbuilder.go:406-489).
- `Lineage.Follow`, `Lineage.HolderAt`: where the unlock parameters of a chain send it.

## Left out

- EasyFL compiler, bytecode parser and evaluator, `callLocalLibrary`: foreign. A library call whose arguments are not literals counts as another script, which has an arbitrary truth value and is no amount, lock or chain.
- The branch of `evalConstraint` for array constraints (ledger/state/validate.go:364-377), which is marked as unfinished.
- Trie and key-value store: maps in which a nil value deletes. A commit is atomic, roots and the ledger identity are not modelled.
- BLAKE2b (RFC 7693) and Ed25519 (section 5.1 of RFC 8032): abstract functions with the assumptions above.
- Error values: only that there is an error. A panic that would reach the caller of `Update` counts as a rejection that leaves the ledger unchanged.
- The extra weight of the storage deposit, which the source does not use yet.
- `HasTransaction`, `Readable` without updates, `ledger/state/tx.go` and the tangle package: not on the update path.
- `royalties`, `timelock` and `commitToSibling`: one-branch predicates, covered as other scripts.
- `InsertSimpleChainTransition`: it puts the signature unlock at the index of the successor.
- Tracing, printing, mutexes, key generation and the wall clock: the timestamp of a transfer is a parameter.
- Sorting of outputs in `ParseAndSortOutputData`: sums do not depend on the order; the transfer theorems are for every order.
- An output under construction is modelled inside the methods that make it, not as an object of its own. Sharing of element memory between slices is modelled only where it matters, in the coin selection.
- Endorsements and local libraries: the fields are serialized, and no library constraint reads them.
- UTXODatabase.UTXODB.AddTransaction: when the index update fails after the state update, the two stay apart as in the source; `Accounts.UpdatePhases` shows that this does not happen.
- The uniqueness of signers through mutually chain-locked outputs: the constraints do not establish it.
