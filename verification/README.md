# Verified model of the rosetta-deso balance index and block translation

rosetta-deso must satisfy one law above all: for every account and every height h, the operations
it serves for blocks 0..h add up to the balance it reports at h. That is what a `check:data` run
of the Rosetta command line asks of a node. This project models the four parts that have to agree
for it to hold, and composes them.

* **The balance index** (`ByteStrings`, `Keys`, `IndexState`, `Store`, `RosettaIndex`). A byte-ordered
  store keeps the whole history in its keys, and a balance query is one reverse seek. The abstract
  counterpart is a set of snapshots and "the newest one at or below h".
* **The event handlers** (`Partition`, `Events`, `Views`, `Handlers`). A snapshot-completed event spreads N
  balances over S synthetic blocks; block-committed events then append the balances a block changed.
  Both handlers hold the index mutex, so a run is a sequence of atomic steps. `Views` says what a commit
  leaves in the index, entry by entry of its view.
* **The translation** (`Sums`, `Int64`, `Operations`, `SquashInPlace`, `Chain`, `Translation`, `Identifiers`,
  `Generators`, `Conversion`, `Selections`, `DraftOrder`, `ServedTypes`, `Ledger`, `Trees`, `BlockLedger`,
  `SubAccounts`, `Conservation`, `SubBlocks`, `SwapIdentities`). Transactions, possibly wrapped in one
  another, become operations; the operations of a transaction are merged per account in place, with wrapping 64-bit
  arithmetic on shared amount objects. `Ledger`, `Trees` and `SubAccounts` say what the recorded effects
  mean, without mentioning operations, and compare the operations with that, for every weight of
  (address, amount, type) and so as multisets. `DraftOrder` says in which order they come and `ServedTypes`
  which types squashing then leaves.
* **Serving** (`FakeBlocks`, `Serving`). Synthetic blocks up to the first snapshot, translated blocks
  after it, and the dispatch from an account identifier back to the index.

`Reconciliation` puts them together for a whole run, and for main, creator-coin and validator accounts.
`HistoryLaw` has no condition on blocks, views or timing: served operations and reported balance differ by
exactly the gaps between what translated blocks do and what their views say, and by what commits handled
before the server was set have put the index off by. So the node reconciles at every height exactly when
there is neither (`ReconcilesExactlyWhen`).

`EndToEnd` asks only that the chain library's views agree with its own recorded effects. Its three laws
(`EndToEndReconciles`, `CoinsReconcile`, `PoolsReconcile`) say that the gaps are then the drift of the
translated blocks. For main accounts, and amounts of any size, the drift is computed from the effects:
inputs that the map of spent outputs lacks, what wrappers and block-level lists record and the code skips,
and 64-bit clamping and overflow. For creator coins and validators the guard of the failing branch decides:
short of overflow, a coin reconciles exactly when every royalty that is due is paid
(`CoinsReconcileExactlyWhen`), and a validator exactly when nothing unstakes from it
(`PoolsReconcileExactlyWhen`).

`Runs` runs the node: `CheckData` feeds a chain to the event handlers of a fresh node, sums the operations
of the blocks it serves, queries the balance, and is proved to find that difference and no other.

## How the model is built

Code that changes state is imperative here and proved against functions: `Store.KeyValueStore`,
`Store.WriteBatch`, `RosettaIndex.Index`, `Handlers.Node`, and `SquashInPlace.Amount` and `Operation`
are classes, and the loops of the handlers and generators are loops. The theorems are about the functions.

* A holder is a public key, or a (staker, validator, epoch) triple for locked stake. Public keys and
  PKIDs are both 33 bytes and are not told apart. Functions that exist twice in the source, for
  public-key maps and for locked-stake maps, are one method with the flag `lockedKeys`; the four
  copies of the partition loop are one method, `BootstrapBalances`.
* An amount's decimal text is the integer it denotes. Parsing clamps to 64 bits as the ignored range
  error does, and negation and addition wrap.
* A Go map that is ranged over is a sequence in an arbitrary order, or an order chosen freely by the method.
* Base58Check, its decoder, the double SHA-256 and hexadecimal text are unknown functions. The
  reconciliation and dispatch theorems assume only that decoding inverts encoding (`Chain.Lawful`), and
  those about locked-stake identifiers that no encoding has a dash (`Identifiers.DashFree`).
* A recorded effect (utxo operation) has the fields that its type makes meaningful.
* Once nothing can change a transaction's operations any more they are read out as values (`TxnView`).

## Where the code and its comments or its purpose differ

* deso/events.go:71 speaks of forcing a ceiling; the division after it rounds down. The last block takes
  N/S + N mod S entries, and `BlockSizesAreExact` states the real sizes.
* deso/block.go:711-712 says the swap-identity amounts are those after the swap; the arithmetic treats
  them as those before it, and `SwapExchanges` is about what the code computes.
* The key order lets two balances share a height, and the seek then finds the larger one. It finds the
  last written one at every moment exactly when no write lowers a balance at its own height
  (`SeekIsLastWriteExactlyWhen`).
* What a commit records depends on Go's map order exactly when two entries of one map name the same
  holder with different balances (`RangeOrderIrrelevantExactlyWhen`).
* Squashing passes a lone operation through and makes of two or more the wrapped sum of their amounts,
  each clamped to 64 bits (`SquashLaw`, for all lists). It keeps a sum exactly when there is at most one
  operation, or the sum fits in 64 bits and what clamping cut off is a multiple of 2^64 (`SquashExactWhen`).
  It keeps the type of the first operation even where the merged sign is the other one.
* The locked-stake lookup decodes eight bytes of a validator's PKID, never a balance
  (`LockedStakeAnswer`); `LockedStakeRightExactlyWhen` says when they happen to spell it.
  Every locked-stake identifier that the printer makes is refused by the parser
  (`PrintedLockedStakeIsRefused`).
* Unstake and unlock inputs carry positive amounts. For every list of effects, an unstake conserves the total
  of a pool and a locked entry exactly when its amount is zero or not translated, or it names neither
  (`UnstakeConservesExactlyWhen`); an unlock takes out what it releases exactly when it releases nothing
  (`UnlockReleasesExactlyWhen`). So a validator is off by twice what is unstaked
  from it (`PoolDriftExactlyWhen`, `PoolsReconcileExactlyWhen`).
* The map of spent outputs is built from a block's own effect lists, not from the lists inside wrappers, so
  inputs of wrapped transactions count as zero. A tree of such transactions means what its effects mean
  exactly when the inputs that the account owns in it sum to zero (`AbsentInputsCountAsZero`);
  `WrappedInputIsLost` is an input on which it does not. Whether the chain library ever accepts a wrapped
  transaction with inputs is not part of this model.
* The commit handler skips synthetic heights only once the server is set (deso/events.go:467), and the
  handlers are registered before it is (deso/node.go:254-257), while the block service goes by the heights
  alone. The two agree exactly when the server is set or the height is not synthetic
  (`SameBoundaryExactlyWhen`); `EarlyCommitIsLost` is a run in which they do not and the node fails to
  reconcile.
* An accepted NFT bid with a bidder input that does not resolve pays no royalties although its effect
  records them, and the circulation is compared by its low 64 bits. `RoyaltyIsDropped` is such an input, and
  `AcceptedBidPaysExactlyWhen` the condition.
* `handleSnapshotCompleted` does not look at the sync type, and `AfterSnapshot` does not either.

## Model

| member | source | states |
|---|---|---|
| EndToEnd.EndToEndReconciles | deso/block.go:18-98 | For every run whose views agree with the recorded effects: on every main account, served operations and the index differ at each height by exactly the drift of the translated blocks and what early commits left, so they reconcile at every height if and only if there is neither |
| EndToEnd.CoinsReconcile | deso/block.go:18-98 | The same for creator coins, the drift being unpaid royalties, unmatched inner lists and overflow |
| EndToEnd.PoolsReconcile | deso/block.go:18-98 | The same for validator accounts, the drift being twice what is unstaked, unmatched inner lists and overflow |
| EndToEnd.CoinsReconcileExactlyWhen | deso/block.go:834-895 | Short of overflow a creator coin reconciles at every height if and only if every translated block pays the royalties it owes and no early commit changed the index |
| EndToEnd.PoolsReconcileExactlyWhen | deso/block.go:1149-1205 | Short of overflow a validator account reconciles at every height if and only if no transaction of a translated block unstakes from it and no early commit changed the index |
| Reconciliation.HistoryLaw | deso/events.go:463-577 | With no condition on blocks, views or timing: served operations of 0..h are the lookup at h, plus the gaps of the translated blocks, plus what early commits put the index off by |
| Reconciliation.ReconcilesExactlyWhen | deso/events.go:463-499 | A key-held account of any of the three types reconciles at every height if and only if every translated block changes it by what its view says and no early commit changed the index's answer at a synthetic height |
| Reconciliation.HistoryReconciles | deso/block.go:57-75 | One snapshot and the chain's commits, or commits alone: without gaps and early changes, served operations of 0..h sum to the lookup at h |
| Reconciliation.SyntheticReconcilesExactlyWhen | deso/block.go:57-75 | Up to the first snapshot that holds, with no condition on blocks or views, if and only if early commits have not changed the bootstrap's answer |
| Reconciliation.ServerInTimeMeansNeverEarly | deso/events.go:467-481 | If the server is set before any block with a view is committed at a synthetic height, nothing is early |
| Reconciliation.EarlyCommitIsLost | deso/events.go:467-497 | A run with one commit before the server is set that does not reconcile |
| Reconciliation.IndexReplays | deso/events.go:493-577 | After the whole run, at every height, the lookup is the last translated block's view that names the holder, else what the bootstrap and early commits left |
| Reconciliation.IndexTracks | deso/events.go:493-577 | That is the bootstrap's answer up to the first snapshot and the tracked balance beyond it, but for early commits |
| Reconciliation.FakeBlockNet | deso/block.go:419-517 | A synthetic block changes each key-held account by exactly its entry in the block map of its type |
| Reconciliation.FakeBlockLocked | deso/block.go:527-556 | A synthetic block changes each locked-stake account, address of the staker and sub-account text spelled out, by exactly its triple's entry in the locked-stake map |
| Reconciliation.LockedSyntheticTotal | deso/block.go:57-75 | Up to the first snapshot the served operations of every locked-stake account add up to what the bootstrap recorded for its triple as of that height |
| Runs.RunChain | deso/node.go:254-257 | Running the handlers over a chain reaches the very state that the theorems speak of |
| Runs.ServeChain | deso/block.go:57-97 | The block service answers every block of the chain as the theorems assume |
| Runs.CheckData | services/account_service.go:94-131 | The sum of one account's operations over the blocks a fresh node serves and the balance it reports differ by exactly the gaps and what early commits put the index off by |
| ByteStrings.BigEndianOrder | deso/index.go:106-107 | Big-endian encoding embeds numeric order into byte order, whatever bytes follow |
| ByteStrings.Uint64RoundTrip | deso/index.go:356 | Decoding the first eight bytes inverts encoding, with any rest |
| Keys.KeyOrder | deso/index.go:103-122 | For one type and holder, byte order on keys is exactly lexicographic order on (height, balance) |
| Keys.KeyInjective | deso/index.go:103-122 | Two snapshots with the same key are the same snapshot |
| Keys.PrefixNamesHolder | deso/index.go:339-341 | A key that starts with a holder's prefix is a key of that holder and type |
| Keys.BlockKeyInjective | deso/index.go:124-129 | Block-map keys determine height and type |
| Keys.BlockKeyApart | deso/index.go:21-41 | Block-map keys never meet snapshot keys |
| Keys.BalanceAtOffset42 | deso/index.go:353-356 | The eight bytes at offset 1+33+8 are the balance |
| Keys.DiskLayout | deso/index.go:19-41 | The layout byte by byte: the five namespace bytes, the four type bytes, and where each field of the three kinds of key stands |
| IndexState.SeekLandsOnNewest | deso/index.go:334-347 | The reverse seek stays in the holder's namespace exactly when an entry at or below h exists, and then stops on the newest one |
| IndexState.SeekRefinesTimeline | deso/index.go:315-357 | Seek, prefix check and decode together are the abstract timeline |
| IndexState.ZeroExactlyWhen | deso/index.go:348-351 | The answer is zero if and only if there is no entry at or below h or the newest one is zero |
| IndexState.LookupFrame | deso/index.go:339-341 | A write for another type or holder, or of block maps, changes no lookup of a key-held balance |
| IndexState.EncodesMerge | deso/index.go:124-129 | Applying a batch to the store is merging its snapshots and block maps into the state: keys of different things never overwrite each other |
| IndexState.LockedStakeSeek | deso/index.go:397-411 | If the exact triple has an entry at or below h, the seek stops on its newest one, and the decode reads bytes 8..16 of the validator PKID |
| IndexState.LockedStakeAnswer | deso/index.go:403-420 | The complete answer of the locked-stake lookup for any query |
| IndexState.LockedStakeRightExactlyWhen | deso/index.go:403-420 | The locked-stake answer is the recorded balance if and only if the PKID bytes spell it |
| IndexState.LockedLookupFrame | deso/index.go:403-411 | A write for another type or staker, or of block maps, changes no locked-stake lookup |
| IndexState.LockedAnswerUnique | deso/index.go:403-420 | That description leaves only one answer |
| Store.KeyValueStore.Set | deso/index.go:146-148 | One key takes the value, the others keep theirs, and byte order is kept |
| Store.KeyValueStore.ReverseSeek | deso/index.go:341-347 | The position of the greatest key not above the target, or none |
| Store.WriteBatch.Flush | deso/events.go:573-575 | Pending sets become visible, overriding older values, and nothing else changes |
| RosettaIndex.Index.PutHypersyncBlockBalancesWithWB | deso/index.go:131-170 | Adds one block map to the batch, and nothing if the balance type is of the wrong kind |
| RosettaIndex.Index.PutBalanceSnapshotWithWB | deso/index.go:257-270 | Adds exactly one snapshot per entry of the map, or fails on a wrong type |
| RosettaIndex.Index.PutSingleBalanceSnapshotWithWB | deso/index.go:272-283 | Adds exactly one snapshot, or fails on a wrong type |
| RosettaIndex.Index.GetHypersyncBlockBalances | deso/index.go:172-255 | Reads the four block maps of a height; absent means empty |
| RosettaIndex.Index.GetBalanceSnapshot | deso/index.go:315-375 | Answers the abstract timeline for every valid index, zero for locked stake |
| RosettaIndex.Index.GetLockedStakeBalanceSnapshot | deso/index.go:377-439 | Answers what LockedAnswer describes, whatever the recorded balances are |
| Partition.PartitionIsExact | deso/events.go:70-119 | Each snapshot entry is in exactly one block of 1..S, with its balance, at the height of its only snapshot |
| Partition.BlockSizesAreExact | deso/events.go:70-76 | The exact size of every block map for N at least S and for N below S |
| Partition.SlotIsChunk | deso/events.go:104-115 | The running counter and the division put an entry in the same block |
| Partition.BootstrapReconciles | deso/events.go:63-119 | The block maps of 0..h sum to the index's answer at h; at S that is the snapshot balance |
| Handlers.Node.BootstrapBalances | deso/events.go:162-233 | The loop writes exactly the specified snapshots and block maps, or nothing if one record is malformed |
| Handlers.Node.HandleSnapshotCompleted | deso/events.go:20-461 | The new index state is the old one with the four bootstraps, and the old one itself without a first snapshot |
| Handlers.Node.HandleBlockCommitted | deso/events.go:463-577 | The new index state is the old one with the view's balances at the block's height; missing views change nothing, nor do, once the server is set, heights up to the first snapshot |
| Handlers.LockedBalances | deso/events.go:504-522 | The map of creator-coin balances recorded for a view; Views.ProfileRecorded and Views.TouchedRecorded say what it leaves in the index |
| Handlers.ValidatorBalances | deso/events.go:530-542 | The map of validator stakes recorded for a view; Views.StakeRecorded says what it leaves in the index |
| Handlers.LockedStakeBalances | deso/events.go:550-566 | The same for locked stake and Views.LockedStakeRecorded |
| Views.DesoRecorded | deso/events.go:493-498 | After a handled commit above everything recorded, a key's DESO balance is the view's, or the earlier answer if the view has none |
| Views.StakeRecorded | deso/events.go:530-542 | After it, a validator's stake is that of the last view entry that counts: zero if deleted, the total stake if live and below 2^64 |
| Views.StakeKept | deso/events.go:533-539 | If every view entry of the validator is live with a stake of 2^64 or more, or there is none, the earlier answer stays |
| Views.LockedStakeRecorded | deso/events.go:550-566 | The same for the locked stake of a (staker, validator, epoch) triple |
| Views.LockedStakeKept | deso/events.go:553-559 | A triple without an entry that counts keeps its answer |
| Views.ProfileRecorded | deso/events.go:514-522 | After it, a key's creator-coin balance is that of the view's profile, zero if that is deleted, whatever was found for the key before |
| Views.TouchedRecorded | deso/events.go:504-512 | Without a profile in the view, a touched key gets the balance of the profile found for it, zero if there is none or it is deleted |
| Views.CoinsKept | deso/events.go:504-522 | A key in neither map keeps its balance |
| Views.Unchanged | deso/events.go:467-487 | A commit that is not handled changes no answer, and no commit changes an answer below its height |
| Events.SnapshotReconciles | deso/events.go:20-461 | After a snapshot on an empty index with all four balance types, block maps of 0..h sum to the lookup at h for each of them; at the first snapshot that is the record's balance, and one malformed record leaves the whole type at zero |
| Events.SnapshotRecorded | deso/events.go:20-461 | Each of the four kinds of record is indexed under its own balance type at its own balance, unless one of its kind is malformed |
| Events.CommitStep | deso/events.go:493-577 | A commit above everything recorded keeps all earlier answers and answers later heights from the view where it names the holder |
| Events.RunIsReplay | deso/events.go:463-577 | For every run of commits at increasing heights, each lookup is the fold of the views |
| Events.PastIsStable | deso/events.go:476-480 | No later event changes the answer at an earlier height, none at or below the first snapshot changes any answer |
| Events.CommitsKeepBlocks | deso/events.go:493-577 | Commits never touch the block maps |
| Events.SeekIsLastWriteExactlyWhen | deso/index.go:331-347 | The seek finds the last write at every moment if and only if no write lowers a balance at its own height |
| Events.RangeOrderIrrelevantExactlyWhen | deso/events.go:504-522 | What is recorded does not depend on map order if and only if entries naming one holder agree |
| Int64.WrapAdd | deso/block.go:583 | Wrapping partial sums loses nothing that the final wrap keeps |
| Int64.ParseInt64IsNearest | deso/block.go:581-582 | What parsing with a dropped range error yields is the nearest 64-bit value |
| Int64.NegateIs | deso/block.go:1053 | What int64(x) * -1 is for every unsigned x, past 2^63 too |
| Operations.SquashShape | deso/block.go:570-593 | Each account once, in order of first occurrence, with its first operation's account and type, numbered 0..n-1 |
| Operations.SquashLaw | deso/block.go:570-593 | For every list: a lone operation of an account passes through, two or more leave the wrapped sum of their clamped amounts |
| Operations.SquashExactWhen | deso/block.go:579-583 | For every list: an account's sum is kept if and only if it has at most one operation, or the sum fits in 64 bits and clamping cut off a multiple of 2^64 |
| Operations.SquashInt64 | deso/block.go:579-583 | For 64-bit amounts the result is the wrapped true sum, however partial sums wrapped |
| Operations.SquashSingle | deso/block.go:584-589 | An account's only operation passes through, whatever its amount |
| Operations.SquashClampsLargeAmounts | deso/block.go:581-583 | An input on which the sum is lost because parse errors are dropped |
| Operations.SquashInPieces | deso/block.go:570-593 | Squashing is idempotent, and squashing a squashed head with a tail is squashing the whole |
| SquashInPlace.SquashOperations | deso/block.go:570-593 | The in-place merge yields the squashing of what the objects read as, made of each account's first object |
| SquashInPlace.MergeInto | deso/block.go:579-583 | Merging writes one shared amount and no other object |
| Translation.FirstIsFirst | deso/block.go:624-629 | The search yields an effect exactly when one passes the test, and then the earliest |
| Translation.InputAmountIs | deso/block.go:1327-1356 | A zero-hash input has the negated amount of the genesis output it indexes, any other that of the first effect that spends its key, and none if none does |
| Identifiers.DecimalRoundTrip | deso/block.go:1069 | The printed epoch is digits without a leading zero that read back as the number |
| Identifiers.PrintedLockedStakeReads | deso/block.go:1064-1073 | A printed locked-stake account: its address decodes to the staker, its sub-account has three segments, the tag, a text that decodes to the validator, and digits that stand for the epoch |
| Identifiers.PrintedLockedStakeInjective | deso/block.go:1064-1073 | Two triples share an identifier if and only if they are equal |
| Generators.Emit | deso/block.go:297-312 | Appends one fresh, unshared operation with the next index |
| Generators.FindFirst | deso/block.go:624-629 | The first effect of a kind |
| Generators.GetInputAmount | deso/block.go:1327-1356 | The negated amount of an input, from the genesis block or the transaction's own list |
| Generators.GetBalanceModelSpends | deso/block.go:1035-1061 | One numbered input per spent balance |
| Generators.GetImplicitOutputs | deso/block.go:1274-1325 | One numbered output per added entry beyond the outputs and per added balance |
| Generators.GetCreatorCoinOps | deso/block.go:608-673 | The operations specified for a creator-coin trade |
| Generators.GetSwapIdentityOps | deso/block.go:675-769 | The four operations specified for a swap |
| Generators.AddNFTRoyalties | deso/block.go:771-802 | Appends the non-zero royalties and advances the counter by as many |
| Generators.GetAcceptNFTOps | deso/block.go:804-896 | Bidder inputs and royalties, or nothing if an input does not resolve |
| Generators.GetBuyNowNFTBidOps | deso/block.go:898-957 | The royalties of a bid |
| Generators.GetUpdateProfileOps | deso/block.go:959-1000 | The input for clobbered coins |
| Generators.GetDAOCoinLimitOrderOps | deso/block.go:1002-1033 | All bidders' inputs, or nothing if one does not resolve |
| Generators.GetStakeOps | deso/block.go:1097-1141 | One output to the validator's pool per stake effect |
| Generators.GetUnstakeOps | deso/block.go:1143-1207 | Pool input and locked output per unstake effect |
| Generators.GetUnlockStakeOps | deso/block.go:1209-1247 | One input per released entry |
| Generators.GetStakingRewardDistributionOps | deso/block.go:1249-1272 | One output per restaked reward |
| Conversion.GetPlainOps | deso/block.go:280-339 | Inputs, and outputs before the balance model, numbered from zero |
| Conversion.AddSpecialOps | deso/block.go:341-386 | The eleven generators in order, threading the counter |
| Conversion.GetOperationsForTransaction | deso/block.go:245-388 | The recursion through wrappers terminates and yields unshared operations that read as specified |
| Conversion.FindSpentUtxos | deso/block.go:150-159 | The map of spent outputs |
| Translation.LastSpendCounts | deso/block.go:150-159 | Where a block's lists spend a key more than once, the amount of the last spend is the one in the map |
| Conversion.GetTransactionsForConvertBlock | deso/block.go:138-243 | Translation and in-place squashing of a whole block |
| DraftOrder.PlainOrder | deso/block.go:280-339 | A transaction's own drafts in order: an input of its sender per input, at the amount found for it or zero, then its outputs where they are translated |
| DraftOrder.TransfersInOrder | deso/block.go:341-352 | Then an input per spent balance in the order of the effects, then an output per payment, then what the transaction's type brings |
| DraftOrder.UnresolvedMeansNothing | deso/block.go:834-842 | One bidder input that does not resolve, and an accepted bid or limit order brings nothing at all |
| DraftOrder.AcceptInOrder | deso/block.go:830-895 | An accepted bid that resolves takes the bidder's inputs first, each at the amount found for it, and then pays royalties as OUTPUTs |
| DraftOrder.BlockLevelInOrder | deso/block.go:225-233 | At block level every payment, whatever its index, comes before every restaked reward, each in the order of the effects |
| ServedTypes.ServedType | deso/block.go:245-388 | After squashing, a balance-model transaction's operation on a main account is an INPUT if it takes from the account at all, by an input or a spent balance, and an OUTPUT otherwise |
| Ledger.LeafLedger | deso/block.go:280-387 | In either ledger model and for every weight of (address, amount, type), a plain transaction's operations on main accounts weigh what its recorded effects weigh, plus what is missing: inputs, failed negations, wrapper effects |
| Ledger.SpecialNet | deso/block.go:341-387 | On main accounts the generators amount to balance effects, added entries beyond the outputs, and bidder inputs, weight by weight |
| Ledger.BidderNet | deso/block.go:834-864 | Bidder inputs, genesis outputs included, are charged at the amounts found for them |
| Trees.TreeLedger | deso/block.go:245-271 | The same through any nesting of wrappers, matched or not, for every map of spent outputs and every list |
| Trees.EffectsExactlyOnce | deso/block.go:245-387 | Every spent, added or paid amount is in exactly one operation and every main operation is one: equal multisets of (address, signed amount, type), spends being INPUT and additions OUTPUT, for every tree of which nothing is missing |
| Trees.AbsentInputsCountAsZero | deso/block.go:282-293 | Where the map lacks the inputs of a tree, its net is off by the inputs the account owns, and right if and only if they sum to zero |
| Trees.WrappedInputIsLost | deso/block.go:150-159 | A wrapped transaction with one input on which operations and effects disagree |
| Trees.SquashedTreeLedger | deso/block.go:199-200 | For all amounts, a transaction's squashed net in terms of its effects and what is missing, and when it is what the effects say |
| BlockLedger.SpentUtxosRecord | deso/block.go:150-159 | The map of spent outputs holds exactly the outputs the block's own lists spend, each at its recorded amount |
| BlockLedger.BlockInputsKnown | deso/block.go:282-290 | Every input of a block's own transaction is found in that map at its recorded amount |
| BlockLedger.BlockMeansItsEffects | deso/block.go:138-243 | A translated block changes each main account by what its recorded effects say, block-level rewards included, plus its drift |
| BlockLedger.TxnDriftlessExactlyWhen | deso/block.go:199-200 | When a transaction of a block does not drift |
| BlockLedger.WrapperDriftsByInputs | deso/block.go:251-271 | Short of overflow, a wrapper drifts by exactly the inner inputs the account owns |
| BlockLedger.DriftlessBlock | deso/block.go:138-243 | Without double spends, missing wrapped inputs, overflow and block-level spends a block does not drift |
| BlockLedger.UnrecordedLedger | deso/block.go:194-200 | A block without recorded effects, such as genesis, changes each main account by its outputs, squashed per transaction |
| BlockLedger.BlockLevelCredits | deso/block.go:225-233 | For every list, the block-level drafts credit main accounts exactly its added entries, balances and rewards |
| BlockLedger.BlockLevelTxnLedger | deso/block.go:218-240 | Squashed, for all amounts and every list, it credits the list's meaning less its spends and wrappers |
| BlockLedger.BlockLevelTxnTouches | deso/block.go:225-233 | It touches no creator coin and no locked stake |
| BlockLedger.BlockLevelTxnRestakes | deso/block.go:231-233 | It credits each validator pool the wrapped sum of its restaked rewards |
| BlockLedger.RestakeOperations | deso/block.go:1249-1272 | For every value of (amount, type), the block-level list does to a pool one OUTPUT per restaked reward |
| BlockLedger.TranslationIsComplete | deso/block.go:161-243 | One squashed transaction per transaction, in order and under its hash, and one more, named after the block hash, exactly when there is one more effect list |
| BlockLedger.NumberingThreads | deso/block.go:268-386 | Operation k of a plain transaction has index k; wrappers concatenate separately numbered parts; squashing renumbers from zero |
| SwapIdentities.SwapExchanges | deso/block.go:675-769 | A swap exchanges the two creator-coin balances and touches nothing else, before and after squashing |
| SwapIdentities.SwapServed | deso/block.go:675-769 | What is served for a swap: two operations, both typed INPUT, with the two differences |
| SwapIdentities.SwapTwiceRestores | deso/block.go:675-769 | The swap of the exchanged balances restores the start, and each swap nets to zero |
| SubAccounts.CoinOperations | deso/block.go:608-1000 | For every value of (amount, type), the operations of a plain transaction on a creator coin: sells, balances a swap takes and clobbered coins are INPUT, buys, balances it gives and royalties OUTPUT |
| SubAccounts.CoinLedger | deso/block.go:608-1000 | A plain transaction of any type changes each creator-coin account by what its effects mean, less royalties that are due and not paid |
| SubAccounts.AcceptedBidPaysExactlyWhen | deso/block.go:834-895 | An accepted bid pays what it owes if and only if its bidder inputs resolve and truncation loses no share, or it owes nothing |
| SubAccounts.RoyaltyIsDropped | deso/block.go:837-841 | A bid whose recorded royalty no operation pays |
| SubAccounts.PoolOperations | deso/block.go:1097-1207 | For every value of (amount, type), the operations on a validator pool: a positive OUTPUT per stake effect, a positive INPUT per unstake effect with one staker |
| SubAccounts.PoolLedger | deso/block.go:1097-1207 | A plain transaction of any type changes each validator pool by its stake and unstake effects, all positive |
| SubAccounts.LockedOperations | deso/block.go:1143-1247 | The same for a locked-stake account: a positive OUTPUT per unstake effect, a positive INPUT per released entry |
| SubAccounts.LockedLedger | deso/block.go:1143-1247 | The same for locked-stake accounts and unstake and unlock effects |
| Conservation.UnstakeConservesExactlyWhen | deso/block.go:1173-1203 | For every list of effects, an unstake conserves pool plus locked entry if and only if its amount is zero or not translated, or no unstake effect names either |
| Conservation.UnlockReleasesExactlyWhen | deso/block.go:1223-1242 | For every list of effects, an unlock takes out of an account what it releases from it if and only if that is nothing |
| SubBlocks.BlockCoins | deso/block.go:138-271 | Through wrappers, squashing and the block-level transaction, a block changes each creator coin by what its effects mean, less unpaid royalties, wrapped per transaction |
| SubBlocks.BlockPools | deso/block.go:138-271 | The same for validator pools: stakes, unstakes with a positive sign, and restaked rewards |
| SubBlocks.TwiceUnstakedIs | deso/block.go:1173-1185 | What the code does to a pool and what should be done differ by twice the unstaked amount |
| SubBlocks.BlockLocked | deso/block.go:138-271 | The same for locked-stake accounts: unstakes and unlocks, all with a positive sign |
| SubBlocks.CoinDriftExactlyWhen | deso/block.go:834-895 | Short of overflow, a block is off for a coin by its unpaid royalties, so not at all if and only if every plain transaction pays |
| SubBlocks.PoolDriftExactlyWhen | deso/block.go:1149-1205 | Short of overflow, a block is off for a pool by twice what it unstakes, so not at all if and only if nothing in it unstakes from the pool |
| FakeBlocks.GetBlockTransactionsWithHypersync | deso/block.go:390-563 | The four loops, the iterated hash and the sort yield a synthetic block of the index's maps |
| FakeBlocks.FakeBlockIsDetermined | deso/block.go:402-562 | Any two map orders give the same descending list of hash texts and the same multiset of operations |
| FakeBlocks.FakeBlockHashes | deso/block.go:410-429 | One transaction per non-zero map entry; the hashes are the texts of a chain that starts with the bytes of the block hash read backwards, each link the double hash of the one before |
| FakeBlocks.FakeBlockDescends | deso/block.go:558-561 | Of two hashes in order, the later has the smaller character where they first differ, and never extends the earlier one |
| FakeBlocks.FakeBlockInOrder | deso/block.go:419-556 | The links of the hash chain go to the non-zero DESO balances first, then to creator coins, stakes and locked stake, one entry each |
| FakeBlocks.FakeBlockTotal | deso/block.go:419-561 | A synthetic block consists of single outputs that add up to the four block maps |
| FakeBlocks.SortByHash | deso/block.go:558-561 | Descending order, nothing lost or added |
| Serving.GetBlock | deso/block.go:57-97 | Synthetic blocks up to the first snapshot in hypersync mode, translated blocks elsewhere, an error for a block that is not stored |
| Serving.SameBoundaryExactlyWhen | deso/events.go:467-480 | A height is served synthetically just when no block committed at it can change the index, if and only if the server is set or the height is not synthetic |
| Serving.DispatchInvertsEmission | services/account_service.go:103-117 | An emitted identifier asks for the balance type and key it was indexed under, for all holders but those of locked stake, which are refused |
| Serving.DispatchReads | services/account_service.go:103-108 | The literal texts: no sub-account asks for DESO, "CREATOR_COIN" for creator coins, any text that begins "VALIDATOR_ENTRY" for the stake |
| Serving.DispatchReadsLocked | deso/block.go:1082-1095 | A text "LOCKED_STAKE_ENTRY...-validator" without further dashes asks for that validator's locked stake if it decodes, and is refused if not |
| Serving.OtherTextsAreRefused | services/account_service.go:115-117 | Any other sub-account is refused |
| Serving.PrintedLockedStakeIsRefused | deso/block.go:1064-1095 | No printed locked-stake identifier is accepted by the parser |
| Serving.AccountBalanceSnapshot | services/account_service.go:94-117 | The reported balance is the abstract timeline of the dispatched type and key, or an error |

## Left out

- SubAccounts.PoolLedger: states the positive sign that the code gives unstakes; that an unstake should lower the pool is false of the code, and UnstakeConservesExactlyWhen gives the condition.
- SubAccounts.LockedLedger: states the positive sign that the code gives unlocks, for the same reason.
- Reconciliation.HistoryReconciles: says nothing about locked-stake accounts, whose lookup does not decode a balance; LockedSyntheticTotal compares their synthetic blocks with what was recorded.
- ServedTypes.ServedType: leaves out accepted bids and limit orders, whose bidder inputs come after the payments, and outputs from before the balance model.
- EndToEnd.CoinsReconcile: amounts that reach creator coins are assumed below 2^63; for main accounts amounts are unrestricted.
- EndToEnd.PoolsReconcile: amounts staked, unstaked and restaked are assumed below 2^63.
- SubBlocks.BlockLocked: amounts unstaked and released are assumed below 2^63, or not to be translated at all.
- BlockLedger.BlockMeansItsEffects: asks for as many effect lists as transactions, or one more; the code does not translate any beyond that.
- Generators.GetInputAmount: a zero-hash input beyond the genesis outputs, on which the code panics, is a precondition.
- Conversion.GetTransactionsForConvertBlock: a block with fewer effect lists than transactions, on which the code panics, is a precondition; so is a spend effect that carries an entry and a key.
- Serving.GetBlock: decoding the hash, unknown and uncommitted blocks, parent identifier, timestamp, and errors when fetching or hashing effects are not modelled.
- Serving.AccountBalanceSnapshot: resolving a block hash or index to a height is not modelled; the height is a parameter.
- Badger internals, put and flush errors, gob failures, logging and timing: the store is a sorted byte-key store whose operations succeed, and gob is the identity on maps.
- Reading raw records of the chain database: a record is its decoded entry or malformed; padding of short public keys is part of the unknown decoder.
- Transaction metadata in JSON, the operation status and currency, which are constant.
- The running total of bidder inputs in the accept-bid generator, which nothing reads, and its parse error, which cannot occur on text the code has just formatted.
- `AccountCoins`, the construction service, network, mempool and block services, configuration, node start and stop.
- lib.UtxoView, block and transaction hashing, and Base58Check of the chain library are not part of this model.
