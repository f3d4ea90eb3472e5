# Mina indexer: witness tree, reorgs, ledgers and chain discovery in Dafny

This project models the parts of the Mina block indexer that keep its view of the chain
consistent, and proves what they promise for every input and every run.

**Blocks.** A `Universe` is a map from state hashes to blocks: unique hashes, one genesis, a
child one longer than its parent. Every run draws its blocks from one universe; a block's
parent need not be in it.

**Accounts.** `Accounts` says what every kind of account diff does to an account in a ledger
(`Applied`), in the stored best ledger (`BestApplied`), and when a block is unapplied there
(`Unapplied`). `LastWrites` says what an account then looks like, field by field and without
the steps: each field holds what was last written to it. Results about the tree and about
staged ledgers hold for any step that keeps the public key; the ledger's own is one. No step
reads or writes an account's username, so `NamedLedgers` puts the usernames on a ledger from a
map beside it, and `RunningNames` follows that map over a run.

**Witness tree.** `WitnessTree` is the state machine on sets of state hashes: a root branch,
dangling branches, best tip, canonical root, running ledger and diff map. `WitnessForest`,
`WitnessRuns`, `WitnessOrder` and `LedgerBatches` prove what each step keeps and what holds
over all runs. `LedgerLogs` says which blocks the running ledger holds, reorgs or not.
`WitnessChains`, `DeepReorgs`, `SideDiffs` and `NamedChains` follow runs along one, two and
three chains; `WitnessSettings` draws the line between safe and unsafe settings. `Trees`,
`TreePruning`, `Branches`, `BranchLists`, `CanonicalWalk`, `Extensions` and `IndexerStates`
are the code itself (node ids, heights, parent links, loops, index arithmetic); every method
of class `IndexerState` is proved to be the step of the state machine, so the run theorems are
theorems about it.

A *deep reorg* is a new best tip that does not descend from the canonical root.

**Store.** `Reorgs` computes the blocks to unapply and apply. `ChainIndexes` says what each
index of the best chain should hold, as a recount over the chain; `IndexSteps` and class
`IndexerStore` move the indexes from the old chain to the new one. `StoredTrees` and
`Pipelines` put tree and store together.

**Ledgers.** `StagedLedgers` and `StagedLedgerStores` are persisted snapshots plus diffs, and
`StagedPipelines` the tree that persists them; `ActionDiffs`, `Unapplying`, `Restoring`,
`BestLedgers` and `BestLedgerStores` are the grouped account updates and the balance-sorted
indexes, which `BestStores` moves along with the best tip. The reference for both, and for the
witness tree's ledger, is the left fold of module `Ledgers`.

**Discovery.** `Discovery` and `DiscoverySplit` are the search for the canonical chain among
block files and the split of the files. Among equally high tips the one found last wins, which
depends on the order of the input, and the contracts say how.

Where the code does not do what one would expect, the project shows the failing case and
proves when it does:

- Among equally long leaves a merged branch offers its worst one
  (`WitnessExamples.MergeHidesBetterTip`). The best tip is the best block of the root branch
  precisely if no merge hides a better one (`WitnessOrder.OptimalIffNothingHidden`).
- A dangling extension stops at the first branch it touches and may leave two branches apart
  (`WitnessExamples.ChildFirstLeavesGap`); precisely when is `WitnessOrder.FeedConnectedIff`.
- The reported canonical blocks continue the chain precisely if there was no deep reorg
  (`WitnessRuns.ReportContinuesIffNoDeepReorg`). With the shipped settings eleven blocks and
  then twelve others make one: the report starts at the root of the tree, and the ledger is no
  longer that of the canonical root (`WitnessSettings.DeepReorgExample`).
- In every run, with any reorgs, the ledger is the fold of the reported blocks whose diffs were
  in the map (`LedgerLogs.RunFoldsLog`). At the first deep reorg these are the old canonical
  chain, overtaken blocks included, and the blocks of the new one above the fork whose diffs are
  still there; none is applied twice (`LedgerLogs.FirstDeepLog`). So the ledger is that of the
  new canonical root precisely if, from the ledger at the fork, these come to the same as the
  new chain (`LedgerLogs.FirstDeepReorgIff`). A block of the new chain that is not higher than
  the old canonical root may be missing (`SideDiffs.SideDiffMissing`,
  `WitnessSettings.MissingExample`), and a later deep reorg can apply blocks a second time
  (`DeepReorgs.AppliedTwice`, `WitnessSettings.PaidTwiceExample`).
- A batch of canonical blocks is persisted with one ledger, that of its last block. The
  ledgers stored are exact precisely if nothing happens between a block with a stored ledger
  and the next one, or the end of the batch (`LedgerBatches.StoredExactlyIff`); a best tip that
  rises by two can store a wrong one (`WitnessSettings.WrongLedgerExample`).
- No run loses the canonical root precisely if the update threshold exceeds the confirmations
  by at most one (`WitnessSettings.RootAlwaysKeptIff`), and the unwraps of the pruning code are
  safe precisely if the prune height is at least k + 2 (`WitnessSettings.UnwrapsAlwaysHoldIff`).
  The shipped settings meet both (`WitnessRuns.ShippedThresholdsValid`).
- The height index of canonical blocks stays exact precisely if the best tip rises by at most
  one (`IndexerStores.IndexerStore.SetBestBlock`, `StoreExamples.RiseByTwo`). In every run it is
  sound, and complete up to the canonical root (`Pipelines.Pipeline.AddBlock`).
- An actions diff writes the action slots of an account in the ledger and nothing in the stored
  best ledger (`StoreExamples.ActionsMissed`). The two agree precisely if every account with an
  actions diff already is, or otherwise becomes, a zkapp account with those slots and that
  proved flag (`BestLedgers.LedgersAgreeIff`).
- Unapplying a block goes through its diffs in the order in which they were applied, subtracts
  with saturation and leaves the zkapp diffs. It restores a balance precisely if the account is
  charged no creation fee and no prefix and no suffix of its diffs takes more than it had
  (`Unapplying.UnapplyRestoresIff`, `Unapplying.CreditThenDebit`); a delegate precisely if the
  block does not delegate or the account was its own delegate (`Restoring.DelegateRestoredIff`);
  a nonce precisely if the one that the last nonce-setting diff takes it back to was the old one
  (`Restoring.NonceRestoredIff`, `Restoring.TwoPayments`); and the whole account precisely if all
  of these hold and the zkapp diffs change nothing (`Restoring.AccountRestoredIff`). The accounts
  that the block created are not removed (`BestLedgers.LedgerUndoneIff`).
- The sort indexes of the best ledger stay exact precisely if the caller's account of the old
  balance is right or the entry is overwritten (`BestLedgerStores.UpdateKeepsSortIff`); a
  second genesis ledger can break them (`StoreExamples.ReloadWithOtherBalance`).
- A ledger persisted over an earlier one does not remove the earlier entries. The entries are
  then those of the new accounts over the old ones precisely if no account changes its balance
  (`StagedLedgers.WrittenIff`).
- A staged ledger carries the usernames of the nearest persisted ledger below the block, which
  are those that the running ledger had when that block was reported, not those set since
  (`StagedPipelines.StagedPipeline.GetLedger`).
- The three lists of the discovery partition the input precisely if the threshold is not zero
  (`DiscoverySplit.Discover`).

## Model

| member | source | states |
|---|---|---|
| `Blocks.CmpIsSelectLongerChain` | rust/src/block/mod.rs:207-225 | the comparison is longer chain, then larger VRF output, then larger state hash (section 6.2, Select Chain, of the Mina consensus specification), the last two decided by the first difference, except that a hardfork block beats a mainnet one; it never answers "equal" |
| `Blocks.LexLessIsDictionary` | rust/src/block/vrf_output.rs:12-13 | hashes and VRF outputs are compared as in a dictionary: `a` is smaller precisely if at the first difference it ends or has the smaller character |
| `Blocks.BetterIsStrictTotalOrder` | rust/src/block/mod.rs:207-225 | on distinct blocks of one genesis the comparison is a strict total order that refines length |
| `Blocks.BothBetterIff` | rust/src/block/mod.rs:207-225 | two blocks each count as better than the other precisely if they are on the two sides of the hardfork and the mainnet block has the better chain |
| `Trees.HeightIsDepth` | rust/src/state/branch.rs:128-148 | in every sound tree the stored height is the depth along the parent links and the distance in blockchain length from the root |
| `Trees.InsertUnderSound` | rust/src/state/branch.rs:128-148 | a block inserted below its parent's node keeps the tree sound and adds exactly its hash |
| `Trees.RaiseTree` | rust/src/state/branch.rs:299-326 | inserting a new root and raising every other height by one gives the old tree one level higher below the new root |
| `Trees.RaisedSound` | rust/src/state/branch.rs:299-326 | the raised tree is sound and holds the old hashes and the new root's |
| `Trees.MergeTrees` | rust/src/state/branch.rs:227-297 | the level-order copy with an id map places a tree below a junction: the result is sound, keeps every node, holds the union of the hashes, and the returned node is the copy of the incoming best tip |
| `Trees.FirstInReverse` | rust/src/state/branch.rs:373-377 | the first block after sorting by the reversed comparison is the one that every other block beats |
| `TreePruning.DropSiblings` | rust/src/state/branch.rs:173-187 | dropping each sibling's subtree leaves exactly the nodes that do not hang below a sibling |
| `TreePruning.Rebase` | rust/src/state/branch.rs:202-210 | subtracting the new root's height lowers every node by the same amount without going below zero |
| `TreePruning.CutTree` | rust/src/state/branch.rs:172-210 | the whole surgery leaves the subtree of the kept node, re-rooted, with heights lowered |
| `TreePruning.CutDownSound` | rust/src/state/branch.rs:151-214 | the cut tree is sound and its hashes are the descendants of the kept block |
| `Branches.NewBranch` | rust/src/state/branch.rs:25-30 | a branch of one block |
| `Branches.Branch.Height` | rust/src/state/branch.rs:407-409 | the number of levels is one more than the greatest height and exceeds every height |
| `Branches.Branch.TopLeavesWithId` | rust/src/state/branch.rs:332-343 | the nodes collected are exactly those of greatest blockchain length in the branch, each once |
| `Branches.Branch.BestTipWithId` | rust/src/state/branch.rs:373-377 | the tip returned is the highest block that every other highest block beats: maximal in length, last in preference |
| `Branches.Branch.SimpleExtension` | rust/src/state/branch.rs:128-148 | succeeds precisely if the parent is in the branch; then the branch stays sound, keeps every node and gains exactly the block |
| `Branches.Branch.NewRoot` | rust/src/state/branch.rs:299-326 | the branch stays sound, with the block as root and its hash added |
| `Branches.Branch.MergeOn` | rust/src/state/branch.rs:227-297 | the branch stays sound, keeps every node, takes over all hashes of the incoming branch and returns the node of that branch's best tip |
| `Branches.Branch.KthAncestor` | rust/src/state/branch.rs:152-170 | the walk finds the k-th ancestor and the node below it, which is not the root, so neither unwrap fails |
| `Branches.Branch.PruneTransitionFrontier` | rust/src/state/branch.rs:151-214 | leaves exactly the subtree of the best tip's k-th ancestor, sound (heights are depths again), and keeps the node ids of the surviving blocks |
| `Removals.RemovingStep` | rust/src/state/mod.rs:783-785 | an index lowered by the number of earlier removals hits the intended element |
| `Removals.RemoveAll` | rust/src/state/mod.rs:783-785 | removing at increasing indices, each lowered by the number of earlier removals, drops exactly the listed elements |
| `BranchLists.FindMatches` | rust/src/state/mod.rs:848-853 | collects exactly the indices of the branches whose root is a child of the block |
| `BranchLists.MergeChildren` | rust/src/state/mod.rs:748-762 | merges exactly the branches whose root is a child of the new block into the root branch and returns the node of each one's best tip |
| `BranchLists.GrowRoot` | rust/src/state/mod.rs:744-762 | the root branch gains the new block and every branch it connects, or is unchanged if the parent is not in it |
| `BranchLists.ExtendBranch` | rust/src/state/mod.rs:806-836 | a branch is extended precisely if the lengths allow it and the block is its root's parent or a child inside it |
| `BranchLists.ExtendFirst` | rust/src/state/mod.rs:801-838 | the first touched branch, and no other, is extended |
| `BranchLists.NextIndex` | rust/src/state/mod.rs:856-869 | the index computed for the next branch to join is where that branch now is |
| `BranchLists.JoinBranches` | rust/src/state/mod.rs:855-871 | the extended branch takes over every branch whose root is a child of the block and moves to the end; the others keep their order |
| `BranchLists.GrownJoinable` | rust/src/state/mod.rs:841-878 | every matching index exceeds the extended one, so removing the extended branch first shifts each by one |
| `WitnessForest.LastTopExists` | rust/src/state/branch.rs:373-377 | every non-empty branch has such a tip |
| `WitnessForest.BestOfIsBest` | rust/src/state/mod.rs:765-769 | the minimum over the merged tips is a tip that no other merged tip beats |
| `WitnessForest.DanglingGateAdmits` | rust/src/state/mod.rs:807-814 | the length pre-check never turns away a block that belongs to the dangling branch |
| `WitnessForest.RootGateAdmits` | rust/src/state/mod.rs:890-892 | nor does the one of the root branch |
| `WitnessForest.MergedBranchesComeLater` | rust/src/state/mod.rs:841-878 | branches joined to an extended dangling branch all sit after it in the list |
| `WitnessForest.ExtendRootForest` | rust/src/state/mod.rs:740-798 | a root extension keeps the forest sound, adds exactly the block, and never lowers the best tip |
| `WitnessForest.ExtendDanglingForest` | rust/src/state/mod.rs:801-887 | so does placing a block among the dangling branches |
| `Extensions.TypeTells` | rust/src/state/mod.rs:141-150 | the extension type says how the branches changed: "new" precisely if there are more of them, "complex" precisely if fewer, "simple reverse" precisely if as many and the block is now a root, "simple forward" precisely if no root changed and the block is in a dangling branch, "root" precisely if it is in the root branch, "not added" precisely if it is nowhere |
| `Extensions.DanglingInOrder` | rust/src/state/mod.rs:841-878 | the branches that a block does not reach keep their order |
| `Extensions.HolderPlace` | rust/src/state/mod.rs:841-887 | a branch that is new or joined from others comes last; one that only grows stays in its place |
| `WitnessRuns.ShippedThresholdsValid` | rust/src/constants.rs:15-17 | the shipped thresholds meet what pruning relies on for every frontier of at least ten blocks and every prune interval of at least two |
| `WitnessRuns.CanonicalRootMoves` | rust/src/state/mod.rs:1502-1532 | the canonical root moves to the tenth ancestor of the best tip or stays, remains in the tree, and never gets shorter |
| `WitnessRuns.ReportedBlocksAreDeep` | rust/src/state/mod.rs:1502-1532 | each reported block has at least ten descendants on the best chain |
| `WitnessRuns.ReportIsThePath` | rust/src/state/mod.rs:945-957 | without a deep reorg the report is the path from the old canonical root to the new one |
| `WitnessRuns.ReportContinuesIffNoDeepReorg` | rust/src/state/mod.rs:1502-1532 | a report continues the chain precisely if the best tip descends from the old canonical root |
| `WitnessRuns.DeepReportStartsAtRoot` | rust/src/state/mod.rs:1502-1532 | the report of a deep reorg starts at the root of the tree and ends at the new canonical root |
| `WitnessRuns.ReportHeights` | rust/src/state/mod.rs:1502-1532 | every report, after a deep reorg too, is a run of consecutive heights that ends at the new canonical root and leaves none out above the old one |
| `WitnessRuns.PruneDue` | rust/src/state/mod.rs:911-927 | when pruning is due the best tip has at least k + 2 ancestors in the tree |
| `WitnessRuns.PruneKeepsCanonicalRoot` | rust/src/state/mod.rs:911-927 | pruning never drops the canonical root if the update threshold exceeds the confirmations by at most one, or if the best tip descends from it |
| `WitnessRuns.FeedKeepsForest` | rust/src/state/mod.rs:675-736 | every step keeps the forest sound and the canonical root in the tree, and the best tip's length never decreases |
| `WitnessRuns.FeedAddsOneBlock` | rust/src/state/mod.rs:675-736 | between prunes an accepted block adds exactly one node |
| `WitnessRuns.RunKeepsTrees` | rust/src/state/mod.rs:740-927 | whatever the thresholds, the trees stay sound in every run as long as the prune height is at least k + 2 |
| `WitnessRuns.FeedKeepsLedger` | rust/src/state/mod.rs:675-736 | a step without a deep reorg keeps the ledger equal to the fold up to the canonical root, keeps every needed diff, and reports exactly the path by which the canonical root advanced |
| `WitnessRuns.RunKeepsForest` | rust/src/state/mod.rs:740-887 | for every arrival order of fresh blocks the forest is sound, no hash occurs twice, and the best tip is a longest block of the root branch |
| `WitnessRuns.RunKeepsLedger` | rust/src/state/mod.rs:945-957 | over every run without deep reorgs the ledger is the fold of all diffs from the initial root to the canonical root, and the reports concatenate to the chain between them, without gap or repeat |
| `LedgerLogs.RunFoldsLog` | rust/src/state/mod.rs:1535-1553 | over every run, whatever the settings, the order and the reorgs, the ledger is the initial one folded over the reported blocks whose diffs were in the map, in the order of the reports, and no entry of the map is wrong |
| `LedgerLogs.RunSpends` | rust/src/state/mod.rs:1573-1588 | over every run without deep reorgs the map holds no diff of a block below the canonical root on its chain |
| `LedgerLogs.DeepReport` | rust/src/state/mod.rs:1502-1532 | a deep reorg reports the root of the tree and the whole path from it to the new canonical root |
| `LedgerLogs.ForkExists` | rust/src/state/mod.rs:1502-1532 | at a deep reorg the old and the new canonical root have a common ancestor in the tree, and a highest one |
| `LedgerLogs.FirstDeepLog` | rust/src/state/mod.rs:1535-1588 | up to the first deep reorg of a run no block is applied twice; afterwards the applied blocks are the old canonical chain and those of the new one above the fork whose diffs are still in the map, among them all that are higher than the old canonical root |
| `LedgerLogs.FirstDeepReorgIff` | rust/src/state/mod.rs:1535-1553 | for every run, settings and fork: the ledger after the first deep reorg is that of the old canonical root folded over those blocks, and is that of the new canonical root precisely if, from the ledger at the fork, the overtaken blocks and these together come to the same as the new chain |
| `LedgerBatches.RunKeepsBestLedger` | rust/src/state/mod.rs:993-1026 | over every such run the ledger plus the diffs up to the best tip, none of which is missing, is the fold from the initial root to the best tip |
| `LedgerBatches.RunStaysClose` | rust/src/state/mod.rs:945-962 | over every run the canonical root is at most ten blocks behind the best tip |
| `LedgerBatches.BatchAtMostRise` | rust/src/state/mod.rs:945-957 | a step reports no more blocks than the best tip has risen by |
| `LedgerBatches.PersistedLedgerIs` | rust/src/state/mod.rs:1556-1569 | the ledger persisted for a reported block is its own ledger plus the later diffs of its batch; exact for the last block |
| `LedgerBatches.SingleRisePersistsExactly` | rust/src/state/mod.rs:1556-1569 | every persisted ledger is exact if the best tip rises by at most one |
| `LedgerBatches.ReportLedgers` | rust/src/state/mod.rs:1535-1569 | the ledger at each reported block is the ledger before the step folded over the report up to that block |
| `LedgerBatches.StoredExactlyIff` | rust/src/state/mod.rs:1556-1569 | the ledgers that a step stores, at the given cadence, are exact precisely if from each block with a stored ledger to the next one, or to the end of the batch, the diffs change nothing |
| `LedgerBatches.IdleBatchIff` | rust/src/state/mod.rs:1556-1569 | with a ledger for every block they are exact precisely if every reported block but the first has a diff that leaves its parent's ledger as it is; that suffices for any cadence |
| `WitnessChains.LinearRun` | rust/src/state/mod.rs:675-736 | a chain fed in order ends with its last block as best tip and the canonical root where the thresholds put it, whatever they are |
| `WitnessChains.JumpRun` | rust/src/state/mod.rs:740-798 | if a block comes after those above it, the best tip rises by all of them at once |
| `DeepReorgs.DeepReorgReachable` | rust/src/state/mod.rs:1502-1532 | a chain with more blocks above the root than confirmations and then a fork of one more is a deep reorg: it reports the root and then the whole new chain up to the new canonical root |
| `DeepReorgs.ForkLedgerIff` | rust/src/state/mod.rs:1535-1553 | after such a fork, whatever the diffs, the ledger is the canonical part of the overtaken chain and then that of the new one; it is that of the canonical root precisely if this is the same as the new chain alone |
| `DeepReorgs.DeepReorgSpoilsLedger` | rust/src/state/mod.rs:1535-1553 | if only the first block of the overtaken chain pays, the ledger after such a fork is that of the canonical root precisely if it pays nothing |
| `DeepReorgs.AppliedTwice` | rust/src/state/mod.rs:1535-1588 | a second such fork above the first block of the new chain applies that block again: the applied blocks are those of the first fork and then the whole new canonical chain |
| `DeepReorgs.TwiceLedgerIff` | rust/src/state/mod.rs:1535-1553 | the ledger after the two forks, and precisely when it is that of the canonical root |
| `DeepReorgs.PaidTwice` | rust/src/state/mod.rs:1535-1553 | if only that block pays, it has paid twice, and once in the ledger of the canonical root |
| `SideDiffs.SideDiffMissing` | rust/src/state/mod.rs:1573-1588 | if the first block of the second chain arrives before the canonical root first moves, its diff is forgotten, and a deep reorg that makes it canonical does not apply it |
| `SideDiffs.NeverReceived` | rust/src/state/mod.rs:1535-1588 | if only that block pays, the ledger never receives it |
| `DeepReorgs.CanonicalRootLost` | rust/src/state/mod.rs:911-962 | if the update threshold exceeds the confirmations by two or more, such a fork loses the canonical root when the tree is pruned |
| `WitnessSettings.DeepReorgExample` | rust/src/state/mod.rs:1502-1553 | with the shipped settings there is a run whose deep reorg reports the root and the two new canonical blocks and leaves a wrong ledger |
| `WitnessSettings.PaidTwiceExample` | rust/src/state/mod.rs:1535-1553 | with the shipped settings a run with two deep reorgs pays a coinbase twice |
| `WitnessSettings.MissingExample` | rust/src/state/mod.rs:1573-1588 | with the shipped settings a run with one deep reorg never pays a coinbase of the canonical chain |
| `WitnessSettings.DoubleRise` | rust/src/state/mod.rs:945-957 | if the last block but one of a chain comes last, two blocks are reported at once and both get the ledger of the second |
| `WitnessSettings.WrongLedgerExample` | rust/src/state/mod.rs:1556-1569 | with the shipped settings and cadence such a run stores a wrong ledger |
| `WitnessSettings.RootAlwaysKeptIff` | rust/src/state/mod.rs:911-962 | no run loses the canonical root precisely if the update threshold exceeds the confirmations by at most one |
| `WitnessSettings.UnwrapsAlwaysHoldIff` | rust/src/state/branch.rs:151-194 | in all runs the ancestors that pruning unwraps exist, and the second is not the root, precisely if k is not zero and the prune height is at least k + 2 |
| `WitnessOrder.ConnectedIffNoGap` | rust/src/state/mod.rs:801-887 | placing a block among the dangling branches leaves no two joinable branches precisely if it leaves no gap |
| `WitnessOrder.FeedConnectedIff` | rust/src/state/mod.rs:675-736 | a step keeps "everything connectable is connected" precisely if the block is not the parent of an earlier branch while its own parent is in a later one |
| `WitnessOrder.OptimalIffNothingHidden` | rust/src/state/mod.rs:765-780 | after a root extension the best tip is the best block of the root branch precisely if no merged branch hides a better one |
| `WitnessOrder.SoleTopsHideNothing` | rust/src/state/branch.rs:373-377 | merging branches with a single longest block hides nothing |
| `WitnessOrder.SortedRun` | rust/src/block/parser.rs:112-120 | for blocks arriving by non-decreasing length the root branch is exactly the set of fed blocks that descend from its root through fed blocks, the best tip is the best of them, and no two branches are left apart |
| `WitnessOrder.SortedRise` | rust/src/state/mod.rs:895-908 | in such a run no step raises the best tip by more than one |
| `WitnessExamples.ChildFirstLeavesGap` | rust/src/state/mod.rs:806-836 | every broken chain of three fed child first is left in two branches |
| `WitnessExamples.GapExample` | rust/src/state/mod.rs:806-836 | such a run exists |
| `WitnessExamples.MergeHidesBetterTip` | rust/src/state/branch.rs:373-377 | whenever a fork is merged, the worse of its two tips becomes the best tip |
| `WitnessExamples.ForkExample` | rust/src/state/branch.rs:373-377 | such a run exists |
| `CanonicalWalk.BestMerged` | rust/src/state/mod.rs:765-769 | the node picked is the first minimum of the merged tips |
| `CanonicalWalk.NthAncestor` | rust/src/state/mod.rs:1508-1513 | the walk finds the n-th ancestor precisely if the tree is deep enough |
| `CanonicalWalk.CollectBlocks` | rust/src/state/mod.rs:1508-1531 | collects the blocks from just above the old canonical root, or from the tree's root if it is never met, up to the start, lowest first |
| `CanonicalWalk.ForgetDiffs` | rust/src/state/mod.rs:1573-1588 | forgets exactly the diffs of the blocks below the old canonical root that are not higher than the new one, the new root excepted |
| `CanonicalWalk.ApplyChain` | rust/src/state/mod.rs:1001-1022 | applies the diffs of a chain oldest first, and gives up precisely if one is missing |
| `IndexerStates.IndexerState.constructor` | rust/src/state/mod.rs:286-362 | the new state is the initial state of the state machine: the genesis block alone, its diff applied and kept |
| `IndexerStates.IndexerState.UpdateBestTip` | rust/src/state/mod.rs:895-908 | the best tip moves precisely if the incoming block beats it, and still points to its node |
| `IndexerStates.IndexerState.RootExtension` | rust/src/state/mod.rs:740-798 | succeeds precisely if the parent is in the root branch; then it is the root extension of the state machine, complex precisely if a branch was merged |
| `IndexerStates.IndexerState.DanglingExtension` | rust/src/state/mod.rs:801-838 | extends the first touched branch and says which, where and in which direction |
| `IndexerStates.IndexerState.UpdateDangling` | rust/src/state/mod.rs:841-878 | joins the branches that the extended one reaches, or changes nothing if there are none |
| `IndexerStates.IndexerState.NewDangling` | rust/src/state/mod.rs:881-887 | appends a branch of one block |
| `IndexerStates.IndexerState.PlaceDangling` | rust/src/state/mod.rs:719-735 | the dangling part of a step is that of the state machine, with the matching extension type |
| `IndexerStates.IndexerState.IsCanonicalUpdatable` | rust/src/state/mod.rs:959-962 | the height difference never underflows and is compared as the state machine does with lengths |
| `IndexerStates.IndexerState.GetNewCanonicalBlocks` | rust/src/state/mod.rs:1502-1532 | the blocks are the new canonical ones of the state machine, with their heights in the tree, and the canonical root moves to the highest of them |
| `IndexerStates.IndexerState.UpdateLedger` | rust/src/state/mod.rs:1535-1553 | the ledger moves by the appended diffs of the blocks that have one |
| `IndexerStates.IndexerState.PruneDiffsMap` | rust/src/state/mod.rs:1573-1588 | the diff map loses exactly the settled diffs |
| `IndexerStates.IndexerState.UpdateCanonical` | rust/src/state/mod.rs:945-957 | is the canonical update of the state machine |
| `IndexerStates.IndexerState.PruneRootBranch` | rust/src/state/mod.rs:911-927 | update and pruning together are the settling step of the state machine; the best tip and canonical root keep their nodes |
| `IndexerStates.IndexerState.AddBlockToWitnessTree` | rust/src/state/mod.rs:675-736 | one block is one step of the state machine; the extension type says, precisely as above, how the branches changed, and a root type carries the best tip as it stood in the extended root branch; the canonical blocks are those reported, with their heights in the tree; the state stays valid |
| `IndexerStates.IndexerState.AddBlocks` | rust/src/state/mod.rs:1290-1295 | feeding blocks one after another is the run of the state machine |
| `IndexerStates.IndexerState.BestChain` | rust/src/state/mod.rs:973-990 | the chain lists the best tip and its ancestors down to the tree's root, each with its height |
| `IndexerStates.IndexerState.BestLedger` | rust/src/state/mod.rs:993-1026 | the best ledger is the running ledger folded over the path from the canonical root to the best tip, with missing diffs read from the store, and is missing precisely if a diff on the path is in neither; after a deep reorg it is the running ledger |
| `Ledgers.ApplyAccountDiffGet` | rust/src/ledger/mod.rs:136-150 | an account diff steps exactly one token account, made up if it is missing |
| `Ledgers.ApplyDiffInPlace` | rust/src/ledger/mod.rs:128-133 | the loop is the left fold of the account diffs |
| `Ledgers.ApplyDiffAppend` | rust/src/state/mod.rs:1540-1550 | applying appended diffs at once is applying them in turn |
| `Reorgs.CatchUp` | rust/src/store/block_store_impl.rs:298-317 | brings the new tip down to the old one's height, recording every block with the new tip's length |
| `Reorgs.ReorgBlocks` | rust/src/store/block_store_impl.rs:285-363 | ends with a result precisely if the new tip is no shorter; then the two paths run from the lowest common ancestor, the old one newest first and the new one oldest first |
| `IndexerStores.ReorgSwapsChains` | rust/src/store/block_store_impl.rs:285-363 | the old chain without the unapplied blocks and with the applied ones is the new chain, and no block is both |
| `IndexSteps.IncrementExact` | rust/src/store/block_store_impl.rs:1198-1253 | one block more keeps all counts and the sort index a recount over the chain |
| `IndexSteps.DecrementExact` | rust/src/store/block_store_impl.rs:1255-1314 | the assertions of the decrement hold, and it undoes the increment |
| `IndexSteps.PushUsernames` | rust/src/store/username_store_impl.rs:101-124 | pushes a block's usernames, its keys in any order |
| `IndexSteps.PopUsernames` | rust/src/store/username_store_impl.rs:74-99 | pops exactly what the block pushed |
| `IndexSteps.KeptUpTo` | rust/src/store/block_store_impl.rs:298-317 | no height up to the old tip goes missing in a reorg |
| `IndexSteps.KeptExactIff` | rust/src/store/block_store_impl.rs:298-317 | the height index after a reorg is exact precisely if the tip rose by at most one |
| `ChainIndexes.ExtraHeight` | rust/src/store/canonicity_store_impl.rs:42-54 | filing one more block leaves the height map sound precisely if it is the chain's block at that height |
| `ChainIndexes.ExtraSlot` | rust/src/store/canonicity_store_impl.rs:42-54 | filing one more block leaves the slot map exact precisely if it is on the chain at that slot |
| `IndexerStores.IndexerStore.constructor` | rust/src/state/mod.rs:298-327 | with the genesis block stored, filed as canonical and set as best tip, every index is exact, and the store holds that block and what was said of it |
| `IndexerStores.IndexerStore.AddBlock` | rust/src/store/block_store_impl.rs:37-186 | storing a block changes no index of the best chain; a stored one is passed over |
| `IndexerStores.IndexerStore.UpdateCanonicity` | rust/src/store/canonicity_store_impl.rs:180-210 | moves heights, slots and production counts from the old chain to the new one |
| `IndexerStores.IndexerStore.UpdateUsernames` | rust/src/store/username_store_impl.rs:71-127 | moves every key's username stack from the old chain to the new one |
| `IndexerStores.IndexerStore.UpdateSnarks` | rust/src/store/snark_store_impl.rs:755-780 | the canonical SNARK total stays the sum over the chain above genesis; the saturating decrement never clips |
| `IndexerStores.IndexerStore.UpdateInternalCommands` | rust/src/store/internal_command_store_impl.rs:500-512 | the canonical internal-command total likewise |
| `IndexerStores.IndexerStore.SetBestBlock` | rust/src/store/block_store_impl.rs:249-283 | fails precisely if the block is shorter; otherwise production counts, sort index, usernames and totals are a recount over the new chain, the slot map stays exact, and the height map stays sound and has precisely the heights it had up to the lowest common ancestor, all from there to the old tip, and the new tip; so it loses none up to the old tip, and stays exact precisely if the tip rises by at most one |
| `IndexerStores.IndexerStore.AddCanonicalBlock` | rust/src/store/canonicity_store_impl.rs:13-90 | files the block under height and slot; keeps the height map sound precisely if the block is the best chain's at that height, the slot map exact precisely if it is at that slot, and the counts precisely if it is not genesis counted again |
| `IndexerStores.IndexerStore.GetBlockCanonicity` | rust/src/store/canonicity_store_impl.rs:128-142 | nothing is said of a block whose height is missing; any other stored block is canonical precisely if it lies on the best chain |
| `IndexerStores.IndexerStore.GetUsername` | rust/src/store/username_store_impl.rs:17-23 | the latest username that the key took on the best chain above genesis |
| `StoreExamples.RiseByTwo` | rust/src/store/block_store_impl.rs:303-314 | a best tip two higher than the last one leaves a height out |
| `StoredTrees.ReportedOnChain` | rust/src/state/mod.rs:665-668 | every block that the witness tree reports lies on the store's best chain at its height |
| `Pipelines.Pipeline.MoveTip` | rust/src/state/mod.rs:655-668 | the best tip can always be set, and with the reported blocks filed no height up to the canonical root is missing |
| `Pipelines.Pipeline.WriteUsernames` | rust/src/state/mod.rs:655-663 | the usernames that the best tip sets are written into the running ledger, and every username stays on an account of the ledger |
| `Pipelines.Pipeline.AddBlock` | rust/src/state/mod.rs:631-672 | a block not stored yet is stored as received, with its creator, epoch, usernames and counts; over every run tree and store stay in step, every index is a recount, the height map is sound and complete up to the canonical root, and it stays exact while the tip rises by at most one; the usernames of the new best tip are written to the running ledger |
| `Pipelines.Pipeline.AddSorted` | rust/src/state/mod.rs:563-621 | for blocks sorted by length the store holds exactly the blocks fed and what was said of each, every index, heights included, is exact after every block, and the usernames on the running ledger are those of the run |
| `Pipelines.Pipeline.constructor` | rust/src/state/mod.rs:286-362 | tree and store with the genesis block alone, in step, with the given settings |
| `StagedLedgers.WriteAccounts` | rust/src/store/staged_ledger_store_impl.rs:212-225 | writes every account of the ledger under the block, token and balance, removes nothing, and touches no other block's entries |
| `StagedLedgers.WrittenIff` | rust/src/store/staged_ledger_store_impl.rs:212-225 | a ledger written over the entries of another leaves those of a third precisely if the third has the written accounts and otherwise the old ones, and no written account replaces one with another balance |
| `StagedLedgers.BuildStagedLedger` | rust/src/store/staged_ledger_store_impl.rs:483-506 | reading the entries of a block in any order gives back the ledger that was written |
| `StagedLedgers.SnapshotDetermines` | rust/src/store/staged_ledger_store_impl.rs:483-506 | entries determine the ledger |
| `StagedLedgerStores.StagedLedgerStore.constructor` | rust/src/store/staged_ledger_store_impl.rs:296-324 | the genesis ledger is persisted for the genesis block's parent |
| `StagedLedgerStores.StagedLedgerStore.AddBlock` | rust/src/store/block_store_impl.rs:37-186 | a new block, in any order of arrival, changes no ledger of a block with a known chain, and what is persisted stays right |
| `StagedLedgerStores.StagedLedgerStore.AddStagedLedger` | rust/src/store/staged_ledger_store_impl.rs:212-294 | persists a ledger with its usernames, whatever is persisted already; no other block is affected, and the block's entries stay right precisely if the ledger fits |
| `StagedLedgerStores.StagedLedgerStore.PersistLedgers` | rust/src/state/mod.rs:1556-1569 | persists the running ledger with its usernames for the newly canonical blocks at the cadence; each entry stays right precisely if the ledger fits, and no other block is affected |
| `StagedLedgerStores.StagedLedgerStore.GetStagedLedger` | rust/src/store/staged_ledger_store_impl.rs:326-390 | whichever ledgers are persisted, the answer is the genesis ledger folded with all diffs up to the block, with the usernames of the nearest persisted ledger below it, or none if its chain does not lead to genesis; memoizing keeps all entries right |
| `StagedPipelines.HereIsAt` | rust/src/store/staged_ledger_store_impl.rs:326-390 | the ledger that the store computes for a block is the one that the witness tree folds to it |
| `StagedPipelines.StagedPipeline.AddNewBlock` | rust/src/state/mod.rs:631-672 | after each block the persisted ledgers carry the usernames written so far, and the staged ledgers stay right precisely if the running ledger fits the blocks for which it is persisted |
| `StagedPipelines.StagedPipeline.AddBlock` | rust/src/state/mod.rs:631-672 | over every run a ledger is persisted for precisely the reported blocks at the cadence, and carries the usernames of the running ledger at the time; over every run sorted by length and without deep reorgs every ledger that is persisted is that of its block, and all staged ledgers stay right |
| `StagedPipelines.StagedPipeline.GetLedger` | rust/src/store/staged_ledger_store_impl.rs:326-390 | after such a run the staged ledger of a block is its own, with the usernames that the running ledger had when the nearest persisted block below it was reported |
| `NamedLedgers.NamedDiffs` | rust/src/ledger/account/mod.rs:150-546 | account diffs commute with putting usernames on a ledger |
| `NamedLedgers.WriteUsernames` | rust/src/state/mod.rs:655-663 | the usernames that a block sets are written to the keys with a MINA account in the ledger, over earlier ones, and to no others |
| `Accounts.StepsKeepKey` | rust/src/ledger/account/mod.rs:150-546 | every account step, applied or unapplied, keeps the public key; what else a step does is told by `LastWrites` |
| `LastWrites.FoldIsWrittenIff` | rust/src/ledger/account/mod.rs:155-515 | for every account and list of diffs, in a ledger and in the stored best ledger: delegate, permissions, timing, token symbol, voting-for, verification key, URI and each app-state slot hold what the last diff that writes them wrote; action slot j holds the last action whose index in its diff is j modulo the number of slots; the proved flag is set if a diff proves; the nonce is the last one carried plus the later increments; the balance is the running sum, never below zero; all else stays. This determines the account |
| `LastWrites.LedgerIsWritten` | rust/src/ledger/mod.rs:136-150 | so it is for every account of a ledger and its own diffs; an account without diffs is left alone |
| `LastWrites.OwnDiffs` | rust/src/ledger/diff/account.rs:240-246 | the diffs of an account are those with its key whose token is its own; only a payment names a token, every other diff is for MINA |
| `LastWrites.NewAccount` | rust/src/ledger/account/mod.rs:133-140 | an account that first appears is empty and its own delegate, with eight app-state and five action slots once it is a zkapp account, but for what its diffs write |
| `ActionDiffs.FoldsAgreeIff` | rust/src/ledger/account/mod.rs:330-461 | an account stepped through the same diffs in a ledger and in the stored best ledger is the same precisely if its actions diffs are idle: it is or otherwise becomes a zkapp account, and they change neither its action slots nor its proved flag |
| `Unapplying.UnapplyRestoresIff` | rust/src/store/best_ledger_store_impl.rs:223-258 | applying and then unapplying diffs never lowers a balance, and restores it precisely if there is no creation fee and no prefix and no suffix of the diffs takes more than the balance |
| `Unapplying.CreditThenDebit` | rust/src/ledger/account/mod.rs:204-223 | a credit and a debit of the same amount on an empty account leave the amount behind once they are unapplied |
| `Restoring.DelegateRestoredIff` | rust/src/ledger/account/mod.rs:278-310 | applying and then unapplying diffs restores the delegate precisely if none delegates or the account was its own delegate |
| `Restoring.NonceRestoredIff` | rust/src/ledger/account/mod.rs:204-328 | and the nonce precisely if the value to which the last nonce-setting diff takes it back is the old one, or, without such a diff, if nothing increments it |
| `Restoring.TwoPayments` | rust/src/ledger/account/mod.rs:204-237 | two payments of one sender in a block bring the nonce back one too high, or remove it |
| `Restoring.AccountRestoredIff` | rust/src/ledger/account/mod.rs:492-548 | and the whole account precisely if balance, nonce and delegate come back and the zkapp diffs change nothing |
| `BestLedgers.AggregateTokenAccountDiffs` | rust/src/store/best_ledger_store_impl.rs:445-463 | each group is the subsequence of its token account's diffs, and every diff is in a group |
| `BestLedgers.GroupedIsSequential` | rust/src/store/best_ledger_store_impl.rs:269-312 | for any account step, the sequential fold seen from one account is the fold of that account's own diffs |
| `BestLedgers.LedgersAgreeIff` | rust/src/store/best_ledger_store_impl.rs:277-306 | the stored best ledger is the ledger's own fold precisely if the actions diffs to every account are idle |
| `BestLedgers.NoActionsAgree` | rust/src/store/best_ledger_store_impl.rs:277-306 | without actions diffs the two are the same |
| `BestLedgers.BlockUndoneIff` | rust/src/store/best_ledger_store_impl.rs:213-266 | applying and then unapplying a block leaves an account as it was precisely if the block has no diff for it, or it was there and its own diffs restore it; a balance never comes back lower, and comes back precisely under the condition on balances |
| `BestLedgers.LedgerUndoneIff` | rust/src/store/best_ledger_store_impl.rs:213-266 | it leaves the whole ledger as it was precisely if that holds of every account |
| `BestLedgerStores.BestLedgerStore.UpdateBestAccount` | rust/src/store/best_ledger_store_impl.rs:70-158 | the new accounts and sort indexes; removing an account without an old value does nothing |
| `BestLedgerStores.UpdateKeepsSortIff` | rust/src/store/best_ledger_store_impl.rs:70-158 | the balance-sort index stays equal to the stored accounts precisely if the old entry is removed or overwritten |
| `BestLedgerStores.UpdateKeepsZkappSortIff` | rust/src/store/best_ledger_store_impl.rs:70-158 | the zkapp sort index likewise, for the zkapp accounts |
| `BestLedgerStores.BestLedgerStore.ApplyBlock` | rust/src/store/best_ledger_store_impl.rs:269-312 | groups visited in any order leave the accounts of the sequential fold of the store's own steps, which are the ledger's precisely if the actions diffs are idle; the sort indexes and the table of zkapp accounts stay exact |
| `BestLedgerStores.BestLedgerStore.UnapplyBlock` | rust/src/store/best_ledger_store_impl.rs:213-266 | unapplying leaves the accounts of the sequential fold of the unapplying steps, removes none of them, and keeps the sort indexes and the table of zkapp accounts exact |
| `BestLedgerStores.BestLedgerStore.UpdateBestAccounts` | rust/src/store/best_ledger_store_impl.rs:160-312 | over a whole reorg the accounts are the two folds, one after the other, and the sort indexes and the table of zkapp accounts stay exact; without unapplied blocks the accounts are the ledger's own fold precisely if the actions diffs are idle |
| `BestStores.BestStore.UpdateAccounts` | rust/src/store/best_ledger_store_impl.rs:160-211 | the accounts of a reorg are the two folds, all indexes stay exact, and the count of accounts moves by those created on the two paths, never below zero |
| `BestStores.BestStore.SetBestBlock` | rust/src/store/block_store_impl.rs:249-283 | a new best tip unapplies and applies the two paths from the lowest common ancestor; every index, the sort indexes and the count of accounts included, stays exact, and the table is the fold to the new tip if it was that to the old one and each unapplied block is undone |
| `BestStores.BestStore.SetBestBlocks` | rust/src/store/block_store_impl.rs:249-283 | over any run of best tips, whatever its reorgs, every index stays exact, and the best tip is the last one that was not refused |
| `BestLedgerStores.BestLedgerStore.LoadGenesis` | rust/src/store/staged_ledger_store_impl.rs:315-320 | the loaded accounts replace the stored ones, in the table of zkapp accounts too; all indexes stay exact precisely if none was stored with another balance, nor as a zkapp account that is none now |
| `BestLedgerStores.EmptyLoadsCleanly` | rust/src/store/staged_ledger_store_impl.rs:315-320 | a load into an empty store meets that condition |
| `StoreExamples.ReloadWithOtherBalance` | rust/src/store/staged_ledger_store_impl.rs:315-320 | a second load with another balance leaves a stale entry |
| `StoreExamples.ActionsMissed` | rust/src/store/best_ledger_store_impl.rs:297-301 | an actions diff to an account that is no zkapp account makes it one in the ledger only |
| `Discovery.BuildTreeMap` | rust/src/canonicity/canonical_chain_discovery.rs:25-33 | files every path once under its height, in the order of the input |
| `Discovery.FindBestTip` | rust/src/canonicity/canonical_chain_discovery.rs:63-107 | the search terminates with a file of greatest height among those linked by parents to a lowest file: the last one found, whose chain, where it first differs from any other chain to that height, has the file that is later in the input |
| `Discovery.CanonicalBranch` | rust/src/canonicity/canonical_chain_discovery.rs:109-148 | the walk back terminates with a parent-linked chain of consecutive heights from a lowest file to the best tip; the files walked over, except the tip, leave the map, and the height never underflows |
| `DiscoverySplit.SortByHeightAndHash` | rust/src/block/mod.rs:299-309 | sorted by height, then by hash as in a dictionary, with the same files |
| `DiscoverySplit.SplitOffRecent` | rust/src/canonicity/canonical_chain_discovery.rs:166-196 | cuts the branch at the threshold and gathers every file from the split height on, sorted |
| `DiscoverySplit.Flattened` | rust/src/canonicity/canonical_chain_discovery.rs:150-164 | empties the map into a list of its files, each once, by height and then as in the input |
| `DiscoverySplit.SplitIsPartition` | rust/src/canonicity/canonical_chain_discovery.rs:16-61 | with a threshold of at least one every path is in exactly one list, once, and the recent files are those from the split height on |
| `DiscoverySplit.ZeroThresholdRepeats` | rust/src/canonicity/canonical_chain_discovery.rs:166-196 | with a threshold of zero the best tip is always listed twice |
| `DiscoverySplit.Discover` | rust/src/canonicity/canonical_chain_discovery.rs:16-61 | the lists partition the input precisely if the threshold is not zero or the input is empty; the canonical list is a best branch without its last files, as many as the threshold: of all best branches the one whose file, at the first difference, is later in the input; the recent files are those from that height on, sorted, and the orphaned ones are in order of height and input |
| `DiscoverySplit.OneLastBranch` | rust/src/canonicity/canonical_chain_discovery.rs:76-97 | there is only one such branch, so the answer is determined |

## Left out

- Branches.Branch: a branch is owned by the state's field or list and never shared, so an update in place is a new value in that field or list; the children's order, on which no result depends, is not kept.
- Account steps: the assertions on the delegator's key and on the amount of a creation fee, and the logged mismatches of key and token, are not modelled; delegation lists, actions and events tables are not kept.
- Column families, write batches, key layouts, events and serialisation: column families are maps and sets.
- 32-bit overflow of heights, lengths and counts, and overflow of balances: integers are unbounded, except that subtraction saturates where the original does; other subtractions are shown not to go below zero.
- BestLedgerStores.BestLedgerStore.UpdateBestAccounts: the count of accounts is kept in `BestStores`.
- IndexerStates.IndexerState.UpdateCanonical: persisting ledgers, which it does on the way, is a step of its own in `StagedPipelines`; what is pruned afterwards does not touch them.
- IndexerStores.IndexerStore.SetBestBlock: user commands are not among its indexes; best accounts are moved in `BestStores`.
- BestStores.BestStore.SetBestBlock: that the table is the fold to the new tip is stated one way; what one unapplied block leaves behind can be made up for by the next one.
- IndexerStores.IndexerStore.UpdateSnarks: the fees of SNARK provers are left out.
- IndexerStores.IndexerStore.AddCanonicalBlock: the lists of known genesis hashes and the production counts that are not of canonical blocks are left out.
- IndexerStores.IndexerStore.AddBlock: only the fields that the best-chain indexes read are stored.
- StagedLedgers.WriteAccounts: the table of staged accounts that is not sorted by balance, and each account's least height, are left out.
- StagedLedgerStores.StagedLedgerStore.GetStagedLedger: single staged accounts and their minimum-height shortcut are not modelled.
- Several genesis blocks: the comparison across the hardfork is one-sided, so every run has one genesis.
- The ledger built while initialising from discovered chains, and the choice of blocks to read back on a restart.
- Block parsing, staking ledgers, the file watcher, the web and command-line interfaces, and logging.
