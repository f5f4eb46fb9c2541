# A model of the concurrent multiversion B-tree

The engine keeps every version of every key. Pages are append-only, each entry carries the version
it was committed at, readers ask for any old version and take no latches, and reorganizations copy
what is live into fresh pages. This project models six connected parts of it and proves what ties
them together.

**The tree** (`Pages`, `Fill`, `Smo`, `TreeModel`, `LeafWrites`, `LeafSteps`, `Reorg`, `ParentReorg`,
`NewPages`, `RootReorg`, `Publish`, `PublishRoot`, `ParentStores`, `Repairs`, `RootRepairs`, `Alloc`,
`Snapshots`, `TreeSteps`, `PageFate`, `Mvbt`, `Guarantees`). `Mvbt.MvbTree` is the tree as the program
runs it, store by store: allocation from the graveyard, `split`, `merge`, overflow and underflow
repairs, root repairs, the write descent, insert, update, delete and the point read. Its specification is
`History`: a list of commits and the plain map one gets by replaying them up to a version. The
invariant `TreeModel.Inv` is local: every page that is part of the tree at a version answers, or
passes on, every key of its fence as the history says; the step lemmas show that each operation
keeps it, and the methods carry it from the first store to the last.

**Reads** (`RangeIter`, `Stability`, `Readers`, `RangeReaders`, `RangeEnds`). The lazy range iterator
as an object; every single store of every operation as harmless for readers below its version; and a
point reader as a state machine that loads a root, then lengths and slots one by one, with any number
of writers storing in between. `RangeReaders` does the same for range reads, and `RangeEnds` bounds
their loads.

**Latches** (`Olc`). Optimistic latch coupling over all interleavings: version reads, unvalidated
child pointers, validation, compare-exchange upgrades, version bumps on release.

**Clock** (`Clock`, `InFlight`, `Overtaking`, `Notices`). The commit clock with every load, store,
fetch-max and compare-exchange of a scan as a step of its own; when a commit in flight stays
invisible and when it can be overtaken; what the dirty flag guarantees.

**Garbage collection** (`Trackers`, `Weave`, `WeaveBelow`, `WeaveRoot`, `WeaveJobs`, `Gc`, `GcProof`,
`GcPublish`, `GcSafety`, `GcExact`, `GcLoss`, `GcRace`, `GcOrphan`). The two trackers as objects, and
one machine of the commit clock, the tree with all its writers and their latches, readers that pin,
draw a snapshot and walk down, and allocators that compose a bound and hand dead pages out again.
Other writers publish between the draw of a version and the publication at it. A reorganization may
draw whenever the program lets it; under which two conditions that is safe is proved, and so is what
happens when one of them fails.

**Root index and page layout** (`FrugalList`, `Words`, `PageObjects`). The skip list of roots, the
packed words, and the two page kinds as fixed regions written in place.

## Assumptions

- Stored keys lie strictly below the largest key, because the successor of a key saturates there
  (`src/mv_tree/mvbt.rs:70`). Only the range iterator needs it.
- Snapshots are at least 1, the version of the first root.
- Versions stay below 2^63, because the top bit is a flag. Page values keep version and flag apart;
  `Words` shows when that is sound.
- Page capacity is a parameter of at least 8; nothing is claimed for smaller pages.
- A commit is invisible until it ends if the committing thread has an active slot that has held the
  watermark back (`InFlight.Watched`); nothing is assumed about the other threads. A commit that
  starts with an inactive slot, as the first one of every thread does, can be overtaken.
- Safety of recycling is claimed for readers that pin before they draw their snapshot and keep the
  pin until they are done, and for reorganizations that meet two conditions when they draw their
  version. They are *founded* (`Gc.Founded`): the parent is part of the tree, nobody who reorganizes
  right below the root is in the way of a replacement of the root, nor the other way round. And they
  are *shielded* by their own slot (`InFlight.Shielded`). The program checks neither. In all runs of
  `Olc` that replace roots only while their latch is free, every repair is below a page of the tree
  (`Olc.RepairIsBelowLive`). Neither condition can be dropped: see below.
- Each load, store and compare-exchange is one atomic step, in one order for all threads.
- `MvbTree.oldest` stands for the bound the allocator composes; `GcSafety` proves what that bound is worth.
- In `Olc` a reorganization is one step of the thread that holds its latches, and its result is a
  sound tree; that is what `Repairs` and `RootRepairs` prove. Entries another thread reads from a
  latched page are arbitrary there.

## What the proofs brought to light

- `split_root` and `merge_root` latch the root index and, for a merge, the child, but not the page of
  the root they replace. A thread that still holds the latch of that page walks on into replaced
  pages and can latch a leaf that is no longer part of the tree (`Olc.LatchedRootIsLost`). Replacing
  the root is safe exactly when its latch is free (`Olc.ReplaceIsSafeIffUnlatched`), and in all runs
  in which that holds the descent is correct (`Olc.LockedLeafIsHome`).
- A draw keeps the invariant of the garbage collection if and only if it is founded and shielded
  (`GcProof.DrawIsSafeIff`). What a reader stands to lose without one of them:
  - *The shield.* The slot shields the version if and only if the other threads cannot bring a reader
    to a snapshot at or above it (`GcExact.ShieldedIffReadersStayBelow`). From any reorganization
    under way that the watermark can pass, the others can go on until a pinned reader stands on the
    page about to die, and then, whatever is published in its place, until an allocator has that page
    with the reader still on it (`GcLoss.UnshieldedLoses`). A thread that has not committed yet draws
    like that: `GcRace.UnshieldedReaderIsLost` is a run from the start of the program.
  - *The live parent.* A reorganization below a parent that has been replaced registers pages as dead
    that the current root still leads to, and an allocator can get hold of them under a pinned reader
    (`GcLoss.OrphanLoses`). It happens when a root is merged while another thread has it latched;
    `GcOrphan.MergedRootLosesPage` is such a run, and all its draws are shielded.
- If no commit slot is active, one allocation drives the watermark from below the clock to the
  largest version (`Clock.WatermarkDrains`, from the start of the program). A reclaiming call does so
  exactly if it scans without meeting an active slot; it never happens if the reclaiming thread's own
  slot is active.
- The watermark can stay behind two announced commits with a clean flag and all threads idle, when
  the scan that took them up had read the clock before (`Notices.WatermarkStaysBehind`, from the start
  of the program).
- A thread that holds the latch of a root above a leaf can always go on to latch the replaced leaf
  once another thread has merged that root (`Olc.MergedRootHolderIsLost`).
- `merge_root` never registers the replaced root itself as dead, only its child, so that page is not
  reused. The model does the same.
- A delete that fails has drawn a version and never ends its commit. The model draws it too.
- An iterator may return nothing before it is marked as completed, when its bound has reached the
  largest key; it still has delivered everything then, and its registration is released on drop.

## Model

| member | source | states |
|---|---|---|
| Mvbt.MvbTree.Insert | src/mv_query/dispatch.rs:30-64 | the insert succeeds exactly if the replayed history lacks the key; then the history grows by this one commit at the drawn version; readers of older snapshots notice nothing |
| Mvbt.MvbTree.Update | src/mv_query/dispatch.rs:65-148 | without the in-place branch: succeeds exactly if the key is there, and appends exactly this update to the history; a failure says whether the leaf of the key holds any record of it |
| Mvbt.MvbTree.Delete | src/mv_query/dispatch.rs:149-194 | succeeds exactly if the key is there, and appends exactly this delete; a failure draws a version all the same and says whether the leaf of the key holds any record of it |
| Mvbt.MvbTree.ExecuteAll | src/mv_query/dispatch.rs:28-194 | after any sequence of operations, with all reorganizations they trigger, the newest version of the tree is the map one gets by executing them on a plain map; the last one has left its key deleted, updated or inserted and all other keys as they were |
| History.ExecuteLast | src/mv_query/dispatch.rs:28-194 | what one more operation does to the plain map, key by key: a deleted key is gone, a present key is updated, an absent key is inserted, every other key stays |
| History.AtIsLastWrite | src/mv_query/query.rs:140-158 | at every version a key has what the last write to it up to that version left there |
| Mvbt.MvbTree.PointRead | src/mv_query/query.rs:59-158 | at every kept snapshot a point read from the root of that snapshot returns the history replayed up to it, and the leaf lies exactly at the height stored with the root |
| Mvbt.MvbTree.WriteDescent | src/mv_query/olc_query.rs:24-193 | run alone, the descent always ends in the safe leaf of its key, with at most one repair per level and one version drawn per repair, and changes no data |
| TreeSteps.OneLeafPerKey | src/mv_query/olc_query.rs:108-193 | exactly one page of the tree is the leaf of a key |
| Mvbt.MvbTree.RetrieveRoot | src/mv_query/olc_query.rs:65-105 | one repair is enough for a safe root |
| Mvbt.MvbTree.OnOverflow | src/mv_tree/smo.rs:195-265 | keeps invariant and history; afterwards every key of the split child leads to a safe child, and the child is the page buried last |
| Mvbt.MvbTree.OnUnderflow | src/mv_tree/smo.rs:267-394 | a safe parent always has a key-adjacent sibling to merge with, and it is the right one unless the child is the last; keeps invariant and history; afterwards every key of the merged child leads to a safe child, and exactly child and sibling are buried last |
| Mvbt.MvbTree.SplitRoot | src/mv_tree/smo.rs:893-960 | one new root is appended, it is safe, nothing readers find changes, and the page it was made from is buried last |
| Mvbt.MvbTree.MergeRoot | src/mv_tree/smo.rs:852-890 | a root with one child gives way to a safe root that is not higher |
| Mvbt.MvbTree.SplitBlock | src/mv_tree/smo.rs:666-848 | the new pages hold the outcome of the split; the tree itself is untouched |
| Mvbt.MvbTree.MergeBlocks | src/mv_tree/smo.rs:396-663 | the new pages hold the outcome of the merge; the tree itself is untouched |
| Mvbt.MvbTree.AllocBlock | src/mv_block/block_handle.rs:235-266 | takes a page out of the graveyard exactly if one died below the bound, then the first one by death and registration, and a new one otherwise; no kept snapshot loses a page |
| Mvbt.MvbTree.RegisterDead | src/mv_gc/block_tracer.rs:65-67 | adds exactly the page that died to the graveyard |
| PageFate.NoPageIsLost | src/mv_block/block_handle.rs:235-266 | every operation states that it takes no page it does not publish; so between operations every page is part of the tree, or dead and in the graveyard, or a root that was replaced without being registered |
| TreeModel.EmptyTreeInv | src/mv_root/index_root.rs:23-30 | a new tree, one empty leaf under one root of version 1, satisfies the invariant |
| LeafWrites.WriteKeepsInv | src/mv_query/dispatch.rs:30-194 | one write in the leaf of its key keeps the invariant with the write at the end of the history |
| LeafWrites.NewestAnswer | src/mv_query/dispatch.rs:40-47 | what a point read finds at the newest versions is the live record of the key, the last one with that key |
| LeafSteps.InsertWrites | src/mv_query/dispatch.rs:49-61 | push and length store give an exact leaf whose answers change for this key from this version on, and nowhere else |
| LeafSteps.UpdateWrites | src/mv_query/dispatch.rs:129-145 | the new record first, the end of the old one then: an exact leaf with one live record of the key, same answers below the version |
| LeafSteps.DeleteWrites | src/mv_page_model/leaf_page.rs:250-267 | stamping the last record ends its key from the version on, and nothing else |
| Snapshots.NewMetaKeeps | src/mv_tree/smo.rs:257-262 | pages that die at the drawn version stay part of the tree at all older snapshots |
| Smo.SplitConserves | src/mv_tree/smo.rs:666-848 | the outputs of a split hold exactly the live units as a bag, in halves, each inside its own fence and ordered by version; the fences cut the old one in two, at the first key of the second half; two outputs exactly from four fifths of the capacity on |
| Smo.MergeConserves | src/mv_tree/smo.rs:478-662 | merged or redistributed in halves, the outputs hold exactly the live units of both pages, each inside its own fence and ordered by version; merged exactly within four fifths of the capacity |
| Smo.CandidateIsAdjacent | src/mv_tree/smo.rs:421-460 | the merge candidate exists unless the child is alone; it starts right behind the child, or ends right before it if the child is the last |
| Fill.RedistributedHalves | src/mv_tree/smo.rs:536-563 | otherwise both redistributed halves are safe and fit |
| Fill.WhenSafe | src/mv_tree/smo.rs:34-82 | a page is safe exactly if one more active unit can go with a fifth of the capacity left and the entries of one repair, or one record, still fit; and when it overflows or underflows otherwise |
| Fill.FineHasRoom | src/mv_block/block_handle.rs:158-180 | a safe internal page has room for the two entries of a repair, a safe leaf for one record |
| ParentStores.StoredOneReplaces | src/mv_tree/smo.rs:223-252 | pushes, length and one mark add up to the replacement of one child, and the counters are exact again |
| ParentStores.StoredTwoReplaces | src/mv_tree/smo.rs:308-381 | pushes, length and two marks add up to the replacement of two children, and the counters are exact again |
| ParentReorg.RouteKept | src/mv_query/query.rs:80-87 | versions below the reorganization, and keys outside the replaced fences, are routed as before |
| ParentReorg.RouteFresh | src/mv_query/query.rs:80-87 | from its version on, a replaced key is routed to the one new page whose fence contains it |
| ParentReorg.ReplaceKeepsInv | src/mv_tree/smo.rs:195-394 | replacing children by pages for the same keys keeps the whole invariant |
| Repairs.OverflowKeepsInv | src/mv_tree/smo.rs:195-265 | splitting an overflowing child of any page keeps the invariant |
| Repairs.UnderflowKeepsInv | src/mv_tree/smo.rs:267-394 | merging an underflowing child of a safe page keeps the invariant |
| Repairs.SafeParentHasNeighbour | src/mv_tree/smo.rs:438-460 | a safe parent has a key neighbour for every active child, so a merge never lacks a sibling |
| RootRepairs.RootRepairKeepsInv | src/mv_tree/smo.rs:852-960 | replacing an unsafe root keeps the invariant and leaves a safe root |
| RootRepairs.SingleChildSpans | src/mv_tree/smo.rs:863-866 | the last child of a root with one active entry spans the whole key space |
| NewPages.SameNewest | src/mv_tree/smo.rs:666-848 | a reorganized leaf answers the newest versions like the leaf it comes from |
| Guarantees.ChosenEntriesTile | src/mv_query/query.rs:80-87 | at every version a page can be read at, the last fitting entries tile its fence without gap and without overlap |
| Guarantees.LeafCountersExact | src/mv_page_model/node.rs:20-38 | active and dead count the live and the ended records, and a live record is the last of its key |
| Guarantees.FillingHolds | src/mv_tree/smo.rs:121-123 | every page but the root keeps a fifth of its capacity active |
| Guarantees.LastEntryActive | src/mv_page_model/internal_page.rs:290-292 | the last entry of an internal page is active, and spans the page if it is the only active one |
| Pages.PointAnswerIsLastHit | src/mv_query/query.rs:146-152 | skipping the newest records first never changes what a point read finds |
| RangeIter.RangeQueryIter.Next | src/mv_query/iter_query.rs:90-162 | each record of the interval at the snapshot is delivered once, in the order of the slots of its leaf and in ascending key ranges from leaf to leaf; a call with nothing left completes the iterator and releases its one registration |
| RangeIter.RangeQueryIter.TakeLeaf | src/mv_query/iter_query.rs:141-155 | a leaf contributes exactly its records between the bound and its end, in the order of its slots, above everything delivered before, and the bound moves behind it |
| RangeIter.RangeQueryIter.Drop | src/mv_query/iter_query.rs:37-44 | a drop takes one registration of the snapshot out of the tracker exactly if the end has not been reported, so no iterator releases twice or never |
| RangeIter.BatchCollects | src/mv_query/iter_query.rs:141-151 | the records taken from one leaf extend what is collected up to the end of its fence |
| RangeIter.TopRoute | src/mv_query/iter_query.rs:119-139 | an entry for the bound is found exactly if the bound lies in the fence of the top page |
| RangeIter.RangeQueryIter.constructor | src/mv_query/iter_query.rs:53-64 | registers the snapshot once and starts at the root of the snapshot with nothing delivered |
| RangeIter.IterStays | src/mv_query/iter_query.rs:26-30 | stack, bound and everything delivered or buffered stay right at a kept snapshot across whole operations of other threads |
| RangeIter.RangeQueryIter.ValidSurvives | src/mv_query/iter_query.rs:90-162 | between two calls other threads may run operations and register readers: the iterator stays valid while its snapshot is kept |
| Stability.SameRoute | src/mv_page_model/time_matcher.rs:52-54 | no harmless store changes the turn a reader below its version takes |
| Stability.SameAnswer | src/mv_query/query.rs:140-158 | no harmless store changes a point answer below its version |
| Stability.SameBatch | src/mv_query/iter_query.rs:141-151 | nor what a range read takes from a leaf, nor its order |
| Stability.SameRoot | src/mv_tree/smo.rs:918-933 | nor does an appended root change the root of an older snapshot |
| Stability.UpdateStores | src/mv_query/dispatch.rs:132-145 | each of the four stores of an update is harmless below its version |
| Stability.OverflowStores | src/mv_tree/smo.rs:223-252 | each store of an overflow repair is harmless below its version |
| Stability.UnderflowStores | src/mv_tree/smo.rs:308-381 | each store of an underflow repair is harmless below its version |
| Readers.RunAnswers | src/mv_query/query.rs:68-158 | in every interleaving with writers above its snapshot, also from the middle of their operations, a latch-free reader that is done has the answer of the history |
| Readers.ReaderCanStep | src/mv_query/query.rs:80-88 | the reader is never stuck, so no lookup it unwraps fails |
| Readers.ReaderAdvances | src/mv_query/query.rs:74-88 | every load of the reader lowers a natural number, whatever the writers do |
| Readers.RunIsBounded | src/mv_query/query.rs:68-158 | in every interleaving a point read makes at most (height + 1) times (capacity + 2) loads and one more |
| Readers.StartsOk | src/mv_query/query.rs:59-67 | a tree between two operations is one of the states a run may begin in |
| RangeReaders.RangeRunAnswers | src/mv_query/iter_query.rs:90-162 | in every interleaving with writers above its snapshot a range reader that is complete has exactly the pairs of the interval, one per key; a pair with a smaller key follows one with a larger key only if one leaf of the snapshot has both |
| RangeReaders.RangeCanStep | src/mv_query/iter_query.rs:107-158 | whatever the writers have stored, the range reader has a next step until it is complete |
| RangeEnds.RangeAdvances | src/mv_query/iter_query.rs:107-158 | every load of the range reader lowers a natural number: first the leaves ahead of the bound, then the stack and the place on its top page |
| RangeEnds.RangeRunIsBounded | src/mv_query/iter_query.rs:90-162 | in every interleaving a range read ends: its loads are bounded by the pages, the height and the capacity of the tree it began in |
| Olc.LockLeafStep | src/mv_query/olc_query.rs:182-191 | a successful upgrade of a leaf latches the live leaf whose fence contains the key |
| Olc.LockedLeafIsHome | src/mv_query/olc_query.rs:108-193 | in every interleaving that replaces roots only while their latch is free, a latched leaf is live, has the key in its fence, and is the leaf a search for the key from the root comes to |
| Olc.ValidateStep | src/mv_query/olc_query.rs:144-162 | validating the parent after reading the version of the child makes the guard of the child trustworthy |
| Olc.StartsGood | src/mv_query/olc_query.rs:24-40 | any sound tree without latches is a state to start from |
| Olc.HomeIsReached | src/mv_query/olc_query.rs:108-193 | in a tree whose live pages tile and do not overlap, the live page of a height with the key in its fence is the one reached from the root by the key |
| Olc.RepairIsBelowLive | src/mv_query/olc_query.rs:152-180 | in every such interleaving whoever has latched a page and the child it repairs has latched pages of the tree, the child right below the page |
| Olc.StepKeepsGood | src/mv_sync/smart_cell.rs:194-287 | every such step keeps what each thread may conclude from an untouched version or a held latch |
| Olc.ReplaceIsSafeIffUnlatched | src/mv_query/olc_query.rs:92-104 | replacing the root keeps these conclusions if and only if nobody holds the latch of the root page |
| Olc.MergedRootHolderIsLost | src/mv_tree/smo.rs:852-890 | whenever a root above a leaf is merged while another thread holds its latch on the way down, that thread alone can go on to latch the replaced leaf |
| Olc.LatchedRootIsLost | src/mv_tree/smo.rs:863-881 | a run of two threads, from the start, that ends with a latch on a leaf that is not part of the tree |
| FrugalList.AtomicFrugalList.Find | src/mv_root/frugal_root.rs:155-173 | returns the newest root of version at most the given one, as a scan of the whole list does, and nothing exactly if all are newer |
| FrugalList.AtomicFrugalList.AppendTower | src/mv_root/frugal_root.rs:128-152 | appends the root as a node of the given level, linked to the old head, with a ridge to the nearest older node of at least its level; the sentinel always stops the climb |
| FrugalList.AtomicFrugalList.AppendNext | src/mv_root/frugal_root.rs:112-125 | appends the root as a flat node whose next and ridge are the old head, and keeps every ridge |
| FrugalList.FindAgreesWithScan | src/mv_root/index_root.rs:306-318 | list and skip list agree exactly on snapshots from the oldest root on |
| Clock.ResultsNeverDecrease | src/mv_sync/clock.rs:160-189 | with scans interleaved in any way, what a call returns bounds all later results from below |
| Clock.ResultIsWatermark | src/mv_sync/clock.rs:167-188 | every result is the value of the watermark at that load or fetch-max |
| Clock.ReclaimKeepsBelowIff | src/mv_sync/clock.rs:164-189 | in every sound state a reclaiming call leaves the watermark at or below the clock if and only if it did not scan or its scan met an active slot |
| Clock.AnchoredStaysBelow | src/mv_gc/tracker_handle.rs:100-101 | in every run in which reclaiming threads have an active slot of their own no result passes the clock |
| Clock.WatermarkDrains | src/mv_gc/tracker_handle.rs:101-101 | a run from the start of the program, with one reclaiming call that takes the watermark from below the clock to the largest version when no slot is active |
| InFlight.InFlightIsInvisible | src/mv_sync/clock.rs:173-235 | while the slot of one thread stays active and watched, nothing returned reaches the version it is committing, whatever all other threads do |
| InFlight.WatchBegins | src/mv_sync/clock.rs:197-202 | a slot is watched from the end of a commit that is not behind the watermark and that no running scan has missed |
| Overtaking.ShieldedIffNeverPassed | src/mv_sync/clock.rs:164-235 | the slot of a committing thread shields its version if and only if no continuation by the other threads returns that version or more |
| Overtaking.InactiveSlotIsOvertaken | src/mv_sync/clock.rs:192-235 | from any sound state a commit that starts with an inactive slot has a continuation by the other threads that returns its version while it is in flight |
| Notices.RunLosesNothing | src/mv_sync/clock.rs:164-202 | in every run, unless the flag is dirty all announcements came before one scan that still runs on its thread or has left at least the smaller of the slots and its clock reading in the watermark |
| Notices.CleanWatermark | src/mv_sync/clock.rs:170-189 | with a clean flag and no scan under way the watermark is at least the smaller of the slots and the clock reading of the covering scan |
| Notices.CatchesUpIff | src/mv_sync/clock.rs:173-182 | the fetch-max of the covering scan lifts the watermark to the slots if and only if it was there already or the clock reading of the scan is |
| Notices.QuietIsExact | src/mv_sync/clock.rs:164-189 | with nothing under way, and the clock read late enough by the covering scan, the watermark is the least active slot |
| Notices.FrozenUntilAnnounced | src/mv_sync/clock.rs:164-202 | a watermark left behind with a clean flag and no scan under way stays where it is until the next announcement |
| Notices.WatermarkStaysBehind | src/mv_sync/clock.rs:164-202 | a run from the start of the program that ends with a clean flag, idle threads and a watermark below the announced slot |
| Notices.ProgramStarts | src/mv_sync/clock.rs:22-26 | the clock as the program finds it satisfies every invariant used here |
| Trackers.TransactionTrace.PeekMin | src/mv_gc/query_tracer.rs:56-67 | the true minimum of registered readers and pins, or nothing if there are none |
| Trackers.TransactionTrace.OnTxCompleted | src/mv_gc/query_tracer.rs:100-109 | takes one registration of the snapshot out of the multiset, or none if there is none |
| Trackers.TransactionTrace.OnTxStart | src/mv_gc/query_tracer.rs:94-96 | adds one registration to the multiset, however many share the snapshot |
| Trackers.TransactionTrace.Pin | src/mv_gc/query_tracer.rs:71-75 | adds a pin under a ticket nobody else has |
| Trackers.BlockTrace.PopMinIf | src/mv_gc/block_tracer.rs:53-62 | hands out a page exactly if one died below the bound, the first by death and registration, and takes exactly it out |
| Trackers.BlockTrace.RegisterDiedPage | src/mv_gc/block_tracer.rs:65-67 | adds the page and replaces none that died at the same version |
| Weave.SewsKeepsWoven | src/mv_tree/smo.rs:195-394 | a publication at a version drawn earlier keeps every reader on pages of its snapshot, with others published since |
| WeaveBelow.BelowKeepsWoven | src/mv_tree/smo.rs:195-394 | so does replacing latched children below a latched parent, in particular |
| WeaveRoot.RootKeepsWoven | src/mv_tree/smo.rs:852-960 | and so does replacing the root, by a copy or by two halves and a root above them |
| WeaveJobs.AvoidsStays | src/mv_tree/smo.rs:195-394 | what other writers publish never leads a reader from a version on to the pages that are about to die at it |
| GcProof.BoundIsBelow | src/mv_gc/tracker_handle.rs:100-108 | committed snapshot first, announced readers then: the bound lies at or below every snapshot in use or still to be drawn |
| GcProof.DrawIsSafeIff | src/mv_tree/smo.rs:195-394 | a draw keeps that invariant if and only if its parent is part of the tree with no replacement of the root in the way, and its slot shields the version |
| GcPublish.PublishedKeeps | src/mv_tree/smo.rs:195-394 | a publication leaves readers on pages of their snapshots, other writers with what they latched, and every page with one owner |
| GcSafety.StartIsOk | src/mv_root/index_root.rs:23-30 | the program before its first call satisfies the invariant of the machine |
| GcSafety.RunIsOk | src/mv_gc/tracker_handle.rs:91-109 | in every run in which reorganizations draw their versions founded and shielded, the invariant of clock, tree, readers, writers and allocators holds in every state |
| GcSafety.PinnedReadersAreSafe | src/mv_gc/query_tracer.rs:159-169 | in every state of every such run, whatever a reader stands on or can still visit for any key is with nobody, and if it has died then above the snapshot |
| GcSafety.HandedOutIsUnreachable | src/mv_gc/tracker_handle.rs:100-108 | no page handed out in such a run is one a pinned reader stands on or can still visit |
| GcSafety.ReaderGoesOn | src/mv_query/query.rs:59-88 | a reader always finds its root, and above the leaves a child to go on to |
| GcSafety.OnePlace | src/mv_gc/block_tracer.rs:53-67 | a page is part of the current tree, or dead and registered once, or with exactly one thread |
| GcSafety.WatchedIsShielded | src/mv_sync/clock.rs:232-236 | a thread with a watched slot may draw: its next version is shielded |
| GcExact.ShieldedIffReadersStayBelow | src/mv_gc/query_tracer.rs:162-169 | while a thread commits a version, its slot shields it if and only if the other threads, whatever they do, cannot bring a reader to a snapshot at or above that version |
| GcLoss.DoomedIsHandedOut | src/mv_gc/block_tracer.rs:53-62 | a dead page can be handed out once the watermark and all pins are above its death, whoever stands on it |
| GcLoss.UnshieldedLoses | src/mv_tree/smo.rs:195-394 | from any reorganization under way that the watermark can pass, the others can bring a pinned reader onto the page about to die, and whatever is published then, an allocator can get the page under it |
| GcLoss.UnshieldedRootLoses | src/mv_tree/smo.rs:852-960 | so it is whenever the root is being replaced at a version drawn without a shield |
| GcLoss.OrphanLoses | src/mv_query/olc_query.rs:163-172 | once a reorganization below a replaced parent has published, an allocator can get a page the current root leads a pinned reader to |
| GcRace.UnshieldedReaderIsLost | src/mv_query/olc_query.rs:92-104 | a run from the start of the program: a full root leaf is split by a thread that has not committed yet, and an allocator gets it under a pinned reader; only the draw is not shielded |
| GcOrphan.MergedRootLosesPage | src/mv_tree/smo.rs:852-890 | a run in which a root is merged while latched, and its holder then splits an overflowing child below the dead page: all draws are shielded, and an allocator gets the child under a pinned reader |
| Words.PackedRoundTrip | src/mv_page_model/node.rs:28-38 | both counts survive packing as long as each fits into 16 bits, and the packed word then is the sum the page objects compute with |
| Words.MarkIsInvisible | src/mv_page_model/time_matcher.rs:22-54 | marking a version obsolete does not change what readers compare, and below the flag adds it, as the page objects do |
| Words.DeletionRoundTrip | src/mv_record_model/version_info.rs:19-48 | a deletion version is read back exactly if it is below 2^63 |
| PageObjects.LeafPage.Delete | src/mv_page_model/leaf_page.rs:250-267 | in place: ends the last record of the key if it is live, and reports the other two cases without a change |
| PageObjects.LeafPage.DeleteAfterUpdate | src/mv_page_model/leaf_page.rs:270-288 | the same among all records but the newest |
| PageObjects.LeafPage.BulkPush | src/mv_page_model/leaf_page.rs:187-227 | the region then starts with exactly the given records, all active |
| PageObjects.LeafPage.CommitDelta | src/mv_page_model/leaf_page.rs:154-161 | one store of the packed length moves both counters by the given amounts |
| PageObjects.InternalPage.PushUncommitted | src/mv_page_model/internal_page.rs:126-143 | writes one slot of the three regions and nothing a reader counts |
| PageObjects.InternalPage.MarkVersionObsolete | src/mv_page_model/internal_page.rs:372-379 | sets the flag of one version word and keeps the version |
| PageObjects.InternalPage.BulkPush | src/mv_page_model/internal_page.rs:181-246 | the three regions then start with exactly the given entries, all active |

## Left out

- Mvbt.MvbTree.Update: does not model the in-place branch, which rewrites history on purpose and has another specification.
- Mvbt.MvbTree.Delete: the reason of a failure is stated by what the leaf holds, not by the history: after a reorganization has dropped the ended records of a key, the leaf cannot tell it from a key that never was there. The same goes for updates.
- Mvbt.MvbTree.WriteDescent: runs alone; retries and interference are the subject of Olc.
- Mvbt.MvbTree.PointRead: asks the root index as a list; FrugalList proves that the skip list answers the same.
- Mvbt.MvbTree.AllocBlock: a reused page starts with blank slots; what the slots of a reused region hold before it is filled is not modelled.
- The latches (`Olc`), the interleaved readers (`Readers`, `RangeReaders`), the sequential tree (`Mvbt`) and the garbage collection (`GcSafety`) are separate theorems; that concurrent writers together produce one history which all readers see is not one statement.
- Olc.StepKeepsGood: the stores inside one reorganization are one step; a split that reads a root while another thread is still writing it is the excluded case.
- GcSafety.RunIsOk: in the machine a reorganization publishes by one store and its marks are part of it, the contents of leaves do not matter, and readers keep their pin until they are done; readers that only register their snapshot are outside the claim. Registered readers can only lower a bound, so the machine lets an allocator see any of them.
- GcExact.ShieldedIffReadersStayBelow: asks that no third thread has a reorganization under way; the half from the shield to the readers holds without that (GcExact.ShieldKeepsReaders).
- GcLoss.UnshieldedLoses: speaks of versions the watermark can pass, not only reach. A reader whose snapshot is exactly the version in flight has its pin at or below it, and no loss is shown for that one.
- GcLoss.OrphanLoses: speaks of parents that have been replaced before the draw. A replacement of the root between the draw and the publication of its holder breaks the invariant (GcProof.DrawIsSafeIff), and no loss is shown for that order.
- GcOrphan.MergedRootLosesPage: begins in a sound state with a tree of height three, which is not shown to be reached from the start of the program.
- Olc.MergedRootHolderIsLost: speaks of a merged root above a leaf. After a split of a latched root its children stay part of the tree, so not every such step leads to a dead leaf.
- PageObjects.InternalPage.CommitDelta: counters are numbers; that shifts and masks compute them is shown in Words on machine words.
- Update-in-place mode and the newest live snapshot (`peek_max`), which only that mode asks for.
- The eager range path, which is switched off and treats an exact version hit differently from the lazy one.
- Random operations and the random descent: benchmark helpers without the validation of the parent.
- Commit slots in the sequential tree: they belong to Clock.
- Thread registration and its recycling of thread numbers beyond handing out the next free slot.
- Memory orderings, weak compare-exchange failures other than a plain failure, hardware lock elision, back-off.
- Raw memory: unions, uninitialized regions, reference counts, drops of payloads.
- The skip-list and B+-tree root indexes, thin wrappers over external crates.
- The benchmark drivers, baseline systems, statistics and the C interface.
- The debug assertion that a version split of a leaf finds 40 percent live records; it does not hold for roots and is not claimed.
