# Verified model of a disk-based dynamic graph store

This project models the core of the bw_graph database in Dafny 4.11 and proves properties of the
model: how a page of adjacency lists is consolidated under concurrent readers and writers without a
read noticing, how its old copy is reclaimed, how snapshots and their watermark behave, the buffer
pool, the graph algorithms with their block primitives, page packing, the byte codecs, and the
allocator of the skewed edge generator. `dafny verify dfyconfig.toml` checks all of it.

## The parts

**Consolidation.** A vertex has a stored list and a chain of insert and delete records; the same
records form a log per page. `Replay`, `DeltaChain` and `MergeGraph` relate the newest-first walk of
the reader to the oldest-first replay of the merge. `Consolidation` is a state machine whose steps
are the critical sections of writers, the phases of the consolidation worker, one drained stray and
one switched vertex; any number of pages may be under consolidation at once. `ConsolidationRuns` has
the main theorem, an equivalence: after any run a read is right if and only if no edge of the vertex
is in the middle of a drain. `ConsolidationLimits` gives the exact conditions under which the protocol is not invisible,
each with a run that reaches it; `ConsolidationReaders` does so for readers that walk their chain
late, and `ConsolidationRaces` for a page rebuilt while vertices are still on their way to it.
`ConsolidationGiants` says which lists move to the giant store. `PageMap` (linked delta pages in place) and `Store` (the whole
database object) are imperative and refine the state machine step by step.

**Snapshots and transactions.** `Snapshot` shows when merging below the watermark keeps the view of
a reader, exactly; `Txn` holds the watermark, the transaction manager with its pruned history, and
commit.

**Reclamation.** `Reclaim` is a state machine of vertex versions, protecting readers, reclaim
batches, frame latches and pins, and disk slots; `VersionIndex` holds the mutable version table and
slot allocator that refine it.

**Buffer pool.** `FrameLists` holds the two doubly linked lists with the clock hand, in place;
`BufPool` proves that the pool refines a map from page number to content.

**Algorithms.** `Graph` and `Distance` define components and distances; `Components`, `Bfs` and
`MinLabel` prove Shiloach-Vishkin, direction-switching search and label propagation; `Blocks` and
`EdgeScan` prove the parallel primitives, with `Selection` for sublists in order.

**Layout and codecs.** `Packing`, `Ptv`, `NeighborCodec`; and `WaterFill` for the capped allocator.

## What is assumed

- One step of the consolidation machine is atomic. The forwarder probe and the append that follows
  it (src/page_map.cc:229-241) are one step.
- A page has one consolidation at a time (src/page_map.cc:289-301). It may be one that another
  consolidation is still moving vertices to, which src/db_dyn.cc:83-135 does not prevent.
- The replacement of a page is prepared when no vertex is on its way to that page (`Ordered`). The
  code does not enforce this. The condition is exact (`PrepareIsHarmless`), and a run that breaks it
  ends in the failed compare-and-swap and loses a write (`RaceLosesAWrite`). Reclamation does not
  need it: no page is freed too early, but one may never be freed (`StaleNeverFrees`).
- A reader takes list and chain head in one step; `LateReaderExact` says what the walk returns if it
  comes later. `read_neighbor_clone` reads the giant flag in one latch section and the chain head in
  another (src/db.cc:166-184, src/db.cc:200-216): a vertex promoted in between is read with an
  invalid head and without its chain, which the one step excludes. It also excludes that the list of
  a giant vertex is written between the release of the latch and the read of that list.
- A rerouted write does not contradict a record of the same edge that still waits on the old page
  (`Ordered`). Without this the write is lost (`ContradictingWriteIsLost`), such a schedule exists
  (`LostWriteIsReachable`), and the condition is exact (`OrderedIsExact`).
- New pages are fresh, and which vertex goes to which of them is arbitrary.
- Two versions of a vertex are never taken for one another: that the compare-and-swap might meet a
  reclaimed version's address again is left out.
- `begin_txn` reads the time and registers in one step; commit is one step.
- A snapshot is stable as long as no merge revives an edge for it. A log without a deletion before an
  insertion of the same edge is enough (`NoReinsertStable`), but the re-insertion of deferred
  records can itself produce that order (`DeferralRevives`).
- A delta page holds at least one record.
- Parallel loops run their iterations one after another in an arbitrary order, each update being
  atomic. `HookKeeps` also covers roots read earlier than they are used.
- Folly's group codec is a parameter with one property, being self-delimiting; it can be met
  (`PlainIsSelfDelimiting`).
- Shift, mask and truncation are those of 32-bit and 8-bit words in `Ptv`; other codecs use integers
  with explicit remainders. Weights in `WaterFill` are reals.

Where code and comments differ, the model follows the code: a slot that holds vertex 0 counts as
empty (`EmptySlot`), ids of 2^30 and more lose their top bits (`StreamIsExact`), `clear_all` keeps
the list of giants, and a visible deletion hides every visible insertion of its edge, whatever their
order.

## Model

| member | source | states |
|---|---|---|
| `Replay.RunIsVisible` | src/db.cc:217-272 | Replaying a log oldest first over a set and asking the newest record about an edge first give the same answer for every edge. |
| `Replay.RunMeans` | src/smo.cc:112-125 | After a log an edge is there if the last record about it is an insertion, or if there is none and it was there before. |
| `Replay.ReplayAbsorbs` | src/smo.cc:835-846 | Replaying a log over a base that already contains a prefix of it changes nothing: a re-inserted stray and a giant list written early leave reads as they were. |
| `Replay.RunConcat` | src/smo.cc:112-125 | Replaying two logs one after the other is replaying their concatenation. |
| `DeltaChain.ReadNeighborClone` | src/db.cc:217-272 | The newest-first walk with a seen-set over the base list yields, as a set, the base with the chain replayed oldest first. |
| `DeltaChain.WalkChain` | src/db.cc:221-239 | The deletions, and the insertions, collected by the walk are exactly the edges whose newest record is a deletion, or an insertion. |
| `DeltaChain.ChainSurvives` | src/io_delta.cc:83-127 | Whatever is inserted or prepended, a chain of records stays linked, acyclic and unchanged. |
| `MergeGraph.BuildMergedGraph` | src/smo.cc:76-133 | Every merged list is sorted, free of repetition, and equal as a set to what a reader of the page with the whole log as delta chain sees; the vertices are those of the page and those an edge was inserted for. |
| `MergeGraph.SortUnique` | src/smo.cc:127-130 | Sorting and deduplicating gives a strictly increasing list of exactly the same ids. |
| `MergeGraph.EdgeRecsMean` | src/smo.cc:96-125 | The merge takes up exactly the edge records of the log, in its order, each with its source, destination and kind. |
| `PageMap.DeltaStore.constructor` | src/page_map.cc:62-69 | A fresh store has empty chains, no page logs, and satisfies the representation invariant. |
| `PageMap.DeltaStore.GetOrCreateEntry` | src/page_map.cc:13-25 | The entry exists afterwards; a new one stands for an empty log; all others stay. |
| `PageMap.DeltaStore.PrependDeltaPage` | src/page_map.cc:122-136 | A fresh, empty page becomes the head and links to the former head; the invariant (acyclic page chain, count equal to its length, no sharing) is kept. |
| `PageMap.DeltaStore.InsertDelta` | src/io_delta.cc:83-127 | The record is appended if and only if a 24-byte header and its 32 bytes beside those of the records there fit the page; the page log grows by exactly it. |
| `PageMap.DeltaStore.InsertDeltaAndGetLoc` | src/page_map.cc:115-145 | The record is stored, whatever overflow and prepending that takes, and the page log grows by it; it fails exactly for a page size that holds no record. |
| `PageMap.DeltaStore.AppendRecord` | src/db_dyn.cc:66-81 | The write critical section: vertex chain and page log both grow by the record, all other chains and logs stay, and every vertex chain is still linked and acyclic. |
| `PageMap.DeltaStore.FetchDeltasWithMark` | src/page_map.cc:148-183 | Returns the whole log of the page, oldest first, leaves an empty one, and leaves every vertex chain. |
| `PageMap.DeltaStore.TruncateChainAt` | src/page_map.cc:203-216 | The chain of the vertex loses exactly the records below the boundary; no other chain changes. |
| `PageMap.DeltaStore.DropChainOf` | src/smo.cc:429-471 | The chain of the vertex is empty afterwards; no other chain changes. |
| `PageMap.CutUnderReader` | src/page_map.cc:203-216 | When a link is cleared under a reader that holds an older head, its walk loses exactly the records below the cut if the cut is below its head, and nothing otherwise. |
| `Consolidation.WriteKeeps` | src/db_dyn.cc:52-135 | A write under the vertex latch, direct or rerouted, keeps the invariant with the edge set changed by just that write. |
| `Consolidation.FetchKeeps` | src/smo.cc:768-771 | Taking the page log keeps the invariant and every edge set, also of a page that vertices are still being switched to. |
| `Consolidation.MergeKeeps` | src/smo.cc:811-888 | Merging the stored lists, storing giant lists early, preparing the versions and writing the new pages keeps the invariant and every edge set, for any assignment of vertices to fresh pages, if no vertex is on its way to the page. |
| `Consolidation.InstallKeeps` | src/page_map.cc:250-268 | Installing the forwarder keeps the invariant and every edge set. |
| `Consolidation.FetchStrayKeeps` | src/smo.cc:902-910 | Taking the strays off the old page keeps the invariant and every edge set. |
| `Consolidation.DrainKeeps` | src/smo.cc:911-934 | Re-inserting one stray at the head of its chain, on its new page, keeps the invariant and every edge set. |
| `Consolidation.SwitchKeeps` | src/smo.cc:429-471 | Switching one vertex under its latch (chain cut at the boundary record or dropped, type set, then the compare-and-swap of its version) keeps the invariant and every edge set. |
| `Consolidation.DetachKeeps` | src/smo.cc:473-511 | Removing the forwarder and the old page after all vertices are switched keeps the invariant and every edge set. |
| `ConsolidationRuns.StepKeeps` | src/smo.cc:727-975 | Every step of writers and of any number of concurrent consolidations, of pages that are destinations too, keeps the invariant with exactly the client's writes applied, if it respects the two schedule conditions of Ordered. |
| `ConsolidationRuns.RunKeeps` | src/smo.cc:727-975 | The same over every finite run that respects them: each vertex ends with its edge set with its writes applied in latch order. |
| `ConsolidationRuns.ReadExact` | src/db.cc:199-273 | A read returns the intended edge set if and only if no edge of the vertex is in the middle of a drain (one of its records re-inserted, a later contradicting one still waiting). |
| `ConsolidationRuns.ConsolidationInvisible` | src/smo.cc:727-975 | After any such run from an initial database a read returns the initial list with the writes applied in latch order, if and only if no edge of the vertex is in the middle of a drain. |
| `ConsolidationLimits.ContradictingWriteIsLost` | src/page_map.cc:219-247 | A rerouted write that contradicts a waiting record of its edge is lost: the invariant goes on holding for the edge sets from before it. |
| `ConsolidationLimits.OrderedIsExact` | src/page_map.cc:219-247 | A write is honoured by later settled reads if and only if it respects the schedule condition (it does not contradict a record of the same edge still waiting on the old page). |
| `ConsolidationLimits.LostWriteIsReachable` | src/smo.cc:902-934 | A concrete run of enabled steps after which an enabled write violates that condition. |
| `ConsolidationLimits.MidDrainIsReachable` | src/smo.cc:911-934 | A concrete run of enabled steps after which an edge is in the middle of a drain. |
| `ConsolidationLimits.WorkerNeverStuck` | src/smo.cc:911-934 | In runs that respect the schedule conditions both throws of the worker are unreachable: a stray always has a place on the new pages, and every compare-and-swap finds the expected version; some step of the worker is always enabled. |
| `ConsolidationLimits.SettledChainIsUnmerged` | src/smo.cc:429-471 | The chain of a vertex that is not being moved holds exactly the records of its page that are not merged yet, and its read is exact. |
| `ConsolidationReaders.LateReaderExact` | src/db.cc:199-273 | A reader takes list and head in one state and walks after any run: it returns the edge set of that state if and only if no edge was in the middle of a drain then and, if the vertex was switched since, no edge was decided by a record below the first rerouted one that the list did not have. |
| `ConsolidationReaders.FloorIs` | src/smo.cc:429-471 | Over any run the links a reader holds are cut, at the first rerouted record, exactly if there is one at its snapshot and its vertex is switched; otherwise its walk is whole. |
| `ConsolidationReaders.LateReaderMisses` | src/db.cc:199-273 | A concrete run of enabled steps in which a reader takes its snapshot, its vertex is switched, and its walk misses an edge written before the snapshot. |
| `ConsolidationReaders.SnapshotSurvives` | src/db.cc:199-273 | Without a switch of its vertex the records a reader holds stay in place, and so does a base kept on a page. |
| `ConsolidationReaders.SnapshotStays` | src/db.cc:199-273 | The same over every run without a switch of the vertex. |
| `ConsolidationRaces.MergeCompetes` | src/vertex_index.cc:239-244 | Preparing a replacement of a page while a vertex is still on its way there makes two workers expect the same version of that vertex. |
| `ConsolidationRaces.OneNeverFinishes` | src/vertex_index.cc:246-266 | Of two such workers one at most ever finishes, whatever steps follow: the compare-and-swap of the other finds the version gone. |
| `ConsolidationRaces.FinishAll` | src/smo.cc:727-975 | From every state of a run that respects the schedule, all consolidations in flight can be completed by a run that respects it. |
| `ConsolidationRaces.PrepareIsHarmless` | src/smo.cc:395-418 | Once the replacement of a page is prepared, some run completes all consolidations in flight if and only if no vertex was on its way to that page. |
| `ConsolidationRaces.RaceLosesAWrite` | src/smo.cc:429-471 | A concrete run of enabled steps that breaks this condition once: it ends in the failed compare-and-swap, with the chain of the vertex dropped and a read that misses an inserted edge. |
| `ConsolidationGiants.SwitchSorts` | src/smo.cc:429-471 | A switch makes a vertex giant exactly if it was or its merged list has reached the degree bound. |
| `ConsolidationGiants.SwitchedIsSmall` | src/smo.cc:829-846 | Over any run that respects the schedule a vertex switched along it is giant or its list on its page is shorter than the degree bound, and a giant one stays giant. |
| `Store.SteppedInv` | src/smo.cc:727-975 | Every enabled step keeps the invariant for what reads are to return, a contradicting write being void, provided that a replacement is prepared only when no vertex is on its way to the page. |
| `Store.Database.constructor` | src/vertex_index.cc:51-98 | A database in which every page serves what it stores starts in an initial state of the protocol. |
| `Store.Database.RouteRecord` | src/page_map.cc:219-247 | Probing the forwarder and appending, to the new page with the first rerouted record noted or else to the page itself, is one write step of the protocol. |
| `Store.Database.NoteRerouted` | include/bw_graph/part/page_delta.h:69-73 | The first rerouted record of a vertex is kept, later ones are not. |
| `Store.Database.WriteEdge` | src/db_dyn.cc:63-81 | The critical section refines the protocol's write, and what reads are to return changes by that edge, unless the write contradicts a waiting record. |
| `Store.Database.InsertEdge` | src/db_dyn.cc:52-135 | Refused exactly for a missing end vertex, then without effect; else one write step, which adds the edge to what reads are to return unless it contradicts a waiting record. |
| `Store.Database.DeleteEdge` | src/db_dyn.cc:138-165 | Refused exactly for a missing end vertex, then without effect; else one write step, which takes the edge out of what reads are to return unless it contradicts a waiting record. |
| `Store.Database.ReadNeighborClone` | src/db.cc:199-273 | The imperative reader over linked records returns the protocol's read, which is the intended edge set if and only if no edge is in the middle of a drain. |
| `Store.Database.BeginConsolidation` | src/smo.cc:727-771 | For any page: starts exactly if no consolidation of the page is in flight and it has records, and then is a fetch step; else nothing changes. |
| `Store.Database.MergePage` | src/smo.cc:811-826 | The merged lists are the stored ones with the fetched records replayed. |
| `Store.Database.BuildReplacement` | src/smo.cc:833-888 | A list goes to the giant store, and its place on the new page is left empty, exactly if its vertex is giant or the list with its fetched records replayed has reached the degree bound; every other one goes to the new page; and all this is one merge step of the protocol, if no vertex is on its way to the page. |
| `Store.Database.InstallForwarder` | src/smo.cc:890-900 | Is the protocol's install step. |
| `Store.Database.FetchStrays` | src/smo.cc:902-910 | Is the protocol's step that takes the waiting records. |
| `Store.Database.DrainStray` | src/smo.cc:911-934 | Is the protocol's drain step of the oldest stray; nothing else of the consolidation changes. |
| `Store.Database.SwitchVertex` | src/smo.cc:429-471 | Is the protocol's switch step: chain cut at the noted record or dropped, type set, new version published; the version is always the expected one. |
| `Store.Database.Detach` | src/smo.cc:473-511 | Is the protocol's detach step. |
| `Store.Database.FinishConsolidation` | src/smo.cc:902-962 | The drain and switch loops terminate, move every vertex to its new page, end the consolidation, and leave what reads are to return. |
| `Store.Database.ConsolidatePages` | src/smo.cc:727-975 | A whole uninterrupted consolidation, of a page that no vertex is on its way to, runs exactly if it can be claimed, moves the vertices to the given pages, and leaves what reads are to return. |
| `Snapshot.ReadNeighborCloneTxn` | src/db.cc:331-403 | The transactional reader returns an edge exactly if it is stored with time 0 or at most its read time, or inserted at a time from 1 to its read time, and not deleted at such a time, whatever the order of the records. |
| `Snapshot.PartitionDeltas` | src/smo.cc:773-810 | The records of a time from 1 to below the watermark, and all others, each in log order; together they are the log as a multiset. |
| `Snapshot.BuildMergedListWithTs` | src/smo.cc:137-220 | The merged list is strictly sorted and stores each edge with the time the replay leaves it with. |
| `Snapshot.LastRecIs` | src/smo.cc:185-204 | The record that decides a merged edge is the last one about it by position. |
| `Snapshot.MergeKeepsView` | src/smo.cc:773-810 | Merging the records below the watermark keeps what a reader at or above it sees of an edge if and only if it does not revive the edge. |
| `Snapshot.StepView` | src/smo.cc:773-962 | One step of begin, end, commit, consolidation start, requeueing or publication changes what an active reader sees of an edge if and only if it publishes a merge that revives it. |
| `Snapshot.SnapshotStable` | src/db.cc:331-403 | Over any run without such a revival an active transaction goes on seeing the same edges. |
| `Snapshot.NoReinsertIsQuiet` | src/smo.cc:773-810 | In a log with no deletion before an insertion of the same edge, no consolidation revives anything for anybody. |
| `Snapshot.NoReinsertStable` | src/db.cc:331-403 | If along a run no log has a deletion before an insertion of the same edge, an active transaction sees the same edges throughout. |
| `Snapshot.BeginSeesCommitted` | src/db.cc:331-403 | After any run a transaction that begins sees an edge exactly if it is stored or some committed record inserts it, and no committed record deletes it. |
| `Snapshot.CommitThenBegin` | src/txn.cc:241-266 | A reader that begins after a commit does not see an edge deleted in it, and sees one inserted in it that has no committed deletion in the log. |
| `Snapshot.CommitAppends` | src/txn.cc:297-301 | A commit appends one record per buffered write, in order, with its destination, its kind and the next commit time, and changes nothing else. |
| `Snapshot.DeferralRevives` | src/smo.cc:785-810 | A concrete run of the code's own steps: an insertion is fetched and deferred for an old reader, the deletion is committed meanwhile, the insertion is put back behind it, and the next consolidation shows the edge to a reader that did not see it. |
| `Snapshot.MarkRises` | src/txn.cc:21-45 | Along any run the watermark never moves back and is at most every active read time. |
| `Snapshot.SplitConserves` | src/smo.cc:773-810 | The split by the watermark loses no record and doubles none. |
| `Txn.WaterMark.AddReader` | src/txn.cc:21-25 | The count of that time goes up by one, all others stay. |
| `Txn.WaterMark.RemoveReader` | src/txn.cc:27-37 | The count of that time goes down by one if it was registered; a time whose count reaches zero disappears; all others stay. |
| `Txn.WaterMark.Watermark` | src/txn.cc:39-45 | The least registered time, none exactly if nobody is registered. |
| `Txn.TxnManager.Begin` | src/db.cc:104-110 | A transaction reads at the last commit time and is registered there. |
| `Txn.TxnManager.End` | src/txn.cc:144-147 | One registration at that time less. |
| `Txn.TxnManager.GetWatermark` | src/txn.cc:68-72 | The watermark lies between the pruning floor and the last commit time and is at most every registered read time. |
| `Txn.TxnManager.AllocCommitTs` | src/txn.cc:63-65 | The next time, never handed out before. |
| `Txn.TxnManager.AddCommittedTxn` | src/txn.cc:87-90 | The write set goes on record in the pruned table and in the full history. |
| `Txn.TxnManager.CheckSerializableConflict` | src/txn.cc:93-112 | On the pruned table the check answers as it would on the full history, for every reader at or above the floor: whether some write set committed after the read time holds a hash of the read set. |
| `Txn.TxnManager.CleanupOldTxns` | src/txn.cc:114-123 | Exactly the entries below the watermark go; the floor becomes the watermark and never falls. |
| `Txn.Transaction.Commit` | src/txn.cc:269-314 | Refused if finished; conflicting exactly if the full history holds, after the read time, a hash that a serializable writer has read, and then nothing is taken or written; else there is one record per buffered write, in order, all with the next time, and the write set is on record. |
| `Txn.Transaction.Write` | src/txn.cc:181-208 | Buffered with its hash, unless the transaction is finished, which then stays as it is. |
| `Txn.Transaction.Abort` | src/txn.cc:317-323 | An unfinished transaction drops its writes, a finished one stays. |
| `Reclaim.RKeeps` | src/vertex_index.cc:112-178 | Every step of readers, preparation, switches (also failing ones, and to pages that are being consolidated themselves), reclamation and allocation keeps the invariant: counters count, versions name live pages, slots are live or free once. |
| `Reclaim.RRunKeeps` | src/vertex_index.cc:112-178 | The same over every run. |
| `Reclaim.ReclaimIsSafe` | src/vertex_index.cc:112-178 | At any point of any run the slot handed out next is nobody's, and the counter of a batch is the number of its versions not yet reclaimed, so at zero no version names the page. |
| `Reclaim.CompleteIsSafe` | src/vertex_index.cc:112-132 | When a page is retired no version names it, no reader protects one that does or is on its frame, and its slot is live and not free. |
| `Reclaim.FreedOncePerUse` | src/disk_manager.cc:351-374 | Over any run a slot is freed exactly as often as it was in use or handed out and is not in use any more. |
| `Reclaim.ReclaimedOnce` | src/vertex_index.cc:112-132 | Every version is reclaimed at most once, and is gone exactly when it was. |
| `Reclaim.BatchProgress` | src/vertex_index.cc:112-132 | A batch waits for nothing but a reader, a latch, a pin, or a vertex switched by another worker: each vertex whose version is still the expected one can be switched, then some version can be reclaimed or is protected, and at zero the page can be retired or is latched or pinned. |
| `Reclaim.StaleNeverFrees` | src/vertex_index.cc:246-266 | Once another worker has replaced the version that a batch expects, that batch never completes and its page is never freed, in any run. |
| `Reclaim.StaleIsReachable` | src/vertex_index.cc:239-266 | A concrete run in which that happens. |
| `VersionIndex.VersionTable.OpenBatch` | src/smo.cc:473-485 | Versions are prepared for all vertices of the page, and the batch is opened with their number as counter. |
| `VersionIndex.VersionTable.Publish` | src/vertex_index.cc:246-266 | The compare-and-swap succeeds exactly if no other worker has replaced the expected version, and then publishes the new one and queues the old one; else nothing changes. |
| `VersionIndex.VersionTable.Submit` | src/vertex_index.cc:134-157 | The oldest retired version is handed over; none is lost or doubled. |
| `VersionIndex.VersionTable.RunDeleter` | src/vertex_index.cc:112-132 | The deleter of an unprotected version is a reclaim step; exactly the last one of a batch starts the release of the page. |
| `VersionIndex.LastOfBatch` | src/vertex_index.cc:112-132 | The counter is zero exactly if every vertex is switched and every version reclaimed. |
| `VersionIndex.DiskSlots.AllocatePage` | src/disk_manager.cc:674-696 | The slot handed out is not in use: the last freed one, else the end of the file. |
| `VersionIndex.DiskSlots.DeletePage` | src/disk_manager.cc:351-374 | The slot of a page in use is always given back, exactly once; the capacity check never fails for it. |
| `VersionIndex.DiskSlots.WritePage` | src/disk_manager.cc:377-460 | Capacity and page count grow to cover the page and never shrink; free slots stay. |
| `FrameLists.Lists.constructor` | src/buf_pool.cc:429-454 | All frames are in the free list, in order, the other list is empty. |
| `FrameLists.Lists.AddToFreeList` | src/buf_pool.cc:701-720 | Appends the frame; both linked lists stay well formed and disjoint. |
| `FrameLists.Lists.RemoveFromFreeList` | src/buf_pool.cc:618-641 | Takes exactly this frame out; both lists stay well formed. |
| `FrameLists.Lists.AddToLruHead` | src/buf_pool.cc:644-663 | The frame comes first; the hand is set if the list was empty. |
| `FrameLists.Lists.RemoveFromLruList` | src/buf_pool.cc:666-698 | Takes exactly this frame out; a hand on it moves to its successor, else to the head; it never leaves the list. |
| `FrameLists.Lists.MoveToLruHead` | src/buf_pool.cc:723-730 | The frame comes first, the others keep their order. |
| `FrameLists.Lists.FindVictimPage` | src/buf_pool.cc:489-552 | From the hand on, the first frame that is neither pinned nor latched nor referenced, with the hand left behind it and the bits of unpinned frames before it cleared; else the first frame of the list that is neither pinned nor latched, if any, with all those bits cleared and the hand where it was. |
| `BufPool.BufferPool.constructor` | src/buf_pool.cc:36-61 | An empty pool shows the disk. |
| `BufPool.BufferPool.ClaimFrame` | src/buf_pool.cc:114-158 | The first free frame, else the victim of the clock, written back if dirty; none exactly if no frame is free or idle; the content of every page stays. |
| `BufPool.BufferPool.EvictFrame` | src/buf_pool.cc:123-155 | The victim leaves page map and list; no page changes its content. |
| `BufPool.BufferPool.ReadPage` | src/buf_pool.cc:162-214 | Fails exactly if the page is not cached and no frame can be claimed; else the frame holds the page's content, latched; no page changes. |
| `BufPool.BufferPool.LatchCached` | src/buf_pool.cc:65-86 | One holder more and the reference bit set; no page changes. |
| `BufPool.BufferPool.NewPage` | src/buf_pool.cc:557-575 | For delta pages: a cached page stays as it is, another one becomes blank, dirty and pinned; all other pages stay. |
| `BufPool.BufferPool.CopyPage` | src/buf_pool.cc:403-424 | A page that is cached is left alone; else it receives the given content in a frame that is left unpinned and unlatched. |
| `BufPool.BufferPool.FlushPage` | src/db.cc:68-91 | After it the disk has the page's content; no content changes. |
| `BufPool.BufferPool.RetirePage` | src/buf_pool.cc:579-613 | Refused exactly while the frame is pinned or latched; else the page is unmapped without being written; no other page changes. |
| `BufPool.EvictOk` | src/buf_pool.cc:123-155 | Eviction keeps the pool invariant (lists partition the frames, page map is a bijection with the listed frames) and every page's content. |
| `Components.FindRoot` | src/db_algorithm.cc:58-66 | Returns the root of the vertex. |
| `Components.Hook` | src/db_algorithm.cc:68-96 | Hooks exactly if the two roots differ; then the number of roots falls, parents stay at most their vertex and in its component; else nothing changes. |
| `Components.HookKeeps` | src/db_algorithm.cc:68-96 | Attaching a root to any smaller vertex of its component, be it a root seen earlier, keeps the invariant and removes exactly one root. |
| `Components.CompressKeeps` | src/db_algorithm.cc:98-112 | A compression step preserves every root and, if it moves, lowers the parent sum. |
| `Components.EdgeMap` | include/bw_graph/algo/edge_map.h:329-350 | A round, dense with its early exit or sparse, in any order, lowers the number of roots if it reports a change; if not, no edge examined joins two roots. |
| `Components.Compress` | src/db_algorithm.cc:627-634 | Passes end, with every vertex pointing to its root and all roots as before. |
| `Components.Settle` | src/db_algorithm.cc:622-639 | Rounds of hooking and compressing end, with every parent inside its component and no edge joining two roots. |
| `Components.ReadLabels` | src/db_algorithm.cc:642-647 | The label of every vertex is its root. |
| `Components.SettledIsExact` | src/db_algorithm.cc:605-648 | If no edge joins two roots, two vertices have the same root exactly if they are connected. |
| `Components.SettledIsLeast` | src/db_algorithm.cc:605-648 | The root is then the least vertex of the component. |
| `Components.WccSv` | src/db_algorithm.cc:605-648 | Terminates; two vertices get the same label if and only if they are connected, and the label is the least id of the component. |
| `Distance.LayerIsDistance` | src/db_algorithm.cc:1316-1349 | The vertices first reached in round k are exactly those at distance k. |
| `Distance.NextLayer` | src/db_algorithm.cc:1316-1349 | A layer is determined by the neighbours of the one before it. |
| `Bfs.EdgeMapSparse` | include/bw_graph/algo/edge_map.h:102-136 | Claims exactly the unclaimed neighbours of the frontier, each once, with a parent in the frontier. |
| `Bfs.EdgeMapDense` | include/bw_graph/algo/edge_map.h:22-91 | On symmetric adjacency claims the same vertices, each once, with a parent in the frontier. |
| `Bfs.EdgeMap` | include/bw_graph/algo/edge_map.h:329-350 | The choice by frontier size makes no difference to what is claimed. |
| `Bfs.NextRound` | src/db_algorithm.cc:505-509 | From the vertices at distance k a round claims exactly those at distance k + 1, keeps the tree sound, and grows the claimed set unless the new frontier is empty. |
| `Bfs.WalkUp` | src/db_algorithm.cc:518-523 | The walk along parents ends at the start after exactly as many steps as the distance. |
| `Bfs.ClaimAll` | src/db_algorithm.cc:505-509 | Rounds end, with an empty frontier and exactly the reachable vertices claimed at their distance. |
| `Bfs.ParallelBfs` | src/db_algorithm.cc:484-527 | For any mode and order per round: each reachable vertex once, with its distance; nothing for a start out of range. |
| `Bfs.QueueBfs` | src/db_algorithm.cc:1316-1349 | Each reachable vertex once, with its distance. |
| `Bfs.SearchesAgree` | src/db_algorithm.cc:484-527 | Two results that list the distances are equal as multisets, so both searches agree. |
| `MinLabel.Process` | src/db_algorithm.cc:1877-1893 | A pull happens exactly if the source has the smaller label; then the target takes it and is marked, and nothing else changes. |
| `MinLabel.ScanRound` | src/db_algorithm.cc:1875-1894 | After a scan every edge whose source has the smaller label starts at a vertex active in the next round; a scan that moves something lowers the label sum. |
| `MinLabel.FixpointIsLeast` | src/db_algorithm.cc:1852-1895 | On symmetric graphs labels that no edge can lower are the least ids of the components. |
| `MinLabel.ParallelWcc` | src/db_algorithm.cc:1852-1895 | Terminates, with the least id of the component as the label of every vertex. |
| `Blocks.NumBlocks` | include/bw_graph/common/sequence.h:20-20 | The least number of blocks of that size that hold all items. |
| `Blocks.BlocksCover` | include/bw_graph/common/sequence.h:28-36 | The blocks of a non-empty input end exactly at its end. |
| `Blocks.FoldReduced` | include/bw_graph/common/sequence.h:61-73 | For an associative operator folding a block onto an accumulator is combining it with the reduced block. |
| `Blocks.ReduceSerial` | include/bw_graph/common/sequence.h:45-52 | The left fold of a non-empty input. |
| `Blocks.Reduce` | include/bw_graph/common/sequence.h:61-73 | By blocks equals serial, for every associative operator, commutative or not. |
| `Blocks.ScanSerial` | include/bw_graph/common/sequence.h:100-121 | In place, inclusive or exclusive prefix folds and the total; nothing outside the stretch changes. |
| `Blocks.ScanNext` | include/bw_graph/common/sequence.h:100-121 | Position i of an inclusive scan combines the position before it, or the given zero, with item i; of an exclusive scan, with item i - 1, and position 0 is the zero; the total is the scan of all items. |
| `Blocks.Scan` | include/bw_graph/common/sequence.h:131-147 | By blocks equals serial at every position, in place, for every associative operator: each position is the one before it combined with its own item, or with the item before in an exclusive scan. |
| `Blocks.PackSerialAt` | include/bw_graph/common/sequence.h:202-207 | The selected values, in order, from the given position on; nothing else changes. |
| `Blocks.PackedMeans` | include/bw_graph/common/sequence.h:202-207 | What is packed is the values at the set flags, each once, in order of position. |
| `Blocks.Pack` | include/bw_graph/common/sequence.h:217-233 | By blocks equals serial: the values at the set flags, in order of position. |
| `Blocks.FilterSerial` | include/bw_graph/common/sequence.h:270-276 | The values that satisfy the predicate, in order, and their number. |
| `Blocks.FilteredMeans` | include/bw_graph/common/sequence.h:270-276 | What is kept is the values that satisfy the predicate, each once, in order of position. |
| `Blocks.CompactBlocks` | include/bw_graph/common/sequence.h:294-305 | Every block is compacted in place, with its count, including last blocks that would start past the end. |
| `Blocks.FilterF` | include/bw_graph/common/sequence.h:287-317 | By blocks with in-place compaction equals serial: the values that satisfy the predicate, in order of position. |
| `EdgeScan.LowestBit` | include/bw_graph/algo/edge_scan.h:159-160 | The least set bit of a non-zero word. |
| `EdgeScan.ActiveMeans` | include/bw_graph/algo/edge_scan.h:91-118 | The active vertices are those below the vertex count whose bit is set in their word, in ascending order. |
| `EdgeScan.ActiveByTest` | include/bw_graph/algo/edge_scan.h:91-118 | Testing bits in turn, with the early exit at the vertex count, visits the active vertices in order. |
| `EdgeScan.ActiveByBits` | include/bw_graph/algo/edge_scan.h:157-180 | Taking the lowest bit until none is left visits the same vertices in the same order. |
| `EdgeScan.CollectItems` | include/bw_graph/algo/edge_scan.h:157-180 | The active vertices whose page is below the page count, in order, and exactly the pages that have one. |
| `EdgeScan.CountPages` | include/bw_graph/algo/edge_scan.h:169-176 | The number of active vertices of every page. |
| `EdgeScan.OfPageMeans` | include/bw_graph/algo/edge_scan.h:188-201 | The vertices of a page are those collected for it, each once, in their order. |
| `EdgeScan.BelowMeans` | include/bw_graph/algo/edge_scan.h:188-192 | The offset of a page counts each vertex of a lower page once. |
| `EdgeScan.PrefixSums` | include/bw_graph/algo/edge_scan.h:188-192 | The offset of a page is the number of active vertices on lower pages. |
| `EdgeScan.GroupByPage` | include/bw_graph/algo/edge_scan.h:188-201 | The counting sort puts the vertices of a page, in their order, exactly between its offsets. |
| `EdgeScan.DirectScan` | include/bw_graph/algo/edge_scan.h:91-118 | The pair (u, v) is handed out as often as v is a neighbour of u if the bit of u is set, and never otherwise; sources in ascending order. |
| `EdgeScan.PageLocalScan` | include/bw_graph/algo/edge_scan.h:132-262 | The pair (u, v) is handed out as often as v is a neighbour of u if the bit of u is set and the page of u is below the page count, and never otherwise. |
| `EdgeScan.ScansAgree` | include/bw_graph/algo/edge_scan.h:132-262 | With all active vertices below the page count both scans process the same multiset of edges. |
| `Packing.ReadsBack` | src/io_csr.cc:50-63 | Every vertex packed on a page reads back as its list; a giant reads as empty. |
| `Packing.BuiltIsSound` | src/builder.cc:142-256 | Vertices within a page of at most 65536 bytes pass every check of the builder and of the parser, and all offsets fit 16 bits. |
| `Packing.Builder.EstimatedSize` | src/builder.cc:112-139 | The bytes the built page would take. |
| `Packing.Builder.AddVertex` | src/builder.cc:31-97 | Refused exactly if the page would overflow and is not empty; the 16-bit throw exactly if the data before it exceed 16 bits; else appended; giants are noted. |
| `Packing.Builder.ClearAll` | src/builder.cc:100-106 | Nothing is packed any more, while the list of giants stays. |
| `Packing.Builder.Build` | src/builder.cc:142-256 | Succeeds exactly for a non-empty builder within 16-bit counts and the page size; then the image, with the sum of the lengths of the lists that are not giant as its edge count, and the position of every vertex; else unchanged. |
| `Packing.PackVertices` | src/smo.cc:395-418 | Split packing succeeds exactly if every vertex fits a page alone; then every vertex is on exactly one page, at a 16-bit offset, and reads back as its list; vertices keep their order, and a page is left only when the next vertex does not fit. |
| `Packing.Flush` | src/smo.cc:355-393 | The current group becomes one page that holds exactly it, and its vertices are located there. |
| `Packing.CsrPage.constructor` | src/io_csr.cc:365-468 | A built page is parsed into disjoint readable entries. |
| `Packing.CsrPage.InsertEdgeInSlot` | src/io_csr.cc:975-1078 | Refused exactly for a wrong vertex, a giant, or a full slot area, and then without effect; full means on a built page that all slots of the vertex are taken or that a giant is packed right behind it; else the edge is at the end of its vertex's list, which reads as empty if it reached the giant bound, and no other list changes. |
| `Packing.RoomOf` | src/io_csr.cc:1009-1038 | On a built page the room of a list ends behind its reserved slots, or at the start of the data if a giant is packed right behind it. |
| `Packing.SlotAppends` | src/io_csr.cc:1041-1056 | Writing behind the last neighbour appends to the list. |
| `Packing.SlotKeepsOthers` | src/io_csr.cc:1041-1056 | It changes no other list. |
| `Ptv.Write` | include/bw_graph/common/ptv_codec.h:50-73 | Exactly the encoded bytes are written and their number returned; the rest of the buffer stays. |
| `Ptv.WriteSlot` | include/bw_graph/common/ptv_codec.h:80-85 | Exactly four bytes are written; the rest of the buffer stays. |
| `Ptv.Format` | include/bw_graph/common/ptv_codec.h:34-73 | The size of an encoded id by its range, the size tag in the two top bits of its first byte, the low byte of the id last. |
| `Ptv.ReadsBack` | include/bw_graph/common/ptv_codec.h:92-113 | For every 32-bit id, at any place and whatever bytes surround it, an entry reads back as the id cut to thirty bits, with its own size. |
| `Ptv.Shortest` | include/bw_graph/common/ptv_codec.h:34-42 | No byte string at all is read as an id in fewer bytes than its encoded size. |
| `Ptv.EmptySlot` | include/bw_graph/common/ptv_codec.h:120-122 | A slot looks empty if and only if the thirty low bits of its id are zero, so a slot filled with vertex 0 counts as empty. |
| `Ptv.StreamReadsBack` | include/bw_graph/common/ptv_codec.h:142-173 | A stream of entries and slots reads back as its ids cut to thirty bits, whatever bytes stand before and after it. |
| `Ptv.StreamIsExact` | include/bw_graph/common/ptv_codec.h:9-24 | That is the list written if and only if every id is below 2^30. |
| `Ptv.SlotFills` | include/bw_graph/common/ptv_codec.h:21-23 | Filling a slot in the middle of a stream gives the stream with that entry replaced: no other entry moves. |
| `Ptv.PackNeighbors` | src/io_csr.cc:207-252 | The size computed in advance is the one written: neighbours in order, then the empty slots, and nothing else. |
| `Ptv.PackedReadsBack` | src/io_csr.cc:66-78 | With ids below 2^30 a packed vertex reads back as its list, and with its slots as the list and as many zeros. |
| `Ptv.NeighborIter.Next` | include/bw_graph/common/ptv_codec.h:152-157 | Yields the first of what is ahead and leaves the rest ahead. |
| `Ptv.NeighborIter.ReadHere` | include/bw_graph/common/ptv_codec.h:163-163 | The first of what is ahead, with nothing consumed. |
| `Ptv.NeighborIter.Advance` | include/bw_graph/common/ptv_codec.h:169-173 | Skips exactly the first of what is ahead. |
| `Ptv.Collect` | include/bw_graph/common/ptv_codec.h:198-236 | A range loop yields every entry of the range, in order, and ends. |
| `NeighborCodec.SumsOfDeltas` | src/external.cc:696-706 | Summing undoes differencing on every list, sorted or not, wrap-around included. |
| `NeighborCodec.DeltaAt` | src/external.cc:580-586 | The first difference is the first id, every other one an id less its predecessor on 32 bits. |
| `NeighborCodec.SumAt` | src/external.cc:696-706 | Every sum is the one before it plus its difference on 32 bits. |
| `NeighborCodec.WriteVarint` | src/external.cc:603-611 | The base-128 form of the value, low groups first. |
| `NeighborCodec.VarintFormat` | src/external.cc:603-611 | Byte i of a varint is the i-th group of seven bits, low groups first, with the high bit on all bytes but the last and no byte for leading zeros. |
| `NeighborCodec.DecodeVarint` | src/external.cc:680-690 | The value of a varint of up to five bytes on 32 bits, and where it ends. |
| `NeighborCodec.VarintReadsBack` | src/external.cc:680-690 | What was written is read, whatever follows. |
| `NeighborCodec.PayloadReadsBack` | src/external.cc:658-694 | Groups of four and the varint tail read back as the differences written, whatever follows, for every self-delimiting group codec. |
| `NeighborCodec.PayloadFormat` | src/external.cc:588-612 | Every group of four differences goes through the group codec, and one to three left over at the end are varints, in order. |
| `NeighborCodec.Compress` | src/external.cc:568-615 | The payload is the differences of the list in groups of four with a varint tail. |
| `NeighborCodec.Decompress` | src/external.cc:658-709 | The running sums of the differences in the payload. |
| `NeighborCodec.Serialize` | src/external.cc:86-120 | Empty exactly for an empty list; else the flag 1, the degree in eight bytes, low byte first, and the payload of the sorted list. |
| `NeighborCodec.Deserialize` | src/external.cc:123-171 | On every input that does not end inside its payload: MissingDegree exactly for a flag 1 and fewer than nine bytes, BadFlag exactly for a flag above 1, the list as four-byte words for a flag 0, and the decoded list otherwise. |
| `NeighborCodec.SortedIsUnique` | src/external.cc:94-95 | There is one sorted arrangement of a list, so the sorting algorithm does not matter. |
| `NeighborCodec.RoundTrip` | src/external.cc:86-171 | Deserializing what was serialized gives the sorted copy of the list, duplicates kept. |
| `NeighborCodec.SameImage` | src/external.cc:86-120 | Two lists are stored alike if and only if they hold the same ids equally often. |
| `NeighborCodec.RawReadsBack` | src/external.cc:159-166 | The uncompressed form loads as it stands, and up to three bytes behind the last word are dropped. |
| `NeighborCodec.PlainIsSelfDelimiting` | src/external.cc:588-600 | The property assumed of the group codec holds of the usual layout with a size byte. |
| `WaterFill.FillRound` | src/mem_edges.cc:451-472 | A round gives every active source the cap, or the largest count n with n * sum <= weight * left on top of its own; no more in all than is left, in which the cut to what is left never bites; and lists those below the cap. |
| `WaterFill.SpreadResidue` | src/mem_edges.cc:483-492 | The first sources of the list get one edge more while there are any. |
| `WaterFill.RoundKeepsOrder` | src/mem_edges.cc:451-472 | With weights in descending order counts stay in descending order through a round. |
| `WaterFill.StillOpen` | src/mem_edges.cc:479-481 | With edges left somebody below the cap is listed, so the second exception cannot be thrown. |
| `WaterFill.Pass` | src/mem_edges.cc:437-493 | One pass of the loop throws only if some weight is zero; else strictly fewer edges are left, and counts, order and quota are kept. |
| `WaterFill.WeightNext` | src/mem_edges.cc:442-446 | The weight that a round shares by is the sum over the listed sources below the cap. |
| `WaterFill.TotalOfBoth` | src/mem_edges.cc:442-446 | The total weight is the sum of the weights. |
| `WaterFill.Allocate` | src/mem_edges.cc:404-493 | Terminates; each argument error exactly under its condition; runs out only with a zero weight; else counts sum to the edge total, stay within the cap, descend if the weights do, and every source has the cap or more than its weighted share of all edges less one. |

## Left out

- ConsolidationRuns.ConsolidationInvisible: the records in an edge's chain are modelled as they are kept in memory; flushing of delta pages and recovery are not part of it.
- Store.Database.ReadNeighborClone: reads flag, list and chain head in one step; the code takes them in up to three, see the assumptions.
- Store.Database.SwitchVertex: the branch that throws is not in the method, since it is unreachable under its precondition; `ConsolidationRaces` models it.
- ConsolidationRaces.RaceLosesAWrite: what becomes of the page of a worker that has thrown is not modelled; its consolidation stays in flight for good.
- Store.Database.InsertEdge: vertex deletion flags and the consolidation threshold that schedules a worker are not modelled.
- Store.Database.ConsolidatePages: which vertices share a new page is an argument; `Packing` models the split separately.
- Snapshot.SnapshotStable: one vertex that is not giant; physical record chains of transactional writes are those of `PageMap` and are not repeated; giant lists under transactions are not modelled.
- Txn.Transaction.Commit: no serializability is claimed, since reads hash the vertex and writes hash the edge; hash collisions only add conflicts.
- Reclaim.ReclaimIsSafe: hazard pointers are a step enabled while no reader protects the version; retry of deferred recycling is the same step taken later.
- VersionIndex.DiskSlots.WritePage: the bytes themselves, and the growth policy beyond what covers the page, are not modelled.
- BufPool.BufferPool.ReadPage: sequential; eviction unmaps a dirty page before it is written back, so coherence under concurrency is not claimed. A latch is a number of holders, the disk a map, prefetching left out.
- BufPool.BufferPool.NewPage: as for delta pages, whose `reinit` clears the bytes and sets the dirty flag (src/io_delta.cc:15-38) and which are the only pages created this way (src/page_map.cc:78); `csr_page_t::reinit` (src/io_csr.cc:566-571) does neither.
- BufPool.BufferPool.CopyPage: copying and marking dirty, as the callers do, is one operation.
- BufPool.BufferPool.FlushPage: the traversal that the flusher threads make is not modelled, one flushed page is.
- Bfs.EdgeMapSparse: sorting a large frontier by page permutes it, and the claims hold for every order of the frontier.
- Components.WccSv: threads interleave at whole updates, not inside one.
- EdgeScan.DirectScan: a word of the bitmap is 64 booleans; the results of the callbacks are not added up, the multiset of calls is compared.
- Packing.Builder.AddVertex: the list edges appended before the 16-bit throw are not kept, since the builder is not used afterwards.
- Packing.PackVertices: uncompressed pages without timestamps; header links to parent and neighbour pages are not modelled.
- NeighborCodec.Decompress: data that end inside a value are outside the model, since the code reads past them.
- NeighborCodec.Compress: the SIMD codecs behind build flags are not modelled.
- WaterFill.Allocate: rounding of doubles inside a share is not modelled, so neither is a weight that underflows to zero beyond the exception it can cause.
- Disk and asynchronous I/O, RocksDB, compression libraries, configuration, logging and statistics.
- Vertex reordering, partitioning, sparsification, index-page splitting.
- `do_no_split`, whose size estimate ignores reserved slots, and builds of compressed pages by the page builder, which write raw ids.
- `wcc_map` in dense mode, where the scan stops after the first success and no fixpoint follows.
- PageRank, KL divergence, sampling, label propagation by frequency, sketch thresholds.
- In-memory graphs, property keys, vertex insertion and deletion.
