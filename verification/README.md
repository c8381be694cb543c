# Verification of the optimistic hash lists

The repository implements one set of integer keys, as sorted linked lists in hash
buckets, under several memory-reclamation schemes. Nodes are recycled while readers
still hold pointers to them. This project models the readers, the writers, the
reclamation and the allocators, and proves that the readers' answers are right and
that no node is freed or handed out too early. `dafny verify dfyconfig.toml` checks it.

## How it is organised

- `Buckets.dfy`, `ListWriter.dfy`: the shared memory, the life of a node, and the
  writer side of `list_writer.c`, one step per shared store. A list is described by
  what a pointer leads to; `Contains` is the plain pointer walk.
- `Worlds.dfy`: the interleavings of all writer threads under GECOS, SGECOS, SEQLOCK
  and GCLOCK (the last two with writers competing by CAS), and their invariant.
  `Locks.dfy`: the lock words. `Stamps.dfy`: what generations and counters count. `Writers.dfy`: `insert` and `delete` as loops that run
  while other buckets' writers interfere.
- `Calls.dfy` with `WorldCalls.dfy`, `RefCountCalls.dfy` and `HazardCalls.dfy`: what the
  return value of an `insert` or `delete` tells, in all six schemes. `Progress.dfy` with
  `WorldAlone.dfy`, `RefCountAlone.dfy`, `HazardAlone.dfy` and `AmortAlone.dfy`: a thread
  that runs alone completes its call, from every reachable state, and does what the call
  is for.
- `Readers.dfy`, `Trails.dfy`, `Gecos.dfy`, `Sgecos.dfy`, `ListLock.dfy`: the `search` loops. Readers
  never store, so each load happens at any later instant of an arbitrary run of the
  writers. An answer is *linearizable* (`Answered`) when the pointer walk from the
  bucket's head gave it at an instant between call and return. `Chains.dfy`, `Acyclic.dfy`:
  following next links always ends. `Witness.dfy`: concrete runs in which an assertion fails and an
  unassigned variable is read.
- `RefCounts.dfy` and the `RefCount*.dfy` files: lock-free reference counting, with
  searches, `safe_read`, the recursive decrement, inserts and deletes interleaved one
  shared access at a time. `Cascade.dfy`: the recursive decrement run alone on a heap.
- `HazardPointers.dfy` and the other `Hazard*.dfy` files: hazard pointers, with scans
  that read the slots one by one while readers publish; `HazardChecks.dfy`: the re-checks
  of a search, read off the run; `HazardWitness.dfy` is a run in
  which a free node is read. `Scan.dfy`: `scan` on real lists and arrays,
  with `compare`, sorting and binary search.
- `Allocator.dfy`, `AmortAllocator.dfy`: the default free lists of one thread, and the
  SIMPLE_AMORT_FREE lists of many threads.

Conventions: interleavings are sequentially consistent, counters are unbounded, memory
is type-stable. The node pool of the list models has an arbitrary size; a node that
`calloc` would return is a free node that was never used. Which node the allocator
returns, which thread moves next and when a reader loads are arbitrary.

## Model

| member | source | states |
|---|---|---|
| `Writers.AlwaysSorted` | list_writer.c:11-79 | after every single store of every run of the writers, each bucket's list is strictly sorted and acyclic, also while recycled nodes are being prepared |
| `Writers.StepChangesSet` | list_writer.c:20-73 | a bucket's set changes only at the writer's two stores to `*prev`, by exactly the key that the writer looked for, in every scheme |
| `Calls.ReturnIsHonest` | list_writer.c:11-79 | a call that returns 1 contains exactly one list store of its own, which removes or adds exactly its key; a call that returns 0 stores nothing, and at an instant of the call the key was absent (delete) or present (insert) |
| `Calls.UndisturbedCall` | list_writer.c:11-79 | a call during which nobody else changes the set returns 1 exactly if the key was absent (insert) or present (delete) at the call, and leaves the old set with or without the key |
| `WorldCalls.ReturnTells` | list_writer.c:11-79 | the account of `ReturnIsHonest` holds, for the operation, bucket and key it was called with, of every call of every run under GECOS, SGECOS, SEQLOCK and GCLOCK, with competing writers and with the unlocked `*head == NULL` probe |
| `WorldCalls.StartsCall` | list_writer.c:11-15 | a thread told to insert or delete a key in a bucket sets out to do exactly that |
| `WorldAlone.Completes` | list_writer.c:11-79 | from every reachable state of the four schemes, wherever a writer stands in its lock loop, traversal or reclamation, it returns when it runs alone and nobody holds the bucket it waits for, within a number of steps that `FewSteps` bounds by the pool size + 10 |
| `WorldAlone.CallAlone` | list_writer.c:11-79 | a call that runs alone from a free bucket returns, within the pool size + 11 steps, 1 exactly if the key was absent (insert) or present (delete), and leaves the old set with or without the key |
| `RefCountCalls.ReturnTells` | list_writer.c:11-79 | the same account of every insert and delete under reference counting |
| `RefCountCalls.CallDecides` | list_writer.c:11-79 | under reference counting an insert or delete, interleaved with searches, decrements and calls on other buckets, returns 1 exactly if its key was absent or present at the call, and the set of its bucket differs at the return by that key only |
| `HazardCalls.ReturnTells` | list_writer.c:11-79 | the same account under hazard pointers, whose deletes may scan before they return |
| `HazardCalls.CallDecides` | list_writer.c:11-79 | as `RefCountCalls.CallDecides`, under hazard pointers |
| `HazardCalls.StepChangesSet` | list_writer.c:20-73 | under hazard pointers a bucket's set changes only at the two stores to `*prev`, by exactly the writer's key |
| `Writers.Delete` | list_writer.c:11-45 | the loop under GECOS and SGECOS: returns 1 exactly when the key was in the set at the call; the set then changes at one instant only and loses exactly that key, with writers of other buckets interfering |
| `Writers.Insert` | list_writer.c:48-79 | the loop under GECOS and SGECOS: returns 1 exactly when the key was not in the set at the call; the set then changes at one instant only and gains exactly that key |
| `Writers.UnlinkAndFree` | list_sgecos.c:61-69 | unlink, generation bump and free: the key disappears at the first of the three stores and nothing else does |
| `Buckets.UnlinkEffect` | list_writer.c:25 | the unlinking store removes one key, keeps every list sorted, and the unlinked node still leads into its list |
| `Buckets.PublishEffect` | list_writer.c:69-73 | the publishing store adds one key and keeps every list sorted |
| `Worlds.RunInv` | list_writer.c:11-79 | the invariant of lists, writers, locks and node ownership in every reachable state of the four schemes |
| `WorldCalls.NeverStuck` | list_writer.c:11-79 | every writer has a next step in every reachable state of the four schemes, unless an insert needs a node and none is free |
| `Readers.RunKeeps` | list_gecos.c:193-197 | generations never decrease, and while a node's generation is unchanged it stays in its bucket, linked or just unlinked, and keeps its key |
| `Gecos.Search` | list_gecos.c:122-175 | GECOS linearizability; at most one attempt more than there were stores to a link or a generation; the keys validated are keys of the bucket's nodes, strictly increasing, and include every key below the search key that stayed in the bucket; the CHECK_CCRT assertion holds in all attempts if no insert or delete was ever called with a negative key, fails if a negative key below the search key stays in the bucket, and fails only if a negative key is met there |
| `Gecos.Attempt` | list_gecos.c:134-174 | one attempt ends, having validated strictly increasing keys of the bucket and skipped none that stayed; it fails only if a link or a generation changed meanwhile |
| `Gecos.SearchRelink` | list_gecos.c:80-120 | the same guarantee for GECOS_R; relinks are bounded by the interfering stores |
| `Gecos.SearchBack` | list_gecos.c:28-78 | the same guarantee for GECOS_B, also when `prev` stems from an earlier attempt, unless the first node it visits is recycled between the loads of its generation and its first validation; attempts and back-steps together are bounded by the interfering stores |
| `Gecos.TraceIsSchedule` | list_gecos.c:38-67 | the excluded case is exact: wherever a run has such loads, a schedule of the search's loads leads `SearchBack` to the unassigned `prev_gc`, for every key |
| `Witness.UnsetPrevHappens` | list_gecos.c:58-59 | a legal run and a schedule on which the search ends there |
| `Witness.NegativeKeyFails` | list_gecos.c:168 | in the runs that insert a negative key, every default search for a larger key, called while the bucket holds it and whatever its schedule, trips the CHECK_CCRT assertion |
| `Gecos.Validated` | list_gecos.c:147-163 | what the two re-checks of one iteration prove about the key, the link and the next node |
| `Sgecos.Search` | list_sgecos.c:27-53 | SGECOS linearizability; the retries of a call are at most the increase of the bucket counter during it; the validated keys increase, are keys of the bucket's nodes, and include every key below the search key that stayed |
| `Sgecos.Attempt` | list_sgecos.c:33-52 | an attempt ends, having validated strictly increasing keys of the bucket and skipped none that stayed; it fails only if the counter grew |
| `ListLock.SearchGc` | list_lock.c:33-56 | GCLOCK linearizability with many CAS writers, although the search compares the generation only before it returns and delete frees after the unlock; retries are at most the unlocks |
| `ListLock.AttemptGc` | list_lock.c:42-55 | an attempt walks unchecked through freed and recycled nodes, yet ends: it visits at most as many nodes as the pool has, once more for each interfering store, and fails only if the generation grew |
| `Acyclic.NeverCyclic` | list_writer.c:24-73 | after every store of every run of the four schemes, following next links ends from any node of the pool, linked, unlinked, free or being recycled |
| `ListLock.SearchSeq` | list_lock.c:33-56 | SEQLOCK: over the whole last attempt the word was one even value, the list was one list, and the answer is its membership |
| `ListLock.EvenWordFreezes` | lock.h:83-98 | while an even lock word is unchanged, no list store falls on its bucket |
| `Locks.MutualExclusion` | lock.h:196-206 | at most one writer is inside a bucket's lock |
| `Locks.LockAssertHolds` | lock.h:206 | the assertion after the CAS loop holds in every run |
| `Locks.WordCountsSections` | lock.h:127-138 | the lock word is twice the number of completed sections plus one while held |
| `Locks.SwapTakesLock` | lock.h:200-205 | the compare-and-swap takes the lock exactly if the word is what was loaded; nobody held the bucket then, and the word grows by one |
| `Locks.DeleteProbes` | list_writer.c:15 | under the locks a delete, and no insert, begins with a load of the head without the lock |
| `Locks.ProbeSkipsLock` | list_writer.c:15-18 | a delete returns without the lock, whoever holds it, exactly if the bucket is empty at its probe |
| `Locks.FreesInOrder` | list_writer.c:25-37 | in every run a deleted node is freed under SEQLOCK before the unlock, under GCLOCK after it, under GECOS and SGECOS after the increment |
| `Stamps.GenerationCountsDeletes` | list_gecos.c:193-197 | GECOS: in every reachable state a node's generation is the number of times it was deleted, one less between the unlink and `n->gc++` |
| `Stamps.CounterCountsDeletes` | list_sgecos.c:61-69 | SGECOS: in every reachable state a bucket's counter is the number of deletions from it, one less between the unlink and `(*lock)++` |
| `Locks.SectionRaisesGeneration` | lock.h:208-212 | each lock/unlock pair raises `word >> 1` by exactly one |
| `RefCountRuns.RunInv` | rc.c:41-105 | the counting invariant in every reachable state of searches, inserts, deletes and recursive decrements |
| `RefCountSafety.CountIsExact` | rc.c:41-105 | a node's `rc` is the number of counted links to it plus the references threads hold, and exactly one more in the two windows of insert and delete |
| `RefCountSafety.SlackIsOne` | list_rc.c:50-55 | at most one uncounted link points to a node, that of a node between unlink and recount, and only while the target is linked |
| `RefCountSafety.ZeroIff` | list_rc.c:57-62 | `rc` is 0 exactly for nodes that are free, dying, or allocated and not yet initialised |
| `RefCountSteps.LastUnitRetired` | rc.c:81-85 | the decrement that reaches 0 only ever hits a node that was unlinked and recounted |
| `RefCountSafety.AssertionHolds` | rc.c:78 | `assert(p->rc > 0)` never fails |
| `RefCountSafety.HeldIsNeverFree` | list_rc.c:33-45 | the node a search dereferences as `cur` has a positive count, is linked in the bucket or was unlinked from it during the call, and is not free |
| `RefCountSafety.NeverStuck` | rc.c:5-19 | every thread has a next step in every reachable state, unless an insert needs a node and none is free |
| `RefCountSafety.FreedOncePerIncarnation` | rc.c:81-85 | over any run, each incarnation of a node is unlinked once and freed by exactly one call of `rc_free_node`, in this order |
| `RefCountSafety.FreeIsOfDead` | rc.c:81-85 | `rc_free_node` is only called on a node whose count is 0 and that is not free yet, and nothing else frees a node |
| `RefCountSafety.GenerationCountsFrees` | rc.c:81-85 | `p->gc++` runs exactly once per freed incarnation, before the free: a node's generation is the number of its past lives |
| `RefCountSafety.StepChangesSet` | list_writer.c:20-73 | under reference counting too a bucket's set changes only at the two stores to `*prev`, by exactly the writer's key |
| `RefCountHistory.StepMoves` | list_writer.c:25-31 | each step moves a node at most one stage on in its life, and keys and links of unlinked nodes stay |
| `RefCountHistory.RunMemories` | list_writer.c:25-31 | an unlinked node's link spans a gap that the list had at the instant of the unlink, and leads to a node that left the list later, if at all |
| `RefCountReaders.Hop` | rc.c:41-62 | what `safe_read` returns is a node of the bucket at an instant of the call, and an overshot key was absent at one |
| `RefCountReaders.RunArguments` | list_rc.c:27-48 | from its first step to its return a search keeps the bucket and the key it was called with, and the instant of the call |
| `RefCountReaders.SearchLinearizable` | list_rc.c:27-48 | the answer of the refcounted search was the membership of the key it was called with, in that bucket, at an instant of the call, although it walks through unlinked nodes |
| `RefCountAlone.Completes` | rc.c:41-86 | from every reachable state a thread that runs alone completes its search, insert or delete, with every retry, decrement and free that entails, in a number of steps linear in the pool size |
| `RefCountAlone.SearchAlone` | list_rc.c:27-48 | a search that runs alone returns whether the key is there, within 14 steps per node of the pool and 14 more, and changes no set |
| `RefCountAlone.CallAlone` | list_writer.c:11-79 | an insert or delete that runs alone returns 1 exactly if the key was absent or present, within the same bound, and changes the set by that key only |
| `Cascade.Dec` | rc.c:65-86 | on any heap: which nodes are freed and in what order, whose count is lowered, which generations are bumped, that nothing else changes, that it ends, and exactly when its assertion fails |
| `Cascade.FreesMaximalPrefix` | rc.c:81-85 | on an acyclic chain the freed nodes are the maximal prefix with `rc == 1`, and the first survivor is decremented once |
| `Cascade.RingTripsAssertion` | rc.c:78 | on a ring of nodes with single references the assertion fails |
| `HazardSafety.ScanSparesProtected` | hp.c:76-103 | a node that a slot has held continuously since it was linked is not freed by any scan of any writer, in every interleaving of slot reads and publications |
| `HazardSafety.RecheckProtects` | list_hp.c:38-45 | the re-check at the head, or at a predecessor that is still linked, establishes the premise: from then on the node is not freed and keeps its key for as long as the slot names it |
| `HazardChecks.RecheckDecides` | list_hp.c:42-45 | the search reads on exactly if the link still leads to `cur`, and starts from the head otherwise |
| `HazardChecks.ReadsNoFreeNode` | list_hp.c:38-58 | when search reads a field of `cur` or of the node of `prev`, its last re-check in the run was of the link to that node, and the node is not free if that link was the head or belonged to a linked node; two slots suffice |
| `HazardWitness.FreeNodeIsRead` | list_hp.c:41-50 | the condition is needed: a legal run in which the re-check at an unlinked node succeeds and the search goes on to read a node that a scan has freed |
| `HazardReaders.SearchLinearizable` | list_hp.c:29-61 | the answer of the hazard-pointer search was the membership of the key it was called with at an instant of the call, if its last two re-checks in the run were made at the head or at a node linked at that instant |
| `HazardReaders.SearchAmongInserts` | list_hp.c:29-61 | the same without that premise, if no node of the bucket is unlinked during the call |
| `HazardAlone.Completes` | list_hp.c:29-61 | from every reachable state, also when it stands on a free node, a thread that runs alone completes its search, insert or delete, scan included, in a number of steps that `FewSteps` bounds by pool size, slots and threshold |
| `HazardAlone.NeverCyclic` | list_writer.c:24-73 | following next links ends under hazard pointers too, from any node in any reachable state |
| `HazardAlone.SearchAlone` | list_hp.c:29-61 | a search that runs alone returns whether the key is there, within 4 steps per node of the pool and 8 more, and leaves every head and node as it is |
| `HazardAlone.CallAlone` | list_writer.c:11-79 | an insert or delete that runs alone returns 1 exactly if the key was absent or present, and changes the set by that key only |
| `HazardSteps.GarbageBounded` | hp.c:106-113 | no retired node is lost, a zombie list has at most R nodes outside a scan, each completed scan freed at least 101 + K * nbthreads nodes, and n retirements cause at most n / (101 + K * nbthreads) scans, the one in progress included |
| `HazardCalls.NeverStuck` | list_hp.c:29-61 | every thread has a next step in every reachable state, unless an insert needs a node and none is free |
| `HazardSteps.CollectedFits` | hp.c:76-81 | what a scan collects fits its array although the loop covers all H slots |
| `Scan.CompareIsOrderIff` | hp.c:41-44 | the truncated difference is antisymmetric over a contiguous pool if and only if the pool spans at most 2^31 nodes, and then is the address order |
| `Scan.Reclaimer.Collect` | hp.c:76-81 | the array holds exactly the nodes seen in the slots, every store in bounds |
| `Scan.Reclaimer.Judge` | hp.c:96-102 | a zombie is kept exactly if it was collected, by binary search with `compare` |
| `Scan.Reclaimer.ScanSlots` | hp.c:46-104 | exactly the zombies that no slot was seen to hold are freed, in which order, the others stay, none is lost, and `number` is the length of the list |
| `Scan.Reclaimer.FreeNodeLater` | hp.c:106-113 | between calls `number` is the length of the list and at most R; a call that scans frees at least 101 + K * nbthreads nodes |
| `Scan.Reclaimer.GetFree` | allocator_malloc.c:158-164 | SIMPLE_ALLOC hands out the head of the free list and never a zombie, although both lists share `mr_next` |
| `Allocator.Lists.GetFree` | allocator_malloc.c:87-100 | pops the local list, refilled by the whole global list; the node is in use nowhere |
| `Allocator.Lists.NewNode` | allocator_malloc.c:173-184 | never returns a node in use, and changes no node |
| `Allocator.Lists.AddFree` | allocator_malloc.c:125-154 | the chains stay acyclic and disjoint from each other and from nodes in use, `lfl_tail` is null, local or in use, only `mr_next` fields change, and of the nodes in use at most the one `lfl_tail` names, by a flush |
| `Allocator.FlushBreaksLink` | allocator_malloc.c:136-146 | a run in which that happens: a flush overwrites the `mr_next` of a node in use that its owner had linked to another |
| `Allocator.SplicedIs` | allocator_malloc.c:136-153 | exactly which nodes a flush passes on and which it drops, by where `lfl_tail` stands |
| `AmortAllocator.NodesConserved` | allocator_malloc.c:87-123 | with any number of threads, each node is in exactly one of: in use, one local list, the global list |
| `AmortAllocator.TakeInv` | allocator_malloc.c:89-93 | a successful take-all CAS takes the list as it is at that instant, although the head may have left and come back since it was loaded |
| `AmortAllocator.ListsArePointers` | allocator_malloc.c:104-123 | walking `mr_next` from `freelist` or from an owned `lfl` meets exactly the nodes of that list |
| `AmortAllocator.PoppedIsFree` | allocator_malloc.c:97-99 | the node `get_free` returns was in the thread's own list and in use nowhere |
| `AmortAlone.PushDecides` | allocator_malloc.c:109-113 | `add_free` puts the node in front of the local list and counts it, and tries to give the list away exactly if the count has reached 100 and `freelist` is null |
| `AmortAlone.GiveDecides` | allocator_malloc.c:115-121 | the whole local list becomes the global one exactly if the global one is empty at the compare-and-swap |
| `AmortAlone.ClearDecides` | allocator_malloc.c:118-120 | after that the thread is between two calls with an empty list and count 0 |
| `AmortAlone.CountIsFrees` | allocator_malloc.c:111-120 | `lcnt` is the number of nodes the thread freed since it last gave its list away |
| `AmortAlone.Completes` | allocator_malloc.c:87-123 | from every reachable state a thread that runs alone completes `get_free` or `add_free` in at most four steps |
| `AmortAlone.FreeAlone` | allocator_malloc.c:104-123 | `add_free` that runs alone: both lists and the count afterwards, in each case |
| `AmortAlone.GetAlone` | allocator_malloc.c:87-100 | `get_free` that runs alone: the head of the local list, else of the global list, whose rest becomes local, else a node of calloc |
| `AmortAlone.Handover` | allocator_malloc.c:87-123 | the node that one thread frees as its hundredth is handed out to another thread that has none, with the whole list behind it |
| `AmortAlone.NodesChangeHands` | allocator_malloc.c:113-122 | a legal run in which that happens |

## Left out

- Weak memory and barriers (`atomic.h`): every step is sequentially consistent.
- Wrap-around of `gc_t`, of the lock words and of the 4-byte `rc` updates: counters are unbounded.
- Gecos.SearchBack: claims nothing about the answer when the C code compares the unassigned `prev_gc` (list_gecos.c:59 before list_gecos.c:72 ever ran); the result `defined` says so, and is false only when the first node was recycled under the search (`CanReadUnset`), where `FirstLost` makes it false.
- Writers.Insert: the pool has an arbitrary size and `served` is false when no node is free, where the C code calls `calloc`.
- Writers.Delete, Writers.Insert: the loops run under GECOS and SGECOS, where the bucket has one active writer; under competing locks, reference counting and hazard pointers the calls are steps of threads, and what they do is WorldCalls.ReturnTells, WorldAlone.CallAlone, RefCountCalls.CallDecides and HazardCalls.CallDecides.
- ListWriter.WalkNext: one traversal iteration of a writer is one step, since nobody else stores to its bucket.
- RefCounts.CompareNext, HazardPointers.CompareNext: the two reads of `cur->key` (`>=`, then `==`) are one step; the key of a protected node does not change between them.
- HazardChecks.ReadsNoFreeNode, HazardReaders.SearchLinearizable: nothing is claimed when the re-check read the link of a node that was already unlinked; `list_writer.c` does not mark such links, so the re-check then says nothing about `cur`, and `HazardWitness.FreeNodeIsRead` shows `cur` free.
- Allocator.Lists.AddFree: no conservation, because `get_free` does not maintain `lfl_tail` and `lcnt` and a flush may drop nodes; one thread only.
- Scan.Reclaimer: `qsort` and `bsearch` of libc are written out as an insertion sort and a binary search; addresses are in units of the node size.
- HazardSteps.GarbageBounded: without DIRECT_SCAN.
- `OSA_BEST` and `GCLOCK_NONEED` deferred frees, `SEQLOCK_VLD`, and the ONE_WRITER forms of the lock macros.
- RWLOCK, LSPIN and LOCK_CLASSIC, which wrap library locks; `rcu.c` and `list_rcu.c`, whose guarantee is the external library's.
- `free_nodes`, `allocator_thread_free`, `delete_allocator` and `prealloc`.
- `mrow.c` and `util.h`: the benchmark driver; keys select a bucket before the modelled calls begin.
- Counters kept only for reporting.
