# Verification of Bonostl's concurrent core

Bonostl is a header-only C++ concurrency library. This project models its lock-free and lazy containers, their
memory reclamation and its parallel algorithms in Dafny, and proves what the headers promise of them.

The concurrent parts are step machines: a state, one atomic load, store, exchange, compare-and-swap or lock
operation a step, and any number of threads, each inside its own operation. A theorem about a run holds for every
sequence of steps, so for every interleaving. Fields described as history (when a node was linked, who made it, the
log of effects) are written by the steps and read by none of them.

- **Lazy skip list** (`SkipList*.dfy`): its chains are sorted and nest, an erased node is off every level when it is
  retired and is retired once, the operations are linearizable, the locks form no cycle, no thread waits in vain, and
  an operation that runs alone returns.
- **Epoch domain** (`Epoch*.dfy`): no node that an active guard may use is freed, nothing is freed twice, and a pass
  frees everything that is older than the guards it sees.
  `EpochSkipList` runs the skip list on the domain and proves that no operation dereferences a freed node.
  `EpochLimits` settles which uses of `collect` are safe: exactly those inside a guard.
- **Harris-Michael list** (`LockFreeList*.dfy`): sorted, marked nodes frozen, retired once, linearizable with the
  hindsight argument for answers given past a predecessor that was marked meanwhile.
- **Split-ordered hash map** (`SplitOrder.dfy`, `ReverseBits.dfy`, `SplitOrderedMap.dfy`): a heap class with the
  code's nodes and helping searches. Run sequentially, every sequence of operations answers as a mathematical map.
- **Treiber stack with hazard pointers** (`HazardStack*.dfy`): with slot scans one load at a time and addresses
  reused at once, no freed node is read, no compare-and-swap is fooled, no node is lost, and the stack is linearizable.
- **Fork-join on the work-stealing pool** (`ForkJoin*.dfy`): waiting while helping cannot deadlock, every fair
  schedule finishes within a stated number of steps, and each element is visited exactly once.
- **Parallel algorithms** (`Parallel*.dfy`, `StableSort.dfy`): scans, searches, counts and sorts equal their
  sequential forms under every schedule of their tasks, and so does the partial sum exactly if `+` commutes or there
  is one chunk.

`Linearizability.dfy` says what linearizable means, of the calls and returns of a run and nothing inside it: there is
a sequential history of the calls that gives each call at most one turn, agrees with every answer returned and keeps
real-time order. The runs of the list, the skip list, the stack and the pool carry labels for this (`*Calls.dfy`): who
called what with which arguments, who stepped, who returned what.

`SetHistory.dfy`, `Lifetimes.dfy` and `SetCalls.dfy` hold what the two sets share: histories of set operations, how the
set follows from the lifetimes of nodes, and the step from "every answer is right about some state inside its
operation" to linearizability. They model no code by themselves.

Where documentation and code disagree the model follows the code:

- `epoch_domain::retire` is documented to free a node once no active guard announced an epoch *after* the retirement
  (include/epoch_reclaim.hpp:48-49). The code waits until every active guard announced a *later* epoch than the
  retirement's (lines 86-88), which is what safety needs.
- `epoch_domain::collect` is public and documented to force a pass (lines 65-67), with no word about guards. Outside
  a guard it can free a node that an active guard still uses: `EpochLimits.UnguardedCollectFrees` gives the run.
- `parallel_partial_sum` adds the end value of the chunk before on the right (include/parallel_partial_sum.hpp:29 and
  37), so with two chunks or more it gives the sequential prefix sums only if `+` commutes; `std::partial_sum` asks
  for no such thing. `ParallelPartialSum.OrderMatters` states this exactly.
- `thread_pool` warns that a task must not wait for another task of the pool (include/thread_pool.hpp:17-19). The
  theorems are about tasks that wait by helping, as `parallel_for_each` does.

## Model

| member | source | states |
|---|---|---|
| SkipListTheorems.LevelSorted | include/concurrent_skip_list.hpp:80-202 | In every state of every run the chain that `next` pointers form from head at each level is strictly sorted, ends at tail and visits exactly the nodes linked at that level |
| SkipListTheorems.LevelsNest | include/concurrent_skip_list.hpp:109-202 | In every state of every run a node reachable at one level is reachable at every lower level (linking bottom-up, splicing top-down) |
| SkipListTheorems.NodesLater | include/concurrent_skip_list.hpp:109-202 | From any state of a run to any later one a marked node's `next` array never changes, a mark or `fully_linked` is never cleared, and a node that left a level never returns to it |
| SkipListTheorems.SpliceFindsVictim | include/concurrent_skip_list.hpp:172-188 | A splicing thread's current node is its victim or sorts before it, so the "already spliced" exit never leaves a linked victim behind |
| SkipListTheorems.RetireIsSafe | include/concurrent_skip_list.hpp:172-205 | When a thread is about to retire its victim, the victim hangs on no level and nobody retired it before |
| SkipListTheorems.RetiredOnce | include/concurrent_skip_list.hpp:172-205 | A retired victim was retired exactly once, and it is unreachable from head at every level in that state and in every later one |
| SkipListTheorems.StepChanges | include/concurrent_skip_list.hpp:109-165 | Only the store of `fully_linked`, which adds one absent key, and the mark, which removes one present key, change the set; every other step leaves it |
| SkipListTheorems.HistoryIsTrue | include/concurrent_skip_list.hpp:229-244 | The set that the effects so far add up to is, in every state, the keys on nodes that are fully linked and not marked |
| SkipListTheorems.AnswersAreRight | include/concurrent_skip_list.hpp:50-221 | For every completed insert, erase and contains there is a state inside the operation that its answer is true of, and a change of the set is the step from that state; `SkipListCalls.RecordsAreCalls` says that the completed operations are those called |
| SkipListTheorems.SkipListLinearizable | include/concurrent_skip_list.hpp:50-221 | The completed operations of every run, with the changes of unfinished ones, form one legal sequential set history in real-time order that ends in the contents in memory |
| SkipListCalls.RecordsAreCalls | include/concurrent_skip_list.hpp:50-221 | With every call and return of a run labelled from outside, the completed operations are exactly the calls that returned, with the operation, the key and the answer of the labels |
| SkipListCalls.CallsLinearize | include/concurrent_skip_list.hpp:50-221 | Every run is linearizable over its calls: they have one sequential history of a set that agrees with every answer returned, keeps real-time order, gives each call one turn and ends in the contents in memory |
| SkipListRetiring.ErasedIsRetired | include/concurrent_skip_list.hpp:155-205 | In every state of every run a marked node has been retired, or the erase that marked it is still splicing it or about to retire it, so none is lost |
| SkipListLocks.LocksHeld | include/concurrent_skip_list.hpp:85-118 | In every state of every run a node's lock is held by exactly the thread that the code has holding it, so insert locks each distinct predecessor once and every exit frees exactly what was locked |
| SkipListLocks.UnlockLocks | include/concurrent_skip_list.hpp:309-318 | A step of `unlock_preds` frees the lock of a run of equal predecessors at its lowest level only and keeps every lock held for a level still to come |
| SkipListLocks.LocksDescend | include/concurrent_skip_list.hpp:85-95 | The lock a thread asks for belongs to a node strictly before every node whose lock it holds, so it never asks for one it has |
| SkipListLocks.WaitsAcyclic | include/concurrent_skip_list.hpp:85-200 | In no state of any run does a chain of threads, each waiting for a lock that the next holds, come back to its start |
| SkipListLocks.ReadyOrBlocked | include/concurrent_skip_list.hpp:325-350 | A thread inside an operation can take its next step unless it waits for a held lock: it never dereferences null or an entry above a node's top level |
| SkipListProgress.WaitedIsMade | include/concurrent_skip_list.hpp:70-74 | A node that an insert waits to see fully linked is being linked by another thread, which can take its next step and is at most 33 of its own steps from setting the flag |
| SkipListProgress.PublishNears | include/concurrent_skip_list.hpp:109-113 | Every step of a run leaves a linking thread as it is, brings it exactly one step nearer to setting `fully_linked`, or sets it |
| SkipListProgress.OnlyWaitSpins | include/concurrent_skip_list.hpp:50-221 | Every step of an operation writes memory or moves its thread on, except the load of an insert that waits for an equal node to be fully linked |
| SkipListProgress.NoDeadlock | include/concurrent_skip_list.hpp:50-221 | In every state of every run with an unfinished operation some thread can take a step that writes memory or moves it on: that operation's own, the maker of the node it waits for, or a holder of a lock |
| SkipListAlone.AloneReturns | include/concurrent_skip_list.hpp:50-221 | From any state of any run in which no other operation is unfinished, an operation that runs alone returns within a number of steps told by that state |
| SkipListAlone.NeverStuck | include/concurrent_skip_list.hpp:80-202 | With no other operation unfinished nobody holds a lock against the thread: it can take its next step |
| EpochTheorems.HeldIsNotFreed | include/epoch_reclaim.hpp:65-96 | In every state of every run with passes inside guards, no node that was not yet unreachable when an active guard began has been freed, despite slots scanned one by one in two loads each |
| EpochTheorems.ExpiredIsFree | include/epoch_reclaim.hpp:83-95 | An item that a pass finds older than the least announced epoch was unreachable before every guard active at that moment began |
| EpochTheorems.RetiredIsSomewhere | include/epoch_reclaim.hpp:50-96 | Each retired node is freed at most once and otherwise is in exactly one place, the shared list or one thread's hands |
| EpochPasses.ScanLooksEverywhere | include/epoch_reclaim.hpp:71-80 | A pass looks at every slot, and reads the announced epoch of each one that it finds active |
| EpochPasses.PassFrees | include/epoch_reclaim.hpp:65-96 | Every item of the list that a pass takes whose epoch is below all the epochs that the pass read is freed when the pass is done: all items, if it found no slot active |
| EpochPasses.QuietMomentFrees | include/epoch_reclaim.hpp:65-96 | What is in the shared list at a moment when no guard is held is freed by any pass that begins later and finds it there, whatever guards were entered since |
| EpochPasses.ThresholdBeginsPass | include/epoch_reclaim.hpp:59-62 | A retirement begins a pass if and only if it is the 128th counted since the last pass began |
| EpochPasses.RetireShares | include/epoch_reclaim.hpp:50-63 | A call of `retire` is counted only after its node was put in front of the shared list, with an epoch read after the call |
| EpochAlone.AloneReturns | include/epoch_reclaim.hpp:65-165 | A thread that runs alone from any state finishes entering or leaving its guard, its retirement or its pass within a number of steps told by that state |
| EpochTheorems.EpochsAreUnique | include/epoch_reclaim.hpp:139-144 | No two active guards have announced the same epoch |
| EpochLimits.UnguardedCollectFrees | include/epoch_reclaim.hpp:65-96 | As soon as one thread may collect outside a guard, a state is reachable in which a node is freed that another thread's active guard may still use |
| EpochLimits.GuardIsNeeded | include/epoch_reclaim.hpp:65-96 | For every set of threads allowed to collect outside a guard: no run that keeps to it frees a held node if and only if the set is empty |
| EpochSkipList.TouchedIsSeen | include/concurrent_skip_list.hpp:320-350 | Every node that the next step of an operation reads, writes or locks was on the bottom level at some time since the operation began |
| EpochSkipList.NeverTouchesFreed | include/concurrent_skip_list.hpp:8-13 | In every run of the skip list on the epoch domain no step of any operation dereferences a freed node |
| EpochSkipList.FreedOnce | include/concurrent_skip_list.hpp:204-205 | Every node that the skip list retired is freed at most once, only after it left every level, and until then waits in exactly one place |
| EpochSkipListPasses.DomainRuns | include/concurrent_skip_list.hpp:50-54 | The domain's part of a run of the skip list is a run of the domain with all passes inside guards, so what is proved of the domain holds there |
| EpochSkipListPasses.SystemPassFrees | include/concurrent_skip_list.hpp:204-205 | A pass in a run of the skip list frees every node of the list it takes whose epoch is below all the epochs that it read |
| EpochSkipListPasses.ErasedAreFreed | include/concurrent_skip_list.hpp:204-205 | Erased nodes waiting at a moment when no operation holds a guard are freed by any later pass that finds them in the shared list |
| EpochSkipList.ListRuns | include/concurrent_skip_list.hpp:50-221 | A run of the combined system, seen without the domain, is a run of the skip list, so every theorem about its runs holds with reclamation |
| LockFreeListTheorems.ListSorted | include/lockfree_list.hpp:188-247 | In every state of every run the chain from head is strictly sorted, ends in null, visits exactly the linked nodes and so reaches every unmarked one |
| LockFreeListTheorems.MarkedIsFrozen | include/lockfree_list.hpp:107-124 | A marked node's `next` never changes again, its mark is never cleared, and an unlinked node is never linked again |
| LockFreeListTheorems.RetiredOnce | include/lockfree_list.hpp:117-231 | Over the erases and helping searches of all threads no node is retired twice, and a retired node is marked and unreachable from head in every later state |
| LockFreeListTheorems.StepChanges | include/lockfree_list.hpp:79-124 | A publishing compare-and-swap adds exactly one absent key, a marking one removes exactly one present key, and every other step, unlinking included, leaves the set |
| LockFreeListTheorems.HistoryIsTrue | include/lockfree_list.hpp:148-165 | The set that the effects so far add up to is, in every state, the keys on unmarked nodes |
| LockFreeListTheorems.AnswersAreRight | include/lockfree_list.hpp:58-139 | For every completed operation, also one that answers "absent" after passing a predecessor marked meanwhile, there is a state inside it that its answer is true of, and a change of the set is the step from that state |
| LockFreeListTheorems.ListLinearizable | include/lockfree_list.hpp:58-139 | The completed operations of every run, with the changes of unfinished ones, form one legal sequential set history in real-time order that ends in the contents in memory |
| LockFreeListCalls.RecordsAreCalls | include/lockfree_list.hpp:58-139 | With every call and return of a run labelled from outside, the completed operations are exactly the calls that returned, with the operation, the key and the answer of the labels |
| LockFreeListCalls.CallsLinearize | include/lockfree_list.hpp:58-139 | Every run is linearizable over its calls: they have one sequential history of a set that agrees with every answer returned, keeps real-time order, gives each call one turn and ends in the contents in memory |
| LockFreeListRetiring.UnlinkedIsRetired | include/lockfree_list.hpp:117-231 | In every state of every run an unlinked node has been retired, or the thread that unlinked it is about to retire it, so none is lost |
| LockFreeListAlone.AloneReturns | include/lockfree_list.hpp:58-247 | From any state of any run a thread that runs alone returns within 20 times the number of nodes plus 30 steps, whatever the others have left undone |
| LockFreeListTheorems.NeverStuck | include/lockfree_list.hpp:188-247 | Every thread inside an operation can take its next step: what it dereferences is never null |
| ReverseBits.CodeReverses | include/lockfree_hash_map.hpp:210-217 | The five masked swaps of `reverse_bits` give the 32 bits in reverse order, and doing them twice gives back the word |
| ReverseBits.CodeMovesBit | include/lockfree_hash_map.hpp:210-217 | Bit i of the code's result is bit 31 - i of its argument |
| SplitOrder.BucketOfMasks | include/lockfree_hash_map.hpp:236-239 | With 2^k buckets the bucket of a hash is its low k bits and nothing else |
| SplitOrder.BucketInterval | include/lockfree_hash_map.hpp:207-239 | With 2^k buckets, k up to 32, a hash belongs to bucket b if and only if its data split key lies strictly between b's sentinel key and that key plus 2^(33 - k) |
| SplitOrder.DoublingSplits | include/lockfree_hash_map.hpp:403-415 | Doubling 2^k buckets splits bucket b into exactly b and b + 2^k, whose sentinel sorts at the middle of b's interval |
| SplitOrder.MemberAfterSentinel | include/lockfree_hash_map.hpp:219-234 | The sentinel of a hash's bucket sorts strictly before the hash's data nodes, for every bucket count up to 2^32 |
| SplitOrder.BucketKeyInjective | include/lockfree_hash_map.hpp:221-226 | Different buckets have different sentinel keys |
| SplitOrder.ParentClearsTop | include/lockfree_hash_map.hpp:360-365 | The parent of a bucket is the bucket without its most significant set bit, all other bits kept |
| SplitOrder.ParentSortsBefore | include/lockfree_hash_map.hpp:360-372 | The parent's sentinel sorts strictly before the bucket's own, so it can anchor the insertion |
| SplitOrder.ParentPopCount | include/lockfree_hash_map.hpp:338-366 | Each step to the parent takes away one set bit, which bounds the depth of the recursion of `find_bucket` |
| SplitOrderedMap.Normalized | include/lockfree_hash_map.hpp:197-205 | The bucket count is the least power of two that is at least the request |
| SplitOrderedMap.SearchTells | include/lockfree_hash_map.hpp:308-317 | Where a search for a key stops, it finds a live node of that key with its value if and only if the map has the key, keys with equal split keys included; if not, a new node fits there |
| SplitOrderedMap.StopsOnce | include/lockfree_hash_map.hpp:257-323 | A sorted list has one stopping place for a position, so searching from the bucket's sentinel gives the same answer as from head |
| SplitOrderedMap.SentinelTells | include/lockfree_hash_map.hpp:390-401 | A search for an even split key stops before a sentinel of that key if there is one, and otherwise the list has no node of that key |
| SplitOrderedMap.HashMap.constructor | include/lockfree_hash_map.hpp:28-33 | A new map is empty and valid for every requested bucket count |
| SplitOrderedMap.HashMap.FindFrom | include/lockfree_hash_map.hpp:262-323 | From any sentinel that sorts before it, the search ends at the stopping place of its position with `pred` and `curr` unmarked and adjacent, having taken off only data nodes, all of them retired, and leaves the map unchanged |
| SplitOrderedMap.HashMap.FindSentinel | include/lockfree_hash_map.hpp:394-401 | It finds the sentinel with the given key, or the list has no node of that key |
| SplitOrderedMap.HashMap.FindBucket | include/lockfree_hash_map.hpp:338-388 | It returns the sentinel of its bucket, making it and its missing ancestors, terminates, leaves the map unchanged and nests at most 2 hazard slots for each set bit |
| SplitOrderedMap.HashMap.SentinelUnique | include/lockfree_hash_map.hpp:336-388 | Run sequentially, a bucket has at most one sentinel |
| SplitOrderedMap.HashMap.Get | include/lockfree_hash_map.hpp:50-65 | The value the map has for the key, or none; the map is unchanged and at most 66 hazard slots are in use |
| SplitOrderedMap.HashMap.Contains | include/lockfree_hash_map.hpp:152-160 | True if and only if the map has the key; the map is unchanged |
| SplitOrderedMap.HashMap.Put | include/lockfree_hash_map.hpp:69-111 | The map gains or updates exactly this key, true is returned if and only if it was absent, and the size never exceeds the bucket count, a power of two |
| SplitOrderedMap.HashMap.Erase | include/lockfree_hash_map.hpp:114-150 | The map loses exactly this key and true is returned if and only if it was present, whether or not the unlinking compare-and-swap succeeds |
| SplitOrderedMap.HashMap.Grow | include/lockfree_hash_map.hpp:403-415 | The bucket count doubles if and only if there are more keys than buckets, and no node moves |
| SplitOrderedMap.Replay | include/lockfree_hash_map.hpp:49-160 | For every initial bucket count, every hash and every sequence of put, get, erase and contains, run sequentially, the answers are those of a mathematical map, and size is its size and at most a power-of-two bucket count |
| HazardStackTheorems.ScannedIsFree | include/hazard_ptr.hpp:65-70 | A popped node whose scan, slot by slot, met no hazard pointer to it is relied on by no thread |
| HazardStackTheorems.NeverTouchesFreed | include/lockfree_stack.hpp:36-87 | Under every interleaving and every reuse of freed addresses no step dereferences a freed node, and pop reads no node that a push is still preparing |
| HazardStackTheorems.NoABA | include/lockfree_stack.hpp:63-66 | A compare-and-swap of pop that succeeds installs the successor that the top node has at that moment |
| HazardStackTheorems.FreedByItsHolder | include/hazard_ptr.hpp:110-129 | A node about to be scanned and freed is held by that thread alone, off the stack and not yet freed, so no node is freed twice |
| HazardStackTheorems.NeverStuck | include/lockfree_stack.hpp:36-87 | Every thread inside a push or pop can take its next step |
| HazardStackTheorems.StackLinearizable | include/lockfree_stack.hpp:36-87 | The log of effects is a legal last-in-first-out history, memory holds the stack that it leaves, and each completed operation is one event of it inside the operation |
| HazardStackCalls.CallsLinearize | include/lockfree_stack.hpp:36-87 | Every run is linearizable over its calls: the pushes, with the values given, and the pops have one sequential history of a stack that agrees with everything returned, keeps real-time order and ends in the stack in memory |
| HazardStackPasses.PopFrees | include/lockfree_stack.hpp:77-84 | A popped node is freed by the scan of its pop if and only if every hazard slot was loaded and none pointed at it; otherwise one did, and the node waits to be reclaimed |
| HazardStackPasses.SweepFrees | include/hazard_ptr.hpp:110-129 | A sweep frees every node of the reclaim list that it takes, unless a hazard slot pointed at the node when the sweep loaded it |
| HazardStackPasses.NoNodeIsLost | include/hazard_ptr.hpp:100-142 | In every state of every run a node that is not free is being pushed, or on the stack, or held by the pop that took it, or waits to be reclaimed in exactly one place |
| HazardStackAlone.AloneReturns | include/lockfree_stack.hpp:36-87 | From any state of any run a thread that runs alone returns from its push or pop, reclamation included, within a number of steps told by that state |
| ForkJoinTheorems.StepDrops | include/parallel_for_each.hpp:18-54 | A measure over frames and tasks drops on every step of any thread except those that look for work and find none, which change nothing else |
| ForkJoinTheorems.SomeoneIsLatest | include/parallel_for_each.hpp:32-53 | In every state with unfinished work the frame that began last is on top of its thread's stack |
| ForkJoinTheorems.LatestHasWork | include/thread_pool.hpp:92-112 | The thread of the latest frame runs it, finds its child finished, or has a task in a queue that it has not looked past |
| ForkJoinTheorems.EveryStepHelps | include/parallel_for_each.hpp:47-50 | Every step of any thread lowers the measure or leaves the latest frame the latest, and a step of that frame's thread that does not lower it brings one nearer that does, by at most pool width + 5 such steps |
| ForkJoinTheorems.NoDeadlock | include/parallel_for_each.hpp:8-11 | In every state of every run with unfinished work, on a pool of any width, the thread of the latest frame can step, and each step it can take lowers the measure or its distance to a step that does |
| ForkJoinTheorems.NeverStuck | include/thread_pool.hpp:92-140 | Every thread not at rest can take its next step: every queue entry and child it looks at exists |
| ForkJoinProgress.PotentialFalls | include/parallel_for_each.hpp:32-53 | No step of any thread raises the measure of the work left, the distance of the latest frame's thread included, and every step of that thread lowers it |
| ForkJoinProgress.FairRunsFinish | include/parallel_for_each.hpp:8-16 | From every reachable state, if each thread has a turn in any n steps, then after n times a stated number of steps without new calls nothing is left to run and every call has visited each element of its range exactly once |
| ForkJoinResults.VisitsEachOnce | include/parallel_for_each.hpp:17-54 | Whenever `parallel_for_each` returns, under every schedule, it has visited each element of its range exactly once and nothing else |
| ForkJoinCalls.CallsVisit | include/parallel_for_each.hpp:17-54 | With the calls of a run labelled from outside, a call that returns has visited each element of the range that it was given exactly once, and nothing else |
| ForkJoinCalls.FairCallsReturn | include/parallel_for_each.hpp:8-16 | Under every fair schedule all calls made, with the ranges given, return after a stated number of steps without new calls, each having visited its range exactly once |
| ForkJoinQueues.TakesInOrder | include/work_stealing_queue.hpp:8-51 | In every run a worker takes the newest task of its own queue, a thief the oldest of another worker's, and the shared queue gives out its oldest |
| ForkJoinQueues.TasksCapped | include/parallel_for_each.hpp:13-16 | A call of depth d never has more than 2^d - 1 tasks, however large its range is |
| ParallelSearch.StepKeeps | include/parallel_find.hpp:20-57 | No step loses a hit: `done` is set only by a hit, and a hit survives every combination up the tree |
| ParallelSearch.FindsIfAny | include/parallel_find.hpp:66-72 | Under every schedule `parallel_find` returns a matching position if and only if there is one, and `last` otherwise |
| ParallelSearch.CombineIsOr | include/parallel_predicates.hpp:60-61 | Read as truth values, a fork's answer is the disjunction of its halves' answers |
| ParallelSearch.AnyOfAgrees | include/parallel_predicates.hpp:111-119 | Under every schedule `parallel_any_of` is true if and only if some element holds |
| ParallelSearch.AllOfAgrees | include/parallel_predicates.hpp:121-131 | Under every schedule `parallel_all_of` is true if and only if all elements hold |
| ParallelSearch.NoneOfAgrees | include/parallel_predicates.hpp:133-141 | Under every schedule `parallel_none_of` is true if and only if no element holds |
| ParallelSearch.RunsEnd | include/parallel_find.hpp:20-57 | Every run has at most as many steps as the range and depth allow |
| ParallelSearch.HitEndsSearch | include/parallel_predicates.hpp:109-110 | After a hit the whole search takes at most two more steps for each activation begun so far, and begins no new one |
| ParallelSearch.NeverStuck | include/parallel_find.hpp:20-57 | A search that has not returned can step |
| ParallelSearch.ParallelCounts | include/parallel_predicates.hpp:65-107 | For every depth `parallel_count_if` is the number of elements that hold |
| ParallelScan.BlocksPartition | include/parallel_scan.hpp:43-61 | Every block is non-empty and the blocks partition the range |
| ParallelScan.FoldJoins | include/parallel_scan.hpp:12-14 | For an associative operation the fold of a range is the fold of its parts' folds, in order |
| ParallelScan.Carries | include/parallel_scan.hpp:75-80 | Carry i is the fold of everything before block i |
| ParallelScan.ScanBlocks | include/parallel_scan.hpp:82-116 | With right carries every interleaving of the block tasks, an element at a time, leaves the sequential scan, also when the output is the input |
| ParallelScan.ParallelInclusiveScan | include/parallel_scan.hpp:16-119 | For every associative operation, length, thread count and interleaving the output, which may be the input, is the sequential inclusive scan |
| ParallelExclusiveScan.Seeds | include/parallel_scan.hpp:191-197 | Seed i is the fold of `init` followed by everything before block i |
| ParallelScan.FoldFromSnoc | include/parallel_scan.hpp:127-131 | The fold that starts from `init` is `init` before the first element, and takes in one element after the other from the left |
| ParallelScan.FoldSnoc | include/parallel_scan.hpp:8-14 | The fold of one element is that element, and takes in one element after the other from the left |
| ParallelExclusiveScan.ParallelExclusiveScan | include/parallel_scan.hpp:132-227 | For every associative operation, initial value, length, thread count and interleaving each output place, also when the output is the input, holds the fold of `init` followed by everything before the place, so the first holds `init` |
| ParallelPartialSum.PhaseStep | include/parallel_partial_sum.hpp:15-44 | Each step of a chunk's thread keeps every place of its chunk what its phase says, although the end value is told before the rest is adjusted |
| ParallelPartialSum.SomeReady | include/parallel_partial_sum.hpp:26-39 | As long as some chunk is unfinished some chunk's thread can step: a chunk waits only for the one before it |
| ParallelPartialSum.ParallelPartialSum | include/parallel_partial_sum.hpp:59-104 | For every operation, length, thread count and interleaving all chunk threads end and leave the same array, which holds the sequential prefix sums if the operation is associative and commutative |
| ParallelPartialSum.SumsAreRight | include/parallel_partial_sum.hpp:26-39 | For an associative and commutative operation what the chunks leave, each adding the end value before it on the right, is the prefix sum at every place |
| ParallelPartialSum.OrderMatters | include/parallel_partial_sum.hpp:28-38 | For every associative operation with an identity, the code computes the prefix sums of every array of a length if and only if it uses one chunk or the operation commutes |
| StableSort.StableIsUnique | include/parallel_merge_sort.hpp:8-11 | There is only one sorted arrangement that keeps the order of items with equal keys |
| StableSort.StableKeepsOrder | include/parallel_merge_sort.hpp:27-27 | The sort that the methods are proved against keeps the items of each key, in their order |
| StableSort.MergeOfHalves | include/parallel_merge_sort.hpp:31-46 | Merging the stable sorts of two halves gives the stable sort of the whole |
| ParallelSort.InplaceMerge | include/parallel_merge_sort.hpp:46-46 | The two adjacent runs become their stable merge and nothing else changes |
| ParallelSort.ParallelMergeSort | include/parallel_merge_sort.hpp:16-47 | For every range, depth and order of finishing, the range becomes its stable sort and nothing else changes |
| ParallelSort.DoSort | include/parallel_quick_sort.hpp:14-69 | For every depth, input and order of finishing, the result is a sorted permutation of the input |

## Left out

Assumptions of the models:

- Weak memory orderings: memory is sequentially consistent.
- Counter wrap-around: epochs, counts and sizes are unbounded, except where a property is about the 32 bits of a split key.
- Spurious failure of `compare_exchange_weak`: a compare-and-swap fails only if the values differ.
- Templates: keys and elements are integers (sorted items carry a tag besides their key), the map's values and the scans' elements are of any type.
- Objects of the concurrent containers: their nodes and threads are values of a step machine, not heap objects of a class, since every step of every thread must be a transition of one state. A node's index stands for its address.
- Node reuse in the list, map and skip list: an address is used once there. Reuse is modelled in the hazard-pointer stack, and freeing in the stack and the epoch domain.
- Private writes to a node that no other thread can see yet: they are one step with the store or compare-and-swap that publishes it, in the list and the skip list.
- `random_level`: an insert gets any level from 0 to 32.

Not promised, because the code does not support it:

- Hazard-pointer memory safety of `find` in the list and the map: its check strips the mark from the predecessor's pointer (include/lockfree_list.hpp:207, include/lockfree_hash_map.hpp:280).
- Sentinel uniqueness when `find_bucket` calls race: two can both link a sentinel (include/lockfree_hash_map.hpp:371-381). `SplitOrderedMap` is sequential, and there it is unique.
- Epoch safety of `collect` outside a guard: it fails, and `EpochLimits.GuardIsNeeded` says exactly when.
- That `parallel_find` returns the first match.
- That a retrying operation of the list, the stack or the skip list ends while others run: they may make it try again
  without bound. Alone it ends: `LockFreeListAlone.AloneReturns`, `HazardStackAlone.AloneReturns`,
  `SkipListAlone.AloneReturns`.
- That a retired node is ever freed: a pass may find it guarded again and again. `EpochPasses.PassFrees` and
  `HazardStackPasses.SweepFrees` say when one frees it.

Not modelled:

- Concurrent operations of the hash map: the list part is the Harris-Michael search of `LockFreeList`, whose interleavings are covered there; the map's refinement is proved for one operation at a time.
- More than 2^32 buckets or keys in the map: `SplitOrderedMap.HashMap.Put` demands fewer than 2^32 keys, because only 32 bits of a hash are ordered.
- Claiming hazard slots (`hp_owner`), their exhaustion and thread-local owners: thread t of the stack owns slot t. The map counts how many slots an operation nests.
- include/lockfree_queue.hpp: its reference counting departs from the algorithm it follows.
- Exceptions, allocation failure, destructors and the shutdown of the pool. The epoch guard's failure to find a slot is modelled.
- `std::for_each` of a leaf of `parallel_for_each` is one step.
- The first phase of the scans runs each block's accumulation as one step, in any order of the blocks; the element-by-element interleaving is modelled where blocks write.
- The two halves of a sort touch disjoint data; only which finishes first is left open, not their interleaving.
- `std::stable_sort`, `std::list::sort`, `std::inplace_merge` and `std::partition` are written out as the contracts they have to meet.
- `empty`, `for_each` and `size` under concurrent change are approximations by their own documentation; `for_each` is the meaning of the contents.
- parallel_accumulate and parallel_transform: covered by the scans' first phase and the fork-join model.
- Mutex-wrapped containers, blocking_queue, semaphore, latch, barrier, seqlock, spin locks and the single-threaded queue: one critical section or one word of state each.
- The pool's shared threadsafe_queue is an abstract first-in-first-out queue without wake-ups.
