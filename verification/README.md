# A verified model of allocgc

allocgc is a precise garbage-collection library for C++ with a serial collector and a concurrent
mark-sweep collector (CMS), shipped with a port of the Boehm cord benchmark and a small AVL sample.
This project models its algorithms in Dafny 4.11 and proves what they are for. `dafny verify
dfyconfig.toml` checks everything.

## What is modelled

- **Concurrent marking** (`HeapGraph`, `ConcurrentMark`, `MarkSafety`, `MarkTheorems`, `RemsetPull`, `MarkOrder`,
  `MarkProgress`, `CycleProgress`, `ProgramView`).
  The collector as a state machine over an arbitrary heap, any number of mutators, workers and
  cycles. One step is one field read, one mark-bit access, one part of the write barrier, or one
  push or pop on a packet pool. The invariant is stated per handle: every handle of a marked cell
  will still be read, or leads to a marked cell, or to one that the remembered set, a store buffer, a
  running barrier or a worker has undertaken to mark. From it: no reachable cell is ever swept, no
  cell that was garbage when the cycle began survives it, a collection that stops the world
  throughout leaves exactly the reachable cells, and `is_no_input` means that nothing is grey. A second
  invariant says where each packet may be; with it, from every state of every run the workers can finish
  marking and the cycle can reach its sweep, unless all packets but those in hands are at least half full.
  And what a program sees is stated place by place: what its barriers, allocations and pins do to its memory,
  and that no step of a worker or of the collector changes any of it.
- **The marker's data structures as objects** (`Packets`, `Remset`, `SerialMarker`). Packet pools
  chained through the packets, the store buffers, and the worker loop run by one thread: it ends, and
  the marked cells are then exactly the reachable ones.
- **Collecting the heap** (`Compaction`, `FixPtrs`, `Rearrangement`, `HeapIsomorphism`, `HeapCollection`,
  `SerialCollection`).
  A heap of any number of pools of different cell sizes and of large objects, in shared arrays of bitmaps
  and memory. Each pool is compacted (the two-finger loop, with the forwarding pointer inside the vacated
  cell) or swept; then handles and roots are repaired across all of them and the bits cleared. The theorem:
  the live cells are renamed, handles keep their interior offsets, contents keep their words, and from the
  roots exactly the same cells are reachable in their new places. A serial collection puts the marker and
  this together: what was in use lives on, what is committed afterwards is exactly that and the garbage
  not freed, and the heap is ready for the next collection.
- **Cords** (`Cords`, `CordBalance`, `CordRecursion`, `CordTheorems`, `CordLibrary`, `CordEndless`, `CordFill`).
  Concatenation with short-string merging, the Fibonacci-forest rebalance that is mutually recursive with
  it, substrings, and the buffer fill. `CordRecursion` states the recursion once, as functions cut off after
  a number of rebalances; the loops over the forest array in `CordLibrary` compute those functions;
  `CordTheorems` proves that in range the text is preserved, every cached number is exact, the depth is
  logarithmic and the recursion ends; `CordEndless` proves that out of range it need not.
- **Stopping the world** (`PendingCall`, `StopTheWorld`, `WorldStop`, `WorldProgress`). Deferred signals with
  a signal allowed between any two atomic steps, and on top of it the token-counting handshake for any
  number of threads (up to the 128 the code has room for) and any number of rounds: what it guarantees,
  and that from every reachable state the round can be completed. What a thread's depth, its answered signals
  and its recorded frame are is stated by the steps of the run, not by a history kept beside it.
- **The page index** (`IndexTree`, `PageIndex`). The three-level reference-counted radix tree with
  shared empty levels, against a plain map from pages to descriptors.
- **Cell lifecycle** (`PoolAllocator`, `FreelistChunk`) and the **AVL sample** (`AvlTree`).

## What turned out false, and exactly when

- A worker without input may pull pointers from the remembered set and queue their cells *without
  marking them* (marker.cpp:79-93, unlike trace_remset at marker.cpp:25-42). `PullKeepsInvIff`: such a
  pull keeps the invariant if and only if the cell stays covered without the pointer (it is marked, or
  another remembered pointer, a store buffer, a barrier or a worker still accounts for it) or nothing relies
  on it (no handle that has been scanned and no root that has been traced leads to it). `PullLosesLiveCell`
  gives a whole run of 48 steps from the empty system, all but one of them sound, after which a root leads
  to a cell that the sweep has freed: a worker takes the pointer between the final flush and the collector's
  walk over the set. The safety theorems are about all runs whose pulls meet that condition (`Sound`);
  runs without pulls, which include all of the serial collector's, are such runs.
- The two-finger loop dereferences its free finger before comparing it with the end
  (two_finger_compactor.hpp:37). `Pool.Compact` runs past the end if and only if the pool is not empty
  and every cell is marked, and a collection does if and only if it compacts such a pool.
- Compaction does not free all garbage, nor reuse all free cells: `Pool.Compact` frees exactly the garbage up
  to the frontier (`PieceFreed`); garbage above it stays committed until a later cycle. The pool's own variant
  threads exactly the vacated cells (`PieceListed`); a cell that was free and stays so is on no freelist until
  the next sweep.
- The recursion between concatenation and rebalancing ends for all cords of a total length if and only if
  the length is at most 4807526977 (`LIMIT + 1`; `LIMIT` is the minimum length of depth 46) or at least
  7778742049 (`TOO_LONG`), where an abort cuts it short (`RecursionEndsIff`). For every length in between there
  is a balanced cord for which prepending a character and then appending one rebalances the same cord for
  ever, whatever the forest array contained before (`NeverFinishes`); `EndlessCordExists` builds one from 47
  shared nodes. So the bound of 46 in the depth theorem is the last that holds.
- Leaving a safe scope from inside an unsafe one: some arrival of signals around and inside the call
  strands one if and only if the depth is positive and the restored depth is zero (`LeaveSafeStrandsIff`, with
  a run in `SignalStranded`). A signal that waits already is one such case; one that comes after the first
  load is another. The theorems about runs are about properly nested scopes, where the guard is false.
- The lookup of a suspended thread's stack end compares its result with the end of the whole array
  rather than of the used part, so for a thread that is not suspended it answers null if and only if all
  entries are in use (`MissingThread`).
- The comment on the buffer fill says that a zero length is reported as not filled; the callback
  stores a character before it compares, so length zero behaves as length one (`FillBuf`).

## Model

| member | source | states |
|---|---|---|
| MarkSafety.InitInv | allocgc/src/details/collectors/gc_cms.cpp:12-15 | the invariant holds before anything has run |
| MarkSafety.StoreKeepsInv | allocgc/src/details/collectors/gc_cms.cpp:44-55 | the barrier's store keeps the tri-colour invariant: until the recording step the stored pointer is covered by the barrier itself |
| MarkSafety.RecordKeepsInv | allocgc/src/details/collectors/gc_cms.cpp:49-54 | the barrier's last step keeps the invariant, whether it records the target, finds it marked or runs outside of marking |
| MarkSafety.AddToBufferKeepsInv | allocgc/src/details/collectors/remset.cpp:7-14 | adding to a store buffer, flushing a full one first, covers the new pointer and loses no older one |
| MarkSafety.AllocKeepsInv | allocgc/src/details/collectors/gc_cms.cpp:26-42 | allocation during marking is black and keeps the invariant |
| MarkSafety.SetMarkKeepsInv | allocgc/src/details/collectors/marker.cpp:159-161 | between setting a mark and pushing the cell the worker itself accounts for it, also when two workers race for the cell |
| MarkSafety.PopCellKeepsInv | allocgc/src/details/collectors/marker.cpp:115-118 | a popped cell is owed by its worker until its last handle has been read |
| MarkSafety.TraceOneKeepsInv | allocgc/include/liballocgc/details/collectors/gc_core.hpp:300-322 | tracing one root, pin or remembered pointer marks its cell and leaves it to be pushed |
| MarkSafety.FlushKeepsInv | allocgc/src/details/collectors/remset.cpp:56-64 | at the final stop every buffered pointer reaches the remembered set |
| MarkSafety.StepKeepsInv | allocgc/src/details/collectors/marker.cpp:25-166 | every sound step of every mutator, worker and the collector keeps the whole invariant; only a pull that takes away the last cover of a cell something relies on is not sound |
| MarkSafety.NoInputMeansAllEmpty | allocgc/src/details/collectors/packet_manager.cpp:114-117 | when the empty pool counts all packets, no packet is held and none has a cell |
| MarkSafety.MarkingComplete | allocgc/src/details/collectors/marker.cpp:44-57 | when the last worker is done every handle of a marked cell leads to a marked cell |
| MarkSafety.ReachableIsMarked | allocgc/src/details/collectors/gc_cms.cpp:86-116 | when the sweep begins every cell reachable from roots and pins is marked, though roots were traced only once |
| MarkSafety.CollectKeepsInv | allocgc/src/details/collectors/gc_cms.cpp:106-113 | sweeping the unmarked cells leaves nothing dangling and the state ready for the next cycle |
| MarkTheorems.NoLiveCellIsEverLost | allocgc/src/details/collectors/gc_cms.cpp:26-116 | in every state of every sound run, over any number of cycles and interleavings, each reachable cell exists |
| MarkTheorems.CollectKeepsReachable | allocgc/src/details/allocators/gc_pool_allocator.cpp:205-235 | a sweep keeps every reachable cell with its handles, and it stays reachable |
| MarkTheorems.GarbageAtStartIsSwept | allocgc/src/details/collectors/gc_cms.cpp:70-116 | a cell unreachable when the cycle stopped the world is never marked in that cycle and is gone after it |
| MarkTheorems.FullCollectionIsExact | allocgc/src/details/gc_serial.cpp:31-47 | a collection that stops the world throughout leaves exactly the cells reachable from roots and pins, with no mark bit set |
| MarkTheorems.NoInputMeansNoGrey | allocgc/src/details/collectors/packet_manager.cpp:114-117 | is_no_input implies that no cell is queued, no worker is scanning, and with the world stopped all marked cells lead to marked cells |
| MarkTheorems.NoInputIsStable | allocgc/src/details/collectors/marker.cpp:98-104 | once it holds with the world stopped, is_no_input keeps holding and no mark changes until the sweep |
| MarkSafety.SkipKeepsInv | allocgc/src/details/collectors/marker.cpp:30-39 | the collector's walk over the remembered set may miss pointers that workers have taken out meanwhile |
| RemsetPull.PullKeepsInvIff | allocgc/src/details/collectors/marker.cpp:79-93 | the opportunistic pull keeps the invariant if and only if the cell stays covered without the pointer, or no scanned handle and no traced root leads to it |
| MarkSafety.ForgetCovers | allocgc/src/details/collectors/marker.cpp:79-93 | taking a pointer out of the remembered set can uncover only its own cell |
| RemsetPull.PullLosesLiveCell | allocgc/src/details/collectors/marker.cpp:79-93 | a whole run from the empty system, all of whose steps but one pull are sound, in which the sweep frees a cell that a root holds |
| MarkOrder.StepKeepsOrder | allocgc/src/details/collectors/packet_manager.cpp:85-112 | every step of every thread keeps each packet in the pool of its kind or in the one place of a worker or the collector that may hold it at that point of its code, and no place holds two |
| MarkOrder.ConcurrentCrew | allocgc/src/details/collectors/gc_cms.cpp:77-79 | concurrent marking starts with exactly the workers asked for, none of them with input or a packet |
| MarkOrder.FinalCrew | allocgc/src/details/collectors/gc_cms.cpp:92-105 | at the final stop the workers that run go on, the collector's own thread joins them, and without concurrent marking before it the workers asked for start with it |
| MarkProgress.NoInputCanPop | allocgc/src/details/collectors/packet_manager.cpp:85-92 | a worker without input can take every pooled packet that has cells, from whichever pool |
| MarkProgress.NextStep | allocgc/src/details/collectors/marker.cpp:72-166 | a worker that is not at rest with the pools dry has a step that brings it strictly nearer to that, unless it lacks a packet and none is to be had |
| MarkProgress.MarkingCanFinish | allocgc/src/details/collectors/marker.cpp:72-124 | from every state in which the collector marks, some run of workers' steps alone ends with all workers done, so that the sweep can begin, or at a state in which a worker lacks a packet and no more cells are left than at the start, but for one for each worker |
| MarkProgress.NoneLeftIsFull | allocgc/src/details/collectors/packet_manager.cpp:94-101 | no packet is to be had only when all packets but three for each worker and the collector's two are at least half full |
| MarkProgress.CollectCanBeReached | allocgc/src/details/collectors/marker.cpp:72-124 | so the sweep can be reached whenever fewer cells are unmarked and queued than those packets hold |
| MarkProgress.EveryMarkingCanFinish | allocgc/src/details/collectors/gc_cms.cpp:100-110 | no marking is ever stuck, whatever has happened in the run before: workers can finish it, or come to a state with all packets in use |
| CycleProgress.CollectorGoesOn | allocgc/src/details/collectors/gc_cms.cpp:86-105 | from the stop of the world to the final marking the collector always has a step that takes it strictly further, while a packet is to be had |
| CycleProgress.EveryRunCanCollect | allocgc/src/details/collectors/gc_cms.cpp:86-116 | from every state of every run, in any phase and with any barriers under way, some run leads to a sweep, or to a state with all packets in use |
| ProgramView.LoadLaw | allocgc/src/details/collectors/gc_cms.cpp:44-47 | the barrier's load changes no memory and keeps what its source holds |
| ProgramView.StoreLaw | allocgc/src/details/collectors/gc_cms.cpp:48-48 | its store changes the destination alone, to what was loaded |
| ProgramView.RecordLaw | allocgc/src/details/collectors/gc_cms.cpp:49-54 | its last step changes no memory, and what is remembered grows by the stored pointer exactly when the collector marks and the pointer's cell is unmarked |
| ProgramView.BarrierCopies | allocgc/src/details/collectors/gc_cms.cpp:44-55 | in every run, after a barrier's load and store the destination holds what the source held at the load, whatever others do between, and the store changes no other place, pin or mark |
| ProgramView.AllocLaw | allocgc/src/details/collectors/gc_cms.cpp:26-42 | an allocation gives a new cell of null handles and one root to it, marked exactly while the collector marks, and changes nothing else |
| ProgramView.AdvanceLaw | allocgc/include/liballocgc/details/gc_untyped_ptr.hpp:83-86 | a handle moved within its cell leads to the same cell at the new offset, and no other place changes |
| ProgramView.RootLaw | allocgc/include/liballocgc/details/collectors/gc_core.hpp:95-126 | a new root is null, and coming and going roots change no other root, pin or cell |
| ProgramView.ThreadLaw | allocgc/include/liballocgc/details/collectors/gc_core.hpp:162-180 | threads that come and go change no memory, and what they remembered stays remembered |
| ProgramView.PinLaw | allocgc/include/liballocgc/details/collectors/gc_core.hpp:128-143 | a pin holds the pointer its handle held until exactly it is dropped, and no other pin, root or cell changes |
| ProgramView.CollectorIsNotSeen | allocgc/src/details/collectors/gc_cms.cpp:57-116 | no step of a worker or of the collector, the sweep included, changes a root, a pin, which cells can be reached or what they hold |
| Packets.ChainPush | allocgc/src/details/collectors/packet_manager.cpp:52-58 | linking a packet in front of a pool's chain gives the chain with it in front |
| Packets.ChainPop | allocgc/src/details/collectors/packet_manager.cpp:60-70 | unlinking the head leaves the chain of the rest |
| Packets.FullCountIff | allocgc/src/details/collectors/packet_manager.cpp:114-117 | a pool's count equals the number of packets exactly when every packet is in it |
| Packets.PacketManager.PopInput | allocgc/src/details/collectors/packet_manager.cpp:85-92 | gives a non-empty packet, a full one if there is one, and none exactly when no pool has cells |
| Packets.PacketManager.PopOutput | allocgc/src/details/collectors/packet_manager.cpp:94-101 | gives a packet less than half full, an empty one if there is one, and none exactly when neither pool has one |
| Packets.PacketManager.PushPacket | allocgc/src/details/collectors/packet_manager.cpp:103-112 | the packet goes to the pool of its kind and every other packet stays where it was |
| Packets.PacketManager.IsNoInput | allocgc/src/details/collectors/packet_manager.cpp:114-117 | true exactly when every packet is in the empty pool, and then no packet has a cell |
| Remset.RememberedSet.Add | allocgc/src/details/collectors/remset.cpp:7-14 | what the set and the buffers hold grows by the pointer, exactly as the step of the state machine says |
| Remset.RememberedSet.FlushBuffers | allocgc/src/details/collectors/remset.cpp:56-75 | afterwards the hash set holds everything that was added and the buffers nothing |
| Remset.RememberedSet.Clear | allocgc/src/details/collectors/remset.cpp:64-68 | empties the hash set and leaves the buffers alone |
| SerialMarker.MarkHeap | allocgc/src/details/gc_serial.cpp:31-40 | tracing all roots and draining the queue ends with exactly the reachable cells marked, whatever garbage holds; it fails only where a tracer with a bag in the packets' place has a run with at least 65280 cells queued (255 packets, each half full), and never when fewer cells than that are reachable and traced as roots, whatever garbage there is |
| SerialMarker.Marker.WorkerRoutine | allocgc/src/details/collectors/marker.cpp:72-124 | the worker loop terminates with every packet empty and pooled and exactly the reachable cells marked; it fails for want of a packet only when its own run, seen as that of a tracer with a bag, has at least 65280 cells queued |
| SerialMarker.Marker.FindInput | allocgc/src/details/collectors/marker.cpp:77-108 | the input loop stops with a packet that has cells, or with all packets empty and pooled |
| SerialMarker.Marker.Trace | allocgc/src/details/collectors/marker.cpp:154-164 | tracing one handle keeps the colours and does not raise the measure of work left |
| SerialMarker.Marker.AddRoot | allocgc/src/details/collectors/marker.cpp:126-135 | a root's cell is marked and queued, with a new packet when the current one is full |
| SerialMarker.MarkingExact | allocgc/src/details/collectors/marker.cpp:98-104 | with nothing queued the marked cells are exactly the reachable ones |
| SerialMarker.QueueBound | allocgc/src/details/collectors/marker.cpp:126-166 | in every run of the tracer with a bag only reachable cells are marked and queued, and the queue holds each marked cell at most once, and once more for each root |
| SerialMarker.OverflowNeedsLive | allocgc/src/details/collectors/marker.cpp:126-166 | so 65280 queued cells need as many reachable cells and roots; garbage does not count |
| Compaction.Pool.MoveCell | allocgc/src/details/allocators/gc_pool_allocator.cpp:286-296 | moving, finalizing, forwarding and threading one cell changes bitmaps and memory as the specification function says, and extends the freelist by it |
| Compaction.ThreadOne | allocgc/src/details/allocators/gc_pool_allocator.cpp:237-244 | the link written into a vacated cell's first word puts it in front of the freelist |
| Compaction.MoveKeeps | allocgc/include/liballocgc/details/compacting/two_finger_compactor.hpp:50-59 | one more relocation keeps forwarding injective, sources unmarked, targets marked and all other cells untouched |
| Compaction.GarbageIsFreed | allocgc/include/liballocgc/details/compacting/two_finger_compactor.hpp:37-40 | the garbage that was freed is exactly that up to the frontier |
| Compaction.Pool.Compact | allocgc/include/liballocgc/details/compacting/two_finger_compactor.hpp:13-61 | terminates; only marked cells below the frontier and nothing movable from it on; pinned cells and the rest untouched; moved and freed bytes are the cell size times the moves and the freed cells; the freelist visits exactly the vacated cells; reads past the end exactly when all cells are marked |
| Compaction.Pool.Sweep | allocgc/src/details/allocators/gc_pool_allocator.cpp:212-235 | exactly the garbage of the pool is freed, freed bytes are the cell size times its number, the freelist visits exactly the unmarked cells, and nothing else changes |
| FixPtrs.ForwardIdempotent | allocgc/src/details/compacting/forwarding.cpp:21-43 | forwarding a handle a second time changes nothing |
| FixPtrs.ForwardHandle | allocgc/src/details/compacting/forwarding.cpp:21-43 | null and unmoved targets leave the handle; a moved target gives its new object start plus the old offset |
| FixPtrs.SlotsInside | allocgc/include/liballocgc/details/allocators/gc_box.hpp:98-125 | the visited places all lie inside the objects of the cell |
| FixPtrs.SlotsExact | allocgc/include/liballocgc/details/allocators/gc_box.hpp:98-125 | a place is visited exactly when it is one of the type's offsets in one of the cell's objects |
| FixPtrs.TraceForward | allocgc/include/liballocgc/details/allocators/gc_box.hpp:98-125 | tracing a cell forwards exactly its handle words, each object's offsets in turn, also where two coincide |
| FixPtrs.FixCells | allocgc/include/liballocgc/details/compacting/fix_ptrs.hpp:11-20 | every marked cell of a pool is traced as if all cells of the heap were traced at once, whatever has been traced before |
| FixPtrs.FixRoots | allocgc/src/details/gc_heap.cpp:56-61 | every root is forwarded |
| Rearrangement.RearrangedThen | allocgc/src/details/gc_heap.cpp:45-48 | collecting some pools and then another one rearranges the heap by the union of their relocations, which stays injective, and frees the union of their garbage |
| Rearrangement.BelowThen | allocgc/src/details/allocators/gc_so_allocator.cpp:36-44 | a pool's collection finds its own cells as they were and leaves all others alone |
| HeapIsomorphism.ForwardIsReloc | allocgc/src/details/compacting/forwarding.cpp:33-40 | after compaction a handle to offset o of live cell c is forwarded to offset o of the place of c |
| HeapIsomorphism.TargetIsNoSource | allocgc/include/liballocgc/details/compacting/two_finger_compactor.hpp:50-56 | no relocation target is ever moved itself |
| HeapIsomorphism.CompactionRenames | allocgc/src/details/gc_heap.cpp:44-62 | compaction and repair keep every live cell's type, count and words, rename its handles, and make nothing else live |
| HeapIsomorphism.RenamedIsIsomorphic | allocgc/src/details/gc_heap.cpp:44-62 | the object graph afterwards is isomorphic to the one before |
| HeapIsomorphism.ReachableRenamed | allocgc/src/details/gc_heap.cpp:44-62 | what was reachable is reachable in its new place |
| HeapIsomorphism.ReachableRenamedOnly | allocgc/src/details/gc_heap.cpp:44-62 | nothing else becomes reachable |
| HeapIsomorphism.ReachabilityPreserved | allocgc/src/details/gc_heap.cpp:44-62 | from the renamed roots exactly the renamed reachable cells are reachable |
| HeapCollection.NothingMoved | allocgc/src/details/gc_heap.cpp:50-50 | skipping the repair when nothing moved is right |
| HeapCollection.CollectPiece | allocgc/src/details/allocators/gc_pool_allocator.cpp:159-182 | collecting one pool by compaction or sweep extends the rearrangement of the pools before it, with its garbage and freelist exact |
| HeapCollection.Heap.CollectPieces | allocgc/src/details/gc_heap.cpp:44-48 | the loop over all pools and large objects gives one rearrangement of the heap, and moved bytes are positive exactly when some cell moved |
| HeapCollection.FinishedStays | allocgc/src/details/gc_heap.cpp:45-48 | a later pool's collection keeps the frontier, the freed garbage and the freelist of an earlier one |
| HeapCollection.Heap.FixPieces | allocgc/src/details/gc_heap.cpp:50-54 | the loop over all pools forwards every handle of every live cell once, also into other pools |
| HeapCollection.SameReachability | allocgc/src/details/gc_heap.cpp:36-77 | from the roots after a collection exactly those cells are reachable, in their new places, that were reachable from the roots before |
| HeapCollection.Heap.Collect | allocgc/src/details/gc_heap.cpp:36-77 | a collection of all pools and large objects, each compacted or swept: live cells and roots are renamed, committed are exactly the live cells and the garbage not freed, each piece's freed garbage, frontier and freelist are exact, all bits are cleared; runs past an end exactly when some pool to be compacted is full of marked cells |
| SerialCollection.MarkedIsGood | allocgc/src/details/collectors/marker.cpp:154-164 | when exactly the cells in use are marked, every handle of a marked cell is null or leads to a marked cell |
| SerialCollection.MarkedReach | allocgc/src/details/collectors/marker.cpp:98-104 | what roots and pins reach among marked cells is what they reach among all committed ones, whatever garbage holds |
| SerialCollection.Mark | allocgc/include/liballocgc/details/collectors/gc_core.hpp:300-322 | roots and pins are traced: exactly the cells in use get mark bits, and exactly the pins' cells get pin bits beyond those set before; it fails only where the packets run out |
| SerialCollection.RunOutNeedsLive | allocgc/src/details/collectors/marker.cpp:137-152 | packets run out only when the cells in use, the roots and the pins together number at least 65280 |
| SerialCollection.PlacesInUse | allocgc/src/details/gc_heap.cpp:36-77 | after the collection exactly the marked cells in their places are in use |
| SerialCollection.CycleHolds | allocgc/src/details/gc_serial.cpp:31-47 | every cell in use lives on with its contents in a place of its own, nothing else is in use, committed are exactly the cells in use and the garbage not freed, and the heap is sound for the next cycle |
| SerialCollection.SweepIsExact | allocgc/src/details/gc_serial.cpp:31-47 | when every pool is swept the committed cells afterwards are exactly those in use before |
| SerialCollection.Collect | allocgc/src/details/gc_serial.cpp:31-47 | a whole collection: marking, collecting and clearing make such a cycle with all bits clear, roots renamed and pinned cells in place; each pool ends with its frontier, its freed garbage and its freelist exact; swept throughout, the committed cells are exactly the reachable ones; it fails only where packets run out, never while the cells in use, roots and pins number fewer than 65280, or past the end of a compacted pool whose cells are all in use |
| Cords.LeftLenIsExact | benchmark/cord/cordbscs.cpp:139-152 | the left length is exact whether cached or recomputed from the other lengths |
| Cords.LeftLenCached | benchmark/cord/cordbscs.cpp:76-82 | a left part of up to 255 characters has its length cached |
| Cords.JoinStringMeaning | benchmark/cord/cordbscs.cpp:217-317 | appending a string appends to the text and keeps every cached number exact, through all merging cases |
| Cords.AppendedWhere | benchmark/cord/cordbscs.cpp:217-317 | appending deepens the cord exactly when the new string is not merged into a last one that is short enough, and shares all other parts |
| Cords.JoinedWhere | benchmark/cord/cordbscs.cpp:326-356 | any other concatenation is one new node over the two cords, one deeper than the deeper of them |
| Cords.JoinMeaning | benchmark/cord/cordbscs.cpp:326-356 | concatenation concatenates the texts and adds at most one level |
| Cords.JoinKeepsShortFlat | benchmark/cord/cordbscs.cpp:154-155 | cords up to the short limit stay plain strings: every concatenation node is longer |
| Cords.Limits | benchmark/cord/cordbscs.cpp:681-698 | the last two minimum lengths, which bound the texts that rebalancing handles |
| Cords.MinLenFits | benchmark/cord/cordbscs.cpp:688-695 | the table of minimum lengths never overflows a 64-bit word |
| CordBalance.CarryStart | benchmark/cord/cordbscs.cpp:723-734 | what was gathered from lower levels plus a balanced tree is balanced but for one level |
| CordBalance.CarryMerge | benchmark/cord/cordbscs.cpp:738-747 | merging a forest tree into the carried one keeps it balanced but for one level |
| CordBalance.ForestTextPut | benchmark/cord/cordbscs.cpp:649-659 | replacing the lower levels by one tree appends its new part to the forest's text |
| CordTheorems.GatherMeets | benchmark/cord/cordbscs.cpp:723-730 | the first loop stops inside its tables with the text of exactly the levels it left, cleared, at most one level too deep |
| CordTheorems.CarryMeets | benchmark/cord/cordbscs.cpp:738-750 | the second loop stores the carried tree in the level whose length range it is in, at depth at most the level's index plus one |
| CordTheorems.AddTreeMeets | benchmark/cord/cordbscs.cpp:717-751 | adding a balanced tree appends its text to the forest's and keeps every level's length range and depth |
| CordTheorems.InsertMeets | benchmark/cord/cordbscs.cpp:772-792 | inserting a frontier appends its text, so that forest and unscanned part always spell the original |
| CordTheorems.InitialisedMeets | benchmark/cord/cordbscs.cpp:701-710 | initialisation clears every level the text can use, and aborts exactly for texts of at least the last minimum length |
| CordTheorems.CollectMeets | benchmark/cord/cordbscs.cpp:753-767 | collecting gives the forest's text at depth at most one above the number of levels |
| CordTheorems.RebalanceMeets | benchmark/cord/cordbscs.cpp:795-811 | rebalancing gives the same text at logarithmic depth, or the abort, for all lengths in range and whatever the array contained |
| CordTheorems.ConcatenateMeets | benchmark/cord/cordbscs.cpp:326-363 | concatenation in range ends after at most one rebalance with the concatenated text, or the abort |
| CordLibrary.CordBase.InitMinLen | benchmark/cord/cordbscs.cpp:681-698 | the machine-word loop with its overflow guard computes the Fibonacci minimum lengths |
| CordLibrary.CordBase.InitForest | benchmark/cord/cordbscs.cpp:701-710 | the loop over the array computes the initialisation of the recursion, and fails when that does |
| CordLibrary.CordBase.AddForest | benchmark/cord/cordbscs.cpp:717-751 | the two loops and the store compute the function that AddTreeMeets is about; no index leaves the tables |
| CordLibrary.CordBase.ConcatForest | benchmark/cord/cordbscs.cpp:753-767 | the loop computes the function that CollectMeets is about, inside the forest |
| CordLibrary.CordBase.BalanceInsert | benchmark/cord/cordbscs.cpp:772-792 | the recursion over the array computes the function that InsertMeets is about |
| CordLibrary.CordBase.Balance | benchmark/cord/cordbscs.cpp:795-811 | the value of the recursion; same text, depth below 48 and at most k + 1 for a text shorter than the k-th minimum length, and the abort exactly for concatenations of at least TOO_LONG characters |
| CordLibrary.CordBase.CatCharStar | benchmark/cord/cordbscs.cpp:217-324 | the value of the recursion: the merged node, or its rebalanced form when it reaches the depth limit; never a rebalance from inside a rebalance |
| CordLibrary.CordBase.Cat | benchmark/cord/cordbscs.cpp:326-363 | likewise for two cords; the mutual recursion with balancing terminates |
| CordBalance.ClientCat | benchmark/cord/cordbscs.cpp:357-362 | concatenating clients' cords of up to LIMIT + 1 characters never aborts and gives a client's cord again |
| CordBalance.SliceJoin | benchmark/cord/cordbscs.cpp:484-494 | joining slices of a concatenation's parts is no deeper than the concatenation, and needs no rebalance |
| CordLibrary.CordBase.SubstrChecked | benchmark/cord/cordbscs.cpp:452-534 | the slice of the text, at most as deep as the cord, so that taking it never rebalances; again a client's cord |
| CordLibrary.CordBase.Substr | benchmark/cord/cordbscs.cpp:536-543 | the clipped slice, empty when it starts beyond the end, at most as deep as the cord |
| CordEndless.FrontierInserted | benchmark/cord/cordbscs.cpp:772-792 | for a character, a balanced cord of depth 46 between the limits and another character, inserting the frontier leaves the first two joined in the last level |
| CordEndless.NeverFinishes | benchmark/cord/cordbscs.cpp:357-358 | for every length strictly between the bounds, concatenating those parts rebalances the same cord again and again, however many rebalances are allowed and whatever the array contained |
| CordEndless.RecursionEndsIff | benchmark/cord/cordbscs.cpp:326-363 | for cords of a total length the recursion always ends if and only if the length is at most LIMIT + 1 or at least TOO_LONG |
| CordEndless.EndlessCordExists | benchmark/cord/cordbscs.cpp:326-363 | one such cord has 47 shared nodes |
| CordFill.FillData.BatchedFill | benchmark/cord/cordxtra.cpp:119-136 | appends the string as far as it fits, writes no other position but one nul, and reports whether the buffer is full |
| CordFill.FillData.Iterate | benchmark/cord/cordbscs.cpp:546-580 | the callback sees exactly the text from the position on, until it stops the iteration |
| CordFill.FillBuf | benchmark/cord/cordxtra.cpp:142-150 | for a positive length, full exactly when at least that many characters are left, and the buffer then holds exactly those and what it held before behind them; length zero copies one character, as the callback stores before it compares |
| CordFill.ToCharStar | benchmark/cord/cordxtra.cpp:243-257 | the text and a final nul in a new array; the answer is never the abort |
| PendingCall.BeginKeepsInv | allocgc/src/details/threads/pending_call.cpp:17-51 | the first load of any operation keeps the invariant and what is owed |
| PendingCall.ContinueKeepsInv | allocgc/src/details/threads/pending_call.cpp:17-65 | so does every further load or store; none gets stuck on its array bounds |
| PendingCall.CallKeepsInv | allocgc/src/details/threads/pending_call.cpp:58-65 | the deferred call runs at depth zero and answers what was owed |
| PendingCall.LeaveSafeStrandsIff | allocgc/src/details/threads/pending_call.cpp:45-51 | over all arrivals of signals before, inside and after leave_safe_scope, some strands a signal exactly when the depth is positive and the restored depth is zero |
| PendingCall.SignalStranded | allocgc/src/details/threads/pending_call.cpp:45-51 | a run of ill-nested scopes that ends at rest at depth zero with an unanswered signal |
| PendingCall.HandlerNeverInUnsafeScope | allocgc/src/details/threads/pending_call.cpp:7-15 | in every run the handler runs only at depth zero |
| PendingCall.NoSignalLost | allocgc/src/details/threads/pending_call.cpp:7-65 | at rest at depth zero no signal waits and the flag is down |
| PendingCall.SignalIsAnswered | allocgc/src/details/threads/pending_call.cpp:7-65 | in every run, for every signal the handler runs at once or in a later step, before the thread is next at rest at depth zero |
| PendingCall.CallHasSignal | allocgc/src/details/threads/pending_call.cpp:58-65 | the handler is never called later without a signal that came inside an unsafe scope after the last such call |
| PendingCall.DepthCounts | allocgc/src/details/threads/pending_call.cpp:17-51 | at rest, the depth is the number of unsafe scopes that the run entered and did not leave since the last open safe scope, and the stack holds those numbers for the safe scopes around it |
| PendingCall.SafeScopeRestoresDepth | allocgc/src/details/threads/pending_call.cpp:35-51 | in every run, when a thread is at rest outside of a safe scope it entered, the depth, the depth stack and the nesting are those it entered with, whatever scopes, signals and handlers came inside |
| StopTheWorld.MissingThread | allocgc/src/details/threads/posix_stw_manager.cpp:84-90 | for a thread that is not suspended the lookup answers null exactly when all entries are in use |
| WorldStop.MoveKeepsInv | allocgc/src/details/threads/posix_stw_manager.cpp:12-32 | every step of a thread's code and of the handler keeps the token counts, the entries and the deferral invariant |
| WorldStop.StopEndsKeepsInv | allocgc/src/details/threads/posix_stw_manager.cpp:65-69 | when as many tokens have been read as signals were sent, all threads are parked |
| WorldStop.StartEndsKeepsInv | allocgc/src/details/threads/posix_stw_manager.cpp:71-77 | when the second tokens have been read, all threads have left the handler and none counts as suspended |
| WorldStop.StepKeepsInv | allocgc/src/details/threads/ass_sync.cpp:37-91 | every step of any thread or the manager, with partial reads and writes of the pipes, keeps the invariant |
| WorldStop.StoppedWorldIsStill | allocgc/src/details/threads/posix_stw_manager.cpp:65-69 | after wait_for_world_stop every thread is parked outside of unsafe scopes and can take no step |
| WorldStop.StoppedUntilNotified | allocgc/src/details/threads/posix_stw_manager.cpp:71-74 | and stays exactly so until the event is notified |
| WorldStop.NeverStoppedInUnsafeScope | allocgc/src/details/threads/posix_stw_manager.cpp:12-32 | a thread in the handler, in any phase, has depth zero and takes no step of its own |
| WorldStop.StartedWorldIsClean | allocgc/src/details/threads/posix_stw_manager.cpp:71-77 | after wait_for_world_start the suspended count is zero, both pipes are empty and no signal is outstanding |
| WorldStop.StackEndsFound | allocgc/src/details/threads/posix_stw_manager.cpp:84-90 | while the world is stopped every thread's own frame is found, the one it stored in its last storing step |
| WorldProgress.StopNotStuck | allocgc/src/details/threads/ass_sync.cpp:57-73 | in every run, when the first wait finds the pipe empty some thread can take a step that brings it strictly nearer to its token, by leaving scopes and never entering one |
| WorldProgress.StartNotStuck | allocgc/src/details/threads/ass_sync.cpp:57-73 | when the second wait finds the pipe empty some thread can take its next step of the handler and is one step nearer to its token |
| WorldProgress.RoundCanFinish | allocgc/src/details/threads/posix_stw_manager.cpp:65-77 | from every world that meets the invariant there is a run that completes both waits and the round |
| WorldProgress.EveryRunCanFinish | allocgc/src/details/threads/posix_stw_manager.cpp:65-77 | so no reachable world is stuck, whatever has happened in the run before |
| IndexTree.SplitSeparatesPages | allocgc/include/liballocgc/details/allocators/index_tree.hpp:44-67 | two addresses take the same path exactly when their 48 used bits name the same page |
| IndexTree.GetIsLookup | allocgc/include/liballocgc/details/allocators/index_tree.hpp:209-213 | the three loads answer as the page map does, through shared empty levels where nothing is indexed |
| IndexTree.InsertKeepsInv | allocgc/include/liballocgc/details/allocators/index_tree.hpp:177-195 | adding a page keeps slot counts exact, a level allocated iff its count is positive, levels unshared and the empty levels unwritten |
| IndexTree.RemoveKeepsInv | allocgc/include/liballocgc/details/allocators/index_tree.hpp:197-207 | so does removing one, giving back exactly the levels whose count drops to zero |
| IndexTree.LevelsInUse | allocgc/include/liballocgc/details/allocators/index_tree.hpp:177-207 | the levels that exist besides the shared empty ones are exactly those that a page hangs from |
| PageIndex.Index.GetDescriptor | allocgc/include/liballocgc/details/allocators/index_tree.hpp:114-117 | the descriptor of the page of any address |
| PageIndex.Index.AddPage | allocgc/include/liballocgc/details/allocators/index_tree.hpp:350-354 | the page map gains exactly the page |
| PageIndex.Index.RemovePage | allocgc/include/liballocgc/details/allocators/index_tree.hpp:356-360 | the page map loses exactly the page |
| PageIndex.RegionDistinct | allocgc/include/liballocgc/details/allocators/index_tree.hpp:99-101 | the pages a region loop visits are all different |
| PageIndex.RegionIsPages | allocgc/include/liballocgc/details/allocators/index_tree.hpp:94-112 | the pages of a region are exactly those of its addresses |
| PageIndex.Index.IndexRegion | allocgc/include/liballocgc/details/allocators/index_tree.hpp:94-102 | the page map gains exactly the region's pages, a partial last one included |
| PageIndex.Index.DeindexRegion | allocgc/include/liballocgc/details/allocators/index_tree.hpp:104-112 | the page map loses exactly the region's pages |
| PoolAllocator.ChainInsert | allocgc/src/details/allocators/gc_pool_allocator.cpp:237-244 | threading a cell puts it in front of the freelist |
| PoolAllocator.Pool.StackAllocation | allocgc/src/details/allocators/gc_pool_allocator.cpp:81-89 | hands out a cell that was not handed out |
| PoolAllocator.Pool.FreelistAllocation | allocgc/src/details/allocators/gc_pool_allocator.cpp:91-106 | likewise from the freelist |
| PoolAllocator.Pool.Sweep | allocgc/src/details/allocators/gc_pool_allocator.cpp:205-235 | the freelist is acyclic and holds exactly the unmarked cells, each once; committed garbage is finalized |
| PoolAllocator.Pool.Shrink | allocgc/src/details/allocators/gc_pool_allocator.cpp:184-203 | exactly the blocks without a marked cell are given back, their committed cells finalized |
| PoolAllocator.Pool.Collect | allocgc/src/details/allocators/gc_pool_allocator.cpp:159-182 | exactly the marked cells stay handed out, committed ones stay committed, all others of the kept blocks are free |
| PoolAllocator.Pool.Allocate | allocgc/src/details/allocators/gc_pool_allocator.cpp:41-79 | never hands out a cell twice, through new blocks, freelist, collection and heap growth, also when a block that the collection gave back is offered again; collects exactly when no cell is left and the first attempt is offered no block; fails exactly when the collection leaves no free cell either and neither further attempt is offered one; takes one offered block or none, behind those it has kept |
| PoolAllocator.Drive | allocgc/src/details/allocators/gc_pool_allocator.cpp:41-106 | any sequence of allocations, collections and commits on a new pool: exactly the improper calls are refused, a collection runs exactly when every cell of the pool is out and no block is offered, an allocation fails exactly when that is so after the collection too, what is out is what the events of the answers say, a cell that comes out again has been released in between by a collection that did not mark it, and committed are exactly the cells whose commit was answered and that no collection has released since |
| PoolAllocator.ServedMore | allocgc/src/details/allocators/gc_pool_allocator.cpp:41-79 | one more call whose answer hands out nothing that is out keeps such a run one in which no cell comes out twice |
| PoolAllocator.CommittedMore | allocgc/src/details/allocators/gc_pool_allocator.cpp:205-235 | one more call commits what it was asked to commit and releases what its collection did not mark, and nothing else |
| PoolAllocator.GoneMeansReleased | allocgc/src/details/allocators/gc_pool_allocator.cpp:205-235 | a cell that came out and is not out any more was released by a collection after it came out |
| FreelistChunk.ChainPut | allocgc/src/details/allocators/freelist_pool_chunk.cpp:49-55 | a returned cell becomes the head of the chain |
| FreelistChunk.Chunk.Allocate | allocgc/src/details/allocators/freelist_pool_chunk.cpp:31-47 | gives a cell of the chunk that was not handed out, threading more cells when the chain is used up |
| FreelistChunk.Chunk.Deallocate | allocgc/src/details/allocators/freelist_pool_chunk.cpp:49-55 | takes back exactly that cell |
| FreelistChunk.Chunk.MemoryAvailable | allocgc/src/details/allocators/freelist_pool_chunk.cpp:62-65 | true exactly while some cell is not handed out |
| AvlTree.BalanceShape | tmp/immutable_AVL_tree/avl.cpp:98-107 | balancing a node whose sides differ by at most two gives an AVL tree with exact heights |
| AvlTree.BalanceKeys | tmp/immutable_AVL_tree/avl.cpp:38-107 | the four rotations keep the keys in order |
| AvlTree.Insert | tmp/immutable_AVL_tree/avl.cpp:110-118 | the result is an AVL tree at most one level higher |
| AvlTree.InsertMeaning | tmp/immutable_AVL_tree/avl.cpp:110-118 | insertion adds exactly the key and keeps the order |
| AvlTree.Remove | tmp/immutable_AVL_tree/avl.cpp:133-153 | the result is an AVL tree at most one level lower |
| AvlTree.RemoveMinMeaning | tmp/immutable_AVL_tree/avl.cpp:121-130 | the first key is found and taken out |
| AvlTree.RemoveMeaning | tmp/immutable_AVL_tree/avl.cpp:133-153 | removal takes out one occurrence of the key, nothing when absent, and keeps the order |

## Left out

- MarkSafety.StepKeepsInv: a pull from the remembered set that takes away the last cover of a cell something relies on is not covered, because then it is false (PullKeepsInvIff gives the exact condition).
- CordLibrary.CordBase.Cat: rebalancing of texts of more than LIMIT + 1 and fewer than TOO_LONG characters is excluded by the precondition, because at each of those lengths the recursion need not end (RecursionEndsIff); a method that ends cannot model it, the functions of CordRecursion do. Which cords of those lengths are rebalanced in finitely many steps is not characterised.
- CordLibrary.CordBase.Balance: excludes the same lengths, for the same reason.
- CordLibrary.CordBase.CatCharStar: excludes the same lengths, for the same reason.
- CordEndless.RecursionEndsIff: for short limits up to 65536; the code's limit is a few words.
- SerialMarker.MarkHeap: when no packet is left the code throws or dereferences a null packet; the model returns Overflow and promises nothing more about the marks. The bag may give cells back in any order, so that a run of the tracer with 65280 queued cells exists does not mean that the packets' own order has one.
- SerialCollection.Collect: roots and pins are given as lists of handles; scanning stacks for them is not modelled. When packets run out nothing more is promised.
- HeapCollection.Heap.Collect: pools and large objects are collected one after the other, while the code collects the size classes of a thread in parallel (each changes only its own cells, `Outside`). Giving back blocks without a marked cell before that is modelled in PoolAllocator.Pool.Shrink; when a compaction runs past an end, only what was done before is described.
- Compaction.Pool.Compact: user move constructors are taken to copy the object's words.
- AvlTree.Insert: trees are values, so the assignments to fields of shared nodes are not visible; heights are unbounded while the code keeps them in one byte.
- PoolAllocator.Pool.Allocate: the blocks and the marks of the collection it may start are parameters; that an offered block is none the pool has at that moment is assumed of the core allocator (a block the collection gave back may be offered again).
- PageIndex.Index.AddPage: single-threaded; the compare-and-exchange race between two threads that create the same level is not modelled.
- WorldStop.StepKeepsInv: the set of threads is fixed; registering and leaving threads, and the signal's own delivery by the system, are not part of this model. The last token of the handler and its return are one step.
- The write barrier's test of the phase, its test of the mark and the recording are one step; other accesses are separate steps. All steps are atomic: C++ memory orderings are not modelled.
- Objects under construction when the world stops: allocation and commit are one step, so their conservative tracing is left out.
- MarkProgress.MarkingCanFinish: there is such a run; that every fair schedule ends is not stated. The concurrent state machine disables a step that needs a packet when none is left, and the run may end there.
- CycleProgress.EveryRunCanCollect: the same.
- Pointer casts that register a raw pointer without the barrier: handles are copied through the barrier, and stay inside their cell.
- CMS does not compact: the allocator's test for it always answers no (gc_pool_allocator.cpp:330-332), so which pools are compacted is a parameter of the collection.
- The large-object allocator's block list, the bump allocator's address arithmetic, bitset shifts, the flattened iteration over blocks, residency and heap-growth heuristics, statistics other than moved and freed bytes of a compaction: they would add only easy members.
- The binary search for a logarithm and the mask that finds a cell's start: arithmetic that the models above do not need, since they number cells.
- Function cords, cord positions and the forward and reverse comparisons: commented out in the source.
- Mapping memory, sending signals, reading thread stacks, logging and timing: input and output.
