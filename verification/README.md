# Expert-parallel dispatch/combine: a verified model

The program moves the tokens of a mixture-of-experts layer between GPUs. Every rank runs a *dispatch* kernel, which
scatters its tokens to the ranks that own their experts, then some computation on the packed rows, then a *combine*
kernel, which returns the experts' outputs and adds them up with the routing weights. Ranks talk through direct stores
(own memory, NVLink) and through RDMA work requests on queue pairs. This project models that protocol, the
control-buffer heap under the queue pairs, and the index arithmetic and warp-level loops that the protocol rests on.

## How it is modelled

**The protocol** (`Config`, `Protocol`, `Invariant`, `Keep*`, `Stable`, `Lockstep`, `Progress`, `Theorems`, `Transport`, `Order`) is one
step system for all ranks. A step is one action of one warp or thread (draw a slot, post a write, add to the finish
counter, clear a signal word, see a non-zero word, multiply-accumulate) or the fabric executing the request at the head
of one queue pair. Steps of different warps, ranks and queue pairs interleave freely; a step waits for what the kernels
make it wait for: data, counters, signal words and grid barriers (`Protocol.Ready`), and its own warp's earlier work and
the barriers of its block or warp group (`Protocol.InTurn`). The state holds the workspace words, the signal words of
both halves, the
send and receive buffers of both halves, the queue of every queue pair, the packing counters, and the set of steps
taken, which is where every thread stands. A configuration has any number of ranks, any launch sequence in which a
combine names an earlier dispatch, any routing tables, any NVLink topology, any expert function and any
multiply-accumulate. `KeepInv.RunInv` is the inductive invariant over every run; the theorems follow from it.

Dispatch and combine use one buffer half with different layouts, so a half is owned by the launch that wrote it last
and the first write of another launch is taken to destroy everything in it. That makes round safety part of
correctness: a message that came one launch too early would lose data.

**The heap** (`MemHeap`, `HeapPartition`, `HeapReplay`, `QpLifecycle`, `QpUpdate`) is a class with the C structure's
table, counter
and loops, proved against functions on values that wrap as `size_t` does; the laws are lemmas about those functions.

**Rings, copies and layout** (`WorkQueue`, `Warp`, `Counting`, `Fp8`, `Layout`, `PackedRanges`, `Barrier`) follow the
kernels' loops; `Strided`, `Arith`, `Pow2` and `Sets` are shared mathematics.

## What the proofs found

- Unrestricted disjointness of heap blocks is false (`HeapPartition.FallbackOverlaps`). The partition, which is
  disjointness together with the account `allocated + free bytes == high-water mark`, holds through a run if and only if
  every allocation passes a check that the caller can make (`HeapPartition.RunPartition`). For disjointness alone the
  check is sufficient (`HeapPartition.TakeIsFresh`) and not necessary (`HeapPartition.UnsafeButDisjoint`).
- A request so large that its end wraps is granted (`HeapPartition.HugeSizeWraps`); the same check rejects it.
- A failed creation of a completion queue keeps its heap blocks for ever; every other failure of a queue pair's
  creation gives all blocks back (`QpLifecycle.CreateQpAccounts`, an if-and-only-if; `QpLifecycle.LeakExample`).
- A run that can go no further has finished with all results right if and only if the grid has more than one block,
  which dispatch asserts (`Theorems.TotalCorrectness`); with at most eight experts nothing ever leaves the first launch
  (`Theorems.OneBlockTraps`).
- The finish counter needs no bound of the number of sends against its tag (`Theorems.FinishWaitExact`).
- The barrier's slot arithmetic leaves the 32768-word array unless the number of ranks divides 32768
  (`Barrier.InBoundsIffDivides`).
- A power-of-two ring indexed by the 16-bit head behaves like an unbounded counter if and only if it has at most 65536
  entries (`WorkQueue.RingMustDivideHead`).

## Model

| member | source | states |
|---|---|---|
| Theorems.EndToEnd | src/ep_kernel.cu:196-790 | For every run: once a rank has left a combine launch, token t holds the in-order fold over the entries topk[t][j] >= 0 of its batch of weights[t][j] and what expert topk[t][j] makes of x[t], whatever slots, arrival order and packing order occurred |
| Theorems.FoldIsWeighted | src/ep_kernel.cu:771-782 | What the kernel accumulates step by step is that fold, written over the batch alone |
| Theorems.TotalCorrectness | src/ep_kernel.cu:142-792 | A run in which no step is possible has every rank past every launch if and only if there are more than eight experts or there is nothing to launch, and then every combine result is right |
| Theorems.OneBlockTraps | src/ep_kernel.cu:276-277 | With at most eight experts, so a single block, no rank ever cleans a word or leaves its first launch |
| Progress.NoDeadlock | src/ep_kernel.cu:189-370 | With more than one block, in every state of the invariant, unless all ranks have finished all launches, some step is possible: no wait is circular, with each warp's own order and the block and group barriers as guards |
| Progress.BlocksDone | src/ep_kernel.cu:189-309 | If nothing can move, every block of a dispatching rank is at its barrier: its token loop is through and its experts are counted |
| Progress.RowDone | src/ep_kernel.cu:673-707 | If nothing can move, every row of a combine range has been sent, each warp's rows one after the other, the first warp's after it has raised the flag |
| Progress.RunsAreFinite | src/ep_kernel.cu:142-792 | Every run, under every schedule, is bounded in length; with TotalCorrectness this is termination with the right result |
| Theorems.SignalImpliesData | src/ep_kernel.cu:238-335 | When word local * num_ranks + source of an armed half is not zero in a dispatch launch, it reads -n-1 for the number n of entries of the source's table that name the expert, and slots 0..n-1 hold, each once, index t and row x[t] of their tokens |
| Theorems.CombineSignalImpliesData | src/ep_kernel.cu:673-731 | When the word of an expert is not zero in a combine launch, it reads 1, and for every token that names the expert its slot holds what the expert made of x[t] |
| Transport.SendTransport | src/ep_kernel.cu:248-270 | A send to another rank without NVLink changes no receive memory and no word, records no arrival and posts exactly one write, on queue pair peer * (256/num_ranks) + local % (256/num_ranks), from a source that holds the content; any other send queues nothing and puts the content into the peer's slot; so in both kernels |
| Transport.SignalTransport | src/ep_kernel.cu:317-335 | The same for signals: one atomic add of -n-1 (combine: 1) on the queue pair of the data, or a store into the peer's word |
| Order.OrderIsKept | src/ep_kernel.cu:189-316 | In every state of every run, whatever a warp, block or group has done, it has done what its own order and barriers put before: lanes clean and tag every 32nd word, block 0 tags before it counts, a block takes every (num_blocks)th token in turn and its groups wait for all of them, warps take every fourth row, the flag is raised before the first warp sends |
| KeepHistory.SignalAtHead | src/ep_kernel.cu:257-264 | When the fabric reaches a signal at the head of a queue pair, every message that it announces has landed |
| KeepHistory.SignalCaused | src/ep_kernel.cu:311-316 | A signal can be sent only when the other half is clean and all sends of its expert are done |
| Theorems.FinishWaitExact | src/ep_kernel.cu:273-316 | For every run and every number of sends: at the wait, the counter is 2 * 1024 if and only if the clean tag was added and all sends of the expert have finished |
| KeepHistory.FinishCounterExact | src/ep_kernel.cu:301-316 | The same in any state whose counters follow the history |
| Theorems.CleanWaitExact | src/ep_kernel.cu:654-732 | While a group still has to retire, the clean flag of combine is positive if and only if it was raised, and never negative, although dispatch uses the same word as a slot counter |
| KeepHistory.CleanFlagExact | src/ep_kernel.cu:711-732 | The same in any state whose counters follow the history |
| Theorems.NeverTwoLaunchesApart | src/ep_kernel.cu:345-384 | In every run no rank is more than one launch ahead of another |
| Lockstep.PeerSignalled | src/ep_kernel.cu:352-384 | A rank that left launch k has all signals of all peers for it, so each peer has entered it, cleaned the other half, and has its data landed |
| Lockstep.SignalWindow | src/ep_kernel.cu:316-335 | A signal that has not landed finds its receiver in the same launch or the one before, with the word already cleaned |
| Lockstep.ArrivalWindow | src/ep_kernel.cu:248-270 | Data that has not landed finds its receiver in the same launch or the one before |
| Theorems.CleanErasesNothing | src/ep_kernel.cu:278-286 | When a word is cleared, the previous launch's signal there was consumed and the next launch's signal was not sent |
| KeepWords.LandsOnZero | src/ep_kernel.cu:317-335 | A signal lands on a zero word, so the plain store and the atomic add have the same effect |
| Theorems.WritesFindHalfFree | include/ep_buffer.h:43-57 | Whatever is written for launch k, every earlier launch that used the same half at the receiver has read all it will ever read there |
| Theorems.WorkspaceReused | src/ep_kernel.cu:337-338 | After every launch of every sequence of dispatches and combines, every workspace word is zero again |
| Theorems.NoLateAdd | src/ep_kernel.cu:238-305 | No slot draw, finish add, tag add or count add can hit a counter that was already reset |
| KeepCounters.ClaimsBounded | src/ep_kernel.cu:239-240 | Slots drawn for an expert never exceed its tasks, and equal them once all tasks have drawn |
| Theorems.RangesTile | src/ep_kernel.cu:366-384 | In every run, once all sources are packed, every row below the packed count is in the range of exactly one source and below num_ranks * max_tokens |
| Theorems.CombineReadsPacked | src/ep_kernel.cu:663-678 | The count that combine reads is the number of entries of the source's table that name the expert, and the row at each position is index and row of the token that drew that slot |
| KeepData.SlotHolds | src/ep_kernel.cu:391-399 | The slot that a row is packed from holds index t and row x[t] of the task that drew it |
| KeepData.CombineItem | src/ep_kernel.cu:673-690 | A row of a combine range goes to the slot of (this expert, original token t) and carries what the expert made of x[t] |
| KeepFlight.SourceIsContent | src/ep_kernel.cu:692-703 | What the fabric reads from the send buffer, however late, is the content that was staged for that request |
| KeepResults.FoldReads | src/ep_kernel.cu:773-777 | The slot that combine reads for entry topk[t][j] and token t holds what that expert made of x[t] |
| KeepRanges.SendsBounded | src/ep_kernel.cu:244-247 | With distinct top-k entries an expert gets at most max_tokens messages from a source |
| Theorems.AddressesInRange | src/ep_kernel.cu:241-247 | Every slot that any item of any run is sent from or to is within the bounds of its buffer |
| Theorems.DistinctSlots | src/ep_kernel.cu:239-247 | Two different items of a launch for one rank never name the same slot |
| KeepInv.KeepInv | src/ep_kernel.cu:142-792 | Every step of every rank and of the fabric keeps the invariant |
| KeepInv.RunInv | src/ep_kernel.cu:142-792 | Every state of every run satisfies the invariant: history, counters, ranges, packed rows, staged data, queue order, words, received data, results |
| Invariant.InitInv | src/ep_buffer.cpp:166-167 | A zeroed workspace, zero signals in half 0 and empty queues establish it; everything else may hold any value |
| Config.HostDeviceAgree | src/ep_buffer.cpp:355-357 | For every rank count, destination and local expert the queue pair that the kernel picks exists and is connected by the host loop to that destination |
| Config.WordInjective | src/ep_kernel.cu:320-334 | Different groups use different signal words, in both kernels' numberings |
| Config.GroupOfFlat | src/ep_kernel.cu:241-242 | Splitting an expert index into owner and local index gives a group, and joins back |
| Layout.BufferPair | include/ep_buffer.h:37-59 | The eight regions lie back to back from 0 to total_bytes, each with its size, and total_bytes is 16 * num_experts + 4 * num_experts * max_tokens * (32 + 2 * hidden) |
| Layout.SlotInRegion | src/ep_kernel.cu:355-362 | Every slot in bounds lies inside its data region, in FP8 and BF16 format |
| Layout.SlotsDisjoint | src/ep_kernel.cu:244-247 | Different keys of one buffer give disjoint byte ranges |
| Layout.PartsFit | src/ep_kernel.cu:198-200 | A message has room for the index at 0, the values at 16 and each FP8 scale s at 16 + hidden + 4 s, and they do not meet |
| Layout.PartsCover | src/ep_kernel.cu:175 | Every byte of a message but the padding 4..15 belongs to one of these parts |
| Layout.PartsNeverMeet | src/ep_kernel.cu:391-402 | In the data region no two parts meet, of one message or of messages in different slots |
| Layout.RowIsFilled | src/ep_kernel.cu:638 | A combine slot is filled by the channels of a row, two bytes each |
| Layout.DispatchAddresses | src/ep_kernel.cu:244-247 | The address that the sender of dispatch computes from the expert index is the one that the receiver computes from its group index (lines 355-357), and that of the slot |
| Layout.CombineAddresses | src/ep_kernel.cu:680-774 | The address that the sender of combine computes is the one that the fold reads, and that of the slot |
| Layout.SignalWords | src/ep_kernel.cu:716-730 | Signal words are in their region and differ for different groups |
| Layout.MessagesNeverOverlap | src/ep_kernel.cu:680-690 | In every run, different items of a launch for one rank land in disjoint bytes of its receive region |
| Counting.LaneScan | src/ep_kernel.cu:293-298 | A lane's strided scan counts, for each expert of its block, the table positions that are congruent to the lane and name the expert |
| Counting.CountScan | src/ep_kernel.cu:289-307 | Scan and butterfly give each expert its number of occurrences in the whole table |
| Counting.CountEqualsSends | src/ep_kernel.cu:289-307 | That number is the number of messages that the protocol sends to the expert |
| Counting.SendAll | src/ep_kernel.cu:196-240 | The block-strided token loop with one warp per top-k position sends every used entry exactly once, and to each expert exactly the entries that name it |
| Warp.LaneCopy | include/ep_utils.cuh:14-23 | One lane copies exactly the indices below N congruent to it modulo 32 |
| Warp.WarpCopy | include/ep_utils.cuh:6-24 | For every N and unroll factor the 32 lanes, in any order, copy N elements and change nothing else |
| Warp.ReduceSumIsSum | include/ep_utils.cuh:445-452 | After the five exchanges every lane holds the sum over all 32 lanes |
| Warp.WarpReduceSum | include/ep_utils.cuh:445-452 | The reduction as it runs returns that sum in every lane |
| Fp8.HalfWarpMaxIsMax | include/ep_utils.cuh:454-461 | After the four exchanges every lane holds the maximum over exactly the sixteen lanes of its half |
| Fp8.WarpAmax | src/ep_kernel.cu:212-220 | One pass of a warp finds, in each half, the maximum magnitude of exactly that half's 128 channels, at least the margin |
| Fp8.FactorInverse | src/ep_kernel.cu:220 | Over the reals factor times scale is 1 |
| Fp8.ScaleBound | src/ep_kernel.cu:220-228 | Every scaled value is within 448, and scaling back is exact |
| Fp8.QuantizeWarp | src/ep_kernel.cu:206-231 | One pass writes two scales and 256 values, all right, and nothing else |
| Fp8.QuantizeToken | src/ep_kernel.cu:206-235 | For every hidden size that is a multiple of 256 each pass runs once, each scale comes from the maximum over exactly its 128 channels, each value is in range and scales back |
| Fp8.ScaleIndexInjective | src/ep_kernel.cu:360-408 | The transposed scale index is in range and differs for different (local expert, row, scale) |
| Fp8.ScaleIndexSteps | src/ep_kernel.cu:403-408 | The next row is the next word, the next scale is num_ranks * max_tokens words on |
| Fp8.StoreRow | src/ep_kernel.cu:401-409 | Storing a packed row with at most 64 scales puts scale s at its index in the tensor of all local experts and changes no word that is not an index of that row |
| Fp8.StoreTransposed | src/ep_kernel.cu:401-409 | With two stores for each lane, every scale below 64 is at its strided place, the places of further ones keep what they held, and no other word changes |
| Fp8.AllStored | src/ep_kernel.cu:390 | Those are all the scales if and only if there are at most 64 |
| PackedRanges.PackRoundTrip | include/ep_utils.cuh:413-431 | Unpacking a packed pair of 32-bit integers gives the pair, negative values included, and the first of the two is in the low word |
| PackedRanges.Await | src/ep_kernel.cu:366-380 | The wait ends at the first look that shows a signal, an expiry or an inactive source; if it shows the word w it answers -w-1, if it shows none it answers 0, and the source is marked inactive exactly if that look has expired |
| PackedRanges.Inbox.Pack | src/ep_kernel.cu:381-384 | A source takes the next rows and its pair, read back, is (count, begin) |
| PackedRanges.Inbox.PackAll | src/ep_kernel.cu:366-384 | For every serving order and whatever each source's wait saw, the pairs read back tile the packed rows, a source whose wait ended on the word -n-1 has n rows and one that was given up none, the total is the sum and at most num_ranks * max_tokens, and the sources marked inactive are those whose wait expired |
| WorkQueue.RoundUpPow2 | src/ep_ibgda/mlx5gda.cpp:19-28 | The least power of two that is at least n, with no overflow for any int |
| WorkQueue.SlotOfHead | src/ep_kernel.cu:84 | A head that wraps at 2^16 gives the slot of the unbounded count when the ring divides 2^16 |
| WorkQueue.RingMustDivideHead | src/ep_buffer.cpp:296-303 | For a power-of-two ring that holds for all counts if and only if the ring has at most 65536 entries |
| WorkQueue.NextHead | src/ep_kernel.cu:73-79 | The doorbell's index is that of the entry just written, also when the head has wrapped to 0 |
| WorkQueue.WindowDistinct | src/ep_kernel.cu:84-114 | Posts less than a ring apart use different slots |
| WorkQueue.WindowSlides | src/ep_kernel.cu:84-138 | Writing the next entry keeps the last ring-size posts readable at their slots |
| WorkQueue.SendQueue.constructor | src/ep_buffer.cpp:296-303 | An empty queue with a power-of-two ring is valid |
| WorkQueue.SendQueue.Post | src/ep_kernel.cu:73-103 | After any number N of posts: the entry is at slot N mod ring size, the doorbell names it, the doorbell record shows the count modulo 2^16, the doorbell half alternates |
| WorkQueue.PollCq | src/ep_kernel.cu:49-63 | The poll loop computes its specification: stop, trap or spin, and the tail it stores |
| WorkQueue.WrappedCompare | src/ep_kernel.cu:51 | The signed 16-bit difference of two counts less than 2^15 apart is their true difference |
| WorkQueue.PollIsExact | src/ep_kernel.cu:49-63 | For completion counts near the awaited index the loop exits at the first count above it and stores that count modulo 2^16, and otherwise spins, whatever completions arrive between the loads of counter and opcode |
| WorkQueue.PollTraps | src/ep_kernel.cu:53-57 | The poll traps if and only if some load shows an opcode other than 0x0 and 0xF and no load before it ends the wait |
| WorkQueue.CounterRoundTrip | src/ep_ibgda/mlx5gda.cpp:96-102 | The entry shown after c completions reads as c modulo 2^16; the all-ones entry reads as none |
| MemHeap.Allocator.constructor | include/ep_ibgda/memheap.h:29-39 | A new heap is empty |
| MemHeap.Allocator.AlignedAlloc | include/ep_ibgda/memheap.h:48-128 | The scanning loop in place does what first fit with splitting and bump fallback does on values, error cases and table-full cases included |
| MemHeap.Allocator.CarveEntry | include/ep_ibgda/memheap.h:73-96 | Cutting an entry leaves the leading and trailing pieces as new entries while the table has room |
| MemHeap.Allocator.Alloc | include/ep_ibgda/memheap.h:130-138 | Allocation with the default alignment |
| MemHeap.DefaultAlignIs | include/ep_ibgda/memheap.h:130-138 | The default alignment is the largest power of two that divides the size, but at least 8 and at most 16 |
| MemHeap.Allocator.Free | include/ep_ibgda/memheap.h:140-156 | Frees the first used entry with that offset, or nothing |
| HeapPartition.TakeKeepsPartition | include/ep_ibgda/memheap.h:62-124 | An allocation keeps blocks disjoint and inside, and counter plus free bytes equal to the high-water mark, if and only if the check SafeToTake holds before it |
| HeapPartition.TakesFirstRoom | include/ep_ibgda/memheap.h:62-103 | An allocation takes the first free entry that has room for the aligned block, at the lowest aligned offset in it |
| HeapPartition.NoRoomBumps | include/ep_ibgda/memheap.h:105-124 | With no room in any free entry the block goes to the aligned bump pointer if the heap is large enough, and otherwise the allocation fails |
| MemHeap.TakeFails | include/ep_ibgda/memheap.h:48-128 | When an allocation fails and with which error; it then changes nothing |
| Pow2.Pow2Is | include/ep_ibgda/memheap.h:53-56 | The alignments that are accepted are exactly the powers of two |
| HeapPartition.TakeIsFresh | include/ep_ibgda/memheap.h:62-124 | A safe allocation returns aligned memory inside the heap that overlaps no live block, records it, and keeps every live block |
| HeapPartition.ReleaseKeepsPartition | include/ep_ibgda/memheap.h:140-156 | Freeing any offset keeps the partition |
| HeapPartition.RunPartition | include/ep_ibgda/memheap.h:48-156 | Over every sequence of allocations and frees the partition holds at every point if and only if every allocation was safe |
| HeapPartition.FreshIsPartition | include/ep_ibgda/memheap.h:29-39 | A new heap is a partition |
| HeapPartition.UnsafeButDisjoint | include/ep_ibgda/memheap.h:105-120 | Allocate 8 twice, free the first, allocate 4096 page-aligned: unsafe, the account breaks, yet all blocks stay disjoint |
| HeapPartition.HugeSizeWraps | include/ep_ibgda/memheap.h:105-121 | With 8 bytes in use, a request of 2^64 - 8 bytes is granted at offset 8 and leaves the counter at zero, and freeing the first block wraps it; the check rejects the request |
| HeapPartition.FallbackOverlaps | include/ep_ibgda/memheap.h:105-111 | Allocate 4096 twice, free the first, allocate 8192: the result is offset 4096, which is live |
| HeapReplay.LaysOut | include/ep_ibgda/memheap.h:105-124 | A successful allocation sequence on a new heap lays its blocks out in request order |
| HeapReplay.ReleasesEverything | include/ep_ibgda/memheap.h:147-152 | Freeing all blocks in any order leaves the same table with every entry free |
| HeapReplay.ReplayRestores | include/ep_ibgda/memheap.h:62-124 | Free all in any order and allocate again: identical offsets, identical heap |
| HeapReplay.RecreateRestores | src/ep_buffer.cpp:311-348 | So does any number of such rounds, each with an order of its own |
| HeapReplay.CreateIsOneQp | src/ep_ibgda/mlx5gda.cpp:187-329 | Creating a queue pair succeeds on the heap exactly when its four requests do, and leaves the heap they leave |
| HeapReplay.QpsFit | src/ep_buffer.cpp:276-307 | Up to 256 queue pairs at four blocks each fit the 1024-entry table and the 1 GiB buffer |
| HeapReplay.RecreateQps | src/ep_buffer.cpp:311-348 | Freed in whatever order, any number of times, the requests of n queue pairs get their old blocks |
| QpUpdate.CreateQps | src/ep_buffer.cpp:281-307 | The creation loop in place, stopping at the first failure with the queue pairs made so far |
| QpUpdate.UpdateLocalQpns | src/ep_buffer.cpp:311-348 | Destroys all queue pairs in index order, then runs the creation loop |
| QpUpdate.CreateAllCreates | src/ep_buffer.cpp:281-307 | Whatever fails, the list holds the queue pairs that the creations made, in order, each on the heap that the one before left; all succeeded if and only if the loop reports success, and otherwise the creation after the last of the list is the one that failed |
| QpUpdate.CreateAllIs | src/ep_buffer.cpp:281-307 | Creating n queue pairs makes their requests in order, and the offsets of the queue pairs are those the requests got |
| QpUpdate.UpdateRestoresLayout | src/ep_buffer.cpp:311-348 | Up to 256 queue pairs are created on a new 1 GiB heap, pair i at offsets 2105344 i plus 0, 1048576, 1052672 and 2101248, and any number of updates gives back the same list of queue pairs and the same heap |
| QpLifecycle.CreateCqInPlace | src/ep_ibgda/mlx5gda.cpp:64-171 | Creating a completion queue on the heap, with every failure |
| QpLifecycle.DestroyCqInPlace | src/ep_ibgda/mlx5gda.cpp:173-185 | Destroying it frees its two blocks |
| QpLifecycle.CreateQpInPlace | src/ep_ibgda/mlx5gda.cpp:187-353 | Creating a queue pair on the heap, with every failure and its clean-up |
| QpLifecycle.DestroyQpInPlace | src/ep_ibgda/mlx5gda.cpp:355-374 | Destroying it frees its four blocks |
| QpLifecycle.CreateQpAccounts | src/ep_ibgda/mlx5gda.cpp:187-374 | A created queue pair holds exactly four new live blocks and destroying it gives back exactly those; a failed creation has given back all it took if and only if it did not fail inside the completion queue's creation after its first allocation |
| QpLifecycle.LeakExample | src/ep_ibgda/mlx5gda.cpp:148-171 | On a new 1 GiB heap, when the device refuses the completion queue, no handle is returned and the blocks at 0 and 1048576 stay live |
| Barrier.RunInv | include/ep_utils.cuh:469-510 | In every run of any number of successive barriers each slot in use holds what its two ranks owe it and every other slot is 0 |
| Barrier.NobodyLeavesEarly | include/ep_utils.cuh:496-510 | A rank that has left barrier n finds that every rank has entered it |
| Barrier.SlotsReturnToZero | include/ep_utils.cuh:502-509 | Slots hold -1024, 0 or 1024, and all are 0 between barriers |
| Barrier.NeverStuck | include/ep_utils.cuh:483-494 | Some step is always possible, so every run can go on |
| Barrier.EveryBarrierCompletes | include/ep_utils.cuh:483-510 | Under every schedule, a run of R (n + 2) (3 R + 1) steps has every one of the R ranks past barrier n |
| Barrier.WindowsApart | include/ep_utils.cuh:469-472 | The slots of three successive barriers are disjoint, also where the head wraps |
| Barrier.InBoundsIffDivides | include/ep_utils.cuh:469-472 | All barriers stay inside the 32768 words if and only if the number of ranks divides 32768 |

## Left out

Assumptions that the protocol theorems state or build in:

- Requests on one queue pair take effect in posting order (InfiniBand Architecture Specification Volume 1, section
  10.8.3); requests on different queue pairs interleave freely.
- The caller alternates the two halves and passes the other half's receive signals as the buffer to clean; the
  repository's test passes scratch memory instead (test/test_dispatch_combine.cpp:329).
- The receive signals of half 0 are zero before the first launch; the program does not clear that buffer
  (src/ep_buffer.cpp:143).
- The grid barrier of combine works, although its launch does not ask for a cooperative grid (src/ep_kernel.cu:819-828).
- num_ranks divides num_experts and is at most 256, tokens do not exceed the maximum, used top-k entries of a token are
  distinct and name existing experts.
- Each dispatch launch writes packed outputs of its own, which the computation between the kernels reads row by row.
- A work queue never has more requests outstanding than its ring has entries; the kernels post without checking.

Not modelled:

- Ranks that time out during combine: it then reads slots that nobody filled (src/ep_kernel.cu:748-752). Timed-out
  sources of dispatch are covered by PackedRanges; the protocol theorems take all ranks as active.
- zero_copy combine, and launches whose send and receive phases run separately.
- The memory model: steps are sequentially consistent, load and store variants and fences are not distinguished.
- Floating-point rounding and the BF16 and FP8 casts: rows are opaque, the fold keeps the kernel's order, and scales are
  reals.
- 32-bit overflow of products of sizes such as num_experts * max_tokens; the model computes with unbounded integers
  there. The heap's size_t and the queue's 16-bit and 32-bit counters do wrap in the model.
- Masks with a power of two minus one are modelled as remainders, and the test of a power of two by repeated halving.
- Byte swapping and the bit layout of work queue entries; an entry is its index and its request.
- Threads of one block that share a token: staging it, and each multiply-accumulate over it, is one step for all of them.
- Locks: posts, allocations and frees are modelled as the atomic operations that their mutexes make them.
- Barrier: only the warp whose lanes add and subtract waits in the model; other warps of the block may read a slot
  before the add and pass. Its clock and trap are left out.
- CUDA, verbs and DEVX calls, device discovery, address exchange and shared-memory handles: foreign code. Their failure
  is an input of QpLifecycle.
- The launch switches over hidden sizes and the C wrappers (src/ep_kernel.cu:449-604): repetition without logic.
- Fp8.StoreTransposed: covers one row of one warp; that rows do not collide is Fp8.ScaleIndexInjective.
