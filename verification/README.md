# MoE-Infinity offloading runtime: a verified model

This project models the native core of MoE-Infinity, which keeps the weights of a mixture-of-experts
model on disk, in host memory and on GPUs and moves experts to where they run, and proves what that
core is for. It is written for Dafny 4.11; `dafny verify dfyconfig.toml` checks all of it.

## What is modelled

**Expert dispatcher** (`Dispatcher*.dfy`). A step machine with one step per queue push or pop, per
decision of a fetch thread and per phase of the output function; the threads interleave freely. A
round is SetInputs, SetExpectedQueue(n), n distinct EnqueueExpert calls and WaitHiddenStates; each
expert of a round is selected by 1 to 256 tokens. Values are reals, an expert is an arbitrary
row-wise function. `DispatcherInvariant` and `DispatcherSteps` give the token discipline, which
holds for experts of any sizes; `DispatcherSlots` adds what holds on a device where experts can be
exchanged within the limit; `DispatcherTheorems` and `DispatcherHistory` have the results over whole
runs, `DispatcherRoom`, `DispatcherLoss` and `DispatcherFaults` the exact conditions;
`DispatcherEffects` says what each call gives, and `DispatcherClass` is the object whose every state
is one the machine reaches.

*Named assumption.* `DispatcherModel.EvictionIsAtomic`: between the victim scan and the victim's
move to the host, no round enqueues that victim. The code holds no lock over the two
(core/parallel/expert_dispatcher.cpp:245-248 and 422). The results of `DispatcherTheorems`,
`DispatcherRoom`, `DispatcherClass` and, but for visit counts and queues, `DispatcherHistory` are
about runs that keep this assumption; `DispatcherLoss` and `DispatcherFaults` are about all runs, and
say what happens when it is broken and when it cannot be.

**Chunked, prioritised I/O** (`Basics`, `Bytes`, `Chunks`, `Aio*.dfy`). Read and Write cut a transfer into
chunks that workers run in any order through a pool of bounce buffers; a scheduler with two queues
keeps one request in the pool at a time. Again a step machine, with bytes in files, buffers and
chunks. The main result is that every interleaving leaves memory as sequential service would.

**Tensor store and nodes** (`TensorStore`, `StoreThroughScheduler`, `NodeLoader`, `NodeResidence`).
StoreTensor packs aligned extents into partition files and refines a map from tensor id to bytes;
this is composed with the I/O machine into one end-to-end statement. Three loaders rebuild a node's
host buffer, and SetDevice moves nodes between disk, CPU and CUDA.

**Index codec, calendar, UTC time** (`IndexCodec`, `IndexLayout`, `Calendar`, `UtcTime`). Truncating division,
little-endian widths and the 32-bit entry count are modelled as the code has them.

**Device memory and topology** (`DeviceMemory`, `DeviceNodes`, `VisitCounts`, `SparsePlacement`). Device
memory is compared by address range, and covers the scratch buffers that modules take from the same
allocator.

## Where the code falls short of what it promises

- The evict race above: some run ends in a forward without weights, unless on each device all experts
  fit the limit together or none fits alone (`DispatcherFaults.FaultFreeIff`).
- The room of a device goes negative for some run exactly when one expert can be exchanged for
  another past the limit (`DispatcherRoom.RoomIffSwap`). The scan's choice among experts of equal
  visit count follows the order of a hash set, which the model leaves open.
- Flat child-visit indices collide or leave the vector exactly when a sparse stage has more nodes
  than the last one (`VisitCounts.SoundIffNoneLarger`).
- A tensor listed in two nodes: a run of three moves leaves one of them resident without its view
  (`NodeResidence.ShareTensor`); without such a tensor no run does (`NodeResidence.RunAll`).
- A store while a node is resident leaves its views on the old bytes (`NodeResidence.ViewsFreshIff`).
- FreeMemory does not check the pointer and the size it is given (`DeviceMemory.FreeInvIff`).
- The 32-bit round-robin counter yields a negative thread index once it wraps, unless it is then a
  multiple of the thread count (`AioTheorems.RoundRobinIndex`).
- Dates before 1 March -4800, weekdays of day numbers below -1, and tm_yday, with it the POSIX
  expression for the seconds, in the year -4800 (`Calendar.DayOfDate`, `UtcTime.WeekDayIff`,
  `UtcTime.YearDayIff`, `UtcTime.MeetsPosixIff`).
- date.h says the weekday is one of 0 to 6 without that restriction; the code is followed.
- An index of exactly 2^32 entries (`IndexCodec.FullIndex`).
- Transfers longer than a block are unaligned unless the block size is a multiple of 4096
  (`Chunks.TransfersAlignedIff`).

## Model

| member | source | states |
|---|---|---|
| `DispatcherTheorems.OutputIsWeightedSum` | core/parallel/expert_dispatcher.cpp:479-631 | In every state any interleaving reaches, when WaitHiddenStates may return, each cell of the result is the sum over the round's experts of weight times output, each expert exactly once and only for tokens that select it; for experts of any sizes |
| `DispatcherHistory.RoundResult` | core/parallel/expert_dispatcher.cpp:479-631 | A round begun with given inputs and plan in any reachable state, whatever interleaving follows: when the barrier opens the result is the weighted sum for those inputs over that plan |
| `DispatcherHistory.VisitsAreFetches` | core/parallel/expert_dispatcher.cpp:220-229 | Over every run, atomic or not, the visit count of an expert is the number of times a fetch thread moved it onto a device since the start or since its count was last cleared |
| `DispatcherHistory.VictimFetchedLeast` | core/parallel/expert_dispatcher.cpp:236-254 | A victim is cached and idle, and no cached idle expert was moved onto a device less often, each counted from the start or its last clear |
| `DispatcherHistory.QueuesAreFifo` | core/parallel/expert_dispatcher.cpp:120-194 | Over every run experts are fetched in the order of their misses and run in the order in which they became runnable, and the queues hold the rest |
| `DispatcherHistory.PendingIsOutstanding` | core/parallel/expert_dispatcher.cpp:589-619 | pending_ is the number of experts still to be enqueued plus those with a token, so the barrier opens exactly when every planned expert was enqueued and has finished |
| `DispatcherHistory.BranchIsByBatch` | core/parallel/expert_dispatcher.cpp:338-419 | A fetch thread waits only when the expert in hand does not fit: for the overload slot in a prefill, for a victim in a round of one token |
| `DispatcherHistory.SlotIsGivenBack` | core/parallel/expert_dispatcher.cpp:440-475 | Where experts can be exchanged, an exec token is marked evict exactly if the cache does not count its expert, and a set overload flag has a token that will clear it |
| `DispatcherValues.SingleTokenPathAgrees` | core/parallel/expert_dispatcher.cpp:576-587 | For a batch of one token the add_ branch and the masked index_add_ branch give the same accumulator |
| `DispatcherValues.AccumulateAdds` | core/parallel/expert_dispatcher.cpp:548-593 | One accumulation adds exactly the expert's contribution to each cell and nothing elsewhere |
| `DispatcherTheorems.EnqueueNeverFails` | core/parallel/expert_dispatcher.cpp:129-146 | Under the round discipline the compare-exchange of Enqueue always finds IDLE |
| `DispatcherTheorems.NoFaults` | core/parallel/expert_dispatcher.cpp:589-592 | pending_ never underflows, no forward runs with its weights off its device or on an empty or over-long batch, and no evicted key is unknown to the cache |
| `DispatcherTheorems.AtMostOneToken` | core/parallel/expert_dispatcher.h:40-56 | No expert ever has two tokens in the queues and threads of all devices together |
| `DispatcherTheorems.BusyExpertHasToken` | core/parallel/expert_dispatcher.cpp:129-146 | Every expert that is not IDLE has a token, and on a thread only before the IDLE store |
| `DispatcherTheorems.VictimIsFinished` | core/parallel/expert_dispatcher.cpp:236-254 | A chosen victim has no forward left to run: no queue holds it, and a thread holding it is past the IDLE store |
| `DispatcherTheorems.RoomIsConserved` | core/parallel/expert_dispatcher.cpp:420-444 | For experts of any sizes, cache_sizes_[g] plus the bytes of cached_experts_[g] equals the limit in every reachable state, and everything cached is resident |
| `DispatcherTheorems.CacheAccounting` | core/parallel/expert_dispatcher.cpp:338-444 | On a device where no exchange of one cached expert for another passes the limit (equal sizes are a case), the room is never negative, at most one resident expert is uncounted, only under the overload flag, and residency is at most the limit plus that expert |
| `DispatcherRoom.RoomIffSwap` | core/parallel/expert_dispatcher.cpp:338-444 | Given an exec thread on the device, its room stays non-negative in every reachable state exactly when no exchange of one expert for another in a set that fits passes the limit, whichever of the least-visited experts the scan meets first |
| `DispatcherRoom.OverdrawnRun` | core/parallel/expert_dispatcher.cpp:356-444 | If some exchange passes the limit: a run from the initial state that loads the set in rounds of one token, asks for the larger expert and leaves the room negative |
| `DispatcherRoom.UnequalSizesOverdraw` | core/parallel/expert_dispatcher.cpp:414-444 | The instance with two experts of one and two bytes under a limit of one |
| `DispatcherSlots.UniformSwaps` | core/parallel/expert_dispatcher.cpp:338-444 | Experts of equal size can be exchanged on every device |
| `DispatcherSlots.NoneFits` | core/parallel/expert_dispatcher.cpp:338-353 | Where experts can be exchanged, if one uncached expert does not fit the room none does, so no expert goes in by room while another holds the overload slot |
| `DispatcherTheorems.SlotNeedsFullCache` | core/parallel/expert_dispatcher.cpp:339-353 | There the overload slot is in use only in a prefill and while nothing uncached fits |
| `DispatcherLoss.SplitEvictionLosesExpert` | core/parallel/expert_dispatcher.cpp:356-422 | From every reachable state with a chosen victim: if the victim is enqueued, any steps follow that neither evict on that device nor run its forward, and then it is moved, it is FETCHING, queued or popped, and on the host; in every continuation, atomic or not, it stays so until a fault, and its own forward is one |
| `DispatcherLoss.StepKeepsWaiting` | core/parallel/expert_dispatcher.cpp:120-593 | An expert enqueued for a hit waits for its forward through every step that is not that forward or a fault |
| `DispatcherLoss.StepKeepsLost` | core/parallel/expert_dispatcher.cpp:120-593 | No step fetches, moves or runs a lost expert without a fault |
| `DispatcherFaults.FaultFreeIff` | core/parallel/expert_dispatcher.cpp:245-422 | Given an exec thread on every device, all runs, atomic or not, are free of faults exactly when on each device either all experts fit the limit together or none fits alone |
| `DispatcherFaults.FaultyRun` | core/parallel/expert_dispatcher.cpp:338-528 | For any set that fits, any member of it and any expert that does not fit beside it: a run from the initial state that chooses the member as victim, enqueues it, evicts it and runs it without weights |
| `DispatcherFaults.NoVictim` | core/parallel/expert_dispatcher.cpp:338-419 | On a device where all experts fit together or none fits alone no victim is ever chosen |
| `DispatcherFaults.TwoExpertsRace` | core/parallel/expert_dispatcher.cpp:245-422 | The instance with two experts of one byte under a limit of one |
| `DispatcherTheorems.StepKeepsInv` | core/parallel/expert_dispatcher.cpp:120-593 | Every single step of the client, the fetch threads and the exec threads keeps the token, cache, barrier and value invariant, for any sizes |
| `DispatcherTheorems.StepKeepsSlots` | core/parallel/expert_dispatcher.cpp:338-475 | On a device where experts can be exchanged every step also keeps the ownership of the overload slot and the room |
| `DispatcherTheorems.TokenDevice` | core/parallel/expert_dispatcher.cpp:152-175 | An expert that waits for a fetch is on the host, one that waits for a forward is on the device that will run it |
| `DispatcherModel.CacheKeyRoundTrip` | core/parallel/expert_dispatcher.cpp:240-242 | The packed cache key gives layer and expert back exactly when the expert index is below 2^32 |
| `DispatcherClass.AddMasked` | core/parallel/expert_dispatcher.cpp:581-587 | The row-by-row loop computes the indexed weighted addition |
| `DispatcherClass.ExpertDispatcher.BeginRound` | core/parallel/expert_dispatcher.cpp:621-631 | SetInputs and SetExpectedQueue: the inputs and the plan are those given, the accumulator is zero, the barrier is open only if nothing is planned, and every planned expert is IDLE |
| `DispatcherClass.ExpertDispatcher.Enqueue` | core/parallel/expert_dispatcher.cpp:120-194 | No fault: the compare-exchange finds IDLE, and the one token of the expert is at the back of the exec queue of its device on a hit, of the input queue on a miss |
| `DispatcherClass.ExpertDispatcher.FindExpertEvict` | core/parallel/expert_dispatcher.cpp:236-254 | The scan returns an idle resident cached expert with the least visit count, or none exactly if there is none |
| `DispatcherClass.ExpertDispatcher.FetchPop` | core/parallel/expert_dispatcher.cpp:285-354 | The first expert of the queue is on the host and its one token with the fetch thread; it goes on at once exactly if it fits the room, else waits for the slot in a prefill and for a victim with one token |
| `DispatcherClass.ExpertDispatcher.FetchTakeSlot` | core/parallel/expert_dispatcher.cpp:346-353 | Where experts can be exchanged, the slot is taken only in a prefill and when nothing uncached fits the room |
| `DispatcherClass.ExpertDispatcher.FetchSelect` | core/parallel/expert_dispatcher.cpp:356-419 | The victim chosen is a least-visited evictable expert |
| `DispatcherClass.ExpertDispatcher.FetchEvict` | core/parallel/expert_dispatcher.cpp:421-436 | No fault: the victim was cached and its forward over; it alone leaves the cache and the device, and room and cached bytes still add up to the limit |
| `DispatcherClass.ExpertDispatcher.FetchAccount` | core/parallel/expert_dispatcher.cpp:440-449 | The expert is on the device and has one visit more, no other expert has; it is cached unless the overload flag is set; room and cached bytes add up to the limit, and the room is not negative where experts can be exchanged |
| `DispatcherClass.ExpertDispatcher.FetchPush` | core/parallel/expert_dispatcher.cpp:462-474 | The expert's one token is at the back of the exec queue of the device it is on, marked evict under the overload flag, which where experts can be exchanged means that the cache does not count it |
| `DispatcherClass.ExpertDispatcher.ExecPop` | core/parallel/expert_dispatcher.cpp:483-487 | The first token of the queue is taken; its expert is on this thread's device and has no other token |
| `DispatcherClass.ExpertDispatcher.ExecForward` | core/parallel/expert_dispatcher.cpp:508-528 | No fault: the weights are on the device, and each of the 1 to 256 selected rows has its output |
| `DispatcherClass.ExpertDispatcher.ExecIdle` | core/parallel/expert_dispatcher.cpp:563-564 | The expert is IDLE while its one token is still on this thread |
| `DispatcherClass.ExpertDispatcher.ExecOffload` | core/parallel/expert_dispatcher.cpp:565-567 | Where experts can be exchanged, the cache then counts all that is on the device |
| `DispatcherClass.ExpertDispatcher.ExecRelease` | core/parallel/expert_dispatcher.cpp:571-572 | The flag is clear, and where experts can be exchanged the cache counts all that is on the device |
| `DispatcherClass.ExpertDispatcher.ExecAccumulate` | core/parallel/expert_dispatcher.cpp:575-588 | Every cell grows by the expert's weighted output where the token selects it, and nowhere else |
| `DispatcherClass.ExpertDispatcher.ExecFinish` | core/parallel/expert_dispatcher.cpp:589-592 | The counter does not underflow, the expert has no token left, and the barrier opens exactly if no other has and none is still to be enqueued |
| `DispatcherClass.ExpertDispatcher.ClearExpertCacheCounts` | core/parallel/expert_dispatcher.cpp:220-229 | Every visit count is zero and nothing else has changed |
| `DispatcherClass.ExpertDispatcher.EndRound` | core/parallel/expert_dispatcher.cpp:611-619 | Each cell of the result is the sum over the round's experts of weight times output |
| `Chunks.BuildChunks` | core/aio/archer_prio_aio_handle.cpp:82-120 | The chunk loop of a transfer produces exactly the chunks of the specification |
| `Chunks.ChunksCover` | core/aio/archer_prio_aio_handle.cpp:88-103 | Every byte of the aligned range lies in a chunk |
| `Chunks.ChunkUnique` | core/aio/archer_prio_aio_handle.cpp:88-103 | and in only one |
| `Chunks.ChunkPayload` | core/aio/archer_prio_aio_handle.cpp:104-107 | The copy ranges of the chunks are exactly the bytes below num_bytes |
| `Chunks.ChunkBounds` | core/aio/archer_prio_aio_handle.cpp:98-107 | Chunks are non-empty, at most a block long and inside the aligned range |
| `Chunks.TransfersAlignedIff` | core/aio/archer_prio_aio_handle.cpp:97-104 | With an aligned offset all transfers are aligned exactly when the block size is a multiple of 4096 or the whole request is shorter than a block |
| `AioTheorems.ServedInOrder` | core/aio/archer_prio_aio_handle.cpp:243-304 | Whatever order callbacks run in, whenever the pool is idle files and buffers are what the completed requests give when served whole, one after the other, in the order they were taken |
| `AioTheorems.CompletionIsWhole` | core/aio/archer_prio_aio_handle.cpp:269-304 | At the moment a request is completed its whole transfer is in memory |
| `AioModel.WriteThenRead` | core/aio/archer_prio_aio_handle.cpp:132-208 | Writing a range and reading it gives the written bytes |
| `AioTheorems.CallbacksRunOnce` | core/aio/archer_prio_aio_handle.cpp:210-219 | No callback runs twice, and a request's Wait returns only when each of its callbacks has run once |
| `AioTheorems.PendingIsExact` | core/aio/archer_aio_thread.cpp:37-73 | A worker's counter is its queued plus running callbacks, so the clear in Wait drops nothing, and the pool holds callbacks of one request only |
| `AioTheorems.ServedFirstComeFirstServed` | core/aio/archer_prio_aio_handle.cpp:243-318 | Each priority class is served in acceptance order, nothing lost or added |
| `AioTheorems.PriorityInversionBounded` | core/aio/archer_prio_aio_handle.cpp:243-318 | Between the acceptance of a high-priority request and its dequeueing at most one low-priority request is dequeued |
| `AioTheorems.CallbackNeverBlocks` | core/memory/pinned_memory_pool.cpp:48-62 | A running callback always finds a free chunk and its transfer fits the chunk |
| `AioTheorems.ChunksPartitioned` | core/memory/pinned_memory_pool.cpp:48-62 | Free and held chunks partition the pool, and no chunk has two holders |
| `AioTheorems.StepKeepsInv` | core/aio/archer_prio_aio_handle.cpp:243-318 | Every step of clients, scheduler and workers keeps flow, data, pool and log invariants |
| `AioOrder.WorkersAreFifo` | core/aio/archer_aio_thread.cpp:37-73 | Over every run a worker begins its callbacks in the order it was given them, its list holds the rest, and the clear in Wait drops none |
| `AioOrder.RecordsAreRun` | core/aio/archer_prio_aio_handle.cpp:243-318 | The log, the list of completed requests and the callbacks that ran, which the other results speak of, are exactly what the steps of the run accepted, took, completed and ran |
| `AioTheorems.RoundRobinIndex` | core/aio/archer_aio_threadpool.cpp:31-38 | The round-robin index names a worker exactly when the wrapped counter is non-negative or a multiple of the worker count |
| `AioTheorems.RoundRobinWraps` | core/aio/archer_aio_threadpool.cpp:31-38 | After 2^31 callbacks three workers get index -2 |
| `AioClass.AioContext.constructor` | core/aio/archer_prio_aio_handle.cpp:40-45 | Four zeroed free chunks per worker and nothing queued |
| `AioClass.AioContext.AcceptRequest` | core/aio/archer_prio_aio_handle.cpp:306-318 | The request is at the back of the queue of its class, and what was accepted in each class is what was taken followed by the queue |
| `AioClass.AioContext.LookHigh` | core/aio/archer_prio_aio_handle.cpp:260-267 | The oldest waiting high-priority request is taken; the low queue is looked at next only if all of them were |
| `AioClass.AioContext.TakeLow` | core/aio/archer_prio_aio_handle.cpp:285-291 | The oldest waiting low-priority request is taken, and no waiting high-priority one has seen more than one taken |
| `AioClass.AioContext.Enqueue` | core/aio/archer_aio_thread.cpp:37-44 | The next callback is at the back of the worker's list, and the counter is queued plus running callbacks, all of the current request |
| `AioClass.AioContext.StartWait` | core/aio/archer_aio_threadpool.cpp:40-44 | Every callback of the request is queued, runs, or has run once |
| `AioClass.AioContext.WaitWorker` | core/aio/archer_aio_thread.cpp:46-50 | Clearing the worker's list drops nothing |
| `AioClass.AioContext.Complete` | core/aio/archer_prio_aio_handle.cpp:273-276 | Memory is what serving all completed requests whole and in order gives, and each callback of the request ran once |
| `AioClass.AioContext.PopCallback` | core/aio/archer_aio_thread.cpp:52-66 | The first callback of the list runs, and the counter stays exact |
| `AioClass.AioContext.Acquire` | core/memory/pinned_memory_pool.cpp:48-54 | The chunk at the front of the free list had no holder and now has this one only |
| `AioClass.AioContext.FillChunk` | core/aio/archer_prio_aio_handle.cpp:183-193 | After a write callback's copy the chunk has the payload of its piece and zeros behind it; after a read, the file's bytes of its piece |
| `AioClass.AioContext.MoveChunk` | core/aio/archer_prio_aio_handle.cpp:110-116 | The piece is in place: the padded payload in the file, or the file's bytes in the caller's buffer |
| `AioClass.AioContext.ReleaseChunk` | core/memory/pinned_memory_pool.cpp:56-62 | The chunk is at the back of the free list and nobody holds it |
| `AioClass.AioContext.FinishCallback` | core/aio/archer_aio_thread.cpp:68-71 | The callback has run exactly once, and the counter is exact |
| `TensorStore.StoreRefinesMap` | core/aio/archer_tensor_handle.cpp:57-100 | One StoreTensor is one update of a map from id to bytes: it fails exactly on a size change, binds the id to the bytes and changes no other tensor |
| `TensorStore.StoresRefineMap` | core/aio/archer_tensor_handle.cpp:57-100 | Any sequence of stores succeeds exactly when re-stores keep their size, and then the store's contents are the map after the same updates |
| `TensorStore.ReadsLastStored` | core/aio/archer_tensor_handle.cpp:203-215 | From an empty index ReadTensor returns the bytes last stored for the id; extents are aligned, inside their files and pairwise disjoint with their padding, across partition switches |
| `TensorStore.StoreKeepsValid` | core/aio/archer_tensor_handle.cpp:81-93 | Every store keeps extents disjoint, before the cursor and within a partition unless at its start |
| `TensorStore.StoresKeepAligned` | core/aio/archer_tensor_handle.cpp:68-91 | Every extent and the cursor stay on 4096-byte boundaries |
| `TensorStore.StoresArePacked` | core/aio/archer_tensor_handle.cpp:81-93 | From an empty index and for any stores, the tensors lie in the order of their first store, each right behind the one before it, or at the start of the next partition exactly when it does not fit behind it; the first is at the start of partition 0 if it fits one |
| `TensorStore.TensorHandle.Save` | core/aio/archer_tensor_handle.cpp:57-100 | One update of the map from id to bytes; refused, with nothing changed, exactly when the size would change; no extent moves and all are packed in the order of first store |
| `TensorStore.TensorHandle.Get` | core/aio/archer_tensor_handle.cpp:203-215 | The bytes the map has for the id |
| `StoreThroughScheduler.StoredBytesComeBack` | core/aio/archer_tensor_handle.cpp:97-99 | End to end on empty disks, for any interleaving of the scheduler and its workers and any reads served between the stores: when a tensor read completes, its buffer holds the bytes last stored for that tensor before it |
| `StoreThroughScheduler.ServeStores` | core/aio/archer_prio_aio_handle.cpp:132-208 | Serving the writes of a sequence of stores, mixed with any reads, leaves exactly the store's partition files on disk |
| `NodeLoader.NodeByteSize` | core/model/model_topology.cpp:530-541 | byte_size is the sum of the aligned sizes; an unknown tensor adds nothing |
| `NodeLoader.LoadEach` | core/model/model_topology.cpp:865-875 | Per-tensor reads leave every tensor's stored bytes at its aligned prefix-sum offset inside byte_size |
| `NodeLoader.ScanContiguous` | core/model/model_topology.cpp:842-859 | The scan says contiguous exactly when all extents lie back to back in the first one's file |
| `NodeLoader.LoadFromDisk` | core/model/model_topology.cpp:836-875 | The bulk read or the per-tensor reads leave the same bytes at the same offsets |
| `NodeLoader.LoadFromPartition` | core/model/model_topology.cpp:694-718 | Copying from the whole-partition image with the read fallback leaves the same bytes at the same offsets, and reports a fallback exactly when a tensor lies elsewhere |
| `NodeLoader.LoadersAgree` | core/model/model_topology.cpp:836-875 | Two buffers filled in any of these ways agree on every payload byte |
| `NodeLoader.BulkLoads` | core/model/model_topology.cpp:861-864 | A contiguous node is one range of its file, inside the file, with every tensor at its offset |
| `NodeLoader.StoredTogetherIff` | core/model/model_topology.cpp:842-859 | A node whose tensors were first stored one after the other is contiguous exactly when its first and last tensor are in one partition |
| `NodeLoader.SlotInside` | core/model/model_topology.cpp:530-541 | A tensor's slot with its padding lies inside byte_size |
| `NodeResidence.LoadBoth` | core/model/model_topology.cpp:124-150 | The pipelined path fills host and device buffer with the stored bytes |
| `NodeResidence.Node.SetDevice` | core/model/model_topology.cpp:59-241 | The node is on the target device, or where it was if the target is of the same type. Disk means no buffers and a placeholder for every tensor, CPU a host buffer only, CUDA both; on CPU and CUDA every tensor is a view of the right buffer that reads the bytes stored when the node was loaded; the host copy survives every move between CPU and CUDA; tensors of other nodes are not touched; whatever other nodes did to the views before |
| `NodeResidence.Node.PointViews` | core/model/model_topology.cpp:902-974 | The running-offset loops leave each tensor's view on its stored bytes, also for a tensor listed twice |
| `NodeResidence.Node.DropViews` | core/model/model_topology.cpp:819-831 | Every view becomes a placeholder |
| `NodeResidence.Node.LoadAtStart` | core/model/model_topology.cpp:690-722 | The start-up path leaves a node as SetDevice to the CPU would |
| `NodeResidence.RunAll` | core/model/model_topology.cpp:59-241 | For any run of stores and moves, in any order, over any nodes that share no tensor: every node has the buffers and views of its device, which is the target of its last move to another type of device than before, or the first device if there was none |
| `NodeResidence.ShareTensor` | core/model/model_topology.cpp:59-241 | The tensor object is one per index entry: if two nodes on disk share a tensor, loading both and dropping the second leaves the first on the CPU with a placeholder |
| `NodeResidence.ViewsReadLastStored` | core/model/model_topology.cpp:902-974 | After any stores from an empty index and any moves, every tensor of a resident node reads the bytes last stored for it before the node was loaded |
| `NodeResidence.ViewsFreshIff` | core/model/model_topology.cpp:902-974 | and shows what is stored now exactly if its bytes have not changed since the load: a store does not reach a resident node |
| `NodeResidence.StaysOnGpu` | core/model/model_topology.cpp:71-81 | No run of GPU targets changes a node's GPU |
| `NodeResidence.EndsOnce` | core/model/model_topology.cpp:71-81 | and that determines the device |
| `Calendar.DateOfDay` | core/base/date.cc:28-40 | From day -32044 on getYearMonthDay gives a Gregorian date whose day number is the given one |
| `Calendar.DateIffDomain` | core/base/date.cc:28-40 | It gives a Gregorian date exactly from day -32044 on |
| `Calendar.DayOfDate` | core/base/date.cc:20-40 | A Gregorian date comes back from its day number exactly from 1 March -4800 on |
| `Calendar.DomainEdge` | core/base/date.cc:20-40 | 29 February and 1 March -4800 share day -32044, and day -32045 has day of month zero |
| `Calendar.NextDayIsNext` | core/base/date.cc:20-26 | Consecutive dates get consecutive numbers, through leap and century years; the exceptions are exactly the ends of February up to -4800 with a leap year before or in the same year |
| `Calendar.CountedDays` | core/base/date.cc:20-40 | Adding n to the day number of a date is n steps of the calendar, month table and leap rule |
| `Calendar.SplitFits` | core/base/date.cc:28-40 | All intermediate values are 32-bit integers exactly up to day 536838867 |
| `UtcTime.ToUtcTime` | core/base/timezone.cc:259-282 | The truncating division with its correction gives the floored day and time of day |
| `UtcTime.UtcRoundTrip` | core/base/timezone.cc:259-295 | fromUtcTime(toUtcTime(t)) = t for every t the calendar covers, negative t included; date, time of day and tm_yday are in range, tm_wday exactly for day numbers from -1 on and every seventh before |
| `UtcTime.FieldsRoundTrip` | core/base/timezone.cc:284-295 | A date and time of day comes back from its seconds, the date exactly from 1 March -4800 on |
| `UtcTime.HmsParts` | core/base/timezone.cc:58-63 | Hour, minute and second are in range and add up to the second of the day |
| `UtcTime.WeekDayIff` | core/base/date.h:76-77 | The weekday is in range, and then right, exactly for day numbers from -1 on and every seventh before; otherwise it is seven too small |
| `UtcTime.WeekAnchors` | core/base/timezone.cc:270-275 | 1 January 1970 is day 2440588 and a Thursday; day -32044 gets weekday -4 |
| `UtcTime.YearDayIff` | core/base/timezone.cc:277-280 | tm_yday is in range, and is the day of the year exactly outside the year -4800, where it is one short |
| `UtcTime.MeetsPosixIff` | core/base/timezone.cc:259-282 | The fields satisfy the seconds-since-the-Epoch expression of section 4.16 of POSIX.1-2017 Base Definitions, its divisions rounded down, exactly outside the year -4800, where the expression is one day short |
| `IndexCodec.IndexRoundTrip` | core/aio/archer_tensor_index.cpp:101-132 | Deserialize after Serialize gives the index back, for any walking order, exactly when it has fewer than 2^32 entries |
| `IndexCodec.FullIndex` | core/aio/archer_tensor_index.cpp:101-109 | An index with all 2^32 keys has its count cut to zero and comes back empty |
| `IndexCodec.MetaRoundTrip` | core/aio/archer_tensor_index.cpp:51-86 | An entry is self-delimiting: reading it back consumes its own bytes and no others |
| `IndexCodec.OptionsRoundTrip` | core/aio/archer_tensor_index.cpp:11-49 | The tensor options come back |
| `IndexCodec.TruncatedFails` | core/aio/archer_tensor_index.cpp:111-132 | No proper prefix of a serialized index is accepted |
| `IndexLayout.MetaLayout` | core/aio/archer_tensor_index.cpp:51-67 | In the bytes of an entry the file id is at 0, the offset at 4, the size at 12, the dimension count at 20, dimension d at 28+8d, then one byte each of pinned, requires-grad, dtype, device index, device type and layout |
| `IndexLayout.ByteOfIs` | core/aio/archer_tensor_index.cpp:51-67 | Byte i of such a field is the number, or its two's complement, divided by 256^i, modulo 256 |
| `IndexLayout.IndexFileLayout` | core/aio/archer_tensor_index.cpp:101-109 | The file is the count in 4 bytes, then for each key in walking order 4 bytes of key and the entry right behind it, and nothing else |
| `IndexLayout.FirstEntryWins` | core/aio/archer_tensor_index.cpp:129-131 | Of several entries with one key the first is kept, and no other key appears |
| `IndexCodec.WriteMeta` | core/aio/archer_tensor_index.cpp:51-67 | The writer's loop produces the specified bytes |
| `IndexCodec.ReadMeta` | core/aio/archer_tensor_index.cpp:69-86 | The reader's loop parses them; a negative dimension count fails |
| `IndexCodec.TensorIndex.Serialize` | core/aio/archer_tensor_index.cpp:101-109 | The loop over the map produces the specified bytes |
| `IndexCodec.TensorIndex.Deserialize` | core/aio/archer_tensor_index.cpp:111-132 | The map is cleared and rebuilt by insertion, an earlier entry winning, exactly as the parse says |
| `DeviceNodes.LiveMemoryIsPrivate` | core/memory/memory_pool.cpp:85-123 | Over any run of moves and scratch allocations no two nodes share a byte of device memory, and a node's memory has its size, is on its GPU, is recorded under its id and is used for nothing else |
| `DeviceNodes.CachedMemoryIsIdle` | core/memory/device_caching_allocator.cpp:35-63 | A cached pointer is cached once, under its own size and device, and shares no byte with a node, so a reused pointer has the size asked for and is idle |
| `DeviceNodes.NoLostMemory` | core/memory/device_caching_allocator.h:66-81 | Every allocated pointer is a node's, cached, or a scratch buffer of a module |
| `DeviceNodes.ScratchIsPrivate` | core/parallel/expert_module.cpp:68-88 | A scratch buffer taken straight from the allocator shares no byte with a node |
| `DeviceNodes.MemoryConserved` | core/memory/memory_pool.cpp:85-123 | free_memory_[g] plus the bytes of the nodes on g equals the capacity |
| `DeviceNodes.NoPoolErrors` | core/memory/memory_pool.cpp:85-123 | No move meets the already-allocated or the not-found branch |
| `DeviceNodes.SpotIsLastMove` | core/model/model_topology.cpp:59-241 | A node is on the GPU its last move names, off if that move was down, and where it was if there was none |
| `DeviceMemory.FlushInv` | core/memory/device_caching_allocator.cpp:82-93 | free_cached keeps every held and scratch pointer, the disjointness of all memory and the balance |
| `DeviceMemory.AllocateInv` | core/memory/memory_pool.cpp:85-102 | AllocateMemory keeps roles, disjointness and balance, known key or not |
| `DeviceMemory.FreeInvIff` | core/memory/memory_pool.cpp:104-123 | FreeMemory leaves roles, disjointness and balance intact exactly when a known key comes with its own size, and with its own pointer, one that is not allocated, or a scratch buffer of the device |
| `DeviceMemory.FreedIsReused` | core/memory/device_caching_allocator.cpp:22-63 | The memory a key gave up is what the next allocation of its size on the device gets, under the same key or a new one; under the same key books and caches are then as before |
| `DeviceMemory.AllocateTakes` | core/memory/device_caching_allocator.cpp:22-42 | On a hit the last pointer of the list leaves it and nothing else changes; on a granted miss the caches stay and the map gains the new pointer; on a refused one exactly this device's cached pointers leave as well |
| `DeviceMemory.DeviceMemoryPool.FreeCached` | core/memory/device_caching_allocator.cpp:82-93 | Exactly the device's cached pointers leave the shared allocation map, and its cache is emptied |
| `DeviceMemory.DeviceMemoryPool.TakePointer` | core/memory/device_caching_allocator.cpp:22-42 | The same of the loop: hit, granted miss and refused miss, with keys and free memory unchanged |
| `DeviceMemory.DeviceMemoryPool.AllocateFor` | core/memory/memory_pool.cpp:85-102 | The memory returned is recorded under the key and shares no byte with anything else allocated; a known key changes nothing; a new one gets the size asked for, is debited, and changes caches and map as a hit, a granted or a refused miss does |
| `DeviceMemory.DeviceMemoryPool.TakeScratch` | core/parallel/expert_module.cpp:68-88 | A scratch buffer of the size asked for that no key or cache has, outside the pool's books, taken as a hit, a granted or a refused miss |
| `DeviceMemory.DeviceMemoryPool.FreeFor` | core/memory/memory_pool.cpp:104-123 | For any pointer and size: a known key alone is forgotten, the size credited, and a pointer of ours put at the back of the list of its own size; an unknown key reports -1 and changes nothing; the pool stays in order exactly if pointer and size fit the key |
| `VisitCounts.Initialize` | core/model/model_topology.cpp:522-577 | Every node of a sparse stage is linked to all nodes of the next sparse stage, other nodes to none, and all counters are zero |
| `VisitCounts.SoundIffNoneLarger` | core/model/model_topology.cpp:375-409 | The flat indices of a built pipeline are in bounds and pairwise different exactly when no sparse stage has more nodes than the last one |
| `VisitCounts.BuiltIsFitted` | core/model/model_topology.cpp:561-577 | Such a pipeline meets what the getter and the setter need |
| `VisitCounts.RowFits` | core/model/model_topology.cpp:385-405 | There the counters of a node fit their row, and the row the vector |
| `VisitCounts.PositionInjective` | core/model/model_topology.cpp:395-396 | Equal flat indices mean equal layer, parent and child when parent and child are below the expert count |
| `VisitCounts.GetChildVisitCounts` | core/model/model_topology.cpp:375-409 | The vector has the flat size, holds every counter at its index and zero where no counter is; with equal stages it is the walk |
| `VisitCounts.Topology.SetChildVisitCounts` | core/model/model_topology.cpp:443-482 | A vector of the right size sets every counter from its index, any other changes nothing |
| `VisitCounts.SetAfterGet` | core/model/model_topology.cpp:375-482 | Setting back what was read leaves the pipeline as it is |
| `VisitCounts.GetAfterSet` | core/model/model_topology.cpp:375-482 | With equal stages reading back what was set gives the vector again |
| `VisitCounts.FlatIsWalk` | core/model/model_topology.cpp:375-409 | With equal stages the vector is the counters one after the other: stage by stage, node by node, child by child |
| `VisitCounts.Topology.SaveAndRestore` | core/model/model_topology.cpp:375-482 | Get followed by Set is the identity |
| `VisitCounts.UnequalStages` | core/model/model_topology.cpp:385-396 | Built pipelines: sparse stages of three and then two nodes are not sound, two and then three are |
| `VisitCounts.FullIffEqual` | core/model/model_topology.cpp:385-405 | Where the indices are sound, every place of the vector is used exactly when all sparse stages have the same number of nodes |
| `SparsePlacement.GroupByPartition` | core/model/model_topology.cpp:639-644 | The groups hold exactly the nodes of their partition in order, and the partition ids are sorted |
| `SparsePlacement.LoadOrderIs` | core/model/model_topology.cpp:670-684 | The load order goes through the partitions in turn and contains exactly their nodes, each once |
| `SparsePlacement.PlaceSparse` | core/model/model_topology.cpp:639-692 | Every sparse node is loaded exactly once; the k-th one loaded gets GPU (start + k) mod gpus, and the next turn is that of the number loaded; so the per-GPU counts differ by at most one |
| `SparsePlacement.Balanced` | core/model/model_topology.cpp:684-688 | Round-robin dealing leaves any two GPUs within one node of each other |
| `SparsePlacement.TurnsBalance` | core/model/model_topology.cpp:684-688 | Dealing in turn from any start leaves any two GPUs within one node of each other |

## Left out

- Prefetching (wait_for_prefetch, pending_dispatches, the prefetch handle and its scheduler): is_prefetching is always false.
- The exception branch of GPUExecFunc, which neither clears the overload flag nor undoes residency: every forward that starts returns.
- Liveness and wake-ups: notifications are not modelled, only what holds in every state that is reached.
- Shutdown: stop flags, Stop, the destructors and NotifyExit.
- CUDA streams and events, floating-point rounding and the expert kernels: a transfer is one step, sums are over reals, an expert is a function of one row.
- Short reads and failed system calls: a read taken by the I/O machine finds its bytes in the file by the time it is taken (`AioModel.Fits`); the program ignores the results of its reads and writes.
- Storing tensors after an existing index was loaded: the cursor restarts at partition 0, so layout results start from an empty index.
- Concurrent StoreTensor calls for one id: the index lookup is outside the lock; stores are taken one after the other.
- Integer widths other than those named: file ids, offsets and byte sizes are unbounded, and so are flat indices and visit counts.
- The loop that reads a whole partition file in pieces: the image is the file.
- Truncated or corrupt index files beyond being refused: after a failed read the program goes on with undefined values, the model stops.
- HostMemoryPool's free_memory_ and the byte counters of the host caching allocator: no conservation law holds for them.
- FixedSizeAllocator, KVCacheBuffer, WeightsBuffer, reader.h and the torch caching allocator: they are not among the sources the extension is built from.
- KVCachePool and CudaEventPool: a list of free items behind a lock, with no tie to the weights that this model follows.
- SetMemoryRatio and the sparse cache limit: the limit of a device is a parameter.
- Placement of dense nodes: the count per device is an integer quotient that can be zero, and no result about experts depends on it.
- The node-visit counters, LFU lists and correlation ids of the topology: statistics and lookups that move no weights.
- TZif files, local time, ISO formatting, logging, file-system calls and process information.
- DispatcherRoom.RoomIffSwap: the run that overdraws chooses its victim among experts of equal visit count, which the program does by the order of a hash set.
- VisitCounts.GetAfterSet: for equal sparse stages only, because otherwise some places of the vector belong to no counter, as VisitCounts.FullIffEqual shows.
