# A verified model of ADVANCEDSS

ADVANCEDSS simulates a superscalar x86-64 machine and boots a small kernel of
its own on it.  This project models the parts of both whose correctness spans
many operations, and proves what they promise.

Most components come in two layers.  A layer of values and functions says what
each operation does, and the lemmas about it are the main results.  Where the
program changes things in place, a class has its fields, and methods with its
loops are proved to do exactly what those functions say.

| files | part of the program |
|---|---|
| `Pipeline*.dfy` | the out-of-order window: supply pool, decoders, queues, functional units, write-back, commit and both flushes |
| `Memory*.dfy` | frame allocator, page tables, batched mapper, fork copy, user copies and the heap |
| `DiskQueue.dfy` | the re-entrant disk request ring |
| `StaticList.dfy`, `BranchPred.dfy` | the array-backed list and the branch predictor on top of it |
| `FetchBuffer.dfy`, `Decoder*.dfy` | the fetch ring and the resumable decoder with its instruction cache, and the format of the instructions it finds |
| `Scheduler.dfy` | scheduling and the context switch |
| `Barrier.dfy` | the barrier between simulated cycles |

## What the code does not do

Some promises do not hold of the code as it is.  Each has a concrete run and an
exact condition.

- The oldest instruction can get stuck.  The partial flush on write-back returns
  decoder entries to the supply without unlinking them
  (`src/cpu/reorder_buffer.cpp:275-277`).  A stale link later counts a dependency
  as resolved that was not, the count passes the number of dependencies, and
  dispatch compares the two with `==`.  `PipelineCounterexamples.DeadlockReachable`
  is a run in the order of the stages, six cycles long, after which the deadlock
  check fires.  `PipelineOrphans.PartialFlushExactly` says when a partial flush
  keeps the graph right: if and only if no returned entry still waits for, or
  produces for, an instruction that stays (`PipelinePartial.NoOrphans`).  With
  that guard `PipelineRuns.NeverDeadlocked` holds for all runs.
- An issued store can be squashed.  In runs guarded by `NoOrphans` that happens
  at a step if and only if the step is an external interrupt of the store's cpu
  (`src/main.cpp:224-233`, `PipelineTheorems.IssuedStoreSquashedExactly`).
- A store can be lost.  The same stale link makes an executing instruction look
  ready; it is issued to a second unit, commits, and its slot becomes a store
  that is written back when the second unit is done, without having been issued
  (`PipelineLostStore.StoreLost`, ten cycles).  With the guard, stores only
  execute as the oldest (`PipelineTheorems.OrderedExecutesAsOldest`).
- A read can miss its producer.  The same flush empties a register's entry in
  the bank when it squashes the producer recorded there
  (`src/cpu/cpu.cpp:404-410`), and does not bring back an older one that has not
  finished.  In `PipelineStaleRead.StaleRead` the next reader is ready although
  the load that writes its register still executes; `NoOrphans` does not exclude
  it.  `PipelineProducers.PartialFlushProducersExactly` says when a partial flush
  keeps the bank right: if and only if the last survivor to write a register,
  unless it has finished, is the last of all its writers and not behind the
  branch (`PipelineProducers.NoLostProducer`).  With both guards every reader waits for
  exactly the youngest writer (`PipelineProducers.ReadsLastWriter`).
- A load does not wait for older stores.  The comment at
  `src/cpu/rs_policy.cpp:271-276` says loads are executed when no store is before
  them, and that the search stops at a store without permission; the code goes
  on past it.  `PipelineLoadFirst.LoadPassesStore` is a run of two cycles, and
  `PipelineSupply.LsQueueWalks` says which entries go.
- The decoder misses registers of an address.  No base is recorded for a ModRM
  byte without displacement, nor for a SIB byte with one
  (`src/cpu/x86_64/x86_64_decoder.cpp:388-401` and `446-458`), and register
  12 is never an index (`441-444`); the access then does not wait for it.
  `DecoderFormat.RegistersFoundExactly` has the exact condition, and
  `DecoderFormat.BaseMissed` an instruction of two bytes.
- `memory_allocate_page` does not wrap its starting index.  It leaves the frame
  table exactly when the last frame was the last one handed out
  (`MemoryRoom.AllocateTakesNextFree`).  Such an access is an outcome of its own,
  `Stray`; results about memory hold whenever the outcome is `Done`, and
  `MemoryRoom.Room`, a last frame that is never free, rules it out.
- `process_allocate_thread` clears register 0 sixteen times instead of sixteen
  registers.  `Scheduler.LaunchClears` says when a new thread still finds zeros,
  and `Scheduler.RegisterInherited` is a run in which it does not.

## How to read it

- A run of the window may take its steps in any order; `PipelineStages` says
  which runs follow the stages of a cycle.  Theorems about all runs need no such
  order, and the counterexamples keep it.
- A failed `KERNEL_ASSERT` ends a run with the outcome `Panic`.  What is left in
  memory then does not matter.
- Device counts, fetched bytes, predictor and cache answers, captured registers
  and the requests made by callbacks are inputs; the theorems hold for all of
  them.
- The glue between the components of the window (`src/cpu/cpu.cpp`,
  `src/cpu/decoder.cpp`) is followed wherever one step crosses several of them.
- The Bochs opcode tables are functions that may be anything (`Decoder.Tables`).
- `hide` statements in proofs only keep definitions out of the solver's way.

## Model

| member | source | states |
|---|---|---|
| `Pipeline.Window.Allocate` | src/cpu/reorder_buffer.cpp:69-81 | takes the first instruction of the supply, resets it with the next id of its cpu and appends it to that decoder; with an empty supply nothing changes |
| `Pipeline.Window.MakeDep` | src/cpu/rs_instruction.cpp:77-93 | appends one link to each instruction, each link naming the slot of the other |
| `Pipeline.Window.DispatchNext` | src/cpu/rs_policy.cpp:53-67 | the oldest decoder entry enters the reorder buffer and the queue of its kind with the status its resolved count gives, and is refused exactly when that queue is full |
| `Pipeline.Window.Issue` | src/cpu/func_units.cpp:192-240 | takes the first idle unit that executes the kind, restarts its cycle count, and fails, changing nothing, exactly when there is none |
| `Pipeline.Window.SupplyGenericQueue` | src/cpu/rs_policy.cpp:89-116 | offers every ready entry to the units in queue order; PipelineSupply.GenericQueueServes says which go |
| `Pipeline.Window.SupplyLoadStoreQueue` | src/cpu/rs_policy.cpp:247-294 | stores without permission are passed over, ready entries are issued in order, the walk ends at the first entry without a unit |
| `Pipeline.Window.SupplyPortQueue` | src/cpu/rs_policy.cpp:172-212 | the first entry of a cpu whose must-issue flag is set is tried, and nothing after it |
| `Pipeline.Window.Execute` | src/cpu/func_units.cpp:242-285 | every busy unit counts one cycle; those at their latency become idle and hand their instruction to the response, in unit order |
| `Pipeline.Window.ResolveAll` | src/cpu/rs_instruction.cpp:95-130 | every open dep_out slot is closed on both sides, the dependent counts it, and becomes ready when it was the last |
| `Pipeline.Window.WriteBackInst` | src/cpu/rs_instruction.cpp:95-130 | resolves the dependents, forgets the instruction as a producer where it is still the recorded one, and removes it from its queue; PipelineProducers.WriteBackBank says so of the bank alone |
| `Pipeline.Window.Unlink` | src/cpu/rs_instruction.cpp:132-162 | closes every open dep_in slot and the dep_out slot it names |
| `Pipeline.Window.FlushList` | src/cpu/rs_policy.cpp:118-150 | splits a queue, keeping order, into what stays and what has the given cpu and at least the given id |
| `Pipeline.Window.FlushUnits` | src/cpu/func_units.cpp:287-315 | exactly the units working for a squashed instruction become idle |
| `Pipeline.Window.ReturnDecoder` | src/cpu/reorder_buffer.cpp:232-257 | the decoder entries of the cpu go to the supply, newest first |
| `Pipeline.Window.FlushPipelineOf` | src/cpu/rs_policy.cpp:118-130 | queues, units, decoder, producers and permissions of the cpu are cleared |
| `Pipeline.Window.FlushCpu` | src/cpu/reorder_buffer.cpp:232-257 | all entries of the cpu leave the reorder buffer for the supply, in order, after its pipeline was cleared |
| `Pipeline.Window.FlushYounger` | src/cpu/rs_policy.cpp:132-150 | everything outside the reorder buffer younger than the branch is squashed, the decoder only if the branch has left it |
| `Pipeline.Window.FlushOnWriteBack` | src/cpu/reorder_buffer.cpp:259-292 | the entries behind the branch of its cpu are unlinked and returned; decoder entries are returned as they are |
| `Pipeline.Window.ArrivedToCommit` | src/cpu/rs_policy.cpp:296-301 | the oldest store of a cpu gets permission to write, the oldest port operation to issue |
| `Pipeline.Window.CommitAll` | src/cpu/reorder_buffer.cpp:90-230 | retires ready entries from the head, stops at the first that is not, flushes the cpu of one that demands it; it needs that the deadlock check does not fire |
| `PipelineRuns.StepKeepsInv` | src/cpu/reorder_buffer.cpp:49-292 | pool partition, id order, two-way dependency graph, resolved counts, queue, unit and flag invariants survive every operation, with a guard on the partial flush only |
| `PipelineRuns.RunKeepsInv` | src/main.cpp:224-301 | the invariant holds in every state of every run from the constructors on whose partial flushes leave no orphans |
| `PipelineRuns.NeverDeadlocked` | src/cpu/reorder_buffer.cpp:101-111 | in every run whose partial flushes leave no orphans the deadlock check never fires: the oldest entry has no open dependency |
| `PipelineOrphans.PartialFlushExactly` | src/cpu/reorder_buffer.cpp:259-292 | after a partial flush the graph is right if and only if no decoder entry that is returned still waits for, or produces for, an instruction that stays |
| `PipelineOrphans.PartialFlushKeepsInv` | src/cpu/reorder_buffer.cpp:259-292 | under that guard the partial flush keeps the whole invariant |
| `PipelineCounterexamples.DeadlockReachable` | src/main.cpp:224-301 | a run in the order of the stages, six cycles from the initial state, with one unguarded partial flush; the seventh cycle opens with the deadlock check firing |
| `PipelineCounterexamples.FlushLeftAnOrphan` | src/cpu/reorder_buffer.cpp:275-277 | the guard is false at the flush of that run, made for a mispredicted branch that was written back |
| `PipelineTheorems.PoolConserved` | src/cpu/reorder_buffer.cpp:49-88 | in every state of every run, guarded or not, each pooled instruction is in exactly one of supply, decoders and reorder buffer, so the three sizes add up to the pool |
| `PipelineTheorems.PlacesPartition` | src/cpu/reorder_buffer.cpp:69-88 | the concatenation of the three places lists every handle once |
| `PipelineTheorems.CommitsInOrder` | src/cpu/reorder_buffer.cpp:122-227 | in every run, guarded or not, the committed ids of a cpu strictly increase and stay below those of everything in flight |
| `PipelineOrder.StepKeepsOrder` | src/cpu/reorder_buffer.cpp:49-292 | every operation, also an unguarded partial flush, keeps pool partition, id order and commit order |
| `PipelineOrder.RunKeepsOrder` | src/main.cpp:224-301 | these hold in every state of every run |
| `PipelineTheorems.IssuesInOrder` | src/cpu/rs_policy.cpp:247-313 | in guarded runs, stores and port operations of a cpu are issued in strictly increasing id order |
| `PipelineTheorems.OrderedExecutesAsOldest` | src/cpu/rs_policy.cpp:247-313 | in guarded runs, a store or port operation that is in a unit or finished is the oldest in-flight instruction of its cpu |
| `PipelineLostStore.StoreLost` | src/cpu/reorder_buffer.cpp:275-277 | without the guard that is false: a run in the order of the stages, ten cycles long, after which a store is finished that is not the oldest of its cpu and was never sent to a unit |
| `PipelineTheorems.IssuedStoreSquashedExactly` | src/cpu/reorder_buffer.cpp:215-220 | in a guarded run, a step squashes an issued store if and only if it is an external interrupt of its cpu; every other step keeps or commits it |
| `PipelineCounterexamples.InterruptSquashesIssuedStore` | src/main.cpp:224-233 | a run in the order of the stages after which an external interrupt returns an executing store to the supply |
| `PipelineDecode.AllocKeepsInv` | src/cpu/rs_instruction.cpp:42-66 | a recycled instruction enters the decoder with no link from or to anything alive |
| `PipelineDecode.ReadRegKeepsInv` | src/cpu/rs_instruction.cpp:77-93 | linking to the recorded producer of a register keeps links mutual, and sources older and unfinished |
| `PipelineDispatch.DispatchKeepsInv` | src/cpu/rs_policy.cpp:53-67 | dispatch keeps id order across decoder, reorder buffer and queues |
| `PipelineIssue.SupplyLsKeepsInv` | src/cpu/rs_policy.cpp:247-294 | the load/store walk issues a store only at the head of the reorder buffer |
| `PipelineIssue.SupplyIoKeepsInv` | src/cpu/rs_policy.cpp:172-212 | the port walk issues only the head of the reorder buffer |
| `PipelineWriteBack.ResolveFromKeeps` | src/cpu/rs_instruction.cpp:95-130 | after the loop the graph is still mutual, counts equal cleared edges, and nobody waits for the finished instruction |
| `PipelineWriteBack.WriteBackKeepsInv` | src/cpu/rs_instruction.cpp:95-130 | the whole write-back keeps the invariant |
| `PipelineFlush.FlushKeepsInv` | src/cpu/reorder_buffer.cpp:232-257 | the full flush leaves no edge into a squashed instruction |
| `PipelineFlush.CommitKeepsInv` | src/cpu/reorder_buffer.cpp:90-230 | any number of retirements, and the flush that may end them, keep the invariant |
| `PipelineProducers.WriteBackBank` | src/cpu/rs_instruction.cpp:122-129 | write-back takes the finished instruction out of the register bank and nothing else: every other entry stays, and none names it |
| `PipelineProducers.StepKeepsProducers` | src/cpu/reorder_buffer.cpp:49-292 | a right bank names an instruction for a register if and only if that is the youngest writer in flight and has not finished; every operation keeps it right, register writes if and only if no younger decoder entry writes the register too, partial flushes if and only if no producer is lost |
| `PipelineProducers.RunKeepsProducers` | src/main.cpp:224-301 | the bank is right in every state of every run that meets these conditions |
| `PipelineProducers.ReadsLastWriter` | src/cpu/decoder_cpp.h:195-203 | in such a run a reader comes to wait for the youngest writer in flight, which is older, and only if it has not finished; otherwise nothing changes |
| `PipelineProducers.WriteRegExactly` | src/cpu/decoder_cpp.h:199-205 | announcing a register keeps the bank right if and only if no younger decoder entry has announced it |
| `PipelineProducers.PartialFlushProducersExactly` | src/cpu/reorder_buffer.cpp:259-292 | a partial flush keeps the bank right if and only if the last survivor to write a register, unless it has finished, is the last of all its writers and not behind the branch |
| `PipelineStaleRead.FlushLostAProducer` | src/cpu/reorder_buffer.cpp:259-292 | a state of a run in the order of the stages, at the flush for a mispredicted branch, that leaves no orphan and loses a producer |
| `PipelineStaleRead.StaleRead` | src/cpu/reorder_buffer.cpp:259-292 | the run goes on until an instruction reads the register and is ready, although its youngest writer still executes |
| `PipelineCommit.CommitExactly` | src/cpu/reorder_buffer.cpp:90-230 | a commit retires, in order, the finished entries at the head that were predicted well and are not serial; a finished one that is mispredicted or serial is committed too and nothing of its cpu is left in reorder buffer, queues, units, decoder or bank, while the other cpus are as they were; a store or port operation with its operands gets its permission; otherwise nothing more happens |
| `PipelineUnits.ExecExactly` | src/cpu/func_units.cpp:242-285 | unit by unit: each busy unit counts its cycle, those at their latency become idle and hand over their instruction, and nothing else changes |
| `PipelineUnits.NothingLost` | src/cpu/func_units.cpp:242-315 | in guarded runs, an instruction that executes is in a unit, or has just left it for the response |
| `PipelineUnits.UnitCounts` | src/cpu/func_units.cpp:242-285 | in guarded runs, a unit counts the execution cycles since it started an instruction, and never exceeds its latency |
| `PipelineUnits.FinishesInTime` | src/cpu/func_units.cpp:242-285 | in guarded runs, a unit hands its instruction over in the execution cycle in which that count has reached the latency, not before; only a flush takes it away earlier |
| `PipelineSupply.FirstFree` | src/cpu/func_units.cpp:192-240 | the unit an instruction is sent to is the first that is idle and executes its kind |
| `PipelineSupply.GenericQueueServes` | src/cpu/rs_policy.cpp:89-116 | every ready entry goes, in queue order, to an idle unit of its kind; it stays only if each of them is busy or was taken by an entry before it |
| `PipelineSupply.LsQueueWalks` | src/cpu/rs_policy.cpp:276-291 | up to the first entry without a unit, loads and permitted stores that are ready are sent and the others passed over; a sent load takes the permission of its cpu with it |
| `PipelineSupply.PortQueueWalks` | src/cpu/rs_policy.cpp:172-212 | at most the first entry whose cpu must issue is sent, and takes the flag with it |
| `PipelineSupply.RefusedExactly` | src/cpu/rs_policy.cpp:53-67 | dispatch changes nothing if and only if the queue of the kind holds as many entries as it may |
| `PipelineSupply.QueuesWithinCaps` | src/cpu/rs_policy.cpp:53-67 | in every run, guarded or not, no queue holds more entries than it may |
| `PipelineSupply.LinkJoins` | src/cpu/x86_64/decoder_utils.h:68-69 | the later micro-op of an instruction comes to wait for the earlier one, by one new link on each side |
| `PipelineLoadFirst.LoadPassesStore` | src/cpu/rs_policy.cpp:271-291 | a run in the order of the stages, two cycles long, after which a load executes while an older store of its cpu waits for permission |
| `MemoryRoom.AllocateTakesNextFree` | kernel/src_kernel/memory.c:51-69 | allocation succeeds if and only if the cursor is not at the last frame and some frame is free, takes the cyclically next free one, and leaves the frame table exactly when the cursor is at the last frame |
| `MemoryRoom.AllocatorLeavesTable` | kernel/src_kernel/memory.c:55-57 | three allocations of which the last reads past the frame table although a frame is free |
| `MemoryRoom.CreatePageSucceeds` | kernel/src_kernel/memory.c:147-230 | with four free frames and a last frame never handed out, a page can be created if and only if it is not mapped |
| `MemoryPages.CreatePageMapsOne` | kernel/src_kernel/memory.c:147-230 | one translation is new, in a frame that was free; every other translation of every process is unchanged |
| `MemoryPages.MappedPagePanics` | kernel/src_kernel/memory.c:213-214 | creating a page that exists stops the kernel |
| `MemoryPages.CreatePagesIsPageByPage` | kernel/src_kernel/memory.c:232-326 | the batched mapper leaves frame table, cursor and all memory as one call per page in ascending order does, failures included |
| `MemoryRoom.PageByPageMapsRange` | kernel/src_kernel/memory.c:232-326 | a successful range maps each of its pages, which were unmapped before, and no other page of any process |
| `MemoryRoom.PageByPageSucceeds` | kernel/src_kernel/memory.c:302-304 | with room and no page of the range mapped, the assertion on an existing page does not fire |
| `MemoryProcess.PagesHaveOwnFrames` | kernel/src_kernel/memory.c:365-424 | distinct pages of live processes have distinct frames, owned by the process, not tables, tagged with the page address |
| `MemoryProcess.UserFramesAreMapped` | kernel/src_kernel/memory.c:111-123 | every user frame of a live process is what its tag translates to |
| `MemoryProcess.PagesHaveTheirRights` | kernel/src_kernel/memory.c:222-225 | the write and execute bits of a mapped page are the flags it was created with |
| `MemoryProcess.NewTableKeepsOk` | kernel/src_kernel/memory.c:125-145 | a new process starts with no page, and the others do not notice |
| `MemoryProcess.FreeProcessReleasesAll` | kernel/src_kernel/memory.c:86-98 | exactly the frames of the process become free; all other translations stay |
| `MemoryFork.ForkCopiesSpace` | kernel/src_kernel/memory.c:71-84 | an empty child gets exactly the pages of the parent, each in a frame that was free, with equal bytes, tag and flags; parent and others are unchanged |
| `MemoryFork.ForkSucceeds` | kernel/src_kernel/memory.c:71-84 | four free frames for each page of the parent are enough |
| `MemoryBytes.PackUnpack` | kernel/src_kernel/memory.h:34-52 | a 64-bit word is determined by its entry fields |
| `MemoryBytes.UnpackPack` | kernel/src_kernel/memory.h:34-52 | the fields are determined by the word |
| `MemoryBytes.FieldsOfWord` | kernel/src_kernel/memory.h:34-52 | the bits in which the processor finds each field of a word |
| `MemoryBytes.StoreByte` | kernel/src_kernel/memory.c:486-486 | storing a byte changes that byte of physical memory and no other |
| `MemoryBytes.TranslationInjective` | kernel/src_kernel/memory.c:365-424 | equal physical addresses come from the same address of the same process |
| `MemoryBytes.StoreReadsBack` | kernel/src_kernel/memory.c:462-496 | a byte stored through the tables is read there, no process reads any other change, and no translation moves |
| `MemoryCopy.CopyToUserIsRead` | kernel/src_kernel/memory.c:462-496 | after a copy the process reads the buffer up to the first unmapped address; everything else, and every translation, is as before |
| `MemoryCopy.CopyRoundTrip` | kernel/src_kernel/memory.c:426-496 | what was copied in full is found by a later copy from the same address |
| `MemoryCopy.MappedPrefix` | kernel/src_kernel/memory.c:444-448 | the number of leading mapped addresses |
| `MemoryHeap.BrkKeepsHeap` | kernel/src_kernel/syscalls.c:245-300 | heap end, page end, the mapped pages below and the unmapped ones up to the stack stay in order, and a non-zero request returns the requested break |
| `MemoryHeap.BrkPagesAreData` | kernel/src_kernel/syscalls.c:281-283 | the tables mark every page a request adds as present, writable and not executable |
| `MemoryHeap.BrkSucceeds` | kernel/src_kernel/syscalls.c:245-300 | with four free frames for each page needed the mapper never meets a page that exists, and the room beyond that is left |
| `MemoryHeap.BrkRunsKeepHeap` | kernel/src_kernel/syscalls.c:245-300 | any sequence of requests below the stack keeps the heap in order; each non-zero request returns its break, and zero the current one |
| `MemoryHeap.BrkRunsSucceed` | kernel/src_kernel/memory.c:302-304 | with room for the pages up to the highest break of a sequence, none of its requests stops on a page that exists |
| `MemoryHeap.OthersKeepHeap` | kernel/src_kernel/syscalls.c:245-300 | operations that leave the translations of a process leave its heap in order |
| `MemoryRuns.StepKeepsOk` | kernel/src_kernel/memory.c:51-424 | new process, page, range, fork, release and copy keep the forest of tables |
| `MemoryRuns.RunKeepsOk` | kernel/src_kernel/memory.c:51-424 | the forest of tables exists in every reachable state |
| `MemoryRuns.ReachablePagesAreApart` | kernel/src_kernel/memory.c:365-424 | in every state reachable from boot, user pages never share a frame and never lie in a table or in the kernel |
| `Memory.PhysicalMemory.Allocate` | kernel/src_kernel/memory.c:51-69 | the loop over the frame table finds the cyclically next free frame or fails as specified |
| `Memory.PhysicalMemory.AllocateTable` | kernel/src_kernel/memory.c:100-109 | the frame becomes a table of the process and keeps its old tag |
| `Memory.PhysicalMemory.AllocatePage` | kernel/src_kernel/memory.c:111-123 | the frame becomes a tagged user page |
| `Memory.PhysicalMemory.InitializeTable` | kernel/src_kernel/memory.c:137-145 | all 512 entries of the frame, and nothing else, become empty |
| `Memory.PhysicalMemory.NewTable` | kernel/src_kernel/memory.c:125-135 | allocates and clears the root table |
| `Memory.PhysicalMemory.Descend` | kernel/src_kernel/memory.c:159-172 | one level of the walk follows a present entry or links a cleared table |
| `Memory.PhysicalMemory.MapPage` | kernel/src_kernel/memory.c:210-226 | the last level maps a fresh frame with the rights asked for, or stops on a present entry |
| `Memory.PhysicalMemory.CreatePage` | kernel/src_kernel/memory.c:147-230 | does to the memory what the page specification says |
| `Memory.PhysicalMemory.Fill` | kernel/src_kernel/memory.c:302-322 | the inner loop fills one table up to its end or the end of the range |
| `Memory.PhysicalMemory.CreatePages` | kernel/src_kernel/memory.c:232-326 | the nested loops do what the batch specification says |
| `Memory.PhysicalMemory.CopySpace` | kernel/src_kernel/memory.c:71-84 | the scan, which allocates from the array it walks, does what the copy specification says |
| `Memory.PhysicalMemory.FreeProcess` | kernel/src_kernel/memory.c:86-98 | frees the frames of the process |
| `Memory.PhysicalMemory.Translate` | kernel/src_kernel/memory.c:365-424 | finds the physical address or that there is none |
| `Memory.PhysicalMemory.CopyFromUser` | kernel/src_kernel/memory.c:426-460 | translating only at page changes returns the bytes that translating each address returns, and succeeds exactly when all are mapped |
| `Memory.PhysicalMemory.CopyToUser` | kernel/src_kernel/memory.c:462-496 | translating only at page changes writes what translating each address writes |
| `Memory.HeapRecord.Brk` | kernel/src_kernel/syscalls.c:245-300 | memory, heap bounds and the returned value are those of the specification |
| `DiskQueue.CallbacksInOrder` | kernel/src_kernel/external_hd.c:86-263 | for every sequence of requests, interrupts and callbacks that fits the ring: each callback is called once, in request order, with the sum of the counts of its pieces, and the queue is idle exactly when it is empty |
| `DiskQueue.RunDoneExactly` | kernel/src_kernel/external_hd.c:86-263 | a run ends without stopping the kernel if and only if its pieces always fit the ring and the environment answers long enough |
| `DiskQueue.RunAgrees` | kernel/src_kernel/external_hd.c:86-263 | the re-entrant queue and a ledger of whole requests go through the same states |
| `DiskQueue.CompleteAgrees` | kernel/src_kernel/external_hd.c:181-207 | a completion, with the callback and the next request it starts, is one step of the ledger |
| `DiskQueue.StartAgrees` | kernel/src_kernel/external_hd.c:211-263 | starting the first request completes those that need no interrupt |
| `DiskQueue.AskAgrees` | kernel/src_kernel/external_hd.c:131-149 | a request is queued behind the others, and is accepted by a busy queue exactly when its pieces fit |
| `DiskQueue.PiecesCover` | kernel/src_kernel/external_hd.c:86-122 | the pieces of a transfer are at most one sector each and cover it without gap or overlap |
| `DiskQueue.Pieces` | kernel/src_kernel/external_hd.c:86-122 | only the last piece carries the callback |
| `DiskQueue.Disk.constructor` | kernel/src_kernel/external_hd.c:72-78 | the ring starts empty and idle |
| `DiskQueue.Disk.RequestJob` | kernel/src_kernel/external_hd.c:131-149 | the ring gets the entry at its end, wrapped, and an idle queue starts it; a full ring stops the kernel |
| `DiskQueue.Disk.Request` | kernel/src_kernel/external_hd.c:86-127 | splits a transfer and queues its pieces in order |
| `DiskQueue.Disk.RequestProcessed` | kernel/src_kernel/external_hd.c:181-207 | the callback gets the count plus the carried sum, or the sum is carried to the next entry; the head leaves the ring and the next request starts |
| `DiskQueue.Disk.NextRequest` | kernel/src_kernel/external_hd.c:211-263 | reads and writes wait for the device, opening and closing complete at once |
| `DiskQueue.Disk.OnInterrupt` | kernel/src_kernel/external_hd.c:158-171 | an interrupt completes a read or write at the head and stops the kernel otherwise |
| `StaticList.ChangesKeepChains` | src/data/double_linked_static.h:261-409 | occupied and free chain stay a partition of the slots; adding is possible exactly when the list is not full; the free chain of an empty list counts up from slot 0 |
| `StaticList.ChainsCoverSlots` | src/data/double_linked_static.h:203-234 | every slot is in one of the two chains and not in both |
| `StaticList.HandlesStayOnAdd` | src/data/double_linked_static.h:261-325 | a handle keeps its element when others are added |
| `StaticList.HandlesStayOnDelete` | src/data/double_linked_static.h:359-409 | a handle keeps its element when another one is deleted |
| `StaticList.MoveToInitSlot` | src/data/double_linked_static.h:411-419 | moving to the front keeps slot and free chain unless the element is alone, which ends in slot 0 |
| `StaticList.List.constructor` | src/data/double_linked_static.h:203-234 | an empty list whose free chain counts up |
| `StaticList.List.AddEnd` | src/data/double_linked_static.h:261-292 | appends to the sequence in the first free slot, or reports a full list and changes nothing |
| `StaticList.List.AddBeginning` | src/data/double_linked_static.h:294-325 | prepends to the sequence in the first free slot, or reports a full list and changes nothing |
| `StaticList.List.Delete` | src/data/double_linked_static.h:359-409 | removes that element from the sequence and puts its slot first in the free chain, or restores the counting chain when it was alone; the slot keeps its next link |
| `StaticList.List.MoveToInit` | src/data/double_linked_static.h:411-419 | the element moves to the front of the sequence |
| `StaticList.List.DeleteFirst` | src/data/double_linked_static.h:449-454 | drops the first element |
| `StaticList.List.DeleteLast` | src/data/double_linked_static.h:456-461 | drops the last element |
| `BranchPred.TableIsInUpdateOrder` | src/cpu/branch_pred.cpp:250-328 | after any run of updates and flushes no key is twice in the table, records are ordered by their last update, and carry its target |
| `BranchPred.EvictsLeastRecent` | src/cpu/branch_pred.cpp:275-279 | what an update evicts from a full table was updated before everything that stays |
| `BranchPred.AddKeepsKeys` | src/cpu/branch_pred.cpp:250-290 | an update keeps keys unique and the size bounded |
| `BranchPred.FlushKeepsKeys` | src/cpu/branch_pred.cpp:310-328 | a flush keeps keys unique |
| `BranchPred.Predictor.constructor` | src/cpu/branch_pred.cpp:212-248 | an empty table with all records in the supply |
| `BranchPred.Predictor.Search` | src/cpu/branch_pred.cpp:330-356 | through the possibly stale hash the slot found is the one scanning the list finds |
| `BranchPred.Predictor.Scan` | src/cpu/branch_pred.cpp:346-355 | the scan returns the slot of the only matching record |
| `BranchPred.Predictor.Predict` | src/cpu/branch_pred.cpp:292-308 | the answer is that of the table: taken when the counter is not negative |
| `BranchPred.Predictor.AddEntry` | src/cpu/branch_pred.cpp:250-290 | the table changes as the least-recently-updated table does, with the saturating counter; what that counter predicts follows |
| `BranchPred.Predictor.Flush` | src/cpu/branch_pred.cpp:310-328 | exactly the records of the processor leave, in order, and the hash is empty |
| `BranchPred.TakenIsPredicted` | src/cpu/branch_pred.cpp:250-308 | a known branch is predicted with the target of its last update, and taken if that was taken; known means updated, and neither flushed nor evicted since |
| `BranchPred.NotTakenTwiceIsPredicted` | src/cpu/branch_pred.cpp:250-308 | after two not-taken updates, or one of an unknown branch, it is predicted not taken |
| `BranchPred.OneMissIsForgiven` | src/cpu/branch_pred.cpp:250-308 | after two taken updates a single not-taken one leaves the prediction taken, if and only if the branch was known when they came |
| `Decoder.StallsDoNotMatter` | src/cpu/decoder_cpp.h:76-110 | feeding the byte machine cycle by cycle is feeding it once; DecodeUnit.Cycles says so of the handlers |
| `Decoder.FeedInTwo` | src/cpu/decoder_cpp.h:76-110 | the byte machine may be suspended after any byte |
| `Decoder.LengthIsSumOfParts` | src/cpu/x86_64/x86_64_decoder.cpp:666-694 | a decoded instruction took its prefixes, opcode, ModRM, SIB, displacement and immediate bytes, as many as DecoderFormat.TakesExactlyFormat says there are, and this is the length it records |
| `Decoder.StepDecoding` | src/cpu/x86_64/x86_64_decoder.cpp:111-633 | after every byte the opcode buffer holds exactly the parts seen so far |
| `Decoder.HitIsDecoding` | src/cpu/x86_64/x86_64_decoder.cpp:134-142 | with unchanged bytes a hit takes as many bytes and gives the same instruction, length and next address as decoding again |
| `Decoder.CacheAlwaysTrue` | src/cpu/x86_64/x86_64_decoder.cpp:126-144 | after any sequence of instructions, decoded to the end or cut short, and of cache flushes, every valid cache entry is what decoding some bytes at its address gives |
| `Decoder.EveryHitIsDecoding` | src/cpu/x86_64/x86_64_decoder.cpp:134-142 | in every cache reached from the empty one, a hit is on an instruction decoded from some bytes at that address, and if these are still the bytes it takes and leaves what decoding them takes and leaves |
| `Decoder.CachedFeeds` | src/cpu/x86_64/x86_64_decoder.cpp:635-664 | a known instruction is skipped in as many portions as the cycles allow |
| `Decoder.DecodeUnit.constructor` | src/cpu/x86_64/x86_64_decoder.cpp:58-77 | no entry of the cache is valid at first |
| `Decoder.DecodeUnit.Cycle` | src/cpu/x86_64/x86_64_decoder.cpp:79-694 | one cycle of the suspended and resumed handlers is the byte machine fed with the bytes of the cycle, and the cache entry is written in place |
| `Decoder.DecodeUnit.Cycles` | src/cpu/decoder_cpp.h:76-110 | over any number of cycles and any split of the bytes, the suspended and resumed handlers end in the state of uninterrupted decoding and take as many bytes |
| `Decoder.DecodeUnit.Turns` | src/cpu/x86_64/x86_64_decoder.cpp:68-142 | one instruction after the other, each finished or cut short, with cache flushes between them, leaves the cache of the specification |
| `Decoder.DecodeUnit.Initialize` | src/cpu/x86_64/x86_64_decoder.cpp:79-87 | the unit is back at its start, and the cache is as it was |
| `Decoder.DecodeUnit.FlushCache` | src/cpu/x86_64/x86_64_decoder.cpp:68-77 | every entry becomes invalid and keeps the rest of its fields |
| `Decoder.DecodeUnit.Decode` | src/cpu/x86_64/x86_64_decoder.cpp:111-272 | the prefix loop, the cache lookup and what follows |
| `Decoder.DecodeUnit.GetSecondOpcode` | src/cpu/x86_64/x86_64_decoder.cpp:274-293 | takes the second opcode byte or waits for it |
| `Decoder.DecodeUnit.AfterGetOpcodes` | src/cpu/x86_64/x86_64_decoder.cpp:295-313 | selects the table part and goes on to the ModRM byte or the immediate |
| `Decoder.DecodeUnit.GetModrm` | src/cpu/x86_64/x86_64_decoder.cpp:315-341 | takes the ModRM byte or waits for it |
| `Decoder.DecodeUnit.AfterGetModrm` | src/cpu/x86_64/x86_64_decoder.cpp:365-417 | finds base, displacement size and whether a SIB byte follows, as DecoderFormat reads them off the bytes |
| `Decoder.DecodeUnit.GetSib` | src/cpu/x86_64/x86_64_decoder.cpp:421-470 | takes the SIB byte or waits for it |
| `Decoder.DecodeUnit.GetDisp` | src/cpu/x86_64/x86_64_decoder.cpp:472-492 | takes displacement bytes, suspended anywhere |
| `Decoder.DecodeUnit.FinishModrm` | src/cpu/x86_64/x86_64_decoder.cpp:494-556 | the immediate is that of the group the ModRM byte selects |
| `Decoder.DecodeUnit.GetImmediate` | src/cpu/x86_64/x86_64_decoder.cpp:558-611 | the immediate size follows from its kind and the address size |
| `Decoder.DecodeUnit.GetImmediateBytes` | src/cpu/x86_64/x86_64_decoder.cpp:613-633 | takes immediate bytes, suspended anywhere |
| `Decoder.DecodeUnit.FinishInstruction` | src/cpu/x86_64/x86_64_decoder.cpp:666-694 | records the length and makes the cache entry valid |
| `Decoder.DecodeUnit.GetBytes` | src/cpu/x86_64/x86_64_decoder.cpp:635-664 | skips the rest of a known instruction as far as the cycle allows |
| `DecoderFormat.TakesExactlyFormat` | src/cpu/x86_64/x86_64_decoder.cpp:111-694 | outside the cache, n bytes are taken as an instruction if and only if they are that instruction as the bytes themselves show it: prefixes and their effects, opcode and table part, ModRM and SIB byte, displacement and immediate sizes, base, index and memory operand |
| `DecoderFormat.DecodedFormat` | src/cpu/x86_64/x86_64_decoder.cpp:111-694 | at every byte what is known of the instruction is what the bytes so far show |
| `DecoderFormat.FormatUnique` | src/cpu/x86_64/x86_64_decoder.cpp:111-694 | of two instructions at the start of the same bytes neither is longer, and they are the same |
| `DecoderFormat.NoneYet` | src/cpu/x86_64/x86_64_decoder.cpp:111-694 | while the decoder waits, no instruction lies in the bytes it has |
| `DecoderFormat.RegistersFoundExactly` | src/cpu/x86_64/x86_64_decoder.cpp:384-455 | base and index register of the architecture are known if and only if there is none, or the base is in the ModRM byte with a displacement or in the SIB byte without one, and the index is not register 12 |
| `DecoderFormat.BaseMissed` | src/cpu/x86_64/x86_64_decoder.cpp:388-392 | mov eax, [rax] is decoded without its base register |
| `FetchBuffer.RunKeepsChain` | src/cpu/fetch_buffer.cpp:105-274 | along every run the write position follows from read position and space, each byte leads to the next and the last to the speculative pc, and only the last can be a fault |
| `FetchBuffer.NextKeepsInv` | src/cpu/fetch_buffer.cpp:105-274 | fetch, get, skip and flush keep position formula and chain |
| `FetchBuffer.FetchBrings` | src/cpu/fetch_buffer.cpp:173-274 | a cycle brings as many bytes as width, free space and the first taken or faulting reply allow; each with its address, paddr, branch flag and next address, the predicted target where there is one; and leaves the pc, the disable flag and the largest stall they lead to |
| `FetchBuffer.SkipIsGets` | src/cpu/fetch_buffer.cpp:124-155 | skipping n buffered bytes gives the state and the next address of getting them one by one |
| `FetchBuffer.FetchAppends` | src/cpu/fetch_buffer.cpp:212-257 | a fetched byte is appended to the contents |
| `FetchBuffer.GetTakesFirst` | src/cpu/fetch_buffer.cpp:157-163 | getting a byte removes the first of the contents |
| `FetchBuffer.Buffer.FetchCycle` | src/cpu/fetch_buffer.cpp:173-274 | the fetch loop, with both disable conditions, does what the specification says |
| `FetchBuffer.Buffer.FetchByte` | src/cpu/fetch_buffer.cpp:212-257 | one fetched byte: a taken branch or a fault ends the loop; FetchBuffer.FetchBrings says what a cycle of them brings |
| `FetchBuffer.Buffer.Get` | src/cpu/fetch_buffer.cpp:157-163 | returns the first buffered byte |
| `FetchBuffer.Buffer.SkipBytes` | src/cpu/fetch_buffer.cpp:124-155 | skips at most what is buffered and returns the address of the last one |
| `Scheduler.OnlyActiveRuns` | kernel/src_kernel/process.c:237-261 | whatever happened in the kernel, on exit the only running thread is the recorded one, of an occupied process |
| `Scheduler.ResumedWithOwnRegisters` | kernel/src_kernel/process.c:203-261 | the registers loaded on exit are those expected of the resumed thread, whether the load is done or skipped; ResumedRegisters says which these are |
| `Scheduler.RunsKeepRegisters` | kernel/src_kernel/process.c:203-261 | the same over any sequence of interrupts and system calls, for all threads |
| `Scheduler.ResumedRegisters` | kernel/src_kernel/process.c:203-261 | a resumed thread finds each register as captured at its last interrupt, or the last response to it since then, whatever happened to other threads meanwhile |
| `Scheduler.ResponseSetsOne` | kernel/src_kernel/process.c:229-235 | a response sets that register of that thread, in the record and, for the recorded thread, in the saved registers; every other register of every thread stays |
| `Scheduler.LaunchSets` | kernel/src_kernel/process.c:263-306 | a launched thread gets its instruction and stack pointer and the flags register; all other registers but the first stay those of the slot |
| `Scheduler.ForkCopies` | kernel/src_kernel/process.c:118-146 | a forked child gets the record of its parent, and no other thread changes |
| `Scheduler.PassDecides` | kernel/src_kernel/process.c:237-261 | after a pass through the kernel each slot but the chosen one is occupied, blocked, ready or empty as the last action on it decided, or as it was |
| `Scheduler.OthersLeaveRegisters` | kernel/src_kernel/process.c:229-235 | actions on other threads leave the registers a thread will find |
| `Scheduler.LaunchClears` | kernel/src_kernel/process.c:275-279 | in every state of the kernel, launching a thread leaves its registers cleared if and only if the previous thread of its slot left zeros in all but register 0: the loop writes register 0 only |
| `Scheduler.RegisterInherited` | kernel/src_kernel/process.c:275-279 | a run of two passes through the kernel after which a new thread runs with a register of a killed one |
| `Scheduler.BoundedWaiting` | kernel/src_kernel/process.c:341-379 | a non-idle thread that is ready at each of as many consecutive scheduler calls as the table has slots is chosen by one of them |
| `Scheduler.PickComesCloser` | kernel/src_kernel/process.c:341-370 | each call that passes a ready thread over comes closer to it in the cyclic order |
| `Scheduler.Processor.SaveContext` | kernel/src_kernel/process.c:203-213 | the record of the thread gets all saved registers |
| `Scheduler.Processor.LoadContext` | kernel/src_kernel/process.c:215-227 | the saved registers become those of the record |
| `Scheduler.Processor.InterruptHappened` | kernel/src_kernel/interrupt2.c:108-121 | the recorded thread becomes ready and its record gets the captured registers |
| `Scheduler.Processor.SaveResponse` | kernel/src_kernel/process.c:229-235 | the response goes to the record, and to the saved registers of the recorded thread, as ResponseSetsOne reads it |
| `Scheduler.Processor.ScheduleThread` | kernel/src_kernel/process.c:237-261 | the thread runs and is recorded; its context is loaded unless it was the recorded one |
| `Scheduler.Processor.Schedule` | kernel/src_kernel/process.c:341-379 | the loop chooses the first eligible slot after the last scheduled one, or the idle thread |
| `Barrier.WithinOneCycle` | src/main.cpp:349-366 | in every interleaving completed-cycle counts differ by at most one |
| `Barrier.IoOncePerCycle` | src/main.cpp:349-366 | the device cycle for a cycle is unique, comes after all threads finished it and before any starts the next |
| `Barrier.IoForEveryCycle` | src/main.cpp:349-366 | there is a device cycle exactly for the cycles all threads have completed |
| `Barrier.StepKeepsInv` | src/main.cpp:349-366 | the counter equals the number of waiting threads, and each thread is where its completed cycles say |
| `Barrier.RunKeepsInv` | src/main.cpp:349-366 | the same in every reachable state |
| `Barrier.Cycle.EndOfCycle` | src/main.cpp:349-366 | the last thread resets the counter, wakes the others and runs the devices; any other waits |

## Left out

- PipelineRuns.NeverDeadlocked: holds for runs guarded by `NoOrphans`, because the unguarded promise is false (`PipelineCounterexamples.DeadlockReachable`).
- PipelineTheorems.IssuedStoreSquashedExactly: needs the invariant of runs guarded by `NoOrphans`; without that guard it says nothing about stores.
- PipelineRuns.StepKeepsInv: micro-ops without a functional unit have no dependencies and define no register (the tables use that kind for invalid opcodes only); a register is read before the same or a later micro-op of its instruction redefines it; a partial flush happens for a branch that is still in flight and after the other results of its cpu in that cycle were written back.
- PipelineProducers.RunKeepsProducers: holds for runs guarded by `NoOrphans` and `NoLostProducer`, because the unguarded promise is false (`PipelineStaleRead.StaleRead`); the micro-ops of an instruction announce a register in their order, as the dependency macros do.
- PipelineProducers.ReadsLastWriter: a register is one entry of a dependency vector; which entries an operand stands for is table data.
- PipelineUnits.FinishesInTime: holds for runs guarded by `NoOrphans`.
- Pipeline.Window: pool, lists and queues are sequences of handles; `StaticList` says why an array-backed list behaves as one.  The wrap-around of 64-bit instruction ids and of the 8-bit dependency counters is not modelled.
- PipelineTheorems.OrderedExecutesAsOldest: holds for runs guarded by `NoOrphans`, because the unguarded promise is false (`PipelineLostStore.StoreLost`); says nothing about loads, which may pass older stores (`PipelineLoadFirst.LoadPassesStore`).
- PipelineTheorems.IssuesInOrder: holds for runs guarded by `NoOrphans`; commit order (`PipelineTheorems.CommitsInOrder`) needs no guard.
- MemoryPages.CreatePageMapsOne: page numbers are below 2^36; above 2^48 the tables repeat, and those addresses are not modelled.
- MemoryHeap.BrkKeepsHeap: requests are below the stack, so that differences of addresses fit a signed 64-bit integer.
- MemoryCopy.CopyToUserIsRead: the range ends below 2^48.
- DiskQueue.CallbacksInOrder: file descriptors and the bytes transferred are not modelled, and callbacks of requests are never null.
- DiskQueue.Pieces: the wrap-around of a 32-bit length within one sector of 2^32 is not modelled; such a transfer would overflow the ring.
- BranchPred.Predictor: models `branch_pred_hist_tb_t`; `branch_pred_take_all_t` is the same code without the counter.  Statistics are left out.
- Decoder.StallsDoNotMatter: bytes whose fetch raised an exception are not modelled; decoding goes on after them through code that allocates instructions.
- DecoderFormat.TakesExactlyFormat: the three-byte opcodes are not modelled, as `src/cpu/x86_64/bochs/bochs.h:260-261` compiles them out; the opcode tables may be anything.
- Decoder.HitIsDecoding: needs the bytes to be unchanged since the entry was made, as the cache itself does.
- Decoder.DecodeUnit: the address returned by skipping no byte is not stored; it is overwritten before it is used.  The exit on an FS or GS prefix in kernel mode is left out, and so is the fixed size of the opcode buffer.
- FetchBuffer.SkipIsGets: for at least one byte and no more than are buffered; rings of more than 2^31 bytes are not modelled.
- Scheduler.BoundedWaiting: between the calls no key unblocks a thread, which is scheduled directly without its turn.
- Scheduler.RunsKeepRegisters: one CPU and one thread per process, as configured; the idle process is not killed.
- Barrier.IoOncePerCycle: no spurious wakeups; threads that leave after the simulation was stopped may leave others waiting, so progress is not claimed.
- Port I/O, MSRs, inline assembly and the devices themselves: their answers are inputs.
- Instruction bodies, dependency macros and opcode tables: table data without a claim about runs.
- Printing, video, keyboard input, configuration, statistics and boot: user interface and set-up.
- Loading ELF images: a sequence of the page and copy operations modelled here.
- Several CPUs in the kernel: the model has one.
