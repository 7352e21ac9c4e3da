# A verified model of the vgpu kernel-mode driver

The project models the state that the Windows guest driver keeps in kernel mode and proves what
its ioctl handlers and its completion loop do to it: contexts and their resource lists, the
busy/idle event and fence number of each resource, the bitmap allocator for VGPU memory, the two
id counters, the commands in flight and the commands pushed to the host.

There are two levels.

* **One step machine** (`driver_state.dfy`). `Next(s, op)` is total: an op whose guard fails
  leaves the state alone, as the error exits do. `UpdateResourceState` and
  `MapBlobResourceCallback` take no lock and the ioctl queue is dispatched in parallel
  (`kernelmode/vgpu/vgpu.c:645`), so submits, transfers and completions are cut at each of their
  accesses to a resource: looking it up and comparing fences, storing the fence or the mapping,
  and setting or clearing the event are separate steps (`Look`, `StoreFence`, `MapIoSpace`,
  `SignalEvent`). `CtlMap` is cut at its wait. The theorems quantify over every sequence of ops,
  so over every interleaving of these parts, every completion order and every choice of
  failures. What is still one step is listed under "Left out".
* **The code in its own form.** `VgpuMemory`, `IdGenerator`, `ListEntry`, `VirglResource`,
  `VirglContext` and `VgpuDriver` are classes that update their fields, walk the circular lists
  and loop over the bitmap as the C code does. Each method is proved equal to a function of the
  abstract state. The uninterrupted handlers are proved to be the runs of the step machine that
  list their steps one by one (`atomic_steps.dfy`), so the theorems about runs apply to them. What
  each of them does is proved without its code (`handler_effects.dfy`, `completion_loop.dfy`):
  which entries of the table of resources change and to what, which commands are pushed, which
  request is new and how it ends, which pages change hands.

| file | contents |
|---|---|
| `paging.dfy`, `scatter_gather.dfy` | `ROUND_UP` on 32-bit words; scatter-gather lists |
| `arena.dfy`, `vgpu_memory.dfy`, `arena_threads.dfy` | the page allocator: functions, in-place code, concurrent callers |
| `idr.dfy`, `fence_register.dfy` | id counters; the event and fence of one resource under any history |
| `driver_state.dfy`, `resource_table.dfy`, `base_invariant.dfy`, `requests.dfy` | the step machine; lists as a map; ids and teardown; where requests and resources come from |
| `register_history.dfy`, `wakeup.dfy`, `wake_runs.dfy`, `stuck.dfy`, `serial_updates.dfy`, `quiescence.dfy`, `blob_ready.dfy` | what the busy/idle event means, with updates of one resource overlapping and without |
| `sums.dfy`, `weights.dfy`, `memory_ownership.dfy`, `release_balance.dfy`, `release.dfy`, `blob_ledger.dfy`, `io_mappings.dfy` | ownership of pages, exactly-once release, mappings |
| `host_view.dfy`, `host_protocol.dfy`, `lifecycle.dfy`, `host_memory.dfy`, `teardown.dfy`, `isolation.dfy` | what the host sees; context teardown; late completions |
| `run_fragments.dfy`, `failing_runs.dfy` | a run from the initial state for every promise that breaks without its condition |
| `atomic_steps.dfy`, `handler_effects.dfy`, `completion_loop.dfy` | uninterrupted handlers and completions: as runs of small steps, and what each does to lists, registers, requests and pages |
| `intrusive_list.dfy`, `virgl_context.dfy`, `vgpu_driver.dfy` | the handlers as methods on objects |

Promises that hold only under a condition. Each condition is proved to be exact, and for each
but the last two `failing_runs.dfy` has a run from the initial state in which the promise breaks:

* **Lifecycle of ids.** No resource id is used against its lifecycle if and only if every
  transfer still finds its resource when it is pushed, and no context id if and only if every
  transfer and submit still finds its context (`HostProtocol.LifecycleRespectedIff`). Clients
  that let their requests be pushed before they close a resource, and a process exit after the
  last push, suffice (`HostProtocol.LifecycleRespected`).
* **Becoming idle.** A busy resource can become idle again without a new request if and only if
  a live request is left whose idle mark will count (`Stuck.StuckIffNoneCanWake`). It gets stuck
  in three ways only (`Stuck.StuckOnlyByAbandoning`): a request is given up after it has marked
  the resource, such as a transfer whose push fails, which `TransferHost3D` ignores; a blob
  mapping fails; or a submit clears the event after another thread has stored a larger fence,
  with no other request behind it. The last one is a race inside `UpdateResourceState`: nothing
  needs to fail for it. A resource has someone to wake it in every state in which it is busy if
  and only if every such late clear has another request behind it
  (`Wakeup.HeldIffClearsBacked`).
* **Order of fences.** The event of a resource follows its updates, as if each were made at
  once, if and only if no outdated update comes to change the event to what it is not already
  (`RegisterHistory.InStepIff`). Under this condition fenced requests leave it idle exactly when
  the one with the highest fence has completed (`RegisterHistory.FencedRunOutcome`). A lock
  around the update of one resource would suffice for this and for the wakeups
  (`SerialUpdates.SerialRegisterIsHistory`, `SerialUpdates.SerialNoWakeupIsLost`).
* **Idle means mapped.** The comment at `kernelmode/vgpu/control.c:548` says that a blob is busy
  until its mapping is done. The event is shared with submits and transfers. The first accepted
  call that names issued handles keeps the promise safe if and only if it names no blob that is
  still unmapped (`BlobReady.SafeIffCallWaits`). The model follows the code.
* **MDLs.** They are balanced if and only if every call of `CtlMap` that goes on after its wait
  still finds `pMdl` null (`Release.MdlOutstandingIffHeld`); one call on a handle at a time
  suffices (`Release.OneMapAtATimeBalanced`).
* **Kernel mappings of blobs.** Every mapping is undone exactly when its blob is deleted if and
  only if every blob is still there when its address is stored
  (`IoMappings.MappingOutstandingIffLive`). `MmUnmapIoSpace` is called without an outstanding
  mapping if and only if a blob is deleted whose MAP_BLOB has not completed or whose mapping has
  failed (`IoMappings.UnmapsOnlyMappedIff`).
* **Memory of transfers.** Every page that an outstanding transfer may access still belongs to
  its resource if and only if no close and no exit deletes a resource with memory while a
  transfer on it is outstanding, and no transfer is pushed after that
  (`HostMemory.TransfersKeepPagesIff`).
* **Idle with requests outstanding.** The event shows the last update that was not outdated,
  whoever else is outstanding (`RegisterHistory.RunShowsLastThatCounts`). With fenced submits
  completed in push order a resource is idle if and only if none is outstanding
  (`Quiescence.Quiescent`).
* **Ids.** Resource ids are copied as four bytes, so statements about ids assume that fewer than
  2^32 have been issued (and fewer than 2^64 fence ids). `Idr.UncachedFreshIffCounterFits` shows
  that this is exact.
* **Sizes.** `ROUND_UP` gives the least multiple exactly up to 2^32 - PAGE_SIZE and zero above
  (`Paging.RoundUpExact`). The overflow check in `BuildSGElement` lets one element more through
  than the list has room for; callers stay inside because their buffers need no more pages than
  there are elements. An element describes every byte of its piece if and only if the piece is
  contiguous in physical memory (`ScatterGather.ListCoversIffContiguous`).

## Model

| member | source | states |
|---|---|---|
| Paging.MaskDropsOffset | kernelmode/vgpu/global.h:27 | AND with the two's complement of PAGE_SIZE, computed bit by bit, clears exactly the page offset of every 32-bit word |
| Paging.RoundUpExact | kernelmode/vgpu/global.h:27 | ROUND_UP is the least page multiple holding x bytes if and only if x <= 2^32 - PAGE_SIZE, and wraps to zero above |
| Arena.FindRunComplete | kernelmode/vgpu/memory.c:92-98 | the hint decides which run of bits is returned but never whether one is found |
| Arena.AllocateComplete | kernelmode/vgpu/memory.c:72-113 | run alone, an allocation fails exactly when no run of free pages is long enough, and the size check in front never changes the outcome |
| Arena.AllocateLockedKeeps | kernelmode/vgpu/memory.c:90-104 | the locked part keeps the counter equal to PAGE_SIZE times the clear bits, never below zero, whatever was checked before; it marks exactly a run of clear pages |
| Arena.AllocateDisjoint | kernelmode/vgpu/memory.c:92-112 | a new region shares no page with any region that was marked |
| Arena.FreeClearsRegion | kernelmode/vgpu/memory.c:115-144 | freeing a marked region clears exactly its pages and adds exactly its bytes |
| Arena.FreeUndoesAllocate | kernelmode/vgpu/memory.c:72-144 | free after allocate restores bitmap and counter |
| Arena.ShrinkThenFree | kernelmode/vgpu/memory.c:146-188 | shrinking a live region and freeing the rest equals freeing it whole |
| Arena.NextFit | kernelmode/vgpu/memory.c:92-100 | an allocation takes the first run that is long enough at or after the hint, and only if there is none the first of all, and leaves the hint behind it |
| Arena.AllocateContinues | kernelmode/vgpu/memory.c:92-100 | the next allocation goes on where the last one ended, if there is room |
| Arena.FreedIsReused | kernelmode/vgpu/memory.c:124-137 | freed pages are the first that the next allocation takes that fits in them |
| Arena.ShrunkIsReused | kernelmode/vgpu/memory.c:168-181 | so is the tail that a shrink has freed |
| VgpuMemory.VgpuMemory.constructor | kernelmode/vgpu/memory.c:37-62 | every page clear, all bytes available, hint zero |
| VgpuMemory.VgpuMemory.FindRunFrom | kernelmode/vgpu/memory.c:92 | one counting pass over the bitmap finds the first sufficient run at or after the start |
| VgpuMemory.VgpuMemory.Allocate | kernelmode/vgpu/memory.c:72-113 | the in-place code equals the allocator function; virtual and physical address have the same offset |
| VgpuMemory.VgpuMemory.Free | kernelmode/vgpu/memory.c:115-144 | the in-place code equals the free function at the page index of the address |
| VgpuMemory.VgpuMemory.Realloc | kernelmode/vgpu/memory.c:146-188 | for any address and any sizes, the in-place code equals the shrink function at the byte offset of the address, with its refusals |
| ArenaThreads.StepIsAtomic | kernelmode/vgpu/memory.c:81-104 | with several threads past a stale size check, every locked section is one sequential call and the subtraction never underflows |
| ArenaThreads.Linearizable | kernelmode/vgpu/memory.c:72-188 | every interleaving is a sequential run with the same calls, results and final arena |
| ArenaThreads.StaleCheckMayRefuse | kernelmode/vgpu/memory.c:81-85 | a refusal belongs to the moment of the unlocked check: a free before the return would have let the request succeed |
| Idr.IdGenerator.GetIdWithoutCache | kernelmode/vgpu/idr.c:65-74 | the low bytes of the counter, which then advances |
| Idr.IdGenerator.GetId | kernelmode/vgpu/idr.c:76-95 | the newest free id if there is one, else a new one |
| Idr.IdGenerator.PutId | kernelmode/vgpu/idr.c:97-107 | the id becomes the head of the free list |
| Idr.RunKeepsPartition | kernelmode/vgpu/idr.c:44-107 | over any calls, live and free ids partition 1..next-1 without duplicates and without 0, while the counter fits the copied width |
| Idr.UncachedFreshIffCounterFits | kernelmode/vgpu/idr.c:65-74 | an uncached id is new and non-zero if and only if the counter fits the copied width |
| Idr.PutThenGet | kernelmode/vgpu/idr.c:76-107 | an id put back is what the next cached get returns, and the list is as before |
| FenceRegister.RecordsHighest | kernelmode/vgpu/control.h:73-81 | after any history the recorded fence is the highest ever seen |
| FenceRegister.ShowsLastThatCounts | kernelmode/vgpu/control.h:71-93 | after any history the event shows the direction of the last update that was not outdated on arrival |
| FenceRegister.FencedOutcome | kernelmode/vgpu/control.h:73-93 | fenced updates only: idle if and only if the highest fence has marked idle |
| FenceRegister.FencedUpdatesCommute | kernelmode/vgpu/control.h:73-93 | two interleavings of the same fenced updates leave the same event and fence |
| ResourceTable.LookupStore | kernelmode/vgpu/control.h:23-58 | changing the resource a lookup finds changes that table entry only |
| ResourceTable.LookupInsert | kernelmode/vgpu/control.c:484 | head insertion adds one entry to the table |
| ResourceTable.LookupRemove | kernelmode/vgpu/control.c:608-620 | with unique ids, removing the found entry deletes one table entry |
| ResourceTable.LookupDropContext | kernelmode/vgpu/control.c:360-362 | removing a context deletes all of its entries and no other |
| ResourceTable.LookupWriteOne | kernelmode/vgpu/control.h:66-95 | a single store of UpdateResourceState changes the register of the named resource and nothing else |
| BaseInvariant.DrainIsCloseEach | kernelmode/vgpu/control.c:354-373 | unlinking a context and draining its list from the tail equals closing its resources oldest first and dropping the empty context |
| BaseInvariant.RunBase | kernelmode/vgpu/control.c:444-484 | in every run ids are unique across contexts, lists are ordered by age, and a MAP_BLOB can reach only its blob, which has no address until the completion has stored one |
| Wakeup.HeldIffClearsBacked | kernelmode/vgpu/control.h:73-93 | in every run, store by store: a resource is waiting for a request in every state in which it is busy if and only if every busy mark that clears the event after a larger fence was stored finds another request that waits to mark it idle, or a failed mapping |
| Wakeup.NoWakeupIsLost | kernelmode/vgpu/control.h:60-96 | under that condition a busy resource is waiting for a live request that has marked it and whose idle mark will count, or for one that was given up after marking it, or its mapping failed |
| Wakeup.IdleOnceComplete | kernelmode/vgpu/vgpu.c:77-119 | under that condition: once every request that has marked a resource busy has completed, the resource is idle unless its mapping failed; a request given up before it marked the resource does not matter |
| Stuck.StuckIffNoneCanWake | kernelmode/vgpu/control.c:691-703 | a resource stays busy through every continuation without a new request on it if and only if it is busy and no live request will mark it idle with a fence at least the recorded one or past its test of the fence |
| Stuck.StuckOnlyByAbandoning | kernelmode/vgpu/control.c:840-841 | in every run a resource gets stuck only by a request that was given up after it had marked the resource, by a failed blob mapping, or by a late clear with no other request behind it |
| FailingRuns.LateClear | kernelmode/vgpu/control.h:77-91 | from the initial state: two fenced submits on one resource overlap between the store of the fence and the change of the event, both fences are accepted, nothing fails, and the resource is stuck |
| SerialUpdates.SerialNoWakeupIsLost | kernelmode/vgpu/control.h:60-96 | in every run in which the updates of a resource do not overlap: no wakeup is lost, and it gets stuck only by a request given up or a failed mapping |
| FailingRuns.FailedPush | kernelmode/vgpu/command.c:45-49 | from the initial state: a transfer whose push fails leaves its resource stuck |
| FailingRuns.FailedMapping | kernelmode/vgpu/control.c:60-65 | from the initial state: a blob whose mapping fails is stuck |
| RegisterHistory.RegisterIsHistory | kernelmode/vgpu/control.h:73-93 | in every run the register of a resource that outlives it is what the single stores that reached it have made of it |
| RegisterHistory.InStepIff | kernelmode/vgpu/control.h:71-93 | for every stretch of a run: the event is in every state what it would be if each update were made at once if and only if no outdated update comes to change it to what it is not already |
| RegisterHistory.RunShowsLastThatCounts | kernelmode/vgpu/control.h:71-93 | under that condition the event shows the direction of the last update that was not outdated, whatever requests are outstanding |
| SerialUpdates.SerialRegisterIsHistory | kernelmode/vgpu/control.h:60-96 | where the updates of the resource do not overlap that condition holds, and the register is the history of the updates, each made at once |
| RegisterHistory.FencedMarksInOrder | kernelmode/vgpu/control.c:937-974 | in every run, from any point of it on, each fenced request marks a resource busy before it marks it idle, because fence ids are never reissued |
| RegisterHistory.FencedRunOutcome | kernelmode/vgpu/control.h:73-93 | for any stretch of a run in which only fenced requests reach a resource and no late update changes its event, it ends idle if and only if the request with the highest fence marked it idle |
| SerialUpdates.SerialFencedOutcome | kernelmode/vgpu/control.h:73-93 | so it does, with the highest fence recorded, where the updates of the resource do not overlap |
| RegisterHistory.FencedRunsAgree | kernelmode/vgpu/control.h:73-93 | two continuations of a run with the same fenced updates, interleaved differently, agree on the event, where no late update changes it |
| Quiescence.Quiescent | kernelmode/vgpu/control.c:937-974 | fenced atomic submits completed in push order: idle if and only if no outstanding submit names the resource |
| FailingRuns.FirstOfTwoTransfers | kernelmode/vgpu/control.c:840-841 | from the initial state: two transfers outstanding, one completed, the resource is idle |
| BlobReady.IdleMeansMapped | kernelmode/vgpu/control.c:548-572 | in every run in which clients name a blob only once it is mapped, an idle blob is mapped |
| BlobReady.SafeIffCallWaits | kernelmode/vgpu/control.c:548-549 | after a run of waiting calls, an accepted transfer or submit on issued handles, fenced or not, leaves idle-means-mapped safe in every waiting continuation if and only if it names no unmapped blob |
| BlobReady.EarlyTransferBreaksPromise | kernelmode/vgpu/control.c:819-841 | in every state a transfer on an unmapped blob that completes first leaves the blob idle and unmapped |
| FailingRuns.EarlyTransfer | kernelmode/vgpu/control.c:819-841 | from the initial state: a transfer on an unmapped blob completes first, the blob is idle and unmapped |
| MemoryOwnership.EveryPageHasOneOwner | kernelmode/vgpu/control.c:458-484 | after every step of every run each marked page has exactly one owner, each clear page none, and free pages plus owned pages are the arena |
| MemoryOwnership.OwnersAreDisjoint | kernelmode/vgpu/control.c:926-974 | two owners, resources of any contexts or submits in flight, share no page |
| MemoryOwnership.OwnedIsMarked | kernelmode/vgpu/memory.c:92-112 | every page of a live region is inside the arena and marked |
| MemoryOwnership.AllMemoryReturned | kernelmode/vgpu/vgpu.c:94 | with no context left and no submit outstanding the whole arena is free |
| Release.ReleasedExactlyOnce | kernelmode/vgpu/vgpu.c:59-141 | command buffers and handle copies are freed and out-fences signalled never twice, never early, and exactly once by the end of a completed request |
| Release.MdlOutstandingIffHeld | kernelmode/vgpu/control.c:756-787 | in every run, over every failure branch and both halves of CtlMap: each MDL is outstanding exactly as long as a live resource holds it and freed at most once, if and only if every call that goes on after its wait still finds pMdl null |
| Release.OneMapAtATimeBalanced | kernelmode/vgpu/control.c:756-787 | so MDLs are balanced in every run without two calls of CtlMap on one handle in progress |
| FailingRuns.TwoMaps | kernelmode/vgpu/control.c:762-787 | from the initial state: two calls that both found pMdl null leave an MDL that no resource holds and nothing frees |
| IoMappings.MappingOutstandingIffLive | kernelmode/vgpu/control.c:56-69 | in every run each mapping of a blob has been undone once, or the live blob has it, if and only if every blob that is mapped is still live when the callback stores the address |
| FailingRuns.LeakedMapping | kernelmode/vgpu/control.c:56-69 | from the initial state: a blob closed between the lookup of the map callback and its stores leaves a mapping that nothing undoes |
| IoMappings.UnmapsOnlyMappedIff | kernelmode/vgpu/control.c:128-132 | in every run, by the log of the calls: MmUnmapIoSpace is called for a blob with no mapping outstanding if and only if a close or a teardown deletes a blob whose MAP_BLOB has not completed or whose mapping has failed |
| FailingRuns.EarlyClose | kernelmode/vgpu/control.c:128-132 | from the initial state: a blob closed before its MAP_BLOB has completed |
| FailingRuns.FailedThenClosed | kernelmode/vgpu/control.c:60-65 | from the initial state: a blob closed after its mapping has failed, with no MAP_BLOB outstanding |
| IoMappings.ReadyDeletesBalance | kernelmode/vgpu/control.c:119-141 | in every run that deletes no such blob all mappings are balanced and no unmapping is stray |
| HostProtocol.LifecycleRespectedIff | kernelmode/vgpu/command.c:281-522 | over all runs, in push order: no resource id is used against its lifecycle if and only if every transfer finds its resource at its push, and no context id if and only if every transfer and submit finds its context |
| HostProtocol.LifecycleRespected | kernelmode/vgpu/vgpu.c:36-51 | both hold in every run in which no close overtakes a transfer and no context is destroyed under a pending transfer or submit |
| HostProtocol.CommandQueueDecides | kernelmode/vgpu/command.c:22-48 | the order on the command queue alone decides the lifecycle of a resource id |
| HostProtocol.OvertakingCloseBreaksLifecycle | kernelmode/vgpu/control.c:819-841 | in every state, pushing a transfer whose resource has been closed since its lookup is a transfer after UNREF |
| FailingRuns.OvertakingClose | kernelmode/vgpu/control.c:819-841 | from the initial state: a close between the lookup and the push of a transfer violates the lifecycle of the resource |
| FailingRuns.OvertakingExit | kernelmode/vgpu/vgpu.c:36-51 | from the initial state: an exit between the allocation and the push of a submit puts SUBMIT_3D after CTX_DESTROY |
| Lifecycle.GoneIffLife | kernelmode/vgpu/control.c:119-141 | an id has reached its end if and only if its commands are one complete life of the grammar |
| Lifecycle.OkIffPrefixOfLife | kernelmode/vgpu/command.c:281-489 | the lifecycle is respected if and only if the commands of the id are a prefix of some life |
| HostMemory.AttachedBackingsApart | kernelmode/vgpu/command.c:403-438 | in every run, in push order, the memory attached by the pushed commands is marked, and disjoint from every other attached backing and from command memory in flight |
| HostMemory.TransfersKeepPagesIff | kernelmode/vgpu/control.c:133-137 | in every state of a run each page that an outstanding transfer may access still belongs to its resource if and only if no resource with memory is deleted with a transfer on it outstanding and no transfer is pushed after that |
| FailingRuns.TransferOutlivesResource | kernelmode/vgpu/control.c:133-137 | from the initial state: a resource closed under an outstanding transfer, whose page then belongs to the next resource |
| Teardown.DestroyOrder | kernelmode/vgpu/control.c:354-382 | one UNREF per resource in ascending id order, CTX_DESTROY after all of them, other contexts and requests in flight as they were |
| Teardown.DestroyFreesItsPages | kernelmode/vgpu/control.c:364-373 | exactly the pages of the context's own resources come back |
| Isolation.RunNoReissue | kernelmode/vgpu/idr.c:65-74 | over any run a live resource with an old id was live before |
| Isolation.LateCompletionIsolated | kernelmode/vgpu/vgpu.c:77-119 | no single step of a completion touches anything created after its request's handles were issued, even under a reused process id |
| Isolation.LateAtOnceIsolated | kernelmode/vgpu/vgpu.c:77-119 | nor does a completion in one go |
| AtomicSteps.LookupUpdateMany | kernelmode/vgpu/control.h:60-96 | a whole handle list updates each named live resource once, duplicates or not, and nothing else |
| AtomicSteps.SubmitIsRun | kernelmode/vgpu/control.c:904-974 | an uninterrupted submit is this run: the begin with these handles and this out-fence, the three steps of each mark, then the push or the exit of the fault; after a refused begin the other steps change nothing |
| AtomicSteps.TransferIsRun | kernelmode/vgpu/control.c:817-841 | an uninterrupted transfer is this run: the begin in this direction, one mark, then the push or its failure |
| AtomicSteps.MapIsRun | kernelmode/vgpu/control.c:742-787 | an uninterrupted call of CtlMap is its two halves; the second finds nobody if the first left no call waiting |
| AtomicSteps.CompleteIsRun | kernelmode/vgpu/vgpu.c:59-140 | an uninterrupted completion is this run: off the queue, the steps of each idle mark or of the mapping, the releases; a capset query is only taken off |
| HandlerEffects.SubmitEffect | kernelmode/vgpu/control.c:904-974 | with and without out-fence: nothing changes if there is no context or no clear run of the least number of pages that holds the command; otherwise the new request has exactly these handles, this out-fence, a fence id if and only if there is one and a region of that size that was clear; for each exit, its phase, whether the command is on the queue, and whether each live named resource, and no other, shows the busy mark |
| HandlerEffects.TransferEffect | kernelmode/vgpu/control.c:817-841 | the named resource, and no other, takes an unfenced busy mark, whether or not the push succeeds; a push puts exactly the transfer in this direction on the queue; without the resource nothing changes |
| HandlerEffects.CreateEffect | kernelmode/vgpu/control.c:444-487 | the id is new; the resource is idle, unmapped and backed by the least number of pages that holds its size, one for size 0, none for size 1, which were clear; ATTACH_BACKING carries that same region; without room the id is spent and only CREATE_3D pushed |
| HandlerEffects.CreateBlobEffect | kernelmode/vgpu/control.c:542-574 | the id is new, the blob busy and without address, and CREATE_BLOB and MAP_BLOB name it |
| HandlerEffects.InitEffect | kernelmode/vgpu/control.c:334-348 | a new context without resources, announced; every other context and resource as it was |
| HandlerEffects.DestroyEffect | kernelmode/vgpu/control.c:354-382 | the context and exactly its resources are gone; the commands pushed, the user mappings freed and the kernel mappings undone are those of its resources, oldest first, then CTX_DESTROY |
| HandlerEffects.CloseEffect | kernelmode/vgpu/control.c:119-141 | exactly this resource is gone; the commands, the freed MDL, the undone mapping and the pages given back are those of its kind of buffer |
| HandlerEffects.EndMapChanges | kernelmode/vgpu/control.c:73-107 | over every outcome: the resource holds the new MDL if and only if it was mapped, an MDL whose mapping failed is freed, one that the resource held is lost, a busy resource keeps the call waiting |
| HandlerEffects.CreateRound | kernelmode/vgpu/control.c:384-628 | creating a resource with a buffer and closing it restores the table and the memory and pushes exactly four commands about it |
| CompletionLoop.LoopRequests | kernelmode/vgpu/vgpu.c:59-141 | whatever the device hands back, in any order: a request is gone afterwards if and only if it was in the queue and was handed back, a capset query then waits for its waiter, and every other request is as it was |
| CompletionLoop.LoopResources | kernelmode/vgpu/vgpu.c:77-119 | each live resource has taken exactly the idle marks of the finished requests that name it, in the order of the device, and a blob the address of its mapping; no other field and no list changes |
| CompletionLoop.LoopReleases | kernelmode/vgpu/vgpu.c:77-139 | each buffer is freed, each copy of handles freed and each out-fence signalled exactly once if its request was in the queue, was handed back and owes it, otherwise not at all |
| CompletionLoop.LoopLog | kernelmode/vgpu/vgpu.c:53-141 | mappings and releases follow each other in the order in which the device hands the requests back |
| CompletionLoop.LoopFailures | kernelmode/vgpu/control.c:56-65 | a mapping is recorded as failed if and only if its MAP_BLOB is handed back, the mapping call fails and the blob is still there |
| CompletionLoop.LoopPages | kernelmode/vgpu/vgpu.c:94 | the pages of the finished submits become clear and no other page changes |
| CompletionLoop.CompleteAllIsRun | kernelmode/vgpu/vgpu.c:59-141 | the loop is this run: the steps of one completion after the other |
| CompletionLoop.SubmitRound | kernelmode/vgpu/control.c:846-975 | a submit that is accepted, pushed and handed back leaves requests and memory as they were, its releases in the log, and its live resources idle unless a larger fence had been recorded |
| CompletionLoop.QueryRound | kernelmode/vgpu/command.c:133-157 | a capset query that is handed back and collected leaves nothing behind; its waiter frees the buffer, the loop does not |
| CompletionLoop.RunTags | kernelmode/vgpu/command.c:52-76 | in every run the buffers in use are told apart by their tags, which is what the statements about the loop need |
| IntrusiveList.InsertHeadList | kernelmode/vgpu/control.c:484 | the ring stays circular and doubly linked with the entry behind the head |
| IntrusiveList.RemoveEntryList | kernelmode/vgpu/control.c:618-620 | the ring stays circular and doubly linked without the entry |
| VirglContext.VirglContext.Find | kernelmode/vgpu/control.h:23-40 | the walk over the links terminates and returns the first resource with the id, or null if there is none |
| VirglContext.VirglContext.UpdateResourceState | kernelmode/vgpu/control.h:60-96 | the loop over the handle list changes the registers as the function on the list does and keeps the links |
| VirglContext.VirglContext.Insert | kernelmode/vgpu/control.c:484 | the new resource becomes the first of the sequence the list holds |
| VirglContext.VirglContext.Remove | kernelmode/vgpu/control.c:618-620 | the sequence loses exactly this resource |
| VirglContext.VirglContext.RemoveTail | kernelmode/vgpu/control.c:367-368 | the oldest resource is returned and the others stay in order |
| VgpuDriver.VgpuDriver.CheckParams | kernelmode/vgpu/control.c:303-332 | the parameter loop accepts exactly the lists whose every element is a supported capset id of at most MAX_CAPSET_ID |
| VgpuDriver.VgpuDriver.InitVirglContext | kernelmode/vgpu/control.c:256-352 | succeeds exactly for a process without context and an acceptable list of parameters; then an empty context is linked and announced, otherwise nothing changes |
| VgpuDriver.VgpuDriver.DestroyVirglContext | kernelmode/vgpu/control.c:354-382 | the drain loop on the real list equals the teardown of the step machine |
| VgpuDriver.VgpuDriver.CreateResource | kernelmode/vgpu/control.c:384-491 | equals the creation step; an id is returned if and only if there is a context and room, and it is the new id under which the resource is found and announced |
| VgpuDriver.VgpuDriver.CreateBlobResource | kernelmode/vgpu/control.c:493-578 | equals the blob creation step; an id is returned if and only if there is a context, and it is the new id under which the busy blob is found, created and mapped |
| VgpuDriver.VgpuDriver.Delete | kernelmode/vgpu/control.c:119-141 | unmap the user mapping, detach the backing and give the pages back, or unmap the blob at the host and in the kernel, then UNREF |
| VgpuDriver.VgpuDriver.CloseResource | kernelmode/vgpu/control.c:580-628 | equals the close step; fails exactly when the lookup does |
| VgpuDriver.VgpuDriver.BeginMap | kernelmode/vgpu/control.c:742-767 | equals the step up to the wait: the call waits if and only if there is a buffer that is not mapped, and the address of a mapping is returned if and only if there is one |
| VgpuDriver.VgpuDriver.EndMap | kernelmode/vgpu/control.c:769-787 | equals the step after the wait; an address is returned if and only if the resource is idle and the mapping succeeds, and it is that of the new mapping |
| VgpuDriver.VgpuDriver.MapResource | kernelmode/vgpu/control.c:708-790 | both halves in one go; for every resource and outcome the address returned: that of the mapping there is, or of the new one, or none |
| VgpuDriver.VgpuDriver.WaitNoWait | kernelmode/vgpu/control.c:664-690 | reports 1 exactly for a busy resource |
| VgpuDriver.VgpuDriver.TransferHost | kernelmode/vgpu/control.c:792-844 | equals the atomic transfer, whose effect is HandlerEffects.TransferEffect, and succeeds whether or not the push does |
| VgpuDriver.VgpuDriver.SubmitCommand | kernelmode/vgpu/control.c:846-975 | equals the atomic submit, whose effect is HandlerEffects.SubmitEffect, and succeeds if and only if the command is on the queue |
| VgpuDriver.VgpuDriver.Complete | kernelmode/vgpu/vgpu.c:70-139 | one completion equals the step: idle marks if the context is still there, then every release |
| VgpuDriver.VgpuDriver.MapBlobCallback | kernelmode/vgpu/control.c:50-71 | a blob becomes mapped and idle, or is left as it was when the mapping fails |
| VgpuDriver.VgpuDriver.ReadFromQueue | kernelmode/vgpu/vgpu.c:53-141 | equals the completions of the buffers handed back, in the order of the device, whose effects are the results of module CompletionLoop |
| ScatterGather.PiecesTile | kernelmode/vgpu/command.c:83-98 | a buffer is cut into one element per page of its size, of 1 to PAGE_SIZE bytes, contiguous and exact |
| ScatterGather.BuildSGElement | kernelmode/vgpu/command.c:78-101 | the loop stores exactly these elements and returns their number, or 0 once the overflow check trips, and touches nothing else |
| ScatterGather.DescribeCommand | kernelmode/vgpu/command.c:374-375 | request and response lists laid end to end tile the single allocation of the command |
| ScatterGather.ListCoversIffContiguous | kernelmode/vgpu/command.c:91-93 | the list describes every byte of the buffer, under the page table, if and only if each piece is contiguous in physical memory; a page-aligned buffer always is |

## Left out

- WDF, PnP, power, interrupt and DPC registration: framework glue.
- The virtqueue implementation: a queue is the set of pushed requests, and the device may finish any of them.
- A failed push of a command other than a submit or a transfer, which the emitters ignore: it is a request that is never handed back.
- The order in which the host takes commands from the two queues: statements about commands are about push order, which is the host's order within the command queue, where all resource commands are, when pushes succeed.
- Retrieval, length checks and probing of user buffers: a failing check is a call that changes nothing.
- Pool, lookaside, MDL and mapping calls of the kernel: each is a success or failure chosen by the caller; their failure before any state change is a call that changes nothing. The resource object that `CtlCreateResource` does not give back after a failed allocation is not counted.
- The wire format of commands: kind, context id, resource id, fence and region are kept.
- `CtlGetParams`, `CtlGetCaps` and capset negotiation: only the release of the query's buffer by its waiter is modelled, as steps of the machine.
- Single steps: a lookup with the comparison that follows it, one store, `MmMapIoSpaceEx` with the stores of its result, one list operation; what a submit allocates, memory and fence id; what a completion releases after its marks; what follows the wait in `CtlMap`; and the handlers other than submit, transfer, map and completion. So races inside `CtlCreateResource`, two threads closing the same handle, two threads creating a context for one process, and a context destroyed under a handler that still holds its pointer are not modelled.
- A resource closed while a call of `CtlMap` waits on it, or between the lookup and the stores of an update or of the map callback: the waiting call ends and the stores are lost, where the code works on a freed record. A mapping that is made then is counted.
- The blocking form of `CtlWait`: it changes nothing, and module Stuck says when it never returns.
- VgpuDriver.VgpuDriver.Find: the context list is a sequence field; only the resource lists are linked objects.
- RTL bitmap calls with a bit count of zero: the model returns an empty run at the hint, the documented routine rounds the hint down to a byte; no page is concerned.
- Counter wrap-around of the 64-bit id and fence counters.
- 2D commands, CTX_ATTACH_RESOURCE and CTX_DETACH_RESOURCE: emitters that no handler calls.
- The user-mode part.
