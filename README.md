# PauseUnpauseProcess — a Dafny model

This project models the Luma3DS kernel-extension system call
`PauseUnpauseProcess(processHandle, pause)`. The call suspends or resumes
every thread of a process. It has three parts:

- **Handle resolution.** The pseudo-handle `CUR_PROCESS_HANDLE` names the
  calling core's current process and takes an explicit reference. Any other
  handle is looked up in the current process's handle table. A handle that
  names nothing returns `0xD8E007F7` at once.
- **Pause.** Under the critical-section lock, a first walk over the global
  thread list blocks every live thread of the process (low nibble of
  `schedulingMask` cleared, high nibble kept) that is not the current thread
  of its core. It registers each such thread as a waiter on the process and
  calls `AdjustThread` with the old mask. A live thread that is current on
  its core only sets `currentThreadsFound`. When that flag is set, a second
  walk does the same to every thread of the process. Inside a nested lock it
  raises the cross-core interrupt flag of the thread's core and of the
  calling core when the two differ. `TriggerCrossCoreInterrupt` follows once.
- **Unpause.** Without a lock, a walk over the process's waiter list visits
  every node before the list's last one. Each visited live thread of the
  process is unregistered and readied (low nibble 1, high nibble kept).

Both branches end by dropping one reference on the process and return 0.

## Layout

- `scheduling_mask.dfy` (`SchedulingMask`): the `schedulingMask` byte as a
  `bv8`, its two nibbles, and the two transitions `Blocked` and `Readied`.
- `kernel_state.dfy` (`KernelState`): the read-only `Context` (thread owners,
  thread cores, each core's current thread, the calling core and process,
  the handle table, the global thread list) and the mutable `World` (masks,
  per-core flags, waiter lists, reference counts, lock depth, and a log of
  collaborator calls). `Perform` gives each collaborator call its effect.
- `pause_unpause_spec.dfy` (`PauseUnpauseSpec`): the system call as
  functions on the world. There is one function per loop body, one per loop
  and one (`Outcome`) for the whole call.
- `pause_unpause.dfy` (`PauseUnpause`): class `Kernel` holds masks and flags
  as arrays and the rest as fields. Its methods run the three loops in
  place. Each method's postcondition ties the new state to the matching
  function of `PauseUnpauseSpec`.
- `pause_lemmas.dfy` (`PauseProofs`), `unpause_lemmas.dfy` (`UnpauseProofs`)
  and `outcome_lemmas.dfy` (`OutcomeProofs`): what each walk, each branch and
  the whole call do, proved over those functions.

## Behaviour of the code that the model keeps

The model follows the code, quirks included. A lemma covers each point below.

- The first pause walk skips terminated threads (line 54), but the second
  walk tests ownership only (line 72). When the second walk runs, it blocks
  and registers the process's terminated threads too
  (`PauseTouchesTerminatedOnlyWhenDeferring`). Blocking turns their low
  nibble from 2 into 0. A later unpause that visits such a thread therefore
  readies it, leaving low nibble 1 (`PauseThenUnpauseRevivesTerminated`).
- The comment at line 102 says unpause cancels the wait of all
  non-terminated threads. The walk at line 99 stops before the list's last
  node, so that waiter keeps its mask and stays registered
  (`UnpauseSkipsLastWaiter`). Take a process with no waiters and no thread
  current on its core. After a pause and then an unpause, the last paused
  thread is still blocked and is the only waiter (`PauseThenUnpauseMask`,
  `PauseThenUnpauseWaiters`).
- Registration appends (lines 62 and 78). A thread paused by the first walk
  is therefore registered again by the second walk
  (`PauseRegistersTwice`).
- Pause holds the critical-section lock (lines 50-95). The unpause walk
  (lines 99-110) takes no lock (`UnpauseKeepsOthers`).
- The first walk defers any live thread of the process that is the current
  thread of its own core (line 56), whichever core that is. This is not
  limited to the calling thread (`PauseStages`).

## Model

| member | source | states |
|---|---|---|
| SchedulingMask.IsTerminated | k11_extension/source/svc/PauseUnpauseProcess.c:54 | the terminated test (low nibble 2) of lines 54 and 103; a terminated mask is changed both by clearing its low nibble and by setting it to 1, so a walk that skips the test changes terminated threads |
| SchedulingMask.Blocked | k11_extension/source/svc/PauseUnpauseProcess.c:61 | pause clears the wait sub-state to 0 and keeps the suspend class; a blocked thread is never terminated |
| SchedulingMask.Readied | k11_extension/source/svc/PauseUnpauseProcess.c:107 | unpause sets the wait sub-state to 1 and keeps the suspend class; a readied thread is never terminated |
| SchedulingMask.TransitionsSettle | k11_extension/source/svc/PauseUnpauseProcess.c:61-107 | blocking twice equals blocking once, readying twice equals readying once, readying a blocked thread gives what readying it directly gives, and a thread in wait sub-state 1 gets its exact mask back |
| KernelState.Retain | k11_extension/source/svc/PauseUnpauseProcess.c:41 | a successful lookup holds one more reference on the process found and on no other |
| KernelState.RemoveFirst | k11_extension/source/svc/PauseUnpauseProcess.c:105 | unregistering takes one copy of the thread out of the waiter list (multiset difference) and leaves a list without it unchanged |
| KernelState.RemoveFirstAfter | k11_extension/source/svc/PauseUnpauseProcess.c:105 | unregistering removes exactly the first node holding the thread |
| KernelState.Perform | k11_extension/source/svc/PauseUnpauseProcess.c:38-113 | a collaborator call is appended to the log and changes only its own part of the world: waiter lists for (un)registration, reference counts for AddReference/DecrementReferenceCount, lock depth for lock/unlock, nothing else for the scheduler calls |
| PauseUnpauseSpec.FirstPassStep | k11_extension/source/svc/PauseUnpauseProcess.c:53-64 | one visit of the first walk; keeps the world within the context. Its effect is stated by `PauseProofs.FirstPassStepShape`, `FirstPassEffect` and `FirstPassLog` |
| PauseUnpauseSpec.FirstPass | k11_extension/source/svc/PauseUnpauseProcess.c:51-65 | the first walk over a prefix of the thread list; keeps the world within the context. `FirstPassEffect` states its masks, `currentThreadsFound`, waiter list and frame, and `FirstPassLog` states its calls |
| PauseUnpauseSpec.SecondPassStep | k11_extension/source/svc/PauseUnpauseProcess.c:71-91 | one visit of the second walk; keeps the world within the context. Its effect is stated by `PauseProofs.SecondPassStepShape` |
| PauseUnpauseSpec.SecondPass | k11_extension/source/svc/PauseUnpauseProcess.c:69-92 | the second walk over a prefix of the thread list; keeps the world within the context. `SecondPassEffect` states its masks, flags, waiter list and frame, and `SecondPassLog` states its calls |
| PauseUnpauseSpec.Pause | k11_extension/source/svc/PauseUnpauseProcess.c:46-96 | the pause branch; keeps the world within the context. Its effect is stated by `PauseStages`, `PauseMask`, `PauseFlag`, `PauseWaiters`, `PauseKeepsCounts`, `PauseKeepsOtherWaiters` and `PauseLog` |
| PauseUnpauseSpec.UnpauseStep | k11_extension/source/svc/PauseUnpauseProcess.c:101-109 | one visit of the unpause walk; keeps the world within the context. Its effect is stated by `UnpauseProofs.UnpauseStepShape` and `UnpauseStepWaiters` |
| PauseUnpauseSpec.UnpauseWalk | k11_extension/source/svc/PauseUnpauseProcess.c:99-110 | the unpause walk over a sequence of nodes; keeps the world within the context. Its effect is stated by `UnpauseWalkEffect`, `UnpauseWalkWaiters` and `UnpauseWalkLog` |
| PauseUnpauseSpec.Unpause | k11_extension/source/svc/PauseUnpauseProcess.c:97-111 | the unpause branch over every node before the last; keeps the world within the context. Its effect is stated by `UnpauseMask`, `UnpauseWaiters`, `UnpauseKeepsOthers`, `UnpauseLog` and `UnpauseSkipsLastWaiter` |
| PauseUnpauseSpec.Resolve | k11_extension/source/svc/PauseUnpauseProcess.c:35-41 | resolution finds a process exactly for the pseudo-handle or a handle in the table: the current process for the pseudo-handle, the mapped process otherwise. It holds one more reference on that process and leaves masks, flags, waiter lists and lock depth unchanged. `OutcomeProofs.ResolveKeepsScheduling` adds that the world stays within the context |
| PauseUnpauseSpec.Outcome | k11_extension/source/svc/PauseUnpauseProcess.c:30-116 | the whole call, world and result; keeps the world within the context. Its effect is stated by `OutcomeRejectsUnknownHandle`, `OutcomeStages`, `OutcomeBalancesReferences`, `OutcomeReleasesLast`, `OutcomePauseMask` and `OutcomeUnpauseMask` |
| PauseUnpauseSpec.LookUp | k11_extension/source/svc/PauseUnpauseProcess.c:41-44 | the lookup fails exactly when the handle is not in the table, and then changes nothing; on success it returns the process the table maps the handle to and takes one reference on it |
| PauseUnpauseSpec.Visited | k11_extension/source/svc/PauseUnpauseProcess.c:99 | the unpause walk visits every waiter node but the last one |
| PauseProofs.PausedInOrderCount | k11_extension/source/svc/PauseUnpauseProcess.c:51-65 | each thread the first walk pauses appears once in the paused sequence, and no other thread appears |
| PauseProofs.OwnedInOrderCount | k11_extension/source/svc/PauseUnpauseProcess.c:69-73 | each owned thread of the list appears once in the sequence of threads the second walk visits, and no other thread appears |
| PauseProofs.FirstPassEffect | k11_extension/source/svc/PauseUnpauseProcess.c:51-65 | first walk: exactly the live owned threads not current on their core are blocked, other masks unchanged; `currentThreadsFound` holds iff some live owned thread is current on its core; the paused threads are appended to the waiter list in list order; flags, reference counts, lock depth and other waiter lists unchanged |
| PauseProofs.FirstPassLog | k11_extension/source/svc/PauseUnpauseProcess.c:60-63 | first walk: one registration and one AdjustThread with the old mask per paused thread, and no other call |
| PauseProofs.FirstPassUnvisited | k11_extension/source/svc/PauseUnpauseProcess.c:51-65 | the first walk leaves a thread it has not reached unchanged |
| PauseProofs.SecondPassEffect | k11_extension/source/svc/PauseUnpauseProcess.c:69-92 | second walk: every owned thread, terminated or not, is blocked and registered again; for each owned thread on another core, that core's flag and the calling core's flag become true, no flag is cleared; reference counts and lock depth unchanged |
| PauseProofs.SecondPassLog | k11_extension/source/svc/PauseUnpauseProcess.c:76-90 | second walk: per owned thread one registration, one AdjustThread with its mask before the visit, and one nested lock and unlock |
| PauseProofs.SecondPassUnvisited | k11_extension/source/svc/PauseUnpauseProcess.c:69-92 | the second walk leaves a thread it has not reached unchanged |
| PauseProofs.SignalsStep | k11_extension/source/svc/PauseUnpauseProcess.c:82-89 | a core is signalled by a walk iff it was signalled by the walk's prefix or the last visited owned thread lives on another core and the core is that thread's or the caller's |
| PauseProofs.PauseStages | k11_extension/source/svc/PauseUnpauseProcess.c:46-96 | the second walk and the interrupt run exactly when some live owned thread is current on its core |
| PauseProofs.PauseMask | k11_extension/source/svc/PauseUnpauseProcess.c:46-96 | after pause, an owned thread in the list is blocked if it is live, or if any thread was deferred; every other thread keeps its mask |
| PauseProofs.PauseFlag | k11_extension/source/svc/PauseUnpauseProcess.c:82-89 | after pause, a core's flag is its old value or-ed with "a thread was deferred and the core is signalled"; no flag is cleared |
| PauseProofs.PauseWaiters | k11_extension/source/svc/PauseUnpauseProcess.c:62-78 | after pause, the waiter list is the old list, then the threads the first walk paused, then (if a thread was deferred) every owned thread once more |
| PauseProofs.PauseKeepsCounts | k11_extension/source/svc/PauseUnpauseProcess.c:50-95 | pause leaves every reference count and the lock depth where they started |
| PauseProofs.PauseKeepsOtherWaiters | k11_extension/source/svc/PauseUnpauseProcess.c:46-96 | pause leaves every other process's waiter list unchanged |
| PauseProofs.PauseLog | k11_extension/source/svc/PauseUnpauseProcess.c:50-95 | the exact number of each collaborator call pause issues: one outer lock/unlock pair, one nested pair per owned thread and one interrupt when a thread was deferred, registrations and AdjustThread calls per visit, no reference-count or unregistration call |
| PauseProofs.PauseBlocksLiveThreads | k11_extension/source/svc/PauseUnpauseProcess.c:51-92 | after pause, every live thread of the process in the thread list has wait sub-state 0, its old suspend class, and is a waiter on the process |
| PauseProofs.PauseTouchesTerminatedOnlyWhenDeferring | k11_extension/source/svc/PauseUnpauseProcess.c:54-78 | a terminated thread of the process keeps its mask and waiter count iff no thread was deferred; otherwise it is changed and registered once |
| PauseProofs.PauseRegistersTwice | k11_extension/source/svc/PauseUnpauseProcess.c:62-78 | with a deferred thread, a thread paused by the first walk gains two waiter entries |
| PauseProofs.PauseSignalsOnceAndUnlocks | k11_extension/source/svc/PauseUnpauseProcess.c:50-95 | pause triggers the cross-core interrupt once iff a thread was deferred, locks at least once, and issues as many unlocks as locks |
| UnpauseProofs.UnpauseWalkEffect | k11_extension/source/svc/PauseUnpauseProcess.c:99-110 | unpause walk: a thread with a visited node that is owned and live is readied, however many of its nodes are visited; other masks, flags, reference counts, lock depth and other waiter lists unchanged |
| UnpauseProofs.UnpauseStepWaiters | k11_extension/source/svc/PauseUnpauseProcess.c:103-105 | one visit unlinks exactly the node it stands on |
| UnpauseProofs.UnpauseWalkWaiters | k11_extension/source/svc/PauseUnpauseProcess.c:99-110 | after the walk over a front part of the waiter list, the list is the kept nodes of that part followed by the nodes not reached |
| UnpauseProofs.UnpauseWalkLog | k11_extension/source/svc/PauseUnpauseProcess.c:103-108 | unpause walk: per visited node of a released thread one unregistration and one AdjustThread (old mask on the first visit, readied mask on later ones), and no other call |
| UnpauseProofs.UnpauseMask | k11_extension/source/svc/PauseUnpauseProcess.c:99-110 | after unpause, a thread is readied iff one of its nodes before the last is visited and it is a live thread of the process |
| UnpauseProofs.UnpauseWaiters | k11_extension/source/svc/PauseUnpauseProcess.c:99-110 | after unpause, the waiter list is the nodes the walk kept followed by the last node |
| UnpauseProofs.UnpauseKeepsOthers | k11_extension/source/svc/PauseUnpauseProcess.c:97-111 | unpause takes no lock, changes no flag, reference count or other waiter list |
| UnpauseProofs.UnpauseLog | k11_extension/source/svc/PauseUnpauseProcess.c:99-110 | the exact number of each collaborator call unpause issues, counted over the visited nodes |
| UnpauseProofs.UnpauseSkipsLastWaiter | k11_extension/source/svc/PauseUnpauseProcess.c:99 | a thread held only by the last waiter node keeps its mask and stays a waiter |
| OutcomeProofs.OutcomeRejectsUnknownHandle | k11_extension/source/svc/PauseUnpauseProcess.c:35-44 | the result is `0xD8E007F7` iff the handle is neither the pseudo-handle nor in the table, and then the world is unchanged; otherwise the result is 0 |
| OutcomeProofs.ResolveKeepsScheduling | k11_extension/source/svc/PauseUnpauseProcess.c:35-41 | resolution finds a process iff the handle names one, finds the one it names, and changes only reference counts and the call log |
| OutcomeProofs.OutcomeStages | k11_extension/source/svc/PauseUnpauseProcess.c:46-115 | a resolved call is the selected branch on the resolved process followed by one release, with result 0 |
| OutcomeProofs.BranchKeepsCounts | k11_extension/source/svc/PauseUnpauseProcess.c:46-111 | neither branch changes a reference count or the final lock depth, or issues AddReference or DecrementReferenceCount |
| OutcomeProofs.OutcomeBalancesReferences | k11_extension/source/svc/PauseUnpauseProcess.c:35-115 | a successful call leaves every reference count and the lock depth where they started |
| OutcomeProofs.OutcomeReleasesLast | k11_extension/source/svc/PauseUnpauseProcess.c:35-115 | a successful call issues exactly one DecrementReferenceCount, on the target and as its last call, releases no other process, and issues an AddReference exactly for the pseudo-handle |
| OutcomeProofs.OutcomePauseMask | k11_extension/source/svc/PauseUnpauseProcess.c:30-116 | a successful pause call leaves each mask as the pause branch gives it over the original world |
| OutcomeProofs.OutcomeUnpauseMask | k11_extension/source/svc/PauseUnpauseProcess.c:30-116 | a successful unpause call leaves each mask as the unpause branch gives it over the original world |
| OutcomeProofs.PausedQuietProcess | k11_extension/source/svc/PauseUnpauseProcess.c:51-65 | pausing a process with no waiters and no running thread leaves exactly the paused threads as waiters, each once, all releasable |
| OutcomeProofs.PauseThenUnpauseMask | k11_extension/source/svc/PauseUnpauseProcess.c:51-110 | pause then unpause of such a process readies every paused thread with its suspend class except the last one paused, which stays blocked; no other thread changes |
| OutcomeProofs.PauseThenUnpauseWaiters | k11_extension/source/svc/PauseUnpauseProcess.c:51-110 | pause then unpause of such a process leaves the last paused thread as the only waiter |
| OutcomeProofs.PauseThenUnpauseRevivesTerminated | k11_extension/source/svc/PauseUnpauseProcess.c:54-110 | a terminated thread of the process that a deferring pause blocks, and that the following unpause visits, ends in wait sub-state 1 with its suspend class kept |
| PauseUnpause.Kernel.AddReference | k11_extension/source/svc/PauseUnpauseProcess.c:38 | the call is logged and the process's reference count goes up by one |
| PauseUnpause.Kernel.DecrementReferenceCount | k11_extension/source/svc/PauseUnpauseProcess.c:113 | the call is logged and the process's reference count goes down by one |
| PauseUnpause.Kernel.LockCriticalSection | k11_extension/source/svc/PauseUnpauseProcess.c:50 | the call is logged and the lock depth goes up by one |
| PauseUnpause.Kernel.UnlockCriticalSection | k11_extension/source/svc/PauseUnpauseProcess.c:95 | the call is logged and the lock depth goes down by one |
| PauseUnpause.Kernel.RegisterSyncWithThread | k11_extension/source/svc/PauseUnpauseProcess.c:62 | the call is logged and the thread is appended to the process's waiter list |
| PauseUnpause.Kernel.UnRegisterSyncWithThread | k11_extension/source/svc/PauseUnpauseProcess.c:105 | the call is logged and the first node holding the thread is unlinked |
| PauseUnpause.Kernel.AdjustThread | k11_extension/source/svc/PauseUnpauseProcess.c:63 | the call is logged with the thread and its old mask |
| PauseUnpause.Kernel.TriggerCrossCoreInterrupt | k11_extension/source/svc/PauseUnpauseProcess.c:93 | the call is logged |
| PauseUnpause.Kernel.ToKProcess | k11_extension/source/svc/PauseUnpauseProcess.c:41 | the handle is looked up as `LookUp` says |
| PauseUnpause.Kernel.PauseFirstPass | k11_extension/source/svc/PauseUnpauseProcess.c:48-65 | the loop leaves the state and `currentThreadsFound` that `FirstPass` gives, whose effect `FirstPassEffect` and `FirstPassLog` state |
| PauseUnpause.Kernel.SecondPassVisit | k11_extension/source/svc/PauseUnpauseProcess.c:71-91 | one visit of the second walk, as `SecondPassStep` gives it |
| PauseUnpause.Kernel.PauseSecondPass | k11_extension/source/svc/PauseUnpauseProcess.c:69-92 | the loop leaves the state `SecondPass` gives, whose effect `SecondPassEffect` and `SecondPassLog` state |
| PauseUnpause.Kernel.UnpauseVisit | k11_extension/source/svc/PauseUnpauseProcess.c:101-109 | one visit of the unpause walk, as `UnpauseStep` gives it |
| PauseUnpause.Kernel.UnpauseWaiters | k11_extension/source/svc/PauseUnpauseProcess.c:99-110 | the loop leaves the state `Unpause` gives, whose effect `UnpauseWalkEffect`, `UnpauseWaiters` and `UnpauseLog` state |
| PauseUnpause.Kernel.PauseUnpauseProcess | k11_extension/source/svc/PauseUnpauseProcess.c:30-116 | the system call leaves the state and result that `Outcome` gives, whose properties the `OutcomeProofs` lemmas state |

## Left out

- Concurrency: other cores run nothing in the model. `KRecursiveLock__Lock` and `KRecursiveLock__Unlock` are a depth counter, and mutual exclusion is not modelled.
- Saving the CPSR, `__disable_irq` and `__set_cpsr_cx` around the two flag writes are CPU register operations. They are a no-op around those writes.
- `KScheduler__AdjustThread` and `KScheduler__TriggerCrossCoreInterrupt` are only logged. Their run-queue and interrupt effects are outside this file and are not part of this model. The scheduler argument (always the calling core's) is not recorded.
- `KSynchronizationObject__RegisterSyncWithThread` and `KSynchronizationObject__UnRegisterSyncWithThread` are not part of this model. Registration appends the thread to the waiter list and unregistration unlinks the first node holding it. The thread's own record of what it waits on is not modelled.
- `KProcessHandleTable__ToKProcess` is not part of this model. It is a map lookup that takes a reference on the process it finds, without logging a call. The value `0xFFFF8001` of `CUR_PROCESS_HANDLE` comes from kernel headers that are not part of this model.
- `DecrementReferenceCount` lowers the count by one. Destroying an object whose count reaches zero is not modelled.
- The intrusive linked lists become sequences of thread indices, and threads are identified by index. The vtable call is a direct call.
- The unpause walk follows `next` from a node it has just unlinked. The model walks a snapshot of the nodes taken before the walk, which assumes an unlinked node keeps its `next`. The `last` bound is read once, which is sound because a visit only unlinks the node it stands on (`UnpauseStepWaiters`).
- The global thread list holds each thread at most once (`Context.Valid`), while a waiter list may hold a thread several times.
