# Budgeted IPC and scheduling core of seL4 (MCS configuration)

This project models the parts of the seL4 kernel, in its mixed-criticality
(MCS) configuration, that decide who runs and on whose budget. It then proves
properties about that model.

- **Capability classifier** (`ObjectType`). `sameRegionAs`, `sameObjectAs`,
  `cap_get_capSizeBits`, `cap_get_capIsPhysical` and `cap_get_capPtr` are pure
  functions over a `Cap` datatype with one constructor per generic tag, plus
  one architecture capability. The architecture's own classifiers are
  function-typed fields of an `ArchOps` parameter. Word arithmetic wraps at
  2^64 (`Words`).
- **Release queues** (`ReleaseQueue`). The per-core queues of threads waiting
  for their budget are doubly linked through `tcbSchedNext`/`tcbSchedPrev`,
  headed by `ksReleaseHead`, and ordered by the release time of the head
  refill. The kernel state is one `Structures.Kernel` object. It holds
  pointer-indexed arenas of thread, scheduling-context, notification,
  endpoint and reply records, plus one `Node` record per core. A ghost
  `releaseQueues` field gives each core's queue as a sequence.
  `ReleaseQueuesValid` ties that sequence to the links, the head pointer and
  the `tcbInReleaseQueue` flags. `tcbReleaseEnqueue` keeps its sorted-insert
  walk as a `while` loop.
- **Budget accounting** (`Thread`). `switchSchedContext`, `postpone`,
  `setNextInterrupt`, `chargeBudget`, `endTimeslice` and `awaken` (a drain
  loop) are methods on the kernel state. The refill helpers, whose bodies are
  not part of this model, are function-typed fields of a `RefillOps`
  parameter.
- **TCB invocations** (`TcbInvocation`). These are `validFaultHandler`, the
  argument checks of `decodeSetTimeoutEndpoint`,
  `invokeTCB_ThreadControlCaps` (which `decodeSetTimeoutEndpoint` ends in)
  and `invokeTCB_ThreadControlSched`.
- **Fastpaths** (`Fastpath`). `fastpath_signal` and `fastpath_vm_fault` each
  work in the same three steps:
  - a chain of guards that send the call to the slowpath with nothing
    changed;
  - a point of no return;
  - the committed writes.

  The path taken is a function of the state before the call (`SignalPlanOf`,
  `VmFaultCommits`).
- **Notification glue and syscall helpers** (`Notification`, `Syscall`,
  `Queues`). These are `maybeDonateSchedContext`, `MCS_DO_IF_SC`,
  `reorderNTFN`, `lookupReply` and `mcsPreemptionPoint`.

Calls into kernel code whose bodies are not part of this model are appended,
in order, to the kernel's `log` as `Call` values. Examples are
`possibleSwitchTo`, `SCHED_APPEND`, `handleFault`, `schedContext_donate` and
`cteInsert`. A call's effect on state is modelled only where a later step of
the modelled code depends on it: the run-queue flag, a context's bound
thread, and the postpone `schedContext_resume` can make. The current core is a `core` parameter. The inputs a function gets
from code outside the model enter as parameters:

- the capability `lookup_fp` finds;
- `isCurDomainExpired()`;
- the extra capability of a decode;
- the result of a capability-tree operation.

## Model

| member | source | states |
|---|---|---|
| Words.WordAdd | src/object/objecttype.c:47-48 | the sum of two words is the integer sum when it fits, and otherwise wraps around by exactly 2^64 |
| Words.AlignDown | src/object/objecttype.c:341-342 | rounding a thread pointer down to its TCB alignment gives an address that is a multiple of the alignment, at or below it and less than one alignment unit away |
| Words.AlignDownUnique | src/object/objecttype.c:341-342 | the rounded-down address is the only aligned address at or below the pointer and less than one alignment unit away, so `p & ~MASK(bits)` is determined by those three facts |
| ObjectType.SameRegionAs | src/object/objecttype.c:35-151 | `sameRegionAs`, case for case as the source's switch on the first capability's tag, with the architecture's classifier as a parameter; its meaning is stated by `UntypedContainsRange`, `UntypedNeedsPhysical`, `NamedRegionIsIdentity`, `SingletonsCoverTheirTag`, `IrqRegions`, `SameRegionNotSymmetric` and `UnhandledTagsCoverNothing` |
| ObjectType.UntypedContainsRange | src/object/objecttype.c:39-52 | for an untyped capability whose range does not wrap, it has the same region as `b` exactly when `b` is backed by memory and `b`'s whole byte range lies inside its own |
| ObjectType.UntypedNeedsPhysical | src/object/objecttype.c:39-52 | an untyped capability never has the same region as a capability without memory |
| ObjectType.NamedRegionIsIdentity | src/object/objecttype.c:54-133 | for endpoint, notification, CNode, thread, reply, IRQ-handler and scheduling-context capabilities, the region test holds exactly when both capabilities have the same tag and the same identifying fields: pointer, radix for a CNode, size for a scheduling context |
| ObjectType.NamedRegionSymmetric | src/object/objecttype.c:54-133 | between two such capabilities, the region test is symmetric |
| ObjectType.SingletonsCoverTheirTag | src/object/objecttype.c:101-106 | any two domain capabilities, and any two scheduling-control capabilities, cover each other; neither covers a capability of another tag |
| ObjectType.IrqRegions | src/object/objecttype.c:108-122 | the IRQ-control capability covers exactly the IRQ-control and IRQ-handler capabilities; an IRQ-handler capability covers exactly the handler of the same IRQ |
| ObjectType.SameRegionNotSymmetric | src/object/objecttype.c:108-122 | the IRQ-control capability covers a handler, but the handler does not cover it |
| ObjectType.UnhandledTagsCoverNothing | src/object/objecttype.c:141-150 | null and zombie capabilities cover nothing, and an architecture capability covers no generic capability |
| ObjectType.SameObjectAs | src/object/objecttype.c:153-169 | `sameObjectAs`: the untyped and IRQ-control/handler exclusions, the architecture fallback, then `sameRegionAs`; its meaning is stated by `UntypedIsNoObject`, `SameObjectIsRegionOutsideArch`, `SameObjectImpliesSameRegion` and `DifferentTagsNotSameObject` |
| ObjectType.UntypedIsNoObject | src/object/objecttype.c:153-158 | an untyped capability is never the same object as anything, itself included |
| ObjectType.SameObjectIsRegionOutsideArch | src/object/objecttype.c:153-169 | outside the pair-of-architecture-capabilities case, the object test is the region test minus untyped capabilities and minus the IRQ-control/IRQ-handler pair |
| ObjectType.SameObjectImpliesSameRegion | src/object/objecttype.c:153-169 | the object test implies the region test outside the architecture fallback, and everywhere when the architecture's tests have that property |
| ObjectType.DifferentTagsNotSameObject | src/object/objecttype.c:153-169 | a capability with an identifying tag is never the same object as one of a tag without identity |
| ObjectType.CapSizeBits | src/object/objecttype.c:199-263 | `cap_get_capSizeBits`, one case per tag as the source's switch; its value for each tag is stated by `SizeBitsByTag` |
| ObjectType.CapIsPhysical | src/object/objecttype.c:268-319 | `cap_get_capIsPhysical`, one case per tag, deferring to the architecture for its own tags; stated by `PhysicalExactlyWhenAddressed` and `UntypedNeedsPhysical` |
| ObjectType.CapPtr | src/object/objecttype.c:321-374 | `cap_get_capPtr`, one case per tag, with a thread capability rounded down by `AlignDown` to its TCB alignment; stated by `PhysicalExactlyWhenAddressed` and `NullPtrExactlyWhenNotPhysical` |
| ObjectType.SizeBitsByTag | src/object/objecttype.c:199-263 | size bits by tag: 0 for null, domain, IRQ and scheduling-control capabilities; radix plus slot bits for a CNode; TCB bits for a TCB zombie; the encoded CNode radix plus slot bits for another zombie; the stored size for a scheduling context |
| ObjectType.PhysicalExactlyWhenAddressed | src/object/objecttype.c:268-374 | among the generic tags, a capability has no memory exactly when it is a domain, IRQ-control, IRQ-handler or scheduling-control capability; exactly for those tags the pointer is NULL, and every other tag yields its object's base |
| ObjectType.NullPtrExactlyWhenNotPhysical | src/object/objecttype.c:268-374 | when kernel objects never start at address 0, the pointer is NULL exactly when the capability has no memory |
| ReleaseQueue.InsertionPoint | src/object/tcb.c:87-96 | the walk stops after every queued thread released no later than `t`, and before the first thread released after it |
| ReleaseQueue.InsertionPointUnique | src/object/tcb.c:87-96 | the stopping position is the only position with both of those properties |
| ReleaseQueue.InsertionPointSplits | src/object/tcb.c:87-96 | in an ordered queue, the threads before the stopping position are exactly those released no later than `t`, so ties keep their arrival order |
| ReleaseQueue.InsertKeepsSorted | src/object/tcb.c:87-96 | inserting at the stopping position keeps a queue ordered by release time |
| ReleaseQueue.WithoutKeepsSorted | src/object/tcb.c:56-80 | taking a thread out keeps a queue ordered |
| ReleaseQueue.LinkIn | src/object/tcb.c:98-115 | the link writes of an insert: the thread points at its new neighbours and is flagged, the neighbours point back at it, and no other thread changes |
| ReleaseQueue.LinkOut | src/object/tcb.c:60-78 | the link writes of a removal: the neighbours are joined, the thread's links and flag are cleared, and no other thread changes |
| ReleaseQueue.LinkOutOnlyLinks | src/object/tcb.c:60-78 | a removal changes only release-queue links and flags |
| ReleaseQueue.EnqueueKeepsValid | src/object/tcb.c:82-118 | after an insert, the links, the head pointers and the flags still match the abstract queues |
| ReleaseQueue.RemoveStepDefined | src/object/tcb.c:56-80 | a flagged thread is in its core's queue; its links name its neighbours there; it has no previous thread exactly when it is the head |
| ReleaseQueue.RemoveKeepsValid | src/object/tcb.c:56-80 | after a removal, the links, the head pointers and the flags still match the abstract queues |
| ReleaseQueue.EnqueueKeepsSorted | src/object/tcb.c:82-118 | inserting at the stopping position keeps every ordered queue ordered |
| ReleaseQueue.RemoveKeepsSorted | src/object/tcb.c:56-80 | a removal keeps every ordered queue ordered |
| ReleaseQueue.FindReleasePosition | src/object/tcb.c:87-96 | the loop walking the list stops between the threads on either side of the insertion point of the abstract queue |
| ReleaseQueue.TcbReleaseEnqueue | src/object/tcb.c:82-118 | requires a thread in neither the release queue nor a run queue. `t`'s core queue gains `t` at the insertion point; the links become consistent and `t` is flagged; `ksReprogram` of that core is set exactly when `t` becomes the head; ordered queues stay ordered |
| ReleaseQueue.TcbReleaseRemove | src/object/tcb.c:56-80 | nothing changes when the flag is clear. Otherwise the queue loses the thread with the rest kept in order; its links and flag are cleared; `ksReprogram` is set exactly when it was the head; validity and order are kept |
| ReleaseQueue.TcbReleaseDequeue | src/object/tcb.c:120-144 | the head is returned and has no previous thread and this core's affinity. The queue loses its head, whose successor becomes the new head; the returned thread is unlinked and unflagged; `ksReprogram` is set |
| Thread.NotFlaggedNotQueued | src/object/tcb.c:84 | a thread whose release-queue flag is clear is in no core's release queue |
| Thread.ReleaseHeadFacts | src/kernel/thread.c:77-79 | a non-NULL release head is the first element of its core's queue, and its context has refills |
| Structures.SchedDequeueTcb | src/kernel/thread.c:61 | `tcbSchedDequeue`: clears the thread's run-queue flag and records the call; no other thread or field changes |
| Structures.SchedQueueTcb | src/fastpath/fastpath.c:181-186 | `SCHED_ENQUEUE` and `SCHED_APPEND`: set the thread's run-queue flag and record which of the two was called; no other thread or field changes |
| Thread.SwitchSchedContext | src/kernel/thread.c:32-54 | `ksCurSC` becomes the current thread's context, and `ksReprogram` is set if that context differs from the old one. The refills of a new constant-bandwidth (non-sporadic) context are unblock-checked; `commitTime` runs exactly when `ksReprogram` ends up set |
| Thread.PostponedFacts | src/kernel/thread.c:59-64 | after postponing, the context's thread is off the run queue, flagged and in its core's release queue; `ksReprogram` on the context's core is set; validity and order are kept |
| Thread.Postpone | src/kernel/thread.c:59-64 | dequeue the thread from the run queue, then release-enqueue it at its insertion point, then set `ksReprogram`, with exactly one run-queue call recorded |
| Thread.TimesliceEndBranch | src/kernel/thread.c:112-131 | the branch `endTimeslice` takes, tested in the source's order; stated by `TimesliceEndPriorities` and performed by `EndTimeslice` |
| Thread.TimesliceEndPriorities | src/kernel/thread.c:112-131 | exactly one branch is taken, in priority order: a timeout fault when allowed, the context is not round-robin and the handler is valid; otherwise an append when the context is ready and sufficient; otherwise postponing |
| Thread.TimesliceEndedFacts | src/kernel/thread.c:112-131 | every branch of `endTimeslice` keeps the release queues valid and every ordered queue ordered |
| Thread.TimesliceEndedFrame | src/kernel/thread.c:112-131 | `endTimeslice` changes only the release heads and `ksReprogram` of the per-core state |
| Thread.EndTimeslice | src/kernel/thread.c:112-131 | performs the branch `TimesliceEndBranch` picks: fault and `handleTimeout`; `SCHED_APPEND`; or `postpone` |
| Thread.RoundRobinMerge | src/kernel/thread.c:88-93 | for a round-robin context with exactly `MIN_REFILLS` refills, the head amount becomes the total and the tail amount becomes 0; the total and both release times are kept |
| Thread.ChargedSc | src/kernel/thread.c:86-101 | charging keeps every other field, adds exactly `consumed` to `scConsumed`, and leaves a head refill of at least `MIN_BUDGET`. Round-robin keeps the total with a tail of 0; otherwise the result is `refill_budget_check` |
| Thread.ChargedScs | src/kernel/thread.c:86-101 | only the current context is charged; the idle context and every other context are unchanged |
| Thread.ChargedScsKeepRefills | src/kernel/thread.c:86-101 | charging keeps every context's `scRefillMax`, and every context that had refills still has them |
| Thread.ChargeKeepsValid | src/kernel/thread.c:84-110 | charging and clearing `ksConsumed` keeps the release queues valid |
| Thread.BudgetChargedFacts | src/kernel/thread.c:84-110 | after `chargeBudget`, the release queues are valid and every queue ordered under the charged contexts stays ordered |
| Thread.ChargeBudget | src/kernel/thread.c:84-110 | charges the current non-idle context; sets `ksConsumed` to 0; whenever the current thread is schedulable, ends its timeslice (by the branch `TimesliceEndBranch` picks), requires a reschedule and sets `ksReprogram` |
| Thread.EarliestEvent | src/kernel/thread.c:66-82 | the chosen deadline is at most the budget end, the domain end when there is one, and the next release when there is one, and it is one of them |
| Thread.SetNextInterrupt | src/kernel/thread.c:66-82 | the programmed deadline is the earliest of these, minus the timer precision, modulo 2^64: `curTime` plus the head refill amount; `curTime` plus `ksDomainTime` when there is more than one domain; the release head's release time when there is a head |
| Thread.SwitchCalls | src/kernel/thread.c:142-153 | one `possibleSwitchTo` per woken thread, in the order they were woken |
| Thread.DrainKeepsSorted | src/kernel/thread.c:140-157 | dropping a prefix of a queue and changing only links keeps every ordered queue ordered |
| Thread.WakeReleaseHead | src/kernel/thread.c:144-155 | one round wakes the queue's head: it leaves the queue, `ksReprogram` is set, `possibleSwitchTo` is recorded for it, and the queues stay valid |
| Thread.DrainedStep | src/kernel/thread.c:140-157 | after one more round, the threads woken so far are still exactly a prefix of the original queue, each ready and handed over in queue order |
| Thread.WokenChecks | src/kernel/thread.c:144-152 | a thread the loop wakes (its head refill is ready) is never the current thread, because the current thread, if it waits in the queue, is not ready; its context is not round-robin and it has sufficient budget |
| Thread.AwakenRound | src/kernel/thread.c:142-156 | one round of the drain loop, also when the current thread waits in the queue unready: the prefix property is kept, the queue shrinks and the woken thread is not the current thread |
| Thread.Awaken | src/kernel/thread.c:140-157 | also when the current thread waits in the release queue with an unready context (after `postpone` in `endTimeslice`): the woken threads are a prefix of the release queue, each with a ready context, handed to `possibleSwitchTo` in queue order. On exit the queue is empty or its head is not ready; the current thread was not woken; the queues stay valid |
| TcbInvocation.ValidFaultHandler | src/object/tcb.c:545-566 | `validFaultHandler`, as the source's switch, returning as the failure the error type the source records; its accepted set is stated by `ValidFaultHandlerExactly` |
| TcbInvocation.ValidFaultHandlerExactly | src/object/tcb.c:545-566 | a handler is accepted exactly when it is the null capability or an endpoint with send right and grant or grant-reply right; every rejection is `seL4_InvalidCapability` |
| TcbInvocation.AsWrittenReportsStaleError | src/object/tcb.c:574-578 | as written, a missing extra capability reports whatever error was left over, even "no error" |
| TcbInvocation.SetTimeoutEndpointChecksCorrect | src/object/tcb.c:572-590 | a missing capability is a truncated message; an unusable handler is an invalid capability at extra-capability position 1; a usable one goes through; there is a difference from the code as written only for a missing capability |
| TcbInvocation.DecodeSetTimeoutEndpoint | src/object/tcb.c:572-600 | uses the corrected missing-capability check of the Findings row, so a missing extra capability records `seL4_TruncatedMessage`, which tcb.c:574-578 as written never sets. A rejection records the error and changes nothing else. Otherwise the caller is set to restart and the timeout handler is installed, whose result is returned |
| TcbInvocation.CapInstalls | src/object/tcb.c:629-660 | the installs asked for: the fault handler exactly when its flag is set, the timeout handler likewise, the CSpace and VSpace roots together |
| TcbInvocation.InstallsUntilFailureInOrder | src/object/tcb.c:629-660 | the installs run in the order asked, each recorded, up to and including the first failure |
| TcbInvocation.InstallsUntilFailureSucceeds | src/object/tcb.c:629-660 | the installs succeed exactly when each one does |
| TcbInvocation.InstallsUntilFailureReportsFirst | src/object/tcb.c:629-660 | a failure reported is the first failing install's result, and nothing after it runs |
| TcbInvocation.InstallsUntilFailureAppend | src/object/tcb.c:629-660 | running two batches in turn equals running them as one, and the second batch runs only when the first succeeded |
| TcbInvocation.InstallCaps | src/object/tcb.c:629-660 | the install sequence of the method is the one `InstallsUntilFailure` defines |
| TcbInvocation.BufferCalls | src/object/tcb.c:662-683 | the old buffer capability is deleted first. The new one is inserted exactly when it and the TCB capability are still in their source slots; a reschedule is asked exactly for the running thread |
| TcbInvocation.InvokeThreadControlCaps | src/object/tcb.c:617-687 | returns the first failing install untouched. Otherwise a buffer update deletes the old buffer capability, failing with its result, then sets the buffer address and makes the buffer calls |
| TcbInvocation.ScDecision | src/object/tcb.c:719-729 | the bind, unbind or keep choice of the context update, tested in the source's order; stated by `ScDecisionCases` and `BoundAfterIsRequested` |
| TcbInvocation.ScDecisionCases | src/object/tcb.c:719-729 | the context update binds exactly when the new context is non-NULL and differs from the current one; it unbinds exactly when the new one is NULL and a current one exists; otherwise it keeps the binding |
| TcbInvocation.BoundAfterIsRequested | src/object/tcb.c:719-729 | afterwards the thread is bound to exactly the requested context |
| TcbInvocation.InvokeThreadControlSched | src/object/tcb.c:693-732 | a failed fault-handler install returns before the MCP, the priority or the context is touched. Otherwise each of them is set as its flag asks, with the calls in source order. A new binding requires, as `schedContext_bindTCB` asserts, that the context and the thread are both unbound |
| TcbInvocation.UpdateBinding | src/object/tcb.c:719-729 | binding a different context links both sides (both must be unbound before, as `schedContext_bindTCB` asserts); unbinding clears both; otherwise nothing changes |
| Fastpath.SignalPlanOf | src/fastpath/fastpath.c:34-147 | the path `fastpath_signal` takes before its point of no return, guard by guard; a non-slowpath plan needs a notification capability, and the guards are stated by `SignalEarlyGuards` and `SignalWakeGuards` |
| Fastpath.SignalEarlyGuards | src/fastpath/fastpath.c:44-96 | a saved fault, a non-notification capability, a cap lacking send rights or an expired domain goes to the slowpath. Otherwise an active notification merges the badge, and an idle one without a bound receiver becomes active |
| Fastpath.SignalWakeGuards | src/fastpath/fastpath.c:100-147 | a waiting or bound receiver is woken exactly when it has a context or can be lent the notification's free one, the current thread on that context's core has at least its priority, and a budgeted context is ready and sufficient; otherwise the signal goes to the slowpath |
| Fastpath.SetActive | src/fastpath/fastpath.c:79-96 | the notification becomes active with the given message, and its queue, bound thread and context are kept |
| Fastpath.NtfnDequeued | src/fastpath/fastpath.c:154-160 | the woken thread leaves the wait queue, which becomes idle when it is emptied |
| Fastpath.DequeueHead | src/fastpath/fastpath.c:154-160 | waking the head of a wait queue leaves the rest in order; the notification is idle afterwards exactly when the head was its only waiter |
| Fastpath.WakeBindsBothWays | src/fastpath/fastpath.c:161-176 | the woken thread runs, holds the badge and is bound to the context; a context it was lent records it in turn; nothing else changes |
| Fastpath.WakeCallsChoice | src/fastpath/fastpath.c:154-187 | the bound receiver's IPC is cancelled exactly when it was woken; refills are unblocked exactly for a non-current sporadic context; a schedulable thread is made ready once, at the head when the current priority is higher or the signal is cross-node, at the tail otherwise |
| Fastpath.FastpathSignal | src/fastpath/fastpath.c:34-190 | the path is `SignalPlanOf` the state before. The slowpath changes nothing; merge and activation change only the notification; a wake dequeues, wakes, binds, sets the woken thread's `tcbQueued` flag exactly when it is schedulable, and makes the calls above |
| Fastpath.ReadiedTcbs | src/fastpath/fastpath.c:181-187 | `SCHED_ENQUEUE`/`SCHED_APPEND` of a schedulable woken thread sets its run-queue flag; no other field and no other thread changes |
| Fastpath.EpDequeued | src/fastpath/fastpath.c:320-325 | the endpoint's head becomes the old head's successor; with no successor the endpoint becomes idle with no tail |
| Fastpath.VmFaultTcbs | src/fastpath/fastpath.c:313-369 | the caller holds the fault and is blocked on the reply without a context. The handler runs with the caller's context and no reply object; the next waiter loses its back link; no other thread changes |
| Fastpath.PushedReplies | src/fastpath/fastpath.c:330-348 | the reply records the caller, links back to the old top of the context's call stack and forward to the context; the old top links forward to the reply |
| Fastpath.VmFaultCommits | src/fastpath/fastpath.c:196-301 | the guards of `fastpath_vm_fault` before its point of no return, each a slowpath exit in the source; `FastpathVmFault` delivers exactly when it holds |
| Fastpath.FastpathVmFault | src/fastpath/fastpath.c:196-374 | any failing guard goes to the slowpath with nothing changed. Otherwise the changes are: the endpoint dequeue; the thread writes; the context moving to the handler with the reply on its call stack; the switch to the handler; the endpoint badge delivered |
| Fastpath.VmFaultPushesCallStack | src/fastpath/fastpath.c:330-348 | the commit binds the context to the handler both ways. The reply becomes the context's top, with the context as its head marker and the previous top behind it; the reply and the blocked caller name each other |
| Notification.DonationCalls | src/object/notification.c:29-38 | a donation makes exactly one `schedContext_donate` call, and only when the thread has no context and the notification's context is free |
| Notification.AlreadyBoundUnchanged | src/object/notification.c:31 | a thread that already has a context is left alone and no call is made |
| Notification.DonationBindsBothWays | src/object/notification.c:32-36 | a donation binds the thread to the context and the context to the thread |
| Notification.DonationIdempotent | src/object/notification.c:29-38 | a second donation attempt changes nothing and makes no call |
| Notification.SchedContextResume | src/object/notification.c:35 | `schedContext_resume` postpones the context exactly when its thread is schedulable and the head refill is not ready or not sufficient, and otherwise changes nothing |
| Notification.DonationKeepsReleaseQueues | src/object/notification.c:29-38 | the donation keeps the release queues valid and ordered queues ordered, and leaves a state where any postpone resume asks for is possible |
| Notification.MaybeDonateSchedContext | src/object/notification.c:29-38 | lends the notification's context exactly when the thread has none and the context is free, then resumes it: a schedulable thread whose lent context is not ready or not sufficient is postponed into its release queue. The release queues stay valid and ordered ones ordered |
| Notification.McsDoIfSc | src/object/notification.c:43-47 | donation and resume come first, and the block runs exactly when the thread is schedulable afterwards: never when resume postponed the lent context, and otherwise exactly when the thread is schedulable with the context lent |
| Notification.DonationEnablesBlock | src/object/notification.c:43-47 | a runnable thread without a context, signalled through a notification whose configured context is free and ready with sufficient budget, is not postponed and runs the block |
| Notification.UnreadyDonationPostpones | src/object/notification.c:33-47 | the same thread, when the lent context is not ready or not sufficient, is postponed by resume and so skips the block |
| Notification.NoFreeContextSkipsBlock | src/object/notification.c:43-47 | a thread without a context skips the block when there is no free context to lend |
| Notification.BoundThreadDecidesAlone | src/object/notification.c:43-47 | for a thread with a context, the block runs exactly when it was schedulable before |
| Notification.ReorderNtfn | src/object/notification.c:57-63 | the thread becomes the queue's last element, with length, members and duplicate-freedom kept and the others in their order |
| Queues.Without | src/object/notification.c:59 | `tcbEPDequeue` on the abstract queue: the result holds exactly the members other than the removed thread and is no longer than the queue |
| Queues.Reordered | src/object/notification.c:57-63 | `tcbEPDequeue` then `tcbEPAppend`; stated by `ReorderedMovesToTail`, `ReorderedSameMembers` and `ReorderTailIsIdentity` |
| Queues.ReorderedMovesToTail | src/object/notification.c:57-63 | moving a member to the tail keeps the members and the length, makes it last, and keeps the others in their relative order |
| Queues.ReorderedSameMembers | src/object/notification.c:57-63 | the multiset of members is unchanged |
| Queues.ReorderTailIsIdentity | src/object/notification.c:57-63 | reordering the thread already at the tail leaves the queue unchanged |
| Syscall.ReplyLookup | src/api/syscall.c:235-257 | a failed lookup keeps its status; a capability other than a reply capability turns it into `EXCEPTION_FAULT`; a reply capability comes back unchanged; the capability is always the one found |
| Syscall.LookupReply | src/api/syscall.c:235-257 | either failure raises a capability fault on the reply register in the receive phase and calls `handleFault`; success changes nothing |
| Syscall.SettlementOf | src/api/syscall.c:265-288 | exactly one settlement is chosen: budget check when schedulable; a charge when not schedulable and the context is configured; otherwise dropping |
| Syscall.McsPreemptionPoint | src/api/syscall.c:265-288 | a budget check changes nothing but records `checkBudget`; the charge is `chargeBudget(ksConsumed, false)`; otherwise only `ksConsumed` is cleared; the release queues stay valid |

## Left out

- Kernel helpers whose bodies are not part of this model are recorded in the log, with no effect on state or only the effect listed above. These are:
  - the refill helpers `refill_*`, `commitTime` and `checkBudget`;
  - `handleFault` and `handleTimeout`;
  - `possibleSwitchTo`;
  - the `SCHED_*` run-queue macros, where only the `tcbQueued` flag is modelled;
  - `schedContext_donate/bind/unbind`;
  - `cancelIPC`;
  - `switchToThread_fp`;
  - `installTCBCap`, `cteDelete` and `cteInsert`;
  - `setMCPriority` and `setPriority`, whose field writes are modelled.
- TcbInvocation.DecodeSetTimeoutEndpoint: `setThreadState(ksCurThread, Restart)` (tcb.c:591) is modelled as its `tsType` write alone and is not recorded in the log. The `scheduleTCB` it calls is left out: that call only asks for a reschedule when the current thread is not schedulable, and the model does not track the scheduler action.
- `src/object/schedcontext.c` is not part of this model. `Notification.SchedContextResume` follows seL4's `schedContext_resume`: for a context whose thread is schedulable, a head refill that is not ready or not sufficient leads to `postpone`. The donation's effect is limited to the two binding fields. The SMP build's `migrateTCB` inside `schedContext_donate` is not modelled, so a lent thread keeps its affinity.
- The refill predicates and the refill budget check are uninterpreted parameters (`RefillOps`). `RefillOps.budgetCheck` is assumed to return a refill list whose head amount is at least `MIN_BUDGET`. `chargeBudget` asserts this in the source.
- `lookup_fp`, `lookupCap`, `isCurDomainExpired`, `isValidVTableRoot_fp`, `isHighestPrio` and the architecture capability classifiers are parameters, not modelled.
- These bodies are not part of this model, so their effect is given by definition:
  - `tcbEPDequeue` and `tcbEPAppend` on a notification queue are `Queues.Without` and an append on an abstract sequence;
  - `ntfn_queue_dequeue_fp`, `maybeDonateSchedContext_fp` and `ntfn_set_active` are `Fastpath.NtfnDequeued`, `Fastpath.WakeThread` and `Fastpath.SetActive`.
- The run-queue links are left out: only the `tcbQueued` flag is modelled.
- Message registers, the message-info word and `restore_user_context` are left out.
- The AArch64 ASID/VMID checks of the fastpath are left out.
- Fastpath.SignalPlanOf: the SMP build's check that a thread about to be lent a context holds no FPU state on another core (`nativeThreadUsingFPU`) is left out, because FPU ownership is not part of this model.
- The SMP affinity check of `fastpath_vm_fault` is modelled as if SMP support were enabled.
- Benchmark counters and `printf` are instrumentation and are left out.
- The C `assert`s of the core are handled three ways. Some are preconditions: the refill-count and budget asserts of `chargeBudget` (`CanCharge`), its check that the current thread holds `ksCurSC` (`CanChargeBudget`), the `!queued` assert of `endTimeslice`'s round-robin branch (`CanEndTimeslice`), and the round-robin and budget facts about released threads in `awaken` (`Wakeable`). Some are proved: the head's missing back link and its affinity in `tcbReleaseDequeue`, the sufficiency assert of `endTimeslice`'s round-robin branch (its guard), and `awaken`'s check that it never wakes the current thread. That last one follows from the loop guard (the head is ready) and from `Awaken`'s requirement that the current thread, when it waits in the release queue after `postpone` of its own context, is not ready. Some are left out. One is `fastpath_signal`'s assert that a sporadic woken context is not `ksCurSC` (fastpath.c:172): only the `if` on the same condition is modelled, and `FastpathSignal` does not require it. The others are the readiness asserts of `switchSchedContext` after `refill_unblock_check`: they constrain refill helpers that are not part of this model, and `SwitchSchedContext` does not require them.
- Time is an unbounded `nat`: 64-bit overflow of `curTime + amount` in `setNextInterrupt` is not modelled. The final subtraction of the timer precision is modelled modulo 2^64.
- The capability size constants (`seL4_SlotBits`, `seL4_TCBBits`, the word size) come from the seL4 headers for 64-bit RISC-V, which are not part of this model.
- Left out as multicore or debug behaviour: `remoteQueueUpdate`, `remoteTCBStall`, the hardware-debug breakpoint decoders, `handleUnknownSyscall`, and the boot, VSpace, SMP and interrupt files.
- Thread.BudgetChargedFacts: order is stated for the contexts as charged, not as before the charge. `refill_budget_check` is uninterpreted and may move the current context's head release time.
- Fastpath.VmFaultTcbs: the handler keeps its stale `tcbEPNext`/`tcbEPPrev` values, as the C leaves them. Only the next waiter's back link is cleared.
- Fastpath.FastpathSignal: the cross-node test is the one the source computes, comparing domains or the context's core. Inter-processor interrupts are not modelled.

## Findings

| source | as written | input that shows it | evidently intended | confidence | as-written member | corrected member |
|---|---|---|---|---|---|---|
| src/object/tcb.c:574-578 | with no extra capability, `decodeSetTimeoutEndpoint` returns `EXCEPTION_SYSCALL_ERROR` without setting `current_syscall_error.type`, so the caller sees whatever error was last recorded | no extra capability while `current_syscall_error` still holds `seL4_NoError` or an earlier `seL4_RangeError` | set the error type to `seL4_TruncatedMessage` before returning | not executed | TcbInvocation.AsWrittenReportsStaleError | TcbInvocation.SetTimeoutEndpointChecksCorrect |
