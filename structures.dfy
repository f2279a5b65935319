/** Kernel objects and kernel state of the budgeted (MCS) kernel. Objects
    live in arenas indexed by pointer; pointer 0 is `NULL` and the slot at
    index 0 of every arena is never a valid object. Per-core state
    (`NODE_STATE_ON_CORE`) is one `Node` per core. */
module Structures {
  import opened Words
  import opened ObjectType

  /** `MIN_REFILLS`: a round-robin scheduling context has exactly this many refills. */
  const MIN_REFILLS: nat := 2

  datatype ThreadStateType =
    | Inactive | Running | Restart | BlockedOnReceive | BlockedOnSend
    | BlockedOnReply | BlockedOnNotification | IdleThreadState

  /** `seL4_Fault_t`, reduced to the faults this core raises or inspects. */
  datatype Fault =
    | NullFault
    | CapFault(address: Word, inReceivePhase: bool)
    | TimeoutFault(badge: Word)
    | VMFault(vmFaultType: nat)

  datatype SyscallErrorType =
    | NoError | InvalidArgument | InvalidCapability | IllegalOperation | RangeError
    | AlignmentError | FailedLookup | TruncatedMessage | DeleteFirst | RevokeFirst
    | NotEnoughMemory

  /** `current_syscall_error`. */
  datatype SyscallError = SyscallError(errorType: SyscallErrorType, invalidCapNumber: nat)

  /** `exception_t`. */
  datatype Exception =
    | ExceptionNone | ExceptionFault | ExceptionLookupFault | ExceptionSyscallError | ExceptionPreempted

  /** One refill of a scheduling context: `rAmount` ticks available from `rTime`. */
  datatype Refill = Refill(rTime: nat, rAmount: nat)

  /** The capability slots of a TCB's CNode that this core reads. */
  datatype TcbSlot = CTableSlot | VTableSlot | BufferSlot | FaultHandlerSlot | TimeoutHandlerSlot

  /** `tcb_t`: the thread-state word (type, reply object and the queue flags),
      both sets of queue links, the bound scheduling context, the scheduling
      parameters, the saved fault, the badge register, the IPC buffer address
      and the capability slots of the TCB. */
  datatype Tcb = Tcb(
    tsType: ThreadStateType,
    replyObject: Ptr,
    inReleaseQueue: bool,
    queued: bool,
    schedNext: Ptr,
    schedPrev: Ptr,
    epNext: Ptr,
    epPrev: Ptr,
    sc: Ptr,
    priority: nat,
    mcp: nat,
    domain: nat,
    affinity: nat,
    fault: Fault,
    badgeRegister: Word,
    ipcBuffer: Word,
    cTable: Cap,
    vTable: Cap,
    faultHandler: Cap,
    timeoutHandler: Cap)

  /** `sched_context_t`. `sporadic` is `scSporadic`; `reply` is the top of
      the call stack (`scReply`); `tcb` the bound thread (`scTcb`). */
  datatype Sched = Sched(
    refills: seq<Refill>,
    refillMax: nat,
    period: nat,
    consumed: nat,
    core: nat,
    tcb: Ptr,
    reply: Ptr,
    badge: Word,
    sporadic: bool)

  datatype NtfnState = NtfnIdle | NtfnWaiting | NtfnActive

  /** `notification_t`; the wait queue is kept as the sequence of waiting threads. */
  datatype Ntfn = Ntfn(state: NtfnState, queue: seq<Ptr>, msgIdentifier: Word, boundTcb: Ptr, sc: Ptr)

  datatype EpState = EpIdle | EpSend | EpRecv

  /** `endpoint_t`: state and the head and tail of its queue, which is linked
      through `tcbEPNext`/`tcbEPPrev`. */
  datatype Ep = Ep(state: EpState, head: Ptr, tail: Ptr)

  /** `call_stack_t`: a pointer, and whether it points to the scheduling
      context at the head of the stack rather than to another reply. */
  datatype CallStack = CallStack(ptr: Ptr, isHead: bool)

  /** `reply_t`. */
  datatype Reply = Reply(tcb: Ptr, prev: CallStack, next: CallStack)

  /** The per-core scheduler state. */
  datatype Node = Node(
    curThread: Ptr,
    idleThread: Ptr,
    curSC: Ptr,
    idleSC: Ptr,
    releaseHead: Ptr,
    reprogram: bool,
    consumed: nat,
    curTime: nat)

  /** Calls into kernel code outside this model, recorded in order. */
  datatype Call =
    | PossibleSwitchTo(thread: Ptr)
    | SchedEnqueue(thread: Ptr)
    | SchedAppend(thread: Ptr)
    | SchedDequeue(thread: Ptr)
    | RescheduleRequired
    | HandleTimeout(thread: Ptr)
    | HandleFault(thread: Ptr)
    | CheckBudget
    | CommitTime
    | RefillUnblockCheck(sc: Ptr)
    | Donate(sc: Ptr, thread: Ptr)
    | BindTcb(sc: Ptr, thread: Ptr)
    | UnbindTcb(sc: Ptr, thread: Ptr)
    | SetMCPriority(thread: Ptr, prio: nat)
    | SetPriority(thread: Ptr, prio: nat)
    | InstallTcbCap(thread: Ptr, slot: TcbSlot, cap: Cap)
    | CteDelete(thread: Ptr, slot: TcbSlot)
    | CteInsert(cap: Cap, thread: Ptr, slot: TcbSlot)
    | CancelIpc(thread: Ptr)
    | SwitchToThread(thread: Ptr)

  /** The refill helpers, whose bodies are not part of this model:
      `refill_ready`, `refill_sufficient(sc, 0)`, the refills that
      `refill_budget_check` and `refill_unblock_check` leave, `MIN_BUDGET`
      and `getTimerPrecision()`. */
  datatype RefillOps = RefillOps(
    ready: Sched -> bool,
    sufficient: Sched -> bool,
    budgetCheck: (Sched, nat) -> seq<Refill>,
    unblockCheck: Sched -> seq<Refill>,
    minBudget: nat,
    timerPrecision: nat)

  /** The whole kernel state the modelled code reads or writes. */
  class Kernel {
    var tcbs: seq<Tcb>
    var scs: seq<Sched>
    var ntfns: seq<Ntfn>
    var eps: seq<Ep>
    var replies: seq<Reply>
    var nodes: seq<Node>
    var curDomain: nat
    var domainTime: nat
    var numDomains: nat
    var currentFault: Fault
    var currentSyscallError: SyscallError
    var log: seq<Call>
    /** The release queue of each core, in order from `ksReleaseHead`. */
    ghost var releaseQueues: seq<seq<Ptr>>

    constructor (tcbs: seq<Tcb>, scs: seq<Sched>, ntfns: seq<Ntfn>, eps: seq<Ep>,
                 replies: seq<Reply>, nodes: seq<Node>, numDomains: nat)
      requires forall c :: 0 <= c < |nodes| ==> nodes[c].releaseHead == NULL
      requires forall t :: 0 <= t < |tcbs| ==> !tcbs[t].inReleaseQueue
      ensures this.tcbs == tcbs && this.scs == scs && this.ntfns == ntfns && this.eps == eps
      ensures this.replies == replies && this.nodes == nodes && this.numDomains == numDomains
      ensures curDomain == 0 && domainTime == 0 && log == []
      ensures currentFault == NullFault && currentSyscallError == SyscallError(NoError, 0)
      ensures releaseQueues == seq(|nodes|, _ => [])
      ensures ReleaseQueuesValid(this.tcbs, this.scs, this.nodes, releaseQueues)
    {
      this.tcbs, this.scs, this.ntfns, this.eps := tcbs, scs, ntfns, eps;
      this.replies, this.nodes, this.numDomains := replies, nodes, numDomains;
      curDomain, domainTime, log := 0, 0, [];
      currentFault, currentSyscallError := NullFault, SyscallError(NoError, 0);
      releaseQueues := seq(|nodes|, _ => []);
    }
  }

  // ---------------------------------------------------------------------
  // Pointers and simple properties

  predicate ValidTcb(tcbs: seq<Tcb>, t: Ptr)
  {
    0 < t < |tcbs|
  }

  predicate ValidSc(scs: seq<Sched>, s: Ptr)
  {
    0 < s < |scs|
  }

  /** A thread with a bound scheduling context that has a head refill. */
  predicate HasRefills(tcbs: seq<Tcb>, scs: seq<Sched>, t: Ptr)
  {
    ValidTcb(tcbs, t) && ValidSc(scs, tcbs[t].sc) && |scs[tcbs[t].sc].refills| > 0
  }

  /** `isRoundRobin`: a scheduling context with a period of 0. */
  predicate IsRoundRobin(sc: Sched)
  {
    sc.period == 0
  }

  /** `isRunnable`. */
  predicate IsRunnable(t: Tcb)
  {
    t.tsType == Running || t.tsType == Restart
  }

  /** `isSchedulable`: runnable, with a configured scheduling context, and not
      waiting in the release queue for its next refill. */
  predicate IsSchedulable(tcbs: seq<Tcb>, scs: seq<Sched>, t: Ptr)
  {
    ValidTcb(tcbs, t) && IsRunnable(tcbs[t]) && tcbs[t].sc != NULL
    && ValidSc(scs, tcbs[t].sc) && scs[tcbs[t].sc].refillMax > 0 && !tcbs[t].inReleaseQueue
  }

  /** `validTimeoutHandler`: the thread's timeout-handler slot holds an endpoint capability. */
  predicate ValidTimeoutHandler(t: Tcb)
  {
    t.timeoutHandler.EndpointCap?
  }

  /** The head refill's release time, or 0 for a thread without refills. */
  function RTime(tcbs: seq<Tcb>, scs: seq<Sched>, t: Ptr): nat
  {
    if HasRefills(tcbs, scs, t) then scs[tcbs[t].sc].refills[0].rTime else 0
  }

  // ---------------------------------------------------------------------
  // The release queues

  /** `q` is the list threaded through `tcbSchedNext`/`tcbSchedPrev` from `head`:
      distinct valid threads, `head` its first element (NULL when empty), each
      thread's next and previous links its neighbours or NULL at the ends. */
  ghost predicate Linked(q: seq<Ptr>, head: Ptr, tcbs: seq<Tcb>)
  {
    (forall i :: 0 <= i < |q| ==> ValidTcb(tcbs, q[i]))
    && (forall i, j :: 0 <= i < j < |q| ==> q[i] != q[j])
    && head == (if |q| == 0 then NULL else q[0])
    && (forall i :: 0 <= i < |q| ==> tcbs[q[i]].schedNext == if i + 1 < |q| then q[i + 1] else NULL)
    && (forall i :: 0 <= i < |q| ==> tcbs[q[i]].schedPrev == if i == 0 then NULL else q[i - 1])
  }

  /** The release queues of all cores: one per core, each linked from that
      core's `ksReleaseHead`; every member has this core as its affinity and a
      scheduling context with a head refill; and a thread's
      `tcbInReleaseQueue` flag is set exactly when it is in the queue of its core. */
  ghost predicate ReleaseQueuesValid(tcbs: seq<Tcb>, scs: seq<Sched>, nodes: seq<Node>, Q: seq<seq<Ptr>>)
  {
    |Q| == |nodes|
    && (forall c :: 0 <= c < |Q| ==> Linked(Q[c], nodes[c].releaseHead, tcbs))
    && (forall c, i :: 0 <= c < |Q| && 0 <= i < |Q[c]| ==>
          tcbs[Q[c][i]].affinity == c && HasRefills(tcbs, scs, Q[c][i]))
    && (forall t :: 0 < t < |tcbs| ==>
          (tcbs[t].inReleaseQueue <==> tcbs[t].affinity < |Q| && t in Q[tcbs[t].affinity]))
  }

  /** A release queue ordered by head-refill release time. */
  ghost predicate ReleaseSorted(tcbs: seq<Tcb>, scs: seq<Sched>, q: seq<Ptr>)
  {
    forall i, j :: 0 <= i < j < |q| ==> RTime(tcbs, scs, q[i]) <= RTime(tcbs, scs, q[j])
  }

  // ---------------------------------------------------------------------
  // Effects of the scheduler-queue helpers on the thread-state flags

  /** `tcbSchedDequeue`: clears the thread's run-queue flag. */
  method SchedDequeueTcb(k: Kernel, t: Ptr)
    requires ValidTcb(k.tcbs, t)
    modifies k`tcbs, k`log
    ensures k.tcbs == old(k.tcbs)[t := old(k.tcbs)[t].(queued := false)]
    ensures k.log == old(k.log) + [SchedDequeue(t)]
  {
    k.tcbs := k.tcbs[t := k.tcbs[t].(queued := false)];
    k.log := k.log + [SchedDequeue(t)];
  }

  /** `SCHED_APPEND` / `SCHED_ENQUEUE`: sets the thread's run-queue flag. */
  method SchedQueueTcb(k: Kernel, t: Ptr, atHead: bool)
    requires ValidTcb(k.tcbs, t)
    modifies k`tcbs, k`log
    ensures k.tcbs == old(k.tcbs)[t := old(k.tcbs)[t].(queued := true)]
    ensures k.log == old(k.log) + [if atHead then SchedEnqueue(t) else SchedAppend(t)]
  {
    k.tcbs := k.tcbs[t := k.tcbs[t].(queued := true)];
    k.log := k.log + [if atHead then SchedEnqueue(t) else SchedAppend(t)];
  }
}
