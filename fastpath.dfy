/** The two fastpaths of the budgeted kernel: signalling a notification and
    delivering a virtual-memory fault to the faulting thread's handler.
    Each runs a chain of guards, any of which hands the request to the
    slowpath before anything is written, then commits a fixed sequence of
    writes. */
module Fastpath {
  import opened Words
  import opened ObjectType
  import opened Structures
  import opened Queues

  // ---------------------------------------------------------------------
  // fastpath_signal

  /** A notification whose pointers can be followed: its bound thread and
      context are `NULL` or exist, and a waiting notification has a queue. */
  predicate NtfnWellFormed(tcbs: seq<Tcb>, scs: seq<Sched>, ntfn: Ntfn)
  {
    (ntfn.boundTcb == NULL || ValidTcb(tcbs, ntfn.boundTcb))
    && (ntfn.sc == NULL || ValidSc(scs, ntfn.sc))
    && (ntfn.state == NtfnWaiting ==> |ntfn.queue| > 0)
    && (forall i :: 0 <= i < |ntfn.queue| ==> ValidTcb(tcbs, ntfn.queue[i]))
  }

  /** The kernel invariants `fastpath_signal` dereferences under. */
  predicate SignalWellFormed(tcbs: seq<Tcb>, scs: seq<Sched>, ntfns: seq<Ntfn>, nodes: seq<Node>)
  {
    (forall t :: 0 < t < |tcbs| ==> tcbs[t].sc == NULL || ValidSc(scs, tcbs[t].sc))
    && (forall s :: 0 < s < |scs| ==> scs[s].core < |nodes|)
    && (forall c :: 0 <= c < |nodes| ==> ValidTcb(tcbs, nodes[c].curThread))
    && (forall n :: 0 < n < |ntfns| ==> NtfnWellFormed(tcbs, scs, ntfns[n]))
  }

  /** How `fastpath_signal` ends: on the slowpath; by merging the badge into
      an active notification; by making an idle notification active; or by
      waking `dest`, on the context `sc`. `idle` says the thread was the
      bound receiver of an idle notification rather than the head of its
      wait queue; `schedulable` and `crossnode` are the flags the code
      computes before its point of no return. */
  datatype SignalPlan =
    | PlanSlowpath
    | PlanMerge(msg: Word)
    | PlanActivate
    | PlanWake(dest: Ptr, sc: Ptr, idle: bool, schedulable: bool, crossnode: bool)

  /** The path `fastpath_signal` takes on the looked-up capability `cap`.
      `domainExpired` is `isCurDomainExpired()`. */
  function SignalPlanOf(tcbs: seq<Tcb>, scs: seq<Sched>, ntfns: seq<Ntfn>, nodes: seq<Node>,
                        curDomain: nat, core: nat, cap: Cap, domainExpired: bool, ops: RefillOps): (p: SignalPlan)
    requires core < |nodes| && SignalWellFormed(tcbs, scs, ntfns, nodes)
    requires cap.NotificationCap? ==> 0 < cap.capNtfnPtr < |ntfns|
    ensures !p.PlanSlowpath? ==> cap.NotificationCap?
    ensures p.PlanWake? ==> ValidTcb(tcbs, p.dest) && ValidSc(scs, p.sc) && scs[p.sc].core < |nodes|
  {
    var cur := nodes[core].curThread;
    if tcbs[cur].fault != NullFault || !cap.NotificationCap? || !cap.capNtfnCanSend || domainExpired then
      PlanSlowpath
    else
      var ntfn := ntfns[cap.capNtfnPtr];
      assert NtfnWellFormed(tcbs, scs, ntfn);
      if ntfn.state == NtfnActive then
        PlanMerge(WordOr(cap.capNtfnBadge, ntfn.msgIdentifier))
      else if ntfn.state == NtfnIdle && (ntfn.boundTcb == NULL || tcbs[ntfn.boundTcb].tsType != BlockedOnReceive) then
        PlanActivate
      else
        var dest := if ntfn.state == NtfnIdle then ntfn.boundTcb else ntfn.queue[0];
        var sc := if tcbs[dest].sc != NULL then tcbs[dest].sc else ntfn.sc;
        if sc == NULL || (tcbs[dest].sc == NULL && scs[sc].tcb != NULL) then
          PlanSlowpath
        else if tcbs[nodes[scs[sc].core].curThread].priority < tcbs[dest].priority then
          PlanSlowpath
        else if scs[sc].refillMax > 0 && !(ops.ready(scs[sc]) && ops.sufficient(scs[sc])) then
          PlanSlowpath
        else
          PlanWake(dest, sc, ntfn.state == NtfnIdle, scs[sc].refillMax > 0,
                   curDomain != tcbs[dest].domain || scs[sc].core != core)
  }

  /** `ntfn_set_active`: the notification becomes active carrying `msg`. */
  function SetActive(ntfn: Ntfn, msg: Word): (r: Ntfn)
    ensures r.state == NtfnActive && r.msgIdentifier == msg
    ensures r.queue == ntfn.queue && r.boundTcb == ntfn.boundTcb && r.sc == ntfn.sc
  {
    ntfn.(state := NtfnActive, msgIdentifier := msg)
  }

  /** `ntfn_queue_dequeue_fp`: `dest` leaves the wait queue; a queue left
      empty makes the notification idle. */
  function NtfnDequeued(ntfn: Ntfn, dest: Ptr): (r: Ntfn)
    ensures r.queue == Without(ntfn.queue, dest)
    ensures r.state == (if r.queue == [] then NtfnIdle else ntfn.state)
    ensures r.msgIdentifier == ntfn.msgIdentifier && r.boundTcb == ntfn.boundTcb && r.sc == ntfn.sc
  {
    var q := Without(ntfn.queue, dest);
    ntfn.(queue := q, state := if q == [] then NtfnIdle else ntfn.state)
  }

  /** The threads after a wake: `dest` holds the badge in its badge
      register, runs, and is lent `sc` if it had no context. */
  function WokenTcbs(tcbs: seq<Tcb>, dest: Ptr, badge: Word, sc: Ptr): seq<Tcb>
    requires ValidTcb(tcbs, dest)
  {
    var badged := tcbs[dest := tcbs[dest].(badgeRegister := badge)];
    var running := badged[dest := badged[dest].(tsType := Running)];
    if running[dest].sc == NULL then running[dest := running[dest].(sc := sc)] else running
  }

  /** The threads after `SCHED_ENQUEUE` or `SCHED_APPEND` of a schedulable
      woken thread: its run-queue flag is set; otherwise nothing changes. */
  function ReadiedTcbs(tcbs: seq<Tcb>, dest: Ptr, schedulable: bool): (r: seq<Tcb>)
    requires ValidTcb(tcbs, dest)
    ensures |r| == |tcbs| && r[dest] == tcbs[dest].(queued := r[dest].queued)
    ensures r[dest].queued <==> schedulable || tcbs[dest].queued
    ensures forall u :: 0 <= u < |tcbs| && u != dest ==> r[u] == tcbs[u]
  {
    if schedulable then tcbs[dest := tcbs[dest].(queued := true)] else tcbs
  }

  /** The contexts after a wake: a donated context records `dest`, and a
      sporadic context other than the core's current one has its refills
      unblocked. */
  function WokenScs(tcbs: seq<Tcb>, scs: seq<Sched>, dest: Ptr, sc: Ptr, curSC: Ptr, ops: RefillOps): seq<Sched>
    requires ValidTcb(tcbs, dest) && ValidSc(scs, sc)
  {
    var donated := if tcbs[dest].sc == NULL then scs[sc := scs[sc].(tcb := dest)] else scs;
    if donated[sc].sporadic && sc != curSC then donated[sc := donated[sc].(refills := ops.unblockCheck(donated[sc]))]
    else donated
  }

  /** The calls a wake makes, in order: `cancelIPC_fp` for a bound receiver,
      `refill_unblock_check` for a sporadic context that is not current, and
      for a schedulable thread `SCHED_ENQUEUE` (head of the run queue) when
      the current thread's priority is higher or the signal crosses nodes,
      `SCHED_APPEND` (tail) otherwise. */
  function WakeCalls(scs: seq<Sched>, p: SignalPlan, curSC: Ptr, curPriority: nat, destPriority: nat): seq<Call>
    requires p.PlanWake? && ValidSc(scs, p.sc)
  {
    (if p.idle then [CancelIpc(p.dest)] else [])
    + (if scs[p.sc].sporadic && p.sc != curSC then [RefillUnblockCheck(p.sc)] else [])
    + (if !p.schedulable then []
       else if curPriority > destPriority || p.crossnode then [SchedEnqueue(p.dest)]
       else [SchedAppend(p.dest)])
  }

  /** A wake cancels the bound receiver's IPC exactly when it woke the bound
      receiver, unblocks the refills exactly of a sporadic context that is
      not current, and makes a schedulable thread ready exactly once: at the
      head of the run queue when the current thread's priority is higher or
      the signal crosses nodes, at the tail otherwise. */
  lemma WakeCallsChoice(scs: seq<Sched>, p: SignalPlan, curSC: Ptr, curPriority: nat, destPriority: nat)
    requires p.PlanWake? && ValidSc(scs, p.sc)
    ensures var r := WakeCalls(scs, p, curSC, curPriority, destPriority);
      (CancelIpc(p.dest) in r <==> p.idle)
      && (RefillUnblockCheck(p.sc) in r <==> scs[p.sc].sporadic && p.sc != curSC)
      && (SchedEnqueue(p.dest) in r <==> p.schedulable && (curPriority > destPriority || p.crossnode))
      && (SchedAppend(p.dest) in r <==> p.schedulable && !(curPriority > destPriority || p.crossnode))
      && |r| <= 3
  {
  }

  /** `fastpath_signal(cptr, msgInfo)` on the capability `cap` that
      `lookup_fp` finds for `cptr` in the current thread's CSpace. */
  method FastpathSignal(k: Kernel, core: nat, cap: Cap, domainExpired: bool, ops: RefillOps)
    returns (plan: SignalPlan)
    requires core < |k.nodes| && SignalWellFormed(k.tcbs, k.scs, k.ntfns, k.nodes)
    requires cap.NotificationCap? ==> 0 < cap.capNtfnPtr < |k.ntfns|
    modifies k`ntfns, k`tcbs, k`scs, k`log
    ensures plan == SignalPlanOf(old(k.tcbs), old(k.scs), old(k.ntfns), k.nodes, k.curDomain, core, cap, domainExpired, ops)
    ensures plan.PlanSlowpath? ==>
      k.ntfns == old(k.ntfns) && k.tcbs == old(k.tcbs) && k.scs == old(k.scs) && k.log == old(k.log)
    ensures plan.PlanMerge? || plan.PlanActivate? ==>
      k.ntfns == old(k.ntfns)[cap.capNtfnPtr := SetActive(old(k.ntfns[cap.capNtfnPtr]),
                                                          if plan.PlanMerge? then plan.msg else cap.capNtfnBadge)]
      && k.tcbs == old(k.tcbs) && k.scs == old(k.scs) && k.log == old(k.log)
    ensures plan.PlanWake? ==>
      k.ntfns == (if plan.idle then old(k.ntfns)
                  else old(k.ntfns)[cap.capNtfnPtr := NtfnDequeued(old(k.ntfns[cap.capNtfnPtr]), plan.dest)])
      && k.tcbs == ReadiedTcbs(WokenTcbs(old(k.tcbs), plan.dest, cap.capNtfnBadge, plan.sc), plan.dest, plan.schedulable)
      && k.scs == WokenScs(old(k.tcbs), old(k.scs), plan.dest, plan.sc, k.nodes[core].curSC, ops)
      && k.log == old(k.log) + WakeCalls(old(k.scs), plan, k.nodes[core].curSC,
                                         old(k.tcbs[k.nodes[core].curThread].priority), old(k.tcbs[plan.dest].priority))
  {
    var cur := k.nodes[core].curThread;
    if k.tcbs[cur].fault != NullFault {
      return PlanSlowpath;
    }
    if !cap.NotificationCap? {
      return PlanSlowpath;
    }
    if !cap.capNtfnCanSend {
      return PlanSlowpath;
    }
    if domainExpired {
      return PlanSlowpath;
    }
    var n := cap.capNtfnPtr;
    var badge := cap.capNtfnBadge;
    assert NtfnWellFormed(k.tcbs, k.scs, k.ntfns[n]);
    var dest: Ptr;
    var idle := false;
    match k.ntfns[n].state {
      case NtfnActive =>
        var msg := WordOr(badge, k.ntfns[n].msgIdentifier);
        k.ntfns := k.ntfns[n := SetActive(k.ntfns[n], msg)];
        return PlanMerge(msg);
      case NtfnIdle =>
        dest := k.ntfns[n].boundTcb;
        if dest == NULL || k.tcbs[dest].tsType != BlockedOnReceive {
          k.ntfns := k.ntfns[n := SetActive(k.ntfns[n], badge)];
          return PlanActivate;
        }
        idle := true;
      case NtfnWaiting =>
        dest := k.ntfns[n].queue[0];
    }
    var sc := k.tcbs[dest].sc;
    if sc == NULL {
      sc := k.ntfns[n].sc;
      if sc == NULL || k.scs[sc].tcb != NULL {
        return PlanSlowpath;
      }
    }
    if k.tcbs[k.nodes[k.scs[sc].core].curThread].priority < k.tcbs[dest].priority {
      return PlanSlowpath;
    }
    var schedulable := false;
    if k.scs[sc].refillMax > 0 {
      if !(ops.ready(k.scs[sc]) && ops.sufficient(k.scs[sc])) {
        return PlanSlowpath;
      }
      schedulable := true;
    }
    var crossnode := false;
    if k.curDomain != k.tcbs[dest].domain || k.scs[sc].core != core {
      crossnode := true;
    }
    plan := PlanWake(dest, sc, idle, schedulable, crossnode);
    CommitSignal(k, core, n, badge, plan, ops);
  }

  /** The writes `fastpath_signal` makes after its point of no return, for
      the wake `plan` of the thread it signals through notification `n`. */
  method CommitSignal(k: Kernel, core: nat, n: Ptr, badge: Word, plan: SignalPlan, ops: RefillOps)
    requires plan.PlanWake? && ValidTcb(k.tcbs, plan.dest) && ValidSc(k.scs, plan.sc)
    requires k.tcbs[plan.dest].sc == NULL || k.tcbs[plan.dest].sc == plan.sc
    requires 0 < n < |k.ntfns| && core < |k.nodes| && ValidTcb(k.tcbs, k.nodes[core].curThread)
    modifies k`ntfns, k`tcbs, k`scs, k`log
    ensures k.ntfns == (if plan.idle then old(k.ntfns) else old(k.ntfns)[n := NtfnDequeued(old(k.ntfns[n]), plan.dest)])
    ensures k.tcbs == ReadiedTcbs(WokenTcbs(old(k.tcbs), plan.dest, badge, plan.sc), plan.dest, plan.schedulable)
    ensures k.scs == WokenScs(old(k.tcbs), old(k.scs), plan.dest, plan.sc, k.nodes[core].curSC, ops)
    ensures k.log == old(k.log) + WakeCalls(old(k.scs), plan, k.nodes[core].curSC,
                                            old(k.tcbs[k.nodes[core].curThread].priority), old(k.tcbs[plan.dest].priority))
  {
    ReleaseFromWait(k, n, plan);
    WakeThread(k, plan.dest, badge, plan.sc);
    UnblockAndReady(k, core, plan, ops);
    AppendTwoThree(old(k.log), if plan.idle then [CancelIpc(plan.dest)] else [],
                   (if old(k.scs[plan.sc]).sporadic && plan.sc != k.nodes[core].curSC then [RefillUnblockCheck(plan.sc)] else []),
                   if !plan.schedulable then []
                   else if old(k.tcbs[k.nodes[core].curThread].priority) > old(k.tcbs[plan.dest].priority) || plan.crossnode
                   then [SchedEnqueue(plan.dest)]
                   else [SchedAppend(plan.dest)]);
  }

  /** `cancelIPC_fp` for the bound receiver of an idle notification, or
      `ntfn_queue_dequeue_fp` for the head of a waiting one. */
  method ReleaseFromWait(k: Kernel, n: Ptr, plan: SignalPlan)
    requires plan.PlanWake? && 0 < n < |k.ntfns|
    modifies k`ntfns, k`log
    ensures k.ntfns == (if plan.idle then old(k.ntfns) else old(k.ntfns)[n := NtfnDequeued(old(k.ntfns[n]), plan.dest)])
    ensures k.log == old(k.log) + (if plan.idle then [CancelIpc(plan.dest)] else [])
  {
    if plan.idle {
      k.log := k.log + [CancelIpc(plan.dest)];
    } else {
      k.ntfns := k.ntfns[n := NtfnDequeued(k.ntfns[n], plan.dest)];
    }
  }

  /** The badge goes to the thread's badge register, the thread runs, and
      `maybeDonateSchedContext_fp` lends it `sc` if it has no context. */
  method WakeThread(k: Kernel, dest: Ptr, badge: Word, sc: Ptr)
    requires ValidTcb(k.tcbs, dest) && ValidSc(k.scs, sc)
    modifies k`tcbs, k`scs
    ensures k.tcbs == WokenTcbs(old(k.tcbs), dest, badge, sc)
    ensures k.scs == if old(k.tcbs[dest].sc) == NULL then old(k.scs)[sc := old(k.scs[sc]).(tcb := dest)] else old(k.scs)
  {
    var tcbs := k.tcbs;
    tcbs := tcbs[dest := tcbs[dest].(badgeRegister := badge)];
    tcbs := tcbs[dest := tcbs[dest].(tsType := Running)];
    if tcbs[dest].sc == NULL {
      k.scs := k.scs[sc := k.scs[sc].(tcb := dest)];
      tcbs := tcbs[dest := tcbs[dest].(sc := sc)];
    }
    k.tcbs := tcbs;
  }

  /** `refill_unblock_check` for a sporadic context that is not the core's
      current one, then `SCHED_ENQUEUE` or `SCHED_APPEND` for a schedulable
      thread. */
  method UnblockAndReady(k: Kernel, core: nat, plan: SignalPlan, ops: RefillOps)
    requires plan.PlanWake? && ValidTcb(k.tcbs, plan.dest) && ValidSc(k.scs, plan.sc) && k.tcbs[plan.dest].sc == plan.sc
    requires core < |k.nodes| && ValidTcb(k.tcbs, k.nodes[core].curThread)
    modifies k`tcbs, k`scs, k`log
    ensures k.tcbs == ReadiedTcbs(old(k.tcbs), plan.dest, plan.schedulable)
    ensures var unblock := old(k.scs[plan.sc]).sporadic && plan.sc != k.nodes[core].curSC;
      k.scs == (if unblock then old(k.scs)[plan.sc := old(k.scs[plan.sc]).(refills := ops.unblockCheck(old(k.scs[plan.sc])))]
                else old(k.scs))
      && k.log == old(k.log)
                  + ((if unblock then [RefillUnblockCheck(plan.sc)] else [])
                     + (if !plan.schedulable then []
                        else if old(k.tcbs[k.nodes[core].curThread].priority) > old(k.tcbs[plan.dest].priority) || plan.crossnode
                        then [SchedEnqueue(plan.dest)]
                        else [SchedAppend(plan.dest)]))
  {
    var dest := plan.dest;
    var destSc := k.tcbs[dest].sc;
    if k.scs[destSc].sporadic && destSc != k.nodes[core].curSC {
      k.scs := k.scs[destSc := k.scs[destSc].(refills := ops.unblockCheck(k.scs[destSc]))];
      k.log := k.log + [RefillUnblockCheck(destSc)];
    }
    ghost var log1 := k.log;
    var cur := k.nodes[core].curThread;
    ghost var atHead := k.tcbs[cur].priority > k.tcbs[dest].priority || plan.crossnode;
    if plan.schedulable {
      SchedQueueTcb(k, dest, k.tcbs[cur].priority > k.tcbs[dest].priority || plan.crossnode);
    }
    assert k.log == log1 + (if !plan.schedulable then []
                            else if atHead then [SchedEnqueue(dest)] else [SchedAppend(dest)]);
  }

  lemma AppendTwoThree<T>(l: seq<T>, a: seq<T>, b: seq<T>, c: seq<T>)
    ensures l + a + (b + c) == l + (a + b + c)
  {
  }

  /** The guards before the first lookup: a saved fault, a capability that
      is not a notification capability or lacks send rights, or an expired
      domain all send the signal to the slowpath; otherwise an active
      notification merges the badge into its message. */
  lemma SignalEarlyGuards(tcbs: seq<Tcb>, scs: seq<Sched>, ntfns: seq<Ntfn>, nodes: seq<Node>,
                          curDomain: nat, core: nat, cap: Cap, domainExpired: bool, ops: RefillOps)
    requires core < |nodes| && SignalWellFormed(tcbs, scs, ntfns, nodes)
    requires cap.NotificationCap? ==> 0 < cap.capNtfnPtr < |ntfns|
    ensures var p := SignalPlanOf(tcbs, scs, ntfns, nodes, curDomain, core, cap, domainExpired, ops);
      var early := tcbs[nodes[core].curThread].fault != NullFault || !cap.NotificationCap?
                   || !cap.capNtfnCanSend || domainExpired;
      (early ==> p == PlanSlowpath)
      && (!early && ntfns[cap.capNtfnPtr].state == NtfnActive ==>
            p == PlanMerge(WordOr(cap.capNtfnBadge, ntfns[cap.capNtfnPtr].msgIdentifier)))
      && ((!early && ntfns[cap.capNtfnPtr].state == NtfnIdle
           && (ntfns[cap.capNtfnPtr].boundTcb == NULL
               || tcbs[ntfns[cap.capNtfnPtr].boundTcb].tsType != BlockedOnReceive)) ==> p == PlanActivate)
  {
  }

  /** The guards before the point of no return: the signal wakes a thread
      exactly when that thread has a context or can be lent the
      notification's free one, no thread of higher priority than it runs
      on that context's core, and a budgeted context is ready and
      sufficient. The plan's flags are the ones the code computes. */
  lemma SignalWakeGuards(tcbs: seq<Tcb>, scs: seq<Sched>, ntfns: seq<Ntfn>, nodes: seq<Node>,
                         curDomain: nat, core: nat, cap: Cap, domainExpired: bool, ops: RefillOps)
    requires core < |nodes| && SignalWellFormed(tcbs, scs, ntfns, nodes)
    requires cap.NotificationCap? && 0 < cap.capNtfnPtr < |ntfns|
    requires tcbs[nodes[core].curThread].fault == NullFault && cap.capNtfnCanSend && !domainExpired
    requires var ntfn := ntfns[cap.capNtfnPtr];
      ntfn.state == NtfnWaiting
      || (ntfn.state == NtfnIdle && ntfn.boundTcb != NULL && tcbs[ntfn.boundTcb].tsType == BlockedOnReceive)
    ensures var ntfn := ntfns[cap.capNtfnPtr];
      NtfnWellFormed(tcbs, scs, ntfn)
      && var dest := if ntfn.state == NtfnIdle then ntfn.boundTcb else ntfn.queue[0];
      var p := SignalPlanOf(tcbs, scs, ntfns, nodes, curDomain, core, cap, domainExpired, ops);
      (p.PlanWake? <==>
         (tcbs[dest].sc != NULL || (ntfn.sc != NULL && scs[ntfn.sc].tcb == NULL))
         && var sc := if tcbs[dest].sc != NULL then tcbs[dest].sc else ntfn.sc;
         tcbs[nodes[scs[sc].core].curThread].priority >= tcbs[dest].priority
         && (scs[sc].refillMax > 0 ==> ops.ready(scs[sc]) && ops.sufficient(scs[sc])))
      && (p.PlanWake? ==>
            p.dest == dest
            && p.sc == (if tcbs[dest].sc != NULL then tcbs[dest].sc else ntfn.sc)
            && p.idle == (ntfn.state == NtfnIdle)
            && p.schedulable == (scs[p.sc].refillMax > 0)
            && p.crossnode == (curDomain != tcbs[dest].domain || scs[p.sc].core != core))
      && (!p.PlanWake? ==> p == PlanSlowpath)
  {
    assert NtfnWellFormed(tcbs, scs, ntfns[cap.capNtfnPtr]);
  }

  /** After a wake the thread runs, holds the badge and is bound to the
      context; a context it was lent records it in turn. Threads other than
      `dest` and contexts other than `sc` are untouched. */
  lemma WakeBindsBothWays(tcbs: seq<Tcb>, scs: seq<Sched>, dest: Ptr, badge: Word, sc: Ptr, curSC: Ptr, ops: RefillOps)
    requires ValidTcb(tcbs, dest) && ValidSc(scs, sc)
    requires tcbs[dest].sc == NULL || tcbs[dest].sc == sc
    ensures var tcbs', scs' := WokenTcbs(tcbs, dest, badge, sc), WokenScs(tcbs, scs, dest, sc, curSC, ops);
      tcbs'[dest].tsType == Running && tcbs'[dest].badgeRegister == badge && tcbs'[dest].sc == sc
      && (tcbs[dest].sc == NULL ==> scs'[sc].tcb == dest)
      && (tcbs[dest].sc != NULL ==> scs'[sc].tcb == scs[sc].tcb)
      && (forall u :: 0 <= u < |tcbs| && u != dest ==> tcbs'[u] == tcbs[u])
      && (forall s :: 0 <= s < |scs| && s != sc ==> scs'[s] == scs[s])
  {
  }

  /** Waking the head of a wait queue without duplicates leaves the rest of
      the queue in order, and the notification idle exactly when the head
      was its only waiter. */
  lemma DequeueHead(ntfn: Ntfn)
    requires |ntfn.queue| > 0 && Distinct(ntfn.queue)
    ensures var r := NtfnDequeued(ntfn, ntfn.queue[0]);
      r.queue == ntfn.queue[1..]
      && (r.state == NtfnIdle <==> |ntfn.queue| == 1 || ntfn.state == NtfnIdle)
  {
    WithoutAt(ntfn.queue, 0);
    assert ntfn.queue[..0] == [];
  }

  // ---------------------------------------------------------------------
  // fastpath_vm_fault

  /** The helpers of `fastpath_vm_fault` whose bodies are not part of this
      model: `isValidVTableRoot_fp` and the scheduler's `isHighestPrio`. */
  datatype VmFaultOps = VmFaultOps(
    validVTableRoot: Cap -> bool,
    isHighestPrio: (nat, nat) -> bool)

  /** The kernel invariants `fastpath_vm_fault` dereferences under: the
      current thread exists and has a context, an endpoint it can name
      exists, a receiving endpoint's head is a thread, and queue links,
      reply objects and the tops of call stacks are `NULL` or exist. */
  predicate VmFaultWellFormed(tcbs: seq<Tcb>, scs: seq<Sched>, eps: seq<Ep>, replies: seq<Reply>,
                              nodes: seq<Node>, core: nat)
  {
    core < |nodes| && ValidTcb(tcbs, nodes[core].curThread)
    && ValidSc(scs, tcbs[nodes[core].curThread].sc)
    && (tcbs[nodes[core].curThread].faultHandler.EndpointCap? ==>
          0 < tcbs[nodes[core].curThread].faultHandler.capEPPtr < |eps|)
    && (forall e :: 0 < e < |eps| && eps[e].state == EpRecv ==> ValidTcb(tcbs, eps[e].head))
    && (forall t :: 0 < t < |tcbs| ==> tcbs[t].epNext == NULL || ValidTcb(tcbs, tcbs[t].epNext))
    && (forall t :: 0 < t < |tcbs| ==> tcbs[t].replyObject == NULL || 0 < tcbs[t].replyObject < |replies|)
    && (forall s :: 0 < s < |scs| ==> scs[s].reply == NULL || 0 < scs[s].reply < |replies|)
  }

  /** Whether `fastpath_vm_fault` commits: the fault handler is an endpoint
      capability, a thread waits to receive on it, the thread has a valid
      VSpace root, is of no lower priority than the current thread unless
      it is the highest-priority thread of the current domain, is in the
      current domain when there are several, has no context, holds a reply
      object, and shares the current thread's core. */
  predicate VmFaultCommits(tcbs: seq<Tcb>, scs: seq<Sched>, eps: seq<Ep>, replies: seq<Reply>, nodes: seq<Node>,
                           curDomain: nat, numDomains: nat, core: nat, ops: VmFaultOps)
    requires VmFaultWellFormed(tcbs, scs, eps, replies, nodes, core)
  {
    var cur := nodes[core].curThread;
    var handler := tcbs[cur].faultHandler;
    handler.EndpointCap? && eps[handler.capEPPtr].state == EpRecv
    && var dest := eps[handler.capEPPtr].head;
    var dom := if numDomains > 1 then curDomain else 0;
    ops.validVTableRoot(tcbs[dest].vTable)
    && !(tcbs[dest].priority < tcbs[cur].priority && !ops.isHighestPrio(dom, tcbs[dest].priority))
    && !(tcbs[dest].domain != curDomain && numDomains > 1)
    && tcbs[dest].sc == NULL
    && tcbs[dest].replyObject != NULL
    && tcbs[cur].affinity == tcbs[dest].affinity
  }

  /** The endpoint after its head is taken: the head moves to the old head's
      successor, and with no successor the endpoint becomes idle and empty. */
  function EpDequeued(ep: Ep, next: Ptr): (r: Ep)
    ensures r.head == next
    ensures next == NULL ==> r.state == EpIdle && r.tail == NULL
    ensures next != NULL ==> r.state == ep.state && r.tail == ep.tail
  {
    if next == NULL then Ep(EpIdle, next, NULL) else ep.(head := next)
  }

  /** The threads after the commit: the successor of `dest` in the endpoint
      queue loses its back link; the caller records the fault, blocks on
      the reply and gives up its context; `dest` takes the context, drops
      its reply object and runs. */
  function VmFaultTcbs(tcbs: seq<Tcb>, cur: Ptr, dest: Ptr, reply: Ptr, sc: Ptr, vmFaultType: nat): (r: seq<Tcb>)
    requires ValidTcb(tcbs, cur) && ValidTcb(tcbs, dest) && cur != dest
    requires tcbs[dest].epNext == NULL || ValidTcb(tcbs, tcbs[dest].epNext)
    ensures |r| == |tcbs|
    ensures r[cur].tsType == BlockedOnReply && r[cur].replyObject == reply && r[cur].sc == NULL
    ensures r[cur].fault == VMFault(vmFaultType)
    ensures r[dest].tsType == Running && r[dest].replyObject == NULL && r[dest].sc == sc
    ensures tcbs[dest].epNext != NULL ==> r[tcbs[dest].epNext].epPrev == NULL
    ensures forall u :: 0 <= u < |tcbs| && u != cur && u != dest && u != tcbs[dest].epNext ==> r[u] == tcbs[u]
  {
    HandedOver(Unlinked(tcbs, cur, dest, vmFaultType), cur, dest, reply, sc)
  }

  /** The threads after the caller records the fault and the successor of
      `dest` in the endpoint queue loses its back link. */
  function Unlinked(tcbs: seq<Tcb>, cur: Ptr, dest: Ptr, vmFaultType: nat): seq<Tcb>
    requires ValidTcb(tcbs, cur) && ValidTcb(tcbs, dest)
    requires tcbs[dest].epNext == NULL || ValidTcb(tcbs, tcbs[dest].epNext)
  {
    var next := tcbs[dest].epNext;
    var faulted := tcbs[cur := tcbs[cur].(fault := VMFault(vmFaultType))];
    if next != NULL then faulted[next := faulted[next].(epPrev := NULL)] else faulted
  }

  /** The threads after the caller blocks on `reply` and hands `sc` over to
      `dest`, which runs. */
  function HandedOver(tcbs: seq<Tcb>, cur: Ptr, dest: Ptr, reply: Ptr, sc: Ptr): seq<Tcb>
    requires ValidTcb(tcbs, cur) && ValidTcb(tcbs, dest)
  {
    var blocked := tcbs[cur := tcbs[cur].(tsType := BlockedOnReply)];
    var cleared := blocked[dest := blocked[dest].(replyObject := NULL)];
    var holding := cleared[cur := cleared[cur].(replyObject := reply)];
    var donated := holding[dest := holding[dest].(sc := sc)];
    var released := donated[cur := donated[cur].(sc := NULL)];
    released[dest := released[dest].(tsType := Running)]
  }

  /** The replies after the push: `reply` names the caller, points back to
      the old top of the call stack and forward to the context at its head;
      the old top, if any, points forward to `reply`. */
  function PushedReplies(replies: seq<Reply>, cur: Ptr, reply: Ptr, oldCaller: Ptr, sc: Ptr): (r: seq<Reply>)
    requires 0 < reply < |replies| && (oldCaller == NULL || 0 < oldCaller < |replies|)
    ensures |r| == |replies|
    ensures r[reply] == Reply(cur, CallStack(oldCaller, false), CallStack(sc, true))
    ensures oldCaller != NULL && oldCaller != reply ==>
              r[oldCaller] == replies[oldCaller].(next := CallStack(reply, false))
    ensures forall x :: 0 <= x < |replies| && x != reply && x != oldCaller ==> r[x] == replies[x]
  {
    var linked := if oldCaller != NULL then replies[oldCaller := replies[oldCaller].(next := CallStack(reply, false))]
                  else replies;
    linked[reply := Reply(cur, CallStack(oldCaller, false), CallStack(sc, true))]
  }

  /** How `fastpath_vm_fault` ends: on the slowpath, or by switching to the
      handler with the endpoint badge to deliver. */
  datatype VmFaultOutcome = VmFaultSlowpath | VmFaultDelivered(badge: Word)

  /** `fastpath_vm_fault(type)` on the current thread of `core`. */
  method FastpathVmFault(k: Kernel, core: nat, vmFaultType: nat, ops: VmFaultOps) returns (outcome: VmFaultOutcome)
    requires VmFaultWellFormed(k.tcbs, k.scs, k.eps, k.replies, k.nodes, core)
    modifies k`tcbs, k`scs, k`eps, k`replies, k`log
    ensures outcome.VmFaultDelivered? <==>
              VmFaultCommits(old(k.tcbs), old(k.scs), old(k.eps), old(k.replies), k.nodes,
                             k.curDomain, k.numDomains, core, ops)
    ensures outcome.VmFaultSlowpath? ==>
      k.tcbs == old(k.tcbs) && k.scs == old(k.scs) && k.eps == old(k.eps)
      && k.replies == old(k.replies) && k.log == old(k.log)
    ensures outcome.VmFaultDelivered? ==>
      var cur := k.nodes[core].curThread;
      var handler := old(k.tcbs[cur].faultHandler);
      var e := handler.capEPPtr;
      var dest := old(k.eps[e].head);
      var reply := old(k.tcbs[dest].replyObject);
      var sc := old(k.tcbs[cur].sc);
      ValidTcb(old(k.tcbs), dest) && dest != cur && 0 < reply < |old(k.replies)|
      && outcome.badge == handler.capEPBadge
      && k.eps == old(k.eps)[e := EpDequeued(old(k.eps[e]), old(k.tcbs[dest].epNext))]
      && k.tcbs == VmFaultTcbs(old(k.tcbs), cur, dest, reply, sc, vmFaultType)
      && k.scs == old(k.scs)[sc := old(k.scs[sc]).(tcb := dest, reply := reply)]
      && k.replies == PushedReplies(old(k.replies), cur, reply, old(k.scs[sc].reply), sc)
      && k.log == old(k.log) + [SwitchToThread(dest)]
  {
    var cur := k.nodes[core].curThread;
    var handler := k.tcbs[cur].faultHandler;
    if !handler.EndpointCap? {
      return VmFaultSlowpath;
    }
    var e := handler.capEPPtr;
    if k.eps[e].state != EpRecv {
      return VmFaultSlowpath;
    }
    var dest := k.eps[e].head;
    if !ops.validVTableRoot(k.tcbs[dest].vTable) {
      return VmFaultSlowpath;
    }
    var dom := if k.numDomains > 1 then k.curDomain else 0;
    if k.tcbs[dest].priority < k.tcbs[cur].priority && !ops.isHighestPrio(dom, k.tcbs[dest].priority) {
      return VmFaultSlowpath;
    }
    if k.tcbs[dest].domain != k.curDomain && k.numDomains > 1 {
      return VmFaultSlowpath;
    }
    if k.tcbs[dest].sc != NULL {
      return VmFaultSlowpath;
    }
    var reply := k.tcbs[dest].replyObject;
    if reply == NULL {
      return VmFaultSlowpath;
    }
    if k.tcbs[cur].affinity != k.tcbs[dest].affinity {
      return VmFaultSlowpath;
    }
    outcome := VmFaultDelivered(handler.capEPBadge);
    CommitVmFault(k, cur, dest, e, reply, vmFaultType);
  }

  /** The writes `fastpath_vm_fault` makes after its point of no return:
      the caller `cur` blocks on `reply`, and `dest`, the head of endpoint
      `e`, takes the caller's context and runs. */
  method CommitVmFault(k: Kernel, cur: Ptr, dest: Ptr, e: Ptr, reply: Ptr, vmFaultType: nat)
    requires ValidTcb(k.tcbs, cur) && ValidTcb(k.tcbs, dest) && cur != dest && 0 < e < |k.eps|
    requires ValidSc(k.scs, k.tcbs[cur].sc) && 0 < reply < |k.replies|
    requires k.tcbs[dest].epNext == NULL || ValidTcb(k.tcbs, k.tcbs[dest].epNext)
    requires k.scs[k.tcbs[cur].sc].reply == NULL || 0 < k.scs[k.tcbs[cur].sc].reply < |k.replies|
    modifies k`tcbs, k`scs, k`eps, k`replies, k`log
    ensures k.eps == old(k.eps)[e := EpDequeued(old(k.eps[e]), old(k.tcbs[dest].epNext))]
    ensures var sc := old(k.tcbs[cur].sc);
      k.tcbs == VmFaultTcbs(old(k.tcbs), cur, dest, reply, sc, vmFaultType)
      && k.scs == old(k.scs)[sc := old(k.scs[sc]).(tcb := dest, reply := reply)]
      && k.replies == PushedReplies(old(k.replies), cur, reply, old(k.scs[sc].reply), sc)
    ensures k.log == old(k.log) + [SwitchToThread(dest)]
  {
    DequeueHandler(k, cur, dest, e, vmFaultType);
    HandOver(k, cur, dest, reply);
    k.log := k.log + [SwitchToThread(dest)];
  }

  /** The caller records the fault and `dest` leaves the head of endpoint `e`. */
  method DequeueHandler(k: Kernel, cur: Ptr, dest: Ptr, e: Ptr, vmFaultType: nat)
    requires ValidTcb(k.tcbs, cur) && ValidTcb(k.tcbs, dest) && 0 < e < |k.eps|
    requires k.tcbs[dest].epNext == NULL || ValidTcb(k.tcbs, k.tcbs[dest].epNext)
    modifies k`tcbs, k`eps
    ensures k.eps == old(k.eps)[e := EpDequeued(old(k.eps[e]), old(k.tcbs[dest].epNext))]
    ensures k.tcbs == Unlinked(old(k.tcbs), cur, dest, vmFaultType)
  {
    var tcbs, eps := k.tcbs, k.eps;
    tcbs := tcbs[cur := tcbs[cur].(fault := VMFault(vmFaultType))];
    var next := tcbs[dest].epNext;
    eps := eps[e := eps[e].(head := next)];
    if next != NULL {
      tcbs := tcbs[next := tcbs[next].(epPrev := NULL)];
    } else {
      eps := eps[e := eps[e].(tail := NULL, state := EpIdle)];
    }
    k.tcbs, k.eps := tcbs, eps;
  }

  /** The caller `cur` blocks on `reply`, which `dest` gives up; the
      caller's context moves to `dest` and `reply` is pushed on its call
      stack; `dest` runs. */
  method HandOver(k: Kernel, cur: Ptr, dest: Ptr, reply: Ptr)
    requires ValidTcb(k.tcbs, cur) && ValidTcb(k.tcbs, dest) && cur != dest
    requires ValidSc(k.scs, k.tcbs[cur].sc) && 0 < reply < |k.replies|
    requires k.scs[k.tcbs[cur].sc].reply == NULL || 0 < k.scs[k.tcbs[cur].sc].reply < |k.replies|
    modifies k`tcbs, k`scs, k`replies
    ensures var sc := old(k.tcbs[cur].sc);
      k.tcbs == HandedOver(old(k.tcbs), cur, dest, reply, sc)
      && k.scs == old(k.scs)[sc := old(k.scs[sc]).(tcb := dest, reply := reply)]
      && k.replies == PushedReplies(old(k.replies), cur, reply, old(k.scs[sc].reply), sc)
  {
    var tcbs, scs, replies := k.tcbs, k.scs, k.replies;
    tcbs := tcbs[cur := tcbs[cur].(tsType := BlockedOnReply)];
    tcbs := tcbs[dest := tcbs[dest].(replyObject := NULL)];
    tcbs := tcbs[cur := tcbs[cur].(replyObject := reply)];
    replies := replies[reply := replies[reply].(tcb := cur)];
    var sc := tcbs[cur].sc;
    scs := scs[sc := scs[sc].(tcb := dest)];
    tcbs := tcbs[dest := tcbs[dest].(sc := sc)];
    tcbs := tcbs[cur := tcbs[cur].(sc := NULL)];
    var oldCaller := scs[sc].reply;
    replies := replies[reply := replies[reply].(prev := CallStack(oldCaller, false))];
    if oldCaller != NULL {
      replies := replies[oldCaller := replies[oldCaller].(next := CallStack(reply, false))];
    }
    replies := replies[reply := replies[reply].(next := CallStack(sc, true))];
    scs := scs[sc := scs[sc].(reply := reply)];
    tcbs := tcbs[dest := tcbs[dest].(tsType := Running)];
    k.tcbs, k.scs, k.replies := tcbs, scs, replies;
  }

  /** The commit moves the context from the caller to the handler, both
      ways, and pushes `reply` on the context's call stack: the context's
      top is `reply`, whose forward link is the head marker for the context
      and whose back link is the previous top. */
  lemma VmFaultPushesCallStack(tcbs: seq<Tcb>, scs: seq<Sched>, replies: seq<Reply>,
                               cur: Ptr, dest: Ptr, reply: Ptr, sc: Ptr, vmFaultType: nat)
    requires ValidTcb(tcbs, cur) && ValidTcb(tcbs, dest) && cur != dest && ValidSc(scs, sc)
    requires tcbs[dest].epNext == NULL || ValidTcb(tcbs, tcbs[dest].epNext)
    requires 0 < reply < |replies| && (scs[sc].reply == NULL || 0 < scs[sc].reply < |replies|)
    ensures var tcbs' := VmFaultTcbs(tcbs, cur, dest, reply, sc, vmFaultType);
      var scs' := scs[sc := scs[sc].(tcb := dest, reply := reply)];
      var replies' := PushedReplies(replies, cur, reply, scs[sc].reply, sc);
      tcbs'[dest].sc == sc && scs'[sc].tcb == dest && tcbs'[cur].sc == NULL
      && replies'[scs'[sc].reply].next == CallStack(sc, true) && scs'[sc].reply == reply
      && replies'[reply].prev.ptr == scs[sc].reply && !replies'[reply].prev.isHead
      && replies'[reply].tcb == cur && tcbs'[replies'[reply].tcb].replyObject == reply
  {
  }
}
