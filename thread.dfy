/** Budget accounting of the budgeted kernel (`src/kernel/thread.c`):
    switching to the current thread's scheduling context, charging consumed
    time, ending a timeslice, postponing a thread until its next refill,
    programming the next timer interrupt, and waking the threads whose head
    refill has become ready. */
module Thread {
  import opened Words
  import opened Structures
  import opened Queues
  import opened ReleaseQueue

  // ---------------------------------------------------------------------
  // Frame lemmas about the release queues

  /** Changing one thread's run-queue flag leaves the release queues valid. */
  lemma QueuedFlagFrame(tcbs: seq<Tcb>, scs: seq<Sched>, nodes: seq<Node>, Q: seq<seq<Ptr>>, t: Ptr, b: bool)
    requires ReleaseQueuesValid(tcbs, scs, nodes, Q) && ValidTcb(tcbs, t)
    ensures ReleaseQueuesValid(tcbs[t := tcbs[t].(queued := b)], scs, nodes, Q)
  {
    var tcbs' := tcbs[t := tcbs[t].(queued := b)];
    forall c | 0 <= c < |Q|
      ensures Linked(Q[c], nodes[c].releaseHead, tcbs')
    {
      LinkedFrame(Q[c], nodes[c].releaseHead, tcbs, tcbs');
    }
  }

  /** ... nor does it move any thread's insertion point in `q`, or the order of `q`. */
  lemma QueuedFlagKeys(tcbs: seq<Tcb>, scs: seq<Sched>, q: seq<Ptr>, t: Ptr, b: bool)
    requires ValidTcb(tcbs, t)
    ensures var tcbs' := tcbs[t := tcbs[t].(queued := b)];
      InsertionPoint(tcbs', scs, q, t) == InsertionPoint(tcbs, scs, q, t)
      && (ReleaseSorted(tcbs, scs, q) <==> ReleaseSorted(tcbs', scs, q))
  {
    var tcbs' := tcbs[t := tcbs[t].(queued := b)];
    SameKeys(tcbs, tcbs', scs, q);
    InsertionPointUnique(tcbs, scs, q, t, InsertionPoint(tcbs', scs, q, t));
  }

  /** Node fields other than `ksReleaseHead` do not matter to the queues. */
  lemma HeadsFrame(tcbs: seq<Tcb>, scs: seq<Sched>, nodes: seq<Node>, nodes': seq<Node>, Q: seq<seq<Ptr>>)
    requires ReleaseQueuesValid(tcbs, scs, nodes, Q) && |nodes'| == |nodes|
    requires forall c :: 0 <= c < |nodes| ==> nodes'[c].releaseHead == nodes[c].releaseHead
    ensures ReleaseQueuesValid(tcbs, scs, nodes', Q)
  {
    forall c | 0 <= c < |Q|
      ensures Linked(Q[c], nodes'[c].releaseHead, tcbs)
    {
      assert Linked(Q[c], nodes[c].releaseHead, tcbs);
    }
  }

  /** Refills that stay non-empty keep every queued thread's head refill. */
  lemma RefillsFrame(tcbs: seq<Tcb>, scs: seq<Sched>, scs': seq<Sched>, nodes: seq<Node>, Q: seq<seq<Ptr>>)
    requires ReleaseQueuesValid(tcbs, scs, nodes, Q) && |scs'| == |scs|
    requires forall s :: 0 <= s < |scs| && |scs[s].refills| > 0 ==> |scs'[s].refills| > 0
    ensures ReleaseQueuesValid(tcbs, scs', nodes, Q)
  {
    forall c, i | 0 <= c < |Q| && 0 <= i < |Q[c]|
      ensures HasRefills(tcbs, scs', Q[c][i])
    {
      assert HasRefills(tcbs, scs, Q[c][i]);
    }
  }

  /** A thread whose flag is clear is in no release queue. */
  lemma NotFlaggedNotQueued(tcbs: seq<Tcb>, scs: seq<Sched>, nodes: seq<Node>, Q: seq<seq<Ptr>>, t: Ptr)
    requires ReleaseQueuesValid(tcbs, scs, nodes, Q) && ValidTcb(tcbs, t) && !tcbs[t].inReleaseQueue
    ensures forall c :: 0 <= c < |Q| ==> t !in Q[c]
  {
    forall c, i | 0 <= c < |Q| && 0 <= i < |Q[c]|
      ensures Q[c][i] != t
    {
      assert Linked(Q[c], nodes[c].releaseHead, tcbs);
      assert tcbs[Q[c][i]].affinity == c;
    }
  }

  /** A non-empty release queue's head is its first thread, with a head refill. */
  lemma ReleaseHeadFacts(tcbs: seq<Tcb>, scs: seq<Sched>, nodes: seq<Node>, Q: seq<seq<Ptr>>, c: nat)
    requires ReleaseQueuesValid(tcbs, scs, nodes, Q) && c < |nodes|
    ensures nodes[c].releaseHead != NULL ==>
      |Q[c]| > 0 && nodes[c].releaseHead == Q[c][0] && HasRefills(tcbs, scs, nodes[c].releaseHead)
  {
    assert Linked(Q[c], nodes[c].releaseHead, tcbs);
  }

  // ---------------------------------------------------------------------
  // switchSchedContext

  /** `switchSchedContext` on core `core`. A change of context means the
      timer must be reprogrammed, and a constant-bandwidth context (not
      sporadic) gets `refill_unblock_check`; `commitTime` runs exactly when
      `ksReprogram` is then set; `ksCurSC` ends as the current thread's context. */
  method SwitchSchedContext(k: Kernel, core: nat, ops: RefillOps)
    requires core < |k.nodes| && ValidTcb(k.tcbs, k.nodes[core].curThread)
    requires ValidSc(k.scs, k.tcbs[k.nodes[core].curThread].sc)
    modifies k`scs, k`nodes, k`log
    ensures var n := old(k.nodes[core]); var s := k.tcbs[n.curThread].sc;
      k.nodes == old(k.nodes)[core := n.(curSC := s, reprogram := n.reprogram || n.curSC != s)]
    ensures var n := old(k.nodes[core]); var s := k.tcbs[n.curThread].sc;
      var unblock := n.curSC != s && !old(k.scs[s].sporadic);
      k.scs == (if unblock then old(k.scs)[s := old(k.scs[s]).(refills := ops.unblockCheck(old(k.scs[s])))] else old(k.scs))
      && k.log == old(k.log) + (if unblock then [RefillUnblockCheck(s)] else [])
                  + (if k.nodes[core].reprogram then [CommitTime] else [])
  {
    var s := k.tcbs[k.nodes[core].curThread].sc;
    if k.nodes[core].curSC != s {
      k.nodes := k.nodes[core := k.nodes[core].(reprogram := true)];
      if !k.scs[s].sporadic {
        k.scs := k.scs[s := k.scs[s].(refills := ops.unblockCheck(k.scs[s]))];
        k.log := k.log + [RefillUnblockCheck(s)];
      }
    }
    if k.nodes[core].reprogram {
      k.log := k.log + [CommitTime];
    }
    k.nodes := k.nodes[core := k.nodes[core].(curSC := s)];
  }

  // ---------------------------------------------------------------------
  // postpone

  /** What `postpone(sc)` relies on: the context's thread has a head refill,
      is in no release queue, and its core and the context's core exist. */
  ghost predicate CanPostpone(tcbs: seq<Tcb>, scs: seq<Sched>, nodes: seq<Node>, Q: seq<seq<Ptr>>, s: Ptr)
  {
    ReleaseQueuesValid(tcbs, scs, nodes, Q) && ValidSc(scs, s)
    && HasRefills(tcbs, scs, scs[s].tcb) && !tcbs[scs[s].tcb].inReleaseQueue
    && tcbs[scs[s].tcb].affinity < |nodes| && scs[s].core < |nodes|
  }

  /** Position `n` of `q` is a place `t` can be linked in at: `t` is not in
      `q` and its neighbours there are distinct valid threads or NULL. */
  predicate Insertable(tcbs: seq<Tcb>, q: seq<Ptr>, t: Ptr, n: nat)
  {
    ValidTcb(tcbs, t) && n <= |q| && t !in q
    && Before(q, n) != t && After(q, n) != t && (Before(q, n) == NULL || Before(q, n) != After(q, n))
    && (Before(q, n) == NULL || ValidTcb(tcbs, Before(q, n))) && (After(q, n) == NULL || ValidTcb(tcbs, After(q, n)))
  }

  /** The state `postpone(sc)` leaves: the context's thread, taken off the
      run queue, is linked into its core's release queue at its insertion
      point (setting `ksReprogram` there when it becomes the head), and
      `ksReprogram` is set on the context's core. */
  ghost predicate Postponed(tcbs: seq<Tcb>, scs: seq<Sched>, nodes: seq<Node>, Q: seq<seq<Ptr>>, s: Ptr,
                            tcbs': seq<Tcb>, nodes': seq<Node>, Q': seq<seq<Ptr>>)
  {
    CanPostpone(tcbs, scs, nodes, Q, s)
    && var t := scs[s].tcb; var c := tcbs[t].affinity; var q := Q[c];
    var n := InsertionPoint(tcbs, scs, q, t);
    var linked := if n == 0 then nodes[c := nodes[c].(releaseHead := t, reprogram := true)] else nodes;
    Insertable(tcbs, q, t, n)
    && tcbs' == LinkIn(tcbs[t := tcbs[t].(queued := false)], Before(q, n), t, After(q, n))
    && Q' == Q[c := q[..n] + [t] + q[n..]]
    && nodes' == linked[scs[s].core := linked[scs[s].core].(reprogram := true)]
  }

  /** `postpone` takes the thread off the run queue and puts it in its core's
      release queue, sets `ksReprogram` on the context's core, keeps the
      release queues valid and every ordered queue ordered. */
  lemma PostponedFacts(tcbs: seq<Tcb>, scs: seq<Sched>, nodes: seq<Node>, Q: seq<seq<Ptr>>, s: Ptr,
                       tcbs': seq<Tcb>, nodes': seq<Node>, Q': seq<seq<Ptr>>)
    requires Postponed(tcbs, scs, nodes, Q, s, tcbs', nodes', Q')
    ensures var t := scs[s].tcb;
      !tcbs'[t].queued && tcbs'[t].inReleaseQueue && t in Q'[tcbs'[t].affinity] && nodes'[scs[s].core].reprogram
    ensures ReleaseQueuesValid(tcbs', scs, nodes', Q')
    ensures forall c :: 0 <= c < |Q| && ReleaseSorted(tcbs, scs, Q[c]) ==> ReleaseSorted(tcbs', scs, Q'[c])
  {
    PostponedValid(tcbs, scs, nodes, Q, s, tcbs', nodes', Q');
    PostponedSorted(tcbs, scs, nodes, Q, s, tcbs', nodes', Q');
  }

  lemma PostponedValid(tcbs: seq<Tcb>, scs: seq<Sched>, nodes: seq<Node>, Q: seq<seq<Ptr>>, s: Ptr,
                       tcbs': seq<Tcb>, nodes': seq<Node>, Q': seq<seq<Ptr>>)
    requires Postponed(tcbs, scs, nodes, Q, s, tcbs', nodes', Q')
    ensures var t := scs[s].tcb;
      !tcbs'[t].queued && tcbs'[t].inReleaseQueue && t in Q'[tcbs'[t].affinity] && nodes'[scs[s].core].reprogram
    ensures ReleaseQueuesValid(tcbs', scs, nodes', Q')
  {
    var t := scs[s].tcb;
    var c := tcbs[t].affinity;
    var q := Q[c];
    var n := InsertionPoint(tcbs, scs, q, t);
    var dequeued := tcbs[t := tcbs[t].(queued := false)];
    var linked := if n == 0 then nodes[c := nodes[c].(releaseHead := t, reprogram := true)] else nodes;
    assert EnqueueStep(dequeued, scs, nodes, Q, t, n, tcbs', linked, Q') by {
      QueuedFlagFrame(tcbs, scs, nodes, Q, t, false);
      QueuedFlagKeys(tcbs, scs, q, t, false);
    }
    EnqueueThenReprogram(dequeued, scs, nodes, Q, t, n, tcbs', linked, Q', scs[s].core, nodes');
    assert Q'[c][n] == t;
  }

  /** A release-queue insertion followed by setting `ksReprogram` on some core
      keeps the release queues valid. */
  lemma EnqueueThenReprogram(tcbs: seq<Tcb>, scs: seq<Sched>, nodes: seq<Node>, Q: seq<seq<Ptr>>, t: Ptr, n: nat,
                             tcbs': seq<Tcb>, linked: seq<Node>, Q': seq<seq<Ptr>>, core: nat, nodes': seq<Node>)
    requires EnqueueStep(tcbs, scs, nodes, Q, t, n, tcbs', linked, Q')
    requires core < |linked| && nodes' == linked[core := linked[core].(reprogram := true)]
    ensures ReleaseQueuesValid(tcbs', scs, nodes', Q')
  {
    EnqueueKeepsValid(tcbs, scs, nodes, Q, t, n, tcbs', linked, Q');
    HeadsFrame(tcbs', scs, linked, nodes', Q');
  }

  lemma PostponedSorted(tcbs: seq<Tcb>, scs: seq<Sched>, nodes: seq<Node>, Q: seq<seq<Ptr>>, s: Ptr,
                        tcbs': seq<Tcb>, nodes': seq<Node>, Q': seq<seq<Ptr>>)
    requires Postponed(tcbs, scs, nodes, Q, s, tcbs', nodes', Q')
    ensures forall c :: 0 <= c < |Q| && ReleaseSorted(tcbs, scs, Q[c]) ==> ReleaseSorted(tcbs', scs, Q'[c])
  {
    var t := scs[s].tcb;
    var c := tcbs[t].affinity;
    var q := Q[c];
    var n := InsertionPoint(tcbs, scs, q, t);
    var dequeued := tcbs[t := tcbs[t].(queued := false)];
    var linked := if n == 0 then nodes[c := nodes[c].(releaseHead := t, reprogram := true)] else nodes;
    forall d | 0 <= d < |Q|
      ensures ReleaseSorted(tcbs, scs, Q[d]) <==> ReleaseSorted(dequeued, scs, Q[d])
    {
      QueuedFlagKeys(tcbs, scs, Q[d], t, false);
    }
    QueuedFlagFrame(tcbs, scs, nodes, Q, t, false);
    QueuedFlagKeys(tcbs, scs, q, t, false);
    assert EnqueueStep(dequeued, scs, nodes, Q, t, n, tcbs', linked, Q');
    EnqueueKeepsSorted(dequeued, scs, nodes, Q, t, n, tcbs', linked, Q');
  }

  /** The states `Postpone` passes through make up a `Postponed` step. */
  lemma EnqueuedIsPostponed(tcbs: seq<Tcb>, scs: seq<Sched>, nodes: seq<Node>, Q: seq<seq<Ptr>>, s: Ptr,
                            dequeued: seq<Tcb>, tcbs': seq<Tcb>, linked: seq<Node>, Q': seq<seq<Ptr>>, nodes': seq<Node>)
    requires CanPostpone(tcbs, scs, nodes, Q, s)
    requires dequeued == tcbs[scs[s].tcb := tcbs[scs[s].tcb].(queued := false)]
    requires EnqueueStep(dequeued, scs, nodes, Q, scs[s].tcb,
                         InsertionPoint(dequeued, scs, Q[dequeued[scs[s].tcb].affinity], scs[s].tcb), tcbs', linked, Q')
    requires |linked| == |nodes| && nodes' == linked[scs[s].core := linked[scs[s].core].(reprogram := true)]
    ensures Postponed(tcbs, scs, nodes, Q, s, tcbs', nodes', Q')
  {
    var t := scs[s].tcb;
    QueuedFlagKeys(tcbs, scs, Q[tcbs[t].affinity], t, false);
    EnqueueStepDefined(tcbs, scs, nodes, Q, t, InsertionPoint(tcbs, scs, Q[tcbs[t].affinity], t));
  }

  /** `postpone`: `tcbSchedDequeue`, `tcbReleaseEnqueue`, then `ksReprogram`
      on the context's core (`Postponed`). */
  method Postpone(k: Kernel, s: Ptr)
    requires CanPostpone(k.tcbs, k.scs, k.nodes, k.releaseQueues, s)
    modifies k`tcbs, k`nodes, k`releaseQueues, k`log
    ensures Postponed(old(k.tcbs), k.scs, old(k.nodes), old(k.releaseQueues), s, k.tcbs, k.nodes, k.releaseQueues)
    ensures k.log == old(k.log) + [SchedDequeue(k.scs[s].tcb)]
  {
    DequeueThenEnqueue(k, s);
    var core := k.scs[s].core;
    k.nodes := k.nodes[core := k.nodes[core].(reprogram := true)];
  }

  /** The first two steps of `postpone`: the context's thread leaves the run
      queue and is linked into its core's release queue; setting
      `ksReprogram` on the context's core then completes `Postponed`. */
  method DequeueThenEnqueue(k: Kernel, s: Ptr)
    requires CanPostpone(k.tcbs, k.scs, k.nodes, k.releaseQueues, s)
    modifies k`tcbs, k`nodes, k`releaseQueues, k`log
    ensures k.scs[s].core < |k.nodes|
    ensures Postponed(old(k.tcbs), k.scs, old(k.nodes), old(k.releaseQueues), s, k.tcbs,
                      k.nodes[k.scs[s].core := k.nodes[k.scs[s].core].(reprogram := true)], k.releaseQueues)
    ensures k.log == old(k.log) + [SchedDequeue(k.scs[s].tcb)]
  {
    var t := k.scs[s].tcb;
    ghost var tcbs0, nodes0, Q0 := k.tcbs, k.nodes, k.releaseQueues;
    QueuedFlagFrame(k.tcbs, k.scs, k.nodes, k.releaseQueues, t, false);
    SchedDequeueTcb(k, t);
    ghost var dequeued := k.tcbs;
    ReleaseEnqueueStep(k, t);
    EnqueuedIsPostponed(tcbs0, k.scs, nodes0, Q0, s, dequeued, k.tcbs, k.nodes, k.releaseQueues,
                        k.nodes[k.scs[s].core := k.nodes[k.scs[s].core].(reprogram := true)]);
  }

  // ---------------------------------------------------------------------
  // endTimeslice

  /** The three ways `endTimeslice` can go. */
  datatype TimesliceEnd = RaiseTimeout | AppendToRunQueue | PostponeUntilReady

  /** The branch `endTimeslice` takes for the current context and thread. */
  function TimesliceEndBranch(canTimeoutFault: bool, sc: Sched, cur: Tcb, ops: RefillOps): TimesliceEnd
  {
    if canTimeoutFault && !IsRoundRobin(sc) && ValidTimeoutHandler(cur) then RaiseTimeout
    else if ops.ready(sc) && ops.sufficient(sc) then AppendToRunQueue
    else PostponeUntilReady
  }

  /** A timeout fault takes precedence; a round-robin context, or a call that
      may not raise a timeout fault, never raises one; otherwise the thread
      goes back on the run queue exactly when its refill is ready and
      sufficient, and is postponed exactly when it is not. */
  lemma TimesliceEndPriorities(canTimeoutFault: bool, sc: Sched, cur: Tcb, ops: RefillOps)
    ensures var b := TimesliceEndBranch(canTimeoutFault, sc, cur, ops);
      (canTimeoutFault && !IsRoundRobin(sc) && ValidTimeoutHandler(cur) ==> b == RaiseTimeout)
      && (b == RaiseTimeout ==> canTimeoutFault && !IsRoundRobin(sc) && cur.timeoutHandler.EndpointCap?)
      && (b != RaiseTimeout ==> (b == AppendToRunQueue <==> ops.ready(sc) && ops.sufficient(sc)))
      && (b == PostponeUntilReady ==> !ops.ready(sc) || !ops.sufficient(sc))
  {
  }

  /** What `endTimeslice` relies on: the current thread and context exist;
      a thread going back on the run queue is not on it already; a postponed
      context's thread can be put in the release queue. */
  ghost predicate CanEndTimeslice(tcbs: seq<Tcb>, scs: seq<Sched>, nodes: seq<Node>, Q: seq<seq<Ptr>>,
                                  core: nat, ops: RefillOps, canTimeoutFault: bool)
  {
    core < |nodes| && ValidTcb(tcbs, nodes[core].curThread) && ValidSc(scs, nodes[core].curSC)
    && ReleaseQueuesValid(tcbs, scs, nodes, Q)
    && match TimesliceEndBranch(canTimeoutFault, scs[nodes[core].curSC], tcbs[nodes[core].curThread], ops)
       case RaiseTimeout => true
       case AppendToRunQueue => !tcbs[nodes[core].curThread].queued
       case PostponeUntilReady => CanPostpone(tcbs, scs, nodes, Q, nodes[core].curSC)
  }

  /** The state `endTimeslice` leaves after branch `b` for thread `cur` and context `s`. */
  ghost predicate TimesliceEnded(b: TimesliceEnd, cur: Ptr, s: Ptr,
                                 tcbs: seq<Tcb>, scs: seq<Sched>, nodes: seq<Node>, Q: seq<seq<Ptr>>, log: seq<Call>, fault: Fault,
                                 tcbs': seq<Tcb>, nodes': seq<Node>, Q': seq<seq<Ptr>>, log': seq<Call>, fault': Fault)
  {
    ValidTcb(tcbs, cur) && ValidSc(scs, s)
    && match b
       case RaiseTimeout =>
         fault' == TimeoutFault(scs[s].badge) && log' == log + [HandleTimeout(cur)]
         && tcbs' == tcbs && nodes' == nodes && Q' == Q
       case AppendToRunQueue =>
         tcbs' == tcbs[cur := tcbs[cur].(queued := true)] && log' == log + [SchedAppend(cur)]
         && nodes' == nodes && Q' == Q && fault' == fault
       case PostponeUntilReady =>
         Postponed(tcbs, scs, nodes, Q, s, tcbs', nodes', Q') && log' == log + [SchedDequeue(scs[s].tcb)]
         && fault' == fault
  }

  /** Every way of ending a timeslice keeps the release queues valid and
      every ordered release queue ordered. */
  lemma TimesliceEndedFacts(b: TimesliceEnd, cur: Ptr, s: Ptr,
                            tcbs: seq<Tcb>, scs: seq<Sched>, nodes: seq<Node>, Q: seq<seq<Ptr>>, log: seq<Call>, fault: Fault,
                            tcbs': seq<Tcb>, nodes': seq<Node>, Q': seq<seq<Ptr>>, log': seq<Call>, fault': Fault)
    requires ReleaseQueuesValid(tcbs, scs, nodes, Q)
    requires TimesliceEnded(b, cur, s, tcbs, scs, nodes, Q, log, fault, tcbs', nodes', Q', log', fault')
    ensures ReleaseQueuesValid(tcbs', scs, nodes', Q')
    ensures forall c :: 0 <= c < |Q| && ReleaseSorted(tcbs, scs, Q[c]) ==> ReleaseSorted(tcbs', scs, Q'[c])
  {
    match b
    case RaiseTimeout =>
    case AppendToRunQueue =>
      QueuedFlagFrame(tcbs, scs, nodes, Q, cur, true);
      forall c | 0 <= c < |Q|
        ensures ReleaseSorted(tcbs, scs, Q[c]) <==> ReleaseSorted(tcbs', scs, Q'[c])
      {
        QueuedFlagKeys(tcbs, scs, Q[c], cur, true);
      }
    case PostponeUntilReady =>
      PostponedFacts(tcbs, scs, nodes, Q, s, tcbs', nodes', Q');
  }

  /** Of a core's state, at most the release-queue head and `ksReprogram` differ. */
  ghost predicate OnlyReleaseStateDiffers(nodes: seq<Node>, nodes': seq<Node>)
  {
    |nodes'| == |nodes|
    && forall c :: 0 <= c < |nodes| ==>
         nodes'[c] == nodes[c].(releaseHead := nodes'[c].releaseHead, reprogram := nodes'[c].reprogram)
  }

  /** Ending a timeslice changes no core's current thread, context, time or
      consumed time. */
  lemma TimesliceEndedFrame(b: TimesliceEnd, cur: Ptr, s: Ptr,
                            tcbs: seq<Tcb>, scs: seq<Sched>, nodes: seq<Node>, Q: seq<seq<Ptr>>, log: seq<Call>, fault: Fault,
                            tcbs': seq<Tcb>, nodes': seq<Node>, Q': seq<seq<Ptr>>, log': seq<Call>, fault': Fault)
    requires TimesliceEnded(b, cur, s, tcbs, scs, nodes, Q, log, fault, tcbs', nodes', Q', log', fault')
    ensures OnlyReleaseStateDiffers(nodes, nodes')
  {
  }

  /** `endTimeslice` on core `core`. */
  method EndTimeslice(k: Kernel, core: nat, ops: RefillOps, canTimeoutFault: bool)
    requires CanEndTimeslice(k.tcbs, k.scs, k.nodes, k.releaseQueues, core, ops, canTimeoutFault)
    modifies k`tcbs, k`nodes, k`releaseQueues, k`log, k`currentFault
    ensures var n := old(k.nodes[core]);
      TimesliceEnded(TimesliceEndBranch(canTimeoutFault, k.scs[n.curSC], old(k.tcbs[n.curThread]), ops), n.curThread, n.curSC,
                     old(k.tcbs), k.scs, old(k.nodes), old(k.releaseQueues), old(k.log), old(k.currentFault),
                     k.tcbs, k.nodes, k.releaseQueues, k.log, k.currentFault)
  {
    var cur, s := k.nodes[core].curThread, k.nodes[core].curSC;
    if canTimeoutFault && !IsRoundRobin(k.scs[s]) && ValidTimeoutHandler(k.tcbs[cur]) {
      k.currentFault := TimeoutFault(k.scs[s].badge);
      k.log := k.log + [HandleTimeout(cur)];
    } else if ops.ready(k.scs[s]) && ops.sufficient(k.scs[s]) {
      QueuedFlagFrame(k.tcbs, k.scs, k.nodes, k.releaseQueues, cur, true);
      SchedQueueTcb(k, cur, false);
    } else {
      Postpone(k, s);
    }
  }

  // ---------------------------------------------------------------------
  // chargeBudget

  /** The total budget of a list of refills. */
  function TotalAmount(r: seq<Refill>): nat
  {
    if |r| == 0 then 0 else r[0].rAmount + TotalAmount(r[1..])
  }

  lemma TotalAmountPair(r: seq<Refill>)
    requires |r| == 2
    ensures TotalAmount(r) == r[0].rAmount + r[1].rAmount
  {
    assert r[1..][0] == r[1] && r[1..][1..] == [];
    assert TotalAmount(r[1..]) == r[1].rAmount + TotalAmount(r[1..][1..]);
  }

  /** The round-robin charge of a context with `MIN_REFILLS` refills: the
      tail's budget is merged into the head. The total is preserved, the tail
      is left empty and both release times stay. */
  function RoundRobinMerge(r: seq<Refill>): (m: seq<Refill>)
    requires |r| == MIN_REFILLS
    ensures |m| == MIN_REFILLS && TotalAmount(m) == TotalAmount(r)
    ensures m[0].rAmount == TotalAmount(r) && m[1].rAmount == 0
    ensures m[0].rTime == r[0].rTime && m[1].rTime == r[1].rTime
  {
    var m := [r[0].(rAmount := r[0].rAmount + r[1].rAmount), r[1].(rAmount := 0)];
    TotalAmountPair(r);
    TotalAmountPair(m);
    m
  }

  /** The assertions `chargeBudget` makes about the context it charges: a
      round-robin context has exactly `MIN_REFILLS` refills, and the head
      refill that charging leaves holds at least `MIN_BUDGET`. */
  predicate CanCharge(sc: Sched, ops: RefillOps, consumed: nat)
  {
    if IsRoundRobin(sc) then |sc.refills| == MIN_REFILLS && sc.refills[0].rAmount + sc.refills[1].rAmount >= ops.minBudget
    else |ops.budgetCheck(sc, consumed)| > 0 && ops.budgetCheck(sc, consumed)[0].rAmount >= ops.minBudget
  }

  /** A charged context: round robin merges its refills, a budgeted context
      takes what `refill_budget_check` leaves, and `scConsumed` grows by
      exactly `consumed`; no other field changes and the head refill keeps at
      least `MIN_BUDGET`. */
  function ChargedSc(sc: Sched, ops: RefillOps, consumed: nat): (r: Sched)
    requires CanCharge(sc, ops, consumed)
    ensures r == sc.(refills := r.refills, consumed := sc.consumed + consumed)
    ensures |r.refills| > 0 && r.refills[0].rAmount >= ops.minBudget
    ensures IsRoundRobin(sc) ==>
      |r.refills| == MIN_REFILLS && TotalAmount(r.refills) == TotalAmount(sc.refills) && r.refills[1].rAmount == 0
    ensures !IsRoundRobin(sc) ==> r.refills == ops.budgetCheck(sc, consumed)
  {
    var refills := if IsRoundRobin(sc) then RoundRobinMerge(sc.refills) else ops.budgetCheck(sc, consumed);
    sc.(refills := refills, consumed := sc.consumed + consumed)
  }

  /** The contexts after `chargeBudget` on a core whose state is `n`: the idle
      context is never charged. */
  function ChargedScs(scs: seq<Sched>, n: Node, ops: RefillOps, consumed: nat): (r: seq<Sched>)
    requires n.curSC != n.idleSC ==> ValidSc(scs, n.curSC) && CanCharge(scs[n.curSC], ops, consumed)
    ensures |r| == |scs|
    ensures forall s :: 0 <= s < |scs| && s != n.curSC ==> r[s] == scs[s]
    ensures 0 <= n.idleSC < |scs| ==> r[n.idleSC] == scs[n.idleSC]
    ensures n.curSC != n.idleSC ==> r[n.curSC] == ChargedSc(scs[n.curSC], ops, consumed)
  {
    if n.curSC == n.idleSC then scs else scs[n.curSC := ChargedSc(scs[n.curSC], ops, consumed)]
  }

  /** Charging keeps each context's refill limit and leaves every non-empty
      refill list non-empty. */
  lemma ChargedScsKeepRefills(scs: seq<Sched>, n: Node, ops: RefillOps, consumed: nat)
    requires n.curSC != n.idleSC ==> ValidSc(scs, n.curSC) && CanCharge(scs[n.curSC], ops, consumed)
    ensures var r := ChargedScs(scs, n, ops, consumed);
      forall s :: 0 <= s < |scs| ==>
        r[s].refillMax == scs[s].refillMax && (|scs[s].refills| > 0 ==> |r[s].refills| > 0)
  {
  }

  /** What `chargeBudget` relies on: a charged context passes its assertions,
      and a thread that is schedulable runs on the current context and can
      end its timeslice once the charge is made. */
  ghost predicate CanChargeBudget(tcbs: seq<Tcb>, scs: seq<Sched>, nodes: seq<Node>, Q: seq<seq<Ptr>>,
                                  core: nat, ops: RefillOps, consumed: nat, canTimeoutFault: bool)
  {
    core < |nodes| && ReleaseQueuesValid(tcbs, scs, nodes, Q)
    && var n := nodes[core];
    (n.curSC != n.idleSC ==> ValidSc(scs, n.curSC) && CanCharge(scs[n.curSC], ops, consumed))
    && (IsSchedulable(tcbs, scs, n.curThread) ==>
          tcbs[n.curThread].sc == n.curSC
          && CanEndTimeslice(tcbs, ChargedScs(scs, n, ops, consumed), nodes[core := n.(consumed := 0)], Q,
                             core, ops, canTimeoutFault))
  }

  /** Charges the current context on its refills. */
  method ChargeRefills(k: Kernel, core: nat, ops: RefillOps, consumed: nat)
    requires core < |k.nodes|
    requires var n := k.nodes[core];
      n.curSC != n.idleSC ==> ValidSc(k.scs, n.curSC) && CanCharge(k.scs[n.curSC], ops, consumed)
    modifies k`scs
    ensures k.scs == ChargedScs(old(k.scs), k.nodes[core], ops, consumed)
  {
    var s := k.nodes[core].curSC;
    if s != k.nodes[core].idleSC {
      if IsRoundRobin(k.scs[s]) {
        var refills := k.scs[s].refills;
        var tail := |refills| - 1;
        refills := refills[0 := refills[0].(rAmount := refills[0].rAmount + refills[tail].rAmount)];
        refills := refills[tail := refills[tail].(rAmount := 0)];
        assert refills == RoundRobinMerge(k.scs[s].refills);
        k.scs := k.scs[s := k.scs[s].(refills := refills)];
      } else {
        k.scs := k.scs[s := k.scs[s].(refills := ops.budgetCheck(k.scs[s], consumed))];
      }
      k.scs := k.scs[s := k.scs[s].(consumed := k.scs[s].consumed + consumed)];
    }
  }

  /** The end of a schedulable thread's charge: `endTimeslice`,
      `rescheduleRequired`, then `ksReprogram`; `ended` and `endedLog` are
      the node states and log `endTimeslice` leaves. */
  method EndChargedTimeslice(k: Kernel, core: nat, ops: RefillOps, canTimeoutFault: bool)
    returns (ghost ended: seq<Node>, ghost endedLog: seq<Call>)
    requires CanEndTimeslice(k.tcbs, k.scs, k.nodes, k.releaseQueues, core, ops, canTimeoutFault)
    modifies k`tcbs, k`nodes, k`releaseQueues, k`log, k`currentFault
    ensures k.log == endedLog + [RescheduleRequired]
    ensures OnlyReleaseStateDiffers(old(k.nodes), ended) && |ended| == |old(k.nodes)|
    ensures |ended| == |k.nodes| && k.nodes == ended[core := ended[core].(reprogram := true)]
    ensures var n := old(k.nodes[core]);
      TimesliceEnded(TimesliceEndBranch(canTimeoutFault, k.scs[n.curSC], old(k.tcbs[n.curThread]), ops),
                     n.curThread, n.curSC, old(k.tcbs), k.scs, old(k.nodes), old(k.releaseQueues), old(k.log),
                     old(k.currentFault), k.tcbs, ended, k.releaseQueues, endedLog, k.currentFault)
  {
    EndTimeslice(k, core, ops, canTimeoutFault);
    ended, endedLog := k.nodes, k.log;
    ghost var n := old(k.nodes[core]);
    TimesliceEndedFrame(TimesliceEndBranch(canTimeoutFault, k.scs[n.curSC], old(k.tcbs[n.curThread]), ops),
                        n.curThread, n.curSC, old(k.tcbs), k.scs, old(k.nodes), old(k.releaseQueues), old(k.log),
                        old(k.currentFault), k.tcbs, ended, k.releaseQueues, endedLog, k.currentFault);
    k.log := k.log + [RescheduleRequired];
    k.nodes := k.nodes[core := k.nodes[core].(reprogram := true)];
  }

  /** The state `chargeBudget(consumed, canTimeoutFault)` on core `core`
      leaves. The contexts are charged (`ChargedScs`) and `ksConsumed`
      becomes 0. When the current thread is schedulable its timeslice ends
      (`TimesliceEnded`, leaving the node states `ended` and the log
      `endedLog`), then `rescheduleRequired` runs and `ksReprogram` is set;
      otherwise nothing else changes. */
  ghost predicate BudgetCharged(tcbs: seq<Tcb>, scs: seq<Sched>, nodes: seq<Node>, Q: seq<seq<Ptr>>, log: seq<Call>, fault: Fault,
                                core: nat, ops: RefillOps, consumed: nat, canTimeoutFault: bool,
                                ended: seq<Node>, endedLog: seq<Call>,
                                tcbs': seq<Tcb>, scs': seq<Sched>, nodes': seq<Node>, Q': seq<seq<Ptr>>, log': seq<Call>, fault': Fault)
  {
    CanChargeBudget(tcbs, scs, nodes, Q, core, ops, consumed, canTimeoutFault)
    && var n := nodes[core];
    scs' == ChargedScs(scs, n, ops, consumed)
    && |nodes'| == |nodes| && nodes'[core].consumed == 0
    && (!IsSchedulable(tcbs, scs, n.curThread) ==>
          tcbs' == tcbs && nodes' == nodes[core := n.(consumed := 0)] && Q' == Q && log' == log && fault' == fault)
    && (IsSchedulable(tcbs, scs, n.curThread) ==>
          log' == endedLog + [RescheduleRequired]
          && |ended| == |nodes'| && nodes' == ended[core := ended[core].(reprogram := true)]
          && TimesliceEnded(TimesliceEndBranch(canTimeoutFault, scs'[n.curSC], tcbs[n.curThread], ops),
                            n.curThread, n.curSC, tcbs, scs', nodes[core := n.(consumed := 0)], Q, log, fault,
                            tcbs', ended, Q', endedLog, fault'))
  }

  /** Charging keeps the release queues valid, and ending the timeslice
      keeps every release queue that is ordered under the charged contexts
      ordered. */
  lemma BudgetChargedFacts(tcbs: seq<Tcb>, scs: seq<Sched>, nodes: seq<Node>, Q: seq<seq<Ptr>>, log: seq<Call>, fault: Fault,
                           core: nat, ops: RefillOps, consumed: nat, canTimeoutFault: bool,
                           ended: seq<Node>, endedLog: seq<Call>,
                           tcbs': seq<Tcb>, scs': seq<Sched>, nodes': seq<Node>, Q': seq<seq<Ptr>>, log': seq<Call>, fault': Fault)
    requires BudgetCharged(tcbs, scs, nodes, Q, log, fault, core, ops, consumed, canTimeoutFault, ended, endedLog,
                           tcbs', scs', nodes', Q', log', fault')
    ensures ReleaseQueuesValid(tcbs', scs', nodes', Q')
    ensures forall c :: 0 <= c < |Q| && ReleaseSorted(tcbs, scs', Q[c]) ==> ReleaseSorted(tcbs', scs', Q'[c])
  {
    var n := nodes[core];
    var cleared := nodes[core := n.(consumed := 0)];
    ChargeKeepsValid(tcbs, scs, nodes, Q, core, ops, consumed);
    if IsSchedulable(tcbs, scs, n.curThread) {
      var b := TimesliceEndBranch(canTimeoutFault, scs'[n.curSC], tcbs[n.curThread], ops);
      TimesliceEndedFacts(b, n.curThread, n.curSC, tcbs, scs', cleared, Q, log, fault, tcbs', ended, Q', endedLog, fault');
      HeadsFrame(tcbs', scs', ended, nodes', Q');
    }
  }

  /** Charging the current context and clearing `ksConsumed` keeps the
      release queues valid. */
  lemma ChargeKeepsValid(tcbs: seq<Tcb>, scs: seq<Sched>, nodes: seq<Node>, Q: seq<seq<Ptr>>,
                         core: nat, ops: RefillOps, consumed: nat)
    requires ReleaseQueuesValid(tcbs, scs, nodes, Q) && core < |nodes|
    requires var n := nodes[core]; n.curSC != n.idleSC ==> ValidSc(scs, n.curSC) && CanCharge(scs[n.curSC], ops, consumed)
    ensures ReleaseQueuesValid(tcbs, ChargedScs(scs, nodes[core], ops, consumed), nodes[core := nodes[core].(consumed := 0)], Q)
  {
    var scs' := ChargedScs(scs, nodes[core], ops, consumed);
    ChargedScsKeepRefills(scs, nodes[core], ops, consumed);
    RefillsFrame(tcbs, scs, scs', nodes, Q);
    HeadsFrame(tcbs, scs', nodes, nodes[core := nodes[core].(consumed := 0)], Q);
  }

  method ChargeBudget(k: Kernel, core: nat, ops: RefillOps, consumed: nat, canTimeoutFault: bool)
    returns (ghost ended: seq<Node>, ghost endedLog: seq<Call>)
    requires CanChargeBudget(k.tcbs, k.scs, k.nodes, k.releaseQueues, core, ops, consumed, canTimeoutFault)
    modifies k`scs, k`tcbs, k`nodes, k`releaseQueues, k`log, k`currentFault
    ensures BudgetCharged(old(k.tcbs), old(k.scs), old(k.nodes), old(k.releaseQueues), old(k.log), old(k.currentFault),
                          core, ops, consumed, canTimeoutFault, ended, endedLog,
                          k.tcbs, k.scs, k.nodes, k.releaseQueues, k.log, k.currentFault)
  {
    ghost var scs0, nodes0 := k.scs, k.nodes;
    ChargeRefills(k, core, ops, consumed);
    k.nodes := k.nodes[core := k.nodes[core].(consumed := 0)];
    var cur := k.nodes[core].curThread;
    assert IsSchedulable(k.tcbs, k.scs, cur) == IsSchedulable(k.tcbs, scs0, cur);
    if IsSchedulable(k.tcbs, k.scs, cur) {
      ghost var nodes1 := k.nodes;
      assert nodes1 == nodes0[core := nodes0[core].(consumed := 0)];
      ended, endedLog := EndChargedTimeslice(k, core, ops, canTimeoutFault);
      assert ended[core].consumed == nodes1[core].consumed;
    } else {
      ended, endedLog := k.nodes, k.log;
    }
  }

  // ---------------------------------------------------------------------
  // setNextInterrupt

  function Min(a: nat, b: nat): nat
  {
    if a <= b then a else b
  }

  /** The earliest of the events the next timer interrupt must not miss: the
      end of the current head refill, the end of the current domain (when
      there is more than one domain) and the release of the release queue's
      head (when it has one). */
  function EarliestEvent(refillEnd: nat, domainEnd: Option<nat>, release: Option<nat>): (r: nat)
    ensures r <= refillEnd
    ensures domainEnd.Some? ==> r <= domainEnd.value
    ensures release.Some? ==> r <= release.value
    ensures r == refillEnd || (domainEnd.Some? && r == domainEnd.value) || (release.Some? && r == release.value)
  {
    var a := if domainEnd.Some? then Min(refillEnd, domainEnd.value) else refillEnd;
    if release.Some? then Min(release.value, a) else a
  }

  /** `setNextInterrupt` on core `core`, returning the value given to
      `setDeadline`: the earliest event less the timer precision, as an
      unsigned 64-bit subtraction. */
  method SetNextInterrupt(k: Kernel, core: nat, ops: RefillOps) returns (deadline: Word)
    requires core < |k.nodes| && HasRefills(k.tcbs, k.scs, k.nodes[core].curThread)
    requires k.nodes[core].releaseHead != NULL ==> HasRefills(k.tcbs, k.scs, k.nodes[core].releaseHead)
    ensures var n := k.nodes[core];
      var domainEnd := if k.numDomains > 1 then Some(n.curTime + k.domainTime) else None;
      var release := if n.releaseHead != NULL then Some(RTime(k.tcbs, k.scs, n.releaseHead)) else None;
      var refillEnd := n.curTime + k.scs[k.tcbs[n.curThread].sc].refills[0].rAmount;
      deadline == (EarliestEvent(refillEnd, domainEnd, release) - ops.timerPrecision) % WORD_MODULUS
  {
    var n := k.nodes[core];
    var nextInterrupt := n.curTime + k.scs[k.tcbs[n.curThread].sc].refills[0].rAmount;
    if k.numDomains > 1 {
      nextInterrupt := Min(nextInterrupt, n.curTime + k.domainTime);
    }
    if n.releaseHead != NULL {
      nextInterrupt := Min(k.scs[k.tcbs[n.releaseHead].sc].refills[0].rTime, nextInterrupt);
    }
    deadline := (nextInterrupt - ops.timerPrecision) % WORD_MODULUS;
  }

  // ---------------------------------------------------------------------
  // awaken

  /** The `possibleSwitchTo` calls for the threads `ws`, in order. */
  function SwitchCalls(ws: seq<Ptr>): (r: seq<Call>)
    ensures |r| == |ws| && forall i :: 0 <= i < |ws| ==> r[i] == PossibleSwitchTo(ws[i])
  {
    if |ws| == 0 then [] else SwitchCalls(ws[..|ws| - 1]) + [PossibleSwitchTo(ws[|ws| - 1])]
  }

  /** What `awaken` asserts about every thread it may wake: a budgeted
      (not round-robin) context whose head refill is sufficient. */
  ghost predicate Wakeable(tcbs: seq<Tcb>, scs: seq<Sched>, q: seq<Ptr>, ops: RefillOps)
  {
    forall i :: 0 <= i < |q| ==>
      HasRefills(tcbs, scs, q[i]) && !IsRoundRobin(scs[tcbs[q[i]].sc]) && ops.sufficient(scs[tcbs[q[i]].sc])
  }

  lemma SwitchCallsAppend(ws: seq<Ptr>, x: Ptr)
    ensures SwitchCalls(ws + [x]) == SwitchCalls(ws) + [PossibleSwitchTo(x)]
  {
    assert (ws + [x])[..|ws|] == ws;
  }

  /** Every thread of `ws` has a context whose head refill is ready. */
  ghost predicate AllReady(tcbs: seq<Tcb>, scs: seq<Sched>, ws: seq<Ptr>, ops: RefillOps)
  {
    forall i :: 0 <= i < |ws| ==> HasRefills(tcbs, scs, ws[i]) && ops.ready(scs[tcbs[ws[i]].sc])
  }

  lemma AllReadyAppend(tcbs: seq<Tcb>, scs: seq<Sched>, ws: seq<Ptr>, x: Ptr, ops: RefillOps)
    requires AllReady(tcbs, scs, ws, ops) && HasRefills(tcbs, scs, x) && ops.ready(scs[tcbs[x].sc])
    ensures AllReady(tcbs, scs, ws + [x], ops)
  {
  }

  /** Taking one more thread off the front of `q[m..]`. */
  lemma PrefixGrows(q: seq<Ptr>, m: nat)
    requires m < |q|
    ensures q[..m + 1] == q[..m] + [q[m]] && q[m + 1..] == q[m..][1..]
  {
  }

  lemma OnlyLinksDifferTrans(a: seq<Tcb>, b: seq<Tcb>, c: seq<Tcb>)
    requires OnlyLinksDiffer(a, b) && OnlyLinksDiffer(b, c)
    ensures OnlyLinksDiffer(a, c)
  {
    forall x | 0 <= x < |a|
      ensures c[x] == a[x].(schedNext := c[x].schedNext, schedPrev := c[x].schedPrev, inReleaseQueue := c[x].inReleaseQueue)
    {
      assert b[x] == a[x].(schedNext := b[x].schedNext, schedPrev := b[x].schedPrev, inReleaseQueue := b[x].inReleaseQueue);
      assert c[x] == b[x].(schedNext := c[x].schedNext, schedPrev := c[x].schedPrev, inReleaseQueue := c[x].inReleaseQueue);
    }
  }

  /** Draining a prefix of one release queue, while only links change, keeps
      every ordered release queue ordered. */
  lemma DrainKeepsSorted(tcbs: seq<Tcb>, tcbs': seq<Tcb>, scs: seq<Sched>, Q: seq<seq<Ptr>>, core: nat, m: nat)
    requires OnlyLinksDiffer(tcbs, tcbs') && core < |Q| && m <= |Q[core]|
    ensures var Q' := Q[core := Q[core][m..]];
      forall c :: 0 <= c < |Q| && ReleaseSorted(tcbs, scs, Q[c]) ==> ReleaseSorted(tcbs', scs, Q'[c])
  {
    var Q' := Q[core := Q[core][m..]];
    forall c | 0 <= c < |Q| && ReleaseSorted(tcbs, scs, Q[c])
      ensures ReleaseSorted(tcbs', scs, Q'[c])
    {
      SameKeys(tcbs, tcbs', scs, Q'[c]);
      if c == core {
        forall i, j | 0 <= i < j < |Q'[c]|
          ensures RTime(tcbs, scs, Q'[c][i]) <= RTime(tcbs, scs, Q'[c][j])
        {
          assert Q'[c][i] == Q[c][m + i] && Q'[c][j] == Q[c][m + j];
        }
      }
    }
  }

  /** One round of `awaken`'s loop on core `core`: `tcbReleaseDequeue`,
      `possibleSwitchTo` of the dequeued head, and `ksReprogram`. */
  method WakeReleaseHead(k: Kernel, core: nat) returns (awakened: Ptr)
    requires core < |k.nodes| && k.nodes[core].releaseHead != NULL
    requires ReleaseQueuesValid(k.tcbs, k.scs, k.nodes, k.releaseQueues)
    modifies k`tcbs, k`nodes, k`log, k`releaseQueues
    ensures |old(k.releaseQueues[core])| > 0 && awakened == old(k.releaseQueues[core][0])
    ensures awakened == old(k.nodes[core].releaseHead) && HasRefills(old(k.tcbs), k.scs, awakened)
    ensures k.releaseQueues == old(k.releaseQueues)[core := old(k.releaseQueues[core][1..])]
    ensures k.log == old(k.log) + [PossibleSwitchTo(awakened)]
    ensures |k.nodes| == |old(k.nodes)|
    ensures k.nodes == old(k.nodes)[core := old(k.nodes[core]).(releaseHead := k.nodes[core].releaseHead, reprogram := true)]
    ensures OnlyLinksDiffer(old(k.tcbs), k.tcbs)
    ensures ReleaseQueuesValid(k.tcbs, k.scs, k.nodes, k.releaseQueues)
  {
    ReleaseHeadFacts(k.tcbs, k.scs, k.nodes, k.releaseQueues, core);
    awakened := TcbReleaseDequeue(k, core);
    k.log := k.log + [PossibleSwitchTo(awakened)];
    ghost var dequeued := k.nodes;
    k.nodes := k.nodes[core := k.nodes[core].(reprogram := true)];
    HeadsFrame(k.tcbs, k.scs, dequeued, k.nodes, k.releaseQueues);
  }

  /** `awaken`'s loop invariant: `woken`, the threads woken so far, is the
      drained prefix of core `core`'s release queue; the log holds one
      `possibleSwitchTo` per woken thread; the core's release head moved and
      `ksReprogram` is set once a thread was woken; only links changed; and
      every woken thread was ready. */
  ghost predicate Drained(tcbs0: seq<Tcb>, scs: seq<Sched>, nodes0: seq<Node>, Q0: seq<seq<Ptr>>, log0: seq<Call>,
                          core: nat, ops: RefillOps, woken: seq<Ptr>,
                          tcbs: seq<Tcb>, nodes: seq<Node>, Q: seq<seq<Ptr>>, log: seq<Call>)
  {
    core < |nodes0| && |Q0| == |nodes0|
    && var q := Q0[core];
    |woken| <= |q| && woken == q[..|woken|] && Q == Q0[core := q[|woken|..]]
    && log == log0 + SwitchCalls(woken)
    && |nodes| == |nodes0| && nodes == nodes0[core := nodes0[core].(releaseHead := nodes[core].releaseHead,
                                            reprogram := nodes0[core].reprogram || |woken| > 0)]
    && OnlyLinksDiffer(tcbs0, tcbs) && AllReady(tcbs0, scs, woken, ops)
  }

  /** One round of the loop, waking the ready head `a`, keeps the invariant. */
  lemma DrainedStep(tcbs0: seq<Tcb>, scs: seq<Sched>, nodes0: seq<Node>, Q0: seq<seq<Ptr>>, log0: seq<Call>,
                    core: nat, ops: RefillOps, woken: seq<Ptr>,
                    tcbs: seq<Tcb>, nodes: seq<Node>, Q: seq<seq<Ptr>>, log: seq<Call>, a: Ptr,
                    tcbs': seq<Tcb>, nodes': seq<Node>, Q': seq<seq<Ptr>>, log': seq<Call>)
    requires Drained(tcbs0, scs, nodes0, Q0, log0, core, ops, woken, tcbs, nodes, Q, log)
    requires |Q[core]| > 0 && a == Q[core][0] && ValidTcb(tcbs, a)
    requires HasRefills(tcbs, scs, a) && ops.ready(scs[tcbs[a].sc])
    requires Q' == Q[core := Q[core][1..]] && log' == log + [PossibleSwitchTo(a)]
    requires |nodes'| == |nodes| && nodes' == nodes[core := nodes[core].(releaseHead := nodes'[core].releaseHead, reprogram := true)]
    requires OnlyLinksDiffer(tcbs, tcbs')
    ensures |woken| < |Q0[core]| && a == Q0[core][|woken|]
    ensures Drained(tcbs0, scs, nodes0, Q0, log0, core, ops, woken + [a], tcbs', nodes', Q', log')
  {
    DrainQueueStep(Q0, core, woken, Q, a, Q');
    SwitchCallsAppend(woken, a);
    assert tcbs0[a].sc == tcbs[a].sc;
    AllReadyAppend(tcbs0, scs, woken, a, ops);
    OnlyLinksDifferTrans(tcbs0, tcbs, tcbs');
  }

  /** The queue side of one round: the woken head is the next thread of the
      original queue, and the drained prefix grows by it. */
  lemma DrainQueueStep(Q0: seq<seq<Ptr>>, core: nat, woken: seq<Ptr>, Q: seq<seq<Ptr>>, a: Ptr, Q': seq<seq<Ptr>>)
    requires core < |Q0| && |woken| <= |Q0[core]| && woken == Q0[core][..|woken|]
    requires Q == Q0[core := Q0[core][|woken|..]] && |Q[core]| > 0 && a == Q[core][0]
    requires Q' == Q[core := Q[core][1..]]
    ensures |woken| < |Q0[core]| && a == Q0[core][|woken|]
    ensures woken + [a] == Q0[core][..|woken| + 1] && Q' == Q0[core := Q0[core][|woken| + 1..]]
  {
    PrefixGrows(Q0[core], |woken|);
  }

  /** The current thread, should it wait in `q` (as after `postpone` of its
      own context), is not due: its head refill is not ready. */
  ghost predicate CurrentNotReady(tcbs: seq<Tcb>, scs: seq<Sched>, q: seq<Ptr>, cur: Ptr, ops: RefillOps)
  {
    cur in q ==> HasRefills(tcbs, scs, cur) && !ops.ready(scs[tcbs[cur].sc])
  }

  /** The kernel's checks on a woken thread hold for every ready thread of a
      wakeable queue in which the current thread, if present, is not ready. */
  lemma WokenChecks(tcbs0: seq<Tcb>, tcbs: seq<Tcb>, scs: seq<Sched>, q: seq<Ptr>, m: nat, cur: Ptr, ops: RefillOps)
    requires Wakeable(tcbs0, scs, q, ops) && CurrentNotReady(tcbs0, scs, q, cur, ops)
    requires m < |q| && OnlyLinksDiffer(tcbs0, tcbs)
    requires ops.ready(scs[tcbs0[q[m]].sc])
    ensures q[m] != cur && ValidTcb(tcbs, q[m])
    ensures !IsRoundRobin(scs[tcbs[q[m]].sc]) && ops.sufficient(scs[tcbs[q[m]].sc])
  {
    assert tcbs0[q[m]].sc == tcbs[q[m]].sc;
    assert q[m] in q;
  }

  /** The body of `awaken`'s loop, with the kernel's checks on the woken
      thread: it keeps the loop invariant with one more thread woken. */
  method AwakenRound(k: Kernel, core: nat, ops: RefillOps, ghost tcbs0: seq<Tcb>, ghost nodes0: seq<Node>,
                     ghost Q0: seq<seq<Ptr>>, ghost log0: seq<Call>, ghost woken: seq<Ptr>, cur: Ptr)
    returns (awakened: Ptr)
    requires Drained(tcbs0, k.scs, nodes0, Q0, log0, core, ops, woken, k.tcbs, k.nodes, k.releaseQueues, k.log)
    requires ReleaseQueuesValid(k.tcbs, k.scs, k.nodes, k.releaseQueues)
    requires Wakeable(tcbs0, k.scs, Q0[core], ops) && CurrentNotReady(tcbs0, k.scs, Q0[core], cur, ops)
    requires k.nodes[core].releaseHead != NULL && ValidTcb(k.tcbs, k.nodes[core].releaseHead)
    requires ops.ready(k.scs[k.tcbs[k.nodes[core].releaseHead].sc])
    modifies k`tcbs, k`nodes, k`log, k`releaseQueues
    ensures Drained(tcbs0, k.scs, nodes0, Q0, log0, core, ops, woken + [awakened], k.tcbs, k.nodes, k.releaseQueues, k.log)
    ensures ReleaseQueuesValid(k.tcbs, k.scs, k.nodes, k.releaseQueues)
    ensures awakened != cur && |k.releaseQueues[core]| < |old(k.releaseQueues[core])|
  {
    ghost var tcbs1, nodes1, Q1, log1 := k.tcbs, k.nodes, k.releaseQueues, k.log;
    awakened := WakeReleaseHead(k, core);
    DrainedStep(tcbs0, k.scs, nodes0, Q0, log0, core, ops, woken, tcbs1, nodes1, Q1, log1, awakened,
                k.tcbs, k.nodes, k.releaseQueues, k.log);
    assert tcbs0[awakened].sc == tcbs1[awakened].sc;
    WokenChecks(tcbs0, k.tcbs, k.scs, Q0[core], |woken|, cur, ops);
    assert awakened != cur;
    assert !IsRoundRobin(k.scs[k.tcbs[awakened].sc]) && ops.sufficient(k.scs[k.tcbs[awakened].sc]);
  }

  /** `awaken` on core `core`: while the release queue's head is ready, it is
      dequeued and handed to `possibleSwitchTo`, and `ksReprogram` is set.
      `woken` is the prefix of the queue that was drained (`Drained`), none
      of its threads is the current thread, and what is left is empty or
      starts with a thread that is not ready. The current thread may itself
      wait in the release queue, after `postpone` of its own context; its
      head refill is then not ready, which is why it is never woken. */
  method Awaken(k: Kernel, core: nat, ops: RefillOps) returns (ghost woken: seq<Ptr>)
    requires core < |k.nodes| && ReleaseQueuesValid(k.tcbs, k.scs, k.nodes, k.releaseQueues)
    requires ValidTcb(k.tcbs, k.nodes[core].curThread)
    requires var cur := k.nodes[core].curThread;
      k.tcbs[cur].inReleaseQueue ==> HasRefills(k.tcbs, k.scs, cur) && !ops.ready(k.scs[k.tcbs[cur].sc])
    requires Wakeable(k.tcbs, k.scs, k.releaseQueues[core], ops)
    modifies k`tcbs, k`nodes, k`log, k`releaseQueues
    ensures Drained(old(k.tcbs), k.scs, old(k.nodes), old(k.releaseQueues), old(k.log), core, ops, woken,
                    k.tcbs, k.nodes, k.releaseQueues, k.log)
    ensures ReleaseQueuesValid(k.tcbs, k.scs, k.nodes, k.releaseQueues)
    ensures k.nodes[core].releaseHead != NULL ==>
      HasRefills(k.tcbs, k.scs, k.nodes[core].releaseHead) && !ops.ready(k.scs[k.tcbs[k.nodes[core].releaseHead].sc])
    ensures old(k.nodes[core].curThread) !in woken
  {
    ghost var tcbs0, nodes0, Q0, log0 := k.tcbs, k.nodes, k.releaseQueues, k.log;
    ghost var q := k.releaseQueues[core];
    var cur := k.nodes[core].curThread;
    if !k.tcbs[cur].inReleaseQueue {
      NotFlaggedNotQueued(k.tcbs, k.scs, k.nodes, k.releaseQueues, cur);
    }
    assert CurrentNotReady(tcbs0, k.scs, q, cur, ops);
    woken := [];
    assert q[..0] == [] && q[0..] == q && Q0[core := q] == Q0;
    while k.nodes[core].releaseHead != NULL && ops.ready(k.scs[k.tcbs[k.nodes[core].releaseHead].sc])
      invariant Drained(tcbs0, k.scs, nodes0, Q0, log0, core, ops, woken, k.tcbs, k.nodes, k.releaseQueues, k.log)
      invariant ReleaseQueuesValid(k.tcbs, k.scs, k.nodes, k.releaseQueues)
      invariant cur !in woken
      decreases |k.releaseQueues[core]|
    {
      var awakened := AwakenRound(k, core, ops, tcbs0, nodes0, Q0, log0, woken, cur);
      woken := woken + [awakened];
    }
    ReleaseHeadFacts(k.tcbs, k.scs, k.nodes, k.releaseQueues, core);
  }
}
