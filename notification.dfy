/** The notification glue of the budgeted kernel: lending a notification's
    scheduling context to a thread that has none, the "donate, then act only
    if schedulable" pattern built on it, and moving a waiting thread to the
    tail of a notification's wait queue. */
module Notification {
  import opened Words
  import opened Structures
  import opened Queues
  import opened ReleaseQueue
  import opened Thread

  // ---------------------------------------------------------------------
  // maybeDonateSchedContext

  /** Whether `maybeDonateSchedContext` lends the notification's context:
      the thread has none, and the notification's context exists and is
      bound to no thread. */
  predicate Donates(tcbs: seq<Tcb>, scs: seq<Sched>, ntfn: Ntfn, t: Ptr)
    requires ValidTcb(tcbs, t)
    requires ntfn.sc == NULL || ValidSc(scs, ntfn.sc)
  {
    tcbs[t].sc == NULL && ntfn.sc != NULL && scs[ntfn.sc].tcb == NULL
  }

  /** The threads after a possible donation. */
  function DonatedTcbs(tcbs: seq<Tcb>, scs: seq<Sched>, ntfn: Ntfn, t: Ptr): (r: seq<Tcb>)
    requires ValidTcb(tcbs, t)
    requires ntfn.sc == NULL || ValidSc(scs, ntfn.sc)
    ensures |r| == |tcbs|
    ensures forall u :: 0 <= u < |tcbs| && u != t ==> r[u] == tcbs[u]
    ensures r[t] == tcbs[t].(sc := r[t].sc)
    ensures r[t].sc == (if tcbs[t].sc != NULL then tcbs[t].sc
                        else if ntfn.sc != NULL && scs[ntfn.sc].tcb == NULL then ntfn.sc
                        else NULL)
  {
    if Donates(tcbs, scs, ntfn, t) then tcbs[t := tcbs[t].(sc := ntfn.sc)] else tcbs
  }

  /** The scheduling contexts after a possible donation. */
  function DonatedScs(tcbs: seq<Tcb>, scs: seq<Sched>, ntfn: Ntfn, t: Ptr): (r: seq<Sched>)
    requires ValidTcb(tcbs, t)
    requires ntfn.sc == NULL || ValidSc(scs, ntfn.sc)
    ensures |r| == |scs|
    ensures forall s :: 0 <= s < |scs| && s != ntfn.sc ==> r[s] == scs[s]
    ensures ntfn.sc != NULL ==> r[ntfn.sc] == scs[ntfn.sc].(tcb := r[ntfn.sc].tcb)
    ensures ntfn.sc != NULL && r[ntfn.sc].tcb != scs[ntfn.sc].tcb ==> r[ntfn.sc].tcb == t
  {
    if Donates(tcbs, scs, ntfn, t) then scs[ntfn.sc := scs[ntfn.sc].(tcb := t)] else scs
  }

  /** The call to `schedContext_donate` that `maybeDonateSchedContext`
      makes on a donation; nothing otherwise. */
  function DonationCalls(tcbs: seq<Tcb>, scs: seq<Sched>, ntfn: Ntfn, t: Ptr): (r: seq<Call>)
    requires ValidTcb(tcbs, t)
    requires ntfn.sc == NULL || ValidSc(scs, ntfn.sc)
    ensures r == [] || r == [Donate(ntfn.sc, t)]
    ensures r != [] <==> Donates(tcbs, scs, ntfn, t)
  {
    if Donates(tcbs, scs, ntfn, t) then [Donate(ntfn.sc, t)] else []
  }

  /** A thread that already has a context is left alone. */
  lemma AlreadyBoundUnchanged(tcbs: seq<Tcb>, scs: seq<Sched>, ntfn: Ntfn, t: Ptr)
    requires ValidTcb(tcbs, t)
    requires ntfn.sc == NULL || ValidSc(scs, ntfn.sc)
    requires tcbs[t].sc != NULL
    ensures DonatedTcbs(tcbs, scs, ntfn, t) == tcbs
    ensures DonatedScs(tcbs, scs, ntfn, t) == scs
    ensures DonationCalls(tcbs, scs, ntfn, t) == []
  {
  }

  /** A donation binds both ways: the thread records the context and the
      context records the thread. */
  lemma DonationBindsBothWays(tcbs: seq<Tcb>, scs: seq<Sched>, ntfn: Ntfn, t: Ptr)
    requires ValidTcb(tcbs, t)
    requires ntfn.sc == NULL || ValidSc(scs, ntfn.sc)
    requires Donates(tcbs, scs, ntfn, t)
    ensures var tcbs', scs' := DonatedTcbs(tcbs, scs, ntfn, t), DonatedScs(tcbs, scs, ntfn, t);
      tcbs'[t].sc == ntfn.sc && scs'[ntfn.sc].tcb == t
  {
  }

  /** Donating is idempotent: once the thread holds a context, a second
      attempt changes nothing and makes no call. */
  lemma {:induction false} DonationIdempotent(tcbs: seq<Tcb>, scs: seq<Sched>, ntfn: Ntfn, t: Ptr)
    requires ValidTcb(tcbs, t)
    requires ntfn.sc == NULL || ValidSc(scs, ntfn.sc)
    ensures var tcbs', scs' := DonatedTcbs(tcbs, scs, ntfn, t), DonatedScs(tcbs, scs, ntfn, t);
      DonatedTcbs(tcbs', scs', ntfn, t) == tcbs'
      && DonatedScs(tcbs', scs', ntfn, t) == scs'
      && DonationCalls(tcbs', scs', ntfn, t) == []
  {
    var tcbs' := DonatedTcbs(tcbs, scs, ntfn, t);
    var scs' := DonatedScs(tcbs, scs, ntfn, t);
    if Donates(tcbs, scs, ntfn, t) {
      assert tcbs'[t].sc == ntfn.sc;
      AlreadyBoundUnchanged(tcbs', scs', ntfn, t);
    } else if tcbs[t].sc != NULL {
      AlreadyBoundUnchanged(tcbs', scs', ntfn, t);
    } else {
      assert !Donates(tcbs', scs', ntfn, t);
    }
  }

  // ---------------------------------------------------------------------
  // schedContext_resume

  /** Whether `schedContext_resume(s)` postpones `s`: its thread is
      schedulable, but its head refill is not ready or not sufficient. */
  predicate ResumePostpones(tcbs: seq<Tcb>, scs: seq<Sched>, s: Ptr, ops: RefillOps)
  {
    ValidSc(scs, s) && IsSchedulable(tcbs, scs, scs[s].tcb) && !(ops.ready(scs[s]) && ops.sufficient(scs[s]))
  }

  /** `schedContext_resume(s)`: a context whose thread is schedulable but due
      no budget yet is postponed until its head refill is ready; otherwise
      nothing changes. */
  method SchedContextResume(k: Kernel, s: Ptr, ops: RefillOps)
    requires ValidSc(k.scs, s) && ReleaseQueuesValid(k.tcbs, k.scs, k.nodes, k.releaseQueues)
    requires ResumePostpones(k.tcbs, k.scs, s, ops) ==> CanPostpone(k.tcbs, k.scs, k.nodes, k.releaseQueues, s)
    modifies k`tcbs, k`nodes, k`releaseQueues, k`log
    ensures ResumePostpones(old(k.tcbs), k.scs, s, ops) ==>
              Postponed(old(k.tcbs), k.scs, old(k.nodes), old(k.releaseQueues), s, k.tcbs, k.nodes, k.releaseQueues)
              && k.log == old(k.log) + [SchedDequeue(k.scs[s].tcb)]
    ensures !ResumePostpones(old(k.tcbs), k.scs, s, ops) ==>
              k.tcbs == old(k.tcbs) && k.nodes == old(k.nodes)
              && k.releaseQueues == old(k.releaseQueues) && k.log == old(k.log)
  {
    if ResumePostpones(k.tcbs, k.scs, s, ops) {
      Postpone(k, s);
    }
  }

  /** What `maybeDonateSchedContext` relies on: valid pointers and release
      queues, and for a configured context it may lend, a head refill and
      cores that exist, so that `schedContext_resume` can postpone it. */
  ghost predicate CanDonate(tcbs: seq<Tcb>, scs: seq<Sched>, nodes: seq<Node>, Q: seq<seq<Ptr>>, ntfn: Ntfn, t: Ptr)
  {
    ValidTcb(tcbs, t) && (ntfn.sc == NULL || ValidSc(scs, ntfn.sc))
    && ReleaseQueuesValid(tcbs, scs, nodes, Q) && tcbs[t].affinity < |nodes|
    && (ntfn.sc != NULL && scs[ntfn.sc].refillMax > 0 ==> |scs[ntfn.sc].refills| > 0 && scs[ntfn.sc].core < |nodes|)
  }

  /** Whether the donation happens and `schedContext_resume` then postpones
      the lent context. */
  predicate DonationPostpones(tcbs: seq<Tcb>, scs: seq<Sched>, ntfn: Ntfn, t: Ptr, ops: RefillOps)
    requires ValidTcb(tcbs, t)
    requires ntfn.sc == NULL || ValidSc(scs, ntfn.sc)
  {
    Donates(tcbs, scs, ntfn, t) && ResumePostpones(DonatedTcbs(tcbs, scs, ntfn, t), DonatedScs(tcbs, scs, ntfn, t), ntfn.sc, ops)
  }

  /** The donation itself keeps the release queues valid and every ordered
      queue ordered: a thread without a context is in no release queue, and
      no member's links or refills change. After it, a postpone is possible
      whenever `schedContext_resume` asks for one. */
  lemma DonationKeepsReleaseQueues(tcbs: seq<Tcb>, scs: seq<Sched>, nodes: seq<Node>, Q: seq<seq<Ptr>>,
                                   ntfn: Ntfn, t: Ptr, ops: RefillOps)
    requires CanDonate(tcbs, scs, nodes, Q, ntfn, t)
    ensures var tcbs', scs' := DonatedTcbs(tcbs, scs, ntfn, t), DonatedScs(tcbs, scs, ntfn, t);
      ReleaseQueuesValid(tcbs', scs', nodes, Q)
      && (forall c :: 0 <= c < |Q| && ReleaseSorted(tcbs, scs, Q[c]) ==> ReleaseSorted(tcbs', scs', Q[c]))
      && (DonationPostpones(tcbs, scs, ntfn, t, ops) ==> CanPostpone(tcbs', scs', nodes, Q, ntfn.sc))
  {
    var tcbs', scs' := DonatedTcbs(tcbs, scs, ntfn, t), DonatedScs(tcbs, scs, ntfn, t);
    if Donates(tcbs, scs, ntfn, t) {
      assert !HasRefills(tcbs, scs, t);
      forall x: Ptr | x < |tcbs| && x != t
        ensures RTime(tcbs', scs', x) == RTime(tcbs, scs, x) && HasRefills(tcbs', scs', x) == HasRefills(tcbs, scs, x)
      {
        assert tcbs'[x] == tcbs[x];
      }
      forall c | 0 <= c < |Q|
        ensures Linked(Q[c], nodes[c].releaseHead, tcbs')
      {
        LinkedFrame(Q[c], nodes[c].releaseHead, tcbs, tcbs');
      }
      forall c, i | 0 <= c < |Q| && 0 <= i < |Q[c]|
        ensures tcbs'[Q[c][i]].affinity == c && HasRefills(tcbs', scs', Q[c][i])
      {
        assert Q[c][i] in Q[c];
      }
      forall c | 0 <= c < |Q| && ReleaseSorted(tcbs, scs, Q[c])
        ensures ReleaseSorted(tcbs', scs', Q[c])
      {
        forall i, j | 0 <= i < j < |Q[c]|
          ensures RTime(tcbs', scs', Q[c][i]) <= RTime(tcbs', scs', Q[c][j])
        {
          assert Q[c][i] in Q[c] && Q[c][j] in Q[c];
        }
      }
    }
  }

  // ---------------------------------------------------------------------
  // maybeDonateSchedContext

  /** `maybeDonateSchedContext`: lend the notification's context to `t` when
      `t` has none and the context is free, then resume the context, which
      postpones it when `t` can run but its budget is not yet due. The
      release queues stay valid, and ordered ones stay ordered. */
  method MaybeDonateSchedContext(k: Kernel, t: Ptr, n: Ptr, ops: RefillOps)
    requires 0 < n < |k.ntfns| && CanDonate(k.tcbs, k.scs, k.nodes, k.releaseQueues, k.ntfns[n], t)
    modifies k`tcbs, k`scs, k`nodes, k`releaseQueues, k`log
    ensures k.scs == DonatedScs(old(k.tcbs), old(k.scs), k.ntfns[n], t)
    ensures var tcbs1 := DonatedTcbs(old(k.tcbs), old(k.scs), k.ntfns[n], t);
      if DonationPostpones(old(k.tcbs), old(k.scs), k.ntfns[n], t, ops) then
        Postponed(tcbs1, k.scs, old(k.nodes), old(k.releaseQueues), k.ntfns[n].sc, k.tcbs, k.nodes, k.releaseQueues)
        && k.log == old(k.log) + DonationCalls(old(k.tcbs), old(k.scs), k.ntfns[n], t) + [SchedDequeue(t)]
      else
        k.tcbs == tcbs1 && k.nodes == old(k.nodes) && k.releaseQueues == old(k.releaseQueues)
        && k.log == old(k.log) + DonationCalls(old(k.tcbs), old(k.scs), k.ntfns[n], t)
    ensures ReleaseQueuesValid(k.tcbs, k.scs, k.nodes, k.releaseQueues)
    ensures |k.releaseQueues| == |old(k.releaseQueues)|
    ensures forall c :: 0 <= c < |k.releaseQueues| && ReleaseSorted(old(k.tcbs), old(k.scs), old(k.releaseQueues)[c]) ==>
              ReleaseSorted(k.tcbs, k.scs, k.releaseQueues[c])
  {
    DonationKeepsReleaseQueues(k.tcbs, k.scs, k.nodes, k.releaseQueues, k.ntfns[n], t, ops);
    if k.tcbs[t].sc == NULL {
      var sc := k.ntfns[n].sc;
      if sc != NULL && k.scs[sc].tcb == NULL {
        ghost var tcbs0, scs0, nodes0, Q0 := k.tcbs, k.scs, k.nodes, k.releaseQueues;
        k.scs := k.scs[sc := k.scs[sc].(tcb := t)];
        k.tcbs := k.tcbs[t := k.tcbs[t].(sc := sc)];
        k.log := k.log + [Donate(sc, t)];
        SchedContextResume(k, sc, ops);
        if ResumePostpones(DonatedTcbs(tcbs0, scs0, k.ntfns[n], t), k.scs, sc, ops) {
          PostponedFacts(DonatedTcbs(tcbs0, scs0, k.ntfns[n], t), k.scs, nodes0, Q0, sc, k.tcbs, k.nodes, k.releaseQueues);
        }
      }
    }
  }

  // ---------------------------------------------------------------------
  // MCS_DO_IF_SC

  /** `MCS_DO_IF_SC(tcb, ntfnPtr, block)`: attempt the donation, then report
      whether `block` runs, which it does exactly when the thread is
      schedulable afterwards; a thread whose lent context was postponed
      waits in the release queue and does not run it. */
  method McsDoIfSc(k: Kernel, t: Ptr, n: Ptr, ops: RefillOps) returns (runBlock: bool)
    requires 0 < n < |k.ntfns| && CanDonate(k.tcbs, k.scs, k.nodes, k.releaseQueues, k.ntfns[n], t)
    modifies k`tcbs, k`scs, k`nodes, k`releaseQueues, k`log
    ensures k.scs == DonatedScs(old(k.tcbs), old(k.scs), k.ntfns[n], t)
    ensures var tcbs1 := DonatedTcbs(old(k.tcbs), old(k.scs), k.ntfns[n], t);
      if DonationPostpones(old(k.tcbs), old(k.scs), k.ntfns[n], t, ops) then
        Postponed(tcbs1, k.scs, old(k.nodes), old(k.releaseQueues), k.ntfns[n].sc, k.tcbs, k.nodes, k.releaseQueues)
        && k.log == old(k.log) + DonationCalls(old(k.tcbs), old(k.scs), k.ntfns[n], t) + [SchedDequeue(t)]
      else
        k.tcbs == tcbs1 && k.nodes == old(k.nodes) && k.releaseQueues == old(k.releaseQueues)
        && k.log == old(k.log) + DonationCalls(old(k.tcbs), old(k.scs), k.ntfns[n], t)
    ensures ReleaseQueuesValid(k.tcbs, k.scs, k.nodes, k.releaseQueues)
    ensures runBlock == IsSchedulable(k.tcbs, k.scs, t)
    ensures DonationPostpones(old(k.tcbs), old(k.scs), k.ntfns[n], t, ops) ==> !runBlock
    ensures !DonationPostpones(old(k.tcbs), old(k.scs), k.ntfns[n], t, ops) ==>
              runBlock == IsSchedulable(DonatedTcbs(old(k.tcbs), old(k.scs), k.ntfns[n], t), k.scs, t)
  {
    ghost var tcbs0, scs0 := k.tcbs, k.scs;
    MaybeDonateSchedContext(k, t, n, ops);
    runBlock := IsSchedulable(k.tcbs, k.scs, t);
    if DonationPostpones(tcbs0, scs0, k.ntfns[n], t, ops) {
      assert k.scs[k.ntfns[n].sc].tcb == t;
      assert k.tcbs[t].inReleaseQueue;
    }
  }

  /** A runnable thread without a context, signalled through a notification
      whose configured context is free and, as lent to the thread, ready
      with sufficient budget, is not postponed and runs the block. */
  lemma DonationEnablesBlock(tcbs: seq<Tcb>, scs: seq<Sched>, ntfn: Ntfn, t: Ptr, ops: RefillOps)
    requires ValidTcb(tcbs, t)
    requires ntfn.sc == NULL || ValidSc(scs, ntfn.sc)
    requires tcbs[t].sc == NULL && IsRunnable(tcbs[t]) && !tcbs[t].inReleaseQueue
    requires ntfn.sc != NULL && scs[ntfn.sc].tcb == NULL && scs[ntfn.sc].refillMax > 0
    requires ops.ready(scs[ntfn.sc].(tcb := t)) && ops.sufficient(scs[ntfn.sc].(tcb := t))
    ensures !DonationPostpones(tcbs, scs, ntfn, t, ops)
    ensures IsSchedulable(DonatedTcbs(tcbs, scs, ntfn, t), DonatedScs(tcbs, scs, ntfn, t), t)
  {
  }

  /** The same thread, when the lent context is not ready or not
      sufficient, is postponed, so it skips the block. */
  lemma UnreadyDonationPostpones(tcbs: seq<Tcb>, scs: seq<Sched>, ntfn: Ntfn, t: Ptr, ops: RefillOps)
    requires ValidTcb(tcbs, t)
    requires ntfn.sc == NULL || ValidSc(scs, ntfn.sc)
    requires tcbs[t].sc == NULL && IsRunnable(tcbs[t]) && !tcbs[t].inReleaseQueue
    requires ntfn.sc != NULL && scs[ntfn.sc].tcb == NULL && scs[ntfn.sc].refillMax > 0
    requires !(ops.ready(scs[ntfn.sc].(tcb := t)) && ops.sufficient(scs[ntfn.sc].(tcb := t)))
    ensures DonationPostpones(tcbs, scs, ntfn, t, ops)
  {
  }

  /** A thread without a context is never schedulable after the attempt when
      the notification has no free context to lend: the block is skipped. */
  lemma NoFreeContextSkipsBlock(tcbs: seq<Tcb>, scs: seq<Sched>, ntfn: Ntfn, t: Ptr)
    requires ValidTcb(tcbs, t)
    requires ntfn.sc == NULL || ValidSc(scs, ntfn.sc)
    requires tcbs[t].sc == NULL && (ntfn.sc == NULL || scs[ntfn.sc].tcb != NULL)
    ensures !IsSchedulable(DonatedTcbs(tcbs, scs, ntfn, t), DonatedScs(tcbs, scs, ntfn, t), t)
  {
  }

  /** For a thread that already has a context, the attempt changes nothing and
      the block runs exactly when the thread was schedulable before. */
  lemma BoundThreadDecidesAlone(tcbs: seq<Tcb>, scs: seq<Sched>, ntfn: Ntfn, t: Ptr)
    requires ValidTcb(tcbs, t)
    requires ntfn.sc == NULL || ValidSc(scs, ntfn.sc)
    requires tcbs[t].sc != NULL
    ensures IsSchedulable(DonatedTcbs(tcbs, scs, ntfn, t), DonatedScs(tcbs, scs, ntfn, t), t)
            == IsSchedulable(tcbs, scs, t)
  {
    AlreadyBoundUnchanged(tcbs, scs, ntfn, t);
  }

  // ---------------------------------------------------------------------
  // reorderNTFN

  /** `reorderNTFN`: take `t` out of the notification's wait queue and
      append it again, as after a change of its priority. */
  method ReorderNtfn(k: Kernel, n: Ptr, t: Ptr)
    requires 0 < n < |k.ntfns|
    requires t in k.ntfns[n].queue && Distinct(k.ntfns[n].queue)
    modifies k`ntfns
    ensures k.ntfns == old(k.ntfns)[n := old(k.ntfns[n]).(queue := Reordered(old(k.ntfns[n].queue), t))]
    ensures var q, q' := old(k.ntfns[n].queue), k.ntfns[n].queue;
      |q'| == |q| && q'[|q'| - 1] == t && multiset(q') == multiset(q)
      && Distinct(q') && Without(q', t) == Without(q, t)
  {
    var queue := k.ntfns[n].queue;
    ReorderedMovesToTail(queue, t);
    ReorderedSameMembers(queue, t);
    queue := Without(queue, t);
    queue := queue + [t];
    k.ntfns := k.ntfns[n := k.ntfns[n].(queue := queue)];
  }
}
