/** The budgeted kernel's system-call helpers: validating the reply
    capability a receive names, and the preemption point of a long-running
    operation, which settles the time the current thread has consumed. */
module Syscall {
  import opened Words
  import opened ObjectType
  import opened Structures
  import opened Thread

  // ---------------------------------------------------------------------
  // lookupReply

  /** `lookupCap_ret_t`: the status of a capability lookup and the capability found. */
  datatype LookupCapRet = LookupCapRet(status: Exception, cap: Cap)

  /** The result `lookupReply` returns for the lookup result `lu`: a failed
      lookup keeps its status, a capability other than a reply capability
      turns the status into `EXCEPTION_FAULT`, and a reply capability comes
      back unchanged. */
  function ReplyLookup(lu: LookupCapRet): (r: LookupCapRet)
    ensures r.cap == lu.cap
    ensures r.status == ExceptionNone <==> lu.status == ExceptionNone && lu.cap.ReplyCap?
    ensures lu.status != ExceptionNone ==> r == lu
    ensures lu.status == ExceptionNone && !lu.cap.ReplyCap? ==> r.status == ExceptionFault
    ensures lu.status == ExceptionNone && lu.cap.ReplyCap? ==> r == lu
  {
    if lu.status != ExceptionNone then lu
    else if !lu.cap.ReplyCap? then lu.(status := ExceptionFault)
    else lu
  }

  /** `lookupReply()`: `replyCPtr` is the current thread's reply register and
      `lu` what `lookupCap` finds for it. Either failure raises a capability
      fault on `replyCPtr` in the receive phase and hands the current thread
      to `handleFault`. */
  method LookupReply(k: Kernel, core: nat, replyCPtr: Word, lu: LookupCapRet) returns (r: LookupCapRet)
    requires core < |k.nodes|
    modifies k`currentFault, k`log
    ensures r == ReplyLookup(lu)
    ensures r.status != ExceptionNone ==>
              k.currentFault == CapFault(replyCPtr, true)
              && k.log == old(k.log) + [HandleFault(k.nodes[core].curThread)]
    ensures r.status == ExceptionNone ==> k.currentFault == old(k.currentFault) && k.log == old(k.log)
  {
    var cur := k.nodes[core].curThread;
    if lu.status != ExceptionNone {
      k.currentFault := CapFault(replyCPtr, true);
      k.log := k.log + [HandleFault(cur)];
      return lu;
    }
    if !lu.cap.ReplyCap? {
      k.currentFault := CapFault(replyCPtr, true);
      k.log := k.log + [HandleFault(cur)];
      r := lu.(status := ExceptionFault);
      return r;
    }
    return lu;
  }

  // ---------------------------------------------------------------------
  // mcsPreemptionPoint

  /** The three ways `mcsPreemptionPoint` settles the consumed time. */
  datatype Settlement = BudgetChecked | ChargedUnschedulable | ConsumedDropped

  /** Which branch `mcsPreemptionPoint` takes: a schedulable current thread
      has its budget checked; otherwise a configured current context is
      charged; otherwise the consumed time is dropped. */
  function SettlementOf(tcbs: seq<Tcb>, scs: seq<Sched>, n: Node): (r: Settlement)
    requires ValidSc(scs, n.curSC)
    ensures r == BudgetChecked <==> IsSchedulable(tcbs, scs, n.curThread)
    ensures r == ChargedUnschedulable <==> !IsSchedulable(tcbs, scs, n.curThread) && scs[n.curSC].refillMax != 0
    ensures r == ConsumedDropped <==> !IsSchedulable(tcbs, scs, n.curThread) && scs[n.curSC].refillMax == 0
  {
    if IsSchedulable(tcbs, scs, n.curThread) then BudgetChecked
    else if scs[n.curSC].refillMax != 0 then ChargedUnschedulable
    else ConsumedDropped
  }

  /** `mcsPreemptionPoint()` on `core`. `checkBudget` is recorded but not
      modelled; the charge is `chargeBudget(ksConsumed, false)`. */
  method McsPreemptionPoint(k: Kernel, core: nat, ops: RefillOps) returns (settled: Settlement)
    requires core < |k.nodes| && ValidSc(k.scs, k.nodes[core].curSC)
    requires ReleaseQueuesValid(k.tcbs, k.scs, k.nodes, k.releaseQueues)
    requires var n := k.nodes[core];
      !IsSchedulable(k.tcbs, k.scs, n.curThread) && k.scs[n.curSC].refillMax != 0 && n.curSC != n.idleSC
      ==> CanCharge(k.scs[n.curSC], ops, n.consumed)
    modifies k`scs, k`tcbs, k`nodes, k`releaseQueues, k`log, k`currentFault
    ensures settled == SettlementOf(old(k.tcbs), old(k.scs), old(k.nodes[core]))
    ensures settled == BudgetChecked ==>
      k.log == old(k.log) + [CheckBudget]
      && k.scs == old(k.scs) && k.tcbs == old(k.tcbs) && k.nodes == old(k.nodes)
      && k.releaseQueues == old(k.releaseQueues) && k.currentFault == old(k.currentFault)
    ensures settled == ChargedUnschedulable ==>
      var n := old(k.nodes[core]);
      k.scs == ChargedScs(old(k.scs), n, ops, n.consumed)
      && k.nodes == old(k.nodes)[core := n.(consumed := 0)]
      && k.tcbs == old(k.tcbs) && k.releaseQueues == old(k.releaseQueues)
      && k.log == old(k.log) && k.currentFault == old(k.currentFault)
    ensures settled == ConsumedDropped ==>
      k.nodes == old(k.nodes)[core := old(k.nodes[core]).(consumed := 0)]
      && k.scs == old(k.scs) && k.tcbs == old(k.tcbs) && k.releaseQueues == old(k.releaseQueues)
      && k.log == old(k.log) && k.currentFault == old(k.currentFault)
    ensures ReleaseQueuesValid(k.tcbs, k.scs, k.nodes, k.releaseQueues)
  {
    var n := k.nodes[core];
    if IsSchedulable(k.tcbs, k.scs, n.curThread) {
      k.log := k.log + [CheckBudget];
      settled := BudgetChecked;
    } else if k.scs[n.curSC].refillMax != 0 {
      ghost var tcbs0, scs0, nodes0, Q0, log0, fault0 := k.tcbs, k.scs, k.nodes, k.releaseQueues, k.log, k.currentFault;
      assert CanChargeBudget(k.tcbs, k.scs, k.nodes, k.releaseQueues, core, ops, n.consumed, false);
      ghost var ended, endedLog := ChargeBudget(k, core, ops, n.consumed, false);
      BudgetChargedFacts(tcbs0, scs0, nodes0, Q0, log0, fault0, core, ops, n.consumed, false, ended, endedLog,
                         k.tcbs, k.scs, k.nodes, k.releaseQueues, k.log, k.currentFault);
      settled := ChargedUnschedulable;
    } else {
      ghost var nodes0 := k.nodes;
      k.nodes := k.nodes[core := k.nodes[core].(consumed := 0)];
      HeadsFrame(k.tcbs, k.scs, nodes0, k.nodes, k.releaseQueues);
      settled := ConsumedDropped;
    }
  }
}
