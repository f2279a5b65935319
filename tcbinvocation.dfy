/** TCB invocations of the budgeted kernel: the fault-handler rights check,
    `decodeSetTimeoutEndpoint`, `invokeTCB_ThreadControlCaps` and
    `invokeTCB_ThreadControlSched`. */
module TcbInvocation {
  import opened Words
  import opened ObjectType
  import opened Structures

  /** The bits of `thread_control_flag_t`. */
  datatype ControlFlag =
    | UpdateFault | UpdateTimeout | UpdateSpace | UpdateIpcBuffer
    | UpdateMcp | UpdatePriority | UpdateSc

  /** The capability-tree operations these invocations call, by their results:
      `installTCBCap(target, ..., slot, newCap, ...)` and `cteDelete` of a TCB
      slot. `slotCap` is the capability in the invoked TCB capability's slot. */
  datatype CapTreeOps = CapTreeOps(
    install: (Ptr, TcbSlot, Cap) -> Exception,
    delete: (Ptr, TcbSlot) -> Exception,
    slotCap: Cap)

  datatype Check = Pass | Fail(error: SyscallErrorType)

  // ---------------------------------------------------------------------
  // validFaultHandler

  /** `validFaultHandler`: a fault or timeout handler is either absent (the
      null capability) or an endpoint the thread may send on with grant or
      grant-reply rights. */
  function ValidFaultHandler(c: Cap): Check
  {
    match c
    case EndpointCap(_, _, canSend, _, canGrant, canGrantReply) =>
      if !canSend || (!canGrant && !canGrantReply) then Fail(InvalidCapability) else Pass
    case NullCap => Pass
    case _ => Fail(InvalidCapability)
  }

  /** The handler check accepts exactly the null capability and the sending
      endpoints with a grant right, and every rejection is `seL4_InvalidCapability`. */
  lemma ValidFaultHandlerExactly(c: Cap)
    ensures ValidFaultHandler(c) == Pass <==>
              c.NullCap? || (c.EndpointCap? && c.capCanSend && (c.capCanGrant || c.capCanGrantReply))
    ensures ValidFaultHandler(c) != Pass ==> ValidFaultHandler(c) == Fail(InvalidCapability)
  {
  }

  // ---------------------------------------------------------------------
  // decodeSetTimeoutEndpoint: the argument checks

  /** The outcome of the argument checks: go on with the timeout-handler
      capability, or fail with the syscall error the caller will see. */
  datatype Decoded = Proceed(handler: Cap) | Reject(error: SyscallError)

  /** The checks as the source writes them: a missing extra capability
      returns a syscall error without setting the error type, so the caller
      sees whatever `current_syscall_error` held before. */
  function SetTimeoutEndpointChecksAsWritten(extraCap: Option<Cap>, previous: SyscallError): Decoded
  {
    match extraCap
    case None => Reject(previous)
    case Some(handler) =>
      match ValidFaultHandler(handler)
      case Fail(error) => Reject(SyscallError(error, 1))
      case Pass => Proceed(handler)
  }

  /** The error reported for a missing extra capability is left over from
      earlier work: two calls that differ only in the stale error report
      different errors, and a stale `seL4_NoError` reports "no error" with a
      failed invocation. */
  lemma AsWrittenReportsStaleError()
    ensures SetTimeoutEndpointChecksAsWritten(None, SyscallError(NoError, 0)) == Reject(SyscallError(NoError, 0))
    ensures SetTimeoutEndpointChecksAsWritten(None, SyscallError(RangeError, 0))
            != SetTimeoutEndpointChecksAsWritten(None, SyscallError(NoError, 0))
  {
  }

  /** The checks with the error type set on every failure, as the other TCB
      decoders do for a truncated message: only the type is written. */
  function SetTimeoutEndpointChecks(extraCap: Option<Cap>, previous: SyscallError): Decoded
  {
    match extraCap
    case None => Reject(previous.(errorType := TruncatedMessage))
    case Some(handler) =>
      match ValidFaultHandler(handler)
      case Fail(error) => Reject(SyscallError(error, 1))
      case Pass => Proceed(handler)
  }

  /** The corrected checks report a failure whose type depends on the
      arguments alone: a missing capability is a truncated message, an unusable handler
      is an invalid capability in extra-capability position 1, and a usable
      one goes through unchanged. They differ from the checks as written only
      when the capability is missing. */
  lemma SetTimeoutEndpointChecksCorrect(extraCap: Option<Cap>, previous: SyscallError)
    ensures extraCap.None? ==>
              SetTimeoutEndpointChecks(extraCap, previous).Reject?
              && SetTimeoutEndpointChecks(extraCap, previous).error.errorType == TruncatedMessage
    ensures extraCap.Some? && ValidFaultHandler(extraCap.value) != Pass ==>
              SetTimeoutEndpointChecks(extraCap, previous) == Reject(SyscallError(InvalidCapability, 1))
    ensures extraCap.Some? && ValidFaultHandler(extraCap.value) == Pass ==>
              SetTimeoutEndpointChecks(extraCap, previous) == Proceed(extraCap.value)
    ensures extraCap.Some? ==>
              SetTimeoutEndpointChecks(extraCap, previous) == SetTimeoutEndpointChecksAsWritten(extraCap, previous)
  {
    if extraCap.Some? {
      ValidFaultHandlerExactly(extraCap.value);
    }
  }

  // ---------------------------------------------------------------------
  // invokeTCB_ThreadControlCaps and decodeSetTimeoutEndpoint

  /** The slot installs `invokeTCB_ThreadControlCaps` asks for, in order. */
  function CapInstalls(flags: set<ControlFlag>, fhNewCap: Cap, thNewCap: Cap, cRootNewCap: Cap,
                       vRootNewCap: Cap): (r: seq<(TcbSlot, Cap)>)
    ensures |r| <= 4
    ensures UpdateFault in flags <==> (FaultHandlerSlot, fhNewCap) in r
    ensures UpdateTimeout in flags <==> (TimeoutHandlerSlot, thNewCap) in r
    ensures UpdateSpace in flags <==> (CTableSlot, cRootNewCap) in r && (VTableSlot, vRootNewCap) in r
  {
    (if UpdateFault in flags then [(FaultHandlerSlot, fhNewCap)] else [])
    + (if UpdateTimeout in flags then [(TimeoutHandlerSlot, thNewCap)] else [])
    + (if UpdateSpace in flags then [(CTableSlot, cRootNewCap), (VTableSlot, vRootNewCap)] else [])
  }

  /** The install calls up to the first failure, and the failure if any. */
  function InstallsUntilFailure(ops: CapTreeOps, target: Ptr, installs: seq<(TcbSlot, Cap)>): (seq<Call>, Exception)
  {
    if |installs| == 0 then ([], ExceptionNone)
    else
      var e := ops.install(target, installs[0].0, installs[0].1);
      var call := InstallTcbCap(target, installs[0].0, installs[0].1);
      if e != ExceptionNone then ([call], e)
      else
        var rest := InstallsUntilFailure(ops, target, installs[1..]);
        ([call] + rest.0, rest.1)
  }

  /** The calls made are the installs in order, up to the first failure. */
  lemma {:induction false} InstallsUntilFailureInOrder(ops: CapTreeOps, target: Ptr, installs: seq<(TcbSlot, Cap)>)
    ensures var r := InstallsUntilFailure(ops, target, installs);
      |r.0| <= |installs|
      && (forall i :: 0 <= i < |r.0| ==> r.0[i] == InstallTcbCap(target, installs[i].0, installs[i].1))
      && (r.1 == ExceptionNone ==> |r.0| == |installs|)
  {
    if |installs| > 0 && ops.install(target, installs[0].0, installs[0].1) == ExceptionNone {
      var tail := installs[1..];
      InstallsUntilFailureInOrder(ops, target, tail);
      var r := InstallsUntilFailure(ops, target, installs);
      var rest := InstallsUntilFailure(ops, target, tail);
      assert r.0 == [InstallTcbCap(target, installs[0].0, installs[0].1)] + rest.0;
      forall i | 1 <= i < |r.0|
        ensures r.0[i] == InstallTcbCap(target, installs[i].0, installs[i].1)
      {
        assert r.0[i] == rest.0[i - 1] && tail[i - 1] == installs[i];
      }
    }
  }

  /** The result is a success exactly when every install succeeds. */
  lemma {:induction false} InstallsUntilFailureSucceeds(ops: CapTreeOps, target: Ptr, installs: seq<(TcbSlot, Cap)>)
    ensures InstallsUntilFailure(ops, target, installs).1 == ExceptionNone <==>
              forall i :: 0 <= i < |installs| ==> ops.install(target, installs[i].0, installs[i].1) == ExceptionNone
  {
    if |installs| > 0 && ops.install(target, installs[0].0, installs[0].1) == ExceptionNone {
      var tail := installs[1..];
      InstallsUntilFailureSucceeds(ops, target, tail);
      assert InstallsUntilFailure(ops, target, installs).1 == InstallsUntilFailure(ops, target, tail).1;
      assert forall i :: 1 <= i < |installs| ==> tail[i - 1] == installs[i];
      if InstallsUntilFailure(ops, target, tail).1 != ExceptionNone {
        var j :| 0 <= j < |tail| && ops.install(target, tail[j].0, tail[j].1) != ExceptionNone;
        assert installs[j + 1] == tail[j];
      }
    }
  }

  /** A failure is the failure of the last install attempted, every earlier
      one having succeeded. */
  lemma {:induction false} InstallsUntilFailureReportsFirst(ops: CapTreeOps, target: Ptr, installs: seq<(TcbSlot, Cap)>)
    ensures var r := InstallsUntilFailure(ops, target, installs);
      r.1 != ExceptionNone ==>
        0 < |r.0| <= |installs| && r.1 == ops.install(target, installs[|r.0| - 1].0, installs[|r.0| - 1].1)
        && forall i :: 0 <= i < |r.0| - 1 ==> ops.install(target, installs[i].0, installs[i].1) == ExceptionNone
  {
    if |installs| > 0 && ops.install(target, installs[0].0, installs[0].1) == ExceptionNone {
      var tail := installs[1..];
      InstallsUntilFailureReportsFirst(ops, target, tail);
      var r := InstallsUntilFailure(ops, target, installs);
      var rest := InstallsUntilFailure(ops, target, tail);
      assert r == ([InstallTcbCap(target, installs[0].0, installs[0].1)] + rest.0, rest.1);
      if r.1 != ExceptionNone {
        assert |r.0| == |rest.0| + 1;
        assert installs[|r.0| - 1] == tail[|rest.0| - 1];
        forall i | 0 <= i < |r.0| - 1
          ensures ops.install(target, installs[i].0, installs[i].1) == ExceptionNone
        {
          if i > 0 {
            assert installs[i] == tail[i - 1];
          }
        }
      }
    }
  }

  /** Installs one after the other: the second list is attempted only when
      the first succeeded completely. */
  lemma {:induction false} InstallsUntilFailureAppend(ops: CapTreeOps, target: Ptr, a: seq<(TcbSlot, Cap)>,
                                                      b: seq<(TcbSlot, Cap)>)
    ensures var ra := InstallsUntilFailure(ops, target, a);
      var rb := InstallsUntilFailure(ops, target, b);
      InstallsUntilFailure(ops, target, a + b) == if ra.1 != ExceptionNone then ra else (ra.0 + rb.0, rb.1)
  {
    var rb := InstallsUntilFailure(ops, target, b);
    if |a| == 0 {
      assert a + b == b;
      assert [] + rb.0 == rb.0;
    } else {
      assert (a + b)[0] == a[0] && (a + b)[1..] == a[1..] + b;
      if ops.install(target, a[0].0, a[0].1) == ExceptionNone {
        InstallsUntilFailureAppend(ops, target, a[1..], b);
        var c := InstallTcbCap(target, a[0].0, a[0].1);
        var rt := InstallsUntilFailure(ops, target, a[1..]);
        assert [c] + (rt.0 + rb.0) == ([c] + rt.0) + rb.0;
      }
    }
  }

  /** The installs of one step: the single install when it is asked for. */
  function Wanted(wanted: bool, slot: TcbSlot, c: Cap): seq<(TcbSlot, Cap)>
  {
    if wanted then [(slot, c)] else []
  }

  /** One `installTCBCap` call of `invokeTCB_ThreadControlCaps`, when asked for. */
  method InstallOne(ops: CapTreeOps, target: Ptr, wanted: bool, slot: TcbSlot, c: Cap)
    returns (calls: seq<Call>, e: Exception)
    ensures (calls, e) == InstallsUntilFailure(ops, target, Wanted(wanted, slot, c))
  {
    calls, e := [], ExceptionNone;
    if wanted {
      calls := [InstallTcbCap(target, slot, c)];
      e := ops.install(target, slot, c);
      assert [(slot, c)][1..] == [];
      assert calls + [] == calls;
    }
  }

  /** The handler and space installs of `invokeTCB_ThreadControlCaps`, in
      source order, each returning its failure at once. */
  method InstallCaps(ops: CapTreeOps, target: Ptr, flags: set<ControlFlag>,
                     fhNewCap: Cap, thNewCap: Cap, cRootNewCap: Cap, vRootNewCap: Cap)
    returns (calls: seq<Call>, e: Exception)
    ensures (calls, e) == InstallsUntilFailure(ops, target, CapInstalls(flags, fhNewCap, thNewCap, cRootNewCap, vRootNewCap))
  {
    ghost var f := Wanted(UpdateFault in flags, FaultHandlerSlot, fhNewCap);
    ghost var t := Wanted(UpdateTimeout in flags, TimeoutHandlerSlot, thNewCap);
    ghost var cr := Wanted(UpdateSpace in flags, CTableSlot, cRootNewCap);
    ghost var vr := Wanted(UpdateSpace in flags, VTableSlot, vRootNewCap);
    assert CapInstalls(flags, fhNewCap, thNewCap, cRootNewCap, vRootNewCap) == f + t + cr + vr;
    InstallsUntilFailureAppend(ops, target, f, t);
    InstallsUntilFailureAppend(ops, target, f + t, cr);
    InstallsUntilFailureAppend(ops, target, f + t + cr, vr);
    var more;
    calls, e := InstallOne(ops, target, UpdateFault in flags, FaultHandlerSlot, fhNewCap);
    if e != ExceptionNone {
      return;
    }
    more, e := InstallOne(ops, target, UpdateTimeout in flags, TimeoutHandlerSlot, thNewCap);
    calls := calls + more;
    if e != ExceptionNone {
      return;
    }
    if UpdateSpace in flags {
      more, e := InstallOne(ops, target, true, CTableSlot, cRootNewCap);
      calls := calls + more;
      if e != ExceptionNone {
        return;
      }
      more, e := InstallOne(ops, target, true, VTableSlot, vRootNewCap);
      calls := calls + more;
      if e != ExceptionNone {
        return;
      }
    } else {
      assert calls + [] + [] == calls;
    }
    e := ExceptionNone;
  }

  /** `invokeTCB_ThreadControlCaps`: the installs the flags ask for, stopping
      at the first failure; then, for the IPC buffer, delete the old buffer
      capability, set the buffer address, insert the new buffer capability
      when both it and the TCB capability are still in their source slots,
      and reschedule when the target is the running thread. */
  method InvokeThreadControlCaps(k: Kernel, core: nat, arch: ArchOps, ops: CapTreeOps, target: Ptr,
                                 fhNewCap: Cap, thNewCap: Cap, cRootNewCap: Cap, vRootNewCap: Cap,
                                 bufferAddr: Word, bufferCap: Cap, bufferSrcCap: Option<Cap>,
                                 flags: set<ControlFlag>)
    returns (e: Exception)
    requires ValidTcb(k.tcbs, target) && core < |k.nodes|
    modifies k`tcbs, k`log
    ensures var (calls, failure) := InstallsUntilFailure(ops, target, CapInstalls(flags, fhNewCap, thNewCap, cRootNewCap, vRootNewCap));
      if failure != ExceptionNone || UpdateIpcBuffer !in flags then
        e == failure && k.log == old(k.log) + calls && k.tcbs == old(k.tcbs)
      else if ops.delete(target, BufferSlot) != ExceptionNone then
        e == ops.delete(target, BufferSlot) && k.log == old(k.log) + calls + [CteDelete(target, BufferSlot)]
        && k.tcbs == old(k.tcbs)
      else
        e == ExceptionNone
        && k.tcbs == old(k.tcbs)[target := old(k.tcbs[target]).(ipcBuffer := bufferAddr)]
        && k.log == old(k.log) + calls + BufferCalls(arch, target, bufferCap, bufferSrcCap, ops.slotCap,
                                                      target == old(k.nodes[core].curThread))
  {
    var calls;
    calls, e := InstallCaps(ops, target, flags, fhNewCap, thNewCap, cRootNewCap, vRootNewCap);
    k.log := k.log + calls;
    if e != ExceptionNone || UpdateIpcBuffer !in flags {
      return;
    }
    e := SetIpcBuffer(k, core, arch, ops, target, bufferAddr, bufferCap, bufferSrcCap);
  }

  /** The IPC-buffer part of `invokeTCB_ThreadControlCaps`. */
  method SetIpcBuffer(k: Kernel, core: nat, arch: ArchOps, ops: CapTreeOps, target: Ptr,
                      bufferAddr: Word, bufferCap: Cap, bufferSrcCap: Option<Cap>)
    returns (e: Exception)
    requires ValidTcb(k.tcbs, target) && core < |k.nodes|
    modifies k`tcbs, k`log
    ensures e == ops.delete(target, BufferSlot)
    ensures e != ExceptionNone ==>
              k.log == old(k.log) + [CteDelete(target, BufferSlot)] && k.tcbs == old(k.tcbs)
    ensures e == ExceptionNone ==>
              k.tcbs == old(k.tcbs)[target := old(k.tcbs[target]).(ipcBuffer := bufferAddr)]
              && k.log == old(k.log) + BufferCalls(arch, target, bufferCap, bufferSrcCap, ops.slotCap,
                                                   target == old(k.nodes[core].curThread))
  {
    k.log := k.log + [CteDelete(target, BufferSlot)];
    e := ops.delete(target, BufferSlot);
    if e != ExceptionNone {
      return;
    }
    k.tcbs := k.tcbs[target := k.tcbs[target].(ipcBuffer := bufferAddr)];
    var tCap := ThreadCap(target);
    var after: seq<Call> := [];
    if bufferSrcCap.Some? && SameObjectAs(arch, bufferCap, bufferSrcCap.value) && SameObjectAs(arch, tCap, ops.slotCap) {
      after := after + [CteInsert(bufferCap, target, BufferSlot)];
    }
    if target == k.nodes[core].curThread {
      after := after + [RescheduleRequired];
    }
    assert [CteDelete(target, BufferSlot)] + after
           == BufferCalls(arch, target, bufferCap, bufferSrcCap, ops.slotCap, target == k.nodes[core].curThread);
    k.log := k.log + after;
  }

  /** The calls of the IPC-buffer update once the old buffer capability is
      deleted: the new one is inserted only when both it and the TCB
      capability are still in their source slots, and a change to the
      running thread asks for a reschedule. */
  function BufferCalls(arch: ArchOps, target: Ptr, bufferCap: Cap, bufferSrcCap: Option<Cap>,
                       slotCap: Cap, isCurrent: bool): (r: seq<Call>)
    ensures |r| > 0 && r[0] == CteDelete(target, BufferSlot)
    ensures CteInsert(bufferCap, target, BufferSlot) in r <==>
              bufferSrcCap.Some? && SameObjectAs(arch, bufferCap, bufferSrcCap.value)
              && SameObjectAs(arch, ThreadCap(target), slotCap)
    ensures RescheduleRequired in r <==> isCurrent
  {
    [CteDelete(target, BufferSlot)]
    + (if bufferSrcCap.Some? && SameObjectAs(arch, bufferCap, bufferSrcCap.value)
          && SameObjectAs(arch, ThreadCap(target), slotCap)
       then [CteInsert(bufferCap, target, BufferSlot)] else [])
    + (if isCurrent then [RescheduleRequired] else [])
  }

  /** `decodeSetTimeoutEndpoint` with the corrected argument checks: a
      rejection records the error and changes nothing else; otherwise the
      caller is set to restart and the timeout handler is installed through
      `invokeTCB_ThreadControlCaps`, whose result is returned. */
  method DecodeSetTimeoutEndpoint(k: Kernel, core: nat, arch: ArchOps, ops: CapTreeOps, target: Ptr,
                                  extraCap: Option<Cap>)
    returns (e: Exception)
    requires ValidTcb(k.tcbs, target) && core < |k.nodes| && ValidTcb(k.tcbs, k.nodes[core].curThread)
    modifies k`tcbs, k`log, k`currentSyscallError
    ensures match SetTimeoutEndpointChecks(extraCap, old(k.currentSyscallError))
      case Reject(error) =>
        e == ExceptionSyscallError && k.currentSyscallError == error
        && k.tcbs == old(k.tcbs) && k.log == old(k.log)
      case Proceed(handler) =>
        var cur := old(k.nodes[core].curThread);
        e == ops.install(target, TimeoutHandlerSlot, handler)
        && k.currentSyscallError == old(k.currentSyscallError)
        && k.tcbs == old(k.tcbs)[cur := old(k.tcbs[cur]).(tsType := Restart)]
        && k.log == old(k.log) + [InstallTcbCap(target, TimeoutHandlerSlot, handler)]
  {
    var checked := SetTimeoutEndpointChecks(extraCap, k.currentSyscallError);
    if checked.Reject? {
      k.currentSyscallError := checked.error;
      return ExceptionSyscallError;
    }
    var cur := k.nodes[core].curThread;
    k.tcbs := k.tcbs[cur := k.tcbs[cur].(tsType := Restart)];
    e := InvokeThreadControlCaps(k, core, arch, ops, target, NullCap, checked.handler, NullCap, NullCap,
                                 0, NullCap, None, {UpdateTimeout});
  }

  // ---------------------------------------------------------------------
  // invokeTCB_ThreadControlSched

  /** What the scheduling-context update of `invokeTCB_ThreadControlSched`
      does to the binding. */
  datatype ScUpdate = BindSc(sc: Ptr) | UnbindSc(sc: Ptr) | KeepSc

  function ScDecision(sc: Ptr, current: Ptr): ScUpdate
  {
    if sc != NULL && sc != current then BindSc(sc)
    else if sc == NULL && current != NULL then UnbindSc(current)
    else KeepSc
  }

  /** The binding is left alone exactly when the requested context is the
      current one; a non-NULL different context is bound, and NULL unbinds
      the current context. */
  lemma ScDecisionCases(sc: Ptr, current: Ptr)
    ensures ScDecision(sc, current) == KeepSc <==> sc == current
    ensures ScDecision(sc, current) == BindSc(sc) <==> sc != NULL && sc != current
    ensures ScDecision(sc, current) == UnbindSc(current) <==> sc == NULL && current != NULL
    ensures ScDecision(sc, current).BindSc? || ScDecision(sc, current).UnbindSc? ==>
              ScDecision(sc, current).sc != NULL
  {
  }

  /** The thread's context after the update. */
  function BoundAfter(d: ScUpdate, current: Ptr): Ptr
  {
    match d
    case BindSc(sc) => sc
    case UnbindSc(_) => NULL
    case KeepSc => current
  }

  /** After the update the thread is bound to the requested context. */
  lemma BoundAfterIsRequested(sc: Ptr, current: Ptr)
    ensures BoundAfter(ScDecision(sc, current), current) == sc
  {
  }

  /** The scheduling contexts after the update: a bound context records the
      thread, an unbound one records no thread. */
  function ScsAfter(scs: seq<Sched>, d: ScUpdate, target: Ptr): seq<Sched>
    requires d.BindSc? || d.UnbindSc? ==> ValidSc(scs, d.sc)
  {
    match d
    case BindSc(sc) => scs[sc := scs[sc].(tcb := target)]
    case UnbindSc(sc) => scs[sc := scs[sc].(tcb := NULL)]
    case KeepSc => scs
  }

  /** The calls the update makes. */
  function ScCalls(d: ScUpdate, target: Ptr): seq<Call>
  {
    match d
    case BindSc(sc) => [BindTcb(sc, target)]
    case UnbindSc(sc) => [UnbindTcb(sc, target)]
    case KeepSc => []
  }

  /** What `schedContext_bindTCB` asserts of a binding: the context is bound
      to no thread and the thread to no context (the decoder rejects the
      request otherwise). */
  predicate Bindable(tcbs: seq<Tcb>, scs: seq<Sched>, target: Ptr, d: ScUpdate)
    requires ValidTcb(tcbs, target)
    requires d.BindSc? ==> ValidSc(scs, d.sc)
  {
    d.BindSc? ==> scs[d.sc].tcb == NULL && tcbs[target].sc == NULL
  }

  /** The binding part of `invokeTCB_ThreadControlSched`:
      `schedContext_bindTCB` links both sides, `schedContext_unbindTCB`
      clears both. */
  method UpdateBinding(k: Kernel, target: Ptr, d: ScUpdate)
    requires ValidTcb(k.tcbs, target)
    requires d.BindSc? || d.UnbindSc? ==> ValidSc(k.scs, d.sc)
    requires Bindable(k.tcbs, k.scs, target, d)
    modifies k`tcbs, k`scs, k`log
    ensures k.tcbs == old(k.tcbs)[target := old(k.tcbs[target]).(sc := BoundAfter(d, old(k.tcbs[target].sc)))]
    ensures k.scs == ScsAfter(old(k.scs), d, target)
    ensures k.log == old(k.log) + ScCalls(d, target)
  {
    match d {
      case BindSc(bound) =>
        k.scs := k.scs[bound := k.scs[bound].(tcb := target)];
        k.tcbs := k.tcbs[target := k.tcbs[target].(sc := bound)];
        k.log := k.log + [BindTcb(bound, target)];
      case UnbindSc(current) =>
        k.scs := k.scs[current := k.scs[current].(tcb := NULL)];
        k.tcbs := k.tcbs[target := k.tcbs[target].(sc := NULL)];
        k.log := k.log + [UnbindTcb(current, target)];
      case KeepSc =>
        assert k.tcbs[target := k.tcbs[target]] == k.tcbs;
        assert k.log + [] == k.log;
    }
  }

  /** The priority part of `invokeTCB_ThreadControlSched`: `setMCPriority`
      and `setPriority` as their flags ask. */
  method SetPriorities(k: Kernel, target: Ptr, mcp: nat, priority: nat, updateMcp: bool, updatePriority: bool)
    requires ValidTcb(k.tcbs, target)
    modifies k`tcbs, k`log
    ensures var t := old(k.tcbs[target]);
      k.tcbs == old(k.tcbs)[target := t.(mcp := if updateMcp then mcp else t.mcp,
                                         priority := if updatePriority then priority else t.priority)]
    ensures k.log == old(k.log) + (if updateMcp then [SetMCPriority(target, mcp)] else [])
                                + (if updatePriority then [SetPriority(target, priority)] else [])
  {
    if updateMcp {
      k.tcbs := k.tcbs[target := k.tcbs[target].(mcp := mcp)];
      k.log := k.log + [SetMCPriority(target, mcp)];
    } else {
      assert k.log + [] == k.log;
    }
    if updatePriority {
      k.tcbs := k.tcbs[target := k.tcbs[target].(priority := priority)];
      k.log := k.log + [SetPriority(target, priority)];
    } else {
      assert k.log + [] == k.log;
    }
  }

  /** The fault-handler install of `invokeTCB_ThreadControlSched` is asked
      for and fails. */
  predicate FaultInstallFails(ops: CapTreeOps, target: Ptr, fhNewCap: Cap, flags: set<ControlFlag>)
  {
    UpdateFault in flags && ops.install(target, FaultHandlerSlot, fhNewCap) != ExceptionNone
  }

  /** The binding change, when the flags ask for one. */
  function SchedScUpdate(sc: Ptr, current: Ptr, flags: set<ControlFlag>): ScUpdate
  {
    if UpdateSc in flags then ScDecision(sc, current) else KeepSc
  }

  /** The fault-handler install that opens `invokeTCB_ThreadControlSched`,
      when asked for. */
  method InstallFaultHandler(k: Kernel, ops: CapTreeOps, target: Ptr, fhNewCap: Cap, wanted: bool)
    returns (e: Exception)
    modifies k`log
    ensures e == if wanted then ops.install(target, FaultHandlerSlot, fhNewCap) else ExceptionNone
    ensures k.log == old(k.log) + if wanted then [InstallTcbCap(target, FaultHandlerSlot, fhNewCap)] else []
  {
    e := ExceptionNone;
    if wanted {
      k.log := k.log + [InstallTcbCap(target, FaultHandlerSlot, fhNewCap)];
      e := ops.install(target, FaultHandlerSlot, fhNewCap);
    } else {
      assert k.log + [] == k.log;
    }
  }

  lemma UpdateTwice(s: seq<Tcb>, i: nat, a: Tcb, b: Tcb)
    requires i < |s|
    ensures s[i := a][i := b] == s[i := b]
  {
  }

  /** The priority and binding updates that follow a successful
      fault-handler install. */
  method ApplySchedUpdates(k: Kernel, target: Ptr, mcp: nat, priority: nat, sc: Ptr, flags: set<ControlFlag>)
    requires ValidTcb(k.tcbs, target)
    requires k.tcbs[target].sc == NULL || ValidSc(k.scs, k.tcbs[target].sc)
    requires UpdateSc in flags && sc != NULL ==> ValidSc(k.scs, sc)
    requires UpdateSc in flags && sc != NULL && sc != k.tcbs[target].sc ==> k.scs[sc].tcb == NULL && k.tcbs[target].sc == NULL
    modifies k`tcbs, k`scs, k`log
    ensures var t := old(k.tcbs[target]);
      k.tcbs == old(k.tcbs)[target := t.(mcp := if UpdateMcp in flags then mcp else t.mcp,
                                         priority := if UpdatePriority in flags then priority else t.priority,
                                         sc := BoundAfter(SchedScUpdate(sc, t.sc, flags), t.sc))]
    ensures k.scs == ScsAfter(old(k.scs), SchedScUpdate(sc, old(k.tcbs[target].sc), flags), target)
    ensures k.log == old(k.log)
                + ((if UpdateMcp in flags then [SetMCPriority(target, mcp)] else [])
                   + (if UpdatePriority in flags then [SetPriority(target, priority)] else []))
                + ScCalls(SchedScUpdate(sc, old(k.tcbs[target].sc), flags), target)
  {
    ghost var tcbs1 := k.tcbs;
    SetPriorities(k, target, mcp, priority, UpdateMcp in flags, UpdatePriority in flags);
    ghost var tcbs2 := k.tcbs;
    UpdateBinding(k, target, SchedScUpdate(sc, k.tcbs[target].sc, flags));
    UpdateTwice(tcbs1, target, tcbs2[target], k.tcbs[target]);
  }

  /** `invokeTCB_ThreadControlSched`: install the fault handler when asked,
      returning its failure before anything else is touched; then set the
      maximum controlled priority, the priority and the scheduling-context
      binding, each as its flag asks. */
  method InvokeThreadControlSched(k: Kernel, ops: CapTreeOps, target: Ptr, fhNewCap: Cap,
                                  mcp: nat, priority: nat, sc: Ptr, flags: set<ControlFlag>)
    returns (e: Exception)
    requires ValidTcb(k.tcbs, target)
    requires k.tcbs[target].sc == NULL || ValidSc(k.scs, k.tcbs[target].sc)
    requires UpdateSc in flags && sc != NULL ==> ValidSc(k.scs, sc)
    requires UpdateSc in flags && sc != NULL && sc != k.tcbs[target].sc ==> k.scs[sc].tcb == NULL && k.tcbs[target].sc == NULL
    modifies k`tcbs, k`scs, k`log
    ensures FaultInstallFails(ops, target, fhNewCap, flags) ==>
              e == ops.install(target, FaultHandlerSlot, fhNewCap)
              && k.tcbs == old(k.tcbs) && k.scs == old(k.scs)
              && k.log == old(k.log) + [InstallTcbCap(target, FaultHandlerSlot, fhNewCap)]
    ensures !FaultInstallFails(ops, target, fhNewCap, flags) ==>
              var t := old(k.tcbs[target]);
              e == ExceptionNone
              && k.tcbs == old(k.tcbs)[target := t.(mcp := if UpdateMcp in flags then mcp else t.mcp,
                                                     priority := if UpdatePriority in flags then priority else t.priority,
                                                     sc := BoundAfter(SchedScUpdate(sc, t.sc, flags), t.sc))]
    ensures !FaultInstallFails(ops, target, fhNewCap, flags) ==>
              k.scs == ScsAfter(old(k.scs), SchedScUpdate(sc, old(k.tcbs[target].sc), flags), target)
    ensures !FaultInstallFails(ops, target, fhNewCap, flags) ==>
              k.log == old(k.log)
                + (if UpdateFault in flags then [InstallTcbCap(target, FaultHandlerSlot, fhNewCap)] else [])
                + ((if UpdateMcp in flags then [SetMCPriority(target, mcp)] else [])
                   + (if UpdatePriority in flags then [SetPriority(target, priority)] else []))
                + ScCalls(SchedScUpdate(sc, old(k.tcbs[target].sc), flags), target)
  {
    e := InstallFaultHandler(k, ops, target, fhNewCap, UpdateFault in flags);
    if e != ExceptionNone {
      return;
    }
    ApplySchedUpdates(k, target, mcp, priority, sc, flags);
    e := ExceptionNone;
  }
}
