/** What every run of the delivery protocol guarantees. */
module DeliveryTheorems {
  import opened Native
  import opened Stubs
  import opened Trace
  import opened Delivery
  import opened DeliveryInvariant

  lemma Reachable(steps: seq<Step>)
    requires Legal(EMPTY, steps)
    ensures Inv(After(EMPTY, steps))
  {
    assert Inv(EMPTY);
    RunKeeps(EMPTY, steps);
  }

  /** No run reaches a fatal error: no bracket, identity or quiescence check of any stub, operation, fallback or
      request finalizer fails, in any interleaving, and no interrupt is raised on a connection that is not
      open. */
  lemma NeverFatal(steps: seq<Step>)
    requires Legal(EMPTY, steps)
    ensures !After(EMPTY, steps).fatal
  {
    Reachable(steps);
  }

  /** Without the environment's assumption, the finalizer of a request reaches its fatal error exactly when the
      request is installed and its owner's guard is taken, its owner has native work pending or its
      reservation is not retired. */
  lemma FinalizerFatalIff(steps: seq<Step>, r: RequestId)
    requires Legal(EMPTY, steps) && After(EMPTY, steps).ctl == Resting && r in After(EMPTY, steps).requests
    ensures var s := After(EMPTY, steps);
            StepFinalize(s, r).fatal <==>
              LiveRequest(s, r) && s.requests[r].q.state == RequestState.Installed
              && var q := s.requests[r].q;
                 q.owner.Some? && q.owner.value in s.conns
                 && var k := s.conns[q.owner.value];
                    k.guard != Nobody || k.gate.foreign || k.gate.depth > 0 || q.reserved
  {
    Reachable(steps);
    var s := After(EMPTY, steps);
    if LiveRequest(s, r) {
      assert RequestOk(s, r, s.requests[r].q);
    }
  }

  /** Whenever the guard is free the phase is USER exactly in an open user window, and is then only
      possible with open foreign work, no cleanup and a request; otherwise it is the derived phase. */
  lemma PhaseIsTruthful(steps: seq<Step>, c: ConnId)
    requires Legal(EMPTY, steps) && c in After(EMPTY, steps).conns
    requires !After(EMPTY, steps).conns[c].thread.pos.Decided?
    ensures var s := After(EMPTY, steps); var g := s.conns[c].gate; var window := TrailOf(s.log, c).window;
            && (g.phase == User <==> window.Some?)
            && (g.phase == User ==> g.foreign && g.depth == 0 && !g.closing && window == g.active)
            && (g.phase != User ==> g.phase == g.Derived())
  {
    Reachable(steps);
    var s := After(EMPTY, steps);
    assert ConnLinks(s, c, s.conns[c]);
  }

  /** The safety theorem. Every interrupt in every run comes while the interrupting request is the
      installed one, is latched and reserved, and an interruptible admission of that same request is
      still open; if the engine is running, it runs that request's own user subcall. */
  lemma InterruptReachesOnlyItsOwnWork(steps: seq<Step>, i: nat, c: ConnId, r: RequestId)
    requires Legal(EMPTY, steps) && i < |After(EMPTY, steps).log| && After(EMPTY, steps).log[i] == Interrupted(c, r)
    ensures var log := After(EMPTY, steps).log; var past := log[..i];
            && TrailOf(past, c).active == Some(r)
            && Latched(r) in past && MarkOf(past, r).reserved
            && (exists a :: OpensWindow(past, c, r, a))
            && (TrailOf(past, c).engine.Some? ==> TrailOf(past, c).engine.value.UserCall())
  {
    Reachable(steps);
    var log := After(EMPTY, steps).log;
    assert SafeEvent(log[..i], log[i]);
    LatchMeaning(log[..i], r);
    WindowMeaning(log[..i], c, r);
  }

  /** Read from the engine's side: while a rollback, a bind, a destructor, a disconnect or any other
      call outside an open window occupies the engine, no request interrupts that connection. */
  lemma OtherCallsAreNeverInterrupted(steps: seq<Step>, i: nat, j: nat, c: ConnId, call: Call)
    requires Legal(EMPTY, steps) && i < j < |After(EMPTY, steps).log|
    requires After(EMPTY, steps).log[i] == Entered(c, call) && !call.UserCall()
    requires forall m | i < m < j :: After(EMPTY, steps).log[m] != Returned(c)
    requires forall m | i < m < j :: !(After(EMPTY, steps).log[m].Entered? && After(EMPTY, steps).log[m].c == c)
    ensures forall r :: After(EMPTY, steps).log[j] != Interrupted(c, r)
  {
    Reachable(steps);
    var log := After(EMPTY, steps).log;
    EngineStays(log, c, call, i, j);
    assert SafeEvent(log[..j], log[j]);
  }

  lemma {:induction false} EngineStays(log: seq<Event>, c: ConnId, call: Call, i: nat, j: nat)
    requires i < j <= |log| && log[i] == Entered(c, call)
    requires forall m | i < m < j :: log[m] != Returned(c) && !(log[m].Entered? && log[m].c == c)
    ensures TrailOf(log[..j], c).engine == Some(call)
    decreases j
  {
    assert log[..j][..j - 1] == log[..j - 1];
    if i + 1 < j {
      EngineStays(log, c, call, i, j - 1);
    }
  }

  /** Cancellation is final for admission: after r's latch no latch load admits r, at most one admitted
      subcall is still made for it, and that one was admitted before the latch. */
  lemma LatchStopsAdmission(steps: seq<Step>, c: ConnId, r: RequestId, i: nat, j: nat, k: nat)
    requires Legal(EMPTY, steps) && i < j < k < |After(EMPTY, steps).log|
    requires After(EMPTY, steps).log[i] == Latched(r)
    ensures var log := After(EMPTY, steps).log;
            && !(log[j].Admitted? && log[j].who == Some(r))
            && (AdmittedSubcall(log[j], c) && TrailOf(log[..j], c).active == Some(r) && AdmittedSubcall(log[k], c)
                ==> TrailOf(log[..k], c).active != Some(r))
  {
    Reachable(steps);
    var log := After(EMPTY, steps).log;
    NoAdmissionAfterLatch(log, r, i, j);
    if AdmittedSubcall(log[j], c) && TrailOf(log[..j], c).active == Some(r) && AdmittedSubcall(log[k], c) {
      AtMostOneSubcallAfterLatch(log, c, r, i, j, k);
    }
  }

  /** A retired reservation is spent: in every run a later interrupt of r comes after a new reservation. */
  lemma RetirementEndsDelivery(steps: seq<Step>, c: ConnId, r: RequestId, i: nat, j: nat) returns (m: nat)
    requires Legal(EMPTY, steps) && i < j < |After(EMPTY, steps).log|
    requires After(EMPTY, steps).log[i] == Retired(r) && After(EMPTY, steps).log[j] == Interrupted(c, r)
    ensures i < m < j && After(EMPTY, steps).log[m] == Reserved(r)
  {
    Reachable(steps);
    m := RetiredNeedsReservation(After(EMPTY, steps).log, c, r, i, j);
  }

  /** A COMMIT that is issued for a cancelled request had been admitted before the latch. */
  lemma CommitAfterLatchWasAdmittedBefore(steps: seq<Step>, c: ConnId, r: RequestId, i: nat, j: nat) returns (m: nat)
    requires Legal(EMPTY, steps) && i < j < |After(EMPTY, steps).log|
    requires After(EMPTY, steps).log[i] == Latched(r)
    requires After(EMPTY, steps).log[j] == Entered(c, CommitSql)
    requires TrailOf(After(EMPTY, steps).log[..j], c).active == Some(r)
    ensures var log := After(EMPTY, steps).log;
            m < i && log[m].Admitted? && log[m].c == c && log[m].who == Some(r)
  {
    Reachable(steps);
    m := LateSubcallWasAdmittedBefore(After(EMPTY, steps).log, c, r, i, j);
  }

  lemma WorkerLogGrows(s: State, step: Step)
    requires WorkerStep(step) && WorkerEnabled(s, step)
    ensures s.log <= StepWorker(s, step).log && StepWorker(s, step).conns.Keys == s.conns.Keys
  {
  }

  lemma HeldLogGrows(s: State, step: Step)
    requires !WorkerStep(step) && Enabled(s, step)
    ensures var n := if OperationStep(step) then StepOperation(s, step) else StepAtomic(s, step);
            s.log <= n.log && s.conns.Keys <= n.conns.Keys
  {
  }

  lemma LogGrows(s: State, step: Step)
    requires Enabled(s, step)
    ensures s.log <= Next(s, step).log && s.conns.Keys <= Next(s, step).conns.Keys
  {
    if WorkerStep(step) {
      WorkerLogGrows(s, step);
    } else {
      HeldLogGrows(s, step);
    }
  }

  lemma OperationsLeaveThread(s: State, step: Step, c: ConnId)
    requires OperationStep(step) && OperationEnabled(s, step) && c in s.conns
    ensures var n := StepOperation(s, step); c in n.conns && n.conns[c].thread == s.conns[c].thread
  {
  }

  lemma AtomicsLeaveThread(s: State, step: Step, c: ConnId)
    requires !WorkerStep(step) && !OperationStep(step) && AtomicEnabled(s, step) && c in s.conns
    ensures var n := StepAtomic(s, step); c in n.conns && n.conns[c].thread == s.conns[c].thread
  {
  }

  lemma OtherWorkersLeaveThread(s: State, step: Step, c: ConnId)
    requires WorkerStep(step) && WorkerEnabled(s, step) && c in s.conns && step.c != c
    ensures var n := StepWorker(s, step); c in n.conns && n.conns[c].thread == s.conns[c].thread
  {
  }

  lemma OthersLeaveThread(s: State, step: Step, c: ConnId)
    requires Enabled(s, step) && c in s.conns && !(WorkerStep(step) && step.c == c)
    ensures c in Next(s, step).conns && Next(s, step).conns[c].thread == s.conns[c].thread
  {
    if WorkerStep(step) {
      OtherWorkersLeaveThread(s, step, c);
    } else if OperationStep(step) {
      OperationsLeaveThread(s, step, c);
    } else {
      AtomicsLeaveThread(s, step, c);
    }
  }

  lemma StillAheadOfWorker(s: State, step: Step, c: ConnId, call: Call)
    requires WorkerStep(step) && WorkerEnabled(s, step) && step.c == c && AlwaysCalls(s.conns[c].thread.prog, call)
    ensures var n := StepWorker(s, step);
            c in n.conns && (AlwaysCalls(n.conns[c].thread.prog, call) || n.log == s.log + [Entered(c, call)])
  {
  }

  /** A call that every path of the running program makes stays ahead of the worker until it is made. */
  lemma StillAhead(s: State, step: Step, c: ConnId, call: Call)
    requires Enabled(s, step)
    requires c in s.conns && AlwaysCalls(s.conns[c].thread.prog, call)
    ensures var n := Next(s, step);
            c in n.conns && (AlwaysCalls(n.conns[c].thread.prog, call) || n.log == s.log + [Entered(c, call)])
  {
    if WorkerStep(step) && step.c == c {
      StillAheadOfWorker(s, step, c, call);
    } else {
      OthersLeaveThread(s, step, c);
    }
  }

  lemma {:induction false} CallIsMade(s: State, steps: seq<Step>, c: ConnId, call: Call)
    requires Legal(s, steps) && c in s.conns && AlwaysCalls(s.conns[c].thread.prog, call)
    ensures var n := After(s, steps);
            && c in n.conns && s.log <= n.log
            && (AlwaysCalls(n.conns[c].thread.prog, call) || Entered(c, call) in n.log[|s.log|..])
    decreases |steps|
  {
    if steps != [] {
      var n := Next(s, steps[0]);
      StillAhead(s, steps[0], c, call);
      LogGrows(s, steps[0]);
      if AlwaysCalls(n.conns[c].thread.prog, call) {
        CallIsMade(n, steps[1..], c, call);
      } else {
        LogOnlyGrows(n, steps[1..]);
        assert After(n, steps[1..]).log[|s.log|] == Entered(c, call);
      }
    }
  }

  lemma {:induction false} LogOnlyGrows(s: State, steps: seq<Step>)
    requires Legal(s, steps)
    ensures s.log <= After(s, steps).log && s.conns.Keys <= After(s, steps).conns.Keys
    decreases |steps|
  {
    if steps != [] {
      LogGrows(s, steps[0]);
      LogOnlyGrows(Next(s, steps[0]), steps[1..]);
    }
  }

  /** ROLLBACK executes whatever the latches say: every run in which a started rollback stub has
      finished has issued it. */
  lemma RollbackAlwaysExecutes(s: State, steps: seq<Step>, c: ConnId)
    requires Enabled(s, Start(c, StubControl(Rollback)))
    requires Legal(Next(s, Start(c, StubControl(Rollback))), steps)
    ensures var begun := Next(s, Start(c, StubControl(Rollback))); var n := After(begun, steps);
            c in n.conns && s.log <= n.log
            && (IdleThread(n.conns[c].thread) ==> Entered(c, RollbackSql) in n.log[|s.log|..])
  {
    var begun := Next(s, Start(c, StubControl(Rollback)));
    assert AlwaysCalls(ExecuteControl(Rollback, Halt), RollbackSql);
    CallIsMade(begun, steps, c, RollbackSql);
  }

  // ----- the request's life

  function Age(slot: Slot): nat {
    match slot
    case Tombstone => 3
    case Live(q) => if q.state == RequestState.Fresh then 0 else if q.state == RequestState.Installed then 1 else 2
  }

  /** disposed, finalized: the step frees this request. */
  predicate Ages(before: Slot, after: Slot, disposed: bool, finalized: bool) {
    && Age(before) <= Age(after)
    && (after.Tombstone? && before.Live? ==> (disposed && Age(before) != 1) || finalized)
    && (after.Live? ==> Age(after) <= Age(before) + 1 && (before.q.cancelled ==> after.q.cancelled))
  }

  lemma ActAges(s: State, r: RequestId)
    requires Inv(s) && OperationEnabled(s, OpAct) && r in s.requests
    ensures r in StepOpAct(s).requests && Ages(s.requests[r], StepOpAct(s).requests[r], false, false)
  {
    var p := s.ctl.op.r;
    assert RequestOk(s, p, s.requests[p].q);
    if p == r {
      assert s.requests[r].Live?;
    }
  }

  lemma AtomicAges(s: State, step: Step, r: RequestId)
    requires !WorkerStep(step) && !OperationStep(step) && AtomicEnabled(s, step) && r in s.requests
    ensures r in StepAtomic(s, step).requests
    ensures Ages(s.requests[r], StepAtomic(s, step).requests[r], step == Dispose(r), step == FinalizeRequest(r))
  {
  }

  /** Request states move FRESH, INSTALLED, DETACHED and only one step at a time; disposal never takes
      an installed request, which only its finalizer frees; a latch is never withdrawn. */
  lemma RequestLifecycle(s: State, step: Step, r: RequestId)
    requires Inv(s) && Enabled(s, step) && r in s.requests
    ensures r in Next(s, step).requests
    ensures Ages(s.requests[r], Next(s, step).requests[r], step == Dispose(r), step == FinalizeRequest(r))
  {
    if step == OpAct {
      ActAges(s, r);
    } else if WorkerStep(step) {
      WorkersLeaveRequests(s, step);
    } else if OperationStep(step) {
      OperationsLeaveRequests(s, step);
    } else {
      AtomicAges(s, step, r);
    }
  }

  /** The owner's pointer and the request's binding describe the same pairs in every reachable state. */
  lemma IdentityHolds(steps: seq<Step>, c: ConnId, r: RequestId)
    requires Legal(EMPTY, steps) && c in After(EMPTY, steps).conns
    ensures var s := After(EMPTY, steps);
            s.conns[c].gate.active == Some(r) <==>
            (LiveRequest(s, r) && s.requests[r].q.state == RequestState.Installed && s.requests[r].q.owner == Some(c))
  {
    Reachable(steps);
    var s := After(EMPTY, steps);
    assert ConnLinks(s, c, s.conns[c]);
    if LiveRequest(s, r) {
      assert RequestOk(s, r, s.requests[r].q);
    }
  }

  /** After a successful uninstall the request is never installed again and never interrupts. */
  lemma UninstalledIsHarmless(steps: seq<Step>, c: ConnId, d: ConnId, r: RequestId, i: nat, j: nat)
    requires Legal(EMPTY, steps) && i < j < |After(EMPTY, steps).log|
    requires After(EMPTY, steps).log[i] == Event.Detached(c, r)
    ensures After(EMPTY, steps).log[j] != Interrupted(d, r) && After(EMPTY, steps).log[j] != Event.Installed(d, r)
  {
    Reachable(steps);
    DetachedIsFinal(After(EMPTY, steps).log, c, d, r, i, j);
  }
}
