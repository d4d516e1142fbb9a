/** The guard, the reservation and uninstall cannot deadlock: draining always ends in UNINSTALLED. */
module DeliveryProgress {
  import opened Native
  import opened Stubs
  import opened Trace
  import opened Delivery
  import opened DeliveryInvariant

  /** Microsteps left on the longest path of a program. */
  function Height(p: Prog): nat {
    match p
    case Halt => 0
    case Guarded(_, next) => 3 + Height(next)
    case Admit(_, admitted, refused) => 4 + Max(Height(admitted), Height(refused))
    case Engine(_, after) => 2 + Height(after)
    case Branch(left, right) => 1 + Max(Height(left), Height(right))
  }

  function Max(a: nat, b: nat): nat {
    if a < b then b else a
  }

  function ThreadWork(t: Thread): int {
    match t.pos
    case Free => Height(t.prog)
    case Locked => Height(t.prog) - 1
    case Decided(_) => Height(t.prog) + 2
    case Leaving => Height(t.prog) + 1
    case Engaged(_) => Height(t.prog) + 1
  }

  function ControllerWork(ctl: Delivery.Controller): nat {
    match ctl
    case Resting => 0
    case Holding(_, _) => 4
    case Judged(_, _, _) => 3
    case Acted(_, _, _) => 1
  }

  predicate Pending(s: State, r: RequestId) {
    LiveRequest(s, r) && s.requests[r].q.reserved
  }

  function Work(s: State, c: ConnId, r: RequestId): int
    requires c in s.conns
  {
    ThreadWork(s.conns[c].thread) + ControllerWork(s.ctl) + if Pending(s, r) then 1 else 0
  }

  /** Finish the current stub, finish the operation in progress, retire the reservation. */
  predicate Draining(s: State, step: Step, c: ConnId, r: RequestId) {
    match step
    case Lock(d) => d == c
    case Section(d) => d == c
    case Store(d) => d == c
    case Unlock(d) => d == c
    case Enter(d) => d == c
    case Return(d, _) => d == c
    case Choose(d, _) => d == c
    case OpJudge => true
    case OpAct => true
    case OpUnlock => true
    case Retire(p) => p == r && Pending(s, r)
    case _ => false
  }

  predicate Drained(s: State, c: ConnId, r: RequestId) {
    c in s.conns && IdleThread(s.conns[c].thread) && s.ctl == Resting && !Pending(s, r)
  }

  predicate InstalledOn(s: State, c: ConnId, r: RequestId) {
    LiveRequest(s, r) && s.requests[r].q.state == RequestState.Installed && s.requests[r].q.owner == Some(c)
  }

  predicate DetachedIn(s: State, r: RequestId) {
    LiveRequest(s, r) && s.requests[r].q.state == RequestState.Detached
  }

  lemma WorkIsNatural(s: State, c: ConnId, r: RequestId)
    requires Inv(s) && c in s.conns
    ensures Work(s, c, r) >= 0
  {
    assert ConnOk(s.conns[c]);
  }

  lemma WorkerStepDecreases(s: State, step: Step, c: ConnId)
    requires WorkerStep(step) && !step.Start? && !step.StartClose? && !step.Spin?
    requires c in s.conns && step.c == c && WorkerEnabled(s, step) && !StepWorker(s, step).fatal && !s.fatal
    ensures var n := StepWorker(s, step);
            && c in n.conns && ThreadWork(n.conns[c].thread) < ThreadWork(s.conns[c].thread)
            && n.ctl == s.ctl && n.requests == s.requests
  {
  }

  lemma ControllerStepDecreases(s: State, step: Step, c: ConnId, r: RequestId)
    requires OperationStep(step) && !step.OpBegin?
    requires c in s.conns && OperationEnabled(s, step) && !StepOperation(s, step).fatal && !s.fatal
    ensures var n := StepOperation(s, step);
            && c in n.conns && n.conns[c].thread == s.conns[c].thread
            && Work(n, c, r) < Work(s, c, r)
  {
  }

  /** Any draining step, in any order, strictly decreases the work left. */
  lemma DrainingDecreases(s: State, step: Step, c: ConnId, r: RequestId)
    requires Inv(s) && c in s.conns && Enabled(s, step) && Draining(s, step, c, r)
    ensures c in Next(s, step).conns && Work(Next(s, step), c, r) < Work(s, c, r)
  {
    NoStepIsFatal(s, step);
    if WorkerStep(step) {
      WorkerStepDecreases(s, step, c);
    } else if step.Retire? {
      RetireDecreases(s, c, r);
    } else {
      ControllerStepDecreases(s, step, c, r);
    }
  }

  lemma RetireDecreases(s: State, c: ConnId, r: RequestId)
    requires c in s.conns && Pending(s, r) && Enabled(s, Retire(r))
    ensures c in Next(s, Retire(r)).conns && Work(Next(s, Retire(r)), c, r) < Work(s, c, r)
  {
  }

  /** Until everything is drained, some draining step is enabled: nobody waits for ever. */
  lemma SomethingCanDrain(s: State, c: ConnId, r: RequestId) returns (step: Step)
    requires Inv(s) && c in s.conns && r in s.requests && !Drained(s, c, r)
    ensures Enabled(s, step) && Draining(s, step, c, r)
    ensures step.Retire? ==> s.ctl == Resting && IdleThread(s.conns[c].thread)
  {
    var k := s.conns[c];
    assert ConnOk(k) && ConnLinks(s, c, k);
    if s.ctl != Resting {
      step := if s.ctl.Holding? then OpJudge else if s.ctl.Judged? then OpAct else OpUnlock;
    } else if !IdleThread(k.thread) {
      step := match k.thread.pos
        case Locked => Section(c)
        case Decided(_) => Store(c)
        case Leaving => Unlock(c)
        case Engaged(_) => Return(c, true)
        case Free =>
          if k.thread.prog.Engine? then Enter(c)
          else if k.thread.prog.Branch? then Choose(c, true)
          else Lock(c);
    } else {
      step := Retire(r);
    }
  }

  // The uninstall, taken in its four steps.

  lemma UninstallBegins(s: State, c: ConnId, r: RequestId)
    requires Inv(s) && Drained(s, c, r) && InstalledOn(s, c, r)
    ensures var step := OpBegin(Uninstall(r));
            && Enabled(s, step)
            && Next(s, step) == Put(s, c, s.conns[c].(guard := Holder.Controller)).(ctl := Holding(Uninstall(r), c))
            && !s.fatal && s.conns[c].gate.active == Some(r)
            && UninstallAnswer(s.conns[c].gate, s.requests[r].q.reserved) == RequestUninstalled
  {
    assert ConnOk(s.conns[c]) && ConnLinks(s, c, s.conns[c]) && RequestOk(s, r, s.requests[r].q);
    assert Next(s, OpBegin(Uninstall(r))) == StepOpBegin(s, Uninstall(r));
  }

  predicate Uninstalling(s: State, c: ConnId, r: RequestId) {
    && !s.fatal && c in s.conns && s.conns[c].gate.active == Some(r) && LiveRequest(s, r)
    && UninstallAnswer(s.conns[c].gate, s.requests[r].q.reserved) == RequestUninstalled
  }

  lemma UninstallJudges(s: State, c: ConnId, r: RequestId)
    requires Uninstalling(s, c, r) && s.ctl == Holding(Uninstall(r), c)
    ensures Enabled(s, OpJudge) && Next(s, OpJudge) == s.(ctl := Judged(Uninstall(r), c, RequestUninstalled))
  {
    assert Next(s, OpJudge) == StepOpJudge(s);
  }

  lemma UninstallActs(s: State, c: ConnId, r: RequestId)
    requires Uninstalling(s, c, r) && s.ctl == Judged(Uninstall(r), c, RequestUninstalled)
    ensures Enabled(s, OpAct)
    ensures var n := Next(s, OpAct);
            && !n.fatal && c in n.conns && n.conns[c].gate.active == None
            && LiveRequest(n, r) && n.requests[r].q.state == RequestState.Detached
            && n.ctl == Acted(Uninstall(r), c, RequestUninstalled)
  {
    assert Next(s, OpAct) == StepOpAct(s);
  }

  lemma UninstallUnlocks(s: State, c: ConnId, r: RequestId)
    requires !s.fatal && c in s.conns && s.ctl == Acted(Uninstall(r), c, RequestUninstalled)
    ensures Enabled(s, OpUnlock)
    ensures var n := Next(s, OpUnlock);
            && n.answer == Some(RequestUninstalled) && n.requests == s.requests
            && c in n.conns && n.conns[c].gate == s.conns[c].gate
  {
  }

  /** A whole uninstall, run from a drained state. */
  lemma DrainedUninstalls(s: State, c: ConnId, r: RequestId) returns (steps: seq<Step>)
    requires Inv(s) && Drained(s, c, r) && InstalledOn(s, c, r)
    ensures steps == [OpBegin(Uninstall(r)), OpJudge, OpAct, OpUnlock] && Legal(s, steps) && AllSettle(steps, c, r)
    ensures var n := After(s, steps);
            n.answer == Some(RequestUninstalled) && DetachedIn(n, r) && c in n.conns && n.conns[c].gate.active == None
  {
    UninstallBegins(s, c, r);
    var s1 := Next(s, OpBegin(Uninstall(r)));
    var rest := GrantedUninstalls(s1, c, r);
    Prepend(s, OpBegin(Uninstall(r)), rest);
    steps := [OpBegin(Uninstall(r))] + rest;
    UninstallSettles(c, r);
  }

  lemma UninstallSettles(c: ConnId, r: RequestId)
    ensures AllSettle([OpBegin(Uninstall(r)), OpJudge, OpAct, OpUnlock], c, r)
  {
  }

  lemma GrantedUninstalls(s: State, c: ConnId, r: RequestId) returns (steps: seq<Step>)
    requires Uninstalling(s, c, r) && s.ctl == Holding(Uninstall(r), c)
    ensures steps == [OpJudge, OpAct, OpUnlock] && Legal(s, steps)
    ensures var n := After(s, steps);
            n.answer == Some(RequestUninstalled) && DetachedIn(n, r) && c in n.conns && n.conns[c].gate.active == None
  {
    UninstallJudges(s, c, r);
    var s2 := Next(s, OpJudge);
    UninstallActs(s2, c, r);
    var s3 := Next(s2, OpAct);
    UninstallUnlocks(s3, c, r);
    Prepend(s3, OpUnlock, []);
    Prepend(s2, OpAct, [OpUnlock]);
    Prepend(s, OpJudge, [OpAct, OpUnlock]);
    steps := [OpJudge, OpAct, OpUnlock];
    assert [OpUnlock] + [] == [OpUnlock] && [OpAct] + [OpUnlock] == [OpAct, OpUnlock];
    assert [OpJudge] + [OpAct, OpUnlock] == steps;
  }

  /** The steps an owner that wants to detach r has to wait for or take itself. */
  predicate Settling(step: Step, c: ConnId, r: RequestId) {
    || step == OpBegin(Uninstall(r)) || step == OpJudge || step == OpAct || step == OpUnlock || step == Retire(r)
    || (WorkerStep(step) && step.c == c && !step.Start? && !step.StartClose? && !step.Spin?)
  }

  lemma ActBinds(s: State, c: ConnId, r: RequestId)
    requires Inv(s) && InstalledOn(s, c, r) && OperationEnabled(s, OpAct)
    ensures var n := StepOpAct(s);
            || (InstalledOn(n, c, r) && (Pending(s, r) ==> Pending(n, r)))
            || (!Pending(s, r) && DetachedIn(n, r))
  {
    assert RequestOk(s, s.ctl.op.r, s.requests[s.ctl.op.r].q);
  }

  lemma RetireBinds(s: State, c: ConnId, r: RequestId)
    requires InstalledOn(s, c, r) && AtomicEnabled(s, Retire(r))
    ensures InstalledOn(StepAtomic(s, Retire(r)), c, r)
  {
  }

  /** A draining step leaves an installed request installed, or is itself the end of its uninstall; only
      retiring withdraws its reservation. */
  lemma StaysBound(s: State, step: Step, c: ConnId, r: RequestId)
    requires Inv(s) && InstalledOn(s, c, r) && Enabled(s, step) && c in s.conns && Draining(s, step, c, r)
    ensures var n := Next(s, step);
            || (InstalledOn(n, c, r) && (Pending(s, r) && !step.Retire? ==> Pending(n, r)))
            || (!Pending(s, r) && DetachedIn(n, r))
  {
    if step == OpAct {
      ActBinds(s, c, r);
    } else if step.Retire? {
      RetireBinds(s, c, r);
    } else if WorkerStep(step) {
      WorkersLeaveRequests(s, step);
    } else {
      OperationsLeaveRequests(s, step);
    }
  }

  lemma DrainOnce(s: State, c: ConnId, r: RequestId) returns (step: Step, n: State)
    requires Inv(s) && InstalledOn(s, c, r) && c in s.conns && !Drained(s, c, r)
    ensures Enabled(s, step) && Settling(step, c, r) && n == Next(s, step) && Inv(n) && c in n.conns
    ensures 0 <= Work(n, c, r) < Work(s, c, r)
    ensures InstalledOn(n, c, r) || DetachedIn(n, r)
  {
    step := SomethingCanDrain(s, c, r);
    n := Next(s, step);
    DrainingDecreases(s, step, c, r);
    EveryStepKeeps(s, step);
    StaysBound(s, step, c, r);
    WorkIsNatural(n, c, r);
  }

  lemma Prepend(s: State, step: Step, rest: seq<Step>)
    requires Enabled(s, step) && Legal(Next(s, step), rest)
    ensures Legal(s, [step] + rest) && After(s, [step] + rest) == After(Next(s, step), rest)
  {
    assert ([step] + rest)[1..] == rest;
  }

  predicate AllSettle(steps: seq<Step>, c: ConnId, r: RequestId) {
    forall i | 0 <= i < |steps| :: Settling(steps[i], c, r)
  }

  lemma SettleFirst(step: Step, rest: seq<Step>, c: ConnId, r: RequestId)
    requires Settling(step, c, r) && AllSettle(rest, c, r)
    ensures AllSettle([step] + rest, c, r)
    ensures step != Retire(r) && Retire(r) !in rest ==> Retire(r) !in [step] + rest
  {
  }

  /** From every state the invariant allows, draining a request's owner and then uninstalling detaches
      the request; nothing else has to happen. */
  lemma {:induction false} UninstallIsAlwaysReachable(s: State, c: ConnId, r: RequestId) returns (steps: seq<Step>)
    requires Inv(s) && InstalledOn(s, c, r) && c in s.conns
    ensures Legal(s, steps)
    ensures AllSettle(steps, c, r)
    ensures DetachedIn(After(s, steps), r)
    decreases Work(s, c, r)
  {
    if Drained(s, c, r) {
      steps := DrainedUninstalls(s, c, r);
    } else {
      var step, n := DrainOnce(s, c, r);
      var rest := [];
      if InstalledOn(n, c, r) {
        rest := UninstallIsAlwaysReachable(n, c, r);
      }
      Prepend(s, step, rest);
      SettleFirst(step, rest, c, r);
      steps := [step] + rest;
    }
  }

  /** The assumption that a request is finalized only after its reservation is retired is needed: from every
      state with a reserved installed request, the worker and the operation in progress can come to rest with
      the reservation still there, and the finalizer of that quiescent owner's request is then fatal. */
  lemma {:induction false} ReservedFinalizerDies(s: State, c: ConnId, r: RequestId) returns (steps: seq<Step>)
    requires Inv(s) && InstalledOn(s, c, r) && c in s.conns && Pending(s, r)
    ensures Legal(s, steps)
    ensures AllSettle(steps, c, r) && Retire(r) !in steps
    ensures QuiescentButFatal(After(s, steps), c, r)
    decreases Work(s, c, r)
  {
    if s.ctl == Resting && IdleThread(s.conns[c].thread) {
      steps := [];
      ReservedIsFatal(s, c, r);
    } else {
      var step, n := DrainReserved(s, c, r);
      var rest := ReservedFinalizerDies(n, c, r);
      Prepend(s, step, rest);
      SettleFirst(step, rest, c, r);
      steps := [step] + rest;
    }
  }

  /** The owner is as quiet as a finalizer can ask for, and finalizing r is fatal all the same. */
  predicate QuiescentButFatal(s: State, c: ConnId, r: RequestId) {
    && c in s.conns && IdleThread(s.conns[c].thread) && s.conns[c].guard == Nobody && s.ctl == Resting
    && r in s.requests && !s.fatal && StepFinalize(s, r).fatal
  }

  lemma ReservedIsFatal(s: State, c: ConnId, r: RequestId)
    requires Inv(s) && InstalledOn(s, c, r) && c in s.conns && Pending(s, r)
    requires s.ctl == Resting && IdleThread(s.conns[c].thread)
    ensures QuiescentButFatal(s, c, r)
  {
    assert ConnOk(s.conns[c]) && ConnLinks(s, c, s.conns[c]);
  }

  lemma DrainReserved(s: State, c: ConnId, r: RequestId) returns (step: Step, n: State)
    requires Inv(s) && InstalledOn(s, c, r) && c in s.conns && Pending(s, r)
    requires !(s.ctl == Resting && IdleThread(s.conns[c].thread))
    ensures Enabled(s, step) && Settling(step, c, r) && step != Retire(r) && n == Next(s, step)
    ensures Inv(n) && InstalledOn(n, c, r) && Pending(n, r) && c in n.conns && 0 <= Work(n, c, r) < Work(s, c, r)
  {
    step := SomethingCanDrain(s, c, r);
    n := Next(s, step);
    DrainingDecreases(s, step, c, r);
    EveryStepKeeps(s, step);
    StaysBound(s, step, c, r);
    WorkIsNatural(n, c, r);
  }
}
