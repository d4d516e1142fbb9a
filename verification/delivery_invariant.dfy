/** The inductive invariant of Delivery, kept by every enabled step. */
module DeliveryInvariant {
  import opened Native
  import opened Stubs
  import opened Trace
  import opened Delivery

  function ModeOf(g: Gate, lane: Lane): Mode {
    Mode(g.foreign, g.depth, g.closing, lane)
  }

  /** The phase is USER exactly in a user lane with a request installed; otherwise it is derived. */
  function ExpectedPhase(g: Gate, lane: Lane): Phase {
    if lane.User() && g.active.Some? then User else g.Derived()
  }

  function ExpectedTrail(k: Conn): Trail {
    Trail(k.gate.active,
          if k.thread.lane.User() then k.gate.active else None,
          if k.thread.lane.Ready() then Some(k.gate.active) else None,
          if k.thread.pos.Engaged? then Some(k.thread.pos.call) else None)
  }

  predicate GoodProgram(p: Prog, g: Gate, lane: Lane) {
    || Balanced(p, ModeOf(g, lane))
    || (p.Guarded? && p.t == CloseBegin && Quiet(ModeOf(g, lane)) && g.active == None
        && Balanced(p.next, ModeOf(g, lane).(closing := true)))
  }

  predicate CallHome(call: Call, g: Gate, lane: Lane) {
    && (lane.User() ==> call.UserCall())
    && (if call.CleanupCall() then g.depth > 0 && (call.Disconnect? ==> g.closing) else g.foreign && g.depth == 0)
  }

  predicate ConnOk(k: Conn) {
    var g, t := k.gate, k.thread;
    && GoodProgram(t.prog, g, t.lane)
    && (t.lane != Off ==> MayAdmit(g))
    && (if t.pos.Decided? then t.pos.phase == ExpectedPhase(g, t.lane) && MayAdmit(g)
        else g.phase == ExpectedPhase(g, t.lane))
    && (k.guard == Holder.Worker <==> t.pos == Locked || t.pos.Decided? || t.pos == Leaving)
    && (t.pos == Locked ==> t.prog.Guarded? || t.prog.Admit?)
    && (t.pos.Engaged? ==> CallHome(t.pos.call, g, t.lane))
  }

  ghost predicate ConnLinks(s: State, c: ConnId, k: Conn) {
    && TrailOf(s.log, c) == ExpectedTrail(k)
    && (k.guard == Holder.Controller <==> s.ctl != Resting && s.ctl.c == c)
    && (k.gate.active.Some? ==>
          LiveRequest(s, k.gate.active.value) && s.requests[k.gate.active.value].q.owner == Some(c))
  }

  ghost predicate RequestOk(s: State, r: RequestId, q: Request) {
    && (q.state == RequestState.Installed <==> q.owner.Some?)
    && (q.owner.Some? ==> q.owner.value in s.conns && s.conns[q.owner.value].gate.active == Some(r))
    && MarkOf(s.log, r) == Mark(q.cancelled, q.reserved, q.state == RequestState.Detached)
  }

  /** What a judged operation relies on until it acts. */
  predicate VerdictHolds(g: Gate, op: Op, q: Request, verdict: Answer) {
    match verdict
    case RequestInstalled =>
      op.Install? && !g.closing && !g.foreign && g.depth == 0 && g.active == None
    case RequestUninstalled => op.Uninstall? && !g.foreign && g.depth == 0 && !q.reserved && g.active == Some(op.r)
    case DeliveryReserved => op.Reserve? && !q.reserved && Eligible(g, op.r, q.cancelled)
    case InterruptDelivered => op.Interrupt? && q.reserved && Eligible(g, op.r, q.cancelled)
    case _ => true
  }

  ghost predicate ControllerOk(s: State) {
    s.ctl != Resting ==>
      var op, c := s.ctl.op, s.ctl.c;
      && c in s.conns && LiveRequest(s, op.r)
      && (s.ctl.Acted? || if op.Install? then
            op.c == c && s.requests[op.r].q.state == RequestState.Fresh && !PendingClose(s.conns[c].thread.prog)
          else s.requests[op.r].q.owner == Some(c))
      && (op.Interrupt? ==> s.requests[op.r].q.reserved)
      && (s.ctl.Judged? ==> VerdictHolds(s.conns[c].gate, op, s.requests[op.r].q, s.ctl.verdict))
  }

  /** The part of the invariant about each connection and each request. */
  ghost predicate Linked(s: State) {
    && (forall c | c in s.conns :: ConnOk(s.conns[c]) && ConnLinks(s, c, s.conns[c]))
    && (forall r | LiveRequest(s, r) :: RequestOk(s, r, s.requests[r].q))
  }

  ghost predicate Inv(s: State) {
    && !s.fatal
    && Safe(s.log)
    && ControllerOk(s)
    && Linked(s)
    && (forall c: ConnId | c !in s.conns :: TrailOf(s.log, c) == Trail(None, None, None, None))
    && (forall r: RequestId | r !in s.requests :: MarkOf(s.log, r) == Mark(false, false, false))
  }

  // ----- frames

  predicate WorkerEvent(e: Event, c: ConnId) {
    (e.Admitted? || e.Refused? || e.Passed? || e.Entered? || e.Returned?) && e.c == c
  }

  /** What a worker step must preserve on its own connection for the rest of the state not to notice. */
  predicate WorkerChange(k: Conn, after: Conn) {
    && ConnOk(after)
    && after.gate.active == k.gate.active
    && (after.guard == Holder.Controller <==> k.guard == Holder.Controller)
    && (k.guard == Holder.Controller ==>
          after.gate.(connected := k.gate.connected) == k.gate
          && (k.gate.phase == User ==> after.gate.connected == k.gate.connected)
          && !PendingClose(after.thread.prog))
  }

  lemma WorkerSilent(s: State, c: ConnId, after: Conn)
    requires Inv(s) && c in s.conns && WorkerChange(s.conns[c], after)
    requires ExpectedTrail(after) == ExpectedTrail(s.conns[c])
    ensures Inv(Put(s, c, after))
  {
    var n := Put(s, c, after);
    forall d | d in n.conns ensures ConnOk(n.conns[d]) && ConnLinks(n, d, n.conns[d]) {
      assert ConnLinks(s, d, s.conns[d]);
    }
    forall r | LiveRequest(n, r) ensures RequestOk(n, r, n.requests[r].q) {
      assert RequestOk(s, r, s.requests[r].q);
    }
  }

  lemma WorkerLogged(s: State, c: ConnId, after: Conn, e: Event)
    requires Inv(s) && c in s.conns && WorkerChange(s.conns[c], after)
    requires WorkerEvent(e, c) && SafeEvent(s.log, e)
    requires ExpectedTrail(after) == TrailStep(ExpectedTrail(s.conns[c]), c, e)
    ensures Inv(Note(Put(s, c, after), e))
  {
    var n := Note(Put(s, c, after), e);
    SafeSnoc(s.log, e);
    forall d: ConnId ensures TrailOf(n.log, d) == TrailStep(TrailOf(s.log, d), d, e) {
      TrailSnoc(s.log, e, d);
    }
    forall r: RequestId ensures MarkOf(n.log, r) == MarkOf(s.log, r) {
      MarkSnoc(s.log, e, r);
    }
    WorkerLinks(s, n, c, after, e);
  }

  lemma WorkerLinks(s: State, n: State, c: ConnId, after: Conn, e: Event)
    requires Linked(s) && c in s.conns && WorkerChange(s.conns[c], after) && n.conns == s.conns[c := after]
    requires n.requests == s.requests && n.ctl == s.ctl
    requires ExpectedTrail(after) == TrailStep(ExpectedTrail(s.conns[c]), c, e)
    requires WorkerEvent(e, c) && forall d: ConnId :: TrailOf(n.log, d) == TrailStep(TrailOf(s.log, d), d, e)
    requires forall r: RequestId :: MarkOf(n.log, r) == MarkOf(s.log, r)
    ensures forall d | d in n.conns :: ConnOk(n.conns[d]) && ConnLinks(n, d, n.conns[d])
    ensures forall r | LiveRequest(n, r) :: RequestOk(n, r, n.requests[r].q)
  {
    forall d | d in n.conns ensures ConnOk(n.conns[d]) && ConnLinks(n, d, n.conns[d]) {
      assert ConnLinks(s, d, s.conns[d]);
    }
    forall r | LiveRequest(n, r) ensures RequestOk(n, r, n.requests[r].q) {
      assert RequestOk(s, r, s.requests[r].q);
    }
  }

  // ----- worker steps

  /** A section other than a close runs the rest of a balanced program in the mode it leaves. */
  lemma SectionBalances(g: Gate, lane: Lane, p: Prog)
    requires p.Guarded? && p.t != CloseBegin && Balanced(p, ModeOf(g, lane)) && (lane != Off ==> MayAdmit(g))
    ensures Apply(g, p.t, Released).Some?
    ensures var next, after := Apply(g, p.t, Released).value, AfterTransition(lane, p.t);
            && Balanced(p.next, ModeOf(next, after)) && next.active == g.active
            && next.phase == ExpectedPhase(next, after) && (after != Off ==> MayAdmit(next))
  {
    var m := ModeOf(g, lane);
    var next := Apply(g, p.t, Released).value;
    match p.t
    case WorkBegin => assert ModeOf(next, lane) == m.(foreign := true);
    case WorkEnd => assert ModeOf(next, Off) == m.(foreign := false, lane := Off);
    case CallEnd => assert ModeOf(next, Off) == m.(lane := Off);
    case CleanupBegin => assert ModeOf(next, Off) == m.(depth := m.depth + 1, lane := Off);
    case CleanupEnd => assert ModeOf(next, lane) == m.(depth := m.depth - 1);
  }

  lemma CloseBalances(g: Gate, lane: Lane, p: Prog)
    requires p.Guarded? && p.t == CloseBegin && GoodProgram(p, g, lane)
    ensures lane == Off && Apply(g, CloseBegin, Released) == Some(g.(closing := true).Refresh())
    ensures Balanced(p.next, ModeOf(g.(closing := true).Refresh(), Off))
  {
    var m := ModeOf(g, lane);
    assert !Balanced(p, m);
    assert ModeOf(g.(closing := true).Refresh(), Off) == m.(closing := true);
  }

  lemma SectionOk(k: Conn)
    requires ConnOk(k) && k.thread.pos == Locked && k.thread.prog.Guarded?
    ensures Apply(k.gate, k.thread.prog.t, Released).Some?
    ensures var p := k.thread.prog;
            var after := k.(gate := Apply(k.gate, p.t, Released).value,
                            thread := Thread(p.next, Leaving, AfterTransition(k.thread.lane, p.t)));
            ConnOk(after) && !PendingClose(after.thread.prog) && after.gate.active == k.gate.active
  {
    if k.thread.prog.t == CloseBegin {
      CloseBalances(k.gate, k.thread.lane, k.thread.prog);
    } else {
      SectionBalances(k.gate, k.thread.lane, k.thread.prog);
    }
  }

  lemma SectionKeeps(s: State, c: ConnId)
    requires Inv(s) && WorkerEnabled(s, Section(c))
    ensures Inv(StepWorker(s, Section(c)))
  {
    var k := s.conns[c];
    var p := k.thread.prog;
    assert ConnLinks(s, c, k);
    if p.Guarded? {
      SectionOk(k);
      var after := k.(gate := Apply(k.gate, p.t, Released).value,
                      thread := Thread(p.next, Leaving, AfterTransition(k.thread.lane, p.t)));
      WorkerLogged(s, c, after, Passed(c, p.t));
    } else {
      AdmitKeeps(s, c);
    }
  }

  lemma AdmitKeeps(s: State, c: ConnId)
    requires Inv(s) && WorkerEnabled(s, Section(c)) && s.conns[c].thread.prog.Admit?
    ensures Inv(StepWorker(s, Section(c)))
  {
    var k := s.conns[c];
    var p := k.thread.prog;
    var g := k.gate;
    assert ConnLinks(s, c, k);
    assert Balanced(p, ModeOf(g, k.thread.lane));
    if g.active.Some? {
      assert RequestOk(s, g.active.value, s.requests[g.active.value].q);
    }
    if Admits(g, LatchOf(s, g.active)) {
      var lane := if p.interruptible then UserReady else ScalarReady;
      assert ModeOf(g, lane) == ModeOf(g, k.thread.lane).(lane := lane);
      var after := k.(thread := Thread(p.admitted, Decided(AdmissionPhase(g, p.interruptible, true)), lane));
      WorkerLogged(s, c, after, Admitted(c, g.active, p.interruptible));
    } else {
      assert ModeOf(g, Off) == ModeOf(g, k.thread.lane).(lane := Off);
      var after := k.(thread := Thread(p.refused, Decided(AdmissionPhase(g, p.interruptible, false)), Off));
      WorkerLogged(s, c, after, Refused(c, g.active.value));
    }
  }

  function Entering(k: Conn): Conn
    requires k.thread.prog.Engine?
  {
    var t := k.thread;
    k.(thread := Thread(t.prog.after, Engaged(t.prog.call), LaneAfter(t.lane, t.prog.call)))
  }

  lemma EnterOk(k: Conn, c: ConnId)
    requires ConnOk(k) && k.thread.pos == Free && k.thread.prog.Engine?
    ensures WorkerChange(k, Entering(k))
    ensures ExpectedTrail(Entering(k)) == TrailStep(ExpectedTrail(k), c, Entered(c, k.thread.prog.call))
    ensures CallAllowed(ModeOf(k.gate, k.thread.lane), k.thread.prog.call)
  {
    var t := k.thread;
    var m := ModeOf(k.gate, t.lane);
    assert Balanced(t.prog, m);
    assert ModeOf(k.gate, LaneAfter(t.lane, t.prog.call)) == m.(lane := LaneAfter(t.lane, t.prog.call));
  }

  lemma EnterKeeps(s: State, c: ConnId)
    requires Inv(s) && WorkerEnabled(s, Enter(c))
    ensures Inv(StepWorker(s, Enter(c)))
  {
    var k := s.conns[c];
    assert ConnLinks(s, c, k);
    EnterOk(k, c);
    WorkerLogged(s, c, Entering(k), Entered(c, k.thread.prog.call));
  }

  lemma ReturnOk(k: Conn, ok: bool)
    requires ConnOk(k) && k.thread.pos.Engaged?
    ensures var after := k.(gate := GateAfterCall(k.gate, k.thread.pos.call, ok), thread := k.thread.(pos := Free));
            WorkerChange(k, after) || (k.guard == Holder.Controller && PendingClose(k.thread.prog))
  {
    var g := GateAfterCall(k.gate, k.thread.pos.call, ok);
    assert ModeOf(g, k.thread.lane) == ModeOf(k.gate, k.thread.lane);
    assert GoodProgram(k.thread.prog, g, k.thread.lane);
    assert ExpectedPhase(g, k.thread.lane) == ExpectedPhase(k.gate, k.thread.lane);
  }

  lemma ReturnKeeps(s: State, c: ConnId, ok: bool)
    requires Inv(s) && WorkerEnabled(s, Return(c, ok))
    ensures Inv(StepWorker(s, Return(c, ok)))
  {
    var k := s.conns[c];
    assert ConnLinks(s, c, k);
    ReturnOk(k, ok);
    // An engine call is never made in front of a close, so the program is not waiting for one.
    assert !PendingClose(k.thread.prog);
    WorkerLogged(s, c, k.(gate := GateAfterCall(k.gate, k.thread.pos.call, ok), thread := k.thread.(pos := Free)),
                 Returned(c));
  }

  lemma StartKeeps(s: State, c: ConnId, stub: Stub)
    requires Inv(s) && WorkerEnabled(s, Start(c, stub))
    ensures Inv(StepWorker(s, Start(c, stub)))
  {
    var k := s.conns[c];
    assert ConnLinks(s, c, k);
    StubsBalanced(stub, Halt, ModeOf(k.gate, k.thread.lane));
    WorkerSilent(s, c, k.(thread := k.thread.(prog := Program(stub, Halt))));
  }

  lemma StartCloseKeeps(s: State, c: ConnId)
    requires Inv(s) && WorkerEnabled(s, StartClose(c))
    ensures Inv(StepWorker(s, StartClose(c)))
  {
    var k := s.conns[c];
    assert ConnLinks(s, c, k);
    AfterCloseKeeps(Halt, ModeOf(k.gate, k.thread.lane).(closing := true));
    WorkerSilent(s, c, k.(thread := k.thread.(prog := CloseProgram(Halt))));
  }

  lemma LockKeeps(s: State, c: ConnId)
    requires Inv(s) && WorkerEnabled(s, Lock(c))
    ensures Inv(StepWorker(s, Lock(c)))
  {
    var k := s.conns[c];
    assert ConnLinks(s, c, k);
    WorkerSilent(s, c, k.(guard := Holder.Worker, thread := k.thread.(pos := Locked)));
  }

  lemma StoreKeeps(s: State, c: ConnId)
    requires Inv(s) && WorkerEnabled(s, Store(c))
    ensures Inv(StepWorker(s, Store(c)))
  {
    var k := s.conns[c];
    assert ConnLinks(s, c, k);
    var g := k.gate.(phase := k.thread.pos.phase);
    assert ModeOf(g, k.thread.lane) == ModeOf(k.gate, k.thread.lane);
    WorkerSilent(s, c, k.(gate := g, thread := k.thread.(pos := Leaving)));
  }

  lemma UnlockKeeps(s: State, c: ConnId)
    requires Inv(s) && WorkerEnabled(s, Unlock(c))
    ensures Inv(StepWorker(s, Unlock(c)))
  {
    var k := s.conns[c];
    assert ConnLinks(s, c, k);
    WorkerSilent(s, c, k.(guard := Nobody, thread := k.thread.(pos := Free)));
  }

  lemma ChooseKeeps(s: State, c: ConnId, first: bool)
    requires Inv(s) && WorkerEnabled(s, Choose(c, first))
    ensures Inv(StepWorker(s, Choose(c, first)))
  {
    var k := s.conns[c];
    assert ConnLinks(s, c, k);
    assert Balanced(k.thread.prog, ModeOf(k.gate, k.thread.lane));
    WorkerSilent(s, c, k.(thread := k.thread.(prog := if first then k.thread.prog.left else k.thread.prog.right)));
  }

  predicate GuardStep(step: Step) {
    step.Spin? || step.Lock? || step.Section? || step.Store? || step.Unlock?
  }

  lemma GuardStepKeeps(s: State, step: Step)
    requires Inv(s) && WorkerStep(step) && GuardStep(step) && WorkerEnabled(s, step)
    ensures Inv(StepWorker(s, step))
  {
    match step
    case Spin(_) =>
    case Lock(c) => LockKeeps(s, c);
    case Section(c) => SectionKeeps(s, c);
    case Store(c) => StoreKeeps(s, c);
    case Unlock(c) => UnlockKeeps(s, c);
  }

  lemma ProgramStepKeeps(s: State, step: Step)
    requires Inv(s) && WorkerStep(step) && !GuardStep(step) && WorkerEnabled(s, step)
    ensures Inv(StepWorker(s, step))
  {
    match step
    case Start(c, stub) => StartKeeps(s, c, stub);
    case StartClose(c) => StartCloseKeeps(s, c);
    case Enter(c) => EnterKeeps(s, c);
    case Return(c, ok) => ReturnKeeps(s, c, ok);
    case Choose(c, first) => ChooseKeeps(s, c, first);
  }

  lemma WorkerKeeps(s: State, step: Step)
    requires Inv(s) && WorkerStep(step) && WorkerEnabled(s, step)
    ensures Inv(StepWorker(s, step))
  {
    if GuardStep(step) {
      GuardStepKeeps(s, step);
    } else {
      ProgramStepKeeps(s, step);
    }
  }

  // ----- runtime-held steps

  /** Changing only the controller's slot and last answer is invisible to a resting state's links. */
  lemma AnsweredKeeps(s: State, a: Answer)
    requires Inv(s) && s.ctl == Resting
    ensures Inv(Answered(s, a))
  {
    var n := Answered(s, a);
    forall c | c in n.conns ensures ConnOk(n.conns[c]) && ConnLinks(n, c, n.conns[c]) {
      assert ConnLinks(s, c, s.conns[c]);
    }
    forall r | LiveRequest(n, r) ensures RequestOk(n, r, n.requests[r].q) {
      assert RequestOk(s, r, s.requests[r].q);
    }
  }

  lemma OpLockKeeps(s: State, op: Op, c: ConnId)
    requires Inv(s) && s.ctl == Resting && c in s.conns && s.conns[c].guard == Nobody
    requires ControllerOk(s.(ctl := Holding(op, c)))
    ensures Inv(Put(s, c, s.conns[c].(guard := Holder.Controller)).(ctl := Holding(op, c)))
  {
    var n := Put(s, c, s.conns[c].(guard := Holder.Controller)).(ctl := Holding(op, c));
    assert ConnOk(s.conns[c]);
    assert ConnOk(n.conns[c]);
    forall d | d in n.conns ensures ConnOk(n.conns[d]) && ConnLinks(n, d, n.conns[d]) {
      assert ConnLinks(s, d, s.conns[d]);
    }
    forall r | LiveRequest(n, r) ensures RequestOk(n, r, n.requests[r].q) {
      assert RequestOk(s, r, s.requests[r].q);
    }
  }

  lemma OpBeginKeeps(s: State, op: Op)
    requires Inv(s) && OperationEnabled(s, OpBegin(op))
    ensures Inv(StepOperation(s, OpBegin(op)))
  {
    if EarlyAnswer(s, op).Some? {
      AnsweredKeeps(s, EarlyAnswer(s, op).value);
    } else {
      assert RequestOk(s, op.r, s.requests[op.r].q);
      var c := Target(s, op).value;
      if s.conns[c].guard != Nobody {
        AnsweredKeeps(s, Contended(op));
      } else {
        OpLockKeeps(s, op, c);
      }
    }
  }

  lemma OpJudgeKeeps(s: State)
    requires Inv(s) && OperationEnabled(s, OpJudge)
    ensures Inv(StepOperation(s, OpJudge))
  {
    var op, c := s.ctl.op, s.ctl.c;
    assert RequestOk(s, op.r, s.requests[op.r].q);
    assert ConnLinks(s, c, s.conns[c]);
    var n := StepOperation(s, OpJudge);
    assert VerdictHolds(s.conns[c].gate, op, s.requests[op.r].q, Verdict(s.conns[c].gate, op, s.requests[op.r].q));
    forall d | d in n.conns ensures ConnOk(n.conns[d]) && ConnLinks(n, d, n.conns[d]) {
      assert ConnLinks(s, d, s.conns[d]);
    }
    forall r | LiveRequest(n, r) ensures RequestOk(n, r, n.requests[r].q) {
      assert RequestOk(s, r, s.requests[r].q);
    }
  }

  lemma OpUnlockKeeps(s: State)
    requires Inv(s) && OperationEnabled(s, OpUnlock)
    ensures Inv(StepOperation(s, OpUnlock))
  {
    var n := StepOperation(s, OpUnlock);
    forall c | c in n.conns ensures ConnOk(n.conns[c]) && ConnLinks(n, c, n.conns[c]) {
      assert ConnOk(s.conns[c]) && ConnLinks(s, c, s.conns[c]);
    }
    forall r | LiveRequest(n, r) ensures RequestOk(n, r, n.requests[r].q) {
      assert RequestOk(s, r, s.requests[r].q);
    }
  }

  /** A request binds to c or is released from it: its state, its owner and c's pointer move together. */
  lemma BindingLogged(s: State, c: ConnId, after: Conn, r: RequestId, q: Request, e: Event, ctl: Delivery.Controller)
    requires Inv(s) && LiveRequest(s, r) && c in s.conns && SafeEvent(s.log, e)
    requires s.ctl != Resting && s.ctl.c == c && ctl.Acted? && ctl.op == s.ctl.op && ctl.c == c
    requires ControllerOk(s.(conns := s.conns[c := after], requests := s.requests[r := Live(q)], ctl := ctl))
    requires ConnOk(after) && after.guard == Holder.Controller
    requires ExpectedTrail(after) == TrailStep(ExpectedTrail(s.conns[c]), c, e)
    requires q.cancelled == s.requests[r].q.cancelled && q.reserved == s.requests[r].q.reserved
    requires || (e == Event.Installed(c, r) && s.requests[r].q.state == RequestState.Fresh
                 && q.state == RequestState.Installed && q.owner == Some(c) && after.gate.active == Some(r)
                 && s.conns[c].gate.active == None)
             || (e == Event.Detached(c, r) && s.requests[r].q.owner == Some(c)
                 && q.state == RequestState.Detached && q.owner == None && after.gate.active == None
                 && s.conns[c].gate.active == Some(r))
    ensures Inv(Note(PutRequest(Put(s, c, after), r, q).(ctl := ctl), e))
  {
    var n := Note(PutRequest(Put(s, c, after), r, q).(ctl := ctl), e);
    SafeSnoc(s.log, e);
    forall d: ConnId ensures TrailOf(n.log, d) == TrailStep(TrailOf(s.log, d), d, e) {
      TrailSnoc(s.log, e, d);
    }
    forall p: RequestId ensures MarkOf(n.log, p) == MarkStep(MarkOf(s.log, p), p, e) {
      MarkSnoc(s.log, e, p);
    }
    assert RequestOk(s, r, s.requests[r].q);
    BindingLinks(s, n, c, after, r, q, e);
  }

  lemma BindingLinks(s: State, n: State, c: ConnId, after: Conn, r: RequestId, q: Request, e: Event)
    requires Linked(s) && LiveRequest(s, r) && c in s.conns && n.conns == s.conns[c := after]
    requires n.requests == s.requests[r := Live(q)] && RequestOk(s, r, s.requests[r].q)
    requires s.ctl != Resting && s.ctl.c == c && n.ctl != Resting && n.ctl.c == c
    requires ConnOk(after) && after.guard == Holder.Controller
    requires ExpectedTrail(after) == TrailStep(ExpectedTrail(s.conns[c]), c, e)
    requires q.cancelled == s.requests[r].q.cancelled && q.reserved == s.requests[r].q.reserved
    requires || (e == Event.Installed(c, r) && s.requests[r].q.state == RequestState.Fresh
                 && q.state == RequestState.Installed && q.owner == Some(c) && after.gate.active == Some(r)
                 && s.conns[c].gate.active == None)
             || (e == Event.Detached(c, r) && s.requests[r].q.owner == Some(c)
                 && q.state == RequestState.Detached && q.owner == None && after.gate.active == None
                 && s.conns[c].gate.active == Some(r))
    requires forall d: ConnId :: TrailOf(n.log, d) == TrailStep(TrailOf(s.log, d), d, e)
    requires forall p: RequestId :: MarkOf(n.log, p) == MarkStep(MarkOf(s.log, p), p, e)
    ensures forall d | d in n.conns :: ConnOk(n.conns[d]) && ConnLinks(n, d, n.conns[d])
    ensures forall p | LiveRequest(n, p) :: RequestOk(n, p, n.requests[p].q)
  {
    forall d | d in n.conns ensures ConnOk(n.conns[d]) && ConnLinks(n, d, n.conns[d]) {
      assert ConnOk(s.conns[d]) && ConnLinks(s, d, s.conns[d]);
    }
    forall p | LiveRequest(n, p) ensures RequestOk(n, p, n.requests[p].q) {
      if p != r {
        assert RequestOk(s, p, s.requests[p].q);
      }
    }
  }

  /** Installing or detaching on an idle owner changes nothing the worker's own invariant mentions. */
  lemma RebindOk(k: Conn, active: Option<RequestId>)
    requires ConnOk(k) && k.guard == Holder.Controller && !MayAdmit(k.gate)
    requires active == None || !PendingClose(k.thread.prog)
    ensures var after := k.(gate := k.gate.(active := active));
            ConnOk(after) && k.thread.lane == Off
  {
    var after := k.(gate := k.gate.(active := active));
    assert ModeOf(after.gate, k.thread.lane) == ModeOf(k.gate, k.thread.lane);
  }

  lemma ActInstall(s: State)
    requires Inv(s) && OperationEnabled(s, OpAct) && s.ctl.verdict == RequestInstalled
    ensures Inv(StepOperation(s, OpAct))
  {
    var op, c := s.ctl.op, s.ctl.c;
    var k, q := s.conns[c], s.requests[op.r].q;
    assert ConnOk(k) && ConnLinks(s, c, k) && RequestOk(s, op.r, q);
    RebindOk(k, Some(op.r));
    BindingLogged(s, c, k.(gate := k.gate.(active := Some(op.r))), op.r,
                  q.(state := RequestState.Installed, owner := Some(c)), Event.Installed(c, op.r),
                  Acted(op, c, s.ctl.verdict));
  }

  lemma ActUninstall(s: State)
    requires Inv(s) && OperationEnabled(s, OpAct) && s.ctl.verdict == RequestUninstalled
    ensures Inv(StepOperation(s, OpAct))
  {
    var op, c := s.ctl.op, s.ctl.c;
    var k, q := s.conns[c], s.requests[op.r].q;
    assert ConnOk(k) && ConnLinks(s, c, k) && RequestOk(s, op.r, q);
    RebindOk(k, None);
    var after, detached := k.(gate := k.gate.(active := None)), q.(state := RequestState.Detached, owner := None);
    var ctl := Acted(op, c, s.ctl.verdict);
    BindingLogged(s, c, after, op.r, detached, Event.Detached(c, op.r), ctl);
  }

  /** The request's owner and state stay; its latch or its reservation changes. */
  lemma FlagLogged(s: State, n: State, r: RequestId, q: Request, e: Event)
    requires Inv(s) && LiveRequest(s, r)
    requires e == Latched(r) || e == Reserved(r) || e == Retired(r)
    requires n.log == s.log + [e] && !n.fatal && n.requests == s.requests[r := Live(q)] && n.conns == s.conns
    requires ControllerOk(n) && (n.ctl == Resting <==> s.ctl == Resting)
    requires n.ctl != Resting ==> n.ctl.c == s.ctl.c
    requires q.state == s.requests[r].q.state && q.owner == s.requests[r].q.owner
    requires MarkStep(MarkOf(s.log, r), r, e) == Mark(q.cancelled, q.reserved, q.state == RequestState.Detached)
    ensures Inv(n)
  {
    SafeSnoc(s.log, e);
    forall d: ConnId ensures TrailOf(n.log, d) == TrailOf(s.log, d) {
      TrailSnoc(s.log, e, d);
    }
    forall p: RequestId ensures MarkOf(n.log, p) == MarkStep(MarkOf(s.log, p), p, e) {
      MarkSnoc(s.log, e, p);
    }
    FlagLinks(s, n, r, q, e);
  }

  lemma FlagLinks(s: State, n: State, r: RequestId, q: Request, e: Event)
    requires Linked(s) && LiveRequest(s, r) && n.requests == s.requests[r := Live(q)] && n.conns == s.conns
    requires (n.ctl == Resting <==> s.ctl == Resting) && (n.ctl != Resting ==> n.ctl.c == s.ctl.c)
    requires q.state == s.requests[r].q.state && q.owner == s.requests[r].q.owner
    requires MarkStep(MarkOf(s.log, r), r, e) == Mark(q.cancelled, q.reserved, q.state == RequestState.Detached)
    requires e == Latched(r) || e == Reserved(r) || e == Retired(r)
    requires forall d: ConnId :: TrailOf(n.log, d) == TrailOf(s.log, d)
    requires forall p: RequestId :: MarkOf(n.log, p) == MarkStep(MarkOf(s.log, p), p, e)
    ensures forall c | c in n.conns :: ConnOk(n.conns[c]) && ConnLinks(n, c, n.conns[c])
    ensures forall p | LiveRequest(n, p) :: RequestOk(n, p, n.requests[p].q)
  {
    forall c | c in n.conns ensures ConnOk(n.conns[c]) && ConnLinks(n, c, n.conns[c]) {
      assert ConnLinks(s, c, s.conns[c]);
    }
    forall p | LiveRequest(n, p) ensures RequestOk(n, p, n.requests[p].q) {
      assert RequestOk(s, p, s.requests[p].q);
    }
  }

  /** The interrupt itself: the event is safe because the guard has kept the verdict true. */
  lemma ActInterrupt(s: State)
    requires Inv(s) && OperationEnabled(s, OpAct) && s.ctl.verdict == InterruptDelivered
    ensures Inv(StepOperation(s, OpAct))
  {
    var op, c := s.ctl.op, s.ctl.c;
    var k, q := s.conns[c], s.requests[op.r].q;
    assert ConnLinks(s, c, k) && RequestOk(s, op.r, q);
    var e := Interrupted(c, op.r);
    assert ConnOk(k);
    assert SafeEvent(s.log, e);
    var n := StepOperation(s, OpAct);
    SafeSnoc(s.log, e);
    forall d: ConnId ensures TrailOf(n.log, d) == TrailOf(s.log, d) {
      TrailSnoc(s.log, e, d);
    }
    forall r: RequestId ensures MarkOf(n.log, r) == MarkOf(s.log, r) {
      MarkSnoc(s.log, e, r);
    }
    forall d | d in n.conns ensures ConnOk(n.conns[d]) && ConnLinks(n, d, n.conns[d]) {
      assert ConnLinks(s, d, s.conns[d]);
    }
    forall r | LiveRequest(n, r) ensures RequestOk(n, r, n.requests[r].q) {
      assert RequestOk(s, r, s.requests[r].q);
    }
  }

  lemma ActReserve(s: State)
    requires Inv(s) && OperationEnabled(s, OpAct) && s.ctl.verdict == DeliveryReserved
    ensures Inv(StepOperation(s, OpAct))
  {
    var op := s.ctl.op;
    assert RequestOk(s, op.r, s.requests[op.r].q);
    FlagLogged(s, StepOperation(s, OpAct), op.r, s.requests[op.r].q.(reserved := true), Reserved(op.r));
  }

  lemma ActNothing(s: State)
    requires Inv(s) && OperationEnabled(s, OpAct)
    ensures Inv(s.(ctl := Acted(s.ctl.op, s.ctl.c, s.ctl.verdict)))
  {
    var n := s.(ctl := Acted(s.ctl.op, s.ctl.c, s.ctl.verdict));
    forall d | d in n.conns ensures ConnOk(n.conns[d]) && ConnLinks(n, d, n.conns[d]) {
      assert ConnLinks(s, d, s.conns[d]);
    }
    forall r | LiveRequest(n, r) ensures RequestOk(n, r, n.requests[r].q) {
      assert RequestOk(s, r, s.requests[r].q);
    }
  }

  lemma OpActKeeps(s: State)
    requires Inv(s) && OperationEnabled(s, OpAct)
    ensures Inv(StepOperation(s, OpAct))
  {
    match s.ctl.verdict
    case RequestInstalled => ActInstall(s);
    case RequestUninstalled => ActUninstall(s);
    case DeliveryReserved => ActReserve(s);
    case InterruptDelivered => ActInterrupt(s);
    case _ => ActNothing(s);
  }

  lemma OpenKeeps(s: State, c: ConnId)
    requires Inv(s) && AtomicEnabled(s, Open(c))
    ensures Inv(StepAtomic(s, Open(c)))
  {
    var n := StepAtomic(s, Open(c));
    assert Balanced(Halt, ModeOf(n.conns[c].gate, Off));
    forall d | d in n.conns ensures ConnOk(n.conns[d]) && ConnLinks(n, d, n.conns[d]) {
      if d != c {
        assert ConnOk(s.conns[d]) && ConnLinks(s, d, s.conns[d]);
      }
    }
    forall r | LiveRequest(n, r) ensures RequestOk(n, r, n.requests[r].q) {
      assert RequestOk(s, r, s.requests[r].q);
    }
  }

  lemma CreateKeeps(s: State, r: RequestId)
    requires Inv(s) && AtomicEnabled(s, Create(r))
    ensures Inv(StepAtomic(s, Create(r)))
  {
    var n := StepAtomic(s, Create(r));
    forall c | c in n.conns ensures ConnOk(n.conns[c]) && ConnLinks(n, c, n.conns[c]) {
      assert ConnOk(s.conns[c]) && ConnLinks(s, c, s.conns[c]);
    }
    forall p | LiveRequest(n, p) ensures RequestOk(n, p, n.requests[p].q) {
      if p != r {
        assert RequestOk(s, p, s.requests[p].q);
      }
    }
  }

  lemma DisposeKeeps(s: State, r: RequestId)
    requires Inv(s) && AtomicEnabled(s, Dispose(r))
    ensures Inv(StepAtomic(s, Dispose(r)))
  {
    if s.requests[r].Live? && s.requests[r].q.state != RequestState.Installed {
      assert RequestOk(s, r, s.requests[r].q);
      var n := StepAtomic(s, Dispose(r));
      forall c | c in n.conns ensures ConnOk(n.conns[c]) && ConnLinks(n, c, n.conns[c]) {
        assert ConnOk(s.conns[c]) && ConnLinks(s, c, s.conns[c]);
      }
      forall p | LiveRequest(n, p) ensures RequestOk(n, p, n.requests[p].q) {
        assert RequestOk(s, p, s.requests[p].q);
      }
    } else {
      AnsweredKeeps(s, if s.requests[r].Tombstone? then Disposed else StillInstalled);
    }
  }

  /** A finalized request leaves an idle owner, whose trail ends with the detachment. */
  lemma FinalizedLinks(s: State, n: State, c: ConnId, after: Conn, r: RequestId, e: Event)
    requires Linked(s) && LiveRequest(s, r) && c in s.conns && s.requests[r].q.owner == Some(c)
    requires n.conns == s.conns[c := after] && n.requests == s.requests[r := Tombstone]
    requires s.ctl == Resting && n.ctl == Resting && s.conns[c].gate.active == Some(r)
    requires ConnOk(after) && after.gate.active == None && after.guard == s.conns[c].guard
    requires e == Event.Detached(c, r) && ExpectedTrail(after) == TrailStep(ExpectedTrail(s.conns[c]), c, e)
    requires forall d: ConnId :: TrailOf(n.log, d) == TrailStep(TrailOf(s.log, d), d, e)
    requires forall p: RequestId :: MarkOf(n.log, p) == MarkStep(MarkOf(s.log, p), p, e)
    ensures forall d | d in n.conns :: ConnOk(n.conns[d]) && ConnLinks(n, d, n.conns[d])
    ensures forall p | LiveRequest(n, p) :: RequestOk(n, p, n.requests[p].q)
  {
    assert ConnLinks(s, c, s.conns[c]);
    forall d | d in n.conns ensures ConnOk(n.conns[d]) && ConnLinks(n, d, n.conns[d]) {
      assert ConnOk(s.conns[d]) && ConnLinks(s, d, s.conns[d]);
    }
    forall p | LiveRequest(n, p) ensures RequestOk(n, p, n.requests[p].q) {
      assert RequestOk(s, p, s.requests[p].q);
    }
  }

  /** On an owner whose worker is idle a finalizer's uninstall is answered UNINSTALLED. */
  lemma IdleUninstalls(k: Conn, r: RequestId)
    requires ConnOk(k) && IdleThread(k.thread) && k.gate.active == Some(r) && k.guard != Holder.Controller
    ensures k.guard == Nobody && UninstallAnswer(k.gate, false) == RequestUninstalled && k.thread.lane == Off
    ensures ConnOk(k.(gate := k.gate.(active := None)))
  {
    var after := k.(gate := k.gate.(active := None));
    assert ModeOf(after.gate, k.thread.lane) == ModeOf(k.gate, k.thread.lane);
  }

  lemma FinalizeInstalled(s: State, r: RequestId)
    requires Inv(s) && s.ctl == Resting && r in s.requests && Finalizable(s, r)
    requires LiveRequest(s, r) && s.requests[r].q.state == RequestState.Installed
    ensures Inv(StepFinalize(s, r))
  {
    var q := s.requests[r].q;
    var c := q.owner.value;
    var k := s.conns[c];
    assert RequestOk(s, r, q) && ConnOk(k) && ConnLinks(s, c, k);
    IdleUninstalls(k, r);
    var after, e := k.(gate := k.gate.(active := None)), Event.Detached(c, r);
    var n := Note(Put(s.(requests := s.requests[r := Tombstone]), c, after), e);
    assert StepFinalize(s, r) == n;
    SafeSnoc(s.log, e);
    forall d: ConnId ensures TrailOf(n.log, d) == TrailStep(TrailOf(s.log, d), d, e) {
      TrailSnoc(s.log, e, d);
    }
    forall p: RequestId ensures MarkOf(n.log, p) == MarkStep(MarkOf(s.log, p), p, e) {
      MarkSnoc(s.log, e, p);
    }
    FinalizedLinks(s, n, c, after, r, e);
  }

  lemma FinalizeKeeps(s: State, r: RequestId)
    requires Inv(s) && AtomicEnabled(s, FinalizeRequest(r))
    ensures Inv(StepFinalize(s, r))
  {
    if LiveRequest(s, r) && s.requests[r].q.state == RequestState.Installed {
      FinalizeInstalled(s, r);
    } else if LiveRequest(s, r) {
      assert RequestOk(s, r, s.requests[r].q);
      var n := StepFinalize(s, r);
      forall c | c in n.conns ensures ConnOk(n.conns[c]) && ConnLinks(n, c, n.conns[c]) {
        assert ConnOk(s.conns[c]) && ConnLinks(s, c, s.conns[c]);
      }
      forall p | LiveRequest(n, p) ensures RequestOk(n, p, n.requests[p].q) {
        assert RequestOk(s, p, s.requests[p].q);
      }
    }
  }

  /** The held-runtime fallbacks never fail on a quiescent owner and hand it back idle. */
  lemma HeldPathsBalance(g: Gate, kind: FallbackKind)
    requires !g.foreign && g.depth == 0 && (kind == FinishConnection ==> g.active == None)
    ensures RunHeld(g, HeldPath(kind)) ==
            Some((if kind == FinishConnection then g.(closing := true) else g).Refresh())
  {
    var ts := HeldPath(kind);
    assert forall i | 0 <= i < |ts| :: ts[i..] == [ts[i]] + ts[i + 1..];
    match kind
    case ClearWorkHeld => HeldPair(g);
    case FinishResult => HeldPair(g);
    case DeletePrepared => HeldNest(g);
    case DeleteAppender(checked) => if checked { HeldNest(g); } else { HeldPair(g); }
    case FinishConnection =>
      HeldNest(g.(closing := true).Refresh());
      assert ts[1..] == [CleanupBegin, CleanupBegin, CleanupEnd, CleanupEnd];
  }

  lemma HeldPair(g: Gate)
    requires !g.foreign && g.depth == 0
    ensures RunHeld(g, [CleanupBegin, CleanupEnd]) == Some(g.Refresh())
  {
    var ts := [CleanupBegin, CleanupEnd];
    assert ts[1..] == [CleanupEnd] && ts[1..][1..] == [];
    var g1 := Apply(g, CleanupBegin, Held).value;
    assert RunHeld(g, ts) == RunHeld(g1, [CleanupEnd]);
    var g2 := Apply(g1, CleanupEnd, Held).value;
    assert RunHeld(g1, [CleanupEnd]) == RunHeld(g2, []) by { assert [CleanupEnd][1..] == []; }
  }

  lemma HeldNest(g: Gate)
    requires !g.foreign && g.depth == 0
    ensures RunHeld(g, [CleanupBegin, CleanupBegin, CleanupEnd, CleanupEnd]) == Some(g.Refresh())
  {
    var ts := [CleanupBegin, CleanupBegin, CleanupEnd, CleanupEnd];
    var g1 := Apply(g, CleanupBegin, Held).value;
    var g2 := Apply(g1, CleanupBegin, Held).value;
    var g3 := Apply(g2, CleanupEnd, Held).value;
    var g4 := Apply(g3, CleanupEnd, Held).value;
    assert ts[1..] == [CleanupBegin, CleanupEnd, CleanupEnd];
    assert [CleanupBegin, CleanupEnd, CleanupEnd][1..] == [CleanupEnd, CleanupEnd];
    assert [CleanupEnd, CleanupEnd][1..] == [CleanupEnd];
    assert [CleanupEnd][1..] == [];
    assert RunHeld(g, ts) == RunHeld(g1, [CleanupBegin, CleanupEnd, CleanupEnd]);
    assert RunHeld(g1, [CleanupBegin, CleanupEnd, CleanupEnd]) == RunHeld(g2, [CleanupEnd, CleanupEnd]);
    assert RunHeld(g2, [CleanupEnd, CleanupEnd]) == RunHeld(g3, [CleanupEnd]);
    assert RunHeld(g3, [CleanupEnd]) == RunHeld(g4, []);
  }

  lemma FallbackKeeps(s: State, c: ConnId, kind: FallbackKind)
    requires Inv(s) && AtomicEnabled(s, Fallback(c, kind))
    ensures Inv(StepAtomic(s, Fallback(c, kind)))
  {
    var k := s.conns[c];
    assert ConnOk(k) && ConnLinks(s, c, k);
    HeldPathsBalance(k.gate, kind);
    var g := RunHeld(k.gate, HeldPath(kind)).value;
    var after := k.(gate := if kind == FinishConnection then g.(connected := false) else g);
    assert Balanced(Halt, ModeOf(after.gate, k.thread.lane));
    WorkerSilent(s, c, after);
  }

  /** A worker's step and an operation that does not act leave every request as it is. */
  lemma WorkersLeaveRequests(s: State, step: Step)
    requires WorkerStep(step) && WorkerEnabled(s, step)
    ensures StepWorker(s, step).requests == s.requests
  {
    if step.Section? {
      assert StepWorker(s, step) == StepSection(s, step.c);
    }
  }

  lemma OperationsLeaveRequests(s: State, step: Step)
    requires OperationStep(step) && OperationEnabled(s, step) && step != OpAct
    ensures StepOperation(s, step).requests == s.requests
  {
  }

  lemma OperationKeeps(s: State, step: Step)
    requires Inv(s) && OperationStep(step) && OperationEnabled(s, step)
    ensures Inv(StepOperation(s, step))
  {
    match step
    case OpBegin(op) => OpBeginKeeps(s, op);
    case OpJudge => OpJudgeKeeps(s);
    case OpAct => OpActKeeps(s);
    case OpUnlock => OpUnlockKeeps(s);
  }

  lemma CancelKeeps(s: State, r: RequestId)
    requires Inv(s) && AtomicEnabled(s, Cancel(r))
    ensures Inv(StepAtomic(s, Cancel(r)))
  {
    if s.requests[r].Live? {
      assert RequestOk(s, r, s.requests[r].q);
      FlagLogged(s, StepAtomic(s, Cancel(r)), r, s.requests[r].q.(cancelled := true), Latched(r));
    }
  }

  lemma RetireKeeps(s: State, r: RequestId)
    requires Inv(s) && AtomicEnabled(s, Retire(r))
    ensures Inv(StepAtomic(s, Retire(r)))
  {
    if s.requests[r].Live? {
      assert RequestOk(s, r, s.requests[r].q);
      FlagLogged(s, StepAtomic(s, Retire(r)), r, s.requests[r].q.(reserved := false), Retired(r));
    }
  }

  lemma AtomicKeeps(s: State, step: Step)
    requires Inv(s) && !WorkerStep(step) && !OperationStep(step) && AtomicEnabled(s, step)
    ensures Inv(StepAtomic(s, step))
  {
    match step
    case Open(c) => OpenKeeps(s, c);
    case Create(r) => CreateKeeps(s, r);
    case Cancel(r) => CancelKeeps(s, r);
    case Retire(r) => RetireKeeps(s, r);
    case Dispose(r) => DisposeKeeps(s, r);
    case FinalizeRequest(r) => FinalizeKeeps(s, r);
    case Fallback(c, kind) => FallbackKeeps(s, c, kind);
  }

  lemma EveryStepKeeps(s: State, step: Step)
    requires Inv(s) && Enabled(s, step)
    ensures Inv(Next(s, step))
  {
    if WorkerStep(step) {
      WorkerKeeps(s, step);
    } else if OperationStep(step) {
      OperationKeeps(s, step);
    } else {
      AtomicKeeps(s, step);
    }
  }

  lemma NoStepIsFatal(s: State, step: Step)
    requires Inv(s) && Enabled(s, step)
    ensures !Next(s, step).fatal
  {
    EveryStepKeeps(s, step);
  }

  lemma {:induction false} RunKeeps(s: State, steps: seq<Step>)
    requires Inv(s) && Legal(s, steps)
    ensures Inv(After(s, steps))
    decreases |steps|
  {
    if steps != [] {
      EveryStepKeeps(s, steps[0]);
      RunKeeps(Next(s, steps[0]), steps[1..]);
    }
  }
}
