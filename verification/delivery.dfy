/** The interrupt-delivery protocol as a step system over any number of connections and requests.

    Each connection has one worker, running a stub's program with the runtime released one microstep at
    a time: take the guard, run the critical section, release the guard. The runtime lock serializes
    everything else, so a single controller slot `ctl` holds the one runtime-held operation in
    progress; an operation that takes a guard is itself split into lock, judge, act and unlock, because
    workers run on meanwhile. Publishing a latch and retiring a reservation take no guard. */
module Delivery {
  import opened Native
  import opened Stubs
  import opened Trace

  datatype Request = Request(state: RequestState, owner: Option<ConnId>, reserved: bool, cancelled: bool)

  /** A disposed request leaves a tombstone in every alias of its slot. */
  datatype Slot = Tombstone | Live(q: Request)

  datatype Holder = Nobody | Worker | Controller

  datatype Position =
    | Free
    | Locked                     // guard taken, critical section not yet run
    | Decided(phase: Phase)      // latch loaded, phase not yet stored
    | Leaving                    // critical section done, guard not yet released
    | Engaged(call: Call)        // inside the engine

  /** lane restates what the program position implies; no step consults it. */
  datatype Thread = Thread(prog: Prog, pos: Position, lane: Lane)

  datatype Conn = Conn(gate: Gate, guard: Holder, thread: Thread)

  datatype Op = Install(r: RequestId, c: ConnId) | Uninstall(r: RequestId)
              | Reserve(r: RequestId) | Interrupt(r: RequestId)

  datatype Controller =
    | Resting
    | Holding(op: Op, c: ConnId)
    | Judged(op: Op, c: ConnId, verdict: Answer)
    | Acted(op: Op, c: ConnId, verdict: Answer)

  datatype State = State(
    conns: map<ConnId, Conn>,
    requests: map<RequestId, Slot>,
    ctl: Controller,
    answer: Option<Answer>,
    log: seq<Event>,
    fatal: bool)

  const EMPTY := State(map[], map[], Resting, None, [], false)

  datatype FallbackKind = ClearWorkHeld | FinishResult | DeletePrepared | DeleteAppender(checked: bool)
      | FinishConnection

  function HeldPath(kind: FallbackKind): seq<Transition> {
    match kind
    case ClearWorkHeld => [CleanupBegin, CleanupEnd]
    case FinishResult => [CleanupBegin, CleanupEnd]
    case DeletePrepared => [CleanupBegin, CleanupBegin, CleanupEnd, CleanupEnd]
    case DeleteAppender(checked) =>
      if checked then [CleanupBegin, CleanupBegin, CleanupEnd, CleanupEnd] else [CleanupBegin, CleanupEnd]
    case FinishConnection => [CloseBegin, CleanupBegin, CleanupBegin, CleanupEnd, CleanupEnd]
  }

  datatype Step =
    // a worker
    | Start(c: ConnId, stub: Stub) | StartClose(c: ConnId)
    | Spin(c: ConnId) | Lock(c: ConnId) | Section(c: ConnId) | Store(c: ConnId) | Unlock(c: ConnId)
    | Enter(c: ConnId) | Return(c: ConnId, ok: bool) | Choose(c: ConnId, first: bool)
    // a runtime-held operation that needs a guard
    | OpBegin(op: Op) | OpJudge | OpAct | OpUnlock
    // runtime-held operations that need none, and the quiescent fallback
    | Open(c: ConnId) | Create(r: RequestId) | Cancel(r: RequestId) | Retire(r: RequestId) | Dispose(r: RequestId)
    | FinalizeRequest(r: RequestId) | Fallback(c: ConnId, kind: FallbackKind)

  // ----- reading the state

  predicate LiveRequest(s: State, r: RequestId) {
    r in s.requests && s.requests[r].Live?
  }

  function LatchOf(s: State, active: Option<RequestId>): bool {
    active.Some? && LiveRequest(s, active.value) && s.requests[active.value].q.cancelled
  }

  predicate IdleThread(t: Thread) {
    t.prog == Halt && t.pos == Free
  }

  predicate PendingClose(p: Prog) {
    p.Guarded? && p.t == CloseBegin
  }

  function CloseProgram(k: Prog): Prog {
    Guarded(CloseBegin, AfterCloseBegin(k))
  }

  // ----- writing the state

  function Put(s: State, c: ConnId, k: Conn): State {
    s.(conns := s.conns[c := k])
  }

  function PutRequest(s: State, r: RequestId, q: Request): State {
    s.(requests := s.requests[r := Live(q)])
  }

  function Note(s: State, e: Event): State {
    s.(log := s.log + [e])
  }

  function Die(s: State): State {
    s.(fatal := true)
  }

  function Answered(s: State, a: Answer): State {
    s.(ctl := Resting, answer := Some(a))
  }

  // ----- the environment's assumptions are the enabling conditions

  /** A request is finalized only with its whole owner tree dead: no worker, and its reservation retired. */
  predicate Finalizable(s: State, r: RequestId) {
    LiveRequest(s, r) && s.requests[r].q.state == RequestState.Installed ==>
      var q := s.requests[r].q;
      !q.reserved && q.owner.Some? && q.owner.value in s.conns && IdleThread(s.conns[q.owner.value].thread)
  }

  predicate WorkerStep(step: Step) {
    step.Start? || step.StartClose? || step.Spin? || step.Lock? || step.Section? || step.Store?
    || step.Unlock? || step.Enter? || step.Return? || step.Choose?
  }

  predicate WorkerEnabled(s: State, step: Step)
    requires WorkerStep(step)
  {
    var c := step.c;
    && c in s.conns
    && var k := s.conns[c];
       var t := k.thread;
       var asks := t.prog.Guarded? || t.prog.Admit?;
       match step
       case Start(_, _) => s.ctl == Resting && IdleThread(t) && !k.gate.closing
       case StartClose(_) => s.ctl == Resting && IdleThread(t) && k.gate.active == None
       case Spin(_) => t.pos == Free && k.guard != Nobody && asks
       case Lock(_) => t.pos == Free && k.guard == Nobody && asks
       case Section(_) => t.pos == Locked && asks
       case Store(_) => t.pos.Decided?
       case Unlock(_) => t.pos == Leaving
       case Enter(_) => t.pos == Free && t.prog.Engine?
       case Return(_, _) => t.pos.Engaged?
       case Choose(_, _) => t.pos == Free && t.prog.Branch?
  }

  predicate OperationStep(step: Step) {
    step.OpBegin? || step.OpJudge? || step.OpAct? || step.OpUnlock?
  }

  predicate OperationEnabled(s: State, step: Step)
    requires OperationStep(step)
  {
    match step
    case OpBegin(op) =>
      && s.ctl == Resting && op.r in s.requests
      && (op.Install? ==> op.c in s.conns && !PendingClose(s.conns[op.c].thread.prog))
    case OpJudge => s.ctl.Holding?
    case OpAct => s.ctl.Judged?
    case OpUnlock => s.ctl.Acted?
  }

  /** The steps that are neither a worker's nor part of a guarded operation are atomic. */
  predicate AtomicEnabled(s: State, step: Step)
    requires !WorkerStep(step) && !OperationStep(step)
  {
    && s.ctl == Resting
    && match step
       case Open(c) => c !in s.conns
       case Create(r) => r !in s.requests
       case Cancel(r) => r in s.requests
       case Retire(r) => r in s.requests
       case Dispose(r) => r in s.requests
       case FinalizeRequest(r) => r in s.requests && Finalizable(s, r)
       case Fallback(c, kind) =>
         && c in s.conns && IdleThread(s.conns[c].thread)
         && (kind == FinishConnection ==> s.conns[c].gate.active == None)
  }

  predicate Enabled(s: State, step: Step) {
    if WorkerStep(step) then WorkerEnabled(s, step)
    else if OperationStep(step) then OperationEnabled(s, step)
    else AtomicEnabled(s, step)
  }

  // ----- the steps

  function AfterTransition(lane: Lane, t: Transition): Lane {
    if EndsSubcall(t) then Off else lane
  }

  function StepSection(s: State, c: ConnId): State
    requires WorkerEnabled(s, Section(c))
  {
    var k := s.conns[c];
    var t := k.thread;
    match t.prog
    case Guarded(tr, next) =>
      (match Apply(k.gate, tr, Released)
       case None => Die(s)
       case Some(g) =>
         Note(Put(s, c, k.(gate := g, thread := Thread(next, Leaving, AfterTransition(t.lane, tr)))), Passed(c, tr)))
    case Admit(interruptible, admitted, refused) =>
      if !MayAdmit(k.gate) then Die(s)
      else if Admits(k.gate, LatchOf(s, k.gate.active)) then
        Note(Put(s, c, k.(thread := Thread(admitted, Decided(AdmissionPhase(k.gate, interruptible, true)),
                                           if interruptible then UserReady else ScalarReady))),
             Admitted(c, k.gate.active, interruptible))
      else
        Note(Put(s, c, k.(thread := Thread(refused, Decided(AdmissionPhase(k.gate, interruptible, false)), Off))),
             Refused(c, k.gate.active.value))
  }

  /** connect publishes the handle and disconnect clears it, both without the guard. */
  function GateAfterCall(g: Gate, call: Call, ok: bool): Gate {
    match call
    case Connect => g.(connected := ok)
    case Disconnect => g.(connected := false)
    case _ => g
  }

  /** An operation is answered before it needs a guard (Some), or goes for the owner's guard (None). */
  function EarlyAnswer(s: State, op: Op): Option<Answer>
    requires op.r in s.requests
  {
    var slot := s.requests[op.r];
    match op
    case Install(_, _) => if slot.Tombstone? || slot.q.state != RequestState.Fresh then Some(RequestUsed) else None
    case Uninstall(_) => if slot.Tombstone? || slot.q.state != RequestState.Installed then Some(NotInstalled) else None
    case Reserve(_) => if slot.Tombstone? || slot.q.owner == None then Some(Ineligible) else None
    case Interrupt(_) =>
      if slot.Tombstone? || !slot.q.reserved then Some(NotReserved)
      else if slot.q.owner == None then Some(InterruptSkipped)
      else None
  }

  function Contended(op: Op): Answer {
    match op
    case Install(_, _) => InstallContended
    case Uninstall(_) => UninstallContended
    case Reserve(_) => Ineligible
    case Interrupt(_) => InterruptSkipped
  }

  function Target(s: State, op: Op): Option<ConnId>
    requires op.r in s.requests
  {
    if op.Install? then Some(op.c)
    else if s.requests[op.r].Live? then s.requests[op.r].q.owner
    else None
  }

  function StepOpBegin(s: State, op: Op): State
    requires OperationEnabled(s, OpBegin(op))
  {
    match EarlyAnswer(s, op)
    case Some(a) => Answered(s, a)
    case None =>
      match Target(s, op)
      case None => Die(s)
      case Some(c) =>
        if c !in s.conns then Die(s)
        else if s.conns[c].guard != Nobody then Answered(s, Contended(op))
        else Put(s, c, s.conns[c].(guard := Holder.Controller)).(ctl := Holding(op, c))
  }

  function Verdict(g: Gate, op: Op, q: Request): Answer {
    match op
    case Install(_, _) => InstallAnswer(g)
    case Uninstall(_) => UninstallAnswer(g, q.reserved)
    case Reserve(r) => ReserveAnswer(g, r, q.reserved, q.cancelled)
    case Interrupt(r) => InterruptAnswer(g, r, q.cancelled)
  }

  function StepOpJudge(s: State): State
    requires OperationEnabled(s, OpJudge)
  {
    var op, c := s.ctl.op, s.ctl.c;
    if !LiveRequest(s, op.r) || c !in s.conns then Die(s)
    else
      var g := s.conns[c].gate;
      var verdict := Verdict(g, op, s.requests[op.r].q);
      if verdict == RequestUninstalled && g.active != Some(op.r) then Die(s)
      else s.(ctl := Judged(op, c, verdict))
  }

  function StepOpAct(s: State): State
    requires OperationEnabled(s, OpAct)
  {
    var op, c, verdict := s.ctl.op, s.ctl.c, s.ctl.verdict;
    if !LiveRequest(s, op.r) || c !in s.conns then Die(s)
    else
      var k, q := s.conns[c], s.requests[op.r].q;
      var done := s.(ctl := Acted(op, c, verdict));
      match verdict
      case RequestInstalled =>
        Note(PutRequest(Put(done, c, k.(gate := k.gate.(active := Some(op.r)))), op.r,
                        q.(state := RequestState.Installed, owner := Some(c))),
             Event.Installed(c, op.r))
      case RequestUninstalled =>
        Note(PutRequest(Put(done, c, k.(gate := k.gate.(active := None))), op.r,
                        q.(state := RequestState.Detached, owner := None)),
             Event.Detached(c, op.r))
      case DeliveryReserved =>
        Note(PutRequest(done, op.r, q.(reserved := true)), Reserved(op.r))
      case InterruptDelivered =>
        if !k.gate.connected then Die(s) else Note(done, Interrupted(c, op.r))
      case _ => done
  }

  /** finalize_native_request: one uninstall attempt, fatal on any other answer than REQUEST_UNINSTALLED. */
  function StepFinalize(s: State, r: RequestId): State
    requires r in s.requests
  {
    if s.requests[r].Tombstone? then s
    else
      var q := s.requests[r].q;
      var freed := s.(requests := s.requests[r := Tombstone]);
      if q.state != RequestState.Installed then freed
      else if q.owner == None || q.owner.value !in s.conns then Die(s)
      else
        var c := q.owner.value;
        var k := s.conns[c];
        var answer := if k.guard != Nobody then UninstallContended else UninstallAnswer(k.gate, q.reserved);
        if answer != RequestUninstalled || k.gate.active != Some(r) then Die(s)
        else Note(Put(freed, c, k.(gate := k.gate.(active := None))), Event.Detached(c, r))
  }

  function StepFallback(s: State, c: ConnId, kind: FallbackKind): State
    requires AtomicEnabled(s, Fallback(c, kind))
  {
    var k := s.conns[c];
    if k.guard != Nobody then Die(s)
    else match RunHeld(k.gate, HeldPath(kind))
      case None => Die(s)
      case Some(g) => Put(s, c, k.(gate := if kind == FinishConnection then g.(connected := false) else g))
  }

  function StepWorker(s: State, step: Step): State
    requires WorkerStep(step) && WorkerEnabled(s, step)
  {
    var c := step.c;
    var k := s.conns[c];
    var t := k.thread;
    match step
    case Start(_, stub) => Put(s, c, k.(thread := t.(prog := Program(stub, Halt))))
    case StartClose(_) => Put(s, c, k.(thread := t.(prog := CloseProgram(Halt))))
    case Spin(_) => s
    case Lock(_) => Put(s, c, k.(guard := Holder.Worker, thread := t.(pos := Locked)))
    case Section(_) => StepSection(s, c)
    case Store(_) => Put(s, c, k.(gate := k.gate.(phase := t.pos.phase), thread := t.(pos := Leaving)))
    case Unlock(_) => Put(s, c, k.(guard := Nobody, thread := t.(pos := Free)))
    case Enter(_) =>
      Note(Put(s, c, k.(thread := Thread(t.prog.after, Engaged(t.prog.call), LaneAfter(t.lane, t.prog.call)))),
           Entered(c, t.prog.call))
    case Return(_, ok) =>
      Note(Put(s, c, k.(gate := GateAfterCall(k.gate, t.pos.call, ok), thread := t.(pos := Free))), Returned(c))
    case Choose(_, first) =>
      Put(s, c, k.(thread := t.(prog := if first then t.prog.left else t.prog.right)))
  }

  function StepOperation(s: State, step: Step): State
    requires OperationStep(step) && OperationEnabled(s, step)
  {
    match step
    case OpBegin(op) => StepOpBegin(s, op)
    case OpJudge => StepOpJudge(s)
    case OpAct => StepOpAct(s)
    case OpUnlock =>
      var op, c, verdict := s.ctl.op, s.ctl.c, s.ctl.verdict;
      if c !in s.conns then Die(s)
      else Answered(Put(s, c, s.conns[c].(guard := Nobody)), verdict)
  }

  function StepAtomic(s: State, step: Step): State
    requires !WorkerStep(step) && !OperationStep(step) && AtomicEnabled(s, step)
  {
    match step
    case Open(c) =>
      Put(s, c, Conn(Gate(None, Idle, false, false, 0, false), Nobody, Thread(Halt, Free, Off)))
    case Create(r) =>
      PutRequest(s, r, Request(RequestState.Fresh, None, false, false))
    case Cancel(r) =>
      if s.requests[r].Live? then Note(PutRequest(s, r, s.requests[r].q.(cancelled := true)), Latched(r)) else s
    case Retire(r) =>
      if s.requests[r].Live? then Note(PutRequest(s, r, s.requests[r].q.(reserved := false)), Retired(r)) else s
    case Dispose(r) =>
      if s.requests[r].Tombstone? then Answered(s, Disposed)
      else if s.requests[r].q.state == RequestState.Installed then Answered(s, StillInstalled)
      else Answered(s.(requests := s.requests[r := Tombstone]), Disposed)
    case FinalizeRequest(r) => StepFinalize(s, r)
    case Fallback(c, kind) => StepFallback(s, c, kind)
  }

  function Next(s: State, step: Step): State
    requires Enabled(s, step)
  {
    if WorkerStep(step) then StepWorker(s, step)
    else if OperationStep(step) then StepOperation(s, step)
    else StepAtomic(s, step)
  }

  // ----- runs

  ghost predicate Legal(s: State, steps: seq<Step>)
    decreases |steps|
  {
    steps == [] || (Enabled(s, steps[0]) && Legal(Next(s, steps[0]), steps[1..]))
  }

  ghost function After(s: State, steps: seq<Step>): State
    requires Legal(s, steps)
    decreases |steps|
  {
    if steps == [] then s else After(Next(s, steps[0]), steps[1..])
  }
}
