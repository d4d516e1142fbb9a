/** The guarded state of a connection owner and the decisions taken under its guard.

    Every function here is one critical section of lib/ffi/resource_stubs.c on the fields that
    `native_guard` protects. `None` stands for a section that would reach `caml_fatal_error`.
    The class ConnectionOwner and the step system Delivery are both built from these functions. */
module Native {

  datatype Option<+T> = None | Some(value: T)

  type ConnId = nat
  type RequestId = nat

  datatype Phase = Idle | Noninterruptible | User | Cleanup | Closing

  datatype Runtime = Held | Released

  /** duckdb_ml_request_state */
  datatype RequestState = Fresh | Installed | Detached

  function B(b: bool): nat { if b then 1 else 0 }

  /** The fields of connection_owner that are read or written under native_guard. */
  datatype Gate = Gate(
    active: Option<RequestId>,
    phase: Phase,
    closing: bool,
    foreign: bool,
    depth: nat, connected: bool)
  {
    function Derived(): Phase {
      if closing then Closing
      else if depth > 0 then Cleanup
      else if foreign then Noninterruptible
      else Idle
    }

    function Refresh(): Gate {
      this.(phase := Derived())
    }
  }

  datatype Transition = WorkBegin | WorkEnd | CallEnd | CleanupBegin | CleanupEnd | CloseBegin

  function Apply(g: Gate, t: Transition, runtime: Runtime): Option<Gate> {
    match t
    case WorkBegin =>
      if g.closing || g.foreign || g.depth > 0 then None else Some(g.(foreign := true).Refresh())
    case WorkEnd =>
      if !g.foreign || g.depth > 0 then None else Some(g.(foreign := false).Refresh())
    case CallEnd =>
      Some(g.Refresh())
    case CleanupBegin =>
      if runtime == Held && g.foreign then None else Some(g.(depth := g.depth + 1).Refresh())
    case CleanupEnd =>
      if g.depth == 0 then None else Some(g.(depth := g.depth - 1).Refresh())
    case CloseBegin =>
      if g.foreign || g.depth > 0 || g.active.Some? then None else Some(g.(closing := true).Refresh())
  }

  /** The fatal check of native_call_begin. */
  predicate MayAdmit(g: Gate) {
    g.foreign && g.depth == 0 && !g.closing
  }

  /** The phase native_call_begin stores after its latch load. */
  function AdmissionPhase(g: Gate, interruptible: bool, admitted: bool): Phase {
    if !admitted then g.Derived()
    else if g.active.Some? && interruptible then User
    else Noninterruptible
  }

  /** A request is cancelled or not; only the active request's latch refuses admission. */
  function Admits(g: Gate, latched: bool): bool {
    !(g.active.Some? && latched)
  }

  datatype Answer =
    | RequestInstalled | InstallContended | ConnectionClosed | ConnectionLeased | RequestUsed | ConnectionActive
    | RequestUninstalled | UninstallContended | NativeWorkPending | DeliveryPending | NotInstalled
    | DeliveryReserved | Ineligible | ReservationPending
    | InterruptDelivered | InterruptSkipped | NotReserved
    | Disposed | StillInstalled

  function InstallAnswer(g: Gate): Answer {
    if g.closing then ConnectionClosed
    else if g.foreign || g.depth > 0 then ConnectionActive
    else if !g.connected then ConnectionClosed
    else if g.active.Some? then ConnectionLeased
    else RequestInstalled
  }

  function UninstallAnswer(g: Gate, reserved: bool): Answer {
    if g.foreign || g.depth > 0 then NativeWorkPending
    else if reserved then DeliveryPending
    else RequestUninstalled
  }

  predicate Eligible(g: Gate, r: RequestId, latched: bool) {
    g.active == Some(r) && latched && g.phase == User && !g.closing && g.connected
  }

  function ReserveAnswer(g: Gate, r: RequestId, reserved: bool, latched: bool): Answer {
    if reserved then ReservationPending
    else if Eligible(g, r, latched) then DeliveryReserved
    else Ineligible
  }

  function InterruptAnswer(g: Gate, r: RequestId, latched: bool): Answer {
    if Eligible(g, r, latched) then InterruptDelivered else InterruptSkipped
  }

  /** A run of transitions made with the runtime held, or None where one of them is fatal. */
  function RunHeld(g: Gate, ts: seq<Transition>): Option<Gate>
    decreases |ts|
  {
    if ts == [] then Some(g)
    else match Apply(g, ts[0], Held)
      case None => None
      case Some(next) => RunHeld(next, ts[1..])
  }
}
