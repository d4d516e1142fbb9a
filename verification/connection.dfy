/** connection_owner and duckdb_ml_native_request as the source has them: objects updated in place.

    Every method is proved against the critical sections of Native, so what Delivery proves about those
    sections in any interleaving is about this code. An operation that would reach `caml_fatal_error`
    returns ok == false and leaves the gate as it was. */
module Connection {
  import opened Native
  import opened Stubs

  /** The process-wide counters. */
  class Process {
    var live: int
    var epoch: nat

    constructor ()
      ensures live == 0 && epoch == 0
    {
      live, epoch := 0, 0;
    }

    method Acquired()
      modifies this`live
      ensures live == old(live) + 1
    {
      live := live + 1;
    }

    method Released()
      modifies this`live
      ensures live == old(live) - 1
    {
      live := live - 1;
    }

    /** `if (field) { destroy; field = NULL; released(); }` */
    method Drop(present: bool) returns (left: bool)
      modifies this`live
      ensures !left && live == old(live) - B(present)
    {
      if present {
        Released();
      }
      left := false;
    }

    /** `if (field) acquired();` after an engine call that may have set the field. */
    method Keep(present: bool) returns (kept: bool)
      modifies this`live
      ensures kept == present && live == old(live) + B(present)
    {
      if present {
        Acquired();
      }
      kept := present;
    }

    method Advance()
      modifies this`epoch
      ensures epoch == old(epoch) + 1
    {
      epoch := epoch + 1;
    }
  }

  datatype Status = OK | ERROR | UNSUPPORTED | CANCELLED

  class NativeRequest {
    const id: RequestId
    var owner: ConnectionOwner?
    var state: RequestState
    var reserved: bool
    var cancelled: bool

    constructor (id: RequestId)
      ensures this.id == id && owner == null && state == RequestState.Fresh && !reserved && !cancelled
    {
      this.id := id;
      owner, state, reserved, cancelled := null, RequestState.Fresh, false, false;
    }

    method Cancel()
      modifies this`cancelled
      ensures cancelled
    {
      cancelled := true;
    }

    method RetireDelivery()
      modifies this`reserved
      ensures !reserved
    {
      reserved := false;
    }
  }

  /** What the engine and the latch answer during one raw execution. */
  datatype ExecuteScript = ExecuteScript(
    latches: (bool, bool, bool),   // the latch load of each admission
    extracted: bool,               // extraction allocated its result
    extractError: bool,            // ... which records an error
    count: nat,                    // statements extracted
    prepared: bool,                // preparation allocated a statement
    prepareOk: bool,
    allowed: bool,                 // statement type on the allowlist
    changesSchema: bool,
    executeOk: bool)

  datatype ControlScript = ControlScript(latch: bool, ok: bool)

  /** The first n engine subcalls of a raw execution. */
  function Subcalls(n: nat): seq<Call> {
    if n == 0 then []
    else if n == 1 then [Extract]
    else if n == 2 then [Extract, PrepareExtracted]
    else [Extract, PrepareExtracted, ExecutePrepared]
  }

  lemma SubcallsFrom(m: nat)
    ensures [Extract] + Subcalls(m + 1)[1..] == Subcalls(1 + m)
  {
  }

  lemma Join(before: seq<Move>, a: seq<Move>, b: seq<Move>, c: seq<Move>, d: seq<Move>)
    ensures before + a + b + c + d == before + (a + b + c + d)
  {
  }

  lemma Suffix(before: seq<Move>, added: seq<Move>)
    ensures (before + added)[|before|..] == added
  {
  }

  /** Extraction gave exactly one statement. */
  predicate Single(e: ExecuteScript) {
    e.extracted && !e.extractError && e.count == 1
  }

  /** Preparation gave a statement that may run. */
  predicate Runnable(e: ExecuteScript) {
    e.prepareOk && e.allowed
  }

  class ConnectionOwner {
    const process: Process
    var nativeGuard: bool
    var activeRequest: NativeRequest?
    var nativePhase: Phase
    var nativeClosing: bool
    var foreignActive: bool
    var schemaDirty: bool
    var cleanupDepth: nat
    var references: nat        // shell holders: the slot, the children, the installed request
    var connection: bool
    var sql: bool
    var extracted: bool
    var prepared: bool
    var hasResult: bool
    var status: Status
    var interrupts: nat        // duckdb_interrupt calls on this connection
    ghost var calls: seq<Call> // engine subcalls made, in order
    ghost var moves: seq<Move> // every section, admission and engine call, in order

    constructor (process: Process)
      ensures this.process == process && !nativeGuard && activeRequest == null
      ensures View() == Gate(None, Idle, false, false, 0, false) && Held() == 0 && references == 1
    {
      this.process := process;
      nativeGuard, activeRequest, nativePhase := false, null, Idle;
      nativeClosing, foreignActive, schemaDirty, cleanupDepth, references := false, false, false, 0, 1;
      connection, sql, extracted, prepared, hasResult := false, false, false, false, false;
      status, interrupts, calls, moves := OK, 0, [], [];
    }

    function View(): Gate
      reads this`activeRequest, this`nativePhase, this`nativeClosing, this`foreignActive, this`cleanupDepth,
          this`connection
    {
      Gate(if activeRequest == null then None else Some(activeRequest.id),
           nativePhase, nativeClosing, foreignActive, cleanupDepth, connection)
    }

    /** Counted resources this owner's fields hold, the shell apart. */
    function Held(): nat
      reads this`connection, this`sql, this`extracted, this`prepared, this`hasResult
    {
      B(connection) + B(sql) + B(extracted) + B(prepared) + B(hasResult)
    }

    // ----- the guard

    method TryLock() returns (ok: bool)
      modifies this`nativeGuard
      ensures ok == !old(nativeGuard) && nativeGuard
    {
      ok := !nativeGuard;
      if ok {
        nativeGuard := true;
      }
    }

    method Unlock()
      modifies this`nativeGuard
      ensures !nativeGuard
    {
      nativeGuard := false;
    }

    /** sched_yield: the environment's step. Whoever holds the guard releases it after `left` more of them; what
        it does under the guard before that is Delivery's subject. */
    method Yield(left: nat)
      modifies this`nativeGuard
      ensures nativeGuard == (old(nativeGuard) && left > 0)
    {
      nativeGuard := nativeGuard && left > 0;
    }

    /** The retry loop; with the runtime held a single failed attempt is fatal. */
    method NativeLock(runtime: Runtime, others: nat) returns (ok: bool)
      modifies this`nativeGuard
      ensures ok == (!old(nativeGuard) || runtime == Released)
      ensures nativeGuard
    {
      var left := others;
      ok := TryLock();
      while !ok
        invariant nativeGuard && (ok ==> !old(nativeGuard) || runtime == Released)
        invariant !ok ==> old(nativeGuard)
        decreases !ok, left
      {
        if runtime == Runtime.Held {
          return;
        }
        Yield(left);
        ok := TryLock();
        left := if left > 0 then left - 1 else 0;
      }
    }

    method PhaseUpdate()
      modifies this`nativePhase
      ensures View() == old(View()).Refresh()
    {
      nativePhase :=
        if nativeClosing then Closing
        else if cleanupDepth > 0 then Cleanup
        else if foreignActive then Noninterruptible
        else Idle;
    }

    // ----- guarded transitions

    predicate Did(before: Gate, t: Transition, runtime: Runtime, ok: bool)
      reads this`activeRequest, this`nativePhase, this`nativeClosing, this`foreignActive, this`cleanupDepth,
          this`connection
    {
      match Apply(before, t, runtime)
      case None => !ok && View() == before
      case Some(g) => ok && View() == g
    }

    /** The outcome of a transition that takes the guard as `runtime` says: contention with the runtime held is
        fatal and leaves everything, the other holder's guard included, as it was. */
    twostate predicate Passed(t: Transition, runtime: Runtime, ok: bool)
      reads this
    {
      if old(nativeGuard) && runtime == Runtime.Held then !ok && nativeGuard && View() == old(View())
      else !nativeGuard && Did(old(View()), t, runtime, ok)
    }

    method WorkBegin() returns (ok: bool)
      requires !nativeGuard
      modifies this`nativeGuard, this`foreignActive, this`nativePhase, this`moves
      ensures Did(old(View()), Transition.WorkBegin, Released, ok) && !nativeGuard
      ensures moves == old(moves) + if ok then [Cross(Transition.WorkBegin)] else []
    {
      ok := NativeLock(Released, 0);
      if nativeClosing || foreignActive || cleanupDepth > 0 {
        Unlock();
        return false;
      }
      foreignActive := true;
      PhaseUpdate();
      moves := moves + [Cross(Transition.WorkBegin)];
      Unlock();
    }

    method WorkEnd() returns (ok: bool)
      requires !nativeGuard
      modifies this`nativeGuard, this`foreignActive, this`nativePhase, this`moves
      ensures Did(old(View()), Transition.WorkEnd, Released, ok) && !nativeGuard
      ensures moves == old(moves) + if ok then [Cross(Transition.WorkEnd)] else []
    {
      ok := NativeLock(Released, 0);
      if !foreignActive || cleanupDepth > 0 {
        Unlock();
        return false;
      }
      foreignActive := false;
      PhaseUpdate();
      moves := moves + [Cross(Transition.WorkEnd)];
      Unlock();
    }

    /** latched is what the acquire-load of the active request's latch returns. */
    method CallBegin(interruptible: bool, latched: bool) returns (ok: bool, admitted: bool)
      requires !nativeGuard
      modifies this`nativeGuard, this`nativePhase, this`moves
      ensures ok == MayAdmit(old(View())) && !nativeGuard
      ensures ok ==> admitted == Admits(old(View()), latched)
      ensures View() == if ok then old(View()).(phase := AdmissionPhase(old(View()), interruptible, admitted))
                        else old(View())
      ensures moves == old(moves) + if ok then [Ask(interruptible, admitted)] else []
    {
      ok := NativeLock(Released, 0);
      admitted := false;
      if !foreignActive || cleanupDepth > 0 || nativeClosing {
        Unlock();
        return false, false;
      }
      if activeRequest != null && latched {
        PhaseUpdate();
        moves := moves + [Ask(interruptible, false)];
        Unlock();
        return true, false;
      }
      nativePhase := if activeRequest != null && interruptible then User else Noninterruptible;
      admitted := true;
      moves := moves + [Ask(interruptible, true)];
      Unlock();
    }

    method CallEnd()
      requires !nativeGuard
      modifies this`nativeGuard, this`nativePhase, this`moves
      ensures Did(old(View()), Transition.CallEnd, Released, true) && !nativeGuard
      ensures moves == old(moves) + [Cross(Transition.CallEnd)]
    {
      var _ := NativeLock(Released, 0);
      PhaseUpdate();
      moves := moves + [Cross(Transition.CallEnd)];
      Unlock();
    }

    method CleanupBegin(runtime: Runtime) returns (ok: bool)
      requires runtime == Released ==> !nativeGuard
      modifies this`nativeGuard, this`cleanupDepth, this`nativePhase, this`moves
      ensures Passed(Transition.CleanupBegin, runtime, ok)
      ensures moves == old(moves) + if ok then [Cross(Transition.CleanupBegin)] else []
    {
      ok := NativeLock(runtime, 0);
      if !ok {
        return;
      }
      if runtime == Runtime.Held && foreignActive {
        Unlock();
        return false;
      }
      cleanupDepth := cleanupDepth + 1;
      PhaseUpdate();
      moves := moves + [Cross(Transition.CleanupBegin)];
      Unlock();
    }

    method CleanupEnd(runtime: Runtime) returns (ok: bool)
      requires runtime == Released ==> !nativeGuard
      modifies this`nativeGuard, this`cleanupDepth, this`nativePhase, this`moves
      ensures Passed(Transition.CleanupEnd, runtime, ok)
      ensures moves == old(moves) + if ok then [Cross(Transition.CleanupEnd)] else []
    {
      ok := NativeLock(runtime, 0);
      if !ok {
        return;
      }
      if cleanupDepth == 0 {
        Unlock();
        return false;
      }
      cleanupDepth := cleanupDepth - 1;
      PhaseUpdate();
      moves := moves + [Cross(Transition.CleanupEnd)];
      Unlock();
    }

    method CloseBegin(runtime: Runtime) returns (ok: bool)
      requires runtime == Released ==> !nativeGuard
      modifies this`nativeGuard, this`nativeClosing, this`nativePhase, this`moves
      ensures Passed(Transition.CloseBegin, runtime, ok)
      ensures moves == old(moves) + if ok then [Cross(Transition.CloseBegin)] else []
    {
      ok := NativeLock(runtime, 0);
      if !ok {
        return;
      }
      if foreignActive || cleanupDepth > 0 || activeRequest != null {
        Unlock();
        return false;
      }
      nativeClosing := true;
      PhaseUpdate();
      moves := moves + [Cross(Transition.CloseBegin)];
      Unlock();
    }

    // ----- requests; each takes the guard with one attempt and answers without it otherwise

    /** ml_duckdb_native_request_install on what the connection's slot holds. */
    static method InstallOn(slot: ConnectionOwner?, request: NativeRequest) returns (a: Answer)
      modifies slot, request`owner, request`state
      ensures request.state != old(request.state) <==> a == RequestInstalled
      ensures slot == null ==> a == if old(request.state) != RequestState.Fresh then RequestUsed else ConnectionClosed
      ensures slot != null ==>
                && a == (if old(request.state) != RequestState.Fresh then RequestUsed
                         else if old(slot.nativeGuard) then InstallContended
                         else InstallAnswer(old(slot.View())))
                && slot.references == old(slot.references) + B(a == RequestInstalled)
      ensures a == RequestInstalled ==> slot != null && slot.activeRequest == request && request.owner == slot
    {
      if request.state != RequestState.Fresh {
        return RequestUsed;
      }
      if slot == null {
        return ConnectionClosed;
      }
      a := slot.Install(request);
    }

    /** Installing on a live shell; only a fresh request is offered. */
    method Install(request: NativeRequest) returns (a: Answer)
      requires request.state == RequestState.Fresh
      modifies this`nativeGuard, this`activeRequest, this`references, request`owner, request`state
      ensures nativeGuard == old(nativeGuard)
      ensures a == if old(nativeGuard) then InstallContended else InstallAnswer(old(View()))
      ensures a == RequestInstalled ==>
                && activeRequest == request && request.owner == this && request.state == RequestState.Installed
                && references == old(references) + 1
      ensures a != RequestInstalled ==> unchanged(this) && unchanged(request)
    {
      var locked := TryLock();
      if !locked {
        return InstallContended;
      }
      if nativeClosing {
        a := ConnectionClosed;
      } else if foreignActive || cleanupDepth > 0 {
        a := ConnectionActive;
      } else if !connection {
        a := ConnectionClosed;
      } else if activeRequest != null {
        a := ConnectionLeased;
      } else {
        references := references + 1;
        request.owner, request.state := this, RequestState.Installed;
        activeRequest := request;
        a := RequestInstalled;
      }
      Unlock();
    }

    /** native_request_uninstall. ok is the identity check; last: the request was the shell's last holder, so
        that connection_delete goes on to clear and free it. */
    method Uninstall(request: NativeRequest) returns (a: Answer, ok: bool, last: bool)
      requires request.state == RequestState.Installed ==> request.owner == this && references > 0
      modifies this`nativeGuard, this`activeRequest, this`references, request`owner, request`state
      ensures nativeGuard == old(nativeGuard)
      ensures ok <==> !(a == RequestUninstalled && old(activeRequest) != request)
      ensures a == if old(request.state) != RequestState.Installed then NotInstalled
                   else if old(nativeGuard) then UninstallContended
                   else UninstallAnswer(old(View()), request.reserved)
      ensures a == RequestUninstalled && ok ==>
                && activeRequest == null && request.owner == null && request.state == RequestState.Detached
                && references == old(references) - 1 && (last <==> references == 0)
      ensures a != RequestUninstalled || !ok ==> unchanged(this) && unchanged(request) && !last
    {
      ok, last := true, false;
      if request.state != RequestState.Installed {
        return NotInstalled, true, false;
      }
      var locked := TryLock();
      if !locked {
        return UninstallContended, true, false;
      }
      if foreignActive || cleanupDepth > 0 {
        a := NativeWorkPending;
      } else if request.reserved {
        a := DeliveryPending;
      } else if activeRequest != request {
        Unlock();
        return RequestUninstalled, false, false;
      } else {
        activeRequest := null;
        request.owner, request.state := null, RequestState.Detached;
        a := RequestUninstalled;
      }
      Unlock();
      if a == RequestUninstalled {
        references := references - 1;
        last := references == 0;
      }
    }

    predicate IsEligible(request: NativeRequest)
      reads this, request
    {
      activeRequest == request && request.cancelled && nativePhase == User && !nativeClosing && connection
    }

    method ReserveDelivery(request: NativeRequest) returns (a: Answer)
      requires activeRequest != null && activeRequest.id == request.id ==> activeRequest == request
      modifies this`nativeGuard, request`reserved
      ensures nativeGuard == old(nativeGuard)
      ensures a == if request.owner != this || old(nativeGuard) then Ineligible
                   else ReserveAnswer(old(View()), request.id, old(request.reserved), request.cancelled)
      ensures request.reserved == (old(request.reserved) || a == DeliveryReserved)
    {
      if request.owner != this {
        return Ineligible;
      }
      var locked := TryLock();
      if !locked {
        return Ineligible;
      }
      a := Ineligible;
      if request.reserved {
        a := ReservationPending;
      } else if IsEligible(request) {
        request.reserved := true;
        a := DeliveryReserved;
      }
      Unlock();
    }

    method TryInterrupt(request: NativeRequest) returns (a: Answer)
      requires activeRequest != null && activeRequest.id == request.id ==> activeRequest == request
      modifies this`nativeGuard, this`interrupts
      ensures nativeGuard == old(nativeGuard)
      ensures a == if !request.reserved then NotReserved
                   else if request.owner != this || old(nativeGuard) then InterruptSkipped
                   else InterruptAnswer(old(View()), request.id, request.cancelled)
      ensures interrupts == old(interrupts) + B(a == InterruptDelivered)
    {
      if !request.reserved {
        return NotReserved;
      }
      if request.owner != this {
        return InterruptSkipped;
      }
      var locked := TryLock();
      if !locked {
        return InterruptSkipped;
      }
      a := InterruptSkipped;
      if IsEligible(request) {
        interrupts := interrupts + 1;
        a := InterruptDelivered;
      }
      Unlock();
    }

    // ----- resources

    /** The four destructors of clear_work; every resource goes with one released(). */
    method DropWork()
      modifies this`hasResult, this`prepared, this`extracted, this`sql, this`moves, process`live
      ensures !hasResult && !prepared && !extracted && !sql
      ensures process.live == old(process.live - B(hasResult) - B(prepared) - B(extracted) - B(sql))
      ensures moves == old(moves) + Destroys(old(Objects()))
    {
      moves := moves + Destroys(Objects());
      hasResult := process.Drop(hasResult);
      prepared := process.Drop(prepared);
      extracted := process.Drop(extracted);
      sql := process.Drop(sql);
    }

    /** Engine objects of an execution in the fields. */
    function Objects(): (k: nat)
      reads this`hasResult, this`prepared, this`extracted
      ensures k <= 3
    {
      B(hasResult) + B(prepared) + B(extracted)
    }

    /** clear_work */
    method ClearWork(runtime: Runtime) returns (ok: bool)
      requires !nativeGuard
      modifies this`moves, this`nativeGuard, this`cleanupDepth, this`nativePhase,
               this`hasResult, this`prepared, this`extracted, this`sql, process`live
      ensures ok == !(runtime == Runtime.Held && foreignActive) && !nativeGuard
      ensures ok ==> !hasResult && !prepared && !extracted && !sql && View() == old(View()).Refresh()
      ensures !ok ==> View() == old(View())
      ensures process.live - Held() == old(process.live - Held())
      ensures ok ==> moves == old(moves) + ClearMoves(old(Objects()))
    {
      ok := CleanupBegin(runtime);
      if !ok {
        return;
      }
      DropWork();
      ok := CleanupEnd(runtime);
    }

    /** connection_clear; closing is permanent. */
    method Clear(runtime: Runtime) returns (ok: bool)
      requires !nativeGuard
      modifies this`moves, this`nativeGuard, this`cleanupDepth, this`nativePhase, this`nativeClosing, this`connection,
               this`hasResult, this`prepared, this`extracted, this`sql, process`live
      ensures ok == (!foreignActive && old(cleanupDepth) == 0 && activeRequest == null) && !nativeGuard
      ensures ok ==> Held() == 0 && View() == old(View()).(closing := true, connected := false).Refresh()
      ensures !ok ==> View() == old(View())
      ensures process.live - Held() == old(process.live - Held())
    {
      ok := CloseBegin(runtime);
      if !ok {
        return;
      }
      assert View().closing;
      ClearClosed(runtime);
    }

    /** The rest of connection_clear, on an owner that is already closing. */
    method ClearClosed(runtime: Runtime)
      requires !nativeGuard && nativeClosing && !foreignActive
      modifies this`moves, this`nativeGuard, this`cleanupDepth, this`nativePhase, this`connection,
               this`hasResult, this`prepared, this`extracted, this`sql, process`live
      ensures Held() == 0 && !nativeGuard && cleanupDepth == old(cleanupDepth) && nativePhase == Closing
      ensures process.live == old(process.live - Held())
    {
      var ok := CleanupBegin(runtime);
      assert View().depth == old(cleanupDepth) + 1;
      ok := ClearWork(runtime);
      assert View().depth == old(cleanupDepth) + 1;
      moves := moves + if connection then [Make(Disconnect)] else [];
      connection := process.Drop(connection);
      ok := CleanupEnd(runtime);
      assert View().depth == old(cleanupDepth) && View().phase == Closing;
    }

    /** ml_duckdb_connect, once per owner. */
    method Connect(handle: bool, success: bool) returns (ok: bool)
      requires !nativeGuard && !connection
      modifies this`moves, this`nativeGuard, this`foreignActive, this`nativePhase, this`connection, this`status,
          process`live
      ensures ok == (!nativeClosing && !old(foreignActive) && cleanupDepth == 0) && !nativeGuard
      ensures ok ==> connection == handle && (status == OK <==> success)
                     && View() == old(View()).(connected := handle).Refresh()
      ensures !ok ==> View() == old(View())
      ensures process.live - Held() == old(process.live - Held())
    {
      ok := WorkBegin();
      if !ok {
        return;
      }
      moves := moves + [Make(Stubs.Connect)];
      status := if success then OK else ERROR;
      if handle {
        connection := true;
        process.Acquired();
      }
      ok := WorkEnd();
    }

    /** A stub may start: the owner is open, idle and holds no leftovers of an earlier execution. */
    predicate Startable()
      reads this
    {
      !nativeGuard && !nativeClosing && !foreignActive && cleanupDepth == 0
      && !sql && !extracted && !prepared && !hasResult
    }

    /** Work is open with no cleanup: what every admission in a stub requires. */
    predicate Working()
      reads this
    {
      !nativeGuard && !nativeClosing && foreignActive && cleanupDepth == 0
    }

    /** The third admission of an execution. It alone leaves USER by entering cleanup directly. */
    method RunStep(e: ExecuteScript) returns (made: bool)
      requires Working() && !hasResult
      modifies this`moves, this`nativeGuard, this`nativePhase, this`cleanupDepth, this`status, this`hasResult,
          this`schemaDirty, this`calls, process
      ensures !nativeGuard && cleanupDepth == B(made) && hasResult == made
      ensures made == (activeRequest == null || !e.latches.2)
      ensures process.live == old(process.live) + B(made)
      ensures calls == (if made then old(calls) + [ExecutePrepared] else old(calls))
      ensures status == if !made then CANCELLED else if e.executeOk then old(status) else ERROR
      ensures process.epoch == old(process.epoch) + 2 * B(made && e.changesSchema)
      ensures schemaDirty == (old(schemaDirty) || (made && e.changesSchema))
      ensures moves == old(moves) + (RunMoves(made) + Entry(made))
    {
      var ok;
      ok, made := CallBegin(true, e.latches.2);
      if made {
        RunEngine(e.changesSchema);
        ok := CleanupBegin(Released);
        if !e.executeOk {
          status := ERROR;
        }
      } else {
        status := CANCELLED;
      }
      RunThenEntry(old(moves), made);
    }

    /** The result is held, the engine runs, and the epoch advances around a DDL statement. */
    method RunEngine(changes: bool)
      requires !hasResult
      modifies this`hasResult, this`schemaDirty, this`calls, this`moves, process
      ensures hasResult && process.live == old(process.live) + 1
      ensures calls == old(calls) + [ExecutePrepared] && moves == old(moves) + [Make(ExecutePrepared)]
      ensures process.epoch == old(process.epoch) + 2 * B(changes) && schemaDirty == (old(schemaDirty) || changes)
    {
      hasResult := true;
      process.Acquired();
      if changes {
        schemaDirty := true;
        process.Advance();
      }
      calls, moves := calls + [ExecutePrepared], moves + [Make(ExecutePrepared)];
      if changes {
        process.Advance();
      }
    }

    /** An admitted interruptible subcall whose end is published. */
    method UserSubcall(call: Call, latch: bool) returns (admitted: bool)
      requires Working()
      modifies this`moves, this`nativeGuard, this`nativePhase, this`calls
      ensures Working() && admitted == Passes(latch)
      ensures calls == (if admitted then old(calls) + [call] else old(calls))
      ensures moves == old(moves) + if admitted then [Ask(true, true), Make(call), Cross(Transition.CallEnd)]
          else [Ask(true, false)]
    {
      var fine;
      fine, admitted := CallBegin(true, latch);
      if admitted {
        calls, moves := calls + [call], moves + [Make(call)];
        CallEnd();
      }
    }

    method PrepareStep(e: ExecuteScript) returns (ended: bool, ghost n: nat)
      requires Working() && !hasResult && !prepared && status == OK
      modifies this`moves, this`nativeGuard, this`nativePhase, this`cleanupDepth, this`status, this`prepared,
          this`hasResult, this`schemaDirty, this`calls, process
      ensures !nativeGuard && cleanupDepth == B(ended) && (ended <==> n == 2) && n <= 2
      ensures process.live - B(prepared) - B(hasResult) == old(process.live)
      ensures calls == old(calls) + Subcalls(n + 1)[1..]
      ensures n >= 1 <==> Passes(e.latches.1)
      ensures n == 2 <==> n >= 1 && e.prepareOk && e.allowed && Passes(e.latches.2)
      ensures status == if n == 0 then CANCELLED else AfterPrepare(e, n == 2)
      ensures process.epoch == old(process.epoch) + 2 * B(ended && e.changesSchema)
      ensures schemaDirty == (old(schemaDirty) || (ended && e.changesSchema))
      ensures moves == old(moves) + (PrepareMoves(n, Runnable(e)) + Entry(ended))
    {
      var admitted := UserSubcall(PrepareExtracted, e.latches.1);
      if !admitted {
        status := CANCELLED;
        return false, 0;
      }
      ended, n := false, 1;
      ghost var done := old(moves) + [Ask(true, true), Make(PrepareExtracted), Cross(Transition.CallEnd)];
      var asked := CheckPrepared(e);
      if asked {
        ended := RunStep(e);
        n := 1 + B(ended);
        PrepareThen(old(moves), n, true, RunMoves(ended) + Entry(ended));
      } else {
        PrepareThen(old(moves), 1, false, []);
        assert moves == done == done + [];
      }
    }

    /** What preparation left, and whether the statement may run. */
    method CheckPrepared(e: ExecuteScript) returns (runnable: bool)
      requires !prepared && status == OK
      modifies this`prepared, this`status, process`live
      ensures process.live - B(prepared) == old(process.live) && runnable == Runnable(e)
      ensures status == if !e.prepareOk then ERROR else if !e.allowed then UNSUPPORTED else OK
    {
      prepared := process.Keep(e.prepared);
      if !e.prepareOk {
        status := ERROR;
      } else if !e.allowed {
        status := UNSUPPORTED;
      }
      runnable := status == OK;
    }

    /** The latch does not stop a subcall. */
    predicate Passes(latch: bool)
      reads this`activeRequest
    {
      activeRequest == null || !latch
    }

    /** What a made preparation leads to. */
    function AfterPrepare(e: ExecuteScript, executed: bool): Status {
      if !e.prepareOk then ERROR
      else if !e.allowed then UNSUPPORTED
      else if !executed then CANCELLED
      else if e.executeOk then OK
      else ERROR
    }

    /** How far an execution gets, the status it leaves, and what it does to the epoch: each subcall is made
        exactly when everything before it went well and its latch load passes. */
    twostate predicate Executed(e: ExecuteScript, n: nat)
      reads this, process
    {
      var single := e.extracted && !e.extractError && e.count == 1;
      && n <= 3
      && calls == old(calls) + Subcalls(n)
      && (n >= 1 <==> Passes(e.latches.0))
      && (n >= 2 <==> n >= 1 && single && Passes(e.latches.1))
      && (n == 3 <==> n >= 2 && e.prepareOk && e.allowed && Passes(e.latches.2))
      && (status == OK <==> n == 3 && e.executeOk)
      && (status == CANCELLED <==> n == 0 || (n == 1 && single) || (n == 2 && e.prepareOk && e.allowed))
      && (status == UNSUPPORTED <==>
            (n == 1 && e.extracted && !e.extractError && e.count != 1) || (n == 2 && e.prepareOk && !e.allowed))
      && process.epoch == old(process.epoch) + 2 * B(n == 3 && e.changesSchema)
      && schemaDirty == (old(schemaDirty) || (n == 3 && e.changesSchema))
    }

    /** From the extracted statements on; m more subcalls follow. */
    method CheckExtracted(e: ExecuteScript) returns (ended: bool, ghost m: nat)
      requires Working() && !hasResult && !prepared && !extracted && status == OK
      modifies this`moves, this`nativeGuard, this`nativePhase, this`cleanupDepth, this`status, this`extracted,
          this`prepared, this`hasResult, this`schemaDirty, this`calls, process
      ensures !nativeGuard && cleanupDepth == B(ended) && (ended <==> m == 2) && m <= 2
      ensures process.live - B(extracted) - B(prepared) - B(hasResult) == old(process.live)
      ensures calls == old(calls) + Subcalls(m + 1)[1..]
      ensures m >= 1 <==> e.extracted && !e.extractError && e.count == 1 && Passes(e.latches.1)
      ensures m == 2 <==> m >= 1 && e.prepareOk && e.allowed && Passes(e.latches.2)
      ensures status == if !e.extracted || e.extractError then ERROR
                        else if e.count != 1 then UNSUPPORTED
                        else if m == 0 then CANCELLED
                        else AfterPrepare(e, m == 2)
      ensures process.epoch == old(process.epoch) + 2 * B(ended && e.changesSchema)
      ensures schemaDirty == (old(schemaDirty) || (ended && e.changesSchema))
      ensures moves == old(moves) + (if Single(e) then PrepareMoves(m, Runnable(e)) + Entry(ended) else [])
    {
      extracted := process.Keep(e.extracted);
      ended, m := false, 0;
      if !e.extracted || e.extractError {
        status := ERROR;
      } else if e.count != 1 {
        status := UNSUPPORTED;
      } else {
        ended, m := PrepareStep(e);
      }
    }

    method ExtractStep(e: ExecuteScript) returns (ended: bool, ghost n: nat)
      requires Working() && !hasResult && !prepared && !extracted && status == OK
      modifies this`moves, this`nativeGuard, this`nativePhase, this`cleanupDepth, this`status, this`extracted,
          this`prepared, this`hasResult, this`schemaDirty, this`calls, process
      ensures !nativeGuard && cleanupDepth == B(ended) && (ended <==> n == 3)
      ensures process.live - B(extracted) - B(prepared) - B(hasResult) == old(process.live)
      ensures Executed(e, n)
      ensures moves == old(moves) + (ExecuteMoves(n, Single(e), Runnable(e)) + Entry(ended))
    {
      var admitted := UserSubcall(Extract, e.latches.0);
      if !admitted {
        status := CANCELLED;
        return false, 0;
      }
      ghost var m: nat;
      ended, m := CheckExtracted(e);
      n := 1 + m;
      SubcallsFrom(m);
      ExtractThen(old(moves), m, Single(e), Runnable(e),
                  if Single(e) then PrepareMoves(m, Runnable(e)) + Entry(ended) else []);
    }

    /** The tail of both executions, entered with cleanup already published. */
    method FinishWork() returns (ok: bool)
      requires !nativeGuard && !nativeClosing && foreignActive && cleanupDepth == 1
      modifies this`moves, this`nativeGuard, this`cleanupDepth, this`nativePhase, this`foreignActive,
               this`hasResult, this`prepared, this`extracted, this`sql, process`live
      ensures ok && Startable() && nativePhase == Idle
      ensures process.live == old(process.live - B(hasResult) - B(prepared) - B(extracted) - B(sql))
      ensures moves == old(moves) + FinishMoves(old(Objects()))
    {
      ok := ClearWork(Released);
      assert View().depth == 1 && View().foreign && !View().closing;
      ok := CleanupEnd(Released);
      assert View().depth == 0 && View().foreign;
      ok := WorkEnd();
      assert View().phase == Idle;
    }

    /** Between work_begin and the tail of ml_duckdb_execute: cleanup is published exactly once. */
    method ExecuteBody(e: ExecuteScript) returns (ghost n: nat)
      requires Working() && !hasResult && !prepared && !extracted && status == OK
      modifies this`moves, this`nativeGuard, this`nativePhase, this`cleanupDepth, this`status, this`extracted,
          this`prepared, this`hasResult, this`schemaDirty, this`calls, process
      ensures !nativeGuard && cleanupDepth == 1
      ensures process.live - B(extracted) - B(prepared) - B(hasResult) == old(process.live)
      ensures Executed(e, n)
      ensures moves == old(moves) + ExecuteMoves(n, Single(e), Runnable(e)) + [Cross(Transition.CleanupBegin)]
    {
      var cleanupStarted;
      cleanupStarted, n := ExtractStep(e);
      if !cleanupStarted {
        var ok := CleanupBegin(Released);
        assert View().depth == 1;
      }
    }

    /** The legacy control branch: one query that asks no latch and tells the epoch nothing. */
    method ControlBody(ok: bool)
      requires Working() && !hasResult && status == OK
      modifies this`moves, this`nativeGuard, this`nativePhase, this`cleanupDepth, this`status, this`hasResult,
          this`calls, process`live
      ensures !nativeGuard && cleanupDepth == 1 && hasResult && process.live == old(process.live) + 1
      ensures calls == old(calls) + [LegacyControl] && status == if ok then OK else ERROR
      ensures moves == old(moves) + [Make(LegacyControl)] + [Cross(Transition.CleanupBegin)]
    {
      hasResult := true;
      process.Acquired();
      calls, moves := calls + [LegacyControl], moves + [Make(LegacyControl)];
      if !ok {
        status := ERROR;
      }
      var _ := CleanupBegin(Released);
      assert View().depth == 1;
    }

    /** From the copied statement to the published cleanup. */
    method WorkPlain(e: ExecuteScript) returns (ghost n: nat)
      requires Startable()
      modifies this`nativeGuard, this`cleanupDepth, this`nativePhase, this`foreignActive, this`hasResult,
               this`prepared, this`extracted, this`sql, this`status, this`schemaDirty, this`calls, this`moves, process
      ensures !nativeGuard && !nativeClosing && foreignActive && cleanupDepth == 1 && sql && Executed(e, n)
      ensures process.live - B(extracted) - B(prepared) - B(hasResult) == old(process.live) + 1
      ensures moves == old(moves) + [Cross(Transition.WorkBegin)] + ExecuteMoves(n, Single(e), Runnable(e))
                       + [Cross(Transition.CleanupBegin)]
    {
      StartWork();
      n := ExecuteBody(e);
    }

    /** All of ml_duckdb_execute, plain; k engine objects were destroyed at its end. */
    method RunPlain(e: ExecuteScript) returns (ghost n: nat, ghost k: nat)
      requires Startable()
      modifies this`nativeGuard, this`cleanupDepth, this`nativePhase, this`foreignActive, this`hasResult,
               this`prepared, this`extracted, this`sql, this`status, this`schemaDirty, this`calls, this`moves, process
      ensures Startable() && nativePhase == Idle && process.live == old(process.live) && k <= 3 && Executed(e, n)
      ensures moves == old(moves) + PlainPath(n, Single(e), Runnable(e), k)
    {
      n := WorkPlain(e);
      k := Objects();
      var _ := FinishWork();
      Join(old(moves), [Cross(Transition.WorkBegin)], ExecuteMoves(n, Single(e), Runnable(e)),
           [Cross(Transition.CleanupBegin)], FinishMoves(k));
    }

    /** All of ml_duckdb_execute with the legacy flag. */
    method RunLegacy(controlOk: bool) returns (ghost k: nat)
      requires Startable()
      modifies this`nativeGuard, this`cleanupDepth, this`nativePhase, this`foreignActive, this`hasResult,
               this`prepared, this`extracted, this`sql, this`status, this`calls, this`moves, process`live
      ensures Startable() && nativePhase == Idle && process.live == old(process.live) && k <= 3
      ensures calls == old(calls) + [LegacyControl] && status == if controlOk then OK else ERROR
      ensures moves == old(moves) + LegacyPath(k)
    {
      StartWork();
      ControlBody(controlOk);
      k := Objects();
      var _ := FinishWork();
    }

    /** ml_duckdb_execute: whatever the engine and the latch answer, the owner comes back idle with nothing
        held, having made the legacy query, or a prefix of the three subcalls. */
    method Execute(isControl: bool, controlOk: bool, e: ExecuteScript) returns (ok: bool, ghost n: nat)
      requires Startable()
      modifies this`moves, this`nativeGuard, this`cleanupDepth, this`nativePhase, this`foreignActive, this`hasResult,
               this`prepared, this`extracted, this`sql, this`status, this`schemaDirty, this`calls, process
      ensures ok && Startable() && nativePhase == Idle
      ensures process.live == old(process.live)
      ensures if isControl then
                && calls == old(calls) + [LegacyControl] && status == (if controlOk then OK else ERROR)
                && process.epoch == old(process.epoch) && schemaDirty == old(schemaDirty)
              else Executed(e, n)
      ensures old(moves) <= moves && Follows(Stubs.Execute(isControl, Halt), moves[|old(moves)|..])
    {
      ghost var k: nat;
      ok, n := true, 0;
      if isControl {
        k := RunLegacy(controlOk);
        LegacyFollows(k);
        Suffix(old(moves), LegacyPath(k));
      } else {
        n, k := RunPlain(e);
        PlainFollows(n, Single(e), Runnable(e), k);
        Suffix(old(moves), PlainPath(n, Single(e), Runnable(e), k));
      }
    }

    /** The copy of the statement, the opened work and the fresh status. */
    method StartWork()
      requires Startable()
      modifies this`moves, this`nativeGuard, this`nativePhase, this`foreignActive, this`sql, this`status, process`live
      ensures Working() && sql && status == OK && process.live == old(process.live) + 1
      ensures moves == old(moves) + [Cross(Transition.WorkBegin)]
    {
      sql := process.Keep(true);
      OpenWork();
    }

    /** Between work_begin and the tail of ml_duckdb_execute_control. */
    method IssueControl(control: Control, e: ControlScript) returns (issued: bool)
      requires Working() && !hasResult && status == OK
      modifies this`moves, this`nativeGuard, this`cleanupDepth, this`nativePhase, this`hasResult, this`status,
               this`schemaDirty, this`calls, process
      ensures !nativeGuard && cleanupDepth == 1 && hasResult == issued
      ensures process.live == old(process.live) + B(issued)
      ensures issued == (control == Rollback || activeRequest == null || !e.latch)
      ensures calls == (if issued then old(calls) + [ControlSql(control)] else old(calls))
      ensures status == (if !issued then CANCELLED else if e.ok then OK else ERROR)
      ensures schemaDirty == (old(schemaDirty) && !issued)
      ensures process.epoch == old(process.epoch) + B(issued && control != Begin && old(schemaDirty))
      ensures moves == old(moves) + ControlMoves(control, issued) + [Cross(Transition.CleanupBegin)]
    {
      issued := true;
      var ok;
      if control != Rollback {
        ok, issued := CallBegin(true, e.latch);
      }
      if issued {
        Settle(control);
      } else {
        status := CANCELLED;
      }
      ok := CleanupBegin(Released);
      if issued && !e.ok {
        status := ERROR;
      }
    }

    /** The query itself; BEGIN starts afresh, and a settlement after DDL advances the epoch. */
    method Settle(control: Control)
      requires !hasResult
      modifies this`hasResult, this`schemaDirty, this`calls, this`moves, process
      ensures hasResult && process.live == old(process.live) + 1 && !schemaDirty
      ensures calls == old(calls) + [ControlSql(control)] && moves == old(moves) + [Make(ControlSql(control))]
      ensures process.epoch == old(process.epoch) + B(control != Begin && old(schemaDirty))
    {
      hasResult := true;
      process.Acquired();
      calls, moves := calls + [ControlSql(control)], moves + [Make(ControlSql(control))];
      if control == Begin {
        schemaDirty := false;
      } else if schemaDirty {
        schemaDirty := false;
        process.Advance();
      }
    }

    /** All of ml_duckdb_execute_control; k engine objects were destroyed at its end. */
    method RunControl(control: Control, e: ControlScript) returns (ghost issued: bool, ghost k: nat)
      requires Startable()
      modifies this`moves, this`nativeGuard, this`cleanupDepth, this`nativePhase, this`foreignActive, this`hasResult,
               this`prepared, this`extracted, this`sql, this`status, this`schemaDirty, this`calls, process
      ensures Startable() && nativePhase == Idle && process.live == old(process.live) && k <= 3
      ensures issued == (control == Rollback || activeRequest == null || !e.latch)
      ensures calls == (if issued then old(calls) + [ControlSql(control)] else old(calls))
      ensures status == (if !issued then CANCELLED else if e.ok then OK else ERROR)
      ensures schemaDirty == (old(schemaDirty) && !issued)
      ensures process.epoch == old(process.epoch) + B(issued && control != Begin && old(schemaDirty))
      ensures moves == old(moves) + ControlPath(control, issued, k)
    {
      OpenWork();
      var made := IssueControl(control, e);
      issued, k := made, Objects();
      var _ := FinishWork();
    }

    method OpenWork()
      requires !nativeGuard && !nativeClosing && !foreignActive && cleanupDepth == 0
      modifies this`moves, this`nativeGuard, this`nativePhase, this`foreignActive, this`status
      ensures Working() && status == OK && moves == old(moves) + [Cross(Transition.WorkBegin)]
    {
      var _ := WorkBegin();
      status := OK;
    }

    /** ml_duckdb_execute_control: BEGIN and COMMIT pass the latch, ROLLBACK never asks it. */
    method ExecuteControl(control: Control, e: ControlScript) returns (ok: bool)
      requires Startable()
      modifies this`moves, this`nativeGuard, this`cleanupDepth, this`nativePhase, this`foreignActive, this`hasResult,
               this`prepared, this`extracted, this`sql, this`status, this`schemaDirty, this`calls, process
      ensures ok && Startable() && nativePhase == Idle
      ensures process.live == old(process.live)
      ensures var issued := control == Rollback || activeRequest == null || !e.latch;
              && calls == (if issued then old(calls) + [ControlSql(control)] else old(calls))
              && status == (if !issued then CANCELLED else if e.ok then OK else ERROR)
              && schemaDirty == (old(schemaDirty) && !issued)
              && process.epoch == old(process.epoch) + B(issued && control != Begin && old(schemaDirty))
      ensures old(moves) <= moves && Follows(Stubs.ExecuteControl(control, Halt), moves[|old(moves)|..])
    {
      ghost var issued, k := RunControl(control, e);
      ControlFollows(control, issued, k);
      Suffix(old(moves), ControlPath(control, issued, k));
      ok := true;
    }
  }
}
