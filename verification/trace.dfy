/** What the history of a run says, independently of any owner's fields.

    A trace records the linearization points of the protocol: guarded transitions, latch loads,
    engine entries and returns, and the controller's and canceller's effects. The folds below read the
    active request, the delivery window, the open licence and the engine's occupation of a connection
    off the trace alone, so that a run can be judged without trusting `native_phase`. */
module Trace {
  import opened Native
  import opened Stubs

  datatype Event =
    | Installed(c: ConnId, r: RequestId)
    | Detached(c: ConnId, r: RequestId)
    | Latched(r: RequestId)
    | Reserved(r: RequestId)
    | Retired(r: RequestId)
    | Admitted(c: ConnId, who: Option<RequestId>, interruptible: bool)
    | Refused(c: ConnId, r: RequestId)
    | Passed(c: ConnId, t: Transition)
    | Entered(c: ConnId, call: Call)
    | Returned(c: ConnId)
    | Interrupted(c: ConnId, r: RequestId)

  /** window: the request whose interruptible admission is still open.
      license: the request (if any) on whose behalf the next admitted subcall may be made. */
  datatype Trail = Trail(
    active: Option<RequestId>,
    window: Option<RequestId>,
    license: Option<Option<RequestId>>,
    engine: Option<Call>)

  datatype Mark = Mark(latched: bool, reserved: bool, detached: bool)

  /** The transitions that publish the end of a subcall. */
  predicate EndsSubcall(t: Transition) {
    t == CallEnd || t == CleanupBegin || t == WorkEnd
  }

  function TrailStep(k: Trail, c: ConnId, e: Event): Trail {
    match e
    case Installed(d, r) => if d == c then k.(active := Some(r)) else k
    case Detached(d, _) => if d == c then k.(active := None) else k
    case Admitted(d, who, interruptible) =>
      if d == c then k.(window := if interruptible then who else None, license := Some(who)) else k
    case Refused(d, _) => if d == c then k.(window := None, license := None) else k
    case Passed(d, t) => if d == c && EndsSubcall(t) then k.(window := None, license := None) else k
    case Entered(d, call) =>
      if d != c then k
      else k.(engine := Some(call),
              license := if call.UserCall() || call.ScalarCall() then None else k.license)
    case Returned(d) => if d == c then k.(engine := None) else k
    case _ => k
  }

  function TrailOf(log: seq<Event>, c: ConnId): Trail
    decreases |log|
  {
    if log == [] then Trail(None, None, None, None)
    else TrailStep(TrailOf(log[..|log| - 1], c), c, log[|log| - 1])
  }

  function MarkStep(m: Mark, r: RequestId, e: Event): Mark {
    match e
    case Latched(q) => if q == r then m.(latched := true) else m
    case Reserved(q) => if q == r then m.(reserved := true) else m
    case Retired(q) => if q == r then m.(reserved := false) else m
    case Detached(_, q) => if q == r then m.(detached := true) else m
    case _ => m
  }

  function MarkOf(log: seq<Event>, r: RequestId): Mark
    decreases |log|
  {
    if log == [] then Mark(false, false, false)
    else MarkStep(MarkOf(log[..|log| - 1], r), r, log[|log| - 1])
  }

  /** The promise each event makes about the history before it. */
  predicate SafeEvent(past: seq<Event>, e: Event) {
    match e
    case Interrupted(c, r) =>
      var k := TrailOf(past, c);
      && k.active == Some(r)
      && k.window == Some(r)
      && MarkOf(past, r) == Mark(true, true, false)
      && (k.engine.Some? ==> k.engine.value.UserCall())
    case Admitted(c, who, _) =>
      who == TrailOf(past, c).active && (who.Some? ==> !MarkOf(past, who.value).latched)
    case Refused(c, r) =>
      TrailOf(past, c).active == Some(r) && MarkOf(past, r).latched
    case Entered(c, call) =>
      var k := TrailOf(past, c);
      if call.UserCall() || call.ScalarCall() then k.license == Some(k.active) else k.window == None
    case Installed(c, r) =>
      TrailOf(past, c).active == None && !MarkOf(past, r).detached
    case Detached(c, r) =>
      var k := TrailOf(past, c);
      k.active == Some(r) && k.window == None && k.engine == None && !MarkOf(past, r).reserved
    case _ => true
  }

  predicate Safe(log: seq<Event>) {
    forall i | 0 <= i < |log| :: SafeEvent(log[..i], log[i])
  }

  lemma Snoc(log: seq<Event>, e: Event)
    ensures |log + [e]| > 0
    ensures (log + [e])[..|log + [e]| - 1] == log
    ensures (log + [e])[|log + [e]| - 1] == e
  {
  }

  lemma TrailSnoc(log: seq<Event>, e: Event, c: ConnId)
    ensures TrailOf(log + [e], c) == TrailStep(TrailOf(log, c), c, e)
  {
    Snoc(log, e);
  }

  lemma MarkSnoc(log: seq<Event>, e: Event, r: RequestId)
    ensures MarkOf(log + [e], r) == MarkStep(MarkOf(log, r), r, e)
  {
    Snoc(log, e);
  }

  lemma SafeSnoc(log: seq<Event>, e: Event)
    requires Safe(log) && SafeEvent(log, e)
    ensures Safe(log + [e])
  {
    forall i | 0 <= i < |log + [e]| ensures SafeEvent((log + [e])[..i], (log + [e])[i]) {
      assert (log + [e])[..i] == log[..i] || i == |log|;
      assert (log + [e])[..|log|] == log;
      assert log[..|log|] == log;
    }
  }

  // ----- what the folds mean

  /** A window is open exactly when some interruptible admission for that request has been followed,
      on this connection, by no other admission decision and by no published end. */
  ghost predicate OpensWindow(log: seq<Event>, c: ConnId, r: RequestId, i: int) {
    && 0 <= i < |log|
    && log[i] == Admitted(c, Some(r), true)
    && forall j | i < j < |log| :: !ClosesWindow(log[j], c)
  }

  predicate ClosesWindow(e: Event, c: ConnId) {
    (e.Admitted? && e.c == c) || (e.Refused? && e.c == c) || (e.Passed? && e.c == c && EndsSubcall(e.t))
  }

  lemma {:induction false} WindowMeaning(log: seq<Event>, c: ConnId, r: RequestId)
    ensures TrailOf(log, c).window == Some(r) <==> exists i :: OpensWindow(log, c, r, i)
    decreases |log|
  {
    if log != [] {
      var n := |log| - 1;
      var past := log[..n];
      WindowMeaning(past, c, r);
      if ClosesWindow(log[n], c) {
        if TrailOf(log, c).window == Some(r) {
          assert OpensWindow(log, c, r, n);
        }
        forall i | OpensWindow(log, c, r, i) ensures TrailOf(log, c).window == Some(r) {
          assert i == n;
        }
      } else {
        forall i | OpensWindow(past, c, r, i) ensures OpensWindow(log, c, r, i) {
        }
        forall i | OpensWindow(log, c, r, i) ensures OpensWindow(past, c, r, i) {
          assert forall j | i < j < n :: past[j] == log[j];
        }
      }
    }
  }

  lemma {:induction false} LatchMeaning(log: seq<Event>, r: RequestId)
    ensures MarkOf(log, r).latched <==> Latched(r) in log
    ensures MarkOf(log, r).detached <==> exists c :: Event.Detached(c, r) in log
    decreases |log|
  {
    if log != [] {
      var n := |log| - 1;
      LatchMeaning(log[..n], r);
      assert log == log[..n] + [log[n]];
      assert forall e :: e in log <==> e in log[..n] || e == log[n];
    }
  }

  // ----- consequences over whole traces

  lemma LatchPersists(log: seq<Event>, r: RequestId, i: nat, j: nat)
    requires i < j <= |log| && log[i] == Latched(r)
    ensures MarkOf(log[..j], r).latched
  {
    LatchMeaning(log[..j], r);
    assert log[..j][i] == Latched(r);
  }

  /** Once the latch of r is published, no later latch load admits a subcall for r. */
  lemma NoAdmissionAfterLatch(log: seq<Event>, r: RequestId, i: nat, j: nat)
    requires Safe(log) && i < j < |log| && log[i] == Latched(r)
    ensures !(log[j].Admitted? && log[j].who == Some(r))
  {
    LatchPersists(log, r, i, j);
    assert SafeEvent(log[..j], log[j]);
  }

  /** A licence found open at k and not open at j was granted in between. */
  lemma {:induction false} LicenseGranted(log: seq<Event>, c: ConnId, w: Option<RequestId>, j: nat, k: nat)
    returns (m: nat)
    requires j <= k <= |log|
    requires TrailOf(log[..j], c).license == None && TrailOf(log[..k], c).license == Some(w)
    ensures j <= m < k && log[m].Admitted? && log[m].c == c && log[m].who == w
    decreases k - j
  {
    assert k > j;
    var past := log[..k];
    assert past[..|past| - 1] == log[..k - 1];
    if log[k - 1].Admitted? && log[k - 1].c == c {
      m := k - 1;
    } else {
      m := LicenseGranted(log, c, w, j, k - 1);
    }
  }

  predicate AdmittedSubcall(e: Event, c: ConnId) {
    e.Entered? && e.c == c && (e.call.UserCall() || e.call.ScalarCall())
  }

  /** After the latch of r is published, at most one admitted subcall is made for r: the one whose
      latch load came first. Its admission precedes the publication. */
  lemma AtMostOneSubcallAfterLatch(log: seq<Event>, c: ConnId, r: RequestId, i: nat, j: nat, k: nat)
    requires Safe(log) && i < j < k < |log| && log[i] == Latched(r)
    requires AdmittedSubcall(log[j], c) && TrailOf(log[..j], c).active == Some(r)
    requires AdmittedSubcall(log[k], c)
    ensures TrailOf(log[..k], c).active != Some(r)
  {
    if TrailOf(log[..k], c).active == Some(r) {
      assert SafeEvent(log[..k], log[k]);
      assert log[..j + 1] == log[..j] + [log[j]];
      TrailSnoc(log[..j], log[j], c);
      var m := LicenseGranted(log, c, Some(r), j + 1, k);
      NoAdmissionAfterLatch(log, r, i, m);
      assert false;
    }
  }

  /** An admitted subcall made for r after r's latch rests on an admission loaded before it. */
  lemma LateSubcallWasAdmittedBefore(log: seq<Event>, c: ConnId, r: RequestId, i: nat, j: nat)
    returns (m: nat)
    requires Safe(log) && i < j < |log| && log[i] == Latched(r)
    requires AdmittedSubcall(log[j], c) && TrailOf(log[..j], c).active == Some(r)
    ensures m < i && log[m].Admitted? && log[m].c == c && log[m].who == Some(r)
  {
    assert SafeEvent(log[..j], log[j]);
    assert log[..0] == [];
    m := LicenseGranted(log, c, Some(r), 0, j);
    if i < m {
      NoAdmissionAfterLatch(log, r, i, m);
      assert false;
    }
  }

  lemma {:induction false} ActiveWasInstalled(log: seq<Event>, c: ConnId, r: RequestId, i: nat, j: nat) returns (m: nat)
    requires i <= j <= |log|
    requires TrailOf(log[..i], c).active != Some(r) && TrailOf(log[..j], c).active == Some(r)
    ensures i <= m < j && log[m] == Event.Installed(c, r)
    decreases j - i
  {
    assert log[..j][..j - 1] == log[..j - 1];
    if log[j - 1] == Event.Installed(c, r) {
      m := j - 1;
    } else {
      m := ActiveWasInstalled(log, c, r, i, j - 1);
    }
  }

  /** A detached request is never installed again, so it never again causes an interrupt. */
  lemma DetachedIsFinal(log: seq<Event>, c: ConnId, d: ConnId, r: RequestId, i: nat, j: nat)
    requires Safe(log) && i < j < |log| && log[i] == Event.Detached(c, r)
    ensures log[j] != Event.Installed(d, r) && log[j] != Interrupted(d, r)
  {
    LatchMeaning(log[..j], r);
    assert log[..j][i] == Event.Detached(c, r);
    assert SafeEvent(log[..j], log[j]);
  }

  lemma {:induction false} ReservationGranted(log: seq<Event>, r: RequestId, i: nat, j: nat) returns (m: nat)
    requires i <= j <= |log| && !MarkOf(log[..i], r).reserved && MarkOf(log[..j], r).reserved
    ensures i <= m < j && log[m] == Reserved(r)
    decreases j - i
  {
    assert log[..j][..j - 1] == log[..j - 1];
    if log[j - 1] == Reserved(r) {
      m := j - 1;
    } else {
      m := ReservationGranted(log, r, i, j - 1);
    }
  }

  /** An interrupt after a retirement rests on a reservation made in between. */
  lemma RetiredNeedsReservation(log: seq<Event>, c: ConnId, r: RequestId, i: nat, j: nat) returns (m: nat)
    requires Safe(log) && i < j < |log| && log[i] == Retired(r) && log[j] == Interrupted(c, r)
    ensures i < m < j && log[m] == Reserved(r)
  {
    assert SafeEvent(log[..j], log[j]);
    assert log[..i + 1][..i] == log[..i];
    m := ReservationGranted(log, r, i + 1, j);
  }
}
