/** The process-wide schema epoch over any number of connections running DDL.

    A schema change becomes visible to somebody at an instant inside the engine: while a CREATE, ALTER or
    DROP executes, or while a transaction that ran one settles. The stub advances the epoch around the
    execution and after the settlement, so each advance is a separate step and reads fall anywhere. */
module Epoch {

  type ConnId = nat

  datatype Place = Resting | Running | Settling

  /** inTransaction and ranDdl describe the engine: an explicit transaction is open, and it ran DDL. */
  datatype Conn = Conn(place: Place, dirty: bool, inTransaction: bool, ranDdl: bool)

  datatype Event = Read(value: nat) | Entered(c: ConnId) | Visible(c: ConnId) | Left(c: ConnId) | Settled(c: ConnId)

  datatype State = State(epoch: nat, conns: map<ConnId, Conn>, trace: seq<Event>)

  const EMPTY := State(0, map[], [])

  datatype Step =
    | Open(c: ConnId)
    | Observe                                  // schema_epoch()
    | Enter(c: ConnId) | Leave(c: ConnId)      // schema_enter / schema_leave around a DDL execution
    | Publish(c: ConnId)                       // the engine makes a change visible
    | Begin(c: ConnId, ok: bool)               // issued anywhere; ok: the engine opened a transaction
    | StartSettle(c: ConnId)                   // COMMIT or ROLLBACK
    | EndSettle(c: ConnId, ended: bool)        // ended: no transaction is left open

  predicate At(s: State, c: ConnId, place: Place) {
    c in s.conns && s.conns[c].place == place
  }

  predicate Enabled(s: State, step: Step) {
    match step
    case Open(c) => c !in s.conns
    case Observe => true
    case Enter(c) => At(s, c, Resting)
    case Leave(c) => At(s, c, Running)
    case Publish(c) => At(s, c, Running) || (At(s, c, Settling) && s.conns[c].ranDdl)
    case Begin(c, _) => At(s, c, Resting)
    case StartSettle(c) => At(s, c, Resting)
    case EndSettle(c, _) => At(s, c, Settling)
  }

  function Put(s: State, c: ConnId, k: Conn): State {
    s.(conns := s.conns[c := k])
  }

  function Note(s: State, e: Event): State {
    s.(trace := s.trace + [e])
  }

  function Advance(s: State, e: Event): State {
    Note(s.(epoch := s.epoch + 1), e)
  }

  function Next(s: State, step: Step): State
    requires Enabled(s, step)
  {
    match step
    case Open(c) => Put(s, c, Conn(Resting, false, false, false))
    case Observe => Note(s, Read(s.epoch))
    case Enter(c) =>
      var k := s.conns[c];
      Advance(Put(s, c, k.(place := Running, dirty := true, ranDdl := k.inTransaction)), Entered(c))
    case Leave(c) => Advance(Put(s, c, s.conns[c].(place := Resting)), Left(c))
    case Publish(c) => Note(s, Visible(c))
    case Begin(c, ok) =>
      var k := s.conns[c];
      Put(s, c, k.(dirty := false, inTransaction := k.inTransaction || ok))
    case StartSettle(c) => Put(s, c, s.conns[c].(place := Settling))
    case EndSettle(c, ended) =>
      var k := s.conns[c];
      var n := Put(s, c, Conn(Resting, false, k.inTransaction && !ended, k.ranDdl && !ended));
      if k.dirty then Advance(n, Settled(c)) else n
  }

  ghost predicate Legal(s: State, steps: seq<Step>)
    decreases |steps|
  {
    steps == [] || (Enabled(s, steps[0]) && Legal(Next(s, steps[0]), steps[1..]))
  }

  ghost function After(s: State, steps: seq<Step>): State
    requires Legal(s, steps)
    decreases |steps|
  {
    if steps == [] then s else After(Next(s, steps[0]), steps[1..])
  }

  /** The dirty mark covers the DDL of c's open transaction. */
  predicate Marked(s: State, c: ConnId)
    requires c in s.conns
  {
    s.conns[c].ranDdl ==> s.conns[c].dirty
  }

  /** Every settlement of the run starts with the mark in place. */
  ghost predicate SettlesMarked(s: State, steps: seq<Step>)
    requires Legal(s, steps)
    decreases |steps|
  {
    steps == [] || ((steps[0].StartSettle? ==> Marked(s, steps[0].c)) && SettlesMarked(Next(s, steps[0]), steps[1..]))
  }

  // ----- reading a trace

  predicate IsAdvance(e: Event) { e.Entered? || e.Left? || e.Settled? }

  predicate Closes(e: Event, c: ConnId) { e == Left(c) || e == Settled(c) }

  function Advances(trace: seq<Event>): nat {
    if trace == [] then 0
    else Advances(trace[..|trace| - 1]) + if IsAdvance(trace[|trace| - 1]) then 1 else 0
  }

  lemma AdvancesSnoc(trace: seq<Event>, e: Event)
    ensures Advances(trace + [e]) == Advances(trace) + if IsAdvance(e) then 1 else 0
  {
    assert (trace + [e])[..|trace + [e]| - 1] == trace;
  }

  lemma {:induction false} AdvancesGrow(trace: seq<Event>, i: nat, j: nat)
    requires i <= j <= |trace|
    ensures Advances(trace[..i]) <= Advances(trace[..j])
    ensures (exists m :: i <= m < j && IsAdvance(trace[m])) ==> Advances(trace[..i]) < Advances(trace[..j])
    decreases j - i
  {
    if i < j {
      AdvancesGrow(trace, i, j - 1);
      assert trace[..j][..j - 1] == trace[..j - 1];
      assert Advances(trace[..j]) == Advances(trace[..j - 1]) + if IsAdvance(trace[j - 1]) then 1 else 0;
    }
  }

  // ----- what every run keeps

  /** A change of c is visible and none of c's events since has been an advance that ends its work. */
  ghost predicate Owes(trace: seq<Event>, c: ConnId, k: int) {
    0 <= k < |trace| && trace[k] == Visible(c) && forall m | k < m < |trace| :: !Closes(trace[m], c)
  }

  /** A read returns the number of advances before it. */
  predicate ReadOk(trace: seq<Event>, i: nat)
    requires i < |trace|
  {
    trace[i].Read? ==> trace[i].value == Advances(trace[..i])
  }

  predicate Inv(s: State) {
    s.epoch == Advances(s.trace) && forall i | 0 <= i < |s.trace| :: ReadOk(s.trace, i)
  }

  /** What a run whose settlements start marked keeps besides: a settlement that can publish is marked, and
      whoever owes an advance is still on the way to it. */
  ghost predicate ConnOk(trace: seq<Event>, c: ConnId, k: Conn) {
    && (k.place == Settling && k.ranDdl ==> k.dirty)
    && (forall i {:trigger trace[i]} | Owes(trace, c, i) :: k.place == Running || (k.place == Settling && k.dirty))
  }

  ghost predicate Covered(s: State) {
    && (forall c | c in s.conns :: ConnOk(s.trace, c, s.conns[c]))
    && (forall e {:trigger e in s.trace} | e in s.trace && (e.Visible? || e.Left? || e.Settled?) :: e.c in s.conns)
  }

  lemma ReadsKeep(trace: seq<Event>, e: Event)
    requires (forall i | 0 <= i < |trace| :: ReadOk(trace, i)) && (e.Read? ==> e.value == Advances(trace))
    ensures forall i | 0 <= i < |trace + [e]| :: ReadOk(trace + [e], i)
  {
    var after := trace + [e];
    forall i | 0 <= i < |after| ensures ReadOk(after, i) {
      if i < |trace| {
        assert ReadOk(trace, i) && after[..i] == trace[..i];
      } else {
        assert after[..i] == trace;
      }
    }
  }

  /** A step leaves at most one event: reads return the epoch, advances count. */
  lemma StepEvent(s: State, step: Step) returns (e: Event)
    requires Enabled(s, step)
    ensures (Next(s, step).trace == s.trace && Next(s, step).epoch == s.epoch)
         || (Next(s, step).trace == s.trace + [e] && (e.Read? ==> e.value == s.epoch)
             && Next(s, step).epoch == s.epoch + if IsAdvance(e) then 1 else 0)
  {
    var t := Next(s, step);
    e := if |t.trace| > |s.trace| then t.trace[|s.trace|] else Read(0);
  }

  lemma OwesExtended(trace: seq<Event>, e: Event, c: ConnId, i: nat)
    requires Owes(trace + [e], c, i)
    ensures !Closes(e, c) && (Owes(trace, c, i) || (i == |trace| && e == Visible(c)))
  {
    var t := trace + [e];
    if i < |trace| {
      assert t[|trace|] == e;
      forall m | i < m < |trace| ensures !Closes(trace[m], c) {
        assert t[m] == trace[m];
      }
    }
  }

  lemma StepKeeps(s: State, step: Step)
    requires Inv(s) && Enabled(s, step)
    ensures Inv(Next(s, step))
  {
    var e := StepEvent(s, step);
    if Next(s, step).trace != s.trace {
      AdvancesSnoc(s.trace, e);
      ReadsKeep(s.trace, e);
    }
  }

  lemma {:induction false} RunKeeps(s: State, steps: seq<Step>)
    requires Inv(s) && Legal(s, steps)
    ensures Inv(After(s, steps))
    decreases |steps|
  {
    if steps != [] {
      StepKeeps(s, steps[0]);
      RunKeeps(Next(s, steps[0]), steps[1..]);
    }
  }

  /** One connection, over a step that leaves an event. */
  lemma ConnKeeps(s: State, step: Step, d: ConnId)
    requires Covered(s) && Enabled(s, step) && (step.StartSettle? ==> Marked(s, step.c)) && d in Next(s, step).conns
    ensures ConnOk(Next(s, step).trace, d, Next(s, step).conns[d])
  {
    var t := Next(s, step);
    if d in s.conns {
      assert ConnOk(s.trace, d, s.conns[d]);
    }
    forall i | Owes(t.trace, d, i)
      ensures t.conns[d].place == Running || (t.conns[d].place == Settling && t.conns[d].dirty)
    {
      if t.trace != s.trace {
        var e := t.trace[|s.trace|];
        assert t.trace == s.trace + [e];
        OwesExtended(s.trace, e, d, i);
      }
      if i < |s.trace| {
        assert s.trace[i] == Visible(d) && s.trace[i] in s.trace;
      }
    }
  }

  lemma StepCovers(s: State, step: Step)
    requires Covered(s) && Enabled(s, step) && (step.StartSettle? ==> Marked(s, step.c))
    ensures Covered(Next(s, step))
  {
    forall d | d in Next(s, step).conns ensures ConnOk(Next(s, step).trace, d, Next(s, step).conns[d]) {
      ConnKeeps(s, step, d);
    }
  }

  lemma {:induction false} RunCovers(s: State, steps: seq<Step>)
    requires Covered(s) && Legal(s, steps) && SettlesMarked(s, steps)
    ensures Covered(After(s, steps))
    decreases |steps|
  {
    if steps != [] {
      StepCovers(s, steps[0]);
      RunCovers(Next(s, steps[0]), steps[1..]);
    }
  }

  // ----- theorems

  /** If a change of c becomes visible between two equal reads, no advance lies between the reads: the
      change's own closing advance comes after the second read, and c is still inside the window. */
  lemma EqualReadsPrecedeTheAdvance(steps: seq<Step>, i: nat, k: nat, j: nat, c: ConnId)
    requires Legal(EMPTY, steps)
    requires i < k < j < |After(EMPTY, steps).trace|
    requires var t := After(EMPTY, steps).trace;
             t[i].Read? && t[j].Read? && t[i].value == t[j].value && t[k] == Visible(c)
    ensures var t := After(EMPTY, steps).trace;
            forall m | i <= m < j :: !IsAdvance(t[m])
  {
    var s := After(EMPTY, steps);
    RunKeeps(EMPTY, steps);
    forall m | i <= m < j ensures !IsAdvance(s.trace[m]) {
      if IsAdvance(s.trace[m]) {
        assert ReadOk(s.trace, i) && ReadOk(s.trace, j);
        AdvancesGrow(s.trace, i, j);
      }
    }
  }

  /** After a change becomes visible, its connection cannot rest, start another statement or open a
      transaction before the advance that follows the change, whenever every settlement started marked. */
  lemma VisibleChangeAlwaysAdvances(steps: seq<Step>, k: nat, c: ConnId)
    requires Legal(EMPTY, steps) && SettlesMarked(EMPTY, steps) && Owes(After(EMPTY, steps).trace, c, k)
    ensures var s := After(EMPTY, steps);
            && c in s.conns && s.conns[c].place != Resting
            && (Enabled(s, Leave(c)) ==> Next(s, Leave(c)).trace == s.trace + [Left(c)])
            && (forall ended | Enabled(s, EndSettle(c, ended)) ::
                Next(s, EndSettle(c, ended)).trace == s.trace + [Settled(c)])
            && (Enabled(s, Leave(c)) || Enabled(s, EndSettle(c, true)))
  {
    RunCovers(EMPTY, steps);
    var s := After(EMPTY, steps);
    assert s.trace[k] in s.trace;
    assert ConnOk(s.trace, c, s.conns[c]);
  }

  /** An unmarked settlement loses it: the change is published, the transaction ends, and no advance follows,
      so reads before and after the whole settlement are equal. */
  lemma UnmarkedSettlementLosesTheAdvance(s: State, c: ConnId) returns (steps: seq<Step>)
    requires At(s, c, Resting) && !Marked(s, c)
    ensures steps == [Observe, StartSettle(c), Publish(c), EndSettle(c, true), Observe] && Legal(s, steps)
    ensures At(After(s, steps), c, Resting)
    ensures After(s, steps).trace == s.trace + [Read(s.epoch), Visible(c), Read(s.epoch)]
  {
    steps := [Observe, StartSettle(c), Publish(c), EndSettle(c, true), Observe];
    var s1 := Next(s, Observe);
    var s2 := Next(s1, StartSettle(c));
    var s3 := Next(s2, Publish(c));
    var s4 := Next(s3, EndSettle(c, true));
    assert s4.trace == s.trace + [Read(s.epoch)] + [Visible(c)];
    assert steps[5..] == [];
    Unroll(s4, steps, 4);
    Unroll(s3, steps, 3);
    Unroll(s2, steps, 2);
    Unroll(s1, steps, 1);
    Unroll(s, steps, 0);
    assert steps[0..] == steps;
  }

  /** A settlement of c that publishes and leaves c at rest with the change's advance still owed. */
  ghost predicate Loses(s: State, c: ConnId, ended: bool)
    requires At(s, c, Resting)
  {
    var settling := Next(s, StartSettle(c));
    && Enabled(settling, Publish(c))
    && var n := Next(Next(settling, Publish(c)), EndSettle(c, ended));
       At(n, c, Resting) && Owes(n.trace, c, |s.trace|)
  }

  /** Whether its transaction ends or not, a settlement can lose its advance exactly when it starts unmarked. */
  lemma MarkIsExact(s: State, c: ConnId, ended: bool)
    requires At(s, c, Resting)
    ensures Loses(s, c, ended) <==> !Marked(s, c)
  {
    var settling := Next(s, StartSettle(c));
    if Enabled(settling, Publish(c)) {
      var published := Next(settling, Publish(c));
      var n := Next(published, EndSettle(c, ended));
      assert published.trace == s.trace + [Visible(c)];
      if s.conns[c].dirty {
        assert n.trace == s.trace + [Visible(c), Settled(c)];
        assert Closes(n.trace[|s.trace| + 1], c);
      } else {
        assert n.trace == published.trace;
      }
    }
  }

  /** The mark of c's transaction is lost in one step exactly by a BEGIN issued in it, or by a settlement that
      leaves it open, once it has run DDL. */
  lemma WhatLosesTheMark(s: State, step: Step, c: ConnId)
    requires c in s.conns && Marked(s, c) && Enabled(s, step)
    ensures c in Next(s, step).conns
    ensures !Marked(Next(s, step), c) <==>
              s.conns[c].ranDdl && ((step.Begin? && step.c == c) || step == EndSettle(c, false))
  {
  }

  /** A value read before a change is visible is never read again after the advance that closes it. */
  lemma OldValueIsNeverReadAgain(steps: seq<Step>, i: nat, k: nat, m: nat, j: nat, c: ConnId)
    requires Legal(EMPTY, steps)
    requires i < k < m < j < |After(EMPTY, steps).trace|
    requires var t := After(EMPTY, steps).trace;
             t[i].Read? && t[k] == Visible(c) && Closes(t[m], c) && t[j].Read?
    ensures var t := After(EMPTY, steps).trace; t[i].value < t[j].value
  {
    RunKeeps(EMPTY, steps);
    var t := After(EMPTY, steps).trace;
    assert IsAdvance(t[m]) && ReadOk(t, i) && ReadOk(t, j);
    AdvancesGrow(t, i, j);
  }

  // ----- the first read and the change's own enter

  /** c has entered a DDL execution and not left it. */
  function InDdl(trace: seq<Event>, c: ConnId): bool {
    if trace == [] then false
    else
      var e := trace[|trace| - 1];
      if e == Entered(c) then true
      else if e == Left(c) then false
      else InDdl(trace[..|trace| - 1], c)
  }

  lemma {:induction false} EnteredBefore(trace: seq<Event>, c: ConnId, k: nat) returns (e: nat)
    requires k <= |trace| && InDdl(trace[..k], c)
    ensures e < k && trace[e] == Entered(c)
    decreases k
  {
    if trace[k - 1] == Entered(c) {
      e := k - 1;
    } else {
      assert trace[..k][..k - 1] == trace[..k - 1];
      e := EnteredBefore(trace, c, k - 1);
    }
  }

  /** For a change that c's own DDL execution makes visible between equal reads, the first read came
      after that execution's enter. */
  lemma FirstReadFollowsEnter(steps: seq<Step>, i: nat, k: nat, j: nat, c: ConnId) returns (e: nat)
    requires Legal(EMPTY, steps)
    requires i < k < j < |After(EMPTY, steps).trace|
    requires var t := After(EMPTY, steps).trace;
             t[i].Read? && t[j].Read? && t[i].value == t[j].value && t[k] == Visible(c) && InDdl(t[..k], c)
    ensures e < i && After(EMPTY, steps).trace[e] == Entered(c)
  {
    var t := After(EMPTY, steps).trace;
    EqualReadsPrecedeTheAdvance(steps, i, k, j, c);
    e := EnteredBefore(t, c, k);
    assert IsAdvance(t[e]);
  }

  // ----- without DDL

  predicate Clean(s: State) {
    forall c | c in s.conns :: !s.conns[c].dirty && !s.conns[c].ranDdl && s.conns[c].place != Running
  }

  /** Runs without DDL never advance the epoch, whatever transactions they begin and settle. */
  lemma {:induction false} NoDdlNoAdvance(s: State, steps: seq<Step>)
    requires Clean(s) && Legal(s, steps) && (forall i | 0 <= i < |steps| :: !steps[i].Enter?)
    ensures After(s, steps).epoch == s.epoch
    decreases |steps|
  {
    if steps != [] {
      assert !steps[0].Enter?;
      NoDdlNoAdvance(Next(s, steps[0]), steps[1..]);
    }
  }

  // ----- when equal reads do mean that nothing changed

  /** No DDL is executing and no open transaction has run any. */
  predicate Calm(s: State) {
    forall c | c in s.conns :: s.conns[c].place != Running && !s.conns[c].ranDdl
  }

  /** From position i on, nothing has become visible while the epoch is still v. */
  ghost predicate Unchanged(s: State, i: nat, v: nat) {
    && v <= s.epoch && i <= |s.trace|
    && (s.epoch == v ==> Calm(s))
    && (forall k, j | i <= k < j < |s.trace| && s.trace[k].Visible? && s.trace[j].Read? :: s.trace[j].value != v)
    && (s.epoch == v ==> forall k | i <= k < |s.trace| :: !s.trace[k].Visible?)
  }

  lemma UnchangedStep(s: State, step: Step, i: nat, v: nat)
    requires Unchanged(s, i, v) && Enabled(s, step)
    ensures Unchanged(Next(s, step), i, v)
  {
    var t := Next(s, step);
    if t.trace != s.trace {
      var e := t.trace[|s.trace|];
      assert t.trace == s.trace + [e];
      forall k | 0 <= k < |s.trace| ensures t.trace[k] == s.trace[k] {
      }
    }
  }

  lemma {:induction false} UnchangedRun(s: State, steps: seq<Step>, i: nat, v: nat)
    requires Unchanged(s, i, v) && Legal(s, steps)
    ensures Unchanged(After(s, steps), i, v)
    decreases |steps|
  {
    if steps != [] {
      UnchangedStep(s, steps[0], i, v);
      UnchangedRun(Next(s, steps[0]), steps[1..], i, v);
    }
  }

  /** The interface promises that equal reads bracket a window with no visible schema change. A
      continuation from s, starting with a read there, breaks that promise. */
  ghost predicate Breaks(s: State, steps: seq<Step>, k: nat, j: nat) {
    && steps != [] && steps[0] == Observe && Legal(s, steps)
    && var t := After(s, steps).trace;
       |s.trace| < k < j < |t| && t[k].Visible? && t[j] == Read(s.epoch)
  }

  /** The promise is kept from a calm first read. */
  lemma CalmReadsAreExact(s: State, steps: seq<Step>, k: nat, j: nat)
    requires Calm(s)
    ensures !Breaks(s, steps, k, j)
  {
    if Breaks(s, steps, k, j) {
      var n := Next(s, Observe);
      assert Unchanged(n, |s.trace|, s.epoch);
      UnchangedRun(n, steps[1..], |s.trace|, s.epoch);
      assert false;
    }
  }

  /** From any other first read some continuation breaks it, so calm is exactly the condition. */
  lemma RestlessReadsCanBreak(s: State) returns (steps: seq<Step>, k: nat, j: nat)
    requires !Calm(s)
    ensures Breaks(s, steps, k, j)
  {
    var c :| c in s.conns && (s.conns[c].place == Running || s.conns[c].ranDdl);
    var n := Next(s, Observe);
    k, j := |s.trace| + 1, |s.trace| + 2;
    var tail := [Publish(c), Observe];
    if s.conns[c].place == Resting {
      steps := [Observe, StartSettle(c)] + tail;
      var settling := Next(n, StartSettle(c));
      TwoMore(settling, c);
      assert steps[1..] == [StartSettle(c)] + tail && steps[1..][1..] == tail;
    } else {
      steps := [Observe] + tail;
      TwoMore(n, c);
      assert steps[1..] == tail;
    }
  }

  lemma TwoMore(s: State, c: ConnId)
    requires Enabled(s, Publish(c))
    ensures Legal(s, [Publish(c), Observe])
    ensures After(s, [Publish(c), Observe]).trace == s.trace + [Visible(c), Read(s.epoch)]
  {
    var steps := [Publish(c), Observe];
    var n := Next(s, Publish(c));
    assert steps[1..] == [Observe] && [Observe][1..] == [];
    assert Legal(n, [Observe]) && After(n, [Observe]) == Next(n, Observe);
  }

  /** A BEGIN inside a transaction clears the mark even when the engine rejects it... */
  lemma NestedBeginLosesTheAdvance(s: State, c: ConnId, ok: bool) returns (steps: seq<Step>)
    requires At(s, c, Resting) && s.conns[c].ranDdl
    ensures Legal(s, steps) && steps != [] && steps[0] == Begin(c, ok) && At(After(s, steps), c, Resting)
    ensures After(s, steps).trace == s.trace + [Read(s.epoch), Visible(c), Read(s.epoch)]
  {
    var n := Next(s, Begin(c, ok));
    var rest := UnmarkedSettlementLosesTheAdvance(n, c);
    steps := [Begin(c, ok)] + rest;
    assert steps[1..] == rest;
  }

  /** ... and so does a COMMIT that fails and leaves the transaction open: after its own advance, the next
      settlement publishes with none. */
  lemma FailedCommitLosesTheAdvance(s: State, c: ConnId) returns (steps: seq<Step>)
    requires At(s, c, Resting) && s.conns[c].ranDdl && s.conns[c].dirty
    ensures Legal(s, steps) && [StartSettle(c), EndSettle(c, false)] <= steps && At(After(s, steps), c, Resting)
    ensures After(s, steps).trace
         == s.trace + [Settled(c)] + [Read(s.epoch + 1), Visible(c), Read(s.epoch + 1)]
  {
    var settling := Next(s, StartSettle(c));
    var open := Next(settling, EndSettle(c, false));
    var rest := UnmarkedSettlementLosesTheAdvance(open, c);
    steps := [StartSettle(c), EndSettle(c, false)] + rest;
    assert steps[1..] == [EndSettle(c, false)] + rest && steps[1..][1..] == rest;
    assert Legal(settling, steps[1..]) && After(settling, steps[1..]) == After(open, rest);
  }

  lemma Unroll(s: State, steps: seq<Step>, i: nat)
    requires i < |steps| && Enabled(s, steps[i]) && Legal(Next(s, steps[i]), steps[i + 1..])
    ensures Legal(s, steps[i..])
    ensures After(s, steps[i..]) == After(Next(s, steps[i]), steps[i + 1..])
  {
    assert steps[i..][1..] == steps[i + 1..];
  }
}
