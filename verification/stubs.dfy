/** The control flow of every stub that works on a connection, as a program over guarded
    transitions, admissions and engine calls, and the bracket discipline those programs keep.

    `Branch` is a choice the engine's answer or the stub's own data decides; every early exit of the
    C code is a path of the tree. A poisoned child (status not OK) admits nothing more, so a path on
    which the status is set goes straight to the stub's tail. */
module Stubs {
  import opened Native

  /** Engine entries, grouped by what must hold around them. */
  datatype Call =
    // interruptible user subcalls
    | Extract | PrepareExtracted | ExecutePrepared | Fetch | BeginSql | CommitSql
    | AppendChunk | FlushAppender | CloseAppenderFlush
    // noninterruptible but latch-admitted subcalls
    | Bind | CreateAppender | AddColumn | LinkFile
    // calls no latch can refuse
    | RollbackSql | LegacyControl | Connect
    // cleanup
    | Destroy | ClearBuffer | Disconnect
  {
    predicate UserCall() {
      Extract? || PrepareExtracted? || ExecutePrepared? || Fetch? || BeginSql? || CommitSql?
      || AppendChunk? || FlushAppender? || CloseAppenderFlush?
    }

    predicate ScalarCall() {
      Bind? || CreateAppender? || AddColumn? || LinkFile?
    }

    predicate CleanupCall() {
      Destroy? || ClearBuffer? || Disconnect?
    }
  }

  datatype Prog =
    | Halt
    | Guarded(t: Transition, next: Prog)
    | Admit(interruptible: bool, admitted: Prog, refused: Prog)
    | Engine(call: Call, after: Prog)
    | Branch(left: Prog, right: Prog)

  /** What the program's own position says about admission: none open, one subcall licensed, or the
      licensed user subcall already made but its end not yet published. */
  datatype Lane = Off | UserReady | UserSpent | ScalarReady {
    predicate User() { UserReady? || UserSpent? }
    predicate Ready() { UserReady? || ScalarReady? }
  }

  datatype Mode = Mode(foreign: bool, depth: nat, closing: bool, lane: Lane)

  predicate CallAllowed(m: Mode, call: Call) {
    if call.UserCall() then m.lane == UserReady
    else if call.ScalarCall() then m.lane == ScalarReady
    else if call.CleanupCall() then m.depth > 0 && (call.Disconnect? ==> m.closing)
    else m.foreign && m.depth == 0 && !m.closing && m.lane == Off
  }

  function LaneAfter(lane: Lane, call: Call): Lane {
    if call.UserCall() then UserSpent else if call.ScalarCall() then Off else lane
  }

  /** Every path of p, started in mode m, satisfies the check of each bracket it passes, makes each
      engine call only where it is licensed, and ends with no bracket and no admission open. */
  predicate Balanced(p: Prog, m: Mode) {
    match p
    case Halt =>
      !m.foreign && m.depth == 0 && m.lane == Off
    case Guarded(t, next) =>
      (match t
       case WorkBegin =>
         !m.closing && !m.foreign && m.depth == 0 && m.lane == Off && Balanced(next, m.(foreign := true))
       case WorkEnd =>
         m.foreign && m.depth == 0 && Balanced(next, m.(foreign := false, lane := Off))
       case CallEnd =>
         m.foreign && m.depth == 0 && !m.closing && Balanced(next, m.(lane := Off))
       case CleanupBegin =>
         Balanced(next, m.(depth := m.depth + 1, lane := Off))
       case CleanupEnd =>
         m.depth > 0 && m.lane == Off && Balanced(next, m.(depth := m.depth - 1))
       case CloseBegin => false)
    case Admit(interruptible, admitted, refused) =>
      && m.foreign && m.depth == 0 && !m.closing && !m.lane.User()
      && Balanced(admitted, m.(lane := if interruptible then UserReady else ScalarReady))
      && Balanced(refused, m.(lane := Off))
    case Engine(call, after) =>
      CallAllowed(m, call) && Balanced(after, m.(lane := LaneAfter(m.lane, call)))
    case Branch(left, right) =>
      Balanced(left, m) && Balanced(right, m)
  }

  // ----- building blocks; k is what runs after the piece

  function Optional(call: Call, k: Prog): Prog {
    Branch(Engine(call, k), k)
  }

  function Bracket(k: Prog): Prog {
    Guarded(CleanupBegin, Engine(Destroy, Guarded(CleanupEnd, k)))
  }

  /** `check` after a failed appender call: the error data, if any, is destroyed in a bracket. */
  function CheckFailed(k: Prog): Prog {
    Branch(Bracket(k), k)
  }

  function End(k: Prog): Prog {
    Guarded(WorkEnd, k)
  }

  function ClearWork(k: Prog): Prog {
    Guarded(CleanupBegin,
      Optional(Destroy, Optional(Destroy, Optional(Destroy, Guarded(CleanupEnd, k)))))
  }

  /** An admitted interruptible subcall whose end is published before its result is inspected. */
  function UserSubcall(call: Call, k: Prog, refused: Prog): Prog {
    Admit(true, Engine(call, Guarded(CallEnd, k)), refused)
  }

  function ScalarSubcall(call: Call, k: Prog, refused: Prog): Prog {
    Admit(false, Engine(call, k), refused)
  }

  // ----- resource_stubs.c

  /** The cleanup every execution ends in; it also publishes the end of a last user subcall. */
  function ExecuteExit(k: Prog): Prog {
    Guarded(CleanupBegin, ClearWork(Guarded(CleanupEnd, End(k))))
  }

  function RunPrepared(call: Call, exit: Prog): Prog {
    Admit(true, Engine(call, exit), exit)
  }

  function PlainExecute(exit: Prog): Prog {
    UserSubcall(Extract,
      Branch(exit, UserSubcall(PrepareExtracted, Branch(exit, RunPrepared(ExecutePrepared, exit)), exit)),
      exit)
  }

  function Execute(legacy: bool, k: Prog): Prog {
    var exit := ExecuteExit(k);
    Guarded(WorkBegin, if legacy then Engine(LegacyControl, exit) else PlainExecute(exit))
  }

  datatype Control = Begin | Commit | Rollback

  function ExecuteControl(control: Control, k: Prog): Prog {
    Guarded(WorkBegin, ControlProgram(control, ExecuteExit(k)))
  }

  function ControlSql(control: Control): Call {
    match control
    case Begin => BeginSql
    case Commit => CommitSql
    case Rollback => RollbackSql
  }

  /** BEGIN and COMMIT ask the latch; ROLLBACK does not. */
  function ControlProgram(control: Control, exit: Prog): Prog {
    if control == Rollback then Engine(RollbackSql, exit) else RunPrepared(ControlSql(control), exit)
  }

  function ConnectStub(k: Prog): Prog {
    Guarded(WorkBegin, Engine(Connect, End(k)))
  }

  function AdmitLocalFile(k: Prog): Prog {
    Guarded(WorkBegin, Admit(false, End(k), End(k)))
  }

  /** What connection_clear does after native_close_begin. */
  function AfterCloseBegin(k: Prog): Prog {
    Guarded(CleanupBegin, ClearWork(Optional(Disconnect, Guarded(CleanupEnd, k))))
  }

  // ----- prepared_stubs.c, typed_stubs.c, local_file_stubs.c

  function Prepare(k: Prog): Prog {
    var exit := Guarded(CleanupBegin, Optional(Destroy, Guarded(CleanupEnd, End(k))));
    Guarded(WorkBegin,
      UserSubcall(Extract, Branch(exit, UserSubcall(PrepareExtracted, exit, exit)), exit))
  }

  function ExecutePreparedStub(k: Prog): Prog {
    Guarded(WorkBegin, UserSubcall(ExecutePrepared, End(k), End(k)))
  }

  function FetchStub(k: Prog): Prog {
    Guarded(WorkBegin,
      Guarded(CleanupBegin, Optional(Destroy,
        Guarded(CleanupEnd, UserSubcall(Fetch, End(k), End(k))))))
  }

  function ClearResult(k: Prog): Prog {
    Guarded(CleanupBegin, Optional(Destroy, Optional(Destroy, Guarded(CleanupEnd, k))))
  }

  function ClearPrepared(k: Prog): Prog {
    Guarded(CleanupBegin, ClearResult(Optional(Destroy, Optional(Destroy, Guarded(CleanupEnd, k)))))
  }

  /** bind_null, bind_float, bind_string, reset and the admitted file link. */
  function OneScalar(call: Call, k: Prog): Prog {
    Guarded(WorkBegin, ScalarSubcall(call, End(k), End(k)))
  }

  function BindTemporal(k: Prog): Prog {
    ScalarSubcall(Bind, Bracket(End(k)), Bracket(End(k)))
  }

  function BindInt64(k: Prog): Prog {
    Guarded(WorkBegin,
      Admit(false, Branch(Engine(Bind, End(k)), Branch(End(k), BindTemporal(k))), End(k)))
  }

  // ----- appender_stubs.c

  function CreateTail(k: Prog): Prog {
    Guarded(CleanupBegin,
      Optional(Destroy, Engine(Destroy, Optional(Destroy, Optional(Destroy,
        Guarded(CleanupEnd, End(k)))))))
  }

  function ColumnTypes(columns: nat, tail: Prog): Prog {
    if columns == 0 then tail
    else Admit(false, Bracket(ColumnTypes(columns - 1, tail)), tail)
  }

  function CreateNative(columns: nat, tail: Prog): Prog {
    ScalarSubcall(CreateAppender,
      Branch(CheckFailed(tail), Admit(false, Branch(tail, ColumnTypes(columns, tail)), tail)),
      tail)
  }

  function ReadMetadata(columns: nat, tail: Prog): Prog {
    var accepted := Admit(false, Branch(tail, CreateNative(columns, tail)), tail);
    var extra := UserSubcall(Fetch, Branch(Bracket(tail), Branch(tail, accepted)), tail);
    UserSubcall(Fetch, Branch(tail, extra), tail)
  }

  function QueryMetadata(columns: nat, tail: Prog): Prog {
    var execute := UserSubcall(ExecutePrepared, Branch(tail, ReadMetadata(columns, tail)), tail);
    var bindTable := ScalarSubcall(Bind, Branch(tail, execute), tail);
    var bindSchema := ScalarSubcall(Bind, Branch(tail, bindTable), tail);
    var prepare := UserSubcall(PrepareExtracted, Branch(tail, bindSchema), tail);
    UserSubcall(Extract, Branch(tail, prepare), tail)
  }

  function CreateAppenderStub(columns: nat, k: Prog): Prog {
    Guarded(WorkBegin, QueryMetadata(columns, CreateTail(k)))
  }

  function AppendChunks(chunks: nat, k: Prog): Prog {
    if chunks == 0 then k
    else UserSubcall(AppendChunk, Branch(AppendChunks(chunks - 1, k), CheckFailed(k)), k)
  }

  function AppendStaged(chunks: nat, shrink: bool, k: Prog): Prog {
    Guarded(WorkBegin, AppendChunks(chunks, if shrink then Bracket(End(k)) else End(k)))
  }

  function OneUser(call: Call, k: Prog): Prog {
    UserSubcall(call, Branch(k, CheckFailed(k)), k)
  }

  function FlushStub(k: Prog): Prog {
    Guarded(WorkBegin, OneUser(FlushAppender, End(k)))
  }

  /** close_native on an open appender: the buffer is cleared before the appender is destroyed. */
  function DestroyAppender(k: Prog): Prog {
    var destroy := Engine(Destroy, Guarded(CleanupEnd, k));
    Guarded(CleanupBegin, Engine(ClearBuffer, Branch(destroy, CheckFailed(destroy))))
  }

  function CloseAppender(flush: bool, k: Prog): Prog {
    if flush then Guarded(WorkBegin, OneUser(CloseAppenderFlush, End(DestroyAppender(k))))
    else DestroyAppender(k)
  }

  function AddColumns(columns: nat, k: Prog): Prog {
    if columns == 0 then k
    else ScalarSubcall(AddColumn, Branch(AddColumns(columns - 1, k), CheckFailed(k)), k)
  }

  function SelectColumns(columns: nat, staged: bool, k: Prog): Prog {
    var work := Guarded(WorkBegin, AddColumns(columns, End(k)));
    if staged then Bracket(work) else work
  }

  // ----- all of them

  datatype Stub =
    | StubConnect | StubExecute(legacy: bool) | StubControl(control: Control)
    | StubAdmitFile | StubPublishFile
    | StubPrepare | StubExecutePrepared | StubFetch | StubCloseResult | StubClosePrepared
    | StubBind | StubBindInt64
    | StubCreateAppender(columns: nat) | StubAppendStaged(chunks: nat, shrink: bool)
    | StubFlush | StubCloseAppender(flush: bool) | StubSelect(count: nat, staged: bool)

  function Program(stub: Stub, k: Prog): Prog {
    match stub
    case StubConnect => ConnectStub(k)
    case StubExecute(legacy) => Execute(legacy, k)
    case StubControl(control) => ExecuteControl(control, k)
    case StubAdmitFile => AdmitLocalFile(k)
    case StubPublishFile => OneScalar(LinkFile, k)
    case StubPrepare => Prepare(k)
    case StubExecutePrepared => ExecutePreparedStub(k)
    case StubFetch => FetchStub(k)
    case StubCloseResult => ClearResult(k)
    case StubClosePrepared => ClearPrepared(k)
    case StubBind => OneScalar(Bind, k)
    case StubBindInt64 => BindInt64(k)
    case StubCreateAppender(columns) => CreateAppenderStub(columns, k)
    case StubAppendStaged(chunks, shrink) => AppendStaged(chunks, shrink, k)
    case StubFlush => FlushStub(k)
    case StubCloseAppender(flush) => CloseAppender(flush, k)
    case StubSelect(count, staged) => SelectColumns(count, staged, k)
  }

  // ----- the discipline of each building block, for any surrounding mode

  predicate Quiet(m: Mode) {
    !m.foreign && m.depth == 0 && m.lane == Off
  }

  predicate Working(m: Mode) {
    m.foreign && m.depth == 0 && m.lane == Off && !m.closing
  }

  /** k may run here whether or not the last subcall's end has been published. */
  predicate Tail(k: Prog, m: Mode) {
    forall lane :: Balanced(k, m.(lane := lane))
  }

  lemma OptionalKeeps(call: Call, k: Prog, m: Mode)
    requires Balanced(k, m) && call.CleanupCall() && m.depth > 0 && (call.Disconnect? ==> m.closing)
    ensures Balanced(Optional(call, k), m)
  {
  }

  lemma CleanupEndKeeps(k: Prog, m: Mode)
    requires Balanced(k, m.(lane := Off))
    ensures Balanced(Guarded(CleanupEnd, k), m.(depth := m.depth + 1, lane := Off))
  {
    assert m.(depth := m.depth + 1, lane := Off).(depth := m.depth) == m.(lane := Off);
  }

  lemma BracketKeeps(k: Prog, m: Mode)
    requires Balanced(k, m.(lane := Off))
    ensures Balanced(Bracket(k), m)
  {
    CleanupEndKeeps(k, m);
  }

  lemma CheckFailedKeeps(k: Prog, m: Mode)
    requires Balanced(k, m.(lane := Off)) && m.lane == Off
    ensures Balanced(CheckFailed(k), m)
  {
    BracketKeeps(k, m);
    assert m.(lane := Off) == m;
  }

  lemma EndKeeps(k: Prog, m: Mode)
    requires m.foreign && m.depth == 0 && Balanced(k, m.(foreign := false, lane := Off))
    ensures Balanced(End(k), m)
  {
  }

  lemma ClearWorkKeeps(k: Prog, m: Mode)
    requires Balanced(k, m.(lane := Off))
    ensures Balanced(ClearWork(k), m)
  {
    var d := m.(depth := m.depth + 1, lane := Off);
    CleanupEndKeeps(k, m);
    var p := Guarded(CleanupEnd, k);
    OptionalKeeps(Destroy, p, d);
    OptionalKeeps(Destroy, Optional(Destroy, p), d);
    OptionalKeeps(Destroy, Optional(Destroy, Optional(Destroy, p)), d);
  }

  lemma UserSubcallKeeps(call: Call, k: Prog, refused: Prog, m: Mode)
    requires m.foreign && m.depth == 0 && !m.closing && !m.lane.User()
    requires call.UserCall() && Balanced(k, m.(lane := Off)) && Balanced(refused, m.(lane := Off))
    ensures Balanced(UserSubcall(call, k, refused), m)
  {
    assert m.(lane := UserSpent).(lane := Off) == m.(lane := Off);
    assert Balanced(Guarded(CallEnd, k), m.(lane := UserSpent));
    assert Balanced(Engine(call, Guarded(CallEnd, k)), m.(lane := UserReady));
  }

  lemma ScalarSubcallKeeps(call: Call, k: Prog, refused: Prog, m: Mode)
    requires m.foreign && m.depth == 0 && !m.closing && !m.lane.User()
    requires call.ScalarCall() && Balanced(k, m.(lane := Off)) && Balanced(refused, m.(lane := Off))
    ensures Balanced(ScalarSubcall(call, k, refused), m)
  {
    assert Balanced(Engine(call, k), m.(lane := ScalarReady));
  }

  lemma ExecuteExitKeeps(k: Prog, m: Mode)
    requires m.foreign && m.depth == 0 && Balanced(k, m.(foreign := false, lane := Off))
    ensures Balanced(ExecuteExit(k), m)
  {
    var d := m.(depth := 1, lane := Off);
    EndKeeps(k, m.(lane := Off));
    CleanupEndKeeps(End(k), m);
    assert d.(lane := Off) == d;
    ClearWorkKeeps(Guarded(CleanupEnd, End(k)), d);
  }

  lemma RunPreparedKeeps(call: Call, exit: Prog, m: Mode)
    requires Working(m) && call.UserCall() && Tail(exit, m)
    ensures Balanced(RunPrepared(call, exit), m)
  {
    assert Balanced(exit, m.(lane := UserSpent));
    assert Balanced(exit, m.(lane := Off));
    assert m.(lane := UserReady).(lane := UserSpent) == m.(lane := UserSpent);
    assert Balanced(Engine(call, exit), m.(lane := UserReady));
  }

  lemma ExecuteKeeps(legacy: bool, k: Prog, m: Mode)
    requires Quiet(m) && !m.closing && Balanced(k, m)
    ensures Balanced(Execute(legacy, k), m)
  {
    var w := m.(foreign := true);
    var exit := ExecuteExit(k);
    forall lane ensures Balanced(exit, w.(lane := lane)) {
      assert w.(lane := lane).(foreign := false, lane := Off) == m;
      ExecuteExitKeeps(k, w.(lane := lane));
    }
    assert Balanced(exit, w.(lane := Off)) && w.(lane := Off) == w;
    if legacy {
      assert Balanced(Engine(LegacyControl, exit), w);
    } else {
      RunPreparedKeeps(ExecutePrepared, exit, w);
      var run := RunPrepared(ExecutePrepared, exit);
      UserSubcallKeeps(PrepareExtracted, Branch(exit, run), exit, w);
      var prepare := UserSubcall(PrepareExtracted, Branch(exit, run), exit);
      UserSubcallKeeps(Extract, Branch(exit, prepare), exit, w);
    }
  }

  lemma ControlKeeps(control: Control, k: Prog, m: Mode)
    requires Quiet(m) && !m.closing && Balanced(k, m)
    ensures Balanced(ExecuteControl(control, k), m)
  {
    var w := m.(foreign := true);
    var exit := ExecuteExit(k);
    forall lane ensures Balanced(exit, w.(lane := lane)) {
      assert w.(lane := lane).(foreign := false, lane := Off) == m;
      ExecuteExitKeeps(k, w.(lane := lane));
    }
    assert Balanced(exit, w.(lane := Off)) && w.(lane := Off) == w;
    match control
    case Begin => RunPreparedKeeps(BeginSql, exit, w);
    case Commit => RunPreparedKeeps(CommitSql, exit, w);
    case Rollback => assert Balanced(Engine(RollbackSql, exit), w);
  }

  /** After native_close_begin, connection_clear keeps its brackets on the closing owner. */
  lemma AfterCloseKeeps(k: Prog, m: Mode)
    requires Quiet(m) && m.closing && Balanced(k, m)
    ensures Balanced(AfterCloseBegin(k), m)
  {
    var d := m.(depth := 1);
    CleanupEndKeeps(k, m);
    OptionalKeeps(Disconnect, Guarded(CleanupEnd, k), d);
    assert d.(lane := Off) == d;
    ClearWorkKeeps(Optional(Disconnect, Guarded(CleanupEnd, k)), d);
  }

  lemma PrepareKeeps(k: Prog, m: Mode)
    requires Quiet(m) && !m.closing && Balanced(k, m)
    ensures Balanced(Prepare(k), m)
  {
    var w := m.(foreign := true);
    EndKeeps(k, w);
    var exit := Guarded(CleanupBegin, Optional(Destroy, Guarded(CleanupEnd, End(k))));
    CleanupEndKeeps(End(k), w);
    OptionalKeeps(Destroy, Guarded(CleanupEnd, End(k)), w.(depth := w.depth + 1, lane := Off));
    UserSubcallKeeps(PrepareExtracted, exit, exit, w);
    UserSubcallKeeps(Extract, Branch(exit, UserSubcall(PrepareExtracted, exit, exit)), exit, w);
  }

  lemma FetchKeeps(k: Prog, m: Mode)
    requires Quiet(m) && !m.closing && Balanced(k, m)
    ensures Balanced(FetchStub(k), m)
  {
    var w := m.(foreign := true);
    EndKeeps(k, w);
    UserSubcallKeeps(Fetch, End(k), End(k), w);
    CleanupEndKeeps(UserSubcall(Fetch, End(k), End(k)), w);
    OptionalKeeps(Destroy, Guarded(CleanupEnd, UserSubcall(Fetch, End(k), End(k))), w.(depth := 1));
  }

  lemma ClearResultKeeps(k: Prog, m: Mode)
    requires Balanced(k, m.(lane := Off))
    ensures Balanced(ClearResult(k), m)
  {
    var d := m.(depth := m.depth + 1, lane := Off);
    CleanupEndKeeps(k, m);
    OptionalKeeps(Destroy, Guarded(CleanupEnd, k), d);
    OptionalKeeps(Destroy, Optional(Destroy, Guarded(CleanupEnd, k)), d);
  }

  lemma ClearPreparedKeeps(k: Prog, m: Mode)
    requires Quiet(m) && Balanced(k, m)
    ensures Balanced(ClearPrepared(k), m)
  {
    var d := m.(depth := 1);
    CleanupEndKeeps(k, m);
    OptionalKeeps(Destroy, Guarded(CleanupEnd, k), d);
    OptionalKeeps(Destroy, Optional(Destroy, Guarded(CleanupEnd, k)), d);
    ClearResultKeeps(Optional(Destroy, Optional(Destroy, Guarded(CleanupEnd, k))), d);
  }

  lemma BindInt64Keeps(k: Prog, m: Mode)
    requires Quiet(m) && !m.closing && Balanced(k, m)
    ensures Balanced(BindInt64(k), m)
  {
    var w := m.(foreign := true);
    var ready := w.(lane := ScalarReady);
    EndKeeps(k, w);
    EndKeeps(k, ready);
    BracketKeeps(End(k), w);
    ScalarSubcallKeeps(Bind, Bracket(End(k)), Bracket(End(k)), ready);
    assert Balanced(Engine(Bind, End(k)), ready);
    assert Balanced(Branch(End(k), BindTemporal(k)), ready);
  }

  lemma CreateTailKeeps(k: Prog, m: Mode)
    requires m.foreign && m.depth == 0 && Balanced(k, m.(foreign := false, lane := Off))
    ensures Balanced(CreateTail(k), m)
  {
    var d := m.(depth := 1, lane := Off);
    EndKeeps(k, m.(lane := Off));
    CleanupEndKeeps(End(k), m);
    var p := Guarded(CleanupEnd, End(k));
    OptionalKeeps(Destroy, p, d);
    OptionalKeeps(Destroy, Optional(Destroy, p), d);
    var q := Engine(Destroy, Optional(Destroy, Optional(Destroy, p)));
    assert Balanced(q, d);
    OptionalKeeps(Destroy, q, d);
  }

  lemma {:induction false} ColumnTypesKeep(columns: nat, tail: Prog, m: Mode)
    requires m.foreign && m.depth == 0 && !m.closing && !m.lane.User() && Tail(tail, m)
    ensures Balanced(ColumnTypes(columns, tail), m)
    decreases columns
  {
    assert Balanced(tail, m.(lane := m.lane)) && m.(lane := m.lane) == m;
    assert Balanced(tail, m.(lane := Off));
    if columns > 0 {
      var off := m.(lane := Off);
      ColumnTypesKeep(columns - 1, tail, off) by { TailMoves(tail, m, Off); }
      assert m.(lane := ScalarReady).(lane := Off) == off;
      BracketKeeps(ColumnTypes(columns - 1, tail), m.(lane := ScalarReady));
    }
  }

  lemma TailMoves(tail: Prog, m: Mode, lane: Lane)
    requires Tail(tail, m)
    ensures Tail(tail, m.(lane := lane))
  {
    forall other ensures Balanced(tail, m.(lane := lane).(lane := other)) {
      assert m.(lane := lane).(lane := other) == m.(lane := other);
    }
  }

  lemma CreateNativeKeeps(columns: nat, tail: Prog, m: Mode)
    requires m.foreign && m.depth == 0 && !m.closing && !m.lane.User() && Tail(tail, m)
    ensures Balanced(CreateNative(columns, tail), m)
  {
    var off := m.(lane := Off);
    var ready := m.(lane := ScalarReady);
    TailMoves(tail, m, ScalarReady);
    ColumnTypesKeep(columns, tail, ready);
    assert Balanced(tail, off) && Balanced(tail, ready);
    var types := Admit(false, Branch(tail, ColumnTypes(columns, tail)), tail);
    assert off.(lane := ScalarReady) == ready && off.(lane := Off) == off;
    assert Balanced(types, off);
    CheckFailedKeeps(tail, off);
    ScalarSubcallKeeps(CreateAppender, Branch(CheckFailed(tail), types), tail, m);
  }

  lemma ReadMetadataKeeps(columns: nat, tail: Prog, m: Mode)
    requires Working(m) && Tail(tail, m)
    ensures Balanced(ReadMetadata(columns, tail), m)
  {
    assert Balanced(tail, m.(lane := Off)) && m.(lane := Off) == m;
    assert Balanced(tail, m.(lane := ScalarReady));
    TailMoves(tail, m, ScalarReady);
    CreateNativeKeeps(columns, tail, m.(lane := ScalarReady));
    var accepted := Admit(false, Branch(tail, CreateNative(columns, tail)), tail);
    assert Balanced(accepted, m);
    BracketKeeps(tail, m);
    UserSubcallKeeps(Fetch, Branch(Bracket(tail), Branch(tail, accepted)), tail, m);
    var extra := UserSubcall(Fetch, Branch(Bracket(tail), Branch(tail, accepted)), tail);
    UserSubcallKeeps(Fetch, Branch(tail, extra), tail, m);
  }

  lemma QueryMetadataKeeps(columns: nat, tail: Prog, m: Mode)
    requires Working(m) && Tail(tail, m)
    ensures Balanced(QueryMetadata(columns, tail), m)
  {
    assert Balanced(tail, m.(lane := Off)) && m.(lane := Off) == m;
    ReadMetadataKeeps(columns, tail, m);
    UserGate(ExecutePrepared, ReadMetadata(columns, tail), tail, m);
    var execute := UserSubcall(ExecutePrepared, Branch(tail, ReadMetadata(columns, tail)), tail);
    ScalarGate(Bind, execute, tail, m);
    var bindTable := ScalarSubcall(Bind, Branch(tail, execute), tail);
    ScalarGate(Bind, bindTable, tail, m);
    var bindSchema := ScalarSubcall(Bind, Branch(tail, bindTable), tail);
    UserGate(PrepareExtracted, bindSchema, tail, m);
    UserGate(Extract, UserSubcall(PrepareExtracted, Branch(tail, bindSchema), tail), tail, m);
  }

  /** A gate of the metadata query: on to next, or on any refusal or failure to the tail. */
  lemma UserGate(call: Call, next: Prog, tail: Prog, m: Mode)
    requires Working(m) && call.UserCall() && Balanced(next, m) && Balanced(tail, m)
    ensures Balanced(UserSubcall(call, Branch(tail, next), tail), m)
  {
    assert m.(lane := Off) == m;
    UserSubcallKeeps(call, Branch(tail, next), tail, m);
  }

  lemma ScalarGate(call: Call, next: Prog, tail: Prog, m: Mode)
    requires Working(m) && call.ScalarCall() && Balanced(next, m) && Balanced(tail, m)
    ensures Balanced(ScalarSubcall(call, Branch(tail, next), tail), m)
  {
    assert m.(lane := Off) == m;
    ScalarSubcallKeeps(call, Branch(tail, next), tail, m);
  }

  lemma CreateAppenderKeeps(columns: nat, k: Prog, m: Mode)
    requires Quiet(m) && !m.closing && Balanced(k, m)
    ensures Balanced(CreateAppenderStub(columns, k), m)
  {
    var w := m.(foreign := true);
    forall lane ensures Balanced(CreateTail(k), w.(lane := lane)) {
      assert w.(lane := lane).(foreign := false, lane := Off) == m;
      CreateTailKeeps(k, w.(lane := lane));
    }
    QueryMetadataKeeps(columns, CreateTail(k), w);
  }

  lemma {:induction false} AppendChunksKeep(chunks: nat, k: Prog, m: Mode)
    requires Working(m) && Balanced(k, m)
    ensures Balanced(AppendChunks(chunks, k), m)
    decreases chunks
  {
    if chunks > 0 {
      AppendChunksKeep(chunks - 1, k, m);
      assert m.(lane := Off) == m;
      CheckFailedKeeps(k, m);
      UserSubcallKeeps(AppendChunk, Branch(AppendChunks(chunks - 1, k), CheckFailed(k)), k, m);
    }
  }

  lemma {:induction false} AddColumnsKeep(columns: nat, k: Prog, m: Mode)
    requires Working(m) && Balanced(k, m)
    ensures Balanced(AddColumns(columns, k), m)
    decreases columns
  {
    if columns > 0 {
      AddColumnsKeep(columns - 1, k, m);
      assert m.(lane := Off) == m;
      CheckFailedKeeps(k, m);
      ScalarSubcallKeeps(AddColumn, Branch(AddColumns(columns - 1, k), CheckFailed(k)), k, m);
    }
  }

  lemma OneUserKeeps(call: Call, k: Prog, m: Mode)
    requires Working(m) && call.UserCall() && Balanced(k, m)
    ensures Balanced(OneUser(call, k), m)
  {
    assert m.(lane := Off) == m;
    CheckFailedKeeps(k, m);
    UserSubcallKeeps(call, Branch(k, CheckFailed(k)), k, m);
  }

  lemma CloseAppenderKeeps(flush: bool, k: Prog, m: Mode)
    requires Quiet(m) && !m.closing && Balanced(k, m)
    ensures Balanced(CloseAppender(flush, k), m)
  {
    var d := m.(depth := 1);
    var destroy := Engine(Destroy, Guarded(CleanupEnd, k));
    CleanupEndKeeps(k, m);
    assert Balanced(destroy, d) && d.(lane := Off) == d;
    CheckFailedKeeps(destroy, d);
    assert Balanced(Engine(ClearBuffer, Branch(destroy, CheckFailed(destroy))), d);
    assert Balanced(DestroyAppender(k), m);
    EndKeeps(DestroyAppender(k), m.(foreign := true));
    OneUserKeeps(CloseAppenderFlush, End(DestroyAppender(k)), m.(foreign := true));
  }

  lemma SelectKeeps(columns: nat, staged: bool, k: Prog, m: Mode)
    requires Quiet(m) && !m.closing && Balanced(k, m)
    ensures Balanced(SelectColumns(columns, staged, k), m)
  {
    EndKeeps(k, m.(foreign := true));
    AddColumnsKeep(columns, End(k), m.(foreign := true));
    assert m.(lane := Off) == m;
    var work := Guarded(WorkBegin, AddColumns(columns, End(k)));
    assert Balanced(work, m);
    BracketKeeps(work, m);
  }

  lemma ConnectKeeps(k: Prog, m: Mode)
    requires Quiet(m) && !m.closing && Balanced(k, m)
    ensures Balanced(ConnectStub(k), m)
  {
    var w := m.(foreign := true);
    EndKeeps(k, w);
    assert Balanced(Engine(Connect, End(k)), w);
  }

  lemma AppendStagedKeeps(chunks: nat, shrink: bool, k: Prog, m: Mode)
    requires Quiet(m) && !m.closing && Balanced(k, m)
    ensures Balanced(AppendStaged(chunks, shrink, k), m)
  {
    var w := m.(foreign := true);
    EndKeeps(k, w);
    BracketKeeps(End(k), w);
    AppendChunksKeep(chunks, if shrink then Bracket(End(k)) else End(k), w);
  }

  /** Every stub, on every path and for any number of chunks or columns, passes each bracket's check,
      makes engine calls only under their licence, and hands an idle owner to whatever runs next. */
  lemma StubsBalanced(stub: Stub, k: Prog, m: Mode)
    requires Quiet(m) && !m.closing && Balanced(k, m)
    ensures Balanced(Program(stub, k), m)
  {
    var w := m.(foreign := true);
    EndKeeps(k, w);
    match stub
    case StubConnect => ConnectKeeps(k, m);
    case StubExecute(legacy) => ExecuteKeeps(legacy, k, m);
    case StubControl(control) => ControlKeeps(control, k, m);
    case StubAdmitFile => EndKeeps(k, w.(lane := ScalarReady));
    case StubPublishFile => ScalarSubcallKeeps(LinkFile, End(k), End(k), w);
    case StubPrepare => PrepareKeeps(k, m);
    case StubExecutePrepared => UserSubcallKeeps(ExecutePrepared, End(k), End(k), w);
    case StubFetch => FetchKeeps(k, m);
    case StubCloseResult => ClearResultKeeps(k, m);
    case StubClosePrepared => ClearPreparedKeeps(k, m);
    case StubBind => ScalarSubcallKeeps(Bind, End(k), End(k), w);
    case StubBindInt64 => BindInt64Keeps(k, m);
    case StubCreateAppender(columns) => CreateAppenderKeeps(columns, k, m);
    case StubAppendStaged(chunks, shrink) => AppendStagedKeeps(chunks, shrink, k, m);
    case StubFlush => OneUserKeeps(FlushAppender, End(k), w);
    case StubCloseAppender(flush) => CloseAppenderKeeps(flush, k, m);
    case StubSelect(count, staged) => SelectKeeps(count, staged, k, m);
  }

  /** The paths of a program that make the given call before they end. */
  predicate AlwaysCalls(p: Prog, call: Call) {
    match p
    case Halt => false
    case Guarded(_, next) => AlwaysCalls(next, call)
    case Admit(_, admitted, refused) => AlwaysCalls(admitted, call) && AlwaysCalls(refused, call)
    case Engine(c, after) => c == call || AlwaysCalls(after, call)
    case Branch(left, right) => AlwaysCalls(left, call) && AlwaysCalls(right, call)
  }

  // ----- paths: what a straight run of the same stub does, in order

  /** One microstep a run leaves behind: a guarded section, an admission and its answer, an engine call. */
  datatype Move = Cross(t: Transition) | Ask(interruptible: bool, admitted: bool) | Make(call: Call)

  /** moves is a path of p from its start to its end. */
  predicate Follows(p: Prog, moves: seq<Move>) {
    match p
    case Halt => moves == []
    case Guarded(t, next) => moves != [] && moves[0] == Cross(t) && Follows(next, moves[1..])
    case Admit(interruptible, admitted, refused) =>
      moves != [] && moves[0].Ask? && moves[0].interruptible == interruptible
      && Follows(if moves[0].admitted then admitted else refused, moves[1..])
    case Engine(call, after) => moves != [] && moves[0] == Make(call) && Follows(after, moves[1..])
    case Branch(left, right) => Follows(left, moves) || Follows(right, moves)
  }

  function Destroys(k: nat): seq<Move> {
    if k == 0 then [] else [Make(Destroy)] + Destroys(k - 1)
  }

  /** clear_work with k engine objects to destroy. */
  function ClearMoves(k: nat): seq<Move> {
    [Cross(CleanupBegin)] + Destroys(k) + [Cross(CleanupEnd)]
  }

  /** The tail of an execution after its cleanup has been published. */
  function FinishMoves(k: nat): seq<Move> {
    ClearMoves(k) + [Cross(CleanupEnd), Cross(WorkEnd)]
  }

  lemma {:induction false} OptionalsFollow(n: nat, k: nat, next: Prog, rest: seq<Move>)
    requires k <= n && Follows(next, rest)
    ensures Follows(Optionals(n, next), Destroys(k) + rest)
  {
    if n == 0 {
      assert [] + rest == rest;
    } else if k == n {
      OptionalsFollow(n - 1, k - 1, next, rest);
      assert ([Make(Destroy)] + Destroys(k - 1) + rest)[1..] == Destroys(k - 1) + rest;
    } else {
      OptionalsFollow(n - 1, k, next, rest);
    }
  }

  function Optionals(n: nat, next: Prog): Prog {
    if n == 0 then next else Optional(Destroy, Optionals(n - 1, next))
  }

  lemma FirstMove(m: Move, rest: seq<Move>)
    ensures ([m] + rest)[0] == m && ([m] + rest)[1..] == rest
  {
  }

  lemma FinishFollows(k: nat)
    requires k <= 3
    ensures Follows(ExecuteExit(Halt), [Cross(CleanupBegin)] + FinishMoves(k))
  {
    var ends := [Cross(CleanupEnd), Cross(WorkEnd)];
    var closing := Guarded(CleanupEnd, End(Halt));
    FirstMove(Cross(WorkEnd), []);
    FirstMove(Cross(CleanupEnd), [Cross(WorkEnd)]);
    assert ends == [Cross(CleanupEnd)] + [Cross(WorkEnd)] && [Cross(WorkEnd)] == [Cross(WorkEnd)] + [];
    assert Follows(closing, ends);
    FirstMove(Cross(CleanupEnd), ends);
    assert Follows(Guarded(CleanupEnd, closing), [Cross(CleanupEnd)] + ends);
    OptionalsFollow(3, k, Guarded(CleanupEnd, closing), [Cross(CleanupEnd)] + ends);
    FirstMove(Cross(CleanupBegin), Destroys(k) + ([Cross(CleanupEnd)] + ends));
    assert FinishMoves(k) == [Cross(CleanupBegin)] + (Destroys(k) + ([Cross(CleanupEnd)] + ends));
    ThreeOptionals(Guarded(CleanupEnd, closing));
    FirstMove(Cross(CleanupBegin), FinishMoves(k));
  }

  lemma ThreeOptionals(next: Prog)
    ensures Optionals(3, next) == Optional(Destroy, Optional(Destroy, Optional(Destroy, next)))
  {
    assert Optionals(1, next) == Optional(Destroy, Optionals(0, next));
    assert Optionals(2, next) == Optional(Destroy, Optionals(1, next));
  }

  /** The cleanup a made execution enters directly. */
  function Entry(ended: bool): seq<Move> {
    if ended then [Cross(CleanupBegin)] else []
  }

  lemma RunThenEntry(done: seq<Move>, made: bool)
    ensures done + RunMoves(made) + Entry(made) == done + (RunMoves(made) + Entry(made))
  {
  }

  lemma PrepareThen(done: seq<Move>, m: nat, asked: bool, rest: seq<Move>)
    requires m > 0 && rest == if asked then RunMoves(m == 2) + Entry(m == 2) else []
    ensures done + [Ask(true, true), Make(PrepareExtracted), Cross(CallEnd)] + rest
         == done + (PrepareMoves(m, asked) + Entry(m == 2 && asked))
  {
  }

  lemma ExtractThen(done: seq<Move>, m: nat, single: bool, runnable: bool, rest: seq<Move>)
    requires rest == if single then PrepareMoves(m, runnable) + Entry(m == 2 && runnable) else []
    ensures done + [Ask(true, true), Make(Extract), Cross(CallEnd)] + rest
         == done + (ExecuteMoves(m + 1, single, runnable) + Entry(single && m == 2 && runnable))
  {
  }

  /** The third admission and call of an execution. */
  function RunMoves(made: bool): seq<Move> {
    [Ask(true, made)] + if made then [Make(ExecutePrepared)] else []
  }

  /** From the second admission on; m calls are made, and the third admission is asked when wanted. */
  function PrepareMoves(m: nat, asked: bool): seq<Move> {
    if m == 0 then [Ask(true, false)]
    else [Ask(true, true), Make(PrepareExtracted), Cross(CallEnd)] + if asked then RunMoves(m == 2) else []
  }

  /** The whole body of a plain execution; n calls are made. */
  function ExecuteMoves(n: nat, single: bool, runnable: bool): seq<Move> {
    if n == 0 then [Ask(true, false)]
    else [Ask(true, true), Make(Extract), Cross(CallEnd)] + if single then PrepareMoves(n - 1, runnable) else []
  }

  lemma RunFollows(made: bool, exit: Prog, rest: seq<Move>)
    requires Follows(exit, rest)
    ensures Follows(RunPrepared(ExecutePrepared, exit), RunMoves(made) + rest)
  {
    if made {
      assert RunMoves(made) + rest == [Ask(true, true)] + ([Make(ExecutePrepared)] + rest);
      FirstMove(Make(ExecutePrepared), rest);
      FirstMove(Ask(true, true), [Make(ExecutePrepared)] + rest);
    } else {
      FirstMove(Ask(true, false), rest);
      assert RunMoves(made) + rest == [Ask(true, false)] + rest;
    }
  }

  lemma SubcallFollows(call: Call, after: Prog, refused: Prog, moves: seq<Move>)
    requires Follows(after, moves)
    ensures Follows(UserSubcall(call, after, refused), [Ask(true, true), Make(call), Cross(CallEnd)] + moves)
  {
    FirstMove(Cross(CallEnd), moves);
    FirstMove(Make(call), [Cross(CallEnd)] + moves);
    FirstMove(Ask(true, true), [Make(call)] + ([Cross(CallEnd)] + moves));
    assert [Ask(true, true), Make(call), Cross(CallEnd)] + moves
        == [Ask(true, true)] + ([Make(call)] + ([Cross(CallEnd)] + moves));
  }

  lemma RefusedFollows(call: Call, after: Prog, refused: Prog, rest: seq<Move>)
    requires Follows(refused, rest)
    ensures Follows(UserSubcall(call, after, refused), [Ask(true, false)] + rest)
  {
    FirstMove(Ask(true, false), rest);
  }

  lemma PrepareFollows(m: nat, asked: bool, exit: Prog, rest: seq<Move>)
    requires m <= 2 && (m == 2 ==> asked) && Follows(exit, rest)
    ensures Follows(UserSubcall(PrepareExtracted, Branch(exit, RunPrepared(ExecutePrepared, exit)), exit),
                    PrepareMoves(m, asked) + rest)
  {
    var next := Branch(exit, RunPrepared(ExecutePrepared, exit));
    if m == 0 {
      RefusedFollows(PrepareExtracted, next, exit, rest);
    } else {
      var tail := if asked then RunMoves(m == 2) + rest else rest;
      RunFollows(m == 2, exit, rest);
      SubcallFollows(PrepareExtracted, next, exit, tail);
      assert PrepareMoves(m, asked) + rest == [Ask(true, true), Make(PrepareExtracted), Cross(CallEnd)] + tail;
    }
  }

  lemma BodyFollows(n: nat, single: bool, runnable: bool, exit: Prog, rest: seq<Move>)
    requires n <= 3 && (n >= 2 ==> single) && (n == 3 ==> runnable) && Follows(exit, rest)
    ensures Follows(PlainExecute(exit), ExecuteMoves(n, single, runnable) + rest)
  {
    var prepare := UserSubcall(PrepareExtracted, Branch(exit, RunPrepared(ExecutePrepared, exit)), exit);
    if n == 0 {
      RefusedFollows(Extract, Branch(exit, prepare), exit, rest);
    } else {
      var tail := if single then PrepareMoves(n - 1, runnable) + rest else rest;
      if single {
        PrepareFollows(n - 1, runnable, exit, rest);
      }
      SubcallFollows(Extract, Branch(exit, prepare), exit, tail);
      assert ExecuteMoves(n, single, runnable) + rest == [Ask(true, true), Make(Extract), Cross(CallEnd)] + tail;
    }
  }

  lemma Regroup(a: seq<Move>, b: seq<Move>, c: seq<Move>, d: seq<Move>)
    ensures a + b + c + d == a + (b + (c + d))
  {
  }

  function PlainPath(n: nat, single: bool, runnable: bool, k: nat): seq<Move> {
    [Cross(WorkBegin)] + ExecuteMoves(n, single, runnable) + [Cross(CleanupBegin)] + FinishMoves(k)
  }

  function LegacyPath(k: nat): seq<Move> {
    [Cross(WorkBegin)] + [Make(LegacyControl)] + [Cross(CleanupBegin)] + FinishMoves(k)
  }

  function ControlPath(control: Control, issued: bool, k: nat): seq<Move> {
    [Cross(WorkBegin)] + ControlMoves(control, issued) + [Cross(CleanupBegin)] + FinishMoves(k)
  }

  /** A whole plain execution is a path of its stub. */
  lemma PlainFollows(n: nat, single: bool, runnable: bool, k: nat)
    requires n <= 3 && (n >= 2 ==> single) && (n == 3 ==> runnable) && k <= 3
    ensures Follows(Execute(false, Halt), PlainPath(n, single, runnable, k))
  {
    var rest := [Cross(CleanupBegin)] + FinishMoves(k);
    FinishFollows(k);
    BodyFollows(n, single, runnable, ExecuteExit(Halt), rest);
    FirstMove(Cross(WorkBegin), ExecuteMoves(n, single, runnable) + rest);
    Regroup([Cross(WorkBegin)], ExecuteMoves(n, single, runnable), [Cross(CleanupBegin)], FinishMoves(k));
  }

  /** So is a legacy control execution. */
  lemma LegacyFollows(k: nat)
    requires k <= 3
    ensures Follows(Execute(true, Halt), LegacyPath(k))
  {
    var rest := [Cross(CleanupBegin)] + FinishMoves(k);
    FinishFollows(k);
    FirstMove(Make(LegacyControl), rest);
    FirstMove(Cross(WorkBegin), [Make(LegacyControl)] + rest);
    Regroup([Cross(WorkBegin)], [Make(LegacyControl)], [Cross(CleanupBegin)], FinishMoves(k));
  }

  /** And a BEGIN, COMMIT or ROLLBACK: issued, or, of the first two, refused. */
  lemma ControlFollows(control: Control, issued: bool, k: nat)
    requires k <= 3 && (control == Rollback ==> issued)
    ensures Follows(ExecuteControl(control, Halt), ControlPath(control, issued, k))
  {
    var rest := [Cross(CleanupBegin)] + FinishMoves(k);
    FinishFollows(k);
    ControlProgramFollows(control, issued, ExecuteExit(Halt), rest);
    FirstMove(Cross(WorkBegin), ControlMoves(control, issued) + rest);
    Regroup([Cross(WorkBegin)], ControlMoves(control, issued), [Cross(CleanupBegin)], FinishMoves(k));
  }

  lemma ControlProgramFollows(control: Control, issued: bool, exit: Prog, rest: seq<Move>)
    requires Follows(exit, rest) && (control == Rollback ==> issued)
    ensures Follows(ControlProgram(control, exit), ControlMoves(control, issued) + rest)
  {
    var call := ControlSql(control);
    FirstMove(Make(call), rest);
    FirstMove(Ask(true, true), [Make(call)] + rest);
    FirstMove(Ask(true, false), rest);
    assert ControlMoves(control, issued) + rest
        == if control == Rollback then [Make(call)] + rest
           else if issued then [Ask(true, true)] + ([Make(call)] + rest)
           else [Ask(true, false)] + rest;
  }

  function ControlMoves(control: Control, issued: bool): seq<Move> {
    if control == Rollback then [Make(RollbackSql)]
    else if issued then [Ask(true, true), Make(ControlSql(control))]
    else [Ask(true, false)]
  }
}
