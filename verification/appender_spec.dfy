/** An appender as its callers see it: a flat batch, a sticky status, and the engine's buffer and table. */
module AppenderSpec {
  import opened Native
  import opened Bytes
  import opened Connection
  import opened Staging

  /** STAGED_RETAINED */
  const RETAINED: nat := 16

  /** Engine calls the appender asks admission for. */
  datatype UserCall = Append(rows: seq<Row>) | Flush | CloseFlush | AddColumn(ty: Ty)

  /** What the latch and the engine answer: not admitted, failed, or done. spill: buffered rows the engine
      wrote to the table on this occasion. */
  datatype Outcome = Suppressed | Refused | Done(spill: nat)

  /** Allocation of one stage_begin: the type array, the chunk array, and how many chunks. */
  datatype Fits = Fits(types: bool, pool: bool, created: nat)

  datatype App = App(
    open: bool,
    status: Status,
    batch: Batch,            // the owner's active types and its staged rows
    logical: bool,           // engine types held for the pool
    pooled: bool,            // the pool's array
    capacity: nat,           // chunks in the pool
    physical: seq<Ty>,       // the table's columns
    added: seq<Ty>,          // columns given to the engine's active list
    buffer: seq<Row>,        // rows the engine has accepted and not yet written
    table: seq<Row>,         // rows this appender has written to the table
    discarded: seq<Row>,     // rows the engine accepted and then dropped
    accepted: seq<Row>,      // every row of every accepted chunk
    calls: seq<UserCall>)

  datatype Op =
    | StageBegin(n: int, fits: Fits, stale: seq<Row>)
    | Stage(op: StageOp)
    | ClearStage
    | AppendStaged(script: seq<Outcome>)
    | FlushAppender(outcome: Outcome)
    | SelectColumns(columns: seq<nat>, indices: seq<int>, script: seq<Outcome>, oom: Option<nat>)
    | CloseAppender(flush: bool, outcome: Outcome, clearOk: bool, destroyFlushes: bool)

  predicate AppOk(a: App) {
    && BatchOk(a.batch)
    && |a.batch.rows| <= a.capacity * a.batch.size
    && (a.capacity > 0 ==> a.pooled)
    && (a.pooled || a.logical ==> a.open)
    && (!a.open ==> a.buffer == [])
    && (a.open ==> a.discarded == [])
    && a.table + a.buffer + a.discarded == a.accepted
  }

  /** The engine's active columns: all of them until one is added. */
  function Active(a: App): seq<Ty> {
    if a.added == [] then a.physical else a.added
  }

  /** Counted resources in the owner's fields, besides its shell and its four schema arrays. */
  function Owned(a: App): nat {
    B(a.open) + B(a.logical) + B(a.pooled) + a.capacity
  }

  // ----- status

  /** error: the first failure stays. */
  function Note(a: App, s: Status): App {
    if a.status == OK then a.(status := s) else a
  }

  function ClearInput(a: App): App {
    a.(batch := a.batch.(rows := [], failed := false))
  }

  // ----- engine calls

  function Spill(a: App, k: nat): App {
    var m := if k < |a.buffer| then k else |a.buffer|;
    a.(table := a.table + a.buffer[..m], buffer := a.buffer[m..])
  }

  /** What the engine takes from the call. */
  function Take(a: App, call: UserCall): App {
    match call
    case Append(rows) => a.(buffer := a.buffer + rows, accepted := a.accepted + rows)
    case AddColumn(ty) => a.(added := a.added + [ty])
    case _ => a
  }

  /** A flush writes the whole buffer; another call may write some of it. */
  function Effect(a: App, call: UserCall, spill: nat): App {
    var b := Take(a, call);
    Spill(b, if call.Flush? || call.CloseFlush? then |b.buffer| else spill)
  }

  /** Admission, the engine call, and check. Calls on a closed appender fail. */
  function Issue(a: App, call: UserCall, o: Outcome): App {
    if a.status != OK then a
    else
      match if !a.open && o.Done? then Refused else o
      case Suppressed => a.(status := CANCELLED)
      case Refused => a.(calls := a.calls + [call], status := ERROR)
      case Done(spill) => Effect(a, call, spill).(calls := a.calls + [call])
  }

  function IssueAll(a: App, calls: seq<UserCall>, script: seq<Outcome>): App
    decreases calls
  {
    if calls == [] || a.status != OK then a
    else IssueAll(Issue(a, calls[0], First(script)), calls[1..], Rest(script))
  }

  /** A script that has run out answers with the latch. */
  function First(script: seq<Outcome>): Outcome {
    if script == [] then Suppressed else script[0]
  }

  function Rest(script: seq<Outcome>): seq<Outcome> {
    if script == [] then [] else script[1..]
  }

  // ----- the chunks of a batch

  /** Chunks for n rows. */
  function Ceil(n: nat, size: nat): nat
    requires size > 0
    decreases n
  {
    if n == 0 then 0 else if n <= size then 1 else 1 + Ceil(n - size, size)
  }

  /** ... which the source computes by rounding a division up. */
  lemma {:induction false} CeilIsDivision(n: nat, size: nat)
    requires size > 0
    ensures Ceil(n, size) == (n + size - 1) / size
    decreases n
  {
    if n > size {
      CeilIsDivision(n - size, size);
      var q, r := (n - size + size - 1) / size, (n - size + size - 1) % size;
      assert n + size - 1 == size * (q + 1) + r;
      Quotient(n + size - 1, size, q + 1, r);
    } else if n > 0 {
      Quotient(n + size - 1, size, 1, n - 1);
    } else {
      Quotient(size - 1, size, 0, size - 1);
    }
  }

  lemma Quotient(x: nat, size: nat, q: nat, r: nat)
    requires size > 0 && x == size * q + r && r < size
    ensures x / size == q
  {
    DivModUnique(size, q, r, x / size, x % size);
  }

  function Least(x: nat, y: nat): nat {
    if x < y then x else y
  }

  /** The k-th staged chunk, with the length append_staged sets on it. */
  function ChunkAt(rows: seq<Row>, size: nat, k: nat): seq<Row>
    requires size > 0 && k * size <= |rows|
  {
    rows[k * size..Least((k + 1) * size, |rows|)]
  }

  function Chunks(rows: seq<Row>, size: nat, from: nat): (calls: seq<UserCall>)
    requires size > 0 && from <= Ceil(|rows|, size)
    ensures |calls| == Ceil(|rows|, size) - from
    decreases Ceil(|rows|, size) - from
  {
    if from == Ceil(|rows|, size) then []
    else
      ChunkStarts(|rows|, size, from);
      [Append(ChunkAt(rows, size, from))] + Chunks(rows, size, from + 1)
  }

  lemma ChunkStarts(n: nat, size: nat, k: nat)
    requires size > 0
    ensures k < Ceil(n, size) <==> k * size < n
  {
    CeilIsDivision(n, size);
    var q, r := (n + size - 1) / size, (n + size - 1) % size;
    assert n + size - 1 == q * size + r;
    if k < q {
      Scale(k + 1, q, size);
      assert (k + 1) * size == k * size + size;
    } else {
      Scale(q, k, size);
    }
  }

  lemma Scale(x: nat, y: nat, size: nat)
    requires x <= y
    ensures x * size <= y * size
  {
  }

  // ----- the operations

  predicate Clean(rows: seq<Row>, types: seq<Ty>) {
    && Rectangular(rows, |types|)
    && (forall r, c | 0 <= r < |rows| && 0 <= c < |types| :: !rows[r][c].isNull)
    && (forall r, c | 0 <= r < |rows| && 0 <= c < |types| && (types[c] == VARCHAR || types[c] == BLOB) ::
        rows[r][c].bytes == [])
  }

  /** The stale rows a fresh batch starts from are whatever the pool's data vectors still hold, but never NULL
      and never a stale string. */
  predicate Legal(a: App, op: Op) {
    op.StageBegin? && op.n >= 0 ==> |op.stale| == op.n && Clean(op.stale, a.batch.types)
  }

  function Begin(a: App, n: int, fits: Fits, stale: seq<Row>): App
    requires a.batch.size > 0
  {
    var b := ClearInput(a);
    if !b.open || b.status != OK || n < 0 then b
    else
      var chunks := Ceil(n, b.batch.size);
      var typed := b.(logical := b.logical || (b.batch.types != [] && fits.types));
      if !typed.logical && b.batch.types != [] then Note(b, ERROR)
      else if chunks <= b.capacity then typed.(batch := typed.batch.(rows := stale))
      else if !fits.pool then Note(typed, ERROR)
      else
        var grown := typed.(pooled := true, capacity := Least(b.capacity + fits.created, chunks));
        if grown.capacity < chunks then Note(grown, ERROR) else grown.(batch := grown.batch.(rows := stale))
  }

  function AppendAll(a: App, script: seq<Outcome>): App
    requires a.batch.size > 0
  {
    if !a.open || a.batch.failed then ClearInput(Note(a, ERROR))
    else
      var b := ClearInput(IssueAll(a, Chunks(a.batch.rows, a.batch.size, 0), script));
      b.(capacity := Least(b.capacity, RETAINED))
  }

  function ReleaseStaging(a: App): App {
    a.(logical := false, pooled := false, capacity := 0, batch := a.batch.(rows := []))
  }

  /** Leading indices that name one of the owner's columns. */
  function InCatalog(types: seq<Ty>, indices: seq<int>): (k: nat)
    ensures k <= |indices| && (forall i | 0 <= i < k :: 0 <= indices[i] < |types|)
    ensures k < |indices| ==> !(0 <= indices[k] < |types|)
  {
    if indices == [] || !(0 <= indices[0] < |types|) then 0 else 1 + InCatalog(types, indices[1..])
  }

  function AddCalls(physical: seq<Ty>, columns: seq<nat>): (calls: seq<UserCall>)
    requires forall i | 0 <= i < |columns| :: columns[i] < |physical|
    ensures |calls| == |columns|
    ensures forall i | 0 <= i < |columns| :: calls[i] == AddColumn(physical[columns[i]])
  {
    seq(|columns|, i requires 0 <= i < |columns| => AddColumn(physical[columns[i]]))
  }

  function Chosen(types: seq<Ty>, indices: seq<int>): (chosen: seq<Ty>)
    requires forall i | 0 <= i < |indices| :: 0 <= indices[i] < |types|
    ensures |chosen| == |indices|
  {
    seq(|indices|, i requires 0 <= i < |indices| => types[indices[i]])
  }

  /** One name and one index per column; a name is given by the position of its catalog column. */
  predicate Selection(a: App, columns: seq<nat>, indices: seq<int>) {
    |columns| == |indices| && forall i | 0 <= i < |columns| :: columns[i] < |a.physical|
  }

  /** The allocation of a name copy raises Out_of_memory. */
  predicate Raises(a: App, indices: seq<int>, oom: Option<nat>) {
    oom.Some? && oom.value < InCatalog(a.batch.types, indices)
  }

  function Select(a: App, columns: seq<nat>, indices: seq<int>, script: seq<Outcome>, oom: Option<nat>): App
    requires Selection(a, columns, indices)
  {
    if Raises(a, indices, oom) then a
    else
      var named := if InCatalog(a.batch.types, indices) < |indices| then Note(a, ERROR) else a;
      var released := ReleaseStaging(named);
      var told := IssueAll(released, AddCalls(a.physical, columns), script);
      if told.status != OK then told else told.(batch := told.batch.(types := Chosen(a.batch.types, indices)))
  }

  /** duckdb_appender_clear and check. */
  function Clear(a: App, ok: bool): App {
    if ok then a.(discarded := a.discarded + a.buffer, buffer := []) else Note(a, ERROR)
  }

  /** duckdb_appender_destroy, which may still write what is buffered. */
  function Destroy(a: App, flushes: bool): App {
    if flushes then Spill(a, |a.buffer|) else a.(discarded := a.discarded + a.buffer, buffer := [])
  }

  function Shut(a: App): App {
    ClearInput(ReleaseStaging(a).(open := false))
  }

  function Close(a: App, flush: bool, o: Outcome, clearOk: bool, destroyFlushes: bool): App {
    if !a.open then ClearInput(a)
    else
      var flushed := if flush then Issue(a, CloseFlush, o) else a;
      var destroyed := Destroy(Clear(flushed, clearOk), destroyFlushes);
      Shut(destroyed)
  }

  function Step(a: App, op: Op): App
    requires a.batch.size > 0
    requires op.SelectColumns? ==> Selection(a, op.columns, op.indices)
    requires op.Stage? ==> BatchOk(a.batch)
  {
    match op
    case StageBegin(n, fits, stale) => Begin(a, n, fits, stale)
    case Stage(s) => a.(batch := Staged(a.batch, s))
    case ClearStage => ClearInput(a)
    case AppendStaged(script) => AppendAll(a, script)
    case FlushAppender(o) => Issue(a, Flush, o)
    case SelectColumns(columns, indices, script, oom) => Select(a, columns, indices, script, oom)
    case CloseAppender(flush, o, clearOk, destroyFlushes) => Close(a, flush, o, clearOk, destroyFlushes)
  }
}
