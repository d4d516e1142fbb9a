/** appender_owner: staging chunks, status and engine appender updated in place.

    Every method is proved to be the operation of AppenderSpec on the owner's view, so what AppenderRuns
    proves over histories is about this code. `engine` stands for the engine's side of the appender. */
module Appender {
  import opened Native
  import opened Bytes
  import opened Connection
  import opened Staging
  import opened AppenderSpec
  import opened AppenderRuns
  import opened Pool

  datatype Engine = Engine(
    physical: seq<Ty>, added: seq<Ty>, buffer: seq<Row>, table: seq<Row>, discarded: seq<Row>, accepted: seq<Row>,
    calls: seq<UserCall>)

  /** What latch, engine and allocator answer while an appender is created. gates: in order, the seven
      admissions of the metadata queries with their calls, the copy of the catalog name, the create call, and
      the comparison of the column counts. handle: the create call left an appender behind, as it does when it
      succeeds. latches: the latch load of each column. */
  datatype CreateScript = CreateScript(
    schemaFits: bool, tableFits: bool, gates: seq<Outcome>, handle: bool,
    typesFit: bool, nullableFit: bool, physical: seq<Ty>, latches: seq<bool>)

  const GATES: nat := 10
  const CREATE: nat := 8

  /** The i-th latch load; a script that has run out answers with the latch. */
  predicate Latch(latches: seq<bool>, i: nat) {
    i >= |latches| || latches[i]
  }

  lemma {:induction false} UnlatchedIs(latches: seq<bool>, n: nat, k: nat)
    requires k <= n && (forall j | 0 <= j < k :: !Latch(latches, j)) && (k < n ==> Latch(latches, k))
    ensures Unlatched(latches, n) == k
  {
    if n > 0 && k > 0 {
      assert !Latch(latches, 0);
      forall j | 0 <= j < k - 1 ensures !Latch(latches[1..], j) {
        assert !Latch(latches, j + 1);
      }
      UnlatchedIs(latches[1..], n - 1, k - 1);
    }
  }

  /** Columns whose type is read before a latch stops the loop. */
  function Unlatched(latches: seq<bool>, n: nat): (k: nat)
    ensures k <= n
  {
    if n == 0 || latches == [] || latches[0] then 0 else 1 + Unlatched(latches[1..], n - 1)
  }

  /** The status creation ends with: the first gate that does not pass, the arrays, the column latches. */
  function CreateStatus(e: CreateScript): Status {
    if Leading(e.gates, GATES) < GATES then StatusAfter(e.gates, GATES)
    else if !e.typesFit || !e.nullableFit then ERROR
    else if Unlatched(e.latches, |e.physical|) < |e.physical| then CANCELLED
    else OK
  }

  /** The switch of stage_int64. */
  function IntStore(t: Ty, x: int): (stored: Option<seq<byte>>)
    ensures stored == if IntColumn(t) then Some(StoredInt(t, x)) else None
  {
    match t
    case BOOLEAN => Some([if x != 0 then 1 else 0])
    case TINYINT => Some(Encode(x, 1))
    case SMALLINT => Some(Encode(x, 2))
    case INTEGER => Some(Encode(x, 4))
    case DATE => Some(Encode(x, 4))
    case BIGINT => Some(Encode(x, 8))
    case TIMESTAMP => Some(Encode(x, 8))
    case TIMESTAMP_S => Some(Encode(x, 8))
    case TIMESTAMP_MS => Some(Encode(x, 8))
    case TIMESTAMP_NS => Some(Encode(x, 8))
    case TIMESTAMP_TZ => Some(Encode(x, 8))
    case _ => None
  }

  class AppenderOwner {
    const process: Process
    const size: nat // rows per engine vector
    var appender: bool
    var status: Status
    var types: seq<Ty>
    var logical: Option<seq<Ty>>
    var staged: Option<seq<Chunk>>
    var stagedRows: nat
    var stageFailed: bool
    var schema: bool
    var table: bool
    var typeArray: bool
    var nullable: bool
    var engine: Engine

    constructor (process: Process, size: nat)
      requires size > 0
      ensures this.process == process && this.size == size && Valid() && Held() == 0
      ensures View() == App(false, OK, Batch([], size, [], false), false, false, 0, [], [], [], [], [], [], [])
    {
      this.process, this.size := process, size;
      appender, status, types, logical, staged := false, OK, [], None, None;
      stagedRows, stageFailed := 0, false;
      schema, table, typeArray, nullable := false, false, false, false;
      engine := Engine([], [], [], [], [], [], []);
    }

    function Capacity(): nat
      reads this`staged
    {
      if staged.Some? then |staged.value| else 0
    }

    function PoolChunks(): seq<Chunk>
      reads this`staged
    {
      if staged.Some? then staged.value else []
    }

    /** The column types the engine expects of the next chunk. */
    function EngineActive(): seq<Ty>
      reads this`engine
    {
      if engine.added == [] then engine.physical else engine.added
    }

    /** Every pooled chunk was created from, and still has, exactly the engine's active column types. */
    predicate Valid()
      reads this`types, this`logical, this`staged, this`stagedRows, this`stageFailed, this`appender, this`engine
    {
      && size > 0
      && PoolOk(PoolChunks(), types, size)
      && stagedRows <= Capacity() * size
      && (stageFailed ==> stagedRows == 0)
      && (logical.Some? ==> logical.value == types)
      && (staged.Some? || logical.Some? ==> appender && types == EngineActive())
    }

    /** The staged rows as a flat list. */
    function Rows(): seq<Row>
      requires Valid()
      reads this`types, this`logical, this`staged, this`stagedRows, this`stageFailed, this`appender, this`engine
    {
      Grid(PoolChunks(), types, size, stagedRows)
    }

    function View(): App
      requires Valid()
      reads this`appender, this`status, this`types, this`logical, this`staged, this`stagedRows, this`stageFailed,
          this`engine
    {
      App(appender, status, Batch(types, size, Rows(), stageFailed), logical.Some?, staged.Some?, Capacity(),
          engine.physical, engine.added, engine.buffer, engine.table, engine.discarded, engine.accepted, engine.calls)
    }

    /** Counted resources in the fields, the shell apart. */
    function Held(): nat
      reads this`appender, this`logical, this`staged, this`schema, this`table, this`typeArray, this`nullable
    {
      B(appender) + B(logical.Some?) + B(staged.Some?) + Capacity() + B(schema) + B(table) + B(typeArray) + B(nullable)
    }

    /** Resources counted but not in a field; every method but one keeps this. */
    function Excess(): int
      reads this`appender, this`logical, this`staged, this`schema, this`table, this`typeArray, this`nullable,
          process`live
    {
      process.live - Held()
    }

    // ----- status and engine calls

    /** error */
    method Error()
      requires Valid()
      modifies this`status
      ensures View() == Note(old(View()), ERROR)
    {
      if status == OK {
        status := ERROR;
      }
    }

    /** Admission, one engine call, check. */
    method Call(call: UserCall, o: Outcome)
      requires Valid() && (call.AddColumn? ==> staged.None? && logical.None?)
      modifies this`status, this`engine
      ensures Valid() && View() == Issue(old(View()), call, o)
    {
      var after := Issue(View(), call, o);
      if !call.AddColumn? {
        IssueKeepsColumns(View(), call, o);
      }
      if status == OK {
        if o.Suppressed? {
          status := CANCELLED;
        } else {
          var succeeded := appender && o.Done?;
          engine := Engine(engine.physical, after.added, after.buffer, after.table, engine.discarded, after.accepted,
                           engine.calls + [call]);
          if !succeeded {
            Error();
          }
        }
      }
    }

    // ----- staging

    /** clear_input */
    method ClearStage()
      requires Valid()
      modifies this`stagedRows, this`stageFailed
      ensures Valid() && View() == ClearInput(old(View()))
      ensures Excess() == old(Excess())
    {
      stagedRows, stageFailed := 0, false;
    }

    /** The data vectors of a chunk the engine has just created: one per column, of any contents. */
    predicate Blank(contents: seq<seq<Cell>>)
      reads this`types
    {
      |contents| == |types| && forall c | 0 <= c < |types| :: |contents[c]| == size
    }

    /** Growing the pool to `chunks`; the engine creates one chunk of the looked-up types for each of `blanks`
        and then runs out of memory. */
    method Grow(chunks: nat, fits: bool, blanks: seq<seq<seq<Cell>>>) returns (ok: bool)
      requires Valid() && appender && chunks > Capacity() && types == EngineActive() && (logical.Some? || types == [])
      requires forall k | 0 <= k < |blanks| :: Blank(blanks[k])
      modifies this`staged, process`live
      ensures Valid() && (fits ==> staged.Some?) && (!fits ==> staged == old(staged))
      ensures Capacity() == if fits then Least(old(Capacity()) + |blanks|, chunks) else old(Capacity())
      ensures ok <==> Capacity() == chunks
      ensures Excess() == old(Excess())
    {
      if !fits {
        return false;
      }
      if staged.None? {
        process.Acquired();
        staged := Some([]);
      }
      var chunkTypes := if logical.Some? then logical.value else [];
      var made := 0;
      while |staged.value| < chunks
        invariant staged.Some? && PoolOk(staged.value, chunkTypes, size) && made <= |blanks|
        invariant |staged.value| == old(Capacity()) + made <= chunks
        invariant Excess() == old(Excess())
        decreases chunks - |staged.value|
      {
        if made == |blanks| {
          Scale(old(Capacity()), |staged.value|, size);
          return false;
        }
        assert Blank(blanks[made]);
        staged := Some(staged.value + [Chunk(chunkTypes, blanks[made])]);
        process.Acquired();
        made := made + 1;
      }
      Scale(old(Capacity()), |staged.value|, size);
      ok := true;
    }

    predicate Fresh(chunk: Chunk, held: int)
      requires Shaped(chunk, types, size)
      reads this`types
    {
      forall c, i | 0 <= c < |types| && 0 <= i < size ::
        && !chunk.columns[c][i].isNull
        && ((types[c] == VARCHAR || types[c] == BLOB) && i < held ==> chunk.columns[c][i].bytes == [])
    }

    /** duckdb_data_chunk_reset, and empty strings in the rows in use; other data stays stale. */
    method ResetChunk(k: nat, held: int)
      requires staged.Some? && k < |staged.value| && PoolOk(staged.value, types, size)
      modifies this`staged
      ensures staged.Some? && |staged.value| == |old(staged).value| && PoolOk(staged.value, types, size)
      ensures Fresh(staged.value[k], held)
      ensures forall j | 0 <= j < |staged.value| && j != k :: staged.value[j] == old(staged).value[j]
    {
      var chunk := staged.value[k];
      var width := |types|;
      var columns: seq<seq<Cell>> := seq(width, c requires 0 <= c < width =>
        seq(size, i requires 0 <= i < size => chunk.columns[c][i].(isNull := false)));
      var c := 0;
      while c < |types|
        invariant 0 <= c <= |types| == |columns|
        invariant forall d | 0 <= d < |types| :: |columns[d]| == size
        invariant forall d, i | 0 <= d < |types| && 0 <= i < size :: !columns[d][i].isNull
        invariant forall d, i | 0 <= d < c && 0 <= i < size && (types[d] == VARCHAR || types[d] == BLOB) && i < held ::
                    columns[d][i].bytes == []
      {
        if types[c] == VARCHAR || types[c] == BLOB {
          var column := columns[c];
          var emptied := seq(size, i requires 0 <= i < size => if i < held then column[i].(bytes := []) else column[i]);
          columns := columns[c := emptied];
        }
        c := c + 1;
      }
      staged := Some(staged.value[k := Chunk(types, columns)]);
    }

    /** The chunks of n rows, reset. */
    method ResetChunks(n: nat)
      requires Valid() && n <= Capacity() * size && (n > 0 ==> staged.Some?)
      modifies this`staged
      ensures Valid() && Capacity() == old(Capacity()) && (staged.Some? <==> old(staged).Some?)
      ensures Clean(Grid(PoolChunks(), types, size, n), types)
    {
      CeilIsDivision(n, size);
      var chunks := (n + size - 1) / size;
      var k := 0;
      if n > 0 {
        Locate(n, size, n - 1);
      }
      Enough(n, size);
      assert chunks <= Capacity() by {
        if chunks > 0 {
          ChunkStarts(n, size, chunks - 1);
          if Capacity() <= chunks - 1 {
            Scale(Capacity(), chunks - 1, size);
          }
        }
      }
      while k < chunks
        invariant 0 <= k <= chunks <= Capacity() == old(Capacity()) && PoolOk(PoolChunks(), types, size)
        invariant staged.Some? <==> old(staged).Some?
        invariant forall j | 0 <= j < k :: Fresh(staged.value[j], HeldRows(n, j))
      {
        ResetChunk(k, HeldRows(n, k));
        k := k + 1;
      }
      forall r, c | 0 <= r < n && 0 <= c < |types|
        ensures !CellAt(PoolChunks(), types, size, c, r).isNull
        ensures types[c] == VARCHAR || types[c] == BLOB ==> CellAt(PoolChunks(), types, size, c, r).bytes == []
      {
        Locate(n, size, r);
        assert Fresh(staged.value[r / size], HeldRows(n, r / size));
      }
    }

    /** Rows of chunk k in use in a batch of n. */
    function HeldRows(n: nat, k: nat): int {
      if n - k * size < size then n - k * size else size
    }

    /** ml_duckdb_stage_begin. An open appender whose status is OK is in step with the engine (see
        AppenderRuns.InStepExactly for the histories that keep it so). The data the new rows start from is
        whatever the vectors hold, but no row is NULL and no string stale. */
    method StageBegin(rows: int, fits: Fits, blanks: seq<seq<seq<Cell>>>)
      requires Valid() && (appender && status == OK ==> types == Active(View()))
      requires |blanks| == fits.created && forall k | 0 <= k < |blanks| :: Blank(blanks[k])
      modifies this`stagedRows, this`stageFailed, this`logical, this`staged, this`status, process`live
      ensures Valid() && View() == Begin(old(View()), rows, fits, Rows())
      ensures Clean(Rows(), types) && (Rows() == [] || |Rows()| == rows)
      ensures Excess() == old(Excess())
    {
      ClearStage();
      if appender && status == OK && rows >= 0 {
        BeginOpen(rows, fits, blanks);
      }
    }

    /** duckdb_appender_column_type for each of the owner's columns. */
    method LookUpTypes() returns (found: seq<Ty>)
      requires |types| <= |EngineActive()|
      ensures found == EngineActive()[..|types|]
    {
      found := [];
      var i := 0;
      while i < |types|
        invariant 0 <= i <= |types| && found == EngineActive()[..i]
      {
        found := found + [EngineActive()[i]];
        i := i + 1;
      }
    }

    /** The engine types the pool is made of, looked up once. */
    method HoldTypes(fits: bool) returns (ok: bool)
      requires Valid() && appender && types == EngineActive()
      modifies this`logical, process`live
      ensures Valid() && ok == (logical.Some? || types == [])
      ensures logical.Some? <==> old(logical).Some? || (types != [] && fits)
      ensures Excess() == old(Excess())
    {
      if logical.None? && types != [] {
        if !fits {
          return false;
        }
        var found := LookUpTypes();
        logical := Some(found);
        process.Acquired();
      }
      ok := true;
    }

    method Reserve(chunks: nat, fits: Fits, blanks: seq<seq<seq<Cell>>>) returns (fine: bool)
      requires Valid() && appender && types == EngineActive() && stagedRows == 0
      requires |blanks| == fits.created && forall k | 0 <= k < |blanks| :: Blank(blanks[k])
      modifies this`logical, this`staged, process`live
      ensures Valid() && (logical.Some? <==> old(logical).Some? || (types != [] && fits.types))
      ensures var typed := logical.Some? || types == [];
              var grows := typed && chunks > old(Capacity()) && fits.pool;
              && (staged.Some? <==> old(staged).Some? || grows)
              && Capacity() == (if grows then Least(old(Capacity()) + fits.created, chunks) else old(Capacity()))
              && (fine <==> typed && chunks <= Capacity())
      ensures View() == old(View()).(logical := logical.Some?, pooled := staged.Some?, capacity := Capacity())
      ensures Excess() == old(Excess())
    {
      fine := HoldTypes(fits.types);
      if fine && chunks > Capacity() {
        fine := Grow(chunks, fits.pool, blanks);
      }
    }

    /** The reset chunks become the batch's rows. */
    method UseRows(rows: nat)
      requires Valid() && !stageFailed && Ceil(rows, size) <= Capacity()
      modifies this`stagedRows, this`staged
      ensures Valid() && View() == old(View()).(batch := old(View()).batch.(rows := Rows()))
      ensures Clean(Rows(), types) && |Rows()| == rows
    {
      Enough(rows, size);
      Scale(Ceil(rows, size), Capacity(), size);
      ResetChunks(rows);
      stagedRows := rows;
    }

    method BeginOpen(rows: nat, fits: Fits, blanks: seq<seq<seq<Cell>>>)
      requires Valid() && appender && status == OK && stagedRows == 0 && !stageFailed && types == EngineActive()
      requires |blanks| == fits.created && forall k | 0 <= k < |blanks| :: Blank(blanks[k])
      modifies this`stagedRows, this`logical, this`staged, this`status, process`live
      ensures Valid() && View() == Begin(old(View()), rows, fits, Rows())
      ensures Clean(Rows(), types) && (Rows() == [] || |Rows()| == rows)
      ensures Excess() == old(Excess())
    {
      CeilIsDivision(rows, size);
      var chunks := (rows + size - 1) / size;
      var fine := Reserve(chunks, fits, blanks);
      BeginRows(rows, fine);
      BeginShape(old(View()), rows, fits, Rows(), logical.Some?, staged.Some?, Capacity(), View());
    }

    /** The end of stage_begin: rows, or the allocation failure. */
    method BeginRows(rows: nat, fine: bool)
      requires Valid() && status == OK && stagedRows == 0 && !stageFailed && (fine ==> Ceil(rows, size) <= Capacity())
      modifies this`stagedRows, this`staged, this`status
      ensures Valid()
      ensures View() == if fine then old(View()).(batch := old(View()).batch.(rows := Rows()))
          else old(View()).(status := ERROR)
      ensures Clean(Rows(), types) && |Rows()| == if fine then rows else 0
    {
      if fine {
        UseRows(rows);
      } else {
        status := ERROR;
      }
    }

    /** slot */
    predicate InStage(c: int, r: int)
      reads this`types, this`stagedRows
    {
      0 <= c < |types| && 0 <= r < stagedRows
    }

    /** A store to a slot. */
    method Store(c: nat, r: nat, bytes: seq<byte>)
      requires Valid() && InStage(c, r)
      modifies this`staged
      ensures Valid() && staged.Some? && Capacity() == old(Capacity()) && Rows() == Put(old(Rows()), c, r, bytes)
    {
      Locate(stagedRows, size, r);
      var cell := CellAt(PoolChunks(), types, size, c, r).(bytes := bytes);
      GridPut(PoolChunks(), types, size, stagedRows, c, r, cell);
      staged := Some(PutCell(staged.value, types, size, r / size, c, r % size, cell));
    }

    /** duckdb_validity_set_row_invalid on a slot. */
    method Invalidate(c: nat, r: nat)
      requires Valid() && InStage(c, r)
      modifies this`staged
      ensures Valid() && staged.Some? && Capacity() == old(Capacity()) && Rows() == Mark(old(Rows()), c, r)
    {
      Locate(stagedRows, size, r);
      var cell := CellAt(PoolChunks(), types, size, c, r).(isNull := true);
      GridPut(PoolChunks(), types, size, stagedRows, c, r, cell);
      staged := Some(PutCell(staged.value, types, size, r / size, c, r % size, cell));
    }

    /** Nothing stays staged. */
    method FailStage()
      requires Valid()
      modifies this`stagedRows, this`stageFailed
      ensures Valid() && View() == old(View()).(batch := Fail(old(View()).batch))
    {
      stagedRows, stageFailed := 0, true;
    }

    /** stage_fail: the first staging failure is kept. */
    method StageFail()
      requires Valid()
      modifies this`stagedRows, this`stageFailed
      ensures Valid() && View() == old(View()).(batch := Fail(old(View()).batch))
    {
      if !stageFailed {
        FailStage();
      }
    }

    method StageInt(c: int, r: int, x: int)
      requires Valid()
      modifies this`staged
      ensures Valid() && View() == Step(old(View()), Stage(StageInt64(c, r, x)))
      ensures Excess() == old(Excess())
    {
      if !InStage(c, r) {
        return;
      }
      var stored := IntStore(types[c], x);
      if stored.Some? {
        Store(c, r, stored.value);
      }
    }

    method StageDouble(c: int, r: int, single: seq<byte>, double: seq<byte>)
      requires Valid()
      modifies this`staged
      ensures Valid() && View() == Step(old(View()), Stage(StageFloat(c, r, single, double)))
      ensures Excess() == old(Excess())
    {
      if InStage(c, r) && (types[c] == FLOAT || types[c] == DOUBLE) {
        Store(c, r, if types[c] == FLOAT then single else double);
      }
    }

    method StageText(c: int, r: int, text: seq<byte>, utf8: bool)
      requires Valid()
      modifies this`staged, this`stagedRows, this`stageFailed
      ensures Valid() && View() == Step(old(View()), Stage(StageString(c, r, text, utf8)))
      ensures Excess() == old(Excess())
    {
      if !InStage(c, r) {
        return;
      }
      if types[c] == VARCHAR && !utf8 {
        FailStage();
      } else if types[c] == VARCHAR || types[c] == BLOB {
        Store(c, r, text);
      }
    }

    method StageNullRow(c: int, r: int)
      requires Valid()
      modifies this`staged
      ensures Valid() && View() == Step(old(View()), Stage(StageNull(c, r)))
      ensures Excess() == old(Excess())
    {
      if InStage(c, r) {
        Invalidate(c, r);
      }
    }

    /** stage_range */
    predicate Range(c: int, a: array1, at: int, n: int)
      reads this`types, this`staged, this`stagedRows
    {
      && staged.Some? && |staged.value| > 0 && 0 <= c < |types| && n > 0
      && n <= stagedRows && n <= size && a.dims == 1 && 0 <= at <= a.dim - n
    }

    lemma RangeIsInRange(c: int, a: array1, at: int, n: int)
      requires Valid()
      ensures Range(c, a, at, n) <==> InRange(types, size, stagedRows, c, a, at, n)
    {
    }

    /** The normalizing loop for BOOLEAN columns. */
    method BlitBooleans(c: nat, values: array1, at: nat, n: nat)
      requires Valid() && c < |types| && types[c] == BOOLEAN && n <= stagedRows
      requires values.dims == 1 && at + n <= values.dim && values.kind == UINT8
      modifies this`staged
      ensures Valid() && (staged.Some? <==> old(staged).Some?) && Capacity() == old(Capacity())
      ensures Rows() == PutColumn(old(Rows()), |types|, c, BOOLEAN, values, at, n)
    {
      var i := 0;
      ghost var before := Rows();
      while i < n
        invariant 0 <= i <= n && Valid() && (staged.Some? <==> old(staged).Some?) && Capacity() == old(Capacity())
        invariant Rows() == PutColumn(before, |types|, c, BOOLEAN, values, at, i)
      {
        StoreBoolean(c, i, At(values, at + i));
        i := i + 1;
      }
    }

    method StoreBoolean(c: nat, r: nat, element: seq<byte>)
      requires Valid() && InStage(c, r) && |element| == 1
      modifies this`staged
      ensures Valid() && staged.Some? && Capacity() == old(Capacity())
      ensures Rows() == Put(old(Rows()), c, r, StoredElement(BOOLEAN, element))
    {
      Store(c, r, [if element[0] != 0 then 1 else 0]);
    }

    method StageColumn(c: int, values: array1, at: int, n: int)
      requires Valid()
      modifies this`staged, this`stagedRows, this`stageFailed
      ensures Valid() && View() == Step(old(View()), Stage(StageBlit(c, values, at, n)))
      ensures Excess() == old(Excess())
    {
      RangeIsInRange(c, values, at, n);
      if !Range(c, values, at, n) || Width(types[c]) == 0 || StageKind(types[c]) != Some(values.kind) {
        StageFail();
        return;
      }
      KindFitsColumn(types[c], values.kind);
      if types[c] == BOOLEAN {
        BlitBooleans(c, values, at, n);
      } else {
        GridFill(staged.value, types, size, stagedRows, c, values, at, n);
        staged := Some(Fill(staged.value, types, size, c, values, at, n));
      }
    }

    method MarkRows(c: nat, mask: array1, at: nat, n: nat)
      requires Valid() && c < |types| && n <= stagedRows
      requires mask.dims == 1 && at + n <= mask.dim && mask.kind == UINT8
      modifies this`staged
      ensures Valid() && (staged.Some? <==> old(staged).Some?) && Capacity() == old(Capacity())
      ensures Rows() == MarkColumn(old(Rows()), |types|, c, mask, at, n)
    {
      var i := 0;
      ghost var before := Rows();
      while i < n
        invariant 0 <= i <= n && Valid() && (staged.Some? <==> old(staged).Some?) && Capacity() == old(Capacity())
        invariant Rows() == MarkColumn(before, |types|, c, mask, at, i)
      {
        if At(mask, at + i)[0] == 0 {
          Invalidate(c, i);
        }
        i := i + 1;
      }
    }

    method StageNulls(c: int, mask: array1, at: int, n: int)
      requires Valid()
      modifies this`staged, this`stagedRows, this`stageFailed
      ensures Valid() && View() == Step(old(View()), Stage(StageMask(c, mask, at, n)))
      ensures Excess() == old(Excess())
    {
      RangeIsInRange(c, mask, at, n);
      if !Range(c, mask, at, n) || mask.kind != UINT8 {
        StageFail();
        return;
      }
      MarkRows(c, mask, at, n);
    }

    // ----- appending, flushing, closing

    /** The admission loop over the staged chunks. */
    method Offer(script: seq<Outcome>)
      requires Valid() && appender && !stageFailed
      modifies this`status, this`engine
      ensures Valid() && View() == IssueAll(old(View()), Chunks(Rows(), size, 0), script)
    {
      CeilIsDivision(stagedRows, size);
      var chunks := (stagedRows + size - 1) / size;
      var left := script;
      var k := 0;
      ghost var calls := Chunks(Rows(), size, 0);
      ghost var goal := IssueAll(View(), calls, script);
      while k < chunks && status == OK
        invariant 0 <= k <= chunks == |calls| && Valid()
        invariant goal == IssueAll(View(), calls[k..], left)
      {
        IssueStep(View(), calls, k, left);
        OfferOne(k, First(left));
        left := Rest(left);
        k := k + 1;
      }
    }

    /** The k-th staged chunk, with its length set, in one interruptible call. */
    method OfferOne(k: nat, o: Outcome)
      requires Valid() && k < Ceil(stagedRows, size)
      modifies this`status, this`engine
      ensures Valid() && View() == Issue(old(View()), Chunks(Rows(), size, 0)[k], o)
    {
      var length := Length(k);
      ChunkIsOffered(PoolChunks(), types, size, stagedRows, k, length);
      Call(Append(ChunkRows(staged.value[k], types, size, length)), o);
    }

    /** What duckdb_data_chunk_set_size is given for the k-th chunk. */
    method Length(k: nat) returns (length: nat)
      requires Valid() && k < Ceil(stagedRows, size)
      ensures k < Capacity() && length <= size
      ensures length == if k + 1 < Ceil(stagedRows, size) then size else stagedRows - k * size
    {
      CeilIsDivision(stagedRows, size);
      ChunkHoldsRows(PoolChunks(), types, size, stagedRows, k);
      var chunks := (stagedRows + size - 1) / size;
      length := if k + 1 < chunks then size else stagedRows - k * size;
    }

    /** At most RETAINED chunks are kept. */
    method Shrink()
      requires Valid() && stagedRows == 0
      modifies this`staged, process`live
      ensures Valid() && Capacity() == Least(old(Capacity()), RETAINED) && (staged.Some? <==> old(staged).Some?)
      ensures Excess() == old(Excess())
    {
      if Capacity() > RETAINED {
        var k := RETAINED;
        while k < |staged.value|
          invariant RETAINED <= k <= |staged.value| && process.live == old(process.live) - (k - RETAINED)
          modifies process`live
        {
          process.Released();
          k := k + 1;
        }
        staged := Some(staged.value[..RETAINED]);
      }
    }

    /** ml_duckdb_append_staged */
    method AppendStaged(script: seq<Outcome>)
      requires Valid()
      modifies this`status, this`engine, this`stagedRows, this`stageFailed, this`staged, process`live
      ensures Valid() && View() == AppendAll(old(View()), script)
      ensures Excess() == old(Excess())
    {
      if !appender || stageFailed {
        Error();
        ClearStage();
      } else {
        Offer(script);
        ClearStage();
        Shrink();
      }
    }

    /** ml_duckdb_flush_appender */
    method FlushAppender(o: Outcome)
      requires Valid()
      modifies this`status, this`engine
      ensures Valid() && View() == Step(old(View()), Op.FlushAppender(o))
    {
      Call(Flush, o);
    }

    method FreeChunks()
      modifies process`live
      ensures process.live == old(process.live) - Capacity()
    {
      var k := 0;
      while k < Capacity()
        invariant 0 <= k <= Capacity() && process.live == old(process.live) - k
      {
        process.Released();
        k := k + 1;
      }
    }

    /** release_staging */
    method Release()
      requires Valid()
      modifies this`staged, this`stagedRows, this`logical, process`live
      ensures Valid() && staged.None? && logical.None? && View() == ReleaseStaging(old(View()))
      ensures Excess() == old(Excess())
    {
      FreeChunks();
      var _ := process.Drop(staged.Some?);
      var _ := process.Drop(logical.Some?);
      staged, stagedRows, logical := None, 0, None;
    }

    /** duckdb_appender_clear and check. */
    method ClearBuffer(ok: bool)
      requires Valid()
      modifies this`status, this`engine
      ensures Valid() && View() == Clear(old(View()), ok)
    {
      if ok {
        engine := engine.(discarded := engine.discarded + engine.buffer, buffer := []);
      } else {
        Error();
      }
    }

    /** duckdb_appender_destroy, release_staging and clear_input. */
    method DestroyNative(flushes: bool)
      requires Valid() && appender
      modifies this`appender, this`engine, this`staged, this`stagedRows, this`stageFailed, this`logical, process`live
      ensures Valid() && View() == Shut(Destroy(old(View()), flushes))
      ensures Excess() == old(Excess())
    {
      var after := Destroy(View(), flushes);
      engine := engine.(table := after.table, buffer := after.buffer, discarded := after.discarded);
      Release();
      appender := false;
      process.Released();
      ClearStage();
    }

    /** Only the ordinary close asks for a flush, and only of an appender in order. */
    method FlushFirst(flush: bool, o: Outcome)
      requires Valid() && appender
      modifies this`status, this`engine
      ensures Valid() && View() == if flush then Issue(old(View()), CloseFlush, o) else old(View())
    {
      if flush && status == OK {
        Call(CloseFlush, o);
      }
    }

    method ClearAndDestroy(clearOk: bool, destroyFlushes: bool)
      requires Valid() && appender
      modifies this`appender, this`status, this`engine, this`staged, this`stagedRows, this`stageFailed, this`logical,
               process`live
      ensures Valid() && View() == Shut(Destroy(Clear(old(View()), clearOk), destroyFlushes))
      ensures Excess() == old(Excess())
    {
      ClearBuffer(clearOk);
      DestroyNative(destroyFlushes);
    }

    method CloseOpen(flush: bool, o: Outcome, clearOk: bool, destroyFlushes: bool)
      requires Valid() && appender
      modifies this`appender, this`status, this`engine, this`staged, this`stagedRows, this`stageFailed, this`logical,
          process`live
      ensures Valid() && View() == Close(old(View()), flush, o, clearOk, destroyFlushes)
      ensures Excess() == old(Excess())
    {
      FlushFirst(flush, o);
      ClearAndDestroy(clearOk, destroyFlushes);
    }

    /** close_native: the buffer is cleared before the appender is destroyed. */
    method CloseNative(flush: bool, o: Outcome, clearOk: bool, destroyFlushes: bool)
      requires Valid()
      modifies this`appender, this`status, this`engine, this`staged, this`stagedRows, this`stageFailed, this`logical,
          process`live
      ensures Valid() && View() == Close(old(View()), flush, o, clearOk, destroyFlushes)
      ensures Excess() == old(Excess())
    {
      if appender {
        CloseOpen(flush, o, clearOk, destroyFlushes);
      } else {
        ClearStage();
      }
    }

    /** delete_owner, up to the shell: nothing is left and what was held has been released. */
    method Delete(clearOk: bool, destroyFlushes: bool)
      requires Valid()
      modifies this`appender, this`status, this`engine, this`staged, this`stagedRows, this`stageFailed, this`logical,
               this`schema, this`table, this`typeArray, this`nullable, process`live
      ensures Valid() && View() == Close(old(View()), false, Suppressed, clearOk, destroyFlushes)
      ensures Held() == 0 && process.live == old(process.live - Held())
    {
      CloseNative(false, Suppressed, clearOk, destroyFlushes);
      FreeSchema();
    }

    method FreeSchema()
      requires Valid()
      modifies this`schema, this`table, this`typeArray, this`nullable, process`live
      ensures Valid() && !schema && !table && !typeArray && !nullable && Excess() == old(Excess())
    {
      schema := process.Drop(schema);
      table := process.Drop(table);
      typeArray := process.Drop(typeArray);
      nullable := process.Drop(nullable);
    }

    // ----- creation and column selection

    /** One admission and its call, made only while the status is OK. */
    method Gate(o: Outcome)
      requires status == OK
      modifies this`status
      ensures status == match o case Suppressed => CANCELLED case Refused => ERROR case Done(_) => OK
    {
      match o {
        case Suppressed => status := CANCELLED;
        case Refused => status := ERROR;
        case Done(_) =>
      }
    }

    /** The gates from `from` to `to`, up to the first that does not pass. */
    method Gates(script: seq<Outcome>, from: nat, to: nat) returns (k: nat)
      requires status == OK && from <= to && forall j | 0 <= j < from :: Verdict(script, j).Done?
      modifies this`status
      ensures from <= k <= to && forall j | 0 <= j < k :: Verdict(script, j).Done?
      ensures k < to ==> !Verdict(script, k).Done?
      ensures status == if k == to then OK else if Verdict(script, k).Refused? then ERROR else CANCELLED
    {
      k := from;
      while k < to
        invariant from <= k <= to && status == OK && forall j | 0 <= j < k :: Verdict(script, j).Done?
      {
        Gate(Verdict(script, k));
        if status != OK {
          return;
        }
        k := k + 1;
      }
    }

    /** ml_duckdb_create_appender, once per owner. A name that cannot be copied raises Out_of_memory. */
    method Create(e: CreateScript) returns (raised: bool)
      requires Valid() && !appender && status == OK && !schema && !table && !typeArray && !nullable
      requires engine == Engine([], [], [], [], [], [], []) && types == []
      requires Verdict(e.gates, CREATE).Done? ==> e.handle
      modifies this`appender, this`status, this`types, this`schema, this`table, this`typeArray, this`nullable,
          this`engine, process`live
      ensures Valid() && raised == !(e.schemaFits && e.tableFits)
      ensures status == if raised then OK else CreateStatus(e)
      ensures appender <==> !raised && Seen(e.gates, GATES) > CREATE && e.handle
      ensures !raised && status == OK ==> appender && types == Active(View()) == e.physical && typeArray && nullable
      ensures Excess() == old(Excess())
    {
      schema := process.Keep(e.schemaFits);
      if !schema {
        return true;
      }
      table := process.Keep(e.tableFits);
      if !table {
        return true;
      }
      raised := false;
      CreateAdmitted(e);
    }

    method CreateAdmitted(e: CreateScript)
      requires Valid() && !appender && status == OK && !typeArray && !nullable
      requires engine == Engine([], [], [], [], [], [], []) && types == [] && staged.None? && logical.None?
      requires Verdict(e.gates, CREATE).Done? ==> e.handle
      modifies this`appender, this`status, this`types, this`typeArray, this`nullable, this`engine, process`live
      ensures Valid() && status == CreateStatus(e) && (appender <==> Seen(e.gates, GATES) > CREATE && e.handle)
      ensures status == OK ==> appender && types == EngineActive() == e.physical && typeArray && nullable
      ensures Excess() == old(Excess())
    {
      var k := Gates(e.gates, 0, CREATE);
      if status == OK {
        k := CreateNative(e);
      }
      LeadingIs(e.gates, GATES, k);
      if status == OK {
        ReadColumns(e);
      }
    }

    /** The create call, which may leave an appender even when it fails, and the comparison of the counts. */
    method CreateNative(e: CreateScript) returns (k: nat)
      requires Valid() && !appender && status == OK && engine == Engine([], [], [], [], [], [], []) && types == []
      requires staged.None? && logical.None?
      requires (forall j | 0 <= j < CREATE :: Verdict(e.gates, j).Done?)
          && (Verdict(e.gates, CREATE).Done? ==> e.handle)
      modifies this`appender, this`status, this`engine, process`live
      ensures Valid() && CREATE <= k <= GATES && forall j | 0 <= j < k :: Verdict(e.gates, j).Done?
      ensures k < GATES ==> !Verdict(e.gates, k).Done?
      ensures status == if k == GATES then OK else if Verdict(e.gates, k).Refused? then ERROR else CANCELLED
      ensures appender <==> !Verdict(e.gates, CREATE).Suppressed? && e.handle
      ensures engine == Engine(if appender then e.physical else [], [], [], [], [], [], [])
      ensures Excess() == old(Excess())
    {
      Gate(Verdict(e.gates, CREATE));
      appender := process.Keep(!Verdict(e.gates, CREATE).Suppressed? && e.handle);
      if appender {
        engine := engine.(physical := e.physical);
      }
      k := CREATE;
      if status == OK {
        k := Gates(e.gates, CREATE + 1, GATES);
      }
    }

    /** The two arrays and the loop over the columns; a type not yet read is 0, which is no column type. */
    method ReadColumns(e: CreateScript)
      requires Valid() && status == OK && staged.None? && logical.None? && !typeArray && !nullable && types == []
      modifies this`status, this`types, this`typeArray, this`nullable, process`live
      ensures Valid() && Excess() == old(Excess())
      ensures status == if !e.typesFit || !e.nullableFit then ERROR
                        else if Unlatched(e.latches, |e.physical|) < |e.physical| then CANCELLED
                        else OK
      ensures status == OK ==> types == e.physical && typeArray && nullable
    {
      typeArray := process.Keep(e.typesFit);
      nullable := process.Keep(e.nullableFit);
      if !typeArray || !nullable {
        status := ERROR;
        return;
      }
      ReadTypes(e.latches, e.physical);
    }

    method ReadTypes(latches: seq<bool>, physical: seq<Ty>)
      requires Valid() && status == OK && staged.None? && logical.None?
      modifies this`status, this`types
      ensures Valid() && status == if Unlatched(latches, |physical|) < |physical| then CANCELLED else OK
      ensures status == OK ==> types == physical
    {
      var n := |physical|;
      types := seq(n, _ => OTHER);
      var i := 0;
      while i < n && !Latch(latches, i)
        invariant 0 <= i <= n == |types| && types[..i] == physical[..i]
        invariant forall j | 0 <= j < i :: !Latch(latches, j)
        modifies this`types
      {
        types := types[i := physical[i]];
        i := i + 1;
      }
      UnlatchedIs(latches, n, i);
      if i < n {
        status := CANCELLED;
      }
    }

    /** The copying loop: types of the named columns, until an index is out of range (an error) or a name
        cannot be copied (which raises). */
    method CopyNames(indices: seq<int>, oom: Option<nat>) returns (raised: bool, copies: nat, chosen: seq<Ty>)
      requires Valid()
      modifies this`status, process`live
      ensures raised == Raises(old(View()), indices, oom)
      ensures copies == if raised then oom.value else InCatalog(types, indices)
      ensures process.live == old(process.live) + copies
      ensures !raised && copies == |indices| ==> chosen == Chosen(types, indices)
      ensures status == if raised || copies == |indices| || old(status) != OK then old(status) else ERROR
    {
      var i := 0;
      chosen := [];
      while i < |indices| && 0 <= indices[i] < |types|
        invariant 0 <= i <= |indices| && |chosen| == i
        invariant forall j | 0 <= j < i :: 0 <= indices[j] < |types|
        invariant chosen == Chosen(types, indices[..i])
        invariant oom.Some? ==> i <= oom.value
        invariant process.live == old(process.live) + i
        modifies process`live
      {
        chosen := chosen + [types[indices[i]]];
        if oom == Some(i) {
          CatalogPrefix(types, indices, i);
          return true, i, chosen;
        }
        process.Acquired();
        i := i + 1;
      }
      CatalogStop(types, indices, i);
      assert i == |indices| ==> indices[..i] == indices;
      if i < |indices| && status == OK {
        status := ERROR;
      }
      raised, copies := false, i;
    }

    static lemma CatalogPrefix(types: seq<Ty>, indices: seq<int>, i: nat)
      requires i < |indices| && forall j | 0 <= j <= i :: 0 <= indices[j] < |types|
      ensures i < InCatalog(types, indices)
    {
    }

    static lemma CatalogStop(types: seq<Ty>, indices: seq<int>, i: nat)
      requires i <= |indices| && (forall j | 0 <= j < i :: 0 <= indices[j] < |types|)
      requires i < |indices| ==> !(0 <= indices[i] < |types|)
      ensures InCatalog(types, indices) == i
    {
    }

    /** The admitted calls that add the columns. */
    method AddAll(columns: seq<nat>, script: seq<Outcome>)
      requires Valid() && staged.None? && logical.None?
      requires forall i | 0 <= i < |columns| :: columns[i] < |engine.physical|
      modifies this`status, this`engine
      ensures Valid() && View() == IssueAll(old(View()), AddCalls(old(engine).physical, columns), script)
    {
      ghost var calls := AddCalls(engine.physical, columns);
      ghost var goal := IssueAll(View(), calls, script);
      var left := script;
      var i := 0;
      while i < |columns| && status == OK
        invariant 0 <= i <= |columns| && Valid() && engine.physical == old(engine).physical
        invariant goal == IssueAll(View(), calls[i..], left)
      {
        IssueStep(View(), calls, i, left);
        AddOne(columns, i, First(left));
        left := Rest(left);
        i := i + 1;
      }
    }

    method AddOne(columns: seq<nat>, i: nat, o: Outcome)
      requires Valid() && staged.None? && logical.None? && i < |columns|
      requires forall k | 0 <= k < |columns| :: columns[k] < |engine.physical|
      modifies this`status, this`engine
      ensures Valid() && engine.physical == old(engine).physical
      ensures View() == Issue(old(View()), AddCalls(old(engine).physical, columns)[i], o)
    {
      Call(AddColumn(engine.physical[columns[i]]), o);
    }

    method FreeCopies(copies: nat)
      modifies process`live
      ensures process.live == old(process.live) - copies - 1
    {
      var i := 0;
      while i < copies
        invariant 0 <= i <= copies && process.live == old(process.live) - i
      {
        process.Released();
        i := i + 1;
      }
      process.Released();
    }

    method TakeTypes(chosen: seq<Ty>)
      requires Valid() && staged.None? && logical.None?
      modifies this`types
      ensures Valid() && View() == old(View()).(batch := old(View()).batch.(types := chosen))
      ensures Held() == old(Held())
    {
      types := chosen;
    }

    /** From the last copied name on. */
    method SelectSteps(columns: seq<nat>, copies: nat, chosen: seq<Ty>, script: seq<Outcome>)
      requires Valid() && forall i | 0 <= i < |columns| :: columns[i] < |engine.physical|
      modifies this`status, this`engine, this`staged, this`stagedRows, this`logical, this`types, process`live
      ensures Valid()
      ensures var told := IssueAll(ReleaseStaging(old(View())), AddCalls(old(engine).physical, columns), script);
              View() == if told.status != OK then told else told.(batch := told.batch.(types := chosen))
      ensures Excess() == old(Excess()) - copies - 3
    {
      Release();
      AddAll(columns, script);
      FreeCopies(copies);
      if status == OK {
        TakeTypes(chosen);
      }
      process.Released();
      process.Released();
    }

    /** The three arrays and the copies. */
    method CopySelection(indices: seq<int>, oom: Option<nat>) returns (raised: bool, copies: nat, chosen: seq<Ty>)
      requires Valid()
      modifies this`status, process`live
      ensures raised == Raises(old(View()), indices, oom)
      ensures copies == if raised then oom.value else InCatalog(types, indices)
      ensures !raised && copies == |indices| ==> chosen == Chosen(types, indices)
      ensures View() == if raised || copies == |indices| then old(View()) else Note(old(View()), ERROR)
      ensures Excess() == old(Excess()) + copies + 3
    {
      process.Acquired();
      process.Acquired();
      process.Acquired();
      raised, copies, chosen := CopyNames(indices, oom);
    }

    /** ml_duckdb_appender_select_columns on a created appender. Out of memory while copying a name leaves the
        owner unchanged and everything allocated so far counted but unreachable; nothing else leaks. */
    method SelectColumns(columns: seq<nat>, indices: seq<int>, script: seq<Outcome>,
        oom: Option<nat>) returns (raised: bool)
      requires Valid() && typeArray && nullable && Selection(View(), columns, indices)
      modifies this`status, this`engine, this`staged, this`stagedRows, this`logical, this`types, process`live
      ensures Valid() && View() == Select(old(View()), columns, indices, script, oom)
      ensures raised == Raises(old(View()), indices, oom)
      ensures Excess() == old(Excess()) + if raised then 3 + oom.value else 0
    {
      var copies, chosen;
      raised, copies, chosen := CopySelection(indices, oom);
      if !raised {
        ghost var named := View();
        Poisoned(ReleaseStaging(named), AddCalls(engine.physical, columns), script);
        SelectSteps(columns, copies, chosen, script);
        SelectShape(old(View()), columns, indices, script, oom, named, View());
      }
    }

    static lemma Poisoned(a: App, calls: seq<UserCall>, script: seq<Outcome>)
      ensures a.status != OK ==> IssueAll(a, calls, script).status != OK
    {
    }
  }
}
