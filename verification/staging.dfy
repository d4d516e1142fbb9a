/** One batch of staged rows as a flat list, and the staging writes as functions on it. */
module Staging {
  import opened Native
  import opened Bytes

  /** A staged cell: the bytes last written and whether the row was marked NULL. */
  datatype Cell = Cell(bytes: seq<byte>, isNull: bool)

  type Row = seq<Cell>

  /** Bigarray element kinds. */
  datatype Kind = UINT8 | SINT8 | SINT16 | INT32 | INT64 | FLOAT32 | FLOAT64 | OTHERKIND

  function StageKind(t: Ty): Option<Kind> {
    match t
    case BOOLEAN => Some(UINT8)
    case TINYINT => Some(SINT8)
    case SMALLINT => Some(SINT16)
    case INTEGER => Some(INT32)
    case DATE => Some(INT32)
    case FLOAT => Some(FLOAT32)
    case DOUBLE => Some(FLOAT64)
    case BIGINT => Some(INT64)
    case TIMESTAMP => Some(INT64)
    case TIMESTAMP_S => Some(INT64)
    case TIMESTAMP_MS => Some(INT64)
    case TIMESTAMP_NS => Some(INT64)
    case TIMESTAMP_TZ => Some(INT64)
    case _ => None
  }

  function KindWidth(k: Kind): nat {
    match k
    case UINT8 => 1
    case SINT8 => 1
    case SINT16 => 2
    case INT32 => 4
    case FLOAT32 => 4
    case INT64 => 8
    case FLOAT64 => 8
    case OTHERKIND => 0
  }

  lemma KindFitsColumn(t: Ty, k: Kind)
    requires Width(t) > 0 && StageKind(t) == Some(k)
    ensures KindWidth(k) == Width(t)
  {
  }

  /** The first dimension of a Bigarray and its bytes. */
  datatype BigArray = BigArray(dims: nat, dim: nat, kind: Kind, data: seq<byte>)

  predicate ArrayOk(a: BigArray) {
    a.dims == 1 ==> |a.data| == a.dim * KindWidth(a.kind)
  }

  type array1 = a: BigArray | ArrayOk(a) witness BigArray(0, 0, OTHERKIND, [])

  /** The element of a one-dimensional array. */
  function At(a: array1, i: nat): (e: seq<byte>)
    requires a.dims == 1 && i < a.dim
    ensures |e| == KindWidth(a.kind)
  {
    assert (i + 1) * KindWidth(a.kind) <= a.dim * KindWidth(a.kind);
    Element(a.data, i, KindWidth(a.kind))
  }

  /** The staging calls. single and double are the bytes of the float after and before the cast to float;
      utf8 is the engine's verdict on the text. */
  datatype StageOp =
    | StageInt64(c: int, r: int, x: int)
    | StageFloat(c: int, r: int, single: seq<byte>, double: seq<byte>)
    | StageString(c: int, r: int, text: seq<byte>, utf8: bool)
    | StageNull(c: int, r: int)
    | StageBlit(c: int, values: array1, at: int, n: int)
    | StageMask(c: int, mask: array1, at: int, n: int)

  /** types: the active columns; size: rows per engine vector. */
  datatype Batch = Batch(types: seq<Ty>, size: nat, rows: seq<Row>, failed: bool)

  predicate Rectangular(rows: seq<Row>, columns: nat) {
    forall r | 0 <= r < |rows| :: |rows[r]| == columns
  }

  predicate BatchOk(b: Batch) {
    b.size > 0 && Rectangular(b.rows, |b.types|) && (b.failed ==> b.rows == [])
  }

  predicate InSlot(types: seq<Ty>, rows: nat, c: int, r: int) {
    0 <= c < |types| && 0 <= r < rows
  }

  /** stage_range */
  predicate InRange(types: seq<Ty>, size: nat, rows: nat, c: int, a: array1, at: int, n: int) {
    0 <= c < |types| && n > 0 && n <= rows && n <= size && a.dims == 1 && 0 <= at <= a.dim - n
  }

  predicate BlitOk(types: seq<Ty>, size: nat, rows: nat, c: int, a: array1, at: int, n: int) {
    InRange(types, size, rows, c, a, at, n) && Width(types[c]) > 0 && StageKind(types[c]) == Some(a.kind)
  }

  predicate MaskOk(types: seq<Ty>, size: nat, rows: nat, c: int, a: array1, at: int, n: int) {
    InRange(types, size, rows, c, a, at, n) && a.kind == UINT8
  }

  predicate IntColumn(t: Ty) {
    Width(t) > 0 && t != FLOAT && t != DOUBLE
  }

  /** The store stage_int64 makes in an integer, boolean or temporal column. */
  function StoredInt(t: Ty, x: int): seq<byte> {
    if t == BOOLEAN then [if x != 0 then 1 else 0] else Encode(x, Width(t))
  }

  /** The store stage_blit makes of one input element; booleans are normalized. */
  function StoredElement(t: Ty, e: seq<byte>): seq<byte>
    requires t == BOOLEAN ==> |e| == 1
  {
    if t == BOOLEAN then [if e[0] != 0 then 1 else 0] else e
  }

  // ----- the writes

  function Put(rows: seq<Row>, c: nat, r: nat, bytes: seq<byte>): seq<Row>
    requires r < |rows| && c < |rows[r]|
  {
    rows[r := rows[r][c := rows[r][c].(bytes := bytes)]]
  }

  function Mark(rows: seq<Row>, c: nat, r: nat): seq<Row>
    requires r < |rows| && c < |rows[r]|
  {
    rows[r := rows[r][c := rows[r][c].(isNull := true)]]
  }

  /** Rows 0..n of a column, one after the other. */
  function PutColumn(rows: seq<Row>, columns: nat, c: nat, t: Ty, a: array1, at: nat, n: nat): (out: seq<Row>)
    requires Rectangular(rows, columns) && c < columns && n <= |rows|
    requires a.dims == 1 && at + n <= a.dim && (t == BOOLEAN ==> KindWidth(a.kind) == 1)
    ensures |out| == |rows| && Rectangular(out, columns)
  {
    if n == 0 then rows
    else Put(PutColumn(rows, columns, c, t, a, at, n - 1), c, n - 1, StoredElement(t, At(a, at + n - 1)))
  }

  function MarkColumn(rows: seq<Row>, columns: nat, c: nat, a: array1, at: nat, n: nat): (out: seq<Row>)
    requires Rectangular(rows, columns) && c < columns && n <= |rows|
    requires a.dims == 1 && at + n <= a.dim && a.kind == UINT8
    ensures |out| == |rows| && Rectangular(out, columns)
  {
    if n == 0 then rows
    else
      var before := MarkColumn(rows, columns, c, a, at, n - 1);
      if At(a, at + n - 1)[0] == 0 then Mark(before, c, n - 1) else before
  }

  /** stage_fail, and the same effect in stage_string. */
  function Fail(b: Batch): Batch {
    b.(rows := [], failed := true)
  }

  function Staged(b: Batch, op: StageOp): (out: Batch)
    requires BatchOk(b)
    ensures BatchOk(out) && out.types == b.types && out.size == b.size
  {
    var rows := b.rows;
    match op
    case StageInt64(c, r, x) =>
      if InSlot(b.types, |rows|, c, r) && IntColumn(b.types[c])
          then b.(rows := Put(rows, c, r, StoredInt(b.types[c], x))) else b
    case StageFloat(c, r, single, double) =>
      if !InSlot(b.types, |rows|, c, r) then b
      else if b.types[c] == FLOAT then b.(rows := Put(rows, c, r, single))
      else if b.types[c] == DOUBLE then b.(rows := Put(rows, c, r, double))
      else b
    case StageString(c, r, text, utf8) =>
      if !InSlot(b.types, |rows|, c, r) then b
      else if b.types[c] == VARCHAR then (if utf8 then b.(rows := Put(rows, c, r, text)) else Fail(b))
      else if b.types[c] == BLOB then b.(rows := Put(rows, c, r, text))
      else b
    case StageNull(c, r) =>
      if InSlot(b.types, |rows|, c, r) then b.(rows := Mark(rows, c, r)) else b
    case StageBlit(c, values, at, n) =>
      if BlitOk(b.types, b.size, |rows|, c, values, at, n) then
        KindFitsColumn(b.types[c], values.kind);
        b.(rows := PutColumn(rows, |b.types|, c, b.types[c], values, at, n))
      else Fail(b)
    case StageMask(c, mask, at, n) =>
      if MaskOk(b.types, b.size, |rows|, c, mask, at, n) then b.(rows := MarkColumn(rows, |b.types|, c, mask, at, n))
          else Fail(b)
  }

  function Replay(b: Batch, ops: seq<StageOp>): (out: Batch)
    requires BatchOk(b)
    ensures BatchOk(out) && out.types == b.types && out.size == b.size
  {
    if ops == [] then b else Staged(Replay(b, ops[..|ops| - 1]), ops[|ops| - 1])
  }

  // ----- what one call means for one cell

  predicate Fails(op: StageOp, types: seq<Ty>, size: nat, rows: nat) {
    match op
    case StageString(c, r, _, utf8) => InSlot(types, rows, c, r) && types[c] == VARCHAR && !utf8
    case StageBlit(c, values, at, n) => !BlitOk(types, size, rows, c, values, at, n)
    case StageMask(c, mask, at, n) => !MaskOk(types, size, rows, c, mask, at, n)
    case _ => false
  }

  /** The bytes a call that does not fail stores at (c, r), if it stores there. */
  function Writes(op: StageOp, types: seq<Ty>, size: nat, rows: nat, c: nat, r: nat): Option<seq<byte>>
    requires c < |types| && r < rows && !Fails(op, types, size, rows)
  {
    match op
    case StageInt64(c', r', x) =>
      if c' == c && r' == r && IntColumn(types[c]) then Some(StoredInt(types[c], x)) else None
    case StageFloat(c', r', single, double) =>
      if c' != c || r' != r then None
      else if types[c] == FLOAT then Some(single)
      else if types[c] == DOUBLE then Some(double)
      else None
    case StageString(c', r', text, _) =>
      if c' == c && r' == r && (types[c] == VARCHAR || types[c] == BLOB) then Some(text) else None
    case StageBlit(c', values, at, n) =>
      if c' == c && r < n then
        KindFitsColumn(types[c], values.kind);
        Some(StoredElement(types[c], At(values, at + r)))
      else None
    case _ => None
  }

  predicate Nulls(op: StageOp, types: seq<Ty>, size: nat, rows: nat, c: nat, r: nat)
    requires c < |types| && r < rows && !Fails(op, types, size, rows)
  {
    match op
    case StageNull(c', r') => c' == c && r' == r
    case StageMask(c', mask, at, n) => c' == c && r < n && At(mask, at + r)[0] == 0
    case _ => false
  }

  lemma {:induction false} PutColumnAt(rows: seq<Row>, columns: nat, c: nat, t: Ty, a: array1, at: nat, n: nat,
      c': nat, r: nat)
    requires Rectangular(rows, columns) && c < columns && n <= |rows|
    requires a.dims == 1 && at + n <= a.dim && (t == BOOLEAN ==> KindWidth(a.kind) == 1)
    requires c' < columns && r < |rows|
    ensures PutColumn(rows, columns, c, t, a, at, n)[r][c']
         == if c' == c && r < n then rows[r][c].(bytes := StoredElement(t, At(a, at + r))) else rows[r][c']
    decreases n
  {
    if n > 0 {
      var before := PutColumn(rows, columns, c, t, a, at, n - 1);
      PutColumnAt(rows, columns, c, t, a, at, n - 1, c', r);
      PutAt(before, columns, c, n - 1, StoredElement(t, At(a, at + n - 1)), c', r);
    }
  }

  lemma PutAt(rows: seq<Row>, columns: nat, c: nat, k: nat, bytes: seq<byte>, c': nat, r: nat)
    requires Rectangular(rows, columns) && c < columns && k < |rows| && c' < columns && r < |rows|
    ensures Put(rows, c, k, bytes)[r][c'] == if c' == c && r == k then rows[r][c].(bytes := bytes) else rows[r][c']
  {
  }

  lemma MarkAt(rows: seq<Row>, columns: nat, c: nat, k: nat, c': nat, r: nat)
    requires Rectangular(rows, columns) && c < columns && k < |rows| && c' < columns && r < |rows|
    ensures Mark(rows, c, k)[r][c'] == if c' == c && r == k then rows[r][c].(isNull := true) else rows[r][c']
  {
  }

  lemma {:induction false} MarkColumnAt(rows: seq<Row>, columns: nat, c: nat, a: array1, at: nat, n: nat, c': nat,
      r: nat)
    requires Rectangular(rows, columns) && c < columns && n <= |rows|
    requires a.dims == 1 && at + n <= a.dim && a.kind == UINT8
    requires c' < columns && r < |rows|
    ensures MarkColumn(rows, columns, c, a, at, n)[r][c']
         == if c' == c && r < n && At(a, at + r)[0] == 0 then rows[r][c].(isNull := true) else rows[r][c']
    decreases n
  {
    if n > 0 {
      var before := MarkColumn(rows, columns, c, a, at, n - 1);
      MarkColumnAt(rows, columns, c, a, at, n - 1, c', r);
      MarkAt(before, columns, c, n - 1, c', r);
    }
  }

  /** One call changes each cell exactly as Writes and Nulls say. */
  predicate Changes(b: Batch, op: StageOp, c: nat, r: nat)
    requires BatchOk(b) && c < |b.types| && r < |b.rows| && !Fails(op, b.types, b.size, |b.rows|)
  {
    var out := Staged(b, op);
    var stored := Writes(op, b.types, b.size, |b.rows|, c, r);
    && !out.failed && |out.rows| == |b.rows|
    && out.rows[r][c].bytes == (if stored.Some? then stored.value else b.rows[r][c].bytes)
    && out.rows[r][c].isNull == (b.rows[r][c].isNull || Nulls(op, b.types, b.size, |b.rows|, c, r))
  }

  lemma BlitAt(b: Batch, op: StageOp, c: nat, r: nat)
    requires BatchOk(b) && c < |b.types| && r < |b.rows| && !Fails(op, b.types, b.size, |b.rows|) && op.StageBlit?
    ensures Changes(b, op, c, r)
  {
    KindFitsColumn(b.types[op.c], op.values.kind);
    PutColumnAt(b.rows, |b.types|, op.c, b.types[op.c], op.values, op.at, op.n, c, r);
  }

  lemma MaskAt(b: Batch, op: StageOp, c: nat, r: nat)
    requires BatchOk(b) && c < |b.types| && r < |b.rows| && !Fails(op, b.types, b.size, |b.rows|) && op.StageMask?
    ensures Changes(b, op, c, r)
  {
    MarkColumnAt(b.rows, |b.types|, op.c, op.mask, op.at, op.n, c, r);
  }

  lemma CellwiseAt(b: Batch, op: StageOp, c: nat, r: nat)
    requires BatchOk(b) && c < |b.types| && r < |b.rows| && !Fails(op, b.types, b.size, |b.rows|)
    requires !op.StageBlit? && !op.StageMask?
    ensures Changes(b, op, c, r)
  {
  }

  lemma ApplyAt(b: Batch, op: StageOp, c: nat, r: nat)
    requires BatchOk(b) && c < |b.types| && r < |b.rows| && !Fails(op, b.types, b.size, |b.rows|)
    ensures Changes(b, op, c, r)
  {
    if op.StageBlit? {
      BlitAt(b, op, c, r);
    } else if op.StageMask? {
      MaskAt(b, op, c, r);
    } else {
      CellwiseAt(b, op, c, r);
    }
  }

  // ----- whole histories of a batch

  predicate NoneFails(ops: seq<StageOp>, types: seq<Ty>, size: nat, rows: nat) {
    forall k | 0 <= k < |ops| :: !Fails(ops[k], types, size, rows)
  }

  /** A batch fails exactly when one of its calls does, and then nothing stays staged. */
  lemma {:induction false} FailsIffSomeCallDoes(b: Batch, ops: seq<StageOp>)
    requires BatchOk(b) && !b.failed
    ensures Replay(b, ops).failed <==> !NoneFails(ops, b.types, b.size, |b.rows|)
    ensures Replay(b, ops).failed ==> Replay(b, ops).rows == []
    ensures !Replay(b, ops).failed ==> |Replay(b, ops).rows| == |b.rows|
  {
    if ops != [] {
      var init, op := ops[..|ops| - 1], ops[|ops| - 1];
      FailsIffSomeCallDoes(b, init);
      if Replay(b, init).failed {
        FailureStays(Replay(b, init), op);
        var k :| 0 <= k < |init| && Fails(init[k], b.types, b.size, |b.rows|);
        assert ops[k] == init[k];
      } else {
        CallFails(Replay(b, init), op);
        assert NoneFails(init, b.types, b.size, |b.rows|);
        assert forall k | 0 <= k < |init| :: ops[k] == init[k];
      }
    }
  }

  lemma FailureStays(b: Batch, op: StageOp)
    requires BatchOk(b) && b.failed
    ensures Staged(b, op) == b
  {
  }

  lemma CallFails(b: Batch, op: StageOp)
    requires BatchOk(b) && !b.failed
    ensures Staged(b, op).failed <==> Fails(op, b.types, b.size, |b.rows|)
    ensures !Staged(b, op).failed ==> |Staged(b, op).rows| == |b.rows|
  {
  }

  /** The bytes of the last call that stored at (c, r). */
  function LastWrite(ops: seq<StageOp>, types: seq<Ty>, size: nat, rows: nat, c: nat, r: nat): Option<seq<byte>>
    requires c < |types| && r < rows && NoneFails(ops, types, size, rows)
  {
    if ops == [] then None
    else
      var last := Writes(ops[|ops| - 1], types, size, rows, c, r);
      if last.Some? then last else LastWrite(ops[..|ops| - 1], types, size, rows, c, r)
  }

  predicate Nulled(ops: seq<StageOp>, types: seq<Ty>, size: nat, rows: nat, c: nat, r: nat)
    requires c < |types| && r < rows && NoneFails(ops, types, size, rows)
  {
    exists k :: 0 <= k < |ops| && Nulls(ops[k], types, size, rows, c, r)
  }

  /** In a batch that has not failed, every cell holds its last staged value and is NULL exactly when it was
      nulled in this batch. */
  lemma {:induction false} LastWriteWins(b: Batch, ops: seq<StageOp>, c: nat, r: nat)
    requires BatchOk(b) && !b.failed && c < |b.types| && r < |b.rows| && NoneFails(ops, b.types, b.size, |b.rows|)
    ensures |Replay(b, ops).rows| == |b.rows|
    ensures var last := LastWrite(ops, b.types, b.size, |b.rows|, c, r);
            && Replay(b, ops).rows[r][c].bytes == (if last.Some? then last.value else b.rows[r][c].bytes)
            && Replay(b, ops).rows[r][c].isNull == (b.rows[r][c].isNull || Nulled(ops, b.types, b.size, |b.rows|, c, r))
  {
    FailsIffSomeCallDoes(b, ops);
    if ops != [] {
      var init, op := ops[..|ops| - 1], ops[|ops| - 1];
      assert NoneFails(init, b.types, b.size, |b.rows|) by {
        assert forall k | 0 <= k < |init| :: init[k] == ops[k];
      }
      LastWriteWins(b, init, c, r);
      FailsIffSomeCallDoes(b, init);
      ApplyAt(Replay(b, init), op, c, r);
      NulledStep(ops, b.types, b.size, |b.rows|, c, r);
    }
  }

  lemma NulledStep(ops: seq<StageOp>, types: seq<Ty>, size: nat, rows: nat, c: nat, r: nat)
    requires ops != [] && c < |types| && r < rows
    requires NoneFails(ops, types, size, rows) && NoneFails(ops[..|ops| - 1], types, size, rows)
    ensures Nulled(ops, types, size, rows, c, r)
       <==> Nulled(ops[..|ops| - 1], types, size, rows, c, r) || Nulls(ops[|ops| - 1], types, size, rows, c, r)
  {
    var init := ops[..|ops| - 1];
    assert forall k | 0 <= k < |init| :: init[k] == ops[k];
  }

  // ----- columnar staging is cell-by-cell staging

  /** The integer a Bigarray element holds. */
  function Value(t: Ty, e: seq<byte>): int {
    if t == BOOLEAN then Unsigned(e) else Signed(e)
  }

  lemma LoadThenStore(t: Ty, e: seq<byte>)
    requires IntColumn(t) && |e| == Width(t)
    ensures StoredInt(t, Value(t, e)) == StoredElement(t, e)
  {
    if t == BOOLEAN {
      assert e[1..] == [] && Unsigned(e) == e[0];
    } else {
      EncodeSigned(e);
    }
  }

  /** stage_int64 of each element in turn. */
  function Cells(t: Ty, c: int, a: array1, at: nat, n: nat): (ops: seq<StageOp>)
    requires a.dims == 1 && at + n <= a.dim
    ensures |ops| == n
  {
    if n == 0 then [] else Cells(t, c, a, at, n - 1) + [StageInt64(c, n - 1, Value(t, At(a, at + n - 1)))]
  }

  /** stage_null of each row whose mask byte is 0. */
  function NullCells(c: int, a: array1, at: nat, n: nat): seq<StageOp>
    requires a.dims == 1 && at + n <= a.dim && a.kind == UINT8
  {
    if n == 0 then []
    else NullCells(c, a, at, n - 1) + if At(a, at + n - 1)[0] == 0 then [StageNull(c, n - 1)] else []
  }

  lemma {:induction false} BlitIsCells(b: Batch, c: int, a: array1, at: int, n: int, k: nat)
    requires BatchOk(b) && BlitOk(b.types, b.size, |b.rows|, c, a, at, n) && IntColumn(b.types[c]) && k <= n
    ensures KindWidth(a.kind) == Width(b.types[c])
    ensures Replay(b, Cells(b.types[c], c, a, at, k))
        == b.(rows := PutColumn(b.rows, |b.types|, c, b.types[c], a, at, k))
    decreases k
  {
    var t := b.types[c];
    KindFitsColumn(t, a.kind);
    if k > 0 {
      BlitIsCells(b, c, a, at, n, k - 1);
      LoadThenStore(t, At(a, at + k - 1));
      var ops := Cells(t, c, a, at, k);
      assert ops[..|ops| - 1] == Cells(t, c, a, at, k - 1);
    }
  }

  lemma {:induction false} MaskIsNulls(b: Batch, c: int, a: array1, at: int, n: int, k: nat)
    requires BatchOk(b) && MaskOk(b.types, b.size, |b.rows|, c, a, at, n) && k <= n
    ensures Replay(b, NullCells(c, a, at, k)) == b.(rows := MarkColumn(b.rows, |b.types|, c, a, at, k))
    decreases k
  {
    if k > 0 {
      MaskIsNulls(b, c, a, at, n, k - 1);
      var ops := NullCells(c, a, at, k);
      if At(a, at + k - 1)[0] == 0 {
        assert ops[..|ops| - 1] == NullCells(c, a, at, k - 1);
      } else {
        assert ops == NullCells(c, a, at, k - 1);
      }
    }
  }

  lemma {:induction false} ReplayAppend(b: Batch, xs: seq<StageOp>, ys: seq<StageOp>)
    requires BatchOk(b)
    ensures Replay(b, xs + ys) == Replay(Replay(b, xs), ys)
    decreases ys
  {
    if ys == [] {
      assert xs + ys == xs;
    } else {
      var all, init := xs + ys, ys[..|ys| - 1];
      ReplayAppend(b, xs, init);
      assert all[..|all| - 1] == xs + init;
    }
  }

  /** stage_blit then stage_mask over a slice leaves the same batch as stage_int64 and stage_null on each of
      its rows, for integer, boolean and temporal columns, whenever both columnar calls are in order... */
  lemma ColumnarIsCellByCell(b: Batch, c: int, a: array1, at: int, mask: array1, maskAt: int, n: int)
    requires BatchOk(b) && 0 <= c < |b.types| && IntColumn(b.types[c])
    requires BlitOk(b.types, b.size, |b.rows|, c, a, at, n) && MaskOk(b.types, b.size, |b.rows|, c, mask, maskAt, n)
    ensures Replay(b, [StageBlit(c, a, at, n), StageMask(c, mask, maskAt, n)])
         == Replay(b, Cells(b.types[c], c, a, at, n) + NullCells(c, mask, maskAt, n))
  {
    BlitStep(b, c, a, at, n);
    MaskStep(Staged(b, StageBlit(c, a, at, n)), c, mask, maskAt, n);
    ReplayAppend(b, Cells(b.types[c], c, a, at, n), NullCells(c, mask, maskAt, n));
    ReplayTwo(b, StageBlit(c, a, at, n), StageMask(c, mask, maskAt, n));
  }

  lemma StagedBlit(b: Batch, c: int, a: array1, at: int, n: int)
    requires BatchOk(b) && BlitOk(b.types, b.size, |b.rows|, c, a, at, n)
    ensures KindWidth(a.kind) == Width(b.types[c])
    ensures Staged(b, StageBlit(c, a, at, n)) == b.(rows := PutColumn(b.rows, |b.types|, c, b.types[c], a, at, n))
  {
    KindFitsColumn(b.types[c], a.kind);
  }

  lemma StagedMask(b: Batch, c: int, a: array1, at: int, n: int)
    requires BatchOk(b) && MaskOk(b.types, b.size, |b.rows|, c, a, at, n)
    ensures Staged(b, StageMask(c, a, at, n)) == b.(rows := MarkColumn(b.rows, |b.types|, c, a, at, n))
  {
  }

  lemma BlitStep(b: Batch, c: int, a: array1, at: int, n: int)
    requires BatchOk(b) && BlitOk(b.types, b.size, |b.rows|, c, a, at, n) && IntColumn(b.types[c])
    ensures Replay(b, Cells(b.types[c], c, a, at, n)) == Staged(b, StageBlit(c, a, at, n))
    ensures |Staged(b, StageBlit(c, a, at, n)).rows| == |b.rows|
  {
    StagedBlit(b, c, a, at, n);
    BlitIsCells(b, c, a, at, n, n);
  }

  lemma MaskStep(b: Batch, c: int, a: array1, at: int, n: int)
    requires BatchOk(b) && MaskOk(b.types, b.size, |b.rows|, c, a, at, n)
    ensures Replay(b, NullCells(c, a, at, n)) == Staged(b, StageMask(c, a, at, n))
  {
    StagedMask(b, c, a, at, n);
    MaskIsNulls(b, c, a, at, n, n);
  }

  lemma ReplayTwo(b: Batch, x: StageOp, y: StageOp)
    requires BatchOk(b)
    ensures Replay(b, [x, y]) == Staged(Staged(b, x), y)
  {
    assert [x, y][..1] == [x] && [x][..0] == [];
    assert Replay(b, [x]) == Staged(Replay(b, []), x);
  }

  /** ... and otherwise copies nothing: the batch fails, however many calls came before. */
  lemma MismatchFailsTheBatch(b: Batch, before: seq<StageOp>, c: int, a: array1, at: int, mask: array1, maskAt: int,
      n: int,
                              after: seq<StageOp>)
    requires BatchOk(b) && !b.failed
    requires !(BlitOk(b.types, b.size, |b.rows|, c, a, at, n) && MaskOk(b.types, b.size, |b.rows|, c, mask, maskAt, n))
    ensures var out := Replay(b, before + [StageBlit(c, a, at, n), StageMask(c, mask, maskAt, n)] + after);
            out.failed && out.rows == []
  {
    var blit, masked := StageBlit(c, a, at, n), StageMask(c, mask, maskAt, n);
    var ops := before + [blit, masked] + after;
    assert ops[|before|] == blit && ops[|before| + 1] == masked;
    FailsIffSomeCallDoes(b, ops);
  }
}
