/** prepared_owner: the prepare, execute, fetch and close state machine and its per-chunk vector cache.

    `memory` is the engine's heap of live chunks. A cached pointer names a chunk and a column of it, and
    can be followed only while that chunk is in memory, so every read below is also a proof that no
    pointer is used after its chunk died. */
module Prepared {
  import opened Native
  import opened Connection
  import opened Bytes
  import opened Words
  import opened Scans
  import opened Vectors

  type ChunkId = nat

  datatype Pointer = Pointer(chunk: ChunkId, column: nat)

  /** duckdb_ml_vector. masked: the validity pointer is not NULL. */
  datatype Cached = Cached(target: Pointer, masked: bool, ty: Ty, width: nat)

  /** The width chunk_int64_unboxed loads for a column type. */
  function DirectWidth(t: Ty): nat {
    match t
    case BOOLEAN => 1
    case TINYINT => 1
    case SMALLINT => 2
    case INTEGER => 4
    case DATE => 4
    case _ => 8
  }

  /** A floating-point value, by its bytes. */
  datatype Float = Single(bytes: seq<byte>) | Double(bytes: seq<byte>)

  datatype PrepareScript = PrepareScript(
    latches: (bool, bool), extracted: bool, extractError: bool, count: nat,
    prepared: bool, prepareOk: bool, allowed: bool)

  datatype FetchOutcome = Suppressed | NoChunk(error: bool) | Got(id: ChunkId, chunk: EngineChunk, cacheFits: bool)

  class PreparedOwner {
    const parent: ConnectionOwner
    const process: Process
    var memory: map<ChunkId, EngineChunk>
    var prepared: bool
    var extracted: bool
    var input: bool
    var hasResult: bool
    var status: Status
    var chunk: Option<ChunkId>
    var vectors: Option<seq<Cached>>
    var vectorCount: nat
    var chunkRows: nat
    var types: seq<Ty> // column types of the engine's current result

    constructor (parent: ConnectionOwner)
      ensures this.parent == parent && process == parent.process && Valid() && !hasResult && Held() == 0
    {
      this.parent, process := parent, parent.process;
      memory := map[];
      prepared, extracted, input, hasResult, status := false, false, false, false, OK;
      chunk, vectors, vectorCount, chunkRows, types := None, None, 0, 0, [];
    }

    /** Counted resources in the fields, the shell apart. */
    function Held(): nat
      reads this
    {
      B(prepared) + B(extracted) + B(input) + B(hasResult) + B(chunk.Some?) + B(vectors.Some?)
    }

    predicate Valid()
      reads this`memory, this`chunk, this`hasResult, this`vectors, this`vectorCount, this`chunkRows, this`types
    {
      && memory.Keys == (if chunk.Some? then {chunk.value} else {})
      && (chunk.Some? ==> hasResult && Conforms(memory[chunk.value], types))
      && (if vectors.Some? then
            && hasResult && vectorCount == |vectors.value| == |types|
            && (forall k | 0 <= k < |types| ::
                  vectors.value[k].ty == types[k] && vectors.value[k].width == Width(types[k]))
          else vectorCount == 0)
      && (chunk.None? || vectors.None? ==> chunkRows == 0)
      && (chunk.Some? && vectors.Some? ==>
            chunkRows == memory[chunk.value].rows
            && forall k | 0 <= k < |types| ::
                 vectors.value[k].target == Pointer(chunk.value, k)
                 && vectors.value[k].masked == memory[chunk.value].columns[k].validity.Some?)
    }

    // ----- life cycle

    method DropChunk()
      modifies this`memory, this`chunk, this`chunkRows, process`live
      ensures chunk == None && chunkRows == 0
      ensures memory == (if old(chunk).Some? then old(memory) - {old(chunk).value} else old(memory))
      ensures process.live == old(process.live) - B(old(chunk).Some?)
    {
      chunkRows := 0;
      if chunk.Some? {
        memory := memory - {chunk.value};
        chunk := None;
        process.Released();
      }
    }

    /** clear_result: chunk, then cache, then result. */
    method ClearResult()
      requires Valid()
      modifies this`memory, this`chunk, this`chunkRows, this`vectors, this`vectorCount, this`hasResult, process`live
      ensures Valid() && !hasResult && chunk == None && vectors == None
      ensures process.live == old(process.live - B(hasResult) - B(chunk.Some?) - B(vectors.Some?))
    {
      DropChunk();
      if vectors.Some? {
        vectors, vectorCount := None, 0;
        process.Released();
      }
      hasResult := process.Drop(hasResult);
    }

    /** clear_prepared leaves nothing held. */
    method ClearPrepared()
      requires Valid()
      modifies this`memory, this`chunk, this`chunkRows, this`vectors, this`vectorCount, this`hasResult,
               this`prepared, this`extracted, this`input, process`live
      ensures Valid() && Held() == 0 && process.live == old(process.live - Held())
    {
      ClearResult();
      prepared := process.Drop(prepared);
      extracted := process.Drop(extracted);
      input := process.Drop(input);
    }

    /** The second admission of a preparation. */
    method PrepareStatement(e: PrepareScript)
      requires status == OK && !prepared
      modifies this`prepared, this`status, process`live
      ensures process.live == old(process.live) + B(prepared)
      ensures prepared == (!e.latches.1 && e.prepared)
      ensures status == OK <==> !e.latches.1 && e.prepareOk && e.allowed
      ensures status == CANCELLED <==> e.latches.1
    {
      if e.latches.1 {
        status := CANCELLED;
      } else {
        prepared := process.Keep(e.prepared);
        if !e.prepareOk {
          status := ERROR;
        } else if !e.allowed {
          status := UNSUPPORTED;
        }
      }
    }

    /** The first admission: extraction, whose result must hold exactly one statement. */
    method PrepareInput(e: PrepareScript)
      requires status == OK && !prepared && !extracted
      modifies this`prepared, this`extracted, this`status, process`live
      ensures process.live == old(process.live) + B(prepared) + B(extracted)
      ensures Prepared(e)
    {
      if e.latches.0 {
        status := CANCELLED;
      } else {
        extracted := process.Keep(e.extracted);
        if !e.extracted || e.extractError {
          status := ERROR;
        } else if e.count != 1 {
          status := UNSUPPORTED;
        } else {
          PrepareStatement(e);
        }
      }
    }

    predicate Prepared(e: PrepareScript)
      reads this`status, this`prepared
    {
      var single := e.extracted && !e.extractError && e.count == 1;
      && (status == OK <==> !e.latches.0 && single && !e.latches.1 && e.prepareOk && e.allowed)
      && (status == CANCELLED <==> e.latches.0 || (single && e.latches.1))
      && (prepared <==> !e.latches.0 && single && !e.latches.1 && e.prepared)
    }

    /** ml_duckdb_prepare, once per owner: only a statement can stay, and the status tells the answers. */
    method Prepare(e: PrepareScript)
      requires Valid() && !prepared && !extracted && !input
      modifies this`prepared, this`extracted, this`input, this`status, process`live
      ensures Valid() && !extracted && !input
      ensures process.live == old(process.live) + B(prepared)
      ensures Prepared(e)
    {
      input := process.Keep(true);
      status := OK;
      PrepareInput(e);
      extracted := process.Drop(extracted);
      input := process.Drop(input);
    }

    /** ml_duckdb_execute_prepared; the caller has closed any earlier result. latch: the admission is refused;
        changes: the statement is a CREATE, ALTER or DROP. A refused execution tells the epoch nothing, and a
        DDL execution advances it before and after and marks the connection, whether or not it succeeds. */
    method ExecutePrepared(latch: bool, changes: bool, ok: bool, resultTypes: seq<Ty>)
      requires Valid() && !hasResult
      modifies this`status, this`hasResult, this`types, process`live, process`epoch, parent`schemaDirty
      ensures Valid() && hasResult == !latch && (hasResult ==> types == resultTypes)
      ensures status == if latch then CANCELLED else if ok then OK else ERROR
      ensures process.epoch == old(process.epoch) + if !latch && changes then 2 else 0
      ensures parent.schemaDirty == (old(parent.schemaDirty) || (!latch && changes))
      ensures process.live - Held() == old(process.live - Held())
    {
      status := OK;
      if latch {
        status := CANCELLED;
      } else {
        hasResult := true;
        process.Acquired();
        SchemaEnter(changes);
        types := resultTypes;
        SchemaLeave(changes);
        if !ok {
          status := ERROR;
        }
      }
    }

    method SchemaEnter(changes: bool)
      modifies process`epoch, parent`schemaDirty
      ensures process.epoch == old(process.epoch) + B(changes)
      ensures parent.schemaDirty == (old(parent.schemaDirty) || changes)
    {
      if changes {
        parent.schemaDirty := true;
        process.Advance();
      }
    }

    method SchemaLeave(changes: bool)
      modifies process`epoch
      ensures process.epoch == old(process.epoch) + B(changes)
    {
      if changes {
        process.Advance();
      }
    }

    /** cache_vectors: the array is allocated once per result and refreshed at every chunk. */
    method CacheVectors(cacheFits: bool)
      requires hasResult && chunk.Some? && chunk.value in memory && Conforms(memory[chunk.value], types)
      requires memory.Keys == {chunk.value} && chunkRows == 0
      requires if vectors.Some? then
                 vectorCount == |vectors.value| == |types|
                 && forall k | 0 <= k < |types| ::
                      vectors.value[k].ty == types[k] && vectors.value[k].width == Width(types[k])
               else vectorCount == 0
      modifies this`vectors, this`vectorCount, this`chunkRows, this`status, process`live
      ensures Valid()
      ensures vectors.Some? <==> old(vectors).Some? || (types != [] && cacheFits)
      ensures process.live - B(vectors.Some?) == old(process.live - B(vectors.Some?))
      ensures status == if old(vectors).None? && types != [] && !cacheFits then ERROR else old(status)
    {
      var current := memory[chunk.value];
      var n := |current.columns|;
      if vectors.None? && n > 0 {
        if !cacheFits {
          status := ERROR;
          return;
        }
        var id := chunk.value;
        var blank := seq(n, k requires 0 <= k < n =>
          Cached(Pointer(id, k), false, current.columns[k].ty, Width(current.columns[k].ty)));
        vectors, vectorCount := Some(blank), n;
        process.Acquired();
      }
      if vectors.Some? {
        var filled := vectors.value;
        var c := 0;
        while c < n && c < vectorCount
          invariant 0 <= c <= n == vectorCount == |filled| == |types|
          invariant forall k | 0 <= k < n :: filled[k].ty == types[k] && filled[k].width == Width(types[k])
          invariant forall k | 0 <= k < c ::
                      filled[k].target == Pointer(chunk.value, k)
                          && filled[k].masked == current.columns[k].validity.Some?
        {
          filled := filled[c := filled[c].(target := Pointer(chunk.value, c),
              masked := current.columns[c].validity.Some?)];
          c := c + 1;
        }
        vectors := Some(filled);
        chunkRows := current.rows;
      }
    }

    /** The fetched chunk and its cache. */
    method TakeChunk(id: ChunkId, c: EngineChunk, cacheFits: bool)
      requires Valid() && hasResult && chunk == None && id !in memory && Conforms(c, types)
      modifies this`memory, this`chunk, this`chunkRows, this`vectors, this`vectorCount, this`status, process`live
      ensures Valid() && process.live - Held() == old(process.live - Held())
      ensures chunk == Some(id) && memory == map[id := c]
      ensures vectors.Some? <==> old(vectors).Some? || (types != [] && cacheFits)
      ensures status == if old(vectors).None? && types != [] && !cacheFits then ERROR else old(status)
    {
      memory := memory[id := c];
      chunk := Some(id);
      process.Acquired();
      CacheVectors(cacheFits);
    }

    /** ml_duckdb_fetch. The result is 1 with a chunk, 0 at the end, -1 with a status. */
    method Fetch(o: FetchOutcome) returns (r: int)
      requires Valid() && hasResult
      requires o.Got? ==> o.id !in memory && Conforms(o.chunk, types)
      modifies this`memory, this`chunk, this`chunkRows, this`vectors, this`vectorCount, this`status, process`live
      ensures Valid() && process.live - Held() == old(process.live - Held())
      ensures chunk == if o.Got? then Some(o.id) else None
      ensures o.Got? ==> memory == map[o.id := o.chunk]
      ensures r == if status != OK then -1 else if o.Got? then 1 else 0
      ensures status == CANCELLED <==> o.Suppressed?
      ensures r == 1 && types != [] ==> vectors.Some? && chunkRows == o.chunk.rows
    {
      DropChunk();
      status := OK;
      match o {
        case Suppressed =>
          status := CANCELLED;
        case NoChunk(error) =>
          if error {
            status := ERROR;
          }
        case Got(id, c, cacheFits) =>
          TakeChunk(id, c, cacheFits);
      }
      r := if status != OK then -1 else if chunk.Some? then 1 else 0;
    }

    // ----- direct reads (typed_stubs.c), which trust the caller's column and row

    predicate OnChunk(c: int, i: int)
      requires Valid()
      reads this
    {
      chunk.Some? && 0 <= c < |types| && 0 <= i < memory[chunk.value].rows
    }

    function Vector(c: nat): EngineVector
      requires Valid() && chunk.Some? && c < |types|
      reads this
    {
      memory[chunk.value].columns[c]
    }

    function ChunkValid(c: nat, i: nat): bool
      requires Valid() && OnChunk(c, i)
      reads this
    {
      RowValid(Vector(c), i)
    }

    /** The load ((T *)data)[i] for a w-byte T; it must stay inside the vector's data. */
    function Load(c: nat, i: nat, w: nat): seq<byte>
      requires Valid() && OnChunk(c, i) && (i + 1) * w <= |Vector(c).data|
      reads this
    {
      Element(Vector(c).data, i, w)
    }

    function ChunkInt64(c: nat, i: nat): int
      requires Valid() && OnChunk(c, i) && (i + 1) * DirectWidth(types[c]) <= |Vector(c).data|
      reads this
    {
      var e := Load(c, i, DirectWidth(types[c]));
      if types[c] == BOOLEAN then (if Unsigned(e) != 0 then 1 else 0) else Signed(e)
    }

    /** chunk_float: the float of a FLOAT column, the double of any other. */
    function ChunkFloat(c: nat, i: nat): Float
      requires Valid() && OnChunk(c, i)
      requires (i + 1) * (if types[c] == FLOAT then 4 else 8) <= |Vector(c).data|
      reads this
    {
      if types[c] == FLOAT then Single(Load(c, i, 4)) else Double(Load(c, i, 8))
    }

    // ----- cached reads (view_stubs.c), which refuse

    function Entry(c: int): (x: Option<Cached>)
      reads this
    {
      if chunk.Some? && 0 <= c < vectorCount && vectors.Some? && c < |vectors.value| then Some(vectors.value[c])
          else None
    }

    /** The entry when row i is on the cached chunk and its elements are exactly width bytes. */
    function Readable(c: int, i: int, width: nat): (x: Option<Cached>)
      requires Valid()
      reads this
      ensures x.Some? <==> vectors.Some? && OnChunk(c, i) && Width(types[c]) == width
      ensures x.Some? ==> x.value.target.chunk in memory && x.value.target == Pointer(chunk.value, c)
    {
      var x := Entry(c);
      if x.Some? && 0 <= i < chunkRows && x.value.width == width then x else None
    }

    /** Following a cached pointer. */
    function Follow(p: Pointer): EngineVector
      requires p.chunk in memory && p.column < |memory[p.chunk].columns|
      reads this
    {
      memory[p.chunk].columns[p.column]
    }

    function EntryValid(x: Cached, i: nat): bool
      requires x.target.chunk in memory && x.target.column < |memory[x.target.chunk].columns|
      requires var v := Follow(x.target); v.validity.Some? ==> i / 64 < |v.validity.value|
      reads this
    {
      !x.masked || Follow(x.target).validity.None? || ValidRow(Follow(x.target).validity.value, i)
    }

    /** read_T: what a cached read of width bytes loads, or None where it refuses. It refuses exactly off
        the cached chunk and at another width, and otherwise is the direct load. */
    function Read(c: int, i: int, width: nat): (r: Option<seq<byte>>)
      requires Valid() && width > 0
      reads this
      ensures r.Some? <==> vectors.Some? && OnChunk(c, i) && Width(types[c]) == width
      ensures r.Some? ==> (i + 1) * width <= |Vector(c).data| && r.value == Load(c, i, width)
    {
      var x := Readable(c, i, width);
      if x.None? then None
      else
        FitsVector(c, i);
        Some(Element(Follow(x.value.target).data, i, width))
    }

    lemma FitsVector(c: nat, i: nat)
      requires Valid() && OnChunk(c, i)
      ensures (i + 1) * Width(types[c]) <= |Vector(c).data|
    {
      var w := Width(types[c]);
      assert (i + 1) * w <= memory[chunk.value].rows * w;
    }

    /** view_int64, view_int32, view_int16, view_int8: 0 where refused. */
    function ViewInt(c: int, i: int, width: nat): (x: int)
      requires Valid() && width > 0
      reads this
    {
      match Read(c, i, width)
      case None => 0
      case Some(e) => Signed(e)
    }

    /** view_*_or: the default where refused or NULL. */
    function ViewIntOr(c: int, i: int, width: nat, d: int): (x: int)
      requires Valid() && width > 0
      reads this
      ensures x == if vectors.Some? && OnChunk(c, i) && Width(types[c]) == width && ChunkValid(c, i)
                   then ViewInt(c, i, width) else d
    {
      var x := Readable(c, i, width);
      if x.None? then d
      else
        FitsVector(c, i);
        CachedAt(c);
        if EntryValid(x.value, i) then Signed(Element(Follow(x.value.target).data, i, width)) else d
    }

    lemma CachedAt(c: nat)
      requires Valid() && chunk.Some? && vectors.Some? && c < |types|
      ensures vectors.value[c].target == Pointer(chunk.value, c)
      ensures vectors.value[c].masked == Vector(c).validity.Some?
    {
    }

    /** view_float and view_double: zero where refused. */
    function ViewFloat(c: int, i: int): Float
      requires Valid()
      reads this
    {
      match Read(c, i, 4)
      case None => Single(Zeros(4))
      case Some(e) => Single(e)
    }

    function ViewDouble(c: int, i: int): Float
      requires Valid()
      reads this
    {
      match Read(c, i, 8)
      case None => Double(Zeros(8))
      case Some(e) => Double(e)
    }

    function ViewBool(c: int, i: int): bool
      requires Valid()
      reads this
    {
      match Read(c, i, 1)
      case None => false
      case Some(e) => Unsigned(e) != 0
    }

    /** view_valid agrees with the direct chunk_valid on the cached chunk and is false off it. */
    function ViewValid(c: int, i: int): (v: bool)
      requires Valid()
      reads this
      ensures v <==> vectors.Some? && OnChunk(c, i) && ChunkValid(c, i)
    {
      var x := Entry(c);
      if x.Some? && 0 <= i < chunkRows then
        CachedAt(c);
        EntryValid(x.value, i)
      else false
    }

    /** On every cached row of matching width the cached read equals the direct one: integers, booleans and
        temporal values, and floats and doubles through the float reader. */
    lemma CachedReadIsDirectRead(c: nat, i: nat)
      requires Valid() && vectors.Some? && OnChunk(c, i) && Width(types[c]) > 0
      ensures types[c] != FLOAT ==>
                && (i + 1) * DirectWidth(types[c]) <= |Vector(c).data|
                && (if types[c] == BOOLEAN then (ChunkInt64(c, i) != 0) == ViewBool(c, i)
                    else ViewInt(c, i, Width(types[c])) == ChunkInt64(c, i))
      ensures types[c] == FLOAT ==> (i + 1) * 4 <= |Vector(c).data| && ViewFloat(c, i) == ChunkFloat(c, i)
      ensures types[c] == DOUBLE ==> (i + 1) * 8 <= |Vector(c).data| && ViewDouble(c, i) == ChunkFloat(c, i)
    {
      FitsVector(c, i);
      if types[c] != FLOAT {
        assert DirectWidth(types[c]) == Width(types[c]);
      }
    }

    /** The integer reader of typed_stubs.c takes a FLOAT column for eight-byte elements: on the rows whose eight
        bytes are in the vector it agrees with the four-byte cached read exactly when those eight bytes are the
        element's own four, sign-extended... */
    lemma FloatReadsAgreeIff(c: nat, i: nat)
      requires Valid() && vectors.Some? && OnChunk(c, i) && types[c] == FLOAT
      requires (i + 1) * 8 <= |Vector(c).data|
      ensures (i + 1) * 4 <= |Vector(c).data|
      ensures ViewInt(c, i, 4) == ChunkInt64(c, i) <==> Load(c, i, 8) == Load(c, i, 4) + SignBytes(Load(c, i, 4), 4)
    {
      FitsVector(c, i);
      SignExtended(Load(c, i, 8), Load(c, i, 4), 4);
    }

    /** ... and it leaves the data of the vector exactly in the second half of the rows, when the engine
        allocates no more than the rows need. */
    lemma FloatReadsLeaveTheVector(c: nat, i: nat)
      requires Valid() && OnChunk(c, i) && types[c] == FLOAT && |Vector(c).data| == 4 * memory[chunk.value].rows
      ensures (i + 1) * 8 > |Vector(c).data| <==> 2 * i + 2 > memory[chunk.value].rows
    {
    }

    /** Every other read is refused: without a chunk, off it, uncached, or at another width. */
    lemma OtherReadsRefused(c: int, i: int, width: nat, d: int)
      requires Valid() && width > 0
      requires chunk.None? || vectors.None? || !OnChunk(c, i) || Width(types[c]) != width
      ensures ViewInt(c, i, width) == 0 && ViewIntOr(c, i, width, d) == d
      ensures chunk.None? || vectors.None? ==> !ViewValid(c, i)
    {
    }

    // ----- mask scans over the cache

    /** The mask and row count a scan works on; refused entries have neither. */
    function Mask(c: int): (m: (Option<seq<word>>, nat))
      requires Valid()
      reads this
      ensures m.0.Some? ==> Covers(m.0.value, m.1)
    {
      var x := Entry(c);
      if x.None? then (None, 0)
      else
        CachedAt(c);
        (if x.value.masked then Follow(x.value.target).validity else None, chunkRows)
    }

    /** NULL rows among the first n of the cached chunk, row by row. */
    function NullRows(c: int, n: nat): nat
      requires Valid()
      reads this
    {
      if n == 0 then 0 else NullRows(c, n - 1) + if OnChunk(c, n - 1) && !ChunkValid(c, n - 1) then 1 else 0
    }

    lemma {:induction false} MaskCounts(c: nat, n: nat)
      requires Valid() && vectors.Some? && chunk.Some? && c < |types| && n <= chunkRows
      ensures NullRows(c, n) == if Vector(c).validity.None? then 0 else NullsBelow(Vector(c).validity.value, n)
    {
      CachedAt(c);
      if n > 0 {
        MaskCounts(c, n - 1);
      }
    }

    lemma {:induction false} NoNullsOffChunk(c: int, n: nat)
      requires Valid() && (chunk.None? || c < 0 || c >= |types|)
      ensures NullRows(c, n) == 0
    {
      if n > 0 {
        NoNullsOffChunk(c, n - 1);
      }
    }

    function Clamp(length: int): nat
      reads this`chunkRows
    {
      if length < 0 then 0 else if length < chunkRows then length else chunkRows
    }

    /** view_null_count counts exactly the rows view_valid calls NULL, below the length and the cached
        rows, of which there are none without a cache. */
    method ViewNullCount(c: int, length: int) returns (count: int)
      requires Valid()
      ensures count == NullRows(c, Clamp(length))
    {
      var m := Mask(c);
      count := NullCount(m.0, m.1, length);
      if Entry(c).Some? {
        MaskCounts(c, Clamp(length));
      } else if vectors.Some? {
        NoNullsOffChunk(c, Clamp(length));
      }
    }

    /** view_first_null: the least NULL row below the length and the cached rows, or -1 when there is
        none. */
    method ViewFirstNull(c: int, length: int) returns (first: int)
      requires Valid()
      ensures first == -1 || (0 <= first < Clamp(length) && OnChunk(c, first) && !ChunkValid(c, first))
      ensures forall i | 0 <= i < Clamp(length) && OnChunk(c, i) && (first != -1 ==> i < first) :: ChunkValid(c, i)
    {
      var m := Mask(c);
      first := FirstNull(m.0, m.1, length);
      if Entry(c).Some? {
        CachedAt(c);
      }
    }

    // ----- bulk copies out of the cache

    /** Whether view_blit copies into an array of `elements` elements of `size` bytes whose first dimension is
        `dim`. */
    predicate BlitFits(c: int, length: int, dim: nat, elements: nat, size: nat, pos: int)
      requires Valid()
      reads this
    {
      && vectors.Some? && chunk.Some? && 0 <= c < |types|
      && Width(types[c]) > 0 && elements > 0 && size == Width(types[c])
      && 0 <= length <= memory[chunk.value].rows && 0 <= pos && pos + length <= dim
    }

    /** What a reader defaulting to 0 sees at row i, as bytes. */
    function DefaultZero(c: int, i: int): seq<byte>
      requires Valid() && OnChunk(c, i)
      reads this
    {
      FitsVector(c, i);
      Slot(Vector(c), i, Width(types[c]))
    }

    /** The cached element is the default-0 read of its row. */
    lemma DefaultZeroIsTheRead(c: int, i: int)
      requires Valid() && vectors.Some? && OnChunk(c, i) && Width(types[c]) > 0
      ensures Signed(DefaultZero(c, i)) == ViewIntOr(c, i, Width(types[c]), 0)
      ensures Width(types[c]) == 1 ==> (Unsigned(DefaultZero(c, i)) != 0) == (ChunkValid(c, i) && ViewBool(c, i))
    {
      FitsVector(c, i);
      ZerosAreZero(Width(types[c]));
    }

    /** view_blit: every destination slot becomes the default-0 read of its row; everything else, and on a
        refusal the whole array, is left alone. */
    method ViewBlit(c: int, length: int, out: array<byte>, dim: nat, elements: nat, size: nat, pos: int)
      requires Valid() && out.Length == elements * size && (elements > 0 ==> dim <= elements)
      modifies out
      ensures BlitFits(c, length, dim, elements, size, pos) ==>
                && (forall i | 0 <= i < length ::
                      (pos + i) * size + size <= out.Length
                      && out[(pos + i) * size..(pos + i) * size + size] == DefaultZero(c, i))
                && forall k | 0 <= k < out.Length && !(pos * size <= k < (pos + length) * size) :: out[k] == old(out[k])
      ensures !BlitFits(c, length, dim, elements, size, pos) ==> out[..] == old(out[..])
    {
      var x := Entry(c);
      var rows := if x.Some? then chunkRows else 0;
      if length > rows {
        return;
      }
      var w := if x.Some? then x.value.width else 0;
      if w == 0 || w != (if elements > 0 then size else 0) {
        return;
      }
      if length < 0 || pos < 0 || pos > dim - length {
        return;
      }
      CachedAt(c);
      var v := Follow(x.value.target);
      Monotone(pos + length, elements, w);
      Monotone(length, rows, w);
      CopyRows(v, rows, length, out, pos);
      forall i | 0 <= i < length
        ensures (pos + i) * size + size <= out.Length
        ensures out[(pos + i) * size..(pos + i) * size + size] == DefaultZero(c, i)
      {
        assert SlotAt(out[..], v, i, pos);
      }
    }

    predicate ValidityFits(c: int, length: int, dim: nat, bytes: bool, pos: int)
      requires Valid()
      reads this
    {
      && vectors.Some? && chunk.Some? && 0 <= c < |types| && bytes
      && 0 <= length <= memory[chunk.value].rows && 0 <= pos && pos + length <= dim
    }

    /** view_blit_validity agrees with view_valid row by row. bytes: the array holds uint8 elements; dim is its
        first dimension. */
    method ViewBlitValidity(c: int, length: int, out: array<byte>, dim: nat, bytes: bool, pos: int)
      requires Valid() && dim <= out.Length
      modifies out
      ensures ValidityFits(c, length, dim, bytes, pos) ==>
                && (forall i | 0 <= i < length :: out[pos + i] == if ViewValid(c, i) then 1 else 0)
                && forall k | 0 <= k < out.Length && !(pos <= k < pos + length) :: out[k] == old(out[k])
      ensures !ValidityFits(c, length, dim, bytes, pos) ==> out[..] == old(out[..])
    {
      var x := Entry(c);
      var rows := if x.Some? then chunkRows else 0;
      if x.None? || length > rows || !bytes {
        return;
      }
      if length < 0 || pos < 0 || pos > dim - length {
        return;
      }
      CachedAt(c);
      CopyValidity(Follow(x.value.target), rows, length, out, pos);
    }
  }

  /** The bytes that sign-extend e. */
  function SignBytes(e: seq<byte>, k: nat): (s: seq<byte>)
    ensures |s| == k
  {
    seq(k, _ => if e != [] && e[|e| - 1] >= 128 then 255 else 0)
  }

  /** A longer load equals a shorter one exactly when it is its sign extension. */
  lemma SignExtended(long: seq<byte>, e: seq<byte>, k: nat)
    requires |e| > 0 && |long| == |e| + k
    ensures Signed(long) == Signed(e) <==> long == e + SignBytes(e, k)
  {
    EncodeSigned(long);
    ExtendedEncoding(e, k);
    SignedFits(e);
    FitsWider(Signed(e), |e|, k);
    StoreThenLoad(Signed(e), |e| + k);
  }

  /** An input on which the two readers of FloatReadsAgreeIff differ. */
  lemma FloatReadsCanDiffer()
    ensures var data: seq<byte> := [0, 0, 0, 0, 1, 0, 0, 0];
            Element(data, 0, 8) != Element(data, 0, 4) + SignBytes(Element(data, 0, 4), 4)
  {
    var data: seq<byte> := [0, 0, 0, 0, 1, 0, 0, 0];
    assert Element(data, 0, 8)[4] == 1;
    assert (Element(data, 0, 4) + SignBytes(Element(data, 0, 4), 4))[4] == 0;
  }
}
