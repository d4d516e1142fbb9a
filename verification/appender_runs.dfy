/** What holds over every history of an appender. */
module AppenderRuns {
  import opened Native
  import opened Bytes
  import opened Connection
  import opened Staging
  import opened AppenderSpec

  predicate CanDo(a: App, op: Op) {
    && AppOk(a) && Legal(a, op)
    && (op.SelectColumns? ==> Selection(a, op.columns, op.indices))
  }

  predicate LegalRun(a: App, ops: seq<Op>)
    decreases ops
  {
    AppOk(a) && (ops == [] || (CanDo(a, ops[0]) && LegalRun(Step(a, ops[0]), ops[1..])))
  }

  function Run(a: App, ops: seq<Op>): (out: App)
    requires LegalRun(a, ops)
    ensures AppOk(out)
    decreases ops
  {
    if ops == [] then a else Run(Step(a, ops[0]), ops[1..])
  }

  // ----- one engine call

  lemma SpillKeeps(a: App, k: nat)
    ensures Spill(a, k).table + Spill(a, k).buffer == a.table + a.buffer
    ensures a.table <= Spill(a, k).table
    ensures k >= |a.buffer| ==> Spill(a, k).buffer == [] && Spill(a, k).table == a.table + a.buffer
    ensures Spill(a, k) == a.(table := Spill(a, k).table, buffer := Spill(a, k).buffer)
  {
  }

  predicate SameOwner(a: App, b: App) {
    && b.open == a.open && b.batch == a.batch && b.logical == a.logical && b.pooled == a.pooled
    && b.capacity == a.capacity && b.physical == a.physical && b.discarded == a.discarded
  }

  /** table, buffer and discarded rows make up the accepted ones. */
  predicate Balance(a: App) {
    a.table + a.buffer + a.discarded == a.accepted
  }

  /** An engine call keeps the balance, and accepts rows only when it appends. */
  lemma IssueKeeps(a: App, call: UserCall, o: Outcome)
    requires AppOk(a)
    ensures AppOk(Issue(a, call, o)) && SameOwner(a, Issue(a, call, o))
    ensures a.table <= Issue(a, call, o).table
    ensures Issue(a, call, o).accepted == a.accepted + if a.status == OK && a.open && call.Append? && o.Done?
        then call.rows else []
    ensures a.status == OK ==> (Issue(a, call, o).status == OK <==> a.open && o.Done?)
    ensures a.status != OK ==> Issue(a, call, o) == a
  {
    if a.status == OK && a.open && o.Done? {
      var b := Take(a, call);
      TakeKeeps(a, call);
      SpillKeeps(b, if call.Flush? || call.CloseFlush? then |b.buffer| else o.spill);
    }
  }

  lemma TakeKeeps(a: App, call: UserCall)
    requires AppOk(a) && a.open
    ensures AppOk(Take(a, call)) && SameOwner(a, Take(a, call)) && Take(a, call).table == a.table
    ensures Take(a, call).accepted == a.accepted + if call.Append? then call.rows else []
  {
    if call.Append? {
      assert a.table + (a.buffer + call.rows) + [] == (a.table + a.buffer + []) + call.rows;
    }
  }

  lemma {:induction false} IssueAllKeeps(a: App, calls: seq<UserCall>, script: seq<Outcome>)
    requires AppOk(a)
    ensures var out := IssueAll(a, calls, script);
            AppOk(out) && SameOwner(a, out) && a.table <= out.table
    ensures a.status != OK ==> IssueAll(a, calls, script) == a
    decreases calls
  {
    if calls != [] && a.status == OK {
      IssueKeeps(a, calls[0], First(script));
      IssueAllKeeps(Issue(a, calls[0], First(script)), calls[1..], Rest(script));
    }
  }

  lemma IssueStep(a: App, calls: seq<UserCall>, i: nat, script: seq<Outcome>)
    requires i < |calls| && a.status == OK
    ensures IssueAll(a, calls[i..], script) == IssueAll(Issue(a, calls[i], First(script)), calls[i + 1..], Rest(script))
  {
    assert calls[i..][1..] == calls[i + 1..];
  }

  // ----- every operation

  lemma BeginKeeps(a: App, n: int, fits: Fits, stale: seq<Row>)
    requires AppOk(a) && (n >= 0 ==> |stale| <= n && Rectangular(stale, |a.batch.types|))
    ensures AppOk(Begin(a, n, fits, stale))
  {
    if n >= 0 {
      var size, chunks := a.batch.size, Ceil(n, a.batch.size);
      Enough(n, size);
      Scale(chunks, if chunks <= a.capacity then a.capacity else chunks, size);
    }
  }

  /** stage_begin on an open appender in order: what the allocations left. */
  lemma BeginShape(a: App, n: nat, fits: Fits, stale: seq<Row>, logical: bool, pooled: bool, capacity: nat, out: App)
    requires a.open && a.status == OK && !a.batch.failed && a.batch.rows == [] && a.batch.size > 0
    requires logical == (a.logical || (a.batch.types != [] && fits.types))
    requires var fine := logical || a.batch.types == [];
             var chunks := Ceil(n, a.batch.size);
             && pooled == (a.pooled || (fine && chunks > a.capacity && fits.pool))
             && capacity == (if fine && chunks > a.capacity && fits.pool then Least(a.capacity + fits.created, chunks)
                 else a.capacity)
             && out == (if fine && chunks <= capacity
                        then a.(logical := logical, pooled := pooled, capacity := capacity,
                            batch := a.batch.(rows := stale))
                        else a.(logical := logical, pooled := pooled, capacity := capacity, status := ERROR))
    ensures out == Begin(a, n, fits, stale)
  {
  }

  /** ceil(n / size) chunks hold n rows, and one fewer would not. */
  lemma Enough(n: nat, size: nat)
    requires size > 0
    ensures n <= Ceil(n, size) * size
    ensures n > 0 ==> Ceil(n, size) > 0 && (Ceil(n, size) - 1) * size < n
  {
    ChunkStarts(n, size, Ceil(n, size));
    if n > 0 {
      ChunkStarts(n, size, 0);
      ChunkStarts(n, size, Ceil(n, size) - 1);
    }
  }

  lemma StageKeeps(a: App, op: StageOp)
    requires AppOk(a)
    ensures AppOk(Step(a, Stage(op)))
  {
    if !a.batch.failed && !Staged(a.batch, op).failed {
      CallFails(a.batch, op);
    } else if a.batch.failed {
      FailureStays(a.batch, op);
    }
  }

  lemma ClearKeeps(a: App, ok: bool)
    requires Balance(a) && a.discarded == []
    ensures Balance(Clear(a, ok)) && Clear(a, ok).table == a.table && Clear(a, ok).accepted == a.accepted
    ensures Clear(a, ok).buffer == if ok then [] else a.buffer
    ensures Clear(a, ok).discarded == if ok then a.buffer else []
  {
  }

  lemma DestroyKeeps(a: App, flushes: bool)
    requires Balance(a) && (a.buffer == [] || a.discarded == [])
    ensures Balance(Destroy(a, flushes)) && Destroy(a, flushes).buffer == []
        && Destroy(a, flushes).accepted == a.accepted
    ensures Destroy(a, flushes).table == if flushes then a.table + a.buffer else a.table
    ensures Destroy(a, flushes).discarded == if flushes then a.discarded else a.discarded + a.buffer
  {
    SpillKeeps(a, |a.buffer|);
    assert a.table + [] + (a.discarded + a.buffer) == a.table + a.buffer + a.discarded;
  }

  lemma CloseKeeps(a: App, flush: bool, o: Outcome, clearOk: bool, destroyFlushes: bool)
    requires AppOk(a)
    ensures AppOk(Close(a, flush, o, clearOk, destroyFlushes))
    ensures a.table <= Close(a, flush, o, clearOk, destroyFlushes).table
  {
    if a.open {
      var flushed := if flush then Issue(a, CloseFlush, o) else a;
      IssueKeeps(a, CloseFlush, o);
      CloseRest(flushed, clearOk, destroyFlushes);
    }
  }

  lemma CloseRest(a: App, clearOk: bool, destroyFlushes: bool)
    requires Balance(a) && a.discarded == [] && a.batch.size > 0
    ensures var out := Shut(Destroy(Clear(a, clearOk), destroyFlushes)); AppOk(out) && a.table <= out.table
  {
    ClearKeeps(a, clearOk);
    DestroyKeeps(Clear(a, clearOk), destroyFlushes);
    ShutOk(Destroy(Clear(a, clearOk), destroyFlushes));
  }

  lemma ShutOk(a: App)
    requires Balance(a) && a.buffer == [] && a.batch.size > 0
    ensures AppOk(Shut(a)) && Shut(a).table == a.table
  {
  }

  lemma SelectKeeps(a: App, columns: seq<nat>, indices: seq<int>, script: seq<Outcome>, oom: Option<nat>)
    requires AppOk(a) && Selection(a, columns, indices)
    ensures AppOk(Select(a, columns, indices, script, oom))
    ensures a.table <= Select(a, columns, indices, script, oom).table
  {
    if !Raises(a, indices, oom) {
      var named := if InCatalog(a.batch.types, indices) < |indices| then Note(a, ERROR) else a;
      IssueAllKeeps(ReleaseStaging(named), AddCalls(a.physical, columns), script);
    }
  }

  lemma AppendKeeps(a: App, script: seq<Outcome>)
    requires AppOk(a)
    ensures AppOk(AppendAll(a, script)) && a.table <= AppendAll(a, script).table
    ensures a.open && !a.batch.failed ==> AppendAll(a, script).capacity <= RETAINED
  {
    IssueAllKeeps(a, Chunks(a.batch.rows, a.batch.size, 0), script);
  }

  /** Every operation keeps the invariant, whatever the engine, the allocator and the latch answer, and never
      takes a row back out of the table. */
  lemma StepKeeps(a: App, op: Op)
    requires CanDo(a, op)
    ensures AppOk(Step(a, op)) && a.table <= Step(a, op).table
  {
    match op
    case StageBegin(n, fits, stale) => BeginKeeps(a, n, fits, stale);
    case Stage(s) => StageKeeps(a, s);
    case ClearStage =>
    case AppendStaged(script) => AppendKeeps(a, script);
    case FlushAppender(o) => IssueKeeps(a, Flush, o);
    case SelectColumns(columns, indices, script, oom) => SelectKeeps(a, columns, indices, script, oom);
    case CloseAppender(flush, o, clearOk, destroyFlushes) => CloseKeeps(a, flush, o, clearOk, destroyFlushes);
  }

  // ----- the sticky status

  lemma {:induction false} IssueAllSilent(a: App, calls: seq<UserCall>, script: seq<Outcome>)
    requires a.status != OK
    ensures IssueAll(a, calls, script) == a
  {
  }

  lemma PoisonedStep(a: App, op: Op)
    requires CanDo(a, op) && a.status != OK
    ensures Step(a, op).status == a.status && Step(a, op).calls == a.calls && Step(a, op).accepted == a.accepted
    ensures op.CloseAppender? || Step(a, op).table == a.table
  {
    match op
    case AppendStaged(script) => IssueAllSilent(a, Chunks(a.batch.rows, a.batch.size, 0), script);
    case SelectColumns(columns, indices, script, oom) =>
      IssueAllSilent(ReleaseStaging(a), AddCalls(a.physical, columns), script);
    case _ =>
  }

  /** The status leaves OK at most once; from then on it never changes and no append, flush, close-flush or
      column call is issued and no row accepted, in any continuation. */
  lemma {:induction false} PoisonIsForever(a: App, ops: seq<Op>)
    requires LegalRun(a, ops) && a.status != OK
    ensures Run(a, ops).status == a.status && Run(a, ops).calls == a.calls && Run(a, ops).accepted == a.accepted
    decreases ops
  {
    if ops != [] {
      PoisonedStep(a, ops[0]);
      PoisonIsForever(Step(a, ops[0]), ops[1..]);
    }
  }

  /** Staging calls touch nothing but the batch: no status, no engine call, no row. */
  lemma {:induction false} StagingIsPrivate(a: App, ops: seq<Op>)
    requires LegalRun(a, ops) && forall k | 0 <= k < |ops| :: ops[k].Stage? || ops[k].ClearStage?
    ensures Run(a, ops) == a.(batch := Run(a, ops).batch)
    decreases ops
  {
    if ops != [] {
      assert Step(a, ops[0]) == a.(batch := Step(a, ops[0]).batch);
      StagingIsPrivate(Step(a, ops[0]), ops[1..]);
    }
  }

  /** A failed batch appends no chunk; its failure becomes the status in append_staged, and only there: a
      cleared stage drops it. */
  lemma FailedBatch(a: App, script: seq<Outcome>)
    requires AppOk(a) && a.open && a.batch.failed
    ensures var out := AppendAll(a, script);
            out.accepted == a.accepted && out.calls == a.calls && out.table == a.table && out.buffer == a.buffer
    ensures AppendAll(a, script).status == if a.status == OK then ERROR else a.status
    ensures ClearInput(a).status == a.status && !ClearInput(a).batch.failed && ClearInput(a).batch.rows == []
    ensures AppendAll(ClearInput(a), script) == ClearInput(a).(capacity := Least(a.capacity, RETAINED))
  {
    assert Ceil(0, a.batch.size) == 0 by {
      ChunkStarts(0, a.batch.size, 0);
    }
  }

  // ----- appending is exact

  function Leading(script: seq<Outcome>, n: nat): (k: nat)
    ensures k <= n
  {
    if n == 0 || !First(script).Done? then 0 else 1 + Leading(Rest(script), n - 1)
  }

  function Verdict(script: seq<Outcome>, k: nat): Outcome {
    if k < |script| then script[k] else Suppressed
  }

  lemma {:induction false} LeadingIs(script: seq<Outcome>, n: nat, k: nat)
    requires k <= n && (forall j | 0 <= j < k :: Verdict(script, j).Done?) && (k < n ==> !Verdict(script, k).Done?)
    ensures Leading(script, n) == k
  {
    if n > 0 && k > 0 {
      assert Verdict(script, 0).Done?;
      forall j | 0 <= j < k - 1 ensures Verdict(Rest(script), j).Done? {
        assert Verdict(script, j + 1).Done?;
      }
      LeadingIs(Rest(script), n - 1, k - 1);
    }
  }

  /** Rows in the first k chunks. */
  function Upto(rows: seq<Row>, size: nat, k: nat): (n: nat)
    ensures n <= |rows|
  {
    Least(k * size, |rows|)
  }

  lemma UptoGrows(rows: seq<Row>, size: nat, j: nat, k: nat)
    requires j <= k
    ensures Upto(rows, size, j) <= Upto(rows, size, k)
  {
    Scale(j, k, size);
  }

  /** The chunks of a batch: ceil(n / size) of them, all full but the last, in row order. */
  lemma {:induction false} ChunkShape(rows: seq<Row>, size: nat, from: nat, k: nat)
    requires size > 0 && from <= k < Ceil(|rows|, size)
    ensures k * size < |rows| && Chunks(rows, size, from)[k - from] == Append(ChunkAt(rows, size, k))
    ensures ChunkAt(rows, size, k) == rows[Upto(rows, size, k)..Upto(rows, size, k + 1)]
    ensures |ChunkAt(rows, size, k)| == if k + 1 < Ceil(|rows|, size) then size else |rows| - k * size
    ensures 0 < |ChunkAt(rows, size, k)| <= size
    decreases k - from
  {
    ChunkStarts(|rows|, size, k);
    ChunkStarts(|rows|, size, k + 1);
    assert (k + 1) * size == k * size + size;
    if from < k {
      ChunkShape(rows, size, from + 1, k);
    }
  }

  function Flatten(calls: seq<UserCall>): seq<Row>
    requires forall k | 0 <= k < |calls| :: calls[k].Append?
  {
    if calls == [] then [] else calls[0].rows + Flatten(calls[1..])
  }

  lemma Join(rows: seq<Row>, x: nat, y: nat, z: nat)
    requires x <= y <= z <= |rows|
    ensures rows[x..y] + rows[y..z] == rows[x..z]
  {
  }

  predicate AllAppend(calls: seq<UserCall>) {
    forall k | 0 <= k < |calls| :: calls[k].Append?
  }

  /** The concatenation of the first k chunks is the rows they cover; of all of them, rows 0..n-1. */
  lemma {:induction false} ChunksConcatenate(rows: seq<Row>, size: nat, from: nat, k: nat)
    requires size > 0 && from + k <= Ceil(|rows|, size)
    ensures AllAppend(Chunks(rows, size, from))
    ensures Upto(rows, size, from) <= Upto(rows, size, from + k)
    ensures Flatten(Chunks(rows, size, from)[..k]) == rows[Upto(rows, size, from)..Upto(rows, size, from + k)]
    ensures Upto(rows, size, from + k) == |rows| <==> from + k == Ceil(|rows|, size)
    decreases Ceil(|rows|, size) - from
  {
    UptoGrows(rows, size, from, from + k);
    ChunkStarts(|rows|, size, from + k);
    if from < Ceil(|rows|, size) {
      ChunksConcatenate(rows, size, from + 1, if k > 0 then k - 1 else 0);
      if k > 0 {
        ChunkShape(rows, size, from, from);
        UptoGrows(rows, size, from, from + 1);
        UptoGrows(rows, size, from + 1, from + k);
        var calls := Chunks(rows, size, from);
        assert calls[..k][1..] == Chunks(rows, size, from + 1)[..k - 1];
        Join(rows, Upto(rows, size, from), Upto(rows, size, from + 1), Upto(rows, size, from + k));
      }
    }
  }

  /** Chunks the engine saw: the accepted ones and the one it refused. */
  function Seen(script: seq<Outcome>, n: nat): (k: nat)
    ensures k <= n
  {
    var k := Leading(script, n);
    if k < n && Verdict(script, k).Refused? then k + 1 else k
  }

  function StatusAfter(script: seq<Outcome>, n: nat): Status {
    var k := Leading(script, n);
    if k == n then OK else if Verdict(script, k).Refused? then ERROR else CANCELLED
  }

  lemma {:induction false} OfferedStatus(a: App, calls: seq<UserCall>, script: seq<Outcome>)
    requires a.open && a.status == OK && AllAppend(calls)
    ensures IssueAll(a, calls, script).status == StatusAfter(script, |calls|)
    decreases calls
  {
    if calls != [] {
      IssueOne(a, calls[0], First(script));
      ScriptStep(script, |calls|);
      if First(script).Done? {
        OfferedStatus(Issue(a, calls[0], First(script)), calls[1..], Rest(script));
      }
    }
  }

  lemma {:induction false} OfferedRows(a: App, calls: seq<UserCall>, script: seq<Outcome>)
    requires a.open && a.status == OK && AllAppend(calls)
    ensures IssueAll(a, calls, script).accepted == a.accepted + Flatten(calls[..Leading(script, |calls|)])
    decreases calls
  {
    if calls != [] {
      IssueOne(a, calls[0], First(script));
      ScriptStep(script, |calls|);
      if First(script).Done? {
        OfferedRows(Issue(a, calls[0], First(script)), calls[1..], Rest(script));
        FlattenStep(a.accepted, calls, Leading(Rest(script), |calls| - 1));
      }
    }
  }

  lemma {:induction false} OfferedCalls(a: App, calls: seq<UserCall>, script: seq<Outcome>)
    requires a.open && a.status == OK && AllAppend(calls)
    ensures IssueAll(a, calls, script).calls == a.calls + calls[..Seen(script, |calls|)]
    decreases calls
  {
    if calls != [] {
      IssueOne(a, calls[0], First(script));
      ScriptStep(script, |calls|);
      if First(script).Done? {
        OfferedCalls(Issue(a, calls[0], First(script)), calls[1..], Rest(script));
        CallsJoin(a.calls, calls, Seen(Rest(script), |calls| - 1));
      } else {
        assert calls[..0] == [] && calls[..1] == [calls[0]];
      }
    }
  }

  /** Of the chunks offered, exactly those before the first one not admitted or refused are accepted. */
  lemma Offered(a: App, calls: seq<UserCall>, script: seq<Outcome>)
    requires a.open && a.status == OK && AllAppend(calls)
    ensures IssueAll(a, calls, script).status == StatusAfter(script, |calls|)
    ensures IssueAll(a, calls, script).accepted == a.accepted + Flatten(calls[..Leading(script, |calls|)])
    ensures IssueAll(a, calls, script).calls == a.calls + calls[..Seen(script, |calls|)]
  {
    OfferedStatus(a, calls, script);
    OfferedRows(a, calls, script);
    OfferedCalls(a, calls, script);
  }

  lemma ScriptStep(script: seq<Outcome>, n: nat)
    requires n > 0
    ensures if First(script).Done? then
              && Leading(script, n) == 1 + Leading(Rest(script), n - 1)
              && Seen(script, n) == 1 + Seen(Rest(script), n - 1)
              && StatusAfter(script, n) == StatusAfter(Rest(script), n - 1)
            else
              && Leading(script, n) == 0 && Seen(script, n) == B(First(script).Refused?)
              && StatusAfter(script, n) == if First(script).Refused? then ERROR else CANCELLED
  {
  }

  lemma FlattenStep(accepted: seq<Row>, calls: seq<UserCall>, k: nat)
    requires AllAppend(calls) && k < |calls|
    ensures accepted + calls[0].rows + Flatten(calls[1..][..k]) == accepted + Flatten(calls[..k + 1])
  {
    assert calls[..k + 1][1..] == calls[1..][..k];
  }

  lemma CallsJoin(done: seq<UserCall>, calls: seq<UserCall>, k: nat)
    requires k < |calls|
    ensures done + [calls[0]] + calls[1..][..k] == done + calls[..k + 1]
  {
  }

  lemma IssueOne(a: App, call: UserCall, o: Outcome)
    requires a.open && a.status == OK && call.Append?
    ensures var b := Issue(a, call, o);
            && b.open && b.status == (match o case Suppressed => CANCELLED case Refused => ERROR case Done(_) => OK)
            && b.calls == (if o.Suppressed? then a.calls else a.calls + [call])
            && b.accepted == (if o.Done? then a.accepted + call.rows else a.accepted)
  {
  }

  /** append_staged on a batch in order: the first k chunks are accepted, where k counts the chunks before the
      first that is not admitted or fails; with k short of ceil(n / size) the status says why; with all of
      them accepted the engine has every staged row once and in order. */
  lemma AppendIsExact(a: App, script: seq<Outcome>)
    requires AppOk(a) && a.open && a.status == OK && !a.batch.failed
    ensures var rows, size, chunks := a.batch.rows, a.batch.size, Ceil(|a.batch.rows|, a.batch.size);
            var k := Leading(script, chunks);
            var out := AppendAll(a, script);
            && out.status == StatusAfter(script, chunks)
            && out.accepted == a.accepted + rows[..Upto(rows, size, k)]
            && out.calls == a.calls + Chunks(rows, size, 0)[..Seen(script, chunks)]
            && (out.status == OK <==> Upto(rows, size, k) == |rows|)
            && out.batch.rows == [] && out.capacity <= RETAINED
  {
    var rows, size, chunks := a.batch.rows, a.batch.size, Ceil(|a.batch.rows|, a.batch.size);
    ChunksConcatenate(rows, size, 0, Leading(script, chunks));
    Offered(a, Chunks(rows, size, 0), script);
  }

  // ----- what reaches the table

  /** The table only ever holds accepted rows, in order, and an open appender has lost none of them. */
  lemma {:induction false} TableIsAPrefix(a: App, ops: seq<Op>)
    requires LegalRun(a, ops)
    ensures a.table <= Run(a, ops).table <= Run(a, ops).accepted
    ensures Run(a, ops).open ==> Run(a, ops).table + Run(a, ops).buffer == Run(a, ops).accepted
    decreases ops
  {
    if ops != [] {
      StepKeeps(a, ops[0]);
      TableIsAPrefix(Step(a, ops[0]), ops[1..]);
    }
  }

  lemma {:induction false} IssueAllWrites(a: App, calls: seq<UserCall>, script: seq<Outcome>)
    ensures a.calls <= IssueAll(a, calls, script).calls
    ensures IssueAll(a, calls, script).calls == a.calls ==> IssueAll(a, calls, script).table == a.table
    decreases calls
  {
    if calls != [] && a.status == OK {
      var b := Issue(a, calls[0], First(script));
      IssueWrites(a, calls[0], First(script));
      IssueAllWrites(b, calls[1..], Rest(script));
    }
  }

  lemma IssueWrites(a: App, call: UserCall, o: Outcome)
    ensures a.calls <= Issue(a, call, o).calls
    ensures Issue(a, call, o).calls == a.calls ==> Issue(a, call, o) == a.(status := Issue(a, call, o).status)
  {
  }

  /** The rows still buffered when a close reaches its clear. */
  function Residue(a: App, flush: bool, o: Outcome): seq<Row> {
    if flush && a.status == OK && a.open && o.Done? then [] else a.buffer
  }

  /** The table with what the close's own flush has written. */
  function Kept(a: App, flush: bool, o: Outcome): seq<Row> {
    if flush && a.status == OK && a.open && o.Done? then a.table + a.buffer else a.table
  }

  /** The clear leaves the destructor nothing to write. */
  predicate Harmless(a: App, flush: bool, o: Outcome, clearOk: bool) {
    !a.open || clearOk || Residue(a, flush, o) == []
  }

  lemma FlushedTable(a: App, flush: bool, o: Outcome)
    ensures var flushed := if flush then Issue(a, CloseFlush, o) else a;
            flushed.table == Kept(a, flush, o) && flushed.buffer == Residue(a, flush, o) && flushed.open == a.open
  {
    SpillKeeps(a, |a.buffer|);
  }

  lemma DestroyedTable(a: App, clearOk: bool, destroyFlushes: bool)
    ensures Shut(Destroy(Clear(a, clearOk), destroyFlushes)).table
         == a.table + if destroyFlushes && !clearOk then a.buffer else []
  {
    SpillKeeps(Clear(a, clearOk), |Clear(a, clearOk).buffer|);
  }

  lemma ClosedTable(a: App, flush: bool, o: Outcome, clearOk: bool, destroyFlushes: bool)
    requires a.open
    ensures Close(a, flush, o, clearOk, destroyFlushes).table
         == Kept(a, flush, o) + if destroyFlushes && !clearOk then Residue(a, flush, o) else []
  {
    FlushedTable(a, flush, o);
    DestroyedTable(if flush then Issue(a, CloseFlush, o) else a, clearOk, destroyFlushes);
  }

  /** A close, flushing or not, admitted or not, succeeding or not, puts no row in the table beyond those its
      own successful flush wrote, whatever the destructor does, exactly when the clear succeeded or nothing
      was left to clear. */
  lemma CloseDiscards(a: App, flush: bool, o: Outcome, clearOk: bool)
    requires AppOk(a) && a.open
    ensures (forall destroyFlushes :: Close(a, flush, o, clearOk, destroyFlushes).table == Kept(a, flush, o))
       <==> clearOk || Residue(a, flush, o) == []
    ensures forall destroyFlushes :: ClosesAll(a, Close(a, flush, o, clearOk, destroyFlushes))
  {
    forall destroyFlushes
      ensures Close(a, flush, o, clearOk, destroyFlushes).table
           == Kept(a, flush, o) + if destroyFlushes && !clearOk then Residue(a, flush, o) else []
      ensures ClosesAll(a, Close(a, flush, o, clearOk, destroyFlushes))
    {
      ClosedTable(a, flush, o, clearOk, destroyFlushes);
      CloseKeeps(a, flush, o, clearOk, destroyFlushes);
      CloseAccepts(a, flush, o, clearOk, destroyFlushes);
    }
    assert Close(a, flush, o, clearOk, true).table == Kept(a, flush, o) + if !clearOk then Residue(a, flush, o) else [];
  }

  /** Every accepted row is accounted for, and nothing is left open, buffered or held. */
  predicate ClosesAll(a: App, out: App) {
    out.table + out.discarded == a.accepted && out.buffer == [] && !out.open && Owned(out) == 0
  }

  lemma CloseAccepts(a: App, flush: bool, o: Outcome, clearOk: bool, destroyFlushes: bool)
    requires AppOk(a) && a.open && AppOk(Close(a, flush, o, clearOk, destroyFlushes))
    ensures ClosesAll(a, Close(a, flush, o, clearOk, destroyFlushes))
  {
    IssueKeeps(a, CloseFlush, o);
    var flushed := if flush then Issue(a, CloseFlush, o) else a;
    ClearKeeps(flushed, clearOk);
    DestroyKeeps(Clear(flushed, clearOk), destroyFlushes);
    var out := Close(a, flush, o, clearOk, destroyFlushes);
    ShutAccepts(Destroy(Clear(flushed, clearOk), destroyFlushes));
    assert out.table + [] + out.discarded == out.table + out.discarded;
  }

  lemma ShutAccepts(a: App)
    ensures Shut(a).accepted == a.accepted && Shut(a).buffer == a.buffer && !Shut(a).open && Owned(Shut(a)) == 0
  {
  }

  lemma CloseWrites(a: App, flush: bool, o: Outcome, clearOk: bool, destroyFlushes: bool)
    requires Harmless(a, flush, o, clearOk)
    ensures var out := Close(a, flush, o, clearOk, destroyFlushes);
            a.calls <= out.calls && (out.calls == a.calls ==> out.table == a.table)
  {
    if a.open {
      IssueWrites(a, CloseFlush, o);
      FlushedTable(a, flush, o);
      ClosedTable(a, flush, o, clearOk, destroyFlushes);
      CloseCalls(if flush then Issue(a, CloseFlush, o) else a, clearOk, destroyFlushes);
    }
  }

  lemma CloseCalls(a: App, clearOk: bool, destroyFlushes: bool)
    ensures Shut(Destroy(Clear(a, clearOk), destroyFlushes)).calls == a.calls
  {
  }

  predicate HarmlessStep(a: App, op: Op) {
    op.CloseAppender? ==> Harmless(a, op.flush, op.outcome, op.clearOk)
  }

  /** Every close of the history that finds the appender open clears it or has nothing left to clear. */
  predicate HarmlessRun(a: App, ops: seq<Op>)
    requires LegalRun(a, ops)
    decreases ops
  {
    ops == [] || (HarmlessStep(a, ops[0]) && HarmlessRun(Step(a, ops[0]), ops[1..]))
  }

  lemma StepWrites(a: App, op: Op)
    requires CanDo(a, op) && HarmlessStep(a, op)
    ensures a.calls <= Step(a, op).calls && (Step(a, op).calls == a.calls ==> Step(a, op).table == a.table)
  {
    match op
    case AppendStaged(script) => IssueAllWrites(a, Chunks(a.batch.rows, a.batch.size, 0), script);
    case FlushAppender(o) => IssueWrites(a, Flush, o);
    case SelectColumns(columns, indices, script, oom) => SelectWrites(a, columns, indices, script, oom);
    case CloseAppender(flush, o, clearOk, destroyFlushes) => CloseWrites(a, flush, o, clearOk, destroyFlushes);
    case _ =>
  }

  lemma SelectWrites(a: App, columns: seq<nat>, indices: seq<int>, script: seq<Outcome>, oom: Option<nat>)
    requires Selection(a, columns, indices)
    ensures var out := Select(a, columns, indices, script, oom);
            a.calls <= out.calls && (out.calls == a.calls ==> out.table == a.table)
  {
    var named := if InCatalog(a.batch.types, indices) < |indices| then Note(a, ERROR) else a;
    IssueAllWrites(ReleaseStaging(named), AddCalls(a.physical, columns), script);
  }

  /** Only an admitted engine call puts rows in the table: over any history whose closes are harmless, a table
      that changed shows a call that was issued, and a poisoned appender's table never changes. */
  lemma {:induction false} NoCallNoRow(a: App, ops: seq<Op>)
    requires LegalRun(a, ops) && HarmlessRun(a, ops)
    ensures a.calls <= Run(a, ops).calls
    ensures Run(a, ops).calls == a.calls ==> Run(a, ops).table == a.table
    ensures a.status != OK ==> Run(a, ops).table == a.table
    decreases ops
  {
    if a.status != OK {
      PoisonIsForever(a, ops);
    }
    if ops != [] {
      StepWrites(a, ops[0]);
      NoCallNoRow(Step(a, ops[0]), ops[1..]);
    }
  }

  // ----- whatever the destructors do

  /** The same history with other destructors. */
  predicate Variant(ops: seq<Op>, others: seq<Op>) {
    |ops| == |others| && forall i | 0 <= i < |ops| :: SameButDestructor(ops[i], others[i])
  }

  predicate SameButDestructor(op: Op, other: Op) {
    other == op
    || (op.CloseAppender? && other.CloseAppender? && other.flush == op.flush && other.outcome == op.outcome
        && other.clearOk == op.clearOk)
  }

  /** Closed appenders that differ only in what their destructors wrote. */
  predicate Alike(a: App, b: App) {
    !a.open && b == a.(table := b.table, discarded := b.discarded)
  }

  lemma AlikeStep(a: App, b: App, op: Op, other: Op)
    requires Alike(a, b) && CanDo(a, op) && AppOk(b) && SameButDestructor(op, other)
    ensures CanDo(b, other) && Alike(Step(a, op), Step(b, other))
    ensures Step(a, op).table == a.table && Step(b, other).table == b.table
  {
    match op
    case SelectColumns(columns, indices, script, oom) => AlikeSelect(a, b, columns, indices, script, oom);
    case _ =>
  }

  lemma {:induction false} ClosedCalls(a: App, b: App, calls: seq<UserCall>, script: seq<Outcome>)
    requires Alike(a, b)
    ensures Alike(IssueAll(a, calls, script), IssueAll(b, calls, script))
    ensures IssueAll(a, calls, script).table == a.table && IssueAll(b, calls, script).table == b.table
    decreases calls
  {
    if calls != [] && a.status == OK {
      ClosedCalls(Issue(a, calls[0], First(script)), Issue(b, calls[0], First(script)), calls[1..], Rest(script));
    }
  }

  lemma AlikeSelect(a: App, b: App, columns: seq<nat>, indices: seq<int>, script: seq<Outcome>, oom: Option<nat>)
    requires Alike(a, b) && Selection(a, columns, indices)
    ensures Alike(Select(a, columns, indices, script, oom), Select(b, columns, indices, script, oom))
    ensures Select(a, columns, indices, script, oom).table == a.table
    ensures Select(b, columns, indices, script, oom).table == b.table
  {
    var short := InCatalog(a.batch.types, indices) < |indices|;
    var na, nb := if short then Note(a, ERROR) else a, if short then Note(b, ERROR) else b;
    ClosedCalls(ReleaseStaging(na), ReleaseStaging(nb), AddCalls(a.physical, columns), script);
  }

  lemma {:induction false} AlikeRun(a: App, b: App, ops: seq<Op>, others: seq<Op>)
    requires Alike(a, b) && LegalRun(a, ops) && AppOk(b) && Variant(ops, others)
    ensures LegalRun(b, others) && Run(a, ops).table == a.table && Run(b, others).table == b.table
    ensures HarmlessRun(a, ops)
    decreases ops
  {
    if ops != [] {
      AlikeStep(a, b, ops[0], others[0]);
      StepKeeps(b, others[0]);
      AlikeRun(Step(a, ops[0]), Step(b, others[0]), ops[1..], others[1..]);
    }
  }

  lemma CloseAlike(a: App, op: Op, other: Op)
    requires AppOk(a) && a.open && op.CloseAppender? && SameButDestructor(op, other)
    ensures Alike(Step(a, op), Step(a, other)) && AppOk(Step(a, other))
  {
    CloseKeeps(a, other.flush, other.outcome, other.clearOk, other.destroyFlushes);
    var flushed := if op.flush then Issue(a, CloseFlush, op.outcome) else a;
    DestroyAlike(Clear(flushed, op.clearOk), op.destroyFlushes, other.destroyFlushes);
  }

  lemma DestroyAlike(a: App, flushes: bool, other: bool)
    ensures Alike(Shut(Destroy(a, flushes)), Shut(Destroy(a, other)))
  {
  }

  /** Two destructors of one close that finds the appender open: the rest of the history adds nothing. */
  lemma TwoDestructors(a: App, ops: seq<Op>, others: seq<Op>)
    requires LegalRun(a, ops) && Variant(ops, others) && ops != [] && ops[0].CloseAppender? && a.open
    ensures LegalRun(a, others)
    ensures Run(a, ops).table == Step(a, ops[0]).table && Run(a, others).table == Step(a, others[0]).table
  {
    CloseAlike(a, ops[0], others[0]);
    AlikeRun(Step(a, ops[0]), Step(a, others[0]), ops[1..], others[1..]);
  }

  lemma SameTable(a: App, op: Op, other: Op)
    requires a.batch.size > 0 && op.CloseAppender? && a.open && SameButDestructor(op, other)
    ensures Harmless(a, op.flush, op.outcome, op.clearOk) ==> Step(a, op).table == Step(a, other).table
    ensures !Harmless(a, op.flush, op.outcome, op.clearOk) && op.destroyFlushes != other.destroyFlushes ==>
              Step(a, op).table != Step(a, other).table
  {
    ClosedTable(a, op.flush, op.outcome, op.clearOk, op.destroyFlushes);
    ClosedTable(a, op.flush, op.outcome, op.clearOk, other.destroyFlushes);
  }

  lemma ElsewhereTheSame(a: App, op: Op, other: Op)
    requires CanDo(a, op) && SameButDestructor(op, other) && !(op.CloseAppender? && a.open)
    ensures CanDo(a, other) && Step(a, other) == Step(a, op) && HarmlessStep(a, op)
  {
  }

  /** A harmless history writes the same table whatever its destructors do. */
  lemma {:induction false} DestructorsAreHarmless(a: App, ops: seq<Op>, others: seq<Op>)
    requires LegalRun(a, ops) && HarmlessRun(a, ops) && Variant(ops, others)
    ensures LegalRun(a, others) && Run(a, others).table == Run(a, ops).table
    decreases ops
  {
    if ops != [] {
      if ops[0].CloseAppender? && a.open {
        TwoDestructors(a, ops, others);
        SameTable(a, ops[0], others[0]);
      } else {
        ElsewhereTheSame(a, ops[0], others[0]);
        DestructorsAreHarmless(Step(a, ops[0]), ops[1..], others[1..]);
      }
    }
  }

  /** In any other history some destructor lets a discarded row into the table, so the condition is exact. */
  lemma {:induction false} DestructorsCanHarm(a: App, ops: seq<Op>) returns (others: seq<Op>)
    requires LegalRun(a, ops) && !HarmlessRun(a, ops)
    ensures Variant(ops, others) && LegalRun(a, others) && Run(a, others).table != Run(a, ops).table
    decreases ops
  {
    var op := ops[0];
    if op.CloseAppender? && a.open {
      others := [op.(destroyFlushes := !op.destroyFlushes)] + ops[1..];
      TwoDestructors(a, ops, others);
      SameTable(a, op, others[0]);
      if HarmlessStep(a, op) {
        AlikeRun(Step(a, op), Step(a, op), ops[1..], ops[1..]);
      }
    } else {
      ElsewhereTheSame(a, op, op);
      var rest := DestructorsCanHarm(Step(a, op), ops[1..]);
      others := [op] + rest;
      assert others[1..] == rest;
    }
  }

  lemma SelectShape(a: App, columns: seq<nat>, indices: seq<int>, script: seq<Outcome>, oom: Option<nat>, named: App,
      out: App)
    requires Selection(a, columns, indices) && !Raises(a, indices, oom)
    requires named == if InCatalog(a.batch.types, indices) < |indices| then Note(a, ERROR) else a
    requires var told := IssueAll(ReleaseStaging(named), AddCalls(a.physical, columns), script);
             && (told.status == OK ==> InCatalog(a.batch.types, indices) == |indices|)
             && out == if told.status != OK then told
                 else told.(batch := told.batch.(types := Chosen(a.batch.types, indices)))
    ensures out == Select(a, columns, indices, script, oom)
  {
  }

  // ----- one batch, from stage_begin to append_staged

  /** Rows of a batch of n that reach the engine: those of the chunks before the first one not admitted or
      failed. */
  function Reached(script: seq<Outcome>, n: nat, size: nat): (k: nat)
    requires size > 0
    ensures k <= n
  {
    Least(Leading(script, Ceil(n, size)) * size, n)
  }

  /** The accepted rows hold, in order, the last value staged in each cell, or the stale one, and are NULL
      exactly when nulled by these calls. */
  predicate Delivered(accepted: seq<Row>, stale: seq<Row>, ops: seq<StageOp>, types: seq<Ty>, size: nat)
    requires |accepted| <= |stale| && Rectangular(stale, |types|) && NoneFails(ops, types, size, |stale|)
  {
    && Rectangular(accepted, |types|)
    && forall r, c | 0 <= r < |accepted| && 0 <= c < |types| ::
         var last := LastWrite(ops, types, size, |stale|, c, r);
         && accepted[r][c].bytes == (if last.Some? then last.value else stale[r][c].bytes)
         && (accepted[r][c].isNull <==> Nulled(ops, types, size, |stale|, c, r))
  }

  /** From stage_begin to append_staged, for every answer of latch and engine: of n rows a prefix of whole
      chunks reaches the engine, all of them exactly when the status stays OK, each cell with its last staged
      value and exactly this batch's NULLs; if a staging call failed, nothing does. */
  lemma BatchReachesTheEngine(a: App, n: nat, fits: Fits, stale: seq<Row>, ops: seq<StageOp>, script: seq<Outcome>)
    requires AppOk(a) && a.open && a.status == OK && Legal(a, StageBegin(n, fits, stale))
    requires Begin(a, n, fits, stale).status == OK
    ensures var types, size := a.batch.types, a.batch.size;
            var begun := Begin(a, n, fits, stale);
            var out := AppendAll(begun.(batch := Replay(begun.batch, ops)), script);
            && a.accepted <= out.accepted
            && (if NoneFails(ops, types, size, n) then
                  && |out.accepted| == |a.accepted| + Reached(script, n, size)
                  && (out.status == OK <==> Reached(script, n, size) == n)
                  && Delivered(out.accepted[|a.accepted|..], stale, ops, types, size)
                else out.status == ERROR && out.accepted == a.accepted && out.calls == a.calls)
  {
    var begun := Begin(a, n, fits, stale);
    BeginKeeps(a, n, fits, stale);
    Begun(a, n, fits, stale);
    StagedOn(begun, ops, script);
  }

  lemma Begun(a: App, n: nat, fits: Fits, stale: seq<Row>)
    requires AppOk(a) && a.open && a.status == OK && Begin(a, n, fits, stale).status == OK
    ensures var b := Begin(a, n, fits, stale);
            b.open && b.batch == Batch(a.batch.types, a.batch.size, stale, false) && b.accepted == a.accepted
                && b.calls == a.calls
  {
  }

  lemma StagedOn(a: App, ops: seq<StageOp>, script: seq<Outcome>)
    requires AppOk(a) && a.open && a.status == OK && !a.batch.failed && Clean(a.batch.rows, a.batch.types)
    ensures var types, size, n := a.batch.types, a.batch.size, |a.batch.rows|;
            var out := AppendAll(a.(batch := Replay(a.batch, ops)), script);
            && a.accepted <= out.accepted
            && (if NoneFails(ops, types, size, n) then
                  && |out.accepted| == |a.accepted| + Reached(script, n, size)
                  && (out.status == OK <==> Reached(script, n, size) == n)
                  && Delivered(out.accepted[|a.accepted|..], a.batch.rows, ops, types, size)
                else out.status == ERROR && out.accepted == a.accepted && out.calls == a.calls)
  {
    var n, types, size := |a.batch.rows|, a.batch.types, a.batch.size;
    FailsIffSomeCallDoes(a.batch, ops);
    var b := a.(batch := Replay(a.batch, ops));
    if NoneFails(ops, types, size, n) {
      AppendIsExact(b, script);
      var k := Reached(script, n, size);
      assert AppendAll(b, script).accepted[|a.accepted|..] == b.batch.rows[..k];
      LastWrites(a.batch, ops, k);
    } else {
      FailedBatch(b, script);
    }
  }

  lemma LastWrites(b: Batch, ops: seq<StageOp>, k: nat)
    requires BatchOk(b) && !b.failed && Clean(b.rows, b.types) && NoneFails(ops, b.types, b.size, |b.rows|)
    requires k <= |b.rows| == |Replay(b, ops).rows|
    ensures Delivered(Replay(b, ops).rows[..k], b.rows, ops, b.types, b.size)
  {
    var rows: seq<Row> := Replay(b, ops).rows;
    forall r, c | 0 <= r < k && 0 <= c < |b.types|
      ensures var last := LastWrite(ops, b.types, b.size, |b.rows|, c, r);
              && rows[r][c].bytes == (if last.Some? then last.value else b.rows[r][c].bytes)
              && (rows[r][c].isNull <==> Nulled(ops, b.types, b.size, |b.rows|, c, r))
    {
      LastWriteWins(b, ops, c, r);
    }
  }

  // ----- column selection

  /** A selection whose every call succeeds leaves the owner's column types equal to the engine's exactly when
      it is the appender's first selection and names a column (or the table has none). */
  lemma SelectionInStep(a: App, columns: seq<nat>, indices: seq<int>, script: seq<Outcome>)
    requires AppOk(a) && a.open && a.status == OK && a.batch.types == Active(a) && Selection(a, columns, indices)
    requires InCatalog(a.batch.types, indices) == |indices| && Leading(script, |columns|) == |columns|
    requires forall i | 0 <= i < |columns| :: a.physical[columns[i]] == a.batch.types[indices[i]]
    ensures var out := Select(a, columns, indices, script, None);
            && out.status == OK && out.batch.types == Chosen(a.batch.types, indices)
            && out.added == a.added + out.batch.types
            && (out.batch.types == Active(out) <==> a.added == [] && (columns != [] || a.physical == []))
  {
    var calls := AddCalls(a.physical, columns);
    var chosen := Chosen(a.batch.types, indices);
    AllAdded(ReleaseStaging(a), calls, script);
    AddedTypesAre(calls);
    assert AddedTypes(calls) == chosen;
    InStep(a.physical, a.added, chosen);
    SelectionKeepsAdded(a, columns, indices, script);
  }

  lemma SelectionKeepsAdded(a: App, columns: seq<nat>, indices: seq<int>, script: seq<Outcome>)
    requires a.status == OK && Selection(a, columns, indices) && InCatalog(a.batch.types, indices) == |indices|
    ensures var told := IssueAll(ReleaseStaging(a), AddCalls(a.physical, columns), script);
            var out := Select(a, columns, indices, script, None);
            && out.added == told.added && out.physical == told.physical && out.status == told.status
            && (told.status == OK ==> out.batch.types == Chosen(a.batch.types, indices))
  {
  }

  lemma InStep(physical: seq<Ty>, added: seq<Ty>, chosen: seq<Ty>)
    ensures chosen == (if added + chosen == [] then physical else added + chosen)
       <==> added == [] && (chosen != [] || physical == [])
  {
    assert |added + chosen| == |added| + |chosen|;
    if added == [] {
      assert added + chosen == chosen;
    }
  }

  function AddedTypes(calls: seq<UserCall>): (types: seq<Ty>)
    requires forall k | 0 <= k < |calls| :: calls[k].AddColumn?
    ensures |types| == |calls|
  {
    if calls == [] then [] else [calls[0].ty] + AddedTypes(calls[1..])
  }

  lemma {:induction false} AddedTypesAre(calls: seq<UserCall>)
    requires forall k | 0 <= k < |calls| :: calls[k].AddColumn?
    ensures forall k | 0 <= k < |calls| :: AddedTypes(calls)[k] == calls[k].ty
  {
    if calls != [] {
      AddedTypesAre(calls[1..]);
    }
  }

  lemma {:induction false} AllAdded(a: App, calls: seq<UserCall>, script: seq<Outcome>)
    requires a.open && a.status == OK && Leading(script, |calls|) == |calls|
    requires forall k | 0 <= k < |calls| :: calls[k].AddColumn?
    ensures var out := IssueAll(a, calls, script);
            out.status == OK && out.added == a.added + AddedTypes(calls) && out.physical == a.physical
    decreases calls
  {
    if calls != [] {
      Added(a, calls[0].ty, First(script).spill);
      assert a.added + [calls[0].ty] + AddedTypes(calls[1..]) == a.added + AddedTypes(calls);
      AllAdded(Issue(a, calls[0], First(script)), calls[1..], Rest(script));
    }
  }

  lemma Added(a: App, ty: Ty, spill: nat)
    requires a.open && a.status == OK
    ensures var out := Issue(a, AddColumn(ty), Done(spill));
            out.open && out.status == OK && out.added == a.added + [ty] && out.physical == a.physical
  {
  }

  // ----- in step with the engine, over whole histories

  lemma {:induction false} AppendsKeepColumns(a: App, calls: seq<UserCall>, script: seq<Outcome>)
    requires AllAppend(calls)
    ensures IssueAll(a, calls, script).added == a.added && IssueAll(a, calls, script).physical == a.physical
    ensures IssueAll(a, calls, script).batch == a.batch && IssueAll(a, calls, script).open == a.open
    decreases calls
  {
    if calls != [] && a.status == OK {
      AppendsKeepColumns(Issue(a, calls[0], First(script)), calls[1..], Rest(script));
    }
  }

  predicate SameColumns(a: App, b: App) {
    b.added == a.added && b.physical == a.physical && b.batch.types == a.batch.types
  }

  predicate Completes(a: App, op: Op) {
    op.SelectColumns? && !Raises(a, op.indices, op.oom)
  }

  lemma IssueKeepsColumns(a: App, call: UserCall, o: Outcome)
    requires !call.AddColumn?
    ensures SameColumns(a, Issue(a, call, o)) && Issue(a, call, o).batch == a.batch
  {
  }

  lemma CloseKeepsColumns(a: App, flush: bool, o: Outcome, clearOk: bool, destroyFlushes: bool)
    ensures SameColumns(a, Close(a, flush, o, clearOk, destroyFlushes))
  {
    IssueKeepsColumns(a, CloseFlush, o);
    var flushed := if flush then Issue(a, CloseFlush, o) else a;
    assert SameColumns(a, flushed) && SameColumns(flushed, Clear(flushed, clearOk));
    assert SameColumns(flushed, Destroy(Clear(flushed, clearOk), destroyFlushes));
  }

  lemma AppendKeepsColumns(a: App, script: seq<Outcome>)
    requires AppOk(a)
    ensures SameColumns(a, AppendAll(a, script))
  {
    ChunksConcatenate(a.batch.rows, a.batch.size, 0, 0);
    AppendsKeepColumns(a, Chunks(a.batch.rows, a.batch.size, 0), script);
  }

  /** Only a selection that does not raise touches the columns. */
  lemma OthersKeepColumns(a: App, op: Op)
    requires CanDo(a, op) && !Completes(a, op)
    ensures SameColumns(a, Step(a, op))
  {
    match op
    case AppendStaged(script) => AppendKeepsColumns(a, script);
    case FlushAppender(o) => IssueKeepsColumns(a, Flush, o);
    case CloseAppender(flush, o, clearOk, destroyFlushes) => CloseKeepsColumns(a, flush, o, clearOk, destroyFlushes);
    case _ =>
  }

  lemma {:induction false} AddedWhenOk(a: App, calls: seq<UserCall>, script: seq<Outcome>)
    requires (forall k | 0 <= k < |calls| :: calls[k].AddColumn?) && IssueAll(a, calls, script).status == OK
    ensures a.status == OK && IssueAll(a, calls, script).added == a.added + AddedTypes(calls)
    ensures IssueAll(a, calls, script).physical == a.physical
    decreases calls
  {
    if a.status != OK {
      IssueAllSilent(a, calls, script);
    } else if calls != [] {
      AddedWhenOk(Issue(a, calls[0], First(script)), calls[1..], Rest(script));
      assert a.added + [calls[0].ty] + AddedTypes(calls[1..]) == a.added + AddedTypes(calls);
    }
  }

  /** What a completed selection that leaves the status OK has done. */
  lemma SelectionDone(a: App, op: Op)
    requires CanDo(a, op) && Completes(a, op) && Step(a, op).status == OK
    ensures a.status == OK && InCatalog(a.batch.types, op.indices) == |op.indices|
    ensures Step(a, op).added == a.added + AddedTypes(AddCalls(a.physical, op.columns))
    ensures Step(a, op).batch.types == Chosen(a.batch.types, op.indices) && Step(a, op).physical == a.physical
    ensures |Step(a, op).batch.types| == |op.columns| && |Step(a, op).added| == |a.added| + |op.columns|
  {
    var named := if InCatalog(a.batch.types, op.indices) < |op.indices| then Note(a, ERROR) else a;
    AddedWhenOk(ReleaseStaging(named), AddCalls(a.physical, op.columns), op.script);
  }

  /** The selections of a history that did not raise. */
  function Selections(a: App, ops: seq<Op>): seq<Op>
    requires LegalRun(a, ops)
    decreases ops
  {
    if ops == [] then []
    else (if Completes(a, ops[0]) then [ops[0]] else []) + Selections(Step(a, ops[0]), ops[1..])
  }

  lemma {:induction false} ClosedStays(a: App, ops: seq<Op>)
    requires LegalRun(a, ops) && !a.open
    ensures !Run(a, ops).open
    decreases ops
  {
    if ops != [] {
      StepStaysClosed(a, ops[0]);
      ClosedStays(Step(a, ops[0]), ops[1..]);
    }
  }

  lemma StepStaysClosed(a: App, op: Op)
    requires CanDo(a, op) && !a.open
    ensures !Step(a, op).open
  {
    match op
    case SelectColumns(columns, indices, script, oom) =>
      var named := if InCatalog(a.batch.types, indices) < |indices| then Note(a, ERROR) else a;
      IssueAllKeeps(ReleaseStaging(named), AddCalls(a.physical, columns), script);
    case FlushAppender(o) => IssueKeeps(a, Flush, o);
    case _ =>
  }

  predicate Sound(a: App) {
    a.open && a.status == OK
  }

  /** A history that ends open and OK was so throughout. */
  lemma SoundBefore(a: App, ops: seq<Op>)
    requires LegalRun(a, ops) && Sound(Run(a, ops))
    ensures Sound(a) && (ops != [] ==> Sound(Step(a, ops[0])))
  {
    if a.status != OK {
      PoisonIsForever(a, ops);
    } else if !a.open {
      ClosedStays(a, ops);
    } else if ops != [] && Step(a, ops[0]).status != OK {
      PoisonIsForever(Step(a, ops[0]), ops[1..]);
    } else if ops != [] && !Step(a, ops[0]).open {
      ClosedStays(Step(a, ops[0]), ops[1..]);
    }
  }

  /** Out of step for good: an empty selection on a table with columns, or more columns added than owned. */
  predicate Out(a: App) {
    a.physical != [] && ((a.added == [] && a.batch.types == []) || |a.added| > |a.batch.types|)
  }

  lemma {:induction false} OutStaysOut(a: App, ops: seq<Op>)
    requires LegalRun(a, ops) && Sound(Run(a, ops)) && Out(a)
    ensures Run(a, ops).batch.types != Active(Run(a, ops))
    decreases ops
  {
    SoundBefore(a, ops);
    if ops != [] {
      if Completes(a, ops[0]) {
        SelectionDone(a, ops[0]);
      } else {
        OthersKeepColumns(a, ops[0]);
      }
      OutStaysOut(Step(a, ops[0]), ops[1..]);
    }
  }

  /** After one selection that named a column, any further completed selection is one too many. */
  lemma {:induction false} OnceSelected(a: App, ops: seq<Op>)
    requires LegalRun(a, ops) && Sound(Run(a, ops)) && a.physical != [] && |a.added| == |a.batch.types| > 0
    ensures Run(a, ops).batch.types == Active(Run(a, ops)) <==> Selections(a, ops) == [] && a.batch.types == a.added
    decreases ops
  {
    SoundBefore(a, ops);
    if ops != [] {
      if Completes(a, ops[0]) {
        SelectionDone(a, ops[0]);
        OutStaysOut(Step(a, ops[0]), ops[1..]);
      } else {
        OthersKeepColumns(a, ops[0]);
        OnceSelected(Step(a, ops[0]), ops[1..]);
      }
    }
  }

  /** The names of a selection are the columns at its indices, as its interface asks. */
  predicate NamesMatch(physical: seq<Ty>, op: Op) {
    && op.SelectColumns? && |op.columns| == |op.indices|
    && forall i | 0 <= i < |op.columns| ::
         op.columns[i] < |physical| && 0 <= op.indices[i] < |physical|
             && physical[op.columns[i]] == physical[op.indices[i]]
  }

  /** The histories that keep owner and engine in step: no completed selection, or exactly one, which names a
      column and whose names match its indices (or a table without columns). */
  predicate KeepsStep(physical: seq<Ty>, selections: seq<Op>) {
    || physical == [] || selections == []
    || (|selections| == 1 && NamesMatch(physical, selections[0]) && selections[0].columns != [])
  }

  lemma FirstSelection(a: App, op: Op)
    requires CanDo(a, op) && Completes(a, op) && Step(a, op).status == OK && a.added == []
        && a.batch.types == a.physical
    ensures Step(a, op).batch.types == Step(a, op).added <==> NamesMatch(a.physical, op)
  {
    SelectionDone(a, op);
    var calls := AddCalls(a.physical, op.columns);
    AddedTypesAre(calls);
    assert [] + AddedTypes(calls) == AddedTypes(calls);
    var chosen := Chosen(a.batch.types, op.indices);
    if NamesMatch(a.physical, op) {
      assert AddedTypes(calls) == chosen;
    } else if AddedTypes(calls) == chosen {
      forall i | 0 <= i < |op.columns|
        ensures op.columns[i] < |a.physical| && 0 <= op.indices[i] < |a.physical|
        ensures a.physical[op.columns[i]] == a.physical[op.indices[i]]
      {
        assert AddedTypes(calls)[i] == chosen[i];
      }
    }
  }

  /** From a freshly created appender, over every history: an appender that is open and OK at its end has
      exactly the engine's active column types if and only if the history keeps them in step. */
  lemma {:induction false} InStepExactly(a: App, ops: seq<Op>)
    requires LegalRun(a, ops) && Sound(Run(a, ops)) && a.added == [] && a.batch.types == a.physical
    ensures Run(a, ops).batch.types == Active(Run(a, ops)) <==> KeepsStep(a.physical, Selections(a, ops))
    decreases ops
  {
    SoundBefore(a, ops);
    if ops != [] {
      var n, rest := Step(a, ops[0]), ops[1..];
      if !Completes(a, ops[0]) {
        OthersKeepColumns(a, ops[0]);
        InStepExactly(n, rest);
      } else {
        SelectionDone(a, ops[0]);
        FirstSelection(a, ops[0]);
        if a.physical == [] {
          InStepExactly(n, rest);
        } else if ops[0].columns == [] {
          OutStaysOut(n, rest);
        } else {
          OnceSelected(n, rest);
        }
      }
    }
  }
}
