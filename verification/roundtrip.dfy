/** What is staged is what a view later reads, when the engine returns an appended column unchanged. */
module RoundTrip {
  import opened Native
  import opened Bytes
  import opened Vectors
  import opened Staging

  /** Row i of a fetched vector holds this staged cell. */
  predicate Carries(v: EngineVector, i: nat, cell: Cell) {
    && Fitting(v, i) && (v.validity.Some? ==> i / 64 < |v.validity.value|)
    && Element(v.data, i, Width(v.ty)) == cell.bytes
    && RowValid(v, i) == !cell.isNull
  }

  lemma {:induction false} LastWriteIs(before: seq<StageOp>, op: StageOp, after: seq<StageOp>, types: seq<Ty>,
      size: nat, rows: nat, c: nat, r: nat)
    requires c < |types| && r < rows && NoneFails(before + [op] + after, types, size, rows)
    requires !Fails(op, types, size, rows) && Writes(op, types, size, rows, c, r).Some?
    requires forall k | 0 <= k < |after| ::
               !Fails(after[k], types, size, rows) && Writes(after[k], types, size, rows, c, r) == None
    ensures LastWrite(before + [op] + after, types, size, rows, c, r) == Writes(op, types, size, rows, c, r)
    decreases after
  {
    var ops := before + [op] + after;
    if after == [] {
      assert ops[|ops| - 1] == op;
    } else {
      var init := after[..|after| - 1];
      assert ops[..|ops| - 1] == before + [op] + init && ops[|ops| - 1] == after[|after| - 1];
      assert NoneFails(before + [op] + init, types, size, rows) by {
        assert forall k | 0 <= k < |before + [op] + init| :: (before + [op] + init)[k] == ops[k];
      }
      LastWriteIs(before, op, init, types, size, rows, c, r);
    }
  }

  /** If the last value staged at a cell is the integer x, the default-0 view of its row reads 0 when the row
      was nulled and otherwise x cast to the column's width, which is x exactly when x is in range; a boolean
      column reads whether x is nonzero. */
  lemma StagedThenViewed(b: Batch, before: seq<StageOp>, x: int, after: seq<StageOp>, c: nat, r: nat, v: EngineVector,
      i: nat)
    requires BatchOk(b) && !b.failed && c < |b.types| && r < |b.rows| && !b.rows[r][c].isNull
    requires IntColumn(b.types[c]) && v.ty == b.types[c]
    requires NoneFails(before + [StageInt64(c, r, x)] + after, b.types, b.size, |b.rows|)
    requires forall k | 0 <= k < |after| ::
               !Fails(after[k], b.types, b.size, |b.rows|) && Writes(after[k], b.types, b.size, |b.rows|, c, r) == None
    requires var out := Replay(b, before + [StageInt64(c, r, x)] + after);
             |out.rows| == |b.rows| && Carries(v, i, out.rows[r][c])
    ensures var w := Width(v.ty);
            var seen := Slot(v, i, w);
            if Nulled(before + [StageInt64(c, r, x)] + after, b.types, b.size, |b.rows|, c, r) then
              !RowValid(v, i) && Unsigned(seen) == 0 && Signed(seen) == 0
            else
              && RowValid(v, i)
              && (v.ty == BOOLEAN ==> (Unsigned(seen) != 0) == (x != 0))
              && (v.ty != BOOLEAN ==> Signed(seen) == Wrap(x, w) && (Signed(seen) == x <==> Fits(x, w)))
  {
    var ops := before + [StageInt64(c, r, x)] + after;
    var w := Width(v.ty);
    LastWriteWins(b, ops, c, r);
    LastWriteIs(before, StageInt64(c, r, x), after, b.types, b.size, |b.rows|, c, r);
    ZerosAreZero(w);
    if v.ty != BOOLEAN {
      StoreThenLoad(x, w);
    } else {
      assert StoredInt(BOOLEAN, x)[1..] == [];
    }
  }
}
