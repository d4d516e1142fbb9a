/** The engine's vectors, and the bulk copies out of them. */
module Vectors {
  import opened Native
  import opened Bytes
  import opened Words
  import opened Scans

  datatype EngineVector = EngineVector(ty: Ty, data: seq<byte>, validity: Option<seq<word>>)

  datatype EngineChunk = EngineChunk(rows: nat, columns: seq<EngineVector>)

  predicate VectorOk(v: EngineVector, rows: nat) {
    && |v.data| >= rows * Width(v.ty)
    && (v.validity.Some? ==> |v.validity.value| == WordCount(rows))
  }

  /** What the engine guarantees of a chunk of a result whose columns have these types. */
  predicate Conforms(c: EngineChunk, types: seq<Ty>) {
    && |c.columns| == |types|
    && forall k | 0 <= k < |types| :: c.columns[k].ty == types[k] && VectorOk(c.columns[k], c.rows)
  }

  predicate RowValid(v: EngineVector, i: nat)
    requires v.validity.Some? ==> i / 64 < |v.validity.value|
  {
    v.validity.None? || ValidRow(v.validity.value, i)
  }

  function Zeros(w: nat): seq<byte> {
    seq(w, _ => 0)
  }

  /** What a row looks like to a reader that takes NULL for 0. */
  function Slot(v: EngineVector, i: nat, w: nat): (s: seq<byte>)
    requires (i + 1) * w <= |v.data| && (v.validity.Some? ==> i / 64 < |v.validity.value|)
    ensures |s| == w
  {
    if RowValid(v, i) then Element(v.data, i, w) else Zeros(w)
  }

  lemma {:induction false} ZerosAreZero(w: nat)
    ensures Unsigned(Zeros(w)) == 0
  {
    if w > 0 {
      ZerosAreZero(w - 1);
      assert Zeros(w)[1..] == Zeros(w - 1);
    }
  }

  /** (at + i) * w starts the i-th slot; slots do not overlap and stay inside their range. */
  lemma SlotRange(at: nat, i: nat, j: nat, n: nat, w: nat)
    requires w > 0 && i < n && j < n
    ensures at * w <= (at + i) * w && (at + i) * w + w <= (at + n) * w
    ensures (at + i) * w - at * w == i * w
    ensures i < j ==> (at + i) * w + w <= (at + j) * w
  {
    Monotone(at, at + i, w);
    Monotone(at + i + 1, at + n, w);
    assert (at + i + 1) * w == (at + i) * w + w;
    assert (at + i) * w == at * w + i * w;
    if i < j {
      Monotone(at + i + 1, at + j, w);
    }
  }

  lemma Monotone(a: nat, b: nat, w: nat)
    requires a <= b
    ensures a * w <= b * w
  {
  }

  ghost predicate CopiedAt(out: seq<byte>, v: EngineVector, i: nat, at: nat)
    requires Fitting(v, i)
  {
    var w := Width(v.ty);
    var lo := (at + i) * w;
    lo + w <= |out| && out[lo..lo + w] == Element(v.data, i, w)
  }

  ghost predicate SlotAt(out: seq<byte>, v: EngineVector, i: nat, at: nat)
    requires Fitting(v, i) && (v.validity.Some? ==> i / 64 < |v.validity.value|)
  {
    var w := Width(v.ty);
    var lo := (at + i) * w;
    lo + w <= |out| && out[lo..lo + w] == Slot(v, i, w)
  }

  /** The bulk copy of n elements to the slots starting at `at`. */
  method CopyAll(v: EngineVector, n: nat, out: array<byte>, at: nat)
    requires n * Width(v.ty) <= |v.data| && (at + n) * Width(v.ty) <= out.Length
    modifies out
    ensures forall k | 0 <= k < n * Width(v.ty) :: out[at * Width(v.ty) + k] == v.data[k]
    ensures forall k | 0 <= k < out.Length && !(at * Width(v.ty) <= k < (at + n) * Width(v.ty)) :: out[k] == old(out[k])
  {
    var w := Width(v.ty);
    var base := at * w;
    assert (at + n) * w == base + n * w;
    forall k | 0 <= k < n * w {
      out[base + k] := v.data[k];
    }
  }

  lemma CopiedSlot(v: EngineVector, n: nat, out: array<byte>, at: nat, i: nat)
    requires i < n && Width(v.ty) > 0 && n * Width(v.ty) <= |v.data| && (at + n) * Width(v.ty) <= out.Length
    requires forall k | 0 <= k < n * Width(v.ty) :: out[at * Width(v.ty) + k] == v.data[k]
    ensures Fitting(v, i) && CopiedAt(out[..], v, i, at)
  {
    var w := Width(v.ty);
    SlotRange(at, i, i, n, w);
    SlotRange(0, i, i, n, w);
    var lo := (at + i) * w;
    ElementBounds(i, w);
    forall k | 0 <= k < w ensures out[lo..lo + w][k] == Element(v.data, i, w)[k] {
      assert out[at * w + (i * w + k)] == v.data[i * w + k];
    }
    assert out[..][lo..lo + w] == Element(v.data, i, w);
  }

  /** Zeros over one slot. */
  method ZeroSlot(out: array<byte>, lo: nat, w: nat)
    requires lo + w <= out.Length
    modifies out
    ensures out[lo..lo + w] == Zeros(w)
    ensures forall k | 0 <= k < out.Length && !(lo <= k < lo + w) :: out[k] == old(out[k])
  {
    forall k | 0 <= k < w {
      out[lo + k] := 0;
    }
  }

  lemma OtherSlotKept(v: EngineVector, n: nat, before: seq<byte>, after: seq<byte>, at: nat, i: nat, j: nat)
    requires i < n && j < n && i != j && Width(v.ty) > 0 && n * Width(v.ty) <= |v.data|
    requires (at + n) * Width(v.ty) <= |before| == |after|
    requires v.validity.Some? ==> j / 64 < |v.validity.value|
    requires forall k | 0 <= k < |before| && !((at + i) * Width(v.ty) <= k < (at + i) * Width(v.ty) + Width(v.ty)) ::
               after[k] == before[k]
    ensures Fitting(v, j)
    ensures CopiedAt(after, v, j, at) == CopiedAt(before, v, j, at)
    ensures SlotAt(after, v, j, at) == SlotAt(before, v, j, at)
  {
    var w := Width(v.ty);
    SlotRange(at, i, j, n, w);
    SlotRange(at, j, i, n, w);
    SlotRange(0, j, j, n, w);
    var lo := (at + j) * w;
    assert after[lo..lo + w] == before[lo..lo + w];
  }

  /** Zeros over every NULL row of the copied slots. */
  method ZeroNulls(v: EngineVector, rows: nat, n: nat, out: array<byte>, at: nat)
    requires VectorOk(v, rows) && n <= rows && Width(v.ty) > 0 && (at + n) * Width(v.ty) <= out.Length
    requires n * Width(v.ty) <= |v.data| && v.validity.Some?
    requires forall i | 0 <= i < n :: Fitting(v, i) && CopiedAt(out[..], v, i, at)
    modifies out
    ensures forall i | 0 <= i < n :: SlotAt(out[..], v, i, at)
    ensures forall k | 0 <= k < out.Length && !(at * Width(v.ty) <= k < (at + n) * Width(v.ty)) :: out[k] == old(out[k])
  {
    var w := Width(v.ty);
    var i := 0;
    while i < n
      invariant 0 <= i <= n
      invariant forall j | 0 <= j < i :: SlotAt(out[..], v, j, at)
      invariant forall j | i <= j < n :: CopiedAt(out[..], v, j, at)
      invariant forall k | 0 <= k < out.Length && !(at * w <= k < (at + n) * w) :: out[k] == old(out[k])
    {
      assert CopiedAt(out[..], v, i, at);
      if !ValidRow(v.validity.value, i) {
        SlotRange(at, i, i, n, w);
        ghost var before := out[..];
        ZeroSlot(out, (at + i) * w, w);
        forall j | 0 <= j < n && j != i
          ensures CopiedAt(out[..], v, j, at) == CopiedAt(before, v, j, at)
          ensures SlotAt(out[..], v, j, at) == SlotAt(before, v, j, at)
        {
          OtherSlotKept(v, n, before, out[..], at, i, j);
        }
      }
      assert SlotAt(out[..], v, i, at);
      i := i + 1;
    }
  }

  predicate Fitting(v: EngineVector, i: nat) {
    (i + 1) * Width(v.ty) <= |v.data|
  }

  /** The body of view_blit: one bulk copy, then zeros over the NULL rows. */
  method CopyRows(v: EngineVector, rows: nat, n: nat, out: array<byte>, at: nat)
    requires VectorOk(v, rows) && n <= rows && Width(v.ty) > 0 && (at + n) * Width(v.ty) <= out.Length
    requires n * Width(v.ty) <= |v.data|
    modifies out
    ensures forall i | 0 <= i < n :: Fitting(v, i) && SlotAt(out[..], v, i, at)
    ensures forall k | 0 <= k < out.Length && !(at * Width(v.ty) <= k < (at + n) * Width(v.ty)) :: out[k] == old(out[k])
  {
    CopyAll(v, n, out, at);
    forall i | 0 <= i < n ensures Fitting(v, i) && CopiedAt(out[..], v, i, at) {
      CopiedSlot(v, n, out, at, i);
    }
    if v.validity.Some? {
      ZeroNulls(v, rows, n, out, at);
    }
  }

  /** The body of view_blit_validity. */
  method CopyValidity(v: EngineVector, rows: nat, n: nat, out: array<byte>, at: nat)
    requires VectorOk(v, rows) && n <= rows && at + n <= out.Length
    modifies out
    ensures forall i | 0 <= i < n :: out[at + i] == if RowValid(v, i) then 1 else 0
    ensures forall k | 0 <= k < out.Length && !(at <= k < at + n) :: out[k] == old(out[k])
  {
    var i := 0;
    while i < n
      invariant 0 <= i <= n
      invariant forall j | 0 <= j < i :: out[at + j] == if RowValid(v, j) then 1 else 0
      invariant forall k | 0 <= k < out.Length && !(at <= k < at + i) :: out[k] == old(out[k])
    {
      out[at + i] := if RowValid(v, i) then 1 else 0;
      i := i + 1;
    }
  }
}
