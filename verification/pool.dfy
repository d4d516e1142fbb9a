/** The staging pool: fixed-size chunks read as one flat list of rows. */
module Pool {
  import opened Native
  import opened Bytes
  import opened Staging
  import opened AppenderSpec
  import opened AppenderRuns

  /** A staging chunk: the engine types it was created from and, per column, `size` cells. */
  datatype Chunk = Chunk(types: seq<Ty>, columns: seq<seq<Cell>>)

  predicate Shaped(c: Chunk, types: seq<Ty>, size: nat) {
    c.types == types && |c.columns| == |types| && forall k | 0 <= k < |types| :: |c.columns[k]| == size
  }

  predicate PoolOk(pool: seq<Chunk>, types: seq<Ty>, size: nat) {
    size > 0 && forall k | 0 <= k < |pool| :: Shaped(pool[k], types, size)
  }

  lemma Locate(n: nat, size: nat, r: nat)
    requires size > 0 && r < n
    ensures r == (r / size) * size + r % size && 0 <= r % size < size && 0 <= r / size < Ceil(n, size)
    ensures forall m: nat | n <= m * size :: r / size < m
  {
    var q := r / size;
    ChunkStarts(n, size, q);
    forall m: nat | n <= m * size ensures q < m {
      if q >= m {
        Scale(m, q, size);
      }
    }
  }

  lemma Position(size: nat, k: nat, i: nat)
    requires i < size
    ensures (k * size + i) / size == k && (k * size + i) % size == i
  {
    var r := k * size + i;
    var q, m := r / size, r % size;
    assert r == size * q + m && size * k == k * size;
    DivModUnique(size, q, m, k, i);
  }

  /** The cell of (column, row). */
  function CellAt(pool: seq<Chunk>, types: seq<Ty>, size: nat, c: nat, r: nat): Cell
    requires PoolOk(pool, types, size) && c < |types| && r < |pool| * size
  {
    Locate(|pool| * size, size, r);
    pool[r / size].columns[c][r % size]
  }

  /** The first n rows of the pool. */
  function Grid(pool: seq<Chunk>, types: seq<Ty>, size: nat, n: nat): (rows: seq<Row>)
    requires PoolOk(pool, types, size) && n <= |pool| * size
    ensures |rows| == n && Rectangular(rows, |types|)
  {
    seq(n, r requires 0 <= r < n => RowAt(pool, types, size, r))
  }

  function RowAt(pool: seq<Chunk>, types: seq<Ty>, size: nat, r: nat): (row: Row)
    requires PoolOk(pool, types, size) && r < |pool| * size
    ensures |row| == |types|
  {
    seq(|types|, c requires 0 <= c < |types| => CellAt(pool, types, size, c, r))
  }

  function PutCell(pool: seq<Chunk>, types: seq<Ty>, size: nat, k: nat, c: nat, i: nat, cell: Cell): (out: seq<Chunk>)
    requires PoolOk(pool, types, size) && k < |pool| && c < |types| && i < size
    ensures PoolOk(out, types, size) && |out| == |pool|
  {
    pool[k := pool[k].(columns := pool[k].columns[c := pool[k].columns[c][i := cell]])]
  }

  /** A store into the chunk and offset of a row changes that cell of the flat list and no other. */
  lemma GridPut(pool: seq<Chunk>, types: seq<Ty>, size: nat, n: nat, c: nat, r: nat, cell: Cell)
    requires PoolOk(pool, types, size) && n <= |pool| * size && c < |types| && r < n
    ensures r / size < |pool| && 0 <= r % size < size
    ensures Grid(PutCell(pool, types, size, r / size, c, r % size, cell), types, size, n)
         == var rows := Grid(pool, types, size, n); rows[r := rows[r][c := cell]]
  {
    Locate(n, size, r);
    var after := PutCell(pool, types, size, r / size, c, r % size, cell);
    var rows := Grid(pool, types, size, n);
    var expected := rows[r := rows[r][c := cell]];
    forall r' | 0 <= r' < n ensures Grid(after, types, size, n)[r'] == expected[r'] {
      Locate(n, size, r');
      forall c' | 0 <= c' < |types| ensures Grid(after, types, size, n)[r'][c'] == expected[r'][c'] {
        OneCell(pool, types, size, r / size, c, r % size, cell, r' / size, c', r' % size);
      }
    }
  }

  lemma OneCell(pool: seq<Chunk>, types: seq<Ty>, size: nat, k: nat, c: nat, i: nat, cell: Cell, k': nat, c': nat,
      i': nat)
    requires PoolOk(pool, types, size) && k < |pool| && c < |types| && i < size
    requires k' < |pool| && c' < |types| && i' < size
    ensures PutCell(pool, types, size, k, c, i, cell)[k'].columns[c'][i']
         == if k' == k && c' == c && i' == i then cell else pool[k'].columns[c'][i']
  {
  }

  /** memcpy into the first n cells of a column of the first chunk. */
  function Fill(pool: seq<Chunk>, types: seq<Ty>, size: nat, c: nat, a: array1, at: nat, n: nat): (out: seq<Chunk>)
    requires PoolOk(pool, types, size) && pool != [] && c < |types| && n <= size && a.dims == 1 && at + n <= a.dim
    ensures PoolOk(out, types, size) && |out| == |pool|
  {
    var before := pool[0].columns[c];
    var filled := seq(size, i requires 0 <= i < size => if i < n then before[i].(bytes := At(a, at + i))
        else before[i]);
    pool[0 := pool[0].(columns := pool[0].columns[c := filled])]
  }

  lemma GridFill(pool: seq<Chunk>, types: seq<Ty>, size: nat, rows: nat, c: nat, a: array1, at: nat, n: nat)
    requires PoolOk(pool, types, size) && pool != [] && rows <= |pool| * size && c < |types| && n <= size && n <= rows
    requires a.dims == 1 && at + n <= a.dim && types[c] != BOOLEAN
    ensures Grid(Fill(pool, types, size, c, a, at, n), types, size, rows)
         == PutColumn(Grid(pool, types, size, rows), |types|, c, types[c], a, at, n)
  {
    var after := Grid(Fill(pool, types, size, c, a, at, n), types, size, rows);
    var before := Grid(pool, types, size, rows);
    var expected := PutColumn(before, |types|, c, types[c], a, at, n);
    forall r | 0 <= r < rows ensures after[r] == expected[r] {
      Locate(rows, size, r);
      forall c' | 0 <= c' < |types| ensures after[r][c'] == expected[r][c'] {
        FilledAt(pool, types, size, rows, c, a, at, n, r, c');
      }
    }
  }

  /** One cell of GridFill. */
  lemma FilledAt(pool: seq<Chunk>, types: seq<Ty>, size: nat, rows: nat, c: nat, a: array1, at: nat, n: nat, r: nat,
      c': nat)
    requires PoolOk(pool, types, size) && pool != [] && rows <= |pool| * size && c < |types| && n <= size && n <= rows
    requires a.dims == 1 && at + n <= a.dim && types[c] != BOOLEAN && r < rows && c' < |types|
    ensures Grid(Fill(pool, types, size, c, a, at, n), types, size, rows)[r][c']
         == PutColumn(Grid(pool, types, size, rows), |types|, c, types[c], a, at, n)[r][c']
  {
    PutColumnAt(Grid(pool, types, size, rows), |types|, c, types[c], a, at, n, c', r);
    Locate(rows, size, r);
    FirstChunk(size, r);
    FilledCell(pool, types, size, c, a, at, n, r / size, c', r % size);
  }

  lemma FirstChunk(size: nat, r: nat)
    requires size > 0
    ensures r / size == 0 <==> r < size
    ensures r < size ==> r % size == r
  {
    if r < size {
      Position(size, 0, r);
    } else {
      Locate(r + 1, size, r);
    }
  }

  lemma FilledCell(pool: seq<Chunk>, types: seq<Ty>, size: nat, c: nat, a: array1, at: nat, n: nat, k: nat, c': nat,
      i: nat)
    requires PoolOk(pool, types, size) && pool != [] && c < |types| && n <= size && a.dims == 1 && at + n <= a.dim
    requires k < |pool| && c' < |types| && i < size
    ensures Fill(pool, types, size, c, a, at, n)[k].columns[c'][i]
         == if k == 0 && c' == c && i < n then pool[0].columns[c][i].(bytes := At(a, at + i))
             else pool[k].columns[c'][i]
  {
  }

  /** The first `length` rows of a chunk, as append_staged offers them. */
  function ChunkRows(chunk: Chunk, types: seq<Ty>, size: nat, length: nat): (rows: seq<Row>)
    requires Shaped(chunk, types, size) && length <= size
    ensures |rows| == length && Rectangular(rows, |types|)
  {
    seq(length, i requires 0 <= i < length => seq(|types|, c requires 0 <= c < |types| => chunk.columns[c][i]))
  }

  /** The k-th pooled chunk holds the k-th chunk of the flat list. */
  lemma ChunkHoldsRows(pool: seq<Chunk>, types: seq<Ty>, size: nat, n: nat, k: nat)
    requires PoolOk(pool, types, size) && n <= |pool| * size && k < Ceil(n, size)
    ensures k < |pool| && k * size < n
    ensures var length := if k + 1 < Ceil(n, size) then size else n - k * size;
            && 0 < length <= size && k * size + length == Least((k + 1) * size, n)
            && ChunkRows(pool[k], types, size, length) == ChunkAt(Grid(pool, types, size, n), size, k)
  {
    ChunkStarts(n, size, k);
    ChunkStarts(n, size, k + 1);
    assert (k + 1) * size == k * size + size;
    Locate(n, size, k * size);
    Position(size, k, 0);
    var length := if k + 1 < Ceil(n, size) then size else n - k * size;
    var rows := Grid(pool, types, size, n);
    forall i | 0 <= i < length ensures ChunkRows(pool[k], types, size, length)[i] == ChunkAt(rows, size, k)[i] {
      Position(size, k, i);
      assert ChunkAt(rows, size, k)[i] == rows[k * size + i];
    }
  }

  /** ... and the call made on it is the k-th of the batch. */
  lemma ChunkIsOffered(pool: seq<Chunk>, types: seq<Ty>, size: nat, n: nat, k: nat, length: nat)
    requires PoolOk(pool, types, size) && n <= |pool| * size && k < Ceil(n, size) && k < |pool| && length <= size
    requires length == if k + 1 < Ceil(n, size) then size else n - k * size
    ensures Chunks(Grid(pool, types, size, n), size, 0)[k] == Append(ChunkRows(pool[k], types, size, length))
  {
    ChunkHoldsRows(pool, types, size, n, k);
    ChunkShape(Grid(pool, types, size, n), size, 0, k);
  }
}
