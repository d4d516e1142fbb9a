/** The word-at-a-time validity scans: 64 rows to a word, a set bit for a valid row. */
module Scans {
  import opened Native
  import opened Words

  // ----- the row-by-row meaning

  function WordCount(rows: nat): nat {
    (rows + 63) / 64
  }

  predicate Covers(words: seq<word>, rows: nat) {
    |words| == WordCount(rows)
  }

  predicate ValidRow(words: seq<word>, i: nat)
    requires i / 64 < |words|
  {
    Bit(words[i / 64], i % 64)
  }

  /** NULL rows below n. */
  function NullsBelow(words: seq<word>, n: nat): nat
    requires n <= 64 * |words|
  {
    if n == 0 then 0 else NullsBelow(words, n - 1) + if ValidRow(words, n - 1) then 0 else 1
  }

  function NullSet(words: seq<word>, n: nat): set<int>
    requires n <= 64 * |words|
  {
    set i | 0 <= i < n && !ValidRow(words, i)
  }

  lemma NullSetStep(words: seq<word>, n: nat)
    requires 0 < n <= 64 * |words|
    ensures |NullSet(words, n)| == |NullSet(words, n - 1)| + if ValidRow(words, n - 1) then 0 else 1
  {
    var before, after := NullSet(words, n - 1), NullSet(words, n);
    forall i | i != n - 1 ensures i in after <==> i in before {
    }
    if ValidRow(words, n - 1) {
      assert after == before;
    } else {
      assert after == before + {n - 1};
    }
  }

  /** The row count is the size of the set of NULL rows. */
  lemma {:induction false} NullsBelowCounts(words: seq<word>, n: nat)
    requires n <= 64 * |words|
    ensures NullsBelow(words, n) == |NullSet(words, n)|
  {
    if n > 0 {
      NullsBelowCounts(words, n - 1);
      NullSetStep(words, n);
    }
  }

  lemma {:induction false} WordNulls(words: seq<word>, w: nat, rows: nat, k: nat)
    requires w < |words| && k <= rows <= 64
    ensures NullsBelow(words, 64 * w + k) == NullsBelow(words, 64 * w) + BitsBelow(And(Not(words[w]), Wanted(rows)), k)
    decreases k
  {
    if k > 0 {
      WordNulls(words, w, rows, k - 1);
      MissingBit(words[w], rows, k - 1);
      assert (64 * w + k - 1) / 64 == w && (64 * w + k - 1) % 64 == k - 1;
    }
  }

  lemma {:induction false} NoneAbove(x: word, rows: nat, n: nat)
    requires rows <= n <= 64
    ensures BitsBelow(And(Not(x), Wanted(rows)), n) == BitsBelow(And(Not(x), Wanted(rows)), rows)
    decreases n
  {
    if n > rows {
      NoneAbove(x, rows, n - 1);
      MissingBit(x, rows, n - 1);
    }
  }

  /** One word of the mask contributes exactly its NULL rows. */
  lemma WordContributes(words: seq<word>, w: nat, rows: nat)
    requires w < |words| && rows <= 64
    ensures NullsBelow(words, 64 * w + rows)
         == NullsBelow(words, 64 * w) + Popcount(And(Not(words[w]), Wanted(rows)))
  {
    WordNulls(words, w, rows, rows);
    NoneAbove(words[w], rows, 64);
  }

  /** One word of the count: its NULL rows below n. */
  method CountWord(words: seq<word>, w: nat, n: nat) returns (count: nat)
    requires 64 * w < n <= 64 * |words|
    ensures NullsBelow(words, if n < 64 * w + 64 then n else 64 * w + 64) == NullsBelow(words, 64 * w) + count
  {
    var inWord := if n - w * 64 < 64 then n - w * 64 else 64;
    WordContributes(words, w, inWord);
    count := Popcount(And(Not(words[w]), Wanted(inWord)));
  }

  /** view_null_count: NULL rows among the first `length`, clamped to the chunk. */
  method NullCount(validity: Option<seq<word>>, rows: nat, length: int) returns (count: int)
    requires validity.Some? ==> Covers(validity.value, rows)
    ensures count == if validity == None || length <= 0 then 0
                     else NullsBelow(validity.value, if length < rows then length else rows)
  {
    if validity == None {
      return 0;
    }
    var words := validity.value;
    var n := if length > rows then rows else length;
    count := 0;
    var w := 0;
    while w * 64 < n
      invariant 0 <= w && (w > 0 ==> n > 0)
      invariant count == NullsBelow(words, if n <= 0 then 0 else if n < 64 * w then n else 64 * w)
      decreases n - w * 64
    {
      var nulls := CountWord(words, w, n);
      count := count + nulls;
      w := w + 1;
    }
  }

  /** view_first_null: the least NULL row below length and the chunk's end, or -1. */
  method FirstNull(validity: Option<seq<word>>, rows: nat, length: int) returns (first: int)
    requires validity.Some? ==> Covers(validity.value, rows)
    ensures -1 <= first && (first >= 0 ==> validity.Some? && first < length && first < rows)
    ensures first >= 0 ==> !ValidRow(validity.value, first)
    ensures validity.Some? ==>
              forall i | 0 <= i < length && i < rows && (first >= 0 ==> i < first) :: ValidRow(validity.value, i)
  {
    if validity == None {
      return -1;
    }
    var words := validity.value;
    var n := if length > rows then rows else length;
    var w := 0;
    while w * 64 < n
      invariant 0 <= w
      invariant forall i | 0 <= i < n && i < w * 64 :: ValidRow(words, i)
      decreases n - w * 64
    {
      var bits := words[w];
      var inWord := if n - w * 64 < 64 then n - w * 64 else 64;
      var missing := And(Not(bits), Wanted(inWord));
      NonzeroHasBit(missing);
      forall i | w * 64 <= i < n && i < w * 64 + 64
        ensures i / 64 == w && i % 64 < inWord && Bit(missing, i % 64) == !ValidRow(words, i)
      {
        MissingBit(bits, inWord, i % 64);
      }
      if missing != 0 {
        var b := Ctz(missing);
        MissingBit(bits, inWord, b);
        assert (w * 64 + b) / 64 == w && (w * 64 + b) % 64 == b;
        return w * 64 + b;
      }
      w := w + 1;
    }
    return -1;
  }
}
