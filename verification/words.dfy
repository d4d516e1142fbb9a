/** Unsigned 64-bit mask words and the operations the scans apply to them, by place value. */
module Words {

  const WORD: nat := 0x1_0000_0000_0000_0000

  type word = w: nat | w < WORD

  function Pow2(n: nat): (p: nat)
    ensures p > 0
  {
    if n == 0 then 1 else 2 * Pow2(n - 1)
  }

  lemma Pow64()
    ensures Pow2(64) == WORD
  {
    var n := 8;
    assert Pow2(8) == 256;
    Pow2By8(8);
    Pow2By8(16);
    Pow2By8(24);
    Pow2By8(32);
    Pow2By8(40);
    Pow2By8(48);
    Pow2By8(56);
  }

  lemma Pow2By8(n: nat)
    ensures Pow2(n + 8) == 256 * Pow2(n)
  {
    assert Pow2(n + 4) == 16 * Pow2(n) by {
      assert Pow2(n + 2) == 4 * Pow2(n);
    }
    assert Pow2(n + 6) == 4 * Pow2(n + 4);
  }

  /** x >> n */
  function Shr(x: nat, n: nat): nat
    decreases n
  {
    if n == 0 then x else Shr(x / 2, n - 1)
  }

  /** (x >> i) & 1, the test of valid_row. */
  predicate Bit(x: nat, i: nat) {
    Shr(x, i) % 2 == 1
  }

  /** ~x on a 64-bit word. */
  function Not(x: word): word {
    WORD - 1 - x
  }

  /** x & y */
  function And(x: nat, y: nat): (z: nat)
    ensures z <= x && z <= y
  {
    if x == 0 || y == 0 then 0
    else (if x % 2 == 1 && y % 2 == 1 then 1 else 0) + 2 * And(x / 2, y / 2)
  }

  /** The word mask of the scans: the low `rows` bits. */
  function Wanted(rows: nat): (m: word)
    requires rows <= 64
  {
    if rows == 64 then WORD - 1
    else
      Pow64();
      Pow2Grows(rows, 64);
      Pow2(rows) - 1
  }

  lemma {:induction false} Pow2Grows(a: nat, b: nat)
    requires a <= b
    ensures Pow2(a) <= Pow2(b)
    decreases b
  {
    if a < b {
      Pow2Grows(a, b - 1);
    }
  }

  lemma {:induction false} ComplementBit(x: nat, n: nat, i: nat)
    requires x < Pow2(n) && i < n
    ensures Bit(Pow2(n) - 1 - x, i) == !Bit(x, i)
    decreases i
  {
    assert Pow2(n) == 2 * Pow2(n - 1);
    if i > 0 {
      assert (Pow2(n) - 1 - x) / 2 == Pow2(n - 1) - 1 - x / 2;
      ComplementBit(x / 2, n - 1, i - 1);
    }
  }

  lemma NotBit(x: word, i: nat)
    requires i < 64
    ensures Bit(Not(x), i) == !Bit(x, i)
  {
    Pow64();
    ComplementBit(x, 64, i);
  }

  lemma {:induction false} AndBit(x: nat, y: nat, i: nat)
    ensures Bit(And(x, y), i) == (Bit(x, i) && Bit(y, i))
    decreases i
  {
    if x == 0 || y == 0 {
      ZeroBit(i);
    } else if i > 0 {
      assert And(x, y) / 2 == And(x / 2, y / 2);
      AndBit(x / 2, y / 2, i - 1);
    }
  }

  lemma {:induction false} ZeroBit(i: nat)
    ensures !Bit(0, i)
    decreases i
  {
    if i > 0 {
      ZeroBit(i - 1);
    }
  }

  lemma {:induction false} MaskBit(k: nat, i: nat)
    ensures Bit(Pow2(k) - 1, i) == (i < k)
    decreases i
  {
    if k == 0 {
      ZeroBit(i);
    } else if i > 0 {
      assert (Pow2(k) - 1) / 2 == Pow2(k - 1) - 1;
      MaskBit(k - 1, i - 1);
    }
  }

  /** A missing bit is a row below the count that is not valid. */
  lemma MissingBit(x: word, rows: nat, i: nat)
    requires rows <= 64 && i < 64
    ensures Bit(And(Not(x), Wanted(rows)), i) == (i < rows && !Bit(x, i))
  {
    Pow64();
    NotBit(x, i);
    MaskBit(rows, i);
    AndBit(Not(x), Wanted(rows), i);
  }

  // ----- popcount and ctz, by their meaning

  function BitsBelow(x: nat, n: nat): nat {
    if n == 0 then 0 else BitsBelow(x, n - 1) + if Bit(x, n - 1) then 1 else 0
  }

  function Popcount(x: word): nat {
    BitsBelow(x, 64)
  }

  ghost predicate HasBit(x: nat, n: nat) {
    exists i: nat :: i < n && Bit(x, i)
  }

  lemma {:induction false} SomeBit(x: nat, n: nat)
    requires 0 < x < Pow2(n)
    ensures HasBit(x, n)
    decreases n
  {
    if x % 2 == 1 {
      assert Bit(x, 0);
    } else {
      SomeBit(x / 2, n - 1);
      var i: nat :| i < n - 1 && Bit(x / 2, i);
      assert Bit(x, i + 1);
    }
  }

  lemma NonzeroHasBit(x: word)
    ensures x != 0 <==> HasBit(x, 64)
  {
    Pow64();
    if x != 0 {
      SomeBit(x, 64);
    } else if HasBit(x, 64) {
      var i: nat :| i < 64 && Bit(x, i);
      ZeroBit(i);
    }
  }

  /** The least set bit at or above i. */
  function LeastBit(x: nat, i: nat): (b: nat)
    requires i < 64 && exists k: nat :: i <= k < 64 && Bit(x, k)
    ensures i <= b < 64 && Bit(x, b) && forall k: nat | i <= k < b :: !Bit(x, k)
    decreases 64 - i
  {
    if Bit(x, i) then i else LeastBit(x, i + 1)
  }

  function Ctz(x: word): (b: nat)
    requires x != 0
    ensures b < 64 && Bit(x, b) && forall k: nat | k < b :: !Bit(x, k)
  {
    NonzeroHasBit(x);
    LeastBit(x, 0)
  }
}
