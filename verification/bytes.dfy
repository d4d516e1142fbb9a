/** Column types and the physical bytes of their elements. */
module Bytes {

  type byte = b: int | 0 <= b < 256

  datatype Ty =
    | BOOLEAN | TINYINT | SMALLINT | INTEGER | BIGINT | FLOAT | DOUBLE | DATE
    | TIMESTAMP | TIMESTAMP_S | TIMESTAMP_MS | TIMESTAMP_NS | TIMESTAMP_TZ
    | VARCHAR | BLOB | OTHER

  /** duckdb_ml_type_width */
  function Width(t: Ty): nat {
    match t
    case BOOLEAN => 1
    case TINYINT => 1
    case SMALLINT => 2
    case INTEGER => 4
    case DATE => 4
    case FLOAT => 4
    case BIGINT => 8
    case DOUBLE => 8
    case TIMESTAMP => 8
    case TIMESTAMP_S => 8
    case TIMESTAMP_MS => 8
    case TIMESTAMP_NS => 8
    case TIMESTAMP_TZ => 8
    case _ => 0
  }

  function Pow256(w: nat): (p: nat)
    ensures p > 0
  {
    if w == 0 then 1 else 256 * Pow256(w - 1)
  }

  /** The low w bytes of x in two's complement, least significant first: a store through a w-byte type. */
  function Encode(x: int, w: nat): (bs: seq<byte>)
    ensures |bs| == w
    decreases w
  {
    if w == 0 then [] else [x % 256] + Encode(x / 256, w - 1)
  }

  function Unsigned(bs: seq<byte>): nat {
    if bs == [] then 0 else bs[0] + 256 * Unsigned(bs[1..])
  }

  /** A load through the signed type of |bs| bytes. */
  function Signed(bs: seq<byte>): int {
    var u := Unsigned(bs);
    if bs != [] && 2 * u >= Pow256(|bs|) then u - Pow256(|bs|) else u
  }

  /** A cast to the signed type of w bytes. */
  function Wrap(x: int, w: nat): int {
    var u := x % Pow256(w);
    if w > 0 && 2 * u >= Pow256(w) then u - Pow256(w) else u
  }

  predicate Fits(x: int, w: nat) {
    w > 0 && 0 - Pow256(w) <= 2 * x < Pow256(w)
  }

  lemma AtLeastOnce(m: nat, k: int)
    requires k >= 1
    ensures m * k >= m
  {
    assert m * k == m + m * (k - 1);
  }

  lemma DivModUnique(m: nat, q: int, t: nat, d: int, r: nat)
    requires t < m && r < m && m * q + t == m * d + r
    ensures q == d && t == r
  {
    assert m * (d - q) == t - r && m * (q - d) == r - t;
    if d > q {
      AtLeastOnce(m, d - q);
    } else if d < q {
      AtLeastOnce(m, q - d);
    }
  }

  lemma ModIs(x: int, m: nat, q: int, t: nat)
    requires m > 0 && x == m * q + t && t < m
    ensures x % m == t
  {
    var d, r := x / m, x % m;
    assert x == m * d + r;
    DivModUnique(m, q, t, d, r);
  }

  lemma {:induction false} UnsignedEncode(x: int, w: nat)
    ensures Unsigned(Encode(x, w)) == x % Pow256(w)
    decreases w
  {
    if w > 0 {
      var y := x / 256;
      UnsignedEncode(y, w - 1);
      assert Encode(x, w)[1..] == Encode(y, w - 1) && Encode(x, w)[0] == x % 256;
      LowAndHigh(x, Pow256(w - 1));
    }
  }

  lemma LowAndHigh(x: int, p: nat)
    requires p > 0
    ensures x % (256 * p) == x % 256 + 256 * (x / 256 % p)
  {
    var y, r := x / 256, x % 256;
    var q, s := y / p, y % p;
    assert x == 256 * (p * q + s) + r;
    assert 256 * (p * q) == (256 * p) * q;
    ModIs(x, 256 * p, q, 256 * s + r);
  }

  /** Store then load is the C cast; it is the identity exactly on the values the width can hold. */
  lemma StoreThenLoad(x: int, w: nat)
    requires w > 0
    ensures Signed(Encode(x, w)) == Wrap(x, w)
    ensures Wrap(x, w) == x <==> Fits(x, w)
  {
    UnsignedEncode(x, w);
    var p := Pow256(w);
    if 0 <= x < p {
      ModIs(x, p, 0, x);
    } else if -p <= x < 0 {
      ModIs(x, p, -1, x + p);
    }
  }

  lemma {:induction false} UnsignedBounded(bs: seq<byte>)
    ensures Unsigned(bs) < Pow256(|bs|)
  {
    if bs != [] {
      UnsignedBounded(bs[1..]);
    }
  }

  lemma EncodeStep(low: byte, high: int, w: nat)
    ensures Encode(low + 256 * high, w + 1) == [low] + Encode(high, w)
  {
    ModIs(low + 256 * high, 256, high, low);
  }

  lemma {:induction false} EncodeUnsigned(bs: seq<byte>)
    ensures Encode(Unsigned(bs), |bs|) == bs && Encode(Unsigned(bs) - Pow256(|bs|), |bs|) == bs
  {
    if bs != [] {
      var u: int := Unsigned(bs[1..]);
      var p := Pow256(|bs| - 1);
      EncodeUnsigned(bs[1..]);
      EncodeStep(bs[0], u, |bs| - 1);
      EncodeStep(bs[0], u - p, |bs| - 1);
      assert bs == [bs[0]] + bs[1..];
    }
  }

  lemma SignedIs(bs: seq<byte>)
    ensures Signed(bs) == Unsigned(bs) || Signed(bs) == Unsigned(bs) - Pow256(|bs|)
  {
  }

  /** Load then store restores the bytes. */
  lemma EncodeSigned(bs: seq<byte>)
    ensures Encode(Signed(bs), |bs|) == bs
  {
    SignedIs(bs);
    EncodeUnsigned(bs);
  }

  /** The i-th element of w bytes. */
  function Element(data: seq<byte>, i: nat, w: nat): (e: seq<byte>)
    requires (i + 1) * w <= |data|
    ensures |e| == w
  {
    ElementBounds(i, w);
    data[i * w..i * w + w]
  }

  lemma ElementBounds(i: nat, w: nat)
    ensures 0 <= i * w && i * w + w == (i + 1) * w
  {
  }

  // ----- wider encodings

  /** x >> 8 * w, rounding down. */
  function Above(x: int, w: nat): int
    decreases w
  {
    if w == 0 then x else Above(x / 256, w - 1)
  }

  lemma {:induction false} EncodeSplit(x: int, w: nat, k: nat)
    ensures Encode(x, w + k) == Encode(x, w) + Encode(Above(x, w), k)
    decreases w
  {
    if w > 0 {
      EncodeSplit(x / 256, w - 1, k);
    } else {
      assert Encode(x, 0) == [];
    }
  }

  lemma {:induction false} AboveUnsigned(bs: seq<byte>)
    ensures Above(Unsigned(bs), |bs|) == 0 && Above(Unsigned(bs) - Pow256(|bs|), |bs|) == -1
  {
    if bs != [] {
      var u: int := Unsigned(bs[1..]);
      var p := Pow256(|bs| - 1);
      AboveUnsigned(bs[1..]);
      DropLow(bs[0], u);
      DropLow(bs[0], u - p);
    }
  }

  lemma DropLow(low: byte, high: int)
    ensures (low + 256 * high) / 256 == high
  {
  }

  lemma {:induction false} SmallEncodings(k: nat)
    ensures Encode(0, k) == seq(k, _ => 0) && Encode(-1, k) == seq(k, _ => 255)
  {
    if k > 0 {
      SmallEncodings(k - 1);
      assert (-1) / 256 == -1 && (-1) % 256 == 255;
    }
  }

  /** The sign of a load is its highest bit. */
  lemma {:induction false} HighBit(bs: seq<byte>)
    requires bs != []
    ensures 2 * Unsigned(bs) >= Pow256(|bs|) <==> bs[|bs| - 1] >= 128
  {
    if |bs| == 1 {
      assert bs[1..] == [] && Unsigned(bs) == bs[0] && Pow256(1) == 256;
    } else {
      HighBit(bs[1..]);
      UnsignedBounded(bs[1..]);
      EvenPow(|bs| - 1);
      HalfStep(bs[0], Unsigned(bs[1..]), Pow256(|bs| - 1) / 2);
    }
  }

  lemma {:induction false} EvenPow(w: nat)
    requires w > 0
    ensures Pow256(w) % 2 == 0
  {
  }

  lemma HalfStep(low: byte, high: nat, half: nat)
    ensures low + 256 * high >= 256 * half <==> high >= half
  {
  }

  lemma SignedFits(bs: seq<byte>)
    requires bs != []
    ensures Fits(Signed(bs), |bs|)
  {
    UnsignedBounded(bs);
  }

  lemma {:induction false} FitsWider(x: int, w: nat, k: nat)
    requires Fits(x, w)
    ensures Fits(x, w + k)
    decreases k
  {
    if k > 0 {
      FitsWider(x, w, k - 1);
    }
  }

  /** The wider encoding of a load is the load, sign-extended. */
  lemma ExtendedEncoding(e: seq<byte>, k: nat)
    requires e != []
    ensures Encode(Signed(e), |e| + k) == e + seq(k, _ => if e[|e| - 1] >= 128 then 255 else 0)
  {
    EncodeSigned(e);
    EncodeSplit(Signed(e), |e|, k);
    AboveSigned(e);
    SmallEncodings(k);
  }

  lemma AboveSigned(e: seq<byte>)
    requires e != []
    ensures Above(Signed(e), |e|) == if e[|e| - 1] >= 128 then -1 else 0
  {
    AboveUnsigned(e);
    HighBit(e);
    SignedBySign(e);
  }

  lemma SignedBySign(e: seq<byte>)
    requires e != []
    ensures Signed(e) == if 2 * Unsigned(e) >= Pow256(|e|) then Unsigned(e) - Pow256(|e|) else Unsigned(e)
  {
  }
}
