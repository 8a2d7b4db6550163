/** Java's 32-bit signed `int` arithmetic, written out on Dafny's unbounded
    integers: every operator wraps modulo 2^32 into the signed range, and the
    bitwise operators act on the two's-complement bit pattern. */
module JavaInt {

  const TWO31: int := 0x8000_0000
  const TWO32: int := 0x1_0000_0000

  /** A value of Java type `int`. */
  type Int32 = x: int | -0x8000_0000 <= x < 0x8000_0000

  /** A configuration variable's contents: one byte. */
  type Byte = x: int | 0 <= x < 256

  function Pow2(n: nat): (r: nat)
    ensures r >= 1
  {
    if n == 0 then 1 else 2 * Pow2(n - 1)
  }

  /** The Int32 that has the same low 32 bits as x (Java's narrowing). */
  function Wrap(x: int): (r: Int32)
    ensures (r - x) % TWO32 == 0
    ensures -TWO31 <= x < TWO31 ==> r == x
  {
    (x + TWO31) % TWO32 - TWO31
  }

  /** The 32-bit pattern of a, read as an unsigned number. */
  function Unsigned(a: Int32): (u: nat)
    ensures u < TWO32 && (u - a) % TWO32 == 0
    ensures a >= 0 ==> u == a
  {
    if a < 0 then a + TWO32 else a
  }

  /** Java `a + b` on int. */
  function Add(a: Int32, b: Int32): Int32 { Wrap(a + b) }

  /** Java `a * b` on int. */
  function Mul(a: Int32, b: Int32): Int32 { Wrap(a * b) }

  /** Java `a << n` on int: only the low five bits of the distance count. */
  function Shl(a: Int32, n: nat): Int32 { Wrap(a * Pow2(n % 32)) }

  /** Bitwise or of two naturals, bit by bit from the lowest. */
  function BitOr(x: nat, y: nat): nat
    decreases x + y
  {
    if x == 0 then y
    else if y == 0 then x
    else 2 * BitOr(x / 2, y / 2) + (if x % 2 == 1 || y % 2 == 1 then 1 else 0)
  }

  /** Bitwise and of two naturals, bit by bit from the lowest. */
  function BitAnd(x: nat, y: nat): nat
    decreases x + y
  {
    if x == 0 || y == 0 then 0
    else 2 * BitAnd(x / 2, y / 2) + (if x % 2 == 1 && y % 2 == 1 then 1 else 0)
  }

  /** Java `a | b` on int. */
  function Or(a: Int32, b: Int32): Int32 { Wrap(BitOr(Unsigned(a), Unsigned(b))) }

  /** Java `a & b` on int. */
  function And(a: Int32, b: Int32): Int32 { Wrap(BitAnd(Unsigned(a), Unsigned(b))) }

  /** Little-endian value of a byte string: bs[0] is the lowest byte. */
  function LittleEndian(bs: seq<Byte>): nat
  {
    if bs == [] then 0 else bs[0] + 256 * LittleEndian(bs[1..])
  }

  /** The n lowest bytes of x, lowest first: the inverse of LittleEndian. */
  function ToBytes(x: nat, n: nat): (bs: seq<Byte>)
    ensures |bs| == n
  {
    if n == 0 then [] else [x % 256] + ToBytes(x / 256, n - 1)
  }

  // ---------------------------------------------------------------------
  // Lemmas about the wrap-around

  /** Two integers with the same low 32 bits narrow to the same int. */
  lemma WrapCongruent(x: int, y: int)
    requires (x - y) % TWO32 == 0
    ensures Wrap(x) == Wrap(y)
  {
    var q := (x - y) / TWO32;
    assert x == y + q * TWO32;
    assert (x + TWO31) % TWO32 == (y + TWO31) % TWO32;
  }

  /** Narrowing after narrowing an addend changes nothing. */
  lemma WrapAdd(x: int, y: int)
    ensures Wrap(Wrap(x) + y) == Wrap(x + y)
  {
    WrapCongruent(Wrap(x) + y, x + y);
  }

  /** The unsigned reading of a narrowed value is the value modulo 2^32. */
  lemma UnsignedWrap(x: int)
    ensures Unsigned(Wrap(x)) == x % TWO32
  {
    var u := Unsigned(Wrap(x));
    assert (u - x) % TWO32 == 0 by {
      var q1 := (u - Wrap(x)) / TWO32;
      var q2 := (Wrap(x) - x) / TWO32;
      assert u - x == (q1 + q2) * TWO32;
    }
  }

  // ---------------------------------------------------------------------
  // Lemmas about the bitwise operators

  lemma {:induction false} BitOrCommutes(x: nat, y: nat)
    ensures BitOr(x, y) == BitOr(y, x)
    decreases x + y
  {
    if x != 0 && y != 0 {
      BitOrCommutes(x / 2, y / 2);
    }
  }

  /** Or-ing a value shifted left by k with a value below 2^k is addition:
      the two occupy disjoint bits. */
  lemma {:induction false} BitOrShifted(a: nat, b: nat, k: nat)
    requires b < Pow2(k)
    ensures BitOr(a * Pow2(k), b) == a * Pow2(k) + b
  {
    if k == 0 {
      assert b == 0;
    } else {
      var half := a * Pow2(k - 1);
      assert a * Pow2(k) == 2 * half by {
        assert Pow2(k) == 2 * Pow2(k - 1);
        assert a * (2 * Pow2(k - 1)) == 2 * (a * Pow2(k - 1));
      }
      if half != 0 && b != 0 {
        assert (2 * half) / 2 == half;
        assert (2 * half) % 2 == 0;
        assert b / 2 < Pow2(k - 1);
        BitOrShifted(a, b / 2, k - 1);
        assert BitOr(2 * half, b) == 2 * BitOr(half, b / 2) + b % 2;
      }
    }
  }

  /** And-ing with 2^k - 1 keeps the k low bits. */
  lemma {:induction false} BitAndLowMask(x: nat, k: nat)
    ensures BitAnd(x, Pow2(k) - 1) == x % Pow2(k)
  {
    if k == 0 {
    } else if x == 0 {
    } else {
      var m := Pow2(k) - 1;
      assert m == 2 * (Pow2(k - 1) - 1) + 1;
      assert m / 2 == Pow2(k - 1) - 1 && m % 2 == 1;
      BitAndLowMask(x / 2, k - 1);
      assert BitAnd(x, m) == 2 * ((x / 2) % Pow2(k - 1)) + x % 2;
      ModHalving(x, Pow2(k - 1));
    }
  }

  lemma ModHalving(x: nat, p: nat)
    requires p >= 1
    ensures 2 * ((x / 2) % p) + x % 2 == x % (2 * p)
  {
    var h := x / 2;
    var q := h / p;
    assert h == q * p + h % p;
    assert x == q * (2 * p) + (2 * (h % p) + x % 2);
    assert 0 <= 2 * (h % p) + x % 2 < 2 * p;
    DivModUnique(x, 2 * p, q, 2 * (h % p) + x % 2);
  }

  lemma DivModUnique(x: int, d: int, q: int, r: int)
    requires d > 0 && 0 <= r < d && x == q * d + r
    ensures x % d == r && x / d == q
  {
    var q0, r0 := x / d, x % d;
    assert x == q0 * d + r0;
    assert (q - q0) * d == r0 - r by {
      assert q * d - q0 * d == (q - q0) * d;
    }
    if q > q0 {
      MulAtLeast(q - q0, d);
    } else if q < q0 {
      MulAtLeast(q0 - q, d);
    }
  }

  lemma MulAtLeast(a: int, d: int)
    requires a >= 1 && d > 0
    ensures a * d >= d
  {
    assert a * d == (a - 1) * d + d;
    assert (a - 1) * d >= 0;
  }

  // ---------------------------------------------------------------------
  // Lemmas about byte strings

  /** Splitting the little-endian value of a byte string into bytes gives
      the string back. */
  lemma {:induction false} ToBytesLittleEndian(bs: seq<Byte>)
    ensures ToBytes(LittleEndian(bs), |bs|) == bs
  {
    if bs != [] {
      var x := LittleEndian(bs);
      var rest := LittleEndian(bs[1..]);
      DivModUnique(x, 256, rest, bs[0]);
      ToBytesLittleEndian(bs[1..]);
    }
  }
}
