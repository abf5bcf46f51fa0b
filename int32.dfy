/**
 * Machine integers as the Rust code uses them: `i32`, `u8` and `u16` as subset types of `int`,
 * two's-complement wrap-around, arithmetic shifts and bitwise AND.
 *
 * Overflow policy of the whole model: every `i32` operation that can leave the range wraps
 * modulo 2^32 (what a release build does), and shift amounts are taken modulo 32.
 */
module Int32 {


  type i32 = x: int | -0x8000_0000 <= x <= 0x7FFF_FFFF
  type u8 = x: int | 0 <= x < 0x100
  type u16 = x: int | 0 <= x < 0x1_0000

  predicate InRange(x: int) {
    -0x8000_0000 <= x <= 0x7FFF_FFFF
  }

  /**
   * Two's-complement wrap-around of `x` into `i32`: add or subtract 2^32 until the value fits.
   * `WrapCanonical` gives the closed form through the residue modulo 2^32.
   */
  function Wrap(x: int): (r: i32)
    ensures InRange(x) ==> r == x
    decreases if x >= 0 then 2 * x else -2 * x - 1
  {
    if x > 0x7FFF_FFFF then Wrap(x - 0x1_0000_0000)
    else if x < -0x8000_0000 then Wrap(x + 0x1_0000_0000)
    else x
  }

  lemma {:induction false} WrapCanonical(x: int)
    ensures Wrap(x) == (var m := x % 0x1_0000_0000; if m <= 0x7FFF_FFFF then m else m - 0x1_0000_0000)
    decreases if x >= 0 then 2 * x else -2 * x - 1
  {
    if x > 0x7FFF_FFFF {
      WrapCanonical(x - 0x1_0000_0000);
      DivModUnique(x, 0x1_0000_0000, (x - 0x1_0000_0000) / 0x1_0000_0000 + 1, (x - 0x1_0000_0000) % 0x1_0000_0000);
    } else if x < -0x8000_0000 {
      WrapCanonical(x + 0x1_0000_0000);
      DivModUnique(x, 0x1_0000_0000, (x + 0x1_0000_0000) / 0x1_0000_0000 - 1, (x + 0x1_0000_0000) % 0x1_0000_0000);
    } else if x < 0 {
      DivModUnique(x, 0x1_0000_0000, -1, x + 0x1_0000_0000);
    } else {
      DivModUnique(x, 0x1_0000_0000, 0, x);
    }
  }

  /** `Wrap(x)` is congruent to `x` modulo 2^32. */
  lemma WrapSpec(x: int)
    ensures (x - Wrap(x)) % 0x1_0000_0000 == 0
  {
    WrapCanonical(x);
    var m := x % 0x1_0000_0000;
    var q := x / 0x1_0000_0000;
    assert x == 0x1_0000_0000 * q + m;
    if m <= 0x7FFF_FFFF {
      DivModUnique(x - Wrap(x), 0x1_0000_0000, q, 0);
    } else {
      DivModUnique(x - Wrap(x), 0x1_0000_0000, q + 1, 0);
    }
  }

  function Pow2(n: nat): (r: nat)
    ensures r >= 1
  {
    if n == 0 then 1 else 2 * Pow2(n - 1)
  }

  lemma {:induction false} Pow2Add(a: nat, b: nat)
    ensures Pow2(a + b) == Pow2(a) * Pow2(b)
  {
    if a > 0 {
      Pow2Add(a - 1, b);
      assert Pow2(a + b) == 2 * Pow2(a - 1 + b);
    }
  }

  lemma {:induction false} Pow2Monotone(a: nat, b: nat)
    requires a <= b
    ensures Pow2(a) <= Pow2(b)
  {
    if a < b {
      Pow2Monotone(a, b - 1);
    }
  }

  /** The powers of two that the bit layouts of the synthesiser use. */
  lemma Pow2Values()
    ensures Pow2(1) == 2 && Pow2(2) == 4 && Pow2(4) == 16 && Pow2(8) == 0x100
    ensures Pow2(10) == 0x400 && Pow2(13) == 0x2000 && Pow2(14) == 0x4000 && Pow2(16) == 0x1_0000
  {
    assert Pow2(4) == 16 && Pow2(5) == 32 && Pow2(6) == 64 && Pow2(2) == 4;
    Pow2Add(4, 4);
    Pow2Add(8, 2);
    Pow2Add(8, 5);
    Pow2Add(8, 6);
    Pow2Add(8, 8);
  }

  /** Arithmetic shift right (`x >> n` on `i32`, shift amount taken modulo 32). */
  function ShiftRight(x: i32, n: nat): i32
  {
    var d := Pow2(n % 32);
    DivBounds(x, d);
    x / d
  }

  /** A right shift rounds toward negative infinity: it is floor division by 2^n. */
  lemma ShiftRightFloor(x: i32, n: nat)
    requires n < 32
    ensures ShiftRight(x, n) == x / Pow2(n)
    ensures ShiftRight(x, n) * Pow2(n) <= x < ShiftRight(x, n) * Pow2(n) + Pow2(n)
  {
    assert n % 32 == n;
    DivBounds(x, Pow2(n));
  }

  /** Shift left (`x << n` on `i32`): the bits shifted out of the word are lost. */
  function ShiftLeft(x: i32, n: nat): i32
  {
    Wrap(x * Pow2(n % 32))
  }

  // ---------------------------------------------------------------- bitwise AND

  /** AND of the low `width` bits of two naturals. */
  function AndBits(a: nat, b: nat, width: nat): nat
  {
    if width == 0 then 0
    else 2 * AndBits(a / 2, b / 2, width - 1) + (if a % 2 == 1 && b % 2 == 1 then 1 else 0)
  }

  /** Bitwise AND of two `i32` values, on their two's-complement bit patterns. */
  function And(x: i32, y: i32): (r: i32)
    ensures 0 <= y ==> 0 <= r <= y
  {
    var bits := AndBits(x % 0x1_0000_0000, y % 0x1_0000_0000, 32);
    AndBitsBelow(x % 0x1_0000_0000, y % 0x1_0000_0000, 32);
    Wrap(bits)
  }

  lemma {:induction false} AndBitsBelow(a: nat, b: nat, width: nat)
    ensures AndBits(a, b, width) <= b
  {
    if width > 0 {
      AndBitsBelow(a / 2, b / 2, width - 1);
    }
  }

  lemma {:induction false} AndBitsZero(a: nat, width: nat)
    ensures AndBits(a, 0, width) == 0
  {
    if width > 0 {
      AndBitsZero(a / 2, width - 1);
    }
  }

  lemma MulSign(a: int, b: int)
    requires a >= 0
    ensures b >= 0 ==> a * b >= 0
    ensures b <= 0 ==> a * b <= 0
  {
  }

  lemma MulAtLeast(d: int, k: int)
    requires d > 0
    ensures k >= 1 ==> d * k >= d
    ensures k <= -1 ==> d * k <= -d
    ensures k >= 0 ==> d * k >= k
    ensures k < 0 ==> d * k <= k - (d - 1)
  {
    MulSign(d, k - 1);
    assert d * (k - 1) == d * k - d;
    MulSign(d, k + 1);
    assert d * (k + 1) == d * k + d;
    MulSign(d - 1, k);
    assert (d - 1) * k == d * k - k;
    MulSign(d - 1, k + 1);
    assert (d - 1) * (k + 1) == d * k - k + d - 1;
  }

  /** Euclidean division is unique: the quotient and remainder are the only such pair. */
  lemma DivModUnique(a: int, d: int, q: int, s: int)
    requires d > 0 && 0 <= s < d && a == d * q + s
    ensures a / d == q && a % d == s
  {
    MulAtLeast(d, q - a / d);
  }

  lemma DivBounds(x: int, d: int)
    requires d >= 1
    ensures (x / d) * d <= x < (x / d) * d + d
    ensures 0 <= x ==> 0 <= x / d <= x
    ensures x < 0 ==> x <= x / d < 0
  {
    var q, s := x / d, x % d;
    assert x == d * q + s && 0 <= s < d;
    MulAtLeast(d, q);
    assert q * d == d * q;
  }

  /** Floor division by a positive divisor is monotone. */
  lemma DivMonotone(a: int, b: int, d: int)
    requires a <= b && d >= 1
    ensures a / d <= b / d
  {
    DivBounds(a, d);
    DivBounds(b, d);
    MulAtLeast(d, a / d - b / d);
    assert d * (a / d - b / d) == (a / d) * d - (b / d) * d;
  }

  /** Adding a multiple of `p` does not change a residue modulo `p`. */
  lemma ModAddMultiple(x: int, y: int, p: int)
    requires p > 0 && y % p == 0
    ensures (x + y) % p == x % p
  {
    var qx, qy := x / p, y / p;
    assert x == p * qx + x % p;
    assert y == p * qy;
    DivModUnique(x + y, p, qx + qy, x % p);
  }

  /** The residue of a sum is the residue of the sum of the residues. */
  lemma ModAdd(a: int, b: int, p: int)
    requires p > 0
    ensures (a + b) % p == (a % p + b % p) % p
  {
    var qa, qb := a / p, b / p;
    assert a == p * qa + a % p;
    assert b == p * qb + b % p;
    var c := (a % p + b % p) / p;
    assert a % p + b % p == p * c + (a % p + b % p) % p;
    DivModUnique(a + b, p, qa + qb + c, (a % p + b % p) % p);
  }

  lemma Pow2Small(n: nat)
    requires n <= 30
    ensures Pow2(n) <= 0x4000_0000
  {
    Pow2Monotone(n, 30);
    Pow2Word();
    assert Pow2(31) == 2 * Pow2(30);
  }

  lemma ModDouble(a: nat, p: nat)
    requires p >= 1
    ensures a % (2 * p) == 2 * ((a / 2) % p) + a % 2
    ensures a / (2 * p) == (a / 2) / p
  {
    var h, b := a / 2, a % 2;
    var t, s := h / p, h % p;
    assert h == p * t + s;
    assert a == (2 * p) * t + (2 * s + b);
    DivModUnique(a, 2 * p, t, 2 * s + b);
  }

  /** Reducing modulo `p * q` and then modulo `p` is reducing modulo `p`. */
  lemma ModMod(x: int, p: nat, q: nat)
    requires p >= 1 && q >= 1
    ensures (x % (p * q)) % p == x % p
  {
    var t, s := x / (p * q), x % (p * q);
    assert x == (p * q) * t + s;
    var u, v := s / p, s % p;
    assert s == p * u + v;
    assert x == p * (q * t + u) + v;
    DivModUnique(x, p, q * t + u, v);
  }

  /** Two integers that differ by a multiple of 2^32 wrap to the same `i32`. */
  lemma WrapCongruent(x: int, y: int, t: int)
    requires x == y + 0x1_0000_0000 * t
    ensures Wrap(x) == Wrap(y)
  {
    WrapCanonical(x);
    WrapCanonical(y);
    var m := y % 0x1_0000_0000;
    assert y == 0x1_0000_0000 * (y / 0x1_0000_0000) + m;
    DivModUnique(x, 0x1_0000_0000, y / 0x1_0000_0000 + t, m);
  }

  /** Wrapping an intermediate sum does not change the wrapped total. */
  lemma WrapAdd(x: int, y: int)
    ensures Wrap(Wrap(x) + y) == Wrap(x + y)
  {
    var w := Wrap(x);
    WrapSpec(x);
    var t := (x - w) / 0x1_0000_0000;
    assert x - w == 0x1_0000_0000 * t;
    WrapCongruent(w + y, x + y, -t);
  }

  /** Wrapping into `i32` does not change a residue modulo any divisor `p` of 2^32. */
  lemma WrapMod(x: int, p: int)
    requires p > 0 && 0x1_0000_0000 % p == 0
    ensures Wrap(x) % p == x % p
  {
    var r := Wrap(x);
    WrapSpec(x);
    var t := (x - r) / 0x1_0000_0000;
    assert x - r == 0x1_0000_0000 * t;
    var c := 0x1_0000_0000 / p;
    assert 0x1_0000_0000 == p * c;
    assert (p * c) * t == p * (c * t);
    DivModUnique(x - r, p, c * t, 0);
    ModAddMultiple(r, x - r, p);
  }

  /** The low `k` bits of `a`, rebuilt bit by bit. */
  function LowBits(a: nat, k: nat): nat
  {
    if k == 0 then 0 else 2 * LowBits(a / 2, k - 1) + a % 2
  }

  lemma {:induction false} AndBitsLowMask(a: nat, k: nat, width: nat)
    requires k <= width
    ensures AndBits(a, Pow2(k) - 1, width) == LowBits(a, k)
  {
    if k == 0 {
      AndBitsZero(a, width);
    } else {
      var p := Pow2(k - 1);
      var m := 2 * p - 1;
      DivModUnique(m, 2, p - 1, 1);
      AndBitsLowMask(a / 2, k - 1, width - 1);
      assert AndBits(a, m, width) == 2 * AndBits(a / 2, p - 1, width - 1) + a % 2;
    }
  }

  lemma {:induction false} LowBitsMod(a: nat, k: nat)
    ensures LowBits(a, k) == a % Pow2(k)
  {
    if k == 0 {
      DivModUnique(a, 1, a, 0);
    } else {
      LowBitsMod(a / 2, k - 1);
      ModDouble(a, Pow2(k - 1));
    }
  }

  lemma {:induction false} AndBitsSingle(a: nat, k: nat, width: nat)
    requires k < width
    ensures AndBits(a, Pow2(k), width) == if (a / Pow2(k)) % 2 == 1 then Pow2(k) else 0
  {
    if k == 0 {
      AndBitsZero(a / 2, width - 1);
    } else {
      var p := Pow2(k - 1);
      DivModUnique(2 * p, 2, p, 0);
      AndBitsSingle(a / 2, k - 1, width - 1);
      assert AndBits(a, 2 * p, width) == 2 * AndBits(a / 2, p, width - 1);
      ModDouble(a, p);
    }
  }

  lemma Pow2Word()
    ensures Pow2(32) == 0x1_0000_0000 && Pow2(31) == 0x8000_0000
  {
    assert Pow2(4) == 16;
    Pow2Add(4, 4);
    Pow2Add(8, 8);
    Pow2Add(16, 15);
    Pow2Add(16, 16);
  }

  /** `And` on a non-negative mask is the AND of the low 32 bits of `x`'s pattern with the mask. */
  lemma AndNonNegative(x: i32, m: i32)
    requires 0 <= m
    ensures And(x, m) == AndBits(x % 0x1_0000_0000, m, 32)
  {
    DivModUnique(m, 0x1_0000_0000, 0, m);
    AndBitsBelow(x % 0x1_0000_0000, m, 32);
  }

  /** Masking with `2^k - 1` keeps the low `k` bits: `x & (2^k - 1) == x mod 2^k`, also for negative `x`. */
  lemma AndLowMask(x: i32, m: i32, k: nat)
    requires k <= 31 && m == Pow2(k) - 1
    ensures And(x, m) == x % Pow2(k)
  {
    var p, q := Pow2(k), Pow2(32 - k);
    Pow2Add(k, 32 - k);
    Pow2Word();
    assert p * q == 0x1_0000_0000;
    var a := x % 0x1_0000_0000;
    AndNonNegative(x, m);
    AndBitsLowMask(a, k, 32);
    LowBitsMod(a, k);
    ModMod(x, p, q);
  }

  /** Masking a non-negative `x` with the single bit `2^k` tests bit `k`. */
  lemma AndSingleBit(x: i32, m: i32, k: nat)
    requires 0 <= x && k <= 30 && m == Pow2(k)
    ensures And(x, m) == if (x / m) % 2 == 1 then m else 0
  {
    AndBothNonNegative(x, m);
    AndBitsSingle(x, k, 32);
  }

  lemma AndBothNonNegative(x: i32, m: i32)
    requires 0 <= x && 0 <= m
    ensures And(x, m) == AndBits(x, m, 32)
  {
    DivModUnique(x, 0x1_0000_0000, 0, x);
    AndNonNegative(x, m);
  }

  // ------------------------------------------------------------ 16-bit phase fields

  /** Adding half of a 16-bit period to `x` toggles bit 15 of its low 16 bits. */
  lemma HalfShiftResidue(x: int)
    ensures var m := x % 0x1_0000;
      (x + 0x8000) % 0x1_0000 == if m < 0x8000 then m + 0x8000 else m - 0x8000
  {
    var k, m := x / 0x1_0000, x % 0x1_0000;
    assert x == 0x1_0000 * k + m;
    if m < 0x8000 {
      DivModUnique(x + 0x8000, 0x1_0000, k, m + 0x8000);
    } else {
      DivModUnique(x + 0x8000, 0x1_0000, k + 1, m - 0x8000);
    }
  }

  /** Toggling bit 15 moves the 2-bit field at bits 14-15 on by two and keeps bits 0-13. */
  lemma HalfShiftFields(m: int)
    requires 0 <= m < 0x1_0000
    ensures var m2 := if m < 0x8000 then m + 0x8000 else m - 0x8000;
      m2 / 0x4000 == (m / 0x4000 + 2) % 4 && m2 % 0x4000 == m % 0x4000
  {
    var q, w := m / 0x4000, m % 0x4000;
    assert m == 0x4000 * q + w;
    if m < 0x8000 {
      DivModUnique(m + 0x8000, 0x4000, q + 2, w);
    } else {
      DivModUnique(m - 0x8000, 0x4000, q - 2, w);
    }
  }
}
