/**
 * The Q16.16 fixed-point number `FP`: a raw `i32` whose low 16 bits are the fraction.
 * Addition, subtraction, negation and multiplication by an integer work on the raw value and
 * wrap around like release-build Rust; the FP x FP product is formed exactly (it fits in 64
 * bits), shifted right by 16 with rounding toward negative infinity, and truncated to 32 bits.
 */
module FixedPoint {
  import opened Int32

  datatype FP = FP(repr: i32)

  const FP_ZERO: FP := FP(0)
  const FP_ONE: FP := FP(0x1_0000)



  function Raw(item: i32): FP {
    FP(item)
  }

  /** The fractional part: the low 16 bits of the raw value (`FracIsMask`), its residue modulo 2^16. */
  function Frac(x: FP): (r: FP)
    ensures 0 <= r.repr <= 0xFFFF
  {
    FP(x.repr % 0x1_0000)
  }

  /** The fraction as a `u16`. */
  function Fraq(x: FP): (r: u16)
    ensures r == Frac(x).repr
  {
    x.repr % 0x1_0000
  }

  /** The integer part: the raw value shifted right by 16, so the largest integer not above `x`. */
  function Int(x: FP): (r: i32)
    ensures r * 0x1_0000 <= x.repr < r * 0x1_0000 + 0x1_0000
    ensures r == x.repr / 0x1_0000
  {
    Pow2Values();
    ShiftRight(x.repr, 16)
  }

  /** `From<u8>`: an integer part of `item` and no fraction. */
  function FromU8(item: u8): (r: FP)
    ensures Int(r) == item && Frac(r) == FP_ZERO
  {
    DivModUnique(item * 0x1_0000, 0x1_0000, item, 0);
    FP(item * 0x1_0000)
  }

  /** `From<u16>`: the product `item * 65536` wraps for `item >= 0x8000`. */
  function FromU16(item: u16): (r: FP)
    ensures item < 0x8000 ==> Int(r) == item
    ensures Frac(r) == FP_ZERO
  {
    DivModUnique(item * 0x1_0000, 0x1_0000, item, 0);
    WrapMod(item * 0x1_0000, 0x1_0000);
    FP(Wrap(item * 0x1_0000))
  }

  /** `From<i32>`: exact for integers that fit in 16 bits, wraps otherwise. */
  function FromI32(item: i32): (r: FP)
    ensures -0x8000 <= item < 0x8000 ==> Int(r) == item
    ensures Frac(r) == FP_ZERO
  {
    DivModUnique(item * 0x1_0000, 0x1_0000, item, 0);
    WrapMod(item * 0x1_0000, 0x1_0000);
    FP(Wrap(item * 0x1_0000))
  }

  /** Negation: the additive inverse under wrap-around; only `i32::MIN` is its own negation. */
  function Neg(x: FP): (r: FP)
    ensures Add(x, r) == FP_ZERO
    ensures x.repr != -0x8000_0000 ==> r.repr + x.repr == 0
  {
    FP(Wrap(-(x.repr as int)))
  }

  function Add(a: FP, b: FP): (r: FP)
    ensures InRange(a.repr + b.repr) ==> r.repr == a.repr + b.repr
  {
    FP(Wrap(a.repr + b.repr))
  }

  /** Subtraction undoes addition, also when the raw values wrap. */
  function Sub(a: FP, b: FP): (r: FP)
    ensures Add(r, b) == a
    ensures InRange(a.repr - b.repr) ==> r.repr == a.repr - b.repr
  {
    var r := FP(Wrap(a.repr - b.repr));
    WrapAdd(a.repr - b.repr, b.repr);
    r
  }

  /** `Mul<i32>`: the raw value times an integer, wrapping. */
  function MulInt(x: FP, k: i32): (r: FP)
    ensures InRange(x.repr * k) ==> r.repr == x.repr * k
  {
    FP(Wrap(x.repr * k))
  }

  /** `Mul<FP>`: the exact product shifted right by 16 (rounding down), then truncated to 32 bits. */
  function Mul(a: FP, b: FP): (r: FP)
    ensures InRange(a.repr * b.repr / 0x1_0000) ==>
      r.repr * 0x1_0000 <= a.repr * b.repr < r.repr * 0x1_0000 + 0x1_0000
  {
    var q := a.repr * b.repr / 0x1_0000;
    DivBounds(a.repr * b.repr, 0x1_0000);
    FP(Wrap(q))
  }

  /** `Shl<usize>`: a multiplication of the raw value by 2^n that loses the bits shifted out. */
  function Shl(x: FP, n: nat): FP
  {
    FP(ShiftLeft(x.repr, n))
  }

  /** `Shr<usize>`: an arithmetic shift, the raw value divided by 2^n rounding down. */
  function Shr(x: FP, n: nat): FP
  {
    FP(ShiftRight(x.repr, n))
  }

  /** `BitAnd<i32>`: masking with a non-negative mask keeps a value between 0 and the mask. */
  function BitAnd(x: FP, m: i32): (r: FP)
    ensures 0 <= m ==> 0 <= r.repr <= m
  {
    FP(And(x.repr, m))
  }

  // The derived `PartialOrd`/`Ord` of a one-field struct compare that field.

  predicate Lt(a: FP, b: FP) { a.repr < b.repr }
  predicate Le(a: FP, b: FP) { a.repr <= b.repr }
  predicate Gt(a: FP, b: FP) { a.repr > b.repr }
  predicate Ge(a: FP, b: FP) { a.repr >= b.repr }

  // ------------------------------------------------------------ compound assignments

  /** `+=`: the updated value of `self` is `self + rhs`. */
  method AddAssign(self: FP, rhs: FP) returns (updated: FP)
    ensures updated == Add(self, rhs)
  {
    var repr: int := self.repr;
    repr := repr + rhs.repr;
    updated := FP(Wrap(repr));
  }

  /** `-=`: the updated value of `self` is `self - rhs`. */
  method SubAssign(self: FP, rhs: FP) returns (updated: FP)
    ensures updated == Sub(self, rhs)
  {
    var repr: int := self.repr;
    repr := repr - rhs.repr;
    updated := FP(Wrap(repr));
  }

  /** `*=`: the updated value of `self` is `self * rhs`. */
  method MulAssign(self: FP, rhs: FP) returns (updated: FP)
    ensures updated == Mul(self, rhs)
  {
    var result64: int := self.repr * rhs.repr;
    var shifted := result64 / 0x1_0000;
    updated := FP(Wrap(shifted));
  }

  // ------------------------------------------------------------ properties

  /** `from(n).repr == n * 65536` for the integers a 16.16 value can hold; 1 and 2 as in the unit test. */
  lemma FromIntegers(n: i32)
    requires -0x8000 <= n < 0x8000
    ensures FromI32(n).repr == n * 0x1_0000
    ensures FromI32(1).repr == 0x1_0000 && FromI32(2).repr == 0x2_0000
  {
    assert -0x8000 * 0x1_0000 <= n * 0x1_0000 < 0x8000 * 0x1_0000;
  }

  /** `frac` masks with 0xFFFF, which on two's-complement values is the residue modulo 2^16. */
  lemma FracIsMask(x: FP)
    ensures Frac(x).repr == And(x.repr, 0xFFFF)
    ensures Fraq(x) == And(x.repr, 0xFFFF)
  {
    Pow2Values();
    AndLowMask(x.repr, 0xFFFF, 16);
  }

  /** The raw value splits into the integer part times 2^16 plus the fractional part. */
  lemma Decomposition(x: FP)
    ensures x.repr == Int(x) * 0x1_0000 + Frac(x).repr
    ensures Frac(x).repr == x.repr - Int(x) * 0x1_0000
  {
    var i := Int(x);
    DivModUnique(x.repr, 0x1_0000, i, x.repr - i * 0x1_0000);
  }

  lemma FracIdempotent(x: FP)
    ensures Frac(Frac(x)) == Frac(x)
  {
    var f := Frac(x).repr;
    DivModUnique(f, 0x1_0000, 0, f);
  }

  /** The fraction of a sum depends only on the fractions of the summands, through wrap-around. */
  lemma FracAdd(a: FP, b: FP)
    ensures Frac(Add(a, b)).repr == (a.repr + b.repr) % 0x1_0000
    ensures Frac(Add(a, b)) == Frac(Add(Frac(a), Frac(b)))
  {
    FracOfSum(a, b);
    FracOfSum(Frac(a), Frac(b));
    ModAdd(a.repr, b.repr, 0x1_0000);
  }

  lemma FracOfSum(a: FP, b: FP)
    ensures Frac(Add(a, b)).repr == (a.repr + b.repr) % 0x1_0000
  {
    WrapMod(a.repr + b.repr, 0x1_0000);
  }

  /** Adding a whole number leaves the fraction unchanged. */
  lemma FracPeriodic(x: FP, k: i32)
    ensures Frac(Add(x, FromI32(k))) == Frac(x)
  {
    var y := FromI32(k);
    FracOfSum(x, y);
    ModAddMultiple(x.repr, y.repr, 0x1_0000);
  }

  lemma MulOneIdentity(x: FP)
    ensures Mul(x, FP_ONE) == x && Mul(FP_ONE, x) == x
  {
    DivModUnique(x.repr * 0x1_0000, 0x1_0000, x.repr, 0);
  }

  /** The example products of the unit test, and rounding toward negative infinity. */
  lemma MulExamples()
    ensures Mul(FromI32(1), FromI32(2)) == FromI32(2)
    ensures Mul(Raw(-1), Raw(1)) == Raw(-1)
    ensures Mul(Raw(1), Raw(1)) == FP_ZERO
  {
    FromIntegers(2);
    MulOneIdentity(FromI32(2));
    DivModUnique(-1, 0x1_0000, -1, 0x1_0000 - 1);
    DivModUnique(1, 0x1_0000, 0, 1);
  }

  lemma MulCommutative(a: FP, b: FP)
    ensures Mul(a, b) == Mul(b, a)
  {
    assert a.repr * b.repr == b.repr * a.repr;
  }

  /** `x >> n` is floor division of the raw value by 2^n (Euclidean division, as the divisor is positive). */
  lemma ShrIsFloorDivision(x: FP, n: nat)
    requires n < 32
    ensures Shr(x, n).repr == x.repr / Pow2(n)
    ensures Shr(x, n).repr * Pow2(n) <= x.repr < Shr(x, n).repr * Pow2(n) + Pow2(n)
  {
    ShiftRightFloor(x.repr, n);
  }

  /** `x << n` multiplies the raw value by 2^n, and agrees with `Mul<i32>` where 2^n is an `i32`. */
  lemma ShlIsMultiplication(x: FP, n: nat)
    requires n <= 30
    ensures Pow2(n) <= 0x4000_0000 && Shl(x, n) == MulInt(x, Pow2(n))
  {
    Pow2Small(n);
    assert n % 32 == n;
  }

  /** Negating twice gives the value back, `i32::MIN` included (it wraps to itself). */
  lemma NegInvolutive(x: FP)
    ensures Neg(Neg(x)) == x
  {
    var y := Wrap(-(x.repr as int));
    WrapSpec(-(x.repr as int));
    var t := (-(x.repr as int) - y) / 0x1_0000_0000;
    assert -(x.repr as int) - y == 0x1_0000_0000 * t;
    WrapCongruent(-(y as int), x.repr, t);
  }

  lemma AddCommutative(a: FP, b: FP)
    ensures Add(a, b) == Add(b, a)
  {
  }

  lemma AddThree(a: FP, b: FP, c: FP)
    ensures Add(Add(a, b), c).repr == Wrap(a.repr + b.repr + c.repr)
  {
    WrapAdd(a.repr + b.repr, c.repr);
  }

  /** Wrapping addition is associative, so multi-term sums need no bracketing. */
  lemma AddAssociative(a: FP, b: FP, c: FP)
    ensures Add(Add(a, b), c) == Add(a, Add(b, c))
  {
    AddThree(a, b, c);
    AddThree(b, c, a);
    AddCommutative(a, Add(b, c));
    assert b.repr + c.repr + a.repr == a.repr + b.repr + c.repr;
  }

  /** Without wrap-around the order agrees with the sign of the difference; once `b - a` wraps
      it does not (`OrderWrapExample`). */
  lemma OrderBySubtraction(a: FP, b: FP)
    requires InRange(b.repr - a.repr)
    ensures Lt(a, b) <==> Gt(Sub(b, a), FP_ZERO)
    ensures a == b <==> Sub(b, a) == FP_ZERO
  {
  }

  /** The difference of the extreme values wraps: `i32::MIN < 1` although `1 - i32::MIN` is negative. */
  lemma OrderWrapExample()
    ensures Lt(Raw(-0x8000_0000), Raw(1)) && Lt(Sub(Raw(1), Raw(-0x8000_0000)), FP_ZERO)
  {
    assert Sub(Raw(1), Raw(-0x8000_0000)).repr == Wrap(1 + 0x8000_0000);
  }
}
