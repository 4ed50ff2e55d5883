/**
  The binary32 rounding of the numeric contracts (examples/reduction_fp32_contract.py, round_f32):
  exact fractions, ties to even, on zero and the magnitudes from 2^-100 to 2^100.
 */
module Rounding {
  import opened Wrappers

  /** An exact rational, not necessarily in lowest terms. */
  datatype Ratio = Ratio(num: int, den: int)
  type Fraction = f: Ratio | f.den > 0 witness Ratio(0, 1)

  const ZERO := Ratio(0, 1)

  function Value(f: Fraction): real {
    f.num as real / f.den as real
  }

  function Abs(x: real): real {
    if x < 0.0 then -x else x
  }

  // ----- Powers of two -----

  function Pow2(e: int): (r: real)
    ensures r > 0.0
    decreases if e < 0 then -e else e
  {
    if e == 0 then 1.0 else if e > 0 then 2.0 * Pow2(e - 1) else Pow2(e + 1) / 2.0
  }

  function IntPow2(n: nat): (r: int)
    ensures r > 0
  {
    if n == 0 then 1 else 2 * IntPow2(n - 1)
  }

  lemma Pow2Step(e: int)
    ensures Pow2(e + 1) == 2.0 * Pow2(e)
  {
  }

  lemma {:induction false} Pow2Monotone(e: int, f: int)
    requires e <= f
    ensures Pow2(e) <= Pow2(f)
    ensures e < f ==> 2.0 * Pow2(e) <= Pow2(f)
    decreases f - e
  {
    if e < f {
      Pow2Monotone(e, f - 1);
      Pow2Step(f - 1);
    }
  }

  lemma {:induction false} IntPow2Value(n: nat)
    ensures IntPow2(n) as real == Pow2(n)
  {
    if n > 0 {
      IntPow2Value(n - 1);
    }
  }

  lemma {:induction false} RealProduct(a: int, b: nat)
    ensures (a * b) as real == a as real * b as real
  {
    if b > 0 {
      RealProduct(a, b - 1);
      assert a * b == a * (b - 1) + a;
      assert a as real * b as real == a as real * (b - 1) as real + a as real;
    }
  }

  // ----- Whole numbers of quanta -----

  /** k quanta of size q, by repeated addition. */
  function Quanta(k: int, q: real): real
    decreases if k < 0 then -k else k
  {
    if k == 0 then 0.0 else if k > 0 then Quanta(k - 1, q) + q else Quanta(k + 1, q) - q
  }

  lemma {:induction false} QuantaProduct(k: int, q: real)
    ensures Quanta(k, q) == k as real * q
    decreases if k < 0 then -k else k
  {
    if k > 0 {
      QuantaProduct(k - 1, q);
      NextProduct((k - 1) as real, q);
    } else if k < 0 {
      QuantaProduct(k + 1, q);
      NextProduct(k as real, q);
    }
  }

  lemma NextProduct(a: real, q: real)
    ensures (a + 1.0) * q == a * q + q
  {
  }

  lemma {:induction false} QuantaAdd(k: int, n: int, q: real)
    ensures Quanta(k + n, q) == Quanta(k, q) + Quanta(n, q)
    decreases if n < 0 then -n else n
  {
    if n > 0 {
      QuantaAdd(k, n - 1, q);
      QuantaStep(k + n - 1, q);
    } else if n < 0 {
      QuantaAdd(k, n + 1, q);
      QuantaStep(k + n, q);
    }
  }

  lemma {:induction false} QuantaNegated(m: int, q: real)
    ensures Quanta(-m, q) == -Quanta(m, q)
  {
    QuantaAdd(m, -m, q);
  }

  lemma QuantaStep(k: int, q: real)
    ensures Quanta(k + 1, q) == Quanta(k, q) + q
  {
  }

  lemma {:induction false} QuantaHalved(k: int, p: real, q: real)
    requires p == 2.0 * q
    ensures Quanta(k, p) == Quanta(2 * k, q)
    decreases if k < 0 then -k else k
  {
    if k > 0 {
      QuantaHalved(k - 1, p, q);
      QuantaStep(2 * k - 2, q);
      QuantaStep(2 * k - 1, q);
    } else if k < 0 {
      QuantaHalved(k + 1, p, q);
      QuantaStep(2 * k, q);
      QuantaStep(2 * k + 1, q);
    }
  }

  /** A whole number of large quanta is a whole number of small ones. */
  lemma {:induction false} Rebased(m: int, i: int, j: int) returns (n: int)
    requires j <= i
    ensures Quanta(m, Pow2(i)) == Quanta(n, Pow2(j))
    decreases i - j
  {
    if i == j {
      n := m;
    } else {
      Pow2Step(i - 1);
      QuantaHalved(m, Pow2(i), Pow2(i - 1));
      n := Rebased(2 * m, i - 1, j);
    }
  }

  /** 2^(e + n) is 2^n quanta of size 2^e. */
  lemma {:induction false} Pow2Quanta(e: int, n: nat)
    ensures Pow2(e + n) == Quanta(IntPow2(n), Pow2(e))
    decreases n
  {
    if n == 0 {
      assert Quanta(1, Pow2(e)) == Quanta(0, Pow2(e)) + Pow2(e);
    } else {
      Pow2Quanta(e + 1, n - 1);
      Pow2Step(e);
      QuantaHalved(IntPow2(n - 1), Pow2(e + 1), Pow2(e));
    }
  }

  lemma Pow2Add(e: int, n: nat)
    ensures Pow2(e + n) == Pow2(e) * Pow2(n)
  {
    Pow2Quanta(e, n);
    QuantaProduct(IntPow2(n), Pow2(e));
    IntPow2Value(n);
  }

  // ----- Fractions -----

  function Plus(a: Fraction, b: Fraction): Fraction {
    Ratio(a.num * b.den + b.num * a.den, a.den * b.den)
  }

  function Times(a: Fraction, b: Fraction): Fraction {
    Ratio(a.num * b.num, a.den * b.den)
  }

  function Positive(a: Fraction): Fraction {
    if a.num < 0 then ZERO else a
  }

  function Clamp(x: real): real {
    if x < 0.0 then 0.0 else x
  }

  lemma PlusValue(a: Fraction, b: Fraction)
    ensures Value(Plus(a, b)) == Value(a) + Value(b)
  {
    RealProduct(a.num, b.den);
    RealProduct(b.num, a.den);
    RealProduct(a.den, b.den);
    SumOfQuotients(a.num as real, a.den as real, b.num as real, b.den as real);
  }

  lemma SumOfQuotients(an: real, ad: real, bn: real, bd: real)
    requires ad > 0.0 && bd > 0.0
    ensures ad * bd > 0.0 && (an * bd + bn * ad) / (ad * bd) == an / ad + bn / bd
  {
    var x, y := an / ad, bn / bd;
    SameQuotient(an * bd + bn * ad, ad * bd, x + y, an, ad, x, bn, bd, y);
  }

  lemma SameQuotient(n: real, d: real, z: real, an: real, ad: real, x: real, bn: real, bd: real, y: real)
    requires ad > 0.0 && bd > 0.0 && an == x * ad && bn == y * bd
    requires n == an * bd + bn * ad && d == ad * bd && z == x + y
    ensures d > 0.0 && n == z * d
  {
    assert an * bd == x * (ad * bd);
    assert bn * ad == y * (ad * bd);
  }

  lemma TimesValue(a: Fraction, b: Fraction)
    ensures Value(Times(a, b)) == Value(a) * Value(b)
  {
    if b.num >= 0 {
      RealProduct(a.num, b.num);
    } else {
      RealProduct(a.num, -b.num);
      assert a.num * b.num == -(a.num * -b.num);
    }
    RealProduct(a.den, b.den);
    var an, ad, bn, bd := a.num as real, a.den as real, b.num as real, b.den as real;
    assert (an * bn) / (ad * bd) == (an / ad) * (bn / bd);
  }

  lemma PositiveValue(a: Fraction)
    ensures Value(Positive(a)) == Clamp(Value(a))
  {
  }

  /** k times 2^j as a fraction. */
  function Dyadic(k: int, j: int): Fraction {
    if j >= 0 then Ratio(k * IntPow2(j), 1) else Ratio(k, IntPow2(-j))
  }

  lemma Pow2Negate(n: nat)
    ensures Pow2(0 - n) * Pow2(n) == 1.0
  {
    Pow2Add(0 - n, n);
  }

  lemma DyadicValue(k: int, j: int)
    ensures Value(Dyadic(k, j)) == Quanta(k, Pow2(j))
  {
    QuantaProduct(k, Pow2(j));
    if j >= 0 {
      IntPow2Value(j);
      RealProduct(k, IntPow2(j));
    } else {
      IntPow2Value(-j);
      Pow2Negate(-j);
      var p := Pow2(-j);
      assert Pow2(j) * p == 1.0;
      assert k as real / p == k as real * Pow2(j);
    }
  }

  // ----- The exponent -----

  function BitLength(n: nat): nat {
    if n == 0 then 0 else 1 + BitLength(n / 2)
  }

  lemma {:induction false} BitLengthBounds(n: nat)
    requires n > 0
    ensures Pow2(BitLength(n) - 1) <= n as real < Pow2(BitLength(n))
  {
    if n > 1 {
      BitLengthBounds(n / 2);
      var b := BitLength(n / 2);
      Pow2Step(b - 1);
      Pow2Step(b);
      IntPow2Value(b);
      assert n / 2 + 1 <= IntPow2(b);
    } else {
      assert BitLength(0) == 0;
    }
  }

  /** The code's estimate from bit lengths, lowered when it is one too high. */
  function Exponent(f: Fraction): int
    requires f.num > 0
  {
    Corrected(Value(f), BitLength(f.num) - BitLength(f.den))
  }

  function Corrected(x: real, estimate: int): int {
    if x < Pow2(estimate) then estimate - 1 else estimate
  }

  lemma {:induction false} QuantaMonotone(k: int, n: int, q: real)
    requires q > 0.0 && k <= n
    ensures Quanta(k, q) <= Quanta(n, q) && (k < n ==> Quanta(k, q) < Quanta(n, q))
    decreases n - k
  {
    if k < n {
      QuantaMonotone(k, n - 1, q);
      QuantaStep(n - 1, q);
    }
  }

  lemma QuotientBelow(n: real, d: real, p: real)
    requires d > 0.0
    ensures n / d < p <==> n < d * p
  {
    var v := n / d;
    assert n == v * d;
    if v < p {
      assert v * d < p * d;
    } else {
      assert v * d >= p * d;
    }
  }

  /** Comparing a fraction with a power of two needs no division. */
  lemma ValueBelow(f: Fraction, p: real)
    ensures Value(f) < p <==> f.num as real < Quanta(f.den, p)
  {
    QuantaProduct(f.den, p);
    QuotientBelow(f.num as real, f.den as real, p);
  }

  lemma FewerQuanta(n: real, den: int, e: int, bits: nat)
    requires den as real <= Pow2(bits) && Pow2(e + bits) <= n
    ensures Quanta(den, Pow2(e)) <= n
  {
    IntPow2Value(bits);
    Pow2Quanta(e, bits);
    QuantaMonotone(den, IntPow2(bits), Pow2(e));
  }

  lemma MoreQuanta(n: real, den: int, e: int, bits: nat)
    requires Pow2(bits) <= den as real && n < Pow2(e + bits)
    ensures n < Quanta(den, Pow2(e))
  {
    IntPow2Value(bits);
    Pow2Quanta(e, bits);
    QuantaMonotone(IntPow2(bits), den, Pow2(e));
  }

  /** Bit lengths put a quotient within a factor of two of the estimate. */
  lemma EstimateBounds(num: int, den: int, bn: int, bd: nat)
    requires num > 0 && den > 0 && bd > 0
    requires Pow2(bn - 1) <= num as real < Pow2(bn) && Pow2(bd - 1) <= den as real < Pow2(bd)
    ensures Quanta(den, Pow2(bn - bd - 1)) <= num as real < Quanta(den, Pow2(bn - bd + 1))
  {
    assert bn - bd - 1 + bd == bn - 1 && bn - bd + 1 + (bd - 1) == bn;
    FewerQuanta(num as real, den, bn - bd - 1, bd);
    MoreQuanta(num as real, den, bn - bd + 1, bd - 1);
  }

  lemma Bits(n: nat) returns (b: nat, low: real, high: real)
    requires n > 0
    ensures b == BitLength(n) && b > 0 && low == Pow2(b - 1) && high == Pow2(b) && low <= n as real < high
  {
    BitLengthBounds(n);
    b, low, high := BitLength(n), Pow2(BitLength(n) - 1), Pow2(BitLength(n));
  }

  lemma EstimateFromBits(num: int, den: int, estimate: int)
    requires num > 0 && den > 0 && estimate == BitLength(num) - BitLength(den)
    ensures Quanta(den, Pow2(estimate - 1)) <= num as real < Quanta(den, Pow2(estimate + 1))
  {
    var bn, ln, hn := Bits(num);
    var bd, ld, hd := Bits(den);
    EstimateBounds(num, den, bn, bd);
  }

  lemma ExponentBounds(f: Fraction)
    requires f.num > 0
    ensures Pow2(Exponent(f)) <= Value(f) < Pow2(Exponent(f) + 1)
  {
    var estimate := BitLength(f.num) - BitLength(f.den);
    EstimateFromBits(f.num, f.den, estimate);
    ValueBelow(f, Pow2(estimate - 1));
    ValueBelow(f, Pow2(estimate + 1));
    EstimateCorrected(Value(f), estimate);
  }

  lemma EstimateCorrected(x: real, estimate: int)
    requires Pow2(estimate - 1) <= x < Pow2(estimate + 1)
    ensures Pow2(Corrected(x, estimate)) <= x < Pow2(Corrected(x, estimate) + 1)
  {
  }

  // ----- Rounding -----

  /** Python's round on an exact value: nearest, ties to even. */
  function RoundHalfEven(x: real): int {
    var f := x.Floor;
    var rest := x - f as real;
    if rest < 0.5 then f else if rest > 0.5 then f + 1 else if f % 2 == 0 then f else f + 1
  }

  lemma RoundHalfEvenClose(x: real)
    ensures Abs(RoundHalfEven(x) as real - x) <= 0.5
    ensures Abs(RoundHalfEven(x) as real - x) == 0.5 ==> RoundHalfEven(x) % 2 == 0
  {
  }

  lemma IntegersApart(k: int, m: int)
    requires k != m
    ensures Abs(k as real - m as real) >= 1.0
  {
  }

  lemma RoundHalfEvenNearest(x: real, m: int)
    ensures
      var k := RoundHalfEven(x);
      && Abs(k as real - x) <= Abs(m as real - x)
      && (m != k && Abs(k as real - x) == Abs(m as real - x) ==> k % 2 == 0)
  {
    RoundHalfEvenClose(x);
    if m != RoundHalfEven(x) {
      IntegersApart(RoundHalfEven(x), m);
    }
  }

  const TWO_23 := 8388608
  const TWO_24 := 16777216
  const UNIT_ROUNDOFF := 1.0 / 16777216.0
  const PRECISION := 24
  const DOMAIN_EXPONENT := 100

  predicate InDomain(x: real) {
    Pow2(-DOMAIN_EXPONENT) <= Abs(x) <= Pow2(DOMAIN_EXPONENT)
  }

  function Magnitude(f: Fraction): (r: Fraction)
    ensures Value(r) == Abs(Value(f))
  {
    if f.num < 0 then Ratio(-f.num, f.den) else f
  }

  function RoundF32(f: Fraction): Result<Fraction> {
    if f.num == 0 then Ok(ZERO)
    else if !InDomain(Value(f)) then Err("FP32 arithmetic domain rejected")
    else
      var j := Exponent(Magnitude(f)) - (PRECISION - 1);
      Ok(Dyadic(RoundHalfEven(Value(f) / Pow2(j)), j))
  }

  /** Where rounding is defined: at zero, and from 2^-100 to 2^100 in magnitude. */
  lemma RoundingDomain(f: Fraction)
    ensures RoundF32(f).Ok?
       <==> Value(f) == 0.0 || Pow2(-100) <= Value(f) <= Pow2(100) || -Pow2(100) <= Value(f) <= -Pow2(-100)
  {
    ValueZero(f);
  }

  /** What rounding computes, without fractions: x becomes k quanta of size q. */
  ghost predicate Rounds(x: real, r: real, k: int, q: real) {
    && q > 0.0
    && 8388608.0 * q <= Abs(x) < 16777216.0 * q
    && k == RoundHalfEven(x / q)
    && r == Quanta(k, q)
  }

  lemma ValueZero(f: Fraction)
    ensures Value(f) == 0.0 <==> f.num == 0
  {
  }

  lemma Pow2Eight(j: int)
    ensures Pow2(j + 8) == 256.0 * Pow2(j)
  {
    Pow2Step(j);
    Pow2Step(j + 1);
    Pow2Step(j + 2);
    Pow2Step(j + 3);
    Pow2Step(j + 4);
    Pow2Step(j + 5);
    Pow2Step(j + 6);
    Pow2Step(j + 7);
  }

  lemma BinadeScale(j: int)
    ensures Pow2(j + 23) == 8388608.0 * Pow2(j) && Pow2(j + 24) == 16777216.0 * Pow2(j)
  {
    Pow2Eight(j);
    Pow2Eight(j + 8);
    Pow2Eight(j + 16);
    Pow2Step(j + 23);
  }

  lemma RoundF32Rounds(f: Fraction) returns (k: int, j: int)
    requires f.num != 0 && RoundF32(f).Ok?
    ensures Rounds(Value(f), Value(RoundF32(f).value), k, Pow2(j))
    ensures j == Exponent(Magnitude(f)) - (PRECISION - 1)
  {
    ValueZero(f);
    j := Exponent(Magnitude(f)) - (PRECISION - 1);
    k := RoundHalfEven(Value(f) / Pow2(j));
    ExponentBounds(Magnitude(f));
    BinadeScale(j);
    DyadicValue(k, j);
  }

  lemma Rescaled(x: real, q: real)
    requires q > 0.0
    ensures x / q * q == x
  {
  }

  lemma Scaled(x: real, y: real, q: real)
    requires q > 0.0 && x <= y
    ensures x * q <= y * q
  {
  }

  lemma ScaledDistance(k: real, t: real, bound: real, q: real, r: real, x: real)
    requires q > 0.0 && Abs(k - t) <= bound && r == k * q && x == t * q
    ensures Abs(r - x) <= bound * q
  {
    Scaled(k, t + bound, q);
    Scaled(t, k + bound, q);
    assert (t + bound) * q == t * q + bound * q;
    assert (k + bound) * q == k * q + bound * q;
  }

  lemma RoundsClose(x: real, r: real, k: int, q: real)
    requires Rounds(x, r, k, q)
    ensures Abs(r - x) <= 0.5 * q
  {
    var t := x / q;
    RoundHalfEvenClose(t);
    Rescaled(x, q);
    QuantaProduct(k, q);
    ScaledDistance(k as real, t, 0.5, q, r, x);
  }

  /** The rounding error of one operation is at most the unit roundoff, relatively. */
  lemma RoundingError(f: Fraction)
    requires RoundF32(f).Ok?
    ensures Abs(Value(RoundF32(f).value) - Value(f)) <= UNIT_ROUNDOFF * Abs(Value(f))
  {
    if f.num != 0 {
      var k, j := RoundF32Rounds(f);
      RoundsClose(Value(f), Value(RoundF32(f).value), k, Pow2(j));
    }
  }

  // ----- Nearest, ties to even -----

  /** y is m times 2^i with at most 24 significant bits: a binary32 value of unbounded exponent. */
  ghost predicate Representable(y: real, m: int, i: int) {
    -TWO_24 <= m <= TWO_24 && y == Quanta(m, Pow2(i))
  }

  lemma StrictlyScaled(x: real, y: real, q: real)
    requires q > 0.0 && x < y
    ensures x * q < y * q
  {
  }

  lemma AbsScaled(k: real, t: real, q: real, r: real, x: real) returns (a: real, d: real)
    requires q > 0.0 && r == k * q && x == t * q
    ensures a == Abs(k - t) && d == Abs(r - x) && d == a * q
  {
    a, d := Abs(k - t), Abs(r - x);
    assert r - x == (k - t) * q;
  }

  lemma NearestScaled(t: real, k: int, m: int, q: real, x: real, r: real, y: real)
    requires q > 0.0 && k == RoundHalfEven(t)
    requires x == t * q && r == k as real * q && y == m as real * q
    ensures Abs(r - x) <= Abs(y - x)
    ensures m != k && Abs(r - x) == Abs(y - x) ==> k % 2 == 0
  {
    RoundHalfEvenNearest(t, m);
    var a, dr := AbsScaled(k as real, t, q, r, x);
    var b, dy := AbsScaled(m as real, t, q, y, x);
    CompareScaled(a, b, q, dr, dy);
  }

  lemma Quotient(x: real, q: real) returns (t: real)
    requires q > 0.0
    ensures t == x / q && x == t * q
  {
    t := x / q;
  }

  lemma NearestMultiple(x: real, r: real, k: int, q: real, m: int, y: real)
    requires Rounds(x, r, k, q) && y == Quanta(m, q)
    ensures Abs(r - x) <= Abs(y - x)
    ensures m != k && Abs(r - x) == Abs(y - x) ==> k % 2 == 0
  {
    QuantaProduct(k, q);
    QuantaProduct(m, q);
    var t := Quotient(x, q);
    NearestScaled(t, k, m, q, x, r, y);
  }

  lemma CompareScaled(a: real, b: real, q: real, x: real, y: real)
    requires q > 0.0 && a <= b && x == a * q && y == b * q
    ensures x <= y && (x == y ==> a == b)
  {
    if a < b {
      StrictlyScaled(a, b, q);
    }
  }

  lemma NearestEdge(x: real, r: real, k: int, q: real)
    requires Rounds(x, r, k, q)
    ensures Abs(r - x) <= Abs(x) - 8388608.0 * q
  {
    var edge := if x < 0.0 then -TWO_23 else TWO_23;
    QuantaProduct(edge, q);
    NearestMultiple(x, r, k, q, edge, Quanta(edge, q));
  }

  /** A representable value of at least the binade's size is a whole number of quanta. */
  lemma WholeQuanta(y: real, m: int, i: int, j: int) returns (n: int)
    requires Representable(y, m, i) && Abs(y) >= 8388608.0 * Pow2(j)
    ensures y == Quanta(n, Pow2(j))
  {
    if i < j {
      Pow2Monotone(i, j - 1);
      Pow2Step(j - 1);
      FullMantissa(m, Pow2(i), Pow2(j), y);
      n := if m < 0 then -TWO_23 else TWO_23;
      QuantaHalved(n, Pow2(j), Pow2(i));
    } else {
      n := Rebased(m, i, j);
    }
  }

  /** Below the quantum only the widest mantissa, at half a quantum, reaches the binade. */
  lemma BelowFull(a: real, p: real, y: real)
    requires p > 0.0 && a < 16777216.0 && y == a * p
    ensures y < 16777216.0 * p
  {
  }

  lemma FullMantissa(m: int, p: real, q: real, y: real)
    requires 0.0 < 2.0 * p <= q && -TWO_24 <= m <= TWO_24 && y == Quanta(m, p) && Abs(y) >= 8388608.0 * q
    ensures (m == TWO_24 || m == -TWO_24) && 2.0 * p == q
  {
    QuantaProduct(m, p);
    AbsProduct(m as real, p, y);
    if -TWO_24 < m < TWO_24 {
      BelowFull(Abs(m as real), p, Abs(y));
    } else {
      assert Abs(m as real) == 16777216.0;
    }
  }

  lemma AbsProduct(a: real, q: real, y: real)
    requires q > 0.0 && y == a * q
    ensures Abs(y) == Abs(a) * q
  {
  }

  /** No value with 24 significant bits is nearer to x than its rounding, and a tie goes to the even multiple. */
  lemma RoundsToNearest(f: Fraction, y: real, m: int, i: int) returns (k: int, j: int)
    requires f.num != 0 && RoundF32(f).Ok? && Representable(y, m, i)
    ensures Rounds(Value(f), Value(RoundF32(f).value), k, Pow2(j))
    ensures
      var r := Value(RoundF32(f).value);
      && Abs(r - Value(f)) <= Abs(y - Value(f))
      && (y != r && Abs(r - Value(f)) == Abs(y - Value(f)) ==> k % 2 == 0)
  {
    k, j := RoundF32Rounds(f);
    var x, r := Value(f), Value(RoundF32(f).value);
    if Abs(y) >= 8388608.0 * Pow2(j) {
      var n := WholeQuanta(y, m, i, j);
      NearestMultiple(x, r, k, Pow2(j), n, y);
    } else {
      NearestEdge(x, r, k, Pow2(j));
    }
  }

  /** The rounding is itself a normal binary32 value: 24 significant bits, the leading one set. */
  lemma RoundingIsRepresentable(f: Fraction) returns (k: int, j: int)
    requires f.num != 0 && RoundF32(f).Ok?
    ensures Representable(Value(RoundF32(f).value), k, j) && (k <= -TWO_23 || TWO_23 <= k)
  {
    k, j := RoundF32Rounds(f);
    QuotientRange(Value(f), Value(f) / Pow2(j), Pow2(j), k);
  }

  lemma QuotientRange(x: real, t: real, q: real, k: int)
    requires q > 0.0 && t == x / q && 8388608.0 * q <= Abs(x) < 16777216.0 * q && k == RoundHalfEven(t)
    ensures TWO_23 <= k <= TWO_24 || -TWO_24 <= k <= -TWO_23
  {
    Rescaled(x, q);
    AbsProduct(t, q, x);
    Between(Abs(t), Abs(x), q, 8388608.0, 16777216.0);
    MantissaRange(t, k);
  }

  lemma Between(a: real, p: real, q: real, low: real, high: real)
    requires q > 0.0 && p == a * q && low * q <= p <= high * q
    ensures low <= a <= high
  {
    if a < low {
      StrictlyScaled(a, low, q);
    }
    if high < a {
      StrictlyScaled(high, a, q);
    }
  }

  lemma MantissaRange(t: real, k: int)
    requires 8388608.0 <= Abs(t) <= 16777216.0 && k == RoundHalfEven(t)
    ensures TWO_23 <= k <= TWO_24 || -TWO_24 <= k <= -TWO_23
  {
    RoundHalfEvenNearest(t, if t < 0.0 then -TWO_24 else TWO_24);
    RoundHalfEvenNearest(t, if t < 0.0 then -TWO_23 else TWO_23);
  }

  /** Values with 24 significant bits round to themselves. */
  lemma RepresentableIsExact(f: Fraction, m: int, i: int)
    requires RoundF32(f).Ok? && Representable(Value(f), m, i)
    ensures Value(RoundF32(f).value) == Value(f)
  {
    if f.num != 0 {
      var k, j := RoundsToNearest(f, Value(f), m, i);
    }
  }

  lemma SameExponent(f: Fraction, g: Fraction)
    requires f.num > 0 && g.num > 0 && Value(f) == Value(g)
    ensures Exponent(f) == Exponent(g)
  {
    ExponentBounds(f);
    ExponentBounds(g);
    if Exponent(f) < Exponent(g) {
      Pow2Monotone(Exponent(f) + 1, Exponent(g));
    } else if Exponent(g) < Exponent(f) {
      Pow2Monotone(Exponent(g) + 1, Exponent(f));
    }
  }

  /** Rounding depends on the value only, not on how the fraction is written. */
  lemma RoundingIsOfTheValue(f: Fraction, g: Fraction)
    requires Value(f) == Value(g)
    ensures RoundF32(f) == RoundF32(g)
  {
    ValueZero(f);
    ValueZero(g);
    if f.num != 0 {
      SameExponent(Magnitude(f), Magnitude(g));
    }
  }

  // ----- Grids -----

  ghost predicate OnGrid(x: real, g: int) {
    exists m: int :: x == Quanta(m, Pow2(g))
  }

  lemma ZeroOnGrid(g: int)
    ensures OnGrid(0.0, g)
  {
    assert 0.0 == Quanta(0, Pow2(g));
  }

  lemma SumOnGrid(x: real, y: real, g: int)
    requires OnGrid(x, g) && OnGrid(y, g)
    ensures OnGrid(x + y, g)
  {
    var m: int :| x == Quanta(m, Pow2(g));
    var n: int :| y == Quanta(n, Pow2(g));
    QuantaAdd(m, n, Pow2(g));
  }

  lemma {:induction false} QuantaAtLeast(m: int, q: real)
    requires q > 0.0
    ensures m > 0 ==> Quanta(m, q) >= q
    ensures m < 0 ==> Quanta(m, q) <= -q
    decreases if m < 0 then -m else m
  {
    if m > 1 {
      QuantaAtLeast(m - 1, q);
    } else if m < -1 {
      QuantaAtLeast(m + 1, q);
    }
  }

  lemma GridStep(x: real, g: int)
    requires OnGrid(x, g) && x != 0.0
    ensures Abs(x) >= Pow2(g)
  {
    var m: int :| x == Quanta(m, Pow2(g));
    QuantaAtLeast(m, Pow2(g));
  }

  /** Rounding never leaves a grid of powers of two. */
  lemma RoundingKeepsGrid(f: Fraction, g: int)
    requires RoundF32(f).Ok? && OnGrid(Value(f), g)
    ensures OnGrid(Value(RoundF32(f).value), g)
  {
    if f.num == 0 {
      ZeroOnGrid(g);
    } else {
      var k, j := RoundF32Rounds(f);
      RoundsOnGrid(Value(f), Value(RoundF32(f).value), k, j, g);
    }
  }

  lemma RoundsOnGrid(x: real, r: real, k: int, j: int, g: int)
    requires Rounds(x, r, k, Pow2(j)) && OnGrid(x, g)
    ensures OnGrid(r, g)
  {
    if g <= j {
      var n := Rebased(k, j, g);
    } else {
      var m: int :| x == Quanta(m, Pow2(g));
      var n := Rebased(m, g, j);
      NearestMultiple(x, r, k, Pow2(j), n, x);
    }
  }

  lemma BinadeAbove(x: real, j: int, low: int)
    requires Pow2(low) <= x < Pow2(j + 24)
    ensures low - 23 <= j
  {
    if j + 24 <= low {
      Pow2Monotone(j + 24, low);
    }
  }

  /** Rounding a value of magnitude at least 2^low lands on the grid of 2^(low - 23). */
  lemma RoundingFindsGrid(f: Fraction, low: int)
    requires f.num != 0 && RoundF32(f).Ok? && Abs(Value(f)) >= Pow2(low)
    ensures OnGrid(Value(RoundF32(f).value), low - 23)
  {
    var k, j := RoundF32Rounds(f);
    BinadeScale(j);
    BinadeAbove(Abs(Value(f)), j, low);
    var n := Rebased(k, j, low - 23);
  }
}
