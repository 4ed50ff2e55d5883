/**
  The fixed binary32 contract, on every input it admits and every shape with n u < 1: the sequential
  program never leaves the normal-or-zero domain and stays within gamma_n of the exact reference
  (examples/reduction_fp32_contract.py, examples/bounded_composed_chain.py, examples/bounded_native_fanin.py).
 */
module NumericContract {
  import opened Wrappers
  import opened Rounding
  import opened Arithmetic
  import opened ErrorBounds

  /** A rounded value, or the domain error some earlier operation raised. */
  datatype F32 = Rounded(value: Fraction) | Rejected(message: string)

  function Rounding32(f: Fraction): F32 {
    match RoundF32(f)
    case Ok(r) => Rounded(r)
    case Err(message) => Rejected(message)
  }

  function Add32(a: F32, b: F32): F32 {
    if a.Rejected? then a else if b.Rejected? then b else Rounding32(Plus(a.value, b.value))
  }

  function Mul32(a: F32, b: F32): F32 {
    if a.Rejected? then a else if b.Rejected? then b else Rounding32(Times(a.value, b.value))
  }

  function Relu32(a: F32): F32 {
    if a.Rejected? then a else Rounded(Positive(a.value))
  }

  function Value32(a: F32): real {
    if a.Rejected? then 0.0 else Value(a.value)
  }

  const OPS32: Ops<F32> := Ops(Rounded(ZERO), (a: F32, b: F32) => Add32(a, b), (a: F32, b: F32) => Mul32(a, b),
                               (a: F32) => Relu32(a))
  const MODEL32: Model<F32> := Model(OPS32, (a: F32) => a.Rounded?, (a: F32) => Value32(a))

  lemma AddFaithful32(a: F32, b: F32)
    requires Add32(a, b).Rounded?
    ensures a.Rounded? && b.Rounded?
    ensures Near(Value32(Add32(a, b)), Value32(a) + Value32(b), UNIT_ROUNDOFF * Abs(Value32(a) + Value32(b)))
  {
    RoundingError(Plus(a.value, b.value));
    PlusValue(a.value, b.value);
  }

  lemma SameProduct(t: real, x: real, y: real, t': real, x': real, y': real)
    requires t == x * y && t' == x' * y' && x == x' && y == y'
    ensures t == t'
  {
  }

  lemma NamedTimes(a: Fraction, b: Fraction) returns (t: real, x: real, y: real)
    ensures t == Value(Times(a, b)) && x == Value(a) && y == Value(b) && t == x * y
  {
    TimesValue(a, b);
    t, x, y := Value(Times(a, b)), Value(a), Value(b);
  }

  lemma TimesError(a: Fraction, b: Fraction, t: real, x: real, y: real)
    requires RoundF32(Times(a, b)).Ok? && x == Value(a) && y == Value(b) && t == x * y
    ensures Near(Value(RoundF32(Times(a, b)).value), t, UNIT_ROUNDOFF * Abs(t))
  {
    var t', x', y' := NamedTimes(a, b);
    SameProduct(t, x, y, t', x', y');
    var v, w := NamedRounding(Times(a, b));
    assert w == t;
  }

  lemma NamedRounding(f: Fraction) returns (v: real, t: real)
    requires RoundF32(f).Ok?
    ensures v == Value(RoundF32(f).value) && t == Value(f) && Near(v, t, UNIT_ROUNDOFF * Abs(t))
  {
    RoundingError(f);
    v, t := Value(RoundF32(f).value), Value(f);
  }

  lemma MulFaithful32(a: F32, b: F32, t: real, x: real, y: real)
    requires Mul32(a, b).Rounded? && x == Value32(a) && y == Value32(b) && t == x * y
    ensures Near(Value32(Mul32(a, b)), t, UNIT_ROUNDOFF * Abs(t))
  {
    TimesError(a.value, b.value, t, x, y);
  }

  /** round_f32 arithmetic meets the assumptions of the error theorem. */
  lemma Faithful32()
    ensures Faithful(MODEL32)
  {
    var m := MODEL32;
    forall a, b | m.ok(m.ops.add(a, b))
      ensures m.ok(a) && m.ok(b) && AddNear(m, a, b)
    {
      AddFaithful32(a, b);
    }
    forall a, b, t | m.ok(m.ops.mul(a, b))
      ensures MulNear(m, a, b, t)
    {
      if t == m.value(a) * m.value(b) {
        MulFaithful32(a, b, t, m.value(a), m.value(b));
      }
    }
    forall a | m.ok(m.ops.relu(a))
      ensures m.ok(a) && m.value(m.ops.relu(a)) == Clamp(m.value(a))
    {
      PositiveValue(a.value);
    }
  }

  // ----- Admitted inputs -----

  const MAX_MAGNITUDE := 65536.0

  /** The contract's checks on one input value: bounded, zero or not tiny, and a binary32 value. */
  predicate Admitted(x: Fraction) {
    && Abs(Value(x)) <= MAX_MAGNITUDE
    && (x.num != 0 ==> Abs(Value(x)) >= UNIT_ROUNDOFF)
    && RoundF32(x).Ok? && Value(RoundF32(x).value) == Value(x)
  }

  /** Zero, or at most 24 significant bits between 2^-24 and 2^16, of either sign. */
  ghost predicate BoundedBinary32(v: real) {
    || v == 0.0
    || (&& (1.0 / 16777216.0 <= v <= 65536.0 || -65536.0 <= v <= -1.0 / 16777216.0)
        && exists m: int, i: int :: -16777216 <= m <= 16777216 && v == Quanta(m, Pow2(i)))
  }

  lemma InputRangeInDomain(v: real)
    requires 1.0 / 16777216.0 <= Abs(v) <= 65536.0
    ensures InDomain(v)
  {
    BinadeScale(-24);
    assert Pow2(-24 + 24) == 1.0;
    Pow2Monotone(-100, -24);
    Pow2Eight(0);
    Pow2Eight(8);
    Pow2Monotone(16, 100);
  }

  /** The admitted values, without rounding: the check tests nothing else and nothing less. */
  lemma AdmittedMeans(x: Fraction)
    ensures Admitted(x) <==> BoundedBinary32(Value(x))
  {
    ValueZero(x);
    if x.num == 0 {
      assert RoundF32(x) == Ok(ZERO);
    } else if Admitted(x) {
      var k, j := RoundingIsRepresentable(x);
    } else if BoundedBinary32(Value(x)) {
      var m: int, i: int :| -16777216 <= m <= 16777216 && Value(x) == Quanta(m, Pow2(i));
      InputRangeInDomain(Value(x));
      RepresentableIsExact(x, m, i);
    }
  }

  lemma NegatedValue(v: real)
    requires BoundedBinary32(v)
    ensures BoundedBinary32(-v)
  {
    if v != 0.0 {
      var m: int, i: int :| -16777216 <= m <= 16777216 && v == Quanta(m, Pow2(i));
      QuantaNegated(m, Pow2(i));
      assert -v == Quanta(-m, Pow2(i));
    }
  }

  /** Admission does not look at the sign. */
  lemma NegatedAdmitted(x: Fraction)
    ensures Admitted(x) <==> Admitted(Ratio(-x.num, x.den))
  {
    var y: Fraction := Ratio(-x.num, x.den);
    assert Value(y) == -Value(x);
    AdmittedMeans(x);
    AdmittedMeans(y);
    if BoundedBinary32(Value(x)) {
      NegatedValue(Value(x));
    }
    if BoundedBinary32(Value(y)) {
      NegatedValue(Value(y));
    }
  }

  // ----- The growth factor stays below four -----

  /** s grown by n roundings. */
  function Grown(n: nat, s: real): real {
    if n == 0 then s else Grown(n - 1, s) * (1.0 + UNIT_ROUNDOFF)
  }

  lemma {:induction false} GrowthIsGrown(m: nat, n: nat)
    ensures Growth(m + n) == Grown(n, Growth(m))
  {
    if n > 0 {
      GrowthIsGrown(m, n - 1);
    }
  }

  lemma {:induction false} GrownAtMost(n: nat, s: real, factor: real)
    requires s <= factor
    ensures Grown(n, s) <= Grown(n, factor)
  {
    if n > 0 {
      GrownAtMost(n - 1, s, factor);
    }
  }

  lemma {:induction false} GrownTwo(n: nat)
    ensures Grown(n, 2.0) == 2.0 * Growth(n)
  {
    if n > 0 {
      GrownTwo(n - 1);
    }
  }

  lemma GrowthAndRest(n: nat) returns (g: real, h: real)
    requires n <= GAMMA_LIMIT
    ensures g == Growth(n) && h == 1.0 - n as real * UNIT_ROUNDOFF && g * h <= 1.0
  {
    GrowthTimesRest(n);
    g, h := Growth(n), 1.0 - n as real * UNIT_ROUNDOFF;
  }

  lemma GrowthBelowTwo(n: nat)
    requires 2 * n <= GAMMA_LIMIT
    ensures Growth(n) <= 2.0
  {
    var g, h := GrowthAndRest(n);
    if 2.0 < g {
      StrictlyScaled(2.0, g, h);
    }
  }

  lemma GrowthJoined(m: nat, n: nat)
    requires Growth(m) <= 2.0 && Growth(n) <= 2.0
    ensures Growth(m + n) <= 4.0
  {
    GrowthIsGrown(m, n);
    GrownAtMost(n, Growth(m), 2.0);
    GrownTwo(n);
  }

  lemma GrowthBelowFour(n: nat)
    requires n <= GAMMA_LIMIT
    ensures Growth(n) <= 4.0
  {
    GrowthBelowTwo(n / 2);
    GrowthBelowTwo(n - n / 2);
    GrowthJoined(n / 2, n - n / 2);
  }

  lemma AtMost(a: real, cap: real, b: real, p: real, q: real)
    requires b >= 0.0 && a <= cap && p == a * b && q == cap * b
    ensures p <= q
  {
    NonnegativeProduct(cap - a, b);
    assert q - p == (cap - a) * b;
  }

  lemma NonnegativeProduct(a: real, b: real)
    requires a >= 0.0 && b >= 0.0
    ensures a * b >= 0.0
  {
  }

  lemma BoundBelow(n: nat, s: real)
    requires n <= GAMMA_LIMIT && s >= 0.0
    ensures Bound(n, s) <= 3.0 * s
  {
    GrowthBelowFour(n);
    BoundIsGrowth(n, s);
    AtMost(Growth(n) - 1.0, 3.0, s, Bound(n, s), 3.0 * s);
  }

  // ----- No operation leaves the domain -----

  /** Every intermediate value is a multiple of 2^GRID. */
  const GRID := -71

  /** 2^32, 2^56 and 2^80: caps of one product, of one column and of a whole row. */
  const TERM_CAP := 4294967296.0
  const COLUMN_CAP := 72057594037927936.0
  const ROW_CAP := 1208925819614629174706176.0

  lemma Pow2Forty(e: int)
    ensures Pow2(e + 40) == 1099511627776.0 * Pow2(e)
  {
    Pow2Eight(e);
    Pow2Eight(e + 8);
    Pow2Eight(e + 16);
    Pow2Eight(e + 24);
    Pow2Eight(e + 32);
  }

  lemma Pow2Ninety(e: int)
    requires Pow2(e) == 1.0
    ensures 8.0 * ROW_CAP <= Pow2(e + 88)
  {
    Pow2Forty(e);
    Pow2Forty(e + 40);
    Pow2Eight(e + 80);
  }

  lemma DomainTop()
    ensures 8.0 * ROW_CAP <= Pow2(DOMAIN_EXPONENT)
  {
    var e := DOMAIN_EXPONENT - 100;
    assert Pow2(e) == 1.0;
    Pow2Ninety(e);
    Pow2Monotone(e + 88, DOMAIN_EXPONENT);
  }

  lemma TermBottom()
    ensures Pow2(-48) == UNIT_ROUNDOFF * UNIT_ROUNDOFF
  {
    Pow2Eight(-48);
    Pow2Eight(-40);
    Pow2Eight(-32);
    Pow2Eight(-24);
    Pow2Eight(-16);
    Pow2Eight(-8);
    assert Pow2(0) == 1.0;
  }

  lemma RoundingSucceeds(f: Fraction)
    requires OnGrid(Value(f), GRID) && Abs(Value(f)) <= 8.0 * ROW_CAP
    ensures RoundF32(f).Ok? && OnGrid(Value(RoundF32(f).value), GRID)
  {
    if f.num != 0 {
      ValueZero(f);
      GridStep(Value(f), GRID);
      Pow2Monotone(-100, GRID);
      DomainTop();
    }
    RoundingKeepsGrid(f, GRID);
  }

  lemma TermRange(x: real, y: real, t: real)
    requires t == x * y && UNIT_ROUNDOFF <= Abs(x) <= MAX_MAGNITUDE && UNIT_ROUNDOFF <= Abs(y) <= MAX_MAGNITUDE
    ensures UNIT_ROUNDOFF * UNIT_ROUNDOFF <= Abs(t) <= TERM_CAP
  {
    AbsProduct2(x, y, t);
    AtMost(Abs(x), MAX_MAGNITUDE, Abs(y), Abs(t), MAX_MAGNITUDE * Abs(y));
    AtMost(UNIT_ROUNDOFF, Abs(x), Abs(y), UNIT_ROUNDOFF * Abs(y), Abs(t));
  }

  lemma AbsProduct2(x: real, y: real, t: real)
    requires t == x * y
    ensures Abs(t) == Abs(x) * Abs(y)
  {
  }

  /** The product of two admitted values, and its size. */
  lemma ProductSucceeds(a: Fraction, b: Fraction, t: real, x: real, y: real)
    requires Admitted(a) && Admitted(b) && x == Value(a) && y == Value(b) && t == x * y
    ensures RoundF32(Times(a, b)).Ok? && OnGrid(Value(RoundF32(Times(a, b)).value), GRID)
    ensures Abs(t) <= TERM_CAP
  {
    ValueZero(a);
    ValueZero(b);
    if a.num == 0 || b.num == 0 {
      ZeroProduct(a.num, b.num, x, y, t);
      ZeroOnGrid(GRID);
    } else {
      TermRange(x, y, t);
      LargeTerm(a, b, t, x, y);
    }
  }

  lemma ZeroProduct(m: int, n: int, x: real, y: real, t: real)
    requires t == x * y && (m == 0 ==> x == 0.0) && (n == 0 ==> y == 0.0) && (m == 0 || n == 0)
    ensures t == 0.0 && m * n == 0
  {
  }

  lemma LargeTerm(a: Fraction, b: Fraction, t: real, x: real, y: real)
    requires x == Value(a) && y == Value(b) && t == x * y
    requires UNIT_ROUNDOFF * UNIT_ROUNDOFF <= Abs(t) <= TERM_CAP
    ensures RoundF32(Times(a, b)).Ok? && OnGrid(Value(RoundF32(Times(a, b)).value), GRID)
  {
    var w, x', y' := NamedTimes(a, b);
    SameProduct(t, x, y, w, x', y');
    LargeRounding(Times(a, b), w);
  }

  lemma LargeRounding(f: Fraction, v: real)
    requires v == Value(f) && UNIT_ROUNDOFF * UNIT_ROUNDOFF <= Abs(v) <= TERM_CAP
    ensures RoundF32(f).Ok? && OnGrid(Value(RoundF32(f).value), GRID)
  {
    ValueZero(f);
    TermBottom();
    Pow2Monotone(-100, -48);
    DomainTop();
    RoundingFindsGrid(f, -48);
  }

  lemma {:induction false} TotalAtMost(xs: Reals, cap: real, k: nat)
    requires k <= |xs| && forall i | 0 <= i < |xs| :: 0.0 <= xs[i] <= cap
    ensures 0.0 <= Total(xs, k) <= Quanta(k, cap)
  {
    if k > 0 {
      TotalAtMost(xs, cap, k - 1);
    }
  }

  lemma ManyQuanta(k: nat, cap: real)
    requires k <= TWO_24 && cap > 0.0
    ensures Quanta(k, cap) <= 16777216.0 * cap
  {
    QuantaMonotone(k, TWO_24, cap);
    QuantaProduct(TWO_24, cap);
  }

  ghost predicate Gridded(a: F32) {
    a.Rounded? && OnGrid(Value32(a), GRID)
  }

  lemma AddSucceeds(a: F32, b: F32)
    requires Gridded(a) && Gridded(b) && Abs(Value32(a) + Value32(b)) <= 8.0 * ROW_CAP
    ensures Gridded(Add32(a, b))
  {
    SumOnGrid(Value32(a), Value32(b), GRID);
    PlusValue(a.value, b.value);
    RoundingSucceeds(Plus(a.value, b.value));
  }

  lemma PartialRange(xs: seq<F32>, exact: Reals, sizes: Reals, n: nat, k: nat)
    requires AllNear(MODEL32, xs, exact, sizes, n) && n + |xs| <= GAMMA_LIMIT && k <= |xs|
    requires Sum(OPS32, xs, k).Rounded? && 0.0 <= Total(sizes, k)
    ensures Abs(Value32(Sum(OPS32, xs, k))) <= 4.0 * Total(sizes, k)
  {
    Faithful32();
    SumError(MODEL32, xs, exact, sizes, n, k);
    BoundBelow(n + k, Total(sizes, k));
    FourTimes(Value32(Sum(OPS32, xs, k)), Total(exact, k), Total(sizes, k), Bound(n + k, Total(sizes, k)));
  }

  lemma EntryRange(xs: seq<F32>, exact: Reals, sizes: Reals, n: nat, k: nat)
    requires AllNear(MODEL32, xs, exact, sizes, n) && n <= GAMMA_LIMIT && k < |xs| && xs[k].Rounded?
    ensures Abs(Value32(xs[k])) <= 4.0 * sizes[k]
  {
    assert MODEL32.ok(xs[k]);
    BoundBelow(n, sizes[k]);
    FourTimes(Value32(xs[k]), exact[k], sizes[k], Bound(n, sizes[k]));
  }

  lemma FourTimes(v: real, exact: real, size: real, d: real)
    requires Near(exact, 0.0, size) && Near(v, exact, d) && d <= 3.0 * size
    ensures Abs(v) <= 4.0 * size
  {
  }

  /** A sum of gridded terms of bounded total size never overflows, underflows or loses the grid. */
  lemma {:induction false} SumSucceeds(xs: seq<F32>, exact: Reals, sizes: Reals, n: nat, k: nat)
    requires AllNear(MODEL32, xs, exact, sizes, n) && n + |xs| <= GAMMA_LIMIT && k <= |xs|
    requires forall i | 0 <= i < |xs| :: Gridded(xs[i])
    requires forall j | 0 <= j <= |xs| :: 0.0 <= Total(sizes, j) <= ROW_CAP
    ensures Gridded(Sum(OPS32, xs, k))
  {
    if k == 0 {
      ZeroOnGrid(GRID);
    } else {
      SumSucceeds(xs, exact, sizes, n, k - 1);
      PartialRange(xs, exact, sizes, n, k - 1);
      EntryRange(xs, exact, sizes, n, k - 1);
      assert Total(sizes, k) == Total(sizes, k - 1) + sizes[k - 1];
      AddSucceeds(Sum(OPS32, xs, k - 1), xs[k - 1]);
    }
  }

  predicate AllAdmitted(xs: seq<F32>) {
    forall i | 0 <= i < |xs| :: xs[i].Rounded? && Admitted(xs[i].value)
  }

  predicate AdmittedCase(x: seq<F32>, y: seq<seq<F32>>, columns: nat) {
    && Shaped(y, |x|, columns)
    && AllAdmitted(x)
    && forall i | 0 <= i < |y| :: AllAdmitted(y[i])
  }

  lemma ProductGridded(a: F32, b: F32, t: real, x: real, y: real)
    requires a.Rounded? && b.Rounded? && Admitted(a.value) && Admitted(b.value)
    requires x == Value32(a) && y == Value32(b) && t == x * y
    ensures Gridded(Mul32(a, b)) && Abs(t) <= TERM_CAP
  {
    ProductSucceeds(a.value, b.value, t, x, y);
  }

  lemma NamedTerm(x: seq<F32>, y: seq<seq<F32>>, columns: nat, c: nat, k: nat) returns (t: real, a: real, b: real)
    requires Shaped(y, |x|, columns) && c < columns && k < |x|
    ensures t == Terms(Values(MODEL32, x), MatrixValues(MODEL32, y), c)[k]
    ensures a == Value32(x[k]) && b == Value32(y[k][c]) && t == a * b
  {
    t := Terms(Values(MODEL32, x), MatrixValues(MODEL32, y), c)[k];
    a, b := Value32(x[k]), Value32(y[k][c]);
    assert Values(MODEL32, x)[k] == a && MatrixValues(MODEL32, y)[k][c] == b;
  }

  lemma ProductAt(x: seq<F32>, y: seq<seq<F32>>, columns: nat, c: nat, k: nat)
    requires AdmittedCase(x, y, columns) && c < columns && k < |x|
    ensures Gridded(Products(OPS32, x, y, c)[k])
    ensures Abs(Terms(Values(MODEL32, x), MatrixValues(MODEL32, y), c)[k]) <= TERM_CAP
  {
    var t, a, b := NamedTerm(x, y, columns, c, k);
    ProductGridded(x[k], y[k][c], t, a, b);
  }

  lemma ProductsGridded(x: seq<F32>, y: seq<seq<F32>>, columns: nat, c: nat)
    requires AdmittedCase(x, y, columns) && c < columns
    ensures forall k | 0 <= k < |x| :: Gridded(Products(OPS32, x, y, c)[k])
    ensures forall k | 0 <= k < |x| ::
              0.0 <= Magnitudes(Terms(Values(MODEL32, x), MatrixValues(MODEL32, y), c))[k] <= TERM_CAP
  {
    forall k | 0 <= k < |x|
      ensures Gridded(Products(OPS32, x, y, c)[k])
      ensures Abs(Terms(Values(MODEL32, x), MatrixValues(MODEL32, y), c)[k]) <= TERM_CAP
    {
      ProductAt(x, y, columns, c, k);
    }
  }

  lemma TotalsAtMost(sizes: Reals, cap: real)
    requires |sizes| <= TWO_24 && cap > 0.0 && forall i | 0 <= i < |sizes| :: 0.0 <= sizes[i] <= cap
    ensures forall j | 0 <= j <= |sizes| :: 0.0 <= Total(sizes, j) <= 16777216.0 * cap
  {
    forall j | 0 <= j <= |sizes|
      ensures 0.0 <= Total(sizes, j) <= 16777216.0 * cap
    {
      TotalAtMost(sizes, cap, j);
      ManyQuanta(j, cap);
    }
  }

  lemma DotSucceeds(x: seq<F32>, y: seq<seq<F32>>, columns: nat, c: nat)
    requires AdmittedCase(x, y, columns) && c < columns && |x| + 1 <= GAMMA_LIMIT
    ensures Gridded(Dot(OPS32, x, y, c))
    ensures
      var terms := Terms(Values(MODEL32, x), MatrixValues(MODEL32, y), c);
      0.0 <= Total(Magnitudes(terms), |x|) <= COLUMN_CAP
  {
    var terms := Terms(Values(MODEL32, x), MatrixValues(MODEL32, y), c);
    Faithful32();
    ProductsNear(MODEL32, x, y, c);
    ProductsGridded(x, y, columns, c);
    TotalsAtMost(Magnitudes(terms), TERM_CAP);
    SumSucceeds(Products(OPS32, x, y, c), terms, Magnitudes(terms), 1, |x|);
  }

  lemma ReluGridded(a: F32)
    requires Gridded(a)
    ensures Gridded(Relu32(a))
  {
    PositiveValue(a.value);
    ZeroOnGrid(GRID);
  }

  lemma ColumnsGridded(relu: bool, x: seq<F32>, y: seq<seq<F32>>, columns: nat)
    requires AdmittedCase(x, y, columns) && |x| + 1 <= GAMMA_LIMIT
    ensures forall c | 0 <= c < columns :: Gridded(ProductRow(OPS32, relu, x, y, columns, columns)[c])
    ensures forall c | 0 <= c < columns ::
              0.0 <= ColumnSizes(Values(MODEL32, x), MatrixValues(MODEL32, y), columns)[c] <= COLUMN_CAP
  {
    var vx, vy := Values(MODEL32, x), MatrixValues(MODEL32, y);
    forall c | 0 <= c < columns
      ensures Gridded(ProductRow(OPS32, relu, x, y, columns, columns)[c])
      ensures 0.0 <= ColumnSizes(vx, vy, columns)[c] <= COLUMN_CAP
    {
      DotSucceeds(x, y, columns, c);
      MagnitudesOfTerms(vx, vy, c);
      ReluGridded(Dot(OPS32, x, y, c));
    }
  }

  /** On admitted inputs the program never overflows or underflows: the exclusion the contract states
      for its fixed corpus holds for every admitted input. */
  lemma RowSucceeds(relu: bool, x: seq<F32>, y: seq<seq<F32>>, columns: nat)
    requires AdmittedCase(x, y, columns) && |x| + columns + 1 <= GAMMA_LIMIT
    ensures RowResult(OPS32, relu, x, y, columns).Rounded?
  {
    var vx, vy := Values(MODEL32, x), MatrixValues(MODEL32, y);
    Faithful32();
    ColumnsNear(MODEL32, relu, x, y, columns);
    ColumnsGridded(relu, x, y, columns);
    TotalsAtMost(ColumnSizes(vx, vy, columns), COLUMN_CAP);
    SumSucceeds(ProductRow(OPS32, relu, x, y, columns, columns), ColumnSums(vx, vy, relu, columns),
                ColumnSizes(vx, vy, columns), |x| + 1, columns);
  }

  /** The contract, for every admitted input of every shape with n u < 1: sequential binary32
      evaluation succeeds and is within gamma_n of the exact result, n = inner + columns + 1. */
  lemma AdmittedWithinGamma(relu: bool, x: seq<F32>, y: seq<seq<F32>>, columns: nat, n: nat)
    returns (v: real, exact: real, size: real)
    requires AdmittedCase(x, y, columns) && n == |x| + columns + 1 < GAMMA_LIMIT
    ensures RowResult(OPS32, relu, x, y, columns).Rounded? && v == Value32(RowResult(OPS32, relu, x, y, columns))
    ensures exact == Total(ColumnSums(Values(MODEL32, x), MatrixValues(MODEL32, y), relu, columns), columns)
    ensures size == AbsoluteSum(Values(MODEL32, x), MatrixValues(MODEL32, y), columns)
    ensures Near(v, exact, Budget(n, size))
    ensures (v - exact) * (16777216 - n) as real <= n as real * size
    ensures (exact - v) * (16777216 - n) as real <= n as real * size
  {
    RowSucceeds(relu, x, y, columns);
    Faithful32();
    v, exact, size := ChainWithinGamma(MODEL32, relu, x, y, columns, n);
    WithinInNumbers(n, v, exact, size);
  }

  // ----- The corpus check -----

  /** The exact value of one row as the reference computes it: without ReLU it contracts B first. */
  function ReferenceValue(relu: bool, x: Reals, y: seq<Reals>, columns: nat): real
    requires |x| == |y| && Rectangular(y, columns)
  {
    if relu then Total(ColumnSums(x, y, true, columns), columns) else ContractedFirst(x, y, columns, |x|)
  }

  /** One row's check: no admitted row leaves its budget. */
  method CheckRow(relu: bool, x: seq<F32>, y: seq<seq<F32>>, columns: nat, value: real) returns (within: bool)
    requires AdmittedCase(x, y, columns) && |x| + columns + 1 < GAMMA_LIMIT
    requires value == Value32(RowResult(OPS32, relu, x, y, columns))
    ensures within
  {
    var exact := ReferenceValue(relu, Values(MODEL32, x), MatrixValues(MODEL32, y), columns);
    var size := AbsoluteSum(Values(MODEL32, x), MatrixValues(MODEL32, y), columns);
    var n := |x| + columns + 1;
    ghost var v, e, s := AdmittedWithinGamma(relu, x, y, columns, n);
    SumInterchange(Values(MODEL32, x), MatrixValues(MODEL32, y), columns);
    within := Near(value, exact, Budget(n, size));
  }

  predicate AdmittedMatrices(a: seq<seq<F32>>, b: seq<seq<F32>>, columns: nat) {
    && Shaped(a, |a|, |b|) && Shaped(b, |b|, columns)
    && (forall r | 0 <= r < |a| :: AllAdmitted(a[r]))
    && (forall k | 0 <= k < |b| :: AllAdmitted(b[k]))
  }

  lemma RowAdmitted(a: seq<seq<F32>>, b: seq<seq<F32>>, columns: nat, i: nat)
    requires AdmittedMatrices(a, b, columns) && i < |a|
    ensures AdmittedCase(a[i], b, columns)
  {
  }

  /** The check of a case's evaluated rows against their budgets. */
  method CheckRows(relu: bool, a: seq<seq<F32>>, b: seq<seq<F32>>, columns: nat, ordered: seq<F32>)
    returns (within: bool)
    requires |b| + columns + 1 < GAMMA_LIMIT && AdmittedMatrices(a, b, columns) && |ordered| == |a|
    requires forall i | 0 <= i < |a| :: ordered[i] == RowResult(OPS32, relu, a[i], b, columns)
    ensures within
  {
    within := true;
    for i := 0 to |a|
      invariant within
    {
      RowAdmitted(a, b, columns, i);
      within := CheckRow(relu, a[i], b, columns, Value32(ordered[i]));
      if !within {
        return;
      }
    }
  }

  /** Every entry is a number the contract bounds. */
  ghost predicate AllBounded(m: seq<seq<F32>>) {
    forall r, k | 0 <= r < |m| && 0 <= k < |m[r]| :: m[r][k].Rounded? && BoundedBinary32(Value(m[r][k].value))
  }

  lemma BoundedIsAdmitted(m: seq<seq<F32>>)
    ensures AllBounded(m) <==> forall r | 0 <= r < |m| :: AllAdmitted(m[r])
  {
    forall r, k | 0 <= r < |m| && 0 <= k < |m[r]| && m[r][k].Rounded?
      ensures Admitted(m[r][k].value) <==> BoundedBinary32(Value(m[r][k].value))
    {
      AdmittedMeans(m[r][k].value);
    }
  }

  /** The corpus check: evaluate in order, and reject a case that leaves its budget. It rejects no
      admitted case, whatever its rows, inner size and columns. */
  method CheckCase(relu: bool, a: seq<seq<F32>>, b: seq<seq<F32>>, columns: nat) returns (r: Result<seq<F32>>)
    requires |b| + columns + 1 < GAMMA_LIMIT
    ensures r.Ok? <==> Shaped(a, |a|, |b|) && Shaped(b, |b|, columns) && AllBounded(a) && AllBounded(b)
    ensures r.Ok? ==> |r.value| == |a| && forall i | 0 <= i < |a| ::
                        r.value[i] == RowResult(OPS32, relu, a[i], b, columns)
  {
    BoundedIsAdmitted(a);
    BoundedIsAdmitted(b);
    if !AdmittedMatrices(a, b, columns) {
      return Err("FP32 input rejected");
    }
    var ordered := OrderedReference(OPS32, relu, a, b, columns);
    var within := CheckRows(relu, a, b, columns, ordered);
    if !within {
      return Err("corpus exceeds contract");
    }
    return Ok(ordered);
  }

  // ----- Fan-in: ReLU on both operands first -----

  function Clamped(xs: seq<F32>): (cs: seq<F32>)
    ensures |cs| == |xs| && forall i | 0 <= i < |xs| :: cs[i] == Relu32(xs[i])
  {
    seq(|xs|, i requires 0 <= i < |xs| => Relu32(xs[i]))
  }

  function ClampedMatrix(m: seq<seq<F32>>): (cs: seq<seq<F32>>)
    ensures |cs| == |m| && forall i | 0 <= i < |m| :: cs[i] == Clamped(m[i])
  {
    seq(|m|, i requires 0 <= i < |m| => Clamped(m[i]))
  }

  lemma ClampedAdmitted(xs: seq<F32>)
    requires AllAdmitted(xs)
    ensures AllAdmitted(Clamped(xs))
    ensures forall i | 0 <= i < |xs| :: Values(MODEL32, Clamped(xs))[i] == Clamp(Value32(xs[i]))
  {
    forall i | 0 <= i < |xs|
      ensures Clamped(xs)[i].Rounded? && Admitted(Clamped(xs)[i].value)
      ensures Values(MODEL32, Clamped(xs))[i] == Clamp(Value32(xs[i]))
    {
      PositiveValue(xs[i].value);
    }
  }

  /** Nonnegative factors are their own magnitudes, so the budget is gamma times the exact value. */
  lemma NonnegativeSize(x: Reals, y: seq<Reals>, columns: nat)
    requires |x| == |y| && Rectangular(y, columns)
    requires forall k | 0 <= k < |x| :: x[k] >= 0.0 && forall c | 0 <= c < columns :: y[k][c] >= 0.0
    ensures AbsoluteSum(x, y, columns) == ContractedFirst(x, y, columns, |x|)
  {
    assert Magnitudes(x) == x;
    forall k | 0 <= k < |y|
      ensures MatrixMagnitudes(y)[k] == y[k]
    {
      assert Magnitudes(y[k]) == y[k];
    }
    assert MatrixMagnitudes(y) == y;
  }

  /** Clamping is exact, and keeps a case admitted. */
  lemma FanInAdmitted(x: seq<F32>, y: seq<seq<F32>>, columns: nat)
    requires AdmittedCase(x, y, columns)
    ensures AdmittedCase(Clamped(x), ClampedMatrix(y), columns)
    ensures forall k | 0 <= k < |x| :: Values(MODEL32, Clamped(x))[k] == Clamp(Value32(x[k]))
    ensures forall k, c | 0 <= k < |x| && 0 <= c < columns ::
              MatrixValues(MODEL32, ClampedMatrix(y))[k][c] == Clamp(Value32(y[k][c]))
  {
    ClampedAdmitted(x);
    forall k | 0 <= k < |y|
      ensures AllAdmitted(ClampedMatrix(y)[k]) && |ClampedMatrix(y)[k]| == columns
      ensures forall c | 0 <= c < columns :: MatrixValues(MODEL32, ClampedMatrix(y))[k][c] == Clamp(Value32(y[k][c]))
    {
      ClampedAdmitted(y[k]);
    }
  }

  lemma FanInSize(x: seq<F32>, y: seq<seq<F32>>, columns: nat) returns (exact: real)
    requires AdmittedCase(x, y, columns)
    ensures AdmittedCase(Clamped(x), ClampedMatrix(y), columns)
    ensures exact == ReferenceValue(false, Values(MODEL32, Clamped(x)), MatrixValues(MODEL32, ClampedMatrix(y)),
                                    columns)
    ensures exact == AbsoluteSum(Values(MODEL32, Clamped(x)), MatrixValues(MODEL32, ClampedMatrix(y)), columns)
    ensures
      var vx, vy := Values(MODEL32, Clamped(x)), MatrixValues(MODEL32, ClampedMatrix(y));
      exact == Total(ColumnSums(vx, vy, false, columns), columns)
  {
    var vx, vy := Values(MODEL32, Clamped(x)), MatrixValues(MODEL32, ClampedMatrix(y));
    FanInAdmitted(x, y, columns);
    NonnegativeSize(vx, vy, columns);
    SumInterchange(vx, vy, columns);
    exact := ContractedFirst(vx, vy, columns, |vx|);
  }

  /** Fan-in: the sequential product and sum of the clamped operands is within gamma_n, relatively,
      of sum_k_c max(a,0) max(b,0). */
  lemma FanInWithinGamma(x: seq<F32>, y: seq<seq<F32>>, columns: nat, n: nat) returns (v: real, exact: real)
    requires AdmittedCase(x, y, columns) && n == |x| + columns + 1 < GAMMA_LIMIT
    ensures Shaped(ClampedMatrix(y), |x|, columns)
    ensures v == Value32(RowResult(OPS32, false, Clamped(x), ClampedMatrix(y), columns))
    ensures exact == ReferenceValue(false, Values(MODEL32, Clamped(x)), MatrixValues(MODEL32, ClampedMatrix(y)),
                                    columns)
    ensures Near(v, exact, Budget(n, exact))
    ensures (v - exact) * (16777216 - n) as real <= n as real * exact
    ensures (exact - v) * (16777216 - n) as real <= n as real * exact
  {
    exact := FanInSize(x, y, columns);
    var e, s;
    v, e, s := AdmittedWithinGamma(false, Clamped(x), ClampedMatrix(y), columns, n);
    SizeIsExact(n, v, e, s, exact);
    WithinInNumbers(n, v, exact, exact);
  }

  lemma SizeIsExact(n: nat, v: real, e: real, s: real, exact: real)
    requires n < GAMMA_LIMIT && e == exact && s == exact && Near(v, e, Budget(n, s))
    ensures Near(v, exact, Budget(n, exact))
  {
  }
}
