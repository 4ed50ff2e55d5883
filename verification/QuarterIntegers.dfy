/**
  The exact corpus domain of the shape profiles: quarter-integers of magnitude at most 4
  (examples/bounded_reduction_shapes.py, exact_reference). As long as 256 K C stays within 2^24
  nothing the emitted order computes is rounded, so it equals the oracle that sums B first.
 */
module QuarterIntegers {
  import opened Rounding
  import opened Arithmetic
  import opened ErrorBounds
  import opened NumericContract
  import opened Kernels

  const QUARTER := 0.25
  const SIXTEENTH := 0.0625

  /** The oracle's domain check. */
  predicate QuarterInput(a: F32) {
    && a.Rounded?
    && -4.0 <= Value32(a) <= 4.0
    && 4.0 * Value32(a) == (4.0 * Value32(a)).Floor as real
  }

  predicate QuarterInputs(xs: seq<F32>) {
    forall i | 0 <= i < |xs| :: QuarterInput(xs[i])
  }

  function Quarters(a: F32): int {
    (4.0 * Value32(a)).Floor
  }

  lemma QuartersBounded(a: F32)
    requires QuarterInput(a)
    ensures -16 <= Quarters(a) <= 16 && Value32(a) == Quarters(a) as real * QUARTER
  {
  }

  /** a stands for n sixteenths, exactly. */
  ghost predicate Sixteenths(a: F32, n: int) {
    a.Rounded? && Value32(a) == Quanta(n, SIXTEENTH)
  }

  lemma SixteenthIsPower()
    ensures Pow2(-4) == SIXTEENTH
  {
  }

  lemma SixteenthsInDomain(x: real, n: int)
    requires x == Quanta(n, SIXTEENTH) && n != 0 && -TWO_24 <= n <= TWO_24
    ensures InDomain(x)
  {
    QuantaAtLeast(n, SIXTEENTH);
    QuantaProduct(n, SIXTEENTH);
    SixteenthIsPower();
    Pow2Monotone(-DOMAIN_EXPONENT, -4);
    DomainTop();
  }

  /** Up to 2^24 sixteenths are binary32 values, so nothing is rounded. */
  lemma ExactRounding(f: Fraction, n: int)
    requires Value(f) == Quanta(n, SIXTEENTH) && -TWO_24 <= n <= TWO_24
    ensures Sixteenths(Rounding32(f), n)
  {
    ValueZero(f);
    if n != 0 {
      QuantaAtLeast(n, SIXTEENTH);
      SixteenthsInDomain(Value(f), n);
      SixteenthIsPower();
      RepresentableIsExact(f, n, -4);
    }
  }

  lemma AddExact(a: F32, b: F32, n: int, m: int)
    requires Sixteenths(a, n) && Sixteenths(b, m) && -TWO_24 <= n + m <= TWO_24
    ensures Sixteenths(Add32(a, b), n + m)
  {
    PlusValue(a.value, b.value);
    QuantaAdd(n, m, SIXTEENTH);
    ExactRounding(Plus(a.value, b.value), n + m);
  }

  lemma SignedProduct(a: int, b: int)
    ensures (a * b) as real == a as real * b as real
  {
    if b >= 0 {
      RealProduct(a, b);
    } else {
      RealProduct(a, -b);
      assert a * b == -(a * -b);
    }
  }

  lemma ProductOfQuarters(n: int, m: int, x: real, y: real, t: real)
    requires x == n as real * QUARTER && y == m as real * QUARTER && t == x * y
    ensures t == Quanta(n * m, SIXTEENTH)
  {
    QuantaProduct(n * m, SIXTEENTH);
    SignedProduct(n, m);
  }

  lemma ProductBounded(n: int, m: int)
    requires -16 <= n <= 16 && -16 <= m <= 16
    ensures -256 <= n * m <= 256
  {
  }

  lemma MulExact(a: F32, b: F32, t: real, x: real, y: real)
    requires QuarterInput(a) && QuarterInput(b) && x == Value32(a) && y == Value32(b) && t == x * y
    ensures Sixteenths(Mul32(a, b), Quarters(a) * Quarters(b)) && Value32(Mul32(a, b)) == t
    ensures -256 <= Quarters(a) * Quarters(b) <= 256
  {
    QuartersBounded(a);
    QuartersBounded(b);
    ProductOfQuarters(Quarters(a), Quarters(b), x, y, t);
    ProductBounded(Quarters(a), Quarters(b));
    var t', x', y' := NamedTimes(a.value, b.value);
    SameProduct(t, x, y, t', x', y');
    ExactRounding(Times(a.value, b.value), Quarters(a) * Quarters(b));
  }

  // ----- Sums -----

  function IntegerTotal(ns: seq<int>, k: nat): int
    requires k <= |ns|
  {
    if k == 0 then 0 else IntegerTotal(ns, k - 1) + ns[k - 1]
  }

  ghost predicate AllSixteenths(xs: seq<F32>, ns: seq<int>, cap: nat) {
    |xs| == |ns| && forall i | 0 <= i < |xs| :: Sixteenths(xs[i], ns[i]) && 0 - cap <= ns[i] <= cap
  }

  /** Sums of n terms of at most cap sixteenths are exact while n cap stays within 2^24. */
  lemma {:induction false} SumExact(xs: seq<F32>, ns: seq<int>, cap: nat, k: nat)
    requires AllSixteenths(xs, ns, cap) && k <= |xs| && Area(|xs|, cap) <= TWO_24
    ensures Sixteenths(Sum(OPS32, xs, k), IntegerTotal(ns, k))
    ensures 0 - Area(k, cap) <= IntegerTotal(ns, k) <= Area(k, cap)
    ensures Value32(Sum(OPS32, xs, k)) == Total(Values(MODEL32, xs), k)
  {
    if k > 0 {
      SumExact(xs, ns, cap, k - 1);
      AreaMonotone(k, |xs|, cap);
      AddExact(Sum(OPS32, xs, k - 1), xs[k - 1], IntegerTotal(ns, k - 1), ns[k - 1]);
      QuantaAdd(IntegerTotal(ns, k - 1), ns[k - 1], SIXTEENTH);
    }
  }

  lemma {:induction false} AreaMonotone(m: nat, n: nat, cap: nat)
    requires m <= n
    ensures Area(m, cap) <= Area(n, cap)
  {
    if m < n {
      AreaMonotone(m, n - 1, cap);
    }
  }

  // ----- The emitted order -----

  predicate QuarterCase(x: seq<F32>, y: seq<seq<F32>>, columns: nat) {
    && Shaped(y, |x|, columns)
    && QuarterInputs(x)
    && forall i | 0 <= i < |y| :: QuarterInputs(y[i])
  }

  lemma ProductExactAt(x: seq<F32>, y: seq<seq<F32>>, columns: nat, c: nat, k: nat)
    requires QuarterCase(x, y, columns) && c < columns && k < |x|
    ensures
      var product, n := Products(OPS32, x, y, c)[k], Quarters(x[k]) * Quarters(y[k][c]);
      && Sixteenths(product, n) && -256 <= n <= 256
      && Value32(product) == Terms(Values(MODEL32, x), MatrixValues(MODEL32, y), c)[k]
  {
    var t, a, b := NamedTerm(x, y, columns, c, k);
    MulExact(x[k], y[k][c], t, a, b);
  }

  /** One column: exact, and its value in sixteenths. */
  lemma DotExact(x: seq<F32>, y: seq<seq<F32>>, columns: nat, c: nat) returns (n: int)
    requires QuarterCase(x, y, columns) && c < columns && Area(|x|, 256) <= TWO_24
    ensures Sixteenths(Dot(OPS32, x, y, c), n) && 0 - Area(|x|, 256) <= n <= Area(|x|, 256)
    ensures Value32(Dot(OPS32, x, y, c)) == Total(Terms(Values(MODEL32, x), MatrixValues(MODEL32, y), c), |x|)
  {
    var products := Products(OPS32, x, y, c);
    var terms := Terms(Values(MODEL32, x), MatrixValues(MODEL32, y), c);
    var ns := seq(|x|, k requires 0 <= k < |x| => Quarters(x[k]) * Quarters(y[k][c]));
    forall k | 0 <= k < |x|
      ensures Sixteenths(products[k], ns[k]) && -256 <= ns[k] <= 256 && Values(MODEL32, products)[k] == terms[k]
    {
      ProductExactAt(x, y, columns, c, k);
    }
    assert Values(MODEL32, products) == terms;
    SumExact(products, ns, 256, |x|);
    n := IntegerTotal(ns, |x|);
  }

  lemma ReluExact(a: F32, n: int)
    requires Sixteenths(a, n)
    ensures Sixteenths(Relu32(a), if n < 0 then 0 else n)
    ensures Value32(Relu32(a)) == Clamp(Value32(a))
  {
    PositiveValue(a.value);
    QuantaAtLeast(n, SIXTEENTH);
  }

  /** One activated column of the emitted order. */
  lemma ColumnExact(relu: bool, x: seq<F32>, y: seq<seq<F32>>, columns: nat, c: nat) returns (n: int)
    requires QuarterCase(x, y, columns) && c < columns && Area(|x|, 256) <= TWO_24
    ensures Sixteenths(ProductRow(OPS32, relu, x, y, columns, columns)[c], n)
            && 0 - Area(|x|, 256) <= n <= Area(|x|, 256)
    ensures Value32(ProductRow(OPS32, relu, x, y, columns, columns)[c])
         == ColumnSums(Values(MODEL32, x), MatrixValues(MODEL32, y), relu, columns)[c]
  {
    n := DotExact(x, y, columns, c);
    ReluExact(Dot(OPS32, x, y, c), n);
    if relu && n < 0 {
      n := 0;
    }
  }

  function SixteenthsOf(a: F32): int {
    (16.0 * Value32(a)).Floor
  }

  lemma SixteenthsUnique(a: F32, n: int)
    requires Sixteenths(a, n)
    ensures SixteenthsOf(a) == n
  {
    QuantaProduct(n, SIXTEENTH);
  }

  lemma ColumnsExact(relu: bool, x: seq<F32>, y: seq<seq<F32>>, columns: nat, row: seq<F32>) returns (ns: seq<int>)
    requires QuarterCase(x, y, columns) && (columns > 0 ==> Area(|x|, 256) <= TWO_24)
    requires row == ProductRow(OPS32, relu, x, y, columns, columns)
    ensures AllSixteenths(row, ns, Area(|x|, 256))
    ensures Values(MODEL32, row) == ColumnSums(Values(MODEL32, x), MatrixValues(MODEL32, y), relu, columns)
  {
    ns := seq(columns, c requires 0 <= c < columns => SixteenthsOf(row[c]));
    forall c | 0 <= c < columns
      ensures Sixteenths(row[c], ns[c]) && 0 - Area(|x|, 256) <= ns[c] <= Area(|x|, 256)
      ensures Value32(row[c]) == ColumnSums(Values(MODEL32, x), MatrixValues(MODEL32, y), relu, columns)[c]
    {
      var n := ColumnExact(relu, x, y, columns, c);
      SixteenthsUnique(row[c], n);
    }
  }

  /** 256 K C sixteenths, the largest a row can reach, is still a binary32 value. */
  predicate FitsMantissa(inner: nat, columns: nat) {
    256 * inner * columns <= TWO_24
  }

  lemma {:induction false} AreasFit(inner: nat, columns: nat)
    requires FitsMantissa(inner, columns)
    ensures Area(columns, Area(inner, 256)) <= TWO_24
    ensures columns > 0 ==> Area(inner, 256) <= TWO_24
  {
    FlatIsProduct(inner, 0, 256);
    FlatIsProduct(columns, 0, Area(inner, 256));
    Reordered(inner, columns, Area(inner, 256));
    if columns > 0 {
      AreaMonotone(1, columns, Area(inner, 256));
    }
  }

  lemma Reordered(inner: nat, columns: nat, cap: nat)
    requires cap == inner * 256
    ensures columns * cap == 256 * inner * columns
  {
  }

  /** The emitted order rounds nowhere: on quarter-integers with 256 K C <= 2^24 its result is the
      exact one, and without ReLU it is the oracle's, which sums B's rows first. */
  lemma EmittedOrderIsExact(relu: bool, x: seq<F32>, y: seq<seq<F32>>, columns: nat)
    requires QuarterCase(x, y, columns) && FitsMantissa(|x|, columns)
    ensures RowResult(OPS32, relu, x, y, columns).Rounded?
    ensures Value32(RowResult(OPS32, relu, x, y, columns))
         == ReferenceValue(relu, Values(MODEL32, x), MatrixValues(MODEL32, y), columns)
  {
    var vx, vy := Values(MODEL32, x), MatrixValues(MODEL32, y);
    var row := ProductRow(OPS32, relu, x, y, columns, columns);
    AreasFit(|x|, columns);
    var ns := ColumnsExact(relu, x, y, columns, row);
    SumExact(row, ns, Area(|x|, 256), columns);
    SumInterchange(vx, vy, columns);
  }

  /** Whole launch: the kernels on quarter-integers, on host loops or in any interleaving of threads,
      store the oracle's numbers. */
  lemma KernelsMatchOracle(rows: nat, inner: nat, columns: nat, a: seq<F32>, b: seq<F32>,
                           projection: seq<F32>, output: seq<F32>, r: nat)
    requires Fills(OPS32, Projection(rows, inner, columns, a, b), projection)
    requires Fills(OPS32, RowSums(rows, columns, projection), output)
    requires r < rows && FitsMantissa(inner, columns)
    requires QuarterInputs(a) && QuarterInputs(b)
    ensures
      var x, y := Nested(a, rows, inner)[r], Nested(b, inner, columns);
      output[r].Rounded? && Value32(output[r])
        == ContractedFirst(Values(MODEL32, x), MatrixValues(MODEL32, y), columns, inner)
  {
    var x, y := Nested(a, rows, inner)[r], Nested(b, inner, columns);
    forall c | 0 <= c < inner
      ensures QuarterInput(x[c])
    {
      assert x[c] == a[Flat(r, c, inner)];
    }
    forall k, c | 0 <= k < inner && 0 <= c < columns
      ensures QuarterInput(y[k][c])
    {
      assert y[k][c] == b[Flat(k, c, columns)];
    }
    KernelsComputeChain(OPS32, false, rows, inner, columns, a, b, projection, projection, output);
    EmittedOrderIsExact(false, x, y, columns);
  }
}
