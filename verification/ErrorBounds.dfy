/**
  Rounding error of the chain matmul, ReLU, row sum: computed sequentially in any arithmetic whose
  operations have relative error at most u = 2^-24, it stays within gamma_n times the sum of the
  absolute products of the exact result, n = inner + columns + 1, for every shape.
 */
module ErrorBounds {
  import opened Rounding
  import opened Arithmetic

  // ----- Exact sums -----

  type Reals = seq<real>

  predicate Rectangular(y: seq<Reals>, columns: nat) {
    forall i | 0 <= i < |y| :: |y[i]| == columns
  }

  function Magnitudes(xs: Reals): (ms: Reals)
    ensures |ms| == |xs| && forall i | 0 <= i < |xs| :: ms[i] == Abs(xs[i])
  {
    seq(|xs|, i requires 0 <= i < |xs| => Abs(xs[i]))
  }

  function MatrixMagnitudes(ys: seq<Reals>): (ms: seq<Reals>)
    ensures |ms| == |ys| && forall i | 0 <= i < |ys| :: ms[i] == Magnitudes(ys[i])
  {
    seq(|ys|, i requires 0 <= i < |ys| => Magnitudes(ys[i]))
  }

  /** The exact terms of row x times column c of y. */
  function Terms(x: Reals, y: seq<Reals>, c: nat): (ts: Reals)
    requires |x| == |y| && forall i | 0 <= i < |y| :: c < |y[i]|
    ensures |ts| == |x| && forall k | 0 <= k < |x| :: ts[k] == x[k] * y[k][c]
  {
    seq(|x|, k requires 0 <= k < |x| => x[k] * y[k][c])
  }

  function Total(xs: Reals, n: nat): real
    requires n <= |xs|
  {
    if n == 0 then 0.0 else Total(xs, n - 1) + xs[n - 1]
  }

  /** ReLU, where the program has one. */
  function RealActivated(v: real, relu: bool): real {
    if relu then Clamp(v) else v
  }

  /** The exact columns of one row of the product, activated. */
  function ColumnSums(x: Reals, y: seq<Reals>, relu: bool, columns: nat): (ts: Reals)
    requires |x| == |y| && Rectangular(y, columns)
    ensures |ts| == columns
    ensures forall c | 0 <= c < columns :: ts[c] == RealActivated(Total(Terms(x, y, c), |x|), relu)
  {
    seq(columns, c requires 0 <= c < columns => RealActivated(Total(Terms(x, y, c), |x|), relu))
  }

  /** The reference as the code computes it without ReLU: sum B's rows first, then contract with A. */
  function ContractedFirst(x: Reals, y: seq<Reals>, columns: nat, k: nat): real
    requires k <= |x| == |y| && Rectangular(y, columns)
  {
    if k == 0 then 0.0
    else ContractedFirst(x, y, columns, k - 1) + x[k - 1] * Total(y[k - 1], columns)
  }

  /** The column sum of the first k terms of every product. */
  function PartialSum(x: Reals, y: seq<Reals>, columns: nat, k: nat, n: nat): real
    requires k <= |x| == |y| && Rectangular(y, columns) && n <= columns
  {
    if n == 0 then 0.0 else PartialSum(x, y, columns, k, n - 1) + Total(Terms(x, y, n - 1), k)
  }

  lemma {:induction false} PartialSumStep(x: Reals, y: seq<Reals>, columns: nat, k: nat, n: nat)
    requires 0 < k <= |x| == |y| && Rectangular(y, columns) && n <= columns
    ensures PartialSum(x, y, columns, k, n) == PartialSum(x, y, columns, k - 1, n) + x[k - 1] * Total(y[k - 1], n)
  {
    if n > 0 {
      PartialSumStep(x, y, columns, k, n - 1);
      var a, t, v := x[k - 1], Total(y[k - 1], n - 1), y[k - 1][n - 1];
      assert a * (t + v) == a * t + a * v;
    }
  }

  lemma {:induction false} PartialSumNothing(x: Reals, y: seq<Reals>, columns: nat, n: nat)
    requires |x| == |y| && Rectangular(y, columns) && n <= columns
    ensures PartialSum(x, y, columns, 0, n) == 0.0
  {
    if n > 0 {
      PartialSumNothing(x, y, columns, n - 1);
    }
  }

  lemma {:induction false} PartialSumContracted(x: Reals, y: seq<Reals>, columns: nat, k: nat)
    requires k <= |x| == |y| && Rectangular(y, columns)
    ensures PartialSum(x, y, columns, k, columns) == ContractedFirst(x, y, columns, k)
  {
    if k == 0 {
      PartialSumNothing(x, y, columns, columns);
    } else {
      PartialSumContracted(x, y, columns, k - 1);
      PartialSumStep(x, y, columns, k, columns);
    }
  }

  lemma {:induction false} ColumnsArePartialSum(x: Reals, y: seq<Reals>, columns: nat, n: nat)
    requires |x| == |y| && Rectangular(y, columns) && n <= columns
    ensures Total(ColumnSums(x, y, false, columns), n) == PartialSum(x, y, columns, |x|, n)
  {
    if n > 0 {
      ColumnsArePartialSum(x, y, columns, n - 1);
    }
  }

  /** Sum interchange: contracting B first gives the sum over columns of the products, for all shapes. */
  lemma SumInterchange(x: Reals, y: seq<Reals>, columns: nat)
    requires |x| == |y| && Rectangular(y, columns)
    ensures Total(ColumnSums(x, y, false, columns), columns) == ContractedFirst(x, y, columns, |x|)
  {
    ColumnsArePartialSum(x, y, columns, columns);
    PartialSumContracted(x, y, columns, |x|);
  }

  // ----- Growth of the error -----

  /** (1 + u)^n. */
  function Growth(n: nat): (g: real)
    ensures g >= 1.0
  {
    if n == 0 then 1.0 else Growth(n - 1) * (1.0 + UNIT_ROUNDOFF)
  }

  const GAMMA_LIMIT := TWO_24

  /** gamma_n = n u / (1 - n u). */
  function Gamma(n: nat): real
    requires n < GAMMA_LIMIT
  {
    n as real * UNIT_ROUNDOFF / (1.0 - n as real * UNIT_ROUNDOFF)
  }

  lemma GrowthStep(g: real, h: real)
    requires g >= 1.0 && 0.0 < h <= 1.0 && g * h <= 1.0
    ensures g * (1.0 + UNIT_ROUNDOFF) * (h - UNIT_ROUNDOFF) <= 1.0
  {
    var gh := g * h;
    assert gh <= g by {
      Scaled(h, 1.0, g);
    }
    assert g * (1.0 + UNIT_ROUNDOFF) * (h - UNIT_ROUNDOFF)
        == gh + UNIT_ROUNDOFF * (gh - g) - UNIT_ROUNDOFF * UNIT_ROUNDOFF * g;
  }

  lemma {:induction false} GrowthTimesRest(n: nat)
    requires n <= GAMMA_LIMIT
    ensures Growth(n) * (1.0 - n as real * UNIT_ROUNDOFF) <= 1.0
  {
    if n > 0 {
      GrowthTimesRest(n - 1);
      GrowthStep(Growth(n - 1), 1.0 - (n - 1) as real * UNIT_ROUNDOFF);
    }
  }

  /** (1 + u)^n - 1 <= gamma_n whenever n u < 1. */
  lemma GrowthWithinGamma(n: nat)
    requires n < GAMMA_LIMIT
    ensures Growth(n) - 1.0 <= Gamma(n)
  {
    GrowthTimesRest(n);
    var h := 1.0 - n as real * UNIT_ROUNDOFF;
    QuotientOf(Growth(n), h);
  }

  lemma LessOne(g: real, h: real)
    ensures (g - 1.0) * h == g * h - h
  {
  }

  lemma QuotientOf(g: real, h: real)
    requires 0.0 < h && g * h <= 1.0
    ensures g - 1.0 <= (1.0 - h) / h
  {
    var q := Quotient(1.0 - h, h);
    LessOne(g, h);
    if q < g - 1.0 {
      StrictlyScaled(q, g - 1.0, h);
    }
  }

  /** ((1 + u)^n - 1) m, as the error grows: one more rounding adds u times what is there. */
  function Bound(n: nat, m: real): (b: real)
    ensures m >= 0.0 ==> b >= 0.0
  {
    if n == 0 then 0.0 else Bound(n - 1, m) + UNIT_ROUNDOFF * (Bound(n - 1, m) + m)
  }

  lemma {:induction false} BoundIsGrowth(n: nat, m: real)
    ensures Bound(n, m) == (Growth(n) - 1.0) * m
  {
    if n > 0 {
      BoundIsGrowth(n - 1, m);
      var g := Growth(n - 1);
      assert (g * (1.0 + UNIT_ROUNDOFF) - 1.0) * m == (g - 1.0) * m + UNIT_ROUNDOFF * ((g - 1.0) * m + m);
    }
  }

  lemma {:induction false} BoundAdds(n: nat, a: real, b: real)
    ensures Bound(n, a + b) == Bound(n, a) + Bound(n, b)
  {
    if n > 0 {
      BoundAdds(n - 1, a, b);
    }
  }

  lemma {:induction false} BoundMonotone(k: nat, n: nat, m: real)
    requires k <= n && m >= 0.0
    ensures Bound(k, m) <= Bound(n, m)
  {
    if k < n {
      BoundMonotone(k, n - 1, m);
    }
  }

  predicate Near(x: real, y: real, d: real) {
    x - y <= d && y - x <= d
  }

  /** The contract's budget: gamma_n times a size. */
  function Budget(n: nat, s: real): real
    requires n < GAMMA_LIMIT
  {
    Gamma(n) * s
  }

  /** The budget without division: gamma_n s (2^24 - n) = n s. */
  lemma BudgetInNumbers(n: nat, s: real) returns (d: real, left: real, right: real)
    requires n < 16777216
    ensures d == Budget(n, s) && left == d * (16777216 - n) as real && right == n as real * s && left == right
  {
    var g, h := Gamma(n), 1.0 - n as real * UNIT_ROUNDOFF;
    assert g * h == n as real * UNIT_ROUNDOFF;
    d := Budget(n, s);
    CrossMultiplied(g, h, n as real, s, d, (16777216 - n) as real);
    left, right := d * (16777216 - n) as real, n as real * s;
  }

  lemma CrossMultiplied(g: real, h: real, n: real, s: real, d: real, rest: real)
    requires g * h == n / 16777216.0 && d == g * s && rest == 16777216.0 * h
    ensures d * rest == n * s
  {
    assert d * rest == 16777216.0 * (g * h) * s;
  }

  /** What being within the budget says, in whole numbers of unit roundoffs. */
  lemma WithinInNumbers(n: nat, v: real, exact: real, s: real)
    requires n < 16777216 && Near(v, exact, Budget(n, s))
    ensures (v - exact) * (16777216 - n) as real <= n as real * s
    ensures (exact - v) * (16777216 - n) as real <= n as real * s
  {
    var d, left, right := BudgetInNumbers(n, s);
    AtMostScaled(v - exact, d, (16777216 - n) as real);
    AtMostScaled(exact - v, d, (16777216 - n) as real);
  }

  lemma AtMostScaled(x: real, y: real, q: real)
    requires x <= y && q > 0.0
    ensures x * q <= y * q
  {
  }

  /** An error of n roundings is within the budget. */
  lemma WithinGamma(n: nat, s: real, v: real, exact: real)
    requires n < GAMMA_LIMIT && s >= 0.0 && Near(v, exact, Bound(n, s))
    ensures Near(v, exact, Budget(n, s))
  {
    BoundIsGrowth(n, s);
    GrowthWithinGamma(n);
    LargerFactor(Growth(n) - 1.0, Gamma(n), s, Bound(n, s), v, exact);
  }

  lemma LargerFactor(b: real, g: real, s: real, bs: real, v: real, exact: real)
    requires b <= g && s >= 0.0 && bs == b * s && Near(v, exact, bs)
    ensures Near(v, exact, g * s)
  {
    var gs := Larger(b, g, s, bs);
    assert Near(v, exact, gs);
  }

  lemma Larger(b: real, g: real, s: real, bs: real) returns (gs: real)
    requires b <= g && s >= 0.0 && bs == b * s
    ensures gs == g * s && bs <= gs
  {
    gs := g * s;
    assert gs - bs == (g - b) * s;
  }

  lemma RoundedNear(s: real, S: real, d: real, N: real, r: real)
    requires Near(s, S, d) && Near(S, 0.0, N) && Near(r, s, UNIT_ROUNDOFF * Abs(s))
    ensures Near(r, S, d + UNIT_ROUNDOFF * (d + N))
  {
    assert Abs(s) <= d + N;
  }

  /** If two terms are within Bound(n) of their exact values, their rounded sum is within Bound(n + 1). */
  lemma SumStep(n: nat, t: real, T: real, M: real, x: real, X: real, m: real, r: real)
    requires Near(T, 0.0, M) && Near(X, 0.0, m)
    requires Near(t, T, Bound(n, M)) && Near(x, X, Bound(n, m))
    requires Near(r, t + x, UNIT_ROUNDOFF * Abs(t + x))
    ensures Near(r, T + X, Bound(n + 1, M + m))
    ensures Near(T + X, 0.0, M + m)
  {
    BoundAdds(n, M, m);
    RoundedNear(t + x, T + X, Bound(n, M + m), M + m, r);
  }

  // ----- Any arithmetic with small relative error -----

  /** An arithmetic, which results are defined, and what they stand for. */
  datatype Model<!F> = Model(ops: Ops<F>, ok: F -> bool, value: F -> real)

  /** Defined sums come from defined operands and are off by at most u, relatively. */
  ghost predicate AddsFaithfully<F(!new)>(m: Model<F>) {
    && m.ok(m.ops.zero) && m.value(m.ops.zero) == 0.0
    && (forall a, b | m.ok(m.ops.add(a, b)) :: m.ok(a) && m.ok(b) && AddNear(m, a, b))
  }

  ghost predicate AddNear<F>(m: Model<F>, a: F, b: F) {
    Near(m.value(m.ops.add(a, b)), m.value(a) + m.value(b), UNIT_ROUNDOFF * Abs(m.value(a) + m.value(b)))
  }

  ghost predicate MultipliesFaithfully<F(!new)>(m: Model<F>) {
    && (forall a, b | m.ok(m.ops.mul(a, b)) :: m.ok(a) && m.ok(b))
    && (forall a, b, t | m.ok(m.ops.mul(a, b)) :: MulNear(m, a, b, t))
  }

  /** The rounded product is near t when t is the exact product. */
  ghost predicate MulNear<F>(m: Model<F>, a: F, b: F, t: real) {
    t == m.value(a) * m.value(b) ==> Near(m.value(m.ops.mul(a, b)), t, UNIT_ROUNDOFF * Abs(t))
  }

  /** ReLU is exact. */
  ghost predicate ClampsExactly<F(!new)>(m: Model<F>) {
    forall a | m.ok(m.ops.relu(a)) :: m.ok(a) && m.value(m.ops.relu(a)) == Clamp(m.value(a))
  }

  ghost predicate Faithful<F(!new)>(m: Model<F>) {
    AddsFaithfully(m) && MultipliesFaithfully(m) && ClampsExactly(m)
  }

  /** Every defined entry of xs stands for the exact value e, up to n roundings of magnitude s. */
  ghost predicate AllNear<F>(m: Model<F>, xs: seq<F>, exact: Reals, sizes: Reals, n: nat) {
    && |xs| == |exact| == |sizes|
    && forall i | 0 <= i < |xs| ::
         Near(exact[i], 0.0, sizes[i]) && (m.ok(xs[i]) ==> Near(m.value(xs[i]), exact[i], Bound(n, sizes[i])))
  }

  /** Summing k terms adds k roundings. */
  lemma {:induction false} SumError<F(!new)>(m: Model<F>, xs: seq<F>, exact: Reals, sizes: Reals, n: nat, k: nat)
    requires AddsFaithfully(m) && AllNear(m, xs, exact, sizes, n) && k <= |xs| && m.ok(Sum(m.ops, xs, k))
    ensures Near(Total(exact, k), 0.0, Total(sizes, k))
    ensures Near(m.value(Sum(m.ops, xs, k)), Total(exact, k), Bound(n + k, Total(sizes, k)))
  {
    if k > 0 {
      var value, x := Sum(m.ops, xs, k - 1), xs[k - 1];
      assert m.ok(value) && m.ok(x) && AddNear(m, value, x);
      SumError(m, xs, exact, sizes, n, k - 1);
      BoundMonotone(n, n + k - 1, sizes[k - 1]);
      SumStep(n + k - 1, m.value(value), Total(exact, k - 1), Total(sizes, k - 1),
              m.value(x), exact[k - 1], sizes[k - 1], m.value(Sum(m.ops, xs, k)));
    }
  }

  function Values<F>(m: Model<F>, xs: seq<F>): (vs: Reals)
    ensures |vs| == |xs| && forall i | 0 <= i < |xs| :: vs[i] == m.value(xs[i])
  {
    seq(|xs|, i requires 0 <= i < |xs| => m.value(xs[i]))
  }

  function MatrixValues<F>(m: Model<F>, y: seq<seq<F>>): (vs: seq<Reals>)
    ensures |vs| == |y| && forall i | 0 <= i < |y| :: vs[i] == Values(m, y[i])
  {
    seq(|y|, i requires 0 <= i < |y| => Values(m, y[i]))
  }

  lemma AbsOfProduct(a: real, b: real)
    ensures Abs(a * b) == Abs(a) * Abs(b)
  {
  }

  lemma MagnitudesOfTerms(x: Reals, y: seq<Reals>, c: nat)
    requires |x| == |y| && forall i | 0 <= i < |y| :: c < |y[i]|
    ensures Terms(Magnitudes(x), MatrixMagnitudes(y), c) == Magnitudes(Terms(x, y, c))
  {
    forall k | 0 <= k < |x|
      ensures Terms(Magnitudes(x), MatrixMagnitudes(y), c)[k] == Magnitudes(Terms(x, y, c))[k]
    {
      AbsOfProduct(x[k], y[k][c]);
    }
  }

  lemma ProductsNear<F(!new)>(m: Model<F>, x: seq<F>, y: seq<seq<F>>, c: nat)
    requires MultipliesFaithfully(m) && |x| == |y| && forall i | 0 <= i < |y| :: c < |y[i]|
    ensures
      var terms := Terms(Values(m, x), MatrixValues(m, y), c);
      AllNear(m, Products(m.ops, x, y, c), terms, Magnitudes(terms), 1)
  {
    var terms := Terms(Values(m, x), MatrixValues(m, y), c);
    var products := Products(m.ops, x, y, c);
    forall k | 0 <= k < |x|
      ensures m.ok(products[k]) ==> Near(m.value(products[k]), terms[k], Bound(1, Abs(terms[k])))
    {
      assert m.ok(products[k]) ==> MulNear(m, x[k], y[k][c], terms[k]);
      OneRounding(Abs(terms[k]));
    }
  }

  lemma OneRounding(s: real)
    ensures Bound(1, s) == UNIT_ROUNDOFF * s
  {
    assert Bound(0, s) == 0.0;
  }

  /** Sizes of the columns: the sums of the absolute terms. */
  function ColumnSizes(x: Reals, y: seq<Reals>, columns: nat): Reals
    requires |x| == |y| && Rectangular(y, columns)
  {
    ColumnSums(Magnitudes(x), MatrixMagnitudes(y), false, columns)
  }

  /** A column is off by its K + 1 roundings, and ReLU, being 1-Lipschitz, does not add to that. */
  lemma ColumnsNear<F(!new)>(m: Model<F>, relu: bool, x: seq<F>, y: seq<seq<F>>, columns: nat)
    requires Faithful(m) && Shaped(y, |x|, columns)
    ensures
      var vx, vy := Values(m, x), MatrixValues(m, y);
      AllNear(m, ProductRow(m.ops, relu, x, y, columns, columns), ColumnSums(vx, vy, relu, columns),
              ColumnSizes(vx, vy, columns), |x| + 1)
  {
    var vx, vy := Values(m, x), MatrixValues(m, y);
    var row := ProductRow(m.ops, relu, x, y, columns, columns);
    forall c | 0 <= c < columns
      ensures
        var exact, size := ColumnSums(vx, vy, relu, columns)[c], ColumnSizes(vx, vy, columns)[c];
        && Near(exact, 0.0, size)
        && (m.ok(row[c]) ==> Near(m.value(row[c]), exact, Bound(|x| + 1, size)))
    {
      DotNear(m, x, y, c);
      MagnitudesOfTerms(vx, vy, c);
      assert m.ok(row[c]) ==> m.ok(Dot(m.ops, x, y, c));
    }
  }

  lemma DotNear<F(!new)>(m: Model<F>, x: seq<F>, y: seq<seq<F>>, c: nat)
    requires AddsFaithfully(m) && MultipliesFaithfully(m) && |x| == |y| && forall i | 0 <= i < |y| :: c < |y[i]|
    ensures
      var terms := Terms(Values(m, x), MatrixValues(m, y), c);
      var size := Total(Magnitudes(terms), |x|);
      && Near(Total(terms, |x|), 0.0, size)
      && (m.ok(Dot(m.ops, x, y, c)) ==> Near(m.value(Dot(m.ops, x, y, c)), Total(terms, |x|), Bound(|x| + 1, size)))
  {
    var terms := Terms(Values(m, x), MatrixValues(m, y), c);
    ProductsNear(m, x, y, c);
    TotalWithinSizes(terms, Magnitudes(terms), |x|);
    if m.ok(Dot(m.ops, x, y, c)) {
      SumError(m, Products(m.ops, x, y, c), terms, Magnitudes(terms), 1, |x|);
    }
  }

  lemma {:induction false} TotalWithinSizes(xs: Reals, sizes: Reals, n: nat)
    requires n <= |xs| == |sizes| && forall i | 0 <= i < |xs| :: Near(xs[i], 0.0, sizes[i])
    ensures Near(Total(xs, n), 0.0, Total(sizes, n))
  {
    if n > 0 {
      TotalWithinSizes(xs, sizes, n - 1);
    }
  }

  /** The contract's budget without gamma: the sum of all absolute products of the row. */
  function AbsoluteSum(x: Reals, y: seq<Reals>, columns: nat): real
    requires |x| == |y| && Rectangular(y, columns)
  {
    ContractedFirst(Magnitudes(x), MatrixMagnitudes(y), columns, |x|)
  }

  /** The program's result is off by its n = K + C + 1 roundings. */
  lemma ChainError<F(!new)>(m: Model<F>, relu: bool, x: seq<F>, y: seq<seq<F>>, columns: nat)
    returns (v: real, exact: real, size: real)
    requires Faithful(m) && Shaped(y, |x|, columns) && m.ok(RowResult(m.ops, relu, x, y, columns))
    ensures v == m.value(RowResult(m.ops, relu, x, y, columns))
    ensures exact == Total(ColumnSums(Values(m, x), MatrixValues(m, y), relu, columns), columns)
    ensures size == AbsoluteSum(Values(m, x), MatrixValues(m, y), columns)
    ensures Near(v, exact, Bound(|x| + columns + 1, size)) && size >= 0.0
  {
    var vx, vy := Values(m, x), MatrixValues(m, y);
    ColumnsNear(m, relu, x, y, columns);
    SumError(m, ProductRow(m.ops, relu, x, y, columns, columns), ColumnSums(vx, vy, relu, columns),
             ColumnSizes(vx, vy, columns), |x| + 1, columns);
    SumInterchange(Magnitudes(vx), MatrixMagnitudes(vy), columns);
    v, exact := m.value(RowResult(m.ops, relu, x, y, columns)), Total(ColumnSums(vx, vy, relu, columns), columns);
    size := AbsoluteSum(vx, vy, columns);
  }

  /** The rounding-error theorem. Every defined result of the sequential program, with ReLU after
      the product or without it, is within gamma_n of the exact result, n = inner + columns + 1. */
  lemma ChainWithinGamma<F(!new)>(m: Model<F>, relu: bool, x: seq<F>, y: seq<seq<F>>, columns: nat, n: nat)
    returns (v: real, exact: real, size: real)
    requires Faithful(m) && Shaped(y, |x|, columns) && n == |x| + columns + 1 < GAMMA_LIMIT
    requires m.ok(RowResult(m.ops, relu, x, y, columns))
    ensures v == m.value(RowResult(m.ops, relu, x, y, columns))
    ensures exact == Total(ColumnSums(Values(m, x), MatrixValues(m, y), relu, columns), columns)
    ensures size == AbsoluteSum(Values(m, x), MatrixValues(m, y), columns)
    ensures Near(v, exact, Budget(n, size))
  {
    v, exact, size := ChainError(m, relu, x, y, columns);
    WithinGamma(n, size, v, exact);
  }
}
