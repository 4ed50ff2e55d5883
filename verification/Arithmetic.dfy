/**
  The arithmetic of the kernels and of their oracles, and the program they all share: a sequential
  product, an optional ReLU, a sequential row sum. What an operation does is a parameter.
 */
module Arithmetic {
  /** Rounded operations on a carrier F. */
  datatype Ops<!F> = Ops(zero: F, add: (F, F) -> F, mul: (F, F) -> F, relu: F -> F)

  predicate Shaped<F>(m: seq<seq<F>>, rows: nat, columns: nat) {
    |m| == rows && forall i | 0 <= i < rows :: |m[i]| == columns
  }

  /** The terms of row x times column c of y. */
  function Products<F>(ops: Ops<F>, x: seq<F>, y: seq<seq<F>>, c: nat): (ts: seq<F>)
    requires |x| == |y| && forall i | 0 <= i < |y| :: c < |y[i]|
    ensures |ts| == |x| && forall k | 0 <= k < |x| :: ts[k] == ops.mul(x[k], y[k][c])
  {
    seq(|x|, k requires 0 <= k < |x| => ops.mul(x[k], y[k][c]))
  }

  /** The accumulator of a sequential sum after n terms. */
  function Sum<F>(ops: Ops<F>, xs: seq<F>, n: nat): F
    requires n <= |xs|
  {
    if n == 0 then ops.zero else ops.add(Sum(ops, xs, n - 1), xs[n - 1])
  }

  function Dot<F>(ops: Ops<F>, x: seq<F>, y: seq<seq<F>>, c: nat): F
    requires |x| == |y| && forall i | 0 <= i < |y| :: c < |y[i]|
  {
    Sum(ops, Products(ops, x, y, c), |x|)
  }

  /** ReLU, where the program has one. */
  function Activated<F>(ops: Ops<F>, relu: bool, v: F): F {
    if relu then ops.relu(v) else v
  }

  /** The first n columns of row x of the product, activated. */
  function ProductRow<F>(ops: Ops<F>, relu: bool, x: seq<F>, y: seq<seq<F>>, columns: nat, n: nat): (r: seq<F>)
    requires Shaped(y, |x|, columns) && n <= columns
    ensures |r| == n
    ensures forall c | 0 <= c < n :: r[c] == Activated(ops, relu, Dot(ops, x, y, c))
  {
    seq(n, c requires 0 <= c < n => Activated(ops, relu, Dot(ops, x, y, c)))
  }

  /** One entry of the chain's output. */
  function RowResult<F>(ops: Ops<F>, relu: bool, x: seq<F>, y: seq<seq<F>>, columns: nat): F
    requires Shaped(y, |x|, columns)
  {
    Sum(ops, ProductRow(ops, relu, x, y, columns, columns), columns)
  }

  /** The oracle's loops: for every row, the columns of the product in order, then their sum in order. */
  method OrderedReference<F>(ops: Ops<F>, relu: bool, a: seq<seq<F>>, b: seq<seq<F>>, columns: nat)
    returns (result: seq<F>)
    requires Shaped(a, |a|, |b|) && Shaped(b, |b|, columns)
    ensures |result| == |a|
    ensures forall r | 0 <= r < |a| :: result[r] == RowResult(ops, relu, a[r], b, columns)
  {
    result := [];
    for r := 0 to |a|
      invariant |result| == r
      invariant forall i | 0 <= i < r :: result[i] == RowResult(ops, relu, a[i], b, columns)
    {
      var row := a[r];
      var projection: seq<F> := [];
      for c := 0 to columns
        invariant projection == ProductRow(ops, relu, row, b, columns, c)
      {
        var value := ops.zero;
        for k := 0 to |row|
          invariant value == Sum(ops, Products(ops, row, b, c), k)
        {
          var product := ops.mul(row[k], b[k][c]);
          value := ops.add(value, product);
        }
        projection := projection + [if relu then ops.relu(value) else value];
      }
      var value := ops.zero;
      for i := 0 to columns
        invariant value == Sum(ops, projection, i)
      {
        value := ops.add(value, projection[i]);
      }
      result := result + [value];
    }
  }
}
