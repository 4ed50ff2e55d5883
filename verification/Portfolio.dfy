/**
  The four graph families (examples/bounded_dag_compiler.py, graph_for) and the hand-written oracle
  that never looks at them (examples/bounded_dag_c11.py, reference_outputs): for every family, shape
  and input the oracle's outputs are the graph's.
 */
module Portfolio {
  import opened Wrappers
  import opened Graphs
  import opened Arithmetic
  import opened Kernels

  datatype Family = ChainFamily | FanoutFamily | FaninFamily | DiamondFamily

  // Tensors by name.
  const A := 0
  const B := 1
  const PROJECTION := 2
  const ACTIVATED := 3
  const ROW_SUM := 4
  const RAW := 5
  const LEFT := 6
  const RIGHT := 7
  const WEIGHTS := 8
  const SECOND := 9

  const MAX_DIMENSION := 64

  function FamilyShapes(rows: nat, inner: nat, columns: nat): (shapes: seq<Shape>)
    ensures |shapes| == 10
  {
    [[rows, inner], [inner, columns], [rows, columns], [rows, columns], [rows], [rows],
     [rows, inner], [inner, columns], [columns, inner], [rows, inner]]
  }

  function FamilyOperations(family: Family): seq<Operation> {
    match family
    case ChainFamily =>
      [Operation(Matmul, [A, B], PROJECTION), Operation(Relu, [PROJECTION], ACTIVATED),
       Operation(SumAxis1, [ACTIVATED], ROW_SUM)]
    case FanoutFamily =>
      [Operation(Matmul, [A, B], PROJECTION), Operation(Relu, [PROJECTION], ACTIVATED),
       Operation(SumAxis1, [PROJECTION], RAW), Operation(SumAxis1, [ACTIVATED], ROW_SUM)]
    case FaninFamily =>
      [Operation(Relu, [A], LEFT), Operation(Relu, [B], RIGHT), Operation(Matmul, [LEFT, RIGHT], PROJECTION),
       Operation(SumAxis1, [PROJECTION], ROW_SUM)]
    case DiamondFamily =>
      [Operation(Relu, [A], LEFT), Operation(Relu, [B], RIGHT), Operation(Matmul, [LEFT, RIGHT], PROJECTION),
       Operation(Relu, [PROJECTION], ACTIVATED), Operation(Matmul, [ACTIVATED, WEIGHTS], SECOND),
       Operation(SumAxis1, [PROJECTION], RAW), Operation(SumAxis1, [SECOND], ROW_SUM)]
  }

  function FamilyGraph(family: Family, rows: nat, inner: nat, columns: nat): Graph {
    Graph(FamilyShapes(rows, inner, columns), FamilyOperations(family))
  }

  predicate Dimension(d: nat) {
    1 <= d <= MAX_DIMENSION
  }

  /** The constructor of the public intent, list by list. */
  method GraphFor(family: Family, rows: nat, inner: nat, columns: nat) returns (r: Result<Graph>)
    ensures r.Ok? <==> 1 <= rows <= 64 && 1 <= inner <= 64 && 1 <= columns <= 64
    ensures r.Ok? ==> r.value == FamilyGraph(family, rows, inner, columns)
  {
    if !(Dimension(rows) && Dimension(inner) && Dimension(columns)) {
      return Err("bounded DAG portfolio shape rejected");
    }
    var operations: seq<Operation>;
    if family == ChainFamily || family == FanoutFamily {
      operations := [Operation(Matmul, [A, B], PROJECTION), Operation(Relu, [PROJECTION], ACTIVATED)];
      if family == FanoutFamily {
        operations := operations + [Operation(SumAxis1, [PROJECTION], RAW)];
      }
      operations := operations + [Operation(SumAxis1, [ACTIVATED], ROW_SUM)];
    } else {
      operations := [Operation(Relu, [A], LEFT), Operation(Relu, [B], RIGHT),
                     Operation(Matmul, [LEFT, RIGHT], PROJECTION)];
      if family == DiamondFamily {
        operations := operations + [Operation(Relu, [PROJECTION], ACTIVATED),
                                    Operation(Matmul, [ACTIVATED, WEIGHTS], SECOND),
                                    Operation(SumAxis1, [PROJECTION], RAW), Operation(SumAxis1, [SECOND], ROW_SUM)];
      } else {
        operations := operations + [Operation(SumAxis1, [PROJECTION], ROW_SUM)];
      }
    }
    return Ok(Graph(FamilyShapes(rows, inner, columns), operations));
  }

  // ----- What operations compute on flat buffers -----

  function MatmulValues<F>(ops: Ops<F>, m: nat, k: nat, n: nat, left: seq<F>, right: seq<F>): (r: seq<F>)
    requires |left| == Area(m, k) && |right| == Area(k, n)
    ensures Fills(ops, Projection(m, k, n, left, right), r)
  {
    seq(Area(m, n), i requires 0 <= i < Area(m, n) => Cell(ops, Projection(m, k, n, left, right), i))
  }

  function SumValues<F>(ops: Ops<F>, rows: nat, width: nat, values: seq<F>): (r: seq<F>)
    requires |values| == Area(rows, width)
    ensures Fills(ops, RowSums(rows, width, values), r)
  {
    seq(rows, i requires 0 <= i < rows => Cell(ops, RowSums(rows, width, values), i))
  }

  function ReluValues<F>(ops: Ops<F>, values: seq<F>): (r: seq<F>)
    ensures Fills(ops, ReluEach(values), r)
  {
    seq(|values|, i requires 0 <= i < |values| => ops.relu(values[i]))
  }

  function Extent(g: Graph, t: Tensor, axis: nat): nat {
    if t < |g.shapes| && axis < |g.shapes[t]| then g.shapes[t][axis] else 0
  }

  /** The compiled kernel of operation i; no value where operands do not have their shapes. */
  function OperationValue<F>(ops: Ops<F>, g: Graph, i: nat, args: seq<seq<F>>): seq<F> {
    if i >= |g.operations| || |args| != |g.operations[i].inputs| then []
    else
      var op := g.operations[i];
      match op.kind
      case Matmul =>
        if |args| == 2 then
          var m, k, n := Extent(g, op.inputs[0], 0), Extent(g, op.inputs[0], 1), Extent(g, op.inputs[1], 1);
          if |args[0]| == Area(m, k) && |args[1]| == Area(k, n)
          then MatmulValues(ops, m, k, n, args[0], args[1])
          else []
        else []
      case Relu => if |args| == 1 then ReluValues(ops, args[0]) else []
      case SumAxis1 =>
        if |args| == 1 && |args[0]| == Area(Extent(g, op.inputs[0], 0), Extent(g, op.inputs[0], 1))
        then SumValues(ops, Extent(g, op.inputs[0], 0), Extent(g, op.inputs[0], 1), args[0])
        else []
  }

  function KernelSemantics<F>(ops: Ops<F>, g: Graph): Semantics<seq<F>> {
    (i: nat, args: seq<seq<F>>) => OperationValue(ops, g, i, args)
  }

  function NamedInputs<F>(a: seq<F>, b: seq<F>, weights: seq<F>): Tensor -> seq<F> {
    (t: Tensor) => if t == A then a else if t == B then b else if t == WEIGHTS then weights else []
  }

  // ----- The oracle -----

  /** The oracle's innermost loop. */
  method OracleEntry<F>(ops: Ops<F>, left: seq<F>, right: seq<F>, m: nat, k: nat, n: nat, row: nat, column: nat)
    returns (value: F)
    requires |left| == Area(m, k) && |right| == Area(k, n)
    requires row < m && column < n && Flat(row, column, n) < Area(m, n)
    ensures value == Cell(ops, Projection(m, k, n, left, right), Flat(row, column, n))
  {
    FlatSplit(row, column, n);
    value := ops.zero;
    for reduction := 0 to k
      invariant value == Accumulated(ops, Projection(m, k, n, left, right), Flat(row, column, n), reduction)
    {
      FlatIsProduct(row, reduction, k);
      FlatIsProduct(reduction, column, n);
      FlatInRange(row, reduction, m, k);
      FlatInRange(reduction, column, k, n);
      var product := ops.mul(left[row * k + reduction], right[reduction * n + column]);
      value := ops.add(value, product);
    }
  }

  method OracleMatmul<F>(ops: Ops<F>, left: seq<F>, right: seq<F>, m: nat, k: nat, n: nat) returns (output: seq<F>)
    requires |left| == Area(m, k) && |right| == Area(k, n)
    ensures output == MatmulValues(ops, m, k, n, left, right)
  {
    ghost var kernel := Projection(m, k, n, left, right);
    output := [];
    for row := 0 to m
      invariant |output| == Area(row, n)
      invariant forall i | 0 <= i < |output| :: i < Area(m, n) && output[i] == Cell(ops, kernel, i)
    {
      for column := 0 to n
        invariant |output| == Flat(row, column, n)
        invariant forall i | 0 <= i < |output| :: i < Area(m, n) && output[i] == Cell(ops, kernel, i)
      {
        FlatInRange(row, column, m, n);
        FlatSplit(row, column, n);
        FlatNext(row, column, n);
        var value := OracleEntry(ops, left, right, m, k, n, row, column);
        output := output + [value];
      }
      FlatNext(row, 0, n);
    }
  }

  method OracleRowSums<F>(ops: Ops<F>, rows: nat, values: seq<F>, width: nat) returns (result: seq<F>)
    requires |values| == Area(rows, width)
    ensures result == SumValues(ops, rows, width, values)
  {
    ghost var kernel := RowSums(rows, width, values);
    result := [];
    for row := 0 to rows
      invariant |result| == row
      invariant forall i | 0 <= i < row :: result[i] == Cell(ops, kernel, i)
    {
      var value := ops.zero;
      for column := 0 to width
        invariant value == Accumulated(ops, kernel, row, column)
      {
        FlatIsProduct(row, column, width);
        FlatInRange(row, column, rows, width);
        value := ops.add(value, values[row * width + column]);
      }
      result := result + [value];
    }
  }

  /** raw is only present where the family publishes it. */
  datatype Outputs<F> = Outputs(raw: Option<seq<F>>, rowSum: seq<F>)

  function Projected<F>(ops: Ops<F>, family: Family, rows: nat, inner: nat, columns: nat, a: seq<F>,
                        b: seq<F>): (p: seq<F>)
    requires |a| == Area(rows, inner) && |b| == Area(inner, columns)
    ensures |p| == Area(rows, columns)
  {
    if family == FaninFamily || family == DiamondFamily
    then MatmulValues(ops, rows, inner, columns, ReluValues(ops, a), ReluValues(ops, b))
    else MatmulValues(ops, rows, inner, columns, a, b)
  }

  /** The oracle's answer, family by family. */
  function Reference<F>(ops: Ops<F>, family: Family, rows: nat, inner: nat, columns: nat,
                        a: seq<F>, b: seq<F>, weights: seq<F>): Outputs<F>
    requires |a| == Area(rows, inner) && |b| == Area(inner, columns) && |weights| == Area(columns, inner)
  {
    var projection := Projected(ops, family, rows, inner, columns, a, b);
    match family
    case ChainFamily => Outputs(None, SumValues(ops, rows, columns, ReluValues(ops, projection)))
    case FanoutFamily =>
      Outputs(Some(SumValues(ops, rows, columns, projection)),
              SumValues(ops, rows, columns, ReluValues(ops, projection)))
    case FaninFamily => Outputs(None, SumValues(ops, rows, columns, projection))
    case DiamondFamily =>
      var second := MatmulValues(ops, rows, columns, inner, ReluValues(ops, projection), weights);
      Outputs(Some(SumValues(ops, rows, columns, projection)), SumValues(ops, rows, inner, second))
  }

  method ReferenceOutputs<F>(ops: Ops<F>, family: Family, rows: nat, inner: nat, columns: nat,
                             a: seq<F>, b: seq<F>, weights: seq<F>) returns (r: Outputs<F>)
    requires |a| == Area(rows, inner) && |b| == Area(inner, columns) && |weights| == Area(columns, inner)
    ensures r == Reference(ops, family, rows, inner, columns, a, b, weights)
  {
    var left, right := a, b;
    if family == FaninFamily || family == DiamondFamily {
      left, right := ReluValues(ops, left), ReluValues(ops, right);
    }
    var projection := OracleMatmul(ops, left, right, rows, inner, columns);
    if family == DiamondFamily {
      var second := OracleMatmul(ops, ReluValues(ops, projection), weights, rows, columns, inner);
      var raw := OracleRowSums(ops, rows, projection, columns);
      var rowSum := OracleRowSums(ops, rows, second, inner);
      return Outputs(Some(raw), rowSum);
    }
    if family == FanoutFamily {
      var raw := OracleRowSums(ops, rows, projection, columns);
      var rowSum := OracleRowSums(ops, rows, ReluValues(ops, projection), columns);
      return Outputs(Some(raw), rowSum);
    }
    var rowSum := OracleRowSums(ops, rows, if family == ChainFamily then ReluValues(ops, projection) else projection,
                                columns);
    return Outputs(None, rowSum);
  }

  // ----- The oracle is the graph -----

  lemma FamilySingleAssignment(family: Family, rows: nat, inner: nat, columns: nat)
    ensures SingleAssignment(FamilyGraph(family, rows, inner, columns))
  {
  }

  lemma FamilyReadsBackward(family: Family, rows: nat, inner: nat, columns: nat)
    ensures ReadsBackward(FamilyGraph(family, rows, inner, columns))
  {
  }

  lemma FamilyIsAGraph(family: Family, rows: nat, inner: nat, columns: nat)
    ensures SingleAssignment(FamilyGraph(family, rows, inner, columns))
    ensures ReadsBackward(FamilyGraph(family, rows, inner, columns))
  {
    FamilySingleAssignment(family, rows, inner, columns);
    FamilyReadsBackward(family, rows, inner, columns);
  }

  lemma Equation<F>(ops: Ops<F>, g: Graph, inputs: Tensor -> seq<F>, i: nat)
    requires SingleAssignment(g) && ReadsBackward(g) && i < |g.operations|
    ensures ValueOf(g, KernelSemantics(ops, g), inputs, g.operations[i].output)
         == OperationValue(ops, g, i, ValuesOf(g, KernelSemantics(ops, g), inputs, g.operations[i].inputs))
  {
    forall k | 0 <= k < |g.operations[i].inputs|
      ensures SettledBy(g, i, g.operations[i].inputs[k])
    {
      forall j | i <= j < |g.operations|
        ensures g.operations[j].output != g.operations[i].inputs[k]
      {
        assert g.operations[j].output !in g.operations[i].inputs;
      }
    }
    ProducerEquation(g, KernelSemantics(ops, g), inputs, i);
  }

  /** Defining equations, kernel by kernel. */
  lemma ReluEquation<F>(ops: Ops<F>, g: Graph, inputs: Tensor -> seq<F>, i: nat, t: Tensor)
    requires SingleAssignment(g) && ReadsBackward(g)
    requires i < |g.operations| && g.operations[i].kind == Relu && g.operations[i].inputs == [t]
    ensures ValueOf(g, KernelSemantics(ops, g), inputs, g.operations[i].output)
         == ReluValues(ops, ValueOf(g, KernelSemantics(ops, g), inputs, t))
  {
    Equation(ops, g, inputs, i);
  }

  lemma SumEquation<F>(ops: Ops<F>, g: Graph, inputs: Tensor -> seq<F>, i: nat, t: Tensor, rows: nat, width: nat)
    requires SingleAssignment(g) && ReadsBackward(g)
    requires i < |g.operations| && g.operations[i].kind == SumAxis1 && g.operations[i].inputs == [t]
    requires t < |g.shapes| && g.shapes[t] == [rows, width]
    requires |ValueOf(g, KernelSemantics(ops, g), inputs, t)| == Area(rows, width)
    ensures ValueOf(g, KernelSemantics(ops, g), inputs, g.operations[i].output)
         == SumValues(ops, rows, width, ValueOf(g, KernelSemantics(ops, g), inputs, t))
  {
    Equation(ops, g, inputs, i);
  }

  lemma MatmulEquation<F>(ops: Ops<F>, g: Graph, inputs: Tensor -> seq<F>, i: nat, t: Tensor, u: Tensor, m: nat,
                          k: nat, n: nat)
    requires SingleAssignment(g) && ReadsBackward(g)
    requires i < |g.operations| && g.operations[i].kind == Matmul && g.operations[i].inputs == [t, u]
    requires t < |g.shapes| && g.shapes[t] == [m, k] && u < |g.shapes| && g.shapes[u] == [k, n]
    requires |ValueOf(g, KernelSemantics(ops, g), inputs, t)| == Area(m, k)
    requires |ValueOf(g, KernelSemantics(ops, g), inputs, u)| == Area(k, n)
    ensures ValueOf(g, KernelSemantics(ops, g), inputs, g.operations[i].output)
         == MatmulValues(ops, m, k, n, ValueOf(g, KernelSemantics(ops, g), inputs, t),
                         ValueOf(g, KernelSemantics(ops, g), inputs, u))
  {
    Equation(ops, g, inputs, i);
  }

  lemma InputEquation<F>(ops: Ops<F>, g: Graph, inputs: Tensor -> seq<F>, t: Tensor)
    requires !Produced(g, t)
    ensures ValueOf(g, KernelSemantics(ops, g), inputs, t) == inputs(t)
  {
    ExternalInputKeepsItsValue(g, KernelSemantics(ops, g), inputs, t);
  }

  /** The projection, the same in the oracle and in the graph. */
  lemma ProjectionAgrees<F>(ops: Ops<F>, family: Family, rows: nat, inner: nat, columns: nat,
                            a: seq<F>, b: seq<F>, weights: seq<F>)
    requires |a| == Area(rows, inner) && |b| == Area(inner, columns)
    ensures
      var g := FamilyGraph(family, rows, inner, columns);
      ValueOf(g, KernelSemantics(ops, g), NamedInputs(a, b, weights), PROJECTION)
      == Projected(ops, family, rows, inner, columns, a, b)
  {
    var g := FamilyGraph(family, rows, inner, columns);
    var inputs := NamedInputs(a, b, weights);
    FamilyIsAGraph(family, rows, inner, columns);
    InputEquation(ops, g, inputs, A);
    InputEquation(ops, g, inputs, B);
    if family == ChainFamily || family == FanoutFamily {
      MatmulEquation(ops, g, inputs, 0, A, B, rows, inner, columns);
    } else {
      ReluEquation(ops, g, inputs, 0, A);
      ReluEquation(ops, g, inputs, 1, B);
      MatmulEquation(ops, g, inputs, 2, LEFT, RIGHT, rows, inner, columns);
    }
  }

  /** The graph's outputs with the oracle's values. */
  ghost predicate Agrees<F>(ops: Ops<F>, g: Graph, inputs: Tensor -> seq<F>, r: Outputs<F>) {
    && Terminals(g) == (if r.raw.Some? then {RAW, ROW_SUM} else {ROW_SUM})
    && ValueOf(g, KernelSemantics(ops, g), inputs, ROW_SUM) == r.rowSum
    && (r.raw.Some? ==> ValueOf(g, KernelSemantics(ops, g), inputs, RAW) == r.raw.value)
  }

  lemma TerminalsOf(family: Family, rows: nat, inner: nat, columns: nat)
    ensures Terminals(FamilyGraph(family, rows, inner, columns))
         == if family == FanoutFamily || family == DiamondFamily then {RAW, ROW_SUM} else {ROW_SUM}
  {
    var g := FamilyGraph(family, rows, inner, columns);
    InnerTensorsConsumed(family, rows, inner, columns);
    if family == FanoutFamily {
      assert g.operations[2].output == RAW && g.operations[3].output == ROW_SUM;
    } else if family == DiamondFamily {
      assert g.operations[5].output == RAW && g.operations[6].output == ROW_SUM;
    } else {
      assert g.operations[|g.operations| - 1].output == ROW_SUM;
    }
    assert !Consumed(g, ROW_SUM) && !Consumed(g, RAW);
  }

  lemma InnerTensorsConsumed(family: Family, rows: nat, inner: nat, columns: nat)
    ensures
      var g := FamilyGraph(family, rows, inner, columns);
      forall i | 0 <= i < |g.operations| ::
        g.operations[i].output != ROW_SUM && g.operations[i].output != RAW ==> Consumed(g, g.operations[i].output)
  {
    var g := FamilyGraph(family, rows, inner, columns);
    var ops := g.operations;
    if family == ChainFamily || family == FanoutFamily {
      assert PROJECTION == ops[1].inputs[0] && ACTIVATED == ops[|ops| - 1].inputs[0];
    } else {
      assert LEFT == ops[2].inputs[0] && RIGHT == ops[2].inputs[1] && PROJECTION == ops[3].inputs[0];
      if family == DiamondFamily {
        assert ACTIVATED == ops[4].inputs[0] && SECOND == ops[6].inputs[0];
      }
    }
  }

  lemma SumsAgree<F>(ops: Ops<F>, family: Family, rows: nat, inner: nat, columns: nat, a: seq<F>, b: seq<F>,
                     weights: seq<F>)
    requires |a| == Area(rows, inner) && |b| == Area(inner, columns) && |weights| == Area(columns, inner)
    requires family != DiamondFamily
    ensures
      var g := FamilyGraph(family, rows, inner, columns);
      Agrees(ops, g, NamedInputs(a, b, weights), Reference(ops, family, rows, inner, columns, a, b, weights))
  {
    var g := FamilyGraph(family, rows, inner, columns);
    var inputs := NamedInputs(a, b, weights);
    FamilyIsAGraph(family, rows, inner, columns);
    TerminalsOf(family, rows, inner, columns);
    ProjectionAgrees(ops, family, rows, inner, columns, a, b, weights);
    if family == FaninFamily {
      SumEquation(ops, g, inputs, 3, PROJECTION, rows, columns);
    } else {
      ReluEquation(ops, g, inputs, 1, PROJECTION);
      if family == FanoutFamily {
        SumEquation(ops, g, inputs, 2, PROJECTION, rows, columns);
        SumEquation(ops, g, inputs, 3, ACTIVATED, rows, columns);
      } else {
        SumEquation(ops, g, inputs, 2, ACTIVATED, rows, columns);
      }
    }
  }

  lemma DiamondAgrees<F>(ops: Ops<F>, rows: nat, inner: nat, columns: nat, a: seq<F>, b: seq<F>, weights: seq<F>)
    requires |a| == Area(rows, inner) && |b| == Area(inner, columns) && |weights| == Area(columns, inner)
    ensures
      var g := FamilyGraph(DiamondFamily, rows, inner, columns);
      Agrees(ops, g, NamedInputs(a, b, weights), Reference(ops, DiamondFamily, rows, inner, columns, a, b, weights))
  {
    var g := FamilyGraph(DiamondFamily, rows, inner, columns);
    var inputs := NamedInputs(a, b, weights);
    FamilyIsAGraph(DiamondFamily, rows, inner, columns);
    TerminalsOf(DiamondFamily, rows, inner, columns);
    ProjectionAgrees(ops, DiamondFamily, rows, inner, columns, a, b, weights);
    InputEquation(ops, g, inputs, WEIGHTS);
    ReluEquation(ops, g, inputs, 3, PROJECTION);
    MatmulEquation(ops, g, inputs, 4, ACTIVATED, WEIGHTS, rows, columns, inner);
    SumEquation(ops, g, inputs, 5, PROJECTION, rows, columns);
    SumEquation(ops, g, inputs, 6, SECOND, rows, inner);
  }

  /** For every family, shape and input, the oracle's outputs are exactly the graph's terminal
      tensors, with the values the graph's operations give them in order. */
  lemma OracleIsGraph<F>(ops: Ops<F>, family: Family, rows: nat, inner: nat, columns: nat,
                         a: seq<F>, b: seq<F>, weights: seq<F>)
    requires |a| == Area(rows, inner) && |b| == Area(inner, columns) && |weights| == Area(columns, inner)
    ensures
      var g := FamilyGraph(family, rows, inner, columns);
      Agrees(ops, g, NamedInputs(a, b, weights), Reference(ops, family, rows, inner, columns, a, b, weights))
  {
    if family == DiamondFamily {
      DiamondAgrees(ops, rows, inner, columns, a, b, weights);
    } else {
      SumsAgree(ops, family, rows, inner, columns, a, b, weights);
    }
  }
}
