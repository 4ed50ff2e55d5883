/**
  The C validator's graph checks and the whole of its plan check (docker/bounded-dag-native/contract.c,
  graph_valid and tuc_validate_plan): a graph's table passes exactly when the graph is single-assignment,
  reads backward, lists its own boundary, has conforming shapes and stays within the work limit.
 */
module GraphChecks {
  import opened Wrappers
  import opened Graphs
  import opened Residency
  import opened Conservation
  import opened PlannerProofs
  import opened Tables
  import opened GraphTables
  import opened PlannedTables

  const MAX_TENSORS := 10
  const MAX_OPERATIONS := 7
  const MAX_DIMENSION := 64
  const MAX_WORK := 1000000
  const BLOCK_THREADS := 128

  // ----- The checks on a table -----

  /** The fixed arrays hold as many entries as the counts may ask for. */
  predicate ArraysHold(rows: GraphRows) {
    && |rows.tensors| == rows.tensorCount && |rows.operations| == rows.operationCount
    && (rows.inputCount <= INPUT_SLOTS ==> rows.inputCount <= |rows.inputs|)
    && (rows.outputCount <= OUTPUT_SLOTS ==> rows.outputCount <= |rows.outputs|)
  }

  predicate CountsOk(rows: GraphRows) {
    && 1 <= rows.tensorCount <= MAX_TENSORS && 1 <= rows.operationCount <= MAX_OPERATIONS
    && 1 <= rows.inputCount <= INPUT_SLOTS && 1 <= rows.outputCount <= OUTPUT_SLOTS
  }

  predicate TensorRowOk(t: TensorRow) {
    && (t.rank == 1 || t.rank == 2) && 1 <= t.dim0 <= MAX_DIMENSION && 1 <= t.dim1 <= MAX_DIMENSION
    && (t.rank == 1 ==> t.dim1 == 1) && t.bytes == 4 * t.dim0 * t.dim1
  }

  predicate InTable(rows: GraphRows, t: int) {
    0 <= t < |rows.tensors|
  }

  /** One of the first n operations writes t. */
  predicate Makes(rows: GraphRows, n: nat, t: int) {
    exists i :: 0 <= i < n && i < |rows.operations| && rows.operations[i].op.output == t
  }

  predicate Reads(op: OpRow, t: int) {
    op.input0 == t || (op.kind == 0 && op.input1 == t)
  }

  /** One of the first n operations reads t. */
  predicate Needs(rows: GraphRows, n: nat, t: int) {
    exists i :: 0 <= i < n && i < |rows.operations| && Reads(rows.operations[i].op, t)
  }

  predicate Listed(ids: seq<int>, n: nat, t: int) {
    exists i :: 0 <= i < n && i < |ids| && ids[i] == t
  }

  predicate PortsOk(rows: GraphRows, i: nat)
    requires i < |rows.operations|
  {
    var op := rows.operations[i].op;
    && 0 <= op.kind <= 2 && InTable(rows, op.input0) && InTable(rows, op.output) && !Makes(rows, i, op.output)
    && if op.kind == 0 then InTable(rows, op.input1) else op.input1 == NONE
  }

  predicate InputOk(rows: GraphRows, i: nat)
    requires i < |rows.inputs|
  {
    InTable(rows, rows.inputs[i]) && !Makes(rows, |rows.operations|, rows.inputs[i])
    && !Listed(rows.inputs, i, rows.inputs[i])
  }

  predicate OutputOk(rows: GraphRows, i: nat)
    requires i < |rows.outputs|
  {
    && InTable(rows, rows.outputs[i]) && Makes(rows, |rows.operations|, rows.outputs[i])
    && !Needs(rows, |rows.operations|, rows.outputs[i]) && !Listed(rows.outputs, i, rows.outputs[i])
  }

  /** t is an input or the result of one of the first n operations. */
  predicate Available(rows: GraphRows, n: nat, t: int) {
    Listed(rows.inputs, rows.inputCount, t) || Makes(rows, n, t)
  }

  predicate ShapesOk(rows: GraphRows, op: OpRow)
    requires InTable(rows, op.input0) && InTable(rows, op.output) && (op.kind == 0 ==> InTable(rows, op.input1))
  {
    var a, out := rows.tensors[op.input0], rows.tensors[op.output];
    if op.kind == 0 then
      var b := rows.tensors[op.input1];
      && a.rank == 2 && b.rank == 2 && out.rank == 2
      && a.dim1 == b.dim0 && out.dim0 == a.dim0 && out.dim1 == b.dim1
    else if op.kind == 1 then a.rank == out.rank && a.dim0 == out.dim0 && a.dim1 == out.dim1
    else a.rank == 2 && out.rank == 1 && out.dim0 == a.dim0
  }

  function BlocksFor(cells: nat): nat {
    (cells + (BLOCK_THREADS - 1)) / BLOCK_THREADS
  }

  predicate OperationOk(rows: GraphRows, i: nat)
    requires i < |rows.operations| && PortsOk(rows, i)
  {
    var op, launch := rows.operations[i].op, rows.operations[i].launch;
    var out := rows.tensors[op.output];
    && Available(rows, i, op.input0) && !Available(rows, i, op.output)
    && launch == Launch(BlocksFor(out.dim0 * out.dim1), BLOCK_THREADS)
    && (op.kind == 0 ==> Available(rows, i, op.input1))
    && ShapesOk(rows, op)
  }

  function RowWork(rows: GraphRows, op: OpRow): nat {
    if !InTable(rows, op.input0) || (op.kind == 0 && !InTable(rows, op.input1)) then 0
    else
      var a := rows.tensors[op.input0];
      if op.kind == 0 then 2 * a.dim0 * a.dim1 * rows.tensors[op.input1].dim1 else a.dim0 * a.dim1
  }

  function WorkUpTo(rows: GraphRows, n: nat): nat
    requires n <= |rows.operations|
  {
    if n == 0 then 0 else WorkUpTo(rows, n - 1) + RowWork(rows, rows.operations[n - 1].op)
  }

  predicate TensorUsed(rows: GraphRows, t: nat) {
    var made, needed := Makes(rows, |rows.operations|, t), Needs(rows, |rows.operations|, t);
    && Available(rows, |rows.operations|, t) && (made || needed)
    && (made && !needed ==> Listed(rows.outputs, rows.outputCount, t))
  }

  predicate GraphRowsOk(rows: GraphRows)
    requires ArraysHold(rows)
  {
    && CountsOk(rows)
    && (forall t | 0 <= t < |rows.tensors| :: TensorRowOk(rows.tensors[t]))
    && (forall i | 0 <= i < |rows.operations| :: PortsOk(rows, i))
    && (forall i | 0 <= i < rows.inputCount :: InputOk(rows, i))
    && (forall i | 0 <= i < |rows.operations| :: OperationOk(rows, i))
    && WorkUpTo(rows, |rows.operations|) <= MAX_WORK
    && (forall i | 0 <= i < rows.outputCount :: OutputOk(rows, i))
    && (forall t | 0 <= t < |rows.tensors| :: TensorUsed(rows, t))
  }

  // ----- The C function's loops -----

  lemma {:induction false} WorkGrows(rows: GraphRows, n: nat, m: nat)
    requires n <= m <= |rows.operations|
    ensures WorkUpTo(rows, n) <= WorkUpTo(rows, m)
    decreases m
  {
    if n < m {
      WorkGrows(rows, n, m - 1);
    }
  }

  lemma MakesNext(rows: GraphRows, n: nat, t: int)
    requires n < |rows.operations|
    ensures Makes(rows, n + 1, t) <==> Makes(rows, n, t) || rows.operations[n].op.output == t
  {
  }

  lemma NeedsNext(rows: GraphRows, n: nat, t: int)
    requires n < |rows.operations|
    ensures Needs(rows, n + 1, t) <==> Needs(rows, n, t) || Reads(rows.operations[n].op, t)
  {
  }

  lemma ListedNext(ids: seq<int>, n: nat, t: int)
    requires n < |ids|
    ensures Listed(ids, n + 1, t) <==> Listed(ids, n, t) || ids[n] == t
  {
  }

  /** Every producer is collected before any operand is followed. */
  method CollectPorts(rows: GraphRows) returns (ok: bool, produced: set<int>, consumed: set<int>)
    ensures ok <==> forall i | 0 <= i < |rows.operations| :: PortsOk(rows, i)
    ensures ok ==> forall t :: t in produced <==> Makes(rows, |rows.operations|, t)
    ensures ok ==> forall t :: t in consumed <==> Needs(rows, |rows.operations|, t)
  {
    produced, consumed := {}, {};
    for i := 0 to |rows.operations|
      invariant forall k | 0 <= k < i :: PortsOk(rows, k)
      invariant forall t :: t in produced <==> Makes(rows, i, t)
      invariant forall t :: t in consumed <==> Needs(rows, i, t)
    {
      var op := rows.operations[i].op;
      if !(0 <= op.kind <= 2) || !InTable(rows, op.input0) || !InTable(rows, op.output) || op.output in produced
         || !(if op.kind == 0 then InTable(rows, op.input1) else op.input1 == NONE) {
        assert !PortsOk(rows, i);
        return false, produced, consumed;
      }
      forall t
        ensures Makes(rows, i + 1, t) <==> Makes(rows, i, t) || op.output == t
        ensures Needs(rows, i + 1, t) <==> Needs(rows, i, t) || Reads(op, t)
      {
        MakesNext(rows, i, t);
        NeedsNext(rows, i, t);
      }
      produced, consumed := produced + {op.output}, consumed + {op.input0};
      if op.kind == 0 {
        consumed := consumed + {op.input1};
      }
    }
    ok := true;
  }

  method CollectInputs(rows: GraphRows, produced: set<int>) returns (ok: bool, available: set<int>)
    requires ArraysHold(rows) && CountsOk(rows)
    requires forall t :: t in produced <==> Makes(rows, |rows.operations|, t)
    ensures ok <==> forall i | 0 <= i < rows.inputCount :: InputOk(rows, i)
    ensures ok ==> forall t :: t in available <==> Listed(rows.inputs, rows.inputCount, t)
  {
    available := {};
    for i := 0 to rows.inputCount
      invariant forall k | 0 <= k < i :: InputOk(rows, k)
      invariant forall t :: t in available <==> Listed(rows.inputs, i, t)
    {
      var t := rows.inputs[i];
      if !InTable(rows, t) || t in produced || t in available {
        assert !InputOk(rows, i);
        return false, available;
      }
      forall u
        ensures Listed(rows.inputs, i + 1, u) <==> Listed(rows.inputs, i, u) || t == u
      {
        ListedNext(rows.inputs, i, u);
      }
      available := available + {t};
    }
    ok := true;
  }

  /** The operations in order: operands available, shapes conforming, the work adding up. */
  method FollowOperands(rows: GraphRows, inputs: set<int>) returns (ok: bool, available: set<int>)
    requires forall i | 0 <= i < |rows.operations| :: PortsOk(rows, i)
    requires forall t :: t in inputs <==> Listed(rows.inputs, rows.inputCount, t)
    ensures ok <==> && (forall i | 0 <= i < |rows.operations| :: OperationOk(rows, i))
                    && WorkUpTo(rows, |rows.operations|) <= MAX_WORK
    ensures ok ==> forall t :: t in available <==> Available(rows, |rows.operations|, t)
  {
    available := inputs;
    var work := 0;
    for i := 0 to |rows.operations|
      invariant forall k | 0 <= k < i :: OperationOk(rows, k)
      invariant forall t :: t in available <==> Available(rows, i, t)
      invariant work == WorkUpTo(rows, i) <= MAX_WORK
    {
      assert PortsOk(rows, i);
      var op, launch := rows.operations[i].op, rows.operations[i].launch;
      var out := rows.tensors[op.output];
      if op.input0 !in available || op.output in available || launch.blocks != BlocksFor(out.dim0 * out.dim1)
         || launch.threads != BLOCK_THREADS || (op.kind == 0 && op.input1 !in available) || !ShapesOk(rows, op) {
        assert !OperationOk(rows, i);
        return false, available;
      }
      work := work + RowWork(rows, op);
      WorkGrows(rows, i + 1, |rows.operations|);
      if work > MAX_WORK {
        return false, available;
      }
      forall t
        ensures Makes(rows, i + 1, t) <==> Makes(rows, i, t) || op.output == t
      {
        MakesNext(rows, i, t);
      }
      available := available + {op.output};
    }
    ok := true;
  }

  method CollectOutputs(rows: GraphRows, produced: set<int>, consumed: set<int>)
    returns (ok: bool, outputs: set<int>)
    requires ArraysHold(rows) && CountsOk(rows)
    requires forall t :: t in produced <==> Makes(rows, |rows.operations|, t)
    requires forall t :: t in consumed <==> Needs(rows, |rows.operations|, t)
    ensures ok <==> forall i | 0 <= i < rows.outputCount :: OutputOk(rows, i)
    ensures ok ==> forall t :: t in outputs <==> Listed(rows.outputs, rows.outputCount, t)
  {
    outputs := {};
    for i := 0 to rows.outputCount
      invariant forall k | 0 <= k < i :: OutputOk(rows, k)
      invariant forall t :: t in outputs <==> Listed(rows.outputs, i, t)
    {
      var t := rows.outputs[i];
      if !InTable(rows, t) || t !in produced || t in consumed || t in outputs {
        assert !OutputOk(rows, i);
        return false, outputs;
      }
      forall u
        ensures Listed(rows.outputs, i + 1, u) <==> Listed(rows.outputs, i, u) || t == u
      {
        ListedNext(rows.outputs, i, u);
      }
      outputs := outputs + {t};
    }
    ok := true;
  }

  /** The whole graph check. */
  method ValidateGraph(rows: GraphRows) returns (ok: bool)
    requires ArraysHold(rows)
    ensures ok <==> GraphRowsOk(rows)
  {
    if !CountsOk(rows) {
      return false;
    }
    for t := 0 to |rows.tensors|
      invariant forall u | 0 <= u < t :: TensorRowOk(rows.tensors[u])
    {
      if !TensorRowOk(rows.tensors[t]) {
        return false;
      }
    }
    var portsOk, produced, consumed := CollectPorts(rows);
    if !portsOk {
      return false;
    }
    var inputsOk, inputs := CollectInputs(rows, produced);
    if !inputsOk {
      return false;
    }
    var operandsOk, available := FollowOperands(rows, inputs);
    if !operandsOk {
      return false;
    }
    var outputsOk, outputs := CollectOutputs(rows, produced, consumed);
    if !outputsOk {
      return false;
    }
    for t := 0 to |rows.tensors|
      invariant forall u | 0 <= u < t :: TensorUsed(rows, u)
    {
      if t !in available || (t !in produced && t !in consumed)
         || (t in produced && t !in consumed && t !in outputs) {
        assert !TensorUsed(rows, t);
        return false;
      }
    }
    ok := true;
  }

  // ----- What the checks mean for the graph -----

  predicate Lists(ids: seq<Tensor>, s: set<Tensor>) {
    && (forall i, j | 0 <= i < j < |ids| :: ids[i] != ids[j])
    && (forall t | t in ids :: t in s) && (forall t | t in s :: t in ids)
  }

  predicate SmallShape(shape: Shape) {
    1 <= |shape| <= 2 && forall k | 0 <= k < |shape| :: 1 <= shape[k] <= 64
  }

  predicate InGraph(g: Graph, op: Operation) {
    op.output < |g.shapes| && forall k | 0 <= k < |op.inputs| :: op.inputs[k] < |g.shapes|
  }

  /** The shapes of an operation's operands and result fit together. */
  predicate Conforms(g: Graph, op: Operation)
    requires InGraph(g, op) && PortsMatch(op)
  {
    var a, out := g.shapes[op.inputs[0]], g.shapes[op.output];
    match op.kind
    case Matmul =>
      var b := g.shapes[op.inputs[1]];
      |a| == 2 && |b| == 2 && a[1] == b[0] && out == [a[0], b[1]]
    case Relu => out == a
    case SumAxis1 => |a| == 2 && out == [a[0]]
  }

  /** Multiply-adds of a matmul counted twice, cells read otherwise. */
  function OperationWork(g: Graph, op: Operation): nat {
    if !InGraph(g, op) || !PortsMatch(op) then 0
    else
      var a := g.shapes[op.inputs[0]];
      if op.kind == Matmul && |g.shapes[op.inputs[1]]| == 2 then 2 * Prod(a) * g.shapes[op.inputs[1]][1] else Prod(a)
  }

  function GraphWork(g: Graph, n: nat): nat
    requires n <= |g.operations|
  {
    if n == 0 then 0 else GraphWork(g, n - 1) + OperationWork(g, g.operations[n - 1])
  }

  /** The fewest blocks of 128 threads that give every cell a thread. */
  predicate Covering(launch: Launch, cells: nat) {
    launch.threads == 128 && cells <= 128 * launch.blocks < cells + 128
  }

  lemma CoveringIff(launch: Launch, cells: nat)
    ensures launch == Launch(BlocksFor(cells), BLOCK_THREADS) <==> Covering(launch, cells)
  {
  }

  /** A graph the workers are made for, with its own boundary and launch geometry. */
  ghost predicate WellFormed(m: Manifest) {
    var g := m.graph;
    && 1 <= |g.shapes| <= 10 && 1 <= |g.operations| <= 7
    && 1 <= |m.inputs| <= 3 && 1 <= |m.outputs| <= 2 && |m.launches| == |g.operations|
    && (forall t | 0 <= t < |g.shapes| :: SmallShape(g.shapes[t]))
    && (forall i | 0 <= i < |g.operations| :: InGraph(g, g.operations[i]) && PortsMatch(g.operations[i]))
    && SingleAssignment(g) && ReadsBackward(g)
    && Lists(m.inputs, ExternalInputs(g)) && Lists(m.outputs, Terminals(g))
    && (forall t | 0 <= t < |g.shapes| :: Produced(g, t) || Consumed(g, t))
    && (forall i | 0 <= i < |g.operations| ::
          && Conforms(g, g.operations[i])
          && Covering(m.launches[i], Prod(g.shapes[g.operations[i].output])))
    && GraphWork(g, |g.operations|) <= 1000000
  }

  // ----- Table and graph, fact by fact -----

  /** A manifest with its table, nothing of it lost. */
  ghost predicate Tabulated(m: Manifest, rows: GraphRows) {
    ManifestFits(m) && EncodeManifest(m) == Ok(rows)
  }

  lemma SmallProd(shape: Shape)
    requires 1 <= |shape| <= 2
    ensures Prod(shape) == shape[0] * (if |shape| == 2 then shape[1] else 1)
  {
    if |shape| == 1 {
      assert shape[1..] == [];
    } else {
      assert shape[1..][1..] == [];
      assert Prod(shape[1..]) == shape[1] * 1;
    }
  }

  lemma TensorIff(shape: Shape)
    requires 1 <= |shape| <= 2
    ensures TensorRowOk(EncodeTensor(shape)) <==> SmallShape(shape)
  {
    SmallProd(shape);
    var row := EncodeTensor(shape);
    assert row.bytes == 4 * (row.dim0 * row.dim1) == 4 * row.dim0 * row.dim1;
  }

  ghost predicate MadeBefore(g: Graph, n: nat, t: Tensor) {
    exists i :: 0 <= i < n && i < |g.operations| && g.operations[i].output == t
  }

  lemma MakesIff(m: Manifest, rows: GraphRows, n: nat, t: Tensor)
    requires Tabulated(m, rows) && n <= |m.graph.operations|
    ensures Makes(rows, n, t) <==> MadeBefore(m.graph, n, t)
    ensures Makes(rows, |rows.operations|, t) <==> Produced(m.graph, t)
  {
    assert forall i | 0 <= i < |rows.operations| :: rows.operations[i].op.output == m.graph.operations[i].output;
  }

  lemma ReadsIff(op: Operation, t: Tensor)
    requires OperationFits(op)
    ensures Reads(EncodeOperation(op), t) <==> t in op.inputs
  {
  }

  lemma NeedsIff(m: Manifest, rows: GraphRows, t: Tensor)
    requires Tabulated(m, rows)
    ensures Needs(rows, |rows.operations|, t) <==> Consumed(m.graph, t)
  {
    forall i | 0 <= i < |rows.operations|
      ensures Reads(rows.operations[i].op, t) <==> t in m.graph.operations[i].inputs
    {
      ReadsIff(m.graph.operations[i], t);
    }
  }

  lemma ListedIff(ts: seq<Tensor>, width: nat, n: nat, t: Tensor)
    requires n <= |ts|
    ensures Listed(Padded(ts, width), n, t) <==> t in ts[..n]
    ensures forall i | 0 <= i < |ts| :: i < |Padded(ts, width)| && Padded(ts, width)[i] == ts[i]
  {
    assert forall i | 0 <= i < |ts| :: Padded(ts, width)[i] == ts[i];
    assert forall i | 0 <= i < n :: ts[..n][i] == ts[i];
  }

  lemma PortsIff(m: Manifest, rows: GraphRows)
    requires Tabulated(m, rows)
    ensures (forall i | 0 <= i < |rows.operations| :: PortsOk(rows, i))
       <==> && (forall i | 0 <= i < |m.graph.operations| :: InGraph(m.graph, m.graph.operations[i]))
            && SingleAssignment(m.graph)
  {
    var g := m.graph;
    forall i | 0 <= i < |g.operations|
      ensures PortsOk(rows, i) <==> InGraph(g, g.operations[i]) && !MadeBefore(g, i, g.operations[i].output)
    {
      assert OperationFits(g.operations[i]);
      MakesIff(m, rows, i, g.operations[i].output);
    }
    assert SingleAssignment(g) <==> forall i | 0 <= i < |g.operations| :: !MadeBefore(g, i, g.operations[i].output);
  }

  predicate DistinctIds(ids: seq<Tensor>) {
    forall i, j | 0 <= i < j < |ids| :: ids[i] != ids[j]
  }

  /** A tensor of the graph that no operation writes. */
  predicate GivenTensor(g: Graph, t: Tensor) {
    t < |g.shapes| && !Produced(g, t)
  }

  lemma InputsIff(m: Manifest, rows: GraphRows)
    requires Tabulated(m, rows)
    ensures (forall i | 0 <= i < rows.inputCount :: i < |rows.inputs| && InputOk(rows, i))
       <==> DistinctIds(m.inputs) && forall t | t in m.inputs :: GivenTensor(m.graph, t)
  {
    forall i | 0 <= i < |m.inputs|
      ensures i < |rows.inputs|
      ensures InputOk(rows, i) <==> GivenTensor(m.graph, m.inputs[i]) && m.inputs[i] !in m.inputs[..i]
    {
      ListedIff(m.inputs, INPUT_SLOTS, i, m.inputs[i]);
      MakesIff(m, rows, 0, m.inputs[i]);
    }
    assert DistinctIds(m.inputs) <==> forall i | 0 <= i < |m.inputs| :: m.inputs[i] !in m.inputs[..i];
  }

  /** A tensor of the graph that some operation writes and none reads. */
  predicate UnreadResult(g: Graph, t: Tensor) {
    t < |g.shapes| && Produced(g, t) && !Consumed(g, t)
  }

  lemma OutputsIff(m: Manifest, rows: GraphRows)
    requires Tabulated(m, rows)
    ensures (forall i | 0 <= i < rows.outputCount :: i < |rows.outputs| && OutputOk(rows, i))
       <==> DistinctIds(m.outputs) && forall t | t in m.outputs :: UnreadResult(m.graph, t)
  {
    forall i | 0 <= i < |m.outputs|
      ensures i < |rows.outputs|
      ensures OutputOk(rows, i) <==> UnreadResult(m.graph, m.outputs[i]) && m.outputs[i] !in m.outputs[..i]
    {
      ListedIff(m.outputs, OUTPUT_SLOTS, i, m.outputs[i]);
      MakesIff(m, rows, 0, m.outputs[i]);
      NeedsIff(m, rows, m.outputs[i]);
    }
    assert DistinctIds(m.outputs) <==> forall i | 0 <= i < |m.outputs| :: m.outputs[i] !in m.outputs[..i];
  }

  lemma AvailableIff(m: Manifest, rows: GraphRows, n: nat, t: Tensor)
    requires Tabulated(m, rows) && n <= |m.graph.operations|
    ensures Available(rows, n, t) <==> t in m.inputs || MadeBefore(m.graph, n, t)
  {
    ListedIff(m.inputs, INPUT_SLOTS, |m.inputs|, t);
    assert m.inputs[..|m.inputs|] == m.inputs;
    MakesIff(m, rows, n, t);
  }

  /** Every operand of operation i is listed or computed before it. */
  ghost predicate OperandsThere(m: Manifest, i: nat)
    requires i < |m.graph.operations|
  {
    forall k | 0 <= k < |m.graph.operations[i].inputs| ::
      m.graph.operations[i].inputs[k] in m.inputs || MadeBefore(m.graph, i, m.graph.operations[i].inputs[k])
  }

  lemma ShapesIff(m: Manifest, rows: GraphRows, i: nat)
    requires Tabulated(m, rows) && i < |m.graph.operations| && InGraph(m.graph, m.graph.operations[i])
    ensures 0 <= rows.operations[i].op.input0 < |rows.tensors| && 0 <= rows.operations[i].op.output < |rows.tensors|
    ensures rows.operations[i].op.kind == 0 ==> 0 <= rows.operations[i].op.input1 < |rows.tensors|
    ensures ShapesOk(rows, rows.operations[i].op) <==> Conforms(m.graph, m.graph.operations[i])
  {
    var g, op := m.graph, m.graph.operations[i];
    assert OperationFits(op);
    assert forall t | 0 <= t < |g.shapes| :: 1 <= |g.shapes[t]| <= 2 && rows.tensors[t] == EncodeTensor(g.shapes[t]);
    var out := g.shapes[op.output];
    if |out| == 1 {
      assert out == [out[0]];
    } else {
      assert out == [out[0], out[1]];
    }
    var a := g.shapes[op.inputs[0]];
    if |a| == 1 {
      assert a == [a[0]];
    } else {
      assert a == [a[0], a[1]];
    }
  }

  lemma OperationIff(m: Manifest, rows: GraphRows, i: nat)
    requires Tabulated(m, rows) && i < |m.graph.operations| && PortsOk(rows, i)
    requires InGraph(m.graph, m.graph.operations[i]) && !MadeBefore(m.graph, i, m.graph.operations[i].output)
    requires m.graph.operations[i].output !in m.inputs
    ensures OperationOk(rows, i)
       <==> && OperandsThere(m, i) && Conforms(m.graph, m.graph.operations[i])
            && Covering(m.launches[i], Prod(m.graph.shapes[m.graph.operations[i].output]))
  {
    var g, op := m.graph, m.graph.operations[i];
    CoveringIff(m.launches[i], Prod(g.shapes[op.output]));
    ShapesIff(m, rows, i);
    AvailableIff(m, rows, i, op.inputs[0]);
    AvailableIff(m, rows, i, op.output);
    if op.kind == Matmul {
      AvailableIff(m, rows, i, op.inputs[1]);
    }
    SmallProd(g.shapes[op.output]);
    assert rows.tensors[op.output] == EncodeTensor(g.shapes[op.output]);
  }

  lemma WorkIff(m: Manifest, rows: GraphRows, i: nat)
    requires Tabulated(m, rows) && i < |m.graph.operations|
    requires InGraph(m.graph, m.graph.operations[i]) && Conforms(m.graph, m.graph.operations[i])
    ensures RowWork(rows, rows.operations[i].op) == OperationWork(m.graph, m.graph.operations[i])
  {
    var g, op := m.graph, m.graph.operations[i];
    var a := g.shapes[op.inputs[0]];
    SmallProd(a);
    assert rows.tensors[op.inputs[0]] == EncodeTensor(a);
    if op.kind == Matmul {
      var b := g.shapes[op.inputs[1]];
      assert rows.tensors[op.inputs[1]] == EncodeTensor(b);
      assert 2 * a[0] * a[1] * b[1] == 2 * (a[0] * a[1]) * b[1];
    }
  }

  lemma {:induction false} TotalWorkIff(m: Manifest, rows: GraphRows, n: nat)
    requires Tabulated(m, rows) && n <= |m.graph.operations|
    requires forall i | 0 <= i < n ::
      InGraph(m.graph, m.graph.operations[i]) && Conforms(m.graph, m.graph.operations[i])
    ensures WorkUpTo(rows, n) == GraphWork(m.graph, n)
  {
    if n > 0 {
      TotalWorkIff(m, rows, n - 1);
      WorkIff(m, rows, n - 1);
      assert GraphWork(m.graph, n) == GraphWork(m.graph, n - 1) + OperationWork(m.graph, m.graph.operations[n - 1]);
    }
  }

  lemma UsedIff(m: Manifest, rows: GraphRows, t: Tensor)
    requires Tabulated(m, rows)
    ensures TensorUsed(rows, t)
       <==> && (t in m.inputs || Produced(m.graph, t)) && (Produced(m.graph, t) || Consumed(m.graph, t))
            && (Produced(m.graph, t) && !Consumed(m.graph, t) ==> t in m.outputs)
  {
    AvailableIff(m, rows, |m.graph.operations|, t);
    MakesIff(m, rows, |m.graph.operations|, t);
    NeedsIff(m, rows, t);
    ListedIff(m.outputs, OUTPUT_SLOTS, |m.outputs|, t);
    assert m.outputs[..|m.outputs|] == m.outputs;
  }

  // ----- The boundary and the order -----

  /** Operands that are listed inputs or earlier results, inputs nobody produces: nothing reads ahead. */
  lemma ThereReadsBackward(m: Manifest)
    requires SingleAssignment(m.graph) && forall t | t in m.inputs :: !Produced(m.graph, t)
    requires forall i | 0 <= i < |m.graph.operations| :: OperandsThere(m, i)
    ensures ReadsBackward(m.graph)
  {
    var g := m.graph;
    forall i, j | 0 <= i <= j < |g.operations|
      ensures g.operations[j].output !in g.operations[i].inputs
    {
      var t := g.operations[j].output;
      assert OperandsThere(m, i) && Produced(g, t) && t !in m.inputs && !MadeBefore(g, i, t);
      assert forall k | 0 <= k < |g.operations[i].inputs| :: g.operations[i].inputs[k] != t;
    }
  }

  /** The other way round, the listed boundary provides every operand. */
  lemma BackwardIsThere(m: Manifest, i: nat)
    requires ReadsBackward(m.graph) && Lists(m.inputs, ExternalInputs(m.graph)) && i < |m.graph.operations|
    ensures OperandsThere(m, i)
  {
    var g := m.graph;
    forall k | 0 <= k < |g.operations[i].inputs|
      ensures g.operations[i].inputs[k] in m.inputs || MadeBefore(g, i, g.operations[i].inputs[k])
    {
      var t := g.operations[i].inputs[k];
      if Produced(g, t) {
        var j :| 0 <= j < |g.operations| && g.operations[j].output == t;
        assert j < i;
      } else {
        assert t in ExternalInputs(g);
      }
    }
  }

  lemma ListedBoundary(m: Manifest)
    requires DistinctIds(m.inputs) && DistinctIds(m.outputs)
    requires forall t | t in m.inputs :: GivenTensor(m.graph, t)
    requires forall t | t in m.outputs :: UnreadResult(m.graph, t)
    requires forall i | 0 <= i < |m.graph.operations| :: InGraph(m.graph, m.graph.operations[i])
    requires forall t | 0 <= t < |m.graph.shapes| ::
      && (t in m.inputs || Produced(m.graph, t)) && (Produced(m.graph, t) || Consumed(m.graph, t))
      && (Produced(m.graph, t) && !Consumed(m.graph, t) ==> t in m.outputs)
    ensures Lists(m.inputs, ExternalInputs(m.graph)) && Lists(m.outputs, Terminals(m.graph))
  {
    var g := m.graph;
    forall t | t in m.inputs
      ensures t in ExternalInputs(g)
    {
      var i :| 0 <= i < |g.operations| && t in g.operations[i].inputs;
      var k :| 0 <= k < |g.operations[i].inputs| && g.operations[i].inputs[k] == t;
      assert !Produced(g, g.operations[i].inputs[k]);
    }
    forall t | t in ExternalInputs(g)
      ensures t in m.inputs
    {
      var i, k :| 0 <= i < |g.operations| && 0 <= k < |g.operations[i].inputs|
                  && !Produced(g, g.operations[i].inputs[k]) && g.operations[i].inputs[k] == t;
      assert InGraph(g, g.operations[i]);
    }
    forall t | t in Terminals(g)
      ensures t in m.outputs
    {
      var i :| 0 <= i < |g.operations| && !Consumed(g, g.operations[i].output) && g.operations[i].output == t;
      assert InGraph(g, g.operations[i]) && Produced(g, t);
    }
  }

  // ----- The graph check decides well-formedness -----

  lemma PassingIsWellFormed(m: Manifest, rows: GraphRows)
    requires Tabulated(m, rows) && ArraysHold(rows) && GraphRowsOk(rows)
    ensures WellFormed(m)
  {
    var g := m.graph;
    forall t | 0 <= t < |g.shapes|
      ensures SmallShape(g.shapes[t])
    {
      assert TensorRowOk(rows.tensors[t]);
      TensorIff(g.shapes[t]);
    }
    PortsIff(m, rows);
    InputsIff(m, rows);
    OutputsIff(m, rows);
    forall i | 0 <= i < |g.operations|
      ensures OperandsThere(m, i) && PortsMatch(g.operations[i]) && Conforms(g, g.operations[i])
      ensures Covering(m.launches[i], Prod(g.shapes[g.operations[i].output]))
    {
      assert OperationFits(g.operations[i]) && PortsOk(rows, i) && OperationOk(rows, i);
      MakesIff(m, rows, i, g.operations[i].output);
      assert Produced(g, g.operations[i].output);
      OperationIff(m, rows, i);
    }
    ThereReadsBackward(m);
    forall t | 0 <= t < |g.shapes|
      ensures (t in m.inputs || Produced(g, t)) && (Produced(g, t) || Consumed(g, t))
      ensures Produced(g, t) && !Consumed(g, t) ==> t in m.outputs
    {
      assert TensorUsed(rows, t);
      UsedIff(m, rows, t);
    }
    ListedBoundary(m);
    TotalWorkIff(m, rows, |g.operations|);
  }

  lemma WellFormedFits(m: Manifest)
    requires WellFormed(m)
    ensures ManifestFits(m) && EncodeManifest(m).Ok?
  {
    var g := m.graph;
    forall i | 0 <= i < |g.operations|
      ensures OperationFits(g.operations[i])
    {
      assert InGraph(g, g.operations[i]) && PortsMatch(g.operations[i]);
    }
    BoundaryInGraph(m);
    assert forall t | 0 <= t < |g.shapes| :: SmallShape(g.shapes[t]);
  }

  lemma BoundaryInGraph(m: Manifest)
    requires forall i | 0 <= i < |m.graph.operations| :: InGraph(m.graph, m.graph.operations[i])
    requires Lists(m.inputs, ExternalInputs(m.graph)) && Lists(m.outputs, Terminals(m.graph))
    ensures forall t | t in m.inputs :: GivenTensor(m.graph, t) && Consumed(m.graph, t)
    ensures forall t | t in m.outputs :: UnreadResult(m.graph, t)
  {
    var g := m.graph;
    forall t | t in ExternalInputs(g)
      ensures t < |g.shapes| && !Produced(g, t) && Consumed(g, t)
    {
      var i, k :| 0 <= i < |g.operations| && 0 <= k < |g.operations[i].inputs|
                  && !Produced(g, g.operations[i].inputs[k]) && g.operations[i].inputs[k] == t;
      assert InGraph(g, g.operations[i]);
    }
    forall t | t in Terminals(g)
      ensures UnreadResult(g, t)
    {
      var i :| 0 <= i < |g.operations| && !Consumed(g, g.operations[i].output) && g.operations[i].output == t;
      assert InGraph(g, g.operations[i]);
    }
  }

  lemma WellFormedOperations(m: Manifest, rows: GraphRows)
    requires WellFormed(m) && Tabulated(m, rows) && forall i | 0 <= i < |rows.operations| :: PortsOk(rows, i)
    ensures forall i | 0 <= i < |rows.operations| :: OperationOk(rows, i)
  {
    var g := m.graph;
    BoundaryInGraph(m);
    forall i | 0 <= i < |g.operations|
      ensures OperationOk(rows, i)
    {
      assert InGraph(g, g.operations[i]) && Produced(g, g.operations[i].output);
      assert !MadeBefore(g, i, g.operations[i].output);
      BackwardIsThere(m, i);
      OperationIff(m, rows, i);
    }
  }

  lemma WellFormedTensors(m: Manifest, rows: GraphRows)
    requires WellFormed(m) && Tabulated(m, rows)
    ensures forall t | 0 <= t < |rows.tensors| :: TensorRowOk(rows.tensors[t]) && TensorUsed(rows, t)
  {
    var g := m.graph;
    forall t | 0 <= t < |rows.tensors|
      ensures TensorRowOk(rows.tensors[t]) && TensorUsed(rows, t)
    {
      TensorIff(g.shapes[t]);
      UsedIff(m, rows, t);
      if !Produced(g, t) {
        var i :| 0 <= i < |g.operations| && t in g.operations[i].inputs;
        var k :| 0 <= k < |g.operations[i].inputs| && g.operations[i].inputs[k] == t;
        assert t in ExternalInputs(g);
      } else if !Consumed(g, t) {
        var i :| 0 <= i < |g.operations| && g.operations[i].output == t;
        assert t in Terminals(g);
      }
    }
  }

  lemma WellFormedPasses(m: Manifest, rows: GraphRows)
    requires WellFormed(m) && Tabulated(m, rows)
    ensures ArraysHold(rows) && GraphRowsOk(rows)
  {
    ListedIff(m.inputs, INPUT_SLOTS, 0, 0);
    ListedIff(m.outputs, OUTPUT_SLOTS, 0, 0);
    BoundaryInGraph(m);
    PortsIff(m, rows);
    InputsIff(m, rows);
    OutputsIff(m, rows);
    WellFormedOperations(m, rows);
    WellFormedTensors(m, rows);
    TotalWorkIff(m, rows, |m.graph.operations|);
  }

  lemma EncodedArraysHold(m: Manifest)
    requires EncodeManifest(m).Ok?
    ensures ArraysHold(EncodeManifest(m).value)
  {
    ListedIff(m.inputs, INPUT_SLOTS, 0, 0);
    ListedIff(m.outputs, OUTPUT_SLOTS, 0, 0);
  }

  /** The C graph check accepts the table of a manifest, and the table loses nothing of it, exactly when
      the manifest is well formed. */
  lemma GraphCheckIff(m: Manifest)
    requires EncodeManifest(m).Ok?
    ensures ArraysHold(EncodeManifest(m).value)
    ensures GraphRowsOk(EncodeManifest(m).value) && ManifestFits(m) <==> WellFormed(m)
  {
    EncodedArraysHold(m);
    var rows := EncodeManifest(m).value;
    if GraphRowsOk(rows) && ManifestFits(m) {
      PassingIsWellFormed(m, rows);
    }
    if WellFormed(m) {
      WellFormedFits(m);
      WellFormedPasses(m, rows);
    }
  }

  // ----- The whole plan check -----

  const GRAPH_COUNT := 12

  /** A plan's table: its graph's index, its header, targets by operation, buffers and events. */
  datatype PlanTable = PlanTable(graph: nat, header: Header, targets: seq<int>, buffers: seq<BufferRow>,
                                 events: seq<Row>)

  predicate PlanRowsOk(rows: GraphRows, plan: PlanTable)
    requires ArraysHold(rows) && |plan.targets| == |rows.operations|
  {
    var view := Viewed(rows, plan.targets);
    && GraphRowsOk(rows) && HeaderOk(view, plan.header, plan.buffers, plan.events)
    && TableAccepts(view, plan.buffers, plan.events)
  }

  /** The whole C function: a graph and a plan pass exactly when they are the reviewed ones, the expected
      plan is too, and every rule holds. */
  method ValidatePlan(graphs: seq<GraphRows>, plans: seq<PlanTable>, rows: GraphRows, plan: PlanTable,
                      expected: PlanTable)
    returns (ok: bool)
    requires |graphs| == 12 && |plans| == 36
    requires ArraysHold(rows) && |plan.targets| == |rows.operations|
    ensures ok <==> && plan.graph < 12 && PlanRowsOk(rows, plan) && rows == graphs[plan.graph]
                    && plan == expected == plans[3 * plan.graph + plan.header.profile]
  {
    if plan.graph >= GRAPH_COUNT {
      return false;
    }
    var graphOk := ValidateGraph(rows);
    if !graphOk {
      return false;
    }
    var rulesOk := ValidateTable(Viewed(rows, plan.targets), plan.header, plan.buffers, plan.events);
    if !rulesOk {
      return false;
    }
    ok := rows == graphs[plan.graph] && expected == plans[3 * plan.graph + plan.header.profile] && plan == expected;
  }

  /** Every rule of the C function, on the tables of an accepted plan and its manifest, in their own terms. */
  lemma PlanRulesIff(c: Context, m: Manifest, p: Plan, graph: nat, profile: nat)
    requires Targeted(c, p.buffers) && Accepted(c, p) && m.graph == c.graph
    requires EncodeManifest(m).Ok? && ManifestFits(m)
    ensures HasRows(p.steps) && ArraysHold(EncodeManifest(m).value)
    ensures
      var table := PlanTable(graph, HeaderOf(p, profile), EncodeGraph(c).targets, EncodeBuffers(p.buffers),
                             EncodeEvents(p.steps));
      PlanRowsOk(EncodeManifest(m).value, table)
      <==> && WellFormed(m) && FitsProfile(c, p, profile)
           && DistinctPairs(p.buffers) && LatePublications(c.graph, p.steps)
  {
    GraphCheckIff(m);
    TableAcceptsIff(c, p);
    HeaderIff(c, p, profile);
    if WellFormed(m) {
      ViewIsEncoded(c, m);
    }
  }
}
