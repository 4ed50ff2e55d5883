/**
  The compiler's tables as C initializers (examples/bounded_dag_native.py, _graph_initializer and
  _plan_initializer): every table the workers are made for is within the renderer's limits, and the
  text determines the table.
 */
module TableText {
  import opened Wrappers
  import opened Graphs
  import opened Residency
  import opened Schedules
  import opened Conservation
  import opened PlannedTables
  import opened Tables
  import opened GraphTables
  import opened GraphChecks
  import opened Initializers

  function Numbers(ns: seq<int>): (v: Nest)
    ensures v.Group? && |v.items| == |ns| && forall i | 0 <= i < |ns| :: v.items[i] == Leaf(ns[i])
  {
    Group(seq(|ns|, i requires 0 <= i < |ns| => Leaf(ns[i])))
  }

  /** A list of lists of numbers. */
  function NumberRows(lists: seq<seq<int>>): (v: Nest)
    ensures v.Group? && |v.items| == |lists| && forall i | 0 <= i < |lists| :: v.items[i] == Numbers(lists[i])
  {
    Group(seq(|lists|, i requires 0 <= i < |lists| => Numbers(lists[i])))
  }

  function TensorNumbers(t: TensorRow): seq<int> {
    [t.rank, t.dim0, t.dim1, t.bytes]
  }

  function OperationNumbers(o: LaunchedRow): seq<int> {
    [o.op.kind, o.op.input0, o.op.input1, o.op.output, o.launch.blocks, o.launch.threads]
  }

  function BufferNumbers(b: BufferRow): seq<int> {
    [b.tensor, b.space, b.bytes]
  }

  function RowNumbers(r: Row): seq<int> {
    [r.kind, r.operation, r.target, r.input0, r.input1, r.output]
  }

  /** The rows of a table as lists of numbers. */
  function Listing<T>(rows: seq<T>, numbers: T -> seq<int>): (lists: seq<seq<int>>)
    ensures |lists| == |rows| && forall i | 0 <= i < |rows| :: lists[i] == numbers(rows[i])
  {
    seq(|rows|, i requires 0 <= i < |rows| => numbers(rows[i]))
  }

  /** The nested list of one graph. */
  function GraphNest(rows: GraphRows): Nest {
    Group([Leaf(rows.tensorCount), Leaf(rows.operationCount), Leaf(rows.inputCount), Leaf(rows.outputCount),
           NumberRows(Listing(rows.tensors, TensorNumbers)), NumberRows(Listing(rows.operations, OperationNumbers)),
           Numbers(rows.inputs), Numbers(rows.outputs)])
  }

  /** The nested list of one plan. */
  function PlanNest(p: PlanTable): Nest {
    Group([Leaf(p.graph), Leaf(p.header.profile), Leaf(|p.buffers|), Leaf(|p.events|),
           Leaf(p.header.bufferBytes), Leaf(p.header.copyBytes), Numbers(p.targets),
           NumberRows(Listing(p.buffers, BufferNumbers)), NumberRows(Listing(p.events, RowNumbers))])
  }

  // ----- Sizes -----

  predicate Small(n: int) {
    0 <= n <= 1000000
  }

  predicate AllSmall(ns: seq<int>) {
    forall i | 0 <= i < |ns| :: Small(ns[i])
  }

  lemma {:induction false} OnesTotal(ns: seq<nat>, k: nat, each: nat)
    requires k <= |ns| && forall i | 0 <= i < |ns| :: ns[i] == each
    ensures Total(ns, k) == k * each
  {
    if k > 0 {
      OnesTotal(ns, k - 1, each);
      assert k * each == (k - 1) * each + each;
    }
  }

  /** A list of small numbers renders, and counts one node a number and one for itself. */
  lemma NumbersRender(ns: seq<int>, depth: nat)
    requires AllSmall(ns) && |ns| <= 96 && depth <= 4
    ensures Renderable(Numbers(ns), depth) && Nodes(Numbers(ns)) == 1 + |ns|
  {
    GroupUnfolded(Numbers(ns));
    OnesTotal(NodeCounts(Numbers(ns).items), |ns|, 1);
  }

  /** A list of equally long lists of small numbers. */
  lemma RowsRender(lists: seq<seq<int>>, width: nat, depth: nat)
    requires |lists| <= 96 && width <= 96 && depth <= 3
    requires forall i | 0 <= i < |lists| :: |lists[i]| == width && AllSmall(lists[i])
    ensures Renderable(NumberRows(lists), depth) && Nodes(NumberRows(lists)) == 1 + |lists| * (1 + width)
  {
    var v := NumberRows(lists);
    forall i | 0 <= i < |lists|
      ensures Renderable(v.items[i], depth + 1) && Nodes(v.items[i]) == 1 + width
    {
      NumbersRender(lists[i], depth + 1);
    }
    GroupUnfolded(v);
    OnesTotal(NodeCounts(v.items), |lists|, 1 + width);
  }

  lemma TensorSmall(t: TensorRow)
    requires TensorRowOk(t)
    ensures AllSmall(TensorNumbers(t))
  {
    SquareSmall(t.dim0, t.dim1);
  }

  lemma SquareSmall(a: nat, b: nat)
    requires a <= 64 && b <= 64
    ensures 4 * a * b <= 16384
  {
    assert a * b <= 64 * b;
    assert 4 * a * b == 4 * (a * b);
  }

  /** The operations of a checked graph are numbers the renderer takes. */
  lemma CheckedOperationsSmall(m: Manifest, rows: GraphRows, i: nat)
    requires WellFormed(m) && EncodeManifest(m) == Ok(rows) && i < |rows.operations|
    ensures AllSmall(OperationNumbers(rows.operations[i]))
  {
    var op := m.graph.operations[i];
    assert InGraph(m.graph, op) && PortsMatch(op);
    var cells := Prod(m.graph.shapes[op.output]);
    SmallProd(m.graph.shapes[op.output]);
    assert SmallShape(m.graph.shapes[op.output]);
    CellsSmall(m.graph.shapes[op.output]);
    assert Covering(m.launches[i], cells);
  }

  lemma CellsSmall(shape: Shape)
    requires SmallShape(shape)
    ensures Prod(shape) <= 4096
  {
    SmallProd(shape);
    var a, b := shape[0], if |shape| == 2 then shape[1] else 1;
    assert Prod(shape) == a * b && a <= 64 && b <= 64;
    SquareSmall(a, b);
    assert 4 * a * b == 4 * (a * b);
  }

  /** One node for the list, one for each of its leading numbers, and what its parts count. */
  lemma {:induction false} PartsTotal(items: seq<Nest>, leaves: nat, k: nat)
    requires leaves <= k <= |items| && forall i | 0 <= i < leaves :: items[i].Leaf?
    ensures Total(NodeCounts(items), leaves) == leaves
  {
    if leaves > 0 {
      PartsTotal(items, leaves - 1, k);
    }
  }

  lemma BoundarySmall(ts: seq<Tensor>, width: nat)
    requires |ts| <= width && forall t | t in ts :: t <= 1000000
    ensures AllSmall(Padded(ts, width)) && |Padded(ts, width)| == width
  {
    SentinelsOnly(width - |ts|);
    var padded := Padded(ts, width);
    forall i | 0 <= i < |padded|
      ensures Small(padded[i])
    {
      if i < |ts| {
        assert padded[i] == ts[i] && ts[i] in ts;
      } else {
        assert padded[i] == Sentinels(width - |ts|)[i - |ts|];
      }
    }
  }

  /** What the parts of a graph's list come to. */
  lemma GraphNestNodes(rows: GraphRows)
    requires Nodes(NumberRows(Listing(rows.tensors, TensorNumbers))) <= 51
    requires Nodes(NumberRows(Listing(rows.operations, OperationNumbers))) <= 50
    requires Nodes(Numbers(rows.inputs)) <= 4 && Nodes(Numbers(rows.outputs)) <= 3
    ensures Nodes(GraphNest(rows)) <= 113
  {
    var v := GraphNest(rows);
    GroupUnfolded(v);
    PartsTotal(v.items, 4, 8);
    var counts := NodeCounts(v.items);
    assert Total(counts, 5) == Total(counts, 4) + Nodes(v.items[4]);
    assert Total(counts, 6) == Total(counts, 5) + Nodes(v.items[5]);
    assert Total(counts, 7) == Total(counts, 6) + Nodes(v.items[6]);
    assert Total(counts, 8) == Total(counts, 7) + Nodes(v.items[7]);
  }

  lemma TensorsRender(rows: seq<TensorRow>)
    requires |rows| <= 10 && forall i | 0 <= i < |rows| :: TensorRowOk(rows[i])
    ensures Renderable(NumberRows(Listing(rows, TensorNumbers)), 1)
    ensures Nodes(NumberRows(Listing(rows, TensorNumbers))) <= 51
  {
    forall i | 0 <= i < |rows|
      ensures AllSmall(TensorNumbers(rows[i]))
    {
      TensorSmall(rows[i]);
    }
    RowsRender(Listing(rows, TensorNumbers), 4, 1);
  }

  lemma OperationsRender(rows: seq<LaunchedRow>)
    requires |rows| <= 7 && forall i | 0 <= i < |rows| :: AllSmall(OperationNumbers(rows[i]))
    ensures Renderable(NumberRows(Listing(rows, OperationNumbers)), 1)
    ensures Nodes(NumberRows(Listing(rows, OperationNumbers))) <= 50
  {
    RowsRender(Listing(rows, OperationNumbers), 6, 1);
  }

  lemma GraphPartsRender(m: Manifest, rows: GraphRows)
    requires WellFormed(m) && EncodeManifest(m) == Ok(rows)
    ensures
      var tensors := NumberRows(Listing(rows.tensors, TensorNumbers));
      var operations := NumberRows(Listing(rows.operations, OperationNumbers));
      && Renderable(tensors, 1) && Nodes(tensors) <= 51 && Renderable(operations, 1) && Nodes(operations) <= 50
  {
    WellFormedFits(m);
    WellFormedTensors(m, rows);
    TensorsRender(rows.tensors);
    forall i | 0 <= i < |rows.operations|
      ensures AllSmall(OperationNumbers(rows.operations[i]))
    {
      CheckedOperationsSmall(m, rows, i);
    }
    OperationsRender(rows.operations);
  }

  lemma GraphBoundaryRenders(m: Manifest, rows: GraphRows)
    requires WellFormed(m) && EncodeManifest(m) == Ok(rows)
    ensures Renderable(Numbers(rows.inputs), 1) && Nodes(Numbers(rows.inputs)) == 4
    ensures Renderable(Numbers(rows.outputs), 1) && Nodes(Numbers(rows.outputs)) == 3
  {
    BoundaryInGraph(m);
    BoundarySmall(m.inputs, 3);
    BoundarySmall(m.outputs, 2);
    NumbersRender(rows.inputs, 1);
    NumbersRender(rows.outputs, 1);
  }

  /** Every graph the C check accepts is within the renderer's limits. */
  lemma GraphTextFits(m: Manifest, rows: GraphRows)
    requires WellFormed(m) && EncodeManifest(m) == Ok(rows)
    ensures Renderable(GraphNest(rows), 0) && Nodes(GraphNest(rows)) <= 113
  {
    GraphPartsRender(m, rows);
    GraphBoundaryRenders(m, rows);
    GraphNestNodes(rows);
  }

  // ----- Plans -----

  lemma BuffersRender(rows: seq<BufferRow>)
    requires |rows| <= 16 && forall i | 0 <= i < |rows| :: AllSmall(BufferNumbers(rows[i]))
    ensures Renderable(NumberRows(Listing(rows, BufferNumbers)), 1)
    ensures Nodes(NumberRows(Listing(rows, BufferNumbers))) <= 65
  {
    RowsRender(Listing(rows, BufferNumbers), 3, 1);
  }

  lemma EventsRender(rows: seq<Row>)
    requires |rows| <= 18 && forall i | 0 <= i < |rows| :: AllSmall(RowNumbers(rows[i]))
    ensures Renderable(NumberRows(Listing(rows, RowNumbers)), 1)
    ensures Nodes(NumberRows(Listing(rows, RowNumbers))) <= 127
  {
    RowsRender(Listing(rows, RowNumbers), 6, 1);
  }

  /** A row of an event names a kind, an operation, a target and slots, or the sentinel. */
  lemma EventSmall(c: Context, buffers: seq<Buffer>, st: Inspection, index: nat, e: Event)
    requires Targeted(c, buffers) && InspectStep(c, buffers, st, index, e).Ok? && |c.graph.operations| <= 7
    ensures EncodeEvent(e).Ok? && AllSmall(RowNumbers(EncodeEvent(e).value))
  {
    AcceptedEventFits(c, buffers, st, e);
    AcceptedStepEffect(c, buffers, st, index, e);
    var r := EncodeEvent(e).value;
    assert Small(r.kind) && Small(r.operation) && Small(r.target);
    assert Small(r.input0) && Small(r.input1) && Small(r.output);
  }

  lemma PlanRowsSmall(c: Context, p: Plan)
    requires Targeted(c, p.buffers) && Accepted(c, p) && |c.graph.operations| <= 7 && |c.graph.shapes| <= 10
    requires forall t | 0 <= t < |c.graph.shapes| :: Bytes(c.graph.shapes[t]) <= 1000000
    ensures HasRows(p.steps)
    ensures forall i | 0 <= i < |p.buffers| :: AllSmall(BufferNumbers(EncodeBuffers(p.buffers)[i]))
    ensures forall i | 0 <= i < |p.steps| :: AllSmall(RowNumbers(EncodeEvents(p.steps)[i]))
  {
    AcceptedStepsFit(c, p.buffers, p.steps);
    forall i | 0 <= i < |p.buffers|
      ensures AllSmall(BufferNumbers(EncodeBuffers(p.buffers)[i]))
    {
      assert InspectBuffer(c, p.buffers[i]).Ok?;
    }
    forall i | 0 <= i < |p.steps|
      ensures AllSmall(RowNumbers(EncodeEvents(p.steps)[i]))
    {
      StepOfAccepted(c, p.buffers, p.steps, i);
      EventSmall(c, p.buffers, InspectSteps(c, p.buffers, p.steps[..i]).value, i, p.steps[i]);
    }
  }

  lemma PlanNestNodes(p: PlanTable)
    requires Nodes(Numbers(p.targets)) <= 8
    requires Nodes(NumberRows(Listing(p.buffers, BufferNumbers))) <= 65
    requires Nodes(NumberRows(Listing(p.events, RowNumbers))) <= 127
    ensures Nodes(PlanNest(p)) <= 207
  {
    var v := PlanNest(p);
    GroupUnfolded(v);
    PartsTotal(v.items, 6, 9);
    var counts := NodeCounts(v.items);
    assert Total(counts, 7) == Total(counts, 6) + Nodes(v.items[6]);
    assert Total(counts, 8) == Total(counts, 7) + Nodes(v.items[7]);
    assert Total(counts, 9) == Total(counts, 8) + Nodes(v.items[8]);
  }

  lemma PlanTableRenders(table: PlanTable)
    requires Small(table.graph) && Small(table.header.profile)
    requires Small(table.header.bufferBytes) && Small(table.header.copyBytes)
    requires |table.targets| <= 7 && AllSmall(table.targets) && |table.buffers| <= 16 && |table.events| <= 18
    requires forall i | 0 <= i < |table.buffers| :: AllSmall(BufferNumbers(table.buffers[i]))
    requires forall i | 0 <= i < |table.events| :: AllSmall(RowNumbers(table.events[i]))
    ensures Renderable(PlanNest(table), 0) && Nodes(PlanNest(table)) <= 207
  {
    NumbersRender(table.targets, 1);
    BuffersRender(table.buffers);
    EventsRender(table.events);
    PlanNestNodes(table);
  }

  /** Every accepted plan that fits a profile is within the renderer's limits. */
  lemma PlanTextFits(c: Context, p: Plan, graph: nat, profile: nat)
    requires Targeted(c, p.buffers) && Accepted(c, p) && FitsProfile(c, p, profile) && graph < 12
    requires |c.graph.operations| <= 7 && |c.graph.shapes| <= 10
    requires forall t | 0 <= t < |c.graph.shapes| :: Bytes(c.graph.shapes[t]) <= 1000000
    ensures HasRows(p.steps)
    ensures
      var table := PlanTable(graph, HeaderOf(p, profile), EncodeGraph(c).targets, EncodeBuffers(p.buffers),
                             EncodeEvents(p.steps));
      Renderable(PlanNest(table), 0) && Nodes(PlanNest(table)) <= 207
  {
    PlanRowsSmall(c, p);
    CopiesNonnegative(c, p);
    var table := PlanTable(graph, HeaderOf(p, profile), EncodeGraph(c).targets, EncodeBuffers(p.buffers),
                           EncodeEvents(p.steps));
    assert AllSmall(table.targets);
    PlanTableRenders(table);
  }

  lemma CopiesNonnegative(c: Context, p: Plan)
    requires Assigned(c) && Accepted(c, p)
    ensures CopyBytes(p.buffers, p.steps) >= 0
  {
    forall i | 0 <= i < |p.buffers|
      ensures p.buffers[i].bytes >= 0
    {
      assert InspectBuffer(c, p.buffers[i]).Ok?;
    }
    CopyBytesNonnegative(p.buffers, p.steps);
  }

  lemma {:induction false} CopyBytesNonnegative(buffers: seq<Buffer>, steps: seq<Event>)
    requires forall i | 0 <= i < |buffers| :: buffers[i].bytes >= 0
    ensures CopyBytes(buffers, steps) >= 0
  {
    if steps != [] {
      CopyBytesNonnegative(buffers, steps[..|steps| - 1]);
    }
  }

  // ----- The text determines the table -----

  lemma NumbersInjective(a: seq<int>, b: seq<int>)
    requires Numbers(a) == Numbers(b)
    ensures a == b
  {
    forall i | 0 <= i < |a|
      ensures a[i] == b[i]
    {
      assert Numbers(a).items[i] == Numbers(b).items[i];
    }
  }

  lemma RowsInjective(a: seq<seq<int>>, b: seq<seq<int>>)
    requires NumberRows(a) == NumberRows(b)
    ensures a == b
  {
    forall i | 0 <= i < |a|
      ensures a[i] == b[i]
    {
      assert NumberRows(a).items[i] == NumberRows(b).items[i];
      NumbersInjective(a[i], b[i]);
    }
  }

  lemma TensorListing(a: seq<TensorRow>, b: seq<TensorRow>)
    requires NumberRows(Listing(a, TensorNumbers)) == NumberRows(Listing(b, TensorNumbers))
    ensures a == b
  {
    RowsInjective(Listing(a, TensorNumbers), Listing(b, TensorNumbers));
    forall i | 0 <= i < |a|
      ensures a[i] == b[i]
    {
      assert Listing(a, TensorNumbers)[i] == Listing(b, TensorNumbers)[i];
      assert TensorNumbers(a[i])[0] == TensorNumbers(b[i])[0] && TensorNumbers(a[i])[1] == TensorNumbers(b[i])[1];
      assert TensorNumbers(a[i])[2] == TensorNumbers(b[i])[2] && TensorNumbers(a[i])[3] == TensorNumbers(b[i])[3];
    }
  }

  lemma OperationListing(a: seq<LaunchedRow>, b: seq<LaunchedRow>)
    requires NumberRows(Listing(a, OperationNumbers)) == NumberRows(Listing(b, OperationNumbers))
    ensures a == b
  {
    RowsInjective(Listing(a, OperationNumbers), Listing(b, OperationNumbers));
    forall i | 0 <= i < |a|
      ensures a[i] == b[i]
    {
      var m, n := OperationNumbers(a[i]), OperationNumbers(b[i]);
      assert Listing(a, OperationNumbers)[i] == Listing(b, OperationNumbers)[i];
      assert m[0] == n[0] && m[1] == n[1] && m[2] == n[2] && m[3] == n[3] && m[4] == n[4] && m[5] == n[5];
    }
  }

  lemma GraphNestInjective(a: GraphRows, b: GraphRows)
    requires GraphNest(a) == GraphNest(b)
    ensures a == b
  {
    var v, w := GraphNest(a).items, GraphNest(b).items;
    assert v[0] == w[0] && v[1] == w[1] && v[2] == w[2] && v[3] == w[3];
    assert v[4] == w[4] && v[5] == w[5] && v[6] == w[6] && v[7] == w[7];
    TensorListing(a.tensors, b.tensors);
    OperationListing(a.operations, b.operations);
    NumbersInjective(a.inputs, b.inputs);
    NumbersInjective(a.outputs, b.outputs);
  }

  /** From the text of a checked graph's initializer there is one way back: shapes, operations, launches
      and boundary. */
  lemma TextDeterminesGraph(m: Manifest, n: Manifest)
    requires WellFormed(m) && WellFormed(n)
    ensures EncodeManifest(m).Ok? && EncodeManifest(n).Ok?
    ensures Render(GraphNest(EncodeManifest(m).value)) == Render(GraphNest(EncodeManifest(n).value)) ==> m == n
  {
    WellFormedFits(m);
    WellFormedFits(n);
    var a, b := EncodeManifest(m).value, EncodeManifest(n).value;
    if Render(GraphNest(a)) == Render(GraphNest(b)) {
      GraphTextFits(m, a);
      GraphTextFits(n, b);
      RenderingIsInjective(GraphNest(a), GraphNest(b));
      GraphNestInjective(a, b);
      ManifestRoundTrip(m);
      ManifestRoundTrip(n);
    }
  }
}
