/**
  Schedules as integer tables with the sentinel 255 (examples/bounded_dag_native.py,
  _graph_initializer and _plan_initializer), and the table validator written in C beside the workers
  (docker/bounded-dag-native/contract.c): decoding undoes encoding, and the C validator accepts a
  table exactly when the Python validator accepts the plan it encodes and three further rules hold.
 */
module Tables {
  import opened Wrappers
  import opened Graphs
  import opened Residency
  import opened Schedules
  import opened Conservation
  import opened Receipts

  const NONE := 255

  datatype Row = Row(kind: int, operation: int, target: int, input0: int, input1: int, output: int)

  datatype BufferRow = BufferRow(tensor: int, space: int, bytes: int)

  datatype OpRow = OpRow(kind: int, input0: int, input1: int, output: int)

  /** Target codes; None stands for a name the lookup table does not have. */
  function TargetCode(backend: Backend): Option<int> {
    if backend == "" then Some(NONE)
    else if backend == C11 then Some(0)
    else if backend == CUDA_SM86 then Some(1)
    else None
  }

  function KindCode(kind: EventKind): Option<int> {
    match kind
    case BindInput => Some(0)
    case Copy => Some(1)
    case Execute => Some(2)
    case PublishOutput => Some(3)
    case UnknownKind => None
  }

  /** One event as a row; the lookups reject unknown kinds and targets. */
  function EncodeEvent(e: Event): Result<Row> {
    if KindCode(e.kind) == None || TargetCode(e.backend) == None then Err("unknown name")
    else
      Ok(Row(KindCode(e.kind).value,
             if e.operation == None then NONE else e.operation.value,
             TargetCode(e.backend).value,
             if e.inputs == [] then NONE else e.inputs[0],
             if |e.inputs| == 2 then e.inputs[1] else NONE,
             if e.outputs == [] then NONE else e.outputs[0]))
  }

  function Slots(a: int): seq<int> {
    if a == NONE then [] else [a]
  }

  function DecodeRow(r: Row): Result<Event> {
    if !(0 <= r.kind <= 3) || (r.target != NONE && r.target != 0 && r.target != 1)
       || r.operation < 0 then Err("row rejected")
    else
      Ok(Event([BindInput, Copy, Execute, PublishOutput][r.kind],
               if r.operation == NONE then None else Some(r.operation),
               if r.target == NONE then "" else if r.target == 0 then C11 else CUDA_SM86,
               Slots(r.input0) + Slots(r.input1), Slots(r.output)))
  }

  /** Nothing the sentinel or the row's width could swallow. */
  predicate Encodable(e: Event) {
    && KindCode(e.kind).Some? && TargetCode(e.backend).Some?
    && |e.inputs| <= 2 && |e.outputs| <= 1
    && e.operation != Some(255)
    && 255 !in e.inputs && 255 !in e.outputs
  }

  /** Decoding undoes encoding exactly on the encodable events. */
  lemma DecodeUndoesEncode(e: Event)
    ensures (EncodeEvent(e).Ok? && DecodeRow(EncodeEvent(e).value) == Ok(e)) <==> Encodable(e)
  {
    if EncodeEvent(e).Ok? {
      var r := EncodeEvent(e).value;
      if Encodable(e) {
        SlotsRestored(e.inputs, r.input0, r.input1);
        assert Slots(r.output) == e.outputs;
      }
      if DecodeRow(r) == Ok(e) {
        DecodedIsEncodable(r, e);
      }
    }
  }

  lemma SlotsRestored(inputs: seq<int>, a: int, b: int)
    requires |inputs| <= 2 && NONE !in inputs
    requires a == (if inputs == [] then NONE else inputs[0]) && b == (if |inputs| == 2 then inputs[1] else NONE)
    ensures Slots(a) + Slots(b) == inputs
  {
    if |inputs| == 1 {
      assert inputs == [inputs[0]];
    } else if |inputs| == 2 {
      assert inputs == [inputs[0]] + [inputs[1]];
    }
  }

  lemma DecodedIsEncodable(r: Row, e: Event)
    requires DecodeRow(r) == Ok(e)
    ensures Encodable(e)
  {
    assert e.inputs == Slots(r.input0) + Slots(r.input1);
  }

  // ----- Graphs and buffers -----

  function EncodeKind(kind: OpKind): int {
    match kind
    case Matmul => 0
    case Relu => 1
    case SumAxis1 => 2
  }

  /** What the compiler emits for one operation: two operands for a matmul, one otherwise. */
  predicate PortsMatch(op: Operation) {
    |op.inputs| == (if op.kind == Matmul then 2 else 1)
  }

  function EncodeOperation(op: Operation): OpRow
    requires op.inputs != []
  {
    OpRow(EncodeKind(op.kind), op.inputs[0], if |op.inputs| == 2 then op.inputs[1] else NONE, op.output)
  }

  function SpaceCode(s: Space): int {
    if s == HOST then 0 else 1
  }

  function EncodeBuffer(b: Buffer): BufferRow {
    BufferRow(b.tensor, SpaceCode(b.space), b.bytes)
  }

  /** The table's view of a graph and a plan. */
  datatype GraphTable = GraphTable(tensorBytes: seq<nat>, operations: seq<OpRow>, targets: seq<int>,
                                   inputs: set<int>, outputs: set<int>)

  predicate GraphFits(g: Graph) {
    && |g.shapes| <= NONE
    && |g.operations| < NONE
    && forall i | 0 <= i < |g.operations| :: PortsMatch(g.operations[i])
  }

  /** The two targets and their spaces. */
  predicate StandardDeployment(d: Deployment) {
    && d.host == HOST
    && forall b | b in d.backends ::
         (b == C11 && d.backends[b] == HOST) || (b == CUDA_SM86 && d.backends[b] == ACCELERATOR)
  }

  function EncodeGraph(c: Context): GraphTable
    requires GraphFits(c.graph) && Assigned(c) && StandardDeployment(c.deployment)
  {
    var g := c.graph;
    GraphTable(seq(|g.shapes|, t requires 0 <= t < |g.shapes| => Bytes(g.shapes[t])),
               seq(|g.operations|, i requires 0 <= i < |g.operations| => EncodeOperation(g.operations[i])),
               seq(|g.operations|, i requires 0 <= i < |g.operations| => SpaceCode(SpaceOf(c, i))),
               set t | t in ExternalInputs(g) :: t as int,
               set t | t in Terminals(g) :: t as int)
  }

  function EncodeBuffers(buffers: seq<Buffer>): (rows: seq<BufferRow>)
    ensures |rows| == |buffers| && forall i | 0 <= i < |buffers| :: rows[i] == EncodeBuffer(buffers[i])
  {
    seq(|buffers|, i requires 0 <= i < |buffers| => EncodeBuffer(buffers[i]))
  }

  // ----- The C validator -----

  datatype TableState = TableState(available: set<int>, bound: set<int>, published: set<int>, nextOp: nat)

  const TABLE_START := TableState({}, {}, {}, 0)

  predicate SlotIn(buffers: seq<BufferRow>, slot: int) {
    0 <= slot < |buffers|
  }

  /** The checks on one row, in the order of the C function. */
  predicate RowOk(g: GraphTable, buffers: seq<BufferRow>, st: TableState, e: Row)
    requires |g.targets| == |g.operations|
  {
    && 0 <= e.kind <= 3
    && (e.kind != 2 ==> e.operation == NONE && e.target == NONE)
    && if e.kind == 3 then
         && SlotIn(buffers, e.input0) && e.input0 in st.available
         && e.input1 == NONE && e.output == NONE && st.nextOp == |g.operations|
         && buffers[e.input0].space == 0 && buffers[e.input0].tensor !in st.published
         && buffers[e.input0].tensor in g.outputs
       else
         && SlotIn(buffers, e.output) && e.output !in st.available
         && var out := buffers[e.output];
            if e.kind == 0 then
              && e.input0 == NONE && e.input1 == NONE && out.space == 0
              && out.tensor !in st.bound && st.nextOp != |g.operations| && out.tensor in g.inputs
            else
              && SlotIn(buffers, e.input0) && e.input0 in st.available
              && var input := buffers[e.input0];
                 if e.kind == 1 then
                   && e.input1 == NONE
                   && input.tensor == out.tensor && input.space != out.space && input.bytes == out.bytes
                 else
                   && e.operation == st.nextOp && e.operation < |g.operations|
                   && 0 <= e.target <= 1 && e.target == g.targets[e.operation]
                   && var op := g.operations[e.operation];
                      && input.tensor == op.input0 && out.tensor == op.output
                      && input.space == e.target && out.space == e.target
                      && if op.kind == 0 then
                           && SlotIn(buffers, e.input1) && e.input1 in st.available
                           && buffers[e.input1].tensor == op.input1 && buffers[e.input1].space == e.target
                         else e.input1 == NONE
  }

  function RowNext(g: GraphTable, buffers: seq<BufferRow>, st: TableState, e: Row): TableState
    requires |g.targets| == |g.operations| && RowOk(g, buffers, st, e)
  {
    TableState(if e.kind == 3 then st.available else st.available + {e.output},
               if e.kind == 0 then st.bound + {buffers[e.output].tensor} else st.bound,
               if e.kind == 3 then st.published + {buffers[e.input0].tensor} else st.published,
               if e.kind == 2 then st.nextOp + 1 else st.nextOp)
  }

  function RunRows(g: GraphTable, buffers: seq<BufferRow>, rows: seq<Row>): Option<TableState>
    requires |g.targets| == |g.operations|
  {
    if rows == [] then Some(TABLE_START)
    else
      var before := RunRows(g, buffers, rows[..|rows| - 1]);
      if before.Some? && RowOk(g, buffers, before.value, rows[|rows| - 1])
      then Some(RowNext(g, buffers, before.value, rows[|rows| - 1]))
      else None
  }

  // ----- Event by event the two validators agree -----

  /** The C validator's own ordering rules: bind before the last operation, publish after it. */
  predicate Timely(c: Context, st: Inspection, e: Event) {
    && (e.kind == BindInput ==> st.executed != |c.graph.operations|)
    && (e.kind == PublishOutput ==> st.executed == |c.graph.operations|)
  }

  function TableView(st: Inspection): TableState {
    TableState(st.ready, set t | t in st.bound :: t as int, set t | t in st.published :: t as int, st.executed)
  }

  /** What the tables are made for: two targets, two operands, and no more than the sentinel can tell apart. */
  ghost predicate Targeted(c: Context, buffers: seq<Buffer>) {
    && GraphFits(c.graph) && Assigned(c) && StandardDeployment(c.deployment)
    && c.arity == MAX_EVENT_INPUTS && |buffers| <= NONE
  }

  /** Past the buffer loop of the Python validator. */
  ghost predicate Tabled(c: Context, buffers: seq<Buffer>) {
    Targeted(c, buffers) && InspectBuffers(c, buffers).Ok?
  }

  lemma BufferSpace(c: Context, buffers: seq<Buffer>, slot: int)
    requires Tabled(c, buffers) && 0 <= slot < |buffers|
    ensures buffers[slot].space == HOST || buffers[slot].space == ACCELERATOR
    ensures buffers[slot].tensor < |c.graph.shapes|
  {
    assert InspectBuffer(c, buffers[slot]).Ok?;
  }

  lemma BindRow(c: Context, buffers: seq<Buffer>, st: Inspection, e: Event)
    requires Tabled(c, buffers) && EncodeEvent(e).Ok? && e.kind == BindInput
    ensures RowOk(EncodeGraph(c), EncodeBuffers(buffers), TableView(st), EncodeEvent(e).value) && Encodable(e)
       <==> CheckEvent(c, buffers, st, e).Ok? && Timely(c, st, e)
  {
    if |e.outputs| == 1 && 0 <= e.outputs[0] < |buffers| {
      BufferSpace(c, buffers, e.outputs[0]);
    }
  }

  lemma CopyRow(c: Context, buffers: seq<Buffer>, st: Inspection, e: Event)
    requires Tabled(c, buffers) && EncodeEvent(e).Ok? && e.kind == Copy
    ensures RowOk(EncodeGraph(c), EncodeBuffers(buffers), TableView(st), EncodeEvent(e).value) && Encodable(e)
       <==> CheckEvent(c, buffers, st, e).Ok? && Timely(c, st, e)
  {
    if |e.inputs| == 1 && 0 <= e.inputs[0] < |buffers| {
      BufferSpace(c, buffers, e.inputs[0]);
      assert InspectBuffer(c, buffers[e.inputs[0]]).Ok?;
    }
    if |e.outputs| == 1 && 0 <= e.outputs[0] < |buffers| {
      BufferSpace(c, buffers, e.outputs[0]);
      assert InspectBuffer(c, buffers[e.outputs[0]]).Ok?;
    }
  }

  lemma PublishRow(c: Context, buffers: seq<Buffer>, st: Inspection, e: Event)
    requires Tabled(c, buffers) && EncodeEvent(e).Ok? && e.kind == PublishOutput
    ensures RowOk(EncodeGraph(c), EncodeBuffers(buffers), TableView(st), EncodeEvent(e).value) && Encodable(e)
       <==> CheckEvent(c, buffers, st, e).Ok? && Timely(c, st, e)
  {
    if |e.inputs| == 1 && 0 <= e.inputs[0] < |buffers| {
      BufferSpace(c, buffers, e.inputs[0]);
    }
  }

  /** The execute check of the Python validator, slot by slot. */
  predicate PortsPlaced(c: Context, buffers: seq<Buffer>, st: Inspection, e: Event)
    requires Assigned(c) && st.executed < |c.graph.operations|
  {
    var op := c.graph.operations[st.executed];
    && |e.inputs| == |op.inputs| && |e.outputs| == 1
    && SlotsInRange(e, |buffers|)
    && (forall k | 0 <= k < |e.inputs| ::
          && e.inputs[k] in st.ready && buffers[e.inputs[k]].tensor == op.inputs[k]
          && buffers[e.inputs[k]].space == SpaceOf(c, st.executed))
    && e.outputs[0] !in st.ready && buffers[e.outputs[0]].tensor == op.output
    && buffers[e.outputs[0]].space == SpaceOf(c, st.executed)
  }

  lemma ExecuteCheck(c: Context, buffers: seq<Buffer>, st: Inspection, e: Event)
    requires Assigned(c) && e.kind == Execute && |e.inputs| <= c.arity && |e.outputs| <= 1
    ensures CheckEvent(c, buffers, st, e).Ok?
       <==> && st.executed < |c.graph.operations|
            && e.operation == Some(st.executed) && e.backend == c.deployment.assignments[st.executed]
            && PortsPlaced(c, buffers, st, e)
  {
    if st.executed < |c.graph.operations| && SlotsInRange(e, |buffers|) {
      var op := c.graph.operations[st.executed];
      if CheckEvent(c, buffers, st, e).Ok? {
        ExecuteEffect(c, buffers, st, e);
      }
      if PortsPlaced(c, buffers, st, e) {
        assert TensorsAt(buffers, e.inputs) == op.inputs;
        assert TensorsAt(buffers, e.outputs) == [op.output];
      }
    }
  }

  /** The execute branch of the C check, on encoded tables. */
  lemma ExecuteRowPorts(c: Context, buffers: seq<Buffer>, st: Inspection, e: Event)
    requires Tabled(c, buffers) && Encodable(e) && e.kind == Execute
    requires st.executed < |c.graph.operations| && e.operation == Some(st.executed)
    requires e.backend == c.deployment.assignments[st.executed]
    ensures RowOk(EncodeGraph(c), EncodeBuffers(buffers), TableView(st), EncodeEvent(e).value)
            <==> PortsPlaced(c, buffers, st, e)
  {
    assert PortsMatch(c.graph.operations[st.executed]);
    if e.outputs != [] && 0 <= e.outputs[0] < |buffers| {
      BufferSpace(c, buffers, e.outputs[0]);
    }
    if e.inputs != [] && 0 <= e.inputs[0] < |buffers| {
      BufferSpace(c, buffers, e.inputs[0]);
    }
    if |e.inputs| == 2 && 0 <= e.inputs[1] < |buffers| {
      BufferSpace(c, buffers, e.inputs[1]);
    }
  }

  /** Accepted events have rows and lose nothing: no slot, operation or name goes to the sentinel. */
  lemma AcceptedEventFits(c: Context, buffers: seq<Buffer>, st: Inspection, e: Event)
    requires Targeted(c, buffers) && CheckEvent(c, buffers, st, e).Ok?
    ensures EncodeEvent(e).Ok? && Encodable(e)
  {
    AcceptedStepEffect(c, buffers, st, 0, e);
    if e.kind == Execute {
      assert PortsMatch(c.graph.operations[st.executed]);
      assert e.backend in c.deployment.backends;
    }
  }

  lemma ExecuteRow(c: Context, buffers: seq<Buffer>, st: Inspection, e: Event)
    requires Tabled(c, buffers) && EncodeEvent(e).Ok? && e.kind == Execute
    ensures RowOk(EncodeGraph(c), EncodeBuffers(buffers), TableView(st), EncodeEvent(e).value) && Encodable(e)
       <==> CheckEvent(c, buffers, st, e).Ok? && Timely(c, st, e)
  {
    if CheckEvent(c, buffers, st, e).Ok? {
      AcceptedEventFits(c, buffers, st, e);
    }
    if !Encodable(e) {
      return;
    }
    ExecuteCheck(c, buffers, st, e);
    if st.executed < |c.graph.operations| && e.operation == Some(st.executed) {
      if e.backend == c.deployment.assignments[st.executed] {
        ExecuteRowPorts(c, buffers, st, e);
      } else {
        OtherTarget(c, st.executed, e.backend);
      }
    }
  }

  /** Distinct targets have distinct codes, and no target code is a space's by accident. */
  lemma OtherTarget(c: Context, i: nat, backend: Backend)
    requires Assigned(c) && StandardDeployment(c.deployment) && i < |c.graph.operations|
    requires TargetCode(backend).Some? && backend != c.deployment.assignments[i]
    ensures TargetCode(backend).value != SpaceCode(SpaceOf(c, i))
  {
  }

  /** One event, past the buffer loops: the C check on its row holds and the row loses nothing exactly
      when the Python check holds on the event and it is timely. */
  lemma RowsAgree(c: Context, buffers: seq<Buffer>, st: Inspection, e: Event)
    requires Tabled(c, buffers) && EncodeEvent(e).Ok?
    ensures RowOk(EncodeGraph(c), EncodeBuffers(buffers), TableView(st), EncodeEvent(e).value) && Encodable(e)
       <==> CheckEvent(c, buffers, st, e).Ok? && Timely(c, st, e)
  {
    match e.kind {
      case BindInput => BindRow(c, buffers, st, e);
      case Copy => CopyRow(c, buffers, st, e);
      case Execute => ExecuteRow(c, buffers, st, e);
      case PublishOutput => PublishRow(c, buffers, st, e);
      case UnknownKind =>
    }
  }

  lemma NextAgrees(c: Context, buffers: seq<Buffer>, st: Inspection, index: nat, e: Event)
    requires Tabled(c, buffers) && EncodeEvent(e).Ok?
    requires CheckEvent(c, buffers, st, e).Ok? && Timely(c, st, e)
    ensures RowOk(EncodeGraph(c), EncodeBuffers(buffers), TableView(st), EncodeEvent(e).value)
    ensures RowNext(EncodeGraph(c), EncodeBuffers(buffers), TableView(st), EncodeEvent(e).value)
         == TableView(Advance(c, buffers, st, index, e))
  {
    RowsAgree(c, buffers, st, e);
    AcceptedStepEffect(c, buffers, st, index, e);
    var after := Advance(c, buffers, st, index, e);
    if e.kind == BindInput {
      WidenedUnion(st.bound, buffers[e.outputs[0]].tensor);
    } else if e.kind == PublishOutput {
      WidenedUnion(st.published, buffers[e.inputs[0]].tensor);
    }
  }

  lemma WidenedUnion(s: set<Tensor>, t: Tensor)
    ensures (set u | u in s + {t} :: u as int) == (set u | u in s :: u as int) + {t as int}
  {
  }

  // ----- Whole tables -----

  ghost predicate AllEncodable(steps: seq<Event>) {
    forall i | 0 <= i < |steps| :: Encodable(steps[i])
  }

  /** Every lookup of the encoder succeeds. */
  ghost predicate HasRows(steps: seq<Event>) {
    forall i | 0 <= i < |steps| :: EncodeEvent(steps[i]).Ok?
  }

  function EncodeEvents(steps: seq<Event>): (rows: seq<Row>)
    requires forall i | 0 <= i < |steps| :: EncodeEvent(steps[i]).Ok?
    ensures |rows| == |steps| && forall i | 0 <= i < |steps| :: rows[i] == EncodeEvent(steps[i]).value
  {
    seq(|steps|, i requires 0 <= i < |steps| => EncodeEvent(steps[i]).value)
  }

  lemma AcceptedStepsFit(c: Context, buffers: seq<Buffer>, steps: seq<Event>)
    requires Targeted(c, buffers) && InspectSteps(c, buffers, steps).Ok?
    ensures HasRows(steps) && AllEncodable(steps)
  {
    forall i | 0 <= i < |steps|
      ensures EncodeEvent(steps[i]).Ok? && Encodable(steps[i])
    {
      StepOfAccepted(c, buffers, steps, i);
      AcceptedEventFits(c, buffers, InspectSteps(c, buffers, steps[..i]).value, steps[i]);
    }
  }

  /** Every event comes at a time the C validator allows. */
  predicate AllTimely(c: Context, buffers: seq<Buffer>, steps: seq<Event>)
    requires Assigned(c)
  {
    forall n | 0 <= n < |steps| && InspectSteps(c, buffers, steps[..n]).Ok? ::
      Timely(c, InspectSteps(c, buffers, steps[..n]).value, steps[n])
  }

  lemma TimelyPrefix(c: Context, buffers: seq<Buffer>, steps: seq<Event>)
    requires Assigned(c) && steps != [] && InspectSteps(c, buffers, steps[..|steps| - 1]).Ok?
    ensures AllTimely(c, buffers, steps)
       <==> && AllTimely(c, buffers, steps[..|steps| - 1])
            && Timely(c, InspectSteps(c, buffers, steps[..|steps| - 1]).value, steps[|steps| - 1])
  {
    var n := |steps| - 1;
    forall i | 0 <= i < n
      ensures steps[..n][i] == steps[i] && steps[..n][..i] == steps[..i]
    {
    }
  }

  /** Lockstep, past the buffer loops: the C validator gets through the rows and they lose nothing exactly
      when the Python validator gets through the events and all are timely, and then both are in the
      same state. */
  lemma {:induction false} TableRunsAgree(c: Context, buffers: seq<Buffer>, steps: seq<Event>)
    requires Tabled(c, buffers) && HasRows(steps)
    ensures
      var run := RunRows(EncodeGraph(c), EncodeBuffers(buffers), EncodeEvents(steps));
      var fits := run.Some? && AllEncodable(steps);
      && (fits <==> InspectSteps(c, buffers, steps).Ok? && AllTimely(c, buffers, steps))
      && (fits ==> run.value == TableView(InspectSteps(c, buffers, steps).value))
  {
    if steps != [] {
      var n := |steps| - 1;
      var e := steps[n];
      assert EncodeEvents(steps)[..n] == EncodeEvents(steps[..n]);
      TableRunsAgree(c, buffers, steps[..n]);
      EncodableNext(steps);
      if InspectSteps(c, buffers, steps[..n]).Ok? {
        var st := InspectSteps(c, buffers, steps[..n]).value;
        TimelyPrefix(c, buffers, steps);
        RowsAgree(c, buffers, st, e);
        if CheckEvent(c, buffers, st, e).Ok? && Timely(c, st, e) {
          NextAgrees(c, buffers, st, n, e);
        }
      }
    }
  }

  lemma EncodableNext(steps: seq<Event>)
    requires steps != []
    ensures AllEncodable(steps) <==> AllEncodable(steps[..|steps| - 1]) && Encodable(steps[|steps| - 1])
  {
    assert forall i | 0 <= i < |steps| - 1 :: steps[..|steps| - 1][i] == steps[i];
  }

  /** The C validator's buffer loop: known tensors and spaces, exact sizes, no (tensor, space) twice. */
  predicate BuffersOk(g: GraphTable, buffers: seq<BufferRow>) {
    && (forall i | 0 <= i < |buffers| ::
          && 0 <= buffers[i].tensor < |g.tensorBytes| && 0 <= buffers[i].space <= 1
          && buffers[i].bytes == g.tensorBytes[buffers[i].tensor])
    && (forall i, j | 0 <= i < j < |buffers| ::
          buffers[i].tensor != buffers[j].tensor || buffers[i].space != buffers[j].space)
  }

  predicate Finished(g: GraphTable, buffers: seq<BufferRow>, st: TableState) {
    && st.nextOp == |g.operations|
    && |st.bound| == |g.inputs| && |st.published| == |g.outputs|
    && forall i | 0 <= i < |buffers| :: i in st.available
  }

  predicate TableAccepts(g: GraphTable, buffers: seq<BufferRow>, rows: seq<Row>)
    requires |g.targets| == |g.operations|
  {
    && BuffersOk(g, buffers)
    && RunRows(g, buffers, rows).Some?
    && Finished(g, buffers, RunRows(g, buffers, rows).value)
  }

  lemma {:induction false} RunRowsStops(g: GraphTable, buffers: seq<BufferRow>, rows: seq<Row>, n: nat)
    requires |g.targets| == |g.operations| && n <= |rows| && RunRows(g, buffers, rows[..n]) == None
    ensures RunRows(g, buffers, rows) == None
  {
    if n == |rows| {
      assert rows[..n] == rows;
    } else {
      assert rows[..|rows| - 1][..n] == rows[..n];
      RunRowsStops(g, buffers, rows[..|rows| - 1], n);
    }
  }

  // ----- The C function -----

  const MAX_BUFFERS := 16
  const MAX_EVENTS := 18
  const MAX_BUFFER_BYTES := 7432
  const MAX_COPY_BYTES := 2656

  /** The fields of a plan's table beside its buffers and events. */
  datatype Header = Header(profile: nat, bufferBytes: int, copyBytes: int)

  /** All on the host, all on the device, or alternating from the device. */
  function ProfileTarget(profile: nat, i: nat): int {
    if profile == 2 then 1 - i % 2 else profile
  }

  function RowBytes(buffers: seq<BufferRow>): int {
    if buffers == [] then 0 else RowBytes(buffers[..|buffers| - 1]) + buffers[|buffers| - 1].bytes
  }

  function CopiedBy(buffers: seq<BufferRow>, r: Row): int {
    if r.kind == 1 && SlotIn(buffers, r.output) then buffers[r.output].bytes else 0
  }

  function RowCopies(buffers: seq<BufferRow>, rows: seq<Row>): int {
    if rows == [] then 0 else RowCopies(buffers, rows[..|rows| - 1]) + CopiedBy(buffers, rows[|rows| - 1])
  }

  predicate HeaderOk(g: GraphTable, h: Header, buffers: seq<BufferRow>, rows: seq<Row>) {
    && h.profile <= 2 && 0 < |buffers| <= MAX_BUFFERS && 0 < |rows| <= MAX_EVENTS
    && 0 < h.bufferBytes <= MAX_BUFFER_BYTES && h.copyBytes <= MAX_COPY_BYTES
    && (forall i | 0 <= i < |g.targets| :: g.targets[i] == ProfileTarget(h.profile, i))
    && RowBytes(buffers) == h.bufferBytes && RowCopies(buffers, rows) == h.copyBytes
  }

  lemma {:induction false} RowBytesGrow(g: GraphTable, buffers: seq<BufferRow>, n: nat)
    requires BuffersOk(g, buffers) && n <= |buffers|
    ensures BuffersOk(g, buffers[..n]) && RowBytes(buffers[..n]) <= RowBytes(buffers)
  {
    if n == |buffers| {
      assert buffers[..n] == buffers;
    } else {
      assert buffers[..|buffers| - 1][..n] == buffers[..n];
      RowBytesGrow(g, buffers[..|buffers| - 1], n);
    }
  }

  lemma {:induction false} RowCopiesGrow(g: GraphTable, buffers: seq<BufferRow>, rows: seq<Row>, n: nat)
    requires BuffersOk(g, buffers) && n <= |rows|
    ensures RowCopies(buffers, rows[..n]) <= RowCopies(buffers, rows)
  {
    if n == |rows| {
      assert rows[..n] == rows;
    } else {
      assert rows[..|rows| - 1][..n] == rows[..n];
      RowCopiesGrow(g, buffers, rows[..|rows| - 1], n);
    }
  }

  /** One buffer's own checks. */
  predicate BufferRowOk(g: GraphTable, b: BufferRow) {
    0 <= b.tensor < |g.tensorBytes| && 0 <= b.space <= 1 && b.bytes == g.tensorBytes[b.tensor]
  }

  predicate NewPair(buffers: seq<BufferRow>, i: nat)
    requires i < |buffers|
  {
    forall j | 0 <= j < i :: buffers[i].tensor != buffers[j].tensor || buffers[i].space != buffers[j].space
  }

  lemma BuffersOkNext(g: GraphTable, buffers: seq<BufferRow>, i: nat)
    requires i < |buffers| && BuffersOk(g, buffers[..i])
    ensures BuffersOk(g, buffers[..i + 1]) <==> BufferRowOk(g, buffers[i]) && NewPair(buffers, i)
    ensures RowBytes(buffers[..i + 1]) == RowBytes(buffers[..i]) + buffers[i].bytes
  {
    var before, after := buffers[..i], buffers[..i + 1];
    assert after[..i] == before && after[i] == buffers[i];
    if BuffersOk(g, after) {
      assert forall j | 0 <= j < i :: after[j] == buffers[j];
    }
  }

  /** The inner loop: whether an earlier buffer holds the same pair. */
  method IsNewPair(buffers: seq<BufferRow>, i: nat) returns (isNew: bool)
    requires i < |buffers|
    ensures isNew <==> NewPair(buffers, i)
  {
    for j := 0 to i
      invariant forall k | 0 <= k < j :: buffers[i].tensor != buffers[k].tensor || buffers[i].space != buffers[k].space
    {
      if buffers[i].tensor == buffers[j].tensor && buffers[i].space == buffers[j].space {
        return false;
      }
    }
    return true;
  }

  /** The C function's loop over the buffers, with its running total. */
  method ValidateBuffers(g: GraphTable, buffers: seq<BufferRow>) returns (ok: bool, total: int)
    ensures ok <==> BuffersOk(g, buffers) && RowBytes(buffers) <= MAX_BUFFER_BYTES
    ensures ok ==> total == RowBytes(buffers)
  {
    total := 0;
    for i := 0 to |buffers|
      invariant BuffersOk(g, buffers[..i]) && total == RowBytes(buffers[..i]) <= MAX_BUFFER_BYTES
    {
      var b := buffers[i];
      var isNew := IsNewPair(buffers, i);
      BuffersOkNext(g, buffers, i);
      if BuffersOk(g, buffers) {
        RowBytesGrow(g, buffers, i + 1);
      }
      if !BufferRowOk(g, b) || !isNew {
        return false, total;
      }
      total := total + b.bytes;
      if total > MAX_BUFFER_BYTES {
        return false, total;
      }
    }
    assert buffers[..|buffers|] == buffers;
    ok := true;
  }

  /** The C function's loop over the events, over its boolean arrays kept as sets and its counters. */
  method ValidateEvents(g: GraphTable, buffers: seq<BufferRow>, rows: seq<Row>)
    returns (ok: bool, st: TableState, inputCount: nat, outputCount: nat, copies: int)
    requires |g.targets| == |g.operations| && BuffersOk(g, buffers)
    ensures ok <==> RunRows(g, buffers, rows).Some? && RowCopies(buffers, rows) <= MAX_COPY_BYTES
    ensures ok ==> && RunRows(g, buffers, rows) == Some(st) && copies == RowCopies(buffers, rows)
                   && inputCount == |st.bound| && outputCount == |st.published|
  {
    var available: set<int>, bound: set<int>, published: set<int> := {}, {}, {};
    var nextOp := 0;
    inputCount, outputCount, copies := 0, 0, 0;
    for i := 0 to |rows|
      invariant RunRows(g, buffers, rows[..i]) == Some(TableState(available, bound, published, nextOp))
      invariant inputCount == |bound| && outputCount == |published|
      invariant copies == RowCopies(buffers, rows[..i]) <= MAX_COPY_BYTES
    {
      var e := rows[i];
      st := TableState(available, bound, published, nextOp);
      assert rows[..i + 1][..i] == rows[..i];
      if !RowOk(g, buffers, st, e) {
        RunRowsStops(g, buffers, rows, i + 1);
        return false, st, inputCount, outputCount, copies;
      }
      ghost var next := RowNext(g, buffers, st, e);
      if e.kind == 3 {
        published := published + {buffers[e.input0].tensor};
        outputCount := outputCount + 1;
      } else {
        if e.kind == 0 {
          bound := bound + {buffers[e.output].tensor};
          inputCount := inputCount + 1;
        } else if e.kind == 1 {
          copies := copies + buffers[e.output].bytes;
          if copies > MAX_COPY_BYTES {
            RowCopiesGrow(g, buffers, rows, i + 1);
            return false, st, inputCount, outputCount, copies;
          }
        } else {
          nextOp := nextOp + 1;
        }
        available := available + {e.output};
      }
      assert next == TableState(available, bound, published, nextOp);
    }
    assert rows[..|rows|] == rows;
    ok, st := true, TableState(available, bound, published, nextOp);
  }

  /** The whole function, but for its graph checks and its comparison with the reviewed descriptors. */
  method ValidateTable(g: GraphTable, h: Header, buffers: seq<BufferRow>, rows: seq<Row>) returns (ok: bool)
    requires |g.targets| == |g.operations|
    ensures ok <==> HeaderOk(g, h, buffers, rows) && TableAccepts(g, buffers, rows)
  {
    if h.profile > 2 || |buffers| == 0 || |buffers| > MAX_BUFFERS || |rows| == 0 || |rows| > MAX_EVENTS
       || h.bufferBytes <= 0 || h.bufferBytes > MAX_BUFFER_BYTES || h.copyBytes > MAX_COPY_BYTES {
      return false;
    }
    for i := 0 to |g.operations|
      invariant forall k | 0 <= k < i :: g.targets[k] == ProfileTarget(h.profile, k)
    {
      if g.targets[i] != ProfileTarget(h.profile, i) {
        return false;
      }
    }
    var buffersOk, total := ValidateBuffers(g, buffers);
    if !buffersOk || total != h.bufferBytes {
      return false;
    }
    var rowsOk, st, inputCount, outputCount, copies := ValidateEvents(g, buffers, rows);
    if !rowsOk {
      return false;
    }
    ok := st.nextOp == |g.operations| && inputCount == |g.inputs| && outputCount == |g.outputs|
          && copies == h.copyBytes && forall i | 0 <= i < |buffers| :: i in st.available;
  }

  // ----- The C validator and the Python validator accept the same schedules -----

  /** What a buffer's row does not show: its shape, and which name its space has. */
  ghost predicate Labelled(c: Context, buffers: seq<Buffer>) {
    forall i | 0 <= i < |buffers| ::
      && KnownSpace(c.deployment, buffers[i].space)
      && (buffers[i].tensor < |c.graph.shapes| ==> buffers[i].shape == c.graph.shapes[buffers[i].tensor])
  }

  lemma LabelledBuffer(c: Context, b: Buffer)
    requires Assigned(c)
    ensures InspectBuffer(c, b).Ok?
       <==> && b.tensor < |c.graph.shapes| && b.bytes == Bytes(c.graph.shapes[b.tensor])
            && KnownSpace(c.deployment, b.space) && b.shape == c.graph.shapes[b.tensor]
  {
  }

  lemma InspectedIsLabelled(c: Context, buffers: seq<Buffer>)
    requires Assigned(c) && InspectBuffers(c, buffers).Ok?
    ensures Labelled(c, buffers)
  {
    forall i | 0 <= i < |buffers|
      ensures InspectBuffer(c, buffers[i]).Ok?
    {
    }
  }

  /** The two buffer loops: the C one accepts and nothing is mislabelled exactly when the Python one
      accepts and no pair is held twice. */
  lemma BuffersAgree(c: Context, buffers: seq<Buffer>)
    requires Targeted(c, buffers)
    ensures BuffersOk(EncodeGraph(c), EncodeBuffers(buffers)) && Labelled(c, buffers)
       <==> InspectBuffers(c, buffers).Ok? && DistinctPairs(buffers)
  {
    forall i | 0 <= i < |buffers|
      ensures InspectBuffer(c, buffers[i]).Ok?
         <==> && buffers[i].tensor < |c.graph.shapes| && buffers[i].bytes == Bytes(c.graph.shapes[buffers[i].tensor])
              && KnownSpace(c.deployment, buffers[i].space) && buffers[i].shape == c.graph.shapes[buffers[i].tensor]
    {
      LabelledBuffer(c, buffers[i]);
    }
    forall i, j | 0 <= i < j < |buffers| && KnownSpace(c.deployment, buffers[i].space)
      && KnownSpace(c.deployment, buffers[j].space)
      ensures SpaceCode(buffers[i].space) == SpaceCode(buffers[j].space) <==> buffers[i].space == buffers[j].space
    {
    }
  }

  lemma {:induction false} IntImageSize(s: set<Tensor>)
    ensures |set t | t in s :: t as int| == |s|
    decreases |s|
  {
    if s != {} {
      var t :| t in s;
      IntImageSize(s - {t});
      WidenedUnion(s - {t}, t);
      assert s - {t} + {t} == s;
    }
  }

  /** The C counts of bound inputs and of published outputs decide the sets. */
  lemma FinishedIsComplete(c: Context, p: Plan)
    requires Tabled(c, p.buffers) && InspectSteps(c, p.buffers, p.steps).Ok?
    ensures
      var st := InspectSteps(c, p.buffers, p.steps).value;
      Finished(EncodeGraph(c), EncodeBuffers(p.buffers), TableView(st)) && (c.limits.requireJoin ==> HasMatmul(c.graph))
      <==> Complete(c, p, st)
  {
    var st := InspectSteps(c, p.buffers, p.steps).value;
    JoinIffMatmul(c, p.buffers, p.steps);
    BoundsRespected(c, p.buffers, p.steps);
    IntImageSize(st.bound);
    IntImageSize(st.published);
    IntImageSize(ExternalInputs(c.graph));
    IntImageSize(Terminals(c.graph));
    if |st.bound| == |ExternalInputs(c.graph)| {
      SubsetOfSameSize(st.bound, ExternalInputs(c.graph));
    }
    if |st.published| == |Terminals(c.graph)| {
      SubsetOfSameSize(st.published, Terminals(c.graph));
    }
    assert (forall i | 0 <= i < |p.buffers| :: i in st.ready) <==> st.ready == AllSlots(|p.buffers|);
  }

  /** The two validators, one in Python over named events, one in C over integer rows. A plan that has
      a table passes the C validator, with no mislabelled buffer, no event cut short by its row and the
      Python validator's own size limits and join, exactly when the Python validator accepts it, no
      (tensor, space) pair is held twice, and every event is timely. */
  lemma ValidatorsAgree(c: Context, p: Plan)
    requires Targeted(c, p.buffers) && HasRows(p.steps)
    ensures && TableAccepts(EncodeGraph(c), EncodeBuffers(p.buffers), EncodeEvents(p.steps))
            && Labelled(c, p.buffers) && AllEncodable(p.steps)
            && WithinLimits(c.limits, p) && (c.limits.requireJoin ==> HasMatmul(c.graph))
       <==> Accepted(c, p) && DistinctPairs(p.buffers) && AllTimely(c, p.buffers, p.steps)
  {
    BuffersAgree(c, p.buffers);
    if InspectBuffers(c, p.buffers).Ok? {
      TableRunsAgree(c, p.buffers, p.steps);
      if InspectSteps(c, p.buffers, p.steps).Ok? {
        FinishedIsComplete(c, p);
      }
    }
  }
}
