/**
  The table interpreter against the receipts machine: run on the table of an accepted plan it stops
  where the machine stops and for the same reason, the rows that took effect are the machine's
  events, and its counters (docker/bounded-dag-native/worker.h) are the receipt's, run after run.
 */
module TableMachine {
  import opened Wrappers
  import opened Graphs
  import opened Residency
  import opened Conservation
  import opened Receipts
  import opened Faults
  import opened Tables
  import opened TableInterpreter

  // ----- Counters of rows -----

  function BytesIn(buffers: seq<BufferRow>, slot: int): int {
    if SlotIn(buffers, slot) then buffers[slot].bytes else 0
  }

  predicate OnDevice(buffers: seq<BufferRow>, slot: int) {
    SlotIn(buffers, slot) && buffers[slot].space == 1
  }

  /** What one row adds to one of the interpreter's counters when it takes effect. */
  function RowCount(buffers: seq<BufferRow>, r: Row, k: Counter): int {
    if r.kind == 1 then
      (match k
       case UploadCalls => if OnDevice(buffers, r.output) then 1 else 0
       case UploadBytes => if OnDevice(buffers, r.output) then BytesIn(buffers, r.output) else 0
       case DownloadCalls => if OnDevice(buffers, r.output) then 0 else 1
       case DownloadBytes => if OnDevice(buffers, r.output) then 0 else BytesIn(buffers, r.output)
       case _ => 0)
    else if r.kind == 2 then
      (match k
       case CpuCalls => if r.target == 0 then 1 else 0
       case GpuCalls => if r.target == 0 then 0 else 1
       case ValidationDownloadCalls => if OnDevice(buffers, r.output) then 1 else 0
       case ValidationDownloadBytes => if OnDevice(buffers, r.output) then BytesIn(buffers, r.output) else 0
       case _ => 0)
    else if r.kind == 3 then
      (match k
       case ScalarChecks => BytesIn(buffers, r.input0) / 4
       case PublishedOutputs => 1
       case _ => 0)
    else 0
  }

  function RowsCount(buffers: seq<BufferRow>, rows: seq<Row>, k: Counter): int {
    if rows == [] then 0
    else RowsCount(buffers, rows[..|rows| - 1], k) + RowCount(buffers, rows[|rows| - 1], k)
  }

  /** An event and its row, counting alike. */
  ghost predicate Twin(buffers: seq<Buffer>, e: Event, r: Row) {
    && EncodeEvent(e) == Ok(r) && WellShapedEvent(buffers, e)
    && forall k: Counter :: RowCount(EncodeBuffers(buffers), r, k) == EventCount(buffers, e, k)
  }

  ghost predicate Twins(buffers: seq<Buffer>, events: seq<Event>, rows: seq<Row>) {
    |events| == |rows| && forall i | 0 <= i < |rows| :: Twin(buffers, events[i], rows[i])
  }

  /** An accepted event and its row count alike. */
  lemma AcceptedTwin(c: Context, buffers: seq<Buffer>, st: Inspection, e: Event)
    requires Tabled(c, buffers) && Encodable(e)
    requires CheckEvent(c, buffers, st, e).Ok? && WellShapedEvent(buffers, e)
    ensures EncodeEvent(e).Ok? && Twin(buffers, e, EncodeEvent(e).value)
  {
    var r := EncodeEvent(e).value;
    if e.kind == Copy || e.kind == Execute {
      BufferSpace(c, buffers, e.outputs[0]);
      if e.kind == Execute {
        ExecuteCheck(c, buffers, st, e);
      }
    }
    forall k: Counter
      ensures RowCount(EncodeBuffers(buffers), r, k) == EventCount(buffers, e, k)
    {
    }
  }

  lemma {:induction false} TwinsCount(buffers: seq<Buffer>, events: seq<Event>, rows: seq<Row>, k: Counter)
    requires Twins(buffers, events, rows)
    ensures WellShaped(buffers, events)
    ensures RowsCount(EncodeBuffers(buffers), rows, k) == Count(buffers, events, k)
  {
    if rows != [] {
      var n := |rows| - 1;
      TwinsCount(buffers, events[..n], rows[..n], k);
      assert Twin(buffers, events[n], rows[n]);
    }
  }

  // ----- Lockstep -----

  /** The flags, in terms of how many events of each kind went by. */
  predicate FlagsMatch(fault: nat, steps: seq<Event>, st: TablePass) {
    && (st.skippedOperation <==> fault == 1 && KindCount(steps, Execute) > 0)
    && (st.skippedCopy <==> fault == 4 && KindCount(steps, Copy) > 0)
    && (st.firstPublication <==> !(fault == 3 && KindCount(steps, PublishOutput) > 0))
  }

  ghost predicate InLockstep(fault: nat, buffers: seq<Buffer>, steps: seq<Event>, o: Outcome, t: TableOutcome) {
    match o
    case Stopped(reason, ran) => t.TableStopped? && t.reason == reason && Twins(buffers, ran, t.ran)
    case Going(pass) =>
      && t.TableGoing? && t.pass.ready == pass.ready && FlagsMatch(fault, steps, t.pass)
      && Twins(buffers, pass.ran, t.pass.ran)
  }

  /** The counters of a pass that is still going. */
  predicate Counted(fault: nat, before: seq<Event>, pass: Pass) {
    && pass.copied == KindCount(before, Copy) && pass.published == KindCount(before, PublishOutput)
    && (fault == 2 ==> pass.published == 0)
  }

  lemma {:induction false} CopiedCounted(fault: nat, steps: seq<Event>)
    requires RunEvents(fault, steps).Going?
    ensures RunEvents(fault, steps).pass.copied == KindCount(steps, Copy)
  {
    if steps != [] {
      CopiedCounted(fault, steps[..|steps| - 1]);
    }
  }

  lemma NoEarlierCorruption(steps: seq<Event>)
    requires RunEvents(2, steps).Going?
    ensures KindCount(steps, PublishOutput) == 0
    decreases |steps|
  {
    PublishedCounted(2, steps);
    if steps != [] {
      var n := |steps| - 1;
      NoEarlierCorruption(steps[..n]);
      PublishedCounted(2, steps[..n]);
    }
  }

  lemma CountsKnown(fault: nat, before: seq<Event>)
    ensures RunEvents(fault, before).Going? ==> Counted(fault, before, RunEvents(fault, before).pass)
  {
    if RunEvents(fault, before).Going? {
      CopiedCounted(fault, before);
      PublishedCounted(fault, before);
      if fault == 2 {
        NoEarlierCorruption(before);
      }
    }
  }

  /** What a row must show of its event for the two machines to do the same. */
  predicate RowShows(e: Event, r: Row) {
    match e.kind
    case BindInput => r.kind == 0 && e.inputs == [] && SlotSet(e.outputs) == {r.output}
    case Copy => r.kind == 1 && e.inputs == [r.input0] && SlotSet(e.outputs) == {r.output}
    case Execute =>
      && r.kind == 2 && SlotSet(e.outputs) == {r.output}
      && e.inputs == (if r.input1 == NONE then [r.input0] else [r.input0, r.input1])
    case PublishOutput => r.kind == 3 && e.inputs == [r.input0] && SlotSet(e.outputs) == {}
    case UnknownKind => false
  }

  lemma RowShape(c: Context, buffers: seq<Buffer>, st: Inspection, index: nat, e: Event)
    requires Assigned(c) && InspectStep(c, buffers, st, index, e).Ok? && Encodable(e)
    requires e.kind == Execute ==> e.inputs != []
    ensures EncodeEvent(e).Ok? && RowShows(e, EncodeEvent(e).value)
  {
    AcceptedStepEffect(c, buffers, st, index, e);
  }

  lemma ReadyShown(e: Event, r: Row, ready: set<int>)
    requires RowShows(e, r)
    ensures AllReady(e.inputs, ready) <==>
            (e.kind == BindInput
             || (r.input0 in ready && (e.kind == Execute && r.input1 != NONE ==> r.input1 in ready)))
  {
    if e.kind != BindInput {
      assert e.inputs[0] == r.input0;
      if e.kind == Execute && r.input1 != NONE {
        assert e.inputs[1] == r.input1;
      }
    }
  }

  lemma NextFlags(fault: nat, before: seq<Event>, e: Event, steps: seq<Event>, st: TablePass, after: TablePass)
    requires steps == before + [e] && FlagsMatch(fault, before, st)
    requires after.skippedOperation == (st.skippedOperation || (fault == 1 && e.kind == Execute))
    requires after.skippedCopy == (st.skippedCopy || (fault == 4 && e.kind == Copy))
    requires after.firstPublication == (st.firstPublication && !(fault == 3 && e.kind == PublishOutput))
    ensures FlagsMatch(fault, steps, after)
  {
    assert steps[..|steps| - 1] == before;
  }

  lemma EventLockstep(fault: nat, buffers: seq<Buffer>, before: seq<Event>, e: Event, steps: seq<Event>,
                      pass: Pass, st: TablePass, r: Row)
    requires fault <= 4 && steps == before + [e] && RowShows(e, r) && Twin(buffers, e, r)
    requires InLockstep(fault, buffers, before, Going(pass), TableGoing(st)) && Counted(fault, before, pass)
    requires e.kind == Execute ==> (e.operation == Some(0) <==> KindCount(before, Execute) == 0)
    ensures InLockstep(fault, buffers, steps, PassEvent(fault, pass, e),
                       Unguarded(fault, EncodeBuffers(buffers), st, r))
  {
    ReadyShown(e, r, st.ready);
    var next := Unguarded(fault, EncodeBuffers(buffers), st, r);
    if next.TableGoing? {
      NextFlags(fault, before, e, steps, st, next.pass);
    }
  }

  /** Schedules whose events all have rows, operands included. */
  ghost predicate Tabular(steps: seq<Event>) {
    && AllEncodable(steps)
    && (forall i | 0 <= i < |steps| :: EncodeEvent(steps[i]).Ok?)
    && (forall i | 0 <= i < |steps| && steps[i].kind == Execute :: steps[i].inputs != [])
  }

  lemma TabularPrefix(steps: seq<Event>)
    requires Tabular(steps) && steps != []
    ensures Tabular(steps[..|steps| - 1])
    ensures EncodeEvents(steps)[..|steps| - 1] == EncodeEvents(steps[..|steps| - 1])
    ensures EncodeEvents(steps)[|steps| - 1] == EncodeEvent(steps[|steps| - 1]).value
  {
    assert forall i | 0 <= i < |steps| - 1 :: steps[..|steps| - 1][i] == steps[i];
  }

  /** What the last event of an accepted prefix shows. */
  lemma LastEventShown(c: Context, buffers: seq<Buffer>, steps: seq<Event>)
    requires Tabled(c, buffers) && Tabular(steps) && steps != [] && InspectSteps(c, buffers, steps).Ok?
    ensures
      var e := steps[|steps| - 1];
      && RowShows(e, EncodeEvent(e).value) && Twin(buffers, e, EncodeEvent(e).value)
      && (e.kind == Execute ==> (e.operation == Some(0) <==> KindCount(steps[..|steps| - 1], Execute) == 0))
  {
    var n := |steps| - 1;
    var insp := InspectSteps(c, buffers, steps[..n]).value;
    RowShape(c, buffers, insp, n, steps[n]);
    ReadyGrows(c, buffers, insp, n, steps[n]);
    ExecutedIsCounted(c, buffers, steps[..n]);
    PrefixWellShaped(c, buffers, steps);
    AcceptedTwin(c, buffers, insp, steps[n]);
  }

  /** The last row of a validated table is interpreted without hindrance. */
  lemma LastRowUnguarded(fault: nat, g: GraphTable, buffers: seq<BufferRow>, rows: seq<Row>)
    requires Usable(g, buffers) && rows != [] && RunRows(g, buffers, rows).Some?
    ensures
      var before := RunTable(fault, g, buffers, rows[..|rows| - 1]);
      RunTable(fault, g, buffers, rows)
      == if before.TableGoing? then Unguarded(fault, buffers, before.pass, rows[|rows| - 1]) else before
  {
    var n := |rows| - 1;
    TableTrails(fault, g, buffers, rows[..n]);
    var before := RunTable(fault, g, buffers, rows[..n]);
    if before.TableGoing? {
      GuardsHold(fault, g, buffers, before.pass, RunRows(g, buffers, rows[..n]).value, rows[n]);
    }
  }

  /** A prefix both validators get through. */
  ghost predicate Validated(c: Context, buffers: seq<Buffer>, steps: seq<Event>) {
    && Tabled(c, buffers) && Tabular(steps) && InspectSteps(c, buffers, steps).Ok?
    && Usable(EncodeGraph(c), EncodeBuffers(buffers))
    && RunRows(EncodeGraph(c), EncodeBuffers(buffers), EncodeEvents(steps)).Some?
  }

  lemma ValidatedPrefix(c: Context, buffers: seq<Buffer>, steps: seq<Event>)
    requires Validated(c, buffers, steps) && steps != []
    ensures Validated(c, buffers, steps[..|steps| - 1])
  {
    TabularPrefix(steps);
  }

  /** The interpreter on the table of a schedule. */
  function TableRun(fault: nat, c: Context, buffers: seq<Buffer>, steps: seq<Event>): TableOutcome
    requires GraphFits(c.graph) && Assigned(c) && StandardDeployment(c.deployment)
    requires forall i | 0 <= i < |steps| :: EncodeEvent(steps[i]).Ok?
  {
    RunTable(fault, EncodeGraph(c), EncodeBuffers(buffers), EncodeEvents(steps))
  }

  lemma TableRunNext(fault: nat, c: Context, buffers: seq<Buffer>, steps: seq<Event>)
    requires Validated(c, buffers, steps) && steps != [] && Tabular(steps[..|steps| - 1])
    ensures
      var before := TableRun(fault, c, buffers, steps[..|steps| - 1]);
      TableRun(fault, c, buffers, steps)
      == if before.TableGoing?
         then Unguarded(fault, EncodeBuffers(buffers), before.pass, EncodeEvent(steps[|steps| - 1]).value) else before
  {
    TabularPrefix(steps);
    LastRowUnguarded(fault, EncodeGraph(c), EncodeBuffers(buffers), EncodeEvents(steps));
  }

  /** Lockstep over an accepted schedule, for a clean run and for every fault. */
  lemma {:induction false} TableLockstep(c: Context, buffers: seq<Buffer>, steps: seq<Event>, fault: nat)
    requires Validated(c, buffers, steps) && fault <= 4
    ensures InLockstep(fault, buffers, steps, RunEvents(fault, steps), TableRun(fault, c, buffers, steps))
  {
    if steps != [] {
      var n := |steps| - 1;
      ValidatedPrefix(c, buffers, steps);
      TableLockstep(c, buffers, steps[..n], fault);
      LastEventShown(c, buffers, steps);
      TableRunNext(fault, c, buffers, steps);
      CountsKnown(fault, steps[..n]);
      OutcomeLockstep(fault, buffers, steps[..n], steps[n], steps, EncodeEvent(steps[n]).value,
                      RunEvents(fault, steps[..n]), TableRun(fault, c, buffers, steps[..n]),
                      RunEvents(fault, steps), TableRun(fault, c, buffers, steps));
    }
  }

  lemma OutcomeLockstep(fault: nat, buffers: seq<Buffer>, before: seq<Event>, e: Event, steps: seq<Event>, r: Row,
                        out: Outcome, table: TableOutcome, nextOut: Outcome, nextTable: TableOutcome)
    requires fault <= 4 && steps == before + [e] && RowShows(e, r) && Twin(buffers, e, r)
    requires InLockstep(fault, buffers, before, out, table)
    requires out.Going? ==> Counted(fault, before, out.pass)
    requires e.kind == Execute ==> (e.operation == Some(0) <==> KindCount(before, Execute) == 0)
    requires nextOut == if out.Going? then PassEvent(fault, out.pass, e) else out
    requires nextTable == if table.TableGoing? then Unguarded(fault, EncodeBuffers(buffers), table.pass, r) else table
    ensures InLockstep(fault, buffers, steps, nextOut, nextTable)
  {
    if out.Going? {
      EventLockstep(fault, buffers, before, e, steps, out.pass, table.pass, r);
    }
  }

  // ----- Whole runs -----

  /** What the workers accept and can hold. */
  ghost predicate Deployable(c: Context, p: Plan) {
    && Tabled(c, p.buffers) && Accepted(c, p)
    && TensorsListed(c.graph) && SingleAssignment(c.graph) && c.graph.operations != []
    && (forall t | 0 <= t < |c.graph.shapes| :: 0 < Bytes(c.graph.shapes[t]) <= MAX_BUFFER_BYTES)
    && AllEncodable(p.steps) && (forall i | 0 <= i < |p.steps| :: EncodeEvent(p.steps[i]).Ok?)
    && TableAccepts(EncodeGraph(c), EncodeBuffers(p.buffers), EncodeEvents(p.steps))
  }

  lemma OperationPorts(c: Context, i: nat)
    requires GraphFits(c.graph) && Assigned(c) && StandardDeployment(c.deployment) && TensorsListed(c.graph)
    requires i < |c.graph.operations|
    ensures EncodeGraph(c).operations[i].kind == 0 <==> EncodeGraph(c).operations[i].input1 != NONE
  {
    var op := c.graph.operations[i];
    assert PortsMatch(op);
    if op.kind == Matmul {
      assert op.inputs[1] < |c.graph.shapes|;
    }
  }

  lemma TensorFits(c: Context, t: nat)
    requires GraphFits(c.graph) && Assigned(c) && StandardDeployment(c.deployment)
    requires t < |c.graph.shapes| && 0 < Bytes(c.graph.shapes[t]) <= MAX_BUFFER_BYTES
    ensures 0 < EncodeGraph(c).tensorBytes[t] <= MAX_BUFFER_BYTES && EncodeGraph(c).tensorBytes[t] % 4 == 0
  {
    var size := Prod(c.graph.shapes[t]);
    assert EncodeGraph(c).tensorBytes[t] == size * 4;
  }

  lemma GraphUsable(c: Context)
    requires GraphFits(c.graph) && Assigned(c) && StandardDeployment(c.deployment) && TensorsListed(c.graph)
    requires forall t | 0 <= t < |c.graph.shapes| :: 0 < Bytes(c.graph.shapes[t]) <= MAX_BUFFER_BYTES
    ensures UsableGraph(EncodeGraph(c))
  {
    var g := EncodeGraph(c);
    forall i | 0 <= i < |g.operations|
      ensures g.operations[i].kind == 0 <==> g.operations[i].input1 != NONE
    {
      OperationPorts(c, i);
    }
    forall t | 0 <= t < |g.tensorBytes|
      ensures 0 < g.tensorBytes[t] <= MAX_BUFFER_BYTES && g.tensorBytes[t] % 4 == 0
    {
      TensorFits(c, t);
    }
  }

  lemma DeployableTabular(c: Context, p: Plan)
    requires Deployable(c, p)
    ensures Tabular(p.steps)
  {
    forall i | 0 <= i < |p.steps| && p.steps[i].kind == Execute
      ensures p.steps[i].inputs != []
    {
      ExecuteHasInputs(c, p, i);
    }
  }

  lemma ExecuteHasInputs(c: Context, p: Plan, i: nat)
    requires Tabled(c, p.buffers) && Accepted(c, p) && i < |p.steps| && p.steps[i].kind == Execute
             && Encodable(p.steps[i])
    ensures p.steps[i].inputs != []
  {
    StepOfAccepted(c, p.buffers, p.steps, i);
    var st := InspectSteps(c, p.buffers, p.steps[..i]).value;
    ExecuteCheck(c, p.buffers, st, p.steps[i]);
    assert PortsMatch(c.graph.operations[st.executed]);
  }

  /** Some tensor must be published. */
  lemma OutputsExist(c: Context, p: Plan)
    requires Deployable(c, p)
    ensures EncodeGraph(c).outputs != {}
  {
    SomethingPublished(c, p);
    ExecutedIsCounted(c, p.buffers, p.steps);
    BoundsRespected(c, p.buffers, p.steps);
    var t :| t in InspectSteps(c, p.buffers, p.steps).value.published;
    assert t as int in EncodeGraph(c).outputs;
  }

  /** A receipt as the workers report it. */
  datatype TableReceipt = TableReceipt(passed: bool, reason: string, caseRuns: nat, ran: seq<Row>)

  /** The workers' first n case runs, stopping at the first that fails. */
  function RunCases(fault: nat, g: GraphTable, buffers: seq<BufferRow>, rows: seq<Row>, n: nat): TableReceipt
    requires |g.targets| == |g.operations|
  {
    if n == 0 then TableReceipt(true, "none", 0, [])
    else
      var before := RunCases(fault, g, buffers, rows, n - 1);
      if !before.passed then before
      else
        match RunCase(fault, g, buffers, rows)
        case TableStopped(reason, ran) => TableReceipt(false, reason, before.caseRuns, before.ran + ran)
        case TableGoing(st) => TableReceipt(true, "none", before.caseRuns + 1, before.ran + st.ran)
  }

  /** A case that ended as the machine's pass did, the missing publication included. */
  ghost predicate EndsAlike(fault: nat, buffers: seq<Buffer>, out: Outcome, ended: TableOutcome) {
    if out.Going? && fault != 3 then ended.TableGoing? && Twins(buffers, out.pass.ran, ended.pass.ran)
    else
      && ended.TableStopped? && ended.reason == (if out.Going? then "missing_publication" else out.reason)
      && Twins(buffers, if out.Going? then out.pass.ran else out.ran, ended.ran)
  }

  lemma CaseAgrees(c: Context, p: Plan, fault: nat)
    requires Deployable(c, p) && fault <= 4
    ensures EndsAlike(fault, p.buffers, RunEvents(fault, p.steps),
                      RunCase(fault, EncodeGraph(c), EncodeBuffers(p.buffers), EncodeEvents(p.steps)))
  {
    GraphUsable(c);
    DeployableTabular(c, p);
    OutputsExist(c, p);
    TableLockstep(c, p.buffers, p.steps, fault);
    CaseVerdict(fault, EncodeGraph(c), EncodeBuffers(p.buffers), EncodeEvents(p.steps));
  }

  lemma TwinsJoin(buffers: seq<Buffer>, events: seq<Event>, rows: seq<Row>, more: seq<Event>, moreRows: seq<Row>)
    requires Twins(buffers, events, rows) && Twins(buffers, more, moreRows)
    ensures Twins(buffers, events + more, rows + moreRows)
  {
  }

  ghost predicate Alike(buffers: seq<Buffer>, machine: Receipt, table: TableReceipt) {
    && table.passed == machine.passed && table.reason == machine.reason && table.caseRuns == machine.caseRuns
    && Twins(buffers, machine.ran, table.ran)
  }

  /** One more run, on receipts alike so far. */
  lemma AlikeNext(buffers: seq<Buffer>, machine: Receipt, table: TableReceipt,
                  reason: string, events: seq<Event>, rows: seq<Row>)
    requires Alike(buffers, machine, table) && Twins(buffers, events, rows)
    ensures Alike(buffers, Receipt(false, reason, machine.caseRuns, machine.ran + events),
                  TableReceipt(false, reason, table.caseRuns, table.ran + rows))
    ensures Alike(buffers, Receipt(true, "none", machine.caseRuns + 1, machine.ran + events),
                  TableReceipt(true, "none", table.caseRuns + 1, table.ran + rows))
  {
    TwinsJoin(buffers, machine.ran, table.ran, events, rows);
  }

  lemma {:induction false} ReceiptsAlike(fault: nat, buffers: seq<Buffer>, steps: seq<Event>,
                                         g: GraphTable, bufferRows: seq<BufferRow>, rows: seq<Row>, n: nat)
    requires |g.targets| == |g.operations|
    requires EndsAlike(fault, buffers, RunEvents(fault, steps), RunCase(fault, g, bufferRows, rows))
    ensures Alike(buffers, RunPasses(steps, fault, n), RunCases(fault, g, bufferRows, rows, n))
  {
    if n > 0 {
      ReceiptsAlike(fault, buffers, steps, g, bufferRows, rows, n - 1);
      var out, ended := RunEvents(fault, steps), RunCase(fault, g, bufferRows, rows);
      AlikeNext(buffers, RunPasses(steps, fault, n - 1), RunCases(fault, g, bufferRows, rows, n - 1),
                if ended.TableStopped? then ended.reason else "none",
                if out.Going? then out.pass.ran else out.ran, if ended.TableGoing? then ended.pass.ran else ended.ran);
    }
  }

  /** The workers' receipt is the machine's: same verdict, same runs, same events, after any number of runs. */
  lemma TableReceiptAgrees(c: Context, p: Plan, fault: nat, n: nat)
    requires Deployable(c, p) && fault <= 4
    ensures Alike(p.buffers, RunPasses(p.steps, fault, n),
                  RunCases(fault, EncodeGraph(c), EncodeBuffers(p.buffers), EncodeEvents(p.steps), n))
  {
    CaseAgrees(c, p, fault);
    ReceiptsAlike(fault, p.buffers, p.steps, EncodeGraph(c), EncodeBuffers(p.buffers), EncodeEvents(p.steps), n);
  }

  /** Every counter the workers print after their six runs is the prescribed one. */
  lemma WorkersReportReceipt(c: Context, p: Plan, fault: nat, k: Counter)
    requires Deployable(c, p) && fault <= 4
    ensures
      var machine := RunPasses(p.steps, fault, PASSES);
      var table := RunCases(fault, EncodeGraph(c), EncodeBuffers(p.buffers), EncodeEvents(p.steps), PASSES);
      && table.reason == machine.reason
      && WellShaped(p.buffers, machine.ran)
      && Reported(p.buffers, machine, k)
         == if k == CaseRuns then table.caseRuns else RowsCount(EncodeBuffers(p.buffers), table.ran, k)
  {
    TableReceiptAgrees(c, p, fault, PASSES);
    TwinsCount(p.buffers, RunPasses(p.steps, fault, PASSES).ran,
               RunCases(fault, EncodeGraph(c), EncodeBuffers(p.buffers), EncodeEvents(p.steps), PASSES).ran, k);
  }
}
