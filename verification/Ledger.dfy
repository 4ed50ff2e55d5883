/**
  What the counters of a clean traversal come to, without looking at its events: every counter of
  the receipts (examples/bounded_dag_native.py, expected_receipt) is a figure of the graph, the
  placement and the buffers of the accepted plan.
 */
module Ledger {
  import opened Graphs
  import opened Residency
  import opened Schedules
  import opened Conservation
  import opened Receipts
  import opened Faults

  /** A side of the machine: the spaces that count. */
  type Side = Space -> bool

  predicate OnDevice(s: Space) {
    s == "accelerator"
  }

  predicate RunsOnC11(b: Backend) {
    b == "c11"
  }

  predicate RunsElsewhere(b: Backend) {
    b != "c11"
  }

  function WeightOf(b: Buffer, side: Side, sized: bool): int {
    if !side(b.space) then 0 else if sized then b.bytes else 1
  }

  /** The buffers with other weights in place of their sizes: one each, or their sizes, on one side only. */
  function Weighted(buffers: seq<Buffer>, side: Side, sized: bool): (ws: seq<Buffer>)
    ensures |ws| == |buffers|
    ensures forall i | 0 <= i < |ws| :: ws[i] == buffers[i].(bytes := WeightOf(buffers[i], side, sized))
  {
    seq(|buffers|, i requires 0 <= i < |buffers| => buffers[i].(bytes := WeightOf(buffers[i], side, sized)))
  }

  /** What the events of one kind bring in. */
  function Flow(ws: seq<Buffer>, steps: seq<Event>, kind: EventKind): int {
    if steps == [] then 0
    else
      var e := steps[|steps| - 1];
      Flow(ws, steps[..|steps| - 1], kind) + (if e.kind == kind then BytesAt(ws, e.outputs) else 0)
  }

  /** The buffers on one side, counted or measured. */
  function Stock(buffers: seq<Buffer>, side: Side, sized: bool): int {
    TotalBytes(Weighted(buffers, side, sized))
  }

  /** The results of the first n operations on one side, counted or measured. */
  function Made(c: Context, side: Side, sized: bool, n: nat): int
    requires Assigned(c) && n <= |c.graph.operations|
  {
    if n == 0 then 0
    else
      Made(c, side, sized, n - 1)
      + (if !side(SpaceOf(c, n - 1)) then 0
         else if sized then TensorBytes(c.graph, c.graph.operations[n - 1].output) else 1)
  }

  /** The operations whose backend is one of some, counted or measured by their results. */
  function Ran(c: Context, backends: Backend -> bool, sized: bool, n: nat): int
    requires Assigned(c) && n <= |c.graph.operations|
  {
    if n == 0 then 0
    else
      Ran(c, backends, sized, n - 1)
      + (if !backends(c.deployment.assignments[n - 1]) then 0
         else if sized then TensorBytes(c.graph, c.graph.operations[n - 1].output) else 1)
  }

  // ----- Slots are filled once -----

  /** Everything ready was brought in by some event. */
  ghost predicate Balanced(ws: seq<Buffer>, steps: seq<Event>, st: Inspection) {
    ReadyBytes(ws, st.ready, |ws|) == Flow(ws, steps, BindInput) + Flow(ws, steps, Copy) + Flow(ws, steps, Execute)
  }

  lemma StepBalanced(c: Context, buffers: seq<Buffer>, ws: seq<Buffer>, steps: seq<Event>, st: Inspection,
                     index: nat, after: Inspection)
    requires Assigned(c) && steps != [] && |ws| == |buffers|
    requires StepEffect(c, buffers, st, index, steps[|steps| - 1], after)
    requires Balanced(ws, steps[..|steps| - 1], st)
    ensures Balanced(ws, steps, after)
  {
    var e := steps[|steps| - 1];
    if e.kind != PublishOutput {
      ReadyBytesAdd(ws, st.ready, e.outputs[0], |ws|);
    }
  }

  lemma {:induction false} PrefixBalanced(c: Context, buffers: seq<Buffer>, ws: seq<Buffer>, steps: seq<Event>)
    requires Assigned(c) && InspectSteps(c, buffers, steps).Ok? && |ws| == |buffers|
    ensures Balanced(ws, steps, InspectSteps(c, buffers, steps).value)
  {
    if steps == [] {
      EmptyBytes(ws, |ws|);
    } else {
      var n := |steps| - 1;
      var before := InspectSteps(c, buffers, steps[..n]).value;
      PrefixBalanced(c, buffers, ws, steps[..n]);
      AcceptedStepEffect(c, buffers, before, n, steps[n]);
      StepBalanced(c, buffers, ws, steps, before, n, InspectSteps(c, buffers, steps).value);
    }
  }

  ghost predicate Flows(c: Context, ws: seq<Buffer>, steps: seq<Event>, side: Side, sized: bool, n: nat)
    requires Assigned(c)
  {
    && n <= |c.graph.operations|
    && Flow(ws, steps, BindInput) == 0 && Flow(ws, steps, Execute) == Made(c, side, sized, n)
  }

  lemma LandedWeight(buffers: seq<Buffer>, slots: seq<int>, side: Side, sized: bool)
    requires |slots| == 1 && 0 <= slots[0] < |buffers|
    ensures BytesAt(Weighted(buffers, side, sized), slots) == WeightOf(buffers[slots[0]], side, sized)
  {
  }

  lemma MadeNext(c: Context, buffers: seq<Buffer>, side: Side, sized: bool, i: nat, slot: int)
    requires Assigned(c) && InspectBuffers(c, buffers).Ok? && i < |c.graph.operations| && 0 <= slot < |buffers|
    requires buffers[slot].tensor == c.graph.operations[i].output && buffers[slot].space == SpaceOf(c, i)
    ensures Made(c, side, sized, i + 1) == Made(c, side, sized, i) + WeightOf(buffers[slot], side, sized)
  {
    assert InspectBuffer(c, buffers[slot]).Ok?;
    assert buffers[slot].bytes == TensorBytes(c.graph, c.graph.operations[i].output);
  }

  lemma StepFlows(c: Context, buffers: seq<Buffer>, steps: seq<Event>, side: Side, sized: bool, st: Inspection,
                  index: nat, after: Inspection)
    requires Assigned(c) && InspectBuffers(c, buffers).Ok? && steps != [] && !side(c.deployment.host)
    requires StepEffect(c, buffers, st, index, steps[|steps| - 1], after)
    requires Flows(c, Weighted(buffers, side, sized), steps[..|steps| - 1], side, sized, st.executed)
    ensures Flows(c, Weighted(buffers, side, sized), steps, side, sized, after.executed)
  {
    var e := steps[|steps| - 1];
    if e.kind == Execute {
      LandedWeight(buffers, e.outputs, side, sized);
      MadeNext(c, buffers, side, sized, st.executed, e.outputs[0]);
    } else if e.kind == BindInput {
      LandedWeight(buffers, e.outputs, side, sized);
    }
  }

  /** Bindings stay on the host's side, executions are the operations. */
  lemma {:induction false} FlowsOf(c: Context, buffers: seq<Buffer>, steps: seq<Event>, side: Side, sized: bool)
    requires Assigned(c) && InspectBuffers(c, buffers).Ok? && InspectSteps(c, buffers, steps).Ok?
    requires !side(c.deployment.host)
    ensures Flows(c, Weighted(buffers, side, sized), steps, side, sized, InspectSteps(c, buffers, steps).value.executed)
  {
    if steps != [] {
      var n := |steps| - 1;
      var before := InspectSteps(c, buffers, steps[..n]).value;
      FlowsOf(c, buffers, steps[..n], side, sized);
      AcceptedStepEffect(c, buffers, before, n, steps[n]);
      StepFlows(c, buffers, steps, side, sized, before, n, InspectSteps(c, buffers, steps).value);
    }
  }

  /** Copies to a side, by what the plan holds there: all its slots but the results made there. */
  lemma CopiesByStock(c: Context, p: Plan, side: Side, sized: bool)
    requires Assigned(c) && Accepted(c, p) && !side(c.deployment.host)
    ensures Flow(Weighted(p.buffers, side, sized), p.steps, Copy)
         == Stock(p.buffers, side, sized) - Made(c, side, sized, |c.graph.operations|)
  {
    var ws := Weighted(p.buffers, side, sized);
    PrefixBalanced(c, p.buffers, ws, p.steps);
    FlowsOf(c, p.buffers, p.steps, side, sized);
    ReadyBytesAll(ws, AllSlots(|ws|), |ws|);
    assert ws[..|ws|] == ws;
  }

  // ----- The receipts' counters -----

  /** One copy on the receipt's counters. */
  lemma CopyBooked(buffers: seq<Buffer>, e: Event)
    requires WellShapedEvent(buffers, e) && |e.outputs| <= 1
    ensures
      var kind := e.kind == Copy;
      && EventCount(buffers, e, UploadCalls)
         == (if kind then BytesAt(Weighted(buffers, OnDevice, false), e.outputs) else 0)
      && EventCount(buffers, e, UploadBytes)
         == (if kind then BytesAt(Weighted(buffers, OnDevice, true), e.outputs) else 0)
      && EventCount(buffers, e, UploadCalls) + EventCount(buffers, e, DownloadCalls) == (if kind then 1 else 0)
      && EventCount(buffers, e, UploadBytes) + EventCount(buffers, e, DownloadBytes)
         == (if kind then BytesAt(buffers, e.outputs) else 0)
  {
  }

  predicate OneOutput(events: seq<Event>) {
    forall i | 0 <= i < |events| :: |events[i].outputs| <= 1
  }

  lemma {:induction false} UploadsAreFlows(buffers: seq<Buffer>, steps: seq<Event>)
    requires WellShaped(buffers, steps) && OneOutput(steps)
    ensures Count(buffers, steps, UploadCalls) == Flow(Weighted(buffers, OnDevice, false), steps, Copy)
    ensures Count(buffers, steps, UploadBytes) == Flow(Weighted(buffers, OnDevice, true), steps, Copy)
    ensures Count(buffers, steps, UploadCalls) + Count(buffers, steps, DownloadCalls) == KindCount(steps, Copy)
    ensures Count(buffers, steps, UploadBytes) + Count(buffers, steps, DownloadBytes) == CopyBytes(buffers, steps)
  {
    if steps != [] {
      var n := |steps| - 1;
      UploadsAreFlows(buffers, steps[..n]);
      CopyBooked(buffers, steps[n]);
    }
  }

  lemma AcceptedOneOutput(c: Context, p: Plan)
    requires Assigned(c) && Accepted(c, p)
    ensures OneOutput(p.steps)
  {
    forall i | 0 <= i < |p.steps|
      ensures |p.steps[i].outputs| <= 1
    {
      StepOfAccepted(c, p.buffers, p.steps, i);
    }
  }

  /** Calls and validation downloads, by the operations executed so far. */
  ghost predicate CallsBooked(c: Context, buffers: seq<Buffer>, steps: seq<Event>, n: nat)
    requires Assigned(c) && n <= |c.graph.operations| && WellShaped(buffers, steps)
  {
    && Count(buffers, steps, CpuCalls) == Ran(c, RunsOnC11, false, n)
    && Count(buffers, steps, GpuCalls) == Ran(c, RunsElsewhere, false, n)
    && Count(buffers, steps, ValidationDownloadCalls) == Ran(c, RunsElsewhere, false, n)
    && Count(buffers, steps, ValidationDownloadBytes) == Ran(c, RunsElsewhere, true, n)
  }

  /** One event on the receipt's counters of calls. */
  lemma CallBooked(buffers: seq<Buffer>, e: Event)
    requires WellShapedEvent(buffers, e)
    ensures
      var gpu := e.kind == Execute && e.backend != "c11";
      && EventCount(buffers, e, CpuCalls) == (if e.kind == Execute && e.backend == "c11" then 1 else 0)
      && EventCount(buffers, e, GpuCalls) == EventCount(buffers, e, ValidationDownloadCalls) == (if gpu then 1 else 0)
      && EventCount(buffers, e, ValidationDownloadBytes) == (if gpu then buffers[e.outputs[0]].bytes else 0)
  {
  }

  lemma CallsNext(c: Context, buffers: seq<Buffer>, steps: seq<Event>, st: Inspection, index: nat, after: Inspection)
    requires Assigned(c) && InspectBuffers(c, buffers).Ok? && WellShaped(buffers, steps) && steps != []
    requires StepEffect(c, buffers, st, index, steps[|steps| - 1], after) && st.executed <= |c.graph.operations|
    requires CallsBooked(c, buffers, steps[..|steps| - 1], st.executed)
    ensures after.executed <= |c.graph.operations| && CallsBooked(c, buffers, steps, after.executed)
  {
    var e := steps[|steps| - 1];
    CallBooked(buffers, e);
    if e.kind == Execute {
      assert InspectBuffer(c, buffers[e.outputs[0]]).Ok?;
      assert buffers[e.outputs[0]].bytes == TensorBytes(c.graph, c.graph.operations[st.executed].output);
    }
  }

  lemma {:induction false} CallsByOperations(c: Context, buffers: seq<Buffer>, steps: seq<Event>)
    requires Assigned(c) && InspectBuffers(c, buffers).Ok? && InspectSteps(c, buffers, steps).Ok?
    requires WellShaped(buffers, steps)
    ensures InspectSteps(c, buffers, steps).value.executed <= |c.graph.operations|
    ensures CallsBooked(c, buffers, steps, InspectSteps(c, buffers, steps).value.executed)
  {
    if steps != [] {
      var n := |steps| - 1;
      var before := InspectSteps(c, buffers, steps[..n]).value;
      CallsByOperations(c, buffers, steps[..n]);
      AcceptedStepEffect(c, buffers, before, n, steps[n]);
      CallsNext(c, buffers, steps, before, n, InspectSteps(c, buffers, steps).value);
    }
  }

  ghost predicate PublicationsBooked(c: Context, buffers: seq<Buffer>, steps: seq<Event>, published: set<Tensor>)
    requires WellShaped(buffers, steps)
  {
    && Count(buffers, steps, PublishedOutputs) == |published|
    && 4 * Count(buffers, steps, ScalarChecks) == TensorSetBytes(c.graph, published, |c.graph.shapes|)
  }

  lemma PublicationBooked(c: Context, buffers: seq<Buffer>, steps: seq<Event>, st: Inspection, index: nat,
                          after: Inspection)
    requires Assigned(c) && InspectBuffers(c, buffers).Ok? && WellShaped(buffers, steps) && steps != []
    requires StepEffect(c, buffers, st, index, steps[|steps| - 1], after)
    requires PublicationsBooked(c, buffers, steps[..|steps| - 1], st.published)
    ensures PublicationsBooked(c, buffers, steps, after.published)
  {
    var e := steps[|steps| - 1];
    if e.kind == PublishOutput {
      var b := buffers[e.inputs[0]];
      assert InspectBuffer(c, b).Ok?;
      assert b.bytes == Prod(c.graph.shapes[b.tensor]) * 4;
      TensorSetBytesAdd(c.graph, st.published, b.tensor, |c.graph.shapes|);
    }
  }

  lemma {:induction false} PublishedByTensors(c: Context, buffers: seq<Buffer>, steps: seq<Event>)
    requires Assigned(c) && InspectBuffers(c, buffers).Ok? && InspectSteps(c, buffers, steps).Ok?
    requires WellShaped(buffers, steps)
    ensures PublicationsBooked(c, buffers, steps, InspectSteps(c, buffers, steps).value.published)
  {
    if steps == [] {
      NoTensorBytes(c.graph, |c.graph.shapes|);
    } else {
      var n := |steps| - 1;
      var before := InspectSteps(c, buffers, steps[..n]).value;
      PublishedByTensors(c, buffers, steps[..n]);
      AcceptedStepEffect(c, buffers, before, n, steps[n]);
      PublicationBooked(c, buffers, steps, before, n, InspectSteps(c, buffers, steps).value);
    }
  }

  /** One clean traversal, counter by counter, read off the graph, its placement and the plan's buffers. */
  ghost predicate Books(c: Context, p: Plan, count: Counter -> int)
    requires Assigned(c)
  {
    var operations := |c.graph.operations|;
    && count(CpuCalls) == Ran(c, RunsOnC11, false, operations)
    && count(GpuCalls) == operations - count(CpuCalls)
    && count(ValidationDownloadCalls) == count(GpuCalls)
    && count(ValidationDownloadBytes) == Ran(c, RunsElsewhere, true, operations)
    && count(UploadCalls)
       == Stock(p.buffers, OnDevice, false) - Made(c, OnDevice, false, operations)
    && count(UploadBytes)
       == Stock(p.buffers, OnDevice, true) - Made(c, OnDevice, true, operations)
    && count(UploadCalls) + count(DownloadCalls) == |p.buffers| - |ExternalInputs(c.graph)| - operations
    && count(UploadBytes) + count(DownloadBytes)
       == TotalBytes(p.buffers) - TensorSetBytes(c.graph, ExternalInputs(c.graph), |c.graph.shapes|)
          - ResultBytes(c.graph, operations)
    && count(PublishedOutputs) == |Terminals(c.graph)|
    && 4 * count(ScalarChecks) == TensorSetBytes(c.graph, Terminals(c.graph), |c.graph.shapes|)
  }

  lemma {:induction false} EitherBackend(c: Context, n: nat)
    requires Assigned(c) && n <= |c.graph.operations|
    ensures Ran(c, RunsOnC11, false, n) + Ran(c, RunsElsewhere, false, n) == n
  {
    if n > 0 {
      EitherBackend(c, n - 1);
    }
  }

  function Traversed(p: Plan, k: Counter): int {
    if WellShaped(p.buffers, p.steps) then Count(p.buffers, p.steps, k) else 0
  }

  lemma TraversalBooks(c: Context, p: Plan)
    requires Assigned(c) && Accepted(c, p) && c.deployment.host != "accelerator"
    ensures WellShaped(p.buffers, p.steps)
    ensures Books(c, p, (k: Counter) => Traversed(p, k))
  {
    AcceptedWellShaped(c, p);
    AcceptedOneOutput(c, p);
    UploadsAreFlows(p.buffers, p.steps);
    CopiesByStock(c, p, OnDevice, false);
    CopiesByStock(c, p, OnDevice, true);
    CallsByOperations(c, p.buffers, p.steps);
    EitherBackend(c, |c.graph.operations|);
    PublishedByTensors(c, p.buffers, p.steps);
    AcceptedPlanConserves(c, p);
  }

  /** The receipt of a clean run is six of those traversals. */
  lemma CleanReceiptBooks(c: Context, p: Plan) returns (count: Counter -> int)
    requires Assigned(c) && Accepted(c, p) && c.deployment.host != "accelerator"
    ensures Books(c, p, count)
    ensures WellShaped(p.buffers, RunPasses(p.steps, 0, 6).ran)
    ensures forall k: Counter ::
              Reported(p.buffers, RunPasses(p.steps, 0, 6), k) == if k == CaseRuns then 6 else 6 * count(k)
  {
    count := (k: Counter) => Traversed(p, k);
    TraversalBooks(c, p);
    CleanVerdict(c, p);
    forall k: Counter
      ensures WellShaped(p.buffers, Repeat(p.steps, 6))
      ensures Count(p.buffers, Repeat(p.steps, 6), k) == 6 * count(k)
    {
      CountRepeats(p.buffers, p.steps, 6, k);
    }
  }
}
