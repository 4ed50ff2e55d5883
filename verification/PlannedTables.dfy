/**
  From planner to workers: every plan the planner returns for the two-target deployment fits the
  integer tables and passes the C validator, so the native workers report the prescribed receipt.
 */
module PlannedTables {
  import opened Graphs
  import opened Residency
  import opened Schedules
  import opened Conservation
  import opened Planner
  import opened PlannerProofs
  import opened Receipts
  import opened Tables
  import opened TableMachine

  /** t was bound, or some operation produces it. */
  predicate Founded(g: Graph, bound: set<Tensor>, t: Tensor) {
    t in bound || Produced(g, t)
  }

  /** Every ready slot's tensor is founded, and so is every operand of an executed operation. */
  ghost predicate AllFounded(g: Graph, buffers: seq<Buffer>, st: Inspection) {
    && st.executed <= |g.operations|
    && (forall s | s in st.ready :: 0 <= s < |buffers| && Founded(g, st.bound, buffers[s].tensor))
    && (forall i, k | 0 <= i < st.executed && 0 <= k < |g.operations[i].inputs| ::
          Founded(g, st.bound, g.operations[i].inputs[k]))
  }

  lemma StepFounded(c: Context, buffers: seq<Buffer>, st: Inspection, index: nat, e: Event, after: Inspection)
    requires Assigned(c) && StepEffect(c, buffers, st, index, e, after) && AllFounded(c.graph, buffers, st)
    ensures AllFounded(c.graph, buffers, after)
  {
    if e.kind == Execute {
      assert Produced(c.graph, c.graph.operations[st.executed].output);
      forall k | 0 <= k < |c.graph.operations[st.executed].inputs|
        ensures Founded(c.graph, after.bound, c.graph.operations[st.executed].inputs[k])
      {
        assert buffers[e.inputs[k]].tensor == c.graph.operations[st.executed].inputs[k];
      }
    }
  }

  lemma {:induction false} PrefixFounded(c: Context, buffers: seq<Buffer>, steps: seq<Event>)
    requires Assigned(c) && InspectSteps(c, buffers, steps).Ok?
    ensures AllFounded(c.graph, buffers, InspectSteps(c, buffers, steps).value)
  {
    if steps != [] {
      var n := |steps| - 1;
      var before := InspectSteps(c, buffers, steps[..n]).value;
      PrefixFounded(c, buffers, steps[..n]);
      AcceptedStepEffect(c, buffers, before, n, steps[n]);
      StepFounded(c, buffers, before, n, steps[n], InspectSteps(c, buffers, steps).value);
    }
  }

  /** Once every operation has executed there is nothing left to bind: the C validator's rule for
      bindings costs no schedule anything. */
  lemma BindingsAreTimely(c: Context, buffers: seq<Buffer>, steps: seq<Event>, e: Event)
    requires Assigned(c) && InspectSteps(c, buffers, steps).Ok? && e.kind == BindInput
    requires CheckEvent(c, buffers, InspectSteps(c, buffers, steps).value, e).Ok?
    ensures InspectSteps(c, buffers, steps).value.executed != |c.graph.operations|
  {
    PrefixFounded(c, buffers, steps);
    var st := InspectSteps(c, buffers, steps).value;
    var t := buffers[e.outputs[0]].tensor;
    var i, k :| 0 <= i < |c.graph.operations| && 0 <= k < |c.graph.operations[i].inputs|
                && !Produced(c.graph, c.graph.operations[i].inputs[k]) && c.graph.operations[i].inputs[k] == t;
    assert i < st.executed ==> Founded(c.graph, st.bound, c.graph.operations[i].inputs[k]);
  }

  /** An accepted schedule is timely exactly when its publications come last. */
  lemma TimelyIffPublishesLast(c: Context, p: Plan)
    requires Assigned(c) && InspectSteps(c, p.buffers, p.steps).Ok?
    ensures AllTimely(c, p.buffers, p.steps) <==> LatePublications(c.graph, p.steps)
  {
    forall n | 0 <= n < |p.steps|
      ensures InspectSteps(c, p.buffers, p.steps[..n]).Ok?
      ensures Timely(c, InspectSteps(c, p.buffers, p.steps[..n]).value, p.steps[n])
         <==> (p.steps[n].kind == PublishOutput ==> KindCount(p.steps[..n], Execute) == |c.graph.operations|)
    {
      StepOfAccepted(c, p.buffers, p.steps, n);
      ExecutedIsCounted(c, p.buffers, p.steps[..n]);
      if p.steps[n].kind == BindInput {
        BindingsAreTimely(c, p.buffers, p.steps[..n], p.steps[n]);
      }
    }
  }

  /** Which accepted plans the C validator accepts, in terms of the plan alone. */
  lemma TableAcceptsIff(c: Context, p: Plan)
    requires Targeted(c, p.buffers) && Accepted(c, p)
    ensures HasRows(p.steps) && AllEncodable(p.steps)
    ensures TableAccepts(EncodeGraph(c), EncodeBuffers(p.buffers), EncodeEvents(p.steps))
       <==> DistinctPairs(p.buffers) && LatePublications(c.graph, p.steps)
  {
    AcceptedStepsFit(c, p.buffers, p.steps);
    InspectedIsLabelled(c, p.buffers);
    JoinIffMatmul(c, p.buffers, p.steps);
    ValidatorsAgree(c, p);
    TimelyIffPublishesLast(c, p);
  }

  // ----- Headers -----

  lemma {:induction false} RowBytesAgree(buffers: seq<Buffer>)
    ensures RowBytes(EncodeBuffers(buffers)) == TotalBytes(buffers)
  {
    if buffers != [] {
      var n := |buffers| - 1;
      assert EncodeBuffers(buffers)[..n] == EncodeBuffers(buffers[..n]);
      RowBytesAgree(buffers[..n]);
    }
  }

  lemma {:induction false} RowCopiesAgree(buffers: seq<Buffer>, steps: seq<Event>)
    requires HasRows(steps) && AllEncodable(steps) && |buffers| <= NONE
    ensures RowCopies(EncodeBuffers(buffers), EncodeEvents(steps)) == CopyBytes(buffers, steps)
  {
    if steps != [] {
      var n := |steps| - 1;
      assert EncodeEvents(steps)[..n] == EncodeEvents(steps[..n]);
      RowCopiesAgree(buffers, steps[..n]);
    }
  }

  /** The header the compiler writes for a plan. */
  function HeaderOf(p: Plan, profile: nat): Header {
    Header(profile, TotalBytes(p.buffers), CopyBytes(p.buffers, p.steps))
  }

  /** A plan small enough for the C arrays and budgets, placed as its profile says. */
  ghost predicate FitsProfile(c: Context, p: Plan, profile: nat)
    requires Assigned(c)
  {
    && profile <= 2 && 1 <= |p.buffers| <= 16 && 1 <= |p.steps| <= 18
    && 0 < TotalBytes(p.buffers) <= 7432 && CopyBytes(p.buffers, p.steps) <= 2656
    && forall i | 0 <= i < |c.graph.operations| ::
         (SpaceOf(c, i) == "host" <==> profile == 0 || (profile == 2 && i % 2 == 1))
  }

  /** The header's totals are the plan's, recomputed from the rows. */
  lemma HeaderIff(c: Context, p: Plan, profile: nat)
    requires Targeted(c, p.buffers) && Accepted(c, p) && HasRows(p.steps)
    ensures HeaderOk(EncodeGraph(c), HeaderOf(p, profile), EncodeBuffers(p.buffers), EncodeEvents(p.steps))
       <==> FitsProfile(c, p, profile)
  {
    AcceptedStepsFit(c, p.buffers, p.steps);
    RowBytesAgree(p.buffers);
    RowCopiesAgree(p.buffers, p.steps);
    if profile <= 2 {
      forall i | 0 <= i < |c.graph.operations|
        ensures EncodeGraph(c).targets[i] == ProfileTarget(profile, i)
           <==> (SpaceOf(c, i) == "host" <==> profile == 0 || (profile == 2 && i % 2 == 1))
      {
        ProfilePlaces(c, profile, i);
      }
    }
  }

  /** Profile 0 runs everything on the host, 1 everything on the device, 2 alternates from the device. */
  lemma ProfilePlaces(c: Context, profile: nat, i: nat)
    requires GraphFits(c.graph) && Assigned(c) && StandardDeployment(c.deployment)
    requires profile <= 2 && i < |c.graph.operations|
    ensures EncodeGraph(c).targets[i] == ProfileTarget(profile, i)
       <==> (SpaceOf(c, i) == "host" <==> profile == 0 || (profile == 2 && i % 2 == 1))
  {
    assert EncodeGraph(c).targets[i] == SpaceCode(SpaceOf(c, i));
  }

  /** What the tables and the workers have room for. */
  ghost predicate WorkersHold(c: Context, p: Plan) {
    && Targeted(c, p.buffers)
    && WithinLimits(c.limits, p) && !c.limits.requireJoin
    && forall t | 0 <= t < |c.graph.shapes| :: 0 < Bytes(c.graph.shapes[t]) <= MAX_BUFFER_BYTES
  }

  /** The planner's plans pass the C validator. */
  lemma PlannedTableIsValid(c: Context, p: Plan)
    requires WorkersHold(c, p) && WellPlanned(c, p)
    ensures HasRows(p.steps) && AllEncodable(p.steps)
    ensures TableAccepts(EncodeGraph(c), EncodeBuffers(p.buffers), EncodeEvents(p.steps))
  {
    assert c.(limits := c.limits) == c;
    PlannedIsAccepted(c, p, c.limits);
    TableAcceptsIff(c, p);
  }

  /** Planner to receipt: on a planned schedule the workers' verdict and counters are the prescribed ones. */
  lemma PlannedRunsOnWorkers(c: Context, p: Plan, fault: nat, k: Counter)
    requires WorkersHold(c, p) && WellPlanned(c, p) && Plannable(c) && c.graph.operations != [] && fault <= 4
    ensures HasRows(p.steps)
    ensures
      var machine := RunPasses(p.steps, fault, PASSES);
      var table := RunCases(fault, EncodeGraph(c), EncodeBuffers(p.buffers), EncodeEvents(p.steps), PASSES);
      && table.reason == machine.reason
      && WellShaped(p.buffers, machine.ran)
      && Reported(p.buffers, machine, k)
         == if k == CaseRuns then table.caseRuns else RowsCount(EncodeBuffers(p.buffers), table.ran, k)
  {
    PlannedTableIsValid(c, p);
    assert c.(limits := c.limits) == c;
    PlannedIsAccepted(c, p, c.limits);
    WorkersReportReceipt(c, p, fault, k);
  }
}
