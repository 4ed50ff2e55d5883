/**
  What an accepted residency plan means: the event machine that moves values between
  slots, and the proof that every plan the validator accepts makes that machine publish
  the values of the graph, whatever the slots held before.
 */
module Schedules {
  import opened Wrappers
  import opened Graphs
  import opened Residency

  datatype State<V> = State(ready: set<int>, store: seq<V>, published: seq<(Tensor, V)>)

  function Operands<V>(store: seq<V>, slots: seq<int>): (vs: seq<V>)
    requires forall k | 0 <= k < |slots| :: 0 <= slots[k] < |store|
    ensures |vs| == |slots|
    ensures forall k | 0 <= k < |slots| :: vs[k] == store[slots[k]]
  {
    seq(|slots|, k requires 0 <= k < |slots| => store[slots[k]])
  }

  /** One event on values; None when the machine is stuck (an operand is missing or the event is malformed). */
  function MachineStep<V>(buffers: seq<Buffer>, sem: Semantics<V>, inputs: Tensor -> V, st: State<V>, e: Event)
    : (r: Option<State<V>>)
    requires |st.store| == |buffers|
    ensures r.Some? ==> |r.value.store| == |buffers|
  {
    if !SlotsInRange(e, |buffers|) || !AllReady(e.inputs, st.ready) then None
    else
      var ready := st.ready + SlotSet(e.outputs);
      match e.kind
      case BindInput =>
        if |e.outputs| != 1 then None
        else Some(st.(ready := ready, store := st.store[e.outputs[0] := inputs(buffers[e.outputs[0]].tensor)]))
      case Copy =>
        if |e.inputs| != 1 || |e.outputs| != 1 then None
        else Some(st.(ready := ready, store := st.store[e.outputs[0] := st.store[e.inputs[0]]]))
      case Execute =>
        if e.operation == None || |e.outputs| != 1 then None
        else Some(st.(ready := ready,
                      store := st.store[e.outputs[0] := sem(e.operation.value, Operands(st.store, e.inputs))]))
      case PublishOutput =>
        if |e.inputs| != 1 then None
        else Some(st.(ready := ready,
                      published := st.published + [(buffers[e.inputs[0]].tensor, st.store[e.inputs[0]])]))
      case UnknownKind => None
  }

  function RunMachine<V>(buffers: seq<Buffer>, sem: Semantics<V>, inputs: Tensor -> V, store: seq<V>, steps: seq<Event>)
    : (r: Option<State<V>>)
    requires |store| == |buffers|
    ensures r.Some? ==> |r.value.store| == |buffers|
  {
    if steps == [] then Some(State({}, store, []))
    else
      match RunMachine(buffers, sem, inputs, store, steps[..|steps| - 1])
      case None => None
      case Some(st) => MachineStep(buffers, sem, inputs, st, steps[|steps| - 1])
  }

  /** The tensors an accepted prefix has made available never change their graph value again. */
  ghost predicate ReadySettled(c: Context, buffers: seq<Buffer>, st: Inspection) {
    && st.executed <= |c.graph.operations|
    && (forall s | s in st.ready :: 0 <= s < |buffers|)
    && (forall s | s in st.ready :: SettledBy(c.graph, st.executed, buffers[s].tensor))
  }

  lemma {:induction false} PrefixSettled(c: Context, buffers: seq<Buffer>, steps: seq<Event>)
    requires Assigned(c) && SingleAssignment(c.graph)
    requires InspectSteps(c, buffers, steps).Ok?
    ensures ReadySettled(c, buffers, InspectSteps(c, buffers, steps).value)
  {
    if steps != [] {
      var n := |steps| - 1;
      PrefixSettled(c, buffers, steps[..n]);
      var before := InspectSteps(c, buffers, steps[..n]).value;
      AcceptedStepEffect(c, buffers, before, n, steps[n]);
      if steps[n].kind == Execute {
        var op := c.graph.operations[before.executed];
        assert SettledBy(c.graph, before.executed + 1, op.output);
      }
    }
  }

  /** Accepting any schedule of a graph proves the graph has no forward, cyclic or in-place use. */
  lemma AcceptedGraphReadsBackward(c: Context, p: Plan)
    requires Assigned(c) && SingleAssignment(c.graph) && Accepted(c, p)
    ensures ReadsBackward(c.graph)
  {
    forall i, j | 0 <= i <= j < |c.graph.operations|
      ensures c.graph.operations[j].output !in c.graph.operations[i].inputs
    {
      var n := ExecutionOf(c, p.buffers, p.steps, i);
      StepOfAccepted(c, p.buffers, p.steps, n);
      PrefixSettled(c, p.buffers, p.steps[..n]);
      AcceptedStepEffect(c, p.buffers, InspectSteps(c, p.buffers, p.steps[..n]).value, n, p.steps[n]);
      var op := c.graph.operations[i];
      forall k | 0 <= k < |op.inputs|
        ensures op.inputs[k] != c.graph.operations[j].output
      {
        assert p.buffers[p.steps[n].inputs[k]].tensor == op.inputs[k];
      }
    }
  }

  /** Every operation counted as executed has its own execute event, in operation order. */
  lemma {:induction false} ExecutionOf(c: Context, buffers: seq<Buffer>, steps: seq<Event>, i: nat) returns (n: nat)
    requires Assigned(c) && InspectSteps(c, buffers, steps).Ok?
    requires i < InspectSteps(c, buffers, steps).value.executed
    ensures n < |steps| && steps[n].kind == Execute && steps[n].operation == Some(i)
    ensures InspectSteps(c, buffers, steps[..n]).Ok? && InspectSteps(c, buffers, steps[..n]).value.executed == i
  {
    var last := |steps| - 1;
    var before := InspectSteps(c, buffers, steps[..last]).value;
    if i < before.executed {
      n := ExecutionOf(c, buffers, steps[..last], i);
      assert steps[..last][..n] == steps[..n];
    } else {
      n := last;
    }
  }

  /** The machine is in step with the validator: same ready slots, each holding its tensor's
      value in the graph, and one publication per published tensor. */
  ghost predicate InStep<V>(c: Context, buffers: seq<Buffer>, sem: Semantics<V>, inputs: Tensor -> V,
                            insp: Inspection, st: State<V>) {
    && st.ready == insp.ready
    && |st.store| == |buffers|
    && (forall s | s in insp.ready ::
          0 <= s < |buffers| && st.store[s] == ValueOf(c.graph, sem, inputs, buffers[s].tensor))
    && |st.published| == |insp.published|
    && (forall k | 0 <= k < |st.published| :: st.published[k].0 in insp.published)
    && (forall t | t in insp.published :: (t, ValueOf(c.graph, sem, inputs, t)) in st.published)
  }

  lemma ExecuteInStep<V>(c: Context, buffers: seq<Buffer>, sem: Semantics<V>, inputs: Tensor -> V,
                         insp: Inspection, st: State<V>, index: nat, e: Event)
    requires Assigned(c) && SingleAssignment(c.graph) && e.kind == Execute
    requires ReadySettled(c, buffers, insp)
    requires InStep(c, buffers, sem, inputs, insp, st)
    requires InspectStep(c, buffers, insp, index, e).Ok?
    requires StepEffect(c, buffers, insp, index, e, InspectStep(c, buffers, insp, index, e).value)
    ensures sem(e.operation.value, Operands(st.store, e.inputs))
         == ValueOf(c.graph, sem, inputs, buffers[e.outputs[0]].tensor)
  {
    var op := c.graph.operations[insp.executed];
    forall k | 0 <= k < |op.inputs|
      ensures SettledBy(c.graph, insp.executed, op.inputs[k])
      ensures Operands(st.store, e.inputs)[k] == ValuesOf(c.graph, sem, inputs, op.inputs)[k]
    {
      assert buffers[e.inputs[k]].tensor == op.inputs[k];
    }
    ProducerEquation(c.graph, sem, inputs, insp.executed);
    assert Operands(st.store, e.inputs) == ValuesOf(c.graph, sem, inputs, op.inputs);
  }

  lemma StepInStep<V>(c: Context, buffers: seq<Buffer>, sem: Semantics<V>, inputs: Tensor -> V,
                      insp: Inspection, st: State<V>, index: nat, e: Event)
    requires Assigned(c) && SingleAssignment(c.graph)
    requires ReadySettled(c, buffers, insp)
    requires InStep(c, buffers, sem, inputs, insp, st)
    requires InspectStep(c, buffers, insp, index, e).Ok?
    ensures MachineStep(buffers, sem, inputs, st, e).Some?
    ensures InStep(c, buffers, sem, inputs, InspectStep(c, buffers, insp, index, e).value,
                   MachineStep(buffers, sem, inputs, st, e).value)
  {
    AcceptedStepEffect(c, buffers, insp, index, e);
    match e.kind {
      case BindInput =>
        ExternalInputKeepsItsValue(c.graph, sem, inputs, buffers[e.outputs[0]].tensor);
      case Copy =>
      case Execute =>
        ExecuteInStep(c, buffers, sem, inputs, insp, st, index, e);
      case PublishOutput =>
        PublishInStep(c, buffers, sem, inputs, insp, st, e);
      case UnknownKind =>
    }
  }

  lemma PublishInStep<V>(c: Context, buffers: seq<Buffer>, sem: Semantics<V>, inputs: Tensor -> V,
                         insp: Inspection, st: State<V>, e: Event)
    requires InStep(c, buffers, sem, inputs, insp, st)
    requires SlotsInRange(e, |buffers|) && |e.inputs| == 1 && e.inputs[0] in insp.ready
    requires buffers[e.inputs[0]].tensor !in insp.published
    ensures
      var t := buffers[e.inputs[0]].tensor;
      var published := st.published + [(t, st.store[e.inputs[0]])];
      && |published| == |insp.published + {t}|
      && (forall k | 0 <= k < |published| :: published[k].0 in insp.published + {t})
      && (forall u | u in insp.published + {t} :: (u, ValueOf(c.graph, sem, inputs, u)) in published)
  {
    var entry := (buffers[e.inputs[0]].tensor, st.store[e.inputs[0]]);
    assert (st.published + [entry])[|st.published|] == entry;
  }

  lemma {:induction false} PrefixInStep<V>(c: Context, buffers: seq<Buffer>, sem: Semantics<V>, inputs: Tensor -> V,
                                           store: seq<V>, steps: seq<Event>)
    requires Assigned(c) && SingleAssignment(c.graph) && |store| == |buffers|
    requires InspectSteps(c, buffers, steps).Ok?
    ensures RunMachine(buffers, sem, inputs, store, steps).Some?
    ensures InStep(c, buffers, sem, inputs, InspectSteps(c, buffers, steps).value,
                   RunMachine(buffers, sem, inputs, store, steps).value)
  {
    if steps != [] {
      var n := |steps| - 1;
      PrefixInStep(c, buffers, sem, inputs, store, steps[..n]);
      PrefixSettled(c, buffers, steps[..n]);
      var insp := InspectSteps(c, buffers, steps[..n]).value;
      var st := RunMachine(buffers, sem, inputs, store, steps[..n]).value;
      StepInStep(c, buffers, sem, inputs, insp, st, n, steps[n]);
    }
  }

  /** Published values as the caller sees them: one entry per terminal tensor, each with the graph's value. */
  ghost predicate PublishesGraph<V>(g: Graph, sem: Semantics<V>, inputs: Tensor -> V, published: seq<(Tensor, V)>) {
    && |published| == |Terminals(g)|
    && (set k | 0 <= k < |published| :: published[k]) == (set t | t in Terminals(g) :: (t, ValueOf(g, sem, inputs, t)))
  }

  /** Meaning preservation. Every accepted schedule of a single-assignment graph runs without ever
      missing an operand and publishes exactly the graph's terminal tensors with the values direct
      evaluation gives them, whatever the buffers held before the run. */
  lemma AcceptedScheduleComputesGraph<V>(c: Context, p: Plan, sem: Semantics<V>, inputs: Tensor -> V, store: seq<V>)
    requires Assigned(c) && SingleAssignment(c.graph) && Accepted(c, p)
    requires |store| == |p.buffers|
    ensures RunMachine(p.buffers, sem, inputs, store, p.steps).Some?
    ensures PublishesGraph(c.graph, sem, inputs, RunMachine(p.buffers, sem, inputs, store, p.steps).value.published)
    ensures forall s | 0 <= s < |p.buffers| ::
              RunMachine(p.buffers, sem, inputs, store, p.steps).value.store[s]
              == ValueOf(c.graph, sem, inputs, p.buffers[s].tensor)
  {
    PrefixInStep(c, p.buffers, sem, inputs, store, p.steps);
    var published := RunMachine(p.buffers, sem, inputs, store, p.steps).value.published;
    var wanted := set t | t in Terminals(c.graph) :: (t, ValueOf(c.graph, sem, inputs, t));
    var got := set k | 0 <= k < |published| :: published[k];
    assert wanted <= got;
    PublicationsDistinct(c.graph, sem, inputs, published);
  }

  lemma ImageSize<V>(g: Graph, sem: Semantics<V>, inputs: Tensor -> V, ts: set<Tensor>)
    ensures |set t | t in ts :: (t, ValueOf(g, sem, inputs, t))| == |ts|
  {
    if ts != {} {
      var t :| t in ts;
      ImageSize(g, sem, inputs, ts - {t});
      assert (set u | u in ts :: (u, ValueOf(g, sem, inputs, u)))
          == (set u | u in ts - {t} :: (u, ValueOf(g, sem, inputs, u))) + {(t, ValueOf(g, sem, inputs, t))};
    }
  }

  lemma {:induction false} EntriesAtMost<T>(s: seq<T>)
    ensures |set k | 0 <= k < |s| :: s[k]| <= |s|
  {
    if s != [] {
      var n := |s| - 1;
      EntriesAtMost(s[..n]);
      assert (set k | 0 <= k < |s| :: s[k]) == (set k | 0 <= k < n :: s[..n][k]) + {s[n]};
    }
  }

  lemma SubsetOfSameSize<T>(a: set<T>, b: set<T>)
    requires a <= b && |b| <= |a|
    ensures a == b
  {
    if x :| x in b && x !in a {
      SubsetSize(a, b - {x});
    }
  }

  lemma SubsetSize<T>(a: set<T>, b: set<T>)
    requires a <= b
    ensures |a| <= |b|
  {
    if x :| x in a {
      SubsetSize(a - {x}, b - {x});
    }
  }

  lemma PublicationsDistinct<V>(g: Graph, sem: Semantics<V>, inputs: Tensor -> V, published: seq<(Tensor, V)>)
    requires |published| == |Terminals(g)|
    requires (set t | t in Terminals(g) :: (t, ValueOf(g, sem, inputs, t)))
          <= (set k | 0 <= k < |published| :: published[k])
    ensures PublishesGraph(g, sem, inputs, published)
  {
    ImageSize(g, sem, inputs, Terminals(g));
    EntriesAtMost(published);
    SubsetOfSameSize(set t | t in Terminals(g) :: (t, ValueOf(g, sem, inputs, t)),
                     set k | 0 <= k < |published| :: published[k]);
  }

  /** Placement independence: two accepted schedules of one graph, under any two deployments, any
      copies and any initial slot contents, publish the same values. */
  lemma AcceptedSchedulesAgree<V>(c1: Context, p1: Plan, store1: seq<V>, c2: Context, p2: Plan, store2: seq<V>,
                                  sem: Semantics<V>, inputs: Tensor -> V)
    requires c1.graph == c2.graph && SingleAssignment(c1.graph)
    requires Assigned(c1) && Accepted(c1, p1) && |store1| == |p1.buffers|
    requires Assigned(c2) && Accepted(c2, p2) && |store2| == |p2.buffers|
    ensures
      var r1 := RunMachine(p1.buffers, sem, inputs, store1, p1.steps);
      var r2 := RunMachine(p2.buffers, sem, inputs, store2, p2.steps);
      && r1.Some? && r2.Some?
      && |r1.value.published| == |r2.value.published|
      && (set k | 0 <= k < |r1.value.published| :: r1.value.published[k])
         == (set k | 0 <= k < |r2.value.published| :: r2.value.published[k])
  {
    AcceptedScheduleComputesGraph(c1, p1, sem, inputs, store1);
    AcceptedScheduleComputesGraph(c2, p2, sem, inputs, store2);
  }

  /** The reported join is real: it is the execution of a matmul of the graph, and both operand
      slots were written, with the matmul's operands, by events before it. */
  lemma {:induction false} JoinOperandsAvailable(c: Context, buffers: seq<Buffer>, steps: seq<Event>)
    requires Assigned(c) && InspectSteps(c, buffers, steps).Ok?
    requires InspectSteps(c, buffers, steps).value.join.Some?
    ensures
      var join := InspectSteps(c, buffers, steps).value.join.value;
      && join.stepIndex < |steps|
      && steps[join.stepIndex].kind == Execute
      && steps[join.stepIndex].inputs == join.operandSlots
      && InspectSteps(c, buffers, steps[..join.stepIndex]).Ok?
      && var before := InspectSteps(c, buffers, steps[..join.stepIndex]).value;
         && before.executed < |c.graph.operations|
         && c.graph.operations[before.executed].kind == Matmul
         && AllReady(join.operandSlots, before.ready)
         && SlotsInRange(steps[join.stepIndex], |buffers|)
         && TensorsAt(buffers, join.operandSlots) == c.graph.operations[before.executed].inputs
  {
    var n := |steps| - 1;
    var before := InspectSteps(c, buffers, steps[..n]).value;
    var after := InspectSteps(c, buffers, steps).value;
    AcceptedStepEffect(c, buffers, before, n, steps[n]);
    if after.join == before.join && after.join.value.stepIndex < n {
      JoinOperandsAvailable(c, buffers, steps[..n]);
      var k := after.join.value.stepIndex;
      assert steps[..n][..k] == steps[..k];
    } else if after.join == before.join {
      JoinOperandsAvailable(c, buffers, steps[..n]);
      assert false;
    }
  }

  /** The budgets of a validator instance do not influence its replay. */
  lemma {:induction false} ReplayIgnoresLimits(c: Context, l: Limits, buffers: seq<Buffer>, steps: seq<Event>)
    requires Assigned(c)
    ensures InspectSteps(c.(limits := l), buffers, steps) == InspectSteps(c, buffers, steps)
  {
    if steps != [] {
      ReplayIgnoresLimits(c, l, buffers, steps[..|steps| - 1]);
      if InspectSteps(c, buffers, steps[..|steps| - 1]).Ok? {
        CheckIgnoresLimits(c, l, buffers, InspectSteps(c, buffers, steps[..|steps| - 1]).value, steps[|steps| - 1]);
      }
    }
  }

  lemma CheckIgnoresLimits(c: Context, l: Limits, buffers: seq<Buffer>, st: Inspection, e: Event)
    requires Assigned(c)
    ensures CheckEvent(c.(limits := l), buffers, st, e) == CheckEvent(c, buffers, st, e)
  {
  }

  lemma {:induction false} BuffersIgnoreLimits(c: Context, l: Limits, buffers: seq<Buffer>)
    ensures InspectBuffers(c.(limits := l), buffers) == InspectBuffers(c, buffers)
  {
    if buffers != [] {
      BuffersIgnoreLimits(c, l, buffers[..|buffers| - 1]);
    }
  }

  /** A join is reported exactly when a matmul has run. */
  lemma {:induction false} JoinIffMatmul(c: Context, buffers: seq<Buffer>, steps: seq<Event>)
    requires Assigned(c) && InspectSteps(c, buffers, steps).Ok?
    ensures
      var st := InspectSteps(c, buffers, steps).value;
      && st.executed <= |c.graph.operations|
      && (st.join.Some? <==> exists i :: 0 <= i < st.executed && c.graph.operations[i].kind == Matmul)
  {
    if steps != [] {
      var n := |steps| - 1;
      JoinIffMatmul(c, buffers, steps[..n]);
      AcceptedStepEffect(c, buffers, InspectSteps(c, buffers, steps[..n]).value, n, steps[n]);
    }
  }

  /** The limits decide nothing but the sizes and the join: with them a plan is accepted exactly when it is
      without them, has a size between them, and its graph has the matmul they may ask for. */
  lemma LimitsDecide(c: Context, p: Plan)
    requires Assigned(c)
    ensures Accepted(c, p)
       <==> && c.limits.minBuffers <= |p.buffers| <= c.limits.maxBuffers
            && c.limits.minSteps <= |p.steps| <= c.limits.maxSteps
            && (c.limits.requireJoin ==> HasMatmul(c.graph))
            && Accepted(c.(limits := Limits(0, |p.buffers|, 0, |p.steps|, false)), p)
  {
    var roomy := Limits(0, |p.buffers|, 0, |p.steps|, false);
    BuffersIgnoreLimits(c, roomy, p.buffers);
    ReplayIgnoresLimits(c, roomy, p.buffers, p.steps);
    if InspectSteps(c, p.buffers, p.steps).Ok? {
      JoinIffMatmul(c, p.buffers, p.steps);
    }
  }
}
