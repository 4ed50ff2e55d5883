/**
  Residency plans: numbered buffers in named address spaces and an ordered list of
  bind / copy / execute / publish events; and the validator that replays such a plan
  on metadata alone (examples/bounded_native_fanin.py, inspect_schedule), generalised
  from the fan-in graph to any graph, placement and set of spaces.
 */
module Residency {
  import opened Wrappers
  import opened Graphs

  type Space = string
  type Backend = string

  const HOST := "host"

  datatype Buffer = Buffer(tensor: Tensor, space: Space, shape: Shape, bytes: int)

  datatype EventKind = BindInput | Copy | Execute | PublishOutput | UnknownKind

  datatype Event = Event(kind: EventKind, operation: Option<nat>, backend: Backend,
                         inputs: seq<int>, outputs: seq<int>)

  datatype Plan = Plan(buffers: seq<Buffer>, steps: seq<Event>)

  /** Which backend runs each operation, and which address space each backend computes in. */
  datatype Deployment = Deployment(host: Space, backends: map<Backend, Space>, assignments: seq<Backend>)

  /** Size budgets of one validator instance, and whether a matmul join has to be present. */
  datatype Limits = Limits(minBuffers: nat, maxBuffers: nat, minSteps: nat, maxSteps: nat, requireJoin: bool)

  /** How many inputs an event may name in the fan-in validator. */
  const MAX_EVENT_INPUTS := 2
  const MAX_EVENT_OUTPUTS := 1

  type Arity = n: nat | n > 0 witness MAX_EVENT_INPUTS

  /** arity is the number of inputs the validator lets an event name. */
  datatype Context = Context(graph: Graph, deployment: Deployment, arity: Arity, limits: Limits)

  /** Where the matmul ran and which slots it read. */
  datatype Join = Join(stepIndex: nat, operandSlots: seq<int>)

  datatype Inspection = Inspection(ready: set<int>, bound: set<Tensor>, published: set<Tensor>,
                                   executed: nat, join: Option<Join>)

  const START := Inspection({}, {}, {}, 0, None)

  predicate Assigned(c: Context) {
    && |c.deployment.assignments| == |c.graph.operations|
    && forall i | 0 <= i < |c.deployment.assignments| :: c.deployment.assignments[i] in c.deployment.backends
  }

  function SpaceOf(c: Context, i: nat): Space
    requires Assigned(c) && i < |c.graph.operations|
  {
    c.deployment.backends[c.deployment.assignments[i]]
  }

  predicate KnownSpace(d: Deployment, s: Space) {
    s == d.host || s in d.backends.Values
  }

  function InspectBuffer(c: Context, b: Buffer): Result<()> {
    if b.tensor >= |c.graph.shapes| || !KnownSpace(c.deployment, b.space) then Err("buffer rejected")
    else if b.shape != c.graph.shapes[b.tensor] || b.bytes != Bytes(b.shape) then Err("buffer contract rejected")
    else Ok(())
  }

  /** The first bad buffer decides. */
  function InspectBuffers(c: Context, buffers: seq<Buffer>): (r: Result<()>)
    ensures r.Ok? <==> forall i | 0 <= i < |buffers| :: InspectBuffer(c, buffers[i]).Ok?
  {
    if buffers == [] then Ok(())
    else
      var _ :- InspectBuffers(c, buffers[..|buffers| - 1]);
      InspectBuffer(c, buffers[|buffers| - 1])
  }

  predicate EventContract(arity: nat, e: Event) {
    && |e.inputs| <= arity
    && |e.outputs| <= MAX_EVENT_OUTPUTS
    && (e.kind != Execute ==> e.operation == None && e.backend == "")
  }

  predicate SlotsInRange(e: Event, n: nat) {
    && (forall k | 0 <= k < |e.inputs| :: 0 <= e.inputs[k] < n)
    && (forall k | 0 <= k < |e.outputs| :: 0 <= e.outputs[k] < n)
  }

  function TensorsAt(buffers: seq<Buffer>, slots: seq<int>): (ts: seq<Tensor>)
    requires forall k | 0 <= k < |slots| :: 0 <= slots[k] < |buffers|
    ensures |ts| == |slots|
    ensures forall k | 0 <= k < |slots| :: ts[k] == buffers[slots[k]].tensor
  {
    seq(|slots|, k requires 0 <= k < |slots| => buffers[slots[k]].tensor)
  }

  predicate AllInSpace(buffers: seq<Buffer>, slots: seq<int>, s: Space)
    requires forall k | 0 <= k < |slots| :: 0 <= slots[k] < |buffers|
  {
    forall k | 0 <= k < |slots| :: buffers[slots[k]].space == s
  }

  function SlotSet(slots: seq<int>): set<int> {
    set s | s in slots
  }

  predicate AllReady(slots: seq<int>, ready: set<int>) {
    forall k | 0 <= k < |slots| :: slots[k] in ready
  }

  predicate NoneReady(slots: seq<int>, ready: set<int>) {
    forall k | 0 <= k < |slots| :: slots[k] !in ready
  }

  /** The validator's checks on one event, before any state changes. */
  function CheckEvent(c: Context, buffers: seq<Buffer>, st: Inspection, e: Event): Result<()>
    requires Assigned(c)
  {
    if !EventContract(c.arity, e) then Err("event contract rejected")
    else if !SlotsInRange(e, |buffers|) then Err("slot rejected")
    else if !AllReady(e.inputs, st.ready) || !NoneReady(e.outputs, st.ready) then
      Err("input unavailable or output reused")
    else
      match e.kind
      case BindInput =>
        if |e.inputs| != 0 || |e.outputs| != 1
           || buffers[e.outputs[0]].tensor !in ExternalInputs(c.graph)
           || buffers[e.outputs[0]].tensor in st.bound
           || buffers[e.outputs[0]].space != c.deployment.host
        then Err("input binding rejected")
        else Ok(())
      case Copy =>
        if |e.inputs| != 1 || |e.outputs| != 1
           || buffers[e.inputs[0]].tensor != buffers[e.outputs[0]].tensor
           || buffers[e.inputs[0]].shape != buffers[e.outputs[0]].shape
           || buffers[e.inputs[0]].bytes != buffers[e.outputs[0]].bytes
           || buffers[e.inputs[0]].space == buffers[e.outputs[0]].space
        then Err("copy rejected")
        else Ok(())
      case Execute =>
        if st.executed >= |c.graph.operations| then Err("extra operation rejected")
        else if e.operation != Some(st.executed)
                || e.backend != c.deployment.assignments[st.executed]
                || TensorsAt(buffers, e.inputs) != c.graph.operations[st.executed].inputs
                || TensorsAt(buffers, e.outputs) != [c.graph.operations[st.executed].output]
                || !AllInSpace(buffers, e.inputs + e.outputs, SpaceOf(c, st.executed))
        then Err("operation ports or placement rejected")
        else Ok(())
      case PublishOutput =>
        if |e.inputs| != 1 || |e.outputs| != 0
           || buffers[e.inputs[0]].tensor !in Terminals(c.graph)
           || buffers[e.inputs[0]].tensor in st.published
           || buffers[e.inputs[0]].space != c.deployment.host
        then Err("publication rejected")
        else Ok(())
      case UnknownKind => Err("event rejected")
  }

  /** The state after an event that passed the checks. */
  function Advance(c: Context, buffers: seq<Buffer>, st: Inspection, index: nat, e: Event): Inspection
    requires Assigned(c) && CheckEvent(c, buffers, st, e).Ok?
  {
    Inspection(
      st.ready + SlotSet(e.outputs),
      if e.kind == BindInput then st.bound + {buffers[e.outputs[0]].tensor} else st.bound,
      if e.kind == PublishOutput then st.published + {buffers[e.inputs[0]].tensor} else st.published,
      if e.kind == Execute then st.executed + 1 else st.executed,
      if e.kind == Execute && c.graph.operations[st.executed].kind == Matmul then Some(Join(index, e.inputs))
      else st.join)
  }

  function InspectStep(c: Context, buffers: seq<Buffer>, st: Inspection, index: nat, e: Event): Result<Inspection>
    requires Assigned(c)
  {
    var _ :- CheckEvent(c, buffers, st, e);
    Ok(Advance(c, buffers, st, index, e))
  }

  ghost predicate WritesOne(buffers: seq<Buffer>, st: Inspection, e: Event, after: Inspection) {
    && |e.outputs| == 1
    && 0 <= e.outputs[0] < |buffers|
    && e.outputs[0] !in st.ready
    && after.ready == st.ready + {e.outputs[0]}
  }

  /** What one accepted event is and does, kind by kind. */
  ghost predicate StepEffect(c: Context, buffers: seq<Buffer>, st: Inspection, index: nat, e: Event, after: Inspection)
    requires Assigned(c)
  {
    && |e.inputs| <= c.arity
    && (forall k | 0 <= k < |e.inputs| :: 0 <= e.inputs[k] < |buffers| && e.inputs[k] in st.ready)
    && (e.kind != Execute ==>
          after.executed == st.executed && after.join == st.join && e.operation == None && e.backend == "")
    && (e.kind != BindInput ==> after.bound == st.bound)
    && (e.kind != PublishOutput ==> after.published == st.published && WritesOne(buffers, st, e, after))
    && match e.kind
       case BindInput =>
         var t := buffers[e.outputs[0]].tensor;
         && e.inputs == [] && t in ExternalInputs(c.graph) && t !in st.bound && after.bound == st.bound + {t}
         && buffers[e.outputs[0]].space == c.deployment.host
       case Copy =>
         && |e.inputs| == 1
         && buffers[e.inputs[0]].tensor == buffers[e.outputs[0]].tensor
         && buffers[e.inputs[0]].bytes == buffers[e.outputs[0]].bytes
         && buffers[e.inputs[0]].space != buffers[e.outputs[0]].space
       case Execute =>
         && st.executed < |c.graph.operations|
         && var op := c.graph.operations[st.executed];
            && e.operation == Some(st.executed) && e.backend == c.deployment.assignments[st.executed]
            && after.executed == st.executed + 1
            && after.join == (if op.kind == Matmul then Some(Join(index, e.inputs)) else st.join)
            && |e.inputs| == |op.inputs|
            && (forall k | 0 <= k < |e.inputs| :: buffers[e.inputs[k]].tensor == op.inputs[k]
                                                  && buffers[e.inputs[k]].space == SpaceOf(c, st.executed))
            && buffers[e.outputs[0]].tensor == op.output
            && buffers[e.outputs[0]].space == SpaceOf(c, st.executed)
       case PublishOutput =>
         && |e.inputs| == 1 && e.outputs == [] && after.ready == st.ready
         && var t := buffers[e.inputs[0]].tensor;
            && t in Terminals(c.graph) && t !in st.published && after.published == st.published + {t}
            && buffers[e.inputs[0]].space == c.deployment.host
       case UnknownKind => false
  }

  lemma OutputFresh(buffers: seq<Buffer>, st: Inspection, e: Event)
    requires SlotsInRange(e, |buffers|) && NoneReady(e.outputs, st.ready) && |e.outputs| == 1
    ensures WritesOne(buffers, st, e, st.(ready := st.ready + SlotSet(e.outputs)))
  {
    assert SlotSet(e.outputs) == {e.outputs[0]};
  }

  lemma ExecuteEffect(c: Context, buffers: seq<Buffer>, st: Inspection, e: Event)
    requires Assigned(c) && st.executed < |c.graph.operations|
    requires SlotsInRange(e, |buffers|)
    requires TensorsAt(buffers, e.inputs) == c.graph.operations[st.executed].inputs
    requires TensorsAt(buffers, e.outputs) == [c.graph.operations[st.executed].output]
    requires AllInSpace(buffers, e.inputs + e.outputs, SpaceOf(c, st.executed))
    ensures |e.outputs| == 1 && |e.inputs| == |c.graph.operations[st.executed].inputs|
    ensures forall k | 0 <= k < |e.inputs| :: buffers[e.inputs[k]].tensor == c.graph.operations[st.executed].inputs[k]
                                              && buffers[e.inputs[k]].space == SpaceOf(c, st.executed)
    ensures buffers[e.outputs[0]].tensor == c.graph.operations[st.executed].output
    ensures buffers[e.outputs[0]].space == SpaceOf(c, st.executed)
  {
    forall k | 0 <= k < |e.inputs|
      ensures buffers[e.inputs[k]].tensor == c.graph.operations[st.executed].inputs[k]
      ensures buffers[e.inputs[k]].space == SpaceOf(c, st.executed)
    {
      assert TensorsAt(buffers, e.inputs)[k] == c.graph.operations[st.executed].inputs[k];
      assert (e.inputs + e.outputs)[k] == e.inputs[k];
    }
    assert |TensorsAt(buffers, e.outputs)| == 1;
    assert TensorsAt(buffers, e.outputs)[0] == c.graph.operations[st.executed].output;
    assert (e.inputs + e.outputs)[|e.inputs|] == e.outputs[0];
  }

  lemma ExecuteStepEffect(c: Context, buffers: seq<Buffer>, st: Inspection, index: nat, e: Event)
    requires Assigned(c) && e.kind == Execute
    requires CheckEvent(c, buffers, st, e).Ok?
    ensures StepEffect(c, buffers, st, index, e, Advance(c, buffers, st, index, e))
  {
    ExecuteEffect(c, buffers, st, e);
    OutputFresh(buffers, st, e);
  }

  lemma BindStepEffect(c: Context, buffers: seq<Buffer>, st: Inspection, index: nat, e: Event)
    requires Assigned(c) && e.kind == BindInput
    requires CheckEvent(c, buffers, st, e).Ok?
    ensures StepEffect(c, buffers, st, index, e, Advance(c, buffers, st, index, e))
  {
    OutputFresh(buffers, st, e);
  }

  lemma CopyStepEffect(c: Context, buffers: seq<Buffer>, st: Inspection, index: nat, e: Event)
    requires Assigned(c) && e.kind == Copy
    requires CheckEvent(c, buffers, st, e).Ok?
    ensures StepEffect(c, buffers, st, index, e, Advance(c, buffers, st, index, e))
  {
    OutputFresh(buffers, st, e);
  }

  lemma PublishStepEffect(c: Context, buffers: seq<Buffer>, st: Inspection, index: nat, e: Event)
    requires Assigned(c) && e.kind == PublishOutput
    requires CheckEvent(c, buffers, st, e).Ok?
    ensures StepEffect(c, buffers, st, index, e, Advance(c, buffers, st, index, e))
  {
    assert st.ready + SlotSet(e.outputs) == st.ready;
  }

  /** Every accepted event has exactly the effect its kind announces. */
  lemma AcceptedStepEffect(c: Context, buffers: seq<Buffer>, st: Inspection, index: nat, e: Event)
    requires Assigned(c)
    requires InspectStep(c, buffers, st, index, e).Ok?
    ensures StepEffect(c, buffers, st, index, e, InspectStep(c, buffers, st, index, e).value)
  {
    match e.kind {
      case BindInput => BindStepEffect(c, buffers, st, index, e);
      case Copy => CopyStepEffect(c, buffers, st, index, e);
      case Execute => ExecuteStepEffect(c, buffers, st, index, e);
      case PublishOutput => PublishStepEffect(c, buffers, st, index, e);
      case UnknownKind =>
    }
  }

  lemma EffectExecutes(c: Context, buffers: seq<Buffer>, st: Inspection, index: nat, e: Event, after: Inspection)
    requires Assigned(c) && StepEffect(c, buffers, st, index, e, after) && e.kind == Execute
    ensures CheckEvent(c, buffers, st, e).Ok?
  {
    assert TensorsAt(buffers, e.inputs) == c.graph.operations[st.executed].inputs;
    assert TensorsAt(buffers, e.outputs) == [c.graph.operations[st.executed].output];
    var slots := e.inputs + e.outputs;
    assert slots[|e.inputs|] == e.outputs[0];
    assert forall k | 0 <= k < |e.inputs| :: slots[k] == e.inputs[k];
  }

  lemma EffectIsAccepted(c: Context, buffers: seq<Buffer>, st: Inspection, index: nat, e: Event, after: Inspection)
    requires Assigned(c) && InspectBuffers(c, buffers).Ok? && StepEffect(c, buffers, st, index, e, after)
    ensures CheckEvent(c, buffers, st, e).Ok?
  {
    if e.kind == Execute {
      EffectExecutes(c, buffers, st, index, e, after);
    } else if e.kind == Copy {
      assert InspectBuffer(c, buffers[e.inputs[0]]).Ok? && InspectBuffer(c, buffers[e.outputs[0]]).Ok?;
    }
  }

  /** Nothing else is accepted, and nothing less: past the buffer loop the validator lets an event
      through exactly when it has the effect its kind announces. */
  lemma AcceptedIffEffect(c: Context, buffers: seq<Buffer>, st: Inspection, index: nat, e: Event)
    requires Assigned(c) && InspectBuffers(c, buffers).Ok?
    ensures InspectStep(c, buffers, st, index, e).Ok?
       <==> exists after: Inspection :: StepEffect(c, buffers, st, index, e, after)
  {
    if InspectStep(c, buffers, st, index, e).Ok? {
      AcceptedStepEffect(c, buffers, st, index, e);
    }
    if after: Inspection :| StepEffect(c, buffers, st, index, e, after) {
      EffectIsAccepted(c, buffers, st, index, e, after);
    }
  }

  /** The validator's loop over a prefix of the schedule. */
  function InspectSteps(c: Context, buffers: seq<Buffer>, steps: seq<Event>): Result<Inspection>
    requires Assigned(c)
  {
    if steps == [] then Ok(START)
    else
      var st :- InspectSteps(c, buffers, steps[..|steps| - 1]);
      InspectStep(c, buffers, st, |steps| - 1, steps[|steps| - 1])
  }

  predicate WithinLimits(l: Limits, p: Plan) {
    l.minBuffers <= |p.buffers| <= l.maxBuffers && l.minSteps <= |p.steps| <= l.maxSteps
  }

  function AllSlots(n: nat): (slots: set<int>)
    ensures forall i :: i in slots <==> 0 <= i < n
  {
    if n == 0 then {} else AllSlots(n - 1) + {n - 1}
  }

  predicate Complete(c: Context, p: Plan, st: Inspection) {
    && st.bound == ExternalInputs(c.graph)
    && st.executed == |c.graph.operations|
    && st.published == Terminals(c.graph)
    && (c.limits.requireJoin ==> st.join != None)
    && st.ready == AllSlots(|p.buffers|)
  }

  /** The whole verdict of the validator. */
  function Inspect(c: Context, p: Plan): Result<Option<Join>>
    requires Assigned(c)
  {
    if !WithinLimits(c.limits, p) then Err("schedule scope or budget rejected")
    else
      var _ :- InspectBuffers(c, p.buffers);
      var st :- InspectSteps(c, p.buffers, p.steps);
      if Complete(c, p, st) then Ok(st.join) else Err("schedule incomplete")
  }

  predicate Accepted(c: Context, p: Plan)
    requires Assigned(c)
  {
    Inspect(c, p).Ok?
  }

  lemma {:induction false} AcceptedPrefix(c: Context, buffers: seq<Buffer>, steps: seq<Event>, n: nat)
    requires Assigned(c) && n <= |steps|
    requires InspectSteps(c, buffers, steps).Ok?
    ensures InspectSteps(c, buffers, steps[..n]).Ok?
  {
    if n == |steps| {
      assert steps[..n] == steps;
    } else {
      AcceptedPrefix(c, buffers, steps[..|steps| - 1], n);
      assert steps[..|steps| - 1][..n] == steps[..n];
    }
  }

  /** A rejected prefix decides the verdict: the loop stops at the first bad event. */
  lemma {:induction false} RejectedPrefix(c: Context, buffers: seq<Buffer>, steps: seq<Event>, n: nat)
    requires Assigned(c) && n <= |steps|
    requires InspectSteps(c, buffers, steps[..n]).Err?
    ensures InspectSteps(c, buffers, steps) == Err(InspectSteps(c, buffers, steps[..n]).message)
  {
    if n == |steps| {
      assert steps[..n] == steps;
    } else {
      assert steps[..|steps| - 1][..n] == steps[..n];
      RejectedPrefix(c, buffers, steps[..|steps| - 1], n);
    }
  }

  lemma {:induction false} RejectedBuffer(c: Context, buffers: seq<Buffer>, n: nat)
    requires n <= |buffers|
    requires InspectBuffers(c, buffers[..n]).Err?
    ensures InspectBuffers(c, buffers) == Err(InspectBuffers(c, buffers[..n]).message)
  {
    if n == |buffers| {
      assert buffers[..n] == buffers;
    } else {
      assert buffers[..|buffers| - 1][..n] == buffers[..n];
      RejectedBuffer(c, buffers[..|buffers| - 1], n);
    }
  }

  /** The n-th event was accepted in the state the first n events reached. */
  lemma StepOfAccepted(c: Context, buffers: seq<Buffer>, steps: seq<Event>, n: nat)
    requires Assigned(c) && n < |steps|
    requires InspectSteps(c, buffers, steps).Ok?
    ensures InspectSteps(c, buffers, steps[..n]).Ok? && InspectSteps(c, buffers, steps[..n + 1]).Ok?
    ensures InspectStep(c, buffers, InspectSteps(c, buffers, steps[..n]).value, n, steps[n])
         == InspectSteps(c, buffers, steps[..n + 1])
  {
    AcceptedPrefix(c, buffers, steps, n);
    AcceptedPrefix(c, buffers, steps, n + 1);
    assert steps[..n + 1][..n] == steps[..n];
  }

  lemma NextPrefix(c: Context, buffers: seq<Buffer>, steps: seq<Event>, n: nat)
    requires Assigned(c) && n < |steps| && InspectSteps(c, buffers, steps[..n]).Ok?
    ensures InspectSteps(c, buffers, steps[..n + 1])
         == InspectStep(c, buffers, InspectSteps(c, buffers, steps[..n]).value, n, steps[n])
  {
    assert steps[..n + 1][..n] == steps[..n];
  }

  /** The validator's first loop: every buffer against its tensor. */
  method InspectBufferList(c: Context, buffers: seq<Buffer>) returns (r: Result<()>)
    ensures r == InspectBuffers(c, buffers)
    ensures r.Ok? <==> forall i | 0 <= i < |buffers| ::
                         var b := buffers[i];
                         && b.tensor < |c.graph.shapes| && b.shape == c.graph.shapes[b.tensor]
                         && b.bytes == 4 * Prod(b.shape)
                         && (b.space == c.deployment.host || b.space in c.deployment.backends.Values)
  {
    for i := 0 to |buffers|
      invariant InspectBuffers(c, buffers[..i]).Ok?
    {
      assert buffers[..i + 1][..i] == buffers[..i];
      var verdict := InspectBuffer(c, buffers[i]);
      if verdict.Err? {
        RejectedBuffer(c, buffers, i + 1);
        return Err(verdict.message);
      }
    }
    assert buffers[..|buffers|] == buffers;
    return Ok(());
  }

  /** The validator's second loop, with its mutable sets. */
  method ReplaySteps(c: Context, p: Plan) returns (r: Result<Inspection>)
    requires Assigned(c)
    ensures r == InspectSteps(c, p.buffers, p.steps)
  {
    var ready: set<int>, bound: set<Tensor>, published: set<Tensor> := {}, {}, {};
    var executed, join := 0, None;
    for i := 0 to |p.steps|
      invariant InspectSteps(c, p.buffers, p.steps[..i]) == Ok(Inspection(ready, bound, published, executed, join))
    {
      var e := p.steps[i];
      NextPrefix(c, p.buffers, p.steps, i);
      var verdict := CheckEvent(c, p.buffers, Inspection(ready, bound, published, executed, join), e);
      if verdict.Err? {
        RejectedPrefix(c, p.buffers, p.steps, i + 1);
        return Err(verdict.message);
      }
      ghost var next := Advance(c, p.buffers, Inspection(ready, bound, published, executed, join), i, e);
      ready := ready + SlotSet(e.outputs);
      if e.kind == BindInput {
        bound := bound + {p.buffers[e.outputs[0]].tensor};
      } else if e.kind == Execute {
        if c.graph.operations[executed].kind == Matmul {
          join := Some(Join(i, e.inputs));
        }
        executed := executed + 1;
      } else if e.kind == PublishOutput {
        published := published + {p.buffers[e.inputs[0]].tensor};
      }
      assert next == Inspection(ready, bound, published, executed, join);
    }
    assert p.steps[..|p.steps|] == p.steps;
    return Ok(Inspection(ready, bound, published, executed, join));
  }

  /** The validator: budgets, buffers, events, and completeness at the end. */
  method InspectSchedule(c: Context, p: Plan) returns (r: Result<Option<Join>>)
    requires Assigned(c)
    ensures r == Inspect(c, p)
  {
    if !WithinLimits(c.limits, p) {
      return Err("schedule scope or budget rejected");
    }
    var buffers := InspectBufferList(c, p.buffers);
    if buffers.Err? {
      return Err(buffers.message);
    }
    var replay := ReplaySteps(c, p);
    if replay.Err? {
      return Err(replay.message);
    }
    var st := replay.value;
    if st.bound != ExternalInputs(c.graph) || st.executed != |c.graph.operations|
       || st.published != Terminals(c.graph) || (c.limits.requireJoin && st.join == None)
       || st.ready != AllSlots(|p.buffers|)
    {
      return Err("schedule incomplete");
    }
    return Ok(st.join);
  }
}
