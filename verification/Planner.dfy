/**
  The residency planner (src/tuc/runtime/residency.py, plan_residency): allocates one slot
  per (tensor, space) pair on demand, binds external inputs on the host at first use, copies
  from a tensor's origin when an operation needs it elsewhere, and publishes terminals.
 */
module Planner {
  import opened Wrappers
  import opened Graphs
  import opened Residency
  import opened Conservation

  const MAX_RESIDENCY_OPERATIONS := 64
  const MAX_RESIDENCY_PORTS := 256
  const MAX_RESIDENCY_BUFFERS := 512
  const MAX_RESIDENCY_BYTES := 128 * 1024 * 1024
  const MAX_BACKEND_SPACES := 16

  function Ports(ops: seq<Operation>): nat {
    if ops == [] then 0 else Ports(ops[..|ops| - 1]) + |ops[|ops| - 1].inputs| + 1
  }

  /** The planner's checks on its arguments, in source order. */
  function Guards(g: Graph, d: Deployment): Result<()> {
    if !(0 < |g.operations| <= MAX_RESIDENCY_OPERATIONS) then Err("operation budget exceeded")
    else if Ports(g.operations) > MAX_RESIDENCY_PORTS then Err("port budget exceeded")
    else if |d.assignments| != |g.operations| then Err("partition mismatch")
    else if !(0 < |d.backends| <= MAX_BACKEND_SPACES) then Err("space mapping rejected")
    else if exists i :: 0 <= i < |d.assignments| && d.assignments[i] !in d.backends then Err("assignment mismatch")
    else if d.backends.Keys != (set i | 0 <= i < |d.assignments| :: d.assignments[i]) then Err("unused backend space")
    else if !SingleAssignment(g) then Err("requires single tensor producers")
    else if !ReadsBackward(g) then Err("rejects cycles, forward uses and in-place outputs")
    else Ok(())
  }

  ghost function NeededPairs(c: Context): iset<(Tensor, Space)>
    requires Assigned(c)
  {
    iset t: Tensor, s: Space | Needed(c, t, s) :: (t, s)
  }

  /** A list of distinct pairs, all in needed, that already breaks the planner's budget. */
  ghost predicate OverBudget(g: Graph, needed: iset<(Tensor, Space)>, buffers: seq<Buffer>) {
    && DistinctPairs(buffers) && SizedByTensor(g, buffers)
    && (forall i | 0 <= i < |buffers| :: (buffers[i].tensor, buffers[i].space) in needed)
    && (|buffers| > MAX_RESIDENCY_BUFFERS || TotalBytes(buffers) > MAX_RESIDENCY_BYTES)
  }

  ghost predicate BudgetBroken(g: Graph, needed: iset<(Tensor, Space)>) {
    exists buffers: seq<Buffer> :: OverBudget(g, needed, buffers)
  }

  /** The planner's budget refusal is never premature: every schedule the validator accepts for
      the same graph and placement breaks the budget too. */
  lemma BrokenBudgetIsUnavoidable(c: Context, other: Plan)
    requires Assigned(c) && BudgetBroken(c.graph, NeededPairs(c)) && Accepted(c, other)
    ensures |other.buffers| > MAX_RESIDENCY_BUFFERS || TotalBytes(other.buffers) > MAX_RESIDENCY_BYTES
  {
    var buffers: seq<Buffer> :| OverBudget(c.graph, NeededPairs(c), buffers);
    AcceptedSized(c, other);
    forall i | 0 <= i < |buffers|
      ensures Holds(other.buffers, buffers[i].tensor, buffers[i].space)
    {
      assert (buffers[i].tensor, buffers[i].space) in NeededPairs(c);
      AcceptedHoldsNeeded(c, other, buffers[i].tensor, buffers[i].space);
    }
    DistinctPairsCheapest(c.graph, buffers, other.buffers);
  }

  // ----- Adding buffers and events to an accepted prefix -----

  lemma CheckEventExtends(c: Context, buffers: seq<Buffer>, more: seq<Buffer>, st: Inspection, e: Event)
    requires Assigned(c) && CheckEvent(c, buffers, st, e).Ok?
    ensures CheckEvent(c, buffers + more, st, e).Ok?
  {
    assert TensorsAt(buffers + more, e.inputs) == TensorsAt(buffers, e.inputs);
    assert TensorsAt(buffers + more, e.outputs) == TensorsAt(buffers, e.outputs);
    if e.kind == Execute {
      var slots := e.inputs + e.outputs;
      assert forall k | 0 <= k < |slots| :: (buffers + more)[slots[k]] == buffers[slots[k]];
    }
  }

  lemma {:induction false} InspectStepsExtend(c: Context, buffers: seq<Buffer>, more: seq<Buffer>, steps: seq<Event>)
    requires Assigned(c) && InspectSteps(c, buffers, steps).Ok?
    ensures InspectSteps(c, buffers + more, steps) == InspectSteps(c, buffers, steps)
  {
    if steps != [] {
      var n := |steps| - 1;
      InspectStepsExtend(c, buffers, more, steps[..n]);
      CheckEventExtends(c, buffers, more, InspectSteps(c, buffers, steps[..n]).value, steps[n]);
    }
  }

  lemma AppendEvent(c: Context, buffers: seq<Buffer>, steps: seq<Event>, e: Event)
    requires Assigned(c) && InspectSteps(c, buffers, steps).Ok?
    requires CheckEvent(c, buffers, InspectSteps(c, buffers, steps).value, e).Ok?
    ensures InspectSteps(c, buffers, steps + [e])
         == Ok(Advance(c, buffers, InspectSteps(c, buffers, steps).value, |steps|, e))
  {
    assert (steps + [e])[..|steps|] == steps;
  }

  /** A new slot and the event that fills it keep the prefix accepted and all slots ready. */
  lemma AppendWrite(c: Context, buffers: seq<Buffer>, b: Buffer, steps: seq<Event>, e: Event)
    requires Assigned(c) && InspectSteps(c, buffers, steps).Ok?
    requires InspectSteps(c, buffers, steps).value.ready == AllSlots(|buffers|)
    requires e.outputs == [|buffers|]
    requires CheckEvent(c, buffers + [b], InspectSteps(c, buffers, steps).value, e).Ok?
    ensures InspectSteps(c, buffers + [b], steps + [e])
         == Ok(Advance(c, buffers + [b], InspectSteps(c, buffers, steps).value, |steps|, e))
    ensures InspectSteps(c, buffers + [b], steps + [e]).value.ready == AllSlots(|buffers| + 1)
  {
    InspectStepsExtend(c, buffers, [b], steps);
    AppendEvent(c, buffers + [b], steps, e);
    assert SlotSet(e.outputs) == {|buffers|};
  }

  lemma AppendBuffer(c: Context, buffers: seq<Buffer>, b: Buffer)
    requires InspectBuffers(c, buffers).Ok? && InspectBuffer(c, b).Ok?
    ensures InspectBuffers(c, buffers + [b]).Ok?
    ensures TotalBytes(buffers + [b]) == TotalBytes(buffers) + b.bytes
  {
    assert (buffers + [b])[..|buffers|] == buffers;
  }

  /** The planner's five mutable tables, as one value. */
  datatype Draft = Draft(buffers: seq<Buffer>, steps: seq<Event>, resident: map<(Tensor, Space), nat>,
                         origins: map<Tensor, nat>, reserved: int)

  const EMPTY_DRAFT := Draft([], [], map[], map[], 0)

  /** What the planner asks of the graph and placement beyond its budgets. */
  ghost predicate Plannable(c: Context) {
    && Assigned(c) && TensorsListed(c.graph) && SingleAssignment(c.graph) && ReadsBackward(c.graph)
    && forall i | 0 <= i < |c.graph.operations| :: |c.graph.operations[i].inputs| <= c.arity
  }

  // ----- The planner's steps, as functions of its tables -----

  function NewBuffer(c: Context, t: Tensor, space: Space): Buffer
    requires t < |c.graph.shapes|
  {
    Buffer(t, space, c.graph.shapes[t], Bytes(c.graph.shapes[t]))
  }

  function Grown(c: Context, d: Draft, t: Tensor, space: Space): Draft
    requires t < |c.graph.shapes|
  {
    d.(buffers := d.buffers + [NewBuffer(c, t, space)],
       resident := d.resident[(t, space) := |d.buffers|],
       reserved := d.reserved + Bytes(c.graph.shapes[t]))
  }

  /** allocate: the new slot is |d.buffers|. */
  function Allocated(c: Context, d: Draft, t: Tensor, space: Space): Result<Draft>
    requires t < |c.graph.shapes|
  {
    if |d.buffers| >= MAX_RESIDENCY_BUFFERS || d.reserved + Bytes(c.graph.shapes[t]) > MAX_RESIDENCY_BYTES
    then Err("buffer budget exceeded")
    else Ok(Grown(c, d, t, space))
  }

  function BindEvent(slot: int): Event {
    Event(BindInput, None, "", [], [slot])
  }

  function CopyEvent(source: int, target: int): Event {
    Event(Copy, None, "", [source], [target])
  }

  function ExecuteEvent(i: nat, backend: Backend, inputs: seq<int>, output: int): Event {
    Event(Execute, Some(i), backend, inputs, [output])
  }

  function PublishEvent(slot: int): Event {
    Event(PublishOutput, None, "", [slot], [])
  }

  function WithCopy(d: Draft, source: int, target: int): Draft {
    d.(steps := d.steps + [CopyEvent(source, target)])
  }

  /** ensure: the resident slot, or a copy from the origin. */
  function Ensured(c: Context, d: Draft, t: Tensor, space: Space): Result<(Draft, nat)>
    requires t < |c.graph.shapes| && t in d.origins
  {
    if (t, space) in d.resident then Ok((d, d.resident[(t, space)]))
    else
      var grown :- Allocated(c, d, t, space);
      Ok((WithCopy(grown, d.origins[t], |d.buffers|), |d.buffers|))
  }

  function WithBind(d: Draft, t: Tensor, slot: nat): Draft {
    d.(origins := d.origins[t := slot], steps := d.steps + [BindEvent(slot)])
  }

  /** First use of a tensor nobody produced: a host slot bound to it. */
  function Bound(c: Context, d: Draft, t: Tensor): Result<Draft>
    requires t < |c.graph.shapes|
  {
    if t in d.origins then Ok(d)
    else
      var grown :- Allocated(c, d, t, c.deployment.host);
      Ok(WithBind(grown, t, |d.buffers|))
  }

  /** One operand: bound at first use, then in the space. */
  function FetchedOne(c: Context, d: Draft, t: Tensor, space: Space): Result<(Draft, nat)>
    requires t < |c.graph.shapes|
  {
    var bound :- Bound(c, d, t);
    Ensured(c, bound, t, space)
  }

  /** The first k operands of operation i, in its space. */
  function Fetched(c: Context, d: Draft, i: nat, k: nat): (r: Result<(Draft, seq<nat>)>)
    requires Assigned(c) && TensorsListed(c.graph) && i < |c.graph.operations|
    requires k <= |c.graph.operations[i].inputs|
    ensures r.Ok? ==> |r.value.1| == k
  {
    if k == 0 then Ok((d, []))
    else
      var (fetched, slots) :- Fetched(c, d, i, k - 1);
      var (ensured, slot) :- FetchedOne(c, fetched, c.graph.operations[i].inputs[k - 1], SpaceOf(c, i));
      Ok((ensured, slots + [slot]))
  }

  function WithExecute(c: Context, d: Draft, i: nat, slots: seq<int>, output: nat): Draft
    requires Assigned(c) && i < |c.graph.operations|
  {
    d.(origins := d.origins[c.graph.operations[i].output := output],
       steps := d.steps + [ExecuteEvent(i, c.deployment.assignments[i], slots, output)])
  }

  /** One operation: its operands, then its execution into a new slot. */
  function OperationPlanned(c: Context, d: Draft, i: nat): Result<Draft>
    requires Assigned(c) && TensorsListed(c.graph) && i < |c.graph.operations|
  {
    var (fetched, slots) :- Fetched(c, d, i, |c.graph.operations[i].inputs|);
    var grown :- Allocated(c, fetched, c.graph.operations[i].output, SpaceOf(c, i));
    Ok(WithExecute(c, grown, i, slots, |fetched.buffers|))
  }

  /** The publication of operation i's output, if nothing consumes it. */
  function TerminalPlanned(c: Context, d: Draft, i: nat): Result<Draft>
    requires TensorsListed(c.graph) && i < |c.graph.operations|
    requires c.graph.operations[i].output in d.origins
  {
    var t := c.graph.operations[i].output;
    if Consumed(c.graph, t) then Ok(d)
    else
      var (ensured, slot) :- Ensured(c, d, t, c.deployment.host);
      Ok(ensured.(steps := ensured.steps + [PublishEvent(slot)]))
  }

  /** A method's result and the tables it leaves, as a function of the tables before prescribes. */
  ghost predicate Follows<T>(r: Result<T>, prescribed: Result<(Draft, T)>, now: Draft) {
    match prescribed
    case Err(message) => r == Err(message)
    case Ok((after, value)) => r == Ok(value) && now == after
  }

  // ----- The planner object, whose methods perform those steps in place -----

  class ResidencyPlanner {
    const c: Context
    var buffers: seq<Buffer>
    var steps: seq<Event>
    var resident: map<(Tensor, Space), nat>
    var origins: map<Tensor, nat>
    var reserved: int

    ghost function Now(): Draft
      reads this
    {
      Draft(buffers, steps, resident, origins, reserved)
    }

    constructor (c: Context)
      ensures this.c == c && Now() == EMPTY_DRAFT
    {
      this.c := c;
      buffers, steps, resident, origins, reserved := [], [], map[], map[], 0;
    }

    method Allocate(t: Tensor, space: Space) returns (r: Result<nat>)
      requires t < |c.graph.shapes|
      modifies this
      ensures r.Err? <==> Allocated(c, old(Now()), t, space).Err?
      ensures r.Err? ==> r.message == Allocated(c, old(Now()), t, space).message
      ensures r.Ok? ==> Now() == Allocated(c, old(Now()), t, space).value && r.value == old(|buffers|)
    {
      var size := Bytes(c.graph.shapes[t]);
      reserved := reserved + size;
      if |buffers| >= MAX_RESIDENCY_BUFFERS || reserved > MAX_RESIDENCY_BYTES {
        return Err("buffer budget exceeded");
      }
      var slot := |buffers|;
      buffers := buffers + [Buffer(t, space, c.graph.shapes[t], size)];
      resident := resident[(t, space) := slot];
      return Ok(slot);
    }

    method Ensure(t: Tensor, space: Space) returns (r: Result<nat>)
      requires t < |c.graph.shapes| && t in origins
      modifies this
      ensures Follows(r, Ensured(c, old(Now()), t, space), Now())
    {
      if (t, space) in resident {
        return Ok(resident[(t, space)]);
      }
      var source := origins[t];
      var target :- Allocate(t, space);
      steps := steps + [Event(Copy, None, "", [source], [target])];
      return Ok(target);
    }

    method Bind(t: Tensor) returns (r: Result<()>)
      requires t < |c.graph.shapes|
      modifies this
      ensures r.Err? <==> Bound(c, old(Now()), t).Err?
      ensures r.Err? ==> r.message == Bound(c, old(Now()), t).message
      ensures r.Ok? ==> Bound(c, old(Now()), t).value == Now() && t in origins
    {
      if t !in origins {
        var slot :- Allocate(t, c.deployment.host);
        origins := origins[t := slot];
        steps := steps + [Event(BindInput, None, "", [], [slot])];
      }
      return Ok(());
    }

    method FetchOne(t: Tensor, space: Space) returns (r: Result<nat>)
      requires t < |c.graph.shapes|
      modifies this
      ensures Follows(r, FetchedOne(c, old(Now()), t, space), Now())
    {
      var _ :- Bind(t);
      r := Ensure(t, space);
    }

    method Fetch(i: nat) returns (r: Result<seq<nat>>)
      requires Assigned(c) && TensorsListed(c.graph) && i < |c.graph.operations|
      modifies this
      ensures Follows(r, Fetched(c, old(Now()), i, |c.graph.operations[i].inputs|), Now())
    {
      ghost var start := Now();
      var inputs := c.graph.operations[i].inputs;
      var space := c.deployment.backends[c.deployment.assignments[i]];
      var slots: seq<nat> := [];
      for k := 0 to |inputs|
        invariant Fetched(c, start, i, k) == Ok((Now(), slots))
      {
        var slot := FetchOne(inputs[k], space);
        if slot.Err? {
          FetchStops(c, start, i, k + 1, |inputs|);
          return Err(slot.message);
        }
        slots := slots + [slot.value];
      }
      return Ok(slots);
    }

    method PlanOperation(i: nat) returns (r: Result<()>)
      requires Assigned(c) && TensorsListed(c.graph) && i < |c.graph.operations|
      modifies this
      ensures r.Err? <==> OperationPlanned(c, old(Now()), i).Err?
      ensures r.Err? ==> r.message == OperationPlanned(c, old(Now()), i).message
      ensures r.Ok? ==> OperationPlanned(c, old(Now()), i).value == Now()
    {
      var slots :- Fetch(i);
      var output :- Allocate(c.graph.operations[i].output, c.deployment.backends[c.deployment.assignments[i]]);
      origins := origins[c.graph.operations[i].output := output];
      steps := steps + [Event(Execute, Some(i), c.deployment.assignments[i], slots, [output])];
      return Ok(());
    }

    method PlanTerminal(i: nat) returns (r: Result<()>)
      requires TensorsListed(c.graph) && i < |c.graph.operations| && c.graph.operations[i].output in origins
      modifies this
      ensures r.Err? <==> TerminalPlanned(c, old(Now()), i).Err?
      ensures r.Err? ==> r.message == TerminalPlanned(c, old(Now()), i).message
      ensures r.Ok? ==> TerminalPlanned(c, old(Now()), i).value == Now()
    {
      var t := c.graph.operations[i].output;
      if !Consumed(c.graph, t) {
        var slot :- Ensure(t, c.deployment.host);
        steps := steps + [Event(PublishOutput, None, "", [slot], [])];
      }
      return Ok(());
    }
  }

  lemma {:induction false} FetchStops(c: Context, d: Draft, i: nat, k: nat, n: nat)
    requires Assigned(c) && TensorsListed(c.graph) && i < |c.graph.operations|
    requires k <= n <= |c.graph.operations[i].inputs|
    requires Fetched(c, d, i, k).Err?
    ensures Fetched(c, d, i, n) == Err(Fetched(c, d, i, k).message)
    decreases n
  {
    if k < n {
      FetchStops(c, d, i, k, n - 1);
    }
  }
}
