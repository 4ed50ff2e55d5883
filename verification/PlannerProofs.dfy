/**
  The planner against the validator: every plan it returns is accepted, none costs less, and
  its budget refusals are unavoidable. All lemmas are about the planner's tables as values.
 */
module PlannerProofs {
  import opened Wrappers
  import opened Graphs
  import opened Residency
  import opened Schedules
  import opened Conservation
  import opened Planner

  // ----- The tables -----

  /** resident indexes the buffers by (tensor, space). */
  ghost predicate Indexed(buffers: seq<Buffer>, resident: map<(Tensor, Space), nat>) {
    && (forall i | 0 <= i < |buffers| :: (buffers[i].tensor, buffers[i].space) in resident)
    && (forall t, space {:trigger resident[(t, space)]} | (t, space) in resident ::
          && resident[(t, space)] < |buffers|
          && buffers[resident[(t, space)]].tensor == t && buffers[resident[(t, space)]].space == space)
  }

  /** One buffer a pair, and only for pairs in needed. */
  ghost predicate Frugal(needed: iset<(Tensor, Space)>, buffers: seq<Buffer>) {
    && DistinctPairs(buffers)
    && (forall i | 0 <= i < |buffers| :: (buffers[i].tensor, buffers[i].space) in needed)
  }

  ghost predicate WithinBudget(buffers: seq<Buffer>) {
    |buffers| <= MAX_RESIDENCY_BUFFERS && TotalBytes(buffers) <= MAX_RESIDENCY_BYTES
  }

  ghost predicate SoundTables(c: Context, needed: iset<(Tensor, Space)>, d: Draft) {
    && InspectBuffers(c, d.buffers).Ok?
    && Indexed(d.buffers, d.resident)
    && Frugal(needed, d.buffers)
    && d.reserved == TotalBytes(d.buffers)
    && WithinBudget(d.buffers)
  }

  lemma GrownIndexed(buffers: seq<Buffer>, resident: map<(Tensor, Space), nat>, b: Buffer)
    requires Indexed(buffers, resident)
    requires (b.tensor, b.space) !in resident
    ensures Indexed(buffers + [b], resident[(b.tensor, b.space) := |buffers|])
  {
    var after := resident[(b.tensor, b.space) := |buffers|];
    forall t, space | (t, space) in after
      ensures after[(t, space)] < |buffers + [b]|
      ensures (buffers + [b])[after[(t, space)]].tensor == t && (buffers + [b])[after[(t, space)]].space == space
    {
      if (t, space) != (b.tensor, b.space) {
        assert (t, space) in resident && after[(t, space)] == resident[(t, space)];
      }
    }
  }

  lemma GrownDistinct(needed: iset<(Tensor, Space)>, buffers: seq<Buffer>, resident: map<(Tensor, Space), nat>,
                      b: Buffer)
    requires Frugal(needed, buffers)
    requires forall i | 0 <= i < |buffers| :: (buffers[i].tensor, buffers[i].space) in resident
    requires (b.tensor, b.space) !in resident && (b.tensor, b.space) in needed
    ensures Frugal(needed, buffers + [b])
  {
    var grown := buffers + [b];
    forall i, j | 0 <= i < j < |grown|
      ensures grown[i].tensor != grown[j].tensor || grown[i].space != grown[j].space
    {
      assert (buffers[i].tensor, buffers[i].space) in resident;
    }
  }

  lemma GrownTables(c: Context, needed: iset<(Tensor, Space)>, d: Draft, t: Tensor, space: Space)
    requires SoundTables(c, needed, d) && t < |c.graph.shapes| && KnownSpace(c.deployment, space)
    requires (t, space) !in d.resident && (t, space) in needed
    requires Allocated(c, d, t, space).Ok?
    ensures SoundTables(c, needed, Grown(c, d, t, space))
  {
    var b := NewBuffer(c, t, space);
    GrownIndexed(d.buffers, d.resident, b);
    GrownDistinct(needed, d.buffers, d.resident, b);
    AppendBuffer(c, d.buffers, b);
  }

  lemma BuffersSized(c: Context, buffers: seq<Buffer>)
    requires InspectBuffers(c, buffers).Ok?
    ensures SizedByTensor(c.graph, buffers)
  {
    forall i | 0 <= i < |buffers|
      ensures buffers[i].bytes == TensorBytes(c.graph, buffers[i].tensor)
    {
      assert InspectBuffer(c, buffers[i]).Ok?;
    }
  }

  /** A refused allocation shows the budget broken by needed slots alone. */
  lemma RefusedAllocation(c: Context, needed: iset<(Tensor, Space)>, d: Draft, t: Tensor, space: Space)
    requires SoundTables(c, needed, d) && t < |c.graph.shapes| && KnownSpace(c.deployment, space)
    requires (t, space) !in d.resident && (t, space) in needed
    requires Allocated(c, d, t, space).Err?
    ensures BudgetBroken(c.graph, needed)
  {
    var b := NewBuffer(c, t, space);
    GrownDistinct(needed, d.buffers, d.resident, b);
    AppendBuffer(c, d.buffers, b);
    BuffersSized(c, d.buffers + [b]);
    assert OverBudget(c.graph, needed, d.buffers + [b]);
  }

  // ----- The schedule -----

  ghost function Progress(c: Context, d: Draft): Inspection
    requires Assigned(c) && InspectSteps(c, d.buffers, d.steps).Ok?
  {
    InspectSteps(c, d.buffers, d.steps).value
  }

  ghost predicate OutputsMet(g: Graph, origins: map<Tensor, nat>, n: nat) {
    forall i | 0 <= i < n && i < |g.operations| :: g.operations[i].output in origins
  }

  /** origins holds, for every tensor met so far, the slot it was bound or computed in. */
  ghost predicate Tracked(g: Graph, buffers: seq<Buffer>, origins: map<Tensor, nat>, st: Inspection) {
    && st.executed <= |g.operations|
    && (forall t | t in origins :: origins[t] < |buffers| && buffers[origins[t]].tensor == t)
    && (forall t | t in origins :: SettledBy(g, st.executed, t))
    && (forall i | 0 <= i < |buffers| :: buffers[i].tensor in origins)
    && OutputsMet(g, origins, st.executed)
    && (forall t :: t in st.bound <==> t in origins && !Produced(g, t))
    && st.bound <= ExternalInputs(g)
  }

  ghost predicate ReadBy(steps: seq<Event>, slot: int) {
    exists m :: 0 <= m < |steps| && slot in steps[m].inputs
  }

  /** Every copy made so far is read by an event, or is waiting to be. */
  ghost predicate CopiesRead(steps: seq<Event>, waiting: set<int>) {
    forall n | 0 <= n < |steps| && steps[n].kind == Copy ::
      |steps[n].outputs| == 1 && (ReadBy(steps, steps[n].outputs[0]) || steps[n].outputs[0] in waiting)
  }

  /** The validator accepts the events so far and they fill every slot. */
  ghost predicate SoundSchedule(c: Context, d: Draft, waiting: set<int>)
    requires Assigned(c)
  {
    && InspectSteps(c, d.buffers, d.steps).Ok?
    && Progress(c, d).ready == AllSlots(|d.buffers|)
    && Tracked(c.graph, d.buffers, d.origins, Progress(c, d))
    && CopiesRead(d.steps, waiting)
  }

  lemma ReadByExtends(steps: seq<Event>, e: Event, slot: int)
    requires ReadBy(steps, slot)
    ensures ReadBy(steps + [e], slot)
  {
    var m :| 0 <= m < |steps| && slot in steps[m].inputs;
    assert slot in (steps + [e])[m].inputs;
  }

  lemma AppendReader(steps: seq<Event>, waiting: set<int>, e: Event)
    requires CopiesRead(steps, waiting) && e.kind != Copy
    requires forall s | s in waiting :: s in e.inputs
    ensures CopiesRead(steps + [e], {})
  {
    var all := steps + [e];
    forall n | 0 <= n < |all| && all[n].kind == Copy
      ensures |all[n].outputs| == 1 && ReadBy(all, all[n].outputs[0])
    {
      var slot := steps[n].outputs[0];
      if ReadBy(steps, slot) {
        ReadByExtends(steps, e, slot);
      } else {
        assert slot in all[|steps|].inputs;
      }
    }
  }

  lemma AppendWriter(steps: seq<Event>, waiting: set<int>, e: Event)
    requires CopiesRead(steps, waiting) && |e.outputs| == 1
    ensures CopiesRead(steps + [e], if e.kind == Copy then waiting + {e.outputs[0]} else waiting)
  {
    var all := steps + [e];
    forall n | 0 <= n < |steps| && steps[n].kind == Copy && ReadBy(steps, steps[n].outputs[0])
      ensures ReadBy(all, steps[n].outputs[0])
    {
      ReadByExtends(steps, e, steps[n].outputs[0]);
    }
  }

  // ----- Binding -----

  lemma BindCheck(c: Context, buffers: seq<Buffer>, t: Tensor, st: Inspection)
    requires Assigned(c) && t < |c.graph.shapes|
    requires NoneReady([|buffers|], st.ready) && t in ExternalInputs(c.graph) && t !in st.bound
    ensures CheckEvent(c, buffers + [NewBuffer(c, t, c.deployment.host)], st, BindEvent(|buffers|)).Ok?
  {
  }

  lemma BindTracked(g: Graph, buffers: seq<Buffer>, b: Buffer, origins: map<Tensor, nat>, st: Inspection,
                    after: Inspection)
    requires Tracked(g, buffers, origins, st)
    requires b.tensor in ExternalInputs(g)
    requires after.executed == st.executed && after.bound == st.bound + {b.tensor}
    ensures Tracked(g, buffers + [b], origins[b.tensor := |buffers|], after)
  {
    assert SettledBy(g, st.executed, b.tensor);
  }

  lemma BindSchedule(c: Context, d: Draft, waiting: set<int>, t: Tensor)
    requires Assigned(c) && t < |c.graph.shapes| && t !in d.origins && t in ExternalInputs(c.graph)
    requires SoundSchedule(c, d, waiting)
    ensures
      var after := WithBind(Grown(c, d, t, c.deployment.host), t, |d.buffers|);
      && SoundSchedule(c, after, waiting)
      && Progress(c, after).executed == Progress(c, d).executed
      && Progress(c, after).published == Progress(c, d).published
  {
    var b := NewBuffer(c, t, c.deployment.host);
    var after := WithBind(Grown(c, d, t, c.deployment.host), t, |d.buffers|);
    BindCheck(c, d.buffers, t, Progress(c, d));
    AppendWrite(c, d.buffers, b, d.steps, BindEvent(|d.buffers|));
    BindTracked(c.graph, d.buffers, b, d.origins, Progress(c, d), Progress(c, after));
    AppendWriter(d.steps, waiting, BindEvent(|d.buffers|));
  }

  // ----- Copying -----

  lemma CopyCheck(c: Context, buffers: seq<Buffer>, t: Tensor, space: Space, source: nat, st: Inspection)
    requires Assigned(c) && t < |c.graph.shapes| && InspectBuffers(c, buffers).Ok?
    requires NoneReady([|buffers|], st.ready) && AllReady([source], st.ready)
    requires source < |buffers| && buffers[source].tensor == t && buffers[source].space != space
    ensures CheckEvent(c, buffers + [NewBuffer(c, t, space)], st, CopyEvent(source, |buffers|)).Ok?
  {
    assert InspectBuffer(c, buffers[source]).Ok?;
  }

  lemma CopyTracked(g: Graph, buffers: seq<Buffer>, b: Buffer, origins: map<Tensor, nat>, st: Inspection,
                    after: Inspection)
    requires Tracked(g, buffers, origins, st)
    requires b.tensor in origins
    requires after.executed == st.executed && after.bound == st.bound
    ensures Tracked(g, buffers + [b], origins, after)
  {
  }

  lemma CopySchedule(c: Context, d: Draft, waiting: set<int>, t: Tensor, space: Space)
    requires Assigned(c) && t < |c.graph.shapes| && InspectBuffers(c, d.buffers).Ok?
    requires SoundSchedule(c, d, waiting)
    requires t in d.origins && d.buffers[d.origins[t]].space != space
    ensures
      var after := WithCopy(Grown(c, d, t, space), d.origins[t], |d.buffers|);
      && SoundSchedule(c, after, waiting + {|d.buffers|})
      && Progress(c, after).executed == Progress(c, d).executed
      && Progress(c, after).published == Progress(c, d).published
  {
    var e := CopyEvent(d.origins[t], |d.buffers|);
    var after := WithCopy(Grown(c, d, t, space), d.origins[t], |d.buffers|);
    CopyCheck(c, d.buffers, t, space, d.origins[t], Progress(c, d));
    AppendWrite(c, d.buffers, NewBuffer(c, t, space), d.steps, e);
    AppendWriter(d.steps, waiting, e);
    CopyTracked(c.graph, d.buffers, NewBuffer(c, t, space), d.origins, Progress(c, d), Progress(c, after));
  }

  lemma MoreWaiting(c: Context, d: Draft, waiting: set<int>, more: set<int>)
    requires Assigned(c) && SoundSchedule(c, d, waiting) && waiting <= more
    ensures SoundSchedule(c, d, more)
  {
  }

  // ----- Ensuring one operand -----

  /** after extends before by slots and events only; slot holds t in space there. */
  ghost predicate Holding(c: Context, before: Draft, after: Draft, t: Tensor, space: Space, slot: nat)
    requires Assigned(c) && InspectSteps(c, before.buffers, before.steps).Ok?
    requires InspectSteps(c, after.buffers, after.steps).Ok?
  {
    && slot < |after.buffers| && after.buffers[slot].tensor == t && after.buffers[slot].space == space
    && before.buffers <= after.buffers && after.origins == before.origins
    && Progress(c, after).executed == Progress(c, before).executed
    && Progress(c, after).published == Progress(c, before).published
  }

  /** A tensor without an origin is resident nowhere. */
  lemma ResidentHasOrigin(g: Graph, d: Draft, st: Inspection, t: Tensor, space: Space)
    requires Indexed(d.buffers, d.resident) && Tracked(g, d.buffers, d.origins, st)
    ensures (t, space) in d.resident ==> t in d.origins
  {
    if (t, space) in d.resident {
      assert d.buffers[d.resident[(t, space)]].tensor == t;
    }
  }

  lemma EnsuredSound(c: Context, needed: iset<(Tensor, Space)>, d: Draft, waiting: set<int>, t: Tensor, space: Space)
    requires Assigned(c) && t < |c.graph.shapes| && KnownSpace(c.deployment, space)
    requires SoundTables(c, needed, d) && SoundSchedule(c, d, waiting)
    requires t in d.origins && (t, space) in needed
    ensures Ensured(c, d, t, space).Err? ==> BudgetBroken(c.graph, needed)
    ensures Ensured(c, d, t, space).Ok? ==>
              var (after, slot) := Ensured(c, d, t, space).value;
              && SoundTables(c, needed, after) && SoundSchedule(c, after, waiting + {slot})
              && Holding(c, d, after, t, space, slot)
  {
    if (t, space) in d.resident {
      var slot := d.resident[(t, space)];
      MoreWaiting(c, d, waiting, waiting + {slot});
    } else if Allocated(c, d, t, space).Err? {
      RefusedAllocation(c, needed, d, t, space);
    } else {
      var source := d.origins[t];
      assert (d.buffers[source].tensor, d.buffers[source].space) in d.resident;
      GrownTables(c, needed, d, t, space);
      CopySchedule(c, d, waiting, t, space);
    }
  }

  lemma BoundSound(c: Context, needed: iset<(Tensor, Space)>, d: Draft, waiting: set<int>, t: Tensor)
    requires Assigned(c) && t < |c.graph.shapes|
    requires SoundTables(c, needed, d) && SoundSchedule(c, d, waiting)
    requires t !in d.origins ==> t in ExternalInputs(c.graph) && (t, c.deployment.host) in needed
    ensures Bound(c, d, t).Err? ==> BudgetBroken(c.graph, needed)
    ensures Bound(c, d, t).Ok? ==>
              var after := Bound(c, d, t).value;
              && SoundTables(c, needed, after) && SoundSchedule(c, after, waiting)
              && d.buffers <= after.buffers && t in after.origins && d.origins.Keys <= after.origins.Keys
              && Progress(c, after).executed == Progress(c, d).executed
              && Progress(c, after).published == Progress(c, d).published
  {
    if t !in d.origins {
      ResidentHasOrigin(c.graph, d, Progress(c, d), t, c.deployment.host);
      if Allocated(c, d, t, c.deployment.host).Err? {
        RefusedAllocation(c, needed, d, t, c.deployment.host);
      } else {
        GrownTables(c, needed, d, t, c.deployment.host);
        BindSchedule(c, d, waiting, t);
      }
    }
  }

  // ----- Fetching the operands of one operation -----

  /** slots are resident copies of the first operands of operation i, in its space. */
  ghost predicate OperandSlots(c: Context, buffers: seq<Buffer>, i: nat, slots: seq<int>)
    requires Assigned(c) && i < |c.graph.operations|
  {
    && |slots| <= |c.graph.operations[i].inputs|
    && forall k | 0 <= k < |slots| ::
         && 0 <= slots[k] < |buffers|
         && buffers[slots[k]].tensor == c.graph.operations[i].inputs[k]
         && buffers[slots[k]].space == SpaceOf(c, i)
  }

  ghost predicate InputsMet(g: Graph, origins: map<Tensor, nat>, n: nat) {
    forall i, k | 0 <= i < n && i < |g.operations| && 0 <= k < |g.operations[i].inputs| ::
      g.operations[i].inputs[k] in origins
  }

  ghost predicate OperandsMet(g: Graph, origins: map<Tensor, nat>, i: nat, k: nat)
    requires i < |g.operations| && k <= |g.operations[i].inputs|
  {
    forall j | 0 <= j < k :: g.operations[i].inputs[j] in origins
  }

  /** The state the operands of operation i are fetched in. */
  ghost predicate At(c: Context, needed: iset<(Tensor, Space)>, d: Draft, waiting: set<int>, i: nat) {
    && Assigned(c) && SoundTables(c, needed, d) && SoundSchedule(c, d, waiting)
    && Progress(c, d).executed == i && Progress(c, d).published == {}
    && InputsMet(c.graph, d.origins, i)
  }

  /** needed contains what operation i and the boundary of the graph need. */
  ghost predicate Covers(c: Context, needed: iset<(Tensor, Space)>)
    requires Assigned(c)
  {
    && (forall t | t in ExternalInputs(c.graph) || t in Terminals(c.graph) :: (t, c.deployment.host) in needed)
    && (forall i, k | 0 <= i < |c.graph.operations| && 0 <= k < |c.graph.operations[i].inputs| ::
          (c.graph.operations[i].inputs[k], SpaceOf(c, i)) in needed)
    && (forall i | 0 <= i < |c.graph.operations| :: (c.graph.operations[i].output, SpaceOf(c, i)) in needed)
  }

  lemma NeededPairsCover(c: Context)
    requires Assigned(c)
    ensures Covers(c, NeededPairs(c))
  {
    forall i, k | 0 <= i < |c.graph.operations| && 0 <= k < |c.graph.operations[i].inputs|
      ensures Needed(c, c.graph.operations[i].inputs[k], SpaceOf(c, i))
    {
    }
    forall i | 0 <= i < |c.graph.operations|
      ensures Needed(c, c.graph.operations[i].output, SpaceOf(c, i))
    {
    }
  }

  lemma FirstUseIsExternal(g: Graph, buffers: seq<Buffer>, origins: map<Tensor, nat>, st: Inspection, i: nat, k: nat)
    requires ReadsBackward(g) && Tracked(g, buffers, origins, st) && st.executed == i
    requires i < |g.operations| && k < |g.operations[i].inputs| && g.operations[i].inputs[k] !in origins
    ensures g.operations[i].inputs[k] in ExternalInputs(g)
  {
    var t := g.operations[i].inputs[k];
    assert t in g.operations[i].inputs;
    forall j | 0 <= j < |g.operations|
      ensures g.operations[j].output != t
    {
      if j >= i {
        assert g.operations[j].output !in g.operations[i].inputs;
      }
    }
  }

  lemma OneMoreOperand(c: Context, before: seq<Buffer>, after: seq<Buffer>, i: nat, slots: seq<int>, slot: nat)
    requires Assigned(c) && i < |c.graph.operations| && |slots| < |c.graph.operations[i].inputs|
    requires OperandSlots(c, before, i, slots) && before <= after
    requires slot < |after| && after[slot].space == SpaceOf(c, i)
    requires after[slot].tensor == c.graph.operations[i].inputs[|slots|]
    ensures OperandSlots(c, after, i, slots + [slot])
  {
    var all := slots + [slot];
    forall j | 0 <= j < |all|
      ensures 0 <= all[j] < |after| && after[all[j]].tensor == c.graph.operations[i].inputs[j]
      ensures after[all[j]].space == SpaceOf(c, i)
    {
      if j < |slots| {
        assert after[slots[j]] == before[slots[j]];
      }
    }
  }

  lemma StillAt(c: Context, needed: iset<(Tensor, Space)>, d: Draft, waiting: set<int>, after: Draft,
                waiting': set<int>, i: nat)
    requires At(c, needed, d, waiting, i)
    requires SoundTables(c, needed, after) && SoundSchedule(c, after, waiting')
    requires d.origins.Keys <= after.origins.Keys
    requires Progress(c, after).executed == Progress(c, d).executed
    requires Progress(c, after).published == Progress(c, d).published
    ensures At(c, needed, after, waiting', i)
  {
  }

  lemma BoundAt(c: Context, needed: iset<(Tensor, Space)>, d: Draft, waiting: set<int>, i: nat, k: nat)
    requires Plannable(c) && Covers(c, needed) && i < |c.graph.operations| && k < |c.graph.operations[i].inputs|
    requires At(c, needed, d, waiting, i) && OperandsMet(c.graph, d.origins, i, k)
    ensures
      var bound := Bound(c, d, c.graph.operations[i].inputs[k]);
      && (bound.Err? ==> BudgetBroken(c.graph, needed))
      && (bound.Ok? ==> At(c, needed, bound.value, waiting, i) && OperandsMet(c.graph, bound.value.origins, i, k + 1)
                        && d.buffers <= bound.value.buffers)
  {
    var t := c.graph.operations[i].inputs[k];
    if t !in d.origins {
      FirstUseIsExternal(c.graph, d.buffers, d.origins, Progress(c, d), i, k);
    }
    BoundSound(c, needed, d, waiting, t);
    if Bound(c, d, t).Ok? {
      StillAt(c, needed, d, waiting, Bound(c, d, t).value, waiting, i);
    }
  }

  lemma EnsuredAt(c: Context, needed: iset<(Tensor, Space)>, d: Draft, waiting: set<int>, i: nat, k: nat)
    requires Plannable(c) && Covers(c, needed) && i < |c.graph.operations| && k < |c.graph.operations[i].inputs|
    requires At(c, needed, d, waiting, i) && OperandsMet(c.graph, d.origins, i, k + 1)
    ensures
      var t := c.graph.operations[i].inputs[k];
      var ensured := Ensured(c, d, t, SpaceOf(c, i));
      && (ensured.Err? ==> BudgetBroken(c.graph, needed))
      && (ensured.Ok? ==>
            var (after, slot) := ensured.value;
            && At(c, needed, after, waiting + {slot}, i) && after.origins == d.origins
            && d.buffers <= after.buffers
            && slot < |after.buffers| && after.buffers[slot].tensor == t && after.buffers[slot].space == SpaceOf(c, i))
  {
    var t := c.graph.operations[i].inputs[k];
    EnsuredSound(c, needed, d, waiting, t, SpaceOf(c, i));
    if Ensured(c, d, t, SpaceOf(c, i)).Ok? {
      var (after, slot) := Ensured(c, d, t, SpaceOf(c, i)).value;
      StillAt(c, needed, d, waiting, after, waiting + {slot}, i);
    }
  }

  lemma SlotSetAppend(slots: seq<int>, slot: int)
    ensures SlotSet(slots) + {slot} == SlotSet(slots + [slot])
  {
  }

  lemma FetchOneSound(c: Context, needed: iset<(Tensor, Space)>, d: Draft, i: nat, slots: seq<nat>)
    requires Plannable(c) && Covers(c, needed)
    requires i < |c.graph.operations| && |slots| < |c.graph.operations[i].inputs|
    requires At(c, needed, d, SlotSet(slots), i)
    requires OperandSlots(c, d.buffers, i, slots) && OperandsMet(c.graph, d.origins, i, |slots|)
    ensures
      var t := c.graph.operations[i].inputs[|slots|];
      var bound := Bound(c, d, t);
      && (bound.Err? ==> BudgetBroken(c.graph, needed))
      && (bound.Ok? ==>
            var ensured := Ensured(c, bound.value, t, SpaceOf(c, i));
            && (ensured.Err? ==> BudgetBroken(c.graph, needed))
            && (ensured.Ok? ==>
                  var (after, slot) := ensured.value;
                  && At(c, needed, after, SlotSet(slots + [slot]), i)
                  && OperandSlots(c, after.buffers, i, slots + [slot])
                  && OperandsMet(c.graph, after.origins, i, |slots| + 1)))
  {
    var t := c.graph.operations[i].inputs[|slots|];
    BoundAt(c, needed, d, SlotSet(slots), i, |slots|);
    if Bound(c, d, t).Ok? {
      var bound := Bound(c, d, t).value;
      EnsuredAt(c, needed, bound, SlotSet(slots), i, |slots|);
      if Ensured(c, bound, t, SpaceOf(c, i)).Ok? {
        var (after, slot) := Ensured(c, bound, t, SpaceOf(c, i)).value;
        SlotSetAppend(slots, slot);
        OneMoreOperand(c, d.buffers, after.buffers, i, slots, slot);
      }
    }
  }

  /** k operands fetched, or a budget that needed slots alone break. */
  ghost predicate FetchedTo(c: Context, needed: iset<(Tensor, Space)>, r: Result<(Draft, seq<nat>)>, i: nat, k: nat) {
    && (r.Err? ==> BudgetBroken(c.graph, needed))
    && (r.Ok? ==>
          && i < |c.graph.operations| && k == |r.value.1| <= |c.graph.operations[i].inputs|
          && At(c, needed, r.value.0, SlotSet(r.value.1), i)
          && OperandSlots(c, r.value.0.buffers, i, r.value.1) && OperandsMet(c.graph, r.value.0.origins, i, k))
  }

  lemma FetchNext(c: Context, needed: iset<(Tensor, Space)>, d: Draft, i: nat, k: nat)
    requires Plannable(c) && Covers(c, needed)
    requires i < |c.graph.operations| && 0 < k <= |c.graph.operations[i].inputs|
    requires FetchedTo(c, needed, Fetched(c, d, i, k - 1), i, k - 1)
    ensures FetchedTo(c, needed, Fetched(c, d, i, k), i, k)
  {
    if Fetched(c, d, i, k - 1).Ok? {
      var (fetched, slots) := Fetched(c, d, i, k - 1).value;
      FetchOneSound(c, needed, fetched, i, slots);
    }
  }

  lemma NothingFetched(c: Context, needed: iset<(Tensor, Space)>, d: Draft, i: nat)
    requires Plannable(c) && i < |c.graph.operations| && At(c, needed, d, {}, i)
    ensures FetchedTo(c, needed, Fetched(c, d, i, 0), i, 0)
  {
    assert SlotSet([]) == {};
  }

  lemma FetchedSound(c: Context, needed: iset<(Tensor, Space)>, d: Draft, i: nat, k: nat)
    requires Plannable(c) && Covers(c, needed)
    requires i < |c.graph.operations| && k <= |c.graph.operations[i].inputs|
    requires At(c, needed, d, {}, i)
    ensures FetchedTo(c, needed, Fetched(c, d, i, k), i, k)
  {
    NothingFetched(c, needed, d, i);
    for j := 0 to k
      invariant FetchedTo(c, needed, Fetched(c, d, i, j), i, j)
    {
      FetchNext(c, needed, d, i, j + 1);
    }
  }

  // ----- Running one operation -----

  lemma ExecuteCheck(c: Context, buffers: seq<Buffer>, i: nat, slots: seq<int>, st: Inspection)
    requires Assigned(c) && i < |c.graph.operations|
    requires st.executed == i && NoneReady([|buffers|], st.ready) && AllReady(slots, st.ready)
    requires c.graph.operations[i].output < |c.graph.shapes|
    requires |slots| <= c.arity
    requires OperandSlots(c, buffers, i, slots) && |slots| == |c.graph.operations[i].inputs|
    ensures CheckEvent(c, buffers + [NewBuffer(c, c.graph.operations[i].output, SpaceOf(c, i))], st,
                       ExecuteEvent(i, c.deployment.assignments[i], slots, |buffers|)).Ok?
  {
    var op := c.graph.operations[i];
    var grown := buffers + [NewBuffer(c, op.output, SpaceOf(c, i))];
    assert TensorsAt(grown, slots) == op.inputs;
    assert TensorsAt(grown, [|buffers|]) == [op.output];
    assert AllInSpace(grown, slots + [|buffers|], SpaceOf(c, i));
  }

  lemma ExecuteTracked(g: Graph, buffers: seq<Buffer>, b: Buffer, origins: map<Tensor, nat>, st: Inspection,
                       after: Inspection)
    requires SingleAssignment(g)
    requires Tracked(g, buffers, origins, st) && st.executed < |g.operations|
    requires b.tensor == g.operations[st.executed].output
    requires after.executed == st.executed + 1 && after.bound == st.bound
    ensures Tracked(g, buffers + [b], origins[b.tensor := |buffers|], after)
  {
    assert g.operations[st.executed].output == b.tensor;
    assert b.tensor !in origins;
    assert Produced(g, b.tensor);
    forall j | st.executed + 1 <= j < |g.operations|
      ensures g.operations[j].output != b.tensor
    {
      if g.operations[j].output == g.operations[st.executed].output { assert false; }
    }
  }

  lemma ExecuteSchedule(c: Context, d: Draft, i: nat, slots: seq<int>)
    requires Plannable(c) && i < |c.graph.operations|
    requires SoundSchedule(c, d, SlotSet(slots)) && Progress(c, d).executed == i
    requires OperandSlots(c, d.buffers, i, slots) && |slots| == |c.graph.operations[i].inputs|
    ensures
      var after := WithExecute(c, Grown(c, d, c.graph.operations[i].output, SpaceOf(c, i)), i, slots, |d.buffers|);
      && SoundSchedule(c, after, {})
      && Progress(c, after).executed == i + 1
      && Progress(c, after).published == Progress(c, d).published
  {
    var after := WithExecute(c, Grown(c, d, c.graph.operations[i].output, SpaceOf(c, i)), i, slots, |d.buffers|);
    var b := NewBuffer(c, c.graph.operations[i].output, SpaceOf(c, i));
    var e := ExecuteEvent(i, c.deployment.assignments[i], slots, |d.buffers|);
    ExecuteCheck(c, d.buffers, i, slots, Progress(c, d));
    AppendWrite(c, d.buffers, b, d.steps, e);
    ExecuteTracked(c.graph, d.buffers, b, d.origins, Progress(c, d), Progress(c, after));
    AppendReader(d.steps, SlotSet(slots), e);
  }

  lemma ResultIsNew(c: Context, needed: iset<(Tensor, Space)>, d: Draft, waiting: set<int>, i: nat)
    requires At(c, needed, d, waiting, i) && i < |c.graph.operations|
    ensures (c.graph.operations[i].output, SpaceOf(c, i)) !in d.resident
  {
    assert !SettledBy(c.graph, i, c.graph.operations[i].output);
    ResidentHasOrigin(c.graph, d, Progress(c, d), c.graph.operations[i].output, SpaceOf(c, i));
  }

  /** Either the first n operations are planned soundly, or needed slots alone break the budget. */
  ghost predicate PlannedTo(c: Context, needed: iset<(Tensor, Space)>, r: Result<Draft>, n: nat) {
    && (r.Err? ==> BudgetBroken(c.graph, needed))
    && (r.Ok? ==> At(c, needed, r.value, {}, n))
  }

  lemma OperationSound(c: Context, needed: iset<(Tensor, Space)>, d: Draft, i: nat, r: Result<Draft>)
    requires Plannable(c) && Covers(c, needed) && i < |c.graph.operations|
    requires At(c, needed, d, {}, i) && r == OperationPlanned(c, d, i)
    ensures PlannedTo(c, needed, r, i + 1)
  {
    var op, space := c.graph.operations[i], SpaceOf(c, i);
    FetchedSound(c, needed, d, i, |op.inputs|);
    if Fetched(c, d, i, |op.inputs|).Ok? {
      var (fetched, slots) := Fetched(c, d, i, |op.inputs|).value;
      ResultIsNew(c, needed, fetched, SlotSet(slots), i);
      if Allocated(c, fetched, op.output, space).Err? {
        RefusedAllocation(c, needed, fetched, op.output, space);
      } else {
        GrownTables(c, needed, fetched, op.output, space);
        ExecuteSchedule(c, fetched, i, slots);
      }
    }
  }

  lemma EmptyAt(c: Context, needed: iset<(Tensor, Space)>)
    requires Assigned(c)
    ensures At(c, needed, EMPTY_DRAFT, {}, 0)
  {
    assert TotalBytes([]) == 0;
  }

  // ----- Publishing -----

  lemma PublishCheck(c: Context, buffers: seq<Buffer>, t: Tensor, slot: nat, st: Inspection)
    requires Assigned(c) && AllReady([slot], st.ready)
    requires slot < |buffers| && buffers[slot].tensor == t && buffers[slot].space == c.deployment.host
    requires t in Terminals(c.graph) && t !in st.published
    ensures CheckEvent(c, buffers, st, PublishEvent(slot)).Ok?
  {
  }

  lemma PublishSchedule(c: Context, d: Draft, t: Tensor, slot: nat)
    requires Assigned(c) && SoundSchedule(c, d, {slot})
    requires slot < |d.buffers| && d.buffers[slot].tensor == t && d.buffers[slot].space == c.deployment.host
    requires t in Terminals(c.graph) && t !in Progress(c, d).published
    ensures
      var after := d.(steps := d.steps + [PublishEvent(slot)]);
      && SoundSchedule(c, after, {})
      && Progress(c, after).executed == Progress(c, d).executed
      && Progress(c, after).published == Progress(c, d).published + {t}
  {
    var e := PublishEvent(slot);
    PublishCheck(c, d.buffers, t, slot, Progress(c, d));
    AppendEvent(c, d.buffers, d.steps, e);
    assert Progress(c, d).ready + SlotSet(e.outputs) == Progress(c, d).ready;
    AppendReader(d.steps, {slot}, e);
  }

  /** Nothing is published before the last operation has executed. */
  ghost predicate LatePublications(g: Graph, steps: seq<Event>) {
    forall n | 0 <= n < |steps| && steps[n].kind == PublishOutput :: KindCount(steps[..n], Execute) == |g.operations|
  }

  lemma LateExtends(g: Graph, steps: seq<Event>, e: Event)
    requires LatePublications(g, steps)
    requires e.kind == PublishOutput ==> KindCount(steps, Execute) == |g.operations|
    ensures LatePublications(g, steps + [e])
  {
    var more := steps + [e];
    forall n | 0 <= n < |more| && more[n].kind == PublishOutput
      ensures KindCount(more[..n], Execute) == |g.operations|
    {
      assert more[..n] == steps[..n];
      if n == |steps| {
        assert steps[..n] == steps;
      }
    }
  }

  lemma EnsuredStaysLate(c: Context, d: Draft, t: Tensor, space: Space)
    requires t < |c.graph.shapes| && t in d.origins && Ensured(c, d, t, space).Ok?
    requires LatePublications(c.graph, d.steps)
    ensures LatePublications(c.graph, Ensured(c, d, t, space).value.0.steps)
  {
    LateExtends(c.graph, d.steps, CopyEvent(d.origins[t], |d.buffers|));
  }

  lemma PublicationIsLate(c: Context, d: Draft, slot: nat)
    requires Assigned(c) && InspectSteps(c, d.buffers, d.steps).Ok?
    requires InspectSteps(c, d.buffers, d.steps).value.executed == |c.graph.operations|
    requires LatePublications(c.graph, d.steps)
    ensures LatePublications(c.graph, d.steps + [PublishEvent(slot)])
  {
    ExecutedIsCounted(c, d.buffers, d.steps);
    LateExtends(c.graph, d.steps, PublishEvent(slot));
  }

  lemma {:induction false} NoneOfKind(steps: seq<Event>, kind: EventKind, n: nat)
    requires KindCount(steps, kind) == 0 && n < |steps|
    ensures steps[n].kind != kind
  {
    if n < |steps| - 1 {
      NoneOfKind(steps[..|steps| - 1], kind, n);
    }
  }

  lemma UnpublishedIsLate(c: Context, buffers: seq<Buffer>, steps: seq<Event>)
    requires Assigned(c) && InspectSteps(c, buffers, steps).Ok?
    requires InspectSteps(c, buffers, steps).value.published == {}
    ensures LatePublications(c.graph, steps)
  {
    ExecutedIsCounted(c, buffers, steps);
    forall n | 0 <= n < |steps|
      ensures steps[n].kind != PublishOutput
    {
      NoneOfKind(steps, PublishOutput, n);
    }
  }

  /** The terminals among the outputs of the first n operations. */
  ghost function TerminalsBefore(g: Graph, n: nat): set<Tensor>
    requires n <= |g.operations|
  {
    set i | 0 <= i < n && !Consumed(g, g.operations[i].output) :: g.operations[i].output
  }

  ghost predicate Publishing(c: Context, needed: iset<(Tensor, Space)>, d: Draft, n: nat) {
    && n <= |c.graph.operations|
    && Assigned(c) && SoundTables(c, needed, d) && SoundSchedule(c, d, {})
    && Progress(c, d).executed == |c.graph.operations|
    && Progress(c, d).published == TerminalsBefore(c.graph, n)
    && InputsMet(c.graph, d.origins, |c.graph.operations|)
    && LatePublications(c.graph, d.steps)
  }

  lemma TerminalsBeforeNext(g: Graph, n: nat)
    requires n < |g.operations| && SingleAssignment(g)
    ensures Consumed(g, g.operations[n].output) ==> TerminalsBefore(g, n + 1) == TerminalsBefore(g, n)
    ensures !Consumed(g, g.operations[n].output) ==>
              && TerminalsBefore(g, n + 1) == TerminalsBefore(g, n) + {g.operations[n].output}
              && g.operations[n].output in Terminals(g)
              && g.operations[n].output !in TerminalsBefore(g, n)
  {
    forall i | 0 <= i < n
      ensures g.operations[i].output != g.operations[n].output
    {
      if g.operations[i].output == g.operations[n].output { assert false; }
    }
  }

  ghost predicate PublishedTo(c: Context, needed: iset<(Tensor, Space)>, r: Result<Draft>, n: nat) {
    && (r.Err? ==> BudgetBroken(c.graph, needed))
    && (r.Ok? ==> Publishing(c, needed, r.value, n))
  }

  lemma TerminalSound(c: Context, needed: iset<(Tensor, Space)>, d: Draft, n: nat, r: Result<Draft>)
    requires Plannable(c) && Covers(c, needed) && n < |c.graph.operations|
    requires Publishing(c, needed, d, n) && c.graph.operations[n].output in d.origins
    requires r == TerminalPlanned(c, d, n)
    ensures PublishedTo(c, needed, r, n + 1)
  {
    var t := c.graph.operations[n].output;
    TerminalsBeforeNext(c.graph, n);
    if !Consumed(c.graph, t) {
      EnsuredSound(c, needed, d, {}, t, c.deployment.host);
      if Ensured(c, d, t, c.deployment.host).Ok? {
        var (ensured, slot) := Ensured(c, d, t, c.deployment.host).value;
        PublishSchedule(c, ensured, t, slot);
        EnsuredStaysLate(c, d, t, c.deployment.host);
        PublicationIsLate(c, ensured, slot);
      }
    }
  }

  // ----- The whole planner -----

  /** What the planner promises about a plan it returns: the validator replays it to the end, no
      (tensor, space) pair is superfluous or duplicated, no copy is made in vain, and publications
      come last. */
  ghost predicate WellPlanned(c: Context, p: Plan)
    requires Assigned(c)
  {
    && InspectBuffers(c, p.buffers).Ok?
    && InspectSteps(c, p.buffers, p.steps).Ok?
    && InspectSteps(c, p.buffers, p.steps).value.bound == ExternalInputs(c.graph)
    && InspectSteps(c, p.buffers, p.steps).value.executed == |c.graph.operations|
    && InspectSteps(c, p.buffers, p.steps).value.published == Terminals(c.graph)
    && InspectSteps(c, p.buffers, p.steps).value.ready == AllSlots(|p.buffers|)
    && Frugal(NeededPairs(c), p.buffers)
    && CopiesRead(p.steps, {})
    && LatePublications(c.graph, p.steps)
    && WithinBudget(p.buffers)
  }

  lemma InputsAllBound(g: Graph, buffers: seq<Buffer>, origins: map<Tensor, nat>, st: Inspection)
    requires Tracked(g, buffers, origins, st) && InputsMet(g, origins, |g.operations|)
    ensures st.bound == ExternalInputs(g)
  {
    forall t | t in ExternalInputs(g)
      ensures t in st.bound
    {
      var i, k :| 0 <= i < |g.operations| && 0 <= k < |g.operations[i].inputs|
                  && !Produced(g, g.operations[i].inputs[k]) && g.operations[i].inputs[k] == t;
      assert t in origins;
    }
  }

  lemma FinishedIsWellPlanned(c: Context, d: Draft)
    requires Assigned(c) && Publishing(c, NeededPairs(c), d, |c.graph.operations|)
    ensures WellPlanned(c, Plan(d.buffers, d.steps))
  {
    InputsAllBound(c.graph, d.buffers, d.origins, Progress(c, d));
    assert TerminalsBefore(c.graph, |c.graph.operations|) == Terminals(c.graph);
  }

  method PlanOperations(planner: ResidencyPlanner, ghost needed: iset<(Tensor, Space)>) returns (r: Result<()>)
    requires Plannable(planner.c) && Covers(planner.c, needed) && planner.Now() == EMPTY_DRAFT
    modifies planner
    ensures r.Err? ==> BudgetBroken(planner.c.graph, needed)
    ensures r.Ok? ==> At(planner.c, needed, planner.Now(), {}, |planner.c.graph.operations|)
  {
    EmptyAt(planner.c, needed);
    for i := 0 to |planner.c.graph.operations|
      invariant At(planner.c, needed, planner.Now(), {}, i)
    {
      OperationSound(planner.c, needed, planner.Now(), i, OperationPlanned(planner.c, planner.Now(), i));
      var _ :- planner.PlanOperation(i);
    }
    return Ok(());
  }

  method PlanTerminals(planner: ResidencyPlanner, ghost needed: iset<(Tensor, Space)>) returns (r: Result<()>)
    requires Plannable(planner.c) && Covers(planner.c, needed)
    requires Publishing(planner.c, needed, planner.Now(), 0)
    modifies planner
    ensures r.Err? ==> BudgetBroken(planner.c.graph, needed)
    ensures r.Ok? ==> Publishing(planner.c, needed, planner.Now(), |planner.c.graph.operations|)
  {
    for i := 0 to |planner.c.graph.operations|
      invariant Publishing(planner.c, needed, planner.Now(), i)
    {
      assert planner.c.graph.operations[i].output in planner.origins;
      TerminalSound(planner.c, needed, planner.Now(), i, TerminalPlanned(planner.c, planner.Now(), i));
      var _ :- planner.PlanTerminal(i);
    }
    return Ok(());
  }

  /** Every operand and every result of the graph, as (operation, position), the result last. */
  ghost function PortSet(ops: seq<Operation>): set<(int, int)> {
    set i, k | 0 <= i < |ops| && 0 <= k <= |ops[i].inputs| :: (i, k)
  }

  lemma {:induction false} RowSize(i: int, n: nat)
    ensures |set k | 0 <= k < n :: (i, k)| == n
  {
    if n > 0 {
      RowSize(i, n - 1);
      assert (set k | 0 <= k < n :: (i, k)) == (set k | 0 <= k < n - 1 :: (i, k)) + {(i, n - 1)};
    }
  }

  /** The port budget counts operands and results, one by one. */
  lemma {:induction false} PortsCounted(ops: seq<Operation>)
    ensures Ports(ops) == |PortSet(ops)|
  {
    if ops != [] {
      var n := |ops| - 1;
      var row := set k | 0 <= k < |ops[n].inputs| + 1 :: (n, k);
      PortsCounted(ops[..n]);
      RowSize(n, |ops[n].inputs| + 1);
      assert PortSet(ops) == PortSet(ops[..n]) + row;
      assert PortSet(ops[..n]) !! row;
    }
  }

  /** What the planner may be given, in numbers: 1 to 64 operations, at most 256 ports, 1 to 16 backends,
      exactly those that are used, one producer a tensor, no reading ahead. */
  ghost predicate Admissible(g: Graph, d: Deployment) {
    && 1 <= |g.operations| <= 64 && |PortSet(g.operations)| <= 256
    && |d.assignments| == |g.operations| && 1 <= |d.backends| <= 16
    && (forall i | 0 <= i < |d.assignments| :: d.assignments[i] in d.backends)
    && (forall b | b in d.backends :: b in d.assignments)
    && SingleAssignment(g) && ReadsBackward(g)
  }

  lemma GuardsMean(g: Graph, d: Deployment)
    ensures Guards(g, d).Ok? <==> Admissible(g, d)
  {
    PortsCounted(g.operations);
    var used := set i | 0 <= i < |d.assignments| :: d.assignments[i];
    assert forall b :: b in used <==> b in d.assignments;
    if d.backends.Keys == used {
      assert forall b | b in d.backends :: b in used;
    }
    if forall b | b in d.backends :: b in d.assignments {
      if forall i | 0 <= i < |d.assignments| :: d.assignments[i] in d.backends {
        assert d.backends.Keys == used;
      }
    }
  }

  /** Distinct pairs the graph cannot do without that number more than 512, or measure more than 128 MiB. */
  ghost predicate Unaffordable(c: Context)
    requires Assigned(c)
  {
    exists buffers: seq<Buffer> ::
      && DistinctPairs(buffers) && SizedByTensor(c.graph, buffers)
      && (forall i | 0 <= i < |buffers| :: Needed(c, buffers[i].tensor, buffers[i].space))
      && (|buffers| > 512 || TotalBytes(buffers) > 134217728)
  }

  lemma BrokenMeans(c: Context)
    requires Assigned(c)
    ensures BudgetBroken(c.graph, NeededPairs(c)) <==> Unaffordable(c)
  {
    forall buffers: seq<Buffer>
      ensures (forall i | 0 <= i < |buffers| :: (buffers[i].tensor, buffers[i].space) in NeededPairs(c))
         <==> (forall i | 0 <= i < |buffers| :: Needed(c, buffers[i].tensor, buffers[i].space))
    {
      assert forall i | 0 <= i < |buffers| ::
          (buffers[i].tensor, buffers[i].space) in NeededPairs(c) <==> Needed(c, buffers[i].tensor, buffers[i].space);
    }
    if BudgetBroken(c.graph, NeededPairs(c)) {
      var buffers: seq<Buffer> :| OverBudget(c.graph, NeededPairs(c), buffers);
      assert DistinctPairs(buffers);
    }
    if Unaffordable(c) {
      var buffers: seq<Buffer> :|
        && DistinctPairs(buffers) && SizedByTensor(c.graph, buffers)
        && (forall i | 0 <= i < |buffers| :: Needed(c, buffers[i].tensor, buffers[i].space))
        && (|buffers| > 512 || TotalBytes(buffers) > 134217728);
      assert OverBudget(c.graph, NeededPairs(c), buffers);
    }
  }

  /** The planner. It returns a plan, and a well-planned one, exactly when graph and placement are
      admissible and the graph can be afforded; otherwise it refuses, its guards first and in order. */
  method PlanResidency(c: Context) returns (r: Result<Plan>)
    requires TensorsListed(c.graph)
    requires forall i | 0 <= i < |c.graph.operations| :: |c.graph.operations[i].inputs| <= c.arity
    ensures Admissible(c.graph, c.deployment) ==> Assigned(c)
    ensures r.Ok? <==> Admissible(c.graph, c.deployment) && !Unaffordable(c)
    ensures !Admissible(c.graph, c.deployment) ==>
              Guards(c.graph, c.deployment).Err? && r == Err(Guards(c.graph, c.deployment).message)
    ensures r.Ok? ==> WellPlanned(c, r.value)
  {
    GuardsMean(c.graph, c.deployment);
    var _ :- Guards(c.graph, c.deployment);
    assert Plannable(c);
    BrokenMeans(c);
    NeededPairsCover(c);
    var planner := new ResidencyPlanner(c);
    var _ :- PlanOperations(planner, NeededPairs(c));
    assert TerminalsBefore(c.graph, 0) == {};
    UnpublishedIsLate(c, planner.buffers, planner.steps);
    var _ :- PlanTerminals(planner, NeededPairs(c));
    FinishedIsWellPlanned(c, planner.Now());
    WellPlannedIsAffordable(c, Plan(planner.buffers, planner.steps));
    return Ok(Plan(planner.buffers, planner.steps));
  }

  /** Planner against validator: every plan the planner returns passes the validator, under any
      budgets that admit its size. */
  lemma PlannedIsAccepted(c: Context, p: Plan, l: Limits)
    requires Assigned(c) && WellPlanned(c, p) && WithinLimits(l, p)
    requires l.requireJoin ==> HasMatmul(c.graph)
    ensures Accepted(c.(limits := l), p)
  {
    BuffersIgnoreLimits(c, l, p.buffers);
    ReplayIgnoresLimits(c, l, p.buffers, p.steps);
    JoinIffMatmul(c, p.buffers, p.steps);
  }

  lemma WellPlannedIsAffordable(c: Context, p: Plan)
    requires Assigned(c) && WellPlanned(c, p)
    ensures !BudgetBroken(c.graph, NeededPairs(c))
  {
    var roomy := Limits(0, |p.buffers|, 0, |p.steps|, false);
    var c' := c.(limits := roomy);
    PlannedIsAccepted(c, p, roomy);
    if BudgetBroken(c.graph, NeededPairs(c)) {
      NeededIgnoresLimits(c, roomy);
      BrokenBudgetIsUnavoidable(c', p);
    }
  }

  lemma NeededIgnoresLimits(c: Context, l: Limits)
    requires Assigned(c)
    ensures NeededPairs(c.(limits := l)) == NeededPairs(c)
  {
    assert forall k | 0 <= k < |c.graph.operations| :: SpaceOf(c.(limits := l), k) == SpaceOf(c, k);
    assert forall t, s :: Needed(c.(limits := l), t, s) <==> Needed(c, t, s);
  }

  /** Optimality: no accepted schedule of the same graph and placement makes fewer copies, moves
      fewer bytes or reserves fewer bytes than the planner's. */
  lemma PlannedIsCheapest(c: Context, p: Plan, other: Plan, l: Limits)
    requires Assigned(c) && WellPlanned(c, p) && Accepted(c.(limits := l), other)
    ensures KindCount(p.steps, Copy) <= KindCount(other.steps, Copy)
    ensures CopyBytes(p.buffers, p.steps) <= CopyBytes(other.buffers, other.steps)
    ensures TotalBytes(p.buffers) <= TotalBytes(other.buffers)
  {
    var roomy := Limits(0, |p.buffers|, 0, |p.steps|, false);
    var c' := c.(limits := roomy);
    PlannedIsAccepted(c, p, roomy);
    forall i | 0 <= i < |p.buffers|
      ensures Needed(c', p.buffers[i].tensor, p.buffers[i].space)
    {
      NeededIgnoresLimits(c, roomy);
      assert (p.buffers[i].tensor, p.buffers[i].space) in NeededPairs(c);
    }
    assert c'.(limits := l) == c.(limits := l);
    NeededOnlyIsCheapest(c', p, other, l);
  }
}
