/**
  Bookkeeping that every accepted schedule obeys: each slot is written once, bytes are
  conserved between inputs, results and copies, and some (tensor, space) pairs cannot be
  avoided, which bounds every accepted schedule's copies from below.
 */
module Conservation {
  import opened Graphs
  import opened Residency
  import opened Schedules

  function WriteCount(steps: seq<Event>, slot: int): nat {
    if steps == [] then 0
    else WriteCount(steps[..|steps| - 1], slot) + (if slot in steps[|steps| - 1].outputs then 1 else 0)
  }

  function KindCount(steps: seq<Event>, kind: EventKind): nat {
    if steps == [] then 0
    else KindCount(steps[..|steps| - 1], kind) + (if steps[|steps| - 1].kind == kind then 1 else 0)
  }

  function BytesAt(buffers: seq<Buffer>, slots: seq<int>): int {
    if |slots| == 1 && 0 <= slots[0] < |buffers| then buffers[slots[0]].bytes else 0
  }

  /** The plan's copy_bytes property. */
  function CopyBytes(buffers: seq<Buffer>, steps: seq<Event>): int {
    if steps == [] then 0
    else CopyBytes(buffers, steps[..|steps| - 1])
         + (if steps[|steps| - 1].kind == Copy then BytesAt(buffers, steps[|steps| - 1].outputs) else 0)
  }

  /** Bytes of the slots below n that are in ready. */
  function ReadyBytes(buffers: seq<Buffer>, ready: set<int>, n: nat): int
    requires n <= |buffers|
  {
    if n == 0 then 0
    else ReadyBytes(buffers, ready, n - 1) + (if n - 1 in ready then buffers[n - 1].bytes else 0)
  }

  function TotalBytes(buffers: seq<Buffer>): int {
    if buffers == [] then 0 else TotalBytes(buffers[..|buffers| - 1]) + buffers[|buffers| - 1].bytes
  }

  /** Bytes of the tensors below n that are in ts. */
  function TensorSetBytes(g: Graph, ts: set<Tensor>, n: nat): nat {
    if n == 0 then 0 else TensorSetBytes(g, ts, n - 1) + (if n - 1 in ts then TensorBytes(g, n - 1) else 0)
  }

  function ResultBytes(g: Graph, n: nat): nat
    requires n <= |g.operations|
  {
    if n == 0 then 0 else ResultBytes(g, n - 1) + TensorBytes(g, g.operations[n - 1].output)
  }

  lemma {:induction false} ReadyBytesAdd(buffers: seq<Buffer>, ready: set<int>, slot: nat, n: nat)
    requires n <= |buffers| && slot < |buffers| && slot !in ready
    ensures ReadyBytes(buffers, ready + {slot}, n)
         == ReadyBytes(buffers, ready, n) + (if slot < n then buffers[slot].bytes else 0)
  {
    if n > 0 {
      ReadyBytesAdd(buffers, ready, slot, n - 1);
    }
  }

  lemma {:induction false} ReadyBytesAll(buffers: seq<Buffer>, ready: set<int>, n: nat)
    requires n <= |buffers| && forall i | 0 <= i < n :: i in ready
    ensures ReadyBytes(buffers, ready, n) == TotalBytes(buffers[..n])
  {
    if n > 0 {
      ReadyBytesAll(buffers, ready, n - 1);
      assert buffers[..n][..n - 1] == buffers[..n - 1];
    }
  }

  lemma {:induction false} TensorSetBytesAdd(g: Graph, ts: set<Tensor>, t: Tensor, n: nat)
    requires t !in ts
    ensures TensorSetBytes(g, ts + {t}, n) == TensorSetBytes(g, ts, n) + (if t < n then TensorBytes(g, t) else 0)
  {
    if n > 0 {
      TensorSetBytesAdd(g, ts, t, n - 1);
    }
  }

  lemma EmptyBytes(buffers: seq<Buffer>, n: nat)
    requires n <= |buffers|
    ensures ReadyBytes(buffers, {}, n) == 0
  {
  }

  lemma NoTensorBytes(g: Graph, n: nat)
    ensures TensorSetBytes(g, {}, n) == 0
  {
  }

  ghost predicate WritesOnce(buffers: seq<Buffer>, steps: seq<Event>, st: Inspection) {
    && (forall s | s in st.ready :: 0 <= s < |buffers|)
    && (forall s :: WriteCount(steps, s) == if s in st.ready then 1 else 0)
  }

  ghost predicate CountsBalance(steps: seq<Event>, st: Inspection) {
    && |st.ready| == |st.bound| + st.executed + KindCount(steps, Copy)
    && |steps| == |st.ready| + |st.published|
  }

  ghost predicate BytesBalance(g: Graph, buffers: seq<Buffer>, steps: seq<Event>, st: Inspection) {
    && st.executed <= |g.operations|
    && ReadyBytes(buffers, st.ready, |buffers|)
       == TensorSetBytes(g, st.bound, |g.shapes|) + ResultBytes(g, st.executed) + CopyBytes(buffers, steps)
  }

  lemma StepWrites(c: Context, buffers: seq<Buffer>, steps: seq<Event>, st: Inspection, index: nat, after: Inspection)
    requires Assigned(c) && steps != []
    requires StepEffect(c, buffers, st, index, steps[|steps| - 1], after)
    requires WritesOnce(buffers, steps[..|steps| - 1], st)
    ensures WritesOnce(buffers, steps, after)
  {
  }

  lemma StepCounts(c: Context, buffers: seq<Buffer>, steps: seq<Event>, st: Inspection, index: nat, after: Inspection)
    requires Assigned(c) && steps != []
    requires StepEffect(c, buffers, st, index, steps[|steps| - 1], after)
    requires CountsBalance(steps[..|steps| - 1], st)
    ensures CountsBalance(steps, after)
  {
    var e := steps[|steps| - 1];
    if e.kind == PublishOutput {
      assert |after.published| == |st.published| + 1;
    } else {
      assert |after.ready| == |st.ready| + 1;
      if e.kind == BindInput {
        assert |after.bound| == |st.bound| + 1;
      }
    }
  }

  lemma StepBytes(c: Context, buffers: seq<Buffer>, steps: seq<Event>, st: Inspection, index: nat, after: Inspection)
    requires Assigned(c) && InspectBuffers(c, buffers).Ok? && steps != []
    requires StepEffect(c, buffers, st, index, steps[|steps| - 1], after)
    requires BytesBalance(c.graph, buffers, steps[..|steps| - 1], st)
    ensures BytesBalance(c.graph, buffers, steps, after)
  {
    var e := steps[|steps| - 1];
    if e.kind != PublishOutput {
      var slot := e.outputs[0];
      ReadyBytesAdd(buffers, st.ready, slot, |buffers|);
      assert InspectBuffer(c, buffers[slot]).Ok?;
      assert buffers[slot].bytes == TensorBytes(c.graph, buffers[slot].tensor);
      if e.kind == BindInput {
        TensorSetBytesAdd(c.graph, st.bound, buffers[slot].tensor, |c.graph.shapes|);
      }
    }
  }

  lemma {:induction false} PrefixCounts(c: Context, buffers: seq<Buffer>, steps: seq<Event>)
    requires Assigned(c)
    requires InspectSteps(c, buffers, steps).Ok?
    ensures WritesOnce(buffers, steps, InspectSteps(c, buffers, steps).value)
    ensures CountsBalance(steps, InspectSteps(c, buffers, steps).value)
  {
    if steps != [] {
      var n := |steps| - 1;
      PrefixCounts(c, buffers, steps[..n]);
      var before, after := InspectSteps(c, buffers, steps[..n]).value, InspectSteps(c, buffers, steps).value;
      AcceptedStepEffect(c, buffers, before, n, steps[n]);
      StepWrites(c, buffers, steps, before, n, after);
      StepCounts(c, buffers, steps, before, n, after);
    }
  }

  lemma {:induction false} ExecutedIsCounted(c: Context, buffers: seq<Buffer>, steps: seq<Event>)
    requires Assigned(c) && InspectSteps(c, buffers, steps).Ok?
    ensures InspectSteps(c, buffers, steps).value.executed == KindCount(steps, Execute)
    ensures |InspectSteps(c, buffers, steps).value.published| == KindCount(steps, PublishOutput)
  {
    if steps != [] {
      var n := |steps| - 1;
      ExecutedIsCounted(c, buffers, steps[..n]);
      AcceptedStepEffect(c, buffers, InspectSteps(c, buffers, steps[..n]).value, n, steps[n]);
    }
  }

  /** The state of an accepted prefix only binds inputs and only publishes outputs. */
  lemma {:induction false} BoundsRespected(c: Context, buffers: seq<Buffer>, steps: seq<Event>)
    requires Assigned(c) && InspectSteps(c, buffers, steps).Ok?
    ensures InspectSteps(c, buffers, steps).value.bound <= ExternalInputs(c.graph)
    ensures InspectSteps(c, buffers, steps).value.published <= Terminals(c.graph)
    ensures forall s | s in InspectSteps(c, buffers, steps).value.ready :: 0 <= s < |buffers|
  {
    if steps != [] {
      var n := |steps| - 1;
      BoundsRespected(c, buffers, steps[..n]);
      AcceptedStepEffect(c, buffers, InspectSteps(c, buffers, steps[..n]).value, n, steps[n]);
    }
  }

  lemma {:induction false} PrefixBytes(c: Context, buffers: seq<Buffer>, steps: seq<Event>)
    requires Assigned(c) && InspectBuffers(c, buffers).Ok?
    requires InspectSteps(c, buffers, steps).Ok?
    ensures BytesBalance(c.graph, buffers, steps, InspectSteps(c, buffers, steps).value)
  {
    if steps == [] {
      EmptyBytes(buffers, |buffers|);
      NoTensorBytes(c.graph, |c.graph.shapes|);
    } else {
      var n := |steps| - 1;
      PrefixBytes(c, buffers, steps[..n]);
      var before, after := InspectSteps(c, buffers, steps[..n]).value, InspectSteps(c, buffers, steps).value;
      AcceptedStepEffect(c, buffers, before, n, steps[n]);
      StepBytes(c, buffers, steps, before, n, after);
    }
  }

  lemma {:induction false} AllSlotsSize(n: nat)
    ensures |AllSlots(n)| == n
  {
    if n > 0 {
      AllSlotsSize(n - 1);
    }
  }

  /** Conservation over a whole accepted plan. */
  lemma AcceptedPlanConserves(c: Context, p: Plan)
    requires Assigned(c) && Accepted(c, p)
    ensures forall s | 0 <= s < |p.buffers| :: WriteCount(p.steps, s) == 1
    ensures |p.buffers| == |ExternalInputs(c.graph)| + |c.graph.operations| + KindCount(p.steps, Copy)
    ensures |p.steps| == |p.buffers| + |Terminals(c.graph)|
    ensures TotalBytes(p.buffers)
         == TensorSetBytes(c.graph, ExternalInputs(c.graph), |c.graph.shapes|)
            + ResultBytes(c.graph, |c.graph.operations|) + CopyBytes(p.buffers, p.steps)
  {
    PrefixCounts(c, p.buffers, p.steps);
    PrefixBytes(c, p.buffers, p.steps);
    AllSlotsSize(|p.buffers|);
    ReadyBytesAll(p.buffers, AllSlots(|p.buffers|), |p.buffers|);
    assert p.buffers[..|p.buffers|] == p.buffers;
  }

  /** The (tensor, space) pairs the graph and its placement force on any schedule. */
  ghost predicate Needed(c: Context, t: Tensor, s: Space)
    requires Assigned(c)
  {
    || (s == c.deployment.host && (t in ExternalInputs(c.graph) || t in Terminals(c.graph)))
    || exists i :: 0 <= i < |c.graph.operations| && s == SpaceOf(c, i)
                   && (t in c.graph.operations[i].inputs || t == c.graph.operations[i].output)
  }

  ghost predicate Holds(buffers: seq<Buffer>, t: Tensor, s: Space) {
    exists i :: 0 <= i < |buffers| && buffers[i].tensor == t && buffers[i].space == s
  }

  lemma {:induction false} BoundaryHeld(c: Context, buffers: seq<Buffer>, steps: seq<Event>, t: Tensor)
    requires Assigned(c) && InspectSteps(c, buffers, steps).Ok?
    requires t in InspectSteps(c, buffers, steps).value.bound || t in InspectSteps(c, buffers, steps).value.published
    ensures Holds(buffers, t, c.deployment.host)
  {
    var n := |steps| - 1;
    var before := InspectSteps(c, buffers, steps[..n]).value;
    AcceptedStepEffect(c, buffers, before, n, steps[n]);
    if t in before.bound || t in before.published {
      BoundaryHeld(c, buffers, steps[..n], t);
    }
  }

  /** No accepted schedule can do without a needed pair. */
  lemma AcceptedHoldsNeeded(c: Context, p: Plan, t: Tensor, s: Space)
    requires Assigned(c) && Accepted(c, p) && Needed(c, t, s)
    ensures Holds(p.buffers, t, s)
  {
    if s == c.deployment.host && (t in ExternalInputs(c.graph) || t in Terminals(c.graph)) {
      BoundaryHeld(c, p.buffers, p.steps, t);
    } else {
      var i :| 0 <= i < |c.graph.operations| && s == SpaceOf(c, i)
               && (t in c.graph.operations[i].inputs || t == c.graph.operations[i].output);
      var n := ExecutionOf(c, p.buffers, p.steps, i);
      StepOfAccepted(c, p.buffers, p.steps, n);
      var e := p.steps[n];
      AcceptedStepEffect(c, p.buffers, InspectSteps(c, p.buffers, p.steps[..n]).value, n, e);
      if t == c.graph.operations[i].output {
        assert p.buffers[e.outputs[0]].tensor == t;
      } else {
        var k :| 0 <= k < |c.graph.operations[i].inputs| && c.graph.operations[i].inputs[k] == t;
        assert p.buffers[e.inputs[k]].tensor == t;
      }
    }
  }

  ghost predicate DistinctPairs(buffers: seq<Buffer>) {
    forall i, j | 0 <= i < j < |buffers| ::
      buffers[i].tensor != buffers[j].tensor || buffers[i].space != buffers[j].space
  }

  ghost predicate SizedByTensor(g: Graph, buffers: seq<Buffer>) {
    forall i | 0 <= i < |buffers| :: buffers[i].bytes == TensorBytes(g, buffers[i].tensor)
  }

  lemma {:induction false} TotalBytesWithout(buffers: seq<Buffer>, j: nat)
    requires j < |buffers|
    ensures TotalBytes(buffers) == TotalBytes(buffers[..j] + buffers[j + 1..]) + buffers[j].bytes
  {
    var rest := buffers[..j] + buffers[j + 1..];
    var n := |buffers| - 1;
    if j == n {
      assert rest == buffers[..n];
    } else {
      TotalBytesWithout(buffers[..n], j);
      assert rest[..|rest| - 1] == buffers[..n][..j] + buffers[..n][j + 1..];
      assert rest[|rest| - 1] == buffers[n];
      assert buffers[..n][j] == buffers[j];
    }
  }

  /** Distinct pairs that another buffer list also holds cost no more there. */
  lemma {:induction false} DistinctPairsCheapest(g: Graph, a: seq<Buffer>, b: seq<Buffer>)
    requires DistinctPairs(a) && SizedByTensor(g, a) && SizedByTensor(g, b)
    requires forall i | 0 <= i < |a| :: Holds(b, a[i].tensor, a[i].space)
    ensures |a| <= |b| && TotalBytes(a) <= TotalBytes(b)
  {
    if a == [] {
      TotalBytesNonnegative(g, b);
    } else {
      var n := |a| - 1;
      assert Holds(b, a[n].tensor, a[n].space);
      var j :| 0 <= j < |b| && b[j].tensor == a[n].tensor && b[j].space == a[n].space;
      var rest := b[..j] + b[j + 1..];
      forall i | 0 <= i < n
        ensures Holds(rest, a[..n][i].tensor, a[..n][i].space)
      {
        assert Holds(b, a[i].tensor, a[i].space);
        var k :| 0 <= k < |b| && b[k].tensor == a[i].tensor && b[k].space == a[i].space;
        assert k != j;
        var at := if k < j then k else k - 1;
        assert rest[at] == b[k];
      }
      forall i | 0 <= i < |rest|
        ensures rest[i].bytes == TensorBytes(g, rest[i].tensor)
      {
        assert rest[i] == b[if i < j then i else i + 1];
      }
      DistinctPairsCheapest(g, a[..n], rest);
      TotalBytesWithout(b, j);
    }
  }

  lemma {:induction false} TotalBytesNonnegative(g: Graph, buffers: seq<Buffer>)
    requires SizedByTensor(g, buffers)
    ensures TotalBytes(buffers) >= 0
  {
    if buffers != [] {
      TotalBytesNonnegative(g, buffers[..|buffers| - 1]);
    }
  }

  lemma AcceptedSized(c: Context, p: Plan)
    requires Assigned(c) && Accepted(c, p)
    ensures SizedByTensor(c.graph, p.buffers)
  {
    forall i | 0 <= i < |p.buffers|
      ensures p.buffers[i].bytes == TensorBytes(c.graph, p.buffers[i].tensor)
    {
      assert InspectBuffer(c, p.buffers[i]).Ok?;
    }
  }

  /** Lower bound: an accepted schedule that never duplicates a pair and holds only needed pairs
      moves no more bytes, and makes no more copies, than any other accepted schedule. */
  lemma NeededOnlyIsCheapest(c: Context, best: Plan, other: Plan, l: Limits)
    requires Assigned(c) && Accepted(c, best) && Accepted(c.(limits := l), other)
    requires DistinctPairs(best.buffers)
    requires forall i | 0 <= i < |best.buffers| :: Needed(c, best.buffers[i].tensor, best.buffers[i].space)
    ensures CopyBytes(best.buffers, best.steps) <= CopyBytes(other.buffers, other.steps)
    ensures KindCount(best.steps, Copy) <= KindCount(other.steps, Copy)
    ensures TotalBytes(best.buffers) <= TotalBytes(other.buffers)
  {
    var c' := c.(limits := l);
    AcceptedPlanConserves(c, best);
    AcceptedPlanConserves(c', other);
    AcceptedSized(c, best);
    AcceptedSized(c', other);
    forall i | 0 <= i < |best.buffers|
      ensures Holds(other.buffers, best.buffers[i].tensor, best.buffers[i].space)
    {
      assert Needed(c', best.buffers[i].tensor, best.buffers[i].space) by {
        assert forall k | 0 <= k < |c.graph.operations| :: SpaceOf(c', k) == SpaceOf(c, k);
      }
      AcceptedHoldsNeeded(c', other, best.buffers[i].tensor, best.buffers[i].space);
    }
    DistinctPairsCheapest(c.graph, best.buffers, other.buffers);
  }
}
