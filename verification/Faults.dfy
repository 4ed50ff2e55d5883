/**
  What the receipts machine reports on schedules the validator accepts: the exact verdict and the
  exact list of events that ran, for a clean run and for each of the four injected faults.
 */
module Faults {
  import opened Wrappers
  import opened Graphs
  import opened Residency
  import opened Schedules
  import opened Conservation
  import opened PlannerProofs
  import opened Receipts

  lemma StepWellShaped(c: Context, buffers: seq<Buffer>, st: Inspection, index: nat, e: Event)
    requires Assigned(c) && InspectStep(c, buffers, st, index, e).Ok?
    ensures WellShapedEvent(buffers, e)
  {
    AcceptedStepEffect(c, buffers, st, index, e);
  }

  lemma {:induction false} PrefixWellShaped(c: Context, buffers: seq<Buffer>, steps: seq<Event>)
    requires Assigned(c) && InspectSteps(c, buffers, steps).Ok?
    ensures WellShaped(buffers, steps)
  {
    if steps != [] {
      var n := |steps| - 1;
      PrefixWellShaped(c, buffers, steps[..n]);
      StepWellShaped(c, buffers, InspectSteps(c, buffers, steps[..n]).value, n, steps[n]);
      assert forall i | 0 <= i < n :: steps[..n][i] == steps[i];
    }
  }

  lemma SizesFromShapes(c: Context, buffers: seq<Buffer>)
    requires InspectBuffers(c, buffers).Ok?
    ensures forall i | 0 <= i < |buffers| :: buffers[i].bytes >= 0 && buffers[i].bytes % 4 == 0
  {
    forall i | 0 <= i < |buffers|
      ensures buffers[i].bytes >= 0 && buffers[i].bytes % 4 == 0
    {
      assert InspectBuffer(c, buffers[i]).Ok?;
    }
  }

  /** Accepted plans meet the machine's assumptions, and publish whole words. */
  lemma AcceptedWellShaped(c: Context, p: Plan)
    requires Assigned(c) && Accepted(c, p)
    ensures WellShaped(p.buffers, p.steps) && SizesNonnegative(p.buffers)
    ensures WordSizedOutputs(p.buffers, p.steps)
  {
    PrefixWellShaped(c, p.buffers, p.steps);
    SizesFromShapes(c, p.buffers);
  }

  // ----- Running an accepted prefix -----

  /** The kind of event each skipping fault leaves out the first of. */
  function SkippedKind(fault: nat): EventKind {
    if fault == 1 then Execute else if fault == 4 then Copy else PublishOutput
  }

  /** The machine's state when events of a prefix ran with the given ready set. */
  function PassAt(steps: seq<Event>, ready: set<int>, ran: seq<Event>): Pass {
    Pass(ready, KindCount(steps, Copy), KindCount(steps, PublishOutput), ran)
  }

  lemma ReadyGrows(c: Context, buffers: seq<Buffer>, st: Inspection, index: nat, e: Event)
    requires Assigned(c) && InspectStep(c, buffers, st, index, e).Ok?
    ensures InspectStep(c, buffers, st, index, e).value.ready == st.ready + SlotSet(e.outputs)
    ensures AllReady(e.inputs, st.ready) && NoneReady(e.outputs, st.ready)
    ensures e.kind != UnknownKind && (e.kind == Execute ==> e.operation == Some(st.executed))
  {
  }

  lemma StepUntouched(fault: nat, pass: Pass, e: Event)
    requires fault <= 4 && AllReady(e.inputs, pass.ready) && e.kind != UnknownKind
    requires fault != 0 ==> e.kind != SkippedKind(fault)
    ensures PassEvent(fault, pass, e)
         == Going(Pass(pass.ready + SlotSet(e.outputs), if e.kind == Copy then pass.copied + 1 else pass.copied,
                       if e.kind == PublishOutput then pass.published + 1 else pass.published, pass.ran + [e]))
  {
  }

  lemma NextPass(fault: nat, steps: seq<Event>, before: Pass)
    requires steps != [] && RunEvents(fault, steps[..|steps| - 1]) == Going(before)
    ensures RunEvents(fault, steps) == PassEvent(fault, before, steps[|steps| - 1])
  {
  }

  lemma PassAtNext(steps: seq<Event>, ready: set<int>)
    requires steps != []
    ensures
      var n := |steps| - 1;
      var before, e := PassAt(steps[..n], ready, steps[..n]), steps[n];
      PassAt(steps, ready + SlotSet(e.outputs), steps)
      == Pass(ready + SlotSet(e.outputs), if e.kind == Copy then before.copied + 1 else before.copied,
              if e.kind == PublishOutput then before.published + 1 else before.published, before.ran + [e])
  {
    assert steps[..|steps| - 1] + [steps[|steps| - 1]] == steps;
  }

  /** Until the first event the fault touches, the machine keeps step with the validator. */
  lemma {:induction false} UntouchedPrefix(c: Context, buffers: seq<Buffer>, steps: seq<Event>, fault: nat)
    requires Assigned(c) && InspectSteps(c, buffers, steps).Ok? && fault <= 4
    requires fault != 0 ==> KindCount(steps, SkippedKind(fault)) == 0
    ensures RunEvents(fault, steps) == Going(PassAt(steps, InspectSteps(c, buffers, steps).value.ready, steps))
  {
    if steps != [] {
      var n := |steps| - 1;
      UntouchedPrefix(c, buffers, steps[..n], fault);
      var st := InspectSteps(c, buffers, steps[..n]).value;
      ReadyGrows(c, buffers, st, n, steps[n]);
      NextPass(fault, steps, PassAt(steps[..n], st.ready, steps[..n]));
      StepUntouched(fault, PassAt(steps[..n], st.ready, steps[..n]), steps[n]);
      PassAtNext(steps, st.ready);
    }
  }

  predicate Reads(e: Event, slots: set<int>) {
    exists k :: 0 <= k < |e.inputs| && e.inputs[k] in slots
  }

  /** The position of the first event from n on that reads one of the slots, or the end. */
  function FirstReader(steps: seq<Event>, slots: set<int>, n: nat): (q: nat)
    requires n <= |steps|
    ensures n <= q <= |steps|
    ensures forall i | n <= i < q :: !Reads(steps[i], slots)
    ensures q < |steps| ==> Reads(steps[q], slots)
    decreases |steps| - n
  {
    if n == |steps| || Reads(steps[n], slots) then n else FirstReader(steps, slots, n + 1)
  }

  /** steps without event p. */
  function Without(steps: seq<Event>, p: nat): seq<Event>
    requires p < |steps|
  {
    steps[..p] + steps[p + 1..]
  }

  ghost predicate FirstOfKind(steps: seq<Event>, p: nat, kind: EventKind) {
    p < |steps| && steps[p].kind == kind && KindCount(steps[..p], kind) == 0
  }

  lemma {:induction false} KindCountGrows(steps: seq<Event>, p: nat, kind: EventKind)
    requires p < |steps| && steps[p].kind == kind
    ensures KindCount(steps, kind) >= 1
  {
    if p < |steps| - 1 {
      KindCountGrows(steps[..|steps| - 1], p, kind);
    }
  }

  lemma StepAfterSkip(fault: nat, pass: Pass, ready: set<int>, e: Event, gone: set<int>)
    requires fault == 1 || fault == 3 || fault == 4
    requires AllReady(e.inputs, ready) && NoneReady(e.outputs, ready) && e.kind != UnknownKind
    requires pass.ready == ready - gone && gone <= ready
    requires fault == 1 && e.kind == Execute ==> e.operation != Some(0)
    requires fault == 3 ==> pass.published > 0
    requires fault == 4 ==> pass.copied > 0
    requires !Reads(e, gone)
    ensures PassEvent(fault, pass, e)
         == Going(Pass(ready + SlotSet(e.outputs) - gone, if e.kind == Copy then pass.copied + 1 else pass.copied,
                       if e.kind == PublishOutput then pass.published + 1 else pass.published, pass.ran + [e]))
  {
    assert ready - gone + SlotSet(e.outputs) == ready + SlotSet(e.outputs) - gone;
  }

  lemma SkipsHere(fault: nat, pass: Pass, e: Event)
    requires fault == 1 || fault == 3 || fault == 4
    requires AllReady(e.inputs, pass.ready) && e.kind == SkippedKind(fault)
    requires fault == 1 ==> e.operation == Some(0)
    requires fault == 3 ==> pass.published == 0
    requires fault == 4 ==> pass.copied == 0
    ensures PassEvent(fault, pass, e)
         == Going(pass.(copied := if e.kind == Copy then pass.copied + 1 else pass.copied,
                        published := if e.kind == PublishOutput then pass.published + 1 else pass.published))
  {
  }

  lemma SkippedPass(steps: seq<Event>, fault: nat, ready: set<int>)
    requires steps != [] && FirstOfKind(steps, |steps| - 1, SkippedKind(fault))
    requires fault == 1 || fault == 3 || fault == 4
    ensures
      var before, e := PassAt(steps[..|steps| - 1], ready, steps[..|steps| - 1]), steps[|steps| - 1];
      PassAt(steps, ready, steps[..|steps| - 1])
      == before.(copied := if e.kind == Copy then before.copied + 1 else before.copied,
                 published := if e.kind == PublishOutput then before.published + 1 else before.published)
  {
  }

  lemma SkippedEvent(c: Context, buffers: seq<Buffer>, steps: seq<Event>, fault: nat)
    requires Assigned(c) && InspectSteps(c, buffers, steps).Ok? && steps != []
    requires fault == 1 || fault == 3 || fault == 4
    requires FirstOfKind(steps, |steps| - 1, SkippedKind(fault))
    ensures
      var gone := SlotSet(steps[|steps| - 1].outputs);
      && gone <= InspectSteps(c, buffers, steps).value.ready
      && RunEvents(fault, steps)
         == Going(PassAt(steps, InspectSteps(c, buffers, steps).value.ready - gone, steps[..|steps| - 1]))
  {
    var n := |steps| - 1;
    var gone := SlotSet(steps[n].outputs);
    var st := InspectSteps(c, buffers, steps[..n]).value;
    ExecutedIsCounted(c, buffers, steps[..n]);
    UntouchedPrefix(c, buffers, steps[..n], fault);
    ReadyGrows(c, buffers, st, n, steps[n]);
    NextPass(fault, steps, PassAt(steps[..n], st.ready, steps[..n]));
    SkipsHere(fault, PassAt(steps[..n], st.ready, steps[..n]), steps[n]);
    SkippedPass(steps, fault, st.ready);
    assert st.ready + gone - gone == st.ready;
  }

  /** After the skipped event, as long as nothing reads what it would have written, the machine
      keeps step with the validator except for that slot. */
  lemma {:induction false} SkippedPrefix(c: Context, buffers: seq<Buffer>, steps: seq<Event>, fault: nat, p: nat)
    requires Assigned(c) && InspectSteps(c, buffers, steps).Ok?
    requires fault == 1 || fault == 3 || fault == 4
    requires FirstOfKind(steps, p, SkippedKind(fault))
    requires forall i | p < i < |steps| :: !Reads(steps[i], SlotSet(steps[p].outputs))
    ensures SlotSet(steps[p].outputs) <= InspectSteps(c, buffers, steps).value.ready
    ensures RunEvents(fault, steps)
         == Going(PassAt(steps, InspectSteps(c, buffers, steps).value.ready - SlotSet(steps[p].outputs),
                         Without(steps, p)))
    decreases |steps|
  {
    var n := |steps| - 1;
    if p == n {
      SkippedEvent(c, buffers, steps, fault);
      assert Without(steps, p) == steps[..n];
    } else {
      var gone := SlotSet(steps[p].outputs);
      assert steps[..n][..p] == steps[..p];
      SkippedPrefix(c, buffers, steps[..n], fault, p);
      var st := InspectSteps(c, buffers, steps[..n]).value;
      ReadyGrows(c, buffers, st, n, steps[n]);
      assert fault == 1 ==> st.executed > 0 by {
        ExecutedIsCounted(c, buffers, steps[..n]);
        KindCountGrows(steps[..n], p, SkippedKind(fault));
      }
      NextAfterSkip(steps, fault, p, st.ready);
    }
  }

  lemma NextAfterSkip(steps: seq<Event>, fault: nat, p: nat, ready: set<int>)
    requires fault == 1 || fault == 3 || fault == 4
    requires p < |steps| - 1 && steps[p].kind == SkippedKind(fault)
    requires
      var e, before, gone := steps[|steps| - 1], steps[..|steps| - 1], SlotSet(steps[p].outputs);
      && AllReady(e.inputs, ready) && NoneReady(e.outputs, ready) && e.kind != UnknownKind
      && (fault == 1 && e.kind == Execute ==> e.operation != Some(0))
      && !Reads(e, gone) && gone <= ready
      && RunEvents(fault, before) == Going(PassAt(before, ready - gone, Without(before, p)))
    ensures RunEvents(fault, steps)
         == Going(PassAt(steps, ready + SlotSet(steps[|steps| - 1].outputs) - SlotSet(steps[p].outputs),
                         Without(steps, p)))
  {
    var n := |steps| - 1;
    var gone := SlotSet(steps[p].outputs);
    var pass := PassAt(steps[..n], ready - gone, Without(steps[..n], p));
    assert Without(steps, p) == pass.ran + [steps[n]];
    KindCountGrows(steps[..n], p, SkippedKind(fault));
    StepAfterSkip(fault, pass, ready, steps[n], gone);
  }

  /** The first event that reads the missing slot stops the pass. */
  lemma SkippedRead(c: Context, buffers: seq<Buffer>, steps: seq<Event>, fault: nat, p: nat, q: nat)
    requires Assigned(c) && InspectSteps(c, buffers, steps).Ok?
    requires fault == 1 || fault == 3 || fault == 4
    requires FirstOfKind(steps, p, SkippedKind(fault)) && p < q < |steps|
    requires q == FirstReader(steps, SlotSet(steps[p].outputs), p + 1)
    ensures RunEvents(fault, steps) == Stopped("missing_operand", Without(steps[..q], p))
  {
    AcceptedPrefix(c, buffers, steps, q);
    assert steps[..q][..p] == steps[..p];
    SkippedPrefix(c, buffers, steps[..q], fault, p);
    ReadStops(fault, steps, q, SlotSet(steps[p].outputs));
    assert Without(steps[..q], p) == RunEvents(fault, steps[..q]).pass.ran;
  }

  lemma ReadStops(fault: nat, steps: seq<Event>, q: nat, gone: set<int>)
    requires q < |steps| && RunEvents(fault, steps[..q]).Going?
    requires RunEvents(fault, steps[..q]).pass.ready !! gone && Reads(steps[q], gone)
    ensures RunEvents(fault, steps) == Stopped("missing_operand", RunEvents(fault, steps[..q]).pass.ran)
  {
    assert steps[..q + 1][..q] == steps[..q];
    StoppedEventsStay(fault, steps, q + 1);
  }

  // ----- Every result is read -----

  /** Until someone reads the output slot of operation i, no other slot holds that tensor. */
  lemma {:induction false} SoleHolder(c: Context, buffers: seq<Buffer>, steps: seq<Event>, p: nat, i: nat)
    requires Assigned(c) && SingleAssignment(c.graph) && InspectSteps(c, buffers, steps).Ok?
    requires p < |steps| && steps[p].kind == Execute && steps[p].operation == Some(i)
    requires i < |c.graph.operations|
    requires forall n | p < n < |steps| :: !Reads(steps[n], SlotSet(steps[p].outputs))
    ensures |steps[p].outputs| == 1
    ensures InspectSteps(c, buffers, steps).value.executed > i
    ensures forall s | s in InspectSteps(c, buffers, steps).value.ready && 0 <= s < |buffers| ::
              buffers[s].tensor == c.graph.operations[i].output ==> s == steps[p].outputs[0]
    decreases |steps|
  {
    var n := |steps| - 1;
    var t := c.graph.operations[i].output;
    var st := InspectSteps(c, buffers, steps[..n]).value;
    AcceptedStepEffect(c, buffers, st, n, steps[n]);
    if p == n {
      PrefixSettled(c, buffers, steps[..n]);
      assert !SettledBy(c.graph, i, t);
    } else {
      SoleHolder(c, buffers, steps[..n], p, i);
      assert Produced(c.graph, t);
      if steps[n].kind == Execute && c.graph.operations[st.executed].output == c.graph.operations[i].output {
        assert false;
      }
      if steps[n].kind == Copy {
        assert !Reads(steps[n], SlotSet(steps[p].outputs));
        assert steps[n].inputs[0] != steps[p].outputs[0];
      }
    }
  }

  /** In an accepted schedule every operation's result slot is read by a later event: consumed,
      copied onwards or published. */
  lemma ResultIsRead(c: Context, p: Plan, i: nat) returns (n: nat)
    requires Assigned(c) && SingleAssignment(c.graph) && Accepted(c, p)
    requires i < |c.graph.operations|
    ensures n < |p.steps| && p.steps[n].kind == Execute && p.steps[n].operation == Some(i)
    ensures InspectSteps(c, p.buffers, p.steps[..n]).Ok? && InspectSteps(c, p.buffers, p.steps[..n]).value.executed == i
    ensures FirstReader(p.steps, SlotSet(p.steps[n].outputs), n + 1) < |p.steps|
  {
    n := ExecutionOf(c, p.buffers, p.steps, i);
    var t := c.graph.operations[i].output;
    if Consumed(c.graph, t) {
      var j, k :| 0 <= j < |c.graph.operations| && 0 <= k < |c.graph.operations[j].inputs|
        && c.graph.operations[j].inputs[k] == t;
      ConsumerReads(c, p, n, i, j, k);
    } else {
      assert t in Terminals(c.graph);
      PublisherReads(c, p, n, i);
    }
  }

  lemma ConsumerReads(c: Context, p: Plan, n: nat, i: nat, j: nat, k: nat)
    requires Assigned(c) && SingleAssignment(c.graph) && Accepted(c, p)
    requires i < |c.graph.operations| && j < |c.graph.operations| && k < |c.graph.operations[j].inputs|
    requires c.graph.operations[j].inputs[k] == c.graph.operations[i].output
    requires n < |p.steps| && p.steps[n].kind == Execute && p.steps[n].operation == Some(i)
    requires InspectSteps(c, p.buffers, p.steps[..n]).Ok?
    requires InspectSteps(c, p.buffers, p.steps[..n]).value.executed == i
    ensures FirstReader(p.steps, SlotSet(p.steps[n].outputs), n + 1) < |p.steps|
  {
    AcceptedGraphReadsBackward(c, p);
    var m := ExecutionOf(c, p.buffers, p.steps, j);
    assert c.graph.operations[j].inputs[k] in c.graph.operations[j].inputs;
    assert i < j;
    ExecutesLater(c, p.buffers, p.steps, n, m);
    StepOfAccepted(c, p.buffers, p.steps, m);
    AcceptedStepEffect(c, p.buffers, InspectSteps(c, p.buffers, p.steps[..m]).value, m, p.steps[m]);
    HolderReads(c, p, n, i, m, k);
  }

  lemma {:induction false} PublicationOf(c: Context, buffers: seq<Buffer>, steps: seq<Event>, t: Tensor)
    returns (m: nat)
    requires Assigned(c) && InspectSteps(c, buffers, steps).Ok?
    requires t in InspectSteps(c, buffers, steps).value.published
    ensures m < |steps| && steps[m].kind == PublishOutput && |steps[m].inputs| == 1
    ensures 0 <= steps[m].inputs[0] < |buffers| && buffers[steps[m].inputs[0]].tensor == t
    ensures InspectSteps(c, buffers, steps[..m]).Ok?
    ensures steps[m].inputs[0] in InspectSteps(c, buffers, steps[..m]).value.ready
  {
    var n := |steps| - 1;
    var before := InspectSteps(c, buffers, steps[..n]).value;
    AcceptedStepEffect(c, buffers, before, n, steps[n]);
    if t in before.published {
      m := PublicationOf(c, buffers, steps[..n], t);
      assert steps[..n][..m] == steps[..m];
    } else {
      m := n;
    }
  }

  lemma PublisherReads(c: Context, p: Plan, n: nat, i: nat)
    requires Assigned(c) && SingleAssignment(c.graph) && Accepted(c, p)
    requires i < |c.graph.operations| && c.graph.operations[i].output in Terminals(c.graph)
    requires n < |p.steps| && p.steps[n].kind == Execute && p.steps[n].operation == Some(i)
    requires InspectSteps(c, p.buffers, p.steps[..n]).Ok?
    requires InspectSteps(c, p.buffers, p.steps[..n]).value.executed == i
    ensures FirstReader(p.steps, SlotSet(p.steps[n].outputs), n + 1) < |p.steps|
  {
    var t := c.graph.operations[i].output;
    var m := PublicationOf(c, p.buffers, p.steps, t);
    PrefixSettled(c, p.buffers, p.steps[..m]);
    assert SettledBy(c.graph, InspectSteps(c, p.buffers, p.steps[..m]).value.executed, t);
    ExecutesLater(c, p.buffers, p.steps, n, m);
    HolderReads(c, p, n, i, m, 0);
  }

  lemma ExecutesLater(c: Context, buffers: seq<Buffer>, steps: seq<Event>, n: nat, m: nat)
    requires Assigned(c) && InspectSteps(c, buffers, steps).Ok? && n <= |steps| && m <= |steps|
    requires InspectSteps(c, buffers, steps[..m]).Ok? && InspectSteps(c, buffers, steps[..n]).Ok?
    requires InspectSteps(c, buffers, steps[..n]).value.executed < InspectSteps(c, buffers, steps[..m]).value.executed
    ensures n < m
  {
    if m <= n {
      ExecutedMonotone(c, buffers, steps, m, n);
    }
  }

  lemma {:induction false} ExecutedMonotone(c: Context, buffers: seq<Buffer>, steps: seq<Event>, m: nat, n: nat)
    requires Assigned(c) && InspectSteps(c, buffers, steps).Ok? && m <= n <= |steps|
    ensures InspectSteps(c, buffers, steps[..m]).Ok? && InspectSteps(c, buffers, steps[..n]).Ok?
    ensures InspectSteps(c, buffers, steps[..m]).value.executed <= InspectSteps(c, buffers, steps[..n]).value.executed
    decreases n
  {
    if m < n {
      ExecutedMonotone(c, buffers, steps, m, n - 1);
      StepOfAccepted(c, buffers, steps, n - 1);
      AcceptedStepEffect(c, buffers, InspectSteps(c, buffers, steps[..n - 1]).value, n - 1, steps[n - 1]);
    } else {
      AcceptedPrefix(c, buffers, steps, n);
    }
  }

  lemma {:induction false} ReaderFound(steps: seq<Event>, slots: set<int>, n: nat, m: nat)
    requires n <= m < |steps| && Reads(steps[m], slots)
    ensures FirstReader(steps, slots, n) <= m
    decreases m - n
  {
    if n < m {
      ReaderFound(steps, slots, n + 1, m);
    }
  }

  /** An event after n that reads operation i's tensor makes the first reader exist. */
  lemma HolderReads(c: Context, p: Plan, n: nat, i: nat, m: nat, k: nat)
    requires Assigned(c) && SingleAssignment(c.graph) && Accepted(c, p)
    requires i < |c.graph.operations|
    requires n < m < |p.steps| && p.steps[n].kind == Execute && p.steps[n].operation == Some(i)
    requires k < |p.steps[m].inputs| && 0 <= p.steps[m].inputs[k] < |p.buffers|
    requires p.buffers[p.steps[m].inputs[k]].tensor == c.graph.operations[i].output
    ensures FirstReader(p.steps, SlotSet(p.steps[n].outputs), n + 1) < |p.steps|
  {
    var gone := SlotSet(p.steps[n].outputs);
    if l :| n < l < m && Reads(p.steps[l], gone) {
      ReaderFound(p.steps, gone, n + 1, l);
    } else {
      StepOfAccepted(c, p.buffers, p.steps, m);
      AcceptedStepEffect(c, p.buffers, InspectSteps(c, p.buffers, p.steps[..m]).value, m, p.steps[m]);
      SoleHolder(c, p.buffers, p.steps[..m], n, i);
      assert p.steps[m].inputs[k] in gone;
      ReaderFound(p.steps, gone, n + 1, m);
    }
  }

  // ----- Verdicts -----

  function Repeat(steps: seq<Event>, n: nat): seq<Event> {
    if n == 0 then [] else Repeat(steps, n - 1) + steps
  }

  lemma {:induction false} PassesRepeat(steps: seq<Event>, fault: nat, n: nat)
    requires fault != 3 && RunEvents(fault, steps).Going?
    ensures RunPasses(steps, fault, n) == Receipt(true, "none", n, Repeat(RunEvents(fault, steps).pass.ran, n))
  {
    if n > 0 {
      PassesRepeat(steps, fault, n - 1);
    }
  }

  lemma FirstPassStops(steps: seq<Event>, fault: nat)
    requires RunEvents(fault, steps).Stopped?
    ensures RunPasses(steps, fault, PASSES)
            == Receipt(false, RunEvents(fault, steps).reason, 0, RunEvents(fault, steps).ran)
  {
    assert RunPasses(steps, fault, 0).ran + RunEvents(fault, steps).ran == RunEvents(fault, steps).ran;
    StoppedPassesStay(steps, fault, 1, PASSES);
  }

  /** A clean run of an accepted schedule passes: every event runs, six times over. */
  lemma CleanVerdict(c: Context, p: Plan)
    requires Assigned(c) && Accepted(c, p)
    ensures RunPasses(p.steps, 0, PASSES) == Receipt(true, "none", 6, Repeat(p.steps, 6))
  {
    UntouchedPrefix(c, p.buffers, p.steps, 0);
    PassesRepeat(p.steps, 0, PASSES);
  }

  lemma {:induction false} FindFirst(steps: seq<Event>, kind: EventKind) returns (n: nat)
    requires KindCount(steps, kind) > 0
    ensures FirstOfKind(steps, n, kind)
  {
    var last := |steps| - 1;
    if KindCount(steps[..last], kind) > 0 {
      n := FindFirst(steps[..last], kind);
      assert steps[..last][..n] == steps[..n];
    } else {
      n := last;
    }
  }

  /** Skipping an event whose slot is read later: the pass stops there, and exactly the events
      before it, less the skipped one, have run. */
  lemma SkipCaught(c: Context, p: Plan, fault: nat, n: nat)
    requires Assigned(c) && Accepted(c, p) && (fault == 1 || fault == 4)
    requires FirstOfKind(p.steps, n, SkippedKind(fault))
    requires FirstReader(p.steps, SlotSet(p.steps[n].outputs), n + 1) < |p.steps|
    ensures
      var q := FirstReader(p.steps, SlotSet(p.steps[n].outputs), n + 1);
      RunPasses(p.steps, fault, PASSES) == Receipt(false, "missing_operand", 0, Without(p.steps[..q], n))
  {
    var q := FirstReader(p.steps, SlotSet(p.steps[n].outputs), n + 1);
    SkippedRead(c, p.buffers, p.steps, fault, n, q);
    FirstPassStops(p.steps, fault);
  }

  /** Skipping an event whose slot nobody reads goes unnoticed. */
  lemma SkipMissed(c: Context, p: Plan, fault: nat, n: nat)
    requires Assigned(c) && Accepted(c, p) && (fault == 1 || fault == 4)
    requires FirstOfKind(p.steps, n, SkippedKind(fault))
    requires FirstReader(p.steps, SlotSet(p.steps[n].outputs), n + 1) == |p.steps|
    ensures RunPasses(p.steps, fault, PASSES) == Receipt(true, "none", 6, Repeat(Without(p.steps, n), 6))
  {
    SkippedPrefix(c, p.buffers, p.steps, fault, n);
    PassesRepeat(p.steps, fault, PASSES);
  }

  /** Fault 1 is always caught: on every accepted schedule of a nonempty graph, leaving out the
      first operation ends in missing_operand at the first event that reads its result slot. */
  lemma SkippedOperationCaught(c: Context, p: Plan) returns (n: nat, q: nat)
    requires Assigned(c) && SingleAssignment(c.graph) && Accepted(c, p) && c.graph.operations != []
    ensures n < q < |p.steps| && p.steps[n].kind == Execute && p.steps[n].operation == Some(0)
    ensures Reads(p.steps[q], SlotSet(p.steps[n].outputs))
    ensures forall i | n < i < q :: !Reads(p.steps[i], SlotSet(p.steps[n].outputs))
    ensures RunPasses(p.steps, 1, PASSES) == Receipt(false, "missing_operand", 0, Without(p.steps[..q], n))
  {
    n := ResultIsRead(c, p, 0);
    q := FirstReader(p.steps, SlotSet(p.steps[n].outputs), n + 1);
    ExecutedIsCounted(c, p.buffers, p.steps[..n]);
    SkipCaught(c, p, 1, n);
  }

  /** The last operation's result is a terminal, so an accepted schedule publishes something. */
  lemma SomethingPublished(c: Context, p: Plan)
    requires Assigned(c) && SingleAssignment(c.graph) && Accepted(c, p) && c.graph.operations != []
    ensures KindCount(p.steps, PublishOutput) > 0
  {
    AcceptedGraphReadsBackward(c, p);
    ExecutedIsCounted(c, p.buffers, p.steps);
    var last := |c.graph.operations| - 1;
    forall i | 0 <= i < |c.graph.operations|
      ensures c.graph.operations[last].output !in c.graph.operations[i].inputs
    {
    }
    assert c.graph.operations[last].output in Terminals(c.graph);
  }

  /** Fault 2 is always caught, at the first publication. */
  lemma CorruptedPublicationCaught(c: Context, p: Plan) returns (n: nat)
    requires Assigned(c) && SingleAssignment(c.graph) && Accepted(c, p) && c.graph.operations != []
    ensures FirstOfKind(p.steps, n, PublishOutput)
    ensures RunPasses(p.steps, 2, PASSES) == Receipt(false, "numeric_mismatch", 0, p.steps[..n])
  {
    SomethingPublished(c, p);
    n := FindFirst(p.steps, PublishOutput);
    StepOfAccepted(c, p.buffers, p.steps, n);
    UntouchedPrefix(c, p.buffers, p.steps[..n], 2);
    ReadyGrows(c, p.buffers, InspectSteps(c, p.buffers, p.steps[..n]).value, n, p.steps[n]);
    assert p.steps[..n + 1][..n] == p.steps[..n];
    StoppedEventsStay(2, p.steps, n + 1);
    FirstPassStops(p.steps, 2);
  }

  /** Fault 3 is always caught, at the end of the first pass, after every event but one has run. */
  lemma MissingPublicationCaught(c: Context, p: Plan) returns (n: nat)
    requires Assigned(c) && SingleAssignment(c.graph) && Accepted(c, p) && c.graph.operations != []
    ensures FirstOfKind(p.steps, n, PublishOutput)
    ensures RunPasses(p.steps, 3, PASSES) == Receipt(false, "missing_publication", 0, Without(p.steps, n))
  {
    SomethingPublished(c, p);
    n := FindFirst(p.steps, PublishOutput);
    PublicationWritesNothing(c, p, n);
    SkippedPrefix(c, p.buffers, p.steps, 3, n);
    assert RunPasses(p.steps, 3, 0).ran + Without(p.steps, n) == Without(p.steps, n);
    StoppedPassesStay(p.steps, 3, 1, PASSES);
  }

  lemma PublicationWritesNothing(c: Context, p: Plan, n: nat)
    requires Assigned(c) && Accepted(c, p) && n < |p.steps| && p.steps[n].kind == PublishOutput
    ensures SlotSet(p.steps[n].outputs) == {}
    ensures forall e: Event :: !Reads(e, SlotSet(p.steps[n].outputs))
  {
    StepOfAccepted(c, p.buffers, p.steps, n);
    AcceptedStepEffect(c, p.buffers, InspectSteps(c, p.buffers, p.steps[..n]).value, n, p.steps[n]);
  }

  /** The schedule copies, and some event reads what its first copy writes. */
  ghost predicate FirstCopyRead(steps: seq<Event>) {
    exists n: nat :: FirstOfKind(steps, n, Copy) && FirstReader(steps, SlotSet(steps[n].outputs), n + 1) < |steps|
  }

  lemma FirstCopyReadAt(steps: seq<Event>, n: nat)
    requires FirstOfKind(steps, n, Copy)
    ensures FirstCopyRead(steps) <==> FirstReader(steps, SlotSet(steps[n].outputs), n + 1) < |steps|
  {
    forall m: nat | FirstOfKind(steps, m, Copy)
      ensures m == n
    {
      FirstIsUnique(steps, n, m, Copy);
    }
  }

  lemma NoCopyNoRead(steps: seq<Event>)
    requires KindCount(steps, Copy) == 0
    ensures !FirstCopyRead(steps)
  {
    if n: nat :| FirstOfKind(steps, n, Copy) {
      KindCountGrows(steps, n, Copy);
    }
  }

  /** Fault 4 is caught exactly when there is a copy and some later event reads the first copy's slot. */
  lemma SkippedCopyCaughtIffRead(c: Context, p: Plan)
    requires Assigned(c) && Accepted(c, p)
    ensures !RunPasses(p.steps, 4, PASSES).passed <==> FirstCopyRead(p.steps)
  {
    if KindCount(p.steps, Copy) == 0 {
      UntouchedPrefix(c, p.buffers, p.steps, 4);
      PassesRepeat(p.steps, 4, PASSES);
      NoCopyNoRead(p.steps);
    } else {
      var n := FindFirst(p.steps, Copy);
      FirstCopyReadAt(p.steps, n);
      if FirstReader(p.steps, SlotSet(p.steps[n].outputs), n + 1) < |p.steps| {
        SkipCaught(c, p, 4, n);
      } else {
        SkipMissed(c, p, 4, n);
      }
    }
  }

  lemma FirstIsUnique(steps: seq<Event>, n: nat, m: nat, kind: EventKind)
    requires FirstOfKind(steps, n, kind) && FirstOfKind(steps, m, kind)
    ensures m == n
  {
    if n < m {
      KindCountGrows(steps[..m], n, kind);
    } else if m < n {
      KindCountGrows(steps[..n], m, kind);
    }
  }

  /** On the planner's schedules no copy is idle, so fault 4 is caught whenever there is a copy. */
  lemma PlannedCopyFaultCaught(c: Context, p: Plan)
    requires Assigned(c) && WellPlanned(c, p) && KindCount(p.steps, Copy) > 0
    ensures !RunPasses(p.steps, 4, PASSES).passed && RunPasses(p.steps, 4, PASSES).reason == "missing_operand"
  {
    var roomy := Limits(0, |p.buffers|, 0, |p.steps|, false);
    PlannedIsAccepted(c, p, roomy);
    var c' := c.(limits := roomy);
    var n := FindFirst(p.steps, Copy);
    assert ReadBy(p.steps, p.steps[n].outputs[0]);
    var m :| 0 <= m < |p.steps| && p.steps[n].outputs[0] in p.steps[m].inputs;
    WrittenBeforeRead(c', p, n, m);
    assert Reads(p.steps[m], SlotSet(p.steps[n].outputs));
    ReaderFound(p.steps, SlotSet(p.steps[n].outputs), n + 1, m);
    SkipCaught(c', p, 4, n);
  }

  lemma {:induction false} ReadyMonotone(c: Context, buffers: seq<Buffer>, steps: seq<Event>, m: nat, n: nat)
    requires Assigned(c) && InspectSteps(c, buffers, steps).Ok? && m <= n <= |steps|
    ensures InspectSteps(c, buffers, steps[..m]).Ok? && InspectSteps(c, buffers, steps[..n]).Ok?
    ensures InspectSteps(c, buffers, steps[..m]).value.ready <= InspectSteps(c, buffers, steps[..n]).value.ready
    decreases n
  {
    if m < n {
      ReadyMonotone(c, buffers, steps, m, n - 1);
      StepOfAccepted(c, buffers, steps, n - 1);
      ReadyGrows(c, buffers, InspectSteps(c, buffers, steps[..n - 1]).value, n - 1, steps[n - 1]);
    } else {
      AcceptedPrefix(c, buffers, steps, n);
    }
  }

  lemma WrittenBeforeRead(c: Context, p: Plan, n: nat, m: nat)
    requires Assigned(c) && Accepted(c, p) && n < |p.steps| && m < |p.steps|
    requires |p.steps[n].outputs| == 1 && p.steps[n].outputs[0] in p.steps[m].inputs
    ensures n < m
  {
    StepOfAccepted(c, p.buffers, p.steps, n);
    StepOfAccepted(c, p.buffers, p.steps, m);
    ReadyGrows(c, p.buffers, InspectSteps(c, p.buffers, p.steps[..m]).value, m, p.steps[m]);
    ReadyGrows(c, p.buffers, InspectSteps(c, p.buffers, p.steps[..n]).value, n, p.steps[n]);
    if m <= n {
      ReadyMonotone(c, p.buffers, p.steps, m, n);
    }
  }

  /** What a pass has counted and what took effect of it. */
  ghost predicate PublicationsKept(fault: nat, pass: Pass) {
    KindCount(pass.ran, PublishOutput) == pass.published - (if fault == 3 && pass.published > 0 then 1 else 0)
  }

  lemma KindAppended(ran: seq<Event>, e: Event, kind: EventKind)
    ensures KindCount(ran + [e], kind) == KindCount(ran, kind) + (if e.kind == kind then 1 else 0)
  {
    assert (ran + [e])[..|ran|] == ran;
  }

  /** What an event that does not stop the pass adds to it. */
  lemma PassGrows(fault: nat, before: Pass, e: Event, after: Pass)
    requires PassEvent(fault, before, e) == Going(after)
    ensures after.published == before.published + (if e.kind == PublishOutput then 1 else 0)
    ensures after.ran == before.ran || after.ran == before.ran + [e]
    ensures e.kind == PublishOutput ==> (after.ran == before.ran <==> fault == 3 && before.published == 0)
  {
    assert |before.ran + [e]| == |before.ran| + 1;
  }

  lemma PublishedNext(fault: nat, before: Pass, e: Event, after: Pass)
    requires PublicationsKept(fault, before) && PassEvent(fault, before, e) == Going(after)
    ensures PublicationsKept(fault, after)
    ensures after.published == before.published + (if e.kind == PublishOutput then 1 else 0)
  {
    PassGrows(fault, before, e, after);
    KindAppended(before.ran, e, PublishOutput);
  }

  lemma {:induction false} PublishedCounted(fault: nat, steps: seq<Event>)
    requires RunEvents(fault, steps).Going?
    ensures
      var pass := RunEvents(fault, steps).pass;
      && pass.published == KindCount(steps, PublishOutput)
      && KindCount(pass.ran, PublishOutput) == pass.published - (if fault == 3 && pass.published > 0 then 1 else 0)
  {
    if steps != [] {
      var n := |steps| - 1;
      PublishedCounted(fault, steps[..n]);
      PublishedNext(fault, RunEvents(fault, steps[..n]).pass, steps[n], RunEvents(fault, steps).pass);
    }
  }

  // ----- Counters of the verdicts -----

  lemma OneMoreTime(n: nat, a: int)
    requires n > 0
    ensures n * a == (n - 1) * a + a
  {
  }

  lemma {:induction false} CountRepeats(buffers: seq<Buffer>, steps: seq<Event>, n: nat, k: Counter)
    requires WellShaped(buffers, steps)
    ensures WellShaped(buffers, Repeat(steps, n)) && Count(buffers, Repeat(steps, n), k) == n * Count(buffers, steps, k)
  {
    if n > 0 {
      CountRepeats(buffers, steps, n - 1, k);
      CountAdditive(buffers, Repeat(steps, n - 1), steps, k);
      OneMoreTime(n, Count(buffers, steps, k));
    }
  }

  /** Interpreter against closed form: on every accepted schedule the clean receipt's eleven counters
      equal the closed form's exactly when every execution names one of the two known targets. */
  lemma CleanCountersIffKnownTargets(c: Context, p: Plan)
    requires Assigned(c) && Accepted(c, p)
    ensures WellShaped(p.buffers, p.steps) && WellShaped(p.buffers, RunPasses(p.steps, 0, PASSES).ran)
    ensures (forall k: Counter ::
               Reported(p.buffers, RunPasses(p.steps, 0, PASSES), k) == ManifestCount(p.buffers, p.steps, k))
       <==> KnownTargets(p.steps)
  {
    AcceptedWellShaped(c, p);
    CleanVerdict(c, p);
    forall k: Counter
      ensures WellShaped(p.buffers, Repeat(p.steps, 6))
      ensures Count(p.buffers, Repeat(p.steps, 6), k) == 6 * Count(p.buffers, p.steps, k)
    {
      CountRepeats(p.buffers, p.steps, 6, k);
    }
    ClosedFormIffSixPasses(p.buffers, p.steps);
    CaseRunsClosedForm(p.buffers, p.steps);
    NoCaseRuns(p.buffers, p.steps);
  }

  lemma {:induction false} CaseRunsClosedForm(buffers: seq<Buffer>, steps: seq<Event>)
    requires WellShaped(buffers, steps)
    ensures ManifestCount(buffers, steps, CaseRuns) == 6
  {
    if steps != [] {
      CaseRunsClosedForm(buffers, steps[..|steps| - 1]);
    }
  }

  /** The events that took effect in a pass. */
  function RanOf(out: Outcome): seq<Event> {
    if out.Stopped? then out.ran else out.pass.ran
  }

  /** A receipt that did not pass is its first pass's: a fault that lets one pass through lets all through. */
  lemma FirstPassOnly(steps: seq<Event>, fault: nat)
    requires !RunPasses(steps, fault, PASSES).passed
    ensures
      var out := RunEvents(fault, steps);
      RunPasses(steps, fault, PASSES)
      == Receipt(false, if out.Stopped? then out.reason else "missing_publication", 0, RanOf(out))
  {
    if fault != 3 && RunEvents(fault, steps).Going? {
      PassesRepeat(steps, fault, PASSES);
      assert false;
    }
    assert RunPasses(steps, fault, 0) == Receipt(true, "none", 0, []);
    assert [] + RanOf(RunEvents(fault, steps)) == RanOf(RunEvents(fault, steps));
    StoppedPassesStay(steps, fault, 1, PASSES);
  }

  lemma PassRan(fault: nat, pass: Pass, e: Event)
    ensures RanOf(PassEvent(fault, pass, e)) == pass.ran || RanOf(PassEvent(fault, pass, e)) == pass.ran + [e]
  {
  }

  lemma RanNext(fault: nat, steps: seq<Event>)
    requires steps != []
    ensures
      var before := RanOf(RunEvents(fault, steps[..|steps| - 1]));
      || RanOf(RunEvents(fault, steps)) == before
      || RanOf(RunEvents(fault, steps)) == before + [steps[|steps| - 1]]
  {
    var out := RunEvents(fault, steps[..|steps| - 1]);
    if out.Going? {
      NextPass(fault, steps, out.pass);
      PassRan(fault, out.pass, steps[|steps| - 1]);
    }
  }

  lemma EventCounts(buffers: seq<Buffer>, e: Event, k: Counter)
    requires WellShapedEvent(buffers, e) && SizesNonnegative(buffers)
    ensures EventCount(buffers, e, k) >= 0
  {
  }

  /** What took effect under a fault counts no more than the whole schedule. */
  lemma {:induction false} RanWithin(buffers: seq<Buffer>, steps: seq<Event>, fault: nat, k: Counter)
    requires WellShaped(buffers, steps) && SizesNonnegative(buffers)
    ensures WellShaped(buffers, RanOf(RunEvents(fault, steps)))
    ensures Count(buffers, RanOf(RunEvents(fault, steps)), k) <= Count(buffers, steps, k)
  {
    if steps != [] {
      var n := |steps| - 1;
      assert forall i | 0 <= i < n :: steps[..n][i] == steps[i];
      RanWithin(buffers, steps[..n], fault, k);
      NextCount(buffers, RanOf(RunEvents(fault, steps[..n])), steps[n], k);
      RanNext(fault, steps);
      EventCounts(buffers, steps[n], k);
    }
  }

  /** A faulted receipt never counts more than one clean pass: whenever the interpreter reports an error,
      on any schedule and under any fault, no case run is counted and no counter exceeds one traversal's. */
  lemma FaultedWithinOnePass(buffers: seq<Buffer>, steps: seq<Event>, fault: nat, k: Counter)
    requires WellShaped(buffers, steps) && SizesNonnegative(buffers)
    requires !RunPasses(steps, fault, PASSES).passed
    ensures RunPasses(steps, fault, PASSES).caseRuns == 0
    ensures WellShaped(buffers, RunPasses(steps, fault, PASSES).ran)
    ensures Reported(buffers, RunPasses(steps, fault, PASSES), k) <= Count(buffers, steps, k)
  {
    FirstPassOnly(steps, fault);
    RanWithin(buffers, steps, fault, k);
    CountNonnegative(buffers, steps, k);
  }

  // ----- The whole answer -----

  /** What the interpreter answers on an accepted plan in execute mode, fault by fault. Without a fault,
      and under fault 4 with no copy to skip, six whole traversals; under fault 4 with a copy nobody
      reads, six traversals without it; otherwise an error in the first, after exactly these events. */
  lemma AcceptedAnswer(c: Context, p: Plan, fault: nat) returns (n: nat, q: nat)
    requires Assigned(c) && SingleAssignment(c.graph) && Accepted(c, p) && c.graph.operations != [] && fault <= 4
    ensures fault == 0 ==> RunPasses(p.steps, fault, 6) == Receipt(true, "none", 6, Repeat(p.steps, 6))
    ensures fault == 1 ==>
              && n < q < |p.steps| && p.steps[n].kind == Execute && p.steps[n].operation == Some(0)
              && q == FirstReader(p.steps, SlotSet(p.steps[n].outputs), n + 1)
              && RunPasses(p.steps, fault, 6) == Receipt(false, "missing_operand", 0, Without(p.steps[..q], n))
    ensures fault == 2 ==>
              && FirstOfKind(p.steps, n, PublishOutput)
              && RunPasses(p.steps, fault, 6) == Receipt(false, "numeric_mismatch", 0, p.steps[..n])
    ensures fault == 3 ==>
              && FirstOfKind(p.steps, n, PublishOutput)
              && RunPasses(p.steps, fault, 6) == Receipt(false, "missing_publication", 0, Without(p.steps, n))
    ensures fault == 4 && KindCount(p.steps, Copy) == 0 ==>
              RunPasses(p.steps, fault, 6) == Receipt(true, "none", 6, Repeat(p.steps, 6))
    ensures fault == 4 && KindCount(p.steps, Copy) > 0 ==>
              && FirstOfKind(p.steps, n, Copy) && q == FirstReader(p.steps, SlotSet(p.steps[n].outputs), n + 1)
              && RunPasses(p.steps, fault, 6)
                 == if q < |p.steps| then Receipt(false, "missing_operand", 0, Without(p.steps[..q], n))
                    else Receipt(true, "none", 6, Repeat(Without(p.steps, n), 6))
  {
    n, q := 0, 0;
    if fault == 0 {
      CleanVerdict(c, p);
    } else if fault == 1 {
      n, q := SkippedOperationCaught(c, p);
      SoleReader(p.steps, SlotSet(p.steps[n].outputs), n + 1, q);
    } else if fault == 2 {
      n := CorruptedPublicationCaught(c, p);
    } else if fault == 3 {
      n := MissingPublicationCaught(c, p);
    } else if KindCount(p.steps, Copy) == 0 {
      UntouchedPrefix(c, p.buffers, p.steps, 4);
      PassesRepeat(p.steps, 4, PASSES);
    } else {
      n := FindFirst(p.steps, Copy);
      q := FirstReader(p.steps, SlotSet(p.steps[n].outputs), n + 1);
      if q < |p.steps| {
        SkipCaught(c, p, 4, n);
      } else {
        SkipMissed(c, p, 4, n);
      }
    }
  }

  lemma SoleReader(steps: seq<Event>, slots: set<int>, n: nat, q: nat)
    requires n <= q < |steps| && Reads(steps[q], slots) && forall i | n <= i < q :: !Reads(steps[i], slots)
    ensures FirstReader(steps, slots, n) == q
  {
  }
}
