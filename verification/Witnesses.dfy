/**
  The failing sides of the exact conditions, each with an input: accepted plans on which the closed form
  miscounts, on which a skipped copy goes unnoticed, and which the C validator refuses; and tables the C
  validator accepts for plans the Python validator refuses.
 */
module Witnesses {
  import opened Wrappers
  import opened Graphs
  import opened Residency
  import opened Conservation
  import opened Planner
  import P = PlannerProofs
  import opened Receipts
  import opened Faults
  import opened Tables
  import opened PlannedTables

  const ROOM := Limits(0, 8, 0, 8, false)

  function Publish(slot: int): Event {
    Event(PublishOutput, None, "", [slot], [])
  }

  function Bind(slot: int): Event {
    Event(BindInput, None, "", [], [slot])
  }

  function CopyTo(source: int, target: int): Event {
    Event(Copy, None, "", [source], [target])
  }

  function Run(i: nat, backend: Backend, input: int, output: int): Event {
    Event(Execute, Some(i), backend, [input], [output])
  }

  // ----- One event at a time -----

  lemma Bound(c: Context, b: seq<Buffer>, before: seq<Event>, st: Inspection, slot: nat, after: Inspection)
    requires Assigned(c) && InspectSteps(c, b, before) == Ok(st) && slot < |b| && slot !in st.ready
    requires b[slot].tensor in ExternalInputs(c.graph) && b[slot].tensor !in st.bound
    requires b[slot].space == c.deployment.host
    requires after.ready == st.ready + {slot} && after.bound == st.bound + {b[slot].tensor}
    requires after == st.(ready := after.ready, bound := after.bound)
    ensures InspectSteps(c, b, before + [Bind(slot)]) == Ok(after)
  {
    AppendEvent(c, b, before, Bind(slot));
    assert SlotSet([slot]) == {slot};
  }

  lemma Copied(c: Context, b: seq<Buffer>, before: seq<Event>, st: Inspection, source: nat, target: nat,
               after: Inspection)
    requires Assigned(c) && InspectSteps(c, b, before) == Ok(st) && source < |b| && target < |b|
    requires source in st.ready && target !in st.ready && b[source].space != b[target].space
    requires b[source] == b[target].(space := b[source].space)
    requires after.ready == st.ready + {target} && after == st.(ready := after.ready)
    ensures InspectSteps(c, b, before + [CopyTo(source, target)]) == Ok(after)
  {
    AppendEvent(c, b, before, CopyTo(source, target));
    assert SlotSet([target]) == {target};
  }

  lemma Executed(c: Context, b: seq<Buffer>, before: seq<Event>, st: Inspection, input: nat, output: nat,
                 after: Inspection)
    requires Assigned(c) && InspectSteps(c, b, before) == Ok(st) && st.executed < |c.graph.operations|
    requires input < |b| && output < |b| && input in st.ready && output !in st.ready
    requires c.graph.operations[st.executed] == Operation(Relu, [b[input].tensor], b[output].tensor)
    requires b[input].space == b[output].space == SpaceOf(c, st.executed)
    requires after.ready == st.ready + {output} && after == st.(ready := after.ready, executed := st.executed + 1)
    ensures InspectSteps(c, b, before + [Run(st.executed, c.deployment.assignments[st.executed], input, output)])
         == Ok(after)
  {
    var e := Run(st.executed, c.deployment.assignments[st.executed], input, output);
    ExecuteCheck(c, b, st, e);
    AppendEvent(c, b, before, e);
    assert SlotSet([output]) == {output};
  }

  lemma Published(c: Context, b: seq<Buffer>, before: seq<Event>, st: Inspection, slot: nat, after: Inspection)
    requires Assigned(c) && InspectSteps(c, b, before) == Ok(st) && slot < |b| && slot in st.ready
    requires b[slot].tensor in Terminals(c.graph) && b[slot].tensor !in st.published
    requires b[slot].space == c.deployment.host
    requires after.published == st.published + {b[slot].tensor} && after == st.(published := after.published)
    ensures InspectSteps(c, b, before + [Publish(slot)]) == Ok(after)
  {
    AppendEvent(c, b, before, Publish(slot));
    assert st.ready + SlotSet([]) == st.ready;
  }

  // ----- One ReLU -----

  const TINY := Graph([[1], [1]], [Operation(Relu, [0], 1)])

  const BOTH_SPACES := map[C11 := HOST, CUDA_SM86 := ACCELERATOR]

  const TINY_CONTEXT := Context(TINY, Deployment(HOST, BOTH_SPACES, [C11]), MAX_EVENT_INPUTS, ROOM)

  function TinyBuffer(t: Tensor, space: Space): Buffer
    requires t < 2
  {
    Buffer(t, space, [1], 4)
  }

  lemma OneWord()
    ensures Bytes([1]) == 4
  {
    assert Prod([1]) == 1;
  }

  lemma TinyBoundary()
    ensures ExternalInputs(TINY) == {0} && Terminals(TINY) == {1}
  {
    assert TINY.operations[0].output == 1 && !Consumed(TINY, 1) && !Produced(TINY, 0);
    assert 0 in ExternalInputs(TINY) by {
      assert TINY.operations[0].inputs[0] == 0;
    }
  }

  /** A copy of the input to the device that nobody reads. */
  const IDLE := Plan([TinyBuffer(0, HOST), TinyBuffer(1, HOST), TinyBuffer(0, ACCELERATOR)],
                     [Bind(0), CopyTo(0, 2), Run(0, C11, 0, 1), Publish(1)])

  lemma FirstSlots()
    ensures AllSlots(2) == {0, 1} && AllSlots(3) == {0, 1, 2} && AllSlots(4) == {0, 1, 2, 3}
  {
    assert forall i :: i in AllSlots(2) <==> i in {0, 1};
    assert forall i :: i in AllSlots(3) <==> i in {0, 1, 2};
    assert forall i :: i in AllSlots(4) <==> i in {0, 1, 2, 3};
  }

  lemma IdleSteps()
    ensures InspectSteps(TINY_CONTEXT, IDLE.buffers, IDLE.steps) == Ok(Inspection({0, 1, 2}, {0}, {1}, 1, None))
  {
    var c, b := TINY_CONTEXT, IDLE.buffers;
    var s1, s2 := Inspection({0}, {0}, {}, 0, None), Inspection({0, 2}, {0}, {}, 0, None);
    var s3, s4 := Inspection({0, 1, 2}, {0}, {}, 1, None), Inspection({0, 1, 2}, {0}, {1}, 1, None);
    TinyBoundary();
    Bound(c, b, [], START, 0, s1);
    assert [] + [Bind(0)] == [Bind(0)];
    Copied(c, b, [Bind(0)], s1, 0, 2, s2);
    assert [Bind(0)] + [CopyTo(0, 2)] == [Bind(0), CopyTo(0, 2)];
    Executed(c, b, [Bind(0), CopyTo(0, 2)], s2, 0, 1, s3);
    assert [Bind(0), CopyTo(0, 2)] + [Run(0, C11, 0, 1)] == IDLE.steps[..3];
    Published(c, b, IDLE.steps[..3], s3, 1, s4);
    assert IDLE.steps[..3] + [Publish(1)] == IDLE.steps;
  }

  lemma TinySpaces()
    ensures Assigned(TINY_CONTEXT)
    ensures KnownSpace(TINY_CONTEXT.deployment, HOST) && KnownSpace(TINY_CONTEXT.deployment, ACCELERATOR)
  {
    assert BOTH_SPACES[CUDA_SM86] == ACCELERATOR;
  }

  lemma TinyBufferOk(t: Tensor, space: Space)
    requires t < 2 && (space == HOST || space == ACCELERATOR)
    ensures InspectBuffer(TINY_CONTEXT, TinyBuffer(t, space)).Ok?
  {
    OneWord();
    TinySpaces();
    assert TINY.shapes[t] == [1];
    LabelledBuffer(TINY_CONTEXT, TinyBuffer(t, space));
  }

  lemma IdleAccepted()
    ensures Accepted(TINY_CONTEXT, IDLE)
  {
    IdleSteps();
    TinyBoundary();
    FirstSlots();
    TinyBufferOk(0, HOST);
    TinyBufferOk(1, HOST);
    TinyBufferOk(0, ACCELERATOR);
  }

  /** An accepted plan on which fault 4, a skipped copy, goes unnoticed in all six passes. */
  lemma IdleCopyGoesUnnoticed()
    ensures Accepted(TINY_CONTEXT, IDLE) && KindCount(IDLE.steps, Copy) > 0
    ensures RunPasses(IDLE.steps, 4, PASSES).passed
  {
    IdleAccepted();
    assert FirstOfKind(IDLE.steps, 1, Copy);
    KindCountGrows(IDLE.steps, 1, Copy);
    assert forall i | 2 <= i < 4 :: !Reads(IDLE.steps[i], SlotSet(IDLE.steps[1].outputs));
    if FirstCopyRead(IDLE.steps) {
      FirstCopyReadAt(IDLE.steps, 1);
    }
    SkippedCopyCaughtIffRead(TINY_CONTEXT, IDLE);
  }

  // ----- Tables that hide what the Python validator refuses -----

  lemma TinyTargeted(p: Plan)
    requires |p.buffers| == 3
    ensures Targeted(TINY_CONTEXT, p.buffers)
  {
    TinySpaces();
    assert forall b | b in BOTH_SPACES :: b == C11 || b == CUDA_SM86;
  }

  lemma IdlePublishesLast()
    ensures P.LatePublications(TINY, IDLE.steps)
  {
    assert IDLE.steps[..3] == [Bind(0), CopyTo(0, 2)] + [Run(0, C11, 0, 1)];
    assert [Bind(0), CopyTo(0, 2)] == [Bind(0)] + [CopyTo(0, 2)];
    KindAppended([], Bind(0), Execute);
    KindAppended([Bind(0)], CopyTo(0, 2), Execute);
    KindAppended([Bind(0), CopyTo(0, 2)], Run(0, C11, 0, 1), Execute);
    assert [] + [Bind(0)] == [Bind(0)];
  }

  /** The table of the idle plan passes the C validator. */
  lemma IdleTable()
    ensures Accepted(TINY_CONTEXT, IDLE) && Targeted(TINY_CONTEXT, IDLE.buffers) && HasRows(IDLE.steps)
    ensures TableAccepts(EncodeGraph(TINY_CONTEXT), EncodeBuffers(IDLE.buffers), EncodeEvents(IDLE.steps))
  {
    IdleAccepted();
    TinyTargeted(IDLE);
    IdlePublishesLast();
    assert DistinctPairs(IDLE.buffers);
    TableAcceptsIff(TINY_CONTEXT, IDLE);
  }

  lemma IdleRows()
    ensures HasRows(IDLE.steps)
  {
  }

  /** A plan with the idle plan's rows passes as it does. */
  lemma SameRows(p: Plan)
    requires Targeted(TINY_CONTEXT, p.buffers) && HasRows(p.steps)
    requires EncodeBuffers(p.buffers) == EncodeBuffers(IDLE.buffers)
    requires HasRows(IDLE.steps) && EncodeEvents(p.steps) == EncodeEvents(IDLE.steps)
    ensures TableAccepts(EncodeGraph(TINY_CONTEXT), EncodeBuffers(p.buffers), EncodeEvents(p.steps))
  {
    IdleTable();
  }

  lemma BadBuffer(p: Plan, i: nat)
    requires i < |p.buffers| && InspectBuffer(TINY_CONTEXT, p.buffers[i]).Err?
    ensures Assigned(TINY_CONTEXT) && !Accepted(TINY_CONTEXT, p)
  {
    TinySpaces();
  }

  /** A row forgets its buffer's shape: four bytes as one row of one element pass for one element. */
  const RESHAPED := Plan([Buffer(0, HOST, [1, 1], 4), TinyBuffer(1, HOST), TinyBuffer(0, ACCELERATOR)], IDLE.steps)

  lemma TableForgetsShape()
    ensures Targeted(TINY_CONTEXT, RESHAPED.buffers) && HasRows(RESHAPED.steps)
    ensures TableAccepts(EncodeGraph(TINY_CONTEXT), EncodeBuffers(RESHAPED.buffers), EncodeEvents(RESHAPED.steps))
    ensures !Accepted(TINY_CONTEXT, RESHAPED)
  {
    IdleRows();
    TinyTargeted(RESHAPED);
    assert EncodeBuffers(RESHAPED.buffers) == EncodeBuffers(IDLE.buffers);
    SameRows(RESHAPED);
    assert TINY.shapes[0] == [1] && RESHAPED.buffers[0].shape != [1];
    BadBuffer(RESHAPED, 0);
  }

  /** A row forgets its space's name: anywhere but the host passes for the device. */
  const MISPLACED := Plan([TinyBuffer(0, HOST), TinyBuffer(1, HOST), TinyBuffer(0, "elsewhere")], IDLE.steps)

  lemma TableForgetsSpace()
    ensures Targeted(TINY_CONTEXT, MISPLACED.buffers) && HasRows(MISPLACED.steps)
    ensures TableAccepts(EncodeGraph(TINY_CONTEXT), EncodeBuffers(MISPLACED.buffers), EncodeEvents(MISPLACED.steps))
    ensures !Accepted(TINY_CONTEXT, MISPLACED)
  {
    IdleRows();
    TinyTargeted(MISPLACED);
    assert EncodeBuffers(MISPLACED.buffers) == EncodeBuffers(IDLE.buffers);
    SameRows(MISPLACED);
    assert !KnownSpace(TINY_CONTEXT.deployment, "elsewhere");
    BadBuffer(MISPLACED, 2);
  }

  /** A row takes an output numbered 255 for no output. */
  const OVERFULL := Plan(IDLE.buffers, [Bind(0), CopyTo(0, 2), Run(0, C11, 0, 1),
                                        Event(PublishOutput, None, "", [1], [NONE])])

  lemma OutputIsSentinel()
    ensures !AllEncodable(OVERFULL.steps)
  {
    assert OVERFULL.steps[3].outputs[0] == NONE;
  }

  lemma OverfullRefused()
    ensures Assigned(TINY_CONTEXT) && !Accepted(TINY_CONTEXT, OVERFULL)
  {
    TinySpaces();
    TinyTargeted(OVERFULL);
    OutputIsSentinel();
    if InspectSteps(TINY_CONTEXT, OVERFULL.buffers, OVERFULL.steps).Ok? {
      AcceptedStepsFit(TINY_CONTEXT, OVERFULL.buffers, OVERFULL.steps);
      assert false;
    }
  }

  lemma TableForgetsSentinel()
    ensures Targeted(TINY_CONTEXT, OVERFULL.buffers) && HasRows(OVERFULL.steps)
    ensures TableAccepts(EncodeGraph(TINY_CONTEXT), EncodeBuffers(OVERFULL.buffers), EncodeEvents(OVERFULL.steps))
    ensures !Accepted(TINY_CONTEXT, OVERFULL)
  {
    IdleRows();
    TinyTargeted(OVERFULL);
    assert EncodeEvents(OVERFULL.steps) == EncodeEvents(IDLE.steps);
    SameRows(OVERFULL);
    OverfullRefused();
  }

  // ----- Accepted plans the C validator refuses -----

  /** The input goes to the device and comes back to a second host slot. */
  const TWICE := Plan([TinyBuffer(0, HOST), TinyBuffer(1, HOST), TinyBuffer(0, ACCELERATOR), TinyBuffer(0, HOST)],
                      [Bind(0), CopyTo(0, 2), CopyTo(2, 3), Run(0, C11, 3, 1), Publish(1)])

  lemma TwiceCopied()
    ensures InspectSteps(TINY_CONTEXT, TWICE.buffers, TWICE.steps[..2]) == Ok(Inspection({0, 2}, {0}, {}, 0, None))
  {
    var c, b := TINY_CONTEXT, TWICE.buffers;
    var s1, s2 := Inspection({0}, {0}, {}, 0, None), Inspection({0, 2}, {0}, {}, 0, None);
    TinyBoundary();
    Bound(c, b, [], START, 0, s1);
    assert [] + [Bind(0)] == [Bind(0)];
    Copied(c, b, [Bind(0)], s1, 0, 2, s2);
    assert [Bind(0)] + [CopyTo(0, 2)] == TWICE.steps[..2];
  }

  lemma TwiceStart()
    ensures InspectSteps(TINY_CONTEXT, TWICE.buffers, TWICE.steps[..3]) == Ok(Inspection({0, 2, 3}, {0}, {}, 0, None))
  {
    var c, b, s2 := TINY_CONTEXT, TWICE.buffers, Inspection({0, 2}, {0}, {}, 0, None);
    TwiceCopied();
    Copied(c, b, TWICE.steps[..2], s2, 2, 3, s2.(ready := {0, 2, 3}));
    assert TWICE.steps[..2] + [CopyTo(2, 3)] == TWICE.steps[..3];
  }

  lemma TwiceSteps()
    ensures InspectSteps(TINY_CONTEXT, TWICE.buffers, TWICE.steps) == Ok(Inspection({0, 1, 2, 3}, {0}, {1}, 1, None))
  {
    var c, b := TINY_CONTEXT, TWICE.buffers;
    var s3, s4 := Inspection({0, 2, 3}, {0}, {}, 0, None), Inspection({0, 1, 2, 3}, {0}, {}, 1, None);
    TinyBoundary();
    TwiceStart();
    Executed(c, b, TWICE.steps[..3], s3, 3, 1, s4);
    assert TWICE.steps[..3] + [Run(0, C11, 3, 1)] == TWICE.steps[..4];
    Published(c, b, TWICE.steps[..4], s4, 1, s4.(published := {1}));
    assert TWICE.steps[..4] + [Publish(1)] == TWICE.steps;
  }

  lemma TwiceAccepted()
    ensures Accepted(TINY_CONTEXT, TWICE)
  {
    TwiceSteps();
    TinyBoundary();
    FirstSlots();
    TinyBufferOk(0, HOST);
    TinyBufferOk(1, HOST);
    TinyBufferOk(0, ACCELERATOR);
  }

  /** A pair held twice: the Python validator accepts the plan, the C validator refuses its table. */
  lemma PairHeldTwiceRefused()
    ensures Accepted(TINY_CONTEXT, TWICE) && Targeted(TINY_CONTEXT, TWICE.buffers) && HasRows(TWICE.steps)
    ensures !TableAccepts(EncodeGraph(TINY_CONTEXT), EncodeBuffers(TWICE.buffers), EncodeEvents(TWICE.steps))
  {
    TwiceAccepted();
    TinySpaces();
    assert Targeted(TINY_CONTEXT, TWICE.buffers) by {
      assert forall b | b in BOTH_SPACES :: b == C11 || b == CUDA_SM86;
    }
    assert TWICE.buffers[0].tensor == TWICE.buffers[3].tensor && TWICE.buffers[0].space == TWICE.buffers[3].space;
    TableAcceptsIff(TINY_CONTEXT, TWICE);
  }

  /** Two results of one input, the first published before the second is computed. */
  const FORK := Graph([[1], [1], [1]], [Operation(Relu, [0], 1), Operation(Relu, [0], 2)])

  const HOST_ONLY := map[C11 := HOST]

  const FORK_CONTEXT := Context(FORK, Deployment(HOST, HOST_ONLY, [C11, C11]), MAX_EVENT_INPUTS, ROOM)

  const EARLY := Plan([Buffer(0, HOST, [1], 4), Buffer(1, HOST, [1], 4), Buffer(2, HOST, [1], 4)],
                      [Bind(0), Run(0, C11, 0, 1), Publish(1), Run(1, C11, 0, 2), Publish(2)])

  lemma ForkBoundary()
    ensures ExternalInputs(FORK) == {0} && Terminals(FORK) == {1, 2}
  {
    assert FORK.operations[0].output == 1 && FORK.operations[1].output == 2;
    assert FORK.operations[0].inputs[0] == 0;
    assert !Consumed(FORK, 1) && !Consumed(FORK, 2) && !Produced(FORK, 0);
  }

  lemma EarlyStart()
    ensures Assigned(FORK_CONTEXT)
    ensures InspectSteps(FORK_CONTEXT, EARLY.buffers, EARLY.steps[..3]) == Ok(Inspection({0, 1}, {0}, {1}, 1, None))
  {
    var c, b := FORK_CONTEXT, EARLY.buffers;
    var s1, s2 := Inspection({0}, {0}, {}, 0, None), Inspection({0, 1}, {0}, {}, 1, None);
    ForkBoundary();
    Bound(c, b, [], START, 0, s1);
    assert [] + [Bind(0)] == [Bind(0)];
    Executed(c, b, [Bind(0)], s1, 0, 1, s2);
    assert [Bind(0)] + [Run(0, C11, 0, 1)] == EARLY.steps[..2];
    Published(c, b, EARLY.steps[..2], s2, 1, s2.(published := {1}));
    assert EARLY.steps[..2] + [Publish(1)] == EARLY.steps[..3];
  }

  lemma EarlySteps()
    ensures InspectSteps(FORK_CONTEXT, EARLY.buffers, EARLY.steps) == Ok(Inspection({0, 1, 2}, {0}, {1, 2}, 2, None))
  {
    var c, b := FORK_CONTEXT, EARLY.buffers;
    var s3, s4 := Inspection({0, 1}, {0}, {1}, 1, None), Inspection({0, 1, 2}, {0}, {1}, 2, None);
    ForkBoundary();
    EarlyStart();
    Executed(c, b, EARLY.steps[..3], s3, 0, 2, s4);
    assert EARLY.steps[..3] + [Run(1, C11, 0, 2)] == EARLY.steps[..4];
    Published(c, b, EARLY.steps[..4], s4, 2, s4.(published := {1, 2}));
    assert EARLY.steps[..4] + [Publish(2)] == EARLY.steps;
  }

  lemma EarlyAccepted()
    ensures Accepted(FORK_CONTEXT, EARLY) && Targeted(FORK_CONTEXT, EARLY.buffers)
  {
    EarlySteps();
    ForkBoundary();
    FirstSlots();
    OneWord();
    assert HOST_ONLY[C11] == HOST;
    forall i | 0 <= i < 3
      ensures InspectBuffer(FORK_CONTEXT, EARLY.buffers[i]).Ok?
    {
      assert FORK.shapes[i] == [1];
    }
  }

  /** A publication before the last execution: accepted in Python, refused in C. */
  lemma EarlyPublicationRefused()
    ensures Accepted(FORK_CONTEXT, EARLY) && Targeted(FORK_CONTEXT, EARLY.buffers) && HasRows(EARLY.steps)
    ensures !TableAccepts(EncodeGraph(FORK_CONTEXT), EncodeBuffers(EARLY.buffers), EncodeEvents(EARLY.steps))
  {
    EarlyAccepted();
    TableAcceptsIff(FORK_CONTEXT, EARLY);
    assert EARLY.steps[..2] == [Bind(0)] + [Run(0, C11, 0, 1)];
    KindAppended([], Bind(0), Execute);
    KindAppended([Bind(0)], Run(0, C11, 0, 1), Execute);
    assert [] + [Bind(0)] == [Bind(0)];
    assert EARLY.steps[2].kind == PublishOutput && KindCount(EARLY.steps[..2], Execute) == 1;
  }

  // ----- An accepted plan the closed form miscounts -----

  const STRAY_BACKEND := "other"

  const STRAY_CONTEXT := Context(TINY, Deployment(HOST, map[STRAY_BACKEND := HOST], [STRAY_BACKEND]),
                                 MAX_EVENT_INPUTS, ROOM)

  const STRAY := Plan([TinyBuffer(0, HOST), TinyBuffer(1, HOST)], [Bind(0), Run(0, STRAY_BACKEND, 0, 1), Publish(1)])

  lemma StraySteps()
    ensures InspectSteps(STRAY_CONTEXT, STRAY.buffers, STRAY.steps) == Ok(Inspection({0, 1}, {0}, {1}, 1, None))
  {
    var c, b := STRAY_CONTEXT, STRAY.buffers;
    var s1, s2 := Inspection({0}, {0}, {}, 0, None), Inspection({0, 1}, {0}, {}, 1, None);
    TinyBoundary();
    Bound(c, b, [], START, 0, s1);
    assert [] + [Bind(0)] == [Bind(0)];
    Executed(c, b, [Bind(0)], s1, 0, 1, s2);
    assert [Bind(0)] + [Run(0, STRAY_BACKEND, 0, 1)] == STRAY.steps[..2];
    Published(c, b, STRAY.steps[..2], s2, 1, s2.(published := {1}));
    assert STRAY.steps[..2] + [Publish(1)] == STRAY.steps;
  }

  lemma StrayAccepted()
    ensures Accepted(STRAY_CONTEXT, STRAY)
  {
    StraySteps();
    TinyBoundary();
    FirstSlots();
    OneWord();
    forall i | 0 <= i < 2
      ensures InspectBuffer(STRAY_CONTEXT, STRAY.buffers[i]).Ok?
    {
      assert TINY.shapes[i] == [1];
    }
  }

  /** An execution on a third backend: the closed form and the six-pass interpreter disagree on a counter. */
  lemma StrayBackendMiscounted() returns (k: Counter)
    ensures Accepted(STRAY_CONTEXT, STRAY)
    ensures WellShaped(STRAY.buffers, STRAY.steps) && WellShaped(STRAY.buffers, RunPasses(STRAY.steps, 0, PASSES).ran)
    ensures Reported(STRAY.buffers, RunPasses(STRAY.steps, 0, PASSES), k)
         != ManifestCount(STRAY.buffers, STRAY.steps, k)
  {
    StrayAccepted();
    CleanCountersIffKnownTargets(STRAY_CONTEXT, STRAY);
    assert STRAY.steps[1].kind == Execute && STRAY.steps[1].backend == STRAY_BACKEND;
    k :| Reported(STRAY.buffers, RunPasses(STRAY.steps, 0, PASSES), k) != ManifestCount(STRAY.buffers, STRAY.steps, k);
  }

  /** A published buffer of five bytes: six times a quarter of it is not a quarter of six times it. */
  const RAGGED := [Buffer(0, HOST, [1], 5)]

  lemma RaggedBytesMiscounted()
    ensures WellShaped(RAGGED, [Publish(0)])
    ensures ManifestCount(RAGGED, [Publish(0)], ScalarChecks) == 7
    ensures 6 * Count(RAGGED, [Publish(0)], ScalarChecks) == 6
  {
    assert [Publish(0)][..0] == [];
  }
}
