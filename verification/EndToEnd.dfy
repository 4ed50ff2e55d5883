/**
  The whole CPU path on the portfolio: a family's graph is planned on the host, inlined into a worker,
  and run against constants the oracle computed. The exit code is 0 exactly when every operation's
  result is zero or normal, and each injected fault returns its own code.
 */
module EndToEnd {
  import opened Wrappers
  import opened Graphs
  import opened Residency
  import opened Schedules
  import opened Conservation
  import opened Planner
  import opened PlannerProofs
  import opened Receipts
  import opened Faults
  import opened CProgram
  import opened Worker
  import opened WorkerProofs
  import opened WorkerVerdicts
  import A = Arithmetic
  import K = Kernels
  import P = Portfolio

  const PORTFOLIO_LIMITS := Limits(0, 64, 0, 192, false)

  /** Everything runs on C11 in host memory. */
  function HostDeployment(g: Graph): Deployment {
    Deployment(HOST, map[C11 := HOST], seq(|g.operations|, _ => C11))
  }

  function HostContext(g: Graph): Context {
    Context(g, HostDeployment(g), MAX_EVENT_INPUTS, PORTFOLIO_LIMITS)
  }

  lemma HostAssigned(g: Graph)
    ensures Assigned(HostContext(g))
  {
  }

  /** With one address space there is nothing to copy. */
  lemma HostStepsStayOnHost(g: Graph, buffers: seq<Buffer>, steps: seq<Event>)
    requires Assigned(HostContext(g)) && InspectBuffers(HostContext(g), buffers).Ok?
    requires InspectSteps(HostContext(g), buffers, steps).Ok?
    ensures CopyBytes(buffers, steps) == 0
    ensures forall i | 0 <= i < |steps| && steps[i].kind == Execute :: steps[i].backend == C11
  {
    forall i | 0 <= i < |steps|
      ensures steps[i].kind != Copy && (steps[i].kind == Execute ==> steps[i].backend == C11)
    {
      StepOfAccepted(HostContext(g), buffers, steps, i);
      HostStep(g, buffers, InspectSteps(HostContext(g), buffers, steps[..i]).value, i, steps[i]);
    }
    NoCopyBytes(buffers, steps);
  }

  lemma {:induction false} NoCopyBytes(buffers: seq<Buffer>, steps: seq<Event>)
    requires forall i | 0 <= i < |steps| :: steps[i].kind != Copy
    ensures CopyBytes(buffers, steps) == 0
  {
    if steps != [] {
      NoCopyBytes(buffers, steps[..|steps| - 1]);
    }
  }

  lemma HostStep(g: Graph, buffers: seq<Buffer>, st: Inspection, index: nat, e: Event)
    requires Assigned(HostContext(g)) && InspectBuffers(HostContext(g), buffers).Ok?
    requires InspectStep(HostContext(g), buffers, st, index, e).Ok?
    ensures e.kind != Copy && (e.kind == Execute ==> e.backend == C11)
  {
    AcceptedStepEffect(HostContext(g), buffers, st, index, e);
    if e.kind == Copy {
      HostBuffer(g, buffers, e.inputs[0]);
      HostBuffer(g, buffers, e.outputs[0]);
    }
  }

  lemma HostBuffer(g: Graph, buffers: seq<Buffer>, slot: int)
    requires InspectBuffers(HostContext(g), buffers).Ok? && 0 <= slot < |buffers|
    ensures buffers[slot].space == HOST
  {
    assert InspectBuffer(HostContext(g), buffers[slot]).Ok?;
  }

  lemma HostPlanIsCompiled(g: Graph, p: Plan)
    requires SingleAssignment(g) && PositiveShapes(g) && g.operations != []
    requires Assigned(HostContext(g)) && Accepted(HostContext(g), p)
    ensures Compiled(HostContext(g), p)
  {
    HostStepsStayOnHost(g, p.buffers, p.steps);
  }

  // ----- The portfolio's settings -----

  /** One input vector of a case. */
  datatype Vector = Vector(a: Words, b: Words, weights: Words)

  predicate VectorShaped(rows: nat, inner: nat, columns: nat, v: Vector) {
    && |v.a| == K.Area(rows, inner) && |v.b| == K.Area(inner, columns) && |v.weights| == K.Area(columns, inner)
  }

  /** The constants embedded beside a worker: the vector, and the oracle's outputs for it. */
  function PortfolioSetting(ops: A.Ops<Word>, family: P.Family, rows: nat, inner: nat, columns: nat, v: Vector,
                            fault: nat): Setting
    requires VectorShaped(rows, inner, columns, v)
  {
    var g := P.FamilyGraph(family, rows, inner, columns);
    var r := P.Reference(ops, family, rows, inner, columns, v.a, v.b, v.weights);
    Setting(P.KernelSemantics(ops, g), P.NamedInputs(v.a, v.b, v.weights),
            (t: Tensor) => if t == P.ROW_SUM then r.rowSum else if t == P.RAW && r.raw.Some? then r.raw.value else [],
            fault)
  }

  lemma AreaOfShape(m: nat, n: nat)
    ensures Prod([m, n]) == K.Area(m, n) && Bytes([m, n]) / 4 == K.Area(m, n)
  {
    K.FlatIsProduct(m, 0, n);
    assert [m, n][1..] == [n] && [n][1..] == [];
    assert Prod([n]) == n;
  }

  lemma LengthOfShape(m: nat)
    ensures Prod([m]) == m && Bytes([m]) / 4 == m
  {
    assert [m][1..] == [];
  }

  lemma FamilyExtents(family: P.Family, rows: nat, inner: nat, columns: nat)
    ensures
      var g := P.FamilyGraph(family, rows, inner, columns);
      && WordCount(g, P.A) == WordCount(g, P.LEFT) == WordCount(g, P.SECOND) == K.Area(rows, inner)
      && WordCount(g, P.B) == WordCount(g, P.RIGHT) == K.Area(inner, columns)
      && WordCount(g, P.PROJECTION) == WordCount(g, P.ACTIVATED) == K.Area(rows, columns)
      && WordCount(g, P.WEIGHTS) == K.Area(columns, inner)
      && WordCount(g, P.ROW_SUM) == WordCount(g, P.RAW) == rows
  {
    AreaOfShape(rows, inner);
    AreaOfShape(inner, columns);
    AreaOfShape(rows, columns);
    AreaOfShape(columns, inner);
    LengthOfShape(rows);
  }

  lemma FamilyPositive(family: P.Family, rows: nat, inner: nat, columns: nat)
    requires rows > 0 && inner > 0 && columns > 0
    ensures PositiveShapes(P.FamilyGraph(family, rows, inner, columns))
  {
    AreaOfShape(rows, inner);
    AreaOfShape(inner, columns);
    AreaOfShape(rows, columns);
    AreaOfShape(columns, inner);
    LengthOfShape(rows);
    assert K.Area(rows, inner) >= inner && K.Area(inner, columns) >= columns;
    assert K.Area(rows, columns) >= columns && K.Area(columns, inner) >= inner;
  }

  /** Kernels of the family on operands of the right extents fill their outputs. */
  lemma FamilyKernelsSized(ops: A.Ops<Word>, family: P.Family, rows: nat, inner: nat, columns: nat, i: nat,
                           args: seq<Words>)
    requires
      var g := P.FamilyGraph(family, rows, inner, columns);
      i < |g.operations| && OperandsSized(g, i, args)
    ensures
      var g := P.FamilyGraph(family, rows, inner, columns);
      |P.OperationValue(ops, g, i, args)| == WordCount(g, g.operations[i].output)
  {
    FamilyExtents(family, rows, inner, columns);
  }

  lemma FamilyInputs(family: P.Family, rows: nat, inner: nat, columns: nat)
    ensures ExternalInputs(P.FamilyGraph(family, rows, inner, columns)) <= {P.A, P.B, P.WEIGHTS}
  {
    var ops := P.FamilyOperations(family);
    if family == P.ChainFamily || family == P.FanoutFamily {
      assert ops[0].output == P.PROJECTION && ops[1].output == P.ACTIVATED;
    } else {
      assert ops[0].output == P.LEFT && ops[1].output == P.RIGHT && ops[2].output == P.PROJECTION;
      if family == P.DiamondFamily {
        assert ops[3].output == P.ACTIVATED && ops[4].output == P.SECOND;
      }
    }
  }

  lemma InputSized(family: P.Family, rows: nat, inner: nat, columns: nat, v: Vector, t: Tensor)
    requires VectorShaped(rows, inner, columns, v)
    requires t in ExternalInputs(P.FamilyGraph(family, rows, inner, columns))
    ensures |P.NamedInputs(v.a, v.b, v.weights)(t)| == WordCount(P.FamilyGraph(family, rows, inner, columns), t)
  {
    FamilyInputs(family, rows, inner, columns);
    FamilyExtents(family, rows, inner, columns);
  }

  lemma OutputSized(ops: A.Ops<Word>, family: P.Family, rows: nat, inner: nat, columns: nat, v: Vector, fault: nat,
                    t: Tensor)
    requires VectorShaped(rows, inner, columns, v)
    requires t in Terminals(P.FamilyGraph(family, rows, inner, columns))
    ensures |PortfolioSetting(ops, family, rows, inner, columns, v, fault).expected(t)|
         == WordCount(P.FamilyGraph(family, rows, inner, columns), t)
  {
    P.TerminalsOf(family, rows, inner, columns);
    FamilyExtents(family, rows, inner, columns);
  }

  lemma FamilySized(ops: A.Ops<Word>, family: P.Family, rows: nat, inner: nat, columns: nat, v: Vector, fault: nat)
    requires VectorShaped(rows, inner, columns, v)
    ensures
      var g := P.FamilyGraph(family, rows, inner, columns);
      SizedSetting(g, PortfolioSetting(ops, family, rows, inner, columns, v, fault))
  {
    var g := P.FamilyGraph(family, rows, inner, columns);
    var s := PortfolioSetting(ops, family, rows, inner, columns, v, fault);
    forall i: nat, args: seq<Words> | i < |g.operations| && OperandsSized(g, i, args)
      ensures |s.sem(i, args)| == WordCount(g, g.operations[i].output)
    {
      FamilyKernelsSized(ops, family, rows, inner, columns, i, args);
    }
    forall t | t in ExternalInputs(g)
      ensures |s.inputs(t)| == WordCount(g, t)
    {
      InputSized(family, rows, inner, columns, v, t);
    }
    forall t | t in Terminals(g)
      ensures |s.expected(t)| == WordCount(g, t)
    {
      OutputSized(ops, family, rows, inner, columns, v, fault, t);
    }
  }

  /** The oracle's constants are the graph's values. */
  lemma FamilyHonest(ops: A.Ops<Word>, family: P.Family, rows: nat, inner: nat, columns: nat, v: Vector, fault: nat)
    requires VectorShaped(rows, inner, columns, v)
    ensures
      Honest(P.FamilyGraph(family, rows, inner, columns), PortfolioSetting(ops, family, rows, inner, columns, v, fault))
  {
    P.OracleIsGraph(ops, family, rows, inner, columns, v.a, v.b, v.weights);
  }

  // ----- What the worker finds fine -----

  /** Every operation's result is zero or normal. */
  ghost predicate NormalResults(g: Graph, s: Setting) {
    forall i | 0 <= i < |g.operations| :: AllNormal(Final(g, s, g.operations[i].output))
  }

  lemma {:induction false} SameWordsMatch(ws: Words)
    requires AllNormal(ws)
    ensures MatchLength(ws, ws) == |ws|
  {
    if ws != [] {
      assert forall i | 0 <= i < |ws| - 1 :: ws[1..][i] == ws[i + 1];
      SameWordsMatch(ws[1..]);
      assert MatchesWord(ws[0], ws[0]);
    }
  }

  lemma MatchingIsNormal(ws: Words)
    ensures MatchLength(ws, ws) == |ws| <==> AllNormal(ws)
  {
    if AllNormal(ws) {
      SameWordsMatch(ws);
    }
  }

  /** The value an event computes or publishes is zero or normal. */
  ghost predicate NormalEvent(g: Graph, buffers: seq<Buffer>, s: Setting, e: Event)
    requires WellShapedEvent(buffers, e)
  {
    && (e.kind == Execute ==> AllNormal(Final(g, s, buffers[e.outputs[0]].tensor)))
    && (e.kind == PublishOutput ==> AllNormal(Final(g, s, buffers[e.inputs[0]].tensor)))
  }

  ghost predicate NormalEvents(g: Graph, buffers: seq<Buffer>, s: Setting, events: seq<Event>)
    requires WellShaped(buffers, events)
  {
    forall i | 0 <= i < |events| :: NormalEvent(g, buffers, s, events[i])
  }

  /** Constants that are the graph's values. */
  ghost predicate Honest(g: Graph, s: Setting) {
    forall t | t in Terminals(g) :: s.expected(t) == Final(g, s, t)
  }

  /** Against such constants, checks pass exactly on normal values. */
  lemma FineIffNormal(g: Graph, buffers: seq<Buffer>, s: Setting, events: seq<Event>)
    requires WellShaped(buffers, events) && PublishesTerminals(g, buffers, events) && Honest(g, s)
    ensures AllFine(g, buffers, s, events) <==> NormalEvents(g, buffers, s, events)
  {
    forall i | 0 <= i < |events|
      ensures FineEvent(g, buffers, s, events[i]) <==> NormalEvent(g, buffers, s, events[i])
    {
      if events[i].kind == PublishOutput {
        MatchingIsNormal(Final(g, s, buffers[events[i].inputs[0]].tensor));
      }
    }
  }

  /** On a whole accepted plan, that is every operation's result. */
  lemma PlanNormal(c: Context, p: Plan, s: Setting)
    requires Assigned(c) && Accepted(c, p) && WellShaped(p.buffers, p.steps)
    ensures NormalEvents(c.graph, p.buffers, s, p.steps) <==> NormalResults(c.graph, s)
  {
    forall i | 0 <= i < |c.graph.operations|
      ensures NormalEvents(c.graph, p.buffers, s, p.steps)
              ==> AllNormal(Final(c.graph, s, c.graph.operations[i].output))
    {
      var n := ExecutionOf(c, p.buffers, p.steps, i);
      StepOfAccepted(c, p.buffers, p.steps, n);
      ExecuteShape(c, p, InspectSteps(c, p.buffers, p.steps[..n]).value, n, p.steps[n]);
      assert NormalEvents(c.graph, p.buffers, s, p.steps) ==> NormalEvent(c.graph, p.buffers, s, p.steps[n]);
    }
    forall n | 0 <= n < |p.steps|
      ensures NormalResults(c.graph, s) ==> NormalEvent(c.graph, p.buffers, s, p.steps[n])
    {
      ResultOfEvent(c, p, s, n);
    }
  }

  lemma ResultOfEvent(c: Context, p: Plan, s: Setting, n: nat)
    requires Assigned(c) && Accepted(c, p) && n < |p.steps| && WellShapedEvent(p.buffers, p.steps[n])
    ensures NormalResults(c.graph, s) ==> NormalEvent(c.graph, p.buffers, s, p.steps[n])
  {
    StepOfAccepted(c, p.buffers, p.steps, n);
    var insp := InspectSteps(c, p.buffers, p.steps[..n]).value;
    var e := p.steps[n];
    if e.kind == Execute {
      ExecuteShape(c, p, insp, n, e);
    } else if e.kind == PublishOutput {
      PublishShape(c, p, insp, n, e);
      var i :| 0 <= i < |c.graph.operations| && c.graph.operations[i].output == p.buffers[e.inputs[0]].tensor;
    }
  }

  /** Only events of the schedule take effect. */
  lemma {:induction false} RanFromSteps(fault: nat, steps: seq<Event>)
    ensures forall e | e in RanOf(RunEvents(fault, steps)) :: e in steps
  {
    if steps != [] {
      var n := |steps| - 1;
      RanFromSteps(fault, steps[..n]);
      assert forall e | e in steps[..n] :: e in steps;
    }
  }

  lemma ReceiptPublishesTerminals(c: Context, p: Plan, fault: nat)
    requires Compiled(c, p) && 1 <= fault <= 3
    ensures WellShaped(p.buffers, RunPasses(p.steps, fault, PASSES).ran)
    ensures PublishesTerminals(c.graph, p.buffers, RunPasses(p.steps, fault, PASSES).ran)
  {
    CompiledShape(c, p);
    ReceiptCode(c, p, fault);
    FirstPassOnly(p.steps, fault);
    RanFromSteps(fault, p.steps);
    var ran := RunPasses(p.steps, fault, PASSES).ran;
    forall i | 0 <= i < |ran|
      ensures WellShapedEvent(p.buffers, ran[i])
      ensures ran[i].kind == PublishOutput ==> p.buffers[ran[i].inputs[0]].tensor in Terminals(c.graph)
    {
      assert ran[i] in p.steps;
      var j :| 0 <= j < |p.steps| && p.steps[j] == ran[i];
      assert WellShapedEvent(p.buffers, p.steps[j]);
    }
  }

  // ----- The exit code of a portfolio worker -----

  /** When a worker's fault, or its success, gets to show: without a fault all results of the three
      vectors are zero or normal; with one, the values of the events that take effect, on the first vector. */
  ghost predicate NormalUntilFault(g: Graph, p: Plan, vectors: Vectors, fault: nat)
    requires WellShaped(p.buffers, RunPasses(p.steps, fault, PASSES).ran)
  {
    if fault == 0 then forall v | 0 <= v < INPUT_CASES :: NormalResults(g, vectors(v))
    else NormalEvents(g, p.buffers, vectors(0), RunPasses(p.steps, fault, PASSES).ran)
  }

  lemma ShowsIffNormal(c: Context, p: Plan, vectors: Vectors, fault: nat)
    requires Compiled(c, p) && fault <= 3 && forall v: nat :: Honest(c.graph, vectors(v))
    requires WellShaped(p.buffers, p.steps) && WellShaped(p.buffers, RunPasses(p.steps, fault, PASSES).ran)
    ensures FaultShows(c.graph, p, vectors, fault) <==> NormalUntilFault(c.graph, p, vectors, fault)
  {
    CompiledShape(c, p);
    if fault == 0 {
      SixPassesThreeVectors(c.graph, p, vectors);
      forall v: nat
        ensures AllFine(c.graph, p.buffers, vectors(v), p.steps) <==> NormalResults(c.graph, vectors(v))
      {
        FineIffNormal(c.graph, p.buffers, vectors(v), p.steps);
        PlanNormal(c, p, vectors(v));
      }
    } else {
      ReceiptPublishesTerminals(c, p, fault);
      FineIffNormal(c.graph, p.buffers, vectors(0), RunPasses(p.steps, fault, PASSES).ran);
    }
  }

  lemma HonestIsDetectable(c: Context, p: Plan, s: Setting)
    requires Compiled(c, p) && SizedSetting(c.graph, s) && Honest(c.graph, s)
    ensures AllDetectable(c.graph, s)
  {
    AcceptedGraphReadsBackward(c, p);
    forall t | t in Terminals(c.graph)
      ensures Detectable(c.graph, s, t)
    {
      TerminalSized(c.graph, s, t);
      TerminalListed(c, p, t);
      CorruptionSeen(c.graph, s, t);
    }
  }

  /** A terminal has words to corrupt. */
  lemma TerminalListed(c: Context, p: Plan, t: Tensor)
    requires Compiled(c, p) && t in Terminals(c.graph)
    ensures WordCount(c.graph, t) > 0
  {
    AcceptedHoldsNeeded(c, p, t, c.deployment.host);
    var i :| 0 <= i < |p.buffers| && p.buffers[i].tensor == t && p.buffers[i].space == c.deployment.host;
    SlotExtent(c, p, i);
  }

  /** The capstone. Take any family at any positive shape, any accepted host plan of its graph (the
      planner's is one), any kernels' arithmetic, any three input vectors, any fault and any initial slots.
      The generated worker, run against the oracle's constants, returns the fault's own code (0 without
      one) exactly when no value is lost before the fault shows, and 2 otherwise. */
  lemma PortfolioWorkerCode(ops: A.Ops<Word>, family: P.Family, rows: nat, inner: nat, columns: nat, p: Plan,
                            inputs: nat -> Vector, vectors: Vectors, fault: nat, slots: seq<Words>, start: WorkerCounts)
    requires rows > 0 && inner > 0 && columns > 0 && fault <= 3
    requires
      var c := HostContext(P.FamilyGraph(family, rows, inner, columns));
      Assigned(c) && Accepted(c, p)
    requires SizesNonnegative(p.buffers) && SizedSlots(p, slots)
    requires forall v: nat :: VectorShaped(rows, inner, columns, inputs(v))
    requires forall v: nat :: vectors(v) == PortfolioSetting(ops, family, rows, inner, columns, inputs(v), fault)
    ensures
      var g := P.FamilyGraph(family, rows, inner, columns);
      && Compiled(HostContext(g), p)
      && WellShaped(p.buffers, RunPasses(p.steps, fault, PASSES).ran)
      && var exit := RunCase(Emitted(HostContext(g), p), vectors, slots, start, PASSES);
         && !exit.Undefined?
         && CaseCode(exit) == if NormalUntilFault(g, p, vectors, fault) then fault else 2
  {
    var g := P.FamilyGraph(family, rows, inner, columns);
    var c := HostContext(g);
    P.FamilyIsAGraph(family, rows, inner, columns);
    FamilyPositive(family, rows, inner, columns);
    HostPlanIsCompiled(g, p);
    forall v: nat
      ensures SizedSetting(g, vectors(v)) && vectors(v).fault == fault && Honest(g, vectors(v))
    {
      FamilySized(ops, family, rows, inner, columns, inputs(v), fault);
      FamilyHonest(ops, family, rows, inner, columns, inputs(v), fault);
    }
    HonestIsDetectable(c, p, vectors(0));
    WorkerRefinesReceipts(c, p, vectors, fault, slots, start);
    ShowsIffNormal(c, p, vectors, fault);
  }

  /** Six passes are two replays of three vectors. */
  lemma SixPassesThreeVectors(g: Graph, p: Plan, vectors: Vectors)
    requires WellShaped(p.buffers, p.steps)
    ensures VectorsFine(g, p, vectors, PASSES)
       <==> forall v | 0 <= v < INPUT_CASES :: AllFine(g, p.buffers, vectors(v), p.steps)
  {
    if VectorsFine(g, p, vectors, PASSES) {
      assert AllFine(g, p.buffers, vectors(0 / REPLAYS), p.steps);
      assert AllFine(g, p.buffers, vectors(2 / REPLAYS), p.steps);
      assert AllFine(g, p.buffers, vectors(4 / REPLAYS), p.steps);
    }
  }

  // ----- The planner never refuses a family -----

  lemma HostGuards(family: P.Family, rows: nat, inner: nat, columns: nat)
    ensures
      var g := P.FamilyGraph(family, rows, inner, columns);
      Guards(g, HostDeployment(g)).Ok?
  {
    var g := P.FamilyGraph(family, rows, inner, columns);
    P.FamilyIsAGraph(family, rows, inner, columns);
    FewPorts(g.operations);
    var d := HostDeployment(g);
    assert d.assignments[0] == C11;
    assert d.backends.Keys == (set i | 0 <= i < |d.assignments| :: d.assignments[i]);
  }

  lemma {:induction false} FewPorts(ops: seq<Operation>)
    requires forall i | 0 <= i < |ops| :: |ops[i].inputs| <= 2
    ensures Ports(ops) <= 3 * |ops|
  {
    if ops != [] {
      FewPorts(ops[..|ops| - 1]);
    }
  }

  /** One host buffer for each of the first n tensors: all a host-only plan can need. */
  function OnHost(g: Graph, n: nat): (buffers: seq<Buffer>)
    requires n <= |g.shapes|
    ensures |buffers| == n
    ensures forall t | 0 <= t < n :: buffers[t] == Buffer(t, HOST, g.shapes[t], Bytes(g.shapes[t]))
  {
    seq(n, t requires 0 <= t < n => Buffer(t, HOST, g.shapes[t], Bytes(g.shapes[t])))
  }

  lemma OneMore(n: nat, cap: nat)
    requires n > 0
    ensures n * cap == (n - 1) * cap + cap
  {
  }

  lemma {:induction false} OnHostBytes(g: Graph, n: nat, cap: nat)
    requires n <= |g.shapes| && forall t | 0 <= t < n :: Bytes(g.shapes[t]) <= cap
    ensures TotalBytes(OnHost(g, n)) <= n * cap
  {
    if n > 0 {
      OnHostBytes(g, n - 1, cap);
      assert OnHost(g, n)[..n - 1] == OnHost(g, n - 1);
      OneMore(n, cap);
    }
  }

  lemma NeededHere(g: Graph, t: Tensor, space: Space)
    requires TensorsListed(g) && Needed(HostContext(g), t, space)
    ensures t < |g.shapes| && space == HOST
  {
  }

  lemma NeededOnHost(g: Graph, buffers: seq<Buffer>)
    requires TensorsListed(g) && DistinctPairs(buffers) && SizedByTensor(g, buffers)
    requires forall i | 0 <= i < |buffers| :: (buffers[i].tensor, buffers[i].space) in NeededPairs(HostContext(g))
    ensures |buffers| <= |g.shapes| && TotalBytes(buffers) <= TotalBytes(OnHost(g, |g.shapes|))
  {
    var all := OnHost(g, |g.shapes|);
    forall i | 0 <= i < |buffers|
      ensures Holds(all, buffers[i].tensor, buffers[i].space)
    {
      NeededHere(g, buffers[i].tensor, buffers[i].space);
      assert all[buffers[i].tensor].tensor == buffers[i].tensor;
    }
    DistinctPairsCheapest(g, buffers, all);
  }

  lemma FamilyBytes(family: P.Family, rows: nat, inner: nat, columns: nat)
    requires P.Dimension(rows) && P.Dimension(inner) && P.Dimension(columns)
    ensures
      var g := P.FamilyGraph(family, rows, inner, columns);
      TotalBytes(OnHost(g, |g.shapes|)) <= 163840
  {
    var g := P.FamilyGraph(family, rows, inner, columns);
    SquareFits(rows, inner);
    SquareFits(inner, columns);
    SquareFits(rows, columns);
    SquareFits(columns, inner);
    LengthOfShape(rows);
    OnHostBytes(g, |g.shapes|, 16384);
  }

  lemma SquareFits(m: nat, n: nat)
    requires m <= P.MAX_DIMENSION && n <= P.MAX_DIMENSION
    ensures Bytes([m, n]) <= 16384
  {
    AreaOfShape(m, n);
    AreaFits(m, n);
  }

  lemma {:induction false} AreaFits(m: nat, n: nat)
    requires n <= P.MAX_DIMENSION
    ensures K.Area(m, n) <= P.MAX_DIMENSION * m
  {
    if m > 0 {
      AreaFits(m - 1, n);
    }
  }

  /** No family's host plan breaks the planner's budget. */
  lemma HostWithinBudget(family: P.Family, rows: nat, inner: nat, columns: nat)
    requires P.Dimension(rows) && P.Dimension(inner) && P.Dimension(columns)
    ensures
      var g := P.FamilyGraph(family, rows, inner, columns);
      !BudgetBroken(g, NeededPairs(HostContext(g)))
  {
    var g := P.FamilyGraph(family, rows, inner, columns);
    PlannerScope(family, rows, inner, columns);
    FamilyBytes(family, rows, inner, columns);
    if BudgetBroken(g, NeededPairs(HostContext(g))) {
      var buffers :| OverBudget(g, NeededPairs(HostContext(g)), buffers);
      NeededOnHost(g, buffers);
      assert false;
    }
  }

  lemma HostPlannable(family: P.Family, rows: nat, inner: nat, columns: nat)
    requires P.Dimension(rows) && P.Dimension(inner) && P.Dimension(columns)
    ensures
      var c := HostContext(P.FamilyGraph(family, rows, inner, columns));
      Assigned(c) && Admissible(c.graph, c.deployment) && !Unaffordable(c)
  {
    var c := HostContext(P.FamilyGraph(family, rows, inner, columns));
    HostAssigned(c.graph);
    HostGuards(family, rows, inner, columns);
    HostWithinBudget(family, rows, inner, columns);
    GuardsMean(c.graph, c.deployment);
    BrokenMeans(c);
  }

  /** A planned family is well within the portfolio's limits. */
  lemma HostPlanIsSmall(family: P.Family, rows: nat, inner: nat, columns: nat, p: Plan)
    requires WellPlanned(HostContext(P.FamilyGraph(family, rows, inner, columns)), p)
    ensures WithinLimits(PORTFOLIO_LIMITS, p)
  {
    var g := P.FamilyGraph(family, rows, inner, columns);
    var roomy := Limits(0, |p.buffers|, 0, |p.steps|, false);
    var c' := HostContext(g).(limits := roomy);
    PlannerScope(family, rows, inner, columns);
    PlannedIsAccepted(HostContext(g), p, roomy);
    AcceptedSized(c', p);
    NeededOnHost(g, p.buffers);
    AcceptedPlanConserves(c', p);
    P.TerminalsOf(family, rows, inner, columns);
    assert |{P.RAW, P.ROW_SUM}| <= 2;
  }

  /** A planned family is inlined into a worker. */
  lemma HostPlanEmits(family: P.Family, rows: nat, inner: nat, columns: nat, p: Plan, outputs: nat)
    requires rows > 0 && inner > 0 && columns > 0
    requires WellPlanned(HostContext(P.FamilyGraph(family, rows, inner, columns)), p)
    requires outputs == if family == P.FanoutFamily || family == P.DiamondFamily then 2 else 1
    ensures
      var c := HostContext(P.FamilyGraph(family, rows, inner, columns));
      && Compiled(c, p) && WellShaped(p.buffers, p.steps) && SizesNonnegative(p.buffers)
      && WorkerLines(p, outputs) == Ok(Emitted(c, p))
  {
    var g := P.FamilyGraph(family, rows, inner, columns);
    var c := HostContext(g);
    HostPlanIsSmall(family, rows, inner, columns, p);
    PlannedIsAccepted(c, p, PORTFOLIO_LIMITS);
    assert c.(limits := PORTFOLIO_LIMITS) == c;
    P.FamilyIsAGraph(family, rows, inner, columns);
    FamilyPositive(family, rows, inner, columns);
    HostPlanIsCompiled(g, p);
    WorkerEmitted(c, p);
    P.TerminalsOf(family, rows, inner, columns);
    assert P.RAW != P.ROW_SUM && |{P.RAW, P.ROW_SUM}| == 2;
  }

  /** The path from a family's name to its worker's lines: it refuses only the shapes the graph's
      constructor refuses. */
  method BuildWorker(family: P.Family, rows: nat, inner: nat, columns: nat) returns (r: Result<(Plan, seq<Line>)>)
    ensures r.Ok? <==> 1 <= rows <= 64 && 1 <= inner <= 64 && 1 <= columns <= 64
    ensures r.Ok? ==>
              var g := P.FamilyGraph(family, rows, inner, columns);
              && Compiled(HostContext(g), r.value.0)
              && r.value.1 == Emitted(HostContext(g), r.value.0)
  {
    var g :- P.GraphFor(family, rows, inner, columns);
    var c := HostContext(g);
    HostAssigned(g);
    PlannerScope(family, rows, inner, columns);
    HostPlannable(family, rows, inner, columns);
    var planned := PlanResidency(c);
    var p := planned.value;
    var outputs := if family == P.FanoutFamily || family == P.DiamondFamily then 2 else 1;
    HostPlanEmits(family, rows, inner, columns, p, outputs);
    var emitted := EmitWorker(p, outputs);
    return Ok((p, emitted.value));
  }

  lemma PlannerScope(family: P.Family, rows: nat, inner: nat, columns: nat)
    ensures
      var g := P.FamilyGraph(family, rows, inner, columns);
      && TensorsListed(g)
      && forall i | 0 <= i < |g.operations| :: |g.operations[i].inputs| <= MAX_EVENT_INPUTS
  {
  }
}
