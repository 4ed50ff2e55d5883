/**
  Families under any placement on the two targets (examples/bounded_dag_compiler.py, compile_case): a
  profile of one letter an operation, c for the host and g for the device. The planner returns a plan
  for every one of them.
 */
module Placements {
  import opened Wrappers
  import opened Graphs
  import opened Residency
  import opened Conservation
  import opened Planner
  import opened PlannerProofs
  import opened Receipts
  import opened Tables
  import opened PlannedTables
  import E = EndToEnd
  import P = Portfolio
  import TableMachine

  predicate Profile(profile: string, n: nat) {
    |profile| == n && forall i | 0 <= i < n :: profile[i] == 'c' || profile[i] == 'g'
  }

  function Target(letter: char): Backend {
    if letter == 'c' then C11 else CUDA_SM86
  }

  function Assignments(profile: string): (backends: seq<Backend>)
    ensures |backends| == |profile| && forall i | 0 <= i < |profile| :: backends[i] == Target(profile[i])
  {
    seq(|profile|, i requires 0 <= i < |profile| => Target(profile[i]))
  }

  /** The spaces of the targets that are used. */
  function PlacedDeployment(profile: string): Deployment {
    Deployment(HOST, map b | b in Assignments(profile) :: if b == C11 then HOST else ACCELERATOR, Assignments(profile))
  }

  function PlacedContext(g: Graph, profile: string): Context {
    Context(g, PlacedDeployment(profile), MAX_EVENT_INPUTS, E.PORTFOLIO_LIMITS)
  }

  lemma PlacedAssigned(g: Graph, profile: string)
    requires Profile(profile, |g.operations|)
    ensures Assigned(PlacedContext(g, profile)) && StandardDeployment(PlacedDeployment(profile))
    ensures forall i | 0 <= i < |profile| ::
              SpaceOf(PlacedContext(g, profile), i) == if profile[i] == 'c' then "host" else "accelerator"
  {
    var d := PlacedDeployment(profile);
    assert forall i | 0 <= i < |profile| :: d.assignments[i] in Assignments(profile);
  }

  lemma UsedTargets(profile: string)
    requires profile != []
    ensures 1 <= |PlacedDeployment(profile).backends| <= 2
  {
    var d := PlacedDeployment(profile);
    assert Assignments(profile)[0] in d.backends;
    assert d.backends.Keys <= {C11, CUDA_SM86};
    SubsetAtMost(d.backends.Keys, {C11, CUDA_SM86});
    assert |{C11, CUDA_SM86}| <= 2;
    assert |d.backends| == |d.backends.Keys|;
  }

  lemma {:induction false} SubsetAtMost<T>(a: set<T>, b: set<T>)
    requires a <= b
    ensures |a| <= |b|
  {
    if a != {} {
      var x :| x in a;
      SubsetAtMost(a - {x}, b - {x});
    }
  }

  /** Every family under every profile is what the planner asks for. */
  lemma FamilyAdmissible(family: P.Family, rows: nat, inner: nat, columns: nat, profile: string)
    requires Profile(profile, |P.FamilyOperations(family)|)
    ensures Admissible(P.FamilyGraph(family, rows, inner, columns), PlacedDeployment(profile))
  {
    var g := P.FamilyGraph(family, rows, inner, columns);
    P.FamilyIsAGraph(family, rows, inner, columns);
    E.FewPorts(g.operations);
    PortsCounted(g.operations);
    PlacedAssigned(g, profile);
    UsedTargets(profile);
  }

  // ----- No placement breaks the budget -----

  /** One buffer for every tensor in every space. */
  function Everywhere(g: Graph): (buffers: seq<Buffer>)
    ensures |buffers| == 2 * |g.shapes|
    ensures forall t | 0 <= t < |g.shapes| ::
              && buffers[t] == Buffer(t, HOST, g.shapes[t], Bytes(g.shapes[t]))
              && buffers[|g.shapes| + t] == Buffer(t, ACCELERATOR, g.shapes[t], Bytes(g.shapes[t]))
  {
    E.OnHost(g, |g.shapes|)
    + seq(|g.shapes|, t requires 0 <= t < |g.shapes| => Buffer(t, ACCELERATOR, g.shapes[t], Bytes(g.shapes[t])))
  }

  lemma {:induction false} BytesAtMost(buffers: seq<Buffer>, cap: nat)
    requires forall i | 0 <= i < |buffers| :: buffers[i].bytes <= cap
    ensures TotalBytes(buffers) <= |buffers| * cap
  {
    if buffers != [] {
      BytesAtMost(buffers[..|buffers| - 1], cap);
      E.OneMore(|buffers|, cap);
    }
  }

  lemma NeededPlaced(g: Graph, profile: string, t: Tensor, space: Space)
    requires TensorsListed(g) && Profile(profile, |g.operations|)
    requires Assigned(PlacedContext(g, profile)) && Needed(PlacedContext(g, profile), t, space)
    ensures t < |g.shapes| && (space == HOST || space == ACCELERATOR)
  {
    PlacedAssigned(g, profile);
  }

  lemma HeldEverywhere(g: Graph, t: Tensor, space: Space)
    requires t < |g.shapes| && (space == HOST || space == ACCELERATOR)
    ensures Holds(Everywhere(g), t, space)
  {
    var all := Everywhere(g);
    assert all[t].tensor == t && all[|g.shapes| + t].tensor == t;
  }

  lemma EverywhereSized(g: Graph)
    ensures SizedByTensor(g, Everywhere(g))
  {
    var all := Everywhere(g);
    forall i | 0 <= i < |all|
      ensures all[i].bytes == TensorBytes(g, all[i].tensor)
    {
      var t := if i < |g.shapes| then i else i - |g.shapes|;
      assert all[i].bytes == Bytes(g.shapes[t]);
    }
  }

  lemma NeededEverywhere(g: Graph, profile: string, buffers: seq<Buffer>)
    requires TensorsListed(g) && Profile(profile, |g.operations|) && Assigned(PlacedContext(g, profile))
    requires DistinctPairs(buffers) && SizedByTensor(g, buffers)
    requires forall i | 0 <= i < |buffers| ::
      Needed(PlacedContext(g, profile), buffers[i].tensor, buffers[i].space)
    ensures |buffers| <= 2 * |g.shapes| && TotalBytes(buffers) <= TotalBytes(Everywhere(g))
  {
    forall i | 0 <= i < |buffers|
      ensures Holds(Everywhere(g), buffers[i].tensor, buffers[i].space)
    {
      NeededPlaced(g, profile, buffers[i].tensor, buffers[i].space);
      HeldEverywhere(g, buffers[i].tensor, buffers[i].space);
    }
    EverywhereSized(g);
    DistinctPairsCheapest(g, buffers, Everywhere(g));
  }

  lemma FamilyBuffersSmall(family: P.Family, rows: nat, inner: nat, columns: nat)
    requires 1 <= rows <= 64 && 1 <= inner <= 64 && 1 <= columns <= 64
    ensures
      var g := P.FamilyGraph(family, rows, inner, columns);
      TotalBytes(Everywhere(g)) <= 327680
  {
    var g := P.FamilyGraph(family, rows, inner, columns);
    E.SquareFits(rows, inner);
    E.SquareFits(inner, columns);
    E.SquareFits(rows, columns);
    E.SquareFits(columns, inner);
    E.LengthOfShape(rows);
    var all := Everywhere(g);
    forall i | 0 <= i < |all|
      ensures all[i].bytes <= 16384
    {
      var t := if i < 10 then i else i - 10;
      assert all[i].bytes == Bytes(g.shapes[t]);
    }
    BytesAtMost(all, 16384);
  }

  lemma FamilyAffordable(family: P.Family, rows: nat, inner: nat, columns: nat, profile: string)
    requires 1 <= rows <= 64 && 1 <= inner <= 64 && 1 <= columns <= 64
    requires Profile(profile, |P.FamilyOperations(family)|)
    ensures
      var c := PlacedContext(P.FamilyGraph(family, rows, inner, columns), profile);
      Assigned(c) && !Unaffordable(c)
  {
    var g := P.FamilyGraph(family, rows, inner, columns);
    var c := PlacedContext(g, profile);
    PlacedAssigned(g, profile);
    E.PlannerScope(family, rows, inner, columns);
    FamilyBuffersSmall(family, rows, inner, columns);
    forall buffers: seq<Buffer> | DistinctPairs(buffers) && SizedByTensor(g, buffers)
      && forall i | 0 <= i < |buffers| :: Needed(c, buffers[i].tensor, buffers[i].space)
      ensures |buffers| <= 512 && TotalBytes(buffers) <= 134217728
    {
      NeededEverywhere(g, profile, buffers);
    }
  }

  /** A planned family, wherever its operations run, is within the portfolio's limits. */
  lemma PlacedPlanIsSmall(family: P.Family, rows: nat, inner: nat, columns: nat, profile: string, p: Plan)
    requires Profile(profile, |P.FamilyOperations(family)|)
    requires
      var c := PlacedContext(P.FamilyGraph(family, rows, inner, columns), profile);
      Assigned(c) && WellPlanned(c, p)
    ensures |p.buffers| <= 20 && |p.steps| <= 22
  {
    var g := P.FamilyGraph(family, rows, inner, columns);
    var c := PlacedContext(g, profile);
    var roomy := Limits(0, |p.buffers|, 0, |p.steps|, false);
    E.PlannerScope(family, rows, inner, columns);
    PlannedIsAccepted(c, p, roomy);
    AcceptedSized(c.(limits := roomy), p);
    forall i | 0 <= i < |p.buffers|
      ensures Needed(c, p.buffers[i].tensor, p.buffers[i].space)
    {
      assert (p.buffers[i].tensor, p.buffers[i].space) in NeededPairs(c);
    }
    NeededEverywhere(g, profile, p.buffers);
    AcceptedPlanConserves(c.(limits := roomy), p);
    P.TerminalsOf(family, rows, inner, columns);
    assert |{P.RAW, P.ROW_SUM}| <= 2;
  }

  /** The compiler up to its plan: it refuses exactly bad shapes and bad profiles. */
  method CompileCase(family: P.Family, profile: string, rows: nat, inner: nat, columns: nat)
    returns (r: Result<Plan>)
    ensures r.Ok? <==> && 1 <= rows <= 64 && 1 <= inner <= 64 && 1 <= columns <= 64
                       && |profile| == |P.FamilyOperations(family)|
                       && forall i | 0 <= i < |profile| :: profile[i] == 'c' || profile[i] == 'g'
    ensures r.Ok? ==>
              var c := PlacedContext(P.FamilyGraph(family, rows, inner, columns), profile);
              Assigned(c) && WellPlanned(c, r.value) && Accepted(c, r.value)
  {
    var g :- P.GraphFor(family, rows, inner, columns);
    if |profile| != |g.operations| || exists i :: 0 <= i < |profile| && profile[i] !in "cg" {
      return Err("bounded DAG portfolio placement rejected");
    }
    var c := PlacedContext(g, profile);
    E.PlannerScope(family, rows, inner, columns);
    FamilyAdmissible(family, rows, inner, columns, profile);
    FamilyAffordable(family, rows, inner, columns, profile);
    r := PlanResidency(c);
    PlacedPlanIsSmall(family, rows, inner, columns, profile, r.value);
    PlannedIsAccepted(c, r.value, E.PORTFOLIO_LIMITS);
    assert c.(limits := E.PORTFOLIO_LIMITS) == c;
  }

  lemma FamilyFits(family: P.Family, rows: nat, inner: nat, columns: nat)
    ensures GraphFits(P.FamilyGraph(family, rows, inner, columns))
  {
    var g := P.FamilyGraph(family, rows, inner, columns);
    forall i | 0 <= i < |g.operations|
      ensures PortsMatch(g.operations[i])
    {
    }
  }

  lemma CompiledHeld(family: P.Family, profile: string, rows: nat, inner: nat, columns: nat, p: Plan, c: Context)
    requires c == PlacedContext(P.FamilyGraph(family, rows, inner, columns), profile)
    requires Profile(profile, |P.FamilyOperations(family)|)
    requires Assigned(c) && WellPlanned(c, p)
    requires forall t | 0 <= t < |c.graph.shapes| :: 0 < Bytes(c.graph.shapes[t]) <= 7432
    ensures WorkersHold(c, p)
  {
    PlacedAssigned(c.graph, profile);
    FamilyFits(family, rows, inner, columns);
    PlacedPlanIsSmall(family, rows, inner, columns, profile, p);
  }

  lemma FamilyPlannable(family: P.Family, rows: nat, inner: nat, columns: nat, profile: string)
    requires Profile(profile, |P.FamilyOperations(family)|)
    ensures Plannable(PlacedContext(P.FamilyGraph(family, rows, inner, columns), profile))
  {
    PlacedAssigned(P.FamilyGraph(family, rows, inner, columns), profile);
    E.PlannerScope(family, rows, inner, columns);
    P.FamilyIsAGraph(family, rows, inner, columns);
  }

  /** From the compiler to the workers: any compiled case whose tensors fit the workers' buffers passes
      the C validator, and the workers' counters and reasons are the receipt's, for every fault. */
  lemma CompiledRunsOnWorkers(family: P.Family, profile: string, rows: nat, inner: nat, columns: nat, p: Plan,
                              fault: nat, k: Counter)
    requires 1 <= rows <= 64 && 1 <= inner <= 64 && 1 <= columns <= 64 && fault <= 4
    requires Profile(profile, |P.FamilyOperations(family)|)
    requires
      var c := PlacedContext(P.FamilyGraph(family, rows, inner, columns), profile);
      && Assigned(c) && WellPlanned(c, p)
      && forall t | 0 <= t < |c.graph.shapes| :: 0 < Bytes(c.graph.shapes[t]) <= 7432
    ensures
      var c := PlacedContext(P.FamilyGraph(family, rows, inner, columns), profile);
      && Targeted(c, p.buffers) && HasRows(p.steps)
      && TableAccepts(EncodeGraph(c), EncodeBuffers(p.buffers), EncodeEvents(p.steps))
      && var machine := RunPasses(p.steps, fault, 6);
         var table := TableMachine.RunCases(fault, EncodeGraph(c), EncodeBuffers(p.buffers), EncodeEvents(p.steps), 6);
         && table.reason == machine.reason && WellShaped(p.buffers, machine.ran)
         && Reported(p.buffers, machine, k)
            == if k == CaseRuns then table.caseRuns
               else TableMachine.RowsCount(EncodeBuffers(p.buffers), table.ran, k)
  {
    var c := PlacedContext(P.FamilyGraph(family, rows, inner, columns), profile);
    CompiledHeld(family, profile, rows, inner, columns, p, c);
    FamilyPlannable(family, rows, inner, columns, profile);
    PlannedTableIsValid(c, p);
    PlannedRunsOnWorkers(c, p, fault, k);
  }
}
