/**
  The fan-in workers' residency record and the observation expected under each mutation
  (examples/bounded_native_fanin_workers.py, counts and expected_observation; the seven base counters
  are examples/bounded_native_placements.py's, the filtered schedules
  examples/bounded_native_fanout.py's): thirteen counters scaled by repeats, and schedules cut short
  at the mutated event.
 */
module Observations {
  import opened Wrappers
  import opened Graphs
  import opened Residency
  import opened Schedules
  import opened Conservation
  import R = Receipts
  import F = Faults
  import opened Ledger

  const CUDA := "bounded-cuda"
  const RUNS := 11

  datatype Figure =
    | CompletedSteps | CpuCalls | GpuCalls | UploadCalls | DownloadCalls | UploadBytes | DownloadBytes
    | LeftProducerCalls | RightProducerCalls | JoinCalls | LeftCopyCalls | RightCopyCalls | PublishedOutputs

  /** The tensors the record singles out. */
  datatype Roles = Roles(left: Tensor, right: Tensor, projection: Tensor)

  predicate Distinct(roles: Roles) {
    roles.left != roles.right && roles.left != roles.projection && roles.right != roles.projection
  }

  /** The subscripts counting takes. */
  predicate Countable(buffers: seq<Buffer>, e: Event) {
    && (forall k | 0 <= k < |e.outputs| :: 0 <= e.outputs[k] < |buffers|)
    && (e.kind == Copy ==> e.outputs != [])
  }

  predicate AllCountable(buffers: seq<Buffer>, steps: seq<Event>) {
    forall i | 0 <= i < |steps| :: Countable(buffers, steps[i])
  }

  predicate Writes(buffers: seq<Buffer>, e: Event, t: Tensor)
    requires Countable(buffers, e)
  {
    e.outputs != [] && buffers[e.outputs[0]].tensor == t
  }

  function One(b: bool): int {
    if b then 1 else 0
  }

  /** What one event adds to one figure. */
  function StepFigure(roles: Roles, buffers: seq<Buffer>, e: Event, f: Figure): int
    requires Countable(buffers, e)
  {
    match f
    case CompletedSteps => 1
    case CpuCalls => One(e.kind == Execute && e.backend != CUDA)
    case GpuCalls => One(e.kind == Execute && e.backend == CUDA)
    case UploadCalls => One(e.kind == Copy && buffers[e.outputs[0]].space != HOST)
    case DownloadCalls => One(e.kind == Copy && buffers[e.outputs[0]].space == HOST)
    case UploadBytes =>
      if e.kind == Copy && buffers[e.outputs[0]].space != HOST then buffers[e.outputs[0]].bytes else 0
    case DownloadBytes =>
      if e.kind == Copy && buffers[e.outputs[0]].space == HOST then buffers[e.outputs[0]].bytes else 0
    case LeftProducerCalls => One(e.kind == Execute && Writes(buffers, e, roles.left))
    case RightProducerCalls => One(e.kind == Execute && Writes(buffers, e, roles.right))
    case JoinCalls => One(e.kind == Execute && Writes(buffers, e, roles.projection))
    case LeftCopyCalls => One(e.kind == Copy && Writes(buffers, e, roles.left))
    case RightCopyCalls => One(e.kind == Copy && Writes(buffers, e, roles.right))
    case PublishedOutputs => One(e.kind == PublishOutput)
  }

  /** One traversal. */
  function Figures(roles: Roles, buffers: seq<Buffer>, steps: seq<Event>, f: Figure): int
    requires AllCountable(buffers, steps)
  {
    if steps == [] then 0
    else
      var n := |steps| - 1;
      Figures(roles, buffers, steps[..n], f) + StepFigure(roles, buffers, steps[n], f)
  }

  lemma {:induction false} CompletedIsLength(roles: Roles, buffers: seq<Buffer>, steps: seq<Event>)
    requires AllCountable(buffers, steps)
    ensures Figures(roles, buffers, steps, CompletedSteps) == |steps|
  {
    if steps != [] {
      CompletedIsLength(roles, buffers, steps[..|steps| - 1]);
    }
  }

  // ----- The counting loops -----

  predicate BaseFigure(f: Figure) {
    f in {CompletedSteps, CpuCalls, GpuCalls, UploadCalls, DownloadCalls, UploadBytes, DownloadBytes}
  }

  /** A record of the figures of some traversals of a schedule. */
  ghost predicate Records(count: map<Figure, int>, roles: Roles, buffers: seq<Buffer>, steps: seq<Event>, repeats: int)
    requires AllCountable(buffers, steps)
  {
    forall f: Figure :: f in count && count[f] == repeats * Figures(roles, buffers, steps, f)
  }

  lemma NextFigure(roles: Roles, buffers: seq<Buffer>, steps: seq<Event>, i: nat, f: Figure)
    requires AllCountable(buffers, steps) && i < |steps|
    ensures AllCountable(buffers, steps[..i]) && AllCountable(buffers, steps[..i + 1])
    ensures Figures(roles, buffers, steps[..i + 1], f)
         == Figures(roles, buffers, steps[..i], f) + StepFigure(roles, buffers, steps[i], f)
  {
    assert steps[..i + 1][..i] == steps[..i];
  }

  /** The base counters of one event; the steps were counted beforehand. */
  method BumpBase(count: map<Figure, int>, ghost roles: Roles, buffers: seq<Buffer>, e: Event)
    returns (after: map<Figure, int>)
    requires Countable(buffers, e) && forall f | BaseFigure(f) :: f in count
    ensures forall f | BaseFigure(f) :: f in after && after[f] ==
              if f == CompletedSteps then count[f] else count[f] + StepFigure(roles, buffers, e, f)
  {
    after := count;
    if e.kind == Execute {
      var call := if e.backend == CUDA then GpuCalls else CpuCalls;
      after := after[call := after[call] + 1];
    } else if e.kind == Copy {
      var b := buffers[e.outputs[0]];
      var calls, bytes := if b.space == HOST then DownloadCalls else UploadCalls,
                          if b.space == HOST then DownloadBytes else UploadBytes;
      after := after[calls := after[calls] + 1];
      after := after[bytes := after[bytes] + b.bytes];
    }
  }

  /** The base counters: one traversal counted, then scaled. */
  method PlacementCounts(ghost roles: Roles, buffers: seq<Buffer>, steps: seq<Event>, repeats: int)
    returns (scaled: map<Figure, int>)
    requires AllCountable(buffers, steps)
    ensures forall f | BaseFigure(f) :: f in scaled && scaled[f] == repeats * Figures(roles, buffers, steps, f)
  {
    var count := map[CompletedSteps := |steps|, CpuCalls := 0, GpuCalls := 0, UploadCalls := 0,
                     DownloadCalls := 0, UploadBytes := 0, DownloadBytes := 0];
    for i := 0 to |steps|
      invariant AllCountable(buffers, steps[..i])
      invariant CompletedSteps in count && count[CompletedSteps] == |steps|
      invariant forall f | BaseFigure(f) && f != CompletedSteps ::
                  f in count && count[f] == Figures(roles, buffers, steps[..i], f)
    {
      var e := steps[i];
      forall f: Figure
        ensures Figures(roles, buffers, steps[..i + 1], f)
             == Figures(roles, buffers, steps[..i], f) + StepFigure(roles, buffers, e, f)
      {
        NextFigure(roles, buffers, steps, i, f);
      }
      count := BumpBase(count, roles, buffers, e);
    }
    assert steps[..|steps|] == steps;
    CompletedIsLength(roles, buffers, steps);
    scaled := map f | f in count :: repeats * count[f];
  }

  /** The six further counters of one event. */
  method BumpRoles(count: map<Figure, int>, roles: Roles, buffers: seq<Buffer>, e: Event, repeats: int)
    returns (result: map<Figure, int>)
    requires Countable(buffers, e) && Distinct(roles) && forall f: Figure :: f in count
    ensures forall f: Figure :: f in result && result[f] ==
              if !BaseFigure(f) && StepFigure(roles, buffers, e, f) == 1 then count[f] + repeats else count[f]
  {
    result := count;
    if e.kind == Execute {
      if Writes(buffers, e, roles.left) {
        result := result[LeftProducerCalls := result[LeftProducerCalls] + repeats];
      } else if Writes(buffers, e, roles.right) {
        result := result[RightProducerCalls := result[RightProducerCalls] + repeats];
      } else if Writes(buffers, e, roles.projection) {
        result := result[JoinCalls := result[JoinCalls] + repeats];
      }
    }
    if e.kind == Copy {
      if Writes(buffers, e, roles.left) {
        result := result[LeftCopyCalls := result[LeftCopyCalls] + repeats];
      } else if Writes(buffers, e, roles.right) {
        result := result[RightCopyCalls := result[RightCopyCalls] + repeats];
      }
    }
    if e.kind == PublishOutput {
      result := result[PublishedOutputs := result[PublishedOutputs] + repeats];
    }
  }

  lemma OneStepMore(repeats: int, before: int, step: int)
    requires step == 0 || step == 1
    ensures repeats * (before + step) == repeats * before + (if step == 1 then repeats else 0)
  {
  }

  lemma ScaledFigure(roles: Roles, buffers: seq<Buffer>, steps: seq<Event>, i: nat, f: Figure, repeats: int)
    requires AllCountable(buffers, steps) && i < |steps| && !BaseFigure(f)
    ensures AllCountable(buffers, steps[..i]) && AllCountable(buffers, steps[..i + 1])
    ensures repeats * Figures(roles, buffers, steps[..i + 1], f)
         == repeats * Figures(roles, buffers, steps[..i], f)
            + (if StepFigure(roles, buffers, steps[i], f) == 1 then repeats else 0)
  {
    NextFigure(roles, buffers, steps, i, f);
    OneStepMore(repeats, Figures(roles, buffers, steps[..i], f), StepFigure(roles, buffers, steps[i], f));
  }

  lemma RoleFigures(f: Figure)
    ensures !BaseFigure(f) <==> f in {LeftProducerCalls, RightProducerCalls, JoinCalls, LeftCopyCalls, RightCopyCalls,
                                      PublishedOutputs}
  {
    match f {
      case CompletedSteps =>
      case CpuCalls =>
      case GpuCalls =>
      case UploadCalls =>
      case DownloadCalls =>
      case UploadBytes =>
      case DownloadBytes =>
      case LeftProducerCalls =>
      case RightProducerCalls =>
      case JoinCalls =>
      case LeftCopyCalls =>
      case RightCopyCalls =>
      case PublishedOutputs =>
    }
  }

  /** The figures of a prefix beside those of the whole schedule. */
  ghost predicate Underway(count: map<Figure, int>, base: map<Figure, int>, roles: Roles, buffers: seq<Buffer>,
                           steps: seq<Event>, repeats: int)
    requires AllCountable(buffers, steps)
  {
    forall f: Figure :: && f in count && (BaseFigure(f) ==> f in base && count[f] == base[f])
                        && (!BaseFigure(f) ==> count[f] == repeats * Figures(roles, buffers, steps, f))
  }

  /** The fan-in record: the base counters, and six more counted by adding repeats at each event. */
  method FanInCounts(roles: Roles, buffers: seq<Buffer>, steps: seq<Event>, repeats: int)
    returns (result: map<Figure, int>)
    requires AllCountable(buffers, steps) && Distinct(roles)
    ensures Records(result, roles, buffers, steps, repeats)
  {
    var base := PlacementCounts(roles, buffers, steps, repeats);
    result := base[LeftProducerCalls := 0][RightProducerCalls := 0][JoinCalls := 0]
                  [LeftCopyCalls := 0][RightCopyCalls := 0][PublishedOutputs := 0];
    forall f: Figure
      ensures f in result && if BaseFigure(f) then f in base && result[f] == base[f] else result[f] == 0
    {
      RoleFigures(f);
    }
    for i := 0 to |steps|
      invariant AllCountable(buffers, steps[..i]) && Underway(result, base, roles, buffers, steps[..i], repeats)
    {
      forall f | !BaseFigure(f)
        ensures AllCountable(buffers, steps[..i + 1])
        ensures repeats * Figures(roles, buffers, steps[..i + 1], f)
             == repeats * Figures(roles, buffers, steps[..i], f)
                + (if StepFigure(roles, buffers, steps[i], f) == 1 then repeats else 0)
      {
        ScaledFigure(roles, buffers, steps, i, f, repeats);
      }
      result := BumpRoles(result, roles, buffers, steps[i], repeats);
    }
    assert steps[..|steps|] == steps;
  }

  // ----- Algebra of the record -----

  /** Figures are additive over schedule concatenation. */
  lemma {:induction false} FiguresAdd(roles: Roles, buffers: seq<Buffer>, a: seq<Event>, b: seq<Event>, f: Figure)
    requires AllCountable(buffers, a) && AllCountable(buffers, b)
    ensures AllCountable(buffers, a + b)
    ensures Figures(roles, buffers, a + b, f) == Figures(roles, buffers, a, f) + Figures(roles, buffers, b, f)
  {
    if b == [] {
      assert a + b == a;
    } else {
      assert (a + b)[..|a + b| - 1] == a + b[..|b| - 1];
      FiguresAdd(roles, buffers, a, b[..|b| - 1], f);
    }
  }

  lemma {:induction false} FiguresNonnegative(roles: Roles, buffers: seq<Buffer>, steps: seq<Event>, f: Figure)
    requires AllCountable(buffers, steps) && R.SizesNonnegative(buffers)
    ensures Figures(roles, buffers, steps, f) >= 0
  {
    if steps != [] {
      FiguresNonnegative(roles, buffers, steps[..|steps| - 1], f);
    }
  }

  /** The repeats factor counts that many traversals. */
  lemma {:induction false} RepeatsAreTraversals(roles: Roles, buffers: seq<Buffer>, steps: seq<Event>, n: nat,
                                                f: Figure)
    requires AllCountable(buffers, steps)
    ensures AllCountable(buffers, F.Repeat(steps, n))
    ensures Figures(roles, buffers, F.Repeat(steps, n), f) == n * Figures(roles, buffers, steps, f)
  {
    if n > 0 {
      RepeatsAreTraversals(roles, buffers, steps, n - 1, f);
      FiguresAdd(roles, buffers, F.Repeat(steps, n - 1), steps, f);
      F.OneMoreTime(n, Figures(roles, buffers, steps, f));
    }
  }

  lemma AppendFigure(roles: Roles, buffers: seq<Buffer>, steps: seq<Event>, e: Event, f: Figure)
    requires AllCountable(buffers, steps) && Countable(buffers, e)
    ensures AllCountable(buffers, steps + [e])
    ensures Figures(roles, buffers, steps + [e], f)
            == Figures(roles, buffers, steps, f) + StepFigure(roles, buffers, e, f)
  {
    assert (steps + [e])[..|steps|] == steps;
  }

  /** Splitting a schedule in two splits every figure, so dropping events never raises one. */
  lemma {:induction false} FiguresSplit(roles: Roles, buffers: seq<Buffer>, steps: seq<Event>, keep: Event -> bool,
                                        f: Figure)
    requires AllCountable(buffers, steps) && R.SizesNonnegative(buffers)
    ensures AllCountable(buffers, R.Kept(steps, keep)) && AllCountable(buffers, R.Kept(steps, e => !keep(e)))
    ensures Figures(roles, buffers, R.Kept(steps, keep), f) + Figures(roles, buffers, R.Kept(steps, e => !keep(e)), f)
         == Figures(roles, buffers, steps, f)
    ensures Figures(roles, buffers, R.Kept(steps, keep), f) <= Figures(roles, buffers, steps, f)
  {
    if steps != [] {
      var n := |steps| - 1;
      FiguresSplit(roles, buffers, steps[..n], keep, f);
      AppendFigure(roles, buffers,
                   if keep(steps[n]) then R.Kept(steps[..n], keep) else R.Kept(steps[..n], e => !keep(e)), steps[n], f);
    }
    FiguresNonnegative(roles, buffers, R.Kept(steps, e => !keep(e)), f);
  }

  predicate Unpublishing(e: Event) {
    e.kind != PublishOutput
  }

  /** What leaving out the publications leaves of the figures. */
  ghost predicate WithoutPublications(roles: Roles, buffers: seq<Buffer>, kept: seq<Event>, steps: seq<Event>,
                                      f: Figure)
    requires AllCountable(buffers, kept) && AllCountable(buffers, steps)
  {
    && Figures(roles, buffers, kept, PublishedOutputs) == 0
    && (f != CompletedSteps && f != PublishedOutputs ==>
          Figures(roles, buffers, kept, f) == Figures(roles, buffers, steps, f))
  }

  lemma PublicationFigure(roles: Roles, buffers: seq<Buffer>, e: Event, f: Figure)
    requires Countable(buffers, e)
    ensures Unpublishing(e) ==> StepFigure(roles, buffers, e, PublishedOutputs) == 0
    ensures !Unpublishing(e) && f != CompletedSteps && f != PublishedOutputs ==> StepFigure(roles, buffers, e, f) == 0
  {
  }

  lemma NextWithout(roles: Roles, buffers: seq<Buffer>, kept: seq<Event>, steps: seq<Event>, e: Event, f: Figure)
    requires AllCountable(buffers, kept) && AllCountable(buffers, steps) && Countable(buffers, e)
    requires WithoutPublications(roles, buffers, kept, steps, f)
    ensures AllCountable(buffers, if Unpublishing(e) then kept + [e] else kept) && AllCountable(buffers, steps + [e])
    ensures WithoutPublications(roles, buffers, if Unpublishing(e) then kept + [e] else kept, steps + [e], f)
  {
    PublicationFigure(roles, buffers, e, f);
    AppendFigure(roles, buffers, steps, e, f);
    if Unpublishing(e) {
      AppendFigure(roles, buffers, kept, e, f);
      AppendFigure(roles, buffers, kept, e, PublishedOutputs);
    }
  }

  /** Leaving out the publications changes no figure but the steps and the publications themselves. */
  lemma {:induction false} UnpublishedFigures(roles: Roles, buffers: seq<Buffer>, steps: seq<Event>, f: Figure)
    requires AllCountable(buffers, steps)
    ensures AllCountable(buffers, R.Kept(steps, Unpublishing))
    ensures WithoutPublications(roles, buffers, R.Kept(steps, Unpublishing), steps, f)
  {
    if steps != [] {
      var n := |steps| - 1;
      UnpublishedFigures(roles, buffers, steps[..n], f);
      NextWithout(roles, buffers, R.Kept(steps[..n], Unpublishing), steps[..n], steps[n], f);
      assert steps[..n] + [steps[n]] == steps;
    }
  }

  // ----- Observations under mutation -----

  datatype Mutation =
    | SkipPublish | SkipLeft | SkipRight | InvalidateLeft | InvalidateRight | SkipLeftCopy | SkipRightCopy
    | Static | Numeric

  /** The event a mutation stops the run at. */
  predicate StopsAt(roles: Roles, buffers: seq<Buffer>, m: Mutation, e: Event)
    requires Countable(buffers, e)
  {
    || (m == SkipPublish && e.kind == PublishOutput)
    || (e.kind == Execute &&
        (|| (m == SkipLeft && Writes(buffers, e, roles.left))
         || (m == SkipRight && Writes(buffers, e, roles.right))
         || ((m == InvalidateLeft || m == InvalidateRight) && Writes(buffers, e, roles.projection))))
    || (e.kind == Copy &&
        ((m == SkipLeftCopy && Writes(buffers, e, roles.left))
         || (m == SkipRightCopy && Writes(buffers, e, roles.right))))
  }

  /** The first such event, or the end. */
  function Stop(roles: Roles, buffers: seq<Buffer>, m: Mutation, steps: seq<Event>): (n: nat)
    requires AllCountable(buffers, steps)
    ensures n <= |steps| && (n < |steps| ==> StopsAt(roles, buffers, m, steps[n]))
    ensures forall i | 0 <= i < n :: !StopsAt(roles, buffers, m, steps[i])
  {
    if steps == [] then 0
    else
      var before := Stop(roles, buffers, m, steps[..|steps| - 1]);
      assert forall i | 0 <= i < |steps| - 1 :: steps[..|steps| - 1][i] == steps[i];
      if before < |steps| - 1 || StopsAt(roles, buffers, m, steps[|steps| - 1]) then before else |steps|
  }

  datatype Observation = Observation(reason: string, calls: int, figures: map<Figure, int>)

  const CLEAN_CALLS := 44

  /** What an observation must be. */
  ghost predicate Expected(roles: Roles, buffers: seq<Buffer>, steps: seq<Event>, preflight: bool,
                           mutation: Option<Mutation>, o: Observation)
    requires AllCountable(buffers, steps)
  {
    match mutation
    case None =>
      && o.reason == "none" && o.calls == (if preflight then 0 else 44)
      && Records(o.figures, roles, buffers, steps, if preflight then 0 else 11)
    case Some(m) =>
      if m == Static then o.reason == "target_not_ready" && o.calls == 0 && Records(o.figures, roles, buffers, [], 0)
      else
        var stop := Stop(roles, buffers, m, steps);
        && o.reason == (if stop == |steps| then "numeric_contract_mismatch" else "execution_failed")
        && AllCountable(buffers, steps[..stop])
        && Records(o.figures, roles, buffers, steps[..stop], 1)
        && CpuCalls in o.figures && GpuCalls in o.figures && o.calls == o.figures[CpuCalls] + o.figures[GpuCalls]
  }

  /** The expectation, with its search for the stopping event. */
  method ExpectedObservation(roles: Roles, buffers: seq<Buffer>, steps: seq<Event>, preflight: bool,
                             mutation: Option<Mutation>)
    returns (r: Result<Observation>)
    requires AllCountable(buffers, steps) && Distinct(roles)
    ensures r.Err? <==> mutation.Some? && preflight
    ensures r.Ok? ==> Expected(roles, buffers, steps, preflight, mutation, r.value)
  {
    if mutation.Some? && preflight {
      return Err("fan-in mutation rejected");
    }
    var counter := FanInCounts(roles, buffers, steps, if preflight then 0 else RUNS);
    if mutation == None {
      return Ok(Observation("none", if preflight then 0 else CLEAN_CALLS, counter));
    }
    var m := mutation.value;
    if m == Static {
      counter := FanInCounts(roles, buffers, [], 0);
      return Ok(Observation("target_not_ready", 0, counter));
    }
    var stop := |steps|;
    for i := 0 to |steps|
      invariant stop == |steps| && forall k | 0 <= k < i :: !StopsAt(roles, buffers, m, steps[k])
    {
      if StopsAt(roles, buffers, m, steps[i]) {
        stop := i;
        break;
      }
    }
    assert stop == Stop(roles, buffers, m, steps);
    counter := FanInCounts(roles, buffers, steps[..stop], 1);
    r := Ok(Observation(if stop == |steps| then "numeric_contract_mismatch" else "execution_failed",
                        counter[CpuCalls] + counter[GpuCalls], counter));
  }

  /** A mutated observation counts exactly the events before the mutated one, never more than one clean
      traversal, and completes as many steps as there are such events. */
  lemma MutatedWithinOneRun(roles: Roles, buffers: seq<Buffer>, steps: seq<Event>, m: Mutation, o: Observation,
                            f: Figure)
    requires AllCountable(buffers, steps) && R.SizesNonnegative(buffers) && m != Static
    requires Expected(roles, buffers, steps, false, Some(m), o)
    ensures f in o.figures && 0 <= o.figures[f] <= Figures(roles, buffers, steps, f)
    ensures CompletedSteps in o.figures && o.figures[CompletedSteps] == Stop(roles, buffers, m, steps)
  {
    var stop := Stop(roles, buffers, m, steps);
    assert steps == steps[..stop] + steps[stop..];
    FiguresAdd(roles, buffers, steps[..stop], steps[stop..], f);
    FiguresNonnegative(roles, buffers, steps[..stop], f);
    FiguresNonnegative(roles, buffers, steps[stop..], f);
    CompletedIsLength(roles, buffers, steps[..stop]);
  }

  // ----- Observations of accepted schedules -----

  lemma StepCountable(c: Context, buffers: seq<Buffer>, st: Inspection, index: nat, e: Event)
    requires Assigned(c) && InspectStep(c, buffers, st, index, e).Ok?
    ensures Countable(buffers, e)
  {
    AcceptedStepEffect(c, buffers, st, index, e);
  }

  lemma PrefixCountable(c: Context, buffers: seq<Buffer>, steps: seq<Event>)
    requires Assigned(c) && InspectSteps(c, buffers, steps).Ok?
    ensures AllCountable(buffers, steps)
  {
    forall i | 0 <= i < |steps|
      ensures Countable(buffers, steps[i])
    {
      StepOfAccepted(c, buffers, steps, i);
      StepCountable(c, buffers, InspectSteps(c, buffers, steps[..i]).value, i, steps[i]);
    }
  }

  /** One event's figures by its kind. */
  lemma StepKind(roles: Roles, buffers: seq<Buffer>, e: Event)
    requires Countable(buffers, e) && (e.kind == Copy ==> |e.outputs| == 1)
    ensures StepFigure(roles, buffers, e, CpuCalls) + StepFigure(roles, buffers, e, GpuCalls) == One(e.kind == Execute)
    ensures StepFigure(roles, buffers, e, UploadCalls) + StepFigure(roles, buffers, e, DownloadCalls)
         == One(e.kind == Copy)
    ensures StepFigure(roles, buffers, e, UploadBytes) + StepFigure(roles, buffers, e, DownloadBytes)
         == if e.kind == Copy then BytesAt(buffers, e.outputs) else 0
  {
  }

  /** The figures of a schedule by the kinds of its events. */
  lemma {:induction false} KindFigures(roles: Roles, buffers: seq<Buffer>, steps: seq<Event>)
    requires AllCountable(buffers, steps)
    requires forall i | 0 <= i < |steps| && steps[i].kind == Copy :: |steps[i].outputs| == 1
    ensures Figures(roles, buffers, steps, CpuCalls) + Figures(roles, buffers, steps, GpuCalls)
            == KindCount(steps, Execute)
    ensures Figures(roles, buffers, steps, UploadCalls) + Figures(roles, buffers, steps, DownloadCalls)
         == KindCount(steps, Copy)
    ensures Figures(roles, buffers, steps, UploadBytes) + Figures(roles, buffers, steps, DownloadBytes)
         == CopyBytes(buffers, steps)
    ensures Figures(roles, buffers, steps, PublishedOutputs) == KindCount(steps, PublishOutput)
  {
    if steps != [] {
      var n := |steps| - 1;
      assert forall i | 0 <= i < n :: steps[..n][i] == steps[i];
      KindFigures(roles, buffers, steps[..n]);
      StepKind(roles, buffers, steps[n]);
    }
  }

  lemma CopiesWriteOne(c: Context, p: Plan, i: nat)
    requires Assigned(c) && Accepted(c, p) && i < |p.steps| && p.steps[i].kind == Copy
    ensures |p.steps[i].outputs| == 1
  {
    StepOfAccepted(c, p.buffers, p.steps, i);
    AcceptedStepEffect(c, p.buffers, InspectSteps(c, p.buffers, p.steps[..i]).value, i, p.steps[i]);
  }

  /** The clean observation is the graph's and the plan's: a call for each operation and a publication
      for each terminal, copies and bytes as planned, all of it once a run. */
  lemma CleanObservation(roles: Roles, c: Context, p: Plan, o: Observation)
    requires Assigned(c) && Accepted(c, p) && AllCountable(p.buffers, p.steps)
    requires Expected(roles, p.buffers, p.steps, false, None, o)
    ensures forall f: Figure :: f in o.figures
    ensures o.figures[CompletedSteps] == 11 * |p.steps|
    ensures o.figures[CpuCalls] + o.figures[GpuCalls] == 11 * |c.graph.operations|
    ensures o.figures[CpuCalls] + o.figures[GpuCalls] == o.calls <==> |c.graph.operations| == 4
    ensures o.figures[UploadCalls] + o.figures[DownloadCalls] == 11 * KindCount(p.steps, Copy)
    ensures o.figures[UploadBytes] + o.figures[DownloadBytes] == 11 * CopyBytes(p.buffers, p.steps)
    ensures o.figures[PublishedOutputs] == 11 * |Terminals(c.graph)|
  {
    forall i | 0 <= i < |p.steps| && p.steps[i].kind == Copy
      ensures |p.steps[i].outputs| == 1
    {
      CopiesWriteOne(c, p, i);
    }
    KindFigures(roles, p.buffers, p.steps);
    ExecutedIsCounted(c, p.buffers, p.steps);
    CompletedIsLength(roles, p.buffers, p.steps);
  }

  /** A tensor's producer has executed before any event reads the tensor. */
  lemma ProducedBeforeRead(c: Context, p: Plan, t: Tensor, n: nat, slot: int) returns (j: nat)
    requires Assigned(c) && SingleAssignment(c.graph) && Accepted(c, p)
    requires n < |p.steps| && slot in p.steps[n].inputs && 0 <= slot < |p.buffers|
    requires p.buffers[slot].tensor == t && Produced(c.graph, t)
    ensures j < n && p.steps[j].kind == Execute && |p.steps[j].outputs| == 1
    ensures 0 <= p.steps[j].outputs[0] < |p.buffers| && p.buffers[p.steps[j].outputs[0]].tensor == t
  {
    StepOfAccepted(c, p.buffers, p.steps, n);
    var st := InspectSteps(c, p.buffers, p.steps[..n]).value;
    AcceptedStepEffect(c, p.buffers, st, n, p.steps[n]);
    PrefixSettled(c, p.buffers, p.steps[..n]);
    var i :| 0 <= i < |c.graph.operations| && c.graph.operations[i].output == t;
    assert slot in st.ready;
    j := ExecutionOf(c, p.buffers, p.steps[..n], i);
    StepOfAccepted(c, p.buffers, p.steps[..n], j);
    AcceptedStepEffect(c, p.buffers, InspectSteps(c, p.buffers, p.steps[..n][..j]).value, j, p.steps[..n][j]);
  }

  /** The first mutated event of a run is where it stops: nothing mutated completes. */
  lemma {:induction false} NoneStops(roles: Roles, buffers: seq<Buffer>, steps: seq<Event>, f: Figure)
    requires AllCountable(buffers, steps)
    requires forall i | 0 <= i < |steps| :: StepFigure(roles, buffers, steps[i], f) == 0
    ensures Figures(roles, buffers, steps, f) == 0
  {
    if steps != [] {
      var n := |steps| - 1;
      assert forall i | 0 <= i < n :: steps[..n][i] == steps[i];
      NoneStops(roles, buffers, steps[..n], f);
    }
  }

  /** The operation that joins the two producers' results. */
  ghost predicate JoinsRoles(g: Graph, roles: Roles) {
    exists i :: 0 <= i < |g.operations| && g.operations[i].output == roles.projection
                && roles.left in g.operations[i].inputs && roles.right in g.operations[i].inputs
  }

  /** The tensor whose producer a mutation skips, and the figure that counts its calls. */
  function SkippedTensor(roles: Roles, m: Mutation): Tensor {
    if m == SkipLeft then roles.left else roles.right
  }

  function ProducerCalls(m: Mutation): Figure {
    if m == SkipLeft then LeftProducerCalls else RightProducerCalls
  }

  /** A skipped producer stops every accepted schedule with execution_failed before its call, and its
      consumer, the join, never completes either. */
  lemma SkippedProducerStopsJoin(c: Context, p: Plan, roles: Roles, m: Mutation, o: Observation)
    requires Assigned(c) && SingleAssignment(c.graph) && Accepted(c, p) && Distinct(roles)
    requires m == SkipLeft || m == SkipRight
    requires Produced(c.graph, SkippedTensor(roles, m)) && JoinsRoles(c.graph, roles)
             && AllCountable(p.buffers, p.steps)
    requires Expected(roles, p.buffers, p.steps, false, Some(m), o)
    ensures o.reason == "execution_failed"
    ensures forall f: Figure :: f in o.figures
    ensures o.figures[ProducerCalls(m)] == 0 && o.figures[JoinCalls] == 0
  {
    var stop := Stop(roles, p.buffers, m, p.steps);
    ProducerExecutes(c, p, roles, m);
    assert AllCountable(p.buffers, p.steps[..stop]);
    NoProducer(roles, p, m);
    forall i | 0 <= i < stop
      ensures StepFigure(roles, p.buffers, p.steps[..stop][i], JoinCalls) == 0
    {
      BeforeStop(c, p, roles, m, i);
    }
    NoneStops(roles, p.buffers, p.steps[..stop], JoinCalls);
  }

  lemma NoProducer(roles: Roles, p: Plan, m: Mutation)
    requires AllCountable(p.buffers, p.steps) && (m == SkipLeft || m == SkipRight)
    ensures
      var stop := Stop(roles, p.buffers, m, p.steps);
      AllCountable(p.buffers, p.steps[..stop]) && Figures(roles, p.buffers, p.steps[..stop], ProducerCalls(m)) == 0
  {
    var stop := Stop(roles, p.buffers, m, p.steps);
    forall i | 0 <= i < stop
      ensures StepFigure(roles, p.buffers, p.steps[..stop][i], ProducerCalls(m)) == 0
    {
      assert !StopsAt(roles, p.buffers, m, p.steps[i]);
    }
    NoneStops(roles, p.buffers, p.steps[..stop], ProducerCalls(m));
  }

  lemma BeforeStop(c: Context, p: Plan, roles: Roles, m: Mutation, i: nat)
    requires Assigned(c) && SingleAssignment(c.graph) && Accepted(c, p) && AllCountable(p.buffers, p.steps)
    requires m == SkipLeft || m == SkipRight
    requires Produced(c.graph, SkippedTensor(roles, m)) && JoinsRoles(c.graph, roles)
    requires i < Stop(roles, p.buffers, m, p.steps)
    ensures StepFigure(roles, p.buffers, p.steps[i], JoinCalls) == 0
  {
    if p.steps[i].kind == Execute && Writes(p.buffers, p.steps[i], roles.projection) {
      var j := JoinAfterProducer(c, p, roles, SkippedTensor(roles, m), i);
      assert StopsAt(roles, p.buffers, m, p.steps[j]);
    }
  }

  lemma ProducerExecutes(c: Context, p: Plan, roles: Roles, m: Mutation)
    requires Assigned(c) && Accepted(c, p) && AllCountable(p.buffers, p.steps)
    requires (m == SkipLeft || m == SkipRight) && Produced(c.graph, SkippedTensor(roles, m))
    ensures Stop(roles, p.buffers, m, p.steps) < |p.steps|
  {
    var i :| 0 <= i < |c.graph.operations| && c.graph.operations[i].output == SkippedTensor(roles, m);
    var n := ExecutionOf(c, p.buffers, p.steps, i);
    StepOfAccepted(c, p.buffers, p.steps, n);
    AcceptedStepEffect(c, p.buffers, InspectSteps(c, p.buffers, p.steps[..n]).value, n, p.steps[n]);
    assert StopsAt(roles, p.buffers, m, p.steps[n]);
  }

  /** Before the join executes, both its producers have. */
  lemma JoinAfterProducer(c: Context, p: Plan, roles: Roles, t: Tensor, n: nat) returns (j: nat)
    requires Assigned(c) && SingleAssignment(c.graph) && Accepted(c, p) && AllCountable(p.buffers, p.steps)
    requires (t == roles.left || t == roles.right) && Produced(c.graph, t) && JoinsRoles(c.graph, roles)
    requires n < |p.steps| && p.steps[n].kind == Execute && Writes(p.buffers, p.steps[n], roles.projection)
    ensures j < n && p.steps[j].kind == Execute && Writes(p.buffers, p.steps[j], t)
  {
    StepOfAccepted(c, p.buffers, p.steps, n);
    var st := InspectSteps(c, p.buffers, p.steps[..n]).value;
    AcceptedStepEffect(c, p.buffers, st, n, p.steps[n]);
    var op := c.graph.operations[st.executed];
    var i :| 0 <= i < |c.graph.operations| && c.graph.operations[i].output == roles.projection
             && roles.left in c.graph.operations[i].inputs && roles.right in c.graph.operations[i].inputs;
    assert op.output == c.graph.operations[i].output;
    var k :| 0 <= k < |op.inputs| && op.inputs[k] == t;
    assert p.buffers[p.steps[n].inputs[k]].tensor == t;
    j := ProducedBeforeRead(c, p, t, n, p.steps[n].inputs[k]);
  }

  // ----- The record of an accepted plan, without its events -----

  predicate OffHost(s: Space) {
    s != "host"
  }

  predicate OnCuda(b: Backend) {
    b == "bounded-cuda"
  }

  predicate OffCuda(b: Backend) {
    b != "bounded-cuda"
  }

  /** The buffers of one tensor, one each. */
  function Holding(buffers: seq<Buffer>, t: Tensor): (ws: seq<Buffer>)
    ensures |ws| == |buffers|
    ensures forall i | 0 <= i < |ws| :: ws[i] == buffers[i].(bytes := if buffers[i].tensor == t then 1 else 0)
  {
    seq(|buffers|, i requires 0 <= i < |buffers| => buffers[i].(bytes := if buffers[i].tensor == t then 1 else 0))
  }

  /** One event on the record, kind by kind, in the terms of the flows. */
  lemma FigureBooked(roles: Roles, buffers: seq<Buffer>, e: Event)
    requires Countable(buffers, e) && |e.outputs| <= 1
    ensures StepFigure(roles, buffers, e, UploadCalls)
         == if e.kind == Copy then BytesAt(Weighted(buffers, OffHost, false), e.outputs) else 0
    ensures StepFigure(roles, buffers, e, UploadBytes)
         == if e.kind == Copy then BytesAt(Weighted(buffers, OffHost, true), e.outputs) else 0
    ensures StepFigure(roles, buffers, e, LeftCopyCalls)
         == if e.kind == Copy then BytesAt(Holding(buffers, roles.left), e.outputs) else 0
    ensures StepFigure(roles, buffers, e, RightCopyCalls)
         == if e.kind == Copy then BytesAt(Holding(buffers, roles.right), e.outputs) else 0
    ensures StepFigure(roles, buffers, e, LeftProducerCalls)
         == if e.kind == Execute then BytesAt(Holding(buffers, roles.left), e.outputs) else 0
    ensures StepFigure(roles, buffers, e, RightProducerCalls)
         == if e.kind == Execute then BytesAt(Holding(buffers, roles.right), e.outputs) else 0
    ensures StepFigure(roles, buffers, e, JoinCalls)
         == if e.kind == Execute then BytesAt(Holding(buffers, roles.projection), e.outputs) else 0
  {
  }

  lemma {:induction false} FiguresAreFlows(roles: Roles, buffers: seq<Buffer>, steps: seq<Event>)
    requires AllCountable(buffers, steps) && OneOutput(steps)
    ensures Figures(roles, buffers, steps, UploadCalls) == Flow(Weighted(buffers, OffHost, false), steps, Copy)
    ensures Figures(roles, buffers, steps, UploadBytes) == Flow(Weighted(buffers, OffHost, true), steps, Copy)
    ensures Figures(roles, buffers, steps, LeftCopyCalls) == Flow(Holding(buffers, roles.left), steps, Copy)
    ensures Figures(roles, buffers, steps, RightCopyCalls) == Flow(Holding(buffers, roles.right), steps, Copy)
    ensures Figures(roles, buffers, steps, LeftProducerCalls) == Flow(Holding(buffers, roles.left), steps, Execute)
    ensures Figures(roles, buffers, steps, RightProducerCalls) == Flow(Holding(buffers, roles.right), steps, Execute)
    ensures Figures(roles, buffers, steps, JoinCalls) == Flow(Holding(buffers, roles.projection), steps, Execute)
  {
    if steps != [] {
      var n := |steps| - 1;
      FiguresAreFlows(roles, buffers, steps[..n]);
      FigureBooked(roles, buffers, steps[n]);
    }
  }

  /** How many operations produce t. */
  function Producers(g: Graph, t: Tensor, n: nat): nat
    requires n <= |g.operations|
  {
    if n == 0 then 0 else Producers(g, t, n - 1) + (if g.operations[n - 1].output == t then 1 else 0)
  }

  ghost predicate TensorFlows(c: Context, buffers: seq<Buffer>, steps: seq<Event>, t: Tensor, st: Inspection) {
    && st.executed <= |c.graph.operations|
    && Flow(Holding(buffers, t), steps, BindInput) == (if t in st.bound then 1 else 0)
    && Flow(Holding(buffers, t), steps, Execute) == Producers(c.graph, t, st.executed)
  }

  lemma TensorFlowsNext(c: Context, buffers: seq<Buffer>, steps: seq<Event>, t: Tensor, st: Inspection, index: nat,
                        after: Inspection)
    requires Assigned(c) && steps != [] && StepEffect(c, buffers, st, index, steps[|steps| - 1], after)
    requires TensorFlows(c, buffers, steps[..|steps| - 1], t, st)
    ensures TensorFlows(c, buffers, steps, t, after)
  {
    var e := steps[|steps| - 1];
    if e.kind != PublishOutput {
      assert BytesAt(Holding(buffers, t), e.outputs) == if buffers[e.outputs[0]].tensor == t then 1 else 0;
    }
  }

  lemma {:induction false} TensorFlowsOf(c: Context, buffers: seq<Buffer>, steps: seq<Event>, t: Tensor)
    requires Assigned(c) && InspectSteps(c, buffers, steps).Ok?
    ensures TensorFlows(c, buffers, steps, t, InspectSteps(c, buffers, steps).value)
  {
    if steps != [] {
      var n := |steps| - 1;
      var before := InspectSteps(c, buffers, steps[..n]).value;
      TensorFlowsOf(c, buffers, steps[..n], t);
      AcceptedStepEffect(c, buffers, before, n, steps[n]);
      TensorFlowsNext(c, buffers, steps, t, before, n, InspectSteps(c, buffers, steps).value);
    }
  }

  /** Copies of a tensor: the slots that hold it, but the one it is bound to or computed in. */
  lemma CopiesOfTensor(c: Context, p: Plan, t: Tensor)
    requires Assigned(c) && Accepted(c, p)
    ensures Flow(Holding(p.buffers, t), p.steps, Execute) == Producers(c.graph, t, |c.graph.operations|)
    ensures Flow(Holding(p.buffers, t), p.steps, Copy)
         == TotalBytes(Holding(p.buffers, t)) - (if t in ExternalInputs(c.graph) then 1 else 0)
            - Producers(c.graph, t, |c.graph.operations|)
  {
    var ws := Holding(p.buffers, t);
    PrefixBalanced(c, p.buffers, ws, p.steps);
    TensorFlowsOf(c, p.buffers, p.steps, t);
    ReadyBytesAll(ws, AllSlots(|ws|), |ws|);
    assert ws[..|ws|] == ws;
  }

  ghost predicate CallFigures(c: Context, roles: Roles, buffers: seq<Buffer>, steps: seq<Event>, n: nat)
    requires Assigned(c) && n <= |c.graph.operations| && AllCountable(buffers, steps)
  {
    && Figures(roles, buffers, steps, CpuCalls) == Ran(c, OffCuda, false, n)
    && Figures(roles, buffers, steps, GpuCalls) == Ran(c, OnCuda, false, n)
  }

  lemma CallFigured(roles: Roles, buffers: seq<Buffer>, e: Event)
    requires Countable(buffers, e)
    ensures StepFigure(roles, buffers, e, CpuCalls) == if e.kind == Execute && OffCuda(e.backend) then 1 else 0
    ensures StepFigure(roles, buffers, e, GpuCalls) == if e.kind == Execute && OnCuda(e.backend) then 1 else 0
  {
  }

  lemma CallFiguresNext(c: Context, roles: Roles, buffers: seq<Buffer>, steps: seq<Event>, st: Inspection,
                        index: nat, after: Inspection)
    requires Assigned(c) && steps != [] && AllCountable(buffers, steps)
    requires StepEffect(c, buffers, st, index, steps[|steps| - 1], after) && st.executed <= |c.graph.operations|
    requires CallFigures(c, roles, buffers, steps[..|steps| - 1], st.executed)
    ensures after.executed <= |c.graph.operations| && CallFigures(c, roles, buffers, steps, after.executed)
  {
    CallFigured(roles, buffers, steps[|steps| - 1]);
  }

  lemma {:induction false} CallFiguresOf(c: Context, roles: Roles, buffers: seq<Buffer>, steps: seq<Event>)
    requires Assigned(c) && InspectSteps(c, buffers, steps).Ok? && AllCountable(buffers, steps)
    ensures InspectSteps(c, buffers, steps).value.executed <= |c.graph.operations|
    ensures CallFigures(c, roles, buffers, steps, InspectSteps(c, buffers, steps).value.executed)
  {
    if steps != [] {
      var n := |steps| - 1;
      var before := InspectSteps(c, buffers, steps[..n]).value;
      CallFiguresOf(c, roles, buffers, steps[..n]);
      AcceptedStepEffect(c, buffers, before, n, steps[n]);
      CallFiguresNext(c, roles, buffers, steps, before, n, InspectSteps(c, buffers, steps).value);
    }
  }

  /** All thirteen figures of one traversal, read off the graph, its placement and the plan's buffers. */
  lemma FiguresOfPlan(c: Context, p: Plan, roles: Roles)
    requires Assigned(c) && Accepted(c, p) && c.deployment.host == "host"
    ensures AllCountable(p.buffers, p.steps)
    ensures
      var f := (k: Figure) => if AllCountable(p.buffers, p.steps) then Figures(roles, p.buffers, p.steps, k) else 0;
      var n := |c.graph.operations|;
      && f(CompletedSteps) == |p.steps|
      && f(CpuCalls) == Ran(c, OffCuda, false, n) && f(GpuCalls) == Ran(c, OnCuda, false, n)
      && f(UploadCalls) == Stock(p.buffers, OffHost, false) - Made(c, OffHost, false, n)
      && f(UploadBytes) == Stock(p.buffers, OffHost, true) - Made(c, OffHost, true, n)
      && f(UploadCalls) + f(DownloadCalls) == |p.buffers| - |ExternalInputs(c.graph)| - n
      && f(UploadBytes) + f(DownloadBytes) == CopyBytes(p.buffers, p.steps)
      && f(LeftProducerCalls) == Producers(c.graph, roles.left, n)
      && f(RightProducerCalls) == Producers(c.graph, roles.right, n)
      && f(JoinCalls) == Producers(c.graph, roles.projection, n)
      && f(LeftCopyCalls) == TotalBytes(Holding(p.buffers, roles.left)) - Producers(c.graph, roles.left, n)
                             - (if roles.left in ExternalInputs(c.graph) then 1 else 0)
      && f(RightCopyCalls) == TotalBytes(Holding(p.buffers, roles.right)) - Producers(c.graph, roles.right, n)
                              - (if roles.right in ExternalInputs(c.graph) then 1 else 0)
      && f(PublishedOutputs) == |Terminals(c.graph)|
  {
    PrefixCountable(c, p.buffers, p.steps);
    AcceptedOneOutput(c, p);
    forall i | 0 <= i < |p.steps| && p.steps[i].kind == Copy
      ensures |p.steps[i].outputs| == 1
    {
      CopiesWriteOne(c, p, i);
    }
    KindFigures(roles, p.buffers, p.steps);
    ExecutedIsCounted(c, p.buffers, p.steps);
    CompletedIsLength(roles, p.buffers, p.steps);
    CallFiguresOf(c, roles, p.buffers, p.steps);
    FiguresAreFlows(roles, p.buffers, p.steps);
    CopiesByStock(c, p, OffHost, false);
    CopiesByStock(c, p, OffHost, true);
    CopiesOfTensor(c, p, roles.left);
    CopiesOfTensor(c, p, roles.right);
    CopiesOfTensor(c, p, roles.projection);
    AcceptedPlanConserves(c, p);
  }

  // ----- Each mutation stops at its own figure -----

  /** The figure a mutation keeps at zero. */
  function StoppedFigure(m: Mutation): Option<Figure> {
    match m
    case SkipPublish => Some(PublishedOutputs)
    case SkipLeft => Some(LeftProducerCalls)
    case SkipRight => Some(RightProducerCalls)
    case InvalidateLeft => Some(JoinCalls)
    case InvalidateRight => Some(JoinCalls)
    case SkipLeftCopy => Some(LeftCopyCalls)
    case SkipRightCopy => Some(RightCopyCalls)
    case Static => None
    case Numeric => None
  }

  lemma StopsAtFigure(roles: Roles, buffers: seq<Buffer>, m: Mutation, e: Event)
    requires Countable(buffers, e)
    ensures StopsAt(roles, buffers, m, e)
       <==> StoppedFigure(m).Some? && StepFigure(roles, buffers, e, StoppedFigure(m).value) == 1
    ensures StoppedFigure(m).Some? ==> 0 <= StepFigure(roles, buffers, e, StoppedFigure(m).value) <= 1
  {
  }

  lemma {:induction false} NoneBefore(roles: Roles, buffers: seq<Buffer>, m: Mutation, steps: seq<Event>)
    requires AllCountable(buffers, steps) && StoppedFigure(m).Some?
    ensures Figures(roles, buffers, steps, StoppedFigure(m).value) >= 0
    ensures (forall i | 0 <= i < |steps| :: !StopsAt(roles, buffers, m, steps[i]))
       <==> Figures(roles, buffers, steps, StoppedFigure(m).value) == 0
  {
    if steps != [] {
      var n := |steps| - 1;
      assert forall i | 0 <= i < n :: steps[..n][i] == steps[i];
      NoneBefore(roles, buffers, m, steps[..n]);
      StopsAtFigure(roles, buffers, m, steps[n]);
    }
  }

  /** Mutation by mutation: publications, the left and right producers, the join under either invalidated
      operand, the left and right copies. The observation is execution_failed exactly when the schedule
      has such an event; it then counts the events before the first of them, so its own figure is zero;
      otherwise, and under a numeric mutation, it is a whole traversal with a mismatch at the end. */
  lemma MutationStops(roles: Roles, buffers: seq<Buffer>, steps: seq<Event>, m: Mutation, o: Observation)
    returns (n: nat)
    requires AllCountable(buffers, steps) && m != Static && Expected(roles, buffers, steps, false, Some(m), o)
    ensures n <= |steps| && AllCountable(buffers, steps[..n]) && Records(o.figures, roles, buffers, steps[..n], 1)
    ensures o.reason == if n == |steps| then "numeric_contract_mismatch" else "execution_failed"
    ensures m == Numeric ==> n == |steps|
    ensures m != Numeric ==>
              && StoppedFigure(m).Some?
              && (n < |steps| <==> Figures(roles, buffers, steps, StoppedFigure(m).value) > 0)
              && Figures(roles, buffers, steps[..n], StoppedFigure(m).value) == 0
              && (n < |steps| ==> StepFigure(roles, buffers, steps[n], StoppedFigure(m).value) == 1)
  {
    n := Stop(roles, buffers, m, steps);
    if m == Numeric {
      if n < |steps| {
        StopsAtFigure(roles, buffers, m, steps[n]);
      }
    } else {
      assert forall i | 0 <= i < n :: steps[..n][i] == steps[i];
      NoneBefore(roles, buffers, m, steps[..n]);
      NoneBefore(roles, buffers, m, steps);
      if n < |steps| {
        StopsAtFigure(roles, buffers, m, steps[n]);
      }
    }
  }
}
