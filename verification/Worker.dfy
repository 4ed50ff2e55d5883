/**
  The C11 worker generator (examples/bounded_dag_c11.py, _worker): it inlines a host-only schedule
  into one guarded straight-line program, run for three input vectors with two replays each.
 */
module Worker {
  import opened Wrappers
  import opened Residency
  import opened Conservation
  import opened Receipts
  import opened CProgram

  const INPUT_CASES := 3
  const REPLAYS := 2

  function Count4(p: Plan, slot: int): nat
    requires 0 <= slot < |p.buffers| && p.buffers[slot].bytes >= 0
  {
    p.buffers[slot].bytes / 4
  }

  /** The lines of one event; first tells whether no publication came before. */
  function EventLines(p: Plan, e: Event, first: bool): Result<seq<Line>>
    requires WellShapedEvent(p.buffers, e) && SizesNonnegative(p.buffers)
  {
    match e.kind
    case BindInput =>
      if |e.outputs| == 0 then Err("event without output")
      else
        var slot := e.outputs[0];
        Ok([Plain(Bind(slot, p.buffers[slot].tensor, Count4(p, slot))), Plain(MarkReady(slot))])
    case Execute =>
      if e.operation == None then Err("event without operation")
      else
        var output := e.outputs[0];
        Ok([Plain(NeedReady(e.inputs)),
            Block(NotSkipped(e.operation.value),
                  [Call(e.operation.value, e.inputs, output), CountCall,
                   NeedNormal(output, Count4(p, output)), MarkReady(output)])])
    case PublishOutput =>
      var slot := e.inputs[0];
      var check := [Check(slot, p.buffers[slot].tensor, Count4(p, slot)), CountPublication];
      if first then Ok([Plain(NeedReady([slot])), Block(FaultIs(2), [Corrupt(slot)]), Block(FaultIsNot(3), check)])
      else Ok([Plain(NeedReady([slot])), Block(Always, check)])
    case Copy => Err("fixed C11 schedule event rejected")
    case UnknownKind => Err("fixed C11 schedule event rejected")
  }

  function PoisonLines(p: Plan, n: nat): seq<Line>
    requires n <= |p.buffers| && SizesNonnegative(p.buffers)
  {
    if n == 0 then [] else PoisonLines(p, n - 1) + [Plain(Poison(n - 1, Count4(p, n - 1)))]
  }

  function ScheduleLines(p: Plan, events: seq<Event>): Result<seq<Line>>
    requires WellShaped(p.buffers, events) && SizesNonnegative(p.buffers)
  {
    if events == [] then Ok([])
    else
      var n := |events| - 1;
      var before :- ScheduleLines(p, events[..n]);
      var lines :- EventLines(p, events[n], KindCount(events[..n], PublishOutput) == 0);
      Ok(before + lines)
  }

  predicate HostOnly(p: Plan)
  {
    && CopyBytes(p.buffers, p.steps) == 0
    && forall i | 0 <= i < |p.steps| && p.steps[i].kind == Execute :: p.steps[i].backend == C11
  }

  function Epilogue(publications: nat): seq<Line> {
    [Plain(NeedPublications(publications)), Plain(CountCaseRun)]
  }

  /** The body of one pass; outputs is the number of output tensors in the manifest. */
  function WorkerLines(p: Plan, outputs: nat): Result<seq<Line>>
    requires WellShaped(p.buffers, p.steps) && SizesNonnegative(p.buffers)
  {
    if !HostOnly(p) then Err("CPU conformance rejects device operations or copies")
    else
      var schedule :- ScheduleLines(p, p.steps);
      Ok(PoisonLines(p, |p.buffers|) + schedule + Epilogue(outputs))
  }

  lemma {:induction false} RejectedSchedule(p: Plan, events: seq<Event>, n: nat)
    requires WellShaped(p.buffers, events) && SizesNonnegative(p.buffers) && n <= |events|
    requires ScheduleLines(p, events[..n]).Err?
    ensures ScheduleLines(p, events) == Err(ScheduleLines(p, events[..n]).message)
  {
    if n == |events| {
      assert events[..n] == events;
    } else {
      assert events[..|events| - 1][..n] == events[..n];
      RejectedSchedule(p, events[..|events| - 1], n);
    }
  }

  lemma NextLines(p: Plan, events: seq<Event>, i: nat, lines: seq<Line>)
    requires WellShaped(p.buffers, events) && SizesNonnegative(p.buffers) && i < |events|
    requires ScheduleLines(p, events[..i]) == Ok(lines)
    ensures
      var next := EventLines(p, events[i], KindCount(events[..i], PublishOutput) == 0);
      ScheduleLines(p, events[..i + 1]) == if next.Err? then Err(next.message) else Ok(lines + next.value)
    ensures KindCount(events[..i + 1], PublishOutput)
         == KindCount(events[..i], PublishOutput) + (if events[i].kind == PublishOutput then 1 else 0)
  {
    assert events[..i + 1][..i] == events[..i];
  }

  /** The generator's loop over the events, with its first_publication flag. */
  method EmitSchedule(p: Plan) returns (r: Result<seq<Line>>)
    requires WellShaped(p.buffers, p.steps) && SizesNonnegative(p.buffers)
    ensures r == ScheduleLines(p, p.steps)
  {
    var lines: seq<Line> := [];
    var firstPublication := true;
    for i := 0 to |p.steps|
      invariant ScheduleLines(p, p.steps[..i]) == Ok(lines)
      invariant firstPublication == (KindCount(p.steps[..i], PublishOutput) == 0)
    {
      var e := p.steps[i];
      NextLines(p, p.steps, i, lines);
      var emitted := EventLines(p, e, firstPublication);
      if emitted.Err? {
        RejectedSchedule(p, p.steps, i + 1);
        return Err(emitted.message);
      }
      lines := lines + emitted.value;
      if e.kind == PublishOutput {
        firstPublication := false;
      }
    }
    assert p.steps[..|p.steps|] == p.steps;
    return Ok(lines);
  }

  /** What the generator can inline: a binding with a slot, a host execution with its operation's number,
      a publication. */
  predicate Inlined(e: Event) {
    || (e.kind == BindInput && e.outputs != [])
    || (e.kind == Execute && e.operation.Some? && e.backend == "c11")
    || e.kind == PublishOutput
  }

  lemma {:induction false} ScheduleInlined(p: Plan, events: seq<Event>)
    requires WellShaped(p.buffers, events) && SizesNonnegative(p.buffers)
    requires forall i | 0 <= i < |events| && events[i].kind == Execute :: events[i].backend == "c11"
    ensures ScheduleLines(p, events).Ok? <==> forall i | 0 <= i < |events| :: Inlined(events[i])
  {
    if events != [] {
      var n := |events| - 1;
      assert forall i | 0 <= i < n :: events[..n][i] == events[i];
      ScheduleInlined(p, events[..n]);
    }
  }

  /** Which plans get a worker. */
  lemma WorkerExists(p: Plan, outputs: nat)
    requires WellShaped(p.buffers, p.steps) && SizesNonnegative(p.buffers)
    ensures WorkerLines(p, outputs).Ok?
       <==> CopyBytes(p.buffers, p.steps) == 0 && forall i | 0 <= i < |p.steps| :: Inlined(p.steps[i])
  {
    if forall i | 0 <= i < |p.steps| && p.steps[i].kind == Execute :: p.steps[i].backend == "c11" {
      ScheduleInlined(p, p.steps);
    } else {
      var i :| 0 <= i < |p.steps| && p.steps[i].kind == Execute && p.steps[i].backend != "c11";
      assert !Inlined(p.steps[i]);
    }
  }

  /** The generator: refusals, one poison line a buffer, the events, the closing checks. */
  method EmitWorker(p: Plan, outputs: nat) returns (r: Result<seq<Line>>)
    requires WellShaped(p.buffers, p.steps) && SizesNonnegative(p.buffers)
    ensures r == WorkerLines(p, outputs)
    ensures r.Ok? <==> CopyBytes(p.buffers, p.steps) == 0 && forall i | 0 <= i < |p.steps| :: Inlined(p.steps[i])
  {
    WorkerExists(p, outputs);
    if !HostOnly(p) {
      return Err("CPU conformance rejects device operations or copies");
    }
    var lines: seq<Line> := [];
    for i := 0 to |p.buffers|
      invariant lines == PoisonLines(p, i)
    {
      lines := lines + [Plain(Poison(i, p.buffers[i].bytes / 4))];
    }
    var schedule := EmitSchedule(p);
    if schedule.Err? {
      return Err(schedule.message);
    }
    lines := lines + schedule.value;
    lines := lines + [Plain(NeedPublications(outputs)), Plain(CountCaseRun)];
    return Ok(lines);
  }

  // ----- Running the emitted program -----

  /** One input vector's run-time setting. */
  type Vectors = nat -> Setting

  /** The emitted loops: passes run in order (vector-major, then replay); a nonzero return ends them. */
  function RunCase(lines: seq<Line>, vectors: Vectors, slots: seq<Words>, counts: WorkerCounts, n: nat): Exit {
    if n == 0 then Running(Machine(slots, {}, 0, counts))
    else
      var e := RunCase(lines, vectors, slots, counts, n - 1);
      if e.Running? then RunLines(vectors((n - 1) / REPLAYS), e.m.(ready := {}, publications := 0), lines) else e
  }

  /** What tuc_case returns: the code, or 0 when every pass ran to its end. */
  function CaseCode(e: Exit): nat
    requires !e.Undefined?
  {
    if e.Returned? then e.code else 0
  }
}
