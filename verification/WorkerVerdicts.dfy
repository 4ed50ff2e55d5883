/**
  The generated worker refines the receipts machine: which exit code each fault gives, on which
  vectors, and when the worker's counters are the receipt's.
 */
module WorkerVerdicts {
  import opened Graphs
  import opened Residency
  import opened Conservation
  import opened Receipts
  import opened Faults
  import opened CProgram
  import opened Worker
  import opened WorkerProofs

  /** What the worker checks when the event runs: a normal result, or a matching output. */
  ghost predicate FineEvent(g: Graph, buffers: seq<Buffer>, s: Setting, e: Event)
    requires WellShapedEvent(buffers, e)
  {
    match e.kind
    case Execute => AllNormal(Final(g, s, buffers[e.outputs[0]].tensor))
    case PublishOutput =>
      var t := buffers[e.inputs[0]].tensor;
      MatchLength(Final(g, s, t), s.expected(t)) == |Final(g, s, t)|
    case _ => true
  }

  ghost predicate AllFine(g: Graph, buffers: seq<Buffer>, s: Setting, events: seq<Event>)
    requires WellShaped(buffers, events)
  {
    forall i | 0 <= i < |events| :: FineEvent(g, buffers, s, events[i])
  }

  /** A corruption of t's value is seen at its first word. */
  ghost predicate Detectable(g: Graph, s: Setting, t: Tensor) {
    Final(g, s, t) != [] && MatchLength(Corrupted(Final(g, s, t)), s.expected(t)) == 0
  }

  ghost predicate AllDetectable(g: Graph, s: Setting) {
    forall t | t in Terminals(g) :: Detectable(g, s, t)
  }

  /** A flipped lowest bit never matches the word it came from, nor what that word matches. */
  lemma FlippedMismatches(w: Word)
    ensures !MatchesWord(Flipped(w), w)
  {
  }

  /** Corruption is seen against the value itself and against whatever the value matches. */
  lemma CorruptionSeen(g: Graph, s: Setting, t: Tensor)
    requires Final(g, s, t) != []
    requires s.expected(t) == Final(g, s, t) || MatchLength(Final(g, s, t), s.expected(t)) == |Final(g, s, t)|
    ensures Detectable(g, s, t)
  {
    var ws := Final(g, s, t);
    if s.expected(t) == ws {
      FlippedMismatches(ws[0]);
    } else {
      CorruptedWordMismatches(ws[0], s.expected(t)[0]);
    }
  }

  /** The exit code of each reason the receipts machine gives. */
  function CodeOf(reason: string): nat {
    if reason == "missing_operand" then 1
    else if reason == "numeric_mismatch" then 2
    else if reason == "missing_publication" then 3
    else 0
  }

  // ----- Checks only ever replace a verdict by a mismatch -----

  /** One event: the checked machine does what the receipts machine does, unless an event that takes
      effect fails its check. */
  lemma EventVerdict(g: Graph, buffers: seq<Buffer>, s: Setting, start: WorkerCounts, pass: Pass, e: Event)
    requires SizesNonnegative(buffers) && WellShaped(buffers, pass.ran) && WellShapedEvent(buffers, e)
    requires e.kind != Copy && s.fault <= 3
    requires s.fault == 2 && e.kind == PublishOutput ==> Detectable(g, s, buffers[e.inputs[0]].tensor)
    ensures
      var out, checked := PassEvent(s.fault, pass, e), CheckedEvent(g, buffers, s, start, pass, e);
      if out.Stopped? then out.ran == pass.ran && checked == Ended(CodeOf(out.reason), Bumped(start, buffers, pass.ran))
      else if out.pass.ran == pass.ran then checked == Ongoing(out.pass)
      else
        && out.pass.ran == pass.ran + [e]
        && if FineEvent(g, buffers, s, e) then checked == Ongoing(out.pass) else checked.Ended? && checked.code == 2
  {
    if e.kind == PublishOutput {
      var t := buffers[e.inputs[0]].tensor;
      assert |Corrupted(Final(g, s, t))| == |Final(g, s, t)|;
    }
  }

  lemma FineAppend(g: Graph, buffers: seq<Buffer>, s: Setting, ran: seq<Event>, e: Event)
    requires WellShaped(buffers, ran) && WellShapedEvent(buffers, e)
    ensures WellShaped(buffers, ran + [e])
    ensures AllFine(g, buffers, s, ran + [e]) <==> AllFine(g, buffers, s, ran) && FineEvent(g, buffers, s, e)
  {
    var all := ran + [e];
    assert all[|ran|] == e && forall i | 0 <= i < |ran| :: all[i] == ran[i];
  }

  /** What a run of the checked machine must be, given the receipts machine's. */
  ghost predicate Verdict(g: Graph, buffers: seq<Buffer>, s: Setting, start: WorkerCounts, out: Outcome,
                          checked: Checked)
  {
    && SizesNonnegative(buffers) && WellShaped(buffers, RanOf(out))
    && if !AllFine(g, buffers, s, RanOf(out)) then checked.Ended? && checked.code == 2
       else if out.Stopped? then checked == Ended(CodeOf(out.reason), Bumped(start, buffers, out.ran))
       else checked == Ongoing(out.pass)
  }

  /** Publications of an accepted plan are of terminals. */
  ghost predicate PublishesTerminals(g: Graph, buffers: seq<Buffer>, steps: seq<Event>)
    requires WellShaped(buffers, steps)
  {
    forall i | 0 <= i < |steps| && steps[i].kind == PublishOutput :: buffers[steps[i].inputs[0]].tensor in Terminals(g)
  }

  /** Over a whole schedule: the mismatch is exactly a failing check among the events that took effect. */
  lemma {:induction false} RunVerdict(g: Graph, buffers: seq<Buffer>, s: Setting, start: WorkerCounts,
                                      steps: seq<Event>)
    requires SizesNonnegative(buffers) && WellShaped(buffers, steps) && s.fault <= 3 && KindCount(steps, Copy) == 0
    requires PublishesTerminals(g, buffers, steps) && (s.fault == 2 ==> AllDetectable(g, s))
    ensures Verdict(g, buffers, s, start, RunEvents(s.fault, steps), CheckedEvents(g, buffers, s, start, steps))
  {
    if steps != [] {
      var n := |steps| - 1;
      assert forall i | 0 <= i < n :: steps[..n][i] == steps[i];
      RunVerdict(g, buffers, s, start, steps[..n]);
      var out := RunEvents(s.fault, steps[..n]);
      if out.Going? && AllFine(g, buffers, s, out.pass.ran) {
        EventVerdict(g, buffers, s, start, out.pass, steps[n]);
      }
      if out.Going? {
        FineAppend(g, buffers, s, out.pass.ran, steps[n]);
      }
    }
  }

  // ----- One pass -----

  lemma PublicationsExpected(c: Context, p: Plan, fault: nat)
    requires Compiled(c, p) && RunEvents(fault, p.steps).Going?
    ensures KindCount(RunEvents(fault, p.steps).pass.ran, PublishOutput) == |Terminals(c.graph)| <==> fault != 3
  {
    PublishedCounted(fault, p.steps);
    ExecutedIsCounted(c, p.buffers, p.steps);
    SomethingPublished(c, p);
  }

  lemma CompiledShape(c: Context, p: Plan)
    requires Compiled(c, p)
    ensures SizesNonnegative(p.buffers) && WellShaped(p.buffers, p.steps) && KindCount(p.steps, Copy) == 0
    ensures PublishesTerminals(c.graph, p.buffers, p.steps)
  {
    AcceptedWellShaped(c, p);
    HostOnlyHasNoCopies(c, p);
    forall i | 0 <= i < |p.steps| && p.steps[i].kind == PublishOutput
      ensures p.buffers[p.steps[i].inputs[0]].tensor in Terminals(c.graph)
    {
      StepOfAccepted(c, p.buffers, p.steps, i);
      PublishShape(c, p, InspectSteps(c, p.buffers, p.steps[..i]).value, i, p.steps[i]);
    }
  }

  /** A pass of the checked machine against a pass of the receipts machine. */
  ghost predicate PassVerdict(c: Context, p: Plan, s: Setting, start: WorkerCounts, out: Outcome, tally: Tally) {
    && SizesNonnegative(p.buffers) && WellShaped(p.buffers, RanOf(out))
    && var counts := Bumped(start, p.buffers, RanOf(out));
       if !AllFine(c.graph, p.buffers, s, RanOf(out)) then tally.Failed? && tally.code == 2
       else if out.Stopped? then tally == Failed(CodeOf(out.reason), counts)
       else if s.fault == 3 then tally == Failed(3, counts)
       else tally == Completed(counts.(caseRuns := counts.caseRuns + 1))
  }

  lemma PassIsReceipt(c: Context, p: Plan, s: Setting, start: WorkerCounts)
    requires Compiled(c, p) && s.fault <= 3 && (s.fault == 2 ==> AllDetectable(c.graph, s))
    ensures SizesNonnegative(p.buffers) && WellShaped(p.buffers, p.steps)
    ensures PassVerdict(c, p, s, start, RunEvents(s.fault, p.steps),
                        CheckedPass(c.graph, p, s, start, |Terminals(c.graph)|))
  {
    CompiledShape(c, p);
    RunVerdict(c.graph, p.buffers, s, start, p.steps);
    if RunEvents(s.fault, p.steps).Going? {
      PublicationsExpected(c, p, s.fault);
    }
  }

  // ----- The six passes -----

  /** The worker's counters after the passes of a receipt. */
  function BumpedBy(start: WorkerCounts, buffers: seq<Buffer>, r: Receipt): WorkerCounts
    requires WellShaped(buffers, r.ran) && SizesNonnegative(buffers)
  {
    Bumped(start, buffers, r.ran).(caseRuns := start.caseRuns + r.caseRuns)
  }

  lemma {:induction false} KindsAdd(a: seq<Event>, b: seq<Event>, kind: EventKind)
    ensures KindCount(a + b, kind) == KindCount(a, kind) + KindCount(b, kind)
  {
    if b == [] {
      assert a + b == a;
    } else {
      assert (a + b)[..|a + b| - 1] == a + b[..|b| - 1];
      KindsAdd(a, b[..|b| - 1], kind);
    }
  }

  lemma BumpedAgain(start: WorkerCounts, buffers: seq<Buffer>, r: Receipt, ran: seq<Event>)
    requires WellShaped(buffers, r.ran) && WellShaped(buffers, ran) && SizesNonnegative(buffers)
    ensures WellShaped(buffers, r.ran + ran)
    ensures Bumped(BumpedBy(start, buffers, r), buffers, ran) == BumpedBy(start, buffers, r.(ran := r.ran + ran))
  {
    KindsAdd(r.ran, ran, Execute);
    KindsAdd(r.ran, ran, PublishOutput);
    CountAdditive(buffers, r.ran, ran, ScalarChecks);
  }

  ghost predicate VectorsFine(g: Graph, p: Plan, vectors: Vectors, n: nat)
    requires WellShaped(p.buffers, p.steps)
  {
    forall k | 0 <= k < n :: AllFine(g, p.buffers, vectors(k / REPLAYS), p.steps)
  }

  lemma FineNext(g: Graph, p: Plan, vectors: Vectors, n: nat)
    requires n > 0 && WellShaped(p.buffers, p.steps)
    ensures VectorsFine(g, p, vectors, n)
       <==> VectorsFine(g, p, vectors, n - 1) && AllFine(g, p.buffers, vectors((n - 1) / REPLAYS), p.steps)
  {
  }

  /** n clean passes: completed and counted as the receipt says, or failed with code 2. */
  ghost predicate CleanCase(p: Plan, start: WorkerCounts, fine: bool, r: Receipt, tally: Tally) {
    && SizesNonnegative(p.buffers) && WellShaped(p.buffers, r.ran)
    && if fine then tally == Completed(BumpedBy(start, p.buffers, r)) else tally.Failed? && tally.code == 2
  }

  lemma CleanNext(c: Context, p: Plan, s: Setting, start: WorkerCounts, fine: bool, r: Receipt, before: Tally)
    requires Compiled(c, p) && s.fault == 0 && CleanCase(p, start, fine, r, before) && WellShaped(p.buffers, p.steps)
    requires RunEvents(0, p.steps).Going? && RunEvents(0, p.steps).pass.ran == p.steps
    ensures CleanCase(p, start, fine && AllFine(c.graph, p.buffers, s, p.steps),
                      Receipt(true, "none", r.caseRuns + 1, r.ran + p.steps),
                      if before.Failed? then before
                      else CheckedPass(c.graph, p, s, before.counts, |Terminals(c.graph)|))
  {
    BumpedAgain(start, p.buffers, r, p.steps);
    if before.Completed? {
      PassIsReceipt(c, p, s, before.counts);
    }
  }

  lemma CleanRun(c: Context, p: Plan, n: nat)
    requires Compiled(c, p)
    ensures RunEvents(0, p.steps).Going? && RunEvents(0, p.steps).pass.ran == p.steps && RunPasses(p.steps, 0, n).passed
    ensures
      var r := RunPasses(p.steps, 0, n);
      RunPasses(p.steps, 0, n + 1) == Receipt(true, "none", r.caseRuns + 1, r.ran + p.steps)
  {
    UntouchedPrefix(c, p.buffers, p.steps, 0);
    PassesRepeat(p.steps, 0, n);
  }

  lemma CheckedNext(g: Graph, p: Plan, vectors: Vectors, start: WorkerCounts, outputs: nat, n: nat)
    requires SizesNonnegative(p.buffers) && WellShaped(p.buffers, p.steps) && n > 0
    ensures
      var before := CheckedCase(g, p, vectors, start, outputs, n - 1);
      CheckedCase(g, p, vectors, start, outputs, n)
      == if before.Failed? then before else CheckedPass(g, p, vectors((n - 1) / REPLAYS), before.counts, outputs)
  {
  }

  lemma NoPasses(c: Context, p: Plan, vectors: Vectors, start: WorkerCounts)
    requires SizesNonnegative(p.buffers) && WellShaped(p.buffers, p.steps)
    ensures CleanCase(p, start, VectorsFine(c.graph, p, vectors, 0), RunPasses(p.steps, 0, 0),
                      CheckedCase(c.graph, p, vectors, start, |Terminals(c.graph)|, 0))
  {
    assert start == BumpedBy(start, p.buffers, RunPasses(p.steps, 0, 0));
  }

  lemma {:induction false} CleanCaseAgrees(c: Context, p: Plan, vectors: Vectors, start: WorkerCounts, n: nat)
    requires Compiled(c, p) && forall v: nat :: vectors(v).fault == 0
    requires SizesNonnegative(p.buffers) && WellShaped(p.buffers, p.steps)
    ensures CleanCase(p, start, VectorsFine(c.graph, p, vectors, n), RunPasses(p.steps, 0, n),
                      CheckedCase(c.graph, p, vectors, start, |Terminals(c.graph)|, n))
  {
    if n == 0 {
      NoPasses(c, p, vectors, start);
    } else {
      CleanCaseAgrees(c, p, vectors, start, n - 1);
      FineNext(c.graph, p, vectors, n);
      CheckedNext(c.graph, p, vectors, start, |Terminals(c.graph)|, n);
      CleanRun(c, p, n - 1);
      CleanNext(c, p, vectors((n - 1) / REPLAYS), start, VectorsFine(c.graph, p, vectors, n - 1),
                RunPasses(p.steps, 0, n - 1), CheckedCase(c.graph, p, vectors, start, |Terminals(c.graph)|, n - 1));
    }
  }

  /** Each fault's verdict, as an exit code. */
  lemma ReceiptCode(c: Context, p: Plan, fault: nat)
    requires Compiled(c, p) && fault <= 3
    ensures RunPasses(p.steps, fault, PASSES).passed <==> fault == 0
    ensures CodeOf(RunPasses(p.steps, fault, PASSES).reason) == fault
  {
    if fault == 0 {
      CleanVerdict(c, p);
    } else if fault == 1 {
      var n, q := SkippedOperationCaught(c, p);
    } else if fault == 2 {
      var n := CorruptedPublicationCaught(c, p);
    } else {
      var n := MissingPublicationCaught(c, p);
    }
  }

  lemma {:induction false} FailedStays(g: Graph, p: Plan, vectors: Vectors, start: WorkerCounts, outputs: nat, n: nat,
                                       m: nat)
    requires SizesNonnegative(p.buffers) && WellShaped(p.buffers, p.steps) && n <= m
    requires CheckedCase(g, p, vectors, start, outputs, n).Failed?
    ensures CheckedCase(g, p, vectors, start, outputs, m) == CheckedCase(g, p, vectors, start, outputs, n)
    decreases m
  {
    if n < m {
      FailedStays(g, p, vectors, start, outputs, n, m - 1);
    }
  }

  /** A fault ends the first pass, so only the first vector matters. */
  lemma FaultedCaseAgrees(c: Context, p: Plan, vectors: Vectors, start: WorkerCounts, fault: nat)
    requires Compiled(c, p) && 1 <= fault <= 3 && vectors(0).fault == fault
    requires fault == 2 ==> AllDetectable(c.graph, vectors(0))
    ensures SizesNonnegative(p.buffers) && WellShaped(p.buffers, p.steps)
    ensures
      var receipt := RunPasses(p.steps, fault, PASSES);
      var tally := CheckedCase(c.graph, p, vectors, start, |Terminals(c.graph)|, PASSES);
      && WellShaped(p.buffers, receipt.ran) && tally.Failed?
      && (if AllFine(c.graph, p.buffers, vectors(0), receipt.ran)
          then tally.code == fault && tally.counts == BumpedBy(start, p.buffers, receipt) else tally.code == 2)
  {
    ReceiptCode(c, p, fault);
    FirstPassOnly(p.steps, fault);
    PassIsReceipt(c, p, vectors(0), start);
    var outputs := |Terminals(c.graph)|;
    assert CheckedCase(c.graph, p, vectors, start, outputs, 0) == Completed(start);
    assert CheckedCase(c.graph, p, vectors, start, outputs, 1) == CheckedPass(c.graph, p, vectors(0), start, outputs);
    FailedStays(c.graph, p, vectors, start, outputs, 1, PASSES);
  }

  /** What every run of the worker must survive for its fault to show: without a fault all its vectors,
      with one the events that take effect before the fault ends the first pass. */
  ghost predicate FaultShows(g: Graph, p: Plan, vectors: Vectors, fault: nat)
    requires WellShaped(p.buffers, p.steps) && WellShaped(p.buffers, RunPasses(p.steps, fault, PASSES).ran)
  {
    if fault == 0 then VectorsFine(g, p, vectors, PASSES)
    else AllFine(g, p.buffers, vectors(0), RunPasses(p.steps, fault, PASSES).ran)
  }

  lemma TallyCode(c: Context, p: Plan, vectors: Vectors, fault: nat, start: WorkerCounts)
    requires Compiled(c, p) && fault <= 3 && forall v: nat :: vectors(v).fault == fault
    requires fault == 2 ==> AllDetectable(c.graph, vectors(0))
    ensures SizesNonnegative(p.buffers) && WellShaped(p.buffers, p.steps)
    ensures
      var receipt := RunPasses(p.steps, fault, PASSES);
      var tally := CheckedCase(c.graph, p, vectors, start, |Terminals(c.graph)|, PASSES);
      && WellShaped(p.buffers, receipt.ran)
      && (if FaultShows(c.graph, p, vectors, fault)
          then tally == if fault == 0 then Completed(BumpedBy(start, p.buffers, receipt))
                        else Failed(fault, BumpedBy(start, p.buffers, receipt))
          else tally.Failed? && tally.code == 2)
  {
    CompiledShape(c, p);
    if fault == 0 {
      CleanCaseAgrees(c, p, vectors, start, PASSES);
    } else {
      FaultedCaseAgrees(c, p, vectors, start, fault);
    }
  }

  /** The exit code of a case under any fault, on any vectors: the fault's own code when it gets to show,
      and 2 otherwise; when it shows, the counters are the receipt's. For fault 2 the constants have to
      differ from the corrupted values, as constants equal to the values do (CorruptionSeen). */
  lemma WorkerRefinesReceipts(c: Context, p: Plan, vectors: Vectors, fault: nat, slots: seq<Words>, start: WorkerCounts)
    requires Compiled(c, p) && SizesNonnegative(p.buffers) && SizedSlots(p, slots) && fault <= 3
    requires forall v: nat :: SizedSetting(c.graph, vectors(v)) && vectors(v).fault == fault
    requires fault == 2 ==> AllDetectable(c.graph, vectors(0))
    ensures WellShaped(p.buffers, p.steps)
    ensures
      var exit := RunCase(Emitted(c, p), vectors, slots, start, PASSES);
      var receipt := RunPasses(p.steps, fault, PASSES);
      && !exit.Undefined? && WellShaped(p.buffers, receipt.ran) && CodeOf(receipt.reason) == fault
      && CaseCode(exit) == (if FaultShows(c.graph, p, vectors, fault) then fault else 2)
      && (FaultShows(c.graph, p, vectors, fault) ==> exit.m.counts == BumpedBy(start, p.buffers, receipt))
  {
    CaseAgrees(c, p, vectors, slots, start, PASSES);
    TallyCode(c, p, vectors, fault, start);
    ReceiptCode(c, p, fault);
  }
}
