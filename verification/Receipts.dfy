/**
  The event machine the receipts are expected to come from (examples/bounded_dag_native.py,
  expected_receipt): six passes over the schedule, eleven counters, and one of four injected
  faults; and the closed-form count of a clean run (examples/bounded_dag_native_equivalence.py).
 */
module Receipts {
  import opened Wrappers
  import opened Residency

  const PASSES := 6
  const C11 := "c11"
  const CUDA_SM86 := "cuda-sm86"
  const ACCELERATOR := "accelerator"

  datatype Counter =
    | CaseRuns | CpuCalls | GpuCalls | ScalarChecks | PublishedOutputs | UploadCalls | UploadBytes
    | DownloadCalls | DownloadBytes | ValidationDownloadCalls | ValidationDownloadBytes

  const NO_COUNTS: map<Counter, int> := map[
    CaseRuns := 0, CpuCalls := 0, GpuCalls := 0, ScalarChecks := 0, PublishedOutputs := 0, UploadCalls := 0,
    UploadBytes := 0, DownloadCalls := 0, DownloadBytes := 0, ValidationDownloadCalls := 0,
    ValidationDownloadBytes := 0]

  lemma NoCounts(k: Counter)
    ensures k in NO_COUNTS && NO_COUNTS[k] == 0
  {
    match k {
      case CaseRuns =>
      case CpuCalls =>
      case GpuCalls =>
      case ScalarChecks =>
      case PublishedOutputs =>
      case UploadCalls =>
      case UploadBytes =>
      case DownloadCalls =>
      case DownloadBytes =>
      case ValidationDownloadCalls =>
      case ValidationDownloadBytes =>
    }
  }

  /** The slots an event indexes exist, as the machine's subscripts demand. */
  predicate WellShapedEvent(buffers: seq<Buffer>, e: Event) {
    && SlotsInRange(e, |buffers|)
    && (e.kind == Execute || e.kind == Copy ==> |e.outputs| >= 1)
    && (e.kind == PublishOutput ==> |e.inputs| >= 1)
  }

  predicate WellShaped(buffers: seq<Buffer>, events: seq<Event>) {
    forall i | 0 <= i < |events| :: WellShapedEvent(buffers, events[i])
  }

  predicate SizesNonnegative(buffers: seq<Buffer>) {
    forall i | 0 <= i < |buffers| :: buffers[i].bytes >= 0
  }

  /** What one event adds to one counter when it runs. */
  function EventCount(buffers: seq<Buffer>, e: Event, k: Counter): int
    requires WellShapedEvent(buffers, e)
  {
    match e.kind
    case Execute =>
      (match k
       case CpuCalls => if e.backend == C11 then 1 else 0
       case GpuCalls => if e.backend == C11 then 0 else 1
       case ValidationDownloadCalls => if e.backend == C11 then 0 else 1
       case ValidationDownloadBytes => if e.backend == C11 then 0 else buffers[e.outputs[0]].bytes
       case _ => 0)
    case Copy =>
      var upload := buffers[e.outputs[0]].space == ACCELERATOR;
      (match k
       case UploadCalls => if upload then 1 else 0
       case UploadBytes => if upload then buffers[e.outputs[0]].bytes else 0
       case DownloadCalls => if upload then 0 else 1
       case DownloadBytes => if upload then 0 else buffers[e.outputs[0]].bytes
       case _ => 0)
    case PublishOutput =>
      (match k
       case PublishedOutputs => 1
       case ScalarChecks => buffers[e.inputs[0]].bytes / 4
       case _ => 0)
    case BindInput => 0
    case UnknownKind => 0
  }

  /** A counter after a list of events has run. */
  function Count(buffers: seq<Buffer>, events: seq<Event>, k: Counter): int
    requires WellShaped(buffers, events)
  {
    if events == [] then 0
    else Count(buffers, events[..|events| - 1], k) + EventCount(buffers, events[|events| - 1], k)
  }

  /** Counters are additive over schedule concatenation. */
  lemma {:induction false} CountAdditive(buffers: seq<Buffer>, a: seq<Event>, b: seq<Event>, k: Counter)
    requires WellShaped(buffers, a) && WellShaped(buffers, b) && WellShaped(buffers, a + b)
    ensures Count(buffers, a + b, k) == Count(buffers, a, k) + Count(buffers, b, k)
  {
    if b == [] {
      assert a + b == a;
    } else {
      assert (a + b)[..|a + b| - 1] == a + b[..|b| - 1];
      CountAdditive(buffers, a, b[..|b| - 1], k);
    }
  }

  lemma {:induction false} CountNonnegative(buffers: seq<Buffer>, events: seq<Event>, k: Counter)
    requires WellShaped(buffers, events) && SizesNonnegative(buffers)
    ensures Count(buffers, events, k) >= 0
  {
    if events != [] {
      CountNonnegative(buffers, events[..|events| - 1], k);
    }
  }

  /** The sub-schedule of the events to keep. */
  function Kept(events: seq<Event>, keep: Event -> bool): seq<Event> {
    if events == [] then []
    else
      var n := |events| - 1;
      if keep(events[n]) then Kept(events[..n], keep) + [events[n]] else Kept(events[..n], keep)
  }

  /** Splitting a schedule in two sub-schedules splits every counter, so dropping events never raises one. */
  lemma {:induction false} CountSplits(buffers: seq<Buffer>, events: seq<Event>, keep: Event -> bool, k: Counter)
    requires WellShaped(buffers, events) && SizesNonnegative(buffers)
    ensures WellShaped(buffers, Kept(events, keep)) && WellShaped(buffers, Kept(events, e => !keep(e)))
    ensures Count(buffers, Kept(events, keep), k) + Count(buffers, Kept(events, e => !keep(e)), k)
            == Count(buffers, events, k)
    ensures Count(buffers, Kept(events, keep), k) <= Count(buffers, events, k)
  {
    if events != [] {
      var n := |events| - 1;
      CountSplits(buffers, events[..n], keep, k);
      NextCount(buffers, if keep(events[n]) then Kept(events[..n], keep) else Kept(events[..n], e => !keep(e)),
                events[n], k);
    }
    CountNonnegative(buffers, Kept(events, e => !keep(e)), k);
  }

  // ----- One pass of the machine -----

  /** ran lists the events that took effect, in order. */
  datatype Pass = Pass(ready: set<int>, copied: nat, published: nat, ran: seq<Event>)

  datatype Outcome = Going(pass: Pass) | Stopped(reason: string, ran: seq<Event>)

  function Ran(st: Pass, e: Event): Pass {
    st.(ready := st.ready + SlotSet(e.outputs), ran := st.ran + [e])
  }

  function PassEvent(fault: nat, st: Pass, e: Event): Outcome {
    if !AllReady(e.inputs, st.ready) then Stopped("missing_operand", st.ran)
    else
      match e.kind
      case Execute =>
        if fault == 1 && e.operation == Some(0) then Going(st) else Going(Ran(st, e))
      case Copy =>
        if fault == 4 && st.copied == 0 then Going(st.(copied := st.copied + 1))
        else Going(Ran(st.(copied := st.copied + 1), e))
      case PublishOutput =>
        if st.published == 0 && fault == 2 then Stopped("numeric_mismatch", st.ran)
        else if st.published == 0 && fault == 3 then Going(st.(published := st.published + 1))
        else Going(Ran(st.(published := st.published + 1), e))
      case BindInput => Going(Ran(st, e))
      case UnknownKind => Going(Ran(st, e))
  }

  function RunEvents(fault: nat, events: seq<Event>): Outcome {
    if events == [] then Going(Pass({}, 0, 0, []))
    else
      match RunEvents(fault, events[..|events| - 1])
      case Stopped(reason, ran) => Stopped(reason, ran)
      case Going(st) => PassEvent(fault, st, events[|events| - 1])
  }

  /** The outcome of a run: completed passes, and every event that took effect in any pass. */
  datatype Receipt = Receipt(passed: bool, reason: string, caseRuns: nat, ran: seq<Event>)

  /** The state after n passes, or the receipt of the pass that stopped. */
  function RunPasses(events: seq<Event>, fault: nat, n: nat): Receipt {
    if n == 0 then Receipt(true, "none", 0, [])
    else
      var before := RunPasses(events, fault, n - 1);
      if !before.passed then before
      else
        match RunEvents(fault, events)
        case Stopped(reason, ran) => Receipt(false, reason, before.caseRuns, before.ran + ran)
        case Going(st) =>
          if fault == 3 then Receipt(false, "missing_publication", before.caseRuns, before.ran + st.ran)
          else Receipt(true, "none", before.caseRuns + 1, before.ran + st.ran)
  }

  /** The counter fields of a receipt. */
  function Reported(buffers: seq<Buffer>, r: Receipt, k: Counter): int
    requires WellShaped(buffers, r.ran)
  {
    if k == CaseRuns then r.caseRuns else Count(buffers, r.ran, k)
  }

  ghost predicate Tallies(counts: map<Counter, int>, buffers: seq<Buffer>, r: Receipt) {
    && WellShaped(buffers, r.ran)
    && forall k: Counter :: k in counts && counts[k] == Reported(buffers, r, k)
  }

  lemma {:induction false} StoppedEventsStay(fault: nat, events: seq<Event>, n: nat)
    requires n <= |events| && RunEvents(fault, events[..n]).Stopped?
    ensures RunEvents(fault, events) == RunEvents(fault, events[..n])
  {
    if n == |events| {
      assert events[..n] == events;
    } else {
      assert events[..|events| - 1][..n] == events[..n];
      StoppedEventsStay(fault, events[..|events| - 1], n);
    }
  }

  lemma {:induction false} StoppedPassesStay(events: seq<Event>, fault: nat, n: nat, m: nat)
    requires n <= m && !RunPasses(events, fault, n).passed
    ensures RunPasses(events, fault, m) == RunPasses(events, fault, n)
    decreases m
  {
    if n < m {
      StoppedPassesStay(events, fault, n, m - 1);
    }
  }

  lemma NextCount(buffers: seq<Buffer>, ran: seq<Event>, e: Event, k: Counter)
    requires WellShaped(buffers, ran) && WellShapedEvent(buffers, e)
    ensures WellShaped(buffers, ran + [e])
    ensures Count(buffers, ran + [e], k) == Count(buffers, ran, k) + EventCount(buffers, e, k)
  {
    assert (ran + [e])[..|ran|] == ran;
  }

  /** The counter updates of one event that runs. */
  method Book(counts: map<Counter, int>, buffers: seq<Buffer>, e: Event) returns (after: map<Counter, int>)
    requires WellShapedEvent(buffers, e)
    requires forall k: Counter :: k in counts
    ensures forall k: Counter :: k in after && after[k] == counts[k] + EventCount(buffers, e, k)
  {
    after := counts;
    if e.kind == Execute {
      var call := if e.backend == C11 then CpuCalls else GpuCalls;
      after := after[call := after[call] + 1];
      if e.backend != C11 {
        after := after[ValidationDownloadCalls := after[ValidationDownloadCalls] + 1];
        after := after[ValidationDownloadBytes := after[ValidationDownloadBytes] + buffers[e.outputs[0]].bytes];
      }
    } else if e.kind == Copy {
      var b := buffers[e.outputs[0]];
      var calls, bytes := if b.space == ACCELERATOR then UploadCalls else DownloadCalls,
                          if b.space == ACCELERATOR then UploadBytes else DownloadBytes;
      after := after[calls := after[calls] + 1];
      after := after[bytes := after[bytes] + b.bytes];
    } else if e.kind == PublishOutput {
      after := after[PublishedOutputs := after[PublishedOutputs] + 1];
      after := after[ScalarChecks := after[ScalarChecks] + buffers[e.inputs[0]].bytes / 4];
    }
  }

  /** The counters after some events ran. */
  ghost predicate Booked(counts: map<Counter, int>, start: map<Counter, int>, buffers: seq<Buffer>, ran: seq<Event>) {
    && WellShaped(buffers, ran)
    && forall k: Counter :: k in start && k in counts && counts[k] == start[k] + Count(buffers, ran, k)
  }

  lemma BookedNext(start: map<Counter, int>, before: map<Counter, int>, after: map<Counter, int>,
                   buffers: seq<Buffer>, ran: seq<Event>, e: Event)
    requires Booked(before, start, buffers, ran) && WellShapedEvent(buffers, e)
    requires forall k: Counter :: k in after && after[k] == before[k] + EventCount(buffers, e, k)
    ensures Booked(after, start, buffers, ran + [e])
  {
    forall k: Counter
      ensures WellShaped(buffers, ran + [e])
      ensures Count(buffers, ran + [e], k) == Count(buffers, ran, k) + EventCount(buffers, e, k)
    {
      NextCount(buffers, ran, e, k);
    }
  }

  lemma RunNext(fault: nat, steps: seq<Event>, i: nat, pass: Pass)
    requires i < |steps| && RunEvents(fault, steps[..i]) == Going(pass)
    ensures RunEvents(fault, steps[..i + 1]) == PassEvent(fault, pass, steps[i])
  {
    assert steps[..i + 1][..i] == steps[..i];
  }

  /** The machine's inner loop, with its ready set and counters updated in place. */
  method TraverseEvents(p: Plan, fault: nat, start: map<Counter, int>)
    returns (stopped: bool, reason: string, counts: map<Counter, int>, ghost out: Outcome)
    requires WellShaped(p.buffers, p.steps)
    requires forall k: Counter :: k in start
    ensures out == RunEvents(fault, p.steps)
    ensures stopped == out.Stopped? && (stopped ==> reason == out.reason)
    ensures
      var ran := if out.Stopped? then out.ran else out.pass.ran;
      WellShaped(p.buffers, ran) && forall k: Counter :: k in counts && counts[k] == start[k] + Count(p.buffers, ran, k)
  {
    var ready: set<int> := {};
    var copied, published := 0, 0;
    counts := start;
    ghost var ran: seq<Event> := [];
    for i := 0 to |p.steps|
      invariant RunEvents(fault, p.steps[..i]) == Going(Pass(ready, copied, published, ran))
      invariant Booked(counts, start, p.buffers, ran)
    {
      var e := p.steps[i];
      RunNext(fault, p.steps, i, Pass(ready, copied, published, ran));
      if exists k :: 0 <= k < |e.inputs| && e.inputs[k] !in ready {
        StoppedEventsStay(fault, p.steps, i + 1);
        return true, "missing_operand", counts, Stopped("missing_operand", ran);
      }
      if e.kind == Execute && fault == 1 && e.operation == Some(0) {
        continue;
      }
      if e.kind == Copy {
        copied := copied + 1;
        if fault == 4 && copied == 1 {
          continue;
        }
      }
      if e.kind == PublishOutput {
        if published == 0 && fault == 2 {
          StoppedEventsStay(fault, p.steps, i + 1);
          return true, "numeric_mismatch", counts, Stopped("numeric_mismatch", ran);
        }
        published := published + 1;
        if published == 1 && fault == 3 {
          continue;
        }
      }
      ghost var before := counts;
      counts := Book(counts, p.buffers, e);
      BookedNext(start, before, counts, p.buffers, ran, e);
      ran := ran + [e];
      ready := ready + SlotSet(e.outputs);
    }
    assert p.steps[..|p.steps|] == p.steps;
    return false, "none", counts, Going(Pass(ready, copied, published, ran));
  }

  lemma TalliesAdd(counts: map<Counter, int>, buffers: seq<Buffer>, r: Receipt, ran: seq<Event>,
                  total: map<Counter, int>)
    requires Tallies(counts, buffers, r) && WellShaped(buffers, ran)
    requires forall k: Counter :: k in total && total[k] == counts[k] + Count(buffers, ran, k)
    ensures Tallies(total[CaseRuns := counts[CaseRuns]], buffers, r.(ran := r.ran + ran))
  {
    forall k: Counter
      ensures Count(buffers, r.ran + ran, k) == Count(buffers, r.ran, k) + Count(buffers, ran, k)
    {
      CountAdditive(buffers, r.ran, ran, k);
    }
  }

  lemma {:induction false} NoCaseRuns(buffers: seq<Buffer>, events: seq<Event>)
    requires WellShaped(buffers, events)
    ensures Count(buffers, events, CaseRuns) == 0
  {
    if events != [] {
      NoCaseRuns(buffers, events[..|events| - 1]);
    }
  }

  /** One pass over the schedule, added to the receipt of the passes before it. */
  method TraversePass(p: Plan, fault: nat, before: map<Counter, int>, ghost done: nat)
    returns (passed: bool, reason: string, counts: map<Counter, int>)
    requires WellShaped(p.buffers, p.steps)
    requires RunPasses(p.steps, fault, done).passed && Tallies(before, p.buffers, RunPasses(p.steps, fault, done))
    ensures
      var receipt := RunPasses(p.steps, fault, done + 1);
      passed == receipt.passed && reason == receipt.reason && Tallies(counts, p.buffers, receipt)
  {
    ghost var receipt := RunPasses(p.steps, fault, done);
    var stopped, stopReason, total, out := TraverseEvents(p, fault, before);
    ghost var ran := if out.Stopped? then out.ran else out.pass.ran;
    NoCaseRuns(p.buffers, ran);
    assert total[CaseRuns := before[CaseRuns]] == total;
    TalliesAdd(before, p.buffers, receipt, ran, total);
    if stopped {
      return false, stopReason, total;
    }
    if fault == 3 {
      return false, "missing_publication", total;
    }
    return true, "none", total[CaseRuns := total[CaseRuns] + 1];
  }

  /** The whole interpreter: argument checks, six passes, early exits. */
  method ExpectedReceipt(p: Plan, allHost: bool, preflight: bool, fault: int)
    returns (r: Result<(bool, string, map<Counter, int>)>)
    requires WellShaped(p.buffers, p.steps)
    ensures r.Err? <==> fault < 0 || fault > 4 || (fault == 4 && allHost) || (fault != 0 && preflight)
    ensures r.Ok? && preflight ==>
              r.value.0 && r.value.1 == "none" && forall k: Counter :: k in r.value.2 && r.value.2[k] == 0
    ensures r.Ok? && !preflight ==>
              var receipt := RunPasses(p.steps, fault, 6);
              && r.value.0 == receipt.passed && r.value.1 == receipt.reason
              && Tallies(r.value.2, p.buffers, receipt)
  {
    if !(0 <= fault <= 4) || (fault == 4 && allHost) || (fault != 0 && preflight) {
      return Err("fault rejected");
    }
    var counts := NO_COUNTS;
    forall k: Counter
      ensures k in NO_COUNTS && NO_COUNTS[k] == 0
    {
      NoCounts(k);
    }
    if preflight {
      return Ok((true, "none", counts));
    }
    for i := 0 to PASSES
      invariant RunPasses(p.steps, fault, i).passed && RunPasses(p.steps, fault, i).reason == "none"
      invariant Tallies(counts, p.buffers, RunPasses(p.steps, fault, i))
    {
      var passed, reason;
      passed, reason, counts := TraversePass(p, fault, counts, i);
      if !passed {
        StoppedPassesStay(p.steps, fault, i + 1, PASSES);
        return Ok((false, reason, counts));
      }
    }
    return Ok((true, "none", counts));
  }

  // ----- The closed form -----

  /** One event's share of six clean traversals, as the verifier of records counts it. */
  function ManifestEventCount(buffers: seq<Buffer>, e: Event, k: Counter): int
    requires WellShapedEvent(buffers, e)
  {
    match e.kind
    case Execute =>
      var gpu := e.backend == CUDA_SM86;
      (match k
       case CpuCalls => if gpu then 0 else 6
       case GpuCalls => if gpu then 6 else 0
       case ValidationDownloadCalls => if gpu then 6 else 0
       case ValidationDownloadBytes => if gpu then 6 * buffers[e.outputs[0]].bytes else 0
       case _ => 0)
    case PublishOutput =>
      (match k
       case PublishedOutputs => 6
       case ScalarChecks => 6 * buffers[e.inputs[0]].bytes / 4
       case _ => 0)
    case Copy => 6 * EventCount(buffers, e, k)
    case BindInput => 0
    case UnknownKind => 0
  }

  function ManifestCount(buffers: seq<Buffer>, events: seq<Event>, k: Counter): int
    requires WellShaped(buffers, events)
  {
    if events == [] then (if k == CaseRuns then 6 else 0)
    else ManifestCount(buffers, events[..|events| - 1], k) + ManifestEventCount(buffers, events[|events| - 1], k)
  }

  /** The closed form's updates for one event. */
  method BookSix(counts: map<Counter, int>, buffers: seq<Buffer>, e: Event) returns (after: map<Counter, int>)
    requires WellShapedEvent(buffers, e)
    requires forall k: Counter :: k in counts
    ensures forall k: Counter :: k in after && after[k] == counts[k] + ManifestEventCount(buffers, e, k)
  {
    after := counts;
    if e.kind == Execute {
      var gpu := e.backend == CUDA_SM86;
      var call := if gpu then GpuCalls else CpuCalls;
      after := after[call := after[call] + 6];
      if gpu {
        after := after[ValidationDownloadCalls := after[ValidationDownloadCalls] + 6];
        after := after[ValidationDownloadBytes := after[ValidationDownloadBytes] + 6 * buffers[e.outputs[0]].bytes];
      }
    } else if e.kind == Copy {
      var b := buffers[e.outputs[0]];
      var calls, bytes := if b.space == ACCELERATOR then UploadCalls else DownloadCalls,
                          if b.space == ACCELERATOR then UploadBytes else DownloadBytes;
      after := after[calls := after[calls] + 6];
      after := after[bytes := after[bytes] + 6 * b.bytes];
    } else if e.kind == PublishOutput {
      after := after[PublishedOutputs := after[PublishedOutputs] + 6];
      after := after[ScalarChecks := after[ScalarChecks] + 6 * buffers[e.inputs[0]].bytes / 4];
    }
  }

  method ManifestCounters(p: Plan) returns (counts: map<Counter, int>)
    requires WellShaped(p.buffers, p.steps)
    ensures forall k: Counter :: k in counts && counts[k] == ManifestCount(p.buffers, p.steps, k)
  {
    forall k: Counter
      ensures k in NO_COUNTS && NO_COUNTS[k] == 0
    {
      NoCounts(k);
    }
    counts := NO_COUNTS[CaseRuns := 6];
    for i := 0 to |p.steps|
      invariant forall k: Counter :: k in counts && counts[k] == ManifestCount(p.buffers, p.steps[..i], k)
    {
      assert p.steps[..i + 1][..i] == p.steps[..i];
      counts := BookSix(counts, p.buffers, p.steps[i]);
    }
    assert p.steps[..|p.steps|] == p.steps;
  }

  predicate KnownTargets(events: seq<Event>) {
    forall i | 0 <= i < |events| && events[i].kind == Execute :: events[i].backend in [C11, CUDA_SM86]
  }

  predicate WordSizedOutputs(buffers: seq<Buffer>, events: seq<Event>)
    requires WellShaped(buffers, events)
  {
    forall i | 0 <= i < |events| && events[i].kind == PublishOutput :: buffers[events[i].inputs[0]].bytes % 4 == 0
  }

  /** Execute events on a backend neither party names: the interpreter books them on the GPU, the
      closed form on the CPU. */
  function Strays(events: seq<Event>): nat {
    if events == [] then 0
    else Strays(events[..|events| - 1])
         + (if events[|events| - 1].kind == Execute && events[|events| - 1].backend !in [C11, CUDA_SM86] then 1 else 0)
  }

  lemma SixQuarters(b: int)
    requires b >= 0
    ensures 6 * b / 4 >= 6 * (b / 4)
    ensures 6 * b / 4 == 6 * (b / 4) <==> b % 4 == 0
  {
    assert 6 * b == 4 * (6 * (b / 4)) + 6 * (b % 4);
  }

  /** With known targets and word-sized outputs every counter of the closed form is six passes. */
  lemma {:induction false} ClosedFormIsSixPasses(buffers: seq<Buffer>, events: seq<Event>, k: Counter)
    requires WellShaped(buffers, events) && SizesNonnegative(buffers)
    requires KnownTargets(events) && WordSizedOutputs(buffers, events) && k != CaseRuns
    ensures ManifestCount(buffers, events, k) == 6 * Count(buffers, events, k)
  {
    if events != [] {
      var n := |events| - 1;
      ClosedFormIsSixPasses(buffers, events[..n], k);
      assert C11 != CUDA_SM86;
      if events[n].kind == PublishOutput {
        SixQuarters(buffers[events[n].inputs[0]].bytes);
      }
    }
  }

  /** A stray execution shows in the CPU calls. */
  lemma {:induction false} StraysShow(buffers: seq<Buffer>, events: seq<Event>)
    requires WellShaped(buffers, events)
    ensures ManifestCount(buffers, events, CpuCalls) == 6 * Count(buffers, events, CpuCalls) + 6 * Strays(events)
    ensures Strays(events) == 0 <==> KnownTargets(events)
  {
    if events != [] {
      var n := |events| - 1;
      StraysShow(buffers, events[..n]);
      assert forall i | 0 <= i < n :: events[..n][i] == events[i];
      assert C11 != CUDA_SM86;
    }
  }

  /** A published buffer that is no whole number of words shows in the scalar checks. */
  lemma {:induction false} FractionsShow(buffers: seq<Buffer>, events: seq<Event>)
    requires WellShaped(buffers, events) && SizesNonnegative(buffers)
    ensures ManifestCount(buffers, events, ScalarChecks) >= 6 * Count(buffers, events, ScalarChecks)
    ensures ManifestCount(buffers, events, ScalarChecks) == 6 * Count(buffers, events, ScalarChecks)
       <==> WordSizedOutputs(buffers, events)
  {
    if events != [] {
      var n := |events| - 1;
      FractionsShow(buffers, events[..n]);
      assert forall i | 0 <= i < n :: events[..n][i] == events[i];
      if events[n].kind == PublishOutput {
        SixQuarters(buffers[events[n].inputs[0]].bytes);
      }
    }
  }

  /** The closed form counts six clean passes exactly when every execution names one of the two
      known targets and every published buffer is a whole number of words. */
  lemma ClosedFormIffSixPasses(buffers: seq<Buffer>, events: seq<Event>)
    requires WellShaped(buffers, events) && SizesNonnegative(buffers)
    ensures (forall k: Counter | k != CaseRuns :: ManifestCount(buffers, events, k) == 6 * Count(buffers, events, k))
       <==> KnownTargets(events) && WordSizedOutputs(buffers, events)
  {
    StraysShow(buffers, events);
    FractionsShow(buffers, events);
    if KnownTargets(events) && WordSizedOutputs(buffers, events) {
      forall k: Counter | k != CaseRuns
        ensures ManifestCount(buffers, events, k) == 6 * Count(buffers, events, k)
      {
        ClosedFormIsSixPasses(buffers, events, k);
      }
    }
  }
}
