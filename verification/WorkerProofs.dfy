/**
  The generated worker against a machine that never mentions its slots: on every accepted host-only
  schedule, for every fault and all kernels, inputs and constants of the right extents, the program's
  exit code and counters are those of an event machine that checks the graph's own values. And the
  program forgets its slots: no replay depends on what they held before it.
 */
module WorkerProofs {
  import opened Wrappers
  import opened Graphs
  import opened Residency
  import opened Schedules
  import opened Conservation
  import opened Receipts
  import opened Faults
  import opened CProgram
  import opened Worker

  function WordCount(g: Graph, t: Tensor): nat {
    TensorBytes(g, t) / 4
  }

  /** Operands with the extents of operation i's input tensors. */
  predicate OperandsSized(g: Graph, i: nat, args: seq<Words>)
    requires i < |g.operations|
  {
    && |args| == |g.operations[i].inputs|
    && forall k | 0 <= k < |args| :: |args[k]| == WordCount(g, g.operations[i].inputs[k])
  }

  /** Kernels fill their output's extent, and the embedded constants have their tensors' extents. */
  ghost predicate SizedSetting(g: Graph, s: Setting) {
    && (forall i: nat, args: seq<Words> | i < |g.operations| && OperandsSized(g, i, args) ::
          |s.sem(i, args)| == WordCount(g, g.operations[i].output))
    && (forall t | t in ExternalInputs(g) :: |s.inputs(t)| == WordCount(g, t))
    && (forall t | t in Terminals(g) :: |s.expected(t)| == WordCount(g, t))
  }

  ghost predicate SizedSlots(p: Plan, slots: seq<Words>)
    requires SizesNonnegative(p.buffers)
  {
    |slots| == |p.buffers| && forall i | 0 <= i < |slots| :: |slots[i]| == Count4(p, i)
  }

  function Final(g: Graph, s: Setting, t: Tensor): Words {
    ValueOf(g, s.sem, s.inputs, t)
  }

  /** The worker's counters after the given events ran. */
  function Bumped(counts: WorkerCounts, buffers: seq<Buffer>, ran: seq<Event>): WorkerCounts
    requires WellShaped(buffers, ran) && SizesNonnegative(buffers)
  {
    CountNonnegative(buffers, ran, ScalarChecks);
    WorkerCounts(counts.caseRuns, counts.functionCalls + KindCount(ran, Execute),
                 counts.scalarChecks + Count(buffers, ran, ScalarChecks),
                 counts.publishedOutputs + KindCount(ran, PublishOutput))
  }

  // ----- The program forgets its slots -----

  /** The slot poisoning leaves behind. */
  function Poisoned(p: Plan, slot: int): Words
    requires 0 <= slot < |p.buffers| && p.buffers[slot].bytes >= 0
  {
    seq(Count4(p, slot), _ => POISON)
  }

  /** After the poison lines the first n slots hold nothing but poison, and nothing else has changed. */
  lemma {:induction false} PoisonRuns(p: Plan, s: Setting, m: CProgram.Machine, n: nat)
    requires SizesNonnegative(p.buffers) && n <= |p.buffers| && SizedSlots(p, m.slots)
    ensures
      var exit := RunLines(s, m, PoisonLines(p, n));
      && exit.Running? && exit.m == m.(slots := exit.m.slots) && SizedSlots(p, exit.m.slots)
      && (forall i | 0 <= i < n :: exit.m.slots[i] == Poisoned(p, i))
      && (forall i | n <= i < |p.buffers| :: exit.m.slots[i] == m.slots[i])
  {
    if n > 0 {
      PoisonRuns(p, s, m, n - 1);
      var line := Plain(Poison(n - 1, Count4(p, n - 1)));
      var before := RunLines(s, m, PoisonLines(p, n - 1)).m;
      RunLinesConcat(s, m, PoisonLines(p, n - 1), [line]);
      assert [line] == [line] + [];
      FirstLine(s, before, line, []);
      assert Poisoned(p, n - 1) + before.slots[n - 1][Count4(p, n - 1)..] == Poisoned(p, n - 1);
    }
  }

  /** A replay is independent of the slots: whatever program follows the poison lines, two machines that
      differ in their slots alone come to the same exit, slots, code and counters included. */
  lemma ReplayForgetsSlots(p: Plan, rest: seq<Line>, s: Setting, m1: CProgram.Machine, m2: CProgram.Machine)
    requires SizesNonnegative(p.buffers) && SizedSlots(p, m1.slots) && SizedSlots(p, m2.slots)
    requires m1 == m2.(slots := m1.slots)
    ensures RunLines(s, m1, PoisonLines(p, |p.buffers|) + rest) == RunLines(s, m2, PoisonLines(p, |p.buffers|) + rest)
  {
    var poison := PoisonLines(p, |p.buffers|);
    PoisonRuns(p, s, m1, |p.buffers|);
    PoisonRuns(p, s, m2, |p.buffers|);
    RunLinesConcat(s, m1, poison, rest);
    RunLinesConcat(s, m2, poison, rest);
    assert RunLines(s, m1, poison).m.slots == RunLines(s, m2, poison).m.slots;
  }

  /** A case is independent of the slots it starts from, for all vectors, faults and kernels, pass or fail. */
  lemma {:induction false} CaseForgetsSlots(p: Plan, rest: seq<Line>, vectors: Vectors, slots1: seq<Words>,
                                            slots2: seq<Words>, start: WorkerCounts, n: nat)
    requires SizesNonnegative(p.buffers) && SizedSlots(p, slots1) && SizedSlots(p, slots2) && n > 0
    ensures RunCase(PoisonLines(p, |p.buffers|) + rest, vectors, slots1, start, n)
         == RunCase(PoisonLines(p, |p.buffers|) + rest, vectors, slots2, start, n)
  {
    var lines := PoisonLines(p, |p.buffers|) + rest;
    if n == 1 {
      var m1, m2 := CProgram.Machine(slots1, {}, 0, start), CProgram.Machine(slots2, {}, 0, start);
      assert RunCase(lines, vectors, slots1, start, 0).m == m1 && RunCase(lines, vectors, slots2, start, 0).m == m2;
      ReplayForgetsSlots(p, rest, vectors(0), m1, m2);
    } else {
      CaseForgetsSlots(p, rest, vectors, slots1, slots2, start, n - 1);
    }
  }

  lemma KeepsExtents(s: Setting, m: CProgram.Machine, i: Simple)
    ensures
      var e := RunSimple(s, m, i);
      e.Running? ==> |e.m.slots| == |m.slots| && forall k | 0 <= k < |m.slots| :: |e.m.slots[k]| == |m.slots[k]|
  {
  }

  lemma {:induction false} BodyKeepsExtents(s: Setting, m: CProgram.Machine, body: seq<Simple>)
    ensures
      var e := RunBody(s, m, body);
      e.Running? ==> |e.m.slots| == |m.slots| && forall k | 0 <= k < |m.slots| :: |e.m.slots[k]| == |m.slots[k]|
    decreases |body|
  {
    if body != [] {
      KeepsExtents(s, m, body[0]);
      if RunSimple(s, m, body[0]).Running? {
        BodyKeepsExtents(s, RunSimple(s, m, body[0]).m, body[1..]);
      }
    }
  }

  lemma {:induction false} LinesKeepExtents(s: Setting, m: CProgram.Machine, lines: seq<Line>)
    ensures
      var e := RunLines(s, m, lines);
      e.Running? ==> |e.m.slots| == |m.slots| && forall k | 0 <= k < |m.slots| :: |e.m.slots[k]| == |m.slots[k]|
    decreases |lines|
  {
    if lines != [] {
      match lines[0] {
        case Plain(statement) => KeepsExtents(s, m, statement);
        case Block(guard, body) => BodyKeepsExtents(s, m, body);
      }
      if RunLine(s, m, lines[0]).Running? {
        LinesKeepExtents(s, RunLine(s, m, lines[0]).m, lines[1..]);
      }
    }
  }

  lemma {:induction false} CaseKeepsExtents(p: Plan, lines: seq<Line>, vectors: Vectors, slots: seq<Words>,
                                            start: WorkerCounts, n: nat)
    requires SizesNonnegative(p.buffers) && SizedSlots(p, slots)
    ensures
      var e := RunCase(lines, vectors, slots, start, n);
      e.Running? ==> SizedSlots(p, e.m.slots)
  {
    if n > 0 {
      CaseKeepsExtents(p, lines, vectors, slots, start, n - 1);
      var e := RunCase(lines, vectors, slots, start, n - 1);
      if e.Running? {
        LinesKeepExtents(vectors((n - 1) / REPLAYS), e.m.(ready := {}, publications := 0), lines);
      }
    }
  }

  /** Replays are independent: each one after the first ends as it would from fresh slots, given only the
      counters its predecessors left. */
  lemma ReplaysIndependent(p: Plan, rest: seq<Line>, vectors: Vectors, slots: seq<Words>, other: seq<Words>,
                           start: WorkerCounts, n: nat)
    requires SizesNonnegative(p.buffers) && SizedSlots(p, slots) && SizedSlots(p, other)
    requires RunCase(PoisonLines(p, |p.buffers|) + rest, vectors, slots, start, n).Running?
    ensures
      var lines := PoisonLines(p, |p.buffers|) + rest;
      var counts := RunCase(lines, vectors, slots, start, n).m.counts;
      RunCase(lines, vectors, slots, start, n + 1)
      == RunLines(vectors(n / REPLAYS), CProgram.Machine(other, {}, 0, counts), lines)
  {
    var lines := PoisonLines(p, |p.buffers|) + rest;
    var e := RunCase(lines, vectors, slots, start, n);
    CaseKeepsExtents(p, lines, vectors, slots, start, n);
    ReplayForgetsSlots(p, rest, vectors(n / REPLAYS), e.m.(ready := {}, publications := 0),
                       CProgram.Machine(other, {}, 0, e.m.counts));
  }

  // ----- The event machine with the worker's checks -----

  /** What the check of a publication is shown: under fault 2 the first one sees its value corrupted. */
  function Shown(g: Graph, s: Setting, t: Tensor, first: bool): Words {
    if first && s.fault == 2 then Corrupted(Final(g, s, t)) else Final(g, s, t)
  }

  datatype Checked = Ongoing(pass: Pass) | Ended(code: nat, counts: WorkerCounts)

  /** One event, with the values the graph gives its tensors: what runs, what is checked, what is counted. */
  function CheckedEvent(g: Graph, buffers: seq<Buffer>, s: Setting, start: WorkerCounts, pass: Pass,
                        e: Event): (r: Checked)
    requires SizesNonnegative(buffers) && WellShaped(buffers, pass.ran) && WellShapedEvent(buffers, e)
    ensures r.Ongoing? ==> WellShaped(buffers, r.pass.ran)
  {
    var counts := Bumped(start, buffers, pass.ran);
    if !AllReady(e.inputs, pass.ready) then Ended(1, counts)
    else
      match e.kind
      case Execute =>
        if s.fault == 1 && e.operation == Some(0) then Ongoing(pass)
        else if !AllNormal(Final(g, s, buffers[e.outputs[0]].tensor)) then
          Ended(2, counts.(functionCalls := counts.functionCalls + 1))
        else Ongoing(Ran(pass, e))
      case PublishOutput =>
        var t := buffers[e.inputs[0]].tensor;
        var shown := Shown(g, s, t, pass.published == 0);
        var n := MatchLength(shown, s.expected(t));
        if pass.published == 0 && s.fault == 3 then Ongoing(pass.(published := pass.published + 1))
        else if n < |shown| then Ended(2, counts.(scalarChecks := counts.scalarChecks + n))
        else Ongoing(Ran(pass.(published := pass.published + 1), e))
      case _ => Ongoing(Ran(pass, e))
  }

  const FRESH := Pass({}, 0, 0, [])

  function CheckedEvents(g: Graph, buffers: seq<Buffer>, s: Setting, start: WorkerCounts,
                         steps: seq<Event>): (r: Checked)
    requires SizesNonnegative(buffers) && WellShaped(buffers, steps)
    ensures r.Ongoing? ==> WellShaped(buffers, r.pass.ran)
  {
    if steps == [] then Ongoing(FRESH)
    else
      match CheckedEvents(g, buffers, s, start, steps[..|steps| - 1])
      case Ended(code, counts) => Ended(code, counts)
      case Ongoing(pass) => CheckedEvent(g, buffers, s, start, pass, steps[|steps| - 1])
  }

  datatype Tally = Completed(counts: WorkerCounts) | Failed(code: nat, counts: WorkerCounts)

  /** One pass: the events, then the count of publications. */
  function CheckedPass(g: Graph, p: Plan, s: Setting, start: WorkerCounts, outputs: nat): Tally
    requires SizesNonnegative(p.buffers) && WellShaped(p.buffers, p.steps)
  {
    match CheckedEvents(g, p.buffers, s, start, p.steps)
    case Ended(code, counts) => Failed(code, counts)
    case Ongoing(pass) =>
      var counts := Bumped(start, p.buffers, pass.ran);
      if KindCount(pass.ran, PublishOutput) != outputs then Failed(3, counts)
      else Completed(counts.(caseRuns := counts.caseRuns + 1))
  }

  /** n passes, vector-major, up to the first that fails. */
  function CheckedCase(g: Graph, p: Plan, vectors: Vectors, start: WorkerCounts, outputs: nat, n: nat): Tally
    requires SizesNonnegative(p.buffers) && WellShaped(p.buffers, p.steps)
  {
    if n == 0 then Completed(start)
    else
      match CheckedCase(g, p, vectors, start, outputs, n - 1)
      case Failed(code, counts) => Failed(code, counts)
      case Completed(counts) => CheckedPass(g, p, vectors((n - 1) / REPLAYS), counts, outputs)
  }

  // ----- The values in the slots -----

  /** The ready slots hold the graph's values, except those of tensors that were published before (a
      corrupted one may pass its check); all slots keep their extents. */
  ghost predicate Holding(c: Context, p: Plan, s: Setting, slots: seq<Words>, ready: set<int>, done: set<Tensor>)
    requires SizesNonnegative(p.buffers)
  {
    && SizedSlots(p, slots)
    && forall i | i in ready ::
         && 0 <= i < |p.buffers|
         && (p.buffers[i].tensor !in done ==> slots[i] == Final(c.graph, s, p.buffers[i].tensor))
  }

  lemma Stored(c: Context, p: Plan, s: Setting, slots: seq<Words>, ready: set<int>, done: set<Tensor>, slot: int,
               ws: Words)
    requires SizesNonnegative(p.buffers) && Holding(c, p, s, slots, ready, done)
    requires 0 <= slot < |p.buffers| && |ws| == Count4(p, slot) && ws == Final(c.graph, s, p.buffers[slot].tensor)
    ensures Holding(c, p, s, slots[slot := ws], ready + {slot}, done)
  {
  }

  // ----- One event's lines, executed -----

  lemma BindRuns(p: Plan, s: Setting, m: CProgram.Machine, e: Event, first: bool)
    requires SizesNonnegative(p.buffers) && WellShapedEvent(p.buffers, e) && SizedSlots(p, m.slots)
    requires e.kind == BindInput && |e.outputs| == 1
    requires |s.inputs(p.buffers[e.outputs[0]].tensor)| == Count4(p, e.outputs[0])
    ensures EventLines(p, e, first).Ok?
    ensures RunLines(s, m, EventLines(p, e, first).value)
         == Running(m.(slots := m.slots[e.outputs[0] := s.inputs(p.buffers[e.outputs[0]].tensor)],
                       ready := m.ready + {e.outputs[0]}))
  {
    var slot := e.outputs[0];
    var ws := s.inputs(p.buffers[slot].tensor);
    var bind := Plain(Bind(slot, p.buffers[slot].tensor, Count4(p, slot)));
    var mark := Plain(MarkReady(slot));
    assert EventLines(p, e, first).value == [bind] + [mark];
    assert ws[..|ws|] == ws && m.slots[slot][|ws|..] == [] && ws + [] == ws;
    FirstLine(s, m, bind, [mark]);
    FirstLine(s, RunLine(s, m, bind).m, mark, []);
    assert [mark] + [] == [mark];
  }

  /** The machine after a kernel call stored its result. */
  function Called(m: CProgram.Machine, output: nat, ws: Words): CProgram.Machine
    requires output < |m.slots|
  {
    m.(slots := m.slots[output := ws], counts := m.counts.(functionCalls := m.counts.functionCalls + 1))
  }

  lemma CallBodyRuns(s: Setting, m: CProgram.Machine, op: nat, args: seq<int>, output: nat, count: nat)
    requires output < |m.slots| && forall k | 0 <= k < |args| :: 0 <= args[k] < |m.slots|
    requires |s.sem(op, Arguments(m.slots, args))| == |m.slots[output]| == count
    ensures
      var ws := s.sem(op, Arguments(m.slots, args));
      RunBody(s, m, [Call(op, args, output), CountCall, NeedNormal(output, count), MarkReady(output)]) ==
      if !AllNormal(ws) then Returned(2, Called(m, output, ws))
      else Running(Called(m, output, ws).(ready := m.ready + {output}))
  {
    var ws := s.sem(op, Arguments(m.slots, args));
    var call, mark := Call(op, args, output), MarkReady(output);
    var need := NeedNormal(output, count);
    assert [call, CountCall, need, mark] == [call] + ([CountCall] + ([need] + ([mark] + [])));
    FirstStatement(s, m, call, [CountCall] + ([need] + ([mark] + [])));
    var m1 := RunSimple(s, m, call).m;
    FirstStatement(s, m1, CountCall, [need] + ([mark] + []));
    var m2 := RunSimple(s, m1, CountCall).m;
    assert m2 == Called(m, output, ws) && ws[..count] == ws;
    FirstStatement(s, m2, need, [mark] + []);
    FirstStatement(s, m2, mark, []);
  }

  lemma ExecuteRuns(p: Plan, s: Setting, m: CProgram.Machine, e: Event, first: bool)
    requires SizesNonnegative(p.buffers) && WellShapedEvent(p.buffers, e) && SizedSlots(p, m.slots)
    requires e.kind == Execute && e.operation.Some?
    requires |s.sem(e.operation.value, Arguments(m.slots, e.inputs))| == Count4(p, e.outputs[0])
    ensures EventLines(p, e, first).Ok?
    ensures
      var ws := s.sem(e.operation.value, Arguments(m.slots, e.inputs));
      var called := Called(m, e.outputs[0], ws);
      RunLines(s, m, EventLines(p, e, first).value) ==
      if !AllReady(e.inputs, m.ready) then Returned(1, m)
      else if s.fault == 1 && e.operation.value == 0 then Running(m)
      else if !AllNormal(ws) then Returned(2, called)
      else Running(called.(ready := m.ready + {e.outputs[0]}))
  {
    var output := e.outputs[0];
    var lines := EventLines(p, e, first).value;
    assert lines == [lines[0]] + ([lines[1]] + []);
    FirstLine(s, m, lines[0], [lines[1]] + []);
    FirstLine(s, m, lines[1], []);
    CallBodyRuns(s, m, e.operation.value, e.inputs, output, Count4(p, output));
  }

  /** The machine after tuc_check saw n matching words of the shown slot contents. */
  function Seen(m: CProgram.Machine, slot: nat, shown: Words, n: nat): CProgram.Machine
    requires slot < |m.slots|
  {
    m.(slots := m.slots[slot := shown], counts := m.counts.(scalarChecks := m.counts.scalarChecks + n))
  }

  function Published(m: CProgram.Machine): CProgram.Machine {
    m.(publications := m.publications + 1,
       counts := m.counts.(publishedOutputs := m.counts.publishedOutputs + 1))
  }

  lemma CheckBodyRuns(s: Setting, m: CProgram.Machine, slot: nat, t: Tensor, count: nat)
    requires slot < |m.slots| && |s.expected(t)| == |m.slots[slot]| == count
    ensures
      var n := MatchLength(m.slots[slot], s.expected(t));
      var checked := Seen(m, slot, m.slots[slot], n);
      RunBody(s, m, [Check(slot, t, count), CountPublication]) ==
      if n < count then Returned(2, checked) else Running(Published(checked))
  {
    assert m.slots[slot := m.slots[slot]] == m.slots;
    var check := Check(slot, t, count);
    assert [check, CountPublication] == [check] + ([CountPublication] + []);
    assert m.slots[slot][..count] == m.slots[slot] && s.expected(t)[..count] == s.expected(t);
    FirstStatement(s, m, check, [CountPublication] + []);
    if RunSimple(s, m, check).Running? {
      FirstStatement(s, RunSimple(s, m, check).m, CountPublication, []);
    }
  }

  lemma CorruptLineRuns(s: Setting, m: CProgram.Machine, slot: nat)
    requires slot < |m.slots| && m.slots[slot] != []
    ensures RunLine(s, m, Block(FaultIs(2), [Corrupt(slot)]))
         == Running(if s.fault == 2 then m.(slots := m.slots[slot := Corrupted(m.slots[slot])]) else m)
  {
    assert [Corrupt(slot)] == [Corrupt(slot)] + [];
    FirstStatement(s, m, Corrupt(slot), []);
  }

  lemma ReadyLineRuns(s: Setting, m: CProgram.Machine, slot: int)
    ensures RunLine(s, m, Plain(NeedReady([slot]))) == if slot in m.ready then Running(m) else Returned(1, m)
  {
    assert [slot][0] == slot;
  }

  lemma LinesAfterReady(p: Plan, s: Setting, m: CProgram.Machine, e: Event, first: bool)
    requires SizesNonnegative(p.buffers) && WellShapedEvent(p.buffers, e) && SizedSlots(p, m.slots)
    requires e.kind == PublishOutput && |e.inputs| == 1 && Count4(p, e.inputs[0]) > 0
    ensures EventLines(p, e, first).Ok?
    ensures
      var slot := e.inputs[0];
      var shown := if first && s.fault == 2 then Corrupted(m.slots[slot]) else m.slots[slot];
      var check := Block(if first then FaultIsNot(3) else Always,
                         [Check(slot, p.buffers[slot].tensor, Count4(p, slot)), CountPublication]);
      RunLines(s, m, EventLines(p, e, first).value)
      == if slot in m.ready then RunLine(s, m.(slots := m.slots[slot := shown]), check) else Returned(1, m)
  {
    var slot := e.inputs[0];
    var lines := EventLines(p, e, first).value;
    ReadyLineRuns(s, m, slot);
    if first {
      assert lines == [lines[0]] + ([lines[1]] + ([lines[2]] + []));
      FirstLine(s, m, lines[0], [lines[1]] + ([lines[2]] + []));
      FirstLine(s, m, lines[1], [lines[2]] + []);
      CorruptLineRuns(s, m, slot);
      FirstLine(s, RunLine(s, m, lines[1]).m, lines[2], []);
    } else {
      assert lines == [lines[0]] + ([lines[1]] + []);
      FirstLine(s, m, lines[0], [lines[1]] + []);
      FirstLine(s, m, lines[1], []);
    }
    assert m.slots[slot := m.slots[slot]] == m.slots;
  }

  lemma PublishRuns(p: Plan, s: Setting, m: CProgram.Machine, e: Event, first: bool)
    requires SizesNonnegative(p.buffers) && WellShapedEvent(p.buffers, e) && SizedSlots(p, m.slots)
    requires e.kind == PublishOutput && |e.inputs| == 1 && Count4(p, e.inputs[0]) > 0
    requires |s.expected(p.buffers[e.inputs[0]].tensor)| == Count4(p, e.inputs[0])
    ensures EventLines(p, e, first).Ok?
    ensures
      var slot := e.inputs[0];
      var shown := if first && s.fault == 2 then Corrupted(m.slots[slot]) else m.slots[slot];
      var n := MatchLength(shown, s.expected(p.buffers[slot].tensor));
      RunLines(s, m, EventLines(p, e, first).value) ==
      if slot !in m.ready then Returned(1, m)
      else if first && s.fault == 3 then Running(m)
      else if n < |shown| then Returned(2, Seen(m, slot, shown, n))
      else Running(Published(Seen(m, slot, shown, n)))
  {
    var slot := e.inputs[0];
    var shown := if first && s.fault == 2 then Corrupted(m.slots[slot]) else m.slots[slot];
    var after := m.(slots := m.slots[slot := shown]);
    assert shown == m.slots[slot] ==> after == m by {
      assert m.slots[slot := m.slots[slot]] == m.slots;
    }
    LinesAfterReady(p, s, m, e, first);
    CheckBodyRuns(s, after, slot, p.buffers[slot].tensor, Count4(p, slot));
  }

  // ----- One event: the program keeps step with the checked machine -----

  ghost predicate Lockstep(c: Context, p: Plan, s: Setting, start: WorkerCounts, done: set<Tensor>,
                           pass: Pass, m: CProgram.Machine)
  {
    && SizesNonnegative(p.buffers)
    && WellShaped(p.buffers, pass.ran)
    && m.ready == pass.ready
    && m.publications == KindCount(pass.ran, PublishOutput)
    && m.counts == Bumped(start, p.buffers, pass.ran)
    && Holding(c, p, s, m.slots, m.ready, done)
  }

  ghost predicate PositiveShapes(g: Graph) {
    forall t | 0 <= t < |g.shapes| :: Prod(g.shapes[t]) > 0
  }

  lemma SlotExtent(c: Context, p: Plan, slot: int)
    requires InspectBuffers(c, p.buffers).Ok? && PositiveShapes(c.graph) && 0 <= slot < |p.buffers|
    ensures p.buffers[slot].bytes > 0 && Count4(p, slot) == WordCount(c.graph, p.buffers[slot].tensor) > 0
  {
    assert InspectBuffer(c, p.buffers[slot]).Ok?;
  }

  lemma BumpedNext(start: WorkerCounts, buffers: seq<Buffer>, ran: seq<Event>, e: Event)
    requires SizesNonnegative(buffers) && WellShaped(buffers, ran) && WellShapedEvent(buffers, e)
    ensures WellShaped(buffers, ran + [e]) && EventCount(buffers, e, ScalarChecks) >= 0
    ensures
      var before := Bumped(start, buffers, ran);
      Bumped(start, buffers, ran + [e])
      == before.(functionCalls := before.functionCalls + (if e.kind == Execute then 1 else 0),
                 scalarChecks := before.scalarChecks + EventCount(buffers, e, ScalarChecks),
                 publishedOutputs := before.publishedOutputs + (if e.kind == PublishOutput then 1 else 0))
    ensures KindCount(ran + [e], PublishOutput)
         == KindCount(ran, PublishOutput) + (if e.kind == PublishOutput then 1 else 0)
  {
    NextCount(buffers, ran, e, ScalarChecks);
    assert (ran + [e])[..|ran|] == ran;
  }

  /** What running an event's lines must come to. */
  ghost predicate Agrees(c: Context, p: Plan, s: Setting, start: WorkerCounts, done: set<Tensor>, o: Checked,
                         exit: Exit)
  {
    match o
    case Ended(code, counts) => exit.Returned? && exit.code == code && exit.m.counts == counts
    case Ongoing(pass) => exit.Running? && Lockstep(c, p, s, start, done, pass, exit.m)
  }

  /** What an accepted event finds: a plan, a graph and a setting of matching extents, and a settled prefix. */
  ghost predicate Prepared(c: Context, p: Plan, s: Setting, insp: Inspection) {
    && Assigned(c) && SizedSetting(c.graph, s) && ReadsBackward(c.graph) && SingleAssignment(c.graph)
    && InspectBuffers(c, p.buffers).Ok? && PositiveShapes(c.graph)
    && ReadySettled(c, p.buffers, insp) && insp.published <= Terminals(c.graph)
  }

  lemma BindAgrees(c: Context, p: Plan, s: Setting, start: WorkerCounts, insp: Inspection, index: nat, e: Event,
                   pass: Pass, m: CProgram.Machine)
    requires Prepared(c, p, s, insp) && InspectStep(c, p.buffers, insp, index, e).Ok? && e.kind == BindInput
    requires Lockstep(c, p, s, start, insp.published, pass, m) && WellShapedEvent(p.buffers, e)
    ensures EventLines(p, e, pass.published == 0).Ok?
    ensures Agrees(c, p, s, start, insp.published, CheckedEvent(c.graph, p.buffers, s, start, pass, e),
                   RunLines(s, m, EventLines(p, e, pass.published == 0).value))
  {
    AcceptedStepEffect(c, p.buffers, insp, index, e);
    var slot := e.outputs[0];
    var t := p.buffers[slot].tensor;
    SlotExtent(c, p, slot);
    ExternalInputKeepsItsValue(c.graph, s.sem, s.inputs, t);
    BindRuns(p, s, m, e, pass.published == 0);
    BumpedNext(start, p.buffers, pass.ran, e);
    Stored(c, p, s, m.slots, m.ready, insp.published, slot, s.inputs(t));
    assert SlotSet(e.outputs) == {slot};
  }

  /** A kernel called on ready operands computes its tensor's value in the graph. */
  lemma CallComputes(c: Context, p: Plan, s: Setting, insp: Inspection, index: nat, e: Event, slots: seq<Words>,
                     ready: set<int>)
    requires Prepared(c, p, s, insp) && InspectStep(c, p.buffers, insp, index, e).Ok? && e.kind == Execute
    requires SizesNonnegative(p.buffers) && Holding(c, p, s, slots, ready, insp.published) && AllReady(e.inputs, ready)
    ensures |e.outputs| == 1 && e.operation == Some(insp.executed) && insp.executed < |c.graph.operations|
    ensures s.sem(insp.executed, Arguments(slots, e.inputs)) == Final(c.graph, s, p.buffers[e.outputs[0]].tensor)
    ensures p.buffers[e.outputs[0]].tensor == c.graph.operations[insp.executed].output
  {
    AcceptedStepEffect(c, p.buffers, insp, index, e);
    var op := c.graph.operations[insp.executed];
    forall k | 0 <= k < |op.inputs|
      ensures SettledBy(c.graph, insp.executed, op.inputs[k])
      ensures Arguments(slots, e.inputs)[k] == ValuesOf(c.graph, s.sem, s.inputs, op.inputs)[k]
    {
      assert p.buffers[e.inputs[k]].tensor == op.inputs[k];
      assert e.inputs[k] in insp.ready;
      assert Consumed(c.graph, op.inputs[k]);
      assert slots[e.inputs[k]] == Final(c.graph, s, op.inputs[k]);
    }
    assert Arguments(slots, e.inputs) == ValuesOf(c.graph, s.sem, s.inputs, op.inputs);
    ProducerEquation(c.graph, s.sem, s.inputs, insp.executed);
  }

  lemma ExecuteShape(c: Context, p: Plan, insp: Inspection, index: nat, e: Event)
    requires Assigned(c) && InspectStep(c, p.buffers, insp, index, e).Ok? && e.kind == Execute
    ensures |e.outputs| == 1 && 0 <= e.outputs[0] < |p.buffers| && SlotSet(e.outputs) == {e.outputs[0]}
    ensures insp.executed < |c.graph.operations| && e.operation == Some(insp.executed)
    ensures p.buffers[e.outputs[0]].tensor == c.graph.operations[insp.executed].output
  {
    AcceptedStepEffect(c, p.buffers, insp, index, e);
  }

  lemma LockstepCalled(c: Context, p: Plan, s: Setting, start: WorkerCounts, done: set<Tensor>, e: Event, pass: Pass,
                       m: CProgram.Machine, ws: Words)
    requires Lockstep(c, p, s, start, done, pass, m) && WellShapedEvent(p.buffers, e)
    requires e.kind == Execute && SlotSet(e.outputs) == {e.outputs[0]}
    requires ws == Final(c.graph, s, p.buffers[e.outputs[0]].tensor) && |ws| == Count4(p, e.outputs[0])
    ensures Lockstep(c, p, s, start, done, Ran(pass, e),
                     Called(m, e.outputs[0], ws).(ready := m.ready + {e.outputs[0]}))
  {
    Stored(c, p, s, m.slots, m.ready, done, e.outputs[0], ws);
    BumpedNext(start, p.buffers, pass.ran, e);
  }

  lemma ExecuteAgrees(c: Context, p: Plan, s: Setting, start: WorkerCounts, done: set<Tensor>, e: Event, pass: Pass,
                      m: CProgram.Machine, ws: Words)
    requires Lockstep(c, p, s, start, done, pass, m) && WellShapedEvent(p.buffers, e)
    requires e.kind == Execute && e.operation.Some? && |e.outputs| == 1 && SlotSet(e.outputs) == {e.outputs[0]}
    requires ws == Final(c.graph, s, p.buffers[e.outputs[0]].tensor) && |ws| == Count4(p, e.outputs[0])
    requires |s.sem(e.operation.value, Arguments(m.slots, e.inputs))| == Count4(p, e.outputs[0])
    requires AllReady(e.inputs, m.ready) ==> s.sem(e.operation.value, Arguments(m.slots, e.inputs)) == ws
    ensures EventLines(p, e, pass.published == 0).Ok?
    ensures Agrees(c, p, s, start, done, CheckedEvent(c.graph, p.buffers, s, start, pass, e),
                   RunLines(s, m, EventLines(p, e, pass.published == 0).value))
  {
    ExecuteRuns(p, s, m, e, pass.published == 0);
    LockstepCalled(c, p, s, start, done, e, pass, m, ws);
  }

  lemma PublishShape(c: Context, p: Plan, insp: Inspection, index: nat, e: Event)
    requires Assigned(c) && InspectStep(c, p.buffers, insp, index, e).Ok? && e.kind == PublishOutput
    ensures |e.inputs| == 1 && 0 <= e.inputs[0] < |p.buffers| && SlotSet(e.outputs) == {}
    ensures p.buffers[e.inputs[0]].tensor in Terminals(c.graph)
  {
    AcceptedStepEffect(c, p.buffers, insp, index, e);
  }

  lemma LockstepPublished(c: Context, p: Plan, s: Setting, start: WorkerCounts, done: set<Tensor>, e: Event, pass: Pass,
                          m: CProgram.Machine, shown: Words)
    requires Lockstep(c, p, s, start, done, pass, m) && WellShapedEvent(p.buffers, e)
    requires e.kind == PublishOutput && SlotSet(e.outputs) == {} && |shown| == |m.slots[e.inputs[0]]|
    ensures
      var slot := e.inputs[0];
      Lockstep(c, p, s, start, done + {p.buffers[slot].tensor}, Ran(pass.(published := pass.published + 1), e),
               Published(Seen(m, slot, shown, |shown|)))
  {
    BumpedNext(start, p.buffers, pass.ran, e);
  }

  lemma LockstepSkipped(c: Context, p: Plan, s: Setting, start: WorkerCounts, done: set<Tensor>, pass: Pass,
                        m: CProgram.Machine, t: Tensor)
    requires Lockstep(c, p, s, start, done, pass, m)
    ensures Lockstep(c, p, s, start, done + {t}, pass.(published := pass.published + 1), m)
  {
  }

  lemma PublishChecked(g: Graph, buffers: seq<Buffer>, s: Setting, start: WorkerCounts, pass: Pass, e: Event)
    requires SizesNonnegative(buffers) && WellShaped(buffers, pass.ran) && WellShapedEvent(buffers, e)
    requires e.kind == PublishOutput && |e.inputs| == 1
    ensures
      var t := buffers[e.inputs[0]].tensor;
      var shown := Shown(g, s, t, pass.published == 0);
      var n := MatchLength(shown, s.expected(t));
      var counts := Bumped(start, buffers, pass.ran);
      CheckedEvent(g, buffers, s, start, pass, e)
      == if e.inputs[0] !in pass.ready then Ended(1, counts)
         else if pass.published == 0 && s.fault == 3 then Ongoing(pass.(published := pass.published + 1))
         else if n < |shown| then Ended(2, counts.(scalarChecks := counts.scalarChecks + n))
         else Ongoing(Ran(pass.(published := pass.published + 1), e))
  {
  }

  lemma PublishAgrees(c: Context, p: Plan, s: Setting, start: WorkerCounts, done: set<Tensor>, e: Event, pass: Pass,
                      m: CProgram.Machine, t: Tensor)
    requires Lockstep(c, p, s, start, done, pass, m) && WellShapedEvent(p.buffers, e)
    requires e.kind == PublishOutput && |e.inputs| == 1 && SlotSet(e.outputs) == {} && Count4(p, e.inputs[0]) > 0
    requires t == p.buffers[e.inputs[0]].tensor && t !in done
    requires |s.expected(t)| == Count4(p, e.inputs[0]) == |Final(c.graph, s, t)|
    ensures EventLines(p, e, pass.published == 0).Ok?
    ensures Agrees(c, p, s, start, done + {t}, CheckedEvent(c.graph, p.buffers, s, start, pass, e),
                   RunLines(s, m, EventLines(p, e, pass.published == 0).value))
  {
    var slot := e.inputs[0];
    var shown := Shown(c.graph, s, t, pass.published == 0);
    PublishRuns(p, s, m, e, pass.published == 0);
    PublishChecked(c.graph, p.buffers, s, start, pass, e);
    if slot in m.ready {
      assert m.slots[slot] == Final(c.graph, s, t);
      if pass.published == 0 && s.fault == 3 {
        LockstepSkipped(c, p, s, start, done, pass, m, t);
      } else {
        LockstepPublished(c, p, s, start, done, e, pass, m, shown);
      }
    }
  }

  /** In a graph without forward reads every operation's value has its tensor's extent. */
  lemma {:induction false} ValueSized(g: Graph, s: Setting, i: nat)
    requires SizedSetting(g, s) && SingleAssignment(g) && ReadsBackward(g) && i < |g.operations|
    ensures |Final(g, s, g.operations[i].output)| == WordCount(g, g.operations[i].output)
    decreases i
  {
    var inputs := g.operations[i].inputs;
    forall k | 0 <= k < |inputs|
      ensures SettledBy(g, i, inputs[k]) && |Final(g, s, inputs[k])| == WordCount(g, inputs[k])
    {
      if Produced(g, inputs[k]) {
        var j :| 0 <= j < |g.operations| && g.operations[j].output == inputs[k];
        assert j < i;
        ValueSized(g, s, j);
      } else {
        assert inputs[k] in ExternalInputs(g);
        ExternalInputKeepsItsValue(g, s.sem, s.inputs, inputs[k]);
      }
    }
    ProducerEquation(g, s.sem, s.inputs, i);
    assert OperandsSized(g, i, ValuesOf(g, s.sem, s.inputs, inputs));
  }

  lemma TerminalSized(g: Graph, s: Setting, t: Tensor)
    requires SizedSetting(g, s) && SingleAssignment(g) && ReadsBackward(g) && t in Terminals(g)
    ensures |Final(g, s, t)| == WordCount(g, t) == |s.expected(t)|
  {
    var i :| 0 <= i < |g.operations| && g.operations[i].output == t;
    ValueSized(g, s, i);
  }

  /** Whatever the slots hold, the kernel is called with its operands' extents. */
  lemma CallSized(c: Context, p: Plan, s: Setting, insp: Inspection, index: nat, e: Event, slots: seq<Words>)
    requires Assigned(c) && SizedSetting(c.graph, s) && InspectBuffers(c, p.buffers).Ok? && PositiveShapes(c.graph)
    requires InspectStep(c, p.buffers, insp, index, e).Ok? && e.kind == Execute
    requires SizesNonnegative(p.buffers) && SizedSlots(p, slots)
    ensures insp.executed < |c.graph.operations| && forall k | 0 <= k < |e.inputs| :: 0 <= e.inputs[k] < |slots|
    ensures |s.sem(insp.executed, Arguments(slots, e.inputs))|
            == WordCount(c.graph, c.graph.operations[insp.executed].output)
  {
    AcceptedStepEffect(c, p.buffers, insp, index, e);
    var args := Arguments(slots, e.inputs);
    forall k | 0 <= k < |args|
      ensures |args[k]| == WordCount(c.graph, c.graph.operations[insp.executed].inputs[k])
    {
      SlotExtent(c, p, e.inputs[k]);
    }
    assert OperandsSized(c.graph, insp.executed, args);
  }

  lemma StepExecutes(c: Context, p: Plan, s: Setting, start: WorkerCounts, insp: Inspection, index: nat, e: Event,
                     pass: Pass, m: CProgram.Machine)
    requires Prepared(c, p, s, insp) && InspectStep(c, p.buffers, insp, index, e).Ok? && e.kind == Execute
    requires Lockstep(c, p, s, start, insp.published, pass, m) && WellShapedEvent(p.buffers, e)
    ensures EventLines(p, e, pass.published == 0).Ok?
    ensures Agrees(c, p, s, start, insp.published, CheckedEvent(c.graph, p.buffers, s, start, pass, e),
                   RunLines(s, m, EventLines(p, e, pass.published == 0).value))
  {
    ExecuteShape(c, p, insp, index, e);
    var slot := e.outputs[0];
    SlotExtent(c, p, slot);
    ValueSized(c.graph, s, insp.executed);
    CallSized(c, p, s, insp, index, e, m.slots);
    if AllReady(e.inputs, m.ready) {
      CallComputes(c, p, s, insp, index, e, m.slots, m.ready);
    }
    ExecuteAgrees(c, p, s, start, insp.published, e, pass, m, Final(c.graph, s, p.buffers[slot].tensor));
  }

  lemma StepPublishes(c: Context, p: Plan, s: Setting, start: WorkerCounts, insp: Inspection, index: nat, e: Event,
                      pass: Pass, m: CProgram.Machine)
    requires Prepared(c, p, s, insp) && InspectStep(c, p.buffers, insp, index, e).Ok? && e.kind == PublishOutput
    requires Lockstep(c, p, s, start, insp.published, pass, m) && WellShapedEvent(p.buffers, e)
    ensures EventLines(p, e, pass.published == 0).Ok?
    ensures Agrees(c, p, s, start, InspectStep(c, p.buffers, insp, index, e).value.published,
                   CheckedEvent(c.graph, p.buffers, s, start, pass, e),
                   RunLines(s, m, EventLines(p, e, pass.published == 0).value))
  {
    PublishShape(c, p, insp, index, e);
    var slot := e.inputs[0];
    SlotExtent(c, p, slot);
    TerminalSized(c.graph, s, p.buffers[slot].tensor);
    PublishAgrees(c, p, s, start, insp.published, e, pass, m, p.buffers[slot].tensor);
  }

  lemma StepAgrees(c: Context, p: Plan, s: Setting, start: WorkerCounts, insp: Inspection, index: nat, e: Event,
                   pass: Pass, m: CProgram.Machine)
    requires Prepared(c, p, s, insp) && InspectStep(c, p.buffers, insp, index, e).Ok? && e.kind != Copy
    requires Lockstep(c, p, s, start, insp.published, pass, m) && WellShapedEvent(p.buffers, e)
    ensures EventLines(p, e, pass.published == 0).Ok?
    ensures Agrees(c, p, s, start, InspectStep(c, p.buffers, insp, index, e).value.published,
                   CheckedEvent(c.graph, p.buffers, s, start, pass, e),
                   RunLines(s, m, EventLines(p, e, pass.published == 0).value))
  {
    ReadyGrows(c, p.buffers, insp, index, e);
    if e.kind == BindInput {
      BindAgrees(c, p, s, start, insp, index, e, pass, m);
    } else if e.kind == Execute {
      StepExecutes(c, p, s, start, insp, index, e, pass, m);
    } else {
      StepPublishes(c, p, s, start, insp, index, e, pass, m);
    }
  }

  // ----- One pass -----

  /** Every publication that was reached counts as seen, skipped ones included. */
  lemma {:induction false} CheckedPublications(g: Graph, buffers: seq<Buffer>, s: Setting, start: WorkerCounts,
                                               steps: seq<Event>)
    requires SizesNonnegative(buffers) && WellShaped(buffers, steps)
             && CheckedEvents(g, buffers, s, start, steps).Ongoing?
    ensures CheckedEvents(g, buffers, s, start, steps).pass.published == KindCount(steps, PublishOutput)
  {
    if steps != [] {
      CheckedPublications(g, buffers, s, start, steps[..|steps| - 1]);
    }
  }

  lemma {:induction false} PrefixAgrees(c: Context, p: Plan, s: Setting, m: CProgram.Machine, steps: seq<Event>)
    requires Assigned(c) && SizedSetting(c.graph, s) && ReadsBackward(c.graph)
    requires InspectBuffers(c, p.buffers).Ok? && PositiveShapes(c.graph)
    requires SingleAssignment(c.graph) && InspectSteps(c, p.buffers, steps).Ok? && KindCount(steps, Copy) == 0
    requires SizesNonnegative(p.buffers) && WellShaped(p.buffers, steps)
    requires SizedSlots(p, m.slots) && m.ready == {} && m.publications == 0
    ensures ScheduleLines(p, steps).Ok?
    ensures Agrees(c, p, s, m.counts, InspectSteps(c, p.buffers, steps).value.published,
                   CheckedEvents(c.graph, p.buffers, s, m.counts, steps),
                   RunLines(s, m, ScheduleLines(p, steps).value))
  {
    if steps == [] {
      assert m.counts == Bumped(m.counts, p.buffers, []);
    } else {
      var n := |steps| - 1;
      var e := steps[n];
      PrefixAgrees(c, p, s, m, steps[..n]);
      var insp := InspectSteps(c, p.buffers, steps[..n]).value;
      var exit := RunLines(s, m, ScheduleLines(p, steps[..n]).value);
      var before := CheckedEvents(c.graph, p.buffers, s, m.counts, steps[..n]);
      var first := KindCount(steps[..n], PublishOutput) == 0;
      EventEmitted(c, p, insp, n, e, first);
      RunLinesConcat(s, m, ScheduleLines(p, steps[..n]).value, EventLines(p, e, first).value);
      if before.Ongoing? {
        CheckedPublications(c.graph, p.buffers, s, m.counts, steps[..n]);
        PrefixSettled(c, p.buffers, steps[..n]);
        BoundsRespected(c, p.buffers, steps[..n]);
        StepAgrees(c, p, s, m.counts, insp, n, e, before.pass, exit.m);
      }
    }
  }

  lemma EventEmitted(c: Context, p: Plan, insp: Inspection, index: nat, e: Event, first: bool)
    requires Assigned(c) && InspectStep(c, p.buffers, insp, index, e).Ok? && e.kind != Copy
    requires SizesNonnegative(p.buffers) && WellShapedEvent(p.buffers, e)
    ensures EventLines(p, e, first).Ok?
  {
    AcceptedStepEffect(c, p.buffers, insp, index, e);
  }

  lemma EpilogueRuns(s: Setting, m: CProgram.Machine, outputs: nat)
    ensures RunLines(s, m, Epilogue(outputs))
         == if m.publications != outputs then Returned(3, m)
            else Running(m.(counts := m.counts.(caseRuns := m.counts.caseRuns + 1)))
  {
    var need, count := Plain(NeedPublications(outputs)), Plain(CountCaseRun);
    assert Epilogue(outputs) == [need] + ([count] + []);
    FirstLine(s, m, need, [count] + []);
    FirstLine(s, m, count, []);
  }

  lemma {:induction false} NoCopiesWithoutBytes(buffers: seq<Buffer>, steps: seq<Event>)
    requires WellShaped(buffers, steps) && SizesNonnegative(buffers)
    requires forall i | 0 <= i < |steps| && steps[i].kind == Copy ::
               |steps[i].outputs| == 1 && buffers[steps[i].outputs[0]].bytes > 0
    ensures CopyBytes(buffers, steps) >= 0
    ensures CopyBytes(buffers, steps) == 0 ==> KindCount(steps, Copy) == 0
  {
    if steps != [] {
      var n := |steps| - 1;
      assert forall i | 0 <= i < n :: steps[..n][i] == steps[i];
      NoCopiesWithoutBytes(buffers, steps[..n]);
    }
  }

  lemma HostOnlyHasNoCopies(c: Context, p: Plan)
    requires Assigned(c) && Accepted(c, p) && PositiveShapes(c.graph) && HostOnly(p)
    ensures KindCount(p.steps, Copy) == 0
  {
    AcceptedWellShaped(c, p);
    forall i | 0 <= i < |p.steps| && p.steps[i].kind == Copy
      ensures |p.steps[i].outputs| == 1 && p.buffers[p.steps[i].outputs[0]].bytes > 0
    {
      StepOfAccepted(c, p.buffers, p.steps, i);
      AcceptedStepEffect(c, p.buffers, InspectSteps(c, p.buffers, p.steps[..i]).value, i, p.steps[i]);
      SlotExtent(c, p, p.steps[i].outputs[0]);
    }
    NoCopiesWithoutBytes(p.buffers, p.steps);
  }

  /** What the worker's setting and plan must be for a case: an accepted host-only plan of a
      single-assignment graph with positive extents, and kernels and constants of those extents. */
  ghost predicate Compiled(c: Context, p: Plan) {
    && Assigned(c) && Accepted(c, p) && SingleAssignment(c.graph) && PositiveShapes(c.graph)
    && c.graph.operations != []
    && HostOnly(p)
  }

  /** A pass that ended as the checked machine says. */
  ghost predicate TallyShown(p: Plan, t: Tally, exit: Exit) {
    && SizesNonnegative(p.buffers)
    && match t
       case Completed(counts) => exit.Running? && exit.m.counts == counts && SizedSlots(p, exit.m.slots)
       case Failed(code, counts) => exit.Returned? && exit.code == code && exit.m.counts == counts
  }

  lemma PassAgrees(c: Context, p: Plan, s: Setting, m: CProgram.Machine)
    requires Compiled(c, p) && SizedSetting(c.graph, s)
    requires SizesNonnegative(p.buffers) && SizedSlots(p, m.slots) && m.ready == {} && m.publications == 0
    ensures WellShaped(p.buffers, p.steps) && WorkerLines(p, |Terminals(c.graph)|).Ok?
    ensures TallyShown(p, CheckedPass(c.graph, p, s, m.counts, |Terminals(c.graph)|),
                       RunLines(s, m, WorkerLines(p, |Terminals(c.graph)|).value))
  {
    AcceptedWellShaped(c, p);
    AcceptedGraphReadsBackward(c, p);
    HostOnlyHasNoCopies(c, p);
    var outputs := |Terminals(c.graph)|;
    var poison := PoisonLines(p, |p.buffers|);
    PoisonRuns(p, s, m, |p.buffers|);
    var poisoned := RunLines(s, m, poison).m;
    PrefixAgrees(c, p, s, poisoned, p.steps);
    var schedule := ScheduleLines(p, p.steps).value;
    RunLinesConcat(s, m, poison + schedule, Epilogue(outputs));
    RunLinesConcat(s, m, poison, schedule);
    var exit := RunLines(s, poisoned, schedule);
    if exit.Running? {
      EpilogueRuns(s, exit.m, outputs);
    }
  }

  lemma {:induction false} ScheduleEmitted(c: Context, p: Plan, steps: seq<Event>)
    requires Assigned(c) && InspectSteps(c, p.buffers, steps).Ok? && KindCount(steps, Copy) == 0
    requires SizesNonnegative(p.buffers) && WellShaped(p.buffers, steps)
    ensures ScheduleLines(p, steps).Ok?
  {
    if steps != [] {
      var n := |steps| - 1;
      assert forall i | 0 <= i < n :: steps[..n][i] == steps[i];
      ScheduleEmitted(c, p, steps[..n]);
      EventEmitted(c, p, InspectSteps(c, p.buffers, steps[..n]).value, n, steps[n],
                   KindCount(steps[..n], PublishOutput) == 0);
    }
  }

  /** The generator accepts every compiled plan. */
  lemma WorkerEmitted(c: Context, p: Plan)
    requires Compiled(c, p)
    ensures WellShaped(p.buffers, p.steps) && SizesNonnegative(p.buffers)
    ensures WorkerLines(p, |Terminals(c.graph)|).Ok?
  {
    AcceptedWellShaped(c, p);
    HostOnlyHasNoCopies(c, p);
    ScheduleEmitted(c, p, p.steps);
  }

  /** The lines the generator emits for a compiled plan. */
  ghost function Emitted(c: Context, p: Plan): seq<Line>
    requires Compiled(c, p)
  {
    WorkerEmitted(c, p);
    WorkerLines(p, |Terminals(c.graph)|).value
  }

  /** The generated program is the checked machine: on every accepted host-only plan, for all vectors of
      the right extents, each with any fault, exit code and counters after any number of passes. */
  lemma {:induction false} CaseAgrees(c: Context, p: Plan, vectors: Vectors, slots: seq<Words>, start: WorkerCounts,
                                      n: nat)
    requires Compiled(c, p) && SizesNonnegative(p.buffers) && SizedSlots(p, slots)
    requires forall v: nat :: SizedSetting(c.graph, vectors(v))
    ensures WellShaped(p.buffers, p.steps)
    ensures TallyShown(p, CheckedCase(c.graph, p, vectors, start, |Terminals(c.graph)|, n),
                       RunCase(Emitted(c, p), vectors, slots, start, n))
  {
    WorkerEmitted(c, p);
    if n > 0 {
      CaseAgrees(c, p, vectors, slots, start, n - 1);
      var exit := RunCase(Emitted(c, p), vectors, slots, start, n - 1);
      if exit.Running? {
        PassAgrees(c, p, vectors((n - 1) / REPLAYS), exit.m.(ready := {}, publications := 0));
      }
    }
  }
}
