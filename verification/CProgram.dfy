/**
  The straight-line programs the C11 generator writes, as data, and what they do: the statements of
  a worker case, and the checking helpers of its common header (examples/bounded_dag_c11.py, COMMON).
 */
module CProgram {
  import opened Graphs

  /** The bits of one binary32 value: sign, eight bits of exponent, 23 of fraction. */
  type Word = n: nat | n < 0x1_0000_0000 witness 0
  type Words = seq<Word>

  const POISON: Word := 0x7fc00001

  /** The word without its sign. */
  function Unsigned(w: Word): nat {
    w % 0x80000000
  }

  function ExponentField(w: Word): nat {
    w / 0x800000 % 0x100
  }

  function FractionField(w: Word): nat {
    w % 0x800000
  }

  predicate Negative(w: Word) {
    w >= 0x80000000
  }

  /** bits ^ 1 */
  function Flipped(w: Word): Word {
    if w % 2 == 0 then w + 1 else w - 1
  }

  /** tuc_corrupt at the front of a slot. */
  function Corrupted(ws: Words): Words {
    if ws == [] then [] else ws[0 := Flipped(ws[0])]
  }

  /** Zero or a normal number: fpclassify gives FP_ZERO or FP_NORMAL. */
  predicate NormalWord(w: Word) {
    Unsigned(w) == 0 || 0 < ExponentField(w) < 0xff
  }

  /** tuc_check on one element: normal, and the same bits or two zeros of either sign. */
  predicate MatchesWord(actual: Word, expected: Word) {
    NormalWord(actual) && (actual == expected || (Unsigned(actual) == 0 && Unsigned(expected) == 0))
  }

  /** Flipping the lowest bit of a matching word never matches again, not even for zeros. */
  lemma CorruptedWordMismatches(actual: Word, expected: Word)
    requires MatchesWord(actual, expected)
    ensures !MatchesWord(Flipped(actual), expected)
    ensures Flipped(actual) != actual && Flipped(actual) / 2 == actual / 2
  {
  }

  lemma PoisonIsNotNormal()
    ensures !NormalWord(POISON) && POISON == 0x7fc00001
  {
  }

  predicate AllNormal(ws: Words) {
    forall i | 0 <= i < |ws| :: NormalWord(ws[i])
  }

  /** How many leading elements match: what tuc_check adds to scalar_checks. */
  function MatchLength(actual: Words, expected: Words): (n: nat)
    ensures n <= |actual| && n <= |expected|
    ensures forall i | 0 <= i < n :: MatchesWord(actual[i], expected[i])
    ensures n < |actual| && n < |expected| ==> !MatchesWord(actual[n], expected[n])
  {
    if actual == [] || expected == [] || !MatchesWord(actual[0], expected[0]) then 0
    else 1 + MatchLength(actual[1..], expected[1..])
  }

  datatype Simple =
    | Poison(slot: nat, count: nat)
    | Bind(slot: nat, tensor: Tensor, count: nat)
    | MarkReady(slot: nat)
    | NeedReady(slots: seq<int>)
    | Call(op: nat, args: seq<int>, output: nat)
    | CountCall
    | NeedNormal(slot: nat, count: nat)
    | Corrupt(slot: nat)
    | Check(slot: nat, tensor: Tensor, count: nat)
    | CountPublication
    | NeedPublications(n: nat)
    | CountCaseRun

  /** The preprocessor-constant conditions the generator puts around blocks. */
  datatype Guard = Always | NotSkipped(op: nat) | FaultIs(k: nat) | FaultIsNot(k: nat)

  datatype Line = Plain(statement: Simple) | Block(guard: Guard, body: seq<Simple>)

  datatype WorkerCounts = WorkerCounts(caseRuns: nat, functionCalls: nat, scalarChecks: nat, publishedOutputs: nat)

  /** slots and counts outlive a pass; ready and publications are its locals. */
  datatype Machine = Machine(slots: seq<Words>, ready: set<int>, publications: nat, counts: WorkerCounts)

  /** Undefined stands for what C leaves undefined: an access outside an array. */
  datatype Exit = Running(m: Machine) | Returned(code: nat, m: Machine) | Undefined

  datatype Setting = Setting(sem: Semantics<Words>, inputs: Tensor -> Words, expected: Tensor -> Words, fault: nat)

  predicate Enabled(g: Guard, fault: nat) {
    match g
    case Always => true
    case NotSkipped(op) => !(fault == 1 && op == 0)
    case FaultIs(k) => fault == k
    case FaultIsNot(k) => fault != k
  }

  function Arguments(slots: seq<Words>, args: seq<int>): (vs: seq<Words>)
    requires forall k | 0 <= k < |args| :: 0 <= args[k] < |slots|
    ensures |vs| == |args| && forall k | 0 <= k < |args| :: vs[k] == slots[args[k]]
  {
    seq(|args|, k requires 0 <= k < |args| => slots[args[k]])
  }

  function RunSimple(s: Setting, m: Machine, i: Simple): Exit {
    match i
    case Poison(slot, count) =>
      if slot >= |m.slots| || count > |m.slots[slot]| then Undefined
      else Running(m.(slots := m.slots[slot := seq(count, _ => POISON) + m.slots[slot][count..]]))
    case Bind(slot, tensor, count) =>
      if slot >= |m.slots| || count > |m.slots[slot]| || count > |s.inputs(tensor)| then Undefined
      else Running(m.(slots := m.slots[slot := s.inputs(tensor)[..count] + m.slots[slot][count..]]))
    case MarkReady(slot) => Running(m.(ready := m.ready + {slot}))
    case NeedReady(slots) =>
      if forall k | 0 <= k < |slots| :: slots[k] in m.ready then Running(m) else Returned(1, m)
    case Call(op, args, output) =>
      if output >= |m.slots| || exists k :: 0 <= k < |args| && !(0 <= args[k] < |m.slots|) then Undefined
      else
        var result := s.sem(op, Arguments(m.slots, args));
        if |result| != |m.slots[output]| then Undefined
        else Running(m.(slots := m.slots[output := result]))
    case CountCall => Running(m.(counts := m.counts.(functionCalls := m.counts.functionCalls + 1)))
    case NeedNormal(slot, count) =>
      if slot >= |m.slots| || count > |m.slots[slot]| then Undefined
      else if AllNormal(m.slots[slot][..count]) then Running(m)
      else Returned(2, m)
    case Corrupt(slot) =>
      if slot >= |m.slots| || m.slots[slot] == [] then Undefined
      else Running(m.(slots := m.slots[slot := Corrupted(m.slots[slot])]))
    case Check(slot, tensor, count) =>
      if slot >= |m.slots| || count > |m.slots[slot]| || count > |s.expected(tensor)| then Undefined
      else
        var n := MatchLength(m.slots[slot][..count], s.expected(tensor)[..count]);
        var checked := m.(counts := m.counts.(scalarChecks := m.counts.scalarChecks + n));
        if n == count then Running(checked) else Returned(2, checked)
    case CountPublication =>
      Running(m.(publications := m.publications + 1,
                 counts := m.counts.(publishedOutputs := m.counts.publishedOutputs + 1)))
    case NeedPublications(n) => if m.publications == n then Running(m) else Returned(3, m)
    case CountCaseRun => Running(m.(counts := m.counts.(caseRuns := m.counts.caseRuns + 1)))
  }

  function RunBody(s: Setting, m: Machine, body: seq<Simple>): Exit
    decreases |body|
  {
    if body == [] then Running(m)
    else
      var e := RunSimple(s, m, body[0]);
      if e.Running? then RunBody(s, e.m, body[1..]) else e
  }

  function RunLine(s: Setting, m: Machine, line: Line): Exit {
    match line
    case Plain(statement) => RunSimple(s, m, statement)
    case Block(guard, body) => if Enabled(guard, s.fault) then RunBody(s, m, body) else Running(m)
  }

  function RunLines(s: Setting, m: Machine, lines: seq<Line>): Exit
    decreases |lines|
  {
    if lines == [] then Running(m)
    else
      var e := RunLine(s, m, lines[0]);
      if e.Running? then RunLines(s, e.m, lines[1..]) else e
  }

  /** Then: carry on with the next lines unless the program has already returned. */
  function Then(e: Exit, s: Setting, lines: seq<Line>): Exit {
    if e.Running? then RunLines(s, e.m, lines) else e
  }

  lemma {:induction false} RunLinesConcat(s: Setting, m: Machine, a: seq<Line>, b: seq<Line>)
    ensures RunLines(s, m, a + b) == Then(RunLines(s, m, a), s, b)
    decreases |a|
  {
    if a == [] {
      assert a + b == b;
    } else {
      assert (a + b)[0] == a[0] && (a + b)[1..] == a[1..] + b;
      if RunLine(s, m, a[0]).Running? {
        RunLinesConcat(s, RunLine(s, m, a[0]).m, a[1..], b);
      }
    }
  }

  lemma FirstLine(s: Setting, m: Machine, line: Line, rest: seq<Line>)
    ensures RunLines(s, m, [line] + rest) == Then(RunLine(s, m, line), s, rest)
  {
    assert ([line] + rest)[1..] == rest;
  }

  lemma FirstStatement(s: Setting, m: Machine, i: Simple, rest: seq<Simple>)
    ensures RunBody(s, m, [i] + rest) == var e := RunSimple(s, m, i);
                                         if e.Running? then RunBody(s, e.m, rest) else e
  {
    assert ([i] + rest)[1..] == rest;
  }
}
