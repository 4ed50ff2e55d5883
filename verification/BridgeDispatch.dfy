/**
  The plan bridge's workers: the check of the dispatch table before anything runs
  (docker/plan-native-bridge/dispatch_contract.h, plan_valid) and the switch on opcode numbers that
  runs it (docker/plan-native-bridge/host.c, evaluate). The lowered tables pass the check and leave
  the chain's values; the check alone lets four other tables through, and these do not.
 */
module BridgeDispatch {
  import opened Graphs
  import opened Arithmetic
  import opened Bridge
  import K = Kernels
  import P = Portfolio

  const STEPS := 3

  // ----- The table check -----

  function ReadyAfter(rows: seq<StepRow>, n: nat): set<nat>
    requires n <= |rows|
  {
    if n == 0 then {0, 1} else ReadyAfter(rows, n - 1) + {rows[n - 1].out}
  }

  function UsedAfter(rows: seq<StepRow>, n: nat): set<nat>
    requires n <= |rows|
  {
    if n == 0 then {} else UsedAfter(rows, n - 1) + {rows[n - 1].opcode}
  }

  /** The checks on one step, in the order of the C function. */
  predicate StepOk(s: StepRow, ready: set<nat>, used: set<nat>) {
    && 1 <= s.opcode <= 3 && s.opcode !in used
    && s.a < 5 && 2 <= s.out < 5 && s.a in ready && s.out !in ready
    && if s.opcode == 1 then s.a == 0 && s.b == 1 && s.b in ready && s.out < 4
       else if s.opcode == 2 then 2 <= s.a < 4 && s.b == 5 && s.out < 4
       else 2 <= s.a < 4 && s.b == 5 && s.out == 4
  }

  predicate PlanOk(rows: seq<StepRow>) {
    && |rows| == STEPS
    && (forall i | 0 <= i < STEPS :: StepOk(rows[i], ReadyAfter(rows, i), UsedAfter(rows, i)))
    && {2, 3, 4} <= ReadyAfter(rows, STEPS) && {1, 2, 3} <= UsedAfter(rows, STEPS)
  }

  /** The step the workers read, under the injected plan faults. */
  function PlanStep(rows: seq<StepRow>, fault: nat, index: nat): StepRow
    requires |rows| == STEPS && index < STEPS
  {
    if index != 0 then rows[index]
    else if fault == 1 then rows[0].(opcode := 99)
    else if fault == 2 then rows[1]
    else if fault == 3 then rows[0].(out := 0)
    else rows[0]
  }

  function PlanRead(rows: seq<StepRow>, fault: nat): (read: seq<StepRow>)
    requires |rows| == STEPS
    ensures |read| == STEPS && forall i | 0 <= i < STEPS :: read[i] == PlanStep(rows, fault, i)
  {
    [PlanStep(rows, fault, 0), PlanStep(rows, fault, 1), PlanStep(rows, fault, 2)]
  }

  /** The check, with its two arrays kept as sets; target is the table's, native the worker's. */
  method PlanValid(rows: seq<StepRow>, target: nat, native: nat, fault: nat) returns (ok: bool)
    ensures ok <==> && |rows| == 3 && fault != 4 && (if fault == 5 then 99 else target) == native
                    && PlanOk(PlanRead(rows, fault))
  {
    var count, named := |rows|, target;
    if fault == 4 {
      count := 2;
    } else if fault == 5 {
      named := 99;
    }
    if named != native || count != STEPS || |rows| != STEPS {
      return false;
    }
    var ready: set<nat>, used: set<nat> := {0, 1}, {};
    ghost var read := PlanRead(rows, fault);
    for i := 0 to STEPS
      invariant ready == ReadyAfter(read, i) && used == UsedAfter(read, i)
      invariant forall k | 0 <= k < i :: StepOk(read[k], ReadyAfter(read, k), UsedAfter(read, k))
    {
      var s := PlanStep(rows, fault, i);
      if s.opcode < 1 || s.opcode > 3 || s.opcode in used || s.a >= 5 || s.out < 2 || s.out >= 5
         || s.a !in ready || s.out in ready {
        assert !StepOk(read[i], ReadyAfter(read, i), UsedAfter(read, i));
        return false;
      }
      var portsOk := if s.opcode == 1 then s.a == 0 && s.b == 1 && s.b in ready && s.out < 4
                     else if s.opcode == 2 then 2 <= s.a < 4 && s.b == 5 && s.out < 4
                     else 2 <= s.a < 4 && s.b == 5 && s.out == 4;
      if !portsOk {
        assert !StepOk(read[i], ReadyAfter(read, i), UsedAfter(read, i));
        return false;
      }
      ready, used := ready + {s.out}, used + {s.opcode};
    }
    ok := 2 in ready && 3 in ready && 4 in ready && 1 in used && 2 in used && 3 in used;
  }

  // ----- Which tables pass -----

  /** Product into slot p, ReLU into the other, the sum of the clamped one. */
  function Chained(p: nat): seq<StepRow>
    requires p == 2 || p == 3
  {
    [StepRow(1, 0, 1, p), StepRow(2, p, 5, 5 - p), StepRow(3, 5 - p, 5, 4)]
  }

  /** The sum takes the product past the ReLU. */
  function Bypassing(p: nat): seq<StepRow>
    requires p == 2 || p == 3
  {
    [StepRow(1, 0, 1, p), StepRow(2, p, 5, 5 - p), StepRow(3, p, 5, 4)]
  }

  /** The sum is taken before the ReLU runs. */
  function Early(p: nat): seq<StepRow>
    requires p == 2 || p == 3
  {
    [StepRow(1, 0, 1, p), StepRow(3, p, 5, 4), StepRow(2, p, 5, 5 - p)]
  }

  lemma ReadyFirst(rows: seq<StepRow>)
    requires |rows| == 3
    ensures ReadyAfter(rows, 1) == {0, 1, rows[0].out} && UsedAfter(rows, 1) == {rows[0].opcode}
    ensures ReadyAfter(rows, 2) == {0, 1, rows[0].out, rows[1].out}
    ensures UsedAfter(rows, 2) == {rows[0].opcode, rows[1].opcode}
    ensures ReadyAfter(rows, 3) == {0, 1, rows[0].out, rows[1].out, rows[2].out}
    ensures UsedAfter(rows, 3) == {rows[0].opcode, rows[1].opcode, rows[2].opcode}
  {
    assert ReadyAfter(rows, 0) == {0, 1} && UsedAfter(rows, 0) == {};
  }

  lemma SixPass(p: nat)
    requires p == 2 || p == 3
    ensures PlanOk(Chained(p)) && PlanOk(Bypassing(p)) && PlanOk(Early(p))
  {
    ReadyFirst(Chained(p));
    ReadyFirst(Bypassing(p));
    ReadyFirst(Early(p));
    OneStepAtATime(Chained(p));
    OneStepAtATime(Bypassing(p));
    OneStepAtATime(Early(p));
  }

  lemma OneStepAtATime(rows: seq<StepRow>)
    requires |rows| == 3
    ensures PlanOk(rows)
       <==> && StepOk(rows[0], {0, 1}, {})
            && StepOk(rows[1], {0, 1, rows[0].out}, {rows[0].opcode})
            && StepOk(rows[2], {0, 1, rows[0].out, rows[1].out}, {rows[0].opcode, rows[1].opcode})
            && {2, 3, 4} <= {0, 1, rows[0].out, rows[1].out, rows[2].out}
            && {1, 2, 3} <= {rows[0].opcode, rows[1].opcode, rows[2].opcode}
  {
    ReadyFirst(rows);
    assert ReadyAfter(rows, 0) == {0, 1} && UsedAfter(rows, 0) == {};
  }

  /** The check lets exactly six tables through: for either slot of the product, the chain, the sum past
      the ReLU, and the sum before it. */
  lemma PlanOkIff(rows: seq<StepRow>)
    ensures PlanOk(rows)
       <==> rows in [Chained(2), Chained(3), Bypassing(2), Bypassing(3), Early(2), Early(3)]
  {
    if PlanOk(rows) {
      OneStepAtATime(rows);
      var p := rows[0].out;
      assert rows[0] == StepRow(1, 0, 1, p) && (p == 2 || p == 3);
      assert rows == [rows[0], rows[1], rows[2]];
      if rows[1].opcode == 2 {
        assert rows[1] == StepRow(2, p, 5, 5 - p);
        assert rows == Chained(p) || rows == Bypassing(p);
      } else {
        assert rows[1] == StepRow(3, p, 5, 4);
        assert rows == Early(p);
      }
    }
    SixPass(2);
    SixPass(3);
  }

  lemma CheckedForms(table: seq<StepRow>) returns (p: nat)
    requires PlanOk(table)
    ensures (p == 2 || p == 3) && (table == Chained(p) || table == Bypassing(p) || table == Early(p))
    ensures table in [Chained(2), Chained(3)] <==> table == Chained(p)
  {
    PlanOkIff(table);
    p := table[0].out;
    assert Bypassing(2)[2] != Chained(2)[2] && Bypassing(3)[2] != Chained(3)[2];
    assert Early(2)[1] != Chained(2)[1] && Early(3)[1] != Chained(3)[1];
    assert Chained(2)[0] != Chained(3)[0];
  }

  // ----- The lowered tables -----

  /** The tables the bridge emits for the chain, in numbers. */
  lemma LoweredTables()
    ensures AllNamed(C11_SLOTS, P.FamilyOperations(P.ChainFamily))
    ensures AllNamed(CUDA_SLOTS, P.FamilyOperations(P.ChainFamily))
    ensures Lower(C11_SLOTS, P.FamilyOperations(P.ChainFamily))
         == [StepRow(1, 0, 1, 2), StepRow(2, 2, 5, 3), StepRow(3, 3, 5, 4)]
    ensures Lower(CUDA_SLOTS, P.FamilyOperations(P.ChainFamily))
         == [StepRow(1, 0, 1, 3), StepRow(2, 3, 5, 2), StepRow(3, 2, 5, 4)]
  {
    var ops := P.FamilyOperations(P.ChainFamily);
    assert |ops| == 3;
  }

  lemma LoweredForm(slots: seq<nat>) returns (p: nat)
    requires slots == C11_SLOTS || slots == CUDA_SLOTS
    ensures (p == 2 || p == 3) && slots == [0, 1, p, 5 - p, 4]
    ensures AllNamed(slots, P.FamilyOperations(P.ChainFamily))
    ensures Lower(slots, P.FamilyOperations(P.ChainFamily)) == Chained(p) && PlanOk(Chained(p))
  {
    LoweredTables();
    p := if slots == C11_SLOTS then 2 else 3;
    SixPass(p);
  }

  /** They pass the check, and no injected plan fault does. */
  lemma LoweredPass(p: nat, fault: nat)
    requires (p == 2 || p == 3) && fault <= 3
    ensures PlanOk(PlanRead(Chained(p), fault)) <==> fault == 0
  {
    var read := PlanRead(Chained(p), fault);
    OneStepAtATime(read);
    if fault == 0 {
      SixPass(p);
      assert read == Chained(p);
    }
  }

  // ----- Running a table -----

  /** The workers' switch: 1 projects, 2 clamps, 3 sums rows, anything else fails. */
  function Switch<F>(ops: Ops<F>, rows: nat, inner: nat, columns: nat): Dispatch<seq<F>> {
    (opcode: nat, args: seq<seq<F>>) =>
      if opcode == 1 && |args| == 2 && |args[0]| == K.Area(rows, inner) && |args[1]| == K.Area(inner, columns)
      then P.MatmulValues(ops, rows, inner, columns, args[0], args[1])
      else if opcode == 2 && |args| == 1 then P.ReluValues(ops, args[0])
      else if opcode == 3 && |args| == 1 && |args[0]| == K.Area(rows, columns)
      then P.SumValues(ops, rows, columns, args[0])
      else []
  }

  lemma RunThree<V>(dispatch: Dispatch<V>, rows: seq<StepRow>, store: seq<V>)
    requires |rows| == 3 && InStore(rows, |store|)
    ensures InStore([rows[0]], |store|) && InStore([rows[1]], |store|) && InStore([rows[2]], |store|)
    ensures RunSteps(dispatch, rows, store)
         == RunStep(dispatch, rows[2], RunStep(dispatch, rows[1], RunStep(dispatch, rows[0], store)))
  {
    var two, one := rows[..2], rows[..1];
    assert two[..1] == one && one[..0] == [] && two[1] == rows[1] && one[0] == rows[0];
    assert RunSteps(dispatch, one[..0], store) == store;
    assert RunSteps(dispatch, one, store) == RunStep(dispatch, rows[0], store);
    assert RunSteps(dispatch, two, store) == RunStep(dispatch, rows[1], RunSteps(dispatch, one, store));
  }

  lemma ProjectStep<F>(ops: Ops<F>, rows: nat, inner: nat, columns: nat, s: seq<seq<F>>, p: nat)
    requires |s| == 5 && p < 5 && |s[0]| == K.Area(rows, inner) && |s[1]| == K.Area(inner, columns)
    ensures InStore([StepRow(1, 0, 1, p)], 5)
    ensures RunStep(Switch(ops, rows, inner, columns), StepRow(1, 0, 1, p), s)
         == s[p := P.MatmulValues(ops, rows, inner, columns, s[0], s[1])]
  {
    assert [s[0], s[1]][0] == s[0] && [s[0], s[1]][1] == s[1];
  }

  lemma ClampStep<F>(ops: Ops<F>, rows: nat, inner: nat, columns: nat, s: seq<seq<F>>, p: nat, q: nat)
    requires |s| == 5 && p < 5 && q < 5
    ensures InStore([StepRow(2, p, 5, q)], 5)
    ensures RunStep(Switch(ops, rows, inner, columns), StepRow(2, p, 5, q), s) == s[q := P.ReluValues(ops, s[p])]
  {
  }

  lemma SumStep<F>(ops: Ops<F>, rows: nat, inner: nat, columns: nat, s: seq<seq<F>>, p: nat)
    requires |s| == 5 && p < 5 && |s[p]| == K.Area(rows, columns)
    ensures InStore([StepRow(3, p, 5, 4)], 5)
    ensures RunStep(Switch(ops, rows, inner, columns), StepRow(3, p, 5, 4), s)
         == s[4 := P.SumValues(ops, rows, columns, s[p])]
  {
  }

  lemma ChainedFits(p: nat)
    requires p == 2 || p == 3
    ensures InStore(Chained(p), 5) && InStore(Bypassing(p), 5) && InStore(Early(p), 5)
  {
  }

  lemma ChainedResult<F>(ops: Ops<F>, rows: nat, inner: nat, columns: nat, p: nat, s: seq<seq<F>>)
    requires (p == 2 || p == 3) && |s| == 5 && |s[0]| == K.Area(rows, inner) && |s[1]| == K.Area(inner, columns)
    ensures InStore(Chained(p), 5)
    ensures
      var product := P.MatmulValues(ops, rows, inner, columns, s[0], s[1]);
      var clamped := P.ReluValues(ops, product);
      RunSteps(Switch(ops, rows, inner, columns), Chained(p), s)
      == s[p := product][5 - p := clamped][4 := P.SumValues(ops, rows, columns, clamped)]
  {
    ChainedFits(p);
    RunThree(Switch(ops, rows, inner, columns), Chained(p), s);
    ProjectStep(ops, rows, inner, columns, s, p);
    var s1 := s[p := P.MatmulValues(ops, rows, inner, columns, s[0], s[1])];
    ClampStep(ops, rows, inner, columns, s1, p, 5 - p);
    SumStep(ops, rows, inner, columns, s1[5 - p := P.ReluValues(ops, s1[p])], 5 - p);
  }

  /** The other tables' output: the product's own row sums. */
  lemma UnclampedResult<F>(ops: Ops<F>, rows: nat, inner: nat, columns: nat, p: nat, s: seq<seq<F>>)
    requires (p == 2 || p == 3) && |s| == 5 && |s[0]| == K.Area(rows, inner) && |s[1]| == K.Area(inner, columns)
    ensures InStore(Bypassing(p), 5) && InStore(Early(p), 5)
    ensures
      var sums := P.SumValues(ops, rows, columns, P.MatmulValues(ops, rows, inner, columns, s[0], s[1]));
      && RunSteps(Switch(ops, rows, inner, columns), Bypassing(p), s)[4] == sums
      && RunSteps(Switch(ops, rows, inner, columns), Early(p), s)[4] == sums
  {
    ChainedFits(p);
    ProjectStep(ops, rows, inner, columns, s, p);
    var s1 := s[p := P.MatmulValues(ops, rows, inner, columns, s[0], s[1])];
    RunThree(Switch(ops, rows, inner, columns), Bypassing(p), s);
    ClampStep(ops, rows, inner, columns, s1, p, 5 - p);
    SumStep(ops, rows, inner, columns, s1[5 - p := P.ReluValues(ops, s1[p])], p);
    RunThree(Switch(ops, rows, inner, columns), Early(p), s);
    SumStep(ops, rows, inner, columns, s1, p);
    ClampStep(ops, rows, inner, columns, s1[4 := P.SumValues(ops, rows, columns, s1[p])], p, 5 - p);
  }

  /** What a checked table leaves in the output: the row sums of the clamped product for the chain's
      tables, of the product itself for the other four. */
  lemma CheckedTableResult<F>(ops: Ops<F>, rows: nat, inner: nat, columns: nat, table: seq<StepRow>,
                              store: seq<seq<F>>)
    requires PlanOk(table) && |store| == 5
    requires |store[0]| == K.Area(rows, inner) && |store[1]| == K.Area(inner, columns)
    ensures InStore(table, 5)
    ensures
      var product := P.MatmulValues(ops, rows, inner, columns, store[0], store[1]);
      RunSteps(Switch(ops, rows, inner, columns), table, store)[4]
      == P.SumValues(ops, rows, columns,
                     if table in [Chained(2), Chained(3)] then P.ReluValues(ops, product) else product)
  {
    var p := CheckedForms(table);
    if table == Chained(p) {
      ChainedResult(ops, rows, inner, columns, p, store);
    } else {
      UnclampedResult(ops, rows, inner, columns, p, store);
    }
  }

  lemma ChainValues<F>(ops: Ops<F>, rows: nat, inner: nat, columns: nat, a: seq<F>, b: seq<F>)
    requires |a| == K.Area(rows, inner) && |b| == K.Area(inner, columns)
    ensures
      var g := P.FamilyGraph(P.ChainFamily, rows, inner, columns);
      var inputs := P.NamedInputs(a, b, []);
      var product := P.MatmulValues(ops, rows, inner, columns, a, b);
      && ValueOf(g, P.KernelSemantics(ops, g), inputs, P.PROJECTION) == product
      && ValueOf(g, P.KernelSemantics(ops, g), inputs, P.ACTIVATED) == P.ReluValues(ops, product)
      && ValueOf(g, P.KernelSemantics(ops, g), inputs, P.ROW_SUM)
         == P.SumValues(ops, rows, columns, P.ReluValues(ops, product))
  {
    var g := P.FamilyGraph(P.ChainFamily, rows, inner, columns);
    var inputs := P.NamedInputs(a, b, []);
    P.FamilyIsAGraph(P.ChainFamily, rows, inner, columns);
    P.ProjectionAgrees(ops, P.ChainFamily, rows, inner, columns, a, b, []);
    P.ReluEquation(ops, g, inputs, 1, P.PROJECTION);
    P.SumEquation(ops, g, inputs, 2, P.ACTIVATED, rows, columns);
  }

  /** The lowered tables, run by the switch on opcode numbers, leave in every result's slot the value the
      graph's own kernels give that tensor, whatever the result slots held. */
  lemma BridgeComputesChain<F>(ops: Ops<F>, rows: nat, inner: nat, columns: nat, slots: seq<nat>, store: seq<seq<F>>)
    requires (slots == C11_SLOTS || slots == CUDA_SLOTS) && |store| == 5
    requires |store[0]| == K.Area(rows, inner) && |store[1]| == K.Area(inner, columns)
    ensures
      var g := P.FamilyGraph(P.ChainFamily, rows, inner, columns);
      var inputs := P.NamedInputs(store[0], store[1], []);
      && AllNamed(slots, g.operations) && InStore(Lower(slots, g.operations), 5)
      && PlanOk(Lower(slots, g.operations))
      && var after := RunSteps(Switch(ops, rows, inner, columns), Lower(slots, g.operations), store);
         && after[slots[2]] == ValueOf(g, P.KernelSemantics(ops, g), inputs, P.PROJECTION)
         && after[slots[3]] == ValueOf(g, P.KernelSemantics(ops, g), inputs, P.ACTIVATED)
         && after[slots[4]] == ValueOf(g, P.KernelSemantics(ops, g), inputs, P.ROW_SUM)
  {
    var p := LoweredForm(slots);
    ChainedResult(ops, rows, inner, columns, p, store);
    ChainValues(ops, rows, inner, columns, store[0], store[1]);
  }
}
