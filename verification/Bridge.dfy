/**
  The opcode tables of the plan bridge (examples/bounded_plan_native_bridge.py, lower_snapshot):
  tensors are renamed to slots, and the two targets use different names. The table computes the
  graph under every injective naming, so the two tables compute the same.
 */
module Bridge {
  import opened Graphs

  /** The operand field of an operation with one operand. */
  const NO_OPERAND := 5

  datatype StepRow = StepRow(opcode: nat, a: nat, b: nat, out: nat)

  function Opcode(kind: OpKind): nat {
    match kind
    case Matmul => 1
    case Relu => 2
    case SumAxis1 => 3
  }

  /** Slots by tensor, distinct, and none of them the missing operand. */
  predicate Naming(slots: seq<nat>, size: nat) {
    && (forall t | 0 <= t < |slots| :: slots[t] < size && slots[t] != NO_OPERAND)
    && (forall t, u | 0 <= t < |slots| && 0 <= u < |slots| :: slots[t] == slots[u] ==> t == u)
  }

  predicate Named(slots: seq<nat>, op: Operation) {
    && 1 <= |op.inputs| <= 2
    && op.output < |slots|
    && forall k | 0 <= k < |op.inputs| :: op.inputs[k] < |slots|
  }

  predicate AllNamed(slots: seq<nat>, operations: seq<Operation>) {
    forall i | 0 <= i < |operations| :: Named(slots, operations[i])
  }

  function LowerStep(slots: seq<nat>, op: Operation): StepRow
    requires Named(slots, op)
  {
    StepRow(Opcode(op.kind), slots[op.inputs[0]], if |op.inputs| == 2 then slots[op.inputs[1]] else NO_OPERAND,
            slots[op.output])
  }

  function Lower(slots: seq<nat>, operations: seq<Operation>): (rows: seq<StepRow>)
    requires AllNamed(slots, operations)
    ensures |rows| == |operations| && forall i | 0 <= i < |rows| :: rows[i] == LowerStep(slots, operations[i])
  {
    seq(|operations|, i requires 0 <= i < |operations| => LowerStep(slots, operations[i]))
  }

  /** The lowering loop. */
  method LowerSnapshot(slots: seq<nat>, operations: seq<Operation>) returns (rows: seq<StepRow>)
    requires AllNamed(slots, operations)
    ensures rows == Lower(slots, operations)
  {
    rows := [];
    for i := 0 to |operations|
      invariant |rows| == i && forall k | 0 <= k < i :: rows[k] == LowerStep(slots, operations[k])
    {
      var op := operations[i];
      var a := slots[op.inputs[0]];
      var b := if |op.inputs| == 2 then slots[op.inputs[1]] else NO_OPERAND;
      rows := rows + [StepRow(Opcode(op.kind), a, b, slots[op.output])];
    }
  }

  // ----- Running a table -----

  /** What an opcode computes. */
  type Dispatch<!V> = (nat, seq<V>) -> V

  predicate InStore(rows: seq<StepRow>, size: nat) {
    forall i | 0 <= i < |rows| :: rows[i].a < size && (rows[i].b != NO_OPERAND ==> rows[i].b < size)
      && rows[i].out < size
  }

  function RunSteps<V>(dispatch: Dispatch<V>, rows: seq<StepRow>, store: seq<V>): (r: seq<V>)
    requires InStore(rows, |store|)
    ensures |r| == |store|
  {
    if rows == [] then store
    else
      RunStep(dispatch, rows[|rows| - 1], RunSteps(dispatch, rows[..|rows| - 1], store))
  }

  /** The graph's meaning under the same dispatch. */
  function DispatchSemantics<V>(dispatch: Dispatch<V>, g: Graph): Semantics<V> {
    (i: nat, args: seq<V>) => dispatch(if i < |g.operations| then Opcode(g.operations[i].kind) else 0, args)
  }

  lemma LoweredFits(slots: seq<nat>, operations: seq<Operation>, size: nat)
    requires Naming(slots, size) && AllNamed(slots, operations)
    ensures InStore(Lower(slots, operations), size)
  {
  }

  /** The operands a row reads are the operation's, when every slot holds its tensor's value. */
  lemma OperandsRead<V>(slots: seq<nat>, op: Operation, before: seq<V>, values: Tensor -> V)
    requires Naming(slots, |before|) && Named(slots, op)
    requires forall t | 0 <= t < |slots| :: before[slots[t]] == values(t)
    ensures
      var row := LowerStep(slots, op);
      (if row.b == NO_OPERAND then [before[row.a]] else [before[row.a], before[row.b]])
      == seq(|op.inputs|, k requires 0 <= k < |op.inputs| => values(op.inputs[k]))
  {
  }

  /** Every tensor's slot holds the tensor's value after n operations. */
  ghost predicate Holds<V>(g: Graph, sem: Semantics<V>, inputs: Tensor -> V, slots: seq<nat>, store: seq<V>, n: nat)
    requires Naming(slots, |store|) && n <= |g.operations|
  {
    forall t | 0 <= t < |slots| :: store[slots[t]] == ValueAfter(g, sem, inputs, n, t)
  }

  lemma NextStep<V>(dispatch: Dispatch<V>, rows: seq<StepRow>, store: seq<V>, n: nat)
    requires InStore(rows, |store|) && 0 < n <= |rows|
    ensures InStore([rows[n - 1]], |store|)
    ensures RunSteps(dispatch, rows[..n], store)
            == RunStep(dispatch, rows[n - 1], RunSteps(dispatch, rows[..n - 1], store))
  {
    assert rows[..n][..n - 1] == rows[..n - 1] && rows[..n][n - 1] == rows[n - 1];
  }

  /** After n rows every tensor's slot holds the tensor's value after n operations. */
  lemma {:induction false} LoweredPrefix<V>(g: Graph, dispatch: Dispatch<V>, inputs: Tensor -> V, slots: seq<nat>,
                                            store: seq<V>, n: nat)
    requires Naming(slots, |store|) && AllNamed(slots, g.operations) && n <= |g.operations|
    requires InStore(Lower(slots, g.operations), |store|)
    requires Holds(g, DispatchSemantics(dispatch, g), inputs, slots, store, 0)
    ensures Holds(g, DispatchSemantics(dispatch, g), inputs, slots,
                  RunSteps(dispatch, Lower(slots, g.operations)[..n], store), n)
  {
    var rows := Lower(slots, g.operations);
    if n == 0 {
      assert rows[..0] == [];
    } else {
      LoweredPrefix(g, dispatch, inputs, slots, store, n - 1);
      var before := RunSteps(dispatch, rows[..n - 1], store);
      NextStep(dispatch, rows, store, n);
      StepHolds(g, dispatch, inputs, slots, n, before);
    }
  }

  /** One row's effect on a store. */
  function RunStep<V>(dispatch: Dispatch<V>, row: StepRow, before: seq<V>): seq<V>
    requires InStore([row], |before|)
  {
    assert [row][0] == row;
    before[row.out := dispatch(row.opcode,
                               if row.b == NO_OPERAND then [before[row.a]] else [before[row.a], before[row.b]])]
  }

  lemma StepHolds<V>(g: Graph, dispatch: Dispatch<V>, inputs: Tensor -> V, slots: seq<nat>, n: nat, before: seq<V>)
    requires Naming(slots, |before|) && AllNamed(slots, g.operations) && 0 < n <= |g.operations|
    requires Holds(g, DispatchSemantics(dispatch, g), inputs, slots, before, n - 1)
    ensures InStore([LowerStep(slots, g.operations[n - 1])], |before|)
    ensures Holds(g, DispatchSemantics(dispatch, g), inputs, slots,
                  RunStep(dispatch, LowerStep(slots, g.operations[n - 1]), before), n)
  {
    var op := g.operations[n - 1];
    var sem := DispatchSemantics(dispatch, g);
    var values := (t: Tensor) => ValueAfter(g, sem, inputs, n - 1, t);
    OperandsRead(slots, op, before, values);
    var args := seq(|op.inputs|, k requires 0 <= k < |op.inputs| => values(op.inputs[k]));
    assert args == seq(|op.inputs|, k requires 0 <= k < |op.inputs| => ValueAfter(g, sem, inputs, n - 1, op.inputs[k]));
    assert ValueAfter(g, sem, inputs, n, op.output) == dispatch(Opcode(op.kind), args);
  }

  lemma LoweredWhole<V>(g: Graph, dispatch: Dispatch<V>, held: Tensor -> V, slots: seq<nat>, store: seq<V>, t: Tensor)
    requires Naming(slots, |store|) && AllNamed(slots, g.operations) && t < |slots|
    requires forall u | 0 <= u < |slots| :: store[slots[u]] == held(u)
    ensures InStore(Lower(slots, g.operations), |store|)
    ensures RunSteps(dispatch, Lower(slots, g.operations), store)[slots[t]]
         == ValueOf(g, DispatchSemantics(dispatch, g), held, t)
  {
    LoweredFits(slots, g.operations, |store|);
    LoweredPrefix(g, dispatch, held, slots, store, |g.operations|);
    assert Lower(slots, g.operations)[..|g.operations|] == Lower(slots, g.operations);
  }

  /** The graph's values depend on its external inputs alone. */
  lemma {:induction false} InputsSuffice<V>(g: Graph, sem: Semantics<V>, inputs1: Tensor -> V, inputs2: Tensor -> V,
                                            i: nat)
    requires SingleAssignment(g) && ReadsBackward(g) && i < |g.operations|
    requires forall u: Tensor | !Produced(g, u) :: inputs1(u) == inputs2(u)
    ensures ValueOf(g, sem, inputs1, g.operations[i].output) == ValueOf(g, sem, inputs2, g.operations[i].output)
    decreases i
  {
    var ts := g.operations[i].inputs;
    forall k | 0 <= k < |ts|
      ensures SettledBy(g, i, ts[k]) && ValueOf(g, sem, inputs1, ts[k]) == ValueOf(g, sem, inputs2, ts[k])
    {
      if Produced(g, ts[k]) {
        var j :| 0 <= j < |g.operations| && g.operations[j].output == ts[k];
        assert j < i;
        InputsSuffice(g, sem, inputs1, inputs2, j);
      } else {
        ExternalInputKeepsItsValue(g, sem, inputs1, ts[k]);
        ExternalInputKeepsItsValue(g, sem, inputs2, ts[k]);
      }
    }
    ProducerEquation(g, sem, inputs1, i);
    ProducerEquation(g, sem, inputs2, i);
    assert ValuesOf(g, sem, inputs1, ts) == ValuesOf(g, sem, inputs2, ts);
  }

  /** Tables compute the graph, under any injective naming and whatever the intermediate slots held. */
  lemma LoweredComputesGraph<V>(g: Graph, dispatch: Dispatch<V>, inputs: Tensor -> V, slots: seq<nat>, store: seq<V>,
                                i: nat)
    requires SingleAssignment(g) && ReadsBackward(g) && i < |g.operations|
    requires Naming(slots, |store|) && AllNamed(slots, g.operations)
    requires forall u | 0 <= u < |slots| && !Produced(g, u) :: store[slots[u]] == inputs(u)
    ensures InStore(Lower(slots, g.operations), |store|)
    ensures RunSteps(dispatch, Lower(slots, g.operations), store)[slots[g.operations[i].output]]
         == ValueOf(g, DispatchSemantics(dispatch, g), inputs, g.operations[i].output)
  {
    var held := (u: Tensor) => if u < |slots| then store[slots[u]] else inputs(u);
    LoweredWhole(g, dispatch, held, slots, store, g.operations[i].output);
    InputsSuffice(g, DispatchSemantics(dispatch, g), held, inputs, i);
  }

  /** Naming independence: tables lowered under any two injective namings, each with the external
      inputs under its own names, leave the same result of every operation. */
  lemma NamingsAgree<V>(g: Graph, dispatch: Dispatch<V>, inputs: Tensor -> V, slots1: seq<nat>, store1: seq<V>,
                        slots2: seq<nat>, store2: seq<V>, i: nat)
    requires SingleAssignment(g) && ReadsBackward(g) && i < |g.operations|
    requires Naming(slots1, |store1|) && AllNamed(slots1, g.operations)
    requires Naming(slots2, |store2|) && AllNamed(slots2, g.operations)
    requires forall u | 0 <= u < |slots1| && !Produced(g, u) :: store1[slots1[u]] == inputs(u)
    requires forall u | 0 <= u < |slots2| && !Produced(g, u) :: store2[slots2[u]] == inputs(u)
    ensures InStore(Lower(slots1, g.operations), |store1|) && InStore(Lower(slots2, g.operations), |store2|)
    ensures RunSteps(dispatch, Lower(slots1, g.operations), store1)[slots1[g.operations[i].output]]
         == RunSteps(dispatch, Lower(slots2, g.operations), store2)[slots2[g.operations[i].output]]
  {
    LoweredComputesGraph(g, dispatch, inputs, slots1, store1, i);
    LoweredComputesGraph(g, dispatch, inputs, slots2, store2, i);
  }

  /** The C11 naming of a, b, projection, activated, row_sum, and the CUDA naming, which swaps two. */
  const C11_SLOTS: seq<nat> := [0, 1, 2, 3, 4]
  const CUDA_SLOTS: seq<nat> := [0, 1, 3, 2, 4]

  lemma BothTargetsName()
    ensures Naming(C11_SLOTS, 5) && Naming(CUDA_SLOTS, 5)
  {
  }
}
