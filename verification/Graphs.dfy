/**
  Hardware-agnostic compute graphs: numbered tensors, one output tensor per operation,
  and evaluation in operation order. Tensors are numbered by their position in the
  manifest's tensor list; operations by their position in the graph.
 */
module Graphs {

  type Tensor = nat
  type Shape = seq<nat>

  datatype OpKind = Matmul | Relu | SumAxis1

  datatype Operation = Operation(kind: OpKind, inputs: seq<Tensor>, output: Tensor)

  datatype Graph = Graph(shapes: seq<Shape>, operations: seq<Operation>)

  function Prod(shape: Shape): nat {
    if shape == [] then 1 else shape[0] * Prod(shape[1..])
  }

  /** Every tensor is float32. */
  function Bytes(shape: Shape): nat {
    Prod(shape) * 4
  }

  function TensorBytes(g: Graph, t: Tensor): nat {
    if t < |g.shapes| then Bytes(g.shapes[t]) else 0
  }

  predicate Produced(g: Graph, t: Tensor) {
    exists i :: 0 <= i < |g.operations| && g.operations[i].output == t
  }

  predicate Consumed(g: Graph, t: Tensor) {
    exists i :: 0 <= i < |g.operations| && t in g.operations[i].inputs
  }

  /** Boundary inference: consumed but never produced. */
  function ExternalInputs(g: Graph): set<Tensor> {
    set i, k | 0 <= i < |g.operations| && 0 <= k < |g.operations[i].inputs|
               && !Produced(g, g.operations[i].inputs[k]) :: g.operations[i].inputs[k]
  }

  /** Boundary inference: produced but never consumed. */
  function Terminals(g: Graph): set<Tensor> {
    set i | 0 <= i < |g.operations| && !Consumed(g, g.operations[i].output) :: g.operations[i].output
  }

  ghost predicate TensorsListed(g: Graph) {
    forall i | 0 <= i < |g.operations| ::
      && g.operations[i].output < |g.shapes|
      && forall k | 0 <= k < |g.operations[i].inputs| :: g.operations[i].inputs[k] < |g.shapes|
  }

  /** No tensor has two producers. */
  predicate SingleAssignment(g: Graph) {
    forall i, j | 0 <= i < |g.operations| && 0 <= j < |g.operations| ::
      g.operations[i].output == g.operations[j].output ==> i == j
  }

  /** No operation reads a tensor that it or a later operation produces. */
  predicate ReadsBackward(g: Graph) {
    forall i, j | 0 <= i <= j < |g.operations| ::
      g.operations[j].output !in g.operations[i].inputs
  }

  ghost predicate HasMatmul(g: Graph) {
    exists i :: 0 <= i < |g.operations| && g.operations[i].kind == Matmul
  }

  /** What an operation computes: its position in the graph and its operand values give its output value. */
  type Semantics<!V> = (nat, seq<V>) -> V

  /** The value of tensor t after the first n operations ran in order on the given inputs. */
  function ValueAfter<V>(g: Graph, sem: Semantics<V>, inputs: Tensor -> V, n: nat, t: Tensor): V
    requires n <= |g.operations|
  {
    if n == 0 then inputs(t)
    else if g.operations[n - 1].output == t then
      sem(n - 1, seq(|g.operations[n - 1].inputs|,
                     k requires 0 <= k < |g.operations[n - 1].inputs| =>
                       ValueAfter(g, sem, inputs, n - 1, g.operations[n - 1].inputs[k])))
    else ValueAfter(g, sem, inputs, n - 1, t)
  }

  /** Direct evaluation of the whole graph. */
  function ValueOf<V>(g: Graph, sem: Semantics<V>, inputs: Tensor -> V, t: Tensor): V {
    ValueAfter(g, sem, inputs, |g.operations|, t)
  }

  function ValuesOf<V>(g: Graph, sem: Semantics<V>, inputs: Tensor -> V, ts: seq<Tensor>): (vs: seq<V>)
    ensures |vs| == |ts|
    ensures forall k :: 0 <= k < |ts| ==> vs[k] == ValueOf(g, sem, inputs, ts[k])
  {
    seq(|ts|, k requires 0 <= k < |ts| => ValueOf(g, sem, inputs, ts[k]))
  }

  /** t is not written by any operation at or after position n. */
  ghost predicate SettledBy(g: Graph, n: nat, t: Tensor) {
    forall j :: n <= j < |g.operations| ==> g.operations[j].output != t
  }

  lemma {:induction false} SettledValue<V>(g: Graph, sem: Semantics<V>, inputs: Tensor -> V, n: nat, m: nat, t: Tensor)
    requires n <= m <= |g.operations|
    requires SettledBy(g, n, t)
    ensures ValueAfter(g, sem, inputs, m, t) == ValueAfter(g, sem, inputs, n, t)
    decreases m
  {
    if n < m {
      assert g.operations[m - 1].output != t;
      SettledValue(g, sem, inputs, n, m - 1, t);
    }
  }

  /** A single-assignment graph satisfies its own defining equations: the final value of every
      operation's output is that operation applied to the final values of its operands. */
  lemma {:induction false} ProducerEquation<V>(g: Graph, sem: Semantics<V>, inputs: Tensor -> V, i: nat)
    requires i < |g.operations|
    requires SingleAssignment(g)
    requires forall k :: 0 <= k < |g.operations[i].inputs| ==> SettledBy(g, i, g.operations[i].inputs[k])
    ensures ValueOf(g, sem, inputs, g.operations[i].output)
         == sem(i, ValuesOf(g, sem, inputs, g.operations[i].inputs))
  {
    var op := g.operations[i];
    assert SettledBy(g, i + 1, op.output) by {
      forall j | i + 1 <= j < |g.operations|
        ensures g.operations[j].output != op.output
      {
        if g.operations[j].output == g.operations[i].output { assert false; }
      }
    }
    SettledValue(g, sem, inputs, i + 1, |g.operations|, op.output);
    var before := seq(|op.inputs|, k requires 0 <= k < |op.inputs| => ValueAfter(g, sem, inputs, i, op.inputs[k]));
    forall k | 0 <= k < |op.inputs|
      ensures before[k] == ValueOf(g, sem, inputs, op.inputs[k])
    {
      SettledValue(g, sem, inputs, i, |g.operations|, op.inputs[k]);
    }
    assert before == ValuesOf(g, sem, inputs, op.inputs);
  }

  lemma ExternalInputKeepsItsValue<V>(g: Graph, sem: Semantics<V>, inputs: Tensor -> V, t: Tensor)
    requires !Produced(g, t)
    ensures ValueOf(g, sem, inputs, t) == inputs(t)
  {
    assert SettledBy(g, 0, t);
    SettledValue(g, sem, inputs, 0, |g.operations|, t);
  }

  /** Every operand of every operation is bound beforehand or computed by an earlier operation. */
  ghost predicate Executable(g: Graph, bound: set<Tensor>) {
    forall i, k | 0 <= i < |g.operations| && 0 <= k < |g.operations[i].inputs| ::
      var t := g.operations[i].inputs[k];
      t in bound || exists j :: 0 <= j < i && g.operations[j].output == t
  }

  /** Every operation's result is published or read by some operation. */
  ghost predicate NothingUnused(g: Graph, published: set<Tensor>) {
    forall i | 0 <= i < |g.operations| ::
      g.operations[i].output in published || Consumed(g, g.operations[i].output)
  }

  /** The inferred inputs are the least set whose binding makes the graph executable, and the inferred
      outputs the least set whose publication leaves nothing unused. */
  lemma BoundaryIsLeast(g: Graph, bound: set<Tensor>, published: set<Tensor>)
    requires ReadsBackward(g)
    ensures Executable(g, bound) <==> ExternalInputs(g) <= bound
    ensures NothingUnused(g, published) <==> Terminals(g) <= published
  {
  }
}
