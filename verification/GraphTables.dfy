/**
  Graphs as integer tables (examples/bounded_dag_native.py, _graph_initializer): tensors with their
  rank and dimensions, operations with a sentinel for a missing second operand and their launch
  geometry, boundary lists padded with sentinels. Decoding undoes encoding exactly on the manifests
  whose shapes, operands and boundary fit the table.
 */
module GraphTables {
  import opened Wrappers
  import opened Graphs
  import opened Residency
  import opened Tables

  const INPUT_SLOTS := 3
  const OUTPUT_SLOTS := 2

  datatype Launch = Launch(blocks: nat, threads: nat)

  /** A graph with what else its manifest lists: launch geometry by operation, and the boundary. */
  datatype Manifest = Manifest(graph: Graph, launches: seq<Launch>, inputs: seq<Tensor>, outputs: seq<Tensor>)

  datatype TensorRow = TensorRow(rank: nat, dim0: nat, dim1: nat, bytes: nat)

  datatype LaunchedRow = LaunchedRow(op: OpRow, launch: Launch)

  datatype GraphRows = GraphRows(tensorCount: nat, operationCount: nat, inputCount: nat, outputCount: nat,
                                 tensors: seq<TensorRow>, operations: seq<LaunchedRow>,
                                 inputs: seq<int>, outputs: seq<int>)

  // ----- Encoding -----

  function EncodeTensor(shape: Shape): TensorRow
    requires shape != []
  {
    TensorRow(|shape|, shape[0], if |shape| == 2 then shape[1] else 1, Bytes(shape))
  }

  function Sentinels(n: int): seq<int> {
    if n <= 0 then [] else Sentinels(n - 1) + [NONE]
  }

  function Padded(ts: seq<Tensor>, width: nat): seq<int> {
    seq(|ts|, i requires 0 <= i < |ts| => ts[i] as int) + Sentinels(width - |ts|)
  }

  /** Every subscript the encoder takes exists. */
  predicate Indexable(m: Manifest) {
    && (forall t | 0 <= t < |m.graph.shapes| :: m.graph.shapes[t] != [])
    && (forall i | 0 <= i < |m.graph.operations| :: m.graph.operations[i].inputs != [])
    && |m.launches| == |m.graph.operations|
  }

  function EncodeManifest(m: Manifest): Result<GraphRows> {
    var g := m.graph;
    if !Indexable(m) then Err("index out of range")
    else
      Ok(GraphRows(
           |g.shapes|, |g.operations|, |m.inputs|, |m.outputs|,
           seq(|g.shapes|, t requires 0 <= t < |g.shapes| => EncodeTensor(g.shapes[t])),
           seq(|g.operations|, i requires 0 <= i < |g.operations| =>
             LaunchedRow(EncodeOperation(g.operations[i]), m.launches[i])),
           Padded(m.inputs, INPUT_SLOTS), Padded(m.outputs, OUTPUT_SLOTS)))
  }

  // ----- Decoding -----

  function DecodeTensor(r: TensorRow): Option<Shape> {
    if r.rank == 1 && r.dim1 == 1 && r.bytes == Bytes([r.dim0]) then Some([r.dim0])
    else if r.rank == 2 && r.bytes == Bytes([r.dim0, r.dim1]) then Some([r.dim0, r.dim1])
    else None
  }

  /** The second operand is there exactly for a matmul. */
  function DecodeOperation(r: OpRow): Option<Operation> {
    if !(0 <= r.kind <= 2) || r.input0 < 0 || r.output < 0 || r.input1 < 0
       || (r.kind == 0) != (r.input1 != NONE) then None
    else
      var kind := if r.kind == 0 then Matmul else if r.kind == 1 then Relu else SumAxis1;
      Some(Operation(kind, if r.kind == 0 then [r.input0, r.input1] else [r.input0], r.output))
  }

  /** The entries before the first sentinel. */
  function BeforeSentinel(entries: seq<int>): seq<int> {
    if entries == [] || entries[0] == NONE then [] else [entries[0]] + BeforeSentinel(entries[1..])
  }

  function DecodeBoundary(entries: seq<int>, width: nat): Option<seq<Tensor>> {
    if |entries| != width || exists i :: 0 <= i < |entries| && entries[i] < 0 then None
    else Some(Naturals(BeforeSentinel(entries)))
  }

  function Naturals(entries: seq<int>): seq<Tensor> {
    seq(|entries|, i requires 0 <= i < |entries| => if entries[i] < 0 then 0 else entries[i])
  }

  function DecodeManifest(rows: GraphRows): Option<Manifest> {
    if exists t :: 0 <= t < |rows.tensors| && DecodeTensor(rows.tensors[t]) == None then None
    else if exists i :: 0 <= i < |rows.operations| && DecodeOperation(rows.operations[i].op) == None then None
    else
      var inputs, outputs := DecodeBoundary(rows.inputs, INPUT_SLOTS), DecodeBoundary(rows.outputs, OUTPUT_SLOTS);
      if inputs == None || outputs == None then None
      else
        Some(Manifest(
               Graph(seq(|rows.tensors|, t requires 0 <= t < |rows.tensors| => DecodeTensor(rows.tensors[t]).value),
                     seq(|rows.operations|, i requires 0 <= i < |rows.operations| =>
                       DecodeOperation(rows.operations[i].op).value)),
               seq(|rows.operations|, i requires 0 <= i < |rows.operations| => rows.operations[i].launch),
               inputs.value, outputs.value))
  }

  // ----- Round trips -----

  lemma TensorRoundTrip(shape: Shape)
    requires shape != []
    ensures DecodeTensor(EncodeTensor(shape)) == Some(shape) <==> |shape| <= 2
  {
    if |shape| == 1 {
      assert shape == [shape[0]];
    } else if |shape| == 2 {
      assert shape == [shape[0], shape[1]];
    }
  }

  /** Nothing of the operation is lost to the sentinel or the row's width. */
  predicate OperationFits(op: Operation) {
    PortsMatch(op) && (op.kind == Matmul ==> op.inputs[1] != 255)
  }

  lemma OperationRoundTrip(op: Operation)
    requires op.inputs != []
    ensures DecodeOperation(EncodeOperation(op)) == Some(op) <==> OperationFits(op)
  {
    if PortsMatch(op) {
      if op.kind == Matmul {
        assert op.inputs == [op.inputs[0], op.inputs[1]];
      } else {
        assert op.inputs == [op.inputs[0]];
      }
    }
  }

  lemma {:induction false} SentinelsOnly(n: int)
    ensures |Sentinels(n)| == (if n <= 0 then 0 else n)
    ensures forall i | 0 <= i < |Sentinels(n)| :: Sentinels(n)[i] == NONE
  {
    if n > 0 {
      SentinelsOnly(n - 1);
    }
  }

  lemma {:induction false} BeforePadding(ts: seq<int>, padding: seq<int>)
    requires forall i | 0 <= i < |padding| :: padding[i] == NONE
    ensures NONE !in BeforeSentinel(ts + padding)
    ensures NONE !in ts ==> BeforeSentinel(ts + padding) == ts
  {
    if ts == [] {
      assert ts + padding == padding;
    } else {
      assert (ts + padding)[1..] == ts[1..] + padding;
      BeforePadding(ts[1..], padding);
    }
  }

  lemma NaturalsKeep(entries: seq<int>)
    requires NONE !in entries
    ensures NONE !in Naturals(entries)
  {
  }

  lemma BoundaryRoundTrip(ts: seq<Tensor>, width: nat)
    ensures DecodeBoundary(Padded(ts, width), width) == Some(ts) <==> |ts| <= width && 255 !in ts
  {
    var listed := seq(|ts|, i requires 0 <= i < |ts| => ts[i] as int);
    SentinelsOnly(width - |ts|);
    BeforePadding(listed, Sentinels(width - |ts|));
    if |ts| <= width {
      var found := BeforeSentinel(Padded(ts, width));
      NaturalsKeep(found);
      if NONE !in ts {
        assert NONE !in listed;
        assert Naturals(found) == ts;
      }
    }
  }

  /** What the table has room for. */
  predicate ManifestFits(m: Manifest) {
    && (forall t | 0 <= t < |m.graph.shapes| :: 1 <= |m.graph.shapes[t]| <= 2)
    && (forall i | 0 <= i < |m.graph.operations| :: OperationFits(m.graph.operations[i]))
    && |m.launches| == |m.graph.operations|
    && |m.inputs| <= 3 && 255 !in m.inputs
    && |m.outputs| <= 2 && 255 !in m.outputs
  }

  /** Decoding undoes encoding exactly on the manifests the table has room for. */
  lemma ManifestRoundTrip(m: Manifest)
    ensures (EncodeManifest(m).Ok? && DecodeManifest(EncodeManifest(m).value) == Some(m)) <==> ManifestFits(m)
  {
    if EncodeManifest(m).Ok? {
      var rows := EncodeManifest(m).value;
      var g := m.graph;
      forall t | 0 <= t < |g.shapes|
        ensures DecodeTensor(rows.tensors[t]) == Some(g.shapes[t]) <==> 1 <= |g.shapes[t]| <= 2
      {
        TensorRoundTrip(g.shapes[t]);
      }
      forall i | 0 <= i < |g.operations|
        ensures DecodeOperation(rows.operations[i].op) == Some(g.operations[i]) <==> OperationFits(g.operations[i])
      {
        OperationRoundTrip(g.operations[i]);
      }
      BoundaryRoundTrip(m.inputs, INPUT_SLOTS);
      BoundaryRoundTrip(m.outputs, OUTPUT_SLOTS);
      DecodedFits(m, rows);
    }
  }

  /** Entry by entry, the decoded manifest is the encoded one. */
  lemma DecodedFits(m: Manifest, rows: GraphRows)
    requires Indexable(m) && EncodeManifest(m) == Ok(rows)
    ensures DecodeManifest(rows) == Some(m)
       <==> && (forall t | 0 <= t < |m.graph.shapes| :: DecodeTensor(rows.tensors[t]) == Some(m.graph.shapes[t]))
            && (forall i | 0 <= i < |m.graph.operations| ::
                  DecodeOperation(rows.operations[i].op) == Some(m.graph.operations[i]))
            && DecodeBoundary(rows.inputs, INPUT_SLOTS) == Some(m.inputs)
            && DecodeBoundary(rows.outputs, OUTPUT_SLOTS) == Some(m.outputs)
  {
    var decoded := DecodeManifest(rows);
    if decoded.Some? {
      assert decoded.value.launches == m.launches;
      if decoded.value == m {
        assert forall t | 0 <= t < |m.graph.shapes| :: decoded.value.graph.shapes[t] == m.graph.shapes[t];
        assert forall i | 0 <= i < |m.graph.operations| :: decoded.value.graph.operations[i] == m.graph.operations[i];
      }
    }
  }

  // ----- The validator's view -----

  /** The graph as the C validator reads it: sizes, operations, and the boundary lists up to their counts. */
  function Viewed(rows: GraphRows, targets: seq<int>): GraphTable {
    GraphTable(seq(|rows.tensors|, t requires 0 <= t < |rows.tensors| => rows.tensors[t].bytes),
               seq(|rows.operations|, i requires 0 <= i < |rows.operations| => rows.operations[i].op),
               targets,
               set i | 0 <= i < rows.inputCount && i < |rows.inputs| :: rows.inputs[i],
               set i | 0 <= i < rows.outputCount && i < |rows.outputs| :: rows.outputs[i])
  }

  lemma PaddedSet(ts: seq<Tensor>, width: nat, s: set<Tensor>)
    requires forall t :: t in ts <==> t in s
    ensures (set i | 0 <= i < |ts| && i < |Padded(ts, width)| :: Padded(ts, width)[i]) == (set t | t in s :: t as int)
  {
    var left := set i | 0 <= i < |ts| && i < |Padded(ts, width)| :: Padded(ts, width)[i];
    var right := set t | t in s :: t as int;
    forall t | t in s
      ensures t as int in left
    {
      var i :| 0 <= i < |ts| && ts[i] == t;
      assert Padded(ts, width)[i] == t;
    }
    forall x | x in left
      ensures x in right
    {
      var i :| 0 <= i < |ts| && Padded(ts, width)[i] == x;
      assert ts[i] in s && x == ts[i] as int;
    }
  }

  /** The table of a manifest that lists its graph's boundary is the one the validators are compared on. */
  lemma ViewIsEncoded(c: Context, m: Manifest)
    requires GraphFits(c.graph) && Assigned(c) && StandardDeployment(c.deployment)
    requires m.graph == c.graph && EncodeManifest(m).Ok?
    requires forall t :: t in m.inputs <==> t in ExternalInputs(c.graph)
    requires forall t :: t in m.outputs <==> t in Terminals(c.graph)
    ensures Viewed(EncodeManifest(m).value, EncodeGraph(c).targets) == EncodeGraph(c)
  {
    PaddedSet(m.inputs, INPUT_SLOTS, ExternalInputs(c.graph));
    PaddedSet(m.outputs, OUTPUT_SLOTS, Terminals(c.graph));
  }
}
