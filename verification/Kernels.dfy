/**
  The two emitted forms of one program: nested C loops over flat arrays, and flat-index guarded
  GPU kernels run by blocks of 32 threads in any interleaving (examples/bounded_reduction_shapes.py,
  emit; the ReLU kernels are examples/bounded_composed_chain.py's). Both fill the same array.
 */
module Kernels {
  import opened Arithmetic

  const THREADS := 32

  /** A launched kernel with its read-only operands, row-major. */
  datatype Kernel<F> =
    | Projection(rows: nat, inner: nat, columns: nat, a: seq<F>, b: seq<F>)
    | RowSums(rows: nat, columns: nat, projection: seq<F>)
    | ReluEach(input: seq<F>)

  predicate Fits<F>(k: Kernel<F>) {
    match k
    case Projection(rows, inner, columns, a, b) => |a| == Area(rows, inner) && |b| == Area(inner, columns)
    case RowSums(rows, columns, projection) => |projection| == Area(rows, columns)
    case ReluEach(_) => true
  }

  /** How many outputs the kernel's guard admits. */
  function Count<F>(k: Kernel<F>): nat {
    match k
    case Projection(rows, _, columns, _, _) => Area(rows, columns)
    case RowSums(rows, _, _) => rows
    case ReluEach(input) => |input|
  }

  /** How many additions a thread makes. */
  function Trips<F>(k: Kernel<F>): nat {
    match k
    case Projection(_, inner, _, _, _) => inner
    case RowSums(_, columns, _) => columns
    case ReluEach(_) => 0
  }

  // ----- Row-major indices -----

  /** row * columns + column, counted row by row. */
  function Flat(row: nat, column: nat, columns: nat): nat {
    if row == 0 then column else columns + Flat(row - 1, column, columns)
  }

  function Area(rows: nat, columns: nat): nat {
    Flat(rows, 0, columns)
  }

  function RowOf(i: nat, columns: nat): nat
    requires columns > 0
  {
    if i < columns then 0 else 1 + RowOf(i - columns, columns)
  }

  function ColumnOf(i: nat, columns: nat): nat
    requires columns > 0
  {
    if i < columns then i else ColumnOf(i - columns, columns)
  }

  lemma {:induction false} FlatIsProduct(row: nat, column: nat, columns: nat)
    ensures Flat(row, column, columns) == row * columns + column
  {
    if row > 0 {
      FlatIsProduct(row - 1, column, columns);
      OneMoreRow(row - 1, columns);
    }
  }

  lemma OneMoreRow(row: nat, columns: nat)
    ensures (row + 1) * columns == row * columns + columns
  {
  }

  lemma {:induction false} FlatInRange(row: nat, column: nat, rows: nat, columns: nat)
    requires row < rows && column < columns
    ensures Flat(row, column, columns) < Area(rows, columns)
  {
    if row > 0 {
      FlatInRange(row - 1, column, rows - 1, columns);
    }
  }

  lemma {:induction false} FlatSplit(row: nat, column: nat, columns: nat)
    requires column < columns
    ensures RowOf(Flat(row, column, columns), columns) == row && ColumnOf(Flat(row, column, columns), columns) == column
  {
    if row > 0 {
      FlatSplit(row - 1, column, columns);
    }
  }

  lemma {:induction false} FlatJoin(i: nat, rows: nat, columns: nat)
    requires i < Area(rows, columns)
    ensures columns > 0 && RowOf(i, columns) < rows && ColumnOf(i, columns) < columns
    ensures Flat(RowOf(i, columns), ColumnOf(i, columns), columns) == i
    decreases rows
  {
    if columns == 0 {
      NoColumns(rows);
    } else if i >= columns {
      FlatJoin(i - columns, rows - 1, columns);
    }
  }

  lemma {:induction false} NoColumns(rows: nat)
    ensures Area(rows, 0) == 0
  {
    if rows > 0 {
      NoColumns(rows - 1);
    }
  }

  /** The kernels divide; the indices agree. */
  lemma {:induction false} SplitIsDivision(i: nat, columns: nat)
    requires columns > 0
    ensures RowOf(i, columns) == i / columns && ColumnOf(i, columns) == i % columns
  {
    if i >= columns {
      SplitIsDivision(i - columns, columns);
      OneMoreQuotient(i - columns, columns);
    }
  }

  lemma ScaledRows(m: nat, n: nat, columns: nat)
    requires m <= n
    ensures m * columns <= n * columns
  {
  }

  lemma QuotientAtMost(p: nat, q: nat, i: nat, columns: nat)
    requires p * columns <= i < q * columns + columns
    ensures p <= q
  {
    if q < p {
      OneMoreRow(q, columns);
      ScaledRows(q + 1, p, columns);
    }
  }

  lemma DivisionIsUnique(i: nat, columns: nat, q: nat, r: nat)
    requires r < columns && i == q * columns + r
    ensures i / columns == q && i % columns == r
  {
    var p, s := i / columns, i % columns;
    assert i == p * columns + s;
    QuotientAtMost(p, q, i, columns);
    QuotientAtMost(q, p, i, columns);
  }

  lemma OneMoreQuotient(i: nat, columns: nat)
    requires columns > 0
    ensures (i + columns) / columns == i / columns + 1 && (i + columns) % columns == i % columns
  {
    OneMoreRow(i / columns, columns);
    DivisionIsUnique(i + columns, columns, i / columns + 1, i % columns);
  }

  lemma {:induction false} FlatNext(row: nat, column: nat, columns: nat)
    ensures Flat(row, column + 1, columns) == Flat(row, column, columns) + 1
    ensures Flat(row, columns, columns) == Area(row + 1, columns)
  {
    assert Area(row + 1, columns) == columns + Area(row, columns);
    if row > 0 {
      FlatNext(row - 1, column, columns);
    }
  }

  // ----- What one output is -----

  /** The j-th addend of output i, read from flat memory. */
  function Addend<F>(ops: Ops<F>, k: Kernel<F>, i: nat, j: nat): F
    requires Fits(k) && i < Count(k) && j < Trips(k)
  {
    match k
    case Projection(rows, inner, columns, a, b) =>
      FlatJoin(i, rows, columns);
      FlatInRange(RowOf(i, columns), j, rows, inner);
      FlatInRange(j, ColumnOf(i, columns), inner, columns);
      ops.mul(a[Flat(RowOf(i, columns), j, inner)], b[Flat(j, ColumnOf(i, columns), columns)])
    case RowSums(rows, columns, projection) =>
      FlatInRange(i, j, rows, columns);
      projection[Flat(i, j, columns)]
    case ReluEach(_) => ops.zero
  }

  function Accumulated<F>(ops: Ops<F>, k: Kernel<F>, i: nat, n: nat): F
    requires Fits(k) && i < Count(k) && n <= Trips(k)
  {
    if n == 0 then ops.zero else ops.add(Accumulated(ops, k, i, n - 1), Addend(ops, k, i, n - 1))
  }

  function Stored<F>(ops: Ops<F>, k: Kernel<F>, i: nat, accumulated: F): F
    requires Fits(k) && i < Count(k)
  {
    if k.ReluEach? then ops.relu(k.input[i]) else accumulated
  }

  function Cell<F>(ops: Ops<F>, k: Kernel<F>, i: nat): F
    requires Fits(k) && i < Count(k)
  {
    Stored(ops, k, i, Accumulated(ops, k, i, Trips(k)))
  }

  // ----- Host form: nested loops -----

  method TucProjection<F>(ops: Ops<F>, rows: nat, inner: nat, columns: nat, a: array<F>, b: array<F>,
                          projection: array<F>)
    requires a.Length == Area(rows, inner) && b.Length == Area(inner, columns)
    requires projection.Length == Area(rows, columns)
    requires projection != a && projection != b
    modifies projection
    ensures forall i | 0 <= i < projection.Length ::
              projection[i] == Cell(ops, Projection(rows, inner, columns, a[..], b[..]), i)
  {
    ghost var k := Projection(rows, inner, columns, a[..], b[..]);
    for row := 0 to rows
      invariant Area(row, columns) <= projection.Length
      invariant forall i | 0 <= i < Area(row, columns) :: projection[i] == Cell(ops, k, i)
    {
      for column := 0 to columns
        invariant Flat(row, column, columns) <= projection.Length
        invariant forall i | 0 <= i < Flat(row, column, columns) :: projection[i] == Cell(ops, k, i)
      {
        FlatIsProduct(row, column, columns);
        FlatInRange(row, column, rows, columns);
        FlatNext(row, column, columns);
        var value := DotAt(ops, rows, inner, columns, a, b, row, column);
        projection[row * columns + column] := value;
      }
      FlatNext(row, 0, columns);
    }
  }

  /** The innermost loop. */
  method DotAt<F>(ops: Ops<F>, rows: nat, inner: nat, columns: nat, a: array<F>, b: array<F>, row: nat, column: nat)
    returns (value: F)
    requires a.Length == Area(rows, inner) && b.Length == Area(inner, columns)
    requires row < rows && column < columns && Flat(row, column, columns) < Area(rows, columns)
    ensures value == Cell(ops, Projection(rows, inner, columns, a[..], b[..]), Flat(row, column, columns))
  {
    ghost var k := Projection(rows, inner, columns, a[..], b[..]);
    ghost var i := Flat(row, column, columns);
    FlatSplit(row, column, columns);
    value := ops.zero;
    for j := 0 to inner
      invariant value == Accumulated(ops, k, i, j)
    {
      FlatIsProduct(row, j, inner);
      FlatIsProduct(j, column, columns);
      FlatInRange(row, j, rows, inner);
      FlatInRange(j, column, inner, columns);
      value := ops.add(value, ops.mul(a[row * inner + j], b[j * columns + column]));
    }
  }

  method TucSumAxis1<F>(ops: Ops<F>, rows: nat, columns: nat, projection: array<F>, output: array<F>)
    requires projection.Length == Area(rows, columns) && output.Length == rows && output != projection
    modifies output
    ensures forall i | 0 <= i < rows :: output[i] == Cell(ops, RowSums(rows, columns, projection[..]), i)
  {
    ghost var k := RowSums(rows, columns, projection[..]);
    for row := 0 to rows
      invariant forall i | 0 <= i < row :: output[i] == Cell(ops, k, i)
    {
      var value := ops.zero;
      for column := 0 to columns
        invariant value == Accumulated(ops, k, row, column)
        invariant forall i | 0 <= i < row :: output[i] == Cell(ops, k, i)
      {
        FlatIsProduct(row, column, columns);
        FlatInRange(row, column, rows, columns);
        value := ops.add(value, projection[row * columns + column]);
      }
      output[row] := value;
    }
  }

  method TucRelu<F>(ops: Ops<F>, projection: array<F>, activated: array<F>)
    requires activated.Length == projection.Length && activated != projection
    modifies activated
    ensures forall i | 0 <= i < projection.Length :: activated[i] == Cell(ops, ReluEach(projection[..]), i)
  {
    for index := 0 to projection.Length
      invariant forall i | 0 <= i < index :: activated[i] == Cell(ops, ReluEach(projection[..]), i)
    {
      activated[index] := ops.relu(projection[index]);
    }
  }

  // ----- Device form: threads in any interleaving -----

  /** A thread before, in and after its loop; the guard turns threads past the end away. */
  datatype Thread<F> = Fresh | Looping(value: F, j: nat) | Retired

  /** What a launch touches: the threads' registers, the output, and how often each cell was stored. */
  datatype Device<F> = Device(threads: seq<Thread<F>>, output: seq<F>, stores: seq<nat>)

  /** Enough blocks of 32 threads for count items. */
  function Blocks(count: nat): nat {
    (count + 31) / THREADS
  }

  function Launched<F>(k: Kernel<F>, output: seq<F>): (d: Device<F>)
    ensures |d.threads| == Blocks(Count(k)) * THREADS && d.output == output && |d.stores| == |output|
  {
    Device(seq(Blocks(Count(k)) * THREADS, _ => Fresh), output, seq(|output|, _ => 0))
  }

  /** One step of thread t: the guard, one loop iteration, or the store. */
  function Step<F>(ops: Ops<F>, k: Kernel<F>, d: Device<F>, t: nat): Device<F>
    requires Fits(k) && |d.output| == |d.stores| == Count(k) && t < |d.threads|
  {
    match d.threads[t]
    case Fresh =>
      d.(threads := d.threads[t := if t < Count(k) then Looping(ops.zero, 0) else Retired])
    case Looping(value, j) =>
      if t >= Count(k) then d
      else if j < Trips(k) then d.(threads := d.threads[t := Looping(ops.add(value, Addend(ops, k, t, j)), j + 1)])
      else Device(d.threads[t := Retired], d.output[t := Stored(ops, k, t, value)], d.stores[t := d.stores[t] + 1])
    case Retired => d
  }

  /** blockIdx * blockDim + threadIdx. */
  function ThreadIndex(e: (nat, nat)): nat {
    e.0 * THREADS + e.1
  }

  predicate ValidSchedule<F>(k: Kernel<F>, schedule: seq<(nat, nat)>) {
    forall i | 0 <= i < |schedule| :: schedule[i].0 < Blocks(Count(k)) && schedule[i].1 < THREADS
  }

  /** A run of the grid: which block and thread moves next is arbitrary. */
  function Run<F>(ops: Ops<F>, k: Kernel<F>, d: Device<F>, schedule: seq<(nat, nat)>): (r: Device<F>)
    requires Fits(k) && |d.output| == |d.stores| == Count(k) && |d.threads| == Blocks(Count(k)) * THREADS
    requires ValidSchedule(k, schedule)
    ensures |r.output| == |r.stores| == Count(k) && |r.threads| == |d.threads|
  {
    if schedule == [] then d
    else
      Step(ops, k, Run(ops, k, d, schedule[..|schedule| - 1]), ThreadIndex(schedule[|schedule| - 1]))
  }

  lemma BlocksCover(count: nat)
    ensures count <= Blocks(count) * 32 < count + 32 && THREADS == 32
  {
  }

  /** How many of a schedule's steps went to thread t. */
  function Turns(schedule: seq<(nat, nat)>, t: nat): nat {
    if schedule == [] then 0
    else Turns(schedule[..|schedule| - 1], t)
         + (if ThreadIndex(schedule[|schedule| - 1]) == t then 1 else 0)
  }

  /** Steps a thread takes until it retires: its guard, and when admitted its loop and its store. */
  function Needed<F>(k: Kernel<F>, t: nat): nat {
    if t < Count(k) then Trips(k) + 2 else 1
  }

  function Taken<F>(k: Kernel<F>, t: nat, thread: Thread<F>): nat {
    match thread
    case Fresh => 0
    case Looping(_, j) => j + 1
    case Retired => Needed(k, t)
  }

  /** What one thread has done, and what its cell holds. */
  ghost predicate ThreadSound<F>(ops: Ops<F>, k: Kernel<F>, d: Device<F>, initial: seq<F>, t: nat, turns: nat)
    requires Fits(k) && |d.output| == |d.stores| == |initial| == Count(k) && t < |d.threads|
  {
    && Taken(k, t, d.threads[t]) == (if turns < Needed(k, t) then turns else Needed(k, t))
    && (d.threads[t].Looping? ==>
          t < Count(k) && d.threads[t].j <= Trips(k) && d.threads[t].value == Accumulated(ops, k, t, d.threads[t].j))
    && (t < Count(k) ==>
          if d.threads[t].Retired? then d.output[t] == Cell(ops, k, t) && d.stores[t] == 1
          else d.output[t] == initial[t] && d.stores[t] == 0)
  }

  lemma StepSound<F>(ops: Ops<F>, k: Kernel<F>, d: Device<F>, initial: seq<F>, t: nat, u: nat, turns: nat)
    requires Fits(k) && |d.output| == |d.stores| == |initial| == Count(k) && t < |d.threads| && u < |d.threads|
    requires ThreadSound(ops, k, d, initial, u, turns)
    ensures ThreadSound(ops, k, Step(ops, k, d, t), initial, u, if t == u then turns + 1 else turns)
  {
  }

  lemma {:induction false} RunSound<F>(ops: Ops<F>, k: Kernel<F>, initial: seq<F>, schedule: seq<(nat, nat)>, u: nat)
    requires Fits(k) && |initial| == Count(k) && u < Blocks(Count(k)) * THREADS
    requires ValidSchedule(k, schedule)
    ensures ThreadSound(ops, k, Run(ops, k, Launched(k, initial), schedule), initial, u, Turns(schedule, u))
  {
    if schedule != [] {
      var n := |schedule| - 1;
      assert ValidSchedule(k, schedule[..n]);
      RunSound(ops, k, initial, schedule[..n], u);
      StepSound(ops, k, Run(ops, k, Launched(k, initial), schedule[..n]), initial,
                ThreadIndex(schedule[n]), u, Turns(schedule[..n], u));
    }
  }

  /** At any moment of any interleaving, a cell has been stored once, with its final value, or not yet. */
  lemma StoredAtMostOnce<F>(ops: Ops<F>, k: Kernel<F>, initial: seq<F>, schedule: seq<(nat, nat)>, i: nat)
    requires Fits(k) && |initial| == Count(k) && i < Count(k)
    requires ValidSchedule(k, schedule)
    ensures
      var d := Run(ops, k, Launched(k, initial), schedule);
      && (d.stores[i] == 0 || d.stores[i] == 1)
      && d.output[i] == (if d.stores[i] == 1 then Cell(ops, k, i) else initial[i])
      && (d.stores[i] == 1 <==> Turns(schedule, i) >= Trips(k) + 2)
  {
    BlocksCover(Count(k));
    RunSound(ops, k, initial, schedule, i);
  }

  /** The grid computes the array the host loops compute: once every thread has had its turns, in
      whatever order, each cell was stored exactly once, with that cell's value. */
  lemma AnyInterleavingFills<F>(ops: Ops<F>, k: Kernel<F>, initial: seq<F>, schedule: seq<(nat, nat)>)
    requires Fits(k) && |initial| == Count(k)
    requires ValidSchedule(k, schedule)
    requires forall t | 0 <= t < Count(k) :: Turns(schedule, t) >= Trips(k) + 2
    ensures
      var d := Run(ops, k, Launched(k, initial), schedule);
      forall i | 0 <= i < Count(k) :: d.output[i] == Cell(ops, k, i) && d.stores[i] == 1
  {
    forall i | 0 <= i < Count(k)
      ensures
        var d := Run(ops, k, Launched(k, initial), schedule);
        d.output[i] == Cell(ops, k, i) && d.stores[i] == 1
    {
      StoredAtMostOnce(ops, k, initial, schedule, i);
    }
  }

  // ----- Threads and their indices, and a schedule for every shape -----

  /** Two threads of a launch never share a flat index: what is kept by index is kept by thread. */
  lemma ThreadsDistinct(e: (nat, nat), f: (nat, nat))
    requires e.1 < THREADS && f.1 < THREADS && ThreadIndex(e) == ThreadIndex(f)
    ensures e == f
  {
  }

  /** The thread with a given flat index. */
  function ThreadAt(t: nat): (e: (nat, nat))
    ensures ThreadIndex(e) == t && e.1 < THREADS
  {
    (t / THREADS, t % THREADS)
  }

  /** One turn for each of the first n threads. */
  function Sweep(n: nat): seq<(nat, nat)> {
    if n == 0 then [] else Sweep(n - 1) + [ThreadAt(n - 1)]
  }

  function Sweeps(n: nat, rounds: nat): seq<(nat, nat)> {
    if rounds == 0 then [] else Sweeps(n, rounds - 1) + Sweep(n)
  }

  lemma {:induction false} TurnsAdd(a: seq<(nat, nat)>, b: seq<(nat, nat)>, t: nat)
    ensures Turns(a + b, t) == Turns(a, t) + Turns(b, t)
  {
    if b == [] {
      assert a + b == a;
    } else {
      assert (a + b)[..|a + b| - 1] == a + b[..|b| - 1];
      TurnsAdd(a, b[..|b| - 1], t);
    }
  }

  lemma {:induction false} SweepTurns(n: nat, t: nat)
    ensures Turns(Sweep(n), t) == if t < n then 1 else 0
  {
    if n > 0 {
      SweepTurns(n - 1, t);
      assert Sweep(n)[..n - 1] == Sweep(n - 1) by {
        SweepSize(n - 1);
      }
      SweepSize(n);
    }
  }

  lemma {:induction false} SweepSize(n: nat)
    ensures |Sweep(n)| == n
  {
    if n > 0 {
      SweepSize(n - 1);
    }
  }

  lemma {:induction false} SweepsTurns(n: nat, rounds: nat, t: nat)
    requires t < n
    ensures Turns(Sweeps(n, rounds), t) == rounds
  {
    if rounds > 0 {
      SweepsTurns(n, rounds - 1, t);
      SweepTurns(n, t);
      TurnsAdd(Sweeps(n, rounds - 1), Sweep(n), t);
    }
  }

  lemma {:induction false} SweepValid<F>(k: Kernel<F>, n: nat)
    requires n <= Count(k)
    ensures ValidSchedule(k, Sweep(n))
  {
    if n > 0 {
      SweepValid(k, n - 1);
      BlocksCover(Count(k));
    }
  }

  lemma {:induction false} SweepsValid<F>(k: Kernel<F>, rounds: nat)
    ensures ValidSchedule(k, Sweeps(Count(k), rounds))
  {
    if rounds > 0 {
      SweepsValid(k, rounds - 1);
      SweepValid(k, Count(k));
    }
  }

  /** Every launch of every shape has a schedule that gives each guarded thread its turns. */
  lemma ScheduleExists<F>(k: Kernel<F>) returns (schedule: seq<(nat, nat)>)
    ensures ValidSchedule(k, schedule)
    ensures forall t | 0 <= t < Count(k) :: Turns(schedule, t) >= Trips(k) + 2
  {
    schedule := Sweeps(Count(k), Trips(k) + 2);
    SweepsValid(k, Trips(k) + 2);
    forall t | 0 <= t < Count(k)
      ensures Turns(schedule, t) >= Trips(k) + 2
    {
      SweepsTurns(Count(k), Trips(k) + 2, t);
    }
  }

  // ----- The kernels compute the oracle's chain -----

  /** A flat row-major array as rows. */
  function Nested<F>(s: seq<F>, rows: nat, columns: nat): (m: seq<seq<F>>)
    requires |s| == Area(rows, columns)
    ensures Shaped(m, rows, columns)
    ensures forall r, c | 0 <= r < rows && 0 <= c < columns ::
              Flat(r, c, columns) < |s| && m[r][c] == s[Flat(r, c, columns)]
  {
    assert forall r: nat, c: nat | r < rows && c < columns :: Flat(r, c, columns) < Area(rows, columns) by {
      forall r: nat, c: nat | r < rows && c < columns
        ensures Flat(r, c, columns) < Area(rows, columns)
      {
        FlatInRange(r, c, rows, columns);
      }
    }
    seq(rows, r requires 0 <= r < rows => seq(columns, c requires 0 <= c < columns => s[Flat(r, c, columns)]))
  }

  lemma {:induction false} AccumulatedIsDot<F>(ops: Ops<F>, k: Kernel<F>, row: nat, column: nat, n: nat)
    requires Fits(k) && k.Projection? && row < k.rows && column < k.columns && n <= k.inner
    ensures Flat(row, column, k.columns) < Count(k)
    ensures Accumulated(ops, k, Flat(row, column, k.columns), n)
         == Sum(ops, Products(ops, Nested(k.a, k.rows, k.inner)[row], Nested(k.b, k.inner, k.columns), column), n)
  {
    FlatInRange(row, column, k.rows, k.columns);
    if n > 0 {
      AccumulatedIsDot(ops, k, row, column, n - 1);
      FlatSplit(row, column, k.columns);
    }
  }

  /** The projection kernel's cells are the matmul's entries. */
  lemma ProjectionIsMatmul<F>(ops: Ops<F>, k: Kernel<F>, row: nat, column: nat)
    requires Fits(k) && k.Projection? && row < k.rows && column < k.columns
    ensures Flat(row, column, k.columns) < Count(k)
    ensures Cell(ops, k, Flat(row, column, k.columns))
         == Dot(ops, Nested(k.a, k.rows, k.inner)[row], Nested(k.b, k.inner, k.columns), column)
  {
    AccumulatedIsDot(ops, k, row, column, k.inner);
  }

  lemma {:induction false} AccumulatedIsSum<F>(ops: Ops<F>, k: Kernel<F>, row: nat, n: nat, xs: seq<F>)
    requires Fits(k) && k.RowSums? && row < k.rows && n <= k.columns == |xs|
    requires forall c | 0 <= c < k.columns ::
               Flat(row, c, k.columns) < |k.projection| && k.projection[Flat(row, c, k.columns)] == xs[c]
    ensures Accumulated(ops, k, row, n) == Sum(ops, xs, n)
  {
    if n > 0 {
      AccumulatedIsSum(ops, k, row, n - 1, xs);
    }
  }

  /** What a launch or a host call leaves in its output. */
  ghost predicate Fills<F>(ops: Ops<F>, k: Kernel<F>, output: seq<F>) {
    Fits(k) && |output| == Count(k) && forall i | 0 <= i < Count(k) :: output[i] == Cell(ops, k, i)
  }

  /** Projection, then (in the chain) ReLU, then the row sum: the emitted kernels, run on host or
      device, give exactly the sequential oracle's rows. */
  lemma KernelsComputeChain<F>(ops: Ops<F>, relu: bool, rows: nat, inner: nat, columns: nat, a: seq<F>, b: seq<F>,
                               projection: seq<F>, activated: seq<F>, output: seq<F>)
    requires Fills(ops, Projection(rows, inner, columns, a, b), projection)
    requires if relu then Fills(ops, ReluEach(projection), activated) else activated == projection
    requires Fills(ops, RowSums(rows, columns, activated), output)
    ensures forall r | 0 <= r < rows ::
              output[r] == RowResult(ops, relu, Nested(a, rows, inner)[r], Nested(b, inner, columns), columns)
  {
    var k := Projection(rows, inner, columns, a, b);
    forall r | 0 <= r < rows
      ensures output[r] == RowResult(ops, relu, Nested(a, rows, inner)[r], Nested(b, inner, columns), columns)
    {
      var xs := ProductRow(ops, relu, Nested(a, rows, inner)[r], Nested(b, inner, columns), columns, columns);
      forall c | 0 <= c < columns
        ensures Flat(r, c, columns) < |activated| && activated[Flat(r, c, columns)] == xs[c]
      {
        ProjectionIsMatmul(ops, k, r, c);
      }
      AccumulatedIsSum(ops, RowSums(rows, columns, activated), r, columns, xs);
    }
  }
}
