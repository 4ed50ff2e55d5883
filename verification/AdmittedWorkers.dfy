/**
  Generated workers on the inputs the numeric contract admits, with round_f32's own arithmetic: no
  check ever fails on the way, so every case returns 0, and every fault its own code.
 */
module AdmittedWorkers {
  import opened Graphs
  import opened Residency
  import opened Conservation
  import opened Receipts
  import opened CProgram
  import opened Worker
  import opened WorkerProofs
  import opened EndToEnd
  import opened Binary32
  import N = NumericContract
  import A = Arithmetic
  import K = Kernels
  import WorkerVerdicts
  import Faults
  import P = Portfolio

  predicate AllAdmittedWords(ws: Words) {
    forall i | 0 <= i < |ws| :: AdmittedWord(ws[i])
  }

  predicate AdmittedRows(m: seq<Words>) {
    forall i | 0 <= i < |m| :: AllAdmittedWords(m[i])
  }

  /** The reference's inputs for a list of words. */
  function RowOf(ws: Words): (xs: seq<N.F32>)
    ensures |xs| == |ws| && forall i | 0 <= i < |ws| :: xs[i] == InputOf(ws[i])
  {
    seq(|ws|, i requires 0 <= i < |ws| => InputOf(ws[i]))
  }

  function RowsOf(m: seq<Words>): (xs: seq<seq<N.F32>>)
    ensures |xs| == |m| && forall i | 0 <= i < |m| :: xs[i] == RowOf(m[i])
  {
    seq(|m|, i requires 0 <= i < |m| => RowOf(m[i]))
  }

  lemma RowAdmits(ws: Words)
    requires AllAdmittedWords(ws)
    ensures N.AllAdmitted(RowOf(ws)) && forall i | 0 <= i < |ws| :: Shows(ws[i], RowOf(ws)[i])
  {
    forall i | 0 <= i < |ws|
      ensures RowOf(ws)[i].Rounded? && N.Admitted(RowOf(ws)[i].value) && Shows(ws[i], RowOf(ws)[i])
    {
      InputShows(ws[i]);
    }
  }

  lemma CaseAdmits(x: Words, y: seq<Words>, columns: nat)
    requires AllAdmittedWords(x) && AdmittedRows(y) && A.Shaped(y, |x|, columns)
    ensures N.AdmittedCase(RowOf(x), RowsOf(y), columns)
  {
    RowAdmits(x);
    forall i | 0 <= i < |y|
      ensures N.AllAdmitted(RowsOf(y)[i])
    {
      RowAdmits(y[i]);
    }
  }

  lemma ProductShows(x: Words, y: seq<Words>, columns: nat, c: nat, k: nat)
    requires AllAdmittedWords(x) && AdmittedRows(y) && A.Shaped(y, |x|, columns) && c < columns && k < |x|
    ensures N.AdmittedCase(RowOf(x), RowsOf(y), columns)
    ensures Shows(A.Products(WORD_OPS, x, y, c)[k], A.Products(N.OPS32, RowOf(x), RowsOf(y), c)[k])
  {
    CaseAdmits(x, y, columns);
    N.ProductAt(RowOf(x), RowsOf(y), columns, c, k);
    RowAdmits(x);
    RowAdmits(y[k]);
    MulShows(x[k], y[k][c], RowOf(x)[k], RowsOf(y)[k][c]);
  }

  /** An entry of the product. */
  lemma DotShows(x: Words, y: seq<Words>, columns: nat, c: nat)
    requires AllAdmittedWords(x) && AdmittedRows(y) && A.Shaped(y, |x|, columns) && c < columns
    requires |x| + 1 <= 16777216
    ensures Shows(A.Dot(WORD_OPS, x, y, c), A.Dot(N.OPS32, RowOf(x), RowsOf(y), c))
  {
    CaseAdmits(x, y, columns);
    N.DotSucceeds(RowOf(x), RowsOf(y), columns, c);
    forall k | 0 <= k < |x|
      ensures Shows(A.Products(WORD_OPS, x, y, c)[k], A.Products(N.OPS32, RowOf(x), RowsOf(y), c)[k])
    {
      ProductShows(x, y, columns, c, k);
    }
    SumShows(A.Products(WORD_OPS, x, y, c), A.Products(N.OPS32, RowOf(x), RowsOf(y), c), |x|);
  }

  lemma ActivatedShows(relu: bool, x: Words, y: seq<Words>, columns: nat, c: nat)
    requires AllAdmittedWords(x) && AdmittedRows(y) && A.Shaped(y, |x|, columns) && c < columns
    requires |x| + 1 <= 16777216
    ensures Shows(A.Activated(WORD_OPS, relu, A.Dot(WORD_OPS, x, y, c)),
                  A.Activated(N.OPS32, relu, A.Dot(N.OPS32, RowOf(x), RowsOf(y), c)))
  {
    DotShows(x, y, columns, c);
    ReluShows(A.Dot(WORD_OPS, x, y, c), A.Dot(N.OPS32, RowOf(x), RowsOf(y), c));
  }

  /** A row's sum, with the ReLU or without. */
  lemma ResultShows(relu: bool, x: Words, y: seq<Words>, columns: nat)
    requires AllAdmittedWords(x) && AdmittedRows(y) && A.Shaped(y, |x|, columns)
    requires |x| + columns + 1 <= 16777216
    ensures Shows(A.RowResult(WORD_OPS, relu, x, y, columns), A.RowResult(N.OPS32, relu, RowOf(x), RowsOf(y), columns))
  {
    CaseAdmits(x, y, columns);
    N.RowSucceeds(relu, RowOf(x), RowsOf(y), columns);
    var ws := A.ProductRow(WORD_OPS, relu, x, y, columns, columns);
    var xs := A.ProductRow(N.OPS32, relu, RowOf(x), RowsOf(y), columns, columns);
    forall c | 0 <= c < columns
      ensures Shows(ws[c], xs[c])
    {
      ActivatedShows(relu, x, y, columns, c);
    }
    SumShows(ws, xs, columns);
  }

  // ----- The kernels -----

  lemma NestedAdmitted(ws: Words, rows: nat, columns: nat)
    requires AllAdmittedWords(ws) && |ws| == K.Area(rows, columns)
    ensures AdmittedRows(K.Nested(ws, rows, columns))
  {
  }

  /** The product kernel's results, and the clamped ones, pass the worker's check. */
  lemma ProductNormal(rows: nat, inner: nat, columns: nat, a: Words, b: Words)
    requires |a| == K.Area(rows, inner) && |b| == K.Area(inner, columns) && inner + 1 <= 16777216
    requires AllAdmittedWords(a) && AllAdmittedWords(b)
    ensures
      var product := P.MatmulValues(WORD_OPS, rows, inner, columns, a, b);
      AllNormal(product) && AllNormal(P.ReluValues(WORD_OPS, product))
  {
    var product := P.MatmulValues(WORD_OPS, rows, inner, columns, a, b);
    NestedAdmitted(a, rows, inner);
    NestedAdmitted(b, inner, columns);
    forall i | 0 <= i < |product|
      ensures NormalWord(product[i]) && NormalWord(P.ReluValues(WORD_OPS, product)[i])
    {
      K.FlatJoin(i, rows, columns);
      var r, c := K.RowOf(i, columns), K.ColumnOf(i, columns);
      K.ProjectionIsMatmul(WORD_OPS, K.Projection(rows, inner, columns, a, b), r, c);
      ActivatedShows(true, K.Nested(a, rows, inner)[r], K.Nested(b, inner, columns), columns, c);
      DotShows(K.Nested(a, rows, inner)[r], K.Nested(b, inner, columns), columns, c);
    }
  }

  /** And so do the row sums of either. */
  lemma SumsNormal(relu: bool, rows: nat, inner: nat, columns: nat, a: Words, b: Words)
    requires |a| == K.Area(rows, inner) && |b| == K.Area(inner, columns) && inner + columns + 1 <= 16777216
    requires AllAdmittedWords(a) && AllAdmittedWords(b)
    ensures
      var product := P.MatmulValues(WORD_OPS, rows, inner, columns, a, b);
      AllNormal(P.SumValues(WORD_OPS, rows, columns, if relu then P.ReluValues(WORD_OPS, product) else product))
  {
    var product := P.MatmulValues(WORD_OPS, rows, inner, columns, a, b);
    var activated := if relu then P.ReluValues(WORD_OPS, product) else product;
    var sums := P.SumValues(WORD_OPS, rows, columns, activated);
    NestedAdmitted(a, rows, inner);
    NestedAdmitted(b, inner, columns);
    K.KernelsComputeChain(WORD_OPS, relu, rows, inner, columns, a, b, product, activated, sums);
    forall r | 0 <= r < rows
      ensures NormalWord(sums[r])
    {
      ResultShows(relu, K.Nested(a, rows, inner)[r], K.Nested(b, inner, columns), columns);
    }
  }

  /** Clamped inputs are admitted inputs. */
  lemma ClampedWords(ws: Words)
    requires AllAdmittedWords(ws)
    ensures AllAdmittedWords(P.ReluValues(WORD_OPS, ws)) && AllNormal(P.ReluValues(WORD_OPS, ws))
  {
    forall i | 0 <= i < |ws|
      ensures AdmittedWord(ReluWord(ws[i])) && NormalWord(ReluWord(ws[i]))
    {
      InputShows(ws[i]);
      ReluShows(ws[i], InputOf(ws[i]));
    }
  }

  // ----- The families -----

  /** The values of a family's projection from words it admits, clamped first where the family does. */
  lemma ProjectedNormal(family: P.Family, rows: nat, inner: nat, columns: nat, a: Words, b: Words)
    requires |a| == K.Area(rows, inner) && |b| == K.Area(inner, columns) && inner + columns + 1 <= 16777216
    requires AllAdmittedWords(a) && AllAdmittedWords(b)
    ensures
      var product := P.Projected(WORD_OPS, family, rows, inner, columns, a, b);
      && AllNormal(product) && AllNormal(P.ReluValues(WORD_OPS, product))
      && AllNormal(P.SumValues(WORD_OPS, rows, columns, product))
      && AllNormal(P.SumValues(WORD_OPS, rows, columns, P.ReluValues(WORD_OPS, product)))
  {
    var clamps := family == P.FaninFamily || family == P.DiamondFamily;
    ClampedWords(a);
    ClampedWords(b);
    var left := if clamps then P.ReluValues(WORD_OPS, a) else a;
    var right := if clamps then P.ReluValues(WORD_OPS, b) else b;
    ProductNormal(rows, inner, columns, left, right);
    SumsNormal(false, rows, inner, columns, left, right);
    SumsNormal(true, rows, inner, columns, left, right);
  }

  /** Every operation of a family without a second product gives normal or zero results. */
  lemma FamilyNormal(family: P.Family, rows: nat, inner: nat, columns: nat, v: Vector, fault: nat)
    requires family != P.DiamondFamily && VectorShaped(rows, inner, columns, v) && inner + columns + 1 <= 16777216
    requires AllAdmittedWords(v.a) && AllAdmittedWords(v.b)
    ensures NormalResults(P.FamilyGraph(family, rows, inner, columns),
                          PortfolioSetting(WORD_OPS, family, rows, inner, columns, v, fault))
  {
    var g := P.FamilyGraph(family, rows, inner, columns);
    var inputs := P.NamedInputs(v.a, v.b, v.weights);
    P.FamilyIsAGraph(family, rows, inner, columns);
    P.ProjectionAgrees(WORD_OPS, family, rows, inner, columns, v.a, v.b, v.weights);
    ProjectedNormal(family, rows, inner, columns, v.a, v.b);
    if family == P.FaninFamily {
      ClampedWords(v.a);
      ClampedWords(v.b);
      P.InputEquation(WORD_OPS, g, inputs, P.A);
      P.InputEquation(WORD_OPS, g, inputs, P.B);
      P.ReluEquation(WORD_OPS, g, inputs, 0, P.A);
      P.ReluEquation(WORD_OPS, g, inputs, 1, P.B);
      P.SumEquation(WORD_OPS, g, inputs, 3, P.PROJECTION, rows, columns);
    } else {
      P.ReluEquation(WORD_OPS, g, inputs, 1, P.PROJECTION);
      if family == P.FanoutFamily {
        P.SumEquation(WORD_OPS, g, inputs, 2, P.PROJECTION, rows, columns);
        P.SumEquation(WORD_OPS, g, inputs, 3, P.ACTIVATED, rows, columns);
      } else {
        P.SumEquation(WORD_OPS, g, inputs, 2, P.ACTIVATED, rows, columns);
      }
    }
  }

  /** When every result is normal, so is whatever takes effect before a fault shows. */
  lemma RanNormal(c: Context, p: Plan, s: Setting, fault: nat)
    requires Compiled(c, p) && 1 <= fault <= 3 && NormalResults(c.graph, s)
    ensures WellShaped(p.buffers, RunPasses(p.steps, fault, PASSES).ran)
    ensures NormalEvents(c.graph, p.buffers, s, RunPasses(p.steps, fault, PASSES).ran)
  {
    ReceiptPublishesTerminals(c, p, fault);
    WorkerVerdicts.ReceiptCode(c, p, fault);
    Faults.FirstPassOnly(p.steps, fault);
    RanFromSteps(fault, p.steps);
    var ran := RunPasses(p.steps, fault, PASSES).ran;
    forall i | 0 <= i < |ran|
      ensures NormalEvent(c.graph, p.buffers, s, ran[i])
    {
      assert ran[i] in p.steps;
      var j :| 0 <= j < |p.steps| && p.steps[j] == ran[i];
      ResultOfEvent(c, p, s, j);
    }
  }

  /** The workers on the contract's inputs. Take a family without a second product, any shape the
      constructor admits, any accepted host plan, any input words from 2^-24 to 2^16 of either sign or zero,
      any initial slots: with round_f32's arithmetic the generated worker returns 0, and under an
      injected fault that fault's own code. */
  lemma AdmittedWorkerReturns(family: P.Family, rows: nat, inner: nat, columns: nat, p: Plan,
                              inputs: nat -> Vector, vectors: Vectors, fault: nat, slots: seq<Words>,
                              start: WorkerCounts)
    requires family != P.DiamondFamily && fault <= 3
    requires 1 <= rows <= 64 && 1 <= inner <= 64 && 1 <= columns <= 64
    requires
      var c := HostContext(P.FamilyGraph(family, rows, inner, columns));
      Assigned(c) && Accepted(c, p)
    requires SizesNonnegative(p.buffers) && SizedSlots(p, slots)
    requires forall v: nat :: VectorShaped(rows, inner, columns, inputs(v))
    requires forall v: nat :: AllAdmittedWords(inputs(v).a) && AllAdmittedWords(inputs(v).b)
    requires forall v: nat ::
      vectors(v) == PortfolioSetting(WORD_OPS, family, rows, inner, columns, inputs(v), fault)
    ensures
      var g := P.FamilyGraph(family, rows, inner, columns);
      && Compiled(HostContext(g), p)
      && var exit := RunCase(Emitted(HostContext(g), p), vectors, slots, start, PASSES);
         !exit.Undefined? && CaseCode(exit) == fault
  {
    var g := P.FamilyGraph(family, rows, inner, columns);
    PortfolioWorkerCode(WORD_OPS, family, rows, inner, columns, p, inputs, vectors, fault, slots, start);
    forall v: nat
      ensures NormalResults(g, vectors(v))
    {
      FamilyNormal(family, rows, inner, columns, inputs(v), fault);
    }
    if fault != 0 {
      RanNormal(HostContext(g), p, vectors(0), fault);
    }
  }
}
