/**
  Text and integer budgets enforced by an explicit worklist (examples/bounded_plan_native_bridge.py,
  _bounded_metadata): it accepts exactly the trees that meet the recursive limits, whatever order
  the pending items are taken in.
 */
module Metadata {
  import opened Wrappers
  import opened Rounding

  /** Plain JSON; Other stands for null, booleans and floats, which carry no budget. */
  datatype Json = Other | Text(text: string) | Integer(value: int) | List(items: seq<Json>) | Object(fields: seq<Field>)

  datatype Field = Field(key: string, value: Json)

  const MAX_TEXT := 16384
  const MAX_CHARACTERS := 65536
  const MAX_BITS := 63

  /** Python's int.bit_length. */
  function Bits(n: int): nat {
    BitLength(if n < 0 then -n else n)
  }

  // ----- The limits, by recursion on the tree -----

  function Sum(ns: seq<nat>, k: nat): nat
    requires k <= |ns|
  {
    if k == 0 then 0 else Sum(ns, k - 1) + ns[k - 1]
  }

  /** What one item weighs, leaving out what it contains. */
  type Measure = Json -> nat

  /** The weight of a whole tree; an object's keys are texts in it. */
  function Weight(own: Measure, v: Json): nat
    decreases v
  {
    own(v) +
    match v
    case List(items) => Sum(seq(|items|, i requires 0 <= i < |items| => Weight(own, items[i])), |items|)
    case Object(fields) => Sum(seq(|fields|, i requires 0 <= i < |fields| => FieldWeight(own, fields[i])), |fields|)
    case _ => 0
  }

  function FieldWeight(own: Measure, f: Field): nat
    decreases f
  {
    own(Text(f.key)) + Weight(own, f.value)
  }

  function One(v: Json): nat {
    1
  }

  function Characters(v: Json): nat {
    if v.Text? then |v.text| else 0
  }

  /** 1 for a text that is too long or an integer that is too wide. */
  function Misfit(v: Json): nat {
    match v
    case Text(s) => if |s| > MAX_TEXT then 1 else 0
    case Integer(n) => if Bits(n) > MAX_BITS then 1 else 0
    case _ => 0
  }

  function Weights(own: Measure, vs: seq<Json>): (ns: seq<nat>)
    ensures |ns| == |vs| && forall i | 0 <= i < |vs| :: ns[i] == Weight(own, vs[i])
  {
    seq(|vs|, i requires 0 <= i < |vs| => Weight(own, vs[i]))
  }

  function FieldWeights(own: Measure, fields: seq<Field>): (ns: seq<nat>)
    ensures |ns| == |fields| && forall i | 0 <= i < |fields| :: ns[i] == FieldWeight(own, fields[i])
  {
    seq(|fields|, i requires 0 <= i < |fields| => FieldWeight(own, fields[i]))
  }

  function AllWeight(own: Measure, vs: seq<Json>): nat {
    Sum(Weights(own, vs), |vs|)
  }

  // ----- Weights of lists -----

  lemma {:induction false} SumOfPrefix(a: seq<nat>, b: seq<nat>, k: nat)
    requires k <= |a|
    ensures Sum(a + b, k) == Sum(a, k)
  {
    if k > 0 {
      SumOfPrefix(a, b, k - 1);
    }
  }

  lemma {:induction false} SumOfConcat(a: seq<nat>, b: seq<nat>, k: nat)
    requires k <= |b|
    ensures Sum(a + b, |a| + k) == Sum(a, |a|) + Sum(b, k)
  {
    if k == 0 {
      SumOfPrefix(a, b, |a|);
    } else {
      SumOfConcat(a, b, k - 1);
    }
  }

  lemma {:induction false} SumOfPairs(xs: seq<nat>, ys: seq<nat>, zs: seq<nat>, k: nat)
    requires k <= |xs| == |ys| == |zs| && forall i | 0 <= i < |xs| :: zs[i] == xs[i] + ys[i]
    ensures Sum(zs, k) == Sum(xs, k) + Sum(ys, k)
  {
    if k > 0 {
      SumOfPairs(xs, ys, zs, k - 1);
    }
  }

  lemma ConcatWeight(own: Measure, a: seq<Json>, b: seq<Json>)
    ensures AllWeight(own, a + b) == AllWeight(own, a) + AllWeight(own, b)
  {
    assert Weights(own, a + b) == Weights(own, a) + Weights(own, b);
    SumOfConcat(Weights(own, a), Weights(own, b), |b|);
  }

  lemma OneWeight(own: Measure, v: Json)
    ensures AllWeight(own, [v]) == Weight(own, v)
  {
    assert Sum(Weights(own, [v]), 0) == 0;
  }

  function Keys(fields: seq<Field>): (ks: seq<Json>)
    ensures |ks| == |fields| && forall i | 0 <= i < |fields| :: ks[i] == Text(fields[i].key)
  {
    seq(|fields|, i requires 0 <= i < |fields| => Text(fields[i].key))
  }

  function FieldValues(fields: seq<Field>): (vs: seq<Json>)
    ensures |vs| == |fields| && forall i | 0 <= i < |fields| :: vs[i] == fields[i].value
  {
    seq(|fields|, i requires 0 <= i < |fields| => fields[i].value)
  }

  /** What the worklist pushes for a container: items, or keys and then values. */
  function Children(v: Json): seq<Json> {
    match v
    case List(items) => items
    case Object(fields) => Keys(fields) + FieldValues(fields)
    case _ => []
  }

  lemma FieldsWeight(own: Measure, fields: seq<Field>, ns: seq<nat>)
    requires |ns| == |fields|
    requires forall i | 0 <= i < |fields| :: ns[i] == FieldWeight(own, fields[i])
    ensures Sum(ns, |ns|) == AllWeight(own, Keys(fields) + FieldValues(fields))
  {
    var ks, vs := Weights(own, Keys(fields)), Weights(own, FieldValues(fields));
    assert forall i | 0 <= i < |fields| :: ks[i] == own(Text(fields[i].key));
    SumOfPairs(ks, vs, ns, |ns|);
    ConcatWeight(own, Keys(fields), FieldValues(fields));
  }

  /** A tree weighs its own weight and its children's. */
  lemma ChildrenComplete(own: Measure, v: Json)
    ensures Weight(own, v) == own(v) + AllWeight(own, Children(v))
  {
    match v {
      case List(items) =>
        assert seq(|items|, i requires 0 <= i < |items| => Weight(own, items[i])) == Weights(own, items);
      case Object(fields) =>
        FieldsWeight(own, fields, seq(|fields|, i requires 0 <= i < |fields| => FieldWeight(own, fields[i])));
      case _ =>
    }
  }

  // ----- The worklist -----

  /** Taking item i and pushing its children leaves everything but the item's own weight. */
  lemma Taken(own: Measure, pending: seq<Json>, i: nat, rest: seq<Json>)
    requires i < |pending| && rest == pending[..i] + pending[i + 1..] + Children(pending[i])
    ensures AllWeight(own, pending) == own(pending[i]) + AllWeight(own, rest)
  {
    var before, item, after := pending[..i], pending[i], pending[i + 1..];
    assert pending == before + [item] + after;
    ConcatWeight(own, before + [item], after);
    ConcatWeight(own, before, [item]);
    OneWeight(own, item);
    ChildrenComplete(own, item);
    ConcatWeight(own, before + after, Children(item));
    ConcatWeight(own, before, after);
  }

  // ----- The limits, outright -----

  /** w is v or something in it, keys included. */
  predicate Inside(w: Json, v: Json)
    decreases v
  {
    || w == v
    || match v
       case List(items) => exists i :: 0 <= i < |items| && Inside(w, items[i])
       case Object(fields) => exists i :: 0 <= i < |fields| && InsideField(w, fields[i])
       case _ => false
  }

  predicate InsideField(w: Json, f: Field)
    decreases f
  {
    w == Text(f.key) || Inside(w, f.value)
  }

  /** A text of at most 16384 characters, an integer of at most 63 bits, or neither. */
  predicate Modest(w: Json) {
    && (w.Text? ==> |w.text| <= 16384)
    && (w.Integer? ==> -9223372036854775808 < w.value < 9223372036854775808)
  }

  lemma {:induction false} BitLengthAtMost(n: nat, bits: nat)
    ensures BitLength(n) <= bits <==> n < IntPow2(bits)
    decreases bits
  {
    if bits > 0 {
      BitLengthAtMost(n / 2, bits - 1);
    }
  }

  lemma SixtyThree()
    ensures IntPow2(63) == 9223372036854775808
  {
    assert IntPow2(7) == 128;
    PowersAdd(7, 7);
    PowersAdd(14, 7);
    PowersAdd(21, 21);
    PowersAdd(42, 21);
  }

  lemma {:induction false} PowersAdd(m: nat, n: nat)
    ensures IntPow2(m + n) == IntPow2(m) * IntPow2(n)
  {
    if n > 0 {
      PowersAdd(m, n - 1);
      Doubled(IntPow2(m), IntPow2(n - 1));
    }
  }

  lemma Doubled(a: int, b: int)
    ensures 2 * (a * b) == a * (2 * b)
  {
  }

  lemma ModestFits(w: Json)
    ensures Misfit(w) == 0 <==> Modest(w)
  {
    if w.Integer? {
      SixtyThree();
      BitLengthAtMost(if w.value < 0 then -w.value else w.value, 63);
    }
  }

  lemma {:induction false} SumZero(ns: seq<nat>, k: nat)
    requires k <= |ns|
    ensures Sum(ns, k) == 0 <==> forall i | 0 <= i < k :: ns[i] == 0
  {
    if k > 0 {
      SumZero(ns, k - 1);
    }
  }

  ghost predicate AllModest(v: Json) {
    forall w | Inside(w, v) :: Modest(w)
  }

  /** The integer and text limits hold of everything in the tree. */
  lemma {:induction false} NoMisfit(v: Json)
    ensures Weight(Misfit, v) == 0 <==> AllModest(v)
    decreases v
  {
    ModestFits(v);
    match v {
      case List(items) =>
        forall i | 0 <= i < |items|
          ensures Weight(Misfit, items[i]) == 0 <==> AllModest(items[i])
        {
          NoMisfit(items[i]);
        }
        assert seq(|items|, i requires 0 <= i < |items| => Weight(Misfit, items[i])) == Weights(Misfit, items);
        SumZero(Weights(Misfit, items), |items|);
        ItemsModest(items);
        assert v == List(items);
      case Object(fields) =>
        forall i | 0 <= i < |fields|
          ensures FieldWeight(Misfit, fields[i]) == 0 <==> FieldModest(fields[i])
        {
          NoMisfit(fields[i].value);
          ModestFits(Text(fields[i].key));
          FieldInside(fields[i]);
        }
        assert seq(|fields|, i requires 0 <= i < |fields| => FieldWeight(Misfit, fields[i]))
            == FieldWeights(Misfit, fields);
        SumZero(FieldWeights(Misfit, fields), |fields|);
        FieldsModest(fields);
        assert v == Object(fields);
      case _ =>
    }
  }

  ghost predicate FieldModest(f: Field) {
    forall w | InsideField(w, f) :: Modest(w)
  }

  lemma FieldInside(f: Field)
    ensures FieldModest(f) <==> Modest(Text(f.key)) && AllModest(f.value)
  {
    if FieldModest(f) {
      assert InsideField(Text(f.key), f);
      assert forall w | Inside(w, f.value) :: InsideField(w, f);
    }
  }

  lemma ItemsModest(items: seq<Json>)
    ensures AllModest(List(items)) <==> forall i | 0 <= i < |items| :: AllModest(items[i])
  {
    if AllModest(List(items)) {
      forall i, w | 0 <= i < |items| && Inside(w, items[i])
        ensures Modest(w)
      {
        assert Inside(w, List(items));
      }
    }
    assert Modest(List(items));
  }

  lemma FieldsModest(fields: seq<Field>)
    ensures AllModest(Object(fields)) <==> forall i | 0 <= i < |fields| :: FieldModest(fields[i])
  {
    if AllModest(Object(fields)) {
      forall i, w | 0 <= i < |fields| && InsideField(w, fields[i])
        ensures Modest(w)
      {
        assert Inside(w, Object(fields));
      }
    }
    assert Modest(Object(fields));
  }

  /** All the texts of a tree, keys included, one after the other. */
  function AllText(v: Json): string
    decreases v
  {
    match v
    case Text(s) => s
    case List(items) => Spliced(seq(|items|, i requires 0 <= i < |items| => AllText(items[i])), |items|)
    case Object(fields) => Spliced(seq(|fields|, i requires 0 <= i < |fields| => FieldText(fields[i])), |fields|)
    case _ => ""
  }

  function FieldText(f: Field): string
    decreases f
  {
    f.key + AllText(f.value)
  }

  function Spliced(texts: seq<string>, k: nat): string
    requires k <= |texts|
  {
    if k == 0 then "" else Spliced(texts, k - 1) + texts[k - 1]
  }

  lemma {:induction false} SplicedLength(texts: seq<string>, ns: seq<nat>, k: nat)
    requires k <= |texts| == |ns| && forall i | 0 <= i < |texts| :: |texts[i]| == ns[i]
    ensures |Spliced(texts, k)| == Sum(ns, k)
  {
    if k > 0 {
      SplicedLength(texts, ns, k - 1);
    }
  }

  /** The running total counts the characters of all of them. */
  lemma {:induction false} TextLength(v: Json)
    ensures Weight(Characters, v) == |AllText(v)|
    decreases v
  {
    match v {
      case List(items) =>
        forall i | 0 <= i < |items|
          ensures Weight(Characters, items[i]) == |AllText(items[i])|
        {
          TextLength(items[i]);
        }
        SplicedLength(seq(|items|, i requires 0 <= i < |items| => AllText(items[i])),
                      seq(|items|, i requires 0 <= i < |items| => Weight(Characters, items[i])), |items|);
      case Object(fields) =>
        forall i | 0 <= i < |fields|
          ensures FieldWeight(Characters, fields[i]) == |FieldText(fields[i])|
        {
          TextLength(fields[i].value);
        }
        SplicedLength(seq(|fields|, i requires 0 <= i < |fields| => FieldText(fields[i])),
                      seq(|fields|, i requires 0 <= i < |fields| => FieldWeight(Characters, fields[i])), |fields|);
      case _ =>
    }
  }

  /** The traversal, with its running total. Any pending item may go next, where the code pops the last:
      the verdict is the recursive one in every order. */
  method BoundedMetadata(value: Json) returns (r: Result<()>)
    ensures r.Ok? <==> (forall w | Inside(w, value) :: Modest(w)) && |AllText(value)| <= 65536
  {
    NoMisfit(value);
    TextLength(value);
    var pending := [value];
    var characters := 0;
    OneWeight(Misfit, value);
    OneWeight(Characters, value);
    while pending != []
      invariant characters <= MAX_CHARACTERS
      invariant Weight(Misfit, value) == AllWeight(Misfit, pending)
      invariant Weight(Characters, value) == characters + AllWeight(Characters, pending)
      decreases AllWeight(One, pending)
    {
      var i: nat :| i < |pending|;
      var item := pending[i];
      var rest := pending[..i] + pending[i + 1..] + Children(item);
      Taken(Misfit, pending, i, rest);
      Taken(Characters, pending, i, rest);
      Taken(One, pending, i, rest);
      match item {
        case Text(s) =>
          characters := characters + |s|;
          if |s| > MAX_TEXT || characters > MAX_CHARACTERS {
            return Err("text budget exceeded");
          }
        case Integer(n) =>
          if Bits(n) > MAX_BITS {
            return Err("integer budget exceeded");
          }
        case _ =>
      }
      pending := rest;
    }
    return Ok(());
  }
}
