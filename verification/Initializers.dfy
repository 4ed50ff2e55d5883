/**
  The C initializer renderer (examples/bounded_dag_native.py, _array): one counter bounds the whole
  expansion, the output stays below nine characters a node, and a parser gets every accepted list back.
 */
module Initializers {
  import opened Wrappers

  /** What the renderer is given; Odd stands for any value that is neither a list nor an integer. */
  datatype Nest = Leaf(n: int) | Group(items: seq<Nest>) | Odd

  const MAX_NODES := 4096
  const MAX_ITEMS := 96
  const MAX_DEPTH := 4
  const MAX_INTEGER := 1_000_000

  // ----- What is rendered -----

  function Digit(d: nat): char
    requires d < 10
  {
    ('0' as int + d) as char
  }

  function Decimal(n: nat): (s: string)
    ensures s != []
  {
    if n < 10 then [Digit(n)] else Decimal(n / 10) + [Digit(n % 10)]
  }

  /** ",".join */
  function Joined(fields: seq<string>): string {
    if fields == [] then ""
    else if |fields| == 1 then fields[0]
    else fields[0] + "," + Joined(fields[1..])
  }

  /** Integers in range, lists no longer and no deeper than allowed. */
  predicate Renderable(v: Nest, depth: nat)
    decreases v
  {
    match v
    case Leaf(n) => 0 <= n <= MAX_INTEGER
    case Group(items) =>
      |items| <= MAX_ITEMS && depth <= MAX_DEPTH && forall i | 0 <= i < |items| :: Renderable(items[i], depth + 1)
    case Odd => false
  }

  function Render(v: Nest): string
    decreases v
  {
    match v
    case Leaf(n) => if n < 0 then "" else Decimal(n) + "U"
    case Group(items) => "{" + Joined(seq(|items|, i requires 0 <= i < |items| => Render(items[i]))) + "}"
    case Odd => ""
  }

  function Total(ns: seq<nat>, k: nat): nat
    requires k <= |ns|
  {
    if k == 0 then 0 else Total(ns, k - 1) + ns[k - 1]
  }

  /** Lists and integers, counted as often as they are expanded. */
  function Nodes(v: Nest): (n: nat)
    ensures n > 0
    decreases v
  {
    match v
    case Group(items) => 1 + Total(seq(|items|, i requires 0 <= i < |items| => Nodes(items[i])), |items|)
    case _ => 1
  }

  function Renders(items: seq<Nest>): (fields: seq<string>)
    ensures |fields| == |items| && forall i | 0 <= i < |items| :: fields[i] == Render(items[i])
  {
    seq(|items|, i requires 0 <= i < |items| => Render(items[i]))
  }

  function NodeCounts(items: seq<Nest>): (ns: seq<nat>)
    ensures |ns| == |items| && forall i | 0 <= i < |items| :: ns[i] == Nodes(items[i])
  {
    seq(|items|, i requires 0 <= i < |items| => Nodes(items[i]))
  }

  lemma GroupUnfolded(v: Nest)
    requires v.Group?
    ensures Render(v) == "{" + Joined(Renders(v.items)) + "}"
    ensures Nodes(v) == 1 + Total(NodeCounts(v.items), |v.items|)
  {
    assert seq(|v.items|, i requires 0 <= i < |v.items| => Render(v.items[i])) == Renders(v.items);
    assert seq(|v.items|, i requires 0 <= i < |v.items| => Nodes(v.items[i])) == NodeCounts(v.items);
  }

  lemma {:induction false} TotalGrows(ns: seq<nat>, j: nat, k: nat)
    requires j <= k <= |ns|
    ensures Total(ns, j) <= Total(ns, k)
  {
    if j < k {
      TotalGrows(ns, j, k - 1);
    }
  }

  // ----- The renderer -----

  /** render, with its shared counter passed in and out. It succeeds exactly on lists within the limits
      and with enough of the counter left, which it lowers by the nodes it visited. */
  method RenderList(v: Nest, depth: nat, remaining: int) returns (r: Result<string>, left: int)
    ensures r.Ok? <==> v.Group? && Renderable(v, depth) && Nodes(v) <= remaining
    ensures r.Ok? ==> r.value == Render(v) && left == remaining - Nodes(v)
    decreases v, 1
  {
    left := remaining - 1;
    if left < 0 || !v.Group? || |v.items| > MAX_ITEMS || depth > MAX_DEPTH {
      return Err("initializer rejected"), left;
    }
    GroupUnfolded(v);
    var fields;
    fields, left := RenderFields(v.items, depth, left);
    if fields.Err? {
      return Err(fields.message), left;
    }
    return Ok("{" + Joined(fields.value) + "}"), left;
  }

  predicate AllRenderable(items: seq<Nest>, depth: nat) {
    forall i | 0 <= i < |items| :: Renderable(items[i], depth)
  }

  predicate RenderedSoFar(items: seq<Nest>, depth: nat, fields: seq<string>) {
    && |fields| <= |items|
    && forall k | 0 <= k < |fields| :: fields[k] == Render(items[k]) && Renderable(items[k], depth + 1)
  }

  lemma AllRendered(items: seq<Nest>, depth: nat, fields: seq<string>)
    requires RenderedSoFar(items, depth, fields) && |fields| == |items|
    ensures fields == Renders(items) && AllRenderable(items, depth + 1)
  {
  }

  /** The loop over a list's values. */
  method RenderFields(items: seq<Nest>, depth: nat, remaining: int) returns (r: Result<seq<string>>, left: int)
    requires remaining >= 0
    ensures r.Ok? <==> AllRenderable(items, depth + 1) && Total(NodeCounts(items), |items|) <= remaining
    ensures r.Ok? ==> r.value == Renders(items) && left == remaining - Total(NodeCounts(items), |items|)
    decreases items, 0
  {
    ghost var counts := NodeCounts(items);
    left := remaining;
    var fields: seq<string> := [];
    for i := 0 to |items|
      invariant i == |fields| && RenderedSoFar(items, depth, fields)
      invariant left == remaining - Total(counts, i) && left >= 0
    {
      FieldDecides(items, depth, i, remaining);
      var field;
      field, left := RenderField(items[i], depth, left);
      if field.Err? {
        return Err(field.message), left;
      }
      fields := fields + [field.value];
    }
    AllRendered(items, depth, fields);
    return Ok(fields), left;
  }

  /** A field that does not fit spoils the list. */
  lemma FieldDecides(items: seq<Nest>, depth: nat, i: nat, remaining: int)
    requires i < |items|
    ensures
      var counts := NodeCounts(items);
      && Total(counts, i + 1) == Total(counts, i) + Nodes(items[i])
      && (!(Renderable(items[i], depth + 1) && Nodes(items[i]) <= remaining - Total(counts, i)) ==>
            !(AllRenderable(items, depth + 1) && Total(counts, |items|) <= remaining))
  {
    TotalGrows(NodeCounts(items), i + 1, |items|);
  }

  /** One field of a list: a nested list, an integer in range, or a rejection. */
  method RenderField(v: Nest, depth: nat, remaining: int) returns (r: Result<string>, left: int)
    requires remaining >= 0
    ensures r.Ok? <==> Renderable(v, depth + 1) && Nodes(v) <= remaining
    ensures r.Ok? ==> r.value == Render(v) && left == remaining - Nodes(v)
    decreases v, 2
  {
    if v.Group? {
      r, left := RenderList(v, depth + 1, remaining);
    } else if v.Leaf? && 0 <= v.n <= MAX_INTEGER {
      left := remaining - 1;
      if left < 0 {
        return Err("initializer expansion rejected"), left;
      }
      return Ok(Decimal(v.n) + "U"), left;
    } else {
      return Err("initializer field rejected"), remaining;
    }
  }

  // ----- The limits, outright -----

  /** w is n lists deep in v. */
  predicate Occurs(w: Nest, v: Nest, n: nat)
    decreases v
  {
    if n == 0 then w == v
    else v.Group? && exists i :: 0 <= i < |v.items| && Occurs(w, v.items[i], n - 1)
  }

  /** Up to a million, up to 96 items, up to five lists deep. */
  predicate Allowed(w: Nest, depth: nat) {
    match w
    case Leaf(n) => 0 <= n <= 1000000
    case Group(items) => |items| <= 96 && depth <= 4
    case Odd => false
  }

  ghost predicate AllAllowed(v: Nest, depth: nat) {
    forall w, n: nat | Occurs(w, v, n) :: Allowed(w, depth + n)
  }

  lemma ItemsAllowed(v: Nest, depth: nat)
    requires v.Group?
    ensures AllAllowed(v, depth)
       <==> Allowed(v, depth) && forall i | 0 <= i < |v.items| :: AllAllowed(v.items[i], depth + 1)
  {
    if AllAllowed(v, depth) {
      assert Occurs(v, v, 0);
      forall i, w, n: nat | 0 <= i < |v.items| && Occurs(w, v.items[i], n)
        ensures Allowed(w, depth + 1 + n)
      {
        assert Occurs(w, v, n + 1);
      }
    }
    if Allowed(v, depth) && forall i | 0 <= i < |v.items| :: AllAllowed(v.items[i], depth + 1) {
      forall w, n: nat | Occurs(w, v, n)
        ensures Allowed(w, depth + n)
      {
        if n > 0 {
          var i :| 0 <= i < |v.items| && Occurs(w, v.items[i], n - 1);
          assert AllAllowed(v.items[i], depth + 1);
          assert depth + 1 + (n - 1) == depth + n;
        }
      }
    }
  }

  /** The recursive limits are limits on everything that occurs, wherever it occurs. */
  lemma {:induction false} RenderableMeans(v: Nest, depth: nat)
    ensures Renderable(v, depth) <==> AllAllowed(v, depth)
    decreases v
  {
    if v.Group? {
      forall i | 0 <= i < |v.items|
        ensures Renderable(v.items[i], depth + 1) <==> AllAllowed(v.items[i], depth + 1)
      {
        RenderableMeans(v.items[i], depth + 1);
      }
      ItemsAllowed(v, depth);
    } else {
      assert Occurs(v, v, 0);
    }
  }

  method RenderArray(v: Nest) returns (r: Result<string>)
    ensures r.Ok? <==> v.Group? && (forall w, n: nat | Occurs(w, v, n) :: Allowed(w, n)) && Nodes(v) <= 4096
    ensures r.Ok? ==> r.value == Render(v) && |r.value| < 65536
  {
    RenderableMeans(v, 0);
    assert AllAllowed(v, 0) <==> forall w, n: nat | Occurs(w, v, n) :: Allowed(w, n);
    var left;
    r, left := RenderList(v, 0, MAX_NODES);
    if r.Ok? {
      OutputBound(v, 0);
    }
  }

  // ----- The size bound -----

  lemma {:induction false} DecimalLength(n: nat, d: nat, limit: nat)
    requires d > 0 && n < limit && (d == 1 ==> limit <= 10) && (d > 1 ==> limit <= 10 * PowerOfTen(d - 1))
    ensures |Decimal(n)| <= d
    decreases d
  {
    if n >= 10 {
      assert n / 10 < PowerOfTen(d - 1);
      DecimalLength(n / 10, d - 1, PowerOfTen(d - 1));
    }
  }

  function PowerOfTen(d: nat): nat {
    if d == 0 then 1 else 10 * PowerOfTen(d - 1)
  }

  lemma SevenDigits(n: nat)
    requires n <= MAX_INTEGER
    ensures |Decimal(n)| <= 7
  {
    assert PowerOfTen(6) == 1_000_000;
    DecimalLength(n, 7, 10_000_000);
  }

  lemma {:induction false} JoinedLength(fields: seq<string>, ns: seq<nat>)
    requires |fields| == |ns| && forall i | 0 <= i < |fields| :: |fields[i]| + 1 <= 9 * ns[i]
    ensures |Joined(fields)| + 1 <= 9 * Total(ns, |ns|) + 1
    decreases |fields|
  {
    if |fields| == 1 {
      assert Total(ns, 1) == ns[0];
    } else if |fields| > 1 {
      JoinedLength(fields[1..], ns[1..]);
      TotalFromFront(ns, |ns|);
    }
  }

  lemma {:induction false} TotalFromFront(ns: seq<nat>, k: nat)
    requires 0 < k <= |ns|
    ensures Total(ns, k) == ns[0] + Total(ns[1..], k - 1)
  {
    if k > 1 {
      TotalFromFront(ns, k - 1);
    }
  }

  /** At most nine characters a node, the separator that may follow included. */
  lemma {:induction false} OutputBound(v: Nest, depth: nat)
    requires Renderable(v, depth)
    ensures |Render(v)| + 1 <= 9 * Nodes(v)
    decreases v
  {
    if v.Leaf? {
      SevenDigits(v.n);
    } else {
      GroupUnfolded(v);
      forall i | 0 <= i < |v.items|
        ensures |Renders(v.items)[i]| + 1 <= 9 * NodeCounts(v.items)[i]
      {
        OutputBound(v.items[i], depth + 1);
      }
      JoinedLength(Renders(v.items), NodeCounts(v.items));
    }
  }

  // ----- Parsing it back -----

  predicate IsDigit(c: char) {
    '0' <= c <= '9'
  }

  function DigitValue(c: char): nat
    requires IsDigit(c)
  {
    c as int - '0' as int
  }

  /** How many digits the text starts with. */
  function DigitRun(text: string): (n: nat)
    ensures n <= |text| && forall i | 0 <= i < n :: IsDigit(text[i])
  {
    if text == "" || !IsDigit(text[0]) then 0 else 1 + DigitRun(text[1..])
  }

  function NumberOf(digits: string): nat
    requires forall i | 0 <= i < |digits| :: IsDigit(digits[i])
  {
    if digits == "" then 0 else NumberOf(digits[..|digits| - 1]) * 10 + DigitValue(digits[|digits| - 1])
  }

  /** A value at the front of the text, and the text after it. */
  function ParseNest(text: string): (r: Option<(Nest, string)>)
    ensures r.Some? ==> |r.value.1| < |text|
    decreases |text|, 0
  {
    if text == "" then None
    else if text[0] == '{' then
      if |text| > 1 && text[1] == '}' then Some((Group([]), text[2..]))
      else
        match ParseFields(text[1..])
        case None => None
        case Some(parsed) => Some((Group(parsed.0), parsed.1))
    else
      var d := DigitRun(text);
      if 0 < d < |text| && text[d] == 'U' then Some((Leaf(NumberOf(text[..d])), text[d + 1..])) else None
  }

  /** Fields up to and with the closing brace. */
  function ParseFields(text: string): (r: Option<(seq<Nest>, string)>)
    ensures r.Some? ==> |r.value.1| < |text|
    decreases |text|, 1
  {
    match ParseNest(text)
    case None => None
    case Some(first) =>
      if first.1 == "" then None
      else if first.1[0] == '}' then Some(([first.0], first.1[1..]))
      else if first.1[0] != ',' then None
      else
        match ParseFields(first.1[1..])
        case None => None
        case Some(others) => Some(([first.0] + others.0, others.1))
  }

  lemma {:induction false} DecimalDigits(n: nat)
    ensures forall i | 0 <= i < |Decimal(n)| :: IsDigit(Decimal(n)[i])
    ensures NumberOf(Decimal(n)) == n
  {
    if n < 10 {
      assert NumberOf("") == 0;
      assert [Digit(n)][..0] == "";
    } else {
      DecimalDigits(n / 10);
      assert Decimal(n)[..|Decimal(n)| - 1] == Decimal(n / 10);
    }
  }

  lemma {:induction false} RunEnds(digits: string, rest: string)
    requires forall i | 0 <= i < |digits| :: IsDigit(digits[i])
    requires rest != "" && !IsDigit(rest[0])
    ensures DigitRun(digits + rest) == |digits|
    decreases |digits|
  {
    if digits == "" {
      assert digits + rest == rest;
    } else {
      assert (digits + rest)[1..] == digits[1..] + rest;
      RunEnds(digits[1..], rest);
    }
  }

  lemma LeafInverts(n: nat, rest: string)
    ensures ParseNest(Decimal(n) + "U" + rest) == Some((Leaf(n), rest))
  {
    var digits := Decimal(n);
    DecimalDigits(n);
    assert digits + "U" + rest == digits + ("U" + rest);
    RunEnds(digits, "U" + rest);
    var text := digits + ("U" + rest);
    assert text[..|digits|] == digits && text[|digits| + 1..] == rest;
    assert IsDigit(text[0]);
  }

  lemma RenderStarts(v: Nest, depth: nat)
    requires Renderable(v, depth)
    ensures Render(v) != "" && Render(v)[0] != '}'
  {
    if v.Leaf? {
      DecimalDigits(v.n);
    }
  }

  /** The parser undoes the renderer, whatever follows in the text. */
  lemma {:induction false} RenderInverts(v: Nest, depth: nat, rest: string)
    requires Renderable(v, depth)
    ensures ParseNest(Render(v) + rest) == Some((v, rest))
    decreases v, 1
  {
    if v.Leaf? {
      LeafInverts(v.n, rest);
    } else {
      GroupUnfolded(v);
      if v.items == [] {
        assert Render(v) + rest == "{}" + rest;
        assert (Render(v) + rest)[2..] == rest;
      } else {
        FieldsInvert(v.items, 0, depth + 1, rest);
        var fields := Renders(v.items);
        assert fields[0..] == fields && v.items[0..] == v.items;
        RenderStarts(v.items[0], depth + 1);
        JoinedStarts(fields);
        BracesInvert(v.items, Joined(fields), rest);
        assert Render(v) + rest == "{" + Joined(fields) + "}" + rest;
      }
    }
  }

  lemma BracesInvert(items: seq<Nest>, joined: string, rest: string)
    requires joined != "" && joined[0] != '}' && ParseFields(joined + "}" + rest) == Some((items, rest))
    ensures ParseNest("{" + joined + "}" + rest) == Some((Group(items), rest))
  {
    var text := "{" + joined + "}" + rest;
    assert text[1..] == joined + "}" + rest && text[1] == joined[0];
  }

  lemma JoinedStarts(fields: seq<string>)
    requires fields != [] && fields[0] != ""
    ensures Joined(fields) != "" && Joined(fields)[0] == fields[0][0]
  {
  }

  lemma {:induction false} FieldsInvert(items: seq<Nest>, k: nat, depth: nat, rest: string)
    requires k < |items| && forall i | 0 <= i < |items| :: Renderable(items[i], depth)
    ensures ParseFields(Joined(Renders(items)[k..]) + "}" + rest) == Some((items[k..], rest))
    decreases items, |items| - k
  {
    var fields := Renders(items)[k..];
    var text := Joined(fields) + "}" + rest;
    if k == |items| - 1 {
      assert Joined(fields) == Render(items[k]) && items[k..] == [items[k]];
      assert text == Render(items[k]) + ("}" + rest);
      RenderInverts(items[k], depth, "}" + rest);
      assert ("}" + rest)[1..] == rest;
    } else {
      var others := Joined(fields[1..]) + "}" + rest;
      assert fields[1..] == Renders(items)[k + 1..];
      assert text == Render(items[k]) + ("," + others);
      RenderInverts(items[k], depth, "," + others);
      assert ("," + others)[1..] == others;
      FieldsInvert(items, k + 1, depth, rest);
      assert [items[k]] + items[k + 1..] == items[k..];
    }
  }

  /** Round trip: whatever the renderer accepts, parsing its output gives the list back, and nothing is left. */
  lemma RoundTrip(v: Nest)
    requires v.Group? && Renderable(v, 0)
    ensures ParseNest(Render(v)) == Some((v, ""))
  {
    RenderInverts(v, 0, "");
    assert Render(v) + "" == Render(v);
  }

  /** In particular two lists with the same initializer are the same list. */
  lemma RenderingIsInjective(v: Nest, w: Nest)
    requires v.Group? && Renderable(v, 0) && w.Group? && Renderable(w, 0) && Render(v) == Render(w)
    ensures v == w
  {
    RoundTrip(v);
    RoundTrip(w);
  }
}
