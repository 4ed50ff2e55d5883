/**
  Bounding a JSON parser's work before it runs: the quote-and-escape automaton that counts nesting
  and structural items (examples/bounded_dag_c11.py, _receipt_json; without the item limit,
  examples/bounded_dag_native_equivalence.py, _json_record), against a recursive-descent parser of
  sections 2 to 7 of RFC 8259 whose open containers and values are counted.
 */
module Scanner {
  import opened Wrappers

  /** The record scanner has no item limit. */
  datatype ScanLimits = ScanLimits(depth: nat, items: Option<nat>)

  // ----- The automaton -----

  /** depth may go negative on text that is not JSON. */
  datatype Scan = Scan(depth: int, items: nat, quoted: bool, escaped: bool)

  function ScanStep(s: Scan, c: char): Scan {
    if s.quoted then
      if s.escaped then s.(escaped := false)
      else if c == '\\' then s.(escaped := true)
      else if c == '"' then s.(quoted := false)
      else s
    else if c == '"' then s.(quoted := true)
    else if c == '[' || c == '{' then s.(depth := s.depth + 1, items := s.items + 1)
    else if c == ']' || c == '}' then s.(depth := s.depth - 1)
    else if c == ',' || c == ':' then s.(items := s.items + 1)
    else s
  }

  function ScanTo(text: string, k: nat): Scan
    requires k <= |text|
  {
    if k == 0 then Scan(0, 0, false, false) else ScanStep(ScanTo(text, k - 1), text[k - 1])
  }

  predicate Within(limits: ScanLimits, s: Scan) {
    s.depth <= limits.depth && (limits.items.Some? ==> s.items <= limits.items.value)
  }

  /** No prefix exceeds a limit. */
  predicate ScanAccepts(limits: ScanLimits, text: string) {
    forall k | 0 <= k <= |text| :: Within(limits, ScanTo(text, k))
  }

  /** The scanner's loop, with its flags and counters, and its byte budget first. */
  method ScanText(limits: ScanLimits, maxBytes: nat, encodedBytes: nat, text: string) returns (r: Result<()>)
    ensures r.Ok? <==> encodedBytes <= maxBytes && ScanAccepts(limits, text)
  {
    if encodedBytes > maxBytes {
      return Err("byte budget exceeded");
    }
    var depth, items, quoted, escaped := 0, 0, false, false;
    for i := 0 to |text|
      invariant ScanTo(text, i) == Scan(depth, items, quoted, escaped)
      invariant forall k | 0 <= k <= i :: Within(limits, ScanTo(text, k))
    {
      var character := text[i];
      if quoted {
        if escaped {
          escaped := false;
        } else if character == '\\' {
          escaped := true;
        } else if character == '"' {
          quoted := false;
        }
      } else if character == '"' {
        quoted := true;
      } else if character == '[' || character == '{' {
        depth := depth + 1;
        items := items + 1;
        if depth > limits.depth {
          assert !Within(limits, ScanTo(text, i + 1));
          return Err("nesting rejected");
        }
      } else if character == ']' || character == '}' {
        depth := depth - 1;
      } else if character == ',' || character == ':' {
        items := items + 1;
      }
      if limits.items.Some? && items > limits.items.value {
        assert !Within(limits, ScanTo(text, i + 1));
        return Err("item budget exceeded");
      }
    }
    return Ok(());
  }

  // ----- The parser -----

  /** Which scalar tokens and which string contents the parser accepts: any lexical rules at all. */
  datatype Lexis = Lexis(token: string -> bool, content: string -> bool)

  predicate Space(c: char) {
    c == ' ' || c == '\t' || c == '\n' || c == '\r'
  }

  predicate Structural(c: char) {
    c in "[]{},:"
  }

  function SkipSpace(text: string, i: nat): (j: nat)
    requires i <= |text|
    ensures i <= j <= |text|
    ensures j < |text| ==> !Space(text[j])
    decreases |text| - i
  {
    if i < |text| && Space(text[i]) then SkipSpace(text, i + 1) else i
  }

  /** Past a maximal run of ordinary characters. */
  function TokenEnd(text: string, i: nat): (j: nat)
    requires i <= |text|
    ensures i <= j <= |text|
    decreases |text| - i
  {
    if i < |text| && !Space(text[i]) && !Structural(text[i]) && text[i] != '"' then TokenEnd(text, i + 1) else i
  }

  /** Past the closing quote of a string whose contents start at i. */
  function StringEnd(text: string, i: nat): (r: Option<nat>)
    requires i <= |text|
    ensures r.Some? ==> i < r.value <= |text|
    decreases |text| - i
  {
    if i == |text| then None
    else if text[i] == '"' then Some(i + 1)
    else if text[i] != '\\' then StringEnd(text, i + 1)
    else if i + 1 == |text| then None
    else StringEnd(text, i + 2)
  }

  /** Where parsing got to, the most containers it ever had open, and how many values it started. */
  datatype Parse = Parse(ok: bool, next: nat, peak: int, values: nat)

  function Max(a: int, b: int): int {
    if a < b then b else a
  }

  predicate CharAt(text: string, i: nat, c: char) {
    i < |text| && text[i] == c
  }

  /** One value, with d containers open around it. */
  function ParseValue(lx: Lexis, text: string, i: nat, d: nat): (r: Parse)
    requires i <= |text|
    ensures i <= r.next <= |text|
    decreases |text| - i, 1
  {
    ParseStarting(lx, text, SkipSpace(text, i), d)
  }

  predicate Opening(text: string, j: nat) {
    CharAt(text, j, '[') || CharAt(text, j, '{')
  }

  /** One value that starts at j. */
  function ParseStarting(lx: Lexis, text: string, j: nat, d: nat): (r: Parse)
    requires j <= |text|
    ensures j <= r.next <= |text|
    decreases |text| - j, 0
  {
    if Opening(text, j) then
      var listing := CharAt(text, j, '[');
      var k := SkipSpace(text, j + 1);
      if CharAt(text, k, if listing then ']' else '}') then Parse(true, k + 1, d + 1, 1)
      else
        var inside := if listing then ParseElements(lx, text, j + 1, d + 1) else ParseMembers(lx, text, j + 1, d + 1);
        inside.(values := inside.values + 1)
    else if CharAt(text, j, '"') then
      var end := StringEnd(text, j + 1);
      if end.Some? && lx.content(text[j + 1..end.value - 1]) then Parse(true, end.value, d, 1)
      else Parse(false, j, d, 1)
    else
      var end := TokenEnd(text, j);
      if end > j && lx.token(text[j..end]) then Parse(true, end, d, 1) else Parse(false, j, d, 1)
  }

  /** The elements of an open array, d counting it, up to and with its closing bracket. */
  function ParseElements(lx: Lexis, text: string, i: nat, d: nat): (r: Parse)
    requires i <= |text|
    ensures i <= r.next <= |text|
    decreases |text| - i, 2
  {
    var value := ParseValue(lx, text, i, d);
    if !value.ok then value
    else
      var j := SkipSpace(text, value.next);
      if CharAt(text, j, ',') then Both(value, ParseElements(lx, text, j + 1, d)) else Closing(text, value, j, ']')
  }

  /** Where the colon after a member's name is, if the text goes on that way. */
  function MemberColon(lx: Lexis, text: string, i: nat): (r: Result<nat>)
    requires i <= |text|
    ensures r.Ok? ==> i < r.value < |text|
  {
    var k := SkipSpace(text, i);
    if !CharAt(text, k, '"') then Err("name expected")
    else
      var end := StringEnd(text, k + 1);
      if end == None || !lx.content(text[k + 1..end.value - 1]) then Err("name rejected")
      else
        var colon := SkipSpace(text, end.value);
        if CharAt(text, colon, ':') then Ok(colon) else Err("colon expected")
  }

  /** The members of an open object, d counting it, up to and with its closing brace. */
  function ParseMembers(lx: Lexis, text: string, i: nat, d: nat): (r: Parse)
    requires i <= |text|
    ensures i <= r.next <= |text|
    decreases |text| - i, 0
  {
    match MemberColon(lx, text, i)
    case Err(_) => Parse(false, i, d, 0)
    case Ok(colon) =>
      var value := ParseValue(lx, text, colon + 1, d);
      if !value.ok then value
      else
        var j := SkipSpace(text, value.next);
        if CharAt(text, j, ',') then Both(value, ParseMembers(lx, text, j + 1, d)) else Closing(text, value, j, '}')
  }

  /** A value and what followed its comma. */
  function Both(value: Parse, rest: Parse): Parse {
    Parse(rest.ok, rest.next, Max(value.peak, rest.peak), value.values + rest.values)
  }

  /** A value and the closing character expected at j. */
  function Closing(text: string, value: Parse, j: nat, close: char): Parse {
    Parse(CharAt(text, j, close), if CharAt(text, j, close) then j + 1 else j, value.peak, value.values)
  }

  /** A whole document: one value, then nothing but space. */
  function ParseDocument(lx: Lexis, text: string): Parse {
    var value := ParseValue(lx, text, 0, 0);
    value.(ok := value.ok && SkipSpace(text, value.next) == |text|)
  }

  // ----- The scanner's depth is the parser's stack depth -----

  /** Outside quotes, with d containers open. */
  ghost predicate Plain(text: string, i: nat, d: int)
    requires i <= |text|
  {
    var s := ScanTo(text, i);
    !s.quoted && !s.escaped && s.depth == d
  }

  /** The scanner's largest depth anywhere from i to j. */
  function HighWater(text: string, i: nat, j: nat): int
    requires i <= j <= |text|
  {
    if i == j then ScanTo(text, i).depth else Max(HighWater(text, i, j - 1), ScanTo(text, j).depth)
  }

  /** From i to j the scanner's depth peaked at peak and it counted the given number of items. */
  ghost predicate Track(text: string, i: nat, j: nat, peak: int, items: nat) {
    && i <= j <= |text|
    && HighWater(text, i, j) == peak
    && ScanTo(text, j).items == ScanTo(text, i).items + items
  }

  lemma {:induction false} HighWaterJoins(text: string, i: nat, j: nat, k: nat)
    requires i <= j <= k <= |text|
    ensures HighWater(text, i, k) == Max(HighWater(text, i, j), HighWater(text, j, k))
  {
    if j < k {
      HighWaterJoins(text, i, j, k - 1);
    } else {
      HighWaterReachesEnd(text, i, j);
    }
  }

  lemma HighWaterReachesEnd(text: string, i: nat, j: nat)
    requires i <= j <= |text|
    ensures HighWater(text, i, j) >= ScanTo(text, j).depth
  {
  }

  lemma Joined(text: string, i: nat, j: nat, k: nat, p: int, q: int, m: nat, n: nat)
    requires Track(text, i, j, p, m) && Track(text, j, k, q, n)
    ensures Track(text, i, k, Max(p, q), m + n)
  {
    HighWaterJoins(text, i, j, k);
  }

  /** A step that changes neither depth nor items. */
  lemma QuietStep(text: string, i: nat, j: nat, d: int)
    requires i < j <= |text| && Track(text, i, j - 1, d, 0)
    requires ScanTo(text, j).depth == d && ScanTo(text, j).items == ScanTo(text, j - 1).items
    ensures Track(text, i, j, d, 0)
  {
  }

  lemma Here(text: string, i: nat)
    requires i <= |text|
    ensures Track(text, i, i, ScanTo(text, i).depth, 0)
  {
  }

  lemma {:induction false} SpaceIsQuiet(text: string, i: nat, d: int)
    requires i <= |text| && Plain(text, i, d)
    ensures ScanTo(text, SkipSpace(text, i)) == ScanTo(text, i) && Track(text, i, SkipSpace(text, i), d, 0)
    decreases |text| - i
  {
    Here(text, i);
    if i < |text| && Space(text[i]) {
      QuietStep(text, i, i + 1, d);
      SpaceIsQuiet(text, i + 1, d);
      Joined(text, i, i + 1, SkipSpace(text, i), d, d, 0, 0);
    }
  }

  lemma {:induction false} TokenIsQuiet(text: string, i: nat, d: int)
    requires i <= |text| && Plain(text, i, d)
    ensures ScanTo(text, TokenEnd(text, i)) == ScanTo(text, i) && Track(text, i, TokenEnd(text, i), d, 0)
    decreases |text| - i
  {
    Here(text, i);
    if i < |text| && !Space(text[i]) && !Structural(text[i]) && text[i] != '"' {
      OrdinaryStep(text, i);
      QuietStep(text, i, i + 1, d);
      TokenIsQuiet(text, i + 1, d);
      Joined(text, i, i + 1, TokenEnd(text, i), d, d, 0, 0);
    }
  }

  lemma OrdinaryStep(text: string, i: nat)
    requires i < |text| && !Structural(text[i]) && text[i] != '"' && !ScanTo(text, i).quoted
    ensures ScanTo(text, i + 1) == ScanTo(text, i)
  {
    var c := text[i];
    assert c == '[' || c == ']' || c == '{' || c == '}' || c == ',' || c == ':' ==> Structural(c);
  }

  /** Inside a string nothing counts, escaped quotes included. */
  lemma {:induction false} ContentIsQuiet(text: string, i: nat, d: int)
    requires i <= |text| && StringEnd(text, i).Some?
    requires ScanTo(text, i).quoted && !ScanTo(text, i).escaped && ScanTo(text, i).depth == d
    ensures ScanTo(text, StringEnd(text, i).value) == ScanTo(text, i).(quoted := false)
    ensures Track(text, i, StringEnd(text, i).value, d, 0)
    decreases |text| - i
  {
    Here(text, i);
    QuietStep(text, i, i + 1, d);
    var end := StringEnd(text, i).value;
    if text[i] == '"' {
    } else if text[i] != '\\' {
      ContentIsQuiet(text, i + 1, d);
      Joined(text, i, i + 1, end, d, d, 0, 0);
    } else {
      QuietStep(text, i, i + 2, d);
      ContentIsQuiet(text, i + 2, d);
      Joined(text, i, i + 2, end, d, d, 0, 0);
    }
  }

  lemma StringIsQuiet(text: string, k: nat, d: int)
    requires CharAt(text, k, '"') && Plain(text, k, d) && StringEnd(text, k + 1).Some?
    ensures ScanTo(text, StringEnd(text, k + 1).value) == ScanTo(text, k)
    ensures Track(text, k, StringEnd(text, k + 1).value, d, 0)
  {
    Here(text, k);
    QuietStep(text, k, k + 1, d);
    ContentIsQuiet(text, k + 1, d);
    Joined(text, k, k + 1, StringEnd(text, k + 1).value, d, d, 0, 0);
  }

  lemma Opens(text: string, j: nat, d: int)
    requires (CharAt(text, j, '[') || CharAt(text, j, '{')) && Plain(text, j, d)
    ensures Plain(text, j + 1, d + 1) && Track(text, j, j + 1, d + 1, 1)
  {
    Here(text, j);
  }

  lemma Closes(text: string, j: nat, d: int)
    requires (CharAt(text, j, ']') || CharAt(text, j, '}')) && Plain(text, j, d)
    ensures Plain(text, j + 1, d - 1) && Track(text, j, j + 1, d, 0)
  {
    Here(text, j);
  }

  lemma Separates(text: string, j: nat, d: int)
    requires (CharAt(text, j, ',') || CharAt(text, j, ':')) && Plain(text, j, d)
    ensures Plain(text, j + 1, d) && Track(text, j, j + 1, d, 1)
  {
    Here(text, j);
  }

  /** What the scanner sees of a parse that started at i with d containers open and returns with left
      open: the same peak, and n items, at least as many as the values beyond the first. */
  ghost predicate Tracked(text: string, i: nat, r: Parse, left: int, n: nat, spare: nat) {
    && i <= r.next <= |text|
    && Track(text, i, r.next, r.peak, n)
    && r.values <= n + spare
    && (r.ok ==> Plain(text, r.next, left))
  }

  lemma SpaceThen(text: string, i: nat, d: int, j: nat, k: nat, peak: int, n: nat)
    requires i <= |text| && Plain(text, i, d) && j == SkipSpace(text, i)
    requires Track(text, j, k, peak, n) && d <= peak
    ensures Track(text, i, k, peak, n)
  {
    SpaceIsQuiet(text, i, d);
    Joined(text, i, j, k, d, peak, 0, n);
  }

  /** An opening bracket and what follows it. */
  lemma OpensThen(text: string, j: nat, d: int, k: nat, peak: int, n: nat)
    requires (CharAt(text, j, '[') || CharAt(text, j, '{')) && Plain(text, j, d)
    requires Track(text, j + 1, k, peak, n) && d + 1 <= peak
    ensures Track(text, j, k, peak, n + 1)
  {
    Opens(text, j, d);
    Joined(text, j, j + 1, k, d + 1, peak, 1, n);
  }

  /** Space and a closing bracket, after i. */
  lemma SpaceAndClose(text: string, i: nat, d: int, j: nat)
    requires i <= |text| && Plain(text, i, d) && j == SkipSpace(text, i)
    requires CharAt(text, j, ']') || CharAt(text, j, '}')
    ensures Plain(text, j + 1, d - 1) && Track(text, i, j + 1, d, 0)
  {
    SpaceIsQuiet(text, i, d);
    Closes(text, j, d);
    SpaceThen(text, i, d, j, j + 1, d, 0);
  }

  lemma PeakAtLeast(text: string, i: nat, j: nat)
    requires i <= j <= |text|
    ensures HighWater(text, i, j) >= ScanTo(text, i).depth
    ensures HighWater(text, i, j) >= ScanTo(text, j).depth
  {
    HighWaterReachesEnd(text, i, j);
    if i < j {
      PeakAtLeast(text, i, j - 1);
    }
  }

  lemma {:induction false} ValueTracked(lx: Lexis, text: string, i: nat, d: nat) returns (n: nat)
    requires i <= |text| && Plain(text, i, d)
    ensures Tracked(text, i, ParseValue(lx, text, i, d), d, n, 1)
    decreases |text| - i, 2
  {
    var j := SkipSpace(text, i);
    SpaceIsQuiet(text, i, d);
    n := StartingTracked(lx, text, j, d);
    var r := ParseStarting(lx, text, j, d);
    PeakAtLeast(text, j, r.next);
    SpaceThen(text, i, d, j, r.next, r.peak, n);
  }

  lemma {:induction false} StartingTracked(lx: Lexis, text: string, j: nat, d: nat) returns (n: nat)
    requires j <= |text| && Plain(text, j, d)
    ensures Tracked(text, j, ParseStarting(lx, text, j, d), d, n, 1)
    decreases |text| - j, 1
  {
    if Opening(text, j) {
      n := ContainerTracked(lx, text, j, d);
    } else {
      n := ScalarTracked(lx, text, j, d);
    }
  }

  lemma ScalarTracked(lx: Lexis, text: string, j: nat, d: nat) returns (n: nat)
    requires j <= |text| && Plain(text, j, d) && !Opening(text, j)
    ensures Tracked(text, j, ParseStarting(lx, text, j, d), d, n, 1)
  {
    Here(text, j);
    n := 0;
    if CharAt(text, j, '"') {
      if StringEnd(text, j + 1).Some? {
        StringIsQuiet(text, j, d);
      }
    } else {
      TokenIsQuiet(text, j, d);
    }
  }

  lemma {:induction false} ContainerTracked(lx: Lexis, text: string, j: nat, d: nat) returns (n: nat)
    requires Opening(text, j) && Plain(text, j, d)
    ensures Tracked(text, j, ParseStarting(lx, text, j, d), d, n, 1)
    decreases |text| - j, 0
  {
    Opens(text, j, d);
    var listing := CharAt(text, j, '[');
    var k := SkipSpace(text, j + 1);
    if CharAt(text, k, if listing then ']' else '}') {
      SpaceAndClose(text, j + 1, d + 1, k);
      OpensThen(text, j, d, k + 1, d + 1, 0);
      n := 1;
    } else if listing {
      var m := ElementsTracked(lx, text, j + 1, d + 1);
      n := Wrapped(text, j, d, ParseElements(lx, text, j + 1, d + 1), m, 1);
    } else {
      var m := MembersTracked(lx, text, j + 1, d + 1);
      n := Wrapped(text, j, d, ParseMembers(lx, text, j + 1, d + 1), m, 0);
    }
  }

  lemma Wrapped(text: string, j: nat, d: nat, inside: Parse, m: nat, spare: nat) returns (n: nat)
    requires Opening(text, j) && Plain(text, j, d) && spare <= 1
    requires Tracked(text, j + 1, inside, d, m, spare) && Plain(text, j + 1, d + 1)
    ensures Tracked(text, j, inside.(values := inside.values + 1), d, n, 1)
  {
    PeakAtLeast(text, j + 1, inside.next);
    OpensThen(text, j, d, inside.next, inside.peak, m);
    n := m + 1;
  }

  /** After a value, space and a comma. */
  lemma CommaIsOne(text: string, value: Parse, d: int, j: nat)
    requires value.next <= |text| && Plain(text, value.next, d)
    requires j == SkipSpace(text, value.next) && CharAt(text, j, ',')
    ensures Plain(text, j + 1, d) && Track(text, value.next, j + 1, d, 1)
  {
    SpaceIsQuiet(text, value.next, d);
    Separates(text, j, d);
    Joined(text, value.next, j, j + 1, d, d, 0, 1);
  }

  lemma BothTracked(text: string, i: nat, value: Parse, n: nat, spare: nat, d: int, j: nat, rest: Parse, m: nat,
                    more: nat)
    requires value.ok && Tracked(text, i, value, d, n, spare)
    requires j == SkipSpace(text, value.next) && CharAt(text, j, ',')
    requires Tracked(text, j + 1, rest, d - 1, m, more) && more <= 1
    ensures Tracked(text, i, Both(value, rest), d - 1, n + 1 + m, spare)
  {
    CommaIsOne(text, value, d, j);
    PeakAtLeast(text, j + 1, rest.next);
    Joined(text, value.next, j + 1, rest.next, d, rest.peak, 1, m);
    Joined(text, i, value.next, rest.next, value.peak, rest.peak, n, 1 + m);
  }

  lemma ClosingTracked(text: string, i: nat, value: Parse, n: nat, spare: nat, d: int, j: nat, close: char)
    requires value.ok && Tracked(text, i, value, d, n, spare)
    requires j == SkipSpace(text, value.next) && (close == ']' || close == '}')
    ensures Tracked(text, i, Closing(text, value, j, close), d - 1, n, spare)
  {
    PeakAtLeast(text, i, value.next);
    SpaceIsQuiet(text, value.next, d);
    Joined(text, i, value.next, j, value.peak, d, n, 0);
    if CharAt(text, j, close) {
      SpaceAndClose(text, value.next, d, j);
      Joined(text, i, value.next, j + 1, value.peak, d, n, 0);
    }
  }

  lemma {:induction false} ElementsTracked(lx: Lexis, text: string, i: nat, d: nat) returns (n: nat)
    requires i <= |text| && Plain(text, i, d) && d > 0
    ensures Tracked(text, i, ParseElements(lx, text, i, d), d - 1, n, 1)
    decreases |text| - i, 3
  {
    var value := ParseValue(lx, text, i, d);
    n := ValueTracked(lx, text, i, d);
    if value.ok {
      var j := SkipSpace(text, value.next);
      if CharAt(text, j, ',') {
        CommaIsOne(text, value, d, j);
        var m := ElementsTracked(lx, text, j + 1, d);
        BothTracked(text, i, value, n, 1, d, j, ParseElements(lx, text, j + 1, d), m, 1);
        n := n + 1 + m;
      } else {
        ClosingTracked(text, i, value, n, 1, d, j, ']');
      }
    }
  }

  /** A member's name and colon: one item, nothing opened. */
  lemma ColonIsOne(lx: Lexis, text: string, i: nat, d: int)
    requires i <= |text| && Plain(text, i, d) && MemberColon(lx, text, i).Ok?
    ensures
      var colon := MemberColon(lx, text, i).value;
      Plain(text, colon + 1, d) && Track(text, i, colon + 1, d, 1)
  {
    var k := SkipSpace(text, i);
    var end := StringEnd(text, k + 1).value;
    var colon := SkipSpace(text, end);
    SpaceIsQuiet(text, i, d);
    StringIsQuiet(text, k, d);
    SpaceIsQuiet(text, end, d);
    Separates(text, colon, d);
    Joined(text, i, k, end, d, d, 0, 0);
    Joined(text, i, end, colon, d, d, 0, 0);
    Joined(text, i, colon, colon + 1, d, d, 0, 1);
  }

  lemma {:induction false} MembersTracked(lx: Lexis, text: string, i: nat, d: nat) returns (n: nat)
    requires i <= |text| && Plain(text, i, d) && d > 0
    ensures Tracked(text, i, ParseMembers(lx, text, i, d), d - 1, n, 0)
    decreases |text| - i, 0
  {
    if MemberColon(lx, text, i).Err? {
      Here(text, i);
      n := 0;
    } else {
      var colon := MemberColon(lx, text, i).value;
      ColonIsOne(lx, text, i, d);
      var value := ParseValue(lx, text, colon + 1, d);
      var m := ValueTracked(lx, text, colon + 1, d);
      NamedTracked(text, i, d, colon, value, m);
      n := m + 1;
      if value.ok {
        n := MembersGoOn(lx, text, i, d, value, n);
      }
    }
  }

  lemma {:induction false} MembersGoOn(lx: Lexis, text: string, i: nat, d: nat, value: Parse, m: nat) returns (n: nat)
    requires value.ok && Tracked(text, i, value, d, m, 0) && d > 0
    ensures
      var j := SkipSpace(text, value.next);
      var r := if CharAt(text, j, ',') then Both(value, ParseMembers(lx, text, j + 1, d))
               else Closing(text, value, j, '}');
      Tracked(text, i, r, d - 1, n, 0)
    decreases |text| - value.next, 1
  {
    var j := SkipSpace(text, value.next);
    n := m;
    if CharAt(text, j, ',') {
      CommaIsOne(text, value, d, j);
      var k := MembersTracked(lx, text, j + 1, d);
      BothTracked(text, i, value, m, 0, d, j, ParseMembers(lx, text, j + 1, d), k, 0);
      n := m + 1 + k;
    } else {
      ClosingTracked(text, i, value, m, 0, d, j, '}');
    }
  }

  /** A member: its colon pays for its value. */
  lemma NamedTracked(text: string, i: nat, d: int, colon: nat, value: Parse, m: nat)
    requires i <= colon < |text| && Track(text, i, colon + 1, d, 1)
    requires Tracked(text, colon + 1, value, d, m, 1) && Plain(text, colon + 1, d)
    ensures Tracked(text, i, value, d, m + 1, 0)
  {
    PeakAtLeast(text, colon + 1, value.next);
    Joined(text, i, colon + 1, value.next, d, value.peak, 1, m);
  }

  /** On the consumed prefix, of any text at all, the scanner's depth peaks where the parser's stack
      does, and its items outnumber the values the parser started, but for the document itself. */
  lemma DocumentTracked(lx: Lexis, text: string)
    ensures
      var r := ParseDocument(lx, text);
      && r.next <= |text|
      && r.peak == HighWater(text, 0, r.next)
      && r.values <= ScanTo(text, r.next).items + 1
  {
    var n := ValueTracked(lx, text, 0, 0);
  }

  lemma {:induction false} WithinHighWater(limits: ScanLimits, text: string, j: nat)
    requires j <= |text| && forall k | 0 <= k <= j :: Within(limits, ScanTo(text, k))
    ensures HighWater(text, 0, j) <= limits.depth
  {
    if j > 0 {
      WithinHighWater(limits, text, j - 1);
    }
  }

  /** Pre-scan safety: if the scanner accepts a text, valid JSON or not, the parser never holds more
      containers open than the depth limit and never starts more values than the item limit plus one. */
  lemma ScanBoundsParser(limits: ScanLimits, lx: Lexis, text: string)
    requires ScanAccepts(limits, text)
    ensures ParseDocument(lx, text).peak <= limits.depth
    ensures limits.items.Some? ==> ParseDocument(lx, text).values <= limits.items.value + 1
  {
    DocumentTracked(lx, text);
    WithinHighWater(limits, text, ParseDocument(lx, text).next);
    assert Within(limits, ScanTo(text, ParseDocument(lx, text).next));
  }

  lemma {:induction false} BelowHighWater(text: string, j: nat, k: nat)
    requires k <= j <= |text|
    ensures ScanTo(text, k).depth <= HighWater(text, 0, j) && ScanTo(text, k).items <= ScanTo(text, j).items
  {
    if k < j {
      BelowHighWater(text, j - 1, k);
    } else {
      HighWaterReachesEnd(text, 0, j);
    }
  }

  /** On documents the parser accepts the scanner rejects for size only: never for a bracket, quote
      or separator inside a string. */
  lemma ScanExactOnDocuments(limits: ScanLimits, lx: Lexis, text: string)
    requires ParseDocument(lx, text).ok
    ensures ScanAccepts(limits, text)
       <==> ParseDocument(lx, text).peak <= limits.depth
            && (limits.items.Some? ==> ScanTo(text, |text|).items <= limits.items.value)
  {
    var r := ParseDocument(lx, text);
    var n := ValueTracked(lx, text, 0, 0);
    SpaceIsQuiet(text, r.next, 0);
    PeakAtLeast(text, 0, r.next);
    Joined(text, 0, r.next, |text|, r.peak, 0, n, 0);
    forall k | 0 <= k <= |text|
      ensures ScanTo(text, k).depth <= r.peak && ScanTo(text, k).items <= ScanTo(text, |text|).items
    {
      BelowHighWater(text, |text|, k);
    }
    if ScanAccepts(limits, text) {
      ScanBoundsParser(limits, lx, text);
      assert Within(limits, ScanTo(text, |text|));
    }
  }
}
