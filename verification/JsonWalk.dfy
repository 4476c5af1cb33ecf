/**
 * The walker as a function of what is left to read: which texts it takes, one token at a time.
 */
module JsonWalk {
  import opened Options
  import opened JsonGrammar
  import opened JsonScan

  const MAX_NODES := 131072
  const MAX_DEPTH := 32

  function SkipBlanks(s: Text): (r: Text)
    ensures |r| <= |s| && (r == [] || !IsBlank(r[0]))
  {
    if s != [] && IsBlank(s[0]) then SkipBlanks(s[1..]) else s
  }

  lemma {:induction false} SkipLead(lead: Text, s: Text)
    requires Blanks(lead)
    ensures SkipBlanks(lead + s) == SkipBlanks(s)
  {
    if lead == [] {
      assert lead + s == s;
    } else {
      assert (lead + s)[1..] == lead[1..] + s;
      SkipLead(lead[1..], s);
    }
  }

  lemma {:induction false} SkipSplits(s: Text) returns (lead: Text)
    ensures Blanks(lead) && s == lead + SkipBlanks(s)
  {
    lead := [];
    if s != [] && IsBlank(s[0]) {
      var rest := SkipSplits(s[1..]);
      lead := [s[0]] + rest;
    }
  }

  /** How far the closing quote is, a backslash hiding the unit after it. */
  function Closing(b: Text): (r: Option<nat>)
    ensures r.Some? ==> 1 <= r.value <= |b| && b[r.value - 1] == QUOTE
  {
    if b == [] then None
    else if b[0] == QUOTE then Some(1)
    else
      var step := if b[0] == BACKSLASH then 2 else 1;
      if |b| < step then None
      else
        var rest := Closing(b[step..]);
        if rest.Some? then Some(step + rest.value) else None
  }

  function Later(n: nat, end: Option<nat>): Option<nat> {
    if end.Some? then Some(n + end.value) else None
  }

  lemma {:induction false} ClosingSkips(plain: Text, rest: Text)
    requires forall k :: 0 <= k < |plain| ==> plain[k] != QUOTE && plain[k] != BACKSLASH
    ensures Closing(plain + rest) == Later(|plain|, Closing(rest))
  {
    if plain == [] {
      assert plain + rest == rest;
    } else {
      assert (plain + rest)[1..] == plain[1..] + rest;
      ClosingSkips(plain[1..], rest);
    }
  }

  lemma ClosingAfter(c: Char, rest: Text)
    requires c.Valid()
    ensures Closing(c.Print() + rest) == Later(|c.Print()|, Closing(rest))
  {
    match c
    case Plain(u) => ClosingSkips([u], rest);
    case Short(letter) => assert (c.Print() + rest)[2..] == rest;
    case Hex(x, y, z, w) =>
      ClosingSkips([x, y, z, w], rest);
      assert (c.Print() + rest)[2..] == [x, y, z, w] + rest;
  }

  lemma Regrouped(first: Text, more: Text, tail: Text)
    ensures (first + more) + tail == first + (more + tail) && |first + more| == |first| + |more|
  {
  }

  lemma {:induction false} ClosingPrinted(cs: Chars, rest: Text)
    requires ValidChars(cs)
    ensures Closing(PrintChars(cs) + ([QUOTE] + rest)) == Some(|PrintChars(cs)| + 1)
    decreases |cs|
  {
    var tail := [QUOTE] + rest;
    if cs == [] {
      assert PrintChars(cs) + tail == tail;
    } else {
      ClosingAfterFirst(cs, tail, |PrintChars(cs[1..])| + 1) by { ClosingPrinted(cs[1..], rest); }
    }
  }

  lemma ClosingAfterFirst(cs: Chars, tail: Text, end: nat)
    requires cs != [] && ValidChars(cs) && Closing(PrintChars(cs[1..]) + tail) == Some(end)
    ensures Closing(PrintChars(cs) + tail) == Some(|cs[0].Print()| + end)
    ensures |PrintChars(cs)| == |cs[0].Print()| + |PrintChars(cs[1..])|
  {
    hide Closing, Char.Print, Char.Valid;
    var first, more := cs[0].Print(), PrintChars(cs[1..]);
    Regrouped(first, more, tail);
    ClosingAfter(cs[0], more + tail);
  }

  datatype Named = Named(name: Text, rest: Text)

  /** One string token: find its closing quote, then let the engine parse the slice. */
  function ScanString(s: Text): (r: Option<Named>)
    ensures r.Some? ==> |r.value.rest| < |s|
  {
    if s == [] || s[0] != QUOTE then None
    else
      var end := Closing(s[1..]);
      if end.None? then None
      else
        var name := Decoded(s[1..end.value]);
        if name.None? then None else Some(Named(name.value, s[1 + end.value..]))
  }

  lemma StringSound(s: Text) returns (cs: Chars)
    requires ScanString(s).Some?
    ensures ValidChars(cs) && s == PrintString(cs) + ScanString(s).value.rest
    ensures Meanings(cs) == ScanString(s).value.name
  {
    hide Closing, Decoded, PrintChars, Meanings;
    var n := Closing(s[1..]).value;
    cs := PrintedFrom(s[1..n]);
    assert s[1..][n - 1] == s[n];
    assert s == [QUOTE] + s[1..n] + [QUOTE] + s[1 + n..];
  }

  lemma StringComplete(cs: Chars, rest: Text)
    requires ValidChars(cs)
    ensures ScanString(PrintString(cs) + rest) == Some(Named(Meanings(cs), rest))
  {
    var s := PrintString(cs) + rest;
    var body := PrintChars(cs);
    assert s[1..] == body + ([QUOTE] + rest);
    ClosingPrinted(cs, rest);
    DecodesPrinted(cs);
    assert s[1..1 + |body|] == body;
    assert s[2 + |body|..] == rest;
  }

  predicate IsDelimiter(u: Unit) {
    u == COMMA || u == RIGHT_BRACE || u == RIGHT_BRACKET || IsBlank(u)
  }

  /** How many units stand before the next delimiter. */
  function PrimitiveLength(s: Text): (n: nat)
    ensures n <= |s|
  {
    if s == [] || IsDelimiter(s[0]) then 0 else 1 + PrimitiveLength(s[1..])
  }

  ghost predicate Undelimited(t: Text) { forall k :: 0 <= k < |t| ==> !IsDelimiter(t[k]) }

  /** What may follow a primitive. */
  predicate Ends(rest: Text) { rest == [] || IsDelimiter(rest[0]) }

  lemma {:induction false} PrimitiveLengthIs(t: Text, rest: Text)
    requires Undelimited(t) && Ends(rest)
    ensures PrimitiveLength(t + rest) == |t|
  {
    if t == [] {
      assert t + rest == rest;
    } else {
      assert (t + rest)[1..] == t[1..] + rest;
      PrimitiveLengthIs(t[1..], rest);
    }
  }

  lemma NumberUnits(number: Number)
    requires number.Valid()
    ensures var t := number.Print();
      Undelimited(t) && t != [] && t[0] != QUOTE && t[0] != LEFT_BRACE && t[0] != LEFT_BRACKET
      && !IsBlank(t[0])
  {
    var exponent := if number.exponent.Some? then number.exponent.value.Print() else [];
    var fraction := if number.fraction.Some? then [POINT] + number.fraction.value else [];
    assert Undelimited(exponent) && Undelimited(fraction) && Undelimited(number.whole);
    var t := number.Print();
    assert t == Sign(number.minus) + number.whole + fraction + exponent;
    assert t[0] == if number.minus then MINUS else number.whole[0];
  }

  datatype Progress = Progress(rest: Text, nodes: nat)

  function WalkValue(s: Text, nodes: nat, depth: nat): (r: Option<Progress>)
    ensures r.Some? ==> |r.value.rest| < |s|
    decreases |s|, 0
  {
    var t := SkipBlanks(s);
    if nodes + 1 > MAX_NODES || depth > MAX_DEPTH || t == [] then None
    else if t[0] == QUOTE then
      var token := ScanString(t);
      if token.None? then None else Some(Progress(token.value.rest, nodes + 1))
    else if t[0] == LEFT_BRACKET then
      var u := SkipBlanks(t[1..]);
      if u != [] && u[0] == RIGHT_BRACKET then Some(Progress(u[1..], nodes + 1))
      else WalkItems(u, nodes + 1, depth)
    else if t[0] == LEFT_BRACE then
      var u := SkipBlanks(t[1..]);
      if u != [] && u[0] == RIGHT_BRACE then Some(Progress(u[1..], nodes + 1))
      else WalkMembers(u, {}, nodes + 1, depth)
    else
      var n := PrimitiveLength(t);
      if n > 0 && Primitive(t[..n]) then Some(Progress(t[n..], nodes + 1)) else None
  }

  function WalkItems(s: Text, nodes: nat, depth: nat): (r: Option<Progress>)
    ensures r.Some? ==> |r.value.rest| < |s|
    decreases |s|, 1
  {
    var item := WalkValue(SkipBlanks(s), nodes, depth + 1);
    if item.None? then None
    else
      var t := SkipBlanks(item.value.rest);
      if t == [] then None
      else if t[0] == RIGHT_BRACKET then Some(Progress(t[1..], item.value.nodes))
      else if t[0] != COMMA then None
      else WalkItems(t[1..], item.value.nodes, depth)
  }

  function WalkMembers(s: Text, keys: set<Text>, nodes: nat, depth: nat): (r: Option<Progress>)
    ensures r.Some? ==> |r.value.rest| < |s|
    decreases |s|, 1
  {
    var key := ScanString(SkipBlanks(s));
    if key.None? || key.value.name in keys then None
    else
      var u := SkipBlanks(key.value.rest);
      if u == [] || u[0] != COLON then None
      else
        var member := WalkValue(u[1..], nodes, depth + 1);
        if member.None? then None
        else
          var t := SkipBlanks(member.value.rest);
          if t == [] then None
          else if t[0] == RIGHT_BRACE then Some(Progress(t[1..], member.value.nodes))
          else if t[0] != COMMA then None
          else WalkMembers(t[1..], keys + {key.value.name}, member.value.nodes, depth)
  }

  /** An array, once its bracket and first blanks are read. */
  lemma ArrayOpens(t: Text, u: Text, nodes: nat, depth: nat)
    requires t != [] && t[0] == LEFT_BRACKET && SkipBlanks(t) == t && u == SkipBlanks(t[1..])
    requires nodes + 1 <= MAX_NODES && depth <= MAX_DEPTH
    ensures WalkValue(t, nodes, depth) ==
      if u != [] && u[0] == RIGHT_BRACKET then Some(Progress(u[1..], nodes + 1))
      else WalkItems(u, nodes + 1, depth)
  {
  }

  lemma ObjectOpens(t: Text, u: Text, nodes: nat, depth: nat)
    requires t != [] && t[0] == LEFT_BRACE && SkipBlanks(t) == t && u == SkipBlanks(t[1..])
    requires nodes + 1 <= MAX_NODES && depth <= MAX_DEPTH
    ensures WalkValue(t, nodes, depth) ==
      if u != [] && u[0] == RIGHT_BRACE then Some(Progress(u[1..], nodes + 1))
      else WalkMembers(u, {}, nodes + 1, depth)
  {
  }

  /** One turn of the element loop. */
  lemma ItemStep(s: Text, nodes: nat, depth: nat, item: Progress, t: Text)
    requires WalkValue(SkipBlanks(s), nodes, depth + 1) == Some(item)
    requires t == SkipBlanks(item.rest) && t != []
    ensures t[0] == RIGHT_BRACKET ==>
      WalkItems(s, nodes, depth) == Some(Progress(t[1..], item.nodes))
    ensures t[0] == COMMA ==>
      WalkItems(s, nodes, depth) == WalkItems(t[1..], item.nodes, depth)
  {
  }

  /** One turn of the member loop. */
  lemma MemberStep(s: Text, keys: set<Text>, nodes: nat, depth: nat, key: Named, u: Text, member: Progress, t: Text)
    requires ScanString(SkipBlanks(s)) == Some(key) && key.name !in keys
    requires u == SkipBlanks(key.rest) && u != [] && u[0] == COLON
    requires WalkValue(u[1..], nodes, depth + 1) == Some(member)
    requires t == SkipBlanks(member.rest) && t != []
    ensures t[0] == RIGHT_BRACE ==>
      WalkMembers(s, keys, nodes, depth) == Some(Progress(t[1..], member.nodes))
    ensures t[0] == COMMA ==>
      WalkMembers(s, keys, nodes, depth) == WalkMembers(t[1..], keys + {key.name}, member.nodes, depth)
  {
  }

  /** The whole text is one value and blanks. */
  predicate Accepts(s: Text) {
    var value := WalkValue(s, 0, 0);
    value.Some? && SkipBlanks(value.value.rest) == []
  }
}
