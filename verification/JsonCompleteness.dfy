/** Every printing of every value within the bounds is taken, blanks and escapes as they come. */
module JsonCompleteness {
  import opened Options
  import opened JsonGrammar
  import opened JsonScan
  import opened JsonWalk

  lemma PrintStarts(v: Value)
    requires Valid(v)
    ensures Print(v) != [] && !IsBlank(Print(v)[0])
    ensures Print(v)[0] != RIGHT_BRACKET && Print(v)[0] != RIGHT_BRACE
  {
    if v.Num? { NumberUnits(v.number); }
  }

  /** The blanks before a value are skipped, and nothing of the value is. */
  lemma SkipToValue(lead: Text, v: Value, rest: Text)
    requires Blanks(lead) && Valid(v)
    ensures SkipBlanks(lead + (Print(v) + rest)) == Print(v) + rest
  {
    PrintStarts(v);
    SkipLead(lead, Print(v) + rest);
  }

  lemma SkipToUnit(lead: Text, u: Unit, rest: Text)
    requires Blanks(lead) && !IsBlank(u)
    ensures SkipBlanks(lead + ([u] + rest)) == [u] + rest
  {
    SkipLead(lead, [u] + rest);
  }

  lemma PrimitiveTaken(t: Text, rest: Text, nodes: nat, depth: nat)
    requires Undelimited(t) && t != [] && Primitive(t) && Ends(rest)
    requires t[0] != QUOTE && t[0] != LEFT_BRACE && t[0] != LEFT_BRACKET && !IsBlank(t[0])
    requires nodes + 1 <= MAX_NODES && depth <= MAX_DEPTH
    ensures WalkValue(t + rest, nodes, depth) == Some(Progress(rest, nodes + 1))
  {
    PrimitiveLengthIs(t, rest);
    assert (t + rest)[..|t|] == t && (t + rest)[|t|..] == rest;
  }

  /** A value and what follows it, once its blanks are gone. */
  lemma {:induction false} ValueTaken(v: Value, rest: Text, nodes: nat, depth: nat)
    requires Valid(v) && Plainly(v) && Ends(rest)
    requires nodes + Count(v) <= MAX_NODES && depth + Depth(v) <= MAX_DEPTH
    ensures WalkValue(Print(v) + rest, nodes, depth) == Some(Progress(rest, nodes + Count(v)))
    decreases v, 1
  {
    hide WalkValue, WalkItems, WalkMembers;
    match v
    case Literal(text) => PrimitiveTaken(text, rest, nodes, depth);
    case Num(number) =>
      NumberUnits(number);
      NumberComplete(number);
      PrimitiveTaken(number.Print(), rest, nodes, depth);
    case Str(chars) => StringTaken(chars, rest, nodes, depth);
    case Array(gap, items) => ArrayTaken(gap, items, rest, nodes, depth);
    case Object(gap, members) => ObjectTaken(gap, members, rest, nodes, depth);
  }

  lemma StringTaken(chars: Chars, rest: Text, nodes: nat, depth: nat)
    requires ValidChars(chars) && nodes + 1 <= MAX_NODES && depth <= MAX_DEPTH
    ensures WalkValue(PrintString(chars) + rest, nodes, depth) == Some(Progress(rest, nodes + 1))
  {
    StringComplete(chars, rest);
    var s := PrintString(chars) + rest;
    assert s[0] == QUOTE;
    assert SkipBlanks(s) == s;
  }

  /** What an opening bracket or brace and its first blanks lead to. */
  lemma OpenArray(gap: Text, items: Items, rest: Text) returns (after: Text, u: Text)
    requires Blanks(gap) && ValidItems(items)
    ensures after == [RIGHT_BRACKET] + rest
    ensures var t := Print(Array(gap, items)) + rest;
      t[0] == LEFT_BRACKET && SkipBlanks(t) == t && u == SkipBlanks(t[1..])
    ensures items.NoItems? ==> u == after
    ensures items.Item? ==> u != [] && u[0] != RIGHT_BRACKET && u == SkipBlanks(PrintItems(items) + after)
  {
    after := [RIGHT_BRACKET] + rest;
    var inner := if items.NoItems? then gap else PrintItems(items);
    var t := Print(Array(gap, items)) + rest;
    assert t == [LEFT_BRACKET] + (inner + after);
    assert t[1..] == inner + after;
    u := SkipBlanks(inner + after);
    if items.NoItems? {
      SkipToUnit(gap, RIGHT_BRACKET, rest);
    } else {
      var tail, _ := ItemSplits(items, after);
      PrintStarts(items.value);
    }
  }

  lemma ArrayTaken(gap: Text, items: Items, rest: Text, nodes: nat, depth: nat)
    requires Blanks(gap) && ValidItems(items) && PlainlyItems(items)
    requires nodes + 1 + CountItems(items) <= MAX_NODES && depth + DepthItems(items) <= MAX_DEPTH
    ensures WalkValue(Print(Array(gap, items)) + rest, nodes, depth)
         == Some(Progress(rest, nodes + 1 + CountItems(items)))
    decreases items, 2
  {
    hide WalkValue, WalkItems, WalkMembers, SkipBlanks, PrintItems;
    var after, u := OpenArray(gap, items, rest);
    if items.Item? {
      ItemsTaken(items, after, nodes + 1, depth);
      SkippedItems(PrintItems(items) + after, nodes + 1, depth);
    }
    assert after[1..] == rest;
    ArrayOpens(Print(Array(gap, items)) + rest, u, nodes, depth);
  }

  /** Blanks skipped twice are skipped once. */
  lemma SkippedItems(s: Text, nodes: nat, depth: nat)
    ensures WalkItems(SkipBlanks(s), nodes, depth) == WalkItems(s, nodes, depth)
  {
    assert SkipBlanks(SkipBlanks(s)) == SkipBlanks(s);
  }

  lemma SkippedMembers(s: Text, keys: set<Text>, nodes: nat, depth: nat)
    ensures WalkMembers(SkipBlanks(s), keys, nodes, depth) == WalkMembers(s, keys, nodes, depth)
  {
    assert SkipBlanks(SkipBlanks(s)) == SkipBlanks(s);
  }

  lemma Associates(a: Text, b: Text, c: Text)
    ensures a + b + c == a + (b + c)
  {
  }

  lemma Nests(a: Text, b: Text, c: Text, d: Text, e: Text, f: Text, g: Text, h: Text, i: Text)
    ensures a + b + c + d + e + f + g + h + i == a + (b + (c + (d + (e + (f + (g + (h + i)))))))
  {
    Associates(a + b + c + d + e + f + g, h, i);
    Associates(a + b + c + d + e + f, g, h + i);
    Associates(a + b + c + d + e, f, g + (h + i));
    Associates(a + b + c + d, e, f + (g + (h + i)));
    Associates(a + b + c, d, e + (f + (g + (h + i))));
    Associates(a + b, c, d + (e + (f + (g + (h + i)))));
    Associates(a, b, c + (d + (e + (f + (g + (h + i))))));
  }

  /** The first element, what follows its value, and the separator after its blanks. */
  lemma ItemSplits(items: Items, after: Text) returns (tail: Text, sep: Text)
    requires items.Item? && ValidItems(items) && after != [] && after[0] == RIGHT_BRACKET
    ensures SkipBlanks(PrintItems(items) + after) == Print(items.value) + tail
    ensures Ends(tail) && SkipBlanks(tail) == sep && sep != []
    ensures items.rest.NoItems? ==> sep == after
    ensures items.rest.Item? ==> sep[0] == COMMA && sep[1..] == PrintItems(items.rest) + after
  {
    var Item(lead, v, trail, more) := items;
    var mark := if more.NoItems? then [] else [COMMA] + PrintItems(more);
    sep := if more.NoItems? then after else [COMMA] + (PrintItems(more) + after);
    assert mark + after == sep;
    tail := trail + sep;
    Associates(lead + Print(v) + trail, mark, after);
    Associates(lead + Print(v), trail, sep);
    Associates(lead, Print(v), tail);
    SkipToValue(lead, v, tail);
    SkipLead(trail, sep);
  }

  lemma {:induction false} ItemsTaken(items: Items, after: Text, nodes: nat, depth: nat)
    requires items.Item? && ValidItems(items) && PlainlyItems(items)
    requires after != [] && after[0] == RIGHT_BRACKET
    requires nodes + CountItems(items) <= MAX_NODES && depth + DepthItems(items) <= MAX_DEPTH
    ensures WalkItems(PrintItems(items) + after, nodes, depth)
         == Some(Progress(after[1..], nodes + CountItems(items)))
    decreases items, 1
  {
    hide WalkValue, WalkItems, WalkMembers;
    var tail, sep := ItemSplits(items, after);
    ValueTaken(items.value, tail, nodes, depth + 1);
    ItemStep(PrintItems(items) + after, nodes, depth, Progress(tail, nodes + Count(items.value)), sep);
    if items.rest.Item? {
      ItemsTaken(items.rest, after, nodes + Count(items.value), depth);
    }
  }

  lemma OpenObject(gap: Text, members: Members, rest: Text) returns (after: Text, u: Text)
    requires Blanks(gap) && ValidMembers(members)
    ensures after == [RIGHT_BRACE] + rest
    ensures var t := Print(Object(gap, members)) + rest;
      t[0] == LEFT_BRACE && SkipBlanks(t) == t && u == SkipBlanks(t[1..])
    ensures members.NoMembers? ==> u == after
    ensures members.Member? ==> u != [] && u[0] != RIGHT_BRACE && u == SkipBlanks(PrintMembers(members) + after)
  {
    hide PrintMembers;
    after := [RIGHT_BRACE] + rest;
    var inner := if members.NoMembers? then gap else PrintMembers(members);
    var t := Print(Object(gap, members)) + rest;
    assert t == [LEFT_BRACE] + (inner + after);
    assert t[1..] == inner + after;
    u := SkipBlanks(inner + after);
    if members.NoMembers? {
      SkipToUnit(gap, RIGHT_BRACE, rest);
    } else {
      var named, valued, tail, sep := MemberSplits(members, after);
    }
  }

  lemma ObjectTaken(gap: Text, members: Members, rest: Text, nodes: nat, depth: nat)
    requires Blanks(gap) && ValidMembers(members) && PlainlyMembers(members) && Distinct(Names(members))
    requires nodes + 1 + CountMembers(members) <= MAX_NODES
    requires depth + DepthMembers(members) <= MAX_DEPTH
    ensures WalkValue(Print(Object(gap, members)) + rest, nodes, depth)
         == Some(Progress(rest, nodes + 1 + CountMembers(members)))
    decreases members, 2
  {
    hide WalkValue, WalkItems, WalkMembers, PrintMembers, SkipBlanks;
    var after, u := OpenObject(gap, members, rest);
    if members.Member? {
      MembersTaken(members, {}, after, nodes + 1, depth);
      SkippedMembers(PrintMembers(members) + after, {}, nodes + 1, depth);
    }
    assert after[1..] == rest;
    ObjectOpens(Print(Object(gap, members)) + rest, u, nodes, depth);
  }

  /** The first member: after its name, after its colon, after its value, and its separator. */
  lemma MemberSplits(members: Members, after: Text) returns (named: Text, valued: Text, tail: Text, sep: Text)
    requires members.Member? && ValidMembers(members) && after != [] && after[0] == RIGHT_BRACE
    ensures SkipBlanks(PrintMembers(members) + after) == PrintString(members.name) + named
    ensures SkipBlanks(named) == [COLON] + valued
    ensures SkipBlanks(valued) == Print(members.value) + tail
    ensures valued == members.gap + (Print(members.value) + tail)
    ensures Ends(tail) && SkipBlanks(tail) == sep && sep != []
    ensures members.rest.NoMembers? ==> sep == after
    ensures members.rest.Member? ==> sep[0] == COMMA && sep[1..] == PrintMembers(members.rest) + after
  {
    hide Print;
    var Member(a, name, c, e, v, g, more) := members;
    var b, d, f := PrintString(name), [COLON], Print(v);
    var mark := if more.NoMembers? then [] else [COMMA] + PrintMembers(more);
    sep := if more.NoMembers? then after else [COMMA] + (PrintMembers(more) + after);
    assert mark + after == sep;
    tail := g + sep;
    valued := e + (f + tail);
    named := c + (d + valued);
    Nests(a, b, c, d, e, f, g, mark, after);
    SkipLead(a, b + named);
    SkipToUnit(c, COLON, valued);
    SkipToValue(e, v, tail);
    SkipLead(g, sep);
  }

  lemma NamesSplit(members: Members, keys: set<Text>)
    requires members.Member? && ValidMembers(members) && Distinct(Names(members))
    requires forall k :: 0 <= k < |Names(members)| ==> Names(members)[k] !in keys
    ensures Meanings(members.name) !in keys && Distinct(Names(members.rest))
    ensures forall k :: 0 <= k < |Names(members.rest)| ==>
      Names(members.rest)[k] !in keys + {Meanings(members.name)}
  {
    assert Names(members)[0] == Meanings(members.name);
    assert Names(members)[1..] == Names(members.rest);
  }

  lemma {:induction false} MembersTaken(members: Members, keys: set<Text>, after: Text, nodes: nat, depth: nat)
    requires members.Member? && ValidMembers(members) && PlainlyMembers(members)
    requires after != [] && after[0] == RIGHT_BRACE
    requires Distinct(Names(members))
    requires forall k :: 0 <= k < |Names(members)| ==> Names(members)[k] !in keys
    requires nodes + CountMembers(members) <= MAX_NODES && depth + DepthMembers(members) <= MAX_DEPTH
    ensures WalkMembers(PrintMembers(members) + after, keys, nodes, depth)
         == Some(Progress(after[1..], nodes + CountMembers(members)))
    decreases members, 1
  {
    hide WalkValue, WalkItems, WalkMembers, PrintMembers, SkipBlanks, ScanString;
    var named, valued, tail, sep := MemberSplits(members, after);
    NamesSplit(members, keys);
    StringComplete(members.name, named);
    ValueTaken(members.value, tail, nodes, depth + 1);
    SkippedValue(valued, nodes, depth + 1);
    MemberStep(PrintMembers(members) + after, keys, nodes, depth, Named(Meanings(members.name), named),
               [COLON] + valued, Progress(tail, nodes + Count(members.value)), sep);
    if members.rest.Member? {
      MembersTaken(members.rest, keys + {Meanings(members.name)}, after, nodes + Count(members.value), depth);
    }
  }

  lemma SkippedValue(s: Text, nodes: nat, depth: nat)
    ensures WalkValue(s, nodes, depth) == WalkValue(SkipBlanks(s), nodes, depth)
  {
    assert SkipBlanks(SkipBlanks(s)) == SkipBlanks(s);
  }
}
