/** What the walker takes is a value of the grammar, printed, within the bounds. */
module JsonSoundness {
  import opened Options
  import opened JsonGrammar
  import opened JsonScan
  import opened JsonWalk
  import opened JsonCompleteness

  /** `v` is what was read between `s` and `r`, and it keeps every bound. */
  ghost predicate Reads(v: Value, s: Text, lead: Text, r: Progress, nodes: nat, depth: nat) {
    && Blanks(lead) && Valid(v) && Plainly(v)
    && s == lead + (Print(v) + r.rest)
    && r.nodes == nodes + Count(v) <= MAX_NODES && depth + Depth(v) <= MAX_DEPTH
  }

  ghost predicate ReadsItems(items: Items, s: Text, r: Progress, nodes: nat, depth: nat) {
    && items.Item? && ValidItems(items) && PlainlyItems(items)
    && s == PrintItems(items) + ([RIGHT_BRACKET] + r.rest)
    && r.nodes == nodes + CountItems(items) <= MAX_NODES && depth + DepthItems(items) <= MAX_DEPTH
  }

  ghost predicate ReadsMembers(members: Members, keys: set<Text>, s: Text, r: Progress, nodes: nat, depth: nat) {
    && members.Member? && ValidMembers(members) && PlainlyMembers(members)
    && Distinct(Names(members))
    && (forall k :: 0 <= k < |Names(members)| ==> Names(members)[k] !in keys)
    && s == PrintMembers(members) + ([RIGHT_BRACE] + r.rest)
    && r.nodes == nodes + CountMembers(members) <= MAX_NODES && depth + DepthMembers(members) <= MAX_DEPTH
  }

  lemma PrimitiveRead(t: Text) returns (v: Value)
    requires Primitive(t)
    ensures Valid(v) && Plainly(v) && Print(v) == t && Count(v) == 1 && Depth(v) == 0
  {
    if t == NULL_TEXT || t == TRUE_TEXT || t == FALSE_TEXT {
      v := Literal(t);
    } else {
      NumberSound(t);
      v := Num(ReadNumber(t).value);
    }
  }

  lemma SkipsOnce(s: Text)
    ensures SkipBlanks(SkipBlanks(s)) == SkipBlanks(s)
  {
  }

  /** A string or a primitive, once its blanks are gone. */
  lemma ScalarRead(t: Text, nodes: nat, depth: nat) returns (v: Value)
    requires t != [] && SkipBlanks(t) == t && t[0] != LEFT_BRACKET && t[0] != LEFT_BRACE
    requires WalkValue(t, nodes, depth).Some?
    ensures Reads(v, t, [], WalkValue(t, nodes, depth).value, nodes, depth)
  {
    hide WalkItems, WalkMembers, Closing, Decoded, ReadNumber;
    if t[0] == QUOTE {
      var cs := StringSound(t);
      v := Str(cs);
    } else {
      var n := PrimitiveLength(t);
      v := PrimitiveRead(t[..n]);
      assert t == t[..n] + t[n..];
    }
  }

  lemma {:induction false} ValueRead(s: Text, nodes: nat, depth: nat) returns (lead: Text, v: Value)
    requires WalkValue(s, nodes, depth).Some?
    ensures Reads(v, s, lead, WalkValue(s, nodes, depth).value, nodes, depth)
    decreases |s|, 0
  {
    hide WalkValue, WalkItems, WalkMembers, SkipBlanks, Print, Valid, Plainly, Count, Depth;
    lead := SkipSplits(s);
    var t := SkipBlanks(s);
    SkippedValue(s, nodes, depth);
    SkipsOnce(s);
    WalksSomething(s, nodes, depth);
    var r := WalkValue(t, nodes, depth).value;
    if t[0] == LEFT_BRACKET {
      v := ArrayRead(t, r, nodes, depth);
    } else if t[0] == LEFT_BRACE {
      v := ObjectRead(t, r, nodes, depth);
    } else {
      v := ScalarRead(t, nodes, depth);
    }
  }

  lemma WalksSomething(s: Text, nodes: nat, depth: nat)
    requires WalkValue(s, nodes, depth).Some?
    ensures SkipBlanks(s) != [] && nodes + 1 <= MAX_NODES && depth <= MAX_DEPTH
  {
  }

  lemma EmptyArrayReads(t: Text, gap: Text, u: Text, nodes: nat, depth: nat)
    requires t != [] && t[0] == LEFT_BRACKET && t[1..] == gap + u && Blanks(gap)
    requires u != [] && u[0] == RIGHT_BRACKET && nodes + 1 <= MAX_NODES && depth <= MAX_DEPTH
    ensures Reads(Array(gap, NoItems), t, [], Progress(u[1..], nodes + 1), nodes, depth)
  {
    assert u == [RIGHT_BRACKET] + u[1..];
    assert t == [LEFT_BRACKET] + gap + [RIGHT_BRACKET] + u[1..];
  }

  lemma EmptyObjectReads(t: Text, gap: Text, u: Text, nodes: nat, depth: nat)
    requires t != [] && t[0] == LEFT_BRACE && t[1..] == gap + u && Blanks(gap)
    requires u != [] && u[0] == RIGHT_BRACE && nodes + 1 <= MAX_NODES && depth <= MAX_DEPTH
    ensures Reads(Object(gap, NoMembers), t, [], Progress(u[1..], nodes + 1), nodes, depth)
  {
    assert u == [RIGHT_BRACE] + u[1..];
    assert t == [LEFT_BRACE] + gap + [RIGHT_BRACE] + u[1..];
  }

  lemma ArrayReads(t: Text, items: Items, r: Progress, nodes: nat, depth: nat)
    requires t != [] && t[0] == LEFT_BRACKET && ReadsItems(items, t[1..], r, nodes + 1, depth)
    ensures Reads(Array([], items), t, [], r, nodes, depth)
  {
    hide PrintItems;
    var inner := PrintItems(items);
    assert t == [LEFT_BRACKET] + t[1..];
    assert t == [LEFT_BRACKET] + inner + [RIGHT_BRACKET] + r.rest;
  }

  lemma ObjectReads(t: Text, members: Members, r: Progress, nodes: nat, depth: nat)
    requires t != [] && t[0] == LEFT_BRACE && ReadsMembers(members, {}, t[1..], r, nodes + 1, depth)
    ensures Reads(Object([], members), t, [], r, nodes, depth)
  {
    hide PrintMembers, Names;
    var inner := PrintMembers(members);
    assert t == [LEFT_BRACE] + t[1..];
    assert t == [LEFT_BRACE] + inner + [RIGHT_BRACE] + r.rest;
  }

  lemma {:induction false} ArrayRead(t: Text, r: Progress, nodes: nat, depth: nat) returns (v: Value)
    requires t != [] && t[0] == LEFT_BRACKET && SkipBlanks(t) == t
    requires WalkValue(t, nodes, depth) == Some(r)
    ensures Reads(v, t, [], r, nodes, depth)
    decreases |t| - 1, 2
  {
    WalksSomething(t, nodes, depth);
    var u := SkipBlanks(t[1..]);
    ArrayOpens(t, u, nodes, depth);
    SkippedItems(t[1..], nodes + 1, depth);
    var gap := SkipSplits(t[1..]);
    hide WalkValue, WalkItems, WalkMembers, SkipBlanks, PrintItems;
    if u != [] && u[0] == RIGHT_BRACKET {
      v := Array(gap, NoItems);
      EmptyArrayReads(t, gap, u, nodes, depth);
    } else {
      var items := ItemsRead(t[1..], r, nodes + 1, depth);
      v := Array([], items);
      ArrayReads(t, items, r, nodes, depth);
    }
  }

  lemma {:induction false} ItemsRead(s: Text, r: Progress, nodes: nat, depth: nat) returns (items: Items)
    requires WalkItems(s, nodes, depth) == Some(r)
    ensures ReadsItems(items, s, r, nodes, depth)
    decreases |s|, 1
  {
    hide Reads, ReadsItems;
    var lead := SkipSplits(s);
    var inner, v := ValueRead(SkipBlanks(s), nodes, depth + 1);
    var item := WalkValue(SkipBlanks(s), nodes, depth + 1).value;
    var trail := SkipSplits(item.rest);
    var t := SkipBlanks(item.rest);
    ItemStep(s, nodes, depth, item, t);
    var more := NoItems;
    if t[0] == COMMA {
      more := ItemsRead(t[1..], r, item.nodes, depth);
    }
    items := Item(lead + inner, v, trail, more);
    hide WalkValue, WalkItems, SkipBlanks;
    ItemsJoin(items, lead, inner, s, t, item, r, nodes, depth);
  }

  lemma ItemsJoin(items: Items, lead: Text, inner: Text, s: Text, t: Text, item: Progress, r: Progress, nodes: nat,
                  depth: nat)
    requires items.Item? && items.lead == lead + inner && Blanks(lead) && Blanks(items.trail)
    requires s == lead + SkipBlanks(s) && item.rest == items.trail + t && t != []
    requires Reads(items.value, SkipBlanks(s), inner, item, nodes, depth + 1)
    requires if t[0] == COMMA then ReadsItems(items.rest, t[1..], r, item.nodes, depth)
             else t[0] == RIGHT_BRACKET && items.rest.NoItems? && r == Progress(t[1..], item.nodes)
    ensures ReadsItems(items, s, r, nodes, depth)
  {
    hide SkipBlanks, Print, PrintItems;
    assert t == [t[0]] + t[1..];
    ItemsPrint(items, lead, inner, s, t, [RIGHT_BRACKET] + r.rest);
    assert Blanks(lead + inner);
    assert Valid(items.value) && Plainly(items.value);
    assert ValidItems(items.rest) && PlainlyItems(items.rest);
    assert ValidItems(items) && PlainlyItems(items);
    assert s == PrintItems(items) + ([RIGHT_BRACKET] + r.rest);
    assert r.nodes == nodes + CountItems(items) <= MAX_NODES;
    assert depth + DepthItems(items) <= MAX_DEPTH;
  }

  lemma ItemsPrint(items: Items, lead: Text, inner: Text, s: Text, t: Text, after: Text)
    requires items.Item? && items.lead == lead + inner
    requires s == lead + (inner + (Print(items.value) + (items.trail + t)))
    requires t == if items.rest.NoItems? then after else [COMMA] + (PrintItems(items.rest) + after)
    ensures s == PrintItems(items) + after
  {
    var mark := if items.rest.NoItems? then [] else [COMMA] + PrintItems(items.rest);
    assert mark + after == t;
    Nests(lead, inner, Print(items.value), items.trail, mark, after, [], [], []);
  }

  lemma {:induction false} ObjectRead(t: Text, r: Progress, nodes: nat, depth: nat) returns (v: Value)
    requires t != [] && t[0] == LEFT_BRACE && SkipBlanks(t) == t
    requires WalkValue(t, nodes, depth) == Some(r)
    ensures Reads(v, t, [], r, nodes, depth)
    decreases |t| - 1, 2
  {
    WalksSomething(t, nodes, depth);
    var u := SkipBlanks(t[1..]);
    ObjectOpens(t, u, nodes, depth);
    SkippedMembers(t[1..], {}, nodes + 1, depth);
    var gap := SkipSplits(t[1..]);
    hide WalkValue, WalkItems, WalkMembers, SkipBlanks, PrintMembers;
    if u != [] && u[0] == RIGHT_BRACE {
      v := Object(gap, NoMembers);
      EmptyObjectReads(t, gap, u, nodes, depth);
    } else {
      var members := MembersRead(t[1..], {}, r, nodes + 1, depth);
      v := Object([], members);
      ObjectReads(t, members, r, nodes, depth);
    }
  }

  /** One member read, and the rest of its object after it. */
  lemma MemberReads(members: Members, keys: set<Text>, s: Text, u: Text, t: Text, member: Progress, r: Progress,
                    nodes: nat, depth: nat)
    requires members.Member? && Blanks(members.lead) && ValidChars(members.name) && Blanks(members.mid)
    requires Blanks(members.trail) && t != [] && u != [] && u[0] == COLON
    requires s == members.lead + (PrintString(members.name) + (members.mid + u))
    requires Meanings(members.name) !in keys
    requires Reads(members.value, u[1..], members.gap, member, nodes, depth + 1)
    requires member.rest == members.trail + t
    requires members.rest.NoMembers? ==> t[0] == RIGHT_BRACE && r == Progress(t[1..], member.nodes)
    requires members.rest.Member? ==>
      t[0] == COMMA && ReadsMembers(members.rest, keys + {Meanings(members.name)}, t[1..], r, member.nodes, depth)
    ensures ReadsMembers(members, keys, s, r, nodes, depth)
  {
    hide Print, PrintMembers, PrintString, Names, Meanings;
    assert u == [COLON] + u[1..] && t == [t[0]] + t[1..];
    MembersPrint(members, s, t, [RIGHT_BRACE] + r.rest);
    if members.rest.NoMembers? { NoNames(members.rest); }
    NamesJoin(members, keys);
    assert ValidMembers(members) && PlainlyMembers(members);
    assert s == PrintMembers(members) + ([RIGHT_BRACE] + r.rest);
    assert r.nodes == nodes + CountMembers(members) <= MAX_NODES;
    assert depth + DepthMembers(members) <= MAX_DEPTH;
  }

  lemma NoNames(members: Members)
    requires members.NoMembers?
    ensures Names(members) == []
  {
  }

  /** What one turn of the member loop must have found. */
  lemma MemberInverts(s: Text, keys: set<Text>, r: Progress, nodes: nat, depth: nat)
    returns (key: Named, u: Text, member: Progress)
    requires WalkMembers(s, keys, nodes, depth) == Some(r)
    ensures ScanString(SkipBlanks(s)) == Some(key) && key.name !in keys && |key.rest| < |s|
    ensures u == SkipBlanks(key.rest) && u != [] && u[0] == COLON
    ensures WalkValue(u[1..], nodes, depth + 1) == Some(member)
    ensures var t := SkipBlanks(member.rest); t != [] && (t[0] == RIGHT_BRACE || t[0] == COMMA)
  {
    key := ScanString(SkipBlanks(s)).value;
    u := SkipBlanks(key.rest);
    member := WalkValue(u[1..], nodes, depth + 1).value;
  }

  lemma {:induction false} MembersRead(s: Text, keys: set<Text>, r: Progress, nodes: nat, depth: nat)
    returns (members: Members)
    requires WalkMembers(s, keys, nodes, depth) == Some(r)
    ensures ReadsMembers(members, keys, s, r, nodes, depth)
    decreases |s|, 1
  {
    var key, u, member := MemberInverts(s, keys, r, nodes, depth);
    hide WalkValue, WalkItems, WalkMembers, SkipBlanks, PrintMembers, ScanString, Names;
    var lead := SkipSplits(s);
    var name := StringSound(SkipBlanks(s));
    var mid := SkipSplits(key.rest);
    var gap, v := ValueRead(u[1..], nodes, depth + 1);
    var trail := SkipSplits(member.rest);
    var t := SkipBlanks(member.rest);
    MemberStep(s, keys, nodes, depth, key, u, member, t);
    var more := NoMembers;
    if t[0] == COMMA {
      more := MembersRead(t[1..], keys + {key.name}, r, member.nodes, depth);
    }
    members := Member(lead, name, mid, gap, v, trail, more);
    MemberReads(members, keys, s, u, t, member, r, nodes, depth);
  }

  lemma NamesJoin(members: Members, keys: set<Text>)
    requires members.Member? && ValidMembers(members)
    requires Meanings(members.name) !in keys
    requires Distinct(Names(members.rest))
    requires forall k :: 0 <= k < |Names(members.rest)| ==>
      Names(members.rest)[k] !in keys + {Meanings(members.name)}
    ensures Distinct(Names(members))
    ensures forall k :: 0 <= k < |Names(members)| ==> Names(members)[k] !in keys
  {
    assert Names(members)[0] == Meanings(members.name);
    assert Names(members)[1..] == Names(members.rest);
  }

  lemma MembersPrint(members: Members, s: Text, t: Text, after: Text)
    requires members.Member?
    requires s == members.lead + (PrintString(members.name) + (members.mid + ([COLON]
      + (members.gap + (Print(members.value) + (members.trail + t))))))
    requires t == if members.rest.NoMembers? then after else [COMMA] + (PrintMembers(members.rest) + after)
    ensures s == PrintMembers(members) + after
  {
    var mark := if members.rest.NoMembers? then [] else [COMMA] + PrintMembers(members.rest);
    assert mark + after == t;
    Nests(members.lead, PrintString(members.name), members.mid, [COLON], members.gap,
          Print(members.value), members.trail, mark, after);
  }

  /** A whole text: blanks, one value, blanks. */
  ghost predicate Document(s: Text, lead: Text, v: Value, trail: Text) {
    && s == lead + (Print(v) + trail) && Blanks(lead) && Blanks(trail) && Valid(v)
  }

  /** The value keeps what the gate asks beyond the grammar. */
  ghost predicate Bounded(v: Value)
    requires Valid(v)
  {
    Plainly(v) && Depth(v) <= MAX_DEPTH && Count(v) <= MAX_NODES
  }

  lemma AcceptedIsDocument(s: Text) returns (lead: Text, v: Value, trail: Text)
    requires Accepts(s)
    ensures Document(s, lead, v, trail) && Bounded(v)
  {
    lead, v := ValueRead(s, 0, 0);
    var rest := WalkValue(s, 0, 0).value.rest;
    trail := SkipSplits(rest);
    assert trail + [] == trail;
  }

  lemma DocumentIsAccepted(s: Text, lead: Text, v: Value, trail: Text)
    requires Document(s, lead, v, trail) && Bounded(v)
    ensures Accepts(s)
  {
    hide WalkValue, Print, Plainly, Count, Depth;
    SkippedValue(s, 0, 0);
    SkipToValue(lead, v, trail);
    ValueTaken(v, trail, 0, 0);
    SkipLead(trail, []);
    assert trail + [] == trail;
  }

  /**
   * The walker takes a text exactly when it is one RFC 8259 value between blanks whose numbers are
   * finite doubles, whose objects have distinct decoded names at every level, which holds at most
   * MAX_NODES values, none inside more than MAX_DEPTH containers.
   */
  lemma AcceptsExactlyBoundedDocuments(s: Text)
    ensures Accepts(s) <==>
      exists lead: Text, v: Value, trail: Text :: Document(s, lead, v, trail) && Bounded(v)
  {
    if Accepts(s) {
      var lead, v, trail := AcceptedIsDocument(s);
    }
    if exists lead: Text, v: Value, trail: Text :: Document(s, lead, v, trail) && Bounded(v) {
      var lead: Text, v: Value, trail: Text :| Document(s, lead, v, trail) && Bounded(v);
      DocumentIsAccepted(s, lead, v, trail);
    }
  }
}
