/** The hand-written reader: one position and one counter, advanced token by token. */
module JsonReader {
  import opened Options
  import opened JsonGrammar
  import opened JsonScan
  import opened JsonWalk

  /** Just past the quote that closes a string body starting at `k`. */
  function ClosingAt(s: Text, k: nat): Option<nat> {
    if k > |s| then None else Later(k, Closing(s[k..]))
  }

  /** What one unit of a string body decides. */
  lemma UnitStep(s: Text, k: nat)
    requires k <= |s|
    ensures ClosingAt(s, k) ==
      if k == |s| then None
      else if s[k] == QUOTE then Some(k + 1)
      else ClosingAt(s, if s[k] == BACKSLASH then k + 2 else k + 1)
  {
    var rest := s[k..];
    assert k + 2 <= |s| ==> rest[2..] == s[k + 2..];
    assert k < |s| ==> rest[1..] == s[k + 1..];
  }

  class Reader {
    const source: Text
    var at: nat
    var nodes: nat

    constructor (text: Text)
      ensures source == text && at == 0 && nodes == 0
    {
      source := text;
      at := 0;
      nodes := 0;
    }

    ghost predicate Valid()
      reads this
    {
      at <= |source|
    }

    /** What is left to read. */
    ghost function Left(): Text
      requires Valid()
      reads this
    {
      source[at..]
    }

    method Whitespace()
      requires Valid()
      modifies this`at
      ensures Valid() && Left() == SkipBlanks(old(Left()))
    {
      while at < |source| && IsBlank(source[at])
        invariant Valid() && SkipBlanks(Left()) == SkipBlanks(old(Left()))
      {
        assert Left()[1..] == source[at + 1..];
        at := at + 1;
      }
    }

    /** Just past the closing quote; a trailing backslash runs past the end. */
    method AfterQuote(start: nat) returns (end: Option<nat>)
      requires start <= |source|
      ensures end == ClosingAt(source, start)
    {
      assert ClosingAt(source, |source| + 1).None?;
      hide ClosingAt;
      var k := start;
      while k < |source|
        invariant start <= k <= |source| + 1
        invariant ClosingAt(source, start) == ClosingAt(source, k)
      {
        UnitStep(source, k);
        if source[k] == QUOTE { return Some(k + 1); }
        k := if source[k] == BACKSLASH then k + 2 else k + 1;
      }
      if k == |source| { UnitStep(source, k); }
      end := None;
    }

    /** One string token, decoded by the engine. */
    method String() returns (name: Option<Text>)
      requires Valid()
      modifies this`at
      ensures Valid()
      ensures name.Some? == ScanString(old(Left())).Some?
      ensures name.Some? ==> Named(name.value, Left()) == ScanString(old(Left())).value
    {
      name := None;
      if at >= |source| || source[at] != QUOTE { return; }
      ghost var whole := Left();
      var start := at + 1;
      assert source[start..] == whole[1..];
      var end := AfterQuote(start);
      if end.None? { return; }
      name := Decoded(source[start..end.value - 1]);
      at := end.value;
      assert source[start..at - 1] == whole[1..at - start];
      assert Left() == whole[1 + at - start..];
    }

    method PrimitiveToken() returns (ok: bool)
      requires Valid()
      modifies this`at
      ensures Valid()
      ensures var n := PrimitiveLength(old(Left()));
        ok == (n > 0 && Primitive(old(Left())[..n])) && Left() == old(Left())[n..]
    {
      var start := at;
      while at < |source| && !IsDelimiter(source[at])
        invariant start <= at <= |source|
        invariant PrimitiveLength(old(Left())) == at - start + PrimitiveLength(Left())
      {
        assert Left()[1..] == source[at + 1..];
        at := at + 1;
      }
      assert source[start..at] == old(Left())[..at - start];
      assert Left() == old(Left())[at - start..];
      ok := at > start && Primitive(source[start..at]);
    }

    /** One value and everything inside it. */
    method Value(depth: nat) returns (ok: bool)
      requires Valid()
      modifies this`at, this`nodes
      ensures Valid()
      ensures ok == WalkValue(old(Left()), old(nodes), depth).Some?
      ensures ok ==> Progress(Left(), nodes) == WalkValue(old(Left()), old(nodes), depth).value
      decreases |source| - at, 0
    {
      hide ScanString, WalkItems, WalkMembers, PrimitiveLength;
      nodes := nodes + 1;
      ok := false;
      if nodes > MAX_NODES || depth > MAX_DEPTH { return; }
      Whitespace();
      if at >= |source| { return; }
      var first := source[at];
      if first == QUOTE {
        var name := String();
        ok := name.Some?;
        return;
      }
      if first != LEFT_BRACE && first != LEFT_BRACKET {
        ok := PrimitiveToken();
        return;
      }
      ghost var t := Left();
      at := at + 1;
      assert Left() == t[1..];
      Whitespace();
      var end := if first == LEFT_BRACE then RIGHT_BRACE else RIGHT_BRACKET;
      if at < |source| && source[at] == end {
        ghost var u := Left();
        at := at + 1;
        assert Left() == u[1..];
        return true;
      }
      if first == LEFT_BRACE {
        ok := Object(depth);
      } else {
        ok := Array(depth);
      }
    }

    /** The element loop, after the opening bracket and its blanks. */
    method Array(depth: nat) returns (ok: bool)
      requires Valid()
      modifies this`at, this`nodes
      ensures Valid()
      ensures ok == WalkItems(old(Left()), old(nodes), depth).Some?
      ensures ok ==> Progress(Left(), nodes) == WalkItems(old(Left()), old(nodes), depth).value
      decreases |source| - at, 1
    {
      ghost var walk := WalkItems(Left(), nodes, depth);
      while true
        invariant Valid() && at >= old(at)
        invariant WalkItems(Left(), nodes, depth) == walk
        decreases |source| - at
      {
        Whitespace();
        ok := Value(depth + 1);
        if !ok { return; }
        Whitespace();
        if at >= |source| { return false; }
        var next := source[at];
        ghost var t := Left();
        at := at + 1;
        assert Left() == t[1..];
        if next == RIGHT_BRACKET { return true; }
        if next != COMMA { return false; }
      }
    }

    /** The member loop; `keys` are the decoded names so far. */
    method Object(depth: nat) returns (ok: bool)
      requires Valid()
      modifies this`at, this`nodes
      ensures Valid()
      ensures ok == WalkMembers(old(Left()), {}, old(nodes), depth).Some?
      ensures ok ==> Progress(Left(), nodes) == WalkMembers(old(Left()), {}, old(nodes), depth).value
      decreases |source| - at, 1
    {
      hide WalkValue, ScanString, SkipBlanks;
      ghost var walk := WalkMembers(Left(), {}, nodes, depth);
      var keys: set<Text> := {};
      while true
        invariant Valid() && at >= old(at)
        invariant WalkMembers(Left(), keys, nodes, depth) == walk
        decreases |source| - at
      {
        Whitespace();
        var key := String();
        if key.None? || key.value in keys { return false; }
        keys := keys + {key.value};
        Whitespace();
        if at >= |source| || source[at] != COLON { return false; }
        ghost var u := Left();
        at := at + 1;
        assert Left() == u[1..];
        ok := Value(depth + 1);
        if !ok { return; }
        Whitespace();
        if at >= |source| { return false; }
        var next := source[at];
        ghost var t := Left();
        at := at + 1;
        assert Left() == t[1..];
        if next == RIGHT_BRACE { return true; }
        if next != COMMA { return false; }
      }
    }

    /** The whole text. */
    method Read() returns (ok: bool)
      requires at == 0 && nodes == 0
      modifies this`at, this`nodes
      ensures ok == Accepts(source)
    {
      assert Left() == source;
      ok := Value(0);
      if !ok { return; }
      Whitespace();
      ok := at == |source|;
    }
  }
}
