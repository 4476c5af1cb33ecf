/** The `.env` settings scanner: its loops, and exactly when it names what the machine names. */
module SettingsScan {
  import opened Options
  import opened SettingsMachine

  function LineEnd(text: string): (n: nat)
    ensures n <= |text| && OneLine(text[..n])
    ensures n < |text| ==> text[n] == '\n'
  {
    if text == "" || text[0] == '\n' then 0 else 1 + LineEnd(text[1..])
  }

  lemma {:induction false} LinesSplit(text: string)
    ensures var n := LineEnd(text);
      Lines(text) == if n == |text| then [text] else [text[..n]] + Lines(text[n + 1..])
  {
    if text != "" && text[0] != '\n' {
      LinesSplit(text[1..]);
      var n, rest := LineEnd(text[1..]), Lines(text[1..]);
      if n == |text[1..]| {
        assert [text[0]] + text[1..] == text;
        assert rest[1..] == [];
      } else {
        assert [text[0]] + text[1..][..n] == text[..n + 1];
        assert text[1..][n + 1..] == text[n + 2..];
        assert rest[1..] == Lines(text[n + 2..]);
      }
    }
  }

  /** A name, and the line it stands on. */
  datatype Found = Found(line: nat, name: string)

  function At(names: seq<string>, line: nat): seq<Found> {
    seq(|names|, k requires 0 <= k < |names| => Found(line, names[k]))
  }

  function NamesIn(all: seq<Found>): seq<string> { seq(|all|, k requires 0 <= k < |all| => all[k].name) }

  /** What the machine names, line by line; the text's first line has number `line`. */
  function ReadsAt(s: State, text: string, line: nat): seq<Found>
    decreases |text|
  {
    if text == "" then []
    else
      var one := Step(s, text[0]);
      At(one.names, line) + ReadsAt(one.state, text[1..], if text[0] == '\n' then line + 1 else line)
  }

  /** What the scanner names, line by line. */
  function ScanAt(lines: seq<string>, found: Option<Quote>, line: nat): seq<Found>
    decreases |lines|
  {
    if lines == [] then []
    else At(NamesOf(lines[0], found), line) + ScanAt(lines[1..], OpenAfter(lines[0], found), line + 1)
  }

  /**
   * Wherever the machine stands outside quotes at the head of a line (in Start), that line is no setting
   * with a terminator behind its equals sign.
   */
  ghost predicate NothingHidden(s: State, text: string)
    decreases |text|
  {
    && !(s == Start && Hides(text[..LineEnd(text)]))
    && (text != "" ==> NothingHidden(Step(s, text[0]).state, text[1..]))
  }

  lemma {:induction false} LineEndOf(line: string, rest: string)
    requires OneLine(line) && (rest == "" || rest[0] == '\n')
    ensures LineEnd(line + rest) == |line|
  {
    if line == "" {
      assert line + rest == rest;
    } else {
      assert (line + rest)[1..] == line[1..] + rest;
      LineEndOf(line[1..], rest);
    }
  }

  /** Past the head of a line nothing in it hides. */
  lemma {:induction false} HiddenPast(s: State, line: string, rest: string)
    requires OneLine(line) && s != Start
    ensures NothingHidden(s, line + rest) == NothingHidden(Reads(s, line).state, rest)
    decreases |line|
  {
    if line == "" {
      assert line + rest == rest;
    } else {
      assert (line + rest)[1..] == line[1..] + rest;
      HiddenPast(Step(s, line[0]).state, line[1..], rest);
    }
  }

  lemma HiddenLine(s: State, line: string, rest: string)
    requires OneLine(line) && (rest == "" || rest[0] == '\n')
    ensures NothingHidden(s, line + rest) <==>
      !(s == Start && Hides(line)) && NothingHidden(Reads(s, line).state, rest)
  {
    if s == Start && line != "" {
      LineEndOf(line, rest);
      assert (line + rest)[..|line|] == line;
      assert (line + rest)[1..] == line[1..] + rest;
      HiddenPast(Step(s, line[0]).state, line[1..], rest);
    } else if s != Start {
      HiddenPast(s, line, rest);
    } else {
      assert line + rest == rest;
    }
  }

  lemma HiddenFeed(s: State, rest: string)
    ensures NothingHidden(s, "\n" + rest) == NothingHidden(Step(s, '\n').state, rest)
  {
    LineEndOf("", "\n" + rest);
    assert "" + ("\n" + rest) == "\n" + rest;
    assert ("\n" + rest)[1..] == rest;
  }

  lemma {:induction false} ReadsAtLine(s: State, line: string, rest: string, n: nat)
    requires OneLine(line)
    ensures ReadsAt(s, line + rest, n) == At(Reads(s, line).names, n) + ReadsAt(Reads(s, line).state, rest, n)
    decreases |line|
  {
    if line == "" {
      assert line + rest == rest;
    } else {
      assert (line + rest)[1..] == line[1..] + rest;
      ReadsAtLine(Step(s, line[0]).state, line[1..], rest, n);
    }
  }

  lemma ReadsAtFeed(s: State, rest: string, n: nat)
    ensures ReadsAt(s, "\n" + rest, n) == ReadsAt(Step(s, '\n').state, rest, n + 1)
  {
    assert ("\n" + rest)[1..] == rest;
  }

  lemma {:induction false} ScanAtLines(lines: seq<string>, found: Option<Quote>, n: nat)
    ensures forall k :: 0 <= k < |ScanAt(lines, found, n)| ==> ScanAt(lines, found, n)[k].line >= n
    decreases |lines|
  {
    if lines != [] { ScanAtLines(lines[1..], OpenAfter(lines[0], found), n + 1); }
  }

  lemma ScanAtOne(line: string, rest: seq<string>, found: Option<Quote>, n: nat)
    ensures ScanAt([line] + rest, found, n) == At(NamesOf(line, found), n) + ScanAt(rest, OpenAfter(line, found), n + 1)
  {
    assert ([line] + rest)[1..] == rest;
  }

  lemma ScanAtNone(found: Option<Quote>, n: nat)
    ensures ScanAt([], found, n) == []
  {
  }

  lemma NothingLeft(s: State, n: nat)
    ensures ReadsAt(s, "", n) == [] && NothingHidden(s, "")
  {
  }

  lemma SameBehind<T>(a: seq<T>, x: seq<T>, y: seq<T>)
    ensures a + x == a + y <==> x == y
  {
    if a + x == a + y { assert x == (a + x)[|a|..] && y == (a + y)[|a|..]; }
  }

  lemma ScannerMisses(line: string)
    requires Hides(line)
    ensures NamesOf(line, None) == [] && OpenAfter(line, None) == None && StartsSetting(line)
  {
  }

  /** A line the scanner misses outside quotes: only the machine has a name on it. */
  lemma MissedLine(line: string, lines: seq<string>, behind: seq<Found>, n: nat)
    requires OneLine(line) && Hides(line)
    ensures ScanAt([line] + lines, None, n) != At(Reads(Start, line).names, n) + behind
  {
    hide Reads, Hides, ScanAt, NamesOf, OpenAfter, StartsSetting;
    MachineNames(line);
    ScannerMisses(line);
    ScanAtOne(line, lines, None, n);
    ScanAtLines(lines, None, n + 1);
    var machine := At(Reads(Start, line).names, n) + behind;
    assert machine[0].line == n;
    assert At([], n) + ScanAt(lines, None, n + 1) == ScanAt(lines, None, n + 1);
  }

  /**
   * Scanner and machine name the same, each name on the same line, if and only if no line that starts as
   * a setting outside quotes has a terminator (a carriage return, or a Unicode line or paragraph
   * separator) behind its equals sign. At the first such line only the machine has a name, and if the
   * line opens a quote the scanner reads on inside the value. Terminators anywhere else are harmless.
   */
  lemma {:induction false} TerminatorsHideASetting(text: string, found: Option<Quote>, n: nat)
    ensures ScanAt(Lines(text), found, n) == ReadsAt(Resume(found), text, n) <==> NothingHidden(Resume(found), text)
    decreases |text|
  {
    hide Reads, ReadsAt, ScanAt, NamesOf, OpenAfter, Step, Lines, Open, NothingHidden, Hides, At;
    var end := LineEnd(text);
    var line, s := text[..end], Resume(found);
    var rest := text[end..];
    assert text == line + rest;
    LinesSplit(text);
    HiddenLine(s, line, rest);
    ReadsAtLine(s, line, rest, n);
    var lines := if end == |text| then [] else Lines(text[end + 1..]);
    assert end == |text| ==> line == text && rest == "" && [line] + lines == [line];
    if found.None? && Hides(line) {
      assert text[..end] == line && s == Start && found == None;
      MissedLine(line, lines, ReadsAt(Reads(s, line).state, rest, n), n);
    } else {
      LineAgrees(line, found);
      ScanAtOne(line, lines, found, n);
      var left := OpenAfter(line, found);
      SameBehind(At(NamesOf(line, found), n), ScanAt(lines, left, n + 1), ReadsAt(Reads(s, line).state, rest, n));
      if end == |text| {
        NothingLeft(Reads(s, line).state, n);
        ScanAtNone(left, n + 1);
      } else {
        assert rest == "\n" + text[end + 1..];
        HiddenFeed(Reads(s, line).state, text[end + 1..]);
        ReadsAtFeed(Reads(s, line).state, text[end + 1..], n);
        TerminatorsHideASetting(text[end + 1..], left, n + 1);
      }
    }
  }

  lemma {:induction false} ReadsAtNames(s: State, text: string, n: nat)
    ensures NamesIn(ReadsAt(s, text, n)) == Reads(s, text).names
    decreases |text|
  {
    if text != "" { ReadsAtNames(Step(s, text[0]).state, text[1..], if text[0] == '\n' then n + 1 else n); }
  }

  lemma {:induction false} ScanAtNames(lines: seq<string>, found: Option<Quote>, n: nat)
    ensures NamesIn(ScanAt(lines, found, n)) == Scan(lines, found)
    decreases |lines|
  {
    if lines != [] { ScanAtNames(lines[1..], OpenAfter(lines[0], found), n + 1); }
  }

  /** Line by line or character by character, the same names, whatever quote the text starts inside. */
  lemma ScanIsTheMachine(text: string, found: Option<Quote>)
    requires NothingHidden(Resume(found), text)
    ensures Scan(Lines(text), found) == Reads(Resume(found), text).names
  {
    hide Reads, ReadsAt, ScanAt, Scan, NothingHidden;
    TerminatorsHideASetting(text, found, 1);
    ReadsAtNames(Resume(found), text, 1);
    ScanAtNames(Lines(text), found, 1);
  }

  lemma ScanNone(found: Option<Quote>)
    ensures Scan([], found) == []
  {
  }

  lemma ScanOne(line: string, rest: seq<string>, found: Option<Quote>)
    ensures Scan([line] + rest, found) == NamesOf(line, found) + Scan(rest, OpenAfter(line, found))
  {
    assert ([line] + rest)[1..] == rest;
  }

  /** `closes`. */
  method ClosesQuote(text: string, q: Quote) returns (r: bool)
    ensures r == Closes(text, q)
  {
    if q == Single {
      var k := 0;
      while k < |text|
        invariant k <= |text| && Closes(text, q) == Closes(text[k..], q)
      {
        if text[k] == '\'' { return true; }
        assert text[k..][1..] == text[k + 1..];
        k := k + 1;
      }
      return false;
    }
    var index := 0;
    while index < |text|
      invariant Closes(text, q) == (index <= |text| && Closes(text[index..], q))
      decreases |text| - index
    {
      if text[index] == '\\' {
        if index + 1 < |text| { assert text[index..][2..] == text[index + 2..]; }
        index := index + 1;
      } else if text[index] == '"' {
        return true;
      } else {
        assert text[index..][1..] == text[index + 1..];
      }
      index := index + 1;
    }
    r := false;
  }

  /** One line of `settingNames`: its name if it sets something, and the quote it leaves open. */
  method ReadLine(line: string, found: Option<Quote>) returns (names: seq<string>, left: Option<Quote>)
    ensures names == NamesOf(line, found) && left == OpenAfter(line, found)
  {
    hide Closes;
    names, left := [], found;
    if found.Some? {
      var closed := ClosesQuote(line, found.value);
      if closed { left := None; }
      return;
    }
    var at := Sets(line);
    if at.None? { return; }
    names := [line[..at.value]];
    var value := line[at.value + 1..];
    if value != "" && (value[0] == '\'' || value[0] == '"') {
      var quote := if value[0] == '\'' then Single else Double;
      var closed := ClosesQuote(value[1..], quote);
      if !closed { left := Some(quote); }
    }
  }

  /** `settingNames`: line by line, skipping every line of a quoted value. */
  method ReadSettingNames(text: string) returns (names: seq<string>)
    ensures names == Scan(Lines(text), None)
    ensures NothingHidden(Start, text) ==> names == Reads(Start, text).names
  {
    hide Scan, Lines, Reads, NamesOf, OpenAfter, NothingHidden;
    names := [];
    var found: Option<Quote> := None;
    var lines := Lines(text);
    var k := 0;
    ghost var all := Scan(lines, None);
    assert lines[0..] == lines;
    while k < |lines|
      invariant k <= |lines|
      invariant names + Scan(lines[k..], found) == all
    {
      ghost var rest := lines[k + 1..];
      assert lines[k..] == [lines[k]] + rest;
      ScanOne(lines[k], rest, found);
      var more;
      more, found := ReadLine(lines[k], found);
      names := names + more;
      k := k + 1;
    }
    assert lines[k..] == [];
    ScanNone(found);
    if NothingHidden(Start, text) { ScanIsTheMachine(text, None); }
  }
}
