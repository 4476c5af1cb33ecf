/** A `.env` read one character at a time, and one line at a time: the same names either way. */
module SettingsMachine {
  import opened Options

  predicate Upper(c: char) { 'A' <= c <= 'Z' }

  predicate NameChar(c: char) { Upper(c) || '0' <= c <= '9' || c == '_' }

  /** What a pattern's `.` leaves out besides the line feed. */
  predicate Terminator(c: char) { c == '\r' || c == '\U{2028}' || c == '\U{2029}' }

  datatype Quote = Single | Double

  function Mark(q: Quote): char { if q == Single then '\'' else '"' }

  /** Where a reader stands: before a line, in a name, at a value's first character, inside quotes, or past all that. */
  datatype State = Start | Name(name: string) | First | InSingle | InDouble | Escaped | Skip

  datatype Read = Read(state: State, names: seq<string>)

  function Step(s: State, c: char): Read {
    match s
    case Start => Read(if c == '\n' then Start else if Upper(c) then Name([c]) else Skip, [])
    case Name(name) =>
      if c == '=' then Read(First, [name])
      else Read(if c == '\n' then Start else if NameChar(c) then Name(name + [c]) else Skip, [])
    case First =>
      Read(if c == '\n' then Start else if c == '\'' then InSingle else if c == '"' then InDouble else Skip, [])
    case InSingle => Read(if c == '\'' then Skip else InSingle, [])
    case InDouble => Read(if c == '"' then Skip else if c == '\\' then Escaped else InDouble, [])
    case Escaped => Read(InDouble, [])
    case Skip => Read(if c == '\n' then Start else Skip, [])
  }

  /** The whole text through the machine. */
  function Reads(s: State, text: string): Read
    decreases |text|
  {
    if text == "" then Read(s, [])
    else
      var one := Step(s, text[0]);
      var rest := Reads(one.state, text[1..]);
      Read(rest.state, one.names + rest.names)
  }

  /** `closes`: any single quote, or a double quote no backslash escapes. */
  predicate Closes(text: string, q: Quote) {
    if text == "" then false
    else if q == Double && text[0] == '\\' then |text| > 1 && Closes(text[2..], q)
    else text[0] == Mark(q) || Closes(text[1..], q)
  }

  /** The name at the head of a line, and how far it runs. */
  function NameLength(line: string): (n: nat)
    ensures n <= |line|
    ensures forall k :: 0 <= k < n ==> NameChar(line[k])
    ensures n < |line| ==> !NameChar(line[n])
  {
    if line == "" || !NameChar(line[0]) then 0 else 1 + NameLength(line[1..])
  }

  /** The line starts as a setting does: a name, and an equals sign behind it. */
  predicate StartsSetting(line: string) {
    line != "" && Upper(line[0]) && NameLength(line) < |line| && line[NameLength(line)] == '='
  }

  /** The pattern's `.*` stops short of the line's end, so the pattern doesn't match a setting. */
  predicate Hides(line: string) {
    StartsSetting(line) && exists k :: NameLength(line) < k < |line| && Terminator(line[k])
  }

  /** Where the `=` stands in a line that the pattern matches. */
  function Sets(line: string): Option<nat> {
    if StartsSetting(line) && (forall k :: NameLength(line) < k < |line| ==> !Terminator(line[k]))
    then Some(NameLength(line)) else None
  }

  /** The quote a line leaves open, given the one it found open. */
  function OpenAfter(line: string, found: Option<Quote>): Option<Quote> {
    if found.Some? then (if Closes(line, found.value) then None else found)
    else if Sets(line).None? then None
    else
      QuoteLeft(line[Sets(line).value + 1..])
  }

  function NamesOf(line: string, found: Option<Quote>): seq<string> {
    if found.None? && Sets(line).Some? then [line[..Sets(line).value]] else []
  }

  /** The lines of a text between its line feeds. */
  function Lines(text: string): (r: seq<string>)
    ensures r != []
  {
    if text == "" then [""]
    else
      var rest := Lines(text[1..]);
      if text[0] == '\n' then [""] + rest else [[text[0]] + rest[0]] + rest[1..]
  }

  /** `settingNames` over the remaining lines. */
  function Scan(lines: seq<string>, found: Option<Quote>): seq<string>
    decreases |lines|
  {
    if lines == [] then [] else NamesOf(lines[0], found) + Scan(lines[1..], OpenAfter(lines[0], found))
  }

  predicate OneLine(line: string) { forall k :: 0 <= k < |line| ==> line[k] != '\n' }

  lemma {:induction false} ReadsOn(s: State, a: string, b: string)
    ensures var first := Reads(s, a);
      var rest := Reads(first.state, b);
      Reads(s, a + b) == Read(rest.state, first.names + rest.names)
    decreases |a|
  {
    if a == "" {
      assert a + b == b;
    } else {
      assert (a + b)[1..] == a[1..] + b;
      ReadsOn(Step(s, a[0]).state, a[1..], b);
    }
  }

  lemma {:induction false} SkipsTheRest(line: string)
    requires OneLine(line)
    ensures Reads(Skip, line) == Read(Skip, [])
  {
    if line != "" { SkipsTheRest(line[1..]); }
  }

  /** The machine leaves a quote exactly where the line test says it closes. */
  lemma {:induction false} QuoteCloses(line: string, q: Quote)
    requires OneLine(line)
    ensures var r := Reads(if q == Single then InSingle else InDouble, line);
      && r.names == []
      && (if Closes(line, q) then r.state == Skip
          else if q == Single then r.state == InSingle else r.state == InDouble || r.state == Escaped)
    decreases |line|
  {
    if line != "" {
      var s := if q == Single then InSingle else InDouble;
      if line[0] == Mark(q) {
        SkipsTheRest(line[1..]);
      } else if q == Double && line[0] == '\\' {
        if |line| > 1 {
          assert line[1..][1..] == line[2..];
          QuoteCloses(line[2..], q);
        } else {
          assert line[1..] == "";
        }
      } else {
        QuoteCloses(line[1..], q);
      }
    }
  }

  lemma OneStep(s: State, text: string)
    requires text != ""
    ensures var one := Step(s, text[0]);
      var rest := Reads(one.state, text[1..]);
      Reads(s, text) == Read(rest.state, one.names + rest.names)
  {
  }

  lemma NothingRead(s: State)
    ensures Reads(s, "") == Read(s, [])
  {
  }

  /** The machine collects a name up to its `=`. */
  lemma {:induction false} NameCollects(name: string, line: string)
    requires OneLine(line)
    ensures var n := NameLength(line);
      Reads(Name(name), line) ==
        if n < |line| && line[n] == '=' then
          Read(Reads(First, line[n + 1..]).state, [name + line[..n]] + Reads(First, line[n + 1..]).names)
        else if n == |line| then Read(Name(name + line), []) else Read(Skip, [])
    decreases |line|
  {
    hide Reads;
    NothingRead(Name(name));
    if line != "" { OneStep(Name(name), line); }
    if line == "" {
      assert name + line == name;
    } else if line[0] == '=' {
      assert name + line[..0] == name;
    } else if NameChar(line[0]) {
      var n := NameLength(line[1..]);
      NameCollects(name + [line[0]], line[1..]);
      assert name + [line[0]] + line[1..] == name + line;
      if n < |line[1..]| {
        assert line[1..][n + 1..] == line[n + 2..];
        assert name + [line[0]] + line[1..][..n] == name + line[..n + 1];
      }
    } else {
      SkipsTheRest(line[1..]);
    }
  }

  /** The quote a state is inside. */
  function Open(s: State): Option<Quote> {
    if s == InSingle then Some(Single) else if s == InDouble || s == Escaped then Some(Double) else None
  }

  function Resume(found: Option<Quote>): State {
    if found.None? then Start else if found.value == Single then InSingle else InDouble
  }

  /** One line, and its line feed, through the machine does what the scanner does with a line it doesn't miss. */
  lemma LineAgrees(line: string, found: Option<Quote>)
    requires OneLine(line) && (found.None? ==> !Hides(line))
    ensures var r := Reads(Resume(found), line);
      && r.names == NamesOf(line, found)
      && Open(r.state) == OpenAfter(line, found)
      && Step(r.state, '\n') == Read(Resume(OpenAfter(line, found)), [])
  {
    if found.Some? {
      QuoteCloses(line, found.value);
    } else if line != "" {
      if Upper(line[0]) { SettingAgrees(line); } else { SkipsTheRest(line[1..]); }
    }
  }

  function QuoteLeft(value: string): Option<Quote> {
    if value == "" then None
    else if value[0] == '\'' then (if Closes(value[1..], Single) then None else Some(Single))
    else if value[0] == '"' then (if Closes(value[1..], Double) then None else Some(Double))
    else None
  }

  lemma ValueAgrees(value: string)
    requires OneLine(value)
    ensures var r := Reads(First, value);
      && r.names == [] && Open(r.state) == QuoteLeft(value)
      && Step(r.state, '\n') == Read(Resume(QuoteLeft(value)), [])
  {
    if value != "" {
      if value[0] == '\'' {
        QuoteCloses(value[1..], Single);
      } else if value[0] == '"' {
        QuoteCloses(value[1..], Double);
      } else {
        SkipsTheRest(value[1..]);
      }
    }
  }

  /** A line that starts as a setting goes through its name to its value; any other leaves no name. */
  lemma HeadReads(line: string)
    requires OneLine(line) && line != "" && Upper(line[0])
    ensures StartsSetting(line) ==>
      var value := Reads(First, line[NameLength(line) + 1..]);
      Reads(Start, line) == Read(value.state, [line[..NameLength(line)]] + value.names)
    ensures !StartsSetting(line) ==>
      var r := Reads(Start, line); r.names == [] && Open(r.state).None? && Step(r.state, '\n') == Read(Start, [])
  {
    hide Reads;
    OneStep(Start, line);
    var n, rest := NameLength(line), line[1..];
    NameCollects([line[0]], rest);
    assert NameLength(rest) == n - 1;
    if n < |line| {
      assert rest[n - 1] == line[n];
      assert rest[n..] == line[n + 1..];
      assert [line[0]] + rest[..n - 1] == line[..n];
    }
  }

  lemma SettingAgrees(line: string)
    requires OneLine(line) && !Hides(line) && line != "" && Upper(line[0])
    ensures var r := Reads(Start, line);
      && r.names == NamesOf(line, None)
      && Open(r.state) == OpenAfter(line, None)
      && Step(r.state, '\n') == Read(Resume(OpenAfter(line, None)), [])
  {
    hide Reads, QuoteLeft, NameLength;
    HeadReads(line);
    if StartsSetting(line) { ValueAgrees(line[NameLength(line) + 1..]); }
  }

  /** What the machine names in one line. */
  lemma MachineNames(line: string)
    requires OneLine(line)
    ensures Reads(Start, line).names == if StartsSetting(line) then [line[..NameLength(line)]] else []
  {
    hide Reads, QuoteLeft, NameLength;
    NothingRead(Start);
    if line != "" {
      if Upper(line[0]) {
        HeadReads(line);
        if StartsSetting(line) { ValueAgrees(line[NameLength(line) + 1..]); }
      } else {
        OneStep(Start, line);
        SkipsTheRest(line[1..]);
      }
    }
  }
}
