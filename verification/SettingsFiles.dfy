/** `.env` files as settings are written into them: what the scanner makes of each, and of line ends. */
module SettingsFiles {
  import opened Options
  import opened SettingsMachine
  import opened SettingsScan

  datatype Value = Bare(text: string) | SingleQuoted(text: string) | DoubleQuoted(text: string)

  datatype Setting = Setting(name: string, value: Value)

  /** A setting name, and a value its kind of quoting can carry. */
  predicate Writable(s: Setting) {
    && s.name != "" && Upper(s.name[0]) && (forall k :: 0 <= k < |s.name| ==> NameChar(s.name[k]))
    && match s.value
       case Bare(text) => OneLine(text) && (text == "" || (text[0] != '\'' && text[0] != '"'))
       case SingleQuoted(text) => '\'' !in text
       case DoubleQuoted(_) => true
  }

  function EscapedText(text: string): string {
    if text == "" then ""
    else (if text[0] == '"' || text[0] == '\\' then ['\\', text[0]] else [text[0]]) + EscapedText(text[1..])
  }

  function Written(v: Value): string {
    match v
    case Bare(text) => text
    case SingleQuoted(text) => "'" + text + "'"
    case DoubleQuoted(text) => "\"" + EscapedText(text) + "\""
  }

  datatype Ending = Unix | Windows

  function Feed(e: Ending): string { if e == Unix then "\n" else "\r\n" }

  function SettingText(s: Setting, e: Ending): string { s.name + "=" + (Written(s.value) + Feed(e)) }

  function File(settings: seq<Setting>, e: Ending): string {
    if settings == [] then "" else SettingText(settings[0], e) + File(settings[1..], e)
  }

  function SettingNames(settings: seq<Setting>): seq<string> {
    if settings == [] then [] else [settings[0].name] + SettingNames(settings[1..])
  }

  /** No terminator stands on the line the value begins on; its other lines may have any. */
  predicate Shown(s: Setting, e: Ending) {
    var text := Written(s.value) + Feed(e);
    forall k :: 0 <= k < LineEnd(text) ==> !Terminator(text[k])
  }

  /** The machine reads the text without ever standing at the head of a line outside quotes. */
  predicate Inside(s: State, text: string)
    decreases |text|
  {
    text == "" || (s != Start && Inside(Step(s, text[0]).state, text[1..]))
  }

  lemma {:induction false} InsideOn(s: State, a: string, b: string)
    requires Inside(s, a) && Inside(Reads(s, a).state, b)
    ensures Inside(s, a + b)
    decreases |a|
  {
    if a == "" {
      assert a + b == b;
    } else {
      assert (a + b)[1..] == a[1..] + b;
      InsideOn(Step(s, a[0]).state, a[1..], b);
    }
  }

  lemma {:induction false} HiddenInside(s: State, a: string, b: string)
    requires Inside(s, a)
    ensures NothingHidden(s, a + b) == NothingHidden(Reads(s, a).state, b)
    decreases |a|
  {
    if a == "" {
      assert a + b == b;
    } else {
      assert (a + b)[1..] == a[1..] + b;
      HiddenInside(Step(s, a[0]).state, a[1..], b);
    }
  }

  lemma {:induction false} SingleReads(text: string)
    requires '\'' !in text
    ensures Reads(InSingle, text + "'") == Read(Skip, []) && Inside(InSingle, text + "'")
  {
    if text != "" {
      assert (text + "'")[1..] == text[1..] + "'";
      SingleReads(text[1..]);
    } else {
      assert (text + "'") == "'";
    }
  }

  lemma {:induction false} DoubleReads(text: string)
    ensures Reads(InDouble, EscapedText(text) + "\"") == Read(Skip, []) && Inside(InDouble, EscapedText(text) + "\"")
  {
    var rest := if text == "" then "" else EscapedText(text[1..]) + "\"";
    if text == "" {
      assert EscapedText(text) + "\"" == "\"";
    } else {
      DoubleReads(text[1..]);
      if text[0] == '"' || text[0] == '\\' {
        assert EscapedText(text) + "\"" == ['\\', text[0]] + rest;
        assert (['\\', text[0]] + rest)[1..] == [text[0]] + rest;
        assert ([text[0]] + rest)[1..] == rest;
      } else {
        assert EscapedText(text) + "\"" == [text[0]] + rest;
        assert ([text[0]] + rest)[1..] == rest;
      }
    }
  }

  lemma {:induction false} SkipsInside(line: string)
    requires OneLine(line)
    ensures Inside(Skip, line)
  {
    if line != "" { SkipsInside(line[1..]); }
  }

  lemma ValueReads(s: Setting)
    requires Writable(s)
    ensures var r := Reads(First, Written(s.value));
      r.names == [] && (r.state == First || r.state == Skip) && Inside(First, Written(s.value))
  {
    hide Reads;
    var v := s.value;
    NothingRead(First);
    if Written(v) != "" { OneStep(First, Written(v)); }
    match v
    case Bare(text) => if text != "" { SkipsTheRest(text[1..]); SkipsInside(text[1..]); }
    case SingleQuoted(text) =>
      assert Written(v)[1..] == text + "'";
      SingleReads(text);
    case DoubleQuoted(text) =>
      assert Written(v)[1..] == EscapedText(text) + "\"";
      DoubleReads(text);
  }

  lemma FeedReads(s: State, e: Ending)
    requires s == First || s == Skip
    ensures Reads(s, Feed(e)) == Read(Start, []) && Inside(s, Feed(e))
  {
    assert "\r\n"[1..] == "\n";
  }

  lemma {:induction false} NameReads(done: string, name: string)
    requires forall k :: 0 <= k < |name| ==> NameChar(name[k])
    ensures Reads(Name(done), name + "=") == Read(First, [done + name]) && Inside(Name(done), name + "=")
    decreases |name|
  {
    if name == "" {
      assert name + "=" == "=" && done + name == done;
    } else {
      assert (name + "=")[1..] == name[1..] + "=";
      assert name[0] != '=';
      NameReads(done + [name[0]], name[1..]);
      assert done + [name[0]] + name[1..] == done + name;
    }
  }

  /** A setting's text takes the machine from Start to Start, past its name only. */
  lemma SettingReads(s: Setting, e: Ending)
    requires Writable(s)
    ensures var text := SettingText(s, e);
      && Reads(Start, text) == Read(Start, [s.name])
      && text != "" && Step(Start, text[0]) == Read(Name([s.name[0]]), []) && Inside(Name([s.name[0]]), text[1..])
  {
    hide Reads, Inside;
    var name, value, feed := s.name[1..] + "=", Written(s.value), Feed(e);
    var text, begun := SettingText(s, e), Name([s.name[0]]);
    assert text[1..] == name + (value + feed);
    NameReads([s.name[0]], s.name[1..]);
    assert [s.name[0]] + s.name[1..] == s.name;
    ValueReads(s);
    FeedReads(Reads(First, value).state, e);
    ReadsOn(First, value, feed);
    ReadsOn(begun, name, value + feed);
    OneStep(Start, text);
    InsideOn(First, value, feed);
    InsideOn(begun, name, value + feed);
  }

  lemma {:induction false} NameLengthIs(name: string, rest: string)
    requires forall k :: 0 <= k < |name| ==> NameChar(name[k])
    ensures NameLength(name + "=" + rest) == |name|
  {
    if name == "" {
      assert name + "=" + rest == "=" + rest;
    } else {
      assert (name + "=" + rest)[1..] == name[1..] + "=" + rest;
      NameLengthIs(name[1..], rest);
    }
  }

  lemma {:induction false} LineEndPast(head: string, text: string, more: string)
    requires OneLine(head) && LineEnd(text) < |text|
    ensures LineEnd(head + (text + more)) == |head| + LineEnd(text)
  {
    if head == "" {
      var n := LineEnd(text);
      LineEndOf(text[..n], text[n..] + more);
      assert head + (text + more) == text[..n] + (text[n..] + more);
    } else {
      assert (head + (text + more))[1..] == head[1..] + (text + more);
      LineEndPast(head[1..], text, more);
    }
  }

  lemma {:induction false} LineEndsBefore(text: string, k: nat)
    requires k < |text| && text[k] == '\n'
    ensures LineEnd(text) <= k
  {
    if text[0] != '\n' { LineEndsBefore(text[1..], k - 1); }
  }

  lemma HeadHides(name: string, value: string)
    requires name != "" && Upper(name[0]) && (forall k :: 0 <= k < |name| ==> NameChar(name[k]))
    ensures Hides(name + "=" + value) <==> exists k :: 0 <= k < |value| && Terminator(value[k])
  {
    var line := name + "=" + value;
    NameLengthIs(name, value);
    assert line[0] == name[0] && line[|name|] == '=';
    assert forall k :: 0 <= k < |value| ==> line[|name| + 1 + k] == value[k];
    hide NameLength;
    if Hides(line) {
      var k :| |name| < k < |line| && Terminator(line[k]);
      assert Terminator(value[k - |name| - 1]);
    }
  }

  /** The line a setting begins on is one the scanner misses exactly when it isn't shown. */
  lemma FirstLineHides(s: Setting, e: Ending, more: string)
    requires Writable(s)
    ensures var text := SettingText(s, e) + more;
      Hides(text[..LineEnd(text)]) <==> !Shown(s, e)
  {
    hide LineEnd, NameLength, Written, Terminator, Hides;
    var head, body := s.name + "=", Written(s.value) + Feed(e);
    var text, n := SettingText(s, e) + more, LineEnd(body);
    LineEndsBefore(body, |body| - 1);
    assert text == head + (body + more);
    LineEndPast(head, body, more);
    assert text[..LineEnd(text)] == s.name + "=" + body[..n];
    HeadHides(s.name, body[..n]);
  }

  lemma SettingHides(s: Setting, e: Ending, more: string)
    requires Writable(s)
    ensures NothingHidden(Start, SettingText(s, e) + more) <==> Shown(s, e) && NothingHidden(Start, more)
  {
    hide Hides, Shown, Reads, Inside, SettingText;
    var text := SettingText(s, e);
    var begun := Name([s.name[0]]);
    SettingReads(s, e);
    FirstLineHides(s, e, more);
    OneStep(Start, text);
    HiddenInside(begun, text[1..], more);
    assert (text + more)[1..] == text[1..] + more && (text + more)[0] == text[0];
  }

  ghost predicate AllWritable(settings: seq<Setting>) { forall k :: 0 <= k < |settings| ==> Writable(settings[k]) }

  ghost predicate AllShown(settings: seq<Setting>, e: Ending) {
    forall k :: 0 <= k < |settings| ==> Shown(settings[k], e)
  }

  lemma {:induction false} FileReads(settings: seq<Setting>, e: Ending)
    requires AllWritable(settings)
    ensures Reads(Start, File(settings, e)) == Read(Start, SettingNames(settings))
    ensures NothingHidden(Start, File(settings, e)) <==> AllShown(settings, e)
  {
    hide Writable, Shown, Reads, NothingHidden, SettingText;
    if settings == [] {
      NothingLeft(Start, 1);
      NothingRead(Start);
    } else {
      var first, more := SettingText(settings[0], e), File(settings[1..], e);
      SettingReads(settings[0], e);
      FileReads(settings[1..], e);
      ReadsOn(Start, first, more);
      SettingHides(settings[0], e, more);
    }
  }

  /**
   * For any settings, scanner and machine name the same on every line if and only if no value has a
   * terminator on the line it begins on; then the scanner returns exactly the settings' names, in order,
   * and never text from inside a value.
   */
  lemma ScanReturnsTheNames(settings: seq<Setting>, e: Ending)
    requires AllWritable(settings)
    ensures var file := File(settings, e);
      && (ScanAt(Lines(file), None, 1) == ReadsAt(Start, file, 1) <==> AllShown(settings, e))
      && (AllShown(settings, e) ==> Scan(Lines(file), None) == SettingNames(settings))
  {
    hide AllShown, Reads, ReadsAt, Scan, ScanAt, NothingHidden;
    var file := File(settings, e);
    FileReads(settings, e);
    TerminatorsHideASetting(file, None, 1);
    if AllShown(settings, e) { ScanIsTheMachine(file, None); }
  }

  /** Every line feed stands behind a carriage return, and the last line is ended too. */
  predicate WindowsEnds(text: string) {
    && (forall k :: 0 <= k < |text| && text[k] == '\n' ==> k > 0 && text[k - 1] == '\r')
    && (text == "" || text[|text| - 1] == '\n')
  }

  /** With Windows line ends the scanner names nothing at all, whatever the text. */
  lemma {:induction false} WindowsEndsHideAll(text: string)
    requires WindowsEnds(text)
    ensures Scan(Lines(text), None) == []
    decreases |text|
  {
    hide Scan, Lines;
    var n := LineEnd(text);
    LinesSplit(text);
    if n == |text| {
      assert text[..n] == text && text == "";
      ScanOne("", [], None);
      ScanNone(None);
      assert [""] + [] == [""];
    } else {
      var line, rest := text[..n], text[n + 1..];
      assert line[n - 1] == '\r';
      assert NamesOf(line, None) == [] && OpenAfter(line, None) == None;
      assert forall k :: 0 <= k < |rest| ==> rest[k] == text[n + 1 + k];
      assert rest != "" ==> rest[|rest| - 1] == text[|text| - 1];
      WindowsEndsHideAll(rest);
      ScanOne(line, Lines(rest), None);
    }
  }

  /** So of a file of settings with Windows line ends the scanner names none, and the machine every one. */
  lemma CarriageReturnsHideEverySetting(settings: seq<Setting>)
    requires AllWritable(settings) && WindowsEnds(File(settings, Windows))
    ensures var file := File(settings, Windows);
      Scan(Lines(file), None) == [] && Reads(Start, file).names == SettingNames(settings)
  {
    FileReads(settings, Windows);
    WindowsEndsHideAll(File(settings, Windows));
  }

  lemma LinesOf(line: string, rest: string)
    requires OneLine(line)
    ensures Lines(line + "\n" + rest) == [line] + Lines(rest)
  {
    var text := line + "\n" + rest;
    assert text == line + ("\n" + rest);
    LineEndOf(line, "\n" + rest);
    LinesSplit(text);
    assert text[..|line|] == line && text[|line| + 1..] == rest;
  }

  /** Behind a line the scanner misses it reads on outside quotes, even when the line opens one. */
  lemma MissedLineOpensNothing(line: string, rest: string)
    requires OneLine(line) && Hides(line)
    ensures Scan(Lines(line + "\n" + rest), None) == Scan(Lines(rest), None)
  {
    LinesOf(line, rest);
    ScanOne(line, Lines(rest), None);
    ScannerMisses(line);
  }

  lemma {:induction false} NothingToEscape(text: string)
    requires forall k :: 0 <= k < |text| ==> text[k] != '"' && text[k] != '\\'
    ensures EscapedText(text) == text
  {
    if text != "" { NothingToEscape(text[1..]); }
  }

  lemma ReadsOneFile(ca: Setting, b: Setting)
    requires Writable(ca) && Writable(b)
    ensures Reads(Start, SettingText(ca, Unix) + SettingText(b, Unix)).names == [ca.name, b.name]
  {
    hide SettingText, Writable, Reads;
    var text := SettingText(ca, Unix) + SettingText(b, Unix);
    SettingReads(ca, Unix);
    SettingReads(b, Unix);
    ReadsOn(Start, SettingText(ca, Unix), SettingText(b, Unix));
  }

  const OPENING := "CA=\"a\r"
  const INNER := "F='b"
  const CLOSING := "c\""
  const BEHIND := "B=1"

  lemma OpenedValueReads()
    ensures Reads(Start, OPENING + "\n" + (INNER + "\n" + (CLOSING + "\n" + (BEHIND + "\n" + "")))).names == ["CA", "B"]
  {
    hide Reads, EscapedText;
    var inside := "a\r\nF='b\nc";
    var ca, b := Setting("CA", DoubleQuoted(inside)), Setting("B", Bare("1"));
    ReadsOneFile(ca, b);
    NothingToEscape(inside);
    assert SettingText(ca, Unix) == OPENING + "\n" + (INNER + "\n" + (CLOSING + "\n"));
    assert SettingText(b, Unix) == BEHIND + "\n" + "";
    assert OPENING + "\n" + (INNER + "\n" + (CLOSING + "\n" + (BEHIND + "\n" + "")))
      == OPENING + "\n" + (INNER + "\n" + (CLOSING + "\n")) + (BEHIND + "\n" + "");
  }

  lemma InnerOpens()
    ensures NamesOf(INNER, None) == ["F"] && OpenAfter(INNER, None) == Some(Single)
  {
    assert INNER[1..] == "='b" && INNER[2..] == "'b" && "'b"[1..] == "b" && "b"[1..] == "";
    assert NameLength(INNER[1..]) == 0 && NameLength(INNER) == 1 && INNER[..1] == "F";
  }

  lemma OthersStayInside()
    ensures !Closes(CLOSING, Single) && !Closes(BEHIND, Single) && !Closes("", Single)
  {
    assert CLOSING[1..] == "\"" && "\""[1..] == "";
    assert BEHIND[1..] == "=1" && "=1"[1..] == "1" && "1"[1..] == "";
  }

  lemma OpeningHides()
    ensures Hides(OPENING)
  {
    assert OPENING[1..] == "A=\"a\r" && "A=\"a\r"[1..] == "=\"a\r";
    assert NameLength("=\"a\r") == 0 && NameLength(OPENING) == 2;
    assert Terminator(OPENING[5]);
  }

  /** One line read and skipped inside a single-quoted value. */
  lemma SkippedLine(line: string, rest: string)
    requires OneLine(line) && !Closes(line, Single)
    ensures Scan(Lines(line + "\n" + rest), Some(Single)) == Scan(Lines(rest), Some(Single))
  {
    LinesOf(line, rest);
    ScanOne(line, Lines(rest), Some(Single));
  }

  /**
   * A carriage return behind a value's opening quote: the scanner names F, which is text from inside CA's
   * value, and misses both CA and B, whose own line has no terminator.
   */
  lemma ValueIsReadAsSettings()
    ensures var text := OPENING + "\n" + (INNER + "\n" + (CLOSING + "\n" + (BEHIND + "\n" + "")));
      Reads(Start, text).names == ["CA", "B"] && Scan(Lines(text), None) == ["F"]
  {
    hide Reads, Scan, Lines, Hides, Closes, NamesOf, OpenAfter;
    OpenedValueReads();
    OpeningHides();
    InnerOpens();
    OthersStayInside();
    var behind := BEHIND + "\n" + "";
    var closing := CLOSING + "\n" + behind;
    MissedLineOpensNothing(OPENING, INNER + "\n" + closing);
    LinesOf(INNER, closing);
    ScanOne(INNER, Lines(closing), None);
    SkippedLine(CLOSING, behind);
    SkippedLine(BEHIND, "");
    EmptyInside();
  }

  lemma EmptyInside()
    ensures Scan(Lines(""), Some(Single)) == []
  {
    assert [""][1..] == [];
  }
}
