/**
 * What the engine's own JSON.parse makes of one string or one primitive, against the grammar: the
 * reader hands it exactly those slices.
 */
module JsonScan {
  import opened Options
  import opened JsonGrammar

  /** A string's meaning from the units between its quotes, or None where it is malformed. */
  function Decoded(body: Text): Option<Text> {
    if body == [] then Some([])
    else if body[0] == QUOTE || body[0] < 0x20 then None
    else if body[0] != BACKSLASH then Prepend(body[0], Decoded(body[1..]))
    else if |body| >= 2 && body[1] in SHORT_ESCAPES then
      Prepend(SHORT_ESCAPES[body[1]], Decoded(body[2..]))
    else if |body| >= 6 && body[1] == LETTER_U && Hex(body[2], body[3], body[4], body[5]).Valid() then
      Prepend(Hex(body[2], body[3], body[4], body[5]).Meaning(), Decoded(body[6..]))
    else None
  }

  function Prepend(u: Unit, rest: Option<Text>): Option<Text> {
    if rest.Some? then Some([u] + rest.value) else None
  }

  lemma DecodesOne(c: Char, rest: Text)
    requires c.Valid()
    ensures Decoded(c.Print() + rest) == Prepend(c.Meaning(), Decoded(rest))
  {
    var body := c.Print() + rest;
    assert body[|c.Print()|..] == rest;
  }

  lemma {:induction false} DecodesPrinted(cs: Chars)
    requires ValidChars(cs)
    ensures Decoded(PrintChars(cs)) == Some(Meanings(cs))
  {
    if cs != [] {
      DecodesPrinted(cs[1..]);
      DecodesOne(cs[0], PrintChars(cs[1..]));
      hide Decoded;
    }
  }

  lemma {:induction false} PrintedFrom(body: Text) returns (cs: Chars)
    requires Decoded(body).Some?
    ensures ValidChars(cs) && PrintChars(cs) == body && Meanings(cs) == Decoded(body).value
  {
    if body == [] {
      cs := [];
    } else {
      var c :=
        if body[0] != BACKSLASH then Plain(body[0])
        else if body[1] in SHORT_ESCAPES then Short(body[1])
        else Hex(body[2], body[3], body[4], body[5]);
      var rest := PrintedFrom(body[|c.Print()|..]);
      cs := [c] + rest;
      assert cs[1..] == rest;
      assert body == c.Print() + body[|c.Print()|..];
    }
  }

  /** How many digits a text starts with. */
  function Leading(t: Text): (n: nat)
    ensures n <= |t| && Digits(t[..n]) && (n < |t| ==> !IsDigit(t[n]))
  {
    if t == [] || !IsDigit(t[0]) then 0 else 1 + Leading(t[1..])
  }

  lemma {:induction false} LeadingIs(digits: Text, rest: Text)
    requires Digits(digits) && (rest == [] || !IsDigit(rest[0]))
    ensures Leading(digits + rest) == |digits|
  {
    if digits == [] {
      assert digits + rest == rest;
    } else {
      LeadingIs(digits[1..], rest);
      assert (digits + rest)[1..] == digits[1..] + rest;
    }
  }

  /** An exponent that is the whole text. */
  function ReadExponent(t: Text): Option<Exponent> {
    if t == [] || (t[0] != 0x65 && t[0] != 0x45) then None
    else
      var signed := |t| > 1 && (t[1] == PLUS || t[1] == MINUS);
      var digits := if signed then t[2..] else t[1..];
      if digits == [] || Leading(digits) < |digits| then None
      else Some(Exponent(t[0], if signed then Some(t[1]) else None, digits))
  }

  /** A fraction and exponent, both optional, that are the whole text. */
  function ReadTail(t: Text): Option<(Option<Text>, Option<Exponent>)> {
    if t == [] then Some((None, None))
    else if t[0] == POINT then
      var n := Leading(t[1..]);
      var rest := t[1 + n..];
      if n == 0 then None
      else if rest == [] then Some((Some(t[1..1 + n]), None))
      else
        var e := ReadExponent(rest);
        if e.None? then None else Some((Some(t[1..1 + n]), e))
    else
      var e := ReadExponent(t);
      if e.None? then None else Some((None, e))
  }

  function ReadUnsigned(minus: bool, body: Text): Option<Number> {
    var n := Leading(body);
    if n == 0 || (body[0] == ZERO && n > 1) then None
    else
      var tail := ReadTail(body[n..]);
      if tail.None? then None else Some(Number(minus, body[..n], tail.value.0, tail.value.1))
  }

  /** A number that is the whole text. */
  function ReadNumber(t: Text): Option<Number> {
    if t != [] && t[0] == MINUS then ReadUnsigned(true, t[1..]) else ReadUnsigned(false, t)
  }

  function TailText(fraction: Option<Text>, exponent: Option<Exponent>): Text {
    (if fraction.Some? then [POINT] + fraction.value else [])
    + (if exponent.Some? then exponent.value.Print() else [])
  }

  lemma ReadExponentSound(t: Text)
    requires ReadExponent(t).Some?
    ensures ReadExponent(t).value.Valid() && ReadExponent(t).value.Print() == t
  {
  }

  lemma ReadExponentComplete(e: Exponent)
    requires e.Valid()
    ensures ReadExponent(e.Print()) == Some(e)
  {
    var t := e.Print();
    var digits := if e.sign.Some? then t[2..] else t[1..];
    assert digits == e.digits;
    LeadingIs(e.digits, []);
    assert e.digits + [] == e.digits;
  }

  lemma ReadTailSound(t: Text)
    requires ReadTail(t).Some?
    ensures var (fraction, exponent) := ReadTail(t).value;
      && TailText(fraction, exponent) == t
      && (fraction.Some? ==> fraction.value != [] && Digits(fraction.value))
      && (exponent.Some? ==> exponent.value.Valid())
  {
    if t != [] && t[0] == POINT {
      var n := Leading(t[1..]);
      assert t[1..][..n] == t[1..1 + n];
      assert t == [POINT] + t[1..1 + n] + t[1 + n..];
      if t[1 + n..] != [] { ReadExponentSound(t[1 + n..]); }
    } else if t != [] {
      ReadExponentSound(t);
    }
  }

  lemma ReadTailComplete(fraction: Option<Text>, exponent: Option<Exponent>)
    requires fraction.Some? ==> fraction.value != [] && Digits(fraction.value)
    requires exponent.Some? ==> exponent.value.Valid()
    ensures ReadTail(TailText(fraction, exponent)) == Some((fraction, exponent))
  {
    var t := TailText(fraction, exponent);
    var e := if exponent.Some? then exponent.value.Print() else [];
    if exponent.Some? { ReadExponentComplete(exponent.value); }
    if fraction.Some? {
      LeadingIs(fraction.value, e);
      assert t[1..] == fraction.value + e;
      assert t[1..1 + |fraction.value|] == fraction.value;
      assert t[1 + |fraction.value|..] == e;
    } else {
      assert t == e;
    }
  }

  function Sign(minus: bool): Text { if minus then [MINUS] else [] }

  lemma PrintSplits(number: Number)
    ensures number.Print() == Sign(number.minus) + (number.whole + TailText(number.fraction, number.exponent))
  {
    var e := if number.exponent.Some? then number.exponent.value.Print() else [];
    var f := if number.fraction.Some? then [POINT] + number.fraction.value else [];
    Associates(Sign(number.minus), number.whole, f, e);
  }

  lemma Associates(a: Text, b: Text, c: Text, d: Text)
    ensures a + b + c + d == a + (b + (c + d))
  {
  }

  lemma UnsignedSound(minus: bool, body: Text)
    requires ReadUnsigned(minus, body).Some?
    ensures var number := ReadUnsigned(minus, body).value;
      && number.Valid() && number.minus == minus
      && number.whole + TailText(number.fraction, number.exponent) == body
  {
    var n := Leading(body);
    ReadTailSound(body[n..]);
    assert body == body[..n] + body[n..];
  }

  lemma UnsignedComplete(number: Number)
    requires number.Valid()
    ensures ReadUnsigned(number.minus, number.whole + TailText(number.fraction, number.exponent))
         == Some(number)
  {
    var tail := TailText(number.fraction, number.exponent);
    var body := number.whole + tail;
    LeadingIs(number.whole, tail);
    assert body[..|number.whole|] == number.whole && body[|number.whole|..] == tail;
    ReadTailComplete(number.fraction, number.exponent);
  }

  /** Reading a primitive as a number is the grammar's number, both ways. */
  lemma NumberSound(t: Text)
    requires ReadNumber(t).Some?
    ensures ReadNumber(t).value.Valid() && ReadNumber(t).value.Print() == t
  {
    var minus := t != [] && t[0] == MINUS;
    var body := if minus then t[1..] else t;
    UnsignedSound(minus, body);
    PrintSplits(ReadUnsigned(minus, body).value);
    assert t == Sign(minus) + body;
  }

  lemma NumberComplete(number: Number)
    requires number.Valid()
    ensures ReadNumber(number.Print()) == Some(number)
  {
    var body := number.whole + TailText(number.fraction, number.exponent);
    var t := Sign(number.minus) + body;
    PrintSplits(number);
    UnsignedComplete(number);
    assert body[0] == number.whole[0];
    assert if number.minus then t[0] == MINUS && t[1..] == body else t == body;
  }

  /** One primitive: a literal, or a number that reads as finite. */
  predicate Primitive(t: Text) {
    t == NULL_TEXT || t == TRUE_TEXT || t == FALSE_TEXT
    || (ReadNumber(t).Some? && (NumberSound(t); ReadNumber(t).value.Finite()))
  }

  /** The hex digit for a value below sixteen, in either case. */
  function HexDigit(v: nat, upper: bool): Unit
    requires v < 16
  {
    if v < 10 then 0x30 + v else (if upper then 0x41 else 0x61) + v - 10
  }

  lemma HexDigitReads(v: nat, upper: bool)
    requires v < 16
    ensures IsHex(HexDigit(v, upper)) && HexValue(HexDigit(v, upper)) == v
  {
  }

  /** A hex escape means the number its four digits spell, in upper or lower case. */
  lemma HexEscapeSpells(a: nat, b: nat, c: nat, d: nat, upper: bool)
    requires a < 16 && b < 16 && c < 16 && d < 16
    ensures var spelt := Char.Hex(HexDigit(a, upper), HexDigit(b, upper), HexDigit(c, upper), HexDigit(d, upper));
      spelt.Valid() && spelt.Meaning() == ((a * 16 + b) * 16 + c) * 16 + d
  {
    HexDigitReads(a, upper);
    HexDigitReads(b, upper);
    HexDigitReads(c, upper);
    HexDigitReads(d, upper);
  }
}
