/**
 * JSON texts as RFC 8259 writes them, over UTF-16 code units: a value with every blank and escape
 * it is printed with, and what it means.
 */
module JsonGrammar {
  import opened Options

  type Unit = u: int | 0 <= u < 0x1_0000 witness 0
  type Text = seq<Unit>

  const QUOTE: Unit := 0x22
  const PLUS: Unit := 0x2B
  const COMMA: Unit := 0x2C
  const MINUS: Unit := 0x2D
  const POINT: Unit := 0x2E
  const ZERO: Unit := 0x30
  const COLON: Unit := 0x3A
  const LEFT_BRACKET: Unit := 0x5B
  const BACKSLASH: Unit := 0x5C
  const RIGHT_BRACKET: Unit := 0x5D
  const LETTER_U: Unit := 0x75
  const LEFT_BRACE: Unit := 0x7B
  const RIGHT_BRACE: Unit := 0x7D

  const NULL_TEXT: Text := [0x6E, 0x75, 0x6C, 0x6C]
  const TRUE_TEXT: Text := [0x74, 0x72, 0x75, 0x65]
  const FALSE_TEXT: Text := [0x66, 0x61, 0x6C, 0x73, 0x65]

  /** Section 2: space, horizontal tab, line feed, carriage return. */
  predicate IsBlank(u: Unit) { u == 0x20 || u == 0x09 || u == 0x0A || u == 0x0D }

  predicate Blanks(t: Text) { forall k :: 0 <= k < |t| ==> IsBlank(t[k]) }

  predicate IsDigit(u: Unit) { 0x30 <= u <= 0x39 }

  predicate Digits(t: Text) { forall k :: 0 <= k < |t| ==> IsDigit(t[k]) }

  predicate IsHex(u: Unit) { IsDigit(u) || 0x41 <= u <= 0x46 || 0x61 <= u <= 0x66 }

  function HexValue(u: Unit): (r: nat)
    requires IsHex(u)
    ensures r < 16
  {
    if IsDigit(u) then u - 0x30 else if u <= 0x46 then u - 0x37 else u - 0x57
  }

  /** The letters of section 7's two-unit escapes, and what each stands for. */
  const SHORT_ESCAPES: map<Unit, Unit> := map[
    0x22 := 0x22, 0x5C := 0x5C, 0x2F := 0x2F,
    0x62 := 0x08, 0x66 := 0x0C, 0x6E := 0x0A, 0x72 := 0x0D, 0x74 := 0x09]

  /** One character of a string, as written. */
  datatype Char =
    | Plain(unit: Unit)
    | Short(letter: Unit)
    | Hex(a: Unit, b: Unit, c: Unit, d: Unit)
  {
    predicate Valid() {
      match this
      case Plain(u) => u >= 0x20 && u != QUOTE && u != BACKSLASH
      case Short(letter) => letter in SHORT_ESCAPES
      case Hex(a, b, c, d) => IsHex(a) && IsHex(b) && IsHex(c) && IsHex(d)
    }

    function Print(): Text {
      match this
      case Plain(u) => [u]
      case Short(letter) => [BACKSLASH, letter]
      case Hex(a, b, c, d) => [BACKSLASH, LETTER_U, a, b, c, d]
    }

    function Meaning(): Unit
      requires Valid()
    {
      match this
      case Plain(u) => u
      case Short(letter) => SHORT_ESCAPES[letter]
      case Hex(a, b, c, d) =>
        0x1000 * HexValue(a) + 0x100 * HexValue(b) + 0x10 * HexValue(c) + HexValue(d)
    }
  }

  type Chars = seq<Char>

  predicate ValidChars(cs: Chars) { forall k :: 0 <= k < |cs| ==> cs[k].Valid() }

  function PrintChars(cs: Chars): Text {
    if cs == [] then [] else cs[0].Print() + PrintChars(cs[1..])
  }

  function Meanings(cs: Chars): Text
    requires ValidChars(cs)
  {
    if cs == [] then [] else [cs[0].Meaning()] + Meanings(cs[1..])
  }

  function PrintString(cs: Chars): Text { [QUOTE] + PrintChars(cs) + [QUOTE] }

  /** Section 6: an exponent's letter, optional sign and digits. */
  datatype Exponent = Exponent(letter: Unit, sign: Option<Unit>, digits: Text)
  {
    predicate Valid() {
      && (letter == 0x65 || letter == 0x45)
      && (sign.Some? ==> sign.value == PLUS || sign.value == MINUS)
      && digits != [] && Digits(digits)
    }

    function Print(): Text {
      [letter] + (if sign.Some? then [sign.value] else []) + digits
    }
  }

  datatype Number = Number(minus: bool, whole: Text, fraction: Option<Text>, exponent: Option<Exponent>)
  {
    predicate Valid() {
      && whole != [] && Digits(whole) && (whole[0] == ZERO ==> |whole| == 1)
      && (fraction.Some? ==> fraction.value != [] && Digits(fraction.value))
      && (exponent.Some? ==> exponent.value.Valid())
    }

    function Print(): Text {
      (if minus then [MINUS] else []) + whole
      + (if fraction.Some? then [POINT] + fraction.value else [])
      + (if exponent.Some? then exponent.value.Print() else [])
    }

    /** The number is this significand times ten to this power, sign aside. */
    function Significand(): nat
      requires Valid()
    {
      Natural(whole + if fraction.Some? then fraction.value else [])
    }

    function Power(): int
      requires Valid()
    {
      var places := if fraction.Some? then |fraction.value| else 0;
      if exponent.None? then -places
      else if exponent.value.sign == Some(MINUS) then 0 - Natural(exponent.value.digits) - places
      else Natural(exponent.value.digits) - places
    }

    /** It reads as an IEEE double that is not an infinity. */
    predicate Finite()
      requires Valid()
    {
      if Power() >= 0 then Significand() * TenTo(Power()) < OVERFLOW
      else Significand() < OVERFLOW * TenTo(-Power())
    }
  }

  function Natural(digits: Text): nat
    requires Digits(digits)
  {
    if digits == [] then 0 else 10 * Natural(digits[..|digits| - 1]) + digits[|digits| - 1] - 0x30
  }

  function TenTo(e: nat): nat { if e == 0 then 1 else 10 * TenTo(e - 1) }

  /** 2^1024 - 2^970: the least magnitude that rounds to an infinite double. */
  const OVERFLOW: nat :=
    0xFFFFFFFFFFFFFC00000000000000000000000000000000000000000000000000000000000000000000000000000000000000000000000000000000000000000000000000000000000000000000000000000000000000000000000000000000000000000000000000000000000000000000000000000000000000000000000000

  /**
   * A value as printed, blanks inside it included: `gap` stands inside an empty container only, and
   * each element or member carries the blanks around it.
   */
  datatype Value =
    | Literal(text: Text)
    | Num(number: Number)
    | Str(chars: Chars)
    | Array(gap: Text, items: Items)
    | Object(gap: Text, members: Members)

  datatype Items = NoItems | Item(lead: Text, value: Value, trail: Text, rest: Items)

  datatype Members =
    | NoMembers
    | Member(lead: Text, name: Chars, mid: Text, gap: Text, value: Value, trail: Text, rest: Members)

  function Print(v: Value): Text {
    match v
    case Literal(text) => text
    case Num(number) => number.Print()
    case Str(chars) => PrintString(chars)
    case Array(gap, items) =>
      [LEFT_BRACKET] + (if items.NoItems? then gap else PrintItems(items)) + [RIGHT_BRACKET]
    case Object(gap, members) =>
      [LEFT_BRACE] + (if members.NoMembers? then gap else PrintMembers(members)) + [RIGHT_BRACE]
  }

  function PrintItems(items: Items): Text {
    match items
    case NoItems => []
    case Item(lead, value, trail, rest) =>
      lead + Print(value) + trail + (if rest.NoItems? then [] else [COMMA] + PrintItems(rest))
  }

  function PrintMembers(members: Members): Text {
    match members
    case NoMembers => []
    case Member(lead, name, mid, gap, value, trail, rest) =>
      lead + PrintString(name) + mid + [COLON] + gap + Print(value) + trail
      + (if rest.NoMembers? then [] else [COMMA] + PrintMembers(rest))
  }

  /** Sections 3 to 7: the value is one RFC 8259 allows. */
  predicate Valid(v: Value) {
    match v
    case Literal(text) => text == NULL_TEXT || text == TRUE_TEXT || text == FALSE_TEXT
    case Num(number) => number.Valid()
    case Str(chars) => ValidChars(chars)
    case Array(gap, items) => Blanks(gap) && ValidItems(items)
    case Object(gap, members) => Blanks(gap) && ValidMembers(members)
  }

  predicate ValidItems(items: Items) {
    items.NoItems?
    || (Blanks(items.lead) && Valid(items.value) && Blanks(items.trail) && ValidItems(items.rest))
  }

  predicate ValidMembers(members: Members) {
    members.NoMembers?
    || (&& Blanks(members.lead) && ValidChars(members.name) && Blanks(members.mid)
        && Blanks(members.gap) && Valid(members.value) && Blanks(members.trail)
        && ValidMembers(members.rest))
  }

  /** What the gate asks beyond the grammar: finite numbers, and distinct decoded names everywhere. */
  predicate Plainly(v: Value)
    requires Valid(v)
  {
    match v
    case Literal(_) => true
    case Num(number) => number.Finite()
    case Str(_) => true
    case Array(_, items) => PlainlyItems(items)
    case Object(_, members) => Distinct(Names(members)) && PlainlyMembers(members)
  }

  predicate PlainlyItems(items: Items)
    requires ValidItems(items)
  {
    items.NoItems? || (Plainly(items.value) && PlainlyItems(items.rest))
  }

  predicate PlainlyMembers(members: Members)
    requires ValidMembers(members)
  {
    members.NoMembers? || (Plainly(members.value) && PlainlyMembers(members.rest))
  }

  /** An object's decoded names, in order. */
  function Names(members: Members): seq<Text>
    requires ValidMembers(members)
  {
    if members.NoMembers? then [] else [Meanings(members.name)] + Names(members.rest)
  }

  predicate Distinct(names: seq<Text>) {
    forall i, j :: 0 <= i < j < |names| ==> names[i] != names[j]
  }

  /** How many values a value holds, itself included. */
  function Count(v: Value): nat {
    match v
    case Array(_, items) => 1 + CountItems(items)
    case Object(_, members) => 1 + CountMembers(members)
    case _ => 1
  }

  function CountItems(items: Items): nat {
    if items.NoItems? then 0 else Count(items.value) + CountItems(items.rest)
  }

  function CountMembers(members: Members): nat {
    if members.NoMembers? then 0 else Count(members.value) + CountMembers(members.rest)
  }

  function Max(a: nat, b: nat): nat { if a < b then b else a }

  /** How many containers the deepest value lies in. */
  function Depth(v: Value): nat {
    match v
    case Array(_, items) => DepthItems(items)
    case Object(_, members) => DepthMembers(members)
    case _ => 0
  }

  function DepthItems(items: Items): nat {
    if items.NoItems? then 0 else Max(1 + Depth(items.value), DepthItems(items.rest))
  }

  function DepthMembers(members: Members): nat {
    if members.NoMembers? then 0 else Max(1 + Depth(members.value), DepthMembers(members.rest))
  }
}
