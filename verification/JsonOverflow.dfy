/** Numbers RFC 8259 allows and the walker refuses: those no double holds. */
module JsonOverflow {
  import opened Options
  import opened JsonGrammar
  import opened JsonScan
  import opened JsonWalk
  import opened JsonCompleteness
  import opened JsonSoundness

  const WORD: nat := 0x1_0000_0000_0000_0000

  function Words(k: nat): nat { if k == 0 then 1 else WORD * Words(k - 1) }

  lemma {:induction false} TenToSum(a: nat, b: nat)
    ensures TenTo(a + b) == TenTo(a) * TenTo(b)
  {
    if a > 0 { TenToSum(a - 1, b); }
  }

  lemma Ten20()
    ensures TenTo(20) >= WORD
  {
    assert TenTo(5) == 100000;
    TenToSum(5, 5);
    TenToSum(10, 10);
    assert TenTo(10) == 10000000000;
  }

  lemma {:induction false} TenToWords(k: nat)
    ensures TenTo(20 * k) >= Words(k)
  {
    if k > 0 {
      TenToWords(k - 1);
      Ten20();
      TenToSum(20, 20 * (k - 1));
      Product(TenTo(20), WORD, TenTo(20 * (k - 1)), Words(k - 1));
    }
  }

  lemma Product(a: nat, b: nat, c: nat, d: nat)
    requires a >= b && c >= d
    ensures a * c >= b * d
  {
    assert a * c >= b * c >= b * d;
  }

  lemma OverflowFits()
    ensures OVERFLOW <= Words(16)
  {
    assert Words(4) == WORD * WORD * WORD * WORD;
    assert Words(8) == WORD * WORD * WORD * WORD * Words(4);
    assert Words(12) == WORD * WORD * WORD * WORD * Words(8);
    assert Words(16) == WORD * WORD * WORD * WORD * Words(12);
  }

  lemma {:induction false} TenToGrows(a: nat, b: nat)
    requires a <= b
    ensures TenTo(a) <= TenTo(b)
  {
    if a < b { TenToGrows(a, b - 1); }
  }

  /** A number is accepted alone exactly when a double holds it. */
  lemma NumberAloneIsAccepted(n: Number)
    requires n.Valid()
    ensures Accepts(n.Print()) <==> n.Finite()
  {
    hide ReadNumber, WalkItems, WalkMembers, ScanString;
    var t := n.Print();
    NumberUnits(n);
    NumberComplete(n);
    PrimitiveLengthIs(t, []);
    assert t + [] == t && t[..|t|] == t && t[|t|..] == [];
    assert SkipBlanks(t) == t;
    NumberIsNoLiteral(n);
    hide Number.Finite, Number.Print;
    assert Primitive(t) <==> n.Finite();
  }

  lemma NumberIsNoLiteral(n: Number)
    requires n.Valid()
    ensures n.Print() != NULL_TEXT && n.Print() != TRUE_TEXT && n.Print() != FALSE_TEXT
  {
    assert n.Print()[0] == if n.minus then MINUS else n.whole[0];
  }

  /** The text 1e999. */
  const HUGE: Text := [0x31, 0x65, 0x39, 0x39, 0x39]

  /** It is a document of RFC 8259, and the walker refuses it. */
  lemma HugeIsRefused()
    ensures exists v: Value :: Document(HUGE, [], v, [])
    ensures !Accepts(HUGE)
  {
    var n := Number(false, [0x31], None, Some(Exponent(0x65, None, [0x39, 0x39, 0x39])));
    var v := Num(n);
    assert n.Valid();
    assert n.Print() == HUGE;
    assert Document(HUGE, [], v, []);
    HugeOverflows(n);
    NumberAloneIsAccepted(n);
  }

  lemma HugeOverflows(n: Number)
    requires n == Number(false, [0x31], None, Some(Exponent(0x65, None, [0x39, 0x39, 0x39])))
    ensures n.Valid() && !n.Finite()
  {
    var e: Text := [0x39, 0x39, 0x39];
    assert e[..2][..1] == [0x39] && e[..2][..1][..0] == [];
    assert Natural(e[..2][..1]) == 9;
    assert Natural(e[..2]) == 99;
    assert Natural(e) == 999;
    var one: Text := [0x31];
    assert one + [] == one && one[..0] == [];
    assert Natural(one) == 1;
    OverflowFits();
    TenToWords(16);
    TenToGrows(320, 999);
  }
}
