/** `/ledger history`: newest-first pages over an account's entry numbers, which may have gaps. */
module LedgerPages {
  import opened Options

  const PAGE := 10

  ghost predicate Ascending(numbers: seq<nat>) {
    forall i, j :: 0 <= i < j < |numbers| ==> numbers[i] < numbers[j]
  }

  /** The rows below `top`, oldest first, and those from `top` on. */
  function Below(numbers: seq<nat>, top: nat): seq<nat> {
    if numbers == [] then [] else (if numbers[0] < top then [numbers[0]] else []) + Below(numbers[1..], top)
  }

  function From(numbers: seq<nat>, top: nat): seq<nat> {
    if numbers == [] then [] else (if numbers[0] >= top then [numbers[0]] else []) + From(numbers[1..], top)
  }

  function Reversed(numbers: seq<nat>): (r: seq<nat>)
    ensures |r| == |numbers| && forall i :: 0 <= i < |r| ==> r[i] == numbers[|numbers| - 1 - i]
  {
    if numbers == [] then [] else Reversed(numbers[1..]) + [numbers[0]]
  }

  function Limit(rows: seq<nat>, n: nat): seq<nat> { if |rows| > n then rows[..n] else rows }

  datatype Newer = NoNewer | Latest | Cursor(before: nat)

  datatype Page = Page(entries: seq<nat>, older: Option<nat>, newer: Newer, total: nat, above: nat)

  /** `ledgerRead` with history: one page below the cursor, and where its two buttons lead. */
  function Read(numbers: seq<nat>, sequence: nat, before: Option<nat>): Page {
    var top := if before.Some? then before.value else sequence + 1;
    var rows := Limit(Reversed(Below(numbers, top)), PAGE + 1);
    var entries := Limit(rows, PAGE);
    var newerRows := Limit(From(numbers, top), PAGE + 1);
    Page(entries,
         if |rows| > PAGE && entries != [] then Some(entries[|entries| - 1]) else None,
         if newerRows == [] then NoNewer
         else if |newerRows| > PAGE then Cursor(newerRows[PAGE - 1] + 1)
         else Latest,
         |numbers|, |From(numbers, top)|)
  }

  /** How many entries lie below `top`. */
  function Rank(numbers: seq<nat>, top: nat): nat { |Below(numbers, top)| }

  lemma {:induction false} Splits(numbers: seq<nat>, top: nat)
    requires Ascending(numbers)
    ensures Rank(numbers, top) <= |numbers|
    ensures Below(numbers, top) == numbers[..Rank(numbers, top)]
    ensures From(numbers, top) == numbers[Rank(numbers, top)..]
    ensures forall i :: 0 <= i < |numbers| ==> (numbers[i] < top <==> i < Rank(numbers, top))
  {
    if numbers != [] {
      Splits(numbers[1..], top);
      var rest := Below(numbers[1..], top);
      if numbers[0] < top {
        assert Below(numbers, top) == [numbers[0]] + rest;
        assert numbers[..|rest| + 1] == [numbers[0]] + numbers[1..][..|rest|];
        assert numbers[1..][|rest|..] == numbers[|rest| + 1..];
      } else {
        assert forall i :: 0 <= i < |numbers[1..]| ==> numbers[1..][i] > numbers[0];
        assert rest == [];
      }
      forall i | 0 <= i < |numbers| ensures numbers[i] < top <==> i < Rank(numbers, top) {
        if i > 0 { assert numbers[i] == numbers[1..][i - 1]; }
      }
    }
  }

  function Max(a: int, b: int): int { if a > b then a else b }

  /** A page in terms of positions: the ten entries below position `n`, and the cursors beside it. */
  lemma PageAt(numbers: seq<nat>, sequence: nat, before: Option<nat>, n: nat)
    requires Ascending(numbers)
    requires n == Rank(numbers, if before.Some? then before.value else sequence + 1)
    ensures n <= |numbers|
    ensures var page := Read(numbers, sequence, before);
      && page.entries == Reversed(numbers[Max(0, n - PAGE)..n])
      && page.older == (if n > PAGE then Some(numbers[n - PAGE]) else None)
      && page.newer == (if n == |numbers| then NoNewer
                        else if |numbers| - n > PAGE then Cursor(numbers[n + PAGE - 1] + 1) else Latest)
      && page.total == |numbers| && page.above == |numbers| - n
  {
    hide Below, From, Reversed;
    var top := if before.Some? then before.value else sequence + 1;
    Splits(numbers, top);
    var page := Read(numbers, sequence, before);
    var rows := Reversed(numbers[..n]);
    assert Below(numbers, top) == numbers[..n];
    assert page.entries == Limit(Limit(rows, PAGE + 1), PAGE);
    assert page.entries == Limit(rows, PAGE);
    assert page.entries == Reversed(numbers[Max(0, n - PAGE)..n]);
    assert n > PAGE ==> page.entries[PAGE - 1] == numbers[n - PAGE];
  }

  lemma RankOf(numbers: seq<nat>, i: nat)
    requires Ascending(numbers) && i < |numbers|
    ensures Rank(numbers, numbers[i]) == i
    ensures Rank(numbers, numbers[i] + 1) == i + 1
  {
    Splits(numbers, numbers[i]);
    Splits(numbers, numbers[i] + 1);
    var a, b := Rank(numbers, numbers[i]), Rank(numbers, numbers[i] + 1);
    assert a <= i && i < b;
    assert i > 0 ==> numbers[i - 1] < numbers[i];
    assert i + 1 < |numbers| ==> numbers[i] < numbers[i + 1];
  }

  /** Every number is at most the account's own. */
  ghost predicate Within(numbers: seq<nat>, sequence: nat) {
    Ascending(numbers) && forall i :: 0 <= i < |numbers| ==> numbers[i] <= sequence
  }

  lemma RankOfAll(numbers: seq<nat>, sequence: nat)
    requires Within(numbers, sequence)
    ensures Rank(numbers, sequence + 1) == |numbers|
  {
    Splits(numbers, sequence + 1);
    assert numbers != [] ==> numbers[|numbers| - 1] < sequence + 1;
  }

  function TopOf(sequence: nat, before: Option<nat>): nat { if before.Some? then before.value else sequence + 1 }

  lemma OlderIsLower(numbers: seq<nat>, sequence: nat, before: Option<nat>)
    requires Ascending(numbers) && Read(numbers, sequence, before).older.Some?
    ensures var n := Rank(numbers, TopOf(sequence, before));
      && n > PAGE && n <= |numbers|
      && Rank(numbers, Read(numbers, sequence, before).older.value) == n - PAGE
  {
    hide Read, Rank;
    var n := Rank(numbers, TopOf(sequence, before));
    PageAt(numbers, sequence, before, n);
    RankOf(numbers, n - PAGE);
  }

  /** The entries of a page, and then of every page its `older` leads to. */
  ghost function Walk(numbers: seq<nat>, sequence: nat, before: Option<nat>): seq<nat>
    requires Ascending(numbers)
    decreases Rank(numbers, TopOf(sequence, before))
  {
    var page := Read(numbers, sequence, before);
    if page.older.None? then page.entries
    else
      OlderIsLower(numbers, sequence, before);
      page.entries + Walk(numbers, sequence, page.older)
  }

  lemma ReversedJoins(a: seq<nat>, b: seq<nat>)
    ensures Reversed(a + b) == Reversed(b) + Reversed(a)
  {
  }

  lemma {:induction false} WalkIsAllBelow(numbers: seq<nat>, sequence: nat, before: Option<nat>)
    requires Ascending(numbers)
    ensures var n := Rank(numbers, TopOf(sequence, before));
      n <= |numbers| && Walk(numbers, sequence, before) == Reversed(numbers[..n])
    decreases Rank(numbers, TopOf(sequence, before))
  {
    hide Rank, Read, Reversed;
    var n := Rank(numbers, TopOf(sequence, before));
    PageAt(numbers, sequence, before, n);
    var page := Read(numbers, sequence, before);
    if page.older.Some? {
      OlderIsLower(numbers, sequence, before);
      WalkIsAllBelow(numbers, sequence, page.older);
      assert numbers[..n] == numbers[..n - PAGE] + numbers[n - PAGE..n];
      ReversedJoins(numbers[..n - PAGE], numbers[n - PAGE..n]);
    }
  }

  /** From the newest page `older` visits every entry exactly once, newest first, gaps or not. */
  lemma OlderVisitsEveryEntryOnce(numbers: seq<nat>, sequence: nat)
    requires Within(numbers, sequence)
    ensures Walk(numbers, sequence, None) == Reversed(numbers)
  {
    RankOfAll(numbers, sequence);
    WalkIsAllBelow(numbers, sequence, None);
    assert numbers[..|numbers|] == numbers;
  }

  /** The page `newer` leads to. */
  function FollowNewer(numbers: seq<nat>, sequence: nat, page: Page): Page
    requires page.newer != NoNewer
  {
    Read(numbers, sequence, if page.newer.Cursor? then Some(page.newer.before) else None)
  }

  /**
   * From any page, however its cursor was come by, `newer` leads to the entries directly above it:
   * a numeric cursor to exactly ten, and the newest page holds all of them when they are fewer.
   */
  lemma NewerIsDirectlyAbove(numbers: seq<nat>, sequence: nat, before: Option<nat>)
    requires Within(numbers, sequence) && Read(numbers, sequence, before).newer != NoNewer
    ensures var n := Rank(numbers, TopOf(sequence, before));
      var page := Read(numbers, sequence, before);
      var above := FollowNewer(numbers, sequence, page);
      && n < |numbers|
      && (page.newer.Cursor? ==> n + PAGE < |numbers| && above.entries == Reversed(numbers[n..n + PAGE]))
      && (page.newer.Latest? ==> |numbers| - n <= PAGE && above == Read(numbers, sequence, None)
                                 && above.entries == Reversed(numbers[Max(0, |numbers| - PAGE)..]))
  {
    hide Rank, Read, Reversed;
    var n := Rank(numbers, TopOf(sequence, before));
    PageAt(numbers, sequence, before, n);
    RankOfAll(numbers, sequence);
    PageAt(numbers, sequence, None, |numbers|);
    assert numbers[Max(0, |numbers| - PAGE)..|numbers|] == numbers[Max(0, |numbers| - PAGE)..];
    if Read(numbers, sequence, before).newer.Cursor? {
      RankOf(numbers, n + PAGE - 1);
      PageAt(numbers, sequence, Some(numbers[n + PAGE - 1] + 1), n + PAGE);
    }
  }

  /** The cursor `older` has led to after that many steps from the newest page. */
  function CursorAfter(numbers: seq<nat>, sequence: nat, steps: nat): Option<nat>
    decreases steps
  {
    if steps == 0 then None else Read(numbers, sequence, CursorAfter(numbers, sequence, steps - 1)).older
  }

  /** There is an older page exactly while entries are left below the pages already seen. */
  lemma {:induction false} StepsDown(numbers: seq<nat>, sequence: nat, steps: nat)
    requires Within(numbers, sequence) && (steps > 0 ==> steps * PAGE < |numbers|)
    ensures var before := CursorAfter(numbers, sequence, steps);
      && (steps > 0 ==> before.Some?)
      && Rank(numbers, TopOf(sequence, before)) == |numbers| - steps * PAGE
      && (Read(numbers, sequence, before).older.Some? <==> (steps + 1) * PAGE < |numbers|)
    decreases steps
  {
    hide Rank, Read, Reversed;
    if steps == 0 {
      RankOfAll(numbers, sequence);
    } else {
      var previous := CursorAfter(numbers, sequence, steps - 1);
      StepsDown(numbers, sequence, steps - 1);
      OlderIsLower(numbers, sequence, previous);
    }
    var before := CursorAfter(numbers, sequence, steps);
    PageAt(numbers, sequence, before, |numbers| - steps * PAGE);
  }

  /** On the pages `older` leads to, `newer` leads back to what the page before showed. */
  lemma NewerUndoesOlder(numbers: seq<nat>, sequence: nat, steps: nat)
    requires Within(numbers, sequence) && (steps + 1) * PAGE < |numbers|
    ensures var page := Read(numbers, sequence, CursorAfter(numbers, sequence, steps + 1));
      && page.newer != NoNewer
      && FollowNewer(numbers, sequence, page).entries
         == Read(numbers, sequence, CursorAfter(numbers, sequence, steps)).entries
  {
    hide Rank, Read, Reversed, CursorAfter;
    var n := |numbers| - steps * PAGE;
    var previous := CursorAfter(numbers, sequence, steps);
    var before := CursorAfter(numbers, sequence, steps + 1);
    StepsDown(numbers, sequence, steps);
    StepsDown(numbers, sequence, steps + 1);
    PageAt(numbers, sequence, previous, n);
    PageAt(numbers, sequence, before, n - PAGE);
    NewerIsDirectlyAbove(numbers, sequence, before);
    RankOfAll(numbers, sequence);
    PageAt(numbers, sequence, None, |numbers|);
  }
}
