/** The sliding limits on /suggest, over the audit rows of the attempts it recorded. */
module SuggestionLimits {
  import opened Options

  const HOUR := 3600
  const DAY := 86400
  const PER_DAY := 3
  const ALL_PER_DAY := 10

  /** A posted or unconfirmed attempt, stamped when its audit row is written. */
  datatype Row = Row(at: int, user: nat)

  /** How many rows a span of seconds may hold: a member's own, or everyone's. */
  datatype Limit = Limit(user: Option<nat>, seconds: nat, most: nat)

  function Limits(user: nat): seq<Limit> {
    [Limit(Some(user), HOUR, 1), Limit(Some(user), DAY, PER_DAY), Limit(None, DAY, ALL_PER_DAY)]
  }

  predicate Counts(l: Limit, row: Row) { l.user.None? || l.user == Some(row.user) }

  /** The stamps a limit counts, oldest first. */
  function Stamps(rows: seq<Row>, l: Limit): seq<int> {
    if rows == [] then []
    else Stamps(rows[..|rows| - 1], l) + if Counts(l, rows[|rows| - 1]) then [rows[|rows| - 1].at] else []
  }

  ghost predicate Ascending(stamps: seq<int>) {
    forall i, j :: 0 <= i < j < |stamps| ==> stamps[i] <= stamps[j]
  }

  ghost predicate InOrder(rows: seq<Row>) {
    forall i, j :: 0 <= i < j < |rows| ==> rows[i].at <= rows[j].at
  }

  /** How many stamps are at or before `x`. */
  function Upto(stamps: seq<int>, x: int): nat {
    if stamps == [] then 0
    else Upto(stamps[..|stamps| - 1], x) + if stamps[|stamps| - 1] <= x then 1 else 0
  }

  /** How many stamps fall within the span after `from`. */
  function InSpan(stamps: seq<int>, from: int, seconds: nat): int { Upto(stamps, from + seconds) - Upto(stamps, from) }

  /** The newest stamps within the span before `now`, newest first, as the query reads them. */
  function Recent(stamps: seq<int>, l: Limit, now: int): seq<int> {
    if stamps == [] then []
    else
      var last := stamps[|stamps| - 1];
      (if last > now - l.seconds then [last] else []) + Recent(stamps[..|stamps| - 1], l, now)
  }

  /** When a limit refuses at `now`: the stamp that must age out first. */
  function Blocking(rows: seq<Row>, l: Limit, now: int): Option<int>
    requires l.most > 0
  {
    var recent := Recent(Stamps(rows, l), l, now);
    if |recent| >= l.most then Some(recent[l.most - 1]) else None
  }

  lemma {:induction false} StampsInOrder(rows: seq<Row>, l: Limit)
    requires InOrder(rows)
    ensures Ascending(Stamps(rows, l))
    ensures forall s :: s in Stamps(rows, l) ==> exists row :: row in rows && row.at == s
  {
    if rows != [] {
      var rest, last := rows[..|rows| - 1], rows[|rows| - 1];
      StampsInOrder(rest, l);
      forall s | s in Stamps(rest, l) ensures s <= last.at && exists row :: row in rows && row.at == s {
        var row :| row in rest && row.at == s;
        var i :| 0 <= i < |rest| && rest[i] == row;
        assert rows[i] == row && rows[i].at <= rows[|rows| - 1].at;
      }
      assert last in rows;
      forall i | 0 <= i < |Stamps(rest, l)| ensures Stamps(rest, l)[i] <= last.at {
        assert Stamps(rest, l)[i] in Stamps(rest, l);
      }
    }
  }

  lemma {:induction false} UptoSplits(stamps: seq<int>, x: int)
    requires Ascending(stamps)
    ensures Upto(stamps, x) <= |stamps|
    ensures forall i :: 0 <= i < |stamps| ==> (stamps[i] <= x <==> i < Upto(stamps, x))
  {
    if stamps != [] { UptoSplits(stamps[..|stamps| - 1], x); }
  }

  /** What the query reads is the end of the stamps, backwards. */
  lemma {:induction false} RecentIsTheEnd(stamps: seq<int>, l: Limit, now: int)
    requires Ascending(stamps)
    ensures var recent := Recent(stamps, l, now);
      && |recent| == |stamps| - Upto(stamps, now - l.seconds)
      && forall i :: 0 <= i < |recent| ==> recent[i] == stamps[|stamps| - 1 - i]
  {
    if stamps != [] {
      var rest := stamps[..|stamps| - 1];
      RecentIsTheEnd(rest, l, now);
      UptoSplits(stamps, now - l.seconds);
      UptoSplits(rest, now - l.seconds);
    }
  }

  /**
   * A refusal's `until`, the blocking stamp a span later, is the first instant from now at which
   * that limit alone would admit.
   */
  lemma UntilIsTheFirstInstant(rows: seq<Row>, l: Limit, now: int, t: int)
    requires InOrder(rows) && l.most > 0 && Blocking(rows, l, now).Some? && t >= now
    ensures Blocking(rows, l, t).None? <==> t >= Blocking(rows, l, now).value + l.seconds
    ensures Blocking(rows, l, now).value + l.seconds > now
  {
    var stamps := Stamps(rows, l);
    StampsInOrder(rows, l);
    RecentIsTheEnd(stamps, l, now);
    RecentIsTheEnd(stamps, l, t);
    UptoSplits(stamps, now - l.seconds);
    UptoSplits(stamps, t - l.seconds);
    var k := |stamps| - l.most;
    assert Blocking(rows, l, now).value == stamps[k];
  }

  /** Between a stamp and the one `most` later lies at least the span. */
  ghost predicate Spaced(stamps: seq<int>, l: Limit) {
    forall i :: 0 <= i < |stamps| - l.most ==> stamps[i] + l.seconds <= stamps[i + l.most]
  }

  /** Every span holds at most what the limit allows. */
  lemma SpansHoldTheLimit(stamps: seq<int>, l: Limit, from: int)
    requires Ascending(stamps) && Spaced(stamps, l)
    ensures InSpan(stamps, from, l.seconds) <= l.most
  {
    UptoSplits(stamps, from);
    UptoSplits(stamps, from + l.seconds);
    var a, b := Upto(stamps, from), Upto(stamps, from + l.seconds);
    assert a + l.most < |stamps| ==> stamps[a] > from && stamps[a] + l.seconds <= stamps[a + l.most];
    assert a + l.most >= b;
  }

  /** A row admitted by the check and stamped at or after it keeps the spacing. */
  lemma AdmittedKeepsSpacing(rows: seq<Row>, l: Limit, checked: int, row: Row)
    requires InOrder(rows) && l.most > 0 && Spaced(Stamps(rows, l), l)
    requires Counts(l, row) ==> Blocking(rows, l, checked).None? && checked <= row.at
    ensures Spaced(Stamps(rows + [row], l), l)
  {
    var stamps := Stamps(rows, l);
    assert (rows + [row])[..|rows|] == rows;
    if Counts(l, row) {
      StampsInOrder(rows, l);
      RecentIsTheEnd(stamps, l, checked);
      UptoSplits(stamps, checked - l.seconds);
    } else {
      assert stamps + [] == stamps;
    }
  }
}
