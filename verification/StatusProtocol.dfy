/** The status post protocol over whole runs. */
module StatusProtocol {
  import opened Options
  import opened Sorting
  import opened StatusDomain
  import opened StatusBoard
  import opened StatusInvariants

  ghost predicate HasPosting(rows: seq<Row>, p: Posting) {
    exists k :: 0 <= k < |rows| && rows[k].posting == Some(p)
  }

  lemma HasPostingSplits(rows: seq<Row>, p: Posting)
    requires rows != []
    ensures HasPosting(rows, p) <==> rows[0].posting == Some(p) || HasPosting(rows[1..], p)
  {
    if HasPosting(rows[1..], p) {
      var k :| 0 <= k < |rows[1..]| && rows[1..][k].posting == Some(p);
      assert rows[k + 1].posting == Some(p);
    }
    if HasPosting(rows, p) {
      var k :| 0 <= k < |rows| && rows[k].posting == Some(p);
      if k > 0 { assert rows[1..][k - 1].posting == Some(p); }
    }
  }

  lemma {:induction false} PostingRows(rows: seq<Row>)
    requires RowsInv(rows)
    ensures forall p :: p in Postings(rows) <==> HasPosting(rows, p)
    ensures Distinct(Postings(rows))
    ensures (forall k :: 0 <= k < |rows| ==> rows[k].posting.None?) ==> Postings(rows) == []
  {
    if rows != [] {
      assert RowsInv(rows[1..]);
      PostingRows(rows[1..]);
      forall p ensures HasPosting(rows, p) <==> rows[0].posting == Some(p) || HasPosting(rows[1..], p) {
        HasPostingSplits(rows, p);
      }
      if rows[0].posting.Some? { OthersHaveOthers(rows); }
      hide HasPosting, RowInv;
      var head := if rows[0].posting.Some? then [rows[0].posting.value] else [];
      assert Postings(rows) == head + Postings(rows[1..]);
      if forall k :: 0 <= k < |rows| ==> rows[k].posting.None? {
        assert forall k :: 0 <= k < |rows[1..]| ==> rows[1..][k] == rows[k + 1];
      }
    }
  }

  lemma OthersHaveOthers(rows: seq<Row>)
    requires RowsInv(rows) && rows != [] && rows[0].posting.Some?
    ensures !HasPosting(rows[1..], rows[0].posting.value)
  {
    forall k | 0 <= k < |rows[1..]| ensures rows[1..][k].posting != rows[0].posting {
      assert rows[1..][k] == rows[k + 1] && rows[0].user < rows[k + 1].user;
      assert RowInv(rows[0]) && RowInv(rows[k + 1]);
    }
  }

  lemma {:induction false} AllOfBatch(postings: seq<Posting>, batch: nat)
    requires forall k :: 0 <= k < |postings| ==> postings[k].batch == batch
    ensures OfBatch(postings, batch) == postings
  {
    if postings != [] { AllOfBatch(postings[1..], batch); }
  }

  ghost predicate HasPlace(postings: seq<Posting>, i: nat) {
    exists p :: p in postings && p.place == i
  }

  /** Postings in place order, from place `k` on, read back the batch's entries. */
  lemma {:induction false} EntriesInPlace(postings: seq<Posting>, batch: Batch, k: nat)
    requires k <= |batch.entries| && Sorted(PlaceBefore, postings) && Distinct(postings)
    requires forall p :: p in postings ==> InBatch(p, batch) && p.place >= k
    requires forall i :: k <= i < |batch.entries| ==> HasPlace(postings, i)
    ensures Entries(postings) == batch.entries[k..]
    decreases |postings|
  {
    if postings == [] {
      assert k < |batch.entries| ==> HasPlace(postings, k);
    } else {
      var first, rest := postings[0], postings[1..];
      assert InBatch(first, batch);
      assert HasPlace(postings, k);
      var p :| p in postings && p.place == k;
      assert PlaceBefore(first, p);
      assert first.place == k;
      forall q | q in rest ensures InBatch(q, batch) && q.place >= k + 1 {
        assert q in postings && q != first;
      }
      forall i | k + 1 <= i < |batch.entries| ensures HasPlace(rest, i) {
        assert HasPlace(postings, i);
        var q :| q in postings && q.place == i;
        assert q in rest;
      }
      EntriesInPlace(rest, batch, k + 1);
      assert batch.entries[k..] == [batch.entries[k]] + batch.entries[k + 1..];
    }
  }

  /** The rows give back exactly the batch they hold, so every resend renders the view first frozen. */
  lemma FrozenIsHeld(rows: seq<Row>, batch: Option<Batch>)
    requires RowsInv(rows) && HoldsBatch(rows, batch)
    ensures FrozenIn(rows) == batch
  {
    var postings := Postings(rows);
    PostingRows(rows);
    var sorted := Sort(FrozenBefore, postings);
    SortMembers(FrozenBefore, postings);
    if batch.None? {
    } else {
      HeldPostings(rows, batch.value, sorted);
      HeldEntries(sorted, batch.value);
    }
  }

  lemma HeldPostings(rows: seq<Row>, b: Batch, sorted: seq<Posting>)
    requires RowsInv(rows) && HoldsBatch(rows, Some(b))
    requires forall p :: p in sorted <==> p in Postings(rows)
    ensures forall p :: p in sorted ==> InBatch(p, b)
    ensures forall i :: 0 <= i < |b.entries| ==> HasPlace(sorted, i)
  {
    PostingRows(rows);
    forall i | 0 <= i < |b.entries| ensures HasPlace(sorted, i) {
      assert Placed(rows, i);
      var j :| 0 <= j < |rows| && rows[j].posting.Some? && rows[j].posting.value.place == i;
      assert HasPosting(rows, rows[j].posting.value);
      assert rows[j].posting.value in sorted;
    }
  }

  lemma HeldEntries(sorted: seq<Posting>, b: Batch)
    requires b.entries != [] && Distinct(sorted)
    requires forall p :: p in sorted ==> InBatch(p, b)
    requires forall i :: 0 <= i < |b.entries| ==> HasPlace(sorted, i)
    ensures sorted != [] && sorted[0].batch == b.id && sorted[0].frozenAt == b.frozenAt
    ensures Entries(Sort(PlaceBefore, OfBatch(sorted, b.id))) == b.entries
  {
    assert HasPlace(sorted, 0);
    assert sorted[0] in sorted;
    forall k | 0 <= k < |sorted| ensures sorted[k].batch == b.id {
      assert sorted[k] in sorted;
    }
    AllOfBatch(sorted, b.id);
    var ordered := Sort(PlaceBefore, sorted);
    SortMembers(PlaceBefore, sorted);
    SortSorts(PlaceBefore, sorted);
    forall i | 0 <= i < |b.entries| ensures HasPlace(ordered, i) {
      assert HasPlace(sorted, i);
      var p :| p in sorted && p.place == i;
      assert p in ordered;
    }
    EntriesInPlace(ordered, b, 0);
  }

  /** The batch frozen after an event. */
  function NextBatch(b: Board, batch: Option<Batch>, event: Event, fits: Fits): Option<Batch> {
    match event
    case Configured(channel) => if channel.None? then None else batch
    case Marked(id, _) => if batch.Some? && batch.value.id == id then None else batch
    case FreezeNext(target, cutoff, at, id, leased) =>
      if !MayPost(b, target) || (!leased && batch.None?) then batch
      else Freeze(b.rows, cutoff, at, id, fits).batch
    case _ => batch
  }

  lemma SameUsersKeepOrder(rows: seq<Row>, after: seq<Row>)
    requires Ascending(rows) && |after| == |rows|
    requires forall k :: 0 <= k < |rows| ==> after[k].user == rows[k].user
    ensures Ascending(after)
  {
  }

  lemma SamePostingsHold(rows: seq<Row>, after: seq<Row>, batch: Option<Batch>)
    requires HoldsBatch(rows, batch) && |after| == |rows|
    requires forall k :: 0 <= k < |rows| ==> after[k].posting == rows[k].posting
    ensures HoldsBatch(after, batch)
  {
    if batch.Some? {
      forall i | 0 <= i < |batch.value.entries| ensures Placed(after, i) {
        assert Placed(rows, i);
        var k :| 0 <= k < |rows| && rows[k].posting.Some? && rows[k].posting.value.place == i;
        assert after[k].posting == rows[k].posting;
      }
    }
  }

  /** A row's user appears once, so what is said of a user's row is said of this row. */
  lemma OneRowPerUser(rows: seq<Row>, row: Row, k: nat)
    requires Ascending(rows) && row in rows && k < |rows| && rows[k].user == row.user
    ensures rows[k] == row
  {
    var j :| 0 <= j < |rows| && rows[j] == row;
    assert rows[j].user == rows[k].user;
    assert j == k;
  }

  lemma PlaceOf(entries: seq<Entry>, i: nat)
    requires OncePerUser(entries) && i < |entries|
    ensures Place(entries, entries[i].user) == Some(i)
  {
    var place := Place(entries, entries[i].user);
    assert place.Some?;
    assert entries[place.value].user == entries[i].user;
    assert place.value == i;
  }

  /** No user is a candidate twice. */
  lemma CandidateUsers(rows: seq<Row>, cutoff: int)
    requires Ascending(rows)
    ensures DistinctUsers(Candidates(rows, cutoff))
  {
    var c := Candidates(rows, cutoff);
    CandidateRows(rows, cutoff);
    forall i, j | 0 <= i < j < |c| ensures c[i].user != c[j].user {
      assert c[i] in c && c[j] in c;
      var m :| 0 <= m < |rows| && rows[m] == c[i];
      if c[i].user == c[j].user { OneRowPerUser(rows, c[j], m); }
    }
  }

  ghost predicate IsLine(rows: seq<Row>, cutoff: int, e: Entry) {
    exists k :: 0 <= k < |rows| && IsDue(rows[k], cutoff) && Line(rows[k]) == Some(e)
  }

  /** A fresh freeze posts lines of due rows, each once. */
  lemma GatheredLines(rows: seq<Row>, cutoff: int, fits: seq<Entry> -> bool)
    requires Ascending(rows)
    ensures var entries := Gather(Candidates(rows, cutoff), [], fits).entries;
      OncePerUser(entries) && forall e :: e in entries ==> IsLine(rows, cutoff, e)
  {
    var c := Candidates(rows, cutoff);
    CandidateRows(rows, cutoff);
    CandidateUsers(rows, cutoff);
    LinesHaveDistinctUsers(c);
    LinesAreRows(c);
    GatherTakesPrefix(c, [], fits);
    var entries := Gather(c, [], fits).entries;
    assert [] + Lines(c) == Lines(c);
    forall e | e in entries ensures IsLine(rows, cutoff, e) {
      assert e in Lines(c);
      var k :| 0 <= k < |c| && Line(c[k]) == Some(e);
      assert c[k] in c;
      var m :| 0 <= m < |rows| && rows[m] == c[k];
    }
  }

  /** A freeze with this cutoff announces a row silently: it is due, has no line, and every line ahead goes in. */
  ghost predicate Silenced(rows: seq<Row>, cutoff: int, fits: seq<Entry> -> bool, row: Row) {
    IsDue(row, cutoff) && Line(row).None? && AllGoIn([], LinesBefore(Candidates(rows, cutoff), row.user), fits)
  }

  lemma GatheredQuiet(rows: seq<Row>, cutoff: int, fits: seq<Entry> -> bool, k: nat)
    requires Ascending(rows) && k < |rows|
    ensures rows[k].user in Gather(Candidates(rows, cutoff), [], fits).quiet <==> Silenced(rows, cutoff, fits, rows[k])
  {
    hide Gather, Line, AllGoIn, LinesBefore;
    var c := Candidates(rows, cutoff);
    CandidateRows(rows, cutoff);
    CandidateUsers(rows, cutoff);
    if rows[k] in c {
      var j :| 0 <= j < |c| && c[j] == rows[k];
      GatherQuietsExactly(c, [], fits, j);
    } else if rows[k].user in Gather(c, [], fits).quiet {
      GatherQuiets(c, [], fits);
      var j :| 0 <= j < |c| && c[j].user == rows[k].user && Line(c[j]).None?;
      assert c[j] in c;
      OneRowPerUser(rows, c[j], k);
      assert false;
    }
  }

  /** A row with a place in a fresh batch is due, and its entry there is its line. */
  lemma GatheredPlace(rows: seq<Row>, cutoff: int, fits: seq<Entry> -> bool, k: nat)
    requires Ascending(rows) && k < |rows|
    requires Place(Gather(Candidates(rows, cutoff), [], fits).entries, rows[k].user).Some?
    ensures var entries := Gather(Candidates(rows, cutoff), [], fits).entries;
      IsDue(rows[k], cutoff) && Line(rows[k]) == Some(entries[Place(entries, rows[k].user).value])
  {
    var entries := Gather(Candidates(rows, cutoff), [], fits).entries;
    GatheredLines(rows, cutoff, fits);
    var e := entries[Place(entries, rows[k].user).value];
    assert e in entries;
    assert IsLine(rows, cutoff, e);
    var j :| 0 <= j < |rows| && IsDue(rows[j], cutoff) && Line(rows[j]) == Some(e);
    OneRowPerUser(rows, rows[j], k);
  }
}
