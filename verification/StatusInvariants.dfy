/** What every status transaction keeps: a change waits exactly while it is dated, and one batch at most is frozen. */
module StatusInvariants {
  import opened Options
  import opened Sorting
  import opened StatusDomain
  import opened StatusBoard

  /** A row is dated exactly while something waits on it, and its place in a batch is its own. */
  ghost predicate RowInv(row: Row) {
    && (row.since.Some? <==> Pending(row.state))
    && (row.posting.Some? ==> row.state.Some? && row.posting.value.entry.user == row.user)
  }

  ghost predicate Ascending(rows: seq<Row>) {
    forall i, j :: 0 <= i < j < |rows| ==> rows[i].user < rows[j].user
  }

  /** The rows in the frozen batch are exactly its entries' users, each at its place. */
  ghost predicate HoldsBatch(rows: seq<Row>, batch: Option<Batch>) {
    if batch.None? then forall k :: 0 <= k < |rows| ==> rows[k].posting.None?
    else
      && batch.value.entries != []
      && (forall k :: 0 <= k < |rows| ==> rows[k].posting.Some? ==> InBatch(rows[k].posting.value, batch.value))
      && (forall i :: 0 <= i < |batch.value.entries| ==> Placed(rows, i))
  }

  ghost predicate InBatch(p: Posting, batch: Batch) {
    && p.batch == batch.id && p.frozenAt == batch.frozenAt
    && p.place < |batch.entries| && p.entry == batch.entries[p.place]
  }

  ghost predicate Placed(rows: seq<Row>, i: nat) {
    exists k :: 0 <= k < |rows| && rows[k].posting.Some? && rows[k].posting.value.place == i
  }

  ghost predicate RowsInv(rows: seq<Row>) {
    Ascending(rows) && forall k :: 0 <= k < |rows| ==> RowInv(rows[k])
  }

  /** `batch` is the frozen batch, if any; without a channel nothing waits and nothing is frozen. */
  ghost predicate BoardInv(b: Board, batch: Option<Batch>) {
    && RowsInv(b.rows) && HoldsBatch(b.rows, batch)
    && (b.channel.None? ==> forall k :: 0 <= k < |b.rows| ==> b.rows[k].since.None? && b.rows[k].posting.None?)
  }

  lemma ObserveKeepsRow(row: Row, channel: bool, o: Observation, joined: int, now: int)
    requires RowInv(row)
    ensures var after := ObserveRow(row, channel, o, joined, now);
      && RowInv(after) && after.user == row.user
      && (channel ==> after.posting == row.posting)
      && (!channel ==> after.since.None? && after.posting.None?)
  {
    hide Recorded;
  }

  lemma {:induction false} DepartedPends(state: Option<State>, user: nat, items: seq<(nat, Departure)>)
    ensures Departs(user, items) ==> Pending(Departed(state, user, items))
    ensures Pending(state) ==> Pending(Departed(state, user, items))
    ensures state.Some? ==> Departed(state, user, items).Some?
    ensures !Departs(user, items) ==> Departed(state, user, items) == state
    decreases |items|
  {
    if items != [] {
      var next := if items[0].0 == user then Some(AddDeparture(state, items[0].1)) else state;
      assert items[0].0 == user ==> next.value.departed != [];
      DepartedPends(next, user, items[1..]);
      assert Departs(user, items) <==> items[0].0 == user || Departs(user, items[1..]) by {
        if Departs(user, items) {
          var k :| 0 <= k < |items| && items[k].0 == user;
          if k > 0 { assert items[1..][k - 1].0 == user; }
        }
        if Departs(user, items[1..]) {
          var k :| 0 <= k < |items[1..]| && items[1..][k].0 == user;
          assert items[k + 1].0 == user;
        }
      }
    }
  }

  lemma DepartKeepsRow(row: Row, items: seq<(nat, Departure)>, now: int)
    requires RowInv(row)
    ensures var after := DepartRow(row, items, now);
      RowInv(after) && after.user == row.user && after.posting == row.posting
  {
    DepartedPends(row.state, row.user, items);
  }

  lemma DropKeepsRow(row: Row)
    requires RowInv(row)
    ensures var after := DropRow(row);
      RowInv(after) && after.user == row.user && after.since.None? && after.posting.None?
  {
    if row.state.Some? { DropLeavesNothing(row.state.value); }
  }

  lemma MarkKeepsRow(row: Row, batch: nat, now: int)
    requires RowInv(row)
    ensures var after := MarkRow(row, batch, now);
      && RowInv(after) && after.user == row.user
      && (row.posting.None? || row.posting.value.batch != batch ==> after == row)
      && (row.posting.Some? && row.posting.value.batch == batch ==> after.posting.None?)
  {
    hide ApplyPosted;
  }

  lemma QuietKeepsRow(row: Row)
    requires RowInv(row)
    ensures var after := QuietRow(row);
      && RowInv(after) && after.user == row.user && after.posting == row.posting
      && (after.since == row.since || after.since.None?)
  {
    hide ApplyPosted;
  }

  lemma {:induction false} DueRows(rows: seq<Row>, cutoff: int)
    requires Ascending(rows)
    ensures forall row :: row in Due(rows, cutoff) <==> row in rows && IsDue(row, cutoff)
    ensures Distinct(Due(rows, cutoff))
  {
    if rows != [] {
      DueRows(rows[1..], cutoff);
      assert forall row :: row in rows <==> row == rows[0] || row in rows[1..];
      assert forall row :: row in rows[1..] ==> row.user != rows[0].user;
    }
  }

  lemma CandidateMembers(rows: seq<Row>, cutoff: int)
    requires Ascending(rows)
    ensures Distinct(Candidates(rows, cutoff))
    ensures forall row :: row in Candidates(rows, cutoff) <==> row in rows && IsDue(row, cutoff)
  {
    DueRows(rows, cutoff);
    SortMembers(Older, Due(rows, cutoff));
  }

  /** The candidates are the due rows, each once, oldest first. */
  lemma CandidateRows(rows: seq<Row>, cutoff: int)
    requires Ascending(rows)
    ensures var c := Candidates(rows, cutoff);
      && Distinct(c)
      && (forall row :: row in c <==> row in rows && row.since.Some? && row.since.value <= cutoff)
      && (forall i, j :: 0 <= i < j < |c| ==>
           c[i].since.value < c[j].since.value || (c[i].since == c[j].since && c[i].user < c[j].user))
  {
    CandidateMembers(rows, cutoff);
    SortSorts(Older, Due(rows, cutoff));
    var c := Candidates(rows, cutoff);
    assert Sorted(Older, c);
    forall k | 0 <= k < |c| ensures c[k].since.Some? && c[k] in rows { assert c[k] in c; }
    hide Candidates;
    forall i, j | 0 <= i < j < |c|
      ensures c[i].since.value < c[j].since.value || (c[i].since == c[j].since && c[i].user < c[j].user)
    {
      assert Older(c[i], c[j]) && c[i] in rows && c[j] in rows;
    }
  }

  /** The candidates' lines, in order. */
  function Lines(candidates: seq<Row>): seq<Entry> {
    if candidates == [] then []
    else (if Line(candidates[0]).Some? then [Line(candidates[0]).value] else []) + Lines(candidates[1..])
  }

  /** `taken` is the longest prefix of `all` allowed: at most a hundred, and fitting, or a single line. */
  ghost predicate LongestAllowed(taken: seq<Entry>, all: seq<Entry>, fits: seq<Entry> -> bool) {
    && taken <= all
    && |taken| <= 100
    && (taken != [] ==> fits(taken) || |taken| == 1)
    && (|taken| < |all| ==> |taken| == 100 || !fits(taken) || !fits(all[..|taken| + 1]))
  }

  /** Where the next line doesn't go in, the batch ends. */
  lemma BatchEnds(entries: seq<Entry>, line: Entry, rest: seq<Entry>, fits: seq<Entry> -> bool)
    requires |entries| <= POST_MEMBERS && (entries != [] ==> fits(entries))
    requires |entries| == POST_MEMBERS || !fits(entries + [line])
    ensures LongestAllowed(if entries == [] then [line] else entries, entries + ([line] + rest), fits)
  {
    var all := entries + ([line] + rest);
    assert all[..|entries| + 1] == entries + [line];
    assert entries == [] ==> entries + [line] == [line];
  }

  lemma {:induction false} GatherTakesPrefix(candidates: seq<Row>, entries: seq<Entry>, fits: seq<Entry> -> bool)
    requires |entries| <= POST_MEMBERS && (entries != [] ==> fits(entries))
    ensures var taken := Gather(candidates, entries, fits).entries;
      entries <= taken && LongestAllowed(taken, entries + Lines(candidates), fits)
  {
    if candidates == [] {
      assert entries + Lines(candidates) == entries;
    } else {
      hide EntryFor, EntryVisible, IsPending, Line, LongestAllowed;
      var line, rest := Line(candidates[0]), Lines(candidates[1..]);
      if line.None? {
        assert Lines(candidates) == rest;
        GatherTakesPrefix(candidates[1..], entries, fits);
      } else if |entries| < POST_MEMBERS && fits(entries + [line.value]) {
        assert entries + ([line.value] + rest) == (entries + [line.value]) + rest;
        GatherTakesPrefix(candidates[1..], entries + [line.value], fits);
      } else {
        BatchEnds(entries, line.value, rest, fits);
      }
    }
  }

  lemma {:induction false} LinesAreRows(candidates: seq<Row>)
    ensures forall e :: e in Lines(candidates) ==>
      exists k :: 0 <= k < |candidates| && Line(candidates[k]) == Some(e)
  {
    if candidates != [] {
      LinesAreRows(candidates[1..]);
      forall e | e in Lines(candidates) ensures exists k :: 0 <= k < |candidates| && Line(candidates[k]) == Some(e) {
        if Line(candidates[0]) == Some(e) {
        } else {
          assert e in Lines(candidates[1..]);
          var k :| 0 <= k < |candidates[1..]| && Line(candidates[1..][k]) == Some(e);
          assert candidates[k + 1] == candidates[1..][k];
        }
      }
    }
  }

  ghost predicate DistinctUsers(rows: seq<Row>) {
    forall i, j :: 0 <= i < j < |rows| ==> rows[i].user != rows[j].user
  }

  ghost predicate OncePerUser(entries: seq<Entry>) {
    forall i, j :: 0 <= i < j < |entries| ==> entries[i].user != entries[j].user
  }

  lemma {:induction false} LinesHaveDistinctUsers(candidates: seq<Row>)
    requires DistinctUsers(candidates)
    ensures OncePerUser(Lines(candidates))
  {
    if candidates != [] {
      var rest := Lines(candidates[1..]);
      assert DistinctUsers(candidates[1..]);
      LinesHaveDistinctUsers(candidates[1..]);
      LinesAreRows(candidates[1..]);
      if Line(candidates[0]).Some? {
        var line := Line(candidates[0]).value;
        assert Lines(candidates) == [line] + rest;
        forall j | 0 <= j < |rest| ensures rest[j].user != line.user {
          assert rest[j] in rest;
          var k :| 0 <= k < |candidates[1..]| && Line(candidates[1..][k]) == Some(rest[j]);
          assert candidates[k + 1] == candidates[1..][k];
        }
        assert OncePerUser([line] + rest);
      } else {
        assert Lines(candidates) == rest;
      }
    }
  }

  lemma {:induction false} GatherQuiets(candidates: seq<Row>, entries: seq<Entry>, fits: seq<Entry> -> bool)
    ensures forall u :: u in Gather(candidates, entries, fits).quiet ==>
      exists k :: 0 <= k < |candidates| && candidates[k].user == u && Line(candidates[k]).None?
  {
    if candidates != [] {
      var line := Line(candidates[0]);
      if line.Some? && (|entries| >= POST_MEMBERS || !fits(entries + [line.value])) { return; }
      var more := if line.None? then entries else entries + [line.value];
      GatherQuiets(candidates[1..], more, fits);
      var rest := Gather(candidates[1..], more, fits).quiet;
      forall u | u in Gather(candidates, entries, fits).quiet
        ensures exists k :: 0 <= k < |candidates| && candidates[k].user == u && Line(candidates[k]).None?
      {
        if line.None? && u == candidates[0].user {
        } else {
          assert u in rest;
          var k :| 0 <= k < |candidates[1..]| && candidates[1..][k].user == u && Line(candidates[1..][k]).None?;
          assert candidates[k + 1] == candidates[1..][k];
        }
      }
    }
  }

  /** The lines of the candidates ahead of a user. */
  function LinesBefore(candidates: seq<Row>, user: nat): seq<Entry> {
    if candidates == [] || candidates[0].user == user then []
    else (if Line(candidates[0]).Some? then [Line(candidates[0]).value] else []) + LinesBefore(candidates[1..], user)
  }

  /** The post takes these lines one after the other. */
  ghost predicate AllGoIn(entries: seq<Entry>, lines: seq<Entry>, fits: seq<Entry> -> bool)
    decreases |lines|
  {
    lines == []
    || (|entries| < POST_MEMBERS && fits(entries + [lines[0]]) && AllGoIn(entries + [lines[0]], lines[1..], fits))
  }

  /** A candidate is announced silently exactly when it has no line and every line ahead of it goes in. */
  lemma {:induction false} GatherQuietsExactly(candidates: seq<Row>, entries: seq<Entry>, fits: seq<Entry> -> bool,
                                               k: nat)
    requires DistinctUsers(candidates) && k < |candidates|
    ensures candidates[k].user in Gather(candidates, entries, fits).quiet <==>
      Line(candidates[k]).None? && AllGoIn(entries, LinesBefore(candidates, candidates[k].user), fits)
    decreases |candidates|
  {
    hide EntryFor, EntryVisible, IsPending, Line;
    var first, rest := candidates[0], candidates[1..];
    assert DistinctUsers(rest);
    if k == 0 {
      FirstIsQuiet(candidates, entries, fits);
    } else {
      assert candidates[k] == rest[k - 1] && first.user != candidates[k].user;
      var line, lines := Line(first), LinesBefore(rest, candidates[k].user);
      if line.None? {
        assert LinesBefore(candidates, candidates[k].user) == lines;
        GatherQuietsExactly(rest, entries, fits, k - 1);
      } else {
        assert LinesBefore(candidates, candidates[k].user) == [line.value] + lines;
        assert ([line.value] + lines)[1..] == lines;
        if |entries| < POST_MEMBERS && fits(entries + [line.value]) {
          GatherQuietsExactly(rest, entries + [line.value], fits, k - 1);
        }
      }
    }
  }

  lemma FirstIsQuiet(candidates: seq<Row>, entries: seq<Entry>, fits: seq<Entry> -> bool)
    requires DistinctUsers(candidates) && candidates != []
    ensures candidates[0].user in Gather(candidates, entries, fits).quiet <==> Line(candidates[0]).None?
  {
    hide EntryFor, EntryVisible, IsPending, Line;
    var rest := candidates[1..];
    if Line(candidates[0]).Some? {
      var more := entries + [Line(candidates[0]).value];
      GatherQuiets(rest, more, fits);
      assert forall j :: 0 <= j < |rest| ==> rest[j] == candidates[j + 1];
    }
  }
}
