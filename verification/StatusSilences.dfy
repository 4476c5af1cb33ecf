/** A silent announcement of the bare Guest flag, and the run in which it parts two posts. */
module StatusSilences {
  import opened Options
  import opened Sorting
  import opened StatusDomain
  import opened StatusBoard
  import opened StatusInvariants
  import opened StatusProtocol
  import opened StatusRuns
  import opened StatusPosts

  /** One member's board: what was announced, what is so now, and since when that waits. */
  ghost predicate Stands(b: Board, announced: Flags, current: Flags, since: Option<int>) {
    && |b.rows| == 1 && b.channel == Some(9) && b.active && b.effects && BoardInv(b, None)
    && var row := b.rows[0];
      && row.user == 1 && row.since == since && row.posting.None? && row.state.Some?
      && row.state.value.joined == Some(5) && row.state.value.departed == []
      && row.state.value.announced == announced && row.state.value.current == current
  }

  predicate AllKnown(flags: Flags) {
    flags.member.Some? && flags.guest.Some? && flags.officer.Some? && flags.leader.Some?
  }

  /** A pass that decides every flag. */
  function Decided(flags: Flags): Observation {
    Observation(Seen(flags.member, true, ""), Seen(flags.guest, true, ""), Seen(flags.officer, true, ""),
                Seen(flags.leader, true, ""))
  }

  lemma PassStands(b: Board, announced: Flags, current: Flags, at: int, fits: Fits)
    requires Stands(b, announced, announced, None) && AllKnown(announced) && AllKnown(current) && announced != current
    ensures var event := Reconciled(1, Decided(current), 5, at);
      Stands(Next(b, event, fits), announced, current, Some(at)) && Steady(b.rows[0], event, Bare(Guest))
  {
    var event := Reconciled(1, Decided(current), 5, at);
    NextKeepsInv(b, None, event, fits);
    var row, after := b.rows[0], Next(b, event, fits).rows[0];
    assert after == ObserveRow(row, true, Decided(current), 5, at);
    PassRow(row, announced, current, at);
  }

  lemma PassRow(row: Row, announced: Flags, current: Flags, at: int)
    requires row.state.Some? && row.state.value.joined == Some(5) && row.state.value.departed == [] && row.since.None?
    requires row.state.value.announced == announced == row.state.value.current
    requires AllKnown(announced) && AllKnown(current) && announced != current
    ensures var after := ObserveRow(row, true, Decided(current), 5, at);
      && after.user == row.user && after.since == Some(at) && after.posting == row.posting && after.state.Some?
      && after.state.value.joined == Some(5) && after.state.value.departed == []
      && after.state.value.announced == announced && after.state.value.current == current
  {
    var next := Observe(row.state, Decided(current), 5).next;
    assert forall f: Flag :: next.announced.Get(f) == announced.Get(f) && next.current.Get(f) == current.Get(f);
    assert next.announced == announced && next.current == current by {
      assert next.announced.Get(Member) == announced.Get(Member) && next.current.Get(Member) == current.Get(Member);
      assert next.announced.Get(Guest) == announced.Get(Guest) && next.current.Get(Guest) == current.Get(Guest);
      assert next.announced.Get(Officer) == announced.Get(Officer) && next.current.Get(Officer) == current.Get(Officer);
      assert next.announced.Get(Leader) == announced.Get(Leader) && next.current.Get(Leader) == current.Get(Leader);
    }
  }

  lemma OneCandidate(rows: seq<Row>, cutoff: int)
    requires |rows| == 1 && IsDue(rows[0], cutoff)
    ensures Candidates(rows, cutoff) == [rows[0]]
  {
    assert Due(rows[1..], cutoff) == [];
    assert Due(rows, cutoff) == [rows[0]];
    assert [rows[0]][1..] == [];
    assert Sort(Older, [rows[0]][1..]) == [];
  }

  function FreezeAt(at: int, id: nat): Event { FreezeNext(9, at, at, id, true) }

  lemma QuietStands(row: Row, announced: Flags, current: Flags)
    requires Line(row).None? && row.state.Some? && IsPending(row.state.value) && row.state.value.departed == []
    requires row.state.value.announced == announced && row.state.value.current == current
    requires AllKnown(announced) && AllKnown(current) && row.state.value.joined == Some(5) && row.posting.None?
    ensures var after := QuietRow(row);
      && after.user == row.user && after.posting.None? && after.state.Some? && after.state.value.joined == Some(5)
      && after.state.value.departed == [] && after.state.value.announced == current
      && after.state.value.current == current
  {
    hide Line;
    QuietTakes(row, Member);
    QuietTakes(row, Guest);
    QuietTakes(row, Officer);
    QuietTakes(row, Leader);
  }

  lemma SilentFreezeStands(b: Board, announced: Flags, current: Flags, since: int, at: int, id: nat, fits: Fits)
    requires Stands(b, announced, current, Some(since)) && since <= at && AllKnown(announced) && AllKnown(current)
    requires Line(b.rows[0]).None?
    ensures Stands(Next(b, FreezeAt(at, id), fits), current, current, None)
  {
    var row, after := b.rows[0], Next(b, FreezeAt(at, id), fits);
    assert RowInv(row);
    FrozenIsHeld(b.rows, None);
    FreezeShowsTheRow(b.rows, at, at, id, fits, 0);
    OneCandidate(b.rows, at);
    NextKeepsInv(b, None, FreezeAt(at, id), fits);
    QuietStands(row, announced, current);
    assert after.rows[0] == QuietRow(row);
    hide Line, QuietRow, Freeze;
    FreezeKeepsInv(b.rows, None, at, at, id, fits);
    NothingIsFrozen(after.rows, NextBatch(b, None, FreezeAt(at, id), fits));
    assert RowInv(after.rows[0]);
    NotPending(after.rows[0].state.value);
  }

  lemma NotPending(s: State)
    requires s.announced == s.current && s.departed == []
    ensures !IsPending(s)
  {
  }

  lemma NothingIsFrozen(rows: seq<Row>, batch: Option<Batch>)
    requires HoldsBatch(rows, batch) && |rows| == 1 && rows[0].posting.None?
    ensures batch.None?
  {
    assert batch.Some? ==> Placed(rows, 0);
  }

  lemma PostingFreezePlaces(b: Board, announced: Flags, current: Flags, since: int, at: int, id: nat, fits: Fits)
    requires Stands(b, announced, current, Some(since)) && since <= at && Line(b.rows[0]).Some?
    ensures var after := Next(b, FreezeAt(at, id), fits).rows;
      && |after| == 1 && after[0].posting.Some? && after[0].posting.value.batch == id
      && after[0] == b.rows[0].(posting := after[0].posting)
      && ShowsTheRow(after[0].posting.value.entry, b.rows[0])
  {
    FrozenIsHeld(b.rows, None);
    FreezeShowsTheRow(b.rows, at, at, id, fits, 0);
    OneCandidate(b.rows, at);
    hide Line;
    var fit := e => fits(at, e);
    var line := Line(b.rows[0]).value;
    var g := Gather([b.rows[0]], [], fit);
    assert [] + [line] == [line] && [b.rows[0]][1..] == [];
    assert Gather([], [line], fit).entries == [line];
    assert g.entries == [line];
    assert Place([line], 1) == Some(0);
  }

  const MEMBER_ALONE := Flags(Some(true), Some(false), Some(false), Some(false))
  const MEMBER_AND_GUEST := Flags(Some(true), Some(true), Some(false), Some(false))
  const NEITHER := Flags(Some(false), Some(false), Some(false), Some(false))

  const BOARD := Board([Row(1, Some(State(Some(5), MEMBER_ALONE, MEMBER_ALONE, map[], [])), None, None)],
                       Some(9), true, true)

  /** A Member's Guest flag rises, which a freeze announces silently; then both flags fall, which a post shows. */
  const EVENTS := [
    Reconciled(1, Decided(MEMBER_AND_GUEST), 5, 10), FreezeAt(20, 1),
    Reconciled(1, Decided(NEITHER), 5, 30), FreezeAt(40, 2), Marked(2, 50)]

  lemma GuestAloneHasNoLine(row: Row)
    requires row.state.Some? && row.state.value.departed == []
    requires row.state.value.announced == MEMBER_ALONE && row.state.value.current == MEMBER_AND_GUEST
    ensures Line(row).None? && Waiting(row.state.value, Guest)
  {
    var e := EntryFor(row.user, row.state.value);
    assert e.Some? ==> e.value.to.Get(Member) == Some(true);
    assert e.Some? ==> e.value.to.Get(Officer) == Some(false) && e.value.to.Get(Leader) == Some(false);
  }

  lemma LosingBothHasALine(row: Row)
    requires row.state.Some?
    requires row.state.value.announced == MEMBER_AND_GUEST && row.state.value.current == NEITHER
    ensures Line(row).Some?
  {
    assert Waiting(row.state.value, Member);
    var e := EntryFor(row.user, row.state.value).value;
    assert e.to.Get(Member) == Some(false) && e.to.Get(Guest) == Some(false);
  }

  lemma UpToTheFreeze(fits: Fits) returns (first: Board, second: Board, third: Board)
    ensures Stands(BOARD, MEMBER_ALONE, MEMBER_ALONE, None)
    ensures first == Next(BOARD, EVENTS[0], fits) && Stands(first, MEMBER_ALONE, MEMBER_AND_GUEST, Some(10))
    ensures second == Next(first, EVENTS[1], fits) && Stands(second, MEMBER_AND_GUEST, MEMBER_AND_GUEST, None)
    ensures third == Next(second, EVENTS[2], fits) && Stands(third, MEMBER_AND_GUEST, NEITHER, Some(30))
    ensures Steady(BOARD.rows[0], EVENTS[0], Bare(Guest)) && Steady(second.rows[0], EVENTS[2], Bare(Guest))
  {
    hide Next, Line;
    NotPending(BOARD.rows[0].state.value);
    PassStands(BOARD, MEMBER_ALONE, MEMBER_AND_GUEST, 10, fits);
    first := Next(BOARD, EVENTS[0], fits);
    GuestAloneHasNoLine(first.rows[0]);
    SilentFreezeStands(first, MEMBER_ALONE, MEMBER_AND_GUEST, 10, 20, 1, fits);
    second := Next(first, EVENTS[1], fits);
    PassStands(second, MEMBER_AND_GUEST, NEITHER, 30, fits);
    third := Next(second, EVENTS[2], fits);
  }

  lemma OneEvent(b: Board, event: Event, rest: seq<Event>, fits: Fits)
    requires |b.rows| == 1
    ensures PostsOf(b, [event] + rest, fits, 0, Bare(Guest)) ==
      Posted(b.rows[0], event, Bare(Guest)) + PostsOf(Next(b, event, fits), rest, fits, 0, Bare(Guest))
    ensures RunsSteady(b, [event] + rest, fits, 0, Bare(Guest)) <==>
      Steady(b.rows[0], event, Bare(Guest)) && RunsSteady(Next(b, event, fits), rest, fits, 0, Bare(Guest))
  {
    assert ([event] + rest)[1..] == rest;
  }

  lemma LastPost(third: Board, fits: Fits)
    requires Stands(third, MEMBER_AND_GUEST, NEITHER, Some(30))
    ensures RunsSteady(third, EVENTS[3..], fits, 0, Bare(Guest))
    ensures PostsOf(third, EVENTS[3..], fits, 0, Bare(Guest)) == [Shown(Value(Some(true)), Value(Some(false)))]
  {
    LosingBothHasALine(third.rows[0]);
    PostingFreezePlaces(third, MEMBER_AND_GUEST, NEITHER, 30, 40, 2, fits);
    hide Next, Line;
    var frozen := Next(third, EVENTS[3], fits);
    OneEvent(third, EVENTS[3], EVENTS[4..], fits);
    assert [EVENTS[3]] + EVENTS[4..] == EVENTS[3..];
    OneEvent(frozen, EVENTS[4], [], fits);
    assert [EVENTS[4]] + [] == EVENTS[4..];
    var e := frozen.rows[0].posting.value.entry;
    assert e.from.Get(Guest) == Some(true);
    assert Paired(third.rows[0].state.value, Guest) && e.to.Get(Guest) == Some(false);
  }

  /**
   * Why the bare Guest flag needs its condition: this run never rejoins, unbinds or unsets the channel,
   * yet its one post of the flag starts from true though false stood there and no post came before.
   */
  lemma SilentGuestPartsThePosts(fits: Fits)
    ensures BoardInv(BOARD, None) && Ready(BOARD.rows[0], Bare(Guest))
    ensures RunsSteady(BOARD, EVENTS, fits, 0, Bare(Guest))
    ensures Shows(Bare(Guest), Said(BOARD.rows[0])) == Value(Some(false))
    ensures PostsOf(BOARD, EVENTS, fits, 0, Bare(Guest)) == [Shown(Value(Some(true)), Value(Some(false)))]
    ensures forall end :: !Chain(PostsOf(BOARD, EVENTS, fits, 0, Bare(Guest)), Value(Some(false)), end)
  {
    var first, second, third := UpToTheFreeze(fits);
    LastPost(third, fits);
    hide Next, Line;
    OneEvent(BOARD, EVENTS[0], EVENTS[1..], fits);
    OneEvent(first, EVENTS[1], EVENTS[2..], fits);
    OneEvent(second, EVENTS[2], EVENTS[3..], fits);
    assert [EVENTS[0]] + EVENTS[1..] == EVENTS && [EVENTS[1]] + EVENTS[2..] == EVENTS[1..];
    assert [EVENTS[2]] + EVENTS[3..] == EVENTS[2..];
  }
}
