/** What a member's status posts say, one after the other. */
module StatusPosts {
  import opened Options
  import opened StatusDomain
  import opened StatusBoard
  import opened StatusInvariants
  import opened StatusProtocol
  import opened StatusRuns

  /** What may be read off a post: one bare flag, or the access level Member and Guest show together. */
  datatype Aspect = Bare(flag: Flag) | Access

  datatype View = Value(value: Option<bool>) | AtLevel(level: Level)

  function Shows(a: Aspect, flags: Flags): View {
    match a
    case Bare(f) => Value(flags.Get(f))
    case Access => AtLevel(LevelOf(flags))
  }

  function Said(row: Row): Flags { if row.state.Some? then row.state.value.announced else NO_FLAGS }

  /** A flag's two values are known together: from its first decisive value on, while it is bound. */
  ghost predicate Paired(s: State, f: Flag) { s.announced.Get(f).Some? <==> s.current.Get(f).Some? }

  /** An entry frozen in the member's present join still starts from what the row has announced. */
  ghost predicate Matches(e: Entry, s: State, f: Flag) {
    e.joined == s.joined ==> e.from.Get(f) == s.announced.Get(f) && (e.from.Get(f).Some? <==> e.to.Get(f).Some?)
  }

  ghost predicate FlagReady(row: Row, f: Flag) {
    && row.state.Some? && row.state.value.joined.Some? && Paired(row.state.value, f)
    && (row.posting.Some? ==> Matches(row.posting.value.entry, row.state.value, f))
  }

  ghost predicate Ready(row: Row, a: Aspect) {
    match a
    case Bare(f) => FlagReady(row, f)
    case Access => FlagReady(row, Member) && FlagReady(row, Guest)
  }

  /** No rejoin, no unbinding or first value of the flag, and no unset channel. */
  ghost predicate FlagSteady(row: Row, event: Event, f: Flag) {
    match event
    case Reconciled(user, o, joined, _) =>
      user == row.user ==>
        && row.state.Some? && row.state.value.joined == Some(joined)
        && if Said(row).Get(f).Some? then o.Get(f).value.Some? else o.Get(f).value.None? || !o.Get(f).decisive
    case Configured(channel) => channel.Some?
    case _ => true
  }

  ghost predicate Steady(row: Row, event: Event, a: Aspect) {
    match a
    case Bare(f) => FlagSteady(row, event, f)
    case Access => FlagSteady(row, event, Member) && FlagSteady(row, event, Guest)
  }

  ghost predicate RunsSteady(b: Board, events: seq<Event>, fits: Fits, k: nat, a: Aspect)
    decreases |events|
  {
    events == []
    || (k < |b.rows| && Steady(b.rows[k], events[0], a)
        && RunsSteady(Next(b, events[0], fits), events[1..], fits, k, a))
  }

  lemma ObserveStaysReady(row: Row, o: Observation, joined: int, now: int, f: Flag)
    requires FlagReady(row, f) && FlagSteady(row, Reconciled(row.user, o, joined, now), f)
    ensures FlagReady(ObserveRow(row, true, o, joined, now), f)
    ensures Said(ObserveRow(row, true, o, joined, now)).Get(f) == Said(row).Get(f)
  {
  }

  lemma {:induction false} DepartedKeepsFlags(state: Option<State>, user: nat, items: seq<(nat, Departure)>)
    requires state.Some?
    ensures var after := Departed(state, user, items);
      && after.Some? && after.value.joined == state.value.joined
      && after.value.announced == state.value.announced && after.value.current == state.value.current
    decreases |items|
  {
    if items != [] {
      DepartedKeepsFlags(if items[0].0 == user then Some(AddDeparture(state, items[0].1)) else state, user, items[1..]);
    }
  }

  lemma DepartStaysReady(row: Row, items: seq<(nat, Departure)>, now: int, f: Flag)
    requires FlagReady(row, f)
    ensures FlagReady(DepartRow(row, items, now), f)
    ensures Said(DepartRow(row, items, now)).Get(f) == Said(row).Get(f)
  {
    DepartedKeepsFlags(row.state, row.user, items);
  }

  /** The mark of this row's batch, frozen in the member's present join. */
  predicate Marks(row: Row, event: Event) {
    && event.Marked? && row.posting.Some? && row.posting.value.batch == event.batch
    && row.state.Some? && row.posting.value.entry.joined == row.state.value.joined
  }

  lemma MarkStaysReady(row: Row, event: Event, f: Flag)
    requires FlagReady(row, f) && event.Marked?
    ensures var after := MarkRow(row, event.batch, event.at);
      && FlagReady(after, f)
      && Said(after).Get(f) == (if Marks(row, event) then row.posting.value.entry.to else Said(row)).Get(f)
  {
  }

  /** An entry says what the row announced before and what is so now. */
  ghost predicate ShowsTheRow(e: Entry, row: Row) {
    && row.state.Some? && e.user == row.user && e.joined == row.state.value.joined
    && (forall f :: e.from.Get(f) == row.state.value.announced.Get(f))
    && (forall f :: Paired(row.state.value, f) ==> e.to.Get(f) == row.state.value.current.Get(f))
    && (forall f :: f in e.reasons <==> f in row.state.value.reasons && Waiting(row.state.value, f))
    && (forall f :: f in e.reasons ==> e.reasons[f] == row.state.value.reasons[f])
    && e.departed == row.state.value.departed
  }

  lemma LineShowsTheRow(row: Row)
    requires Line(row).Some?
    ensures ShowsTheRow(Line(row).value, row)
  {
  }

  /**
   * A fresh batch says of each of its members what the row announced before and what is so at the
   * freeze; the row itself only gets its place. A row without a place is announced silently exactly when
   * it is due, has no line, and every line ahead of it went in; otherwise it stays as it was.
   */
  lemma FreezeShowsTheRow(rows: seq<Row>, cutoff: int, now: int, id: nat, fits: Fits, k: nat)
    requires RowsInv(rows) && HoldsBatch(rows, None) && k < |rows|
    ensures var after := Freeze(rows, cutoff, now, id, fits).rows;
      && |after| == |rows|
      && if after[k].posting.Some?
         then after[k] == rows[k].(posting := after[k].posting) && ShowsTheRow(after[k].posting.value.entry, rows[k])
         else after[k] == if Silenced(rows, cutoff, e => fits(now, e), rows[k]) then QuietRow(rows[k]) else rows[k]
    ensures Silenced(rows, cutoff, e => fits(now, e), rows[k]) ==>
      Freeze(rows, cutoff, now, id, fits).rows[k].posting.None?
  {
    FrozenIsHeld(rows, None);
    var fit := e => fits(now, e);
    var g := Gather(Candidates(rows, cutoff), [], fit);
    QuietKeepsRow(rows[k]);
    GatheredQuiet(rows, cutoff, fit, k);
    if Place(g.entries, rows[k].user).Some? {
      GatheredPlace(rows, cutoff, fit, k);
      LineShowsTheRow(rows[k]);
    }
    hide ShowsTheRow, QuietRow, Line, Gather, Candidates, AllGoIn, LinesBefore;
  }

  /** A row announced silently takes its decisive values. */
  lemma QuietTakes(row: Row, f: Flag)
    requires FlagReady(row, f) && row.posting.None? && Line(row).None?
    ensures FlagReady(QuietRow(row), f) && QuietRow(row).state.value.joined == row.state.value.joined
    ensures Said(QuietRow(row)).Get(f) == row.state.value.current.Get(f)
  {
  }

  lemma SameLevel(from: Flags, to: Flags, f: Flag)
    requires LevelOf(from) == LevelOf(to) && (f == Member || f == Guest)
    requires from.Get(f).Some? && to.Get(f).Some? && from.Get(f).value != to.Get(f).value
    ensures f == Guest && from.member == to.member == Some(true)
  {
    var was, now := from.Get(f).value, to.Get(f).value;
    assert from.Get(f) == Some(was) && to.Get(f) == Some(now);
  }

  /** Of a change without a line only the Guest flag can move, of a member announced as a Member before and after. */
  lemma OnlyGuestHasNoLine(row: Row, f: Flag)
    requires Line(row).None? && row.state.Some? && Waiting(row.state.value, f)
    ensures f == Guest && Said(row).member == Some(true) && !Waiting(row.state.value, Member)
  {
    var s := row.state.value;
    assert IsPending(s);
    var e := EntryFor(row.user, s).value;
    assert forall g: Flag :: e.to.Get(g) == if Waiting(s, g) then s.current.Get(g) else s.announced.Get(g);
    assert !Waiting(s, Officer) && !Waiting(s, Leader) && LevelOf(e.from) == LevelOf(e.to);
    SameLevel(e.from, e.to, f);
    if Waiting(s, Member) { SameLevel(e.from, e.to, Member); }
  }

  lemma QuietKeepsLevel(row: Row)
    requires FlagReady(row, Member) && FlagReady(row, Guest) && row.posting.None? && Line(row).None?
    ensures LevelOf(Said(QuietRow(row))) == LevelOf(Said(row))
  {
    QuietTakes(row, Member);
    QuietTakes(row, Guest);
  }

  /** The freeze announces the member's bare flag silently. */
  ghost predicate Silences(b: Board, event: Event, fits: Fits, row: Row, a: Aspect) {
    && event.FreezeNext? && MayPost(b, event.target) && event.leased && FrozenIn(b.rows).None?
    && Silenced(b.rows, event.cutoff, e => fits(event.at, e), row)
    && a.Bare? && row.state.Some? && Waiting(row.state.value, a.flag)
  }

  /** What a post says of the aspect: as it was, and as it is. */
  datatype Shown = Shown(from: View, to: View)

  /** What the post this event completes for the row, in the member's present join, says of the aspect. */
  function Posted(row: Row, event: Event, a: Aspect): seq<Shown> {
    if Marks(row, event)
    then [Shown(Shows(a, row.posting.value.entry.from), Shows(a, row.posting.value.entry.to))] else []
  }

  /** What one event announces of the member: a post, or a silent announcement of a bare flag. */
  ghost function Announces(b: Board, event: Event, fits: Fits, row: Row, a: Aspect): seq<Shown> {
    if Silences(b, event, fits, row, a)
    then [Shown(Shows(a, row.state.value.announced), Shows(a, row.state.value.current))] else Posted(row, event, a)
  }

  /** Each starts from the view before it, and the last leaves `end`. */
  ghost predicate Chain(changes: seq<Shown>, start: View, end: View) {
    if changes == [] then start == end
    else changes[0].from == start && Chain(changes[1..], changes[0].to, end)
  }

  lemma QuietStep(row: Row, a: Aspect)
    requires Ready(row, a) && row.posting.None? && Line(row).None?
    ensures Ready(QuietRow(row), a)
    ensures Shows(a, Said(QuietRow(row))) ==
      if a.Bare? && Waiting(row.state.value, a.flag) then Shows(a, row.state.value.current) else Shows(a, Said(row))
  {
    match a
    case Bare(f) => QuietTakes(row, f);
    case Access =>
      QuietTakes(row, Member);
      QuietTakes(row, Guest);
      QuietKeepsLevel(row);
  }

  lemma FreezeStep(b: Board, batch: Option<Batch>, event: Event, fits: Fits, k: nat, a: Aspect)
    requires BoardInv(b, batch) && k < |b.rows| && Ready(b.rows[k], a) && event.FreezeNext?
    ensures var after := Next(b, event, fits).rows;
      && |after| == |b.rows| && Ready(after[k], a)
      && Shows(a, Said(after[k])) ==
         Shows(a, if Silences(b, event, fits, b.rows[k], a) then b.rows[k].state.value.current else Said(b.rows[k]))
  {
    FrozenIsHeld(b.rows, batch);
    FreezeKeepsInv(b.rows, batch, event.cutoff, event.at, event.id, fits);
    if batch.None? && MayPost(b, event.target) && event.leased {
      FreezeShowsTheRow(b.rows, event.cutoff, event.at, event.id, fits, k);
      hide Freeze, QuietRow, Line;
      if Silenced(b.rows, event.cutoff, e => fits(event.at, e), b.rows[k]) { QuietStep(b.rows[k], a); }
    }
  }

  lemma MarkStep(row: Row, event: Event, a: Aspect)
    requires Ready(row, a) && event.Marked?
    ensures var after := MarkRow(row, event.batch, event.at);
      && Ready(after, a)
      && Shows(a, Said(after)) == Shows(a, if Marks(row, event) then row.posting.value.entry.to else Said(row))
      && (Marks(row, event) ==> Shows(a, row.posting.value.entry.from) == Shows(a, Said(row)))
  {
    hide MarkRow;
    match a
    case Bare(f) => MarkStaysReady(row, event, f);
    case Access =>
      MarkStaysReady(row, event, Member);
      MarkStaysReady(row, event, Guest);
  }

  lemma ObserveStep(row: Row, o: Observation, joined: int, now: int, a: Aspect)
    requires Ready(row, a) && Steady(row, Reconciled(row.user, o, joined, now), a)
    ensures var after := ObserveRow(row, true, o, joined, now);
      Ready(after, a) && Shows(a, Said(after)) == Shows(a, Said(row))
  {
    hide ObserveRow;
    match a
    case Bare(f) => ObserveStaysReady(row, o, joined, now, f);
    case Access =>
      ObserveStaysReady(row, o, joined, now, Member);
      ObserveStaysReady(row, o, joined, now, Guest);
  }

  lemma DepartStep(row: Row, items: seq<(nat, Departure)>, now: int, a: Aspect)
    requires Ready(row, a)
    ensures var after := DepartRow(row, items, now);
      Ready(after, a) && Shows(a, Said(after)) == Shows(a, Said(row))
  {
    hide DepartRow;
    match a
    case Bare(f) => DepartStaysReady(row, items, now, f);
    case Access =>
      DepartStaysReady(row, items, now, Member);
      DepartStaysReady(row, items, now, Guest);
  }

  /**
   * One event of a steady run: what is announced of the member moves exactly by the post the event
   * completes, or by a bare flag's silent announcement, from what stood there to what it says.
   */
  lemma StepPosts(b: Board, batch: Option<Batch>, event: Event, fits: Fits, k: nat, a: Aspect)
    requires BoardInv(b, batch) && b.channel.Some? && k < |b.rows| && Ready(b.rows[k], a)
    requires Steady(b.rows[k], event, a)
    ensures var after := Next(b, event, fits);
      && |after.rows| == |b.rows| && after.channel.Some? && Ready(after.rows[k], a)
      && Chain(Announces(b, event, fits, b.rows[k], a), Shows(a, Said(b.rows[k])), Shows(a, Said(after.rows[k])))
  {
    hide ObserveRow, DepartRow, MarkRow, Freeze, Ready, Silenced;
    NextKeepsInv(b, batch, event, fits);
    var row := b.rows[k];
    match event
    case Reconciled(user, o, joined, at) =>
      if user == row.user { ObserveStep(row, o, joined, at, a); }
    case Departures(items, at) => DepartStep(row, items, at, a);
    case Configured(_) =>
    case Paused(_, _) =>
    case FreezeNext(_, _, _, _, _) => FreezeStep(b, batch, event, fits, k, a);
    case Marked(_, _) => MarkStep(row, event, a);
  }

  /** What every post of the run says of the aspect. */
  function PostsOf(b: Board, events: seq<Event>, fits: Fits, k: nat, a: Aspect): seq<Shown>
    decreases |events|
  {
    if events == [] || k >= |b.rows| then []
    else Posted(b.rows[k], events[0], a) + PostsOf(Next(b, events[0], fits), events[1..], fits, k, a)
  }

  /** Everything the run announces of the aspect, posted or silent. */
  ghost function Announcements(b: Board, events: seq<Event>, fits: Fits, k: nat, a: Aspect): seq<Shown>
    decreases |events|
  {
    if events == [] || k >= |b.rows| then []
    else Announces(b, events[0], fits, b.rows[k], a) + Announcements(Next(b, events[0], fits), events[1..], fits, k, a)
  }

  lemma {:induction false} ChainsJoin(first: seq<Shown>, rest: seq<Shown>, start: View, middle: View, end: View)
    requires Chain(first, start, middle) && Chain(rest, middle, end)
    ensures Chain(first + rest, start, end)
  {
    if first == [] {
      assert first + rest == rest;
    } else {
      assert (first + rest)[1..] == first[1..] + rest;
      ChainsJoin(first[1..], rest, first[0].to, middle, end);
    }
  }

  /**
   * Announcements compose: over any run without a rejoin, an unbinding or an unset channel, what each says
   * of a flag or of the access level, posted or silent, starts from what the one before left announced, the
   * first from what stood before the run, and the last leaves what stands now.
   */
  lemma {:induction false} AnnouncementsCompose(b: Board, batch: Option<Batch>, events: seq<Event>, fits: Fits, k: nat,
                                                a: Aspect)
    requires BoardInv(b, batch) && b.channel.Some? && k < |b.rows| && Ready(b.rows[k], a)
    requires RunsSteady(b, events, fits, k, a)
    ensures var after := Run(b, events, fits);
      && |after.rows| == |b.rows| && after.channel.Some? && Ready(after.rows[k], a)
      && Chain(Announcements(b, events, fits, k, a), Shows(a, Said(b.rows[k])), Shows(a, Said(after.rows[k])))
    decreases |events|
  {
    if events != [] {
      hide BoardInv, Next, Steady, Ready, Announces, Shows, Said;
      var next := Next(b, events[0], fits);
      NextKeepsInv(b, batch, events[0], fits);
      StepPosts(b, batch, events[0], fits, k, a);
      AnnouncementsCompose(next, NextBatch(b, batch, events[0], fits), events[1..], fits, k, a);
      ChainsJoin(Announces(b, events[0], fits, b.rows[k], a), Announcements(next, events[1..], fits, k, a),
                 Shows(a, Said(b.rows[k])), Shows(a, Said(next.rows[k])), Shows(a, Said(Run(b, events, fits).rows[k])));
    }
  }

  /** No freeze of the run announces the flag silently. */
  ghost predicate NeverSilenced(b: Board, events: seq<Event>, fits: Fits, k: nat, a: Aspect)
    decreases |events|
  {
    events == []
    || (k < |b.rows| && !Silences(b, events[0], fits, b.rows[k], a)
        && NeverSilenced(Next(b, events[0], fits), events[1..], fits, k, a))
  }

  lemma {:induction false} OnlyGuestIsSilenced(b: Board, events: seq<Event>, fits: Fits, k: nat, a: Aspect)
    requires a != Bare(Guest) || NeverSilenced(b, events, fits, k, a)
    ensures Announcements(b, events, fits, k, a) == PostsOf(b, events, fits, k, a)
    decreases |events|
  {
    if events != [] && k < |b.rows| {
      hide Next, Posted, Line;
      if Silences(b, events[0], fits, b.rows[k], a) { OnlyGuestHasNoLine(b.rows[k], a.flag); }
      OnlyGuestIsSilenced(Next(b, events[0], fits), events[1..], fits, k, a);
    }
  }

  /**
   * So posts compose: of Member, Officer, FC Leader and the access level with no condition on any freeze,
   * and of the bare Guest flag, which no post shows by itself, while no freeze announces it silently.
   */
  lemma PostsCompose(b: Board, batch: Option<Batch>, events: seq<Event>, fits: Fits, k: nat, a: Aspect)
    requires BoardInv(b, batch) && b.channel.Some? && k < |b.rows| && Ready(b.rows[k], a)
    requires RunsSteady(b, events, fits, k, a)
    requires a == Bare(Guest) ==> NeverSilenced(b, events, fits, k, a)
    ensures var after := Run(b, events, fits);
      && |after.rows| == |b.rows| && after.channel.Some? && Ready(after.rows[k], a)
      && Chain(PostsOf(b, events, fits, k, a), Shows(a, Said(b.rows[k])), Shows(a, Said(after.rows[k])))
  {
    AnnouncementsCompose(b, batch, events, fits, k, a);
    OnlyGuestIsSilenced(b, events, fits, k, a);
  }

  /** A join's first pass, with at most an earlier join's post frozen. */
  ghost predicate Begins(row: Row, event: Event, a: Aspect) {
    && event.Reconciled? && event.user == row.user
    && (row.state.None? || row.state.value.joined != Some(event.joined))
    && (row.posting.Some? ==> row.posting.value.entry.joined != Some(event.joined))
  }

  lemma FlagBegins(row: Row, o: Observation, joined: int, now: int, f: Flag)
    requires Begins(row, Reconciled(row.user, o, joined, now), Bare(f))
    ensures var after := ObserveRow(row, true, o, joined, now);
      && FlagReady(after, f) && !Waiting(after.state.value, f)
      && Said(after).Get(f) == if o.Get(f).decisive then o.Get(f).value else None
  {
  }

  /** What a join's first pass leaves announced. */
  function Baseline(o: Observation): Flags {
    Each(f => if o.Get(f).decisive then o.Get(f).value else None)
  }

  lemma JoinBegins(row: Row, event: Event, a: Aspect)
    requires Begins(row, event, a)
    ensures var after := ObserveRow(row, true, event.observation, event.joined, event.at);
      Ready(after, a) && Shows(a, Said(after)) == Shows(a, Baseline(event.observation))
  {
    hide ObserveRow;
    match a
    case Bare(f) => FlagBegins(row, event.observation, event.joined, event.at, f);
    case Access =>
      FlagBegins(row, event.observation, event.joined, event.at, Member);
      FlagBegins(row, event.observation, event.joined, event.at, Guest);
  }

  /**
   * From a join's first pass on, a rejoin's included, everything announced of the member in that join
   * composes, from what that pass decided: a post frozen in an earlier join, marked before or after,
   * moves nothing.
   */
  lemma RejoinStartsOver(b: Board, batch: Option<Batch>, begin: Event, events: seq<Event>, fits: Fits, k: nat,
                         a: Aspect)
    requires BoardInv(b, batch) && b.channel.Some? && k < |b.rows| && Begins(b.rows[k], begin, a)
    requires RunsSteady(Next(b, begin, fits), events, fits, k, a)
    ensures var joined := Next(b, begin, fits);
      var after := Run(joined, events, fits);
      && |after.rows| == |b.rows| && Ready(after.rows[k], a)
      && Chain(Announcements(joined, events, fits, k, a), Shows(a, Baseline(begin.observation)),
               Shows(a, Said(after.rows[k])))
      && (a != Bare(Guest) ==> Announcements(joined, events, fits, k, a) == PostsOf(joined, events, fits, k, a))
  {
    NextKeepsInv(b, batch, begin, fits);
    JoinBegins(b.rows[k], begin, a);
    hide ObserveRow, Begins, Ready, Said, Shows, Baseline;
    var joined := Next(b, begin, fits);
    AnnouncementsCompose(joined, NextBatch(b, batch, begin, fits), events, fits, k, a);
    if a != Bare(Guest) { OnlyGuestIsSilenced(joined, events, fits, k, a); }
  }
}
