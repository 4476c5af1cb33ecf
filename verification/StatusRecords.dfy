/** What a pass, a drop and a mark leave on a member's row, flag by flag. */
module StatusRecords {
  import opened Options
  import opened StatusDomain
  import opened StatusBoard
  import opened StatusInvariants
  import opened StatusProtocol
  import opened StatusRuns
  import opened StatusNotices
  import opened StatusDepartures

  /** The pass belongs to the join the row's values belong to. */
  predicate SameJoin(row: Row, joined: int) { row.state.Some? && row.state.value.joined == Some(joined) }

  /** What was announced and decided of a flag in this join, before the pass. */
  function Was(row: Row, joined: int, f: Flag): (Option<bool>, Option<bool>) {
    if SameJoin(row, joined) then (row.state.value.announced.Get(f), row.state.value.current.Get(f)) else (None, None)
  }

  /**
   * A pass of the same join keeps what was announced, but forgets an unbound flag and takes a first decisive
   * value silently; of another join it starts over. A decisive value becomes the current one, an undecided
   * one leaves it. Departures stay.
   */
  lemma PassRecords(row: Row, o: Observation, joined: int, now: int, f: Flag)
    ensures var after := ObserveRow(row, true, o, joined, now);
      var seen, announced, current := o.Get(f), Was(row, joined, f).0, Was(row, joined, f).1;
      && after.user == row.user && after.posting == row.posting && after.state.Some?
      && after.state.value.joined == Some(joined) && after.state.value.departed == Waits(row.state)
      && after.state.value.announced.Get(f) ==
           (if seen.value.None? then None
            else if seen.decisive && announced.None? then seen.value else announced)
      && after.state.value.current.Get(f) == (if seen.value.None? || seen.decisive then seen.value else current)
  {
  }

  /**
   * A reason stands exactly while its change waits: the pass's own when it decides against what is announced,
   * otherwise the one already there.
   */
  lemma PassExplains(row: Row, o: Observation, joined: int, now: int, f: Flag)
    ensures var s := ObserveRow(row, true, o, joined, now).state.value;
      var seen, announced := o.Get(f), Was(row, joined, f).0;
      var decides := seen.value.Some? && seen.decisive && announced.Some? && announced != seen.value;
      var had := SameJoin(row, joined) && f in row.state.value.reasons;
      var waits := s.announced.Get(f).Some? && s.current.Get(f).Some? && s.announced.Get(f) != s.current.Get(f);
      && ObserveRow(row, true, o, joined, now).state.Some?
      && (f in s.reasons <==> waits && (decides || had))
      && (f in s.reasons ==> s.reasons[f] == if decides then seen.reason else row.state.value.reasons[f])
  {
  }

  /** Something waits to be posted: a bound flag whose decided value isn't the announced one, or a departure. */
  ghost predicate SomethingWaits(state: Option<State>) {
    state.Some?
    && (state.value.departed != []
        || exists f: Flag :: state.value.announced.Get(f).Some? && state.value.current.Get(f).Some?
             && state.value.announced.Get(f) != state.value.current.Get(f))
  }

  lemma PendingIsWaiting(state: Option<State>)
    ensures Pending(state) <==> SomethingWaits(state)
  {
    if state.Some? {
      forall f: Flag | Waiting(state.value, f) ensures IsPending(state.value) {
        match f case Member => case Guest => case Officer => case Leader =>
      }
      if IsPending(state.value) && state.value.departed == [] {
        var f: Flag :| Waiting(state.value, f);
      }
    }
  }

  /** A row is dated from the oldest change still waiting, and undated once nothing waits. */
  lemma PassDates(row: Row, o: Observation, joined: int, now: int)
    requires RowInv(row)
    ensures var after := ObserveRow(row, true, o, joined, now);
      after.since == if !SomethingWaits(after.state) then None else if row.since.Some? then row.since else Some(now)
  {
    var after := ObserveRow(row, true, o, joined, now);
    PendingIsWaiting(after.state);
    PendingIsWaiting(row.state);
    hide SomethingWaits, IsPending, Recorded;
  }

  /** A post is asked for exactly when some flag's decided value moved against a known baseline. */
  lemma PassMoves(row: Row, o: Observation, joined: int)
    ensures Observe(row.state, o, joined).moved <==>
      exists f: Flag :: o.Get(f).value.Some? && o.Get(f).decisive && Was(row, joined, f).0.Some?
        && Was(row, joined, f).1 != o.Get(f).value
  {
    var base := Base(row.state, joined);
    forall f: Flag ensures Moves(base, o.Get(f), f) <==>
      o.Get(f).value.Some? && o.Get(f).decisive && Was(row, joined, f).0.Some?
      && Was(row, joined, f).1 != o.Get(f).value
    {
    }
    if f: Flag :| Moves(base, o.Get(f), f) { match f case Member => case Guest => case Officer => case Leader => }
  }

  /** What waits becomes announced as it is, and the row holds nothing more. */
  ghost predicate Settled(before: State, after: Row) {
    && after.since.None? && after.posting.None? && after.state.Some?
    && (forall f: Flag :: after.state.value.announced.Get(f) == before.current.Get(f)
                       && after.state.value.current.Get(f) == before.current.Get(f))
    && after.state.value.reasons == map[] && after.state.value.departed == []
    && after.state.value.joined == before.joined
  }

  /** Without a channel a drop announces what waits and forgets the rest; a row that holds nothing stays. */
  lemma DropSettles(row: Row)
    requires row.state.Some?
    ensures if row.since.None? && row.posting.None? then DropRow(row) == row
            else DropRow(row).user == row.user && Settled(row.state.value, DropRow(row))
  {
  }

  /** And so does a pass while there is no channel, with what it decided. */
  lemma PassWithoutChannel(row: Row, o: Observation, joined: int, now: int)
    requires RowInv(row)
    ensures var seen, after := ObserveRow(row, true, o, joined, now), ObserveRow(row, false, o, joined, now);
      && after.user == row.user && seen.state.Some?
      && if seen.state == row.state && !SomethingWaits(row.state) && row.since.None? && row.posting.None?
         then after == row else Settled(seen.state.value, after)
  {
    PendingIsWaiting(ObserveRow(row, true, o, joined, now).state);
    hide SomethingWaits, Recorded, IsPending;
  }

  /**
   * The mark of a row's batch makes each posted flag, in the join it was frozen in and where nothing else
   * announced it since, what the post said; the decided values stay, and what still waits is dated anew.
   */
  lemma MarkRecords(row: Row, at: int, f: Flag)
    requires row.state.Some? && row.posting.Some?
    ensures var s, e, after := row.state.value, row.posting.value.entry, MarkRow(row, row.posting.value.batch, at);
      && after.user == row.user && after.posting.None? && after.state.Some?
      && after.state.value.joined == s.joined && after.state.value.current.Get(f) == s.current.Get(f)
      && after.state.value.announced.Get(f) ==
           (if e.joined == s.joined && e.from.Get(f).Some? && s.announced.Get(f) == e.from.Get(f) then e.to.Get(f)
            else s.announced.Get(f))
      && (forall d :: d in after.state.value.departed <==> d in s.departed && !Has(e.departed, d))
      && after.since == (if SomethingWaits(after.state) then Some(at) else None)
  {
    var s, e, after := row.state.value, row.posting.value.entry, MarkRow(row, row.posting.value.batch, at);
    PendingIsWaiting(after.state);
    forall d ensures d in after.state.value.departed <==> d in s.departed && !Has(e.departed, d) {
      UnpostedKeeps(s.departed, e.departed, d);
      assert Has(e.departed, d) <==> exists k :: 0 <= k < |e.departed| && SameDeparture(e.departed[k], d);
    }
    hide SomethingWaits, IsPending, Has, Unposted;
  }

  /** What the flag is now, as a post would say: the decided value once it is announced at all. */
  function NowOf(s: State, f: Flag): Option<bool> {
    if s.announced.Get(f).Some? && s.current.Get(f).Some? then s.current.Get(f) else s.announced.Get(f)
  }

  /** Membership changed, or, of somebody who is no Member before or after, the Guest access. */
  predicate AccessChanges(s: State) {
    var member, guest := s.announced.Get(Member) == Some(true), s.announced.Get(Guest) == Some(true);
    member != (NowOf(s, Member) == Some(true)) || (!member && guest != (NowOf(s, Guest) == Some(true)))
  }

  /** A row has a line of its own exactly when a departure waits, or Officer, FC Leader or the access changed. */
  lemma LineTells(row: Row)
    ensures Line(row).Some? <==>
      && row.state.Some?
      && var s := row.state.value;
        || s.departed != [] || AccessChanges(s)
        || NowOf(s, Officer) != s.announced.Get(Officer) || NowOf(s, Leader) != s.announced.Get(Leader)
  {
    if row.state.Some? {
      var s := row.state.value;
      if IsPending(s) {
        var e := EntryFor(row.user, s).value;
        assert forall f: Flag :: e.to.Get(f) == NowOf(s, f);
        assert e.to.Get(Member) == NowOf(s, Member) && e.to.Get(Guest) == NowOf(s, Guest);
        assert e.to.Get(Officer) == NowOf(s, Officer) && e.to.Get(Leader) == NowOf(s, Leader);
      } else {
        assert forall f: Flag :: !Waiting(s, f) ==> NowOf(s, f) == s.announced.Get(f);
        assert !Waiting(s, Member) && !Waiting(s, Guest) && !Waiting(s, Officer) && !Waiting(s, Leader);
      }
    }
  }

  /**
   * A freeze touches nothing unless TaruBot is active with its effects on, the channel is still the one asked
   * for, and nothing is frozen yet; a new batch needs the job's lease too.
   */
  lemma FreezeNeeds(b: Board, batch: Option<Batch>, event: Event, fits: Fits)
    requires BoardInv(b, batch) && event.FreezeNext?
    requires !b.active || !b.effects || b.channel != Some(event.target) || batch.Some? || !event.leased
    ensures Next(b, event, fits) == b
  {
    FrozenIsHeld(b.rows, batch);
    FreezeKeepsInv(b.rows, batch, event.cutoff, event.at, event.id, fits);
  }

  /** No row due at the cutoff has a line. */
  ghost predicate NoLineDue(rows: seq<Row>, cutoff: int) {
    forall k :: 0 <= k < |rows| && rows[k].since.Some? && rows[k].since.value <= cutoff ==> Line(rows[k]).None?
  }

  lemma NoBatchNoLine(rows: seq<Row>, cutoff: int, fit: seq<Entry> -> bool)
    requires Ascending(rows) && Gather(Candidates(rows, cutoff), [], fit).entries == []
    ensures NoLineDue(rows, cutoff)
  {
    hide Line, Gather, Candidates;
    var c := Candidates(rows, cutoff);
    NoEntriesMeansNoLines(c, fit);
    CandidateRows(rows, cutoff);
    forall k | 0 <= k < |rows| && rows[k].since.Some? && rows[k].since.value <= cutoff ensures Line(rows[k]).None? {
      assert rows[k] in c;
      var j :| 0 <= j < |c| && c[j] == rows[k];
      assert Line(c[j]).None?;
    }
  }

  lemma FreshBatchIs(rows: seq<Row>, cutoff: int, now: int, id: nat, fits: Fits)
    requires RowsInv(rows) && HoldsBatch(rows, None)
    ensures match Freeze(rows, cutoff, now, id, fits).batch
            case None => NoLineDue(rows, cutoff)
            case Some(batch) =>
              && batch.id == id && batch.frozenAt == now && batch.entries != []
              && LongestAllowed(batch.entries, Lines(Candidates(rows, cutoff)), e => fits(now, e))
  {
    FrozenIsHeld(rows, None);
    var fit := e => fits(now, e);
    var c := Candidates(rows, cutoff);
    GatherTakesPrefix(c, [], fit);
    assert [] + Lines(c) == Lines(c);
    hide Line, Gather, Candidates, LongestAllowed, NoLineDue;
    if Gather(c, [], fit).entries == [] { NoBatchNoLine(rows, cutoff, fit); }
  }

  /** And with all of that it takes its batch: with the minted ID, dated now, or none if no line is due. */
  lemma FreezeTakes(b: Board, event: Event, fits: Fits)
    requires BoardInv(b, None) && event.FreezeNext? && event.leased
    requires b.active && b.effects && b.channel == Some(event.target)
    ensures var after := Next(b, event, fits);
      && after == b.(rows := after.rows)
      && match FrozenIn(after.rows)
         case None => NoLineDue(b.rows, event.cutoff)
         case Some(batch) =>
           && batch.id == event.id && batch.frozenAt == event.at && batch.entries != []
           && LongestAllowed(batch.entries, Lines(Candidates(b.rows, event.cutoff)), e => fits(event.at, e))
  {
    FrozenIsHeld(b.rows, None);
    FreezeKeepsInv(b.rows, None, event.cutoff, event.at, event.id, fits);
    FreshBatchIs(b.rows, event.cutoff, event.at, event.id, fits);
    var f := Freeze(b.rows, event.cutoff, event.at, event.id, fits);
    FrozenIsHeld(f.rows, f.batch);
    hide Freeze, LongestAllowed, NoLineDue, BoardInv;
  }

  /** The settings are what was last set; only unsetting the channel touches a row. */
  lemma SettingsTake(b: Board, channel: Option<nat>, active: bool, effects: bool, fits: Fits)
    ensures Next(b, Paused(active, effects), fits) == b.(active := active, effects := effects)
    ensures var after := Next(b, Configured(channel), fits);
      && after == b.(channel := channel, rows := after.rows) && |after.rows| == |b.rows|
      && forall k :: 0 <= k < |b.rows| ==>
           after.rows[k] == if channel.None? then DropRow(b.rows[k]) else b.rows[k]
  {
    hide DropRow;
  }
}
