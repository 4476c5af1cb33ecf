/** Confirmed departures: recorded once, and kept on their owner's row until a post carries them. */
module StatusDepartures {
  import opened Options
  import opened StatusDomain
  import opened StatusBoard
  import opened StatusInvariants
  import opened StatusProtocol
  import opened StatusRuns
  import opened StatusPosts

  /** The departures waiting on a row. */
  function Waits(state: Option<State>): seq<Departure> { if state.Some? then state.value.departed else [] }

  /** No two are of one character and snapshot. */
  ghost predicate OnceEach(departed: seq<Departure>) {
    forall i, j :: 0 <= i < j < |departed| ==>
      departed[i].character != departed[j].character || departed[i].snapshot != departed[j].snapshot
  }

  /** Some departure here has this one's character and snapshot. */
  ghost predicate Has(departed: seq<Departure>, d: Departure) {
    exists k :: 0 <= k < |departed| && departed[k].character == d.character && departed[k].snapshot == d.snapshot
  }

  /** A departure that was there, or one of these items of the user's. */
  ghost predicate From(before: seq<Departure>, user: nat, items: seq<(nat, Departure)>, d: Departure) {
    d in before || exists i :: 0 <= i < |items| && items[i] == (user, d)
  }

  /** What recording a user's items makes of what waits: all of it in order, each item once, and nothing else. */
  ghost predicate Adds(before: seq<Departure>, user: nat, items: seq<(nat, Departure)>, after: seq<Departure>) {
    && before <= after
    && (forall i :: 0 <= i < |items| && items[i].0 == user ==> Has(after, items[i].1))
    && (forall k :: 0 <= k < |after| ==> From(before, user, items, after[k]))
    && (OnceEach(before) ==> OnceEach(after))
  }

  lemma HasMore(departed: seq<Departure>, after: seq<Departure>, d: Departure)
    requires departed <= after && Has(departed, d)
    ensures Has(after, d)
  {
    var k :| 0 <= k < |departed| && departed[k].character == d.character && departed[k].snapshot == d.snapshot;
    assert after[k] == departed[k];
  }

  lemma AddsOne(state: Option<State>, d: Departure)
    ensures var before, after := Waits(state), AddDeparture(state, d).departed;
      && before <= after && Has(after, d) && (forall e :: e in after ==> e in before || e == d)
      && (OnceEach(before) ==> OnceEach(after))
  {
    var before, after := Waits(state), AddDeparture(state, d).departed;
    if !Lists(before, d) {
      assert after[|before|] == d;
      if OnceEach(before) { OnceAppended(before, d); }
    }
  }

  lemma OnceAppended(departed: seq<Departure>, d: Departure)
    requires OnceEach(departed) && forall k :: 0 <= k < |departed| ==> !SameDeparture(departed[k], d)
    ensures OnceEach(departed + [d])
  {
    var more := departed + [d];
    forall i, j | 0 <= i < j < |more|
      ensures more[i].character != more[j].character || more[i].snapshot != more[j].snapshot
    {
      assert more[i] == departed[i] && !SameDeparture(departed[i], d);
    }
  }

  lemma {:induction false} DepartedAdds(state: Option<State>, user: nat, items: seq<(nat, Departure)>)
    ensures Adds(Waits(state), user, items, Waits(Departed(state, user, items)))
    decreases |items|
  {
    var before, after := Waits(state), Waits(Departed(state, user, items));
    if items != [] {
      hide AddDeparture, OnceEach, Has;
      var own, d, rest := items[0].0 == user, items[0].1, items[1..];
      var next := if own then Some(AddDeparture(state, d)) else state;
      if own { AddsOne(state, d); }
      DepartedAdds(next, user, rest);
      forall i | 0 <= i < |items| && items[i].0 == user ensures Has(after, items[i].1) {
        if i == 0 { HasMore(Waits(next), after, d); } else { assert rest[i - 1] == items[i]; }
      }
      forall k | 0 <= k < |after| ensures From(before, user, items, after[k]) {
        assert From(Waits(next), user, rest, after[k]);
        if i :| 0 <= i < |rest| && rest[i] == (user, after[k]) { assert items[i + 1] == rest[i]; }
        assert own && after[k] == d ==> items[0] == (user, after[k]);
      }
    }
  }

  lemma {:induction false} DepartedOnlyAdds(state: Option<State>, user: nat, items: seq<(nat, Departure)>)
    requires state.Some?
    ensures var after := Departed(state, user, items);
      after.Some? && after.value == state.value.(departed := Waits(after))
    decreases |items|
  {
    if items != [] {
      DepartedOnlyAdds(if items[0].0 == user then Some(AddDeparture(state, items[0].1)) else state, user, items[1..]);
    }
  }

  /** Recording a departure dates the row unless an older change waits, and changes nothing else of it. */
  lemma RecordingDates(b: Board, items: seq<(nat, Departure)>, at: int, fits: Fits, k: nat)
    requires b.channel.Some? && k < |b.rows|
    ensures var row, after := b.rows[k], Next(b, Departures(items, at), fits).rows[k];
      && after.posting == row.posting
      && after.since == (if row.since.None? && (exists i :: 0 <= i < |items| && items[i].0 == row.user) then Some(at)
                         else row.since)
      && (row.state.Some? ==>
           after.state.Some? && after.state.value == row.state.value.(departed := Waits(after.state)))
  {
    if b.rows[k].state.Some? { DepartedOnlyAdds(b.rows[k].state, b.rows[k].user, items); }
    hide Departed;
  }

  /**
   * Recording departures, with a channel set, keeps what waited on a row and its order, adds each of the
   * user's items whose character and snapshot aren't there, and adds nothing else, nor anything twice.
   */
  lemma RecordingKeepsAndAdds(b: Board, items: seq<(nat, Departure)>, at: int, fits: Fits, k: nat)
    requires b.channel.Some? && k < |b.rows|
    ensures var after := Next(b, Departures(items, at), fits);
      && |after.rows| == |b.rows| && after.rows[k].user == b.rows[k].user
      && Adds(Waits(b.rows[k].state), b.rows[k].user, items, Waits(after.rows[k].state))
  {
    DepartedAdds(b.rows[k].state, b.rows[k].user, items);
    hide Departed, Adds;
    var row := b.rows[k];
    if !Departs(row.user, items) { NotDeparted(row.state, row.user, items); }
  }

  lemma {:induction false} NotDeparted(state: Option<State>, user: nat, items: seq<(nat, Departure)>)
    requires !Departs(user, items)
    ensures Departed(state, user, items) == state
    decreases |items|
  {
    DepartedPends(state, user, items);
  }

  /** The event takes the departure off the row: the mark of a post that carries it, or the channel unset. */
  ghost predicate Clears(row: Row, event: Event, d: Departure) {
    || event == Configured(None)
    || (event.Marked? && row.posting.Some? && row.posting.value.batch == event.batch
        && Has(row.posting.value.entry.departed, d))
  }

  lemma MarkTakesPosted(row: Row, batch: nat, at: int, d: Departure)
    requires row.state.Some? && d in row.state.value.departed
    ensures d in Waits(MarkRow(row, batch, at).state) <==> !Clears(row, Marked(batch, at), d)
  {
    if row.posting.Some? && row.posting.value.batch == batch {
      var posted := row.posting.value.entry.departed;
      UnpostedKeeps(row.state.value.departed, posted, d);
      assert Has(posted, d) <==> exists k :: 0 <= k < |posted| && SameDeparture(posted[k], d);
    }
  }

  lemma FreezeKeepsDepartures(b: Board, batch: Option<Batch>, event: Event, fits: Fits, k: nat)
    requires BoardInv(b, batch) && k < |b.rows| && event.FreezeNext? && Waits(b.rows[k].state) != []
    ensures var after := Next(b, event, fits).rows; |after| == |b.rows| && after[k].state == b.rows[k].state
  {
    FrozenIsHeld(b.rows, batch);
    FreezeKeepsInv(b.rows, batch, event.cutoff, event.at, event.id, fits);
    if batch.None? && MayPost(b, event.target) && event.leased {
      FreezeShowsTheRow(b.rows, event.cutoff, event.at, event.id, fits, k);
      DepartureHasALine(b.rows[k]);
      hide Freeze, QuietRow, Line;
    }
  }

  lemma DepartureHasALine(row: Row)
    requires Waits(row.state) != []
    ensures Line(row).Some?
  {
  }

  /** With a channel set, what waits stays after an event if and only if the event doesn't clear it. */
  lemma DepartureStays(b: Board, batch: Option<Batch>, event: Event, fits: Fits, k: nat, d: Departure)
    requires BoardInv(b, batch) && b.channel.Some? && k < |b.rows| && d in Waits(b.rows[k].state)
    ensures var after := Next(b, event, fits);
      |after.rows| == |b.rows| && (d in Waits(after.rows[k].state) <==> !Clears(b.rows[k], event, d))
  {
    NextKeepsInv(b, batch, event, fits);
    var row := b.rows[k];
    match event
    case Reconciled(user, o, joined, at) => ObserveKeepsDepartures(row, o, joined, at);
    case Departures(items, at) => RecordingKeepsAndAdds(b, items, at, fits, k);
    case Configured(channel) => if channel.None? { DropLosesDepartures(row); }
    case Paused(_, _) =>
    case FreezeNext(_, _, _, _, _) => FreezeKeepsDepartures(b, batch, event, fits, k);
    case Marked(id, at) => MarkTakesPosted(row, id, at, d);
  }

  lemma ObserveKeepsDepartures(row: Row, o: Observation, joined: int, now: int)
    ensures Waits(ObserveRow(row, true, o, joined, now).state) == Waits(row.state)
  {
  }

  lemma DropLosesDepartures(row: Row)
    requires RowInv(row)
    ensures Waits(DropRow(row).state) == []
  {
  }

  ghost predicate NeverCleared(b: Board, events: seq<Event>, fits: Fits, k: nat, d: Departure)
    decreases |events|
  {
    events == []
    || (k < |b.rows| && !Clears(b.rows[k], events[0], d)
        && NeverCleared(Next(b, events[0], fits), events[1..], fits, k, d))
  }

  /**
   * Over any run, through passes, rejoins, pauses, freezes and other marks, a recorded departure stays on
   * its owner's row until a post that carries it is marked, or the channel is unset.
   */
  lemma {:induction false} DepartureWaitsForItsPost(b: Board, batch: Option<Batch>, events: seq<Event>, fits: Fits,
                                                    k: nat, d: Departure)
    requires BoardInv(b, batch) && b.channel.Some? && k < |b.rows| && d in Waits(b.rows[k].state)
    requires NeverCleared(b, events, fits, k, d)
    ensures var after := Run(b, events, fits); k < |after.rows| && d in Waits(after.rows[k].state)
    decreases |events|
  {
    if events != [] {
      DepartureStays(b, batch, events[0], fits, k, d);
      NextKeepsInv(b, batch, events[0], fits);
      var next := Next(b, events[0], fits);
      assert next.channel.Some?;
      hide Next, Waits, BoardInv, Clears;
      DepartureWaitsForItsPost(next, NextBatch(b, batch, events[0], fits), events[1..], fits, k, d);
    }
  }
}
