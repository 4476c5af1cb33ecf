/** What holds over every run of status transactions, and how a drain gets done. */
module StatusRuns {
  import opened Options
  import opened StatusDomain
  import opened StatusBoard
  import opened StatusInvariants
  import opened StatusProtocol

  lemma FreshBatchHolds(rows: seq<Row>, quieted: seq<Row>, batch: Batch)
    requires RowsInv(rows) && HoldsBatch(rows, None) && |quieted| == |rows|
    requires forall k :: 0 <= k < |rows| ==>
      RowInv(quieted[k]) && quieted[k].user == rows[k].user && quieted[k].posting.None?
    requires forall k :: 0 <= k < |rows| && Place(batch.entries, rows[k].user).Some? ==> quieted[k].state.Some?
    requires batch.entries != [] && OncePerUser(batch.entries)
    requires forall e :: e in batch.entries ==> exists k :: 0 <= k < |rows| && rows[k].user == e.user
    ensures var after := EachRow(quieted, row => PostRow(row, batch));
      RowsInv(after) && HoldsBatch(after, Some(batch))
  {
    var after := EachRow(quieted, row => PostRow(row, batch));
    SameUsersKeepOrder(rows, after);
    forall i | 0 <= i < |batch.entries| ensures Placed(after, i) {
      PlaceOf(batch.entries, i);
      assert batch.entries[i] in batch.entries;
      var k :| 0 <= k < |rows| && rows[k].user == batch.entries[i].user;
      assert after[k].posting.value.place == i;
    }
  }

  lemma FreezeKeepsInv(rows: seq<Row>, batch: Option<Batch>, cutoff: int, now: int, id: nat, fits: Fits)
    requires RowsInv(rows) && HoldsBatch(rows, batch)
    ensures var f := Freeze(rows, cutoff, now, id, fits);
      && RowsInv(f.rows) && HoldsBatch(f.rows, f.batch) && |f.rows| == |rows|
      && (batch.Some? ==> f.batch == batch && f.rows == rows)
  {
    FrozenIsHeld(rows, batch);
    if batch.None? {
      var fit := e => fits(now, e);
      var g := Gather(Candidates(rows, cutoff), [], fit);
      var quieted := EachRow(rows, (row: Row) => if row.user in g.quiet then QuietRow(row) else row);
      GatheredLines(rows, cutoff, fit);
      forall k | 0 <= k < |rows|
        ensures RowInv(quieted[k]) && quieted[k].user == rows[k].user && quieted[k].posting.None?
        ensures Place(g.entries, rows[k].user).Some? ==> quieted[k].state.Some?
      {
        QuietKeepsRow(rows[k]);
        if Place(g.entries, rows[k].user).Some? { GatheredPlace(rows, cutoff, fit, k); }
      }
      forall e | e in g.entries ensures exists k :: 0 <= k < |rows| && rows[k].user == e.user {
        assert IsLine(rows, cutoff, e);
        var k :| 0 <= k < |rows| && IsDue(rows[k], cutoff) && Line(rows[k]) == Some(e);
      }
      SameUsersKeepOrder(rows, quieted);
      SamePostingsHold(rows, quieted, None);
      if g.entries != [] { FreshBatchHolds(rows, quieted, Batch(id, now, g.entries)); }
    }
  }

  lemma MarkKeepsInv(rows: seq<Row>, batch: Option<Batch>, id: nat, at: int)
    requires RowsInv(rows) && HoldsBatch(rows, batch)
    ensures var after := EachRow(rows, row => MarkRow(row, id, at));
      && RowsInv(after)
      && HoldsBatch(after, if batch.Some? && batch.value.id == id then None else batch)
  {
    var after := EachRow(rows, row => MarkRow(row, id, at));
    forall k | 0 <= k < |rows| ensures RowInv(after[k]) && after[k].user == rows[k].user {
      MarkKeepsRow(rows[k], id, at);
    }
    SameUsersKeepOrder(rows, after);
    forall k | 0 <= k < |rows| && !(batch.Some? && batch.value.id == id) ensures after[k] == rows[k] {
      MarkKeepsRow(rows[k], id, at);
    }
    if batch.Some? && batch.value.id == id {
      forall k | 0 <= k < |rows| ensures after[k].posting.None? {
        MarkKeepsRow(rows[k], id, at);
      }
    } else {
      SamePostingsHold(rows, after, batch);
    }
  }

  lemma NextKeepsInv(b: Board, batch: Option<Batch>, event: Event, fits: Fits)
    requires BoardInv(b, batch)
    ensures BoardInv(Next(b, event, fits), NextBatch(b, batch, event, fits))
    ensures |Next(b, event, fits).rows| == |b.rows|
  {
    var after := Next(b, event, fits);
    match event
    case Reconciled(user, o, joined, at) =>
      forall k | 0 <= k < |b.rows|
        ensures RowInv(after.rows[k]) && after.rows[k].user == b.rows[k].user
        ensures after.rows[k].posting == b.rows[k].posting
        ensures b.channel.None? ==> after.rows[k].since.None?
      {
        ObserveKeepsRow(b.rows[k], b.channel.Some?, o, joined, at);
      }
      SameUsersKeepOrder(b.rows, after.rows);
      SamePostingsHold(b.rows, after.rows, batch);
    case Departures(items, at) =>
      if b.channel.Some? {
        forall k | 0 <= k < |b.rows|
          ensures RowInv(after.rows[k]) && after.rows[k].user == b.rows[k].user
          ensures after.rows[k].posting == b.rows[k].posting
        {
          DepartKeepsRow(b.rows[k], items, at);
        }
        SameUsersKeepOrder(b.rows, after.rows);
        SamePostingsHold(b.rows, after.rows, batch);
      }
    case Configured(channel) =>
      if channel.None? {
        forall k | 0 <= k < |b.rows|
          ensures RowInv(after.rows[k]) && after.rows[k].user == b.rows[k].user
          ensures after.rows[k].posting.None? && after.rows[k].since.None?
        {
          DropKeepsRow(b.rows[k]);
        }
        SameUsersKeepOrder(b.rows, after.rows);
      }
    case Paused(_, _) =>
    case FreezeNext(target, cutoff, at, id, leased) =>
      FrozenIsHeld(b.rows, batch);
      FreezeKeepsInv(b.rows, batch, cutoff, at, id, fits);
    case Marked(id, at) => MarkKeepsInv(b.rows, batch, id, at);
  }

  /** A server's members before the first status transaction. */
  ghost predicate Init(b: Board) {
    && Ascending(b.rows)
    && forall k :: 0 <= k < |b.rows| ==>
         b.rows[k].state.None? && b.rows[k].since.None? && b.rows[k].posting.None?
  }

  function BatchAfter(b: Board, batch: Option<Batch>, events: seq<Event>, fits: Fits): Option<Batch>
    decreases |events|
  {
    if events == [] then batch
    else BatchAfter(Next(b, events[0], fits), NextBatch(b, batch, events[0], fits), events[1..], fits)
  }

  lemma {:induction false} RunKeepsInv(b: Board, batch: Option<Batch>, events: seq<Event>, fits: Fits)
    requires BoardInv(b, batch)
    ensures BoardInv(Run(b, events, fits), BatchAfter(b, batch, events, fits))
    decreases |events|
  {
    if events != [] {
      NextKeepsInv(b, batch, events[0], fits);
      RunKeepsInv(Next(b, events[0], fits), NextBatch(b, batch, events[0], fits), events[1..], fits);
    }
  }

  /**
   * In every run, a member's row is dated exactly while something waits to be announced, at most one
   * batch is frozen, and with no channel set nothing waits and nothing is frozen.
   */
  lemma RunsKeepTheBoard(b: Board, events: seq<Event>, fits: Fits)
    requires Init(b)
    ensures var after := Run(b, events, fits);
      && (forall k :: 0 <= k < |after.rows| ==> (after.rows[k].since.Some? <==> Pending(after.rows[k].state)))
      && (forall j, k :: 0 <= j < k < |after.rows| && after.rows[j].posting.Some? && after.rows[k].posting.Some? ==>
           after.rows[j].posting.value.batch == after.rows[k].posting.value.batch)
      && (after.channel.None? ==> forall k :: 0 <= k < |after.rows| ==>
           after.rows[k].posting.None? && !Pending(after.rows[k].state))
  {
    RunKeepsInv(b, None, events, fits);
    var after := Run(b, events, fits);
    forall k | 0 <= k < |after.rows| ensures after.rows[k].since.Some? <==> Pending(after.rows[k].state) {
      assert RowInv(after.rows[k]);
    }
  }

  /** No event marks this batch or unsets the channel. */
  ghost predicate Undisturbed(events: seq<Event>, id: nat) {
    forall k :: 0 <= k < |events| ==>
      events[k] != Configured(None) && !(events[k].Marked? && events[k].batch == id)
  }

  lemma {:induction false} BatchStays(b: Board, batch: Batch, events: seq<Event>, fits: Fits)
    requires BoardInv(b, Some(batch)) && Undisturbed(events, batch.id)
    ensures BatchAfter(b, Some(batch), events, fits) == Some(batch)
    decreases |events|
  {
    if events != [] {
      NextKeepsInv(b, Some(batch), events[0], fits);
      if events[0].FreezeNext? {
        FreezeKeepsInv(b.rows, Some(batch), events[0].cutoff, events[0].at, events[0].id, fits);
      }
      assert NextBatch(b, Some(batch), events[0], fits) == Some(batch);
      BatchStays(Next(b, events[0], fits), batch, events[1..], fits);
    }
  }

  /**
   * Until its batch is marked or the channel is unset, whatever else is recorded, paused, frozen or
   * marked, the rows hold exactly the view that was frozen, and that is what every resend sends.
   */
  lemma ResendsWhatWasFrozen(b: Board, history: seq<Event>, freeze: Event, later: seq<Event>, fits: Fits)
    requires Init(b) && freeze.FreezeNext?
    requires var now := Run(b, history, fits);
      && MayPost(now, freeze.target) && freeze.leased
      && Freeze(now.rows, freeze.cutoff, freeze.at, freeze.id, fits).batch.Some?
    requires var now := Run(b, history, fits);
      Undisturbed(later, Freeze(now.rows, freeze.cutoff, freeze.at, freeze.id, fits).batch.value.id)
    ensures var now := Run(b, history, fits);
      var frozen := Freeze(now.rows, freeze.cutoff, freeze.at, freeze.id, fits).batch;
      FrozenIn(Run(Next(now, freeze, fits), later, fits).rows) == frozen
  {
    RunKeepsInv(b, None, history, fits);
    var now := Run(b, history, fits);
    var batch := BatchAfter(b, None, history, fits);
    var frozen := Freeze(now.rows, freeze.cutoff, freeze.at, freeze.id, fits).batch;
    NextKeepsInv(now, batch, freeze, fits);
    var next := Next(now, freeze, fits);
    BatchStays(next, frozen.value, later, fits);
    RunKeepsInv(next, frozen, later, fits);
    FrozenIsHeld(Run(next, later, fits).rows, frozen);
  }

  /** Nothing becomes due that wasn't: new changes are dated after the cutoff. */
  ghost predicate DueShrinks(rows: seq<Row>, after: seq<Row>, cutoff: int) {
    && |after| == |rows|
    && forall k :: 0 <= k < |rows| && IsDue(after[k], cutoff) ==> IsDue(rows[k], cutoff)
  }

  predicate After(event: Event, cutoff: int) {
    match event
    case Reconciled(_, _, _, at) => at > cutoff
    case Departures(_, at) => at > cutoff
    case Marked(_, at) => at > cutoff
    case _ => true
  }

  lemma NextShrinksDue(b: Board, batch: Option<Batch>, event: Event, fits: Fits, cutoff: int)
    requires BoardInv(b, batch) && After(event, cutoff)
    ensures DueShrinks(b.rows, Next(b, event, fits).rows, cutoff)
  {
    NextKeepsInv(b, batch, event, fits);
    if event.FreezeNext? && MayPost(b, event.target) && (event.leased || FrozenIn(b.rows).Some?) {
      FreezeShrinksDue(b.rows, event.cutoff, event.at, event.id, fits, cutoff);
    } else {
      hide Observe, Departed, ApplyPosted, DropPending, QuietRow, IsPending, Freeze;
    }
  }

  lemma FreezeShrinksDue(rows: seq<Row>, at: int, now: int, id: nat, fits: Fits, cutoff: int)
    ensures DueShrinks(rows, Freeze(rows, at, now, id, fits).rows, cutoff)
  {
    hide ApplyPosted, IsPending, EntryFor, FrozenIn, Gather, Place;
  }

  lemma {:induction false} DueCounts(rows: seq<Row>, after: seq<Row>, cutoff: int)
    requires DueShrinks(rows, after, cutoff)
    ensures |Due(after, cutoff)| <= |Due(rows, cutoff)|
    ensures (exists k :: 0 <= k < |rows| && IsDue(rows[k], cutoff) && !IsDue(after[k], cutoff)) ==>
      |Due(after, cutoff)| < |Due(rows, cutoff)|
  {
    if rows != [] {
      DueCounts(rows[1..], after[1..], cutoff);
      if exists k :: 0 <= k < |rows| && IsDue(rows[k], cutoff) && !IsDue(after[k], cutoff) {
        var k :| 0 <= k < |rows| && IsDue(rows[k], cutoff) && !IsDue(after[k], cutoff);
        if k > 0 { assert rows[1..][k - 1] == rows[k] && after[1..][k - 1] == after[k]; }
      }
    }
  }

  /** A row of the batch stays in it until it is no longer due. */
  ghost predicate PostedOrDone(row: Row, id: nat, cutoff: int) {
    (row.posting.Some? && row.posting.value.batch == id) || !IsDue(row, cutoff)
  }

  lemma NextKeepsPosted(b: Board, batch: Option<Batch>, event: Event, fits: Fits, cutoff: int, id: nat, k: nat)
    requires BoardInv(b, batch) && After(event, cutoff) && k < |b.rows| && PostedOrDone(b.rows[k], id, cutoff)
    ensures k < |Next(b, event, fits).rows| && PostedOrDone(Next(b, event, fits).rows[k], id, cutoff)
    ensures event.Marked? && event.batch == id ==> !IsDue(Next(b, event, fits).rows[k], cutoff)
  {
    NextKeepsInv(b, batch, event, fits);
    NextShrinksDue(b, batch, event, fits, cutoff);
    if event.FreezeNext? && b.rows[k].posting.Some? {
      assert batch.Some?;
      FreezeKeepsInv(b.rows, batch, event.cutoff, event.at, event.id, fits);
    }
    hide Observe, Departed, ApplyPosted, DropPending, QuietRow, IsPending, Freeze;
  }

  lemma {:induction false} RunKeepsPosted(b: Board, batch: Option<Batch>, events: seq<Event>, fits: Fits, cutoff: int,
                                          id: nat, k: nat)
    requires BoardInv(b, batch) && k < |b.rows| && PostedOrDone(b.rows[k], id, cutoff)
    requires forall i :: 0 <= i < |events| ==> After(events[i], cutoff)
    ensures var after := Run(b, events, fits);
      && DueShrinks(b.rows, after.rows, cutoff) && PostedOrDone(after.rows[k], id, cutoff)
    decreases |events|
  {
    if events != [] {
      NextKeepsInv(b, batch, events[0], fits);
      NextShrinksDue(b, batch, events[0], fits, cutoff);
      NextKeepsPosted(b, batch, events[0], fits, cutoff, id, k);
      RunKeepsPosted(Next(b, events[0], fits), NextBatch(b, batch, events[0], fits), events[1..], fits, cutoff, id, k);
    }
  }

  /** A fresh batch's first member was due. */
  lemma FreshBatchIsDue(rows: seq<Row>, cutoff: int, now: int, id: nat, fits: Fits) returns (k: nat)
    requires RowsInv(rows) && HoldsBatch(rows, None)
    requires Freeze(rows, cutoff, now, id, fits).batch.Some?
    ensures k < |rows| && IsDue(rows[k], cutoff)
    ensures var after := Freeze(rows, cutoff, now, id, fits).rows;
      |after| == |rows| && after[k].posting.Some? && after[k].posting.value.batch == id
  {
    hide ApplyPosted, EntryFor, IsPending, Candidates, Gather, Line, FrozenIn;
    FrozenIsHeld(rows, None);
    FreezeKeepsInv(rows, None, cutoff, now, id, fits);
    var f := Freeze(rows, cutoff, now, id, fits);
    assert Placed(f.rows, 0);
    k :| 0 <= k < |f.rows| && f.rows[k].posting.Some? && f.rows[k].posting.value.place == 0;
    var fit := e => fits(now, e);
    assert f.rows[k].user == rows[k].user by {
      if rows[k].user in Gather(Candidates(rows, cutoff), [], fit).quiet { QuietKeepsRow(rows[k]); }
    }
    assert InBatch(f.rows[k].posting.value, f.batch.value);
    assert Place(f.batch.value.entries, rows[k].user).Some?;
    GatheredPlace(rows, cutoff, fit, k);
  }

  /**
   * One round of the drain, with anything recorded meanwhile: a fresh batch frozen and marked leaves
   * strictly fewer rows due at the cutoff.
   */
  lemma RoundMakesProgress(b: Board, freeze: Event, meanwhile: seq<Event>, mark: Event, fits: Fits)
    requires BoardInv(b, None) && freeze.FreezeNext? && freeze.leased && MayPost(b, freeze.target)
    requires Freeze(b.rows, freeze.cutoff, freeze.at, freeze.id, fits).batch.Some?
    requires forall i :: 0 <= i < |meanwhile| ==> After(meanwhile[i], freeze.cutoff)
    requires mark.Marked? && mark.batch == freeze.id && mark.at > freeze.cutoff
    ensures var after := Next(Run(Next(b, freeze, fits), meanwhile, fits), mark, fits);
      |Due(after.rows, freeze.cutoff)| < |Due(b.rows, freeze.cutoff)|
  {
    var cutoff := freeze.cutoff;
    var k := FreshBatchIsDue(b.rows, cutoff, freeze.at, freeze.id, fits);
    var frozen := Next(b, freeze, fits);
    NextKeepsInv(b, None, freeze, fits);
    NextShrinksDue(b, None, freeze, fits, cutoff);
    var batch := NextBatch(b, None, freeze, fits);
    RunKeepsPosted(frozen, batch, meanwhile, fits, cutoff, freeze.id, k);
    RunKeepsInv(frozen, batch, meanwhile, fits);
    var waited := Run(frozen, meanwhile, fits);
    var last := BatchAfter(frozen, batch, meanwhile, fits);
    NextShrinksDue(waited, last, mark, fits, cutoff);
    NextKeepsPosted(waited, last, mark, fits, cutoff, freeze.id, k);
    DueCounts(b.rows, Next(waited, mark, fits).rows, cutoff);
  }
}
