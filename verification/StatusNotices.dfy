/** The status transactions as the service runs them, and the delivery job that drains what waits. */
module StatusNotices {
  import opened Options
  import opened Sorting
  import opened StatusDomain
  import opened StatusBoard
  import opened StatusInvariants
  import opened StatusProtocol
  import opened StatusRuns

  const WINDOW_SECONDS := 120

  datatype FreezeResult = Batched(batch: Option<Batch>, resumed: bool) | Superseded | LeaseLost

  /** How a delivery run ends: done, told to wait for the window, or stopped by a failure it rethrows. */
  datatype Delivery = Delivered | NothingWaits | Ordered(seconds: int) | Stopped

  /**
   * What comes of a send: Discord doesn't take the post; takes it, but the answer is lost; or takes it and
   * says so, and the `delivered` attempt is then stored or not.
   */
  datatype Sending = NotTaken | AnswerLost | Taken(message: nat, stored: bool)

  /**
   * What one round of a run meets: the transactions others commit before its freeze and before its
   * mark, the send, whether the mark commits, and the lease check.
   */
  datatype Round = Round(
    before: seq<Event>, at: int, id: nat, leased: bool,
    sending: Sending, during: seq<Event>, marks: bool, markedAt: int, guarded: bool)
  {
    predicate Stores() { sending.Taken? && sending.stored }
  }

  /** Others' transactions: only the lease holder freezes and marks. */
  ghost predicate ByOthers(events: seq<Event>) {
    forall k :: 0 <= k < |events| ==> !events[k].FreezeNext? && !events[k].Marked?
  }

  ghost predicate AllAfter(events: seq<Event>, cutoff: int) {
    forall k :: 0 <= k < |events| ==> After(events[k], cutoff)
  }

  ghost predicate Others(round: Round) { ByOthers(round.before) && ByOthers(round.during) }

  /** Everything a round's others record is dated after the cutoff. */
  ghost predicate DatedAfter(round: Round, cutoff: int) {
    AllAfter(round.before, cutoff) && AllAfter(round.during, cutoff) && round.markedAt > cutoff
  }

  lemma {:induction false} OthersFreezeNothing(b: Board, batch: Option<Batch>, events: seq<Event>, fits: Fits)
    requires BoardInv(b, batch) && ByOthers(events)
    ensures BatchAfter(b, batch, events, fits) == batch || BatchAfter(b, batch, events, fits) == None
    ensures BoardInv(Run(b, events, fits), BatchAfter(b, batch, events, fits))
    decreases |events|
  {
    if events != [] {
      NextKeepsInv(b, batch, events[0], fits);
      OthersFreezeNothing(Next(b, events[0], fits), NextBatch(b, batch, events[0], fits), events[1..], fits);
    }
  }

  lemma {:induction false} LaterShrinksDue(b: Board, batch: Option<Batch>, events: seq<Event>, fits: Fits, cutoff: int)
    requires BoardInv(b, batch) && AllAfter(events, cutoff)
    ensures DueShrinks(b.rows, Run(b, events, fits).rows, cutoff)
    decreases |events|
  {
    if events != [] {
      NextKeepsInv(b, batch, events[0], fits);
      NextShrinksDue(b, batch, events[0], fits, cutoff);
      LaterShrinksDue(Next(b, events[0], fits), NextBatch(b, batch, events[0], fits), events[1..], fits, cutoff);
    }
  }

  /** Nothing fails in a round, and the others only record. */
  ghost predicate Smooth(round: Round) {
    && round.leased && round.Stores() && round.marks && round.guarded
    && OnlyRecords(round.before) && OnlyRecords(round.during)
  }

  ghost predicate OnlyRecords(events: seq<Event>) {
    forall k :: 0 <= k < |events| ==> events[k].Reconciled? || events[k].Departures?
  }

  lemma {:induction false} RecordsKeepSettings(b: Board, events: seq<Event>, fits: Fits, target: nat)
    requires OnlyRecords(events) && MayPost(b, target)
    ensures MayPost(Run(b, events, fits), target)
    decreases |events|
  {
    if events != [] { RecordsKeepSettings(Next(b, events[0], fits), events[1..], fits, target); }
  }

  /** A post's size: at most a hundred members that fit, or one that doesn't fit even alone. */
  ghost predicate RightSize(batch: Batch, fits: Fits) {
    && 1 <= |batch.entries| <= 100
    && (fits(batch.frozenAt, batch.entries) || |batch.entries| == 1)
  }

  lemma FreshBatchFits(rows: seq<Row>, cutoff: int, now: int, id: nat, fits: Fits)
    requires RowsInv(rows) && HoldsBatch(rows, None) && Freeze(rows, cutoff, now, id, fits).batch.Some?
    ensures RightSize(Freeze(rows, cutoff, now, id, fits).batch.value, fits)
  {
    FrozenIsHeld(rows, None);
    var fit := e => fits(now, e);
    GatherTakesPrefix(Candidates(rows, cutoff), [], fit);
  }

  ghost predicate Lineless(candidates: seq<Row>) {
    forall k :: 0 <= k < |candidates| ==> Line(candidates[k]).None?
  }

  lemma FirstLineGetsIn(candidates: seq<Row>, fits: seq<Entry> -> bool)
    requires candidates != [] && Line(candidates[0]).Some?
    ensures Gather(candidates, [], fits).entries != []
  {
    var line := Line(candidates[0]).value;
    assert [] + [line] == [line];
    if fits([line]) { GatherTakesPrefix(candidates[1..], [line], fits); }
  }

  lemma {:induction false} NoEntriesMeansNoLines(candidates: seq<Row>, fits: seq<Entry> -> bool)
    requires Gather(candidates, [], fits).entries == []
    ensures Lineless(candidates)
    ensures forall k :: 0 <= k < |candidates| ==> candidates[k].user in Gather(candidates, [], fits).quiet
  {
    if candidates != [] {
      if Line(candidates[0]).Some? { FirstLineGetsIn(candidates, fits); }
      assert Line(candidates[0]).None?;
      NoEntriesMeansNoLines(candidates[1..], fits);
    }
  }

  lemma QuietedIsDone(row: Row)
    requires RowInv(row) && Line(row).None?
    ensures QuietRow(row).since.None?
  {
    if Pending(row.state) { PostedLeavesNothing(row.user, row.state.value); }
  }

  lemma {:induction false} NoneDue(rows: seq<Row>, cutoff: int)
    requires forall k :: 0 <= k < |rows| ==> !IsDue(rows[k], cutoff)
    ensures Due(rows, cutoff) == []
  {
    if rows != [] { NoneDue(rows[1..], cutoff); }
  }

  /** A freeze that finds nothing to post leaves nothing due: what had no line was announced silently. */
  lemma NothingLeft(rows: seq<Row>, cutoff: int, now: int, id: nat, fits: Fits)
    requires RowsInv(rows) && HoldsBatch(rows, None)
    requires Freeze(rows, cutoff, now, id, fits).batch.None?
    ensures Due(Freeze(rows, cutoff, now, id, fits).rows, cutoff) == []
  {
    FrozenIsHeld(rows, None);
    var fit := e => fits(now, e);
    var c := Candidates(rows, cutoff);
    CandidateRows(rows, cutoff);
    NoEntriesMeansNoLines(c, fit);
    var after := Freeze(rows, cutoff, now, id, fits).rows;
    forall k | 0 <= k < |after| ensures !IsDue(after[k], cutoff) {
      if IsDue(rows[k], cutoff) {
        assert rows[k] in c;
        var j :| 0 <= j < |c| && c[j] == rows[k];
        assert Line(c[j]).None?;
        QuietedIsDone(rows[k]);
      } else {
        QuietKeepsRow(rows[k]);
      }
    }
    NoneDue(after, cutoff);
  }

  /** The rows after the named users' silent changes. */
  ghost predicate Quieted(was: seq<Row>, rows: seq<Row>, quiet: set<nat>) {
    && |rows| == |was|
    && forall k :: 0 <= k < |was| ==> rows[k] == if was[k].user in quiet then QuietRow(was[k]) else was[k]
  }

  /** A row once the batch's first `n` entries are written. */
  ghost function PostedUpTo(row: Row, batch: Batch, n: nat): (r: Row)
    ensures r.user == row.user
  {
    var place := Place(batch.entries, row.user);
    if place.Some? && place.value < n then PostRow(row, batch) else row
  }

  /** In a smooth round the settings stay as they were, and nothing stops the run. */
  lemma SmoothRound(b: Board, round: Round, target: nat, fits: Fits)
    requires Smooth(round) && MayPost(b, target)
    ensures MayPost(Run(b, round.before, fits), target)
    ensures round.leased && round.Stores() && round.marks && round.guarded && OnlyRecords(round.during)
  {
    RecordsKeepSettings(b, round.before, fits, target);
  }

  lemma FreezeKeepsSettings(b: Board, freeze: Event, fits: Fits, target: nat)
    requires freeze.FreezeNext? && MayPost(b, target)
    ensures MayPost(Next(b, freeze, fits), target)
  {
  }

  lemma MarkKeepsSettings(b: Board, round: Round, id: nat, fits: Fits, target: nat)
    requires OnlyRecords(round.during) && MayPost(b, target)
    ensures MayPost(Next(Run(b, round.during, fits), Marked(id, round.markedAt), fits), target)
  {
    RecordsKeepSettings(b, round.during, fits, target);
  }

  /** How many rows wait for a post or sit in one. */
  function HeldRows(rows: seq<Row>): nat {
    if rows == [] then 0
    else
      var last := rows[|rows| - 1];
      HeldRows(rows[..|rows| - 1]) + if last.since.Some? || last.posting.Some? then 1 else 0
  }

  /** No batch was sent again once its `delivered` attempt was stored; `storedAt` counts the posts before. */
  ghost predicate NeverAgain(delivered: map<nat, nat>, storedAt: map<nat, nat>, sent: seq<Batch>) {
    && delivered.Keys == storedAt.Keys
    && forall id :: id in storedAt ==>
         storedAt[id] <= |sent| && forall j :: storedAt[id] <= j < |sent| ==> sent[j].id != id
  }

  lemma SendKeeps(delivered: map<nat, nat>, storedAt: map<nat, nat>, sent: seq<Batch>, batch: Batch, message: nat)
    requires NeverAgain(delivered, storedAt, sent) && batch.id !in delivered
    ensures NeverAgain(delivered, storedAt, sent + [batch])
    ensures NeverAgain(delivered[batch.id := message], storedAt[batch.id := |sent| + 1], sent + [batch])
  {
  }

  /** Every round mints its batch a new ID. */
  ghost predicate Minted(world: nat -> Round) {
    forall m: nat, n: nat :: m != n ==> world(m).id != world(n).id
  }

  ghost predicate Unused(world: nat -> Round, next: nat, delivered: map<nat, nat>, frozen: Option<Batch>) {
    forall n: nat :: n >= next ==> world(n).id !in delivered && (frozen.Some? ==> frozen.value.id != world(n).id)
  }

  lemma UnusedAfter(world: nat -> Round, next: nat, taken: map<nat, nat>, delivered: map<nat, nat>,
                    frozen: Option<Batch>)
    requires Minted(world) && Unused(world, next, taken, None)
    requires delivered.Keys <= taken.Keys + {world(next).id}
    requires frozen.Some? ==> frozen.value.id == world(next).id
    ensures Unused(world, next + 1, delivered, frozen)
  {
  }

  /** Nothing stored before was sent since, and what was stored stays stored. */
  ghost predicate NoneSentAgain(stored: map<nat, nat>, before: seq<Batch>, delivered: map<nat, nat>, sent: seq<Batch>) {
    && stored.Keys <= delivered.Keys && before <= sent
    && forall j :: |before| <= j < |sent| ==> sent[j].id !in stored
  }

  lemma SentAgainJoins(stored: map<nat, nat>, before: seq<Batch>, taken: map<nat, nat>, posts: seq<Batch>,
                       delivered: map<nat, nat>, sent: seq<Batch>)
    requires NoneSentAgain(stored, before, taken, posts)
    requires NoneSentAgain(taken, posts, delivered, sent)
    ensures NoneSentAgain(stored, before, delivered, sent)
  {
  }

  lemma FreshBatchIsNew(rows: seq<Row>, cutoff: int, now: int, id: nat, fits: Fits)
    requires RowsInv(rows) && HoldsBatch(rows, None) && Freeze(rows, cutoff, now, id, fits).batch.Some?
    ensures !Freeze(rows, cutoff, now, id, fits).resumed && Freeze(rows, cutoff, now, id, fits).batch.value.id == id
  {
    FrozenIsHeld(rows, None);
  }

  lemma NothingFrozen(b: Board)
    requires BoardInv(b, None)
    ensures FrozenIn(b.rows) == None
  {
    FrozenIsHeld(b.rows, None);
  }

  /** Others between two runs freeze nothing new. */
  lemma BetweenRuns(b: Board, events: seq<Event>, world: nat -> Round, next: nat, delivered: map<nat, nat>, fits: Fits)
    requires BoardInv(b, FrozenIn(b.rows)) && ByOthers(events) && Unused(world, next, delivered, FrozenIn(b.rows))
    ensures var after := Run(b, events, fits);
      BoardInv(after, FrozenIn(after.rows)) && Unused(world, next, delivered, FrozenIn(after.rows))
  {
    var frozen := FrozenIn(b.rows);
    OthersFreezeNothing(b, frozen, events, fits);
    FrozenIsHeld(Run(b, events, fits).rows, BatchAfter(b, frozen, events, fits));
  }

  /** One delivery run of the job, and what others commit before it. */
  datatype Job = Job(between: seq<Event>, target: nat, resume: Round, now: int, late: nat)

  ghost predicate Sound(job: Job, world: nat -> Round) {
    && ByOthers(job.between) && Others(job.resume)
    && forall n: nat :: Others(world(n)) && (n >= job.late ==> DatedAfter(world(n), job.now))
  }

  class Notices {
    var rows: seq<Row>
    var channel: Option<nat>
    var active: bool
    var effects: bool
    /** The `delivered` attempts: each batch Discord is known to have taken, with its message. */
    var delivered: map<nat, nat>
    /** Every post Discord took, in order, and how many there were when each attempt was stored. */
    var sent: seq<Batch>
    ghost var storedAt: map<nat, nat>

    constructor (rows: seq<Row>, channel: Option<nat>)
      ensures Table() == Board(rows, channel, true, true) && delivered == map[] && sent == []
      ensures NeverAgain(delivered, storedAt, sent)
    {
      this.rows, this.channel, active, effects, delivered, sent := rows, channel, true, true, map[], [];
      storedAt := map[];
    }

    function Table(): Board
      reads this
    {
      Board(rows, channel, active, effects)
    }

    method Find(user: nat) returns (k: nat)
      ensures k <= |rows|
      ensures k < |rows| ==> rows[k].user == user
      ensures k == |rows| ==> forall j :: 0 <= j < |rows| ==> rows[j].user != user
    {
      k := 0;
      while k < |rows| && rows[k].user != user
        invariant k <= |rows| && forall j :: 0 <= j < k ==> rows[j].user != user
      {
        k := k + 1;
      }
    }

    /** `recordStatus`: one member's pass; returns whether a post was queued. */
    method RecordStatus(user: nat, o: Observation, joined: int, now: int, fits: Fits) returns (queued: bool)
      requires Ascending(rows)
      modifies this`rows
      ensures Table() == Next(old(Table()), Reconciled(user, o, joined, now), fits)
      ensures queued <==> channel.Some? && exists k ::
                0 <= k < |rows| && rows[k].user == user
                && Observe(old(rows)[k].state, o, joined).changed && Observe(old(rows)[k].state, o, joined).moved
    {
      hide Observe, DropPending;
      var k := Find(user);
      queued := false;
      var row := Row(0, None, None, None);
      if k < |rows| {
        row := rows[k];
        var recorded := Observe(row.state, o, joined);
        if channel.None? {
          if recorded.changed || recorded.pending || row.since.Some? || row.posting.Some? {
            rows := rows[k := Row(user, Some(DropPending(recorded.next)), None, None)];
          }
        } else if recorded.changed {
          var since := if !recorded.pending then None else if row.since.Some? then row.since else Some(now);
          rows := rows[k := row.(state := Some(recorded.next), since := since)];
          queued := recorded.moved;
        }
      }
      assert rows == Next(old(Table()), Reconciled(user, o, joined, now), fits).rows;
    }

    /** `recordDepartures`: fold one guild's confirmed departures into their owners' states. */
    method RecordDepartures(items: seq<(nat, Departure)>, now: int, fits: Fits) returns (recorded: nat)
      modifies this`rows
      ensures Table() == Next(old(Table()), Departures(items, now), fits)
      ensures recorded == if channel.None? then 0 else |items|
    {
      hide AddDeparture;
      if channel.None? { return 0; }
      ghost var was := rows;
      var k := 0;
      while k < |rows|
        invariant k <= |rows| == |was|
        invariant forall j :: 0 <= j < k ==> rows[j] == DepartRow(was[j], items, now)
        invariant forall j :: k <= j < |was| ==> rows[j] == was[j]
      {
        var row := rows[k];
        var state, touched := Fold(row.state, row.user, items);
        if touched {
          rows := rows[k := row.(state := state, since := if row.since.Some? then row.since else Some(now))];
        }
        k := k + 1;
      }
      assert rows == Next(old(Table()), Departures(items, now), fits).rows;
      recorded := |items|;
    }

    static method Fold(before: Option<State>, user: nat, items: seq<(nat, Departure)>)
      returns (state: Option<State>, touched: bool)
      ensures state == Departed(before, user, items)
      ensures touched <==> Departs(user, items)
    {
      hide AddDeparture;
      state, touched := before, false;
      var k := 0;
      while k < |items|
        invariant k <= |items|
        invariant Departed(before, user, items) == Departed(state, user, items[k..])
        invariant touched <==> exists j :: 0 <= j < k && items[j].0 == user
      {
        if items[k].0 == user { state, touched := Some(AddDeparture(state, items[k].1)), true; }
        k := k + 1;
      }
    }

    /** `dropWaiting`: announce everything as it is; returns how many rows it cleared. */
    method DropWaiting() returns (cleared: nat)
      modifies this`rows
      ensures rows == EachRow(old(rows), DropRow)
      ensures cleared == HeldRows(old(rows))
    {
      hide DropPending;
      ghost var was := rows;
      cleared := 0;
      var k := 0;
      while k < |rows|
        invariant k <= |rows| == |was| && cleared == HeldRows(was[..k])
        invariant forall j :: 0 <= j < k ==> rows[j] == DropRow(was[j])
        invariant forall j :: k <= j < |was| ==> rows[j] == was[j]
      {
        var row := rows[k];
        assert was[..k + 1][..k] == was[..k];
        if row.since.Some? || row.posting.Some? {
          var state := if row.state.Some? then Some(DropPending(row.state.value)) else None;
          rows, cleared := rows[k := Row(row.user, state, None, None)], cleared + 1;
        }
        k := k + 1;
      }
      assert was[..k] == was;
    }

    /** `markPosted`: apply each posted entry and clear the batch. */
    method MarkPosted(batch: nat, now: int, fits: Fits)
      modifies this`rows
      ensures Table() == Next(old(Table()), Marked(batch, now), fits)
    {
      hide ApplyPosted, Pending;
      ghost var was := rows;
      var k := 0;
      while k < |rows|
        invariant k <= |rows| == |was|
        invariant forall j :: 0 <= j < k ==> rows[j] == MarkRow(was[j], batch, now)
        invariant forall j :: k <= j < |was| ==> rows[j] == was[j]
      {
        var row := rows[k];
        if row.posting.Some? && row.posting.value.batch == batch {
          var next := if row.state.Some? then Some(ApplyPosted(row.state.value, row.posting.value.entry)) else None;
          rows := rows[k := Row(row.user, next, if Pending(next) then Some(now) else None, None)];
        }
        k := k + 1;
      }
      assert rows == Next(old(Table()), Marked(batch, now), fits).rows;
    }

    /** `freeze`: the next batch, oldest change first, from the rows waiting at the cutoff. */
    method FreezeBatch(target: nat, cutoff: int, now: int, id: nat, leased: bool, fits: Fits) returns (r: FreezeResult)
      requires RowsInv(rows)
      modifies this`rows
      ensures Table() == Next(old(Table()), FreezeNext(target, cutoff, now, id, leased), fits)
      ensures r == if !MayPost(old(Table()), target) then Superseded
                   else if !leased && FrozenIn(old(rows)).None? then LeaseLost
                   else Batched(Freeze(old(rows), cutoff, now, id, fits).batch,
                                Freeze(old(rows), cutoff, now, id, fits).resumed)
    {
      hide FrozenIn, QuietRow, Gather, Candidates, PostRow;
      if !active || !effects || channel != Some(target) { return Superseded; }
      var frozen := FrozenIn(rows);
      if frozen.Some? { return Batched(frozen, true); }
      if !leased { return LeaseLost; }
      ghost var was := rows;
      var entries := QuietAndGather(cutoff, now, fits);
      if entries == [] {
        assert rows == Freeze(was, cutoff, now, id, fits).rows;
        return Batched(None, false);
      }
      var batch := Batch(id, now, entries);
      GatheredLines(was, cutoff, e => fits(now, e));
      PostEntries(batch);
      assert rows == Freeze(was, cutoff, now, id, fits).rows;
      r := Batched(Some(batch), false);
    }

    /** The walk over the candidates: silent changes are applied on the way, lines are collected. */
    method QuietAndGather(cutoff: int, now: int, fits: Fits) returns (entries: seq<Entry>)
      requires RowsInv(rows)
      modifies this`rows
      ensures var g := Gather(Candidates(old(rows), cutoff), [], e => fits(now, e));
        && entries == g.entries
        && rows == EachRow(old(rows), (row: Row) => if row.user in g.quiet then QuietRow(row) else row)
      ensures Ascending(rows)
    {
      hide ApplyPosted, EntryFor, EntryVisible;
      ghost var was := rows;
      ghost var fit := e => fits(now, e);
      var candidates := Candidates(rows, cutoff);
      CandidateMembers(rows, cutoff);
      ghost var g := Gather(candidates, [], fit);
      ghost var quiet: set<nat> := {};
      entries := [];
      var i, full := 0, false;
      while i < |candidates| && !full
        invariant i <= |candidates|
        invariant g.entries == if full then entries else Gather(candidates[i..], entries, fit).entries
        invariant g.quiet == if full then quiet else quiet + Gather(candidates[i..], entries, fit).quiet
        invariant Quieted(was, rows, quiet)
      {
        var row := candidates[i];
        assert row in candidates;
        var entry := if row.state.Some? then EntryFor(row.user, row.state.value) else None;
        if entry.None? || !EntryVisible(entry.value) {
          Quiet(was, row, quiet);
          quiet := quiet + {row.user};
        } else if |entries| >= POST_MEMBERS {
          full := true;
        } else {
          var fitting := fits(now, entries + [entry.value]);
          if fitting || entries == [] { entries := entries + [entry.value]; }
          full := !fitting;
        }
        i := i + 1;
      }
    }

    /** Clear a candidate found with nothing waiting, or announce its silent change. */
    method Quiet(ghost was: seq<Row>, row: Row, ghost quiet: set<nat>)
      requires Ascending(was) && row in was && Quieted(was, rows, quiet)
      modifies this`rows
      ensures Quieted(was, rows, quiet + {row.user})
    {
      hide ApplyPosted, EntryFor, IsPending;
      var k := Find(row.user);
      ghost var j :| 0 <= j < |was| && was[j] == row;
      assert rows[j].user == row.user;
      OneRowPerUser(was, row, k);
      var entry := if row.state.Some? then EntryFor(row.user, row.state.value) else None;
      if entry.None? {
        rows := rows[k := row.(since := None)];
      } else {
        var next := ApplyPosted(row.state.value, entry.value);
        rows := rows[k := row.(state := Some(next), since := if IsPending(next) then row.since else None)];
      }
      forall m | 0 <= m < |was| && m != k ensures was[m].user != row.user {
        assert if m < k then was[m].user < was[k].user else was[k].user < was[m].user;
      }
    }

    /** Give each entry's row its place. */
    method PostEntries(batch: Batch)
      requires Ascending(rows) && OncePerUser(batch.entries)
      modifies this`rows
      ensures rows == EachRow(old(rows), row => PostRow(row, batch))
    {
      ghost var was := rows;
      var i := 0;
      while i < |batch.entries|
        invariant i <= |batch.entries| && |rows| == |was|
        invariant forall k :: 0 <= k < |was| ==> rows[k] == PostedUpTo(was[k], batch, i)
      {
        var entry := batch.entries[i];
        PlaceOf(batch.entries, i);
        var k := Find(entry.user);
        if k < |rows| {
          rows := rows[k := rows[k].(posting := Some(Posting(batch.id, i, batch.frozenAt, entry)))];
        }
        i := i + 1;
      }
    }

    /** What others commit between two of this run's transactions. */
    method Meanwhile(events: seq<Event>, fits: Fits)
      modifies this`rows, this`channel, this`active, this`effects
      ensures Table() == Run(old(Table()), events, fits)
    {
      var after := Run(Table(), events, fits);
      rows, channel, active, effects := after.rows, after.channel, after.active, after.effects;
    }

    /**
     * `postBatch` and `sendBatch`: a resumed batch whose `delivered` attempt is stored is only marked;
     * anything else is sent, its attempt stored before the mark. Returns whether the mark committed.
     */
    method PostBatch(batch: Batch, resumed: bool, round: Round, fits: Fits) returns (marked: bool)
      requires NeverAgain(delivered, storedAt, sent) && (!resumed ==> batch.id !in delivered)
      modifies this
      ensures marked <==> round.marks && (batch.id in old(delivered) || round.Stores())
      ensures sent == if batch.id in old(delivered) || round.sending.NotTaken? then old(sent) else old(sent) + [batch]
      ensures delivered == if batch.id in old(delivered) || !round.Stores() then old(delivered)
                           else old(delivered)[batch.id := round.sending.message]
      ensures var during := Run(old(Table()), round.during, fits);
        Table() == if marked then Next(during, Marked(batch.id, round.markedAt), fits) else during
      ensures NeverAgain(delivered, storedAt, sent)
    {
      hide NeverAgain;
      Meanwhile(round.during, fits);
      if !resumed || batch.id !in delivered {
        if round.sending.NotTaken? { return false; }
        SendKeeps(delivered, storedAt, sent, batch, if round.sending.Taken? then round.sending.message else 0);
        sent := sent + [batch];
        if round.sending.AnswerLost? || !round.sending.stored { return false; }
        delivered := delivered[batch.id := round.sending.message];
        storedAt := storedAt[batch.id := |sent|];
      }
      if !round.marks { return false; }
      MarkPosted(batch.id, round.markedAt, fits);
      marked := true;
    }

    /** Post a frozen batch: marked, nothing is frozen; unmarked, it stays frozen unless it was dropped. */
    method PostAndMark(batch: Batch, resumed: bool, round: Round, fits: Fits) returns (marked: bool)
      requires BoardInv(Table(), Some(batch)) && Others(round)
      requires NeverAgain(delivered, storedAt, sent) && (!resumed ==> batch.id !in delivered)
      modifies this
      ensures BoardInv(Table(), if marked then None else FrozenIn(rows))
      ensures FrozenIn(rows) == None || FrozenIn(rows) == Some(batch)
      ensures marked ==> Table() == Next(Run(old(Table()), round.during, fits), Marked(batch.id, round.markedAt), fits)
      ensures round.Stores() && round.marks ==> marked
      ensures sent == old(sent) || (sent == old(sent) + [batch] && batch.id !in old(delivered))
      ensures NeverAgain(delivered, storedAt, sent)
      ensures old(delivered).Keys <= delivered.Keys <= old(delivered).Keys + {batch.id}
    {
      hide NeverAgain;
      ghost var during := Run(Table(), round.during, fits);
      ghost var held := BatchAfter(Table(), Some(batch), round.during, fits);
      OthersFreezeNothing(Table(), Some(batch), round.during, fits);
      marked := PostBatch(batch, resumed, round, fits);
      if marked {
        NextKeepsInv(during, held, Marked(batch.id, round.markedAt), fits);
        FrozenIsHeld(rows, None);
      } else {
        FrozenIsHeld(rows, held);
      }
    }

    /** When the oldest waiting change was recorded. */
    method Oldest() returns (oldest: Option<int>)
      ensures oldest.None? <==> forall k :: 0 <= k < |rows| ==> rows[k].since.None?
      ensures oldest.Some? ==> exists k :: 0 <= k < |rows| && rows[k].since == oldest
      ensures oldest.Some? ==>
                forall k :: 0 <= k < |rows| && rows[k].since.Some? ==> oldest.value <= rows[k].since.value
    {
      oldest := None;
      var i := 0;
      while i < |rows|
        invariant i <= |rows|
        invariant oldest.None? <==> forall k :: 0 <= k < i ==> rows[k].since.None?
        invariant oldest.Some? ==> exists k :: 0 <= k < i && rows[k].since == oldest
        invariant oldest.Some? ==> forall k :: 0 <= k < i && rows[k].since.Some? ==> oldest.value <= rows[k].since.value
      {
        if rows[i].since.Some? && (oldest.None? || rows[i].since.value < oldest.value) { oldest := rows[i].since; }
        i := i + 1;
      }
    }

    /**
     * `deliverStatus`: resend a frozen batch first, wait until the oldest change is a window old, then
     * drain what waits at the cutoff. The drain ends in every world, and when it ends as delivered
     * nothing is frozen and nothing that waited at the cutoff still waits. Transactions that began before
     * the cutoff may still commit during the first `late` rounds.
     */
    method Deliver(target: nat, resume: Round, now: int, world: nat -> Round, start: nat, ghost late: nat, fits: Fits)
      returns (r: Delivery, next: nat)
      requires BoardInv(Table(), FrozenIn(rows)) && NeverAgain(delivered, storedAt, sent)
      requires Others(resume) && forall n: nat :: Others(world(n)) && (n >= late ==> DatedAfter(world(n), now))
      requires Minted(world) && Unused(world, start, delivered, FrozenIn(rows))
      modifies this
      ensures BoardInv(Table(), FrozenIn(rows))
      ensures r == Delivered ==> FrozenIn(rows) == None && Due(rows, now) == []
      ensures MayPost(old(Table()), target) && Smooth(resume) && (forall n: nat :: Smooth(world(n))) ==> r != Stopped
      ensures r == NothingWaits ==> FrozenIn(rows) == None && forall k :: 0 <= k < |rows| ==> rows[k].since.None?
      ensures r.Ordered? ==> FrozenIn(rows) == None && r.seconds > 0
      ensures r.Ordered? ==> forall k :: 0 <= k < |rows| && rows[k].since.Some? ==>
                now - rows[k].since.value <= 120 - r.seconds
      ensures NeverAgain(delivered, storedAt, sent) && Unused(world, next, delivered, FrozenIn(rows))
      ensures NoneSentAgain(old(delivered), old(sent), delivered, sent)
    {
      hide NeverAgain, Minted, Smooth, MayPost, Others, DatedAfter, BoardInv, Due, FrozenIn;
      next := start;
      var going := Resume(target, resume, world, start, fits);
      if !going { return Stopped, next; }
      var oldest := Oldest();
      if oldest.None? { return NothingWaits, next; }
      var remaining := oldest.value + WINDOW_SECONDS - now;
      if remaining > 0 { return Ordered(remaining), next; }
      ghost var taken, posts := delivered, sent;
      r, next := Drain(target, now, world, start, late, fits);
      SentAgainJoins(old(delivered), old(sent), taken, posts, delivered, sent);
    }

    /** A batch frozen before the run comes first; returns whether the run goes on, with nothing frozen. */
    method Resume(target: nat, resume: Round, ghost world: nat -> Round, ghost start: nat, fits: Fits)
      returns (going: bool)
      requires BoardInv(Table(), FrozenIn(rows)) && NeverAgain(delivered, storedAt, sent) && Others(resume)
      requires Unused(world, start, delivered, FrozenIn(rows))
      modifies this
      ensures BoardInv(Table(), FrozenIn(rows)) && (going ==> BoardInv(Table(), None) && FrozenIn(rows) == None)
      ensures MayPost(old(Table()), target) && Smooth(resume) ==> going && MayPost(Table(), target)
      ensures NeverAgain(delivered, storedAt, sent) && Unused(world, start, delivered, FrozenIn(rows))
      ensures NoneSentAgain(old(delivered), old(sent), delivered, sent)
    {
      hide NeverAgain, BoardInv;
      var frozen := FrozenIn(rows);
      if frozen.None? { return true; }
      if !resume.guarded { return false; }
      if Smooth(resume) && MayPost(Table(), target) {
        MarkKeepsSettings(Table(), resume, frozen.value.id, fits, target);
      }
      going := PostAndMark(frozen.value, true, resume, fits);
      if going { NothingFrozen(Table()); }
    }

    /** The first half of a round: what others commit before the freeze, and the freeze. */
    method FreezeRound(target: nat, cutoff: int, round: Round, fits: Fits)
      returns (ghost before: Board, froze: FreezeResult)
      requires BoardInv(Table(), None) && Others(round)
      modifies this`rows, this`channel, this`active, this`effects
      ensures BoardInv(before, None) && BoardInv(Table(), if froze.Batched? then froze.batch else None)
      ensures froze.Batched? && froze.batch.None? ==> Due(rows, cutoff) == []
      ensures froze.Batched? && froze.batch.Some? ==>
                MayPost(before, target) && round.leased && !froze.resumed && froze.batch.value.id == round.id
                && RightSize(froze.batch.value, fits)
                && froze.batch == Freeze(before.rows, cutoff, round.at, round.id, fits).batch
                && Table() == Next(before, FreezeNext(target, cutoff, round.at, round.id, round.leased), fits)
      ensures DatedAfter(round, cutoff) ==> |Due(before.rows, cutoff)| <= |Due(old(rows), cutoff)|
      ensures Smooth(round) && MayPost(old(Table()), target) ==> froze.Batched? && MayPost(Table(), target)
    {
      hide FrozenIn, Gather, HoldsBatch, RowsInv, RightSize, Smooth;
      ghost var smooth := Smooth(round) && MayPost(Table(), target);
      if smooth { SmoothRound(Table(), round, target, fits); }
      OthersFreezeNothing(Table(), None, round.before, fits);
      if DatedAfter(round, cutoff) {
        LaterShrinksDue(Table(), None, round.before, fits, cutoff);
        DueCounts(rows, Run(Table(), round.before, fits).rows, cutoff);
      }
      Meanwhile(round.before, fits);
      before := Table();
      NothingFrozen(before);
      ghost var freeze := FreezeNext(target, cutoff, round.at, round.id, round.leased);
      NextKeepsInv(before, None, freeze, fits);
      if smooth { FreezeKeepsSettings(before, freeze, fits, target); }
      froze := FreezeBatch(target, cutoff, round.at, round.id, round.leased, fits);
      if froze.Superseded? || froze.LeaseLost? { return; }
      FreezeKeepsInv(before.rows, None, cutoff, round.at, round.id, fits);
      if froze.batch.None? {
        NothingLeft(before.rows, cutoff, round.at, round.id, fits);
      } else {
        FreshBatchFits(before.rows, cutoff, round.at, round.id, fits);
        FreshBatchIsNew(before.rows, cutoff, round.at, round.id, fits);
      }
    }

    /** One round: freeze the next batch, post and mark it, check the lease. */
    method DrainRound(target: nat, cutoff: int, round: Round, fits: Fits) returns (ended: Option<Delivery>)
      requires BoardInv(Table(), None) && Others(round)
      requires NeverAgain(delivered, storedAt, sent) && round.id !in delivered
      modifies this
      ensures ended.None? || ended == Some(Delivered) || ended == Some(Stopped)
      ensures BoardInv(Table(), if ended.None? then None else FrozenIn(rows))
      ensures FrozenIn(rows).Some? ==> FrozenIn(rows).value.id == round.id
      ensures ended.None? && DatedAfter(round, cutoff) ==> |Due(rows, cutoff)| < |Due(old(rows), cutoff)|
      ensures ended == Some(Delivered) ==> FrozenIn(rows) == None && Due(rows, cutoff) == []
      ensures Smooth(round) && MayPost(old(Table()), target) ==> ended != Some(Stopped) && MayPost(Table(), target)
      ensures sent == old(sent)
        || exists batch :: sent == old(sent) + [batch] && RightSize(batch, fits) && batch.id !in old(delivered)
      ensures NeverAgain(delivered, storedAt, sent)
      ensures old(delivered).Keys <= delivered.Keys <= old(delivered).Keys + {round.id}
    {
      hide FrozenIn, BoardInv, RightSize, Smooth, NeverAgain, Freeze, Due;
      ghost var smooth := Smooth(round) && MayPost(Table(), target);
      var froze;
      ghost var before;
      before, froze := FreezeRound(target, cutoff, round, fits);
      if !froze.Batched? {
        NothingFrozen(Table());
        return Some(Stopped);
      }
      if froze.batch.None? {
        NothingFrozen(Table());
        return Some(Delivered);
      }
      if smooth {
        SmoothRound(before, round, target, fits);
        MarkKeepsSettings(Table(), round, froze.batch.value.id, fits, target);
      }
      var marked := PostAndMark(froze.batch.value, froze.resumed, round, fits);
      if !marked { return Some(Stopped); }
      if DatedAfter(round, cutoff) {
        ghost var freeze := FreezeNext(target, cutoff, round.at, round.id, round.leased);
        RoundMakesProgress(before, freeze, round.during, Marked(round.id, round.markedAt), fits);
      }
      NothingFrozen(Table());
      ended := if round.guarded then None else Some(Stopped);
    }

    /** The drain loop. */
    method Drain(target: nat, cutoff: int, world: nat -> Round, start: nat, ghost late: nat, fits: Fits)
      returns (r: Delivery, next: nat)
      requires BoardInv(Table(), None) && NeverAgain(delivered, storedAt, sent)
      requires forall n: nat :: Others(world(n)) && (n >= late ==> DatedAfter(world(n), cutoff))
      requires Minted(world) && Unused(world, start, delivered, None)
      modifies this
      ensures r == Delivered || r == Stopped
      ensures BoardInv(Table(), FrozenIn(rows))
      ensures r == Delivered ==> FrozenIn(rows) == None && Due(rows, cutoff) == []
      ensures MayPost(old(Table()), target) && (forall n: nat :: Smooth(world(n))) ==> r == Delivered
      ensures old(sent) <= sent && forall k :: |old(sent)| <= k < |sent| ==> RightSize(sent[k], fits)
      ensures NeverAgain(delivered, storedAt, sent) && Unused(world, next, delivered, FrozenIn(rows))
      ensures NoneSentAgain(old(delivered), old(sent), delivered, sent)
    {
      hide BoardInv, FrozenIn, Due, RightSize, Smooth, MayPost, Others, DatedAfter, NeverAgain;
      next := start;
      while true
        invariant BoardInv(Table(), None) && NeverAgain(delivered, storedAt, sent)
        invariant MayPost(old(Table()), target) && (forall n: nat :: Smooth(world(n))) ==> MayPost(Table(), target)
        invariant old(sent) <= sent && forall k :: |old(sent)| <= k < |sent| ==> RightSize(sent[k], fits)
        invariant Unused(world, next, delivered, None) && NoneSentAgain(old(delivered), old(sent), delivered, sent)
        decreases if next < late then late - next else 0, |Due(rows, cutoff)|
      {
        var round := world(next);
        assert Others(round) && (next >= late ==> DatedAfter(round, cutoff));
        ghost var taken, posts := delivered, sent;
        var ended := DrainRound(target, cutoff, round, fits);
        SentAgainJoins(old(delivered), old(sent), taken, posts, delivered, sent);
        UnusedAfter(world, next, taken, delivered, FrozenIn(rows));
        next := next + 1;
        if ended.Some? { return ended.value, next; }
      }
    }

    /**
     * Run after run of the job, whatever fails in each: no batch whose `delivered` attempt is stored is
     * ever sent again.
     */
    method DeliverRuns(jobs: seq<Job>, world: nat -> Round, fits: Fits)
      requires BoardInv(Table(), FrozenIn(rows)) && NeverAgain(delivered, storedAt, sent)
      requires Minted(world) && Unused(world, 0, delivered, FrozenIn(rows))
      requires forall i :: 0 <= i < |jobs| ==> Sound(jobs[i], world)
      modifies this
      ensures BoardInv(Table(), FrozenIn(rows)) && NeverAgain(delivered, storedAt, sent)
      ensures NoneSentAgain(old(delivered), old(sent), delivered, sent)
    {
      hide BoardInv, FrozenIn, NeverAgain, Minted, Unused, Others, DatedAfter, Smooth, ByOthers;
      var i, next := 0, 0;
      while i < |jobs|
        invariant i <= |jobs|
        invariant BoardInv(Table(), FrozenIn(rows)) && NeverAgain(delivered, storedAt, sent)
        invariant Unused(world, next, delivered, FrozenIn(rows))
        invariant NoneSentAgain(old(delivered), old(sent), delivered, sent)
      {
        var job := jobs[i];
        assert Sound(job, world);
        ghost var taken, posts := delivered, sent;
        BetweenRuns(Table(), job.between, world, next, delivered, fits);
        Meanwhile(job.between, fits);
        var _, n := Deliver(job.target, job.resume, job.now, world, next, job.late, fits);
        SentAgainJoins(old(delivered), old(sent), taken, posts, delivered, sent);
        i, next := i + 1, n;
      }
    }
  }
}
