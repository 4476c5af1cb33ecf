/**
 * The status columns of one server's members, and what each transaction does to them: recording,
 * dropping, freezing a batch and marking it posted.
 */
module StatusBoard {
  import opened Options
  import opened Sorting
  import opened StatusDomain

  const POST_MEMBERS := 100

  /** A member's place in the batch being sent. */
  datatype Posting = Posting(batch: nat, place: nat, frozenAt: int, entry: Entry)

  /** `since` is when the oldest change still waiting was recorded. */
  datatype Row = Row(user: nat, state: Option<State>, since: Option<int>, posting: Option<Posting>)

  datatype Batch = Batch(id: nat, frozenAt: int, entries: seq<Entry>)

  /** The table in user order, and the settings a status transaction reads under its share lock. */
  datatype Board = Board(rows: seq<Row>, channel: Option<nat>, active: bool, effects: bool)

  /** Whether a post's text fits Discord's limits. */
  type Fits = (int, seq<Entry>) -> bool

  function Pending(state: Option<State>): bool { state.Some? && IsPending(state.value) }

  /** `recordStatus`. */
  function ObserveRow(row: Row, channel: bool, o: Observation, joined: int, now: int): Row {
    var recorded := Observe(row.state, o, joined);
    if !channel then
      if !recorded.changed && !recorded.pending && row.since.None? && row.posting.None? then row
      else Row(row.user, Some(DropPending(recorded.next)), None, None)
    else if !recorded.changed then row
    else row.(state := Some(recorded.next),
              since := if !recorded.pending then None else if row.since.Some? then row.since else Some(now))
  }

  /** One user's confirmed departures, folded in order. */
  function Departed(state: Option<State>, user: nat, items: seq<(nat, Departure)>): Option<State>
    decreases |items|
  {
    if items == [] then state
    else Departed(if items[0].0 == user then Some(AddDeparture(state, items[0].1)) else state, user, items[1..])
  }

  predicate Departs(user: nat, items: seq<(nat, Departure)>) {
    exists k :: 0 <= k < |items| && items[k].0 == user
  }

  /** `recordDepartures`, for one owner. */
  function DepartRow(row: Row, items: seq<(nat, Departure)>, now: int): Row {
    if !Departs(row.user, items) then row
    else row.(state := Departed(row.state, row.user, items),
              since := if row.since.Some? then row.since else Some(now))
  }

  /** `dropWaiting`, for one row it finds waiting or frozen. */
  function DropRow(row: Row): Row {
    if row.since.None? && row.posting.None? then row
    else Row(row.user, if row.state.Some? then Some(DropPending(row.state.value)) else None, None, None)
  }

  /** `markPosted`, for one row. */
  function MarkRow(row: Row, batch: nat, now: int): Row {
    if row.posting.None? || row.posting.value.batch != batch then row
    else
      var next := if row.state.Some? then Some(ApplyPosted(row.state.value, row.posting.value.entry)) else None;
      Row(row.user, next, if Pending(next) then Some(now) else None, None)
  }

  /** What a freeze does with a row that has no line of its own. */
  function QuietRow(row: Row): Row {
    var entry := if row.state.Some? then EntryFor(row.user, row.state.value) else None;
    if entry.None? then row.(since := None)
    else
      var next := ApplyPosted(row.state.value, entry.value);
      row.(state := Some(next), since := if IsPending(next) then row.since else None)
  }

  function EachRow(rows: seq<Row>, f: Row -> Row): (r: seq<Row>)
    ensures |r| == |rows| && forall k :: 0 <= k < |rows| ==> r[k] == f(rows[k])
  {
    seq(|rows|, k requires 0 <= k < |rows| => f(rows[k]))
  }

  predicate IsDue(row: Row, cutoff: int) { row.since.Some? && row.since.value <= cutoff }

  function Due(rows: seq<Row>, cutoff: int): seq<Row> {
    if rows == [] then []
    else (if IsDue(rows[0], cutoff) then [rows[0]] else []) + Due(rows[1..], cutoff)
  }

  predicate Older(a: Row, b: Row) {
    var x, y := if a.since.Some? then a.since.value else 0, if b.since.Some? then b.since.value else 0;
    x < y || (x == y && a.user <= b.user)
  }

  /** The rows waiting at the cutoff, oldest first. */
  function Candidates(rows: seq<Row>, cutoff: int): seq<Row> { Sort(Older, Due(rows, cutoff)) }

  function Postings(rows: seq<Row>): seq<Posting> {
    if rows == [] then []
    else (if rows[0].posting.Some? then [rows[0].posting.value] else []) + Postings(rows[1..])
  }

  predicate FrozenBefore(a: Posting, b: Posting) {
    a.frozenAt < b.frozenAt || (a.frozenAt == b.frozenAt && a.batch <= b.batch)
  }

  predicate PlaceBefore(a: Posting, b: Posting) { a.place <= b.place }

  function OfBatch(postings: seq<Posting>, batch: nat): seq<Posting> {
    if postings == [] then []
    else (if postings[0].batch == batch then [postings[0]] else []) + OfBatch(postings[1..], batch)
  }

  function Entries(postings: seq<Posting>): seq<Entry> {
    if postings == [] then [] else [postings[0].entry] + Entries(postings[1..])
  }

  /** The frozen batch among the rows: the lowest frozenAt, its entries in place order. */
  function FrozenIn(rows: seq<Row>): Option<Batch> {
    var postings := Sort(FrozenBefore, Postings(rows));
    if postings == [] then None
    else Some(Batch(postings[0].batch, postings[0].frozenAt,
                    Entries(Sort(PlaceBefore, OfBatch(postings, postings[0].batch)))))
  }

  /** The user's line in the next post, if it has one. */
  function Line(row: Row): Option<Entry> {
    var entry := if row.state.Some? then EntryFor(row.user, row.state.value) else None;
    if entry.Some? && EntryVisible(entry.value) then entry else None
  }

  datatype Gathered = Gathered(quiet: set<nat>, entries: seq<Entry>)

  /** The candidates announced silently, and the lines that make the post. */
  function Gather(candidates: seq<Row>, entries: seq<Entry>, fits: seq<Entry> -> bool): Gathered {
    if candidates == [] then Gathered({}, entries)
    else
      var line := Line(candidates[0]);
      if line.None? then
        var rest := Gather(candidates[1..], entries, fits);
        Gathered(rest.quiet + {candidates[0].user}, rest.entries)
      else if |entries| >= POST_MEMBERS then Gathered({}, entries)
      else if fits(entries + [line.value]) then Gather(candidates[1..], entries + [line.value], fits)
      else Gathered({}, if entries == [] then [line.value] else entries)
  }

  /** A user's place among the entries. */
  function Place(entries: seq<Entry>, user: nat): (r: Option<nat>)
    ensures r.Some? ==> r.value < |entries| && entries[r.value].user == user
    ensures r.None? ==> forall k :: 0 <= k < |entries| ==> entries[k].user != user
  {
    if entries == [] then None
    else if entries[0].user == user then Some(0)
    else
      var rest := Place(entries[1..], user);
      if rest.Some? then Some(1 + rest.value) else None
  }

  function PostRow(row: Row, batch: Batch): Row {
    var place := Place(batch.entries, row.user);
    if place.None? then row
    else row.(posting := Some(Posting(batch.id, place.value, batch.frozenAt, batch.entries[place.value])))
  }

  datatype Frozen = Frozen(rows: seq<Row>, batch: Option<Batch>, resumed: bool)

  /** `freeze`, once its run may still post to the channel: a batch already frozen comes first. */
  function Freeze(rows: seq<Row>, cutoff: int, now: int, id: nat, fits: Fits): Frozen {
    if FrozenIn(rows).Some? then Frozen(rows, FrozenIn(rows), true)
    else
      var g := Gather(Candidates(rows, cutoff), [], e => fits(now, e));
      var quieted := EachRow(rows, (row: Row) => if row.user in g.quiet then QuietRow(row) else row);
      if g.entries == [] then Frozen(quieted, None, false)
      else
        var batch := Batch(id, now, g.entries);
        Frozen(EachRow(quieted, row => PostRow(row, batch)), Some(batch), false)
  }

  datatype Event =
    | Reconciled(user: nat, observation: Observation, joined: int, at: int)
    | Departures(items: seq<(nat, Departure)>, at: int)
    | Configured(channel: Option<nat>)
    | Paused(active: bool, effects: bool)
    | FreezeNext(target: nat, cutoff: int, at: int, id: nat, leased: bool)
    | Marked(batch: nat, at: int)

  /** The run that freezes may still post to the channel it started with. */
  predicate MayPost(b: Board, target: nat) { b.active && b.effects && b.channel == Some(target) }

  function Next(b: Board, event: Event, fits: Fits): Board {
    match event
    case Reconciled(user, o, joined, at) =>
      var observe := (row: Row) => if row.user == user then ObserveRow(row, b.channel.Some?, o, joined, at) else row;
      b.(rows := EachRow(b.rows, observe))
    case Departures(items, at) =>
      if b.channel.None? then b else b.(rows := EachRow(b.rows, row => DepartRow(row, items, at)))
    case Configured(channel) =>
      b.(channel := channel, rows := if channel.None? then EachRow(b.rows, DropRow) else b.rows)
    case Paused(active, effects) => b.(active := active, effects := effects)
    case FreezeNext(target, cutoff, at, id, leased) =>
      if !MayPost(b, target) || (!leased && FrozenIn(b.rows).None?) then b
      else b.(rows := Freeze(b.rows, cutoff, at, id, fits).rows)
    case Marked(batch, at) => b.(rows := EachRow(b.rows, row => MarkRow(row, batch, at)))
  }

  function Run(b: Board, events: seq<Event>, fits: Fits): Board
    decreases |events|
  {
    if events == [] then b else Run(Next(b, events[0], fits), events[1..], fits)
  }
}
