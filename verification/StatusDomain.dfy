/**
 * A member's status state: per access flag the value last announced and the last decisive value,
 * and the confirmed departures not yet posted.
 */
module StatusDomain {
  import opened Options

  datatype Flag = Member | Guest | Officer | Leader

  /** One value per flag; None while its role is unbound or before its first decisive value. */
  datatype Flags = Flags(member: Option<bool>, guest: Option<bool>, officer: Option<bool>, leader: Option<bool>)
  {
    function Get(f: Flag): Option<bool> {
      match f
      case Member => member
      case Guest => guest
      case Officer => officer
      case Leader => leader
    }
  }

  function Each(g: Flag -> Option<bool>): (r: Flags)
    ensures forall f :: r.Get(f) == g(f)
  {
    Flags(g(Member), g(Guest), g(Officer), g(Leader))
  }

  const NO_FLAGS := Flags(None, None, None, None)

  type Reason = string
  type Reasons = map<Flag, Reason>

  datatype Departure = Departure(character: string, name: string, world: string, snapshot: string)

  predicate SameDeparture(a: Departure, b: Departure) {
    a.character == b.character && a.snapshot == b.snapshot
  }

  datatype State = State(
    joined: Option<int>,
    announced: Flags,
    current: Flags,
    reasons: Reasons,
    departed: seq<Departure>)

  datatype Entry = Entry(
    user: nat,
    joined: Option<int>,
    from: Flags,
    to: Flags,
    reasons: Reasons,
    departed: seq<Departure>)

  /** The flag's decisive value differs from the announced one. */
  predicate Waiting(s: State, f: Flag) {
    && s.announced.Get(f).Some? && s.current.Get(f).Some?
    && s.announced.Get(f) != s.current.Get(f)
  }

  function Tidied(s: State): State {
    s.(reasons := map f | f in s.reasons && Waiting(s, f) :: s.reasons[f])
  }

  predicate IsPending(s: State) {
    Waiting(s, Member) || Waiting(s, Guest) || Waiting(s, Officer) || Waiting(s, Leader)
    || s.departed != []
  }

  datatype Seen = Seen(value: Option<bool>, decisive: bool, reason: Reason)

  /** One reconciliation pass's view of every flag. */
  datatype Observation = Observation(member: Seen, guest: Seen, officer: Seen, leader: Seen)
  {
    function Get(f: Flag): Seen {
      match f
      case Member => member
      case Guest => guest
      case Officer => officer
      case Leader => leader
    }
  }

  /** The state one pass's values are compared with; another join context starts over silently. */
  function Base(previous: Option<State>, joined: int): State {
    if previous.Some? && previous.value.joined == Some(joined) then previous.value
    else State(Some(joined), NO_FLAGS, NO_FLAGS, map[],
               if previous.Some? then previous.value.departed else [])
  }

  function AnnouncedAfter(base: State, seen: Seen, f: Flag): Option<bool> {
    if seen.value.None? then None
    else if seen.decisive && base.announced.Get(f).None? then seen.value
    else base.announced.Get(f)
  }

  function CurrentAfter(base: State, seen: Seen, f: Flag): Option<bool> {
    if seen.value.None? || seen.decisive then seen.value else base.current.Get(f)
  }

  /** A decisive value moved against a known baseline. */
  predicate Moves(base: State, seen: Seen, f: Flag) {
    && seen.value.Some? && seen.decisive && base.announced.Get(f).Some?
    && base.current.Get(f) != seen.value
  }

  predicate Explains(base: State, seen: Seen, f: Flag) {
    && seen.value.Some? && seen.decisive && base.announced.Get(f).Some?
    && base.announced.Get(f) != seen.value
  }

  function Recorded(base: State, o: Observation): State {
    Tidied(State(
      base.joined,
      Each(f => AnnouncedAfter(base, o.Get(f), f)),
      Each(f => CurrentAfter(base, o.Get(f), f)),
      map f: Flag | f in base.reasons || Explains(base, o.Get(f), f) ::
        (if Explains(base, o.Get(f), f) then o.Get(f).reason else base.reasons[f]),
      base.departed))
  }

  datatype Observed = Observed(next: State, changed: bool, pending: bool, moved: bool)

  function Observe(previous: Option<State>, o: Observation, joined: int): Observed {
    var base := Base(previous, joined);
    var next := Recorded(base, o);
    Observed(next, previous != Some(next), IsPending(next),
             Moves(base, o.member, Member) || Moves(base, o.guest, Guest)
             || Moves(base, o.officer, Officer) || Moves(base, o.leader, Leader))
  }

  predicate Lists(departed: seq<Departure>, d: Departure) {
    exists k :: 0 <= k < |departed| && SameDeparture(departed[k], d)
  }

  function AddDeparture(previous: Option<State>, d: Departure): State {
    var base := if previous.Some? then previous.value else State(None, NO_FLAGS, NO_FLAGS, map[], []);
    if Lists(base.departed, d) then base
    else base.(departed := base.departed + [d])
  }

  /** A pending member's lines for a post. */
  function EntryFor(user: nat, s: State): Option<Entry> {
    if !IsPending(s) then None
    else Some(Entry(
                user, s.joined, s.announced,
                Each(f => if Waiting(s, f) then s.current.Get(f) else s.announced.Get(f)),
                map f | f in s.reasons && Waiting(s, f) :: s.reasons[f],
                s.departed))
  }

  datatype Level = NoAccess | GuestLevel | MemberLevel

  function LevelOf(flags: Flags): Level {
    if flags.member == Some(true) then MemberLevel
    else if flags.guest == Some(true) then GuestLevel
    else NoAccess
  }

  predicate EntryVisible(e: Entry) {
    LevelOf(e.from) != LevelOf(e.to) || e.from.officer != e.to.officer
    || e.from.leader != e.to.leader || e.departed != []
  }

  /** The entries `posted` names are gone from `departed`. */
  function Unposted(departed: seq<Departure>, posted: seq<Departure>): seq<Departure> {
    if departed == [] then []
    else
      var rest := Unposted(departed[1..], posted);
      if exists k :: 0 <= k < |posted| && SameDeparture(posted[k], departed[0]) then rest
      else [departed[0]] + rest
  }

  /** Whether a posted flag moves the announced value. */
  predicate Lands(s: State, e: Entry, f: Flag) {
    && e.joined == s.joined && e.from.Get(f).Some? && e.from.Get(f) != e.to.Get(f)
    && s.announced.Get(f) == e.from.Get(f)
  }

  function ApplyPosted(s: State, e: Entry): State {
    Tidied(s.(announced := Each(f => if Lands(s, e, f) then e.to.Get(f) else s.announced.Get(f)),
              departed := Unposted(s.departed, e.departed)))
  }

  function DropPending(s: State): State {
    s.(announced := s.current, reasons := map[], departed := [])
  }

  /** What passes and rosters do to a state while a post is in flight. */
  datatype Change = Pass(observation: Observation) | Depart(departure: Departure)

  function Changed(s: State, c: Change): State
    requires s.joined.Some? || c.Depart?
  {
    match c
    case Pass(o) => Observe(Some(s), o, s.joined.value).next
    case Depart(d) => AddDeparture(Some(s), d)
  }

  function ChangedAll(s: State, changes: seq<Change>): State
    requires s.joined.Some?
    decreases |changes|
  {
    if changes == [] then s else
      var next := Changed(s, changes[0]);
      ChangedAll(next, changes[1..])
  }

  ghost predicate StaysBound(f: Flag, changes: seq<Change>) {
    forall k :: 0 <= k < |changes| && changes[k].Pass? ==> changes[k].observation.Get(f).value.Some?
  }

  /** Passes in the same join leave a bound flag's announced value alone, and only add departures. */
  lemma {:induction false} InFlight(s: State, f: Flag, changes: seq<Change>)
    requires s.joined.Some? && s.announced.Get(f).Some? && s.current.Get(f).Some?
    requires StaysBound(f, changes)
    ensures var after := ChangedAll(s, changes);
      && after.joined == s.joined && after.announced.Get(f) == s.announced.Get(f)
      && after.current.Get(f).Some? && s.departed <= after.departed
    decreases |changes|
  {
    if changes != [] {
      var next := Changed(s, changes[0]);
      assert next.joined == s.joined && next.announced.Get(f) == s.announced.Get(f)
        && next.current.Get(f).Some? && s.departed <= next.departed;
      InFlight(next, f, changes[1..]);
    }
  }

  /**
   * A flag waits after the mark exactly when its latest decisive value is not the one just posted:
   * a change made between freeze and mark is kept, one that reverts included.
   */
  lemma ChangeInFlightStillWaits(user: nat, s: State, f: Flag, changes: seq<Change>)
    requires s.joined.Some? && IsPending(s) && s.announced.Get(f).Some? && s.current.Get(f).Some?
    requires StaysBound(f, changes)
    ensures var entry := EntryFor(user, s).value;
      var meanwhile := ChangedAll(s, changes);
      var marked := ApplyPosted(meanwhile, entry);
      && marked.announced.Get(f) == entry.to.Get(f)
      && (Waiting(marked, f) <==> meanwhile.current.Get(f) != entry.to.Get(f))
  {
    InFlight(s, f, changes);
  }

  /** A departure confirmed in flight is still there after the mark. */
  lemma {:induction false} UnpostedKeeps(departed: seq<Departure>, posted: seq<Departure>, d: Departure)
    ensures d in Unposted(departed, posted) <==>
      d in departed && !exists k :: 0 <= k < |posted| && SameDeparture(posted[k], d)
  {
    if departed != [] { UnpostedKeeps(departed[1..], posted, d); }
  }

  lemma DepartureInFlightStillWaits(user: nat, s: State, changes: seq<Change>, d: Departure)
    requires s.joined.Some? && IsPending(s)
    ensures var entry := EntryFor(user, s).value;
      var meanwhile := ChangedAll(s, changes);
      d in ApplyPosted(meanwhile, entry).departed <==>
        d in meanwhile.departed && !exists k :: 0 <= k < |s.departed| && SameDeparture(s.departed[k], d)
  {
    UnpostedKeeps(ChangedAll(s, changes).departed, s.departed, d);
  }

  lemma {:induction false} UnpostedAll(departed: seq<Departure>, posted: seq<Departure>)
    requires forall k :: 0 <= k < |departed| ==> departed[k] in posted
    ensures Unposted(departed, posted) == []
  {
    if departed != [] {
      var k :| 0 <= k < |posted| && posted[k] == departed[0];
      assert SameDeparture(posted[k], departed[0]);
      UnpostedAll(departed[1..], posted);
    }
  }

  /** A post with nothing in flight leaves nothing waiting. */
  lemma PostedLeavesNothing(user: nat, s: State)
    requires IsPending(s)
    ensures !IsPending(ApplyPosted(s, EntryFor(user, s).value))
  {
    UnpostedAll(s.departed, s.departed);
  }

  lemma DropLeavesNothing(s: State)
    ensures !IsPending(DropPending(s))
  {
  }

  /** A change reversed before the post cancels itself: the announced value stays its only trace. */
  lemma ReversalCancels(s: State, o: Observation, f: Flag)
    requires s.joined.Some? && o.Get(f).decisive && o.Get(f).value == s.announced.Get(f) != None
    ensures var next := Observe(Some(s), o, s.joined.value).next;
      !Waiting(next, f) && f !in next.reasons && next.announced.Get(f) == s.announced.Get(f)
  {
  }
}
