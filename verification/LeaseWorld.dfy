/**
 * The writer lease: processes, their lease sessions, the database's one advisory lock, and time.
 * A session can die silently at any moment; the lock server then frees what it held.
 */
module LeaseWorld {
  import opened Options

  /** leaseCheckMs and leaseQueryTimeoutMs, by default 30000 and 10000. */
  datatype Timing = Timing(check: nat, timeout: nat)

  /** How far prepare() and start() have come. */
  datatype Phase = Starting | Waiting | Acquired | Prepared | Started | Failed | Closed

  /** The check in flight: when it was sent, and what the session answered if it did. */
  datatype Check = Check(sent: int, answer: Option<bool>)

  datatype Proc = Proc(
    version: nat, phase: Phase, session: Option<nat>, held: bool, broken: bool, stopping: bool,
    exitCode: nat, checkDue: int, checking: Option<Check>)

  datatype World = World(
    now: int, schema: nat, holder: Option<nat>, live: set<nat>, next: nat, pool: set<nat>, procs: map<nat, Proc>,
    /** When each dead session died, and the schema last migrated to since, if any. */
    lostAt: map<nat, int>, migratedSince: map<nat, Option<nat>>,
    /** The sessions some process found broken, and those it sent the unlock on. */
    broken: set<nat>, unlocked: set<nat>)

  function NewProc(version: nat): Proc { Proc(version, Starting, None, false, false, false, 0, 0, None) }

  /** The first schema check, then a dedicated session. */
  function Connected(p: Proc, session: nat): Proc { p.(phase := Waiting, session := Some(session)) }

  /** `acquireWriterLease` once the lock is granted; the periodic check starts. */
  function Granted(p: Proc, now: int, t: Timing): Proc {
    if p.stopping then p.(held := true, phase := Failed, checkDue := now)
    else p.(held := true, phase := Acquired, checkDue := now + t.check)
  }

  /** `waitStatement` that failed: the session is not to be trusted. */
  function WaitFailed(p: Proc): Proc { p.(broken := true, exitCode := 1, phase := Failed) }

  /** The second schema check, made while holding the lease. */
  function Rechecked(p: Proc, schema: nat): Proc {
    p.(phase := if schema == p.version then Prepared else Failed)
  }

  /** `start`: its writes begin only under the lease, as the configured application. */
  function Launched(p: Proc, matches: bool): Proc { p.(phase := if p.held && matches then Started else Failed) }

  /** `leaseLost`. */
  function Lost(p: Proc): Proc {
    if !p.held || p.stopping then p.(broken := true)
    else p.(broken := true, held := false, exitCode := 1, stopping := true)
  }

  /** The interval fires: one check at a time. */
  function Fired(p: Proc, now: int, t: Timing): Proc {
    p.(checkDue := p.checkDue + t.check,
       checking := if p.checking.Some? || !p.held || p.stopping then p.checking else Some(Check(now, None)))
  }

  /** `checkWriterLease` gets its answer, or none in time. */
  function Returned(p: Proc, answer: Option<bool>): Proc {
    var done := p.(checking := None);
    if answer == Some(true) then done else Lost(done)
  }

  /** `releaseWriterLease`, the process's side. */
  function Released(p: Proc): Proc { p.(session := None, held := false, phase := Closed) }

  function Die(w: World, s: nat): World {
    if s !in w.live then w
    else w.(live := w.live - {s}, holder := if w.holder == Some(s) then None else w.holder,
            lostAt := w.lostAt[s := w.now], migratedSince := w.migratedSince[s := None])
  }

  datatype Event =
    | Connect(p: nat)
    | Attempt(p: nat)
    | AttemptFails(p: nat, granted: bool)
    | Recheck(p: nat)
    | Start(p: nat, matches: bool)
    | CheckFires(p: nat)
    | CheckServed(p: nat)
    | CheckReturns(p: nat)
    | SessionError(p: nat)
    | Stop(p: nat)
    | Release(p: nat, unlocks: bool)
    | SessionDies(session: nat)
    | Migrate(schema: nat)
    | Tick(to: int)

  /** Timers are exact: time passes neither a due check nor a check's deadline. */
  predicate MayReach(p: Proc, to: int, t: Timing) {
    && (p.held && !p.stopping ==> to <= p.checkDue)
    && (p.checking.Some? ==> to <= p.checking.value.sent + t.timeout)
  }

  predicate Enabled(w: World, e: Event, t: Timing) {
    match e
    case Connect(p) => p in w.procs && w.procs[p].phase == Starting && w.schema == w.procs[p].version
    case Attempt(p) => p in w.procs && w.procs[p].phase == Waiting && w.procs[p].session.Some?
                       && w.procs[p].session.value in w.live && !w.procs[p].broken
    case AttemptFails(p, _) => p in w.procs && w.procs[p].phase == Waiting && w.procs[p].session.Some?
    case Recheck(p) => p in w.procs && w.procs[p].phase == Acquired
    case Start(p, _) => p in w.procs && w.procs[p].phase == Prepared
    case CheckFires(p) => p in w.procs && w.procs[p].held && !w.procs[p].stopping && w.procs[p].checkDue == w.now
    case CheckServed(p) => p in w.procs && w.procs[p].checking.Some? && w.procs[p].checking.value.answer.None?
                           && w.procs[p].session.Some? && w.procs[p].session.value in w.live
    case CheckReturns(p) => p in w.procs && w.procs[p].checking.Some?
    case SessionError(p) => p in w.procs && w.procs[p].session.Some?
    case Stop(p) => p in w.procs
    case Release(p, _) => p in w.procs && w.procs[p].stopping && w.procs[p].session.Some? && w.procs[p].checking.None?
                          && w.procs[p].phase != Waiting
    case SessionDies(s) => s in w.live
    case Migrate(_) => w.holder.None?
    case Tick(to) => w.now <= to && forall p :: p in w.procs ==> MayReach(w.procs[p], to, t)
  }

  function Update(w: World, p: nat, proc: Proc): World { w.(procs := w.procs[p := proc]) }

  /** The session marked broken by the process that owns it. */
  function Mark(w: World, p: Proc): set<nat> { w.broken + if p.session.Some? then {p.session.value} else {} }

  function Next(w: World, e: Event, t: Timing): World
    requires Enabled(w, e, t)
  {
    match e
    case Connect(p) => Update(w, p, Connected(w.procs[p], w.next)).(live := w.live + {w.next}, next := w.next + 1)
    case Attempt(p) =>
      if w.procs[p].stopping then Update(w, p, w.procs[p].(phase := Failed))
      else if w.holder.Some? then w
      else Update(w, p, Granted(w.procs[p], w.now, t)).(holder := w.procs[p].session)
    case AttemptFails(p, granted) =>
      var s := w.procs[p].session;
      Update(w, p, WaitFailed(w.procs[p]))
        .(holder := if granted && s.value in w.live && w.holder.None? then s else w.holder,
          broken := Mark(w, w.procs[p]))
    case Recheck(p) => Update(w, p, Rechecked(w.procs[p], w.schema))
    case Start(p, matches) => Update(w, p, Launched(w.procs[p], matches))
    case CheckFires(p) => Update(w, p, Fired(w.procs[p], w.now, t))
    case CheckServed(p) =>
      var served := w.procs[p].checking.value.(answer := Some(w.holder == w.procs[p].session));
      Update(w, p, w.procs[p].(checking := Some(served)))
    case CheckReturns(p) =>
      var answer := w.procs[p].checking.value.answer;
      Update(w, p, Returned(w.procs[p], answer))
        .(broken := if answer == Some(true) then w.broken else Mark(w, w.procs[p]))
    case SessionError(p) => Update(w, p, Lost(w.procs[p])).(broken := Mark(w, w.procs[p]))
    case Stop(p) => Update(w, p, w.procs[p].(stopping := true))
    case Release(p, unlocks) =>
      var proc := w.procs[p];
      var s := proc.session.value;
      var closed := Update(w, p, Released(proc));
      if proc.broken then Die(closed, s)
      else
        var sent := if proc.held then closed.(unlocked := w.unlocked + {s}) else closed;
        if s !in w.live || (proc.held && !unlocks) then Die(sent, s)
        else sent.(holder := if w.holder == Some(s) then None else w.holder, pool := w.pool + {s})
    case SessionDies(s) => Die(w, s)
    case Migrate(schema) =>
      w.(schema := schema, migratedSince := map s | s in w.lostAt :: Some(schema))
    case Tick(to) => w.(now := to)
  }

  /** Every event of the run could happen where it did. */
  ghost predicate Possible(w: World, events: seq<Event>, t: Timing)
    decreases |events|
  {
    events == [] || (Enabled(w, events[0], t) && Possible(Next(w, events[0], t), events[1..], t))
  }

  ghost function Run(w: World, events: seq<Event>, t: Timing): World
    requires Possible(w, events, t)
    decreases |events|
  {
    if events == [] then w else Run(Next(w, events[0], t), events[1..], t)
  }

  /** Processes of any versions before any of them starts. */
  ghost predicate Init(w: World) {
    && w.holder.None? && w.live == {} && w.pool == {} && w.lostAt == map[] && w.migratedSince == map[]
    && w.broken == {} && w.unlocked == {}
    && forall p :: p in w.procs ==> w.procs[p] == NewProc(w.procs[p].version)
  }
}
