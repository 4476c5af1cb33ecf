/**
 * The worker's `nickname` pass, cut at every await. Between any two awaits others act, and the
 * process may die, be fenced by its guard, or lose Discord's answer (a throw, the same as dying).
 */
module NicknameWorker {
  import opened Options
  import opened NicknameWorld

  /** Where a pass is: the await it is about to perform, with the locals that outlive it. */
  datatype Pc =
    | Idle
    | ReadMember
    | ReadRow(current: Nick, owner: bool)
    | DropOwner
    | RestoreClaim(user: Row, current: Nick)
    | RestoreGuard(user: Row, current: Nick)
    | RestoreSend(user: Row, current: Nick)
    | RestoreSuspend(restored: bool)
    | RestoreClear(restored: bool)
    | Suspend
    | Adopt(user: Row, current: Nick)
    | FindCharacter(user: Row, current: Nick)
    | Capture(current: Nick, target: Nick)
    | Claim(current: Nick, target: Nick)
    | Guard(current: Nick, target: Nick)
    | Send(current: Nick, target: Nick)
    | Confirm(target: Nick)
    | Settle

  /** What the pass does next, once it has read the row. */
  function Decide(user: Row, current: Nick, owner: bool): Pc {
    if owner then (if user.restore || user.pending then DropOwner else Idle)
    else if user.restore then
      var restored := user.OwnPending(current) && current == user.before;
      if user.Restorable(current) && current != user.before then RestoreClaim(user, current)
      else if user.Independent(current) then RestoreSuspend(restored)
      else RestoreClear(restored)
    else if !user.Projecting() then Idle
    else if user.Independent(current) then Suspend
    else if user.OwnPending(current) then Adopt(user, current)
    else FindCharacter(user, current)
  }

  function Suspended(row: Row): Row {
    row.(suspended := true, enabled := false, pending := false)
  }

  /** Discord's compare-and-set: the nickname changes only while it still is `expected`. */
  function Replaced(w: World, value: Nick, expected: Nick): World {
    if w.nick != expected then w else
      w.(nick := value, writes := w.writes + [Write(expected, value, w.row.before, w.attempted)])
  }

  function Announced(w: World, row: Row): World {
    w.(row := row, attempted := w.attempted + {row.expected})
  }

  /** One await of the pass, performed in world `w`. */
  function Step(w: World, pc: Pc): (World, Pc) {
    var row := w.row;
    match pc
    case Idle => (w, Idle)
    case ReadMember => (w, if w.member.Present? then ReadRow(w.nick, w.member.owner) else Idle)
    case ReadRow(current, owner) => (w, Decide(row, current, owner))
    case DropOwner => (w.(row := row.(restore := false, pending := false)), Idle)
    case RestoreClaim(user, current) =>
      (Announced(w, row.(pending := true, expected := row.before, last := current, written := true)),
       RestoreGuard(user, current))
    case RestoreGuard(user, current) => (w, RestoreSend(user, current))
    case RestoreSend(user, current) =>
      (Replaced(w, user.before, current),
       if w.nick == current then RestoreClear(true) else RestoreSuspend(false))
    case RestoreSuspend(restored) => (w.(row := Suspended(row)), RestoreClear(restored))
    case RestoreClear(restored) =>
      (w.(row := row.(restore := false, baselineSet := false, pending := false, written := false,
                      last := if restored then row.before else row.last)), Idle)
    case Suspend => (w.(row := Suspended(row)), Idle)
    case Adopt(user, current) =>
      (w.(row := row.(last := current, written := true, pending := false)),
       FindCharacter(user, current))
    case FindCharacter(user, current) =>
      if user.primary.None? || user.primary.value !in w.links * w.names.Keys then (w, Idle)
      else
        var target := Some(Nickname(w.names[user.primary.value]));
        (w, if !user.baselineSet then Capture(current, target)
            else if current != target then Claim(current, target) else Settle)
    case Capture(current, target) =>
      (w.(row := row.(before := current, baselineSet := true, written := false)),
       if current != target then Claim(current, target) else Settle)
    case Claim(current, target) =>
      (Announced(w, row.(pending := true, expected := target)), Guard(current, target))
    case Guard(current, target) => (w, Send(current, target))
    case Send(current, target) =>
      (Replaced(w, target, current), if w.nick == current then Confirm(target) else Suspend)
    case Confirm(target) =>
      (w.(row := row.(last := target, written := true, pending := false)), Idle)
    case Settle => (w.(row := row.(pending := false)), Idle)
  }

  /** What happens at one await: others act first, then the pass goes on or dies there. */
  datatype Turn = Turn(meanwhile: seq<Action>, survives: bool)

  /** The world one pass leaves when its awaits meet `turns[k..]`; after the last turn it dies. */
  function Drive(w: World, pc: Pc, turns: seq<Turn>, k: nat): World
    decreases |turns| - k
  {
    if pc.Idle? || k >= |turns| then w else
      var now := ActAll(w, turns[k].meanwhile);
      if !turns[k].survives then now else
        var (after, next) := Step(now, pc);
        Drive(after, next, turns, k + 1)
  }

  /** The worker's process, over the row and the member it shares with everybody else. */
  class Worker {
    var world: World

    constructor (w: World)
      ensures world == w
    {
      world := w;
    }

    /**
     * Reach the `k`th await, about to perform `pc`: others act, and the pass either dies there or
     * goes on to perform it.
     */
    method Await(ghost pc: Pc, turns: seq<Turn>, k: nat) returns (alive: bool)
      requires !pc.Idle?
      modifies this
      ensures !alive ==> world == Drive(old(world), pc, turns, k)
      ensures alive ==>
        Drive(old(world), pc, turns, k) ==
          Drive(Step(world, pc).0, Step(world, pc).1, turns, k + 1)
    {
      alive := false;
      if k < |turns| {
        world := ActAll(world, turns[k].meanwhile);
        alive := turns[k].survives;
      }
    }

    /** The port's compare-and-set. */
    method SetNickname(value: Nick, expected: Nick) returns (done: bool)
      modifies this
      ensures done == (old(world).nick == expected) && world == Replaced(old(world), value, expected)
    {
      done := world.nick == expected;
      if done {
        var write := Write(expected, value, world.row.before, world.attempted);
        world := world.(nick := value, writes := world.writes + [write]);
      }
    }

    method SuspendSync()
      modifies this
      ensures world == old(world).(row := Suspended(old(world).row))
    {
      world := world.(row := world.row.(suspended := true, enabled := false, pending := false));
    }

    /** The end of a restore: suspend if somebody else's nickname stands, then forget the baseline. */
    method ClearRestore(restored: bool, changed: bool, turns: seq<Turn>, start: nat)
      modifies this
      ensures world == Drive(old(world),
        if changed then RestoreSuspend(restored) else RestoreClear(restored), turns, start)
    {
      var k := start;
      if changed {
        var go := Await(RestoreSuspend(restored), turns, k);
        if !go { return; }
        SuspendSync();
        k := k + 1;
      }
      var go := Await(RestoreClear(restored), turns, k);
      if !go { return; }
      world := world.(row := world.row.(
                        restore := false, baselineSet := false, pending := false, written := false,
                        last := if restored then world.row.before else world.row.last));
    }

    /** Put back the baseline a row asks for, from the third await on. */
    method Restore(user: Row, current: Nick, turns: seq<Turn>)
      requires user.restore
      modifies this
      ensures world == Drive(old(world), Decide(user, current, false), turns, 2)
    {
      var restored := user.OwnPending(current) && current == user.before;
      var changed := user.Independent(current);
      var k := 2;
      if user.Restorable(current) && current != user.before {
        var go := Await(RestoreClaim(user, current), turns, 2);
        if !go { return; }
        world := Announced(world, world.row.(pending := true, expected := world.row.before,
                                             last := current, written := true));
        go := Await(RestoreGuard(user, current), turns, 3);
        if !go { return; }
        go := Await(RestoreSend(user, current), turns, 4);
        if !go { return; }
        restored := SetNickname(user.before, current);
        changed := !restored;
        k := 5;
      }
      ClearRestore(restored, changed, turns, k);
    }

    /** Bring `current` to `target` once the baseline stands, from await `k` on. */
    method Project(current: Nick, target: Nick, turns: seq<Turn>, k: nat)
      modifies this
      ensures world ==
        Drive(old(world), if current != target then Claim(current, target) else Settle, turns, k)
    {
      hide ActAll, Replaced, Announced, Suspended;
      if current != target {
        var go := Await(Claim(current, target), turns, k);
        if !go { return; }
        world := Announced(world, world.row.(pending := true, expected := target));
        go := Await(Guard(current, target), turns, k + 1);
        if !go { return; }
        go := Await(Send(current, target), turns, k + 2);
        if !go { return; }
        var done := SetNickname(target, current);
        go := Await(if done then Confirm(target) else Suspend, turns, k + 3);
        if !go { return; }
        if !done {
          SuspendSync();
          return;
        }
        world := world.(row := world.row.(last := target, written := true, pending := false));
      } else {
        var go := Await(Settle, turns, k);
        if !go { return; }
        world := world.(row := world.row.(pending := false));
      }
    }

    /** Find the main character and project it, from await `k` on. */
    method ProjectMain(user: Row, current: Nick, turns: seq<Turn>, start: nat)
      requires user.primary.Some?
      modifies this
      ensures world == Drive(old(world), FindCharacter(user, current), turns, start)
    {
      var k := start;
      var go := Await(FindCharacter(user, current), turns, k);
      if !go || user.primary.value !in world.links || user.primary.value !in world.names { return; }
      var target := Some(NicknameWorld.Nickname(world.names[user.primary.value]));
      k := k + 1;
      if !user.baselineSet {
        go := Await(Capture(current, target), turns, k);
        if !go { return; }
        world := world.(row := world.row.(before := current, baselineSet := true, written := false));
        k := k + 1;
      }
      Project(current, target, turns, k);
    }

    /** One pass over the member's nickname. */
    method Nickname(turns: seq<Turn>)
      modifies this
      ensures world == Drive(old(world), ReadMember, turns, 0)
    {
      var go := Await(ReadMember, turns, 0);
      if !go || !world.member.Present? { return; }
      var current := world.nick;
      var owner := world.member.owner;
      go := Await(ReadRow(current, owner), turns, 1);
      if !go { return; }
      var user := world.row;
      if owner {
        if user.restore || user.pending {
          go := Await(DropOwner, turns, 2);
          if go { world := world.(row := world.row.(restore := false, pending := false)); }
        }
        return;
      }
      if user.restore {
        Restore(user, current, turns);
        return;
      }
      if !user.enabled || user.suspended || user.primary.None? { return; }
      if user.Independent(current) {
        go := Await(Suspend, turns, 2);
        if go { SuspendSync(); }
        return;
      }
      var k := 2;
      if user.OwnPending(current) {
        go := Await(Adopt(user, current), turns, k);
        if !go { return; }
        world := world.(row := world.row.(last := current, written := true, pending := false));
        k := k + 1;
      }
      ProjectMain(user, current, turns, k);
    }
  }
}
