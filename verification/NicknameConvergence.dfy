/** A pass that dies anywhere and runs again ends where one undisturbed pass ends. */
module NicknameConvergence {
  import opened Options
  import opened NicknameWorld
  import opened NicknameWorker
  import opened NicknameSafety

  /** How many awaits are left, at most. */
  function Rank(pc: Pc): nat {
    match pc
    case Idle => 0
    case ReadMember => 10
    case ReadRow(_, _) => 9
    case Adopt(_, _) => 8
    case FindCharacter(_, _) => 7
    case Capture(_, _) => 6
    case Claim(_, _) => 5
    case RestoreClaim(_, _) => 5
    case Guard(_, _) => 4
    case RestoreGuard(_, _) => 4
    case Send(_, _) => 3
    case RestoreSend(_, _) => 3
    case RestoreSuspend(_) => 2
    case _ => 1
  }

  /** The rest of a pass when nobody interferes and nothing dies. */
  function Finish(w: World, pc: Pc): World
    decreases Rank(pc)
  {
    if pc.Idle? then w else
      var (after, next) := Step(w, pc);
      Finish(after, next)
  }

  /** What one whole undisturbed pass leaves. */
  function Settled(w: World): World { Finish(w, ReadMember) }

  function Target(w: World): Nick
    requires w.row.primary.Some? && w.row.primary.value in w.names
  {
    Some(Nickname(w.names[w.row.primary.value]))
  }

  /** A quiet pass is about to look its character up, or would be if it started over. */
  ghost predicate Looking(w: World, current: Nick) {
    && w.member == Present(false) && current == w.nick && !w.row.restore
    && Decide(w.row, w.nick, false) == FindCharacter(w.row, w.nick)
  }

  ghost predicate Found(w: World, current: Nick, target: Nick) {
    && Looking(w, current)
    && w.row.primary.value in w.links * w.names.Keys && target == Target(w)
  }

  /** The locals of a quiet pass agree with the row and the nickname it would read again. */
  ghost predicate Coherent(w: World, pc: Pc) {
    match pc
    case Idle => Settled(w) == w
    case ReadMember => true
    case ReadRow(current, owner) => w.member == Present(owner) && current == w.nick
    case DropOwner =>
      w.member == Present(true) && (w.row.restore || w.row.pending)
    case RestoreClaim(user, current) =>
      && w.member == Present(false) && w.row.restore && user == w.row && current == w.nick
      && Decide(w.row, w.nick, false) == pc
    case RestoreGuard(user, current) => Restoring(w, user, current)
    case RestoreSend(user, current) => Restoring(w, user, current)
    case RestoreSuspend(restored) =>
      && w.member == Present(false) && w.row.restore
      && Decide(w.row, w.nick, false) == pc
    case RestoreClear(restored) =>
      && w.member == Present(false) && w.row.restore
      && (Decide(w.row, w.nick, false) == pc
          || (Decide(w.row, w.nick, false) == RestoreSuspend(restored) && Suspended(w.row) == w.row))
    case Suspend => w.member == Present(false) && Decide(w.row, w.nick, false) == pc
    case Adopt(user, current) =>
      w.member == Present(false) && user == w.row && Decide(w.row, w.nick, false) == pc
    case FindCharacter(user, current) =>
      && Looking(w, current)
      && user.primary == w.row.primary && user.baselineSet == w.row.baselineSet
    case Capture(current, target) => Found(w, current, target) && !w.row.baselineSet
    case Claim(current, target) =>
      Found(w, current, target) && w.row.baselineSet && current != target
    case Guard(current, target) => Projected(w, current, target)
    case Send(current, target) => Projected(w, current, target)
    case Confirm(target) =>
      && w.member == Present(false) && w.nick == target && !w.row.restore && w.row.Projecting()
      && w.row.primary.value in w.links * w.names.Keys && target == Target(w)
      && w.row.baselineSet && w.row.pending && w.row.expected == target
    case Settle => Found(w, w.nick, w.nick) && w.row.baselineSet
  }

  ghost predicate Restoring(w: World, user: Row, current: Nick) {
    && w.member == Present(false) && current == w.nick && current != w.row.before
    && w.row.restore && w.row.baselineSet && w.row.pending && w.row.written
    && w.row.last == current && w.row.expected == w.row.before == user.before
    && w.row.before in w.attempted
  }

  ghost predicate Projected(w: World, current: Nick, target: Nick) {
    && Found(w, current, target) && current != target
    && w.row.baselineSet && w.row.pending && w.row.expected == target
    && target in w.attempted
  }

  lemma SettledDecides(w: World)
    requires w.member.Present?
    ensures Settled(w) == Finish(w, Decide(w.row, w.nick, w.member.owner))
  {
    assert Finish(w, ReadMember) == Finish(w, ReadRow(w.nick, w.member.owner));
  }

  /** Starting the restore over, from any of its awaits, comes to the same. */
  lemma RestoreRestarts(w: World, pc: Pc)
    requires Coherent(w, pc)
    requires pc.RestoreClaim? || pc.RestoreGuard? || pc.RestoreSend? || pc.RestoreSuspend? || pc.RestoreClear?
    ensures Settled(w) == Finish(w, pc)
  {
    SettledDecides(w);
    match pc
    case RestoreGuard(user, current) => RestoreClaimsAgain(w, user, current);
    case RestoreSend(user, current) => RestoreClaimsAgain(w, user, current);
    case _ =>
  }

  lemma RestoreClaimsAgain(w: World, user: Row, current: Nick)
    requires Restoring(w, user, current)
    ensures Settled(w) == Finish(w, RestoreGuard(user, current))
    ensures Settled(w) == Finish(w, RestoreSend(user, current))
  {
    SettledDecides(w);
    var claim := RestoreClaim(w.row, current);
    assert Decide(w.row, w.nick, false) == claim;
    assert w.attempted + {w.row.before} == w.attempted;
    assert Step(w, claim) == (w, RestoreGuard(w.row, current));
    assert Finish(w, claim) == Finish(w, RestoreGuard(w.row, current)) == Finish(w, RestoreSend(w.row, current));
  }

  lemma ClaimsAgain(w: World, current: Nick, target: Nick)
    requires Projected(w, current, target)
    ensures Settled(w) == Finish(w, Guard(current, target))
    ensures Settled(w) == Finish(w, Send(current, target))
  {
    SettledDecides(w);
    var find := FindCharacter(w.row, current);
    assert Step(w, find) == (w, Claim(current, target));
    assert w.attempted + {target} == w.attempted;
    assert Step(w, Claim(current, target)) == (w, Guard(current, target));
    assert Finish(w, find) == Finish(w, Claim(current, target)) == Finish(w, Guard(current, target));
  }

  /** Starting the projection over, from any of its awaits, comes to the same. */
  lemma ProjectionRestarts(w: World, pc: Pc)
    requires Coherent(w, pc)
    requires !(pc.RestoreClaim? || pc.RestoreGuard? || pc.RestoreSend? || pc.RestoreSuspend? || pc.RestoreClear?)
    ensures Settled(w) == Finish(w, pc)
  {
    if pc.Idle? || pc.ReadMember? || !w.member.Present? { return; }
    SettledDecides(w);
    match pc
    case FindCharacter(user, current) =>
      assert Step(w, pc) == Step(w, FindCharacter(w.row, current));
    case Capture(current, target) =>
      assert Step(w, FindCharacter(w.row, current)) == (w, pc);
    case Claim(current, target) =>
      assert Step(w, FindCharacter(w.row, current)) == (w, pc);
    case Guard(current, target) => ClaimsAgain(w, current, target);
    case Send(current, target) => ClaimsAgain(w, current, target);
    case Confirm(target) => ConfirmsAgain(w, target);
    case Settle =>
      assert Step(w, FindCharacter(w.row, w.nick)) == (w, pc);
    case _ =>
  }

  lemma ConfirmsAgain(w: World, target: Nick)
    requires Coherent(w, Confirm(target))
    ensures Settled(w) == Finish(w, Confirm(target))
  {
    SettledDecides(w);
    var adopt := Adopt(w.row, target);
    assert Decide(w.row, w.nick, false) == adopt;
    var adopted := Step(w, adopt).0;
    var find := FindCharacter(w.row, target);
    assert Finish(w, adopt) == Finish(adopted, find);
    assert Step(adopted, find) == (adopted, Settle);
    assert Finish(adopted, find) == Finish(adopted, Settle) == adopted;
  }

  lemma Restarts(w: World, pc: Pc)
    requires Coherent(w, pc)
    ensures Settled(w) == Finish(w, pc)
  {
    if pc.RestoreClaim? || pc.RestoreGuard? || pc.RestoreSend? || pc.RestoreSuspend? || pc.RestoreClear? {
      RestoreRestarts(w, pc);
    } else {
      ProjectionRestarts(w, pc);
    }
  }

  /** A projection that stands is found standing. */
  lemma SettledStays(w: World)
    requires Found(w, w.nick, w.nick) && w.row.baselineSet && !w.row.pending
    ensures Settled(w) == w
  {
    SettledDecides(w);
    var find := FindCharacter(w.row, w.nick);
    assert Step(w, find) == (w, Settle);
    assert Finish(w, find) == Finish(w, Settle) == w;
  }

  /** A finished pass has nothing left to do. */
  lemma DoneStays(w: World, pc: Pc)
    requires Coherent(w, pc) && RestoreExcludesProjection(w.row) && !pc.Idle?
    requires Step(w, pc).1.Idle?
    ensures Settled(Step(w, pc).0) == Step(w, pc).0
  {
    var after := Step(w, pc).0;
    if !after.member.Present? {
    } else {
      SettledDecides(after);
      match pc
      case Confirm(target) => SettledStays(after);
      case Settle => SettledStays(after);
      case FindCharacter(user, current) =>
        assert Step(after, FindCharacter(after.row, current)) == (after, Idle);
      case _ =>
    }
  }

  lemma StepCoherent(w: World, pc: Pc)
    requires Coherent(w, pc) && RestoreExcludesProjection(w.row) && !pc.Idle?
    ensures var (after, next) := Step(w, pc);
      Coherent(after, next) && RestoreExcludesProjection(after.row)
  {
    var (after, next) := Step(w, pc);
    if next.Idle? { DoneStays(w, pc); }
  }

  /** Nobody but the worker acts. */
  ghost predicate Quiet(turns: seq<Turn>) {
    forall k :: 0 <= k < |turns| ==> turns[k].meanwhile == []
  }

  /** From any await of a quiet pass on, dying at any later await and starting over changes nothing. */
  lemma {:induction false} CutOffConverges(w: World, pc: Pc, turns: seq<Turn>, k: nat)
    requires Quiet(turns) && Coherent(w, pc) && RestoreExcludesProjection(w.row)
    ensures Settled(Drive(w, pc, turns, k)) == Settled(w)
    ensures RestoreExcludesProjection(Drive(w, pc, turns, k).row)
    decreases |turns| - k
  {
    if !pc.Idle? && k < |turns| && turns[k].survives {
      var (after, next) := Step(w, pc);
      StepCoherent(w, pc);
      Restarts(w, pc);
      Restarts(after, next);
      CutOffConverges(after, next, turns, k + 1);
    }
  }

  /**
   * However many passes die, wherever each dies, the next whole pass ends with the row and the
   * nickname that one undisturbed pass would have left.
   */
  lemma {:induction false} CrashesConverge(w: World, passes: seq<seq<Turn>>)
    requires RestoreExcludesProjection(w.row)
    requires forall k :: 0 <= k < |passes| ==> Quiet(passes[k])
    ensures Settled(Run(w, passes)) == Settled(w)
    decreases |passes|
  {
    if passes != [] {
      CutOffConverges(w, ReadMember, passes[0], 0);
      CrashesConverge(Drive(w, ReadMember, passes[0], 0), passes[1..]);
    }
  }

  /** The rows that matter are the reachable ones, and those all converge. */
  lemma ReachableRowsConverge(start: World, history: seq<seq<Turn>>, passes: seq<seq<Turn>>)
    requires Init(start)
    requires forall k :: 0 <= k < |passes| ==> Quiet(passes[k])
    ensures var w := Run(start, history); Settled(Run(w, passes)) == Settled(w)
  {
    RunKeepsInv(start, history);
    CrashesConverge(Run(start, history), passes);
  }
}
