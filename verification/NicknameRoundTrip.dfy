/** The nickname a member had before the worker's first write comes back with the restore. */
module NicknameRoundTrip {
  import opened Options
  import opened NicknameWorld
  import opened NicknameWorker
  import opened NicknameSafety
  import opened NicknameConvergence
  import opened NicknamePreview
  import opened NicknameOutcomes

  /** The member's own nickname stands, or is the baseline and what stands is the worker's. */
  ghost predicate Owed(w: World, own: Nick) {
    if w.row.baselineSet then
      w.row.before == own
      && (w.nick == own || (w.row.written && w.nick == w.row.last) || (w.row.pending && w.nick == w.row.expected))
    else w.nick == own
  }

  /** The same, without any announced write to vouch for it. */
  ghost predicate Firm(w: World, own: Nick) {
    if w.row.baselineSet then w.row.before == own && (w.nick == own || (w.row.written && w.nick == w.row.last))
    else w.nick == own
  }

  /** What the pass's locals hold meanwhile. */
  ghost predicate PcOwed(w: World, pc: Pc, own: Nick) {
    match pc
    case ReadRow(current, owner) => current == w.nick && !owner
    case DropOwner => false
    case RestoreClaim(user, current) => current == w.nick && user.before == own && w.row.baselineSet
    case RestoreGuard(user, current) =>
      current == w.nick && user.before == own && w.row.baselineSet && w.row.written && w.row.last == current
    case RestoreSend(user, current) =>
      current == w.nick && user.before == own && w.row.baselineSet && w.row.written && w.row.last == current
    case RestoreSuspend(_) => w.nick == own
    case RestoreClear(_) => w.nick == own
    case Suspend => w.nick == own
    case Adopt(user, current) => current == w.nick && user.baselineSet == w.row.baselineSet
    case FindCharacter(user, current) => current == w.nick && user.baselineSet == w.row.baselineSet && Firm(w, own)
    case Capture(current, _) => current == w.nick && !w.row.baselineSet
    case Claim(current, _) => current == w.nick && w.row.baselineSet && Firm(w, own)
    case Guard(current, target) => Announcing(w, current, target, own)
    case Send(current, target) => Announcing(w, current, target, own)
    case Confirm(target) => w.nick == target && w.row.baselineSet
    case Settle => Firm(w, own)
    case _ => true
  }

  ghost predicate Announcing(w: World, current: Nick, target: Nick, own: Nick) {
    current == w.nick && w.row.baselineSet && Firm(w, own) && w.row.pending && w.row.expected == target
  }

  lemma StepKeepsOwed(w: World, pc: Pc, own: Nick)
    requires w.member == Present(false) && Owed(w, own) && PcOwed(w, pc, own)
    ensures var (after, next) := Step(w, pc);
      after.member == w.member && Owed(after, own) && PcOwed(after, next, own)
  {
  }

  /** Everything but an edited nickname, a rejoin, a new owner, and turning sync on, which forgets the baseline. */
  predicate LeavesNickname(action: Action) {
    match action
    case Edit(_) => false
    case Rejoin(_) => false
    case Observe(member) => member == Present(false)
    case Prefer(_, enabled) => enabled != Some(true)
    case _ => true
  }

  /** Others leave the nickname, and every column the worker goes by, alone. */
  lemma ActLeavesColumns(w: World, action: Action)
    requires w.member == Present(false) && LeavesNickname(action)
    ensures var after := Act(w, action);
      && after.member == w.member && after.nick == w.nick
      && after.row.baselineSet == w.row.baselineSet && after.row.before == w.row.before
      && after.row.written == w.row.written && after.row.last == w.row.last
      && after.row.pending == w.row.pending && after.row.expected == w.row.expected
  {
  }

  lemma ActKeepsOwed(w: World, pc: Pc, action: Action, own: Nick)
    requires w.member == Present(false) && Owed(w, own) && PcOwed(w, pc, own) && LeavesNickname(action)
    ensures var after := Act(w, action); after.member == w.member && Owed(after, own) && PcOwed(after, pc, own)
  {
    ActLeavesColumns(w, action);
    hide Act, LeavesNickname;
  }

  ghost predicate AllLeave(actions: seq<Action>) { forall k :: 0 <= k < |actions| ==> LeavesNickname(actions[k]) }

  ghost predicate TurnsLeave(turns: seq<Turn>) { forall k :: 0 <= k < |turns| ==> AllLeave(turns[k].meanwhile) }

  lemma {:induction false} ActAllKeepsOwed(w: World, pc: Pc, actions: seq<Action>, own: Nick)
    requires w.member == Present(false) && Owed(w, own) && PcOwed(w, pc, own) && AllLeave(actions)
    ensures var after := ActAll(w, actions); after.member == w.member && Owed(after, own) && PcOwed(after, pc, own)
    decreases |actions|
  {
    if actions != [] {
      hide Owed, PcOwed, Act;
      ActKeepsOwed(w, pc, actions[0], own);
      ActAllKeepsOwed(Act(w, actions[0]), pc, actions[1..], own);
    }
  }

  lemma {:induction false} DriveKeepsOwed(w: World, pc: Pc, turns: seq<Turn>, k: nat, own: Nick)
    requires w.member == Present(false) && Owed(w, own) && PcOwed(w, pc, own) && TurnsLeave(turns)
    ensures var after := Drive(w, pc, turns, k); after.member == w.member && Owed(after, own)
    decreases |turns| - k
  {
    if !pc.Idle? && k < |turns| {
      hide Owed, PcOwed, Step;
      ActAllKeepsOwed(w, pc, turns[k].meanwhile, own);
      var now := ActAll(w, turns[k].meanwhile);
      if turns[k].survives {
        StepKeepsOwed(now, pc, own);
        DriveKeepsOwed(Step(now, pc).0, Step(now, pc).1, turns, k + 1, own);
      }
    }
  }

  lemma {:induction false} RunKeepsOwed(w: World, passes: seq<seq<Turn>>, own: Nick)
    requires w.member == Present(false) && Owed(w, own)
    requires forall k :: 0 <= k < |passes| ==> TurnsLeave(passes[k])
    ensures var after := Run(w, passes); after.member == w.member && Owed(after, own)
    decreases |passes|
  {
    if passes != [] {
      DriveKeepsOwed(w, ReadMember, passes[0], 0, own);
      hide Owed, Drive;
      RunKeepsOwed(Drive(w, ReadMember, passes[0], 0), passes[1..], own);
    }
  }

  /**
   * Round trip: from any world without a baseline, through any passes that die anywhere, interleaved with
   * links, unlinks, renames, changed mains and sync turned off, whenever a restore is queued a whole pass
   * brings back the nickname that stood before all of them.
   */
  lemma RestoreBringsBackTheFirst(w: World, passes: seq<seq<Turn>>)
    requires w.member == Present(false) && !w.row.baselineSet
    requires forall k :: 0 <= k < |passes| ==> TurnsLeave(passes[k])
    requires Run(w, passes).row.restore
    ensures Settled(Run(w, passes)).nick == w.nick
  {
    RunKeepsOwed(w, passes, w.nick);
    RestorePutsTheBaselineBack(Run(w, passes));
  }

  /** Unlinking the main character queues the restore. */
  lemma UnlinkQueues(w: World, character: Character)
    requires character in w.links && w.row.primary == Some(character)
    ensures var after := Act(w, Unlink(character));
      after.row.restore && after.row.primary.None? && after.row == w.row.(restore := true, primary := None)
      && after.nick == w.nick && after.member == w.member
  {
  }

  /** Turning sync off queues the restore, and keeps the baseline it needs. */
  lemma TurningOffQueues(w: World)
    requires w.row.enabled
    ensures var after := Act(w, Prefer(None, Some(false)));
      after.row == w.row.(enabled := false, suspended := false, restore := true) && after.nick == w.nick
      && after.member == w.member
  {
  }

  /**
   * In every reachable world a projection puts the main character's nickname on and, after an unlink or with
   * sync turned off, the next pass takes it off again: the member's own nickname stands as before.
   */
  lemma ProjectThenRestore(start: World, history: seq<seq<Turn>>, unlink: bool)
    requires Init(start)
    requires var w := Run(start, history);
      && w.member == Present(false) && !w.row.restore && !w.row.baselineSet
      && w.row.enabled && !w.row.suspended && w.row.primary.Some?
    ensures var w := Run(start, history);
      var projected := Settled(w);
      var asked := Act(projected, if unlink then Unlink(w.row.primary.value) else Prefer(None, Some(false)));
      && w.row.primary.value in w.names && projected.nick == Some(Nickname(w.names[w.row.primary.value]))
      && asked.row.restore && Settled(asked).nick == w.nick
  {
    RunKeepsInv(start, history);
    var w := Run(start, history);
    ProjectionPutsTheName(w);
    SettledIsOwed(w);
    var projected := Settled(w);
    if unlink { UnlinkQueues(projected, w.row.primary.value); } else { TurningOffQueues(projected); }
    var asked := Act(projected, if unlink then Unlink(w.row.primary.value) else Prefer(None, Some(false)));
    RestorePutsTheBaselineBack(asked);
  }

  lemma {:induction false} FinishKeepsOwed(w: World, pc: Pc, own: Nick)
    requires w.member == Present(false) && Owed(w, own) && PcOwed(w, pc, own)
    ensures var after := Finish(w, pc);
      after.member == w.member && after.links == w.links && after.names == w.names && Owed(after, own)
    decreases Rank(pc)
  {
    if !pc.Idle? {
      StepKeepsOwed(w, pc, own);
      hide Owed, PcOwed;
      FinishKeepsOwed(Step(w, pc).0, Step(w, pc).1, own);
    }
  }

  lemma SettledIsOwed(w: World)
    requires w.member == Present(false) && !w.row.baselineSet
    ensures var after := Settled(w);
      Owed(after, w.nick) && after.member == w.member && after.links == w.links && after.names == w.names
  {
    FinishKeepsOwed(w, ReadMember, w.nick);
  }
}
