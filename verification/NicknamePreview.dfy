/** The dry run's own copy of the nickname decision, against the pass it predicts. */
module NicknamePreview {
  import opened Options
  import opened NicknameWorld
  import opened NicknameWorker
  import opened NicknameSafety
  import opened NicknameConvergence

  /** The desired nickname a preview reports; it reads the main character without asking for a link. */
  function Preview(w: World): Nick {
    var row := w.row;
    if w.member == Present(false) && row.restore && row.Restorable(w.nick) then row.before
    else if w.member == Present(false) && !row.restore && row.Projecting() && !row.Independent(w.nick)
            && row.primary.value in w.names then
      Some(Nickname(w.names[row.primary.value]))
    else w.nick
  }

  lemma SettledRestoreNick(w: World)
    requires w.member == Present(false) && w.row.restore
    ensures Settled(w).nick == if w.row.Restorable(w.nick) then w.row.before else w.nick
  {
    SettledDecides(w);
    var pc := Decide(w.row, w.nick, false);
    if pc.RestoreClaim? {
      var claimed := Step(w, pc).0;
      assert Finish(w, pc) == Finish(claimed, RestoreSend(w.row, w.nick));
      var sent := Step(claimed, RestoreSend(w.row, w.nick)).0;
      assert Finish(claimed, RestoreSend(w.row, w.nick)) == Finish(sent, RestoreClear(true));
    }
  }

  lemma ClaimNick(w: World, target: Nick)
    requires w.nick != target
    ensures Finish(w, Claim(w.nick, target)).nick == target
  {
    var claimed := Step(w, Claim(w.nick, target)).0;
    assert Finish(w, Claim(w.nick, target)) == Finish(claimed, Send(w.nick, target));
    var sent := Step(claimed, Send(w.nick, target)).0;
    assert claimed.nick == w.nick && sent.nick == target;
    assert Finish(claimed, Send(w.nick, target)) == Finish(sent, Confirm(target));
    assert Finish(sent, Confirm(target)) == Step(sent, Confirm(target)).0;
  }

  lemma CaptureNick(w: World, target: Nick)
    ensures Finish(w, Capture(w.nick, target)).nick == target
  {
    if w.nick != target { ClaimNick(Step(w, Capture(w.nick, target)).0, target); }
  }

  lemma FindNick(w: World, user: Row)
    requires MainLinked(w) && w.row.primary.Some? && user.primary == w.row.primary
    ensures Finish(w, FindCharacter(user, w.nick)).nick == Target(w)
  {
    var target := Target(w);
    if !user.baselineSet {
      assert Finish(w, FindCharacter(user, w.nick)) == Finish(w, Capture(w.nick, target));
      CaptureNick(w, target);
    } else if w.nick != target {
      assert Finish(w, FindCharacter(user, w.nick)) == Finish(w, Claim(w.nick, target));
      ClaimNick(w, target);
    }
  }

  lemma SettledProjectedNick(w: World)
    requires MainLinked(w) && w.member == Present(false) && !w.row.restore
    ensures Settled(w).nick ==
      if w.row.Projecting() && !w.row.Independent(w.nick) then Target(w) else w.nick
  {
    SettledDecides(w);
    var pc := Decide(w.row, w.nick, false);
    if pc.Adopt? {
      FindNick(Step(w, pc).0, w.row);
    } else if pc.FindCharacter? {
      FindNick(w, w.row);
    }
  }

  /**
   * In every reachable world the preview names exactly the nickname an undisturbed pass leaves.
   */
  lemma PreviewPredicts(start: World, history: seq<seq<Turn>>)
    requires Init(start)
    requires Run(start, history).member.Present?
    ensures var w := Run(start, history); Preview(w) == Settled(w).nick
  {
    RunKeepsInv(start, history);
    var w := Run(start, history);
    if w.member.owner {
      SettledDecides(w);
    } else if w.row.restore {
      SettledRestoreNick(w);
    } else {
      SettledProjectedNick(w);
    }
  }

  /** The link invariant is what makes them agree: without it the preview promises a projection. */
  lemma PreviewNeedsTheLink()
    ensures exists w: World ::
      w.member == Present(false) && !MainLinked(w) && Preview(w) != Settled(w).nick
  {
    var row := Row(Some(7), false, true, false, false, false, false, false, None, None, None);
    var w := World(row, None, Present(false), map[7 := ["A"]], {}, true, {}, []);
    SettledDecides(w);
    assert Step(w, FindCharacter(row, None)) == (w, Idle);
    var name: Name := ["A"];
    assert name[0] == "A" && name[1..] == [];
    assert Nickname(name) == "A" + Fitted(name[1..], 1) == "A";
    assert Preview(w) == Some("A");
  }

  /** Dying anywhere or not, a quiet pass leaves somebody else's nickname in place. */
  lemma {:induction false} ForeignDrive(w: World, pc: Pc, turns: seq<Turn>, k: nat)
    requires Quiet(turns)
    requires pc.RestoreSuspend? || pc.RestoreClear? || pc.Suspend? || pc.Idle? || pc.DropOwner?
    ensures Drive(w, pc, turns, k).nick == w.nick && Drive(w, pc, turns, k).writes == w.writes
    decreases |turns| - k
  {
    if !pc.Idle? && k < |turns| && turns[k].survives {
      var (after, next) := Step(w, pc);
      ForeignDrive(after, next, turns, k + 1);
    }
  }

  /**
   * A nickname that is neither the baseline's successor nor the worker's own stays in place through
   * any quiet pass; a pass that completes suspends sync and, for a restore, clears the baseline.
   */
  lemma ForeignNicknameStays(w: World, turns: seq<Turn>)
    requires Quiet(turns) && w.member.Present? && w.row.Independent(w.nick)
    ensures var after := Drive(w, ReadMember, turns, 0);
      after.nick == w.nick && after.writes == w.writes
    ensures w.member == Present(false) && (w.row.restore || w.row.Projecting()) ==>
      && Settled(w).row.suspended && !Settled(w).row.enabled && !Settled(w).row.pending
      && (w.row.restore ==> !Settled(w).row.restore && !Settled(w).row.baselineSet)
  {
    SettledDecides(w);
    var pc := Decide(w.row, w.nick, w.member.owner);
    ForeignDrive(w, pc, turns, 2);
    if |turns| > 0 && turns[0].survives {
      assert Drive(w, ReadMember, turns, 0) == Drive(w, ReadRow(w.nick, w.member.owner), turns, 1);
    }
    if pc.RestoreSuspend? {
      assert Finish(w, pc) == Finish(Step(w, pc).0, RestoreClear(pc.restored));
    }
  }

  lemma {:induction false} ActAllWritesNothing(w: World, actions: seq<Action>)
    ensures ActAll(w, actions).writes == w.writes
    decreases |actions|
  {
    if actions != [] { ActAllWritesNothing(Act(w, actions[0]), actions[1..]); }
  }

  /** Once it suspends, a pass writes no more, whatever others do and wherever it dies. */
  lemma {:induction false} EndWritesNothing(w: World, pc: Pc, turns: seq<Turn>, k: nat)
    requires pc.RestoreSuspend? || pc.RestoreClear? || pc.Suspend? || pc.Idle?
    ensures Drive(w, pc, turns, k).writes == w.writes
    decreases |turns| - k
  {
    if !pc.Idle? && k < |turns| {
      var now := ActAll(w, turns[k].meanwhile);
      ActAllWritesNothing(w, turns[k].meanwhile);
      if turns[k].survives { EndWritesNothing(Step(now, pc).0, Step(now, pc).1, turns, k + 1); }
    }
  }

  /** A restore that gave way: sync off, the request and the baseline forgotten, the last nickname kept. */
  function GivenUp(row: Row): Row {
    Suspended(row).(restore := false, baselineSet := false, written := false)
  }

  /**
   * An edit that lands after the pass read the nickname and before it sends wins, in a projection and in a
   * restore alike: the rest of the pass writes nothing, whatever others do and wherever it dies, and
   * undisturbed it leaves the edit, suspends sync and, for a restore, forgets the baseline.
   */
  lemma LateEditWins(w: World, pc: Pc, turns: seq<Turn>, k: nat)
    requires (pc.Send? || pc.RestoreSend?) && k < |turns|
    requires ActAll(w, turns[k].meanwhile).nick != pc.current
    ensures Drive(w, pc, turns, k).writes == w.writes
    ensures var edited := ActAll(w, turns[k].meanwhile);
      Finish(edited, pc) == edited.(row := if pc.Send? then Suspended(edited.row) else GivenUp(edited.row))
  {
    var edited := ActAll(w, turns[k].meanwhile);
    ActAllWritesNothing(w, turns[k].meanwhile);
    var next := if pc.Send? then Suspend else RestoreSuspend(false);
    assert Step(edited, pc) == (edited, next);
    if turns[k].survives { EndWritesNothing(edited, next, turns, k + 1); }
    if pc.RestoreSend? {
      var suspended := edited.(row := Suspended(edited.row));
      assert Finish(edited, next) == Finish(suspended, RestoreClear(false));
    }
  }
}
