/** What a pass leaves, read off the row's columns alone. */
module NicknameOutcomes {
  import opened Options
  import opened NicknameWorld
  import opened NicknameWorker
  import opened NicknameSafety
  import opened NicknameConvergence
  import opened NicknamePreview

  lemma {:induction false} DriveFinishes(w: World, pc: Pc, turns: seq<Turn>, k: nat)
    requires Quiet(turns) && (forall j :: k <= j < |turns| ==> turns[j].survives) && k + Rank(pc) <= |turns|
    ensures Drive(w, pc, turns, k) == Finish(w, pc)
    decreases |turns| - k
  {
    if !pc.Idle? {
      assert ActAll(w, turns[k].meanwhile) == w;
      DriveFinishes(Step(w, pc).0, Step(w, pc).1, turns, k + 1);
    }
  }

  /** A pass of the worker that nobody disturbs and nothing kills leaves what the results below speak of. */
  lemma WholePassSettles(w: World, turns: seq<Turn>)
    requires Quiet(turns) && (forall k :: 0 <= k < |turns| ==> turns[k].survives) && |turns| >= 10
    ensures Drive(w, ReadMember, turns, 0) == Settled(w)
  {
    DriveFinishes(w, ReadMember, turns, 0);
  }

  /** Somebody else's nickname: not the one the row vouches for, and not an announced write. */
  predicate Foreign(row: Row, nick: Nick) {
    nick != (if row.written then row.last else row.before) && !(row.pending && nick == row.expected)
  }

  /** Where each of a restore's three ways ends. */
  lemma RestoreWays(w: World)
    requires w.member == Present(false) && w.row.restore
    ensures var row, end, pc := w.row, Settled(w).row, Decide(w.row, w.nick, false);
      match pc
      case RestoreClaim(_, _) =>
        end == row.(restore := false, baselineSet := false, pending := false, written := false,
                    expected := row.before, last := row.before)
      case RestoreSuspend(restored) =>
        end == GivenUp(row).(last := if restored then row.before else row.last)
      case RestoreClear(restored) =>
        end == row.(restore := false, baselineSet := false, pending := false, written := false,
                    last := if restored then row.before else row.last)
      case _ => false
  {
    SettledDecides(w);
    var pc := Decide(w.row, w.nick, false);
    if pc.RestoreClaim? {
      var claimed := Step(w, pc).0;
      assert Finish(w, pc) == Finish(claimed, RestoreSend(w.row, w.nick));
      var sent := Step(claimed, RestoreSend(w.row, w.nick)).0;
      assert Finish(claimed, RestoreSend(w.row, w.nick)) == Finish(sent, RestoreClear(true));
    } else if pc.RestoreSuspend? {
      assert Finish(w, pc) == Finish(Step(w, pc).0, RestoreClear(pc.restored));
    }
  }

  lemma RestoreRow(w: World)
    requires w.member == Present(false) && w.row.restore
    ensures var row, end := w.row, Settled(w).row;
      && !end.restore && !end.baselineSet && !end.pending && !end.written && end.before == row.before
      && end.primary == row.primary
      && end.last == (if (row.baselineSet && w.nick != row.before && !Foreign(row, w.nick)
                          && (row.written || (row.pending && w.nick == row.expected)))
                         || (row.pending && w.nick == row.expected == row.before)
                      then row.before else row.last)
      && (if row.baselineSet && Foreign(row, w.nick) then end.suspended && !end.enabled
          else end.suspended == row.suspended && end.enabled == row.enabled)
  {
    RestoreWays(w);
    hide Settled, Step;
  }

  /**
   * A whole undisturbed restore leaves the baseline if and only if the nickname was the baseline, the last
   * confirmed write or an announced one; otherwise, or with no baseline, it leaves the nickname. The
   * request and the baseline are forgotten either way, and sync suspends exactly for a foreign nickname.
   */
  lemma RestorePutsTheBaselineBack(w: World)
    requires w.member == Present(false) && w.row.restore
    ensures var row, end := w.row, Settled(w);
      && (row.baselineSet ==> (end.nick == row.before <==>
           w.nick == row.before || (row.written && w.nick == row.last) || (row.pending && w.nick == row.expected)))
      && (!row.baselineSet || end.nick != row.before ==> end.nick == w.nick)
      && !end.row.restore && !end.row.baselineSet && !end.row.pending && !end.row.written
      && (if row.baselineSet && w.nick != (if row.written then row.last else row.before)
             && !(row.pending && w.nick == row.expected)
          then end.row.suspended && !end.row.enabled
          else end.row.suspended == row.suspended && end.row.enabled == row.enabled)
  {
    SettledRestoreNick(w);
    RestoreRow(w);
  }

  /** The units of a name's segments, one after the other. */
  function Joined(name: seq<string>): string {
    if name == [] then "" else name[0] + Joined(name[1..])
  }

  lemma {:induction false} FittedIsLongest(name: seq<string>, taken: nat)
    requires taken <= NICKNAME_UNITS
    ensures exists n ::
      0 <= n <= |name| && Fitted(name, taken) == Joined(name[..n])
      && (n < |name| ==> taken + |Joined(name[..n])| + |name[n]| > NICKNAME_UNITS)
  {
    if name == [] || taken + |name[0]| > NICKNAME_UNITS {
      assert Fitted(name, taken) == Joined(name[..0]);
    } else {
      var rest := name[1..];
      FittedIsLongest(rest, taken + |name[0]|);
      var n :| 0 <= n <= |rest| && Fitted(rest, taken + |name[0]|) == Joined(rest[..n])
        && (n < |rest| ==> taken + |name[0]| + |Joined(rest[..n])| + |rest[n]| > NICKNAME_UNITS);
      assert name[..n + 1][1..] == rest[..n] && name[..n + 1][0] == name[0];
      assert Fitted(name, taken) == Joined(name[..n + 1]);
    }
  }

  /** The nickname of a name is its longest run of whole segments that fits Discord's limit, from the start. */
  lemma NicknameIsLongest(name: Name) returns (n: nat)
    ensures n <= |name| && Nickname(name) == Joined(name[..n]) && |Nickname(name)| <= NICKNAME_UNITS
    ensures n < |name| ==> |Joined(name[..n])| + |name[n]| > NICKNAME_UNITS
  {
    FittedIsLongest(name, 0);
    n :| 0 <= n <= |name| && Fitted(name, 0) == Joined(name[..n])
      && (n < |name| ==> 0 + |Joined(name[..n])| + |name[n]| > NICKNAME_UNITS);
  }

  /** The row of a projection that succeeded, whose nickname was brought to `target`. */
  ghost predicate Projects(w: World, end: World, target: Nick) {
    && end.nick == target && !end.row.restore && !end.row.pending && end.row.baselineSet
    && end.row.before == (if w.row.baselineSet then w.row.before else w.nick)
    && end.row.enabled && !end.row.suspended && end.row.primary == w.row.primary
    && (w.nick != target ==> end.row.written && end.row.last == target)
  }

  lemma ClaimRow(w: World, target: Nick)
    requires w.nick != target && w.row.enabled && !w.row.suspended && !w.row.restore && w.row.baselineSet
    ensures Projects(w, Finish(w, Claim(w.nick, target)), target)
  {
    var claimed := Step(w, Claim(w.nick, target)).0;
    assert Finish(w, Claim(w.nick, target)) == Finish(claimed, Send(w.nick, target));
    var sent := Step(claimed, Send(w.nick, target)).0;
    assert Finish(claimed, Send(w.nick, target)) == Finish(sent, Confirm(target));
    assert Finish(sent, Confirm(target)) == Step(sent, Confirm(target)).0;
  }

  lemma FindRow(w: World, user: Row)
    requires MainLinked(w) && w.row.primary.Some? && user.primary == w.row.primary
    requires user.baselineSet == w.row.baselineSet && w.row.enabled && !w.row.suspended && !w.row.restore
    ensures Projects(w, Finish(w, FindCharacter(user, w.nick)), Target(w))
  {
    var target := Target(w);
    if !user.baselineSet {
      var captured := Step(w, Capture(w.nick, target)).0;
      assert Finish(w, FindCharacter(user, w.nick)) == Finish(w, Capture(w.nick, target));
      if w.nick != target {
        ClaimRow(captured, target);
      } else {
        assert Finish(w, Capture(w.nick, target)) == Finish(captured, Settle) == Step(captured, Settle).0;
      }
    } else if w.nick != target {
      assert Finish(w, FindCharacter(user, w.nick)) == Finish(w, Claim(w.nick, target));
      ClaimRow(w, target);
    } else {
      assert Finish(w, FindCharacter(user, w.nick)) == Finish(w, Settle) == Step(w, Settle).0;
    }
  }

  /**
   * A whole undisturbed projection, on with a linked main character and no restore queued, leaves the
   * character's nickname unless somebody else's stands; it captures a baseline only where none is. A
   * foreign nickname stays and suspends sync.
   */
  lemma ProjectionPutsTheName(w: World)
    requires MainLinked(w) && w.member == Present(false)
    requires !w.row.restore && w.row.enabled && !w.row.suspended && w.row.primary.Some?
    ensures var row, end := w.row, Settled(w);
      if row.baselineSet && w.nick != (if row.written then row.last else row.before)
         && !(row.pending && w.nick == row.expected)
      then end.nick == w.nick && end.row == row.(suspended := true, enabled := false, pending := false)
      else Projects(w, end, Some(Nickname(w.names[row.primary.value])))
  {
    SettledDecides(w);
    var pc := Decide(w.row, w.nick, false);
    if pc.Adopt? {
      FindRow(Step(w, pc).0, w.row);
    } else if pc.FindCharacter? {
      FindRow(w, w.row);
    } else {
      assert Finish(w, Suspend) == Step(w, Suspend).0;
    }
  }

  /** Anything else a pass meets leaves nickname and row alone, but for what an owner's row still asks. */
  lemma OtherPassesLeaveIt(w: World)
    requires w.member.Present? ==>
      w.member.owner || (!w.row.restore && !(w.row.enabled && !w.row.suspended && w.row.primary.Some?))
    ensures Settled(w) == if w.member == Present(true) && (w.row.restore || w.row.pending)
                          then w.(row := w.row.(restore := false, pending := false)) else w
  {
    if w.member.Present? {
      SettledDecides(w);
      if w.member.owner && (w.row.restore || w.row.pending) {
        assert Finish(w, DropOwner) == Step(w, DropOwner).0;
      }
    } else {
      assert Finish(w, ReadMember) == w;
    }
  }

  /**
   * A new link makes the character the member's main one with sync on when it is the first they ever had, and
   * the main one alone when they have neither main nor link left; a queued restore goes only where sync is on.
   */
  lemma LinkTakes(w: World, character: Character, taken: bool)
    ensures var after, row := Act(w, Link(character, taken)), w.row;
      if taken || character !in w.names || character in w.links then after == w
      else
        && after == w.(links := w.links + {character}, everLinked := true, row := after.row)
        && after.row ==
           if row.imported then row
           else if !w.everLinked then row.(primary := Some(character), enabled := true, suspended := false)
           else if row.primary.Some? || w.links != {} then row
           else if row.enabled then row.(primary := Some(character), restore := false)
           else row.(primary := Some(character))
  {
  }

  /**
   * A preference changes the main character and sync as asked, unless it names a character that isn't linked,
   * or asks for sync with no main character. Turning sync on, or on again after it suspended, starts over
   * without baseline or restore; turning it off queues the restore; a new main while sync is on cancels one.
   */
  lemma PreferTakes(w: World, main: Option<Character>, enabled: Option<bool>)
    ensures var after, row := Act(w, Prefer(main, enabled)), w.row;
      var moved := main.Some? && main != row.primary;
      if (main.Some? && main.value !in w.links) || (enabled == Some(true) && row.primary.None? && main.None?)
      then after == w
      else
        && after == w.(row := after.row) && after.row.primary == (if main.Some? then main else row.primary)
        && var chosen := row.(primary := after.row.primary);
          if enabled == Some(true) && (!row.enabled || row.suspended) then
            after.row == chosen.(enabled := true, suspended := false, restore := false, baselineSet := false)
          else if enabled == Some(false) && row.enabled then
            after.row == chosen.(enabled := false, suspended := false, restore := true)
          else after.row == chosen.(restore := row.restore && !(moved && row.enabled))
  {
  }

  /** An edit changes the nickname, a rename the stored name, and a rejoin forgets baseline and pending write too. */
  lemma OthersTake(w: World, nick: Nick, character: Character, name: Name, member: Member)
    ensures Act(w, Edit(nick)) == w.(nick := nick)
    ensures Act(w, Rejoin(nick)) == w.(nick := nick, row := w.row.(baselineSet := false, pending := false))
    ensures Act(w, Rename(character, name)).names == w.names[character := name]
    ensures Act(w, Rename(character, name)) == w.(names := w.names[character := name])
    ensures Act(w, Observe(member)) == w.(member := member)
  {
  }
}
