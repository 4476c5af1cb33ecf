/** What each answer of Discord and the server makes of one channel, and of the run. */
module OverridesAnswers {
  import opened Options
  import opened Overrides

  /**
   * At any channel the checks come first and in this order: a stop, the deadline, the preconditions, the
   * server's facts and, for a category, a configured channel moved inside. The first that fails ends the
   * loop before its channel, with nothing of it done.
   */
  lemma FailedCheckEndsTheRun(s: Setup, a: Account, world: nat -> Turn, index: nat)
    requires index < |s.plan|
    ensures var turn, left := world(index), |s.plan| - index;
      var stops := (why: Stop) => Loop(s, a, world, index) == Looped(a, Halted(why, left), index);
      var throws := Loop(s, a, world, index) == Looped(a, Threw, index);
      && (turn.stop ==> stops(Stopping))
      && (!turn.stop && turn.late ==> stops(Time))
      && (!turn.stop && !turn.late ==>
           && (turn.current == Fails ==> stops(Precondition))
           && (turn.current == AskThrows ==> throws)
           && (turn.current == Holds && turn.facts == Fails ==> stops(Precondition))
           && (turn.current == Holds && turn.facts == AskThrows ==> throws)
           && (turn.current == Holds && turn.facts == Holds && s.plan[index].category ==>
                && (turn.moved == NoSnapshot ==> stops(Precondition))
                && (turn.moved == Inside ==> stops(Changed))
                && (turn.moved == SnapshotThrows ==> throws)))
  {
    hide OnRead;
  }

  /** The turn passed every check before its channel. */
  predicate Passed(target: Target, turn: Turn) {
    && !turn.stop && !turn.late && turn.current == Holds && turn.facts == Holds
    && (target.category ==> turn.moved == Nothing)
  }

  /** The iteration sent a PUT. */
  predicate Sends(s: Setup, a: Account, target: Target, turn: Turn) {
    Handle(s, a, target, turn).account.puts != a.puts
  }

  /** The inherit a channel copies: its category's write in this run, or one resumed; never a planned one unwritten. */
  ghost predicate Copies(s: Setup, a: Account, parent: Option<Id>, turn: Turn, inherit: Option<Inherit>) {
    if parent.None? then inherit.None?
    else if parent.value in a.categories then inherit == Some(a.categories[parent.value])
    else
      && (forall t :: t in s.plan && t.category ==> t.id != parent.value)
      && if parent.value !in s.resumable then inherit.None?
         else if parent.value in a.resumed then inherit == Some(a.resumed[parent.value])
         else turn.category.Readable? && inherit.Some? && inherit == s.resume(parent.value, turn.category.channel)
  }

  /** A category resumed is read once and remembered. */
  function Remembered(a: Account, parent: Option<Id>, inherit: Option<Inherit>): map<Id, Inherit> {
    if parent.Some? && parent.value !in a.categories && inherit.Some?
    then a.resumed[parent.value := inherit.value] else a.resumed
  }

  lemma LendsCopies(s: Setup, a: Account, parent: Option<Id>, turn: Turn)
    requires Lends(s, a, parent, turn).Use?
    ensures Copies(s, a, parent, turn, Lends(s, a, parent, turn).inherit)
    ensures Kept(s, a, parent, Lends(s, a, parent, turn))
         == a.(resumed := Remembered(a, parent, Lends(s, a, parent, turn).inherit))
  {
  }

  lemma LeftSendsNothing(s: Setup, a: Account, target: Target, channel: Fresh, inherit: Option<Inherit>)
    ensures Left(s, a, target, channel, inherit).puts == a.puts
  {
  }

  lemma OnReadSends(s: Setup, a: Account, target: Target, channel: Fresh, turn: Turn)
    requires OnRead(s, a, target, channel, turn).account.puts != a.puts
    ensures var lent := Lends(s, a, channel.parent, turn);
      && !Private(s, target.id, channel) && lent.Use? && s.entry(target.id, channel, lent.inherit).Some?
      && OnRead(s, a, target, channel, turn)
         == Put4(s, Kept(s, a, channel.parent, lent), target.id, channel,
                 s.entry(target.id, channel, lent.inherit).value, turn)
  {
    hide Put4, Left;
    var lent := Lends(s, a, channel.parent, turn);
    if lent.Use? {
      LendsCopies(s, a, channel.parent, turn);
      LeftSendsNothing(s, Kept(s, a, channel.parent, lent), target, channel, lent.inherit);
    }
  }

  /** A sending iteration is past every check, and is its PUT's. */
  lemma SendsThePut(s: Setup, a: Account, target: Target, turn: Turn) returns (inherit: Option<Inherit>, kept: Account)
    requires Sends(s, a, target, turn)
    ensures Passed(target, turn) && turn.read.Readable? && !Private(s, target.id, turn.read.channel)
    ensures Copies(s, a, turn.read.channel.parent, turn, inherit)
    ensures kept == a.(resumed := Remembered(a, turn.read.channel.parent, inherit))
    ensures s.entry(target.id, turn.read.channel, inherit).Some?
    ensures Handle(s, a, target, turn)
         == Put4(s, kept, target.id, turn.read.channel, s.entry(target.id, turn.read.channel, inherit).value, turn)
  {
    hide OnRead, Lends, Kept, Put4, Private;
    var channel := turn.read.channel;
    OnReadSends(s, a, target, channel, turn);
    LendsCopies(s, a, channel.parent, turn);
    inherit := Lends(s, a, channel.parent, turn).inherit;
    kept := Kept(s, a, channel.parent, Lends(s, a, channel.parent, turn));
  }

  lemma PutIsSent(s: Setup, a: Account, id: Id, channel: Fresh, after: Own, turn: Turn)
    ensures var h := Put4(s, a, id, channel, after, turn);
      && h.account.puts == a.puts + [Put(id, channel.parent, channel.category, after, turn.write)]
      && h.account.resumed == a.resumed
  {
  }

  /**
   * An iteration sends at most one PUT, for its own channel, and only past every check, to a channel it
   * could read that is neither private nor inside a private category, with the entry its fresh read and
   * the inherit it copies call for.
   */
  lemma PutNeedsEveryCheck(s: Setup, a: Account, target: Target, turn: Turn)
    requires Sends(s, a, target, turn)
    ensures !turn.stop && !turn.late && turn.current == Holds && turn.facts == Holds
    ensures target.category ==> turn.moved == Nothing
    ensures turn.read.Readable? && target.id !in s.privateIds
    ensures var channel := turn.read.channel;
      && (channel.parent.Some? ==> channel.parent.value !in s.privateIds)
      && exists inherit ::
           Copies(s, a, channel.parent, turn, inherit) && s.entry(target.id, channel, inherit).Some?
           && Handle(s, a, target, turn).account.puts
              == a.puts + [Put(target.id, channel.parent, channel.category,
                               s.entry(target.id, channel, inherit).value, turn.write)]
           && Handle(s, a, target, turn).account.resumed == Remembered(a, channel.parent, inherit)
  {
    hide Handle, Put4, Copies, Remembered;
    var inherit, kept := SendsThePut(s, a, target, turn);
    PutIsSent(s, kept, target.id, turn.read.channel, s.entry(target.id, turn.read.channel, inherit).value, turn);
  }

  /** What a read-back shows isn't the entry sent: an allowed bit missing or denied, or a denied bit allowed. */
  ghost predicate Broken(sent: Own, got: Own) {
    || (exists bit :: bit in sent.allow && (bit !in got.allow || bit in got.deny))
    || (exists bit :: bit in sent.deny && bit in got.allow)
  }

  lemma ReadBackTells(sent: Own, got: Own)
    ensures ReadBack(sent, got) == if Broken(sent, got) then Fail else if got == sent then Pass else Normalized
  {
    if !(sent.allow <= got.allow) { var bit :| bit in sent.allow && bit !in got.allow; }
    if !(got.deny !! sent.allow) { var bit :| bit in sent.allow && bit in got.deny; }
    if !(got.allow !! sent.deny) { var bit :| bit in sent.deny && bit in got.allow; }
  }

  /** The bot's entry on a channel, empty where there is none. */
  function BotEntry(s: Setup, channel: Fresh): Own {
    if s.bot in channel.overwrites then channel.overwrites[s.bot] else Own({}, {})
  }

  /** An answer that isn't Discord's taking the PUT, and where it leaves the channel. */
  lemma RefusedPutAnswers(s: Setup, a: Account, target: Target, turn: Turn)
    requires Sends(s, a, target, turn) && turn.write != Wrote
    ensures var h := Handle(s, a, target, turn);
      var got, id := h.account.(puts := a.puts, resumed := a.resumed), target.id;
      match turn.write
      case WriteThrows =>
        got == a.(unconfirmed := a.unconfirmed + [id])
        && h.turned == if turn.drained then StopAfter(Stopping) else ThrowAfter
      case Gone => got == a.(skipped := a.skipped + [id]) && h.turned == Go
      case Forbidden => got == a && h.turned == StopBefore(Permissions)
      case Refused => got == a.(refused := a.refused + [id], skipped := a.skipped + [id]) && h.turned == Go
      case Wrote => true
  {
    hide Handle, Copies;
    var inherit, kept := SendsThePut(s, a, target, turn);
  }

  /**
   * A PUT Discord took is written, and a category's is kept for its children. The read-back then decides:
   * gone is fine, unreadable or not what was sent stops the run behind this channel, and a change Discord
   * made that breaks nothing is reported.
   */
  lemma TakenPutAnswers(s: Setup, a: Account, target: Target, turn: Turn)
    requires Sends(s, a, target, turn) && turn.write == Wrote
    ensures var h := Handle(s, a, target, turn);
      |h.account.puts| == |a.puts| + 1 && turn.read.Readable?
    ensures var h := Handle(s, a, target, turn);
      var id, channel, sent := target.id, turn.read.channel, h.account.puts[|a.puts|].entry;
      var broken := turn.back.Readable? && Broken(sent, BotEntry(s, turn.back.channel));
      && h.account.(puts := a.puts, resumed := a.resumed, normalized := a.normalized)
         == a.(written := a.written + [Write(id, None)],
               categories := if channel.category then a.categories[id := Inherit(id, channel.overwrites, sent)]
                             else a.categories)
      && h.account.normalized ==
         (if turn.back.Readable? && !broken && BotEntry(s, turn.back.channel) != sent then a.normalized + [id]
          else a.normalized)
      && h.turned == match turn.back
                     case ReadThrows => if turn.drained then StopAfter(Stopping) else ThrowAfter
                     case Deleted => Go
                     case Hidden => StopAfter(Changed)
                     case Readable(_) => if broken then StopAfter(Changed) else Go
  {
    hide Handle, Copies, ReadBack, Broken;
    var inherit, kept := SendsThePut(s, a, target, turn);
    var sent := s.entry(target.id, turn.read.channel, inherit).value;
    PutIsSent(s, kept, target.id, turn.read.channel, sent, turn);
    if turn.back.Readable? { ReadBackTells(sent, BotEntry(s, turn.back.channel)); }
  }

  lemma CopiesLends(s: Setup, a: Account, parent: Option<Id>, turn: Turn, inherit: Option<Inherit>)
    requires Copies(s, a, parent, turn, inherit)
    ensures Lends(s, a, parent, turn) == Use(inherit)
  {
  }

  /** And where all of that holds a PUT is sent. */
  lemma SendsExactly(s: Setup, a: Account, target: Target, turn: Turn)
    ensures Sends(s, a, target, turn) <==>
      && Passed(target, turn) && turn.read.Readable? && target.id !in s.privateIds
      && var channel := turn.read.channel;
        && (channel.parent.Some? ==> channel.parent.value !in s.privateIds)
        && exists inherit ::
             Copies(s, a, channel.parent, turn, inherit) && s.entry(target.id, channel, inherit).Some?
  {
    hide Lends, Copies, Put4;
    if Sends(s, a, target, turn) {
      var inherit, kept := SendsThePut(s, a, target, turn);
    } else if turn.read.Readable? {
      var channel := turn.read.channel;
      forall inherit | Copies(s, a, channel.parent, turn, inherit) && s.entry(target.id, channel, inherit).Some?
        ensures Passed(target, turn) ==> Private(s, target.id, channel)
      {
        CopiesLends(s, a, channel.parent, turn, inherit);
        var kept := Kept(s, a, channel.parent, Use(inherit));
        PutIsSent(s, kept, target.id, channel, s.entry(target.id, channel, inherit).value, turn);
      }
    }
  }

  /** A synced child's overwrites are its category's, with the entry written there, but for an empty @everyone. */
  ghost predicate CopyOf(s: Setup, channel: Fresh, inherit: Inherit) {
    var copied := inherit.before[s.bot := inherit.after];
    forall id :: Bits(s, channel.overwrites, id) == Bits(s, copied, id)
  }

  /** The entry for an ID, an empty @everyone counting as none. */
  function Bits(s: Setup, overwrites: Overwrites, id: Id): Option<Own> {
    if id !in overwrites || (id == s.everyone && overwrites[id] == Own({}, {})) then None else Some(overwrites[id])
  }

  lemma PropagatedExactly(s: Setup, target: Target, channel: Fresh, inherit: Inherit)
    ensures Propagated(s, target, channel, inherit) <==>
      target.inherited && channel.parent == Some(inherit.parent) && CopyOf(s, channel, inherit)
  {
    var got := Normal(channel.overwrites, s.everyone);
    var copied := Normal(inherit.before[s.bot := inherit.after], s.everyone);
    assert forall id :: Bits(s, channel.overwrites, id) == if id in got then Some(got[id]) else None;
    var all := inherit.before[s.bot := inherit.after];
    assert forall id :: Bits(s, all, id) == if id in copied then Some(copied[id]) else None;
    if CopyOf(s, channel, inherit) {
      forall id ensures (id in got <==> id in copied) && (id in got ==> got[id] == copied[id]) {
        assert Bits(s, channel.overwrites, id) == Bits(s, inherit.before[s.bot := inherit.after], id);
      }
      assert got == copied;
    }
  }

  /** A channel already right: Discord's copy of this run's category write, or a skip with its reason. */
  ghost function NothingToWrite(s: Setup, a: Account, target: Target, channel: Fresh, inherit: Option<Inherit>): Account
  {
    var id := target.id;
    if channel.parent.Some? && channel.parent.value in a.categories && inherit.Some? && target.inherited
       && inherit.value.parent == channel.parent.value && CopyOf(s, channel, inherit.value)
    then a.(written := a.written + [Write(id, channel.parent)])
    else
      a.(skipped := a.skipped + [id],
         newlyHidden := if s.verdict(id, channel).HiddenOnPurpose? then a.newlyHidden + {id} else a.newlyHidden,
         newlyDenied := if s.verdict(id, channel).Denied? then a.newlyDenied + {id} else a.newlyDenied)
  }

  /** What an iteration that could read its channel, but sends nothing, does with it. */
  ghost predicate LeavesAlone(s: Setup, a: Account, target: Target, channel: Fresh, turn: Turn, h: Handled) {
    var parent, skipped := channel.parent, a.(skipped := a.skipped + [target.id]);
    if target.id in s.privateIds || (parent.Some? && parent.value in s.privateIds) then h == Handled(skipped, Go)
    else if exists inherit :: Copies(s, a, parent, turn, inherit) then
      h.turned == Go
      && exists inherit :: Copies(s, a, parent, turn, inherit)
           && h.account == NothingToWrite(s, a, target, channel, inherit).(resumed := Remembered(a, parent, inherit))
    else if exists t :: t in s.plan && t.category && parent == Some(t.id) then h == Handled(skipped, Go)
    else h == Handled(a, if !turn.category.ReadThrows? then StopBefore(Changed)
                         else if turn.drained then StopBefore(Stopping) else ThrowBefore)
  }

  lemma LeftIs(s: Setup, a: Account, kept: Account, target: Target, channel: Fresh, inherit: Option<Inherit>)
    requires kept == a.(resumed := kept.resumed)
    ensures Left(s, kept, target, channel, inherit)
         == NothingToWrite(s, a, target, channel, inherit).(resumed := kept.resumed)
  {
    hide Propagated, CopyOf;
    if inherit.Some? { PropagatedExactly(s, target, channel, inherit.value); }
  }

  lemma LendsOtherwise(s: Setup, a: Account, parent: Option<Id>, turn: Turn)
    requires forall inherit :: !Copies(s, a, parent, turn, inherit)
    ensures Lends(s, a, parent, turn) ==
      if exists t :: t in s.plan && t.category && parent == Some(t.id) then LeaveOut
      else if !turn.category.ReadThrows? then LendStops(Changed)
      else if turn.drained then LendStops(Stopping) else LendThrows
  {
    var lent := Lends(s, a, parent, turn);
    if lent.Use? { LendsCopies(s, a, parent, turn); }
    hide Copies;
    assert parent.Some? ==>
      (parent.value in Planned(s.plan) <==> exists t :: t in s.plan && t.category && parent == Some(t.id));
  }

  lemma ReadableWithoutAPut(s: Setup, a: Account, target: Target, channel: Fresh, turn: Turn)
    requires OnRead(s, a, target, channel, turn).account.puts == a.puts
    ensures LeavesAlone(s, a, target, channel, turn, OnRead(s, a, target, channel, turn))
  {
    hide Lends, Kept, Copies, Put4, Left, NothingToWrite;
    var lent := Lends(s, a, channel.parent, turn);
    if lent.Use? {
      var kept := Kept(s, a, channel.parent, lent);
      LendsCopies(s, a, channel.parent, turn);
      LeftIs(s, a, kept, target, channel, lent.inherit);
      if s.entry(target.id, channel, lent.inherit).Some? {
        PutIsSent(s, kept, target.id, channel, s.entry(target.id, channel, lent.inherit).value, turn);
      }
    } else {
      forall inherit ensures !Copies(s, a, channel.parent, turn, inherit) {
        if Copies(s, a, channel.parent, turn, inherit) { CopiesLends(s, a, channel.parent, turn, inherit); }
      }
      LendsOtherwise(s, a, channel.parent, turn);
    }
  }

  /**
   * A checked channel that could not be read, or may not or need not be written: gone, private or of a
   * planned category this run did not write, it is skipped; hidden, it stops the run; of a resumed
   * category no longer as it was left, it stops the run; already right, it is Discord's copy of this run's
   * write or a skip with its reason.
   */
  lemma WithoutAPut(s: Setup, a: Account, target: Target, turn: Turn)
    requires Passed(target, turn) && !Sends(s, a, target, turn)
    ensures var h := Handle(s, a, target, turn);
      var skipped := a.(skipped := a.skipped + [target.id]);
      match turn.read
      case ReadThrows => h == Handled(a, if turn.drained then StopBefore(Stopping) else ThrowBefore)
      case Deleted => h == Handled(skipped, Go)
      case Hidden => h == Handled(a, StopBefore(Permissions))
      case Readable(channel) => LeavesAlone(s, a, target, channel, turn, h)
  {
    hide OnRead, LeavesAlone;
    if turn.read.Readable? { ReadableWithoutAPut(s, a, target, turn.read.channel, turn); }
  }
}
