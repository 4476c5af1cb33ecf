/**
 * `/setup overrides confirm:true`: the write loop over a plan of channels, categories first, and the
 * audit row that accounts for it. What Discord and the server row answer comes from a world of turns.
 */
module Overrides {
  import opened Options

  type Id = nat

  /** The bits one overwrite entry allows and denies. */
  datatype Own = Own(allow: set<nat>, deny: set<nat>)

  type Overwrites = map<Id, Own>

  datatype Fresh = Fresh(parent: Option<Id>, category: bool, overwrites: Overwrites)

  /** A category's write that its synced children copy. */
  datatype Inherit = Inherit(parent: Id, before: Overwrites, after: Own)

  datatype Target = Target(id: Id, category: bool, inherited: bool)

  datatype Read = Readable(channel: Fresh) | Deleted | Hidden | ReadThrows
  datatype WriteOutcome = Wrote | Gone | Forbidden | Refused | WriteThrows
  datatype Stop = Stopping | Time | Precondition | Changed | Permissions
  datatype Verdict = HiddenOnPurpose | Denied | Otherwise
  datatype Check = Pass | Normalized | Fail

  /** The server, its plan and the visibility rules a run reads once. */
  datatype Setup = Setup(
    bot: Id, everyone: Id,
    plan: seq<Target>,
    privateIds: set<Id>,
    /** Categories an interrupted run wrote, which this plan doesn't. */
    resumable: set<Id>,
    /** `overrideTarget` on a fresh read: the entry to write, or nothing to write. */
    entry: (Id, Fresh, Option<Inherit>) -> Option<Own>,
    verdict: (Id, Fresh) -> Verdict,
    resume: (Id, Fresh) -> Option<Inherit>)

  /** What a check at the start of an iteration comes to. */
  datatype Answer = Holds | Fails | AskThrows

  /** Whether a configured channel moved into a category, by the gateway's caches. */
  datatype Moved = Nothing | Inside | NoSnapshot | SnapshotThrows

  /**
   * What one iteration meets. `stop` is the run's flag as step 1 reads it. `drained` is whether a drain
   * has set it and aborted the run's requests by the time a request throws: one may begin at any await.
   */
  datatype Turn = Turn(
    stop: bool, late: bool, current: Answer, facts: Answer, moved: Moved,
    read: Read, category: Read, write: WriteOutcome, back: Read, drained: bool)

  /** One PUT: the channel, its parent as freshly read, the entry sent, and what came of it. */
  datatype Put = Put(id: Id, parent: Option<Id>, category: bool, entry: Own, outcome: WriteOutcome)

  /** One write the run reports; a propagated one is Discord's copy of its category's. */
  datatype Write = Write(id: Id, category: Option<Id>)

  /** Where an iteration leaves its channel: dealt with or not, and the run going on or not. */
  datatype Turned = Go | StopBefore(why: Stop) | StopAfter(why: Stop) | ThrowBefore | ThrowAfter

  predicate DealtWith(t: Turned) { t.Go? || t.StopAfter? || t.ThrowAfter? }

  function Planned(plan: seq<Target>): set<Id> { set t | t in plan && t.category :: t.id }

  /** An @everyone entry without bits counts as none. */
  function Normal(m: Overwrites, everyone: Id): Overwrites {
    if everyone in m && m[everyone] == Own({}, {}) then m - {everyone} else m
  }

  /** `propagatedWrite`: Discord copied the category's write to this synced child. */
  predicate Propagated(s: Setup, planned: Target, channel: Fresh, inherit: Inherit) {
    && planned.inherited && channel.parent == Some(inherit.parent)
    && Normal(channel.overwrites, s.everyone) == Normal(inherit.before[s.bot := inherit.after], s.everyone)
  }

  /** A write is taken for Discord's copy only on a channel that carries the category's entry exactly. */
  lemma PropagatedCarriesTheEntry(s: Setup, planned: Target, channel: Fresh, inherit: Inherit)
    requires s.bot != s.everyone && Propagated(s, planned, channel, inherit)
    ensures s.bot in channel.overwrites && channel.overwrites[s.bot] == inherit.after
    ensures forall id :: id !in {s.bot, s.everyone} ==>
      (id in channel.overwrites <==> id in inherit.before)
      && (id in channel.overwrites ==> channel.overwrites[id] == inherit.before[id])
  {
    var got := Normal(channel.overwrites, s.everyone);
    var copied := Normal(inherit.before[s.bot := inherit.after], s.everyone);
    assert s.bot in copied && copied[s.bot] == inherit.after;
    forall id | id !in {s.bot, s.everyone}
      ensures id in channel.overwrites <==> id in inherit.before
      ensures id in channel.overwrites ==> channel.overwrites[id] == inherit.before[id]
    {
      assert id in got <==> id in channel.overwrites;
      assert id in copied <==> id in inherit.before;
    }
  }

  function ReadBack(after: Own, got: Own): Check {
    if !(after.allow <= got.allow) || !(got.deny !! after.allow) then Fail
    else if !(got.allow !! after.deny) then Fail
    else if got == after then Pass
    else Normalized
  }

  function OwnEntry(s: Setup, channel: Fresh): Own {
    if s.bot in channel.overwrites then channel.overwrites[s.bot] else Own({}, {})
  }

  /** What a run has done so far: the lists its reply and audit report, and what its children may copy. */
  datatype Account = Account(
    puts: seq<Put>,
    written: seq<Write>,
    skipped: seq<Id>,
    refused: seq<Id>,
    unconfirmed: seq<Id>,
    normalized: seq<Id>,
    newlyHidden: set<Id>,
    newlyDenied: set<Id>,
    /** The categories this run wrote, and those an interrupted run left to resume. */
    categories: map<Id, Inherit>,
    resumed: map<Id, Inherit>)

  const NOTHING := Account([], [], [], [], [], [], {}, {}, map[], map[])

  function SkippedBy(a: Account, id: Id): Account { a.(skipped := a.skipped + [id]) }

  datatype Rechecked = Proceed | StopNow(why: Stop) | CheckThrows

  /** Step 1: whether the run may still write at all. */
  function Recheck(target: Target, turn: Turn): Rechecked {
    if turn.stop then StopNow(Stopping)
    else if turn.late then StopNow(Time)
    else if turn.current == AskThrows then CheckThrows
    else if turn.current == Fails then StopNow(Precondition)
    else if turn.facts == AskThrows then CheckThrows
    else if turn.facts == Fails then StopNow(Precondition)
    else if !target.category then Proceed
    else match turn.moved
      case SnapshotThrows => CheckThrows
      case NoSnapshot => StopNow(Precondition)
      case Inside => StopNow(Changed)
      case Nothing => Proceed
  }

  /** What a child copies from its category, or why the loop ends or passes it by. */
  datatype Lent = Use(inherit: Option<Inherit>) | LeaveOut | LendStops(why: Stop) | LendThrows

  /** Step 3: the inherit this channel's category gives it. */
  function Lends(s: Setup, a: Account, parent: Option<Id>, turn: Turn): Lent {
    if parent.None? then Use(None)
    else if parent.value in a.categories then Use(Some(a.categories[parent.value]))
    else if parent.value in Planned(s.plan) then LeaveOut
    else if parent.value !in s.resumable then Use(None)
    else if parent.value in a.resumed then Use(Some(a.resumed[parent.value]))
    else match turn.category
      case ReadThrows => if turn.drained then LendStops(Stopping) else LendThrows
      case Readable(channel) =>
        if s.resume(parent.value, channel).Some? then Use(s.resume(parent.value, channel)) else LendStops(Changed)
      case _ => LendStops(Changed)
  }

  /** A resumed category is read once and kept. */
  function Kept(s: Setup, a: Account, parent: Option<Id>, lent: Lent): Account {
    if parent.Some? && parent.value !in a.categories && lent.Use? && lent.inherit.Some?
    then a.(resumed := a.resumed[parent.value := lent.inherit.value]) else a
  }

  /** Nothing to write: Discord's copy of this run's category write, or a skip and why. */
  function Left(s: Setup, a: Account, target: Target, channel: Fresh, inherit: Option<Inherit>): Account {
    if channel.parent.Some? && channel.parent.value in a.categories && inherit.Some?
       && Propagated(s, target, channel, inherit.value)
    then a.(written := a.written + [Write(target.id, channel.parent)])
    else
      var skipped := SkippedBy(a, target.id);
      match s.verdict(target.id, channel)
      case HiddenOnPurpose => skipped.(newlyHidden := a.newlyHidden + {target.id})
      case Denied => skipped.(newlyDenied := a.newlyDenied + {target.id})
      case Otherwise => skipped
  }

  datatype Handled = Handled(account: Account, turned: Turned)

  /** Step 5: read the write back. */
  function CheckedBack(s: Setup, a: Account, id: Id, after: Own, turn: Turn): Handled {
    match turn.back
    case ReadThrows => Handled(a, if turn.drained then StopAfter(Stopping) else ThrowAfter)
    case Deleted => Handled(a, Go)
    case Hidden => Handled(a, StopAfter(Changed))
    case Readable(got) =>
      match ReadBack(after, OwnEntry(s, got))
      case Fail => Handled(a, StopAfter(Changed))
      case Normalized => Handled(a.(normalized := a.normalized + [id]), Go)
      case Pass => Handled(a, Go)
  }

  /** Step 4: the PUT. */
  function Put4(s: Setup, a: Account, id: Id, channel: Fresh, after: Own, turn: Turn): Handled {
    var sent := a.(puts := a.puts + [Put(id, channel.parent, channel.category, after, turn.write)]);
    match turn.write
    case WriteThrows =>
      Handled(sent.(unconfirmed := a.unconfirmed + [id]),
              if turn.drained then StopAfter(Stopping) else ThrowAfter)
    case Gone => Handled(SkippedBy(sent, id), Go)
    case Forbidden => Handled(sent, StopBefore(Permissions))
    case Refused => Handled(SkippedBy(sent.(refused := a.refused + [id]), id), Go)
    case Wrote =>
      var lends :=
        if channel.category then a.categories[id := Inherit(id, channel.overwrites, after)] else a.categories;
      CheckedBack(s, sent.(written := a.written + [Write(id, None)], categories := lends), id, after, turn)
  }

  predicate Private(s: Setup, id: Id, channel: Fresh) {
    id in s.privateIds || (channel.parent.Some? && channel.parent.value in s.privateIds)
  }

  /** Step 2 on: the fresh read decides. */
  function OnRead(s: Setup, a: Account, target: Target, channel: Fresh, turn: Turn): Handled {
    if Private(s, target.id, channel) then Handled(SkippedBy(a, target.id), Go)
    else
      var lent := Lends(s, a, channel.parent, turn);
      match lent
      case LeaveOut => Handled(SkippedBy(a, target.id), Go)
      case LendStops(why) => Handled(a, StopBefore(why))
      case LendThrows => Handled(a, ThrowBefore)
      case Use(inherit) =>
        var kept := Kept(s, a, channel.parent, lent);
        var entry := s.entry(target.id, channel, inherit);
        if entry.None? then Handled(Left(s, kept, target, channel, inherit), Go)
        else Put4(s, kept, target.id, channel, entry.value, turn)
  }

  /** One iteration of the loop. */
  function Handle(s: Setup, a: Account, target: Target, turn: Turn): Handled {
    match Recheck(target, turn)
    case StopNow(why) => Handled(a, StopBefore(why))
    case CheckThrows => Handled(a, ThrowBefore)
    case Proceed =>
      match turn.read
      case ReadThrows => Handled(a, if turn.drained then StopBefore(Stopping) else ThrowBefore)
      case Deleted => Handled(SkippedBy(a, target.id), Go)
      case Hidden => Handled(a, StopBefore(Permissions))
      case Readable(channel) => OnRead(s, a, target, channel, turn)
  }

  datatype End = Complete | Halted(why: Stop, remaining: nat) | Threw

  datatype Looped = Looped(account: Account, end: End, reached: nat)

  /** The loop from the plan's `index` on; `reached` counts the channels dealt with. */
  function Loop(s: Setup, a: Account, world: nat -> Turn, index: nat): Looped
    requires index <= |s.plan|
    decreases |s.plan| - index
  {
    if index == |s.plan| then Looped(a, Complete, index)
    else
      var h := Handle(s, a, s.plan[index], world(index));
      match h.turned
      case Go => Loop(s, h.account, world, index + 1)
      case StopBefore(why) => Looped(h.account, Halted(why, |s.plan| - index), index)
      case ThrowBefore => Looped(h.account, Threw, index)
      case StopAfter(why) => Looped(h.account, Halted(why, |s.plan| - index - 1), index + 1)
      case ThrowAfter => Looped(h.account, Threw, index + 1)
  }
}
