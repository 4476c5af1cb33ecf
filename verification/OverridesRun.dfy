/** The real run of `/setup overrides`, step by step: its loop, its reply and its audit row. */
module OverridesRun {
  import opened Options
  import opened Overrides
  import opened OverridesAccount

  /** The view before the loop: made, cut short before planning its writes, or failed. */
  datatype View = Made | Cut(why: Stop) | ViewThrows

  datatype Reply = NothingToDo | Applied(remaining: nat) | Stopped(why: Stop, remaining: nat) | Failed

  datatype Audit = Audit(account: Account, hidden: set<Id>, failed: bool, remaining: Option<nat>)

  class Run {
    const s: Setup
    var puts: seq<Put>
    var written: seq<Write>
    var skipped: seq<Id>
    var refused: seq<Id>
    var unconfirmed: seq<Id>
    var normalized: seq<Id>
    var newlyHidden: set<Id>
    var newlyDenied: set<Id>
    var categories: map<Id, Inherit>
    var resumed: map<Id, Inherit>

    constructor (s: Setup)
      ensures this.s == s && Contents() == NOTHING
    {
      this.s := s;
      puts, written, skipped, refused, unconfirmed, normalized := [], [], [], [], [], [];
      newlyHidden, newlyDenied, categories, resumed := {}, {}, map[], map[];
    }

    function Contents(): Account
      reads this
    {
      Account(puts, written, skipped, refused, unconfirmed, normalized, newlyHidden, newlyDenied, categories, resumed)
    }

    /** Step 1: the flags, the server row, TaruBot's own standing, and a category's new children. */
    method CheckAgain(target: Target, turn: Turn) returns (r: Rechecked)
      ensures r == Recheck(target, turn)
    {
      if turn.stop { return StopNow(Stopping); }
      if turn.late { return StopNow(Time); }
      if turn.current == AskThrows { return CheckThrows; }
      if turn.current == Fails { return StopNow(Precondition); }
      if turn.facts == AskThrows { return CheckThrows; }
      if turn.facts == Fails { return StopNow(Precondition); }
      if target.category {
        if turn.moved == SnapshotThrows { return CheckThrows; }
        if turn.moved == NoSnapshot { return StopNow(Precondition); }
        if turn.moved == Inside { return StopNow(Changed); }
      }
      r := Proceed;
    }

    /** The inherit this channel's category gives it; a category to resume is read fresh once. */
    method Lend(parent: Option<Id>, turn: Turn) returns (lent: Lent)
      modifies this`resumed
      ensures lent == Lends(s, old(Contents()), parent, turn)
      ensures Contents() == Kept(s, old(Contents()), parent, lent)
    {
      if parent.None? { return Use(None); }
      var id := parent.value;
      if id in categories { return Use(Some(categories[id])); }
      if id in Planned(s.plan) { return LeaveOut; }
      if id !in s.resumable { return Use(None); }
      if id !in resumed {
        match turn.category {
          case ReadThrows => return if turn.drained then LendStops(Stopping) else LendThrows;
          case Readable(channel) =>
            var lends := s.resume(id, channel);
            if lends.None? { return LendStops(Changed); }
            resumed := resumed[id := lends.value];
          case _ => return LendStops(Changed);
        }
      }
      assert resumed == resumed[id := resumed[id]];
      lent := Use(Some(resumed[id]));
    }

    method Leave(target: Target, channel: Fresh, inherit: Option<Inherit>)
      modifies this
      ensures Contents() == Left(s, old(Contents()), target, channel, inherit)
    {
      hide Propagated;
      if channel.parent.Some? && channel.parent.value in categories && inherit.Some?
         && Propagated(s, target, channel, inherit.value) {
        written := written + [Write(target.id, channel.parent)];
        return;
      }
      match s.verdict(target.id, channel) {
        case HiddenOnPurpose => newlyHidden := newlyHidden + {target.id};
        case Denied => newlyDenied := newlyDenied + {target.id};
        case Otherwise =>
      }
      skipped := skipped + [target.id];
    }

    method WriteEntry(id: Id, channel: Fresh, after: Own, turn: Turn) returns (turned: Turned)
      modifies this
      ensures Handled(Contents(), turned) == Put4(s, old(Contents()), id, channel, after, turn)
    {
      hide ReadBack, OwnEntry;
      puts := puts + [Put(id, channel.parent, channel.category, after, turn.write)];
      match turn.write {
        case WriteThrows =>
          unconfirmed := unconfirmed + [id];
          return if turn.drained then StopAfter(Stopping) else ThrowAfter;
        case Gone => skipped := skipped + [id]; return Go;
        case Forbidden => return StopBefore(Permissions);
        case Refused =>
          skipped := skipped + [id];
          refused := refused + [id];
          return Go;
        case Wrote =>
          written := written + [Write(id, None)];
          if channel.category { categories := categories[id := Inherit(id, channel.overwrites, after)]; }
      }
      match turn.back {
        case ReadThrows => return if turn.drained then StopAfter(Stopping) else ThrowAfter;
        case Deleted => return Go;
        case Hidden => return StopAfter(Changed);
        case Readable(got) =>
          var check := ReadBack(after, OwnEntry(s, got));
          if check == Fail { return StopAfter(Changed); }
          if check == Normalized { normalized := normalized + [id]; }
          return Go;
      }
    }

    method HandleChannel(target: Target, turn: Turn) returns (turned: Turned)
      modifies this
      ensures Handled(Contents(), turned) == Handle(s, old(Contents()), target, turn)
    {
      hide Put4, Left, Lends;
      var id := target.id;
      var again := CheckAgain(target, turn);
      if again.StopNow? { return StopBefore(again.why); }
      if again.CheckThrows? { return ThrowBefore; }
      match turn.read {
        case ReadThrows => return if turn.drained then StopBefore(Stopping) else ThrowBefore;
        case Deleted => skipped := skipped + [id]; return Go;
        case Hidden => return StopBefore(Permissions);
        case Readable(channel) =>
          if Private(s, id, channel) {
            skipped := skipped + [id];
            return Go;
          }
          var lent := Lend(channel.parent, turn);
          match lent {
            case LeaveOut => skipped := skipped + [id]; return Go;
            case LendStops(stop) => return StopBefore(stop);
            case LendThrows => return ThrowBefore;
            case Use(inherit) =>
              var entry := s.entry(id, channel, inherit);
              if entry.None? {
                Leave(target, channel, inherit);
                return Go;
              }
              turned := WriteEntry(id, channel, entry.value, turn);
          }
      }
    }

    /** `loop`. */
    method WriteLoop(world: nat -> Turn) returns (end: End, ghost reached: nat)
      modifies this
      ensures Looped(Contents(), end, reached) == Loop(s, old(Contents()), world, 0)
    {
      hide Handle;
      var index := 0;
      while index < |s.plan|
        invariant index <= |s.plan| && Loop(s, Contents(), world, index) == Loop(s, old(Contents()), world, 0)
      {
        var turned := HandleChannel(s.plan[index], world(index));
        match turned {
          case StopBefore(why) => return Halted(why, |s.plan| - index), index;
          case ThrowBefore => return Threw, index;
          case StopAfter(why) => return Halted(why, |s.plan| - index - 1), index + 1;
          case ThrowAfter => return Threw, index + 1;
          case Go => index := index + 1;
        }
      }
      return Complete, index;
    }

    /**
     * `locked` and `record`: the run always leaves its account behind, and the audit row counts the
     * channels never reached exactly as the reply does, though it works only from the lists.
     */
    method Perform(view: View, world: nat -> Turn, before: set<Id>, judged: set<Id>)
      returns (reply: Reply, audit: Option<Audit>, requeue: bool, ghost reached: nat)
      requires Contents() == NOTHING && Distinct(s.plan)
      modifies this
      ensures Valid(s, Contents()) && Partitions(s.plan, reached, written, skipped, unconfirmed)
      ensures Contents() == if view == Made then Loop(s, NOTHING, world, 0).account else NOTHING
      ensures reply == match view
                       case ViewThrows => Failed
                       case Cut(why) => Stopped(why, |s.plan|)
                       case Made =>
                         if s.plan == [] then NothingToDo
                         else match Loop(s, NOTHING, world, 0).end
                           case Complete => Applied(0)
                           case Halted(why, remaining) => Stopped(why, remaining)
                           case Threw => Failed
      ensures reply.Stopped? ==> reply.remaining == |s.plan| - reached
      ensures reply.Applied? ==> reached == |s.plan|
      ensures audit.Some? ==> audit.value.remaining == if view == ViewThrows then None else Some(|s.plan| - reached)
      ensures audit.Some? ==> audit.value.failed == reply.Failed? && audit.value.account == Contents()
      ensures audit.Some? ==>
                audit.value.hidden == (if view == ViewThrows then before else judged) + newlyHidden + newlyDenied
      ensures audit.Some? <==>
                (written != [] || unconfirmed != [] || refused != []
                 || (view != ViewThrows && judged + newlyHidden + newlyDenied != before))
      ensures requeue <==> written != [] || unconfirmed != [] || reply == NothingToDo
    {
      hide Valid, Reached, Handle, Loop;
      NothingIsValid(s);
      LoopAccounts(s, NOTHING, world, 0);
      reached := 0;
      match view {
        case ViewThrows => reply := Failed;
        case Cut(why) => reply := Stopped(why, |s.plan|);
        case Made =>
          if s.plan == [] {
            EmptyPlan(s, world);
            reply := NothingToDo;
          } else {
            var end;
            end, reached := WriteLoop(world);
            reply := match end
              case Complete => Applied(0)
              case Halted(why, remaining) => Stopped(why, remaining)
              case Threw => Failed;
          }
      }
      AuditCountsTheSame(s.plan, reached, written, skipped, unconfirmed);
      var hidden := (if view == ViewThrows then before else judged) + newlyHidden + newlyDenied;
      requeue := written != [] || unconfirmed != [] || reply == NothingToDo;
      if written == [] && unconfirmed == [] && refused == [] && hidden == before {
        audit := None;
      } else {
        var gone := |s.plan| - |Reached(written, skipped, unconfirmed)|;
        var remaining := if view == ViewThrows then None else Some(if gone < 0 then 0 else gone);
        audit := Some(Audit(Contents(), hidden, reply.Failed?, remaining));
      }
    }
  }
}
