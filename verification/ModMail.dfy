/** Mod mail's service: each form's transaction, step by step. */
module ModMail {
  import opened Options
  import opened ModMailCases
  import opened ModMailInvariants

  lemma KeptStep(cases: seq<Case>, k: nat, now: int)
    requires k < |cases|
    ensures Kept(cases[k..], now) == (if Expired(cases[k], now) then [] else [cases[k]]) + Kept(cases[k + 1..], now)
  {
    assert cases[k..][1..] == cases[k + 1..];
  }

  class Desk {
    var cases: seq<Case>
    var lastNumber: nat
    var enabled: bool

    constructor (enabled: bool)
      ensures Contents() == Store([], 0, enabled) && StoreInv(Contents())
    {
      cases, lastNumber, this.enabled := [], 0, enabled;
    }

    function Contents(): Store
      reads this
    {
      Store(cases, lastNumber, enabled)
    }

    /** `openedBefore`: the case a web form's minted ID already names. */
    method OpenedBeforeBy(id: Id, user: nat, topic: string, body: string) returns (r: Option<Outcome>)
      ensures r == OpenedBefore(cases, id, user, topic, body)
    {
      var k := 0;
      while k < |cases| && cases[k].id != id
        invariant k <= |cases| && forall j :: 0 <= j < k ==> cases[j].id != id
      {
        k := k + 1;
      }
      assert k == Identified(cases, id);
      if k == |cases| { return None; }
      if cases[k].opener != user { return Some(Conflict); }
      var first := Opening(cases[k].thread);
      if cases[k].topic == topic && first.Some? && first.value.text == body { return Some(Opened(cases[k].number)); }
      r := Some(AlreadyOpened(cases[k].number));
    }

    /** `open`. */
    method OpenCase(actor: Actor, topic: string, body: string, minted: Option<Id>, random: Id, messageId: Id, now: int)
      returns (r: Outcome)
      requires StoreInv(Contents())
      modifies this
      ensures StoreInv(Contents())
      ensures Stepped(Contents(), r)
           == Step(old(Contents()), OpenForm(actor, topic, body, minted, random, messageId, now))
    {
      hide CaseInv, AllApart, HasEntry, OpenedBefore, OpenCount, DailyCount, TextProblem;
      StepKeepsStore(Contents(), OpenForm(actor, topic, body, minted, random, messageId, now));
      if actor.paused { return Refused(Paused); }
      if !actor.mayUse { return Refused(NotAllowed); }
      var problem := TextProblem(topic, TOPIC_CHARS);
      if problem.Some? { return Invalid(problem.value); }
      problem := TextProblem(body, MESSAGE_CHARS);
      if problem.Some? { return Invalid(problem.value); }
      if minted.Some? {
        var repeat := OpenedBeforeBy(minted.value, actor.user, topic, body);
        if repeat.Some? { return repeat.value; }
      }
      if !enabled { return Refused(Off); }
      if OpenCount(cases, actor.user) >= OPEN_CASES { return Refused(OpenLimit); }
      if DailyCount(cases, actor.user, now) >= DAILY_CASES { return Refused(DailyLimit); }
      var caseId := if minted.Some? then minted.value else random;
      if Identified(cases, caseId) < |cases| || Taken(cases, messageId) { return Fault; }
      lastNumber := lastNumber + 1;
      var message := Entry(messageId, Message, actor.user, MemberSide, body, now);
      cases := cases + [Case(caseId, lastNumber, actor.user, topic, now, Officers, now, now, None, None, 1, [message])];
      r := Opened(lastNumber);
    }

    /** `accessible`, and the side the actor writes on. */
    method Accessible(actor: Actor, number: nat) returns (k: nat)
      ensures k == if Numbered(cases, number) < |cases| && MayAccess(actor, cases[Numbered(cases, number)].opener)
                   then Numbered(cases, number) else |cases|
    {
      k := 0;
      while k < |cases| && cases[k].number != number
        invariant k <= |cases| && forall j :: 0 <= j < k ==> cases[j].number != number
      {
        k := k + 1;
      }
      assert k == Numbered(cases, number);
      if k < |cases| && !MayAccess(actor, cases[k].opener) { k := |cases|; }
    }

    /** `reply`: a closed case is reopened first, and its dates cleared. */
    method ReplyTo(actor: Actor, number: nat, body: string, messageId: Id, lineId: Id, now: int) returns (r: Outcome)
      requires StoreInv(Contents())
      modifies this`cases
      ensures StoreInv(Contents())
      ensures Stepped(Contents(), r) == Step(old(Contents()), ReplyForm(actor, number, body, messageId, lineId, now))
    {
      hide CaseInv, AllApart, HasEntry, OpenCount, TextProblem, Repeated, Messages;
      StepKeepsStore(Contents(), ReplyForm(actor, number, body, messageId, lineId, now));
      var k := Accessible(actor, number);
      if k == |cases| { return NotFound; }
      var problem := TextProblem(body, MESSAGE_CHARS);
      if problem.Some? { return Invalid(problem.value); }
      var c := cases[k];
      var side := SideIn(c.opener, actor.user);
      if side == OfficerSide && !actor.respond { return Forbidden; }
      var repeat := Repeated(cases, number, messageId, actor.user, body);
      if repeat.Some? { return repeat.value; }
      if Messages(c.thread) >= MESSAGES_PER_CASE { return Refused(CaseFull); }
      var reopening := c.state == ClosedCase;
      if reopening && side == MemberSide && OpenCount(cases, c.opener) >= OPEN_CASES { return Refused(OpenLimit); }
      var thread := c.thread;
      if reopening {
        if Taken(cases, lineId) || lineId == messageId { return Conflict; }
        thread := thread + [Entry(lineId, Reopened, actor.user, side, "", now)];
      }
      thread := thread + [Entry(messageId, Message, actor.user, side, body, now)];
      var next := AfterReply(side);
      var since := if next == c.state then c.since else now;
      assert c.thread + [] == c.thread;
      cases := cases[k := c.(state := next, since := since, activeAt := now, closedAt := None, deleteAfter := None,
                             revision := c.revision + 1, thread := thread)];
      r := Saved;
    }

    /** `changeState`: close from either side, or an officer's Reopen. */
    method ChangeState(actor: Actor, number: nat, revision: nat, close: bool, lineId: Id, now: int) returns (r: Outcome)
      requires StoreInv(Contents())
      modifies this`cases
      ensures StoreInv(Contents())
      ensures Stepped(Contents(), r) == Step(old(Contents()), ChangeForm(actor, number, revision, close, lineId, now))
    {
      hide CaseInv, AllApart, HasEntry;
      StepKeepsStore(Contents(), ChangeForm(actor, number, revision, close, lineId, now));
      var k := Accessible(actor, number);
      if k == |cases| { return NotFound; }
      var c := cases[k];
      var side := SideIn(c.opener, actor.user);
      if side == OfficerSide && !actor.respond { return Forbidden; }
      if !close && side == MemberSide { return Forbidden; }
      var closed := c.state == ClosedCase;
      if close == closed { return Unchanged; }
      if c.revision != revision { return Conflict; }
      if Taken(cases, lineId) { return Fault; }
      var line := Entry(lineId, if close then Closed else Reopened, actor.user, side, "", now);
      var moved := c.(since := now, activeAt := now, revision := c.revision + 1, thread := c.thread + [line]);
      if close {
        moved := moved.(state := ClosedCase, closedAt := Some(now), deleteAfter := Some(now + RETENTION));
      } else {
        moved := moved.(state := Officers, closedAt := None, deleteAfter := None);
      }
      cases := cases[k := moved];
      r := Saved;
    }

    /** The cases past their deletion date, and how many there are. */
    static method KeepUnexpired(cases: seq<Case>, now: int) returns (kept: seq<Case>, deleted: nat)
      ensures kept == Kept(cases, now) && deleted == |cases| - |kept|
    {
      hide Expired;
      kept, deleted := [], 0;
      var k := 0;
      assert kept + Kept(cases, now) == Kept(cases, now);
      while k < |cases|
        invariant deleted + |kept| == k <= |cases|
        invariant kept + Kept(cases[k..], now) == Kept(cases, now)
      {
        KeptStep(cases, k, now);
        if Expired(cases[k], now) { deleted := deleted + 1; } else { kept := kept + [cases[k]]; }
        k := k + 1;
      }
      assert kept + [] == kept;
    }

    /** `pruneModMail`: returns how many cases it deleted. */
    method PruneCases(now: int) returns (deleted: nat)
      requires StoreInv(Contents())
      modifies this`cases
      ensures StoreInv(Contents())
      ensures Contents() == Step(old(Contents()), Prune(now)).store
      ensures deleted == |old(cases)| - |cases|
    {
      hide StoreInv, Expired, Kept, Open, Reply, Change;
      PruneKeepsStore(Contents(), now);
      var kept;
      kept, deleted := KeepUnexpired(cases, now);
      cases := kept;
    }
  }
}
