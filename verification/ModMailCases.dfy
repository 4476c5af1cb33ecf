/** One server's mod mail: its cases, their threads, and what each form does to them. */
module ModMailCases {
  import opened Options
  import opened Searching

  const OPEN_CASES := 3
  const DAILY_CASES := 5
  const TOPIC_CHARS := 100
  const MESSAGE_CHARS := 4000
  const MESSAGES_PER_CASE := 500
  const DAY := 86400
  const RETENTION := 90 * DAY

  /** A UUID; a form carries one minted with its page. */
  type Id = nat

  datatype CaseState = Officers | Member | ClosedCase
  datatype Side = MemberSide | OfficerSide
  datatype Kind = Message | Closed | Reopened

  /** A thread row: a message, or a line of the state history. */
  datatype Entry = Entry(id: Id, kind: Kind, author: nat, side: Side, text: string, at: int)

  datatype Case = Case(
    id: Id, number: nat, opener: nat, topic: string, openedAt: int,
    state: CaseState, since: int, activeAt: int, closedAt: Option<int>, deleteAfter: Option<int>,
    revision: nat, thread: seq<Entry>)

  datatype Store = Store(cases: seq<Case>, lastNumber: nat, enabled: bool)

  /** Who acts: modmail.inbox, modmail.respond, holding modmail.open usably, and paused on it. */
  datatype Actor = Actor(user: nat, inbox: bool, respond: bool, mayUse: bool, paused: bool)

  datatype Problem = Empty | Long | Unsavable
  datatype Refusal = Paused | NotAllowed | Off | OpenLimit | DailyLimit | CaseFull

  datatype Outcome =
    | Opened(number: nat)
    | AlreadyOpened(number: nat)
    | Saved
    | Unchanged
    | Resent
    | Conflict
    | NotFound
    | Forbidden
    | Refused(why: Refusal)
    | Invalid(problem: Problem)
    | Fault

  function TextProblem(text: string, max: nat): Option<Problem> {
    if text == "" then Some(Empty)
    else if |text| > max then Some(Long)
    else if '\0' in text then Some(Unsavable)
    else None
  }

  function SideIn(opener: nat, user: nat): Side { if user == opener then MemberSide else OfficerSide }

  function AfterReply(side: Side): CaseState { if side == MemberSide then Officers else Member }

  predicate MayAccess(actor: Actor, opener: nat) { actor.inbox || (actor.user == opener && actor.mayUse) }

  function Messages(thread: seq<Entry>): nat {
    if thread == [] then 0
    else Messages(thread[..|thread| - 1]) + if thread[|thread| - 1].kind == Message then 1 else 0
  }

  predicate HasEntry(thread: seq<Entry>, id: Id) { exists k :: 0 <= k < |thread| && thread[k].id == id }

  /** Where the entry with this ID stands in a thread. */
  function EntryAt(thread: seq<Entry>, id: Id): (k: nat)
    requires HasEntry(thread, id)
    ensures k < |thread| && thread[k].id == id && forall j :: 0 <= j < k ==> thread[j].id != id
  {
    if thread[0].id == id then 0
    else
      assert HasEntry(thread[1..], id) by {
        var j :| 0 <= j < |thread| && thread[j].id == id;
        assert thread[1..][j - 1] == thread[j];
      }
      1 + EntryAt(thread[1..], id)
  }

  function Numbered(cases: seq<Case>, number: nat): nat { First(cases, (c: Case) => c.number == number) }

  function Identified(cases: seq<Case>, id: Id): nat { First(cases, (c: Case) => c.id == id) }

  function Holder(cases: seq<Case>, id: Id): nat { First(cases, (c: Case) => HasEntry(c.thread, id)) }

  /** The message's ID is taken, in any case. */
  predicate Taken(cases: seq<Case>, id: Id) { Holder(cases, id) < |cases| }

  predicate IsOpen(c: Case) { c.state != ClosedCase }

  function OpenCount(cases: seq<Case>, user: nat): nat {
    if cases == [] then 0
    else OpenCount(cases[1..], user) + if cases[0].opener == user && IsOpen(cases[0]) then 1 else 0
  }

  function DailyCount(cases: seq<Case>, user: nat, now: int): nat {
    if cases == [] then 0
    else DailyCount(cases[1..], user, now) + if cases[0].opener == user && cases[0].openedAt > now - DAY then 1 else 0
  }

  /** The first message of a thread. */
  function Opening(thread: seq<Entry>): Option<Entry> {
    if thread == [] then None
    else if thread[0].kind == Message then Some(thread[0])
    else Opening(thread[1..])
  }

  /** `openedBefore`: what a web form's minted ID already names. */
  function OpenedBefore(cases: seq<Case>, id: Id, user: nat, topic: string, body: string): Option<Outcome> {
    var k := Identified(cases, id);
    if k == |cases| then None
    else if cases[k].opener != user then Some(Conflict)
    else
      var first := Opening(cases[k].thread);
      if cases[k].topic == topic && first.Some? && first.value.text == body then Some(Opened(cases[k].number))
      else Some(AlreadyOpened(cases[k].number))
  }

  function NewCase(number: nat, user: nat, topic: string, body: string, caseId: Id, messageId: Id, now: int): Case {
    Case(caseId, number, user, topic, now, Officers, now, now, None, None, 1,
         [Entry(messageId, Message, user, MemberSide, body, now)])
  }

  datatype Stepped = Stepped(store: Store, outcome: Outcome)

  /** `open`; an ID already taken breaks its primary key, and the transaction with it. */
  function Open(s: Store, actor: Actor, topic: string, body: string, minted: Option<Id>, random: Id, messageId: Id,
                now: int)
    : Stepped
  {
    if actor.paused then Stepped(s, Refused(Paused))
    else if !actor.mayUse then Stepped(s, Refused(NotAllowed))
    else if TextProblem(topic, TOPIC_CHARS).Some? then Stepped(s, Invalid(TextProblem(topic, TOPIC_CHARS).value))
    else if TextProblem(body, MESSAGE_CHARS).Some? then Stepped(s, Invalid(TextProblem(body, MESSAGE_CHARS).value))
    else
      var repeat := if minted.Some? then OpenedBefore(s.cases, minted.value, actor.user, topic, body) else None;
      if repeat.Some? then Stepped(s, repeat.value)
      else if !s.enabled then Stepped(s, Refused(Off))
      else if OpenCount(s.cases, actor.user) >= OPEN_CASES then Stepped(s, Refused(OpenLimit))
      else if DailyCount(s.cases, actor.user, now) >= DAILY_CASES then Stepped(s, Refused(DailyLimit))
      else
        var caseId := if minted.Some? then minted.value else random;
        if Identified(s.cases, caseId) < |s.cases| || Taken(s.cases, messageId) then Stepped(s, Fault)
        else
          var number := s.lastNumber + 1;
          Stepped(s.(cases := s.cases + [NewCase(number, actor.user, topic, body, caseId, messageId, now)],
                     lastNumber := number), Opened(number))
  }

  /** `repeated`: what a reply form's minted ID already names. */
  function Repeated(cases: seq<Case>, number: nat, messageId: Id, user: nat, body: string): Option<Outcome> {
    var k := Holder(cases, messageId);
    if k == |cases| then None
    else
      var entry := cases[k].thread[EntryAt(cases[k].thread, messageId)];
      if cases[k].number != number || entry.author != user then Some(Conflict)
      else if entry.kind == Message && entry.text == body then Some(Unchanged)
      else Some(Resent)
  }

  /** A case after a reply: a closed one is reopened first. */
  function Replied(c: Case, user: nat, body: string, messageId: Id, lineId: Id, now: int): Case {
    var side := SideIn(c.opener, user);
    var line := if IsOpen(c) then [] else [Entry(lineId, Reopened, user, side, "", now)];
    var next := AfterReply(side);
    c.(state := next, since := if next == c.state then c.since else now, activeAt := now,
       closedAt := None, deleteAfter := None, revision := c.revision + 1,
       thread := c.thread + line + [Entry(messageId, Message, user, side, body, now)])
  }

  function Reply(s: Store, actor: Actor, number: nat, body: string, messageId: Id, lineId: Id, now: int): Stepped {
    var k := Numbered(s.cases, number);
    if k == |s.cases| || !MayAccess(actor, s.cases[k].opener) then Stepped(s, NotFound)
    else if TextProblem(body, MESSAGE_CHARS).Some? then Stepped(s, Invalid(TextProblem(body, MESSAGE_CHARS).value))
    else
      var c := s.cases[k];
      var side := SideIn(c.opener, actor.user);
      if side == OfficerSide && !actor.respond then Stepped(s, Forbidden)
      else
        var repeat := Repeated(s.cases, number, messageId, actor.user, body);
        if repeat.Some? then Stepped(s, repeat.value)
        else if Messages(c.thread) >= MESSAGES_PER_CASE then Stepped(s, Refused(CaseFull))
        else if !IsOpen(c) && side == MemberSide && OpenCount(s.cases, c.opener) >= OPEN_CASES then
          Stepped(s, Refused(OpenLimit))
        else if !IsOpen(c) && (Taken(s.cases, lineId) || lineId == messageId) then Stepped(s, Conflict)
        else Stepped(s.(cases := s.cases[k := Replied(c, actor.user, body, messageId, lineId, now)]), Saved)
  }

  /** A case after a close, or an officer's Reopen. */
  function Switched(c: Case, close: bool, user: nat, lineId: Id, now: int): Case {
    var side := SideIn(c.opener, user);
    c.(state := if close then ClosedCase else Officers, since := now, activeAt := now,
       closedAt := if close then Some(now) else None,
       deleteAfter := if close then Some(now + RETENTION) else None,
       revision := c.revision + 1,
       thread := c.thread + [Entry(lineId, if close then Closed else Reopened, user, side, "", now)])
  }

  /** `changeState`. */
  function Change(s: Store, actor: Actor, number: nat, revision: nat, close: bool, lineId: Id, now: int): Stepped {
    var k := Numbered(s.cases, number);
    if k == |s.cases| || !MayAccess(actor, s.cases[k].opener) then Stepped(s, NotFound)
    else
      var c := s.cases[k];
      var side := SideIn(c.opener, actor.user);
      if side == OfficerSide && !actor.respond then Stepped(s, Forbidden)
      else if !close && side == MemberSide then Stepped(s, Forbidden)
      else if close == !IsOpen(c) then Stepped(s, Unchanged)
      else if c.revision != revision then Stepped(s, Conflict)
      else if Taken(s.cases, lineId) then Stepped(s, Fault)
      else Stepped(s.(cases := s.cases[k := Switched(c, close, actor.user, lineId, now)]), Saved)
  }

  predicate Expired(c: Case, now: int) { c.deleteAfter.Some? && c.deleteAfter.value < now }

  /** `pruneModMail`: the cases kept. */
  function Kept(cases: seq<Case>, now: int): seq<Case> {
    if cases == [] then []
    else (if Expired(cases[0], now) then [] else [cases[0]]) + Kept(cases[1..], now)
  }

  datatype Event =
    | OpenForm(actor: Actor, topic: string, body: string, minted: Option<Id>, random: Id, messageId: Id, at: int)
    | ReplyForm(actor: Actor, number: nat, body: string, messageId: Id, lineId: Id, at: int)
    | ChangeForm(actor: Actor, number: nat, revision: nat, close: bool, lineId: Id, at: int)
    | Prune(at: int)
    | Enable(on: bool, at: int)

  function Step(s: Store, event: Event): Stepped {
    match event
    case OpenForm(actor, topic, body, minted, random, messageId, at) =>
      Open(s, actor, topic, body, minted, random, messageId, at)
    case ReplyForm(actor, number, body, messageId, lineId, at) => Reply(s, actor, number, body, messageId, lineId, at)
    case ChangeForm(actor, number, revision, close, lineId, at) => Change(s, actor, number, revision, close, lineId, at)
    case Prune(at) => Stepped(s.(cases := Kept(s.cases, at)), Saved)
    case Enable(on, _) => Stepped(s.(enabled := on), Saved)
  }

  function Run(s: Store, events: seq<Event>): Store
    decreases |events|
  {
    if events == [] then s else Run(Step(s, events[0]).store, events[1..])
  }
}
