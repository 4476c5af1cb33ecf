/** What each mod mail form is answered and changes, read off the stored cases and the actor. */
module ModMailAnswers {
  import opened Options
  import opened ModMailCases
  import opened ModMailInvariants
  import opened ModMailRuns
  import opened ModMailLimits

  /** The actor reads the inbox, or opened the case and may use mod mail. */
  predicate Reaches(actor: Actor, c: Case) { actor.inbox || (actor.user == c.opener && actor.mayUse) }

  /** What is wrong with a text: nothing, or it is empty, over-long or can't be stored, in this order. */
  predicate Wrong(text: string, max: nat, problem: Problem) {
    match problem
    case Empty => |text| == 0
    case Long => |text| > max
    case Unsavable => 1 <= |text| <= max && '\0' in text
  }

  lemma TextProblemTells(text: string, max: nat)
    ensures TextProblem(text, max).None? <==> Writable(text, max)
    ensures TextProblem(text, max).Some? ==> Wrong(text, max, TextProblem(text, max).value)
  {
  }

  /** The places of a thread's messages. */
  function MessagePlaces(thread: seq<Entry>): set<nat> { set i: nat | i < |thread| && thread[i].kind == Message }

  lemma {:induction false} MessagesIsSize(thread: seq<Entry>)
    ensures Messages(thread) == |MessagePlaces(thread)|
  {
    if thread != [] {
      var n := |thread| - 1;
      MessagesIsSize(thread[..n]);
      var last: set<nat> := if thread[n].kind == Message then {n} else {};
      assert MessagePlaces(thread) == MessagePlaces(thread[..n]) + last;
    }
  }

  /** The entry's ID stands in some case's thread. */
  ghost predicate Used(cases: seq<Case>, id: Id) {
    exists j, i :: 0 <= j < |cases| && 0 <= i < |cases[j].thread| && cases[j].thread[i].id == id
  }

  lemma TakenIsUsed(cases: seq<Case>, id: Id)
    ensures Taken(cases, id) <==> Used(cases, id)
  {
    var k := Holder(cases, id);
    if k < |cases| {
      var i :| 0 <= i < |cases[k].thread| && cases[k].thread[i].id == id;
    }
    if j, i :| 0 <= j < |cases| && 0 <= i < |cases[j].thread| && cases[j].thread[i].id == id {
      assert HasEntry(cases[j].thread, id);
    }
  }

  lemma RepeatIsFound(cases: seq<Case>, number: nat, messageId: Id, user: nat, body: string)
    ensures var repeat := Repeated(cases, number, messageId, user, body); repeat.Some? ==> repeat.value != NotFound
  {
  }

  /** A form that names no case, or one the actor may not reach, finds nothing. */
  lemma HiddenCaseIsNotFound(s: Store, form: Event)
    requires StoreInv(s) && (form.ReplyForm? || form.ChangeForm?)
    ensures Step(s, form).outcome == NotFound <==>
      forall k :: 0 <= k < |s.cases| && s.cases[k].number == form.number ==> !Reaches(form.actor, s.cases[k])
    ensures Step(s, form).outcome == NotFound ==> Step(s, form).store == s
  {
    hide Messages, OpenCount, Taken, Repeated, TextProblem, CaseInv, Replied, Switched;
    var j := Numbered(s.cases, form.number);
    forall k | 0 <= k < |s.cases| && s.cases[k].number == form.number ensures k == j { NumberedIs(s.cases, k); }
    if form.ReplyForm? { RepeatIsFound(s.cases, form.number, form.messageId, form.actor.user, form.body); }
  }

  /** The case after a saved reply. */
  ghost predicate GotReply(c: Case, form: Event, after: Case)
    requires form.ReplyForm?
  {
    var side := if form.actor.user == c.opener then MemberSide else OfficerSide;
    var message := Entry(form.messageId, Message, form.actor.user, side, form.body, form.at);
    var line := Entry(form.lineId, Reopened, form.actor.user, side, "", form.at);
    var next := if side == MemberSide then Officers else Member;
    && after.thread == c.thread + (if c.state == ClosedCase then [line, message] else [message])
    && after.state == next && after.since == (if c.state == next then c.since else form.at)
    && after == c.(state := after.state, since := after.since, activeAt := form.at, closedAt := None,
                   deleteAfter := None, revision := c.revision + 1, thread := after.thread)
  }

  /** A reply's answer where its message's ID already stands: nothing changes, and its own sender is told how. */
  ghost predicate AnswersRepeat(s: Store, k: nat, form: Event, r: Stepped)
    requires form.ReplyForm? && k < |s.cases|
  {
    r.store == s
    && forall j, i ::
         0 <= j < |s.cases| && 0 <= i < |s.cases[j].thread| && s.cases[j].thread[i].id == form.messageId ==>
         var e := s.cases[j].thread[i];
         r.outcome == if j != k || e.author != form.actor.user then Conflict
                      else if e.kind == Message && e.text == form.body then Unchanged else Resent
  }

  /** Every answer to a reply on a case the actor reaches. */
  lemma ReplyAnswers(s: Store, form: Event, k: nat)
    requires StoreInv(s) && form.ReplyForm? && k < |s.cases|
    requires s.cases[k].number == form.number && Reaches(form.actor, s.cases[k])
    ensures var c, r := s.cases[k], Step(s, form);
      var member := form.actor.user == c.opener;
      if !Writable(form.body, 4000) then
        r.store == s && r.outcome.Invalid? && Wrong(form.body, 4000, r.outcome.problem)
      else if !member && !form.actor.respond then r == Stepped(s, Forbidden)
      else if Used(s.cases, form.messageId) then AnswersRepeat(s, k, form, r)
      else if |MessagePlaces(c.thread)| >= 500 then r == Stepped(s, Refused(CaseFull))
      else if c.state == ClosedCase && member && |OpenCases(s.cases, c.opener)| >= 3 then
        r == Stepped(s, Refused(OpenLimit))
      else if c.state == ClosedCase && (Used(s.cases, form.lineId) || form.lineId == form.messageId) then
        r == Stepped(s, Conflict)
      else
        && r.outcome == Saved && |r.store.cases| == |s.cases| && GotReply(c, form, r.store.cases[k])
        && r.store == s.(cases := s.cases[k := r.store.cases[k]])
  {
    var c := s.cases[k];
    NumberedIs(s.cases, k);
    TextProblemTells(form.body, 4000);
    TakenIsUsed(s.cases, form.messageId);
    TakenIsUsed(s.cases, form.lineId);
    MessagesIsSize(c.thread);
    OpenCountIsSize(s.cases, c.opener);
    if Used(s.cases, form.messageId) { RepeatAnswers(s, k, form); }
    ReplyGets(c, form);
    hide Messages, OpenCount, Used, Taken, Repeated, TextProblem, CaseInv, AllApart, Replied, GotReply, AnswersRepeat;
  }

  lemma ReplyGets(c: Case, form: Event)
    requires form.ReplyForm?
    ensures GotReply(c, form, Replied(c, form.actor.user, form.body, form.messageId, form.lineId, form.at))
  {
    var after := Replied(c, form.actor.user, form.body, form.messageId, form.lineId, form.at);
  }

  lemma RepeatAnswers(s: Store, k: nat, form: Event)
    requires StoreInv(s) && form.ReplyForm? && k < |s.cases| && s.cases[k].number == form.number
    requires Used(s.cases, form.messageId)
    ensures var repeat := Repeated(s.cases, form.number, form.messageId, form.actor.user, form.body);
      repeat.Some? && AnswersRepeat(s, k, form, Stepped(s, repeat.value))
  {
    TakenIsUsed(s.cases, form.messageId);
    forall j, i | 0 <= j < |s.cases| && 0 <= i < |s.cases[j].thread| && s.cases[j].thread[i].id == form.messageId
      ensures Holder(s.cases, form.messageId) == j && EntryAt(s.cases[j].thread, form.messageId) == i
      ensures s.cases[j].number == form.number <==> j == k
    {
      assert HasEntry(s.cases[j].thread, form.messageId);
      HolderIs(s, j, form.messageId);
      assert CaseInv(s.cases[j]);
      NumberedIs(s.cases, j);
      NumberedIs(s.cases, k);
    }
  }

  /** The case after a saved close or Reopen. */
  ghost predicate GotSwitch(c: Case, form: Event, after: Case)
    requires form.ChangeForm?
  {
    var side := if form.actor.user == c.opener then MemberSide else OfficerSide;
    after == c.(state := if form.close then ClosedCase else Officers, since := form.at, activeAt := form.at,
                closedAt := if form.close then Some(form.at) else None,
                deleteAfter := if form.close then Some(form.at + 90 * 86400) else None,
                revision := c.revision + 1,
                thread := c.thread + [Entry(form.lineId, if form.close then Closed else Reopened, form.actor.user, side,
                                            "", form.at)])
  }

  /** Every answer to a close or a Reopen of a case the actor reaches. */
  lemma ChangeAnswers(s: Store, form: Event, k: nat)
    requires StoreInv(s) && form.ChangeForm? && k < |s.cases|
    requires s.cases[k].number == form.number && Reaches(form.actor, s.cases[k])
    ensures var c, r := s.cases[k], Step(s, form);
      var member := form.actor.user == c.opener;
      if (if member then !form.close else !form.actor.respond) then r == Stepped(s, Forbidden)
      else if form.close == (c.state == ClosedCase) then r == Stepped(s, Unchanged)
      else if form.revision != c.revision then r == Stepped(s, Conflict)
      else if Used(s.cases, form.lineId) then r == Stepped(s, Fault)
      else
        && r.outcome == Saved && |r.store.cases| == |s.cases| && GotSwitch(c, form, r.store.cases[k])
        && r.store == s.(cases := s.cases[k := r.store.cases[k]])
  {
    NumberedIs(s.cases, k);
    TakenIsUsed(s.cases, form.lineId);
    hide Used, Taken, CaseInv, AllApart;
  }

  /** What a minted ID that names a case is answered: its number to its own opener, told apart by the text. */
  lemma RepeatedOpenAnswers(s: Store, form: Event, k: nat)
    requires StoreInv(s) && form.OpenForm? && k < |s.cases| && form.minted == Some(s.cases[k].id)
    requires !form.actor.paused && form.actor.mayUse && Writable(form.topic, 100) && Writable(form.body, 4000)
    ensures var c, r := s.cases[k], Step(s, form);
      && r.store == s
      && r.outcome == if c.opener != form.actor.user then Conflict
                      else if c.topic == form.topic && c.thread != [] && c.thread[0].text == form.body
                      then Opened(c.number)
                      else AlreadyOpened(c.number)
  {
    var c := s.cases[k];
    assert CaseInv(c);
    NamedIn(s, c.number, c);
    NumberedIs(s.cases, k);
    IdentifiedIs(s, c.number);
    TextProblemTells(form.topic, 100);
    TextProblemTells(form.body, 4000);
    assert Opening(c.thread) == Some(c.thread[0]);
    hide OpenCount, DailyCount, Taken, TextProblem, CaseInv, AllApart;
  }

  /** The first tests of an open form, in their order, and what an opened case is. */
  lemma OpenAnswers(s: Store, form: Event)
    requires form.OpenForm?
    ensures var r := Step(s, form);
      && (form.actor.paused ==> r == Stepped(s, Refused(Paused)))
      && (!form.actor.paused && !form.actor.mayUse ==> r == Stepped(s, Refused(NotAllowed)))
      && (!form.actor.paused && form.actor.mayUse && !(Writable(form.topic, 100) && Writable(form.body, 4000)) ==>
           && r.store == s && r.outcome.Invalid?
           && if Writable(form.topic, 100) then Wrong(form.body, 4000, r.outcome.problem)
              else Wrong(form.topic, 100, r.outcome.problem))
      && (ReachesLimits(s.(enabled := true), form) && !s.enabled ==> r == Stepped(s, Refused(Off)))
  {
    TextProblemTells(form.topic, 100);
    TextProblemTells(form.body, 4000);
    hide OpenCount, DailyCount, Taken, TextProblem;
  }

  /** An open form within the limits opens a case with the next number, unless one of its IDs is taken. */
  lemma OpenedCase(s: Store, form: Event)
    requires ReachesLimits(s, form)
    requires |OpenCases(s.cases, form.actor.user)| < 3
    requires |OpenedAfter(s.cases, form.actor.user, form.at - 86400)| < 5
    ensures var r, number := Step(s, form), s.lastNumber + 1;
      var id := if form.minted.Some? then form.minted.value else form.random;
      if (exists k :: 0 <= k < |s.cases| && s.cases[k].id == id) || Used(s.cases, form.messageId) then
        r == Stepped(s, Fault)
      else
        var first := Entry(form.messageId, Message, form.actor.user, MemberSide, form.body, form.at);
        var newest := Case(id, number, form.actor.user, form.topic, form.at, Officers, form.at, form.at, None, None, 1,
                           [first]);
        r == Stepped(s.(cases := s.cases + [newest], lastNumber := number), Opened(number))
  {
    var id := if form.minted.Some? then form.minted.value else form.random;
    OpenCountIsSize(s.cases, form.actor.user);
    DailyCountIsSize(s.cases, form.actor.user, form.at);
    TakenIsUsed(s.cases, form.messageId);
    var k := Identified(s.cases, id);
    assert k < |s.cases| ==> s.cases[k].id == id;
    hide OpenCount, DailyCount, Taken, Used;
  }

  /** Retention deletes exactly the cases past their date, and keeps the others in their order. */
  lemma PruneKeepsTheRest(s: Store, now: int)
    requires StoreInv(s)
    ensures var after := Step(s, Prune(now)).store;
      && (forall c :: c in after.cases <==> c in s.cases && !(c.deleteAfter.Some? && c.deleteAfter.value < now))
      && (forall i, j :: 0 <= i < j < |after.cases| ==> after.cases[i].number < after.cases[j].number)
      && after == s.(cases := after.cases)
  {
    KeptIsSubset(s.cases, now);
    hide CaseInv;
    assert forall i, j :: 0 <= i < j < |Kept(s.cases, now)| ==> Apart(Kept(s.cases, now)[i], Kept(s.cases, now)[j]);
  }

  /** The switch changes nothing but itself. */
  lemma SwitchTakes(s: Store, on: bool, at: int)
    ensures Step(s, Enable(on, at)).store == s.(enabled := on)
  {
  }
}
