/** What every mod mail form keeps, case by case and over the whole store. */
module ModMailInvariants {
  import opened Options
  import opened ModMailCases

  /** The state a thread's last entry leaves its case in. */
  function StateAfter(last: Entry): CaseState {
    match last.kind
    case Closed => ClosedCase
    case Reopened => Officers
    case Message => AfterReply(last.side)
  }

  function Last(thread: seq<Entry>): Entry
    requires thread != []
  {
    thread[|thread| - 1]
  }

  /** A reopened line stands exactly behind a closed one, so the two alternate. */
  ghost predicate Alternates(thread: seq<Entry>) {
    && thread != [] && thread[0].kind == Message
    && forall i :: 1 <= i < |thread| ==> (thread[i].kind == Reopened <==> thread[i - 1].kind == Closed)
  }

  ghost predicate Sides(c: Case) {
    forall i :: 0 <= i < |c.thread| ==> c.thread[i].side == SideIn(c.opener, c.thread[i].author)
  }

  ghost predicate DistinctEntries(thread: seq<Entry>) {
    forall i, j :: 0 <= i < j < |thread| ==> thread[i].id != thread[j].id
  }

  /** A case's columns are decided by its thread's last entry. */
  ghost predicate CaseInv(c: Case) {
    && Alternates(c.thread) && Sides(c) && DistinctEntries(c.thread)
    && c.state == StateAfter(Last(c.thread))
    && c.closedAt == (if c.state == ClosedCase then Some(Last(c.thread).at) else None)
    && c.deleteAfter == (if c.state == ClosedCase then Some(Last(c.thread).at + RETENTION) else None)
    && Messages(c.thread) <= MESSAGES_PER_CASE
  }

  ghost predicate Apart(a: Case, b: Case) {
    && a.number < b.number && a.id != b.id
    && forall id :: HasEntry(a.thread, id) ==> !HasEntry(b.thread, id)
  }

  ghost predicate AllApart(cases: seq<Case>) {
    forall i, j :: 0 <= i < j < |cases| ==> Apart(cases[i], cases[j])
  }

  ghost predicate StoreInv(s: Store) {
    && AllApart(s.cases)
    && forall k :: 0 <= k < |s.cases| ==> CaseInv(s.cases[k]) && 1 <= s.cases[k].number <= s.lastNumber
  }

  lemma HasEntryAppended(thread: seq<Entry>, e: Entry, id: Id)
    ensures HasEntry(thread + [e], id) <==> HasEntry(thread, id) || id == e.id
  {
    var more := thread + [e];
    assert more[|thread|] == e;
    if HasEntry(thread, id) {
      var k :| 0 <= k < |thread| && thread[k].id == id;
      assert more[k].id == id;
    }
  }

  lemma AppendMessages(thread: seq<Entry>, e: Entry)
    ensures Messages(thread + [e]) == Messages(thread) + if e.kind == Message then 1 else 0
  {
    assert (thread + [e])[..|thread|] == thread;
  }

  /** Appending what the state allows keeps a thread well formed. */
  lemma Append(c: Case, e: Entry)
    requires CaseInv(c) && e.side == SideIn(c.opener, e.author) && !HasEntry(c.thread, e.id)
    requires e.kind == Reopened <==> c.state == ClosedCase
    ensures Alternates(c.thread + [e]) && DistinctEntries(c.thread + [e]) && Sides(c.(thread := c.thread + [e]))
  {
    forall i | 0 <= i < |c.thread| ensures c.thread[i].id != e.id {}
  }

  lemma ReplyKeepsCase(c: Case, user: nat, body: string, messageId: Id, lineId: Id, now: int)
    requires CaseInv(c) && Messages(c.thread) < MESSAGES_PER_CASE && !HasEntry(c.thread, messageId)
    requires !IsOpen(c) ==> !HasEntry(c.thread, lineId) && lineId != messageId
    ensures CaseInv(Replied(c, user, body, messageId, lineId, now))
  {
    var side := SideIn(c.opener, user);
    var line := Entry(lineId, Reopened, user, side, "", now);
    var message := Entry(messageId, Message, user, side, body, now);
    if IsOpen(c) {
      Append(c, message);
      AppendMessages(c.thread, message);
      assert c.thread + [] + [message] == c.thread + [message];
    } else {
      var reopened := c.(state := Officers, closedAt := None, deleteAfter := None, thread := c.thread + [line]);
      Append(c, line);
      AppendMessages(c.thread, line);
      HasEntryAppended(c.thread, line, messageId);
      Append(reopened, message);
      AppendMessages(reopened.thread, message);
    }
  }

  lemma SwitchKeepsCase(c: Case, close: bool, user: nat, lineId: Id, now: int)
    requires CaseInv(c) && close == IsOpen(c) && !HasEntry(c.thread, lineId)
    ensures CaseInv(Switched(c, close, user, lineId, now))
  {
    var e := Entry(lineId, if close then Closed else Reopened, user, SideIn(c.opener, user), "", now);
    Append(c, e);
    AppendMessages(c.thread, e);
  }

  /** A case's thread grew by entries with these IDs only. */
  ghost predicate GrewBy(c: Case, after: Case, a: Id, b: Id) {
    && after.number == c.number && after.id == c.id
    && forall id :: HasEntry(after.thread, id) ==> HasEntry(c.thread, id) || id == a || id == b
  }

  lemma ReplyGrewBy(c: Case, user: nat, body: string, messageId: Id, lineId: Id, now: int)
    ensures GrewBy(c, Replied(c, user, body, messageId, lineId, now), messageId,
                   if IsOpen(c) then messageId else lineId)
  {
    var side := SideIn(c.opener, user);
    var line := Entry(lineId, Reopened, user, side, "", now);
    var message := Entry(messageId, Message, user, side, body, now);
    forall id ensures HasEntry(c.thread + [line], id) <==> HasEntry(c.thread, id) || id == lineId {
      HasEntryAppended(c.thread, line, id);
    }
    assert c.thread + [] == c.thread;
    forall id ensures HasEntry(Replied(c, user, body, messageId, lineId, now).thread, id) ==>
      HasEntry(c.thread, id) || id == messageId || (!IsOpen(c) && id == lineId)
    {
      HasEntryAppended(if IsOpen(c) then c.thread else c.thread + [line], message, id);
    }
  }

  /** Writing fresh entries to one case keeps the store. */
  lemma UpdateKeepsStore(s: Store, k: nat, after: Case, a: Id, b: Id)
    requires StoreInv(s) && k < |s.cases| && CaseInv(after) && GrewBy(s.cases[k], after, a, b)
    requires !Taken(s.cases, a) && !Taken(s.cases, b)
    ensures StoreInv(s.(cases := s.cases[k := after]))
  {
    var cases := s.cases[k := after];
    forall i, j | 0 <= i < j < |cases| ensures Apart(cases[i], cases[j]) {
      assert Apart(s.cases[i], s.cases[j]);
      assert !HasEntry(s.cases[i].thread, a) && !HasEntry(s.cases[i].thread, b);
      assert !HasEntry(s.cases[j].thread, a) && !HasEntry(s.cases[j].thread, b);
    }
  }

  lemma OpenKeepsStore(s: Store, user: nat, topic: string, body: string, caseId: Id, messageId: Id, now: int)
    requires StoreInv(s) && Identified(s.cases, caseId) == |s.cases| && !Taken(s.cases, messageId)
    ensures var c := NewCase(s.lastNumber + 1, user, topic, body, caseId, messageId, now);
      StoreInv(s.(cases := s.cases + [c], lastNumber := s.lastNumber + 1))
  {
    var c := NewCase(s.lastNumber + 1, user, topic, body, caseId, messageId, now);
    var e := c.thread[0];
    AppendMessages([], e);
    assert [] + [e] == c.thread;
    forall i | 0 <= i < |s.cases| ensures Apart(s.cases[i], c) {
      assert s.cases[i].id != caseId && !HasEntry(s.cases[i].thread, messageId);
      forall id | HasEntry(c.thread, id) ensures id == messageId {}
    }
  }

  lemma {:induction false} KeptIsSubset(cases: seq<Case>, now: int)
    ensures forall c :: c in Kept(cases, now) <==> c in cases && !Expired(c, now)
    ensures AllApart(cases) ==> AllApart(Kept(cases, now))
  {
    if cases != [] {
      var rest := Kept(cases[1..], now);
      KeptIsSubset(cases[1..], now);
      assert forall c :: c in cases <==> c == cases[0] || c in cases[1..];
      if AllApart(cases) {
        assert AllApart(cases[1..]);
        forall j | 0 <= j < |rest| ensures Apart(cases[0], rest[j]) {
          assert rest[j] in cases[1..];
          var m :| 0 <= m < |cases[1..]| && cases[1..][m] == rest[j];
          assert cases[m + 1] == rest[j];
        }
      }
    }
  }

  lemma PruneKeepsStore(s: Store, now: int)
    requires StoreInv(s)
    ensures StoreInv(s.(cases := Kept(s.cases, now)))
  {
    KeptIsSubset(s.cases, now);
    var kept := Kept(s.cases, now);
    forall k | 0 <= k < |kept| ensures CaseInv(kept[k]) && 1 <= kept[k].number <= s.lastNumber {
      assert kept[k] in s.cases;
    }
  }

  lemma StepKeepsStore(s: Store, event: Event)
    requires StoreInv(s)
    ensures StoreInv(Step(s, event).store)
  {
    hide CaseInv, Apart, HasEntry, Replied, Switched;
    match event
    case OpenForm(actor, topic, body, minted, random, messageId, at) =>
      var caseId := if minted.Some? then minted.value else random;
      if Identified(s.cases, caseId) == |s.cases| && !Taken(s.cases, messageId) {
        OpenKeepsStore(s, actor.user, topic, body, caseId, messageId, at);
      }
    case ReplyForm(actor, number, body, messageId, lineId, at) =>
      if Step(s, event).outcome == Saved { ReplyKeepsStore(s, actor, number, body, messageId, lineId, at); }
    case ChangeForm(actor, number, revision, close, lineId, at) =>
      if Step(s, event).outcome == Saved { ChangeKeepsStore(s, actor, number, revision, close, lineId, at); }
    case Prune(at) => PruneKeepsStore(s, at);
    case Enable(_, _) =>
  }

  lemma ReplyKeepsStore(s: Store, actor: Actor, number: nat, body: string, messageId: Id, lineId: Id, now: int)
    requires StoreInv(s) && Reply(s, actor, number, body, messageId, lineId, now).outcome == Saved
    ensures StoreInv(Reply(s, actor, number, body, messageId, lineId, now).store)
  {
    hide CaseInv, HasEntry, Replied;
    var k := Numbered(s.cases, number);
    var c := s.cases[k];
    ReplyKeepsCase(c, actor.user, body, messageId, lineId, now);
    ReplyGrewBy(c, actor.user, body, messageId, lineId, now);
    UpdateKeepsStore(s, k, Replied(c, actor.user, body, messageId, lineId, now), messageId,
                     if IsOpen(c) then messageId else lineId);
  }

  lemma ChangeKeepsStore(s: Store, actor: Actor, number: nat, revision: nat, close: bool, lineId: Id, now: int)
    requires StoreInv(s) && Change(s, actor, number, revision, close, lineId, now).outcome == Saved
    ensures StoreInv(Change(s, actor, number, revision, close, lineId, now).store)
  {
    hide CaseInv;
    var k := Numbered(s.cases, number);
    var c := s.cases[k];
    var after := Switched(c, close, actor.user, lineId, now);
    SwitchKeepsCase(c, close, actor.user, lineId, now);
    assert GrewBy(c, after, lineId, lineId) by {
      forall id ensures HasEntry(after.thread, id) <==> HasEntry(c.thread, id) || id == lineId {
        HasEntryAppended(c.thread, Last(after.thread), id);
      }
    }
    UpdateKeepsStore(s, k, after, lineId, lineId);
  }

  lemma {:induction false} RunKeepsStore(s: Store, events: seq<Event>)
    requires StoreInv(s)
    ensures StoreInv(Run(s, events))
    decreases |events|
  {
    if events != [] {
      StepKeepsStore(s, events[0]);
      RunKeepsStore(Step(s, events[0]).store, events[1..]);
    }
  }
}
