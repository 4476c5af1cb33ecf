/** What holds of mod mail over whole runs of forms and retention. */
module ModMailRuns {
  import opened Options
  import opened ModMailCases
  import opened ModMailInvariants

  /** The case a number names, while it exists. */
  function Named(s: Store, number: nat): Option<Case> {
    if Numbered(s.cases, number) < |s.cases| then Some(s.cases[Numbered(s.cases, number)]) else None
  }

  /** Nothing of an earlier view is lost: the thread only grows, and never without a new revision. */
  ghost predicate Later(c: Case, after: Case) {
    && after.id == c.id && after.number == c.number && after.opener == c.opener && after.topic == c.topic
    && (after == c || (c.revision < after.revision && c.thread < after.thread))
  }

  /** What one step may make of the case a number names. */
  ghost predicate Evolves(before: Option<Case>, after: Option<Case>, event: Event) {
    if before.None? then after.Some? ==> event.OpenForm?
    else
      || (after.None? && event.Prune? && Expired(before.value, event.at))
      || (after.Some? && Later(before.value, after.value)
          && (after != before ==> event.ReplyForm? || event.ChangeForm?)
          && (after != before && after.value.closedAt.Some? ==> after.value.closedAt == Some(event.at)))
  }

  lemma NumberedIs(cases: seq<Case>, k: nat)
    requires AllApart(cases) && k < |cases|
    ensures Numbered(cases, cases[k].number) == k
  {
    var j := Numbered(cases, cases[k].number);
    assert j <= k;
    assert j < k ==> Apart(cases[j], cases[k]);
  }

  lemma {:induction false} NamedIn(s: Store, number: nat, c: Case)
    requires StoreInv(s)
    ensures Named(s, number) == Some(c) <==> c in s.cases && c.number == number
  {
    if c in s.cases && c.number == number {
      var k :| 0 <= k < |s.cases| && s.cases[k] == c;
      NumberedIs(s.cases, k);
    }
  }

  lemma ReplyIsLater(c: Case, user: nat, body: string, messageId: Id, lineId: Id, now: int)
    ensures Later(c, Replied(c, user, body, messageId, lineId, now))
    ensures HasEntry(Replied(c, user, body, messageId, lineId, now).thread, messageId)
    ensures Replied(c, user, body, messageId, lineId, now).number == c.number
    ensures Replied(c, user, body, messageId, lineId, now).closedAt.None?
  {
    var after := Replied(c, user, body, messageId, lineId, now);
    assert after.thread[|after.thread| - 1].id == messageId;
  }

  lemma UpdateNamed(s: Store, k: nat, after: Case, number: nat)
    requires StoreInv(s) && k < |s.cases| && after.number == s.cases[k].number
    requires StoreInv(s.(cases := s.cases[k := after]))
    ensures Named(s.(cases := s.cases[k := after]), number)
         == if number == after.number then Some(after) else Named(s, number)
  {
    hide CaseInv, Apart;
    var t := s.(cases := s.cases[k := after]);
    NumberedIs(s.cases, k);
    NumberedIs(t.cases, k);
    if number != after.number && Named(s, number).Some? {
      var j := Numbered(s.cases, number);
      NumberedIs(t.cases, j);
    }
  }

  /** One form changes at most the one case it names, adding to its thread; retention only deletes. */
  lemma StepEvolves(s: Store, event: Event, number: nat)
    requires StoreInv(s)
    ensures Evolves(Named(s, number), Named(Step(s, event).store, number), event)
    ensures s.lastNumber <= Step(s, event).store.lastNumber
    ensures Named(s, number).None? && number <= s.lastNumber ==> Named(Step(s, event).store, number).None?
  {
    hide CaseInv, Apart, HasEntry, AllApart;
    var after := Step(s, event).store;
    StepKeepsStore(s, event);
    match event
    case OpenForm(_, _, _, _, _, _, _) =>
      if after != s { OpenNamed(s, after, number); }
    case ReplyForm(_, _, _, _, _, _) =>
      if after != s { ReplyNamed(s, event, number); }
    case ChangeForm(_, _, _, _, _, _) =>
      if after != s { ChangeNamed(s, event, number); }
    case Prune(at) => PruneNamed(s, at, number);
    case Enable(_, _) =>
  }

  lemma ReplyNamed(s: Store, event: Event, number: nat)
    requires StoreInv(s) && event.ReplyForm? && Step(s, event).store != s
    ensures Evolves(Named(s, number), Named(Step(s, event).store, number), event)
    ensures Named(s, number).None? ==> Named(Step(s, event).store, number).None?
  {
    hide CaseInv, Apart, HasEntry, AllApart, Later, Replied;
    var after := Step(s, event).store;
    var k := Numbered(s.cases, event.number);
    StepKeepsStore(s, event);
    ReplyIsLater(s.cases[k], event.actor.user, event.body, event.messageId, event.lineId, event.at);
    UpdateNamed(s, k, after.cases[k], number);
    if Named(s, number).Some? { StaysLater(Named(s, number).value); }
  }

  lemma ChangeNamed(s: Store, event: Event, number: nat)
    requires StoreInv(s) && event.ChangeForm? && Step(s, event).store != s
    ensures Evolves(Named(s, number), Named(Step(s, event).store, number), event)
    ensures Named(s, number).None? ==> Named(Step(s, event).store, number).None?
  {
    hide CaseInv, Apart, HasEntry, AllApart;
    var after := Step(s, event).store;
    var k := Numbered(s.cases, event.number);
    StepKeepsStore(s, event);
    UpdateNamed(s, k, after.cases[k], number);
  }

  lemma StaysLater(c: Case)
    ensures Later(c, c)
  {
  }

  lemma OpenNamed(s: Store, after: Store, number: nat)
    requires StoreInv(s) && StoreInv(after) && after.lastNumber == s.lastNumber + 1
    requires exists c: Case :: after.cases == s.cases + [c] && c.number == after.lastNumber
    ensures number <= s.lastNumber ==> Named(after, number) == Named(s, number)
    ensures number > s.lastNumber ==> Named(s, number).None?
  {
    hide CaseInv, Apart;
    var k := Numbered(s.cases, number);
    if k < |s.cases| { NumberedIs(after.cases, k); }
    else if Named(after, number).Some? {
      var j := Numbered(after.cases, number);
      assert j == |s.cases|;
    }
  }

  lemma PruneNamed(s: Store, at: int, number: nat)
    requires StoreInv(s)
    ensures var after := Named(s.(cases := Kept(s.cases, at)), number);
      after == if Named(s, number).Some? && Expired(Named(s, number).value, at) then None else Named(s, number)
  {
    hide CaseInv, Apart;
    KeptIsSubset(s.cases, at);
    PruneKeepsStore(s, at);
    var t := s.(cases := Kept(s.cases, at));
    if Named(s, number).Some? {
      var c := Named(s, number).value;
      NamedIn(s, number, c);
      NamedIn(t, number, c);
      if Named(t, number).Some? {
        NamedIn(t, number, Named(t, number).value);
        NamedIn(s, number, Named(t, number).value);
      }
    } else if Named(t, number).Some? {
      NamedIn(t, number, Named(t, number).value);
      NamedIn(s, number, Named(t, number).value);
    }
  }

  /**
   * Over any run a case's number keeps naming that case or nothing: its thread only grows, each
   * growth with a new revision, and once deleted the number is never used again.
   */
  lemma {:induction false} RunEvolves(s: Store, events: seq<Event>, number: nat)
    requires StoreInv(s) && number <= s.lastNumber
    ensures var after := Named(Run(s, events), number);
      && (after.Some? ==> Named(s, number).Some? && Later(Named(s, number).value, after.value))
      && s.lastNumber <= Run(s, events).lastNumber
    decreases |events|
  {
    if events != [] {
      hide CaseInv, AllApart, StoreInv, Numbered;
      StepKeepsStore(s, events[0]);
      StepEvolves(s, events[0], number);
      RunEvolves(Step(s, events[0]).store, events[1..], number);
    }
  }

  /**
   * A close or reopen that saves with the revision a page showed has lost nothing: no entry was
   * added since that page, whatever happened in between, and the new line goes right behind it.
   */
  lemma SavedChangeLosesNothing(s: Store, events: seq<Event>, change: Event)
    requires StoreInv(s) && change.ChangeForm?
    requires Named(s, change.number).Some? && Named(s, change.number).value.revision == change.revision
    requires Step(Run(s, events), change).outcome == Saved
    ensures var shown := Named(s, change.number).value;
      var now := Run(s, events);
      && Named(now, change.number) == Some(shown)
      && Named(Step(now, change).store, change.number) ==
           Some(Switched(shown, change.close, change.actor.user, change.lineId, change.at))
  {
    var number := change.number;
    var shown := Named(s, number).value;
    NamedIn(s, number, shown);
    RunEvolves(s, events, number);
    RunKeepsStore(s, events);
    var now := Run(s, events);
    StepKeepsStore(now, change);
    var k := Numbered(now.cases, number);
    UpdateNamed(now, k, Step(now, change).store.cases[k], number);
  }

  lemma HasEntryLater(c: Case, after: Case, id: Id)
    requires Later(c, after) && HasEntry(c.thread, id)
    ensures HasEntry(after.thread, id)
    ensures DistinctEntries(after.thread) ==>
      after.thread[EntryAt(after.thread, id)] == c.thread[EntryAt(c.thread, id)]
  {
    var k := EntryAt(c.thread, id);
    assert after.thread[k] == c.thread[k];
  }

  lemma HolderIs(s: Store, k: nat, id: Id)
    requires StoreInv(s) && k < |s.cases| && HasEntry(s.cases[k].thread, id)
    ensures Holder(s.cases, id) == k
  {
    var j := Holder(s.cases, id);
    assert j <= k;
    assert j < k ==> Apart(s.cases[j], s.cases[k]);
  }

  /**
   * A reply form sent again, at any later point, never changes anything: its message is there once.
   * Its sender is told so (unchanged, or resent when the text was edited) while they may still write.
   */
  lemma ResentReplyChangesNothing(s: Store, form: Event, events: seq<Event>, again: Event)
    requires StoreInv(s) && form.ReplyForm? && Step(s, form).outcome == Saved
    requires again.ReplyForm? && again.number == form.number && again.messageId == form.messageId
    ensures var later := Run(Step(s, form).store, events);
      && Step(later, again).store == later
      && (Named(later, form.number).Some? && MayAccess(again.actor, Named(later, form.number).value.opener)
          && again.actor.user == form.actor.user && again.actor.respond
          && TextProblem(again.body, MESSAGE_CHARS).None? ==>
            Step(later, again).outcome == if again.body == form.body then Unchanged else Resent)
  {
    hide CaseInv, AllApart, Replied, Repeated, TextProblem;
    var sent := Step(s, form).store;
    var later := Run(sent, events);
    var k := Numbered(s.cases, form.number);
    var c := s.cases[k];
    var written := Replied(c, form.actor.user, form.body, form.messageId, form.lineId, form.at);
    SavedReply(s, form);
    StepKeepsStore(s, form);
    RunKeepsStore(sent, events);
    ReplyIsLater(c, form.actor.user, form.body, form.messageId, form.lineId, form.at);
    NamedIn(s, form.number, c);
    UpdateNamed(s, k, written, form.number);
    RunEvolves(sent, events, form.number);
    if Named(later, form.number).Some? { ResendRepeats(c, form, later, again); }
  }

  lemma SavedReply(s: Store, form: Event)
    requires form.ReplyForm? && Step(s, form).outcome == Saved
    ensures var k := Numbered(s.cases, form.number);
      && k < |s.cases|
      && Step(s, form).store == s.(cases := s.cases[k := Replied(s.cases[k], form.actor.user, form.body, form.messageId,
                                                                  form.lineId, form.at)])
  {
  }

  lemma ResendRepeats(c: Case, form: Event, later: Store, again: Event)
    requires StoreInv(later) && form.ReplyForm? && CaseInv(c)
    requires again.ReplyForm? && again.number == form.number && again.messageId == form.messageId
    requires Named(later, form.number).Some?
    requires Later(Replied(c, form.actor.user, form.body, form.messageId, form.lineId, form.at),
                   Named(later, form.number).value)
    ensures var repeat := Repeated(later.cases, again.number, again.messageId, again.actor.user, again.body);
      && repeat.Some?
      && (again.actor.user == form.actor.user ==>
           repeat == Some(if again.body == form.body then Unchanged else Resent))
  {
    hide Apart, CaseInv, Later, Replied, HasEntry;
    var written := Replied(c, form.actor.user, form.body, form.messageId, form.lineId, form.at);
    var j := Numbered(later.cases, form.number);
    WrittenEntry(c, form);
    DistinctWithin(later, j, written);
    HasEntryLater(written, later.cases[j], form.messageId);
    HolderIs(later, j, form.messageId);
  }

  lemma DistinctWithin(later: Store, j: nat, written: Case)
    requires StoreInv(later) && j < |later.cases| && Later(written, later.cases[j])
    ensures DistinctEntries(later.cases[j].thread) && DistinctEntries(written.thread)
  {
    assert CaseInv(later.cases[j]);
    forall a, b | 0 <= a < b < |written.thread| ensures written.thread[a].id != written.thread[b].id {
      assert later.cases[j].thread[a] == written.thread[a] && later.cases[j].thread[b] == written.thread[b];
    }
  }

  lemma WrittenEntry(c: Case, form: Event)
    requires form.ReplyForm? && CaseInv(c)
    ensures var written := Replied(c, form.actor.user, form.body, form.messageId, form.lineId, form.at);
      && HasEntry(written.thread, form.messageId)
      && (DistinctEntries(written.thread) ==>
          var e := written.thread[EntryAt(written.thread, form.messageId)];
          e.kind == Message && e.text == form.body && e.author == form.actor.user)
  {
    var written := Replied(c, form.actor.user, form.body, form.messageId, form.lineId, form.at);
    assert written.thread[|written.thread| - 1].id == form.messageId;
  }

  lemma IdentifiedIs(s: Store, number: nat)
    requires StoreInv(s) && Named(s, number).Some?
    ensures Identified(s.cases, Named(s, number).value.id) == Numbered(s.cases, number)
  {
    var k := Numbered(s.cases, number);
    var j := Identified(s.cases, s.cases[k].id);
    assert j <= k;
    assert j < k ==> Apart(s.cases[j], s.cases[k]);
  }

  /**
   * A web form that opened a case, sent again at any later point while that case exists, opens
   * nothing: its sender gets the case's number back, as opened when the text is the same.
   */
  lemma ResentOpenChangesNothing(s: Store, form: Event, events: seq<Event>, again: Event)
    requires StoreInv(s) && form.OpenForm? && form.minted.Some? && Step(s, form).store != s
    requires again.OpenForm? && again.minted == form.minted
    requires Named(Run(Step(s, form).store, events), s.lastNumber + 1).Some?
    ensures var later := Run(Step(s, form).store, events);
      && Step(later, again).store == later
      && (again == form ==> Step(later, again).outcome == Opened(s.lastNumber + 1))
  {
    hide CaseInv, AllApart, TextProblem;
    var number := s.lastNumber + 1;
    var sent := Step(s, form).store;
    var later := Run(sent, events);
    var c := sent.cases[|s.cases|];
    StepKeepsStore(s, form);
    NamedIn(sent, number, c);
    RunEvolves(sent, events, number);
    RunKeepsStore(sent, events);
    IdentifiedIs(later, number);
    var after := Named(later, number).value;
    assert c.thread <= after.thread;
    assert after.thread[0] == c.thread[0];
  }

  /** With the switch on and the limits not reached, it opens another case exactly when the first is gone. */
  lemma OpensAgainOnceGone(s: Store, form: Event, events: seq<Event>)
    requires form.OpenForm? && form.minted.Some? && Step(s, form).store != s
    requires var later := Run(Step(s, form).store, events);
      && later.enabled && !Taken(later.cases, form.messageId)
      && OpenCount(later.cases, form.actor.user) < OPEN_CASES
      && DailyCount(later.cases, form.actor.user, form.at) < DAILY_CASES
    ensures var later := Run(Step(s, form).store, events);
      Step(later, form).store != later <==>
        forall k :: 0 <= k < |later.cases| ==> later.cases[k].id != form.minted.value
  {
    hide TextProblem, Taken, OpenCount, DailyCount, NewCase;
    var later := Run(Step(s, form).store, events);
    var k := Identified(later.cases, form.minted.value);
    assert k < |later.cases| ==> later.cases[k].id == form.minted.value;
  }

  lemma {:induction false} CountUpdated(cases: seq<Case>, k: nat, after: Case, user: nat)
    requires k < |cases| && after.opener == cases[k].opener
    ensures OpenCount(cases[k := after], user) == OpenCount(cases, user)
      + (if after.opener == user && IsOpen(after) then 1 else 0)
      - (if after.opener == user && IsOpen(cases[k]) then 1 else 0)
  {
    if k == 0 {
      assert cases[0 := after][1..] == cases[1..];
    } else {
      assert cases[k := after][1..] == cases[1..][k - 1 := after];
      CountUpdated(cases[1..], k - 1, after, user);
    }
  }

  lemma {:induction false} CountAppended(cases: seq<Case>, c: Case, user: nat)
    ensures OpenCount(cases + [c], user) == OpenCount(cases, user) + if c.opener == user && IsOpen(c) then 1 else 0
  {
    if cases == [] {
      assert [c][1..] == [];
    } else {
      assert (cases + [c])[1..] == cases[1..] + [c];
      CountAppended(cases[1..], c, user);
    }
  }

  lemma {:induction false} CountKept(cases: seq<Case>, now: int, user: nat)
    ensures OpenCount(Kept(cases, now), user) <= OpenCount(cases, user)
  {
    if cases != [] {
      CountKept(cases[1..], now, user);
      var rest := Kept(cases[1..], now);
      assert ([cases[0]] + rest)[1..] == rest;
      assert [] + rest == rest;
    }
  }

  /**
   * No step of the member's own raises their open cases past the limit; only an officer's reply to,
   * or Reopen of, a closed case of theirs can.
   */
  lemma OnlyOfficersPassTheLimit(s: Store, event: Event, user: nat)
    ensures var before, after := OpenCount(s.cases, user), OpenCount(Step(s, event).store.cases, user);
      after > before ==>
        || after <= OPEN_CASES
        || ((event.ReplyForm? || (event.ChangeForm? && !event.close)) && event.actor.user != user && event.actor.respond
            && Named(s, event.number).Some? && Named(s, event.number).value.state == ClosedCase)
  {
    var after := Step(s, event).store;
    match event
    case OpenForm(_, _, _, _, _, _, _) =>
      if after != s { CountAppended(s.cases, after.cases[|s.cases|], user); }
    case ReplyForm(_, number, _, _, _, _) =>
      if after != s { CountUpdated(s.cases, Numbered(s.cases, number), after.cases[Numbered(s.cases, number)], user); }
    case ChangeForm(_, number, _, _, _, _) =>
      if after != s { CountUpdated(s.cases, Numbered(s.cases, number), after.cases[Numbered(s.cases, number)], user); }
    case Prune(at) => CountKept(s.cases, at, user);
    case Enable(_, _) =>
  }

  ghost predicate From(events: seq<Event>, at: int) {
    forall k :: 0 <= k < |events| ==> events[k].at >= at
  }

  /** A case closed now was closed at `start`, and by the same close, or has been closed since. */
  lemma {:induction false} ClosedSince(s: Store, events: seq<Event>, number: nat, start: int)
    requires StoreInv(s) && From(events, start) && number <= s.lastNumber
    ensures var after := Named(Run(s, events), number);
      after.Some? && after.value.closedAt.Some? ==>
        after.value.closedAt.value >= start || Named(s, number) == after
    decreases |events|
  {
    if events != [] {
      hide CaseInv, AllApart, StoreInv, Numbered;
      StepKeepsStore(s, events[0]);
      StepEvolves(s, events[0], number);
      var next := Step(s, events[0]).store;
      assert From(events[1..], start);
      ClosedSince(next, events[1..], number, start);
      assert Named(next, number).Some? && Named(next, number).value.closedAt.Some? ==>
        Named(next, number) == Named(s, number) || Named(next, number).value.closedAt.value >= start;
    }
  }

  /**
   * Retention deletes only what has been closed for the whole period: at every moment of the last
   * RETENTION seconds the deleted case stood closed, untouched since.
   */
  lemma RetentionDeletesTheLongClosed(s: Store, events: seq<Event>, number: nat, now: int)
    requires StoreInv(s) && From(events, now - RETENTION)
    requires number <= s.lastNumber
    requires Named(Run(s, events), number).Some?
    requires Named(Step(Run(s, events), Prune(now)).store, number).None?
    ensures Named(s, number) == Named(Run(s, events), number)
    ensures Named(s, number).value.state == ClosedCase && Last(Named(s, number).value.thread).kind == Closed
  {
    var after := Run(s, events);
    RunKeepsStore(s, events);
    PruneNamed(after, now, number);
    var c := Named(after, number).value;
    NamedIn(after, number, c);
    ClosedSince(s, events, number, now - RETENTION);
  }

  /** A store before its first case. */
  function Fresh(enabled: bool): Store { Store([], 0, enabled) }

  /** In every run each case's state and dates are decided by its thread's last entry. */
  lemma RunsKeepTheCases(enabled: bool, events: seq<Event>)
    ensures StoreInv(Run(Fresh(enabled), events))
  {
    RunKeepsStore(Fresh(enabled), events);
  }

  lemma OpensInEmpty(s: Store, form: Event)
    requires s.cases == [] && s.enabled && form.OpenForm? && form.minted.Some?
    requires form.actor.mayUse && !form.actor.paused
    requires TextProblem(form.topic, TOPIC_CHARS).None? && TextProblem(form.body, MESSAGE_CHARS).None?
    ensures var c := NewCase(s.lastNumber + 1, form.actor.user, form.topic, form.body, form.minted.value,
                             form.messageId, form.at);
      Step(s, form) == Stepped(Store([c], s.lastNumber + 1, true), Opened(s.lastNumber + 1))
  {
  }

  lemma OneCaseSwitched(s: Store, c: Case, change: Event)
    requires s.cases == [c] && change.ChangeForm? && change.number == c.number && change.revision == c.revision
    requires change.close && IsOpen(c) && change.actor.user == c.opener && change.actor.mayUse
    requires !HasEntry(c.thread, change.lineId)
    ensures Step(s, change).store == s.(cases := [Switched(c, true, c.opener, change.lineId, change.at)])
  {
    assert s.cases[1..] == [];
  }

  lemma OneCasePruned(c: Case, now: int)
    requires Expired(c, now)
    ensures Kept([c], now) == []
  {
    assert [c][1..] == [];
  }

  lemma RunTwo(s: Store, a: Event, b: Event)
    ensures Run(s, [a, b]) == Step(Step(s, a).store, b).store
    ensures Run(s, [a]) == Step(s, a).store
  {
    hide Step;
    assert [a, b][1..] == [b];
    assert Run(Step(s, a).store, [b]) == Run(Step(Step(s, a).store, b).store, [b][1..]);
  }

  /**
   * Once retention has deleted its case, an open form sent again is taken for a new one: that it is
   * told apart holds exactly as long as the case exists.
   */
  lemma OpenFormOutlivesItsCase() returns (events: seq<Event>, form: Event)
    ensures form.OpenForm? && form.minted.Some?
    ensures Step(Fresh(true), form).outcome == Opened(1)
    ensures Step(Run(Step(Fresh(true), form).store, events), form).outcome == Opened(2)
  {
    hide Step;
    var member := Actor(7, false, false, true, false);
    form := OpenForm(member, "a", "b", Some(1), 0, 2, 0);
    events := [ChangeForm(member, 1, 1, true, 3, 10), Prune(RETENTION + 11)];
    var c := NewCase(1, 7, "a", "b", 1, 2, 0);
    var closed := Switched(c, true, 7, 3, 10);
    OpensInEmpty(Fresh(true), form);
    OneCaseSwitched(Store([c], 1, true), c, events[0]);
    OneCasePruned(closed, RETENTION + 11);
    Pruned(Store([closed], 1, true), RETENTION + 11);
    assert Step(Store([closed], 1, true), events[1]).store == Store([], 1, true);
    RunTwo(Store([c], 1, true), events[0], events[1]);
    OpensInEmpty(Store([], 1, true), form);
  }

  lemma Pruned(s: Store, now: int)
    ensures Step(s, Prune(now)).store == s.(cases := Kept(s.cases, now))
  {
  }
}
