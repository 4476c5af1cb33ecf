/** How long a process may believe in a lease it has silently lost. */
module LeaseTimers {
  import opened Options
  import opened LeaseWorld
  import opened LeaseSafety

  /** The process believes in a session that is dead. */
  ghost predicate Deluded(w: World, p: Proc) {
    p.held && !p.stopping && p.session.Some? && p.session.value !in w.live
  }

  /** Where its checks stand, measured from the session's death. */
  ghost predicate NoticesInTime(w: World, p: Proc, t: Timing) {
    Deluded(w, p) ==>
      && p.session.value in w.lostAt
      && var lost := w.lostAt[p.session.value];
         && lost <= w.now
         && (p.checking.None? ==> p.checkDue <= lost + t.check)
         && (p.checking.Some? && p.checking.value.answer != Some(true) ==> p.checking.value.sent <= lost + t.check)
         && (p.checking.Some? && p.checking.value.answer == Some(true) ==> p.checking.value.sent <= lost)
  }

  ghost predicate TimersInv(w: World, p: Proc, t: Timing) {
    && (p.held && !p.stopping ==> w.now <= p.checkDue <= w.now + t.check)
    && (p.checking.Some? ==> p.checking.value.sent <= w.now <= p.checking.value.sent + t.timeout)
    && (p.checking.Some? && p.held && !p.stopping ==> p.checkDue == p.checking.value.sent + t.check)
  }

  ghost predicate Timed(w: World, t: Timing) {
    forall p :: p in w.procs ==> TimersInv(w, w.procs[p], t) && NoticesInTime(w, w.procs[p], t)
  }

  /** A step that touches neither the clock, nor the process, nor its session. */
  ghost predicate Unheard(w: World, after: World, q: Proc) {
    && after.now == w.now
    && (q.session.Some? ==>
         var s := q.session.value;
         && (s in after.live <==> s in w.live)
         && (s in w.lostAt ==> s in after.lostAt && after.lostAt[s] == w.lostAt[s]))
  }

  lemma UnheardKeeps(w: World, after: World, q: Proc, t: Timing)
    requires TimersInv(w, q, t) && NoticesInTime(w, q, t) && Unheard(w, after, q)
    ensures TimersInv(after, q, t) && NoticesInTime(after, q, t)
  {
  }

  lemma OthersHearNothing(w: World, e: Event, p: nat, q: nat, t: Timing)
    requires Inv(w) && Enabled(w, e, t) && Actor(e) == Some(p) && q in w.procs && q != p
    ensures Unheard(w, Next(w, e, t), w.procs[q])
  {
    assert p in w.procs;
    assert ProcInv(w, w.procs[q]) && ProcInv(w, w.procs[p]) && Apart(w.procs[q], w.procs[p]);
  }

  lemma AcquireTimers(w: World, e: Event, p: nat, t: Timing)
    requires Enabled(w, e, t) && Actor(e) == Some(p) && 0 < t.timeout < t.check
    requires p in w.procs && ProcInv(w, w.procs[p])
    requires TimersInv(w, w.procs[p], t) && NoticesInTime(w, w.procs[p], t)
    requires e.Connect? || e.Attempt? || e.AttemptFails?
    ensures p in Next(w, e, t).procs
    ensures TimersInv(Next(w, e, t), Next(w, e, t).procs[p], t)
    ensures NoticesInTime(Next(w, e, t), Next(w, e, t).procs[p], t)
  {
  }

  lemma CheckTimers(w: World, e: Event, p: nat, t: Timing)
    requires Enabled(w, e, t) && Actor(e) == Some(p) && 0 < t.timeout < t.check
    requires p in w.procs && ProcInv(w, w.procs[p])
    requires TimersInv(w, w.procs[p], t) && NoticesInTime(w, w.procs[p], t)
    requires e.CheckFires? || e.CheckServed? || e.CheckReturns?
    ensures p in Next(w, e, t).procs
    ensures TimersInv(Next(w, e, t), Next(w, e, t).procs[p], t)
    ensures NoticesInTime(Next(w, e, t), Next(w, e, t).procs[p], t)
  {
  }

  lemma OtherTimers(w: World, e: Event, p: nat, t: Timing)
    requires Enabled(w, e, t) && Actor(e) == Some(p) && 0 < t.timeout < t.check
    requires p in w.procs && ProcInv(w, w.procs[p])
    requires TimersInv(w, w.procs[p], t) && NoticesInTime(w, w.procs[p], t)
    requires e.Recheck? || e.Start? || e.SessionError? || e.Stop?
    ensures p in Next(w, e, t).procs
    ensures TimersInv(Next(w, e, t), Next(w, e, t).procs[p], t)
    ensures NoticesInTime(Next(w, e, t), Next(w, e, t).procs[p], t)
  {
  }

  /** A released process believes in nothing, whatever becomes of the session. */
  lemma ReleaseTimers(w: World, e: Event, p: nat, t: Timing)
    requires Enabled(w, e, t) && Actor(e) == Some(p) && e.Release? && p in w.procs
    ensures p in Next(w, e, t).procs
    ensures TimersInv(Next(w, e, t), Next(w, e, t).procs[p], t)
    ensures NoticesInTime(Next(w, e, t), Next(w, e, t).procs[p], t)
  {
    assert Next(w, e, t).procs == w.procs[p := Released(w.procs[p])];
    hide Next;
  }

  lemma OwnTimers(w: World, e: Event, p: nat, t: Timing)
    requires Enabled(w, e, t) && Actor(e) == Some(p) && 0 < t.timeout < t.check
    requires p in w.procs && ProcInv(w, w.procs[p])
    requires TimersInv(w, w.procs[p], t) && NoticesInTime(w, w.procs[p], t)
    ensures p in Next(w, e, t).procs
    ensures TimersInv(Next(w, e, t), Next(w, e, t).procs[p], t)
    ensures NoticesInTime(Next(w, e, t), Next(w, e, t).procs[p], t)
  {
    hide Enabled, Next, ProcInv, TimersInv, NoticesInTime;
    if e.Connect? || e.Attempt? || e.AttemptFails? { AcquireTimers(w, e, p, t); }
    else if e.CheckFires? || e.CheckServed? || e.CheckReturns? { CheckTimers(w, e, p, t); }
    else if e.Release? { ReleaseTimers(w, e, p, t); }
    else { OtherTimers(w, e, p, t); }
  }

  lemma ProcOf(w: World, p: nat)
    requires Inv(w) && p in w.procs
    ensures ProcInv(w, w.procs[p])
  {
  }

  lemma DeathTimers(w: World, s: nat, t: Timing)
    requires Timed(w, t) && s in w.live
    ensures Timed(Die(w, s), t)
  {
    var after := Die(w, s);
    forall q | q in after.procs ensures TimersInv(after, after.procs[q], t) && NoticesInTime(after, after.procs[q], t) {
      if w.procs[q].session != Some(s) { UnheardKeeps(w, after, w.procs[q], t); }
    }
  }

  lemma NextKeepsTimers(w: World, e: Event, t: Timing)
    requires Inv(w) && Timed(w, t) && Enabled(w, e, t) && 0 < t.timeout < t.check
    ensures Timed(Next(w, e, t), t)
  {
    if Actor(e).Some? {
      hide Next, Enabled, Unheard, TimersInv, NoticesInTime, Inv;
      var p := Actor(e).value;
      OwnStep(w, e, p, t);
      assert ProcInv(w, w.procs[p]) by { ProcOf(w, p); }
      OwnTimers(w, e, p, t);
      var after := Next(w, e, t);
      forall q | q in after.procs
        ensures TimersInv(after, after.procs[q], t) && NoticesInTime(after, after.procs[q], t)
      {
        if q != p {
          OthersHearNothing(w, e, p, q, t);
          UnheardKeeps(w, after, w.procs[q], t);
        }
      }
    } else {
      ServerTimers(w, e, t);
    }
  }

  lemma ServerTimers(w: World, e: Event, t: Timing)
    requires Timed(w, t) && Enabled(w, e, t) && Actor(e).None?
    ensures Timed(Next(w, e, t), t)
  {
    match e
    case SessionDies(s) => DeathTimers(w, s, t);
    case Migrate(_) =>
    case Tick(to) =>
      forall q | q in w.procs
        ensures TimersInv(w.(now := to), w.procs[q], t) && NoticesInTime(w.(now := to), w.procs[q], t)
      {
        assert MayReach(w.procs[q], to, t);
      }
  }

  lemma {:induction false} RunKeepsTimers(w: World, events: seq<Event>, t: Timing)
    requires Inv(w) && Timed(w, t) && Possible(w, events, t) && 0 < t.timeout < t.check
    ensures Timed(Run(w, events, t), t)
    decreases |events|
  {
    if events != [] {
      hide Inv, Timed, Enabled;
      NextKeeps(w, events[0], t);
      NextKeepsTimers(w, events[0], t);
      RunKeepsTimers(Next(w, events[0], t), events[1..], t);
    }
  }

  /** A process believes in a silently lost lease for at most one check interval and one timeout. */
  lemma BeliefIsBounded(w: World, events: seq<Event>, t: Timing, p: nat)
    requires Init(w) && Possible(w, events, t) && 0 < t.timeout < t.check
    requires var after := Run(w, events, t); p in after.procs && Deluded(after, after.procs[p])
    ensures var after := Run(w, events, t);
      var s := after.procs[p].session.value;
      s in after.lostAt && after.lostAt[s] <= after.now <= after.lostAt[s] + t.check + t.timeout
  {
    RunKeepsTimers(w, events, t);
    var after := Run(w, events, t);
    assert TimersInv(after, after.procs[p], t) && NoticesInTime(after, after.procs[p], t);
  }

  /** While it isn't stopping, a process can start behind a migration only that long after its session died. */
  lemma StartsBehindOnlyBriefly(w: World, events: seq<Event>, t: Timing, p: nat)
    requires Init(w) && Possible(w, events, t) && 0 < t.timeout < t.check
    requires var before := Run(w, events, t);
      && Enabled(before, Start(p, true), t) && Next(before, Start(p, true), t).procs[p].phase == Started
      && !before.procs[p].stopping && before.schema != before.procs[p].version
    ensures var before := Run(w, events, t);
      before.procs[p].session.Some? &&
      var s := before.procs[p].session.value;
      s in before.lostAt && before.now <= before.lostAt[s] + t.check + t.timeout
  {
    StartsOnItsSchemaUnlessMigratedAway(w, events, t, p);
    BeliefIsBounded(w, events, t, p);
  }
}
