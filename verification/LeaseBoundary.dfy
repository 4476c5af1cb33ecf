/** Where the lease's guarantees end: a timeout as long as the interval, and a migration behind a dead session. */
module LeaseBoundary {
  import opened Options
  import opened LeaseWorld
  import opened LeaseSafety
  import opened LeaseTimers

  lemma {:induction false} Extend(w: World, events: seq<Event>, e: Event, t: Timing)
    requires Possible(w, events, t) && Enabled(Run(w, events, t), e, t)
    ensures Possible(w, events + [e], t)
    ensures Run(w, events + [e], t) == Next(Run(w, events, t), e, t)
    decreases |events|
  {
    hide Enabled, Next;
    if events == [] {
      assert [e][1..] == [];
    } else {
      assert (events + [e])[1..] == events[1..] + [e];
      Extend(Next(w, events[0], t), events[1..], e, t);
    }
  }

  /** One process of version 1 at a time, its lease granted at 0, checks as given. */
  function Lone(now: int, live: set<nat>, lostAt: map<nat, int>, checkDue: int, checking: Option<Check>): World {
    World(now, 1, if 0 in live then Some(0) else None, live, 1, {},
          map[0 := Proc(1, Acquired, Some(0), true, false, false, 0, checkDue, checking)],
          lostAt, map s | s in lostAt :: None, {}, {})
  }

  function Before(): World { World(0, 1, None, {}, 0, {}, map[0 := NewProc(1)], map[], map[], {}, {}) }

  function Even(c: nat): Timing { Timing(c, c) }

  lemma Acquires(t: Timing)
    ensures Possible(Before(), [Connect(0), Attempt(0)], t)
    ensures Run(Before(), [Connect(0), Attempt(0)], t) == Lone(0, {0}, map[], t.check, None)
  {
    Extend(Before(), [], Connect(0), t);
    var w := Run(Before(), [Connect(0)], t);
    assert [] + [Connect(0)] == [Connect(0)];
    assert w == World(0, 1, None, {0}, 1, {}, map[0 := Connected(NewProc(1), 0)], map[], map[], {}, {});
    Extend(Before(), [Connect(0)], Attempt(0), t);
    assert [Connect(0)] + [Attempt(0)] == [Connect(0), Attempt(0)];
  }

  /** One step of the lone process's world. */
  lemma Then(events: seq<Event>, e: Event, t: Timing, next: World)
    requires Possible(Before(), events, t) && Enabled(Run(Before(), events, t), e, t)
    requires Next(Run(Before(), events, t), e, t) == next
    ensures Possible(Before(), events + [e], t) && Run(Before(), events + [e], t) == next
  {
    Extend(Before(), events, e, t);
  }

  lemma AnsweredThenDies(c: nat) returns (events: seq<Event>)
    requires c > 0
    ensures Possible(Before(), events, Even(c))
    ensures Run(Before(), events, Even(c)) == Lone(c, {}, map[0 := c], 2 * c, Some(Check(c, Some(true))))
  {
    Acquires(Even(c));
    events := [Connect(0), Attempt(0)];
    Then(events, Tick(c), Even(c), Lone(c, {0}, map[], c, None));
    events := events + [Tick(c)];
    Then(events, CheckFires(0), Even(c), Lone(c, {0}, map[], 2 * c, Some(Check(c, None))));
    events := events + [CheckFires(0)];
    Then(events, CheckServed(0), Even(c), Lone(c, {0}, map[], 2 * c, Some(Check(c, Some(true)))));
    events := events + [CheckServed(0)];
    Then(events, SessionDies(0), Even(c), Lone(c, {}, map[0 := c], 2 * c, Some(Check(c, Some(true)))));
    events := events + [SessionDies(0)];
  }

  lemma FiresWhileUnanswered(c: nat) returns (events: seq<Event>)
    requires c > 0
    ensures Possible(Before(), events, Even(c))
    ensures Run(Before(), events, Even(c)) == Lone(2 * c, {}, map[0 := c], 3 * c, None)
  {
    events := AnsweredThenDies(c);
    Then(events, Tick(2 * c), Even(c), Lone(2 * c, {}, map[0 := c], 2 * c, Some(Check(c, Some(true)))));
    events := events + [Tick(2 * c)];
    Then(events, CheckFires(0), Even(c), Lone(2 * c, {}, map[0 := c], 3 * c, Some(Check(c, Some(true)))));
    events := events + [CheckFires(0)];
    Then(events, CheckReturns(0), Even(c), Lone(2 * c, {}, map[0 := c], 3 * c, None));
    events := events + [CheckReturns(0)];
  }

  lemma ChecksAgainTooLate(c: nat) returns (events: seq<Event>)
    requires c > 0
    ensures Possible(Before(), events, Even(c))
    ensures Run(Before(), events, Even(c)) == Lone(4 * c, {}, map[0 := c], 4 * c, Some(Check(3 * c, None)))
  {
    events := FiresWhileUnanswered(c);
    Then(events, Tick(3 * c), Even(c), Lone(3 * c, {}, map[0 := c], 3 * c, None));
    events := events + [Tick(3 * c)];
    Then(events, CheckFires(0), Even(c), Lone(3 * c, {}, map[0 := c], 4 * c, Some(Check(3 * c, None))));
    events := events + [CheckFires(0)];
    Then(events, Tick(4 * c), Even(c), Lone(4 * c, {}, map[0 := c], 4 * c, Some(Check(3 * c, None))));
    events := events + [Tick(4 * c)];
  }

  /** After these events the process believes in a session that died longer ago than the bound allows. */
  ghost predicate TooLong(w: World, events: seq<Event>, t: Timing, p: nat) {
    && Init(w) && Possible(w, events, t)
    && var after := Run(w, events, t);
       && p in after.procs && Deluded(after, after.procs[p])
       && !(after.procs[p].session.value in after.lostAt
            && after.now <= after.lostAt[after.procs[p].session.value] + t.check + t.timeout)
  }

  /**
   * With a timeout no longer than the interval, no process ever believes in a lost lease beyond one
   * interval and one timeout if and only if the timeout is strictly shorter: when they are equal, an
   * answer that comes back just as the interval fires makes that check be skipped.
   */
  lemma BoundHoldsExactlyBelow(t: Timing)
    requires 0 < t.timeout <= t.check
    ensures t.timeout < t.check <==> forall w, events, p :: !TooLong(w, events, t, p)
  {
    if t.timeout < t.check {
      forall w, events, p ensures !TooLong(w, events, t, p) {
        if TooLong(w, events, t, p) { BeliefIsBounded(w, events, t, p); }
      }
    } else {
      var events := ChecksAgainTooLate(t.check);
      assert t == Even(t.check);
      assert TooLong(Before(), events, t, 0);
    }
  }

  /** A lone process that holds a lease and has checked its schema under it. */
  function Prepared(t: Timing): World {
    var w := Lone(0, {0}, map[], t.check, None);
    Update(w, 0, Rechecked(w.procs[0], 1))
  }

  /** A session that dies after the second check lets a migration in, and the process starts behind it. */
  lemma StartsBehindAMigration(t: Timing) returns (events: seq<Event>)
    ensures Init(Before()) && Possible(Before(), events, t)
    ensures var before := Run(Before(), events, t);
      && 0 in before.procs && Enabled(before, Start(0, true), t)
      && Next(before, Start(0, true), t).procs[0].phase == Started
      && before.procs[0].version == 1 && before.schema == 2
  {
    Acquires(t);
    events := [Connect(0), Attempt(0)];
    Then(events, Recheck(0), t, Prepared(t));
    events := events + [Recheck(0)];
    var dead := Die(Prepared(t), 0);
    Then(events, SessionDies(0), t, dead);
    events := events + [SessionDies(0)];
    Then(events, Migrate(2), t, dead.(schema := 2, migratedSince := map s | s in dead.lostAt :: Some(2)));
    events := events + [Migrate(2)];
  }
}
