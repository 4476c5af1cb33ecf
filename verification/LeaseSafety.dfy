/** What the writer lease guarantees in every run, whatever its timers are set to. */
module LeaseSafety {
  import opened Options
  import opened LeaseWorld

  /** Past the second schema check. */
  ghost predicate Checked(p: Proc) { p.phase == Prepared || p.phase == Started }

  /** The schema a process faces once its session is dead: its own, until a migration since. */
  function SchemaSince(w: World, p: Proc): nat
    requires p.session.Some? && p.session.value in w.migratedSince
  {
    var since := w.migratedSince[p.session.value];
    if since.None? then p.version else since.value
  }

  ghost predicate ProcInv(w: World, p: Proc) {
    && (p.session.Some? ==> p.session.value < w.next && p.session.value !in w.pool && p.session.value !in w.unlocked)
    && (p.held ==> p.session.Some?)
    && (p.session.Some? ==> (p.broken <==> p.session.value in w.broken))
    && (p.session.None? && p.phase != Closed ==> !p.broken && p.phase != Waiting)
    && (p.phase == Starting ==> p.session.None? && p.checking.None?)
    && (p.phase == Waiting ==> !p.held && p.checking.None?)
    && (p.checking.Some? ==> p.session.Some?)
    && (p.held && p.session.value in w.live ==> w.holder == p.session && (Checked(p) ==> w.schema == p.version))
    && (p.held && p.session.value !in w.live ==>
         p.session.value in w.migratedSince && (Checked(p) ==> w.schema == SchemaSince(w, p)))
  }

  ghost predicate Apart(a: Proc, b: Proc) { a.session.None? || a.session != b.session }

  ghost predicate ServerInv(w: World) {
    && (w.holder.Some? ==> w.holder.value in w.live)
    && (forall s :: s in w.live ==> s < w.next)
    && (forall s :: s in w.pool ==> s < w.next && w.holder != Some(s) && s !in w.broken)
    && (forall s :: s in w.broken ==> s < w.next && s !in w.unlocked)
    && (forall s :: s in w.unlocked ==> s < w.next)
    && w.lostAt.Keys == w.migratedSince.Keys
    && (forall s :: s in w.migratedSince && w.migratedSince[s].Some? ==> w.migratedSince[s].value == w.schema)
  }

  ghost predicate Inv(w: World) {
    && ServerInv(w)
    && (forall p :: p in w.procs ==> ProcInv(w, w.procs[p]))
    && (forall p, q :: p in w.procs && q in w.procs && p != q ==> Apart(w.procs[p], w.procs[q]))
  }

  /** What another process must not notice of a step. */
  ghost predicate Unaffected(w: World, after: World, q: Proc) {
    && after.next >= w.next && after.schema == w.schema
    && (q.session.Some? ==>
         var s := q.session.value;
         && (s in after.live <==> s in w.live) && (s in after.broken <==> s in w.broken)
         && s !in after.pool && s !in after.unlocked
         && (s in w.migratedSince ==> s in after.migratedSince && after.migratedSince[s] == w.migratedSince[s])
         && (w.holder == Some(s) ==> after.holder == Some(s)))
  }

  lemma OtherKeeps(w: World, after: World, q: Proc)
    requires ProcInv(w, q) && Unaffected(w, after, q)
    ensures ProcInv(after, q)
  {
  }

  /** One process's step: it keeps its own invariant, and the others notice nothing. */
  lemma StepKeeps(w: World, after: World, p: nat)
    requires Inv(w) && p in w.procs && p in after.procs && after.procs == w.procs[p := after.procs[p]]
    requires ServerInv(after) && ProcInv(after, after.procs[p])
    requires forall q :: q in w.procs && q != p ==> Unaffected(w, after, w.procs[q])
    requires var s := after.procs[p].session; s.None? || s == w.procs[p].session || s == Some(w.next)
    ensures Inv(after)
  {
    forall q | q in after.procs ensures ProcInv(after, after.procs[q]) {
      if q != p { hide ProcInv; OtherKeeps(w, after, w.procs[q]); }
    }
    forall a, b | a in after.procs && b in after.procs && a != b ensures Apart(after.procs[a], after.procs[b]) {
      assert Apart(w.procs[a], w.procs[b]) && Apart(w.procs[b], w.procs[a]);
      assert ProcInv(w, w.procs[a]) && ProcInv(w, w.procs[b]);
    }
  }

  /** The process an event is about. */
  function Actor(e: Event): Option<nat> {
    match e
    case SessionDies(_) => None
    case Migrate(_) => None
    case Tick(_) => None
    case Connect(p) => Some(p)
    case Attempt(p) => Some(p)
    case AttemptFails(p, _) => Some(p)
    case Recheck(p) => Some(p)
    case Start(p, _) => Some(p)
    case CheckFires(p) => Some(p)
    case CheckServed(p) => Some(p)
    case CheckReturns(p) => Some(p)
    case SessionError(p) => Some(p)
    case Stop(p) => Some(p)
    case Release(p, _) => Some(p)
  }

  lemma OwnStep(w: World, e: Event, p: nat, t: Timing)
    requires Inv(w) && Enabled(w, e, t) && Actor(e) == Some(p)
    ensures p in w.procs && p in Next(w, e, t).procs
    ensures ServerInv(Next(w, e, t)) && ProcInv(Next(w, e, t), Next(w, e, t).procs[p])
    ensures Next(w, e, t).procs == w.procs[p := Next(w, e, t).procs[p]]
    ensures var s := Next(w, e, t).procs[p].session; s.None? || s == w.procs[p].session || s == Some(w.next)
  {
    assert ProcInv(w, w.procs[p]);
    if e.Release? { ReleaseStep(w, p, e.unlocks, t); }
    else if e.Connect? || e.Attempt? || e.AttemptFails? { AcquireStep(w, e, p, t); }
    else { HeldStep(w, e, p, t); }
  }

  lemma AcquireStep(w: World, e: Event, p: nat, t: Timing)
    requires Inv(w) && Enabled(w, e, t)
    requires e == Connect(p) || e == Attempt(p) || e == AttemptFails(p, true) || e == AttemptFails(p, false)
    ensures ServerInv(Next(w, e, t)) && p in Next(w, e, t).procs && ProcInv(Next(w, e, t), Next(w, e, t).procs[p])
    ensures Next(w, e, t).procs == w.procs[p := Next(w, e, t).procs[p]]
    ensures var s := Next(w, e, t).procs[p].session; s.None? || s == w.procs[p].session || s == Some(w.next)
  {
    assert ProcInv(w, w.procs[p]);
  }

  lemma HeldStep(w: World, e: Event, p: nat, t: Timing)
    requires Inv(w) && Enabled(w, e, t) && Actor(e) == Some(p)
    requires !e.Release? && !e.Connect? && !e.Attempt? && !e.AttemptFails?
    ensures ServerInv(Next(w, e, t)) && p in Next(w, e, t).procs && ProcInv(Next(w, e, t), Next(w, e, t).procs[p])
    ensures Next(w, e, t).procs == w.procs[p := Next(w, e, t).procs[p]]
    ensures Next(w, e, t).procs[p].session == w.procs[p].session
  {
    HeldShape(w, e, p, t);
    HeldServer(w, e, p, t);
    assert ProcInv(w, w.procs[p]);
    hide ServerInv, Next, Enabled, ProcInv;
    if e.CheckFires? || e.CheckServed? || e.CheckReturns? { CheckStep(w, e, p, t); } else { PhaseStep(w, e, p, t); }
  }

  lemma HeldShape(w: World, e: Event, p: nat, t: Timing)
    requires Enabled(w, e, t) && Actor(e) == Some(p) && !e.Release? && !e.Connect? && !e.Attempt? && !e.AttemptFails?
    ensures p in w.procs && Next(w, e, t).procs.Keys == w.procs.Keys
    ensures Next(w, e, t).procs == w.procs[p := Next(w, e, t).procs[p]]
    ensures Next(w, e, t).procs[p].session == w.procs[p].session
  {
  }

  lemma PhaseStep(w: World, e: Event, p: nat, t: Timing)
    requires Enabled(w, e, t) && Actor(e) == Some(p) && p in w.procs && ServerInv(w) && ProcInv(w, w.procs[p])
    requires e.Recheck? || e.Start? || e.Stop? || e.SessionError?
    ensures p in Next(w, e, t).procs && ProcInv(Next(w, e, t), Next(w, e, t).procs[p])
  {
  }

  lemma CheckStep(w: World, e: Event, p: nat, t: Timing)
    requires Enabled(w, e, t) && Actor(e) == Some(p) && p in w.procs && ProcInv(w, w.procs[p])
    requires e.CheckFires? || e.CheckServed? || e.CheckReturns?
    ensures p in Next(w, e, t).procs && ProcInv(Next(w, e, t), Next(w, e, t).procs[p])
  {
  }

  lemma HeldServer(w: World, e: Event, p: nat, t: Timing)
    requires Inv(w) && Enabled(w, e, t) && Actor(e) == Some(p)
    requires !e.Release? && !e.Connect? && !e.Attempt? && !e.AttemptFails?
    ensures ServerInv(Next(w, e, t))
  {
    assert ProcInv(w, w.procs[p]);
  }

  lemma ReleaseStep(w: World, p: nat, unlocks: bool, t: Timing)
    requires Inv(w) && Enabled(w, Release(p, unlocks), t)
    ensures var after := Next(w, Release(p, unlocks), t);
      && ServerInv(after) && after.procs == w.procs[p := Released(w.procs[p])]
      && ProcInv(after, after.procs[p])
  {
    ReleaseServer(w, p, unlocks, t);
    hide ServerInv;
    assert ProcInv(w, w.procs[p]);
  }

  lemma ReleaseServer(w: World, p: nat, unlocks: bool, t: Timing)
    requires Inv(w) && Enabled(w, Release(p, unlocks), t)
    ensures ServerInv(Next(w, Release(p, unlocks), t))
  {
    assert ProcInv(w, w.procs[p]);
  }

  lemma OthersNotice(w: World, e: Event, p: nat, q: nat, t: Timing)
    requires Inv(w) && Enabled(w, e, t) && Actor(e) == Some(p) && q in w.procs && q != p
    ensures Unaffected(w, Next(w, e, t), w.procs[q])
  {
    assert p in w.procs;
    assert ProcInv(w, w.procs[q]) && ProcInv(w, w.procs[p]) && Apart(w.procs[q], w.procs[p]);
  }

  lemma DieKeeps(w: World, s: nat)
    requires Inv(w) && s in w.live
    ensures Inv(Die(w, s))
  {
    var after := Die(w, s);
    forall q | q in w.procs ensures ProcInv(after, w.procs[q]) {
      assert ProcInv(w, w.procs[q]);
      if w.procs[q].session != Some(s) { OtherKeeps(w, after, w.procs[q]); }
    }
  }

  lemma MigrateKeeps(w: World, schema: nat, t: Timing)
    requires Inv(w) && Enabled(w, Migrate(schema), t)
    ensures Inv(Next(w, Migrate(schema), t))
  {
    var after := Next(w, Migrate(schema), t);
    forall q | q in w.procs ensures ProcInv(after, w.procs[q]) { assert ProcInv(w, w.procs[q]); }
  }

  lemma TickKeeps(w: World, to: int, t: Timing)
    requires Inv(w) && Enabled(w, Tick(to), t)
    ensures Inv(Next(w, Tick(to), t))
  {
    var after := Next(w, Tick(to), t);
    forall q | q in w.procs ensures ProcInv(after, w.procs[q]) {
      assert ProcInv(w, w.procs[q]);
      OtherKeeps(w, after, w.procs[q]);
    }
  }

  lemma NextKeeps(w: World, e: Event, t: Timing)
    requires Inv(w) && Enabled(w, e, t)
    ensures Inv(Next(w, e, t))
  {
    hide Next, Enabled, ServerInv, ProcInv, Unaffected;
    if Actor(e).Some? {
      var p := Actor(e).value;
      OwnStep(w, e, p, t);
      forall q | q in w.procs && q != p ensures Unaffected(w, Next(w, e, t), w.procs[q]) {
        OthersNotice(w, e, p, q, t);
      }
      StepKeeps(w, Next(w, e, t), p);
    } else {
      ServerStep(w, e, t);
    }
  }

  lemma ServerStep(w: World, e: Event, t: Timing)
    requires Inv(w) && Enabled(w, e, t) && Actor(e).None?
    ensures Inv(Next(w, e, t))
  {
    hide Inv;
    match e
    case SessionDies(s) => DieKeeps(w, s);
    case Migrate(schema) => MigrateKeeps(w, schema, t);
    case Tick(to) => TickKeeps(w, to, t);
  }

  lemma {:induction false} RunKeeps(w: World, events: seq<Event>, t: Timing)
    requires Inv(w) && Possible(w, events, t)
    ensures Inv(Run(w, events, t))
    decreases |events|
  {
    if events != [] {
      hide Inv, Enabled;
      NextKeeps(w, events[0], t);
      RunKeeps(Next(w, events[0], t), events[1..], t);
    }
  }

  /** At every reachable moment, of the processes that hold the lease one at most has a live session. */
  lemma OneLiveHolder(w: World, events: seq<Event>, t: Timing, a: nat, b: nat)
    requires Init(w) && Possible(w, events, t)
    requires var after := Run(w, events, t);
      && a in after.procs && b in after.procs
      && after.procs[a].held && after.procs[a].session.Some? && after.procs[a].session.value in after.live
      && after.procs[b].held && after.procs[b].session.Some? && after.procs[b].session.value in after.live
    ensures a == b
  {
    RunKeeps(w, events, t);
    var after := Run(w, events, t);
    assert ProcInv(after, after.procs[a]) && ProcInv(after, after.procs[b]);
    assert a != b ==> Apart(after.procs[a], after.procs[b]);
  }

  /** A session found broken is never unlocked over and never pooled, and no pooled session holds the lock. */
  lemma BrokenIsDestroyed(w: World, events: seq<Event>, t: Timing)
    requires Init(w) && Possible(w, events, t)
    ensures var after := Run(w, events, t);
      && after.broken !! after.unlocked && after.broken !! after.pool
      && (after.holder.Some? ==> after.holder.value !in after.pool)
  {
    RunKeeps(w, events, t);
  }

  /** A migration committed after the session died, the last of them to another schema. */
  ghost predicate MigratedAway(w: World, session: nat, version: nat) {
    && session !in w.live && session in w.migratedSince
    && w.migratedSince[session].Some? && w.migratedSince[session].value != version
  }

  /**
   * A process that starts holds the lease and checked its schema under it. The schema is another's if
   * and only if its session has died unnoticed and a migration to another schema committed since.
   */
  lemma StartsOnItsSchemaUnlessMigratedAway(w: World, events: seq<Event>, t: Timing, p: nat)
    requires Init(w) && Possible(w, events, t)
    requires var before := Run(w, events, t);
      Enabled(before, Start(p, true), t) && Next(before, Start(p, true), t).procs[p].phase == Started
    ensures var before := Run(w, events, t);
      && before.procs[p].held && before.procs[p].session.Some?
      && (before.schema != before.procs[p].version <==>
          MigratedAway(before, before.procs[p].session.value, before.procs[p].version))
  {
    RunKeeps(w, events, t);
    var before := Run(w, events, t);
    assert ProcInv(before, before.procs[p]);
  }
}
