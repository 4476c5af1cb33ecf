/** How a process comes to its first write. */
module LeaseStarts {
  import opened Options
  import opened LeaseWorld

  /** A process goes from prepared to started exactly by a start under the lease as the configured application. */
  lemma StartsExactly(w: World, e: Event, t: Timing, p: nat)
    requires Enabled(w, e, t) && p in w.procs && w.procs[p].phase != Started
    ensures p in Next(w, e, t).procs
    ensures Next(w, e, t).procs[p].phase == Started <==>
      e == Start(p, true) && w.procs[p].held && w.procs[p].phase == Prepared
  {
  }

  /** In every run a process that started did so by such a start, of its own, at some point of the run. */
  lemma {:induction false} StartedUnderTheLease(w: World, events: seq<Event>, t: Timing, p: nat) returns (k: nat)
    requires Possible(w, events, t) && p in w.procs && w.procs[p].phase != Started
    requires p in Run(w, events, t).procs && Run(w, events, t).procs[p].phase == Started
    ensures k < |events| && events[k] == Start(p, true) && Possible(w, events[..k], t)
    ensures var before := Run(w, events[..k], t);
      p in before.procs && before.procs[p].held && before.procs[p].phase == Prepared
    decreases |events|
  {
    var next := Next(w, events[0], t);
    StartsExactly(w, events[0], t, p);
    if next.procs[p].phase == Started {
      k := 0;
      assert events[..0] == [];
    } else {
      hide Next, Enabled;
      k := StartedUnderTheLease(next, events[1..], t, p);
      k := k + 1;
      assert events[..k][0] == events[0] && events[..k][1..] == events[1..][..k - 1];
    }
  }
}
