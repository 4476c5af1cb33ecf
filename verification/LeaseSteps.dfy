/** What each event makes of a process, its session and the lock, field by field. */
module LeaseSteps {
  import opened Options
  import opened LeaseWorld
  import opened Lifecycle

  /** A process connects only to its own schema, on a session of its own. */
  lemma ConnectNeedsItsSchema(w: World, t: Timing, p: nat)
    requires Enabled(w, Connect(p), t)
    ensures w.schema == w.procs[p].version && w.procs[p].phase == Starting
    ensures var after := Next(w, Connect(p), t);
      && after.procs[p] == w.procs[p].(phase := Waiting, session := Some(w.next))
      && after.live == w.live + {w.next} && after.next == w.next + 1 && after.holder == w.holder
  {
  }

  /** The lock is taken at an attempt only while nobody holds it and the process isn't stopping. */
  lemma AttemptTakesTheFreeLock(w: World, t: Timing, p: nat)
    requires Enabled(w, Attempt(p), t)
    ensures var was, after := w.procs[p], Next(w, Attempt(p), t);
      var now := after.procs[p];
      if was.stopping then after.holder == w.holder && now == was.(phase := Failed)
      else if w.holder.Some? then after == w
      else after.holder == was.session && now == was.(held := true, phase := Acquired, checkDue := w.now + t.check)
  {
  }

  /** A failed attempt ends the process, its session never trusted again. */
  lemma FailedAttemptEnds(w: World, t: Timing, p: nat, granted: bool)
    requires Enabled(w, AttemptFails(p, granted), t)
    ensures var was, after := w.procs[p], Next(w, AttemptFails(p, granted), t);
      && after.procs[p] == was.(broken := true, exitCode := 1, phase := Failed)
      && after.broken == w.broken + {was.session.value}
      && after.holder == if granted && was.session.value in w.live && w.holder.None? then was.session else w.holder
  {
  }

  /** The second look at the schema lets a process on only if it is its own. */
  lemma RecheckPrepares(w: World, t: Timing, p: nat)
    requires Enabled(w, Recheck(p), t)
    ensures Next(w, Recheck(p), t).procs[p]
         == w.procs[p].(phase := if w.schema == w.procs[p].version then Prepared else Failed)
  {
  }

  /** A check goes out every interval, one at a time, and is answered by who holds the lock. */
  lemma ChecksAsk(w: World, t: Timing, p: nat)
    ensures Enabled(w, CheckFires(p), t) ==>
      Next(w, CheckFires(p), t).procs[p]
      == w.procs[p].(checkDue := w.now + t.check,
                     checking := if w.procs[p].checking.Some? then w.procs[p].checking else Some(Check(w.now, None)))
    ensures Enabled(w, CheckServed(p), t) ==>
      Next(w, CheckServed(p), t).procs[p].checking
      == Some(Check(w.procs[p].checking.value.sent, Some(w.holder == w.procs[p].session)))
  {
  }

  /** The process after it lost its session: broken for good, and stopped with an error if it held the lease. */
  predicate LosesLease(was: Proc, now: Proc) {
    if was.held && !was.stopping
    then now == was.(broken := true, held := false, stopping := true, exitCode := 1)
    else now == was.(broken := true)
  }

  /** Only the answer that it holds the lock leaves the lease; any other, none in time, or an error loses it. */
  lemma OnlyHoldingKeepsTheLease(w: World, t: Timing, p: nat)
    ensures Enabled(w, CheckReturns(p), t) ==>
      var was, after := w.procs[p].(checking := None), Next(w, CheckReturns(p), t);
      if w.procs[p].checking.value.answer == Some(true) then after.procs[p] == was && after.broken == w.broken
      else
        && LosesLease(was, after.procs[p])
        && after.broken == w.broken + (if was.session.Some? then {was.session.value} else {})
    ensures Enabled(w, SessionError(p), t) ==>
      var after := Next(w, SessionError(p), t);
      LosesLease(w.procs[p], after.procs[p]) && after.broken == w.broken + {w.procs[p].session.value}
  {
  }

  /**
   * A release closes the process and frees the lock it had; its session is pooled only if it is trusted, alive
   * and unlocked where it held the lease, and is destroyed otherwise; a broken one is sent no unlock.
   */
  lemma ReleaseFrees(w: World, t: Timing, p: nat, unlocks: bool)
    requires Enabled(w, Release(p, unlocks), t)
    ensures var was, after := w.procs[p], Next(w, Release(p, unlocks), t);
      var s := was.session.value;
      var pooled := !was.broken && s in w.live && (was.held ==> unlocks);
      && after.procs[p] == was.(session := None, held := false, phase := Closed)
      && after.unlocked == (if was.held && !was.broken then w.unlocked + {s} else w.unlocked)
      && after.pool == (if pooled then w.pool + {s} else w.pool)
      && after.live == (if pooled then w.live else w.live - {s})
      && (s in w.live ==> after.holder == if w.holder == Some(s) then None else w.holder)
  {
  }

  /** How a round ends the wait: a broken session always, a lock only where shutdown hasn't begun. */
  lemma RoundEndsTheWait(waiting: Proc, r: Round, now: int, t: Timing)
    ensures WaitsOn(r) <==> r.attempt == Busy && !r.stopBefore && !r.stopDuring
    ensures var after := After(waiting, r, now, t);
      if WaitsOn(r) then true
      else if r.stopBefore then
        Ends(r) == StoppedFirst && after == waiting.(stopping := true, phase := Failed)
      else
        match r.attempt
        case Breaks =>
          Ends(r) == SessionFailed
          && after == waiting.(stopping := r.stopDuring, broken := true, exitCode := 1, phase := Failed)
        case Busy => Ends(r) == StoppedFirst && after == waiting.(stopping := true, phase := Failed)
        case Locked =>
          if r.stopDuring then
            Ends(r) == StoppedFirst
            && after == waiting.(stopping := true, held := true, phase := Failed, checkDue := now)
          else
            Ends(r) == Held
            && after == waiting.(stopping := false, held := true, phase := Acquired, checkDue := now + t.check)
  {
  }
}
