/** One process's side of the writer lease, step by step. */
module Lifecycle {
  import opened Options
  import opened LeaseWorld

  /** One round of the wait: shutdown may begin before the attempt or while it runs. */
  datatype Attempting = Busy | Locked | Breaks
  datatype Round = Round(stopBefore: bool, attempt: Attempting, stopDuring: bool)

  datatype Acquiring = Held | StillWaiting | StoppedFirst | SessionFailed

  /** What became of a lease client. */
  datatype Fate = NoClient | Destroyed | Pooled

  predicate WaitsOn(r: Round) { !r.stopBefore && r.attempt == Busy && !r.stopDuring }

  /** How the wait ends at a round that doesn't wait on: only a granted lock without shutdown succeeds. */
  function Ends(r: Round): Acquiring {
    if !r.stopBefore && r.attempt == Breaks then SessionFailed
    else if !r.stopBefore && r.attempt == Locked && !r.stopDuring then Held
    else StoppedFirst
  }

  function After(waiting: Proc, r: Round, now: int, t: Timing): Proc {
    var p := waiting.(stopping := r.stopBefore || r.stopDuring);
    if r.stopBefore || r.attempt == Busy then p.(phase := Failed)
    else if r.attempt == Breaks then WaitFailed(p)
    else Granted(p, now, t)
  }

  class ApplicationLifecycle {
    const version: nat
    var phase: Phase
    var lease: Option<nat>
    var leaseHeld: bool
    var leaseBroken: bool
    var stopping: bool
    var exitCode: nat
    var checkDue: int
    var checking: Option<Check>

    constructor (version: nat)
      ensures Me() == NewProc(version)
    {
      this.version, phase, lease, leaseHeld, leaseBroken := version, Starting, None, false, false;
      stopping, exitCode, checkDue, checking := false, 0, 0, None;
    }

    function Me(): Proc
      reads this
    {
      Proc(version, phase, lease, leaseHeld, leaseBroken, stopping, exitCode, checkDue, checking)
    }

    /** `acquireWriterLease`: attempt, wait and attempt again until a round settles it. */
    method Acquire(session: nat, rounds: seq<Round>, now: int, t: Timing) returns (r: Acquiring, ghost n: nat)
      requires phase == Starting && !stopping && !leaseHeld && !leaseBroken
      modifies this
      ensures n <= |rounds| && forall k :: 0 <= k < n ==> WaitsOn(rounds[k])
      ensures n == |rounds| ==> r == StillWaiting && Me() == Connected(old(Me()), session)
      ensures n < |rounds| ==> !WaitsOn(rounds[n]) && r == Ends(rounds[n])
      ensures n < |rounds| ==> Me() == After(Connected(old(Me()), session), rounds[n], now, t)
    {
      lease, phase := Some(session), Waiting;
      n := 0;
      var i := 0;
      while i < |rounds|
        invariant i == n <= |rounds| && forall k :: 0 <= k < n ==> WaitsOn(rounds[k])
        invariant Me() == Connected(old(Me()), session)
      {
        stopping := rounds[i].stopBefore;
        if stopping {
          stopping, phase := true, Failed;
          return StoppedFirst, n;
        }
        stopping := rounds[i].stopDuring;
        match rounds[i].attempt {
          case Breaks =>
            leaseBroken, exitCode, phase := true, 1, Failed;
            return SessionFailed, n;
          case Locked =>
            leaseHeld := true;
            if stopping {
              phase, checkDue := Failed, now;
              return StoppedFirst, n;
            }
            phase, checkDue := Acquired, now + t.check;
            return Held, n;
          case Busy =>
            if stopping {
              phase := Failed;
              return StoppedFirst, n;
            }
        }
        i, n := i + 1, n + 1;
      }
      r := StillWaiting;
    }

    /** `leaseLost`: whatever the phase, the session is not trusted again. */
    method LeaseLost() returns (stops: bool)
      modifies this
      ensures Me() == Lost(old(Me()))
      ensures stops <==> old(leaseHeld) && !old(stopping)
    {
      leaseBroken := true;
      if !leaseHeld || stopping { return false; }
      leaseHeld, exitCode := false, 1;
      stopping := true;
      stops := true;
    }

    /** `checkWriterLease`, once its query ends. */
    method CheckEnds(answer: Option<bool>)
      requires checking.Some?
      modifies this
      ensures Me() == Returned(old(Me()), answer)
    {
      checking := None;
      if answer != Some(true) {
        var _ := LeaseLost();
      }
    }

    /** `start`, up to its first write: the lease is held, and the bot that logged in is the configured one. */
    method Start(application: nat, configured: nat) returns (ok: bool)
      modifies this`phase
      ensures Me() == Launched(old(Me()), application == configured)
      ensures ok <==> phase == Started
    {
      phase := Failed;
      if !leaseHeld { return false; }
      if application != configured { return false; }
      phase, ok := Started, true;
    }

    /** `releaseWriterLease`: unlocks and pools only a session it still trusts. */
    method ReleaseLease(alive: bool, unlocks: bool) returns (fate: Fate, unlockSent: bool)
      requires checking.None? && phase != Waiting
      modifies this
      ensures old(lease).Some? ==> Me() == Released(old(Me()))
      ensures unlockSent <==> old(lease).Some? && old(leaseHeld) && !old(leaseBroken)
      ensures fate == if old(lease).None? then NoClient
                      else if old(leaseBroken) || !alive || (old(leaseHeld) && !unlocks) then Destroyed
                      else Pooled
    {
      unlockSent := false;
      if lease.None? { return NoClient, false; }
      var held := leaseHeld;
      lease, leaseHeld, phase := None, false, Closed;
      if leaseBroken { return Destroyed, false; }
      if held {
        unlockSent := true;
        if !alive || !unlocks { return Destroyed, true; }
      }
      fate := if alive then Pooled else Destroyed;
    }
  }
}
