/** The member's limits on opening cases: what each counts, and that no run passes the daily one. */
module ModMailLimits {
  import opened Options
  import opened Searching
  import opened ModMailCases
  import opened ModMailInvariants
  import opened ModMailRuns

  /** Where the member's open cases stand. */
  function OpenCases(cases: seq<Case>, user: nat): set<nat> {
    set k: nat | k < |cases| && cases[k].opener == user && cases[k].state != ClosedCase
  }

  /** Where the member's cases opened after `time` stand. */
  function OpenedAfter(cases: seq<Case>, user: nat, time: int): set<nat> {
    set k: nat | k < |cases| && cases[k].opener == user && cases[k].openedAt > time
  }

  lemma {:induction false} OpenCountIsSize(cases: seq<Case>, user: nat)
    ensures OpenCount(cases, user) == |OpenCases(cases, user)|
  {
    var ofUser := (c: Case) => c.opener == user && c.state != ClosedCase;
    assert OpenCases(cases, user) == Where(cases, ofUser);
    if cases != [] {
      var rest, last := cases[..|cases| - 1], cases[|cases| - 1];
      assert cases == rest + [last] && OpenCases(rest, user) == Where(rest, ofUser);
      OpenCountIsSize(rest, user);
      CountAppended(rest, last, user);
      WhereAppended(rest, last, ofUser);
    }
  }

  lemma {:induction false} DailyAppended(cases: seq<Case>, c: Case, user: nat, now: int)
    ensures DailyCount(cases + [c], user, now)
         == DailyCount(cases, user, now) + if c.opener == user && c.openedAt > now - 86400 then 1 else 0
  {
    if cases == [] {
      assert [c][1..] == [];
    } else {
      assert (cases + [c])[1..] == cases[1..] + [c];
      DailyAppended(cases[1..], c, user, now);
    }
  }

  lemma {:induction false} DailyCountIsSize(cases: seq<Case>, user: nat, now: int)
    ensures DailyCount(cases, user, now) == |OpenedAfter(cases, user, now - 86400)|
  {
    var ofUser := (c: Case) => c.opener == user && c.openedAt > now - 86400;
    assert OpenedAfter(cases, user, now - 86400) == Where(cases, ofUser);
    if cases != [] {
      var rest, last := cases[..|cases| - 1], cases[|cases| - 1];
      assert cases == rest + [last] && OpenedAfter(rest, user, now - 86400) == Where(rest, ofUser);
      DailyCountIsSize(rest, user, now);
      DailyAppended(rest, last, user, now);
      WhereAppended(rest, last, ofUser);
    }
  }

  /** A text the form may carry. */
  predicate Writable(text: string, max: nat) { 1 <= |text| <= max && '\0' !in text }

  /** An open form past the tests before the limits: allowed, well formed, not a repeat, and mod mail on. */
  ghost predicate ReachesLimits(s: Store, form: Event) {
    && form.OpenForm? && !form.actor.paused && form.actor.mayUse
    && Writable(form.topic, 100) && Writable(form.body, 4000)
    && (form.minted.Some? ==> forall k :: 0 <= k < |s.cases| ==> s.cases[k].id != form.minted.value)
    && s.enabled
  }

  /**
   * A form that comes so far is refused for three open cases of the member's, or else for five opened in the
   * last 24 hours, counted over the stored cases; otherwise it opens one, unless an ID is taken.
   */
  lemma LimitsAnswer(s: Store, form: Event)
    requires ReachesLimits(s, form)
    ensures var open := |OpenCases(s.cases, form.actor.user)|;
      var daily := |OpenedAfter(s.cases, form.actor.user, form.at - 86400)|;
      && (Step(s, form).outcome == Refused(OpenLimit) <==> open >= 3)
      && (Step(s, form).outcome == Refused(DailyLimit) <==> open < 3 && daily >= 5)
      && (open < 3 && daily < 5 ==> Step(s, form).outcome == Fault || Step(s, form).outcome == Opened(s.lastNumber + 1))
      && (Step(s, form).outcome.Opened? ==> open < 3 && daily < 5)
  {
    OpenCountIsSize(s.cases, form.actor.user);
    DailyCountIsSize(s.cases, form.actor.user, form.at);
    hide OpenCount, DailyCount, Taken;
  }

  /** The forms of a run by which the member opened a case, as the times they came. */
  function Openings(s: Store, events: seq<Event>, user: nat): seq<int>
    decreases |events|
  {
    if events == [] then []
    else
      var rest := Openings(Step(s, events[0]).store, events[1..], user);
      if Opens(s, events[0], user) then [events[0].at] + rest else rest
  }

  /** A case was added, opened by the member. */
  predicate Opens(s: Store, event: Event, user: nat) {
    event.OpenForm? && event.actor.user == user && |Step(s, event).store.cases| > |s.cases|
  }

  /** The openings in the 24 hours up to `time`. */
  function Within(times: seq<int>, time: int): set<nat> {
    set k: nat | k < |times| && time - 86400 < times[k] <= time
  }

  function Since(times: seq<int>, time: int): set<nat> { set k: nat | k < |times| && times[k] > time }

  lemma {:induction false} SubsetSize(a: set<nat>, b: set<nat>)
    requires a <= b
    ensures |a| <= |b|
    decreases |a|
  {
    if a != {} {
      var x :| x in a;
      SubsetSize(a - {x}, b - {x});
    }
  }

  /** A case was opened by now, and is kept for the whole retention from its opening on. */
  ghost predicate Timed(c: Case, now: int) {
    c.openedAt <= now && (c.deleteAfter.Some? ==> c.deleteAfter.value >= c.openedAt + RETENTION)
  }

  ghost predicate AllTimed(cases: seq<Case>, now: int) { forall k :: 0 <= k < |cases| ==> Timed(cases[k], now) }

  /** Every opening of the last day is a case still stored. */
  ghost predicate Stored(s: Store, times: seq<int>, user: nat, now: int) {
    && AllTimed(s.cases, now)
    && (forall k :: 0 <= k < |times| ==> times[k] <= now)
    && forall time :: time >= now - 86400 ==> |Since(times, time)| <= |OpenedAfter(s.cases, user, time)|
  }

  lemma KeptAppended(cases: seq<Case>, c: Case, now: int)
    ensures Kept(cases + [c], now) == Kept(cases, now) + if Expired(c, now) then [] else [c]
    decreases |cases|
  {
    if cases == [] {
      assert [c][1..] == [] && [] + [c] == [c];
    } else {
      assert (cases + [c])[1..] == cases[1..] + [c];
      KeptAppended(cases[1..], c, now);
    }
  }

  lemma AppendedAfter(cases: seq<Case>, c: Case, user: nat, time: int)
    ensures |OpenedAfter(cases + [c], user, time)|
         == |OpenedAfter(cases, user, time)| + if c.opener == user && c.openedAt > time then 1 else 0
  {
    var first: set<nat> := if c.opener == user && c.openedAt > time then {|cases|} else {};
    assert OpenedAfter(cases + [c], user, time) == OpenedAfter(cases, user, time) + first;
  }

  lemma {:induction false} PruneKeepsRecent(cases: seq<Case>, user: nat, time: int, now: int)
    requires AllTimed(cases, now) && time >= now - 86400
    ensures |OpenedAfter(Kept(cases, now), user, time)| == |OpenedAfter(cases, user, time)|
  {
    if cases != [] {
      var rest, last := cases[..|cases| - 1], cases[|cases| - 1];
      assert cases == rest + [last] && Timed(last, now);
      PruneKeepsRecent(rest, user, time, now);
      KeptAppended(rest, last, now);
      AppendedAfter(rest, last, user, time);
      AppendedAfter(Kept(rest, now), last, user, time);
      assert Kept(rest, now) + [] == Kept(rest, now);
    }
  }

  /** A form changes at most one case's thread and dates, and adds at most one case. */
  lemma FormChanges(s: Store, event: Event, now: int)
    requires AllTimed(s.cases, now) && event.at >= now && !event.Prune?
    ensures var after := Step(s, event).store.cases;
      && AllTimed(after, event.at)
      && |s.cases| <= |after| <= |s.cases| + 1
      && (forall k :: 0 <= k < |s.cases| ==>
           after[k].opener == s.cases[k].opener && after[k].openedAt == s.cases[k].openedAt)
      && (|after| > |s.cases| ==>
           && event.OpenForm? && after == s.cases + [after[|s.cases|]]
           && after[|s.cases|].opener == event.actor.user && after[|s.cases|].openedAt == event.at)
  {
    hide OpenedBefore, OpenCount, DailyCount, Taken, Repeated, Messages, TextProblem, Holder, MayAccess;
    assert forall k :: 0 <= k < |s.cases| ==> Timed(s.cases[k], event.at);
  }

  lemma StoredStays(s: Store, event: Event, times: seq<int>, user: nat, now: int)
    requires Stored(s, times, user, now) && event.at >= now
    ensures Stored(Step(s, event).store, if Opens(s, event, user) then times + [event.at] else times, user, event.at)
  {
    var after := Step(s, event).store;
    var more := if Opens(s, event, user) then times + [event.at] else times;
    if event.Prune? {
      assert AllTimed(s.cases, event.at);
      KeptIsSubset(s.cases, event.at);
      forall k | 0 <= k < |after.cases| ensures Timed(after.cases[k], event.at) { assert after.cases[k] in s.cases; }
    } else {
      FormChanges(s, event, now);
    }
    forall time | time >= event.at - 86400 ensures |Since(more, time)| <= |OpenedAfter(after.cases, user, time)| {
      if event.Prune? {
        PruneKeepsRecent(s.cases, user, time, event.at);
      } else if |after.cases| > |s.cases| {
        AppendedAfter(s.cases, after.cases[|s.cases|], user, time);
        if event.actor.user == user {
          assert Since(more, time) == Since(times, time) + if event.at > time then {|times|} else {};
        }
      } else {
        assert OpenedAfter(after.cases, user, time) == OpenedAfter(s.cases, user, time);
      }
    }
  }

  ghost predicate AtMostFive(times: seq<int>) { forall time :: |Within(times, time)| <= 5 }

  lemma OpeningStaysWithin(s: Store, event: Event, times: seq<int>, user: nat, now: int)
    requires Stored(s, times, user, now) && event.at >= now && Opens(s, event, user) && AtMostFive(times)
    ensures AtMostFive(times + [event.at])
  {
    var more := times + [event.at];
    OpenedUnderTheLimit(s, event, user);
    assert |Since(times, event.at - 86400)| <= 4;
    forall time ensures |Within(more, time)| <= 5 {
      if event.at <= time && time - 86400 < event.at {
        SubsetSize(Within(times, time), Since(times, event.at - 86400));
        assert Within(more, time) == Within(times, time) + {|times|};
      } else {
        assert Within(more, time) == Within(times, time);
      }
    }
  }

  lemma OpenedUnderTheLimit(s: Store, event: Event, user: nat)
    requires Opens(s, event, user)
    ensures |OpenedAfter(s.cases, user, event.at - 86400)| < 5
  {
    hide OpenCount, DailyCount, OpenedBefore, TextProblem, Taken;
    DailyCountIsSize(s.cases, user, event.at);
  }

  ghost predicate InOrder(events: seq<Event>, start: int) {
    events == [] || (events[0].at >= start && InOrder(events[1..], events[0].at))
  }

  lemma {:induction false} RunsStayWithin(s: Store, events: seq<Event>, times: seq<int>, user: nat, now: int)
    requires Stored(s, times, user, now) && InOrder(events, now) && AtMostFive(times)
    ensures AtMostFive(times + Openings(s, events, user))
    decreases |events|
  {
    if events == [] {
      assert times + [] == times;
    } else {
      hide Step, Stored, AtMostFive, Opens;
      var next, at := Step(s, events[0]).store, events[0].at;
      StoredStays(s, events[0], times, user, now);
      if Opens(s, events[0], user) {
        OpeningStaysWithin(s, events[0], times, user, now);
        RunsStayWithin(next, events[1..], times + [at], user, at);
        assert times + [at] + Openings(next, events[1..], user) == times + ([at] + Openings(next, events[1..], user));
      } else {
        RunsStayWithin(next, events[1..], times, user, at);
      }
    }
  }

  /**
   * Over every run of forms and retention whose times don't run back, no member opens more than five cases
   * in any 24 hours.
   */
  lemma NoMoreThanFiveADay(enabled: bool, events: seq<Event>, start: int, user: nat, time: int)
    requires InOrder(events, start)
    ensures |Within(Openings(Fresh(enabled), events, user), time)| <= 5
  {
    assert forall t :: Within([], t) == {} && Since([], t) == {};
    RunsStayWithin(Fresh(enabled), events, [], user, start);
    assert [] + Openings(Fresh(enabled), events, user) == Openings(Fresh(enabled), events, user);
  }
}
