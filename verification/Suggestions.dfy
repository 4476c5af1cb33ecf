/**
 * /suggest: submissions in a chain, one at a time. Each checks the limits, posts, and records who sent
 * it, with awaits in between, at any of which shutdown may begin to drain the chain.
 */
module Suggestions {
  import opened Options
  import opened SuggestionLimits

  datatype Posting = Posted | Unconfirmed | NotPosted

  /** A submission: who sends it, the clock at each of its three checks, what GitHub answers, and its row's stamp. */
  datatype Submission = Submission(user: nat, hourAt: int, dayAt: int, allAt: int, posting: Posting, stampedAt: int)

  datatype Outcome = Sent | NotConfirmed | Failed | Stopping | Cooldown(until: int)

  /** The submission in progress: admitted and at GitHub, or answered and recording its attempt. */
  datatype Active = AtGitHub(s: Submission) | Recording(s: Submission)

  datatype Chain = Chain(
    rows: seq<Row>, active: Option<Active>, queue: seq<Submission>, draining: bool, answers: seq<Outcome>)

  const IDLE := Chain([], None, [], false, [])

  /** Each check in turn; the first that refuses names when it would admit. */
  function Refusal(rows: seq<Row>, s: Submission): Option<int> {
    var hour := Blocking(rows, Limits(s.user)[0], s.hourAt);
    if hour.Some? then Some(hour.value + HOUR)
    else
      var mine := Blocking(rows, Limits(s.user)[1], s.dayAt);
      if mine.Some? then Some(mine.value + DAY)
      else
        var all := Blocking(rows, Limits(s.user)[2], s.allAt);
        if all.Some? then Some(all.value + DAY) else None
  }

  function RowOf(s: Submission): Row { Row(s.stampedAt, s.user) }

  function Answered(s: Submission): Outcome {
    match s.posting
    case Posted => Sent
    case Unconfirmed => NotConfirmed
    case NotPosted => Failed
  }

  /** The chain's next step, from one await to the next. */
  function Advance(c: Chain): Chain {
    match c.active
    case Some(AtGitHub(s)) =>
      if s.posting == NotPosted then c.(active := None, answers := c.answers + [Failed])
      else c.(active := Some(Recording(s)))
    case Some(Recording(s)) => c.(active := None, rows := c.rows + [RowOf(s)], answers := c.answers + [Answered(s)])
    case None =>
      if c.queue == [] then c
      else
        var s, waiting := c.queue[0], c.(queue := c.queue[1..]);
        if c.draining then waiting.(answers := c.answers + [Stopping])
        else if Refusal(c.rows, s).Some? then waiting.(answers := c.answers + [Cooldown(Refusal(c.rows, s).value)])
        else waiting.(active := Some(AtGitHub(s)))
  }

  /** What happens to the chain: a submission joins it, it goes on, or shutdown begins. */
  datatype Event = Join(s: Submission) | Step | BeginDrain

  function Next(c: Chain, e: Event): Chain {
    match e
    case Join(s) => c.(queue := c.queue + [s])
    case Step => Advance(c)
    case BeginDrain => c.(draining := true)
  }

  function Run(c: Chain, events: seq<Event>): Chain
    decreases |events|
  {
    if events == [] then c else Run(Next(c, events[0]), events[1..])
  }

  /** The clock never runs back within a submission, nor from the rows before it. */
  ghost predicate Timely(rows: seq<Row>, s: Submission) {
    && s.hourAt <= s.dayAt <= s.allAt <= s.stampedAt
    && forall k :: 0 <= k < |rows| ==> rows[k].at <= s.hourAt
  }

  /** A submission's readings are timely when it comes to check. */
  ghost predicate RunsTimely(c: Chain, events: seq<Event>)
    decreases |events|
  {
    events == []
    || ((events[0].Step? && c.active.None? && c.queue != [] && !c.draining ==> Timely(c.rows, c.queue[0]))
        && RunsTimely(Next(c, events[0]), events[1..]))
  }

  ghost predicate Kept(rows: seq<Row>) {
    InOrder(rows) && forall user, k :: 0 <= k < 3 ==> Spaced(Stamps(rows, Limits(user)[k]), Limits(user)[k])
  }

  /** The one in progress was admitted against the rows as they still are. */
  ghost predicate Inv(c: Chain) {
    Kept(c.rows) && (c.active.Some? ==> Admitted(c.rows, c.active.value.s))
  }

  ghost predicate Admitted(rows: seq<Row>, s: Submission) { Timely(rows, s) && Refusal(rows, s).None? }

  /** Where the attempts stand that count against a member's limit, or everyone's with no user, since a time. */
  function Against(rows: seq<Row>, user: Option<nat>, since: int): set<nat> {
    set k: nat | k < |rows| && rows[k].at > since && (user.None? || rows[k].user == user.value)
  }

  /**
   * A submission is refused exactly when its member has an attempt in the last hour or three in the last day,
   * or everyone has ten in the last day, each at that check's reading of the clock.
   */
  lemma RefusedExactly(rows: seq<Row>, s: Submission)
    ensures Refusal(rows, s).None? <==>
      && |Against(rows, Some(s.user), s.hourAt - 3600)| < 1
      && |Against(rows, Some(s.user), s.dayAt - 86400)| < 3
      && |Against(rows, None, s.allAt - 86400)| < 10
  {
    RecentCounts(rows, Limits(s.user)[0], s.hourAt);
    RecentCounts(rows, Limits(s.user)[1], s.dayAt);
    RecentCounts(rows, Limits(s.user)[2], s.allAt);
  }

  lemma {:induction false} RecentCounts(rows: seq<Row>, l: Limit, now: int)
    ensures |Recent(Stamps(rows, l), l, now)| == |Against(rows, l.user, now - l.seconds)|
  {
    if rows != [] {
      var rest, last := rows[..|rows| - 1], rows[|rows| - 1];
      RecentCounts(rest, l, now);
      var counts := last.at > now - l.seconds && (l.user.None? || last.user == l.user.value);
      var place: set<nat> := if counts then {|rest|} else {};
      assert Against(rows, l.user, now - l.seconds) == Against(rest, l.user, now - l.seconds) + place;
      RecentAppended(Stamps(rest, l), last.at, l, now);
      assert Stamps(rest, l) + [] == Stamps(rest, l);
      hide Recent;
    }
  }

  lemma RecentAppended(stamps: seq<int>, at: int, l: Limit, now: int)
    ensures |Recent(stamps + [at], l, now)| == |Recent(stamps, l, now)| + if at > now - l.seconds then 1 else 0
  {
    assert (stamps + [at])[..|stamps|] == stamps;
  }

  /**
   * A refusal's `until` is of the first limit that refuses, and is the first instant at which that limit would
   * admit: behind the hour of the member's newest attempt, or the day of their third newest or everyone's tenth.
   */
  lemma CooldownIsTheFirstInstant(rows: seq<Row>, s: Submission, t: int)
    requires InOrder(rows) && Refusal(rows, s).Some?
    ensures var until := Refusal(rows, s).value;
      if |Against(rows, Some(s.user), s.hourAt - 3600)| >= 1 then
        until > s.hourAt && (t >= s.hourAt ==> (t >= until <==> |Against(rows, Some(s.user), t - 3600)| < 1))
      else if |Against(rows, Some(s.user), s.dayAt - 86400)| >= 3 then
        until > s.dayAt && (t >= s.dayAt ==> (t >= until <==> |Against(rows, Some(s.user), t - 86400)| < 3))
      else
        until > s.allAt && (t >= s.allAt ==> (t >= until <==> |Against(rows, None, t - 86400)| < 10))
  {
    var limits := Limits(s.user);
    FirstInstant(rows, limits[0], s.hourAt, t);
    FirstInstant(rows, limits[1], s.dayAt, t);
    FirstInstant(rows, limits[2], s.allAt, t);
    hide Blocking;
  }

  lemma FirstInstant(rows: seq<Row>, l: Limit, now: int, t: int)
    requires InOrder(rows) && l.most > 0
    ensures Blocking(rows, l, now).Some? <==> |Against(rows, l.user, now - l.seconds)| >= l.most
    ensures Blocking(rows, l, now).Some? ==> Blocking(rows, l, now).value + l.seconds > now
    ensures Blocking(rows, l, now).Some? && t >= now ==>
      (t >= Blocking(rows, l, now).value + l.seconds <==> |Against(rows, l.user, t - l.seconds)| < l.most)
  {
    RecentCounts(rows, l, now);
    RecentCounts(rows, l, t);
    if Blocking(rows, l, now).Some? { UntilIsTheFirstInstant(rows, l, now, if t >= now then t else now); }
  }

  lemma RecordKeepsLimits(rows: seq<Row>, s: Submission)
    requires Kept(rows) && Admitted(rows, s)
    ensures Kept(rows + [RowOf(s)])
  {
    var row := RowOf(s);
    forall user, k | 0 <= k < 3 ensures Spaced(Stamps(rows + [row], Limits(user)[k]), Limits(user)[k]) {
      var checked := if k == 0 then s.hourAt else if k == 1 then s.dayAt else s.allAt;
      assert Spaced(Stamps(rows, Limits(user)[k]), Limits(user)[k]);
      AdmittedKeepsSpacing(rows, Limits(user)[k], checked, row);
    }
  }

  lemma AdvanceKeepsInv(c: Chain)
    requires Inv(c) && (c.active.None? && c.queue != [] && !c.draining ==> Timely(c.rows, c.queue[0]))
    ensures Inv(Advance(c))
  {
    hide Kept, Timely, Refusal;
    if c.active.Some? && c.active.value.Recording? { RecordKeepsLimits(c.rows, c.active.value.s); }
  }

  /** Whoever submits, whenever rows are stamped and whenever shutdown begins, the limits hold. */
  lemma {:induction false} RunsKeepLimits(c: Chain, events: seq<Event>)
    requires Inv(c) && RunsTimely(c, events)
    ensures Inv(Run(c, events))
    decreases |events|
  {
    if events != [] {
      if events[0].Step? { AdvanceKeepsInv(c); }
      hide Kept, Timely, Refusal, Advance;
      RunsKeepLimits(Next(c, events[0]), events[1..]);
    }
  }

  /** Any hour holds at most one of a member's suggestions, any day three of theirs and ten in all. */
  lemma EverySpanWithinLimits(rows: seq<Row>, user: nat, from: int)
    requires Kept(rows)
    ensures InSpan(Stamps(rows, Limit(Some(user), HOUR, 1)), from, HOUR) <= 1
    ensures InSpan(Stamps(rows, Limit(Some(user), DAY, PER_DAY)), from, DAY) <= PER_DAY
    ensures InSpan(Stamps(rows, Limit(None, DAY, ALL_PER_DAY)), from, DAY) <= ALL_PER_DAY
  {
    forall k | 0 <= k < 3
      ensures InSpan(Stamps(rows, Limits(user)[k]), from, Limits(user)[k].seconds) <= Limits(user)[k].most
    {
      assert Spaced(Stamps(rows, Limits(user)[k]), Limits(user)[k]);
      StampsInOrder(rows, Limits(user)[k]);
      SpansHoldTheLimit(Stamps(rows, Limits(user)[k]), Limits(user)[k], from);
    }
    assert Limits(user)[0] == Limit(Some(user), HOUR, 1);
    assert Limits(user)[1] == Limit(Some(user), DAY, PER_DAY);
    assert Limits(user)[2] == Limit(None, DAY, ALL_PER_DAY);
  }

  lemma TwoStamps(at: int, user: nat)
    ensures Stamps([Row(at, user), Row(at, user)], Limit(Some(user), HOUR, 1)) == [at, at]
  {
    var both, l := [Row(at, user), Row(at, user)], Limit(Some(user), HOUR, 1);
    assert both[..1] == [both[0]] && both[..1][..0] == [];
    assert Stamps(both[..1], l) == [] + [at];
  }

  lemma TwoInSpan(at: int)
    ensures InSpan([at, at], at - 1, HOUR) == 2
  {
    var stamps := [at, at];
    assert stamps[..1] == [at] && [at][..0] == [];
    assert Upto(stamps, at - 1) == Upto([at], at - 1) == 0;
    assert Upto(stamps, at - 1 + HOUR) == Upto([at], at - 1 + HOUR) + 1 == 2;
  }

  /** Two submissions checked side by side would both be admitted: the limits need them one at a time. */
  lemma SideBySideBreaksTheLimit(s: Submission)
    requires Timely([], s)
    ensures Refusal([], s).None?
    ensures InSpan(Stamps([RowOf(s), RowOf(s)], Limit(Some(s.user), HOUR, 1)), s.stampedAt - 1, HOUR) == 2
  {
    hide InSpan;
    TwoStamps(s.stampedAt, s.user);
    TwoInSpan(s.stampedAt);
  }

  /** Joining takes the last place, and shutdown only closes the door. */
  lemma JoiningWaits(c: Chain, s: Submission)
    ensures Next(c, Join(s)) == c.(queue := c.queue + [s])
    ensures Next(c, BeginDrain) == c.(draining := true)
  {
  }

  /** A submission whose turn has come is refused while the chain drains or a limit blocks it, else posted. */
  lemma TurnBegins(c: Chain)
    requires c.active.None? && c.queue != []
    ensures var s, rest := c.queue[0], c.(queue := c.queue[1..]);
      var blocked := |Against(c.rows, Some(s.user), s.hourAt - 3600)| >= 1
        || |Against(c.rows, Some(s.user), s.dayAt - 86400)| >= 3 || |Against(c.rows, None, s.allAt - 86400)| >= 10;
      if c.draining then Advance(c) == rest.(answers := c.answers + [Stopping])
      else if blocked then
        Refusal(c.rows, s).Some? && Advance(c) == rest.(answers := c.answers + [Cooldown(Refusal(c.rows, s).value)])
      else Advance(c) == rest.(active := Some(AtGitHub(s)))
  {
    RefusedExactly(c.rows, c.queue[0]);
    hide Refusal, Against;
  }

  /**
   * Posted, it is recorded with its sender and stamp and answered, even where GitHub's answer was lost;
   * where GitHub surely took nothing, nothing is recorded.
   */
  lemma TurnEnds(c: Chain)
    requires c.active.Some? && c.active.value.AtGitHub?
    ensures var s, rest := c.active.value.s, c.(active := None);
      match s.posting
      case NotPosted => Advance(c) == rest.(answers := c.answers + [Failed])
      case Posted =>
        Advance(Advance(c)) == rest.(rows := c.rows + [Row(s.stampedAt, s.user)], answers := c.answers + [Sent])
      case Unconfirmed =>
        Advance(Advance(c)) == rest.(rows := c.rows + [Row(s.stampedAt, s.user)], answers := c.answers + [NotConfirmed])
  {
  }

  /** What the submission in progress still adds: its row, and its sender's answer. */
  function InProgressRows(c: Chain): seq<Row> {
    match c.active
    case None => []
    case Some(AtGitHub(s)) => if s.posting == NotPosted then [] else [RowOf(s)]
    case Some(Recording(s)) => [RowOf(s)]
  }

  function InProgressAnswer(c: Chain): seq<Outcome> {
    match c.active
    case None => []
    case Some(AtGitHub(s)) => [Answered(s)]
    case Some(Recording(s)) => [Answered(s)]
  }

  class Suggestions {
    var rows: seq<Row>
    var active: Option<Active>
    var queue: seq<Submission>
    var draining: bool
    var answers: seq<Outcome>

    constructor ()
      ensures Contents() == IDLE && Inv(Contents())
    {
      rows, active, queue, draining, answers := [], None, [], false, [];
    }

    function Contents(): Chain
      reads this
    {
      Chain(rows, active, queue, draining, answers)
    }

    /** `limits`: each check against its own clock reading. */
    method CheckLimits(s: Submission) returns (refusal: Option<int>)
      ensures refusal == Refusal(rows, s)
    {
      var limits := Limits(s.user);
      var hour := Blocking(rows, limits[0], s.hourAt);
      if hour.Some? { return Some(hour.value + HOUR); }
      var mine := Blocking(rows, limits[1], s.dayAt);
      if mine.Some? { return Some(mine.value + DAY); }
      var all := Blocking(rows, limits[2], s.allAt);
      if all.Some? { return Some(all.value + DAY); }
      refusal := None;
    }

    /** `submit`'s turn in the chain and `publish`, up to the next await. */
    method Proceed()
      modifies this
      ensures Contents() == Advance(old(Contents()))
    {
      if active.Some? {
        var s := active.value.s;
        if active.value.AtGitHub? && s.posting != NotPosted {
          active := Some(Recording(s));
          return;
        }
        if active.value.Recording? { rows := rows + [RowOf(s)]; }
        active, answers := None, answers + [Answered(s)];
        return;
      }
      if queue == [] { return; }
      var s := queue[0];
      queue := queue[1..];
      if draining {
        answers := answers + [Stopping];
        return;
      }
      var refusal := CheckLimits(s);
      if refusal.Some? {
        answers := answers + [Cooldown(refusal.value)];
        return;
      }
      active := Some(AtGitHub(s));
    }

    /**
     * `drain`, begun at any await: the submission in progress finishes, its row included, every other is
     * refused, those that join meanwhile too, and the limits hold with that row.
     */
    method Drain(arrivals: seq<seq<Submission>>)
      requires Inv(Contents())
      modifies this
      ensures draining && active.None? && queue == [] && Inv(Contents())
      ensures rows == old(rows) + InProgressRows(old(Contents()))
      ensures old(answers) + InProgressAnswer(old(Contents())) <= answers
      ensures |answers| == |old(answers) + InProgressAnswer(old(Contents()))| + |old(queue)| + Joined(arrivals)
      ensures forall k :: |old(answers) + InProgressAnswer(old(Contents()))| <= k < |answers| ==> answers[k] == Stopping
    {
      hide Inv, Refusal;
      ghost var told := old(answers) + InProgressAnswer(old(Contents()));
      draining := true;
      DrainingKeepsInv(old(Contents()));
      FinishInProgress();
      var waits := 0;
      while queue != [] || waits < |arrivals|
        invariant waits <= |arrivals| && draining && active.None? && Inv(Contents())
        invariant rows == old(rows) + InProgressRows(old(Contents()))
        invariant told <= answers
        invariant |answers| + |queue| + Joined(arrivals[waits..]) == |told| + |old(queue)| + Joined(arrivals)
        invariant forall k :: |told| <= k < |answers| ==> answers[k] == Stopping
        decreases |arrivals| - waits, |queue|
      {
        if queue != [] {
          RefusingKeepsInv(Contents());
          Proceed();
        } else {
          queue := arrivals[waits];
          JoiningKeepsInv(Contents(), arrivals[waits]);
          waits := waits + 1;
        }
      }
    }

    method FinishInProgress()
      requires Inv(Contents()) && draining
      modifies this
      ensures active.None? && draining && queue == old(queue) && Inv(Contents())
      ensures rows == old(rows) + InProgressRows(old(Contents()))
      ensures answers == old(answers) + InProgressAnswer(old(Contents()))
    {
      hide Inv, Refusal;
      while active.Some?
        invariant Inv(Contents()) && draining && queue == old(queue)
        invariant rows + InProgressRows(Contents()) == old(rows) + InProgressRows(old(Contents()))
        invariant answers + InProgressAnswer(Contents()) == old(answers) + InProgressAnswer(old(Contents()))
        decreases if active.None? then 0 else if active.value.Recording? then 1 else 2
      {
        InProgressKeepsInv(Contents());
        Proceed();
      }
    }
  }

  function Joined(arrivals: seq<seq<Submission>>): nat {
    if arrivals == [] then 0 else |arrivals[0]| + Joined(arrivals[1..])
  }

  lemma DrainingKeepsInv(c: Chain)
    requires Inv(c)
    ensures Inv(c.(draining := true))
  {
  }

  lemma InProgressKeepsInv(c: Chain)
    requires Inv(c) && c.active.Some?
    ensures Inv(Advance(c))
  {
    AdvanceKeepsInv(c);
  }

  lemma RefusingKeepsInv(c: Chain)
    requires Inv(c) && c.active.None? && c.draining
    ensures Inv(Advance(c))
  {
    AdvanceKeepsInv(c);
  }

  lemma JoiningKeepsInv(c: Chain, queue: seq<Submission>)
    requires Inv(c.(queue := []))
    ensures Inv(c.(queue := queue))
  {
  }
}
