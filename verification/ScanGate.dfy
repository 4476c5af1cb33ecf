/**
 * The release scan gate: one run over two clocks, which accepts one report for each platform and
 * then finishes, or refuses for good.
 */
module ScanGate {
  import opened Options

  const MAX_LIFETIME: int := 30 * 24 * 60 * 60_000
  const MAX_OPERATION: int := 30 * 60_000
  const WRITE_WINDOW: int := 10 * 60_000
  const MAX_ENTRIES := 32
  const MAX_RESULTS := 1024
  const MAX_FINDINGS := 65_536

  datatype Platform = Amd64 | Arm64

  /** Every identifying field of one finding; two findings are the same only field by field. */
  datatype Finding = Finding(
    platform: Platform,
    osPackages: bool,
    resultType: string,
    resultTarget: string,
    osExtended: Option<bool>,
    vulnerability: string,
    package: string,
    packageId: Option<string>,
    packagePath: Option<string>,
    packagePurl: Option<string>,
    installed: string,
    fixedVersion: string,
    critical: bool)

  datatype Entry = Entry(finding: Finding, reviewedAt: int, expiresAt: int)

  type Policy = seq<Entry>

  predicate ValidPolicy(p: Policy) {
    && |p| <= MAX_ENTRIES
    && (forall k :: 0 <= k < |p| ==> 0 < p[k].reviewedAt < p[k].expiresAt <= p[k].reviewedAt + MAX_LIFETIME)
    && (forall k :: 0 <= k < |p| ==> p[k].finding.packageId.Some? || p[k].finding.packagePurl.Some?)
    && (forall i, j :: 0 <= i < j < |p| ==> p[i].finding != p[j].finding)
  }

  predicate Permitted(p: Policy, f: Finding) { exists k :: 0 <= k < |p| && p[k].finding == f }

  /** One reading of both clocks; None is a reading that is no time at all. */
  datatype Clock = Clock(wall: Option<int>, physical: Option<real>)

  /** One result of a report: its identity and the findings its vulnerabilities make. */
  datatype Result = Result(osPackages: bool, resultType: string, target: string, findings: seq<Finding>)

  /** A parsed report: what it says it scanned, and whether every other field check holds. */
  datatype Report = Report(reference: string, platform: Platform, results: seq<Result>, sound: bool)

  const IMAGE := "ghcr.io/deconfined/tarubot"

  function Findings(results: seq<Result>): seq<Finding> {
    if results == [] then [] else results[0].findings + Findings(results[1..])
  }

  predicate DistinctResults(results: seq<Result>) {
    forall i, j :: 0 <= i < j < |results| ==>
      (results[i].osPackages, results[i].resultType, results[i].target)
      != (results[j].osPackages, results[j].resultType, results[j].target)
  }

  predicate DistinctFindings(findings: seq<Finding>) {
    forall i, j :: 0 <= i < j < |findings| ==> findings[i] != findings[j]
  }

  /** The report speaks of this child image, and the policy allows each of its findings. */
  predicate Allowed(p: Policy, platform: Platform, digest: string, report: Report) {
    var findings := Findings(report.results);
    && report.sound && report.reference == IMAGE + "@" + digest && report.platform == platform
    && |report.results| <= MAX_RESULTS && DistinctResults(report.results)
    && |findings| <= MAX_FINDINGS && DistinctFindings(findings)
    && forall k :: 0 <= k < |findings| ==> Permitted(p, findings[k])
  }

  /** An instant at which every check of the clocks passed. */
  datatype Moment = Moment(at: int, elapsed: real, effective: real)

  /** The gate's fields; `moments` and `evidence` are what it has accepted so far. */
  datatype State = State(
    started: int,
    physicalStarted: real,
    last: int,
    physicalLast: real,
    reports: map<Platform, string>,
    failed: bool,
    finished: bool,
    moments: seq<Moment>,
    evidence: map<Platform, seq<Finding>>)

  function Larger(a: real, b: real): real { if a < b then b else a }

  /** Both clocks moved forward, within the operation, and no exception is early or expired. */
  function Ticked(s: State, p: Policy, c: Clock): Option<State> {
    if s.failed || s.finished || c.wall.None? || c.physical.None? then None
    else
      var at, physical := c.wall.value, c.physical.value;
      var elapsed := physical - s.physicalStarted;
      var effective := Larger(at as real, s.started as real + elapsed);
      if at <= 0 || at < s.last || physical < s.physicalLast
         || at - s.started >= MAX_OPERATION || elapsed >= MAX_OPERATION as real then None
      else if exists k :: 0 <= k < |p| && (p[k].reviewedAt > at || effective >= p[k].expiresAt as real) then None
      else Some(s.(last := at, physicalLast := physical,
                   moments := s.moments + [Moment(at, elapsed, effective)]))
  }

  datatype Call =
    | Check(first: Clock, platform: Platform, digest: string, wellBound: bool, report: Option<Report>, second: Clock)
    | Finish(at: Clock)
    | Window(opening: Clock, closing: Clock)

  function Failed(s: State): State { s.(failed := true) }

  function Checked(s: State, p: Policy, call: Call): Option<State>
    requires call.Check?
  {
    var entered := Ticked(s, p, call.first);
    if entered.None? || !call.wellBound || call.platform in s.reports || call.digest in s.reports.Values
       || call.report.None? || !Allowed(p, call.platform, call.digest, call.report.value) then None
    else
      var left := Ticked(entered.value, p, call.second);
      if left.None? then None
      else Some(left.value.(
                  reports := s.reports[call.platform := call.digest],
                  evidence := s.evidence[call.platform := Findings(call.report.value.results)]))
  }

  function Finished(s: State, p: Policy, at: Clock): Option<State> {
    var ticked := Ticked(s, p, at);
    if ticked.None? || s.reports.Keys != {Amd64, Arm64} then None
    else Some(ticked.value.(finished := true))
  }

  /** Every exception outlives the moment by the write window. */
  predicate Outlives(s: State, p: Policy)
    requires s.moments != []
  {
    forall k :: 0 <= k < |p| ==>
      p[k].expiresAt as real > s.moments[|s.moments| - 1].effective + WRITE_WINDOW as real
  }

  function Windowed(s: State, p: Policy, call: Call): Option<State>
    requires call.Window?
  {
    var entered := Ticked(s, p, call.opening);
    if entered.None? || !Outlives(entered.value, p) then None
    else
      var left := Ticked(entered.value, p, call.closing);
      if left.None? || !Outlives(left.value, p) then None else left
  }

  /** An accepted call's state, or None when the call throws. */
  function Accepted(s: State, p: Policy, call: Call): Option<State> {
    match call
    case Check(_, _, _, _, _, _) => Checked(s, p, call)
    case Finish(at) => Finished(s, p, at)
    case Window(_, _) => Windowed(s, p, call)
  }

  function Next(s: State, p: Policy, call: Call): State {
    var accepted := Accepted(s, p, call);
    if accepted.Some? then accepted.value else Failed(s)
  }

  function Run(s: State, p: Policy, calls: seq<Call>): State
    decreases |calls|
  {
    if calls == [] then s else Run(Next(s, p, calls[0]), p, calls[1..])
  }

  /** The state a constructor leaves, before its own first check of the clocks. */
  function Opened(started: int, physical: real): State {
    State(started, physical, started, physical, map[], false, false, [], map[])
  }

  /** Both clocks by which an exception may expire. */
  ghost predicate BeforeExpiry(s: State, p: Policy, m: Moment) {
    forall k :: 0 <= k < |p| ==>
      p[k].reviewedAt <= m.at < p[k].expiresAt
      && s.started as real + m.elapsed < p[k].expiresAt as real
  }

  ghost predicate TimesInv(s: State, p: Policy) {
    && (forall k :: 0 <= k < |s.moments| ==>
         BeforeExpiry(s, p, s.moments[k]) && s.moments[k].at - s.started < MAX_OPERATION
         && s.moments[k].elapsed < MAX_OPERATION as real)
    && (forall i, j :: 0 <= i <= j < |s.moments| ==> s.moments[i].effective <= s.moments[j].effective)
    && (forall k :: 0 <= k < |s.moments| ==> s.moments[k].effective <= Reached(s))
  }

  /** How far the two clocks have come. */
  ghost function Reached(s: State): real {
    Larger(s.last as real, s.started as real + (s.physicalLast - s.physicalStarted))
  }

  /** One accepted report per platform: its digest is no other's, and the policy covers it. */
  ghost predicate EvidenceInv(s: State, p: Policy) {
    && s.evidence.Keys == s.reports.Keys
    && (forall a, b :: a in s.reports && b in s.reports && a != b ==> s.reports[a] != s.reports[b])
    && (forall a, f :: a in s.evidence && f in s.evidence[a] ==> Permitted(p, f))
    && (s.finished ==> s.reports.Keys == {Amd64, Arm64})
  }

  lemma TickKeepsTimes(s: State, p: Policy, c: Clock)
    requires TimesInv(s, p) && Ticked(s, p, c).Some?
    ensures TimesInv(Ticked(s, p, c).value, p)
  {
    var after := Ticked(s, p, c).value;
    var m := after.moments[|s.moments|];
    assert Reached(s) <= Reached(after) == m.effective;
    assert BeforeExpiry(after, p, m);
  }

  /** Only the clocks and the accepted moments matter to it. */
  lemma SameTimes(s: State, after: State, p: Policy)
    requires TimesInv(s, p) && after.moments == s.moments && after.started == s.started && after.last == s.last
    requires after.physicalStarted == s.physicalStarted && after.physicalLast == s.physicalLast
    ensures TimesInv(after, p)
  {
    forall k | 0 <= k < |s.moments| ensures BeforeExpiry(after, p, s.moments[k]) {
      assert BeforeExpiry(s, p, s.moments[k]);
    }
  }

  lemma NextKeepsTimes(s: State, p: Policy, call: Call)
    requires TimesInv(s, p)
    ensures TimesInv(Next(s, p, call), p)
  {
    hide TimesInv, Ticked, Outlives, Permitted, Findings;
    if Accepted(s, p, call).None? {
      SameTimes(s, Failed(s), p);
    } else {
      var first := if call.Check? then call.first else if call.Finish? then call.at else call.opening;
      TickKeepsTimes(s, p, first);
      var entered := Ticked(s, p, first).value;
      if call.Finish? {
        SameTimes(entered, Next(s, p, call), p);
      } else {
        var second := if call.Check? then call.second else call.closing;
        TickKeepsTimes(entered, p, second);
        SameTimes(Ticked(entered, p, second).value, Next(s, p, call), p);
      }
    }
  }

  lemma NextKeepsEvidence(s: State, p: Policy, call: Call)
    requires EvidenceInv(s, p)
    ensures EvidenceInv(Next(s, p, call), p)
  {
    if call.Check? && Checked(s, p, call).Some? {
      var after := Checked(s, p, call).value;
      var findings := Findings(call.report.value.results);
      assert after.evidence[call.platform] == findings;
      forall a | a in s.reports ensures s.reports[a] != call.digest {
        assert s.reports[a] in s.reports.Values;
      }
    }
  }

  lemma {:induction false} RunKeepsInvariants(s: State, p: Policy, calls: seq<Call>)
    requires TimesInv(s, p) && EvidenceInv(s, p)
    ensures TimesInv(Run(s, p, calls), p) && EvidenceInv(Run(s, p, calls), p)
    ensures Run(s, p, calls).started == s.started
    decreases |calls|
  {
    if calls != [] {
      NextKeepsTimes(s, p, calls[0]);
      NextKeepsEvidence(s, p, calls[0]);
      hide Ticked, TimesInv, EvidenceInv;
      RunKeepsInvariants(Next(s, p, calls[0]), p, calls[1..]);
    }
  }

  /** Whatever the clocks do, effective time never decreases over the accepted checks. */
  lemma EffectiveTimeNeverDecreases(started: int, physical: real, p: Policy, calls: seq<Call>, i: nat, j: nat)
    requires i <= j < |Run(Opened(started, physical), p, calls).moments|
    ensures var moments := Run(Opened(started, physical), p, calls).moments;
      moments[i].effective <= moments[j].effective
  {
    RunKeepsInvariants(Opened(started, physical), p, calls);
  }

  /** Every accepted check comes before every exception expires, by either clock. */
  lemma AcceptedBeforeExpiry(started: int, physical: real, p: Policy, calls: seq<Call>, i: nat, k: nat)
    requires i < |Run(Opened(started, physical), p, calls).moments| && k < |p|
    ensures var m := Run(Opened(started, physical), p, calls).moments[i];
      && p[k].reviewedAt <= m.at < p[k].expiresAt
      && started as real + m.elapsed < p[k].expiresAt as real
  {
    var s := Run(Opened(started, physical), p, calls);
    RunKeepsInvariants(Opened(started, physical), p, calls);
    assert BeforeExpiry(s, p, s.moments[i]);
  }

  /** One failure, or a finish, refuses every later call: nothing more is accepted. */
  lemma {:induction false} RefusesForGood(s: State, p: Policy, calls: seq<Call>)
    requires s.failed || s.finished
    ensures forall call :: Accepted(s, p, call).None?
    ensures var after := Run(s, p, calls);
      && (after.failed || after.finished) && after.finished == s.finished
      && after.moments == s.moments && after.evidence == s.evidence
    decreases |calls|
  {
    if calls != [] {
      assert Accepted(s, p, calls[0]).None?;
      RefusesForGood(Failed(s), p, calls[1..]);
    }
  }

  /**
   * A finished gate accepted one report for each platform, with different digests, and every finding
   * of both is literally in the policy.
   */
  lemma FinishedHasEvidence(started: int, physical: real, p: Policy, calls: seq<Call>)
    requires Run(Opened(started, physical), p, calls).finished
    ensures var s := Run(Opened(started, physical), p, calls);
      && s.evidence.Keys == s.reports.Keys == {Amd64, Arm64}
      && s.reports[Amd64] != s.reports[Arm64]
      && forall a, f :: a in s.evidence && f in s.evidence[a] ==> Permitted(p, f)
  {
    RunKeepsInvariants(Opened(started, physical), p, calls);
    assert Amd64 in Run(Opened(started, physical), p, calls).reports;
    assert Arm64 in Run(Opened(started, physical), p, calls).reports;
  }

  class ReleaseScanGate {
    const policy: Policy
    const started: int
    const physicalStarted: real
    var last: int
    var physicalLast: real
    var reports: map<Platform, string>
    var failed: bool
    var finished: bool
    ghost var moments: seq<Moment>
    ghost var evidence: map<Platform, seq<Finding>>

    ghost function Now(): State
      reads this
    {
      State(started, physicalStarted, last, physicalLast, reports, failed, finished, moments, evidence)
    }

    /** A gate whose readings and policy passed; the constructor's own clock check is the first `Time`. */
    constructor (p: Policy, wall: int, physical: real)
      requires ValidPolicy(p) && wall > 0 && physical >= 0.0
      ensures policy == p && Now() == Opened(wall, physical)
    {
      policy := p;
      started, last := wall, wall;
      physicalStarted, physicalLast := physical, physical;
      reports := map[];
      failed, finished := false, false;
      moments, evidence := [], map[];
    }

    /** `#time`: both clocks, forward and within the operation, and every exception in its life. */
    method Time(c: Clock) returns (effective: Option<real>)
      modifies this`last, this`physicalLast, this`moments
      ensures effective.Some? == Ticked(old(Now()), policy, c).Some?
      ensures effective.Some? ==>
        Now() == Ticked(old(Now()), policy, c).value && effective == Some(moments[|moments| - 1].effective)
      ensures effective.None? ==> Now() == old(Now())
    {
      effective := None;
      if failed || finished || c.wall.None? || c.physical.None? { return; }
      var at, physical := c.wall.value, c.physical.value;
      if at <= 0 || at < last || physical < physicalLast { return; }
      var elapsed := physical - physicalStarted;
      if at - started >= MAX_OPERATION || elapsed >= MAX_OPERATION as real { return; }
      var moment := Larger(at as real, started as real + elapsed);
      for k := 0 to |policy|
        invariant forall i :: 0 <= i < k ==>
          policy[i].reviewedAt <= at && moment < policy[i].expiresAt as real
      {
        if policy[k].reviewedAt > at || moment >= policy[k].expiresAt as real { return; }
      }
      last, physicalLast := at, physical;
      moments := moments + [Moment(at, elapsed, moment)];
      effective := Some(moment);
    }

    method CheckReport(first: Clock, platform: Platform, digest: string, wellBound: bool,
                       report: Option<Report>, second: Clock) returns (accepted: bool)
      modifies this
      ensures var call := Check(first, platform, digest, wellBound, report, second);
        && accepted == Accepted(old(Now()), policy, call).Some?
        && (accepted ==> Now() == Next(old(Now()), policy, call))
      ensures !accepted ==>
        failed && finished == old(finished) && reports == old(reports) && evidence == old(evidence)
    {
      accepted := false;
      var time := Time(first);
      if time.None? || !wellBound || platform in reports || digest in reports.Values
         || report.None? || !Allowed(policy, platform, digest, report.value) {
        failed := true;
        return;
      }
      time := Time(second);
      if time.None? {
        failed := true;
        return;
      }
      reports := reports[platform := digest];
      evidence := evidence[platform := Findings(report.value.results)];
      accepted := true;
    }

    method Finish(at: Clock) returns (accepted: bool)
      modifies this
      ensures accepted == Accepted(old(Now()), policy, Call.Finish(at)).Some?
      ensures accepted ==> Now() == Next(old(Now()), policy, Call.Finish(at)) && finished
      ensures !accepted ==> failed && finished == old(finished) && reports == old(reports)
    {
      var time := Time(at);
      accepted := time.Some? && reports.Keys == {Amd64, Arm64};
      if accepted {
        finished := true;
      } else {
        failed := true;
      }
    }

    /** Two checks of the clocks, each leaving every exception the write window. */
    method CheckWriteWindow(opening: Clock, closing: Clock) returns (accepted: bool)
      modifies this
      ensures var call := Window(opening, closing);
        && accepted == Accepted(old(Now()), policy, call).Some?
        && (accepted ==> Now() == Next(old(Now()), policy, call))
      ensures !accepted ==> failed && finished == old(finished) && reports == old(reports)
    {
      accepted := false;
      var at := Time(opening);
      if at.Some? {
        var lasting := LeavesWindow(at.value);
        if lasting {
          at := Time(closing);
          if at.Some? { accepted := LeavesWindow(at.value); }
        }
      }
      if !accepted { failed := true; }
    }

    method LeavesWindow(at: real) returns (lasting: bool)
      ensures lasting <==>
        forall k :: 0 <= k < |policy| ==> policy[k].expiresAt as real > at + WRITE_WINDOW as real
    {
      for k := 0 to |policy|
        invariant forall i :: 0 <= i < k ==> policy[i].expiresAt as real > at + WRITE_WINDOW as real
      {
        if policy[k].expiresAt as real <= at + WRITE_WINDOW as real { return false; }
      }
      lasting := true;
    }
  }
}
