/** Which calls the release scan gate accepts, read off its fields, the two clocks and the report. */
module ScanAnswers {
  import opened Options
  import opened ScanGate

  /** The clocks may move on: the gate is open, both went forward within 30 minutes, and every exception lives. */
  predicate MayTick(s: State, p: Policy, c: Clock) {
    && !s.failed && !s.finished && c.wall.Some? && c.physical.Some?
    && var at, physical := c.wall.value, c.physical.value;
      && 0 < at && s.last <= at < s.started + 1800000
      && s.physicalLast <= physical && physical - s.physicalStarted < 1800000.0
      && forall k :: 0 <= k < |p| ==>
           && p[k].reviewedAt <= at < p[k].expiresAt
           && s.started as real + (physical - s.physicalStarted) < p[k].expiresAt as real
  }

  /** The gate with its clocks moved on, and nothing else. */
  ghost predicate Moved(s: State, c: Clock, after: State) {
    && c.wall.Some? && c.physical.Some? && |after.moments| == |s.moments| + 1
    && var m := after.moments[|s.moments|];
      && m.at == c.wall.value && m.elapsed == c.physical.value - s.physicalStarted
      && after == s.(last := m.at, physicalLast := c.physical.value, moments := s.moments + [m])
  }

  lemma TicksExactly(s: State, p: Policy, c: Clock)
    ensures Ticked(s, p, c).Some? <==> MayTick(s, p, c)
    ensures MayTick(s, p, c) ==> Moved(s, c, Ticked(s, p, c).value)
  {
    if MayTick(s, p, c) {
      var at, elapsed := c.wall.value, c.physical.value - s.physicalStarted;
      assert forall k :: 0 <= k < |p| ==>
        p[k].reviewedAt <= at && Larger(at as real, s.started as real + elapsed) < p[k].expiresAt as real;
    }
  }

  /** Every finding of every result. */
  ghost predicate InReport(report: Report, f: Finding) {
    exists k :: 0 <= k < |report.results| && f in report.results[k].findings
  }

  lemma {:induction false} FindingsAreInResults(results: seq<Result>, f: Finding)
    ensures f in Findings(results) <==> exists k :: 0 <= k < |results| && f in results[k].findings
  {
    if results != [] {
      FindingsAreInResults(results[1..], f);
      if k :| 0 <= k < |results| && f in results[k].findings {
        if k > 0 { assert results[1..][k - 1] == results[k]; }
      }
      if k :| 0 <= k < |results[1..]| && f in results[1..][k].findings { assert results[k + 1] == results[1..][k]; }
    }
  }

  /**
   * An accepted report is this child image's own: its reference, digest and platform, within the bounds,
   * with no result and no finding twice, and every finding literally one of the policy's.
   */
  lemma AcceptedReportIsCovered(s: State, p: Policy, call: Call)
    requires call.Check? && Accepted(s, p, call).Some?
    ensures call.wellBound && call.report.Some? && call.platform !in s.reports && call.digest !in s.reports.Values
    ensures var report := call.report.value;
      && report.sound && report.platform == call.platform
      && report.reference == "ghcr.io/deconfined/tarubot" + "@" + call.digest
      && |report.results| <= 1024
      && (forall f :: InReport(report, f) ==> exists k :: 0 <= k < |p| && p[k].finding == f)
      && (forall i, j :: 0 <= i < j < |report.results| ==>
           report.results[i].osPackages != report.results[j].osPackages
           || report.results[i].resultType != report.results[j].resultType
           || report.results[i].target != report.results[j].target)
      && (forall i, j, f :: 0 <= i < j < |report.results| && f in report.results[i].findings ==>
           f !in report.results[j].findings)
    ensures var after := Accepted(s, p, call).value;
      && after.reports == s.reports[call.platform := call.digest]
      && call.platform in after.evidence
      && after.evidence == s.evidence[call.platform := after.evidence[call.platform]]
      && forall f :: f in after.evidence[call.platform] <==> InReport(call.report.value, f)
  {
    hide Ticked;
    var report := call.report.value;
    var findings := Findings(report.results);
    forall f ensures f in findings <==> InReport(report, f) { FindingsAreInResults(report.results, f); }
    forall f | InReport(report, f) ensures exists k :: 0 <= k < |p| && p[k].finding == f {
      var j :| 0 <= j < |findings| && findings[j] == f;
      assert Permitted(p, findings[j]);
    }
    forall i, j, f | 0 <= i < j < |report.results| && f in report.results[i].findings
      ensures f !in report.results[j].findings
    {
      FoundOnce(report.results, i, j, f);
    }
    forall i, j | 0 <= i < j < |report.results|
      ensures report.results[i].osPackages != report.results[j].osPackages
        || report.results[i].resultType != report.results[j].resultType
        || report.results[i].target != report.results[j].target
    {
      assert DistinctResults(report.results);
    }
  }

  lemma {:induction false} FoundOnce(results: seq<Result>, i: nat, j: nat, f: Finding)
    requires DistinctFindings(Findings(results)) && i < j < |results| && f in results[i].findings
    ensures f !in results[j].findings
  {
    var first, rest := results[0].findings, Findings(results[1..]);
    assert Findings(results) == first + rest;
    if i > 0 {
      DistinctBehind(first, rest);
      FoundOnce(results[1..], i - 1, j - 1, f);
    } else {
      FindingsAreInResults(results[1..], f);
      assert results[1..][j - 1] == results[j];
      var a :| 0 <= a < |first| && first[a] == f;
      forall b | 0 <= b < |rest| ensures rest[b] != f {
        assert (first + rest)[a] == f && (first + rest)[|first| + b] == rest[b];
      }
    }
  }

  lemma DistinctBehind(first: seq<Finding>, rest: seq<Finding>)
    requires DistinctFindings(first + rest)
    ensures DistinctFindings(rest)
  {
    forall i, j | 0 <= i < j < |rest| ensures rest[i] != rest[j] {
      assert (first + rest)[|first| + i] == rest[i] && (first + rest)[|first| + j] == rest[j];
    }
  }

  /** A sound report of this child image, within the bounds, nothing in it twice, and all of it in the policy. */
  ghost predicate Covered(p: Policy, platform: Platform, digest: string, report: Report) {
    var results, findings := report.results, Findings(report.results);
    && report.sound && report.platform == platform
    && report.reference == "ghcr.io/deconfined/tarubot" + "@" + digest
    && |results| <= 1024 && |findings| <= 65536
    && (forall i, j :: 0 <= i < j < |results| ==>
         !(results[i].osPackages == results[j].osPackages && results[i].resultType == results[j].resultType
           && results[i].target == results[j].target))
    && (forall i, j :: 0 <= i < j < |findings| ==> findings[i] != findings[j])
    && forall i :: 0 <= i < |findings| ==> Listed(p, findings[i])
  }

  /** The finding is one of the policy's, field by field. */
  ghost predicate Listed(p: Policy, f: Finding) { exists k :: 0 <= k < |p| && p[k].finding == f }

  lemma ResultsApart(results: seq<Result>)
    ensures DistinctResults(results) <==>
      forall i, j :: 0 <= i < j < |results| ==>
        !(results[i].osPackages == results[j].osPackages && results[i].resultType == results[j].resultType
          && results[i].target == results[j].target)
  {
  }

  lemma AllowedIsCovered(p: Policy, platform: Platform, digest: string, report: Report)
    ensures Allowed(p, platform, digest, report) <==> Covered(p, platform, digest, report)
  {
    var findings := Findings(report.results);
    ResultsApart(report.results);
    hide DistinctResults;
    forall i | 0 <= i < |findings| ensures Permitted(p, findings[i]) <==> Listed(p, findings[i]) {}
    hide Permitted, Listed;
  }

  /** A report is accepted exactly when both clock readings pass, and between them it is bound, new and covered. */
  lemma CheckAcceptsExactly(s: State, p: Policy, call: Call)
    requires call.Check?
    ensures Accepted(s, p, call).Some? <==>
      && MayTick(s, p, call.first) && call.wellBound && call.platform !in s.reports && call.digest !in s.reports.Values
      && call.report.Some? && Covered(p, call.platform, call.digest, call.report.value)
      && MayTick(Ticked(s, p, call.first).value, p, call.second)
  {
    if call.report.Some? { AllowedIsCovered(p, call.platform, call.digest, call.report.value); }
    hide Ticked, MayTick, Allowed, Covered;
    TicksExactly(s, p, call.first);
    if MayTick(s, p, call.first) { TicksExactly(Ticked(s, p, call.first).value, p, call.second); }
  }

  /** A finish is accepted exactly when the clocks pass and both platforms have their report. */
  lemma FinishAcceptsExactly(s: State, p: Policy, at: Clock)
    ensures Accepted(s, p, Finish(at)).Some? <==> MayTick(s, p, at) && Amd64 in s.reports && Arm64 in s.reports
    ensures Accepted(s, p, Finish(at)).Some? ==>
      Moved(s, at, Accepted(s, p, Finish(at)).value.(finished := s.finished))
      && Accepted(s, p, Finish(at)).value.finished
  {
    hide Ticked, MayTick;
    TicksExactly(s, p, at);
    if Amd64 in s.reports && Arm64 in s.reports {
      forall a: Platform ensures a in s.reports.Keys && a in {Amd64, Arm64} {
        match a case Amd64 => case Arm64 =>
      }
      assert s.reports.Keys == {Amd64, Arm64};
    }
  }

  /** At this reading every exception still has ten minutes, by the wall clock and by the elapsed time. */
  predicate LeavesTenMinutes(s: State, p: Policy, c: Clock)
    requires c.wall.Some? && c.physical.Some?
  {
    forall k :: 0 <= k < |p| ==>
      && c.wall.value + 600000 < p[k].expiresAt
      && s.started as real + (c.physical.value - s.physicalStarted) + 600000.0 < p[k].expiresAt as real
  }

  /** A write window is accepted exactly when both readings pass and each leaves every exception ten minutes. */
  lemma WindowAcceptsExactly(s: State, p: Policy, call: Call)
    requires call.Window?
    ensures Accepted(s, p, call).Some? <==>
      && MayTick(s, p, call.opening) && LeavesTenMinutes(s, p, call.opening)
      && MayTick(Ticked(s, p, call.opening).value, p, call.closing) && LeavesTenMinutes(s, p, call.closing)
  {
    TicksExactly(s, p, call.opening);
    if MayTick(s, p, call.opening) {
      var entered := Ticked(s, p, call.opening).value;
      OutlivesTells(s, p, call.opening);
      TicksExactly(entered, p, call.closing);
      if MayTick(entered, p, call.closing) { OutlivesTells(entered, p, call.closing); }
      assert entered.started == s.started && entered.physicalStarted == s.physicalStarted;
    }
    hide Ticked, Outlives;
  }

  lemma OutlivesTells(s: State, p: Policy, c: Clock)
    requires MayTick(s, p, c)
    ensures Ticked(s, p, c).Some? && Ticked(s, p, c).value.moments != []
    ensures Outlives(Ticked(s, p, c).value, p) <==> LeavesTenMinutes(s, p, c)
  {
    TicksExactly(s, p, c);
    var m := Ticked(s, p, c).value.moments[|s.moments|];
    assert m.effective == Larger(c.wall.value as real, s.started as real + m.elapsed);
  }
}
