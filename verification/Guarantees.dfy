/** What every report tells of its run, whatever the network answers and however its clock advances. */
module Guarantees {
  import opened Wrappers
  import opened Model
  import opened TargetPolicy
  import opened Tracking
  import opened Diagnosis
  import opened Inspection

  // ----- What a report shows -----

  /** The fields that the answers decide, read off the report. */
  lemma ReportShows(run: Run, report: Report)
    requires Reports(run, report)
    ensures var findings := ExpectedFindings(run.setting, run.answers);
      && TimelessPhases(report.phases) == findings.phases == ExpectedPhases(run.setting, run.answers)
      && report.http == findings.http && report.addresses == findings.addresses && report.tls == findings.tls
      && report.failedAt == FirstFailed(findings.phases)
      && report.hypotheses == HypothesesFor(report.failedAt, findings.phases)
      && report.ruledOut == RuledOutFor(report.failedAt, findings.phases)
    ensures report.target == run.setting.target.summary && report.options == run.setting.options
    ensures report.schemaVersion == REPORT_SCHEMA && report.usage.probesUsed == |report.probes|
  {
    hide ExpectedFindings, ExpectedCalls, ParseTarget, ResolveProxy, Chronicle, FirstFailed, HypothesesFor, RuledOutFor,
         TimelessPhases, TimelessProbes, ExpectedPhases, ValidOptions;
    assert ExpectedFindings(run.setting, run.answers).phases == ExpectedPhases(run.setting, run.answers) by {
      FindingsHoldThePhases(run.setting, run.answers);
    }
    var shown := WithoutClock(report);
    assert shown.failedAt == report.failedAt && shown.phases == TimelessPhases(report.phases);
  }

  lemma FindingsHoldThePhases(setting: Setting, answers: Answers)
    ensures ExpectedFindings(setting, answers).phases == ExpectedPhases(setting, answers)
  {
  }

  /** Phases run contiguously from Input, at most one fails, and nothing but Assertions follows it. */
  ghost predicate PhasesAreInOrder(phases: seq<Phase>) {
    && 3 <= |phases| <= 8
    && (forall i | 0 <= i < |phases| :: PhaseRank(phases[i].name) == i)
    && (forall i, j | 0 <= i < j < |phases| && phases[i].status.Failed? ::
          phases[j].name == Assertions && phases[j].status.Skipped?)
    && (|phases| < 8 ==> phases[|phases| - 1].status.Failed?)
    && (forall i | 0 <= i < |phases| :: phases[i].error.Some? <==> phases[i].status.Failed?)
  }

  function PassedClass(name: PhaseName): Option<RuledOut> {
    match name
    case Dns => Some(DnsRuledOut)
    case Tcp => Some(TcpRuledOut)
    case Tls => Some(TlsRuledOut)
    case Http => Some(HttpRuledOut)
    case _ => None
  }

  /** The conclusions rest on the phases. */
  ghost predicate Follow(failedAt: Option<PhaseName>, hypotheses: seq<Hypothesis>, ruledOut: seq<RuledOut>,
                         phases: seq<Phase>) {
    && |hypotheses| == 1
    && (failedAt.None? ==>
          && (forall i | 0 <= i < |phases| :: !phases[i].status.Failed?)
          && hypotheses[0].code == RequestPathObserved && ruledOut == []
          && (forall name | name in hypotheses[0].evidencePhases ::
                PhaseRank(name) < |phases| && phases[PhaseRank(name)].status.Passed?))
    && (failedAt.Some? ==>
          var rank := PhaseRank(failedAt.value);
          && rank < |phases| && phases[rank].status.Failed? && phases[rank].error.Some?
          && hypotheses[0].code == phases[rank].error.value.code
          && hypotheses[0].evidencePhases == [failedAt.value]
          && (forall excluded :: excluded in ruledOut <==> PassedBefore(phases, rank, excluded)))
  }

  /** A phase of this class passed before the rank. */
  ghost predicate PassedBefore(phases: seq<Phase>, rank: nat, excluded: RuledOut)
    requires rank <= |phases|
  {
    exists i | 0 <= i < rank :: phases[i].status.Passed? && PassedClass(phases[i].name) == Some(excluded)
  }

  lemma PassedBeforeStep(phases: seq<Phase>, excluded: RuledOut)
    requires phases != []
    ensures var n := |phases| - 1;
      PassedBefore(phases, n + 1, excluded) <==>
        PassedBefore(phases[..n], n, excluded) || excluded in RuledOutBy(phases[n])
  {
    var n := |phases| - 1;
    var front, last := phases[..n], phases[n];
    assert excluded in RuledOutBy(last) <==> last.status.Passed? && PassedClass(last.name) == Some(excluded);
    hide PassedClass, RuledOutBy;
    assert forall i | 0 <= i < n :: front[i] == phases[i];
  }

  lemma {:induction false} RuledOutMembers(phases: seq<Phase>, excluded: RuledOut)
    ensures excluded in CollectRuledOut(phases) <==> PassedBefore(phases, |phases|, excluded)
  {
    if phases != [] {
      RuledOutMembers(phases[..|phases| - 1], excluded);
      PassedBeforeStep(phases, excluded);
      hide PassedBefore, RuledOutBy;
    }
  }

  /** The phases are the same but for their durations. */
  ghost predicate SamePhases(a: seq<Phase>, b: seq<Phase>) {
    && |a| == |b|
    && forall i | 0 <= i < |a| :: a[i].name == b[i].name && a[i].status == b[i].status && a[i].error == b[i].error
                                  && a[i].observations == b[i].observations
                                  && a[i].limitations == b[i].limitations
  }

  lemma TimelessPhasesAreTheSame(phases: seq<Phase>)
    ensures SamePhases(TimelessPhases(phases), phases)
  {
  }

  lemma ExpectedPhasesAreInOrder(setting: Setting, answers: Answers)
    ensures PhasesAreInOrder(ExpectedPhases(setting, answers))
  {
    PhaseListShape(setting, answers);
    PhaseCount(setting, answers);
    var phases := ExpectedPhases(setting, answers);
    hide PhaseOf, FirstFailure, Reached;
    forall i | 0 <= i < |phases| ensures phases[i].error.Some? <==> phases[i].status.Failed? {
      PhaseNamesFollowRanks(setting, answers, i);
    }
  }

  lemma PhaseCount(setting: Setting, answers: Answers)
    ensures var n, failure := |ExpectedPhases(setting, answers)|, FirstFailure(setting, answers);
      && 3 <= n <= 8
      && (n < 8 ==> failure.Some? && PhaseRank(failure.value.0) == n - 1)
  {
  }

  lemma NothingPassesAfterwards(phases: seq<Phase>, rank: nat, excluded: RuledOut)
    requires PhasesAreInOrder(phases) && rank < |phases| && phases[rank].status.Failed?
    ensures PassedBefore(phases, |phases|, excluded) <==> PassedBefore(phases, rank, excluded)
  {
  }

  lemma ExpectedConclusionsFollow(setting: Setting, answers: Answers)
    ensures var phases := ExpectedPhases(setting, answers); var failedAt := FirstFailed(phases);
      Follow(failedAt, HypothesesFor(failedAt, phases), RuledOutFor(failedAt, phases), phases)
  {
    ConclusionsAreGrounded(setting, answers);
    PhaseListShape(setting, answers);
    ExpectedPhasesAreInOrder(setting, answers);
    var phases, failure := ExpectedPhases(setting, answers), FirstFailure(setting, answers);
    hide ExpectedPhases, FirstFailure, FirstFailed, HypothesesFor, ExcludedBefore, PassedBefore, CollectRuledOut,
         PassedClass;
    if failure.Some? {
      forall excluded
        ensures excluded in CollectRuledOut(phases) <==> PassedBefore(phases, PhaseRank(failure.value.0), excluded)
      {
        RuledOutMembers(phases, excluded);
        NothingPassesAfterwards(phases, PhaseRank(failure.value.0), excluded);
      }
    }
  }

  lemma SamePhasesExclude(a: seq<Phase>, b: seq<Phase>, rank: nat, excluded: RuledOut)
    requires SamePhases(a, b) && rank <= |a|
    ensures PassedBefore(a, rank, excluded) <==> PassedBefore(b, rank, excluded)
  {
  }

  lemma FollowFromSame(failedAt: Option<PhaseName>, hypotheses: seq<Hypothesis>, ruledOut: seq<RuledOut>,
                       a: seq<Phase>, b: seq<Phase>)
    requires Follow(failedAt, hypotheses, ruledOut, a) && SamePhases(a, b)
    ensures Follow(failedAt, hypotheses, ruledOut, b)
  {
    hide PassedBefore;
    if failedAt.Some? {
      forall excluded ensures excluded in ruledOut <==> PassedBefore(b, PhaseRank(failedAt.value), excluded) {
        SamePhasesExclude(a, b, PhaseRank(failedAt.value), excluded);
      }
    }
  }

  lemma InOrderFromSame(a: seq<Phase>, b: seq<Phase>)
    requires PhasesAreInOrder(a) && SamePhases(a, b)
    ensures PhasesAreInOrder(b)
  {
  }

  /** The phases as reported are in order; the hypothesis and the excluded classes rest on them. */
  lemma ReportsAreGrounded(run: Run, report: Report)
    requires Reports(run, report)
    ensures PhasesAreInOrder(report.phases)
    ensures Follow(report.failedAt, report.hypotheses, report.ruledOut, report.phases)
  {
    ReportShows(run, report);
    var expected := ExpectedPhases(run.setting, run.answers);
    TimelessPhasesAreTheSame(report.phases);
    ExpectedPhasesAreInOrder(run.setting, run.answers);
    ExpectedConclusionsFollow(run.setting, run.answers);
    hide Reports, ExpectedFindings, ExpectedPhases, Follow, TimelessPhases, FirstFailed, HypothesesFor, RuledOutFor,
         SamePhases, PhasesAreInOrder;
    InOrderFromSame(expected, report.phases);
    FollowFromSame(report.failedAt, report.hypotheses, report.ruledOut, expected, report.phases);
  }

  /** The error that a report gives for its failure. */
  function ReportedError(report: Report): Option<AppError> {
    if report.failedAt.Some? && PhaseRank(report.failedAt.value) < |report.phases| then
      report.phases[PhaseRank(report.failedAt.value)].error
    else None
  }

  /** A report fails where and how its answers first fail. */
  lemma ReportedFailure(run: Run, report: Report)
    requires Reports(run, report)
    ensures var failure := FirstFailure(run.setting, run.answers);
      if failure.Some? then report.failedAt == Some(failure.value.0) && ReportedError(report) == Some(failure.value.1)
      else report.failedAt == None && ReportedError(report) == None
    ensures |report.phases| == Reached(run.setting, run.answers)
  {
    ReportShows(run, report);
    TimelessPhasesAreTheSame(report.phases);
    PhaseListShape(run.setting, run.answers);
    ConclusionsAreGrounded(run.setting, run.answers);
    hide Reports, ExpectedFindings, FirstFailure, FirstFailed, HypothesesFor, RuledOutFor, TimelessPhases, PassedBefore,
         ExcludedBefore, PhaseOf, PhaseRank, FirstPhases;
  }

  predicate ShowsNothing(phase: Phase, status: PhaseStatus, limitation: Limitation) {
    phase.status == status && phase.observations == [] && phase.limitations == [limitation]
  }

  /** The TLS phase was probed only for an https target without a proxy, and shows what was agreed on. */
  predicate ShowsTls(phase: Phase, report: Report) {
    if report.target.scheme != Https then ShowsNothing(phase, Skipped, PlaintextTarget)
    else if report.proxy.selected then ShowsNothing(phase, NotObserved, TlsInsideProxy)
    else if report.tls.Some? then phase.status.Passed? && phase.observations == [TlsNegotiation(report.tls.value)]
    else phase.status.Failed? && phase.observations == []
  }

  /** The HTTP phase shows the status of every reported hop. */
  predicate ShowsStatuses(phase: Phase, hops: seq<HttpHop>) {
    && |phase.observations| == 1 && phase.observations[0].ResponseStatuses?
    && var statuses := phase.observations[0].statuses;
      |statuses| == |hops| && forall i | 0 <= i < |hops| :: statuses[i] == hops[i].status
  }

  /** The redirects phase counts the hops after the first, unless it failed. */
  predicate ShowsRedirects(phase: Phase, hops: seq<HttpHop>) {
    if phase.status.Failed? then phase.observations == []
    else if |hops| > 1 then phase.status.Passed? && phase.observations == [RedirectHops(|hops| - 1)]
    else ShowsNothing(phase, Skipped, NoRedirectRequested)
  }

  ghost predicate PhasesShow(phases: seq<Phase>, report: Report) {
    && 3 <= |phases| <= 8
    && phases[0].observations == [NormalizedTarget(report.target.intended)]
    && phases[1].observations == [ProxySelection(report.proxy)]
    && (|phases| > 4 ==> ShowsTls(phases[4], report))
    && (|phases| == 8 ==>
          && ShowsStatuses(phases[5], report.http) && ShowsRedirects(phases[6], report.http)
          && ShowsNothing(phases[7], Skipped, NoAssertionConfigured))
  }

  lemma ExpectedPhasesShow(setting: Setting, answers: Answers, report: Report)
    requires report.target == setting.target.summary && report.proxy == setting.proxy.summary
    requires setting.target.summary.scheme == setting.target.url.scheme
    requires var findings := ExpectedFindings(setting, answers);
      report.http == findings.http && report.tls == findings.tls
    ensures PhasesShow(ExpectedPhases(setting, answers), report)
  {
    hide ObserveAddresses;
  }

  /** What the phases show is what the rest of the report says, and what is left out is named. */
  lemma PhasesShowTheReport(run: Run, report: Report)
    requires Reports(run, report)
    ensures PhasesShow(report.phases, report)
    ensures report.omissions == [ResolverInternals, PacketPaths]
      + if |report.phases| > 4 && report.target.scheme == Https && report.proxy.selected then [ProxyTlsNotSeparated]
        else []
  {
    hide PhasesShow, TimelessPhases, ExpectedPhases, SamePhases, Chronicle, ParseTarget, ResolveProxy, FirstFailed,
         HypothesesFor, RuledOutFor;
    ReportShows(run, report);
    TargetsAreExact(Some(run.setting.target.url), run.setting.options);
    assert WithoutClock(report).proxy == report.proxy && WithoutClock(report).omissions == report.omissions;
    hide Reports, WithoutClock;
    ExpectedPhasesShow(run.setting, run.answers, report);
    TimelessPhasesAreTheSame(report.phases);
    hide ExpectedFindings;
    SamePhasesShow(ExpectedPhases(run.setting, run.answers), report.phases, report);
  }

  lemma SamePhasesShow(a: seq<Phase>, b: seq<Phase>, report: Report)
    requires SamePhases(a, b) && PhasesShow(a, report)
    ensures PhasesShow(b, report)
  {
  }

  /** How sure the hypothesis about a failed phase is, in percent. */
  function Percent(name: PhaseName): nat {
    match name
    case Dns => 95
    case Tcp => 90
    case Tls => 95
    case Http => 80
    case _ => 100
  }

  /** The one hypothesis is about the failed phase and cites it, as sure as that allows, or is certain of the path. */
  lemma HypothesisIsAsSure(run: Run, report: Report)
    requires Reports(run, report)
    ensures |report.hypotheses| == 1 && report.hypotheses[0].about == report.failedAt
    ensures report.hypotheses[0].confidence * 100.0
      == if report.failedAt.None? then 100.0 else Percent(report.failedAt.value) as real
    ensures report.hypotheses[0].evidencePhases
      == if report.failedAt.None? then [Dns, Tcp, Http] else [report.failedAt.value]
  {
    ReportShows(run, report);
    hide Reports, ExpectedFindings, ExpectedPhases, FirstFailed, TimelessPhases, RuledOutFor, ErrorCodeOf;
  }
}
