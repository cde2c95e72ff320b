/** What the answers of a backend amount to: phases, conclusions and the report (src/engine.rs). */
module Diagnosis {
  import opened AddressPolicy
  import opened Wrappers
  import opened Model
  import opened TargetPolicy
  import opened Live
  import opened RedirectChain

  /** The fixed circumstances of one inspection. */
  datatype Setting = Setting(target: ParsedTarget, proxy: ResolvedProxy, options: InspectionOptions)

  /** What each backend call returned, or would return if it were made. */
  datatype Answers = Answers(
    dns: Result<Resolution>,
    tcp: Result<SocketAddr>,
    tls: Result<TlsSummary>,
    http: Result<HttpOutcome>)

  datatype Stage = DnsStage | TcpStage | TlsStage | HttpStage

  /** What a walk through the phases collects for the report. */
  datatype Findings = Findings(
    addresses: seq<AddressObservation>,
    tls: Option<TlsSummary>,
    http: seq<HttpHop>,
    phases: seq<Phase>,
    omissions: seq<Omission>)

  function PassedPhase(name: PhaseName, durationMs: nat, observations: seq<Observation>): Phase {
    Phase(name, Passed, durationMs, observations, [], None)
  }

  function FailedPhase(name: PhaseName, durationMs: nat, error: AppError): Phase {
    Phase(name, PhaseStatus.Failed, durationMs, [], [], Some(error))
  }

  function SkippedPhase(name: PhaseName, limitation: Limitation): Phase {
    Phase(name, Skipped, 0, [], [limitation], None)
  }

  function NotObservedPhase(name: PhaseName, limitation: Limitation): Phase {
    Phase(name, NotObserved, 0, [], [limitation], None)
  }

  function Timeless(phase: Phase): Phase {
    phase.(durationMs := 0)
  }

  function TimelessPhases(phases: seq<Phase>): (r: seq<Phase>)
    ensures |r| == |phases|
  {
    seq(|phases|, i requires 0 <= i < |phases| => Timeless(phases[i]))
  }

  function ObserveAddress(address: SocketAddr, options: InspectionOptions): AddressObservation {
    AddressObservation(AddressLabel(address, options.showAddresses), address.ip.V6?,
                       IsIpPermitted(address.ip, options.allowPrivate), ClassifyIp(address.ip))
  }

  function ObserveAddresses(addresses: seq<SocketAddr>, options: InspectionOptions): (r: seq<AddressObservation>)
    ensures |r| == |addresses|
    ensures forall i | 0 <= i < |r| :: r[i] == ObserveAddress(addresses[i], options)
  {
    seq(|addresses|, i requires 0 <= i < |addresses| => ObserveAddress(addresses[i], options))
  }

  function Statuses(hops: seq<HttpHop>): seq<nat> {
    seq(|hops|, i requires 0 <= i < |hops| => hops[i].status)
  }

  // ----- The eight phases as the answers decide them, without durations -----

  predicate TlsApplies(setting: Setting) {
    setting.target.url.scheme == Https && !setting.proxy.summary.selected
  }

  function InputPhase(setting: Setting): Phase {
    PassedPhase(Input, 0, [NormalizedTarget(setting.target.summary.intended)])
  }

  function ProxyPhase(setting: Setting): Phase {
    PassedPhase(Proxy, 0, [ProxySelection(setting.proxy.summary)])
  }

  function DnsPhase(dns: Result<Resolution>): Phase {
    match dns
    case Err(error) => FailedPhase(Dns, 0, error)
    case Ok(resolution) =>
      if resolution.permitted == [] then FailedPhase(Dns, 0, AppError(NonPublicAddressDenied, false))
      else PassedPhase(Dns, 0, [ResolvedAddressCount(|resolution.all|), PermittedAddressCount(|resolution.permitted|)])
  }

  function TcpPhase(setting: Setting, tcp: Result<SocketAddr>): Phase {
    match tcp
    case Err(error) => FailedPhase(Tcp, 0, error)
    case Ok(address) => PassedPhase(Tcp, 0, [SelectedAddress(AddressLabel(address, setting.options.showAddresses))])
  }

  function TlsPhase(setting: Setting, tls: Result<TlsSummary>): Phase {
    if setting.target.url.scheme != Https then SkippedPhase(Tls, PlaintextTarget)
    else if setting.proxy.summary.selected then NotObservedPhase(Tls, TlsInsideProxy)
    else match tls
      case Err(error) => FailedPhase(Tls, 0, error)
      case Ok(summary) => PassedPhase(Tls, 0, [TlsNegotiation(summary)])
  }

  function HttpPhase(http: Result<HttpOutcome>): Phase {
    match http
    case Err(error) => FailedPhase(Http, 0, error)
    case Ok(outcome) => PassedPhase(Http, 0, [ResponseStatuses(Statuses(outcome.hops))])
  }

  function RedirectsPhase(outcome: HttpOutcome): Phase {
    if outcome.failure.Some? then FailedPhase(Redirects, 0, outcome.failure.value)
    else if |outcome.hops| > 1 then PassedPhase(Redirects, 0, [RedirectHops(|outcome.hops| - 1)])
    else SkippedPhase(Redirects, NoRedirectRequested)
  }

  /** How many of the eight phases the answers let a run reach: the first failure before Redirects ends it. */
  function Reached(setting: Setting, answers: Answers): (n: nat)
    ensures n in {3, 4, 5, 6, 8}
  {
    if DnsPhase(answers.dns).status.Failed? then 3
    else if answers.tcp.Err? then 4
    else if TlsPhase(setting, answers.tls).status.Failed? then 5
    else if answers.http.Err? then 6
    else 8
  }

  /** The phase of each rank; Redirects has no meaning without an HTTP outcome. */
  function PhaseOf(setting: Setting, answers: Answers, rank: nat): Phase
    requires rank < 8
  {
    if rank == 0 then InputPhase(setting)
    else if rank == 1 then ProxyPhase(setting)
    else if rank == 2 then DnsPhase(answers.dns)
    else if rank == 3 then TcpPhase(setting, answers.tcp)
    else if rank == 4 then TlsPhase(setting, answers.tls)
    else if rank == 5 then HttpPhase(answers.http)
    else if rank == 6 then
      if answers.http.Ok? then RedirectsPhase(answers.http.value) else SkippedPhase(Redirects, NoRedirectRequested)
    else SkippedPhase(Assertions, NoAssertionConfigured)
  }

  /** The first phases of a run, in rank order. */
  function FirstPhases(setting: Setting, answers: Answers, n: nat): (phases: seq<Phase>)
    requires n <= 8
    ensures |phases| == n
  {
    seq(n, i requires 0 <= i < n => PhaseOf(setting, answers, i))
  }

  function ExpectedPhases(setting: Setting, answers: Answers): (phases: seq<Phase>)
    ensures |phases| == Reached(setting, answers)
  {
    FirstPhases(setting, answers, Reached(setting, answers))
  }

  function ExpectedFindings(setting: Setting, answers: Answers): Findings {
    var n := Reached(setting, answers);
    Findings(
      if answers.dns.Ok? then ObserveAddresses(answers.dns.value.all, setting.options) else [],
      if n > 5 && TlsApplies(setting) && answers.tls.Ok? then Some(answers.tls.value) else None,
      if n > 6 then answers.http.value.hops else [],
      ExpectedPhases(setting, answers),
      [ResolverInternals, PacketPaths]
      + (if n > 4 && setting.target.url.scheme == Https && setting.proxy.summary.selected
         then [ProxyTlsNotSeparated] else []))
  }

  /** The backend calls a run makes, in order. */
  function ExpectedCalls(setting: Setting, answers: Answers): seq<Stage> {
    var n := Reached(setting, answers);
    [DnsStage]
    + (if n > 3 then [TcpStage] else [])
    + (if n > 4 && TlsApplies(setting) then [TlsStage] else [])
    + (if n > 5 then [HttpStage] else [])
  }

  // ----- Conclusions -----

  function FirstFailed(phases: seq<Phase>): (failed: Option<PhaseName>) {
    if phases == [] then None
    else if phases[0].status.Failed? then Some(phases[0].name)
    else FirstFailed(phases[1..])
  }

  function ErrorCodeOf(name: PhaseName, phases: seq<Phase>): ErrorCode {
    if phases == [] then PhaseFailed
    else if phases[0].name == name then
      if phases[0].error.Some? then phases[0].error.value.code else PhaseFailed
    else ErrorCodeOf(name, phases[1..])
  }

  function ConfidenceIn(name: PhaseName): real {
    match name
    case Input => 1.0
    case Proxy => 1.0
    case Dns => 0.95
    case Tcp => 0.9
    case Tls => 0.95
    case Http => 0.8
    case Redirects => 1.0
    case Assertions => 1.0
  }

  function HypothesesFor(failedAt: Option<PhaseName>, phases: seq<Phase>): seq<Hypothesis> {
    match failedAt
    case None => [Hypothesis(RequestPathObserved, None, 1.0, [Dns, Tcp, Http])]
    case Some(name) => [Hypothesis(ErrorCodeOf(name, phases), Some(name), ConfidenceIn(name), [name])]
  }

  function RuledOutBy(phase: Phase): seq<RuledOut> {
    if !phase.status.Passed? then []
    else match phase.name
      case Dns => [DnsRuledOut]
      case Tcp => [TcpRuledOut]
      case Tls => [TlsRuledOut]
      case Http => [HttpRuledOut]
      case _ => []
  }

  function CollectRuledOut(phases: seq<Phase>): seq<RuledOut> {
    if phases == [] then []
    else CollectRuledOut(phases[..|phases| - 1]) + RuledOutBy(phases[|phases| - 1])
  }

  function RuledOutFor(failedAt: Option<PhaseName>, phases: seq<Phase>): seq<RuledOut> {
    if failedAt.None? then [] else CollectRuledOut(phases)
  }

  // ----- Theorems -----

  /** The phase of a run that fails, if any, with its error. */
  function FirstFailure(setting: Setting, answers: Answers): Option<(PhaseName, AppError)> {
    if answers.dns.Err? then Some((Dns, answers.dns.error))
    else if answers.dns.value.permitted == [] then Some((Dns, AppError(NonPublicAddressDenied, false)))
    else if answers.tcp.Err? then Some((Tcp, answers.tcp.error))
    else if TlsApplies(setting) && answers.tls.Err? then Some((Tls, answers.tls.error))
    else if answers.http.Err? then Some((Http, answers.http.error))
    else if answers.http.value.failure.Some? then Some((Redirects, answers.http.value.failure.value))
    else None
  }

  /** The run fails for want of time or probe slots. */
  predicate FailsForBudget(setting: Setting, answers: Answers) {
    var failure := FirstFailure(setting, answers);
    failure.Some? && failure.value.1 == EXHAUSTED
  }

  /** Phase names run contiguously from Input in rank order, without repeats. */
  ghost predicate RunsInRankOrder(phases: seq<Phase>) {
    |phases| <= 8 && forall i | 0 <= i < |phases| :: PhaseRank(phases[i].name) == i
  }

  /** Only this phase failed, with this error, and at most Assertions follows it. */
  ghost predicate FailsOnlyAt(phases: seq<Phase>, name: PhaseName, error: AppError) {
    var rank := PhaseRank(name);
    && rank < |phases|
    && phases[rank].status.Failed? && phases[rank].error == Some(error)
    && (forall i | 0 <= i < |phases| && i != rank :: !phases[i].status.Failed? && phases[i].error.None?)
    && (forall i | rank < i < |phases| :: phases[i].name == Assertions && phases[i].status.Skipped?)
  }

  lemma PhaseNamesFollowRanks(setting: Setting, answers: Answers, rank: nat)
    requires rank < 8
    ensures PhaseRank(PhaseOf(setting, answers, rank).name) == rank
    ensures PhaseOf(setting, answers, rank).error.Some? <==> PhaseOf(setting, answers, rank).status.Failed?
  {
  }

  lemma FailureOfRank(setting: Setting, answers: Answers, rank: nat)
    requires rank < Reached(setting, answers)
    ensures PhaseOf(setting, answers, rank).status.Failed?
      <==> FirstFailure(setting, answers).Some? && PhaseRank(FirstFailure(setting, answers).value.0) == rank
    ensures PhaseOf(setting, answers, rank).status.Failed?
      ==> PhaseOf(setting, answers, rank).error == Some(FirstFailure(setting, answers).value.1)
  {
  }

  lemma FailureIsReached(setting: Setting, answers: Answers)
    ensures FirstFailure(setting, answers).None? ==> Reached(setting, answers) == 8
    ensures FirstFailure(setting, answers).Some? ==>
      var rank := PhaseRank(FirstFailure(setting, answers).value.0);
      Reached(setting, answers) == if rank == 6 then 8 else rank + 1
  {
  }

  /** Every run's phase list: contiguous, and failing exactly where and how the answers first fail. */
  lemma PhaseListShape(setting: Setting, answers: Answers)
    ensures var phases, failure := ExpectedPhases(setting, answers), FirstFailure(setting, answers);
      && RunsInRankOrder(phases)
      && (failure.Some? ==> FailsOnlyAt(phases, failure.value.0, failure.value.1))
      && (failure.None? ==> |phases| == 8 && forall i | 0 <= i < 8 :: !phases[i].status.Failed?)
  {
    hide PhaseOf, FirstFailure, Reached, PhaseRank;
    var phases := ExpectedPhases(setting, answers);
    FailureIsReached(setting, answers);
    LastPhaseIsAssertions(setting, answers);
    forall i | 0 <= i < |phases|
      ensures phases[i] == PhaseOf(setting, answers, i)
      ensures PhaseRank(phases[i].name) == i && (phases[i].error.Some? <==> phases[i].status.Failed?)
      ensures phases[i].status.Failed?
        <==> FirstFailure(setting, answers).Some? && PhaseRank(FirstFailure(setting, answers).value.0) == i
      ensures phases[i].status.Failed? ==> phases[i].error == Some(FirstFailure(setting, answers).value.1)
    {
      PhaseNamesFollowRanks(setting, answers, i);
      FailureOfRank(setting, answers, i);
    }
  }

  lemma LastPhaseIsAssertions(setting: Setting, answers: Answers)
    ensures PhaseOf(setting, answers, 7) == SkippedPhase(Assertions, NoAssertionConfigured)
  {
  }

  lemma {:induction false} FirstFailedFinds(phases: seq<Phase>, k: nat)
    requires k < |phases| && phases[k].status.Failed?
    requires forall i | 0 <= i < k :: !phases[i].status.Failed?
    ensures FirstFailed(phases) == Some(phases[k].name)
  {
    if k > 0 {
      FirstFailedFinds(phases[1..], k - 1);
    }
  }

  lemma {:induction false} FirstFailedFindsNothing(phases: seq<Phase>)
    requires forall i | 0 <= i < |phases| :: !phases[i].status.Failed?
    ensures FirstFailed(phases) == None
  {
    if phases != [] {
      FirstFailedFindsNothing(phases[1..]);
    }
  }

  lemma {:induction false} ErrorCodeFinds(phases: seq<Phase>, k: nat)
    requires k < |phases| && phases[k].error.Some?
    requires forall i | 0 <= i < k :: phases[i].name != phases[k].name
    ensures ErrorCodeOf(phases[k].name, phases) == phases[k].error.value.code
  {
    if k > 0 {
      ErrorCodeFinds(phases[1..], k - 1);
    }
  }

  /** The classes of failure a run excludes: those of the stages that passed before this rank. */
  function ExcludedBefore(setting: Setting, answers: Answers, rank: nat): seq<RuledOut> {
    (if rank > 2 && DnsPhase(answers.dns).status.Passed? then [DnsRuledOut] else [])
    + (if rank > 3 && answers.tcp.Ok? then [TcpRuledOut] else [])
    + (if rank > 4 && TlsApplies(setting) && answers.tls.Ok? then [TlsRuledOut] else [])
    + (if rank > 5 && answers.http.Ok? then [HttpRuledOut] else [])
  }

  lemma {:induction false} RuledOutAreThePassedStages(setting: Setting, answers: Answers, n: nat)
    requires n <= 8
    ensures CollectRuledOut(FirstPhases(setting, answers, n)) == ExcludedBefore(setting, answers, n)
  {
    if n > 0 {
      RuledOutAreThePassedStages(setting, answers, n - 1);
      var phases := FirstPhases(setting, answers, n);
      assert phases[..n - 1] == FirstPhases(setting, answers, n - 1);
      RuledOutByOnePhase(setting, answers, n);
    }
  }

  /** What the phase of one rank excludes. */
  function ExcludedAt(setting: Setting, answers: Answers, rank: nat): seq<RuledOut> {
    if rank == 2 && DnsPhase(answers.dns).status.Passed? then [DnsRuledOut]
    else if rank == 3 && answers.tcp.Ok? then [TcpRuledOut]
    else if rank == 4 && TlsApplies(setting) && answers.tls.Ok? then [TlsRuledOut]
    else if rank == 5 && answers.http.Ok? then [HttpRuledOut]
    else []
  }

  lemma PhaseExcludes(setting: Setting, answers: Answers, rank: nat)
    requires rank < 8
    ensures RuledOutBy(PhaseOf(setting, answers, rank)) == ExcludedAt(setting, answers, rank)
  {
  }

  lemma RuledOutByOnePhase(setting: Setting, answers: Answers, n: nat)
    requires 0 < n <= 8
    ensures ExcludedBefore(setting, answers, n - 1) + RuledOutBy(PhaseOf(setting, answers, n - 1))
      == ExcludedBefore(setting, answers, n)
  {
    PhaseExcludes(setting, answers, n - 1);
    hide RuledOutBy, PhaseOf, DnsPhase, TlsApplies;
  }

  /**
   * What a report concludes is grounded in its phases: the failed phase is the one that first fails, the single
   * hypothesis carries its error code and cites phases of matching status, and the excluded classes are exactly
   * those of the stages that passed before it.
   */
  ghost predicate Grounded(setting: Setting, answers: Answers, failedAt: Option<PhaseName>,
                           hypotheses: seq<Hypothesis>, ruledOut: seq<RuledOut>) {
    var failure, phases := FirstFailure(setting, answers), ExpectedPhases(setting, answers);
    && |hypotheses| == 1
    && (failure.Some? ==>
          && failedAt == Some(failure.value.0)
          && hypotheses[0].code == failure.value.1.code
          && hypotheses[0].evidencePhases == [failure.value.0]
          && ruledOut == ExcludedBefore(setting, answers, PhaseRank(failure.value.0)))
    && (failure.None? ==>
          && failedAt == None && ruledOut == []
          && hypotheses[0].code == RequestPathObserved
          && (forall name | name in hypotheses[0].evidencePhases ::
                PhaseRank(name) < |phases| && phases[PhaseRank(name)].name == name
                && phases[PhaseRank(name)].status.Passed?))
  }

  lemma ConclusionsAreGrounded(setting: Setting, answers: Answers)
    ensures var phases := ExpectedPhases(setting, answers); var failedAt := FirstFailed(phases);
      Grounded(setting, answers, failedAt, HypothesesFor(failedAt, phases), RuledOutFor(failedAt, phases))
  {
    hide PhaseOf, FirstFailure, Reached, PhaseRank, CollectRuledOut, ExcludedBefore, FirstFailed, ErrorCodeOf;
    var phases, failure := ExpectedPhases(setting, answers), FirstFailure(setting, answers);
    PhaseListShape(setting, answers);
    if failure.Some? {
      var k := PhaseRank(failure.value.0);
      NameOfRank(phases, failure.value.0);
      FirstFailedFinds(phases, k);
      ErrorCodeFinds(phases, k);
      RuledOutAreThePassedStages(setting, answers, |phases|);
      NothingPassesAfterFailure(setting, answers);
    } else {
      FirstFailedFindsNothing(phases);
      CompletedRunPassed(setting, answers);
    }
  }

  lemma NameOfRank(phases: seq<Phase>, name: PhaseName)
    requires RunsInRankOrder(phases) && PhaseRank(name) < |phases|
    ensures phases[PhaseRank(name)].name == name
    ensures forall i | 0 <= i < PhaseRank(name) :: phases[i].name != name
  {
  }

  lemma NothingPassesAfterFailure(setting: Setting, answers: Answers)
    requires FirstFailure(setting, answers).Some?
    ensures ExcludedBefore(setting, answers, Reached(setting, answers))
      == ExcludedBefore(setting, answers, PhaseRank(FirstFailure(setting, answers).value.0))
  {
  }

  lemma CompletedRunPassed(setting: Setting, answers: Answers)
    requires FirstFailure(setting, answers).None?
    ensures var phases := ExpectedPhases(setting, answers);
      && |phases| == 8 && phases[2].status.Passed? && phases[3].status.Passed? && phases[5].status.Passed?
      && phases[2].name == Dns && phases[3].name == Tcp && phases[5].name == Http
      && PhaseRank(Dns) == 2 && PhaseRank(Tcp) == 3 && PhaseRank(Http) == 5
  {
  }

  /** The answers agree as far as a run asks for them. */
  predicate AgreeThroughFailure(setting: Setting, a: Answers, b: Answers) {
    && a.dns == b.dns
    && (DnsPhase(a.dns).status.Passed? ==>
          && a.tcp == b.tcp
          && (a.tcp.Ok? ==>
                && (TlsApplies(setting) ==> a.tls == b.tls)
                && ((TlsApplies(setting) ==> a.tls.Ok?) ==> a.http == b.http)))
  }

  /** What a run never asks for cannot influence its findings, its calls or its conclusions. */
  lemma AgreementDecidesTheRun(setting: Setting, a: Answers, b: Answers)
    requires AgreeThroughFailure(setting, a, b)
    ensures ExpectedFindings(setting, a) == ExpectedFindings(setting, b)
    ensures ExpectedCalls(setting, a) == ExpectedCalls(setting, b)
    ensures FirstFailure(setting, a) == FirstFailure(setting, b)
  {
    var n := Reached(setting, a);
    assert n == Reached(setting, b);
    forall i | 0 <= i < n ensures PhaseOf(setting, a, i) == PhaseOf(setting, b, i) {
    }
    assert ExpectedPhases(setting, a) == ExpectedPhases(setting, b);
  }

  /** Every call is made exactly when all stages ranked before it have passed or do not apply. */
  lemma CallsStopAtFirstFailure(setting: Setting, answers: Answers)
    ensures var calls, failure := ExpectedCalls(setting, answers), FirstFailure(setting, answers);
      var rank := if failure.Some? then PhaseRank(failure.value.0) else 8;
      && DnsStage in calls
      && (TcpStage in calls <==> rank > 2)
      && (TlsStage in calls <==> rank > 3 && TlsApplies(setting))
      && (HttpStage in calls <==> rank > 4)
      && (forall i, j | 0 <= i < j < |calls| :: calls[i] != calls[j])
  {
  }

  // ----- The report -----

  function TimelessProbe(probe: ProbeRecord): ProbeRecord {
    probe.(startedMs := 0, durationMs := 0)
  }

  function TimelessProbes(probes: seq<ProbeRecord>): (r: seq<ProbeRecord>)
    ensures |r| == |probes|
  {
    seq(|probes|, i requires 0 <= i < |probes| => TimelessProbe(probes[i]))
  }

  /** The report before it is sealed. */
  function AssembleReport(setting: Setting, findings: Findings, probes: seq<ProbeRecord>, bytesRead: nat,
                          elapsedMs: nat, startedAtUnixMs: nat): Report {
    var failedAt := FirstFailed(findings.phases);
    Report(REPORT_SCHEMA, startedAtUnixMs, setting.target.summary, setting.proxy.summary, setting.options,
           Usage(elapsedMs, |probes|, bytesRead), probes, findings.addresses, findings.tls, findings.http,
           findings.phases, failedAt, HypothesesFor(failedAt, findings.phases), RuledOutFor(failedAt, findings.phases),
           findings.omissions, None)
  }

  function TimelessFindings(findings: Findings): Findings {
    findings.(phases := TimelessPhases(findings.phases))
  }

  /** A report without its clock readings and its seal. */
  function WithoutClock(report: Report): Report {
    report.(startedAtUnixMs := 0, usage := report.usage.(elapsedMs := 0), probes := TimelessProbes(report.probes),
            phases := TimelessPhases(report.phases), reportSha256 := None)
  }

  lemma {:induction false} FailureIgnoresClock(phases: seq<Phase>)
    ensures FirstFailed(TimelessPhases(phases)) == FirstFailed(phases)
    ensures forall name :: ErrorCodeOf(name, TimelessPhases(phases)) == ErrorCodeOf(name, phases)
  {
    if phases != [] {
      FailureIgnoresClock(phases[1..]);
      assert TimelessPhases(phases)[1..] == TimelessPhases(phases[1..]);
    }
  }

  lemma {:induction false} RuledOutIgnoresClock(phases: seq<Phase>)
    ensures CollectRuledOut(TimelessPhases(phases)) == CollectRuledOut(phases)
  {
    if phases != [] {
      var n := |phases| - 1;
      RuledOutIgnoresClock(phases[..n]);
      assert TimelessPhases(phases)[..n] == TimelessPhases(phases[..n]);
    }
  }

  /** Removing the clock from a report is the same as never having read it. */
  lemma WithoutClockAssembles(setting: Setting, findings: Findings, probes: seq<ProbeRecord>, bytesRead: nat,
                              elapsedMs: nat, startedAtUnixMs: nat)
    ensures WithoutClock(AssembleReport(setting, findings, probes, bytesRead, elapsedMs, startedAtUnixMs))
      == AssembleReport(setting, TimelessFindings(findings), TimelessProbes(probes), bytesRead, 0, 0)
  {
    FailureIgnoresClock(findings.phases);
    RuledOutIgnoresClock(findings.phases);
  }

  // ----- Sealing -----

  /** The digest covers the report without its seal; `digest` may fail, as serialization may. */
  function DigestReport(report: Report, digest: Report -> Option<string>): Option<string> {
    digest(report.(reportSha256 := None))
  }

  function Seal(report: Report, digest: Report -> Option<string>): Report {
    report.(reportSha256 := DigestReport(report, digest))
  }
}
