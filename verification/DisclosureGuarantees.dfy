/** What a live report shows of URLs, and which URLs its run requested. */
module DisclosureGuarantees {
  import opened AddressPolicy
  import opened Wrappers
  import opened Model
  import opened TargetPolicy
  import opened Host
  import opened Tracking
  import opened ActionLog
  import opened RedirectChain
  import opened Diagnosis
  import opened Engine
  import opened Inspection
  import opened Guarantees
  import opened LiveGuarantees

  // ----- Requests -----

  /** Every URL requested, on every hop, is an http or https URL with a host and without credentials. */
  lemma RequestsAreAcceptable(run: Run, report: Report, i: nat)
    requires ReportsLiveRun(run, report) && i < |run.log.All()| && run.log.All()[i].Send?
    ensures ParseTarget(Some(run.log.All()[i].url), run.setting.options).Ok?
    ensures IsTarget(run.log.All()[i].url)
  {
    hide Reports, LiveRun, Balanced, Capped, SelectedFor, ParseTarget, TlsRecorded;
    EveryActionIsAuthorized(run.environment, run.setting.options, run.log.All(), i);
    TargetsAreExact(Some(run.log.All()[i].url), run.setting.options);
  }

  /** Hop `i` of a report answers the `i`-th request and shows its URL redacted. */
  lemma HopsAnswerRequests(run: Run, report: Report)
    requires ReportsLiveRun(run, report)
    ensures HopsAreSends(report.http, run.log.http, run.setting.options)
  {
    hide LiveRun, Reports, Authorized, Balanced, Capped, TlsRecorded, HopsAreSends, ExpectedFindings;
    ReportReaches(run, report);
    HopsOfRun(run.environment, run.setting, run.answers, run.log, report.usage.responseBytesRead, run.cutOff);
  }

  lemma HopsOfRun(environment: Environment, setting: Setting, answers: Answers, log: RunLog, bytesRead: nat,
                  cutOff: bool)
    requires LiveRun(environment, setting, answers, log, bytesRead, cutOff)
    ensures var http := ExpectedFindings(setting, answers).http;
      HopsAreSends(http, log.http, setting.options) && (http == [] || http == log.completed)
  {
    hide IsHopOf, Chain, Kinds, Alternation, SumOfBodies, RedactUrl, ExpectedPhases, ObserveAddresses;
  }

  // ----- URLs -----

  predicate ProxyIsRedacted(proxy: ProxySummary) {
    proxy.endpoint.Some? ==> IsRedacted(proxy.endpoint.value, false)
  }

  predicate ObservationIsRedacted(observation: Observation, options: InspectionOptions) {
    match observation
    case NormalizedTarget(target) => IsRedacted(target, options.showQueryValues)
    case ProxySelection(proxy) => ProxyIsRedacted(proxy)
    case _ => true
  }

  predicate PhaseIsRedacted(phase: Phase, options: InspectionOptions) {
    forall i | 0 <= i < |phase.observations| :: ObservationIsRedacted(phase.observations[i], options)
  }

  predicate ProbeIsRedacted(probe: ProbeRecord, options: InspectionOptions) {
    probe.destination.Page? ==> IsRedacted(probe.destination.url, options.showQueryValues)
  }

  /** No URL anywhere in the report has credentials, a fragment or, unless they may be shown, query values. */
  ghost predicate UrlsAreRedacted(report: Report) {
    var options := report.options;
    && IsRedacted(report.target.intended, options.showQueryValues)
    && IsRedacted(report.target.effective, options.showQueryValues)
    && ProxyIsRedacted(report.proxy)
    && (forall i | 0 <= i < |report.probes| :: ProbeIsRedacted(report.probes[i], options))
    && (forall i | 0 <= i < |report.phases| :: PhaseIsRedacted(report.phases[i], options))
    && (forall i | 0 <= i < |report.http| :: HopIsRedacted(report.http[i], options))
  }

  lemma SettingIsRedacted(environment: Environment, setting: Setting)
    requires ParseTarget(Some(setting.target.url), setting.options) == Ok(setting.target)
    requires ResolveProxy(environment, setting.target.url, setting.options) == Ok(setting.proxy)
    ensures IsRedacted(setting.target.summary.intended, setting.options.showQueryValues)
    ensures setting.target.summary.effective == setting.target.summary.intended
    ensures ProxyIsRedacted(setting.proxy.summary)
  {
    ConnectsWhereSelected(environment, setting.target.url, setting.options);
    RedactionRedacts(setting.target.url, setting.options.showQueryValues);
    hide ResolveProxy, IsRedacted;
  }

  lemma PhasesAreRedacted(setting: Setting, answers: Answers)
    requires IsRedacted(setting.target.summary.intended, setting.options.showQueryValues)
    requires ProxyIsRedacted(setting.proxy.summary)
    ensures var phases := ExpectedPhases(setting, answers);
      forall i | 0 <= i < |phases| :: PhaseIsRedacted(phases[i], setting.options)
  {
    hide IsRedacted, ProxyIsRedacted, Reached, Statuses;
  }

  lemma ProbesAreRedacted(probes: seq<ProbeRecord>, actions: seq<Action>, options: InspectionOptions, i: nat)
    requires Balanced(probes, actions, options) && i < |probes|
    ensures ProbeIsRedacted(probes[i], options)
  {
    assert Describes(probes[i], actions[i], options);
    if actions[i].Send? {
      RedactionRedacts(actions[i].url, options.showQueryValues);
    }
  }

  lemma HopsAreRedacted(environment: Environment, setting: Setting, answers: Answers, log: RunLog, bytesRead: nat,
                        cutOff: bool)
    requires LiveRun(environment, setting, answers, log, bytesRead, cutOff)
    ensures var http := ExpectedFindings(setting, answers).http;
      forall i | 0 <= i < |http| :: HopIsRedacted(http[i], setting.options)
  {
    hide HopIsRedacted, HopsAreSends, Kinds, Alternation, SumOfBodies, RedactUrl, ExpectedPhases, ObserveAddresses,
         Leads;
  }

  lemma ReportIsRedacted(run: Run, report: Report)
    requires ReportsLiveRun(run, report)
    ensures UrlsAreRedacted(report)
  {
    hide LiveRun, Authorized, Balanced, Capped, TlsRecorded, ParseTarget, ResolveProxy, Chronicle, WithoutClock,
         ExpectedFindings, ExpectedPhases, TimelessPhases, IsRedacted, HopIsRedacted, ProbeIsRedacted,
         PhaseIsRedacted, ProxyIsRedacted, FirstFailed, HypothesesFor, RuledOutFor;
    var setting, answers := run.setting, run.answers;
    ReportShows(run, report);
    ProxyShown(run, report);
    SettingIsRedacted(run.environment, setting);
    HopsAreRedacted(run.environment, setting, answers, run.log, report.usage.responseBytesRead, run.cutOff);
    forall i | 0 <= i < |report.probes| ensures ProbeIsRedacted(report.probes[i], setting.options) {
      ProbesAreRedacted(report.probes, run.log.All()[..|report.probes|], setting.options, i);
    }
    ReportedPhasesAreRedacted(report, setting, answers);
  }

  lemma ProxyShown(run: Run, report: Report)
    requires Reports(run, report)
    ensures report.proxy == run.setting.proxy.summary
  {
    hide ExpectedFindings, TimelessPhases, TimelessProbes, FirstFailed, HypothesesFor, RuledOutFor, ParseTarget,
         ResolveProxy, Chronicle;
    assert WithoutClock(report).proxy == report.proxy;
  }

  lemma ReportedPhasesAreRedacted(report: Report, setting: Setting, answers: Answers)
    requires TimelessPhases(report.phases) == ExpectedPhases(setting, answers)
    requires IsRedacted(setting.target.summary.intended, setting.options.showQueryValues)
    requires ProxyIsRedacted(setting.proxy.summary)
    ensures forall i | 0 <= i < |report.phases| :: PhaseIsRedacted(report.phases[i], setting.options)
  {
    PhasesAreRedacted(setting, answers);
    TimelessPhasesAreTheSame(report.phases);
    hide TimelessPhases, ExpectedPhases, ObservationIsRedacted;
    var expected := ExpectedPhases(setting, answers);
    forall i | 0 <= i < |report.phases| ensures PhaseIsRedacted(report.phases[i], setting.options) {
      assert PhaseIsRedacted(expected[i], setting.options);
    }
  }

  // ----- Addresses and bodies -----

  predicate ProbeShowsAsAllowed(probe: ProbeRecord, options: InspectionOptions) {
    probe.destination.Peer? ==> probe.destination.shownAs.shown == options.showAddresses
  }

  predicate PhaseShowsAsAllowed(phase: Phase, options: InspectionOptions) {
    forall i | 0 <= i < |phase.observations| ::
      phase.observations[i].SelectedAddress? ==> phase.observations[i].shownAs.shown == options.showAddresses
  }

  /** Every address in the report, of a probe, a phase or an observation, is shown in full only if that is allowed. */
  ghost predicate AddressesAreShownAsAllowed(report: Report) {
    var options := report.options;
    && (forall i | 0 <= i < |report.probes| :: ProbeShowsAsAllowed(report.probes[i], options))
    && (forall i | 0 <= i < |report.phases| :: PhaseShowsAsAllowed(report.phases[i], options))
    && (forall i | 0 <= i < |report.addresses| :: report.addresses[i].address.shown == options.showAddresses)
  }

  lemma ProbesShowAsAllowed(probes: seq<ProbeRecord>, actions: seq<Action>, options: InspectionOptions)
    requires Balanced(probes, actions, options)
    ensures forall i | 0 <= i < |probes| :: ProbeShowsAsAllowed(probes[i], options)
  {
    forall i | 0 <= i < |probes| ensures ProbeShowsAsAllowed(probes[i], options) {
      assert Describes(probes[i], actions[i], options);
    }
  }

  lemma FindingsShowAsAllowed(setting: Setting, answers: Answers)
    ensures var findings := ExpectedFindings(setting, answers);
      && (forall i | 0 <= i < |findings.addresses| ::
            findings.addresses[i].address.shown == setting.options.showAddresses)
      && (forall i | 0 <= i < |findings.phases| :: PhaseShowsAsAllowed(findings.phases[i], setting.options))
  {
    hide Reached, Statuses, IsIpPermitted, ClassifyIp;
  }

  lemma ReportShowsAddressesAsAllowed(run: Run, report: Report)
    requires ReportsLiveRun(run, report)
    ensures AddressesAreShownAsAllowed(report)
  {
    hide LiveRun, Authorized, Balanced, Capped, TlsRecorded, ParseTarget, ResolveProxy, Chronicle, WithoutClock,
         ExpectedFindings, ExpectedPhases, TimelessPhases, ProbeShowsAsAllowed, FirstFailed, HypothesesFor, RuledOutFor;
    ReportShows(run, report);
    FindingsShowAsAllowed(run.setting, run.answers);
    ProbesShowAsAllowed(report.probes, run.log.All()[..|report.probes|], run.setting.options);
    TimelessPhasesAreTheSame(report.phases);
    var expected := ExpectedFindings(run.setting, run.answers).phases;
    forall i | 0 <= i < |report.phases| ensures PhaseShowsAsAllowed(report.phases[i], run.setting.options) {
      assert PhaseShowsAsAllowed(expected[i], run.setting.options);
    }
  }

  /** Bodies are within their limit, digested as counted, and kept exactly if samples are wanted. */
  lemma BodiesAreKeptAsAllowed(run: Run, report: Report)
    requires ReportsLiveRun(run, report)
    ensures forall i | 0 <= i < |report.http| :: BodyFits(report.http[i], report.options)
  {
    hide LiveRun, Reports, Authorized, Balanced, Capped, TlsRecorded, ExpectedFindings, BodyFits;
    ReportShows(run, report);
    BodiesOfRun(run.environment, run.setting, run.answers, run.log, report.usage.responseBytesRead, run.cutOff);
  }

  lemma BodiesOfRun(environment: Environment, setting: Setting, answers: Answers, log: RunLog, bytesRead: nat,
                    cutOff: bool)
    requires LiveRun(environment, setting, answers, log, bytesRead, cutOff)
    ensures var http := ExpectedFindings(setting, answers).http;
      forall i | 0 <= i < |http| :: BodyFits(http[i], setting.options)
  {
    hide BodyFits, HopIsRedacted, HopsAreSends, Kinds, Alternation, SumOfBodies, RedactUrl, ExpectedPhases,
         ObserveAddresses, Leads, LaterPinsAreLeast, FollowsLocations, EndFits;
  }
}
