/**
 * Runs that show what the guarantees allow for: a handshake that outlasts the deadline and stays unrecorded, and bytes
 * that no reported hop has.
 */
module Witnesses {
  import opened AddressPolicy
  import opened Wrappers
  import opened Model
  import opened TargetPolicy
  import opened Host
  import opened Tracking
  import opened ActionLog
  import opened Resolver
  import opened Live
  import opened RedirectChain
  import opened Diagnosis
  import opened Backends
  import opened Engine
  import opened Inspection

  // ----- The circumstances of both -----

  const OPTIONS: InspectionOptions := InspectionOptions(7000, 64, 1, 1, 10, false, true, true, true, true)

  const ADDRESS: SocketAddr := SocketAddr(IpAddr.V4(Ipv4Addr(192, 0, 2, 1)), 443)

  const ENVIRONMENT: Environment := Environment(map[], text => None)

  const BUDGET: nat := 7000 * NANOS_PER_MILLI

  /** A wait begun at once, with the whole budget left to it. */
  function AtOnce(timeout: nat): Wait {
    Wait(timeout, BUDGET, 0)
  }

  function TargetUrl(scheme: Scheme): Url {
    Url(scheme, "", None, Some("host"), Some(443), "/", None, None)
  }

  function Circumstances(scheme: Scheme): Setting {
    var url := TargetUrl(scheme);
    Setting(ParsedTarget(url, TargetSummary(url, url, scheme, "host", 443)),
            DirectProxy("host", 443, Some("proxy use disabled by option")), OPTIONS)
  }

  const LOOKUP: Action := Lookup("host", 443, Some([ADDRESS]))

  const CONNECT: Action := Connect(ADDRESS, AtOnce(5 * SECOND), true)

  const RESOLUTION: Resolution := Resolution([ADDRESS], [ADDRESS])

  lemma CircumstancesHold(scheme: Scheme)
    requires scheme == Https || scheme == PlainHttp
    ensures ValidOptions(OPTIONS)
    ensures ParseTarget(Some(TargetUrl(scheme)), OPTIONS) == Ok(Circumstances(scheme).target)
    ensures ResolveProxy(ENVIRONMENT, TargetUrl(scheme), OPTIONS) == Ok(Circumstances(scheme).proxy)
    ensures RedactUrl(TargetUrl(scheme), true) == TargetUrl(scheme)
  {
  }

  lemma ResolutionHolds()
    ensures IsResolution(Ok(RESOLUTION), Some([ADDRESS]), OPTIONS)
    ensures DnsPhase(Ok(RESOLUTION)).status.Passed?
  {
    assert IsIpPermitted(ADDRESS.ip, true);
    assert KeepPermitted([ADDRESS], true) == [ADDRESS];
  }

  lemma StartIsAuthorized()
    ensures Authorized(ENVIRONMENT, OPTIONS, [LOOKUP, CONNECT])
    ensures LastLookup([LOOKUP, CONNECT]) == Some(LOOKUP) && Offers(Some(LOOKUP), ADDRESS, OPTIONS)
  {
    assert Authorized(ENVIRONMENT, OPTIONS, []);
    LookupIsAuthorized(ENVIRONMENT, OPTIONS, [], LOOKUP);
    AuthorizedAppend(ENVIRONMENT, OPTIONS, [LOOKUP], CONNECT);
    assert [] + [LOOKUP] == [LOOKUP] && [LOOKUP] + [CONNECT] == [LOOKUP, CONNECT];
  }

  lemma ConnectionHolds()
    ensures ConnectionsBegun(Ok(ADDRESS), [CONNECT], [ADDRESS], OPTIONS)
  {
  }

  // ----- A report for any answers -----

  lemma ExpectedIsTimeless(setting: Setting, answers: Answers)
    ensures TimelessFindings(ExpectedFindings(setting, answers)) == ExpectedFindings(setting, answers)
  {
    var phases := ExpectedPhases(setting, answers);
    forall i | 0 <= i < |phases| ensures Timeless(phases[i]) == phases[i] {
    }
    assert TimelessPhases(phases) == phases;
  }

  /** The report of a run that took its records at once and ended at a millisecond. */
  function ReportOf(run: Run, probes: seq<ProbeRecord>, bytesRead: nat, endedMs: nat): Report {
    AssembleReport(run.setting, ExpectedFindings(run.setting, run.answers), probes, bytesRead, endedMs, 0)
  }

  function RunOf(scheme: Scheme, answers: Answers, log: RunLog, records: nat, endedMs: nat, cutOff: bool): Run {
    var setting := Circumstances(scheme);
    Run(ENVIRONMENT, setting, answers, log, ExpectedCalls(setting, answers), seq(records, i => Span(0, 0, 0)), 0,
        endedMs * NANOS_PER_MILLI, cutOff, 0)
  }

  predicate TakenAtOnce(probes: seq<ProbeRecord>) {
    forall i | 0 <= i < |probes| :: probes[i].sequence == i + 1 && probes[i].startedMs == 0 == probes[i].durationMs
  }

  lemma RunIsReported(scheme: Scheme, answers: Answers, log: RunLog, probes: seq<ProbeRecord>, bytesRead: nat,
                      endedMs: nat, cutOff: bool)
    requires scheme == Https || scheme == PlainHttp
    requires TakenAtOnce(probes) && |probes| <= 64 && endedMs <= 120_000
    ensures var run := RunOf(scheme, answers, log, |probes|, endedMs, cutOff);
      && Reports(run, ReportOf(run, probes, bytesRead, endedMs)) && TimedInsideSlots(run.spans)
      && ReportOf(run, probes, bytesRead, endedMs).usage.elapsedMs == endedMs
  {
    var run := RunOf(scheme, answers, log, |probes|, endedMs, cutOff);
    CircumstancesHold(scheme);
    ExpectedIsTimeless(run.setting, answers);
    WithoutClockAssembles(run.setting, ExpectedFindings(run.setting, answers), probes, bytesRead, endedMs, 0);
    hide TimelessFindings, TimelessProbes, ExpectedFindings, ExpectedCalls, ParseTarget, ResolveProxy, WithoutClock,
         ValidOptions, FirstFailed, HypothesesFor, RuledOutFor;
    AtOnceIsChronicle(probes, run.spans, run.ended);
    hide Chronicle, TakenAtOnce;
  }

  lemma AtOnceIsChronicle(probes: seq<ProbeRecord>, spans: seq<Span>, ended: nat)
    requires TakenAtOnce(probes) && spans == seq(|probes|, i => Span(0, 0, 0))
    ensures Chronicle(probes, spans, 0, ended) && TimedInsideSlots(spans)
  {
  }

  /** Every wait had the whole budget left, and the waits of the recorded actions began at once. */
  predicate WaitsForBudget(actions: seq<Action>, records: nat) {
    && (forall i | 0 <= i < |actions| && !actions[i].Lookup? ::
          actions[i].wait.left == BUDGET && actions[i].wait.begin == 0)
    && (forall i | 0 <= i < |actions| :: WaitsInOrder(actions[i], BUDGET) && (i < records ==> WaitsBy(actions[i], 0)))
  }

  lemma AtOnceIsCapped(actions: seq<Action>, run: Run, records: nat)
    requires run.started == 0 && run.setting.options == OPTIONS && run.spans == seq(records, i => Span(0, 0, 0))
    requires WaitsForBudget(actions, records) && records <= |actions|
    ensures Capped(actions, run.spans, run.started, Deadline(run))
  {
  }

  function DnsRecord(sequence: nat): ProbeRecord {
    ProbeRecord(sequence, DnsLookup, Endpoint("host", 443), 0, 0, Resolved)
  }

  const TCP_RECORD: ProbeRecord := ProbeRecord(2, TcpConnect, Peer(AddressLabel(ADDRESS, true)), 0, 0, Connected)

  // ----- A handshake that outlasts the deadline -----

  /** The connection takes 6.9 s, and the socket keeps its timeout of 7 s for what follows. */
  const EXCHANGE: SocketWait := SocketWait(7 * SECOND, 6900 * NANOS_PER_MILLI, 6900 * NANOS_PER_MILLI)

  const UNFINISHED: Dialogue := Dialogue(Some(true), Some(true), Some(2), [true], None)

  const HANDSHAKE: Action := TlsConnect(ADDRESS, AtOnce(7 * SECOND), true, [EXCHANGE], UNFINISHED)

  const CUT_OFF_LOG: RunLog := RunLog([LOOKUP], [CONNECT], [HANDSHAKE], [], [], [])

  const CUT_OFF_ANSWERS: Answers := Answers(Ok(RESOLUTION), Ok(ADDRESS), Err(EXHAUSTED), Err(EXHAUSTED))

  lemma CutOffRunIsLive()
    ensures LiveRun(ENVIRONMENT, Circumstances(Https), CUT_OFF_ANSWERS, CUT_OFF_LOG, 0, true)
    ensures Authorized(ENVIRONMENT, OPTIONS, CUT_OFF_LOG.All())
  {
    ResolutionHolds();
    ConnectionHolds();
    StartIsAuthorized();
    hide IsResolution, ConnectionsBegun, Offers, LastLookup, Authorized;
    assert CUT_OFF_LOG.All() == [LOOKUP, CONNECT] + [HANDSHAKE];
    AuthorizedAppend(ENVIRONMENT, OPTIONS, [LOOKUP, CONNECT], HANDSHAKE);
  }

  /** The wait was begun before the deadline, ended with the run, and outlasted the deadline all the same. */
  predicate OutlastsDeadline(run: Run, wait: SocketWait) {
    && wait.tested == wait.begin < Deadline(run) && wait.begin + wait.timeout == run.ended
    && run.ended == Deadline(run) + 6900 * NANOS_PER_MILLI
  }

  /** A run on a budget of 7 s that takes 13.9 s. */
  const OUTLASTING: Run := RunOf(Https, CUT_OFF_ANSWERS, CUT_OFF_LOG, 2, 13_900, true)

  const OUTLASTING_REPORT: Report := ReportOf(OUTLASTING, [DnsRecord(1), TCP_RECORD], 0, 13_900)

  lemma OutlastingRunIsReported()
    ensures ReportsLiveRun(OUTLASTING, OUTLASTING_REPORT)
    ensures OUTLASTING_REPORT.usage.elapsedMs == 13_900 && |OUTLASTING_REPORT.probes| == 2
  {
    hide Reports, LiveRun, Authorized, Balanced, Capped, TimedInsideSlots, ExpectedFindings, ExpectedCalls,
         FirstFailed, HypothesesFor, RuledOutFor, TlsRecorded;
    var probes := [DnsRecord(1), TCP_RECORD];
    RunIsReported(Https, CUT_OFF_ANSWERS, CUT_OFF_LOG, probes, 0, 13_900, true);
    CutOffRunIsLive();
    CutOffRecordsAreComplete(probes);
    AtOnceIsCapped(CUT_OFF_LOG.All(), OUTLASTING, 2);
  }

  /** The last wait of a handshake keeps the timeout that was set before its connection. */
  lemma HandshakeMayOutlastDeadline()
    ensures exists run, report ::
      && ReportsLiveRun(run, report) && run.setting.options.budgetMs == 7000 && report.usage.elapsedMs == 13_900
      && run.log.tls != [] && run.log.tls[0].TlsConnect? && |run.log.tls[0].exchanges| == 1
      && OutlastsDeadline(run, run.log.tls[0].exchanges[0])
  {
    OutlastingRunIsReported();
    hide ReportsLiveRun, OUTLASTING_REPORT;
    assert OutlastsDeadline(OUTLASTING, OUTLASTING.log.tls[0].exchanges[0]);
  }

  /** There is a run whose last action, a handshake, is not among its records. */
  lemma HandshakeMayStayUnrecorded()
    ensures exists run, report :: ReportsLiveRun(run, report) && run.cutOff && |run.log.All()| == |report.probes| + 1
  {
    OutlastingRunIsReported();
    CutOffRecordsAreComplete([DnsRecord(1), TCP_RECORD]);
    hide ReportsLiveRun, OUTLASTING_REPORT;
    assert OUTLASTING.cutOff;
  }

  lemma CutOffRecordsAreComplete(probes: seq<ProbeRecord>)
    requires probes == [DnsRecord(1), TCP_RECORD]
    ensures var actions := CUT_OFF_LOG.All();
      && |actions| == 3 && actions[2] == HANDSHAKE && Balanced(probes, actions[..2], OPTIONS)
      && WaitsForBudget(actions, 2)
  {
    assert CUT_OFF_LOG.All() == [LOOKUP, CONNECT, HANDSHAKE] && CUT_OFF_LOG.All()[..2] == [LOOKUP, CONNECT];
  }

  // ----- Bytes of a chain that was lost -----

  const CLIENT: HttpClient := HttpClient("host", ADDRESS, None, BUDGET)

  const RESPONSE: Response := Response(302, NextUrl(TargetUrl(PlainHttp)), Body([0], false))

  function Request(answered: bool): Action {
    Send(CLIENT, TargetUrl(PlainHttp), AtOnce(BUDGET),
         if answered then Answered(RESPONSE) else SendFailed(SendFailure(false, false)))
  }

  /** A redirection to itself with a body of one byte, then a request without an answer. */
  const LOST_HOP: HttpHop :=
    HttpHop(0, TargetUrl(PlainHttp), 302, 1, false, BodyDigest([0]), None, Some(TargetUrl(PlainHttp)))

  const LOST_LOG: RunLog := RunLog([LOOKUP], [CONNECT], [], [Request(true), LOOKUP, Request(false)], [], [LOST_HOP])

  const LOST_ANSWERS: Answers :=
    Answers(Ok(RESOLUTION), Ok(ADDRESS), Err(EXHAUSTED), Err(AppError(HttpRequestFailed, true)))

  function HttpRecord(sequence: nat, outcome: Outcome): ProbeRecord {
    ProbeRecord(sequence, HttpRequest, Destination.Page(TargetUrl(PlainHttp)), 0, 0, outcome)
  }

  lemma LostRequestsAreAuthorized()
    ensures Authorized(ENVIRONMENT, OPTIONS, LOST_LOG.All())
  {
    CircumstancesHold(PlainHttp);
    StartIsAuthorized();
    hide Offers, LastLookup, Authorized, ParseTarget, ResolveProxy;
    var start := [LOOKUP, CONNECT];
    AuthorizedAppend(ENVIRONMENT, OPTIONS, start, Request(true));
    LookupIsAuthorized(ENVIRONMENT, OPTIONS, start + [Request(true)], LOOKUP);
    AuthorizedAppend(ENVIRONMENT, OPTIONS, start + [Request(true)] + [LOOKUP], Request(false));
    assert LOST_LOG.All() == start + [Request(true)] + [LOOKUP] + [Request(false)];
  }

  lemma LostRequestsHold()
    ensures RequestsBegun(ENVIRONMENT, LOST_ANSWERS.http, LOST_LOG.http, [], LOST_LOG.completed, 1,
                          TargetUrl(PlainHttp), Circumstances(PlainHttp).proxy, ADDRESS, OPTIONS)
  {
    CircumstancesHold(PlainHttp);
    hide ParseTarget, ResolveProxy, RedactUrl, ValidOptions;
    assert Kinds(LOST_LOG.http) == Alternation(3);
    assert HopIsRedacted(LOST_HOP, OPTIONS);
    assert Chain([LOST_HOP], TargetUrl(PlainHttp), OPTIONS);
    assert SumOfBodies([]) == 0 && SumOfBodies([LOST_HOP]) == 1;
    assert IsHopOf(LOST_HOP, LOST_LOG.http[0], OPTIONS);
  }

  lemma LostRunIsLive()
    ensures LiveRun(ENVIRONMENT, Circumstances(PlainHttp), LOST_ANSWERS, LOST_LOG, 1, false)
  {
    ResolutionHolds();
    ConnectionHolds();
    LostRequestsHold();
    hide IsResolution, ConnectionsBegun, RequestsBegun;
  }

  const LOST_PROBES: seq<ProbeRecord> :=
    [DnsRecord(1), TCP_RECORD, HttpRecord(3, ResponseReceived), DnsRecord(4), HttpRecord(5, RequestFailed)]

  /** There is a run whose counter holds a byte although it reports no hop. */
  lemma BytesMayBeLost()
    ensures exists run, report :: ReportsLiveRun(run, report) && report.http == [] && report.usage.responseBytesRead > 0
  {
    LostRecordsAreComplete();
    LostRunIsLive();
    LostRequestsAreAuthorized();
    LostRunReportsNoHop();
    hide LOST_PROBES, LOST_LOG, LOST_ANSWERS, Reports, LiveRun, Authorized, Balanced, Capped, TimedInsideSlots,
         TakenAtOnce, WaitsForBudget, ExpectedFindings, ExpectedCalls, FirstFailed, HypothesesFor, RuledOutFor,
         FailsForBudget, TlsRecorded;
    var run := RunOf(PlainHttp, LOST_ANSWERS, LOST_LOG, 5, 100, false);
    var report := ReportOf(run, LOST_PROBES, 1, 100);
    RunIsReported(PlainHttp, LOST_ANSWERS, LOST_LOG, LOST_PROBES, 1, 100, false);
    AtOnceIsCapped(LOST_LOG.All(), run, 5);
    assert LOST_LOG.All()[..5] == LOST_LOG.All();
    assert ReportsLiveRun(run, report);
  }

  lemma LostRecordsAreComplete()
    ensures TakenAtOnce(LOST_PROBES) && |LOST_PROBES| == 5
    ensures Balanced(LOST_PROBES, LOST_LOG.All(), OPTIONS) && |LOST_LOG.All()| == 5
    ensures TlsRecorded(LOST_ANSWERS, LOST_LOG, LOST_PROBES) && WaitsForBudget(LOST_LOG.All(), 5)
  {
    CircumstancesHold(PlainHttp);
    hide RedactUrl, ParseTarget, ResolveProxy;
    assert LOST_LOG.All() == [LOOKUP, CONNECT, Request(true), LOOKUP, Request(false)];
  }

  lemma LostRunReportsNoHop()
    ensures var setting := Circumstances(PlainHttp);
      && ExpectedFindings(setting, LOST_ANSWERS).http == []
      && !FailsForBudget(setting, LOST_ANSWERS)
  {
    ResolutionHolds();
    hide ExpectedPhases, ObserveAddresses;
  }
}
