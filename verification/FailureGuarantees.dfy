/** What the error of a live report tells about its run, phase by phase. */
module FailureGuarantees {
  import opened AddressPolicy
  import opened Wrappers
  import opened Model
  import opened TargetPolicy
  import opened Host
  import opened Tracking
  import opened ActionLog
  import opened Resolver
  import opened Live
  import opened RedirectChain
  import opened Diagnosis
  import opened Backends
  import opened Engine
  import opened Inspection
  import opened Guarantees
  import opened LiveGuarantees

  /** A live run that reports an exhausted budget, in any phase, has used up its probes or its time. */
  lemma ExhaustionIsReal(run: Run, report: Report)
    requires ReportsLiveRun(run, report) && ReportedError(report) == Some(EXHAUSTED)
    ensures |report.probes| == run.setting.options.maxProbes || run.setting.options.budgetMs <= report.usage.elapsedMs
  {
    ReportedFailure(run, report);
    hide LiveRun, Authorized, Balanced, Capped, WithoutClock, FirstFailure, TlsRecorded, ReportedError;
  }

  // ----- The first resolution and the connections -----

  /** What became of the first resolution, if it fails the run: not begun, failed, empty, or nothing permitted. */
  ghost function ResolutionError(begun: seq<Action>, options: InspectionOptions): Option<AppError> {
    if begun == [] || !begun[0].Lookup? then Some(EXHAUSTED)
    else match begun[0].answers
      case None => Some(AppError(DnsResolutionFailed, true))
      case Some(found) =>
        if found == [] then Some(AppError(DnsEmptyAnswer, true))
        else if NothingIsPermitted(found, options) then Some(AppError(NonPublicAddressDenied, false))
        else None
  }

  ghost predicate NothingIsPermitted(addresses: seq<SocketAddr>, options: InspectionOptions) {
    forall a | a in addresses :: !IsIpPermitted(a.ip, options.allowPrivate)
  }

  /** A run fails at DNS exactly when its first resolution does, and with that error. */
  lemma ResolutionErrorIsReported(run: Run, report: Report)
    requires ReportsLiveRun(run, report)
    ensures var error := ResolutionError(run.log.dns, run.setting.options);
      if error.Some? then report.failedAt == Some(Dns) && ReportedError(report) == error
      else report.failedAt != Some(Dns)
  {
    hide LiveRun, Reports, Authorized, Balanced, Capped, Chronicle, FirstFailure, ResolutionError, TlsRecorded,
         FailsForBudget;
    LiveReportShape(run, report);
    hide LogShape;
    ResolutionFailure(run.environment, run.setting, run.answers, run.log, report.usage.responseBytesRead, run.cutOff);
    ReportedFailure(run, report);
    hide ReportsLiveRun;
  }

  lemma ResolutionFailure(environment: Environment, setting: Setting, answers: Answers, log: RunLog, bytesRead: nat,
                          cutOff: bool)
    requires LiveRun(environment, setting, answers, log, bytesRead, cutOff) && setting.options.maxAddresses > 0
    ensures var failure, error := FirstFailure(setting, answers), ResolutionError(log.dns, setting.options);
      if error.Some? then failure == Some((Dns, error.value)) else failure.None? || failure.value.0 != Dns
  {
    hide IsIpPermitted, Permitted, Precedes, ConnectionsBegun, RequestsBegun;
    if answers.dns.Ok? {
      var resolution, options := answers.dns.value, setting.options;
      PermittedListHoldsTheLeast(resolution.all, options.allowPrivate, options.maxAddresses);
    }
  }

  /**
   * A run fails at TCP exactly when it got past its resolution and nothing connected. The attempts went through the
   * permitted list in order; the error is that of the connections if and only if every address was tried in vain, and
   * otherwise the budget ended before the list.
   */
  lemma ConnectionErrorIsReported(run: Run, report: Report)
    requires ReportsLiveRun(run, report)
    ensures report.failedAt == Some(Tcp) <==> report.failedAt != Some(Dns) && !Connects(run.log.tcp)
    ensures report.failedAt == Some(Tcp) ==>
      && run.log.dns != [] && run.log.dns[0].Lookup? && run.answers.dns.Ok?
      && IsResolution(run.answers.dns, run.log.dns[0].answers, run.setting.options)
      && var attempts, permitted := run.log.tcp, run.answers.dns.value.permitted;
        && FailedInOrder(attempts, permitted)
        && (AllTriedInVain(attempts, permitted) <==> |attempts| == |permitted|)
        && ReportedError(report) == Some(if AllTriedInVain(attempts, permitted) then AppError(TcpConnectFailed, true)
                                         else EXHAUSTED)
  {
    hide LiveRun, Reports, Authorized, Balanced, Capped, Chronicle, FirstFailure, TlsRecorded, FailsForBudget,
         IsResolution, FailedInOrder, AllTriedInVain;
    ReportedFailure(run, report);
    ConnectionFailure(run.environment, run.setting, run.answers, run.log, report.usage.responseBytesRead, run.cutOff);
    hide ReportsLiveRun;
  }

  predicate FailedInOrder(attempts: seq<Action>, addresses: seq<SocketAddr>) {
    && |attempts| <= |addresses|
    && forall i | 0 <= i < |attempts| ::
         attempts[i].Connect? && attempts[i].address == addresses[i] && !attempts[i].connected
  }

  ghost predicate AllTriedInVain(attempts: seq<Action>, addresses: seq<SocketAddr>) {
    forall i | 0 <= i < |addresses| :: TriedInVain(attempts, addresses[i])
  }

  /** A list without repeats is gone through exactly when every address of it was tried. */
  lemma TriedToTheEnd(attempts: seq<Action>, addresses: seq<SocketAddr>)
    requires FailedInOrder(attempts, addresses) && StrictlySorted(addresses)
    ensures AllTriedInVain(attempts, addresses) <==> |attempts| == |addresses|
  {
    if |attempts| < |addresses| {
      assert !TriedInVain(attempts, addresses[|attempts|]);
    } else {
      forall i | 0 <= i < |addresses| ensures TriedInVain(attempts, addresses[i]) {
        assert attempts[i].address == addresses[i];
      }
    }
  }

  lemma ConnectionFailure(environment: Environment, setting: Setting, answers: Answers, log: RunLog, bytesRead: nat,
                          cutOff: bool)
    requires LiveRun(environment, setting, answers, log, bytesRead, cutOff)
    ensures var failure := FirstFailure(setting, answers);
      && (failure.Some? && failure.value.0 == Tcp
          <==> !(failure.Some? && failure.value.0 == Dns) && !Connects(log.tcp))
      && (failure.Some? && failure.value.0 == Tcp ==>
            && log.dns != [] && log.dns[0].Lookup? && answers.dns.Ok?
            && IsResolution(answers.dns, log.dns[0].answers, setting.options)
            && var attempts, permitted := log.tcp, answers.dns.value.permitted;
              && FailedInOrder(attempts, permitted)
              && (AllTriedInVain(attempts, permitted) <==> |attempts| == |permitted|)
              && failure.value.1 == if AllTriedInVain(attempts, permitted) then AppError(TcpConnectFailed, true)
                                    else EXHAUSTED)
  {
    hide IsIpPermitted, Permitted, Precedes, RequestsBegun, AllTriedInVain, TriedInVain;
    if answers.dns.Ok? && answers.dns.value.permitted != [] && answers.tcp.Err? {
      var resolution, options := answers.dns.value, setting.options;
      PermittedListHoldsTheLeast(resolution.all, options.allowPrivate, options.maxAddresses);
      TriedToTheEnd(log.tcp, resolution.permitted);
    }
  }

  // ----- The handshake -----

  /** It connected, and its name, its client and each of the exchanges that it took were accepted. */
  predicate AllAccepted(handshake: Action)
    requires handshake.TlsConnect?
  {
    var asked := handshake.dialogue;
    && handshake.connected && asked.name == Some(true) && asked.client == Some(true)
    && asked.rounds == Some(|asked.accepted|) && forall i | 0 <= i < |asked.accepted| :: asked.accepted[i]
  }

  /** The error tells what was refused: the connection, the name, the client or an exchange. */
  predicate TellsRefusal(error: AppError, handshake: Action)
    requires handshake.TlsConnect?
  {
    var asked := handshake.dialogue;
    && (error == AppError(TlsTransportFailed, true) <==> !handshake.connected)
    && (error == AppError(InvalidTlsServerName, false) <==> asked.name == Some(false))
    && (error == AppError(TlsConfigurationFailed, false) <==> asked.client == Some(false))
    && (error == AppError(TlsHandshakeFailed, false)
        <==> exists i | 0 <= i < |asked.accepted| :: !asked.accepted[i])
  }

  lemma OutcomeTellsRefusal(handshake: Action, outcome: Outcome, r: Result<TlsSummary>)
    requires handshake.TlsConnect? && EndsWithOutcome(handshake.connected, handshake.dialogue, outcome)
    requires TlsEndedWith(r, outcome)
    ensures outcome == Validated <==> AllAccepted(handshake)
    ensures r.Err? ==> TellsRefusal(r.error, handshake)
  {
  }

  /**
   * A recorded handshake was validated, and the TLS phase passed with what was agreed on, exactly when all of it was
   * accepted. Otherwise the phase failed, and its error tells what was refused.
   */
  lemma HandshakeOutcomeIsReported(run: Run, report: Report)
    requires ReportsLiveRun(run, report) && run.log.tls != [] && !FailedAtTlsByBudget(report)
    ensures var place := |run.log.dns| + |run.log.tcp|;
      && place < |report.probes| && report.probes[place].kind == TlsHandshake
      && TlsEndedWith(run.answers.tls, report.probes[place].outcome)
      && (report.failedAt == Some(Tls) <==> report.probes[place].outcome != Validated)
      && (report.failedAt == Some(Tls) ==> run.answers.tls.Err? && ReportedError(report) == Some(run.answers.tls.error))
    ensures run.log.tls[0].TlsConnect?
    ensures var handshake, place := run.log.tls[0], |run.log.dns| + |run.log.tcp|;
      && (report.probes[place].outcome == Validated <==> AllAccepted(handshake))
      && (report.failedAt != Some(Tls) <==> AllAccepted(handshake))
      && (AllAccepted(handshake) ==> handshake.dialogue.summary.Some? && report.tls == handshake.dialogue.summary)
      && (report.failedAt == Some(Tls) ==> TellsRefusal(ReportedError(report).value, handshake))
  {
    hide LiveRun, Reports, Authorized, FirstFailure, TlsEndedWith, FailedAtTlsByBudget, Describes, TimedInsideSlots,
         FailsForBudget, AllAccepted, TellsRefusal, Kinds, ExpectedFindings;
    CutOffIsATlsFailure(run, report);
    LiveReportShape(run, report);
    HandshakePlace(run.log, TlsApplies(run.setting), run.setting.options);
    RecordedKindsOfLiveRun(run, report);
    TlsFailure(run.environment, run.setting, run.answers, run.log, report.usage.responseBytesRead, run.cutOff);
    ReportedFailure(run, report);
    OutcomeTellsFailure(run.answers.tls, report.probes[|run.log.dns| + |run.log.tcp|].outcome);
    ReportShows(run, report);
    HandshakeRecord(run, report);
    hide ReportsLiveRun, LogShape;
    OutcomeTellsRefusal(run.log.tls[0], report.probes[|run.log.dns| + |run.log.tcp|].outcome, run.answers.tls);
  }

  lemma HandshakeRecord(run: Run, report: Report)
    requires ReportsLiveRun(run, report) && run.log.tls != [] && !run.cutOff && run.log.tls[0].TlsConnect?
    requires LogShape(run.log, TlsApplies(run.setting), run.setting.options)
    ensures var place, handshake := |run.log.dns| + |run.log.tcp|, run.log.tls[0];
      && place < |report.probes|
      && EndsWithOutcome(handshake.connected, handshake.dialogue, report.probes[place].outcome)
  {
    hide LiveRun, Reports, Authorized, TimedInsideSlots, FailsForBudget, Capped, LogShape, TlsEndedWith,
         EndsWithOutcome, RedactUrl;
    var place, actions := |run.log.dns| + |run.log.tcp|, run.log.All();
    assert actions[place] == run.log.tls[0] == actions[..|report.probes|][place];
    assert Describes(report.probes[place], actions[place], run.setting.options);
  }

  lemma HandshakePlace(log: RunLog, tls: bool, options: InspectionOptions)
    requires LogShape(log, tls, options) && log.tls != []
    ensures var place := |log.dns| + |log.tcp|;
      place < |log.All()| && Kinds(log.All())[place] == TlsHandshake
  {
    assert log.All()[|log.dns| + |log.tcp|] == log.tls[0];
    assert Kinds(log.tls)[0] == TlsHandshake;
  }

  lemma TlsFailure(environment: Environment, setting: Setting, answers: Answers, log: RunLog, bytesRead: nat,
                   cutOff: bool)
    requires LiveRun(environment, setting, answers, log, bytesRead, cutOff) && log.tls != []
    ensures var failure := FirstFailure(setting, answers);
      && (failure.Some? && failure.value.0 == Tls <==> answers.tls.Err?)
      && (answers.tls.Err? ==> failure == Some((Tls, answers.tls.error)))
      && log.tls[0].TlsConnect?
      && (answers.tls.Ok? ==>
            && log.tls[0].dialogue.summary == Some(answers.tls.value)
            && ExpectedFindings(setting, answers).tls == Some(answers.tls.value))
  {
    hide IsResolution, Attempts, Kinds, Alternation, ExpectedPhases, RequestsBegun;
  }

  lemma OutcomeTellsFailure(r: Result<TlsSummary>, outcome: Outcome)
    requires TlsEndedWith(r, outcome)
    ensures r.Ok? <==> outcome == Validated
  {
  }

  // ----- The requests -----

  /**
   * The error of a failed HTTP phase is that of the last record: after an answer its body broke before enough of it
   * was read, after none it tells the transport failure, and otherwise no request was begun, for what was refused or,
   * exactly if nothing was, for want of budget.
   */
  lemma HttpErrorIsReported(run: Run, report: Report)
    requires ReportsLiveRun(run, report) && report.failedAt == Some(Http)
    ensures ReportedError(report).Some? && report.probes != [] && |run.log.All()| == |report.probes|
    ensures HttpErrorTells(ReportedError(report).value, report.probes[|report.probes| - 1],
                           run.log.All()[|report.probes| - 1], run.log.refused, run.setting.options)
  {
    hide LiveRun, LogShape, Reports, Authorized, Balanced, Capped, FirstFailure, TimedInsideSlots, FailsForBudget,
         TlsRecorded, IsTransportError, HttpErrorTells;
    ReportedFailure(run, report);
    LiveReportShape(run, report);
    HttpFailureOfRun(run.environment, run.setting, run.answers, run.log, report.usage.responseBytesRead, run.cutOff);
    LastAction(run.log, TlsApplies(run.setting), run.setting.options);
    assert run.log.All()[..|report.probes|] == run.log.All();
    LastRecord(report.probes, run.log.All(), run.setting.options);
    hide ReportsLiveRun;
    LastRequestTells(ReportedError(report).value, report.probes[|report.probes| - 1],
                     run.log.All()[|report.probes| - 1], run.log.http, run.log.refused, run.setting.options);
  }

  predicate HttpErrorTells(error: AppError, record: ProbeRecord, last: Action, refused: seq<ClientRefusal>,
                           options: InspectionOptions) {
    if record.kind != HttpRequest then
      if refused == [] then error == EXHAUSTED
      else
        && |refused| == 1
        && error == if refused[0].ProxyRefused? then AppError(ProxyConfigurationRejected, false)
                    else AppError(HttpClientInitializationFailed, false)
    else
      && refused == [] && last.Send?
      && match record.outcome
         case ResponseReceived =>
           && last.answer.Answered? && BreaksEarly(last.answer.response.body, options)
           && error == AppError(ResponseBodyReadFailed, true)
         case RequestFailed =>
           last.answer.SendFailed? && IsTransportError(error, last.answer.failure, last.url.scheme)
         case _ => false
  }

  lemma LastRequestTells(error: AppError, record: ProbeRecord, last: Action, http: seq<Action>,
                         refused: seq<ClientRefusal>, options: InspectionOptions)
    requires HttpErrorFits(error, http, refused, options) && record.kind == KindOf(last)
    requires last.Send? ==> record.outcome == if last.answer.Answered? then ResponseReceived else RequestFailed
    requires if http != [] then last == http[|http| - 1] else !last.Send?
    ensures HttpErrorTells(error, record, last, refused, options)
  {
    hide IsTransportError;
  }

  /** The last record tells the kind of the last action, and of a request whether it was answered. */
  lemma LastRecord(probes: seq<ProbeRecord>, actions: seq<Action>, options: InspectionOptions)
    requires Balanced(probes, actions, options) && actions != []
    ensures var record, last := probes[|probes| - 1], actions[|actions| - 1];
      && record.kind == KindOf(last)
      && (last.Send? ==> record.outcome == if last.answer.Answered? then ResponseReceived else RequestFailed)
  {
    assert Describes(probes[|probes| - 1], actions[|actions| - 1], options);
  }

  lemma HttpFailureOfRun(environment: Environment, setting: Setting, answers: Answers, log: RunLog, bytesRead: nat,
                         cutOff: bool)
    requires LiveRun(environment, setting, answers, log, bytesRead, cutOff)
    requires FirstFailure(setting, answers).Some? && FirstFailure(setting, answers).value.0 == Http
    ensures !cutOff && log.dns != []
    ensures HttpErrorFits(FirstFailure(setting, answers).value.1, log.http, log.refused, setting.options)
  {
    hide IsResolution, Attempts, Kinds, Alternation, HttpErrorFits, Chain, ChainEnded, HopsAreSends, IsRequest,
         FollowsLocations, EndFits;
  }

  // ----- The redirects -----

  /** What an answer about the next hop makes of the chain, if it ends the chain. */
  ghost predicate AnswerEndsChain(error: AppError, answers: Option<seq<SocketAddr>>, options: InspectionOptions) {
    match answers
    case None => error == AppError(DnsResolutionFailed, true)
    case Some(found) =>
      if found == [] then error == AppError(DnsEmptyAnswer, true)
      else
        && error == AppError(RedirectTargetDenied, false)
        && forall a | a in found :: !IsIpPermitted(a.ip, options.allowPrivate)
  }

  lemma EndpointErrors(error: AppError, answers: Option<seq<SocketAddr>>, options: InspectionOptions)
    requires IsEndpoint(Err(error), answers, options) && options.maxAddresses > 0
    ensures AnswerEndsChain(error, answers, options)
  {
    hide IsIpPermitted, Permitted, Precedes;
    var resolution :| IsResolution(resolution, answers, options) && ChoosesFrom(Err(error), resolution);
    if resolution.Ok? {
      PermittedListHoldsTheLeast(resolution.value.all, options.allowPrivate, options.maxAddresses);
    }
  }

  /** Why a redirection is not followed, although nothing was asked about it: its target, its proxy or the budget. */
  ghost predicate RefusedUnasked(environment: Environment, error: AppError, url: Url, options: InspectionOptions) {
    if !IsTarget(url) then TargetLacks(Some(url), error)
    else
      || (error == EXHAUSTED && HasRoute(environment, options, url))
      || ProxyIsRefused(environment, options, url, error)
  }

  lemma RefusalErrors(environment: Environment, error: AppError, url: Url, options: InspectionOptions)
    requires RefusalFits(environment, error, url, options)
    ensures RefusedUnasked(environment, error, url, options)
    ensures error.code !in {DnsResolutionFailed, DnsEmptyAnswer, RedirectTargetDenied, RedirectLimitReached,
                            InvalidRedirectLocation}
  {
    TargetsAreExact(Some(url), options);
    var parsed := ParseTarget(Some(url), options);
    if parsed.Ok? {
      FragmentsAreIrrelevant(environment, url, options);
      ProxySelectionIsExact(environment, url, options);
      if ResolveProxy(environment, url, options).Err? {
        ProxyErrors(environment, url, options);
      }
    }
    hide ParseTarget, ResolveProxy, GoesVia, Explains, IsTarget, ProxyIsRefused;
  }

  /** What the last response makes of the chain, if it ends the chain in failure. */
  ghost predicate ResponseEndsChain(environment: Environment, error: AppError, hops: nat, response: Response,
                                    options: InspectionOptions) {
    && 300 <= response.status <= 399
    && match response.location
       case NoLocation => false
       case InvalidLocation => error == INVALID_LOCATION
       case NextUrl(next) =>
         if hops == options.maxRedirects + 1 then error == LIMIT_REACHED
         else RefusedUnasked(environment, error, next, options)
  }

  lemma ResponseErrors(environment: Environment, error: AppError, hops: nat, response: Response,
                       options: InspectionOptions)
    requires ResponseEnds(environment, Some(error), hops, response, options)
    ensures ResponseEndsChain(environment, error, hops, response, options)
    ensures error.code !in {DnsResolutionFailed, DnsEmptyAnswer, RedirectTargetDenied}
  {
    hide RefusalFits, RefusedUnasked;
    if response.location.NextUrl? && hops != options.maxRedirects + 1 {
      RefusalErrors(environment, error, response.location.url, options);
    }
  }

  /**
   * The error of a failed redirect is that of the last action. A resolution failed, was empty or, exactly if the
   * target is denied, answered addresses none of which is permitted. After a request, its response is misdirected, or
   * leads on from a full chain or to a URL that was refused before anything was resolved for it.
   */
  lemma RedirectErrorIsReported(run: Run, report: Report)
    requires ReportsLiveRun(run, report) && report.failedAt == Some(Redirects)
    ensures ReportedError(report).Some? && report.http != [] && report.probes != []
    ensures |run.log.All()| == |report.probes|
    ensures var error, n := ReportedError(report).value, |report.probes| - 1;
      var last, options := run.log.All()[n], run.setting.options;
      && report.probes[n].kind == KindOf(last)
      && if last.Lookup? then AnswerEndsChain(error, last.answers, options)
         else
           && last.Send? && error.code !in {DnsResolutionFailed, DnsEmptyAnswer, RedirectTargetDenied}
           && last.answer.Answered?
           && ResponseEndsChain(run.environment, error, |report.http|, last.answer.response, options)
  {
    hide LiveRun, Reports, Authorized, Capped, FirstFailure, TimedInsideSlots, FailsForBudget, TlsRecorded,
         AnswerEndsChain, IsEndpoint, ExpectedFindings, Describes, ResponseEnds, ResponseEndsChain;
    ReportedFailure(run, report);
    ReportReaches(run, report);
    LiveReportShape(run, report);
    RedirectFailureOfRun(run.environment, run.setting, run.answers, run.log, report.usage.responseBytesRead,
                         run.cutOff);
    LastAction(run.log, TlsApplies(run.setting), run.setting.options);
    hide LogShape;
    var actions, n, error := run.log.All(), |report.probes|, ReportedError(report).value;
    assert actions[..n] == actions;
    LastRecord(report.probes, actions, run.setting.options);
    hide Balanced, ReportsLiveRun;
    if actions[n - 1].Lookup? {
      EndpointErrors(error, actions[n - 1].answers, run.setting.options);
    } else {
      ResponseErrors(run.environment, error, |report.http|, actions[n - 1].answer.response, run.setting.options);
    }
  }

  lemma RedirectFailureOfRun(environment: Environment, setting: Setting, answers: Answers, log: RunLog, bytesRead: nat,
                             cutOff: bool)
    requires LiveRun(environment, setting, answers, log, bytesRead, cutOff)
    requires FirstFailure(setting, answers).Some? && FirstFailure(setting, answers).value.0 == Redirects
    ensures !cutOff && log.dns != [] && log.http != []
    ensures var hops := ExpectedFindings(setting, answers).http;
      && hops != []
      && EndFits(environment, Some(FirstFailure(setting, answers).value.1), |hops|, log.http, setting.options)
  {
    hide IsResolution, Attempts, Kinds, Alternation, HttpErrorFits, Chain, HopsAreSends, IsRequest, LaterPinsAreLeast,
         FollowsLocations, ResponseEnds, IsEndpoint;
  }

  /** The last action of a run is its last request, unless it begins none after its connections. */
  lemma LastAction(log: RunLog, tls: bool, options: InspectionOptions)
    requires LogShape(log, tls, options) && log.dns != []
    ensures var last := log.All()[|log.All()| - 1];
      if log.http != [] then last == log.http[|log.http| - 1] else !last.Send?
  {
    KindsOfAll(log);
    var actions, n := log.All(), |log.All()| - 1;
    assert Kinds(actions)[n] == KindOf(actions[n]);
    if log.http == [] {
      assert Kinds(log.http) == [];
    }
  }
}
