/** The last phases, the whole walk and the sealed report (src/engine.rs, `inspect_with_backend`, `finalize_report`). */
module Inspection {
  import opened Wrappers
  import opened Model
  import opened TargetPolicy
  import opened Host
  import opened Tracking
  import opened ActionLog
  import opened Live
  import opened RedirectChain
  import opened Diagnosis
  import opened Backends
  import opened Engine

  // ----- The HTTP phase and what follows it -----

  /** The HTTP phase passed, and with it the run reaches its end. */
  lemma FindingsComplete(setting: Setting, a: Answers, b: Answers, before: Findings, after: Findings,
                         http: Phase, redirects: Phase, assertions: Phase)
    requires FindingsAt(setting, a, before, 5) && b == a.(http := b.http) && b.http.Ok?
    requires Timeless(http) == PhaseOf(setting, b, 5)
    requires Timeless(redirects) == PhaseOf(setting, b, 6)
    requires Timeless(assertions) == PhaseOf(setting, b, 7)
    requires after == before.(phases := before.phases + [http] + [redirects] + [assertions], http := b.http.value.hops)
    ensures Reached(setting, b) == 8 && TimelessFindings(after) == ExpectedFindings(setting, b)
    ensures FailsForBudget(setting, b) <==> HttpFailure(b.http) == Some(EXHAUSTED)
  {
    CompleteRank(setting, b);
    hide PhaseOf, FirstPhases, TimelessPhases, ObserveAddresses, Reached, FailsForBudget;
    PhasesGrow(setting, a, b, before.phases, http);
    PhasesGrow(setting, b, b, before.phases + [http], redirects);
    PhasesGrow(setting, b, b, before.phases + [http] + [redirects], assertions);
  }

  lemma CompleteRank(setting: Setting, b: Answers)
    requires b.http.Ok? && PassedThrough(setting, b, 5)
    ensures Reached(setting, b) == 8
    ensures FailsForBudget(setting, b) <==> HttpFailure(b.http) == Some(EXHAUSTED)
  {
  }

  lemma HttpPhaseRank(setting: Setting, answers: Answers)
    ensures PhaseOf(setting, answers, 5) == HttpPhase(answers.http)
    ensures answers.http.Ok? ==> PhaseOf(setting, answers, 6) == RedirectsPhase(answers.http.value)
    ensures PhaseOf(setting, answers, 7) == SkippedPhase(Assertions, NoAssertionConfigured)
  {
  }

  lemma HttpCall(setting: Setting, answers: Answers)
    requires Reached(setting, answers) in {6, 8}
    ensures ExpectedCalls(setting, answers) == CallsThrough(setting, 5) + [HttpStage]
  {
  }

  /** A live walk past its TLS phase may request its target of any permitted address. */
  lemma LiveMayRequest(tracker: Tracker, setting: Setting, a: Answers, log: RunLog, address: SocketAddr)
    requires LiveWalking(tracker.host.environment, setting, a, log, tracker.host.actions, 5)
    requires address in a.dns.value.permitted && ParseTarget(Some(setting.target.url), setting.options).Ok?
    ensures MayRequest(tracker.host, setting.options, setting.target.url, setting.proxy, address)
  {
    LiveMayUse(tracker.host.environment, setting, a, log, tracker.host.actions, 5);
    hide Authorized, LastLookup, Offers, LiveThrough, ResolveProxy, ParseTarget;
  }

  method RunHttpPhases(setting: Setting, tracker: Tracker, backend: Backend, before: Findings, address: SocketAddr,
                       ghost a: Answers, ghost log: RunLog)
    returns (findings: Findings, ghost answers: Answers, ghost done: RunLog, ghost slots: nat)
    requires Walking(setting, tracker, backend, a, log, before, 5)
    requires a.dns.Ok? && a.tcp == Ok(address) && address in a.dns.value.permitted
    requires ParseTarget(Some(setting.target.url), setting.options).Ok?
    modifies backend`calls, tracker`probes, tracker`spans, tracker`responseBytesRead, tracker.host
    ensures Ended(setting, tracker, backend, answers, done, findings, false, slots)
  {
    hide Sound, CutOff, Authorized, LastLookup, PhaseOf, FirstPhases, FindingsAt, ExpectedFindings, ExpectedCalls,
         CallsThrough, TimelessProbes, StageRecords, LiveWalking, LiveEnded, ScriptWalking, ScriptEnded, ValidOptions,
         Offers, RequestsBegun, Statuses, ResolveProxy, ParseTarget, Chronicle, FailsForBudget, OutOfBudget, StageRan,
         TimedBeforeSlots, Extends, TlsRecorded;
    var options := setting.options;
    ghost var recorded := tracker.probes;
    if backend.kind.LiveNetwork? {
      LiveMayRequest(tracker, setting, a, log, address);
    }
    var started := Instant(tracker, options);
    var result, begun, refused, completed, granted :=
      backend.HttpStageOn(tracker, setting.target.url, setting.proxy, address, options);
    answers, done := a.(http := result), log.(http := begun, refused := refused, completed := completed);
    slots := if granted then tracker.maxProbes else |recorded|;
    FindingsPassedThrough(setting, a, before, 5);
    if backend.kind.LiveNetwork? {
      LiveHttp(tracker.host.environment, setting, a, answers, log, done, old(tracker.host.actions),
               tracker.responseBytesRead);
      TlsStaysRecorded(a, log, answers, done, recorded, tracker.probes);
    } else {
      ScriptStageRan(setting, a, answers, backend.kind.script, tracker, old(backend.calls), recorded, 5, granted,
                     HttpRequest, if backend.kind.script.http.HttpAnswers? then ResponseReceived else Outcome.Failed);
    }
    var ms := ElapsedMs(tracker, options, started);
    HttpPhaseRank(setting, answers);
    if result.Err? {
      var next := FailedPhase(Http, ms, result.error);
      findings := before.(phases := before.phases + [next]);
      FindingsFail(setting, a, answers, before, findings, next, 5);
    } else {
      var outcome := result.value;
      var http := PassedPhase(Http, ms, [ResponseStatuses(Statuses(outcome.hops))]);
      var redirects := RedirectsPhase(outcome);
      var assertions := SkippedPhase(Assertions, NoAssertionConfigured);
      findings := before.(phases := before.phases + [http] + [redirects] + [assertions], http := outcome.hops);
      FindingsComplete(setting, a, answers, before, findings, http, redirects, assertions);
    }
    HttpCall(setting, answers);
  }

  // ----- The whole walk -----

  const NOTHING_BEGUN: RunLog := RunLog([], [], [], [], [], [])

  const NOTHING_ANSWERED: Answers := Answers(Err(EXHAUSTED), Err(EXHAUSTED), Err(EXHAUSTED), Err(EXHAUSTED))

  ghost predicate Untouched(tracker: Tracker, backend: Backend, options: InspectionOptions)
    reads tracker, tracker.host, backend
  {
    && tracker.Valid() && tracker.probes == [] && tracker.spans == [] && tracker.responseBytesRead == 0
    && tracker.deadline == tracker.started + options.budgetMs * NANOS_PER_MILLI
    && tracker.maxProbes == options.maxProbes
    && tracker.host.actions == [] && tracker.host.refusals == [] && backend.calls == []
  }

  function FirstFindings(setting: Setting, proxyMs: nat): Findings {
    Findings([], None, [], [InputPhase(setting), ProxyPhase(setting).(durationMs := proxyMs)],
             [ResolverInternals, PacketPaths])
  }

  lemma WalkBegins(setting: Setting, tracker: Tracker, backend: Backend, proxyMs: nat)
    requires ValidOptions(setting.options) && Untouched(tracker, backend, setting.options)
    requires ResolveProxy(tracker.host.environment, setting.target.url, setting.options) == Ok(setting.proxy)
    ensures Walking(setting, tracker, backend, NOTHING_ANSWERED, NOTHING_BEGUN, FirstFindings(setting, proxyMs), 2)
  {
    FirstFindingsHold(setting, proxyMs);
    LiveBegins(setting, tracker, backend);
    if backend.kind.Scripted? {
      ScriptBegins(setting, tracker, backend);
    }
    hide FindingsAt, FirstFindings, ResolveProxy, ValidOptions, Sound, LiveWalking, ScriptWalking;
  }

  lemma LiveBegins(setting: Setting, tracker: Tracker, backend: Backend)
    requires Untouched(tracker, backend, setting.options)
    requires ResolveProxy(tracker.host.environment, setting.target.url, setting.options) == Ok(setting.proxy)
    ensures Sound(tracker, setting.options)
    ensures LiveWalking(tracker.host.environment, setting, NOTHING_ANSWERED, NOTHING_BEGUN, tracker.host.actions, 2)
  {
    hide ResolveProxy, ValidOptions, Chronicle, KindOf, Describes;
  }

  lemma ScriptBegins(setting: Setting, tracker: Tracker, backend: Backend)
    requires Untouched(tracker, backend, setting.options) && backend.kind.Scripted?
    ensures ScriptWalking(setting, NOTHING_ANSWERED, backend.kind.script, backend.calls, tracker.probes,
                          tracker.maxProbes, 2)
  {
    hide Chronicle;
  }

  lemma FirstFindingsHold(setting: Setting, proxyMs: nat)
    ensures FindingsAt(setting, NOTHING_ANSWERED, FirstFindings(setting, proxyMs), 2)
  {
    hide ObserveAddresses;
    assert TimelessPhases(FirstFindings(setting, proxyMs).phases) == FirstPhases(setting, NOTHING_ANSWERED, 2);
  }

  method Walk(setting: Setting, tracker: Tracker, backend: Backend, proxyMs: nat)
    returns (findings: Findings, ghost answers: Answers, ghost log: RunLog, ghost cutOff: bool, ghost slots: nat)
    requires ValidOptions(setting.options) && Untouched(tracker, backend, setting.options)
    requires ResolveProxy(tracker.host.environment, setting.target.url, setting.options) == Ok(setting.proxy)
    requires ParseTarget(Some(setting.target.url), setting.options).Ok?
    modifies backend`calls, tracker`probes, tracker`spans, tracker`responseBytesRead, tracker.host
    ensures Ended(setting, tracker, backend, answers, log, findings, cutOff, slots)
  {
    WalkBegins(setting, tracker, backend, proxyMs);
    hide Walking, Ended, Untouched, ParseTarget, ResolveProxy;
    cutOff := false;
    findings := FirstFindings(setting, proxyMs);
    var permitted, selected, passed;
    findings, permitted, answers, log, slots :=
      RunDns(setting, tracker, backend, findings, NOTHING_ANSWERED, NOTHING_BEGUN);
    if permitted.None? {
      return;
    }
    findings, selected, answers, log, slots :=
      RunTcp(setting, tracker, backend, findings, permitted.value, answers, log);
    if selected.None? {
      return;
    }
    findings, passed, answers, log, cutOff, slots :=
      RunTls(setting, tracker, backend, findings, selected.value, answers, log);
    if !passed {
      return;
    }
    cutOff := false;
    findings, answers, log, slots := RunHttpPhases(setting, tracker, backend, findings, selected.value, answers, log);
  }

  // ----- The sealed report -----

  /** What is known of the run behind a report: its answers, its network actions and its instants. */
  datatype Run = Run(
    environment: Environment,
    setting: Setting,
    answers: Answers,
    log: RunLog,
    calls: seq<Stage>,
    spans: seq<Span>,
    started: nat,
    ended: nat,
    cutOff: bool,
    slots: nat)

  /** Apart from clock readings and seal, the report is the one its answers decide, and its times fit its run. */
  ghost predicate Reports(run: Run, report: Report) {
    && ValidOptions(run.setting.options)
    && WithoutClock(report) == AssembleReport(run.setting, ExpectedFindings(run.setting, run.answers),
                                              TimelessProbes(report.probes), report.usage.responseBytesRead, 0, 0)
    && run.calls == ExpectedCalls(run.setting, run.answers)
    && ParseTarget(Some(run.setting.target.url), run.setting.options) == Ok(run.setting.target)
    && ResolveProxy(run.environment, run.setting.target.url, run.setting.options) == Ok(run.setting.proxy)
    && run.started <= run.ended && report.usage.elapsedMs == Millis(run.ended - run.started)
    && Chronicle(report.probes, run.spans, run.started, run.ended)
    && |report.probes| <= run.setting.options.maxProbes
  }

  function Deadline(run: Run): nat {
    run.started + run.setting.options.budgetMs * NANOS_PER_MILLI
  }

  /**
   * The run was live: its actions are authorized and their waits capped, and all were recorded but one that the
   * deadline cut off.
   */
  ghost predicate ReportsLiveRun(run: Run, report: Report) {
    var options, actions := run.setting.options, run.log.All();
    && Reports(run, report)
    && LiveRun(run.environment, run.setting, run.answers, run.log, report.usage.responseBytesRead, run.cutOff)
    && Authorized(run.environment, options, actions)
    && TimedInsideSlots(run.spans)
    && |actions| == |report.probes| + (if run.cutOff then 1 else 0)
    && |actions| <= options.maxProbes
    && Balanced(report.probes, actions[..|report.probes|], options)
    && Capped(actions, run.spans, run.started, Deadline(run))
    && (run.cutOff ==> actions[|report.probes|].TlsConnect? && actions[|report.probes|].connected)
    && (run.cutOff ==> IsUnfinished(actions[|report.probes|].dialogue))
    && (run.cutOff ==> WaitsBy(actions[|report.probes|], run.ended))
    && (run.cutOff ==> options.budgetMs <= report.usage.elapsedMs)
    && (!run.cutOff ==> TlsRecorded(run.answers, run.log, report.probes))
    && (FailsForBudget(run.setting, run.answers) ==>
          |report.probes| >= options.maxProbes || options.budgetMs <= report.usage.elapsedMs)
  }

  /** The run was scripted: the script and the slots decide all of it, and only a passed deadline withholds slots. */
  ghost predicate ReportsScript(run: Run, report: Report, script: Script) {
    var options := run.setting.options;
    && Reports(run, report)
    && AgreeThroughFailure(run.setting, run.answers, ScriptAnswers(run.setting, script, run.slots))
    && TimelessProbes(report.probes) == StageRecords(run.calls, run.slots, script)
    && report.usage.responseBytesRead == 0 && run.log == NOTHING_BEGUN && TimedBeforeSlots(run.spans)
    && run.slots <= options.maxProbes
    && (run.slots < options.maxProbes ==> options.budgetMs <= report.usage.elapsedMs)
  }

  /** Why an inspection is refused before anything is probed. */
  function Refusal(environment: Environment, raw: Option<Url>, options: InspectionOptions): Option<AppError> {
    var parsed := ParseTarget(raw, options);
    if ValidateOptions(options).Err? then Some(ValidateOptions(options).error)
    else if parsed.Err? then Some(parsed.error)
    else
      var proxy := ResolveProxy(environment, parsed.value.url, options);
      if proxy.Err? then Some(proxy.error) else None
  }

  predicate OptionsFit(options: InspectionOptions) {
    && 100 <= options.budgetMs <= 120_000 && 1 <= options.maxProbes <= 64 && 1 <= options.maxAddresses <= 16
    && options.maxRedirects <= 10 && options.maxBodyBytes <= 1_048_576
  }

  /** The error is that of an option out of its range, and of none before it. */
  predicate OptionsLack(options: InspectionOptions, error: AppError) {
    && !error.retryable
    && (error.code == InvalidBudget <==> !(100 <= options.budgetMs <= 120_000))
    && match error.code
       case InvalidBudget => true
       case InvalidProbeLimit => !(1 <= options.maxProbes <= 64)
       case InvalidAddressLimit => 1 <= options.maxProbes <= 64 && !(1 <= options.maxAddresses <= 16)
       case InvalidRedirectLimit =>
         1 <= options.maxProbes <= 64 && 1 <= options.maxAddresses <= 16 && options.maxRedirects > 10
       case InvalidBodyLimit =>
         && 1 <= options.maxProbes <= 64 && 1 <= options.maxAddresses <= 16 && options.maxRedirects <= 10
         && options.maxBodyBytes > 1_048_576
       case _ => false
  }

  lemma OptionsAreExact(options: InspectionOptions)
    ensures match ValidateOptions(options)
      case Ok(_) => OptionsFit(options)
      case Err(error) => !OptionsFit(options) && OptionsLack(options, error)
  {
  }

  /** An inspection is refused for the first thing wrong with its options, its target or its proxy, and only then. */
  lemma RefusalIsExact(environment: Environment, raw: Option<Url>, options: InspectionOptions)
    ensures match Refusal(environment, raw, options)
      case None =>
        OptionsFit(options) && raw.Some? && IsTarget(raw.value) && HasRoute(environment, options, raw.value)
      case Some(error) =>
        if !OptionsFit(options) then OptionsLack(options, error)
        else if raw.None? || !IsTarget(raw.value) then TargetLacks(raw, error)
        else ProxyIsRefused(environment, options, raw.value, error)
  {
    hide ValidateOptions, OptionsFit, OptionsLack, ParseTarget, ResolveProxy, GoesVia, Explains, ProxyIsRefused, Shows,
         IsWeb;
    OptionsAreExact(options);
    TargetsAreExact(raw, options);
    if raw.Some? {
      FragmentsAreIrrelevant(environment, raw.value, options);
      ProxySelectionIsExact(environment, raw.value, options);
    }
  }

  /** Everything a run leaves behind for its report. */
  ghost predicate Finished(run: Run, tracker: Tracker, findings: Findings)
    reads tracker, tracker.host
  {
    var options := run.setting.options;
    && ValidOptions(options)
    && TimelessFindings(findings) == ExpectedFindings(run.setting, run.answers)
    && run.calls == ExpectedCalls(run.setting, run.answers)
    && ParseTarget(Some(run.setting.target.url), options) == Ok(run.setting.target)
    && ResolveProxy(run.environment, run.setting.target.url, options) == Ok(run.setting.proxy)
    && tracker.Valid() && tracker.deadline == tracker.started + options.budgetMs * NANOS_PER_MILLI
    && tracker.maxProbes == options.maxProbes
    && run.spans == tracker.spans && run.started == tracker.started && run.ended == tracker.host.clock
  }

  lemma FinishedReports(run: Run, tracker: Tracker, findings: Findings, report: Report, elapsedMs: nat, unixMs: nat)
    requires Finished(run, tracker, findings) && elapsedMs == Millis(tracker.host.clock - tracker.started)
    requires report.(reportSha256 := None)
      == AssembleReport(run.setting, findings, tracker.probes, tracker.responseBytesRead, elapsedMs, unixMs)
    ensures Reports(run, report)
    ensures report.probes == tracker.probes && report.usage.responseBytesRead == tracker.responseBytesRead
    ensures tracker.deadline <= tracker.host.clock ==> run.setting.options.budgetMs <= report.usage.elapsedMs
  {
    WithoutClockAssembles(run.setting, findings, tracker.probes, tracker.responseBytesRead, elapsedMs, unixMs);
    hide TimelessFindings, TimelessProbes, ExpectedFindings, ExpectedCalls, ParseTarget, ResolveProxy, Chronicle,
         HypothesesFor, RuledOutFor, FirstFailed;
    if tracker.deadline <= tracker.host.clock {
      ExhaustionTakesTheBudget(run.setting.options, tracker.host.clock - tracker.started);
    }
  }

  lemma ExhaustionTakesTheBudget(options: InspectionOptions, elapsed: nat)
    requires ValidOptions(options) && options.budgetMs * NANOS_PER_MILLI <= elapsed
    ensures options.budgetMs <= Millis(elapsed)
  {
  }

  lemma LiveReported(run: Run, tracker: Tracker, report: Report)
    requires Reports(run, report) && tracker.started == run.started && tracker.spans == run.spans
    requires tracker.host.clock == run.ended
    requires report.probes == tracker.probes && report.usage.responseBytesRead == tracker.responseBytesRead
    requires tracker.deadline <= tracker.host.clock ==> run.setting.options.budgetMs <= report.usage.elapsedMs
    requires if run.cutOff then CutOff(tracker, run.setting.options)
             else Sound(tracker, run.setting.options) && TlsRecorded(run.answers, run.log, tracker.probes)
    requires FailsForBudget(run.setting, run.answers) ==> OutOfBudget(tracker)
    requires tracker.maxProbes == run.setting.options.maxProbes
    requires LiveEnded(run.environment, run.setting, run.answers, run.log, tracker.host.actions,
                       tracker.responseBytesRead, run.cutOff)
    ensures ReportsLiveRun(run, report) && run.log.All() == tracker.host.actions
  {
    hide Reports, LiveRun, Authorized, Chronicle, TimedInsideSlots, Describes, FailsForBudget, TlsRecorded, Capped,
         WaitsBy;
  }

  method FinalizeReport(setting: Setting, tracker: Tracker, findings: Findings, unixMs: nat,
                        digest: Report -> Option<string>)
    returns (report: Report)
    requires tracker.Valid()
    modifies tracker.host`clock
    ensures old(tracker.host.clock) <= tracker.host.clock && tracker.Valid()
    ensures old(Sound(tracker, setting.options)) ==> Sound(tracker, setting.options)
    ensures old(CutOff(tracker, setting.options)) ==> CutOff(tracker, setting.options)
    ensures old(OutOfBudget(tracker)) ==> OutOfBudget(tracker)
    ensures report == Seal(AssembleReport(setting, findings, tracker.probes, tracker.responseBytesRead,
                                          Millis(tracker.host.clock - tracker.started), unixMs), digest)
  {
    hide Sound, CutOff, Chronicle;
    var elapsedMs := ElapsedMs(tracker, setting.options, tracker.started);
    report := Seal(AssembleReport(setting, findings, tracker.probes, tracker.responseBytesRead, elapsedMs, unixMs),
                   digest);
  }

  /**
   * An inspection. It is refused before any call and any network action, or ends in a sealed report of its run.
   * `target` is None when the text is not an absolute URL.
   */
  method Inspect(host: Host, backend: Backend, target: Option<Url>, options: InspectionOptions, unixMs: nat,
                 digest: Report -> Option<string>)
    returns (r: Result<Report>, ghost run: Option<Run>)
    requires host.actions == [] && host.refusals == [] && backend.calls == []
    modifies host, backend`calls
    ensures match Refusal(host.environment, target, options)
      case Some(error) => r == Err(error) && run.None? && host.actions == [] && backend.calls == []
      case None => r.Ok? && run.Some?
    ensures r.Ok? ==>
      && run.value.environment == host.environment && run.value.setting.options == options
      && ParseTarget(target, options) == Ok(run.value.setting.target)
      && run.value.log.All() == host.actions && run.value.log.refused == host.refusals
      && run.value.calls == backend.calls
      && r.value.startedAtUnixMs == unixMs && r.value.reportSha256 == DigestReport(r.value, digest)
    ensures r.Ok? && backend.kind.LiveNetwork? ==> ReportsLiveRun(run.value, r.value)
    ensures r.Ok? && backend.kind.Scripted? ==> ReportsScript(run.value, r.value, backend.kind.script)
  {
    hide Sound, CutOff, FirstFindings, ParseTarget, ResolveProxy, ExpectedFindings, ExpectedCalls, LiveEnded,
         TimelessFindings, TimelessProbes, Chronicle, WithoutClock, ScriptAnswers, StageRecords, AgreeThroughFailure,
         ReportsLiveRun, Reports, FirstFailed, HypothesesFor, RuledOutFor, FailsForBudget, TlsRecorded,
         TimedBeforeSlots;
    run := None;
    var checked := ValidateOptions(options);
    if checked.Err? {
      return Err(checked.error), run;
    }
    var parsed := ParseTarget(target, options);
    if parsed.Err? {
      return Err(parsed.error), run;
    }
    ParsingIsIdempotent(target, options);
    var tracker := new Tracker(host, options);
    var proxyStarted := Instant(tracker, options);
    var proxy := ResolveProxy(host.environment, parsed.value.url, options);
    if proxy.Err? {
      return Err(proxy.error), run;
    }
    var proxyMs := ElapsedMs(tracker, options, proxyStarted);
    var setting := Setting(parsed.value, proxy.value, options);
    var findings, answers, log, cutOff, slots := Walk(setting, tracker, backend, proxyMs);
    var report := FinalizeReport(setting, tracker, findings, unixMs, digest);
    ghost var begun := if backend.kind.LiveNetwork? then log else NOTHING_BEGUN;
    run := Some(Run(host.environment, setting, answers, begun, backend.calls, tracker.spans, tracker.started,
                    host.clock,
                    cutOff, slots));
    FinishedReports(run.value, tracker, findings, report, Millis(host.clock - tracker.started), unixMs);
    if backend.kind.LiveNetwork? {
      LiveReported(run.value, tracker, report);
    }
    r := Ok(report);
  }
}
