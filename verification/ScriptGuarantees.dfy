/** Every script is diagnosed at its first failing observation, and nothing behind that point matters. */
module ScriptGuarantees {
  import opened Wrappers
  import opened Model
  import opened TargetPolicy
  import opened Host
  import opened Tracking
  import opened Live
  import opened Diagnosis
  import opened Backends
  import opened Engine
  import opened Inspection
  import opened Guarantees

  // ----- The simple specification -----

  /** The stages of an inspection in order; TLS is probed only for an https target without a proxy. */
  function StagesFor(setting: Setting): seq<Stage> {
    [DnsStage, TcpStage] + (if TlsApplies(setting) then [TlsStage] else []) + [HttpStage]
  }

  function PhaseOfStage(stage: Stage): PhaseName {
    match stage
    case DnsStage => Dns
    case TcpStage => Tcp
    case TlsStage => Tls
    case HttpStage => Http
  }

  /** How the observation of one stage fails; an empty permitted list is a failure of resolution. */
  function StageFailure(stage: Stage, script: Script): Option<AppError> {
    match stage
    case DnsStage =>
      if script.dns.Err? then Some(script.dns.error)
      else if script.dns.value.permitted == [] then Some(AppError(NonPublicAddressDenied, false))
      else None
    case TcpStage => script.tcp
    case TlsStage => script.tls
    case HttpStage => if script.http.HttpFails? then Some(script.http.error) else None
  }

  /** The first failure of a script: a failing observation, a missing slot, or at last a failed redirect. */
  function FirstScriptFailure(stages: seq<Stage>, slots: nat, script: Script): Option<(PhaseName, AppError)> {
    if stages == [] then
      if script.http.HttpAnswers? && script.http.failure.Some?
        then Some((Redirects, script.http.failure.value)) else None
    else if slots == 0 then Some((PhaseOfStage(stages[0]), EXHAUSTED))
    else if StageFailure(stages[0], script).Some? then
      Some((PhaseOfStage(stages[0]), StageFailure(stages[0], script).value))
    else FirstScriptFailure(stages[1..], slots - 1, script)
  }

  /** The stages called: all up to the first that fails or finds no slot. */
  function StagesCalled(stages: seq<Stage>, slots: nat, script: Script): (called: seq<Stage>)
    ensures called <= stages
  {
    if stages == [] then []
    else if slots == 0 || StageFailure(stages[0], script).Some? then [stages[0]]
    else [stages[0]] + StagesCalled(stages[1..], slots - 1, script)
  }

  // ----- The engine meets it -----

  /** One stage less. */
  lemma NextStage(stage: Stage, rest: seq<Stage>, slots: nat, script: Script)
    ensures FirstScriptFailure([stage] + rest, slots, script) ==
      if slots == 0 then Some((PhaseOfStage(stage), EXHAUSTED))
      else if StageFailure(stage, script).Some? then Some((PhaseOfStage(stage), StageFailure(stage, script).value))
      else FirstScriptFailure(rest, slots - 1, script)
    ensures StagesCalled([stage] + rest, slots, script) ==
      if slots == 0 || StageFailure(stage, script).Some? then [stage]
      else [stage] + StagesCalled(rest, slots - 1, script)
  {
    assert ([stage] + rest)[1..] == rest;
  }

  /** From HTTP on. */
  lemma HttpStageOnly(slots: nat, script: Script)
    ensures StagesCalled([HttpStage], slots, script) == [HttpStage]
    ensures FirstScriptFailure([HttpStage], slots, script) ==
      if slots == 0 then Some((Http, EXHAUSTED))
      else if script.http.HttpFails? then Some((Http, script.http.error))
      else if script.http.failure.Some? then Some((Redirects, script.http.failure.value))
      else None
  {
    NextStage(HttpStage, [], slots, script);
    assert [HttpStage] == [HttpStage] + [];
  }

  /** From TLS on, if it is probed. */
  lemma StagesAfterTcp(tls: bool, slots: nat, script: Script)
    ensures var after := (if tls then [TlsStage] else []) + [HttpStage];
      && StagesCalled(after, slots, script)
         == (if tls && (slots == 0 || script.tls.Some?) then [TlsStage] else after)
      && FirstScriptFailure(after, slots, script) ==
         if tls && slots == 0 then Some((Tls, EXHAUSTED))
         else if tls && script.tls.Some? then Some((Tls, script.tls.value))
         else FirstScriptFailure([HttpStage], if tls then slots - 1 else slots, script)
  {
    HttpStageOnly(if tls && slots > 0 then slots - 1 else slots, script);
    hide FirstScriptFailure, StagesCalled;
    if tls {
      NextStage(TlsStage, [HttpStage], slots, script);
    } else {
      assert [] + [HttpStage] == [HttpStage];
    }
  }

  /** The engine diagnoses a script as the specification does, and makes the calls it allows. */
  lemma ScriptFailsFirst(setting: Setting, script: Script, slots: nat)
    ensures FirstFailure(setting, ScriptAnswers(setting, script, slots))
      == FirstScriptFailure(StagesFor(setting), slots, script)
    ensures ExpectedCalls(setting, ScriptAnswers(setting, script, slots))
      == StagesCalled(StagesFor(setting), slots, script)
  {
    hide FirstScriptFailure, StagesCalled, ScriptedHops;
    var tls := TlsApplies(setting);
    var after := (if tls then [TlsStage] else []) + [HttpStage];
    assert StagesFor(setting) == [DnsStage] + ([TcpStage] + after);
    NextStage(DnsStage, [TcpStage] + after, slots, script);
    if slots > 0 {
      NextStage(TcpStage, after, slots - 1, script);
    }
    if slots > 1 {
      StagesAfterTcp(tls, slots - 2, script);
      HttpStageOnly(if tls && slots > 2 then slots - 3 else slots - 2, script);
    }
  }

  /** The report of a script, apart from clock readings and seal. */
  function ScriptedReport(setting: Setting, script: Script, slots: nat): Report {
    var answers := ScriptAnswers(setting, script, slots);
    AssembleReport(setting, ExpectedFindings(setting, answers),
                   StageRecords(StagesCalled(StagesFor(setting), slots, script), slots, script), 0, 0, 0)
  }

  /**
   * Whatever the clock does, a scripted run reports what its script and its slots decide. Slots are withheld only
   * when the whole time budget has passed.
   */
  lemma ScriptDecidesReport(run: Run, report: Report, script: Script)
    requires ReportsScript(run, report, script)
    ensures WithoutClock(report) == ScriptedReport(run.setting, script, run.slots)
    ensures run.calls == StagesCalled(StagesFor(run.setting), run.slots, script)
    ensures |report.probes| == Min(|run.calls|, run.slots)
    ensures run.slots == run.setting.options.maxProbes || run.setting.options.budgetMs <= report.usage.elapsedMs
  {
    var setting, answers := run.setting, ScriptAnswers(run.setting, script, run.slots);
    hide ExpectedFindings, ExpectedCalls, StageRecords, StagesCalled, ScriptAnswers, ParseTarget, ResolveProxy,
         Chronicle, WithoutClock, TimelessProbes, AgreeThroughFailure, FirstFailed, HypothesesFor, RuledOutFor;
    AgreementDecidesTheRun(setting, run.answers, answers);
    ScriptFailsFirst(setting, script, run.slots);
  }

  /** The earliest failing observation is the failed phase, with its error as the only hypothesis. */
  lemma EarliestFailureIsReported(run: Run, report: Report, script: Script)
    requires ReportsScript(run, report, script)
    ensures var failure := FirstScriptFailure(StagesFor(run.setting), run.slots, script);
      && |report.hypotheses| == 1
      && match failure
         case None => report.failedAt == None && report.hypotheses[0].code == RequestPathObserved
         case Some((name, error)) => report.failedAt == Some(name) && report.hypotheses[0].code == error.code
  {
    var setting, answers := run.setting, ScriptAnswers(run.setting, script, run.slots);
    hide ExpectedFindings, ExpectedCalls, StageRecords, StagesCalled, ScriptAnswers, FirstScriptFailure, ParseTarget,
         ResolveProxy, Chronicle, WithoutClock, TimelessProbes, AgreeThroughFailure, FirstFailed, HypothesesFor,
         RuledOutFor, FirstFailure, ExpectedPhases, ExcludedBefore;
    ReportShows(run, report);
    AgreementDecidesTheRun(setting, run.answers, answers);
    ScriptFailsFirst(setting, script, run.slots);
    ConclusionsAreGrounded(setting, run.answers);
  }

  /**
   * A scripted run's records add up within the elapsed time as a live run's do, but may overlap: by at most the lead
   * of their timing over their slot, and one millisecond for truncation.
   */
  lemma ScriptedTimeline(run: Run, report: Report, script: Script)
    requires ReportsScript(run, report, script)
    ensures Clamp(SumOfDurations(report.probes)) <= report.usage.elapsedMs
    ensures forall i, j | 0 <= i < j < |report.probes| ::
      Clamp(report.probes[i].startedMs + report.probes[i].durationMs)
      <= report.probes[j].startedMs + Lead(run.spans, i) + 1
  {
    hide WithoutClock, SumOfDurations, TimedBeforeSlots, ExpectedFindings, ScriptAnswers, StageRecords,
         AgreeThroughFailure;
    DurationsFitElapsed(report.probes, run.spans, run.started, run.ended);
    forall i, j | 0 <= i < j < |report.probes|
      ensures Clamp(report.probes[i].startedMs + report.probes[i].durationMs)
        <= report.probes[j].startedMs + Lead(run.spans, i) + 1
    {
      OverlapIsBoundedByLead(report.probes, run.spans, run.started, run.ended, i, j);
      assert |run.spans| == |report.probes|;
    }
  }

  /** By how many milliseconds a probe was timed ahead of its slot. */
  function Lead(spans: seq<Span>, i: nat): nat {
    if i < |spans| && spans[i].timed <= spans[i].slot then Millis(spans[i].slot - spans[i].timed) else 0
  }

  // ----- Only what is asked for matters -----

  predicate SameObservation(stage: Stage, a: Script, b: Script) {
    match stage
    case DnsStage => a.dns == b.dns
    case TcpStage => a.tcp == b.tcp
    case TlsStage => a.tls == b.tls
    case HttpStage => a.http == b.http
  }

  /** The scripts agree on every stage that is called and finds a slot. */
  predicate AgreeOnCalled(stages: seq<Stage>, slots: nat, a: Script, b: Script) {
    var called := StagesCalled(stages, slots, a);
    forall i | 0 <= i < |called| && i < slots :: SameObservation(called[i], a, b)
  }

  lemma {:induction false} AgreeingScriptsCallTheSame(stages: seq<Stage>, slots: nat, a: Script, b: Script)
    requires AgreeOnCalled(stages, slots, a, b)
    ensures StagesCalled(stages, slots, a) == StagesCalled(stages, slots, b)
  {
    if stages != [] && slots > 0 {
      var called := StagesCalled(stages, slots, a);
      assert SameObservation(called[0], a, b);
      if StageFailure(stages[0], a).None? {
        assert called[1..] == StagesCalled(stages[1..], slots - 1, a);
        AgreeingScriptsCallTheSame(stages[1..], slots - 1, a, b);
      }
    }
  }

  lemma AgreeingScriptsAnswerTheSame(setting: Setting, slots: nat, a: Script, b: Script)
    requires AgreeOnCalled(StagesFor(setting), slots, a, b)
    ensures AgreeThroughFailure(setting, ScriptAnswers(setting, a, slots), ScriptAnswers(setting, b, slots))
  {
    ScriptFailsFirst(setting, a, slots);
    hide StagesCalled, FirstScriptFailure, ScriptedHops;
    var called := ExpectedCalls(setting, ScriptAnswers(setting, a, slots));
    assert slots > 0 ==> SameObservation(called[0], a, b);
    assert slots > 1 && |called| > 1 ==> SameObservation(called[1], a, b);
    assert slots > 2 && |called| > 2 ==> SameObservation(called[2], a, b);
    assert slots > 3 && |called| > 3 ==> SameObservation(called[3], a, b);
  }

  /** Scripts that agree on all that is asked of them get the same report, apart from clock readings and seal. */
  lemma AgreeingScriptsReportTheSame(first: Run, a: Report, s: Script, second: Run, b: Report, t: Script)
    requires ReportsScript(first, a, s) && ReportsScript(second, b, t)
    requires first.setting == second.setting && first.slots == second.slots
    requires AgreeOnCalled(StagesFor(first.setting), first.slots, s, t)
    ensures WithoutClock(a) == WithoutClock(b) && first.calls == second.calls
  {
    hide ReportsScript, WithoutClock, ExpectedFindings, ScriptAnswers, StageRecords, AgreeThroughFailure;
    var setting, slots := first.setting, first.slots;
    ScriptDecidesReport(first, a, s);
    ScriptDecidesReport(second, b, t);
    AgreeingScriptsCallTheSame(StagesFor(setting), slots, s, t);
    AgreeingScriptsAnswerTheSame(setting, slots, s, t);
    AgreementDecidesTheRun(setting, ScriptAnswers(setting, s, slots), ScriptAnswers(setting, t, slots));
    AgreeingScriptsRecordTheSame(StagesFor(setting), slots, s, t);
  }

  lemma AgreeingScriptsRecordTheSame(stages: seq<Stage>, slots: nat, a: Script, b: Script)
    requires AgreeOnCalled(stages, slots, a, b)
    ensures StageRecords(StagesCalled(stages, slots, a), slots, a)
      == StageRecords(StagesCalled(stages, slots, b), slots, b)
  {
    AgreeingScriptsCallTheSame(stages, slots, a, b);
    var called := StagesCalled(stages, slots, a);
    hide StagesCalled;
    forall i | 0 <= i < |called| && i < slots ensures StageRecord(called[i], i, a) == StageRecord(called[i], i, b) {
      assert SameObservation(called[i], a, b);
    }
    assert forall i | 0 <= i < Min(|called|, slots) ::
      StageRecords(called, slots, a)[i] == StageRecords(called, slots, b)[i];
  }
}
