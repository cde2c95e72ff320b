/** The inspection itself: eight phases, stopped at the first failure, then a sealed report (src/engine.rs). */
module Engine {
  import opened AddressPolicy
  import opened Wrappers
  import opened Model
  import opened TargetPolicy
  import opened Host
  import opened Tracking
  import opened ActionLog
  import opened Live
  import opened RedirectChain
  import opened Diagnosis
  import opened Backends

  // ----- Growing the phase list -----

  /** The answers that decide the phases below a rank are the same. */
  predicate SameBelow(a: Answers, b: Answers, rank: nat) {
    && (rank > 2 ==> a.dns == b.dns)
    && (rank > 3 ==> a.tcp == b.tcp)
    && (rank > 4 ==> a.tls == b.tls)
    && (rank > 5 ==> a.http == b.http)
  }

  lemma PhasesGrow(setting: Setting, a: Answers, b: Answers, phases: seq<Phase>, next: Phase)
    requires |phases| < 8 && SameBelow(a, b, |phases|)
    requires TimelessPhases(phases) == FirstPhases(setting, a, |phases|)
    requires Timeless(next) == PhaseOf(setting, b, |phases|)
    ensures TimelessPhases(phases + [next]) == FirstPhases(setting, b, |phases| + 1)
  {
    var n := |phases|;
    forall i | 0 <= i < n + 1
      ensures TimelessPhases(phases + [next])[i] == FirstPhases(setting, b, n + 1)[i]
    {
      if i < n {
        assert TimelessPhases(phases)[i] == FirstPhases(setting, a, n)[i];
        assert PhaseOf(setting, a, i) == PhaseOf(setting, b, i);
      }
    }
  }

  // ----- What a live run did -----

  /** The network actions of each phase of a run, the clients it was refused, and the hops that it completed. */
  datatype RunLog = RunLog(
    dns: seq<Action>,
    tcp: seq<Action>,
    tls: seq<Action>,
    http: seq<Action>,
    refused: seq<ClientRefusal>,
    completed: seq<HttpHop>)
  {
    function All(): seq<Action> {
      dns + tcp + tls + http
    }
  }

  /** Each of the first `n` phases begins only what its answers account for; the others begin nothing. */
  ghost predicate LiveThrough(environment: Environment, setting: Setting, answers: Answers, log: RunLog, n: nat,
                              bytesRead: nat, cutOff: bool) {
    var options := setting.options;
    && (if n > 2 then ResolutionBegun(answers.dns, log.dns, setting.proxy, options) else log.dns == [])
    && (if n > 3 then
          && DnsPhase(answers.dns).status.Passed? && log.dns != []
          && ConnectionsBegun(answers.tcp, log.tcp, answers.dns.value.permitted, options)
        else log.tcp == [])
    && (if n > 4 && TlsApplies(setting) then
          && answers.tcp.Ok? && |log.tls| <= 1
          && (log.tls != [] ==> log.tls[0].TlsConnect? && log.tls[0].address == answers.tcp.value)
          && (log.tls != [] && answers.tls.Ok? ==> log.tls[0].dialogue.summary == Some(answers.tls.value))
          && (log.tls == [] ==> answers.tls == Err(EXHAUSTED))
          && (cutOff <==> log.tls != [] && answers.tls == Err(EXHAUSTED))
        else log.tls == [] && !cutOff)
    && (if n > 5 then
          && answers.tcp.Ok? && (TlsApplies(setting) ==> answers.tls.Ok?)
          && RequestsBegun(environment, answers.http, log.http, log.refused, log.completed, bytesRead,
                           setting.target.url, setting.proxy, answers.tcp.value, options)
        else log.http == [] && log.refused == [] && log.completed == [] && bytesRead == 0)
  }

  ghost predicate LiveRun(environment: Environment, setting: Setting, answers: Answers, log: RunLog, bytesRead: nat,
                          cutOff: bool) {
    LiveThrough(environment, setting, answers, log, Reached(setting, answers), bytesRead, cutOff)
  }

  /** A TLS probe that was not cut off is recorded, after those of DNS and TCP, with the outcome that its answer has. */
  predicate TlsRecorded(answers: Answers, log: RunLog, probes: seq<ProbeRecord>) {
    var place := |log.dns| + |log.tcp|;
    log.tls != [] ==> place < |probes| && TlsEndedWith(answers.tls, probes[place].outcome)
  }

  lemma TlsStaysRecorded(a: Answers, log: RunLog, b: Answers, done: RunLog, before: seq<ProbeRecord>,
                         after: seq<ProbeRecord>)
    requires TlsRecorded(a, log, before) && Extends(before, after)
    requires b == a.(http := b.http)
    requires done == log.(http := done.http, refused := done.refused, completed := done.completed)
    ensures TlsRecorded(b, done, after)
  {
  }

  // ----- What a script decides -----

  function ScriptAnswers(setting: Setting, script: Script, slots: nat): Answers {
    var dns := if slots < 1 then Err(EXHAUSTED) else script.dns;
    Answers(
      dns,
      if slots < 2 || dns.Err? || dns.value.permitted == [] then Err(EXHAUSTED)
      else ScriptedTcp(script.tcp, dns.value.permitted),
      if slots < 3 then Err(EXHAUSTED) else ScriptedTlsResult(script.tls),
      if slots < (if TlsApplies(setting) then 4 else 3) then Err(EXHAUSTED)
      else ScriptedHttp(script.http, setting.target.url))
  }

  function StageRecord(stage: Stage, index: nat, script: Script): ProbeRecord {
    match stage
    case DnsStage => ScriptedRecord(index + 1, DnsLookup, if script.dns.Ok? then Resolved else Outcome.Failed)
    case TcpStage => ScriptedRecord(index + 1, TcpConnect, if script.tcp.None? then Connected else Outcome.Failed)
    case TlsStage => ScriptedRecord(index + 1, TlsHandshake, if script.tls.None? then Validated else Outcome.Failed)
    case HttpStage =>
      ScriptedRecord(index + 1, HttpRequest, if script.http.HttpAnswers? then ResponseReceived else Outcome.Failed)
  }

  /** One record for each call that got a slot. */
  function StageRecords(calls: seq<Stage>, slots: nat, script: Script): (records: seq<ProbeRecord>)
    ensures |records| == Min(|calls|, slots)
  {
    seq(Min(|calls|, slots), i requires 0 <= i < Min(|calls|, slots) => StageRecord(calls[i], i, script))
  }

  /** The slots a scripted run was given: all of them, unless the deadline passed during the run. */
  ghost predicate SlotsGiven(tracker: Tracker, slots: nat)
    reads tracker, tracker.host
  {
    slots <= tracker.maxProbes && (slots < tracker.maxProbes ==> tracker.deadline <= tracker.host.clock)
  }

  lemma StageAppends(tracker: Tracker, before: seq<ProbeRecord>, calls: seq<Stage>, stage: Stage, granted: bool,
                     script: Script)
    requires TimelessProbes(before) == StageRecords(calls, tracker.maxProbes, script) && |calls| == |before|
    requires granted ==> |before| < tracker.maxProbes
    requires granted ==>
      TimelessProbes(tracker.probes) == TimelessProbes(before) + [StageRecord(stage, |before|, script)]
    requires !granted ==> tracker.probes == before
    ensures granted ==> TimelessProbes(tracker.probes) == StageRecords(calls + [stage], tracker.maxProbes, script)
    ensures !granted ==> TimelessProbes(tracker.probes) == StageRecords(calls + [stage], |before|, script)
  {
    assert forall i | 0 <= i < |before| ::
      StageRecords(calls, tracker.maxProbes, script)[i] == TimelessProbes(before)[i];
  }

  // ----- The state of a walk -----

  /** All phases below this rank have passed or did not apply. */
  predicate PassedThrough(setting: Setting, answers: Answers, rank: nat) {
    && (rank > 2 ==> DnsPhase(answers.dns).status.Passed?)
    && (rank > 3 ==> answers.tcp.Ok?)
    && (rank > 4 && TlsApplies(setting) ==> answers.tls.Ok?)
  }

  function CallsThrough(setting: Setting, rank: nat): seq<Stage> {
    (if rank > 2 then [DnsStage] else [])
    + (if rank > 3 then [TcpStage] else [])
    + (if rank > 4 && TlsApplies(setting) then [TlsStage] else [])
  }

  /** What has been collected while the run is still going. */
  ghost predicate FindingsAt(setting: Setting, answers: Answers, findings: Findings, rank: nat) {
    && rank <= 5 && PassedThrough(setting, answers, rank)
    && |findings.phases| == rank && TimelessPhases(findings.phases) == FirstPhases(setting, answers, rank)
    && findings.addresses == (if rank > 2 then ObserveAddresses(answers.dns.value.all, setting.options) else [])
    && findings.tls == (if rank > 4 && TlsApplies(setting) then Some(answers.tls.value) else None)
    && findings.http == []
    && findings.omissions == [ResolverInternals, PacketPaths]
         + (if rank > 4 && setting.target.url.scheme == Https && setting.proxy.summary.selected
            then [ProxyTlsNotSeparated]
            else [])
  }

  /** The answers so far are the script's, and every call so far was recorded. */
  ghost predicate ScriptWalking(setting: Setting, answers: Answers, script: Script, calls: seq<Stage>,
                                probes: seq<ProbeRecord>, maxProbes: nat, rank: nat) {
    && (rank > 2 ==> answers.dns == script.dns)
    && (rank > 3 ==> DnsPhase(answers.dns).status.Passed?)
    && (rank > 3 ==> answers.tcp == ScriptedTcp(script.tcp, answers.dns.value.permitted))
    && (rank > 4 && TlsApplies(setting) ==> answers.tls == ScriptedTlsResult(script.tls))
    && calls == CallsThrough(setting, rank) && |calls| == |probes|
    && TimelessProbes(probes) == StageRecords(calls, maxProbes, script)
  }

  /** The run was answered as the script and its slots decide, and recorded every call that got a slot. */
  ghost predicate ScriptEnded(setting: Setting, answers: Answers, script: Script, calls: seq<Stage>,
                              probes: seq<ProbeRecord>, slots: nat) {
    && AgreeThroughFailure(setting, answers, ScriptAnswers(setting, script, slots))
    && TimelessProbes(probes) == StageRecords(calls, slots, script)
  }

  ghost predicate LiveWalking(environment: Environment, setting: Setting, answers: Answers, log: RunLog,
                              actions: seq<Action>, rank: nat) {
    && actions == log.All() && LiveThrough(environment, setting, answers, log, rank, 0, false)
    && PassedThrough(setting, answers, rank)
    && Authorized(environment, setting.options, actions)
    && ResolveProxy(environment, setting.target.url, setting.options) == Ok(setting.proxy)
    && (rank > 2 ==> log.dns != [] && LastLookup(actions) == Some(log.dns[0]))
  }

  ghost predicate LiveEnded(environment: Environment, setting: Setting, answers: Answers, log: RunLog,
                            actions: seq<Action>, bytesRead: nat, cutOff: bool) {
    && actions == log.All() && LiveRun(environment, setting, answers, log, bytesRead, cutOff)
    && Authorized(environment, setting.options, actions)
  }

  /** The run has passed its first `rank` phases and goes on. */
  ghost predicate Walking(setting: Setting, tracker: Tracker, backend: Backend, answers: Answers, log: RunLog,
                          findings: Findings, rank: nat)
    reads tracker, tracker.host, backend
  {
    var host, options := tracker.host, setting.options;
    && tracker.Valid() && tracker.responseBytesRead == 0 && ValidOptions(options) && host.refusals == []
    && FindingsAt(setting, answers, findings, rank)
    && backend.calls == CallsThrough(setting, rank)
    && match backend.kind
       case LiveNetwork =>
         && Sound(tracker, options) && TlsRecorded(answers, log, tracker.probes)
         && LiveWalking(host.environment, setting, answers, log, host.actions, rank)
       case Scripted(script) =>
         && host.actions == [] && TimedBeforeSlots(tracker.spans)
         && ScriptWalking(setting, answers, script, backend.calls, tracker.probes, tracker.maxProbes, rank)
  }

  /** The run is over, with these findings. */
  ghost predicate Ended(setting: Setting, tracker: Tracker, backend: Backend, answers: Answers, log: RunLog,
                        findings: Findings, cutOff: bool, slots: nat)
    reads tracker, tracker.host, backend
  {
    var host, options := tracker.host, setting.options;
    && tracker.Valid()
    && TimelessFindings(findings) == ExpectedFindings(setting, answers)
    && backend.calls == ExpectedCalls(setting, answers)
    && match backend.kind
       case LiveNetwork =>
         && (if cutOff then CutOff(tracker, options)
             else Sound(tracker, options) && TlsRecorded(answers, log, tracker.probes))
         && (FailsForBudget(setting, answers) ==> OutOfBudget(tracker)) && host.refusals == log.refused
         && LiveEnded(host.environment, setting, answers, log, host.actions, tracker.responseBytesRead, cutOff)
       case Scripted(script) =>
         && host.actions == [] && host.refusals == [] && tracker.responseBytesRead == 0 && SlotsGiven(tracker, slots)
         && TimedBeforeSlots(tracker.spans)
         && ScriptEnded(setting, answers, script, backend.calls, tracker.probes, slots)
  }

  // ----- One phase more: the findings -----

  /** The next phase passed. */
  lemma FindingsPass(setting: Setting, a: Answers, b: Answers, before: Findings, after: Findings, next: Phase,
                     rank: nat)
    requires rank < 5 && FindingsAt(setting, a, before, rank) && SameBelow(a, b, rank)
    requires Timeless(next) == PhaseOf(setting, b, rank) && PassedThrough(setting, b, rank + 1)
    requires after == Findings(
      if rank == 2 then ObserveAddresses(b.dns.value.all, setting.options) else before.addresses,
      if rank == 4 && TlsApplies(setting) then Some(b.tls.value) else before.tls,
      before.http,
      before.phases + [next],
      before.omissions + if rank == 4 && setting.target.url.scheme == Https && setting.proxy.summary.selected
                         then [ProxyTlsNotSeparated] else [])
    ensures FindingsAt(setting, b, after, rank + 1)
  {
    hide PhaseOf, FirstPhases, TimelessPhases, ObserveAddresses, ClassifyIp;
    PhasesGrow(setting, a, b, before.phases, next);
  }

  /** The next phase failed. */
  lemma FindingsFail(setting: Setting, a: Answers, b: Answers, before: Findings, after: Findings, next: Phase,
                     rank: nat)
    requires 2 <= rank <= 5 && FindingsAt(setting, a, before, rank) && SameBelow(a, b, rank)
    requires Timeless(next) == PhaseOf(setting, b, rank) && next.status.Failed?
    requires after == Findings(
      if rank == 2 && b.dns.Ok? then ObserveAddresses(b.dns.value.all, setting.options) else before.addresses,
      before.tls, before.http, before.phases + [next], before.omissions)
    ensures Reached(setting, b) == rank + 1
    ensures TimelessFindings(after) == ExpectedFindings(setting, b)
    ensures PassedThrough(setting, b, rank)
    ensures FailsForBudget(setting, b) <==> next.error == Some(EXHAUSTED)
  {
    FailedRank(setting, b, rank);
    hide PhaseOf, FirstPhases, TimelessPhases, ObserveAddresses, ClassifyIp, Reached, FailsForBudget;
    PhasesGrow(setting, a, b, before.phases, next);
  }

  lemma FailedRank(setting: Setting, b: Answers, rank: nat)
    requires 2 <= rank <= 5 && PassedThrough(setting, b, rank) && PhaseOf(setting, b, rank).status.Failed?
    ensures Reached(setting, b) == rank + 1
    ensures FailsForBudget(setting, b) <==> PhaseOf(setting, b, rank).error == Some(EXHAUSTED)
  {
  }

  /** The call of the failed stage is the last one made. */
  lemma FailedCall(setting: Setting, answers: Answers, rank: nat)
    requires 2 <= rank <= 5 && Reached(setting, answers) == rank + 1 && (rank == 4 ==> TlsApplies(setting))
    ensures ExpectedCalls(setting, answers) == CallsThrough(setting, rank) + [StageOf(rank)]
  {
  }

  function StageOf(rank: nat): Stage {
    if rank <= 2 then DnsStage else if rank == 3 then TcpStage else if rank == 4 then TlsStage else HttpStage
  }

  lemma PassedCall(setting: Setting, rank: nat)
    requires 2 <= rank <= 4
    ensures CallsThrough(setting, rank + 1)
      == CallsThrough(setting, rank) + if rank == 4 && !TlsApplies(setting) then [] else [StageOf(rank)]
  {
  }

  // ----- One phase more: a script -----

  /** What a stage of the script answers at a rank. */
  predicate ScriptedAnswer(setting: Setting, answers: Answers, script: Script, rank: nat, granted: bool) {
    && (rank == 2 ==> answers.dns == if granted then script.dns else Err(EXHAUSTED))
    && (rank == 3 ==> DnsPhase(answers.dns).status.Passed?)
    && (rank == 3 ==>
          answers.tcp == if granted then ScriptedTcp(script.tcp, answers.dns.value.permitted) else Err(EXHAUSTED))
    && (rank == 4 ==> answers.tls == if granted then ScriptedTlsResult(script.tls) else Err(EXHAUSTED))
    && (rank == 5 ==> answers.http == if granted then ScriptedHttp(script.http, setting.target.url) else Err(EXHAUSTED))
  }

  lemma ScriptStage(setting: Setting, a: Answers, b: Answers, script: Script, tracker: Tracker, calls: seq<Stage>,
                    recorded: seq<ProbeRecord>, rank: nat, granted: bool)
    requires 2 <= rank <= 5 && (rank == 4 ==> TlsApplies(setting))
    requires ScriptWalking(setting, a, script, calls, recorded, tracker.maxProbes, rank)
    requires PassedThrough(setting, a, rank) && SameBelow(a, b, rank)
    requires ScriptedAnswer(setting, b, script, rank, granted)
    requires granted ==> |recorded| < tracker.maxProbes
    requires granted ==>
      TimelessProbes(tracker.probes) == TimelessProbes(recorded) + [StageRecord(StageOf(rank), |recorded|, script)]
    requires !granted ==> tracker.probes == recorded && |recorded| <= tracker.maxProbes
    ensures rank < 5 && granted
      ==> ScriptWalking(setting, b, script, calls + [StageOf(rank)], tracker.probes, tracker.maxProbes, rank + 1)
    ensures rank == 5 || PhaseOf(setting, b, rank).status.Failed? ==>
      var slots := if granted then tracker.maxProbes else |recorded|;
      ScriptEnded(setting, b, script, calls + [StageOf(rank)], tracker.probes, slots)
    ensures rank < 5 && !granted ==> PhaseOf(setting, b, rank).status.Failed?
  {
    StageAppends(tracker, recorded, calls, StageOf(rank), granted, script);
    hide TimelessProbes, StageRecords;
    if rank < 5 {
      PassedCall(setting, rank);
    }
    if rank == 5 || PhaseOf(setting, b, rank).status.Failed? {
      ScriptAgrees(setting, b, script, rank, if granted then tracker.maxProbes else |recorded|, granted);
    }
  }

  /** The same for a stage as it ran, with the slots it was given. */
  lemma ScriptStageRan(setting: Setting, a: Answers, b: Answers, script: Script, tracker: Tracker, calls: seq<Stage>,
                       recorded: seq<ProbeRecord>, rank: nat, granted: bool, kind: ProbeKind, outcome: Outcome)
    requires 2 <= rank <= 5 && (rank == 4 ==> TlsApplies(setting))
    requires ScriptWalking(setting, a, script, calls, recorded, tracker.maxProbes, rank)
    requires PassedThrough(setting, a, rank) && SameBelow(a, b, rank)
    requires ScriptedAnswer(setting, b, script, rank, granted)
    requires |recorded| <= tracker.maxProbes && StageRan(tracker, recorded, granted, kind, outcome)
    requires StageRecord(StageOf(rank), |recorded|, script) == ScriptedRecord(|recorded| + 1, kind, outcome)
    ensures var slots := if granted then tracker.maxProbes else |recorded|;
      && tracker.Valid() && SlotsGiven(tracker, slots)
      && (rank < 5 && granted ==>
            ScriptWalking(setting, b, script, calls + [StageOf(rank)], tracker.probes, tracker.maxProbes, rank + 1))
      && (rank == 5 || PhaseOf(setting, b, rank).status.Failed? ==>
            ScriptEnded(setting, b, script, calls + [StageOf(rank)], tracker.probes, slots))
      && (rank < 5 && !granted ==> PhaseOf(setting, b, rank).status.Failed?)
  {
    hide ScriptWalking, ScriptEnded, PassedThrough, SameBelow, ScriptedAnswer, PhaseOf, TimelessProbes, StageRecord,
         Chronicle;
    ScriptStage(setting, a, b, script, tracker, calls, recorded, rank, granted);
  }

  /** What a script decides agrees with what a run was answered, once the run has ended at a rank. */
  lemma ScriptAgrees(setting: Setting, answers: Answers, script: Script, rank: nat, slots: nat, granted: bool)
    requires 2 <= rank <= 5 && (rank == 4 ==> TlsApplies(setting))
    requires PassedThrough(setting, answers, rank) && ScriptedAnswer(setting, answers, script, rank, granted)
    requires rank > 2 ==> answers.dns == script.dns
    requires rank > 3 ==> answers.tcp == ScriptedTcp(script.tcp, answers.dns.value.permitted)
    requires rank > 4 && TlsApplies(setting) ==> answers.tls == ScriptedTlsResult(script.tls)
    requires if granted then slots > |CallsThrough(setting, rank)| else slots == |CallsThrough(setting, rank)|
    requires rank < 5 ==> PhaseOf(setting, answers, rank).status.Failed?
    ensures AgreeThroughFailure(setting, answers, ScriptAnswers(setting, script, slots))
  {
  }

  // ----- One phase more: the live network -----

  lemma LiveDns(environment: Environment, setting: Setting, a: Answers, b: Answers, log: RunLog, done: RunLog,
                actions: seq<Action>)
    requires LiveWalking(environment, setting, a, log, actions, 2)
    requires b == a.(dns := b.dns) && done == log.(dns := done.dns)
    requires ResolutionBegun(b.dns, done.dns, setting.proxy, setting.options)
    requires Authorized(environment, setting.options, actions + done.dns)
    requires done.dns != [] ==> LastLookup(actions + done.dns) == Some(done.dns[0])
    ensures DnsPhase(b.dns).status.Passed? ==> LiveWalking(environment, setting, b, done, actions + done.dns, 3)
    ensures DnsPhase(b.dns).status.Failed? ==> LiveEnded(environment, setting, b, done, actions + done.dns, 0, false)
    ensures done.tls == [] && done.refused == []
  {
    hide Authorized, LastLookup, IsResolution, Attempts;
    assert done.All() == actions + done.dns;
  }

  lemma LiveTcp(environment: Environment, setting: Setting, a: Answers, b: Answers, log: RunLog, done: RunLog,
                actions: seq<Action>)
    requires LiveWalking(environment, setting, a, log, actions, 3)
    requires b == a.(tcp := b.tcp) && done == log.(tcp := done.tcp)
    requires ConnectionsBegun(b.tcp, done.tcp, b.dns.value.permitted, setting.options)
    requires Authorized(environment, setting.options, actions + done.tcp)
    ensures b.tcp.Ok? ==> LiveWalking(environment, setting, b, done, actions + done.tcp, 4)
    ensures b.tcp.Ok? ==> b.tcp.value in b.dns.value.permitted
    ensures b.tcp.Err? ==> LiveEnded(environment, setting, b, done, actions + done.tcp, 0, false)
    ensures done.tls == [] && done.refused == []
  {
    hide Authorized, LastLookup, IsResolution;
    assert done.All() == actions + done.tcp;
    NonLookupsKeepLatest(actions, done.tcp);
  }

  lemma LiveTls(environment: Environment, setting: Setting, a: Answers, b: Answers, log: RunLog, done: RunLog,
                actions: seq<Action>, cutOff: bool)
    requires LiveWalking(environment, setting, a, log, actions, 4) && TlsApplies(setting)
    requires b == a.(tls := b.tls) && done == log.(tls := done.tls)
    requires |done.tls| <= 1 && (done.tls != [] ==> done.tls[0].TlsConnect? && done.tls[0].address == b.tcp.value)
    requires done.tls != [] && b.tls.Ok? ==> done.tls[0].dialogue.summary == Some(b.tls.value)
    requires done.tls == [] ==> b.tls == Err(EXHAUSTED)
    requires cutOff <==> done.tls != [] && b.tls == Err(EXHAUSTED)
    requires Authorized(environment, setting.options, actions + done.tls)
    ensures b.tls.Ok? ==> LiveWalking(environment, setting, b, done, actions + done.tls, 5)
    ensures b.tls.Err? ==> LiveEnded(environment, setting, b, done, actions + done.tls, 0, cutOff)
    ensures |actions| == |done.dns| + |done.tcp| && done.refused == []
  {
    hide Authorized, LastLookup, IsResolution, Attempts, ConnectionsBegun;
    assert done.All() == actions + done.tls;
    NonLookupsKeepLatest(actions, done.tls);
  }

  lemma LiveHttp(environment: Environment, setting: Setting, a: Answers, b: Answers, log: RunLog, done: RunLog,
                 actions: seq<Action>, bytesRead: nat)
    requires LiveWalking(environment, setting, a, log, actions, 5)
    requires b == a.(http := b.http)
    requires done == log.(http := done.http, refused := done.refused, completed := done.completed)
    requires b.tcp.Ok?
    requires RequestsBegun(environment, b.http, done.http, done.refused, done.completed, bytesRead, setting.target.url,
                           setting.proxy, b.tcp.value, setting.options)
    requires Authorized(environment, setting.options, actions + done.http)
    ensures LiveEnded(environment, setting, b, done, actions + done.http, bytesRead, false)
  {
    hide Authorized, LastLookup, IsResolution, Attempts, ConnectionsBegun, RequestsBegun;
    assert done.All() == actions + done.http;
  }

  /** A live walk past its resolution may use every permitted address, and request the target of any of them. */
  lemma LiveMayUse(environment: Environment, setting: Setting, a: Answers, log: RunLog, actions: seq<Action>, rank: nat)
    requires LiveWalking(environment, setting, a, log, actions, rank) && rank > 2
    ensures Authorized(environment, setting.options, actions)
    ensures forall address | address in a.dns.value.permitted :: Offers(LastLookup(actions), address, setting.options)
    ensures LastLookup(actions).Some? && LastLookup(actions).value.Lookup?
    ensures LastLookup(actions).value.host == setting.proxy.connectHost
    ensures LastLookup(actions).value.port == setting.proxy.connectPort
  {
    hide Authorized, LastLookup, IsIpPermitted;
    forall address | address in a.dns.value.permitted
      ensures Offers(LastLookup(actions), address, setting.options)
    {
      var i :| 0 <= i < |a.dns.value.permitted| && a.dns.value.permitted[i] == address;
      PermittedComesFromAnswers(a.dns.value, log.dns[0].answers, setting.options, i);
    }
  }

  // ----- The phases, one at a time -----

  /** Reading the clock disturbs nothing. */
  method ElapsedMs(tracker: Tracker, options: InspectionOptions, started: nat) returns (ms: nat)
    requires started <= tracker.host.clock
    modifies tracker.host`clock
    ensures old(tracker.host.clock) <= tracker.host.clock && ms == Millis(tracker.host.clock - started)
    ensures old(tracker.Valid()) ==> tracker.Valid()
    ensures old(Sound(tracker, options)) ==> Sound(tracker, options)
    ensures old(CutOff(tracker, options)) ==> CutOff(tracker, options)
    ensures old(OutOfBudget(tracker)) ==> OutOfBudget(tracker)
  {
    var now := tracker.host.Now();
    ms := Millis(now - started);
  }

  method RunDns(setting: Setting, tracker: Tracker, backend: Backend, before: Findings, ghost a: Answers,
                ghost log: RunLog)
    returns (findings: Findings, permitted: Option<seq<SocketAddr>>,
             ghost answers: Answers, ghost done: RunLog, ghost slots: nat)
    requires Walking(setting, tracker, backend, a, log, before, 2)
    modifies backend`calls, tracker`probes, tracker`spans, tracker.host`clock, tracker.host`actions
    ensures permitted.Some? ==> Walking(setting, tracker, backend, answers, done, findings, 3)
    ensures permitted.Some? ==> answers.dns.Ok? && permitted.value == answers.dns.value.permitted != []
    ensures permitted.None? ==> Ended(setting, tracker, backend, answers, done, findings, false, slots)
  {
    hide Sound, CutOff, Authorized, LastLookup, PhaseOf, FirstPhases, FindingsAt, IsResolution, ObserveAddresses,
         ExpectedFindings, ExpectedCalls, CallsThrough, TimelessProbes, StageRecords, LiveWalking, LiveEnded,
         ScriptWalking, ScriptEnded, ResolutionBegun, ValidOptions, Chronicle, FailsForBudget, OutOfBudget,
         TimedBeforeSlots, StageRan;
    var options := setting.options;
    ghost var recorded := tracker.probes;
    LiveIsAuthorized(tracker, backend, setting, a, log, 2);
    var started := Instant(tracker, options);
    var resolution, begun, granted := backend.ResolveStage(tracker, setting.proxy, options);
    answers, done := a.(dns := resolution), log.(dns := begun);
    slots := if granted then tracker.maxProbes else |recorded|;
    if backend.kind.LiveNetwork? {
      LiveDns(tracker.host.environment, setting, a, answers, log, done, old(tracker.host.actions));
    } else {
      ScriptStageRan(setting, a, answers, backend.kind.script, tracker, old(backend.calls), recorded, 2, granted,
                     DnsLookup, if backend.kind.script.dns.Ok? then Resolved else Outcome.Failed);
    }
    var ms := ElapsedMs(tracker, options, started);
    DnsPhaseRank(setting, answers);
    PassedCall(setting, 2);
    var next;
    if resolution.Err? {
      next := FailedPhase(Dns, ms, resolution.error);
      findings, permitted := before.(phases := before.phases + [next]), None;
    } else if resolution.value.permitted == [] {
      next := FailedPhase(Dns, ms, AppError(NonPublicAddressDenied, false));
      findings := before.(addresses := ObserveAddresses(resolution.value.all, options),
                         phases := before.phases + [next]);
      permitted := None;
    } else {
      next := PassedPhase(Dns, ms, [ResolvedAddressCount(|resolution.value.all|),
                                    PermittedAddressCount(|resolution.value.permitted|)]);
      findings := before.(addresses := ObserveAddresses(resolution.value.all, options),
                         phases := before.phases + [next]);
      permitted := Some(resolution.value.permitted);
    }
    if permitted.Some? {
      FindingsPass(setting, a, answers, before, findings, next, 2);
    } else {
      FindingsFail(setting, a, answers, before, findings, next, 2);
      FailedCall(setting, answers, 2);
    }
  }

  lemma LiveIsAuthorized(tracker: Tracker, backend: Backend, setting: Setting, a: Answers, log: RunLog, rank: nat)
    ensures LiveWalking(tracker.host.environment, setting, a, log, tracker.host.actions, rank)
      ==> Authorized(tracker.host.environment, setting.options, tracker.host.actions)
  {
  }

  lemma DnsPhaseRank(setting: Setting, answers: Answers)
    ensures PhaseOf(setting, answers, 2) == DnsPhase(answers.dns)
  {
  }

  method RunTcp(setting: Setting, tracker: Tracker, backend: Backend, before: Findings, permitted: seq<SocketAddr>,
                ghost a: Answers, ghost log: RunLog)
    returns (findings: Findings, selected: Option<SocketAddr>, ghost answers: Answers, ghost done: RunLog,
             ghost slots: nat)
    requires Walking(setting, tracker, backend, a, log, before, 3)
    requires a.dns.Ok? && permitted == a.dns.value.permitted != []
    modifies backend`calls, tracker`probes, tracker`spans, tracker.host`clock, tracker.host`actions
    ensures selected.Some? ==> Walking(setting, tracker, backend, answers, done, findings, 4)
    ensures selected.Some? ==> answers.tcp == Ok(selected.value) && answers.dns == a.dns && selected.value in permitted
    ensures selected.None? ==> Ended(setting, tracker, backend, answers, done, findings, false, slots)
  {
    hide Sound, CutOff, Authorized, LastLookup, PhaseOf, FirstPhases, FindingsAt, ExpectedFindings, ExpectedCalls,
         CallsThrough, TimelessProbes, StageRecords, LiveWalking, LiveEnded, ScriptWalking, ScriptEnded,
         ConnectionsBegun, ValidOptions, Offers, Chronicle, IsIpPermitted, FailsForBudget, OutOfBudget,
         TimedBeforeSlots, StageRan;
    var options := setting.options;
    ghost var recorded := tracker.probes;
    PositiveBudget(options);
    if backend.kind.LiveNetwork? {
      LiveMayUse(tracker.host.environment, setting, a, log, tracker.host.actions, 3);
    }
    var started := Instant(tracker, options);
    var connected, begun, granted := backend.ConnectStage(tracker, permitted, options);
    answers, done := a.(tcp := connected), log.(tcp := begun);
    slots := if granted then tracker.maxProbes else |recorded|;
    FindingsPassedThrough(setting, a, before, 3);
    if backend.kind.LiveNetwork? {
      assert permitted[0] in permitted;
      LiveTcp(tracker.host.environment, setting, a, answers, log, done, old(tracker.host.actions));
    } else {
      ScriptStageRan(setting, a, answers, backend.kind.script, tracker, old(backend.calls), recorded, 3, granted,
                     TcpConnect, if backend.kind.script.tcp.None? then Connected else Outcome.Failed);
    }
    var ms := ElapsedMs(tracker, options, started);
    TcpPhaseRank(setting, answers);
    PassedCall(setting, 3);
    var next;
    if connected.Err? {
      next := FailedPhase(Tcp, ms, connected.error);
      findings, selected := before.(phases := before.phases + [next]), None;
      FindingsFail(setting, a, answers, before, findings, next, 3);
      FailedCall(setting, answers, 3);
    } else {
      next := PassedPhase(Tcp, ms, [SelectedAddress(AddressLabel(connected.value, options.showAddresses))]);
      findings, selected := before.(phases := before.phases + [next]), Some(connected.value);
      FindingsPass(setting, a, answers, before, findings, next, 3);
    }
  }

  method RunTls(setting: Setting, tracker: Tracker, backend: Backend, before: Findings, address: SocketAddr,
                ghost a: Answers, ghost log: RunLog)
    returns (findings: Findings, passed: bool, ghost answers: Answers, ghost done: RunLog, ghost cutOff: bool,
             ghost slots: nat)
    requires Walking(setting, tracker, backend, a, log, before, 4)
    requires a.dns.Ok? && a.tcp == Ok(address) && address in a.dns.value.permitted
    modifies backend`calls, tracker`probes, tracker`spans, tracker.host`clock, tracker.host`actions
    ensures passed ==> Walking(setting, tracker, backend, answers, done, findings, 5)
    ensures passed ==> answers.dns == a.dns && answers.tcp == a.tcp
    ensures !passed ==> Ended(setting, tracker, backend, answers, done, findings, cutOff, slots)
  {
    hide Sound, CutOff, Authorized, LastLookup, PhaseOf, FirstPhases, FindingsAt, ExpectedFindings, ExpectedCalls,
         CallsThrough, TimelessProbes, StageRecords, LiveWalking, LiveEnded, ScriptWalking, ScriptEnded, ValidOptions,
         Offers;
    var options := setting.options;
    answers, done, cutOff, slots := a, log, false, 0;
    TlsPhaseRank(setting, answers);
    PassedCall(setting, 4);
    FindingsPassedThrough(setting, a, before, 4);
    if setting.target.url.scheme != Https {
      var next := SkippedPhase(Tls, PlaintextTarget);
      findings, passed := before.(phases := before.phases + [next]), true;
      SkippingTls(tracker, backend, setting, a, log);
      FindingsPass(setting, a, answers, before, findings, next, 4);
      return;
    }
    if setting.proxy.summary.selected {
      var next := NotObservedPhase(Tls, TlsInsideProxy);
      findings := before.(phases := before.phases + [next], omissions := before.omissions + [ProxyTlsNotSeparated]);
      passed := true;
      SkippingTls(tracker, backend, setting, a, log);
      FindingsPass(setting, a, answers, before, findings, next, 4);
      return;
    }
    findings, passed, answers, done, cutOff, slots := ProbeTlsStage(setting, tracker, backend, before, address, a, log);
  }

  method ProbeTlsStage(setting: Setting, tracker: Tracker, backend: Backend, before: Findings, address: SocketAddr,
                       ghost a: Answers, ghost log: RunLog)
    returns (findings: Findings, passed: bool, ghost answers: Answers, ghost done: RunLog, ghost cutOff: bool,
             ghost slots: nat)
    requires Walking(setting, tracker, backend, a, log, before, 4) && TlsApplies(setting)
    requires a.dns.Ok? && a.tcp == Ok(address) && address in a.dns.value.permitted
    modifies backend`calls, tracker`probes, tracker`spans, tracker.host`clock, tracker.host`actions
    ensures passed ==> Walking(setting, tracker, backend, answers, done, findings, 5)
    ensures passed ==> answers.dns == a.dns && answers.tcp == a.tcp
    ensures !passed ==> Ended(setting, tracker, backend, answers, done, findings, cutOff, slots)
  {
    hide Sound, CutOff, Authorized, LastLookup, PhaseOf, FirstPhases, FindingsAt, ExpectedFindings, ExpectedCalls,
         CallsThrough, TimelessProbes, StageRecords, LiveWalking, LiveEnded, ScriptWalking, ScriptEnded, ValidOptions,
         Offers, Chronicle, IsIpPermitted, FailsForBudget, OutOfBudget, TimedBeforeSlots, StageRan,
         HandshakeBegun, TlsEndedWith;
    var options := setting.options;
    ghost var recorded := tracker.probes;
    PositiveBudget(options);
    if backend.kind.LiveNetwork? {
      LiveMayUse(tracker.host.environment, setting, a, log, tracker.host.actions, 4);
    }
    var started := Instant(tracker, options);
    var negotiated, begun, granted := backend.TlsStageOn(tracker, address, setting.target.summary.host, options);
    cutOff := backend.kind.LiveNetwork? && begun != [] && negotiated == Err(EXHAUSTED);
    if backend.kind.LiveNetwork? {
      HandshakeOutcome(tracker, negotiated, begun, address, options, old(tracker.host.actions));
    }
    answers, done := a.(tls := negotiated), log.(tls := begun);
    slots := if granted then tracker.maxProbes else |recorded|;
    FindingsPassedThrough(setting, a, before, 4);
    if backend.kind.LiveNetwork? {
      LiveTls(tracker.host.environment, setting, a, answers, log, done, old(tracker.host.actions), cutOff);
    } else {
      ScriptStageRan(setting, a, answers, backend.kind.script, tracker, old(backend.calls), recorded, 4, granted,
                     TlsHandshake, if backend.kind.script.tls.None? then Validated else Outcome.Failed);
    }
    var ms := ElapsedMs(tracker, options, started);
    TlsPhaseRank(setting, answers);
    PassedCall(setting, 4);
    var next;
    if negotiated.Err? {
      next := FailedPhase(Tls, ms, negotiated.error);
      findings, passed := before.(phases := before.phases + [next]), false;
      FindingsFail(setting, a, answers, before, findings, next, 4);
      FailedCall(setting, answers, 4);
    } else {
      next := PassedPhase(Tls, ms, [TlsNegotiation(negotiated.value)]);
      findings, passed := before.(phases := before.phases + [next], tls := Some(negotiated.value)), true;
      FindingsPass(setting, a, answers, before, findings, next, 4);
    }
  }

  /** A handshake is cut off, or recorded at the place of its action with the outcome that its answer has. */
  lemma HandshakeOutcome(tracker: Tracker, negotiated: Result<TlsSummary>, begun: seq<Action>, address: SocketAddr,
                         options: InspectionOptions, earlier: seq<Action>)
    requires HandshakeBegun(tracker, negotiated, begun, address, options) && tracker.host.actions == earlier + begun
    ensures if begun != [] && negotiated == Err(EXHAUSTED) then CutOff(tracker, options) else Sound(tracker, options)
    ensures begun != [] && negotiated != Err(EXHAUSTED) ==>
      |earlier| < |tracker.probes| && TlsEndedWith(negotiated, tracker.probes[|earlier|].outcome)
    ensures begun == [] ==> negotiated == Err(EXHAUSTED)
    ensures |begun| <= 1 && (begun != [] ==> begun[0].TlsConnect? && begun[0].address == address)
    ensures begun != [] && negotiated.Ok? ==> begun[0].dialogue.summary == Some(negotiated.value)
  {
    hide Chronicle, TimedInsideSlots;
  }

  lemma PositiveBudget(options: InspectionOptions)
    requires ValidOptions(options)
    ensures options.budgetMs > 0
  {
  }

  lemma FindingsPassedThrough(setting: Setting, a: Answers, findings: Findings, rank: nat)
    requires FindingsAt(setting, a, findings, rank)
    ensures PassedThrough(setting, a, rank)
  {
  }

  /** A run to which the TLS probe does not apply goes on as it is. */
  lemma SkippingTls(tracker: Tracker, backend: Backend, setting: Setting, a: Answers, log: RunLog)
    requires !TlsApplies(setting)
    ensures LiveWalking(tracker.host.environment, setting, a, log, tracker.host.actions, 4)
      ==> LiveWalking(tracker.host.environment, setting, a, log, tracker.host.actions, 5)
    ensures backend.kind.Scripted?
      && ScriptWalking(setting, a, backend.kind.script, backend.calls, tracker.probes, tracker.maxProbes, 4)
      ==> ScriptWalking(setting, a, backend.kind.script, backend.calls, tracker.probes, tracker.maxProbes, 5)
  {
  }

  lemma TcpPhaseRank(setting: Setting, answers: Answers)
    ensures PhaseOf(setting, answers, 3) == TcpPhase(setting, answers.tcp)
  {
  }

  lemma TlsPhaseRank(setting: Setting, answers: Answers)
    ensures PhaseOf(setting, answers, 4) == TlsPhase(setting, answers.tls)
  {
  }
}
