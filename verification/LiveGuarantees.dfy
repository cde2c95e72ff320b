/** What every report of a live run guarantees: its trace, its budget, its times, its addresses and its bytes. */
module LiveGuarantees {
  import opened AddressPolicy
  import opened Wrappers
  import opened Model
  import opened TargetPolicy
  import opened Host
  import opened Tracking
  import opened ActionLog
  import opened Resolver
  import opened Live
  import opened RedirectChain
  import opened Diagnosis
  import opened Backends
  import opened Engine
  import opened Inspection
  import opened Guarantees

  // ----- The order of the probes -----

  function Repeat(kind: ProbeKind, n: nat): (kinds: seq<ProbeKind>)
    ensures |kinds| == n
  {
    seq(n, i => kind)
  }

  /** A run that fails nowhere: a resolution, connection attempts, a TLS handshake if one applies, and requests. */
  function FullTrace(attempts: nat, tls: bool, redirects: nat): (kinds: seq<ProbeKind>) {
    [DnsLookup] + Repeat(TcpConnect, attempts) + Repeat(TlsHandshake, if tls then 1 else 0)
    + Alternation(2 * redirects + 1)
  }

  predicate Connects(attempts: seq<Action>) {
    attempts != [] && attempts[|attempts| - 1].Connect? && attempts[|attempts| - 1].connected
  }

  /** What the parts of a log begin, and which part waits for which. */
  ghost predicate LogShape(log: RunLog, tls: bool, options: InspectionOptions) {
    && Kinds(log.dns) == Repeat(DnsLookup, |log.dns|) && |log.dns| <= 1
    && Kinds(log.tcp) == Repeat(TcpConnect, |log.tcp|) && |log.tcp| <= options.maxAddresses
    && Kinds(log.tls) == Repeat(TlsHandshake, |log.tls|) && |log.tls| <= (if tls then 1 else 0)
    && Kinds(log.http) == Alternation(|log.http|) && |log.http| <= 2 * options.maxRedirects + 1
    && (log.tcp != [] ==> log.dns != [])
    && (log.tls != [] ==> Connects(log.tcp))
    && (log.http != [] ==> Connects(log.tcp) && (tls ==> log.tls != []))
    && (forall i | 0 <= i < |log.tcp| :: log.tcp[i].Connect? && (i < |log.tcp| - 1 ==> !log.tcp[i].connected))
  }

  lemma LiveRunShape(environment: Environment, setting: Setting, answers: Answers, log: RunLog, bytesRead: nat,
                     cutOff: bool)
    requires LiveRun(environment, setting, answers, log, bytesRead, cutOff)
    ensures LogShape(log, TlsApplies(setting), setting.options)
  {
    hide IsResolution, ChainEnded, Chain, SumOfBodies, Alternation, RedactUrl;
  }

  lemma KindsConcat(a: seq<Action>, b: seq<Action>)
    ensures Kinds(a + b) == Kinds(a) + Kinds(b)
  {
  }

  lemma KindsOfAll(log: RunLog)
    ensures Kinds(log.All()) == Kinds(log.dns) + Kinds(log.tcp) + Kinds(log.tls) + Kinds(log.http)
  {
    KindsConcat(log.dns, log.tcp);
    KindsConcat(log.dns + log.tcp, log.tls);
    KindsConcat(log.dns + log.tcp + log.tls, log.http);
  }

  lemma ShapedLogIsPrefix(log: RunLog, tls: bool, options: InspectionOptions)
    requires LogShape(log, tls, options) && options.maxAddresses > 0
    ensures var attempts := if log.tcp == [] then 1 else |log.tcp|;
      && 1 <= attempts <= options.maxAddresses
      && Kinds(log.All()) <= FullTrace(attempts, tls, options.maxRedirects)
  {
    KindsOfAll(log);
    hide Kinds;
  }

  /** The probes are a prefix of a full trace; all connection attempts but the last failed. */
  ghost predicate IsTrace(probes: seq<ProbeRecord>, attempts: nat, tls: bool, options: InspectionOptions) {
    && 1 <= attempts <= options.maxAddresses
    && RecordedKinds(probes) <= FullTrace(attempts, tls, options.maxRedirects)
    && (forall i | 1 <= i < attempts && i < |probes| :: probes[i].outcome == Outcome.Failed)
    && (|probes| > attempts + 1 ==> probes[attempts].outcome == Connected)
  }

  lemma RecordedKindsOfLiveRun(run: Run, report: Report)
    requires ReportsLiveRun(run, report)
    ensures RecordedKinds(report.probes) <= Kinds(run.log.All())
    ensures !run.cutOff ==> RecordedKinds(report.probes) == Kinds(run.log.All())
  {
    hide Reports, LiveRun, Authorized;
    var actions, n := run.log.All(), |report.probes|;
    BalancedKinds(report.probes, actions[..n], run.setting.options);
    assert Kinds(actions)[..n] == Kinds(actions[..n]);
    assert !run.cutOff ==> actions[..n] == actions;
  }

  /** Every live run's probes follow the grammar of the pipeline. */
  lemma TraceGrammar(run: Run, report: Report)
    requires ReportsLiveRun(run, report)
    ensures exists attempts: nat :: IsTrace(report.probes, attempts, TlsApplies(run.setting), run.setting.options)
  {
    hide ReportsLiveRun, LogShape, Kinds, RecordedKinds, FullTrace;
    var options, log, tls := run.setting.options, run.log, TlsApplies(run.setting);
    LiveReportShape(run, report);
    RecordedKindsOfLiveRun(run, report);
    ShapedLogIsPrefix(log, tls, options);
    ConnectionRecords(run, report);
    var attempts: nat := if log.tcp == [] then 1 else |log.tcp|;
    assert IsTrace(report.probes, attempts, tls, options);
  }

  lemma LiveReportShape(run: Run, report: Report)
    requires ReportsLiveRun(run, report)
    ensures LogShape(run.log, TlsApplies(run.setting), run.setting.options)
    ensures run.setting.options.maxAddresses > 0
  {
    hide LiveRun, Authorized, Balanced, Capped, Chronicle, WithoutClock, LogShape;
    LiveRunShape(run.environment, run.setting, run.answers, run.log, report.usage.responseBytesRead, run.cutOff);
  }

  /** What was recorded of the connection attempts. */
  lemma ConnectionRecords(run: Run, report: Report)
    requires ReportsLiveRun(run, report) && LogShape(run.log, TlsApplies(run.setting), run.setting.options)
    ensures var tcp, probes := run.log.tcp, report.probes;
      && (tcp == [] ==> |probes| <= 1)
      && (forall i | 1 <= i < |tcp| && i < |probes| :: probes[i].outcome == Outcome.Failed)
      && (|probes| > |tcp| + 1 ==> tcp != [] && probes[|tcp|].outcome == Connected)
  {
    hide Reports, LiveRun, Authorized, Kinds, Balanced, Capped, TimedInsideSlots, TlsRecorded, FailsForBudget;
    var actions, log, probes := run.log.All(), run.log, report.probes;
    forall i | 1 <= i <= |log.tcp| && i < |probes|
      ensures probes[i].outcome == if log.tcp[i - 1].connected then Connected else Outcome.Failed
    {
      assert actions[i] == log.tcp[i - 1] == actions[..|probes|][i];
      ConnectionRecord(probes, actions[..|probes|], run.setting.options, i);
    }
  }

  lemma ConnectionRecord(probes: seq<ProbeRecord>, actions: seq<Action>, options: InspectionOptions, i: nat)
    requires Balanced(probes, actions, options) && i < |probes| && actions[i].Connect?
    ensures probes[i].outcome == if actions[i].connected then Connected else Outcome.Failed
  {
    assert Describes(probes[i], actions[i], options);
  }

  // ----- Probe slots -----

  /** The TLS phase ran out of budget. */
  predicate FailedAtTlsByBudget(report: Report) {
    && report.failedAt == Some(Tls) && |report.phases| == 5
    && report.phases[4].status.Failed? && report.phases[4].error == Some(EXHAUSTED)
  }

  /**
   * Records are numbered, bounded, and complete but for one action: a begun handshake stays unrecorded exactly when
   * the run fails at TLS for want of budget.
   */
  lemma ProbeAccounting(run: Run, report: Report)
    requires ReportsLiveRun(run, report)
    ensures var options, probes, begun := run.setting.options, report.probes, |run.log.All()|;
      && (forall i | 0 <= i < |probes| :: probes[i].sequence == i + 1)
      && report.usage.probesUsed == |probes|
      && begun <= Min(options.maxProbes, options.maxAddresses + 3 + 2 * options.maxRedirects)
      && |probes| <= begun <= |probes| + 1
      && (begun == |probes| + 1 <==> FailedAtTlsByBudget(report) && run.log.tls != [])
      && (begun == |probes| + 1 ==>
            options.budgetMs <= report.usage.elapsedMs
            && run.log.All()[|probes|].TlsConnect? && run.log.All()[|probes|].connected
            && IsUnfinished(run.log.All()[|probes|].dialogue))
  {
    hide LogShape, LiveRun, Authorized, Describes, WithoutClock, FailedAtTlsByBudget;
    LiveReportShape(run, report);
    ShapedLogIsPrefix(run.log, TlsApplies(run.setting), run.setting.options);
    assert report.usage.probesUsed == |report.probes| by {
      ReportShows(run, report);
    }
    CutOffIsATlsFailure(run, report);
  }

  lemma CutOffIsATlsFailure(run: Run, report: Report)
    requires ReportsLiveRun(run, report)
    ensures run.cutOff <==> FailedAtTlsByBudget(report) && run.log.tls != []
  {
    hide LiveRun, Authorized, Balanced, Capped, Reports, FirstFailure, Reached;
    CutOffExactly(run.environment, run.setting, run.answers, run.log, report.usage.responseBytesRead, run.cutOff);
    ReportedFailure(run, report);
    ReportsAreGrounded(run, report);
    hide ReportsLiveRun, Follow;
  }

  lemma CutOffExactly(environment: Environment, setting: Setting, answers: Answers, log: RunLog, bytesRead: nat,
                      cutOff: bool)
    requires LiveRun(environment, setting, answers, log, bytesRead, cutOff)
    ensures cutOff <==> FirstFailure(setting, answers) == Some((Tls, EXHAUSTED)) && log.tls != []
    ensures FirstFailure(setting, answers).Some? && FirstFailure(setting, answers).value.0 == Tls
      ==> Reached(setting, answers) == 5
  {
    hide IsResolution, Attempts, Kinds, Alternation, RedactUrl;
  }

  // ----- A run without failure -----

  lemma CompletedAnswers(setting: Setting, answers: Answers)
    requires FirstFailed(ExpectedPhases(setting, answers)).None?
    ensures FirstFailure(setting, answers).None?
  {
    ConclusionsAreGrounded(setting, answers);
    hide FirstFailure, ExpectedPhases, FirstFailed, HypothesesFor, RuledOutFor;
  }

  lemma CompletedLog(environment: Environment, setting: Setting, answers: Answers, log: RunLog, bytesRead: nat,
                     cutOff: bool)
    requires LiveRun(environment, setting, answers, log, bytesRead, cutOff) && FirstFailure(setting, answers).None?
    ensures LogShape(log, TlsApplies(setting), setting.options)
    ensures !cutOff && Connects(log.tcp) && |log.dns| == 1 && |log.tls| == (if TlsApplies(setting) then 1 else 0)
    ensures answers.http.Ok? && answers.http.value.hops != [] && |log.http| == 2 * |answers.http.value.hops| - 1
    ensures ExpectedFindings(setting, answers).http == answers.http.value.hops
  {
    LiveRunShape(environment, setting, answers, log, bytesRead, cutOff);
    hide IsResolution, Chain, Kinds, Alternation, RedactUrl, ExpectedPhases;
  }

  /** A run that fails nowhere executes the full trace of its hops, probe for probe. */
  lemma CompletedRunTrace(run: Run, report: Report)
    requires ReportsLiveRun(run, report) && report.failedAt.None?
    ensures var attempts := |run.log.tcp|;
      && 1 <= attempts <= run.setting.options.maxAddresses && report.http != []
      && RecordedKinds(report.probes) == FullTrace(attempts, TlsApplies(run.setting), |report.http| - 1)
      && report.probes[attempts].outcome == Connected
  {
    hide LiveRun, LogShape, Reports, Authorized, Kinds, RecordedKinds, ExpectedFindings, ExpectedPhases, FirstFailed,
         FirstFailure, Balanced, Capped;
    ReportShows(run, report);
    LiveReportShape(run, report);
    RecordedKindsOfLiveRun(run, report);
    CompletedAnswers(run.setting, run.answers);
    CompletedLog(run.environment, run.setting, run.answers, run.log, report.usage.responseBytesRead, run.cutOff);
    CompletedKinds(run.log, TlsApplies(run.setting), run.setting.options, |report.http|);
    ConnectionRecords(run, report);
  }

  lemma CompletedKinds(log: RunLog, tls: bool, options: InspectionOptions, hops: nat)
    requires LogShape(log, tls, options) && hops > 0
    requires Connects(log.tcp) && |log.dns| == 1 && |log.tls| == (if tls then 1 else 0) && |log.http| == 2 * hops - 1
    ensures Kinds(log.All()) == FullTrace(|log.tcp|, tls, hops - 1)
    ensures 1 <= |log.tcp| <= options.maxAddresses
  {
    KindsOfAll(log);
    hide Kinds;
  }

  // ----- Bytes -----

  predicate HttpPassed(report: Report) {
    |report.phases| == 8 && report.phases[5].name == Http && report.phases[5].status.Passed?
  }

  lemma BytesOfRun(environment: Environment, setting: Setting, answers: Answers, log: RunLog, bytesRead: nat,
                   cutOff: bool)
    requires LiveRun(environment, setting, answers, log, bytesRead, cutOff)
    ensures var n, http, options := Reached(setting, answers), ExpectedFindings(setting, answers).http, setting.options;
      && bytesRead == SumOfBodies(log.completed) && (n == 8 ==> log.completed == http)
      && (n == 8 ==> http != [] && bytesRead == SumOfBodies(http) <= (options.maxRedirects + 1) * options.maxBodyBytes)
      && (n == 6 ==> http == [] && bytesRead <= options.maxRedirects * options.maxBodyBytes)
      && (n < 6 ==> http == [] && bytesRead == 0)
  {
    hide IsResolution, Kinds, Alternation, RedactUrl, Attempts, ExpectedPhases, ObserveAddresses, DnsPhase, Chain,
         SumOfBodies, HopsAreSends, HttpErrorFits, IsRequest, ResolutionBegun, ConnectionsBegun, LaterPinsAreLeast,
         FollowsLocations, EndFits;
    EmptyChain(RedactUrl(setting.target.url, setting.options.showQueryValues), setting.options);
    if Reached(setting, answers) > 5 {
      ChainBytes(log.completed, RedactUrl(setting.target.url, setting.options.showQueryValues), setting.options,
                 setting.options.maxRedirects + if answers.http.Ok? then 1 else 0);
    }
  }

  lemma ChainBytes(hops: seq<HttpHop>, first: Url, options: InspectionOptions, most: nat)
    requires Chain(hops, first, options) && (|hops| <= most || most == options.maxRedirects + 1)
    ensures SumOfBodies(hops) <= most * options.maxBodyBytes
  {
    hide SumOfBodies, IsRedirection;
    BodiesFitTheirLimit(hops, options.maxBodyBytes);
    BodiesOfAtMost(|hops|, options.maxBodyBytes, most);
  }

  lemma BodiesOfAtMost(count: nat, limit: nat, most: nat)
    requires count <= most
    ensures count * limit <= most * limit
  {
  }

  /**
   * The counter holds the bytes of the hops that were completed. They are those of the reported hops exactly when HTTP
   * passed or there are none: an HTTP failure takes the completed hops out of the report, but not out of the counter.
   */
  lemma ByteConservation(run: Run, report: Report)
    requires ReportsLiveRun(run, report)
    ensures var read, options := report.usage.responseBytesRead, run.setting.options;
      if HttpPassed(report) then
        read == SumOfBodies(report.http) && read <= (options.maxRedirects + 1) * options.maxBodyBytes
      else report.http == [] && read <= options.maxRedirects * options.maxBodyBytes
    ensures report.usage.responseBytesRead == SumOfBodies(run.log.completed)
    ensures report.usage.responseBytesRead == SumOfBodies(report.http)
      <==> HttpPassed(report) || SumOfBodies(run.log.completed) == 0
    ensures report.failedAt in {Some(Dns), Some(Tcp), Some(Tls)} ==> report.usage.responseBytesRead == 0
  {
    hide LiveRun, Reports, Authorized, Balanced, Capped, ExpectedFindings, Reached, HttpPassed;
    EmptyChain(report.target.intended, run.setting.options);
    BytesOfRun(run.environment, run.setting, run.answers, run.log, report.usage.responseBytesRead, run.cutOff);
    ReportReaches(run, report);
  }

  lemma ReportReaches(run: Run, report: Report)
    requires Reports(run, report)
    ensures var n := Reached(run.setting, run.answers);
      && (HttpPassed(report) <==> n == 8)
      && (report.failedAt in {Some(Dns), Some(Tcp), Some(Tls)} ==> n < 6)
    ensures report.http == ExpectedFindings(run.setting, run.answers).http
  {
    ReportShows(run, report);
    HttpPassesWhenReached(run.setting, run.answers);
    hide Reports, ExpectedFindings, ExpectedPhases, FirstFailed, HypothesesFor, TimelessPhases, Reached;
    TimelessPhasesAreTheSame(report.phases);
  }

  lemma HttpPassesWhenReached(setting: Setting, answers: Answers)
    ensures var phases := ExpectedPhases(setting, answers);
      |phases| == Reached(setting, answers) && |phases| in {3, 4, 5, 6, 8}
      && (|phases| == 8 ==> phases[5].name == Http && phases[5].status.Passed?)
      && (FirstFailed(phases) in {Some(Dns), Some(Tcp), Some(Tls)} ==> |phases| < 6)
  {
    ConclusionsAreGrounded(setting, answers);
    ReachOfFailure(setting, answers);
    hide FirstFailed, HypothesesFor, RuledOutFor, ExcludedBefore;
  }

  lemma ReachOfFailure(setting: Setting, answers: Answers)
    ensures FirstFailure(setting, answers).Some? && PhaseRank(FirstFailure(setting, answers).value.0) < 5
      ==> Reached(setting, answers) < 6
  {
  }

  // ----- Times -----

  /**
   * Recorded probes never overlap and never add up to more than the elapsed time, despite millisecond truncation.
   * Only once the elapsed time itself is clamped to 64 bits are the sums to be clamped too.
   */
  lemma TimelineSoundness(run: Run, report: Report)
    requires ReportsLiveRun(run, report)
    ensures forall i, j | 0 <= i < j < |report.probes| ::
      Clamp(report.probes[i].startedMs + report.probes[i].durationMs) <= report.probes[j].startedMs
    ensures Clamp(SumOfDurations(report.probes)) <= report.usage.elapsedMs
    ensures report.usage.elapsedMs < U64_MAX ==> forall i, j | 0 <= i < j < |report.probes| ::
      report.probes[i].startedMs + report.probes[i].durationMs <= report.probes[j].startedMs
    ensures report.usage.elapsedMs < U64_MAX ==> SumOfDurations(report.probes) <= report.usage.elapsedMs
  {
    hide LiveRun, Authorized, Balanced, Capped, WithoutClock, SumOfDurations, TimedInsideSlots;
    RecordsDoNotOverlap(report.probes, run.spans, run.started, run.ended);
    DurationsFitElapsed(report.probes, run.spans, run.started, run.ended);
    if report.usage.elapsedMs < U64_MAX {
      forall i, j | 0 <= i < j < |report.probes|
        ensures report.probes[i].startedMs + report.probes[i].durationMs <= report.probes[j].startedMs
      {
        MillisMonotone(run.spans[j].slot - run.started, run.ended - run.started);
      }
    }
  }

  // ----- Waits -----

  /** The longest timeout of each kind. */
  function CapOf(action: Action): nat {
    match action
    case Lookup(_, _, _) => 0
    case Connect(_, _, _) => 5 * SECOND
    case TlsConnect(_, _, _, _, _) => 7 * SECOND
    case Send(_, _, _, _) => 10 * SECOND
  }

  /** The instant at which the time left was read. */
  function ReadAt(action: Action, deadline: nat): int
    requires !action.Lookup?
  {
    deadline - action.wait.left
  }

  /**
   * Every timeout is the time left at an instant before the deadline, or the cap of its kind. The instant is after the
   * record of the action before; for a connection or a handshake it lies inside the probe's own timing, for a request
   * before its slot. The wait itself begins inside the probe's timing, no earlier than that instant.
   */
  lemma TimeoutsAreTimeLeft(run: Run, report: Report, i: nat)
    requires ReportsLiveRun(run, report) && i < |run.log.All()| && !run.log.All()[i].Lookup?
    ensures var action, deadline, recorded := run.log.All()[i], Deadline(run), |report.probes|;
      var read := ReadAt(action, deadline);
      && |run.spans| == recorded && run.started <= read < deadline && read <= action.wait.begin
      && action.wait.timeout == Min(deadline - read, CapOf(action))
      && (action.Send? ==> action.client.timeout == action.wait.timeout)
      && (0 < i <= recorded ==> run.spans[i - 1].until <= read)
      && (if i < recorded then
            && run.spans[i].timed <= action.wait.begin <= run.spans[i].until
            && if action.Send? then read <= run.spans[i].slot else run.spans[i].timed <= read
          else action.wait.begin <= run.ended)
  {
    hide LiveRun, Balanced, Capped, TlsRecorded, StepAuthorized, WithoutClock, FailsForBudget, LastLookup, ReadsAfter,
         ReadsInside, WaitsInOrder;
    var actions, options := run.log.All(), run.setting.options;
    EveryActionIsAuthorized(run.environment, options, actions, i);
    hide Authorized;
    TimeoutIsTimeLeft(run.environment, options, LastLookup(actions[..i]), actions[i]);
    ReadInstants(actions, run.spans, run.started, Deadline(run), i);
  }

  lemma TimeoutIsTimeLeft(environment: Environment, options: InspectionOptions, lookup: Option<Action>, action: Action)
    requires lookup.Some? ==> lookup.value.Lookup?
    requires StepAuthorized(environment, options, lookup, action) && !action.Lookup?
    ensures action.wait.left > 0 && action.wait.timeout == Min(action.wait.left, CapOf(action))
    ensures action.Send? ==> action.client.timeout == action.wait.timeout
  {
    hide Offers, SelectedFor, ParseTarget;
  }

  lemma ReadInstants(actions: seq<Action>, spans: seq<Span>, started: nat, deadline: nat, i: nat)
    requires Capped(actions, spans, started, deadline) && i < |actions| && !actions[i].Lookup?
    ensures WaitsInOrder(actions[i], deadline) && (i < |spans| ==> WaitsBy(actions[i], spans[i].until))
    ensures var read, begin := ReadAt(actions[i], deadline), actions[i].wait.begin;
      && started <= read <= begin && (0 < i <= |spans| ==> spans[i - 1].until <= read)
      && (i < |spans| ==>
            && spans[i].timed <= begin <= spans[i].until
            && if actions[i].Send? then read <= spans[i].slot else spans[i].timed <= read)
  {
    assert ReadsAfter(actions[i], started, deadline);
  }

  /**
   * A wait ends by the deadline exactly when it begins at the instant its timeout was read for, or the cap of its kind
   * fits in the time left when it begins. Otherwise it outlasts the deadline, by its delay at most.
   */
  lemma WaitsEndByDeadlineExactly(run: Run, report: Report, i: nat)
    requires ReportsLiveRun(run, report) && i < |run.log.All()| && !run.log.All()[i].Lookup?
    ensures var action, deadline := run.log.All()[i], Deadline(run);
      var wait, read := action.wait, ReadAt(action, deadline);
      && (wait.begin + wait.timeout <= deadline <==> wait.begin == read || wait.begin + CapOf(action) <= deadline)
      && wait.begin + wait.timeout <= deadline + (wait.begin - read)
  {
    hide ReportsLiveRun;
    TimeoutsAreTimeLeft(run, report, i);
  }

  /**
   * A wait on the socket of a handshake has the timeout of the connection, read before that was made. Its own test of
   * the deadline comes first but does not shorten it: begun in time, it outlasts the deadline by less than the budget
   * and less than 7 s; begun late, by its delay since the test more.
   */
  lemma HandshakeOverrunIsBounded(run: Run, report: Report, i: nat, k: nat)
    requires ReportsLiveRun(run, report) && i < |run.log.All()| && run.log.All()[i].TlsConnect?
    requires k < |run.log.All()[i].exchanges|
    ensures var action, deadline := run.log.All()[i], Deadline(run);
      var wait, most := action.exchanges[k], Min(deadline - run.started, 7 * SECOND);
      && action.connected && wait.timeout == action.wait.timeout <= most
      && action.wait.begin <= wait.tested <= wait.begin && wait.tested < deadline
      && wait.begin <= (if i < |run.spans| then run.spans[i].until else run.ended)
      && (wait.begin + wait.timeout <= deadline
          <==> wait.begin == ReadAt(action, deadline) || wait.begin + 7 * SECOND <= deadline)
      && (wait.begin < deadline ==> wait.begin + wait.timeout < deadline + most)
      && wait.begin + wait.timeout < deadline + (wait.begin - wait.tested) + most
  {
    hide ReportsLiveRun, IsExchangeWait;
    var actions, deadline := run.log.All(), Deadline(run);
    TimeoutsAreTimeLeft(run, report, i);
    SocketWaitsBegin(run, report, i, k);
    SocketWaitLasts(actions[i].exchanges[k], actions[i].wait, run.started, deadline);
  }

  lemma SocketWaitsBegin(run: Run, report: Report, i: nat, k: nat)
    requires ReportsLiveRun(run, report) && i < |run.log.All()| && run.log.All()[i].TlsConnect?
    requires k < |run.log.All()[i].exchanges|
    ensures var action := run.log.All()[i];
      && action.connected && IsExchangeWait(action.exchanges[k], action.wait, Deadline(run))
      && action.exchanges[k].begin <= if i < |run.spans| then run.spans[i].until else run.ended
  {
    hide LiveRun, Balanced, Capped, TlsRecorded, WithoutClock, FailsForBudget, Authorized, ReadsAfter, ReadsInside,
         TimedInsideSlots, ParseTarget, ResolveProxy, ExpectedFindings, HypothesesFor, RuledOutFor, FirstFailed;
    ReadInstants(run.log.All(), run.spans, run.started, Deadline(run), i);
  }

  lemma SocketWaitLasts(wait: SocketWait, connection: Wait, started: nat, deadline: nat)
    requires IsExchangeWait(wait, connection, deadline) && connection.timeout == Min(connection.left, 7 * SECOND)
    requires started <= deadline - connection.left <= connection.begin
    ensures var most, read := Min(deadline - started, 7 * SECOND), deadline - connection.left;
      && wait.timeout == connection.timeout <= most
      && connection.begin <= wait.tested <= wait.begin && wait.tested < deadline
      && (wait.begin + wait.timeout <= deadline <==> wait.begin == read || wait.begin + 7 * SECOND <= deadline)
      && wait.begin + wait.timeout < deadline + (wait.begin - wait.tested) + most
  {
  }

  // ----- Addresses -----

  /** The address an action connects to, or pins for its request. */
  function UsedAddress(action: Action): Option<SocketAddr> {
    match action
    case Lookup(_, _, _) => None
    case Connect(address, _, _) => Some(address)
    case TlsConnect(address, _, _, _, _) => Some(address)
    case Send(client, _, _, _) => Some(client.pinnedAddress)
  }

  /** The action at `i` rests on the resolution at `j`, the latest before it. */
  predicate RestsOn(actions: seq<Action>, i: nat, j: nat)
    requires j < i < |actions|
  {
    actions[j].Lookup? && forall k | j < k < i :: !actions[k].Lookup?
  }

  lemma LatestResolution(actions: seq<Action>, i: nat) returns (j: nat)
    requires i < |actions| && LastLookup(actions[..i]).Some?
    ensures j < i && actions[j] == LastLookup(actions[..i]).value && RestsOn(actions, i, j)
  {
    LastLookupIsLatest(actions[..i]);
    j :| 0 <= j < i && actions[..i][j] == LastLookup(actions[..i]).value
      && forall k | j < k < i :: !actions[..i][k].Lookup?;
    assert forall k | j < k < i :: actions[k] == actions[..i][k];
  }

  ghost predicate AddressIsSafe(actions: seq<Action>, i: nat, options: InspectionOptions)
    requires i < |actions| && UsedAddress(actions[i]).Some?
  {
    var address := UsedAddress(actions[i]).value;
    && IsIpPermitted(address.ip, options.allowPrivate)
    && exists j | 0 <= j < i :: RestsOn(actions, i, j)
         && actions[j].answers.Some? && address in actions[j].answers.value
  }

  /**
   * Every address that a connection, a handshake or a request uses, on any hop, is permitted by policy and was
   * answered by the resolution done for it. A connection or a handshake rests on the first resolution, which is of
   * the host and port that the target's proxy selection gives.
   */
  lemma AddressSafety(run: Run, report: Report, i: nat)
    requires ReportsLiveRun(run, report) && i < |run.log.All()|
    requires UsedAddress(run.log.All()[i]).Some?
    ensures var actions, proxy := run.log.All(), run.setting.proxy;
      && AddressIsSafe(actions, i, run.setting.options)
      && (!actions[i].Send? ==>
            i > 0 && RestsOn(actions, i, 0)
            && actions[0].host == proxy.connectHost && actions[0].port == proxy.connectPort)
  {
    hide Reports, Balanced, Capped, IsIpPermitted, SelectedFor;
    var actions := run.log.All();
    LiveReportShape(run, report);
    FirstResolution(run.environment, run.setting, run.answers, run.log, report.usage.responseBytesRead, run.cutOff);
    if !actions[i].Send? {
      ConnectionsRestOnFirst(run.log, TlsApplies(run.setting), run.setting.options, i);
    }
    hide LiveRun, LogShape;
    EveryActionIsAuthorized(run.environment, run.setting.options, actions, i);
    hide Authorized;
    var j := LatestResolution(actions, i);
  }

  lemma FirstResolution(environment: Environment, setting: Setting, answers: Answers, log: RunLog, bytesRead: nat,
                        cutOff: bool)
    requires LiveRun(environment, setting, answers, log, bytesRead, cutOff)
    ensures log.dns != [] ==>
      log.dns[0].Lookup? && log.dns[0].host == setting.proxy.connectHost && log.dns[0].port == setting.proxy.connectPort
  {
    hide IsResolution, ConnectionsBegun, RequestsBegun, DnsPhase;
  }

  lemma ConnectionsRestOnFirst(log: RunLog, tls: bool, options: InspectionOptions, i: nat)
    requires LogShape(log, tls, options) && i < |log.All()|
    requires log.All()[i].Connect? || log.All()[i].TlsConnect?
    ensures 0 < i && log.dns != [] && log.All()[0] == log.dns[0] && RestsOn(log.All(), i, 0)
  {
    KindsOfAll(log);
    var actions := log.All();
    assert forall k | 0 <= k < |actions| :: Kinds(actions)[k] == KindOf(actions[k]);
    var first, last := |log.dns|, |log.dns| + |log.tcp| + |log.tls|;
    assert forall k | last <= k < |actions| :: Kinds(actions)[k] == Alternation(|log.http|)[k - last];
    assert forall k | first <= k < last :: Kinds(actions)[k] in {TcpConnect, TlsHandshake};
  }

  /** Without a proxy the first resolution is of the target itself. */
  lemma DirectRunsResolveTheTarget(run: Run, report: Report)
    requires ReportsLiveRun(run, report) && !report.proxy.selected && run.log.dns != []
    ensures run.log.dns[0].Lookup?
    ensures run.log.dns[0].host == report.target.host && run.log.dns[0].port == report.target.port
  {
    hide LiveRun, Authorized, Balanced, Capped, Chronicle, ExpectedFindings, TimelessProbes, TimelessPhases,
         ResolveProxy, FirstFailed, HypothesesFor, RuledOutFor, RedactUrl;
    FirstResolution(run.environment, run.setting, run.answers, run.log, report.usage.responseBytesRead, run.cutOff);
    ConnectsWhereSelected(run.environment, run.setting.target.url, run.setting.options);
    assert WithoutClock(report).proxy == report.proxy && WithoutClock(report).target == report.target;
  }

  /**
   * A request moreover goes where the proxy policy sends its own URL: to that host and port, resolved by the
   * resolution it rests on, and through that proxy. Its client pins that very host.
   */
  lemma RequestsFollowProxyPolicy(run: Run, report: Report, i: nat)
    requires ReportsLiveRun(run, report) && i < |run.log.All()| && run.log.All()[i].Send?
    ensures var actions, options := run.log.All(), run.setting.options;
      exists j | 0 <= j < i :: RestsOn(actions, i, j)
        && SelectedFor(run.environment, options, actions[i].url, actions[j].host, actions[j].port,
                       actions[i].client.via)
        && GoesVia(run.environment, options, actions[i].url, actions[i].client.via, actions[j].host, actions[j].port)
        && actions[i].client.pinnedHost == actions[j].host
        && actions[j].answers.Some? && actions[i].client.pinnedAddress in actions[j].answers.value
  {
    hide Reports, LiveRun, Balanced, Capped, IsIpPermitted, GoesVia, Explains, ResolveProxy;
    var actions := run.log.All();
    EveryActionIsAuthorized(run.environment, run.setting.options, actions, i);
    hide Authorized;
    ProxySelectionIsExact(run.environment, actions[i].url, run.setting.options);
    var j := LatestResolution(actions, i);
  }

  /** The resolution is of where a request for the URL goes. */
  ghost predicate ResolvesFor(environment: Environment, options: InspectionOptions, url: Url, lookup: Action) {
    && lookup.Lookup? && IsTarget(url)
    && exists via :: GoesVia(environment, options, url, via, lookup.host, lookup.port)
  }

  /**
   * Nothing is resolved but for a request that the policies allow: the first resolution is for the target, and every
   * other for the very Location that the response right before it leads to.
   */
  lemma ResolutionsFollowPolicy(run: Run, report: Report, i: nat)
    requires ReportsLiveRun(run, report) && i < |run.log.All()| && run.log.All()[i].Lookup?
    ensures var actions, options := run.log.All(), run.setting.options;
      if i == 0 then ResolvesFor(run.environment, options, run.setting.target.url, actions[0])
      else ResolvesForLocation(run.environment, options, actions[i - 1], actions[i])
  {
    hide Reports, Authorized, Balanced, Capped, TlsRecorded, FailsForBudget, ResolvesFor, ResolvesForLocation, LiveRun,
         LogShape, FollowsAt;
    LiveReportShape(run, report);
    LookupsOfRun(run.environment, run.setting, run.answers, run.log, report.usage.responseBytesRead, run.cutOff, i);
    FirstResolution(run.environment, run.setting, run.answers, run.log, report.usage.responseBytesRead, run.cutOff);
    TargetOfRun(run, report);
    hide ReportsLiveRun;
    if i == 0 {
      EndpointIsResolved(run.environment, run.setting.options, run.setting.target.url, run.log.dns[0]);
    } else {
      LocationIsResolved(run.environment, run.setting.options, run.log.http, i - (|run.log.All()| - |run.log.http|));
    }
  }

  ghost predicate ResolvesForLocation(environment: Environment, options: InspectionOptions, sent: Action,
                                      lookup: Action) {
    exists url :: RedirectsTo(sent, url) && ResolvesFor(environment, options, url, lookup)
  }

  lemma EndpointIsResolved(environment: Environment, options: InspectionOptions, url: Url, lookup: Action)
    requires lookup.Lookup? && ParseTarget(Some(url), options).Ok? && ResolveProxy(environment, url, options).Ok?
    requires var proxy := ResolveProxy(environment, url, options).value;
      lookup.host == proxy.connectHost && lookup.port == proxy.connectPort
    ensures ResolvesFor(environment, options, url, lookup)
  {
    ProxySelectionIsExact(environment, url, options);
    TargetsAreExact(Some(url), options);
    hide ResolveProxy, ParseTarget, GoesVia, IsTarget, Explains;
  }

  lemma LocationIsResolved(environment: Environment, options: InspectionOptions, http: seq<Action>, at: nat)
    requires 0 < at < |http| && FollowsAt(environment, http, at, options) && http[at].Lookup?
    ensures ResolvesForLocation(environment, options, http[at - 1], http[at])
  {
    hide ResolveProxy, ParseTarget, ResolvesFor;
    EndpointIsResolved(environment, options, http[at - 1].answer.response.location.url, http[at]);
  }

  lemma TargetOfRun(run: Run, report: Report)
    requires Reports(run, report)
    ensures ParseTarget(Some(run.setting.target.url), run.setting.options).Ok?
    ensures ResolveProxy(run.environment, run.setting.target.url, run.setting.options) == Ok(run.setting.proxy)
  {
    hide ResolveProxy, ParseTarget, Chronicle, WithoutClock, ExpectedFindings;
  }

  lemma LookupsOfRun(environment: Environment, setting: Setting, answers: Answers, log: RunLog, bytesRead: nat,
                     cutOff: bool, i: nat)
    requires LiveRun(environment, setting, answers, log, bytesRead, cutOff)
    requires LogShape(log, TlsApplies(setting), setting.options) && i < |log.All()| && log.All()[i].Lookup?
    ensures i == 0 ==> log.dns != [] && log.All()[0] == log.dns[0]
    ensures i > 0 ==>
      var at := i - (|log.All()| - |log.http|);
      && 0 < at < |log.http| && log.All()[i] == log.http[at] && log.All()[i - 1] == log.http[at - 1]
      && FollowsAt(environment, log.http, at, setting.options)
  {
    hide LiveRun, FollowsAt, TlsApplies;
    KindsOfAll(log);
    var actions := log.All();
    var first, last := |log.dns|, |log.dns| + |log.tcp| + |log.tls|;
    assert forall k | 0 <= k < |actions| :: Kinds(actions)[k] == KindOf(actions[k]);
    assert forall k | first <= k < last :: Kinds(actions)[k] in {TcpConnect, TlsHandshake};
    if i >= last {
      assert Kinds(actions)[i] == Alternation(|log.http|)[i - last];
      FollowingOfRun(environment, setting, answers, log, bytesRead, cutOff);
    }
  }

  lemma FollowingOfRun(environment: Environment, setting: Setting, answers: Answers, log: RunLog, bytesRead: nat,
                       cutOff: bool)
    requires LiveRun(environment, setting, answers, log, bytesRead, cutOff)
    ensures FollowsLocations(environment, log.http, setting.options)
  {
    hide FollowsAt, IsResolution, Attempts, Kinds, Alternation, Chain, HopsAreSends, EndFits, LaterPinsAreLeast;
  }

  /** The reported proxy is that of the target: its first set variable, or the reason why there is none. */
  lemma ReportExplainsProxy(run: Run, report: Report)
    requires Reports(run, report)
    ensures Explains(run.environment, run.setting.options, run.setting.target.url, report.proxy)
  {
    hide ExpectedFindings, TimelessProbes, TimelessPhases, ResolveProxy, FirstFailed, HypothesesFor, RuledOutFor,
         Explains, GoesVia, Chronicle;
    ProxySelectionIsExact(run.environment, run.setting.target.url, run.setting.options);
    assert WithoutClock(report).proxy == report.proxy;
  }

  /** The reported target is the one that was given, with its own port or that of its scheme. */
  lemma ReportShowsTarget(run: Run, report: Report, given: Option<Url>)
    requires Reports(run, report) && ParseTarget(given, run.setting.options) == Ok(run.setting.target)
    ensures given.Some? && IsTarget(given.value) && run.setting.target.url == given.value.(fragment := None)
    ensures report.target.scheme == given.value.scheme && Some(report.target.host) == given.value.host
    ensures GoesToPort(given.value, report.target.port)
    ensures Shows(report.target.intended, given.value, run.setting.options.showQueryValues)
    ensures report.target.effective == report.target.intended
  {
    TargetsAreExact(given, run.setting.options);
    hide ExpectedFindings, ResolveProxy, ParseTarget, Chronicle, Shows, WithoutClock;
    ReportShows(run, report);
    hide Reports;
  }

  // ----- Redirects -----

  lemma ChainOfRun(environment: Environment, setting: Setting, answers: Answers, log: RunLog, bytesRead: nat,
                   cutOff: bool)
    requires LiveRun(environment, setting, answers, log, bytesRead, cutOff)
    requires ExpectedFindings(setting, answers).http != []
    ensures Reached(setting, answers) == 8 && answers.http.Ok?
    ensures ExpectedFindings(setting, answers).http == answers.http.value.hops
    ensures ChainEnded(answers.http.value, RedactUrl(setting.target.url, setting.options.showQueryValues),
                       setting.options)
    ensures var phases := ExpectedPhases(setting, answers);
      |phases| == 8 && phases[6].name == Redirects && phases[6].error == answers.http.value.failure
  {
    hide IsResolution, ChainEnded, Chain, SumOfBodies, Attempts, Kinds, RedactUrl;
  }

  lemma FailureAfterHttp(setting: Setting, answers: Answers)
    requires Reached(setting, answers) == 8
    ensures FirstFailed(ExpectedPhases(setting, answers))
      == if answers.http.value.failure.Some? then Some(Redirects) else None
  {
    ConclusionsAreGrounded(setting, answers);
    hide ExpectedPhases, FirstFailed, HypothesesFor, RuledOutFor, ExcludedBefore;
  }

  /** Why the chain ended, as the report tells it. */
  predicate RedirectsEndedFor(report: Report, error: ErrorCode) {
    |report.phases| == 8 && report.phases[6].error.Some? && report.phases[6].error.value.code == error
  }

  /**
   * The reported hops start at the intended target and follow one Location after another; the chain ended for its
   * limit exactly when it is full and its last hop still leads on.
   */
  lemma RedirectChainIntegrity(run: Run, report: Report)
    requires ReportsLiveRun(run, report) && report.http != []
    ensures Chain(report.http, report.target.intended, run.setting.options)
    ensures var last := report.http[|report.http| - 1];
      && (report.failedAt.None? ==> last.location.None?)
      && (report.failedAt.Some? ==> report.failedAt == Some(Redirects) && IsRedirection(last.status))
      && (RedirectsEndedFor(report, RedirectLimitReached)
          <==> |report.http| == run.setting.options.maxRedirects + 1 && last.location.Some?)
      && (RedirectsEndedFor(report, InvalidRedirectLocation) <==> report.failedAt.Some? && last.location.None?)
  {
    var setting, answers := run.setting, run.answers;
    hide LiveRun, Authorized, Balanced, Capped, TimelessPhases, ExpectedFindings, ExpectedPhases, FirstFailed,
         Reached, Chain, RedactUrl, ParseTarget, ResolveProxy, Chronicle, WithoutClock, HypothesesFor, RuledOutFor,
         TlsRecorded, FailsForBudget, TimedInsideSlots, ValidOptions;
    ReportShows(run, report);
    ChainOfRun(run.environment, setting, answers, run.log, report.usage.responseBytesRead, run.cutOff);
    FailureAfterHttp(setting, answers);
    ParsingIsIdempotent(Some(setting.target.url), setting.options);
    TimelessPhasesAreTheSame(report.phases);
  }

  // ----- Responses -----

  predicate IsAnswered(sent: Action) {
    sent.Send? && sent.answer.Answered?
  }

  /** The response is a redirection with a Location. */
  predicate LeadsOn(response: Response) {
    300 <= response.status <= 399 && response.location.NextUrl?
  }

  lemma ResponsesOfRun(environment: Environment, setting: Setting, answers: Answers, log: RunLog, bytesRead: nat,
                       cutOff: bool)
    requires LiveRun(environment, setting, answers, log, bytesRead, cutOff)
    requires ExpectedFindings(setting, answers).http != []
    ensures var hops := ExpectedFindings(setting, answers).http;
      && answers.http.Ok? && HopsAreSends(hops, log.http, setting.options)
      && FollowsLocations(environment, log.http, setting.options)
      && EndFits(environment, answers.http.value.failure, |hops|, log.http, setting.options)
      && Kinds(log.http) == Alternation(|log.http|) && |log.http| <= 2 * |hops|
  {
    hide IsResolution, ChainEnded, Chain, SumOfBodies, Attempts, RedactUrl, HopsAreSends, FollowsLocations, EndFits,
         LaterPinsAreLeast, ExpectedPhases;
  }

  /**
   * Hop `i` shows the response to the `i`-th request: its status, its Location if it is a redirection that has one, and
   * the start of its body. The next request is for that very Location.
   */
  lemma HopsShowResponses(run: Run, report: Report, i: nat)
    requires ReportsLiveRun(run, report) && i < |report.http|
    ensures 2 * i < |run.log.http| && ShowsAnswer(report.http[i], run.log.http[2 * i], run.setting.options)
    ensures 2 * i + 2 < |run.log.http| ==> LeadsToRequest(run.log.http[2 * i], run.log.http[2 * i + 2])
  {
    hide Reports, LiveRun, Authorized, Balanced, Capped, TlsRecorded, FailsForBudget, ExpectedFindings, Shows,
         RedactUrl, EndFits;
    ReportReaches(run, report);
    ResponsesOfRun(run.environment, run.setting, run.answers, run.log, report.usage.responseBytesRead, run.cutOff);
    hide ReportsLiveRun;
    var http, options := run.log.http, run.setting.options;
    assert IsHopOf(report.http[i], http[2 * i], options);
    RedactionShows(http[2 * i].url, options.showQueryValues);
    if LeadsOn(http[2 * i].answer.response) {
      RedactionShows(http[2 * i].answer.response.location.url, options.showQueryValues);
    }
    if 2 * i + 2 < |http| {
      assert Kinds(http)[2 * i + 2] == Alternation(|http|)[2 * i + 2] == HttpRequest;
      assert FollowsAt(run.environment, http, 2 * i + 2, options);
    }
  }

  predicate ShowsAnswer(hop: HttpHop, sent: Action, options: InspectionOptions) {
    && IsAnswered(sent)
    && var response := sent.answer.response;
      && Shows(hop.url, sent.url, options.showQueryValues) && hop.status == response.status
      && (hop.location.Some? <==> LeadsOn(response))
      && (LeadsOn(response) ==> Shows(hop.location.value, response.location.url, options.showQueryValues))
      && hop.returnedBodyBytes == Min(options.maxBodyBytes, |response.body.bytes|)
      && hop.bodyDigest.of == response.body.bytes[..hop.returnedBodyBytes]
      && (hop.bodyTruncated <==> |response.body.bytes| > options.maxBodyBytes)
  }

  predicate LeadsToRequest(sent: Action, next: Action) {
    && IsAnswered(sent) && LeadsOn(sent.answer.response)
    && next.Send? && next.url == sent.answer.response.location.url
  }

  /**
   * A chain succeeds exactly when its last response leads nowhere. It ends for an invalid Location exactly when that
   * response has one, and for its limit exactly when the response leads on and the chain is full.
   */
  lemma ChainEndsAsAnswered(run: Run, report: Report)
    requires ReportsLiveRun(run, report) && report.http != []
    ensures var last := 2 * (|report.http| - 1);
      && last < |run.log.http| && IsAnswered(run.log.http[last])
      && var response := run.log.http[last].answer.response;
        && (report.failedAt.None? <==> !LeadsOn(response) && !IsMisdirected(response))
        && (RedirectsEndedFor(report, InvalidRedirectLocation) <==> IsMisdirected(response))
        && (RedirectsEndedFor(report, RedirectLimitReached)
            <==> LeadsOn(response) && |report.http| == run.setting.options.maxRedirects + 1)
  {
    hide Reports, LiveRun, Authorized, Balanced, Capped, ExpectedFindings, ExpectedPhases, Reached, RedactUrl,
         TlsRecorded, FailsForBudget, TimedInsideSlots, EndFits, FollowsLocations, ChainEnded, HopsAreSends,
         RedirectsEndedFor, HttpPassed;
    var environment, setting, answers, log := run.environment, run.setting, run.answers, run.log;
    ReportReaches(run, report);
    ResponsesOfRun(environment, setting, answers, log, report.usage.responseBytesRead, run.cutOff);
    ChainOfRun(environment, setting, answers, log, report.usage.responseBytesRead, run.cutOff);
    RedirectsAreReported(run, report);
    hide ReportsLiveRun;
    LastResponseDecides(environment, answers.http.value, RedactUrl(setting.target.url, setting.options.showQueryValues),
                        log.http, setting.options);
  }

  /** The reported failure of a chain is the one that its outcome has. */
  lemma RedirectsAreReported(run: Run, report: Report)
    requires Reports(run, report) && Reached(run.setting, run.answers) == 8
    ensures var failure := run.answers.http.value.failure;
      && (report.failedAt.None? <==> failure.None?)
      && forall code :: RedirectsEndedFor(report, code) <==> failure.Some? && failure.value.code == code
  {
    ReportShows(run, report);
    FailureAfterHttp(run.setting, run.answers);
    RedirectsPhaseOf(run.setting, run.answers);
    hide Reports, ExpectedFindings, ExpectedPhases, FirstFailed, Reached, HypothesesFor, RuledOutFor, TimelessPhases;
    TimelessPhasesAreTheSame(report.phases);
  }

  lemma RedirectsPhaseOf(setting: Setting, answers: Answers)
    requires Reached(setting, answers) == 8
    ensures var phases := ExpectedPhases(setting, answers);
      |phases| == 8 && phases[6].error == answers.http.value.failure
  {
  }

  lemma LastResponseDecides(environment: Environment, outcome: HttpOutcome, first: Url, begun: seq<Action>,
                            options: InspectionOptions)
    requires ChainEnded(outcome, first, options)
    requires HopsAreSends(outcome.hops, begun, options) && Kinds(begun) == Alternation(|begun|)
    requires FollowsLocations(environment, begun, options) && |begun| <= 2 * |outcome.hops|
    requires EndFits(environment, outcome.failure, |outcome.hops|, begun, options)
    ensures var last, failure := 2 * (|outcome.hops| - 1), outcome.failure;
      && last < |begun| && IsAnswered(begun[last])
      && var response := begun[last].answer.response;
        && (failure.None? <==> !LeadsOn(response) && !IsMisdirected(response))
        && (failure.Some? && failure.value.code == InvalidRedirectLocation <==> IsMisdirected(response))
        && (failure.Some? && failure.value.code == RedirectLimitReached
            <==> LeadsOn(response) && |outcome.hops| == options.maxRedirects + 1)
  {
    hide Chain, RedactUrl, IsEndpoint, RefusalFits, LooksUp, BodyFits, HopsAreSends;
    var n, last := |outcome.hops| - 1, 2 * (|outcome.hops| - 1);
    LastHopIsAnswered(outcome.hops, begun, options);
    assert Kinds(begun)[|begun| - 1] == Alternation(|begun|)[|begun| - 1];
    if |begun| == last + 2 {
      assert FollowsAt(environment, begun, last + 1, options);
    }
  }

  lemma LastHopIsAnswered(hops: seq<HttpHop>, begun: seq<Action>, options: InspectionOptions)
    requires HopsAreSends(hops, begun, options) && hops != []
    ensures var last := 2 * (|hops| - 1);
      && last < |begun| && IsAnswered(begun[last])
      && (hops[|hops| - 1].location.Some? <==> LeadsOn(begun[last].answer.response))
  {
    assert IsHopOf(hops[|hops| - 1], begun[2 * (|hops| - 1)], options);
  }

  // ----- Resolution and selection -----

  /** A resolution depends on the set of answers only, not on their order or repeats. */
  lemma ResolutionIgnoresOrder(r: Result<Resolution>, s: Result<Resolution>, answers: seq<SocketAddr>,
                               reordered: seq<SocketAddr>, options: InspectionOptions)
    requires IsResolution(r, Some(answers), options) && IsResolution(s, Some(reordered), options)
    requires forall a :: a in answers <==> a in reordered
    ensures r == s
  {
    hide Permitted, StrictlySorted;
    assert answers != [] ==> answers[0] in reordered;
    assert reordered != [] ==> reordered[0] in answers;
    if answers != [] {
      CanonicalListIsDeterminedBySet(r.value.all, s.value.all, answers, reordered);
    }
  }

  /** The address was tried and refused. */
  ghost predicate TriedInVain(attempts: seq<Action>, address: SocketAddr) {
    exists i | 0 <= i < |attempts| :: attempts[i].Connect? && attempts[i].address == address && !attempts[i].connected
  }

  /** The least permitted answer that could be connected to. */
  ghost predicate IsLeastReachable(selected: SocketAddr, answers: seq<SocketAddr>, attempts: seq<Action>,
                                   allowPrivate: bool)
  {
    && selected in answers && IsIpPermitted(selected.ip, allowPrivate)
    && (exists i | 0 <= i < |attempts| ::
          attempts[i].Connect? && attempts[i].address == selected && attempts[i].connected)
    && (forall a | a in answers && IsIpPermitted(a.ip, allowPrivate) && Precedes(a, selected) ::
          TriedInVain(attempts, a))
  }

  lemma FirstConnectionIsLeast(resolution: Resolution, answers: seq<SocketAddr>, tcp: Result<SocketAddr>,
                               attempts: seq<Action>, options: InspectionOptions)
    requires IsResolution(Ok(resolution), Some(answers), options)
    requires ConnectionsBegun(tcp, attempts, resolution.permitted, options) && tcp.Ok?
    ensures IsLeastReachable(tcp.value, answers, attempts, options.allowPrivate)
  {
    hide IsIpPermitted, Permitted;
    var permitted, last := resolution.permitted, |attempts| - 1;
    PermittedListHoldsTheLeast(resolution.all, options.allowPrivate, options.maxAddresses);
    assert tcp.value == permitted[last] == attempts[last].address;
    forall a | a in answers && IsIpPermitted(a.ip, options.allowPrivate) && Precedes(a, tcp.value)
      ensures TriedInVain(attempts, a)
    {
      assert a in resolution.all;
      assert a in permitted;
      var i :| 0 <= i < |permitted| && permitted[i] == a;
      assert i < last;
      assert attempts[i].address == a;
    }
  }

  lemma ConnectedRun(environment: Environment, setting: Setting, answers: Answers, log: RunLog, bytesRead: nat,
                     cutOff: bool)
    requires LiveRun(environment, setting, answers, log, bytesRead, cutOff) && Reached(setting, answers) > 4
    ensures answers.dns.Ok? && answers.tcp.Ok? && log.dns != [] && log.dns[0].Lookup? && log.dns[0].answers.Some?
    ensures IsResolution(Ok(answers.dns.value), log.dns[0].answers, setting.options)
    ensures ConnectionsBegun(answers.tcp, log.tcp, answers.dns.value.permitted, setting.options)
    ensures ExpectedPhases(setting, answers)[3].observations
      == [SelectedAddress(AddressLabel(answers.tcp.value, setting.options.showAddresses))]
  {
    hide Permitted, IsCanonical, Attempts, RequestsBegun;
  }

  /** The reported address is the least of the permitted answers to the first resolution that could be reached. */
  lemma SelectedAddressIsLeast(run: Run, report: Report)
    requires ReportsLiveRun(run, report) && |report.phases| > 4
    ensures run.log.dns != [] && run.log.dns[0].Lookup? && run.log.dns[0].answers.Some? && run.answers.tcp.Ok?
    ensures IsLeastReachable(run.answers.tcp.value, run.log.dns[0].answers.value, run.log.tcp,
                             run.setting.options.allowPrivate)
    ensures report.phases[3].observations
      == [SelectedAddress(AddressLabel(run.answers.tcp.value, run.setting.options.showAddresses))]
  {
    var setting, answers := run.setting, run.answers;
    hide LiveRun, Authorized, Balanced, Capped, TimelessPhases, ExpectedFindings, ExpectedPhases, Reached,
         ConnectionsBegun, ParseTarget, ResolveProxy, Chronicle, WithoutClock, IsResolution, IsLeastReachable;
    ReportShows(run, report);
    TimelessPhasesAreTheSame(report.phases);
    ConnectedRun(run.environment, setting, answers, run.log, report.usage.responseBytesRead, run.cutOff);
    FirstConnectionIsLeast(answers.dns.value, run.log.dns[0].answers.value, answers.tcp, run.log.tcp, setting.options);
  }

  /** A run has one address until it is redirected: what connected is what the handshake and the first request use. */
  lemma FirstHopUsesSelectedAddress(run: Run, report: Report)
    requires ReportsLiveRun(run, report)
    ensures var log, tcp := run.log, run.answers.tcp;
      && (log.tls != [] || log.http != [] ==> tcp.Ok?)
      && (log.tls != [] ==> UsedAddress(log.tls[0]) == Some(tcp.value))
      && (log.http != [] ==> IsRequest(log.http[0], run.setting.target.url, run.setting.proxy, tcp.value))
  {
    hide Reports, Authorized, Balanced, Capped, IsResolution, ConnectionsBegun, ChainEnded, Chain, Kinds, Alternation,
         SumOfBodies;
  }

  predicate DeniedByPolicy(report: Report) {
    |report.phases| == 3 && report.phases[2].error == Some(AppError(NonPublicAddressDenied, false))
  }

  lemma DenialOfRun(environment: Environment, setting: Setting, answers: Answers, log: RunLog, bytesRead: nat,
                    cutOff: bool)
    requires LiveRun(environment, setting, answers, log, bytesRead, cutOff) && setting.options.maxAddresses > 0
    ensures var phases, shown := ExpectedPhases(setting, answers), ExpectedFindings(setting, answers).addresses;
      (|phases| == 3 && phases[2].error == Some(AppError(NonPublicAddressDenied, false)))
      <==> (shown != [] && forall i | 0 <= i < |shown| :: !shown[i].permitted)
  {
    hide IsIpPermitted, Permitted, ConnectionsBegun, RequestsBegun;
    if answers.dns.Ok? {
      var resolution, answered, options := answers.dns.value, log.dns[0].answers.value, setting.options;
      var shown := ExpectedFindings(setting, answers).addresses;
      PermittedListHoldsTheLeast(resolution.all, options.allowPrivate, options.maxAddresses);
      OnlyNothingIsCanonicallyEmpty(resolution.all, answered);
      assert forall i | 0 <= i < |shown| ::
        shown[i].permitted <==> IsIpPermitted(resolution.all[i].ip, options.allowPrivate);
      assert (forall a | a in resolution.all :: !IsIpPermitted(a.ip, options.allowPrivate))
        <==> forall i | 0 <= i < |shown| :: !shown[i].permitted;
    }
  }

  /** A run is denied by the address policy exactly when it observed addresses and none of them is permitted. */
  lemma DeniedExactlyWhenNothingIsPermitted(run: Run, report: Report)
    requires ReportsLiveRun(run, report)
    ensures DeniedByPolicy(report)
      <==> report.addresses != [] && forall i | 0 <= i < |report.addresses| :: !report.addresses[i].permitted
  {
    hide LiveRun, Authorized, Balanced, Capped, TimelessPhases, ExpectedFindings, ExpectedPhases,
         ParseTarget, ResolveProxy, Chronicle, WithoutClock;
    ReportShows(run, report);
    TimelessPhasesAreTheSame(report.phases);
    LiveReportShape(run, report);
    DenialOfRun(run.environment, run.setting, run.answers, run.log, report.usage.responseBytesRead, run.cutOff);
  }

  /** The places of the addresses that are shown as permitted. */
  function PermittedPlaces(shown: seq<AddressObservation>): set<nat> {
    set i: nat | i < |shown| && shown[i].permitted
  }

  lemma {:induction false} LastMayBeKept(addresses: seq<SocketAddr>, allowPrivate: bool)
    requires addresses != []
    ensures var n := |addresses| - 1;
      |KeepPermitted(addresses, allowPrivate)|
      == |KeepPermitted(addresses[..n], allowPrivate)| + if IsIpPermitted(addresses[n].ip, allowPrivate) then 1 else 0
  {
    hide IsIpPermitted;
    var n := |addresses| - 1;
    if n > 0 {
      LastMayBeKept(addresses[1..], allowPrivate);
      assert addresses[1..][..n - 1] == addresses[..n][1..];
    } else {
      assert addresses[1..] == [];
    }
  }

  lemma {:induction false} KeptByPlaces(addresses: seq<SocketAddr>, options: InspectionOptions)
    ensures |KeepPermitted(addresses, options.allowPrivate)| == |PermittedPlaces(ObserveAddresses(addresses, options))|
  {
    var shown := ObserveAddresses(addresses, options);
    if addresses == [] {
      assert PermittedPlaces(shown) == {};
    } else {
      var n := |addresses| - 1;
      KeptByPlaces(addresses[..n], options);
      LastMayBeKept(addresses, options.allowPrivate);
      hide IsIpPermitted, KeepPermitted, ClassifyIp;
      assert ObserveAddresses(addresses[..n], options) == shown[..n];
      OnePlaceMore(shown);
    }
  }

  lemma OnePlaceMore(shown: seq<AddressObservation>)
    requires shown != []
    ensures var n := |shown| - 1;
      |PermittedPlaces(shown)| == |PermittedPlaces(shown[..n])| + if shown[n].permitted then 1 else 0
  {
    var n := |shown| - 1;
    assert PermittedPlaces(shown) == PermittedPlaces(shown[..n]) + if shown[n].permitted then {n} else {};
  }

  /** The observed addresses are the distinct answers to the first resolution in order, each with its verdict. */
  lemma AnswersAreObserved(run: Run, report: Report)
    requires ReportsLiveRun(run, report) && run.log.dns != []
    ensures run.log.dns[0].Lookup?
    ensures run.log.dns[0].answers.None? ==> report.addresses == []
    ensures run.log.dns[0].answers.Some? ==>
      exists all | IsCanonical(all, run.log.dns[0].answers.value) ::
        Observes(report.addresses, all, run.setting.options)
  {
    hide LiveRun, Authorized, Balanced, Capped, TimelessPhases, ExpectedFindings, ExpectedPhases, ParseTarget,
         ResolveProxy, Chronicle, WithoutClock, IsCanonical, Observes, Reports;
    ReportShows(run, report);
    ObservationsOfRun(run.environment, run.setting, run.answers, run.log, report.usage.responseBytesRead, run.cutOff);
  }

  predicate Observes(shown: seq<AddressObservation>, all: seq<SocketAddr>, options: InspectionOptions) {
    && |shown| == |all|
    && forall i | 0 <= i < |all| ::
         && shown[i].address.address == all[i] && shown[i].address.shown == options.showAddresses
         && (shown[i].ipv6 <==> all[i].ip.V6?) && shown[i].classification == ClassifyIp(all[i].ip)
         && (shown[i].permitted <==> options.allowPrivate || shown[i].classification == Public)
  }

  lemma ObservationsOfRun(environment: Environment, setting: Setting, answers: Answers, log: RunLog, bytesRead: nat,
                          cutOff: bool)
    requires LiveRun(environment, setting, answers, log, bytesRead, cutOff) && log.dns != []
    ensures log.dns[0].Lookup?
    ensures var shown := ExpectedFindings(setting, answers).addresses;
      match log.dns[0].answers
      case None => shown == []
      case Some(found) => exists all | IsCanonical(all, found) :: Observes(shown, all, setting.options)
  {
    hide ClassifyIp, StrictlySorted, ConnectionsBegun, RequestsBegun, ExpectedPhases, Permitted;
    var answered, shown := log.dns[0].answers, ExpectedFindings(setting, answers).addresses;
    if answered.Some? {
      if answered.value == [] {
        NothingIsCanonical();
        assert Observes(shown, [], setting.options);
      } else {
        assert Observes(shown, answers.dns.value.all, setting.options);
      }
    }
  }

  lemma NothingIsCanonical()
    ensures IsCanonical([], [])
  {
  }

  /** A passed DNS phase counts the observed addresses, and those of them that are permitted, up to the limit. */
  lemma CountsAreThoseOfAddresses(run: Run, report: Report)
    requires ReportsLiveRun(run, report) && |report.phases| > 3
    ensures var permitted := |PermittedPlaces(report.addresses)|;
      && report.phases[2].observations
        == [ResolvedAddressCount(|report.addresses|),
            PermittedAddressCount(Min(permitted, run.setting.options.maxAddresses))]
  {
    hide LiveRun, Authorized, Balanced, Capped, TimelessPhases, ExpectedFindings, ExpectedPhases, ParseTarget,
         ResolveProxy, Chronicle, WithoutClock, PermittedPlaces, Reports;
    ReportShows(run, report);
    ReportedFailure(run, report);
    TimelessPhasesAreTheSame(report.phases);
    CountsOfRun(run.environment, run.setting, run.answers, run.log, report.usage.responseBytesRead, run.cutOff);
  }

  lemma CountsOfRun(environment: Environment, setting: Setting, answers: Answers, log: RunLog, bytesRead: nat,
                    cutOff: bool)
    requires LiveRun(environment, setting, answers, log, bytesRead, cutOff) && Reached(setting, answers) > 3
    ensures var shown := ExpectedFindings(setting, answers).addresses;
      ExpectedPhases(setting, answers)[2].observations
        == [ResolvedAddressCount(|shown|),
            PermittedAddressCount(Min(|PermittedPlaces(shown)|, setting.options.maxAddresses))]
  {
    hide IsIpPermitted, IsCanonical, ConnectionsBegun, RequestsBegun, PermittedPlaces, KeepPermitted;
    KeptByPlaces(answers.dns.value.all, setting.options);
  }

  /** Every request but the first is pinned to the least permitted answer of the resolution right before it. */
  lemma LaterHopsUseLeastPermitted(run: Run, report: Report, i: nat)
    requires ReportsLiveRun(run, report) && 0 < i && 2 * i < |run.log.http|
    ensures PinsLeast(run.log.http[2 * i - 1], run.log.http[2 * i], run.setting.options)
  {
    hide Reports, Authorized, Balanced, Capped, TlsRecorded, FailsForBudget;
    PinsOfRun(run.environment, run.setting, run.answers, run.log, report.usage.responseBytesRead, run.cutOff);
  }

  lemma PinsOfRun(environment: Environment, setting: Setting, answers: Answers, log: RunLog, bytesRead: nat,
                  cutOff: bool)
    requires LiveRun(environment, setting, answers, log, bytesRead, cutOff)
    ensures LaterPinsAreLeast(log.http, setting.options)
  {
    hide PinsLeast, IsResolution, Attempts, Kinds, Alternation, Chain, HopsAreSends, FollowsLocations, EndFits;
  }
}
