/** The two diagnostic backends behind one interface: the live one, and one that replays a script. */
module Backends {
  import opened Wrappers
  import opened Model
  import opened TargetPolicy
  import opened Host
  import opened Tracking
  import opened ActionLog
  import opened Live
  import opened RedirectChain
  import opened Diagnosis

  datatype HttpScript =
    | HttpFails(error: AppError)
    | HttpAnswers(statuses: seq<nat>, failure: Option<AppError>)

  /** What a scripted backend is to report; TCP success selects the first permitted address. */
  datatype Script = Script(dns: Result<Resolution>, tcp: Option<AppError>, tls: Option<AppError>, http: HttpScript)

  const SCRIPTED_TLS: TlsSummary := TlsSummary("TLSv1_3", 2)

  function ScriptedHops(statuses: seq<nat>, url: Url): seq<HttpHop> {
    seq(|statuses|, i requires 0 <= i < |statuses| =>
        HttpHop(i, url, statuses[i], 0, false, BodyDigest([]), None, None))
  }

  function ScriptedTcp(tcp: Option<AppError>, addresses: seq<SocketAddr>): Result<SocketAddr>
    requires addresses != []
  {
    if tcp.Some? then Err(tcp.value) else Ok(addresses[0])
  }

  function ScriptedTlsResult(tls: Option<AppError>): Result<TlsSummary> {
    if tls.Some? then Err(tls.value) else Ok(SCRIPTED_TLS)
  }

  function ScriptedHttp(http: HttpScript, url: Url): Result<HttpOutcome> {
    match http
    case HttpFails(error) => Err(error)
    case HttpAnswers(statuses, failure) => Ok(HttpOutcome(ScriptedHops(statuses, url), failure))
  }

  function ScriptedRecord(sequence: nat, kind: ProbeKind, outcome: Outcome): ProbeRecord {
    ProbeRecord(sequence, kind, ScriptedObservation, 0, 0, outcome)
  }

  datatype BackendKind = LiveNetwork | Scripted(script: Script)

  /** A scripted stage either got a slot, and is recorded, or found the budget gone. */
  ghost predicate StageRan(tracker: Tracker, before: seq<ProbeRecord>, granted: bool, kind: ProbeKind, outcome: Outcome)
    reads tracker, tracker.host
  {
    && tracker.Valid()
    && if granted then
         && |before| < tracker.maxProbes
         && TimelessProbes(tracker.probes) == TimelessProbes(before) + [ScriptedRecord(|before| + 1, kind, outcome)]
       else tracker.probes == before && OutOfBudget(tracker)
  }

  /** One more record, timed from before its slot was granted. */
  predicate TimedAhead(before: seq<Span>, after: seq<Span>)
    requires |after| > 0
  {
    var last := after[|after| - 1];
    after == before + [last] && last.timed <= last.slot
  }

  class Backend {
    const kind: BackendKind
    var calls: seq<Stage>

    constructor (kind: BackendKind)
      ensures this.kind == kind && calls == []
    {
      this.kind := kind;
      calls := [];
    }

    /** A scripted probe: its timing begins before its slot is granted. */
    static method RecordProbe(tracker: Tracker, kind: ProbeKind, outcome: Outcome) returns (granted: bool)
      requires tracker.Valid()
      modifies tracker`probes, tracker`spans, tracker.host`clock
      ensures old(tracker.host.clock) <= tracker.host.clock
      ensures StageRan(tracker, old(tracker.probes), granted, kind, outcome)
      ensures if granted then |tracker.spans| > 0 && TimedAhead(old(tracker.spans), tracker.spans)
              else tracker.spans == old(tracker.spans)
    {
      var timedFrom := tracker.host.Now();
      var probe, slot := tracker.StartProbe(kind, ScriptedObservation);
      if probe.Err? {
        return false;
      }
      tracker.FinishProbe(probe.value, timedFrom, outcome, slot);
      granted := true;
    }

    method ResolveStage(tracker: Tracker, proxy: ResolvedProxy, options: InspectionOptions)
      returns (r: Result<Resolution>, ghost begun: seq<Action>, ghost granted: bool)
      requires if kind.LiveNetwork? then Sound(tracker, options) else tracker.Valid()
      modifies this`calls, tracker`probes, tracker`spans, tracker.host`clock, tracker.host`actions
      ensures calls == old(calls) + [DnsStage] && old(tracker.host.clock) <= tracker.host.clock
      ensures tracker.host.actions == old(tracker.host.actions) + begun
      ensures kind.LiveNetwork? ==> Sound(tracker, options) && ResolutionBegun(r, begun, proxy, options)
      ensures kind.LiveNetwork? && r == Err(EXHAUSTED) ==> OutOfBudget(tracker)
      ensures kind.LiveNetwork? && old(Authorized(tracker.host.environment, options, tracker.host.actions))
        ==> Authorized(tracker.host.environment, options, tracker.host.actions)
      ensures kind.LiveNetwork? && begun != [] ==> LastLookup(tracker.host.actions) == Some(begun[0])
      ensures kind.Scripted? ==> begun == [] && r == (if granted then kind.script.dns else Err(EXHAUSTED))
      ensures kind.Scripted? && old(TimedBeforeSlots(tracker.spans)) ==> TimedBeforeSlots(tracker.spans)
      ensures kind.Scripted? ==> StageRan(tracker, old(tracker.probes), granted, DnsLookup,
                                          if kind.script.dns.Ok? then Resolved else Outcome.Failed)
    {
      hide Sound, CutOff, StageRan, Authorized, LastLookup, IsResolution, Attempts, Chain, ChainEnded;
      calls := calls + [DnsStage];
      begun, granted := [], false;
      match kind {
        case LiveNetwork =>
          r, begun := ResolveAddresses(tracker, proxy, options);
        case Scripted(script) =>
          var recorded := RecordProbe(tracker, DnsLookup, if script.dns.Ok? then Resolved else Outcome.Failed);
          granted := recorded;
          r := if recorded then script.dns else Err(EXHAUSTED);
      }
    }

    method ConnectStage(tracker: Tracker, addresses: seq<SocketAddr>, options: InspectionOptions)
      returns (r: Result<SocketAddr>, ghost begun: seq<Action>, ghost granted: bool)
      requires addresses != [] && options.budgetMs > 0
      requires if kind.LiveNetwork? then Sound(tracker, options) else tracker.Valid()
      modifies this`calls, tracker`probes, tracker`spans, tracker.host`clock, tracker.host`actions
      ensures calls == old(calls) + [TcpStage] && old(tracker.host.clock) <= tracker.host.clock
      ensures tracker.host.actions == old(tracker.host.actions) + begun
      ensures kind.LiveNetwork? ==> Sound(tracker, options) && ConnectionsBegun(r, begun, addresses, options)
      ensures kind.LiveNetwork? && r == Err(EXHAUSTED) ==> OutOfBudget(tracker)
      ensures kind.LiveNetwork? && (forall a | a in addresses :: old(MayUse(tracker.host, options, a)))
        ==> forall a | a in addresses :: MayUse(tracker.host, options, a)
      ensures kind.Scripted? ==> begun == []
      ensures kind.Scripted? ==> r == if granted then ScriptedTcp(kind.script.tcp, addresses) else Err(EXHAUSTED)
      ensures kind.Scripted? && granted ==>
        r == match kind.script.tcp case Some(error) => Err(error) case None => Ok(addresses[0])
      ensures kind.Scripted? && old(TimedBeforeSlots(tracker.spans)) ==> TimedBeforeSlots(tracker.spans)
      ensures kind.Scripted? ==> StageRan(tracker, old(tracker.probes), granted, TcpConnect,
                                          if kind.script.tcp.None? then Connected else Outcome.Failed)
    {
      hide Sound, CutOff, StageRan, Authorized, LastLookup, IsResolution, Attempts, Chain, ChainEnded;
      calls := calls + [TcpStage];
      begun, granted := [], false;
      match kind {
        case LiveNetwork =>
          r, begun := ConnectFirst(tracker, addresses, options);
        case Scripted(script) =>
          var recorded := RecordProbe(tracker, TcpConnect, if script.tcp.None? then Connected else Outcome.Failed);
          granted := recorded;
          r := if recorded then ScriptedTcp(script.tcp, addresses) else Err(EXHAUSTED);
      }
    }

    method TlsStageOn(tracker: Tracker, address: SocketAddr, serverHost: string, options: InspectionOptions)
      returns (r: Result<TlsSummary>, ghost begun: seq<Action>, ghost granted: bool)
      requires options.budgetMs > 0
      requires if kind.LiveNetwork? then Sound(tracker, options) else tracker.Valid()
      modifies this`calls, tracker`probes, tracker`spans, tracker.host`clock, tracker.host`actions
      ensures calls == old(calls) + [TlsStage] && old(tracker.host.clock) <= tracker.host.clock
      ensures tracker.host.actions == old(tracker.host.actions) + begun
      ensures kind.LiveNetwork? ==> HandshakeBegun(tracker, r, begun, address, options)
      ensures kind.LiveNetwork? && r == Err(EXHAUSTED) ==> OutOfBudget(tracker)
      ensures kind.LiveNetwork? && old(MayUse(tracker.host, options, address))
        ==> MayUse(tracker.host, options, address)
      ensures kind.Scripted? ==> begun == []
      ensures kind.Scripted? ==> r == if granted then ScriptedTlsResult(kind.script.tls) else Err(EXHAUSTED)
      ensures kind.Scripted? && granted ==>
        r == match kind.script.tls case Some(error) => Err(error) case None => Ok(TlsSummary("TLSv1_3", 2))
      ensures kind.Scripted? && old(TimedBeforeSlots(tracker.spans)) ==> TimedBeforeSlots(tracker.spans)
      ensures kind.Scripted? ==> StageRan(tracker, old(tracker.probes), granted, TlsHandshake,
                                          if kind.script.tls.None? then Validated else Outcome.Failed)
    {
      hide Sound, CutOff, StageRan, Authorized, LastLookup, IsResolution, Attempts, Chain, ChainEnded;
      calls := calls + [TlsStage];
      begun, granted := [], false;
      match kind {
        case LiveNetwork =>
          r, begun := ProbeTls(tracker, address, serverHost, options);
        case Scripted(script) =>
          var recorded := RecordProbe(tracker, TlsHandshake, if script.tls.None? then Validated else Outcome.Failed);
          granted := recorded;
          r := if recorded then ScriptedTlsResult(script.tls) else Err(EXHAUSTED);
      }
    }

    method HttpStageOn(tracker: Tracker, url: Url, proxy: ResolvedProxy, address: SocketAddr,
                       options: InspectionOptions)
      returns (r: Result<HttpOutcome>, ghost begun: seq<Action>, ghost refused: seq<ClientRefusal>,
               ghost completed: seq<HttpHop>, ghost granted: bool)
      requires ValidOptions(options) && tracker.responseBytesRead == 0
      requires if kind.LiveNetwork? then Sound(tracker, options) else tracker.Valid()
      modifies this`calls, tracker`probes, tracker`spans, tracker`responseBytesRead, tracker.host
      ensures tracker.host.refusals == old(tracker.host.refusals) + refused
      ensures calls == old(calls) + [HttpStage] && old(tracker.host.clock) <= tracker.host.clock
      ensures tracker.host.actions == old(tracker.host.actions) + begun
      ensures kind.LiveNetwork? ==> Extends(old(tracker.probes), tracker.probes)
      ensures kind.LiveNetwork? && HttpFailure(r) == Some(EXHAUSTED) ==> OutOfBudget(tracker)
      ensures kind.LiveNetwork? ==>
        && Sound(tracker, options)
        && RequestsBegun(tracker.host.environment, r, begun, refused, completed, tracker.responseBytesRead, url, proxy,
                         address, options)
      ensures kind.LiveNetwork? && old(MayRequest(tracker.host, options, url, proxy, address))
        ==> Authorized(tracker.host.environment, options, tracker.host.actions)
      ensures kind.Scripted? ==> begun == [] && refused == [] && tracker.responseBytesRead == 0
      ensures kind.Scripted? ==> r == if granted then ScriptedHttp(kind.script.http, url) else Err(EXHAUSTED)
      ensures kind.Scripted? && granted ==> AnswersScript(r, kind.script.http, url)
      ensures kind.Scripted? && old(TimedBeforeSlots(tracker.spans)) ==> TimedBeforeSlots(tracker.spans)
      ensures kind.Scripted? ==> StageRan(tracker, old(tracker.probes), granted, HttpRequest,
                                          if kind.script.http.HttpAnswers? then ResponseReceived else Outcome.Failed)
    {
      hide Sound, CutOff, StageRan, Authorized, LastLookup, IsResolution, Attempts, Chain, ChainEnded;
      calls := calls + [HttpStage];
      begun, refused, completed, granted := [], [], [], false;
      match kind {
        case LiveNetwork =>
          r, begun, refused, completed := RunHttp(tracker, url, proxy, address, options);
        case Scripted(script) =>
          var recorded := RecordProbe(tracker, HttpRequest,
                                      if script.http.HttpAnswers? then ResponseReceived else Outcome.Failed);
          granted := recorded;
          r := if recorded then ScriptedHttp(script.http, url) else Err(EXHAUSTED);
      }
    }
  }

  // ----- What the script says of the requests -----

  /** The scripted error, or one bodiless hop for each scripted status and the scripted failure. */
  predicate AnswersScript(r: Result<HttpOutcome>, http: HttpScript, url: Url) {
    match http
    case HttpFails(error) => r == Err(error)
    case HttpAnswers(statuses, failure) =>
      && r.Ok? && r.value.failure == failure && |r.value.hops| == |statuses|
      && forall i | 0 <= i < |statuses| ::
           var hop := r.value.hops[i];
           hop.sequence == i && hop.url == url && hop.status == statuses[i] && hop.returnedBodyBytes == 0
           && hop.location.None?
  }

  // ----- What the live stages begin, as relations on values -----

  ghost predicate ResolutionBegun(r: Result<Resolution>, begun: seq<Action>, proxy: ResolvedProxy,
                                  options: InspectionOptions) {
    && |begun| <= 1
    && (begun == [] ==> r == Err(EXHAUSTED))
    && (begun != [] ==> begun[0].Lookup? && IsResolution(r, begun[0].answers, options)
                        && begun[0].host == proxy.connectHost && begun[0].port == proxy.connectPort)
  }

  ghost predicate ConnectionsBegun(r: Result<SocketAddr>, begun: seq<Action>, addresses: seq<SocketAddr>,
                                   options: InspectionOptions) {
    && Attempts(begun, addresses) && |begun| <= options.maxAddresses
    && (r.Ok? <==> begun != [] && begun[|begun| - 1].connected)
    && (r.Ok? ==> r.value == begun[|begun| - 1].address)
    && (r.Err? ==>
          || (r.error == AppError(TcpConnectFailed, true) && |begun| == Min(|addresses|, options.maxAddresses))
          || (r.error == EXHAUSTED && |begun| < Min(|addresses|, options.maxAddresses)))
  }

  ghost predicate HandshakeBegun(tracker: Tracker, r: Result<TlsSummary>, begun: seq<Action>, address: SocketAddr,
                                 options: InspectionOptions)
    reads tracker, tracker.host
  {
    && |begun| <= 1
    && (begun != [] ==> begun[0].TlsConnect? && begun[0].address == address
                        && (r.Ok? ==> begun[0].dialogue.summary == Some(r.value)))
    && (begun == [] ==> Sound(tracker, options) && r == Err(EXHAUSTED))
    && (begun != [] ==>
          || (Sound(tracker, options) && tracker.probes != []
              && TlsEndedWith(r, tracker.probes[|tracker.probes| - 1].outcome))
          || (CutOff(tracker, options) && r == Err(EXHAUSTED)))
  }
}
