/** The live probes: resolution, connection, TLS and HTTP with manual redirects (src/engine.rs). */
module Live {
  import opened AddressPolicy
  import opened Wrappers
  import opened Model
  import opened TargetPolicy
  import opened Host
  import opened Tracking
  import opened ActionLog
  import opened Resolver

  const SECOND: nat := 1000 * NANOS_PER_MILLI

  datatype Resolution = Resolution(all: seq<SocketAddr>, permitted: seq<SocketAddr>)

  /** The chronicle holds, was timed inside its slots, and describes the log and its waits action by action. */
  ghost predicate Sound(tracker: Tracker, options: InspectionOptions)
    reads tracker, tracker.host
  {
    && tracker.Valid() && TimedInsideSlots(tracker.spans)
    && Balanced(tracker.probes, tracker.host.actions, options)
    && Capped(tracker.host.actions, tracker.spans, tracker.started, tracker.deadline)
    && tracker.deadline == tracker.started + options.budgetMs * NANOS_PER_MILLI
    && tracker.maxProbes == options.maxProbes
  }

  /** Reading the clock leaves the tracker as it is. */
  method Instant(tracker: Tracker, options: InspectionOptions) returns (instant: nat)
    modifies tracker.host`clock
    ensures old(tracker.host.clock) <= tracker.host.clock == instant
    ensures old(tracker.Valid()) ==> tracker.Valid()
    ensures old(Sound(tracker, options)) ==> Sound(tracker, options)
  {
    instant := tracker.host.Now();
  }

  ghost predicate OutOfBudget(tracker: Tracker)
    reads tracker, tracker.host
  {
    |tracker.probes| >= tracker.maxProbes || tracker.deadline <= tracker.host.clock
  }

  /** The log is authorized, and its latest resolution offers this address. */
  ghost predicate MayUse(host: Host, options: InspectionOptions, address: SocketAddr)
    reads host
  {
    && Authorized(host.environment, options, host.actions)
    && Offers(LastLookup(host.actions), address, options)
  }

  /** The probe's action is in the log, begun inside its slot, and only its record is missing. */
  ghost predicate Begun(tracker: Tracker, options: InspectionOptions, probe: ActiveProbe, timedFrom: nat, slot: nat)
    reads tracker, tracker.host
  {
    var recorded := |tracker.probes|;
    && tracker.Valid() && TimedInsideSlots(tracker.spans)
    && |tracker.host.actions| == recorded + 1
    && Balanced(tracker.probes, tracker.host.actions[..recorded], options)
    && Capped(tracker.host.actions, tracker.spans, tracker.started, tracker.deadline)
    && ReadsInside(tracker.host.actions[recorded], Span(slot, timedFrom, tracker.host.clock), tracker.deadline)
    && tracker.deadline == tracker.started + options.budgetMs * NANOS_PER_MILLI
    && tracker.maxProbes == options.maxProbes
    && slot <= timedFrom && tracker.Continues(tracker.spans, tracker.host.clock, probe, timedFrom, slot, recorded)
  }

  /**
   * The probe got the next slot after `entry`, an instant at which the tracker was sound, and its action has been
   * begun since.
   */
  lemma ProbeBegins(tracker: Tracker, options: InspectionOptions, probe: ActiveProbe, timedFrom: nat, slot: nat,
                    before: seq<Action>, entry: nat)
    requires Chronicle(tracker.probes, tracker.spans, tracker.started, entry) && TimedInsideSlots(tracker.spans)
    requires Balanced(tracker.probes, before, options)
    requires Capped(before, tracker.spans, tracker.started, tracker.deadline)
    requires tracker.deadline == tracker.started + options.budgetMs * NANOS_PER_MILLI
    requires tracker.maxProbes == options.maxProbes && |tracker.probes| < tracker.maxProbes
    requires tracker.started <= entry <= slot <= timedFrom <= tracker.host.clock
    requires probe.sequence == |tracker.probes| + 1 && probe.startedMs == Millis(slot - tracker.started)
    requires |tracker.host.actions| == |before| + 1 && tracker.host.actions[..|before|] == before
    requires var action := tracker.host.actions[|before|];
      && ReadsAfter(action, entry, tracker.deadline) && WaitsInOrder(action, tracker.deadline)
      && ReadsInside(action, Span(slot, timedFrom, tracker.host.clock), tracker.deadline)
    ensures Begun(tracker, options, probe, timedFrom, slot)
  {
    hide TimedInsideSlots, ReadsInside, WaitsInOrder, Capped, Describes;
    CappedBegins(before, tracker.spans, tracker.started, tracker.deadline, tracker.host.actions[|before|]);
    assert tracker.host.actions == before + [tracker.host.actions[|before|]];
  }

  /** Finishes a begun probe with an outcome that describes its action. */
  method Finish(tracker: Tracker, options: InspectionOptions, probe: ActiveProbe, timedFrom: nat, outcome: Outcome,
                ghost slot: nat)
    requires Begun(tracker, options, probe, timedFrom, slot)
    requires Describes(ProbeRecord(0, probe.kind, probe.destination, 0, 0, outcome),
                       tracker.host.actions[|tracker.probes|], options)
    modifies tracker`probes, tracker`spans, tracker.host`clock
    ensures Sound(tracker, options) && old(tracker.host.clock) <= tracker.host.clock
    ensures |tracker.probes| == |old(tracker.probes)| + 1 && Extends(old(tracker.probes), tracker.probes)
    ensures tracker.probes[|tracker.probes| - 1].outcome == outcome
  {
    hide Capped;
    ghost var actions, spans := tracker.host.actions, tracker.spans;
    tracker.FinishProbe(probe, timedFrom, outcome, slot);
    CappedFinishes(actions, spans, tracker.started, tracker.deadline, Span(slot, timedFrom, tracker.host.clock));
  }

  const EXHAUSTED: AppError := AppError(BudgetExhausted, true)

  /** What an answer of the resolver makes of a resolution. */
  ghost predicate IsResolution(r: Result<Resolution>, answers: Option<seq<SocketAddr>>, options: InspectionOptions) {
    match answers
    case None => r == Err(AppError(DnsResolutionFailed, true))
    case Some(found) =>
      if found == [] then r == Err(AppError(DnsEmptyAnswer, true))
      else
        && r.Ok? && IsCanonical(r.value.all, found)
        && r.value.permitted == Permitted(r.value.all, options.allowPrivate, options.maxAddresses)
  }

  lemma PermittedComesFromAnswers(resolution: Resolution, answers: Option<seq<SocketAddr>>, options: InspectionOptions,
                                  i: nat)
    requires IsResolution(Ok(resolution), answers, options) && i < |resolution.permitted|
    ensures answers.Some? && resolution.permitted[i] in answers.value
    ensures IsIpPermitted(resolution.permitted[i].ip, options.allowPrivate)
  {
    assert resolution.permitted[i] in KeepPermitted(resolution.all, options.allowPrivate);
  }

  method ResolveAddresses(tracker: Tracker, proxy: ResolvedProxy, options: InspectionOptions)
    returns (r: Result<Resolution>, ghost begun: seq<Action>)
    requires Sound(tracker, options)
    modifies tracker`probes, tracker`spans, tracker.host`clock, tracker.host`actions
    ensures Sound(tracker, options) && old(tracker.host.clock) <= tracker.host.clock
    ensures tracker.host.actions == old(tracker.host.actions) + begun && |begun| <= 1
    ensures Extends(old(tracker.probes), tracker.probes)
    ensures begun == [] ==> r == Err(EXHAUSTED)
    ensures r == Err(EXHAUSTED) ==> OutOfBudget(tracker)
    ensures begun != [] ==> begun[0].Lookup? && IsResolution(r, begun[0].answers, options)
    ensures begun != [] ==> begun[0].host == proxy.connectHost && begun[0].port == proxy.connectPort
    ensures old(Authorized(tracker.host.environment, options, tracker.host.actions))
      ==> Authorized(tracker.host.environment, options, tracker.host.actions)
    ensures begun != [] ==> LastLookup(tracker.host.actions) == Some(begun[0])
  {
    hide Authorized, LastLookup, IsIpPermitted, Millis, Capped, Chronicle, TimedInsideSlots, Balanced;
    var host := tracker.host;
    begun := [];
    var started, slot := tracker.StartProbe(DnsLookup, Endpoint(proxy.connectHost, proxy.connectPort));
    if started.Err? {
      return Err(started.error), begun;
    }
    var timedFrom := Instant(tracker, options);
    ghost var before := host.actions;
    var answers := host.LookupAddresses(proxy.connectHost, proxy.connectPort);
    begun := [Lookup(proxy.connectHost, proxy.connectPort, answers)];
    ProbeBegins(tracker, options, started.value, timedFrom, slot, before, old(host.clock));
    LookupIsAuthorized(host.environment, options, before, begun[0]);
    if answers.None? {
      Finish(tracker, options, started.value, timedFrom, Outcome.Failed, slot);
      return Err(AppError(DnsResolutionFailed, true)), begun;
    }
    var all := Canonicalize(answers.value);
    Finish(tracker, options, started.value, timedFrom, Resolved, slot);
    OnlyNothingIsCanonicallyEmpty(all, answers.value);
    if all == [] {
      return Err(AppError(DnsEmptyAnswer, true)), begun;
    }
    r := Ok(Resolution(all, Permitted(all, options.allowPrivate, options.maxAddresses)));
  }

  /** A run of connection attempts on the first addresses of a list, all failed but possibly the last. */
  ghost predicate Attempts(actions: seq<Action>, addresses: seq<SocketAddr>) {
    && |actions| <= |addresses|
    && (forall i | 0 <= i < |actions| :: actions[i].Connect? && actions[i].address == addresses[i])
    && (forall i | 0 <= i < |actions| - 1 :: !actions[i].connected)
  }

  /** One connection attempt; nothing is attempted, or recorded, once the budget is gone. */
  method AttemptConnection(tracker: Tracker, address: SocketAddr, options: InspectionOptions)
    returns (r: Result<bool>, ghost begun: Option<Action>)
    requires Sound(tracker, options) && options.budgetMs > 0
    modifies tracker`probes, tracker`spans, tracker.host`clock, tracker.host`actions
    ensures Sound(tracker, options) && old(tracker.host.clock) <= tracker.host.clock
    ensures r.Err? ==> r.error == EXHAUSTED && OutOfBudget(tracker)
    ensures r.Err? ==> tracker.host.actions == old(tracker.host.actions)
    ensures r.Ok? ==> begun.Some? && tracker.host.actions == old(tracker.host.actions) + [begun.value]
    ensures r.Ok? ==> begun.value.Connect? && begun.value.address == address && begun.value.connected == r.value
    ensures r.Ok? ==> WithinLimits(begun.value.wait, 5, options)
    ensures old(MayUse(tracker.host, options, address)) ==> MayUse(tracker.host, options, address)
    ensures LastLookup(tracker.host.actions) == LastLookup(old(tracker.host.actions))
  {
    hide Authorized, LastLookup, IsIpPermitted, Millis, Capped, Chronicle, TimedInsideSlots, Balanced;
    var host := tracker.host;
    begun := None;
    var started, slot := tracker.StartProbe(TcpConnect, Peer(AddressLabel(address, options.showAddresses)));
    if started.Err? {
      return Err(started.error), begun;
    }
    var timedFrom := Instant(tracker, options);
    var left := tracker.Remaining();
    if left.Err? {
      return Err(left.error), begun;
    }
    var timeout := Min(left.value, 5 * SECOND);
    ghost var before := host.actions;
    var connected, wait := host.TryConnect(address, timeout, left.value);
    begun := Some(Connect(address, wait, connected));
    ProbeBegins(tracker, options, started.value, timedFrom, slot, before, old(host.clock));
    NonLookupKeepsLatest(before, begun.value);
    if old(MayUse(host, options, address)) {
      AuthorizedAppend(host.environment, options, before, begun.value);
    }
    Finish(tracker, options, started.value, timedFrom, if connected then Connected else Outcome.Failed, slot);
    r := Ok(connected);
  }

  method ConnectFirst(tracker: Tracker, addresses: seq<SocketAddr>, options: InspectionOptions)
    returns (r: Result<SocketAddr>, ghost attempts: seq<Action>)
    requires Sound(tracker, options) && options.budgetMs > 0
    modifies tracker`probes, tracker`spans, tracker.host`clock, tracker.host`actions
    ensures Sound(tracker, options) && old(tracker.host.clock) <= tracker.host.clock
    ensures tracker.host.actions == old(tracker.host.actions) + attempts
    ensures Attempts(attempts, addresses) && |attempts| <= options.maxAddresses
    ensures r.Ok? <==> attempts != [] && attempts[|attempts| - 1].connected
    ensures r.Ok? ==> r.value == attempts[|attempts| - 1].address
    ensures r.Err? ==>
      || (r.error == AppError(TcpConnectFailed, true) && |attempts| == Min(|addresses|, options.maxAddresses))
      || (r.error == EXHAUSTED && OutOfBudget(tracker) && |attempts| < Min(|addresses|, options.maxAddresses))
    ensures (forall a | a in addresses :: old(MayUse(tracker.host, options, a)))
        ==> forall a | a in addresses :: MayUse(tracker.host, options, a)
  {
    hide Sound, Balanced, Authorized, LastLookup;
    var host := tracker.host;
    attempts := [];
    for i := 0 to Min(|addresses|, options.maxAddresses)
      invariant Sound(tracker, options) && old(host.clock) <= host.clock
      invariant |attempts| == i && Attempts(attempts, addresses)
      invariant host.actions == old(host.actions) + attempts
      invariant attempts != [] ==> !attempts[i - 1].connected
      invariant (forall a | a in addresses :: old(MayUse(host, options, a)))
          ==> forall a | a in addresses :: MayUse(host, options, a)
    {
      var connected, begun := AttemptConnection(tracker, addresses[i], options);
      if connected.Err? {
        return Err(connected.error), attempts;
      }
      attempts := attempts + [begun.value];
      if connected.value {
        return Ok(addresses[i]), attempts;
      }
    }
    r := Err(AppError(TcpConnectFailed, true));
  }

  /** A TLS attempt that the deadline cut off inside the handshake: begun, never recorded. */
  ghost predicate CutOff(tracker: Tracker, options: InspectionOptions)
    reads tracker, tracker.host
  {
    var recorded := |tracker.probes|;
    && tracker.Valid() && TimedInsideSlots(tracker.spans)
    && recorded < tracker.maxProbes == options.maxProbes
    && |tracker.host.actions| == recorded + 1
    && Balanced(tracker.probes, tracker.host.actions[..recorded], options)
    && Capped(tracker.host.actions, tracker.spans, tracker.started, tracker.deadline)
    && tracker.host.actions[recorded].TlsConnect? && tracker.host.actions[recorded].connected
    && IsUnfinished(tracker.host.actions[recorded].dialogue)
    && WaitsBy(tracker.host.actions[recorded], tracker.host.clock)
    && tracker.deadline == tracker.started + options.budgetMs * NANOS_PER_MILLI <= tracker.host.clock
  }

  predicate TlsEndedWith(r: Result<TlsSummary>, outcome: Outcome) {
    match outcome
    case TcpFailed => r == Err(AppError(TlsTransportFailed, true))
    case InvalidServerName => r == Err(AppError(InvalidTlsServerName, false))
    case ConfigurationFailed => r == Err(AppError(TlsConfigurationFailed, false))
    case HandshakeFailed => r == Err(AppError(TlsHandshakeFailed, false))
    case Validated => r.Ok?
    case _ => false
  }

  method ProbeTls(tracker: Tracker, address: SocketAddr, serverHost: string, options: InspectionOptions)
    returns (r: Result<TlsSummary>, ghost begun: seq<Action>)
    requires Sound(tracker, options) && options.budgetMs > 0
    modifies tracker`probes, tracker`spans, tracker.host`clock, tracker.host`actions
    ensures old(tracker.host.clock) <= tracker.host.clock
    ensures tracker.host.actions == old(tracker.host.actions) + begun && |begun| <= 1
    ensures begun != [] ==> begun[0].TlsConnect? && begun[0].address == address
    ensures begun != [] ==> WithinLimits(begun[0].wait, 7, options)
    ensures begun != [] && r.Ok? ==> begun[0].dialogue.summary == Some(r.value)
    ensures begun == [] ==> Sound(tracker, options) && r == Err(EXHAUSTED)
    ensures r == Err(EXHAUSTED) ==> OutOfBudget(tracker)
    ensures begun != [] ==>
      || (Sound(tracker, options) && tracker.probes != []
          && TlsEndedWith(r, tracker.probes[|tracker.probes| - 1].outcome))
      || (CutOff(tracker, options) && r == Err(EXHAUSTED))
    ensures old(MayUse(tracker.host, options, address)) ==> MayUse(tracker.host, options, address)
  {
    hide Authorized, LastLookup, IsIpPermitted, Millis, Capped, Chronicle, TimedInsideSlots, Balanced;
    var host := tracker.host;
    begun := [];
    var started, slot := tracker.StartProbe(TlsHandshake, Peer(AddressLabel(address, options.showAddresses)));
    if started.Err? {
      return Err(started.error), begun;
    }
    var timedFrom := Instant(tracker, options);
    var left := tracker.Remaining();
    if left.Err? {
      return Err(left.error), begun;
    }
    var timeout := Min(left.value, 7 * SECOND);
    ghost var before := host.actions;
    var connected, wait := host.TryTlsConnect(address, timeout, left.value);
    begun := [TlsConnect(address, wait, connected, [], NOTHING_ASKED)];
    ProbeBegins(tracker, options, started.value, timedFrom, slot, before, old(host.clock));
    hide CutOff, TlsEndedWith;
    r := Handshake(tracker, options, started.value, timedFrom, slot, connected, timeout);
    begun := [host.actions[|before|]];
    assert host.actions == before + begun;
    NonLookupKeepsLatest(before, begun[0]);
    if old(MayUse(host, options, address)) {
      AuthorizedAppend(host.environment, options, before, begun[0]);
    }
    CutOffIsOutOfBudget(tracker, options);
  }

  lemma CutOffIsOutOfBudget(tracker: Tracker, options: InspectionOptions)
    ensures CutOff(tracker, options) ==> OutOfBudget(tracker)
  {
  }

  /** The probe is of the TLS connection begun last, whose socket has this timeout. */
  ghost predicate AwaitsOutcome(tracker: Tracker, options: InspectionOptions, probe: ActiveProbe, timeout: nat)
    reads tracker, tracker.host
  {
    && |tracker.probes| < |tracker.host.actions| && probe.kind == TlsHandshake
    && var begun := tracker.host.actions[|tracker.probes|];
      && begun.TlsConnect? && begun.wait.timeout == timeout
      && probe.destination == Peer(AddressLabel(begun.address, options.showAddresses))
  }

  /** The log is as it was, but for how its last action, the handshake, has gone on. */
  predicate GoesOn(before: seq<Action>, after: seq<Action>) {
    && |before| == |after| > 0
    && (forall i | 0 <= i < |before| - 1 :: after[i] == before[i])
    && before[|before| - 1].TlsConnect? && after[|before| - 1].TlsConnect?
    && var last, later := before[|before| - 1], after[|before| - 1];
       later == last.(exchanges := later.exchanges, dialogue := later.dialogue)
  }

  /** The dialogue of the handshake begun last. */
  ghost function Asked(tracker: Tracker): Dialogue
    reads tracker, tracker.host
  {
    var n := |tracker.probes|;
    if n < |tracker.host.actions| && tracker.host.actions[n].TlsConnect? then tracker.host.actions[n].dialogue
    else NOTHING_ASKED
  }

  /** The rest of the TLS probe, once its transport connection has been tried. */
  method Handshake(tracker: Tracker, options: InspectionOptions, probe: ActiveProbe, timedFrom: nat, ghost slot: nat,
                   connected: bool, timeout: nat)
    returns (r: Result<TlsSummary>)
    requires Begun(tracker, options, probe, timedFrom, slot) && AwaitsOutcome(tracker, options, probe, timeout)
    requires tracker.host.actions[|tracker.probes|].connected == connected && Asked(tracker) == NOTHING_ASKED
    modifies tracker`probes, tracker`spans, tracker.host`clock, tracker.host`actions
    ensures old(tracker.host.clock) <= tracker.host.clock && GoesOn(old(tracker.host.actions), tracker.host.actions)
    ensures
      || (Sound(tracker, options) && tracker.probes != []
          && TlsEndedWith(r, tracker.probes[|tracker.probes| - 1].outcome))
      || (CutOff(tracker, options) && r == Err(EXHAUSTED))
    ensures r == Err(EXHAUSTED) ==> CutOff(tracker, options)
    ensures r.Ok? ==> var last := tracker.host.actions[|tracker.host.actions| - 1];
      last.TlsConnect? && last.dialogue.summary == Some(r.value)
  {
    hide Begun, CutOff, Sound, Extends;
    var host := tracker.host;
    HandshakeIsLast(tracker, options, probe, timedFrom, slot);
    if !connected {
      Finish(tracker, options, probe, timedFrom, TcpFailed, slot);
      return Err(AppError(TlsTransportFailed, true));
    }
    var nameAccepted := AskName(tracker, options, probe, timedFrom, slot);
    if !nameAccepted {
      Finish(tracker, options, probe, timedFrom, InvalidServerName, slot);
      return Err(AppError(InvalidTlsServerName, false));
    }
    var clientReady := AskClient(tracker, options, probe, timedFrom, slot);
    if !clientReady {
      Finish(tracker, options, probe, timedFrom, ConfigurationFailed, slot);
      return Err(AppError(TlsConfigurationFailed, false));
    }
    r := Negotiate(tracker, options, probe, timedFrom, slot, timeout);
  }

  /** What the handshake goes on with, be it waits begun by now after a test before the deadline, leaves it begun. */
  lemma DialogueGoesOn(tracker: Tracker, options: InspectionOptions, probe: ActiveProbe, timedFrom: nat, slot: nat,
                       before: seq<Action>, waits: seq<SocketWait>, earlier: nat)
    requires Chronicle(tracker.probes, tracker.spans, tracker.started, earlier) && TimedInsideSlots(tracker.spans)
    requires |tracker.probes| <= tracker.maxProbes && tracker.started <= earlier <= tracker.host.clock
    requires |before| == |tracker.probes| + 1 && GoesOn(before, tracker.host.actions)
    requires var last := before[|tracker.probes|];
      && tracker.host.actions[|tracker.probes|].exchanges == last.exchanges + waits && last.connected
      && (forall i | 0 <= i < |waits| ::
            IsExchangeWait(waits[i], last.wait, tracker.deadline) && waits[i].begin <= tracker.host.clock)
    requires Balanced(tracker.probes, before[..|tracker.probes|], options)
    requires Capped(before, tracker.spans, tracker.started, tracker.deadline)
    requires ReadsInside(before[|tracker.probes|], Span(slot, timedFrom, earlier), tracker.deadline)
    requires tracker.deadline == tracker.started + options.budgetMs * NANOS_PER_MILLI
    requires tracker.maxProbes == options.maxProbes && slot <= timedFrom
    requires tracker.Continues(tracker.spans, earlier, probe, timedFrom, slot, |tracker.probes|)
    ensures Begun(tracker, options, probe, timedFrom, slot)
  {
    var n, actions, span := |tracker.probes|, tracker.host.actions, Span(slot, timedFrom, earlier);
    ChronicleStays(tracker.probes, tracker.spans, tracker.started, earlier, tracker.host.clock);
    hide Balanced, TimedInsideSlots, Chronicle;
    LastIsInOrder(before, tracker.spans, tracker.started, tracker.deadline);
    MoreWaits(before[n], waits, span, tracker.host.clock, tracker.deadline);
    hide ReadsInside, WaitsInOrder, IsExchangeWait;
    CappedGoesOn(before, actions, tracker.spans, tracker.started, tracker.deadline);
    assert actions[..n] == before[..n];
    hide Capped;
  }

  ghost predicate IsConnected(tracker: Tracker)
    reads tracker, tracker.host
  {
    var n := |tracker.probes|;
    n < |tracker.host.actions| && tracker.host.actions[n].TlsConnect? && tracker.host.actions[n].connected
  }

  /** Whether the name is accepted; the probe stays begun. */
  method AskName(tracker: Tracker, options: InspectionOptions, probe: ActiveProbe, timedFrom: nat, ghost slot: nat)
    returns (accepted: bool)
    requires Begun(tracker, options, probe, timedFrom, slot) && IsConnected(tracker)
    modifies tracker.host`actions
    ensures Begun(tracker, options, probe, timedFrom, slot) && GoesOn(old(tracker.host.actions), tracker.host.actions)
    ensures Asked(tracker) == old(Asked(tracker)).(name := Some(accepted))
  {
    hide Chronicle, TimedInsideSlots, Balanced, Capped, ReadsInside;
    accepted := tracker.host.AcceptsServerName();
    DialogueGoesOn(tracker, options, probe, timedFrom, slot, old(tracker.host.actions), [], tracker.host.clock);
  }

  /** Whether the client could be set up. */
  method AskClient(tracker: Tracker, options: InspectionOptions, probe: ActiveProbe, timedFrom: nat, ghost slot: nat)
    returns (ready: bool)
    requires Begun(tracker, options, probe, timedFrom, slot) && IsConnected(tracker)
    modifies tracker.host`actions
    ensures Begun(tracker, options, probe, timedFrom, slot) && GoesOn(old(tracker.host.actions), tracker.host.actions)
    ensures Asked(tracker) == old(Asked(tracker)).(client := Some(ready))
  {
    hide Chronicle, TimedInsideSlots, Balanced, Capped, ReadsInside;
    ready := tracker.host.SetsUpTlsClient();
    DialogueGoesOn(tracker, options, probe, timedFrom, slot, old(tracker.host.actions), [], tracker.host.clock);
  }

  /** How many exchanges the handshake takes. */
  method AskRounds(tracker: Tracker, options: InspectionOptions, probe: ActiveProbe, timedFrom: nat, ghost slot: nat)
    returns (rounds: nat)
    requires Begun(tracker, options, probe, timedFrom, slot) && IsConnected(tracker)
    modifies tracker.host`actions
    ensures Begun(tracker, options, probe, timedFrom, slot) && GoesOn(old(tracker.host.actions), tracker.host.actions)
    ensures Asked(tracker) == old(Asked(tracker)).(rounds := Some(rounds))
  {
    hide Chronicle, TimedInsideSlots, Balanced, Capped, ReadsInside;
    rounds := tracker.host.HandshakeRounds();
    DialogueGoesOn(tracker, options, probe, timedFrom, slot, old(tracker.host.actions), [], tracker.host.clock);
  }

  /** What the handshake agreed on. */
  method AskSummary(tracker: Tracker, options: InspectionOptions, probe: ActiveProbe, timedFrom: nat, ghost slot: nat)
    returns (summary: TlsSummary)
    requires Begun(tracker, options, probe, timedFrom, slot) && IsConnected(tracker)
    modifies tracker.host`actions
    ensures Begun(tracker, options, probe, timedFrom, slot) && GoesOn(old(tracker.host.actions), tracker.host.actions)
    ensures Asked(tracker) == old(Asked(tracker)).(summary := Some(summary))
  {
    hide Chronicle, TimedInsideSlots, Balanced, Capped, ReadsInside;
    summary := tracker.host.Negotiated();
    DialogueGoesOn(tracker, options, probe, timedFrom, slot, old(tracker.host.actions), [], tracker.host.clock);
  }

  lemma HandshakeIsLast(tracker: Tracker, options: InspectionOptions, probe: ActiveProbe, timedFrom: nat, slot: nat)
    requires Begun(tracker, options, probe, timedFrom, slot)
    ensures |tracker.host.actions| == |tracker.probes| + 1
  {
  }

  /** The steps of the handshake, as long as the deadline allows; their waits keep the timeout of the connection. */
  method Negotiate(tracker: Tracker, options: InspectionOptions, probe: ActiveProbe, timedFrom: nat, ghost slot: nat,
                   timeout: nat)
    returns (r: Result<TlsSummary>)
    requires Begun(tracker, options, probe, timedFrom, slot) && AwaitsOutcome(tracker, options, probe, timeout)
    requires tracker.host.actions[|tracker.probes|].connected
    requires Asked(tracker) == NOTHING_ASKED.(name := Some(true), client := Some(true))
    modifies tracker`probes, tracker`spans, tracker.host`clock, tracker.host`actions
    ensures old(tracker.host.clock) <= tracker.host.clock && GoesOn(old(tracker.host.actions), tracker.host.actions)
    ensures
      || (Sound(tracker, options) && tracker.probes != []
          && TlsEndedWith(r, tracker.probes[|tracker.probes| - 1].outcome))
      || (CutOff(tracker, options) && r == Err(EXHAUSTED))
    ensures r == Err(EXHAUSTED) ==> CutOff(tracker, options)
    ensures r.Ok? ==> var last := tracker.host.actions[|tracker.host.actions| - 1];
      last.TlsConnect? && last.dialogue.summary == Some(r.value)
  {
    hide Begun, CutOff, Sound, Extends;
    var host := tracker.host;
    HandshakeIsLast(tracker, options, probe, timedFrom, slot);
    var rounds := AskRounds(tracker, options, probe, timedFrom, slot);
    while rounds > 0
      invariant old(host.clock) <= host.clock && Begun(tracker, options, probe, timedFrom, slot)
      invariant tracker.probes == old(tracker.probes) && IsConnected(tracker)
      invariant GoesOn(old(host.actions), host.actions) && AwaitsOutcome(tracker, options, probe, timeout)
      invariant Asked(tracker).rounds == Some(|Asked(tracker).accepted| + rounds)
      invariant GoesWell(Asked(tracker)) && Asked(tracker).summary.None?
    {
      var exchanged := ExchangeOnce(tracker, options, probe, timedFrom, slot, timeout);
      if exchanged.Err? {
        return Err(exchanged.error);
      }
      if !exchanged.value {
        Finish(tracker, options, probe, timedFrom, HandshakeFailed, slot);
        return Err(AppError(TlsHandshakeFailed, false));
      }
      rounds := rounds - 1;
    }
    var summary := AskSummary(tracker, options, probe, timedFrom, slot);
    Finish(tracker, options, probe, timedFrom, Validated, slot);
    r := Ok(summary);
  }

  /** One exchange, after a test of the deadline. */
  method ExchangeOnce(tracker: Tracker, options: InspectionOptions, probe: ActiveProbe, timedFrom: nat, ghost slot: nat,
                      timeout: nat)
    returns (r: Result<bool>)
    requires Begun(tracker, options, probe, timedFrom, slot) && AwaitsOutcome(tracker, options, probe, timeout)
    requires tracker.host.actions[|tracker.probes|].connected && IsUnfinished(Asked(tracker))
    modifies tracker.host`clock, tracker.host`actions
    ensures old(tracker.host.clock) <= tracker.host.clock && GoesOn(old(tracker.host.actions), tracker.host.actions)
    ensures Begun(tracker, options, probe, timedFrom, slot) && AwaitsOutcome(tracker, options, probe, timeout)
    ensures match r
      case Ok(accepted) => var asked := old(Asked(tracker));
        Asked(tracker) == asked.(accepted := asked.accepted + [accepted])
      case Err(error) => error == EXHAUSTED && CutOff(tracker, options)
  {
    hide Chronicle, TimedInsideSlots, Balanced, Millis, Capped;
    var left := tracker.Remaining();
    if left.Err? {
      return Err(left.error);
    }
    assert left.value > 0;  // the source's own test for a zero remainder never succeeds
    ghost var before, tested := tracker.host.actions, tracker.host.clock;
    var exchanged, waits := tracker.host.Exchange(timeout, tested);
    DialogueGoesOn(tracker, options, probe, timedFrom, slot, before, waits, tested);
    r := Ok(exchanged);
  }
}
