/** What the log of network actions says about authorization, probe records and their order. */
module ActionLog {
  import opened AddressPolicy
  import opened Wrappers
  import opened Model
  import opened TargetPolicy
  import opened Host
  import opened Tracking

  function KindOf(action: Action): ProbeKind {
    match action
    case Lookup(_, _, _) => DnsLookup
    case Connect(_, _, _) => TcpConnect
    case TlsConnect(_, _, _, _, _) => TlsHandshake
    case Send(_, _, _, _) => HttpRequest
  }

  function Kinds(actions: seq<Action>): (kinds: seq<ProbeKind>)
    ensures |kinds| == |actions|
  {
    seq(|actions|, i requires 0 <= i < |actions| => KindOf(actions[i]))
  }

  function RecordedKinds(probes: seq<ProbeRecord>): (kinds: seq<ProbeKind>)
    ensures |kinds| == |probes|
  {
    seq(|probes|, i requires 0 <= i < |probes| => probes[i].kind)
  }

  /** The record tells the kind, the destination and the outcome of the action. */
  predicate Describes(record: ProbeRecord, action: Action, options: InspectionOptions) {
    && record.kind == KindOf(action)
    && match action
       case Lookup(host, port, answers) =>
         record.destination == Endpoint(host, port)
         && record.outcome == (if answers.Some? then Resolved else Outcome.Failed)
       case Connect(address, _, connected) =>
         record.destination == Peer(AddressLabel(address, options.showAddresses))
         && record.outcome == (if connected then Connected else Outcome.Failed)
       case TlsConnect(address, _, connected, _, dialogue) =>
         record.destination == Peer(AddressLabel(address, options.showAddresses))
         && EndsWithOutcome(connected, dialogue, record.outcome)
       case Send(_, url, _, answer) =>
         record.destination == Page(RedactUrl(url, options.showQueryValues))
         && record.outcome == (if answer.Answered? then ResponseReceived else RequestFailed)
  }

  /** The name and the client were accepted, and so was every exchange so far. */
  predicate GoesWell(dialogue: Dialogue) {
    && dialogue.name == Some(true) && dialogue.client == Some(true) && dialogue.rounds.Some?
    && forall i | 0 <= i < |dialogue.accepted| :: dialogue.accepted[i]
  }

  /** All went well, to the last of the exchanges that the handshake takes. */
  predicate Completes(dialogue: Dialogue) {
    GoesWell(dialogue) && |dialogue.accepted| == dialogue.rounds.value && dialogue.summary.Some?
  }

  /** All has gone well, but exchanges are missing. */
  predicate IsUnfinished(dialogue: Dialogue) {
    GoesWell(dialogue) && |dialogue.accepted| < dialogue.rounds.value && dialogue.summary.None?
  }

  /** The handshake ended at the first thing that was refused, or completed. */
  predicate EndsWithOutcome(connected: bool, dialogue: Dialogue, outcome: Outcome) {
    match outcome
    case TcpFailed => !connected && dialogue == NOTHING_ASKED
    case InvalidServerName => connected && dialogue == NOTHING_ASKED.(name := Some(false))
    case ConfigurationFailed => connected && dialogue == NOTHING_ASKED.(name := Some(true), client := Some(false))
    case HandshakeFailed =>
      && connected && dialogue.name == Some(true) && dialogue.client == Some(true) && dialogue.rounds.Some?
      && 0 < |dialogue.accepted| <= dialogue.rounds.value && dialogue.summary.None?
      && !dialogue.accepted[|dialogue.accepted| - 1]
      && forall i | 0 <= i < |dialogue.accepted| - 1 :: dialogue.accepted[i]
    case Validated => connected && Completes(dialogue)
    case _ => false
  }

  /** One record for every action begun, in order. */
  ghost predicate Balanced(probes: seq<ProbeRecord>, actions: seq<Action>, options: InspectionOptions) {
    && |probes| == |actions|
    && forall i | 0 <= i < |actions| :: Describes(probes[i], actions[i], options)
  }

  lemma BalancedKinds(probes: seq<ProbeRecord>, actions: seq<Action>, options: InspectionOptions)
    requires Balanced(probes, actions, options)
    ensures RecordedKinds(probes) == Kinds(actions)
  {
  }

  // ----- When waits are timed and when they begin -----

  /** The time left to an action was read at or after this instant. */
  predicate ReadsAfter(action: Action, instant: nat, deadline: nat) {
    !action.Lookup? ==> instant + action.wait.left <= deadline
  }

  /** The wait began at or after the time left was read; those of a handshake each after a test before the deadline. */
  predicate WaitsInOrder(action: Action, deadline: nat) {
    && (!action.Lookup? ==> deadline <= action.wait.begin + action.wait.left)
    && (action.TlsConnect? && action.exchanges != [] ==> action.connected)
    && (action.TlsConnect? ==>
          forall i | 0 <= i < |action.exchanges| :: IsExchangeWait(action.exchanges[i], action.wait, deadline))
  }

  /** The socket keeps the timeout that was read before its connection was made. */
  predicate IsExchangeWait(exchange: SocketWait, connection: Wait, deadline: nat) {
    && exchange.timeout == connection.timeout
    && connection.begin <= exchange.tested <= exchange.begin && exchange.tested < deadline
  }

  /** All waits of the action have begun by this instant. */
  predicate WaitsBy(action: Action, instant: nat) {
    && (!action.Lookup? ==> action.wait.begin <= instant)
    && (action.TlsConnect? ==> forall i | 0 <= i < |action.exchanges| :: action.exchanges[i].begin <= instant)
  }

  /**
   * The waits began inside the action's own span. The time left was read inside it too, but for a request before
   * its slot was granted.
   */
  predicate ReadsInside(action: Action, span: Span, deadline: nat) {
    && WaitsBy(action, span.until)
    && match action
       case Lookup(_, _, _) => true
       case Connect(_, wait, _) => span.timed + wait.left <= deadline
       case TlsConnect(_, wait, _, _, _) => span.timed + wait.left <= deadline
       case Send(_, _, wait, _) => deadline <= span.slot + wait.left && span.timed <= wait.begin
  }

  /** The last wait of a handshake is not the end of it: there may be more, each after a test before the deadline. */
  lemma MoreWaits(action: Action, waits: seq<SocketWait>, span: Span, until: nat, deadline: nat)
    requires action.TlsConnect? && action.connected && span.until <= until
    requires WaitsInOrder(action, deadline) && ReadsInside(action, span, deadline)
    requires forall i | 0 <= i < |waits| ::
      IsExchangeWait(waits[i], action.wait, deadline) && waits[i].begin <= until
    ensures forall dialogue ::
      var later := action.(exchanges := action.exchanges + waits, dialogue := dialogue);
      WaitsInOrder(later, deadline) && ReadsInside(later, span.(until := until), deadline)
  {
  }

  /** The waits of every action are in order, and its time left was read after the record of the action before it. */
  ghost predicate Capped(actions: seq<Action>, spans: seq<Span>, started: nat, deadline: nat) {
    && |spans| <= |actions|
    && (forall i | 0 <= i < |actions| ::
          ReadsAfter(actions[i], started, deadline) && WaitsInOrder(actions[i], deadline))
    && (forall i | 0 <= i < |spans| :: ReadsInside(actions[i], spans[i], deadline))
    && (forall i | 0 < i <= |spans| && i < |actions| :: ReadsAfter(actions[i], spans[i - 1].until, deadline))
  }

  lemma CappedBegins(actions: seq<Action>, spans: seq<Span>, started: nat, deadline: nat, action: Action)
    requires Capped(actions, spans, started, deadline) && |spans| == |actions|
    requires ReadsAfter(action, started, deadline) && WaitsInOrder(action, deadline)
    requires spans != [] ==> ReadsAfter(action, spans[|spans| - 1].until, deadline)
    ensures Capped(actions + [action], spans, started, deadline)
  {
    hide ReadsAfter, ReadsInside, WaitsInOrder;
  }

  lemma LastIsInOrder(actions: seq<Action>, spans: seq<Span>, started: nat, deadline: nat)
    requires Capped(actions, spans, started, deadline) && actions != []
    ensures WaitsInOrder(actions[|actions| - 1], deadline)
  {
  }

  /** The last action, not yet recorded, goes on with the same reading. */
  lemma CappedGoesOn(actions: seq<Action>, later: seq<Action>, spans: seq<Span>, started: nat, deadline: nat)
    requires Capped(actions, spans, started, deadline) && |actions| == |spans| + 1 == |later|
    requires forall i | 0 <= i < |spans| :: later[i] == actions[i]
    requires var n := |spans|;
      && !actions[n].Lookup? && !later[n].Lookup? && later[n].wait == actions[n].wait
      && WaitsInOrder(later[n], deadline)
    ensures Capped(later, spans, started, deadline)
  {
    var n := |spans|;
    SameReading(actions[n], later[n], deadline);
    hide ReadsAfter, ReadsInside, WaitsInOrder;
    forall i | 0 <= i < |later| ensures ReadsAfter(later[i], started, deadline) && WaitsInOrder(later[i], deadline) {
      assert ReadsAfter(actions[i], started, deadline);
    }
    forall i | 0 < i <= n ensures ReadsAfter(later[i], spans[i - 1].until, deadline) {
      assert ReadsAfter(actions[i], spans[i - 1].until, deadline);
    }
  }

  lemma SameReading(action: Action, later: Action, deadline: nat)
    requires !action.Lookup? && !later.Lookup? && later.wait == action.wait
    ensures forall instant: nat :: ReadsAfter(action, instant, deadline) ==> ReadsAfter(later, instant, deadline)
  {
  }

  lemma CappedFinishes(actions: seq<Action>, spans: seq<Span>, started: nat, deadline: nat, span: Span)
    requires Capped(actions, spans, started, deadline) && |actions| == |spans| + 1
    requires ReadsInside(actions[|spans|], span, deadline)
    ensures Capped(actions, spans + [span], started, deadline)
  {
    hide ReadsAfter, ReadsInside, WaitsInOrder;
  }

  // ----- Records and resolutions -----

  /** Records are only ever added. */
  predicate Extends(before: seq<ProbeRecord>, after: seq<ProbeRecord>) {
    before <= after
  }

  lemma ExtendsItself(probes: seq<ProbeRecord>)
    ensures Extends(probes, probes)
  {
  }

  lemma ExtendsTransitively(first: seq<ProbeRecord>, second: seq<ProbeRecord>, third: seq<ProbeRecord>)
    requires Extends(first, second) && Extends(second, third)
    ensures Extends(first, third)
  {
  }

  /** The most recent resolution in the log. */
  function LastLookup(actions: seq<Action>): (lookup: Option<Action>)
    ensures lookup.Some? ==> lookup.value.Lookup?
  {
    if actions == [] then None
    else if actions[|actions| - 1].Lookup? then Some(actions[|actions| - 1])
    else LastLookup(actions[..|actions| - 1])
  }

  /** The resolution answered with this address, and policy permits it. */
  predicate Offers(lookup: Option<Action>, address: SocketAddr, options: InspectionOptions) {
    && lookup.Some? && lookup.value.Lookup? && lookup.value.answers.Some?
    && address in lookup.value.answers.value
    && IsIpPermitted(address.ip, options.allowPrivate)
  }

  /** The timeout is the time left, never zero and never more than the budget, capped to a number of seconds. */
  predicate WithinLimits(wait: Wait, seconds: nat, options: InspectionOptions) {
    && 0 < wait.left <= options.budgetMs * NANOS_PER_MILLI
    && wait.timeout == Min(wait.left, seconds * 1000 * NANOS_PER_MILLI)
  }

  /**
   * Every address used was offered by the latest resolution; a request moreover is for a URL that the target
   * policy accepts, and goes to the host, port and proxy that the proxy policy selects for it. Every
   * timeout is the time left when it was read, capped by its kind.
   */
  predicate StepAuthorized(environment: Environment, options: InspectionOptions, lookup: Option<Action>, action: Action)
    requires lookup.Some? ==> lookup.value.Lookup?
  {
    match action
    case Lookup(_, _, _) => true
    case Connect(address, wait, _) => Offers(lookup, address, options) && WithinLimits(wait, 5, options)
    case TlsConnect(address, wait, _, _, _) => Offers(lookup, address, options) && WithinLimits(wait, 7, options)
    case Send(client, url, wait, _) =>
      && Offers(lookup, client.pinnedAddress, options) && WithinLimits(wait, 10, options)
      && wait.timeout == client.timeout
      && SelectedFor(environment, options, url, client.pinnedHost, lookup.value.port, client.via)
      && ParseTarget(Some(url), options).Ok?
      && lookup.value.host == client.pinnedHost
  }

  predicate SelectedFor(environment: Environment, options: InspectionOptions, url: Url,
                        host: string, port: nat, via: Option<Url>) {
    var selected := ResolveProxy(environment, url, options);
    selected.Ok? && selected.value.connectHost == host && selected.value.connectPort == port
    && selected.value.url == via
  }

  ghost predicate Authorized(environment: Environment, options: InspectionOptions, actions: seq<Action>) {
    actions == [] ||
      var front, last := actions[..|actions| - 1], actions[|actions| - 1];
      Authorized(environment, options, front) && StepAuthorized(environment, options, LastLookup(front), last)
  }

  lemma AuthorizedAppend(environment: Environment, options: InspectionOptions, actions: seq<Action>, action: Action)
    requires Authorized(environment, options, actions)
    requires StepAuthorized(environment, options, LastLookup(actions), action)
    ensures Authorized(environment, options, actions + [action])
    ensures LastLookup(actions + [action]) == if action.Lookup? then Some(action) else LastLookup(actions)
  {
    assert (actions + [action])[..|actions|] == actions;
  }

  lemma LookupIsAuthorized(environment: Environment, options: InspectionOptions, actions: seq<Action>, action: Action)
    requires action.Lookup?
    ensures Authorized(environment, options, actions) ==> Authorized(environment, options, actions + [action])
    ensures LastLookup(actions + [action]) == Some(action)
  {
    assert (actions + [action])[..|actions|] == actions;
  }

  lemma NonLookupKeepsLatest(actions: seq<Action>, action: Action)
    requires !action.Lookup?
    ensures LastLookup(actions + [action]) == LastLookup(actions)
  {
    assert (actions + [action])[..|actions|] == actions;
  }

  lemma {:induction false} NonLookupsKeepLatest(actions: seq<Action>, more: seq<Action>)
    requires forall i | 0 <= i < |more| :: !more[i].Lookup?
    ensures LastLookup(actions + more) == LastLookup(actions)
  {
    if more == [] {
      assert actions + more == actions;
    } else {
      var n := |more| - 1;
      NonLookupsKeepLatest(actions, more[..n]);
      NonLookupKeepsLatest(actions + more[..n], more[n]);
      assert actions + more == actions + more[..n] + [more[n]];
    }
  }

  /** In an authorized log every single action is authorized by the resolution that precedes it. */
  lemma {:induction false} EveryActionIsAuthorized(environment: Environment, options: InspectionOptions,
                                                   actions: seq<Action>, i: nat)
    requires Authorized(environment, options, actions) && i < |actions|
    ensures StepAuthorized(environment, options, LastLookup(actions[..i]), actions[i])
  {
    var n := |actions| - 1;
    if i < n {
      EveryActionIsAuthorized(environment, options, actions[..n], i);
      assert actions[..n][..i] == actions[..i];
    }
  }

  /** The latest resolution is in the log, and no later one is. */
  lemma {:induction false} LastLookupIsLatest(actions: seq<Action>)
    ensures LastLookup(actions).None? ==> forall j | 0 <= j < |actions| :: !actions[j].Lookup?
    ensures LastLookup(actions).Some? ==> exists j | 0 <= j < |actions| ::
      actions[j] == LastLookup(actions).value && forall k | j < k < |actions| :: !actions[k].Lookup?
  {
    if actions != [] {
      var n := |actions| - 1;
      if actions[n].Lookup? {
        assert actions[n] == LastLookup(actions).value;
      } else {
        LastLookupIsLatest(actions[..n]);
        if LastLookup(actions).Some? {
          var j :| 0 <= j < n && actions[..n][j] == LastLookup(actions).value
            && forall k | j < k < n :: !actions[..n][k].Lookup?;
          assert actions[j] == LastLookup(actions).value;
          assert forall k | j < k < |actions| :: !actions[k].Lookup? by {
            assert forall k | j < k < n :: actions[k] == actions[..n][k];
          }
        }
      }
    }
  }
}
