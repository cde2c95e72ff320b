/** The world outside the engine: a monotone clock and an untrusted network, with a log of what was asked of it. */
module Host {
  import opened Wrappers
  import opened Model
  import opened TargetPolicy

  const NANOS_PER_MILLI: nat := 1_000_000
  const U64_MAX: nat := 0xffff_ffff_ffff_ffff

  /** Whole milliseconds in a span of nanoseconds, clamped to 64 bits. */
  function Millis(nanos: nat): nat {
    Clamp(nanos / NANOS_PER_MILLI)
  }

  function Clamp(value: nat): nat {
    if value <= U64_MAX then value else U64_MAX
  }

  function Min(a: nat, b: nat): nat {
    if a <= b then a else b
  }

  /** A client whose host name is pinned to one address, with its connect and total timeout. */
  datatype HttpClient = HttpClient(pinnedHost: string, pinnedAddress: SocketAddr, via: Option<Url>, timeout: nat)

  /** A wait on the network: its timeout, the time to the deadline that was read for it, and the instant it begins. */
  datatype Wait = Wait(timeout: nat, left: nat, begin: nat)

  /** A wait on the socket of a handshake, begun after the deadline was tested. */
  datatype SocketWait = SocketWait(timeout: nat, tested: nat, begin: nat)

  datatype LocationHeader = NoLocation | InvalidLocation | NextUrl(url: Url)

  /** A response body: the bytes it delivers, then its end or a break. */
  datatype Body = Body(bytes: seq<Byte>, breaks: bool)

  datatype Response = Response(status: nat, location: LocationHeader, body: Body)

  /** How a request failed: by its timeout, while it was connecting, both or neither. */
  datatype SendFailure = SendFailure(timedOut: bool, connecting: bool)

  datatype SendResult = Answered(response: Response) | SendFailed(failure: SendFailure)

  /**
   * What was asked about a handshake once it was connected, as far as it got: whether the name can be used, whether
   * the client could be set up, how many exchanges it takes, whether each was accepted, and what they agreed on.
   */
  datatype Dialogue = Dialogue(
    name: Option<bool>,
    client: Option<bool>,
    rounds: Option<nat>,
    accepted: seq<bool>,
    summary: Option<TlsSummary>)

  const NOTHING_ASKED: Dialogue := Dialogue(None, None, None, [], None)

  /** One network action, as begun by the engine, with its waits and what came of it. */
  datatype Action =
    | Lookup(host: string, port: nat, answers: Option<seq<SocketAddr>>)
    | Connect(address: SocketAddr, wait: Wait, connected: bool)
    | TlsConnect(address: SocketAddr, wait: Wait, connected: bool, exchanges: seq<SocketWait>, dialogue: Dialogue)
    | Send(client: HttpClient, url: Url, wait: Wait, answer: SendResult)

  /** Why there is no client for a request: its proxy could not be configured, or it could not be built. */
  datatype ClientRefusal = ProxyRefused | ClientRefused

  class Host {
    const environment: Environment
    var clock: nat
    ghost var actions: seq<Action>
    ghost var refusals: seq<ClientRefusal>
    ghost var configured: set<Url>
    ghost var clients: set<HttpClient>

    constructor (environment: Environment, instant: nat)
      ensures this.environment == environment && clock == instant
      ensures actions == [] && refusals == [] && configured == {} && clients == {}
    {
      this.environment := environment;
      clock := instant;
      actions, refusals, configured, clients := [], [], {}, {};
    }

    method Now() returns (instant: nat)
      modifies this`clock
      ensures instant == clock && old(clock) <= clock
    {
      var elapsed: nat :| 0 <= elapsed;
      clock := clock + elapsed;
      instant := clock;
    }

    method LookupAddresses(host: string, port: nat) returns (answers: Option<seq<SocketAddr>>)
      modifies this`clock, this`actions
      ensures old(clock) <= clock && actions == old(actions) + [Lookup(host, port, answers)]
    {
      answers := *;
      actions := actions + [Lookup(host, port, answers)];
      var _ := Now();
    }

    method TryConnect(address: SocketAddr, timeout: nat, ghost left: nat) returns (connected: bool, ghost wait: Wait)
      modifies this`clock, this`actions
      ensures wait == Wait(timeout, left, wait.begin) && old(clock) <= wait.begin <= clock
      ensures actions == old(actions) + [Connect(address, wait, connected)]
    {
      var begin := Now();
      connected, wait := *, Wait(timeout, left, begin);
      actions := actions + [Connect(address, wait, connected)];
      var _ := Now();
    }

    method TryTlsConnect(address: SocketAddr, timeout: nat, ghost left: nat) returns (connected: bool, ghost wait: Wait)
      modifies this`clock, this`actions
      ensures wait == Wait(timeout, left, wait.begin) && old(clock) <= wait.begin <= clock
      ensures actions == old(actions) + [TlsConnect(address, wait, connected, [], NOTHING_ASKED)]
    {
      var begin := Now();
      connected, wait := *, Wait(timeout, left, begin);
      actions := actions + [TlsConnect(address, wait, connected, [], NOTHING_ASKED)];
      var _ := Now();
    }

    /** Whether requests can be sent through this proxy. */
    method ConfiguresProxy(via: Url) returns (accepted: bool)
      modifies this`refusals, this`configured
      ensures refusals == (if accepted then old(refusals) else old(refusals) + [ProxyRefused])
      ensures configured == if accepted then old(configured) + {via} else old(configured)
    {
      accepted := *;
      if accepted {
        configured := configured + {via};
      } else {
        refusals := refusals + [ProxyRefused];
      }
    }

    /** A client of this kind, if it can be built. */
    method BuildsClient(client: HttpClient) returns (built: bool)
      requires client.via.Some? ==> client.via.value in configured
      modifies this`refusals, this`clients
      ensures refusals == (if built then old(refusals) else old(refusals) + [ClientRefused])
      ensures clients == if built then old(clients) + {client} else old(clients)
    {
      built := *;
      if built {
        clients := clients + {client};
      } else {
        refusals := refusals + [ClientRefused];
      }
    }

    /** Only a client that was built sends requests. */
    method SendRequest(client: HttpClient, url: Url, ghost left: nat) returns (result: SendResult, ghost wait: Wait)
      requires client in clients
      modifies this`clock, this`actions
      ensures wait == Wait(client.timeout, left, wait.begin) && old(clock) <= wait.begin <= clock
      ensures actions == old(actions) + [Send(client, url, wait, result)]
    {
      var begin := Now();
      result, wait := *, Wait(client.timeout, left, begin);
      actions := actions + [Send(client, url, wait, result)];
      var _ := Now();
    }

    /** The handshake begun last. */
    ghost predicate HasHandshake()
      reads this
    {
      actions != [] && actions[|actions| - 1].TlsConnect?
    }

    /** The log, had it gone on with this handshake. */
    ghost function GoneOn(handshake: Action): seq<Action>
      requires HasHandshake()
      reads this
    {
      actions[..|actions| - 1] + [handshake]
    }

    ghost function LastAction(): Action
      requires HasHandshake()
      reads this
    {
      actions[|actions| - 1]
    }

    /** Whether the host can be represented as a server name. */
    method AcceptsServerName() returns (accepted: bool)
      requires HasHandshake()
      modifies this`actions
      ensures var last := old(LastAction());
        actions == old(GoneOn(last.(dialogue := last.dialogue.(name := Some(accepted)))))
    {
      accepted := *;
      ghost var last := LastAction();
      actions := GoneOn(last.(dialogue := last.dialogue.(name := Some(accepted))));
    }

    /** Whether the TLS client could be set up. */
    method SetsUpTlsClient() returns (accepted: bool)
      requires HasHandshake()
      modifies this`actions
      ensures var last := old(LastAction());
        actions == old(GoneOn(last.(dialogue := last.dialogue.(client := Some(accepted)))))
    {
      accepted := *;
      ghost var last := LastAction();
      actions := GoneOn(last.(dialogue := last.dialogue.(client := Some(accepted))));
    }

    /** How many exchanges the handshake takes if none of them fails. */
    method HandshakeRounds() returns (rounds: nat)
      requires HasHandshake()
      modifies this`actions
      ensures var last := old(LastAction());
        actions == old(GoneOn(last.(dialogue := last.dialogue.(rounds := Some(rounds)))))
    {
      rounds :| 0 <= rounds;
      ghost var last := LastAction();
      actions := GoneOn(last.(dialogue := last.dialogue.(rounds := Some(rounds))));
    }

    /** One exchange of the handshake: any number of waits on its socket, then success or failure. */
    method Exchange(timeout: nat, ghost tested: nat) returns (accepted: bool, ghost waits: seq<SocketWait>)
      requires HasHandshake()
      modifies this`clock, this`actions
      ensures old(clock) <= clock
      ensures var last := old(LastAction());
        actions == old(GoneOn(last.(exchanges := last.exchanges + waits,
                                    dialogue := last.dialogue.(accepted := last.dialogue.accepted + [accepted]))))
      ensures forall i | 0 <= i < |waits| ::
        waits[i] == SocketWait(timeout, tested, waits[i].begin) && old(clock) <= waits[i].begin <= clock
    {
      accepted, waits := *, [];
      var number: nat :| 0 <= number;
      for i := 0 to number
        invariant old(clock) <= clock && actions == old(actions)
        invariant forall k | 0 <= k < |waits| ::
          waits[k] == SocketWait(timeout, tested, waits[k].begin) && old(clock) <= waits[k].begin <= clock
      {
        var begin := Now();
        waits := waits + [SocketWait(timeout, tested, begin)];
      }
      var _ := Now();
      ghost var last := LastAction();
      actions := GoneOn(last.(exchanges := last.exchanges + waits,
                              dialogue := last.dialogue.(accepted := last.dialogue.accepted + [accepted])));
    }

    /** What a completed handshake agreed on. */
    method Negotiated() returns (summary: TlsSummary)
      requires HasHandshake()
      modifies this`actions
      ensures var last := old(LastAction());
        actions == old(GoneOn(last.(dialogue := last.dialogue.(summary := Some(summary)))))
    {
      summary := *;
      ghost var last := LastAction();
      actions := GoneOn(last.(dialogue := last.dialogue.(summary := Some(summary))));
    }
  }
}
