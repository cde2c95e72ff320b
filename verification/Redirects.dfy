/** The bounded HTTP request and its manually followed redirects (src/engine.rs, `run_http`). */
module RedirectChain {
  import opened AddressPolicy
  import opened Wrappers
  import opened Model
  import opened TargetPolicy
  import opened Host
  import opened Tracking
  import opened ActionLog
  import opened Resolver
  import opened Live

  /** The hops kept, and why the chain ended early if it did. */
  datatype HttpOutcome = HttpOutcome(hops: seq<HttpHop>, failure: Option<AppError>)

  datatype HopStep = HopStep(hop: HttpHop, next: Option<Url>, failure: Option<AppError>)

  predicate IsRedirection(status: nat) {
    300 <= status <= 399
  }

  /** The URL is acceptable, the latest resolution is of the endpoint selected for it, and it offers this address. */
  ghost predicate MayRequest(host: Host, options: InspectionOptions, url: Url, proxy: ResolvedProxy,
                             address: SocketAddr)
    reads host
  {
    && MayUse(host, options, address)
    && LastLookup(host.actions).value.host == proxy.connectHost
    && LastLookup(host.actions).value.port == proxy.connectPort
    && SelectedFor(host.environment, options, url, proxy.connectHost, proxy.connectPort, proxy.url)
    && ParseTarget(Some(url), options).Ok?
  }

  method BuildHttpClient(tracker: Tracker, proxy: ResolvedProxy, address: SocketAddr)
    returns (r: Result<HttpClient>, ghost left: nat, ghost refused: seq<ClientRefusal>)
    modifies tracker.host`clock, tracker.host`refusals, tracker.host`configured, tracker.host`clients
    ensures old(tracker.host.clock) <= tracker.host.clock && (old(tracker.Valid()) ==> tracker.Valid())
    ensures tracker.host.refusals == old(tracker.host.refusals) + refused
    ensures r.Ok? ==> refused == [] && r.value in tracker.host.clients
    ensures r.Err? ==> NoRequestFits(r.error, refused)
    ensures refused != [] && refused[0].ProxyRefused? ==> proxy.url.Some?
    ensures r.Ok? ==> 0 < left && old(tracker.host.clock) + left <= tracker.deadline <= tracker.host.clock + left
    ensures r.Ok? ==> r.value == HttpClient(proxy.connectHost, address, proxy.url, Min(left, 10 * SECOND))
    ensures r.Err? && r.error == EXHAUSTED ==> tracker.deadline <= tracker.host.clock
  {
    var host := tracker.host;
    left, refused := 0, [];
    var remaining := tracker.Remaining();
    if remaining.Err? {
      return Err(remaining.error), left, refused;
    }
    left := remaining.value;
    var timeout := Min(remaining.value, 10 * SECOND);
    if proxy.url.Some? {
      var configured := host.ConfiguresProxy(proxy.url.value);
      if !configured {
        return Err(AppError(ProxyConfigurationRejected, false)), left, [ProxyRefused];
      }
    }
    var client := HttpClient(proxy.connectHost, address, proxy.url, timeout);
    var built := host.BuildsClient(client);
    if !built {
      return Err(AppError(HttpClientInitializationFailed, false)), left, [ClientRefused];
    }
    r := Ok(client);
  }

  /** No request was begun, for what was refused or for want of budget. */
  predicate NoRequestFits(error: AppError, refused: seq<ClientRefusal>) {
    if refused == [] then error == EXHAUSTED
    else if refused == [ProxyRefused] then error == AppError(ProxyConfigurationRejected, false)
    else refused == [ClientRefused] && error == AppError(HttpClientInitializationFailed, false)
  }

  /** Reads at most one byte more than the limit; a break beyond that point is never noticed. */
  function ReadBounded(body: Body, limit: nat): Option<seq<Byte>> {
    if |body.bytes| >= limit + 1 then Some(body.bytes[..limit + 1])
    else if body.breaks then None
    else Some(body.bytes)
  }

  method ResponseToHop(response: Response, sequence: nat, url: Url, location: Option<Url>, tracker: Tracker,
                       options: InspectionOptions)
    returns (r: Result<HttpHop>)
    modifies tracker`responseBytesRead
    ensures var limit, bytes := options.maxBodyBytes, response.body.bytes;
      var kept := Min(limit, |bytes|);
      if response.body.breaks && |bytes| <= limit then
        && r == Err(AppError(ResponseBodyReadFailed, true))
        && tracker.responseBytesRead == old(tracker.responseBytesRead)
      else
        && r == Ok(HttpHop(sequence, url, response.status, kept, |bytes| > limit, BodyDigest(bytes[..kept]),
                         if options.includeBodySample then Some(bytes[..kept]) else None, location))
        && tracker.responseBytesRead == SaturatingAdd(old(tracker.responseBytesRead), kept)
  {
    var read := ReadBounded(response.body, options.maxBodyBytes);
    if read.None? {
      return Err(AppError(ResponseBodyReadFailed, true));
    }
    var body := read.value;
    var truncated := |body| > options.maxBodyBytes;
    if truncated {
      body := body[..options.maxBodyBytes];
    }
    assert body == response.body.bytes[..Min(options.maxBodyBytes, |response.body.bytes|)];
    tracker.responseBytesRead := SaturatingAdd(tracker.responseBytesRead, |body|);
    var encoded := if options.includeBodySample then Some(body) else None;
    r := Ok(HttpHop(sequence, url, response.status, |body|, truncated, BodyDigest(body), encoded, location));
  }

  function ClassifyHttpError(failure: SendFailure, scheme: Scheme): AppError {
    if failure.timedOut then AppError(HttpTimeout, true)
    else if failure.connecting && scheme == Https then AppError(HttpTlsOrConnectFailed, true)
    else if failure.connecting then AppError(HttpConnectFailed, true)
    else AppError(HttpRequestFailed, true)
  }

  /** The error of a request that got no answer: a timeout comes first, then the connection, told apart by scheme. */
  predicate IsTransportError(error: AppError, failure: SendFailure, scheme: Scheme) {
    && error.retryable
    && (error.code == HttpTimeout <==> failure.timedOut)
    && (error.code == HttpTlsOrConnectFailed <==> !failure.timedOut && failure.connecting && scheme.Https?)
    && (error.code == HttpConnectFailed <==> !failure.timedOut && failure.connecting && !scheme.Https?)
    && (error.code == HttpRequestFailed <==> !failure.timedOut && !failure.connecting)
  }

  /** The body breaks before more of it is read than is wanted. */
  predicate BreaksEarly(body: Body, options: InspectionOptions) {
    body.breaks && |body.bytes| <= options.maxBodyBytes
  }

  /** What the last action of a request tells about its error: no answer, a broken body, or no request at all. */
  predicate HttpErrorFits(error: AppError, begun: seq<Action>, refused: seq<ClientRefusal>,
                          options: InspectionOptions) {
    if begun != [] && begun[|begun| - 1].Send? then
      && refused == []
      && match begun[|begun| - 1].answer
         case Answered(response) =>
           BreaksEarly(response.body, options) && error == AppError(ResponseBodyReadFailed, true)
         case SendFailed(failure) => IsTransportError(error, failure, begun[|begun| - 1].url.scheme)
    else NoRequestFits(error, refused)
  }

  lemma ErrorStillFits(error: AppError, earlier: seq<Action>, begun: seq<Action>, refused: seq<ClientRefusal>,
                       options: InspectionOptions)
    requires HttpErrorFits(error, begun, refused, options) && (begun == [] ==> earlier == [])
    ensures HttpErrorFits(error, earlier + begun, refused, options)
  {
    assert begun != [] ==> (earlier + begun)[|earlier + begun| - 1] == begun[|begun| - 1];
  }

  /** The body is within its limit, digested as counted, and kept only if a sample is wanted. */
  predicate BodyFits(hop: HttpHop, options: InspectionOptions) {
    && hop.returnedBodyBytes == |hop.bodyDigest.of| <= options.maxBodyBytes
    && hop.bodySample == if options.includeBodySample then Some(hop.bodyDigest.of) else None
  }

  /** The URL that a response leads to, if it is a redirection with a Location. */
  predicate LeadsOnTo(response: Response, url: Url) {
    300 <= response.status <= 399 && response.location == NextUrl(url)
  }

  /** A redirection whose Location is no URL. */
  predicate IsMisdirected(response: Response) {
    300 <= response.status <= 399 && response.location.InvalidLocation?
  }

  /** The hop shows the response to a request for this URL: its status, its Location and the start of its body. */
  predicate HopShows(hop: HttpHop, url: Url, response: Response, options: InspectionOptions) {
    var limit, bytes := options.maxBodyBytes, response.body.bytes;
    && hop.url == RedactUrl(url, options.showQueryValues) && hop.status == response.status
    && hop.returnedBodyBytes == Min(limit, |bytes|) && (hop.bodyTruncated <==> |bytes| > limit)
    && hop.bodyDigest.of == bytes[..hop.returnedBodyBytes] && !BreaksEarly(response.body, options)
    && (if 300 <= response.status <= 399 && response.location.NextUrl? then
          hop.location == Some(RedactUrl(response.location.url, options.showQueryValues))
        else hop.location.None?)
  }

  /** What the response to one request makes of the chain. */
  ghost predicate IsStep(step: HopStep, current: Url, sequence: nat, response: Response, options: InspectionOptions) {
    && step.hop.sequence == sequence && HopShows(step.hop, current, response, options) && BodyFits(step.hop, options)
    && (forall next :: step.next == Some(next) <==> LeadsOnTo(response, next))
    && step.failure == if IsMisdirected(response) then Some(INVALID_LOCATION) else None
  }

  /** A request for this URL, through this proxy, to this address and no other. */
  predicate IsRequest(action: Action, url: Url, proxy: ResolvedProxy, address: SocketAddr) {
    && action.Send? && action.url == url
    && action.client == HttpClient(proxy.connectHost, address, proxy.url, action.client.timeout)
  }

  /** One exchange: client, slot, request, record. */
  method Exchange(tracker: Tracker, current: Url, proxy: ResolvedProxy, address: SocketAddr, options: InspectionOptions)
    returns (r: Result<Response>, ghost begun: seq<Action>, ghost refused: seq<ClientRefusal>)
    requires Sound(tracker, options)
    modifies tracker`probes, tracker`spans, tracker.host
    ensures Sound(tracker, options) && old(tracker.host.clock) <= tracker.host.clock
    ensures tracker.host.actions == old(tracker.host.actions) + begun && |begun| <= 1
    ensures Extends(old(tracker.probes), tracker.probes)
    ensures tracker.host.refusals == old(tracker.host.refusals) + refused
    ensures begun != [] ==> IsRequest(begun[0], current, proxy, address) && begun[0].answer.Answered? == r.Ok?
    ensures r.Ok? ==> begun != [] && refused == [] && begun[0].answer.response == r.value
    ensures r.Err? ==> HttpErrorFits(r.error, begun, refused, options)
    ensures r.Err? && r.error == EXHAUSTED ==> OutOfBudget(tracker)
    ensures old(MayRequest(tracker.host, options, current, proxy, address))
      ==> Authorized(tracker.host.environment, options, tracker.host.actions)
  {
    hide Authorized, LastLookup, IsIpPermitted, Millis, ResolveProxy, ParseTarget, RedactUrl, HttpErrorFits, Extends,
         ClassifyHttpError, Capped, Chronicle, TimedInsideSlots, Balanced, NoRequestFits;
    ExtendsItself(tracker.probes);
    NothingSentFits(options);
    var host := tracker.host;
    begun := [];
    var client, left, refusals := BuildHttpClient(tracker, proxy, address);
    refused := refusals;
    if client.Err? {
      return Err(client.error), begun, refused;
    }
    var destination := Page(RedactUrl(current, options.showQueryValues));
    var started, slot := tracker.StartProbe(HttpRequest, destination);
    if started.Err? {
      return Err(started.error), begun, refused;
    }
    var timedFrom := Instant(tracker, options);
    ghost var before := host.actions;
    var result, wait := host.SendRequest(client.value, current, left);
    begun := [Send(client.value, current, wait, result)];
    ProbeBegins(tracker, options, started.value, timedFrom, slot, before, old(host.clock));
    if old(MayRequest(host, options, current, proxy, address)) {
      AuthorizedAppend(host.environment, options, before, begun[0]);
    }
    Finish(tracker, options, started.value, timedFrom,
           if result.Answered? then ResponseReceived else RequestFailed, slot);
    if result.SendFailed? {
      SendFailureFits(result.failure, begun[0], options);
      return Err(ClassifyHttpError(result.failure, current.scheme)), begun, refused;
    }
    r := Ok(result.response);
  }

  lemma NothingSentFits(options: InspectionOptions)
    ensures forall error, refused :: HttpErrorFits(error, [], refused, options) <==> NoRequestFits(error, refused)
    ensures NoRequestFits(EXHAUSTED, [])
  {
  }

  lemma SendFailureFits(failure: SendFailure, sent: Action, options: InspectionOptions)
    requires sent.Send? && sent.answer == SendFailed(failure)
    ensures HttpErrorFits(ClassifyHttpError(failure, sent.url.scheme), [sent], [], options)
    ensures ClassifyHttpError(failure, sent.url.scheme) != EXHAUSTED
  {
  }

  /** One hop: an exchange, then what its status, Location and body make of it. */
  method RequestOnce(tracker: Tracker, current: Url, proxy: ResolvedProxy, address: SocketAddr, sequence: nat,
                     options: InspectionOptions)
    returns (r: Result<HopStep>, ghost begun: seq<Action>, ghost refused: seq<ClientRefusal>)
    requires Sound(tracker, options)
    modifies tracker`probes, tracker`spans, tracker`responseBytesRead, tracker.host
    ensures Sound(tracker, options) && old(tracker.host.clock) <= tracker.host.clock
    ensures tracker.host.actions == old(tracker.host.actions) + begun && |begun| <= 1
    ensures Extends(old(tracker.probes), tracker.probes)
    ensures begun != [] ==> begun[0].Send? && begun[0].url == current && IsRequest(begun[0], current, proxy, address)
    ensures tracker.host.refusals == old(tracker.host.refusals) + refused
    ensures r.Err? ==> HttpErrorFits(r.error, begun, refused, options)
    ensures r.Err? && r.error == EXHAUSTED ==> OutOfBudget(tracker)
    ensures r.Ok? ==> refused == [] && begun != [] && begun[0].answer.Answered?
                      && IsStep(r.value, current, sequence, begun[0].answer.response, options)
    ensures tracker.responseBytesRead ==
      if r.Ok? then SaturatingAdd(old(tracker.responseBytesRead), r.value.hop.returnedBodyBytes)
      else old(tracker.responseBytesRead)
    ensures old(MayRequest(tracker.host, options, current, proxy, address))
      ==> Authorized(tracker.host.environment, options, tracker.host.actions)
  {
    hide Chronicle, Balanced, TimedInsideSlots, Authorized, MayRequest, RedactUrl;
    var exchanged, sent, refusals := Exchange(tracker, current, proxy, address, options);
    begun, refused := sent, refusals;
    if exchanged.Err? {
      return Err(exchanged.error), begun, refused;
    }
    var response := exchanged.value;
    var next: Option<Url>, failure: Option<AppError> := None, None;
    if IsRedirection(response.status) {
      match response.location {
        case NoLocation =>
        case NextUrl(target) => next := Some(target);
        case InvalidLocation => failure := Some(AppError(InvalidRedirectLocation, false));
      }
    }
    var location := if next.Some? then Some(RedactUrl(next.value, options.showQueryValues)) else None;
    var hop := ResponseToHop(response, sequence, RedactUrl(current, options.showQueryValues),
                             location, tracker, options);
    if hop.Err? {
      return Err(hop.error), begun, refused;
    }
    r := Ok(HopStep(hop.value, next, failure));
  }

  /** A hop after the first goes to the least permitted answer, if there is any. */
  ghost predicate IsEndpoint(r: Result<(ResolvedProxy, SocketAddr)>, answers: Option<seq<SocketAddr>>,
                             options: InspectionOptions) {
    exists resolution :: IsResolution(resolution, answers, options) && ChoosesFrom(r, resolution)
  }

  predicate ChoosesFrom(r: Result<(ResolvedProxy, SocketAddr)>, resolution: Result<Resolution>) {
    if resolution.Err? then r == Err(resolution.error)
    else if resolution.value.permitted == [] then r == Err(AppError(RedirectTargetDenied, false))
    else r.Ok? && r.value.1 == resolution.value.permitted[0]
  }

  /** The least of the permitted answers. */
  ghost predicate IsLeastPermitted(address: SocketAddr, answers: Option<seq<SocketAddr>>, options: InspectionOptions) {
    && answers.Some? && address in answers.value && IsIpPermitted(address.ip, options.allowPrivate)
    && forall a | a in answers.value && IsIpPermitted(a.ip, options.allowPrivate) ::
         a == address || Precedes(address, a)
  }

  lemma FirstPermittedIsLeast(resolution: Resolution, answers: Option<seq<SocketAddr>>, options: InspectionOptions)
    requires IsResolution(Ok(resolution), answers, options) && resolution.permitted != []
    ensures IsLeastPermitted(resolution.permitted[0], answers, options)
  {
    hide IsIpPermitted, Permitted, Precedes;
    var kept := resolution.permitted;
    PermittedListHoldsTheLeast(resolution.all, options.allowPrivate, options.maxAddresses);
    assert kept[0] in kept;
    forall a | a in answers.value && IsIpPermitted(a.ip, options.allowPrivate)
      ensures a == kept[0] || Precedes(kept[0], a)
    {
      assert a in resolution.all;
      if a in kept {
        var i :| 0 <= i < |kept| && kept[i] == a;
      }
    }
  }

  /** Why a hop is refused before anything is resolved for it. */
  predicate RefusalFits(environment: Environment, failure: AppError, url: Url, options: InspectionOptions) {
    var parsed := ParseTarget(Some(url), options);
    if parsed.Err? then failure == parsed.error
    else
      var proxy := ResolveProxy(environment, parsed.value.url, options);
      if proxy.Err? then failure == proxy.error else failure == EXHAUSTED
  }

  /** A resolution of the endpoint that is selected for the URL, which is acceptable. */
  predicate LooksUp(environment: Environment, lookup: Action, url: Url, options: InspectionOptions) {
    && lookup.Lookup? && ParseTarget(Some(url), options).Ok?
    && var proxy := ResolveProxy(environment, url, options);
      proxy.Ok? && lookup.host == proxy.value.connectHost && lookup.port == proxy.value.connectPort
  }

  lemma ResolutionErrors(r: Result<Resolution>, answers: Option<seq<SocketAddr>>, options: InspectionOptions)
    requires IsResolution(r, answers, options) && r.Err?
    ensures r.error.code in {DnsResolutionFailed, DnsEmptyAnswer}
  {
  }

  /** Where the next hop goes: its target, proxy and address are all decided afresh. */
  method NextEndpoint(tracker: Tracker, current: Url, options: InspectionOptions)
    returns (r: Result<(ResolvedProxy, SocketAddr)>, ghost begun: seq<Action>)
    requires Sound(tracker, options)
    modifies tracker`probes, tracker`spans, tracker.host`clock, tracker.host`actions
    ensures Sound(tracker, options) && old(tracker.host.clock) <= tracker.host.clock
    ensures tracker.host.actions == old(tracker.host.actions) + begun && |begun| <= 1
    ensures begun != [] ==> begun[0].Lookup? && IsEndpoint(r, begun[0].answers, options)
    ensures r.Ok? ==> begun != [] && IsLeastPermitted(r.value.1, begun[0].answers, options)
    ensures begun != [] ==> LooksUp(tracker.host.environment, begun[0], current, options)
    ensures r.Err? && begun == [] ==> RefusalFits(tracker.host.environment, r.error, current, options)
    ensures Extends(old(tracker.probes), tracker.probes)
    ensures r.Err? ==> r.error.code != RedirectLimitReached && r.error.code != InvalidRedirectLocation
    ensures r.Err? && r.error == EXHAUSTED ==> OutOfBudget(tracker)
    ensures old(Authorized(tracker.host.environment, options, tracker.host.actions))
      ==> Authorized(tracker.host.environment, options, tracker.host.actions)
    ensures r.Ok? && old(Authorized(tracker.host.environment, options, tracker.host.actions))
      ==> MayRequest(tracker.host, options, current, r.value.0, r.value.1)
  {
    hide Sound, OutOfBudget, Authorized, LastLookup, IsIpPermitted, ResolveProxy, IsResolution, RedactUrl, Extends,
         IsLeastPermitted;
    var host := tracker.host;
    begun := [];
    ExtendsItself(tracker.probes);
    var parsed := ParseTarget(Some(current), options);
    if parsed.Err? {
      ParseErrors(Some(current), options);
      return Err(parsed.error), begun;
    }
    FragmentsAreIrrelevant(host.environment, current, options);
    var proxy := ResolveProxy(host.environment, parsed.value.url, options);
    if proxy.Err? {
      ProxyErrors(host.environment, parsed.value.url, options);
      return Err(proxy.error), begun;
    }
    var resolution, looked := ResolveAddresses(tracker, proxy.value, options);
    begun := looked;
    assert begun != [] ==> IsResolution(resolution, begun[0].answers, options);
    if resolution.Err? {
      if begun != [] {
        ResolutionErrors(resolution, begun[0].answers, options);
      }
      return Err(resolution.error), begun;
    }
    if resolution.value.permitted == [] {
      return Err(AppError(RedirectTargetDenied, false)), begun;
    }
    PermittedComesFromAnswers(resolution.value, begun[0].answers, options, 0);
    FirstPermittedIsLeast(resolution.value, begun[0].answers, options);
    r := Ok((proxy.value, resolution.value.permitted[0]));
  }

  function SumOfBodies(hops: seq<HttpHop>): nat {
    if hops == [] then 0 else SumOfBodies(hops[..|hops| - 1]) + hops[|hops| - 1].returnedBodyBytes
  }

  /**
   * A redirect chain: hops numbered from zero, the first at the given URL, every other at the Location of the
   * redirection before it, every body within its limit, every URL redacted.
   */
  ghost predicate Chain(hops: seq<HttpHop>, first: Url, options: InspectionOptions) {
    && |hops| <= options.maxRedirects + 1
    && (forall i | 0 <= i < |hops| :: hops[i].sequence == i)
    && (forall i | 0 <= i < |hops| :: BodyFits(hops[i], options))
    && (hops != [] ==> hops[0].url == first)
    && (forall i | 0 < i < |hops| :: Leads(hops, i))
    && (forall i | 0 <= i < |hops| :: HopIsRedacted(hops[i], options))
  }

  predicate HopIsRedacted(hop: HttpHop, options: InspectionOptions) {
    && IsRedacted(hop.url, options.showQueryValues)
    && (hop.location.Some? ==> IsRedacted(hop.location.value, options.showQueryValues))
  }

  /** Every hop is the hop of its own request, each answered. */
  ghost predicate HopsAreSends(hops: seq<HttpHop>, begun: seq<Action>, options: InspectionOptions) {
    && 2 * |hops| <= |begun| + 1
    && forall i | 0 <= i < |hops| :: IsHopOf(hops[i], begun[2 * i], options)
  }

  predicate IsHopOf(hop: HttpHop, action: Action, options: InspectionOptions) {
    action.Send? && action.answer.Answered? && HopShows(hop, action.url, action.answer.response, options)
  }

  lemma HopsGrow(hops: seq<HttpHop>, begun: seq<Action>, step: HopStep, current: Url, taken: seq<Action>,
                 options: InspectionOptions)
    requires HopsAreSends(hops, begun, options)
    requires |begun| + |taken| == 2 * |hops| + 1 && taken != []
    requires var sent := taken[|taken| - 1];
      && sent.Send? && sent.answer.Answered? && sent.url == current
      && IsStep(step, current, |hops|, sent.answer.response, options)
    ensures HopsAreSends(hops + [step.hop], begun + taken, options)
  {
    hide HopShows;
    assert IsHopOf(step.hop, taken[|taken| - 1], options);
    hide IsHopOf, IsStep;
  }

  lemma HopsStay(hops: seq<HttpHop>, begun: seq<Action>, taken: seq<Action>, options: InspectionOptions)
    requires HopsAreSends(hops, begun, options)
    ensures HopsAreSends(hops, begun + taken, options)
  {
    hide IsHopOf;
  }

  /** The hop before is a redirection to this one. */
  predicate Leads(hops: seq<HttpHop>, i: nat)
    requires 0 < i < |hops|
  {
    hops[i - 1].location == Some(hops[i].url) && IsRedirection(hops[i - 1].status)
  }

  /** The probe kinds of a chain in progress: requests, with a resolution before each but the first. */
  function Alternation(n: nat): (kinds: seq<ProbeKind>)
    ensures |kinds| == n
  {
    seq(n, i => if i % 2 == 0 then HttpRequest else DnsLookup)
  }

  lemma {:induction false} BodiesFitTheirLimit(hops: seq<HttpHop>, limit: nat)
    requires forall i | 0 <= i < |hops| :: hops[i].returnedBodyBytes <= limit
    ensures SumOfBodies(hops) <= |hops| * limit
  {
    if hops != [] {
      BodiesFitTheirLimit(hops[..|hops| - 1], limit);
      assert |hops| * limit == (|hops| - 1) * limit + limit;
    }
  }

  /** A step extends a chain that leads to its URL. */
  lemma ChainExtends(hops: seq<HttpHop>, first: Url, current: Url, step: HopStep, response: Response,
                     options: InspectionOptions)
    requires Chain(hops, first, options) && |hops| <= options.maxRedirects
    requires IsStep(step, current, |hops|, response, options)
    requires hops == [] ==> step.hop.url == first
    requires hops != [] ==> IsRedirection(hops[|hops| - 1].status)
    requires hops != [] ==> hops[|hops| - 1].location == Some(step.hop.url)
    ensures Chain(hops + [step.hop], first, options)
  {
    RedactionRedacts(current, options.showQueryValues);
    if step.next.Some? {
      RedactionRedacts(step.next.value, options.showQueryValues);
    }
    hide RedactUrl, IsRedacted;
    var longer := hops + [step.hop];
    forall i | 0 < i < |longer| ensures Leads(longer, i) {
      assert i < |hops| ==> Leads(hops, i);
    }
  }

  /** The byte counter of a chain never comes near saturation. */
  lemma BytesExtend(hops: seq<HttpHop>, first: Url, hop: HttpHop, options: InspectionOptions)
    requires ValidOptions(options) && Chain(hops + [hop], first, options)
    ensures SaturatingAdd(SumOfBodies(hops), hop.returnedBodyBytes) == SumOfBodies(hops + [hop])
  {
    var longer := hops + [hop];
    assert longer[..|hops|] == hops;
    BodiesFitTheirLimit(longer, options.maxBodyBytes);
    BoundedProduct(|longer|, options.maxBodyBytes);
  }

  lemma BoundedProduct(count: nat, limit: nat)
    requires count <= 11 && limit <= 1_048_576
    ensures count * limit <= USIZE_MAX
  {
    assert count * limit <= 11 * limit;
  }

  /** How a chain ended: which of its outcomes are complete, refused, full or unreadable. */
  ghost predicate ChainEnded(outcome: HttpOutcome, first: Url, options: InspectionOptions) {
    && outcome.hops != [] && Chain(outcome.hops, first, options)
    && var last := outcome.hops[|outcome.hops| - 1];
      && (outcome.failure.None? ==> last.location.None?)
      && (outcome.failure.Some? ==> IsRedirection(last.status))
      && ((outcome.failure.Some? && outcome.failure.value.code == RedirectLimitReached)
          <==> (|outcome.hops| == options.maxRedirects + 1 && last.location.Some?))
      && ((outcome.failure.Some? && outcome.failure.value.code == InvalidRedirectLocation)
          <==> (outcome.failure.Some? && last.location.None?))
  }

  /** The end of one turn of the loop. */
  datatype Turn =
    | Stop(failure: AppError)   // the chain so far is kept
    | Abort(error: AppError)    // the chain so far is lost
    | Took(step: HopStep)

  /** The request is pinned to the least permitted answer of the resolution before it. */
  ghost predicate PinsLeast(lookup: Action, sent: Action, options: InspectionOptions) {
    lookup.Lookup? && sent.Send? && IsLeastPermitted(sent.client.pinnedAddress, lookup.answers, options)
  }

  /** A chain stops for what was answered about its next hop, or because that hop is refused unasked. */
  ghost predicate StopFits(environment: Environment, failure: AppError, begun: seq<Action>, url: Url,
                            options: InspectionOptions) {
    if begun == [] then RefusalFits(environment, failure, url, options)
    else begun[0].Lookup? && IsEndpoint(Err(failure), begun[0].answers, options)
  }

  /** What a turn begins and how it can end. */
  ghost predicate IsTurn(environment: Environment, turn: Turn, begun: seq<Action>, refused: seq<ClientRefusal>,
                         current: Url, sequence: nat, proxy: ResolvedProxy, address: SocketAddr,
                         options: InspectionOptions) {
    && InTurn(begun, sequence)
    && (sequence == 0 && begun != [] ==> IsRequest(begun[0], current, proxy, address))
    && (sequence > 0 && begun != [] ==> LooksUp(environment, begun[0], current, options))
    && (|begun| == 2 ==> PinsLeast(begun[0], begun[1], options) && begun[1].url == current)
    && (!turn.Abort? ==> refused == [])
    && match turn
       case Stop(failure) =>
         && sequence > 0 && |begun| <= 1 && StopFits(environment, failure, begun, current, options)
         && failure.code != RedirectLimitReached && failure.code != InvalidRedirectLocation
       case Abort(error) => HttpErrorFits(error, begun, refused, options) && (sequence > 0 ==> begun != [])
       case Took(step) =>
         && |begun| == (if sequence == 0 then 1 else 2)
         && var sent := begun[|begun| - 1];
           && sent.Send? && sent.answer.Answered? && sent.url == current
           && IsStep(step, current, sequence, sent.answer.response, options)
  }

  /** One turn of the redirect loop: after the first hop, the endpoint is decided afresh. */
  method TakeTurn(tracker: Tracker, current: Url, sequence: nat, initialProxy: ResolvedProxy,
                  initialAddress: SocketAddr,
                  options: InspectionOptions)
    returns (turn: Turn, ghost begun: seq<Action>, ghost refused: seq<ClientRefusal>)
    requires Sound(tracker, options)
    modifies tracker`probes, tracker`spans, tracker`responseBytesRead, tracker.host
    ensures tracker.host.refusals == old(tracker.host.refusals) + refused
    ensures Sound(tracker, options) && old(tracker.host.clock) <= tracker.host.clock
    ensures tracker.host.actions == old(tracker.host.actions) + begun
    ensures IsTurn(tracker.host.environment, turn, begun, refused, current, sequence, initialProxy, initialAddress,
                   options)
    ensures Extends(old(tracker.probes), tracker.probes)
    ensures turn.Abort? && turn.error == EXHAUSTED ==> OutOfBudget(tracker)
    ensures turn.Stop? && turn.failure == EXHAUSTED ==> OutOfBudget(tracker)
    ensures tracker.responseBytesRead ==
      if turn.Took? then SaturatingAdd(old(tracker.responseBytesRead), turn.step.hop.returnedBodyBytes)
      else old(tracker.responseBytesRead)
    ensures old(Ready(tracker.host, options, current, sequence, initialProxy, initialAddress))
      ==> Authorized(tracker.host.environment, options, tracker.host.actions)
  {
    hide Sound, Authorized, MayRequest, IsStep, SaturatingAdd, IsEndpoint, Describes, OutOfBudget, Extends,
         RefusalFits, IsLeastPermitted, LooksUp, IsTurn, HttpErrorFits, IsRequest;
    begun, refused := [], [];
    ExtendsItself(tracker.probes);
    var host, proxy, address := tracker.host, initialProxy, initialAddress;
    if sequence > 0 {
      var endpoint, looked := NextEndpoint(tracker, current, options);
      begun := looked;
      if endpoint.Err? {
        TurnStops(host.environment, endpoint.error, begun, current, sequence, initialProxy, initialAddress, options);
        return Stop(endpoint.error), begun, refused;
      }
      proxy, address := endpoint.value.0, endpoint.value.1;
    }
    ghost var recorded := tracker.probes;
    var step, sent, refusals := RequestOnce(tracker, current, proxy, address, sequence, options);
    refused := refusals;
    ExtendsTransitively(old(tracker.probes), recorded, tracker.probes);
    TurnRequests(host.environment, step, begun, sent, refused, current, sequence, proxy, address, initialProxy,
                 initialAddress, options);
    begun := begun + sent;
    turn := if step.Err? then Abort(step.error) else Took(step.value);
  }

  lemma TurnStops(environment: Environment, failure: AppError, looked: seq<Action>, current: Url, sequence: nat,
                  proxy: ResolvedProxy, address: SocketAddr, options: InspectionOptions)
    requires sequence > 0 && |looked| <= 1 && StopFits(environment, failure, looked, current, options)
    requires failure.code != RedirectLimitReached && failure.code != InvalidRedirectLocation
    requires looked != [] ==> LooksUp(environment, looked[0], current, options)
    ensures IsTurn(environment, Stop(failure), looked, [], current, sequence, proxy, address, options)
  {
    hide LooksUp, IsEndpoint, RefusalFits;
  }

  /** A request made to the endpoint that was decided for the turn. */
  lemma TurnRequests(environment: Environment, r: Result<HopStep>, looked: seq<Action>, sent: seq<Action>,
                     refused: seq<ClientRefusal>, current: Url, sequence: nat, proxy: ResolvedProxy,
                     address: SocketAddr, initialProxy: ResolvedProxy, initialAddress: SocketAddr,
                     options: InspectionOptions)
    requires |sent| <= 1 && (sent != [] ==> IsRequest(sent[0], current, proxy, address))
    requires if sequence == 0 then looked == [] && proxy == initialProxy && address == initialAddress
             else
               && |looked| == 1 && LooksUp(environment, looked[0], current, options)
               && IsLeastPermitted(address, looked[0].answers, options)
    requires r.Err? ==> HttpErrorFits(r.error, sent, refused, options)
    requires r.Ok? ==>
      && refused == [] && sent != [] && sent[0].answer.Answered?
      && IsStep(r.value, current, sequence, sent[0].answer.response, options)
    ensures var turn := if r.Err? then Abort(r.error) else Took(r.value);
      IsTurn(environment, turn, looked + sent, refused, current, sequence, initialProxy, initialAddress, options)
  {
    hide HopShows, IsStep, BodyFits, NoRequestFits, IsTransportError;
    if sent == [] {
      assert looked + sent == looked;
    }
    assert |looked + sent| == 2 ==> (looked + sent)[0] == looked[0] && (looked + sent)[1] == sent[0];
  }

  /** The actions of one turn: a resolution unless it is the first, then a request. */
  predicate InTurn(begun: seq<Action>, sequence: nat) {
    && |begun| <= (if sequence == 0 then 1 else 2)
    && (begun != [] ==> if sequence == 0 then begun[0].Send? else begun[0].Lookup?)
    && (|begun| == 2 ==> begun[1].Send?)
  }

  ghost predicate Ready(host: Host, options: InspectionOptions, current: Url, sequence: nat, proxy: ResolvedProxy,
                        address: SocketAddr)
    reads host
  {
    if sequence == 0 then MayRequest(host, options, current, proxy, address)
    else Authorized(host.environment, options, host.actions)
  }

  /** The error that ends a run at its requests or at its redirects. */
  function HttpFailure(r: Result<HttpOutcome>): Option<AppError> {
    if r.Err? then Some(r.error) else r.value.failure
  }

  /** What the requests begin, are refused, complete and count, and how they end. */
  ghost predicate RequestsBegun(environment: Environment, r: Result<HttpOutcome>, begun: seq<Action>,
                                refused: seq<ClientRefusal>, completed: seq<HttpHop>, bytesRead: nat, url: Url,
                                proxy: ResolvedProxy, address: SocketAddr, options: InspectionOptions) {
    var first := RedactUrl(url, options.showQueryValues);
    && (begun != [] ==> IsRequest(begun[0], url, proxy, address))
    && Kinds(begun) == Alternation(|begun|) && |begun| <= 2 * options.maxRedirects + 1
    && (r.Ok? ==> ChainEnded(r.value, first, options) && completed == r.value.hops && refused == [])
    && (r.Ok? ==> EndFits(environment, r.value.failure, |completed|, begun, options))
    && (r.Ok? ==> |begun| <= 2 * |r.value.hops|)
    && (r.Ok? && r.value.failure.None? ==> |begun| == 2 * |r.value.hops| - 1)
    && (r.Err? ==> |completed| <= options.maxRedirects && HttpErrorFits(r.error, begun, refused, options))
    && Chain(completed, first, options) && bytesRead == SumOfBodies(completed)
    && HopsAreSends(completed, begun, options)
    && LaterPinsAreLeast(begun, options) && FollowsLocations(environment, begun, options)
  }

  /** Every request but the first is pinned to the least permitted answer of its own resolution. */
  ghost predicate LaterPinsAreLeast(begun: seq<Action>, options: InspectionOptions) {
    forall i | 0 < i && 2 * i < |begun| :: PinsLeast(begun[2 * i - 1], begun[2 * i], options)
  }

  /** The action was answered with a redirection to this URL. */
  predicate RedirectsTo(sent: Action, url: Url) {
    sent.Send? && sent.answer.Answered? && LeadsOnTo(sent.answer.response, url)
  }

  /** A resolution is for the very URL that the response before it leads to, and so is the request after it. */
  predicate FollowsAt(environment: Environment, begun: seq<Action>, i: nat, options: InspectionOptions)
    requires 0 < i < |begun|
  {
    if begun[i].Send? then i > 1 && RedirectsTo(begun[i - 2], begun[i].url)
    else
      && begun[i - 1].Send? && begun[i - 1].answer.Answered? && begun[i - 1].answer.response.location.NextUrl?
      && var next := begun[i - 1].answer.response.location.url;
        RedirectsTo(begun[i - 1], next) && LooksUp(environment, begun[i], next, options)
  }

  ghost predicate FollowsLocations(environment: Environment, begun: seq<Action>, options: InspectionOptions) {
    forall i | 0 < i < |begun| :: FollowsAt(environment, begun, i, options)
  }

  const LIMIT_REACHED: AppError := AppError(RedirectLimitReached, false)

  const INVALID_LOCATION: AppError := AppError(InvalidRedirectLocation, false)

  /**
   * How a chain of so many hops ends with its last action: after a resolution, for what was answered about the next
   * hop; after a request, for what its response says.
   */
  ghost predicate EndFits(environment: Environment, failure: Option<AppError>, hops: nat, begun: seq<Action>,
                          options: InspectionOptions) {
    begun != [] &&
      match begun[|begun| - 1]
      case Lookup(_, _, answers) => failure.Some? && IsEndpoint(Err(failure.value), answers, options)
      case Send(_, _, _, answer) =>
        answer.Answered? && ResponseEnds(environment, failure, hops, answer.response, options)
      case _ => false
  }

  /** A response that leads on ends a full chain, or is refused; one that is misdirected fails; any other succeeds. */
  predicate ResponseEnds(environment: Environment, failure: Option<AppError>, hops: nat, response: Response,
                         options: InspectionOptions) {
    if 300 <= response.status <= 399 && response.location.NextUrl? then
      && failure.Some?
      && if hops == options.maxRedirects + 1 then failure.value == LIMIT_REACHED
         else RefusalFits(environment, failure.value, response.location.url, options)
    else failure == if IsMisdirected(response) then Some(INVALID_LOCATION) else None
  }

  method RunHttp(tracker: Tracker, initialUrl: Url, initialProxy: ResolvedProxy, initialAddress: SocketAddr,
                 options: InspectionOptions)
    returns (r: Result<HttpOutcome>, ghost begun: seq<Action>, ghost refused: seq<ClientRefusal>,
             ghost completed: seq<HttpHop>)
    requires Sound(tracker, options) && ValidOptions(options) && tracker.responseBytesRead == 0
    modifies tracker`probes, tracker`spans, tracker`responseBytesRead, tracker.host
    ensures tracker.host.refusals == old(tracker.host.refusals) + refused
    ensures Sound(tracker, options) && old(tracker.host.clock) <= tracker.host.clock
    ensures tracker.host.actions == old(tracker.host.actions) + begun
    ensures Extends(old(tracker.probes), tracker.probes)
    ensures RequestsBegun(tracker.host.environment, r, begun, refused, completed, tracker.responseBytesRead,
                          initialUrl, initialProxy, initialAddress, options)
    ensures HttpFailure(r) == Some(EXHAUSTED) ==> OutOfBudget(tracker)
    ensures old(MayRequest(tracker.host, options, initialUrl, initialProxy, initialAddress))
      ==> Authorized(tracker.host.environment, options, tracker.host.actions)
  {
    hide Sound, Authorized, MayRequest, SumOfBodies, SaturatingAdd, IsTurn, UnderWay, RequestsBegun, OutOfBudget,
         Extends, ValidOptions;
    ExtendsItself(tracker.probes);
    LoopBegins(tracker.host.environment, initialUrl, initialProxy, initialAddress, options);
    var host := tracker.host;
    var current, hops := initialUrl, [];
    begun, refused, completed := [], [], [];
    for sequence := 0 to options.maxRedirects + 1
      invariant sequence <= options.maxRedirects && |hops| == sequence
      invariant Sound(tracker, options) && old(host.clock) <= host.clock
      invariant host.actions == old(host.actions) + begun && host.refusals == old(host.refusals) && refused == []
      invariant UnderWay(host.environment, hops, begun, tracker.responseBytesRead, current,
                         initialUrl, initialProxy, initialAddress, options)
      invariant Extends(old(tracker.probes), tracker.probes)
      invariant sequence == 0 ==> current == initialUrl
      invariant old(MayRequest(host, options, initialUrl, initialProxy, initialAddress))
        ==> Ready(host, options, current, sequence, initialProxy, initialAddress)
    {
      ghost var recorded, counted := tracker.probes, tracker.responseBytesRead;
      var turn, taken, refusals := TakeTurn(tracker, current, sequence, initialProxy, initialAddress, options);
      ExtendsTransitively(old(tracker.probes), recorded, tracker.probes);
      TurnEndsOrGoesOn(host.environment, hops, begun, counted, turn, taken, refusals, current, initialUrl,
                       initialProxy, initialAddress, options);
      begun, refused := begun + taken, refusals;
      completed := HopsAfter(hops, turn);
      match turn {
        case Stop(failure) =>
          return Ok(HttpOutcome(hops, Some(failure))), begun, refused, completed;
        case Abort(error) =>
          return Err(error), begun, refused, completed;
        case Took(step) =>
          hops := hops + [step.hop];
          if step.failure.Some? {
            return Ok(HttpOutcome(hops, step.failure)), begun, refused, completed;
          }
          if step.next.None? {
            return Ok(HttpOutcome(hops, None)), begun, refused, completed;
          }
          if sequence == options.maxRedirects {
            return Ok(HttpOutcome(hops, Some(AppError(RedirectLimitReached, false)))), begun, refused, completed;
          }
          current := step.next.value;
      }
    }
    assert false;
  }

  // ----- The loop, on values -----

  /** The loop is to take its next turn at `current`. */
  ghost predicate UnderWay(environment: Environment, hops: seq<HttpHop>, begun: seq<Action>, bytesRead: nat,
                           current: Url, url: Url, proxy: ResolvedProxy, address: SocketAddr,
                           options: InspectionOptions) {
    var n := |hops|;
    && n <= options.maxRedirects
    && Kinds(begun) == Alternation(|begun|) && |begun| == (if n == 0 then 0 else 2 * n - 1)
    && (begun != [] ==> IsRequest(begun[0], url, proxy, address))
    && Chain(hops, RedactUrl(url, options.showQueryValues), options) && HopsAreSends(hops, begun, options)
    && LaterPinsAreLeast(begun, options) && FollowsLocations(environment, begun, options)
    && (n > 0 ==> RedirectsTo(begun[|begun| - 1], current))
    && (n == 0 ==> current == url)
    && (n > 0 ==> IsRedirection(hops[n - 1].status)
                  && hops[n - 1].location == Some(RedactUrl(current, options.showQueryValues)))
    && bytesRead == SumOfBodies(hops)
  }

  /** The outcome of a turn, if it ends the loop. */
  function Ending(hops: seq<HttpHop>, turn: Turn, options: InspectionOptions): Option<Result<HttpOutcome>> {
    match turn
    case Stop(failure) => Some(Ok(HttpOutcome(hops, Some(failure))))
    case Abort(error) => Some(Err(error))
    case Took(step) =>
      var longer := hops + [step.hop];
      if step.failure.Some? then Some(Ok(HttpOutcome(longer, step.failure)))
      else if step.next.None? then Some(Ok(HttpOutcome(longer, None)))
      else if |hops| == options.maxRedirects then
        Some(Ok(HttpOutcome(longer, Some(AppError(RedirectLimitReached, false)))))
      else None
  }

  function HopsAfter(hops: seq<HttpHop>, turn: Turn): seq<HttpHop> {
    if turn.Took? then hops + [turn.step.hop] else hops
  }

  function BytesAfter(bytesRead: nat, turn: Turn): nat {
    if turn.Took? then SaturatingAdd(bytesRead, turn.step.hop.returnedBodyBytes) else bytesRead
  }

  /** One turn keeps all that is known of the loop, or ends it as it has to end. */
  lemma TurnEndsOrGoesOn(environment: Environment, hops: seq<HttpHop>, begun: seq<Action>, bytesRead: nat, turn: Turn,
                         taken: seq<Action>, refused: seq<ClientRefusal>, current: Url, url: Url,
                         proxy: ResolvedProxy, address: SocketAddr, options: InspectionOptions)
    requires ValidOptions(options)
    requires UnderWay(environment, hops, begun, bytesRead, current, url, proxy, address, options)
    requires IsTurn(environment, turn, taken, refused, current, |hops|, proxy, address, options)
    ensures var ending := Ending(hops, turn, options);
      var actions, longer, counted := begun + taken, HopsAfter(hops, turn), BytesAfter(bytesRead, turn);
      && (ending.Some? ==>
            RequestsBegun(environment, ending.value, actions, refused, longer, counted, url, proxy, address, options))
      && (ending.Some? && turn.Took? ==> HttpFailure(ending.value) != Some(EXHAUSTED))
      && (ending.None? ==>
            turn.Took? && turn.step.next.Some?
            && refused == []
            && UnderWay(environment, longer, actions, counted, turn.step.next.value, url, proxy, address, options))
  {
    hide Chain, Alternation, Kinds, SumOfBodies, SaturatingAdd, IsRequest, HopsAreSends, RedactUrl, InTurn, IsStep,
         HttpErrorFits, ValidOptions, ChainEnded, LaterPinsAreLeast, FollowsLocations, EndFits, StopFits, RedirectsTo,
         LooksUp;
    TurnsAlternate(begun, taken, |hops|);
    PinsGrow(environment, begun, turn, taken, refused, current, |hops|, proxy, address, options);
    FollowingGoesOn(environment, begun, turn, taken, refused, current, |hops|, proxy, address, options);
    FirstActionStays(environment, begun, taken, refused, current, url, proxy, address, options, |hops|, turn);
    match turn {
      case Stop(failure) =>
        HopsStay(hops, begun, taken, options);
        StoppedChain(hops, RedactUrl(url, options.showQueryValues), failure, options);
        StopEnds(environment, failure, |hops|, begun, taken, current, options);
      case Abort(error) =>
        HopsStay(hops, begun, taken, options);
        ErrorStillFits(error, begun, taken, refused, options);
      case Took(step) =>
        var response := taken[|taken| - 1].answer.response;
        HopsGrow(hops, begun, step, current, taken, options);
        StepLeadsOn(step, current, |hops|, response, options);
        TookEnds(environment, hops, begun, turn, taken, refused, current, proxy, address, options);
        LongerChain(hops, RedactUrl(url, options.showQueryValues), current, step, response, options);
    }
  }

  lemma PinsGrow(environment: Environment, begun: seq<Action>, turn: Turn, taken: seq<Action>,
                 refused: seq<ClientRefusal>, current: Url, sequence: nat, proxy: ResolvedProxy, address: SocketAddr,
                 options: InspectionOptions)
    requires LaterPinsAreLeast(begun, options) && |begun| == (if sequence == 0 then 0 else 2 * sequence - 1)
    requires IsTurn(environment, turn, taken, refused, current, sequence, proxy, address, options)
    ensures LaterPinsAreLeast(begun + taken, options)
  {
    hide PinsLeast, IsRequest, HttpErrorFits, IsStep, StopFits, LooksUp;
    forall i | 0 < i && 2 * i < |begun + taken|
      ensures PinsLeast((begun + taken)[2 * i - 1], (begun + taken)[2 * i], options)
    {
      if 2 * i < |begun| {
        assert PinsLeast(begun[2 * i - 1], begun[2 * i], options);
      } else {
        assert i == sequence && |taken| == 2;
      }
    }
  }

  lemma FollowingGoesOn(environment: Environment, begun: seq<Action>, turn: Turn, taken: seq<Action>,
                        refused: seq<ClientRefusal>, current: Url, sequence: nat, proxy: ResolvedProxy,
                        address: SocketAddr, options: InspectionOptions)
    requires FollowsLocations(environment, begun, options)
    requires if sequence == 0 then begun == [] else begun != [] && RedirectsTo(begun[|begun| - 1], current)
    requires IsTurn(environment, turn, taken, refused, current, sequence, proxy, address, options)
    ensures FollowsLocations(environment, begun + taken, options)
  {
    hide PinsLeast, IsRequest, HttpErrorFits, IsStep, StopFits, LooksUp;
    var actions, n := begun + taken, |begun|;
    forall i | 0 < i < |actions| ensures FollowsAt(environment, actions, i, options) {
      if i < n {
        assert FollowsAt(environment, begun, i, options);
      } else {
        assert actions[n - 1] == begun[n - 1] && actions[i] == taken[i - n];
      }
    }
  }

  lemma StopEnds(environment: Environment, failure: AppError, hops: nat, begun: seq<Action>, taken: seq<Action>,
                 current: Url, options: InspectionOptions)
    requires begun != [] && RedirectsTo(begun[|begun| - 1], current) && hops <= options.maxRedirects && |taken| <= 1
    requires StopFits(environment, failure, taken, current, options)
    ensures EndFits(environment, Some(failure), hops, begun + taken, options)
  {
    hide RefusalFits, IsEndpoint;
  }

  lemma TookEnds(environment: Environment, hops: seq<HttpHop>, begun: seq<Action>, turn: Turn, taken: seq<Action>,
                 refused: seq<ClientRefusal>, current: Url, proxy: ResolvedProxy, address: SocketAddr,
                 options: InspectionOptions)
    requires turn.Took? && IsTurn(environment, turn, taken, refused, current, |hops|, proxy, address, options)
    requires |hops| <= options.maxRedirects
    ensures var ending, n := Ending(hops, turn, options), |hops| + 1;
      if ending.Some? then
        ending.value.Ok? && EndFits(environment, ending.value.value.failure, n, begun + taken, options)
      else
        && taken != [] && turn.step.next.Some?
        && RedirectsTo(taken[|taken| - 1], turn.step.next.value)
  {
    hide PinsLeast, IsRequest, IsEndpoint, HopShows, RefusalFits, LooksUp, BodyFits;
    var response := taken[|taken| - 1].answer.response;
    assert (begun + taken)[|begun + taken| - 1] == taken[|taken| - 1];
    assert turn.step.next.Some? ==> LeadsOnTo(response, turn.step.next.value);
    assert 300 <= response.status <= 399 && response.location.NextUrl? ==>
      LeadsOnTo(response, response.location.url);
  }

  /** A chain whose next hop has no endpoint. */
  lemma StoppedChain(hops: seq<HttpHop>, first: Url, failure: AppError, options: InspectionOptions)
    requires Chain(hops, first, options) && 0 < |hops| <= options.maxRedirects
    requires hops[|hops| - 1].location.Some? && IsRedirection(hops[|hops| - 1].status)
    requires failure.code != RedirectLimitReached && failure.code != InvalidRedirectLocation
    ensures ChainEnded(HttpOutcome(hops, Some(failure)), first, options)
  {
    hide Chain;
  }

  /** A chain with one more hop, and the outcome if it ends there. */
  lemma LongerChain(hops: seq<HttpHop>, first: Url, current: Url, step: HopStep, response: Response,
                    options: InspectionOptions)
    requires ValidOptions(options) && Chain(hops, first, options) && |hops| <= options.maxRedirects
    requires IsStep(step, current, |hops|, response, options)
    requires hops == [] ==> step.hop.url == first
    requires hops != [] ==> IsRedirection(hops[|hops| - 1].status)
    requires hops != [] ==> hops[|hops| - 1].location == Some(step.hop.url)
    ensures Chain(hops + [step.hop], first, options)
    ensures SaturatingAdd(SumOfBodies(hops), step.hop.returnedBodyBytes) == SumOfBodies(hops + [step.hop])
    ensures var ending := Ending(hops, Took(step), options);
      ending.Some? ==> ending.value.Ok? && ChainEnded(ending.value.value, first, options)
  {
    hide Chain, SumOfBodies, SaturatingAdd, RedactUrl, IsStep, ValidOptions, IsRedirection;
    ChainExtends(hops, first, current, step, response, options);
    BytesExtend(hops, first, step.hop, options);
    StepLeadsOn(step, current, |hops|, response, options);
  }

  lemma FirstActionStays(environment: Environment, begun: seq<Action>, taken: seq<Action>,
                         refused: seq<ClientRefusal>, current: Url, url: Url, proxy: ResolvedProxy,
                         address: SocketAddr, options: InspectionOptions, sequence: nat, turn: Turn)
    requires begun != [] ==> IsRequest(begun[0], url, proxy, address)
    requires begun == [] <==> sequence == 0
    requires sequence == 0 ==> current == url
    requires IsTurn(environment, turn, taken, refused, current, sequence, proxy, address, options)
    ensures begun + taken != [] ==> IsRequest((begun + taken)[0], url, proxy, address)
  {
    hide IsRequest, InTurn, HttpErrorFits, IsStep, PinsLeast, StopFits, LooksUp;
  }

  lemma LoopBegins(environment: Environment, url: Url, proxy: ResolvedProxy, address: SocketAddr,
                   options: InspectionOptions)
    ensures UnderWay(environment, [], [], 0, url, url, proxy, address, options)
  {
    EmptyChain(RedactUrl(url, options.showQueryValues), options);
  }

  /** What a step makes of the loop: only a redirection goes on, to its Location, or ends in a failure. */
  lemma StepLeadsOn(step: HopStep, current: Url, sequence: nat, response: Response, options: InspectionOptions)
    requires IsStep(step, current, sequence, response, options)
    ensures step.hop.url == RedactUrl(current, options.showQueryValues)
    ensures step.next.Some? || step.failure.Some? ==> IsRedirection(step.hop.status)
    ensures step.next.Some? ==> step.hop.location == Some(RedactUrl(step.next.value, options.showQueryValues))
    ensures step.next.None? ==> step.hop.location.None?
    ensures step.failure.Some? ==> step.next.None? && step.failure.value == AppError(InvalidRedirectLocation, false)
  {
    if 300 <= response.status <= 399 && response.location.NextUrl? {
      assert LeadsOnTo(response, response.location.url);
    }
  }

  lemma EmptyChain(first: Url, options: InspectionOptions)
    ensures Chain([], first, options) && SumOfBodies([]) == 0
    ensures Kinds([]) == Alternation(0) && HopsAreSends([], [], options) && LaterPinsAreLeast([], options)
  {
  }

  lemma TurnsAlternate(begun: seq<Action>, taken: seq<Action>, sequence: nat)
    requires Kinds(begun) == Alternation(|begun|) && |begun| == if sequence == 0 then 0 else 2 * sequence - 1
    requires InTurn(taken, sequence)
    ensures Kinds(begun + taken) == Alternation(|begun| + |taken|)
    ensures |begun| + |taken| <= 2 * sequence + 1
    ensures |taken| == (if sequence == 0 then 1 else 2) ==> |begun| + |taken| == 2 * sequence + 1
  {
    assert forall i | 0 <= i < |begun| :: Kinds(begun + taken)[i] == Kinds(begun)[i] == Alternation(|begun|)[i];
  }
}
