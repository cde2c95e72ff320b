/** The data of an inspection: options, targets, probes, phases and reports (src/model.rs, src/error.rs). */
module Model {
  import opened Wrappers
  import opened AddressPolicy

  datatype Result<+T> = Ok(value: T) | Err(error: AppError)

  datatype AppError = AppError(code: ErrorCode, retryable: bool)

  datatype ErrorCode =
    | InvalidBudget
    | InvalidProbeLimit
    | InvalidAddressLimit
    | InvalidRedirectLimit
    | InvalidBodyLimit
    | InvalidTarget
    | UnsupportedScheme
    | MissingTargetHost
    | EmbeddedCredentialsDenied
    | InvalidProxyUrl
    | UnsupportedProxyScheme
    | MissingProxyHost
    | BudgetExhausted
    | DnsResolutionFailed
    | DnsEmptyAnswer
    | NonPublicAddressDenied
    | TcpConnectFailed
    | TlsTransportFailed
    | InvalidTlsServerName
    | TlsConfigurationFailed
    | TlsHandshakeFailed
    | RedirectTargetDenied
    | ProxyConfigurationRejected
    | HttpClientInitializationFailed
    | HttpTimeout
    | HttpTlsOrConnectFailed
    | HttpConnectFailed
    | HttpRequestFailed
    | ResponseBodyReadFailed
    | InvalidRedirectLocation
    | RedirectLimitReached
    | UnsupportedReportSchema
    | MissingReportDigest
    | SerializationFailed
    | ReportIntegrityMismatch
    | PhaseFailed
    | RequestPathObserved
    | OtherCode(name: string)

  datatype InspectionOptions = InspectionOptions(
    budgetMs: nat,
    maxProbes: nat,
    maxAddresses: nat,
    maxRedirects: nat,
    maxBodyBytes: nat,
    includeBodySample: bool,
    allowPrivate: bool,
    showAddresses: bool,
    showQueryValues: bool,
    disableProxy: bool)

  function ValidateOptions(options: InspectionOptions): Result<()> {
    if !(100 <= options.budgetMs <= 120_000) then Err(AppError(InvalidBudget, false))
    else if !(1 <= options.maxProbes <= 64) then Err(AppError(InvalidProbeLimit, false))
    else if !(1 <= options.maxAddresses <= 16) then Err(AppError(InvalidAddressLimit, false))
    else if options.maxRedirects > 10 then Err(AppError(InvalidRedirectLimit, false))
    else if options.maxBodyBytes > 1_048_576 then Err(AppError(InvalidBodyLimit, false))
    else Ok(())
  }

  predicate ValidOptions(options: InspectionOptions) {
    ValidateOptions(options).Ok?
  }

  datatype Scheme = PlainHttp | Https | OtherScheme(name: string)

  /** A parsed URL; `query` holds its decoded pairs. */
  datatype Url = Url(
    scheme: Scheme,
    username: string,
    password: Option<string>,
    host: Option<string>,
    port: Option<nat>,
    path: string,
    query: Option<seq<(string, string)>>,
    fragment: Option<string>)

  datatype SocketAddr = SocketAddr(ip: IpAddr, port: nat)

  /** An address as a report shows it: in full, or as a family and a short digest. */
  datatype AddressLabel = AddressLabel(address: SocketAddr, shown: bool)

  datatype ProbeKind = DnsLookup | TcpConnect | TlsHandshake | HttpRequest

  datatype Destination =
    | Endpoint(host: string, port: nat)
    | Peer(shownAs: AddressLabel)
    | Page(url: Url)
    | ScriptedObservation

  datatype Outcome =
    | Resolved
    | Failed
    | Connected
    | TcpFailed
    | InvalidServerName
    | ConfigurationFailed
    | HandshakeFailed
    | Validated
    | ResponseReceived
    | RequestFailed

  datatype ProbeRecord = ProbeRecord(
    sequence: nat,
    kind: ProbeKind,
    destination: Destination,
    startedMs: nat,
    durationMs: nat,
    outcome: Outcome)

  datatype TargetSummary = TargetSummary(intended: Url, effective: Url, scheme: Scheme, host: string, port: nat)

  datatype ProxySummary = ProxySummary(
    selected: bool,
    source: Option<string>,
    endpoint: Option<Url>,
    bypassReason: Option<string>)

  datatype AddressObservation = AddressObservation(
    address: AddressLabel,
    ipv6: bool,
    permitted: bool,
    classification: Classification)

  datatype TlsSummary = TlsSummary(protocol: string, certificateCount: nat)

  type Byte = x: nat | x < 0x100

  /** The digest of a body; equal for equal bodies. */
  datatype BodyDigest = BodyDigest(of: seq<Byte>)

  datatype HttpHop = HttpHop(
    sequence: nat,
    url: Url,
    status: nat,
    returnedBodyBytes: nat,
    bodyTruncated: bool,
    bodyDigest: BodyDigest,
    bodySample: Option<seq<Byte>>,
    location: Option<Url>)

  datatype PhaseName = Input | Proxy | Dns | Tcp | Tls | Http | Redirects | Assertions

  datatype PhaseStatus = Passed | Failed | Skipped | NotObserved

  function PhaseRank(phase: PhaseName): (rank: nat)
    ensures rank < 8
  {
    match phase
    case Input => 0
    case Proxy => 1
    case Dns => 2
    case Tcp => 3
    case Tls => 4
    case Http => 5
    case Redirects => 6
    case Assertions => 7
  }

  datatype Observation =
    | NormalizedTarget(target: Url)
    | ProxySelection(proxy: ProxySummary)
    | ResolvedAddressCount(count: nat)
    | PermittedAddressCount(count: nat)
    | SelectedAddress(shownAs: AddressLabel)
    | TlsNegotiation(summary: TlsSummary)
    | ResponseStatuses(statuses: seq<nat>)
    | RedirectHops(count: nat)

  datatype Limitation = PlaintextTarget | TlsInsideProxy | NoRedirectRequested | NoAssertionConfigured

  datatype Phase = Phase(
    name: PhaseName,
    status: PhaseStatus,
    durationMs: nat,
    observations: seq<Observation>,
    limitations: seq<Limitation>,
    error: Option<AppError>)

  /** `about` selects the fixed statement and next step: those of a failed phase, or of a completed run. */
  datatype Hypothesis = Hypothesis(
    code: ErrorCode,
    about: Option<PhaseName>,
    confidence: real,
    evidencePhases: seq<PhaseName>)

  datatype RuledOut = DnsRuledOut | TcpRuledOut | TlsRuledOut | HttpRuledOut

  datatype Omission = ResolverInternals | PacketPaths | ProxyTlsNotSeparated

  datatype Usage = Usage(elapsedMs: nat, probesUsed: nat, responseBytesRead: nat)

  const REPORT_SCHEMA: string := "hopwhy.report.v1"

  datatype Report = Report(
    schemaVersion: string,
    startedAtUnixMs: nat,
    target: TargetSummary,
    proxy: ProxySummary,
    options: InspectionOptions,
    usage: Usage,
    probes: seq<ProbeRecord>,
    addresses: seq<AddressObservation>,
    tls: Option<TlsSummary>,
    http: seq<HttpHop>,
    phases: seq<Phase>,
    failedAt: Option<PhaseName>,
    hypotheses: seq<Hypothesis>,
    ruledOut: seq<RuledOut>,
    omissions: seq<Omission>,
    reportSha256: Option<string>)
}
