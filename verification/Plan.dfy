/** The dry-run plan (src/engine.rs, `plan`), and what a run that fails nowhere makes of it. */
module Planning {
  import opened Wrappers
  import opened Model
  import opened TargetPolicy
  import opened ActionLog
  import opened Diagnosis
  import opened Inspection
  import opened LiveGuarantees

  datatype Purpose =
    | ResolveProxyEndpoint
    | ResolveTarget
    | AttemptConnections
    | ValidateTls
    | RequestWithoutRedirects
    | FollowObservedRedirects

  datatype PlannedProbe = PlannedProbe(sequence: nat, kind: ProbeKind, purpose: Purpose, conditional: bool)

  datatype AddressRule = PublicOnly | NonPublicToo

  const PLAN_SCHEMA: string := "hopwhy.plan.v1"

  datatype InspectionPlan = InspectionPlan(
    schemaVersion: string,
    target: TargetSummary,
    options: InspectionOptions,
    policy: AddressRule,
    plannedProbes: seq<PlannedProbe>,
    networkPerformed: bool)

  method Planned(sequence: nat, kind: ProbeKind, purpose: Purpose, conditional: bool)
    returns (probe: PlannedProbe, next: nat)
    ensures probe == PlannedProbe(sequence, kind, purpose, conditional) && next == sequence + 1
  {
    probe, next := PlannedProbe(sequence, kind, purpose, conditional), sequence + 1;
  }

  /** The planned probes are numbered from one. */
  ghost predicate IsNumbered(probes: seq<PlannedProbe>) {
    forall i | 0 <= i < |probes| :: probes[i].sequence == i + 1
  }

  /** The kinds of the probes that a run without failure cannot do without. */
  function UnconditionalKinds(probes: seq<PlannedProbe>): (kinds: seq<ProbeKind>) {
    if probes == [] then []
    else (if probes[0].conditional then [] else [probes[0].kind]) + UnconditionalKinds(probes[1..])
  }

  /** Planning makes no network action and refuses exactly what an inspection refuses, for the same reason. */
  method Plan(environment: Environment, target: Option<Url>,
              options: InspectionOptions) returns (r: Result<InspectionPlan>)
    ensures match Refusal(environment, target, options)
      case Some(error) => r == Err(error)
      case None => r.Ok?
    ensures r.Ok? ==> ParseTarget(target, options).Ok?
    ensures r.Ok? ==> ResolveProxy(environment, ParseTarget(target, options).value.url, options).Ok?
    ensures r.Ok? ==>
      var parsed := ParseTarget(target, options).value;
      var proxy := ResolveProxy(environment, parsed.url, options).value;
      var setting := Setting(parsed, proxy, options);
      && r.value.target == parsed.summary && r.value.options == options && !r.value.networkPerformed
      && r.value.schemaVersion == PLAN_SCHEMA && (r.value.policy.NonPublicToo? <==> options.allowPrivate)
      && IsNumbered(r.value.plannedProbes) && PlansFor(r.value.plannedProbes, setting)
  {
    hide ParseTarget, ResolveProxy;
    var checked := ValidateOptions(options);
    if checked.Err? {
      return Err(checked.error);
    }
    var parsed := ParseTarget(target, options);
    if parsed.Err? {
      return Err(parsed.error);
    }
    var proxy := ResolveProxy(environment, parsed.value.url, options);
    if proxy.Err? {
      return Err(proxy.error);
    }
    var selected := proxy.value.summary.selected;
    var sequence, probe, probes := 1, PlannedProbe(0, DnsLookup, ResolveTarget, false), [];
    probe, sequence := Planned(sequence, DnsLookup, if selected then ResolveProxyEndpoint else ResolveTarget, false);
    probes := probes + [probe];
    probe, sequence := Planned(sequence, TcpConnect, AttemptConnections, false);
    probes := probes + [probe];
    probe, sequence := Planned(sequence, TlsHandshake, ValidateTls, parsed.value.url.scheme != Https || selected);
    probes := probes + [probe];
    probe, sequence := Planned(sequence, HttpRequest, RequestWithoutRedirects, false);
    probes := probes + [probe];
    probe, sequence := Planned(sequence, HttpRequest, FollowObservedRedirects, true);
    probes := probes + [probe];
    r := Ok(InspectionPlan(PLAN_SCHEMA, parsed.value.summary, options,
                           if options.allowPrivate then NonPublicToo else PublicOnly,
                           probes, false));
  }

  /**
   * Each kind of probe in pipeline order, with its purpose; TLS is conditional unless it applies, and so is the last
   * request. With a proxy it is the proxy's name that is resolved.
   */
  predicate PlansFor(probes: seq<PlannedProbe>, setting: Setting) {
    && |probes| == 5
    && probes[0].kind == DnsLookup && probes[1].kind == TcpConnect && probes[2].kind == TlsHandshake
    && probes[3].kind == HttpRequest && probes[4].kind == HttpRequest
    && !probes[0].conditional && !probes[1].conditional && !probes[3].conditional && probes[4].conditional
    && (probes[2].conditional <==> !TlsApplies(setting))
    && (probes[0].purpose == ResolveProxyEndpoint <==> setting.proxy.summary.selected)
    && (probes[0].purpose == ResolveTarget <==> !setting.proxy.summary.selected)
    && probes[1].purpose == AttemptConnections && probes[2].purpose == ValidateTls
    && probes[3].purpose == RequestWithoutRedirects && probes[4].purpose == FollowObservedRedirects
  }

  function NeededKinds(tls: bool): seq<ProbeKind> {
    [DnsLookup, TcpConnect] + (if tls then [TlsHandshake] else []) + [HttpRequest]
  }

  lemma PlannedKinds(probes: seq<PlannedProbe>, setting: Setting)
    requires PlansFor(probes, setting)
    ensures UnconditionalKinds(probes) == NeededKinds(TlsApplies(setting))
  {
    hide TlsApplies;
    assert probes[1..][1..] == probes[2..] && probes[2..][1..] == probes[3..];
    assert probes[3..][1..] == [probes[4]] && UnconditionalKinds([probes[4]]) == [];
    assert UnconditionalKinds(probes[3..]) == [HttpRequest];
    assert UnconditionalKinds(probes[1..]) == [TcpConnect] + UnconditionalKinds(probes[2..]);
    assert UnconditionalKinds(probes[2..])
      == (if probes[2].conditional then [] else [TlsHandshake]) + UnconditionalKinds(probes[3..]);
  }

  /** The kinds occur among the recorded ones, in this order, at the given places. */
  ghost predicate OccursAt(kinds: seq<ProbeKind>, recorded: seq<ProbeKind>, places: seq<nat>) {
    && |places| == |kinds|
    && (forall i | 0 <= i < |places| :: places[i] < |recorded| && recorded[places[i]] == kinds[i])
    && (forall i, j | 0 <= i < j < |places| :: places[i] < places[j])
  }

  /** A run that fails nowhere has executed every unconditional probe of its plan, in plan order. */
  lemma CompletedRunExecutesPlan(run: Run, report: Report, probes: seq<PlannedProbe>)
    requires ReportsLiveRun(run, report) && report.failedAt.None?
    requires PlansFor(probes, run.setting)
    ensures exists places: seq<nat> :: OccursAt(UnconditionalKinds(probes), RecordedKinds(report.probes), places)
  {
    hide ReportsLiveRun, PlansFor, RecordedKinds, UnconditionalKinds, FullTrace, TlsApplies, OccursAt, NeededKinds;
    CompletedRunTrace(run, report);
    PlannedKinds(probes, run.setting);
    FullTraceHoldsPlan(|run.log.tcp|, TlsApplies(run.setting), |report.http| - 1);
  }

  lemma FullTraceHoldsPlan(attempts: nat, tls: bool, redirects: nat)
    requires attempts > 0
    ensures exists places: seq<nat> :: OccursAt(NeededKinds(tls), FullTrace(attempts, tls, redirects), places)
  {
    var trace := FullTrace(attempts, tls, redirects);
    assert trace[0] == DnsLookup && trace[attempts] == TcpConnect;
    if tls {
      assert trace[attempts + 1] == TlsHandshake && trace[attempts + 2] == HttpRequest;
      assert OccursAt(NeededKinds(tls), trace, [0, attempts, attempts + 1, attempts + 2]);
    } else {
      assert trace[attempts + 1] == HttpRequest;
      assert OccursAt(NeededKinds(tls), trace, [0, attempts, attempts + 1]);
    }
  }
}
