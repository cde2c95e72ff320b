/** Target validation, URL redaction and proxy selection (src/policy.rs). */
module TargetPolicy {
  import opened Wrappers
  import opened Model
  import Text
  import NoProxy

  datatype ParsedTarget = ParsedTarget(url: Url, summary: TargetSummary)

  datatype ResolvedProxy = ResolvedProxy(
    summary: ProxySummary,
    url: Option<Url>,
    connectHost: string,
    connectPort: nat)

  /** The process environment and the URL parser used on proxy settings. */
  datatype Environment = Environment(variables: map<string, string>, parse: string -> Option<Url>)

  function PortOrKnownDefault(url: Url): Option<nat> {
    if url.port.Some? then url.port
    else if url.scheme == PlainHttp then Some(80)
    else if url.scheme == Https then Some(443)
    else None
  }

  function HideValues(pairs: seq<(string, string)>): (hidden: seq<(string, string)>)
    ensures |hidden| == |pairs|
    ensures forall i | 0 <= i < |pairs| :: hidden[i] == (pairs[i].0, "REDACTED")
  {
    seq(|pairs|, i requires 0 <= i < |pairs| => (pairs[i].0, "REDACTED"))
  }

  function RedactUrl(url: Url, showQueryValues: bool): Url {
    var bare := url.(username := "", password := None, fragment := None);
    if bare.query.Some? && !showQueryValues then bare.(query := Some(HideValues(bare.query.value)))
    else bare
  }

  /** No credentials, no fragment and, unless they may be shown, no query values. */
  predicate IsRedacted(url: Url, showQueryValues: bool) {
    && url.username == "" && url.password.None? && url.fragment.None?
    && (url.query.Some? && !showQueryValues ==>
          forall i | 0 <= i < |url.query.value| :: url.query.value[i].1 == "REDACTED")
  }

  lemma RedactionRedacts(url: Url, showQueryValues: bool)
    ensures IsRedacted(RedactUrl(url, showQueryValues), showQueryValues)
  {
  }

  function WithoutFragment(url: Url): Url {
    url.(fragment := None)
  }

  /** `raw` is None when the text is not an absolute URL. */
  function ParseTarget(raw: Option<Url>, options: InspectionOptions): Result<ParsedTarget> {
    if raw.None? then Err(AppError(InvalidTarget, false))
    else
      var url := raw.value;
      if url.scheme != PlainHttp && url.scheme != Https then Err(AppError(UnsupportedScheme, false))
      else if url.host.None? then Err(AppError(MissingTargetHost, false))
      else if url.username != "" || url.password.Some? then Err(AppError(EmbeddedCredentialsDenied, false))
      else
        var clean := WithoutFragment(url);
        var redacted := RedactUrl(clean, options.showQueryValues);
        Ok(ParsedTarget(clean, TargetSummary(redacted, redacted, url.scheme, url.host.value,
                                             PortOrKnownDefault(clean).value)))
  }

  function DirectProxy(host: string, port: nat, bypassReason: Option<string>): ResolvedProxy {
    ResolvedProxy(ProxySummary(false, None, None, bypassReason), None, host, port)
  }

  /** The first listed variable with a non-blank value. */
  function FirstEnvironmentValue(environment: Environment, keys: seq<string>): (found: Option<(string, string)>)
  {
    if keys == [] then None
    else if keys[0] in environment.variables && Text.Trim(environment.variables[keys[0]]) != "" then
      Some((keys[0], environment.variables[keys[0]]))
    else FirstEnvironmentValue(environment, keys[1..])
  }

  predicate Contains(text: string, part: string) {
    part <= text || (text != "" && Contains(text[1..], part))
  }

  function ResolveProxy(environment: Environment, target: Url, options: InspectionOptions): Result<ResolvedProxy> {
    var host := if target.host.Some? then target.host.value else "";
    var port := if PortOrKnownDefault(target).Some? then PortOrKnownDefault(target).value else 0;
    if options.disableProxy then Ok(DirectProxy(host, port, Some("proxy use disabled by option")))
    else
      var bypass := FirstEnvironmentValue(environment, ["no_proxy", "NO_PROXY"]);
      if bypass.Some? && NoProxy.NoProxyMatches(bypass.value.1, host, port) then
        Ok(DirectProxy(host, port, Some("matched " + bypass.value.0)))
      else
        var setting := FirstEnvironmentValue(environment,
          (if target.scheme == Https then ["https_proxy", "HTTPS_PROXY"] else ["http_proxy", "HTTP_PROXY"])
          + ["all_proxy", "ALL_PROXY"]);
        if setting.None? then Ok(DirectProxy(host, port, None))
        else ProxyFromSetting(environment, setting.value.0, setting.value.1)
  }

  function ProxyFromSetting(environment: Environment, key: string, value: string): Result<ResolvedProxy> {
    var parsed := environment.parse(if Contains(value, "://") then value else "http://" + value);
    if parsed.None? then Err(AppError(InvalidProxyUrl, false))
    else if parsed.value.scheme != PlainHttp && parsed.value.scheme != Https then
      Err(AppError(UnsupportedProxyScheme, false))
    else if parsed.value.host.None? then Err(AppError(MissingProxyHost, false))
    else
      Ok(ResolvedProxy(ProxySummary(true, Some(key), Some(RedactUrl(parsed.value, false)), None),
                       Some(parsed.value), parsed.value.host.value, PortOrKnownDefault(parsed.value).value))
  }

  // ----- Which URLs are targets -----

  /** An http or https URL with a host and without credentials. */
  predicate IsTarget(url: Url) {
    IsWeb(url) && url.host.Some? && url.username == "" && url.password.None?
  }

  predicate IsWeb(url: Url) {
    url.scheme.PlainHttp? || url.scheme.Https?
  }

  /** The port that the URL names, or else that of its scheme. */
  predicate GoesToPort(url: Url, port: nat) {
    match url.port
    case Some(named) => port == named
    case None => (url.scheme.PlainHttp? && port == 80) || (url.scheme.Https? && port == 443)
  }

  /** What keeps it from being a target: the first thing missing. */
  predicate TargetLacks(raw: Option<Url>, error: AppError) {
    && !error.retryable
    && match raw
       case None => error.code == InvalidTarget
       case Some(url) =>
         match error.code
         case UnsupportedScheme => !IsWeb(url)
         case MissingTargetHost => IsWeb(url) && url.host.None?
         case EmbeddedCredentialsDenied => IsWeb(url) && url.host.Some? && (url.username != "" || url.password.Some?)
         case _ => false
  }

  /** The same page, without credentials, fragment and, unless they may be shown, query values. */
  predicate Shows(shown: Url, url: Url, showQueryValues: bool) {
    && IsRedacted(shown, showQueryValues)
    && shown.scheme == url.scheme && shown.host == url.host && shown.port == url.port && shown.path == url.path
    && match url.query
       case None => shown.query.None?
       case Some(pairs) =>
         && shown.query.Some? && |shown.query.value| == |pairs|
         && (forall i | 0 <= i < |pairs| :: shown.query.value[i].0 == pairs[i].0)
         && (showQueryValues ==> forall i | 0 <= i < |pairs| :: shown.query.value[i].1 == pairs[i].1)
  }

  lemma RedactionShows(url: Url, showQueryValues: bool)
    ensures Shows(RedactUrl(url, showQueryValues), url, showQueryValues)
  {
  }

  /** Exactly the targets are accepted, and reported as they are; all others are refused for what they lack. */
  lemma TargetsAreExact(raw: Option<Url>, options: InspectionOptions)
    ensures match ParseTarget(raw, options)
      case Ok(target) =>
        && raw.Some? && IsTarget(raw.value) && target.url == raw.value.(fragment := None)
        && target.summary.scheme == raw.value.scheme && Some(target.summary.host) == raw.value.host
        && GoesToPort(raw.value, target.summary.port)
        && Shows(target.summary.intended, raw.value, options.showQueryValues)
        && target.summary.effective == target.summary.intended
      case Err(error) => TargetLacks(raw, error)
  {
    if raw.Some? {
      RedactionShows(raw.value, options.showQueryValues);
    }
  }

  // ----- Where requests go -----

  /** The variable is set to more than white space. */
  predicate IsSet(environment: Environment, key: string) {
    key in environment.variables && !Text.IsBlank(environment.variables[key])
  }

  /** The variable is set, and none before it in the order is. */
  predicate IsFirstSet(environment: Environment, order: seq<string>, key: string) {
    && IsSet(environment, key)
    && exists i | 0 <= i < |order| :: order[i] == key && forall j | 0 <= j < i :: !IsSet(environment, order[j])
  }

  lemma {:induction false} FirstSetIsFound(environment: Environment, order: seq<string>)
    ensures match FirstEnvironmentValue(environment, order)
      case Some(found) => IsFirstSet(environment, order, found.0) && found.1 == environment.variables[found.0]
      case None => forall i | 0 <= i < |order| :: !IsSet(environment, order[i])
    ensures forall key | IsFirstSet(environment, order, key) ::
      FirstEnvironmentValue(environment, order) == Some((key, environment.variables[key]))
  {
    if order != [] {
      var key := order[0];
      if key in environment.variables {
        var _, _ := Text.TrimIsExact(environment.variables[key]);
      }
      if !IsSet(environment, key) {
        FirstSetIsFound(environment, order[1..]);
        OneMoreUnset(environment, order);
      }
    }
  }

  lemma OneMoreUnset(environment: Environment, order: seq<string>)
    requires order != [] && !IsSet(environment, order[0])
    ensures forall key :: IsFirstSet(environment, order, key) <==> IsFirstSet(environment, order[1..], key)
  {
    hide IsSet;
    forall key | IsFirstSet(environment, order, key) ensures IsFirstSet(environment, order[1..], key) {
      var i :| 0 <= i < |order| && order[i] == key && forall j | 0 <= j < i :: !IsSet(environment, order[j]);
      assert order[1..][i - 1] == key;
    }
    forall key | IsFirstSet(environment, order[1..], key) ensures IsFirstSet(environment, order, key) {
      var rest := order[1..];
      var i :| 0 <= i < |rest| && rest[i] == key && forall j | 0 <= j < i :: !IsSet(environment, rest[j]);
      assert order[i + 1] == key;
      assert forall j | 0 < j < i + 1 :: order[j] == rest[j - 1];
    }
  }

  /** The variable whose proxy serves this scheme. */
  predicate IsProxyVariable(environment: Environment, scheme: Scheme, key: string) {
    IsFirstSet(environment,
               if scheme.Https? then ["https_proxy", "HTTPS_PROXY", "all_proxy", "ALL_PROXY"]
               else ["http_proxy", "HTTP_PROXY", "all_proxy", "ALL_PROXY"],
               key)
  }

  /** The host and port that the URL itself leads to. */
  predicate LeadsTo(url: Url, host: string, port: nat) {
    && host == (if url.host.Some? then url.host.value else "")
    && (GoesToPort(url, port) || (url.port.None? && url.scheme.OtherScheme? && port == 0))
  }

  /** The variable is the bypass list in effect, and it covers the host and port of the URL. */
  ghost predicate IsBypassed(environment: Environment, url: Url, key: string) {
    && IsFirstSet(environment, ["no_proxy", "NO_PROXY"], key)
    && exists host, port | LeadsTo(url, host, port) :: NoProxy.Covers(environment.variables[key], host, port)
  }

  /** Proxies are enabled, the URL is not bypassed, and there is a proxy for its scheme. */
  ghost predicate UsesProxy(environment: Environment, options: InspectionOptions, url: Url) {
    && !options.disableProxy && (forall key :: !IsBypassed(environment, url, key))
    && exists key :: IsProxyVariable(environment, url.scheme, key)
  }

  /** The setting is that of the URL, which is http if it names no scheme. */
  predicate IsSetting(environment: Environment, value: string, url: Option<Url>) {
    if exists i | 0 <= i < |value| :: OccursAt(value, "://", i) then url == environment.parse(value)
    else url == environment.parse("http://" + value)
  }

  predicate OccursAt(text: string, part: string, i: nat) {
    i + |part| <= |text| && text[i..i + |part|] == part
  }

  lemma {:induction false} ContainsSomewhere(text: string, part: string)
    requires part != ""
    ensures Contains(text, part) <==> exists i | 0 <= i < |text| :: OccursAt(text, part, i)
  {
    if part <= text {
      assert OccursAt(text, part, 0);
    } else if text != "" {
      ContainsSomewhere(text[1..], part);
      if i: nat :| i < |text| - 1 && OccursAt(text[1..], part, i) {
        assert text[i + 1..i + 1 + |part|] == text[1..][i..i + |part|];
        assert OccursAt(text, part, i + 1);
      }
      if i: nat :| i < |text| && OccursAt(text, part, i) {
        assert i == 0 ==> part <= text;
        if i > 0 {
          assert text[1..][i - 1..i - 1 + |part|] == text[i..i + |part|];
          assert OccursAt(text[1..], part, i - 1);
        }
      }
    }
  }

  /** Where a request for the URL goes: to the proxy in its setting, or to the URL's own host and port. */
  ghost predicate GoesVia(environment: Environment, options: InspectionOptions, url: Url, via: Option<Url>,
                          host: string, port: nat) {
    if UsesProxy(environment, options, url) then
      && via.Some? && IsWeb(via.value) && via.value.host == Some(host) && GoesToPort(via.value, port)
      && exists key | IsProxyVariable(environment, url.scheme, key) ::
           IsSetting(environment, environment.variables[key], via)
    else via.None? && LeadsTo(url, host, port)
  }

  /** The proxy as reported: its variable and redacted URL, or why there is none. */
  ghost predicate Explains(environment: Environment, options: InspectionOptions, url: Url, proxy: ProxySummary) {
    if UsesProxy(environment, options, url) then
      && proxy.selected && proxy.bypassReason.None?
      && proxy.source.Some? && IsProxyVariable(environment, url.scheme, proxy.source.value)
      && proxy.endpoint.Some?
      && exists via | IsSetting(environment, environment.variables[proxy.source.value], Some(via)) ::
           Shows(proxy.endpoint.value, via, false)
    else
      && !proxy.selected && proxy.source.None? && proxy.endpoint.None?
      && match proxy.bypassReason
         case None => !options.disableProxy && forall key :: !IsBypassed(environment, url, key)
         case Some(reason) =>
           if options.disableProxy then reason == "proxy use disabled by option"
           else exists key | IsBypassed(environment, url, key) :: reason == "matched " + key
  }

  /** What keeps a setting from being a proxy. */
  ghost predicate SettingLacks(environment: Environment, value: string, error: AppError) {
    && !error.retryable
    && match error.code
       case InvalidProxyUrl => IsSetting(environment, value, None)
       case UnsupportedProxyScheme => exists url | IsSetting(environment, value, Some(url)) :: !IsWeb(url)
       case MissingProxyHost =>
         exists url | IsSetting(environment, value, Some(url)) :: IsWeb(url) && url.host.None?
       case _ => false
  }

  ghost predicate ProxyIsRefused(environment: Environment, options: InspectionOptions, url: Url, error: AppError) {
    && UsesProxy(environment, options, url)
    && exists key | IsProxyVariable(environment, url.scheme, key) ::
         SettingLacks(environment, environment.variables[key], error)
  }

  /** There is somewhere for a request to go. */
  ghost predicate HasRoute(environment: Environment, options: InspectionOptions, url: Url) {
    exists via, host, port :: GoesVia(environment, options, url, via, host, port)
  }

  lemma SettingIsExact(environment: Environment, key: string, value: string)
    ensures match ProxyFromSetting(environment, key, value)
      case Ok(proxy) =>
        && proxy.url.Some? && IsWeb(proxy.url.value) && IsSetting(environment, value, proxy.url)
        && proxy.url.value.host == Some(proxy.connectHost) && GoesToPort(proxy.url.value, proxy.connectPort)
        && proxy.summary.selected && proxy.summary.source == Some(key) && proxy.summary.bypassReason.None?
        && proxy.summary.endpoint.Some? && Shows(proxy.summary.endpoint.value, proxy.url.value, false)
      case Err(error) => SettingLacks(environment, value, error)
  {
    ContainsSomewhere(value, "://");
    hide Contains, Shows, RedactUrl;
    var parsed := environment.parse(if Contains(value, "://") then value else "http://" + value);
    assert IsSetting(environment, value, parsed);
    hide IsSetting;
    if parsed.Some? {
      RedactionShows(parsed.value, false);
    }
  }

  lemma BypassIsExact(environment: Environment, url: Url, host: string, port: nat)
    requires LeadsTo(url, host, port)
    ensures match FirstEnvironmentValue(environment, ["no_proxy", "NO_PROXY"])
      case Some(list) =>
        forall key :: IsBypassed(environment, url, key) <==>
          key == list.0 && NoProxy.NoProxyMatches(list.1, host, port)
      case None => forall key :: !IsBypassed(environment, url, key)
  {
    FirstSetIsFound(environment, ["no_proxy", "NO_PROXY"]);
    hide IsFirstSet, FirstEnvironmentValue, NoProxy.NoProxyMatches, NoProxy.Covers;
    var list := FirstEnvironmentValue(environment, ["no_proxy", "NO_PROXY"]);
    if list.Some? {
      NoProxy.ListMatchesByLabels(list.value.1, host, port);
    }
  }

  /**
   * A request goes through a proxy exactly when proxies are enabled, no entry of the bypass list in effect covers its
   * host and port, and a variable for its scheme is set. It is refused only for that variable's setting.
   */
  lemma ProxySelectionIsExact(environment: Environment, url: Url, options: InspectionOptions)
    ensures match ResolveProxy(environment, url, options)
      case Ok(proxy) =>
        && GoesVia(environment, options, url, proxy.url, proxy.connectHost, proxy.connectPort)
        && Explains(environment, options, url, proxy.summary)
      case Err(error) => ProxyIsRefused(environment, options, url, error)
  {
    var host := if url.host.Some? then url.host.value else "";
    var port := if PortOrKnownDefault(url).Some? then PortOrKnownDefault(url).value else 0;
    assert LeadsTo(url, host, port);
    var order := (if url.scheme == Https then ["https_proxy", "HTTPS_PROXY"] else ["http_proxy", "HTTP_PROXY"])
      + ["all_proxy", "ALL_PROXY"];
    var bypass := FirstEnvironmentValue(environment, ["no_proxy", "NO_PROXY"]);
    var setting := FirstEnvironmentValue(environment, order);
    SelectionSteps(environment, url, options, host, port, order);
    hide FirstEnvironmentValue, ResolveProxy, NoProxy.NoProxyMatches, GoesVia, Explains, UsesProxy, LeadsTo,
         ProxyIsRefused, IsProxyVariable, IsBypassed, IsFirstSet, IsSet, ProxyFromSetting;
    BypassIsExact(environment, url, host, port);
    FirstSetIsFound(environment, order);
    VariablesInOrder(environment, url.scheme, order);
    SelectionCases(environment, url, options, host, port, bypass, setting);
  }

  lemma SelectionCases(environment: Environment, url: Url, options: InspectionOptions, host: string, port: nat,
                       bypass: Option<(string, string)>, setting: Option<(string, string)>)
    requires LeadsTo(url, host, port)
    requires forall key :: IsBypassed(environment, url, key) <==>
      bypass.Some? && key == bypass.value.0 && NoProxy.NoProxyMatches(bypass.value.1, host, port)
    requires match setting
      case Some(found) =>
        IsProxyVariable(environment, url.scheme, found.0) && found.1 == environment.variables[found.0]
      case None => forall key :: !IsProxyVariable(environment, url.scheme, key)
    requires SelectsBy(environment, url, options, host, port, bypass, setting)
    ensures match ResolveProxy(environment, url, options)
      case Ok(proxy) =>
        && GoesVia(environment, options, url, proxy.url, proxy.connectHost, proxy.connectPort)
        && Explains(environment, options, url, proxy.summary)
      case Err(error) => ProxyIsRefused(environment, options, url, error)
  {
    hide NoProxy.NoProxyMatches, GoesVia, Explains, UsesProxy, LeadsTo, ProxyIsRefused, IsProxyVariable, IsBypassed,
         ProxyFromSetting, ResolveProxy;
    if options.disableProxy || (exists key :: IsBypassed(environment, url, key)) || setting.None? {
      DirectIsExact(environment, url, options, host, port, ResolveProxy(environment, url, options).value.summary);
    } else {
      assert bypass.Some? ==> !IsBypassed(environment, url, bypass.value.0);
      SettingIsUsed(environment, url, options, setting.value.0);
    }
  }

  /** What the selection comes down to, given the two variables that it looks for. */
  lemma SelectionSteps(environment: Environment, url: Url, options: InspectionOptions, host: string, port: nat,
                       order: seq<string>)
    requires host == if url.host.Some? then url.host.value else ""
    requires port == if PortOrKnownDefault(url).Some? then PortOrKnownDefault(url).value else 0
    requires order == (if url.scheme == Https then ["https_proxy", "HTTPS_PROXY"] else ["http_proxy", "HTTP_PROXY"])
      + ["all_proxy", "ALL_PROXY"]
    ensures SelectsBy(environment, url, options, host, port,
                      FirstEnvironmentValue(environment, ["no_proxy", "NO_PROXY"]),
                      FirstEnvironmentValue(environment, order))
  {
    hide FirstEnvironmentValue, ProxyFromSetting, NoProxy.NoProxyMatches, PortOrKnownDefault;
  }

  predicate SelectsBy(environment: Environment, url: Url, options: InspectionOptions, host: string, port: nat,
                      bypass: Option<(string, string)>, setting: Option<(string, string)>) {
    var r := ResolveProxy(environment, url, options);
    if options.disableProxy then r == Ok(DirectProxy(host, port, Some("proxy use disabled by option")))
    else if bypass.Some? && NoProxy.NoProxyMatches(bypass.value.1, host, port) then
      r == Ok(DirectProxy(host, port, Some("matched " + bypass.value.0)))
    else if setting.None? then r == Ok(DirectProxy(host, port, None))
    else r == ProxyFromSetting(environment, setting.value.0, setting.value.1)
  }

  lemma DirectIsExact(environment: Environment, url: Url, options: InspectionOptions, host: string, port: nat,
                      proxy: ProxySummary)
    requires LeadsTo(url, host, port) && proxy == ProxySummary(false, None, None, proxy.bypassReason)
    requires if options.disableProxy then proxy.bypassReason == Some("proxy use disabled by option")
             else match proxy.bypassReason
               case None =>
                 && (forall key :: !IsBypassed(environment, url, key))
                 && forall key :: !IsProxyVariable(environment, url.scheme, key)
               case Some(reason) => exists key | IsBypassed(environment, url, key) :: reason == "matched " + key
    ensures !UsesProxy(environment, options, url)
    ensures GoesVia(environment, options, url, None, host, port) && Explains(environment, options, url, proxy)
  {
    hide LeadsTo, IsBypassed, IsProxyVariable, IsSetting;
  }

  lemma SettingIsUsed(environment: Environment, url: Url, options: InspectionOptions, key: string)
    requires !options.disableProxy && IsProxyVariable(environment, url.scheme, key)
    requires forall list :: !IsBypassed(environment, url, list)
    ensures match ProxyFromSetting(environment, key, environment.variables[key])
      case Ok(proxy) =>
        && GoesVia(environment, options, url, proxy.url, proxy.connectHost, proxy.connectPort)
        && Explains(environment, options, url, proxy.summary)
      case Err(error) => ProxyIsRefused(environment, options, url, error)
  {
    SettingIsExact(environment, key, environment.variables[key]);
    hide ProxyFromSetting, IsBypassed, IsFirstSet, IsSetting, SettingLacks, LeadsTo, GoesToPort, IsWeb, Shows;
  }

  lemma VariablesInOrder(environment: Environment, scheme: Scheme, order: seq<string>)
    requires order == (if scheme.Https? then ["https_proxy", "HTTPS_PROXY"] else ["http_proxy", "HTTP_PROXY"])
      + ["all_proxy", "ALL_PROXY"]
    ensures forall key :: IsProxyVariable(environment, scheme, key) <==> IsFirstSet(environment, order, key)
    ensures (forall i | 0 <= i < |order| :: !IsSet(environment, order[i]))
      ==> forall key :: !IsProxyVariable(environment, scheme, key)
  {
    hide IsSet;
    assert order == if scheme.Https? then ["https_proxy", "HTTPS_PROXY", "all_proxy", "ALL_PROXY"]
                    else ["http_proxy", "HTTP_PROXY", "all_proxy", "ALL_PROXY"];
  }

  /** The fragment takes part in no policy decision and never reaches a report. */
  lemma FragmentsAreIrrelevant(environment: Environment, url: Url, options: InspectionOptions)
    ensures ResolveProxy(environment, WithoutFragment(url), options) == ResolveProxy(environment, url, options)
    ensures RedactUrl(WithoutFragment(url), options.showQueryValues) == RedactUrl(url, options.showQueryValues)
  {
  }

  /** Parsing what was parsed changes nothing, and the reported target is the redacted URL that is requested. */
  lemma ParsingIsIdempotent(raw: Option<Url>, options: InspectionOptions)
    requires ParseTarget(raw, options).Ok?
    ensures var target := ParseTarget(raw, options).value;
      && ParseTarget(Some(target.url), options) == Ok(target)
      && target.summary.intended == RedactUrl(target.url, options.showQueryValues)
  {
  }

  lemma ParseErrors(raw: Option<Url>, options: InspectionOptions)
    requires ParseTarget(raw, options).Err?
    ensures ParseTarget(raw, options).error.code
      in {InvalidTarget, UnsupportedScheme, MissingTargetHost, EmbeddedCredentialsDenied}
  {
  }

  /** Proxy selection fails only because the selected setting is unusable. */
  lemma ProxyErrors(environment: Environment, url: Url, options: InspectionOptions)
    requires ResolveProxy(environment, url, options).Err?
    ensures !options.disableProxy
    ensures ResolveProxy(environment, url, options).error.code
      in {InvalidProxyUrl, UnsupportedProxyScheme, MissingProxyHost}
  {
    hide NoProxy.NoProxyMatches, FirstEnvironmentValue, Contains;
  }

  /** A direct connection goes to the target itself; a proxy is selected only with its URL, and shown redacted. */
  lemma ConnectsWhereSelected(environment: Environment, url: Url, options: InspectionOptions)
    requires ResolveProxy(environment, url, options).Ok?
    ensures var proxy := ResolveProxy(environment, url, options).value;
      && (proxy.summary.selected <==> proxy.url.Some?)
      && (!proxy.summary.selected && url.host.Some? ==> proxy.connectHost == url.host.value)
      && (!proxy.summary.selected && PortOrKnownDefault(url).Some? ==>
            proxy.connectPort == PortOrKnownDefault(url).value)
      && (proxy.summary.endpoint.Some? ==> IsRedacted(proxy.summary.endpoint.value, false))
      && (options.disableProxy ==> !proxy.summary.selected)
  {
  }
}
