# HopWhy: a verified model

HopWhy diagnoses one HTTP(S) request by probing it, hop by hop, within a budget: DNS, TCP, TLS, HTTP and manually
followed redirects. The first phase that fails is reported with one hypothesis and the classes of failure that the
earlier phases exclude, and the report is sealed with a digest. This project models that engine, the address and
bypass policy it obeys, the offline tools that read its reports, the benchmark gate and the release-readiness
verifier, and proves what each of them guarantees.

## How the model is built

The engine runs against a `Host`: a monotone clock and a network that answers anything, at any time, and keeps a ghost
log of every action begun, with what was answered. `Tracker` is the shared budget of the source: deadline, probe limit,
records and byte counter, updated in place by the live functions and by the scripted backend alike. `Backend` is the
interface between the pipeline and either the live network or a script.

`Inspect` walks the pipeline and proves that its report describes its run, as one of two relations on values:
`ReportsLiveRun` for the live network and `ReportsScript` for a script. Everything that a report guarantees is then a
lemma about these relations, so it holds for every host, every answer and every clock.

| file | what it models |
|---|---|
| `Wrappers`, `Model`, `Host` | the data of inspections, and the world outside the engine |
| `Bits`, `AddressPolicy`, `PrefixTables`, `SpecialPurposeBlocks` | the address decision lists, their prefix tables, and the special-purpose blocks of RFC 6890 |
| `NoProxy`, `TargetPolicy` | bypass lists, target validation, redaction and proxy selection |
| `Tracker`, `Resolver`, `ActionLog`, `Live`, `Redirects` | the budget and the live probes |
| `Diagnosis`, `Backend`, `Engine`, `Inspection`, `Plan` | phases, conclusions, the pipeline, the sealed report, the dry-run plan |
| `Guarantees`, `LiveGuarantees`, `FailureGuarantees`, `DisclosureGuarantees`, `ScriptGuarantees` | what every report guarantees |
| `Witnesses` | runs that show what is not guaranteed |
| `Offline`, `Hex` | verification, replay and comparison of reports |
| `OrderStatistics`, `Benchmark` | the benchmark gate |
| `Evidence` | the release-readiness verifier |

## What the proofs brought to light

- The TLS loop asks whether the remaining time is zero, but the remaining time is never zero: that branch, with its
  `budget_exhausted` record, is dead (src/engine.rs:653-656). A handshake that meets the deadline is therefore begun
  and not recorded, while docs/ARCHITECTURE.md says that every direct TLS handshake consumes a probe slot.
  `ProbeAccounting` says exactly when an action stays unrecorded, `HandshakeMayStayUnrecorded` gives such a run.
- docs/ARCHITECTURE.md says that per-operation timeouts are capped by the remaining deadline. That holds at the instant
  when the time left is read (`TimeoutsAreTimeLeft`), not when the wait begins. A request's timeout is read before its
  client is built and its slot granted (src/engine.rs:804), and the socket of a handshake keeps the timeout that was
  set from the time left before the connection was made (src/engine.rs:622, 638-639): on a budget of 7 s, a connection
  that takes 6.9 s passes the test at line 653 with 0.1 s left, and one read may then wait 7 s, until 13.9 s
  (`HandshakeMayOutlastDeadline`). `WaitsEndByDeadlineExactly` says which waits end by the deadline,
  `HandshakeOverrunIsBounded` that a handshake's wait begun in time outlasts it by less than the budget and 7 s.
- An HTTP error on a later hop drops all earlier hops from the report but leaves their bytes in the counter
  (src/engine.rs:332-351). `response_bytes_read` is the sum of the reported hops if and only if HTTP passed or the
  completed hops have no bytes (`ByteConservation`); `BytesMayBeLost` gives a run where it is not.
- docs/SAFETY.md says that IPv6 prefixes which are not globally reachable fail closed. The IPv4-mapped block
  ::ffff:0:0/96 is such a prefix, but its addresses follow their embedded IPv4 address.
  `NotGlobalIpv6IsDeniedExactly` gives the exact condition, `MappedPublicAddressIsPermitted` an address.
- The scripted backend starts its timing before it asks for a slot, so its records may overlap, by as much as the
  budget leaves room for (`TimingBeforeSlotMayOverlap`) but by at most that lead and one millisecond
  (`OverlapIsBoundedByLead`). Live records never overlap, and the durations of both add up to no more than the elapsed
  time.
- The host of an IPv6 target is compared with its brackets (src/policy.rs:239-243). A bypass entry without brackets
  never matches it, unless it is the wildcard, whether or not its last group reads as a port; an entry in brackets
  matches it, with the right port or none (`DotFreeHostMatchesWhole`, `UnbracketedEntryMissesIpv6`).
- A report is sealed only if its digest could be computed; otherwise it is returned unsealed and refused offline
  (src/engine.rs:1027).
- A passing evaluation used as its own baseline passes again, but only if every metric has a regression policy;
  otherwise no evaluation is made (benchmarks/evaluate.py:255-258).

## Model

| member | source | states |
|---|---|---|
| Inspection.Inspect | src/engine.rs:108-407 | An inspection is refused for exactly the option, target and proxy errors, in that order, with no call and no network action; otherwise it ends in a sealed report whose run is authorized and fully recorded (live) or decided by its script (scripted) |
| Inspection.Walk | src/engine.rs:144-393 | From an untouched tracker the DNS, TCP, TLS and HTTP steps lead to findings, calls and actions that agree with what the answers decide |
| Inspection.RunHttpPhases | src/engine.rs:322-407 | The HTTP, Redirects and Assertions phases end the run; an HTTP error drops all hops from the findings |
| Inspection.FinalizeReport | src/engine.rs:976-1029 | The report is the sealed assembly of the findings, the records and one last clock reading, and the budget invariant survives |
| Engine.RunDns | src/engine.rs:144-222 | Either resolution passed and its permitted list goes on, or the run has ended at DNS, an empty permitted list being a denial |
| Engine.RunTcp | src/engine.rs:224-261 | Either an address of the permitted list was selected, or the run has ended at TCP |
| Engine.RunTls | src/engine.rs:263-320 | TLS is probed only for an https target without a proxy; otherwise the phase is skipped or not observed and nothing is begun |
| Engine.ProbeTlsStage | src/engine.rs:279-319 | A TLS failure ends the run; a handshake cut off by the deadline is the one action that stays unrecorded |
| Diagnosis.PhaseListShape | src/engine.rs:116-407 | Whatever the backend answers, phase names run contiguously from Input in rank order and fail exactly at the first failing answer, with its error, nothing but Assertions following |
| Diagnosis.ConclusionsAreGrounded | src/engine.rs:1048-1127 | The single hypothesis carries the error code of the first failure and cites only phases of matching status; the excluded classes are those of the stages passed before it |
| Diagnosis.RuledOutAreThePassedStages | src/engine.rs:1112-1127 | Filtering the phase list yields exactly the classes of the DNS, TCP, TLS and HTTP stages that passed, in order |
| Diagnosis.AgreementDecidesTheRun | src/engine.rs:108-407 | Answers that agree as far as the run asks give the same findings, calls and failure |
| Diagnosis.CallsStopAtFirstFailure | src/engine.rs:144-329 | Each backend stage is called at most once, and exactly when every stage ranked before it passed or does not apply |
| Diagnosis.WithoutClockAssembles | src/engine.rs:976-1029 | Taking the clock readings and the seal out of a report gives the report assembled without a clock: no conclusion depends on time |
| Guarantees.ReportsAreGrounded | src/engine.rs:988-993 | Read off the report alone: phases in rank order, at most one failed, one hypothesis with the failed phase's code, and exclusions equal to the classes of phases passed before the failure |
| Guarantees.HypothesisIsAsSure | src/engine.rs:1048-1109 | The one hypothesis is about the failed phase and cites it, or the DNS, TCP and HTTP phases of a path that was observed, with 95% for DNS and TLS, 90% for TCP, 80% for HTTP and certainty otherwise |
| Guarantees.PhasesShowTheReport | src/engine.rs:116-407 | Phases show what the rest of the report says: target, proxy, the negotiated TLS, the status of every hop, the number of redirects; TLS is skipped exactly for plaintext and not observed exactly behind a proxy, which is then named among the omissions |
| Inspection.RefusalIsExact | src/engine.rs:108-142 | An inspection or a plan is refused if and only if an option is out of range, the target is no http or https URL with a host and without credentials, or the setting of its proxy is unusable; with the code of the first of these |
| LiveGuarantees.TraceGrammar | src/engine.rs:584-801 | The recorded probes of every live run are a prefix of Dns, 1 to max_addresses Tcp (all but the last failed), Tls only for https without a proxy, Http, then at most max_redirects pairs Dns Http |
| LiveGuarantees.ProbeAccounting | src/engine.rs:1251-1274 | Records are numbered from 1; actions begun never exceed min(max_probes, max_addresses + 3 + 2 max_redirects); begun minus recorded is 0 or 1, and it is 1 if and only if a handshake was begun and the run failed at TLS for budget_exhausted; the unrecorded action is then that handshake, of which nothing was refused but exchanges are missing, and the time budget has passed |
| Witnesses.HandshakeMayStayUnrecorded | src/engine.rs:612-689 | Counterexample to complete accounting: a live run whose begun handshake is not among its records |
| LiveGuarantees.CompletedRunTrace | src/engine.rs:144-393 | A live run without failure has executed the whole trace of its hops, probe for probe |
| LiveGuarantees.ByteConservation | src/engine.rs:332-351 | The byte counter is the sum of the bodies of the completed hops; it is the sum of the reported hops if and only if HTTP passed or the completed hops have no bytes. If HTTP passed it is at most (max_redirects + 1) max_body_bytes; otherwise no hop is reported and it is at most max_redirects max_body_bytes, and 0 if HTTP was never reached |
| Witnesses.BytesMayBeLost | src/engine.rs:332-351 | Counterexample to conservation after an HTTP failure: a live run that reports no hop and counts a byte |
| LiveGuarantees.TimelineSoundness | src/engine.rs:1195-1278 | For any monotone clock, start plus duration of a probe is at most the start of every later one, and all durations add up to at most elapsed_ms, although each is truncated to milliseconds independently |
| LiveGuarantees.TimeoutsAreTimeLeft | src/engine.rs:584-836 | Each timeout is the time left at an instant before the deadline and after the record before it, or the cap of its kind; the instant lies inside the probe's own timing (before its slot, for a request), and the wait begins inside that timing, at the instant or later |
| LiveGuarantees.WaitsEndByDeadlineExactly | src/engine.rs:591-836 | A wait ends by the deadline if and only if it begins at the instant its timeout was read for, or its cap of 5, 7 or 10 s fits in the time left when it begins; otherwise it outlasts the deadline by no more than the delay between the two |
| LiveGuarantees.HandshakeOverrunIsBounded | src/engine.rs:621-665 | A wait on the socket of a handshake has the timeout of the connection and follows a test of the deadline; begun before the deadline it outlasts it by less than min(budget, 7 s), begun later by its delay since the test more; it ends in time exactly under the condition above |
| Witnesses.HandshakeMayOutlastDeadline | src/engine.rs:621-665 | Counterexample to waits that end by the deadline: a live run on a budget of 7 s whose connection takes 6.9 s and whose next wait, begun with 0.1 s left, ends at 13.9 s |
| LiveGuarantees.AddressSafety | src/engine.rs:536-815 | Every address used for a connection, a handshake or an HTTP client pin, on every hop, is permitted by policy and was answered by the latest resolution before it; for a connection or a handshake that is the first resolution, of the host and port that the proxy selection of the target gives |
| LiveGuarantees.DirectRunsResolveTheTarget | src/policy.rs:187-200 | Without a proxy the first resolution is of the host and port of the reported target |
| LiveGuarantees.RequestsFollowProxyPolicy | src/engine.rs:704-748 | Every request, on every hop, goes through the proxy in the first set variable for the scheme of its URL if and only if proxies are enabled, such a variable is set and no entry of the bypass list in effect covers the URL; otherwise to the host and port of the URL. The host and port gone to are those resolved right before, and the client pins that host to an answer of that resolution |
| LiveGuarantees.ResolutionsFollowPolicy | src/engine.rs:704-719 | Nothing is resolved but for an acceptable URL: the first resolution is of where a request for the target goes, every other of where a request for the very Location of the response right before it goes |
| LiveGuarantees.ReportExplainsProxy | src/policy.rs:100-185 | The reported proxy names the first set variable and the redacted URL in it, or says why there is none: disabled, matched by the named bypass list, or no variable set |
| LiveGuarantees.ReportShowsTarget | src/policy.rs:24-76 | The reported target is the given one: its scheme, its host, its own port or 80 or 443 by scheme, and its URL without credentials, fragment and hidden query values |
| LiveGuarantees.FirstHopUsesSelectedAddress | src/engine.rs:224-329 | The address that connected is the one the TLS handshake uses and the one the first request is pinned to |
| LiveGuarantees.LaterHopsUseLeastPermitted | src/engine.rs:713-726 | Every request after the first is pinned to the least permitted answer of the resolution right before it |
| LiveGuarantees.RedirectChainIntegrity | src/engine.rs:692-801 | Reported hops are numbered, start at the intended target, follow one Location after another through 3xx answers; redirect_limit_reached exactly when the chain is full and still leads on, invalid_redirect_location exactly when the failed last hop has no location |
| LiveGuarantees.HopsShowResponses | src/engine.rs:750-797 | Hop i has the status of the i-th response; it has a location if and only if that status is 300 to 399 and the header holds a URL, and shows that URL redacted; it counts and digests the start of the body. The next request is for that very URL |
| LiveGuarantees.ChainEndsAsAnswered | src/engine.rs:756-797 | A chain ends without error if and only if its last response is no redirection with a Location, valid or not; for invalid_redirect_location if and only if it is one with an invalid Location; for redirect_limit_reached if and only if it leads on and the chain is full |
| LiveGuarantees.SelectedAddressIsLeast | src/engine.rs:584-609 | The selected address is the least permitted answer that could be reached: every smaller permitted answer was tried in vain |
| LiveGuarantees.DeniedExactlyWhenNothingIsPermitted | src/engine.rs:171-211 | A run is denied by the address policy exactly when it observed addresses and marked none of them permitted |
| LiveGuarantees.AnswersAreObserved | src/engine.rs:171-183 | The observed addresses are the distinct answers to the first resolution in order, each with its family, its class, and marked permitted if and only if its class is public or private addresses are allowed |
| LiveGuarantees.CountsAreThoseOfAddresses | src/engine.rs:144-222 | A passed DNS phase counts all observed addresses, and those marked permitted up to max_addresses |
| LiveGuarantees.ResolutionIgnoresOrder | src/engine.rs:546-579 | Order and repetition of resolver answers do not influence the resolution |
| FailureGuarantees.ExhaustionIsReal | src/engine.rs:1244-1263 | A live report of budget_exhausted, in any phase, means that all probes are used or the whole time budget has passed |
| FailureGuarantees.HandshakeOutcomeIsReported | src/engine.rs:612-689 | A recorded handshake is validated, and the TLS phase passes and reports what was negotiated, if and only if it connected and its name, its client and every exchange that it took were accepted; the failed run has tls_transport_failed, invalid_tls_server_name, tls_configuration_failed or tls_handshake_failed exactly if the connection, the name, the client or an exchange was refused |
| FailureGuarantees.HttpErrorIsReported | src/engine.rs:729-748 | The error of a failed HTTP phase is that of the last record: after an answer, its body broke within the limit; after none, a timeout, a failed connection told apart by scheme, or another failure, each exactly as the transport told; without a request, what was refused, the proxy or the client, or budget_exhausted exactly if nothing was |
| FailureGuarantees.ResolutionErrorIsReported | src/engine.rs:144-222 | A run fails at DNS if and only if its first resolution was not begun (budget_exhausted), failed, was empty, or answered nothing that is permitted, with the error of that case |
| FailureGuarantees.ConnectionErrorIsReported | src/engine.rs:584-609 | A run fails at TCP if and only if it did not fail at DNS and nothing connected; the attempts follow the permitted list of the first resolution, and the error is tcp_connect_failed if and only if every address of that list was tried in vain, budget_exhausted otherwise |
| FailureGuarantees.RedirectErrorIsReported | src/engine.rs:704-797 | The error of a failed redirect is that of the last action: after a resolution, DNS errors exactly for failed and empty answers and a denied target exactly if nothing answered is permitted; after a response, the invalid Location it has, the limit if the chain is full, or else the refusal of the very URL it leads to: for what that lacks as a target, for the unusable setting of its proxy, or budget_exhausted |
| DisclosureGuarantees.RequestsAreAcceptable | src/engine.rs:704-709 | Every URL requested, on every hop, is http or https, has a host, and has neither username nor password |
| DisclosureGuarantees.HopsAnswerRequests | src/engine.rs:729-783 | Hop i of a report answers the i-th request: its redacted URL, and the status, Location and body of its response |
| DisclosureGuarantees.ReportIsRedacted | src/policy.rs:78-98 | No URL of a live report, be it target, proxy, probe, phase, hop or Location, has credentials, a fragment or, unless allowed, a query value |
| DisclosureGuarantees.ReportShowsAddressesAsAllowed | src/policy.rs:255-265 | Every address in a live report, of a probe, a phase or an observation, is shown in full exactly if that is allowed |
| DisclosureGuarantees.BodiesAreKeptAsAllowed | src/engine.rs:876-897 | Every reported body is within its limit, digested as counted, and kept exactly if samples are wanted |
| ScriptGuarantees.ScriptFailsFirst | src/engine/accuracy_corpus_tests.rs:104-227 | For every script, option set and number of probe slots, the failed phase, its error and the list of backend calls are those of a recursive specification: the first failing observation or missing slot in stage order, then a redirect failure |
| ScriptGuarantees.EarliestFailureIsReported | src/engine/accuracy_corpus_tests.rs:313-436 | The report of a scripted run names that first failure and nothing else |
| ScriptGuarantees.ScriptDecidesReport | src/engine/accuracy_corpus_tests.rs:313-436 | Apart from clock readings and seal the report is a function of target, options, script and slots; a slot is missing only if the probe limit is reached or the whole time budget has passed |
| ScriptGuarantees.AgreeingScriptsReportTheSame | src/engine/accuracy_corpus_tests.rs:313-436 | Scripts that agree on every stage that is called and finds a slot get the same report and the same calls |
| ScriptGuarantees.ScriptedTimeline | src/engine/accuracy_corpus_tests.rs:96-101 | In a scripted run durations add up to at most elapsed_ms, and a probe reaches into a later one by at most the lead of its timing over its slot and one millisecond |
| Backends.Backend.RecordProbe | src/engine/accuracy_corpus_tests.rs:96-101 | A scripted probe is recorded as the next one exactly if it got a slot, timed from before that slot, and leaves everything as it was otherwise |
| Backends.Backend.ResolveStage | src/engine/accuracy_corpus_tests.rs:105-130 | Live: one resolution, recorded and authorized; scripted: the scripted answer if a slot was left, budget_exhausted otherwise |
| Backends.Backend.ConnectStage | src/engine/accuracy_corpus_tests.rs:132-154 | The same for the connection stage; a scripted success selects the first permitted address |
| Backends.Backend.TlsStageOn | src/engine/accuracy_corpus_tests.rs:156-185 | The same for the TLS stage |
| Backends.Backend.HttpStageOn | src/engine/accuracy_corpus_tests.rs:187-226 | The same for the HTTP stage; scripted hops are numbered and carry the scripted statuses |
| Tracking.Tracker.constructor | src/engine.rs:1233-1242 | Deadline and probe limit come from the options; nothing is recorded |
| Tracking.Tracker.Remaining | src/engine.rs:1244-1249 | The time left is positive, or the deadline is reached and the budget is exhausted |
| Tracking.Tracker.StartProbe | src/engine.rs:1251-1263 | A slot is the next number and is refused only at the deadline or the probe limit; nothing is recorded |
| Tracking.Tracker.FinishProbe | src/engine.rs:1265-1274 | One record is appended; the chronicle of records survives if the caller finishes, in order, the probe it started |
| Tracking.RecordsDoNotOverlap | src/engine.rs:1195-1278 | Probes timed from inside their slots never overlap in milliseconds |
| Tracking.DurationsFitElapsed | src/engine.rs:994 | Durations add up to at most the elapsed milliseconds, by induction over the records |
| Tracking.TimingBeforeSlotMayOverlap | src/engine/accuracy_corpus_tests.rs:96-101 | Counterexample: for any number of milliseconds that leaves the budget a further one, a probe timed that much ahead of its slot can be recorded as overlapping the next by as much, all slots being granted before the deadline |
| Tracking.TruncationAloneMayOverlap | src/engine/accuracy_corpus_tests.rs:96-101 | Counterexample: a lead of less than a millisecond suffices for an overlap of one |
| Tracking.OverlapIsBoundedByLead | src/engine/accuracy_corpus_tests.rs:96-101 | The overlap of probes timed ahead of their slots is at most the lead in milliseconds and one more for truncation |
| Live.ResolveAddresses | src/engine.rs:536-582 | Empty, failed and answered lookups, the canonical list and the permitted selection; one lookup begun and recorded, or none and the budget is gone |
| Live.AttemptConnection | src/engine.rs:591-606 | One attempt whose timeout is the time left, read inside the probe and never zero, or 5 s if that is less; nothing is attempted or recorded once the budget is gone |
| Live.ConnectFirst | src/engine.rs:584-610 | Attempts go down the list and stop at the first success, at max_addresses, or when the budget is gone, with the error of the case |
| Live.ProbeTls | src/engine.rs:612-689 | At most one handshake is begun, with the time left or 7 s as its timeout; it ends recorded with the outcome of its error, or cut off by the deadline, begun and unrecorded; a success returns what was negotiated |
| Live.Handshake | src/engine.rs:622-651 | Each way the handshake can end before its first exchange is recorded with its outcome: the connection, the name or the client was refused |
| Live.Negotiate | src/engine.rs:652-689 | Recorded as failed exactly after a refused exchange, and as validated exactly after all exchanges were accepted, unless the deadline comes first; every wait of an exchange follows a test of the deadline and keeps the timeout set before the connection was made |
| Live.ExchangeOnce | src/engine.rs:653-665 | One exchange, logged with its answer, after a test of the deadline; past it the handshake is cut off. The test for a zero remainder never succeeds |
| RedirectChain.BuildHttpClient | src/engine.rs:803-836 | A client that was built, with its proxy configured, pinned to the given address under the connect host; its timeout is the time left, read on the way and never zero, or 10 s if that is less; each error belongs to one refusal, and budget_exhausted to none |
| RedirectChain.ResponseToHop | src/engine.rs:848-897 | A hop keeps exactly the prefix of length min(limit, available) and counts it; a body that breaks within the limit is an error and counts nothing |
| RedirectChain.Exchange | src/engine.rs:729-748 | One request for this URL, through this proxy, to this address, by a client that was built, logged with its answer and recorded whether answered or not |
| RedirectChain.RequestOnce | src/engine.rs:729-783 | The hop shows its response; there is a next URL if and only if the status is 300 to 399 and the Location is a URL, and an invalid Location if and only if the status is and the Location is not one |
| RedirectChain.NextEndpoint | src/engine.rs:704-727 | Target policy, proxy and resolution are decided afresh for the next hop, which goes to the least permitted answer |
| RedirectChain.TakeTurn | src/engine.rs:699-797 | One turn of the loop: a later hop is pinned to the least permitted answer of its own resolution; a failed endpoint keeps the chain with the error of its refusal or resolution, a failed request loses it |
| RedirectChain.RunHttp | src/engine.rs:692-801 | The redirect loop: chain, counter, alternation of probes and authorization on every turn; hop i shows the i-th response; every resolution and request after the first is for the very Location before it; later hops are pinned to the least permitted answers; the loop ends as its last response, resolution or refusal calls for; the end after the loop is unreachable |
| RedirectChain.TurnEndsOrGoesOn | src/engine.rs:699-797 | One turn keeps the chain, counter and alternation, or ends the loop with the outcome its step, stop or abort calls for |
| RedirectChain.ChainExtends | src/engine.rs:757-797 | A step whose URL the last Location leads to extends a well-formed chain |
| RedirectChain.BytesExtend | src/engine.rs:879 | The saturating byte counter never saturates within the option limits |
| Resolver.Canonicalize | src/engine.rs:546-563 | Strictly sorted by family, address and port, holding exactly the answers |
| Resolver.PrecedesByDigits | src/engine.rs:552 | The order puts IPv4 before IPv6, addresses of one family in the order of their first differing octet or group, and equal addresses in the order of their ports |
| Resolver.CanonicalListIsDeterminedBySet | src/engine.rs:552-563 | Two canonical lists of one set of answers are equal |
| Resolver.PermittedListHoldsTheLeast | src/engine.rs:571-580 | The permitted list is sorted, holds the least permitted addresses, is cut only when full, and is empty exactly if no address is permitted |
| ActionLog.EveryActionIsAuthorized | src/engine.rs:536-815 | In an authorized log each single action uses an address that the resolution before it offers, and waits for the time left to it, capped to 5, 7 or 10 s by its kind |
| Planning.Plan | src/engine.rs:36-101 | A plan is refused exactly as the inspection would be; it is numbered from 1, lists every kind in pipeline order with its purpose, the first being the proxy exactly if one is selected, marks TLS conditional unless it applies, and performs no network action |
| Planning.CompletedRunExecutesPlan | src/engine.rs:46-76 | A live run without failure has executed every unconditional probe of its plan, in plan order |
| TargetPolicy.FragmentsAreIrrelevant | src/policy.rs:78-98 | Proxy selection and redaction do not see the fragment |
| TargetPolicy.ParsingIsIdempotent | src/policy.rs:24-76 | Parsing the parsed target again changes nothing, and the reported target is the redacted URL that is requested |
| TargetPolicy.TargetsAreExact | src/policy.rs:24-76 | Exactly the absolute http and https URLs with a host and without username or password are accepted, and any other is refused for the first that it lacks; the port is the explicit one, or 80 or 443 |
| TargetPolicy.ProxySelectionIsExact | src/policy.rs:100-218 | With proxies enabled a proxy is selected if and only if no entry of the first set bypass list covers the host and port, and a variable for the scheme, or else all_proxy, is set to more than white space; its source is the first such variable in lower case before upper case; it is refused exactly for that variable's setting |
| TargetPolicy.ProxyErrors | src/policy.rs:100-185 | Proxy selection fails only for an unusable proxy setting, and never with proxies disabled |
| TargetPolicy.ConnectsWhereSelected | src/policy.rs:100-200 | A proxy is selected only with its URL and shown redacted; without one the connection goes to the host and port of the target itself |
| PrefixTables.Ipv4DecisionListIsLongestPrefix | src/policy.rs:278-308 | The first-match list over all 2^32 addresses equals longest-prefix matching in an explicit table of 17 prefixes |
| PrefixTables.Ipv6DecisionListIsLongestPrefix | src/policy.rs:310-382 | The first-match list over all 2^128 addresses, with masks, embedded IPv4 and nested exceptions, equals longest-prefix matching in an explicit table of 58 prefixes |
| PrefixTables.PrefixTestIsInterval | src/policy.rs:384-387 | For prefix lengths 1 to 128 masked equality is membership in the interval of the prefix |
| Bits.MaskedEqualityIsInterval | src/policy.rs:384-387 | Masking with shifted ones compares exactly the bits above the shift, at any width |
| SpecialPurposeBlocks.V4RowsArePrefixes | src/policy.rs:278-308 | Every row of the IPv4 table is one aligned block of its stated length |
| SpecialPurposeBlocks.V6RowsArePrefixes | src/policy.rs:310-382 | Every row of the IPv6 table, the two embedded IPv4 blocks included, is one aligned block of its stated length |
| SpecialPurposeBlocks.PublicIpv4IsComplementOfBlocks | src/policy.rs:278-308 | The public IPv4 addresses are exactly those outside the 16 listed prefixes |
| SpecialPurposeBlocks.PermissionIsExact | src/policy.rs:274-276 | With private addresses allowed everything is permitted; otherwise an IPv4 address outside the 16 prefixes, and an IPv6 address whose longest prefix in the table is public |
| SpecialPurposeBlocks.NotGlobalIpv4IsDenied | src/policy.rs:278-308 | Every IPv4 block that section 2.2.2 of RFC 6890 marks not global is denied by default |
| SpecialPurposeBlocks.NotGlobalIpv6IsDeniedExactly | src/policy.rs:310-382 | An IPv6 address that section 2.2.3 of RFC 6890 marks not global is denied if and only if it is not an IPv4-mapped address of a public IPv4 address or a listed reachable exception |
| SpecialPurposeBlocks.MappedPublicAddressIsPermitted | src/policy.rs:310-314 | Counterexample: an IPv4-mapped address of a public IPv4 address is permitted, although its block is marked not global |
| SpecialPurposeBlocks.TranslatedAddressFollowsEmbedded | src/policy.rs:332-339 | An address of 64:ff9b::/96 is public exactly if its embedded IPv4 address is |
| NoProxy.DottedSuffixIsLabelSuffix | src/policy.rs:239-243 | Equality or a dotted string suffix is the same as a suffix of the label list |
| NoProxy.PortSuffixIsReadPort | src/policy.rs:230-237 | Splitting at the last colon is the same as ending in a colon and that port, for any decimal digits |
| NoProxy.EntryMatchesByLabels | src/policy.rs:220-245 | A bypass entry matches if and only if, after trimming, port and leading dot handling, its labels are a suffix of the host's labels, ignoring ASCII case |
| NoProxy.ListMatchesByLabels | src/policy.rs:220-245 | A list matches if and only if one of its comma-separated entries is the wildcard or has labels that are a suffix of the host's, and no port or the right one |
| Text.TrimIsExact | src/policy.rs:222 | Trimming takes off white space at both ends, all of it, and nothing else |
| Text.PiecesHoldNoSeparator | src/policy.rs:221 | No piece of a split text holds the separator |
| Text.FoldingIgnoresCaseOnly | src/policy.rs:239-243 | Folded texts are equal if and only if they differ at most in the case of ASCII letters |
| NoProxy.ListMatchesByParts | src/policy.rs:220-245 | A list joined with a comma matches exactly if one of its parts does |
| NoProxy.DotFreeHostMatchesWhole | src/policy.rs:220-245 | A host without dots, such as an IPv6 host in its brackets, is matched by an entry if and only if that is the wildcard or spells the whole host, with no port or the right one |
| NoProxy.UnbracketedEntryMissesIpv6 | src/policy.rs:220-245 | An entry without brackets, other than the wildcard, never matches an IPv6 host, whatever follows its last colon |
| NoProxy.UnbracketedEntriesAreMissed | src/policy.rs:220-245 | Counterexamples: 2001:db8::1 and 2001:db8::a do not match the hosts of these addresses |
| Offline.InspectedReportsVerify | src/offline.rs:79-106 | A report of an inspection verifies offline exactly if it could be sealed, for any digest function |
| Offline.VerificationIsExact | src/offline.rs:79-106 | A report verifies if and only if it has the current schema and the digest of the rest of it; any other is refused for the first that is wrong: schema, missing seal, no digest, other digest |
| Offline.ReplayIsExact | src/offline.rs:108-131 | The replay of a verified report of an inspection shows its seal, all its phases with their statuses, its one hypothesis and its failed phase, which is there if and only if some status is failed; it performs no network action |
| Offline.SealedReportsVerify | src/engine.rs:1027-1035 | What is sealed verifies; a report whose digest failed is refused as unsealed |
| Offline.SealsIdentifyReports | src/offline.rs:79-106 | Under a digest without collisions, verified reports of one seal are one report |
| Offline.Compare | src/offline.rs:133-196 | Comparison refuses what does not verify, left first; a summary line appears exactly for what differs, and the single line of no difference exactly if all four aspects agree |
| Offline.DifferencesAreExact | src/offline.rs:137-159 | Differences hold exactly the phases whose statuses differ, each once, strictly by rank |
| Offline.CompareMirrors | src/offline.rs:133-196 | Swapping the reports swaps digests, status lists and the sides of every difference, and leaves flags and summary as they are |
| Offline.NoDifferenceMeansEqualMaps | src/offline.rs:137-159 | The difference list is empty exactly if the phase maps are equal, so emptiness is an equivalence |
| Offline.CompareAgreesWithReplay | src/offline.rs:108-131 | Two reports have no phase difference exactly if their replays show the same statuses |
| Offline.KeyedMapsAgree | src/offline.rs:198-209 | Maps by phase key agree exactly if maps by phase name do: keys do not collide |
| Offline.EngineReportsLoseNoPhase | src/offline.rs:137-146 | On reports of an inspection the phase map keeps every phase, and a phase is missing only behind the failure |
| Offline.ClockMakesNoDifference | src/offline.rs:133-196 | Reports that differ in clock readings and seal only compare as equal |
| Hex.EncodeLower | src/hex.rs:1-11 | Two digits per byte, decoding to the bytes |
| Hex.DecodingInvertsEncoding | src/hex.rs:1-11 | Decoding inverts encoding |
| Hex.EncodingInvertsDecoding | src/hex.rs:1-11 | Only encodings decode: lowercase, an even number of digits |
| OrderStatistics.NearestRankIsLeast | benchmarks/evaluate.py:62-69 | The nearest rank is a sample, and is within a limit exactly if the percentile's share of the samples is: it is the least such bound |
| OrderStatistics.NearestRankIgnoresOrder | benchmarks/evaluate.py:62-69 | Only the multiset of samples matters |
| OrderStatistics.NearestRankIsMonotone | benchmarks/evaluate.py:62-69 | Samples that are pointwise no smaller never give a smaller percentile |
| OrderStatistics.MaximumIsFullRank | benchmarks/evaluate.py:239-245 | The maximum is the hundredth percentile |
| Benchmark.MetricPassesByCount | benchmarks/evaluate.py:239-267 | A p95 metric passes exactly if at least 95% of its samples are within the effective limit, a max metric exactly if all are; the effective limit never exceeds the absolute one |
| Benchmark.LimitIsMonotoneInBaseline | benchmarks/evaluate.py:249-267 | A larger baseline never tightens the limit, and no baseline gives the loosest |
| Benchmark.EvaluateAll | benchmarks/evaluate.py:228-282 | The loop accepts the metrics in order, up to the first repeated id or the first metric that cannot be evaluated |
| Benchmark.AllAccepted | benchmarks/evaluate.py:230-282 | All metrics are accepted exactly if their ids are distinct and each is accepted by itself |
| Benchmark.CommonIdentity | benchmarks/evaluate.py:104-131 | Samples have an identity exactly if all are well formed and share commit and runner |
| Benchmark.BaselineMetrics | benchmarks/evaluate.py:134-157 | Baseline values are read exactly if ids are distinct and observations non-negative |
| Benchmark.Evaluate | benchmarks/evaluate.py:172-301 | One result per configured metric, in order, with its id; the evaluation passes if and only if every metric has at least 95% of its samples (p95) or all of them (max) within its absolute maximum and, given a baseline, within prior * ratio or prior + tolerance |
| Benchmark.VerdictIsExact | benchmarks/evaluate.py:228-299 | The same of the result that the documents determine: sample values are read from their fields, the observation is the least sample with 95% of the samples within it or the largest, and the baseline value is the one of that id |
| Benchmark.AcceptanceIsExact | benchmarks/evaluate.py:172-282 | An evaluation is made if and only if the schemas, counts, paths, samples, runner and baseline fit, the metric ids are distinct, and each metric has one readable value per sample, a known statistic, a maximum and, with a baseline, a prior value and a policy |
| Benchmark.SourceValueIsExact | benchmarks/evaluate.py:72-101 | A sample has a value if and only if the field of its one measurement of the name, or of its derived values, and the scale are numbers that are not negative; the value is their product |
| Benchmark.OwnBaselinePasses | benchmarks/evaluate.py:134-267 | A passing evaluation is an admissible baseline for its own samples; with it every metric passes again if each has a regression policy, and no evaluation is made otherwise |
| Evidence.CheckWindow | scripts/verify_v1_evidence.py:268-293 | A CI window is valid exactly if 30 days are required and every track is listed without repeating a date |
| Evidence.CiFindings | scripts/verify_v1_evidence.py:448-484 | The findings about the window and its tracks are exactly their flaws, with the missing and the extra dates of each track |
| Evidence.CiFlawsAreExact | scripts/verify_v1_evidence.py:448-484 | A valid window has no flaw exactly if it ends on as_of, spans at least 30 days and every track ran once on each of its days; every track then has one run per day |
| Evidence.RepeatFindings | scripts/verify_v1_evidence.py:509-531 | Entry by entry: repeated names, strangers and returns after fewer than 30 days, and nothing else |
| Evidence.AdoptionFindings | scripts/verify_v1_evidence.py:494-537 | The findings about adoption are exactly its flaws |
| Evidence.AdoptionFlawsAreExact | scripts/verify_v1_evidence.py:494-537 | Adoption has no flaw exactly if at least three distinct adopters, at least two of them back after 30 days and told of once, a public integration and an external contribution are shown |
| Evidence.FreshnessFindings | scripts/verify_v1_evidence.py:539-563 | One finding exactly if some dated evidence is later than as_of |
| Evidence.GateFindings | scripts/verify_v1_evidence.py:423-438 | Exactly the gates that are not satisfied and those with missing criteria, with the criteria |
| Evidence.ReadinessFindings | scripts/verify_v1_evidence.py:401-565 | For a valid manifest the findings are exactly its flaws, and there are none exactly if it is ready |
| Evidence.ReadinessIsExact | scripts/verify_v1_evidence.py:401-565 | An empty error list guarantees readiness, and readiness an empty list: version, all gates and criteria, full review, continuous CI, continuity, adoption, and no date after as_of |
| Evidence.ReadyLeavesNothingOut | scripts/verify_v1_evidence.py:21-66 | Readiness leaves out no criterion, each listed by its own gate and by no other, no review area and no CI track, and takes at least three adopters of different names and two of them back after 30 days |

## Left out

- Sockets, the system resolver, rustls, reqwest and the clock: replaced by a host that answers arbitrarily and a clock that only moves forward. The resolver call has no timeout, so no bound on the whole elapsed time is claimed.
- URL syntax, joining and percent-encoding: a URL is a record of its parts, its query a list of decoded pairs, and parsing a parameter. Editing a `Url` in place is modelled as a function on such records.
- SHA-256, base64, JSON and schema generation: a digest is any function on reports that may fail, an address digest a label that hides the address.
- Message, statement and next-step texts and error classes: they are fixed by the error code or by the phase.
- Environment variables: a map, with the parser of proxy URLs as a parameter.
- Header allowlist, HTTP version, declared length, request method, tool version, the budget copied into reports and most TLS metadata: copied without influence on any decision.
- Live.Negotiate: models the handshake as finitely many exchanges, a number that is asked for once, because nothing makes the clock advance past the deadline.
- Inspection.Inspect: does not model the readings of the system clock; the start time is a parameter.
- Diagnosis.WithoutClockAssembles: says nothing about the durations of phases, which are plain clock differences.
- ScriptGuarantees.ScriptDecidesReport: leaves the number of slots open when the time budget has passed, because the clock decides it.
- Scope identifiers and flow labels of IPv6 socket addresses: they are not part of the sort key.
- OrderStatistics.NearestRankIsLeast: uses real numbers; rounding of the product in floating point is not modelled.
- Benchmark.Evaluate: documents are already parsed; shapes that are not objects or lists, file paths and timestamps of the result are left out, and which of several errors in the samples comes first is not stated.
- Evidence.ReadinessFindings: takes dates as day numbers, adopter names trimmed and folded, and the reading of SemVer as a parameter; URL and key checks of the structure are left out.
- src/cli.rs, src/main.rs, src/contract.rs and src/error.rs: argument plumbing, rendering and constant tables.
- File loading, size limits of files, shell scripts, the fixture server and the corpus data: input and output, or finite data.
