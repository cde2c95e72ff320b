/**
 * The release-readiness verifier (scripts/verify_v1_evidence.py). Dates are day numbers, adopter names are already
 * trimmed and folded, and documents are already parsed.
 */
module Evidence {
  import opened Wrappers

  type Date = int

  datatype Gate = AdoptionGate | CorrectnessGate | DeliveryGate | PerformanceGate | ProductGate

  datatype Criterion =
    | ContractCompatibility | GoldenDocuments | PhaseObservability | ExplicitCapabilityDowngrades
    | DiagnosticAccuracy | UncertaintyCalibration | SsrfPolicyCorpus | RedactionCorpus | VulnerabilityAudit
    | LiveDiagnosticBudget | OfflineOperationLatency | ScenarioMemory | BenchmarkReproducibility
    | ReleaseSupplyChain | SecurityResponseSlo

  datatype Area =
    | SsrfBoundaries | ResolutionRaces | Redirects | Proxies | TlsIdentity | TrustRoots | ReportIntegrity | Replay
    | ResourceLimits | DiagnosticDisclosure

  datatype Track = DeterministicFixtures | Linux | MacOs | Windows

  const ALL_AREAS: set<Area> := {SsrfBoundaries, ResolutionRaces, Redirects, Proxies, TlsIdentity, TrustRoots,
                                ReportIntegrity, Replay, ResourceLimits, DiagnosticDisclosure}

  const TRACKS: seq<Track> := [DeterministicFixtures, Linux, MacOs, Windows]

  function CriteriaOf(gate: Gate): set<Criterion> {
    match gate
    case AdoptionGate => {}
    case CorrectnessGate =>
      {DiagnosticAccuracy, UncertaintyCalibration, SsrfPolicyCorpus, RedactionCorpus, VulnerabilityAudit}
    case DeliveryGate => {ReleaseSupplyChain, SecurityResponseSlo}
    case PerformanceGate => {LiveDiagnosticBudget, OfflineOperationLatency, ScenarioMemory, BenchmarkReproducibility}
    case ProductGate => {ContractCompatibility, GoldenDocuments, PhaseObservability, ExplicitCapabilityDowngrades}
  }

  /** The dates of the runs of each track. */
  datatype CiWindow = CiWindow(start: Option<Date>, end: Option<Date>, requiredDays: nat, runs: map<Track, seq<Date>>)

  datatype Mode = TwoMaintainerDrill | SingleMaintainerRecovery

  datatype Continuity = Continuity(satisfied: bool, mode: Option<Mode>, references: nat)

  datatype Adopter = Adopter(name: string, firstUse: Date)

  datatype Repeat = Repeat(adopter: string, repeatUse: Date)

  datatype Adoption = Adoption(
    adopters: seq<Adopter>,
    repeats: seq<Repeat>,
    publicIntegration: bool,
    nonMaintainerContribution: bool)

  datatype Review = Review(completedOn: Date)

  datatype Correctness = Correctness(
    review: Option<Review>,
    openCritical: nat,
    openHigh: nat,
    reviewedAreas: seq<Area>)

  /** `satisfied` and `evidence` are the status and the listed criteria of each gate; adoption lists none. */
  datatype Manifest = Manifest(
    targetVersion: string,
    asOf: Date,
    satisfied: map<Gate, bool>,
    evidence: map<Gate, seq<Criterion>>,
    correctness: Correctness,
    window: CiWindow,
    continuity: Continuity,
    adoption: Adoption)

  datatype Finding =
    | NotV1
    | ReleaseVersionFormat
    | OtherReleaseVersion
    | GateNotSatisfied(gate: Gate)
    | MissingEvidence(gate: Gate, criteria: set<Criterion>)
    | NoSecurityReview
    | AreasNotReviewed(areas: set<Area>)
    | OpenFindings
    | WindowIncomplete
    | WindowReversed
    | WindowTooShort
    | WindowNotFresh
    | MissingDates(track: Track, dates: set<Date>)
    | ExtraDates(track: Track, dates: set<Date>)
    | ContinuityNotSatisfied
    | NoContinuityMode
    | NoContinuityEvidence
    | TooFewAdopters
    | RepeatedAdopterName
    | DuplicateRepeat(name: string)
    | RepeatByStranger(name: string)
    | RepeatTooSoon(name: string)
    | TooFewRepeats
    | NoPublicIntegration
    | NoExternalContribution
    | AsOfTooEarly

  // ----- Structure -----

  predicate Distinct<T(==)>(values: seq<T>) {
    forall i, j | 0 <= i < j < |values| :: values[i] != values[j]
  }

  function Elements<T>(values: seq<T>): set<T> {
    set x | x in values
  }

  lemma OneElementMore<T>(front: seq<T>, last: T)
    ensures Distinct(front + [last]) <==> Distinct(front) && last !in front
    ensures Elements(front + [last]) == Elements(front) + {last}
    ensures last in Elements(front) <==> last in front
  {
    var values := front + [last];
    assert forall i | 0 <= i < |front| :: values[i] == front[i];
    if last in front {
      var i :| 0 <= i < |front| && front[i] == last;
      assert values[i] == values[|front|];
    }
  }

  lemma {:induction false} DistinctMeansSameSize<T>(values: seq<T>)
    ensures |Elements(values)| <= |values|
    ensures Distinct(values) <==> |Elements(values)| == |values|
  {
    if values != [] {
      hide Distinct, Elements;
      var front, last := values[..|values| - 1], values[|values| - 1];
      assert values == front + [last];
      DistinctMeansSameSize(front);
      OneElementMore(front, last);
    }
  }

  predicate ValidWindow(window: CiWindow) {
    && window.requiredDays == 30
    && (forall track <- TRACKS :: track in window.runs && Distinct(window.runs[track]))
  }

  /** The structural check of the CI window. */
  method CheckWindow(window: CiWindow) returns (valid: bool)
    ensures valid <==> ValidWindow(window)
  {
    if window.requiredDays != 30 {
      return false;
    }
    for t := 0 to |TRACKS|
      invariant forall k | 0 <= k < t :: TRACKS[k] in window.runs && Distinct(window.runs[TRACKS[k]])
    {
      if TRACKS[t] !in window.runs {
        return false;
      }
      var runs := window.runs[TRACKS[t]];
      var dates: seq<Date> := [];
      for i := 0 to |runs|
        invariant dates == runs[..i]
      {
        dates := dates + [runs[i]];
      }
      assert dates == runs;
      DistinctMeansSameSize(dates);
      if |dates| != |Elements(dates)| {
        return false;
      }
    }
    valid := true;
  }

  // ----- The CI window -----

  function Days(start: Date, end: Date): (days: set<Date>)
    ensures forall day :: day in days <==> start <= day <= end
    decreases end - start
  {
    if start > end then {} else Days(start, end - 1) + {end}
  }

  lemma {:induction false} NumberOfDays(start: Date, end: Date)
    requires start <= end + 1
    ensures |Days(start, end)| == end - start + 1
    decreases end - start
  {
    if start <= end {
      NumberOfDays(start, end - 1);
    }
  }

  function ExpectedDates(window: CiWindow): set<Date> {
    if window.start.Some? && window.end.Some? && window.end.value >= window.start.value then
      Days(window.start.value, window.end.value)
    else {}
  }

  predicate IsWindowFlaw(finding: Finding, window: CiWindow, asOf: Date) {
    var start, end := window.start, window.end;
    || (finding == WindowIncomplete && (start.None? || end.None?))
    || (finding == WindowReversed && start.Some? && end.Some? && end.value < start.value)
    || (finding == WindowTooShort && start.Some? && end.Some? && start.value <= end.value
        && end.value - start.value + 1 < window.requiredDays)
    || (finding == WindowNotFresh && end.Some? && end.value != asOf)
  }

  predicate IsTrackFlaw(finding: Finding, window: CiWindow, track: Track)
    requires track in window.runs
  {
    var expected, actual := ExpectedDates(window), Elements(window.runs[track]);
    || (finding == MissingDates(track, expected - actual) && expected - actual != {})
    || (finding == ExtraDates(track, actual - expected) && actual - expected != {})
  }

  ghost predicate IsCiFlaw(finding: Finding, window: CiWindow, asOf: Date)
    requires forall track <- TRACKS :: track in window.runs
  {
    IsWindowFlaw(finding, window, asOf) || IsFlawOfSome(finding, window, TRACKS)
  }

  predicate IsFlawOfSome(finding: Finding, window: CiWindow, tracks: seq<Track>)
    requires forall track <- tracks :: track in window.runs
  {
    exists track <- tracks :: IsTrackFlaw(finding, window, track)
  }

  method WindowFindings(window: CiWindow, asOf: Date) returns (findings: seq<Finding>)
    ensures forall f :: f in findings <==> IsWindowFlaw(f, window, asOf)
  {
    findings := [];
    if window.start.None? || window.end.None? {
      findings := findings + [WindowIncomplete];
    } else if window.end.value < window.start.value {
      findings := findings + [WindowReversed];
    } else if window.end.value - window.start.value + 1 < window.requiredDays {
      findings := findings + [WindowTooShort];
    }
    if window.end.Some? && window.end.value != asOf {
      findings := findings + [WindowNotFresh];
    }
  }

  method CiFindings(window: CiWindow, asOf: Date) returns (findings: seq<Finding>)
    requires forall track <- TRACKS :: track in window.runs
    ensures forall f :: f in findings <==> IsCiFlaw(f, window, asOf)
  {
    hide ExpectedDates, Elements, IsWindowFlaw;
    findings := WindowFindings(window, asOf);
    var expected := ExpectedDates(window);
    for t := 0 to |TRACKS|
      invariant forall f :: f in findings <==>
        IsWindowFlaw(f, window, asOf) || IsFlawOfSome(f, window, TRACKS[..t])
    {
      ghost var before := findings;
      var track := TRACKS[t];
      var actual := Elements(window.runs[track]);
      var missing, extra := expected - actual, actual - expected;
      if missing != {} {
        findings := findings + [MissingDates(track, missing)];
      }
      if extra != {} {
        findings := findings + [ExtraDates(track, extra)];
      }
      assert forall f :: f in findings <==> f in before || IsTrackFlaw(f, window, track);
      assert TRACKS[..t + 1] == TRACKS[..t] + [track];
      OneTrackMore(window, TRACKS[..t], track);
    }
    assert TRACKS[..|TRACKS|] == TRACKS;
  }

  lemma OneTrackMore(window: CiWindow, tracks: seq<Track>, next: Track)
    requires next in window.runs && forall track <- tracks :: track in window.runs
    ensures forall f ::
      IsFlawOfSome(f, window, tracks + [next]) <==> IsFlawOfSome(f, window, tracks) || IsTrackFlaw(f, window, next)
  {
    hide IsTrackFlaw;
    assert forall track :: track in tracks + [next] <==> track in tracks || track == next;
  }

  /** Every track ran exactly once on every day of a fresh window of at least thirty days. */
  ghost predicate ContinuouslyTested(window: CiWindow, asOf: Date)
    requires forall track <- TRACKS :: track in window.runs
  {
    && window.start.Some? && window.end == Some(asOf) && asOf - window.start.value + 1 >= 30
    && forall track <- TRACKS :: RunsDaily(window.runs[track], window.start.value, asOf)
  }

  /** One run for each day from `start` to `end`, and no other. */
  ghost predicate RunsDaily(runs: seq<Date>, start: Date, end: Date) {
    && (forall i | 0 <= i < |runs| :: start <= runs[i] <= end)
    && (forall day: Date | start <= day <= end :: day in runs)
    && Distinct(runs)
  }

  lemma DailyRunsAreTheDays(runs: seq<Date>, start: Date, end: Date)
    requires Distinct(runs)
    ensures Elements(runs) == Days(start, end) <==> RunsDaily(runs, start, end)
    ensures RunsDaily(runs, start, end) && start <= end ==> |runs| == end - start + 1
  {
    assert forall day :: day in Elements(runs) <==> day in runs;
    if Elements(runs) == Days(start, end) {
      forall i | 0 <= i < |runs| ensures start <= runs[i] <= end {
        assert runs[i] in Elements(runs);
      }
      forall day | start <= day <= end ensures day in runs {
        assert day in Days(start, end);
      }
    }
    if RunsDaily(runs, start, end) {
      assert Elements(runs) == Days(start, end);
      if start <= end {
        DistinctMeansSameSize(runs);
        NumberOfDays(start, end);
      }
    }
  }

  /** A valid window has no flaw exactly when it shows continuous testing. */
  lemma CiFlawsAreExact(window: CiWindow, asOf: Date)
    requires ValidWindow(window)
    ensures (forall f :: !IsCiFlaw(f, window, asOf)) <==> ContinuouslyTested(window, asOf)
    ensures ContinuouslyTested(window, asOf) ==> forall track <- TRACKS ::
      |window.runs[track]| == asOf - window.start.value + 1 && |window.runs[track]| >= 30
  {
    hide IsCiFlaw, ContinuouslyTested;
    if forall f :: !IsCiFlaw(f, window, asOf) {
      FlawlessWindowIsTested(window, asOf);
    }
    if ContinuouslyTested(window, asOf) {
      TestedWindowIsFlawless(window, asOf);
    }
  }

  lemma FlawlessWindowIsTested(window: CiWindow, asOf: Date)
    requires ValidWindow(window) && forall f :: !IsCiFlaw(f, window, asOf)
    ensures ContinuouslyTested(window, asOf)
  {
    hide Days, Elements, Distinct, RunsDaily, ExpectedDates;
    assert !IsCiFlaw(WindowIncomplete, window, asOf) && !IsCiFlaw(WindowReversed, window, asOf);
    assert !IsCiFlaw(WindowTooShort, window, asOf) && !IsCiFlaw(WindowNotFresh, window, asOf);
    FlawlessTracks(window, asOf);
    TracksRunDaily(window, asOf);
  }

  lemma TestedWindowIsFlawless(window: CiWindow, asOf: Date)
    requires ValidWindow(window) && ContinuouslyTested(window, asOf)
    ensures forall f :: !IsCiFlaw(f, window, asOf)
    ensures forall track <- TRACKS ::
      |window.runs[track]| == asOf - window.start.value + 1 && |window.runs[track]| >= 30
  {
    hide Days, Elements, Distinct, RunsDaily, ExpectedDates;
    TracksRunDaily(window, asOf);
    assert forall f, track | track in TRACKS :: !IsTrackFlaw(f, window, track);
  }

  lemma FlawlessTracks(window: CiWindow, asOf: Date)
    requires ValidWindow(window) && forall f :: !IsCiFlaw(f, window, asOf)
    ensures forall track <- TRACKS :: Elements(window.runs[track]) == ExpectedDates(window)
  {
    hide Elements, ExpectedDates, IsWindowFlaw;
    forall track <- TRACKS ensures Elements(window.runs[track]) == ExpectedDates(window) {
      var expected, actual := ExpectedDates(window), Elements(window.runs[track]);
      assert !IsCiFlaw(MissingDates(track, expected - actual), window, asOf);
      assert !IsCiFlaw(ExtraDates(track, actual - expected), window, asOf);
      assert !IsTrackFlaw(MissingDates(track, expected - actual), window, track);
      assert !IsTrackFlaw(ExtraDates(track, actual - expected), window, track);
    }
  }

  lemma TracksRunDaily(window: CiWindow, asOf: Date)
    requires ValidWindow(window) && window.start.Some? && window.end == Some(asOf) && window.start.value <= asOf
    ensures forall track <- TRACKS ::
      Elements(window.runs[track]) == ExpectedDates(window) <==> RunsDaily(window.runs[track], window.start.value, asOf)
    ensures forall track <- TRACKS ::
      RunsDaily(window.runs[track], window.start.value, asOf) ==> |window.runs[track]| == asOf - window.start.value + 1
  {
    hide Days, Elements, Distinct, RunsDaily;
    forall track <- TRACKS
      ensures Elements(window.runs[track]) == ExpectedDates(window)
        <==> RunsDaily(window.runs[track], window.start.value, asOf)
      ensures RunsDaily(window.runs[track], window.start.value, asOf)
        ==> |window.runs[track]| == asOf - window.start.value + 1
    {
      DailyRunsAreTheDays(window.runs[track], window.start.value, asOf);
    }
  }

  // ----- Adoption -----

  function Names(adopters: seq<Adopter>): (names: seq<string>)
    ensures |names| == |adopters|
  {
    seq(|adopters|, i requires 0 <= i < |adopters| => adopters[i].name)
  }

  function RepeatNames(repeats: seq<Repeat>): (names: seq<string>)
    ensures |names| == |repeats|
  {
    seq(|repeats|, i requires 0 <= i < |repeats| => repeats[i].adopter)
  }

  /** The first use by name; a later adopter of the same name replaces an earlier one. */
  function FirstUses(adopters: seq<Adopter>): (uses: map<string, Date>)
    ensures uses.Keys == Elements(Names(adopters))
  {
    if adopters == [] then map[]
    else
      var n := |adopters| - 1;
      assert Names(adopters) == Names(adopters[..n]) + [adopters[n].name];
      FirstUses(adopters[..n])[adopters[n].name := adopters[n].firstUse]
  }

  lemma {:induction false} FirstUseOfDistinct(adopters: seq<Adopter>, i: nat)
    requires Distinct(Names(adopters)) && i < |adopters|
    ensures adopters[i].name in FirstUses(adopters) && FirstUses(adopters)[adopters[i].name] == adopters[i].firstUse
  {
    var n := |adopters| - 1;
    if i < n {
      assert Names(adopters[..n]) == Names(adopters)[..n];
      assert Names(adopters)[i] != Names(adopters)[n];
      FirstUseOfDistinct(adopters[..n], i);
    }
  }

  /** What the `n`-th repeat entry is reported for. */
  predicate IsFlaw(finding: Finding, repeats: seq<Repeat>, uses: map<string, Date>, n: nat)
    requires n < |repeats|
  {
    var name := repeats[n].adopter;
    || (finding == DuplicateRepeat(name) && exists m | 0 <= m < n :: repeats[m].adopter == name)
    || (finding == RepeatByStranger(name) && name !in uses)
    || (finding == RepeatTooSoon(name) && name in uses && repeats[n].repeatUse - uses[name] < 30)
  }

  /** The findings about the repeat entries are exactly their flaws. */
  ghost predicate DescribesRepeats(findings: seq<Finding>, repeats: seq<Repeat>, uses: map<string, Date>) {
    forall f :: f in findings <==> exists n | 0 <= n < |repeats| :: IsFlaw(f, repeats, uses, n)
  }

  method RepeatFindings(repeats: seq<Repeat>, uses: map<string, Date>)
    returns (findings: seq<Finding>, repeatedNames: set<string>)
    ensures DescribesRepeats(findings, repeats, uses)
    ensures repeatedNames == Elements(RepeatNames(repeats))
  {
    findings, repeatedNames := [], {};
    for i := 0 to |repeats|
      invariant repeatedNames == Elements(RepeatNames(repeats[..i]))
      invariant DescribesRepeats(findings, repeats[..i], uses)
    {
      var name := repeats[i].adopter;
      ghost var before := findings;
      SeenBefore(repeats, i);
      if name in repeatedNames {
        findings := findings + [DuplicateRepeat(name)];
      }
      repeatedNames := repeatedNames + {name};
      if name !in uses {
        findings := findings + [RepeatByStranger(name)];
      } else if repeats[i].repeatUse - uses[name] < 30 {
        findings := findings + [RepeatTooSoon(name)];
      }
      OneRepeatMore(before, findings, repeats, uses, i);
    }
    assert repeats[..|repeats|] == repeats;
  }

  lemma OneRepeatMore(before: seq<Finding>, after: seq<Finding>, repeats: seq<Repeat>, uses: map<string, Date>, i: nat)
    requires i < |repeats| && DescribesRepeats(before, repeats[..i], uses)
    requires forall f :: f in after <==> f in before || IsFlaw(f, repeats, uses, i)
    ensures DescribesRepeats(after, repeats[..i + 1], uses)
  {
    var more := repeats[..i + 1];
    forall f, n: nat | n < i ensures IsFlaw(f, more, uses, n) <==> IsFlaw(f, repeats[..i], uses, n) {
    }
    assert forall f :: IsFlaw(f, more, uses, i) <==> IsFlaw(f, repeats, uses, i);
  }

  lemma SeenBefore(repeats: seq<Repeat>, i: nat)
    requires i < |repeats|
    ensures repeats[i].adopter in Elements(RepeatNames(repeats[..i]))
      <==> exists m | 0 <= m < i :: repeats[m].adopter == repeats[i].adopter
    ensures Elements(RepeatNames(repeats[..i + 1])) == Elements(RepeatNames(repeats[..i])) + {repeats[i].adopter}
  {
    var seen := RepeatNames(repeats[..i]);
    assert RepeatNames(repeats[..i + 1]) == seen + [repeats[i].adopter];
    assert forall m | 0 <= m < i :: seen[m] == repeats[m].adopter;
  }

  ghost predicate IsAdoptionFlaw(finding: Finding, adoption: Adoption) {
    var names, repeats := Names(adoption.adopters), adoption.repeats;
    || (finding == TooFewAdopters && |Elements(names)| < 3)
    || (finding == RepeatedAdopterName && !Distinct(names))
    || (exists n | 0 <= n < |repeats| :: IsFlaw(finding, repeats, FirstUses(adoption.adopters), n))
    || (finding == TooFewRepeats && |Elements(RepeatNames(repeats)) * Elements(names)| < 2)
    || (finding == NoPublicIntegration && !adoption.publicIntegration)
    || (finding == NoExternalContribution && !adoption.nonMaintainerContribution)
  }

  method AdoptionFindings(adoption: Adoption) returns (findings: seq<Finding>)
    ensures forall f :: f in findings <==> IsAdoptionFlaw(f, adoption)
  {
    hide Elements, Distinct, FirstUses, IsFlaw, Names, RepeatNames;
    var names := Names(adoption.adopters);
    var unique := Elements(names);
    DistinctMeansSameSize(names);
    findings := [];
    if |adoption.adopters| < 3 || |unique| < 3 {
      findings := findings + [TooFewAdopters];
    }
    if |unique| != |names| {
      findings := findings + [RepeatedAdopterName];
    }
    var flaws, repeatedNames := RepeatFindings(adoption.repeats, FirstUses(adoption.adopters));
    findings := findings + flaws;
    if |repeatedNames * unique| < 2 {
      findings := findings + [TooFewRepeats];
    }
    if !adoption.publicIntegration {
      findings := findings + [NoPublicIntegration];
    }
    if !adoption.nonMaintainerContribution {
      findings := findings + [NoExternalContribution];
    }
  }

  /** This entry shows a named adopter back after thirty days or more. */
  predicate Returned(entry: Repeat, adopters: seq<Adopter>) {
    exists adopter <- adopters :: adopter.name == entry.adopter && entry.repeatUse - adopter.firstUse >= 30
  }

  /** At least three adopters, and at least two of them back, each told of once. */
  ghost predicate Adopted(adoption: Adoption) {
    && |adoption.adopters| >= 3 && Distinct(Names(adoption.adopters))
    && |adoption.repeats| >= 2 && Distinct(RepeatNames(adoption.repeats))
    && AllReturned(adoption.repeats, adoption.adopters)
    && adoption.publicIntegration && adoption.nonMaintainerContribution
  }

  ghost predicate Flawless(repeats: seq<Repeat>, uses: map<string, Date>, n: nat)
    requires n < |repeats|
  {
    forall f :: !IsFlaw(f, repeats, uses, n)
  }

  predicate IsNew(repeats: seq<Repeat>, n: nat)
    requires n < |repeats|
  {
    forall m | 0 <= m < n :: repeats[m].adopter != repeats[n].adopter
  }

  lemma FlawlessMeans(repeats: seq<Repeat>, uses: map<string, Date>, n: nat)
    requires n < |repeats|
    ensures var name := repeats[n].adopter;
      Flawless(repeats, uses, n) <==> IsNew(repeats, n) && name in uses && repeats[n].repeatUse - uses[name] >= 30
  {
    var name := repeats[n].adopter;
    if Flawless(repeats, uses, n) {
      assert !IsFlaw(DuplicateRepeat(name), repeats, uses, n) && !IsFlaw(RepeatByStranger(name), repeats, uses, n)
             && !IsFlaw(RepeatTooSoon(name), repeats, uses, n);
    }
  }

  /** Among distinct adopters, an entry is without flaw exactly when it is new and its adopter returned. */
  lemma FlawlessEntry(repeats: seq<Repeat>, adopters: seq<Adopter>, n: nat)
    requires Distinct(Names(adopters)) && n < |repeats|
    ensures Flawless(repeats, FirstUses(adopters), n) <==> IsNew(repeats, n) && Returned(repeats[n], adopters)
  {
    hide FirstUses, Distinct, Elements, Flawless, IsNew;
    var uses, name := FirstUses(adopters), repeats[n].adopter;
    FlawlessMeans(repeats, uses, n);
    NamesAreKeys(adopters, name);
    forall i | 0 <= i < |adopters| ensures adopters[i].name in uses && uses[adopters[i].name] == adopters[i].firstUse {
      FirstUseOfDistinct(adopters, i);
    }
    assert forall i | 0 <= i < |adopters| :: adopters[i] in adopters;
  }

  lemma NamesAreKeys(adopters: seq<Adopter>, name: string)
    ensures name in FirstUses(adopters) <==> exists i | 0 <= i < |adopters| :: adopters[i].name == name
  {
    var names := Names(adopters);
    assert name in FirstUses(adopters) <==> name in names;
    if name in names {
      var i :| 0 <= i < |names| && names[i] == name;
      assert adopters[i].name == name;
    }
    assert forall i | 0 <= i < |adopters| :: names[i] == adopters[i].name;
  }

  lemma DistinctEntries(repeats: seq<Repeat>)
    ensures Distinct(RepeatNames(repeats)) <==> forall n | 0 <= n < |repeats| :: IsNew(repeats, n)
  {
    var names := RepeatNames(repeats);
    assert forall n | 0 <= n < |repeats| :: names[n] == repeats[n].adopter;
    if forall n | 0 <= n < |repeats| :: IsNew(repeats, n) {
      forall m, n | 0 <= m < n < |names| ensures names[m] != names[n] {
        assert IsNew(repeats, n);
      }
    }
  }

  predicate AllReturned(repeats: seq<Repeat>, adopters: seq<Adopter>) {
    forall n | 0 <= n < |repeats| :: Returned(repeats[n], adopters)
  }

  lemma FlawlessEntries(repeats: seq<Repeat>, adopters: seq<Adopter>, uses: map<string, Date>)
    requires Distinct(Names(adopters)) && uses == FirstUses(adopters)
    ensures (forall n | 0 <= n < |repeats| :: Flawless(repeats, uses, n))
      <==> Distinct(RepeatNames(repeats)) && AllReturned(repeats, adopters)
  {
    hide IsFlaw, Distinct, Returned, Flawless, IsNew;
    DistinctEntries(repeats);
    forall n | 0 <= n < |repeats|
      ensures Flawless(repeats, uses, n) <==> IsNew(repeats, n) && Returned(repeats[n], adopters)
    {
      FlawlessEntry(repeats, adopters, n);
    }
    if forall n | 0 <= n < |repeats| :: Flawless(repeats, uses, n) {
      forall n | 0 <= n < |repeats| ensures IsNew(repeats, n) && Returned(repeats[n], adopters) {
        assert Flawless(repeats, uses, n);
      }
    }
  }

  /** Entries of named adopters only, told of once each, are all among the adopters. */
  lemma ReturnedAreAdopters(repeats: seq<Repeat>, adopters: seq<Adopter>)
    requires AllReturned(repeats, adopters)
    ensures Elements(RepeatNames(repeats)) * Elements(Names(adopters)) == Elements(RepeatNames(repeats))
  {
    forall name | name in Elements(RepeatNames(repeats)) ensures name in Elements(Names(adopters)) {
      var n :| 0 <= n < |repeats| && RepeatNames(repeats)[n] == name;
      assert Returned(repeats[n], adopters);
      var adopter :| adopter in adopters && adopter.name == repeats[n].adopter;
      var i :| 0 <= i < |adopters| && adopters[i] == adopter;
      assert Names(adopters)[i] == name;
    }
  }

  /** Adoption has no flaw exactly when it is shown in full. */
  lemma AdoptionFlawsAreExact(adoption: Adoption)
    ensures (forall f :: !IsAdoptionFlaw(f, adoption)) <==> Adopted(adoption)
  {
    hide IsFlaw, Distinct, Elements, FirstUses, Returned, Names, RepeatNames;
    var names, repeats := Names(adoption.adopters), adoption.repeats;
    DistinctMeansSameSize(names);
    DistinctMeansSameSize(RepeatNames(repeats));
    if forall f :: !IsAdoptionFlaw(f, adoption) {
      assert !IsAdoptionFlaw(TooFewAdopters, adoption) && !IsAdoptionFlaw(RepeatedAdopterName, adoption);
      assert !IsAdoptionFlaw(TooFewRepeats, adoption) && !IsAdoptionFlaw(NoPublicIntegration, adoption);
      assert !IsAdoptionFlaw(NoExternalContribution, adoption);
      FlawlessEntries(repeats, adoption.adopters, FirstUses(adoption.adopters));
      forall n | 0 <= n < |repeats| ensures Flawless(repeats, FirstUses(adoption.adopters), n) {
        forall f ensures !IsFlaw(f, repeats, FirstUses(adoption.adopters), n) {
          assert !IsAdoptionFlaw(f, adoption);
        }
      }
      ReturnedAreAdopters(repeats, adoption.adopters);
    }
    if Adopted(adoption) {
      FlawlessEntries(repeats, adoption.adopters, FirstUses(adoption.adopters));
      ReturnedAreAdopters(repeats, adoption.adopters);
      forall f ensures !IsAdoptionFlaw(f, adoption) {
        forall n | 0 <= n < |repeats| ensures !IsFlaw(f, repeats, FirstUses(adoption.adopters), n) {
          assert Flawless(repeats, FirstUses(adoption.adopters), n);
        }
      }
    }
  }

  // ----- The other gates -----

  const GATES: seq<Gate> := [AdoptionGate, CorrectnessGate, DeliveryGate, PerformanceGate, ProductGate]

  /** Structurally valid: every gate has a status and its evidence, every track its runs, and no list repeats itself. */
  predicate ValidManifest(manifest: Manifest) {
    && (forall gate :: gate in manifest.satisfied)
    && (forall gate :: gate in manifest.evidence && Distinct(manifest.evidence[gate])
          && forall criterion <- manifest.evidence[gate] :: criterion in CriteriaOf(gate))
    && Distinct(manifest.correctness.reviewedAreas)
    && ValidWindow(manifest.window)
  }

  predicate IsStatusFlaw(finding: Finding, manifest: Manifest, gate: Gate)
    requires gate in manifest.satisfied
  {
    finding == GateNotSatisfied(gate) && !manifest.satisfied[gate]
  }

  predicate IsEvidenceFlaw(finding: Finding, manifest: Manifest, gate: Gate)
    requires gate in manifest.evidence
  {
    var missing := CriteriaOf(gate) - Elements(manifest.evidence[gate]);
    finding == MissingEvidence(gate, missing) && missing != {}
  }

  predicate IsGateFlaw(finding: Finding, manifest: Manifest)
    requires ValidManifest(manifest)
  {
    exists gate :: IsStatusFlaw(finding, manifest, gate) || IsEvidenceFlaw(finding, manifest, gate)
  }

  /** First the status of every gate, then the evidence of every gate that asks for any. */
  method GateFindings(manifest: Manifest) returns (findings: seq<Finding>)
    requires ValidManifest(manifest)
    ensures forall f :: f in findings <==> IsGateFlaw(f, manifest)
  {
    findings := [];
    for i := 0 to |GATES|
      invariant forall f :: f in findings <==> exists k | 0 <= k < i :: IsStatusFlaw(f, manifest, GATES[k])
    {
      if !manifest.satisfied[GATES[i]] {
        findings := findings + [GateNotSatisfied(GATES[i])];
      }
    }
    ghost var statuses := findings;
    hide Elements, CriteriaOf;
    for i := 1 to |GATES|
      invariant forall f :: f in findings <==>
        f in statuses || exists k | 1 <= k < i :: IsEvidenceFlaw(f, manifest, GATES[k])
    {
      var missing := CriteriaOf(GATES[i]) - Elements(manifest.evidence[GATES[i]]);
      if missing != {} {
        findings := findings + [MissingEvidence(GATES[i], missing)];
      }
    }
    AllGatesAreListed(manifest, statuses, findings);
  }

  lemma AllGatesAreListed(manifest: Manifest, statuses: seq<Finding>, findings: seq<Finding>)
    requires ValidManifest(manifest)
    requires forall f :: f in statuses <==> exists k | 0 <= k < |GATES| :: IsStatusFlaw(f, manifest, GATES[k])
    requires forall f :: f in findings <==>
      f in statuses || exists k | 1 <= k < |GATES| :: IsEvidenceFlaw(f, manifest, GATES[k])
    ensures forall f :: f in findings <==> IsGateFlaw(f, manifest)
  {
    forall f, gate | IsStatusFlaw(f, manifest, gate) || IsEvidenceFlaw(f, manifest, gate) ensures f in findings {
      assert GATES[IndexOf(gate)] == gate;
    }
  }

  function IndexOf(gate: Gate): (i: nat)
    ensures i < |GATES| && GATES[i] == gate
  {
    match gate
    case AdoptionGate => 0
    case CorrectnessGate => 1
    case DeliveryGate => 2
    case PerformanceGate => 3
    case ProductGate => 4
  }

  // ----- Version, review, continuity and freshness -----

  /** `major` reads the major number of a SemVer version, and nothing from any other text. */
  predicate IsVersionFlaw(finding: Finding, target: string, release: Option<string>, major: string -> Option<nat>) {
    || (finding == NotV1 && (major(target).None? || major(target).value < 1))
    || (finding == ReleaseVersionFormat && release.Some? && major(release.value).None?)
    || (finding == OtherReleaseVersion && release.Some? && major(release.value).Some? && target != release.value)
  }

  method VersionFindings(target: string, release: Option<string>, major: string -> Option<nat>)
    returns (findings: seq<Finding>)
    ensures forall f :: f in findings <==> IsVersionFlaw(f, target, release, major)
  {
    findings := [];
    if major(target).None? || major(target).value < 1 {
      findings := findings + [NotV1];
    }
    if release.Some? {
      if major(release.value).None? {
        findings := findings + [ReleaseVersionFormat];
      } else if target != release.value {
        findings := findings + [OtherReleaseVersion];
      }
    }
  }

  predicate IsReviewFlaw(finding: Finding, correctness: Correctness) {
    var areas := Elements(correctness.reviewedAreas);
    || (finding == NoSecurityReview && correctness.review.None?)
    || (finding == AreasNotReviewed(ALL_AREAS - areas) && areas != ALL_AREAS)
    || (finding == OpenFindings && (correctness.openCritical > 0 || correctness.openHigh > 0))
  }

  method ReviewFindings(correctness: Correctness) returns (findings: seq<Finding>)
    ensures forall f :: f in findings <==> IsReviewFlaw(f, correctness)
  {
    hide Elements, ALL_AREAS;
    var areas := Elements(correctness.reviewedAreas);
    findings := [];
    if correctness.review.None? {
      findings := findings + [NoSecurityReview];
    }
    if areas != ALL_AREAS {
      findings := findings + [AreasNotReviewed(ALL_AREAS - areas)];
    }
    if correctness.openCritical != 0 || correctness.openHigh != 0 {
      findings := findings + [OpenFindings];
    }
  }

  predicate IsContinuityFlaw(finding: Finding, continuity: Continuity) {
    || (finding == ContinuityNotSatisfied && !continuity.satisfied)
    || (finding == NoContinuityMode && continuity.mode.None?)
    || (finding == NoContinuityEvidence && continuity.references == 0)
  }

  method ContinuityFindings(continuity: Continuity) returns (findings: seq<Finding>)
    ensures forall f :: f in findings <==> IsContinuityFlaw(f, continuity)
  {
    findings := [];
    if !continuity.satisfied {
      findings := findings + [ContinuityNotSatisfied];
    }
    if continuity.mode.None? {
      findings := findings + [NoContinuityMode];
    }
    if continuity.references == 0 {
      findings := findings + [NoContinuityEvidence];
    }
  }

  /** No evidence is dated after the manifest. */
  ghost predicate DatedBy(manifest: Manifest) {
    var asOf, adoption := manifest.asOf, manifest.adoption;
    && (manifest.window.end.Some? ==> manifest.window.end.value <= asOf)
    && (manifest.correctness.review.Some? ==> manifest.correctness.review.value.completedOn <= asOf)
    && (forall name <- FirstUses(adoption.adopters) :: FirstUses(adoption.adopters)[name] <= asOf)
    && (forall i | 0 <= i < |adoption.repeats| :: adoption.repeats[i].repeatUse <= asOf)
  }

  method FreshnessFindings(manifest: Manifest) returns (findings: seq<Finding>)
    ensures findings == if DatedBy(manifest) then [] else [AsOfTooEarly]
  {
    hide FirstUses;
    var asOf, adoption := manifest.asOf, manifest.adoption;
    var uses, late := FirstUses(adoption.adopters), false;
    if manifest.window.end.Some? {
      late := late || manifest.window.end.value > asOf;
    }
    if manifest.correctness.review.Some? {
      late := late || manifest.correctness.review.value.completedOn > asOf;
    }
    late := late || exists name <- uses :: uses[name] > asOf;
    ghost var lateBefore := late;
    for i := 0 to |adoption.repeats|
      invariant late <==> lateBefore || exists k | 0 <= k < i :: adoption.repeats[k].repeatUse > asOf
    {
      late := late || adoption.repeats[i].repeatUse > asOf;
    }
    findings := if late then [AsOfTooEarly] else [];
  }

  // ----- Readiness -----

  ghost predicate IsManifestFlaw(finding: Finding, manifest: Manifest, release: Option<string>,
                                 major: string -> Option<nat>)
    requires ValidManifest(manifest)
  {
    || IsVersionFlaw(finding, manifest.targetVersion, release, major)
    || IsGateFlaw(finding, manifest)
    || IsReviewFlaw(finding, manifest.correctness)
    || IsCiFlaw(finding, manifest.window, manifest.asOf)
    || IsContinuityFlaw(finding, manifest.continuity)
    || IsAdoptionFlaw(finding, manifest.adoption)
    || (finding == AsOfTooEarly && !DatedBy(manifest))
  }

  method ReadinessFindings(manifest: Manifest, release: Option<string>, major: string -> Option<nat>)
    returns (findings: seq<Finding>)
    requires ValidManifest(manifest)
    ensures forall f :: f in findings <==> IsManifestFlaw(f, manifest, release, major)
    ensures findings == [] <==> Ready(manifest, release, major)
  {
    hide IsVersionFlaw, IsGateFlaw, IsReviewFlaw, IsCiFlaw, IsContinuityFlaw, IsAdoptionFlaw, DatedBy, Ready;
    var version := VersionFindings(manifest.targetVersion, release, major);
    var gates := GateFindings(manifest);
    var review := ReviewFindings(manifest.correctness);
    var ci := CiFindings(manifest.window, manifest.asOf);
    var continuity := ContinuityFindings(manifest.continuity);
    var adoption := AdoptionFindings(manifest.adoption);
    var freshness := FreshnessFindings(manifest);
    findings := version + gates + review + ci + continuity + adoption + freshness;
    ReadinessIsExact(manifest, release, major);
    assert findings != [] ==> findings[0] in findings;
  }

  /** What a release needs. */
  ghost predicate Ready(manifest: Manifest, release: Option<string>, major: string -> Option<nat>)
    requires ValidManifest(manifest)
  {
    var target, correctness := manifest.targetVersion, manifest.correctness;
    && major(target).Some? && major(target).value >= 1 && (release.Some? ==> release.value == target)
    && (forall gate :: manifest.satisfied[gate] && CriteriaOf(gate) == Elements(manifest.evidence[gate]))
    && correctness.review.Some? && Elements(correctness.reviewedAreas) == ALL_AREAS
    && correctness.openCritical == 0 == correctness.openHigh
    && ContinuouslyTested(manifest.window, manifest.asOf)
    && manifest.continuity.satisfied && manifest.continuity.mode.Some? && manifest.continuity.references > 0
    && Adopted(manifest.adoption)
    && (forall adopter <- manifest.adoption.adopters :: adopter.firstUse <= manifest.asOf)
    && (forall entry <- manifest.adoption.repeats :: entry.repeatUse <= manifest.asOf)
    && correctness.review.value.completedOn <= manifest.asOf
  }

  lemma NothingMissing<T>(listed: set<T>, wanted: set<T>)
    requires listed <= wanted
    ensures wanted == listed <==> wanted - listed == {}
  {
    if wanted - listed == {} {
      forall x | x in wanted ensures x in listed {
        assert x !in wanted - listed;
      }
    }
  }

  lemma GatesAreExact(manifest: Manifest)
    requires ValidManifest(manifest)
    ensures (forall f :: !IsGateFlaw(f, manifest)) <==>
      forall gate :: manifest.satisfied[gate] && CriteriaOf(gate) == Elements(manifest.evidence[gate])
  {
    hide CriteriaOf;
    forall gate
      ensures CriteriaOf(gate) == Elements(manifest.evidence[gate])
        <==> CriteriaOf(gate) - Elements(manifest.evidence[gate]) == {}
    {
      NothingMissing(Elements(manifest.evidence[gate]), CriteriaOf(gate));
    }
    if forall f :: !IsGateFlaw(f, manifest) {
      forall gate ensures manifest.satisfied[gate] && CriteriaOf(gate) == Elements(manifest.evidence[gate]) {
        var missing := CriteriaOf(gate) - Elements(manifest.evidence[gate]);
        assert !IsGateFlaw(GateNotSatisfied(gate), manifest);
        assert !IsGateFlaw(MissingEvidence(gate, missing), manifest);
        assert !IsStatusFlaw(GateNotSatisfied(gate), manifest, gate);
        assert !IsEvidenceFlaw(MissingEvidence(gate, missing), manifest, gate);
      }
    }
  }

  /** Among distinct adopters the freshness rule covers every date. */
  lemma FreshnessIsExact(manifest: Manifest)
    requires Distinct(Names(manifest.adoption.adopters))
    requires manifest.window.end == Some(manifest.asOf) && manifest.correctness.review.Some?
    ensures DatedBy(manifest) <==>
      && (forall adopter <- manifest.adoption.adopters :: adopter.firstUse <= manifest.asOf)
      && (forall entry <- manifest.adoption.repeats :: entry.repeatUse <= manifest.asOf)
      && manifest.correctness.review.value.completedOn <= manifest.asOf
  {
    var adopters, uses := manifest.adoption.adopters, FirstUses(manifest.adoption.adopters);
    hide FirstUses, Distinct;
    forall i | 0 <= i < |adopters| ensures adopters[i].name in uses && uses[adopters[i].name] == adopters[i].firstUse {
      FirstUseOfDistinct(adopters, i);
    }
    forall name | name in uses ensures exists i | 0 <= i < |adopters| :: adopters[i].name == name {
      NamesAreKeys(adopters, name);
    }
  }

  lemma VersionsAreExact(target: string, release: Option<string>, major: string -> Option<nat>)
    ensures (forall f :: !IsVersionFlaw(f, target, release, major)) <==>
      major(target).Some? && major(target).value >= 1 && (release.Some? ==> release.value == target)
  {
    if forall f :: !IsVersionFlaw(f, target, release, major) {
      assert !IsVersionFlaw(NotV1, target, release, major)
             && !IsVersionFlaw(ReleaseVersionFormat, target, release, major)
             && !IsVersionFlaw(OtherReleaseVersion, target, release, major);
    }
  }

  lemma ReviewIsExact(correctness: Correctness)
    ensures (forall f :: !IsReviewFlaw(f, correctness)) <==>
      correctness.review.Some? && Elements(correctness.reviewedAreas) == ALL_AREAS
      && correctness.openCritical == 0 == correctness.openHigh
  {
    hide Elements, ALL_AREAS;
    if forall f :: !IsReviewFlaw(f, correctness) {
      assert !IsReviewFlaw(NoSecurityReview, correctness) && !IsReviewFlaw(OpenFindings, correctness)
             && !IsReviewFlaw(AreasNotReviewed(ALL_AREAS - Elements(correctness.reviewedAreas)), correctness);
    }
  }

  lemma ContinuityIsExact(continuity: Continuity)
    ensures (forall f :: !IsContinuityFlaw(f, continuity)) <==>
      continuity.satisfied && continuity.mode.Some? && continuity.references > 0
  {
    if forall f :: !IsContinuityFlaw(f, continuity) {
      assert !IsContinuityFlaw(ContinuityNotSatisfied, continuity) && !IsContinuityFlaw(NoContinuityMode, continuity)
             && !IsContinuityFlaw(NoContinuityEvidence, continuity);
    }
  }

  lemma PartsOfManifest(manifest: Manifest, release: Option<string>, major: string -> Option<nat>)
    requires ValidManifest(manifest)
    ensures (forall f :: !IsManifestFlaw(f, manifest, release, major)) <==>
      && (forall f :: !IsVersionFlaw(f, manifest.targetVersion, release, major))
      && (forall f :: !IsGateFlaw(f, manifest)) && (forall f :: !IsReviewFlaw(f, manifest.correctness))
      && (forall f :: !IsCiFlaw(f, manifest.window, manifest.asOf))
      && (forall f :: !IsContinuityFlaw(f, manifest.continuity)) && (forall f :: !IsAdoptionFlaw(f, manifest.adoption))
      && DatedBy(manifest)
  {
    hide IsVersionFlaw, IsGateFlaw, IsReviewFlaw, IsCiFlaw, IsContinuityFlaw, IsAdoptionFlaw, DatedBy;
    if forall f :: !IsManifestFlaw(f, manifest, release, major) {
      assert !IsManifestFlaw(AsOfTooEarly, manifest, release, major);
      forall f
        ensures !IsVersionFlaw(f, manifest.targetVersion, release, major) && !IsGateFlaw(f, manifest)
        ensures !IsReviewFlaw(f, manifest.correctness) && !IsCiFlaw(f, manifest.window, manifest.asOf)
        ensures !IsContinuityFlaw(f, manifest.continuity) && !IsAdoptionFlaw(f, manifest.adoption)
      {
        assert !IsManifestFlaw(f, manifest, release, major);
      }
    }
  }

  /** A valid manifest is without findings exactly when it is ready. */
  lemma ReadinessIsExact(manifest: Manifest, release: Option<string>, major: string -> Option<nat>)
    requires ValidManifest(manifest)
    ensures (forall f :: !IsManifestFlaw(f, manifest, release, major)) <==> Ready(manifest, release, major)
  {
    PartsOfManifest(manifest, release, major);
    VersionsAreExact(manifest.targetVersion, release, major);
    GatesAreExact(manifest);
    ReviewIsExact(manifest.correctness);
    CiFlawsAreExact(manifest.window, manifest.asOf);
    ContinuityIsExact(manifest.continuity);
    AdoptionFlawsAreExact(manifest.adoption);
    hide IsManifestFlaw, IsVersionFlaw, IsGateFlaw, IsReviewFlaw, IsCiFlaw, IsContinuityFlaw, IsAdoptionFlaw, DatedBy,
         RunsDaily, Elements, Distinct, Names, RepeatNames, AllReturned, ALL_AREAS, CriteriaOf;
    if ContinuouslyTested(manifest.window, manifest.asOf) && Adopted(manifest.adoption)
       && manifest.correctness.review.Some? {
      FreshnessIsExact(manifest);
    }
  }

  // ----- What readiness takes -----

  /** The gate that a criterion belongs to. */
  function GateOf(criterion: Criterion): Gate {
    match criterion
    case ContractCompatibility => ProductGate
    case GoldenDocuments => ProductGate
    case PhaseObservability => ProductGate
    case ExplicitCapabilityDowngrades => ProductGate
    case DiagnosticAccuracy => CorrectnessGate
    case UncertaintyCalibration => CorrectnessGate
    case SsrfPolicyCorpus => CorrectnessGate
    case RedactionCorpus => CorrectnessGate
    case VulnerabilityAudit => CorrectnessGate
    case LiveDiagnosticBudget => PerformanceGate
    case OfflineOperationLatency => PerformanceGate
    case ScenarioMemory => PerformanceGate
    case BenchmarkReproducibility => PerformanceGate
    case ReleaseSupplyChain => DeliveryGate
    case SecurityResponseSlo => DeliveryGate
  }

  lemma CriteriaAreThoseOfTheGate(gate: Gate, criterion: Criterion)
    ensures criterion in CriteriaOf(gate) <==> GateOf(criterion) == gate
  {
  }

  lemma EveryAreaIsListed(area: Area)
    ensures area in ALL_AREAS
  {
    assert area.SsrfBoundaries? || area.ResolutionRaces? || area.Redirects? || area.Proxies? || area.TlsIdentity?
      || area.TrustRoots? || area.ReportIntegrity? || area.Replay? || area.ResourceLimits?
      || area.DiagnosticDisclosure?;
  }

  lemma EveryTrackIsListed(track: Track)
    ensures track in TRACKS
  {
    assert track.DeterministicFixtures? || track.Linux? || track.MacOs? || track.Windows?;
    assert TRACKS[0] == DeterministicFixtures && TRACKS[1] == Linux && TRACKS[2] == MacOs && TRACKS[3] == Windows;
  }

  /** Three adopters of different names, two of them back after thirty days, each told of once. */
  predicate ShowsAdoption(adopters: seq<Adopter>, repeats: seq<Repeat>) {
    && |adopters| >= 3 && (forall i, j | 0 <= i < j < |adopters| :: adopters[i].name != adopters[j].name)
    && |repeats| >= 2 && (forall i, j | 0 <= i < j < |repeats| :: repeats[i].adopter != repeats[j].adopter)
    && forall i | 0 <= i < |repeats| :: IsBack(repeats[i], adopters)
  }

  predicate IsBack(entry: Repeat, adopters: seq<Adopter>) {
    exists k | 0 <= k < |adopters| ::
      adopters[k].name == entry.adopter && entry.repeatUse - adopters[k].firstUse >= 30
  }

  lemma AdoptedShowsAdoption(adoption: Adoption)
    requires Adopted(adoption)
    ensures ShowsAdoption(adoption.adopters, adoption.repeats)
  {
    var adopters, repeats := adoption.adopters, adoption.repeats;
    forall i, j | 0 <= i < j < |adopters| ensures adopters[i].name != adopters[j].name {
      assert Names(adopters)[i] != Names(adopters)[j];
    }
    forall i, j | 0 <= i < j < |repeats| ensures repeats[i].adopter != repeats[j].adopter {
      assert RepeatNames(repeats)[i] != RepeatNames(repeats)[j];
    }
    forall i | 0 <= i < |repeats| ensures IsBack(repeats[i], adopters) {
      assert Returned(repeats[i], adopters);
    }
  }

  /**
   * A ready manifest leaves nothing out: every criterion is listed by its own gate and by no other, every gate is
   * satisfied, every area was reviewed, every track ran on every day, and adoption is shown.
   */
  lemma ReadyLeavesNothingOut(manifest: Manifest, release: Option<string>, major: string -> Option<nat>)
    requires ValidManifest(manifest) && Ready(manifest, release, major)
    ensures forall gate, criterion :: criterion in manifest.evidence[gate] <==> GateOf(criterion) == gate
    ensures forall gate :: manifest.satisfied[gate]
    ensures forall area: Area :: area in manifest.correctness.reviewedAreas
    ensures ShowsAdoption(manifest.adoption.adopters, manifest.adoption.repeats)
    ensures forall track: Track ::
      var window := manifest.window;
      track in window.runs && RunsDaily(window.runs[track], window.start.value, manifest.asOf)
  {
    AdoptedShowsAdoption(manifest.adoption);
    hide RunsDaily, Adopted, CriteriaOf, GateOf, ShowsAdoption;
    forall gate, criterion ensures criterion in manifest.evidence[gate] <==> GateOf(criterion) == gate {
      CriteriaAreThoseOfTheGate(gate, criterion);
      assert criterion in Elements(manifest.evidence[gate]) <==> criterion in CriteriaOf(gate);
    }
    forall area: Area ensures area in manifest.correctness.reviewedAreas {
      EveryAreaIsListed(area);
      assert area in Elements(manifest.correctness.reviewedAreas);
    }
    forall track: Track ensures track in TRACKS {
      EveryTrackIsListed(track);
    }
  }
}
