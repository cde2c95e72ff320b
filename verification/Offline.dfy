/** Verifying, replaying and comparing sealed reports (src/offline.rs). */
module Offline {
  import opened Wrappers
  import opened Model
  import opened Diagnosis
  import opened Inspection
  import opened Guarantees

  function VerifyReport(report: Report, digest: Report -> Option<string>): Result<()> {
    if report.schemaVersion != REPORT_SCHEMA then Err(AppError(UnsupportedReportSchema, false))
    else if report.reportSha256.None? then Err(AppError(MissingReportDigest, false))
    else
      var actual := DigestReport(report, digest);
      if actual.None? then Err(AppError(SerializationFailed, false))
      else if report.reportSha256 != actual then Err(AppError(ReportIntegrityMismatch, false))
      else Ok(())
  }

  /** A report is sealed: under the current schema, with the digest of the rest of it. */
  predicate Sealed(report: Report, digest: Report -> Option<string>) {
    report.schemaVersion == REPORT_SCHEMA && report.reportSha256.Some?
    && report.reportSha256 == DigestReport(report, digest)
  }

  lemma VerifiedIsSealed(report: Report, digest: Report -> Option<string>)
    ensures VerifyReport(report, digest).Ok? <==> Sealed(report, digest)
  {
  }

  /** A report that is not sealed is refused for the first thing that is wrong with it. */
  lemma VerificationIsExact(report: Report, digest: Report -> Option<string>)
    ensures match VerifyReport(report, digest)
      case Ok(_) => Sealed(report, digest)
      case Err(error) =>
        && !Sealed(report, digest) && !error.retryable
        && match error.code
           case UnsupportedReportSchema => report.schemaVersion != "hopwhy.report.v1"
           case MissingReportDigest => report.schemaVersion == "hopwhy.report.v1" && report.reportSha256.None?
           case SerializationFailed =>
             && report.schemaVersion == "hopwhy.report.v1" && report.reportSha256.Some?
             && digest(report.(reportSha256 := None)).None?
           case ReportIntegrityMismatch =>
             && report.schemaVersion == "hopwhy.report.v1" && report.reportSha256.Some?
             && digest(report.(reportSha256 := None)).Some?
             && digest(report.(reportSha256 := None)) != report.reportSha256
           case _ => false
  {
  }

  /** What the engine seals verifies, for any digest that succeeds on it; without one it is refused as unsealed. */
  lemma SealedReportsVerify(report: Report, digest: Report -> Option<string>)
    requires report.schemaVersion == REPORT_SCHEMA
    ensures var r := VerifyReport(Seal(report, digest), digest);
      && (r.Ok? <==> digest(report.(reportSha256 := None)).Some?)
      && (r.Err? ==> r.error == AppError(MissingReportDigest, false))
  {
    assert Seal(report, digest).(reportSha256 := None) == report.(reportSha256 := None);
  }

  /** The same for a report of `Inspect`. */
  lemma InspectedReportsVerify(run: Run, report: Report, digest: Report -> Option<string>)
    requires Reports(run, report) && report.reportSha256 == DigestReport(report, digest)
    ensures VerifyReport(report, digest).Ok? <==> report.reportSha256.Some?
  {
    ReportShows(run, report);
    hide Reports, ExpectedFindings, ExpectedPhases;
  }

  /** Under a digest without collisions, two verified reports of one seal are one report. */
  lemma SealsIdentifyReports(a: Report, b: Report, digest: Report -> Option<string>)
    requires VerifyReport(a, digest).Ok? && VerifyReport(b, digest).Ok? && a.reportSha256 == b.reportSha256
    requires forall x: Report, y: Report :: digest(x).Some? && digest(x) == digest(y) ==> x == y
    ensures a == b
  {
    assert a.(reportSha256 := None) == b.(reportSha256 := None);
  }

  // ----- Phase maps -----

  /** The status of each phase name; a later phase of the same name replaces an earlier one. */
  function PhaseMap(phases: seq<Phase>): (statuses: map<PhaseName, PhaseStatus>)
  {
    if phases == [] then map[]
    else PhaseMap(phases[..|phases| - 1])[phases[|phases| - 1].name := phases[|phases| - 1].status]
  }

  function PhaseKey(name: PhaseName): string {
    match name
    case Input => "input"
    case Proxy => "proxy"
    case Dns => "dns"
    case Tcp => "tcp"
    case Tls => "tls"
    case Http => "http"
    case Redirects => "redirects"
    case Assertions => "assertions"
  }

  function KeyedPhaseMap(phases: seq<Phase>): (statuses: map<string, PhaseStatus>)
  {
    if phases == [] then map[]
    else KeyedPhaseMap(phases[..|phases| - 1])[PhaseKey(phases[|phases| - 1].name) := phases[|phases| - 1].status]
  }

  lemma KeysAreDistinct(a: PhaseName, b: PhaseName)
    ensures PhaseKey(a) == PhaseKey(b) <==> a == b
  {
    assert |PhaseKey(Tls)| == |PhaseKey(Tcp)| && PhaseKey(Tls)[1] != PhaseKey(Tcp)[1];
    assert PhaseKey(Dns)[0] == 'd' && PhaseKey(Tls)[0] == PhaseKey(Tcp)[0] == 't';
    assert PhaseKey(Input)[0] == 'i' && PhaseKey(Proxy)[0] == 'p';
  }

  lemma {:induction false} KeyedMapIsPhaseMap(phases: seq<Phase>, name: PhaseName)
    ensures PhaseKey(name) in KeyedPhaseMap(phases) <==> name in PhaseMap(phases)
    ensures name in PhaseMap(phases) ==> KeyedPhaseMap(phases)[PhaseKey(name)] == PhaseMap(phases)[name]
  {
    if phases != [] {
      KeyedMapIsPhaseMap(phases[..|phases| - 1], name);
      KeysAreDistinct(name, phases[|phases| - 1].name);
    }
  }

  lemma {:induction false} KeysComeFromNames(phases: seq<Phase>, key: string)
    requires key in KeyedPhaseMap(phases)
    ensures exists name :: PhaseKey(name) == key
  {
    if key != PhaseKey(phases[|phases| - 1].name) {
      KeysComeFromNames(phases[..|phases| - 1], key);
    }
  }

  /** Maps by key agree exactly when maps by name do. */
  lemma KeyedMapsAgree(a: seq<Phase>, b: seq<Phase>)
    ensures KeyedPhaseMap(a) == KeyedPhaseMap(b) <==> PhaseMap(a) == PhaseMap(b)
  {
    forall name
      ensures PhaseKey(name) in KeyedPhaseMap(a) <==> name in PhaseMap(a)
      ensures name in PhaseMap(a) ==> KeyedPhaseMap(a)[PhaseKey(name)] == PhaseMap(a)[name]
      ensures PhaseKey(name) in KeyedPhaseMap(b) <==> name in PhaseMap(b)
      ensures name in PhaseMap(b) ==> KeyedPhaseMap(b)[PhaseKey(name)] == PhaseMap(b)[name]
    {
      KeyedMapIsPhaseMap(a, name);
      KeyedMapIsPhaseMap(b, name);
    }
    if PhaseMap(a) == PhaseMap(b) {
      forall key | key in KeyedPhaseMap(a) || key in KeyedPhaseMap(b)
        ensures key in KeyedPhaseMap(a) && key in KeyedPhaseMap(b) && KeyedPhaseMap(a)[key] == KeyedPhaseMap(b)[key]
      {
        KeysComeFromNames(if key in KeyedPhaseMap(a) then a else b, key);
      }
    }
  }

  /** A report in phase order has its phases in its map: none is lost, none replaced. */
  lemma {:induction false} PhaseMapHoldsEveryPhase(phases: seq<Phase>)
    requires forall i | 0 <= i < |phases| :: PhaseRank(phases[i].name) == i
    ensures |PhaseMap(phases)| == |phases|
    ensures forall i | 0 <= i < |phases| ::
      phases[i].name in PhaseMap(phases) && PhaseMap(phases)[phases[i].name] == phases[i].status
    ensures forall name :: name in PhaseMap(phases) <==> PhaseRank(name) < |phases|
  {
    if phases != [] {
      var n := |phases| - 1;
      PhaseMapHoldsEveryPhase(phases[..n]);
      assert forall i | 0 <= i < n :: phases[..n][i] == phases[i];
      assert phases[n].name !in PhaseMap(phases[..n]);
      RanksAreDistinct();
    }
  }

  lemma RanksAreDistinct()
    ensures forall a, b :: PhaseRank(a) == PhaseRank(b) ==> a == b
  {
  }

  // ----- Replay -----

  datatype ReplayResult = ReplayResult(
    reportSha256: string,
    integrityValid: bool,
    networkPerformed: bool,
    failedAt: Option<PhaseName>,
    phaseStatuses: map<string, PhaseStatus>,
    hypotheses: seq<Hypothesis>)

  function Replay(report: Report, digest: Report -> Option<string>): Result<ReplayResult> {
    var verified := VerifyReport(report, digest);
    if verified.Err? then Err(verified.error)
    else Ok(ReplayResult(if report.reportSha256.Some? then report.reportSha256.value else "", true, false,
                         report.failedAt, KeyedPhaseMap(report.phases), report.hypotheses))
  }

  /**
   * Replaying a report of `Inspect` takes its seal for it, makes no network action, and shows what the report says: all
   * its phases, its hypotheses, and a failed phase exactly if one of the statuses is failed.
   */
  lemma ReplayIsExact(run: Run, report: Report, digest: Report -> Option<string>)
    requires Reports(run, report)
    ensures match Replay(report, digest)
      case Err(error) =>
        && !Sealed(report, digest)
        && (error.code == MissingReportDigest <==> report.reportSha256.None?)
      case Ok(replay) =>
        && Sealed(report, digest) && Some(replay.reportSha256) == report.reportSha256
        && replay.integrityValid && !replay.networkPerformed
        && |replay.phaseStatuses| == |report.phases|
        && (forall i | 0 <= i < |report.phases| ::
              var key := PhaseKey(report.phases[i].name);
              key in replay.phaseStatuses && replay.phaseStatuses[key] == report.phases[i].status)
        && replay.failedAt == report.failedAt
        && (replay.failedAt.Some? <==> exists i | 0 <= i < |report.phases| :: report.phases[i].status.Failed?)
        && (replay.failedAt.Some? ==>
              var key := PhaseKey(replay.failedAt.value);
              key in replay.phaseStatuses && replay.phaseStatuses[key].Failed?)
        && replay.hypotheses == report.hypotheses && |replay.hypotheses| == 1
  {
    hide Reports, Sealed, VerifyReport, KeyedPhaseMap, DigestReport, PhaseKey;
    FailedPhaseIsKeyed(run, report);
    VerificationIsExact(report, digest);
    SchemaIsCurrent(run, report);
  }

  lemma FailedPhaseIsKeyed(run: Run, report: Report)
    requires Reports(run, report)
    ensures var statuses := KeyedPhaseMap(report.phases);
      && |statuses| == |report.phases|
      && (forall i | 0 <= i < |report.phases| ::
            var key := PhaseKey(report.phases[i].name);
            key in statuses && statuses[key] == report.phases[i].status)
      && (report.failedAt.Some? <==> exists i | 0 <= i < |report.phases| :: report.phases[i].status.Failed?)
      && (report.failedAt.Some? ==>
            var key := PhaseKey(report.failedAt.value);
            key in statuses && statuses[key].Failed?)
      && |report.hypotheses| == 1
  {
    hide Reports, KeyedPhaseMap, PhaseKey, PassedBefore;
    ReportsAreGrounded(run, report);
    KeyedMapHoldsEveryPhase(report.phases);
    if report.failedAt.Some? {
      RanksAreDistinct();
      assert report.phases[PhaseRank(report.failedAt.value)].name == report.failedAt.value;
    }
  }

  lemma SchemaIsCurrent(run: Run, report: Report)
    requires Reports(run, report)
    ensures report.schemaVersion == "hopwhy.report.v1"
  {
    ReportShows(run, report);
  }

  lemma {:induction false} KeyedMapHoldsEveryPhase(phases: seq<Phase>)
    requires forall i | 0 <= i < |phases| :: PhaseRank(phases[i].name) == i
    ensures |KeyedPhaseMap(phases)| == |phases|
    ensures forall i | 0 <= i < |phases| ::
      var key := PhaseKey(phases[i].name);
      key in KeyedPhaseMap(phases) && KeyedPhaseMap(phases)[key] == phases[i].status
  {
    if phases != [] {
      var n := |phases| - 1;
      var front := phases[..n];
      KeyedMapHoldsEveryPhase(front);
      PhaseMapHoldsEveryPhase(front);
      KeyedMapIsPhaseMap(front, phases[n].name);
      assert forall i | 0 <= i < n :: front[i] == phases[i];
      hide PhaseKey, PhaseMap;
    }
  }

  // ----- Comparison -----

  datatype PhaseDifference = PhaseDifference(phase: PhaseName, left: Option<PhaseStatus>, right: Option<PhaseStatus>)

  datatype SummaryLine =
    | DifferentTargets
    | DifferentFailedPhase
    | PhaseDifferencesObserved(count: nat)
    | DifferentHttpStatuses
    | NoModeledDifference

  datatype CompareResult = CompareResult(
    leftSha256: string,
    rightSha256: string,
    sameIntendedTarget: bool,
    sameFailedPhase: bool,
    phaseDifferences: seq<PhaseDifference>,
    leftHttpStatuses: seq<nat>,
    rightHttpStatuses: seq<nat>,
    summary: seq<SummaryLine>)

  const IN_RANK_ORDER: seq<PhaseName> := [Input, Proxy, Dns, Tcp, Tls, Http, Redirects, Assertions]

  function Get(statuses: map<PhaseName, PhaseStatus>, name: PhaseName): Option<PhaseStatus> {
    if name in statuses then Some(statuses[name]) else None
  }

  function Swapped(difference: PhaseDifference): PhaseDifference {
    PhaseDifference(difference.phase, difference.right, difference.left)
  }

  /** The differences over these names, which a sorted set of names yields in rank order. */
  function DifferencesAmong(names: seq<PhaseName>, left: map<PhaseName, PhaseStatus>,
                            right: map<PhaseName, PhaseStatus>)
    : (differences: seq<PhaseDifference>)
  {
    if names == [] then []
    else
      var rest := DifferencesAmong(names[1..], left, right);
      var l, r := Get(left, names[0]), Get(right, names[0]);
      if l != r then [PhaseDifference(names[0], l, r)] + rest else rest
  }

  /** A sorted set of names: those that either map holds, in rank order. */
  function SortedNames(names: seq<PhaseName>, left: map<PhaseName, PhaseStatus>, right: map<PhaseName, PhaseStatus>)
    : (sorted: seq<PhaseName>)
    ensures forall name :: name in sorted <==> name in names && (name in left || name in right)
  {
    if names == [] then []
    else
      assert forall name :: name in names <==> name == names[0] || name in names[1..];
      (if names[0] in left || names[0] in right then [names[0]] else []) + SortedNames(names[1..], left, right)
  }

  function Differences(left: map<PhaseName, PhaseStatus>, right: map<PhaseName, PhaseStatus>): seq<PhaseDifference> {
    DifferencesAmong(SortedNames(IN_RANK_ORDER, left, right), left, right)
  }

  /** Two reports that `compare` finds nothing to say about. */
  predicate Agree(left: Report, right: Report) {
    && left.target.intended == right.target.intended && left.failedAt == right.failedAt
    && PhaseMap(left.phases) == PhaseMap(right.phases) && Statuses(left.http) == Statuses(right.http)
  }

  function SummaryFor(sameIntendedTarget: bool, sameFailedPhase: bool, differences: nat, sameHttpStatuses: bool)
    : (summary: seq<SummaryLine>)
  {
    if sameIntendedTarget && sameFailedPhase && differences == 0 && sameHttpStatuses then [NoModeledDifference]
    else
      (if sameIntendedTarget then [] else [DifferentTargets])
      + (if sameFailedPhase then [] else [DifferentFailedPhase])
      + (if differences > 0 then [PhaseDifferencesObserved(differences)] else [])
      + (if sameHttpStatuses then [] else [DifferentHttpStatuses])
  }

  /** What comparing two verified reports yields. */
  function Comparison(left: Report, right: Report): CompareResult
    requires left.reportSha256.Some? && right.reportSha256.Some?
  {
    var differences := Differences(PhaseMap(left.phases), PhaseMap(right.phases));
    var sameIntendedTarget, sameFailedPhase :=
      left.target.intended == right.target.intended, left.failedAt == right.failedAt;
    var leftStatuses, rightStatuses := Statuses(left.http), Statuses(right.http);
    CompareResult(left.reportSha256.value, right.reportSha256.value, sameIntendedTarget, sameFailedPhase, differences,
                  leftStatuses, rightStatuses,
                  SummaryFor(sameIntendedTarget, sameFailedPhase, |differences|, leftStatuses == rightStatuses))
  }

  /** The summary has one line for everything that differs, or one line that says nothing does. */
  lemma SummaryTells(sameIntendedTarget: bool, sameFailedPhase: bool, differences: nat, sameHttpStatuses: bool)
    ensures var summary := SummaryFor(sameIntendedTarget, sameFailedPhase, differences, sameHttpStatuses);
      && (summary == [NoModeledDifference]
          <==> sameIntendedTarget && sameFailedPhase && differences == 0 && sameHttpStatuses)
      && (DifferentTargets in summary <==> !sameIntendedTarget)
      && (DifferentFailedPhase in summary <==> !sameFailedPhase)
      && (forall n :: PhaseDifferencesObserved(n) in summary <==> n == differences > 0)
      && (DifferentHttpStatuses in summary <==> !sameHttpStatuses)
      && (NoModeledDifference in summary <==> summary == [NoModeledDifference])
  {
    var summary := SummaryFor(sameIntendedTarget, sameFailedPhase, differences, sameHttpStatuses);
    assert summary != [] && (summary[0] == NoModeledDifference ==> summary == [NoModeledDifference]);
  }

  method Summarize(sameIntendedTarget: bool, sameFailedPhase: bool, differences: nat, sameHttpStatuses: bool)
    returns (summary: seq<SummaryLine>)
    ensures summary == SummaryFor(sameIntendedTarget, sameFailedPhase, differences, sameHttpStatuses)
  {
    summary := [];
    if !sameIntendedTarget {
      summary := summary + [DifferentTargets];
    }
    if !sameFailedPhase {
      summary := summary + [DifferentFailedPhase];
    }
    if differences > 0 {
      summary := summary + [PhaseDifferencesObserved(differences)];
    }
    if !sameHttpStatuses {
      summary := summary + [DifferentHttpStatuses];
    }
    if summary == [] {
      summary := summary + [NoModeledDifference];
    }
  }

  method Compare(left: Report, right: Report, digest: Report -> Option<string>) returns (r: Result<CompareResult>)
    ensures r.Err? <==> VerifyReport(left, digest).Err? || VerifyReport(right, digest).Err?
    ensures VerifyReport(left, digest).Err? ==> r == Err(VerifyReport(left, digest).error)
    ensures VerifyReport(left, digest).Ok? && VerifyReport(right, digest).Err? ==>
      r == Err(VerifyReport(right, digest).error)
    ensures r.Ok? ==>
      && r.value.sameIntendedTarget == (left.target.intended == right.target.intended)
      && r.value.sameFailedPhase == (left.failedAt == right.failedAt)
      && r.value.phaseDifferences == Differences(PhaseMap(left.phases), PhaseMap(right.phases))
      && r.value.leftHttpStatuses == Statuses(left.http) && r.value.rightHttpStatuses == Statuses(right.http)
      && Some(r.value.leftSha256) == left.reportSha256 && Some(r.value.rightSha256) == right.reportSha256
    ensures r.Ok? ==> (r.value.summary == [NoModeledDifference] <==> Agree(left, right))
    ensures r.Ok? ==> left.reportSha256.Some? && right.reportSha256.Some? && r.value == Comparison(left, right)
    ensures r.Ok? ==>
      && (DifferentTargets in r.value.summary <==> !r.value.sameIntendedTarget)
      && (DifferentFailedPhase in r.value.summary <==> !r.value.sameFailedPhase)
      && (DifferentHttpStatuses in r.value.summary <==> r.value.leftHttpStatuses != r.value.rightHttpStatuses)
      && (forall n :: PhaseDifferencesObserved(n) in r.value.summary <==> n == |r.value.phaseDifferences| > 0)
      && (NoModeledDifference in r.value.summary <==> r.value.summary == [NoModeledDifference])
  {
    VerifiedIsSealed(left, digest);
    VerifiedIsSealed(right, digest);
    hide VerifyReport, Differences, PhaseMap, Statuses, SummaryFor;
    var verified := VerifyReport(left, digest);
    if verified.Err? {
      return Err(verified.error);
    }
    verified := VerifyReport(right, digest);
    if verified.Err? {
      return Err(verified.error);
    }
    var phaseDifferences := Differences(PhaseMap(left.phases), PhaseMap(right.phases));
    var sameIntendedTarget := left.target.intended == right.target.intended;
    var sameFailedPhase := left.failedAt == right.failedAt;
    var leftHttpStatuses, rightHttpStatuses := Statuses(left.http), Statuses(right.http);
    var summary := Summarize(sameIntendedTarget, sameFailedPhase, |phaseDifferences|,
                             leftHttpStatuses == rightHttpStatuses);
    SummaryTells(sameIntendedTarget, sameFailedPhase, |phaseDifferences|, leftHttpStatuses == rightHttpStatuses);
    NoDifferenceMeansEqualMaps(PhaseMap(left.phases), PhaseMap(right.phases));
    r := Ok(CompareResult(left.reportSha256.value, right.reportSha256.value, sameIntendedTarget, sameFailedPhase,
                          phaseDifferences, leftHttpStatuses, rightHttpStatuses, summary));
  }

  // ----- What the differences mean -----

  predicate StrictlyByRank(differences: seq<PhaseDifference>) {
    forall i, j | 0 <= i < j < |differences| :: PhaseRank(differences[i].phase) < PhaseRank(differences[j].phase)
  }

  ghost predicate RanksAscend(names: seq<PhaseName>) {
    forall i, j | 0 <= i < j < |names| :: PhaseRank(names[i]) < PhaseRank(names[j])
  }

  lemma {:induction false} SortedNamesAscend(names: seq<PhaseName>, left: map<PhaseName, PhaseStatus>,
                                             right: map<PhaseName, PhaseStatus>)
    requires RanksAscend(names)
    ensures RanksAscend(SortedNames(names, left, right))
  {
    if names != [] {
      SortedNamesAscend(names[1..], left, right);
      var rest := SortedNames(names[1..], left, right);
      forall i | 0 <= i < |rest| ensures PhaseRank(names[0]) < PhaseRank(rest[i]) {
        assert rest[i] in names[1..];
      }
    }
  }

  lemma {:induction false} DifferencesAmongAre(names: seq<PhaseName>, left: map<PhaseName, PhaseStatus>,
                                               right: map<PhaseName, PhaseStatus>)
    requires RanksAscend(names)
    ensures var differences := DifferencesAmong(names, left, right);
      && StrictlyByRank(differences)
      && forall d :: d in differences <==>
           d.phase in names && d.left == Get(left, d.phase) && d.right == Get(right, d.phase) && d.left != d.right
  {
    if names != [] {
      DifferencesAmongAre(names[1..], left, right);
      var rest := DifferencesAmong(names[1..], left, right);
      assert forall name :: name in names <==> name == names[0] || name in names[1..];
      forall i | 0 <= i < |rest| ensures PhaseRank(names[0]) < PhaseRank(rest[i].phase) {
        assert rest[i] in rest;
      }
    }
  }

  /** The list holds exactly the phases whose statuses differ, each once, strictly by rank. */
  lemma DifferencesAreExact(left: map<PhaseName, PhaseStatus>, right: map<PhaseName, PhaseStatus>)
    ensures StrictlyByRank(Differences(left, right))
    ensures forall d :: d in Differences(left, right) <==>
      d.left == Get(left, d.phase) && d.right == Get(right, d.phase) && d.left != d.right
  {
    SortedNamesAscend(IN_RANK_ORDER, left, right);
    DifferencesAmongAre(SortedNames(IN_RANK_ORDER, left, right), left, right);
    EveryNameIsListed();
  }

  lemma EveryNameIsListed()
    ensures forall name: PhaseName :: name in IN_RANK_ORDER
  {
    forall name: PhaseName ensures name in IN_RANK_ORDER {
      assert IN_RANK_ORDER[PhaseRank(name)] == name;
    }
  }

  lemma NoDifferenceMeansEqualMaps(left: map<PhaseName, PhaseStatus>, right: map<PhaseName, PhaseStatus>)
    ensures Differences(left, right) == [] <==> left == right
  {
    DifferencesAreExact(left, right);
    if Differences(left, right) == [] {
      forall name ensures Get(left, name) == Get(right, name) {
        assert PhaseDifference(name, Get(left, name), Get(right, name)) !in Differences(left, right);
      }
      assert forall name :: name in left <==> Get(left, name).Some?;
      assert forall name :: name in right <==> Get(right, name).Some?;
      assert forall name | name in left :: left[name] == Get(left, name).value;
    } else {
      assert Differences(left, right)[0] in Differences(left, right);
    }
  }

  /** Swapping the reports swaps the sides of every difference and nothing else. */
  lemma {:induction false} SwappingMirrors(names: seq<PhaseName>, left: map<PhaseName, PhaseStatus>,
                                           right: map<PhaseName, PhaseStatus>)
    ensures var forth, back := DifferencesAmong(names, left, right), DifferencesAmong(names, right, left);
      |forth| == |back| && forall i | 0 <= i < |forth| :: back[i] == Swapped(forth[i])
  {
    if names != [] {
      SwappingMirrors(names[1..], left, right);
    }
  }

  lemma {:induction false} SortedNamesCommute(names: seq<PhaseName>, left: map<PhaseName, PhaseStatus>,
                                              right: map<PhaseName, PhaseStatus>)
    ensures SortedNames(names, left, right) == SortedNames(names, right, left)
  {
    if names != [] {
      SortedNamesCommute(names[1..], left, right);
    }
  }

  lemma DifferencesMirror(left: map<PhaseName, PhaseStatus>, right: map<PhaseName, PhaseStatus>)
    ensures var forth, back := Differences(left, right), Differences(right, left);
      |forth| == |back| && forall i | 0 <= i < |forth| :: back[i] == Swapped(forth[i])
  {
    SortedNamesCommute(IN_RANK_ORDER, left, right);
    SwappingMirrors(SortedNames(IN_RANK_ORDER, left, right), left, right);
  }

  /** The second result tells of the first with the sides exchanged, and says the same. */
  predicate Mirrors(forth: CompareResult, back: CompareResult) {
    && back.leftSha256 == forth.rightSha256 && back.rightSha256 == forth.leftSha256
    && back.sameIntendedTarget == forth.sameIntendedTarget && back.sameFailedPhase == forth.sameFailedPhase
    && |back.phaseDifferences| == |forth.phaseDifferences|
    && (forall i | 0 <= i < |forth.phaseDifferences| :: back.phaseDifferences[i] == Swapped(forth.phaseDifferences[i]))
    && back.leftHttpStatuses == forth.rightHttpStatuses && back.rightHttpStatuses == forth.leftHttpStatuses
    && back.summary == forth.summary
  }

  lemma CompareMirrors(left: Report, right: Report)
    requires left.reportSha256.Some? && right.reportSha256.Some?
    ensures Mirrors(Comparison(left, right), Comparison(right, left))
  {
    DifferencesMirror(PhaseMap(left.phases), PhaseMap(right.phases));
    hide Differences, PhaseMap, Statuses, SummaryFor;
  }

  /** Reports agree in their differences exactly when their replays show the same statuses. */
  lemma CompareAgreesWithReplay(left: Report, right: Report, digest: Report -> Option<string>)
    requires VerifyReport(left, digest).Ok? && VerifyReport(right, digest).Ok?
    ensures Differences(PhaseMap(left.phases), PhaseMap(right.phases)) == []
      <==> Replay(left, digest).value.phaseStatuses == Replay(right, digest).value.phaseStatuses
  {
    NoDifferenceMeansEqualMaps(PhaseMap(left.phases), PhaseMap(right.phases));
    KeyedMapsAgree(left.phases, right.phases);
  }

  /** On reports of the engine, comparison and replay see every phase, and a phase is missing only behind a failure. */
  lemma EngineReportsLoseNoPhase(run: Run, report: Report)
    requires Reports(run, report)
    ensures |PhaseMap(report.phases)| == |report.phases|
    ensures forall i | 0 <= i < |report.phases| ::
      Get(PhaseMap(report.phases), report.phases[i].name) == Some(report.phases[i].status)
    ensures forall name | name !in PhaseMap(report.phases) ::
      report.failedAt.Some? && PhaseRank(report.failedAt.value) < PhaseRank(name)
  {
    ReportsAreGrounded(run, report);
    hide Reports;
    PhaseMapHoldsEveryPhase(report.phases);
  }

  /** Reports that differ in clock readings and seal only have nothing to tell apart. */
  lemma ClockMakesNoDifference(a: Report, b: Report)
    requires WithoutClock(a) == WithoutClock(b)
    ensures Agree(a, b)
  {
    var x, y := WithoutClock(a), WithoutClock(b);
    assert x.target == a.target && y.target == b.target && x.failedAt == a.failedAt && y.failedAt == b.failedAt;
    assert x.http == a.http && y.http == b.http;
    assert TimelessPhases(a.phases) == TimelessPhases(b.phases);
    PhaseMapIgnoresClock(a.phases);
    PhaseMapIgnoresClock(b.phases);
  }

  lemma {:induction false} PhaseMapIgnoresClock(phases: seq<Phase>)
    ensures PhaseMap(TimelessPhases(phases)) == PhaseMap(phases)
  {
    if phases != [] {
      var n := |phases| - 1;
      PhaseMapIgnoresClock(phases[..n]);
      assert TimelessPhases(phases)[..n] == TimelessPhases(phases[..n]);
    }
  }
}
