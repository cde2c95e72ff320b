/** The shared budget of one inspection: deadline, probe slots, records and the byte counter (src/engine.rs). */
module Tracking {
  import opened Model
  import opened Host

  /** On a 64-bit host. */
  const USIZE_MAX: nat := 0xffff_ffff_ffff_ffff

  function SaturatingAdd(a: nat, b: nat): nat {
    Min(a + b, USIZE_MAX)
  }

  datatype ActiveProbe = ActiveProbe(sequence: nat, kind: ProbeKind, destination: Destination, startedMs: nat)

  /** The true instants behind a record: slot granted, timing begun, record written. */
  datatype Span = Span(slot: nat, timed: nat, until: nat) {
    predicate Within(earliest: nat, latest: nat) {
      earliest <= slot <= until <= latest && earliest <= timed <= until
    }
  }

  predicate RecordsSpan(record: ProbeRecord, span: Span, started: nat) {
    && started <= span.slot && span.timed <= span.until
    && record.startedMs == Millis(span.slot - started)
    && record.durationMs == Millis(span.until - span.timed)
  }

  /** Records are numbered from one and were written, in order, between `started` and `now`. */
  ghost predicate Chronicle(probes: seq<ProbeRecord>, spans: seq<Span>, started: nat, now: nat) {
    && |spans| == |probes|
    && (forall i | 0 <= i < |probes| :: probes[i].sequence == i + 1)
    && (forall i | 0 <= i < |probes| :: spans[i].Within(started, now) && RecordsSpan(probes[i], spans[i], started))
    && (forall i, j | 0 <= i < j < |probes| :: spans[i].until <= spans[j].slot && spans[i].until <= spans[j].timed)
  }

  lemma ChronicleStays(probes: seq<ProbeRecord>, spans: seq<Span>, started: nat, now: nat, later: nat)
    requires Chronicle(probes, spans, started, now) && now <= later
    ensures Chronicle(probes, spans, started, later)
  {
  }

  /** Every duration is timed from after its slot was granted, as the live probes do. */
  ghost predicate TimedInsideSlots(spans: seq<Span>) {
    forall i | 0 <= i < |spans| :: spans[i].slot <= spans[i].timed
  }

  /** Every duration is timed from before its slot was asked for, as the scripted probes do. */
  ghost predicate TimedBeforeSlots(spans: seq<Span>) {
    forall i | 0 <= i < |spans| :: spans[i].timed <= spans[i].slot
  }

  class Tracker {
    const host: Host
    const started: nat
    const deadline: nat
    const maxProbes: nat
    var probes: seq<ProbeRecord>
    var responseBytesRead: nat
    ghost var spans: seq<Span>

    ghost predicate Valid()
      reads this, host
    {
      && started <= host.clock
      && |probes| <= maxProbes
      && Chronicle(probes, spans, started, host.clock)
    }

    constructor (host: Host, options: InspectionOptions)
      modifies host`clock
      ensures Valid() && this.host == host && old(host.clock) <= started
      ensures deadline == started + options.budgetMs * NANOS_PER_MILLI && maxProbes == options.maxProbes
      ensures probes == [] && spans == [] && responseBytesRead == 0
    {
      var now := host.Now();
      this.host := host;
      started := now;
      deadline := now + options.budgetMs * NANOS_PER_MILLI;
      maxProbes := options.maxProbes;
      probes := [];
      spans := [];
      responseBytesRead := 0;
    }

    /** The time left, never zero; an error once the deadline is reached. */
    method Remaining() returns (left: Result<nat>)
      modifies host`clock
      ensures old(host.clock) <= host.clock
      ensures left.Ok? <==> host.clock < deadline
      ensures left.Ok? ==> left.value == deadline - host.clock
      ensures left.Err? ==> left.error == AppError(BudgetExhausted, true)
      ensures old(Valid()) ==> Valid()
    {
      var now := host.Now();
      if now < deadline {
        left := Ok(deadline - now);
      } else {
        left := Err(AppError(BudgetExhausted, true));
      }
    }

    /** `slot` is the instant of the grant. */
    method StartProbe(kind: ProbeKind, destination: Destination) returns (probe: Result<ActiveProbe>, ghost slot: nat)
      requires started <= host.clock
      modifies host`clock
      ensures old(host.clock) <= slot == host.clock
      ensures probe.Ok? ==> |probes| < maxProbes
      ensures probe.Ok? ==> probe.value == ActiveProbe(|probes| + 1, kind, destination, Millis(slot - started))
      ensures probe.Err? ==> probe.error == AppError(BudgetExhausted, true)
      ensures probe.Err? ==> |probes| >= maxProbes || deadline <= host.clock
      ensures old(Valid()) ==> Valid()
    {
      var left := Remaining();
      slot := host.clock;
      if left.Err? {
        return Err(left.error), slot;
      }
      if |probes| >= maxProbes {
        return Err(AppError(BudgetExhausted, true)), slot;
      }
      var now := host.Now();
      slot := now;
      probe := Ok(ActiveProbe(|probes| + 1, kind, destination, Millis(now - started)));
    }

    /** Writes the record. The caller must finish what it started, in order, for the chronicle to survive. */
    method FinishProbe(probe: ActiveProbe, timedFrom: nat, outcome: Outcome, ghost slot: nat)
      modifies this`probes, this`spans, host`clock
      ensures old(host.clock) <= host.clock
      ensures probes == old(probes) + [ProbeRecord(probe.sequence, probe.kind, probe.destination, probe.startedMs,
                                                   Millis(if timedFrom <= host.clock then host.clock - timedFrom
                                                          else 0),
                                                   outcome)]
      ensures spans == old(spans) + [Span(slot, timedFrom, host.clock)]
      ensures old(Valid()) && Continues(old(spans), old(host.clock), probe, timedFrom, slot, |old(probes)|) ==> Valid()
    {
      var now := host.Now();
      var duration := Millis(if timedFrom <= now then now - timedFrom else 0);
      probes := probes + [ProbeRecord(probe.sequence, probe.kind, probe.destination, probe.startedMs,
                                      duration, outcome)];
      spans := spans + [Span(slot, timedFrom, now)];
    }

    /** The probe holds the next slot, granted and timed after the last record was written. */
    ghost predicate Continues(before: seq<Span>, now: nat, probe: ActiveProbe, timedFrom: nat, slot: nat,
                              recorded: nat) {
      && recorded < maxProbes && probe.sequence == recorded + 1
      && started <= slot <= now && started <= timedFrom <= now
      && probe.startedMs == Millis(slot - started)
      && (forall i | 0 <= i < |before| :: before[i].until <= slot && before[i].until <= timedFrom)
    }
  }

  function SumOfDurations(probes: seq<ProbeRecord>): nat {
    if probes == [] then 0
    else SumOfDurations(probes[..|probes| - 1]) + probes[|probes| - 1].durationMs
  }

  lemma TruncationIsSuperadditive(a: nat, b: nat)
    ensures Clamp(Millis(a) + Millis(b)) <= Millis(a + b)
  {
  }

  /**
   * Records timed inside their slots never overlap in milliseconds, although start and duration are
   * truncated independently.
   */
  lemma RecordsDoNotOverlap(probes: seq<ProbeRecord>, spans: seq<Span>, started: nat, now: nat)
    requires Chronicle(probes, spans, started, now) && TimedInsideSlots(spans)
    ensures forall i, j | 0 <= i < j < |probes| ::
      Clamp(probes[i].startedMs + probes[i].durationMs) <= probes[j].startedMs
  {
    forall i, j | 0 <= i < j < |probes|
      ensures Clamp(probes[i].startedMs + probes[i].durationMs) <= probes[j].startedMs
    {
      var s, t := spans[i], spans[j];
      TruncationIsSuperadditive(s.slot - started, s.until - s.timed);
      MillisMonotone(s.slot - started + (s.until - s.timed), t.slot - started);
    }
  }

  lemma MillisMonotone(a: nat, b: nat)
    requires a <= b
    ensures Millis(a) <= Millis(b)
  {
  }

  lemma EarlierChronicle(probes: seq<ProbeRecord>, spans: seq<Span>, started: nat, now: nat, cut: nat)
    requires Chronicle(probes, spans, started, now) && probes != []
    requires var last := spans[|probes| - 1]; cut == Min(last.slot, last.timed)
    ensures Chronicle(probes[..|probes| - 1], spans[..|probes| - 1], started, cut)
  {
  }

  /** The durations of any chronicle add up to no more than the elapsed time. */
  lemma {:induction false} DurationsFitElapsed(probes: seq<ProbeRecord>, spans: seq<Span>, started: nat, now: nat)
    requires Chronicle(probes, spans, started, now) && started <= now
    ensures Clamp(SumOfDurations(probes)) <= Millis(now - started)
  {
    if probes != [] {
      var n := |probes| - 1;
      var last := spans[n];
      var cut := Min(last.slot, last.timed);
      EarlierChronicle(probes, spans, started, now, cut);
      DurationsFitElapsed(probes[..n], spans[..n], started, cut);
      TruncationIsSuperadditive(cut - started, last.until - last.timed);
      MillisMonotone(cut - started + (last.until - last.timed), now - started);
    }
  }

  /** Every slot was granted before the deadline. */
  predicate GrantedBefore(spans: seq<Span>, deadline: nat) {
    forall i | 0 <= i < |spans| :: spans[i].slot < deadline
  }

  /**
   * Timing from before the slot, as the scripted probes do, breaks the first property by any whole number of
   * milliseconds that the budget leaves room for: two probes overlap by as much as the first was timed ahead of its
   * slot.
   */
  lemma TimingBeforeSlotMayOverlap(lead: nat, budgetMs: nat)
    requires 0 < lead && lead + 1 < budgetMs <= 120_000
    ensures exists probes: seq<ProbeRecord>, spans: seq<Span>, started: nat, now: nat ::
      && Chronicle(probes, spans, started, now) && TimedBeforeSlots(spans) && |probes| == 2
      && GrantedBefore(spans, started + budgetMs * NANOS_PER_MILLI)
      && probes[0].startedMs + probes[0].durationMs == probes[1].startedMs + lead
  {
    var slot := lead * NANOS_PER_MILLI;
    var until := (lead + 1) * NANOS_PER_MILLI;
    WholeMillis(lead);
    WholeMillis(lead + 1);
    var dns := ProbeRecord(1, DnsLookup, ScriptedObservation, lead, lead + 1, Resolved);
    var tcp := ProbeRecord(2, TcpConnect, ScriptedObservation, lead + 1, 0, Connected);
    var spans := [Span(slot, 0, until), Span(until, until, until)];
    assert Chronicle([dns, tcp], spans, 0, until);
    assert GrantedBefore(spans, 0 + budgetMs * NANOS_PER_MILLI);
  }

  /** A lead of less than a millisecond is enough for an overlap of one, by truncation alone, with the least budget. */
  lemma TruncationAloneMayOverlap()
    ensures exists probes: seq<ProbeRecord>, spans: seq<Span>, started: nat, now: nat ::
      && Chronicle(probes, spans, started, now) && TimedBeforeSlots(spans) && |probes| == 2
      && GrantedBefore(spans, started + 100 * NANOS_PER_MILLI)
      && spans[0].slot - spans[0].timed < NANOS_PER_MILLI
      && probes[0].startedMs + probes[0].durationMs == probes[1].startedMs + 1
  {
    var dns := ProbeRecord(1, DnsLookup, ScriptedObservation, 1, 1, Resolved);
    var tcp := ProbeRecord(2, TcpConnect, ScriptedObservation, 1, 0, Connected);
    var spans := [Span(1_500_000, 900_000, 1_900_000), Span(1_900_000, 1_900_000, 1_900_000)];
    assert Chronicle([dns, tcp], spans, 0, 1_900_000);
    assert GrantedBefore(spans, 0 + 100 * NANOS_PER_MILLI);
  }

  lemma WholeMillis(ms: nat)
    requires ms <= U64_MAX
    ensures Millis(ms * NANOS_PER_MILLI) == ms
  {
  }

  /**
   * The overlap is bounded by that lead: a probe reaches into a later one by no more than the milliseconds between
   * its timing and its slot, and one for truncation.
   */
  lemma OverlapIsBoundedByLead(probes: seq<ProbeRecord>, spans: seq<Span>, started: nat, now: nat, i: nat, j: nat)
    requires Chronicle(probes, spans, started, now) && TimedBeforeSlots(spans) && i < j < |probes|
    ensures var lead := Millis(spans[i].slot - spans[i].timed);
      && Clamp(probes[i].startedMs + probes[i].durationMs) <= probes[j].startedMs + lead + 1
      && (probes[j].startedMs < U64_MAX ==>
            probes[i].startedMs + probes[i].durationMs <= probes[j].startedMs + lead + 1)
  {
    var s, t := spans[i], spans[j];
    assert s.Within(started, now) && t.Within(started, now);
    assert RecordsSpan(probes[i], s, started) && RecordsSpan(probes[j], t, started);
    hide Chronicle, TimedBeforeSlots;
    LeadBound(s.slot - started, s.until - s.slot, s.slot - s.timed, t.slot - started);
  }

  lemma LeadBound(start: nat, rest: nat, lead: nat, next: nat)
    requires start + rest <= next && lead <= start
    ensures Clamp(Millis(start) + Millis(rest + lead)) <= Millis(next) + Millis(lead) + 1
    ensures Millis(next) < U64_MAX ==> Millis(start) + Millis(rest + lead) <= Millis(next) + Millis(lead) + 1
  {
  }
}
