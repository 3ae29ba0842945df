/** Sample profile and batch windows of batch.go and of Scheduler.generate.
    Instants are nanoseconds since the zero time. */
module Batch {
  import opened Wrappers

  const MICRO: int := 1000

  /** Time.Truncate(time.Microsecond): down to a whole microsecond. */
  function Truncate(t: int): int { t - t % MICRO }

  lemma TruncateShift(t: int, us: int)
    ensures Truncate(t + us * MICRO) == Truncate(t) + us * MICRO
  {
    assert (t + us * MICRO) % MICRO == t % MICRO;
  }

  lemma TruncateMonotone(s: int, t: int)
    requires s <= t
    ensures Truncate(s) <= Truncate(t)
  {
    assert Truncate(s) == MICRO * (s / MICRO) && Truncate(t) == MICRO * (t / MICRO);
  }

  datatype Profile = Profile(intervalUs: int, samples: int) {
    predicate Valid() { intervalUs > 0 && samples >= 1 }
    /** From the first sample of a batch to its last. */
    function Span(): int { (samples - 1) * intervalUs * MICRO }
    /** The generation cadence: one interval per sample. */
    function Cadence(): int { samples * intervalUs * MICRO }
    /** measured_at of a batch generated at `now`, and the instant of its i-th sample. */
    function MeasuredAt(now: int): int { Truncate(now - Span()) }
    function SampleAt(now: int, i: int): int { MeasuredAt(now) + i * intervalUs * MICRO }
  }

  /** validateSampleProfile; `accepted` is the answer of the telemetry validator to
      the probe batch, which is only built for a positive sample count. */
  method ValidateSampleProfile(rateHz: int, samples: int, accepted: bool) returns (r: Option<(Profile, int)>)
    ensures r.Some? <==> rateHz > 0 && 1_000_000 % rateHz == 0 && samples > 0 && accepted
    ensures r.Some? ==> var (p, span) := r.value;
      p.Valid() && p.samples == samples && span == p.Span() && p.intervalUs * rateHz == 1_000_000
  {
    if rateHz <= 0 || 1_000_000 % rateHz != 0 { return None; }
    if samples <= 0 || !accepted { return None; }
    var interval := 1_000_000 / rateHz;
    assert interval * rateHz == 1_000_000;
    assert interval > 0;
    r := Some((Profile(interval, samples), (samples - 1) * interval * MICRO));
  }

  /** The instants at which a run generates, given the clock reading of each loop
      pass that may generate: a pass generates once its reading reaches nextGenAt,
      and nextGenAt then moves one cadence past that reading. */
  function Generations(cadence: int, nextGenAt: int, readings: seq<int>): seq<int>
    decreases |readings|
  {
    if readings == [] then []
    else if readings[0] >= nextGenAt
    then [readings[0]] + Generations(cadence, readings[0] + cadence, readings[1..])
    else Generations(cadence, nextGenAt, readings[1..])
  }

  /** No sample of a batch lies after the instant that generated the batch. */
  lemma SamplesInPast(p: Profile, now: int, i: int)
    requires p.Valid() && 0 <= i < p.samples
    ensures p.SampleAt(now, i) <= now
    ensures p.SampleAt(now, 0) <= p.SampleAt(now, i) <= p.SampleAt(now, p.samples - 1)
  {
    assert i * p.intervalUs <= (p.samples - 1) * p.intervalUs;
    assert 0 <= i * p.intervalUs;
  }

  /** One cadence later the new window opens a full interval after the old one ends. */
  lemma NextWindow(p: Profile, now: int, later: int)
    requires p.Valid() && later >= now + p.Cadence()
    ensures p.SampleAt(later, 0) >= p.SampleAt(now, p.samples - 1) + p.intervalUs * MICRO
  {
    var us := p.samples * p.intervalUs;
    TruncateShift(now - p.Span(), us);
    TruncateMonotone(now - p.Span() + us * MICRO, later - p.Span());
    assert us == (p.samples - 1) * p.intervalUs + p.intervalUs;
  }

  ghost predicate Spaced(g: seq<int>, from: int, cadence: int) {
    && (forall j :: 0 <= j < |g| ==> g[j] >= from)
    && (forall i, j :: 0 <= i < j < |g| ==> g[j] >= g[i] + cadence)
  }

  lemma {:induction false} GenerationsSpaced(cadence: int, nextGenAt: int, readings: seq<int>)
    requires cadence > 0
    ensures Spaced(Generations(cadence, nextGenAt, readings), nextGenAt, cadence)
    decreases |readings|
  {
    if readings != [] {
      var now, rest := readings[0], readings[1..];
      if now >= nextGenAt {
        GenerationsSpaced(cadence, now + cadence, rest);
      } else {
        GenerationsSpaced(cadence, nextGenAt, rest);
      }
    }
  }

  /** Windows of a run never touch, for any clock readings, even decreasing ones: the
      first sample of a later batch is at least one interval after the last sample of
      every earlier batch, despite the truncation. */
  lemma WindowsDisjoint(p: Profile, nextGenAt: int, readings: seq<int>, i: nat, j: nat)
    requires p.Valid() && i < j < |Generations(p.Cadence(), nextGenAt, readings)|
    ensures var g := Generations(p.Cadence(), nextGenAt, readings);
      p.SampleAt(g[j], 0) >= p.SampleAt(g[i], p.samples - 1) + p.intervalUs * MICRO
  {
    assert p.samples * p.intervalUs > 0;
    GenerationsSpaced(p.Cadence(), nextGenAt, readings);
    var g := Generations(p.Cadence(), nextGenAt, readings);
    NextWindow(p, g[i], g[j]);
  }

  // ----- the window read off the clock -----

  /** Truncation reaches down to the last whole microsecond. */
  lemma TruncateIs(t: int)
    ensures Truncate(t) % 1000 == 0 && Truncate(t) <= t < Truncate(t) + 1000
  {}

  /** The last sample lies at the generating instant, truncated; the samples are one interval
      of whole microseconds apart. */
  lemma WindowIs(p: Profile, now: int, i: int)
    requires p.Valid()
    ensures p.SampleAt(now, p.samples - 1) == Truncate(now)
    ensures p.SampleAt(now, i + 1) - p.SampleAt(now, i) == p.intervalUs * 1000
    ensures p.SampleAt(now, 0) % 1000 == 0
  {
    TruncateShift(now - p.Span(), (p.samples - 1) * p.intervalUs);
    TruncateIs(now - p.Span());
    assert (i + 1) * p.intervalUs == i * p.intervalUs + p.intervalUs;
  }

  /** A batch exactly one cadence later continues the series without a gap. */
  lemma CadenceContinues(p: Profile, now: int)
    requires p.Valid()
    ensures p.SampleAt(now + p.Cadence(), 0) == p.SampleAt(now, p.samples - 1) + p.intervalUs * 1000
  {
    WindowIs(p, now, 0);
    TruncateShift(now - p.Span(), p.samples * p.intervalUs);
    assert p.samples * p.intervalUs == (p.samples - 1) * p.intervalUs + p.intervalUs;
  }

  /** The batches are generated at readings, in their order, and a reading that is passed
      over came before the next batch was due. */
  lemma {:induction false} GenerationsPrompt(cadence: int, nextGenAt: int, readings: seq<int>)
    ensures var g := Generations(cadence, nextGenAt, readings);
      && (forall x :: x in g ==> x in readings)
      && (g == [] ==> forall x :: x in readings ==> x < nextGenAt)
      && (readings != [] && readings[0] >= nextGenAt ==> g != [] && g[0] == readings[0] && g[1..] == Generations(cadence, readings[0] + cadence, readings[1..]))
    decreases |readings|
  {
    if readings != [] {
      assert readings == [readings[0]] + readings[1..];
      GenerationsPrompt(cadence, nextGenAt, readings[1..]);
      GenerationsPrompt(cadence, readings[0] + cadence, readings[1..]);
    }
  }
}
