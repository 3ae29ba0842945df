/** The two jittered exponential delays: retryDelay of scheduler.go and
    backoffDelay of transport.go.  Durations are nanoseconds; the float64 products
    of the source are real numbers here, truncated as a time.Duration is. */
module Retry {
  import opened Numbers

  function Pow2(n: nat): (p: nat)
    ensures p >= 1
  {
    if n == 0 then 1 else 2 * Pow2(n - 1)
  }

  /** min(max, start * 2^n), what the doubling loops are for. */
  function Base(start: nat, max: nat, n: nat): nat { Min(max, start * Pow2(n)) }

  lemma Doubling(start: nat, n: nat)
    ensures start * Pow2(n + 1) == 2 * (start * Pow2(n))
  {}

  lemma {:induction false} BaseAtCap(start: nat, max: nat, i: nat, n: nat)
    requires i <= n && start * Pow2(i) >= max
    ensures Base(start, max, n) == max
    decreases n - i
  {
    if i < n {
      Doubling(start, i);
      BaseAtCap(start, max, i + 1, n);
    }
  }

  lemma BaseNext(start: nat, max: nat, i: nat)
    requires start * Pow2(i) < max
    ensures Base(start, max, i + 1) == Min(max, 2 * Base(start, max, i))
  {
    Doubling(start, i);
  }

  /** The doubling loop both delays share, with its early exit at the cap. */
  method Doubled(start: nat, max: nat, n: nat) returns (d: nat)
    requires start <= max
    ensures d == Base(start, max, n)
  {
    d := start;
    var i := 0;
    while i < n
      invariant 0 <= i <= n && d == Base(start, max, i)
    {
      if d >= max { BaseAtCap(start, max, i, n); break; }
      BaseNext(start, max, i);
      d := d * 2;
      if d > max { d := max; }
      i := i + 1;
    }
  }

  /** A duration scaled by a factor and truncated to whole nanoseconds. */
  function Scale(d: nat, factor: real): int { (d as real * factor).Floor }

  lemma ScaleMonotone(d: nat, lo: real, hi: real)
    requires lo <= hi
    ensures Scale(d, lo) <= Scale(d, hi)
  {
    assert d as real * lo <= d as real * hi;
  }

  /** retryDelay.  A draw lies in [0, 1), as rand.Float64 promises. */
  method RetryDelay(min: int, max: int, retries: nat, draw: real) returns (out: nat)
    requires 0.0 <= draw < 1.0
    ensures var lo := if min <= 0 then 1_000_000 else min;
            var hi := if max < lo then lo else max;
            out == Jittered(Base(lo, hi, retries), hi, draw)
    ensures var lo := if min <= 0 then 1_000_000 else min;
            var hi := if max < lo then lo else max;
            && (draw == 0.0 ==> out == Scale(Min(hi, lo * Pow2(retries)), 0.8))
            && (draw == 0.5 ==> out == Min(hi, lo * Pow2(retries)))
            && (draw == 0.75 ==> out == Min(hi, Scale(Min(hi, lo * Pow2(retries)), 1.1)))
            && Scale(Min(hi, lo * Pow2(retries)), 0.8) <= out <= hi
            && (retries == 0 && draw == 0.5 ==> out == lo)
  {
    var lo := if min <= 0 then 1_000_000 else min;
    var hi := if max < lo then lo else max;
    var d := Doubled(lo, hi, retries);
    var factor := 1.0 + (draw * 2.0 - 1.0) * 0.2;
    var scaled := Scale(d, factor);
    if scaled > hi { scaled := hi; }
    if scaled < 0 { scaled := 0; }
    out := scaled;
    JitterBounds(d, hi, draw);
  }

  function Jittered(base: nat, max: nat, draw: real): int {
    Min(max, Scale(base, 1.0 + (draw * 2.0 - 1.0) * 0.2))
  }

  /** The jittered delay stays between 0.8 of the base, truncated, and the cap. */
  lemma JitterBounds(base: nat, max: nat, draw: real)
    requires base <= max && 0.0 <= draw < 1.0
    ensures 0 <= Scale(base, 0.8) <= Jittered(base, max, draw) <= max
  {
    ScaleMonotone(base, 0.8, 1.0 + (draw * 2.0 - 1.0) * 0.2);
    ScaleMonotone(base, 0.0, 0.8);
    ScaleMonotone(base, 0.8, 1.0);
    assert Scale(base, 1.0) == base;
  }

  /** A retry is strictly in the future whatever the draw exactly when its base is at
      least two nanoseconds: a base of one can be truncated to no delay at all. */
  lemma DelayPositive(base: nat, max: nat)
    requires base <= max
    ensures (forall draw: real {:trigger Jittered(base, max, draw)} :: 0.0 <= draw < 1.0 ==> Jittered(base, max, draw) > 0) <==> base >= 2
  {
    if base >= 2 {
      forall draw: real | 0.0 <= draw < 1.0 ensures Jittered(base, max, draw) > 0 {
        JitterBounds(base, max, draw);
        assert base as real * 0.8 >= 1.0;
      }
    } else {
      assert base as real * 0.8 < 1.0;
      assert Jittered(base, max, 0.0) <= 0;
    }
  }

  /** backoffDelay of the transport supervisor: equal jitter below the base. */
  method BackoffDelay(base: nat, max: nat, attempt: nat, draw: real) returns (out: int)
    requires 0.0 <= draw < 1.0
    ensures var b := Base(Min(base, max), max, attempt);
            Scale(b, 0.5) <= out <= b
    ensures attempt == 0 ==> Scale(Min(base, max), 0.5) <= out <= Min(base, max)
    ensures attempt == 0 && draw == 0.0 ==> out == Scale(Min(base, max), 0.5)
    ensures attempt == 0 && draw == 0.5 ==> out == Scale(Min(base, max), 0.75)
  {
    BaseStarts(Min(base, max), max);
    var start := if base > max then max else base;
    var d := Doubled(start, max, attempt);
    out := Scale(d, 0.5 + 0.5 * draw);
    ScaleMonotone(d, 0.5, 0.5 + 0.5 * draw);
    ScaleMonotone(d, 0.5 + 0.5 * draw, 1.0);
  }

  /** Backing off further never shortens the base, and the cap is always respected. */
  lemma {:induction false} BaseGrows(start: nat, max: nat, m: nat, n: nat)
    requires m <= n
    ensures Base(start, max, m) <= Base(start, max, n) <= max
    decreases n
  {
    if m < n {
      BaseGrows(start, max, m, n - 1);
      Doubling(start, n - 1);
    }
  }

  /** The first base is the start, capped; each further one is twice the last, capped. */
  lemma BaseStarts(start: nat, max: nat)
    ensures Base(start, max, 0) == Min(max, start) && Pow2(0) == 1
    ensures forall n: nat :: Base(start, max, n + 1) == Min(max, 2 * Base(start, max, n))
  {
    forall n: nat ensures Base(start, max, n + 1) == Min(max, 2 * Base(start, max, n)) { Doubling(start, n); }
  }

  /** Each power of two doubles the last. */
  lemma Pow2Is(n: nat)
    ensures Pow2(0) == 1 && Pow2(n + 1) == Pow2(n) + Pow2(n)
  {}

  /** A scaled duration is the whole part of the product, and scaling by one is nothing. */
  lemma ScaleIs(d: nat, factor: real)
    ensures Scale(d, factor) as real <= d as real * factor < Scale(d, factor) as real + 1.0
    ensures Scale(d, 1.0) == d
  {}
}
