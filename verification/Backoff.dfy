/**
 * The retry policies of middleware/retryack.go. Durations are integers (nanoseconds) and the
 * float64 computation is done in the reals, with the truncation of the conversion to Duration.
 */
module Backoff {
  import opened Core

  datatype Action = RetryNak | RetryNakWithDelay | RetryTerm

  datatype Decision = Decision(action: Action, delay: int)

  /** A RetryPolicy looks at the handler's error and the delivery count (0: not reported). */
  type Policy = (Error, nat) -> Decision

  datatype PolicyOption = BackoffFactor(factor: real) | MaxDeliveries(n: nat)

  datatype Config = Config(factor: real, maxDeliveries: nat)

  /** NewRetryPolicy */
  function FixedPolicy(delay: int): Policy {
    (e: Error, n: nat) =>
      if IsNonRetryable(e) then Decision(RetryTerm, 0) else Decision(RetryNakWithDelay, delay)
  }

  // ---------------------------------------------------------------------------
  // Options
  // ---------------------------------------------------------------------------

  function ApplyOption(c: Config, o: PolicyOption): Config {
    match o
    case BackoffFactor(f) => if f >= 1.0 then c.(factor := f) else c
    case MaxDeliveries(n) => c.(maxDeliveries := n)
  }

  function ApplyOptions(opts: seq<PolicyOption>): Config {
    if opts == [] then Config(2.0, 0)
    else ApplyOption(ApplyOptions(opts[..|opts| - 1]), opts[|opts| - 1])
  }

  /** The option loop at the head of NewBackoffRetryPolicy. */
  method Configure(opts: seq<PolicyOption>) returns (c: Config)
    ensures c == ApplyOptions(opts)
    ensures c.factor >= 1.0
  {
    c := Config(2.0, 0);
    for i := 0 to |opts|
      invariant c == ApplyOptions(opts[..i])
      invariant c.factor >= 1.0
    {
      assert opts[..i + 1][..i] == opts[..i];
      c := ApplyOption(c, opts[i]);
    }
    assert opts[..|opts|] == opts;
  }

  /** No option list can configure a factor below one. */
  lemma {:induction false} FactorAtLeastOne(opts: seq<PolicyOption>)
    ensures ApplyOptions(opts).factor >= 1.0
  {
    if opts == [] {
    } else {
      FactorAtLeastOne(opts[..|opts| - 1]);
    }
  }

  /** The option sets the factor: factors below one are ignored. */
  predicate SetsFactor(o: PolicyOption) {
    o.BackoffFactor? && o.factor >= 1.0
  }

  /** The last option that sets the factor wins; without one it is two. */
  lemma {:induction false} LastFactorWins(opts: seq<PolicyOption>, i: nat)
    requires i <= |opts| && (i > 0 ==> SetsFactor(opts[i - 1]))
    requires forall j | i <= j < |opts| :: !SetsFactor(opts[j])
    ensures ApplyOptions(opts).factor == if i == 0 then 2.0 else opts[i - 1].factor
  {
    if i == |opts| {
    } else {
      LastFactorWins(opts[..|opts| - 1], i);
    }
  }

  /** The last MaxDeliveries option wins; without one there is no limit. */
  lemma {:induction false} LastLimitWins(opts: seq<PolicyOption>, i: nat)
    requires i <= |opts| && (i > 0 ==> opts[i - 1].MaxDeliveries?)
    requires forall j | i <= j < |opts| :: !opts[j].MaxDeliveries?
    ensures ApplyOptions(opts).maxDeliveries == if i == 0 then 0 else opts[i - 1].n
  {
    if i == |opts| {
    } else {
      LastLimitWins(opts[..|opts| - 1], i);
    }
  }

  // ---------------------------------------------------------------------------
  // The delay
  // ---------------------------------------------------------------------------

  function Pow(f: real, n: nat): real {
    if n == 0 then 1.0 else f * Pow(f, n - 1)
  }

  /** Conversion of a float to an integer type drops the fraction. */
  function Truncate(r: real): int {
    if r >= 0.0 then r.Floor else -((-r).Floor)
  }

  function Attempt(delivered: nat): nat {
    (if delivered > 1 then delivered else 1) - 1
  }

  function Uncapped(initial: int, c: Config, delivered: nat): real {
    initial as real * Pow(c.factor, Attempt(delivered))
  }

  function Delay(initial: int, maxDelay: int, c: Config, delivered: nat): int {
    var d := Uncapped(initial, c, delivered);
    if d < maxDelay as real then Truncate(d) else maxDelay
  }

  /** NewBackoffRetryPolicy */
  function BackoffPolicy(initial: int, maxDelay: int, c: Config): Policy {
    (e: Error, n: nat) =>
      if IsNonRetryable(e) then Decision(RetryTerm, 0)
      else if c.maxDeliveries > 0 && n >= c.maxDeliveries then Decision(RetryTerm, 0)
      else Decision(RetryNakWithDelay, Delay(initial, maxDelay, c, n))
  }

  // ---------------------------------------------------------------------------
  // Powers
  // ---------------------------------------------------------------------------

  lemma ScaleMonotone(a: real, x: real, y: real)
    requires a >= 0.0 && x <= y
    ensures a * x <= a * y
  {
    assert a * (y - x) >= 0.0;
  }

  lemma {:induction false} PowMonotone(f: real, m: nat, n: nat)
    requires f >= 1.0 && m <= n
    ensures 1.0 <= Pow(f, m) <= Pow(f, n)
    decreases n
  {
    if m == n {
      if n > 0 {
        PowMonotone(f, n - 1, n - 1);
        ScaleMonotone(Pow(f, n - 1), 1.0, f);
      }
    } else {
      PowMonotone(f, m, n - 1);
      ScaleMonotone(Pow(f, n - 1), 1.0, f);
    }
  }

  /** Bernoulli: powers of a factor above one outgrow every linear function. */
  lemma {:induction false} Bernoulli(f: real, n: nat)
    requires f >= 1.0
    ensures Pow(f, n) >= 1.0 + n as real * (f - 1.0)
  {
    if n == 0 {
    } else {
      Bernoulli(f, n - 1);
      var p, q := Pow(f, n - 1), f - 1.0;
      var k := (n - 1) as real;
      ScaleMonotone(f, 1.0 + k * q, p);
      assert k * q >= 0.0 && (k * q) * q >= 0.0;
      assert f * (1.0 + k * q) == 1.0 + q + k * q + (k * q) * q by {
        assert f == 1.0 + q;
        assert (1.0 + q) * (1.0 + k * q) == 1.0 * (1.0 + k * q) + q * (1.0 + k * q);
        assert q * (1.0 + k * q) == q + q * (k * q);
      }
      assert n as real == k + 1.0;
      assert (k + 1.0) * q == k * q + q;
    }
  }

  /** Some power of a factor above one exceeds any bound. */
  lemma PowUnbounded(f: real, bound: real) returns (n: nat)
    requires f > 1.0
    ensures Pow(f, n) > bound
  {
    var q := f - 1.0;
    if bound <= 1.0 {
      n := 1;
      assert Pow(f, 1) == f * Pow(f, 0);
    } else {
      var x := bound / q;
      n := x.Floor + 1;
      assert x < n as real;
      ScaleMonotone(q, x, n as real);
      assert x * q == bound;
      Bernoulli(f, n);
    }
  }

  // ---------------------------------------------------------------------------
  // The backoff law
  // ---------------------------------------------------------------------------

  lemma TruncateMonotone(x: real, y: real)
    requires x <= y
    ensures Truncate(x) <= Truncate(y)
  {
  }

  lemma TruncateInteger(n: int)
    ensures Truncate(n as real) == n
  {
  }

  lemma UncappedMonotone(initial: int, c: Config, m: nat, n: nat)
    requires initial >= 0 && c.factor >= 1.0 && m <= n
    ensures initial as real <= Uncapped(initial, c, m) <= Uncapped(initial, c, n)
  {
    PowMonotone(c.factor, Attempt(m), Attempt(n));
    ScaleMonotone(initial as real, 1.0, Pow(c.factor, Attempt(m)));
    ScaleMonotone(initial as real, Pow(c.factor, Attempt(m)), Pow(c.factor, Attempt(n)));
  }

  /** The cap holds for every input, whatever the signs. */
  lemma DelayCapped(initial: int, maxDelay: int, c: Config, n: nat)
    ensures Delay(initial, maxDelay, c, n) <= maxDelay
  {
    var d := Uncapped(initial, c, n);
    if d < maxDelay as real {
      TruncateMonotone(d, maxDelay as real);
      TruncateInteger(maxDelay);
    }
  }

  /** Bounds of the delay: at least the smaller of the two settings, never above the exact power. */
  lemma DelayBounds(initial: int, maxDelay: int, c: Config, n: nat)
    requires initial >= 0 && c.factor >= 1.0
    ensures (if initial < maxDelay then initial else maxDelay) <= Delay(initial, maxDelay, c, n) <= maxDelay
    ensures Delay(initial, maxDelay, c, n) as real <= Uncapped(initial, c, n)
  {
    DelayCapped(initial, maxDelay, c, n);
    UncappedMonotone(initial, c, n, n);
    TruncateMonotone(initial as real, Uncapped(initial, c, n));
    TruncateInteger(initial);
  }

  lemma DelayBelowPower(initial: int, maxDelay: int, c: Config, n: nat)
    requires initial >= 0 && c.factor >= 1.0 && n > 0
    ensures Delay(initial, maxDelay, c, n) as real <= initial as real * Pow(c.factor, n - 1)
  {
    DelayBounds(initial, maxDelay, c, n);
    assert Attempt(n) == n - 1;
  }

  /**
   * The delay for the n-th delivery is exactly initial * factor^(n-1), rounded down, while that is
   * below the maximum, and the maximum from there on.
   */
  lemma DelayExact(initial: int, maxDelay: int, c: Config, n: nat, p: real)
    requires n >= 1 && initial >= 0 && c.factor >= 1.0 && p == initial as real * Pow(c.factor, n - 1)
    ensures p < maxDelay as real ==>
              Delay(initial, maxDelay, c, n) as real <= p < Delay(initial, maxDelay, c, n) as real + 1.0
    ensures p >= maxDelay as real ==> Delay(initial, maxDelay, c, n) == maxDelay
  {
    assert Attempt(n) == n - 1;
    UncappedMonotone(initial, c, n, n);
  }

  /** Pow is exponentiation. */
  lemma {:induction false} PowAdds(f: real, m: nat, n: nat)
    ensures Pow(f, 0) == 1.0 && Pow(f, 1) == f
    ensures Pow(f, m + n) == Pow(f, m) * Pow(f, n)
  {
    assert Pow(f, 1) == f * Pow(f, 0);
    if m == 0 {
    } else {
      PowAdds(f, m - 1, n);
      var p, q := Pow(f, m - 1), Pow(f, n);
      assert Pow(f, m + n) == f * Pow(f, m - 1 + n);
      assert f * (p * q) == (f * p) * q;
    }
  }

  lemma DelayMonotone(initial: int, maxDelay: int, c: Config, m: nat, n: nat)
    requires initial >= 0 && c.factor >= 1.0 && m <= n
    ensures Delay(initial, maxDelay, c, m) <= Delay(initial, maxDelay, c, n)
  {
    UncappedMonotone(initial, c, m, n);
    DelayCapped(initial, maxDelay, c, m);
    TruncateMonotone(Uncapped(initial, c, m), Uncapped(initial, c, n));
  }

  /** For a negative initial delay and a growing factor the delay falls without bound. */
  lemma NegativeInitialFalls(initial: int, maxDelay: int, c: Config, bound: int) returns (n: nat)
    requires initial < 0 && c.factor > 1.0
    ensures Delay(initial, maxDelay, c, n) < bound
  {
    var b := if bound < maxDelay then bound else maxDelay;
    b := if b < 0 then b else 0;
    var k := PowUnbounded(c.factor, 1.0 - b as real);
    n := k + 1;
    var p := Pow(c.factor, k);
    assert Attempt(n) == k;
    ScaleMonotone(p, initial as real, -1.0);
    assert Uncapped(initial, c, n) <= b as real - 1.0;
    TruncateMonotone(Uncapped(initial, c, n), (b - 1) as real);
    TruncateInteger(b - 1);
  }

  /**
   * The delay never shrinks as the delivery count grows exactly when the initial delay is not
   * negative or the factor is one.
   */
  lemma DelayMonotoneExactly(initial: int, maxDelay: int, opts: seq<PolicyOption>)
    ensures var c := ApplyOptions(opts);
            (forall m: nat, n: nat | m <= n ::
              Delay(initial, maxDelay, c, m) <= Delay(initial, maxDelay, c, n))
            <==> (initial >= 0 || c.factor == 1.0)
  {
    var c := ApplyOptions(opts);
    FactorAtLeastOne(opts);
    if initial >= 0 {
      forall m: nat, n: nat | m <= n
        ensures Delay(initial, maxDelay, c, m) <= Delay(initial, maxDelay, c, n)
      {
        DelayMonotone(initial, maxDelay, c, m, n);
      }
    } else if c.factor == 1.0 {
      forall n: nat ensures Delay(initial, maxDelay, c, n) == Delay(initial, maxDelay, c, 0) {
        PowOfOne(Attempt(n));
      }
    } else {
      var n := NegativeInitialFalls(initial, maxDelay, c, Delay(initial, maxDelay, c, 0));
      assert Delay(initial, maxDelay, c, 0) > Delay(initial, maxDelay, c, n);
    }
  }

  lemma {:induction false} PowOfOne(n: nat)
    ensures Pow(1.0, n) == 1.0
  {
    if n == 0 {
    } else {
      PowOfOne(n - 1);
    }
  }

  /** With a growing factor every delivery from some count on waits exactly the maximum. */
  lemma DelaySaturates(initial: int, maxDelay: int, c: Config) returns (from: nat)
    requires initial > 0 && c.factor > 1.0
    ensures forall n: nat | n >= from :: Delay(initial, maxDelay, c, n) == maxDelay
  {
    var k := PowUnbounded(c.factor, maxDelay as real);
    from := k + 1;
    forall n: nat | n >= from ensures Delay(initial, maxDelay, c, n) == maxDelay {
      PowMonotone(c.factor, k, Attempt(n));
      var p := Pow(c.factor, Attempt(n));
      var i := initial as real;
      ScaleMonotone(p, 1.0, i);
      assert p * i == i * p && p * 1.0 == p;
      assert Uncapped(initial, c, n) >= p > maxDelay as real;
    }
  }

  /** The sum of delays(1) .. delays(m). */
  function Total(delays: nat -> int, m: nat): int {
    if m == 0 then 0 else Total(delays, m - 1) + delays(m)
  }

  /** total <= initial * (factor^m - 1) / (factor - 1), with the division cleared. */
  ghost predicate GeometricBound(total: int, initial: int, f: real, power: real) {
    total as real * (f - 1.0) <= initial as real * (power - 1.0)
  }

  lemma {:induction false} TotalFlat(delays: nat -> int, cap: int, m: nat)
    requires forall k: nat :: delays(k) <= cap
    ensures Total(delays, m) <= m * cap
  {
    if m == 0 {
    } else {
      TotalFlat(delays, cap, m - 1);
      assert m * cap == (m - 1) * cap + cap;
    }
  }

  /** Every delay is at most the exact power for its delivery. */
  ghost predicate BelowPowers(delays: nat -> int, initial: int, f: real) {
    forall k: nat | k > 0 :: delays(k) as real <= initial as real * Pow(f, k - 1)
  }

  lemma {:induction false} TotalGeometric(delays: nat -> int, initial: int, f: real, m: nat)
    requires f >= 1.0
    requires BelowPowers(delays, initial, f)
    ensures GeometricBound(Total(delays, m), initial, f, Pow(f, m))
  {
    if m == 0 {
    } else {
      TotalGeometric(delays, initial, f, m - 1);
      GeometricStep(Total(delays, m - 1), delays(m), initial, f, Pow(f, m - 1));
    }
  }

  lemma GeometricStep(before: int, delay: int, initial: int, f: real, p: real)
    requires GeometricBound(before, initial, f, p) && delay as real <= initial as real * p && f >= 1.0
    ensures GeometricBound(before + delay, initial, f, f * p)
  {
    var q, i, t, d := f - 1.0, initial as real, before as real, delay as real;
    ScaleMonotone(q, d, i * p);
    assert (t + d) * q == t * q + q * d;
    assert f * p == p + q * p;
    assert i * (p + q * p - 1.0) == i * (p - 1.0) + i * (q * p);
    assert i * (q * p) == q * (i * p);
  }

  function Delays(initial: int, maxDelay: int, c: Config): nat -> int {
    (n: nat) => Delay(initial, maxDelay, c, n)
  }

  /** The waits of the first m deliveries stay below the flat sum, for any signs. */
  lemma TotalDelayFlat(initial: int, maxDelay: int, c: Config, m: nat)
    ensures Total(Delays(initial, maxDelay, c), m) <= m * maxDelay
  {
    forall k: nat ensures Delays(initial, maxDelay, c)(k) <= maxDelay {
      DelayCapped(initial, maxDelay, c, k);
    }
    TotalFlat(Delays(initial, maxDelay, c), maxDelay, m);
  }

  /** ... and below the geometric sum of the uncapped delays. */
  lemma TotalDelayGeometric(initial: int, maxDelay: int, c: Config, m: nat)
    requires initial >= 0 && c.factor >= 1.0
    ensures GeometricBound(Total(Delays(initial, maxDelay, c), m), initial, c.factor, Pow(c.factor, m))
  {
    DelaysBelowPowers(initial, maxDelay, c);
    TotalGeometric(Delays(initial, maxDelay, c), initial, c.factor, m);
  }

  lemma DelaysBelowPowers(initial: int, maxDelay: int, c: Config)
    requires initial >= 0 && c.factor >= 1.0
    ensures BelowPowers(Delays(initial, maxDelay, c), initial, c.factor)
  {
    forall k: nat | k > 0
      ensures Delays(initial, maxDelay, c)(k) as real <= initial as real * Pow(c.factor, k - 1)
    {
      DelayBelowPower(initial, maxDelay, c, k);
    }
  }
}
