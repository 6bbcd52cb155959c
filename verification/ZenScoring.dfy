/** Health scores of paid keys: composition, updates, idle decay and cooldown. */
module ZenScoring {
  import opened Wrappers

  const DEFAULT_SCORE: real := 70.0
  const RELIABILITY_MAX: real := 55.0
  const LATENCY_NEUTRAL: real := 15.0
  const SEVERITY_MAX: real := 25.0
  const UNAUTHORIZED_CAP: real := 10.0
  const PROBE_FLOOR: real := 55.0
  const DECAY_FRACTION: real := 0.03
  const LATENCY_ALPHA: real := 0.12
  const SAMPLES_FOR_OBSERVED := 8

  /** Times and durations are in nanoseconds. */
  const MILLISECOND := 1_000_000
  const SECOND := 1000 * MILLISECOND
  const MINUTE := 60 * SECOND
  const DECAY_INTERVAL := 5 * MINUTE
  const COOLDOWN_BASE := MINUTE
  const COOLDOWN_MAXIMUM := 16 * MINUTE

  datatype ErrorClass = NoClass | RateLimited | Upstream5xx | Unauthorized | OtherClass(name: string)

  /** One key's health row.  A missing time is the zero time. */
  datatype Health = Health(
    score: real, successes: nat, failures: nat, consecutive: nat, latency: Option<real>,
    lastError: ErrorClass, lastSuccess: Option<int>, lastFailure: Option<int>, updated: Option<int>, reason: ErrorClass)

  const COLD_START := Health(DEFAULT_SCORE, 0, 0, 0, None, NoClass, None, None, None, NoClass)

  predicate Untouched(h: Health) {
    h.successes == 0 && h.failures == 0 && h.consecutive == 0 && h.latency == None && h.lastError == NoClass
    && h.lastSuccess == None && h.lastFailure == None && h.reason == NoClass
  }

  function Normalized(h: Health): Health {
    if Untouched(h) && h.updated == None && h.score == 0.0 then h.(score := DEFAULT_SCORE) else h
  }

  function Clamped(score: real): (r: real)
    ensures 0.0 <= r <= 100.0
    ensures 0.0 <= score <= 100.0 ==> r == score
  {
    if score < 0.0 then 0.0 else if score > 100.0 then 100.0 else score
  }

  function ReliabilityRate(successes: nat, failures: nat): real {
    var samples := successes + failures;
    if samples == 0 then 0.75
    else if samples < SAMPLES_FOR_OBSERVED then (successes + 2) as real / (samples + 4) as real
    else successes as real / samples as real
  }

  function AtMost(a: real, b: real): real { if a <= b then a else b }

  function SeverityPenalty(class_: ErrorClass, consecutive: nat): real {
    if class_ == NoClass || consecutive < 1 then 0.0
    else
      var step := (if consecutive > 5 then 5 else consecutive) as real;
      match class_
      case RateLimited => AtMost(8.0 + 2.0 * step, SEVERITY_MAX)
      case Upstream5xx => AtMost(10.0 + 3.0 * step, SEVERITY_MAX)
      case Unauthorized => SEVERITY_MAX
      case _ => 0.0
  }

  function LatencyPoints(latency: Option<real>, poolMedian: Option<real>): real {
    if latency == None || poolMedian == None || poolMedian.value <= 0.0 then LATENCY_NEUTRAL
    else
      var ratio := latency.value / poolMedian.value;
      if ratio <= 1.2 then 20.0 else if ratio <= 2.0 then 12.0 else if ratio <= 3.0 then 4.0 else 0.0
  }

  function Composed(h: Health, poolMedian: Option<real>): real {
    if Untouched(h) then DEFAULT_SCORE
    else Clamped(RELIABILITY_MAX * ReliabilityRate(h.successes, h.failures)
                 - SeverityPenalty(h.lastError, h.consecutive) + LatencyPoints(h.latency, poolMedian))
  }

  function LatencyUpdated(latency: Option<real>, sample: int): Option<real> {
    if sample <= 0 then latency
    else
      var millis := sample / MILLISECOND;
      var value := if millis < 1 then 1.0 else millis as real;
      if latency == None then Some(value) else Some((1.0 - LATENCY_ALPHA) * latency.value + LATENCY_ALPHA * value)
  }

  function AfterSuccess(h: Health, sample: int, now: int, poolMedian: Option<real>): Health {
    var n := Normalized(h);
    var r := n.(successes := n.successes + 1, consecutive := 0, lastError := NoClass, reason := NoClass,
                latency := LatencyUpdated(n.latency, sample), lastSuccess := Some(now), updated := Some(now));
    r.(score := Composed(r, poolMedian))
  }

  function AfterFailure(h: Health, class_: ErrorClass, now: int, poolMedian: Option<real>): Health {
    var n := Normalized(h);
    var r := n.(failures := n.failures + 1, consecutive := n.consecutive + 1, lastError := class_, reason := class_,
                lastFailure := Some(now), updated := Some(now));
    var score := Composed(r, poolMedian);
    r.(score := if class_ == Unauthorized && score > UNAUTHORIZED_CAP then UNAUTHORIZED_CAP else score)
  }

  // ----- Decay -----

  function Power(base: real, n: nat): real {
    if n == 0 then 1.0 else base * Power(base, n - 1)
  }

  /** The score n idle steps after s, in closed form. */
  function Relaxed(s: real, n: nat): real {
    DEFAULT_SCORE + (s - DEFAULT_SCORE) * Power(1.0 - DECAY_FRACTION, n)
  }

  function Steps(since: int, now: int): nat {
    if now - since < DECAY_INTERVAL then 0 else (now - since) / DECAY_INTERVAL
  }

  /** The idle decay, in closed form. */
  function Decayed(h: Health, now: int): Health {
    var n := Normalized(h);
    if n.updated == None || Steps(n.updated.value, now) == 0 then n
    else
      var steps := Steps(n.updated.value, now);
      n.(score := Clamped(Relaxed(n.score, steps)), updated := Some(n.updated.value + steps * DECAY_INTERVAL))
  }

  method DecayHealth(health: Health, now: int) returns (r: Health)
    ensures r == Decayed(health, now)
  {
    r := Normalized(health);
    if r.updated == None {
      return;
    }
    var elapsed := now - r.updated.value;
    if elapsed < DECAY_INTERVAL {
      return;
    }
    var steps := elapsed / DECAY_INTERVAL;
    var score := r.score;
    for i := 0 to steps
      invariant score == Relaxed(r.score, i)
    {
      RelaxedStep(r.score, i);
      score := score + (DEFAULT_SCORE - score) * DECAY_FRACTION;
    }
    r := r.(score := Clamped(score), updated := Some(r.updated.value + steps * DECAY_INTERVAL));
  }

  lemma {:induction false} RelaxedStep(s: real, n: nat)
    ensures Relaxed(s, n + 1) == Relaxed(s, n) + (DEFAULT_SCORE - Relaxed(s, n)) * DECAY_FRACTION
  {
    var p := Power(1.0 - DECAY_FRACTION, n);
    assert Power(1.0 - DECAY_FRACTION, n + 1) == (1.0 - DECAY_FRACTION) * p;
    assert (s - DEFAULT_SCORE) * ((1.0 - DECAY_FRACTION) * p) == ((s - DEFAULT_SCORE) * p) * (1.0 - DECAY_FRACTION);
  }

  lemma {:induction false} RelaxedAdds(s: real, m: nat, n: nat)
    ensures Relaxed(Relaxed(s, m), n) == Relaxed(s, m + n)
  {
    if n > 0 {
      RelaxedAdds(s, m, n - 1);
      RelaxedStep(Relaxed(s, m), n - 1);
      RelaxedStep(s, m + n - 1);
    }
  }

  /** Steps move a score toward 70 and never past it. */
  lemma {:induction false} RelaxedBetween(s: real, n: nat)
    ensures s <= DEFAULT_SCORE ==> s <= Relaxed(s, n) <= DEFAULT_SCORE
    ensures s >= DEFAULT_SCORE ==> DEFAULT_SCORE <= Relaxed(s, n) <= s
  {
    if n > 0 {
      RelaxedBetween(s, n - 1);
      RelaxedStep(s, n - 1);
    } else {
      assert Power(1.0 - DECAY_FRACTION, 0) == 1.0;
    }
  }

  /** One step from here stays on the scale, so every later one does. */
  predicate DecaysOnScale(h: Health) {
    h.updated == None || 0.0 <= Relaxed(h.score, 1) <= 100.0
  }

  lemma {:induction false} RelaxedOnScale(s: real, n: nat)
    requires 0.0 <= Relaxed(s, 1) <= 100.0 && n >= 1
    ensures 0.0 <= Relaxed(s, n) <= 100.0
  {
    RelaxedAdds(s, 1, n - 1);
    RelaxedBetween(Relaxed(s, 1), n - 1);
  }

  lemma {:induction false} StepsAdd(since: int, t1: int, t2: int)
    requires t1 <= t2
    ensures Steps(since, t1) <= Steps(since, t2)
    ensures Steps(since + Steps(since, t1) * DECAY_INTERVAL, t2) == Steps(since, t2) - Steps(since, t1)
  {
    var n := Steps(since, t1);
    if t1 - since >= DECAY_INTERVAL {
      assert t1 - since == n * DECAY_INTERVAL + (t1 - since) % DECAY_INTERVAL;
    }
  }

  lemma {:induction false} DecayComposes(h: Health, t1: int, t2: int)
    requires t1 <= t2 && DecaysOnScale(h)
    ensures Decayed(Decayed(h, t1), t2) == Decayed(h, t2)
  {
    if h.updated.Some? {
      var since := h.updated.value;
      var m, n := Steps(since, t1), Steps(since, t2);
      StepsAdd(since, t1, t2);
      if m >= 1 {
        RelaxedOnScale(h.score, m);
        RelaxedAdds(h.score, m, n - m);
      }
    }
  }

  /** Off the scale, two looks differ from one. */
  lemma {:induction false} DecayForgets(h: Health)
    requires !DecaysOnScale(h)
    ensures exists t1, t2 :: t1 <= t2 && Decayed(Decayed(h, t1), t2) != Decayed(h, t2)
  {
    var since := h.updated.value;
    var t1, t2 := since + DECAY_INTERVAL, since + 2 * DECAY_INTERVAL;
    var v := Relaxed(h.score, 1);
    RelaxedAdds(h.score, 1, 1);
    RelaxedStep(v, 0);
    RelaxedStep(Clamped(v), 0);
    assert Power(1.0 - DECAY_FRACTION, 0) == 1.0;
    assert Decayed(h, t1) == h.(score := Clamped(v), updated := Some(t1));
    assert Decayed(h, t2).score == Clamped(Relaxed(v, 1));
    assert Decayed(Decayed(h, t1), t2).score == Clamped(Relaxed(Clamped(v), 1));
  }

  /** Decay is path independent exactly for rows that were never scored or whose
      next step stays on the scale; every score from 0 to 100 is such. */
  lemma {:induction false} DecayPathIndependent(h: Health)
    ensures (forall t1, t2 :: t1 <= t2 ==> Decayed(Decayed(h, t1), t2) == Decayed(h, t2)) <==> DecaysOnScale(h)
    ensures 0.0 <= h.score <= 100.0 ==> DecaysOnScale(h)
  {
    if DecaysOnScale(h) {
      forall t1, t2 | t1 <= t2 ensures Decayed(Decayed(h, t1), t2) == Decayed(h, t2) { DecayComposes(h, t1, t2); }
    } else {
      DecayForgets(h);
    }
    RelaxedBetween(h.score, 1);
  }

  // ----- The scale of reachable scores -----

  /** What every row written by the service satisfies. */
  predicate Reachable(h: Health) {
    && 0.0 <= h.score <= DEFAULT_SCORE
    && (h.consecutive == 0 <==> h.reason == NoClass)
    && h.lastError == h.reason
  }

  predicate Counted(class_: ErrorClass) { class_.RateLimited? || class_.Upstream5xx? || class_.Unauthorized? }

  lemma {:induction false} RateInUnit(successes: nat, failures: nat)
    ensures 0.0 <= ReliabilityRate(successes, failures) <= 1.0
  {
    var samples := successes + failures;
    if samples != 0 && samples < SAMPLES_FOR_OBSERVED {
      Quotient((successes + 2) as real, (samples + 4) as real);
    } else if samples != 0 {
      Quotient(successes as real, samples as real);
    }
  }

  lemma {:induction false} Quotient(a: real, b: real)
    requires 0.0 <= a <= b && 0.0 < b
    ensures 0.0 <= a / b <= 1.0
  {
  }

  lemma {:induction false} ComposedOnScale(h: Health)
    ensures 0.0 <= Composed(h, None) <= DEFAULT_SCORE
  {
    RateInUnit(h.successes, h.failures);
  }

  /** Without a pool median, every score the service writes lies between 0 and 70
      and a cooldown reason stands exactly while failures are consecutive. */
  lemma {:induction false} SuccessReachable(h: Health, sample: int, now: int)
    ensures Reachable(AfterSuccess(h, sample, now, None))
  {
    var n := Normalized(h);
    ComposedOnScale(n.(successes := n.successes + 1, consecutive := 0, lastError := NoClass, reason := NoClass,
                       latency := LatencyUpdated(n.latency, sample), lastSuccess := Some(now), updated := Some(now)));
  }

  lemma {:induction false} FailureReachable(h: Health, class_: ErrorClass, now: int)
    requires Counted(class_)
    ensures Reachable(AfterFailure(h, class_, now, None))
  {
    var n := Normalized(h);
    ComposedOnScale(n.(failures := n.failures + 1, consecutive := n.consecutive + 1, lastError := class_,
                       reason := class_,
                       lastFailure := Some(now), updated := Some(now)));
  }

  /** Decay keeps a reachable row reachable and never lowers its score. */
  lemma {:induction false} DecayRaises(h: Health, now: int)
    requires Reachable(h)
    ensures Reachable(Decayed(h, now)) && Decayed(h, now).score >= h.score
  {
    var n := Normalized(h);
    if n.updated.Some? { RelaxedBetween(n.score, Steps(n.updated.value, now)); }
  }

  // ----- Success against failure -----

  lemma {:induction false} RateOrder(successes: nat, failures: nat)
    ensures ReliabilityRate(successes, failures + 1) < ReliabilityRate(successes + 1, failures)
  {
    var samples := successes + failures + 1;
    if samples < SAMPLES_FOR_OBSERVED {
      Smaller((successes + 2) as real, (successes + 3) as real, (samples + 4) as real);
    } else {
      Smaller(successes as real, (successes + 1) as real, samples as real);
    }
  }

  lemma {:induction false} Smaller(a: real, b: real, c: real)
    requires a < b && 0.0 < c
    ensures a / c < b / c
  {
  }

  /** From any state a recorded success gives a strictly higher score than a recorded
      failure. */
  lemma {:induction false} SuccessBeatsFailure(h: Health, class_: ErrorClass, sample: int, now: int)
    requires Counted(class_)
    ensures AfterFailure(h, class_, now, None).score < AfterSuccess(h, sample, now, None).score
  {
    var n := Normalized(h);
    RateOrder(n.successes, n.failures);
    RateInUnit(n.successes + 1, n.failures);
    RateInUnit(n.successes, n.failures + 1);
  }

  /** The score a row with these counts earns once no failure is pending. */
  function Earned(successes: nat, failures: nat): real {
    RELIABILITY_MAX * ReliabilityRate(successes, failures) + LATENCY_NEUTRAL
  }

  lemma {:induction false} SuccessEarns(h: Health, sample: int, now: int)
    ensures AfterSuccess(h, sample, now, None).score == Earned(Normalized(h).successes + 1, h.failures)
  {
    RateInUnit(Normalized(h).successes + 1, h.failures);
  }

  /** A success may lower a score: a new key falls from 70 to 48. */
  lemma {:induction false} FirstSuccessLowers(sample: int, now: int)
    ensures COLD_START.score == 70.0 && AfterSuccess(COLD_START, sample, now, None).score == 48.0
  {
    SuccessEarns(COLD_START, sample, now);
    assert ReliabilityRate(1, 0) == 3.0 / 5.0;
  }

  lemma {:induction false} RateGrows(successes: nat, failures: nat)
    requires successes + failures > 0
    ensures ReliabilityRate(successes + 1, failures) < ReliabilityRate(successes, failures) <==>
            successes + failures == SAMPLES_FOR_OBSERVED - 1 && successes <= 1
  {
    var samples := successes + failures;
    if samples == SAMPLES_FOR_OBSERVED - 1 {
      assert ReliabilityRate(successes, failures) == (successes + 2) as real / 11.0;
      assert ReliabilityRate(successes + 1, failures) == (successes + 1) as real / 8.0;
    } else if samples < SAMPLES_FOR_OBSERVED {
      OneMore((successes + 2) as real, (samples + 4) as real);
    } else {
      OneMore(successes as real, samples as real);
    }
  }

  lemma {:induction false} OneMore(a: real, b: real)
    requires 0.0 <= a <= b && 0.0 < b
    ensures a / b <= (a + 1.0) / (b + 1.0)
  {
    var x, y := a / b, (a + 1.0) / (b + 1.0);
    assert x * b == a && y * (b + 1.0) == a + 1.0;
    Quotient(a, b);
    assert (y - x) * (b + 1.0) == 1.0 - x;
    NotNegative(y - x, b + 1.0);
  }

  lemma {:induction false} NotNegative(x: real, c: real)
    requires 0.0 < c && 0.0 <= x * c
    ensures 0.0 <= x
  {
  }

  /** Dividing by a positive number keeps the order. */
  lemma {:induction false} RatioOrder(a: real, b: real, ratio: real)
    requires b > 0.0
    ensures a / b > ratio <==> a > ratio * b
    ensures a / b >= ratio <==> a >= ratio * b
  {
    var q := a / b;
    assert q * b == a;
    var d, e := q - ratio, a - ratio * b;
    assert d * b == e;
    SignKept(d, b);
    assert d > 0.0 <==> e > 0.0;
    assert d >= 0.0 <==> e >= 0.0;
  }

  lemma {:induction false} SignKept(x: real, c: real)
    requires 0.0 < c
    ensures x > 0.0 <==> x * c > 0.0
    ensures x >= 0.0 <==> x * c >= 0.0
  {
  }

  /** What a composed score is: the earned one, less at least ten points while a counted
      failure is pending. */
  lemma {:induction false} ComposedEarns(h: Health)
    requires !Untouched(h) && (h.lastError == NoClass <==> h.consecutive == 0)
    requires h.lastError == NoClass || Counted(h.lastError)
    ensures h.lastError == NoClass ==> Composed(h, None) == Earned(h.successes, h.failures)
    ensures h.lastError != NoClass ==> Composed(h, None) <= Earned(h.successes, h.failures) - 10.0
  {
    RateInUnit(h.successes, h.failures);
    if h.lastError != NoClass { assert SeverityPenalty(h.lastError, h.consecutive) >= 10.0; }
  }

  /** At the eighth sample the switch to the observed rate costs less than ten points. */
  lemma {:induction false} EighthCostsLittle(successes: nat, failures: nat)
    requires successes + failures == SAMPLES_FOR_OBSERVED - 1 && successes <= 1
    ensures Earned(successes, failures) - 10.0 < Earned(successes + 1, failures)
  {
    assert ReliabilityRate(successes, failures) == (successes + 2) as real / 11.0;
    assert ReliabilityRate(successes + 1, failures) == (successes + 1) as real / 8.0;
  }

  /** A success on a row whose score is the one its outcomes composed lowers it
      exactly on a new key, and where the eighth sample switches from the prior to
      the observed rate with at most one earlier success and no failure pending. */
  lemma {:induction false} ComposedLowersIff(h: Health, sample: int, now: int)
    requires h.score == Composed(h, None) && (h.lastError == NoClass <==> h.consecutive == 0)
    requires h.lastError == NoClass || Counted(h.lastError)
    requires h.successes + h.failures == 0 ==> Untouched(h)
    ensures AfterSuccess(h, sample, now, None).score < h.score <==>
            || h.successes + h.failures == 0
            || (h.successes + h.failures == SAMPLES_FOR_OBSERVED - 1 && h.successes <= 1 && h.lastError == NoClass)
  {
    SuccessEarns(h, sample, now);
    if h.successes + h.failures == 0 {
      assert ReliabilityRate(1, 0) == 3.0 / 5.0;
    } else {
      hide Composed, ReliabilityRate, AfterSuccess;
      ComposedEarns(h);
      RateGrows(h.successes, h.failures);
      if h.successes + h.failures == SAMPLES_FOR_OBSERVED - 1 && h.successes <= 1 {
        EighthCostsLittle(h.successes, h.failures);
      }
    }
  }

  // ----- Cooldown -----

  function Shifted(exponent: nat): nat {
    if exponent == 0 then 1 else 2 * Shifted(exponent - 1)
  }

  function CooldownForFailures(consecutive: int): nat {
    var c := if consecutive < 1 then 1 else consecutive;
    var exponent := if c - 1 > 4 then 4 else c - 1;
    var cooldown := COOLDOWN_BASE * Shifted(exponent);
    if cooldown > COOLDOWN_MAXIMUM then COOLDOWN_MAXIMUM else cooldown
  }

  lemma {:induction false} ShiftedGrows(m: nat, n: nat)
    requires m <= n
    ensures Shifted(m) <= Shifted(n)
  {
    if m < n { ShiftedGrows(m, n - 1); }
  }

  /** The c-th consecutive failure rests a key for 2^(c-1) minutes, at most 16. */
  lemma {:induction false} CooldownDoubles(c: nat)
    requires c >= 1
    ensures CooldownForFailures(c) == (if Shifted(c - 1) < 16 then Shifted(c - 1) else 16) * MINUTE
  {
    assert Shifted(4) == 16 by { assert Shifted(2) == 4; assert Shifted(3) == 8; }
    if c - 1 >= 4 {
      ShiftedGrows(4, c - 1);
    } else {
      ShiftedGrows(c - 1, 4);
      ShiftedGrows(c, 4);
      assert Shifted(c) == 2 * Shifted(c - 1);
    }
  }
}
