/**
  The traffic anomaly detector, over the reals. The square root is a parameter: nothing
  below depends on which function it is.
 */
module TrafficDetector {

  datatype Action = Log | Alert | Disable

  /** Byte counters are 64-bit and wrap; times are in nanoseconds. */
  datatype Sample = Sample(upBytes: int, downBytes: int, at: int)

  /** What is learned of a client: mean and variance of its rates, and how many there were. */
  datatype Stats = Stats(ewma: real, variance: real, samples: nat)

  datatype Baseline = Baseline(stats: Stats, consecutive: nat, updatedAt: int)

  datatype Policy = Policy(
    minSamples: int, alpha: real, sigma: real, minRate: real, hardRate: real, confirmations: int, action: Action)

  datatype Reason = InvalidInterval | CounterReset | ConfirmedAnomaly | CandidateAnomaly | Normal

  datatype Decision =
    | Skipped(reason: Reason)
    | Judged(suspicious: bool, confirmed: bool, rate: real, threshold: real, reason: Reason, action: Action)

  const TWO_63: int := 0x8000_0000_0000_0000

  /** Two's complement, as 64-bit addition and subtraction wrap. */
  function Wrap(n: int): (w: int)
    ensures -TWO_63 <= w < TWO_63 && (n - w) % (2 * TWO_63) == 0
  {
    (n + TWO_63) % (2 * TWO_63) - TWO_63
  }

  /** Time differences saturate. */
  function Saturate(n: int): int {
    if n < -TWO_63 then -TWO_63 else if n >= TWO_63 then TWO_63 - 1 else n
  }

  function Total(s: Sample): int {
    Wrap(s.upBytes + s.downBytes)
  }

  function Seconds(previous: Sample, current: Sample): real {
    Saturate(current.at - previous.at) as real / 1_000_000_000.0
  }

  function Delta(previous: Sample, current: Sample): int {
    Wrap(Total(current) - Total(previous))
  }

  // ---- the specification ----

  /** Two consecutive samples of a client. */
  datatype Observation = Observation(previous: Sample, current: Sample)

  predicate Valid(o: Observation) {
    Seconds(o.previous, o.current) > 0.0 && Delta(o.previous, o.current) >= 0
  }

  function PerSecond(delta: int, seconds: real): real
    requires seconds > 0.0
  {
    delta as real / seconds
  }

  function Rate(o: Observation): real
    requires Valid(o)
  {
    PerSecond(Delta(o.previous, o.current), Seconds(o.previous, o.current))
  }

  function Normalized(p: Policy): (q: Policy)
    ensures 0.0 < q.alpha <= 1.0 && q.minSamples >= 1 && q.sigma > 0.0 && q.confirmations >= 1
  {
    var p1 := if p.alpha <= 0.0 || p.alpha > 1.0 then p.(alpha := 0.2) else p;
    var p2 := if p1.minSamples < 1 then p1.(minSamples := 5) else p1;
    var p3 := if p2.sigma <= 0.0 then p2.(sigma := 4.0) else p2;
    if p3.confirmations < 1 then p3.(confirmations := 3) else p3
  }

  function Max(a: real, b: real): real {
    if a >= b then a else b
  }

  /** The mean plus so many standard deviations. */
  function Dynamic(s: Stats, sigma: real, sqrt: real -> real): real {
    s.ewma + sigma * sqrt(Max(s.variance, 0.0))
  }

  function Threshold(s: Stats, p: Policy, sqrt: real -> real): real {
    if s.samples >= p.minSamples then Max(p.minRate, Dynamic(s, p.sigma, sqrt)) else p.minRate
  }

  predicate Suspicious(rate: real, s: Stats, p: Policy, sqrt: real -> real) {
    (rate >= Threshold(s, p, sqrt) && Threshold(s, p, sqrt) > 0.0) || (p.hardRate > 0.0 && rate >= p.hardRate)
  }

  function Scaled(alpha: real, diff: real): real {
    alpha * diff
  }

  function Spread(alpha: real, variance: real, diff: real): real {
    (1.0 - alpha) * (variance + alpha * diff * diff)
  }

  /** One step of the exponential average of rates and of its variance. */
  function Learned(s: Stats, rate: real, alpha: real): Stats {
    if s.samples == 0 then Stats(rate, 0.0, 1)
    else
      var diff := rate - s.ewma;
      Stats(s.ewma + Scaled(alpha, diff), Spread(alpha, s.variance, diff), s.samples + 1)
  }

  function NextBaseline(o: Observation, b: Baseline, policy: Policy, sqrt: real -> real): Baseline {
    var p := Normalized(policy);
    if !Valid(o) then b
    else if Suspicious(Rate(o), b.stats, p, sqrt) then b.(consecutive := b.consecutive + 1)
    else Baseline(Learned(b.stats, Rate(o), p.alpha), 0, o.current.at)
  }

  function Verdict(suspicious: bool, confirmed: bool): Reason {
    if confirmed then ConfirmedAnomaly else if suspicious then CandidateAnomaly else Normal
  }

  function Decide(o: Observation, b: Baseline, policy: Policy, sqrt: real -> real): Decision {
    var p := Normalized(policy);
    if Seconds(o.previous, o.current) <= 0.0 then Skipped(InvalidInterval)
    else if Delta(o.previous, o.current) < 0 then Skipped(CounterReset)
    else
      var suspicious := Suspicious(Rate(o), b.stats, p, sqrt);
      var confirmed := NextBaseline(o, b, policy, sqrt).consecutive >= p.confirmations;
      Judged(suspicious, confirmed, Rate(o), Threshold(b.stats, p, sqrt), Verdict(suspicious, confirmed), p.action)
  }

  // ---- the detector ----

  method UpdateBaseline(b0: Baseline, rate: real, alpha: real, at: int, learn: bool) returns (b: Baseline)
    ensures b == if learn then Baseline(Learned(b0.stats, rate, alpha), b0.consecutive, at) else b0
  {
    b := b0;
    if !learn { return b; }
    var s := b.stats;
    if s.samples == 0 {
      s := s.(ewma := rate);
      s := s.(variance := 0.0);
    } else {
      var diff := rate - s.ewma;
      s := s.(ewma := s.ewma + Scaled(alpha, diff));
      s := s.(variance := Spread(alpha, s.variance, diff));
    }
    s := s.(samples := s.samples + 1);
    b := b.(stats := s, updatedAt := at);
  }

  /** A limit that a policy leaves out, or sets to nonsense, has a default. */
  method WithDefaults(policy: Policy) returns (p: Policy)
    ensures p == Normalized(policy)
    ensures p.alpha == if 0.0 < policy.alpha <= 1.0 then policy.alpha else 0.2
    ensures p.minSamples == if policy.minSamples >= 1 then policy.minSamples else 5
    ensures p.sigma == if policy.sigma > 0.0 then policy.sigma else 4.0
    ensures p.confirmations == if policy.confirmations >= 1 then policy.confirmations else 3
    ensures p.minRate == policy.minRate && p.hardRate == policy.hardRate && p.action == policy.action
  {
    p := policy;
    if p.alpha <= 0.0 || p.alpha > 1.0 { p := p.(alpha := 0.2); }
    if p.minSamples < 1 { p := p.(minSamples := 5); }
    if p.sigma <= 0.0 { p := p.(sigma := 4.0); }
    if p.confirmations < 1 { p := p.(confirmations := 3); }
  }

  method Analyze(previous: Sample, current: Sample, baseline0: Baseline, policy0: Policy, sqrt: real -> real)
    returns (baseline: Baseline, decision: Decision)
    ensures baseline == NextBaseline(Observation(previous, current), baseline0, policy0, sqrt)
    ensures decision == Decide(Observation(previous, current), baseline0, policy0, sqrt)
  {
    baseline := baseline0;
    var policy := WithDefaults(policy0);
    var dt := Seconds(previous, current);
    if dt <= 0.0 { return baseline, Skipped(InvalidInterval); }
    var delta := Delta(previous, current);
    if delta < 0 { return baseline, Skipped(CounterReset); }
    var rate := PerSecond(delta, dt);
    var threshold := policy.minRate;
    if baseline.stats.samples >= policy.minSamples {
      var dynamic := Dynamic(baseline.stats, policy.sigma, sqrt);
      if dynamic > threshold { threshold := dynamic; }
    }
    var suspicious := rate >= threshold && threshold > 0.0;
    if policy.hardRate > 0.0 && rate >= policy.hardRate { suspicious := true; }
    if suspicious {
      baseline := baseline.(consecutive := baseline.consecutive + 1);
    } else {
      baseline := baseline.(consecutive := 0);
    }
    var confirmed := baseline.consecutive >= policy.confirmations;
    baseline := UpdateBaseline(baseline, rate, policy.alpha, current.at, !suspicious);
    decision := Judged(suspicious, confirmed, rate, threshold, Verdict(suspicious, confirmed), policy.action);
  }

  // ---- what a decision means ----

  /** Counters as clients report them: not negative, and no sum beyond 64 bits. */
  predicate Counted(s: Sample) {
    s.upBytes >= 0 && s.downBytes >= 0 && s.upBytes + s.downBytes < 0x8000_0000_0000_0000
  }

  /** An observation is skipped exactly when no time passed or fewer bytes are counted than
      before; the baseline is then left as it was. Otherwise the rate, over the time that
      passed, makes up for the bytes. */
  lemma SkippedExactly(o: Observation, b: Baseline, policy: Policy, sqrt: real -> real)
    requires Counted(o.previous) && Counted(o.current)
    requires -0x8000_0000_0000_0000 <= o.current.at - o.previous.at < 0x8000_0000_0000_0000
    ensures var bytes := (o.current.upBytes + o.current.downBytes) - (o.previous.upBytes + o.previous.downBytes);
      match Decide(o, b, policy, sqrt)
      case Skipped(reason) =>
        && NextBaseline(o, b, policy, sqrt) == b
        && (o.current.at <= o.previous.at ==> reason.InvalidInterval?)
        && (o.current.at > o.previous.at ==> bytes < 0 && reason.CounterReset?)
      case Judged(_, _, rate, _, _, _) =>
        o.current.at > o.previous.at && bytes >= 0
        && Scaled(rate, (o.current.at - o.previous.at) as real) == bytes as real * 1_000_000_000.0
  {
    WrapStays(o.previous.upBytes + o.previous.downBytes);
    WrapStays(o.current.upBytes + o.current.downBytes);
    WrapStays((o.current.upBytes + o.current.downBytes) - (o.previous.upBytes + o.previous.downBytes));
    if Valid(o) { RateTimesTime(Delta(o.previous, o.current), o.current.at - o.previous.at); }
  }

  lemma WrapStays(n: int)
    requires -TWO_63 <= n < TWO_63
    ensures Wrap(n) == n
  {
  }

  lemma RateTimesTime(delta: int, nanoseconds: int)
    requires nanoseconds > 0
    ensures Scaled(PerSecond(delta, nanoseconds as real / 1_000_000_000.0), nanoseconds as real) == delta as real * 1_000_000_000.0
  {
    var t := nanoseconds as real;
    var s := t / 1_000_000_000.0;
    var q := delta as real / s;
    assert q * s == delta as real;
    assert t == s * 1_000_000_000.0;
    Regroup(q, s, 1_000_000_000.0);
  }

  lemma Regroup(x: real, y: real, z: real)
    ensures x * (y * z) == (x * y) * z
  {
  }

  /** A policy that sets every limit needs no default. */
  predicate Complete(p: Policy) {
    0.0 < p.alpha <= 1.0 && p.minSamples >= 1 && p.sigma > 0.0 && p.confirmations >= 1
  }

  // ---- traces ----

  const EMPTY: Baseline := Baseline(Stats(0.0, 0.0, 0), 0, 0)

  /** The stored baseline after a trace of observations. */
  function After(os: seq<Observation>, policy: Policy, sqrt: real -> real): Baseline {
    if os == [] then EMPTY else NextBaseline(os[|os| - 1], After(os[..|os| - 1], policy, sqrt), policy, sqrt)
  }

  /** The decision on the last observation of a trace. */
  function LastDecision(os: seq<Observation>, policy: Policy, sqrt: real -> real): Decision
    requires os != []
  {
    Decide(os[|os| - 1], After(os[..|os| - 1], policy, sqrt), policy, sqrt)
  }

  /** The observations of a trace that were judged and not found suspicious. */
  function Unsuspicious(os: seq<Observation>, policy: Policy, sqrt: real -> real): (us: seq<Observation>)
    ensures forall n :: 0 <= n < |us| ==> Valid(us[n])
  {
    if os == [] then []
    else
      var rest := Unsuspicious(os[..|os| - 1], policy, sqrt);
      var d := LastDecision(os, policy, sqrt);
      if d.Judged? && !d.suspicious then rest + [os[|os| - 1]] else rest
  }

  /** The length of the run of suspicious observations a trace ends with, counting
      judged observations only. */
  function TrailingRun(os: seq<Observation>, policy: Policy, sqrt: real -> real): nat {
    if os == [] then 0
    else
      var d := LastDecision(os, policy, sqrt);
      var before := TrailingRun(os[..|os| - 1], policy, sqrt);
      if d.Skipped? then before else if d.suspicious then before + 1 else 0
  }

  lemma {:induction false} VarianceIsNotNegative(os: seq<Observation>, policy: Policy, sqrt: real -> real)
    ensures After(os, policy, sqrt).stats.variance >= 0.0
  {
    if os != [] {
      var init, alpha := os[..|os| - 1], Normalized(policy).alpha;
      VarianceIsNotNegative(init, policy, sqrt);
      var o, b := os[|os| - 1], After(init, policy, sqrt);
      if Valid(o) { SpreadIsNotNegative(alpha, b.stats.variance, Rate(o) - b.stats.ewma); }
    }
  }

  lemma SpreadIsNotNegative(alpha: real, variance: real, diff: real)
    requires 0.0 <= alpha <= 1.0 && variance >= 0.0
    ensures Spread(alpha, variance, diff) >= 0.0
  {
    assert diff * diff >= 0.0;
    NotNegative(alpha, diff * diff);
    assert alpha * diff * diff == alpha * (diff * diff);
    NotNegative(1.0 - alpha, variance + alpha * diff * diff);
  }

  lemma NotNegative(x: real, y: real)
    requires x >= 0.0 && y >= 0.0
    ensures x * y >= 0.0
  {
  }

  /** What is judged suspicious, given the mean plus so many deviations. A rate that reaches a
      positive hard rate always is. With enough samples, so is a positive rate that reaches the
      minimum and the limit, and short of the hard rate one below either is not. With too few
      samples the minimum alone decides, if it is positive. */
  predicate Lawful(d: Decision, samples: nat, limit: real, p: Policy) {
    && d.Judged?
    && d.threshold == (if samples >= p.minSamples && limit > p.minRate then limit else p.minRate)
    && (p.hardRate > 0.0 && d.rate >= p.hardRate ==> d.suspicious)
    && (samples >= p.minSamples && d.rate >= limit && d.rate >= p.minRate && (limit > 0.0 || p.minRate > 0.0) ==> d.suspicious)
    && (samples >= p.minSamples && (d.rate < limit || d.rate < p.minRate) && (p.hardRate <= 0.0 || d.rate < p.hardRate) ==>
          !d.suspicious)
    && (samples < p.minSamples && (p.hardRate <= 0.0 || d.rate < p.hardRate) ==>
          (d.suspicious <==> p.minRate > 0.0 && d.rate >= p.minRate))
  }

  /** After any trace the law holds of the learned mean and variance. */
  lemma {:induction false} SuspiciousExactly(os: seq<Observation>, o: Observation, p: Policy, sqrt: real -> real)
    requires Complete(p) && Valid(o)
    ensures var s := After(os, p, sqrt).stats;
      Lawful(LastDecision(os + [o], p, sqrt), s.samples, s.ewma + p.sigma * sqrt(s.variance), p)
  {
    assert (os + [o])[..|os|] == os;
    VarianceIsNotNegative(os, p, sqrt);
    DecidesLawfully(o, After(os, p, sqrt), p, sqrt);
  }

  lemma DecidesLawfully(o: Observation, b: Baseline, p: Policy, sqrt: real -> real)
    requires Complete(p) && Valid(o) && b.stats.variance >= 0.0
    ensures Lawful(Decide(o, b, p, sqrt), b.stats.samples, b.stats.ewma + p.sigma * sqrt(b.stats.variance), p)
  {
  }

  /** What a judgement leaves behind after any trace. A suspicious rate is counted and nothing
      is learned from it; any other one ends the count and is learned. The count confirms an
      anomaly when it reaches the policy's number, and the decision says which it is. */
  lemma {:induction false} JudgedExactly(os: seq<Observation>, o: Observation, p: Policy, sqrt: real -> real)
    requires Complete(p) && Valid(o)
    ensures var d, b, c := LastDecision(os + [o], p, sqrt), After(os, p, sqrt), After(os + [o], p, sqrt);
      && d.Judged? && d.action == p.action
      && (d.suspicious ==> c == b.(consecutive := b.consecutive + 1))
      && (!d.suspicious ==> c.consecutive == 0 && c.updatedAt == o.current.at && c.stats.samples == b.stats.samples + 1)
      && (d.confirmed <==> d.suspicious && b.consecutive + 1 >= p.confirmations)
      && (d.reason.ConfirmedAnomaly? <==> d.confirmed)
      && (d.reason.CandidateAnomaly? <==> d.suspicious && !d.confirmed)
      && (d.reason.Normal? <==> !d.suspicious)
  {
    assert (os + [o])[..|os|] == os;
  }

  // ---- exponential averages ----

  function Blend(a: real, x: real, y: real): real {
    Scaled(1.0 - a, x) + Scaled(a, y)
  }

  function Square(x: real): real {
    x * x
  }

  /** The exponential average of some values, seeded with the first. */
  function Average(xs: seq<real>, alpha: real): real {
    if xs == [] then 0.0
    else if |xs| == 1 then xs[0]
    else Blend(alpha, Average(xs[..|xs| - 1], alpha), xs[|xs| - 1])
  }

  function Rates(us: seq<Observation>): (rs: seq<real>)
    requires forall n :: 0 <= n < |us| ==> Valid(us[n])
    ensures |rs| == |us|
  {
    if us == [] then [] else Rates(us[..|us| - 1]) + [Rate(us[|us| - 1])]
  }

  function Squares(xs: seq<real>): (ys: seq<real>)
    ensures |ys| == |xs|
  {
    if xs == [] then [] else Squares(xs[..|xs| - 1]) + [Square(xs[|xs| - 1])]
  }

  lemma AverageSnoc(xs: seq<real>, x: real, alpha: real)
    requires xs != []
    ensures Average(xs + [x], alpha) == Blend(alpha, Average(xs, alpha), x)
  {
    assert (xs + [x])[..|xs|] == xs;
  }

  lemma SquaresSnoc(xs: seq<real>, x: real)
    ensures Squares(xs + [x]) == Squares(xs) + [Square(x)]
  {
    assert (xs + [x])[..|xs|] == xs;
  }

  // ---- the theorems ----

  /** The statistics are a function of the rates alone: mean and mean of squares are their
      exponential averages, and the variance is exactly the difference. */
  ghost predicate Describes(s: Stats, rates: seq<real>, alpha: real) {
    && s.samples == |rates|
    && s.ewma == Average(rates, alpha)
    && s.variance + Square(s.ewma) == Average(Squares(rates), alpha)
  }

  lemma LearnedDescribes(s: Stats, rates: seq<real>, rate: real, alpha: real)
    requires Describes(s, rates, alpha)
    ensures Describes(Learned(s, rate, alpha), rates + [rate], alpha)
  {
    SquaresSnoc(rates, rate);
    if rates == [] {
      assert rates + [rate] == [rate] && Squares(rates) + [Square(rate)] == [Square(rate)];
    } else {
      AverageSnoc(rates, rate, alpha);
      AverageSnoc(Squares(rates), Square(rate), alpha);
      WelfordStep(s.ewma, s.variance, s.variance + Square(s.ewma), rate, alpha);
    }
  }

  /** The variance update is the one that keeps variance + mean^2 an exponential average. */
  lemma WelfordStep(e: real, v: real, s: real, r: real, a: real)
    requires s == v + Square(e)
    ensures e + Scaled(a, r - e) == Blend(a, e, r)
    ensures Spread(a, v, r - e) + Square(e + Scaled(a, r - e)) == Blend(a, s, Square(r))
  {
    WelfordMean(e, r - e, a);
    WelfordSquare(e, v, r - e, a);
    assert e + (r - e) == r;
  }

  lemma WelfordMean(e: real, d: real, a: real)
    ensures e + Scaled(a, d) == Blend(a, e, e + d)
  {
  }

  lemma WelfordSquare(e: real, v: real, d: real, a: real)
    ensures Spread(a, v, d) + Square(e + Scaled(a, d)) == Blend(a, v + Square(e), Square(e + d))
  {
  }

  /** The learned statistics after any trace describe the unsuspicious rates. */
  lemma {:induction false} BaselineDescribesUnsuspiciousRates(os: seq<Observation>, policy: Policy, sqrt: real -> real)
    ensures Describes(After(os, policy, sqrt).stats, Rates(Unsuspicious(os, policy, sqrt)), Normalized(policy).alpha)
  {
    if os != [] {
      var init := os[..|os| - 1];
      BaselineDescribesUnsuspiciousRates(init, policy, sqrt);
      var o := os[|os| - 1];
      var d := LastDecision(os, policy, sqrt);
      if d.Judged? && !d.suspicious {
        var us := Unsuspicious(init, policy, sqrt);
        RatesSnoc(us, o);
        LearnedDescribes(After(init, policy, sqrt).stats, Rates(us), Rate(o), Normalized(policy).alpha);
      }
    }
  }

  lemma RatesSnoc(us: seq<Observation>, o: Observation)
    requires Valid(o) && forall n :: 0 <= n < |us| ==> Valid(us[n])
    ensures Rates(us + [o]) == Rates(us) + [Rate(o)]
  {
    assert (us + [o])[..|us|] == us;
  }

  /** Anomalies leave no trace: had the suspicious and the skipped observations never
      happened, the learned baseline would be the same, and nothing would be suspicious. */
  lemma {:induction false} AnomaliesLeaveNoTrace(os: seq<Observation>, policy: Policy, sqrt: real -> real)
    ensures After(Unsuspicious(os, policy, sqrt), policy, sqrt) == After(os, policy, sqrt).(consecutive := 0)
    ensures Unsuspicious(Unsuspicious(os, policy, sqrt), policy, sqrt) == Unsuspicious(os, policy, sqrt)
  {
    if os != [] {
      var init := os[..|os| - 1];
      AnomaliesLeaveNoTrace(init, policy, sqrt);
      StatsDecide(os[|os| - 1], After(init, policy, sqrt), policy, sqrt);
      var d := LastDecision(os, policy, sqrt);
      if d.Judged? && !d.suspicious { UnsuspiciousSnoc(Unsuspicious(init, policy, sqrt), os[|os| - 1], policy, sqrt); }
    }
  }

  /** Whether an observation is suspicious depends on the learned statistics only. */
  lemma StatsDecide(o: Observation, b: Baseline, policy: Policy, sqrt: real -> real)
    ensures var c := b.(consecutive := 0); var d := Decide(o, b, policy, sqrt); var e := Decide(o, c, policy, sqrt);
      && (d.Judged? <==> e.Judged?) && (d.Judged? ==> (d.suspicious <==> e.suspicious))
      && (if d.Judged? && !d.suspicious
          then NextBaseline(o, c, policy, sqrt) == NextBaseline(o, b, policy, sqrt) && NextBaseline(o, b, policy, sqrt).consecutive == 0
          else NextBaseline(o, b, policy, sqrt).(consecutive := 0) == c)
  {
  }

  lemma UnsuspiciousSnoc(us: seq<Observation>, o: Observation, policy: Policy, sqrt: real -> real)
    requires Unsuspicious(us, policy, sqrt) == us
    requires var d := Decide(o, After(us, policy, sqrt), policy, sqrt); d.Judged? && !d.suspicious
    ensures After(us + [o], policy, sqrt) == NextBaseline(o, After(us, policy, sqrt), policy, sqrt)
    ensures Unsuspicious(us + [o], policy, sqrt) == us + [o]
  {
    assert (us + [o])[..|us|] == us;
  }

  /** A judged observation is confirmed exactly when the run of suspicious observations
      that ends with it is at least as long as the policy asks. */
  lemma {:induction false} ConfirmedExactlyAfterARun(os: seq<Observation>, policy: Policy, sqrt: real -> real)
    requires os != [] && LastDecision(os, policy, sqrt).Judged?
    ensures LastDecision(os, policy, sqrt).confirmed <==> TrailingRun(os, policy, sqrt) >= Normalized(policy).confirmations
  {
    ConsecutiveIsTrailingRun(os, policy, sqrt);
  }

  lemma {:induction false} ConsecutiveIsTrailingRun(os: seq<Observation>, policy: Policy, sqrt: real -> real)
    ensures After(os, policy, sqrt).consecutive == TrailingRun(os, policy, sqrt)
  {
    if os != [] { ConsecutiveIsTrailingRun(os[..|os| - 1], policy, sqrt); }
  }

  ghost predicate Within(xs: seq<real>, m: real) {
    forall n :: 0 <= n < |xs| ==> 0.0 <= xs[n] <= m
  }

  ghost predicate Bounded(s: Stats, m: real) {
    0.0 <= s.ewma <= m && 0.0 <= s.variance <= s.ewma * (m - s.ewma) <= m * m / 4.0
  }

  /** If every learned rate lies in [0, m], so does the mean, and the variance lies
      between 0 and mean * (m - mean), hence below m^2 / 4. */
  lemma {:induction false} VarianceIsBounded(os: seq<Observation>, policy: Policy, sqrt: real -> real, m: real)
    requires m >= 0.0 && Within(Rates(Unsuspicious(os, policy, sqrt)), m)
    ensures Bounded(After(os, policy, sqrt).stats, m)
  {
    BaselineDescribesUnsuspiciousRates(os, policy, sqrt);
    StatsAreBounded(After(os, policy, sqrt).stats, Rates(Unsuspicious(os, policy, sqrt)), Normalized(policy).alpha, m);
  }

  lemma StatsAreBounded(s: Stats, rates: seq<real>, a: real, m: real)
    requires 0.0 < a <= 1.0 && m >= 0.0 && Within(rates, m) && Describes(s, rates, a)
    ensures Bounded(s, m)
  {
    AveragesAreBounded(rates, a, m);
    MomentsBound(s, Average(Squares(rates), a), m);
  }

  lemma MomentsBound(s: Stats, second: real, m: real)
    requires 0.0 <= s.ewma <= m && s.variance + Square(s.ewma) == second
    requires Square(s.ewma) <= second <= Scaled(m, s.ewma)
    ensures Bounded(s, m)
  {
    Quarter(s.ewma, m);
  }

  lemma Quarter(e: real, m: real)
    ensures e * (m - e) <= m * m / 4.0
    ensures e * (m - e) == Scaled(m, e) - Square(e)
  {
    var h := m / 2.0 - e;
    assert h * h >= 0.0;
    assert e * (m - e) == m * m / 4.0 - h * h;
  }

  /** Jensen's inequality for exponential averages, and its converse on [0, m]. */
  lemma {:induction false} AveragesAreBounded(xs: seq<real>, a: real, m: real)
    requires 0.0 < a <= 1.0 && m >= 0.0 && Within(xs, m)
    ensures 0.0 <= Average(xs, a) <= m
    ensures Square(Average(xs, a)) <= Average(Squares(xs), a) <= Scaled(m, Average(xs, a))
  {
    if |xs| == 1 {
      assert Squares(xs) == [Square(xs[0])];
      SquareBelow(xs[0], m);
    } else if xs != [] {
      var init, x := xs[..|xs| - 1], xs[|xs| - 1];
      AveragesAreBounded(init, a, m);
      assert xs == init + [x];
      AverageSnoc(init, x, a);
      SquaresSnoc(init, x);
      AverageSnoc(Squares(init), Square(x), a);
      StepIsBounded(Average(init, a), Average(Squares(init), a), x, a, m);
    }
  }

  lemma StepIsBounded(e: real, s: real, x: real, a: real, m: real)
    requires 0.0 < a <= 1.0 && 0.0 <= e <= m && 0.0 <= x <= m && Square(e) <= s <= Scaled(m, e)
    ensures 0.0 <= Blend(a, e, x) <= m
    ensures Square(Blend(a, e, x)) <= Blend(a, s, Square(x)) <= Scaled(m, Blend(a, e, x))
  {
    BlendMonotone(a, 0.0, e, 0.0, x);
    BlendMonotone(a, e, m, x, m);
    BlendSame(a, 0.0);
    BlendSame(a, m);
    SquareBelow(x, m);
    BlendMonotone(a, s, Scaled(m, e), Square(x), Scaled(m, x));
    BlendScaled(a, m, e, x);
    BlendMonotone(a, Square(e), s, Square(x), Square(x));
    BlendJensen(a, e, x);
  }

  lemma SquareBelow(x: real, m: real)
    requires 0.0 <= x <= m
    ensures Square(x) <= Scaled(m, x)
  {
    Monotone(x, x, m);
    assert Scaled(x, m) == Scaled(m, x);
  }

  lemma BlendSame(a: real, x: real)
    ensures Blend(a, x, x) == x
  {
  }

  lemma BlendMonotone(a: real, x: real, x': real, y: real, y': real)
    requires 0.0 < a <= 1.0 && x <= x' && y <= y'
    ensures Blend(a, x, y) <= Blend(a, x', y')
  {
    Monotone(1.0 - a, x, x');
    Monotone(a, y, y');
  }

  lemma Monotone(k: real, x: real, y: real)
    requires k >= 0.0 && x <= y
    ensures Scaled(k, x) <= Scaled(k, y)
  {
  }

  lemma BlendScaled(a: real, m: real, x: real, y: real)
    ensures Blend(a, Scaled(m, x), Scaled(m, y)) == Scaled(m, Blend(a, x, y))
  {
  }

  /** The square is convex: at the blend it lies above its own tangent. */
  lemma BlendJensen(a: real, x: real, y: real)
    requires 0.0 < a <= 1.0
    ensures Square(Blend(a, x, y)) <= Blend(a, Square(x), Square(y))
  {
    var m := Blend(a, x, y);
    Tangent(m, x);
    Tangent(m, y);
    BlendMonotone(a, TangentAt(m, x), Square(x), TangentAt(m, y), Square(y));
    BlendOfTangents(a, m, x, y);
    assert TangentAt(m, m) == Square(m);
  }

  function TangentAt(m: real, x: real): real {
    Scaled(2.0 * m, x) - Square(m)
  }

  lemma Tangent(m: real, x: real)
    ensures TangentAt(m, x) <= Square(x)
  {
    assert Square(x - m) >= 0.0;
  }

  lemma BlendOfTangents(a: real, m: real, x: real, y: real)
    ensures Blend(a, TangentAt(m, x), TangentAt(m, y)) == TangentAt(m, Blend(a, x, y))
  {
    BlendScaled(a, 2.0 * m, x, y);
  }
}
