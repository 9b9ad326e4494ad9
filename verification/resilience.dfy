/**
  The circuit breaker and the retrier that guard provider calls. Times and durations are
  in nanoseconds; the zero time is 0.
 */
module Resilience {
  import opened ErrorClasses
  import Wrappers

  datatype Mode = Unset | Closed | Open | HalfOpen

  datatype Policy = Policy(baseDelay: int, maxDelay: int, maxAttempts: int, failureThreshold: int, openDuration: int)

  const SECOND: int := 1_000_000_000
  const DEFAULT_POLICY: Policy := Policy(SECOND, 30 * SECOND, 5, 5, 60 * SECOND)

  /** The fields of a circuit. */
  datatype Snapshot = Snapshot(mode: Mode, failures: nat, openedAt: nat)

  const NEW: Snapshot := Snapshot(Unset, 0, 0)

  function Threshold(p: Policy): (t: nat)
    ensures t >= 1
  {
    if p.failureThreshold < 1 then 5 else p.failureThreshold
  }

  // ---- the specification of the circuit ----

  predicate Allows(s: Snapshot, p: Policy, now: nat) {
    !s.mode.Open? || now - s.openedAt >= p.openDuration
  }

  function AfterAllow(s: Snapshot, p: Policy, now: nat): Snapshot {
    if s.mode.Unset? then s.(mode := Closed)
    else if s.mode.Open? && Allows(s, p, now) then s.(mode := HalfOpen)
    else s
  }

  function AfterFailure(s: Snapshot, p: Policy, now: nat): Snapshot {
    if s.failures + 1 >= Threshold(p) || s.mode.HalfOpen? then Snapshot(Open, s.failures + 1, now)
    else s.(failures := s.failures + 1)
  }

  const HEALTHY: Snapshot := Snapshot(Closed, 0, 0)

  class Circuit {
    const policy: Policy
    var mode: Mode
    var failures: nat
    var openedAt: nat

    function State(): Snapshot reads this {
      Snapshot(mode, failures, openedAt)
    }

    constructor (policy: Policy)
      ensures State() == NEW && this.policy == policy
    {
      this.policy := policy;
      mode, failures, openedAt := Unset, 0, 0;
    }

    /** Only an open circuit turns calls away, and only until its open duration is over; the
        call that is let through then finds it half open. */
    method Allow(now: nat) returns (ok: bool)
      modifies this
      ensures ok <==> old(mode) != Open || now - old(openedAt) >= policy.openDuration
      ensures mode == if old(mode) == Unset then Closed else if old(mode) == Open && ok then HalfOpen else old(mode)
      ensures failures == old(failures) && openedAt == old(openedAt)
      ensures ok == Allows(old(State()), policy, now) && State() == AfterAllow(old(State()), policy, now)
    {
      if mode == Unset { mode := Closed; }
      if mode == Open {
        if now - openedAt >= policy.openDuration {
          mode := HalfOpen;
          return true;
        }
        return false;
      }
      return true;
    }

    method Success()
      modifies this
      ensures State() == HEALTHY && mode == Closed && failures == 0 && openedAt == 0
    {
      mode, failures, openedAt := Closed, 0, 0;
    }

    /** The circuit opens at the threshold, five unless the policy says otherwise, or when it
        was half open. */
    method Failure(now: nat)
      modifies this
      ensures failures == old(failures) + 1
      ensures var threshold := if policy.failureThreshold < 1 then 5 else policy.failureThreshold;
        if old(failures) + 1 >= threshold || old(mode) == HalfOpen then mode == Open && openedAt == now
        else mode == old(mode) && openedAt == old(openedAt)
      ensures State() == AfterFailure(old(State()), policy, now)
    {
      failures := failures + 1;
      var threshold := policy.failureThreshold;
      if threshold < 1 { threshold := 5; }
      if failures >= threshold || mode == HalfOpen {
        mode := Open;
        openedAt := now;
      }
    }
  }

  // ---- delays ----

  function Base(p: Policy): int {
    if p.baseDelay <= 0 then SECOND else p.baseDelay
  }

  function Cap(p: Policy): int {
    if p.maxDelay <= 0 then 30 * SECOND else p.maxDelay
  }

  function Doubled(d: int, times: nat): (r: int)
    ensures d > 0 ==> r > 0
  {
    if times == 0 then d else 2 * Doubled(d, times - 1)
  }

  /** Exponential backoff, capped; a base above the cap is used as it is. */
  function DelaySpec(p: Policy, attempt: int): (d: nat)
    ensures d > 0
  {
    if Base(p) >= Cap(p) then Base(p)
    else Wrappers.Min(Cap(p), Doubled(Base(p), if attempt < 1 then 0 else attempt - 1))
  }

  lemma {:induction false} DoubledGrows(d: int, i: nat, n: nat)
    requires i <= n && d >= 0
    ensures 0 <= Doubled(d, i) <= Doubled(d, n)
    decreases n
  {
    if n > 0 {
      DoubledGrows(d, if i < n then i else n - 1, n - 1);
    }
  }

  method Delay(p: Policy, attempt0: int) returns (d: int)
    ensures d == DelaySpec(p, attempt0)
  {
    var attempt := attempt0;
    if attempt < 1 { attempt := 1; }
    d := p.baseDelay;
    if d <= 0 { d := SECOND; }
    var max := p.maxDelay;
    if max <= 0 { max := 30 * SECOND; }
    var i := 1;
    while i < attempt && d < max
      invariant 1 <= i <= attempt && 0 < d
      invariant Base(p) < max ==> d == Wrappers.Min(max, Doubled(Base(p), i - 1))
      invariant Base(p) >= max ==> d == Base(p)
    {
      DoubledGrows(Base(p), i - 1, i);
      d := d * 2;
      if d > max { d := max; }
      i := i + 1;
    }
    DoubledGrows(Base(p), i - 1, attempt - 1);
  }

  function PowerOfTwo(n: nat): nat {
    if n == 0 then 1 else 2 * PowerOfTwo(n - 1)
  }

  lemma {:induction false} DoubledIsPower(d: int, n: nat)
    ensures Doubled(d, n) == d * PowerOfTwo(n)
  {
    if n > 0 {
      DoubledIsPower(d, n - 1);
      TimesTwo(d, PowerOfTwo(n - 1));
    }
  }

  lemma TimesTwo(d: int, n: int)
    ensures 2 * (d * n) == d * (2 * n)
  {
  }

  /** The delay in closed form: the base, which is one second unless the policy sets one,
      doubled n - 1 times, but no more than the cap of thirty seconds or the policy's. */
  lemma DelayInClosedForm(p: Policy, n: nat)
    requires n >= 1
    ensures var base := if p.baseDelay <= 0 then 1_000_000_000 else p.baseDelay;
      var cap := if p.maxDelay <= 0 then 30_000_000_000 else p.maxDelay;
      DelaySpec(p, n) == if base >= cap then base else if base * PowerOfTwo(n - 1) <= cap then base * PowerOfTwo(n - 1) else cap
  {
    DoubledIsPower(Base(p), n - 1);
  }

  /** The default policy waits 1, 2, 4, 8, 16 and from then on 30 seconds. */
  lemma DefaultDelays(n: nat)
    requires n >= 1
    ensures DelaySpec(DEFAULT_POLICY, n) ==
              if n == 1 then 1_000_000_000 else if n == 2 then 2_000_000_000 else if n == 3 then 4_000_000_000
              else if n == 4 then 8_000_000_000 else if n == 5 then 16_000_000_000 else 30_000_000_000
    ensures DEFAULT_POLICY.maxAttempts == 5 && DEFAULT_POLICY.failureThreshold == 5
    ensures DEFAULT_POLICY.openDuration == 60_000_000_000
  {
    DelayInClosedForm(DEFAULT_POLICY, n);
    assert PowerOfTwo(1) == 2 && PowerOfTwo(2) == 4 && PowerOfTwo(3) == 8;
    assert PowerOfTwo(4) == 2 * PowerOfTwo(3) && PowerOfTwo(5) == 2 * PowerOfTwo(4);
    if n > 6 { PowersGrow(5, n - 1); }
  }

  lemma {:induction false} PowersGrow(m: nat, n: nat)
    requires m <= n
    ensures PowerOfTwo(m) <= PowerOfTwo(n)
    decreases n
  {
    if m < n { PowersGrow(m, n - 1); }
  }

  // ---- one caller ----

  datatype Answer = Fine | Failing(class_: ErrorClass)

  /** One turn of a caller: it comes after `wait`, and if it is let through, its call takes
      `took` and ends with `answer`. */
  datatype Attempt = Attempt(wait: nat, took: nat, answer: Answer)

  /** A caller in front of a circuit: the clock, and since when there was no success. */
  datatype Line = Line(circuit: Snapshot, clock: nat, since: nat)

  /** The caller's attempt `a` is let through. */
  predicate LetThrough(l: Line, p: Policy, a: Attempt) {
    Allows(l.circuit, p, l.clock + a.wait)
  }

  function AfterAttempt(l: Line, p: Policy, a: Attempt): Line {
    var before := l.clock + a.wait;
    var allowed := AfterAllow(l.circuit, p, before);
    if !LetThrough(l, p, a) then Line(allowed, before, l.since)
    else if a.answer.Fine? then Line(HEALTHY, before + a.took, before + a.took)
    else if a.answer.class_.Permanent? then Line(allowed, before + a.took, l.since)
    else Line(AfterFailure(allowed, p, before + a.took), before + a.took, l.since)
  }

  function After(p: Policy, as_: seq<Attempt>): Line {
    if as_ == [] then Line(NEW, 0, 0) else AfterAttempt(After(p, as_[..|as_| - 1]), p, as_[|as_| - 1])
  }

  // ---- the theorems ----

  predicate Tripped(s: Snapshot) {
    s.mode.Open? || s.mode.HalfOpen?
  }

  ghost predicate LineOk(l: Line, p: Policy) {
    && (Tripped(l.circuit) <==> l.circuit.failures >= Threshold(p))
    && l.since <= l.clock
    && (Tripped(l.circuit) ==>
          l.since <= l.circuit.openedAt <= l.clock
          && (l.circuit.failures - Threshold(p)) * p.openDuration <= l.circuit.openedAt - l.since)
    && (l.circuit.mode.HalfOpen? ==> p.openDuration <= l.clock - l.circuit.openedAt)
  }

  lemma AttemptOk(l: Line, p: Policy, a: Attempt)
    requires LineOk(l, p)
    ensures LineOk(AfterAttempt(l, p, a), p)
  {
    var s := l.circuit;
    if Tripped(s) {
      OneMorePeriod(s.failures - Threshold(p), p.openDuration);
    }
  }

  lemma OneMorePeriod(n: int, d: int)
    ensures (n + 1) * d == n * d + d && 0 * d == 0
  {
  }

  lemma {:induction false} AfterOk(p: Policy, as_: seq<Attempt>)
    ensures LineOk(After(p, as_), p)
  {
    if as_ != [] {
      AfterOk(p, as_[..|as_| - 1]);
      AttemptOk(After(p, as_[..|as_| - 1]), p, as_[|as_| - 1]);
    }
  }

  /** Beyond the threshold at most one failure per open duration since the last success. */
  ghost predicate Rationed(l: Line, p: Policy) {
    (l.circuit.failures - Threshold(p)) * p.openDuration <= l.clock - l.since
  }

  lemma LineIsRationed(l: Line, p: Policy)
    requires LineOk(l, p) && p.openDuration >= 0
    ensures Rationed(l, p)
  {
    if !Tripped(l.circuit) { NotPositive(l.circuit.failures - Threshold(p), p.openDuration); }
  }

  lemma NotPositive(n: int, d: int)
    requires n <= 0 <= d
    ensures n * d <= 0
  {
  }

  /** For one caller, however it times its calls and whatever they answer: the circuit is
      open or half open exactly when the failures since the last success have reached the
      threshold, and they outnumber it by at most one per open period since then. */
  lemma {:induction false} FailuresAreRationed(p: Policy, as_: seq<Attempt>)
    ensures var l := After(p, as_);
      && (l.circuit.mode.Open? || l.circuit.mode.HalfOpen? <==> l.circuit.failures >= Threshold(p))
      && (p.openDuration >= 0 ==> Rationed(l, p))
  {
    AfterOk(p, as_);
    if p.openDuration >= 0 { LineIsRationed(After(p, as_), p); }
  }

  /** After any history, an attempt is turned away exactly when the circuit is open and its
      open duration is not over; it then changes nothing but the clock. */
  lemma {:induction false} TurnedAwayExactly(p: Policy, as_: seq<Attempt>, a: Attempt)
    ensures var l := After(p, as_);
      !LetThrough(l, p, a) <==> l.circuit.mode.Open? && l.clock + a.wait < l.circuit.openedAt + p.openDuration
    ensures var l := After(p, as_);
      !LetThrough(l, p, a) ==> After(p, as_ + [a]) == l.(clock := l.clock + a.wait)
  {
    assert (as_ + [a])[..|as_|] == as_;
  }

  /** After any history, a call that comes when the open duration is over is let through. If it
      succeeds the circuit is closed and its failures are forgotten, and if it fails for good
      they stay. If it fails otherwise they count one more, and the circuit is open from then
      on exactly when the failures have reached the threshold. */
  lemma {:induction false} CallsCount(p: Policy, as_: seq<Attempt>, a: Attempt)
    requires a.wait >= p.openDuration
    ensures LetThrough(After(p, as_), p, a)
    ensures var l, m := After(p, as_), After(p, as_ + [a]);
      match a.answer
      case Fine => m.circuit == Snapshot(Closed, 0, 0)
      case Failing(Permanent) => m.circuit.failures == l.circuit.failures && !m.circuit.mode.Open?
      case _ =>
        && m.circuit.failures == l.circuit.failures + 1
        && if m.circuit.failures >= (if p.failureThreshold < 1 then 5 else p.failureThreshold)
           then m.circuit.mode.Open? && m.circuit.openedAt == m.clock else m.circuit.mode.Closed?
  {
    AfterOk(p, as_);
    AfterOk(p, as_ + [a]);
    assert (as_ + [a])[..|as_|] == as_;
  }

  // ---- several callers ----

  /** One of several callers asks the circuit, or a call that was let through ends. */
  datatype CallerEvent = Ask(wait: nat) | Reply(wait: nat, answer: Answer)

  datatype Crowd = Crowd(line: Line, inFlight: nat)

  const QUIET: Crowd := Crowd(Line(NEW, 0, 0), 0)

  function Answered(l: Line, p: Policy, now: nat, answer: Answer): Line {
    if answer.Fine? then Line(HEALTHY, now, now)
    else if answer.class_.Permanent? then l.(clock := now)
    else Line(AfterFailure(l.circuit, p, now), now, l.since)
  }

  /** With at most `callers` calls in flight; an event that does not fit changes nothing. */
  function AfterEvent(c: Crowd, p: Policy, callers: nat, e: CallerEvent): Crowd {
    var now := c.line.clock + e.wait;
    match e
    case Ask(_) =>
      if c.inFlight >= callers then c
      else Crowd(Line(AfterAllow(c.line.circuit, p, now), now, c.line.since),
                 if Allows(c.line.circuit, p, now) then c.inFlight + 1 else c.inFlight)
    case Reply(_, answer) =>
      if c.inFlight == 0 then c else Crowd(Answered(c.line, p, now, answer), c.inFlight - 1)
  }

  function CrowdAfter(p: Policy, callers: nat, es: seq<CallerEvent>): Crowd {
    if es == [] then QUIET else AfterEvent(CrowdAfter(p, callers, es[..|es| - 1]), p, callers, es[|es| - 1])
  }

  /** The bound holds over all runs exactly when no two calls are ever in flight at once. */
  lemma BoundHoldsExactlyForOneCaller(p: Policy, callers: nat)
    requires p.openDuration > 0
    ensures (forall es :: Rationed(CrowdAfter(p, callers, es).line, p)) <==> callers <= 1
  {
    if callers <= 1 {
      forall es ensures Rationed(CrowdAfter(p, callers, es).line, p) {
        CrowdOk(p, callers, es);
        LineIsRationed(CrowdAfter(p, callers, es).line, p);
      }
    } else {
      TwoCallersExceedTheBound(p, callers);
    }
  }

  /** While the one call is in flight the circuit is not open. */
  ghost predicate OneInFlight(c: Crowd, p: Policy) {
    LineOk(c.line, p) && c.inFlight <= 1 && (c.inFlight == 1 ==> c.line.circuit.mode.Closed? || c.line.circuit.mode.HalfOpen?)
  }

  lemma {:induction false} CrowdOk(p: Policy, callers: nat, es: seq<CallerEvent>)
    requires callers <= 1
    ensures OneInFlight(CrowdAfter(p, callers, es), p)
  {
    if es != [] {
      CrowdOk(p, callers, es[..|es| - 1]);
      CrowdStep(CrowdAfter(p, callers, es[..|es| - 1]), p, callers, es[|es| - 1]);
    }
  }

  lemma CrowdStep(c: Crowd, p: Policy, callers: nat, e: CallerEvent)
    requires OneInFlight(c, p) && callers <= 1
    ensures OneInFlight(AfterEvent(c, p, callers, e), p)
  {
    if Tripped(c.line.circuit) {
      OneMorePeriod(c.line.circuit.failures - Threshold(p), p.openDuration);
    }
  }

  /** `n` calls, one after the other, that all fail at once. */
  function Failures(n: nat): seq<CallerEvent> {
    if n == 0 then [] else Failures(n - 1) + [Ask(0), Reply(0, Failing(Retryable))]
  }

  /** One failure short of the threshold, two callers are let through and both fail. */
  function TooMany(p: Policy): seq<CallerEvent> {
    Failures(Threshold(p) - 1) + [Ask(0), Ask(0)] + [Reply(0, Failing(Retryable)), Reply(0, Failing(Retryable))]
  }

  /** With two callers the bound fails, under every policy that ever closes the circuit
      again: both are let through before either has failed. */
  lemma TwoCallersExceedTheBound(p: Policy, callers: nat)
    requires p.openDuration > 0 && callers >= 2
    ensures CrowdAfter(p, callers, TooMany(p)).line.circuit.failures == Threshold(p) + 1
    ensures CrowdAfter(p, callers, TooMany(p)).line.clock == CrowdAfter(p, callers, TooMany(p)).line.since
    ensures !Rationed(CrowdAfter(p, callers, TooMany(p)).line, p)
  {
    var t := Threshold(p);
    var warm := Failures(t - 1);
    FailuresAdd(p, callers, t - 1);
    CrowdTwo(p, callers, warm, Ask(0), Ask(0));
    CrowdTwo(p, callers, warm + [Ask(0), Ask(0)], Reply(0, Failing(Retryable)), Reply(0, Failing(Retryable)));
    OneMorePeriod(0, p.openDuration);
  }

  lemma CrowdTwo(p: Policy, callers: nat, es: seq<CallerEvent>, d: CallerEvent, e: CallerEvent)
    ensures CrowdAfter(p, callers, es + [d, e]) == AfterEvent(AfterEvent(CrowdAfter(p, callers, es), p, callers, d), p, callers, e)
  {
    assert (es + [d, e])[..|es| + 1] == es + [d];
    assert (es + [d])[..|es|] == es;
  }

  lemma {:induction false} FailuresAdd(p: Policy, callers: nat, n: nat)
    requires n < Threshold(p) && callers >= 1
    ensures CrowdAfter(p, callers, Failures(n)) == Crowd(Line(Snapshot(if n == 0 then Unset else Closed, n, 0), 0, 0), 0)
  {
    if n > 0 {
      FailuresAdd(p, callers, n - 1);
      CrowdTwo(p, callers, Failures(n - 1), Ask(0), Reply(0, Failing(Retryable)));
    }
  }

  // ---- the retrier ----

  datatype Result = Done | Refused | Failed(class_: ErrorClass) | Cancelled

  /** How the n-th call of the function answers and how long it takes, and how long the
      pause after it is beyond the policy's delay, unless the context ends first. */
  datatype Reaction = Reaction(answer: Answer, took: nat, pause: nat, ends: bool)

  /** The attempts of a retrier: the first comes at once, any later one after at least the
      policy's delay. */
  function AttemptAt(p: Policy, w: seq<Reaction>, n: nat): Attempt
    requires n < |w|
  {
    Attempt(if n == 0 then 0 else DelaySpec(p, n) + w[n - 1].pause, w[n].took, w[n].answer)
  }

  /** The retrier's guard: the policy of its circuit, if it has one. */
  type Guard = Wrappers.Option<Policy>

  /** Without a circuit every attempt is let through and nothing is counted. */
  predicate Admitted(l: Line, guard: Guard, a: Attempt) {
    guard.None? || LetThrough(l, guard.value, a)
  }

  function Tried(l: Line, guard: Guard, a: Attempt): Line {
    if guard.None? then l.(clock := l.clock + a.wait + a.took) else AfterAttempt(l, guard.value, a)
  }

  /** The caller after the first `n` attempts of a retrier. */
  function Reached(l: Line, guard: Guard, p: Policy, w: seq<Reaction>, n: nat): Line
    requires n <= |w|
  {
    if n == 0 then l else Tried(Reached(l, guard, p, w, n - 1), guard, AttemptAt(p, w, n - 1))
  }

  /** Attempt `n` was let through. */
  predicate Called(l: Line, guard: Guard, p: Policy, w: seq<Reaction>, n: nat)
    requires n < |w|
  {
    Admitted(Reached(l, guard, p, w, n), guard, AttemptAt(p, w, n))
  }

  predicate Transient(answer: Answer) {
    answer.Failing? && !answer.class_.Permanent?
  }

  /** Attempt `n` was let through, failed transiently, and the retrier went on. */
  predicate WentOn(l: Line, guard: Guard, p: Policy, w: seq<Reaction>, n: nat)
    requires n < |w|
  {
    Called(l, guard, p, w, n) && Transient(w[n].answer) && !w[n].ends
  }

  function Effective(p: Policy): (q: Policy)
    ensures q.maxAttempts >= 1
  {
    if p.maxAttempts < 1 then DEFAULT_POLICY else p
  }

  /** How a retrier that made `n` attempts may have ended. */
  predicate Ended(l: Line, guard: Guard, p: Policy, w: seq<Reaction>, n: nat, result: Result)
    requires 0 < n <= |w|
  {
    var k := n - 1;
    if !Called(l, guard, p, w, k) then result == Refused
    else if w[k].answer.Fine? then result == Done
    else if w[k].answer.class_.Permanent? || n == p.maxAttempts then result == Failed(w[k].answer.class_)
    else w[k].ends && result == Cancelled
  }

  /** Attempts at these times: each comes after the one before it, the policy's delay and the
      pause beyond that. */
  ghost predicate Paced(at: seq<int>, p: Policy, w: seq<Reaction>) {
    match |at| <= |w|
    case false => false
    case true => forall k :: 0 < k < |at| ==> at[k] == at[k - 1] + w[k - 1].took + DelaySpec(p, k) + w[k - 1].pause
  }

  lemma PacedSnoc(at: seq<int>, p: Policy, w: seq<Reaction>, t: int)
    requires Paced(at, p, w) && 0 < |at| < |w|
    requires var k := |at|; t == at[k - 1] + w[k - 1].took + DelaySpec(p, k) + w[k - 1].pause
    ensures Paced(at + [t], p, w)
  {
  }

  function GuardOf(circuit: Circuit?): Guard {
    if circuit == null then Wrappers.None else Wrappers.Some(circuit.policy)
  }

  /** The retry loop, in front of a circuit if there is one. It makes `n` attempts, never more than the
      policy's; all but the last were let through and failed transiently; the result says
      how the last one ended; and the circuit is as those attempts leave it. Attempt k + 1 comes after
      attempt k, its delay and the pause beyond it. */
  method Do(policy: Policy, circuit: Circuit?, w: seq<Reaction>, start: nat, ghost line: Line)
    returns (result: Result, ghost n: nat, ghost at: seq<int>)
    requires (circuit != null ==> line.circuit == circuit.State()) && line.clock == start && Effective(policy).maxAttempts <= |w|
    modifies circuit
    ensures 1 <= n <= Effective(policy).maxAttempts
    ensures |at| == n && at[0] == start
    ensures Paced(at, Effective(policy), w)
    ensures circuit != null ==> circuit.State() == Reached(line, GuardOf(circuit), Effective(policy), w, n).circuit
    ensures forall k :: 0 <= k < n - 1 ==> WentOn(line, GuardOf(circuit), Effective(policy), w, k)
    ensures Ended(line, GuardOf(circuit), Effective(policy), w, n, result)
  {
    var p := policy;
    if p.maxAttempts < 1 { p := DEFAULT_POLICY; }
    result, n, at := Loop(p, circuit, w, start, line);
  }

  method Loop(p: Policy, circuit: Circuit?, w: seq<Reaction>, start: nat, ghost line: Line)
    returns (result: Result, ghost n: nat, ghost at: seq<int>)
    requires (circuit != null ==> line.circuit == circuit.State()) && line.clock == start && 1 <= p.maxAttempts <= |w|
    modifies circuit
    ensures 1 <= n <= p.maxAttempts
    ensures |at| == n && at[0] == start
    ensures Paced(at, p, w)
    ensures circuit != null ==> circuit.State() == Reached(line, GuardOf(circuit), p, w, n).circuit
    ensures forall k :: 0 <= k < n - 1 ==> WentOn(line, GuardOf(circuit), p, w, k)
    ensures Ended(line, GuardOf(circuit), p, w, n, result)
  {
    var now := start;
    at := [now];
    for attempt := 1 to p.maxAttempts + 1
      invariant attempt <= p.maxAttempts
      invariant |at| == attempt && at[0] == start && at[attempt - 1] == now
      invariant Paced(at, p, w)
      invariant circuit != null ==> circuit.State() == Reached(line, GuardOf(circuit), p, w, attempt - 1).circuit
      invariant now == Reached(line, GuardOf(circuit), p, w, attempt - 1).clock + AttemptAt(p, w, attempt - 1).wait
      invariant forall k :: 0 <= k < attempt - 1 ==> WentOn(line, GuardOf(circuit), p, w, k)
    {
      ghost var before := Reached(line, GuardOf(circuit), p, w, attempt - 1);
      var over, next := TryOnce(p, circuit, w[attempt - 1], now, attempt, AttemptAt(p, w, attempt - 1), before);
      if over.Some? { return over.value, attempt, at; }
      now := next;
      PacedSnoc(at, p, w, now);
      at := at + [now];
    }
  }

  /** The body of the loop: one turn, and the pause unless the retrier is done. */
  method TryOnce(p: Policy, circuit: Circuit?, reply: Reaction, now: nat, attempt: nat, ghost a: Attempt, ghost line: Line)
    returns (over: Wrappers.Option<Result>, next: nat)
    requires circuit != null ==> line.circuit == circuit.State()
    requires now == line.clock + a.wait && a.took == reply.took && a.answer == reply.answer && 1 <= attempt <= p.maxAttempts
    modifies circuit
    ensures circuit != null ==> circuit.State() == Tried(line, GuardOf(circuit), a).circuit
    ensures over == if !Admitted(line, GuardOf(circuit), a) then Wrappers.Some(Refused)
                    else if reply.answer.Fine? then Wrappers.Some(Done)
                    else if reply.answer.class_.Permanent? || attempt == p.maxAttempts then Wrappers.Some(Failed(reply.answer.class_))
                    else if reply.ends then Wrappers.Some(Cancelled) else Wrappers.None
    ensures over.None? ==>
              next == now + reply.took + DelaySpec(p, attempt) + reply.pause
              && next == Tried(line, GuardOf(circuit), a).clock + DelaySpec(p, attempt) + reply.pause
  {
    var ok, later := Turn(circuit, now, reply.took, reply.answer, a, line);
    next := later;
    if !ok { return Wrappers.Some(Refused), next; }
    if reply.answer.Fine? { return Wrappers.Some(Done), next; }
    if reply.answer.class_.Permanent? || attempt == p.maxAttempts { return Wrappers.Some(Failed(reply.answer.class_)), next; }
    var delay := Delay(p, attempt);
    if reply.ends { return Wrappers.Some(Cancelled), next; }
    over, next := Wrappers.None, later + delay + reply.pause;
  }

  /** One turn of the loop up to the pause: ask the circuit, call, and tell the circuit. */
  method Turn(circuit: Circuit?, now: nat, took: nat, answer: Answer, ghost a: Attempt, ghost line: Line)
    returns (ok: bool, later: nat)
    requires circuit != null ==> line.circuit == circuit.State()
    requires now == line.clock + a.wait && a.took == took && a.answer == answer
    modifies circuit
    ensures ok == Admitted(line, GuardOf(circuit), a)
    ensures circuit != null ==> circuit.State() == Tried(line, GuardOf(circuit), a).circuit
    ensures later == Tried(line, GuardOf(circuit), a).clock && (ok ==> later == now + took)
  {
    if circuit != null {
      ok := circuit.Allow(now);
      if !ok { return ok, now; }
    }
    ok, later := true, now + took;
    if answer.Fine? {
      if circuit != null { circuit.Success(); }
    } else if !answer.class_.Permanent? {
      if circuit != null { circuit.Failure(later); }
    }
  }

  /** Series of retried calls are rationed too: each one leaves the circuit within the
      bound it was found in. */
  lemma {:induction false} RetriesAreRationed(l: Line, circuit: Policy, p: Policy, w: seq<Reaction>, n: nat)
    requires LineOk(l, circuit) && n <= |w|
    ensures LineOk(Reached(l, Wrappers.Some(circuit), p, w, n), circuit)
  {
    if n > 0 {
      RetriesAreRationed(l, circuit, p, w, n - 1);
      AttemptOk(Reached(l, Wrappers.Some(circuit), p, w, n - 1), circuit, AttemptAt(p, w, n - 1));
    }
  }
}
