/** src/acp/domain/retry.py: whether a failed attempt earns another one, and after how long.
    Delays are seconds, as reals; the random source is two draws from the unit interval. */
module Retry {
  import opened Wrappers

  datatype FailureClass =
    | Transient | RateLimited | Timeout | DependencyUnavailable | LostWorker
    | Permanent | UserError | PermissionDenied | Unknown

  datatype RetryPolicy = RetryPolicy(retryable: bool, base: real, cap: real, attemptCap: Option<nat>)

  function PolicyOf(c: FailureClass): RetryPolicy {
    match c
    case Transient => RetryPolicy(true, 1.0, 60.0, None)
    case RateLimited => RetryPolicy(true, 5.0, 300.0, None)
    case Timeout => RetryPolicy(true, 2.0, 120.0, None)
    case DependencyUnavailable => RetryPolicy(true, 5.0, 300.0, None)
    case LostWorker => RetryPolicy(true, 0.0, 0.0, None)
    case Permanent => RetryPolicy(false, 1.0, 60.0, None)
    case UserError => RetryPolicy(false, 1.0, 60.0, None)
    case PermissionDenied => RetryPolicy(false, 1.0, 60.0, None)
    case Unknown => RetryPolicy(true, 2.0, 60.0, Some(2))
  }

  type Unit = u: real | 0.0 <= u <= 1.0 witness 0.0

  /** `rng.uniform(0.0, top)`. */
  function Uniform(u: Unit, top: real): real {
    u * top
  }

  function Min(a: real, b: real): real {
    if a < b then a else b
  }

  function Max(a: real, b: real): real {
    if a < b then b else a
  }

  function Power2(n: nat): real {
    Pow(2, n) as real
  }

  /** The pre-jitter interval. The exponent stops at zero for attempt 0. */
  function Ceiling(c: FailureClass, attempt: nat): real {
    var p := PolicyOf(c);
    Min(p.cap, p.base * Power2(if attempt > 0 then attempt - 1 else 0))
  }

  function Backoff(c: FailureClass, attempt: nat, retryAfter: Option<real>, u: Unit, v: Unit): real {
    var ceiling := Ceiling(c, attempt);
    var jittered := if ceiling > 0.0 then Uniform(u, ceiling) else 0.0;
    if retryAfter.Some? then retryAfter.value + Uniform(v, Max(1.0, PolicyOf(c).base)) else jittered
  }

  datatype Reason = NotRetryable | MaxAttemptsExhausted | AttemptCapReached | RetryAfter
  datatype RetryDecision = RetryDecision(shouldRetry: bool, backoff: real, reason: Reason)

  function Decide(c: FailureClass, attempt: nat, maxAttempts: nat, retryAfter: Option<real>, u: Unit, v: Unit)
    : RetryDecision
  {
    var p := PolicyOf(c);
    if !p.retryable then RetryDecision(false, 0.0, NotRetryable)
    else if attempt >= maxAttempts then RetryDecision(false, 0.0, MaxAttemptsExhausted)
    else if p.attemptCap.Some? && attempt >= p.attemptCap.value then RetryDecision(false, 0.0, AttemptCapReached)
    else RetryDecision(true, Backoff(c, attempt, retryAfter, u, v), RetryAfter)
  }

  lemma {:induction false} Power2Positive(n: nat)
    ensures Power2(n) >= 1.0 && Power2(n + 1) == 2.0 * Power2(n)
  {
    if n == 0 {
    } else {
      Power2Positive(n - 1);
    }
    assert Pow(2, n + 1) == 2 * Pow(2, n);
  }

  lemma UniformInRange(u: Unit, top: real)
    requires top >= 0.0
    ensures 0.0 <= Uniform(u, top) <= top
  {
    assert u * top <= 1.0 * top;
  }

  lemma CeilingRange(c: FailureClass, attempt: nat)
    ensures 0.0 <= Ceiling(c, attempt) <= PolicyOf(c).cap
    ensures attempt > 0 ==> Ceiling(c, attempt) <= PolicyOf(c).base * Power2(attempt - 1)
  {
    Power2Positive(if attempt > 0 then attempt - 1 else 0);
  }

  /** Full jitter without a server hint; with one, the hint is a floor and the jitter sits on top. */
  lemma BackoffRange(c: FailureClass, attempt: nat, retryAfter: Option<real>, u: Unit, v: Unit)
    ensures var delay := Backoff(c, attempt, retryAfter, u, v);
      match retryAfter
      case None => 0.0 <= delay <= Ceiling(c, attempt)
      case Some(hint) => hint <= delay <= hint + Max(1.0, PolicyOf(c).base)
  {
    CeilingRange(c, attempt);
    UniformInRange(u, Ceiling(c, attempt));
    UniformInRange(v, Max(1.0, PolicyOf(c).base));
  }

  /** Later attempts never have a lower ceiling. */
  lemma {:induction false} CeilingMonotone(c: FailureClass, a: nat, b: nat)
    requires a <= b
    ensures Ceiling(c, a) <= Ceiling(c, b)
    decreases b - a
  {
    if a == b {
    } else {
      CeilingMonotone(c, a, b - 1);
      if b > 1 {
        Power2Positive(b - 2);
        var base := PolicyOf(c).base;
        assert Power2(b - 1) == 2.0 * Power2(b - 2);
        assert base * Power2(b - 2) >= 0.0;
        assert base * Power2(b - 1) == 2.0 * (base * Power2(b - 2));
      }
    }
  }

  /** The delays a task may be given by its first n retries of one class. */
  function TotalCeiling(c: FailureClass, n: nat): real {
    if n == 0 then 0.0 else TotalCeiling(c, n - 1) + Ceiling(c, n)
  }

  /** n retries of one class are delayed by at most n caps, and by at most a doubling series. */
  lemma {:induction false} TotalCeilingBound(c: FailureClass, n: nat)
    ensures var p := PolicyOf(c);
            TotalCeiling(c, n) <= Min(n as real * p.cap, p.base * (Power2(n) - 1.0))
  {
    var p := PolicyOf(c);
    if n == 0 {
      assert p.base * (Power2(0) - 1.0) == 0.0;
    } else {
      TotalCeilingBound(c, n - 1);
      CeilingRange(c, n);
      assert (n - 1) as real * p.cap + p.cap == n as real * p.cap;
      assert p.base * (Power2(n - 1) - 1.0) + p.base * Power2(n - 1) == p.base * (2.0 * Power2(n - 1) - 1.0);
    }
  }

  /** What the retries of one task were actually delayed by: draw k belongs to attempt k + 1. */
  function TotalDelay(c: FailureClass, draws: seq<Unit>): real {
    if draws == [] then 0.0 else
      var n := |draws|;
      TotalDelay(c, draws[..n - 1]) + Backoff(c, n, None, draws[n - 1], draws[n - 1])
  }

  /** Whatever the draws, n same-class retries wait at most min(n * cap, base * (2^n - 1)) in total. */
  lemma {:induction false} TotalDelayBound(c: FailureClass, draws: seq<Unit>)
    ensures var p := PolicyOf(c); var n := |draws|;
            0.0 <= TotalDelay(c, draws) <= Min(n as real * p.cap, p.base * (Power2(n) - 1.0))
  {
    TotalDelayUnderCeiling(c, draws);
    TotalCeilingBound(c, |draws|);
  }

  lemma {:induction false} TotalDelayUnderCeiling(c: FailureClass, draws: seq<Unit>)
    ensures 0.0 <= TotalDelay(c, draws) <= TotalCeiling(c, |draws|)
  {
    if draws == [] {
    } else {
      var n := |draws|;
      TotalDelayUnderCeiling(c, draws[..n - 1]);
      BackoffRange(c, n, None, draws[n - 1], draws[n - 1]);
    }
  }

  /** A retry is granted exactly to a retryable class within both budgets, and a refusal names the first
      condition that failed. */
  lemma DecideMeaning(c: FailureClass, attempt: nat, maxAttempts: nat, retryAfter: Option<real>, u: Unit, v: Unit)
    ensures var d := Decide(c, attempt, maxAttempts, retryAfter, u, v);
      && (d.shouldRetry <==> c !in {Permanent, UserError, PermissionDenied} && attempt < maxAttempts && (c == Unknown ==> attempt < 2))
      && (d.reason == NotRetryable <==> c in {Permanent, UserError, PermissionDenied})
      && (d.reason == MaxAttemptsExhausted <==> c !in {Permanent, UserError, PermissionDenied} && attempt >= maxAttempts)
      && (d.reason == AttemptCapReached <==> c == Unknown && 2 <= attempt < maxAttempts)
      && d.backoff == (if d.shouldRetry then Backoff(c, attempt, retryAfter, u, v) else 0.0)
      && (d.shouldRetry && retryAfter.None? ==> 0.0 <= d.backoff <= Ceiling(c, attempt))
      && (d.shouldRetry && retryAfter.Some? ==> d.backoff >= retryAfter.value)
  {
    BackoffRange(c, attempt, retryAfter, u, v);
  }

  // ---- the numbers ------------------------------------------------------------------------------------

  /** First interval and cap of each class, in seconds. */
  predicate HasIntervals(c: FailureClass, first: real, cap: real) {
    match c
    case Timeout => first == 2.0 && cap == 120.0
    case RateLimited => first == 5.0 && cap == 300.0
    case DependencyUnavailable => first == 5.0 && cap == 300.0
    case LostWorker => first == 0.0 && cap == 0.0
    case Unknown => first == 2.0 && cap == 60.0
    case Transient => first == 1.0 && cap == 60.0
    case Permanent => first == 1.0 && cap == 60.0
    case UserError => first == 1.0 && cap == 60.0
    case PermissionDenied => first == 1.0 && cap == 60.0
  }

  /** The interval before jitter starts at the class's first interval and doubles with each attempt until
      it reaches the cap. */
  lemma CeilingDoubles(c: FailureClass, first: real, cap: real, n: nat)
    requires HasIntervals(c, first, cap) && n >= 1
    ensures Ceiling(c, 1) == first && Ceiling(c, 0) == first
    ensures Ceiling(c, n + 1) == if 2.0 * Ceiling(c, n) < cap then 2.0 * Ceiling(c, n) else cap
  {
    Power2Positive(n - 1);
    FirstPower();
    Doubles(first, cap, Power2(n - 1));
  }

  lemma FirstPower()
    ensures Power2(0) == 1.0
  {}

  lemma Doubles(first: real, cap: real, power: real)
    requires 0.0 <= first && 0.0 <= cap
    ensures Min(cap, first * (2.0 * power)) == Min(cap, 2.0 * Min(cap, first * power))
  {
    assert first * (2.0 * power) == 2.0 * (first * power);
  }

  /** Full jitter: without a hint the delays a draw can give are exactly the interval from nothing up to
      the doubled one, cut at the cap. */
  lemma DelayPossibleIff(c: FailureClass, first: real, cap: real, n: nat, v: Unit, delay: real)
    requires HasIntervals(c, first, cap) && n >= 1
    ensures (exists u: Unit :: Backoff(c, n, None, u, v) == delay)
            <==> 0.0 <= delay && delay <= cap && delay <= first * Power2(n - 1)
  {
    var top := Min(cap, first * Power2(n - 1));
    assert Ceiling(c, n) == top;
    if u: Unit :| Backoff(c, n, None, u, v) == delay {
      BackoffRange(c, n, None, u, v);
    }
    if 0.0 <= delay <= top {
      var u := Draw(delay, top);
      assert Backoff(c, n, None, u, v) == delay;
    }
  }

  /** The draw that gives a part of an interval. */
  function Draw(part: real, top: real): (u: Unit)
    requires 0.0 <= part <= top
    ensures Uniform(u, top) == part
  {
    if top == 0.0 then 0.0 else
      assert part / top <= 1.0;
      part / top
  }

  /** With a hint the hint is the floor, and the delays are exactly the second, or the first interval when
      that is longer, after it. */
  lemma HintedDelayPossibleIff(c: FailureClass, first: real, cap: real, n: nat, hint: real, u: Unit, delay: real)
    requires HasIntervals(c, first, cap)
    ensures (exists v: Unit :: Backoff(c, n, Some(hint), u, v) == delay)
            <==> hint <= delay && (delay <= hint + 1.0 || delay <= hint + first)
  {
    var top := Max(1.0, first);
    if v: Unit :| Backoff(c, n, Some(hint), u, v) == delay {
      BackoffRange(c, n, Some(hint), u, v);
    }
    if hint <= delay <= hint + top {
      var v := Draw(delay - hint, top);
      assert Backoff(c, n, Some(hint), u, v) == delay;
    }
  }
}
