/** The autopilot's decision loop: retries with exponential backoff, limited by an
    error counter that outlives the decision. The control process, the pod and the
    controller's context are arbitrary. */
module Retry {

  const SECOND: int := 1_000_000_000
  const MIN_RETRY_DELAY: int := 2 * SECOND
  const MAX_RETRY_DELAY: int := 30 * SECOND
  const DEFAULT_MAX_ERRORS: int := 3
  const TWO_63: int := 0x8000_0000_0000_0000
  const TWO_64: int := 0x1_0000_0000_0000_0000

  function Pow2(n: nat): nat {
    if n == 0 then 1 else 2 * Pow2(n - 1)
  }

  /** Two's-complement truncation to 64 bits. */
  function Wrap64(x: int): int {
    (x + TWO_63) % TWO_64 - TWO_63
  }

  /** GetRetryDelay as the machine computes it: a 64-bit shift, a 64-bit product,
      then the cap. */
  function RetryDelay(errors: nat): int {
    if errors == 0 then MIN_RETRY_DELAY
    else
      var delay := Wrap64(Wrap64(Pow2(errors)) * SECOND);
      if delay > MAX_RETRY_DELAY then MAX_RETRY_DELAY else delay
  }

  /** What its documentation promises: 2^n seconds, capped at thirty. */
  function Backoff(errors: nat): int {
    if Pow2(errors) < 30 then Pow2(errors) * SECOND else MAX_RETRY_DELAY
  }

  // ------------------------------------------------------------------ backoff

  lemma {:induction false} Pow2Split(n: nat, k: nat)
    requires k <= n
    ensures Pow2(n) == Pow2(k) * Pow2(n - k)
  {
    if k < n {
      Pow2Split(n - 1, k);
    }
  }

  lemma {:induction false} Pow2Monotone(m: nat, n: nat)
    requires m <= n
    ensures Pow2(m) <= Pow2(n)
  {
    if m < n {
      Pow2Monotone(m, n - 1);
    }
  }

  lemma {:induction false} ModShift(y: int, m: nat)
    ensures (y + m * TWO_64) % TWO_64 == y % TWO_64
  {
    if m > 0 {
      ModShift(y, m - 1);
      var z := y + (m - 1) * TWO_64;
      assert y + m * TWO_64 == z + TWO_64;
    }
  }

  /** Multiples of 2^64 do not show. */
  lemma WrapShift(y: int, m: int)
    ensures Wrap64(y + m * TWO_64) == Wrap64(y)
  {
    if m >= 0 {
      ModShift(y + TWO_63, m);
    } else {
      ModShift(y + m * TWO_64 + TWO_63, -m);
      assert y + m * TWO_64 + TWO_63 + (-m) * TWO_64 == y + TWO_63;
    }
  }

  /** Truncating a factor first makes no difference to the truncated product. */
  lemma WrapFactor(x: int, k: int)
    ensures Wrap64(Wrap64(x) * k) == Wrap64(x * k)
  {
    var q := (x + TWO_63) / TWO_64;
    assert Wrap64(x) == x - q * TWO_64;
    assert x * k + (-(q * k)) * TWO_64 == (x - q * TWO_64) * k;
    WrapShift(x * k, -(q * k));
  }

  /** The wrapped product of 2^n and one second, for 33 <= n < 55; zero after. */
  function Product(n: nat): int
    requires n >= 33
  {
    if n == 33 then 8589934592000000000
    else if n == 34 then -1266874889709551616
    else if n == 35 then -2533749779419103232
    else if n == 36 then -5067499558838206464
    else if n == 37 then 8311744956033138688
    else if n == 38 then -1823254161643274240
    else if n == 39 then -3646508323286548480
    else if n == 40 then -7293016646573096960
    else if n == 41 then 3860710780563357696
    else if n == 42 then 7721421561126715392
    else if n == 43 then -3003900951456120832
    else if n == 44 then -6007801902912241664
    else if n == 45 then 6431140267885068288
    else if n == 46 then -5584463537939415040
    else if n == 47 then 7277816997830721536
    else if n == 48 then -3891110078048108544
    else if n == 49 then -7782220156096217088
    else if n == 50 then 2882303761517117440
    else if n == 51 then 5764607523034234880
    else if n == 52 then -6917529027641081856
    else if n == 53 then 4611686018427387904
    else if n == 54 then -9223372036854775808
    else 0
  }

  lemma ProductDoubles(n: nat)
    requires n >= 33
    ensures Product(n + 1) == Wrap64(2 * Product(n))
  {
  }

  lemma {:induction false} ProductIs(n: nat)
    requires n >= 33
    ensures Wrap64(Pow2(n) * SECOND) == Product(n)
  {
    if n == 33 {
      PowersOfTwo();
    } else {
      ProductIs(n - 1);
      ProductDoubles(n - 1);
      WrapFactor(Pow2(n - 1) * SECOND, 2);
      assert Pow2(n) * SECOND == Pow2(n - 1) * SECOND * 2;
    }
  }

  lemma PowersOfTwo()
    ensures Pow2(4) == 16 && Pow2(5) == 32 && Pow2(33) == 8589934592
  {
    assert Pow2(3) == 8;
    Pow2Split(11, 5);
    Pow2Split(11, 6);
    assert Pow2(5) == 32 && Pow2(6) == 64 && Pow2(11) == 2048;
    Pow2Split(22, 11);
    Pow2Split(33, 11);
  }

  lemma DelayFromProduct(errors: nat)
    requires errors >= 33
    ensures RetryDelay(errors) == if Product(errors) > MAX_RETRY_DELAY then MAX_RETRY_DELAY else Product(errors)
  {
    WrapFactor(Pow2(errors), SECOND);
    ProductIs(errors);
  }

  lemma NoWrap(x: int)
    requires 0 <= x < TWO_63
    ensures Wrap64(x) == x
  {
  }

  lemma DelayWithoutOverflow(errors: nat, p: int)
    requires errors >= 1 && p == Pow2(errors) && 0 < p <= 8589934592
    ensures RetryDelay(errors) == if p * SECOND > MAX_RETRY_DELAY then MAX_RETRY_DELAY else p * SECOND
  {
    NoWrap(p);
    NoWrap(p * SECOND);
  }

  lemma Pow2Range(errors: nat)
    requires 1 <= errors <= 33
    ensures 0 < Pow2(errors) <= 8589934592
  {
    PowersOfTwo();
    Pow2Monotone(errors, 33);
  }

  /** Up to 33 recorded errors neither the shift nor the product overflows. */
  lemma SmallBackoff(errors: nat)
    requires 1 <= errors <= 33
    ensures 0 < Pow2(errors) * SECOND < TWO_63 && RetryDelay(errors) == Backoff(errors)
  {
    Pow2Range(errors);
    var p := Pow2(errors);
    DelayWithoutOverflow(errors, p);
  }

  /** Error counts in the overflow range whose wrapped product happens to exceed
      the cap, so that the capped delay comes out right after all. */
  const LUCKY: set<nat> := {37, 41, 42, 45, 47, 50, 51, 53}

  lemma LuckyProducts(n: nat)
    requires n >= 34
    ensures Product(n) > MAX_RETRY_DELAY <==> n in LUCKY
    ensures n !in LUCKY ==> Product(n) <= 0
  {
  }

  lemma BackoffCapped(errors: nat)
    requires errors >= 5
    ensures Backoff(errors) == MAX_RETRY_DELAY
  {
    PowersOfTwo();
    Pow2Monotone(5, errors);
  }

  /** The machine's delay is the documented backoff if and only if the number of
      recorded errors is between 1 and 33, or one of eight lucky larger counts;
      otherwise, zero errors aside, it is not even positive. */
  lemma BackoffExactlyWhen(errors: nat)
    requires errors >= 1
    ensures RetryDelay(errors) == Backoff(errors) <==> errors <= 33 || errors in LUCKY
    ensures RetryDelay(errors) != Backoff(errors) ==> RetryDelay(errors) <= 0
  {
    if errors <= 33 {
      SmallBackoff(errors);
    } else {
      BackoffCapped(errors);
      DelayFromProduct(errors);
      LuckyProducts(errors);
    }
  }

  // --------------------------------------------------------------- the loop

  /** What the surroundings do in one round of the loop. */
  datatype Round = Round(cancelled: bool, ok: bool, waiting: bool, stopped: bool)

  datatype End = Cancelled | Succeeded | Exhausted | PodBusy | Stopped

  datatype Decision = Decision(attempts: nat, delays: seq<int>, errors: nat, end: End)

  /** runSingleDecision from round `i` on, with `errors` recorded. */
  function Decide(errors: nat, max: int, env: nat -> Round, i: nat): Decision
    decreases max - errors
  {
    var r := env(i);
    if r.cancelled then Decision(0, [], errors, Cancelled)
    else if r.ok then Decision(1, [], 0, Succeeded)
    else if errors + 1 >= max then Decision(1, [], errors + 1, Exhausted)
    else if !r.waiting then Decision(1, [], errors + 1, PodBusy)
    else if r.stopped then Decision(1, [RetryDelay(errors + 1)], errors + 1, Stopped)
    else
      var rest := Decide(errors + 1, max, env, i + 1);
      Decision(rest.attempts + 1, [RetryDelay(errors + 1)] + rest.delays, rest.errors, rest.end)
  }

  /** Retry termination: a decision that starts with `errors` recorded runs the
      control process at most max(1, max - errors) times; it gives up for too many
      errors exactly when the counter has reached the limit; and every error it
      met is recorded unless it succeeded. */
  lemma {:induction false} DecisionBound(errors: nat, max: int, env: nat -> Round, i: nat)
    ensures var d := Decide(errors, max, env, i);
            && d.attempts <= (if max - errors > 1 then max - errors else 1)
            && d.attempts - 1 <= |d.delays| <= d.attempts
            && (d.end == Succeeded ==> d.attempts >= 1 && d.errors == 0)
            && (d.end != Succeeded ==> d.errors == errors + d.attempts)
            && (d.end == Exhausted <==> d.attempts >= 1 && d.end != Succeeded && d.errors >= max)
    decreases max - errors
  {
    var r := env(i);
    if !r.cancelled && !r.ok && errors + 1 < max && r.waiting && !r.stopped {
      DecisionBound(errors + 1, max, env, i + 1);
    }
  }

  /** A failed round after which the pod still waits and nobody stops the controller. */
  predicate Retried(r: Round) {
    !r.ok && r.waiting && !r.stopped
  }

  /** Which rounds a decision goes through: it makes no attempt in a cancelled one, and
      goes on after an attempt only if that failed below the limit, with the pod still
      waiting and the controller not stopped. */
  lemma {:induction false} DecisionRounds(errors: nat, max: int, env: nat -> Round, i: nat)
    ensures var d := Decide(errors, max, env, i);
            && (forall j :: i <= j < i + d.attempts ==> !env(j).cancelled)
            && (forall j :: i <= j < i + d.attempts - 1 ==> Retried(env(j)))
            && (d.attempts > 1 ==> errors + d.attempts - 1 < max)
            && (d.end == Cancelled ==> env(i + d.attempts).cancelled)
    decreases max - errors
  {
    var r := env(i);
    if !r.cancelled && Retried(r) && errors + 1 < max {
      DecisionRounds(errors + 1, max, env, i + 1);
    }
  }

  /** How it ends, told from its last attempt alone. */
  lemma {:induction false} DecisionEnds(errors: nat, max: int, env: nat -> Round, i: nat)
    ensures var d := Decide(errors, max, env, i);
            && (d.attempts == 0 <==> env(i).cancelled) && (d.attempts == 0 ==> d.end == Cancelled)
            && (d.attempts > 0 ==> EndsBy(d, env(i + d.attempts - 1), errors + d.attempts, max))
    decreases max - errors
  {
    var r := env(i);
    if !r.cancelled && Retried(r) && errors + 1 < max {
      DecisionEnds(errors + 1, max, env, i + 1);
    }
  }

  /** The end of a decision whose last attempt was in round `r`, after which `n` errors
      would be recorded had it failed. */
  predicate EndsBy(d: Decision, r: Round, n: nat, max: int) {
    && (d.end == Succeeded <==> r.ok)
    && (d.end == Exhausted <==> !r.ok && n >= max)
    && (d.end == PodBusy <==> !r.ok && n < max && !r.waiting)
    && (d.end == Stopped <==> !r.ok && n < max && r.waiting && r.stopped)
    && (d.end == Cancelled <==> Retried(r) && n < max)
  }

  /** With nothing recorded the delay is the smallest one. */
  lemma FirstDelay()
    ensures RetryDelay(0) == 2 * 1_000_000_000
  {
  }

  /** The k-th delay is the one for the error count at that point, and it is only
      waited for while the limit has not been reached. */
  lemma {:induction false} DelaysFollowErrors(errors: nat, max: int, env: nat -> Round, i: nat, k: nat)
    requires k < |Decide(errors, max, env, i).delays|
    ensures Decide(errors, max, env, i).delays[k] == RetryDelay(errors + k + 1) && errors + k + 1 < max
    decreases max - errors
  {
    var r := env(i);
    if !r.cancelled && !r.ok && errors + 1 < max && r.waiting && !r.stopped && k > 0 {
      DelaysFollowErrors(errors + 1, max, env, i + 1, k - 1);
    }
  }

  /** With a limit of at most 34 errors every delay of every decision is the
      documented one, with no overflow on the way. */
  lemma DelaysAreBackoffs(errors: nat, max: int, env: nat -> Round, i: nat, k: nat)
    requires max <= 34 && k < |Decide(errors, max, env, i).delays|
    ensures Decide(errors, max, env, i).delays[k] == Backoff(errors + k + 1)
    ensures 0 < Pow2(errors + k + 1) * SECOND < TWO_63
  {
    DelaysFollowErrors(errors, max, env, i, k);
    SmallBackoff(errors + k + 1);
  }

  /** And 34 is the largest such limit: with 35, a pod that keeps waiting and a
      control process that keeps failing meet a negative delay. */
  lemma LimitIsTight()
    ensures var env := (i: nat) => Round(false, false, true, true);
            var d := Decide(33, 35, env, 0);
            |d.delays| == 1 && d.delays[0] < 0
  {
    DelayFromProduct(34);
  }

  // -------------------------------------------------------------- the objects

  class IterationController {
    var consecutiveErrors: nat
    const maxConsecutiveErrors: int

    constructor (configured: int)
      ensures consecutiveErrors == 0
      ensures maxConsecutiveErrors == if configured == 0 then 3 else configured
    {
      consecutiveErrors := 0;
      maxConsecutiveErrors := if configured == 0 then DEFAULT_MAX_ERRORS else configured;
    }

    method RecordError() returns (exceeded: bool)
      modifies this
      ensures consecutiveErrors == old(consecutiveErrors) + 1
      ensures exceeded <==> consecutiveErrors >= maxConsecutiveErrors
    {
      consecutiveErrors := consecutiveErrors + 1;
      exceeded := consecutiveErrors >= maxConsecutiveErrors;
    }

    method ResetErrors()
      modifies this
      ensures consecutiveErrors == 0
    {
      if consecutiveErrors > 0 {
        consecutiveErrors := 0;
      }
    }

    method GetRetryDelay() returns (delay: int)
      ensures delay == RetryDelay(consecutiveErrors)
    {
      if consecutiveErrors == 0 {
        return MIN_RETRY_DELAY;
      }
      delay := Wrap64(Wrap64(Pow2(consecutiveErrors)) * SECOND);
      if delay > MAX_RETRY_DELAY {
        delay := MAX_RETRY_DELAY;
      }
    }

    /** handleDecisionError in round `r`: whether to stop, and the delay chosen. */
    method HandleDecisionError(r: Round) returns (end: bool, why: End, delays: seq<int>)
      modifies this
      ensures consecutiveErrors == old(consecutiveErrors) + 1
      ensures end <==> consecutiveErrors >= maxConsecutiveErrors || !r.waiting || r.stopped
      ensures why == if consecutiveErrors >= maxConsecutiveErrors then Exhausted else if !r.waiting then PodBusy else Stopped
      ensures delays == if consecutiveErrors < maxConsecutiveErrors && r.waiting then [RetryDelay(consecutiveErrors)] else []
    {
      var exceeded := RecordError();
      if exceeded { return true, Exhausted, []; }
      if !r.waiting { return true, PodBusy, []; }
      var delay := GetRetryDelay();
      return r.stopped, Stopped, [delay];
    }

    /** runSingleDecision: the loop itself, which always ends. */
    method RunSingleDecision(env: nat -> Round) returns (attempts: nat, delays: seq<int>, end: End)
      modifies this
      ensures Decision(attempts, delays, consecutiveErrors, end) == Decide(old(consecutiveErrors), maxConsecutiveErrors, env, 0)
      ensures forall j :: 0 <= j < attempts ==> !env(j).cancelled
      ensures end == Cancelled ==> env(attempts).cancelled && consecutiveErrors == old(consecutiveErrors) + attempts
    {
      DecisionRounds(consecutiveErrors, maxConsecutiveErrors, env, 0);
      DecisionBound(consecutiveErrors, maxConsecutiveErrors, env, 0);
      attempts, delays, end := DecideLoop(env);
    }

    method DecideLoop(env: nat -> Round) returns (attempts: nat, delays: seq<int>, end: End)
      modifies this
      ensures Decision(attempts, delays, consecutiveErrors, end) == Decide(old(consecutiveErrors), maxConsecutiveErrors, env, 0)
    {
      attempts, delays := 0, [];
      var i := 0;
      ghost var d := Decide(consecutiveErrors, maxConsecutiveErrors, env, 0);
      assert delays + d.delays == d.delays;
      while true
        invariant d == Decide(consecutiveErrors, maxConsecutiveErrors, env, i)
        invariant Decide(old(consecutiveErrors), maxConsecutiveErrors, env, 0) ==
                  Decision(attempts + d.attempts, delays + d.delays, d.errors, d.end)
        decreases maxConsecutiveErrors - consecutiveErrors
      {
        var r := env(i);
        if r.cancelled { return attempts, delays, Cancelled; }
        attempts := attempts + 1;
        if r.ok {
          ResetErrors();
          return attempts, delays, Succeeded;
        }
        var stop, why, more := HandleDecisionError(r);
        if stop { return attempts, delays + more, why; }
        ghost var rest := Decide(consecutiveErrors, maxConsecutiveErrors, env, i + 1);
        assert delays + (more + rest.delays) == delays + more + rest.delays;
        delays, i, d := delays + more, i + 1, rest;
      }
    }
  }
}
