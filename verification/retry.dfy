/** Retry timing: backoff (app/retry.py) and the power-of-two holding queues (app/broker.py). Time is
    in seconds, over the reals. */
module Retry {
  datatype DelayResult = Delay(seconds: real) | AttemptIsOneBased

  function Pow2(n: nat): (r: nat)
    ensures r >= 1
  {
    if n == 0 then 1 else 2 * Pow2(n - 1)
  }

  function Min(a: real, b: real): real {
    if a <= b then a else b
  }

  function Max(a: real, b: real): real {
    if a >= b then a else b
  }

  /** The delay before jitter. */
  function Nominal(attempt: nat, base: real, maximum: real): real
    requires attempt >= 1
  {
    Min(base * Pow2(attempt - 1) as real, maximum)
  }

  /** `backoff_delay`; `draw` is the random number, as a fraction of the spread. */
  function BackoffDelay(attempt: int, base: real, maximum: real, jitter: real, draw: real): (r: DelayResult)
    ensures r.Delay? <==> attempt >= 1
    ensures r.Delay? ==> r.seconds >= 0.0
  {
    if attempt < 1 then AttemptIsOneBased
    else
      var delay := Nominal(attempt, base, maximum);
      var jittered := if jitter == 0.0 then delay else delay + delay * jitter * draw;
      Delay(Max(0.0, jittered))
  }

  /** Without jitter the first retry waits for the base delay, and each later one twice as long as
      the one before, but none longer than the maximum. */
  lemma RetriesBackOff(attempt: nat, base: real, maximum: real, draw: real)
    requires attempt >= 1 && base >= 0.0 && maximum >= 0.0
    ensures BackoffDelay(1, base, maximum, 0.0, draw) == Delay(if base <= maximum then base else maximum)
    ensures var doubled := 2.0 * BackoffDelay(attempt, base, maximum, 0.0, draw).seconds;
            BackoffDelay(attempt + 1, base, maximum, 0.0, draw) == Delay(if doubled <= maximum then doubled else maximum)
  {
    assert Pow2(0) == 1;
    var x := base * Pow2(attempt - 1) as real;
    assert base * Pow2(attempt) as real == 2.0 * x;
    NonNegative(base, Pow2(attempt - 1) as real);
  }

  lemma NonNegative(x: real, y: real)
    requires x >= 0.0 && y >= 0.0
    ensures x * y >= 0.0
  {
  }

  lemma NominalWithin(attempt: nat, base: real, maximum: real)
    requires attempt >= 1 && base >= 0.0 && maximum >= 0.0
    ensures 0.0 <= Nominal(attempt, base, maximum) <= maximum
    ensures forall draw :: BackoffDelay(attempt, base, maximum, 0.0, draw) == Delay(Nominal(attempt, base, maximum))
  {
    NonNegative(base, Pow2(attempt - 1) as real);
  }

  lemma SignOfSpread(d: real, x: real)
    requires d >= 0.0
    ensures x <= -1.0 ==> d + d * x <= 0.0
    ensures x >= -1.0 ==> d + d * x >= 0.0
  {
    if x <= -1.0 {
      NonNegative(d, -1.0 - x);
    } else {
      NonNegative(d, 1.0 + x);
    }
  }

  lemma Grows(d: real, x: real, y: real)
    requires d >= 0.0 && x <= y
    ensures d * x <= d * y
  {
    NonNegative(d, y - x);
  }

  lemma SpreadBounds(d: real, maximum: real, jitter: real, draw: real)
    requires 0.0 <= d <= maximum && 0.0 <= jitter && -1.0 <= draw <= 1.0
    ensures d - d * jitter <= d + d * (jitter * draw) <= d + d * jitter <= maximum + maximum * jitter
  {
    assert jitter * -1.0 == -jitter && jitter * 1.0 == jitter;
    Grows(jitter, -1.0, draw);
    Grows(jitter, draw, 1.0);
    Grows(d, -jitter, jitter * draw);
    Grows(d, jitter * draw, jitter);
    Grows(jitter, d, maximum);
    assert d * -jitter == -(d * jitter) && d * jitter == jitter * d && maximum * jitter == jitter * maximum;
  }

  lemma Reassociate(d: real, jitter: real, draw: real)
    ensures d * jitter * draw == d * (jitter * draw)
  {
  }

  /** Jitter moves the delay `d` there would be without it by the drawn part of its spread, and what
      would be negative is zero. */
  lemma JitterIsExact(attempt: nat, base: real, maximum: real, jitter: real, draw: real)
    requires attempt >= 1 && base >= 0.0 && maximum >= 0.0
    ensures var d := BackoffDelay(attempt, base, maximum, 0.0, draw).seconds;
            BackoffDelay(attempt, base, maximum, jitter, draw) == Delay(if jitter * draw <= -1.0 then 0.0 else d + d * (jitter * draw))
  {
    hide Nominal;
    var d := Nominal(attempt, base, maximum);
    NominalWithin(attempt, base, maximum);
    Reassociate(d, jitter, draw);
    SignOfSpread(d, jitter * draw);
  }

  /** Over all draws it is moved by the whole of its spread either way, and no further. */
  lemma JitterSpreads(attempt: nat, base: real, maximum: real, jitter: real, draw: real)
    requires attempt >= 1 && base >= 0.0 && maximum >= 0.0 && 0.0 <= jitter <= 1.0 && -1.0 <= draw <= 1.0
    ensures var d, r := BackoffDelay(attempt, base, maximum, 0.0, draw).seconds, BackoffDelay(attempt, base, maximum, jitter, draw);
            && d - d * jitter <= r.seconds <= d + d * jitter <= maximum + maximum * jitter
            && (draw == -1.0 ==> r.seconds == d - d * jitter)
            && (draw == 1.0 ==> r.seconds == d + d * jitter)
  {
    hide Nominal, BackoffDelay;
    var d := Nominal(attempt, base, maximum);
    NominalWithin(attempt, base, maximum);
    JitterIsExact(attempt, base, maximum, jitter, draw);
    SpreadBounds(d, maximum, jitter, draw);
    SignOfSpread(d, jitter * draw);
    EndOfSpread(d, jitter, draw);
  }

  lemma EndOfSpread(d: real, jitter: real, draw: real)
    ensures draw == -1.0 ==> d * (jitter * draw) == -(d * jitter)
    ensures draw == 1.0 ==> d * (jitter * draw) == d * jitter
  {
    if draw == -1.0 {
      assert jitter * draw == -jitter;
    }
  }

  // ----- holding queues ----------------------------------------------------------------------

  function Ceil(x: real): (c: int)
    ensures c as real - 1.0 < x <= c as real
  {
    -((-x).Floor)
  }

  /** The first power of two, from p on, that is at least x. */
  function PowerFrom(x: real, n: nat, bound: nat): nat
    requires x <= Pow2(bound) as real && n <= bound
    decreases bound - n
  {
    if x <= Pow2(n) as real then Pow2(n) else PowerFrom(x, n + 1, bound)
  }

  lemma {:induction false} Pow2Exceeds(n: nat)
    ensures Pow2(n) >= n
  {
    if n > 0 {
      Pow2Exceeds(n - 1);
    }
  }

  /** `2 ** ceil(log2(x))` for x of at least one. */
  function PowerAtLeast(x: real): nat
    requires x >= 1.0
  {
    Pow2Exceeds(Ceil(x));
    PowerFrom(x, 0, Ceil(x))
  }

  ghost predicate IsPower(p: nat) {
    exists n: nat :: p == Pow2(n)
  }

  lemma {:induction false} PowerFromIsLeast(x: real, n: nat, bound: nat)
    requires x <= Pow2(bound) as real && n <= bound
    requires n > 0 ==> Pow2(n - 1) as real < x
    ensures var p := PowerFrom(x, n, bound); IsPower(p) && x <= p as real && (p == 1 || (p as real) < 2.0 * x)
    decreases bound - n
  {
    if x <= Pow2(n) as real {
      assert IsPower(Pow2(n));
    } else {
      PowerFromIsLeast(x, n + 1, bound);
    }
  }

  /** It is a power of two, at least x, and less than twice x. */
  lemma PowerIsTight(x: real)
    requires x >= 1.0
    ensures var p := PowerAtLeast(x); IsPower(p) && x <= p as real < 2.0 * x
  {
    Pow2Exceeds(Ceil(x));
    PowerFromIsLeast(x, 0, Ceil(x));
  }

  /** `_retry_queue`: how long a message published with a positive delay is held. */
  function RetryBucket(delay: real, maximum: real): int {
    var power, cap := PowerAtLeast(Max(delay, 1.0)), Ceil(maximum);
    var held := if power <= cap then power else cap;
    if held >= 1 then held else 1
  }

  lemma {:induction false} PowersGrow(m: nat, n: nat)
    requires m <= n
    ensures Pow2(m) <= Pow2(n)
  {
    if m < n {
      PowersGrow(m, n - 1);
    }
  }

  /** The time between publishing and the message being on the main queue. */
  function Held(delay: real, maximum: real): real {
    if delay <= 0.0 then 0.0 else RetryBucket(delay, maximum) as real
  }

  /** A message without a delay is not held. Any other is held for the least power of two that is at
      least its delay and at least a second, unless the maximum cuts it short. So it is held for at
      least its delay or the maximum, for less than twice its delay or two seconds, and never longer
      than the maximum or one second. */
  lemma HeldBounds(delay: real, maximum: real)
    ensures var held, most := Held(delay, maximum), Ceil(maximum) as real;
            && (delay <= 0.0 ==> held == 0.0)
            && (delay > 0.0 ==>
                  && (held >= delay || held >= most) && 1.0 <= held < 2.0 * (if delay >= 1.0 then delay else 1.0)
                  && (held == 1.0 || held <= most)
                  && (held < most ==> held >= delay && exists n: nat :: held == Pow2(n) as real)
                  && forall n: nat | Pow2(n) as real >= delay :: held <= Pow2(n) as real)
  {
    if delay > 0.0 {
      var x := Max(delay, 1.0);
      PowerIsTight(x);
      var k: nat :| PowerAtLeast(x) == Pow2(k);
      forall n: nat | Pow2(n) as real >= delay ensures PowerAtLeast(x) <= Pow2(n) {
        if n < k {
          PowersGrow(n + 1, k);
        } else {
          PowersGrow(k, n);
        }
      }
    }
  }
}
