/**
 The end-of-loop scheduler of periodic applications: sleep to the next tick of
 a fixed time grid, skipping ticks that have already passed.

 Times are whole nanoseconds of the monotone clock, periods real microseconds.
*/
module Scheduler {
  datatype Policy = Deadline | Fifo | Other | Unknown

  datatype Outcome = Yielded | SleepUntil(time: int) | Thrown | Returned

  /** A duration cast truncates toward zero. */
  function Truncate(x: real): int { if x >= 0.0 then x.Floor else -((-x).Floor) }

  function EffectivePeriod(period: real, factor: real): int { Truncate(period * factor * 1000.0) }

  /** The tick to sleep to: the next one, or the first one after `now` if that has passed. */
  function NextTick(desired: int, now: int, period: int): int
    requires period > 0
  {
    if now <= desired + period then desired + period else desired + period * ((now - desired) / period + 1)
  }

  lemma Quotient(x: int, p: int)
    requires p > 0
    ensures x == p * (x / p) + x % p && 0 <= x % p < p
  {
  }

  lemma MulAtLeast(p: int, d: int)
    requires p > 0 && d > 0
    ensures p * d >= p
  {
  }

  lemma QuotientUnique(x: int, p: int, q: int, r: int)
    requires p > 0 && x == p * q + r && 0 <= r < p
    ensures x / p == q
  {
    Quotient(x, p);
    var d := q - x / p;
    assert p * d == x % p - r;
    if d > 0 { MulAtLeast(p, d); } else if d < 0 { MulAtLeast(p, -d); }
  }

  lemma DivideShifted(x: int, p: int)
    requires p > 0
    ensures (x + p) / p == x / p + 1
    ensures p * ((x + p) / p + 1) == p + p * (x / p + 1)
  {
    Quotient(x, p);
    assert x + p == p * (x / p + 1) + x % p;
    QuotientUnique(x + p, p, x / p + 1, x % p);
  }

  class SchedulerUtils {
    const policy: Policy
    const period: real
    var factor: real
    var desiredTime: int

    constructor (policy: Policy, period: real, factor: real, now: int)
      ensures this.policy == policy && this.period == period && this.factor == factor && desiredTime == now
    {
      this.policy, this.period, this.factor := policy, period, factor;
      desiredTime := now;
    }

    method SetCurrentTimeFactor(timeFactor: real)
      modifies this`factor
      ensures factor == timeFactor
    {
      factor := timeFactor;
    }

    method InitDesiredTime(time: int)
      modifies this`desiredTime
      ensures desiredTime == time
    {
      desiredTime := time;
    }

    /** `now` is the clock as read in the middle of the call. */
    method ExecuteEndLoopTask(now: int) returns (outcome: Outcome)
      modifies this`desiredTime
      ensures policy.Deadline? ==> outcome == Yielded && desiredTime == old(desiredTime)
      ensures policy.Unknown? ==> outcome == Returned && desiredTime == old(desiredTime)
      ensures policy.Fifo? || policy.Other? ==>
                var p := EffectivePeriod(period, factor);
                if p <= 0 then outcome == Thrown && desiredTime == old(desiredTime)
                else outcome == SleepUntil(desiredTime) && desiredTime == NextTick(old(desiredTime), now, p)
    {
      if policy == Deadline {
        return Yielded;
      }
      if policy == Fifo || policy == Other {
        var effectivePeriod := EffectivePeriod(period, factor);
        if effectivePeriod <= 0 {
          return Thrown;
        }
        desiredTime := desiredTime + effectivePeriod;
        if now > desiredTime {
          var missed := (now - desiredTime) / effectivePeriod + 1;
          DivideShifted(now - desiredTime, effectivePeriod);
          desiredTime := desiredTime + effectivePeriod * missed;
        }
        return SleepUntil(desiredTime);
      }
      return Returned;
    }
  }

  lemma AtMostQuotient(length: int, p: int, n: int)
    requires p > 0 && p * n <= length
    ensures n <= length / p
  {
    Quotient(length, p);
    var d := n - length / p;
    assert p * d == p * n - p * (length / p);
    if d > 0 { MulAtLeast(p, d); }
  }

  lemma Distribute(p: int, a: int, b: int)
    ensures p * a + p * b == p * (a + b)
  {
  }

  /**
   The next tick stays on the grid and is never the old one. It is the very next
   one unless that has passed; then it is after `now`, and the tick before it is
   not.
   */
  lemma NextTickIsFirst(desired: int, now: int, period: int) returns (k: nat)
    requires period > 0
    ensures var r := NextTick(desired, now, period);
      && r == desired + period * k && k >= 1
      && if now <= desired + period then k == 1 else r - period <= now < r
  {
    if now <= desired + period {
      k := 1;
    } else {
      var q := (now - desired) / period;
      Quotient(now - desired, period);
      AtMostQuotient(now - desired, period, 1);
      k := q + 1;
      Distribute(period, q, 1);
    }
  }

  // ---------------------------------------------------------------------
  // Whole runs
  // ---------------------------------------------------------------------

  /** One iteration: when it started, the clock as read at its end, and the period in force. */
  datatype Iteration = Iteration(start: int, now: int, period: int)

  /** The desired time before iteration `k`. */
  function DesiredAt(first: int, run: seq<Iteration>, k: nat): int
    requires k <= |run| && forall i :: 0 <= i < |run| ==> run[i].period > 0
  {
    if k == 0 then first else NextTick(DesiredAt(first, run, k - 1), run[k - 1].now, run[k - 1].period)
  }

  ghost predicate InTime(first: int, run: seq<Iteration>, i: int)
    requires 0 <= i < |run| && forall i :: 0 <= i < |run| ==> run[i].period > 0
  {
    DesiredAt(first, run, i) <= run[i].start <= run[i].now
  }

  /** The clock is monotone and a sleep never ends early. */
  ghost predicate WellTimed(first: int, run: seq<Iteration>) {
    && (forall i :: 0 <= i < |run| ==> run[i].period > 0)
    && (forall i :: 0 <= i < |run| ==> InTime(first, run, i))
  }

  ghost predicate Periodic(run: seq<Iteration>, period: int) { forall i :: 0 <= i < |run| ==> run[i].period == period }

  /** How many ticks the end of iteration `k` skipped. */
  function SkippedBy(first: int, run: seq<Iteration>, k: nat): int
    requires k < |run| && forall i :: 0 <= i < |run| ==> run[i].period > 0
  {
    var desired := DesiredAt(first, run, k);
    if run[k].now <= desired + run[k].period then 0 else (run[k].now - desired) / run[k].period
  }

  function Skipped(first: int, run: seq<Iteration>, k: nat): int
    requires k <= |run| && forall i :: 0 <= i < |run| ==> run[i].period > 0
  {
    if k == 0 then 0 else Skipped(first, run, k - 1) + SkippedBy(first, run, k - 1)
  }

  /** With a constant period every desired time is on the grid, and the ticks elapsed are those executed plus those
      skipped. */
  lemma {:induction false} StaysOnGrid(first: int, run: seq<Iteration>, period: int, k: nat)
    requires period > 0 && Periodic(run, period) && k <= |run|
    ensures DesiredAt(first, run, k) == first + period * (k + Skipped(first, run, k))
    ensures Skipped(first, run, k) >= 0
  {
    if k > 0 {
      StaysOnGrid(first, run, period, k - 1);
      var before := DesiredAt(first, run, k - 1);
      var skipped := SkippedBy(first, run, k - 1);
      var tick := NextTickIsFirst(before, run[k - 1].now, period);
      assert DesiredAt(first, run, k) == before + period * (1 + skipped);
      if run[k - 1].now > before + period {
        AtMostQuotient(run[k - 1].now - before, period, 1);
      }
      Distribute(period, k - 1 + Skipped(first, run, k - 1), 1 + skipped);
    }
  }

  lemma TickAfter(desired: int, now: int, period: int)
    requires period > 0
    ensures NextTick(desired, now, period) >= desired + period && NextTick(desired, now, period) >= now
  {
  }

  /** Desired times grow by at least the shortest period each iteration, whatever the periods. */
  lemma {:induction false} DesiredGrows(first: int, run: seq<Iteration>, shortest: int, i: nat, j: nat)
    requires shortest > 0 && (forall n :: 0 <= n < |run| ==> run[n].period >= shortest)
    requires i <= j <= |run|
    ensures DesiredAt(first, run, j) >= DesiredAt(first, run, i) + shortest * (j - i)
    ensures i < j ==> DesiredAt(first, run, j) > DesiredAt(first, run, i)
  {
    if i < j {
      DesiredGrows(first, run, shortest, i, j - 1);
      TickAfter(DesiredAt(first, run, j - 1), run[j - 1].now, run[j - 1].period);
      assert shortest * (j - i) == shortest * (j - 1 - i) + shortest;
      if i < j - 1 { MulAtLeast(shortest, j - 1 - i); }
    }
  }

  /** An iteration starts no earlier than all but one of the periods since an earlier one. */
  lemma StartsApart(first: int, run: seq<Iteration>, shortest: int, i: nat, j: nat)
    requires shortest > 0 && (forall n :: 0 <= n < |run| ==> run[n].period >= shortest)
    requires WellTimed(first, run) && i < j < |run|
    ensures shortest * (j - (i + 1)) <= run[j].start - run[i].start
  {
    assert InTime(first, run, i) && InTime(first, run, j);
    DesiredGrows(first, run, shortest, i + 1, j);
    TickAfter(DesiredAt(first, run, i), run[i].now, run[i].period);
    assert DesiredAt(first, run, i + 1) >= run[i].start;
  }

  /** Iterations that start within any window of length `length` number at most `length / shortest + 2`: overruns cause
      no bursts. */
  lemma NoBursts(first: int, run: seq<Iteration>, shortest: int, i: nat, j: nat, length: int)
    requires shortest > 0 && (forall n :: 0 <= n < |run| ==> run[n].period >= shortest)
    requires WellTimed(first, run) && i <= j < |run|
    requires run[j].start - run[i].start <= length
    ensures j - i + 1 <= length / shortest + 2
  {
    if i < j {
      StartsApart(first, run, shortest, i, j);
      AtMostQuotient(length, shortest, j - (i + 1));
    } else {
      AtMostQuotient(length, shortest, -1);
    }
  }

  // ---------------------------------------------------------------------
  // Units
  // ---------------------------------------------------------------------

  /** The period in force is a thousand nanoseconds for every microsecond asked for, scaled by the time factor; what is
      lost is less than a nanosecond and toward zero, so the period is positive from one nanosecond on. */
  lemma PeriodInNanoseconds(period: real, factor: real)
    ensures var exact, p := 1000.0 * period * factor, EffectivePeriod(period, factor);
      && (exact >= 0.0 ==> exact - 1.0 < p as real <= exact)
      && (exact <= 0.0 ==> exact <= p as real < exact + 1.0)
      && (p > 0 <==> exact >= 1.0)
  {
    assert period * factor * 1000.0 == 1000.0 * period * factor;
  }

  /** So whole microseconds at a whole time factor are exact, and the desired times are multiples of them apart. */
  lemma WholePeriods(first: int, run: seq<Iteration>, micros: int, factor: int, k: nat) returns (ticks: int)
    requires micros > 0 && factor > 0 && k <= |run|
    requires Periodic(run, EffectivePeriod(micros as real, factor as real))
    ensures DesiredAt(first, run, k) == first + 1000 * micros * factor * ticks && ticks >= k
  {
    var p := 1000 * micros * factor;
    assert micros as real * factor as real * 1000.0 == p as real;
    assert EffectivePeriod(micros as real, factor as real) == p;
    StaysOnGrid(first, run, p, k);
    ticks := k + Skipped(first, run, k);
  }
}
