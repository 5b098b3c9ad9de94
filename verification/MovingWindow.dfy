/**
 A moving window over the last values pushed: a circular buffer with running
 sums and cached extrema, against the plain sequence it stands for.

 Arithmetic is over reals.
 */
module MovingWindow {

  function Clamp(v: real): real { if v < 0.0 then 0.0 else v }

  /** The last `capacity` values. */
  function Recent(s: seq<real>, capacity: nat): seq<real> {
    if |s| <= capacity then s else s[|s| - capacity..]
  }

  function Sum(s: seq<real>): real {
    if s == [] then 0.0 else Sum(s[..|s| - 1]) + s[|s| - 1]
  }

  function SumSq(s: seq<real>): real {
    if s == [] then 0.0 else SumSq(s[..|s| - 1]) + s[|s| - 1] * s[|s| - 1]
  }

  ghost predicate IsMax(s: seq<real>, m: real) { m in s && forall i :: 0 <= i < |s| ==> s[i] <= m }

  ghost predicate IsMin(s: seq<real>, m: real) { m in s && forall i :: 0 <= i < |s| ==> m <= s[i] }

  function Mean(s: seq<real>): real {
    if s == [] then 0.0 else Sum(s) / (|s| as real)
  }

  lemma Square(x: real)
    ensures x * x >= 0.0
  {
  }

  /** The sum of squared deviations from `m`. */
  function Spread(s: seq<real>, m: real): (d: real)
    ensures d >= 0.0
  {
    if s == [] then 0.0 else
      var x := s[|s| - 1] - m;
      Square(x); Spread(s[..|s| - 1], m) + x * x
  }

  function Variance(s: seq<real>): real
    requires |s| > 1
  {
    Spread(s, Mean(s)) / (|s| as real - 1.0)
  }

  /** The formula the running sums are put into. */
  function VarianceOf(n: real, mean: real, sumSq: real): real
    requires n > 1.0
  {
    (sumSq - n * mean * mean) / (n - 1.0)
  }

  /** The index of element `i` of a window that starts at `head`. */
  function Slot(head: nat, i: nat, capacity: nat): nat { if head + i < capacity then head + i else head + i - capacity }

  /** The values of a circular buffer, oldest first. */
  function View(data: seq<real>, head: nat, size: nat): (s: seq<real>)
    requires size <= |data| && (head < |data| || |data| == 0)
    ensures |s| == size
  {
    seq(size, i requires 0 <= i < size => data[Slot(head, i, |data|)])
  }

  lemma ViewAppend(data: seq<real>, head: nat, size: nat, value: real)
    requires size < |data| && head < |data|
    ensures View(data[Slot(head, size, |data|) := value], head, size + 1) == View(data, head, size) + [value]
  {
  }

  lemma ViewEvict(data: seq<real>, head: nat, value: real)
    requires head < |data|
    ensures View(data, head, |data|)[0] == data[head]
    ensures View(data[head := value], Slot(head, 1, |data|), |data|) == View(data, head, |data|)[1..] + [value]
  {
  }

  lemma Wrap(x: nat, capacity: nat)
    requires x < 2 * capacity
    ensures x % capacity == if x < capacity then x else x - capacity
  {
  }

  lemma ViewAt(data: seq<real>, head: nat, size: nat, i: nat)
    requires i < size <= |data| && head < |data|
    ensures View(data, head, size)[i] == data[(head + i) % |data|]
  {
    Wrap(head + i, |data|);
  }

  // ---------------------------------------------------------------------
  // Sums of sequences that gain an element at the end and lose one at the front
  // ---------------------------------------------------------------------

  lemma SumsAppend(s: seq<real>, v: real)
    ensures Sum(s + [v]) == Sum(s) + v && SumSq(s + [v]) == SumSq(s) + v * v
  {
  }

  lemma {:induction false} SumsLoseFirst(s: seq<real>)
    requires s != []
    ensures Sum(s[1..]) == Sum(s) - s[0] && SumSq(s[1..]) == SumSq(s) - s[0] * s[0]
  {
    var n := |s| - 1;
    if n == 0 {
      assert s[..n] == [] && s[1..] == [];
    } else {
      SumsLoseFirst(s[..n]);
      assert s[1..][..n - 1] == s[..n][1..];
    }
  }

  lemma SumsSlide(s: seq<real>, v: real)
    requires s != []
    ensures Sum(s[1..] + [v]) == Sum(s) - s[0] + v
    ensures SumSq(s[1..] + [v]) == SumSq(s) - s[0] * s[0] + v * v
  {
    SumsLoseFirst(s);
    SumsAppend(s[1..], v);
  }

  // ---------------------------------------------------------------------
  // Extrema
  // ---------------------------------------------------------------------

  lemma ExtremaAppend(s: seq<real>, v: real, max: real, min: real)
    requires IsMax(s, max) && IsMin(s, min)
    ensures IsMax(s + [v], if v > max then v else max) && IsMin(s + [v], if v < min then v else min)
  {
  }

  lemma ExtremaStep(s: seq<real>, i: nat, max: real, min: real)
    requires i < |s| && IsMax(s[..i], max) && IsMin(s[..i], min)
    ensures IsMax(s[..i + 1], if s[i] > max then s[i] else max) && IsMin(s[..i + 1], if s[i] < min then s[i] else min)
  {
    assert s[..i + 1] == s[..i] + [s[i]];
    ExtremaAppend(s[..i], s[i], max, min);
  }

  /** An extremum that is not the evicted value stays in the window. */
  lemma ExtremaSurvive(before: seq<real>, value: real, max: real, min: real)
    requires before != [] && IsMax(before, max) && IsMin(before, min) && before[0] != max && before[0] != min
    ensures IsMax(before[1..] + [value], if value > max then value else max)
    ensures IsMin(before[1..] + [value], if value < min then value else min)
  {
  }

  // ---------------------------------------------------------------------
  // Mean and variance
  // ---------------------------------------------------------------------

  lemma {:induction false} SumBetween(s: seq<real>, lo: real, hi: real)
    requires forall i :: 0 <= i < |s| ==> lo <= s[i] <= hi
    ensures |s| as real * lo <= Sum(s) <= |s| as real * hi
  {
    if s != [] {
      var n := |s| - 1;
      SumBetween(s[..n], lo, hi);
      assert |s| as real * lo == n as real * lo + lo && |s| as real * hi == n as real * hi + hi;
    }
  }

  lemma DivideBounds(n: real, total: real, lo: real, hi: real)
    requires n > 0.0 && n * lo <= total <= n * hi
    ensures lo <= total / n <= hi
  {
  }

  /** The mean lies between the extrema. */
  lemma MeanBetween(s: seq<real>, lo: real, hi: real)
    requires s != [] && IsMin(s, lo) && IsMax(s, hi)
    ensures lo <= Mean(s) <= hi
  {
    SumBetween(s, lo, hi);
    DivideBounds(|s| as real, Sum(s), lo, hi);
  }

  function Expanded(n: real, sum: real, sumSq: real, m: real): real { sumSq - 2.0 * m * sum + n * (m * m) }

  lemma SpreadStep(n: real, sum: real, sumSq: real, m: real, x: real)
    ensures Expanded(n, sum, sumSq, m) + (x - m) * (x - m) == Expanded(n + 1.0, sum + x, sumSq + x * x, m)
  {
  }

  lemma {:induction false} SpreadExpands(s: seq<real>, m: real)
    ensures Spread(s, m) == Expanded(|s| as real, Sum(s), SumSq(s), m)
  {
    if s != [] {
      var n := |s| - 1;
      var rest, x := s[..n], s[n];
      SpreadExpands(rest, m);
      SpreadStep(n as real, Sum(rest), SumSq(rest), m, x);
      assert |s| as real == n as real + 1.0;
    }
  }

  lemma MeanTimes(n: real, sum: real)
    requires n > 1.0
    ensures n * (sum / n) == sum
  {
  }

  lemma VarianceFormula(n: real, sum: real, sumSq: real, m: real)
    requires n > 1.0 && n * m == sum
    ensures Expanded(n, sum, sumSq, m) == sumSq - n * m * m
  {
  }

  lemma QuotientSign(a: real, b: real)
    requires a >= 0.0 && b > 0.0
    ensures a / b >= 0.0
  {
  }

  lemma VarianceReal(n: real, sum: real, sumSq: real, m: real, spread: real)
    requires n > 1.0 && n * m == sum && spread == Expanded(n, sum, sumSq, m) && spread >= 0.0
    ensures VarianceOf(n, m, sumSq) == spread / (n - 1.0) >= 0.0
  {
    VarianceFormula(n, sum, sumSq, m);
    QuotientSign(spread, n - 1.0);
  }

  /** The running variance formula is the sum of squared deviations over n - 1, so it is never negative. */
  lemma VarianceIsSpread(s: seq<real>)
    requires |s| > 1
    ensures var n := |s| as real; VarianceOf(n, Sum(s) / n, SumSq(s)) == Variance(s) >= 0.0
  {
    var n, mean := |s| as real, Mean(s);
    SpreadExpands(s, mean);
    MeanTimes(n, Sum(s));
    VarianceReal(n, Sum(s), SumSq(s), mean, Spread(s, mean));
  }

  // ---------------------------------------------------------------------
  // The window
  // ---------------------------------------------------------------------

  class Window {
    const data: array<real>
    var size: nat
    var head: nat
    var sum: real
    var sumSq: real
    var max: real
    var min: real

    ghost predicate Shape()
      reads this
    {
      size <= data.Length && (head < data.Length || data.Length == 0 == head)
    }

    /** The values in the window, oldest first. */
    ghost function Contents(): (s: seq<real>)
      requires Shape()
      reads this, data
      ensures |s| == size
    {
      View(data[..], head, size)
    }

    ghost predicate Valid()
      reads this, data
    {
      && Shape()
      && sum == Sum(Contents()) && sumSq == SumSq(Contents())
      && (size > 0 ==> IsMax(Contents(), max) && IsMin(Contents(), min))
    }

    constructor (capacity: nat)
      ensures Valid() && fresh(data) && data.Length == capacity && Contents() == []
    {
      data := new real[capacity](i => 0.0);
      size, head := 0, 0;
      sum, sumSq, max, min := 0.0, 0.0, 0.0, 0.0;
    }

    /** Stores a value behind the newest one. */
    method Store(value: real)
      requires Shape() && size < data.Length
      modifies data, this`size
      ensures Shape() && Contents() == old(Contents()) + [value]
    {
      ViewAppend(data[..], head, size, value);
      Wrap(head + size, data.Length);
      var pos := (head + size) % data.Length;
      data[pos] := value;
      size := size + 1;
    }

    method GrowSums(ghost before: seq<real>, value: real)
      requires sum == Sum(before) && sumSq == SumSq(before)
      modifies this`sum, this`sumSq
      ensures sum == Sum(before + [value]) && sumSq == SumSq(before + [value])
    {
      SumsAppend(before, value);
      sum := sum + value;
      sumSq := sumSq + value * value;
    }

    /** The first value sets the extrema, a later one extends them. */
    method GrowExtrema(ghost before: seq<real>, value: real)
      requires size == |before| + 1 && (before != [] ==> IsMax(before, max) && IsMin(before, min))
      modifies this`max, this`min
      ensures IsMax(before + [value], max) && IsMin(before + [value], min)
    {
      if size == 1 {
        max, min := value, value;
      } else {
        ExtremaAppend(before, value, max, min);
        if value > max { max := value; }
        if value < min { min := value; }
      }
    }

    /** A push while there is room. */
    method Append(value: real)
      requires Valid() && size < data.Length
      modifies this, data
      ensures Valid()
      ensures Contents() == old(Contents()) + [value]
    {
      ghost var before := Contents();
      Store(value);
      GrowSums(before, value);
      GrowExtrema(before, value);
    }

    /** Stores a value over the oldest one and moves the head past it. */
    method Overwrite(value: real) returns (evicted: real)
      requires Shape() && 0 < size == data.Length
      modifies data, this`head
      ensures Shape()
      ensures evicted == old(Contents())[0] && Contents() == old(Contents())[1..] + [value]
    {
      ViewEvict(data[..], head, value);
      evicted := data[head];
      data[head] := value;
      Wrap(head + 1, data.Length);
      head := (head + 1) % data.Length;
    }

    /** Takes the evicted value out of the running sums and the new one in. */
    method SlideSums(ghost before: seq<real>, evicted: real, value: real)
      requires before != [] && before[0] == evicted && sum == Sum(before) && sumSq == SumSq(before)
      modifies this`sum, this`sumSq
      ensures sum == Sum(before[1..] + [value]) && sumSq == SumSq(before[1..] + [value])
    {
      SumsSlide(before, value);
      sum := sum - evicted;
      sumSq := sumSq - evicted * evicted;
      sum := sum + value;
      sumSq := sumSq + value * value;
    }

    method RecomputeExtrema()
      requires Shape()
      modifies this`max, this`min
      ensures size > 0 ==> IsMax(Contents(), max) && IsMin(Contents(), min)
      ensures size == 0 ==> max == min == 0.0
    {
      if size == 0 {
        max, min := 0.0, 0.0;
        return;
      }
      var localMax, localMin := data[head], data[head];
      ghost var s := Contents();
      assert s[0] == data[head];
      var i := 1;
      while i < size
        invariant 1 <= i <= size
        invariant IsMax(s[..i], localMax) && IsMin(s[..i], localMin)
      {
        ViewAt(data[..], head, size, i);
        var pos := (head + i) % data.Length;
        var v := data[pos];
        ExtremaStep(s, i, localMax, localMin);
        if v > localMax { localMax := v; }
        if v < localMin { localMin := v; }
        i := i + 1;
      }
      assert s[..i] == s;
      max, min := localMax, localMin;
    }

    /** Follows the extrema cheaply unless the evicted value was one, which takes a scan. */
    method UpdateExtrema(ghost before: seq<real>, evicted: real, value: real)
      requires Shape() && size > 0 && before != [] && before[0] == evicted && Contents() == before[1..] + [value]
      requires IsMax(before, max) && IsMin(before, min)
      modifies this`max, this`min
      ensures IsMax(Contents(), max) && IsMin(Contents(), min)
    {
      var needMin, needMax := evicted == min, evicted == max;
      if !needMin && !needMax {
        ExtremaSurvive(before, value, max, min);
      }
      if !needMax && value > max { max := value; }
      if !needMin && value < min { min := value; }
      if needMin || needMax {
        RecomputeExtrema();
      }
    }

    /** A push into a full window: the oldest value makes room. */
    method Evict(value: real)
      requires Valid() && 0 < size == data.Length
      modifies this, data
      ensures Valid()
      ensures Contents() == old(Contents())[1..] + [value]
    {
      ghost var before := Contents();
      var evicted := Overwrite(value);
      SlideSums(before, evicted, value);
      UpdateExtrema(before, evicted, value);
    }

    method Push(v: real)
      requires Valid()
      modifies this, data
      ensures Valid()
      ensures Contents() == Recent(old(Contents()) + [Clamp(v)], data.Length)
    {
      if data.Length == 0 {
        return;
      }
      var value := Clamp(v);
      if size < data.Length {
        Append(value);
      } else {
        Evict(value);
      }
    }

    /** The extrema are not reset; the next push sets them. */
    method Clear()
      requires Valid()
      modifies this
      ensures Valid() && Contents() == []
    {
      size, head := 0, 0;
      sum, sumSq := 0.0, 0.0;
    }

    method GetMean() returns (m: real)
      requires Valid()
      ensures m == Mean(Contents())
      ensures size > 0 ==> min <= m <= max
    {
      if size == 0 {
        return 0.0;
      }
      MeanBetween(Contents(), min, max);
      m := sum / (size as real);
    }

    /** The guard against a negative variance never fires. */
    method Stddev(root: real -> real) returns (d: real)
      requires Valid()
      ensures d == if size <= 1 then 0.0 else root(Variance(Contents()))
    {
      if size <= 1 {
        return 0.0;
      }
      VarianceIsSpread(Contents());
      var n := size as real;
      var mean := sum / n;
      var variance := VarianceOf(n, mean, sumSq);
      if variance < 0.0 {
        variance := 0.0;
      }
      d := root(variance);
    }

    method GetMax() returns (m: real)
      requires Valid()
      ensures if size == 0 then m == 0.0 else IsMax(Contents(), m)
    {
      m := if size == 0 then 0.0 else max;
    }

    method GetMin() returns (m: real)
      requires Valid()
      ensures if size == 0 then m == 0.0 else IsMin(Contents(), m)
    {
      m := if size == 0 then 0.0 else min;
    }
  }

  // ---------------------------------------------------------------------
  // Whole histories
  // ---------------------------------------------------------------------

  datatype Use = Pushed(value: real) | Cleared

  /** The contents that the contracts of `Push` and `Clear` give, use after use. */
  function Replay(capacity: nat, uses: seq<Use>): seq<real> {
    if uses == [] then []
    else
      var before := Replay(capacity, uses[..|uses| - 1]);
      match uses[|uses| - 1]
      case Pushed(v) => Recent(before + [Clamp(v)], capacity)
      case Cleared => []
  }

  /** All values pushed since the last clear, as they were pushed. */
  function SinceClear(uses: seq<Use>): seq<real> {
    if uses == [] then []
    else match uses[|uses| - 1]
      case Pushed(v) => SinceClear(uses[..|uses| - 1]) + [v]
      case Cleared => []
  }

  /** After any uses the window holds as many of the values pushed since the last clear as fit, the newest ones in order
      of arrival, each raised to zero if it was negative and otherwise unchanged. */
  lemma {:induction false} WindowHoldsRecent(capacity: nat, uses: seq<Use>)
    ensures var window, pushed := Replay(capacity, uses), SinceClear(uses);
      && |window| == (if |pushed| < capacity then |pushed| else capacity)
      && forall i :: 0 <= i < |window| ==>
           var value := pushed[|pushed| - |window| + i];
           window[i] >= 0.0 && (value >= 0.0 ==> window[i] == value) && (value < 0.0 ==> window[i] == 0.0)
  {
    if uses != [] {
      WindowHoldsRecent(capacity, uses[..|uses| - 1]);
    }
  }
}
