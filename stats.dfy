/**
 * The numpy reductions the temperature statistics use, over exact reals:
 * `np.abs(a - b)`, `np.min`, `np.max` and `np.average` (unweighted).
 * `np.median` and `np.std` stay uninterpreted: the callers take them as
 * function parameters.
 */
module Stats {

  function Abs(x: real): (r: real)
    ensures r >= 0.0 && (r == x || r == -x)
  {
    if x < 0.0 then -x else x
  }

  function Sum(s: seq<real>): real
  {
    if s == [] then 0.0 else Sum(s[..|s| - 1]) + s[|s| - 1]
  }

  /** `np.min`: an element of the series no larger than any other. */
  function Min(s: seq<real>): (r: real)
    requires |s| > 0
    ensures r in s
    ensures forall i :: 0 <= i < |s| ==> r <= s[i]
  {
    if |s| == 1 then s[0]
    else
      var m := Min(s[..|s| - 1]);
      if s[|s| - 1] < m then s[|s| - 1] else m
  }

  /** `np.max`: an element of the series no smaller than any other. */
  function Max(s: seq<real>): (r: real)
    requires |s| > 0
    ensures r in s
    ensures forall i :: 0 <= i < |s| ==> s[i] <= r
  {
    if |s| == 1 then s[0]
    else
      var m := Max(s[..|s| - 1]);
      if s[|s| - 1] > m then s[|s| - 1] else m
  }

  /** `np.average` without weights. */
  function Average(s: seq<real>): real
    requires |s| > 0
  {
    Sum(s) / (|s| as real)
  }

  /** A sum of `n` values lies between `n` times any lower bound and `n` times any upper bound. */
  lemma {:induction false} SumBetween(s: seq<real>, lo: real, hi: real)
    requires forall i :: 0 <= i < |s| ==> lo <= s[i] <= hi
    ensures (|s| as real) * lo <= Sum(s) <= (|s| as real) * hi
  {
    if s != [] {
      SumBetween(s[..|s| - 1], lo, hi);
    }
  }

  /** A sum bounded by `n` times two bounds has its mean between those bounds. */
  lemma MeanBetween(lo: real, hi: real, sum: real, n: real)
    requires n > 0.0
    requires n * lo <= sum <= n * hi
    ensures lo <= sum / n <= hi
  {
  }

  /** The average of a series lies between any lower and any upper bound of its elements. */
  lemma AverageBetween(s: seq<real>, lo: real, hi: real)
    requires |s| > 0
    requires forall i :: 0 <= i < |s| ==> lo <= s[i] <= hi
    ensures lo <= Average(s) <= hi
  {
    SumBetween(s, lo, hi);
    MeanBetween(lo, hi, Sum(s), |s| as real);
  }

  /** In particular it lies between the series' minimum and maximum. */
  lemma AverageBetweenMinAndMax(s: seq<real>)
    requires |s| > 0
    ensures Min(s) <= Average(s) <= Max(s)
  {
    AverageBetween(s, Min(s), Max(s));
  }

  /** `np.abs(np.array(target) - np.array(current))`, element by element. */
  function Deviations(target: seq<real>, current: seq<real>): (r: seq<real>)
    requires |target| == |current|
    ensures |r| == |target|
    ensures forall k :: 0 <= k < |r| ==> r[k] >= 0.0 && r[k] == Abs(target[k] - current[k])
  {
    seq(|target|, k requires 0 <= k < |target| => Abs(target[k] - current[k]))
  }

  /** Deviation statistics are ordered and non-negative: 0 <= min <= average <= max. */
  lemma DeviationStatsOrdered(target: seq<real>, current: seq<real>)
    requires |target| == |current| > 0
    ensures var d := Deviations(target, current);
      0.0 <= Min(d) <= Average(d) <= Max(d)
  {
    AverageBetweenMinAndMax(Deviations(target, current));
  }

  /** One sample: minimum, maximum and average all equal that sample. */
  lemma SingleSample(x: real)
    ensures Min([x]) == x && Max([x]) == x && Average([x]) == x
  {
    assert [x][..0] == [];
    assert Sum([x]) == x;
  }
}
