/** Real arithmetic shared by the scheduler: clamping, sums, weight normalisation. */
module Common {

  datatype Option<+T> = None | Some(value: T)

  /** Strings in dictionary order. */
  predicate Precedes(a: string, b: string) {
    a == [] || (b != [] && (a[0] < b[0] || (a[0] == b[0] && Precedes(a[1..], b[1..]))))
  }

  lemma {:induction false} PrecedesIsTotal(a: string, b: string)
    ensures Precedes(a, b) || Precedes(b, a)
  {
    if a != [] && b != [] && a[0] == b[0] {
      PrecedesIsTotal(a[1..], b[1..]);
    }
  }

  lemma {:induction false} PrecedesIsTransitive(a: string, b: string, c: string)
    requires Precedes(a, b) && Precedes(b, c)
    ensures Precedes(a, c)
  {
    if a != [] && a[0] == b[0] == c[0] {
      PrecedesIsTransitive(a[1..], b[1..], c[1..]);
    }
  }

  /** A weight vector is indexed by the position of its key in the fixed key order. */
  type Weights = seq<real>

  function Min(x: real, y: real): real { if x <= y then x else y }
  function Max(x: real, y: real): real { if x >= y then x else y }
  function Abs(x: real): real { if x >= 0.0 then x else -x }
  function Clamp(x: real, lower: real, upper: real): real { Max(lower, Min(upper, x)) }

  function SumTo(s: seq<real>, n: nat): real
    requires n <= |s|
  {
    if n == 0 then 0.0 else SumTo(s, n - 1) + s[n - 1]
  }

  function Sum(s: seq<real>): real {
    SumTo(s, |s|)
  }

  ghost predicate OnSimplex(w: Weights) {
    (forall k :: 0 <= k < |w| ==> 0.0 <= w[k] <= 1.0) && Sum(w) == 1.0
  }

  /** Clamping gives the nearest point of the interval. */
  lemma ClampIsNearest(x: real, lower: real, upper: real, y: real)
    requires lower <= y <= upper
    ensures lower <= Clamp(x, lower, upper) <= upper
    ensures Abs(x - Clamp(x, lower, upper)) <= Abs(x - y)
  {
  }

  // ----- sums

  lemma {:induction false} SumMonotone(s: seq<real>, t: seq<real>, n: nat)
    requires n <= |s| == |t| && forall k :: 0 <= k < n ==> s[k] <= t[k]
    ensures SumTo(s, n) <= SumTo(t, n)
  {
    if n > 0 {
      SumMonotone(s, t, n - 1);
    }
  }

  /** One step of size `d` up or down. */
  function Shift(x: real, d: real, up: bool): real {
    if up then x + d else x - d
  }

  lemma {:induction false} SumShift(s: seq<real>, t: seq<real>, u: seq<real>, up: bool, n: nat)
    requires n <= |s| == |t| == |u| && forall k :: 0 <= k < n ==> u[k] == Shift(s[k], t[k], up)
    ensures SumTo(u, n) == Shift(SumTo(s, n), SumTo(t, n), up)
  {
    if n > 0 {
      SumShift(s, t, u, up, n - 1);
    }
  }

  /** `t` is `s` scaled by `factor`. */
  ghost predicate Proportional(s: seq<real>, t: seq<real>, factor: real) {
    |s| == |t| && forall k :: 0 <= k < |s| ==> t[k] == factor * s[k]
  }

  lemma {:induction false} SumScaled(s: seq<real>, t: seq<real>, factor: real, n: nat)
    requires n <= |s| && Proportional(s, t, factor)
    ensures SumTo(t, n) == factor * SumTo(s, n)
  {
    if n > 0 {
      SumScaled(s, t, factor, n - 1);
      Distribute(factor, SumTo(s, n - 1), s[n - 1]);
    }
  }

  lemma Distribute(factor: real, x: real, y: real)
    ensures factor * (x + y) == factor * x + factor * y
  {
  }

  lemma {:induction false} SumWithin(s: seq<real>, t: seq<real>, slack: real, n: nat)
    requires n <= |s| == |t| && forall k :: 0 <= k < n ==> s[k] <= t[k] + slack
    ensures SumTo(s, n) <= SumTo(t, n) + n as real * slack
  {
    if n > 0 {
      SumWithin(s, t, slack, n - 1);
      Distribute(slack, (n - 1) as real, 1.0);
    }
  }

  lemma {:induction false} SumEven(s: seq<real>, even: real, n: nat)
    requires n <= |s| && forall k :: 0 <= k < n ==> s[k] == even
    ensures SumTo(s, n) == n as real * even
  {
    if n > 0 {
      SumEven(s, even, n - 1);
      Distribute(even, (n - 1) as real, 1.0);
    }
  }

  lemma {:induction false} ElementBelowSum(s: seq<real>, k: nat, n: nat)
    requires k < n <= |s| && forall i :: 0 <= i < n ==> s[i] >= 0.0
    ensures 0.0 <= s[k] <= SumTo(s, n)
  {
    if k + 1 < n {
      ElementBelowSum(s, k, n - 1);
    } else {
      SumOfNonNegative(s, k);
    }
  }

  lemma {:induction false} SumOfNonNegative(s: seq<real>, n: nat)
    requires n <= |s| && forall i :: 0 <= i < n ==> s[i] >= 0.0
    ensures SumTo(s, n) >= 0.0
  {
    if n > 0 {
      SumOfNonNegative(s, n - 1);
    }
  }

  lemma ProductNonNegative(x: real, y: real)
    requires x >= 0.0 && y >= 0.0
    ensures x * y >= 0.0
  {
  }

  // ----- normalisation

  function Positive(w: Weights): (p: Weights)
    ensures |p| == |w| && forall k :: 0 <= k < |w| ==> p[k] == Max(0.0, w[k])
  {
    seq(|w|, k requires 0 <= k < |w| => Max(0.0, w[k]))
  }

  function Normalize(w: Weights): (r: Weights)
    requires w != []
    ensures |r| == |w|
  {
    var positive := Positive(w);
    var total := Sum(positive);
    if total <= 0.0 then seq(|w|, k => 1.0 / |w| as real)
    else seq(|w|, k requires 0 <= k < |w| => positive[k] / total)
  }

  lemma ShareOfWhole(part: real, total: real, scale: real)
    requires total > 0.0 && 0.0 <= part <= total && scale == 1.0 / total
    ensures part / total == scale * part && 0.0 <= part / total <= 1.0
  {
  }

  lemma NormalizeInUnitInterval(w: Weights)
    requires w != [] && Sum(Positive(w)) > 0.0
    ensures forall k :: 0 <= k < |w| ==> 0.0 <= Normalize(w)[k] <= 1.0
  {
    var total := Sum(Positive(w));
    forall k | 0 <= k < |w|
      ensures 0.0 <= Normalize(w)[k] <= 1.0
    {
      ElementBelowSum(Positive(w), k, |w|);
      ShareOfWhole(Positive(w)[k], total, 1.0 / total);
    }
  }

  lemma NormalizeIsOnSimplex(w: Weights)
    requires w != []
    ensures OnSimplex(Normalize(w))
  {
    var total := Sum(Positive(w));
    if total <= 0.0 {
      SumEven(Normalize(w), 1.0 / |w| as real, |w|);
    } else {
      NormalizeInUnitInterval(w);
      SumScaled(Positive(w), Normalize(w), 1.0 / total, |w|);
    }
  }

  /** `x` is to `y` as `a` is to `b`. */
  ghost predicate SameRatio(x: real, y: real, a: real, b: real) {
    x * b == y * a
  }

  /** Normalising keeps the ratios of the positive weights and drops the others; weights none of
      which is positive become equal. With the simplex this leaves one result. */
  lemma NormalizeKeepsRatios(w: Weights, i: nat, j: nat)
    requires i < |w| && j < |w|
    ensures SameRatio(Normalize(w)[i], Normalize(w)[j], Max(0.0, w[i]), Max(0.0, w[j]))
    ensures (forall k :: 0 <= k < |w| ==> w[k] <= 0.0) ==> Normalize(w)[i] == Normalize(w)[j]
  {
    var total := Sum(Positive(w));
    if forall k :: 0 <= k < |w| ==> w[k] <= 0.0 {
      SumEven(Positive(w), 0.0, |w|);
    }
    if total > 0.0 {
      SharesKeepRatio(Max(0.0, w[i]), Max(0.0, w[j]), total);
    } else {
      ElementBelowSum(Positive(w), i, |w|);
      ElementBelowSum(Positive(w), j, |w|);
    }
  }

  lemma SharesKeepRatio(x: real, y: real, total: real)
    requires total > 0.0
    ensures SameRatio(x / total, y / total, x, y)
  {
    var scale := 1.0 / total;
    assert x / total == scale * x && y / total == scale * y;
  }

  /** A vector on the simplex is its own normalisation. */
  lemma NormalizeKeepsSimplex(w: Weights)
    requires w != [] && OnSimplex(w)
    ensures Normalize(w) == w
  {
    assert Positive(w) == w;
    forall k | 0 <= k < |w|
      ensures Normalize(w)[k] == w[k]
    {
    }
  }
}
