/** Adapting the objective weights: pressure raises a weight's target, and the projected
    weights become the new policy. */
module PolicyOptimizer {
  import opened Common
  import opened SimplexProjection

  /** The floor that lets a zeroed objective recover. */
  const FLOOR: real := 0.005

  // ----- pressure

  /** `growth[k]` stands for the exponential of the clamped pressure on weight `k`. */
  function PressureTarget(current: Weights, growth: seq<real>): (target: Weights)
    requires |growth| == |current| > 0
    ensures |target| == |current|
  {
    Normalize(Grown(current, growth))
  }

  /** The weights before they are normalised. */
  function Grown(current: Weights, growth: seq<real>): Weights
    requires |growth| == |current|
  {
    seq(|current|, k requires 0 <= k < |current| => Max(FLOOR, current[k]) * growth[k])
  }

  ghost predicate AllPositive(growth: seq<real>) {
    forall k :: 0 <= k < |growth| ==> growth[k] > 0.0
  }

  lemma ProductPositive(x: real, y: real)
    requires x > 0.0 && y > 0.0
    ensures x * y > 0.0
  {
  }

  lemma GrownIsPositive(current: Weights, growth: seq<real>)
    requires |growth| == |current| > 0 && AllPositive(growth)
    ensures AllPositive(Grown(current, growth)) && Positive(Grown(current, growth)) == Grown(current, growth)
    ensures Sum(Grown(current, growth)) > 0.0
  {
    var w := Grown(current, growth);
    forall k | 0 <= k < |w|
      ensures w[k] > 0.0
    {
      ProductPositive(Max(FLOOR, current[k]), growth[k]);
    }
    ElementBelowSum(w, 0, |w|);
    assert Positive(w) == w;
  }

  lemma {:induction false} SumAfterRaise(w: Weights, w': Weights, i: nat, raise: real, n: nat)
    requires n <= |w| == |w'| && i < |w| && w' == w[i := w[i] + raise]
    ensures SumTo(w', n) == SumTo(w, n) + if i < n then raise else 0.0
  {
    if n > 0 {
      SumAfterRaise(w, w', i, raise, n - 1);
    }
  }

  lemma QuotientAtLeast(x: real, total: real, share: real)
    requires total > 0.0 && x >= share * total
    ensures x / total >= share
  {
  }

  lemma QuotientAtMost(x: real, total: real, share: real)
    requires total > 0.0 && x <= share * total
    ensures x / total <= share
  {
  }

  lemma ShareTimes(share: real, raise: real)
    requires 0.0 <= share <= 1.0 && raise >= 0.0
    ensures 0.0 <= share * raise <= raise
  {
  }

  lemma RaisedShare(part: real, total: real, raise: real)
    requires 0.0 <= part <= total && total > 0.0 && raise >= 0.0
    ensures (part + raise) / (total + raise) >= part / total
    ensures part / (total + raise) <= part / total
  {
    var share := part / total;
    ShareOfWhole(part, total, 1.0 / total);
    assert share * total == part;
    ShareTimes(share, raise);
    Distribute(share, total, raise);
    QuotientAtLeast(part + raise, total + raise, share);
    QuotientAtMost(part, total + raise, share);
  }

  /** Raising one entry of a positive vector raises its normalised share and no other. */
  lemma RaisedEntry(w: Weights, w': Weights, i: nat, raise: real, j: nat)
    requires AllPositive(w) && AllPositive(w') && Positive(w) == w && Positive(w') == w'
    requires i < |w| && j < |w| && raise >= 0.0 && w' == w[i := w[i] + raise]
    ensures Normalize(w')[i] >= Normalize(w)[i]
    ensures j != i ==> Normalize(w')[j] <= Normalize(w)[j]
  {
    SumAfterRaise(w, w', i, raise, |w|);
    ElementBelowSum(w, i, |w|);
    ElementBelowSum(w, j, |w|);
    RaisedShare(w[i], Sum(w), raise);
    RaisedShare(w[j], Sum(w), raise);
  }

  /** More pressure on one objective never lowers its target and never raises another's, and
      targets are on the simplex. */
  lemma PressureRaisesTarget(current: Weights, growth: seq<real>, i: nat, more: real, j: nat)
    requires |growth| == |current| > 0 && AllPositive(growth)
    requires i < |current| && j < |current| && more >= growth[i]
    ensures OnSimplex(PressureTarget(current, growth))
    ensures PressureTarget(current, growth[i := more])[i] >= PressureTarget(current, growth)[i]
    ensures j != i ==> PressureTarget(current, growth[i := more])[j] <= PressureTarget(current, growth)[j]
  {
    var w, w' := Grown(current, growth), Grown(current, growth[i := more]);
    var raise := GrownAfterRaise(current, growth, i, more);
    GrownIsPositive(current, growth);
    GrownIsPositive(current, growth[i := more]);
    NormalizeIsOnSimplex(w);
    RaisedEntry(w, w', i, raise, j);
  }

  /** Targets stand in the ratio of the weights, with their floor, times the growth. */
  ghost predicate GrowsByPressure(current: Weights, growth: seq<real>, target: Weights) {
    && |target| == |growth| == |current|
    && forall i, j :: 0 <= i < |current| && 0 <= j < |current| ==>
         SameRatio(target[i], target[j], Max(FLOOR, current[i]) * growth[i], Max(FLOOR, current[j]) * growth[j])
  }

  /** On the simplex these ratios leave one target. */
  lemma TargetGrowsByPressure(current: Weights, growth: seq<real>)
    requires |growth| == |current| > 0 && AllPositive(growth)
    ensures OnSimplex(PressureTarget(current, growth)) && GrowsByPressure(current, growth, PressureTarget(current, growth))
  {
    var w := Grown(current, growth);
    GrownIsPositive(current, growth);
    NormalizeIsOnSimplex(w);
    forall i, j | 0 <= i < |current| && 0 <= j < |current|
      ensures SameRatio(Normalize(w)[i], Normalize(w)[j], Max(FLOOR, current[i]) * growth[i], Max(FLOOR, current[j]) * growth[j])
    {
      NormalizeKeepsRatios(w, i, j);
      assert Positive(w)[i] == w[i] && Positive(w)[j] == w[j];
    }
  }

  lemma GrownAfterRaise(current: Weights, growth: seq<real>, i: nat, more: real) returns (raise: real)
    requires |growth| == |current| && i < |current| && more >= growth[i]
    ensures raise >= 0.0
    ensures Grown(current, growth[i := more]) == Grown(current, growth)[i := Grown(current, growth)[i] + raise]
  {
    var w, w' := Grown(current, growth), Grown(current, growth[i := more]);
    raise := w'[i] - w[i];
    RaiseOfProduct(Max(FLOOR, current[i]), growth[i], more);
    forall k | 0 <= k < |w|
      ensures w'[k] == w[i := w[i] + raise][k]
    {
      assert k != i ==> growth[i := more][k] == growth[k];
    }
    assert w' == w[i := w[i] + raise];
  }

  lemma RaiseOfProduct(x: real, y: real, z: real)
    requires x >= 0.0 && z >= y
    ensures x * z >= x * y
  {
  }

  ghost predicate Near(w: Weights, w': Weights, distance: real) {
    |w| == |w'| && forall k :: 0 <= k < |w| ==> Abs(w[k] - w'[k]) <= distance
  }

  /** What normalising makes of the projected weights. */
  lemma StoredMove(current: Weights, target: Weights, rate: real, cap: real, start: Weights, w: Weights, share: real)
    requires OnSimplex(current) && OnSimplex(target) && current != [] && |current| as real * TINY <= 0.5
    requires MovesTowards(current, target, rate, cap, start, w, share) && InBox(current, cap, w)
    ensures Near(Normalize(w), w, 2.0 * |w| as real * TINY)
    ensures Near(Normalize(w), current, cap + 2.0 * |w| as real * TINY)
    ensures StepsTaken(current, target, rate, w) ==> Normalize(w) == w
  {
    RenormalizingIsHarmless(w);
    if StepsTaken(current, target, rate, w) {
      StepsKeepSum(current, target, rate, w);
      NormalizeKeepsSimplex(w);
    }
  }

  // ----- the policy state

  class PolicyState {
    var weights: Weights
    var history: seq<Weights>

    constructor (initial: Weights)
      requires initial != []
      ensures OnSimplex(weights) && |weights| == |initial| && history == []
      ensures OnSimplex(initial) ==> weights == initial
    {
      weights := Normalize(initial);
      history := [];
      new;
      NormalizeIsOnSimplex(initial);
      if OnSimplex(initial) {
        NormalizeKeepsSimplex(initial);
      }
    }

    /** Whatever is installed, the weights end on the simplex; a reader of the state and the new
        history entry see exactly them, because normalising them again changes nothing. */
    method Update(newWeights: Weights)
      requires newWeights != []
      modifies this
      ensures OnSimplex(weights) && weights == Normalize(newWeights)
      ensures OnSimplex(newWeights) ==> weights == newWeights
      ensures history == old(history) + [weights]
    {
      weights := Normalize(newWeights);
      history := history + [Normalize(weights)];
      NormalizeIsOnSimplex(newWeights);
      NormalizeKeepsSimplex(weights);
      if OnSimplex(newWeights) {
        NormalizeKeepsSimplex(newWeights);
      }
    }

    /** One adaptation round on weights that have pressure: a capped step towards the target,
        whose error in the sum is shared out and then normalised away. */
    method Adapt(growth: seq<real>, rate: real, cap: real)
      returns (ghost target: Weights, ghost start: Weights, ghost bounded: Weights, ghost share: real)
      requires |growth| == |weights| > 0 && cap >= 0.0
      requires |weights| as real * TINY <= 0.5
      modifies this
      ensures |weights| == old(|weights|) && OnSimplex(weights)
      // the target is that of the pressure
      ensures OnSimplex(target) && |target| == |weights|
      ensures AllPositive(growth) ==> GrowsByPressure(Normalize(old(weights)), growth, target)
      // the new weights are where the move towards it ends, up to the error of the projection
      ensures MovesTowards(Normalize(old(weights)), target, rate, cap, start, bounded, share)
      ensures Near(weights, bounded, 2.0 * |weights| as real * TINY)
      ensures Near(weights, Normalize(old(weights)), cap + 2.0 * |weights| as real * TINY)
      // and exactly the smoothed weights if no step exceeds the cap
      ensures 0.0 <= rate <= 1.0 && StepsFit(Normalize(old(weights)), target, rate, cap) ==>
                StepsTaken(Normalize(old(weights)), target, rate, weights)
    {
      var current := Normalize(weights);
      NormalizeIsOnSimplex(weights);
      var aim := PressureTarget(current, growth);
      NormalizeIsOnSimplex(Grown(current, growth));
      if AllPositive(growth) {
        TargetGrowsByPressure(current, growth);
      }
      target := aim;
      var next: Weights;
      ghost var moves: nat;
      next, moves, start, share := SmoothAndBound(current, aim, rate, cap);
      bounded := next;
      StoredMove(current, target, rate, cap, start, next, share);
      Update(next);
    }
  }
}
