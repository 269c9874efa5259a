/** Exact Pareto fronts over score tables, the augmented Tchebycheff utility, and the
    five semantic objective groups built from the atomic metrics. */
module Pareto {
  import opened Common

  type NodeId = string
  type Scores = map<string, real>

  /** Every row of the table has a score for every active key. */
  ghost predicate Complete(table: map<NodeId, Scores>, keys: seq<string>) {
    forall id :: id in table ==> HasKeys(table[id], keys)
  }

  ghost predicate HasKeys(scores: Scores, keys: seq<string>) {
    forall i :: 0 <= i < |keys| ==> keys[i] in scores
  }

  predicate AtLeast(a: Scores, b: Scores, keys: seq<string>)
    requires HasKeys(a, keys) && HasKeys(b, keys)
  {
    forall i :: 0 <= i < |keys| ==> a[keys[i]] >= b[keys[i]]
  }

  predicate Dominates(a: Scores, b: Scores, keys: seq<string>)
    requires HasKeys(a, keys) && HasKeys(b, keys)
  {
    AtLeast(a, b, keys) && exists i :: 0 <= i < |keys| && a[keys[i]] > b[keys[i]]
  }

  ghost function Dominators(table: map<NodeId, Scores>, keys: seq<string>, id: NodeId): set<NodeId>
    requires Complete(table, keys) && id in table
  {
    set other | other in table && Dominates(table[other], table[id], keys)
  }

  ghost function Undominated(table: map<NodeId, Scores>, keys: seq<string>): set<NodeId>
    requires Complete(table, keys)
  {
    set id | id in table && Dominators(table, keys, id) == {}
  }

  method ParetoFront(table: map<NodeId, Scores>, ids: seq<NodeId>, keys: seq<string>) returns (front: set<NodeId>)
    requires Complete(table, keys)
    requires forall id :: id in ids <==> id in table
    ensures front == Undominated(table, keys)
  {
    front := {};
    var i := 0;
    while i < |ids|
      invariant 0 <= i <= |ids|
      invariant forall id :: id in front <==> id in ids[..i] && Dominators(table, keys, id) == {}
    {
      var dominated := false;
      var j := 0;
      while j < |ids|
        invariant 0 <= j <= |ids| && !dominated
        invariant forall k :: 0 <= k < j ==> ids[k] !in Dominators(table, keys, ids[i])
      {
        if ids[j] != ids[i] && Dominates(table[ids[j]], table[ids[i]], keys) {
          assert ids[j] in Dominators(table, keys, ids[i]);
          dominated := true;
          break;
        }
        j := j + 1;
      }
      if !dominated {
        assert forall other :: other in table ==> other in ids;
        assert Dominators(table, keys, ids[i]) == {};
        front := front + {ids[i]};
      }
      i := i + 1;
    }
  }

  // ----- the front represents every candidate

  lemma DominanceIsTransitive(a: Scores, b: Scores, c: Scores, keys: seq<string>)
    requires HasKeys(a, keys) && HasKeys(b, keys) && HasKeys(c, keys)
    requires Dominates(a, b, keys) && Dominates(b, c, keys)
    ensures Dominates(a, c, keys)
  {
    var i :| 0 <= i < |keys| && a[keys[i]] > b[keys[i]];
    assert b[keys[i]] >= c[keys[i]];
  }

  /** Climbing from any candidate ends at a front member that is at least as good everywhere. */
  lemma {:induction false} FrontRepresents(table: map<NodeId, Scores>, keys: seq<string>, id: NodeId)
    returns (best: NodeId)
    requires Complete(table, keys) && id in table
    ensures best in Undominated(table, keys)
    ensures best == id || Dominates(table[best], table[id], keys)
    decreases Dominators(table, keys, id)
  {
    var above := Dominators(table, keys, id);
    if above == {} {
      best := id;
    } else {
      var next :| next in above;
      forall other | other in Dominators(table, keys, next)
        ensures other in above
      {
        DominanceIsTransitive(table[other], table[next], table[id], keys);
      }
      assert next !in Dominators(table, keys, next);
      best := FrontRepresents(table, keys, next);
      if best != next {
        DominanceIsTransitive(table[best], table[next], table[id], keys);
      }
    }
  }

  /** The front of a non-empty table is non-empty, has no dominated member, and leaves
      out exactly the candidates that some front member dominates. */
  lemma FrontIsExact(table: map<NodeId, Scores>, keys: seq<string>)
    requires Complete(table, keys)
    ensures table != map[] ==> Undominated(table, keys) != {}
    ensures forall id :: id in table ==>
              (id !in Undominated(table, keys) <==>
               exists best :: best in Undominated(table, keys) && Dominates(table[best], table[id], keys))
  {
    forall id | id in table
      ensures Undominated(table, keys) != {}
      ensures id !in Undominated(table, keys) <==>
              exists best :: best in Undominated(table, keys) && Dominates(table[best], table[id], keys)
    {
      var best := FrontRepresents(table, keys, id);
      assert forall other :: other in table && Dominates(table[other], table[id], keys) ==>
               other in Dominators(table, keys, id);
    }
  }

  // ----- utility

  const RHO: real := 0.01

  function Distances(scores: Scores, weights: Scores, keys: seq<string>): (d: seq<real>)
    requires HasKeys(scores, keys) && HasKeys(weights, keys)
    ensures |d| == |keys|
    ensures forall i :: 0 <= i < |keys| ==> d[i] == weights[keys[i]] * Abs(1.0 - scores[keys[i]])
  {
    seq(|keys|, i requires 0 <= i < |keys| && keys[i] in scores && keys[i] in weights =>
      weights[keys[i]] * Abs(1.0 - scores[keys[i]]))
  }

  function MaxOf(s: seq<real>, n: nat): real
    requires 0 < n <= |s|
  {
    if n == 1 then s[0] else Max(MaxOf(s, n - 1), s[n - 1])
  }

  function TchebycheffUtility(scores: Scores, weights: Scores, keys: seq<string>): real
    requires HasKeys(scores, keys) && HasKeys(weights, keys)
  {
    if keys == [] then 0.0
    else
      var d := Distances(scores, weights, keys);
      Clamp(1.0 - (MaxOf(d, |d|) + RHO * Sum(d)), 0.0, 1.0)
  }

  lemma {:induction false} MaxOfIsGreatest(s: seq<real>, n: nat) returns (k: nat)
    requires 0 < n <= |s|
    ensures k < n && MaxOf(s, n) == s[k] && forall j :: 0 <= j < n ==> s[j] <= s[k]
  {
    if n == 1 {
      k := 0;
    } else {
      k := MaxOfIsGreatest(s, n - 1);
      if s[k] < s[n - 1] {
        k := n - 1;
      }
    }
  }

  ghost predicate IsGreatest(d: seq<real>, k: nat) {
    k < |d| && forall j :: 0 <= j < |d| ==> d[j] <= d[k]
  }

  /** `d` lists the weighted distances of the scores from one. */
  ghost predicate AreDistances(d: seq<real>, scores: Scores, weights: Scores, keys: seq<string>)
    requires HasKeys(scores, keys) && HasKeys(weights, keys)
  {
    |d| == |keys| && forall i :: 0 <= i < |keys| ==> d[i] == weights[keys[i]] * Abs(1.0 - scores[keys[i]])
  }

  /** What is left of one after the greatest weighted distance and a hundredth of all of them,
      in the unit interval; nothing without keys. */
  ghost predicate IsUtility(u: real, scores: Scores, weights: Scores, keys: seq<string>)
    requires HasKeys(scores, keys) && HasKeys(weights, keys)
  {
    if keys == [] then u == 0.0
    else
      exists d, k :: AreDistances(d, scores, weights, keys) && IsGreatest(d, k)
                     && u == Clamp(1.0 - d[k] - 0.01 * Sum(d), 0.0, 1.0)
  }

  lemma UtilityFromGreatest(scores: Scores, weights: Scores, keys: seq<string>, d: seq<real>, k: nat)
    requires HasKeys(scores, keys) && HasKeys(weights, keys) && AreDistances(d, scores, weights, keys) && IsGreatest(d, k)
    ensures TchebycheffUtility(scores, weights, keys) == Clamp(1.0 - d[k] - 0.01 * Sum(d), 0.0, 1.0)
  {
    assert d == Distances(scores, weights, keys);
    var greatest := MaxOfIsGreatest(d, |d|);
    assert d[greatest] == d[k];
  }

  lemma SomeDistancesAndGreatest(scores: Scores, weights: Scores, keys: seq<string>) returns (d: seq<real>, k: nat)
    requires HasKeys(scores, keys) && HasKeys(weights, keys) && keys != []
    ensures AreDistances(d, scores, weights, keys) && IsGreatest(d, k)
  {
    d := Distances(scores, weights, keys);
    k := MaxOfIsGreatest(d, |d|);
  }

  /** The utility is that number, and there is only one. */
  lemma UtilityIs(u: real, scores: Scores, weights: Scores, keys: seq<string>)
    requires HasKeys(scores, keys) && HasKeys(weights, keys)
    ensures IsUtility(u, scores, weights, keys) <==> u == TchebycheffUtility(scores, weights, keys)
  {
    if keys != [] {
      var d, k := SomeDistancesAndGreatest(scores, weights, keys);
      UtilityFromGreatest(scores, weights, keys, d, k);
      if IsUtility(u, scores, weights, keys) {
        var e, l :| AreDistances(e, scores, weights, keys) && IsGreatest(e, l)
                    && u == Clamp(1.0 - e[l] - 0.01 * Sum(e), 0.0, 1.0);
        UtilityFromGreatest(scores, weights, keys, e, l);
      }
    }
  }

  /** Scores are at most one, as `clamp` leaves them, and weights are not negative. */
  ghost predicate Scored(scores: Scores, weights: Scores, keys: seq<string>) {
    && HasKeys(scores, keys) && HasKeys(weights, keys)
    && forall i :: 0 <= i < |keys| ==> 0.0 <= scores[keys[i]] <= 1.0 && weights[keys[i]] >= 0.0
  }

  lemma {:induction false} MaxOfMonotone(s: seq<real>, t: seq<real>, n: nat)
    requires 0 < n <= |s| == |t| && forall k :: 0 <= k < n ==> s[k] <= t[k]
    ensures MaxOf(s, n) <= MaxOf(t, n)
  {
    if n > 1 {
      MaxOfMonotone(s, t, n - 1);
    }
  }

  lemma DistanceShrinks(w: real, better: real, worse: real)
    requires w >= 0.0 && worse <= better <= 1.0
    ensures w * Abs(1.0 - better) <= w * Abs(1.0 - worse)
  {
    ProductNonNegative(w, better - worse);
    assert w * (better - worse) == w * (1.0 - worse) - w * (1.0 - better);
  }

  lemma DistancesShrink(a: Scores, b: Scores, weights: Scores, keys: seq<string>)
    requires Scored(a, weights, keys) && Scored(b, weights, keys) && AtLeast(a, b, keys)
    ensures forall i :: 0 <= i < |keys| ==> Distances(a, weights, keys)[i] <= Distances(b, weights, keys)[i]
  {
    forall i | 0 <= i < |keys|
      ensures Distances(a, weights, keys)[i] <= Distances(b, weights, keys)[i]
    {
      DistanceShrinks(weights[keys[i]], a[keys[i]], b[keys[i]]);
    }
  }

  /** A candidate that is at least as good on every key has at least the utility. */
  lemma UtilityIsMonotone(a: Scores, b: Scores, weights: Scores, keys: seq<string>)
    requires Scored(a, weights, keys) && Scored(b, weights, keys) && AtLeast(a, b, keys)
    ensures TchebycheffUtility(a, weights, keys) >= TchebycheffUtility(b, weights, keys)
  {
    if keys != [] {
      var da, db := Distances(a, weights, keys), Distances(b, weights, keys);
      DistancesShrink(a, b, weights, keys);
      MaxOfMonotone(da, db, |keys|);
      SumMonotone(da, db, |keys|);
    }
  }

  function UtilityOf(table: map<NodeId, Scores>, weights: Scores, keys: seq<string>, id: NodeId): real
    requires Complete(table, keys) && HasKeys(weights, keys) && id in table
  {
    TchebycheffUtility(table[id], weights, keys)
  }

  ghost predicate BestOver(table: map<NodeId, Scores>, ids: set<NodeId>, weights: Scores, keys: seq<string>, best: NodeId)
    requires Complete(table, keys) && HasKeys(weights, keys) && ids <= table.Keys && best in table
  {
    forall id :: id in ids ==> UtilityOf(table, weights, keys, id) <= UtilityOf(table, weights, keys, best)
  }

  /** Restricting the search to the front loses no utility. */
  lemma BestUtilityIsOnFront(table: map<NodeId, Scores>, weights: Scores, keys: seq<string>, best: NodeId)
    requires Complete(table, keys) && HasKeys(weights, keys)
    requires forall id :: id in table ==> Scored(table[id], weights, keys)
    requires best in Undominated(table, keys)
    ensures BestOver(table, Undominated(table, keys), weights, keys, best) <==> BestOver(table, table.Keys, weights, keys, best)
  {
    if BestOver(table, Undominated(table, keys), weights, keys, best) {
      forall id | id in table
        ensures UtilityOf(table, weights, keys, id) <= UtilityOf(table, weights, keys, best)
      {
        var above := FrontRepresents(table, keys, id);
        if above != id {
          UtilityIsMonotone(table[above], table[id], weights, keys);
        }
      }
    }
  }

  // ----- objective groups

  const SLA_QUALITY := ["performance", "completion", "reliability"]
  const NETWORK_COORDINATION := ["network", "locality"]
  const RESOURCE_EFFICIENCY := ["balance", "fragmentation"]
  const ECONOMIC_COST := ["cost"]
  const GREEN_CARBON := ["carbon"]

  /** One group: its only metric clamped, or the utility of its metrics. */
  function GroupScore(metrics: Scores, inner: Scores, members: seq<string>): (score: real)
    requires HasKeys(metrics, members) && HasKeys(inner, members) && members != []
    ensures 0.0 <= score <= 1.0
  {
    if |members| == 1 then Clamp(metrics[members[0]], 0.0, 1.0)
    else TchebycheffUtility(metrics, inner, members)
  }

  ghost predicate HasGroupMetrics(metrics: Scores) {
    && HasKeys(metrics, SLA_QUALITY) && HasKeys(metrics, NETWORK_COORDINATION)
    && HasKeys(metrics, RESOURCE_EFFICIENCY) && HasKeys(metrics, ECONOMIC_COST) && HasKeys(metrics, GREEN_CARBON)
  }

  function GroupScores(metrics: Scores, inner: Scores): Scores
    requires HasGroupMetrics(metrics) && HasGroupMetrics(inner)
  {
    map["sla_quality" := GroupScore(metrics, inner, SLA_QUALITY),
        "network_coordination" := GroupScore(metrics, inner, NETWORK_COORDINATION),
        "resource_efficiency" := GroupScore(metrics, inner, RESOURCE_EFFICIENCY),
        "economic_cost" := GroupScore(metrics, inner, ECONOMIC_COST),
        "green_carbon" := GroupScore(metrics, inner, GREEN_CARBON)]
  }

  ghost predicate IsGroupScore(score: real, metrics: Scores, inner: Scores, members: seq<string>) {
    && HasKeys(metrics, members) && HasKeys(inner, members)
    && if |members| == 1 then score == Clamp(metrics[members[0]], 0.0, 1.0) else IsUtility(score, metrics, inner, members)
  }

  lemma GroupScoreIs(metrics: Scores, inner: Scores, members: seq<string>)
    requires HasKeys(metrics, members) && HasKeys(inner, members) && members != []
    ensures IsGroupScore(GroupScore(metrics, inner, members), metrics, inner, members)
  {
    if |members| > 1 {
      UtilityIs(GroupScore(metrics, inner, members), metrics, inner, members);
    }
  }

  lemma GroupMetricsAre(metrics: Scores)
    requires HasGroupMetrics(metrics)
    ensures HasKeys(metrics, ["performance", "completion", "reliability"]) && HasKeys(metrics, ["network", "locality"])
    ensures HasKeys(metrics, ["balance", "fragmentation"]) && HasKeys(metrics, ["cost"]) && HasKeys(metrics, ["carbon"])
  {
  }

  lemma GroupsByName(metrics: Scores, inner: Scores)
    requires HasGroupMetrics(metrics) && HasGroupMetrics(inner)
    ensures var g := GroupScores(metrics, inner);
            && g.Keys == {"sla_quality", "network_coordination", "resource_efficiency", "economic_cost", "green_carbon"}
            && g["sla_quality"] == GroupScore(metrics, inner, SLA_QUALITY)
            && g["network_coordination"] == GroupScore(metrics, inner, NETWORK_COORDINATION)
            && g["resource_efficiency"] == GroupScore(metrics, inner, RESOURCE_EFFICIENCY)
            && g["economic_cost"] == GroupScore(metrics, inner, ECONOMIC_COST)
            && g["green_carbon"] == GroupScore(metrics, inner, GREEN_CARBON)
  {
  }

  /** The five groups and the metrics each is made of. */
  lemma GroupScoresAre(metrics: Scores, inner: Scores)
    requires HasGroupMetrics(metrics) && HasGroupMetrics(inner)
    ensures var g := GroupScores(metrics, inner);
            && g.Keys == {"sla_quality", "network_coordination", "resource_efficiency", "economic_cost", "green_carbon"}
            && IsGroupScore(g["sla_quality"], metrics, inner, ["performance", "completion", "reliability"])
            && IsGroupScore(g["network_coordination"], metrics, inner, ["network", "locality"])
            && IsGroupScore(g["resource_efficiency"], metrics, inner, ["balance", "fragmentation"])
            && IsGroupScore(g["economic_cost"], metrics, inner, ["cost"])
            && IsGroupScore(g["green_carbon"], metrics, inner, ["carbon"])
  {
    GroupMetricsAre(metrics);
    GroupMetricsAre(inner);
    GroupsByName(metrics, inner);
    GroupScoreIs(metrics, inner, ["performance", "completion", "reliability"]);
    GroupScoreIs(metrics, inner, ["network", "locality"]);
    GroupScoreIs(metrics, inner, ["balance", "fragmentation"]);
    GroupScoreIs(metrics, inner, ["cost"]);
    GroupScoreIs(metrics, inner, ["carbon"]);
  }

  lemma GroupScoreIsMonotone(a: Scores, b: Scores, inner: Scores, members: seq<string>)
    requires Scored(a, inner, members) && Scored(b, inner, members) && AtLeast(a, b, members) && members != []
    ensures GroupScore(a, inner, members) >= GroupScore(b, inner, members)
  {
    if |members| > 1 {
      UtilityIsMonotone(a, b, inner, members);
    }
  }

  ghost predicate ScoredInGroups(metrics: Scores, inner: Scores) {
    && Scored(metrics, inner, SLA_QUALITY) && Scored(metrics, inner, NETWORK_COORDINATION)
    && Scored(metrics, inner, RESOURCE_EFFICIENCY) && Scored(metrics, inner, ECONOMIC_COST)
    && Scored(metrics, inner, GREEN_CARBON)
  }

  /** Being at least as good on the atomic metrics carries over to every group. */
  lemma GroupsRespectMetrics(a: Scores, b: Scores, inner: Scores)
    requires ScoredInGroups(a, inner) && ScoredInGroups(b, inner)
    requires AtLeast(a, b, SLA_QUALITY) && AtLeast(a, b, NETWORK_COORDINATION)
    requires AtLeast(a, b, RESOURCE_EFFICIENCY) && AtLeast(a, b, ECONOMIC_COST) && AtLeast(a, b, GREEN_CARBON)
    ensures forall g :: g in GroupScores(b, inner) ==>
              g in GroupScores(a, inner) && GroupScores(a, inner)[g] >= GroupScores(b, inner)[g]
  {
    GroupScoreIsMonotone(a, b, inner, SLA_QUALITY);
    GroupScoreIsMonotone(a, b, inner, NETWORK_COORDINATION);
    GroupScoreIsMonotone(a, b, inner, RESOURCE_EFFICIENCY);
    GroupScoreIsMonotone(a, b, inner, ECONOMIC_COST);
    GroupScoreIsMonotone(a, b, inner, GREEN_CARBON);
  }
}
