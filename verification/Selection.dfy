/** Node selection: hard filters, the greenest deferred start, the budget preference,
    the Pareto restriction and the final lexicographic choice. What the network model
    and the metric formulas say about a node is an input record. */
module Selection {
  import opened Common
  import opened Carbon
  import opened Pareto

  datatype Strategy = WeightedSum | ParetoTchebycheff | Hierarchical

  datatype TaskView = TaskView(
    allowTimeShift: bool,
    deferrableUntil: Option<int>,
    carbonBudget: Option<real>,
    deadline: Option<int>,
    budget: Option<real>)

  datatype NodeView = NodeView(
    id: NodeId,
    canHost: bool,
    networkFeasible: bool,
    startTick: int,
    duration: int,
    energyKwh: real,
    profile: Profile,
    cost: real,
    scarceGpu: bool,
    regionPressure: real,
    securityPenalty: real,
    tieBreaks: seq<real>)

  /** A node with the start tick the carbon search gave it. */
  datatype Candidate = Candidate(view: NodeView, tick: int)

  predicate MayDefer(task: TaskView) {
    task.allowTimeShift && task.deferrableUntil.Some?
  }

  function LatestStart(task: TaskView, view: NodeView): int
    requires MayDefer(task)
  {
    if task.deferrableUntil.value > view.startTick then task.deferrableUntil.value else view.startTick
  }

  /** A deferrable task starts at a greenest tick of its window, any other task at once. */
  ghost predicate WellTimed(task: TaskView, c: Candidate) {
    if MayDefer(task) then
      && c.view.startTick <= c.tick <= LatestStart(task, c.view)
      && forall t :: c.view.startTick <= t <= LatestStart(task, c.view) ==>
           IntensityAt(c.view.profile, c.tick) <= IntensityAt(c.view.profile, t)
    else c.tick == c.view.startTick
  }

  function PredictedCarbon(c: Candidate): real {
    c.view.energyKwh * Max(0.0, IntensityAt(c.view.profile, c.tick))
  }

  predicate Passes(task: TaskView, c: Candidate) {
    && c.view.canHost
    && c.view.networkFeasible
    && (task.carbonBudget.Some? ==> PredictedCarbon(c) <= task.carbonBudget.value)
    && (task.deadline.Some? ==> c.tick + c.view.duration <= task.deadline.value)
  }

  predicate WithinBudget(task: TaskView, c: Candidate) {
    task.budget.Some? ==> c.view.cost <= task.budget.value
  }

  method Timed(task: TaskView, view: NodeView) returns (c: Candidate)
    ensures c.view == view && WellTimed(task, c)
  {
    var tick := view.startTick;
    if MayDefer(task) {
      tick := GreenestTick(view.profile, view.startTick, LatestStart(task, view));
    }
    c := Candidate(view, tick);
  }

  /** If deferring is allowed and some tick of the window meets the carbon budget, the chosen
      tick meets it. */
  lemma DeferralFindsBudget(task: TaskView, c: Candidate, tick: int)
    requires MayDefer(task) && WellTimed(task, c) && c.view.energyKwh >= 0.0
    requires c.view.startTick <= tick <= LatestStart(task, c.view)
    ensures PredictedCarbon(c) <= PredictedCarbon(Candidate(c.view, tick))
  {
    var chosen := Max(0.0, IntensityAt(c.view.profile, c.tick));
    var other := Max(0.0, IntensityAt(c.view.profile, tick));
    ProductNonNegative(c.view.energyKwh, other - chosen);
    assert c.view.energyKwh * (other - chosen) == c.view.energyKwh * other - c.view.energyKwh * chosen;
  }

  /** Whatever the carbon trace, a node that passes at some tick of its window passes at the
      tick it is tested at. */
  ghost predicate DeferralIsHarmless(task: TaskView, view: NodeView)
    requires MayDefer(task)
  {
    forall profile: Profile, c: Candidate, tick ::
      c.view == view.(profile := profile) && WellTimed(task, c)
      && view.startTick <= tick <= LatestStart(task, view) && Passes(task, Candidate(c.view, tick)) ==>
        Passes(task, c)
  }

  /** The deadline falls inside the window: met by the earliest start, missed by the latest. */
  predicate DeadlineInsideWindow(task: TaskView, view: NodeView)
    requires MayDefer(task)
  {
    && view.canHost && view.networkFeasible
    && (task.carbonBudget.Some? ==> task.carbonBudget.value >= 0.0)
    && task.deadline.Some?
    && view.startTick + view.duration <= task.deadline.value < LatestStart(task, view) + view.duration
  }

  /** The tick is fixed before the deadline is looked at, so a node can be lost by deferring.
      It is safe exactly when the deadline is not inside the window of a usable node. */
  lemma DeferralIsHarmlessIff(task: TaskView, view: NodeView)
    requires MayDefer(task) && view.energyKwh >= 0.0
    ensures DeferralIsHarmless(task, view) <==> !DeadlineInsideWindow(task, view)
  {
    if DeadlineInsideWindow(task, view) {
      var c := GreenLater(task, view);
      assert Passes(task, Candidate(c.view, view.startTick));
    } else {
      forall profile: Profile, c: Candidate, tick
        | c.view == view.(profile := profile) && WellTimed(task, c)
          && view.startTick <= tick <= LatestStart(task, view) && Passes(task, Candidate(c.view, tick))
        ensures Passes(task, c)
      {
        DeferralFindsBudget(task, c, tick);
        ProductNonNegative(view.energyKwh, Max(0.0, IntensityAt(profile, tick)));
      }
    }
  }

  /** A trace that is free of carbon only from the latest start on. */
  function LaterIsGreen(start: int, latest: int, before: real): Profile {
    Profile(before, map[start := before, latest := 0.0])
  }

  lemma LaterIsGreenHolds(start: int, latest: int, before: real, tick: int)
    requires start <= tick <= latest && start < latest
    ensures IntensityAt(LaterIsGreen(start, latest, before), tick) == if tick == latest then 0.0 else before
  {
    var p := LaterIsGreen(start, latest, before);
    assert start in Passed(p, tick);
    assert Passed(p, tick) == if tick == latest then {start, latest} else {start};
  }

  /** What the start may emit: as much as the budget allows. */
  function Affordable(budget: Option<real>, energy: real): (intensity: real)
    requires energy >= 0.0 && (budget.Some? ==> budget.value >= 0.0)
    ensures intensity >= 0.0 && (budget.Some? ==> energy * intensity <= budget.value)
  {
    if budget.None? || energy == 0.0 then 1.0 else budget.value / energy
  }

  lemma GreenLater(task: TaskView, view: NodeView) returns (c: Candidate)
    requires MayDefer(task) && view.energyKwh >= 0.0 && DeadlineInsideWindow(task, view)
    ensures c.view == view.(profile := c.view.profile) && WellTimed(task, c) && !Passes(task, c)
    ensures Passes(task, Candidate(c.view, view.startTick))
  {
    var latest := LatestStart(task, view);
    var before := Affordable(task.carbonBudget, view.energyKwh);
    var profile := LaterIsGreen(view.startTick, latest, before);
    c := Candidate(view.(profile := profile), latest);
    LaterIsGreenHolds(view.startTick, latest, before, view.startTick);
    forall t | view.startTick <= t <= latest
      ensures IntensityAt(profile, latest) <= IntensityAt(profile, t)
    {
      LaterIsGreenHolds(view.startTick, latest, before, t);
      LaterIsGreenHolds(view.startTick, latest, before, latest);
    }
  }

  /** A task due at 50 that may be deferred until 100, and a node where the carbon intensity
      drops at 100: the node passes if it starts at once, and is dropped at its only green tick. */
  lemma DeferralCanLoseNode() returns (task: TaskView, view: NodeView)
    ensures MayDefer(task) && Passes(task, Candidate(view, 0))
    ensures forall c: Candidate :: c.view == view && WellTimed(task, c) ==> c.tick == 100 && !Passes(task, c)
  {
    task := TaskView(true, Some(100), None, Some(50), None);
    view := NodeView("node", true, true, 0, 10, 1.0, Profile(5.0, map[0 := 5.0, 100 := 1.0]), 1.0, false, 0.0, 0.0, [0.0, 0.0, 0.0, 0.0]);
    assert Passed(view.profile, 100) == {0, 100};
    assert IntensityAt(view.profile, 100) == 1.0;
    forall tick | 0 <= tick < 100
      ensures IntensityAt(view.profile, tick) == 5.0
    {
      assert 0 in Passed(view.profile, tick);
      assert Passed(view.profile, tick) == {0};
    }
  }

  // ----- the final choice

  predicate Greater(a: seq<real>, b: seq<real>)
    requires |a| == |b|
  {
    a != [] && (a[0] > b[0] || (a[0] == b[0] && Greater(a[1..], b[1..])))
  }

  /** The first difference decides. */
  lemma {:induction false} FirstDifferenceDecides(a: seq<real>, b: seq<real>)
    requires |a| == |b|
    ensures Greater(a, b) <==> exists k :: 0 <= k < |a| && a[k] > b[k] && a[..k] == b[..k]
  {
    if a != [] {
      FirstDifferenceDecides(a[1..], b[1..]);
      if a[0] > b[0] {
        assert a[..0] == b[..0];
      }
      if k :| 0 <= k < |a[1..]| && a[1..][k] > b[1..][k] && a[1..][..k] == b[1..][..k] && a[0] == b[0] {
        assert a[..k + 1] == [a[0]] + a[1..][..k] && b[..k + 1] == [b[0]] + b[1..][..k];
      }
      if k :| 0 < k < |a| && a[k] > b[k] && a[..k] == b[..k] {
        assert a[..k][0] == a[0] && b[..k][0] == b[0];
        assert a[1..][..k - 1] == a[..k][1..] && b[1..][..k - 1] == b[..k][1..];
        assert a[1..][k - 1] > b[1..][k - 1];
      }
    }
  }

  lemma {:induction false} NotGreaterCarriesOver(a: seq<real>, b: seq<real>, c: seq<real>)
    requires |a| == |b| == |c| && !Greater(a, b) && Greater(c, b)
    ensures !Greater(a, c)
  {
    if a != [] && a[0] == b[0] == c[0] {
      NotGreaterCarriesOver(a[1..], b[1..], c[1..]);
    }
  }

  lemma {:induction false} NeverGreaterThanItself(a: seq<real>)
    ensures !Greater(a, a)
  {
    if a != [] {
      NeverGreaterThanItself(a[1..]);
    }
  }

  /** How the nodes are scored: the active table (atomic metrics, or groups when
      hierarchical), its keys and weights, and the pressure relief of green profiles. */
  datatype Scoring = Scoring(
    strategy: Strategy, table: map<NodeId, Scores>, keys: seq<string>, weights: Scores, pressureScale: real)

  ghost predicate ScoresAll(s: Scoring, pool: seq<NodeView>) {
    && Complete(s.table, s.keys) && HasKeys(s.weights, s.keys)
    && (forall i :: 0 <= i < |pool| ==> pool[i].id in s.table && |pool[i].tieBreaks| == 4)
    && (forall i, j :: 0 <= i < j < |pool| ==> pool[i].id != pool[j].id)
  }

  function WeightedScore(scores: Scores, weights: Scores, keys: seq<string>): real
    requires HasKeys(scores, keys) && HasKeys(weights, keys)
  {
    if keys == [] then 0.0
    else WeightedScore(scores, weights, keys[..|keys| - 1]) + scores[keys[|keys| - 1]] * weights[keys[|keys| - 1]]
  }

  /** Every score times its weight. */
  function Products(scores: Scores, weights: Scores, keys: seq<string>): (p: seq<real>)
    requires HasKeys(scores, keys) && HasKeys(weights, keys)
    ensures |p| == |keys| && forall i :: 0 <= i < |keys| ==> p[i] == scores[keys[i]] * weights[keys[i]]
  {
    seq(|keys|, i requires 0 <= i < |keys| && keys[i] in scores && keys[i] in weights =>
      scores[keys[i]] * weights[keys[i]])
  }

  lemma {:induction false} WeightedScoreIsSum(scores: Scores, weights: Scores, keys: seq<string>, n: nat)
    requires HasKeys(scores, keys) && HasKeys(weights, keys) && n <= |keys|
    ensures WeightedScore(scores, weights, keys[..n]) == SumTo(Products(scores, weights, keys), n)
  {
    if n > 0 {
      WeightedScoreIsSum(scores, weights, keys, n - 1);
      assert keys[..n][..n - 1] == keys[..n - 1];
    }
  }

  function Base(s: Scoring, c: Candidate): real
    requires c.view.id in s.table && HasKeys(s.table[c.view.id], s.keys) && HasKeys(s.weights, s.keys)
  {
    var row := s.table[c.view.id];
    match s.strategy
    case WeightedSum => WeightedScore(row, s.weights, s.keys)
    case ParetoTchebycheff => TchebycheffUtility(row, s.weights, s.keys)
    case Hierarchical => TchebycheffUtility(row, s.weights, s.keys) - c.view.securityPenalty
  }

  function Burden(scarceGpu: bool, pressure: real, scale: real): real {
    (if scarceGpu then 0.75 else 0.0) + pressure * 1.10 * scale
    + if pressure >= 0.72 then (pressure - 0.72) * 3.0 * scale else 0.0
  }

  function AdjustedTotal(s: Scoring, c: Candidate): real
    requires c.view.id in s.table && HasKeys(s.table[c.view.id], s.keys) && HasKeys(s.weights, s.keys)
  {
    Base(s, c) - Burden(c.view.scarceGpu, c.view.regionPressure, s.pressureScale)
  }

  /** What each strategy starts from: the weighted sum of the scores, the utility, or the utility
      less the security penalty. */
  ghost predicate IsBase(s: Scoring, c: Candidate, base: real)
    requires c.view.id in s.table && HasKeys(s.table[c.view.id], s.keys) && HasKeys(s.weights, s.keys)
  {
    match s.strategy
    case WeightedSum => base == Sum(Products(s.table[c.view.id], s.weights, s.keys))
    case ParetoTchebycheff => IsUtility(base, s.table[c.view.id], s.weights, s.keys)
    case Hierarchical => IsUtility(base + c.view.securityPenalty, s.table[c.view.id], s.weights, s.keys)
  }

  lemma BaseIs(s: Scoring, c: Candidate)
    requires c.view.id in s.table && HasKeys(s.table[c.view.id], s.keys) && HasKeys(s.weights, s.keys)
    ensures IsBase(s, c, Base(s, c))
  {
    var row := s.table[c.view.id];
    if s.strategy == WeightedSum {
      WeightedScoreIsSum(row, s.weights, s.keys, |s.keys|);
      assert s.keys[..|s.keys|] == s.keys;
    } else {
      UtilityIs(TchebycheffUtility(row, s.weights, s.keys), row, s.weights, s.keys);
    }
  }

  /** A scarce GPU costs 0.75; regional pressure costs 1.10 a unit, and 4.10 a unit above 0.72. */
  ghost predicate IsBurden(burden: real, scarceGpu: bool, pressure: real, scale: real) {
    burden == (if scarceGpu then 0.75 else 0.0)
              + scale * (if pressure <= 0.72 then 1.10 * pressure else 1.10 * 0.72 + 4.10 * (pressure - 0.72))
  }

  lemma BurdenIs(scarceGpu: bool, pressure: real, scale: real)
    ensures IsBurden(Burden(scarceGpu, pressure, scale), scarceGpu, pressure, scale)
  {
  }

  ghost predicate IsTotal(s: Scoring, c: Candidate, total: real)
    requires c.view.id in s.table && HasKeys(s.table[c.view.id], s.keys) && HasKeys(s.weights, s.keys)
  {
    exists base ::
      IsBase(s, c, base) && IsBurden(base - total, c.view.scarceGpu, c.view.regionPressure, s.pressureScale)
  }

  /** The adjusted total is what the strategy starts from, less the burden. */
  lemma TotalIs(s: Scoring, c: Candidate)
    requires c.view.id in s.table && HasKeys(s.table[c.view.id], s.keys) && HasKeys(s.weights, s.keys)
    ensures IsTotal(s, c, AdjustedTotal(s, c))
  {
    BaseIs(s, c);
    BurdenIs(c.view.scarceGpu, c.view.regionPressure, s.pressureScale);
    assert Base(s, c) - AdjustedTotal(s, c) == Burden(c.view.scarceGpu, c.view.regionPressure, s.pressureScale);
  }

  /** The same candidate with a scarce GPU, or in a region under more pressure. */
  ghost predicate MoreBurdened(c: Candidate, d: Candidate) {
    && d.view == c.view.(scarceGpu := d.view.scarceGpu, regionPressure := d.view.regionPressure)
    && (c.view.scarceGpu ==> d.view.scarceGpu) && c.view.regionPressure <= d.view.regionPressure
  }

  /** Scarce GPUs and pressure only lower the total. */
  lemma BurdensLower(s: Scoring, c: Candidate, d: Candidate)
    requires c.view.id in s.table && HasKeys(s.table[c.view.id], s.keys) && HasKeys(s.weights, s.keys)
    requires MoreBurdened(c, d) && s.pressureScale >= 0.0
    ensures AdjustedTotal(s, d) <= AdjustedTotal(s, c)
    ensures d.view.scarceGpu && !c.view.scarceGpu ==> AdjustedTotal(s, d) <= AdjustedTotal(s, c) - 0.75
  {
    BurdenGrows(c.view.scarceGpu, d.view.scarceGpu, c.view.regionPressure, d.view.regionPressure, s.pressureScale);
  }

  lemma BurdenGrows(scarce: bool, scarcer: bool, pressure: real, more: real, scale: real)
    requires (scarce ==> scarcer) && pressure <= more && scale >= 0.0
    ensures Burden(scarcer, more, scale) >= Burden(scarce, pressure, scale) + if scarcer && !scarce then 0.75 else 0.0
  {
    ProductNonNegative(more - pressure, scale);
    if more >= 0.72 {
      ProductNonNegative(more - 0.72, scale);
    }
  }

  function RankKey(s: Scoring, c: Candidate): (key: seq<real>)
    requires c.view.id in s.table && HasKeys(s.table[c.view.id], s.keys) && HasKeys(s.weights, s.keys)
    requires |c.view.tieBreaks| == 4
    ensures |key| == 5
  {
    [AdjustedTotal(s, c)] + c.view.tieBreaks
  }

  /** All candidates can be ranked, and no two are the same node. */
  ghost predicate Rankable(s: Scoring, cs: seq<Candidate>) {
    && Complete(s.table, s.keys) && HasKeys(s.weights, s.keys)
    && (forall i :: 0 <= i < |cs| ==> cs[i].view.id in s.table && |cs[i].view.tieBreaks| == 4)
  }

  method BestOf(s: Scoring, cs: seq<Candidate>) returns (best: Candidate)
    requires cs != [] && Rankable(s, cs)
    ensures best in cs && best.view.id in s.table && |best.view.tieBreaks| == 4
    ensures forall i :: 0 <= i < |cs| ==> !Greater(RankKey(s, cs[i]), RankKey(s, best))
  {
    best := cs[0];
    NeverGreaterThanItself(RankKey(s, best));
    var i := 1;
    while i < |cs|
      invariant 1 <= i <= |cs| && best in cs && best.view.id in s.table && |best.view.tieBreaks| == 4
      invariant forall j :: 0 <= j < i ==> !Greater(RankKey(s, cs[j]), RankKey(s, best))
    {
      NeverGreaterThanItself(RankKey(s, cs[i]));
      if Greater(RankKey(s, cs[i]), RankKey(s, best)) {
        forall j | 0 <= j < i
          ensures !Greater(RankKey(s, cs[j]), RankKey(s, cs[i]))
        {
          NotGreaterCarriesOver(RankKey(s, cs[j]), RankKey(s, best), RankKey(s, cs[i]));
        }
        best := cs[i];
      }
      i := i + 1;
    }
  }

  // ----- filtering

  /** The candidates left by the hard filters, and then by the budget if any meets it. */
  ghost predicate Eligible(task: TaskView, considered: seq<Candidate>, c: Candidate) {
    && c in considered && Passes(task, c)
    && ((exists d :: d in considered && Passes(task, d) && WithinBudget(task, d)) ==> WithinBudget(task, c))
  }

  method Filter(task: TaskView, considered: seq<Candidate>) returns (kept: seq<Candidate>)
    ensures forall c :: c in kept <==> Eligible(task, considered, c)
  {
    var passing, affordable: seq<Candidate> := [], [];
    var i := 0;
    while i < |considered|
      invariant 0 <= i <= |considered|
      invariant forall c :: c in passing <==> c in considered[..i] && Passes(task, c)
      invariant forall c :: c in affordable <==> c in considered[..i] && Passes(task, c) && WithinBudget(task, c)
    {
      var c := considered[i];
      assert considered[..i + 1] == considered[..i] + [c];
      if Passes(task, c) {
        passing := passing + [c];
        if WithinBudget(task, c) {
          affordable := affordable + [c];
        }
      }
      i := i + 1;
    }
    assert considered[..i] == considered;
    if affordable != [] {
      assert affordable[0] in affordable;
      kept := affordable;
    } else {
      kept := passing;
    }
  }

  /** The rows of the eligible candidates. */
  ghost function EligibleTable(s: Scoring, kept: seq<Candidate>): map<NodeId, Scores> {
    map id | id in s.table && (exists c :: c in kept && c.view.id == id) :: s.table[id]
  }

  method NodeIds(kept: seq<Candidate>) returns (ids: seq<NodeId>)
    ensures |ids| == |kept| && forall j :: 0 <= j < |kept| ==> ids[j] == kept[j].view.id
    ensures forall id :: id in ids <==> exists c :: c in kept && c.view.id == id
  {
    ids := [];
    var i := 0;
    while i < |kept|
      invariant 0 <= i <= |kept| && |ids| == i
      invariant forall j :: 0 <= j < i ==> ids[j] == kept[j].view.id
    {
      ids := ids + [kept[i].view.id];
      i := i + 1;
    }
    forall id
      ensures id in ids <==> exists c :: c in kept && c.view.id == id
    {
      if id in ids {
        var j :| 0 <= j < |ids| && ids[j] == id;
        assert kept[j] in kept && kept[j].view.id == id;
      }
      if c :| c in kept && c.view.id == id {
        var j :| 0 <= j < |kept| && kept[j] == c;
        assert ids[j] == id;
      }
    }
  }

  method KeepThose(kept: seq<Candidate>, front: set<NodeId>) returns (finalists: seq<Candidate>)
    ensures forall c :: c in finalists <==> c in kept && c.view.id in front
  {
    finalists := [];
    var i := 0;
    while i < |kept|
      invariant 0 <= i <= |kept|
      invariant forall c :: c in finalists <==> c in kept[..i] && c.view.id in front
    {
      assert kept[..i + 1] == kept[..i] + [kept[i]];
      if kept[i].view.id in front {
        finalists := finalists + [kept[i]];
      }
      i := i + 1;
    }
    assert kept[..i] == kept;
  }

  method Restrict(s: Scoring, kept: seq<Candidate>) returns (finalists: seq<Candidate>)
    requires Rankable(s, kept)
    ensures Complete(EligibleTable(s, kept), s.keys)
    ensures forall c :: c in finalists <==>
              c in kept && (s.strategy == WeightedSum || c.view.id in Undominated(EligibleTable(s, kept), s.keys))
    ensures kept != [] ==> finalists != []
  {
    if s.strategy == WeightedSum { return kept; }
    var ids := NodeIds(kept);
    var table := map id | id in ids && id in s.table :: s.table[id];
    assert table == EligibleTable(s, kept);
    forall id | id in ids
      ensures id in table
    {
      var c :| c in kept && c.view.id == id;
    }
    var front := ParetoFront(table, ids, s.keys);
    finalists := KeepThose(kept, front);
    if kept != [] {
      assert kept[0].view.id in table by { assert ids[0] in ids; }
      ghost var best := FrontRepresents(table, s.keys, kept[0].view.id);
      ghost var c :| c in kept && c.view.id == best;
      assert c in finalists;
    }
  }

  /** Some eligible node dominates this one. */
  ghost predicate Beaten(task: TaskView, s: Scoring, considered: seq<Candidate>, c: Candidate)
    requires Complete(s.table, s.keys) && c.view.id in s.table
  {
    exists d :: Eligible(task, considered, d) && d.view.id in s.table
                && Dominates(s.table[d.view.id], s.table[c.view.id], s.keys)
  }

  /** Eligible, rankable, and on the front if the strategy asks for it. */
  ghost predicate Contends(task: TaskView, s: Scoring, considered: seq<Candidate>, c: Candidate)
    requires Complete(s.table, s.keys)
  {
    && Eligible(task, considered, c) && c.view.id in s.table && |c.view.tieBreaks| == 4
    && (s.strategy == WeightedSum || !Beaten(task, s, considered, c))
  }

  /** The decision, and the candidates it was taken from. */
  method SelectNode(task: TaskView, pool: seq<NodeView>, s: Scoring)
    returns (best: Option<Candidate>, considered: seq<Candidate>)
    requires ScoresAll(s, pool)
    // every node is considered at a greenest start
    ensures |considered| == |pool|
    ensures forall i :: 0 <= i < |pool| ==> considered[i].view == pool[i] && WellTimed(task, considered[i])
    // there is no decision exactly when no node passes the hard filters at its tick
    ensures best.None? <==> forall c :: c in considered ==> !Passes(task, c)
    // the budget is a preference, the Pareto front a restriction
    ensures best.Some? ==> Eligible(task, considered, best.value) && best.value.view.id in s.table
    ensures best.Some? && s.strategy != WeightedSum ==> !Beaten(task, s, considered, best.value)
    // and no node that is left has a higher adjusted total, or the same and a better tie-break;
    // the total is what the strategy starts from, less what a scarce GPU and pressure cost
    ensures forall c :: Contends(task, s, considered, c) ==> IsTotal(s, c, AdjustedTotal(s, c))
    ensures best.Some? ==> Contends(task, s, considered, best.value)
    ensures best.Some? ==>
              forall c :: Contends(task, s, considered, c) ==>
                AdjustedTotal(s, c) <= AdjustedTotal(s, best.value) && !Greater(RankKey(s, c), RankKey(s, best.value))
  {
    considered := [];
    var i := 0;
    while i < |pool|
      invariant 0 <= i <= |pool| && |considered| == i
      invariant forall j :: 0 <= j < i ==> considered[j].view == pool[j] && WellTimed(task, considered[j])
    {
      var c := Timed(task, pool[i]);
      considered := considered + [c];
      i := i + 1;
    }
    var kept := Filter(task, considered);
    TotalsAre(task, s, considered);
    if kept == [] {
      PassingMeansEligible(task, considered);
      return None, considered;
    }
    assert kept[0] in kept;
    EligibleAreRankable(task, pool, s, considered, kept);
    var finalists := Restrict(s, kept);
    FinalistsAreRankable(s, kept, finalists);
    var chosen := BestOf(s, finalists);
    best := Some(chosen);
    WinnerFacts(task, s, considered, kept, finalists, chosen);
  }

  lemma TotalsAre(task: TaskView, s: Scoring, considered: seq<Candidate>)
    requires Complete(s.table, s.keys) && HasKeys(s.weights, s.keys)
    ensures forall c :: Contends(task, s, considered, c) ==> IsTotal(s, c, AdjustedTotal(s, c))
  {
    forall c | Contends(task, s, considered, c)
      ensures IsTotal(s, c, AdjustedTotal(s, c))
    {
      TotalIs(s, c);
    }
  }

  lemma PassingMeansEligible(task: TaskView, considered: seq<Candidate>)
    ensures (exists c :: c in considered && Passes(task, c)) ==> exists c :: Eligible(task, considered, c)
  {
    if d :| d in considered && Passes(task, d) && WithinBudget(task, d) {
      assert Eligible(task, considered, d);
    } else if c :| c in considered && Passes(task, c) {
      assert Eligible(task, considered, c);
    }
  }

  lemma EligibleAreRankable(task: TaskView, pool: seq<NodeView>, s: Scoring, considered: seq<Candidate>, kept: seq<Candidate>)
    requires ScoresAll(s, pool) && |considered| == |pool|
    requires forall i :: 0 <= i < |pool| ==> considered[i].view == pool[i]
    requires forall c :: c in kept ==> Eligible(task, considered, c)
    ensures Rankable(s, kept)
  {
    forall i | 0 <= i < |kept|
      ensures kept[i].view.id in s.table && |kept[i].view.tieBreaks| == 4
    {
      assert kept[i] in kept;
      var j :| 0 <= j < |considered| && considered[j] == kept[i];
    }
  }

  lemma FinalistsAreRankable(s: Scoring, kept: seq<Candidate>, finalists: seq<Candidate>)
    requires Rankable(s, kept) && forall c :: c in finalists ==> c in kept
    ensures Rankable(s, finalists)
  {
    forall i | 0 <= i < |finalists|
      ensures finalists[i].view.id in s.table && |finalists[i].view.tieBreaks| == 4
    {
      assert finalists[i] in finalists;
      var j :| 0 <= j < |kept| && kept[j] == finalists[i];
    }
  }

  /** The front of the eligible rows consists of the eligible nodes nobody eligible dominates. */
  lemma FrontOfEligible(task: TaskView, s: Scoring, considered: seq<Candidate>, kept: seq<Candidate>, c: Candidate)
    requires Rankable(s, kept) && Complete(EligibleTable(s, kept), s.keys)
    requires forall d :: d in kept <==> Eligible(task, considered, d)
    requires c in kept && c.view.id in s.table
    ensures c.view.id in Undominated(EligibleTable(s, kept), s.keys) <==> !Beaten(task, s, considered, c)
  {
    var table := EligibleTable(s, kept);
    assert c.view.id in table;
    if d :| Eligible(task, considered, d) && d.view.id in s.table
            && Dominates(s.table[d.view.id], s.table[c.view.id], s.keys) {
      assert d in kept && d.view.id in Dominators(table, s.keys, c.view.id);
    }
    if id :| id in Dominators(table, s.keys, c.view.id) {
      var d :| d in kept && d.view.id == id;
      assert Eligible(task, considered, d);
    }
  }

  lemma WinnerFacts(task: TaskView, s: Scoring, considered: seq<Candidate>, kept: seq<Candidate>,
                    finalists: seq<Candidate>, best: Candidate)
    requires Rankable(s, kept) && Rankable(s, finalists) && Complete(EligibleTable(s, kept), s.keys)
    requires forall d :: d in kept <==> Eligible(task, considered, d)
    requires forall c :: c in finalists <==>
               c in kept && (s.strategy == WeightedSum || c.view.id in Undominated(EligibleTable(s, kept), s.keys))
    requires best in finalists && best.view.id in s.table && |best.view.tieBreaks| == 4
    requires forall i :: 0 <= i < |finalists| ==> !Greater(RankKey(s, finalists[i]), RankKey(s, best))
    ensures s.strategy != WeightedSum ==> !Beaten(task, s, considered, best)
    ensures forall c :: Contends(task, s, considered, c) ==>
              AdjustedTotal(s, c) <= AdjustedTotal(s, best) && !Greater(RankKey(s, c), RankKey(s, best))
  {
    FrontOfEligible(task, s, considered, kept, best);
    forall c | Contends(task, s, considered, c)
      ensures AdjustedTotal(s, c) <= AdjustedTotal(s, best) && !Greater(RankKey(s, c), RankKey(s, best))
    {
      FrontOfEligible(task, s, considered, kept, c);
      assert c in finalists;
      var i :| 0 <= i < |finalists| && finalists[i] == c;
      assert !Greater(RankKey(s, c), RankKey(s, best));
    }
  }
}
