/** Batch planning on a shadow copy of the cluster: greedy placement and the two local
    searches, each proved to follow its rule. */
module BatchPlanning {
  import opened Common
  import opened Resources
  import opened Protocol
  import opened ProtocolSafety
  import opened BatchPlans

  // ----- the shadow cluster

  class ShadowCluster {
    var nodes: map<NodeId, Node>
    ghost var where: Where
    ghost const original: map<NodeId, Node>
    const batch: seq<BatchTask>
    /** How much a demand may exceed the room and still fit. */
    const slack: real

    ghost predicate Valid()
      reads this
    {
      && slack >= 0.0 && GoodBatch(batch) && Apart(original, batch)
      && Mirrors(original, nodes, where, batch) && Planned(original, where, batch, slack)
    }

    ghost function For(order: seq<NodeId>, pick: Pick): Setting {
      Setting(original, batch, slack, order, pick)
    }

    constructor (nodes: map<NodeId, Node>, batch: seq<BatchTask>, slack: real)
      requires slack >= 0.0 && GoodBatch(batch) && Apart(nodes, batch)
      ensures Valid() && where == map[] && original == nodes && this.batch == batch && this.slack == slack
    {
      this.nodes, this.batch, this.slack := nodes, batch, slack;
      where, original := map[], nodes;
      new;
      EmptyPlan(nodes, batch, slack);
    }

    /** A task goes where it fits, or back where it was, which is not tested again. */
    method Occupy(t: TaskId, n: NodeId)
      requires Valid() && t !in where && InBatch(batch, t) && n in nodes
      requires Fits(nodes, n, DemandOf(batch, t), slack) || Planned(original, where[t := n], batch, slack)
      modifies this
      ensures Valid() && where == old(where)[t := n]
    {
      if Fits(nodes, n, DemandOf(batch, t), slack) {
        PlaceKeepsPlan(original, nodes, where, batch, t, n, slack);
      }
      ghost var before := nodes;
      nodes := nodes[n := nodes[n].(running := nodes[n].running[Key(t) := DemandOf(batch, t)])];
      PlaceMirrors(original, before, nodes, where, batch, t, n);
      where := where[t := n];
    }

    method Vacate(t: TaskId, n: NodeId)
      requires Valid() && t in where && where[t] == n
      modifies this
      ensures Valid() && where == old(where) - {t}
    {
      VacateKeepsPlan(original, where, batch, t, slack);
      ghost var before := nodes;
      nodes := nodes[n := nodes[n].(running := nodes[n].running - {Key(t)})];
      VacateMirrors(original, before, nodes, where, batch, t);
      where := where - {t};
    }

    method CanHost(n: NodeId, demand: ResourceVector) returns (can: bool)
      ensures can == Fits(nodes, n, demand, slack)
    {
      if n !in nodes || !nodes[n].online { return false; }
      var available := ComputeAvailable(nodes[n].capacity, nodes[n].running);
      can := demand.FitsWithin(available, slack);
    }

    /** The scheduler decides for one of the candidates that can host the task, or for none. */
    method SelectNode(t: TaskId, candidates: seq<NodeId>, pick: Pick, ghost order: seq<NodeId>) returns (d: Option<Decision>)
      requires Valid()
      ensures d == Choice(For(order, pick), where, candidates, t)
      ensures d.Some? ==> d.value.node in candidates && Fits(nodes, d.value.node, DemandOf(batch, t), slack)
    {
      MirrorsLoaded(original, nodes, where, batch);
      d := pick(t, candidates, nodes);
      if d.Some? {
        var can := false;
        if d.value.node in candidates {
          can := CanHost(d.value.node, DemandOf(batch, t));
        }
        if !can {
          d := None;
        }
      }
    }
  }

  // ----- greedy placement

  /** One task goes where the scheduler says, or stays behind. */
  method PlaceNext(before: seq<Placement>, left: seq<TaskId>, t: TaskId, order: seq<NodeId>, pick: Pick, shadow: ShadowCluster)
    returns (placed: seq<Placement>, unplaced: seq<TaskId>)
    requires shadow.Valid() && t !in shadow.where && InBatch(shadow.batch, t)
    modifies shadow
    ensures shadow.Valid()
    ensures Progress(placed, unplaced, shadow.where)
            == FillStep(shadow.For(order, pick), Progress(before, left, old(shadow.where)), t)
  {
    var d := shadow.SelectNode(t, order, pick, order);
    if d.None? { return before, left + [t]; }
    shadow.Occupy(t, d.value.node);
    placed, unplaced := before + [Rated(t, d.value)], left;
  }

  /** Places the tasks one after another; those the scheduler cannot place stay behind. */
  method PlaceEach(before: seq<Placement>, tasks: seq<TaskId>, order: seq<NodeId>, pick: Pick, shadow: ShadowCluster)
    returns (placed: seq<Placement>, unplaced: seq<TaskId>)
    requires shadow.Valid() && Ready(Progress(before, [], shadow.where), tasks) && OfBatch(shadow.batch, Listed(tasks))
    modifies shadow
    ensures shadow.Valid()
    ensures Progress(placed, unplaced, shadow.where)
            == Fill(shadow.For(order, pick), Progress(before, [], old(shadow.where)), tasks, |tasks|)
    ensures forall i :: 0 <= i < |tasks| ==>
              Follows(shadow.For(order, pick),
                      Fill(shadow.For(order, pick), Progress(before, [], old(shadow.where)), tasks, i).where,
                      tasks[i], placed, unplaced)
    ensures Exhausted(shadow.For(order, pick), shadow.where, unplaced)
  {
    FillExhausts(shadow.For(order, pick), Progress(before, [], shadow.where), tasks);
    placed, unplaced := before, [];
    ghost var setting, start := shadow.For(order, pick), Progress(before, [], shadow.where);
    var i := 0;
    while i < |tasks|
      invariant 0 <= i <= |tasks| && shadow.Valid() && OfBatch(shadow.batch, Listed(tasks))
      invariant Progress(placed, unplaced, shadow.where) == Fill(setting, start, tasks, i)
    {
      NotYetPlaced(setting, start, tasks, i);
      placed, unplaced := PlaceNext(placed, unplaced, tasks[i], order, pick, shadow);
      i := i + 1;
    }
    forall j | 0 <= j < |tasks|
      ensures Follows(setting, Fill(setting, start, tasks, j).where, tasks[j], placed, unplaced)
    {
      FillFollows(setting, start, tasks, j, |tasks|);
    }
  }

  /** The greedy plan: every task in turn, each placed or left behind once. */
  method PlaceGreedily(ordered: seq<TaskId>, order: seq<NodeId>, pick: Pick, shadow: ShadowCluster)
    returns (placed: seq<Placement>, unplaced: seq<TaskId>)
    requires shadow.Valid() && shadow.where == map[]
    requires Distinct(ordered) && OfBatch(shadow.batch, Listed(ordered))
    modifies shadow
    ensures shadow.Valid() && Splits(Listed(ordered), placed, unplaced, shadow.where)
    ensures Exhausted(shadow.For(order, pick), shadow.where, unplaced)
    ensures Progress(placed, unplaced, shadow.where)
            == Fill(shadow.For(order, pick), Progress([], [], map[]), ordered, |ordered|)
    ensures forall i :: 0 <= i < |ordered| ==>
              Follows(shadow.For(order, pick), Fill(shadow.For(order, pick), Progress([], [], map[]), ordered, i).where,
                      ordered[i], placed, unplaced)
  {
    ghost var start := Progress([], [], shadow.where);
    placed, unplaced := PlaceEach([], ordered, order, pick, shadow);
    FillSplits(shadow.For(order, pick), start, ordered, |ordered|, Progress(placed, unplaced, shadow.where));
    assert ordered[..|ordered|] == ordered && start.where.Keys + Listed(ordered) == Listed(ordered);
  }

  // ----- local search

  /** Takes one placement away and puts it, or a better one, in its place. */
  method Reconsider(placed: seq<Placement>, i: nat, order: seq<NodeId>, pick: Pick, shadow: ShadowCluster) returns (q: Placement)
    requires shadow.Valid() && Describes(placed, shadow.where) && i < |placed|
    modifies shadow
    ensures shadow.Valid()
    ensures q == ExchangeAt(shadow.For(order, pick), placed[i], old(shadow.where))
    ensures TakesBetter(placed[i],
              Choice(shadow.For(order, pick), old(shadow.where) - {placed[i].task}, order, placed[i].task), q)
    ensures shadow.where == (old(shadow.where) - {placed[i].task})[placed[i].task := q.node]
  {
    var p := placed[i];
    PutBack(shadow.where, p.task);
    shadow.Vacate(p.task, p.node);
    var d := shadow.SelectNode(p.task, order, pick, order);
    q := Exchanged(p, d);
    shadow.Occupy(p.task, q.node);
  }

  method ExchangeNext(before: seq<Placement>, i: nat, ghost start: Progress, order: seq<NodeId>, pick: Pick, shadow: ShadowCluster)
    returns (after: seq<Placement>)
    requires shadow.Valid() && Describes(start.placed, start.where) && i < |start.placed|
    requires Progress(before, start.unplaced, shadow.where) == Improve(ExchangeRule(shadow.For(order, pick)), start, i)
    modifies shadow
    ensures shadow.Valid()
    ensures Progress(after, start.unplaced, shadow.where) == Improve(ExchangeRule(shadow.For(order, pick)), start, i + 1)
  {
    ImproveRearranges(ExchangeRule(shadow.For(order, pick)), true, start, i);
    var q := Reconsider(before, i, order, pick, shadow);
    after := before[i := q];
  }

  /** One pass over the placements. */
  method Exchange(placed: seq<Placement>, ghost left: seq<TaskId>, order: seq<NodeId>, pick: Pick, shadow: ShadowCluster)
    returns (improved: seq<Placement>)
    requires shadow.Valid() && Describes(placed, shadow.where)
    modifies shadow
    ensures shadow.Valid() && Describes(improved, shadow.where) && shadow.where.Keys == old(shadow.where).Keys
    ensures Moved(placed, improved, |placed|, true) && ExchangesBetter(shadow.For(order, pick), placed, improved)
    ensures Progress(improved, left, shadow.where)
            == Improve(ExchangeRule(shadow.For(order, pick)), Progress(placed, left, old(shadow.where)), |placed|)
  {
    improved := placed;
    ghost var rule, start := ExchangeRule(shadow.For(order, pick)), Progress(placed, left, shadow.where);
    var i := 0;
    while i < |placed|
      invariant 0 <= i <= |placed| && shadow.Valid()
      invariant Progress(improved, left, shadow.where) == Improve(rule, start, i)
    {
      improved := ExchangeNext(improved, i, start, order, pick, shadow);
      i := i + 1;
    }
    ImproveRearranges(rule, true, start, i);
    ImproveMoves(rule, true, start, i);
    ExchangeTakesBetter(shadow.For(order, pick), start);
  }

  /** Tasks that were left behind get another chance. */
  method Backfill(placed: seq<Placement>, unplaced: seq<TaskId>, order: seq<NodeId>, pick: Pick, shadow: ShadowCluster,
                  ghost ids: set<TaskId>)
    returns (improved: seq<Placement>, remaining: seq<TaskId>)
    requires shadow.Valid() && Splits(ids, placed, unplaced, shadow.where) && OfBatch(shadow.batch, ids)
    modifies shadow
    ensures shadow.Valid() && Splits(ids, improved, remaining, shadow.where) && placed <= improved
    ensures Exhausted(shadow.For(order, pick), shadow.where, remaining)
    ensures Progress(improved, remaining, shadow.where)
            == Backfilled(shadow.For(order, pick), Progress(placed, unplaced, old(shadow.where)))
  {
    ghost var setting, start := shadow.For(order, pick), Progress(placed, unplaced, shadow.where);
    BackfillKeepsPlan(setting, ids, start, Backfilled(setting, start));
    improved, remaining := PlaceEach(placed, unplaced, order, pick, shadow);
  }

  /** Exchange and backfill: no placed task is dropped, none is placed twice, at each position a
      better offer is taken, and the shadow cluster still carries exactly the plan. */
  method LocalImprove(placed: seq<Placement>, unplaced: seq<TaskId>, order: seq<NodeId>, pick: Pick, shadow: ShadowCluster,
                      ghost ids: set<TaskId>)
    returns (improved: seq<Placement>, remaining: seq<TaskId>)
    requires shadow.Valid() && Splits(ids, placed, unplaced, shadow.where) && OfBatch(shadow.batch, ids)
    modifies shadow
    ensures shadow.Valid() && Splits(ids, improved, remaining, shadow.where)
    ensures Exhausted(shadow.For(order, pick), shadow.where, remaining)
    ensures |improved| >= |placed| && Moved(placed, improved[..|placed|], |placed|, true)
    ensures ExchangesBetter(shadow.For(order, pick), placed, improved[..|placed|])
    ensures Progress(improved, remaining, shadow.where)
            == Backfilled(shadow.For(order, pick),
                          Improve(ExchangeRule(shadow.For(order, pick)), Progress(placed, unplaced, old(shadow.where)), |placed|))
  {
    var exchanged := Exchange(placed, unplaced, order, pick, shadow);
    improved, remaining := Backfill(exchanged, unplaced, order, pick, shadow, ids);
    assert improved[..|placed|] == exchanged;
  }

  // ----- hierarchical local search

  method Alternatives(demand: ResourceVector, current: NodeId, preference: seq<NodeId>, shadow: ShadowCluster)
    returns (others: seq<NodeId>)
    ensures others == Others(shadow.nodes, preference, current, demand, shadow.slack, |preference|)
  {
    others := [];
    var i := 0;
    while i < |preference|
      invariant 0 <= i <= |preference|
      invariant others == Others(shadow.nodes, preference, current, demand, shadow.slack, i)
    {
      var can := shadow.CanHost(preference[i], demand);
      if |others| < LOCAL_SEARCH_NODE_LIMIT - 1 && preference[i] != current && can {
        others := others + [preference[i]];
      }
      i := i + 1;
    }
  }

  method CandidatesFor(p: Placement, order: seq<NodeId>, pick: Pick, prefer: Prefer, shadow: ShadowCluster)
    returns (candidates: seq<NodeId>)
    requires shadow.Valid()
    ensures candidates == Candidates(shadow.For(order, pick), prefer, p, shadow.where)
  {
    MirrorsLoaded(shadow.original, shadow.nodes, shadow.where, shadow.batch);
    var others := Alternatives(DemandOf(shadow.batch, p.task), p.node, prefer(p.task, shadow.nodes), shadow);
    candidates := [p.node] + others;
  }

  /** Tries the task on one node, rates the whole plan, and takes the task off again. */
  method TryOn(trials: seq<Trial>, plan: seq<Placement>, i: nat, candidate: NodeId, order: seq<NodeId>, pick: Pick, rate: Rate,
               shadow: ShadowCluster)
    returns (more: seq<Trial>)
    requires shadow.Valid() && i < |plan| && plan[i].task !in shadow.where && InBatch(shadow.batch, plan[i].task)
    modifies shadow
    ensures shadow.Valid() && shadow.where == old(shadow.where)
    ensures more == TrialStep(shadow.For(order, pick), rate, plan, i, shadow.where, candidate, trials)
  {
    var t := plan[i].task;
    var d := shadow.SelectNode(t, [candidate], pick, order);
    if d.None? { return trials; }
    shadow.Occupy(t, d.value.node);
    MirrorsLoaded(shadow.original, shadow.nodes, shadow.where, shadow.batch);
    more := trials + [Trial(Rated(t, d.value), rate(plan[i := Rated(t, d.value)], shadow.nodes))];
    shadow.Vacate(t, d.value.node);
    TakeOff(old(shadow.where), t, d.value.node);
  }

  /** Tries the task on each candidate; nothing is left on the nodes. */
  method TryEach(plan: seq<Placement>, i: nat, candidates: seq<NodeId>, order: seq<NodeId>, pick: Pick, rate: Rate,
                 shadow: ShadowCluster)
    returns (trials: seq<Trial>)
    requires shadow.Valid() && i < |plan| && plan[i].task !in shadow.where && InBatch(shadow.batch, plan[i].task)
    modifies shadow
    ensures shadow.Valid() && shadow.where == old(shadow.where)
    ensures trials == TrialsOn(shadow.For(order, pick), rate, plan, i, shadow.where, candidates, |candidates|)
  {
    trials := [];
    ghost var setting := shadow.For(order, pick);
    var j := 0;
    while j < |candidates|
      invariant 0 <= j <= |candidates| && shadow.Valid() && shadow.where == old(shadow.where)
      invariant trials == TrialsOn(setting, rate, plan, i, shadow.where, candidates, j)
    {
      trials := TryOn(trials, plan, i, candidates[j], order, pick, rate, shadow);
      j := j + 1;
    }
  }

  /** The best of the trials on the candidates, or what was there. */
  method BestTrial(plan: seq<Placement>, i: nat, candidates: seq<NodeId>, order: seq<NodeId>, pick: Pick, rate: Rate,
                   shadow: ShadowCluster)
    returns (best: Placement, trials: seq<Trial>)
    requires shadow.Valid() && i < |plan| && plan[i].task !in shadow.where && InBatch(shadow.batch, plan[i].task)
    modifies shadow
    ensures shadow.Valid() && shadow.where == old(shadow.where)
    ensures trials == TrialsOn(shadow.For(order, pick), rate, plan, i, shadow.where, candidates, |candidates|)
    ensures best == Best(trials, plan[i])
    ensures Wins(shadow.For(order, pick), rate, plan, i, shadow.where, candidates, best)
    ensures best == plan[i] || Fits(shadow.nodes, best.node, DemandOf(shadow.batch, best.task), shadow.slack)
  {
    trials := TryEach(plan, i, candidates, order, pick, rate, shadow);
    best := Best(trials, plan[i]);
    BestWins(shadow.For(order, pick), rate, plan, i, shadow.where, candidates);
    BestFits(shadow.For(order, pick), rate, plan, i, shadow.where, candidates, best);
    MirrorsLoaded(shadow.original, shadow.nodes, shadow.where, shadow.batch);
  }

  /** Takes one placement away and puts the best trial, or itself, in its place. */
  method Reassign(plan: seq<Placement>, i: nat, order: seq<NodeId>, pick: Pick, prefer: Prefer, rate: Rate, shadow: ShadowCluster)
    returns (q: Placement)
    requires shadow.Valid() && Describes(plan, shadow.where) && i < |plan|
    modifies shadow
    ensures shadow.Valid()
    ensures q == ReassignAt(shadow.For(order, pick), prefer, rate, plan, i, old(shadow.where))
    ensures var setting, rest := shadow.For(order, pick), old(shadow.where) - {plan[i].task};
            Wins(setting, rate, plan, i, rest, Candidates(setting, prefer, plan[i], rest), q)
    ensures shadow.where == (old(shadow.where) - {plan[i].task})[plan[i].task := q.node]
  {
    var p := plan[i];
    PutBack(shadow.where, p.task);
    shadow.Vacate(p.task, p.node);
    var candidates := CandidatesFor(p, order, pick, prefer, shadow);
    var trials;
    q, trials := BestTrial(plan, i, candidates, order, pick, rate, shadow);
    shadow.Occupy(p.task, q.node);
  }

  method ReassignNext(before: seq<Placement>, i: nat, ghost start: Progress, order: seq<NodeId>, pick: Pick, prefer: Prefer,
                      rate: Rate, shadow: ShadowCluster)
    returns (after: seq<Placement>)
    requires shadow.Valid() && Describes(start.placed, start.where) && i < |start.placed|
    requires Progress(before, start.unplaced, shadow.where)
             == Improve(ReassignRule(shadow.For(order, pick), prefer, rate), start, i)
    modifies shadow
    ensures shadow.Valid()
    ensures Progress(after, start.unplaced, shadow.where)
            == Improve(ReassignRule(shadow.For(order, pick), prefer, rate), start, i + 1)
  {
    ImproveRearranges(ReassignRule(shadow.For(order, pick), prefer, rate), false, start, i);
    var q := Reassign(before, i, order, pick, prefer, rate, shadow);
    after := before[i := q];
  }

  method ReassignFirst(placed: seq<Placement>, ghost left: seq<TaskId>, n: nat, order: seq<NodeId>, pick: Pick, prefer: Prefer,
                       rate: Rate, shadow: ShadowCluster)
    returns (improved: seq<Placement>)
    requires shadow.Valid() && Describes(placed, shadow.where) && n <= |placed|
    modifies shadow
    ensures shadow.Valid()
    ensures Progress(improved, left, shadow.where)
            == Improve(ReassignRule(shadow.For(order, pick), prefer, rate), Progress(placed, left, old(shadow.where)), n)
  {
    improved := placed;
    ghost var start := Progress(placed, left, shadow.where);
    var i := 0;
    while i < n
      invariant 0 <= i <= n && shadow.Valid()
      invariant Progress(improved, left, shadow.where)
                == Improve(ReassignRule(shadow.For(order, pick), prefer, rate), start, i)
    {
      improved := ReassignNext(improved, i, start, order, pick, prefer, rate, shadow);
      i := i + 1;
    }
  }

  /** The bounded search over the first tasks. */
  method ReassignSome(placed: seq<Placement>, ghost left: seq<TaskId>, order: seq<NodeId>, pick: Pick, prefer: Prefer, rate: Rate,
                      shadow: ShadowCluster)
    returns (improved: seq<Placement>)
    requires shadow.Valid() && Describes(placed, shadow.where)
    modifies shadow
    ensures shadow.Valid() && Describes(improved, shadow.where) && shadow.where.Keys == old(shadow.where).Keys
    ensures Moved(placed, improved, LOCAL_SEARCH_TASK_LIMIT, false)
    ensures ReassignsBest(shadow.For(order, pick), prefer, rate, placed, improved, LOCAL_SEARCH_TASK_LIMIT)
    ensures Progress(improved, left, shadow.where)
            == Improve(ReassignRule(shadow.For(order, pick), prefer, rate), Progress(placed, left, old(shadow.where)),
                       SearchLimit(placed))
  {
    ghost var rule, start := ReassignRule(shadow.For(order, pick), prefer, rate), Progress(placed, left, shadow.where);
    var n := SearchLimit(placed);
    improved := ReassignFirst(placed, left, n, order, pick, prefer, rate, shadow);
    ImproveRearranges(rule, false, start, n);
    ImproveMoves(rule, false, start, n);
    ReassignTakesBest(shadow.For(order, pick), prefer, rate, start, n);
  }

  /** The plan-level search keeps the same promises, and moves no task beyond its limit. */
  method LocalImproveHierarchical(placed: seq<Placement>, unplaced: seq<TaskId>, order: seq<NodeId>, pick: Pick,
                                  prefer: Prefer, rate: Rate, shadow: ShadowCluster, ghost ids: set<TaskId>)
    returns (improved: seq<Placement>, remaining: seq<TaskId>)
    requires shadow.Valid() && Splits(ids, placed, unplaced, shadow.where) && OfBatch(shadow.batch, ids)
    modifies shadow
    ensures shadow.Valid() && Splits(ids, improved, remaining, shadow.where)
    ensures Exhausted(shadow.For(order, pick), shadow.where, remaining)
    ensures |improved| >= |placed| && Moved(placed, improved[..|placed|], LOCAL_SEARCH_TASK_LIMIT, false)
    ensures ReassignsBest(shadow.For(order, pick), prefer, rate, placed, improved[..|placed|], LOCAL_SEARCH_TASK_LIMIT)
    ensures Progress(improved, remaining, shadow.where)
            == Backfilled(shadow.For(order, pick),
                          Improve(ReassignRule(shadow.For(order, pick), prefer, rate),
                                  Progress(placed, unplaced, old(shadow.where)), SearchLimit(placed)))
  {
    var reassigned := ReassignSome(placed, unplaced, order, pick, prefer, rate, shadow);
    improved, remaining := Backfill(reassigned, unplaced, order, pick, shadow, ids);
    assert improved[..|placed|] == reassigned;
  }

  // ----- the planner

  /** The plan of each strategy that places tasks through the scheduler: it accounts for every
      task of the batch once, stays near the room that the nodes had, and leaves no task behind
      that a node could still host, if the scheduler is willing to take it. */
  method BuildPlan(nodes: map<NodeId, Node>, batch: seq<BatchTask>, ordered: seq<TaskId>, order: seq<NodeId>,
                   placing: Pick, improving: Pick, strategy: Strategy, slack: real)
    returns (placed: seq<Placement>, unplaced: seq<TaskId>, ghost where: Where, ghost greedy: seq<Placement>)
    requires slack >= 0.0 && GoodBatch(batch) && Apart(nodes, batch)
    requires Distinct(ordered) && Listed(ordered) == IdsOf(batch)
    ensures Splits(IdsOf(batch), placed, unplaced, where) && Planned(nodes, where, batch, slack)
    ensures Exhausted(Setting(nodes, batch, slack, order, if strategy.Greedy? then placing else improving), where, unplaced)
    ensures Progress(placed, unplaced, where)
            == PlanOf(Setting(nodes, batch, slack, order, placing), Setting(nodes, batch, slack, order, improving),
                      ordered, strategy)
    // the searches start from the greedy placements and decide each of them by their rule
    ensures greedy == Fill(Setting(nodes, batch, slack, order, placing), Progress([], [], map[]), ordered, |ordered|).placed
    ensures Improved(Setting(nodes, batch, slack, order, improving), strategy, greedy, placed)
  {
    IdsAreOfBatch(batch);
    var shadow := new ShadowCluster(nodes, batch, slack);
    placed, unplaced := PlaceGreedily(ordered, order, placing, shadow);
    greedy := placed;
    match strategy {
      case Greedy =>
      case LocalSearch =>
        placed, unplaced := LocalImprove(placed, unplaced, order, improving, shadow, IdsOf(batch));
      case Hierarchical(prefer, rate) =>
        placed, unplaced := LocalImproveHierarchical(placed, unplaced, order, improving, prefer, rate, shadow, IdsOf(batch));
    }
    where := shadow.where;
  }
}
