/** Batch plans: what a plan puts on which node, what planning keeps, and the rules by which
    greedy placement and the two local searches choose. */
module BatchPlans {
  import opened Common
  import opened Resources
  import opened Protocol
  import opened ProtocolSafety

  const GAIN: real := 0.000000001
  const LOCAL_SEARCH_TASK_LIMIT: nat := 24
  const LOCAL_SEARCH_NODE_LIMIT: nat := 4

  /** One task of the plan, and how the scheduler rated it. */
  datatype Placement = Placement(task: TaskId, node: NodeId, score: real, carbon: real)

  datatype Decision = Decision(node: NodeId, score: real, carbon: real)

  const PREFIX: string := "__batch__"

  /** The key under which a shadow node carries a batch task. */
  function Key(t: TaskId): (k: TaskId)
    ensures TaskOf(k) == t
  {
    PREFIX + t
  }

  function TaskOf(k: TaskId): TaskId {
    if |k| >= |PREFIX| then k[|PREFIX|..] else k
  }

  // ----- what a plan puts where

  /** The node of each placed task. */
  type Where = map<TaskId, NodeId>

  ghost function KeysOn(where: Where, n: NodeId): set<TaskId> {
    set t | t in where && where[t] == n :: Key(t)
  }

  /** What the plan adds to one node. */
  ghost function Part(where: Where, batch: seq<BatchTask>, n: NodeId): Allocations {
    map k | k in KeysOn(where, n) :: DemandOf(batch, TaskOf(k))
  }

  lemma PartAfterPlace(where: Where, batch: seq<BatchTask>, n: NodeId, t: TaskId, m: NodeId)
    requires t !in where
    ensures Key(t) !in Part(where, batch, n)
    ensures Part(where[t := m], batch, n) ==
            if n == m then Part(where, batch, n)[Key(t) := DemandOf(batch, t)] else Part(where, batch, n)
  {
    var after := where[t := m];
    forall k
      ensures k in KeysOn(after, n) <==> k in KeysOn(where, n) || (n == m && k == Key(t))
    {
      if k in KeysOn(where, n) {
        var u :| u in where && where[u] == n && Key(u) == k;
        assert u in after && after[u] == n;
      }
    }
    forall u | u in where
      ensures Key(u) != Key(t)
    {
      assert TaskOf(Key(u)) != TaskOf(Key(t));
    }
  }

  lemma PartAfterVacate(where: Where, batch: seq<BatchTask>, n: NodeId, t: TaskId)
    requires t in where
    ensures Part(where - {t}, batch, n) ==
            if n == where[t] then Part(where, batch, n) - {Key(t)} else Part(where, batch, n)
  {
    var after := where - {t};
    forall k
      ensures k in KeysOn(after, n) <==> k in KeysOn(where, n) && !(n == where[t] && k == Key(t))
    {
      if k in KeysOn(after, n) {
        var u :| u in after && after[u] == n && Key(u) == k;
        assert u in where && TaskOf(k) == u;
      }
      if k in KeysOn(where, n) && !(n == where[t] && k == Key(t)) {
        var u :| u in where && where[u] == n && Key(u) == k;
        assert u in after;
      }
    }
  }

  /** The room a node had when the plan was begun. */
  ghost function Room(node: Node): (r: ResourceVector)
    ensures forall f: Field :: r.Get(f) == Available(node.capacity, node.running, f)
  {
    var c, u := node.capacity, node.running;
    ResourceVector(Available(c, u, Cpu), Available(c, u, Memory), Available(c, u, Gpu), Available(c, u, Storage),
      Available(c, u, Mips), Available(c, u, GpuMemory), Available(c, u, StorageIops), Available(c, u, Bandwidth))
  }

  // ----- what planning keeps

  /** No running task has the key of a batch task. */
  ghost predicate Apart(original: map<NodeId, Node>, batch: seq<BatchTask>) {
    forall n, t :: n in original && InBatch(batch, t) ==> Key(t) !in original[n].running
  }

  ghost predicate GoodBatch(batch: seq<BatchTask>) {
    && (forall i, j :: 0 <= i < j < |batch| ==> batch[i].id != batch[j].id)
    && (forall t :: InBatch(batch, t) ==> DemandOf(batch, t).NonNegative())
  }

  /** Every shadow node carries its original load and exactly the plan's part for it. */
  ghost predicate Mirrors(original: map<NodeId, Node>, nodes: map<NodeId, Node>, where: Where, batch: seq<BatchTask>) {
    && nodes.Keys == original.Keys
    && forall n :: n in original ==>
         nodes[n] == original[n].(running := original[n].running + Part(where, batch, n))
  }

  /** Placed tasks are of the batch, on known nodes, and no choice of them exceeds the room
      their node had by more than one slack each, or than one slack in all if none of their
      demands is inside the slack. */
  ghost predicate Planned(original: map<NodeId, Node>, where: Where, batch: seq<BatchTask>, slack: real) {
    OnKnownNodes(original, where, batch) && forall n :: n in original ==> WithinRoom(original[n], Part(where, batch, n), slack)
  }

  ghost predicate OnKnownNodes(original: map<NodeId, Node>, where: Where, batch: seq<BatchTask>) {
    forall t :: t in where ==> InBatch(batch, t) && where[t] in original
  }

  ghost predicate WithinRoom(node: Node, part: Allocations, slack: real) {
    AllNonNegative(part) && NeverOversold(Room(node), part, slack) && SolidFit(Room(node), part, slack)
  }

  /** `placed` lists the placements of `where`, each task once. */
  ghost predicate Describes(placed: seq<Placement>, where: Where) {
    && (forall i, j :: 0 <= i < j < |placed| ==> placed[i].task != placed[j].task)
    && (forall i :: 0 <= i < |placed| ==> placed[i].task in where && where[placed[i].task] == placed[i].node)
    && (forall t :: t in where ==> exists i :: 0 <= i < |placed| && placed[i].task == t)
  }

  /** Placed and unplaced tasks partition `ids`, without duplicates. */
  ghost predicate Splits(ids: set<TaskId>, placed: seq<Placement>, unplaced: seq<TaskId>, where: Where) {
    && Describes(placed, where) && Distinct(unplaced)
    && where.Keys !! Listed(unplaced) && where.Keys + Listed(unplaced) == ids
  }

  ghost predicate OfBatch(batch: seq<BatchTask>, ids: set<TaskId>) {
    forall t :: t in ids ==> InBatch(batch, t)
  }

  ghost predicate Fits(nodes: map<NodeId, Node>, n: NodeId, demand: ResourceVector, slack: real) {
    n in nodes && nodes[n].online && FitsOn(demand, nodes[n].capacity, nodes[n].running, slack)
  }

  // ----- one placement

  lemma PutBesides(running: Allocations, part: Allocations, k: TaskId, demand: ResourceVector)
    requires k !in running
    ensures (running + part)[k := demand] == running + part[k := demand]
    ensures (running + part) - {k} == running + (part - {k})
  {
  }

  lemma PlaceMirrors(original: map<NodeId, Node>, nodes: map<NodeId, Node>, nodes': map<NodeId, Node>,
                     where: Where, batch: seq<BatchTask>, t: TaskId, m: NodeId)
    requires Mirrors(original, nodes, where, batch) && Apart(original, batch)
    requires t !in where && m in original && InBatch(batch, t)
    requires nodes' == nodes[m := nodes[m].(running := nodes[m].running[Key(t) := DemandOf(batch, t)])]
    ensures Mirrors(original, nodes', where[t := m], batch)
  {
    forall n | n in original
      ensures nodes'[n] == original[n].(running := original[n].running + Part(where[t := m], batch, n))
    {
      PartAfterPlace(where, batch, n, t, m);
      PutBesides(original[n].running, Part(where, batch, n), Key(t), DemandOf(batch, t));
    }
  }

  lemma VacateMirrors(original: map<NodeId, Node>, nodes: map<NodeId, Node>, nodes': map<NodeId, Node>,
                      where: Where, batch: seq<BatchTask>, t: TaskId)
    requires Mirrors(original, nodes, where, batch) && Apart(original, batch)
    requires t in where && where[t] in original && InBatch(batch, t)
    requires nodes' == nodes[where[t] := nodes[where[t]].(running := nodes[where[t]].running - {Key(t)})]
    ensures Mirrors(original, nodes', where - {t}, batch)
  {
    forall n | n in original
      ensures nodes'[n] == original[n].(running := original[n].running + Part(where - {t}, batch, n))
    {
      PartAfterVacate(where, batch, n, t);
      PutBesides(original[n].running, Part(where, batch, n), Key(t), ZERO);
    }
  }

  lemma UsedOfUnion(running: Allocations, part: Allocations, f: Field)
    requires running.Keys !! part.Keys
    ensures Used(running + part, f) == Used(running, f) + Used(part, f)
  {
    var all := (running + part).Keys;
    LoadOfUnion(running, part, all, f);
    assert all * running.Keys == running.Keys && all * part.Keys == part.Keys;
  }

  /** The test against the shadow node is a test against the room that was there. */
  lemma ShadowFitIsRoomFit(running: Allocations, part: Allocations, capacity: ResourceVector,
                           room: ResourceVector, demand: ResourceVector, slack: real)
    requires running.Keys !! part.Keys && FitsOn(demand, capacity, running + part, slack)
    requires forall f: Field :: room.Get(f) == Available(capacity, running, f)
    ensures FitsOn(demand, room, part, slack)
  {
    forall f: Field
      ensures demand.Get(f) <= Available(room, part, f) + slack
    {
      assert demand.Get(f) <= Available(capacity, running + part, f) + slack;
      UsedOfUnion(running, part, f);
    }
  }

  lemma PartStaysWithin(where: Where, batch: seq<BatchTask>, n: NodeId, t: TaskId, m: NodeId,
                        node: Node, slack: real)
    requires t !in where && slack >= 0.0 && DemandOf(batch, t).NonNegative()
    requires WithinRoom(node, Part(where, batch, n), slack)
    requires n == m ==> FitsOn(DemandOf(batch, t), Room(node), Part(where, batch, n), slack)
    ensures WithinRoom(node, Part(where[t := m], batch, n), slack)
  {
    PartAfterPlace(where, batch, n, t, m);
    if n == m {
      AdmissionKeepsBound(Room(node), Part(where, batch, n), Key(t), DemandOf(batch, t), slack);
      AdmissionKeepsSolidFit(Room(node), Part(where, batch, n), Key(t), DemandOf(batch, t), slack);
    }
  }

  lemma PlaceKeepsKnown(original: map<NodeId, Node>, where: Where, batch: seq<BatchTask>, t: TaskId, m: NodeId)
    requires OnKnownNodes(original, where, batch) && InBatch(batch, t) && m in original
    ensures OnKnownNodes(original, where[t := m], batch)
  {
  }

  lemma PlaceKeepsPlan(original: map<NodeId, Node>, nodes: map<NodeId, Node>, where: Where,
                       batch: seq<BatchTask>, t: TaskId, m: NodeId, slack: real)
    requires Mirrors(original, nodes, where, batch) && Apart(original, batch) && GoodBatch(batch) && slack >= 0.0
    requires Planned(original, where, batch, slack) && t !in where && InBatch(batch, t)
    requires Fits(nodes, m, DemandOf(batch, t), slack)
    ensures Planned(original, where[t := m], batch, slack)
  {
    PlaceKeepsKnown(original, where, batch, t, m);
    forall n | n in original
      ensures WithinRoom(original[n], Part(where[t := m], batch, n), slack)
    {
      PlaceKeepsNode(original, nodes, where, batch, t, m, slack, n);
    }
  }

  lemma PlaceKeepsNode(original: map<NodeId, Node>, nodes: map<NodeId, Node>, where: Where,
                       batch: seq<BatchTask>, t: TaskId, m: NodeId, slack: real, n: NodeId)
    requires Mirrors(original, nodes, where, batch) && Apart(original, batch) && GoodBatch(batch) && slack >= 0.0
    requires Planned(original, where, batch, slack) && t !in where && InBatch(batch, t) && n in original
    requires Fits(nodes, m, DemandOf(batch, t), slack)
    ensures WithinRoom(original[n], Part(where[t := m], batch, n), slack)
  {
    if n == m {
      ShadowFitIsRoomFit(original[n].running, Part(where, batch, n), original[n].capacity, Room(original[n]),
                         DemandOf(batch, t), slack);
    }
    PartStaysWithin(where, batch, n, t, m, original[n], slack);
  }

  lemma VacateKeepsPlan(original: map<NodeId, Node>, where: Where, batch: seq<BatchTask>, t: TaskId, slack: real)
    requires Planned(original, where, batch, slack) && t in where
    ensures Planned(original, where - {t}, batch, slack)
  {
    forall n | n in original
      ensures WithinRoom(original[n], Part(where - {t}, batch, n), slack)
    {
      PartAfterVacate(where, batch, n, t);
      RemovalKeepsBound(Room(original[n]), Part(where, batch, n), Key(t), slack);
      RemovalKeepsSolidFit(Room(original[n]), Part(where, batch, n), Key(t), slack);
    }
  }

  lemma EmptyPart(batch: seq<BatchTask>, n: NodeId)
    ensures Part(map[], batch, n) == map[]
  {
  }

  lemma NothingWithinRoom(node: Node, slack: real)
    requires slack >= 0.0
    ensures WithinRoom(node, map[], slack)
  {
  }

  lemma EmptyPlan(original: map<NodeId, Node>, batch: seq<BatchTask>, slack: real)
    requires slack >= 0.0
    ensures Mirrors(original, original, map[], batch) && Planned(original, map[], batch, slack)
  {
    forall n | n in original
      ensures original[n] == original[n].(running := original[n].running + Part(map[], batch, n))
      ensures WithinRoom(original[n], Part(map[], batch, n), slack)
    {
      EmptyPart(batch, n);
      assert original[n].running + map[] == original[n].running;
      NothingWithinRoom(original[n], slack);
    }
  }

  function Rated(t: TaskId, d: Decision): Placement {
    Placement(t, d.node, d.score, d.carbon)
  }

  // ----- lists of placements

  lemma AppendDescribes(placed: seq<Placement>, where: Where, p: Placement)
    requires Describes(placed, where) && p.task !in where
    ensures Describes(placed + [p], where[p.task := p.node])
  {
    var after, where' := placed + [p], where[p.task := p.node];
    forall t | t in where'
      ensures exists i :: 0 <= i < |after| && after[i].task == t
    {
      if t == p.task {
        assert after[|placed|].task == t;
      } else {
        var i :| 0 <= i < |placed| && placed[i].task == t;
        assert after[i].task == t;
      }
    }
  }

  lemma ReplaceDescribes(placed: seq<Placement>, where: Where, i: nat, p: Placement)
    requires Describes(placed, where) && i < |placed| && p.task == placed[i].task
    ensures Describes(placed[i := p], (where - {p.task})[p.task := p.node])
  {
    var after := placed[i := p];
    forall t | t in where
      ensures exists j :: 0 <= j < |after| && after[j].task == t
    {
      var j :| 0 <= j < |placed| && placed[j].task == t;
      assert after[j].task == t;
    }
  }

  lemma ListedOneMore(order: seq<TaskId>, i: nat)
    requires Distinct(order) && i < |order|
    ensures order[i] !in Listed(order[..i]) && Listed(order[..i + 1]) == Listed(order[..i]) + {order[i]}
  {
    assert order[..i + 1] == order[..i] + [order[i]];
    forall j | 0 <= j < i
      ensures order[..i][j] != order[i]
    {
    }
  }

  lemma PlacedOneMore(ids: set<TaskId>, placed: seq<Placement>, unplaced: seq<TaskId>, where: Where, p: Placement)
    requires Splits(ids, placed, unplaced, where) && p.task !in ids
    ensures p.task !in where && Splits(ids + {p.task}, placed + [p], unplaced, where[p.task := p.node])
  {
    AppendDescribes(placed, where, p);
    assert where[p.task := p.node].Keys == where.Keys + {p.task};
  }

  lemma PutBack(where: Where, t: TaskId)
    requires t in where
    ensures (where - {t})[t := where[t]] == where
  {
  }

  lemma TakeOff(where: Where, t: TaskId, n: NodeId)
    requires t !in where
    ensures where[t := n] - {t} == where
  {
  }

  /** `after` places the tasks of `before`, in that order; from position `i` on nothing moved. */
  ghost predicate Moved(before: seq<Placement>, after: seq<Placement>, i: nat, exchange: bool) {
    && |after| == |before|
    && forall j :: 0 <= j < |before| ==>
         && after[j].task == before[j].task
         && (exchange ==> Exchanges(before[j], after[j]))
         && (i <= j ==> after[j] == before[j])
  }

  lemma MovedOneMore(before: seq<Placement>, after: seq<Placement>, i: nat, p: Placement, exchange: bool)
    requires Moved(before, after, i, exchange) && i < |before| && p.task == after[i].task
    requires exchange ==> Exchanges(after[i], p)
    ensures Moved(before, after[i := p], i + 1, exchange)
  {
  }

  // ----- the rules of the searches

  /** The scheduler: a task, the nodes it may choose from, and the state of all nodes. */
  type Pick = (TaskId, seq<NodeId>, map<NodeId, Node>) -> Option<Decision>

  /** How the plan-level search rates a plan and the nodes under it. */
  type Rate = (seq<Placement>, map<NodeId, Node>) -> real

  /** Which nodes the plan-level search likes for a task, best first. */
  type Prefer = (TaskId, map<NodeId, Node>) -> seq<NodeId>

  /** What stays fixed while a plan is made. */
  datatype Setting = Setting(
    original: map<NodeId, Node>, batch: seq<BatchTask>, slack: real, order: seq<NodeId>, pick: Pick)

  /** A plan in the making. */
  datatype Progress = Progress(placed: seq<Placement>, unplaced: seq<TaskId>, where: Where)

  /** The nodes under a plan. */
  ghost function Loaded(original: map<NodeId, Node>, where: Where, batch: seq<BatchTask>): map<NodeId, Node> {
    map n | n in original :: original[n].(running := original[n].running + Part(where, batch, n))
  }

  lemma MirrorsLoaded(original: map<NodeId, Node>, nodes: map<NodeId, Node>, where: Where, batch: seq<BatchTask>)
    requires Mirrors(original, nodes, where, batch)
    ensures nodes == Loaded(original, where, batch)
  {
  }

  /** The scheduler's decision, if it names a candidate that can host the task. */
  ghost function Selected(pick: Pick, nodes: map<NodeId, Node>, candidates: seq<NodeId>, t: TaskId,
                          demand: ResourceVector, slack: real): Option<Decision>
  {
    var d := pick(t, candidates, nodes);
    if d.Some? && d.value.node in candidates && Fits(nodes, d.value.node, demand, slack) then d else None
  }

  /** What the scheduler says about the nodes under the plan, unless it names a node that is not
      a candidate or cannot host the task. */
  ghost function Choice(setting: Setting, where: Where, candidates: seq<NodeId>, t: TaskId): (d: Option<Decision>)
    ensures var nodes := Loaded(setting.original, where, setting.batch);
            var said := setting.pick(t, candidates, nodes);
            && (d.Some? ==> d == said)
            && (d.Some? <==> said.Some? && said.value.node in candidates
                             && Fits(nodes, said.value.node, DemandOf(setting.batch, t), setting.slack))
  {
    Selected(setting.pick, Loaded(setting.original, where, setting.batch), candidates, t,
             DemandOf(setting.batch, t), setting.slack)
  }

  /** One task goes where the scheduler says, or stays behind. */
  ghost function FillStep(setting: Setting, p: Progress, t: TaskId): Progress {
    match Choice(setting, p.where, setting.order, t)
    case None => p.(unplaced := p.unplaced + [t])
    case Some(d) => Progress(p.placed + [Rated(t, d)], p.unplaced, p.where[t := d.node])
  }

  /** The first `n` tasks, one after another. */
  ghost function Fill(setting: Setting, p: Progress, tasks: seq<TaskId>, n: nat): Progress
    requires n <= |tasks|
  {
    if n == 0 then p else FillStep(setting, Fill(setting, p, tasks, n - 1), tasks[n - 1])
  }

  /** The exchange keeps a placement unless another one rates better, or about as well with
      less carbon. */
  predicate Exchanges(before: Placement, after: Placement) {
    && after.task == before.task
    && (after == before
        || after.score > before.score + GAIN
        || (after.carbon + GAIN < before.carbon && after.score >= before.score * 0.98))
  }

  /** A better offer is taken as it is: one with a higher score, or with less carbon and at least
      98 percent of the score. Any other offer is refused. */
  ghost predicate TakesBetter(before: Placement, d: Option<Decision>, after: Placement) {
    if d.Some? && (d.value.score > before.score + 0.000000001
                   || (d.value.carbon + 0.000000001 < before.carbon && d.value.score >= 0.98 * before.score)) then
      && after.task == before.task
      && after.node == d.value.node && after.score == d.value.score && after.carbon == d.value.carbon
    else
      after == before
  }

  /** The exchange takes what the scheduler offers if that rates better, or about as well with
      less carbon. */
  function Exchanged(p: Placement, d: Option<Decision>): (q: Placement)
    ensures Exchanges(p, q) && TakesBetter(p, d, q)
  {
    if d.Some? && (d.value.score > p.score + GAIN
                   || (d.value.carbon + GAIN < p.carbon && d.value.score >= p.score * 0.98)) then
      Rated(p.task, d.value)
    else
      p
  }

  /** A search: what to put at a position whose task is taken off the nodes. */
  type Rule = (Progress, nat) -> Placement

  /** The search moves the task at the position, and no other. */
  ghost predicate Sound(rule: Rule, exchange: bool) {
    forall p: Progress, i: nat {:trigger rule(p, i)} :: i < |p.placed| ==>
      rule(p, i).task == p.placed[i].task && (exchange ==> Exchanges(p.placed[i], rule(p, i)))
  }

  ghost function Replace(p: Progress, i: nat, q: Placement): Progress
    requires i < |p.placed|
  {
    p.(placed := p.placed[i := q], where := (p.where - {p.placed[i].task})[p.placed[i].task := q.node])
  }

  /** A search over the first `n` positions. */
  ghost function Improve(rule: Rule, p: Progress, n: nat): (r: Progress)
    requires n <= |p.placed|
    ensures |r.placed| == |p.placed|
  {
    if n == 0 then p
    else
      var before := Improve(rule, p, n - 1);
      Replace(before, n - 1, rule(before, n - 1))
  }

  ghost function ExchangeRule(setting: Setting): (rule: Rule)
    ensures Sound(rule, true)
  {
    (p: Progress, i: nat) => if i < |p.placed| then ExchangeAt(setting, p.placed[i], p.where) else NOWHERE
  }

  ghost function ExchangeAt(setting: Setting, current: Placement, where: Where): (q: Placement)
    ensures Exchanges(current, q)
    ensures TakesBetter(current, Choice(setting, where - {current.task}, setting.order, current.task), q)
  {
    Exchanged(current, Choice(setting, where - {current.task}, setting.order, current.task))
  }

  const NOWHERE := Placement("", "", 0.0, 0.0)

  // ----- the rules of the plan-level search

  /** A placement that was tried, and the utility of the whole plan with it. */
  datatype Trial = Trial(placement: Placement, utility: real)

  /** The order of the trials: by plan utility, then less carbon, then the later identifier. */
  predicate NoBetter(a: Trial, b: Trial) {
    || a.utility < b.utility
    || (a.utility == b.utility
        && (a.placement.carbon > b.placement.carbon
            || (a.placement.carbon == b.placement.carbon && Precedes(a.placement.node, b.placement.node))))
  }

  lemma NoBetterIsTotal(a: Trial, b: Trial)
    ensures NoBetter(a, b) || NoBetter(b, a)
  {
    PrecedesIsTotal(a.placement.node, b.placement.node);
  }

  lemma NoBetterIsTransitive(a: Trial, b: Trial, c: Trial)
    requires NoBetter(a, b) && NoBetter(b, c)
    ensures NoBetter(a, c)
  {
    if Precedes(a.placement.node, b.placement.node) && Precedes(b.placement.node, c.placement.node) {
      PrecedesIsTransitive(a.placement.node, b.placement.node, c.placement.node);
    }
  }

  /** The first of the best trials. */
  ghost predicate IsBest(trials: seq<Trial>, k: nat) {
    k < |trials| && forall j :: 0 <= j < |trials| ==> NoBetter(trials[j], trials[k]) && (j < k ==> !NoBetter(trials[k], trials[j]))
  }

  function BestOf(trials: seq<Trial>): (k: nat)
    requires trials != []
    ensures IsBest(trials, k)
  {
    var last := |trials| - 1;
    NoBetterIsTotal(trials[last], trials[last]);
    if last == 0 then 0
    else
      var k := BestOf(trials[..last]);
      NoBetterIsTotal(trials[last], trials[k]);
      if NoBetter(trials[last], trials[k]) then k
      else
        LaterIsBest(trials, k);
        last
  }

  lemma LaterIsBest(trials: seq<Trial>, k: nat)
    requires trials != [] && IsBest(trials[..|trials| - 1], k) && !NoBetter(trials[|trials| - 1], trials[k])
    ensures IsBest(trials, |trials| - 1)
  {
    var last := |trials| - 1;
    NoBetterIsTotal(trials[last], trials[k]);
    NoBetterIsTotal(trials[last], trials[last]);
    forall j | 0 <= j < last
      ensures NoBetter(trials[j], trials[last]) && !NoBetter(trials[last], trials[j])
    {
      assert NoBetter(trials[..last][j], trials[..last][k]);
      NoBetterIsTransitive(trials[j], trials[k], trials[last]);
      if NoBetter(trials[last], trials[j]) {
        NoBetterIsTransitive(trials[last], trials[j], trials[k]);
      }
    }
  }

  /** The best-liked other nodes that can host the task, fewer than the node limit. */
  ghost function Others(nodes: map<NodeId, Node>, preference: seq<NodeId>, current: NodeId, demand: ResourceVector,
                        slack: real, n: nat): (others: seq<NodeId>)
    requires n <= |preference|
    ensures |others| < LOCAL_SEARCH_NODE_LIMIT
  {
    if n == 0 then []
    else
      var others := Others(nodes, preference, current, demand, slack, n - 1);
      if |others| < LOCAL_SEARCH_NODE_LIMIT - 1 && preference[n - 1] != current && Fits(nodes, preference[n - 1], demand, slack)
      then others + [preference[n - 1]]
      else others
  }

  /** One more trial, if the scheduler takes the candidate, for the plan whose position `i`
      was taken away. */
  ghost function TrialStep(setting: Setting, rate: Rate, plan: seq<Placement>, i: nat, where: Where,
                           candidate: NodeId, trials: seq<Trial>): seq<Trial>
    requires i < |plan|
  {
    match Choice(setting, where, [candidate], plan[i].task)
    case None => trials
    case Some(d) =>
      var p := Rated(plan[i].task, d);
      trials + [Trial(p, rate(plan[i := p], Loaded(setting.original, where[p.task := p.node], setting.batch)))]
  }

  ghost function TrialsOn(setting: Setting, rate: Rate, plan: seq<Placement>, i: nat, where: Where,
                          candidates: seq<NodeId>, n: nat): (trials: seq<Trial>)
    requires i < |plan| && n <= |candidates|
    ensures forall k :: 0 <= k < |trials| ==> trials[k].placement.task == plan[i].task
  {
    if n == 0 then []
    else TrialStep(setting, rate, plan, i, where, candidates[n - 1], TrialsOn(setting, rate, plan, i, where, candidates, n - 1))
  }

  /** Where a task is tried: on its own node and on the best-liked others. */
  ghost function Candidates(setting: Setting, prefer: Prefer, current: Placement, where: Where): seq<NodeId> {
    var nodes := Loaded(setting.original, where, setting.batch);
    var preference := prefer(current.task, nodes);
    [current.node] + Others(nodes, preference, current.node, DemandOf(setting.batch, current.task), setting.slack, |preference|)
  }

  /** The trials of one position, whose task was taken away from the nodes. */
  ghost function TrialsAt(setting: Setting, prefer: Prefer, rate: Rate, plan: seq<Placement>, i: nat, where: Where): (trials: seq<Trial>)
    requires i < |plan|
    ensures forall k :: 0 <= k < |trials| ==> trials[k].placement.task == plan[i].task
  {
    var candidates := Candidates(setting, prefer, plan[i], where);
    TrialsOn(setting, rate, plan, i, where, candidates, |candidates|)
  }

  lemma {:induction false} TrialsFit(setting: Setting, rate: Rate, plan: seq<Placement>, i: nat, where: Where,
                                     candidates: seq<NodeId>, n: nat)
    requires i < |plan| && n <= |candidates|
    ensures forall k :: 0 <= k < |TrialsOn(setting, rate, plan, i, where, candidates, n)| ==>
              Fits(Loaded(setting.original, where, setting.batch),
                   TrialsOn(setting, rate, plan, i, where, candidates, n)[k].placement.node,
                   DemandOf(setting.batch, plan[i].task), setting.slack)
  {
    if n > 0 {
      TrialsFit(setting, rate, plan, i, where, candidates, n - 1);
    }
  }

  /** The first of the best trials, or what was there if the scheduler refuses all of them. */
  function Best(trials: seq<Trial>, current: Placement): (q: Placement)
    ensures if trials == [] then q == current else exists k: nat :: IsBest(trials, k) && q == trials[k].placement
  {
    if trials == [] then current else trials[BestOf(trials)].placement
  }

  lemma BestFits(setting: Setting, rate: Rate, plan: seq<Placement>, i: nat, where: Where, candidates: seq<NodeId>, q: Placement)
    requires i < |plan| && q == Best(TrialsOn(setting, rate, plan, i, where, candidates, |candidates|), plan[i])
    ensures q == plan[i]
            || Fits(Loaded(setting.original, where, setting.batch), q.node, DemandOf(setting.batch, q.task), setting.slack)
  {
    TrialsFit(setting, rate, plan, i, where, candidates, |candidates|);
  }

  ghost function ReassignRule(setting: Setting, prefer: Prefer, rate: Rate): (rule: Rule)
    ensures Sound(rule, false)
  {
    (p: Progress, i: nat) => if i < |p.placed| then ReassignAt(setting, prefer, rate, p.placed, i, p.where) else NOWHERE
  }

  ghost function ReassignAt(setting: Setting, prefer: Prefer, rate: Rate, plan: seq<Placement>, i: nat, where: Where): (q: Placement)
    requires i < |plan|
    ensures q.task == plan[i].task
  {
    Best(TrialsAt(setting, prefer, rate, plan, i, where - {plan[i].task}), plan[i])
  }

  /** The tasks that were left behind get another chance. */
  ghost function Backfilled(setting: Setting, p: Progress): Progress {
    Fill(setting, p.(unplaced := []), p.unplaced, |p.unplaced|)
  }

  function SearchLimit(placed: seq<Placement>): nat {
    if |placed| <= LOCAL_SEARCH_TASK_LIMIT then |placed| else LOCAL_SEARCH_TASK_LIMIT
  }

  datatype Strategy = Greedy | LocalSearch | Hierarchical(prefer: Prefer, rate: Rate)

  /** The whole plan of a strategy: one setting for placing, one for improving. */
  ghost function PlanOf(placing: Setting, improving: Setting, ordered: seq<TaskId>, strategy: Strategy): Progress {
    var greedy := Fill(placing, Progress([], [], map[]), ordered, |ordered|);
    match strategy
    case Greedy => greedy
    case LocalSearch => Backfilled(improving, Improve(ExchangeRule(improving), greedy, |greedy.placed|))
    case Hierarchical(prefer, rate) =>
      Backfilled(improving, Improve(ReassignRule(improving, prefer, rate), greedy, SearchLimit(greedy.placed)))
  }

  // ----- what is left behind

  /** The scheduler takes the task whenever one of the admissible nodes can host it. */
  ghost predicate Willing(setting: Setting, t: TaskId, admissible: set<NodeId>) {
    forall where: Where :: Choice(setting, where, setting.order, t) == None ==> NoRoom(setting, where, t, admissible)
  }

  /** None of the admissible nodes can host the task under the plan. */
  ghost predicate NoRoom(setting: Setting, where: Where, t: TaskId, admissible: set<NodeId>) {
    forall n :: n in setting.order && n in admissible ==>
      !Fits(Loaded(setting.original, where, setting.batch), n, DemandOf(setting.batch, t), setting.slack)
  }

  lemma PlacingLeavesLessRoom(setting: Setting, where: Where, u: TaskId, m: NodeId, t: TaskId, admissible: set<NodeId>)
    requires GoodBatch(setting.batch) && Apart(setting.original, setting.batch)
    requires u !in where && InBatch(setting.batch, u) && NoRoom(setting, where, t, admissible)
    ensures NoRoom(setting, where[u := m], t, admissible)
  {
    forall n | n in setting.order && n in admissible
      ensures !Fits(Loaded(setting.original, where[u := m], setting.batch), n, DemandOf(setting.batch, t), setting.slack)
    {
      if n in setting.original && n == m {
        NodeHasLessRoom(setting, where, u, m);
        var demand := DemandOf(setting.batch, t);
        assert !Fits(Loaded(setting.original, where, setting.batch), n, demand, setting.slack);
      } else {
        PartAfterPlace(where, setting.batch, n, u, m);
        assert !Fits(Loaded(setting.original, where, setting.batch), n, DemandOf(setting.batch, t), setting.slack);
      }
    }
  }

  lemma NodeHasLessRoom(setting: Setting, where: Where, u: TaskId, m: NodeId)
    requires GoodBatch(setting.batch) && Apart(setting.original, setting.batch)
    requires u !in where && InBatch(setting.batch, u) && m in setting.original
    ensures forall f: Field ::
              Available(setting.original[m].capacity, Loaded(setting.original, where[u := m], setting.batch)[m].running, f)
              <= Available(setting.original[m].capacity, Loaded(setting.original, where, setting.batch)[m].running, f)
  {
    var running, demand := Loaded(setting.original, where, setting.batch)[m].running, DemandOf(setting.batch, u);
    PartAfterPlace(where, setting.batch, m, u, m);
    PutBesides(setting.original[m].running, Part(where, setting.batch, m), Key(u), demand);
    forall f: Field
      ensures Used(running[Key(u) := demand], f) >= Used(running, f)
    {
      UsedAfterPut(running, Key(u), demand, f);
      assert demand.NonNegative();
    }
  }

  lemma {:induction false} FillKeys(setting: Setting, p: Progress, tasks: seq<TaskId>, n: nat)
    requires n <= |tasks|
    ensures forall t :: t in Fill(setting, p, tasks, n).where ==> t in p.where || exists j :: 0 <= j < n && tasks[j] == t
  {
    if n > 0 {
      FillKeys(setting, p, tasks, n - 1);
    }
  }

  /** A task left behind by a pass over the tasks fits no admissible node under the final plan,
      if the scheduler takes it whenever one of those nodes can host it. */
  lemma FillLeavesNoRoom(setting: Setting, p: Progress, tasks: seq<TaskId>, n: nat, t: TaskId, admissible: set<NodeId>)
    requires GoodBatch(setting.batch) && Apart(setting.original, setting.batch) && n <= |tasks|
    requires Distinct(tasks) && forall i :: 0 <= i < |tasks| ==> tasks[i] !in p.where && InBatch(setting.batch, tasks[i])
    requires t in Fill(setting, p, tasks, n).unplaced && t !in p.unplaced && Willing(setting, t, admissible)
    ensures NoRoom(setting, Fill(setting, p, tasks, n).where, t, admissible)
  {
    LeftHasNoRoom(setting, p, tasks, n, t, admissible, Fill(setting, p, tasks, n));
  }

  lemma {:induction false} LeftHasNoRoom(setting: Setting, p: Progress, tasks: seq<TaskId>, n: nat, t: TaskId,
                                         admissible: set<NodeId>, r: Progress)
    requires GoodBatch(setting.batch) && Apart(setting.original, setting.batch) && n <= |tasks|
    requires Distinct(tasks) && forall i :: 0 <= i < |tasks| ==> tasks[i] !in p.where && InBatch(setting.batch, tasks[i])
    requires r == Fill(setting, p, tasks, n)
    requires t in r.unplaced && t !in p.unplaced && Willing(setting, t, admissible)
    ensures NoRoom(setting, r.where, t, admissible)
  {
    if n > 0 {
      var before := Fill(setting, p, tasks, n - 1);
      if t in before.unplaced {
        LeftHasNoRoom(setting, p, tasks, n - 1, t, admissible, before);
        NextIsUnplaced(setting, p, tasks, n - 1);
        StepLeavesLessRoom(setting, before, tasks[n - 1], t, admissible);
      } else {
        LeftForLackOfRoom(setting, before, tasks[n - 1], t, admissible);
      }
    }
  }

  lemma NextIsUnplaced(setting: Setting, p: Progress, tasks: seq<TaskId>, n: nat)
    requires n < |tasks| && Distinct(tasks) && tasks[n] !in p.where
    ensures tasks[n] !in Fill(setting, p, tasks, n).where
  {
    FillKeys(setting, p, tasks, n);
  }

  lemma StepLeavesLessRoom(setting: Setting, p: Progress, u: TaskId, t: TaskId, admissible: set<NodeId>)
    requires GoodBatch(setting.batch) && Apart(setting.original, setting.batch)
    requires u !in p.where && InBatch(setting.batch, u) && NoRoom(setting, p.where, t, admissible)
    ensures NoRoom(setting, FillStep(setting, p, u).where, t, admissible)
  {
    var d := Choice(setting, p.where, setting.order, u);
    if d.Some? {
      PlacingLeavesLessRoom(setting, p.where, u, d.value.node, t, admissible);
    }
  }

  lemma LeftForLackOfRoom(setting: Setting, p: Progress, u: TaskId, t: TaskId, admissible: set<NodeId>)
    requires t in FillStep(setting, p, u).unplaced && t !in p.unplaced && Willing(setting, t, admissible)
    ensures NoRoom(setting, FillStep(setting, p, u).where, t, admissible)
  {
    assert t == u && Choice(setting, p.where, setting.order, u) == None;
  }

  // ----- what the searches keep

  /** The tasks of a plan in the making are apart from those it still has to place. */
  ghost predicate Ready(p: Progress, tasks: seq<TaskId>) {
    && Describes(p.placed, p.where) && p.unplaced == []
    && Distinct(tasks) && forall i :: 0 <= i < |tasks| ==> tasks[i] !in p.where
  }

  lemma NotYetPlaced(setting: Setting, p: Progress, tasks: seq<TaskId>, i: nat)
    requires i < |tasks| && Ready(p, tasks)
    ensures tasks[i] !in Fill(setting, p, tasks, i).where && tasks[i] in Listed(tasks)
  {
    FillKeys(setting, p, tasks, i);
  }

  /** Each task of a pass is placed or left behind, once. */
  lemma {:induction false} FillSplits(setting: Setting, p: Progress, tasks: seq<TaskId>, n: nat, r: Progress)
    requires n <= |tasks| && Ready(p, tasks) && r == Fill(setting, p, tasks, n)
    ensures Splits(p.where.Keys + Listed(tasks[..n]), r.placed, r.unplaced, r.where)
  {
    if n == 0 {
      assert p.where.Keys + Listed(tasks[..0]) == p.where.Keys;
    } else {
      var before, t := Fill(setting, p, tasks, n - 1), tasks[n - 1];
      var ids := p.where.Keys + Listed(tasks[..n - 1]);
      FillSplits(setting, p, tasks, n - 1, before);
      ListedOneMore(tasks, n - 1);
      assert p.where.Keys + Listed(tasks[..n]) == ids + {t};
      match Choice(setting, before.where, setting.order, t)
      case None => LeftOneMore(ids, before.placed, before.unplaced, before.where, t);
      case Some(d) => PlacedOneMore(ids, before.placed, before.unplaced, before.where, Rated(t, d));
    }
  }

  lemma LeftOneMore(ids: set<TaskId>, placed: seq<Placement>, unplaced: seq<TaskId>, where: Where, t: TaskId)
    requires Splits(ids, placed, unplaced, where) && t !in ids
    ensures Splits(ids + {t}, placed, unplaced + [t], where)
  {
    assert Listed(unplaced + [t]) == Listed(unplaced) + {t};
  }

  lemma {:induction false} FillKeepsPlaced(setting: Setting, p: Progress, tasks: seq<TaskId>, n: nat)
    requires n <= |tasks|
    ensures p.placed <= Fill(setting, p, tasks, n).placed
  {
    if n > 0 {
      FillKeepsPlaced(setting, p, tasks, n - 1);
    }
  }

  /** `r` places the tasks of `p`, where its map says. */
  ghost predicate Rearranges(p: Progress, r: Progress) {
    Describes(r.placed, r.where) && r.where.Keys == p.where.Keys
  }

  lemma StepRearranges(rule: Rule, exchange: bool, p: Progress, q: Progress, i: nat)
    requires Sound(rule, exchange) && Rearranges(p, q) && i < |q.placed|
    ensures Rearranges(p, Replace(q, i, rule(q, i)))
  {
    ReplaceDescribes(q.placed, q.where, i, rule(q, i));
    assert q.placed[i].task in q.where;
  }

  lemma ImproveOneMore(rule: Rule, p: Progress, n: nat)
    requires n < |p.placed|
    ensures Improve(rule, p, n + 1) == Replace(Improve(rule, p, n), n, rule(Improve(rule, p, n), n))
  {
  }

  lemma NextRearranges(rule: Rule, exchange: bool, p: Progress, n: nat)
    requires Sound(rule, exchange) && n < |p.placed| && Rearranges(p, Improve(rule, p, n))
    ensures Rearranges(p, Improve(rule, p, n + 1))
  {
    ImproveOneMore(rule, p, n);
    StepRearranges(rule, exchange, p, Improve(rule, p, n), n);
  }

  lemma {:induction false} ImproveRearranges(rule: Rule, exchange: bool, p: Progress, n: nat)
    requires Sound(rule, exchange) && n <= |p.placed| && Rearranges(p, p)
    ensures Rearranges(p, Improve(rule, p, n))
    decreases n
  {
    if n > 0 {
      ImproveRearranges(rule, exchange, p, n - 1);
      NextRearranges(rule, exchange, p, n - 1);
    }
  }

  lemma {:induction false} ImproveMoves(rule: Rule, exchange: bool, p: Progress, n: nat)
    requires Sound(rule, exchange) && n <= |p.placed|
    ensures Moved(p.placed, Improve(rule, p, n).placed, n, exchange)
    decreases n
  {
    if n > 0 {
      var before := Improve(rule, p, n - 1);
      ImproveMoves(rule, exchange, p, n - 1);
      MovedOneMore(p.placed, before.placed, n - 1, rule(before, n - 1), exchange);
    }
  }

  // ----- what is decided for each task

  /** The task is placed as the scheduler says about the nodes under `where`, or left behind if it
      says nothing that can be done. */
  ghost predicate Follows(setting: Setting, where: Where, t: TaskId, placed: seq<Placement>, unplaced: seq<TaskId>) {
    var d := Choice(setting, where, setting.order, t);
    if d.Some? then Placement(t, d.value.node, d.value.score, d.value.carbon) in placed else t in unplaced
  }

  /** Every task is decided on the plan that the tasks before it have left. */
  lemma {:induction false} FillFollows(setting: Setting, p: Progress, tasks: seq<TaskId>, i: nat, n: nat)
    requires i < n <= |tasks|
    ensures Follows(setting, Fill(setting, p, tasks, i).where, tasks[i], Fill(setting, p, tasks, n).placed,
                    Fill(setting, p, tasks, n).unplaced)
  {
    if i < n - 1 {
      FillFollows(setting, p, tasks, i, n - 1);
    }
  }

  lemma {:induction false} ImprovePrefix(rule: Rule, p: Progress, i: nat, n: nat)
    requires i <= n <= |p.placed|
    ensures Improve(rule, p, i).placed == Improve(rule, p, n).placed[..i] + p.placed[i..]
    ensures i < n ==> Improve(rule, p, n).placed[i] == rule(Improve(rule, p, i), i)
    decreases n
  {
    if i == n {
      ImproveKeepsRest(rule, p, n);
    } else {
      ImproveOneMore(rule, p, n - 1);
      ImprovePrefix(rule, p, i, n - 1);
    }
  }

  lemma {:induction false} ImproveKeepsRest(rule: Rule, p: Progress, n: nat)
    requires n <= |p.placed|
    ensures Improve(rule, p, n).placed == Improve(rule, p, n).placed[..n] + p.placed[n..]
    decreases n
  {
    if n > 0 {
      ImproveKeepsRest(rule, p, n - 1);
      ImproveOneMore(rule, p, n - 1);
    }
  }

  /** The placements that stand while position `i` is decided: new ones before it, old ones
      behind it. */
  function Standing(before: seq<Placement>, after: seq<Placement>, i: nat): seq<Placement>
    requires i < |before| == |after|
  {
    after[..i] + before[i + 1..]
  }

  lemma DescribesOnlyOne(placed: seq<Placement>, where: Where, where': Where)
    requires Describes(placed, where) && Describes(placed, where')
    ensures where == where'
  {
    forall t | t in where
      ensures t in where' && where'[t] == where[t]
    {
      var i :| 0 <= i < |placed| && placed[i].task == t;
    }
    forall t | t in where'
      ensures t in where
    {
      var i :| 0 <= i < |placed| && placed[i].task == t;
    }
  }

  lemma RemoveDescribes(placed: seq<Placement>, where: Where, i: nat)
    requires Describes(placed, where) && i < |placed|
    ensures Describes(placed[..i] + placed[i + 1..], where - {placed[i].task})
  {
    var rest, where' := placed[..i] + placed[i + 1..], where - {placed[i].task};
    forall t | t in where'
      ensures exists j :: 0 <= j < |rest| && rest[j].task == t
    {
      RestPlaces(placed, where, i, rest, t);
    }
  }

  lemma RestPlaces(placed: seq<Placement>, where: Where, i: nat, rest: seq<Placement>, t: TaskId)
    requires Describes(placed, where) && i < |placed| && t in where && t != placed[i].task
    requires rest == placed[..i] + placed[i + 1..]
    ensures exists j :: 0 <= j < |rest| && rest[j].task == t
  {
    var j :| 0 <= j < |placed| && placed[j].task == t;
    assert rest[if j < i then j else j - 1] == placed[j];
  }

  lemma PrefixStands(placed: seq<Placement>, after: seq<Placement>, before: seq<Placement>, i: nat)
    requires i < |before| == |after| && placed == after[..i] + before[i..]
    ensures placed[i] == before[i] && placed[..i] + placed[i + 1..] == Standing(before, after, i)
  {
  }

  /** What a search sees at a position. */
  lemma StandingWhere(rule: Rule, exchange: bool, p: Progress, i: nat, n: nat, where: Where)
    requires Sound(rule, exchange) && Rearranges(p, p) && i < n <= |p.placed|
    requires Describes(Standing(p.placed, Improve(rule, p, n).placed, i), where)
    ensures Improve(rule, p, i).placed[i] == p.placed[i]
    ensures Improve(rule, p, i).where - {p.placed[i].task} == where
  {
    var before := Improve(rule, p, i);
    ImprovePrefix(rule, p, i, n);
    ImproveRearranges(rule, exchange, p, i);
    RemoveDescribes(before.placed, before.where, i);
    PrefixStands(before.placed, Improve(rule, p, n).placed, p.placed, i);
    DescribesOnlyOne(Standing(p.placed, Improve(rule, p, n).placed, i), where, before.where - {p.placed[i].task});
  }

  /** At each position the exchange takes the scheduler's offer if it is better. */
  ghost predicate ExchangesBetter(setting: Setting, before: seq<Placement>, after: seq<Placement>) {
    && |after| == |before|
    && forall i: nat, where: Where :: i < |before| && Describes(Standing(before, after, i), where) ==>
         TakesBetter(before[i], Choice(setting, where, setting.order, before[i].task), after[i])
  }

  lemma ExchangeTakesBetter(setting: Setting, p: Progress)
    requires Rearranges(p, p)
    ensures ExchangesBetter(setting, p.placed, Improve(ExchangeRule(setting), p, |p.placed|).placed)
  {
    var rule, n := ExchangeRule(setting), |p.placed|;
    var after := Improve(rule, p, n).placed;
    forall i: nat, where: Where | i < n && Describes(Standing(p.placed, after, i), where)
      ensures TakesBetter(p.placed[i], Choice(setting, where, setting.order, p.placed[i].task), after[i])
    {
      StandingWhere(rule, true, p, i, n, where);
      ImprovePrefix(rule, p, i, n);
      assert after[i] == ExchangeAt(setting, p.placed[i], Improve(rule, p, i).where);
    }
  }

  /** The task of position `i`, taken off the plan, is tried on a node, and the plan is rated with
      it there. */
  ghost predicate Tried(setting: Setting, rate: Rate, plan: seq<Placement>, i: nat, where: Where, candidate: NodeId, x: Trial)
    requires i < |plan|
  {
    var t := plan[i].task;
    var d := Choice(setting, where, [candidate], t);
    && d.Some? && x.placement == Placement(t, d.value.node, d.value.score, d.value.carbon)
    && x.utility == rate(plan[i := x.placement], Loaded(setting.original, where[t := candidate], setting.batch))
  }

  ghost predicate TriedOnSome(setting: Setting, rate: Rate, plan: seq<Placement>, i: nat, where: Where,
                              candidates: seq<NodeId>, x: Trial)
    requires i < |plan|
  {
    exists n :: n in candidates && Tried(setting, rate, plan, i, where, n, x)
  }

  lemma TrialStepTries(setting: Setting, rate: Rate, plan: seq<Placement>, i: nat, where: Where, candidate: NodeId,
                       trials: seq<Trial>, x: Trial)
    requires i < |plan|
    ensures x in TrialStep(setting, rate, plan, i, where, candidate, trials)
            <==> x in trials || Tried(setting, rate, plan, i, where, candidate, x)
  {
  }

  lemma SomeOneMore(setting: Setting, rate: Rate, plan: seq<Placement>, i: nat, where: Where,
                    candidates: seq<NodeId>, next: NodeId, x: Trial)
    requires i < |plan|
    ensures TriedOnSome(setting, rate, plan, i, where, candidates + [next], x)
            <==> TriedOnSome(setting, rate, plan, i, where, candidates, x) || Tried(setting, rate, plan, i, where, next, x)
  {
    assert forall n :: n in candidates + [next] <==> n in candidates || n == next;
  }

  lemma {:induction false} TrialsAreTried(setting: Setting, rate: Rate, plan: seq<Placement>, i: nat, where: Where,
                                          candidates: seq<NodeId>, n: nat, x: Trial)
    requires i < |plan| && n <= |candidates|
    ensures x in TrialsOn(setting, rate, plan, i, where, candidates, n)
            <==> TriedOnSome(setting, rate, plan, i, where, candidates[..n], x)
  {
    if n > 0 {
      TrialsAreTried(setting, rate, plan, i, where, candidates, n - 1, x);
      TrialStepTries(setting, rate, plan, i, where, candidates[n - 1],
                     TrialsOn(setting, rate, plan, i, where, candidates, n - 1), x);
      SomeOneMore(setting, rate, plan, i, where, candidates[..n - 1], candidates[n - 1], x);
      assert candidates[..n] == candidates[..n - 1] + [candidates[n - 1]];
    }
  }

  /** The best of the trials on the candidates, or what was there if all of them are refused. */
  ghost predicate Wins(setting: Setting, rate: Rate, plan: seq<Placement>, i: nat, where: Where, candidates: seq<NodeId>,
                       q: Placement)
    requires i < |plan|
  {
    if exists x :: TriedOnSome(setting, rate, plan, i, where, candidates, x) then
      exists best :: TriedOnSome(setting, rate, plan, i, where, candidates, best) && q == best.placement
        && forall x :: TriedOnSome(setting, rate, plan, i, where, candidates, x) ==> NoBetter(x, best)
    else
      q == plan[i]
  }

  lemma BestWins(setting: Setting, rate: Rate, plan: seq<Placement>, i: nat, where: Where, candidates: seq<NodeId>)
    requires i < |plan|
    ensures Wins(setting, rate, plan, i, where, candidates,
                 Best(TrialsOn(setting, rate, plan, i, where, candidates, |candidates|), plan[i]))
  {
    var trials := TrialsOn(setting, rate, plan, i, where, candidates, |candidates|);
    assert candidates[..|candidates|] == candidates;
    forall x
      ensures x in trials <==> TriedOnSome(setting, rate, plan, i, where, candidates, x)
    {
      TrialsAreTried(setting, rate, plan, i, where, candidates, |candidates|, x);
    }
    if trials != [] {
      assert trials[BestOf(trials)] in trials;
    }
  }

  /** At each of the first positions the plan-level search puts the best trial. */
  ghost predicate ReassignsBest(setting: Setting, prefer: Prefer, rate: Rate, before: seq<Placement>, after: seq<Placement>,
                                limit: nat)
  {
    && |after| == |before|
    && forall i: nat, where: Where :: i < limit && i < |before| && Describes(Standing(before, after, i), where) ==>
         Wins(setting, rate, after[..i] + before[i..], i, where, Candidates(setting, prefer, before[i], where), after[i])
  }

  lemma ReassignTakesBest(setting: Setting, prefer: Prefer, rate: Rate, p: Progress, n: nat)
    requires Rearranges(p, p) && n <= |p.placed|
    ensures ReassignsBest(setting, prefer, rate, p.placed, Improve(ReassignRule(setting, prefer, rate), p, n).placed, n)
  {
    var rule := ReassignRule(setting, prefer, rate);
    var after := Improve(rule, p, n).placed;
    forall i: nat, where: Where | i < n && Describes(Standing(p.placed, after, i), where)
      ensures Wins(setting, rate, after[..i] + p.placed[i..], i, where, Candidates(setting, prefer, p.placed[i], where), after[i])
    {
      var before := Improve(rule, p, i);
      StandingWhere(rule, false, p, i, n, where);
      ImprovePrefix(rule, p, i, n);
      assert after[i] == ReassignAt(setting, prefer, rate, before.placed, i, before.where);
      BestWins(setting, rate, before.placed, i, where, Candidates(setting, prefer, p.placed[i], where));
    }
  }

  /** The candidates are the task's own node and the best-liked others that can host it: all of
      them, or three with none passed over. */
  lemma CandidatesAre(setting: Setting, prefer: Prefer, current: Placement, where: Where)
    ensures var nodes := Loaded(setting.original, where, setting.batch);
            var candidates := Candidates(setting, prefer, current, where);
            && candidates != [] && candidates[0] == current.node
            && AreBestOthers(nodes, prefer(current.task, nodes), current.node, DemandOf(setting.batch, current.task),
                             setting.slack, candidates[1..])
  {
    var nodes := Loaded(setting.original, where, setting.batch);
    var preference := prefer(current.task, nodes);
    OthersAreBest(nodes, preference, current.node, DemandOf(setting.batch, current.task), setting.slack, |preference|);
    assert preference[..|preference|] == preference;
    assert Candidates(setting, prefer, current, where)[1..]
           == Others(nodes, preference, current.node, DemandOf(setting.batch, current.task), setting.slack, |preference|);
  }

  ghost predicate AreBestOthers(nodes: map<NodeId, Node>, preference: seq<NodeId>, current: NodeId, demand: ResourceVector,
                                slack: real, others: seq<NodeId>)
  {
    && |others| <= 3
    && (forall n :: n in others ==> n in preference && n != current && Fits(nodes, n, demand, slack))
    && forall j :: 0 <= j < |preference| && preference[j] != current && Fits(nodes, preference[j], demand, slack) ==>
         preference[j] in others || (|others| == 3 && forall n :: n in others ==> n in preference[..j])
  }

  lemma {:induction false} OthersAreBest(nodes: map<NodeId, Node>, preference: seq<NodeId>, current: NodeId,
                                         demand: ResourceVector, slack: real, n: nat)
    requires n <= |preference|
    ensures AreBestOthers(nodes, preference[..n], current, demand, slack, Others(nodes, preference, current, demand, slack, n))
  {
    if n > 0 {
      OthersAreBest(nodes, preference, current, demand, slack, n - 1);
      OneMoreOther(nodes, preference[..n - 1], current, demand, slack,
                   Others(nodes, preference, current, demand, slack, n - 1), preference[n - 1]);
      assert preference[..n] == preference[..n - 1] + [preference[n - 1]];
    }
  }

  lemma OneMoreOther(nodes: map<NodeId, Node>, preference: seq<NodeId>, current: NodeId, demand: ResourceVector, slack: real,
                     others: seq<NodeId>, next: NodeId)
    requires AreBestOthers(nodes, preference, current, demand, slack, others)
    ensures AreBestOthers(nodes, preference + [next], current, demand, slack,
              if |others| < 3 && next != current && Fits(nodes, next, demand, slack) then others + [next] else others)
  {
    var more := preference + [next];
    forall j | 0 <= j <= |preference|
      ensures more[..j] == preference[..j]
    {
    }
  }

  lemma BackfillKeepsPlan(setting: Setting, ids: set<TaskId>, p: Progress, r: Progress)
    requires Splits(ids, p.placed, p.unplaced, p.where) && r == Backfilled(setting, p)
    ensures Ready(p.(unplaced := []), p.unplaced)
    ensures Splits(ids, r.placed, r.unplaced, r.where) && p.placed <= r.placed
  {
    var start := p.(unplaced := []);
    assert forall i :: 0 <= i < |p.unplaced| ==> p.unplaced[i] in Listed(p.unplaced);
    FillSplits(setting, start, p.unplaced, |p.unplaced|, r);
    FillKeepsPlaced(setting, start, p.unplaced, |p.unplaced|);
    assert p.unplaced[..|p.unplaced|] == p.unplaced;
  }

  // ----- what a whole plan keeps

  /** No task that the scheduler would have taken is left behind while a node can host it,
      whichever nodes its filters admit for the task. */
  ghost predicate Exhausted(setting: Setting, where: Where, unplaced: seq<TaskId>) {
    forall t, admissible: set<NodeId> :: t in unplaced && Willing(setting, t, admissible) ==>
      NoRoom(setting, where, t, admissible)
  }

  lemma FillExhausts(setting: Setting, p: Progress, tasks: seq<TaskId>)
    requires GoodBatch(setting.batch) && Apart(setting.original, setting.batch)
    requires Ready(p, tasks) && OfBatch(setting.batch, Listed(tasks))
    ensures Exhausted(setting, Fill(setting, p, tasks, |tasks|).where, Fill(setting, p, tasks, |tasks|).unplaced)
  {
    forall i | 0 <= i < |tasks|
      ensures tasks[i] !in p.where && InBatch(setting.batch, tasks[i])
    {
      assert tasks[i] in Listed(tasks);
    }
    forall t, admissible: set<NodeId> | t in Fill(setting, p, tasks, |tasks|).unplaced && Willing(setting, t, admissible)
      ensures NoRoom(setting, Fill(setting, p, tasks, |tasks|).where, t, admissible)
    {
      FillLeavesNoRoom(setting, p, tasks, |tasks|, t, admissible);
    }
  }

  ghost function IdsOf(batch: seq<BatchTask>): set<TaskId> {
    set i | 0 <= i < |batch| :: batch[i].id
  }

  /** What each strategy makes of the greedy placements, before tasks that were left behind are
      added. */
  ghost predicate Improved(setting: Setting, strategy: Strategy, greedy: seq<Placement>, placed: seq<Placement>) {
    && |greedy| <= |placed|
    && match strategy
       case Greedy => placed == greedy
       case LocalSearch => ExchangesBetter(setting, greedy, placed[..|greedy|])
       case Hierarchical(prefer, rate) =>
         && ReassignsBest(setting, prefer, rate, greedy, placed[..|greedy|], LOCAL_SEARCH_TASK_LIMIT)
         && Moved(greedy, placed[..|greedy|], LOCAL_SEARCH_TASK_LIMIT, false)
  }

  lemma IdsAreOfBatch(batch: seq<BatchTask>)
    ensures OfBatch(batch, IdsOf(batch))
  {
  }
}
