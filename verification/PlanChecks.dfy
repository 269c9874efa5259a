/** When a plan made on the shadow cluster passes the capacity check at commit. */
module PlanChecks {
  import opened Common
  import opened Resources
  import opened Protocol
  import opened ProtocolSafety
  import opened ProtocolRuns
  import opened ProtocolVersions
  import opened BatchPlans

  function AssignmentsOf(placed: seq<Placement>): (a: seq<Assignment>)
    ensures |a| == |placed|
    ensures forall i :: 0 <= i < |placed| ==> a[i] == Assignment(placed[i].task, placed[i].node)
  {
    seq(|placed|, i requires 0 <= i < |placed| => Assignment(placed[i].task, placed[i].node))
  }

  // ----- the demand of a plan is the load of its parts

  ghost function WhereFrom(placed: seq<Placement>, i: nat): Where
    requires i <= |placed|
    decreases |placed| - i
  {
    if i == |placed| then map[] else WhereFrom(placed, i + 1)[placed[i].task := placed[i].node]
  }

  lemma {:induction false} WhereFromHolds(placed: seq<Placement>, where: Where, i: nat)
    requires i <= |placed| && Describes(placed, where)
    ensures forall t :: t in WhereFrom(placed, i) <==> exists j :: i <= j < |placed| && placed[j].task == t
    ensures forall t :: t in WhereFrom(placed, i) ==> t in where && WhereFrom(placed, i)[t] == where[t]
    decreases |placed| - i
  {
    if i < |placed| {
      WhereFromHolds(placed, where, i + 1);
    }
  }

  lemma WhereFromZero(placed: seq<Placement>, where: Where)
    requires Describes(placed, where)
    ensures WhereFrom(placed, 0) == where
  {
    WhereFromHolds(placed, where, 0);
  }

  lemma NotPlacedLater(placed: seq<Placement>, where: Where, i: nat)
    requires Describes(placed, where) && i < |placed|
    ensures placed[i].task !in WhereFrom(placed, i + 1)
  {
    WhereFromHolds(placed, where, i + 1);
  }

  /** What the assignments from position `i` on put on one node. */
  ghost function PartFrom(assignments: seq<Assignment>, batch: seq<BatchTask>, n: NodeId, i: nat): Allocations
    requires i <= |assignments|
    decreases |assignments| - i
  {
    if i == |assignments| then map[]
    else OneMore(PartFrom(assignments, batch, n, i + 1), batch, n, assignments[i].task, assignments[i].node)
  }

  /** `part` with one more task, if the task goes to this node. */
  ghost function OneMore(part: Allocations, batch: seq<BatchTask>, n: NodeId, t: TaskId, m: NodeId): Allocations {
    if m == n then part[Key(t) := DemandOf(batch, t)] else part
  }

  lemma PartStep(part: Allocations, where: Where, batch: seq<BatchTask>, n: NodeId, t: TaskId, m: NodeId)
    requires part == Part(where, batch, n) && t !in where
    ensures OneMore(part, batch, n, t, m) == Part(where[t := m], batch, n) && Key(t) !in part
  {
    PartAfterPlace(where, batch, n, t, m);
  }

  lemma {:induction false} PartFromIsPart(placed: seq<Placement>, where: Where, batch: seq<BatchTask>, n: NodeId, i: nat)
    requires i <= |placed| && Describes(placed, where)
    ensures PartFrom(AssignmentsOf(placed), batch, n, i) == Part(WhereFrom(placed, i), batch, n)
    decreases |placed| - i
  {
    if i < |placed| {
      PartFromIsPart(placed, where, batch, n, i + 1);
      NotPlacedLater(placed, where, i);
      PartStep(PartFrom(AssignmentsOf(placed), batch, n, i + 1), WhereFrom(placed, i + 1), batch, n,
               placed[i].task, placed[i].node);
    }
  }

  lemma {:induction false} PartFromKeys(assignments: seq<Assignment>, batch: seq<BatchTask>, n: NodeId, i: nat)
    requires i <= |assignments|
    ensures forall k :: k in PartFrom(assignments, batch, n, i) ==>
              exists j :: i <= j < |assignments| && assignments[j].task == TaskOf(k)
    decreases |assignments| - i
  {
    if i < |assignments| {
      PartFromKeys(assignments, batch, n, i + 1);
    }
  }

  lemma OneMoreUsed(sum: ResourceVector, part: Allocations, batch: seq<BatchTask>, n: NodeId,
                    t: TaskId, m: NodeId, f: Field)
    requires Key(t) !in part
    ensures sum.Get(f) + Used(OneMore(part, batch, n, t, m), f)
            == (if m == n then sum.Plus(DemandOf(batch, t)) else sum).Get(f) + Used(part, f)
  {
    if m == n {
      UsedAfterPut(part, Key(t), DemandOf(batch, t), f);
    }
  }

  lemma {:induction false} PartLoadIsDemand(assignments: seq<Assignment>, batch: seq<BatchTask>, n: NodeId, i: nat, f: Field)
    requires i <= |assignments|
    requires forall j, k :: 0 <= j < k < |assignments| ==> assignments[j].task != assignments[k].task
    ensures NodeDemand(assignments, batch, n, i).Get(f) + Used(PartFrom(assignments, batch, n, i), f)
            == NodeDemand(assignments, batch, n, |assignments|).Get(f)
    decreases |assignments| - i
  {
    if i < |assignments| {
      PartLoadIsDemand(assignments, batch, n, i + 1, f);
      PartFromKeys(assignments, batch, n, i + 1);
      OneMoreUsed(NodeDemand(assignments, batch, n, i), PartFrom(assignments, batch, n, i + 1), batch, n,
                  assignments[i].task, assignments[i].node, f);
    }
  }

  /** What a plan asks of a node is the load of its part for the node. */
  lemma PlanDemandIsLoad(
      placed: seq<Placement>, where: Where, batch: seq<BatchTask>, n: NodeId, f: Field, part: Allocations)
    requires Describes(placed, where) && part == Part(where, batch, n)
    ensures NodeDemand(AssignmentsOf(placed), batch, n, |placed|).Get(f) == Used(part, f)
  {
    WhereFromZero(placed, where);
    PartFromIsPart(placed, where, batch, n, 0);
    PartLoadIsDemand(AssignmentsOf(placed), batch, n, 0, f);
  }

  // ----- the check at commit

  lemma PartStaysNearRoom(node: Node, part: Allocations, slack: real, f: Field)
    requires WithinRoom(node, part, slack) && slack >= 0.0
    ensures Used(part, f) <= Available(node.capacity, node.running, f) + Slack(|part|, slack)
  {
    if part.Keys != {} {
      assert Load(part, part.Keys, f) <= Max(0.0, Room(node).Get(f)) + Slack(|part.Keys|, slack);
      assert |part.Keys| == |part|;
    } else {
      SlackGrows(0, |part|, slack);
    }
  }

  /** What a plan asks of a node exceeds the node's room by at most one slack for each task
      it puts there. */
  lemma PlanStaysNearRoom(
      original: map<NodeId, Node>, placed: seq<Placement>, where: Where, batch: seq<BatchTask>, slack: real, n: NodeId, f: Field)
    requires Describes(placed, where) && Planned(original, where, batch, slack) && slack >= 0.0 && n in original
    ensures NodeDemand(AssignmentsOf(placed), batch, n, |placed|).Get(f)
            <= Available(original[n].capacity, original[n].running, f) + Slack(|Part(where, batch, n)|, slack)
  {
    var part := Part(where, batch, n);
    PlanDemandIsLoad(placed, where, batch, n, f, part);
    PartStaysNearRoom(original[n], part, slack, f);
  }

  /** In each resource of each node, either no task of the plan has a demand inside the slack,
      or all of them together have. The exact comparison always plans carefully. */
  ghost predicate Careful(original: map<NodeId, Node>, where: Where, batch: seq<BatchTask>, slack: real) {
    0.0 <= slack <= TOLERANCE
    && forall n, f: Field :: n in original ==> CarefulPart(Part(where, batch, n), f, slack)
  }

  ghost predicate CarefulPart(part: Allocations, f: Field, slack: real) {
    Solid(part, part.Keys, f, slack) || Used(part, f) <= slack
  }

  lemma ExactPlansAreCareful(original: map<NodeId, Node>, where: Where, batch: seq<BatchTask>)
    requires Planned(original, where, batch, 0.0)
    ensures Careful(original, where, batch, 0.0)
  {
    forall n, f: Field | n in original
      ensures Solid(Part(where, batch, n), Part(where, batch, n).Keys, f, 0.0)
    {
      assert WithinRoom(original[n], Part(where, batch, n), 0.0);
    }
  }

  lemma CarefulPartFits(node: Node, part: Allocations, f: Field, slack: real)
    requires WithinRoom(node, part, slack) && CarefulPart(part, f, slack)
    ensures Used(part, f) <= Room(node).Get(f) + slack
  {
    assert part.Keys <= part.Keys;
  }

  lemma CarefulPlanFitsField(
      original: map<NodeId, Node>, placed: seq<Placement>, where: Where, batch: seq<BatchTask>, slack: real, n: NodeId, f: Field)
    requires Describes(placed, where) && Planned(original, where, batch, slack) && n in original
    requires Careful(original, where, batch, slack)
    ensures NodeDemand(AssignmentsOf(placed), batch, n, |placed|).Get(f)
            <= Available(original[n].capacity, original[n].running, f) + TOLERANCE
  {
    CarefulPartFits(original[n], Part(where, batch, n), f, slack);
    PlanDemandIsLoad(placed, where, batch, n, f, Part(where, batch, n));
  }

  lemma CarefulPlanFitsNode(
      original: map<NodeId, Node>, placed: seq<Placement>, where: Where, batch: seq<BatchTask>, slack: real, n: NodeId)
    requires Describes(placed, where) && Planned(original, where, batch, slack) && n in original
    requires Careful(original, where, batch, slack)
    ensures FitsOn(NodeDemand(AssignmentsOf(placed), batch, n, |placed|), original[n].capacity, original[n].running, TOLERANCE)
  {
    forall f: Field
      ensures NodeDemand(AssignmentsOf(placed), batch, n, |placed|).Get(f)
              <= Available(original[n].capacity, original[n].running, f) + TOLERANCE
    {
      CarefulPlanFitsField(original, placed, where, batch, slack, n, f);
    }
  }

  lemma CarefulPlanFits(
      s: State, placed: seq<Placement>, where: Where, batch: seq<BatchTask>, slack: real)
    requires Describes(placed, where) && Planned(s.nodes, where, batch, slack) && Careful(s.nodes, where, batch, slack)
    ensures FitsCluster(s, DemandByNode(AssignmentsOf(placed), batch, |placed|))
  {
    forall n | n in NodesOf(AssignmentsOf(placed), |placed|)
      ensures n in s.nodes
      ensures FitsOn(NodeDemand(AssignmentsOf(placed), batch, n, |placed|), s.nodes[n].capacity, s.nodes[n].running, TOLERANCE)
    {
      CarefulPlanFitsNode(s.nodes, placed, where, batch, slack, n);
    }
  }

  /** A careful plan commits against the snapshot it was made for. */
  lemma CarefulPlanCommits(
      s: State, id: PlanId, placed: seq<Placement>, where: Where, batch: seq<BatchTask>, slack: real)
    requires Describes(placed, where) && Planned(s.nodes, where, batch, slack) && Careful(s.nodes, where, batch, slack)
    ensures Commits(s, Plan(id, s.version, AssignmentsOf(placed)), batch, s.version)
  {
    CarefulPlanFits(s, placed, where, batch, slack);
  }

  /** Whatever ran since the preview: as long as the version is still the plan's, a careful
      plan is committed and not refused. */
  lemma PreviewedPlanCommits(
      states: seq<State>, actions: seq<Action>, i: nat, j: nat,
      id: PlanId, placed: seq<Placement>, where: Where, batch: seq<BatchTask>, slack: real)
    requires IsRun(states, actions) && i <= j < |states|
    requires forall k :: i <= k < j ==> !actions[k].DoRestart?
    requires states[j].version == states[i].version
    requires forall n :: n in states[i].nodes ==> AllNonNegative(states[i].nodes[n].running)
    requires Describes(placed, where) && Planned(states[i].nodes, where, batch, slack)
    requires Careful(states[i].nodes, where, batch, slack)
    ensures Commits(states[j], Plan(id, states[i].version, AssignmentsOf(placed)), batch, states[i].version)
  {
    CarefulPlanCommits(states[i], id, placed, where, batch, slack);
    CurrentPlanStillCommits(states, actions, i, j, Plan(id, states[i].version, AssignmentsOf(placed)), batch);
  }

  /** A plan made with exact comparison is never refused while the version is the plan's. */
  lemma ExactPlansAlwaysCommit(
      states: seq<State>, actions: seq<Action>, i: nat, j: nat,
      id: PlanId, placed: seq<Placement>, where: Where, batch: seq<BatchTask>)
    requires IsRun(states, actions) && i <= j < |states|
    requires forall k :: i <= k < j ==> !actions[k].DoRestart?
    requires states[j].version == states[i].version
    requires forall n :: n in states[i].nodes ==> AllNonNegative(states[i].nodes[n].running)
    requires Describes(placed, where) && Planned(states[i].nodes, where, batch, 0.0)
    ensures Commits(states[j], Plan(id, states[i].version, AssignmentsOf(placed)), batch, states[i].version)
  {
    ExactPlansAreCareful(states[i].nodes, where, batch);
    PreviewedPlanCommits(states, actions, i, j, id, placed, where, batch, 0.0);
  }

  // ----- why the tolerant planner can be refused

  ghost predicate AllPositive(demands: seq<ResourceVector>) {
    forall i :: 0 <= i < |demands| ==> demands[i].NonNegative()
  }

  /** No key of the tasks is taken. */
  ghost predicate KeysFree(running: Allocations, tasks: seq<TaskId>) {
    Distinct(tasks) && forall i :: 0 <= i < |tasks| ==> Key(tasks[i]) !in running
  }

  /** The load after the first `n` tasks were put on the node. */
  ghost function Filled(running: Allocations, tasks: seq<TaskId>, demands: seq<ResourceVector>, n: nat): Allocations
    requires n <= |tasks| == |demands|
  {
    if n == 0 then running else Filled(running, tasks, demands, n - 1)[Key(tasks[n - 1]) := demands[n - 1]]
  }

  /** The tests that greedy placement makes when it puts one task after another on a node. */
  ghost predicate FitInTurn(capacity: ResourceVector, running: Allocations, tasks: seq<TaskId>,
                            demands: seq<ResourceVector>, slack: real)
    requires |tasks| == |demands|
  {
    forall i :: 0 <= i < |demands| ==> FitsOn(demands[i], capacity, Filled(running, tasks, demands, i), slack)
  }

  /** What the tasks ask of one resource, in the order of placement. */
  ghost function Column(demands: seq<ResourceVector>, f: Field): (column: seq<real>)
    ensures |column| == |demands| && forall i :: 0 <= i < |demands| ==> column[i] == demands[i].Get(f)
  {
    seq(|demands|, i requires 0 <= i < |demands| => demands[i].Get(f))
  }

  /** The one test that commit makes. */
  ghost predicate FitTogether(capacity: ResourceVector, running: Allocations, demands: seq<ResourceVector>, slack: real) {
    forall f: Field :: Sum(Column(demands, f)) <= Available(capacity, running, f) + slack
  }

  /** The last of the first `n` values that is not zero. */
  function Last(column: seq<real>, n: nat): real
    requires n <= |column|
  {
    if n == 0 then 0.0
    else if column[n - 1] != 0.0 then column[n - 1]
    else Last(column, n - 1)
  }

  /** The last demand on a resource is more than the slack, or all of them together are not. */
  ghost predicate EndsAbove(column: seq<real>, slack: real) {
    Last(column, |column|) > slack || Sum(column) <= slack
  }

  // ----- one resource

  ghost predicate AllAbove(column: seq<real>) {
    forall i :: 0 <= i < |column| ==> column[i] >= 0.0
  }

  /** The same tests on one resource of a node. */
  ghost predicate InTurn(column: seq<real>, room: real, slack: real, n: nat)
    requires n <= |column|
  {
    forall i {:trigger RoomAt(column, room, i)} :: 0 <= i < n ==> column[i] <= RoomAt(column, room, i) + slack
  }

  /** The room that is left when the first `i` demands are on the node. */
  ghost function RoomAt(column: seq<real>, room: real, i: nat): real
    requires i <= |column|
  {
    Max(0.0, room - SumTo(column, i))
  }

  /** A last demand above the slack was let in by real room, and so was all before it. */
  lemma {:induction false} LastDemandCloses(column: seq<real>, room: real, slack: real, n: nat)
    requires n <= |column| && Last(column, n) > slack >= 0.0 && InTurn(column, room, slack, n)
    ensures SumTo(column, n) <= Max(0.0, room) + slack
  {
    if column[n - 1] == 0.0 {
      LastDemandCloses(column, room, slack, n - 1);
    } else {
      assert RoomAt(column, room, n - 1) == Max(0.0, room - SumTo(column, n - 1));
      LargeDemandHasRoom(column[n - 1], SumTo(column, n - 1), room, slack);
    }
  }

  lemma LargeDemandHasRoom(demand: real, used: real, room: real, slack: real)
    requires demand > slack >= 0.0 && demand <= Max(0.0, room - used) + slack
    ensures used + demand <= room + slack
  {
  }

  lemma {:induction false} SumGrows(column: seq<real>, m: nat, n: nat)
    requires m <= n <= |column| && AllAbove(column)
    ensures SumTo(column, m) <= SumTo(column, n)
  {
    if m < n {
      SumGrows(column, m, n - 1);
    }
  }

  lemma {:induction false} LastIsPart(column: seq<real>, n: nat)
    requires n <= |column| && AllAbove(column)
    ensures 0.0 <= Last(column, n) <= SumTo(column, n)
    ensures Last(column, n) == 0.0 ==> SumTo(column, n) == 0.0
  {
    if n > 0 {
      LastIsPart(column, n - 1);
    }
  }

  /** What comes before the last demand stays below the sum by that demand. */
  lemma {:induction false} BeforeLast(column: seq<real>, i: nat, n: nat)
    requires i < n <= |column| && AllAbove(column)
    ensures column[i] <= Last(column, n) || SumTo(column, i + 1) <= SumTo(column, n) - Last(column, n)
  {
    if column[n - 1] != 0.0 {
      if i < n - 1 {
        SumGrows(column, i + 1, n - 1);
      }
    } else if i < n - 1 {
      BeforeLast(column, i, n - 1);
    } else {
      LastIsPart(column, n);
    }
  }

  /** The room that lets every demand in, the last one only by the slack. */
  function TightRoom(column: seq<real>, slack: real): real {
    Max(0.0, Sum(column) - Last(column, |column|) - slack)
  }

  lemma TightRoomLetsIn(column: seq<real>, slack: real)
    requires AllAbove(column) && 0.0 <= slack && Last(column, |column|) <= slack
    ensures InTurn(column, TightRoom(column, slack), slack, |column|)
    ensures Sum(column) > slack ==> Sum(column) > TightRoom(column, slack) + slack
  {
    forall i | 0 <= i < |column|
      ensures column[i] <= RoomAt(column, TightRoom(column, slack), i) + slack
    {
      BeforeLast(column, i, |column|);
    }
    LastIsPart(column, |column|);
  }

  lemma AmpleRoomLetsIn(column: seq<real>, slack: real)
    requires AllAbove(column) && 0.0 <= slack
    ensures InTurn(column, Sum(column), slack, |column|)
  {
    forall i | 0 <= i < |column|
      ensures column[i] <= RoomAt(column, Sum(column), i) + slack
    {
      SumGrows(column, i + 1, |column|);
    }
  }

  // ----- all resources

  lemma {:induction false} FilledKeys(running: Allocations, tasks: seq<TaskId>, demands: seq<ResourceVector>, n: nat, t: TaskId)
    requires n <= |tasks| == |demands| && Key(t) !in running
    requires forall j :: 0 <= j < n ==> tasks[j] != t
    ensures Key(t) !in Filled(running, tasks, demands, n)
  {
    if n > 0 {
      FilledKeys(running, tasks, demands, n - 1, t);
      assert TaskOf(Key(t)) != TaskOf(Key(tasks[n - 1]));
    }
  }

  lemma {:induction false} FilledUsed(running: Allocations, tasks: seq<TaskId>, demands: seq<ResourceVector>, n: nat, f: Field)
    requires n <= |tasks| == |demands| && KeysFree(running, tasks)
    ensures Used(Filled(running, tasks, demands, n), f) == Used(running, f) + SumTo(Column(demands, f), n)
  {
    if n > 0 {
      FilledUsed(running, tasks, demands, n - 1, f);
      FilledKeys(running, tasks, demands, n - 1, tasks[n - 1]);
      UsedAfterPut(Filled(running, tasks, demands, n - 1), Key(tasks[n - 1]), demands[n - 1], f);
    }
  }

  /** The test of one task sees the room less the demands before it. */
  lemma TestInTurn(capacity: ResourceVector, running: Allocations, tasks: seq<TaskId>,
                   demands: seq<ResourceVector>, column: seq<real>, room: real, i: nat, f: Field)
    requires i < |tasks| == |demands| && KeysFree(running, tasks)
    requires column == Column(demands, f) && room == capacity.Get(f) - Used(running, f)
    ensures Available(capacity, Filled(running, tasks, demands, i), f) == RoomAt(column, room, i)
    ensures column[i] == demands[i].Get(f)
  {
    FilledUsed(running, tasks, demands, i, f);
  }

  /** The tests of greedy placement on one resource. */
  ghost predicate FieldInTurn(capacity: ResourceVector, running: Allocations, tasks: seq<TaskId>,
                              demands: seq<ResourceVector>, slack: real, f: Field)
    requires |tasks| == |demands|
  {
    forall i :: 0 <= i < |demands| ==>
      demands[i].Get(f) <= Available(capacity, Filled(running, tasks, demands, i), f) + slack
  }

  lemma FieldByField(capacity: ResourceVector, running: Allocations, tasks: seq<TaskId>,
                     demands: seq<ResourceVector>, slack: real)
    requires |tasks| == |demands|
    ensures FitInTurn(capacity, running, tasks, demands, slack)
            <==> forall f: Field :: FieldInTurn(capacity, running, tasks, demands, slack, f)
  {
    if FitInTurn(capacity, running, tasks, demands, slack) {
      forall i, f: Field | 0 <= i < |demands|
        ensures demands[i].Get(f) <= Available(capacity, Filled(running, tasks, demands, i), f) + slack
      {
        assert FitsOn(demands[i], capacity, Filled(running, tasks, demands, i), slack);
      }
    }
    if forall f: Field :: FieldInTurn(capacity, running, tasks, demands, slack, f) {
      forall i, f: Field | 0 <= i < |demands|
        ensures demands[i].Get(f) <= Available(capacity, Filled(running, tasks, demands, i), f) + slack
      {
        assert FieldInTurn(capacity, running, tasks, demands, slack, f);
      }
    }
  }

  lemma FieldIsColumn(capacity: ResourceVector, running: Allocations, tasks: seq<TaskId>,
                      demands: seq<ResourceVector>, slack: real, column: seq<real>, room: real, f: Field)
    requires |demands| == |tasks| && KeysFree(running, tasks)
    requires column == Column(demands, f) && room == capacity.Get(f) - Used(running, f)
    ensures InTurn(column, room, slack, |column|) <==> FieldInTurn(capacity, running, tasks, demands, slack, f)
  {
    forall i | 0 <= i < |demands|
      ensures column[i] == demands[i].Get(f)
      ensures Available(capacity, Filled(running, tasks, demands, i), f) == RoomAt(column, room, i)
    {
      TestInTurn(capacity, running, tasks, demands, column, room, i, f);
    }
  }

  function Vector(v: Field -> real): (r: ResourceVector)
    ensures forall f: Field :: r.Get(f) == v(f)
  {
    ResourceVector(v(Cpu), v(Memory), v(Gpu), v(Storage), v(Mips), v(GpuMemory), v(StorageIops), v(Bandwidth))
  }

  /** A node with the tight room in one resource and ample room in the others. */
  ghost function TightCapacity(running: Allocations, demands: seq<ResourceVector>, slack: real, tight: Field): (r: ResourceVector)
    ensures forall f: Field :: r.Get(f) - Used(running, f)
              == if f == tight then TightRoom(Column(demands, f), slack) else Sum(Column(demands, f))
  {
    Vector(f => Used(running, f) + if f == tight then TightRoom(Column(demands, f), slack) else Sum(Column(demands, f)))
  }

  lemma PositiveColumn(demands: seq<ResourceVector>, f: Field)
    requires AllPositive(demands)
    ensures AllAbove(Column(demands, f))
  {
    forall i | 0 <= i < |demands|
      ensures Column(demands, f)[i] >= 0.0
    {
      assert demands[i].NonNegative();
    }
  }

  lemma TightNodeLetsIn(running: Allocations, tasks: seq<TaskId>, demands: seq<ResourceVector>,
                        slack: real, tight: Field, f: Field)
    requires |demands| == |tasks| && KeysFree(running, tasks) && AllPositive(demands) && slack >= 0.0
    requires !EndsAbove(Column(demands, tight), slack)
    ensures FieldInTurn(TightCapacity(running, demands, slack, tight), running, tasks, demands, slack, f)
  {
    var column := Column(demands, f);
    PositiveColumn(demands, f);
    FieldIsColumn(TightCapacity(running, demands, slack, tight), running, tasks, demands, slack, column,
                  if f == tight then TightRoom(column, slack) else Sum(column), f);
    if f == tight {
      TightRoomLetsIn(column, slack);
    } else {
      AmpleRoomLetsIn(column, slack);
    }
  }

  /** A last demand inside the slack passes its test on a node that has no room for the sum. */
  lemma TightNodeRefusesTogether(running: Allocations, demands: seq<ResourceVector>, slack: real, tight: Field)
    requires AllPositive(demands) && slack >= 0.0 && !EndsAbove(Column(demands, tight), slack)
    ensures !FitTogether(TightCapacity(running, demands, slack, tight), running, demands, slack)
  {
    PositiveColumn(demands, tight);
    TightRoomLetsIn(Column(demands, tight), slack);
    assert Sum(Column(demands, tight)) > Available(TightCapacity(running, demands, slack, tight), running, tight) + slack;
  }

  lemma FitsTogetherInField(capacity: ResourceVector, running: Allocations, tasks: seq<TaskId>,
                            demands: seq<ResourceVector>, slack: real, f: Field)
    requires |demands| == |tasks| && KeysFree(running, tasks) && slack >= 0.0
    requires FieldInTurn(capacity, running, tasks, demands, slack, f) && EndsAbove(Column(demands, f), slack)
    ensures Sum(Column(demands, f)) <= Available(capacity, running, f) + slack
  {
    if Sum(Column(demands, f)) > slack {
      var column, room := Column(demands, f), capacity.Get(f) - Used(running, f);
      FieldIsColumn(capacity, running, tasks, demands, slack, column, room, f);
      LastDemandCloses(column, room, slack, |column|);
    }
  }

  /** Tasks that pass the node's test one after another pass commit's test together, however
      large the node, exactly when in each resource the last demand that is not zero exceeds
      the slack, or everything together stays within it. */
  lemma TestsInTurnSufficeIff(running: Allocations, tasks: seq<TaskId>, demands: seq<ResourceVector>, slack: real)
    requires |tasks| == |demands| && KeysFree(running, tasks) && AllPositive(demands) && slack >= 0.0
    ensures (forall capacity: ResourceVector :: FitInTurn(capacity, running, tasks, demands, slack) ==>
               FitTogether(capacity, running, demands, slack))
            <==> forall f: Field :: EndsAbove(Column(demands, f), slack)
  {
    if tight: Field :| !EndsAbove(Column(demands, tight), slack) {
      forall f: Field
        ensures FieldInTurn(TightCapacity(running, demands, slack, tight), running, tasks, demands, slack, f)
      {
        TightNodeLetsIn(running, tasks, demands, slack, tight, f);
      }
      FieldByField(TightCapacity(running, demands, slack, tight), running, tasks, demands, slack);
      TightNodeRefusesTogether(running, demands, slack, tight);
    } else {
      forall capacity: ResourceVector, f: Field | FitInTurn(capacity, running, tasks, demands, slack)
        ensures Sum(Column(demands, f)) <= Available(capacity, running, f) + slack
      {
        FieldByField(capacity, running, tasks, demands, slack);
        FitsTogetherInField(capacity, running, tasks, demands, slack, f);
      }
    }
  }

  // ----- the keys of the shadow

  /** A shadow node shows the demand of a placed task on top of its load, whatever the demand,
      exactly when no running task with a load has taken the key. */
  lemma ShadowAddsIffKeyIsFree(running: Allocations, t: TaskId)
    ensures (forall d: ResourceVector, f: Field :: Used(running[Key(t) := d], f) == Used(running, f) + d.Get(f))
            <==> Key(t) !in running || running[Key(t)] == ZERO
  {
    var k := Key(t);
    if k !in running {
      forall d: ResourceVector, f: Field
        ensures Used(running[k := d], f) == Used(running, f) + d.Get(f)
      {
        UsedAfterPut(running, k, d, f);
      }
    } else {
      forall d: ResourceVector, f: Field
        ensures Used(running[k := d], f) == Used(running, f) - running[k].Get(f) + d.Get(f)
      {
        UsedAfterRemove(running, k, f);
        UsedAfterPut(running - {k}, k, d, f);
        assert (running - {k})[k := d] == running[k := d];
      }
      if running[k] != ZERO {
        var f := NonZeroField(running[k]);
        assert Used(running[k := ZERO], f) != Used(running, f) + ZERO.Get(f);
      }
    }
  }

  lemma NonZeroField(v: ResourceVector) returns (f: Field)
    requires v != ZERO
    ensures v.Get(f) != 0.0
  {
    f := if v.cpu != 0.0 then Cpu else if v.memory != 0.0 then Memory else if v.gpu != 0.0 then Gpu
         else if v.storage != 0.0 then Storage else if v.mips != 0.0 then Mips else if v.gpuMemory != 0.0 then GpuMemory
         else if v.storageIops != 0.0 then StorageIops else Bandwidth;
  }
}
