/** Over every run in which no node re-registers with less capacity, a node's allocation
    exceeds its capacity by at most one tolerance per task it carries. */
module ProtocolCapacity {
  import opened Common
  import opened Resources
  import opened Protocol
  import opened ProtocolSafety
  import opened ProtocolSteps
  import opened ProtocolCommit
  import opened ProtocolRuns
  import opened ProtocolVersions

  ghost predicate Within(capacity: ResourceVector, running: Allocations) {
    AllNonNegative(running) && NeverOversold(capacity, running, TOLERANCE)
  }

  ghost predicate NodesWithinBound(nodes: map<NodeId, Node>) {
    forall n :: n in nodes ==> Within(nodes[n].capacity, nodes[n].running)
  }

  ghost predicate DemandsNonNegative(tasks: map<TaskId, Task>) {
    forall t :: t in tasks ==> tasks[t].demand.NonNegative()
  }

  ghost predicate WithinBound(s: State) {
    NodesWithinBound(s.nodes) && DemandsNonNegative(s.tasks)
  }

  /** What the bound relies on, beyond what every step relies on: demands are not negative,
      known nodes do not shrink, and a batch describes each of its tasks once and truly. */
  ghost predicate BoundInputs(s: State, a: Action) {
    match a
    case DoSubmit(_, task) => task.demand.NonNegative()
    case DoRegister(n, capacity, _, _) =>
      n in s.nodes ==> forall f: Field :: s.nodes[n].capacity.Get(f) <= capacity.Get(f)
    case DoCommit(_, batch, _, _, _) =>
      && (forall i :: 0 <= i < |batch| ==> batch[i].task.demand.NonNegative())
      && (forall i, j :: 0 <= i < j < |batch| ==> batch[i].id != batch[j].id)
      && (forall i :: 0 <= i < |batch| && batch[i].id in s.tasks ==>
            s.tasks[batch[i].id].demand == batch[i].task.demand)
    case _ => true
  }

  // ----- steps that only free room

  ghost predicate SameDemands(tasks: map<TaskId, Task>, tasks': map<TaskId, Task>) {
    tasks'.Keys == tasks.Keys && forall t :: t in tasks ==> tasks'[t].demand == tasks[t].demand
  }

  ghost predicate Loosens(s: State, s': State) {
    s'.nodes.Keys == s.nodes.Keys && Frees(s.nodes, s'.nodes) && SameDemands(s.tasks, s'.tasks)
  }

  lemma LoosensIsTransitive(a: State, b: State, c: State)
    requires Loosens(a, b) && Loosens(b, c)
    ensures Loosens(a, c)
  {
  }

  lemma ShrinkingKeepsBound(capacity: ResourceVector, running: Allocations, running': Allocations)
    requires Within(capacity, running) && Shrinks(running, running')
    ensures Within(capacity, running')
  {
    forall tasks: set<TaskId>, f: Field | tasks <= running'.Keys && tasks != {}
      ensures Load(running', tasks, f) <= Max(0.0, capacity.Get(f)) + Slack(|tasks|, TOLERANCE)
    {
      LoadDependsOnShares(running, running', tasks, f);
      assert tasks <= running.Keys;
    }
  }

  lemma LoosensKeepsBound(s: State, s': State)
    requires WithinBound(s) && Loosens(s, s')
    ensures WithinBound(s')
  {
    forall n | n in s'.nodes
      ensures Within(s'.nodes[n].capacity, s'.nodes[n].running)
    {
      ShrinkingKeepsBound(s.nodes[n].capacity, s.nodes[n].running, s'.nodes[n].running);
    }
  }

  lemma RetryLoosens(s: State, t: TaskId)
    ensures Loosens(s, Retry(s, t))
  {
  }

  lemma ReleaseLoosens(s: State, t: TaskId, reason: EndReason)
    requires t in s.leases
    ensures Loosens(s, Release(s, t, reason))
  {
    ReleaseFreesNodes(s, t, reason);
  }

  lemma BumpLoosens(s: State, n: NodeId)
    ensures Loosens(s, BumpNode(s, n))
  {
  }

  lemma {:induction false} RecoverFromLoosens(s: State, order: seq<TaskId>, from: set<NodeId>, i: nat)
    requires i <= |order|
    ensures Loosens(s, RecoverFrom(s, order, from, i))
    decreases |order| - i
  {
    if i < |order| {
      var t, s1 := order[i], RecoverOne(s, order[i], from);
      if t in s.leases && s.leases[t].node in from {
        ReleaseLoosens(s, t, Recovered);
        RetryLoosens(Release(s, t, Recovered), t);
        LoosensIsTransitive(s, Release(s, t, Recovered), s1);
      }
      RecoverFromLoosens(s1, order, from, i + 1);
      LoosensIsTransitive(s, s1, RecoverFrom(s1, order, from, i + 1));
    }
  }

  lemma ExpireOneLoosens(s: State, t: TaskId, epoch: real)
    ensures Loosens(s, ExpireOne(s, t, epoch))
  {
    if t in s.leases && s.leases[t].expiresAt <= epoch {
      var s1 := Release(s, t, Expired);
      var s2 := BumpNode(s1, s.leases[t].node);
      ReleaseLoosens(s, t, Expired);
      BumpLoosens(s1, s.leases[t].node);
      LoosensIsTransitive(s, s1, s2);
      RetryLoosens(s2, t);
      LoosensIsTransitive(s, s2, Retry(s2, t));
    }
  }

  lemma {:induction false} ExpireFromLoosens(s: State, order: seq<TaskId>, epoch: real, i: nat)
    requires i <= |order|
    ensures Loosens(s, ExpireFrom(s, order, epoch, i))
    decreases |order| - i
  {
    if i < |order| {
      var s1 := ExpireOne(s, order[i], epoch);
      ExpireOneLoosens(s, order[i], epoch);
      ExpireFromLoosens(s1, order, epoch, i + 1);
      LoosensIsTransitive(s, s1, ExpireFrom(s1, order, epoch, i + 1));
    }
  }

  lemma SweepKeepsBound(s: State, c: Clock, order: seq<TaskId>)
    requires WithinBound(s)
    ensures WithinBound(Sweep(s, c, order))
  {
    var stale := StaleNodes(s, c.mono);
    var s1 := MarkOffline(s, stale);
    LoosensKeepsBound(s, s1);
    var s2 := RecoverAll(s1, order, stale);
    RecoverFromLoosens(s1, order, stale, 0);
    LoosensKeepsBound(s1, s2);
    var s3 := ExpireFrom(s2, order, c.epoch, 0);
    ExpireFromLoosens(s2, order, c.epoch, 0);
    LoosensKeepsBound(s2, s3);
  }

  lemma HeartbeatKeepsBound(s: State, n: NodeId, online: bool, c: Clock, order: seq<TaskId>)
    requires WithinBound(s)
    ensures WithinBound(Heartbeat(s, n, online, c, order))
  {
    SweepKeepsBound(s, c, order);
    var s1 := Sweep(s, c, order);
    if n in s1.nodes {
      var s2 := Beat(s1, n, online, c.mono);
      LoosensKeepsBound(s1, s2);
      RecoverFromLoosens(s2, order, {n}, 0);
      LoosensKeepsBound(s2, RecoverAll(s2, order, {n}));
    }
  }

  lemma BookLoosens(s: State, n: NodeId, t: TaskId)
    requires t in s.leases
    ensures Loosens(s, Book(s, n, t)) && Book(s, n, t).tasks == s.tasks
  {
    ReleaseLoosens(s, t, ByResult);
    BumpLoosens(Release(s, t, ByResult), n);
    LoosensIsTransitive(s, Release(s, t, ByResult), BumpNode(Release(s, t, ByResult), n));
    BookBumps(s, n, t);
  }

  lemma SettleLoosens(s: State, t: TaskId, success: bool)
    requires t in s.tasks
    ensures Loosens(s, Settle(s, t, success))
  {
    SettleIsOneSave(s, t, success);
  }

  lemma AcceptKeepsBound(s: State, n: NodeId, t: TaskId, success: bool, result: Option<ResultId>)
    requires WithinBound(s) && t in s.leases && t in s.tasks && s.leases[t].node == n
    ensures WithinBound(Accept(s, n, t, success, result))
  {
    BookLoosens(s, n, t);
    LoosensKeepsBound(s, Book(s, n, t));
    SettleLoosens(Book(s, n, t), t, success);
    LoosensKeepsBound(Book(s, n, t), Settle(Book(s, n, t), t, success));
  }

  lemma CancelNowLoosens(s: State, t: TaskId, requeue: bool)
    ensures Loosens(s, CancelNow(s, t, requeue))
  {
    CancelNowFrees(s, t, requeue);
  }

  // ----- steps that take room

  lemma RegisterKeepsBound(s: State, n: NodeId, capacity: ResourceVector, nodeVersion: int, mono: real)
    requires WithinBound(s)
    requires n in s.nodes ==> forall f: Field :: s.nodes[n].capacity.Get(f) <= capacity.Get(f)
    ensures WithinBound(Register(s, n, capacity, nodeVersion, mono))
  {
  }

  lemma ActivateKeepsNodes(s: State, t: TaskId, n: NodeId, id: LeaseId, epoch: real)
    requires NodesWithinBound(s.nodes) && Hosts(s, n, t) && t !in s.nodes[n].running && s.tasks[t].demand.NonNegative()
    ensures NodesWithinBound(Activate(s, t, n, id, epoch).nodes)
  {
    var node, demand := s.nodes[n], s.tasks[t].demand;
    AdmissionKeepsBound(node.capacity, node.running, t, demand, TOLERANCE);
  }

  lemma GrantKeepsBound(s: State, t: TaskId, pick: Option<NodeId>, id: LeaseId, epoch: real)
    requires Inv(s) && WithinBound(s) && Grants(s, t, pick)
    ensures WithinBound(Activate(s, t, pick.value, id, epoch))
  {
    PendingHasNoLease(s, t);
    assert t !in s.nodes[pick.value].running;
    ActivateKeepsNodes(s, t, pick.value, id, epoch);
  }

  lemma OfferKeepsBound(s: State, n: NodeId, ordered: seq<TaskId>, picks: map<TaskId, NodeId>,
                        lease: LeaseId, epoch: real)
    requires Inv(s) && WithinBound(s)
    ensures WithinBound(Offer(s, n, ordered, picks, lease, epoch))
  {
    var grant := FirstGrant(s, ordered, n, picks);
    FirstGrantMayGrant(s, ordered, n, picks);
    if n in s.nodes && grant.Some? {
      GrantKeepsBound(s, grant.value, PickFor(picks, grant.value), lease, epoch);
    }
  }

  // ----- batch commit

  /** What the assignments from position `i` on put on one node. */
  ghost function PartFrom(assignments: seq<Assignment>, batch: seq<BatchTask>, n: NodeId, i: nat): Allocations
    requires i <= |assignments|
    decreases |assignments| - i
  {
    if i == |assignments| then map[]
    else if assignments[i].node == n then
      PartFrom(assignments, batch, n, i + 1)[assignments[i].task := DemandOf(batch, assignments[i].task)]
    else PartFrom(assignments, batch, n, i + 1)
  }

  lemma {:induction false} PartFromHolds(assignments: seq<Assignment>, batch: seq<BatchTask>, n: NodeId, i: nat)
    requires i <= |assignments|
    ensures forall t :: t in PartFrom(assignments, batch, n, i) ==>
              (exists j :: i <= j < |assignments| && assignments[j].task == t && assignments[j].node == n)
              && PartFrom(assignments, batch, n, i)[t] == DemandOf(batch, t)
    decreases |assignments| - i
  {
    if i < |assignments| {
      PartFromHolds(assignments, batch, n, i + 1);
    }
  }

  /** The ledger's entry for a node is the load of what the plan puts on it. */
  lemma {:induction false} PartLoadIsDemand(assignments: seq<Assignment>, batch: seq<BatchTask>, n: NodeId, i: nat, f: Field)
    requires i <= |assignments|
    requires forall j, k :: 0 <= j < k < |assignments| ==> assignments[j].task != assignments[k].task
    ensures NodeDemand(assignments, batch, n, i).Get(f) + Used(PartFrom(assignments, batch, n, i), f)
            == NodeDemand(assignments, batch, n, |assignments|).Get(f)
    decreases |assignments| - i
  {
    if i < |assignments| {
      PartLoadIsDemand(assignments, batch, n, i + 1, f);
      PartFromHolds(assignments, batch, n, i + 1);
      var rest := PartFrom(assignments, batch, n, i + 1);
      if assignments[i].node == n {
        UsedAfterPut(rest, assignments[i].task, DemandOf(batch, assignments[i].task), f);
      }
    }
  }

  lemma {:induction false} DemandOfDistinct(batch: seq<BatchTask>, i: nat)
    requires i < |batch| && forall j, k :: 0 <= j < k < |batch| ==> batch[j].id != batch[k].id
    ensures DemandOf(batch, batch[i].id) == batch[i].task.demand
  {
    if i < |batch| - 1 {
      DemandOfDistinct(batch[..|batch| - 1], i);
    }
  }

  /** Every known assigned task demands what the batch says. */
  ghost predicate DemandsAgree(s: State, assignments: seq<Assignment>, batch: seq<BatchTask>, i: nat)
    requires i <= |assignments|
  {
    forall j :: i <= j < |assignments| ==>
      assignments[j].task in s.tasks && s.tasks[assignments[j].task].demand == DemandOf(batch, assignments[j].task)
  }

  lemma PartFromStep(assignments: seq<Assignment>, batch: seq<BatchTask>, n: NodeId, i: nat,
                     running: Allocations)
    requires i < |assignments|
    requires forall j, k :: i <= j < k < |assignments| ==> assignments[j].task != assignments[k].task
    ensures RunningAfter(assignments, batch, n, i, running) + PartFrom(assignments, batch, n, i + 1)
            == running + PartFrom(assignments, batch, n, i)
  {
    PartFromHolds(assignments, batch, n, i + 1);
  }

  ghost function RunningAfter(assignments: seq<Assignment>, batch: seq<BatchTask>, n: NodeId, i: nat,
                              running: Allocations): Allocations
    requires i < |assignments|
  {
    if assignments[i].node == n then running[assignments[i].task := DemandOf(batch, assignments[i].task)] else running
  }

  /** `s'` is `s` except that node `n` carries `running`. */
  ghost predicate Loads(s: State, s': State, n: NodeId, running: Allocations) {
    && n in s.nodes && s'.nodes.Keys == s.nodes.Keys && s'.nodes[n].capacity == s.nodes[n].capacity
    && s'.nodes[n].running == running && SameDemands(s.tasks, s'.tasks)
  }

  /** Activation adds exactly the node's part of the plan. */
  lemma {:induction false} ActivateFromLoads(
      s: State, assignments: seq<Assignment>, batch: seq<BatchTask>, leases: seq<LeaseId>, epoch: real, n: NodeId, i: nat)
    requires Startable(s, assignments, leases, i) && DemandsAgree(s, assignments, batch, i) && n in s.nodes
    ensures Loads(s, ActivateFrom(s, assignments, leases, epoch, i), n,
                  s.nodes[n].running + PartFrom(assignments, batch, n, i))
    decreases |assignments| - i
  {
    if i < |assignments| {
      StartableMovesOn(s, assignments, leases, epoch, i);
      var s1 := ActivateOne(s, assignments[i], leases[i], epoch);
      ActivateFromLoads(s1, assignments, batch, leases, epoch, n, i + 1);
      PartFromStep(assignments, batch, n, i, s.nodes[n].running);
    } else {
      assert s.nodes[n].running + map[] == s.nodes[n].running;
    }
  }

  lemma {:induction false} SubmitFromDemands(s: State, batch: seq<BatchTask>, i: nat)
    requires i <= |batch| && DemandsNonNegative(s.tasks)
    requires forall j :: 0 <= j < |batch| ==> batch[j].task.demand.NonNegative()
    requires forall j, k :: 0 <= j < k < |batch| ==> batch[j].id != batch[k].id
    requires forall j :: 0 <= j < |batch| && batch[j].id in s.tasks ==> s.tasks[batch[j].id].demand == batch[j].task.demand
    ensures var s' := SubmitFrom(s, batch, i);
            && s'.nodes == s.nodes && DemandsNonNegative(s'.tasks)
            && (forall j :: 0 <= j < |batch| && batch[j].id in s'.tasks ==>
                  s'.tasks[batch[j].id].demand == batch[j].task.demand)
    decreases |batch| - i
  {
    if i < |batch| {
      SubmitFromDemands(Submit(s, batch[i].id, batch[i].task), batch, i + 1);
    }
  }

  lemma PreparedDemandsAgree(
      s: State, plan: Plan, batch: seq<BatchTask>, requested: int, leases: seq<LeaseId>, epoch: real)
    requires WithinBound(s) && CommitInputs(s, plan, batch, leases) && Commits(s, plan, batch, requested)
    requires BoundInputs(s, DoCommit(plan, batch, requested, leases, epoch))
    ensures DemandsAgree(Prepared(s, plan, batch), plan.assignments, batch, 0)
    ensures Prepared(s, plan, batch).nodes == s.nodes && DemandsNonNegative(Prepared(s, plan, batch).tasks)
  {
    var demand := DemandByNode(plan.assignments, batch, |plan.assignments|);
    SubmitFromDemands(SaveLedger(s, plan.id, demand), batch, 0);
    PreparedIsStartable(s, plan, batch, requested, leases);
    forall j | 0 <= j < |plan.assignments|
      ensures Prepared(s, plan, batch).tasks[plan.assignments[j].task].demand == DemandOf(batch, plan.assignments[j].task)
    {
      assert InBatch(batch, plan.assignments[j].task);
      var i :| 0 <= i < |batch| && batch[i].id == plan.assignments[j].task;
      DemandOfDistinct(batch, i);
    }
  }

  /** The plan's part for a node was tested only by its sum. */
  lemma PartFits(s: State, plan: Plan, batch: seq<BatchTask>, requested: int, n: NodeId, f: Field)
    requires n in s.nodes && Commits(s, plan, batch, requested)
    requires forall j, k :: 0 <= j < k < |plan.assignments| ==> plan.assignments[j].task != plan.assignments[k].task
    requires PartFrom(plan.assignments, batch, n, 0) != map[]
    ensures Used(PartFrom(plan.assignments, batch, n, 0), f)
            <= Available(s.nodes[n].capacity, s.nodes[n].running, f) + TOLERANCE
  {
    PartLoadIsDemand(plan.assignments, batch, n, 0, f);
    PartIsInLedger(plan.assignments, batch, n);
    var demand := DemandByNode(plan.assignments, batch, |plan.assignments|);
    assert FitsOn(demand[n], s.nodes[n].capacity, s.nodes[n].running, TOLERANCE);
    assert demand[n].Get(f) <= Available(s.nodes[n].capacity, s.nodes[n].running, f) + TOLERANCE;
  }

  /** A batch fits by its sum. */
  ghost predicate SumFits(capacity: ResourceVector, running: Allocations, part: Allocations) {
    forall f: Field :: Used(part, f) <= Available(capacity, running, f) + TOLERANCE
  }

  lemma JoinKeepsBound(capacity: ResourceVector, running: Allocations, part: Allocations)
    requires Within(capacity, running) && AllNonNegative(part) && running.Keys !! part.Keys
    requires part != map[] ==> SumFits(capacity, running, part)
    ensures Within(capacity, running + part)
  {
    if part == map[] {
      assert running + part == running;
    } else {
      JointAdmissionKeepsBound(capacity, running, part, TOLERANCE);
    }
  }

  lemma PartSumFits(s: State, plan: Plan, batch: seq<BatchTask>, requested: int, n: NodeId)
    requires n in s.nodes && Commits(s, plan, batch, requested)
    requires forall j, k :: 0 <= j < k < |plan.assignments| ==> plan.assignments[j].task != plan.assignments[k].task
    ensures PartFrom(plan.assignments, batch, n, 0) != map[] ==>
              SumFits(s.nodes[n].capacity, s.nodes[n].running, PartFrom(plan.assignments, batch, n, 0))
  {
    if PartFrom(plan.assignments, batch, n, 0) != map[] {
      forall f: Field
        ensures Used(PartFrom(plan.assignments, batch, n, 0), f)
                <= Available(s.nodes[n].capacity, s.nodes[n].running, f) + TOLERANCE
      {
        PartFits(s, plan, batch, requested, n, f);
      }
    }
  }

  lemma PartIsNew(s: State, assignments: seq<Assignment>, batch: seq<BatchTask>, n: NodeId)
    requires Inv(s) && n in s.nodes
    requires forall i :: 0 <= i < |assignments| ==> DemandOf(batch, assignments[i].task).NonNegative()
    requires forall i :: 0 <= i < |assignments| && assignments[i].task in s.tasks ==>
               s.tasks[assignments[i].task].status == Pending
    ensures s.nodes[n].running.Keys !! PartFrom(assignments, batch, n, 0).Keys
    ensures AllNonNegative(PartFrom(assignments, batch, n, 0))
  {
    PartFromHolds(assignments, batch, n, 0);
    PendingOccupiesNothing(s, assignments, n);
  }

  lemma CommittedNodeKeepsBound(
      s: State, plan: Plan, batch: seq<BatchTask>, requested: int, n: NodeId)
    requires Inv(s) && WithinBound(s) && n in s.nodes && Commits(s, plan, batch, requested)
    requires forall j, k :: 0 <= j < k < |plan.assignments| ==> plan.assignments[j].task != plan.assignments[k].task
    requires forall i :: 0 <= i < |plan.assignments| ==> DemandOf(batch, plan.assignments[i].task).NonNegative()
    requires forall i :: 0 <= i < |plan.assignments| && plan.assignments[i].task in s.tasks ==>
               s.tasks[plan.assignments[i].task].status == Pending
    ensures Within(s.nodes[n].capacity, s.nodes[n].running + PartFrom(plan.assignments, batch, n, 0))
  {
    PartIsNew(s, plan.assignments, batch, n);
    PartSumFits(s, plan, batch, requested, n);
    JoinKeepsBound(s.nodes[n].capacity, s.nodes[n].running, PartFrom(plan.assignments, batch, n, 0));
  }

  lemma PartIsInLedger(assignments: seq<Assignment>, batch: seq<BatchTask>, n: NodeId)
    requires PartFrom(assignments, batch, n, 0) != map[]
    ensures n in DemandByNode(assignments, batch, |assignments|)
  {
    var part := PartFrom(assignments, batch, n, 0);
    assert part.Keys != {};
    var t :| t in part;
    PartFromHolds(assignments, batch, n, 0);
    var j :| 0 <= j < |assignments| && assignments[j].task == t && assignments[j].node == n;
  }

  lemma PendingOccupiesNothing(s: State, assignments: seq<Assignment>, n: NodeId)
    requires Inv(s) && n in s.nodes
    requires forall i :: 0 <= i < |assignments| && assignments[i].task in s.tasks ==>
               s.tasks[assignments[i].task].status == Pending
    ensures forall i :: 0 <= i < |assignments| ==> assignments[i].task !in s.nodes[n].running
  {
    forall i | 0 <= i < |assignments|
      ensures assignments[i].task !in s.nodes[n].running
    {
      if assignments[i].task in s.tasks {
        PendingHasNoLease(s, assignments[i].task);
      }
    }
  }

  lemma CommitKeepsBound(
      s: State, plan: Plan, batch: seq<BatchTask>, requested: int, leases: seq<LeaseId>, epoch: real)
    requires Inv(s) && WithinBound(s)
    requires Enabled(s, DoCommit(plan, batch, requested, leases, epoch))
    requires BoundInputs(s, DoCommit(plan, batch, requested, leases, epoch))
    ensures WithinBound(Commit(s, plan, batch, requested, leases, epoch))
  {
    if Commits(s, plan, batch, requested) {
      var s1 := Prepared(s, plan, batch);
      PreparedIsStartable(s, plan, batch, requested, leases);
      PreparedDemandsAgree(s, plan, batch, requested, leases, epoch);
      var s2 := ActivateFrom(s1, plan.assignments, leases, epoch, 0);
      ActivateFromKeepsKeys(s1, plan.assignments, leases, epoch, 0);
      forall n | n in s.nodes
        ensures Within(s2.nodes[n].capacity, s2.nodes[n].running)
      {
        ActivateFromLoads(s1, plan.assignments, batch, leases, epoch, n, 0);
        CommittedNodeKeepsBound(s, plan, batch, requested, n);
      }
    }
  }

  lemma {:induction false} ActivateFromKeepsKeys(
      s: State, assignments: seq<Assignment>, leases: seq<LeaseId>, epoch: real, i: nat)
    requires i <= |assignments| == |leases|
    ensures ActivateFrom(s, assignments, leases, epoch, i).nodes.Keys == s.nodes.Keys
    ensures SameDemands(s.tasks, ActivateFrom(s, assignments, leases, epoch, i).tasks)
    decreases |assignments| - i
  {
    if i < |assignments| {
      ActivateFromKeepsKeys(ActivateOne(s, assignments[i], leases[i], epoch), assignments, leases, epoch, i + 1);
    }
  }

  // ----- every step, every run

  lemma RestartKeepsCapacityBound(
      s: State, version: int, taskOrder: seq<TaskId>, leaseOrder: seq<TaskId>,
      lastSeen: map<NodeId, real>, startedAt: real)
    requires Mirrored(s) && WithinBound(s)
    ensures WithinBound(Restart(s, version, taskOrder, leaseOrder, lastSeen, startedAt))
  {
    var s' := Restart(s, version, taskOrder, leaseOrder, lastSeen, startedAt);
    assert SameDemands(s.tasks, s'.tasks);
    forall n | n in s'.nodes
      ensures s'.nodes[n].running == map[]
    {
    }
  }

  lemma ScheduleKeepsBound(
      s: State, t: TaskId, pick: Option<NodeId>, lease: LeaseId, c: Clock, order: seq<TaskId>)
    requires Inv(s) && WithinBound(s)
    ensures WithinBound(Schedule(s, t, pick, lease, c, order))
  {
    SweepKeepsInv(s, c, order);
    SweepKeepsBound(s, c, order);
    var s1 := Sweep(s, c, order);
    if Grants(s1, t, pick) {
      GrantKeepsBound(s1, t, pick, lease, c.epoch);
    }
  }

  lemma RequestKeepsBound(
      s: State, n: NodeId, ordered: seq<TaskId>, picks: map<TaskId, NodeId>, lease: LeaseId, c: Clock, order: seq<TaskId>)
    requires Inv(s) && WithinBound(s)
    ensures WithinBound(Request(s, n, ordered, picks, lease, c, order))
  {
    SweepKeepsInv(s, c, order);
    SweepKeepsBound(s, c, order);
    OfferKeepsBound(Sweep(s, c, order), n, ordered, picks, lease, c.epoch);
  }

  lemma ReportKeepsBound(
      s: State, n: NodeId, t: TaskId, success: bool, held: Option<LeaseId>, result: Option<ResultId>,
      c: Clock, order: seq<TaskId>)
    requires WithinBound(s)
    ensures WithinBound(Report(s, n, t, success, held, result, c, order))
  {
    SweepKeepsBound(s, c, order);
    var s1 := Sweep(s, c, order);
    if Accepts(s1, n, t, held, result) {
      AcceptKeepsBound(s1, n, t, success, result);
    }
  }

  lemma CancelKeepsBound(s: State, t: TaskId, requeue: bool, c: Clock, order: seq<TaskId>)
    requires WithinBound(s)
    ensures WithinBound(Cancel(s, t, requeue, c, order))
  {
    SweepKeepsBound(s, c, order);
    var s1 := Sweep(s, c, order);
    CancelNowLoosens(s1, t, requeue);
    LoosensKeepsBound(s1, CancelNow(s1, t, requeue));
  }

  lemma StepKeepsBound(s: State, a: Action)
    requires Inv(s) && WithinBound(s) && Enabled(s, a) && BoundInputs(s, a)
    ensures WithinBound(Step(s, a))
  {
    match a
    case DoSubmit(_, _) =>
    case DoRegister(n, capacity, nodeVersion, mono) => RegisterKeepsBound(s, n, capacity, nodeVersion, mono);
    case DoHeartbeat(n, online, c, order) => HeartbeatKeepsBound(s, n, online, c, order);
    case DoSweep(c, order) => SweepKeepsBound(s, c, order);
    case DoSchedule(t, pick, lease, c, order) => ScheduleKeepsBound(s, t, pick, lease, c, order);
    case DoRequest(n, ordered, picks, lease, c, order) => RequestKeepsBound(s, n, ordered, picks, lease, c, order);
    case DoAcknowledge(_, _, _, _) =>
    case DoProgress(_, _, _, c, order) => SweepKeepsBound(s, c, order);
    case DoReport(n, t, success, held, result, c, order) => ReportKeepsBound(s, n, t, success, held, result, c, order);
    case DoCancel(t, requeue, c, order) => CancelKeepsBound(s, t, requeue, c, order);
    case DoCommit(plan, batch, requested, leases, epoch) => CommitKeepsBound(s, plan, batch, requested, leases, epoch);
    case DoRestart(version, taskOrder, leaseOrder, lastSeen, startedAt) =>
      RestartKeepsCapacityBound(s, version, taskOrder, leaseOrder, lastSeen, startedAt);
  }

  lemma {:induction false} RunKeepsBound(config: Config, states: seq<State>, actions: seq<Action>, i: nat)
    requires IsRun(states, actions) && states[0] == Initial(config) && i < |states|
    requires forall j :: 0 <= j < i ==> BoundInputs(states[j], actions[j])
    ensures Inv(states[i]) && WithinBound(states[i])
  {
    if i > 0 {
      RunKeepsBound(config, states, actions, i - 1);
      StepKeepsInv(states[i - 1], actions[i - 1]);
      StepKeepsBound(states[i - 1], actions[i - 1]);
    }
  }

  lemma WithinBoundMeans(s: State, n: NodeId, f: Field)
    requires WithinBound(s) && n in s.nodes
    ensures Used(s.nodes[n].running, f)
            <= Max(0.0, s.nodes[n].capacity.Get(f)) + |s.nodes[n].running| as real * TOLERANCE
  {
    BoundOnUsed(s.nodes[n].capacity, s.nodes[n].running, TOLERANCE, f);
  }

  /** Wherever a run has got to, each of a node's eight resources is oversold by at most one
      tolerance per task on the node. */
  lemma NodesAreNeverOversold(
      config: Config, states: seq<State>, actions: seq<Action>, i: nat, n: NodeId, f: Field)
    requires IsRun(states, actions) && states[0] == Initial(config) && i < |states|
    requires forall j :: 0 <= j < i ==> BoundInputs(states[j], actions[j])
    requires n in states[i].nodes
    ensures var node := states[i].nodes[n];
            Used(node.running, f) <= Max(0.0, node.capacity.Get(f)) + |node.running| as real * TOLERANCE
  {
    RunKeepsBound(config, states, actions, i);
    WithinBoundMeans(states[i], n, f);
  }
}
