/** Commit, the version and the nodes: a commit does not look at whether the nodes of the plan
    are online, and the version does not move when one of them goes offline for a missed
    heartbeat. When the plan's tasks run on online nodes all the same, how a node can go
    offline under one version, and what the next sweep does. */
module ProtocolNodes {
  import opened Common
  import opened Resources
  import opened Protocol
  import opened ProtocolSteps
  import opened ProtocolEffects
  import opened ProtocolCommit
  import opened ProtocolRuns
  import opened ProtocolVersions

  // ----- a commit

  lemma ActivateKeepsLine(s: State, t: TaskId, n: NodeId, lease: LeaseId, epoch: real)
    requires t in s.tasks && n in s.nodes
    ensures SameLine(s.nodes, Activate(s, t, n, lease, epoch).nodes)
  {
    PutKeepsLine(s.nodes, n, Activate(s, t, n, lease, epoch).nodes[n]);
  }

  lemma {:induction false} ActivateFromKeepsLine(
      s: State, assignments: seq<Assignment>, leases: seq<LeaseId>, epoch: real, i: nat)
    requires i <= |assignments| == |leases|
    ensures SameLine(s.nodes, ActivateFrom(s, assignments, leases, epoch, i).nodes)
    decreases |assignments| - i
  {
    if i < |assignments| {
      var a := assignments[i];
      var s1 := ActivateOne(s, a, leases[i], epoch);
      if a.task in s.tasks && a.node in s.nodes {
        ActivateKeepsLine(s, a.task, a.node, leases[i], epoch);
      }
      ActivateFromKeepsLine(s1, assignments, leases, epoch, i + 1);
      SameLineIsTransitive(s.nodes, s1.nodes, ActivateFrom(s1, assignments, leases, epoch, i + 1).nodes);
    }
  }

  lemma {:induction false} OtherLeasesStay(
      s: State, assignments: seq<Assignment>, leases: seq<LeaseId>, epoch: real, i: nat, t: TaskId)
    requires i <= |assignments| == |leases| && forall j :: i <= j < |assignments| ==> assignments[j].task != t
    requires t in s.leases
    ensures var s' := ActivateFrom(s, assignments, leases, epoch, i);
            t in s'.leases && s'.leases[t] == s.leases[t]
    decreases |assignments| - i
  {
    if i < |assignments| {
      OtherLeasesStay(ActivateOne(s, assignments[i], leases[i], epoch), assignments, leases, epoch, i + 1, t);
    }
  }

  function NewLease(config: Config, a: Assignment, lease: LeaseId, epoch: real): Lease {
    Lease(lease, a.node, epoch, epoch + config.leaseTimeout, None)
  }

  /** Each task of the plan ends up with a new lease on its node. */
  lemma {:induction false} ActivateFromLeases(
      s: State, assignments: seq<Assignment>, leases: seq<LeaseId>, epoch: real, i: nat, j: nat)
    requires Startable(s, assignments, leases, i) && i <= j < |assignments|
    ensures var s', a := ActivateFrom(s, assignments, leases, epoch, i), assignments[j];
            a.task in s'.leases && s'.leases[a.task] == NewLease(s.config, a, leases[j], epoch)
    decreases |assignments| - i
  {
    var s1 := ActivateOne(s, assignments[i], leases[i], epoch);
    StartableMovesOn(s, assignments, leases, epoch, i);
    if i < j {
      ActivateFromLeases(s1, assignments, leases, epoch, i + 1, j);
    } else {
      OtherLeasesStay(s1, assignments, leases, epoch, i + 1, assignments[i].task);
    }
  }

  /** The task has a lease on a node that is online. */
  ghost predicate RunsOnline(s: State, t: TaskId) {
    t in s.leases && s.leases[t].node in s.nodes && s.nodes[s.leases[t].node].online
  }

  ghost predicate NodesOnline(s: State, plan: Plan) {
    forall i :: 0 <= i < |plan.assignments| ==> plan.assignments[i].node in s.nodes && s.nodes[plan.assignments[i].node].online
  }

  lemma CommittedNodes(
      s: State, plan: Plan, batch: seq<BatchTask>, requested: int, leases: seq<LeaseId>, epoch: real)
    requires CommitInputs(s, plan, batch, leases) && Commits(s, plan, batch, requested)
    ensures SameLine(s.nodes, Commit(s, plan, batch, requested, leases, epoch).nodes)
  {
    var s1 := Prepared(s, plan, batch);
    SubmitFromKeepsRest(SaveLedger(s, plan.id, DemandByNode(plan.assignments, batch, |plan.assignments|)), batch, 0);
    ActivateFromKeepsLine(s1, plan.assignments, leases, epoch, 0);
  }

  lemma CommittedLease(
      s: State, plan: Plan, batch: seq<BatchTask>, requested: int, leases: seq<LeaseId>, epoch: real, j: nat)
    requires CommitInputs(s, plan, batch, leases) && Commits(s, plan, batch, requested) && j < |plan.assignments|
    ensures var s', a := Commit(s, plan, batch, requested, leases, epoch), plan.assignments[j];
            a.task in s'.leases && s'.leases[a.task] == NewLease(s.config, a, leases[j], epoch) && a.node in s.nodes
  {
    PreparedIsStartable(s, plan, batch, requested, leases);
    ActivateFromLeases(Prepared(s, plan, batch), plan.assignments, leases, epoch, 0, j);
    SubmitFromKeepsRest(SaveLedger(s, plan.id, DemandByNode(plan.assignments, batch, |plan.assignments|)), batch, 0);
  }

  lemma CommittedRunsOnlineIff(
      s: State, plan: Plan, batch: seq<BatchTask>, requested: int, leases: seq<LeaseId>, epoch: real, j: nat)
    requires CommitInputs(s, plan, batch, leases) && Commits(s, plan, batch, requested) && j < |plan.assignments|
    ensures RunsOnline(Commit(s, plan, batch, requested, leases, epoch), plan.assignments[j].task)
            <==> plan.assignments[j].node in s.nodes && s.nodes[plan.assignments[j].node].online
  {
    CommittedNodes(s, plan, batch, requested, leases, epoch);
    CommittedLease(s, plan, batch, requested, leases, epoch, j);
  }

  /** After a commit every task of the plan runs on an online node exactly when every node that
      the plan names is online at commit: the commit itself does not check it. */
  lemma CommitRunsOnlineIff(
      s: State, plan: Plan, batch: seq<BatchTask>, requested: int, leases: seq<LeaseId>, epoch: real)
    requires CommitInputs(s, plan, batch, leases) && Commits(s, plan, batch, requested)
    ensures (forall i :: 0 <= i < |plan.assignments| ==>
               RunsOnline(Commit(s, plan, batch, requested, leases, epoch), plan.assignments[i].task))
            <==> NodesOnline(s, plan)
  {
    forall i | 0 <= i < |plan.assignments|
      ensures RunsOnline(Commit(s, plan, batch, requested, leases, epoch), plan.assignments[i].task)
              <==> plan.assignments[i].node in s.nodes && s.nodes[plan.assignments[i].node].online
    {
      CommittedRunsOnlineIff(s, plan, batch, requested, leases, epoch, i);
    }
  }

  // ----- the next sweep

  lemma {:induction false} SubmitFromKeepsSeen(s: State, batch: seq<BatchTask>, i: nat)
    requires i <= |batch|
    ensures SubmitFrom(s, batch, i).lastSeen == s.lastSeen
    decreases |batch| - i
  {
    if i < |batch| {
      SubmitFromKeepsSeen(Submit(s, batch[i].id, batch[i].task), batch, i + 1);
    }
  }

  lemma {:induction false} ActivateFromKeepsSeen(
      s: State, assignments: seq<Assignment>, leases: seq<LeaseId>, epoch: real, i: nat)
    requires i <= |assignments| == |leases|
    ensures var s' := ActivateFrom(s, assignments, leases, epoch, i); s'.lastSeen == s.lastSeen && s'.config == s.config
    decreases |assignments| - i
  {
    if i < |assignments| {
      ActivateFromKeepsSeen(ActivateOne(s, assignments[i], leases[i], epoch), assignments, leases, epoch, i + 1);
    }
  }

  lemma CommitKeepsStale(
      s: State, plan: Plan, batch: seq<BatchTask>, requested: int, leases: seq<LeaseId>, epoch: real, mono: real)
    requires CommitInputs(s, plan, batch, leases) && Commits(s, plan, batch, requested)
    ensures StaleNodes(Commit(s, plan, batch, requested, leases, epoch), mono) == StaleNodes(s, mono)
  {
    var s0 := SaveLedger(s, plan.id, DemandByNode(plan.assignments, batch, |plan.assignments|));
    CommittedNodes(s, plan, batch, requested, leases, epoch);
    SubmitFromKeepsSeen(s0, batch, 0);
    SubmitFromKeepsRest(s0, batch, 0);
    ActivateFromKeepsSeen(Prepared(s, plan, batch), plan.assignments, leases, epoch, 0);
  }

  /** The first sweep after a commit takes a task's new lease away exactly when the heartbeat
      of its node, as it was before the commit, is overdue, or the lease has run out. */
  lemma NextSweepEndsCommittedIff(
      s: State, plan: Plan, batch: seq<BatchTask>, requested: int, leases: seq<LeaseId>, epoch: real, j: nat,
      c: Clock, order: seq<TaskId>)
    requires CommitInputs(s, plan, batch, leases) && Commits(s, plan, batch, requested) && j < |plan.assignments|
    requires forall t :: t in Commit(s, plan, batch, requested, leases, epoch).leases ==> t in order
    ensures plan.assignments[j].task !in Sweep(Commit(s, plan, batch, requested, leases, epoch), c, order).leases
            <==> plan.assignments[j].node in StaleNodes(s, c.mono) || epoch + s.config.leaseTimeout <= c.epoch
  {
    var s' := Commit(s, plan, batch, requested, leases, epoch);
    CommittedLease(s, plan, batch, requested, leases, epoch, j);
    CommitKeepsStale(s, plan, batch, requested, leases, epoch, c.mono);
    SweepEndsExactlyTheDead(s', c, order, plan.assignments[j].task);
  }

  // ----- what the version buys

  /** The clock of an operation that begins with a sweep. */
  function ClockOf(a: Action): Option<Clock> {
    match a
    case DoHeartbeat(_, _, c, _) => Some(c)
    case DoSweep(c, _) => Some(c)
    case DoSchedule(_, _, _, c, _) => Some(c)
    case DoRequest(_, _, _, _, c, _) => Some(c)
    case DoProgress(_, _, _, c, _) => Some(c)
    case DoReport(_, _, _, _, _, c, _) => Some(c)
    case DoCancel(_, _, c, _) => Some(c)
    case _ => None
  }

  /** The operation finds the heartbeat of the node overdue. */
  ghost predicate FindsOverdue(s: State, a: Action, n: NodeId) {
    ClockOf(a).Some? && n in StaleNodes(s, ClockOf(a).value.mono)
  }

  /** The node is still online, or the version has moved on. */
  ghost predicate StaysOnline(s: State, s': State, n: NodeId) {
    s.version < s'.version || (n in s'.nodes && s'.nodes[n].online)
  }

  lemma SweepKeepsOnline(s: State, c: Clock, order: seq<TaskId>, n: NodeId)
    requires n in s.nodes && s.nodes[n].online && n !in StaleNodes(s, c.mono)
    ensures n in Sweep(s, c, order).nodes && Sweep(s, c, order).nodes[n].online
    ensures s.version <= Sweep(s, c, order).version
  {
    SweepTurnsOffTheStale(s, c, order);
    SweepFrees(s, c, order);
  }

  lemma HeartbeatStaysOnline(s: State, m: NodeId, online: bool, c: Clock, order: seq<TaskId>, n: NodeId)
    requires n in s.nodes && s.nodes[n].online && n !in StaleNodes(s, c.mono)
    ensures StaysOnline(s, Heartbeat(s, m, online, c, order), n)
  {
    SweepKeepsOnline(s, c, order, n);
    var s1 := Sweep(s, c, order);
    if m in s1.nodes {
      RecoverFromFrees(Beat(s1, m, online, c.mono), order, {m}, 0);
    }
  }

  lemma ScheduleStaysOnline(s: State, t: TaskId, pick: Option<NodeId>, lease: LeaseId, c: Clock,
                            order: seq<TaskId>, n: NodeId)
    requires n in s.nodes && s.nodes[n].online && n !in StaleNodes(s, c.mono)
    ensures StaysOnline(s, Schedule(s, t, pick, lease, c, order), n)
  {
    SweepKeepsOnline(s, c, order, n);
  }

  lemma RequestStaysOnline(s: State, m: NodeId, ordered: seq<TaskId>, picks: map<TaskId, NodeId>,
                           lease: LeaseId, c: Clock, order: seq<TaskId>, n: NodeId)
    requires n in s.nodes && s.nodes[n].online && n !in StaleNodes(s, c.mono)
    ensures StaysOnline(s, Request(s, m, ordered, picks, lease, c, order), n)
  {
    SweepKeepsOnline(s, c, order, n);
  }

  lemma ProgressStaysOnline(s: State, m: NodeId, t: TaskId, held: Option<LeaseId>, c: Clock,
                            order: seq<TaskId>, n: NodeId)
    requires n in s.nodes && s.nodes[n].online && n !in StaleNodes(s, c.mono)
    ensures StaysOnline(s, Progress(s, m, t, held, c, order), n)
  {
    SweepKeepsOnline(s, c, order, n);
  }

  lemma ReportStaysOnline(s: State, m: NodeId, t: TaskId, success: bool, held: Option<LeaseId>,
                          result: Option<ResultId>, c: Clock, order: seq<TaskId>, n: NodeId)
    requires n in s.nodes && s.nodes[n].online && n !in StaleNodes(s, c.mono)
    ensures StaysOnline(s, Report(s, m, t, success, held, result, c, order), n)
  {
    SweepKeepsOnline(s, c, order, n);
    if Accepts(Sweep(s, c, order), m, t, held, result) {
      AcceptBumps(Sweep(s, c, order), m, t, success, result);
    }
  }

  lemma CancelStaysOnline(s: State, t: TaskId, requeue: bool, c: Clock, order: seq<TaskId>, n: NodeId)
    requires n in s.nodes && s.nodes[n].online && n !in StaleNodes(s, c.mono)
    ensures StaysOnline(s, Cancel(s, t, requeue, c, order), n)
  {
    SweepKeepsOnline(s, c, order, n);
    CancelNowKeepsLine(Sweep(s, c, order), t, requeue);
  }

  lemma CancelNowKeepsLine(s: State, t: TaskId, requeue: bool)
    ensures SameLine(s.nodes, CancelNow(s, t, requeue).nodes)
  {
  }

  lemma CommitStaysOnline(s: State, plan: Plan, batch: seq<BatchTask>, requested: int,
                          leases: seq<LeaseId>, epoch: real, n: NodeId)
    requires CommitInputs(s, plan, batch, leases) && n in s.nodes && s.nodes[n].online
    ensures StaysOnline(s, Commit(s, plan, batch, requested, leases, epoch), n)
  {
    if Commits(s, plan, batch, requested) {
      CommittedNodes(s, plan, batch, requested, leases, epoch);
    }
  }

  /** No operation takes a node offline under the same version, unless it finds the node's
      heartbeat overdue. */
  lemma StepKeepsOnline(s: State, a: Action, n: NodeId)
    requires Enabled(s, a) && !a.DoRestart? && n in s.nodes && s.nodes[n].online && !FindsOverdue(s, a, n)
    ensures StaysOnline(s, Step(s, a), n)
  {
    match a
    case DoSubmit(_, _) =>
    case DoRegister(_, _, _, _) =>
    case DoHeartbeat(m, online, c, order) => HeartbeatStaysOnline(s, m, online, c, order, n);
    case DoSweep(c, order) => SweepKeepsOnline(s, c, order, n);
    case DoSchedule(t, pick, lease, c, order) => ScheduleStaysOnline(s, t, pick, lease, c, order, n);
    case DoRequest(m, ordered, picks, lease, c, order) => RequestStaysOnline(s, m, ordered, picks, lease, c, order, n);
    case DoAcknowledge(_, _, _, _) =>
    case DoProgress(m, t, held, c, order) => ProgressStaysOnline(s, m, t, held, c, order, n);
    case DoReport(m, t, success, held, result, c, order) => ReportStaysOnline(s, m, t, success, held, result, c, order, n);
    case DoCancel(t, requeue, c, order) => CancelStaysOnline(s, t, requeue, c, order, n);
    case DoCommit(plan, batch, requested, leases, epoch) => CommitStaysOnline(s, plan, batch, requested, leases, epoch, n);
  }

  /** A node that was online when a plan was made, and is offline while the version is still
      the plan's, went offline for an overdue heartbeat and for nothing else. */
  lemma {:induction false} OfflineMeansOverdue(states: seq<State>, actions: seq<Action>, i: nat, j: nat, n: NodeId)
    requires IsRun(states, actions) && i <= j < |states|
    requires forall k :: i <= k < j ==> !actions[k].DoRestart?
    requires states[j].version == states[i].version
    requires n in states[i].nodes && states[i].nodes[n].online
    requires !(n in states[j].nodes && states[j].nodes[n].online)
    ensures exists k :: i <= k < j && FindsOverdue(states[k], actions[k], n)
    decreases j - i
  {
    RunFreesOrBumps(states, actions, i + 1, j);
    StepFreesOrBumps(states[i], actions[i]);
    if !FindsOverdue(states[i], actions[i], n) {
      StepKeepsOnline(states[i], actions[i], n);
      OfflineMeansOverdue(states, actions, i + 1, j, n);
    }
  }
}
