/** Safety over whole runs of the control plane: the invariant in every reachable state,
    where a task is, conservation of leases, and fencing, across restarts. */
module ProtocolRuns {
  import opened Common
  import opened Resources
  import opened Protocol
  import opened ProtocolSafety
  import opened ProtocolSteps
  import opened ProtocolCommit

  datatype Action =
    | DoSubmit(t: TaskId, task: Task)
    | DoRegister(n: NodeId, capacity: ResourceVector, nodeVersion: int, mono: real)
    | DoHeartbeat(n: NodeId, online: bool, c: Clock, order: seq<TaskId>)
    | DoSweep(c: Clock, order: seq<TaskId>)
    | DoSchedule(t: TaskId, pick: Option<NodeId>, lease: LeaseId, c: Clock, order: seq<TaskId>)
    | DoRequest(n: NodeId, ordered: seq<TaskId>, picks: map<TaskId, NodeId>, lease: LeaseId, c: Clock, order: seq<TaskId>)
    | DoAcknowledge(n: NodeId, t: TaskId, lease: LeaseId, epoch: real)
    | DoProgress(n: NodeId, t: TaskId, held: Option<LeaseId>, c: Clock, order: seq<TaskId>)
    | DoReport(n: NodeId, t: TaskId, success: bool, held: Option<LeaseId>, result: Option<ResultId>,
               c: Clock, order: seq<TaskId>)
    | DoCancel(t: TaskId, requeue: bool, c: Clock, order: seq<TaskId>)
    | DoCommit(plan: Plan, batch: seq<BatchTask>, requested: int, leases: seq<LeaseId>, epoch: real)
    | DoRestart(version: int, taskOrder: seq<TaskId>, leaseOrder: seq<TaskId>,
                lastSeen: map<NodeId, real>, startedAt: real)

  /** What the surroundings guarantee: new lease identifiers are new, submitted tasks start
      pending and untried, a batch is committed while its tasks are new or pending, and a
      restart reads the whole store. */
  ghost predicate Enabled(s: State, a: Action) {
    match a
    case DoSubmit(_, task) => task.status == Pending && task.attempts == 0
    case DoSchedule(_, _, lease, _, _) => Fresh(s.log, lease)
    case DoRequest(_, _, _, lease, _, _) => Fresh(s.log, lease)
    case DoCommit(plan, batch, _, leases, _) =>
      && CommitInputs(s, plan, batch, leases)
      && forall i :: 0 <= i < |plan.assignments| && plan.assignments[i].task in s.tasks ==>
           s.tasks[plan.assignments[i].task].status == Pending
    case DoRestart(version, taskOrder, leaseOrder, _, _) =>
      && IsRestoredVersion(s.durable, version)
      && Covers(taskOrder, s.durable.tasks) && Covers(leaseOrder, s.durable.leases)
    case _ => true
  }

  ghost function Step(s: State, a: Action): State
    requires Enabled(s, a)
  {
    match a
    case DoSubmit(t, task) => Submit(s, t, task)
    case DoRegister(n, capacity, nodeVersion, mono) => Register(s, n, capacity, nodeVersion, mono)
    case DoHeartbeat(n, online, c, order) => Heartbeat(s, n, online, c, order)
    case DoSweep(c, order) => Sweep(s, c, order)
    case DoSchedule(t, pick, lease, c, order) => Schedule(s, t, pick, lease, c, order)
    case DoRequest(n, ordered, picks, lease, c, order) => Request(s, n, ordered, picks, lease, c, order)
    case DoAcknowledge(n, t, lease, epoch) => Acknowledge(s, n, t, lease, epoch)
    case DoProgress(n, t, held, c, order) => Progress(s, n, t, held, c, order)
    case DoReport(n, t, success, held, result, c, order) => Report(s, n, t, success, held, result, c, order)
    case DoCancel(t, requeue, c, order) => Cancel(s, t, requeue, c, order)
    case DoCommit(plan, batch, requested, leases, epoch) => Commit(s, plan, batch, requested, leases, epoch)
    case DoRestart(version, taskOrder, leaseOrder, lastSeen, startedAt) =>
      Restart(s, version, taskOrder, leaseOrder, lastSeen, startedAt)
  }

  /** `states` is a run of `actions`: one state more than actions, each step enabled. */
  ghost predicate IsRun(states: seq<State>, actions: seq<Action>) {
    && |states| == |actions| + 1
    && forall i :: 0 <= i < |actions| ==> Enabled(states[i], actions[i]) && states[i + 1] == Step(states[i], actions[i])
  }

  const EMPTY_LOG := Log([], [], [], map[])

  function Initial(config: Config): State {
    State(config, map[], [], map[], map[], map[], 0, [], map[], map[],
          Durable(map[], map[], map[], [], map[], 0), EMPTY_LOG)
  }

  // ----- the invariant

  lemma InitialSatisfiesInv(config: Config)
    ensures Inv(Initial(config))
  {
    assert Held(map[]) == map[];
  }

  lemma StepKeepsInv(s: State, a: Action)
    requires Inv(s) && Enabled(s, a)
    ensures Inv(Step(s, a))
  {
    match a
    case DoSubmit(t, task) => SubmitKeepsInv(s, t, task);
    case DoRegister(n, capacity, nodeVersion, mono) => RegisterKeepsInv(s, n, capacity, nodeVersion, mono);
    case DoHeartbeat(n, online, c, order) => HeartbeatKeepsInv(s, n, online, c, order);
    case DoSweep(c, order) => SweepKeepsInv(s, c, order);
    case DoSchedule(t, pick, lease, c, order) => ScheduleKeepsInv(s, t, pick, lease, c, order);
    case DoRequest(n, ordered, picks, lease, c, order) => RequestKeepsInv(s, n, ordered, picks, lease, c, order);
    case DoAcknowledge(n, t, lease, epoch) => AcknowledgeKeepsInv(s, n, t, lease, epoch);
    case DoProgress(n, t, held, c, order) => ProgressKeepsInv(s, n, t, held, c, order);
    case DoReport(n, t, success, held, result, c, order) => ReportKeepsInv(s, n, t, success, held, result, c, order);
    case DoCancel(t, requeue, c, order) => CancelKeepsInv(s, t, requeue, c, order);
    case DoCommit(plan, batch, requested, leases, epoch) => CommitKeepsInv(s, plan, batch, requested, leases, epoch);
    case DoRestart(version, taskOrder, leaseOrder, lastSeen, startedAt) =>
      RestartKeepsInv(s, version, taskOrder, leaseOrder, lastSeen, startedAt);
  }

  /** The invariant holds in every reachable state of every run. */
  lemma {:induction false} RunKeepsInv(states: seq<State>, actions: seq<Action>, i: nat)
    requires IsRun(states, actions) && Inv(states[0]) && i < |states|
    ensures Inv(states[i])
  {
    if i > 0 {
      RunKeepsInv(states, actions, i - 1);
      StepKeepsInv(states[i - 1], actions[i - 1]);
    }
  }

  lemma UnleasedHasNoHost(s: State, t: TaskId)
    requires Inv(s) && t !in s.leases
    ensures HostsNow(s, t) == {}
  {
  }

  lemma LeasedHasOneHost(s: State, t: TaskId)
    requires Inv(s) && t in s.leases
    ensures HostsNow(s, t) == {s.leases[t].node}
  {
    LeasedIsHeldOnce(s, t);
    assert s.leases[t].node in HostsNow(s, t);
  }

  lemma StatusSays(s: State, t: TaskId)
    requires Inv(s) && t in s.tasks
    ensures s.tasks[t].status == Running <==> t in s.leases
    ensures multiset(s.queue)[t] == if s.tasks[t].status == Pending then 1 else 0
  {
    DistinctCounts(s.queue, t);
  }

  /** Where a task is follows from its status, in every reachable state. */
  lemma TaskIsWhereItsStatusSays(config: Config, states: seq<State>, actions: seq<Action>, i: nat, t: TaskId)
    requires IsRun(states, actions) && states[0] == Initial(config) && i < |states|
    requires t in states[i].tasks
    ensures var s := states[i];
            match s.tasks[t].status
            case Pending => multiset(s.queue)[t] == 1 && t !in s.leases && HostsNow(s, t) == {}
            case Running => t !in s.queue && t in s.leases && HostsNow(s, t) == {s.leases[t].node}
            case _ => t !in s.queue && t !in s.leases && HostsNow(s, t) == {}
  {
    InitialSatisfiesInv(config);
    RunKeepsInv(states, actions, i);
    StatusSays(states[i], t);
    if t in states[i].leases {
      LeasedHasOneHost(states[i], t);
    } else {
      UnleasedHasNoHost(states[i], t);
    }
  }

  lemma {:induction false} DistinctCounts(q: seq<TaskId>, t: TaskId)
    requires Distinct(q)
    ensures multiset(q)[t] == if t in q then 1 else 0
  {
    if q != [] {
      assert q == q[..|q| - 1] + [q[|q| - 1]];
      assert Distinct(q[..|q| - 1]);
      DistinctCounts(q[..|q| - 1], t);
    }
  }

  // ----- conservation

  ghost function EndedBy(ended: seq<Ending>, reason: EndReason): nat {
    if ended == [] then 0
    else EndedBy(ended[..|ended| - 1], reason) + if ended[|ended| - 1].reason == reason then 1 else 0
  }

  lemma {:induction false} EveryEndingHasAReason(ended: seq<Ending>)
    ensures |ended| == EndedBy(ended, ByResult) + EndedBy(ended, Expired) + EndedBy(ended, Recovered)
                       + EndedBy(ended, ByCancel) + EndedBy(ended, Restarted)
    ensures |ResultLeases(ended)| == EndedBy(ended, ByResult)
  {
    if ended != [] {
      EveryEndingHasAReason(ended[..|ended| - 1]);
    }
  }

  lemma {:induction false} ResultLeasesAreDistinct(ended: seq<Ending>)
    requires forall i, j :: 0 <= i < j < |ended| ==> ended[i].lease != ended[j].lease
    ensures Distinct(ResultLeases(ended))
    ensures forall id :: id in ResultLeases(ended) ==> exists i :: 0 <= i < |ended| && ended[i].lease == id
  {
    if ended != [] {
      var front := ended[..|ended| - 1];
      var last := ended[|ended| - 1].lease;
      assert forall i :: 0 <= i < |front| ==> front[i] == ended[i];
      ResultLeasesAreDistinct(front);
      assert last !in ResultLeases(front);
      assert forall id :: id in ResultLeases(ended) ==> id in ResultLeases(front) || id == last;
    }
  }

  /** Every lease ever issued is active or has ended for exactly one reason, and no lease
      has two execution records, however often its result was sent. */
  lemma LeasesAreConserved(config: Config, states: seq<State>, actions: seq<Action>, i: nat)
    requires IsRun(states, actions) && states[0] == Initial(config) && i < |states|
    ensures var s := states[i]; var e := s.log.ended;
            && |s.log.issued| == |s.leases| + EndedBy(e, ByResult) + EndedBy(e, Expired)
                                 + EndedBy(e, Recovered) + EndedBy(e, ByCancel) + EndedBy(e, Restarted)
            && |s.log.records| == EndedBy(e, ByResult)
            && Distinct(s.log.records)
  {
    InitialSatisfiesInv(config);
    RunKeepsInv(states, actions, i);
    var s := states[i];
    EveryEndingHasAReason(s.log.ended);
    ResultLeasesAreDistinct(s.log.ended);
    HeldSize(s.leases);
  }

  // ----- fencing

  /** A report or progress message that names a lease other than the task's current one,
      or comes from another node, does no more than the sweep. */
  lemma StaleMessagesAreFencedOff(
      s: State, n: NodeId, t: TaskId, success: bool, held: Option<LeaseId>, result: Option<ResultId>,
      c: Clock, order: seq<TaskId>)
    requires !Fenced(Sweep(s, c, order), n, t, held)
    ensures Report(s, n, t, success, held, result, c, order) == Sweep(s, c, order)
    ensures Progress(s, n, t, held, c, order) == Sweep(s, c, order)
    ensures !ReplyTo(Sweep(s, c, order), n, t, success, held, result).Accepted?
  {
  }
}
