/** The resource snapshot version and what it protects: whatever can shrink a node's room
    bumps it, so an unchanged version means a plan still fits; and the stored version never
    falls, so a plan commits at most once, even across restarts. */
module ProtocolVersions {
  import opened Common
  import opened Resources
  import opened Protocol
  import opened ProtocolRuns

  // ----- the stored version never falls

  /** The stored version has not fallen, and the live one is not below it. */
  ghost predicate StoredRises(s: State, s': State) {
    s.durable.version <= s'.durable.version <= s'.version
  }

  ghost predicate Rises(s: State, s': State) {
    s.version <= s'.version && StoredRises(s, s')
  }

  ghost predicate SameVersions(s: State, s': State) {
    s'.version == s.version && s'.durable.version == s.durable.version
  }

  lemma RetryKeepsVersions(s: State, t: TaskId)
    ensures SameVersions(s, Retry(s, t)) && Retry(s, t).nodes == s.nodes
  {
  }

  lemma ReleaseKeepsVersions(s: State, t: TaskId, reason: EndReason)
    requires t in s.leases
    ensures SameVersions(s, Release(s, t, reason))
  {
  }

  lemma BumpKeepsVersions(s: State, n: NodeId)
    ensures SameVersions(s, BumpNode(s, n))
  {
  }

  lemma SettleKeepsVersions(s: State, t: TaskId, success: bool)
    requires t in s.tasks
    ensures SameVersions(s, Settle(s, t, success))
  {
  }

  lemma RecoverOneRises(s: State, t: TaskId, from: set<NodeId>)
    requires s.durable.version <= s.version
    ensures Rises(s, RecoverOne(s, t, from))
  {
    if t in s.leases && s.leases[t].node in from {
      ReleaseKeepsVersions(s, t, Recovered);
      RetryKeepsVersions(Release(s, t, Recovered), t);
    }
  }

  lemma {:induction false} RecoverFromRises(s: State, order: seq<TaskId>, from: set<NodeId>, i: nat)
    requires i <= |order| && s.durable.version <= s.version
    ensures Rises(s, RecoverFrom(s, order, from, i))
    decreases |order| - i
  {
    if i < |order| {
      RecoverOneRises(s, order[i], from);
      RecoverFromRises(RecoverOne(s, order[i], from), order, from, i + 1);
    }
  }

  lemma ExpireOneRises(s: State, t: TaskId, epoch: real)
    requires s.durable.version <= s.version
    ensures Rises(s, ExpireOne(s, t, epoch))
  {
    if t in s.leases && s.leases[t].expiresAt <= epoch {
      var s1 := Release(s, t, Expired);
      ReleaseKeepsVersions(s, t, Expired);
      BumpKeepsVersions(s1, s.leases[t].node);
      RetryKeepsVersions(BumpNode(s1, s.leases[t].node), t);
    }
  }

  lemma {:induction false} ExpireFromRises(s: State, order: seq<TaskId>, epoch: real, i: nat)
    requires i <= |order| && s.durable.version <= s.version
    ensures Rises(s, ExpireFrom(s, order, epoch, i))
    decreases |order| - i
  {
    if i < |order| {
      ExpireOneRises(s, order[i], epoch);
      ExpireFromRises(ExpireOne(s, order[i], epoch), order, epoch, i + 1);
    }
  }

  lemma SweepRises(s: State, c: Clock, order: seq<TaskId>)
    requires s.durable.version <= s.version
    ensures Rises(s, Sweep(s, c, order))
  {
    var stale := StaleNodes(s, c.mono);
    var s1 := MarkOffline(s, stale);
    RecoverFromRises(s1, order, stale, 0);
    ExpireFromRises(RecoverAll(s1, order, stale), order, c.epoch, 0);
  }

  lemma {:induction false} SubmitFromRises(s: State, batch: seq<BatchTask>, i: nat)
    requires i <= |batch| && s.durable.version <= s.version
    ensures Rises(s, SubmitFrom(s, batch, i))
    decreases |batch| - i
  {
    if i < |batch| {
      SubmitFromRises(Submit(s, batch[i].id, batch[i].task), batch, i + 1);
    }
  }

  lemma {:induction false} ActivateFromRises(
      s: State, assignments: seq<Assignment>, leases: seq<LeaseId>, epoch: real, i: nat)
    requires i <= |assignments| == |leases| && s.durable.version <= s.version
    ensures Rises(s, ActivateFrom(s, assignments, leases, epoch, i))
    decreases |assignments| - i
  {
    if i < |assignments| {
      ActivateFromRises(ActivateOne(s, assignments[i], leases[i], epoch), assignments, leases, epoch, i + 1);
    }
  }

  /** A successful commit stores a version beyond the plan's. */
  lemma CommitStoresNewVersion(
      s: State, plan: Plan, batch: seq<BatchTask>, requested: int, leases: seq<LeaseId>, epoch: real)
    requires s.durable.version <= s.version && |leases| == |plan.assignments|
    ensures Rises(s, Commit(s, plan, batch, requested, leases, epoch))
    ensures Commits(s, plan, batch, requested) ==>
              Commit(s, plan, batch, requested, leases, epoch).durable.version > plan.version
  {
    if Commits(s, plan, batch, requested) {
      var ledger := DemandByNode(plan.assignments, batch, |plan.assignments|);
      SubmitFromRises(SaveLedger(s, plan.id, ledger), batch, 0);
      ActivateFromRises(Prepared(s, plan, batch), plan.assignments, leases, epoch, 0);
    }
  }

  lemma HeartbeatRises(s: State, n: NodeId, online: bool, c: Clock, order: seq<TaskId>)
    requires s.durable.version <= s.version
    ensures Rises(s, Heartbeat(s, n, online, c, order))
  {
    SweepRises(s, c, order);
    var s1 := Sweep(s, c, order);
    if n in s1.nodes {
      RecoverFromRises(Beat(s1, n, online, c.mono), order, {n}, 0);
    }
  }

  lemma RegisterRises(s: State, n: NodeId, capacity: ResourceVector, nodeVersion: int, mono: real)
    requires s.durable.version <= s.version
    ensures Rises(s, Register(s, n, capacity, nodeVersion, mono))
  {
  }

  lemma ScheduleRises(s: State, t: TaskId, pick: Option<NodeId>, lease: LeaseId, c: Clock, order: seq<TaskId>)
    requires s.durable.version <= s.version
    ensures Rises(s, Schedule(s, t, pick, lease, c, order))
  {
    SweepRises(s, c, order);
  }

  lemma RequestRises(s: State, n: NodeId, ordered: seq<TaskId>, picks: map<TaskId, NodeId>,
                     lease: LeaseId, c: Clock, order: seq<TaskId>)
    requires s.durable.version <= s.version
    ensures Rises(s, Request(s, n, ordered, picks, lease, c, order))
  {
    SweepRises(s, c, order);
  }

  lemma ProgressRises(s: State, n: NodeId, t: TaskId, held: Option<LeaseId>, c: Clock, order: seq<TaskId>)
    requires s.durable.version <= s.version
    ensures Rises(s, Progress(s, n, t, held, c, order))
  {
    SweepRises(s, c, order);
  }

  lemma ReportRises(s: State, n: NodeId, t: TaskId, success: bool, held: Option<LeaseId>,
                    result: Option<ResultId>, c: Clock, order: seq<TaskId>)
    requires s.durable.version <= s.version
    ensures Rises(s, Report(s, n, t, success, held, result, c, order))
  {
    SweepRises(s, c, order);
    if Accepts(Sweep(s, c, order), n, t, held, result) {
      AcceptBumps(Sweep(s, c, order), n, t, success, result);
    }
  }

  lemma CancelRises(s: State, t: TaskId, requeue: bool, c: Clock, order: seq<TaskId>)
    requires s.durable.version <= s.version
    ensures Rises(s, Cancel(s, t, requeue, c, order))
  {
    SweepRises(s, c, order);
    CancelNowKeepsVersions(Sweep(s, c, order), t, requeue);
  }

  lemma RestartStoresMore(s: State, version: int, taskOrder: seq<TaskId>, leaseOrder: seq<TaskId>,
                          lastSeen: map<NodeId, real>, startedAt: real)
    requires IsRestoredVersion(s.durable, version)
    ensures StoredRises(s, Restart(s, version, taskOrder, leaseOrder, lastSeen, startedAt))
  {
  }

  /** No operation, and not even a restart, lets the stored version fall. */
  lemma StepRises(s: State, a: Action)
    requires s.durable.version <= s.version && Enabled(s, a)
    ensures StoredRises(s, Step(s, a))
    ensures !a.DoRestart? ==> s.version <= Step(s, a).version
  {
    match a
    case DoSubmit(_, _) =>
    case DoRegister(n, capacity, nodeVersion, mono) => RegisterRises(s, n, capacity, nodeVersion, mono);
    case DoHeartbeat(n, online, c, order) => HeartbeatRises(s, n, online, c, order);
    case DoSweep(c, order) => SweepRises(s, c, order);
    case DoSchedule(t, pick, lease, c, order) => ScheduleRises(s, t, pick, lease, c, order);
    case DoRequest(n, ordered, picks, lease, c, order) => RequestRises(s, n, ordered, picks, lease, c, order);
    case DoAcknowledge(_, _, _, _) =>
    case DoProgress(n, t, held, c, order) => ProgressRises(s, n, t, held, c, order);
    case DoReport(n, t, success, held, result, c, order) => ReportRises(s, n, t, success, held, result, c, order);
    case DoCancel(t, requeue, c, order) => CancelRises(s, t, requeue, c, order);
    case DoCommit(plan, batch, requested, leases, epoch) =>
      CommitStoresNewVersion(s, plan, batch, requested, leases, epoch);
    case DoRestart(version, taskOrder, leaseOrder, lastSeen, startedAt) =>
      RestartStoresMore(s, version, taskOrder, leaseOrder, lastSeen, startedAt);
  }

  lemma AcceptBumps(s: State, n: NodeId, t: TaskId, success: bool, result: Option<ResultId>)
    requires t in s.leases && t in s.tasks && s.leases[t].node == n
    ensures var s' := Accept(s, n, t, success, result);
            s'.version == s.version + 1 && s'.durable.version == s.durable.version
  {
    BookBumps(s, n, t);
    SettleKeepsVersions(Book(s, n, t), t, success);
  }

  lemma BookBumps(s: State, n: NodeId, t: TaskId)
    requires t in s.leases
    ensures var s' := Book(s, n, t);
            s'.version == s.version + 1 && s'.durable.version == s.durable.version && s'.tasks == s.tasks
  {
    ReleaseKeepsVersions(s, t, ByResult);
    BumpKeepsVersions(Release(s, t, ByResult), n);
  }

  lemma {:induction false} RunRises(states: seq<State>, actions: seq<Action>, i: nat, j: nat)
    requires IsRun(states, actions) && states[0].durable.version <= states[0].version
    requires i <= j < |states|
    ensures states[j].durable.version <= states[j].version
    ensures states[i].durable.version <= states[j].durable.version
    decreases j
  {
    if j > 0 {
      if i < j {
        RunRises(states, actions, i, j - 1);
      } else {
        RunRises(states, actions, j - 1, j - 1);
      }
      StepRises(states[j - 1], actions[j - 1]);
    }
  }

  /** Once a plan has been committed it is refused for ever, whatever batch it is sent
      with, after any operations and restarts. */
  lemma PlanCommitsAtMostOnce(
      states: seq<State>, actions: seq<Action>, i: nat, j: nat, plan: Plan, again: seq<BatchTask>, requested: int)
    requires IsRun(states, actions) && states[0].durable.version <= states[0].version
    requires i < j < |states|
    requires actions[i].DoCommit? && actions[i].plan == plan
             && Commits(states[i], plan, actions[i].batch, actions[i].requested)
    ensures !Commits(states[j], plan, again, requested)
  {
    var a := actions[i];
    RunRises(states, actions, i, i);
    CommitStoresNewVersion(states[i], plan, a.batch, a.requested, a.leases, a.epoch);
    RunRises(states, actions, i + 1, j);
  }

  // ----- a commit that leaks

  /** The state after a commit whose writes were not undone in the store when memory was, once
      a later statement has published them. */
  ghost function Leaked(s: State, plan: Plan, batch: seq<BatchTask>, requested: int, leases: seq<LeaseId>, epoch: real): State
    requires |leases| == |plan.assignments|
  {
    s.(durable := Commit(s, plan, batch, requested, leases, epoch).durable)
  }

  /** Such a store is ahead of memory, which no run over a reliable store reaches. The checks of
      the running process still pass the plan; after a restart it is refused. */
  lemma LeakedCommitIsRefusedAfterRestart(
      s: State, plan: Plan, batch: seq<BatchTask>, requested: int, leases: seq<LeaseId>, epoch: real,
      version: int, taskOrder: seq<TaskId>, leaseOrder: seq<TaskId>, lastSeen: map<NodeId, real>, startedAt: real,
      again: seq<BatchTask>, requestedAgain: int)
    requires s.durable.version <= s.version && |leases| == |plan.assignments| && Commits(s, plan, batch, requested)
    requires IsRestoredVersion(Leaked(s, plan, batch, requested, leases, epoch).durable, version)
    ensures var leaked := Leaked(s, plan, batch, requested, leases, epoch);
            && leaked.version < leaked.durable.version
            && Commits(leaked, plan, batch, requested)
            && !Commits(Restart(leaked, version, taskOrder, leaseOrder, lastSeen, startedAt), plan, again, requestedAgain)
  {
    CommitStoresNewVersion(s, plan, batch, requested, leases, epoch);
  }

  // ----- room only shrinks under a new version

  /** Nodes keep their capacity and give up tasks, or nothing. */
  ghost predicate Frees(nodes: map<NodeId, Node>, nodes': map<NodeId, Node>) {
    forall n :: n in nodes ==>
      n in nodes' && nodes'[n].capacity == nodes[n].capacity && Shrinks(nodes[n].running, nodes'[n].running)
  }

  ghost predicate Shrinks(running: Allocations, running': Allocations) {
    forall t :: t in running' ==> t in running && running'[t] == running[t]
  }

  /** One step of the argument: room is freed, or the version moves on. */
  ghost predicate FreesOrBumps(s: State, s': State) {
    s.version <= s'.version && (s.version < s'.version || Frees(s.nodes, s'.nodes))
  }

  lemma FreesIsTransitive(a: map<NodeId, Node>, b: map<NodeId, Node>, c: map<NodeId, Node>)
    requires Frees(a, b) && Frees(b, c)
    ensures Frees(a, c)
  {
  }

  lemma FreesOrBumpsIsTransitive(a: State, b: State, c: State)
    requires FreesOrBumps(a, b) && FreesOrBumps(b, c)
    ensures FreesOrBumps(a, c)
  {
    if Frees(a.nodes, b.nodes) && Frees(b.nodes, c.nodes) {
      FreesIsTransitive(a.nodes, b.nodes, c.nodes);
    }
  }

  lemma PutNodeFrees(nodes: map<NodeId, Node>, n: NodeId, node: Node)
    requires n in nodes && node.capacity == nodes[n].capacity && Shrinks(nodes[n].running, node.running)
    ensures Frees(nodes, nodes[n := node])
  {
  }

  lemma ReleaseFreesNodes(s: State, t: TaskId, reason: EndReason)
    requires t in s.leases
    ensures Frees(s.nodes, Release(s, t, reason).nodes)
  {
    var n := s.leases[t].node;
    if n in s.nodes {
      PutNodeFrees(s.nodes, n, s.nodes[n].(running := s.nodes[n].running - {t}));
    }
  }

  lemma RecoverOneFrees(s: State, t: TaskId, from: set<NodeId>)
    ensures FreesOrBumps(s, RecoverOne(s, t, from))
  {
    if t in s.leases && s.leases[t].node in from {
      ReleaseFreesNodes(s, t, Recovered);
      ReleaseKeepsVersions(s, t, Recovered);
      RetryKeepsVersions(Release(s, t, Recovered), t);
    }
  }

  lemma ExpireOneBumps(s: State, t: TaskId, epoch: real)
    ensures FreesOrBumps(s, ExpireOne(s, t, epoch))
  {
    if t in s.leases && s.leases[t].expiresAt <= epoch {
      var s1 := Release(s, t, Expired);
      ReleaseKeepsVersions(s, t, Expired);
      BumpKeepsVersions(s1, s.leases[t].node);
      RetryKeepsVersions(BumpNode(s1, s.leases[t].node), t);
    }
  }

  lemma {:induction false} RecoverFromFrees(s: State, order: seq<TaskId>, from: set<NodeId>, i: nat)
    requires i <= |order|
    ensures FreesOrBumps(s, RecoverFrom(s, order, from, i))
    decreases |order| - i
  {
    if i < |order| {
      var s1 := RecoverOne(s, order[i], from);
      RecoverOneFrees(s, order[i], from);
      RecoverFromFrees(s1, order, from, i + 1);
      FreesOrBumpsIsTransitive(s, s1, RecoverFrom(s1, order, from, i + 1));
    }
  }

  lemma {:induction false} ExpireFromFrees(s: State, order: seq<TaskId>, epoch: real, i: nat)
    requires i <= |order|
    ensures FreesOrBumps(s, ExpireFrom(s, order, epoch, i))
    decreases |order| - i
  {
    if i < |order| {
      var s1 := ExpireOne(s, order[i], epoch);
      ExpireOneBumps(s, order[i], epoch);
      ExpireFromFrees(s1, order, epoch, i + 1);
      FreesOrBumpsIsTransitive(s, s1, ExpireFrom(s1, order, epoch, i + 1));
    }
  }

  lemma SweepFrees(s: State, c: Clock, order: seq<TaskId>)
    ensures FreesOrBumps(s, Sweep(s, c, order))
  {
    var stale := StaleNodes(s, c.mono);
    var s1 := MarkOffline(s, stale);
    var s2 := RecoverAll(s1, order, stale);
    RecoverFromFrees(s1, order, stale, 0);
    FreesOrBumpsIsTransitive(s, s1, s2);
    var s3 := ExpireFrom(s2, order, c.epoch, 0);
    ExpireFromFrees(s2, order, c.epoch, 0);
    FreesOrBumpsIsTransitive(s, s2, s3);
  }

  lemma CommitBumps(
      s: State, plan: Plan, batch: seq<BatchTask>, requested: int, leases: seq<LeaseId>, epoch: real)
    requires |leases| == |plan.assignments|
    ensures FreesOrBumps(s, Commit(s, plan, batch, requested, leases, epoch))
  {
    if Commits(s, plan, batch, requested) {
      VersionUnderSubmit(SaveLedger(s, plan.id, DemandByNode(plan.assignments, batch, |plan.assignments|)), batch, 0);
      VersionUnderActivate(Prepared(s, plan, batch), plan.assignments, leases, epoch, 0);
    }
  }

  lemma {:induction false} VersionUnderSubmit(s: State, batch: seq<BatchTask>, i: nat)
    requires i <= |batch|
    ensures SubmitFrom(s, batch, i).version == s.version
    decreases |batch| - i
  {
    if i < |batch| {
      VersionUnderSubmit(Submit(s, batch[i].id, batch[i].task), batch, i + 1);
    }
  }

  lemma {:induction false} VersionUnderActivate(
      s: State, assignments: seq<Assignment>, leases: seq<LeaseId>, epoch: real, i: nat)
    requires i <= |assignments| == |leases|
    ensures ActivateFrom(s, assignments, leases, epoch, i).version >= s.version
    decreases |assignments| - i
  {
    if i < |assignments| {
      VersionUnderActivate(ActivateOne(s, assignments[i], leases[i], epoch), assignments, leases, epoch, i + 1);
    }
  }

  lemma CancelNowKeepsVersions(s: State, t: TaskId, requeue: bool)
    ensures SameVersions(s, CancelNow(s, t, requeue))
  {
  }

  lemma CancelNowFrees(s: State, t: TaskId, requeue: bool)
    ensures Frees(s.nodes, CancelNow(s, t, requeue).nodes)
  {
    FreeingFrees(s, t);
  }

  lemma FreeingFrees(s: State, t: TaskId)
    ensures Frees(s.nodes, s.nodes + FreedEverywhere(s, t))
  {
  }

  lemma HeartbeatFreesOrBumps(s: State, n: NodeId, online: bool, c: Clock, order: seq<TaskId>)
    ensures FreesOrBumps(s, Heartbeat(s, n, online, c, order))
  {
    SweepFrees(s, c, order);
    var s1 := Sweep(s, c, order);
    if n in s1.nodes {
      RecoverFromFrees(Beat(s1, n, online, c.mono), order, {n}, 0);
    }
  }

  lemma ScheduleFreesOrBumps(s: State, t: TaskId, pick: Option<NodeId>, lease: LeaseId, c: Clock, order: seq<TaskId>)
    ensures FreesOrBumps(s, Schedule(s, t, pick, lease, c, order))
  {
    SweepFrees(s, c, order);
  }

  lemma RequestFreesOrBumps(s: State, n: NodeId, ordered: seq<TaskId>, picks: map<TaskId, NodeId>,
                            lease: LeaseId, c: Clock, order: seq<TaskId>)
    ensures FreesOrBumps(s, Request(s, n, ordered, picks, lease, c, order))
  {
    SweepFrees(s, c, order);
  }

  lemma ProgressFreesOrBumps(s: State, n: NodeId, t: TaskId, held: Option<LeaseId>, c: Clock, order: seq<TaskId>)
    ensures FreesOrBumps(s, Progress(s, n, t, held, c, order))
  {
    SweepFrees(s, c, order);
  }

  lemma ReportFreesOrBumps(s: State, n: NodeId, t: TaskId, success: bool, held: Option<LeaseId>,
                           result: Option<ResultId>, c: Clock, order: seq<TaskId>)
    ensures FreesOrBumps(s, Report(s, n, t, success, held, result, c, order))
  {
    SweepFrees(s, c, order);
    if Accepts(Sweep(s, c, order), n, t, held, result) {
      AcceptBumps(Sweep(s, c, order), n, t, success, result);
    }
  }

  lemma CancelFreesOrBumps(s: State, t: TaskId, requeue: bool, c: Clock, order: seq<TaskId>)
    ensures FreesOrBumps(s, Cancel(s, t, requeue, c, order))
  {
    var s1 := Sweep(s, c, order);
    SweepFrees(s, c, order);
    CancelNowKeepsVersions(s1, t, requeue);
    CancelNowFrees(s1, t, requeue);
    FreesOrBumpsIsTransitive(s, s1, CancelNow(s1, t, requeue));
  }

  /** Every operation within one process lifetime frees room or bumps the version. */
  lemma StepFreesOrBumps(s: State, a: Action)
    requires Enabled(s, a) && !a.DoRestart?
    ensures FreesOrBumps(s, Step(s, a))
  {
    match a
    case DoSubmit(_, _) =>
    case DoRegister(_, _, _, _) =>
    case DoHeartbeat(n, online, c, order) => HeartbeatFreesOrBumps(s, n, online, c, order);
    case DoSweep(c, order) => SweepFrees(s, c, order);
    case DoSchedule(t, pick, lease, c, order) => ScheduleFreesOrBumps(s, t, pick, lease, c, order);
    case DoRequest(n, ordered, picks, lease, c, order) => RequestFreesOrBumps(s, n, ordered, picks, lease, c, order);
    case DoAcknowledge(_, _, _, _) =>
    case DoProgress(n, t, held, c, order) => ProgressFreesOrBumps(s, n, t, held, c, order);
    case DoReport(n, t, success, held, result, c, order) => ReportFreesOrBumps(s, n, t, success, held, result, c, order);
    case DoCancel(t, requeue, c, order) => CancelFreesOrBumps(s, t, requeue, c, order);
    case DoCommit(plan, batch, requested, leases, epoch) => CommitBumps(s, plan, batch, requested, leases, epoch);
  }

  lemma {:induction false} RunFreesOrBumps(states: seq<State>, actions: seq<Action>, i: nat, j: nat)
    requires IsRun(states, actions) && i <= j < |states|
    requires forall k :: i <= k < j ==> !actions[k].DoRestart?
    ensures FreesOrBumps(states[i], states[j])
    decreases j - i
  {
    if i < j {
      StepFreesOrBumps(states[i], actions[i]);
      RunFreesOrBumps(states, actions, i + 1, j);
      FreesOrBumpsIsTransitive(states[i], states[i + 1], states[j]);
    }
  }

  lemma ShrinkingGrowsRoom(capacity: ResourceVector, running: Allocations, running': Allocations, f: Field)
    requires AllNonNegative(running) && Shrinks(running, running')
    ensures Available(capacity, running, f) <= Available(capacity, running', f)
  {
    LoadDependsOnShares(running, running', running'.Keys, f);
    LoadIsMonotone(running, running'.Keys, running.Keys, f);
  }

  /** Optimistic concurrency: if the version has not changed since the preview, no node has
      less room in any dimension, whatever operations ran in between. */
  lemma SameVersionMeansNoLessRoom(
      states: seq<State>, actions: seq<Action>, i: nat, j: nat, n: NodeId, f: Field)
    requires IsRun(states, actions) && i <= j < |states|
    requires forall k :: i <= k < j ==> !actions[k].DoRestart?
    requires states[j].version == states[i].version
    requires n in states[i].nodes && AllNonNegative(states[i].nodes[n].running)
    ensures n in states[j].nodes
    ensures Available(states[i].nodes[n].capacity, states[i].nodes[n].running, f)
            <= Available(states[j].nodes[n].capacity, states[j].nodes[n].running, f)
  {
    RunFreesOrBumps(states, actions, i, j);
    ShrinkingGrowsRoom(states[i].nodes[n].capacity, states[i].nodes[n].running, states[j].nodes[n].running, f);
  }

  /** A plan that fits the cluster it was made for is committed, not refused, as long as
      the version is still the plan's. */
  lemma CurrentPlanStillCommits(
      states: seq<State>, actions: seq<Action>, i: nat, j: nat, plan: Plan, batch: seq<BatchTask>)
    requires IsRun(states, actions) && i <= j < |states|
    requires forall k :: i <= k < j ==> !actions[k].DoRestart?
    requires plan.version == states[i].version && states[j].version == plan.version
    requires forall n :: n in states[i].nodes ==> AllNonNegative(states[i].nodes[n].running)
    requires Commits(states[i], plan, batch, plan.version)
    ensures Commits(states[j], plan, batch, plan.version)
  {
    var demand := DemandByNode(plan.assignments, batch, |plan.assignments|);
    forall n | n in demand
      ensures n in states[j].nodes
      ensures FitsOn(demand[n], states[j].nodes[n].capacity, states[j].nodes[n].running, TOLERANCE)
    {
      forall f: Field
        ensures n in states[j].nodes
        ensures demand[n].Get(f) <= Available(states[j].nodes[n].capacity, states[j].nodes[n].running, f) + TOLERANCE
      {
        SameVersionMeansNoLessRoom(states, actions, i, j, n, f);
      }
      SameVersionMeansNoLessRoom(states, actions, i, j, n, Cpu);
    }
  }
}
