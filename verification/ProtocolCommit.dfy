/** Batch commit and restart as steps of the lease protocol: when a commit keeps the
    books, and why a restart from any stored state is consistent again. */
module ProtocolCommit {
  import opened Resources
  import opened Protocol
  import opened ProtocolSafety
  import opened ProtocolSteps

  // ----- batch commit

  /** Every task and node of the plan is known, no task is assigned twice, and every
      lease identifier is new. */
  ghost predicate Startable(s: State, assignments: seq<Assignment>, leases: seq<LeaseId>, i: nat) {
    && i <= |assignments| == |leases|
    && (forall j :: i <= j < |assignments| ==> assignments[j].task in s.tasks && assignments[j].node in s.nodes)
    && (forall j, k :: i <= j < k < |assignments| ==> assignments[j].task != assignments[k].task)
    && (forall j :: i <= j < |leases| ==> Fresh(s.log, leases[j]))
    && (forall j, k :: i <= j < k < |leases| ==> leases[j] != leases[k])
  }

  ghost predicate NoneLeased(s: State, assignments: seq<Assignment>, i: nat) {
    forall j :: i <= j < |assignments| ==> assignments[j].task !in s.leases
  }

  ghost predicate AllPending(s: State, assignments: seq<Assignment>, i: nat) {
    forall j :: i <= j < |assignments| ==>
      assignments[j].task in s.tasks && s.tasks[assignments[j].task].status == Pending
  }

  lemma StartableMovesOn(
      s: State, assignments: seq<Assignment>, leases: seq<LeaseId>, epoch: real, i: nat)
    requires Startable(s, assignments, leases, i) && i < |assignments|
    ensures var s' := ActivateOne(s, assignments[i], leases[i], epoch);
            && s' == Activate(s, assignments[i].task, assignments[i].node, leases[i], epoch)
            && Startable(s', assignments, leases, i + 1)
            && (NoneLeased(s, assignments, i) ==> NoneLeased(s', assignments, i + 1))
            && (AllPending(s, assignments, i) ==> AllPending(s', assignments, i + 1))
  {
    var a := assignments[i];
    var s' := ActivateOne(s, a, leases[i], epoch);
    IssuedOneMore(s.log.issued, Issue(leases[i], a.task));
    assert s'.log.issued == s.log.issued + [Issue(leases[i], a.task)];
  }

  lemma {:induction false} ActivateFromKeepsSound(
      s: State, assignments: seq<Assignment>, leases: seq<LeaseId>, epoch: real, i: nat)
    requires Sound(s) && Startable(s, assignments, leases, i) && NoneLeased(s, assignments, i)
    ensures Sound(ActivateFrom(s, assignments, leases, epoch, i))
    decreases |assignments| - i
  {
    if i < |assignments| {
      StartableMovesOn(s, assignments, leases, epoch, i);
      ActivateKeepsSound(s, assignments[i].task, assignments[i].node, leases[i], epoch);
      ActivateFromKeepsSound(ActivateOne(s, assignments[i], leases[i], epoch), assignments, leases, epoch, i + 1);
    }
  }

  lemma {:induction false} ActivateFromKeepsInv(
      s: State, assignments: seq<Assignment>, leases: seq<LeaseId>, epoch: real, i: nat)
    requires Inv(s) && Startable(s, assignments, leases, i) && AllPending(s, assignments, i)
    ensures Inv(ActivateFrom(s, assignments, leases, epoch, i))
    decreases |assignments| - i
  {
    if i < |assignments| {
      StartableMovesOn(s, assignments, leases, epoch, i);
      ActivateKeepsInv(s, assignments[i].task, assignments[i].node, leases[i], epoch);
      ActivateFromKeepsInv(ActivateOne(s, assignments[i], leases[i], epoch), assignments, leases, epoch, i + 1);
    }
  }

  ghost function TasksFrom(assignments: seq<Assignment>, i: nat): set<TaskId>
    requires i <= |assignments|
    decreases |assignments| - i
  {
    if i == |assignments| then {} else {assignments[i].task} + TasksFrom(assignments, i + 1)
  }

  lemma {:induction false} TasksFromHolds(assignments: seq<Assignment>, i: nat)
    requires i <= |assignments|
    ensures |TasksFrom(assignments, i)| <= |assignments| - i
    ensures forall j :: i <= j < |assignments| ==> assignments[j].task in TasksFrom(assignments, i)
    decreases |assignments| - i
  {
    if i < |assignments| {
      TasksFromHolds(assignments, i + 1);
    }
  }

  /** Activation issues one lease per assignment and ends none. */
  lemma {:induction false} ActivateFromCounts(
      s: State, assignments: seq<Assignment>, leases: seq<LeaseId>, epoch: real, i: nat)
    requires Startable(s, assignments, leases, i)
    ensures var s' := ActivateFrom(s, assignments, leases, epoch, i);
            && |s'.log.issued| == |s.log.issued| + (|assignments| - i)
            && |s'.log.ended| == |s.log.ended|
            && s'.leases.Keys == s.leases.Keys + TasksFrom(assignments, i)
    decreases |assignments| - i
  {
    if i < |assignments| {
      StartableMovesOn(s, assignments, leases, epoch, i);
      ActivateFromCounts(ActivateOne(s, assignments[i], leases[i], epoch), assignments, leases, epoch, i + 1);
    }
  }

  /** What a commit relies on: tasks it introduces start pending, tasks and lease
      identifiers of the plan are not repeated, and the identifiers are new. */
  ghost predicate CommitInputs(s: State, plan: Plan, batch: seq<BatchTask>, leases: seq<LeaseId>) {
    && |leases| == |plan.assignments|
    && (forall i :: 0 <= i < |batch| && batch[i].id !in s.tasks ==>
          batch[i].task.status == Pending && batch[i].task.attempts == 0)
    && (forall j, k :: 0 <= j < k < |plan.assignments| ==> plan.assignments[j].task != plan.assignments[k].task)
    && (forall j :: 0 <= j < |leases| ==> Fresh(s.log, leases[j]))
    && (forall j, k :: 0 <= j < k < |leases| ==> leases[j] != leases[k])
  }

  lemma {:induction false} SubmitFromKeepsInv(s: State, batch: seq<BatchTask>, i: nat)
    requires Inv(s) && i <= |batch|
    requires forall j :: i <= j < |batch| && batch[j].id !in s.tasks ==>
               batch[j].task.status == Pending && batch[j].task.attempts == 0
    ensures Inv(SubmitFrom(s, batch, i))
    decreases |batch| - i
  {
    if i < |batch| {
      if batch[i].id !in s.tasks {
        SubmitKeepsInv(s, batch[i].id, batch[i].task);
      }
      SubmitFromKeepsInv(Submit(s, batch[i].id, batch[i].task), batch, i + 1);
    }
  }

  lemma {:induction false} SubmitFromKeepsRest(s: State, batch: seq<BatchTask>, i: nat)
    requires i <= |batch|
    ensures SameButTasks(s, SubmitFrom(s, batch, i))
    decreases |batch| - i
  {
    if i < |batch| {
      SubmitFromKeepsRest(Submit(s, batch[i].id, batch[i].task), batch, i + 1);
    }
  }

  lemma {:induction false} SubmitFromAdds(s: State, batch: seq<BatchTask>, i: nat)
    requires i <= |batch|
    requires forall j :: i <= j < |batch| && batch[j].id !in s.tasks ==> batch[j].task.status == Pending
    ensures TasksAdded(s.tasks, SubmitFrom(s, batch, i).tasks)
    decreases |batch| - i
  {
    if i < |batch| {
      SubmitFromAdds(Submit(s, batch[i].id, batch[i].task), batch, i + 1);
    }
  }

  lemma {:induction false} SubmitFromCovers(s: State, batch: seq<BatchTask>, i: nat)
    requires i <= |batch|
    ensures forall t :: t in s.tasks ==> t in SubmitFrom(s, batch, i).tasks
    ensures forall j :: i <= j < |batch| ==> batch[j].id in SubmitFrom(s, batch, i).tasks
    decreases |batch| - i
  {
    if i < |batch| {
      SubmitFromCovers(Submit(s, batch[i].id, batch[i].task), batch, i + 1);
    }
  }

  /** Submission adds the unknown tasks, pending, and leaves everything else alone. */
  lemma SubmitFromEffect(s: State, batch: seq<BatchTask>, i: nat)
    requires i <= |batch|
    requires forall j :: i <= j < |batch| && batch[j].id !in s.tasks ==> batch[j].task.status == Pending
    ensures SameButTasks(s, SubmitFrom(s, batch, i))
    ensures TasksAdded(s.tasks, SubmitFrom(s, batch, i).tasks)
    ensures forall j :: i <= j < |batch| ==> batch[j].id in SubmitFrom(s, batch, i).tasks
  {
    SubmitFromKeepsRest(s, batch, i);
    SubmitFromAdds(s, batch, i);
    SubmitFromCovers(s, batch, i);
  }

  ghost predicate SameButTasks(s: State, s': State) {
    s'.leases == s.leases && s'.nodes == s.nodes && s'.log == s.log && s'.version == s.version && s'.config == s.config
  }

  ghost predicate TasksAdded(tasks: map<TaskId, Task>, tasks': map<TaskId, Task>) {
    && (forall t :: t in tasks ==> t in tasks' && tasks'[t] == tasks[t])
    && (forall t :: t in tasks' && t !in tasks ==> tasks'[t].status == Pending)
  }

  lemma PreparedKeepsInv(s: State, plan: Plan, batch: seq<BatchTask>, leases: seq<LeaseId>)
    requires Inv(s) && CommitInputs(s, plan, batch, leases)
    ensures Inv(Prepared(s, plan, batch))
  {
    var ledger := DemandByNode(plan.assignments, batch, |plan.assignments|);
    SubmitFromKeepsInv(SaveLedger(s, plan.id, ledger), batch, 0);
  }

  lemma PreparedIsStartable(
      s: State, plan: Plan, batch: seq<BatchTask>, requested: int, leases: seq<LeaseId>)
    requires CommitInputs(s, plan, batch, leases) && Commits(s, plan, batch, requested)
    ensures Startable(Prepared(s, plan, batch), plan.assignments, leases, 0)
    ensures Prepared(s, plan, batch).leases == s.leases && Prepared(s, plan, batch).log == s.log
    ensures forall t :: t in s.tasks ==>
              t in Prepared(s, plan, batch).tasks && Prepared(s, plan, batch).tasks[t] == s.tasks[t]
    ensures forall t :: t in Prepared(s, plan, batch).tasks && t !in s.tasks ==>
              Prepared(s, plan, batch).tasks[t].status == Pending
  {
    var demand := DemandByNode(plan.assignments, batch, |plan.assignments|);
    SubmitFromEffect(SaveLedger(s, plan.id, demand), batch, 0);
    forall j | 0 <= j < |plan.assignments|
      ensures plan.assignments[j].task in Prepared(s, plan, batch).tasks && plan.assignments[j].node in s.nodes
    {
      assert InBatch(batch, plan.assignments[j].task);
      assert plan.assignments[j].node in demand;
    }
  }

  /** A commit whose tasks are all new or pending keeps the whole invariant. */
  lemma CommitKeepsInv(
      s: State, plan: Plan, batch: seq<BatchTask>, requested: int, leases: seq<LeaseId>, epoch: real)
    requires Inv(s) && CommitInputs(s, plan, batch, leases)
    requires forall i :: 0 <= i < |plan.assignments| && plan.assignments[i].task in s.tasks ==>
               s.tasks[plan.assignments[i].task].status == Pending
    ensures Inv(Commit(s, plan, batch, requested, leases, epoch))
  {
    if Commits(s, plan, batch, requested) {
      var s1 := Prepared(s, plan, batch);
      PreparedKeepsInv(s, plan, batch, leases);
      PreparedIsStartable(s, plan, batch, requested, leases);
      assert AllPending(s1, plan.assignments, 0);
      ActivateFromKeepsInv(s1, plan.assignments, leases, epoch, 0);
    }
  }

  /** The code does not check whether a task of the plan is already running. A commit is
      sound exactly when none of them holds a lease: re-leasing a running task loses the
      old lease without ending it. */
  lemma CommitIsSoundIffNothingIsReissued(
      s: State, plan: Plan, batch: seq<BatchTask>, requested: int, leases: seq<LeaseId>, epoch: real)
    requires Inv(s) && CommitInputs(s, plan, batch, leases) && Commits(s, plan, batch, requested)
    ensures Sound(Commit(s, plan, batch, requested, leases, epoch)) <==> NoneLeased(s, plan.assignments, 0)
  {
    var s1 := Prepared(s, plan, batch);
    PreparedKeepsInv(s, plan, batch, leases);
    PreparedIsStartable(s, plan, batch, requested, leases);
    assert NoneLeased(s, plan.assignments, 0) <==> NoneLeased(s1, plan.assignments, 0);
    ActivationIsSoundIff(s1, plan.assignments, leases, epoch);
  }

  lemma ActivationIsSoundIff(
      s: State, assignments: seq<Assignment>, leases: seq<LeaseId>, epoch: real)
    requires Inv(s) && Startable(s, assignments, leases, 0)
    ensures NoneLeased(s, assignments, 0) ==> Sound(ActivateFrom(s, assignments, leases, epoch, 0))
    ensures !NoneLeased(s, assignments, 0) ==> !Audited(ActivateFrom(s, assignments, leases, epoch, 0))
  {
    if NoneLeased(s, assignments, 0) {
      ActivateFromKeepsSound(s, assignments, leases, epoch, 0);
    } else {
      var j :| 0 <= j < |assignments| && assignments[j].task in s.leases;
      ActivateFromCounts(s, assignments, leases, epoch, 0);
      TasksFromHolds(assignments, 0);
      OverlapIsSmall(s.leases.Keys, TasksFrom(assignments, 0), assignments[j].task);
      HeldSize(s.leases);
      CountsDiffer(s, ActivateFrom(s, assignments, leases, epoch, 0), |assignments|);
    }
  }

  lemma OverlapIsSmall(a: set<TaskId>, b: set<TaskId>, t: TaskId)
    requires t in a && t in b
    ensures |a + b| < |a| + |b|
  {
    assert a + b == a + (b - {t});
  }

  lemma CountsDiffer(s: State, s': State, issued: nat)
    requires |s.log.issued| == |s.leases| + |s.log.ended|
    requires |s'.log.issued| == |s.log.issued| + issued && |s'.log.ended| == |s.log.ended|
    requires |s'.leases.Keys| < |s.leases.Keys| + issued
    ensures !Audited(s')
  {
    HeldSize(s'.leases);
    assert |s.leases| == |s.leases.Keys| && |s'.leases| == |s'.leases.Keys|;
  }

  lemma HeldSize(leases: map<TaskId, Lease>)
    ensures |Held(leases)| == |leases|
  {
    assert Held(leases).Keys == leases.Keys;
  }

  // ----- restart

  ghost predicate Covers<T>(order: seq<TaskId>, m: map<TaskId, T>) {
    Distinct(order) && forall t :: t in m ==> t in order
  }

  lemma {:induction false} QueueStoredHolds(d: Durable, order: seq<TaskId>, queue: seq<TaskId>, i: nat)
    requires i <= |order| && Distinct(queue)
    ensures Distinct(QueueStored(d, order, queue, i))
    ensures forall t :: t in QueueStored(d, order, queue, i) <==> t in queue || (t in order[i..] && Requeues(d, t))
    decreases |order| - i
  {
    if i < |order| {
      QueueStoredHolds(d, order, if Requeues(d, order[i]) then Enqueue(queue, order[i]) else queue, i + 1);
      assert order[i..] == [order[i]] + order[i + 1..];
    }
  }

  lemma {:induction false} QueueLeasedHolds(d: Durable, order: seq<TaskId>, queue: seq<TaskId>, i: nat)
    requires i <= |order| && Distinct(queue)
    ensures Distinct(QueueLeased(d, order, queue, i))
    ensures forall t :: t in QueueLeased(d, order, queue, i) <==> t in queue || (t in order[i..] && LeaseRequeues(d, t))
    decreases |order| - i
  {
    if i < |order| {
      QueueLeasedHolds(d, order, if LeaseRequeues(d, order[i]) then Enqueue(queue, order[i]) else queue, i + 1);
      assert order[i..] == [order[i]] + order[i + 1..];
    }
  }

  lemma RestoredQueueIsRight(d: Durable, taskOrder: seq<TaskId>, leaseOrder: seq<TaskId>)
    requires Covers(taskOrder, d.tasks) && Covers(leaseOrder, d.leases)
    ensures Queued(RestoredTasks(d), QueueLeased(d, leaseOrder, QueueStored(d, taskOrder, [], 0), 0))
  {
    QueueStoredHolds(d, taskOrder, [], 0);
    QueueLeasedHolds(d, leaseOrder, QueueStored(d, taskOrder, [], 0), 0);
    assert taskOrder[0..] == taskOrder && leaseOrder[0..] == leaseOrder;
  }

  /** Restoring any stored state whatever gives a consistent one: no lease, no allocation,
      every pending task queued exactly once. */
  lemma RestartIsStructural(
      s: State, version: int, taskOrder: seq<TaskId>, leaseOrder: seq<TaskId>,
      lastSeen: map<NodeId, real>, startedAt: real)
    requires Covers(taskOrder, s.durable.tasks) && Covers(leaseOrder, s.durable.leases)
    ensures var s' := Restart(s, version, taskOrder, leaseOrder, lastSeen, startedAt);
            && Structural(s') && s'.leases == map[]
            && forall n :: n in s'.nodes ==> s'.nodes[n].running == map[]
  {
    var d := s.durable;
    RestoredQueueIsRight(d, taskOrder, leaseOrder);
  }

  /** No task is lost or invented. A task changes only its status, and only to pending:
      exactly when it was in flight, or had a stored lease without having succeeded. */
  lemma RestartKeepsTasks(
      s: State, version: int, taskOrder: seq<TaskId>, leaseOrder: seq<TaskId>,
      lastSeen: map<NodeId, real>, startedAt: real, t: TaskId)
    ensures var d, s' := s.durable, Restart(s, version, taskOrder, leaseOrder, lastSeen, startedAt);
            && (t in s'.tasks <==> t in d.tasks)
            && (t in d.tasks ==>
                  if InFlight(d.tasks[t].status) || (t in d.leases && d.tasks[t].status != Succeeded)
                  then s'.tasks[t] == d.tasks[t].(status := Pending)
                  else s'.tasks[t] == d.tasks[t])
  {
  }

  lemma {:induction false} DroppedOfRest(leases: map<TaskId, Lease>, order: seq<TaskId>, i: nat, t: TaskId)
    requires i <= |order| && forall j :: i <= j < |order| ==> order[j] != t
    ensures Dropped(leases - {t}, order, i) == Dropped(leases, order, i)
    decreases |order| - i
  {
    if i < |order| {
      DroppedOfRest(leases, order, i + 1, t);
    }
  }

  lemma DropOneKeepsBalance(log: Log, leases: map<TaskId, Lease>, t: TaskId)
    requires Balanced(log, Held(leases)) && t in leases
    ensures Balanced(EndMore(log, [Ending(leases[t].id, t, Restarted)]), Held(leases - {t}))
  {
    var log1 := EndMore(log, [Ending(leases[t].id, t, Restarted)]);
    EndKeepsBalance(log, log1, Held(leases), t, Restarted);
    HeldAfterRemove(leases, t);
  }

  function EndMore(log: Log, more: seq<Ending>): Log {
    log.(ended := log.ended + more)
  }

  lemma EndMoreInTwo(log: Log, e: Ending, tail: seq<Ending>)
    ensures EndMore(EndMore(log, [e]), tail) == EndMore(log, [e] + tail)
    ensures EndMore(log, []) == log
  {
    assert log.ended + [e] + tail == log.ended + ([e] + tail);
    assert log.ended + [] == log.ended;
  }

  /** Ending every active lease at once keeps the books. */
  lemma {:induction false} DropKeepsBalance(log: Log, leases: map<TaskId, Lease>, order: seq<TaskId>, i: nat)
    requires Balanced(log, Held(leases)) && i <= |order| && Distinct(order)
    requires forall t :: t in leases ==> t in order[i..]
    ensures Balanced(EndMore(log, Dropped(leases, order, i)), map[])
    decreases |order| - i
  {
    if i == |order| {
      assert Held(leases) == map[];
      EndMoreInTwo(log, Ending("", "", Restarted), []);
    } else {
      var t := order[i];
      assert order[i..] == [t] + order[i + 1..];
      if t in leases {
        var e := Ending(leases[t].id, t, Restarted);
        DropOneKeepsBalance(log, leases, t);
        DroppedOfRest(leases, order, i + 1, t);
        DropKeepsBalance(EndMore(log, [e]), leases - {t}, order, i + 1);
        EndMoreInTwo(log, e, Dropped(leases, order, i + 1));
      } else {
        DropKeepsBalance(log, leases, order, i + 1);
      }
    }
  }

  lemma RestartKeepsAudit(
      s: State, version: int, taskOrder: seq<TaskId>, leaseOrder: seq<TaskId>,
      lastSeen: map<NodeId, real>, startedAt: real)
    requires Inv(s) && Covers(leaseOrder, s.durable.leases)
    ensures Audited(Restart(s, version, taskOrder, leaseOrder, lastSeen, startedAt))
  {
    var s' := Restart(s, version, taskOrder, leaseOrder, lastSeen, startedAt);
    assert leaseOrder[0..] == leaseOrder;
    DropKeepsBalance(s.log, s.leases, leaseOrder, 0);
    assert Held(s'.leases) == map[];
  }

  lemma RestoredTaskIsBound(tasks: map<TaskId, Task>, log: Log, d: Durable, log': Log, t: TaskId)
    requires Bounded(tasks, log) && d.tasks == tasks && t in tasks
    requires log'.waivers == WaivedByRestart(log, d)
    ensures var task := RestoredTasks(d)[t];
            task.attempts + (if task.status == Pending then 1 else 0) <= RetryLimit(task) + 1 + Waivers(log', t)
  {
    assert tasks[t].attempts + (if tasks[t].status == Pending then 1 else 0)
             <= RetryLimit(tasks[t]) + 1 + Waivers(log, t);
  }

  lemma RestartKeepsBound(tasks: map<TaskId, Task>, log: Log, d: Durable, log': Log)
    requires Bounded(tasks, log) && d.tasks == tasks
    requires log'.issued == log.issued && log'.waivers == WaivedByRestart(log, d)
    ensures Bounded(RestoredTasks(d), log')
  {
    forall t | t in tasks
      ensures var task := RestoredTasks(d)[t];
              task.attempts + (if task.status == Pending then 1 else 0) <= RetryLimit(task) + 1 + Waivers(log', t)
    {
      RestoredTaskIsBound(tasks, log, d, log', t);
    }
  }

  lemma RestartKeepsInv(
      s: State, version: int, taskOrder: seq<TaskId>, leaseOrder: seq<TaskId>,
      lastSeen: map<NodeId, real>, startedAt: real)
    requires Inv(s) && IsRestoredVersion(s.durable, version)
    requires Covers(taskOrder, s.durable.tasks) && Covers(leaseOrder, s.durable.leases)
    ensures Inv(Restart(s, version, taskOrder, leaseOrder, lastSeen, startedAt))
  {
    var s' := Restart(s, version, taskOrder, leaseOrder, lastSeen, startedAt);
    RestartIsStructural(s, version, taskOrder, leaseOrder, lastSeen, startedAt);
    RestartKeepsAudit(s, version, taskOrder, leaseOrder, lastSeen, startedAt);
    RestartKeepsBound(s.tasks, s.log, s.durable, s'.log);
    assert Mirrored(s') by {
      assert s.durable.leases - Listed(leaseOrder) == map[];
    }
  }
}
