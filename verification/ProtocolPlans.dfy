/** What a commit makes of its plan and its batch, said field by field, and what is stored then. */
module ProtocolPlans {
  import opened Common
  import opened Resources
  import opened Protocol
  import opened ProtocolCommit
  import opened ProtocolHistory
  import opened ProtocolNodes

  // ----- the batch

  /** The first task of the batch with this identifier, from position `i` on. */
  ghost predicate FirstOf(batch: seq<BatchTask>, i: nat, k: nat) {
    i <= k < |batch| && forall j :: i <= j < k ==> batch[j].id != batch[k].id
  }

  lemma {:induction false} KnownStays(s: State, batch: seq<BatchTask>, i: nat, t: TaskId)
    requires i <= |batch| && t in s.tasks
    ensures t in SubmitFrom(s, batch, i).tasks && SubmitFrom(s, batch, i).tasks[t] == s.tasks[t]
    ensures t in s.queue ==> t in SubmitFrom(s, batch, i).queue
    decreases |batch| - i
  {
    if i < |batch| {
      KnownStays(Submit(s, batch[i].id, batch[i].task), batch, i + 1, t);
    }
  }

  /** An unknown task of the batch is known after submission, as the batch describes it, and is in
      the queue. */
  lemma {:induction false} UnknownIsSubmitted(s: State, batch: seq<BatchTask>, i: nat, k: nat)
    requires FirstOf(batch, i, k) && batch[k].id !in s.tasks
    ensures var s' := SubmitFrom(s, batch, i);
            batch[k].id in s'.tasks && s'.tasks[batch[k].id] == batch[k].task && batch[k].id in s'.queue
    decreases |batch| - i
  {
    var s1 := Submit(s, batch[i].id, batch[i].task);
    if i == k {
      KnownStays(s1, batch, i + 1, batch[k].id);
    } else {
      UnknownIsSubmitted(s1, batch, i + 1, k);
    }
  }

  // ----- the plan

  /** Each task of the plan has one more attempt, and runs. */
  lemma {:induction false} ActivateFromTasks(
      s: State, assignments: seq<Assignment>, leases: seq<LeaseId>, epoch: real, i: nat, j: nat)
    requires Startable(s, assignments, leases, i) && i <= j < |assignments|
    ensures var s', t := ActivateFrom(s, assignments, leases, epoch, i), assignments[j].task;
            t in s'.tasks && s'.tasks[t] == s.tasks[t].(status := Running, attempts := s.tasks[t].attempts + 1)
    decreases |assignments| - i
  {
    var s1 := ActivateOne(s, assignments[i], leases[i], epoch);
    StartableMovesOn(s, assignments, leases, epoch, i);
    if i < j {
      ActivateFromTasks(s1, assignments, leases, epoch, i + 1, j);
    } else {
      UnnamedTaskStays(s1, assignments, leases, epoch, i + 1, assignments[i].task);
    }
  }

  lemma {:induction false} ActivateFromKeepsLedgers(
      s: State, assignments: seq<Assignment>, leases: seq<LeaseId>, epoch: real, i: nat)
    requires i <= |assignments| == |leases|
    ensures ActivateFrom(s, assignments, leases, epoch, i).ledgers == s.ledgers
    decreases |assignments| - i
  {
    if i < |assignments| {
      ActivateFromKeepsLedgers(ActivateOne(s, assignments[i], leases[i], epoch), assignments, leases, epoch, i + 1);
    }
  }

  lemma {:induction false} SubmitFromKeepsLedgers(s: State, batch: seq<BatchTask>, i: nat)
    requires i <= |batch|
    ensures SubmitFrom(s, batch, i).ledgers == s.ledgers
    decreases |batch| - i
  {
    if i < |batch| {
      SubmitFromKeepsLedgers(Submit(s, batch[i].id, batch[i].task), batch, i + 1);
    }
  }

  /** The task of an assignment runs under the lease of that assignment. */
  ghost predicate Started(s: State, t: TaskId, before: Task, lease: Lease) {
    && t in s.leases && s.leases[t] == lease
    && t in s.tasks && s.tasks[t] == before.(status := Running, attempts := before.attempts + 1)
  }

  /** What the task of the plan was before it was started: as it was known, or as it is submitted. */
  ghost predicate Was(s: State, batch: seq<BatchTask>, t: TaskId, task: Task) {
    if t in s.tasks then task == s.tasks[t]
    else exists k: nat :: FirstOf(batch, 0, k) && batch[k].id == t && batch[k].task == task
  }

  lemma {:induction false} FirstOccurrence(batch: seq<BatchTask>, t: TaskId, i: nat) returns (k: nat)
    requires i < |batch| && batch[i].id == t
    ensures k <= i && FirstOf(batch, 0, k) && batch[k].id == t
  {
    if j: nat :| j < i && batch[j].id == t {
      k := FirstOccurrence(batch, t, j);
    } else {
      k := i;
    }
  }

  lemma PreparedTaskWas(s: State, plan: Plan, batch: seq<BatchTask>, t: TaskId)
    requires InBatch(batch, t)
    ensures t in Prepared(s, plan, batch).tasks && Was(s, batch, t, Prepared(s, plan, batch).tasks[t])
  {
    var s0 := SaveLedger(s, plan.id, DemandByNode(plan.assignments, batch, |plan.assignments|));
    if t in s.tasks {
      KnownStays(s0, batch, 0, t);
    } else {
      var i: nat :| i < |batch| && batch[i].id == t;
      var k := FirstOccurrence(batch, t, i);
      UnknownIsSubmitted(s0, batch, 0, k);
    }
  }

  lemma CommittedTask(
      s: State, plan: Plan, batch: seq<BatchTask>, requested: int, leases: seq<LeaseId>, epoch: real, j: nat)
    requires CommitInputs(s, plan, batch, leases) && Commits(s, plan, batch, requested) && j < |plan.assignments|
    ensures var s1, s', t := Prepared(s, plan, batch), Commit(s, plan, batch, requested, leases, epoch), plan.assignments[j].task;
            && t in s1.tasks && t in s'.tasks
            && s'.tasks[t] == s1.tasks[t].(status := Running, attempts := s1.tasks[t].attempts + 1)
  {
    PreparedIsStartable(s, plan, batch, requested, leases);
    ActivateFromTasks(Prepared(s, plan, batch), plan.assignments, leases, epoch, 0, j);
  }

  /** A commit that passes its checks starts every task of the plan on its node, under the lease
      identifier drawn for it, with one more attempt and the whole timeout ahead. */
  lemma CommitStartsThePlan(
      s: State, plan: Plan, batch: seq<BatchTask>, requested: int, leases: seq<LeaseId>, epoch: real, j: nat)
    returns (before: Task)
    requires CommitInputs(s, plan, batch, leases) && Commits(s, plan, batch, requested) && j < |plan.assignments|
    ensures var a := plan.assignments[j];
            && Was(s, batch, a.task, before)
            && Started(Commit(s, plan, batch, requested, leases, epoch), a.task, before,
                       Lease(leases[j], a.node, epoch, epoch + s.config.leaseTimeout, None))
  {
    PreparedTaskWas(s, plan, batch, plan.assignments[j].task);
    before := Prepared(s, plan, batch).tasks[plan.assignments[j].task];
    CommittedTask(s, plan, batch, requested, leases, epoch, j);
    CommittedLease(s, plan, batch, requested, leases, epoch, j);
  }

  /** The rest of the batch is submitted as it is described, and what was known and is not of the
      plan stays as it was. */
  lemma CommitKeepsTheRest(
      s: State, plan: Plan, batch: seq<BatchTask>, requested: int, leases: seq<LeaseId>, epoch: real, t: TaskId)
    requires CommitInputs(s, plan, batch, leases) && Commits(s, plan, batch, requested)
    requires (t in s.tasks || InBatch(batch, t)) && !Names(plan.assignments, 0, t)
    ensures var s' := Commit(s, plan, batch, requested, leases, epoch);
            t in s'.tasks && Was(s, batch, t, s'.tasks[t])
  {
    var s1 := Prepared(s, plan, batch);
    if InBatch(batch, t) {
      PreparedTaskWas(s, plan, batch, t);
    } else {
      KnownStays(SaveLedger(s, plan.id, DemandByNode(plan.assignments, batch, |plan.assignments|)), batch, 0, t);
    }
    UnnamedTaskStays(s1, plan.assignments, leases, epoch, 0, t);
  }

  /** The ledger of the plan is kept, and the version is stored. */
  lemma CommitFilesThePlan(
      s: State, plan: Plan, batch: seq<BatchTask>, requested: int, leases: seq<LeaseId>, epoch: real)
    requires CommitInputs(s, plan, batch, leases) && Commits(s, plan, batch, requested)
    ensures var s' := Commit(s, plan, batch, requested, leases, epoch);
            && s'.ledgers == s.ledgers[plan.id := DemandByNode(plan.assignments, batch, |plan.assignments|)]
            && s'.durable.version == s'.version
  {
    var s1 := Prepared(s, plan, batch);
    SubmitFromKeepsLedgers(SaveLedger(s, plan.id, DemandByNode(plan.assignments, batch, |plan.assignments|)), batch, 0);
    ActivateFromKeepsLedgers(s1, plan.assignments, leases, epoch, 0);
  }

  // ----- the queue

  /** Taking a task out of the queue leaves the others in their order. */
  lemma {:induction false} RemovalKeepsOrder(front: seq<TaskId>, t: TaskId, back: seq<TaskId>)
    requires t !in front
    ensures RemoveFirst(front + [t] + back, t) == front + back
  {
    var queue := front + [t] + back;
    if front == [] {
      assert queue[1..] == back;
    } else {
      assert queue[1..] == front[1..] + [t] + back;
      RemovalKeepsOrder(front[1..], t, back);
      assert front + back == [front[0]] + (front[1..] + back);
    }
  }
}
