/** What runs leave behind: ended leases stay fenced off and finished tasks stay finished. */
module ProtocolHistory {
  import opened Common
  import opened Resources
  import opened Protocol
  import opened ProtocolSafety
  import opened ProtocolSteps
  import opened ProtocolCommit
  import opened ProtocolRuns
  import opened ProtocolVersions

  // ----- what a sweep leaves alone

  /** Leases only end, and only running tasks change. */
  ghost predicate Quiet(s: State, s': State) {
    && EndedIds(s.log.ended) <= EndedIds(s'.log.ended) && s'.log.waivers == s.log.waivers
    && s'.config == s.config && s'.receipts == s.receipts && s'.latest == s.latest
    && (forall t :: t in s'.leases ==> t in s.leases && s'.leases[t] == s.leases[t])
    && SettledKept(s.tasks, s'.tasks)
  }

  /** Tasks that are not running stay as they are. */
  ghost predicate SettledKept(tasks: map<TaskId, Task>, tasks': map<TaskId, Task>) {
    forall t :: t in tasks ==> t in tasks' && (tasks[t].status != Running ==> tasks'[t] == tasks[t])
  }

  lemma QuietIsTransitive(a: State, b: State, c: State)
    requires Quiet(a, b) && Quiet(b, c)
    ensures Quiet(a, c)
  {
  }

  lemma ReleaseRewrites(s: State, t: TaskId, reason: EndReason)
    requires t in s.leases
    ensures var s' := Release(s, t, reason);
            && s'.tasks == s.tasks && s'.leases == s.leases - {t} && s'.config == s.config
            && s'.receipts == s.receipts && s'.latest == s.latest
            && s'.log == s.log.(ended := s.log.ended + [Ending(s.leases[t].id, t, reason)])
  {
    if s.leases[t].node in s.nodes {
    } else {
    }
  }

  lemma ReleaseIsQuiet(s: State, t: TaskId, reason: EndReason)
    requires t in s.leases
    ensures Quiet(s, Release(s, t, reason)) && Release(s, t, reason).tasks == s.tasks
  {
    ReleaseRewrites(s, t, reason);
    EndedOneMore(s.log.ended, Ending(s.leases[t].id, t, reason));
  }

  lemma SavingRunningIsQuiet(s: State, t: TaskId, task: Task, queue: seq<TaskId>)
    requires t in s.tasks && s.tasks[t].status == Running
    ensures Quiet(s, SaveTask(s.(queue := queue), t, task))
  {
  }

  lemma RetryIsQuiet(s: State, t: TaskId)
    ensures Quiet(s, Retry(s, t))
  {
    if t in s.tasks && s.tasks[t].status == Running {
      var task := s.tasks[t];
      if task.attempts <= task.maxRetries {
        SavingRunningIsQuiet(s, t, task.(status := Pending), Enqueue(s.queue, t));
      } else {
        assert s.(queue := s.queue) == s;
        SavingRunningIsQuiet(s, t, task.(status := Failed), s.queue);
      }
    }
  }

  lemma BumpIsQuiet(s: State, n: NodeId)
    ensures Quiet(s, BumpNode(s, n))
  {
  }

  lemma {:induction false} RecoverFromIsQuiet(s: State, order: seq<TaskId>, from: set<NodeId>, i: nat)
    requires i <= |order|
    ensures Quiet(s, RecoverFrom(s, order, from, i))
    decreases |order| - i
  {
    if i < |order| {
      var t, s1 := order[i], RecoverOne(s, order[i], from);
      if t in s.leases && s.leases[t].node in from {
        ReleaseIsQuiet(s, t, Recovered);
        RetryIsQuiet(Release(s, t, Recovered), t);
        QuietIsTransitive(s, Release(s, t, Recovered), s1);
      }
      RecoverFromIsQuiet(s1, order, from, i + 1);
      QuietIsTransitive(s, s1, RecoverFrom(s1, order, from, i + 1));
    }
  }

  lemma ExpireOneIsQuiet(s: State, t: TaskId, epoch: real)
    ensures Quiet(s, ExpireOne(s, t, epoch))
  {
    if t in s.leases && s.leases[t].expiresAt <= epoch {
      var s1 := Release(s, t, Expired);
      var s2 := BumpNode(s1, s.leases[t].node);
      ReleaseIsQuiet(s, t, Expired);
      BumpIsQuiet(s1, s.leases[t].node);
      QuietIsTransitive(s, s1, s2);
      RetryIsQuiet(s2, t);
      QuietIsTransitive(s, s2, Retry(s2, t));
    }
  }

  lemma {:induction false} ExpireFromIsQuiet(s: State, order: seq<TaskId>, epoch: real, i: nat)
    requires i <= |order|
    ensures Quiet(s, ExpireFrom(s, order, epoch, i))
    decreases |order| - i
  {
    if i < |order| {
      var s1 := ExpireOne(s, order[i], epoch);
      ExpireOneIsQuiet(s, order[i], epoch);
      ExpireFromIsQuiet(s1, order, epoch, i + 1);
      QuietIsTransitive(s, s1, ExpireFrom(s1, order, epoch, i + 1));
    }
  }

  lemma SweepIsQuiet(s: State, c: Clock, order: seq<TaskId>)
    ensures Quiet(s, Sweep(s, c, order))
  {
    var stale := StaleNodes(s, c.mono);
    var s1 := MarkOffline(s, stale);
    var s2 := RecoverAll(s1, order, stale);
    RecoverFromIsQuiet(s1, order, stale, 0);
    QuietIsTransitive(s, s1, s2);
    var s3 := ExpireFrom(s2, order, c.epoch, 0);
    ExpireFromIsQuiet(s2, order, c.epoch, 0);
    QuietIsTransitive(s, s2, s3);
  }

  lemma HeartbeatIsQuiet(s: State, n: NodeId, online: bool, c: Clock, order: seq<TaskId>)
    ensures Quiet(s, Heartbeat(s, n, online, c, order))
  {
    SweepIsQuiet(s, c, order);
    var s1 := Sweep(s, c, order);
    if n in s1.nodes {
      var s2 := Beat(s1, n, online, c.mono);
      RecoverFromIsQuiet(s2, order, {n}, 0);
      QuietIsTransitive(s, s1, s2);
      QuietIsTransitive(s, s2, RecoverAll(s2, order, {n}));
    }
  }

  // ----- what the other steps do to the books

  /** The same, but one task may start, and leases may be renewed or issued. */
  ghost predicate Orderly(s: State, s': State) {
    && EndedIds(s.log.ended) <= EndedIds(s'.log.ended)
    && (forall t :: t in s.tasks && Final(s.tasks[t].status) ==> t in s'.tasks && s'.tasks[t] == s.tasks[t])
  }

  predicate Final(status: TaskStatus) {
    status == Succeeded || status == Failed || status == Cancelled
  }

  lemma QuietIsOrderly(a: State, b: State, c: State)
    requires Quiet(a, b) && Orderly(b, c)
    ensures Orderly(a, c)
  {
  }

  lemma OrderlyIsTransitive(a: State, b: State, c: State)
    requires Orderly(a, b) && Orderly(b, c)
    ensures Orderly(a, c)
  {
  }

  lemma ActivateIsOrderly(s: State, t: TaskId, n: NodeId, id: LeaseId, epoch: real)
    requires t in s.tasks && s.tasks[t].status == Pending && n in s.nodes
    ensures Orderly(s, Activate(s, t, n, id, epoch))
  {
  }

  lemma {:induction false} ActivateFromIsOrderly(
      s: State, assignments: seq<Assignment>, leases: seq<LeaseId>, epoch: real, i: nat)
    requires Startable(s, assignments, leases, i) && AllPending(s, assignments, i)
    ensures Orderly(s, ActivateFrom(s, assignments, leases, epoch, i))
    decreases |assignments| - i
  {
    if i < |assignments| {
      StartableMovesOn(s, assignments, leases, epoch, i);
      var s1 := ActivateOne(s, assignments[i], leases[i], epoch);
      ActivateIsOrderly(s, assignments[i].task, assignments[i].node, leases[i], epoch);
      ActivateFromIsOrderly(s1, assignments, leases, epoch, i + 1);
      OrderlyIsTransitive(s, s1, ActivateFrom(s1, assignments, leases, epoch, i + 1));
    }
  }

  lemma CommitIsOrderly(
      s: State, plan: Plan, batch: seq<BatchTask>, requested: int, leases: seq<LeaseId>, epoch: real)
    requires Enabled(s, DoCommit(plan, batch, requested, leases, epoch))
    ensures Orderly(s, Commit(s, plan, batch, requested, leases, epoch))
  {
    if Commits(s, plan, batch, requested) {
      var s1 := Prepared(s, plan, batch);
      PreparedIsStartable(s, plan, batch, requested, leases);
      assert AllPending(s1, plan.assignments, 0);
      ActivateFromIsOrderly(s1, plan.assignments, leases, epoch, 0);
      OrderlyIsTransitive(s, s1, ActivateFrom(s1, plan.assignments, leases, epoch, 0));
    }
  }

  // ----- finished tasks and a commit without the guarantee

  /** The plan places the task, at position `i` or later. */
  ghost predicate Names(assignments: seq<Assignment>, i: nat, t: TaskId) {
    exists j :: i <= j < |assignments| && assignments[j].task == t
  }

  lemma {:induction false} UnnamedTaskStays(
      s: State, assignments: seq<Assignment>, leases: seq<LeaseId>, epoch: real, i: nat, t: TaskId)
    requires i <= |assignments| == |leases| && !Names(assignments, i, t) && t in s.tasks
    ensures var s' := ActivateFrom(s, assignments, leases, epoch, i); t in s'.tasks && s'.tasks[t] == s.tasks[t]
    decreases |assignments| - i
  {
    if i < |assignments| {
      assert assignments[i].task != t;
      UnnamedTaskStays(ActivateOne(s, assignments[i], leases[i], epoch), assignments, leases, epoch, i + 1, t);
    }
  }

  lemma {:induction false} NamedTaskRuns(
      s: State, assignments: seq<Assignment>, leases: seq<LeaseId>, epoch: real, i: nat, t: TaskId)
    requires Startable(s, assignments, leases, i) && Names(assignments, i, t)
    ensures var s' := ActivateFrom(s, assignments, leases, epoch, i); t in s'.tasks && s'.tasks[t].status == Running
    decreases |assignments| - i
  {
    var s1 := ActivateOne(s, assignments[i], leases[i], epoch);
    StartableMovesOn(s, assignments, leases, epoch, i);
    if Names(assignments, i + 1, t) {
      NamedTaskRuns(s1, assignments, leases, epoch, i + 1, t);
    } else {
      UnnamedTaskStays(s1, assignments, leases, epoch, i + 1, t);
    }
  }

  /** A commit does not look at the status of the plan's tasks. A finished task comes through it
      as it is exactly when the plan does not name it; otherwise it runs again. */
  lemma FinishedSurvivesCommitIff(
      s: State, plan: Plan, batch: seq<BatchTask>, requested: int, leases: seq<LeaseId>, epoch: real, t: TaskId)
    requires CommitInputs(s, plan, batch, leases) && Commits(s, plan, batch, requested)
    requires t in s.tasks && Final(s.tasks[t].status)
    ensures var s' := Commit(s, plan, batch, requested, leases, epoch);
            && t in s'.tasks
            && (s'.tasks[t] == s.tasks[t] <==> !Names(plan.assignments, 0, t))
            && (s'.tasks[t].status == Running <==> Names(plan.assignments, 0, t))
  {
    var s1 := Prepared(s, plan, batch);
    PreparedIsStartable(s, plan, batch, requested, leases);
    if Names(plan.assignments, 0, t) {
      NamedTaskRuns(s1, plan.assignments, leases, epoch, 0, t);
    } else {
      UnnamedTaskStays(s1, plan.assignments, leases, epoch, 0, t);
    }
  }

  lemma OfferIsOrderly(s: State, n: NodeId, ordered: seq<TaskId>, picks: map<TaskId, NodeId>,
                       lease: LeaseId, epoch: real)
    ensures Orderly(s, Offer(s, n, ordered, picks, lease, epoch))
  {
    var grant := FirstGrant(s, ordered, n, picks);
    FirstGrantMayGrant(s, ordered, n, picks);
    if n in s.nodes && grant.Some? {
      ActivateIsOrderly(s, grant.value, n, lease, epoch);
    }
  }

  lemma BookIsQuiet(s: State, n: NodeId, t: TaskId)
    requires t in s.leases
    ensures Quiet(s, Book(s, n, t))
  {
    var s1 := Release(s, t, ByResult);
    ReleaseIsQuiet(s, t, ByResult);
    BumpIsQuiet(s1, n);
    QuietIsTransitive(s, s1, BumpNode(s1, n));
  }

  lemma SettleIsOrderly(s: State, t: TaskId, success: bool)
    requires t in s.tasks && !Final(s.tasks[t].status)
    ensures Orderly(s, Settle(s, t, success))
  {
  }

  lemma AcceptIsOrderly(s: State, n: NodeId, t: TaskId, success: bool, result: Option<ResultId>)
    requires t in s.leases && t in s.tasks && s.leases[t].node == n && s.tasks[t].status == Running
    ensures Orderly(s, Accept(s, n, t, success, result))
  {
    BookIsQuiet(s, n, t);
    BookBumps(s, n, t);
    var s1 := Book(s, n, t);
    SettleIsOrderly(s1, t, success);
    QuietIsOrderly(s, s1, Settle(s1, t, success));
  }

  lemma CancelNowIsOrderly(s: State, t: TaskId, requeue: bool)
    ensures Orderly(s, CancelNow(s, t, requeue))
  {
    if t in s.leases {
      EndedOneMore(s.log.ended, Ending(s.leases[t].id, t, ByCancel));
    }
  }

  lemma MoreEnded(ended: seq<Ending>, more: seq<Ending>)
    ensures EndedIds(ended) <= EndedIds(ended + more)
  {
    forall i | 0 <= i < |ended|
      ensures ended[i].lease in EndedIds(ended + more)
    {
      assert (ended + more)[i] == ended[i];
    }
  }

  lemma RestartIsOrderly(s: State, version: int, taskOrder: seq<TaskId>, leaseOrder: seq<TaskId>,
                         lastSeen: map<NodeId, real>, startedAt: real)
    requires Inv(s)
    ensures Orderly(s, Restart(s, version, taskOrder, leaseOrder, lastSeen, startedAt))
  {
    MoreEnded(s.log.ended, Dropped(s.durable.leases, leaseOrder, 0));
    forall t | t in s.tasks && Final(s.tasks[t].status)
      ensures RestoredTask(s.durable, t) == s.tasks[t]
    {
      assert t !in s.leases;
    }
  }

  lemma ScheduleIsOrderly(
      s: State, t: TaskId, pick: Option<NodeId>, lease: LeaseId, c: Clock, order: seq<TaskId>)
    ensures Orderly(s, Schedule(s, t, pick, lease, c, order))
  {
    SweepIsQuiet(s, c, order);
    var s1 := Sweep(s, c, order);
    if Grants(s1, t, pick) {
      ActivateIsOrderly(s1, t, pick.value, lease, c.epoch);
      QuietIsOrderly(s, s1, Activate(s1, t, pick.value, lease, c.epoch));
    }
  }

  lemma LeasedRuns(s: State, t: TaskId)
    requires Inv(s) && t in s.leases
    ensures t in s.tasks && s.tasks[t].status == Running
  {
  }

  lemma AcceptedIsOrderly(
      s: State, n: NodeId, t: TaskId, success: bool, held: Option<LeaseId>, result: Option<ResultId>)
    requires Inv(s)
    ensures Orderly(s, if Accepts(s, n, t, held, result) then Accept(s, n, t, success, result) else s)
  {
    if Accepts(s, n, t, held, result) {
      LeasedRuns(s, t);
      AcceptIsOrderly(s, n, t, success, result);
    }
  }

  lemma ReportIsOrderly(
      s: State, n: NodeId, t: TaskId, success: bool, held: Option<LeaseId>, result: Option<ResultId>,
      c: Clock, order: seq<TaskId>)
    requires Inv(s)
    ensures Orderly(s, Report(s, n, t, success, held, result, c, order))
  {
    SweepIsQuiet(s, c, order);
    SweepKeepsInv(s, c, order);
    AcceptedIsOrderly(Sweep(s, c, order), n, t, success, held, result);
    QuietIsOrderly(s, Sweep(s, c, order), Report(s, n, t, success, held, result, c, order));
  }

  lemma CancelIsOrderly(s: State, t: TaskId, requeue: bool, c: Clock, order: seq<TaskId>)
    ensures Orderly(s, Cancel(s, t, requeue, c, order))
  {
    SweepIsQuiet(s, c, order);
    CancelNowIsOrderly(Sweep(s, c, order), t, requeue);
    QuietIsOrderly(s, Sweep(s, c, order), CancelNow(Sweep(s, c, order), t, requeue));
  }

  lemma RequestIsOrderly(
      s: State, n: NodeId, ordered: seq<TaskId>, picks: map<TaskId, NodeId>, lease: LeaseId, c: Clock, order: seq<TaskId>)
    ensures Orderly(s, Request(s, n, ordered, picks, lease, c, order))
  {
    SweepIsQuiet(s, c, order);
    OfferIsOrderly(Sweep(s, c, order), n, ordered, picks, lease, c.epoch);
    QuietIsOrderly(s, Sweep(s, c, order), Request(s, n, ordered, picks, lease, c, order));
  }

  lemma QuietAlone(s: State, s': State)
    requires Quiet(s, s')
    ensures Orderly(s, s')
  {
  }

  lemma SweepIsOrderly(s: State, c: Clock, order: seq<TaskId>)
    ensures Orderly(s, Sweep(s, c, order))
  {
    SweepIsQuiet(s, c, order);
    QuietAlone(s, Sweep(s, c, order));
  }

  lemma HeartbeatIsOrderly(s: State, n: NodeId, online: bool, c: Clock, order: seq<TaskId>)
    ensures Orderly(s, Heartbeat(s, n, online, c, order))
  {
    HeartbeatIsQuiet(s, n, online, c, order);
    QuietAlone(s, Heartbeat(s, n, online, c, order));
  }

  lemma ProgressIsOrderly(s: State, n: NodeId, t: TaskId, held: Option<LeaseId>, c: Clock, order: seq<TaskId>)
    ensures Orderly(s, Progress(s, n, t, held, c, order))
  {
    SweepIsOrderly(s, c, order);
  }

  lemma RegisterIsOrderly(s: State, n: NodeId, capacity: ResourceVector, nodeVersion: int, mono: real)
    ensures Orderly(s, Register(s, n, capacity, nodeVersion, mono))
  {
  }

  lemma SubmitIsOrderly(s: State, t: TaskId, task: Task)
    ensures Orderly(s, Submit(s, t, task))
  {
  }

  lemma AcknowledgeIsOrderly(s: State, n: NodeId, t: TaskId, lease: LeaseId, epoch: real)
    ensures Orderly(s, Acknowledge(s, n, t, lease, epoch))
  {
  }

  /** No operation, and not even a restart, forgets an ended lease or reopens a finished task. */
  lemma StepIsOrderly(s: State, a: Action)
    requires Inv(s) && Enabled(s, a)
    ensures Orderly(s, Step(s, a))
  {
    match a
    case DoSubmit(t, task) => SubmitIsOrderly(s, t, task);
    case DoRegister(n, capacity, nodeVersion, mono) => RegisterIsOrderly(s, n, capacity, nodeVersion, mono);
    case DoHeartbeat(n, online, c, order) => HeartbeatIsOrderly(s, n, online, c, order);
    case DoSweep(c, order) => SweepIsOrderly(s, c, order);
    case DoSchedule(t, pick, lease, c, order) => ScheduleIsOrderly(s, t, pick, lease, c, order);
    case DoRequest(n, ordered, picks, lease, c, order) => RequestIsOrderly(s, n, ordered, picks, lease, c, order);
    case DoAcknowledge(n, t, lease, epoch) => AcknowledgeIsOrderly(s, n, t, lease, epoch);
    case DoProgress(n, t, held, c, order) => ProgressIsOrderly(s, n, t, held, c, order);
    case DoReport(n, t, success, held, result, c, order) => ReportIsOrderly(s, n, t, success, held, result, c, order);
    case DoCancel(t, requeue, c, order) => CancelIsOrderly(s, t, requeue, c, order);
    case DoCommit(plan, batch, requested, leases, epoch) => CommitIsOrderly(s, plan, batch, requested, leases, epoch);
    case DoRestart(version, taskOrder, leaseOrder, lastSeen, startedAt) =>
      RestartIsOrderly(s, version, taskOrder, leaseOrder, lastSeen, startedAt);
  }

  lemma RunStepIsOrderly(states: seq<State>, actions: seq<Action>, j: nat)
    requires IsRun(states, actions) && Inv(states[0]) && 0 < j < |states|
    ensures Orderly(states[j - 1], states[j])
  {
    RunKeepsInv(states, actions, j - 1);
    StepIsOrderly(states[j - 1], actions[j - 1]);
  }

  lemma {:induction false} RunIsOrderly(states: seq<State>, actions: seq<Action>, i: nat, j: nat)
    requires IsRun(states, actions) && Inv(states[0]) && i <= j < |states|
    ensures Orderly(states[i], states[j])
    decreases j - i
  {
    if i < j {
      RunIsOrderly(states, actions, i, j - 1);
      RunStepIsOrderly(states, actions, j);
      OrderlyIsTransitive(states[i], states[j - 1], states[j]);
    }
  }

  /** A finished task stays finished, as it is, for the rest of the run. */
  lemma FinishedTasksStayFinished(
      config: Config, states: seq<State>, actions: seq<Action>, i: nat, j: nat, t: TaskId)
    requires IsRun(states, actions) && states[0] == Initial(config) && i <= j < |states|
    requires t in states[i].tasks && Final(states[i].tasks[t].status)
    ensures t in states[j].tasks && states[j].tasks[t] == states[i].tasks[t]
  {
    InitialSatisfiesInv(config);
    RunIsOrderly(states, actions, i, j);
  }

  // ----- fencing over runs

  lemma EndedIdIsNotHeld(log: Log, leases: map<TaskId, Lease>, t: TaskId, id: LeaseId)
    requires Balanced(log, Held(leases)) && id in EndedIds(log.ended) && t in leases
    ensures leases[t].id != id
  {
    assert Held(leases)[t] == leases[t].id;
    assert leases[t].id in HeldIds(Held(leases));
  }

  lemma EndedIsNotHeld(s: State, n: NodeId, t: TaskId, id: LeaseId)
    requires Inv(s) && id in EndedIds(s.log.ended)
    ensures !Fenced(s, n, t, Some(id))
  {
    if t in s.leases {
      EndedIdIsNotHeld(s.log, s.leases, t, id);
    }
  }

  lemma SweepFencesOff(s: State, id: LeaseId, n: NodeId, t: TaskId, c: Clock, order: seq<TaskId>)
    requires Inv(s) && id in EndedIds(s.log.ended)
    ensures !Fenced(Sweep(s, c, order), n, t, Some(id))
  {
    SweepKeepsInv(s, c, order);
    SweepIsQuiet(s, c, order);
    EndedIsNotHeld(Sweep(s, c, order), n, t, id);
  }

  /** Once a lease has ended, for whatever reason, no later report, progress or
      acknowledgement that names it does anything beyond the sweep, and no later report that
      names it is accepted: in any later state of any run, across restarts. */
  lemma EndedLeasesStayFencedOff(
      config: Config, states: seq<State>, actions: seq<Action>, i: nat, j: nat, id: LeaseId,
      n: NodeId, t: TaskId, success: bool, result: Option<ResultId>, c: Clock, order: seq<TaskId>)
    requires IsRun(states, actions) && states[0] == Initial(config) && i <= j < |states|
    requires id in EndedIds(states[i].log.ended)
    ensures var s := states[j];
            && Report(s, n, t, success, Some(id), result, c, order) == Sweep(s, c, order)
            && Progress(s, n, t, Some(id), c, order) == Sweep(s, c, order)
            && Acknowledge(s, n, t, id, c.epoch) == s
            && !ReplyTo(Sweep(s, c, order), n, t, success, Some(id), result).Accepted?
  {
    InitialSatisfiesInv(config);
    RunIsOrderly(states, actions, i, j);
    RunKeepsInv(states, actions, j);
    EndedIsNotHeld(states[j], n, t, id);
    SweepFencesOff(states[j], id, n, t, c, order);
    StaleMessagesAreFencedOff(states[j], n, t, success, Some(id), result, c, order);
  }
}
