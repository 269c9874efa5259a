/** The acknowledgement mark of a lease: what a first acknowledgement or progress message sets, and
    that nothing changes it, or the terms of the lease, for as long as the lease is active. */
module ProtocolMarks {
  import opened Common
  import opened Resources
  import opened Protocol
  import opened ProtocolSafety
  import opened ProtocolSteps
  import opened ProtocolCommit
  import opened ProtocolRuns
  import opened ProtocolHistory

  // ----- leases that were there before

  /** The lease was there before, on the same terms, and a mark it had is still there. */
  ghost predicate WasThere(leases: map<TaskId, Lease>, t: TaskId, lease: Lease) {
    && t in leases
    && leases[t].id == lease.id && leases[t].node == lease.node && leases[t].issuedAt == lease.issuedAt
    && (leases[t].acknowledgedAt.Some? ==> lease.acknowledgedAt == leases[t].acknowledgedAt)
  }

  /** Leases whose identifiers had been issued were there before; issuing goes on from there. */
  ghost predicate Stands(s: State, s': State) {
    && s.log.issued <= s'.log.issued
    && forall t :: t in s'.leases && s'.leases[t].id in IssuedIds(s.log.issued) ==> WasThere(s.leases, t, s'.leases[t])
  }

  lemma IssuedPrefix(issued: seq<Issue>, issued': seq<Issue>)
    requires issued <= issued'
    ensures IssuedIds(issued) <= IssuedIds(issued')
  {
    forall i | 0 <= i < |issued|
      ensures issued[i].lease in IssuedIds(issued')
    {
      assert issued'[i] == issued[i];
    }
  }

  lemma StandsIsTransitive(a: State, b: State, c: State)
    requires Stands(a, b) && Stands(b, c)
    ensures Stands(a, c)
  {
    IssuedPrefix(a.log.issued, b.log.issued);
    forall t | t in c.leases && c.leases[t].id in IssuedIds(a.log.issued)
      ensures WasThere(a.leases, t, c.leases[t])
    {
      assert WasThere(b.leases, t, c.leases[t]);
      assert WasThere(a.leases, t, b.leases[t]);
    }
  }

  lemma FewerLeasesStand(s: State, s': State)
    requires s'.log.issued == s.log.issued
    requires forall t :: t in s'.leases ==> t in s.leases && s'.leases[t] == s.leases[t]
    ensures Stands(s, s')
  {
  }

  // ----- the steps

  lemma SweepStands(s: State, c: Clock, order: seq<TaskId>)
    ensures Stands(s, Sweep(s, c, order))
  {
    SweepIsQuiet(s, c, order);
    SweepIssuesNothing(s, c, order);
    FewerLeasesStand(s, Sweep(s, c, order));
  }

  lemma HeartbeatStands(s: State, n: NodeId, online: bool, c: Clock, order: seq<TaskId>)
    ensures Stands(s, Heartbeat(s, n, online, c, order))
  {
    HeartbeatIsQuiet(s, n, online, c, order);
    SweepIssuesNothing(s, c, order);
    var s1 := Sweep(s, c, order);
    if n in s1.nodes {
      RecoverFromIssuesNothing(Beat(s1, n, online, c.mono), order, {n}, 0);
    }
    FewerLeasesStand(s, Heartbeat(s, n, online, c, order));
  }

  lemma ActivateStands(s: State, t: TaskId, n: NodeId, lease: LeaseId, epoch: real)
    requires t in s.tasks && n in s.nodes && Fresh(s.log, lease)
    ensures Stands(s, Activate(s, t, n, lease, epoch))
  {
    var s' := Activate(s, t, n, lease, epoch);
    assert s'.leases == s.leases[t := Lease(lease, n, epoch, epoch + s.config.leaseTimeout, None)];
  }

  lemma ScheduleStands(s: State, t: TaskId, pick: Option<NodeId>, lease: LeaseId, c: Clock, order: seq<TaskId>)
    requires Fresh(s.log, lease)
    ensures Stands(s, Schedule(s, t, pick, lease, c, order))
  {
    var s1 := Sweep(s, c, order);
    SweepStands(s, c, order);
    SweepIssuesNothing(s, c, order);
    if Grants(s1, t, pick) {
      ActivateStands(s1, t, pick.value, lease, c.epoch);
      StandsIsTransitive(s, s1, Activate(s1, t, pick.value, lease, c.epoch));
    }
  }

  lemma OfferStands(s: State, n: NodeId, ordered: seq<TaskId>, picks: map<TaskId, NodeId>, lease: LeaseId, epoch: real)
    requires Fresh(s.log, lease)
    ensures Stands(s, Offer(s, n, ordered, picks, lease, epoch))
  {
    var grant := FirstGrant(s, ordered, n, picks);
    FewerLeasesStand(s, s);
    if n in s.nodes && grant.Some? && grant.value in s.tasks {
      ActivateStands(s, grant.value, n, lease, epoch);
    }
  }

  lemma RequestStands(s: State, n: NodeId, ordered: seq<TaskId>, picks: map<TaskId, NodeId>, lease: LeaseId,
                      c: Clock, order: seq<TaskId>)
    requires Fresh(s.log, lease)
    ensures Stands(s, Request(s, n, ordered, picks, lease, c, order))
  {
    var s1 := Sweep(s, c, order);
    SweepStands(s, c, order);
    SweepIssuesNothing(s, c, order);
    OfferStands(s1, n, ordered, picks, lease, c.epoch);
    StandsIsTransitive(s, s1, Offer(s1, n, ordered, picks, lease, c.epoch));
  }

  lemma RenewalStands(s: State, t: TaskId, now: real)
    requires t in s.leases
    ensures Stands(s, SaveLease(s, t, Renewed(s.config, s.leases[t], now)))
  {
  }

  lemma AcknowledgeStands(s: State, n: NodeId, t: TaskId, lease: LeaseId, epoch: real)
    ensures Stands(s, Acknowledge(s, n, t, lease, epoch))
  {
    FewerLeasesStand(s, s);
    if Fenced(s, n, t, Some(lease)) {
      RenewalStands(s, t, epoch);
    }
  }

  lemma ProgressStands(s: State, n: NodeId, t: TaskId, held: Option<LeaseId>, c: Clock, order: seq<TaskId>)
    ensures Stands(s, Progress(s, n, t, held, c, order))
  {
    var s1 := Sweep(s, c, order);
    SweepStands(s, c, order);
    if Fenced(s1, n, t, held) {
      RenewalStands(s1, t, c.epoch);
      StandsIsTransitive(s, s1, SaveLease(s1, t, Renewed(s1.config, s1.leases[t], c.epoch)));
    }
  }

  lemma AcceptStands(s: State, n: NodeId, t: TaskId, success: bool, result: Option<ResultId>)
    requires t in s.leases && t in s.tasks && s.leases[t].node == n
    ensures Stands(s, Accept(s, n, t, success, result))
  {
    BookIsQuiet(s, n, t);
    BookIssuesNothing(s, n, t);
    SettleIsOneSave(Book(s, n, t), t, success);
    FewerLeasesStand(s, Accept(s, n, t, success, result));
  }

  lemma BookIssuesNothing(s: State, n: NodeId, t: TaskId)
    requires t in s.leases
    ensures Book(s, n, t).log.issued == s.log.issued
  {
    ReleaseIssuesNothing(s, t, ByResult);
  }

  lemma ReportStands(s: State, n: NodeId, t: TaskId, success: bool, held: Option<LeaseId>, result: Option<ResultId>,
                     c: Clock, order: seq<TaskId>)
    ensures Stands(s, Report(s, n, t, success, held, result, c, order))
  {
    var s1 := Sweep(s, c, order);
    SweepStands(s, c, order);
    if Accepts(s1, n, t, held, result) {
      AcceptStands(s1, n, t, success, result);
      StandsIsTransitive(s, s1, Accept(s1, n, t, success, result));
    }
  }

  lemma CancelStands(s: State, t: TaskId, requeue: bool, c: Clock, order: seq<TaskId>)
    ensures Stands(s, Cancel(s, t, requeue, c, order))
  {
    var s1 := Sweep(s, c, order);
    SweepStands(s, c, order);
    FewerLeasesStand(s1, CancelNow(s1, t, requeue));
    StandsIsTransitive(s, s1, CancelNow(s1, t, requeue));
  }

  // ----- a commit

  lemma {:induction false} SubmitFromIssuesNothing(s: State, batch: seq<BatchTask>, i: nat)
    requires i <= |batch|
    ensures SubmitFrom(s, batch, i).log == s.log && SubmitFrom(s, batch, i).leases == s.leases
    decreases |batch| - i
  {
    if i < |batch| {
      SubmitFromIssuesNothing(Submit(s, batch[i].id, batch[i].task), batch, i + 1);
    }
  }

  /** The identifiers from position `i` on are new and differ. */
  ghost predicate AllNew(log: Log, leases: seq<LeaseId>, i: nat) {
    && (forall j :: i <= j < |leases| ==> Fresh(log, leases[j]))
    && forall j, k :: i <= j < k < |leases| ==> leases[j] != leases[k]
  }

  lemma StillNew(log: Log, t: TaskId, leases: seq<LeaseId>, i: nat)
    requires i < |leases| && AllNew(log, leases, i)
    ensures AllNew(log.(issued := log.issued + [Issue(leases[i], t)]), leases, i + 1)
    ensures AllNew(log, leases, i + 1)
  {
    IssuedOneMore(log.issued, Issue(leases[i], t));
  }

  lemma {:induction false} ActivateFromStands(s: State, assignments: seq<Assignment>, leases: seq<LeaseId>, epoch: real, i: nat)
    requires i <= |assignments| == |leases| && AllNew(s.log, leases, i)
    ensures Stands(s, ActivateFrom(s, assignments, leases, epoch, i))
    decreases |assignments| - i
  {
    if i == |assignments| {
      FewerLeasesStand(s, s);
    } else {
      var a := assignments[i];
      var s1 := ActivateOne(s, a, leases[i], epoch);
      StillNew(s.log, a.task, leases, i);
      ActivateOneStands(s, a, leases[i], epoch);
      ActivateFromStands(s1, assignments, leases, epoch, i + 1);
      StandsIsTransitive(s, s1, ActivateFrom(s1, assignments, leases, epoch, i + 1));
    }
  }

  lemma ActivateOneStands(s: State, a: Assignment, lease: LeaseId, epoch: real)
    requires Fresh(s.log, lease)
    ensures Stands(s, ActivateOne(s, a, lease, epoch))
    ensures var s1 := ActivateOne(s, a, lease, epoch);
            s1.log == s.log || s1.log == s.log.(issued := s.log.issued + [Issue(lease, a.task)])
  {
    if a.task in s.tasks && a.node in s.nodes {
      ActivateStands(s, a.task, a.node, lease, epoch);
    } else {
      FewerLeasesStand(s, s);
    }
  }

  lemma CommitStands(s: State, plan: Plan, batch: seq<BatchTask>, requested: int, leases: seq<LeaseId>, epoch: real)
    requires CommitInputs(s, plan, batch, leases)
    ensures Stands(s, Commit(s, plan, batch, requested, leases, epoch))
  {
    FewerLeasesStand(s, s);
    if Commits(s, plan, batch, requested) {
      var s1 := Prepared(s, plan, batch);
      SubmitFromIssuesNothing(SaveLedger(s, plan.id, DemandByNode(plan.assignments, batch, |plan.assignments|)), batch, 0);
      FewerLeasesStand(s, s1);
      ActivateFromStands(s1, plan.assignments, leases, epoch, 0);
      StandsIsTransitive(s, s1, ActivateFrom(s1, plan.assignments, leases, epoch, 0));
    }
  }

  // ----- runs

  lemma StepStands(s: State, a: Action)
    requires Enabled(s, a)
    ensures Stands(s, Step(s, a))
  {
    match a
    case DoSubmit(t, task) => FewerLeasesStand(s, Submit(s, t, task));
    case DoRegister(n, capacity, nodeVersion, mono) => FewerLeasesStand(s, Register(s, n, capacity, nodeVersion, mono));
    case DoHeartbeat(n, online, c, order) => HeartbeatStands(s, n, online, c, order);
    case DoSweep(c, order) => SweepStands(s, c, order);
    case DoSchedule(t, pick, lease, c, order) => ScheduleStands(s, t, pick, lease, c, order);
    case DoRequest(n, ordered, picks, lease, c, order) => RequestStands(s, n, ordered, picks, lease, c, order);
    case DoAcknowledge(n, t, lease, epoch) => AcknowledgeStands(s, n, t, lease, epoch);
    case DoProgress(n, t, held, c, order) => ProgressStands(s, n, t, held, c, order);
    case DoReport(n, t, success, held, result, c, order) => ReportStands(s, n, t, success, held, result, c, order);
    case DoCancel(t, requeue, c, order) => CancelStands(s, t, requeue, c, order);
    case DoCommit(plan, batch, requested, leases, epoch) => CommitStands(s, plan, batch, requested, leases, epoch);
    case DoRestart(version, taskOrder, leaseOrder, lastSeen, startedAt) =>
      FewerLeasesStand(s, Restart(s, version, taskOrder, leaseOrder, lastSeen, startedAt));
  }

  lemma {:induction false} RunStands(states: seq<State>, actions: seq<Action>, i: nat, j: nat)
    requires IsRun(states, actions) && i <= j < |states|
    ensures Stands(states[i], states[j])
    decreases j - i
  {
    if i == j {
      FewerLeasesStand(states[i], states[i]);
    } else {
      RunStands(states, actions, i, j - 1);
      StepStands(states[j - 1], actions[j - 1]);
      StandsIsTransitive(states[i], states[j - 1], states[j]);
    }
  }

  lemma HeldIsIssued(s: State, t: TaskId)
    requires Inv(s) && t in s.leases
    ensures s.leases[t].id in IssuedIds(s.log.issued)
  {
    assert Held(s.leases)[t] == s.leases[t].id;
  }

  /** A lease keeps its node and its time of issue for as long as it is active, and a mark that it
      has. */
  lemma MarksStand(config: Config, states: seq<State>, actions: seq<Action>, i: nat, j: nat, t: TaskId)
    requires IsRun(states, actions) && states[0] == Initial(config) && i <= j < |states|
    requires t in states[i].leases && t in states[j].leases && states[j].leases[t].id == states[i].leases[t].id
    ensures WasThere(states[i].leases, t, states[j].leases[t])
  {
    InitialSatisfiesInv(config);
    RunKeepsInv(states, actions, i);
    HeldIsIssued(states[i], t);
    RunStands(states, actions, i, j);
  }

  /** The message is one that renews the lease of the task. */
  ghost predicate RenewsAt(s: State, a: Action, t: TaskId, now: real) {
    match a
    case DoAcknowledge(n, u, lease, epoch) => u == t && epoch == now && Fenced(s, n, t, Some(lease))
    case DoProgress(n, u, held, c, order) => u == t && c.epoch == now && Fenced(Sweep(s, c, order), n, t, held)
    case _ => false
  }

  lemma RenewalMarks(s: State, a: Action, t: TaskId, now: real)
    requires Enabled(s, a) && RenewsAt(s, a, t, now)
    ensures t in s.leases && t in Step(s, a).leases && Renews(s.config, s.leases[t], Step(s, a).leases[t], now)
  {
    if a.DoProgress? {
      SweepIsQuiet(s, a.c, a.order);
    }
  }

  /** The first acknowledgement or progress message that renews a lease marks it with its time. The
      mark stands for as long as the lease is active, in every later state of the run, so the lease
      is not handed out again. */
  lemma FirstMarkStands(config: Config, states: seq<State>, actions: seq<Action>, i: nat, j: nat, t: TaskId, now: real)
    requires IsRun(states, actions) && states[0] == Initial(config) && i < j < |states|
    requires RenewsAt(states[i], actions[i], t, now) && t in states[i].leases
    requires t in states[j].leases && states[j].leases[t].id == states[i].leases[t].id
    ensures states[j].leases[t].acknowledgedAt
            == if states[i].leases[t].acknowledgedAt.Some? then states[i].leases[t].acknowledgedAt else Some(now)
    ensures states[j].leases[t].node == states[i].leases[t].node && states[j].leases[t].issuedAt == states[i].leases[t].issuedAt
  {
    RenewalMarks(states[i], actions[i], t, now);
    MarksStand(config, states, actions, i + 1, j, t);
  }
}
