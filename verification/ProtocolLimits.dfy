/** Limits over whole runs: how often a task is leased, counted by the operations of the run,
    and how the expiry of a lease moves when it is renewed. */
module ProtocolLimits {
  import opened Common
  import opened Resources
  import opened Protocol
  import opened ProtocolSafety
  import opened ProtocolCommit
  import opened ProtocolRuns
  import opened ProtocolHistory

  // ----- which operations waive the retry limit

  /** An operator requeues the task, or the control plane restarts. */
  predicate Waives(a: Action, t: TaskId) {
    a.DoRestart? || (a.DoCancel? && a.t == t && a.requeue)
  }

  function Waiving(actions: seq<Action>, t: TaskId, n: nat): nat
    requires n <= |actions|
  {
    if n == 0 then 0 else Waiving(actions, t, n - 1) + if Waives(actions[n - 1], t) then 1 else 0
  }

  lemma ScheduleWaivesNothing(s: State, t: TaskId, pick: Option<NodeId>, lease: LeaseId, c: Clock, order: seq<TaskId>)
    ensures Schedule(s, t, pick, lease, c, order).log.waivers == s.log.waivers
  {
    SweepIsQuiet(s, c, order);
  }

  lemma RequestWaivesNothing(s: State, n: NodeId, ordered: seq<TaskId>, picks: map<TaskId, NodeId>,
                             lease: LeaseId, c: Clock, order: seq<TaskId>)
    ensures Request(s, n, ordered, picks, lease, c, order).log.waivers == s.log.waivers
  {
    SweepIsQuiet(s, c, order);
  }

  lemma ProgressWaivesNothing(s: State, n: NodeId, t: TaskId, held: Option<LeaseId>, c: Clock, order: seq<TaskId>)
    ensures Progress(s, n, t, held, c, order).log.waivers == s.log.waivers
  {
    SweepIsQuiet(s, c, order);
  }

  lemma ReportWaivesNothing(s: State, n: NodeId, t: TaskId, success: bool, held: Option<LeaseId>,
                            result: Option<ResultId>, c: Clock, order: seq<TaskId>)
    ensures Report(s, n, t, success, held, result, c, order).log.waivers == s.log.waivers
  {
    SweepIsQuiet(s, c, order);
    var s1 := Sweep(s, c, order);
    if Accepts(s1, n, t, held, result) {
      BookIsQuiet(s1, n, t);
      SettleIsOneSave(Book(s1, n, t), t, success);
    }
  }

  lemma CancelWaivesOnce(s: State, t: TaskId, requeue: bool, c: Clock, order: seq<TaskId>, u: TaskId)
    ensures Waivers(Cancel(s, t, requeue, c, order).log, u) <= Waivers(s.log, u) + if requeue && u == t then 1 else 0
  {
    SweepIsQuiet(s, c, order);
  }

  lemma {:induction false} ActivateFromWaivesNothing(
      s: State, assignments: seq<Assignment>, leases: seq<LeaseId>, epoch: real, i: nat)
    requires i <= |assignments| == |leases|
    ensures ActivateFrom(s, assignments, leases, epoch, i).log.waivers == s.log.waivers
    decreases |assignments| - i
  {
    if i < |assignments| {
      ActivateFromWaivesNothing(ActivateOne(s, assignments[i], leases[i], epoch), assignments, leases, epoch, i + 1);
    }
  }

  lemma CommitWaivesNothing(
      s: State, plan: Plan, batch: seq<BatchTask>, requested: int, leases: seq<LeaseId>, epoch: real)
    requires |leases| == |plan.assignments|
    ensures Commit(s, plan, batch, requested, leases, epoch).log.waivers == s.log.waivers
  {
    if Commits(s, plan, batch, requested) {
      SubmitFromKeepsRest(SaveLedger(s, plan.id, DemandByNode(plan.assignments, batch, |plan.assignments|)), batch, 0);
      ActivateFromWaivesNothing(Prepared(s, plan, batch), plan.assignments, leases, epoch, 0);
    }
  }

  lemma StepWaivesOnce(s: State, a: Action, t: TaskId)
    requires Enabled(s, a)
    ensures Waivers(Step(s, a).log, t) <= Waivers(s.log, t) + if Waives(a, t) then 1 else 0
  {
    match a
    case DoSubmit(_, _) =>
    case DoRegister(_, _, _, _) =>
    case DoHeartbeat(n, online, c, order) => HeartbeatIsQuiet(s, n, online, c, order);
    case DoSweep(c, order) => SweepIsQuiet(s, c, order);
    case DoSchedule(u, pick, lease, c, order) => ScheduleWaivesNothing(s, u, pick, lease, c, order);
    case DoRequest(n, ordered, picks, lease, c, order) => RequestWaivesNothing(s, n, ordered, picks, lease, c, order);
    case DoAcknowledge(_, _, _, _) =>
    case DoProgress(n, u, held, c, order) => ProgressWaivesNothing(s, n, u, held, c, order);
    case DoReport(n, u, success, held, result, c, order) => ReportWaivesNothing(s, n, u, success, held, result, c, order);
    case DoCancel(u, requeue, c, order) => CancelWaivesOnce(s, u, requeue, c, order, t);
    case DoCommit(plan, batch, requested, leases, epoch) => CommitWaivesNothing(s, plan, batch, requested, leases, epoch);
    case DoRestart(_, _, _, _, _) =>
  }

  lemma {:induction false} WaiversAreCounted(config: Config, states: seq<State>, actions: seq<Action>, i: nat, t: TaskId)
    requires IsRun(states, actions) && states[0] == Initial(config) && i < |states|
    ensures Waivers(states[i].log, t) <= Waiving(actions, t, i)
  {
    if i > 0 {
      WaiversAreCounted(config, states, actions, i - 1, t);
      StepWaivesOnce(states[i - 1], actions[i - 1], t);
    }
  }

  // ----- the retry limit

  /** A task is leased at most once more than its retry limit, plus once for every requeue of
      it by an operator and every restart in the run so far. */
  lemma AttemptsAreBounded(config: Config, states: seq<State>, actions: seq<Action>, i: nat, t: TaskId)
    requires IsRun(states, actions) && states[0] == Initial(config) && i < |states|
    requires t in states[i].tasks
    ensures var s := states[i];
            && IssuesOf(s.log.issued, t) == s.tasks[t].attempts
            && s.tasks[t].attempts <= RetryLimit(s.tasks[t]) + 1 + Waiving(actions, t, i)
  {
    InitialSatisfiesInv(config);
    RunKeepsInv(states, actions, i);
    WaiversAreCounted(config, states, actions, i, t);
  }

  /** How often a task may be leased in the first `n` operations. */
  function Allowed(tasks: map<TaskId, Task>, actions: seq<Action>, n: nat, t: TaskId): nat
    requires n <= |actions|
  {
    if t in tasks then RetryLimit(tasks[t]) + 1 + Waiving(actions, t, n) else 0
  }

  /** What some tasks may be leased in total. */
  ghost function Budget(tasks: map<TaskId, Task>, actions: seq<Action>, n: nat, some: set<TaskId>): nat
    requires n <= |actions|
  {
    if some == {} then 0
    else
      var t :| t in some;
      Allowed(tasks, actions, n, t) + Budget(tasks, actions, n, some - {t})
  }

  /** The leases among `issued` that went to `tasks`. */
  ghost function IssuesTo(issued: seq<Issue>, tasks: set<TaskId>): nat {
    if issued == [] then 0
    else IssuesTo(issued[..|issued| - 1], tasks) + if issued[|issued| - 1].task in tasks then 1 else 0
  }

  lemma {:induction false} IssuesToSplits(issued: seq<Issue>, tasks: set<TaskId>, t: TaskId)
    requires t in tasks
    ensures IssuesTo(issued, tasks) == IssuesOf(issued, t) + IssuesTo(issued, tasks - {t})
  {
    if issued != [] {
      IssuesToSplits(issued[..|issued| - 1], tasks, t);
    }
  }

  lemma {:induction false} IssuesToNobody(issued: seq<Issue>)
    ensures IssuesTo(issued, {}) == 0
  {
    if issued != [] {
      IssuesToNobody(issued[..|issued| - 1]);
    }
  }

  lemma {:induction false} IssuesToEverybody(issued: seq<Issue>, tasks: set<TaskId>)
    requires forall i :: 0 <= i < |issued| ==> issued[i].task in tasks
    ensures IssuesTo(issued, tasks) == |issued|
  {
    if issued != [] {
      IssuesToEverybody(issued[..|issued| - 1], tasks);
    }
  }

  lemma {:induction false} IssuesWithinBudget(issued: seq<Issue>, tasks: map<TaskId, Task>, actions: seq<Action>, n: nat, some: set<TaskId>)
    requires n <= |actions|
    requires forall t :: t in some ==> IssuesOf(issued, t) <= Allowed(tasks, actions, n, t)
    ensures IssuesTo(issued, some) <= Budget(tasks, actions, n, some)
    decreases some
  {
    if some == {} {
      IssuesToNobody(issued);
    } else {
      var t :| t in some && Budget(tasks, actions, n, some) == Allowed(tasks, actions, n, t) + Budget(tasks, actions, n, some - {t});
      IssuesToSplits(issued, some, t);
      IssuesWithinBudget(issued, tasks, actions, n, some - {t});
    }
  }

  lemma {:induction false} IssuesOfZero(issued: seq<Issue>, t: TaskId)
    ensures IssuesOf(issued, t) == 0 ==> forall i :: 0 <= i < |issued| ==> issued[i].task != t
  {
    if issued != [] {
      IssuesOfZero(issued[..|issued| - 1], t);
    }
  }

  /** A run issues no more leases than the retry limits of its tasks allow, with one more for
      each requeue of a task and, for each task, each restart. */
  lemma LeasesAreFinite(config: Config, states: seq<State>, actions: seq<Action>, i: nat)
    requires IsRun(states, actions) && states[0] == Initial(config) && i < |states|
    ensures |states[i].log.issued| <= Budget(states[i].tasks, actions, i, states[i].tasks.Keys)
  {
    InitialSatisfiesInv(config);
    RunKeepsInv(states, actions, i);
    var s := states[i];
    forall j | 0 <= j < |s.log.issued|
      ensures s.log.issued[j].task in s.tasks.Keys
    {
      IssuesOfZero(s.log.issued, s.log.issued[j].task);
    }
    forall t | t in s.tasks
      ensures IssuesOf(s.log.issued, t) <= Allowed(s.tasks, actions, i, t)
    {
      AttemptsAreBounded(config, states, actions, i, t);
    }
    IssuesToEverybody(s.log.issued, s.tasks.Keys);
    IssuesWithinBudget(s.log.issued, s.tasks, actions, i, s.tasks.Keys);
  }

  // ----- renewals

  /** Acknowledging or reporting progress always postpones the first expiry. */
  lemma RenewalPostponesExpiry(config: Config, lease: Lease, now: real)
    ensures RenewedExpiry(config, lease, now) > lease.issuedAt + config.leaseTimeout
    ensures RenewedExpiry(config, lease, now) >= now + config.leaseTimeout
  {
    var x := lease.issuedAt + config.leaseTimeout;
    var scaled := x * 1000000.0 + 0.5;
    assert scaled.Floor as real > scaled - 1.0;
    assert Round6(x) * 1000000.0 == scaled.Floor as real;
  }

  /** A renewal at `now` of a lease last renewed at `before` keeps or postpones the expiry
      exactly when the clock has not stepped back, or the expiry at issue still decides. */
  lemma RenewalPostponesIff(config: Config, lease: Lease, before: real, now: real)
    ensures RenewedExpiry(config, Renewed(config, lease, before), now) >= Renewed(config, lease, before).expiresAt
            <==> before <= now
                 || before + config.leaseTimeout <= Round6(lease.issuedAt + config.leaseTimeout) + 0.000001
  {
  }

  /** Renewing now would not bring the expiry of any lease forward. */
  ghost predicate Timely(config: Config, leases: map<TaskId, Lease>, now: real) {
    forall t :: t in leases ==> leases[t].expiresAt <= RenewedExpiry(config, leases[t], now)
  }

  /** The wall clock that an operation reads. */
  function EpochOf(a: Action): Option<real> {
    match a
    case DoHeartbeat(_, _, c, _) => Some(c.epoch)
    case DoSweep(c, _) => Some(c.epoch)
    case DoSchedule(_, _, _, c, _) => Some(c.epoch)
    case DoRequest(_, _, _, _, c, _) => Some(c.epoch)
    case DoAcknowledge(_, _, _, epoch) => Some(epoch)
    case DoProgress(_, _, _, c, _) => Some(c.epoch)
    case DoReport(_, _, _, _, _, c, _) => Some(c.epoch)
    case DoCancel(_, _, c, _) => Some(c.epoch)
    case DoCommit(_, _, _, _, epoch) => Some(epoch)
    case _ => None
  }

  predicate NoLater(epoch: Option<real>, now: real) {
    epoch.Some? ==> epoch.value <= now
  }

  lemma QuietKeepsTimely(s: State, s': State, now: real)
    requires Quiet(s, s') && Timely(s.config, s.leases, now)
    ensures Timely(s'.config, s'.leases, now)
  {
  }

  lemma ActivateKeepsTimely(s: State, t: TaskId, n: NodeId, lease: LeaseId, epoch: real, now: real)
    requires Timely(s.config, s.leases, now) && epoch <= now && t in s.tasks && n in s.nodes
    ensures var s' := Activate(s, t, n, lease, epoch); Timely(s'.config, s'.leases, now)
  {
  }

  lemma RenewalKeepsTimely(config: Config, leases: map<TaskId, Lease>, t: TaskId, epoch: real, now: real)
    requires Timely(config, leases, now) && epoch <= now && t in leases
    ensures Timely(config, leases[t := Renewed(config, leases[t], epoch)], now)
  {
  }

  lemma {:induction false} ActivateFromKeepsTimely(
      s: State, assignments: seq<Assignment>, leases: seq<LeaseId>, epoch: real, i: nat, now: real)
    requires i <= |assignments| == |leases| && Timely(s.config, s.leases, now) && epoch <= now
    ensures var s' := ActivateFrom(s, assignments, leases, epoch, i); Timely(s'.config, s'.leases, now)
    decreases |assignments| - i
  {
    if i < |assignments| {
      var a := assignments[i];
      if a.task in s.tasks && a.node in s.nodes {
        ActivateKeepsTimely(s, a.task, a.node, leases[i], epoch, now);
      }
      ActivateFromKeepsTimely(ActivateOne(s, a, leases[i], epoch), assignments, leases, epoch, i + 1, now);
    }
  }

  lemma CommitKeepsTimely(
      s: State, plan: Plan, batch: seq<BatchTask>, requested: int, leases: seq<LeaseId>, epoch: real, now: real)
    requires |leases| == |plan.assignments| && Timely(s.config, s.leases, now) && epoch <= now
    ensures var s' := Commit(s, plan, batch, requested, leases, epoch); Timely(s'.config, s'.leases, now)
  {
    if Commits(s, plan, batch, requested) {
      SubmitFromKeepsRest(SaveLedger(s, plan.id, DemandByNode(plan.assignments, batch, |plan.assignments|)), batch, 0);
      ActivateFromKeepsTimely(Prepared(s, plan, batch), plan.assignments, leases, epoch, 0, now);
    }
  }

  lemma ScheduleKeepsTimely(s: State, t: TaskId, pick: Option<NodeId>, lease: LeaseId, c: Clock, order: seq<TaskId>, now: real)
    requires Timely(s.config, s.leases, now) && c.epoch <= now
    ensures var s' := Schedule(s, t, pick, lease, c, order); Timely(s'.config, s'.leases, now)
  {
    var s1 := Sweep(s, c, order);
    SweepIsQuiet(s, c, order);
    QuietKeepsTimely(s, s1, now);
    if Grants(s1, t, pick) {
      ActivateKeepsTimely(s1, t, pick.value, lease, c.epoch, now);
    }
  }

  lemma RequestKeepsTimely(s: State, n: NodeId, ordered: seq<TaskId>, picks: map<TaskId, NodeId>,
                           lease: LeaseId, c: Clock, order: seq<TaskId>, now: real)
    requires Timely(s.config, s.leases, now) && c.epoch <= now
    ensures var s' := Request(s, n, ordered, picks, lease, c, order); Timely(s'.config, s'.leases, now)
  {
    var s1 := Sweep(s, c, order);
    SweepIsQuiet(s, c, order);
    QuietKeepsTimely(s, s1, now);
    OfferKeepsTimely(s1, n, ordered, picks, lease, c.epoch, now);
  }

  lemma OfferKeepsTimely(s: State, n: NodeId, ordered: seq<TaskId>, picks: map<TaskId, NodeId>,
                         lease: LeaseId, epoch: real, now: real)
    requires Timely(s.config, s.leases, now) && epoch <= now
    ensures var s' := Offer(s, n, ordered, picks, lease, epoch); Timely(s'.config, s'.leases, now)
  {
    if n in s.nodes {
      var t := FirstGrant(s, ordered, n, picks);
      if t.Some? && t.value in s.tasks {
        ActivateKeepsTimely(s, t.value, n, lease, epoch, now);
      }
    }
  }

  lemma ProgressKeepsTimely(s: State, n: NodeId, t: TaskId, held: Option<LeaseId>, c: Clock, order: seq<TaskId>, now: real)
    requires Timely(s.config, s.leases, now) && c.epoch <= now
    ensures var s' := Progress(s, n, t, held, c, order); Timely(s'.config, s'.leases, now)
  {
    var s1 := Sweep(s, c, order);
    SweepIsQuiet(s, c, order);
    QuietKeepsTimely(s, s1, now);
    if Fenced(s1, n, t, held) {
      RenewalKeepsTimely(s1.config, s1.leases, t, c.epoch, now);
    }
  }

  lemma ReportKeepsTimely(s: State, n: NodeId, t: TaskId, success: bool, held: Option<LeaseId>,
                          result: Option<ResultId>, c: Clock, order: seq<TaskId>, now: real)
    requires Timely(s.config, s.leases, now)
    ensures var s' := Report(s, n, t, success, held, result, c, order); Timely(s'.config, s'.leases, now)
  {
    var s1 := Sweep(s, c, order);
    SweepIsQuiet(s, c, order);
    QuietKeepsTimely(s, s1, now);
    if Accepts(s1, n, t, held, result) {
      BookIsQuiet(s1, n, t);
      QuietKeepsTimely(s1, Book(s1, n, t), now);
      SettleIsOneSave(Book(s1, n, t), t, success);
    }
  }

  lemma CancelKeepsTimely(s: State, t: TaskId, requeue: bool, c: Clock, order: seq<TaskId>, now: real)
    requires Timely(s.config, s.leases, now)
    ensures var s' := Cancel(s, t, requeue, c, order); Timely(s'.config, s'.leases, now)
  {
    var s1 := Sweep(s, c, order);
    SweepIsQuiet(s, c, order);
    QuietKeepsTimely(s, s1, now);
  }

  lemma StepKeepsTimely(s: State, a: Action, now: real)
    requires Enabled(s, a) && Timely(s.config, s.leases, now) && NoLater(EpochOf(a), now)
    ensures Timely(Step(s, a).config, Step(s, a).leases, now)
  {
    match a
    case DoSubmit(_, _) =>
    case DoRegister(_, _, _, _) =>
    case DoHeartbeat(n, online, c, order) =>
      HeartbeatIsQuiet(s, n, online, c, order);
      QuietKeepsTimely(s, Step(s, a), now);
    case DoSweep(c, order) =>
      SweepIsQuiet(s, c, order);
      QuietKeepsTimely(s, Step(s, a), now);
    case DoSchedule(t, pick, lease, c, order) => ScheduleKeepsTimely(s, t, pick, lease, c, order, now);
    case DoRequest(n, ordered, picks, lease, c, order) => RequestKeepsTimely(s, n, ordered, picks, lease, c, order, now);
    case DoAcknowledge(n, t, lease, epoch) =>
      if Fenced(s, n, t, Some(lease)) {
        RenewalKeepsTimely(s.config, s.leases, t, epoch, now);
      }
    case DoProgress(n, t, held, c, order) => ProgressKeepsTimely(s, n, t, held, c, order, now);
    case DoReport(n, t, success, held, result, c, order) => ReportKeepsTimely(s, n, t, success, held, result, c, order, now);
    case DoCancel(t, requeue, c, order) => CancelKeepsTimely(s, t, requeue, c, order, now);
    case DoCommit(plan, batch, requested, leases, epoch) => CommitKeepsTimely(s, plan, batch, requested, leases, epoch, now);
    case DoRestart(_, _, _, _, _) =>
  }

  lemma {:induction false} RunIsTimely(config: Config, states: seq<State>, actions: seq<Action>, i: nat, now: real)
    requires IsRun(states, actions) && states[0] == Initial(config) && i < |states|
    requires forall k :: 0 <= k < i ==> NoLater(EpochOf(actions[k]), now)
    ensures Timely(states[i].config, states[i].leases, now)
  {
    if i > 0 {
      RunIsTimely(config, states, actions, i - 1, now);
      StepKeepsTimely(states[i - 1], actions[i - 1], now);
    }
  }

  /** As long as the wall clock is not behind any that the run has read, a renewal never brings
      the expiry of a lease forward. */
  lemma RenewalNeverShortens(
      config: Config, states: seq<State>, actions: seq<Action>, i: nat, t: TaskId, now: real)
    requires IsRun(states, actions) && states[0] == Initial(config) && i < |states|
    requires forall k :: 0 <= k < i ==> NoLater(EpochOf(actions[k]), now)
    requires t in states[i].leases
    ensures RenewedExpiry(states[i].config, states[i].leases[t], now) >= states[i].leases[t].expiresAt
  {
    RunIsTimely(config, states, actions, i, now);
  }
}
