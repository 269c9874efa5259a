/** Short runs that reach what the theorems about runs leave open: a commit on a node that has
    gone offline, a running or finished task that is leased again, an old result that counts
    for a new lease, a receipt that is displaced, and a renewal that brings an expiry forward. */
module ProtocolExamples {
  import opened Common
  import opened Resources
  import opened Protocol
  import opened ProtocolSafety
  import opened ProtocolCommit
  import opened ProtocolRuns
  import opened ProtocolHistory
  import opened ProtocolNodes
  import opened ProtocolReplay

  const CONFIG := Config(10.0, 10.0, 0.0)
  const NODE: NodeId := "node"
  const TASK: TaskId := "task"
  const SMALL := Task(ZERO, 5, None, Pending, 0)
  const BATCH := [BatchTask(TASK, SMALL)]

  const REGISTER := DoRegister(NODE, ZERO, 0, 0.0)

  /** One online node that holds some tasks without a demand. */
  ghost predicate OneNode(s: State, online: bool, running: Allocations) {
    && s.config == CONFIG && s.nodes.Keys == {NODE} && s.lastSeen == map[NODE := 0.0]
    && s.nodes[NODE].capacity == ZERO && s.nodes[NODE].online == online && s.nodes[NODE].running == running
  }

  function Registered(): State {
    Register(Initial(CONFIG), NODE, ZERO, 0, 0.0)
  }

  lemma NodeIsRegistered()
    ensures OneNode(Registered(), true, map[]) && Registered().version == 1
    ensures Registered().tasks == map[] && Registered().leases == map[] && Registered().log == EMPTY_LOG
    ensures Enabled(Initial(CONFIG), REGISTER) && Step(Initial(CONFIG), REGISTER) == Registered()
  {
  }

  lemma NothingFitsAlways(s: State, online: bool, running: Allocations)
    requires OneNode(s, online, running) && forall t :: t in running ==> running[t] == ZERO
    ensures FitsOn(ZERO, s.nodes[NODE].capacity, s.nodes[NODE].running, TOLERANCE)
  {
  }

  function PlanAt(id: PlanId, version: int): Plan {
    Plan(id, version, [Assignment(TASK, NODE)])
  }

  lemma TaskAsksForNothing()
    ensures DemandOf(BATCH, TASK) == ZERO && InBatch(BATCH, TASK)
  {
    assert BATCH[0].id == TASK;
  }

  lemma NodeIsAskedForNothing(assignments: seq<Assignment>)
    requires assignments == [Assignment(TASK, NODE)]
    ensures NodeDemand(assignments, BATCH, NODE, 1) == ZERO
  {
    TaskAsksForNothing();
    assert NodeDemand(assignments, BATCH, NODE, 0) == ZERO;
  }

  lemma PlanAsksForNothing(assignments: seq<Assignment>)
    requires assignments == [Assignment(TASK, NODE)]
    ensures DemandByNode(assignments, BATCH, 1) == map[NODE := ZERO]
  {
    NodeIsAskedForNothing(assignments);
    assert assignments[0].node == NODE;
    assert NodesOf(assignments, 1) == {NODE};
  }

  lemma PlanCommits(s: State, online: bool, running: Allocations, plan: Plan, lease: LeaseId)
    requires OneNode(s, online, running) && forall t :: t in running ==> running[t] == ZERO
    requires plan == PlanAt(plan.id, s.version) && Fresh(s.log, lease)
    ensures Commits(s, plan, BATCH, s.version) && CommitInputs(s, plan, BATCH, [lease])
  {
    TaskAsksForNothing();
    PlanAsksForNothing(plan.assignments);
    NothingFitsAlways(s, online, running);
  }

  // ----- a commit on a node that went offline

  const LATE := Clock(11.0, 11.0)

  function TurnedOff(): State {
    Sweep(Registered(), LATE, [])
  }

  lemma CommitOnOfflineNode()
    ensures OneNode(TurnedOff(), false, map[]) && TurnedOff().version == 1
    ensures var plan, s := PlanAt("plan", 1), TurnedOff();
            && CommitInputs(s, plan, BATCH, ["lease"]) && Commits(s, plan, BATCH, 1)
            && TASK in Commit(s, plan, BATCH, 1, ["lease"], 11.0).leases
            && !RunsOnline(Commit(s, plan, BATCH, 1, ["lease"], 11.0), TASK)
  {
    var plan, s := PlanAt("plan", 1), TurnedOff();
    NodeIsRegistered();
    OverdueNodeIsTurnedOff(Registered(), LATE);
    PlanCommits(s, false, map[], plan, "lease");
    CommittedNodes(s, plan, BATCH, 1, ["lease"], 11.0);
    CommittedLease(s, plan, BATCH, 1, ["lease"], 11.0, 0);
  }

  lemma RunGoesOn(states: seq<State>, actions: seq<Action>, a: Action, next: State)
    requires IsRun(states, actions) && Enabled(states[|actions|], a) && next == Step(states[|actions|], a)
    ensures IsRun(states + [next], actions + [a])
  {
  }

  lemma RunOfTwo(s0: State, a0: Action, s1: State, a1: Action, s2: State)
    requires Enabled(s0, a0) && s1 == Step(s0, a0) && Enabled(s1, a1) && s2 == Step(s1, a1)
    ensures IsRun([s0, s1, s2], [a0, a1])
  {
    RunGoesOn([s0], [], a0, s1);
    RunGoesOn([s0, s1], [a0], a1, s2);
  }

  lemma RunOfThree(s0: State, a0: Action, s1: State, a1: Action, s2: State, a2: Action, s3: State)
    requires Enabled(s0, a0) && s1 == Step(s0, a0) && Enabled(s1, a1) && s2 == Step(s1, a1)
    requires Enabled(s2, a2) && s3 == Step(s2, a2)
    ensures IsRun([s0, s1, s2, s3], [a0, a1, a2])
  {
    RunOfTwo(s0, a0, s1, a1, s2);
    RunGoesOn([s0, s1, s2], [a0, a1], a2, s3);
  }

  /** A node registers, a plan is made for it, its heartbeat is missed, and the plan is
      committed: the version has not moved, and the task gets a lease on an offline node. */
  lemma CommitCanReachOfflineNode() returns (states: seq<State>, actions: seq<Action>)
    ensures IsRun(states, actions) && states[0] == Initial(CONFIG) && |actions| == 3
    ensures actions[2].DoCommit? && actions[2].plan.version == states[1].version == states[2].version
    ensures NodesOnline(states[1], actions[2].plan) && Commits(states[2], actions[2].plan, BATCH, states[2].version)
    ensures TASK in states[3].leases && !RunsOnline(states[3], TASK)
  {
    var plan := PlanAt("plan", 1);
    var commit := DoCommit(plan, BATCH, 1, ["lease"], 11.0);
    NodeIsRegistered();
    OverdueNodeIsTurnedOff(Registered(), LATE);
    CommitOnOfflineNode();
    var last := Commit(TurnedOff(), plan, BATCH, 1, ["lease"], 11.0);
    RunOfThree(Initial(CONFIG), REGISTER, Registered(), DoSweep(LATE, []), TurnedOff(), commit, last);
    states := [Initial(CONFIG), Registered(), TurnedOff(), last];
    actions := [REGISTER, DoSweep(LATE, []), commit];
  }

  lemma OverdueNodeIsTurnedOff(s: State, c: Clock)
    requires OneNode(s, true, map[]) && s.leases == map[] && c.mono > 10.0
    ensures var s' := Sweep(s, c, []);
            OneNode(s', false, map[]) && s'.version == s.version && s'.tasks == s.tasks && s'.log == s.log
  {
  }

  // ----- a running task that is leased again

  /** The writes of a commit of the one new task. */
  lemma CommitOfOne(s: State, plan: Plan, lease: LeaseId, epoch: real)
    requires TASK !in s.tasks && NODE in s.nodes && plan.assignments == [Assignment(TASK, NODE)]
    requires Commits(s, plan, BATCH, plan.version)
    ensures var s0 := SaveLedger(s, plan.id, DemandByNode(plan.assignments, BATCH, 1));
            Commit(s, plan, BATCH, plan.version, [lease], epoch)
            == Closed(Activate(Submit(s0, TASK, SMALL), TASK, NODE, lease, epoch))
  {
    var s0 := SaveLedger(s, plan.id, DemandByNode(plan.assignments, BATCH, 1));
    var s1 := Submit(s0, TASK, SMALL);
    var s2 := Activate(s1, TASK, NODE, lease, epoch);
    assert BATCH[0] == BatchTask(TASK, SMALL) && |BATCH| == 1;
    assert SubmitFrom(s1, BATCH, 1) == s1;
    assert Prepared(s, plan, BATCH) == s1;
    assert ActivateOne(s1, plan.assignments[0], lease, epoch) == s2;
    assert ActivateFrom(s2, plan.assignments, [lease], epoch, 1) == s2;
  }

  function Committed(): State
  {
    Closed(Activate(Submit(SaveLedger(Registered(), "plan", DemandByNode([Assignment(TASK, NODE)], BATCH, 1)), TASK, SMALL),
                    TASK, NODE, "first", 0.0))
  }

  lemma CommittedOnce()
    ensures OneNode(Committed(), true, map[TASK := ZERO]) && TASK in Committed().leases
    ensures Committed().log.issued == [Issue("first", TASK)]
    ensures Enabled(Registered(), COMMIT) && Step(Registered(), COMMIT) == Committed()
  {
    NodeIsRegistered();
    PlanCommits(Registered(), true, map[], PlanAt("plan", 1), "first");
    CommitOfOne(Registered(), PlanAt("plan", 1), "first", 0.0);
  }

  const COMMIT := DoCommit(PlanAt("plan", 1), BATCH, 1, ["first"], 0.0)

  lemma CommittedIsReached()
    ensures IsRun([Initial(CONFIG), Registered(), Committed()], [REGISTER, COMMIT]) && Inv(Committed())
  {
    NodeIsRegistered();
    CommittedOnce();
    RunOfTwo(Initial(CONFIG), REGISTER, Registered(), COMMIT, Committed());
    InitialSatisfiesInv(CONFIG);
    RunKeepsInv([Initial(CONFIG), Registered(), Committed()], [REGISTER, COMMIT], 2);
  }

  /** A plan is committed, and a second plan for the same task, made at the new version, is
      committed too: nothing refuses it, and the first lease is lost without having ended. */
  lemma RunningTaskCanBeReissued() returns (states: seq<State>, actions: seq<Action>, again: Plan)
    ensures IsRun(states, actions) && states[0] == Initial(CONFIG) && |actions| == 2
    ensures var s := states[2];
            && CommitInputs(s, again, BATCH, ["second"]) && Commits(s, again, BATCH, s.version)
            && !NoneLeased(s, again.assignments, 0)
            && !Sound(Commit(s, again, BATCH, s.version, ["second"], 1.0))
  {
    states, actions := [Initial(CONFIG), Registered(), Committed()], [REGISTER, COMMIT];
    again := PlanAt("again", Committed().version);
    CommittedIsReached();
    ReissueCommits(again);
    ReissueIsUnsound(states[2], again);
  }

  lemma ReissueCommits(again: Plan)
    requires again == PlanAt("again", Committed().version)
    ensures var s := Committed();
            && CommitInputs(s, again, BATCH, ["second"]) && Commits(s, again, BATCH, s.version)
            && !NoneLeased(s, again.assignments, 0)
  {
    CommittedOnce();
    PlanCommits(Committed(), true, map[TASK := ZERO], again, "second");
    assert again.assignments[0].task in Committed().leases;
  }

  lemma ReissueIsUnsound(s: State, again: Plan)
    requires Inv(s) && CommitInputs(s, again, BATCH, ["second"]) && Commits(s, again, BATCH, s.version)
    requires !NoneLeased(s, again.assignments, 0)
    ensures !Sound(Commit(s, again, BATCH, s.version, ["second"], 1.0))
  {
    CommitIsSoundIffNothingIsReissued(s, again, BATCH, s.version, ["second"], 1.0);
  }

  // ----- one task that is leased, reported on, and leased again

  const NOW := Clock(0.0, 0.0)

  /** The one task waits in the queue. */
  ghost predicate Waiting(s: State, attempts: int) {
    && OneNode(s, true, map[]) && s.leases == map[] && s.queue == [TASK]
    && s.tasks == map[TASK := SMALL.(attempts := attempts)]
  }

  /** The one task holds a lease on the one node. */
  ghost predicate Holding(s: State, id: LeaseId, attempts: int) {
    && OneNode(s, true, map[TASK := ZERO]) && s.leases == map[TASK := Lease(id, NODE, 0.0, 10.0, None)] && s.queue == []
    && s.tasks == map[TASK := SMALL.(status := Running, attempts := attempts)]
  }

  lemma {:induction false} NothingToRecover(s: State, order: seq<TaskId>, i: nat)
    requires i <= |order|
    ensures RecoverFrom(s, order, {}, i) == s
    decreases |order| - i
  {
    if i < |order| {
      NothingToRecover(s, order, i + 1);
    }
  }

  lemma {:induction false} NothingToExpire(s: State, order: seq<TaskId>, epoch: real, i: nat)
    requires i <= |order| && forall t :: t in s.leases ==> epoch < s.leases[t].expiresAt
    ensures ExpireFrom(s, order, epoch, i) == s
    decreases |order| - i
  {
    if i < |order| {
      NothingToExpire(s, order, epoch, i + 1);
    }
  }

  lemma IdleSweep(s: State, c: Clock, order: seq<TaskId>)
    requires StaleNodes(s, c.mono) == {} && forall t :: t in s.leases ==> c.epoch < s.leases[t].expiresAt
    ensures Sweep(s, c, order) == s
  {
    assert TurnedOffline(s, {}) == map[];
    assert MarkOffline(s, {}) == s;
    NothingToRecover(s, order, 0);
    NothingToExpire(s, order, c.epoch, 0);
  }

  function Granted(s: State, id: LeaseId): State {
    ActivateOne(s, Assignment(TASK, NODE), id, 0.0)
  }

  lemma GrantLeases(s: State, id: LeaseId, attempts: int)
    requires Waiting(s, attempts)
    ensures Holding(Granted(s, id), id, attempts + 1)
    ensures Granted(s, id).log == s.log.(issued := s.log.issued + [Issue(id, TASK)])
  {
  }

  lemma ScheduleGrants(s: State, id: LeaseId, attempts: int)
    requires Waiting(s, attempts)
    ensures Schedule(s, TASK, Some(NODE), id, NOW, [TASK]) == Granted(s, id)
  {
    IdleSweep(s, NOW, [TASK]);
    NothingFitsAlways(s, true, map[]);
  }

  function Reported(s: State, success: bool, result: Option<ResultId>): State {
    if TASK in s.leases && TASK in s.tasks && s.leases[TASK].node == NODE then Accept(s, NODE, TASK, success, result) else s
  }

  lemma BookFreesNode(s: State, id: LeaseId, attempts: int)
    requires Holding(s, id, attempts)
    ensures var b := Book(s, NODE, TASK);
            OneNode(b, true, map[]) && b.leases == map[] && b.tasks == s.tasks && b.queue == []
  {
    assert map[TASK := ZERO] - {TASK} == map[];
    assert s.leases - {TASK} == map[];
  }

  lemma FailureRequeues(s: State, id: LeaseId, attempts: int, result: Option<ResultId>)
    requires Holding(s, id, attempts) && attempts <= 5
    ensures Waiting(Reported(s, false, result), attempts)
  {
    BookFreesNode(s, id, attempts);
    SettleIsOneSave(Book(s, NODE, TASK), TASK, false);
    assert Settle(Book(s, NODE, TASK), TASK, false).tasks == map[TASK := SMALL.(attempts := attempts)];
  }

  lemma ReportIsLogged(s: State, id: LeaseId, attempts: int, success: bool, result: Option<ResultId>)
    requires Holding(s, id, attempts)
    ensures var r := Reported(s, success, result); r.log.issued == s.log.issued && r.log.records == s.log.records + [id]
  {
    SettleIsOneSave(Book(s, NODE, TASK), TASK, success);
  }

  function ReportOf(success: bool, result: Option<ResultId>): Action {
    DoReport(NODE, TASK, success, None, result, NOW, [TASK])
  }

  /** The state is as after a sweep, and accepts the report. */
  ghost predicate TakesReport(s: State, result: Option<ResultId>) {
    Sweep(s, NOW, [TASK]) == s && Accepts(s, NODE, TASK, None, result)
  }

  lemma ReportIsTaken(s: State, id: LeaseId, attempts: int, success: bool, result: Option<ResultId>)
    requires Holding(s, id, attempts) && (Carries(result) ==> s.receipts == [])
    ensures TakesReport(s, result)
    ensures Enabled(s, ReportOf(success, result)) && Step(s, ReportOf(success, result)) == Reported(s, success, result)
  {
    IdleSweep(s, NOW, [TASK]);
  }

  function Submitted(): State {
    Submit(Registered(), TASK, SMALL)
  }

  lemma TaskIsQueued()
    ensures Waiting(Submitted(), 0) && Submitted().log == EMPTY_LOG
    ensures Enabled(Registered(), DoSubmit(TASK, SMALL)) && Step(Registered(), DoSubmit(TASK, SMALL)) == Submitted()
  {
    NodeIsRegistered();
  }

  function Grant(id: LeaseId): Action {
    DoSchedule(TASK, Some(NODE), id, NOW, [TASK])
  }

  lemma GrantIsAStep(s: State, id: LeaseId, attempts: int)
    requires Waiting(s, attempts) && Fresh(s.log, id)
    ensures Enabled(s, Grant(id)) && Step(s, Grant(id)) == Granted(s, id)
  {
    ScheduleGrants(s, id, attempts);
  }

  function First(): State { Granted(Submitted(), "first") }
  function Retried(result: Option<ResultId>): State { Reported(First(), false, result) }
  function Second(result: Option<ResultId>): State { Granted(Retried(result), "second") }

  lemma FirstRound()
    ensures Enabled(Submitted(), Grant("first")) && Step(Submitted(), Grant("first")) == First() && Holding(First(), "first", 1)
    ensures First().log.issued == [Issue("first", TASK)] && First().log.records == [] && First().receipts == []
  {
    TaskIsQueued();
    GrantIsAStep(Submitted(), "first", 0);
    GrantLeases(Submitted(), "first", 0);
  }

  lemma FirstReport(result: Option<ResultId>)
    ensures Enabled(First(), ReportOf(false, result)) && Step(First(), ReportOf(false, result)) == Retried(result)
    ensures TakesReport(First(), result) && Waiting(Retried(result), 1)
    ensures Retried(result).log.issued == [Issue("first", TASK)] && Retried(result).log.records == ["first"]
  {
    FirstRound();
    ReportIsTaken(First(), "first", 1, false, result);
    FailureRequeues(First(), "first", 1, result);
    ReportIsLogged(First(), "first", 1, false, result);
  }

  lemma SecondRound(result: Option<ResultId>)
    ensures Enabled(Retried(result), Grant("second")) && Step(Retried(result), Grant("second")) == Second(result)
    ensures Holding(Second(result), "second", 2) && Second(result).log.records == ["first"]
  {
    FirstReport(result);
    GrantIsAStep(Retried(result), "second", 1);
    GrantLeases(Retried(result), "second", 1);
  }

  lemma SecondReport(result: Option<ResultId>)
    ensures Enabled(Second(result), UNNAMED) && Step(Second(result), UNNAMED) == Reported(Second(result), false, None)
    ensures TakesReport(Second(result), None)
  {
    SecondRound(result);
    ReportIsTaken(Second(result), "second", 2, false, None);
  }

  lemma SecondReportIsLogged(result: Option<ResultId>)
    ensures Reported(Second(result), false, None).log.records == ["first"] + ["second"]
  {
    SecondRound(result);
    ReportIsLogged(Second(result), "second", 2, false, None);
  }

  lemma RunToFirst()
    ensures IsRun([Initial(CONFIG), Registered(), Submitted(), First()],
                  [REGISTER, DoSubmit(TASK, SMALL), Grant("first")])
  {
    NodeIsRegistered();
    TaskIsQueued();
    FirstRound();
    RunOfThree(Initial(CONFIG), REGISTER, Registered(), DoSubmit(TASK, SMALL), Submitted(), Grant("first"), First());
  }

  /** A failure that is reported with neither lease nor result identifier. */
  const UNNAMED := ReportOf(false, None)

  function FourActions(result: Option<ResultId>): seq<Action> {
    [REGISTER, DoSubmit(TASK, SMALL), Grant("first")] + [ReportOf(false, result)]
  }

  lemma FirstHalf(result: Option<ResultId>) returns (states: seq<State>)
    ensures IsRun(states, FourActions(result)) && states[0] == Initial(CONFIG) && states[4] == Retried(result)
    ensures TakesReport(states[3], result)
  {
    states := [Initial(CONFIG), Registered(), Submitted(), First()];
    RunToFirst();
    FirstReport(result);
    RunGoesOn(states, [REGISTER, DoSubmit(TASK, SMALL), Grant("first")], ReportOf(false, result), Retried(result));
    states := states + [Retried(result)];
  }

  lemma SecondHalf(s: State, result: Option<ResultId>) returns (s': State, s'': State)
    requires s == Retried(result)
    ensures Enabled(s, Grant("second")) && s' == Step(s, Grant("second"))
    ensures Enabled(s', UNNAMED) && s'' == Step(s', UNNAMED)
    ensures TakesReport(s', None) && s'.leases[TASK].id == "second"
    ensures s''.log.records == ["first"] + ["second"]
  {
    SecondRound(result);
    SecondReport(result);
    SecondReportIsLogged(result);
    s', s'' := Second(result), Reported(Second(result), false, None);
  }

  lemma BothHalves(result: Option<ResultId>) returns (states: seq<State>, s': State, s'': State)
    ensures IsRun(states, FourActions(result)) && states[0] == Initial(CONFIG) && TakesReport(states[3], result)
    ensures Enabled(states[4], Grant("second")) && s' == Step(states[4], Grant("second"))
    ensures Enabled(s', UNNAMED) && s'' == Step(s', UNNAMED) && TakesReport(s', None) && s'.leases[TASK].id == "second"
    ensures s''.log.records == ["first"] + ["second"]
  {
    states := FirstHalf(result);
    s', s'' := SecondHalf(states[4], result);
  }

  lemma RunGoesOnTwice(states: seq<State>, actions: seq<Action>, a: Action, s': State, b: Action, s'': State)
    requires IsRun(states, actions) && Enabled(states[|actions|], a) && s' == Step(states[|actions|], a)
    requires Enabled(s', b) && s'' == Step(s', b)
    ensures IsRun(states + [s', s''], actions + [a, b])
  {
    RunGoesOn(states, actions, a, s');
    RunGoesOn(states + [s'], actions + [a], b, s'');
    assert states + [s'] + [s''] == states + [s', s''] && actions + [a] + [b] == actions + [a, b];
  }

  lemma ReportWasAccepted(states: seq<State>, actions: seq<Action>, i: nat, result: Option<ResultId>)
    requires IsRun(states, actions) && i < |actions| && actions[i] == ReportOf(false, result)
    requires TakesReport(states[i], result)
    ensures WasAccepted(states, actions, i)
  {
  }

  lemma BothWereAccepted(states: seq<State>, actions: seq<Action>, s: State, s': State, result: Option<ResultId>)
    requires IsRun(states, actions) && |actions| == 6 && actions[3] == ReportOf(false, result) && actions[5] == UNNAMED
    requires s == states[3] && s' == states[5] && TakesReport(s, result) && TakesReport(s', None)
    ensures WasAccepted(states, actions, 3) && WasAccepted(states, actions, 5)
  {
    ReportWasAccepted(states, actions, 3, result);
    ReportWasAccepted(states, actions, 5, None);
  }

  lemma SixSteps(half: seq<State>, four: seq<Action>, s': State, again: Action, s'': State, result: Option<ResultId>)
    requires IsRun(half, four) && |four| == 4 && four[3] == ReportOf(false, result) && TakesReport(half[3], result)
    requires Enabled(half[4], again) && s' == Step(half[4], again)
    requires Enabled(s', UNNAMED) && s'' == Step(s', UNNAMED) && TakesReport(s', None)
    ensures var states, actions := half + [s', s''], four + [again, UNNAMED];
            IsRun(states, actions) && WasAccepted(states, actions, 3) && WasAccepted(states, actions, 5)
  {
    RunGoesOnTwice(half, four, again, s', UNNAMED, s'');
    BothWereAccepted(half + [s', s''], four + [again, UNNAMED], half[3], s', result);
  }

  /** A task fails and is leased to the same node again; the failure is reported once more,
      word for word, and counts for the second lease too. */
  lemma OldResultCountsForNewLease() returns (states: seq<State>, actions: seq<Action>)
    ensures IsRun(states, actions) && states[0] == Initial(CONFIG) && |actions| == 6
    ensures actions[3] == actions[5] && WasAccepted(states, actions, 3) && WasAccepted(states, actions, 5)
    ensures states[6].log.records == ["first"] + ["second"]
  {
    var half, s', s'' := BothHalves(None);
    SixSteps(half, FourActions(None), s', Grant("second"), s'', None);
    states, actions := half + [s', s''], FourActions(None) + [Grant("second"), UNNAMED];
  }

  /** The identifier that the control plane will make up for the second lease. */
  const TAKEN: ResultId := "result-" + "second"

  lemma SecondDisplaces(s: State)
    requires TakesReport(s, None) && s.leases[TASK].id == "second"
    ensures Displaces(s, UNNAMED, TAKEN)
  {
  }

  /** A node reports under the identifier that a later lease makes up; the later report, which
      has none, takes the place of the receipt, and a repeat no longer gets the first one. */
  lemma ReceiptCanBeDisplaced() returns (states: seq<State>, actions: seq<Action>)
    ensures IsRun(states, actions) && states[0] == Initial(CONFIG) && |actions| == 6
    ensures actions[3] == ReportOf(false, Some(TAKEN)) && WasAccepted(states, actions, 3)
    ensures ReplyTo(Sweep(states[6], NOW, [TASK]), NODE, TASK, false, None, Some(TAKEN))
            != Replayed(FirstReceipt(states, actions, 3))
  {
    var half, s', s'' := BothHalves(Some(TAKEN));
    SixSteps(half, FourActions(Some(TAKEN)), s', Grant("second"), s'', Some(TAKEN));
    states, actions := half + [s', s''], FourActions(Some(TAKEN)) + [Grant("second"), UNNAMED];
    SecondDisplaces(s');
    assert Displaces(states[5], actions[5], TAKEN);
    assert Reports(actions, 6, 6) == 0 && Reports(actions, 5, 6) == 1;
    RepeatsGetTheFirstReceipt(CONFIG, states, actions, 3, 6, NOW, [TASK]);
  }

  // ----- a finished task that is leased again

  function Finished(): State { Reported(Committed(), true, None) }

  lemma CommittedHolds()
    ensures Holding(Committed(), "first", 1)
  {
  }

  lemma FinishedFacts()
    ensures OneNode(Finished(), true, map[]) && Finished().leases == map[]
    ensures TASK in Finished().tasks && Finished().tasks[TASK].status == Succeeded
    ensures Finished().log.issued == [Issue("first", TASK)]
  {
    CommittedHolds();
    CommittedOnce();
    BookFreesNode(Committed(), "first", 1);
    ReportIsLogged(Committed(), "first", 1, true, None);
    SettleIsOneSave(Book(Committed(), NODE, TASK), TASK, true);
  }

  lemma FinishedIsReached()
    ensures IsRun([Initial(CONFIG), Registered(), Committed(), Finished()], [REGISTER, COMMIT, ReportOf(true, None)])
    ensures Inv(Finished())
  {
    NodeIsRegistered();
    CommittedOnce();
    CommittedHolds();
    ReportIsTaken(Committed(), "first", 1, true, None);
    RunOfThree(Initial(CONFIG), REGISTER, Registered(), COMMIT, Committed(), ReportOf(true, None), Finished());
    InitialSatisfiesInv(CONFIG);
    RunKeepsInv([Initial(CONFIG), Registered(), Committed(), Finished()], [REGISTER, COMMIT, ReportOf(true, None)], 3);
  }

  lemma SecondPlanCommits(s: State, again: Plan)
    requires Inv(s) && OneNode(s, true, map[]) && s.leases == map[] && Fresh(s.log, "second")
    requires again == PlanAt("again", s.version) && TASK in s.tasks && Final(s.tasks[TASK].status)
    ensures CommitInputs(s, again, BATCH, ["second"]) && Commits(s, again, BATCH, s.version)
    ensures var s' := Commit(s, again, BATCH, s.version, ["second"], 1.0);
            Sound(s') && TASK in s'.tasks && s'.tasks[TASK].status == Running
  {
    PlanCommits(s, true, map[], again, "second");
    assert again.assignments[0].task == TASK;
    CommitIsSoundIffNothingIsReissued(s, again, BATCH, s.version, ["second"], 1.0);
    FinishedSurvivesCommitIff(s, again, BATCH, s.version, ["second"], 1.0, TASK);
  }

  /** The task of a committed plan succeeds, and a second plan for it, made at the new version,
      is committed: the books stay in order, and the finished task runs again. */
  lemma FinishedTaskCanBeReopened() returns (states: seq<State>, actions: seq<Action>, again: Plan)
    ensures IsRun(states, actions) && states[0] == Initial(CONFIG) && |actions| == 3
    ensures TASK in states[3].tasks && states[3].tasks[TASK].status == Succeeded
    ensures CommitInputs(states[3], again, BATCH, ["second"]) && Commits(states[3], again, BATCH, states[3].version)
    ensures var s' := Commit(states[3], again, BATCH, states[3].version, ["second"], 1.0);
            Sound(s') && TASK in s'.tasks && s'.tasks[TASK].status == Running
  {
    states := [Initial(CONFIG), Registered(), Committed(), Finished()];
    actions := [REGISTER, COMMIT, ReportOf(true, None)];
    again := PlanAt("again", Finished().version);
    FinishedFacts();
    FinishedIsReached();
    SecondPlanCommits(states[3], again);
  }

  // ----- a renewal that brings an expiry forward

  function Acked(s: State, epoch: real): State {
    Acknowledge(s, NODE, TASK, "first", epoch)
  }

  function AckAt(epoch: real): Action {
    DoAcknowledge(NODE, TASK, "first", epoch)
  }

  lemma SteppingBackShortens()
    ensures TASK in Acked(First(), 5.0).leases && Acked(First(), 5.0).leases[TASK].expiresAt == 15.0
    ensures TASK in Acked(Acked(First(), 5.0), 2.0).leases && Acked(Acked(First(), 5.0), 2.0).leases[TASK].expiresAt == 12.0
  {
    FirstRound();
    var x := 10.0 * 1000000.0 + 0.5;
    assert x.Floor == 10000000;
    assert Round6(10.0) == 10.0;
  }

  /** When the wall clock steps back between two acknowledgements, the second one brings the
      expiry of the lease forward. */
  lemma RenewalCanShorten() returns (states: seq<State>, actions: seq<Action>)
    ensures IsRun(states, actions) && states[0] == Initial(CONFIG) && |actions| == 5
    ensures actions[3] == AckAt(5.0) && actions[4] == AckAt(2.0)
    ensures TASK in states[4].leases && TASK in states[5].leases
    ensures states[5].leases[TASK].expiresAt < states[4].leases[TASK].expiresAt
  {
    states := [Initial(CONFIG), Registered(), Submitted(), First()];
    actions := [REGISTER, DoSubmit(TASK, SMALL), Grant("first")];
    RunToFirst();
    RunGoesOn(states, actions, AckAt(5.0), Acked(First(), 5.0));
    states, actions := states + [Acked(First(), 5.0)], actions + [AckAt(5.0)];
    RunGoesOn(states, actions, AckAt(2.0), Acked(Acked(First(), 5.0), 2.0));
    states, actions := states + [Acked(Acked(First(), 5.0), 2.0)], actions + [AckAt(2.0)];
    SteppingBackShortens();
  }
}
