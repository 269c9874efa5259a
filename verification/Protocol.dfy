/** The lease protocol of the control plane as a state machine. Each function is one step
    of the protocol on an explicit state; time, fresh lease identifiers, the scheduler's
    preferences and the iteration order of dictionaries are inputs of the step. */
module Protocol {
  import opened Common
  import opened Resources

  type NodeId = string
  type LeaseId = string
  type ResultId = string
  type PlanId = string

  datatype TaskStatus = Pending | Reserved | Leased | Running | Succeeded | Failed | Cancelled

  datatype Task = Task(
    demand: ResourceVector, maxRetries: int, target: Option<NodeId>, status: TaskStatus, attempts: int)

  datatype Node = Node(capacity: ResourceVector, online: bool, running: Allocations, version: int)

  datatype Lease = Lease(
    id: LeaseId, node: NodeId, issuedAt: real, expiresAt: real, acknowledgedAt: Option<real>)

  datatype Receipt = Receipt(result: ResultId, task: TaskId, node: NodeId, lease: LeaseId, success: bool)

  /** Demand reserved per node by one batch plan. */
  type Ledger = map<NodeId, ResourceVector>

  datatype Config = Config(heartbeatTimeout: real, leaseTimeout: real, startedAt: real)

  /** What the state store holds between operations. */
  datatype Durable = Durable(
    tasks: map<TaskId, Task>, nodes: map<NodeId, Node>, leases: map<TaskId, Lease>,
    receipts: seq<Receipt>, ledgers: map<PlanId, Ledger>, version: int)

  // ----- history variables

  datatype EndReason = ByResult | Expired | Recovered | ByCancel | Restarted
  datatype Issue = Issue(lease: LeaseId, task: TaskId)
  datatype Ending = Ending(lease: LeaseId, task: TaskId, reason: EndReason)

  /** Every lease issued, every lease ended, one entry per execution record, and how often
      a task was put back into the queue without regard to its retry limit. */
  datatype Log = Log(issued: seq<Issue>, ended: seq<Ending>, records: seq<LeaseId>, waivers: map<TaskId, nat>)

  function Waivers(log: Log, t: TaskId): nat {
    if t in log.waivers then log.waivers[t] else 0
  }

  function Waive(log: Log, t: TaskId): Log {
    log.(waivers := log.waivers[t := Waivers(log, t) + 1])
  }

  datatype State = State(
    config: Config,
    tasks: map<TaskId, Task>,
    queue: seq<TaskId>,
    leases: map<TaskId, Lease>,
    nodes: map<NodeId, Node>,
    lastSeen: map<NodeId, real>,
    version: int,
    receipts: seq<Receipt>,
    latest: map<TaskId, Receipt>,
    ledgers: map<PlanId, Ledger>,
    durable: Durable,
    log: Log)

  datatype Clock = Clock(mono: real, epoch: real)

  // ----- writes that go to memory and to the store

  function SaveTask(s: State, t: TaskId, task: Task): State {
    s.(tasks := s.tasks[t := task], durable := s.durable.(tasks := s.durable.tasks[t := task]))
  }

  function SaveNode(s: State, n: NodeId, node: Node): State {
    s.(nodes := s.nodes[n := node], durable := s.durable.(nodes := s.durable.nodes[n := node]))
  }

  function SaveLease(s: State, t: TaskId, lease: Lease): State {
    s.(leases := s.leases[t := lease], durable := s.durable.(leases := s.durable.leases[t := lease]))
  }

  function PersistVersion(s: State): State {
    s.(durable := s.durable.(version := s.version))
  }

  // ----- the queue

  function Enqueue(queue: seq<TaskId>, t: TaskId): seq<TaskId> {
    if t in queue then queue else queue + [t]
  }

  /** `list.remove`, guarded by membership. */
  function RemoveFirst(queue: seq<TaskId>, t: TaskId): seq<TaskId> {
    if queue == [] then []
    else if queue[0] == t then queue[1..]
    else [queue[0]] + RemoveFirst(queue[1..], t)
  }

  // ----- ending a lease

  /** Takes the lease away and frees its node. */
  function Release(s: State, t: TaskId, reason: EndReason): State
    requires t in s.leases
  {
    var lease := s.leases[t];
    var s1 := s.(leases := s.leases - {t},
                 durable := s.durable.(leases := s.durable.leases - {t}),
                 log := s.log.(ended := s.log.ended + [Ending(lease.id, t, reason)]));
    if lease.node in s.nodes then
      SaveNode(s1, lease.node, s.nodes[lease.node].(running := s.nodes[lease.node].running - {t}))
    else s1
  }

  /** A running task that lost its lease is retried while it has retries left. */
  function Retry(s: State, t: TaskId): State {
    if t in s.tasks && s.tasks[t].status == Running then
      var task := s.tasks[t];
      if task.attempts <= task.maxRetries then
        SaveTask(s.(queue := Enqueue(s.queue, t)), t, task.(status := Pending))
      else SaveTask(s, t, task.(status := Failed))
    else s
  }

  function BumpNode(s: State, n: NodeId): State {
    if n in s.nodes then SaveNode(s, n, s.nodes[n].(version := s.nodes[n].version + 1)) else s
  }

  // ----- the sweep that precedes most operations

  function LastSeen(s: State, n: NodeId): real {
    if n in s.lastSeen then s.lastSeen[n] else s.config.startedAt
  }

  function StaleNodes(s: State, mono: real): set<NodeId> {
    set n | n in s.nodes && mono - LastSeen(s, n) > s.config.heartbeatTimeout
  }

  function TurnedOffline(s: State, stale: set<NodeId>): map<NodeId, Node> {
    map n | n in s.nodes && n in stale && s.nodes[n].online :: s.nodes[n].(online := false)
  }

  function MarkOffline(s: State, stale: set<NodeId>): State {
    var offline := TurnedOffline(s, stale);
    s.(nodes := s.nodes + offline, durable := s.durable.(nodes := s.durable.nodes + offline))
  }

  function RecoverOne(s: State, t: TaskId, from: set<NodeId>): State {
    if t in s.leases && s.leases[t].node in from then Retry(Release(s, t, Recovered), t) else s
  }

  /** `RecoverOne` over the tasks of `order` from position `i` on. */
  function RecoverFrom(s: State, order: seq<TaskId>, from: set<NodeId>, i: nat): State
    requires i <= |order|
    decreases |order| - i
  {
    if i == |order| then s else RecoverFrom(RecoverOne(s, order[i], from), order, from, i + 1)
  }

  function RecoverAll(s: State, order: seq<TaskId>, from: set<NodeId>): State {
    RecoverFrom(s, order, from, 0)
  }

  function ExpireOne(s: State, t: TaskId, epoch: real): State {
    if t in s.leases && s.leases[t].expiresAt <= epoch then
      var s1 := Retry(BumpNode(Release(s, t, Expired), s.leases[t].node), t);
      s1.(version := s1.version + 1)
    else s
  }

  /** `ExpireOne` over the tasks of `order` from position `i` on. */
  function ExpireFrom(s: State, order: seq<TaskId>, epoch: real, i: nat): State
    requires i <= |order|
    decreases |order| - i
  {
    if i == |order| then s else ExpireFrom(ExpireOne(s, order[i], epoch), order, epoch, i + 1)
  }

  function ExpireAll(s: State, order: seq<TaskId>, epoch: real): State {
    var s1 := ExpireFrom(s, order, epoch, 0);
    if s1.leases != s.leases then PersistVersion(s1) else s1
  }

  /** Stale nodes go offline and lose their leases; then leases past their expiry end. */
  function Sweep(s: State, c: Clock, order: seq<TaskId>): State {
    var stale := StaleNodes(s, c.mono);
    ExpireAll(RecoverAll(MarkOffline(s, stale), order, stale), order, c.epoch)
  }

  // ----- submission and registration

  function Submit(s: State, t: TaskId, task: Task): State {
    if t in s.tasks then s else SaveTask(s.(queue := s.queue + [t]), t, task)
  }

  /** A node that registers again keeps its running tasks. */
  function Register(s: State, n: NodeId, capacity: ResourceVector, nodeVersion: int, mono: real): State {
    var running := if n in s.nodes then s.nodes[n].running else map[];
    var s1 := SaveNode(s, n, Node(capacity, true, running, nodeVersion + 1));
    PersistVersion(s1.(version := s.version + 1, lastSeen := s.lastSeen[n := mono]))
  }

  /** The writes of a heartbeat. */
  function Beat(s: State, n: NodeId, online: bool, mono: real): State
    requires n in s.nodes
  {
    var node := s.nodes[n];
    var s1 := SaveNode(s, n, node.(online := online, version := node.version + 1));
    s1.(version := s.version + 1, lastSeen := s.lastSeen[n := mono])
  }

  function Heartbeat(s: State, n: NodeId, online: bool, c: Clock, order: seq<TaskId>): State {
    var s1 := Sweep(s, c, order);
    if n !in s1.nodes then s1
    else
      var s2 := Beat(s1, n, online, c.mono);
      PersistVersion(if online then s2 else RecoverAll(s2, order, {n}))
  }

  // ----- issuing leases

  ghost predicate Hosts(s: State, n: NodeId, t: TaskId) {
    && n in s.nodes && t in s.tasks && s.nodes[n].online
    && FitsOn(s.tasks[t].demand, s.nodes[n].capacity, s.nodes[n].running, TOLERANCE)
  }

  function Activate(s: State, t: TaskId, n: NodeId, lease: LeaseId, epoch: real): State
    requires t in s.tasks && n in s.nodes
  {
    var task, node := s.tasks[t], s.nodes[n];
    var s1 := SaveTask(s, t, task.(status := Running, attempts := task.attempts + 1));
    var s2 := SaveNode(s1, n, node.(running := node.running[t := task.demand], version := node.version + 1));
    var s3 := SaveLease(s2, t, Lease(lease, n, epoch, epoch + s.config.leaseTimeout, None));
    s3.(queue := RemoveFirst(s.queue, t), version := s.version + 1,
        log := s.log.(issued := s.log.issued + [Issue(lease, t)]))
  }

  /** `pick` is the node the scheduler prefers; it only ever returns nodes that can host. */
  ghost predicate Grants(s: State, t: TaskId, pick: Option<NodeId>) {
    t in s.tasks && s.tasks[t].status == Pending && pick.Some? && Hosts(s, pick.value, t)
  }

  ghost function Schedule(s: State, t: TaskId, pick: Option<NodeId>, lease: LeaseId, c: Clock, order: seq<TaskId>): State {
    var s1 := Sweep(s, c, order);
    if Grants(s1, t, pick) then Activate(s1, t, pick.value, lease, c.epoch) else s1
  }

  function PickFor(picks: map<TaskId, NodeId>, t: TaskId): Option<NodeId> {
    if t in picks then Some(picks[t]) else None
  }

  ghost predicate MayGrant(s: State, t: TaskId, n: NodeId, picks: map<TaskId, NodeId>) {
    && Grants(s, t, PickFor(picks, t)) && picks[t] == n
    && (s.tasks[t].target.Some? ==> s.tasks[t].target.value == n)
  }

  /** The first task in the sorted queue that the scheduler would place on `n`. */
  ghost function FirstGrant(s: State, ordered: seq<TaskId>, n: NodeId, picks: map<TaskId, NodeId>): Option<TaskId> {
    if ordered == [] then None
    else if MayGrant(s, ordered[0], n, picks) then Some(ordered[0])
    else FirstGrant(s, ordered[1..], n, picks)
  }

  lemma {:induction false} FirstGrantMayGrant(s: State, ordered: seq<TaskId>, n: NodeId, picks: map<TaskId, NodeId>)
    ensures FirstGrant(s, ordered, n, picks).Some? ==>
              && FirstGrant(s, ordered, n, picks).value in ordered
              && MayGrant(s, FirstGrant(s, ordered, n, picks).value, n, picks)
  {
    if ordered != [] {
      FirstGrantMayGrant(s, ordered[1..], n, picks);
    }
  }

  /** `found` is the first of the tasks that may be granted, or none of them may. */
  ghost predicate IsFirstGrant(s: State, ordered: seq<TaskId>, n: NodeId, picks: map<TaskId, NodeId>, found: Option<TaskId>) {
    match found
    case None => forall j :: 0 <= j < |ordered| ==> !MayGrant(s, ordered[j], n, picks)
    case Some(t) =>
      exists k :: 0 <= k < |ordered| && ordered[k] == t && MayGrant(s, t, n, picks)
                  && forall j :: 0 <= j < k ==> !MayGrant(s, ordered[j], n, picks)
  }

  lemma {:induction false} FirstGrantIsFirst(s: State, ordered: seq<TaskId>, n: NodeId, picks: map<TaskId, NodeId>)
    ensures IsFirstGrant(s, ordered, n, picks, FirstGrant(s, ordered, n, picks))
  {
    if ordered != [] {
      if MayGrant(s, ordered[0], n, picks) {
        assert ordered[0] == FirstGrant(s, ordered, n, picks).value;
      } else {
        FirstGrantIsFirst(s, ordered[1..], n, picks);
        LaterGrantIsFirst(s, ordered, n, picks, FirstGrant(s, ordered, n, picks));
      }
    }
  }

  lemma LaterGrantIsFirst(s: State, ordered: seq<TaskId>, n: NodeId, picks: map<TaskId, NodeId>, found: Option<TaskId>)
    requires ordered != [] && !MayGrant(s, ordered[0], n, picks) && IsFirstGrant(s, ordered[1..], n, picks, found)
    ensures IsFirstGrant(s, ordered, n, picks, found)
  {
    if found.Some? {
      var k :| 0 <= k < |ordered[1..]| && ordered[1..][k] == found.value
               && forall j :: 0 <= j < k ==> !MayGrant(s, ordered[1..][j], n, picks);
      assert ordered[k + 1] == found.value;
      assert forall j :: 0 < j < k + 1 ==> ordered[j] == ordered[1..][j - 1];
    } else {
      assert forall j :: 0 < j < |ordered| ==> ordered[j] == ordered[1..][j - 1];
    }
  }

  ghost predicate AwaitsAck(s: State, n: NodeId) {
    exists t :: t in s.leases && s.leases[t].node == n && s.leases[t].acknowledgedAt.None?
  }

  /** An online node without an unacknowledged lease is offered the first grantable task. */
  ghost function Offer(s: State, n: NodeId, ordered: seq<TaskId>, picks: map<TaskId, NodeId>,
                       lease: LeaseId, epoch: real): State
  {
    if n !in s.nodes || !s.nodes[n].online || AwaitsAck(s, n) then s
    else
      match FirstGrant(s, ordered, n, picks)
      case None => s
      case Some(t) => if t in s.tasks then Activate(s, t, n, lease, epoch) else s
  }

  ghost function Request(s: State, n: NodeId, ordered: seq<TaskId>, picks: map<TaskId, NodeId>,
                         lease: LeaseId, c: Clock, order: seq<TaskId>): State
  {
    Offer(Sweep(s, c, order), n, ordered, picks, lease, c.epoch)
  }

  // ----- keeping a lease alive

  function Round6(x: real): real {
    (x * 1000000.0 + 0.5).Floor as real / 1000000.0
  }

  function RenewedExpiry(config: Config, lease: Lease, now: real): real {
    Max(now + config.leaseTimeout, Round6(lease.issuedAt + config.leaseTimeout) + 0.000001)
  }

  function Renewed(config: Config, lease: Lease, now: real): Lease {
    lease.(acknowledgedAt := if lease.acknowledgedAt.None? then Some(now) else lease.acknowledgedAt,
           expiresAt := RenewedExpiry(config, lease, now))
  }

  /** The same lease, acknowledged since its first renewal, and good for a timeout from now on. */
  ghost predicate Renews(config: Config, lease: Lease, lease': Lease, now: real) {
    && lease'.id == lease.id && lease'.node == lease.node && lease'.issuedAt == lease.issuedAt
    && lease'.acknowledgedAt == (if lease.acknowledgedAt.Some? then lease.acknowledgedAt else Some(now))
    && lease'.expiresAt >= now + config.leaseTimeout
  }

  /** The caller names the task's current lease, or does not name one at all. */
  predicate Fenced(s: State, n: NodeId, t: TaskId, lease: Option<LeaseId>) {
    t in s.leases && s.leases[t].node == n && (lease.Some? ==> s.leases[t].id == lease.value)
  }

  function Acknowledge(s: State, n: NodeId, t: TaskId, lease: LeaseId, epoch: real): State {
    if Fenced(s, n, t, Some(lease)) then SaveLease(s, t, Renewed(s.config, s.leases[t], epoch)) else s
  }

  function Progress(s: State, n: NodeId, t: TaskId, lease: Option<LeaseId>, c: Clock, order: seq<TaskId>): State {
    var s1 := Sweep(s, c, order);
    if !Fenced(s1, n, t, lease) then s1
    else
      var s2 := SaveLease(s1, t, Renewed(s.config, s1.leases[t], c.epoch));
      if n in s2.nodes then s2.(lastSeen := s2.lastSeen[n := c.mono]) else s2
  }

  // ----- results

  const MAX_RECEIPTS: nat := 2000

  function FindReceipt(receipts: seq<Receipt>, id: ResultId): Option<Receipt> {
    if receipts == [] then None
    else if receipts[0].result == id then Some(receipts[0])
    else FindReceipt(receipts[1..], id)
  }

  /** Dictionary assignment: an existing key keeps its place. */
  function PutReceipt(receipts: seq<Receipt>, r: Receipt): seq<Receipt> {
    if receipts == [] then [r]
    else if receipts[0].result == r.result then [r] + receipts[1..]
    else [receipts[0]] + PutReceipt(receipts[1..], r)
  }

  function Retained(receipts: seq<Receipt>): seq<Receipt> {
    if |receipts| > MAX_RECEIPTS then receipts[1..] else receipts
  }

  /** The report carries an identifier of its own; an empty one counts as none. */
  predicate Carries(result: Option<ResultId>) {
    result.Some? && result.value != ""
  }

  /** The result is accepted: it is not a repeat, and it comes from the lease's own node. */
  predicate Accepts(s: State, n: NodeId, t: TaskId, lease: Option<LeaseId>, result: Option<ResultId>) {
    && (Carries(result) ==> FindReceipt(s.receipts, result.value).None?)
    && Fenced(s, n, t, lease) && n in s.nodes && t in s.tasks
  }

  function ResultIdOf(lease: LeaseId, result: Option<ResultId>): ResultId {
    if Carries(result) then result.value else "result-" + lease
  }

  function Settle(s: State, t: TaskId, success: bool): State
    requires t in s.tasks
  {
    var task := s.tasks[t];
    if success then SaveTask(s, t, task.(status := Succeeded))
    else if task.attempts <= task.maxRetries then SaveTask(s.(queue := s.queue + [t]), t, task.(status := Pending))
    else SaveTask(s, t, task.(status := Failed))
  }

  function FileReceipt(s: State, r: Receipt): State {
    var receipts := Retained(PutReceipt(s.receipts, r));
    s.(receipts := receipts, latest := s.latest[r.task := r], durable := s.durable.(receipts := receipts))
  }

  /** The lease ends, its node and the versions move on, and the execution is recorded. */
  function Book(s: State, n: NodeId, t: TaskId): State
    requires t in s.leases
  {
    var s1 := BumpNode(Release(s, t, ByResult), n);
    s1.(version := s1.version + 1, log := s1.log.(records := s1.log.records + [s.leases[t].id]))
  }

  function Accept(s: State, n: NodeId, t: TaskId, success: bool, result: Option<ResultId>): State
    requires t in s.leases && t in s.tasks && s.leases[t].node == n
  {
    var id := s.leases[t].id;
    FileReceipt(Settle(Book(s, n, t), t, success), Receipt(ResultIdOf(id, result), t, n, id, success))
  }

  function Report(s: State, n: NodeId, t: TaskId, success: bool, lease: Option<LeaseId>, result: Option<ResultId>,
                  c: Clock, order: seq<TaskId>): State
  {
    var s1 := Sweep(s, c, order);
    if Accepts(s1, n, t, lease, result) then Accept(s1, n, t, success, result) else s1
  }

  datatype Reply = Accepted(receipt: Receipt) | Replayed(receipt: Receipt) | Refused

  /** What the reporter is told, given the state after the sweep. */
  function ReplyTo(s: State, n: NodeId, t: TaskId, success: bool, lease: Option<LeaseId>, result: Option<ResultId>): Reply {
    if Carries(result) && FindReceipt(s.receipts, result.value).Some? then
      var r := FindReceipt(s.receipts, result.value).value;
      if r.task == t && r.node == n && (lease.Some? ==> r.lease == lease.value) then Replayed(r) else Refused
    else if t !in s.leases then
      if t in s.latest && s.latest[t].node == n && (lease.Some? ==> s.latest[t].lease == lease.value)
      then Replayed(s.latest[t]) else Refused
    else if Accepts(s, n, t, lease, result) then
      Accepted(Receipt(ResultIdOf(s.leases[t].id, result), t, n, s.leases[t].id, success))
    else Refused
  }

  // ----- cancellation

  function HostsNow(s: State, t: TaskId): set<NodeId> {
    set n | n in s.nodes && t in s.nodes[n].running
  }

  function FreedEverywhere(s: State, t: TaskId): map<NodeId, Node> {
    map n | n in s.nodes && t in s.nodes[n].running :: s.nodes[n].(running := s.nodes[n].running - {t})
  }

  /** The task's lease ends and every node that holds the task is freed. */
  function ReleasedEverywhere(s: State, t: TaskId): State {
    var freed := FreedEverywhere(s, t);
    s.(leases := s.leases - {t}, nodes := s.nodes + freed,
       durable := s.durable.(leases := s.durable.leases - {t}, nodes := s.durable.nodes + freed),
       log := if t in s.leases then s.log.(ended := s.log.ended + [Ending(s.leases[t].id, t, ByCancel)]) else s.log)
  }

  /** The operator decides whether a running task is tried again, whatever its retry limit. */
  function RequeuedOrFailed(s: State, t: TaskId, requeue: bool): State {
    if t in s.tasks && s.tasks[t].status == Running then
      if requeue then
        SaveTask(s.(queue := Enqueue(s.queue, t), log := Waive(s.log, t)), t, s.tasks[t].(status := Pending))
      else SaveTask(s, t, s.tasks[t].(status := Failed))
    else s
  }

  function CancelNow(s: State, t: TaskId, requeue: bool): State {
    RequeuedOrFailed(ReleasedEverywhere(s, t), t, requeue)
  }

  /** The caller learns of an unknown task only after these writes, which then change nothing. */
  function Cancel(s: State, t: TaskId, requeue: bool, c: Clock, order: seq<TaskId>): State {
    CancelNow(Sweep(s, c, order), t, requeue)
  }

  // ----- batch commit

  datatype Assignment = Assignment(task: TaskId, node: NodeId)
  datatype Plan = Plan(id: PlanId, version: int, assignments: seq<Assignment>)
  datatype BatchTask = BatchTask(id: TaskId, task: Task)

  function DemandOf(batch: seq<BatchTask>, t: TaskId): ResourceVector {
    if batch == [] then ZERO
    else if batch[|batch| - 1].id == t then batch[|batch| - 1].task.demand
    else DemandOf(batch[..|batch| - 1], t)
  }

  /** What the first `k` assignments ask of one node. */
  function NodeDemand(assignments: seq<Assignment>, batch: seq<BatchTask>, n: NodeId, k: nat): ResourceVector
    requires k <= |assignments|
  {
    if k == 0 then ZERO
    else
      var before := NodeDemand(assignments, batch, n, k - 1);
      if assignments[k - 1].node == n then before.Plus(DemandOf(batch, assignments[k - 1].task)) else before
  }

  function NodesOf(assignments: seq<Assignment>, k: nat): set<NodeId>
    requires k <= |assignments|
  {
    set i | 0 <= i < k :: assignments[i].node
  }

  /** Demand per node, which commit checks and the ledger records. */
  function DemandByNode(assignments: seq<Assignment>, batch: seq<BatchTask>, k: nat): Ledger
    requires k <= |assignments|
  {
    map n | n in NodesOf(assignments, k) :: NodeDemand(assignments, batch, n, k)
  }

  ghost predicate FitsCluster(s: State, demand: Ledger) {
    forall n :: n in demand ==>
      n in s.nodes && FitsOn(demand[n], s.nodes[n].capacity, s.nodes[n].running, TOLERANCE)
  }

  predicate InBatch(batch: seq<BatchTask>, t: TaskId) {
    exists i :: 0 <= i < |batch| && batch[i].id == t
  }

  /** The plan is current, concerns the batch, and its per-node demand fits. */
  ghost predicate Commits(s: State, plan: Plan, batch: seq<BatchTask>, requested: int) {
    && requested == plan.version == s.version
    && (forall i :: 0 <= i < |plan.assignments| ==> InBatch(batch, plan.assignments[i].task))
    && FitsCluster(s, DemandByNode(plan.assignments, batch, |plan.assignments|))
  }

  /** Submits the tasks of the batch, from position `i` on, that are not known yet. */
  function SubmitFrom(s: State, batch: seq<BatchTask>, i: nat): State
    requires i <= |batch|
    decreases |batch| - i
  {
    if i == |batch| then s else SubmitFrom(Submit(s, batch[i].id, batch[i].task), batch, i + 1)
  }

  function ActivateOne(s: State, a: Assignment, lease: LeaseId, epoch: real): State {
    if a.task in s.tasks && a.node in s.nodes then Activate(s, a.task, a.node, lease, epoch) else s
  }

  function ActivateFrom(s: State, assignments: seq<Assignment>, leases: seq<LeaseId>, epoch: real, i: nat): State
    requires i <= |assignments| == |leases|
    decreases |assignments| - i
  {
    if i == |assignments| then s
    else ActivateFrom(ActivateOne(s, assignments[i], leases[i], epoch), assignments, leases, epoch, i + 1)
  }

  function SaveLedger(s: State, plan: PlanId, ledger: Ledger): State {
    s.(ledgers := s.ledgers[plan := ledger], durable := s.durable.(ledgers := s.durable.ledgers[plan := ledger]))
  }

  /** The ledger is kept and unknown tasks are submitted; then leases can be issued. */
  function Prepared(s: State, plan: Plan, batch: seq<BatchTask>): State {
    SubmitFrom(SaveLedger(s, plan.id, DemandByNode(plan.assignments, batch, |plan.assignments|)), batch, 0)
  }

  /** Closing a commit bumps and persists the version. */
  function Closed(s: State): State {
    PersistVersion(s.(version := s.version + 1))
  }

  /** The writes of a commit that was not refused. */
  function CommitNow(s: State, plan: Plan, batch: seq<BatchTask>, leases: seq<LeaseId>, epoch: real): State
    requires |leases| == |plan.assignments|
  {
    Closed(ActivateFrom(Prepared(s, plan, batch), plan.assignments, leases, epoch, 0))
  }

  ghost function Commit(s: State, plan: Plan, batch: seq<BatchTask>, requested: int,
                        leases: seq<LeaseId>, epoch: real): State
    requires |leases| == |plan.assignments|
  {
    if Commits(s, plan, batch, requested) then CommitNow(s, plan, batch, leases, epoch) else s
  }

  // ----- restart

  predicate InFlight(status: TaskStatus) {
    status == Running || status == Reserved || status == Leased
  }

  function Reopened(task: Task): Task {
    if InFlight(task.status) then task.(status := Pending) else task
  }

  /** A stored task after restart, knowing whether a lease was stored for it. */
  function RestoredTask(d: Durable, t: TaskId): Task
    requires t in d.tasks
  {
    var task := Reopened(d.tasks[t]);
    if t in d.leases && task.status != Succeeded then task.(status := Pending) else task
  }

  function RestoredTasks(d: Durable): map<TaskId, Task> {
    map t | t in d.tasks :: RestoredTask(d, t)
  }

  function RestoredNodes(d: Durable): map<NodeId, Node> {
    map n | n in d.nodes :: d.nodes[n].(running := map[])
  }

  predicate Requeues(d: Durable, t: TaskId) {
    t in d.tasks && Reopened(d.tasks[t]).status == Pending
  }

  /** Stored pending tasks queue up in store order. */
  function QueueStored(d: Durable, order: seq<TaskId>, queue: seq<TaskId>, i: nat): seq<TaskId>
    requires i <= |order|
    decreases |order| - i
  {
    if i == |order| then queue
    else QueueStored(d, order, if Requeues(d, order[i]) then Enqueue(queue, order[i]) else queue, i + 1)
  }

  predicate LeaseRequeues(d: Durable, t: TaskId) {
    t in d.leases && t in d.tasks && Reopened(d.tasks[t]).status != Succeeded
  }

  /** Tasks that only a stored lease reopens follow. */
  function QueueLeased(d: Durable, order: seq<TaskId>, queue: seq<TaskId>, i: nat): seq<TaskId>
    requires i <= |order|
    decreases |order| - i
  {
    if i == |order| then queue
    else QueueLeased(d, order, if LeaseRequeues(d, order[i]) then Enqueue(queue, order[i]) else queue, i + 1)
  }

  /** The least version that is not below the stored one, any node's, or zero. */
  ghost predicate IsRestoredVersion(d: Durable, v: int) {
    && v >= 0 && v >= d.version && (forall n :: n in d.nodes ==> v >= d.nodes[n].version)
    && (v == 0 || v == d.version || exists n :: n in d.nodes && v == d.nodes[n].version)
  }

  function LatestOf(receipts: seq<Receipt>): map<TaskId, Receipt> {
    if receipts == [] then map[]
    else LatestOf(receipts[..|receipts| - 1])[receipts[|receipts| - 1].task := receipts[|receipts| - 1]]
  }

  /** Leases that the restart drops, in store order, from position `i` on. */
  function Dropped(leases: map<TaskId, Lease>, order: seq<TaskId>, i: nat): seq<Ending>
    requires i <= |order|
    decreases |order| - i
  {
    if i == |order| then []
    else if order[i] in leases then [Ending(leases[order[i]].id, order[i], Restarted)] + Dropped(leases, order, i + 1)
    else Dropped(leases, order, i + 1)
  }

  /** Restart forgives a reopened task its retry limit. */
  function WaivedByRestart(log: Log, d: Durable): map<TaskId, nat> {
    log.waivers + map t | t in d.tasks && d.tasks[t].status != Pending && RestoredTask(d, t).status == Pending
                    :: Waivers(log, t) + 1
  }

  function Listed(order: seq<TaskId>): set<TaskId> {
    set t | t in order
  }

  /** Memory is lost; the store comes back, and with it no lease and no allocation. */
  function Restart(s: State, version: int, taskOrder: seq<TaskId>, leaseOrder: seq<TaskId>,
                   lastSeen: map<NodeId, real>, startedAt: real): State
  {
    var d := s.durable;
    var tasks, nodes := RestoredTasks(d), RestoredNodes(d);
    State(s.config.(startedAt := startedAt), tasks,
          QueueLeased(d, leaseOrder, QueueStored(d, taskOrder, [], 0), 0),
          map[], nodes, lastSeen, version, d.receipts, LatestOf(d.receipts), d.ledgers,
          d.(tasks := tasks, nodes := nodes, leases := d.leases - Listed(leaseOrder)),
          s.log.(ended := s.log.ended + Dropped(d.leases, leaseOrder, 0), waivers := WaivedByRestart(s.log, d)))
  }
}
