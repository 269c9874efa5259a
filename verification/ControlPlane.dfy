/** The control plane as the object it is: its methods update fields and the store step by
    step, and each is proved to take exactly the protocol step it stands for. */
module ControlPlane {
  import opened Common
  import opened Resources
  import opened Protocol
  import opened ProtocolSafety
  import opened ProtocolEffects
  import S = StateStore

  // ----- how the loops line up with the steps

  function TakenOffline(s: State, n: NodeId): State
    requires n in s.nodes
  {
    if s.nodes[n].online then SaveNode(s, n, s.nodes[n].(online := false)) else s
  }

  lemma NobodyOffline(s: State)
    ensures MarkOffline(s, {}) == s
  {
    assert TurnedOffline(s, {}) == map[];
    assert s.nodes + map[] == s.nodes && s.durable.nodes + map[] == s.durable.nodes;
  }

  lemma OneMoreTurned(nodes: map<NodeId, Node>, s: State, stale: set<NodeId>, n: NodeId)
    requires n in s.nodes && n !in stale
    ensures nodes + TurnedOffline(s, stale + {n}) ==
            if s.nodes[n].online then (nodes + TurnedOffline(s, stale))[n := s.nodes[n].(online := false)]
            else nodes + TurnedOffline(s, stale)
  {
  }

  lemma OneMoreOffline(s: State, stale: set<NodeId>, n: NodeId)
    requires n in s.nodes && n !in stale
    ensures n in MarkOffline(s, stale).nodes
    ensures MarkOffline(s, stale + {n}) == TakenOffline(MarkOffline(s, stale), n)
  {
    OneMoreTurned(s.nodes, s, stale, n);
    OneMoreTurned(s.durable.nodes, s, stale, n);
  }

  lemma {:induction false} RecoverFromNobody(s: State, order: seq<TaskId>, i: nat)
    requires i <= |order|
    ensures RecoverFrom(s, order, {}, i) == s
    decreases |order| - i
  {
    if i < |order| {
      RecoverFromNobody(s, order, i + 1);
    }
  }

  function FreedOne(s: State, n: NodeId, t: TaskId, bump: bool): State {
    if n in s.nodes then
      var node := s.nodes[n];
      SaveNode(s, n, node.(running := node.running - {t}, version := if bump then node.version + 1 else node.version))
    else s
  }

  lemma BumpAfterSave(s: State, n: NodeId, node: Node)
    ensures BumpNode(SaveNode(s, n, node), n) == SaveNode(s, n, node.(version := node.version + 1))
  {
  }

  /** Releasing a lease, in the order the code does it. */
  lemma ReleaseFreesOne(s: State, t: TaskId, reason: EndReason, bump: bool)
    requires t in s.leases
    ensures var lease := s.leases[t];
            var s1 := s.(leases := s.leases - {t}, log := s.log.(ended := s.log.ended + [Ending(lease.id, t, reason)]));
            var s2 := FreedOne(s1, lease.node, t, bump);
            s2.(durable := S.Apply(s2.durable, S.DropLease(t))) ==
              var freed := Release(s, t, reason); if bump then BumpNode(freed, lease.node) else freed
  {
    var n := s.leases[t].node;
    if n !in s.nodes || !bump {
    } else {
      var s1 := s.(leases := s.leases - {t}, durable := s.durable.(leases := s.durable.leases - {t}),
                   log := s.log.(ended := s.log.ended + [Ending(s.leases[t].id, t, reason)]));
      BumpAfterSave(s1, n, s.nodes[n].(running := s.nodes[n].running - {t}));
    }
  }

  /** Freeing the nodes of `done` only. */
  function FreedAmong(s: State, t: TaskId, done: set<NodeId>): map<NodeId, Node> {
    map n | n in s.nodes && n in done && t in s.nodes[n].running :: s.nodes[n].(running := s.nodes[n].running - {t})
  }

  lemma OneMoreFreed(nodes: map<NodeId, Node>, s: State, t: TaskId, done: set<NodeId>, n: NodeId)
    requires n in s.nodes && n !in done
    ensures nodes + FreedAmong(s, t, done + {n}) ==
            if t in s.nodes[n].running
            then (nodes + FreedAmong(s, t, done))[n := s.nodes[n].(running := s.nodes[n].running - {t})]
            else nodes + FreedAmong(s, t, done)
  {
  }

  lemma AllFreed(nodes: map<NodeId, Node>, s: State, t: TaskId)
    ensures nodes + FreedAmong(s, t, {}) == nodes
    ensures FreedAmong(s, t, s.nodes.Keys) == FreedEverywhere(s, t)
  {
  }

  function StoredLease(d: Durable, t: TaskId, task: Task, n: NodeId, node: Node, lease: Lease): Durable {
    d.(tasks := d.tasks[t := task], nodes := d.nodes[n := node], leases := d.leases[t := lease])
  }

  lemma ActivateAtOnce(s: State, t: TaskId, n: NodeId, id: LeaseId, epoch: real,
                       task: Task, node: Node, lease: Lease)
    requires t in s.tasks && n in s.nodes && lease == Lease(id, n, epoch, epoch + s.config.leaseTimeout, None)
    requires task == s.tasks[t].(status := Running, attempts := s.tasks[t].attempts + 1)
    requires node == s.nodes[n].(running := s.nodes[n].running[t := s.tasks[t].demand], version := s.nodes[n].version + 1)
    ensures Activate(s, t, n, id, epoch) == s.(
              tasks := s.tasks[t := task], nodes := s.nodes[n := node], leases := s.leases[t := lease],
              queue := RemoveFirst(s.queue, t), version := s.version + 1,
              log := s.log.(issued := s.log.issued + [Issue(id, t)]),
              durable := StoredLease(s.durable, t, task, n, node, lease))
  {
  }

  // ----- batch commit: how far the writes have come

  /** `s`, but the store still holds other ledgers. */
  function WithLedgers(s: State, stored: map<PlanId, Ledger>): State {
    s.(durable := s.durable.(ledgers := stored))
  }

  lemma {:induction false} SubmitKeepsLedgersApart(s: State, batch: seq<BatchTask>, i: nat, stored: map<PlanId, Ledger>)
    requires i <= |batch|
    ensures SubmitFrom(WithLedgers(s, stored), batch, i) == WithLedgers(SubmitFrom(s, batch, i), stored)
    decreases |batch| - i
  {
    if i < |batch| {
      SubmitKeepsLedgersApart(Submit(s, batch[i].id, batch[i].task), batch, i + 1, stored);
    }
  }

  lemma {:induction false} ActivateKeepsLedgersApart(s: State, assignments: seq<Assignment>, ids: seq<LeaseId>,
                                                     epoch: real, i: nat, stored: map<PlanId, Ledger>)
    requires i <= |assignments| == |ids|
    ensures ActivateFrom(WithLedgers(s, stored), assignments, ids, epoch, i)
            == WithLedgers(ActivateFrom(s, assignments, ids, epoch, i), stored)
    decreases |assignments| - i
  {
    if i < |assignments| {
      ActivateKeepsLedgersApart(ActivateOne(s, assignments[i], ids[i], epoch), assignments, ids, epoch, i + 1, stored);
    }
  }

  lemma OneMoreDemand(assignments: seq<Assignment>, batch: seq<BatchTask>, k: nat)
    requires k < |assignments|
    ensures var n, before := assignments[k].node, DemandByNode(assignments, batch, k);
            DemandByNode(assignments, batch, k + 1) ==
              before[n := (if n in before then before[n] else ZERO).Plus(DemandOf(batch, assignments[k].task))]
  {
    NoDemandElsewhere(assignments, batch, assignments[k].node, k);
    assert NodesOf(assignments, k + 1) == NodesOf(assignments, k) + {assignments[k].node};
  }

  lemma {:induction false} NoDemandElsewhere(assignments: seq<Assignment>, batch: seq<BatchTask>, n: NodeId, k: nat)
    requires k <= |assignments|
    ensures n !in NodesOf(assignments, k) ==> NodeDemand(assignments, batch, n, k) == ZERO
  {
    if k > 0 {
      NoDemandElsewhere(assignments, batch, n, k - 1);
      assert NodesOf(assignments, k) == NodesOf(assignments, k - 1) + {assignments[k - 1].node};
    }
  }

  /** The ledger is kept in memory only. */
  function WithLedger(s: State, plan: PlanId, ledger: Ledger): State {
    s.(ledgers := s.ledgers[plan := ledger])
  }

  /** The last writes of a commit. */
  function StoredCommit(s: State, plan: PlanId, ledger: Ledger): State {
    s.(version := s.version + 1,
       durable := s.durable.(ledgers := s.durable.ledgers[plan := ledger], version := s.version + 1))
  }

  lemma LedgersStay(s: State, plan: Plan, batch: seq<BatchTask>, ids: seq<LeaseId>, epoch: real,
                    stored: map<PlanId, Ledger>)
    requires |ids| == |plan.assignments|
    ensures var s' := ActivateFrom(SubmitFrom(s, batch, 0), plan.assignments, ids, epoch, 0);
            && ActivateFrom(SubmitFrom(WithLedgers(s, stored), batch, 0), plan.assignments, ids, epoch, 0)
               == WithLedgers(s', stored)
            && s'.durable.ledgers == s.durable.ledgers
  {
    SubmitKeepsLedgersApart(s, batch, 0, stored);
    SubmitKeepsLedgersApart(s, batch, 0, s.durable.ledgers);
    ActivateKeepsLedgersApart(SubmitFrom(s, batch, 0), plan.assignments, ids, epoch, 0, stored);
    ActivateKeepsLedgersApart(SubmitFrom(s, batch, 0), plan.assignments, ids, epoch, 0, s.durable.ledgers);
  }

  /** Storing the ledger last is as good as storing it first. */
  lemma CommitInOrder(s: State, plan: Plan, batch: seq<BatchTask>, ledger: Ledger,
                      ids: seq<LeaseId>, epoch: real)
    requires |ids| == |plan.assignments| && ledger == DemandByNode(plan.assignments, batch, |plan.assignments|)
    ensures StoredCommit(ActivateFrom(SubmitFrom(WithLedger(s, plan.id, ledger), batch, 0), plan.assignments, ids, epoch, 0),
                         plan.id, ledger)
            == CommitNow(s, plan, batch, ids, epoch)
  {
    LedgersStay(SaveLedger(s, plan.id, ledger), plan, batch, ids, epoch, s.durable.ledgers);
    assert WithLedgers(SaveLedger(s, plan.id, ledger), s.durable.ledgers) == WithLedger(s, plan.id, ledger);
  }

  // ----- heartbeats

  /** A heartbeat of a known node succeeds and takes effect, if queue, leases and allocations agree
      and the sweep visits every lease. */
  ghost predicate NotesIfOrderly(s: State, s': State, ok: bool, n: NodeId, online: bool, c: Clock, order: seq<TaskId>) {
    Inv(s) && Visits(order, s.leases) && n in s.nodes ==> ok && NotesBeat(s, s', n, online, c)
  }

  lemma HeartbeatIsNoted(s: State, n: NodeId, online: bool, c: Clock, order: seq<TaskId>)
    ensures NotesIfOrderly(s, Heartbeat(s, n, online, c, order), n in Sweep(s, c, order).nodes, n, online, c, order)
  {
    if Inv(s) && Visits(order, s.leases) && n in s.nodes {
      HeartbeatEffect(s, n, online, c, order);
      SweepTurnsOffTheStale(s, c, order);
    }
  }

  datatype Outcome = Committed | Conflict | RolledBack

  // ----- restart

  function ReopenedTasks(d: Durable): map<TaskId, Task> {
    map t | t in d.tasks :: Reopened(d.tasks[t])
  }

  function TasksLessLease(tasks: map<TaskId, Task>, t: TaskId): map<TaskId, Task> {
    if t in tasks && tasks[t].status != Succeeded then tasks[t := tasks[t].(status := Pending)] else tasks
  }

  function QueueLessLease(tasks: map<TaskId, Task>, queue: seq<TaskId>, t: TaskId): seq<TaskId> {
    if t in tasks && tasks[t].status != Succeeded then Enqueue(queue, t) else queue
  }

  /** The stored tasks once the stored leases of `done` have been dropped. */
  ghost predicate LessLeases(d: Durable, done: set<TaskId>, tasks: map<TaskId, Task>) {
    && tasks.Keys == d.tasks.Keys
    && forall t :: t in tasks ==>
         var task := Reopened(d.tasks[t]);
         tasks[t] == if t in done && task.status != Succeeded then task.(status := Pending) else task
  }

  lemma OneMoreListed(leases: map<TaskId, Lease>, order: seq<TaskId>, i: nat)
    requires i < |order|
    ensures Listed(order[..i + 1]) == Listed(order[..i]) + {order[i]}
    ensures leases - Listed(order[..i + 1]) == leases - Listed(order[..i]) - {order[i]}
  {
    assert order[..i + 1] == order[..i] + [order[i]];
  }

  lemma OneLessLease(d: Durable, done: set<TaskId>, tasks: map<TaskId, Task>, queue: seq<TaskId>, t: TaskId)
    requires LessLeases(d, done, tasks) && t in d.leases
    ensures LessLeases(d, done + {t}, TasksLessLease(tasks, t))
    ensures QueueLessLease(tasks, queue, t) == if LeaseRequeues(d, t) then Enqueue(queue, t) else queue
  {
  }

  lemma NoStoredLease(d: Durable, tasks: map<TaskId, Task>)
    requires LessLeases(d, d.leases.Keys, tasks)
    ensures tasks == RestoredTasks(d)
  {
  }

  /** A lease that is handed to a node, with its task. */
  datatype Offered = Offered(task: TaskId, lease: Lease)

  ghost predicate Unacknowledged(leases: map<TaskId, Lease>, n: NodeId, o: Offered) {
    o.task in leases && o.lease == leases[o.task] && o.lease.node == n && o.lease.acknowledgedAt.None?
  }

  /** What a node is given, in terms of the state after the sweep: a lease that it has not
      acknowledged yet is sent again; otherwise it gets a new lease for the first task that can
      be granted; and nothing if it is unknown, offline, or there is no such task. */
  ghost predicate Answers(s: State, leases: map<TaskId, Lease>, n: NodeId, ordered: seq<TaskId>, picks: map<TaskId, NodeId>,
                          id: LeaseId, epoch: real, offer: Option<Offered>)
  {
    if n !in s.nodes || !s.nodes[n].online then offer.None?
    else if AwaitsAck(s, n) then offer.Some? && Unacknowledged(s.leases, n, offer.value)
    else if offer.None? then IsFirstGrant(s, ordered, n, picks, None)
    else
      && IsFirstGrant(s, ordered, n, picks, Some(offer.value.task)) && Unacknowledged(leases, n, offer.value)
      && offer.value.lease == Lease(id, n, epoch, epoch + s.config.leaseTimeout, None)
  }

  class ControlPlane {
    const config: Config
    const store: S.SqliteStore
    var tasks: map<TaskId, Task>
    var queue: seq<TaskId>
    var leases: map<TaskId, Lease>
    var nodes: map<NodeId, Node>
    var lastSeen: map<NodeId, real>
    var version: int
    var receipts: seq<Receipt>
    var latest: map<TaskId, Receipt>
    var ledgers: map<PlanId, Ledger>
    ghost var log: Log

    /** The protocol state: memory, and the store as this connection reads it. */
    ghost function View(): State
      reads this, store
    {
      State(config, tasks, queue, leases, nodes, lastSeen, version, receipts, latest, ledgers, store.working, log)
    }

    /** Outside a transaction, and with a store that can be relied on. */
    ghost predicate Ready()
      reads store
    {
      store.reliable && store.View().Settled()
    }

    constructor (config: Config, store: S.SqliteStore)
      ensures this.config == config && this.store == store
      ensures View() == State(config, map[], [], map[], map[], map[], 0, [], map[], map[], store.working,
                              Log([], [], [], map[]))
    {
      this.config, this.store := config, store;
      tasks, queue, leases, nodes, lastSeen, version := map[], [], map[], map[], map[], 0;
      receipts, latest, ledgers := [], map[], map[];
      log := Log([], [], [], map[]);
    }

    // ----- ending leases

    /** Frees a node, whose version moves on if `bump`. */
    method FreeNode(n: NodeId, t: TaskId, bump: bool)
      requires Ready()
      modifies this`nodes, store
      ensures Ready() && View() == FreedOne(old(View()), n, t, bump)
    {
      if n in nodes {
        var node := nodes[n];
        nodes := nodes[n := node.(running := node.running - {t},
                                  version := if bump then node.version + 1 else node.version)];
        var _ := store.Write(S.PutNode(n, nodes[n]));
      }
    }

    /** Takes a lease away and frees its node. */
    method EndLease(t: TaskId, ghost reason: EndReason, bump: bool)
      requires Ready() && t in leases
      modifies this, store
      ensures Ready() && tasks == old(tasks)
      ensures View() == var s := Release(old(View()), t, reason);
                        if bump then BumpNode(s, old(leases[t].node)) else s
    {
      var lease := leases[t];
      ReleaseFreesOne(View(), t, reason, bump);
      leases := leases - {t};
      log := log.(ended := log.ended + [Ending(lease.id, t, reason)]);
      FreeNode(lease.node, t, bump);
      var _ := store.Write(S.DropLease(t));
    }

    method RetryTask(t: TaskId)
      requires Ready()
      modifies this, store
      ensures Ready() && View() == Retry(old(View()), t)
    {
      if t !in tasks || tasks[t].status != Running { return; }
      var task := tasks[t];
      if task.attempts <= task.maxRetries {
        tasks := tasks[t := task.(status := Pending)];
        if t !in queue {
          queue := queue + [t];
        }
      } else {
        tasks := tasks[t := task.(status := Failed)];
      }
      var _ := store.Write(S.PutTask(t, tasks[t]));
    }

    // ----- the sweep

    method RecoverLeases(order: seq<TaskId>, from: set<NodeId>)
      requires Ready()
      modifies this, store
      ensures Ready() && View() == RecoverAll(old(View()), order, from)
    {
      var i := 0;
      while i < |order|
        invariant 0 <= i <= |order| && Ready()
        invariant RecoverFrom(View(), order, from, i) == RecoverAll(old(View()), order, from)
      {
        var t := order[i];
        if t in leases && leases[t].node in from {
          EndLease(t, Recovered, false);
          RetryTask(t);
        }
        i := i + 1;
      }
    }

    method ExpireStaleLeases(order: seq<TaskId>, epoch: real)
      requires Ready()
      modifies this, store
      ensures Ready() && View() == ExpireAll(old(View()), order, epoch)
    {
      var before, i := leases, 0;
      while i < |order|
        invariant 0 <= i <= |order| && Ready()
        invariant ExpireFrom(View(), order, epoch, i) == ExpireFrom(old(View()), order, epoch, 0)
      {
        var t := order[i];
        if t in leases && leases[t].expiresAt <= epoch {
          EndLease(t, Expired, true);
          RetryTask(t);
          version := version + 1;
        }
        i := i + 1;
      }
      if leases != before {
        var _ := store.Write(S.PutVersion(version));
      }
    }

    method TakeOffline(n: NodeId)
      requires Ready() && n in nodes
      modifies this`nodes, store
      ensures Ready() && View() == TakenOffline(old(View()), n)
    {
      if nodes[n].online {
        nodes := nodes[n := nodes[n].(online := false)];
        var _ := store.Write(S.PutNode(n, nodes[n]));
      }
    }

    /** Stale nodes go offline. */
    method MarkStaleNodes(mono: real) returns (stale: set<NodeId>)
      requires Ready()
      modifies this`nodes, store
      ensures Ready() && stale == StaleNodes(old(View()), mono) && View() == MarkOffline(old(View()), stale)
    {
      ghost var s := View();
      stale := {};
      var left := nodes.Keys;
      NobodyOffline(s);
      while left != {}
        invariant left <= s.nodes.Keys && Ready()
        invariant stale == StaleNodes(s, mono) - left
        invariant View() == MarkOffline(s, stale)
        decreases left
      {
        var n :| n in left;
        left := left - {n};
        var seen := if n in lastSeen then lastSeen[n] else config.startedAt;
        if mono - seen > config.heartbeatTimeout {
          OneMoreOffline(s, stale, n);
          stale := stale + {n};
          TakeOffline(n);
        }
      }
    }

    method ExpireStaleNodes(c: Clock, order: seq<TaskId>)
      requires Ready()
      modifies this, store
      ensures Ready() && View() == Sweep(old(View()), c, order)
    {
      var stale := MarkStaleNodes(c.mono);
      if stale != {} {
        RecoverLeases(order, stale);
      } else {
        RecoverFromNobody(View(), order, 0);
      }
      ExpireStaleLeases(order, c.epoch);
    }

    // ----- submission, registration, heartbeat

    method SubmitTask(t: TaskId, task: Task) returns (ok: bool)
      requires Ready()
      modifies this, store
      ensures Ready() && View() == Submit(old(View()), t, task) && ok == (t !in old(tasks))
      ensures if ok then tasks == old(tasks)[t := task] && queue == old(queue) + [t]
              else tasks == old(tasks) && queue == old(queue)
    {
      if t in tasks { return false; }
      tasks := tasks[t := task];
      queue := queue + [t];
      var _ := store.Write(S.PutTask(t, task));
      ok := true;
    }

    method RegisterNode(n: NodeId, capacity: ResourceVector, nodeVersion: int, mono: real)
      requires Ready()
      modifies this, store
      ensures Ready() && View() == Register(old(View()), n, capacity, nodeVersion, mono)
      ensures var running := if n in old(nodes) then old(nodes)[n].running else map[];
              nodes == old(nodes)[n := Node(capacity, true, running, nodeVersion + 1)]
      ensures version == old(version) + 1 && lastSeen == old(lastSeen)[n := mono]
    {
      var running := if n in nodes then nodes[n].running else map[];
      nodes := nodes[n := Node(capacity, true, running, nodeVersion + 1)];
      version := version + 1;
      lastSeen := lastSeen[n := mono];
      var _ := store.Write(S.PutNode(n, nodes[n]));
      var _ := store.Write(S.PutVersion(version));
    }

    method NoteBeat(n: NodeId, online: bool, mono: real)
      requires Ready() && n in nodes
      modifies this, store
      ensures Ready() && View() == Beat(old(View()), n, online, mono)
    {
      nodes := nodes[n := nodes[n].(online := online, version := nodes[n].version + 1)];
      version := version + 1;
      lastSeen := lastSeen[n := mono];
      var _ := store.Write(S.PutNode(n, nodes[n]));
    }

    method RecordHeartbeat(n: NodeId, online: bool, c: Clock, order: seq<TaskId>) returns (ok: bool)
      requires Ready()
      modifies this, store
      ensures Ready() && View() == Heartbeat(old(View()), n, online, c, order)
      ensures ok == (n in Sweep(old(View()), c, order).nodes)
      // in an orderly state, what the node says takes effect, and offline it loses its leases
      ensures NotesIfOrderly(old(View()), View(), ok, n, online, c, order)
    {
      HeartbeatIsNoted(View(), n, online, c, order);
      ExpireStaleNodes(c, order);
      if n !in nodes { return false; }
      NoteBeat(n, online, c.mono);
      if !online {
        RecoverLeases(order, {n});
      }
      var _ := store.Write(S.PutVersion(version));
      ok := true;
    }

    // ----- issuing leases

    /** A node that the scheduler may name: online, and with room for the task. */
    method CanHost(n: NodeId, t: TaskId) returns (can: bool)
      ensures can == Hosts(View(), n, t)
    {
      if n !in nodes || t !in tasks || !nodes[n].online { return false; }
      var available := ComputeAvailable(nodes[n].capacity, nodes[n].running);
      can := tasks[t].demand.FitsIn(available);
      assert forall f: Field :: available.Get(f) == Available(nodes[n].capacity, nodes[n].running, f);
    }

    /** The writes of a new lease; inside the transaction of a batch commit each may fail. */
    method PersistLease(t: TaskId, task: Task, n: NodeId, node: Node, lease: Lease) returns (ok: bool)
      modifies store
      ensures ok ==> store.working == StoredLease(old(store.working), t, task, n, node, lease)
      ensures store.depth == old(store.depth)
      ensures old(store.depth) > 0 ==> store.committed == old(store.committed) && store.open == old(store.open)
      ensures store.reliable ==> ok
      ensures old(Ready()) ==> Ready()
    {
      ok := store.Write(S.PutTask(t, task));
      if !ok { return; }
      ok := store.Write(S.PutNode(n, node));
      if !ok { return; }
      ok := store.Write(S.PutLease(t, lease));
    }

    method ActivateTaskLease(t: TaskId, n: NodeId, id: LeaseId, epoch: real) returns (ok: bool)
      requires t in tasks && n in nodes
      modifies this`tasks, this`queue, this`leases, this`nodes, this`ledgers, this`version, this`log, store
      ensures ok ==> View() == Activate(old(View()), t, n, id, epoch)
      ensures store.depth == old(store.depth)
      ensures old(store.depth) > 0 ==> store.committed == old(store.committed) && store.open == old(store.open)
      ensures store.reliable ==> ok
      ensures old(Ready()) ==> Ready()
    {
      var task, node := tasks[t], nodes[n];
      node := node.(running := node.running[t := task.demand]);
      task := task.(status := Running);
      task := task.(attempts := task.attempts + 1);
      node := node.(version := node.version + 1);
      var lease := Lease(id, n, epoch, epoch + config.leaseTimeout, None);
      ActivateAtOnce(View(), t, n, id, epoch, task, node, lease);
      tasks, nodes, leases := tasks[t := task], nodes[n := node], leases[t := lease];
      version := version + 1;
      queue := RemoveFirst(queue, t);
      log := log.(issued := log.issued + [Issue(id, t)]);
      ok := PersistLease(t, task, n, node, lease);
    }

    method SchedulePendingTask(t: TaskId, pick: Option<NodeId>, id: LeaseId, c: Clock, order: seq<TaskId>)
      returns (granted: bool)
      requires Ready()
      modifies this, store
      ensures Ready() && View() == Schedule(old(View()), t, pick, id, c, order)
      ensures granted == Grants(Sweep(old(View()), c, order), t, pick)
      ensures granted ==> t in leases && leases[t] == Lease(id, pick.value, c.epoch, c.epoch + config.leaseTimeout, None)
    {
      ExpireStaleNodes(c, order);
      granted := false;
      if t in tasks && tasks[t].status == Pending && pick.Some? {
        granted := CanHost(pick.value, t);
        if granted {
          var _ := ActivateTaskLease(t, pick.value, id, c.epoch);
        }
      }
    }

    method FindUnacknowledged(n: NodeId) returns (found: Option<Offered>)
      ensures found.Some? <==> AwaitsAck(View(), n)
      ensures found.Some? ==> Unacknowledged(leases, n, found.value)
    {
      found := None;
      if t :| t in leases && leases[t].node == n && leases[t].acknowledgedAt.None? {
        found := Some(Offered(t, leases[t]));
      }
    }

    /** The queue is scanned in priority order for the first task that the scheduler places here. */
    method ScanQueue(n: NodeId, ordered: seq<TaskId>, picks: map<TaskId, NodeId>) returns (found: Option<TaskId>)
      ensures IsFirstGrant(View(), ordered, n, picks, found) && found == FirstGrant(View(), ordered, n, picks)
    {
      FirstGrantIsFirst(View(), ordered, n, picks);
      var i := 0;
      while i < |ordered|
        invariant 0 <= i <= |ordered|
        invariant FirstGrant(View(), ordered, n, picks) == FirstGrant(View(), ordered[i..], n, picks)
      {
        var t := ordered[i];
        assert ordered[i..][0] == t && ordered[i..][1..] == ordered[i + 1..];
        if t in tasks && tasks[t].status == Pending && !(tasks[t].target.Some? && tasks[t].target.value != n)
           && t in picks && picks[t] == n {
          var can := CanHost(n, t);
          if can { return Some(t); }
        }
        i := i + 1;
      }
      found := None;
    }

    method RequestLease(n: NodeId, ordered: seq<TaskId>, picks: map<TaskId, NodeId>, id: LeaseId,
                        c: Clock, order: seq<TaskId>) returns (offer: Option<Offered>)
      requires Ready()
      modifies this, store
      ensures Ready() && View() == Request(old(View()), n, ordered, picks, id, c, order)
      ensures Answers(Sweep(old(View()), c, order), leases, n, ordered, picks, id, c.epoch, offer)
    {
      ExpireStaleNodes(c, order);
      offer := None;
      if n !in nodes || !nodes[n].online { return; }
      offer := FindUnacknowledged(n);
      if offer.Some? { return; }
      var granted := ScanQueue(n, ordered, picks);
      if granted.Some? {
        FirstGrantMayGrant(View(), ordered, n, picks);
        var _ := ActivateTaskLease(granted.value, n, id, c.epoch);
        offer := Some(Offered(granted.value, leases[granted.value]));
      }
    }

    // ----- keeping a lease alive

    method RenewLease(t: TaskId, epoch: real)
      requires Ready() && t in leases
      modifies this, store
      ensures Ready() && View() == SaveLease(old(View()), t, Renewed(config, old(leases[t]), epoch))
      ensures leases == old(leases)[t := leases[t]] && Renews(config, old(leases[t]), leases[t], epoch)
    {
      var lease := leases[t];
      if lease.acknowledgedAt.None? {
        lease := lease.(acknowledgedAt := Some(epoch));
      }
      lease := lease.(expiresAt := RenewedExpiry(config, lease, epoch));
      leases := leases[t := lease];
      var _ := store.Write(S.PutLease(t, lease));
    }

    method AcknowledgeLease(n: NodeId, t: TaskId, id: LeaseId, epoch: real) returns (ok: bool)
      requires Ready()
      modifies this, store
      ensures Ready() && View() == Acknowledge(old(View()), n, t, id, epoch)
      ensures ok == Fenced(old(View()), n, t, Some(id))
      ensures if ok then leases == old(leases)[t := leases[t]] && Renews(config, old(leases[t]), leases[t], epoch)
              else leases == old(leases)
    {
      ok := t in leases && leases[t].node == n && leases[t].id == id;
      if ok {
        RenewLease(t, epoch);
      }
    }

    method ReportTaskProgress(n: NodeId, t: TaskId, held: Option<LeaseId>, c: Clock, order: seq<TaskId>) returns (ok: bool)
      requires Ready()
      modifies this, store
      ensures Ready() && View() == Progress(old(View()), n, t, held, c, order)
      ensures ok == Fenced(Sweep(old(View()), c, order), n, t, held)
      ensures ok ==> t in leases && Renews(config, Sweep(old(View()), c, order).leases[t], leases[t], c.epoch)
      ensures ok && n in nodes ==> n in lastSeen && lastSeen[n] == c.mono
    {
      ExpireStaleNodes(c, order);
      ok := t in leases && leases[t].node == n && (held.Some? ==> leases[t].id == held.value);
      if ok {
        RenewLease(t, c.epoch);
        if n in nodes {
          lastSeen := lastSeen[n := c.mono];
        }
      }
    }

    // ----- results

    method FileResult(r: Receipt)
      requires Ready()
      modifies this, store
      ensures Ready() && View() == FileReceipt(old(View()), r)
    {
      receipts := PutReceipt(receipts, r);
      latest := latest[r.task := r];
      if |receipts| > MAX_RECEIPTS {
        receipts := receipts[1..];
      }
      var _ := store.Write(S.PutReceipts(receipts));
    }

    method SettleTask(t: TaskId, success: bool)
      requires Ready() && t in tasks
      modifies this, store
      ensures Ready() && View() == Settle(old(View()), t, success)
    {
      var task := tasks[t];
      if success {
        task := task.(status := Succeeded);
      } else if task.attempts <= task.maxRetries {
        task := task.(status := Pending);
        queue := queue + [t];
      } else {
        task := task.(status := Failed);
      }
      tasks := tasks[t := task];
      var _ := store.Write(S.PutTask(t, task));
    }

    method BookResult(n: NodeId, t: TaskId)
      requires Ready() && t in leases && leases[t].node == n
      modifies this, store
      ensures Ready() && View() == Book(old(View()), n, t) && tasks == old(tasks)
    {
      ghost var id := leases[t].id;
      EndLease(t, ByResult, true);
      version := version + 1;
      log := log.(records := log.records + [id]);
    }

    method AcceptResult(n: NodeId, t: TaskId, success: bool, result: Option<ResultId>) returns (receipt: Receipt)
      requires Ready() && t in leases && leases[t].node == n && t in tasks
      modifies this, store
      ensures Ready() && View() == Accept(old(View()), n, t, success, result)
      ensures receipt == Receipt(ResultIdOf(old(leases[t].id), result), t, n, old(leases[t].id), success)
    {
      var id := leases[t].id;
      BookResult(n, t);
      SettleTask(t, success);
      receipt := Receipt(ResultIdOf(id, result), t, n, id, success);
      FileResult(receipt);
    }

    method ReportTaskResult(n: NodeId, t: TaskId, success: bool, held: Option<LeaseId>, result: Option<ResultId>,
                            c: Clock, order: seq<TaskId>) returns (reply: Reply)
      requires Ready()
      modifies this, store
      ensures Ready() && View() == Report(old(View()), n, t, success, held, result, c, order)
      ensures reply == ReplyTo(Sweep(old(View()), c, order), n, t, success, held, result)
    {
      ExpireStaleNodes(c, order);
      if Carries(result) {
        var filed := FindReceipt(receipts, result.value);
        if filed.Some? {
          if filed.value.task != t || filed.value.node != n || (held.Some? && filed.value.lease != held.value) {
            return Refused;
          }
          return Replayed(filed.value);
        }
      }
      if t !in leases {
        if t in latest && latest[t].node == n && (held.None? || latest[t].lease == held.value) {
          return Replayed(latest[t]);
        }
        return Refused;
      }
      var lease := leases[t];
      if lease.node != n || (held.Some? && lease.id != held.value) || n !in nodes || t !in tasks {
        return Refused;
      }
      var receipt := AcceptResult(n, t, success, result);
      reply := Accepted(receipt);
    }

    // ----- cancellation

    method FreeEverywhere(t: TaskId)
      requires Ready()
      modifies this, store
      ensures Ready()
      ensures var s, freed := old(View()), FreedEverywhere(old(View()), t);
              View() == s.(nodes := s.nodes + freed, durable := s.durable.(nodes := s.durable.nodes + freed))
    {
      ghost var s := View();
      var left := nodes.Keys;
      ghost var done: set<NodeId> := {};
      AllFreed(s.nodes, s, t);
      AllFreed(s.durable.nodes, s, t);
      while left != {}
        invariant left <= s.nodes.Keys && done == s.nodes.Keys - left && Ready()
        invariant View() == s.(nodes := s.nodes + FreedAmong(s, t, done),
                               durable := s.durable.(nodes := s.durable.nodes + FreedAmong(s, t, done)))
        decreases left
      {
        var n :| n in left;
        left := left - {n};
        OneMoreFreed(s.nodes, s, t, done, n);
        OneMoreFreed(s.durable.nodes, s, t, done, n);
        done := done + {n};
        FreeOne(t, n);
      }
    }

    method FreeOne(t: TaskId, n: NodeId)
      requires Ready() && n in nodes
      modifies this, store
      ensures Ready()
      ensures View() == if t in old(nodes)[n].running
                        then SaveNode(old(View()), n, old(nodes)[n].(running := old(nodes)[n].running - {t}))
                        else old(View())
    {
      if t in nodes[n].running {
        nodes := nodes[n := nodes[n].(running := nodes[n].running - {t})];
        var _ := store.Write(S.PutNode(n, nodes[n]));
      }
    }

    method RequeueOrFail(t: TaskId, requeue: bool)
      requires Ready()
      modifies this, store
      ensures Ready() && View() == RequeuedOrFailed(old(View()), t, requeue)
    {
      if t !in tasks || tasks[t].status != Running { return; }
      tasks := tasks[t := tasks[t].(status := if requeue then Pending else Failed)];
      if requeue {
        if t !in queue {
          queue := queue + [t];
        }
        log := Waive(log, t);
      }
      var _ := store.Write(S.PutTask(t, tasks[t]));
    }

    /** The task's lease and allocations end, wherever they are. */
    method ReleaseEverywhere(t: TaskId)
      requires Ready()
      modifies this, store
      ensures Ready() && View() == ReleasedEverywhere(old(View()), t)
    {
      if t in leases {
        log := log.(ended := log.ended + [Ending(leases[t].id, t, ByCancel)]);
      }
      leases := leases - {t};
      FreeEverywhere(t);
      var _ := store.Write(S.DropLease(t));
    }

    method CancelTaskRun(t: TaskId, requeue: bool, c: Clock, order: seq<TaskId>) returns (ok: bool)
      requires Ready()
      modifies this, store
      ensures Ready() && View() == Cancel(old(View()), t, requeue, c, order)
      ensures var s := Sweep(old(View()), c, order);
              ok == (t in s.tasks || t in s.leases || HostsNow(s, t) != {})
    {
      ExpireStaleNodes(c, order);
      ghost var s := View();
      ok := t in tasks || t in leases || exists n | n in nodes :: t in nodes[n].running;
      assert ok == (t in s.tasks || t in s.leases || HostsNow(s, t) != {}) by {
        if n :| n in nodes && t in nodes[n].running {
          assert n in HostsNow(s, t);
        }
      }
      ReleaseEverywhere(t);
      RequeueOrFail(t, requeue);
    }

    // ----- batch commit

    /** The demand the plan puts on each node; a task outside the batch raises. */
    method DemandOfPlan(assignments: seq<Assignment>, batch: seq<BatchTask>) returns (demand: Option<Ledger>)
      ensures demand.Some? <==> forall i :: 0 <= i < |assignments| ==> InBatch(batch, assignments[i].task)
      ensures demand.Some? ==> demand.value == DemandByNode(assignments, batch, |assignments|)
    {
      var byNode: Ledger, k := map[], 0;
      while k < |assignments|
        invariant 0 <= k <= |assignments|
        invariant forall i :: 0 <= i < k ==> InBatch(batch, assignments[i].task)
        invariant byNode == DemandByNode(assignments, batch, k)
      {
        var a := assignments[k];
        if !InBatch(batch, a.task) { return None; }
        OneMoreDemand(assignments, batch, k);
        byNode := byNode[a.node := (if a.node in byNode then byNode[a.node] else ZERO).Plus(DemandOf(batch, a.task))];
        k := k + 1;
      }
      demand := Some(byNode);
    }

    method DemandFits(demand: Ledger) returns (fits: bool)
      ensures fits == FitsCluster(View(), demand)
    {
      var left := demand.Keys;
      while left != {}
        invariant left <= demand.Keys
        invariant forall n :: n in demand && n !in left ==>
                    n in nodes && FitsOn(demand[n], nodes[n].capacity, nodes[n].running, TOLERANCE)
        decreases left
      {
        var n :| n in left;
        left := left - {n};
        if n !in nodes { return false; }
        var available := ComputeAvailable(nodes[n].capacity, nodes[n].running);
        if !demand[n].FitsIn(available) {
          assert !FitsOn(demand[n], nodes[n].capacity, nodes[n].running, TOLERANCE);
          return false;
        }
      }
      fits := true;
    }

    /** Runs inside the transaction. */
    method SubmitBatch(batch: seq<BatchTask>) returns (ok: bool)
      requires store.depth > 0
      modifies this`tasks, this`queue, this`leases, this`nodes, this`ledgers, this`version, this`log, store
      ensures ok ==> View() == SubmitFrom(old(View()), batch, 0)
      ensures store.depth == old(store.depth) && store.committed == old(store.committed) && store.open == old(store.open)
      ensures store.reliable ==> ok
    {
      var i := 0;
      while i < |batch|
        invariant 0 <= i <= |batch|
        invariant SubmitFrom(View(), batch, i) == SubmitFrom(old(View()), batch, 0)
        invariant store.depth == old(store.depth) && store.committed == old(store.committed) && store.open == old(store.open)
      {
        var b := batch[i];
        if b.id !in tasks {
          tasks := tasks[b.id := b.task];
          queue := queue + [b.id];
          ok := store.Write(S.PutTask(b.id, b.task));
          if !ok { return; }
        }
        i := i + 1;
      }
      ok := true;
    }

    /** Runs inside the transaction. */
    method ActivateBatch(assignments: seq<Assignment>, ids: seq<LeaseId>, epoch: real) returns (ok: bool)
      requires store.depth > 0 && |ids| == |assignments|
      modifies this`tasks, this`queue, this`leases, this`nodes, this`ledgers, this`version, this`log, store
      ensures ok ==> View() == ActivateFrom(old(View()), assignments, ids, epoch, 0)
      ensures store.depth == old(store.depth) && store.committed == old(store.committed) && store.open == old(store.open)
      ensures store.reliable ==> ok
    {
      var i := 0;
      while i < |assignments|
        invariant 0 <= i <= |assignments|
        invariant ActivateFrom(View(), assignments, ids, epoch, i) == ActivateFrom(old(View()), assignments, ids, epoch, 0)
        invariant store.depth == old(store.depth) && store.committed == old(store.committed) && store.open == old(store.open)
      {
        var a := assignments[i];
        if a.task in tasks && a.node in nodes {
          ok := ActivateTaskLease(a.task, a.node, ids[i], epoch);
          if !ok { return; }
        }
        i := i + 1;
      }
      ok := true;
    }

    method CloseCommit(plan: PlanId, ledger: Ledger) returns (ok: bool)
      requires store.depth > 0
      modifies this`tasks, this`queue, this`leases, this`nodes, this`ledgers, this`version, this`log, store
      ensures ok ==> View() == StoredCommit(old(View()), plan, ledger)
      ensures store.depth == old(store.depth) && store.committed == old(store.committed) && store.open == old(store.open)
      ensures store.reliable ==> ok
    {
      version := version + 1;
      ok := store.Write(S.PutLedger(plan, ledger));
      if !ok { return; }
      ok := store.Write(S.PutVersion(version));
    }

    /** The body of the transaction; the ledger is kept first and stored last. */
    method CommitBody(plan: Plan, batch: seq<BatchTask>, ledger: Ledger, ids: seq<LeaseId>, epoch: real) returns (ok: bool)
      requires store.depth > 0 && |ids| == |plan.assignments|
      requires ledger == DemandByNode(plan.assignments, batch, |plan.assignments|)
      modifies this`tasks, this`queue, this`leases, this`nodes, this`ledgers, this`version, this`log, store
      ensures ok ==> View() == CommitNow(old(View()), plan, batch, ids, epoch)
      ensures store.depth == old(store.depth) && store.committed == old(store.committed) && store.open == old(store.open)
      ensures store.reliable ==> ok
    {
      CommitInOrder(View(), plan, batch, ledger, ids, epoch);
      ledgers := ledgers[plan.id := ledger];
      ok := SubmitBatch(batch);
      if !ok { return; }
      ok := ActivateBatch(plan.assignments, ids, epoch);
      if !ok { return; }
      ok := CloseCommit(plan.id, ledger);
    }

    method CommitInTransaction(plan: Plan, batch: seq<BatchTask>, ledger: Ledger, ids: seq<LeaseId>, epoch: real)
      returns (ok: bool)
      requires store.View().Settled() && |ids| == |plan.assignments|
      requires ledger == DemandByNode(plan.assignments, batch, |plan.assignments|)
      modifies this`tasks, this`queue, this`leases, this`nodes, this`ledgers, this`version, this`log, store
      ensures ok ==> View() == CommitNow(old(View()), plan, batch, ids, epoch) && store.View().Settled()
      ensures !ok ==> store.committed == old(store.committed) && store.depth == 0
      ensures !ok ==> store.View().Settled() || store.working == CommitNow(old(View()), plan, batch, ids, epoch).durable
      ensures store.reliable ==> ok
    {
      ok := store.EnterBlock();
      if !ok { return; }
      ok := CommitBody(plan, batch, ledger, ids, epoch);
      if ok {
        ok := store.LeaveBlock(false);
      } else {
        var _ := store.LeaveBlock(true);
      }
    }

    /** All or nothing, whichever write fails: memory and the durable store both take the whole
        commit, or both are what they were. */
    method CommitBatch(plan: Plan, batch: seq<BatchTask>, requested: int, ids: seq<LeaseId>, epoch: real)
      returns (outcome: Outcome)
      requires store.View().Settled() && |ids| == |plan.assignments|
      modifies this`tasks, this`queue, this`leases, this`nodes, this`ledgers, this`version, this`log, store
      ensures outcome == Conflict <==> !Commits(old(View()), plan, batch, requested)
      ensures outcome == Conflict ==> View() == old(View()) && store.View() == old(store.View())
      ensures outcome == Committed ==> View() == CommitNow(old(View()), plan, batch, ids, epoch) && store.View().Settled()
      ensures outcome == RolledBack ==>
                && View().(durable := old(store.working)) == old(View())
                && store.committed == old(store.committed) && store.depth == 0
                && (store.View().Settled() || store.working == CommitNow(old(View()), plan, batch, ids, epoch).durable)
      ensures store.reliable ==> outcome != RolledBack
    {
      if requested != plan.version || requested != version { return Conflict; }
      var demand := DemandOfPlan(plan.assignments, batch);
      if demand.None? { return Conflict; }
      var fits := DemandFits(demand.value);
      if !fits { return Conflict; }
      assert Commits(View(), plan, batch, requested);
      outcome := CommitOrRestore(plan, batch, demand.value, ids, epoch);
    }

    /** Memory is restored when the transaction raises. */
    method CommitOrRestore(plan: Plan, batch: seq<BatchTask>, ledger: Ledger, ids: seq<LeaseId>, epoch: real)
      returns (outcome: Outcome)
      requires store.View().Settled() && |ids| == |plan.assignments|
      requires ledger == DemandByNode(plan.assignments, batch, |plan.assignments|)
      modifies this`tasks, this`queue, this`leases, this`nodes, this`ledgers, this`version, this`log, store
      ensures outcome != Conflict
      ensures outcome == Committed ==> View() == CommitNow(old(View()), plan, batch, ids, epoch) && store.View().Settled()
      ensures outcome == RolledBack ==>
                && View().(durable := old(store.working)) == old(View())
                && store.committed == old(store.committed) && store.depth == 0
                && (store.View().Settled() || store.working == CommitNow(old(View()), plan, batch, ids, epoch).durable)
      ensures store.reliable ==> outcome != RolledBack
    {
      var nodes0, tasks0, queue0, leases0, ledgers0, version0 := nodes, tasks, queue, leases, ledgers, version;
      ghost var log0 := log;
      var ok := CommitInTransaction(plan, batch, ledger, ids, epoch);
      if ok { return Committed; }
      nodes, tasks, queue, leases, ledgers, version := nodes0, tasks0, queue0, leases0, ledgers0, version0;
      log := log0;
      outcome := RolledBack;
    }

    // ----- restart

    method ReopenTask(t: TaskId)
      requires t in store.working.tasks
      modifies this`tasks, this`queue
      ensures tasks == old(tasks)[t := Reopened(store.working.tasks[t])]
      ensures queue == if Reopened(store.working.tasks[t]).status == Pending then Enqueue(old(queue), t) else old(queue)
    {
      var task := store.working.tasks[t];
      if task.status == Running || task.status == Reserved || task.status == Leased {
        task := task.(status := Pending);
      }
      tasks := tasks[t := task];
      if task.status == Pending && t !in queue {
        queue := queue + [t];
      }
    }

    method ReopenTasks(order: seq<TaskId>)
      requires tasks == map[] && queue == []
      requires forall t :: t in order <==> t in store.working.tasks
      modifies this`tasks, this`queue
      ensures tasks == ReopenedTasks(store.working) && queue == QueueStored(store.working, order, [], 0)
    {
      ghost var d := store.working;
      var i := 0;
      while i < |order|
        invariant 0 <= i <= |order|
        invariant forall t :: t in tasks <==> t in order[..i]
        invariant forall t :: t in tasks ==> t in d.tasks && tasks[t] == Reopened(d.tasks[t])
        invariant QueueStored(d, order, queue, i) == QueueStored(d, order, [], 0)
      {
        assert order[..i + 1] == order[..i] + [order[i]];
        ReopenTask(order[i]);
        i := i + 1;
      }
      assert order[..i] == order;
    }

    method DropStoredLease(t: TaskId)
      requires Ready()
      modifies this`tasks, this`queue, store
      ensures tasks == TasksLessLease(old(tasks), t) && queue == QueueLessLease(old(tasks), old(queue), t)
      ensures Ready() && store.working == S.Apply(old(store.working), S.DropLease(t))
    {
      if t in tasks && tasks[t].status != Succeeded {
        tasks := tasks[t := tasks[t].(status := Pending)];
        if t !in queue {
          queue := queue + [t];
        }
      }
      var _ := store.Write(S.DropLease(t));
    }

    method DropStoredLeases(order: seq<TaskId>)
      requires Ready() && tasks == ReopenedTasks(store.working)
      requires forall t :: t in order <==> t in store.working.leases
      modifies this`tasks, this`queue, store
      ensures Ready() && tasks == RestoredTasks(old(store.working))
      ensures queue == QueueLeased(old(store.working), order, old(queue), 0)
      ensures store.working == old(store.working).(leases := old(store.working).leases - Listed(order))
    {
      ghost var d, q := store.working, queue;
      var i := 0;
      while i < |order|
        invariant 0 <= i <= |order| && Ready()
        invariant LessLeases(d, Listed(order[..i]), tasks)
        invariant QueueLeased(d, order, queue, i) == QueueLeased(d, order, q, 0)
        invariant store.working == d.(leases := d.leases - Listed(order[..i]))
      {
        var t := order[i];
        OneLessLease(d, Listed(order[..i]), tasks, queue, t);
        OneMoreListed(d.leases, order, i);
        DropStoredLease(t);
        i := i + 1;
      }
      assert order[..i] == order && Listed(order) == d.leases.Keys;
      NoStoredLease(d, tasks);
    }

    method RestoreVersion(ghost d: Durable)
      requires nodes == RestoredNodes(d) && store.working.version == d.version
      modifies this`version
      ensures IsRestoredVersion(d, version)
    {
      assert forall n :: n in d.nodes ==> n in nodes && nodes[n].version == d.nodes[n].version;
      version := if store.working.version > 0 then store.working.version else 0;
      var left := nodes.Keys;
      while left != {}
        invariant left <= nodes.Keys
        invariant version >= 0 && version >= store.working.version
        invariant forall n :: n in nodes && n !in left ==> version >= nodes[n].version
        invariant version == 0 || version == store.working.version || exists n :: n in nodes && version == nodes[n].version
        decreases left
      {
        var n :| n in left;
        left := left - {n};
        if nodes[n].version > version {
          version := nodes[n].version;
        }
      }
    }

    method RestoreLatest()
      modifies this`latest
      ensures latest == LatestOf(receipts)
    {
      latest := map[];
      var i := 0;
      while i < |receipts|
        invariant 0 <= i <= |receipts| && latest == LatestOf(receipts[..i])
      {
        assert receipts[..i + 1][..i] == receipts[..i];
        latest := latest[receipts[i].task := receipts[i]];
        i := i + 1;
      }
      assert receipts[..i] == receipts;
    }

    method PersistAll()
      requires Ready() && tasks.Keys == store.working.tasks.Keys && nodes.Keys == store.working.nodes.Keys
      modifies store
      ensures Ready() && store.working == old(store.working).(tasks := tasks, nodes := nodes)
    {
      ghost var d := store.working;
      var left := tasks.Keys;
      while left != {}
        invariant left <= tasks.Keys && Ready()
        invariant store.working == d.(tasks := store.working.tasks) && store.working.tasks.Keys == tasks.Keys
        invariant forall t :: t in tasks && t !in left ==> store.working.tasks[t] == tasks[t]
        decreases left
      {
        var t :| t in left;
        left := left - {t};
        var _ := store.Write(S.PutTask(t, tasks[t]));
      }
      assert store.working.tasks == tasks;
      var rest := nodes.Keys;
      while rest != {}
        invariant rest <= nodes.Keys && Ready()
        invariant store.working == d.(tasks := tasks, nodes := store.working.nodes) && store.working.nodes.Keys == nodes.Keys
        invariant forall n :: n in nodes && n !in rest ==> store.working.nodes[n] == nodes[n]
        decreases rest
      {
        var n :| n in rest;
        rest := rest - {n};
        var _ := store.Write(S.PutNode(n, nodes[n]));
      }
      assert store.working.nodes == nodes;
    }

    /** Tasks, queue and leases, from the store. */
    method RestoreWork(taskOrder: seq<TaskId>, leaseOrder: seq<TaskId>)
      requires Ready() && tasks == map[] && queue == []
      requires forall t :: t in taskOrder <==> t in store.working.tasks
      requires forall t :: t in leaseOrder <==> t in store.working.leases
      modifies this`tasks, this`queue, store
      ensures Ready()
      ensures var d := old(store.working);
              && tasks == RestoredTasks(d) && queue == QueueLeased(d, leaseOrder, QueueStored(d, taskOrder, [], 0), 0)
              && store.working == d.(leases := d.leases - Listed(leaseOrder))
    {
      ReopenTasks(taskOrder);
      DropStoredLeases(leaseOrder);
    }

    /** Every table but the version, from the store. */
    method RestoreTables(taskOrder: seq<TaskId>, leaseOrder: seq<TaskId>)
      requires Ready() && tasks == map[] && queue == []
      requires forall t :: t in taskOrder <==> t in store.working.tasks
      requires forall t :: t in leaseOrder <==> t in store.working.leases
      modifies this`tasks, this`queue, this`nodes, this`receipts, this`latest, this`ledgers, store
      ensures Ready()
      ensures var d := old(store.working);
              && tasks == RestoredTasks(d) && queue == QueueLeased(d, leaseOrder, QueueStored(d, taskOrder, [], 0), 0)
              && nodes == RestoredNodes(d) && ledgers == d.ledgers
              && receipts == d.receipts && latest == LatestOf(d.receipts)
              && store.working == d.(leases := d.leases - Listed(leaseOrder))
    {
      receipts := store.working.receipts;
      RestoreLatest();
      nodes := RestoredNodes(store.working);
      RestoreWork(taskOrder, leaseOrder);
      ledgers := store.working.ledgers;
    }

    /** A new process takes over the store of an old one, whose last state was `before`. */
    method RestoreFromStore(taskOrder: seq<TaskId>, leaseOrder: seq<TaskId>, seen: map<NodeId, real>, ghost before: State)
      requires Ready() && before.durable == store.working && config == before.config.(startedAt := config.startedAt)
      requires tasks == map[] && queue == [] && leases == map[]
      requires forall t :: t in taskOrder <==> t in store.working.tasks
      requires forall t :: t in leaseOrder <==> t in store.working.leases
      modifies this, store
      ensures Ready() && IsRestoredVersion(before.durable, version)
      ensures View() == Restart(before, version, taskOrder, leaseOrder, seen, config.startedAt)
    {
      lastSeen := seen;
      log := before.log.(ended := before.log.ended + Dropped(store.working.leases, leaseOrder, 0),
                         waivers := WaivedByRestart(before.log, store.working));
      RestoreTables(taskOrder, leaseOrder);
      assert tasks.Keys == store.working.tasks.Keys && nodes.Keys == store.working.nodes.Keys;
      RestoreVersion(before.durable);
      PersistAll();
    }
  }
}
