/** What every step of the lease protocol keeps: queue, task status, leases and node
    allocations agree; every issued lease is accounted for exactly once; attempts respect
    the retry limit; and the store mirrors memory. */
module ProtocolSafety {
  import opened Common
  import opened Resources
  import opened Protocol

  // ----- the invariant

  ghost predicate Distinct<T>(q: seq<T>) {
    forall i, j :: 0 <= i < j < |q| ==> q[i] != q[j]
  }

  /** A task is pending iff it is in the queue, and it is there only once. */
  ghost predicate Queued(tasks: map<TaskId, Task>, queue: seq<TaskId>) {
    && Distinct(queue)
    && forall t :: t in queue <==> t in tasks && tasks[t].status == Pending
  }

  /** A task is running iff it holds a lease; the transient statuses never last. */
  ghost predicate LeasedIffRunning(tasks: map<TaskId, Task>, leases: map<TaskId, Lease>) {
    && (forall t :: t in leases <==> t in tasks && tasks[t].status == Running)
    && (forall t :: t in tasks ==> tasks[t].status != Reserved && tasks[t].status != Leased)
  }

  /** A leased task occupies its lease's node, with exactly its demand, and no other node;
      nothing else occupies a node. */
  ghost predicate Placed(tasks: map<TaskId, Task>, leases: map<TaskId, Lease>, nodes: map<NodeId, Node>) {
    && (forall t :: t in leases ==> leases[t].node in nodes && t in nodes[leases[t].node].running)
    && (forall n, t :: n in nodes && t in nodes[n].running ==>
          t in leases && leases[t].node == n && t in tasks && nodes[n].running[t] == tasks[t].demand)
  }

  ghost predicate Structural(s: State) {
    && Queued(s.tasks, s.queue)
    && LeasedIffRunning(s.tasks, s.leases)
    && Placed(s.tasks, s.leases, s.nodes)
  }

  /** The active lease of each task that has one. */
  ghost function Held(leases: map<TaskId, Lease>): map<TaskId, LeaseId> {
    map t | t in leases :: leases[t].id
  }

  ghost function HeldIds(held: map<TaskId, LeaseId>): set<LeaseId> {
    set t | t in held :: held[t]
  }

  ghost function IssuedIds(issued: seq<Issue>): set<LeaseId> {
    set i | 0 <= i < |issued| :: issued[i].lease
  }

  ghost function EndedIds(ended: seq<Ending>): set<LeaseId> {
    set i | 0 <= i < |ended| :: ended[i].lease
  }

  /** The leases that ended with a result, in that order. */
  ghost function ResultLeases(ended: seq<Ending>): seq<LeaseId> {
    if ended == [] then []
    else
      var e := ended[|ended| - 1];
      ResultLeases(ended[..|ended| - 1]) + if e.reason == ByResult then [e.lease] else []
  }

  /** No lease identifier is issued or ended twice; an issued lease has ended or is active,
      never both; execution records are exactly the leases that ended with a result. */
  ghost predicate Balanced(log: Log, held: map<TaskId, LeaseId>) {
    && (forall i, j :: 0 <= i < j < |log.issued| ==> log.issued[i].lease != log.issued[j].lease)
    && (forall i, j :: 0 <= i < j < |log.ended| ==> log.ended[i].lease != log.ended[j].lease)
    && (forall t :: t in held ==> Issue(held[t], t) in log.issued)
    && IssuedIds(log.issued) == EndedIds(log.ended) + HeldIds(held)
    && EndedIds(log.ended) !! HeldIds(held)
    && |log.issued| == |held| + |log.ended|
    && log.records == ResultLeases(log.ended)
  }

  ghost predicate Audited(s: State) {
    Balanced(s.log, Held(s.leases))
  }

  ghost function IssuesOf(issued: seq<Issue>, t: TaskId): nat {
    if issued == [] then 0
    else IssuesOf(issued[..|issued| - 1], t) + if issued[|issued| - 1].task == t then 1 else 0
  }

  function RetryLimit(task: Task): nat {
    if task.maxRetries >= 0 then task.maxRetries else 0
  }

  /** Attempts count the leases of a task and stay within its limit plus its waivers; a
      pending task has one attempt in hand. */
  ghost predicate Bounded(tasks: map<TaskId, Task>, log: Log) {
    && (forall t :: t in tasks ==>
          tasks[t].attempts + (if tasks[t].status == Pending then 1 else 0)
            <= RetryLimit(tasks[t]) + 1 + Waivers(log, t))
    && (forall t :: IssuesOf(log.issued, t) == if t in tasks then tasks[t].attempts else 0)
  }

  /** Between operations the store holds what memory holds; its version never runs ahead. */
  ghost predicate Mirrored(s: State) {
    && s.durable.tasks == s.tasks && s.durable.nodes == s.nodes && s.durable.leases == s.leases
    && s.durable.receipts == s.receipts && s.durable.ledgers == s.ledgers && s.durable.version <= s.version
  }

  /** Everything but the retry limit. */
  ghost predicate Sound(s: State) {
    Structural(s) && Audited(s) && Mirrored(s)
  }

  ghost predicate Inv(s: State) {
    Sound(s) && Bounded(s.tasks, s.log)
  }

  // ----- ending a lease

  /** `t` loses its lease and its allocation and gets a new status. */
  ghost predicate EndsWork(s: State, s': State, t: TaskId, status: TaskStatus)
    requires t in s.tasks
  {
    && s'.tasks == s.tasks[t := s.tasks[t].(status := status)]
    && s'.leases == s.leases - {t}
    && s'.queue == (if status == Pending then s.queue + [t] else s.queue)
    && s'.nodes.Keys == s.nodes.Keys
    && (forall n :: n in s.nodes ==> s'.nodes[n].running == s.nodes[n].running - {t})
  }

  ghost predicate EndsLog(s: State, s': State, t: TaskId, reason: EndReason)
    requires t in s.leases
  {
    && s'.log.issued == s.log.issued
    && s'.log.ended == s.log.ended + [Ending(s.leases[t].id, t, reason)]
    && s'.log.records == s.log.records + (if reason == ByResult then [s.leases[t].id] else [])
    && (forall u :: Waivers(s.log, u) <= Waivers(s'.log, u))
  }

  /** A running task ends a lease: with a final status, or requeued while it has attempts
      left or its limit is waived. */
  ghost predicate Ends(s: State, s': State, t: TaskId, status: TaskStatus, reason: EndReason) {
    && t in s.leases && t in s.tasks && s.tasks[t].status == Running
    && (status == Pending || status == Failed || status == Succeeded)
    && EndsWork(s, s', t, status)
    && EndsLog(s, s', t, reason)
    && (status == Pending ==>
          s.tasks[t].attempts <= s.tasks[t].maxRetries || Waivers(s'.log, t) > Waivers(s.log, t))
  }

  lemma EndKeepsQueue(tasks: map<TaskId, Task>, queue: seq<TaskId>, t: TaskId, status: TaskStatus)
    requires Queued(tasks, queue) && t in tasks && tasks[t].status == Running
    ensures Queued(tasks[t := tasks[t].(status := status)], if status == Pending then queue + [t] else queue)
  {
  }

  lemma EndKeepsPlacement(tasks: map<TaskId, Task>, leases: map<TaskId, Lease>,
       nodes: map<NodeId, Node>, nodes': map<NodeId, Node>, t: TaskId, task: Task)
    requires Placed(tasks, leases, nodes) && t in tasks && task.demand == tasks[t].demand
    requires nodes'.Keys == nodes.Keys
    requires forall n :: n in nodes ==> nodes'[n].running == nodes[n].running - {t}
    ensures Placed(tasks[t := task], leases - {t}, nodes')
  {
  }

  lemma EndKeepsLeased(tasks: map<TaskId, Task>, leases: map<TaskId, Lease>, t: TaskId, status: TaskStatus)
    requires LeasedIffRunning(tasks, leases) && t in tasks
    requires status == Pending || status == Failed || status == Succeeded
    ensures LeasedIffRunning(tasks[t := tasks[t].(status := status)], leases - {t})
  {
  }

  lemma EndKeepsStructure(s: State, s': State, t: TaskId, status: TaskStatus, reason: EndReason)
    requires Inv(s) && Ends(s, s', t, status, reason)
    ensures Structural(s')
  {
    EndKeepsQueue(s.tasks, s.queue, t, status);
    EndKeepsLeased(s.tasks, s.leases, t, status);
    EndKeepsPlacement(s.tasks, s.leases, s.nodes, s'.nodes, t, s'.tasks[t]);
  }

  lemma EndKeepsAudit(s: State, s': State, t: TaskId, status: TaskStatus, reason: EndReason)
    requires Inv(s) && Ends(s, s', t, status, reason)
    ensures Audited(s')
  {
    EndKeepsBalance(s.log, s'.log, Held(s.leases), t, reason);
    HeldAfterRemove(s.leases, t);
  }

  lemma EndKeepsBound(s: State, s': State, t: TaskId, status: TaskStatus, reason: EndReason)
    requires Inv(s) && Ends(s, s', t, status, reason)
    ensures Bounded(s'.tasks, s'.log)
  {
    RequeueKeepsBound(s.tasks, s.log, s'.log, t, status);
  }

  lemma EndKeepsInv(s: State, s': State, t: TaskId, status: TaskStatus, reason: EndReason)
    requires Inv(s) && Ends(s, s', t, status, reason) && Mirrored(s')
    ensures Inv(s')
  {
    EndKeepsStructure(s, s', t, status, reason);
    EndKeepsAudit(s, s', t, status, reason);
    EndKeepsBound(s, s', t, status, reason);
  }

  lemma EndKeepsBalance(log: Log, log': Log, held: map<TaskId, LeaseId>, t: TaskId, reason: EndReason)
    requires Balanced(log, held) && t in held
    requires log'.issued == log.issued
    requires log'.ended == log.ended + [Ending(held[t], t, reason)]
    requires log'.records == log.records + (if reason == ByResult then [held[t]] else [])
    ensures Balanced(log', held - {t})
  {
    var id := held[t];
    EndedOneMore(log.ended, Ending(id, t, reason));
    forall u | u in held && u != t
      ensures held[u] != id
    {
      var i :| 0 <= i < |log.issued| && log.issued[i] == Issue(id, t);
      var j :| 0 <= j < |log.issued| && log.issued[j] == Issue(held[u], u);
    }
    HeldOneLess(held, t);
    assert |held - {t}| == |held| - 1 by {
      assert (held - {t}).Keys == held.Keys - {t};
    }
  }

  lemma HeldOneLess(held: map<TaskId, LeaseId>, t: TaskId)
    requires t in held && forall u :: u in held && u != t ==> held[u] != held[t]
    ensures held[t] in HeldIds(held) && HeldIds(held - {t}) == HeldIds(held) - {held[t]}
  {
    var less := held - {t};
    forall id
      ensures id in HeldIds(less) <==> id in HeldIds(held) && id != held[t]
    {
      if id in HeldIds(held) && id != held[t] {
        var u :| u in held && held[u] == id;
        assert u in less && less[u] == id;
      }
      if id in HeldIds(less) {
        var u :| u in less && less[u] == id;
        assert u in held && held[u] == id;
      }
    }
  }

  lemma EndedOneMore(ended: seq<Ending>, e: Ending)
    ensures EndedIds(ended + [e]) == EndedIds(ended) + {e.lease}
    ensures ResultLeases(ended + [e]) == ResultLeases(ended) + if e.reason == ByResult then [e.lease] else []
  {
    var after := ended + [e];
    assert after[..|ended|] == ended;
    assert after[|ended|] == e;
    forall i | 0 <= i < |ended|
      ensures ended[i].lease in EndedIds(after)
    {
      assert after[i] == ended[i];
    }
  }

  lemma IssuedOneMore(issued: seq<Issue>, e: Issue)
    ensures IssuedIds(issued + [e]) == IssuedIds(issued) + {e.lease}
  {
    var after := issued + [e];
    assert after[|issued|] == e;
    forall i | 0 <= i < |issued|
      ensures issued[i].lease in IssuedIds(after)
    {
      assert after[i] == issued[i];
    }
  }

  /** A requeued task has attempts left, or its limit was waived. */
  lemma RequeueKeepsBound(tasks: map<TaskId, Task>, log: Log, log': Log, t: TaskId, status: TaskStatus)
    requires Bounded(tasks, log) && t in tasks && tasks[t].status == Running
    requires log'.issued == log.issued && forall u :: Waivers(log, u) <= Waivers(log', u)
    requires status == Pending ==>
               tasks[t].attempts <= tasks[t].maxRetries || Waivers(log', t) > Waivers(log, t)
    ensures Bounded(tasks[t := tasks[t].(status := status)], log')
  {
  }

  // ----- issuing a lease

  ghost predicate Fresh(log: Log, id: LeaseId) {
    id !in IssuedIds(log.issued)
  }

  lemma {:induction false} RemoveFirstOfDistinct(queue: seq<TaskId>, t: TaskId)
    requires Distinct(queue)
    ensures Distinct(RemoveFirst(queue, t))
    ensures forall u :: u in RemoveFirst(queue, t) <==> u in queue && u != t
  {
    if queue != [] {
      var rest := queue[1..];
      assert queue == [queue[0]] + rest;
      assert Distinct(rest) by {
        assert forall i :: 0 <= i < |rest| ==> rest[i] == queue[i + 1];
      }
      assert queue[0] !in rest;
      RemoveFirstOfDistinct(rest, t);
    }
  }

  lemma IssueKeepsQueue(tasks: map<TaskId, Task>, queue: seq<TaskId>, leases: map<TaskId, Lease>,
                        t: TaskId, task: Task, lease: Lease)
    requires Queued(tasks, queue) && LeasedIffRunning(tasks, leases) && t in tasks && task.status == Running
    ensures Queued(tasks[t := task], RemoveFirst(queue, t))
    ensures LeasedIffRunning(tasks[t := task], leases[t := lease])
  {
    RemoveFirstOfDistinct(queue, t);
  }

  lemma IssueKeepsPlacement(tasks: map<TaskId, Task>, leases: map<TaskId, Lease>, nodes: map<NodeId, Node>,
         t: TaskId, task: Task, n: NodeId, node: Node, lease: Lease)
    requires Placed(tasks, leases, nodes) && t in tasks && t !in leases && n in nodes
    requires task.demand == tasks[t].demand && lease.node == n
    requires node.running == nodes[n].running[t := task.demand]
    ensures Placed(tasks[t := task], leases[t := lease], nodes[n := node])
  {
  }

  /** `t` starts on `n` under a new lease. */
  ghost predicate Starts(s: State, s': State, t: TaskId, n: NodeId, lease: Lease)
    requires t in s.tasks && n in s.nodes
  {
    && s'.tasks == s.tasks[t := s.tasks[t].(status := Running, attempts := s.tasks[t].attempts + 1)]
    && s'.leases == s.leases[t := lease] && lease.node == n
    && s'.queue == RemoveFirst(s.queue, t)
    && n in s'.nodes && s'.nodes == s.nodes[n := s'.nodes[n]]
    && s'.nodes[n].running == s.nodes[n].running[t := s.tasks[t].demand]
    && s'.log == s.log.(issued := s.log.issued + [Issue(lease.id, t)])
  }

  lemma IssueKeepsBalance(log: Log, log': Log, held: map<TaskId, LeaseId>, t: TaskId, id: LeaseId)
    requires Balanced(log, held) && t !in held && Fresh(log, id)
    requires log' == log.(issued := log.issued + [Issue(id, t)])
    ensures Balanced(log', held[t := id])
  {
    IssuedOneMore(log.issued, Issue(id, t));
    assert HeldIds(held[t := id]) == HeldIds(held) + {id} by {
      assert forall u :: u in held ==> held[u] == held[t := id][u];
      assert held[t := id][t] == id;
    }
    assert log'.issued[|log.issued|] == Issue(id, t);
    forall u | u in held
      ensures Issue(held[u], u) in log'.issued
    {
      assert Issue(held[u], u) in log.issued;
    }
  }

  lemma HeldAfterPut(leases: map<TaskId, Lease>, t: TaskId, lease: Lease)
    ensures Held(leases[t := lease]) == Held(leases)[t := lease.id]
  {
  }

  lemma HeldAfterRemove(leases: map<TaskId, Lease>, t: TaskId)
    ensures Held(leases - {t}) == Held(leases) - {t}
  {
  }

  lemma AttemptKeepsBound(tasks: map<TaskId, Task>, log: Log, log': Log, t: TaskId, id: LeaseId)
    requires Bounded(tasks, log) && t in tasks && tasks[t].status == Pending
    requires log' == log.(issued := log.issued + [Issue(id, t)])
    ensures Bounded(tasks[t := tasks[t].(status := Running, attempts := tasks[t].attempts + 1)], log')
  {
    assert log'.issued[..|log.issued|] == log.issued;
  }

  lemma StartKeepsStructure(s: State, s': State, t: TaskId, n: NodeId, lease: Lease)
    requires Sound(s) && t in s.tasks && t !in s.leases && n in s.nodes && Starts(s, s', t, n, lease)
    ensures Structural(s')
  {
    IssueKeepsQueue(s.tasks, s.queue, s.leases, t, s'.tasks[t], lease);
    IssueKeepsPlacement(s.tasks, s.leases, s.nodes, t, s'.tasks[t], n, s'.nodes[n], lease);
  }

  lemma StartKeepsAudit(s: State, s': State, t: TaskId, n: NodeId, lease: Lease)
    requires Sound(s) && t in s.tasks && t !in s.leases && n in s.nodes && Starts(s, s', t, n, lease)
    requires Fresh(s.log, lease.id)
    ensures Audited(s')
  {
    IssueKeepsBalance(s.log, s'.log, Held(s.leases), t, lease.id);
    HeldAfterPut(s.leases, t, lease);
  }

  lemma StartKeepsBound(s: State, s': State, t: TaskId, n: NodeId, lease: Lease)
    requires Inv(s) && t in s.tasks && s.tasks[t].status == Pending && n in s.nodes && Starts(s, s', t, n, lease)
    ensures Bounded(s'.tasks, s'.log)
  {
    AttemptKeepsBound(s.tasks, s.log, s'.log, t, lease.id);
  }

  lemma ActivateStarts(s: State, t: TaskId, n: NodeId, id: LeaseId, epoch: real)
    requires Mirrored(s) && t in s.tasks && n in s.nodes
    ensures var s' := Activate(s, t, n, id, epoch);
            t in s'.leases && s'.leases[t].id == id && Starts(s, s', t, n, s'.leases[t]) && Mirrored(s')
  {
  }

  /** Starting any task without a lease is sound; the retry limit needs a pending one. */
  lemma ActivateKeepsSound(s: State, t: TaskId, n: NodeId, id: LeaseId, epoch: real)
    requires Sound(s) && t in s.tasks && t !in s.leases && n in s.nodes && Fresh(s.log, id)
    ensures Sound(Activate(s, t, n, id, epoch))
  {
    ActivateStarts(s, t, n, id, epoch);
    var s' := Activate(s, t, n, id, epoch);
    StartKeepsStructure(s, s', t, n, s'.leases[t]);
    StartKeepsAudit(s, s', t, n, s'.leases[t]);
  }

  lemma ActivateKeepsInv(s: State, t: TaskId, n: NodeId, id: LeaseId, epoch: real)
    requires Inv(s) && t in s.tasks && s.tasks[t].status == Pending && n in s.nodes && Fresh(s.log, id)
    ensures Inv(Activate(s, t, n, id, epoch))
  {
    PendingHasNoLease(s, t);
    ActivateKeepsSound(s, t, n, id, epoch);
    ActivateStarts(s, t, n, id, epoch);
    var s' := Activate(s, t, n, id, epoch);
    StartKeepsBound(s, s', t, n, s'.leases[t]);
  }

  lemma PendingHasNoLease(s: State, t: TaskId)
    requires Inv(s) && t in s.tasks && s.tasks[t].status == Pending
    ensures t !in s.leases
  {
  }

  // ----- steps that touch no lease holder

  /** Lease holders and allocations are as before; nodes may be added. */
  ghost predicate SamePlacement(leases: map<TaskId, Lease>, nodes: map<NodeId, Node>,
                                leases': map<TaskId, Lease>, nodes': map<NodeId, Node>)
  {
    && leases'.Keys == leases.Keys
    && (forall t :: t in leases ==> leases'[t].id == leases[t].id && leases'[t].node == leases[t].node)
    && nodes.Keys <= nodes'.Keys
    && (forall n :: n in nodes' ==> nodes'[n].running == if n in nodes then nodes[n].running else map[])
  }

  ghost predicate SameWork(s: State, s': State) {
    && s'.tasks == s.tasks && s'.queue == s.queue && s'.log == s.log
    && SamePlacement(s.leases, s.nodes, s'.leases, s'.nodes)
  }

  lemma SamePlacementKeeps(tasks: map<TaskId, Task>, leases: map<TaskId, Lease>, nodes: map<NodeId, Node>,
        leases': map<TaskId, Lease>, nodes': map<NodeId, Node>)
    requires LeasedIffRunning(tasks, leases) && Placed(tasks, leases, nodes)
    requires SamePlacement(leases, nodes, leases', nodes')
    ensures LeasedIffRunning(tasks, leases') && Placed(tasks, leases', nodes')
    ensures Held(leases') == Held(leases)
  {
    assert forall t :: t in leases' <==> t in leases;
  }

  lemma SameWorkKeepsInv(s: State, s': State)
    requires Inv(s) && SameWork(s, s') && Mirrored(s')
    ensures Inv(s')
  {
    SamePlacementKeeps(s.tasks, s.leases, s.nodes, s'.leases, s'.nodes);
  }

  // ----- the steps that end a lease

  /** What the invariant says about one leased task. */
  ghost predicate HeldOnce(s: State, t: TaskId) {
    && t in s.leases && t in s.tasks && s.tasks[t].status == Running && t !in s.queue
    && s.leases[t].node in s.nodes && t in s.nodes[s.leases[t].node].running
    && (forall n :: n in s.nodes && n != s.leases[t].node ==> t !in s.nodes[n].running)
  }

  lemma LeasedIsHeldOnce(s: State, t: TaskId)
    requires Inv(s) && t in s.leases
    ensures HeldOnce(s, t)
  {
  }

  function RetryStatus(task: Task): TaskStatus {
    if task.attempts <= task.maxRetries then Pending else Failed
  }

  lemma ReleaseFrees(s: State, t: TaskId, reason: EndReason)
    requires HeldOnce(s, t) && Mirrored(s)
    ensures var s' := Release(s, t, reason);
            && s'.nodes.Keys == s.nodes.Keys
            && (forall n :: n in s.nodes ==> s'.nodes[n].running == s.nodes[n].running - {t})
            && Mirrored(s')
  {
    forall n | n in s.nodes && n != s.leases[t].node
      ensures s.nodes[n].running - {t} == s.nodes[n].running
    {
      assert t !in s.nodes[n].running;
    }
  }

  lemma RecoverOneEnds(s: State, t: TaskId, from: set<NodeId>)
    requires HeldOnce(s, t) && Mirrored(s) && s.leases[t].node in from
    ensures Ends(s, RecoverOne(s, t, from), t, RetryStatus(s.tasks[t]), Recovered)
    ensures Mirrored(RecoverOne(s, t, from))
  {
    ReleaseFrees(s, t, Recovered);
  }

  lemma RetryIsOneSave(s: State, t: TaskId)
    requires t in s.tasks && s.tasks[t].status == Running && t !in s.queue
    ensures var status := RetryStatus(s.tasks[t]);
            Retry(s, t) == SaveTask(s.(queue := if status == Pending then s.queue + [t] else s.queue), t,
                                    s.tasks[t].(status := status))
  {
    assert s.(queue := s.queue) == s;
  }

  lemma BumpedReleaseFrees(s: State, t: TaskId, reason: EndReason, n: NodeId)
    requires HeldOnce(s, t) && Mirrored(s)
    ensures var s' := BumpNode(Release(s, t, reason), n);
            && s'.nodes.Keys == s.nodes.Keys
            && (forall m :: m in s.nodes ==> s'.nodes[m].running == s.nodes[m].running - {t})
            && Mirrored(s')
  {
    ReleaseFrees(s, t, reason);
  }

  lemma ExpireOneEnds(s: State, t: TaskId, epoch: real)
    requires HeldOnce(s, t) && Mirrored(s) && s.leases[t].expiresAt <= epoch
    ensures Ends(s, ExpireOne(s, t, epoch), t, RetryStatus(s.tasks[t]), Expired)
  {
    BumpedReleaseFrees(s, t, Expired, s.leases[t].node);
    RetryIsOneSave(BumpNode(Release(s, t, Expired), s.leases[t].node), t);
  }

  lemma ExpireOneMirrors(s: State, t: TaskId, epoch: real)
    requires HeldOnce(s, t) && Mirrored(s) && s.leases[t].expiresAt <= epoch
    ensures Mirrored(ExpireOne(s, t, epoch))
  {
    BumpedReleaseFrees(s, t, Expired, s.leases[t].node);
    RetryIsOneSave(BumpNode(Release(s, t, Expired), s.leases[t].node), t);
  }

  function SettledStatus(task: Task, success: bool): TaskStatus {
    if success then Succeeded else RetryStatus(task)
  }

  lemma BookFrees(s: State, n: NodeId, t: TaskId)
    requires HeldOnce(s, t) && Mirrored(s) && s.leases[t].node == n
    ensures var b := Book(s, n, t);
            && b.tasks == s.tasks && b.queue == s.queue && b.leases == s.leases - {t} && b.nodes.Keys == s.nodes.Keys
            && forall m :: m in s.nodes ==> b.nodes[m].running == s.nodes[m].running - {t}
  {
    ReleaseFrees(s, t, ByResult);
  }

  lemma BookLogs(s: State, n: NodeId, t: TaskId)
    requires HeldOnce(s, t)
    ensures EndsLog(s, Book(s, n, t), t, ByResult)
  {
  }

  lemma SettleIsOneSave(s: State, t: TaskId, success: bool)
    requires t in s.tasks
    ensures var status := SettledStatus(s.tasks[t], success);
            Settle(s, t, success) == SaveTask(s.(queue := if status == Pending then s.queue + [t] else s.queue), t,
                                              s.tasks[t].(status := status))
  {
    var task := s.tasks[t];
    if !success && task.attempts <= task.maxRetries {
      assert SettledStatus(task, success) == Pending;
    } else {
      assert SettledStatus(task, success) == if success then Succeeded else Failed;
      assert s.(queue := s.queue) == s;
    }
  }

  lemma AcceptEndsWork(s: State, n: NodeId, t: TaskId, success: bool, result: Option<ResultId>)
    requires HeldOnce(s, t) && Mirrored(s) && s.leases[t].node == n
    ensures EndsWork(s, Accept(s, n, t, success, result), t, SettledStatus(s.tasks[t], success))
  {
    BookFrees(s, n, t);
    SettleIsOneSave(Book(s, n, t), t, success);
  }

  lemma AcceptEndsLog(s: State, n: NodeId, t: TaskId, success: bool, result: Option<ResultId>)
    requires HeldOnce(s, t) && s.leases[t].node == n
    ensures EndsLog(s, Accept(s, n, t, success, result), t, ByResult)
  {
    BookLogs(s, n, t);
    SettleIsOneSave(Book(s, n, t), t, success);
  }

  lemma AcceptEnds(s: State, n: NodeId, t: TaskId, success: bool, result: Option<ResultId>)
    requires HeldOnce(s, t) && Mirrored(s) && s.leases[t].node == n
    ensures Ends(s, Accept(s, n, t, success, result), t, SettledStatus(s.tasks[t], success), ByResult)
  {
    AcceptEndsWork(s, n, t, success, result);
    AcceptEndsLog(s, n, t, success, result);
  }

  lemma BookMirrors(s: State, n: NodeId, t: TaskId)
    requires HeldOnce(s, t) && Mirrored(s) && s.leases[t].node == n
    ensures Mirrored(Book(s, n, t)) && Book(s, n, t).tasks == s.tasks
  {
  }

  lemma SaveTaskMirrors(s: State, t: TaskId, task: Task, queue: seq<TaskId>)
    requires Mirrored(s)
    ensures Mirrored(SaveTask(s.(queue := queue), t, task))
  {
  }

  lemma SettleMirrors(s: State, t: TaskId, success: bool)
    requires Mirrored(s) && t in s.tasks
    ensures Mirrored(Settle(s, t, success))
  {
    SettleIsOneSave(s, t, success);
    var status := SettledStatus(s.tasks[t], success);
    SaveTaskMirrors(s, t, s.tasks[t].(status := status), if status == Pending then s.queue + [t] else s.queue);
  }

  lemma FileMirrors(s: State, r: Receipt)
    requires Mirrored(s)
    ensures Mirrored(FileReceipt(s, r))
  {
  }

  lemma AcceptMirrors(s: State, n: NodeId, t: TaskId, success: bool, result: Option<ResultId>)
    requires HeldOnce(s, t) && Mirrored(s) && s.leases[t].node == n
    ensures Mirrored(Accept(s, n, t, success, result))
  {
    var id := s.leases[t].id;
    BookMirrors(s, n, t);
    SettleMirrors(Book(s, n, t), t, success);
    FileMirrors(Settle(Book(s, n, t), t, success), Receipt(ResultIdOf(id, result), t, n, id, success));
  }

  lemma CancelFrees(s: State, t: TaskId)
    requires HeldOnce(s, t) && Mirrored(s)
    ensures var s' := ReleasedEverywhere(s, t);
            && s'.nodes.Keys == s.nodes.Keys
            && (forall n :: n in s.nodes ==> s'.nodes[n].running == s.nodes[n].running - {t})
            && Mirrored(s')
  {
    forall n | n in s.nodes && n != s.leases[t].node
      ensures s.nodes[n].running - {t} == s.nodes[n].running
    {
      assert t !in s.nodes[n].running;
    }
  }

  lemma CancelEnds(s: State, t: TaskId, requeue: bool)
    requires HeldOnce(s, t) && Mirrored(s)
    ensures Ends(s, CancelNow(s, t, requeue), t, if requeue then Pending else Failed, ByCancel)
  {
    CancelFrees(s, t);
  }

  lemma CancelMirrors(s: State, t: TaskId, requeue: bool)
    requires HeldOnce(s, t) && Mirrored(s)
    ensures Mirrored(CancelNow(s, t, requeue))
  {
    CancelFrees(s, t);
  }
}
