/** What single operations do to tasks, leases and nodes, said field by field: whom a sweep
    catches, what becomes of a task that loses its lease, and what a heartbeat, a result and a
    cancellation leave behind. */
module ProtocolEffects {
  import opened Common
  import opened Resources
  import opened Protocol
  import opened ProtocolSafety
  import opened ProtocolSteps

  // ----- losing leases

  /** Every lease is visited. */
  ghost predicate Visits(order: seq<TaskId>, leases: map<TaskId, Lease>) {
    forall t :: t in leases ==> t in order
  }

  /** A task that loses its lease is pending again while it has retries left, and has failed
      otherwise; any other task stays as it is. */
  ghost predicate TaskAfter(tasks: map<TaskId, Task>, tasks': map<TaskId, Task>, t: TaskId, ends: bool) {
    && (t in tasks' <==> t in tasks)
    && (t in tasks ==>
          tasks'[t] == if !ends then tasks[t]
                       else tasks[t].(status := if tasks[t].attempts <= tasks[t].maxRetries then Pending else Failed))
  }

  /** Exactly these leases end, and their tasks are retried or fail. */
  ghost predicate EndsExactly(s: State, s': State, ending: set<TaskId>) {
    forall t :: Leaves(s.leases, s'.leases, t, t in ending) && TaskAfter(s.tasks, s'.tasks, t, t in ending)
  }

  lemma EndTwice(a: State, b: State, c: State, first: set<TaskId>, second: set<TaskId>)
    requires EndsExactly(a, b, first) && EndsExactly(b, c, second) && first !! second
    ensures EndsExactly(a, c, first + second)
  {
    forall t
      ensures Leaves(a.leases, c.leases, t, t in first + second) && TaskAfter(a.tasks, c.tasks, t, t in first + second)
    {
      assert Leaves(a.leases, b.leases, t, t in first) && Leaves(b.leases, c.leases, t, t in second);
      assert TaskAfter(a.tasks, b.tasks, t, t in first) && TaskAfter(b.tasks, c.tasks, t, t in second);
    }
  }

  lemma AfterTwice(a: map<TaskId, Task>, b: map<TaskId, Task>, c: map<TaskId, Task>, t: TaskId, first: bool, second: bool)
    requires TaskAfter(a, b, t, first) && TaskAfter(b, c, t, second) && !(first && second)
    ensures TaskAfter(a, c, t, first || second)
  {
  }

  /** One task loses its lease, or nothing happens. */
  ghost predicate OneLoses(tasks: map<TaskId, Task>, tasks': map<TaskId, Task>, u: TaskId, loses: bool) {
    if loses then
      && u in tasks
      && tasks' == tasks[u := tasks[u].(status := if tasks[u].attempts <= tasks[u].maxRetries then Pending else Failed)]
    else tasks' == tasks
  }

  lemma OneLosesOnlyThat(tasks: map<TaskId, Task>, tasks': map<TaskId, Task>, u: TaskId, loses: bool, t: TaskId)
    requires OneLoses(tasks, tasks', u, loses)
    ensures TaskAfter(tasks, tasks', t, loses && u == t)
  {
  }

  lemma RetriedLoses(s: State, t: TaskId)
    requires t in s.tasks && s.tasks[t].status == Running
    ensures OneLoses(s.tasks, Retry(s, t).tasks, t, true)
  {
    var task := s.tasks[t];
    if task.attempts <= task.maxRetries {
      assert Retry(s, t).tasks == s.tasks[t := task.(status := Pending)];
    } else {
      assert Retry(s, t).tasks == s.tasks[t := task.(status := Failed)];
    }
  }

  lemma ReleaseKeepsTasks(s: State, t: TaskId, reason: EndReason)
    requires t in s.leases
    ensures Release(s, t, reason).tasks == s.tasks
  {
  }

  lemma BumpKeepsTasks(s: State, n: NodeId)
    ensures BumpNode(s, n).tasks == s.tasks
  {
  }

  lemma RecoverOneTask(s: State, u: TaskId, from: set<NodeId>)
    requires Inv(s)
    ensures OneLoses(s.tasks, RecoverOne(s, u, from).tasks, u, u in s.leases && s.leases[u].node in from)
  {
    if u in s.leases && s.leases[u].node in from {
      LeasedIsHeldOnce(s, u);
      ReleaseKeepsTasks(s, u, Recovered);
      RetriedLoses(Release(s, u, Recovered), u);
    }
  }

  /** What the rest of a recovery makes of a task. */
  ghost predicate RecoveredTask(s: State, order: seq<TaskId>, from: set<NodeId>, i: nat, t: TaskId)
    requires i <= |order|
  {
    TaskAfter(s.tasks, RecoverFrom(s, order, from, i).tasks, t,
              t in order[i..] && t in s.leases && s.leases[t].node in from)
  }

  lemma RecoveredEarlier(s: State, order: seq<TaskId>, from: set<NodeId>, i: nat, t: TaskId)
    requires i < |order| && RecoveredTask(RecoverOne(s, order[i], from), order, from, i + 1, t)
    requires OneLoses(s.tasks, RecoverOne(s, order[i], from).tasks, order[i],
                      order[i] in s.leases && s.leases[order[i]].node in from)
    ensures RecoveredTask(s, order, from, i, t)
  {
    var u, s1 := order[i], RecoverOne(s, order[i], from);
    var loses := u in s.leases && s.leases[u].node in from;
    OneLosesOnlyThat(s.tasks, s1.tasks, u, loses, t);
    RecoverOneLeases(s, u, from);
    AfterTwice(s.tasks, s1.tasks, RecoverFrom(s1, order, from, i + 1).tasks, t, loses && u == t,
               t in order[i + 1..] && t in s1.leases && s1.leases[t].node in from);
    assert order[i..] == [u] + order[i + 1..];
  }

  lemma {:induction false} RecoverFromTask(s: State, order: seq<TaskId>, from: set<NodeId>, i: nat, t: TaskId)
    requires Inv(s) && i <= |order|
    ensures RecoveredTask(s, order, from, i, t)
    decreases |order| - i
  {
    if i < |order| {
      RecoverOneKeepsInv(s, order[i], from);
      RecoverOneTask(s, order[i], from);
      RecoverFromTask(RecoverOne(s, order[i], from), order, from, i + 1, t);
      RecoveredEarlier(s, order, from, i, t);
    }
  }

  lemma ExpireOneTask(s: State, u: TaskId, epoch: real)
    requires Inv(s)
    ensures OneLoses(s.tasks, ExpireOne(s, u, epoch).tasks, u, u in s.leases && s.leases[u].expiresAt <= epoch)
  {
    if u in s.leases && s.leases[u].expiresAt <= epoch {
      var s1 := BumpNode(Release(s, u, Expired), s.leases[u].node);
      LeasedIsHeldOnce(s, u);
      ReleaseKeepsTasks(s, u, Expired);
      BumpKeepsTasks(Release(s, u, Expired), s.leases[u].node);
      RetriedLoses(s1, u);
    }
  }

  /** What the rest of an expiry pass makes of a task. */
  ghost predicate ExpiredTask(s: State, order: seq<TaskId>, epoch: real, i: nat, t: TaskId)
    requires i <= |order|
  {
    TaskAfter(s.tasks, ExpireFrom(s, order, epoch, i).tasks, t,
              t in order[i..] && t in s.leases && s.leases[t].expiresAt <= epoch)
  }

  lemma ExpiredEarlier(s: State, order: seq<TaskId>, epoch: real, i: nat, t: TaskId)
    requires i < |order| && ExpiredTask(ExpireOne(s, order[i], epoch), order, epoch, i + 1, t)
    requires OneLoses(s.tasks, ExpireOne(s, order[i], epoch).tasks, order[i],
                      order[i] in s.leases && s.leases[order[i]].expiresAt <= epoch)
    ensures ExpiredTask(s, order, epoch, i, t)
  {
    var u, s1 := order[i], ExpireOne(s, order[i], epoch);
    var loses := u in s.leases && s.leases[u].expiresAt <= epoch;
    OneLosesOnlyThat(s.tasks, s1.tasks, u, loses, t);
    ExpireOneLeases(s, u, epoch);
    AfterTwice(s.tasks, s1.tasks, ExpireFrom(s1, order, epoch, i + 1).tasks, t, loses && u == t,
               t in order[i + 1..] && t in s1.leases && s1.leases[t].expiresAt <= epoch);
    assert order[i..] == [u] + order[i + 1..];
  }

  lemma {:induction false} ExpireFromTask(s: State, order: seq<TaskId>, epoch: real, i: nat, t: TaskId)
    requires Inv(s) && i <= |order|
    ensures ExpiredTask(s, order, epoch, i, t)
    decreases |order| - i
  {
    if i < |order| {
      ExpireOneKeepsInv(s, order[i], epoch);
      ExpireOneTask(s, order[i], epoch);
      ExpireFromTask(ExpireOne(s, order[i], epoch), order, epoch, i + 1, t);
      ExpiredEarlier(s, order, epoch, i, t);
    }
  }

  // ----- the sweep

  ghost function HeldOn(leases: map<TaskId, Lease>, from: set<NodeId>): set<TaskId> {
    set t | t in leases && leases[t].node in from
  }

  ghost function RunOut(leases: map<TaskId, Lease>, epoch: real): set<TaskId> {
    set t | t in leases && leases[t].expiresAt <= epoch
  }

  lemma RecoverAllEnds(s: State, order: seq<TaskId>, from: set<NodeId>)
    requires Inv(s) && Visits(order, s.leases)
    ensures EndsExactly(s, RecoverAll(s, order, from), HeldOn(s.leases, from))
  {
    assert order[0..] == order;
    forall t
      ensures Leaves(s.leases, RecoverAll(s, order, from).leases, t, t in HeldOn(s.leases, from))
      ensures TaskAfter(s.tasks, RecoverAll(s, order, from).tasks, t, t in HeldOn(s.leases, from))
    {
      RecoverFromLeaves(s, order, from, 0, t);
      RecoverFromTask(s, order, from, 0, t);
    }
  }

  lemma ExpireAllEnds(s: State, order: seq<TaskId>, epoch: real)
    requires Inv(s) && Visits(order, s.leases)
    ensures EndsExactly(s, ExpireAll(s, order, epoch), RunOut(s.leases, epoch))
  {
    assert order[0..] == order;
    forall t
      ensures Leaves(s.leases, ExpireAll(s, order, epoch).leases, t, t in RunOut(s.leases, epoch))
      ensures TaskAfter(s.tasks, ExpireAll(s, order, epoch).tasks, t, t in RunOut(s.leases, epoch))
    {
      ExpireFromLeaves(s, order, epoch, 0, t);
      ExpireFromTask(s, order, epoch, 0, t);
    }
  }

  /** The heartbeat of the node is overdue. */
  ghost predicate Overdue(s: State, n: NodeId, mono: real) {
    && n in s.nodes
    && mono - (if n in s.lastSeen then s.lastSeen[n] else s.config.startedAt) > s.config.heartbeatTimeout
  }

  lemma StaleAreOverdue(s: State, mono: real, n: NodeId)
    ensures n in StaleNodes(s, mono) <==> Overdue(s, n, mono)
  {
  }

  /** The tasks whose node is overdue or whose lease has run out. */
  ghost function Dead(s: State, c: Clock): set<TaskId> {
    set t | t in s.leases && (Overdue(s, s.leases[t].node, c.mono) || s.leases[t].expiresAt <= c.epoch)
  }

  lemma StillVisits(order: seq<TaskId>, s: State, s': State, ending: set<TaskId>)
    requires Visits(order, s.leases) && EndsExactly(s, s', ending)
    ensures Visits(order, s'.leases)
  {
    forall t | t in s'.leases
      ensures t in order
    {
      assert Leaves(s.leases, s'.leases, t, t in ending);
    }
  }

  /** The first stage of a sweep: overdue nodes lose their leases. */
  lemma RecoveryStage(s: State, c: Clock, order: seq<TaskId>) returns (s2: State)
    requires Inv(s) && Visits(order, s.leases)
    ensures Inv(s2) && EndsExactly(s, s2, HeldOn(s.leases, StaleNodes(s, c.mono)))
    ensures Sweep(s, c, order) == ExpireAll(s2, order, c.epoch)
  {
    var stale := StaleNodes(s, c.mono);
    var s1 := MarkOffline(s, stale);
    MarkOfflineKeepsInv(s, stale);
    RecoverAllEnds(s1, order, stale);
    RecoverFromKeepsInv(s1, order, stale, 0);
    s2 := RecoverAll(s1, order, stale);
    SameWorkEnds(s, s1, s2, HeldOn(s.leases, stale));
  }

  lemma SameWorkEnds(s: State, s1: State, s2: State, ending: set<TaskId>)
    requires s1.tasks == s.tasks && s1.leases == s.leases && EndsExactly(s1, s2, ending)
    ensures EndsExactly(s, s2, ending)
  {
  }

  /** A sweep ends exactly the dead leases, and their tasks are retried or fail. */
  lemma SweepEffect(s: State, c: Clock, order: seq<TaskId>)
    requires Inv(s) && Visits(order, s.leases)
    ensures EndsExactly(s, Sweep(s, c, order), Dead(s, c))
  {
    var overdue := HeldOn(s.leases, StaleNodes(s, c.mono));
    var s2 := RecoveryStage(s, c, order);
    StillVisits(order, s, s2, overdue);
    ExpireAllEnds(s2, order, c.epoch);
    DeadInTwoSteps(s, c, s2);
    EndTwice(s, s2, ExpireAll(s2, order, c.epoch), overdue, RunOut(s2.leases, c.epoch));
  }

  lemma DeadInTwoSteps(s: State, c: Clock, s2: State)
    requires EndsExactly(s, s2, HeldOn(s.leases, StaleNodes(s, c.mono)))
    ensures Dead(s, c) == HeldOn(s.leases, StaleNodes(s, c.mono)) + RunOut(s2.leases, c.epoch)
    ensures HeldOn(s.leases, StaleNodes(s, c.mono)) !! RunOut(s2.leases, c.epoch)
  {
    var stale := StaleNodes(s, c.mono);
    forall t
      ensures t in Dead(s, c) <==> t in HeldOn(s.leases, stale) + RunOut(s2.leases, c.epoch)
      ensures !(t in HeldOn(s.leases, stale) && t in RunOut(s2.leases, c.epoch))
    {
      assert Leaves(s.leases, s2.leases, t, t in HeldOn(s.leases, stale));
    }
  }

  // ----- what leaves nodes on- or offline

  /** The same nodes, on- and offline as before. */
  ghost predicate SameLine(nodes: map<NodeId, Node>, nodes': map<NodeId, Node>) {
    nodes'.Keys == nodes.Keys && forall n :: n in nodes ==> nodes'[n].online == nodes[n].online
  }

  lemma SameLineIsTransitive(a: map<NodeId, Node>, b: map<NodeId, Node>, c: map<NodeId, Node>)
    requires SameLine(a, b) && SameLine(b, c)
    ensures SameLine(a, c)
  {
  }

  lemma PutKeepsLine(nodes: map<NodeId, Node>, n: NodeId, node: Node)
    requires n in nodes && node.online == nodes[n].online
    ensures SameLine(nodes, nodes[n := node])
  {
  }

  lemma ReleaseKeepsLine(s: State, t: TaskId, reason: EndReason)
    requires t in s.leases
    ensures SameLine(s.nodes, Release(s, t, reason).nodes)
  {
    var n := s.leases[t].node;
    if n in s.nodes {
      PutKeepsLine(s.nodes, n, s.nodes[n].(running := s.nodes[n].running - {t}));
    }
  }

  lemma RetryKeepsNodes(s: State, t: TaskId)
    ensures Retry(s, t).nodes == s.nodes
  {
    if t in s.tasks && s.tasks[t].status == Running && s.tasks[t].attempts <= s.tasks[t].maxRetries {
      assert Retry(s, t).nodes == s.nodes;
    }
  }

  lemma BumpKeepsLine(s: State, n: NodeId)
    ensures SameLine(s.nodes, BumpNode(s, n).nodes)
  {
    if n in s.nodes {
      PutKeepsLine(s.nodes, n, s.nodes[n].(version := s.nodes[n].version + 1));
    }
  }

  lemma {:induction false} RecoverFromKeepsLine(s: State, order: seq<TaskId>, from: set<NodeId>, i: nat)
    requires i <= |order|
    ensures SameLine(s.nodes, RecoverFrom(s, order, from, i).nodes)
    decreases |order| - i
  {
    if i < |order| {
      var t, s1 := order[i], RecoverOne(s, order[i], from);
      if t in s.leases && s.leases[t].node in from {
        ReleaseKeepsLine(s, t, Recovered);
        RetryKeepsNodes(Release(s, t, Recovered), t);
      }
      RecoverFromKeepsLine(s1, order, from, i + 1);
      SameLineIsTransitive(s.nodes, s1.nodes, RecoverFrom(s1, order, from, i + 1).nodes);
    }
  }

  lemma ExpireOneKeepsLine(s: State, t: TaskId, epoch: real)
    ensures SameLine(s.nodes, ExpireOne(s, t, epoch).nodes)
  {
    if t in s.leases && s.leases[t].expiresAt <= epoch {
      var s1 := Release(s, t, Expired);
      var s2 := BumpNode(s1, s.leases[t].node);
      ReleaseKeepsLine(s, t, Expired);
      BumpKeepsLine(s1, s.leases[t].node);
      RetryKeepsNodes(s2, t);
    }
  }

  lemma {:induction false} ExpireFromKeepsLine(s: State, order: seq<TaskId>, epoch: real, i: nat)
    requires i <= |order|
    ensures SameLine(s.nodes, ExpireFrom(s, order, epoch, i).nodes)
    decreases |order| - i
  {
    if i < |order| {
      var s1 := ExpireOne(s, order[i], epoch);
      ExpireOneKeepsLine(s, order[i], epoch);
      ExpireFromKeepsLine(s1, order, epoch, i + 1);
      SameLineIsTransitive(s.nodes, s1.nodes, ExpireFrom(s1, order, epoch, i + 1).nodes);
    }
  }

  /** A sweep turns off exactly the nodes whose heartbeat is overdue. */
  lemma SweepTurnsOffTheStale(s: State, c: Clock, order: seq<TaskId>)
    ensures Sweep(s, c, order).nodes.Keys == s.nodes.Keys
    ensures forall n :: n in s.nodes ==>
              (Sweep(s, c, order).nodes[n].online <==> s.nodes[n].online && n !in StaleNodes(s, c.mono))
  {
    var stale := StaleNodes(s, c.mono);
    var s1 := MarkOffline(s, stale);
    var s2 := RecoverAll(s1, order, stale);
    RecoverFromKeepsLine(s1, order, stale, 0);
    ExpireFromKeepsLine(s2, order, c.epoch, 0);
    SameLineIsTransitive(s1.nodes, s2.nodes, ExpireFrom(s2, order, c.epoch, 0).nodes);
  }

  // ----- a result and a cancellation

  /** After an accepted result the task has succeeded, or is at the end of the queue while it has
      retries left, or has failed; its lease is gone and its node is free. */
  lemma ResultEffect(s: State, n: NodeId, t: TaskId, success: bool, held: Option<LeaseId>, result: Option<ResultId>)
    requires Inv(s) && Accepts(s, n, t, held, result)
    ensures EndsWork(s, Accept(s, n, t, success, result), t,
                     if success then Succeeded else if s.tasks[t].attempts <= s.tasks[t].maxRetries then Pending else Failed)
  {
    LeasedIsHeldOnce(s, t);
    AcceptEndsWork(s, n, t, success, result);
  }

  /** Cancelling a leased task frees it at once; the operator decides what becomes of it. */
  lemma CancelEffect(s: State, t: TaskId, requeue: bool)
    requires Inv(s) && t in s.leases
    ensures t in s.tasks && EndsWork(s, CancelNow(s, t, requeue), t, if requeue then Pending else Failed)
  {
    LeasedIsHeldOnce(s, t);
    CancelEnds(s, t, requeue);
  }

  // ----- a heartbeat

  lemma RetryKeepsSeen(s: State, t: TaskId)
    ensures Retry(s, t).lastSeen == s.lastSeen
  {
    if t in s.tasks && s.tasks[t].status == Running && s.tasks[t].attempts <= s.tasks[t].maxRetries {
      assert Retry(s, t).lastSeen == s.lastSeen;
    }
  }

  lemma ReleaseKeepsSeen(s: State, t: TaskId, reason: EndReason, n: NodeId)
    requires t in s.leases
    ensures Release(s, t, reason).lastSeen == s.lastSeen && BumpNode(Release(s, t, reason), n).lastSeen == s.lastSeen
  {
  }

  lemma {:induction false} RecoverFromKeepsSeen(s: State, order: seq<TaskId>, from: set<NodeId>, i: nat)
    requires i <= |order|
    ensures RecoverFrom(s, order, from, i).lastSeen == s.lastSeen
    decreases |order| - i
  {
    if i < |order| {
      var t := order[i];
      if t in s.leases && s.leases[t].node in from {
        ReleaseKeepsSeen(s, t, Recovered, s.leases[t].node);
        RetryKeepsSeen(Release(s, t, Recovered), t);
      }
      RecoverFromKeepsSeen(RecoverOne(s, t, from), order, from, i + 1);
    }
  }

  lemma {:induction false} ExpireFromKeepsSeen(s: State, order: seq<TaskId>, epoch: real, i: nat)
    requires i <= |order|
    ensures ExpireFrom(s, order, epoch, i).lastSeen == s.lastSeen
    decreases |order| - i
  {
    if i < |order| {
      var t := order[i];
      if t in s.leases && s.leases[t].expiresAt <= epoch {
        ReleaseKeepsSeen(s, t, Expired, s.leases[t].node);
        RetryKeepsSeen(BumpNode(Release(s, t, Expired), s.leases[t].node), t);
      }
      ExpireFromKeepsSeen(ExpireOne(s, t, epoch), order, epoch, i + 1);
    }
  }

  lemma SweepKeepsSeen(s: State, c: Clock, order: seq<TaskId>)
    ensures Sweep(s, c, order).lastSeen == s.lastSeen
  {
    var stale := StaleNodes(s, c.mono);
    var s1 := MarkOffline(s, stale);
    RecoverFromKeepsSeen(s1, order, stale, 0);
    ExpireFromKeepsSeen(RecoverAll(s1, order, stale), order, c.epoch, 0);
  }

  /** Nothing is left of the node's leases. */
  ghost predicate Emptied(s: State, n: NodeId) {
    n in s.nodes && s.nodes[n].running == map[] && forall t :: t in s.leases ==> s.leases[t].node != n
  }

  /** What a heartbeat of a known node does: the node has been seen, and is on- or offline as it
      said. Besides the leases that the sweep ends, a node that says it is offline loses all of its
      own, and nothing stays allocated on it; all other leases and tasks are as before. */
  ghost predicate NotesBeat(s: State, s': State, n: NodeId, online: bool, c: Clock) {
    && n in s'.nodes && s'.nodes[n].online == online
    && s'.lastSeen == s.lastSeen[n := c.mono]
    && EndsExactly(s, s', Dead(s, c) + if online then {} else HeldOn(s.leases, {n}))
    && (!online ==> Emptied(s', n))
  }

  lemma HeartbeatEffect(s: State, n: NodeId, online: bool, c: Clock, order: seq<TaskId>)
    requires Inv(s) && Visits(order, s.leases) && n in s.nodes
    ensures NotesBeat(s, Heartbeat(s, n, online, c, order), n, online, c)
  {
    var s1 := Sweep(s, c, order);
    SweepTurnsOffTheStale(s, c, order);
    SweepKeepsSeen(s, c, order);
    SweepKeepsInv(s, c, order);
    SweepEffect(s, c, order);
    StillVisits(order, s, s1, Dead(s, c));
    BeatEffect(s1, n, online, c.mono, order);
    BeatAfterSweep(s, s1, Heartbeat(s, n, online, c, order), n, online, c);
  }

  /** What the writes of a heartbeat do, without its sweep. */
  ghost predicate Beats(s: State, s': State, n: NodeId, online: bool, mono: real) {
    && n in s'.nodes && s'.nodes[n].online == online
    && s'.lastSeen == s.lastSeen[n := mono]
    && EndsExactly(s, s', if online then {} else HeldOn(s.leases, {n}))
    && (!online ==> Emptied(s', n))
  }

  lemma BeatEffect(s: State, n: NodeId, online: bool, mono: real, order: seq<TaskId>)
    requires Inv(s) && Visits(order, s.leases) && n in s.nodes
    ensures Beats(s, PersistVersion(if online then Beat(s, n, online, mono) else RecoverAll(Beat(s, n, online, mono), order, {n})),
                  n, online, mono)
  {
    var s2 := Beat(s, n, online, mono);
    BeatIsPlain(s, n, online, mono);
    if online {
      PersistingKeepsBeat(s, s2, n, online, mono);
    } else {
      BeatKeepsInv(s, n, online, mono);
      OfflineBeat(s, s2, n, mono, order);
      PersistingKeepsBeat(s, RecoverAll(s2, order, {n}), n, online, mono);
    }
  }

  lemma PersistingKeepsBeat(s: State, s': State, n: NodeId, online: bool, mono: real)
    requires Beats(s, s', n, online, mono)
    ensures Beats(s, PersistVersion(s'), n, online, mono)
  {
  }

  lemma BeatIsPlain(s: State, n: NodeId, online: bool, mono: real)
    requires n in s.nodes
    ensures var s2 := Beat(s, n, online, mono);
            && n in s2.nodes && s2.nodes[n].online == online && s2.lastSeen == s.lastSeen[n := mono]
            && s2.tasks == s.tasks && s2.leases == s.leases && EndsExactly(s, s2, {})
  {
  }

  lemma OfflineBeat(s: State, s2: State, n: NodeId, mono: real, order: seq<TaskId>)
    requires Inv(s2) && Visits(order, s2.leases) && s2.tasks == s.tasks && s2.leases == s.leases
    requires n in s2.nodes && !s2.nodes[n].online && s2.lastSeen == s.lastSeen[n := mono]
    ensures Beats(s, RecoverAll(s2, order, {n}), n, false, mono)
  {
    var s3 := RecoverAll(s2, order, {n});
    RecoverFromKeepsLine(s2, order, {n}, 0);
    RecoverFromKeepsSeen(s2, order, {n}, 0);
    RecoverFromKeepsInv(s2, order, {n}, 0);
    RecoverAllEnds(s2, order, {n});
    SameWorkEnds(s, s2, s3, HeldOn(s.leases, {n}));
    UnheldIsEmpty(s, s3, n);
  }

  lemma NothingPlaced(tasks: map<TaskId, Task>, leases: map<TaskId, Lease>, nodes: map<NodeId, Node>, n: NodeId)
    requires Placed(tasks, leases, nodes) && n in nodes && forall t :: t in leases ==> leases[t].node != n
    ensures nodes[n].running == map[]
  {
    assert forall t :: t !in nodes[n].running;
  }

  lemma UnheldIsEmpty(s: State, s': State, n: NodeId)
    requires Inv(s') && EndsExactly(s, s', HeldOn(s.leases, {n})) && n in s'.nodes
    ensures Emptied(s', n)
  {
    forall t | t in s'.leases
      ensures s'.leases[t].node != n
    {
      assert Leaves(s.leases, s'.leases, t, t in HeldOn(s.leases, {n}));
    }
    NothingPlaced(s'.tasks, s'.leases, s'.nodes, n);
  }

  lemma BeatAfterSweep(s: State, s1: State, s': State, n: NodeId, online: bool, c: Clock)
    requires EndsExactly(s, s1, Dead(s, c)) && s1.lastSeen == s.lastSeen && Beats(s1, s', n, online, c.mono)
    ensures NotesBeat(s, s', n, online, c)
  {
    var own, own1 := if online then {} else HeldOn(s.leases, {n}), if online then {} else HeldOn(s1.leases, {n});
    OwnAfterSweep(s, s1, Dead(s, c), {n});
    EndTwice(s, s1, s', Dead(s, c), own1);
    assert Dead(s, c) + own1 == Dead(s, c) + own;
  }

  lemma OwnAfterSweep(s: State, s1: State, dead: set<TaskId>, from: set<NodeId>)
    requires EndsExactly(s, s1, dead)
    ensures HeldOn(s1.leases, from) == HeldOn(s.leases, from) - dead
  {
    forall t
      ensures t in HeldOn(s1.leases, from) <==> t in HeldOn(s.leases, from) - dead
    {
      assert Leaves(s.leases, s1.leases, t, t in dead);
    }
  }
}
