/** Every operation of the control plane keeps the invariant of the lease protocol. */
module ProtocolSteps {
  import opened Common
  import opened Resources
  import opened Protocol
  import opened ProtocolSafety

  // ----- the sweep

  lemma MarkOfflineKeepsInv(s: State, stale: set<NodeId>)
    requires Inv(s)
    ensures Inv(MarkOffline(s, stale))
  {
    SameWorkKeepsInv(s, MarkOffline(s, stale));
  }

  lemma RecoverOneKeepsInv(s: State, t: TaskId, from: set<NodeId>)
    requires Inv(s)
    ensures Inv(RecoverOne(s, t, from))
  {
    if t in s.leases && s.leases[t].node in from {
      LeasedIsHeldOnce(s, t);
      RecoverOneEnds(s, t, from);
      EndKeepsInv(s, RecoverOne(s, t, from), t, RetryStatus(s.tasks[t]), Recovered);
    }
  }

  lemma {:induction false} RecoverFromKeepsInv(s: State, order: seq<TaskId>, from: set<NodeId>, i: nat)
    requires Inv(s) && i <= |order|
    ensures Inv(RecoverFrom(s, order, from, i))
    decreases |order| - i
  {
    if i < |order| {
      RecoverOneKeepsInv(s, order[i], from);
      RecoverFromKeepsInv(RecoverOne(s, order[i], from), order, from, i + 1);
    }
  }

  lemma ExpireOneKeepsInv(s: State, t: TaskId, epoch: real)
    requires Inv(s)
    ensures Inv(ExpireOne(s, t, epoch))
  {
    if t in s.leases && s.leases[t].expiresAt <= epoch {
      LeasedIsHeldOnce(s, t);
      ExpireOneEnds(s, t, epoch);
      ExpireOneMirrors(s, t, epoch);
      EndKeepsInv(s, ExpireOne(s, t, epoch), t, RetryStatus(s.tasks[t]), Expired);
    }
  }

  lemma {:induction false} ExpireFromKeepsInv(s: State, order: seq<TaskId>, epoch: real, i: nat)
    requires Inv(s) && i <= |order|
    ensures Inv(ExpireFrom(s, order, epoch, i))
    decreases |order| - i
  {
    if i < |order| {
      ExpireOneKeepsInv(s, order[i], epoch);
      ExpireFromKeepsInv(ExpireOne(s, order[i], epoch), order, epoch, i + 1);
    }
  }

  lemma PersistVersionKeepsInv(s: State)
    requires Inv(s)
    ensures Inv(PersistVersion(s))
  {
    SameWorkKeepsInv(s, PersistVersion(s));
  }

  lemma SweepKeepsInv(s: State, c: Clock, order: seq<TaskId>)
    requires Inv(s)
    ensures Inv(Sweep(s, c, order))
  {
    var stale := StaleNodes(s, c.mono);
    var s1 := MarkOffline(s, stale);
    MarkOfflineKeepsInv(s, stale);
    var s2 := RecoverAll(s1, order, stale);
    RecoverFromKeepsInv(s1, order, stale, 0);
    var s3 := ExpireFrom(s2, order, c.epoch, 0);
    ExpireFromKeepsInv(s2, order, c.epoch, 0);
    PersistVersionKeepsInv(s3);
  }

  lemma RetryKeepsLog(s: State, t: TaskId)
    ensures Retry(s, t).log == s.log
  {
  }

  lemma ReleaseIssuesNothing(s: State, t: TaskId, reason: EndReason)
    requires t in s.leases
    ensures Release(s, t, reason).log.issued == s.log.issued
  {
  }

  lemma RecoverOneIssuesNothing(s: State, t: TaskId, from: set<NodeId>)
    ensures RecoverOne(s, t, from).log.issued == s.log.issued
  {
    if t in s.leases && s.leases[t].node in from {
      ReleaseIssuesNothing(s, t, Recovered);
      RetryKeepsLog(Release(s, t, Recovered), t);
    }
  }

  lemma ExpireOneIssuesNothing(s: State, t: TaskId, epoch: real)
    ensures ExpireOne(s, t, epoch).log.issued == s.log.issued
  {
    if t in s.leases && s.leases[t].expiresAt <= epoch {
      var s1 := Release(s, t, Expired);
      ReleaseIssuesNothing(s, t, Expired);
      RetryKeepsLog(BumpNode(s1, s.leases[t].node), t);
    }
  }

  lemma {:induction false} RecoverFromIssuesNothing(s: State, order: seq<TaskId>, from: set<NodeId>, i: nat)
    requires i <= |order|
    ensures RecoverFrom(s, order, from, i).log.issued == s.log.issued
    decreases |order| - i
  {
    if i < |order| {
      RecoverOneIssuesNothing(s, order[i], from);
      RecoverFromIssuesNothing(RecoverOne(s, order[i], from), order, from, i + 1);
    }
  }

  lemma {:induction false} ExpireFromIssuesNothing(s: State, order: seq<TaskId>, epoch: real, i: nat)
    requires i <= |order|
    ensures ExpireFrom(s, order, epoch, i).log.issued == s.log.issued
    decreases |order| - i
  {
    if i < |order| {
      ExpireOneIssuesNothing(s, order[i], epoch);
      ExpireFromIssuesNothing(ExpireOne(s, order[i], epoch), order, epoch, i + 1);
    }
  }

  /** A sweep issues nothing, so an identifier that was fresh before stays fresh. */
  lemma SweepIssuesNothing(s: State, c: Clock, order: seq<TaskId>)
    ensures Sweep(s, c, order).log.issued == s.log.issued
  {
    var stale := StaleNodes(s, c.mono);
    var s1 := MarkOffline(s, stale);
    RecoverFromIssuesNothing(s1, order, stale, 0);
    ExpireFromIssuesNothing(RecoverAll(s1, order, stale), order, c.epoch, 0);
  }

  // ----- operations

  lemma SubmitKeepsWork(tasks: map<TaskId, Task>, queue: seq<TaskId>, leases: map<TaskId, Lease>,
                        nodes: map<NodeId, Node>, t: TaskId, task: Task)
    requires Queued(tasks, queue) && LeasedIffRunning(tasks, leases) && Placed(tasks, leases, nodes)
    requires t !in tasks && task.status == Pending
    ensures Queued(tasks[t := task], queue + [t]) && LeasedIffRunning(tasks[t := task], leases)
    ensures Placed(tasks[t := task], leases, nodes)
  {
  }

  lemma SubmitKeepsInv(s: State, t: TaskId, task: Task)
    requires Inv(s) && task.status == Pending && task.attempts == 0
    ensures Inv(Submit(s, t, task))
  {
    if t !in s.tasks {
      SubmitKeepsWork(s.tasks, s.queue, s.leases, s.nodes, t, task);
    }
  }

  lemma RegisterKeepsInv(s: State, n: NodeId, capacity: ResourceVector, nodeVersion: int, mono: real)
    requires Inv(s)
    ensures Inv(Register(s, n, capacity, nodeVersion, mono))
  {
    SameWorkKeepsInv(s, Register(s, n, capacity, nodeVersion, mono));
  }

  lemma BeatKeepsInv(s: State, n: NodeId, online: bool, mono: real)
    requires Inv(s) && n in s.nodes
    ensures Inv(Beat(s, n, online, mono))
  {
    SameWorkKeepsInv(s, Beat(s, n, online, mono));
  }

  lemma HeartbeatKeepsInv(s: State, n: NodeId, online: bool, c: Clock, order: seq<TaskId>)
    requires Inv(s)
    ensures Inv(Heartbeat(s, n, online, c, order))
  {
    SweepKeepsInv(s, c, order);
    var s1 := Sweep(s, c, order);
    if n in s1.nodes {
      BeatKeepsInv(s1, n, online, c.mono);
      var s2 := Beat(s1, n, online, c.mono);
      RecoverFromKeepsInv(s2, order, {n}, 0);
      PersistVersionKeepsInv(if online then s2 else RecoverAll(s2, order, {n}));
    }
  }

  lemma ScheduleKeepsInv(s: State, t: TaskId, pick: Option<NodeId>, lease: LeaseId, c: Clock, order: seq<TaskId>)
    requires Inv(s) && Fresh(s.log, lease)
    ensures Inv(Schedule(s, t, pick, lease, c, order))
  {
    SweepKeepsInv(s, c, order);
    SweepIssuesNothing(s, c, order);
    var s1 := Sweep(s, c, order);
    if Grants(s1, t, pick) {
      ActivateKeepsInv(s1, t, pick.value, lease, c.epoch);
    }
  }

  lemma OfferKeepsInv(s: State, n: NodeId, ordered: seq<TaskId>, picks: map<TaskId, NodeId>,
                      lease: LeaseId, epoch: real)
    requires Inv(s) && Fresh(s.log, lease)
    ensures Inv(Offer(s, n, ordered, picks, lease, epoch))
  {
    var grant := FirstGrant(s, ordered, n, picks);
    FirstGrantMayGrant(s, ordered, n, picks);
    if n in s.nodes && grant.Some? {
      ActivateKeepsInv(s, grant.value, n, lease, epoch);
    }
  }

  lemma RequestKeepsInv(s: State, n: NodeId, ordered: seq<TaskId>, picks: map<TaskId, NodeId>,
                        lease: LeaseId, c: Clock, order: seq<TaskId>)
    requires Inv(s) && Fresh(s.log, lease)
    ensures Inv(Request(s, n, ordered, picks, lease, c, order))
  {
    SweepKeepsInv(s, c, order);
    SweepIssuesNothing(s, c, order);
    OfferKeepsInv(Sweep(s, c, order), n, ordered, picks, lease, c.epoch);
  }

  lemma RenewalKeepsInv(s: State, t: TaskId, lease: Lease)
    requires Inv(s) && t in s.leases && lease.id == s.leases[t].id && lease.node == s.leases[t].node
    ensures Inv(SaveLease(s, t, lease))
  {
    RenewalKeepsPlacement(s.leases, s.nodes, t, lease);
    SameWorkKeepsInv(s, SaveLease(s, t, lease));
  }

  lemma RenewalKeepsPlacement(leases: map<TaskId, Lease>, nodes: map<NodeId, Node>, t: TaskId, lease: Lease)
    requires t in leases && lease.id == leases[t].id && lease.node == leases[t].node
    ensures SamePlacement(leases, nodes, leases[t := lease], nodes)
  {
  }

  lemma SightingKeepsInv(s: State, n: NodeId, mono: real)
    requires Inv(s)
    ensures Inv(s.(lastSeen := s.lastSeen[n := mono]))
  {
    SameWorkKeepsInv(s, s.(lastSeen := s.lastSeen[n := mono]));
  }

  lemma AcknowledgeKeepsInv(s: State, n: NodeId, t: TaskId, lease: LeaseId, epoch: real)
    requires Inv(s)
    ensures Inv(Acknowledge(s, n, t, lease, epoch))
  {
    if Fenced(s, n, t, Some(lease)) {
      RenewalKeepsInv(s, t, Renewed(s.config, s.leases[t], epoch));
    }
  }

  lemma ProgressKeepsInv(s: State, n: NodeId, t: TaskId, lease: Option<LeaseId>, c: Clock, order: seq<TaskId>)
    requires Inv(s)
    ensures Inv(Progress(s, n, t, lease, c, order))
  {
    SweepKeepsInv(s, c, order);
    var s1 := Sweep(s, c, order);
    if Fenced(s1, n, t, lease) {
      var s2 := SaveLease(s1, t, Renewed(s.config, s1.leases[t], c.epoch));
      RenewalKeepsInv(s1, t, s2.leases[t]);
      SightingKeepsInv(s2, n, c.mono);
    }
  }

  lemma AcceptKeepsInv(s: State, n: NodeId, t: TaskId, success: bool, result: Option<ResultId>)
    requires Inv(s) && t in s.leases && t in s.tasks && s.leases[t].node == n
    ensures Inv(Accept(s, n, t, success, result))
  {
    LeasedIsHeldOnce(s, t);
    AcceptEnds(s, n, t, success, result);
    AcceptMirrors(s, n, t, success, result);
    EndKeepsInv(s, Accept(s, n, t, success, result), t, SettledStatus(s.tasks[t], success), ByResult);
  }

  lemma ReportKeepsInv(s: State, n: NodeId, t: TaskId, success: bool, lease: Option<LeaseId>,
                       result: Option<ResultId>, c: Clock, order: seq<TaskId>)
    requires Inv(s)
    ensures Inv(Report(s, n, t, success, lease, result, c, order))
  {
    SweepKeepsInv(s, c, order);
    var s1 := Sweep(s, c, order);
    if Accepts(s1, n, t, lease, result) {
      AcceptKeepsInv(s1, n, t, success, result);
    }
  }

  lemma UnleasedOccupiesNothing(tasks: map<TaskId, Task>, leases: map<TaskId, Lease>, nodes: map<NodeId, Node>, t: TaskId)
    requires LeasedIffRunning(tasks, leases) && Placed(tasks, leases, nodes) && t !in leases
    ensures forall n :: n in nodes ==> t !in nodes[n].running
    ensures !(t in tasks && tasks[t].status == Running)
  {
  }

  /** Cancelling a task without a lease changes nothing. */
  lemma CancelWithoutLease(s: State, t: TaskId, requeue: bool)
    requires Mirrored(s) && t !in s.leases && !(t in s.tasks && s.tasks[t].status == Running)
    requires forall n :: n in s.nodes ==> t !in s.nodes[n].running
    ensures CancelNow(s, t, requeue) == s
  {
    assert s.leases - {t} == s.leases;
    assert FreedEverywhere(s, t) == map[];
  }

  lemma CancelNowKeepsInv(s: State, t: TaskId, requeue: bool)
    requires Inv(s)
    ensures Inv(CancelNow(s, t, requeue))
  {
    if t in s.leases {
      LeasedIsHeldOnce(s, t);
      CancelEnds(s, t, requeue);
      CancelMirrors(s, t, requeue);
      EndKeepsInv(s, CancelNow(s, t, requeue), t, if requeue then Pending else Failed, ByCancel);
    } else {
      UnleasedOccupiesNothing(s.tasks, s.leases, s.nodes, t);
      CancelWithoutLease(s, t, requeue);
    }
  }

  lemma CancelKeepsInv(s: State, t: TaskId, requeue: bool, c: Clock, order: seq<TaskId>)
    requires Inv(s)
    ensures Inv(Cancel(s, t, requeue, c, order))
  {
    SweepKeepsInv(s, c, order);
    CancelNowKeepsInv(Sweep(s, c, order), t, requeue);
  }

  // ----- what a sweep achieves

  /** The leases that ending some of them leaves. */
  ghost predicate Leaves(leases: map<TaskId, Lease>, leases': map<TaskId, Lease>, t: TaskId, ends: bool) {
    (t in leases' <==> t in leases && !ends) && (t in leases' ==> leases'[t] == leases[t])
  }

  lemma RetryKeepsLeases(s: State, t: TaskId)
    ensures Retry(s, t).leases == s.leases
  {
  }

  lemma ReleaseDropsLease(s: State, t: TaskId, reason: EndReason)
    requires t in s.leases
    ensures Release(s, t, reason).leases == s.leases - {t}
  {
  }

  lemma RecoverOneLeases(s: State, t: TaskId, from: set<NodeId>)
    ensures RecoverOne(s, t, from).leases == if t in s.leases && s.leases[t].node in from then s.leases - {t} else s.leases
  {
    if t in s.leases && s.leases[t].node in from {
      ReleaseDropsLease(s, t, Recovered);
      RetryKeepsLeases(Release(s, t, Recovered), t);
    }
  }

  lemma ExpireOneLeases(s: State, t: TaskId, epoch: real)
    ensures ExpireOne(s, t, epoch).leases == if t in s.leases && s.leases[t].expiresAt <= epoch then s.leases - {t} else s.leases
  {
    if t in s.leases && s.leases[t].expiresAt <= epoch {
      ReleaseDropsLease(s, t, Expired);
      RetryKeepsLeases(BumpNode(Release(s, t, Expired), s.leases[t].node), t);
    }
  }

  lemma {:induction false} RecoverFromLeaves(s: State, order: seq<TaskId>, from: set<NodeId>, i: nat, t: TaskId)
    requires i <= |order|
    ensures Leaves(s.leases, RecoverFrom(s, order, from, i).leases, t,
                   t in order[i..] && t in s.leases && s.leases[t].node in from)
    decreases |order| - i
  {
    if i < |order| {
      RecoverOneLeases(s, order[i], from);
      RecoverFromLeaves(RecoverOne(s, order[i], from), order, from, i + 1, t);
      assert order[i..] == [order[i]] + order[i + 1..];
    }
  }

  lemma {:induction false} ExpireFromLeaves(s: State, order: seq<TaskId>, epoch: real, i: nat, t: TaskId)
    requires i <= |order|
    ensures Leaves(s.leases, ExpireFrom(s, order, epoch, i).leases, t,
                   t in order[i..] && t in s.leases && s.leases[t].expiresAt <= epoch)
    decreases |order| - i
  {
    if i < |order| {
      ExpireOneLeases(s, order[i], epoch);
      ExpireFromLeaves(ExpireOne(s, order[i], epoch), order, epoch, i + 1, t);
      assert order[i..] == [order[i]] + order[i + 1..];
    }
  }

  /** A sweep that visits every lease ends exactly those that have expired or sit on a node
      whose heartbeat is overdue, and leaves the others as they are. */
  lemma SweepEndsExactlyTheDead(s: State, c: Clock, order: seq<TaskId>, t: TaskId)
    requires forall u :: u in s.leases ==> u in order
    ensures Leaves(s.leases, Sweep(s, c, order).leases, t,
                   t in s.leases && (s.leases[t].node in StaleNodes(s, c.mono) || s.leases[t].expiresAt <= c.epoch))
  {
    var stale := StaleNodes(s, c.mono);
    var s1 := MarkOffline(s, stale);
    RecoverFromLeaves(s1, order, stale, 0, t);
    ExpireFromLeaves(RecoverAll(s1, order, stale), order, c.epoch, 0, t);
    assert order[0..] == order;
  }
}
