/** Results that are sent again, at any later time: how long the control plane still knows the
    receipt, and exactly when a repeat is taken for a new result. */
module ProtocolReplay {
  import opened Common
  import opened Resources
  import opened Protocol
  import opened ProtocolSafety
  import opened ProtocolSteps
  import opened ProtocolRuns
  import opened ProtocolHistory

  // ----- the list of receipts

  /** Where the receipt of a result stands in the list. */
  function Position(receipts: seq<Receipt>, id: ResultId): (p: nat)
    requires FindReceipt(receipts, id).Some?
    ensures p < |receipts|
  {
    if receipts[0].result == id then 0 else 1 + Position(receipts[1..], id)
  }

  /** How many more receipts can be filed before this one is pruned. */
  function Life(receipts: seq<Receipt>, id: ResultId): int
    requires FindReceipt(receipts, id).Some?
  {
    Position(receipts, id) + MAX_RECEIPTS - |receipts|
  }

  lemma {:induction false} PutKeepsOthers(receipts: seq<Receipt>, r: Receipt, id: ResultId)
    requires FindReceipt(receipts, id).Some? && r.result != id
    ensures FindReceipt(PutReceipt(receipts, r), id) == FindReceipt(receipts, id)
    ensures Position(PutReceipt(receipts, r), id) == Position(receipts, id)
    ensures |PutReceipt(receipts, r)| <= |receipts| + 1
  {
    if receipts[0].result == r.result {
      assert PutReceipt(receipts, r)[1..] == receipts[1..];
    } else {
      assert PutReceipt(receipts, r)[1..] == PutReceipt(receipts[1..], r);
      if receipts[0].result == id {
        PutLength(receipts[1..], r);
      } else {
        PutKeepsOthers(receipts[1..], r, id);
      }
    }
  }

  lemma {:induction false} PutLength(receipts: seq<Receipt>, r: Receipt)
    ensures |PutReceipt(receipts, r)| <= |receipts| + 1
  {
    if receipts != [] && receipts[0].result != r.result {
      PutLength(receipts[1..], r);
    }
  }

  /** Filing another receipt costs the others at most one. */
  lemma FilingKeepsOthers(receipts: seq<Receipt>, r: Receipt, id: ResultId)
    requires FindReceipt(receipts, id).Some? && r.result != id && Life(receipts, id) >= 1
    ensures var filed := Retained(PutReceipt(receipts, r));
            && FindReceipt(filed, id) == FindReceipt(receipts, id)
            && Life(filed, id) >= Life(receipts, id) - 1
  {
    PutKeepsOthers(receipts, r, id);
  }

  /** A receipt under a known identifier takes the place of the old one. */
  lemma {:induction false} PutReplaces(receipts: seq<Receipt>, r: Receipt)
    requires FindReceipt(receipts, r.result).Some?
    ensures FindReceipt(PutReceipt(receipts, r), r.result) == Some(r)
    ensures Position(PutReceipt(receipts, r), r.result) == Position(receipts, r.result)
    ensures |PutReceipt(receipts, r)| == |receipts|
  {
    if receipts[0].result != r.result {
      PutReplaces(receipts[1..], r);
      assert PutReceipt(receipts, r)[1..] == PutReceipt(receipts[1..], r);
    }
  }

  lemma FilingReplaces(receipts: seq<Receipt>, r: Receipt)
    requires FindReceipt(receipts, r.result).Some? && (Life(receipts, r.result) >= 1 || |receipts| <= MAX_RECEIPTS)
    ensures var filed := Retained(PutReceipt(receipts, r));
            FindReceipt(filed, r.result) == Some(r) && Life(filed, r.result) == Life(receipts, r.result)
  {
    PutReplaces(receipts, r);
  }

  lemma {:induction false} PutNewIsLast(receipts: seq<Receipt>, r: Receipt)
    requires FindReceipt(receipts, r.result).None?
    ensures PutReceipt(receipts, r) == receipts + [r]
    ensures FindReceipt(receipts + [r], r.result) == Some(r) && Position(receipts + [r], r.result) == |receipts|
  {
    if receipts != [] {
      PutNewIsLast(receipts[1..], r);
      assert (receipts + [r])[1..] == receipts[1..] + [r];
    }
  }

  lemma DroppedHasNone(receipts: seq<Receipt>, id: ResultId)
    requires receipts != [] && FindReceipt(receipts, id).None?
    ensures FindReceipt(receipts[1..], id).None?
  {
  }

  /** A new receipt outlives all but the last of the next 2000 filings. */
  lemma NewReceiptLives(receipts: seq<Receipt>, r: Receipt)
    requires FindReceipt(receipts, r.result).None?
    ensures var filed := Retained(PutReceipt(receipts, r));
            FindReceipt(filed, r.result) == Some(r) && Life(filed, r.result) == MAX_RECEIPTS - 1
  {
    PutNewIsLast(receipts, r);
    if |receipts| + 1 > MAX_RECEIPTS {
      DroppedHasNone(receipts, r.result);
      PutNewIsLast(receipts[1..], r);
      assert (receipts + [r])[1..] == receipts[1..] + [r];
    }
  }

  // ----- receipts over a run

  lemma AcceptFiles(s: State, n: NodeId, t: TaskId, success: bool, result: Option<ResultId>)
    requires t in s.leases && t in s.tasks && s.leases[t].node == n
    ensures var lease := s.leases[t].id;
            var r := Receipt(ResultIdOf(lease, result), t, n, lease, success);
            && Accept(s, n, t, success, result).receipts == Retained(PutReceipt(s.receipts, r))
            && Accept(s, n, t, success, result).latest == s.latest[t := r]
  {
    BookIsQuiet(s, n, t);
    SettleIsOneSave(Book(s, n, t), t, success);
  }

  /** The receipt is on file, and stays there for that many filings. */
  ghost predicate Knows(receipts: seq<Receipt>, id: ResultId, r: Receipt, filings: int) {
    FindReceipt(receipts, id) == Some(r) && Life(receipts, id) >= filings
  }

  /** The receipt that a report files, if it is accepted in the state after the sweep. */
  function Filed(s: State, n: NodeId, t: TaskId, success: bool, result: Option<ResultId>): Receipt
    requires t in s.leases
  {
    Receipt(ResultIdOf(s.leases[t].id, result), t, n, s.leases[t].id, success)
  }

  /** The report has no identifier and is accepted for a lease that makes this one up. */
  ghost predicate Displaces(s: State, a: Action, id: ResultId) {
    && a.DoReport? && !Carries(a.result)
    && Accepts(Sweep(s, a.c, a.order), a.n, a.t, a.held, a.result)
    && "result-" + Sweep(s, a.c, a.order).leases[a.t].id == id
  }

  /** A report leaves a receipt that has filings left on file, or displaces it. */
  lemma ReportKeepsReceipt(s: State, a: Action, id: ResultId, r: Receipt, filings: nat)
    requires a.DoReport? && Enabled(s, a) && Knows(s.receipts, id, r, filings + 1)
    ensures Knows(Step(s, a).receipts, id,
                  if Displaces(s, a, id) then Filed(Sweep(s, a.c, a.order), a.n, a.t, a.success, a.result) else r, filings)
  {
    var s1 := Sweep(s, a.c, a.order);
    SweepIsQuiet(s, a.c, a.order);
    if Accepts(s1, a.n, a.t, a.held, a.result) {
      var filed := Filed(s1, a.n, a.t, a.success, a.result);
      AcceptFiles(s1, a.n, a.t, a.success, a.result);
      if filed.result == id {
        FilingReplaces(s1.receipts, filed);
      } else {
        FilingKeepsOthers(s1.receipts, filed, id);
      }
    }
  }

  lemma {:induction false} ActivateFromKeepsReceipts(
      s: State, assignments: seq<Assignment>, leases: seq<LeaseId>, epoch: real, i: nat)
    requires i <= |assignments| == |leases|
    ensures ActivateFrom(s, assignments, leases, epoch, i).receipts == s.receipts
    ensures ActivateFrom(s, assignments, leases, epoch, i).latest == s.latest
    decreases |assignments| - i
  {
    if i < |assignments| {
      ActivateFromKeepsReceipts(ActivateOne(s, assignments[i], leases[i], epoch), assignments, leases, epoch, i + 1);
    }
  }

  lemma {:induction false} SubmitFromKeepsReceipts(s: State, batch: seq<BatchTask>, i: nat)
    requires i <= |batch|
    ensures SubmitFrom(s, batch, i).receipts == s.receipts && SubmitFrom(s, batch, i).latest == s.latest
    decreases |batch| - i
  {
    if i < |batch| {
      SubmitFromKeepsReceipts(Submit(s, batch[i].id, batch[i].task), batch, i + 1);
    }
  }

  ghost predicate FilesNothing(s: State, s': State) {
    s'.receipts == s.receipts && s'.latest == s.latest
  }

  lemma CommitFilesNothing(
      s: State, plan: Plan, batch: seq<BatchTask>, requested: int, leases: seq<LeaseId>, epoch: real)
    requires |leases| == |plan.assignments|
    ensures FilesNothing(s, Commit(s, plan, batch, requested, leases, epoch))
  {
    if Commits(s, plan, batch, requested) {
      SubmitFromKeepsReceipts(SaveLedger(s, plan.id, DemandByNode(plan.assignments, batch, |plan.assignments|)), batch, 0);
      ActivateFromKeepsReceipts(Prepared(s, plan, batch), plan.assignments, leases, epoch, 0);
    }
  }

  lemma ScheduleFilesNothing(s: State, t: TaskId, pick: Option<NodeId>, lease: LeaseId, c: Clock, order: seq<TaskId>)
    ensures FilesNothing(s, Schedule(s, t, pick, lease, c, order))
  {
    SweepIsQuiet(s, c, order);
  }

  lemma RequestFilesNothing(s: State, n: NodeId, ordered: seq<TaskId>, picks: map<TaskId, NodeId>,
                             lease: LeaseId, c: Clock, order: seq<TaskId>)
    ensures FilesNothing(s, Request(s, n, ordered, picks, lease, c, order))
  {
    SweepIsQuiet(s, c, order);
  }

  lemma ProgressFilesNothing(s: State, n: NodeId, t: TaskId, held: Option<LeaseId>, c: Clock, order: seq<TaskId>)
    ensures FilesNothing(s, Progress(s, n, t, held, c, order))
  {
    SweepIsQuiet(s, c, order);
  }

  lemma CancelFilesNothing(s: State, t: TaskId, requeue: bool, c: Clock, order: seq<TaskId>)
    ensures FilesNothing(s, Cancel(s, t, requeue, c, order))
  {
    SweepIsQuiet(s, c, order);
  }

  lemma SubmitFilesNothing(s: State, t: TaskId, task: Task)
    ensures FilesNothing(s, Submit(s, t, task))
  {
  }

  lemma RegisterFilesNothing(s: State, n: NodeId, capacity: ResourceVector, nodeVersion: int, mono: real)
    ensures FilesNothing(s, Register(s, n, capacity, nodeVersion, mono))
  {
  }

  lemma AcknowledgeFilesNothing(s: State, n: NodeId, t: TaskId, lease: LeaseId, epoch: real)
    ensures FilesNothing(s, Acknowledge(s, n, t, lease, epoch))
  {
  }

  lemma HeartbeatFilesNothing(s: State, n: NodeId, online: bool, c: Clock, order: seq<TaskId>)
    ensures FilesNothing(s, Heartbeat(s, n, online, c, order))
  {
    HeartbeatIsQuiet(s, n, online, c, order);
  }

  lemma SweepFilesNothing(s: State, c: Clock, order: seq<TaskId>)
    ensures FilesNothing(s, Sweep(s, c, order))
  {
    SweepIsQuiet(s, c, order);
  }

  lemma StepFilesNothing(s: State, a: Action)
    requires Enabled(s, a) && !a.DoReport? && !a.DoRestart?
    ensures FilesNothing(s, Step(s, a))
  {
    match a
    case DoSubmit(t, task) => SubmitFilesNothing(s, t, task);
    case DoRegister(n, capacity, nodeVersion, mono) => RegisterFilesNothing(s, n, capacity, nodeVersion, mono);
    case DoHeartbeat(n, online, c, order) => HeartbeatFilesNothing(s, n, online, c, order);
    case DoSweep(c, order) => SweepFilesNothing(s, c, order);
    case DoSchedule(t, pick, lease, c, order) => ScheduleFilesNothing(s, t, pick, lease, c, order);
    case DoRequest(n, ordered, picks, lease, c, order) => RequestFilesNothing(s, n, ordered, picks, lease, c, order);
    case DoAcknowledge(n, t, lease, epoch) => AcknowledgeFilesNothing(s, n, t, lease, epoch);
    case DoProgress(n, t, held, c, order) => ProgressFilesNothing(s, n, t, held, c, order);
    case DoCancel(t, requeue, c, order) => CancelFilesNothing(s, t, requeue, c, order);
    case DoCommit(plan, batch, requested, leases, epoch) => CommitFilesNothing(s, plan, batch, requested, leases, epoch);
  }

  lemma RestartKeepsReceipts(s: State, a: Action)
    requires Enabled(s, a) && Inv(s) && a.DoRestart?
    ensures Step(s, a).receipts == s.receipts
  {
  }

  /** No operation but a report touches the receipts, not even a restart. */
  lemma StepKeepsReceipts(s: State, a: Action)
    requires Enabled(s, a) && Inv(s) && !a.DoReport?
    ensures Step(s, a).receipts == s.receipts
  {
    if a.DoRestart? {
      RestartKeepsReceipts(s, a);
    } else {
      StepFilesNothing(s, a);
    }
  }

  /** The reports among the operations from `i` up to `j`. */
  function Reports(actions: seq<Action>, i: nat, j: nat): nat
    requires i <= j <= |actions|
    decreases j - i
  {
    if i == j then 0 else (if actions[i].DoReport? then 1 else 0) + Reports(actions, i + 1, j)
  }

  /** No report from step `i` up to `j` displaces the receipt. */
  ghost predicate NoneDisplaces(states: seq<State>, actions: seq<Action>, i: nat, j: nat, id: ResultId)
    requires IsRun(states, actions) && i <= j <= |actions|
  {
    forall k :: i <= k < j ==> !Displaces(states[k], actions[k], id)
  }

  lemma StepKeepsReceipt(s: State, a: Action, id: ResultId, r: Receipt, filings: nat)
    requires Enabled(s, a) && Inv(s) && Knows(s.receipts, id, r, filings + if a.DoReport? then 1 else 0)
    ensures Knows(Step(s, a).receipts, id,
                  if Displaces(s, a, id) then Filed(Sweep(s, a.c, a.order), a.n, a.t, a.success, a.result) else r, filings)
  {
    if a.DoReport? {
      ReportKeepsReceipt(s, a, id, r, filings);
    } else {
      StepKeepsReceipts(s, a);
    }
  }

  lemma {:induction false} RunKeepsReceipt(states: seq<State>, actions: seq<Action>, i: nat, j: nat, id: ResultId, r: Receipt,
                                           filings: nat)
    requires IsRun(states, actions) && Inv(states[0]) && i <= j < |states|
    requires Knows(states[i].receipts, id, r, filings + Reports(actions, i, j)) && NoneDisplaces(states, actions, i, j, id)
    ensures Knows(states[j].receipts, id, r, filings)
    decreases j - i
  {
    if i < j {
      RunKeepsInv(states, actions, i);
      StepKeepsReceipt(states[i], actions[i], id, r, filings + Reports(actions, i + 1, j));
      RunKeepsReceipt(states, actions, i + 1, j, id, r, filings);
    }
  }

  lemma {:induction false} ReportsAdd(actions: seq<Action>, i: nat, k: nat, j: nat)
    requires i <= k <= j <= |actions|
    ensures Reports(actions, i, j) == Reports(actions, i, k) + Reports(actions, k, j)
    decreases k - i
  {
    if i < k {
      ReportsAdd(actions, i + 1, k, j);
    }
  }

  lemma {:induction false} ReceiptsAreBounded(config: Config, states: seq<State>, actions: seq<Action>, i: nat)
    requires IsRun(states, actions) && states[0] == Initial(config) && i < |states|
    ensures |states[i].receipts| <= MAX_RECEIPTS
  {
    if i > 0 {
      ReceiptsAreBounded(config, states, actions, i - 1);
      RunStepBoundsReceipts(config, states, actions, i - 1);
    }
  }

  lemma RunStepBoundsReceipts(config: Config, states: seq<State>, actions: seq<Action>, i: nat)
    requires IsRun(states, actions) && states[0] == Initial(config) && i < |actions|
    requires |states[i].receipts| <= MAX_RECEIPTS
    ensures |states[i + 1].receipts| <= MAX_RECEIPTS
  {
    InitialSatisfiesInv(config);
    RunKeepsInv(states, actions, i);
    StepBoundsReceipts(states[i], actions[i]);
  }

  lemma StepBoundsReceipts(s: State, a: Action)
    requires Enabled(s, a) && Inv(s) && |s.receipts| <= MAX_RECEIPTS
    ensures |Step(s, a).receipts| <= MAX_RECEIPTS
  {
    if a.DoReport? {
      var s1 := Sweep(s, a.c, a.order);
      SweepIsQuiet(s, a.c, a.order);
      if Accepts(s1, a.n, a.t, a.held, a.result) {
        AcceptFiles(s1, a.n, a.t, a.success, a.result);
        PutLength(s1.receipts, Filed(s1, a.n, a.t, a.success, a.result));
      }
    } else {
      StepKeepsReceipts(s, a);
    }
  }

  // ----- sending a result again

  /** The report of step `i` was accepted. */
  ghost predicate WasAccepted(states: seq<State>, actions: seq<Action>, i: nat)
    requires IsRun(states, actions) && i < |actions|
  {
    var a := actions[i];
    a.DoReport? && Accepts(Sweep(states[i], a.c, a.order), a.n, a.t, a.held, a.result)
  }

  /** The receipt that the accepted report of step `i` got. */
  ghost function FirstReceipt(states: seq<State>, actions: seq<Action>, i: nat): Receipt
    requires IsRun(states, actions) && i < |actions| && WasAccepted(states, actions, i)
  {
    var a := actions[i];
    Filed(Sweep(states[i], a.c, a.order), a.n, a.t, a.success, a.result)
  }

  /** An accepted report is on file. Under an identifier that was not known it stays there for
      the next 1999 filings, under a known one for as long as the receipt it replaced. */
  lemma AcceptedIsFiled(config: Config, states: seq<State>, actions: seq<Action>, i: nat)
    requires IsRun(states, actions) && states[0] == Initial(config) && i < |actions| && WasAccepted(states, actions, i)
    ensures var before, after, first := states[i].receipts, states[i + 1].receipts, FirstReceipt(states, actions, i);
            && FindReceipt(after, first.result) == Some(first)
            && Life(after, first.result)
               == if FindReceipt(before, first.result).None? then MAX_RECEIPTS - 1 else Life(before, first.result)
  {
    var a, first := actions[i], FirstReceipt(states, actions, i);
    ReceiptsAreBounded(config, states, actions, i);
    SweepIsQuiet(states[i], a.c, a.order);
    AcceptFiles(Sweep(states[i], a.c, a.order), a.n, a.t, a.success, a.result);
    if FindReceipt(states[i].receipts, first.result).None? {
      NewReceiptLives(states[i].receipts, first);
    } else {
      FilingReplaces(states[i].receipts, first);
    }
  }

  lemma AcceptTakesLease(s: State, n: NodeId, t: TaskId, success: bool, result: Option<ResultId>)
    requires t in s.leases && t in s.tasks && s.leases[t].node == n
    ensures t !in Accept(s, n, t, success, result).leases
    ensures s.leases[t].id in EndedIds(Accept(s, n, t, success, result).log.ended)
  {
    ReleaseRewrites(s, t, ByResult);
    EndedOneMore(s.log.ended, Ending(s.leases[t].id, t, ByResult));
    BookEnds(s, n, t);
    SettleIsOneSave(Book(s, n, t), t, success);
  }

  lemma BookEnds(s: State, n: NodeId, t: TaskId)
    requires t in s.leases
    ensures t !in Book(s, n, t).leases
    ensures Book(s, n, t).log.ended == s.log.ended + [Ending(s.leases[t].id, t, ByResult)]
  {
    ReleaseRewrites(s, t, ByResult);
  }

  /** The lease of an accepted report has ended, and is not held after any later sweep. */
  lemma AcceptedLeaseIsGone(config: Config, states: seq<State>, actions: seq<Action>, i: nat, k: nat,
                            t: TaskId, c: Clock, order: seq<TaskId>)
    requires IsRun(states, actions) && states[0] == Initial(config) && i < k < |states| && WasAccepted(states, actions, i)
    requires t in Sweep(states[k], c, order).leases
    ensures Sweep(states[k], c, order).leases[t].id != FirstReceipt(states, actions, i).lease
  {
    var a, id := actions[i], FirstReceipt(states, actions, i).lease;
    AcceptTakesLease(Sweep(states[i], a.c, a.order), a.n, a.t, a.success, a.result);
    InitialSatisfiesInv(config);
    RunIsOrderly(states, actions, i + 1, k);
    RunKeepsInv(states, actions, k);
    SweepFencesOff(states[k], id, Sweep(states[k], c, order).leases[t].node, t, c, order);
  }

  /** An identifier is displaced at most once: the lease that makes it up ends with that. */
  lemma DisplacedOnce(config: Config, states: seq<State>, actions: seq<Action>, k: nat, j: nat, id: ResultId)
    requires IsRun(states, actions) && states[0] == Initial(config) && k < j < |states|
    requires Displaces(states[k], actions[k], id)
    ensures NoneDisplaces(states, actions, k + 1, j, id)
  {
    forall m | k + 1 <= m < j
      ensures !Displaces(states[m], actions[m], id)
    {
      var a := actions[m];
      if Displaces(states[m], a, id) {
        AcceptedLeaseIsGone(config, states, actions, k, m, a.t, a.c, a.order);
        SamePrefix("result-", FirstReceipt(states, actions, k).lease, Sweep(states[m], a.c, a.order).leases[a.t].id);
      }
    }
  }

  lemma SamePrefix(prefix: string, a: string, b: string)
    requires prefix + a == prefix + b
    ensures a == b
  {
    assert (prefix + a)[|prefix|..] == a && (prefix + b)[|prefix|..] == b;
  }

  /** A displaced receipt stays displaced by the report that did it. */
  lemma DisplacedStaysAway(config: Config, states: seq<State>, actions: seq<Action>, i: nat, k: nat, j: nat,
                           id: ResultId, r: Receipt)
    requires IsRun(states, actions) && states[0] == Initial(config) && i <= k < j < |states|
    requires Displaces(states[k], actions[k], id) && NoneDisplaces(states, actions, i, k, id)
    requires Knows(states[i].receipts, id, r, Reports(actions, i, j))
    ensures FindReceipt(states[j].receipts, id) == Some(FirstReceipt(states, actions, k))
  {
    InitialSatisfiesInv(config);
    ReportsAdd(actions, i, k, j);
    RunKeepsReceipt(states, actions, i, k, id, r, Reports(actions, k, j));
    RunKeepsInv(states, actions, k);
    StepKeepsReceipt(states[k], actions[k], id, r, Reports(actions, k + 1, j));
    DisplacedOnce(config, states, actions, k, j, id);
    RunKeepsReceipt(states, actions, k + 1, j, id, FirstReceipt(states, actions, k), 0);
  }

  /** The first of the reports that displace a receipt. */
  lemma {:induction false} FirstDisplacement(states: seq<State>, actions: seq<Action>, i: nat, j: nat, id: ResultId) returns (k: nat)
    requires IsRun(states, actions) && i <= j <= |actions| && !NoneDisplaces(states, actions, i, j, id)
    ensures i <= k < j && Displaces(states[k], actions[k], id) && NoneDisplaces(states, actions, i, k, id)
    decreases j - i
  {
    k := i;
    if !Displaces(states[i], actions[i], id) {
      k := FirstDisplacement(states, actions, i + 1, j, id);
    }
  }

  /** How many more filings the receipt of step `i` survives. */
  ghost function FirstLife(states: seq<State>, actions: seq<Action>, i: nat): int
    requires IsRun(states, actions) && i < |actions| && WasAccepted(states, actions, i)
  {
    var before, id := states[i].receipts, FirstReceipt(states, actions, i).result;
    if FindReceipt(before, id).None? then MAX_RECEIPTS - 1 else Life(before, id)
  }

  /** The first receipt is still on file exactly when no report has displaced it, and its
      identifier is on file in any case. */
  lemma FirstReceiptStaysIff(config: Config, states: seq<State>, actions: seq<Action>, i: nat, j: nat)
    requires IsRun(states, actions) && states[0] == Initial(config) && i < j < |states| && WasAccepted(states, actions, i)
    requires Reports(actions, i + 1, j) <= FirstLife(states, actions, i)
    ensures var first := FirstReceipt(states, actions, i);
            && FindReceipt(states[j].receipts, first.result).Some?
            && (FindReceipt(states[j].receipts, first.result).value == first
                <==> NoneDisplaces(states, actions, i + 1, j, first.result))
  {
    var first := FirstReceipt(states, actions, i);
    AcceptedIsFiled(config, states, actions, i);
    if NoneDisplaces(states, actions, i + 1, j, first.result) {
      InitialSatisfiesInv(config);
      RunKeepsReceipt(states, actions, i + 1, j, first.result, first, 0);
    } else {
      var k := FirstDisplacement(states, actions, i + 1, j, first.result);
      DisplacedStaysAway(config, states, actions, i + 1, k, j, first.result, first);
      AcceptedLeaseIsGone(config, states, actions, i, k, actions[k].t, actions[k].c, actions[k].order);
    }
  }

  /** What a report under a known identifier does. */
  lemma KnownIdIsReplayed(s: State, n: NodeId, t: TaskId, success: bool, held: Option<LeaseId>, id: ResultId,
                          c: Clock, order: seq<TaskId>)
    requires id != "" && FindReceipt(s.receipts, id).Some?
    ensures Report(s, n, t, success, held, Some(id), c, order) == Sweep(s, c, order)
    ensures var r, reply := FindReceipt(s.receipts, id).value, ReplyTo(Sweep(s, c, order), n, t, success, held, Some(id));
            reply == if r.task == t && r.node == n && (held.Some? ==> r.lease == held.value) then Replayed(r) else Refused
  {
    SweepIsQuiet(s, c, order);
  }

  /** An accepted result that is sent again under the identifier of its receipt changes nothing,
      through restarts and new leases, as long as the receipt is not pruned. It is answered with
      its first receipt exactly when no report without an identifier has been accepted for a
      lease that makes up the same identifier. */
  lemma RepeatsGetTheFirstReceiptIff(
      config: Config, states: seq<State>, actions: seq<Action>, i: nat, j: nat,
      success: bool, held: Option<LeaseId>, c: Clock, order: seq<TaskId>)
    requires IsRun(states, actions) && states[0] == Initial(config) && i < j < |states| && WasAccepted(states, actions, i)
    requires held.None? || held == Some(FirstReceipt(states, actions, i).lease)
    requires Reports(actions, i + 1, j) <= FirstLife(states, actions, i)
    ensures var a, s, first := actions[i], states[j], FirstReceipt(states, actions, i);
            && Report(s, a.n, a.t, success, held, Some(first.result), c, order) == Sweep(s, c, order)
            && (ReplyTo(Sweep(s, c, order), a.n, a.t, success, held, Some(first.result)) == Replayed(first)
                <==> NoneDisplaces(states, actions, i + 1, j, first.result))
  {
    var a, first := actions[i], FirstReceipt(states, actions, i);
    assert first.result != "" by {
      assert |"result-" + first.lease| >= 7;
    }
    FirstReceiptStaysIff(config, states, actions, i, j);
    KnownIdIsReplayed(states[j], a.n, a.t, success, held, first.result, c, order);
  }

  /** For a result that carries an identifier: the same report, word for word, as long as fewer
      than 2000 reports have come in since. */
  lemma RepeatsGetTheFirstReceipt(
      config: Config, states: seq<State>, actions: seq<Action>, i: nat, j: nat, c: Clock, order: seq<TaskId>)
    requires IsRun(states, actions) && states[0] == Initial(config) && i < j < |states|
    requires WasAccepted(states, actions, i) && Carries(actions[i].result)
    requires Reports(actions, i + 1, j) < MAX_RECEIPTS
    ensures var a, s := actions[i], states[j];
            && Report(s, a.n, a.t, a.success, a.held, a.result, c, order) == Sweep(s, c, order)
            && (ReplyTo(Sweep(s, c, order), a.n, a.t, a.success, a.held, a.result) == Replayed(FirstReceipt(states, actions, i))
                <==> NoneDisplaces(states, actions, i + 1, j, a.result.value))
  {
    var a := actions[i];
    SweepIsQuiet(states[i], a.c, a.order);
    RepeatsGetTheFirstReceiptIff(config, states, actions, i, j, a.success, a.held, c, order);
  }

  /** For a result without an identifier: a repeat that names the one its receipt was given
      always gets that receipt, because lease identifiers are new. */
  lemma MadeUpIdsAreNeverDisplaced(
      config: Config, states: seq<State>, actions: seq<Action>, i: nat, j: nat,
      success: bool, held: Option<LeaseId>, c: Clock, order: seq<TaskId>)
    requires IsRun(states, actions) && states[0] == Initial(config) && i < j < |states|
    requires WasAccepted(states, actions, i) && !Carries(actions[i].result)
    requires held.None? || held == Some(FirstReceipt(states, actions, i).lease)
    requires Reports(actions, i + 1, j) <= FirstLife(states, actions, i)
    ensures var a, s, first := actions[i], states[j], FirstReceipt(states, actions, i);
            && Report(s, a.n, a.t, success, held, Some(first.result), c, order) == Sweep(s, c, order)
            && ReplyTo(Sweep(s, c, order), a.n, a.t, success, held, Some(first.result)) == Replayed(first)
  {
    DisplacedOnce(config, states, actions, i, j, FirstReceipt(states, actions, i).result);
    RepeatsGetTheFirstReceiptIff(config, states, actions, i, j, success, held, c, order);
  }

  /** `r` is the last of the task's receipts in the list. */
  ghost predicate IsLastOf(receipts: seq<Receipt>, t: TaskId, r: Receipt) {
    exists k :: 0 <= k < |receipts| && receipts[k] == r && r.task == t
                && forall j :: k < j < |receipts| ==> receipts[j].task != t
  }

  /** After a restart the latest receipt of a task is the last one stored for it. */
  lemma {:induction false} LatestIsLast(receipts: seq<Receipt>, t: TaskId)
    ensures if t in LatestOf(receipts) then IsLastOf(receipts, t, LatestOf(receipts)[t])
            else forall k :: 0 <= k < |receipts| ==> receipts[k].task != t
  {
    if receipts != [] {
      var last, front := |receipts| - 1, receipts[..|receipts| - 1];
      LatestIsLast(front, t);
      if receipts[last].task == t {
        assert receipts[last] == LatestOf(receipts)[t];
      } else if t in LatestOf(front) {
        var k :| 0 <= k < |front| && front[k] == LatestOf(front)[t] && forall j :: k < j < |front| ==> front[j].task != t;
        assert receipts[k] == LatestOf(receipts)[t];
        assert forall j :: k < j < last ==> receipts[j] == front[j];
      } else {
        assert forall k :: 0 <= k < last ==> receipts[k] == front[k];
      }
    }
  }

  // ----- repeats without an identifier

  /** No result of the task is accepted from step `i` up to `j`, and the process does not restart. */
  ghost predicate NothingNewFor(states: seq<State>, actions: seq<Action>, i: nat, j: nat, t: TaskId)
    requires IsRun(states, actions) && i <= j <= |actions|
  {
    forall k :: i <= k < j ==> !actions[k].DoRestart? && !(WasAccepted(states, actions, k) && actions[k].t == t)
  }

  lemma ReportKeepsLatest(s: State, n: NodeId, u: TaskId, success: bool, held: Option<LeaseId>, result: Option<ResultId>,
                          c: Clock, order: seq<TaskId>, t: TaskId)
    requires t in s.latest && (u == t ==> !Accepts(Sweep(s, c, order), n, u, held, result))
    ensures var s' := Report(s, n, u, success, held, result, c, order);
            t in s'.latest && s'.latest[t] == s.latest[t]
  {
    var s1 := Sweep(s, c, order);
    SweepIsQuiet(s, c, order);
    if Accepts(s1, n, u, held, result) {
      AcceptFiles(s1, n, u, success, result);
    }
  }

  lemma StepKeepsLatest(s: State, a: Action, t: TaskId)
    requires Enabled(s, a) && Inv(s) && !a.DoRestart? && t in s.latest
    requires a.DoReport? && a.t == t ==> !Accepts(Sweep(s, a.c, a.order), a.n, a.t, a.held, a.result)
    ensures t in Step(s, a).latest && Step(s, a).latest[t] == s.latest[t]
  {
    if a.DoReport? {
      ReportKeepsLatest(s, a.n, a.t, a.success, a.held, a.result, a.c, a.order, t);
    } else {
      StepFilesNothing(s, a);
    }
  }

  lemma {:induction false} RunKeepsLatest(states: seq<State>, actions: seq<Action>, i: nat, j: nat, t: TaskId)
    requires IsRun(states, actions) && Inv(states[0]) && i <= j < |states|
    requires t in states[i].latest && NothingNewFor(states, actions, i, j, t)
    ensures t in states[j].latest && states[j].latest[t] == states[i].latest[t]
    decreases j - i
  {
    if i < j {
      RunKeepsInv(states, actions, i);
      StepKeepsLatest(states[i], actions[i], t);
      RunKeepsLatest(states, actions, i + 1, j, t);
    }
  }

  lemma UnleasedReply(s: State, n: NodeId, t: TaskId, success: bool, held: Option<LeaseId>, result: Option<ResultId>)
    requires !Carries(result) && t in s.latest
    ensures var reply := ReplyTo(s, n, t, success, held, result);
            if t in s.leases then !reply.Replayed?
            else reply == if n == s.latest[t].node && (held.None? || held.value == s.latest[t].lease)
                          then Replayed(s.latest[t]) else Refused
  {
  }

  /** As long as no other result of the task is accepted, and within one process, a report about it
      without an identifier is answered with the first receipt exactly when the task is not leased
      and the report comes from the receipt's node and names its lease or none; while the task is
      not leased all others are refused and nothing changes beyond the sweep. */
  lemma UnidentifiedRepeatsGetTheLatest(
      config: Config, states: seq<State>, actions: seq<Action>, i: nat, j: nat,
      n: NodeId, success: bool, held: Option<LeaseId>, result: Option<ResultId>, c: Clock, order: seq<TaskId>)
    requires IsRun(states, actions) && states[0] == Initial(config) && i < j < |states| && WasAccepted(states, actions, i)
    requires NothingNewFor(states, actions, i + 1, j, actions[i].t) && !Carries(result)
    ensures var t, s, first := actions[i].t, Sweep(states[j], c, order), FirstReceipt(states, actions, i);
            var reply := ReplyTo(s, n, t, success, held, result);
            && (reply == Replayed(first)
                <==> t !in s.leases && n == actions[i].n && (held.None? || held.value == first.lease))
            && (t !in s.leases ==> Report(states[j], n, t, success, held, result, c, order) == s
                                   && (reply == Replayed(first) || reply == Refused))
  {
    var a, first := actions[i], FirstReceipt(states, actions, i);
    InitialSatisfiesInv(config);
    AcceptFiles(Sweep(states[i], a.c, a.order), a.n, a.t, a.success, a.result);
    RunKeepsLatest(states, actions, i + 1, j, a.t);
    SweepIsQuiet(states[j], c, order);
    UnleasedReply(Sweep(states[j], c, order), n, a.t, success, held, result);
  }

  // ----- repeats that count again

  /** In the state after the sweep the task holds a lease on the node, and the result's
      identifier, if it carries one, is not known. */
  ghost predicate TakenAsNew(s: State, n: NodeId, t: TaskId, result: Option<ResultId>) {
    && t in s.leases && s.leases[t].node == n
    && (Carries(result) ==> FindReceipt(s.receipts, result.value).None?)
  }

  /** A report that names no lease does something beyond the sweep exactly when it is taken. */
  lemma UnnamedReportActsIff(s: State, n: NodeId, t: TaskId, success: bool, result: Option<ResultId>,
                             c: Clock, order: seq<TaskId>)
    requires Inv(s)
    ensures Report(s, n, t, success, None, result, c, order) != Sweep(s, c, order)
            <==> TakenAsNew(Sweep(s, c, order), n, t, result)
  {
    var s1 := Sweep(s, c, order);
    if TakenAsNew(s1, n, t, result) {
      SweepKeepsInv(s, c, order);
      LeasedIsHeldOnce(s1, t);
      AcceptTakesLease(s1, n, t, success, result);
    }
  }

  lemma AcceptedLeaseEnds(states: seq<State>, actions: seq<Action>, i: nat)
    requires IsRun(states, actions) && i < |actions| && WasAccepted(states, actions, i) && actions[i].held.Some?
    ensures actions[i].held.value in EndedIds(states[i + 1].log.ended)
  {
    var a := actions[i];
    AcceptTakesLease(Sweep(states[i], a.c, a.order), a.n, a.t, a.success, a.result);
  }

  /** An accepted result that is sent again, at any later time, changes something beyond the
      sweep exactly when it names no lease and the task is leased to the same node again, and
      the result has no identifier or its receipt has been pruned. The old result then counts
      for the new lease. */
  lemma RepeatIsTakenAsNewIff(
      config: Config, states: seq<State>, actions: seq<Action>, i: nat, j: nat, c: Clock, order: seq<TaskId>)
    requires IsRun(states, actions) && states[0] == Initial(config) && i < j < |states|
    requires WasAccepted(states, actions, i)
    ensures var a, s := actions[i], states[j];
            Report(s, a.n, a.t, a.success, a.held, a.result, c, order) != Sweep(s, c, order)
            <==> a.held.None? && TakenAsNew(Sweep(s, c, order), a.n, a.t, a.result)
  {
    var a := actions[i];
    if a.held.Some? {
      AcceptedLeaseEnds(states, actions, i);
      EndedLeasesStayFencedOff(config, states, actions, i + 1, j, a.held.value, a.n, a.t, a.success, a.result, c, order);
    } else {
      InitialSatisfiesInv(config);
      RunKeepsInv(states, actions, j);
      UnnamedReportActsIff(states[j], a.n, a.t, a.success, a.result, c, order);
    }
  }
}
