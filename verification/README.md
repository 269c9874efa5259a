# Tianjun in Dafny

Tianjun is a scheduler and a lease-based control plane. This project models the parts of it
where a mistake would be expensive and proves what they promise:

* **The lease protocol** (`Protocol`, `ProtocolSafety`, `ProtocolSteps`, `ProtocolRuns`): tasks,
  queue, leases, nodes, receipts and versions as one state, every operation as a step, an
  inductive invariant, and safety over whole runs, restarts included.
* **Single operations and lease marks** (`ProtocolEffects`, `ProtocolPlans`, `ProtocolMarks`): what a sweep,
  a heartbeat, a result, a cancellation and a commit do field by field, and the acknowledgement
  mark of a lease over whole runs.
* **History and limits of a run** (`ProtocolHistory`, `ProtocolReplay`, `ProtocolLimits`): ended
  leases stay fenced off, finished tasks stay finished, what a repeated result does at any later
  time, attempts counted by the operations of the run, and how renewals move an expiry.
* **Batch commit, restart and versions** (`ProtocolCommit`, `ProtocolVersions`, `ProtocolNodes`): what
  a commit and a restart keep, and what equal versions say about the room on the nodes and about
  whether they are online. `ProtocolExamples` holds the short runs that show the limits of this.
* **Capacity** (`Resources`, `ProtocolCapacity`): how far the tolerant fit test lets a node drift
  beyond its capacity.
* **The control plane object and its store** (`ControlPlane`, `StateStore`): the imperative methods,
  loop by loop, each proved to take exactly its protocol step; nested transactions, and commit
  with rollback when any write fails.
* **Batch planning** (`BatchPlans`, `BatchPlanning`, `PlanChecks`, `BatchImport`): the rules of greedy
  placement and both local searches, the methods that follow them on a shadow cluster, when the
  plan passes the check at commit, and the uniqueness check of imported identifiers.
* **Graph and strings** (`Topology`, `EditDistance`, `RegionMatch`): lazy-deletion Dijkstra, the
  two-row edit distance, and the region lookup that uses it.
* **Selection** (`Carbon`, `Pareto`, `Selection`): filters, sparse carbon search, Pareto front,
  augmented Tchebycheff utility and the final choice.
* **Policy and baselines** (`Common`, `SimplexProjection`, `PolicyOptimizer`, `Assignment`, `Genetic`): capped simplex
  projection, the big-M integer program, and the genetic decoder.

`dafny verify dfyconfig.toml` checks everything.

## How the model is set up

Floating-point numbers are reals, ticks are integers, and time, fresh lease identifiers, dictionary
order and the scheduler's preferences are inputs of the steps. The control lock makes each
operation one step; planning is a step of its own between a preview's two locked sections. Each
protocol step is a function on states; the methods of the `ControlPlane` class change fields and
write to the store, and their contracts equate the new state with that function of the old one.
A ghost log records the leases issued, the leases ended with the reason, the execution records,
and how often a task was requeued regardless of its limit.

The surroundings are taken to guarantee what the code does not check: lease identifiers are
fresh, submitted tasks start pending and untried, and a plan is committed only while each of its
tasks is new or pending. The capacity bound also relies on demands that are not negative (the import checks
only four of the eight fields) and on nodes that do not shrink when they register again.

## What the proofs turned up

* A failing outermost commit is not rolled back. The exit of the transaction commits in its
  `else` branch, so the exception handler that rolls back does not cover it. Memory and the
  durable store stay consistent, but if SQLite kept the transaction open, its writes are still
  pending: the next plain statement publishes them, and the next block cannot begin. The store is
  then ahead of memory (`ProtocolVersions.LeakedCommitIsRefusedAfterRestart`); the theorems about runs assume
  a store that does not fail.
* The shadow placement tests each task with a tolerance, the commit tests their sum with a single
  one. Tasks that pass a node's test one after another can therefore be refused together, with a
  snapshot conflict although nothing changed, but only if in some dimension the last of their
  demands that is not zero is at most 1e-9 and their sum exceeds the room by more than 1e-9.
  Plans whose demands are zero or larger than that are never refused while the version stands,
  however many tasks share a node.
* A second plan for a batch that is already running is not refused by itself; it would lease
  running tasks again and lose track of their old leases (`ProtocolExamples.RunningTaskCanBeReissued`),
  and run finished tasks again (`ProtocolExamples.FinishedTaskCanBeReopened`).
* A commit does not check that the nodes of the plan are still online, and a node that goes offline
  for a missed heartbeat does not move the version. A task can get a lease on an offline node
  (`ProtocolExamples.CommitCanReachOfflineNode`); the next sweep takes it away again as long as the
  heartbeat stays overdue.
* A result that is sent without lease and result identifier cannot be told from a new one: if the
  task has been leased to the same node again, the old result counts for the new lease
  (`ProtocolExamples.OldResultCountsForNewLease`). With an identifier this can happen only after the
  receipt has been pruned.
* A result without an identifier is filed under one made up from its lease. If a node has used just
  that string for another result, the earlier receipt is replaced (`ProtocolExamples.ReceiptCanBeDisplaced`).
* When the wall clock steps back between two renewals, the second one brings the expiry forward
  (`ProtocolExamples.RenewalCanShorten`).
* Deferral picks the greenest start before the deadline is looked at. A node that meets every filter
  at once is dropped when its greenest tick finishes too late (`Selection.DeferralCanLoseNode`).
* Batch identifiers are compared without surrounding blanks but stored with them, so an
  identifier that carries blanks can be accepted twice.
* The final front of the genetic baseline can be empty, because dominance with a tolerance can
  run in a circle; every task is then reported as unassigned (`Genetic.PopulationWithoutFront`).
* A running task whose identifier starts with the shadow prefix can hide its load from the planner.

## Model

| member | source | states |
|---|---|---|
| `ProtocolRuns.StepKeepsInv` | src/tianjun/application/control_plane.py:354-600 | Every operation of the control plane, batch commit and restart included, keeps the invariant: queue, statuses, leases and allocations agree, every lease is accounted for, attempts respect the retry limit, and the store mirrors memory. |
| `ProtocolRuns.TaskIsWhereItsStatusSays` | src/tianjun/application/task_lease_service.py:58-304 | In every state of every run: a pending task is in the queue exactly once and nowhere else; a running task has a lease and occupies the lease's node and no other; a finished task is in neither structure. |
| `ProtocolRuns.LeasesAreConserved` | src/tianjun/application/control_plane.py:441-565 | In every state of every run, leases issued equal leases active plus leases ended by a result, by expiry, by recovery, by cancellation or by a restart; execution records are as many as endings by result and no lease has two. |
| `ProtocolLimits.AttemptsAreBounded` | src/tianjun/application/task_lease_service.py:228-232 | Attempts count exactly the leases a task was given, and never exceed its retry limit plus one, plus one for each requeue of it by an operator and each restart among the operations of the run so far. |
| `ProtocolLimits.LeasesAreFinite` | src/tianjun/application/task_lease_service.py:270-276 | The leases ever issued are at most the sum, over the tasks, of retry limit plus one plus the requeues of the task and the restarts in the run. |
| `ProtocolHistory.FinishedTasksStayFinished` | src/tianjun/application/control_plane.py:441-565 | A task that has succeeded, failed or been cancelled keeps that status, and everything else about it, for the rest of every run, restarts included, as long as plans are committed only while their tasks are new or pending. |
| `ProtocolHistory.FinishedSurvivesCommitIff` | src/tianjun/application/batch_scheduling_service.py:430-441 | Whatever plan is committed, a finished task comes through as it is exactly when the plan does not name it; otherwise it runs again, which the code does not check. |
| `ProtocolExamples.FinishedTaskCanBeReopened` | src/tianjun/application/batch_scheduling_service.py:392-441 | A run in which the task of a committed plan succeeds, and a second plan for it passes every check of commit and runs it again, with the books in order. |
| `ProtocolHistory.EndedLeasesStayFencedOff` | src/tianjun/application/control_plane.py:370-380 | Once a lease has ended, for whatever reason, no later report, progress or acknowledgement that names it does anything beyond the sweep, and no report that names it is accepted, in any later state of any run. |
| `ProtocolReplay.RepeatsGetTheFirstReceiptIff` | src/tianjun/application/control_plane.py:422-428 | An accepted result that is sent again under the identifier of its receipt, its own or the one made up for it, changes nothing through restarts and new leases until the receipt is pruned, and is answered with its first receipt exactly when no report without an identifier has been accepted since for a lease that makes up the same one. |
| `ProtocolReplay.RepeatsGetTheFirstReceipt` | src/tianjun/application/control_plane.py:422-428 | The same for the same report, word for word, when it carries an identifier, as long as fewer than 2000 reports have come in since. |
| `ProtocolReplay.MadeUpIdsAreNeverDisplaced` | src/tianjun/application/control_plane.py:550-560 | A repeat that names the identifier made up for a result without one always gets the first receipt, because lease identifiers are new. |
| `ProtocolReplay.UnidentifiedRepeatsGetTheLatest` | src/tianjun/application/control_plane.py:429-435 | Within one process, and until another result of the task is accepted, a report about it without an identifier gets the first receipt exactly when the task is not leased, the report comes from the receipt's node, and it names the receipt's lease or none; while the task is not leased every other one is refused and nothing changes beyond the sweep. |
| `ProtocolReplay.LatestIsLast` | src/tianjun/application/control_plane_state.py:43-52 | After a restart the latest receipt of a task is the last one stored for it, and there is none exactly when none is stored. |
| `ProtocolExamples.ReceiptCanBeDisplaced` | src/tianjun/application/control_plane.py:550-560 | A run in which a node reports under the identifier that a later lease makes up, and a repeat no longer gets its first receipt. |
| `ProtocolReplay.RepeatIsTakenAsNewIff` | src/tianjun/application/control_plane.py:422-441 | A repeat of an accepted result, at any later time, does something beyond the sweep exactly when it names no lease, the task is leased to the same node again, and the result carries no identifier, an empty one counting as none, or its receipt was pruned; the old result then counts for the new lease. |
| `ProtocolExamples.OldResultCountsForNewLease` | src/tianjun/application/control_plane.py:429-441 | A run in which the same failure report, with neither lease nor result identifier, is accepted for two leases. |
| `ProtocolLimits.RenewalPostponesExpiry` | src/tianjun/application/task_lease_service.py:206-210 | The expiry after a renewal lies behind the expiry at issue, and at least one timeout after the renewal. |
| `ProtocolLimits.RenewalNeverShortens` | src/tianjun/application/task_lease_service.py:206-210 | As long as the wall clock is not behind any that the run has read, a renewal never brings the current expiry of a lease forward. |
| `ProtocolLimits.RenewalPostponesIff` | src/tianjun/application/task_lease_service.py:206-210 | Of two renewals the second one keeps or postpones the expiry exactly when the clock has not stepped back between them, or the expiry at issue still decides. |
| `ProtocolExamples.RenewalCanShorten` | src/tianjun/application/task_lease_service.py:206-210 | A run with two acknowledgements and a clock that steps back between them, in which the second one brings the expiry forward. |
| `ProtocolSteps.SweepEndsExactlyTheDead` | src/tianjun/application/control_plane.py:1024-1060 | A sweep that visits every lease ends exactly those whose node is overdue or whose expiry has passed, and leaves all others as they are. |
| `ProtocolEffects.SweepEffect` | src/tianjun/application/control_plane.py:1024-1060 | A sweep that visits every lease ends exactly those whose node was last seen longer ago than the timeout or whose expiry has passed; their tasks are pending while attempts do not exceed the retry limit and failed otherwise; all other leases and tasks stay as they are. |
| `ProtocolEffects.StaleAreOverdue` | src/tianjun/application/control_plane.py:1024-1030 | The nodes a sweep takes for stale are exactly the known ones that were last seen, or else the process started, longer ago than the timeout. |
| `ProtocolEffects.HeartbeatEffect` | src/tianjun/application/node_registry.py:44-159 | A heartbeat of a known node leaves it online or offline as it said and seen now; exactly the dead leases end, and the node's own if it is offline, their tasks pending while retries are left and failed otherwise; an offline node keeps no lease and no allocation, and all other leases and tasks are as before. |
| `ProtocolEffects.ResultEffect` | src/tianjun/application/control_plane.py:441-517 | After an accepted result the task has succeeded, or is pending at the end of the queue while retries are left, or has failed; its lease is gone and its node is free. |
| `ProtocolEffects.CancelEffect` | src/tianjun/application/control_plane.py:567-600 | Cancelling a leased task takes its lease away and frees its node at once, and the task is pending or failed as the operator decides. |
| `ProtocolMarks.FirstMarkStands` | src/tianjun/application/task_lease_service.py:182-204 | The first acknowledgement or progress message that renews a lease marks it with its time, and the mark, the node and the time of issue stand in every later state of the run for as long as the lease is active, so that it is not handed out again. |
| `ProtocolCommit.CommitKeepsInv` | src/tianjun/application/batch_scheduling_service.py:392-450 | A commit whose tasks are new or pending keeps the whole invariant. |
| `ProtocolCommit.CommitIsSoundIffNothingIsReissued` | src/tianjun/application/batch_scheduling_service.py:430-441 | A commit leaves the books in order exactly when none of the plan's tasks already holds a lease; the code does not check this. |
| `ProtocolPlans.CommitStartsThePlan` | src/tianjun/application/batch_scheduling_service.py:424-441 | A commit that passes its checks starts each task of the plan on its node, under the lease drawn for it, with one more attempt and the whole timeout ahead. |
| `ProtocolPlans.CommitKeepsTheRest` | src/tianjun/application/batch_scheduling_service.py:424-429 | Tasks of the batch that the plan does not place are known afterwards as the batch describes them, and known tasks that are not of the plan stay as they were. |
| `ProtocolPlans.CommitFilesThePlan` | src/tianjun/application/batch_scheduling_service.py:418-450 | The ledger of the plan holds its demand per node, and the version is stored. |
| `ProtocolExamples.RunningTaskCanBeReissued` | src/tianjun/application/batch_scheduling_service.py:392-441 | A run after which a second plan for a running task passes every check of commit and leases it again, with the first lease lost. |
| `ProtocolNodes.CommitRunsOnlineIff` | src/tianjun/application/batch_scheduling_service.py:400-441 | After a commit every task of the plan runs on an online node exactly when every node of the plan is online at commit, which the code does not check. |
| `ProtocolNodes.OfflineMeansOverdue` | src/tianjun/application/control_plane.py:1024-1036 | A node that was online when the plan was made, and is offline while the version is still the plan's, was found overdue by a sweep: nothing else takes a node offline under one version. |
| `ProtocolNodes.NextSweepEndsCommittedIff` | src/tianjun/application/control_plane.py:1024-1047 | The first sweep after a commit takes a new lease away exactly when the heartbeat of its node was already overdue, seen from the sweep's clock, or the lease has run out. |
| `ProtocolExamples.CommitCanReachOfflineNode` | src/tianjun/application/batch_scheduling_service.py:392-441 | A run in which a node misses its heartbeat between preview and commit, the version does not move, and the commit leases a task to the offline node. |
| `ProtocolCommit.RestartIsStructural` | src/tianjun/application/control_plane_state.py:77-107 | Restoring any stored state whatever yields no lease, no allocation, and every pending task in the queue exactly once. |
| `ProtocolCommit.RestartKeepsTasks` | src/tianjun/application/control_plane_state.py:86-107 | A restart loses and invents no task; a task changes only its status, only to pending, and exactly when it was in flight or had a stored lease without having succeeded. |
| `ProtocolCommit.RestartKeepsInv` | src/tianjun/application/control_plane_state.py:23-136 | A restart keeps the whole invariant, with every dropped lease accounted for. |
| `ProtocolVersions.RunRises` | src/tianjun/application/control_plane_state.py:126-131 | Over every run, restarts included, the stored version never falls and never runs ahead of the live one. |
| `ProtocolVersions.PlanCommitsAtMostOnce` | src/tianjun/application/batch_scheduling_service.py:392-394 | A plan that was committed once is refused ever after, whatever operations and restarts come in between. |
| `ProtocolVersions.LeakedCommitIsRefusedAfterRestart` | src/tianjun/application/batch_scheduling_service.py:382-394 | If a commit that was rolled back in memory stays pending in the store and is published later, the store is ahead of memory; the checks of the running process still pass the plan, and after a restart it is refused. |
| `ProtocolVersions.StepFreesOrBumps` | src/tianjun/application/task_lease_service.py:270-278 | Every operation within one process lifetime either only frees room or moves the version on. |
| `ProtocolVersions.SameVersionMeansNoLessRoom` | src/tianjun/application/batch_scheduling_service.py:324-345 | If the version at commit is the version of the preview, no node has less room in any of the eight dimensions, whatever ran in between. |
| `ProtocolVersions.CurrentPlanStillCommits` | src/tianjun/application/batch_scheduling_service.py:392-403 | A plan that passes the commit checks on its own snapshot still passes them while the version is unchanged. |
| `Resources.ResourceVector.FitsWithin` | src/tianjun/domain/resource.py:28-29 | The fit test holds exactly when each of the eight fields is within the slack. |
| `Resources.ComputeUsed` | src/tianjun/domain/node.py:117-121 | Adding up the running tasks in any order gives the load in every field. |
| `Resources.ComputeAvailable` | src/tianjun/domain/node.py:123-124 | The reported room is capacity less load, clamped at zero, in every field. |
| `Resources.AdmissionKeepsBound` | src/tianjun/domain/node.py:126-144 | Admitting a task that passes the tolerant test keeps every subset of the node's tasks within capacity plus one tolerance for each of them. |
| `Resources.RemovalKeepsBound` | src/tianjun/application/task_lease_service.py:222-227 | Removing any task keeps that bound. |
| `Resources.JointAdmissionKeepsBound` | src/tianjun/application/batch_scheduling_service.py:395-403 | Adding several tasks after testing only their sum keeps that bound too. |
| `ProtocolCapacity.StepKeepsBound` | src/tianjun/application/control_plane.py:404-600 | Every operation keeps every node within the bound, provided demands are not negative, known nodes do not shrink on re-registration, and a batch describes its tasks once and truly. |
| `ProtocolCapacity.NodesAreNeverOversold` | src/tianjun/domain/node.py:117-144 | In every state of every such run, each node's load in each dimension is at most its capacity plus 1e-9 for each task on it. |
| `ControlPlane.ControlPlane.EndLease` | src/tianjun/application/control_plane.py:1040-1049 | Popping a lease and freeing its node, in the order of the code, is the release step of the protocol. |
| `ControlPlane.ControlPlane.RecoverLeases` | src/tianjun/application/control_plane.py:1038-1060 | The recovery loop takes the recovery steps of all leases on the given nodes, in dictionary order. |
| `ControlPlane.ControlPlane.ExpireStaleLeases` | src/tianjun/application/task_lease_service.py:212-239 | The expiry loop takes the expiry steps of all leases and stores the version exactly when one expired. |
| `ControlPlane.ControlPlane.MarkStaleNodes` | src/tianjun/application/control_plane.py:1024-1033 | The loop over nodes finds exactly the overdue ones and takes them, and no other node, offline. |
| `ControlPlane.ControlPlane.ExpireStaleNodes` | src/tianjun/application/control_plane.py:1024-1036 | Marking, recovery and expiry together are the sweep of the protocol. |
| `ControlPlane.ControlPlane.SubmitTask` | src/tianjun/application/task_lease_service.py:58-69 | Submission adds the task to the tasks and to the end of the queue, and is refused, without a change, exactly for a known identifier. |
| `ControlPlane.ControlPlane.RegisterNode` | src/tianjun/application/node_registry.py:24-42 | Registration puts the node online with the capacity and version given, as seen now; a known node keeps its running tasks, and both versions move on. |
| `ControlPlane.ControlPlane.RecordHeartbeat` | src/tianjun/application/node_registry.py:44-159 | A heartbeat takes the heartbeat step, and an unknown node raises after the sweep. For a known node in an orderly state: it is online or offline as it said, and seen now; besides the dead leases exactly its own end if it is offline, their tasks are pending while retries are left and failed otherwise, and nothing stays allocated on it; all other leases and tasks are as before. |
| `ControlPlane.ControlPlane.ActivateTaskLease` | src/tianjun/application/task_lease_service.py:246-304 | Activation takes the activate step in memory and store, or reports the write that failed. |
| `ControlPlane.ControlPlane.SchedulePendingTask` | src/tianjun/application/task_lease_service.py:83-137 | A pending task gets a lease exactly when the scheduler names an online node with room, issued now and good for one timeout. |
| `ControlPlane.ControlPlane.ScanQueue` | src/tianjun/application/task_lease_service.py:152-180 | The task found may be granted, and none before it in the given order may; if none is found, no task of the order may be granted: pending, not bound to another node, and placed on this online node, with room, by the scheduler. |
| `ControlPlane.ControlPlane.RequestLease` | src/tianjun/application/task_lease_service.py:139-180 | The node is sent again a lease that it has not acknowledged; otherwise a new lease, issued now, for a task that may be granted when none before it in the order may; it gets nothing exactly if it is unknown, offline, or no task of the order may be granted. The state takes exactly the request step. |
| `ProtocolPlans.RemovalKeepsOrder` | src/tianjun/application/task_lease_service.py:275-276 | Taking a granted task out of the queue leaves the others in their order. |
| `ControlPlane.ControlPlane.AcknowledgeLease` | src/tianjun/application/task_lease_service.py:182-196 | An acknowledgement acts exactly when node and lease identifier match: the lease is marked with the time, unless it already was, and good for at least a timeout from now; no other lease changes. |
| `ControlPlane.ControlPlane.ReportTaskProgress` | src/tianjun/application/control_plane.py:357-402 | Progress renews the lease in the same way, and the sighting of the node, exactly when it is fenced in. |
| `ControlPlane.ControlPlane.ReportTaskResult` | src/tianjun/application/control_plane.py:404-565 | Each reply, accepted, replayed or refused, is the one the protocol gives, with an empty result identifier counting as none, and the state takes exactly the report step. |
| `ControlPlane.ControlPlane.CancelTaskRun` | src/tianjun/application/control_plane.py:567-600 | Cancelling ends the lease, frees every node that holds the task, and requeues or fails a running task; it raises exactly for a task unknown to all three structures. |
| `ControlPlane.ControlPlane.DemandOfPlan` | src/tianjun/application/batch_scheduling_service.py:395-399 | The accumulated demand is the demand per node, and the loop raises exactly for a task outside the batch. |
| `ControlPlane.ControlPlane.DemandFits` | src/tianjun/application/batch_scheduling_service.py:400-403 | The loop accepts exactly when every node is known and has room for its demand. |
| `ControlPlane.ControlPlane.CommitBatch` | src/tianjun/application/batch_scheduling_service.py:382-462 | All or nothing: a conflict is reported exactly when the plan is stale, foreign or does not fit, and changes nothing; a failing write or commit leaves memory and durable store as they were; otherwise both hold every effect of the commit. |
| `ControlPlane.ControlPlane.RestoreFromStore` | src/tianjun/application/control_plane_state.py:23-136 | The restore loops take exactly the restart step, and the version becomes the least one that is not below the stored version, any node version, or zero. |
| `ControlPlane.CommitInOrder` | src/tianjun/application/batch_scheduling_service.py:420-450 | Storing the ledger last, as the code does, gives the same state as storing it first. |
| `StateStore.InsideNothingIsDurable` | src/tianjun/storage/sqlite_state_store.py:47-69 | Inside a block, nested blocks and failures caught inside included, nothing becomes durable and no write is undone. |
| `StateStore.OutermostExitDecides` | src/tianjun/storage/sqlite_state_store.py:47-69 | Leaving the outermost block makes all writes of the block and its nested blocks durable together, or none of them. |
| `StateStore.FailedCommitLeaksIffPending` | src/tianjun/storage/sqlite_state_store.py:61-65 | When the outermost commit itself fails, which is not rolled back, the next statement publishes only itself exactly when nothing was left pending on a transaction that SQLite kept open; and a new block can then be entered exactly when no transaction was kept. |
| `StateStore.SqliteStore.Write` | src/tianjun/storage/sqlite_state_store.py:186-392 | A statement outside a block commits at once together with everything pending; inside a block it changes only the working state. |
| `StateStore.SqliteStore.LeaveBlock` | src/tianjun/storage/sqlite_state_store.py:56-65 | Leaving takes the nesting step; it fails only when the outermost commit fails, which leaves the durable store alone. |
| `BatchPlanning.PlaceGreedily` | src/tianjun/application/batch_scheduling_service.py:547-571 | Greedy placement puts each task where the scheduler says, with its score and carbon, about the nodes as the tasks before it have left them, and leaves behind exactly those it says nothing usable about; the ordered tasks are split, each exactly once, and the shadow cluster carries exactly the plan. |
| `BatchPlans.FillFollows` | src/tianjun/application/batch_scheduling_service.py:547-571 | Each task of a pass is placed as the scheduler says about the nodes under the plan that the tasks before it have left, or left behind. |
| `BatchPlanning.Exchange` | src/tianjun/application/batch_scheduling_service.py:727-761 | The exchange pass keeps every placed task placed once. At each position, from the arrangement with that task taken off, an offer of the scheduler with a score better by more than 1e-9, or with less carbon and at least 98 percent of the score, is taken as it is; otherwise the placement stays as it was. |
| `BatchPlanning.Reconsider` | src/tianjun/application/batch_scheduling_service.py:727-761 | One task is taken off, and the scheduler's offer is put in its place exactly if it is better in score, or in carbon at about the score. |
| `BatchPlanning.LocalImprove` | src/tianjun/application/batch_scheduling_service.py:708-789 | The same for exchange and backfill together, which drop no placed task, duplicate none, keep the shadow cluster equal to the original load plus the current plan, and leave no task behind that a node can host which the scheduler's filters admit for it. |
| `BatchPlanning.BestTrial` | src/tianjun/application/batch_scheduling_service.py:830-860 | Each candidate the scheduler accepts is tried and the whole plan rated with the task there; the best of these by plan utility, less carbon and later identifier wins, or what was there if the scheduler refuses all candidates; the shadow cluster is left as it was. |
| `BatchPlans.TrialsAreTried` | src/tianjun/application/batch_scheduling_service.py:830-858 | The trials are exactly the candidates that the scheduler accepts, each rated with the whole plan in which the task is there. |
| `BatchPlans.CandidatesAre` | src/tianjun/application/batch_scheduling_service.py:813-828 | The candidates are the task's own node and the best-liked other nodes that can host it: all of them, or three with none passed over. |
| `BatchPlans.BestOf` | src/tianjun/application/batch_scheduling_service.py:860-860 | The trial that is returned has the highest plan utility, among equals the least carbon, among those the last node identifier, and is the first such trial. |
| `BatchPlanning.LocalImproveHierarchical` | src/tianjun/application/batch_scheduling_service.py:791-888 | At each of the first 24 positions, from the arrangement with that task taken off, the best of the rated trials on its own node and the best-liked others is put there; no other placement moves, and the promises of the exchange are kept. |
| `BatchPlanning.BuildPlan` | src/tianjun/application/batch_scheduling_service.py:487-594 | Every scheduler-based strategy starts from the greedy placements and decides each of them by its rule; it accounts for each task of the whole batch once, no choice of its placements exceeds the room a node had by more than one tolerance each, or than one in all if none of the demands is within the tolerance, and no task is left behind that a node can host which the scheduler's filters admit for it. |
| `BatchPlans.FillLeavesNoRoom` | src/tianjun/application/batch_scheduling_service.py:547-571 | For any set of nodes such that the scheduler takes the task whenever one of them can host it: if the task is left behind by a pass over the tasks, none of them can host it under the plan at the end of the pass. |
| `BatchPlanning.ShadowCluster.Occupy` | src/tianjun/application/batch_scheduling_service.py:571-571 | Placing a task adds exactly its demand under its shadow key and keeps the plan's bound. |
| `BatchPlanning.ShadowCluster.Vacate` | src/tianjun/application/batch_scheduling_service.py:731-731 | Taking a task off removes exactly that entry. |
| `PlanChecks.PlanStaysNearRoom` | src/tianjun/application/batch_scheduling_service.py:395-403 | What a plan asks of a node exceeds the node's room by at most one tolerance for each task it puts there. |
| `PlanChecks.CarefulPlanCommits` | src/tianjun/application/batch_scheduling_service.py:392-403 | A plan made with the tolerance of the code, with any number of tasks to a node, passes the commit checks on its snapshot if in each resource of each node no demand is within the tolerance, or all of them together are. |
| `PlanChecks.PreviewedPlanCommits` | src/tianjun/application/batch_scheduling_service.py:324-403 | Such a plan is still committed after any operations, as long as the version is the plan's and the process has not restarted. |
| `PlanChecks.ExactPlansAlwaysCommit` | src/tianjun/application/batch_scheduling_service.py:324-403 | A plan made with exact comparison is never refused, whatever its demands, as long as the version is the plan's and the process has not restarted. |
| `PlanChecks.TestsInTurnSufficeIff` | src/tianjun/application/batch_scheduling_service.py:400-403 | Given demands that pass a node's test one after another pass the test of their sum, on every node, exactly when in each resource the last demand that is not zero exceeds the tolerance or the sum stays within it. |
| `PlanChecks.ShadowAddsIffKeyIsFree` | src/tianjun/application/batch_scheduling_service.py:571-571 | A shadow node shows a placed demand on top of its load exactly when no running task with a load has taken the shadow key. |
| `BatchImport.CheckIds` | src/tianjun/application/batch_scheduling_service.py:152-169 | A row is reported exactly when its stripped identifier is missing, known, or that of an earlier row. |
| `BatchImport.AcceptedIdsAreDistinct` | src/tianjun/application/batch_scheduling_service.py:166-169 | Accepted rows have distinct, non-empty identifiers. |
| `BatchImport.AcceptedIdsAreNewIff` | src/tianjun/application/batch_scheduling_service.py:163-169 | Accepted identifiers are sure to be new exactly when none carries surrounding blanks: the check strips them, the stored tasks keep them. |
| `Topology.DistancesFrom` | src/tianjun/domain/network.py:163-179 | The lazy-deletion search terminates on every multigraph with delays not below zero, returns exactly the reachable vertices, each with the length of a shortest walk. |
| `Topology.DistanceIsSymmetric` | src/tianjun/domain/network.py:165-167 | Distances are the same in both directions. |
| `Topology.DistanceTriangle` | src/tianjun/domain/network.py:163-179 | Distances obey the triangle inequality. |
| `Topology.ComputeNeighborDistances` | src/tianjun/domain/network.py:143-152 | Exactly the other available attached nodes that are reachable are reported, each with the shortest distance between the anchors. |
| `Topology.NeighborDistancesAgree` | src/tianjun/domain/network.py:143-152 | Two attached nodes are reported the same distance apart, whoever asks. |
| `Topology.ConnectedComputeNeighbors` | src/tianjun/domain/network.py:139-141 | The neighbours are listed once each, in the order of their distance and, at equal distance, of their identifier. |
| `EditDistance.Compute` | src/tianjun/policy/generator.py:1107-1120 | The two-row table returns the length of a shortest script of insertions, deletions and substitutions. |
| `EditDistance.DistanceIsLeastScriptLength` | src/tianjun/policy/generator.py:1107-1120 | The recurrence gives the least script length, and no other number does. |
| `EditDistance.ZeroIffEqual` | src/tianjun/policy/generator.py:1107-1120 | The distance is zero exactly for equal strings. |
| `EditDistance.Symmetric` | src/tianjun/policy/generator.py:1107-1120 | The distance is symmetric. |
| `EditDistance.TriangleInequality` | src/tianjun/policy/generator.py:1107-1120 | The distance obeys the triangle inequality. |
| `RegionMatch.FuzzyRegion` | src/tianjun/policy/generator.py:1089-1104 | Although only prefixes of about the right length are tried, the result is as close as any prefix of two or more characters, and there is none exactly when no prefix is within one slip of a city name. |
| `Carbon.TestedTicksCoverWindow` | src/tianjun/scheduling/engine.py:89-97 | Window ends and trace breakpoints take on every carbon intensity of the window. |
| `Carbon.GreenestTick` | src/tianjun/scheduling/engine.py:86-98 | The tick found by testing only those is at most as carbon-intensive as any integer tick of the window. |
| `Carbon.IntensityIsGoverned` | src/tianjun/domain/carbon.py:89-94 | The intensity at a tick is that of the latest breakpoint not after it, or of the first breakpoint if none has been reached. |
| `Pareto.ParetoFront` | src/tianjun/scheduling/engine.py:641-662 | The double loop returns exactly the members that nobody dominates. |
| `Pareto.FrontIsExact` | src/tianjun/scheduling/engine.py:641-662 | The front of a non-empty table is non-empty, and a node is outside it exactly when a front member dominates it. |
| `Pareto.UtilityIsMonotone` | src/tianjun/scheduling/engine.py:607-619 | A candidate at least as good on every key has at least the augmented Tchebycheff utility. |
| `Pareto.UtilityIs` | src/tianjun/scheduling/engine.py:607-619 | The utility is one less the greatest weighted distance and less a hundredth of all of them, in the unit interval, and nothing without keys; no other number is. |
| `Pareto.BestUtilityIsOnFront` | src/tianjun/scheduling/engine.py:607-662 | A front member is best over the front exactly when it is best over all candidates. |
| `Pareto.GroupsRespectMetrics` | src/tianjun/scheduling/engine.py:591-605 | Being at least as good on the atomic metrics carries over to every objective group. |
| `Pareto.GroupScoresAre` | src/tianjun/scheduling/engine.py:591-605 | There are five groups; the score of a group of several metrics is their utility, that of a single metric the metric clamped. |
| `Selection.SelectNode` | src/tianjun/scheduling/engine.py:54-257 | None is returned exactly when no node passes the hard filters at its deferred tick; otherwise the choice passes them there, prefers the budget when any node meets it, is not dominated under the Pareto strategies, and has the highest adjusted total, with ties broken in the order of the code. The total is the weighted sum, the utility, or the utility less the security penalty, by strategy, less 0.75 for a scarce GPU and the cost of regional pressure. |
| `Selection.TotalIs` | src/tianjun/scheduling/engine.py:216-246 | The adjusted total is what the strategy starts from, less 0.75 for a scarce GPU and less 1.10 for each unit of regional pressure, 4.10 above 0.72, scaled. |
| `Selection.BurdensLower` | src/tianjun/scheduling/engine.py:226-246 | Scarce GPUs and regional pressure only lower the total, a scarce GPU by at least 0.75. |
| `Selection.FirstDifferenceDecides` | src/tianjun/scheduling/engine.py:248-257 | One rank exceeds another exactly when it is higher at the first place where they differ. |
| `Selection.DeferralFindsBudget` | src/tianjun/scheduling/engine.py:86-107 | The tick that is tested has the least predicted carbon of the deferral window; if some tick of the window meets the carbon budget, so does the tested one. |
| `Selection.DeferralIsHarmlessIff` | src/tianjun/scheduling/engine.py:86-110 | Whatever the carbon trace, a node that passes at some tick of the window passes at the tested tick exactly when the deadline does not fall between the earliest and the latest finish of a node that passes the other filters. |
| `Selection.DeferralCanLoseNode` | src/tianjun/scheduling/engine.py:86-110 | A node that meets every hard filter at once, and is lost because the greenest tick of its window misses the deadline. |
| `Common.NormalizeIsOnSimplex` | src/tianjun/domain/common.py:58-64 | Normalised weights lie in the unit interval and add up to one. |
| `Common.NormalizeKeepsRatios` | src/tianjun/domain/common.py:58-64 | Normalising keeps the ratios of the positive weights and drops the others; weights none of which is positive become equal. |
| `Common.ClampIsNearest` | src/tianjun/domain/common.py:54-55 | Clamping gives the nearest point of the interval. |
| `PolicyOptimizer.PressureRaisesTarget` | src/tianjun/policy/optimizer.py:171-183 | Targets are on the simplex; more pressure on one objective never lowers its target and never raises another's. |
| `PolicyOptimizer.TargetGrowsByPressure` | src/tianjun/policy/optimizer.py:171-183 | Targets stand in the ratio of the weights, with the floor of 0.005, times the exponential of their pressure. |
| `SimplexProjection.SmoothAndBound` | src/tianjun/policy/optimizer.py:185-218 | Each weight stays in the unit interval and within the cap of its old value. Before the projection it has gone towards its target by the rate or the cap, whichever is less; the projection then moves each weight by the same share of its usable room, in the direction that closes the gap, in at most one pass, and the sum misses one by at most 1e-12 for each weight. If no step exceeds the cap, the result is exactly the smoothed weights. |
| `SimplexProjection.OnePassFinishes` | src/tianjun/policy/optimizer.py:199-217 | After one redistribution pass no further pass can move anything. |
| `SimplexProjection.RenormalizingIsHarmless` | src/tianjun/domain/policy.py:93-93 | Normalising the projected weights once more moves none by more than the error of the projection. |
| `Common.NormalizeKeepsSimplex` | src/tianjun/domain/common.py:58-64 | Weights on the simplex are their own normalisation. |
| `PolicyOptimizer.PolicyState.Update` | src/tianjun/domain/policy.py:83-105 | After an update the weights are on the simplex, updating with them again changes nothing, and the history has one more entry, equal to the weights in force. |
| `PolicyOptimizer.PolicyState.Adapt` | src/tianjun/policy/optimizer.py:122-132 | One adaptation round ends on the simplex, near the cap of the old weights and, up to the error of the projection, where the capped move towards the pressure's target ends; exactly at the smoothed weights if no step exceeds the cap. |
| `Assignment.BuildMatrix` | src/tianjun/experiments/assignment.py:44-60 | The sparse matrix holds exactly the coefficients of the two kinds of rows. |
| `Assignment.FeasibleMeans` | src/tianjun/experiments/assignment.py:44-66 | The encoding admits exactly the choices that place no task twice and oversell no listed node. |
| `Assignment.BigMIsLexicographic` | src/tianjun/experiments/assignment.py:61-75 | Of two choices the one with more assignments has an objective better by at least one; with equal counts the utility decides. |
| `Assignment.OptimaAreLexicographic` | src/tianjun/experiments/assignment.py:61-75 | The optima of the encoding are exactly the feasible choices with the most assignments and, among those, the most utility. |
| `Genetic.Decode` | src/tianjun/experiments/assignment.py:98-111 | Every genome decodes, gene by gene in the given order, to a plan with no task twice, within capacity plus 1e-9 in the four keys, and with every picked candidate either in the plan or not fitting beside it. |
| `Genetic.Breed` | src/tianjun/experiments/assignment.py:122-127 | A child has the right length and genes in range, and takes its genes from its parents except for one mutation. |
| `Genetic.NextGeneration` | src/tianjun/experiments/assignment.py:114-130 | A generation keeps genes in range and its size, and the elites survive. |
| `Genetic.TolerantFrontNeverEmptyIff` | src/tianjun/experiments/assignment.py:142-156 | Whatever the problem, the decoded plans of a population, compared by count, utility and objectives, have a front exactly when there are at most two genomes or at most one objective. |
| `Genetic.PopulationWithoutFront` | src/tianjun/experiments/assignment.py:142-156 | A problem with one task and three free candidates, and a population of any size above two, whose decoded plans beat each other in a circle, so that the search returns nothing. |
| `Genetic.Search` | src/tianjun/experiments/assignment.py:86-131 | The plans that the search hands over place no task twice and stay within capacity plus 1e-9. |

## Left out

* Objects and aliasing: tasks, nodes and leases are values in maps, so the model does not show
  which objects are shared, and the state after a rollback is compared by value only.
* A task with the identifier of a batch task that is submitted separately between import and
  commit; the batch then works on its own copy.
* Batch status, plan status, stored batches and plans, progress events, decision log, the contents
  of execution records and the health and telemetry fields of nodes: they carry no protocol state.
* Reads that change nothing besides the sweep (previews of single tasks, reports).
* The order in which the queue is scanned is an input; the sort key (priority, deadline, submit
  tick, identifier) is not part of this model.
* The scheduler inside the lease protocol and the planner is an arbitrary choice among the nodes that
  can host the task, or none; `Selection` models the choice itself, with the network model and the
  metric formulas of a node as an input record.
* Comparing the plans of several strategies and recommending one.
* The order in which a batch is planned, and in which the plan-level search likes the other nodes,
  are inputs: any order of the whole batch, any preference that looks at the nodes.
* Which of several unacknowledged leases a node is sent again: the code takes the first in the order
  of its dictionary.
* `CanHost` and the shadow cluster test online and room; health, regions, labels, trust, isolation
  and encryption are one flag of a node in `Selection`.
* `_future_fit` and the formula of the plan utility: the hierarchical search is proved for any
  rating of a plan and the nodes under it.
* The experimental planners write their solutions into the shadow cluster without the checks
  above; only their encodings and the decoder are modelled, over the four resources they look at.
* The solver of the integer program; any optimum may be returned.
* Random numbers of the genetic search are arbitrary, and the elites of a generation and the plans
  it hands over are arbitrary subsets, which covers whatever `_nondominated` selects.
* The exponential in the pressure target is an arbitrary positive factor.
* The regular expressions and alias tables of the requirement parser; the text after a place
  marker and the city names are inputs of `FuzzyRegion`.
* Blanks other than space, tab, line feed and carriage return in `Strip`.
* Row checks of an import other than the identifier (numbers, ranges, security level).
* Restored receipts are taken as stored, since what is stored has distinct identifiers and at most
  2000 entries.
* SQL, write-ahead logging, schema migration, backups and pruning; a save, delete or set method is
  one `Write` on the stored maps, and a failing statement leaves no effect of its own.
* Writes that fail outside a batch commit: the other operations of the code are not transactions,
  so their methods are modelled over a reliable store.
* Threads and locks, HTTP, chat, dashboard, executors and report building.
* ProtocolVersions.SameVersionMeansNoLessRoom: holds within one process lifetime only, because a lease activation
  moves the version on without storing it.
* Genetic.Decode: the greedy clause needs demands that are not negative; the other clauses do not.
* BatchPlanning.BuildPlan: that no task is left behind speaks of filters that do not depend on the plan; a refusal for
  a reason that does, such as the carbon budget at a deferred tick, is not covered.
