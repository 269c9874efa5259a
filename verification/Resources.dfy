/** Resource vectors, what a node's tasks add up to, and why the tolerant fit test
    never lets a node drift further from its capacity than one tolerance per task. */
module Resources {
  import opened Common

  /** Slack of the fit test. */
  const TOLERANCE: real := 0.000000001

  datatype Field = Cpu | Memory | Gpu | Storage | Mips | GpuMemory | StorageIops | Bandwidth

  datatype ResourceVector = ResourceVector(
    cpu: real, memory: real, gpu: real, storage: real,
    mips: real, gpuMemory: real, storageIops: real, bandwidth: real)
  {
    function Get(f: Field): real {
      match f
      case Cpu => cpu
      case Memory => memory
      case Gpu => gpu
      case Storage => storage
      case Mips => mips
      case GpuMemory => gpuMemory
      case StorageIops => storageIops
      case Bandwidth => bandwidth
    }

    function Plus(other: ResourceVector): (r: ResourceVector)
      ensures forall f: Field :: r.Get(f) == Get(f) + other.Get(f)
    {
      ResourceVector(cpu + other.cpu, memory + other.memory, gpu + other.gpu, storage + other.storage,
        mips + other.mips, gpuMemory + other.gpuMemory, storageIops + other.storageIops, bandwidth + other.bandwidth)
    }

    function Minus(other: ResourceVector): (r: ResourceVector)
      ensures forall f: Field :: r.Get(f) == Get(f) - other.Get(f)
    {
      ResourceVector(cpu - other.cpu, memory - other.memory, gpu - other.gpu, storage - other.storage,
        mips - other.mips, gpuMemory - other.gpuMemory, storageIops - other.storageIops, bandwidth - other.bandwidth)
    }

    function ClampNonNegative(): (r: ResourceVector)
      ensures forall f: Field :: r.Get(f) == Max(0.0, Get(f))
    {
      ResourceVector(Max(0.0, cpu), Max(0.0, memory), Max(0.0, gpu), Max(0.0, storage),
        Max(0.0, mips), Max(0.0, gpuMemory), Max(0.0, storageIops), Max(0.0, bandwidth))
    }

    /** The fit test with an explicit slack. */
    predicate FitsWithin(other: ResourceVector, slack: real)
      ensures FitsWithin(other, slack) <==> forall f: Field :: Get(f) <= other.Get(f) + slack
    {
      var fits := cpu <= other.cpu + slack && memory <= other.memory + slack && gpu <= other.gpu + slack
        && storage <= other.storage + slack && mips <= other.mips + slack && gpuMemory <= other.gpuMemory + slack
        && storageIops <= other.storageIops + slack && bandwidth <= other.bandwidth + slack;
      assert fits ==> forall f: Field :: Get(f) <= other.Get(f) + slack;
      assert !fits ==> exists f: Field :: Get(f) > other.Get(f) + slack by {
        if !fits {
          assert Get(Cpu) > other.Get(Cpu) + slack || Get(Memory) > other.Get(Memory) + slack
              || Get(Gpu) > other.Get(Gpu) + slack || Get(Storage) > other.Get(Storage) + slack
              || Get(Mips) > other.Get(Mips) + slack || Get(GpuMemory) > other.Get(GpuMemory) + slack
              || Get(StorageIops) > other.Get(StorageIops) + slack || Get(Bandwidth) > other.Get(Bandwidth) + slack;
        }
      }
      fits
    }

    predicate FitsIn(other: ResourceVector) {
      FitsWithin(other, TOLERANCE)
    }

    ghost predicate NonNegative() {
      forall f: Field :: Get(f) >= 0.0
    }
  }

  const ZERO := ResourceVector(0.0, 0.0, 0.0, 0.0, 0.0, 0.0, 0.0, 0.0)

  // ----- what the tasks of a node add up to

  type TaskId = string

  /** The resources each task on a node holds. */
  type Allocations = map<TaskId, ResourceVector>

  ghost function Share(running: Allocations, t: TaskId, f: Field): real {
    if t in running then running[t].Get(f) else 0.0
  }

  /** The sum over a set of tasks, in whatever order. */
  ghost function Load(running: Allocations, tasks: set<TaskId>, f: Field): real {
    if tasks == {} then 0.0
    else
      var t :| t in tasks;
      Share(running, t, f) + Load(running, tasks - {t}, f)
  }

  ghost function Used(running: Allocations, f: Field): real {
    Load(running, running.Keys, f)
  }

  lemma {:induction false} LoadOfOne(running: Allocations, tasks: set<TaskId>, t: TaskId, f: Field)
    requires t in tasks
    ensures Load(running, tasks, f) == Share(running, t, f) + Load(running, tasks - {t}, f)
    decreases tasks
  {
    var u :| u in tasks && Load(running, tasks, f) == Share(running, u, f) + Load(running, tasks - {u}, f);
    if u != t {
      LoadOfOne(running, tasks - {u}, t, f);
      LoadOfOne(running, tasks - {t}, u, f);
      assert tasks - {u} - {t} == tasks - {t} - {u};
    }
  }

  /** Only the shares of the summed tasks matter. */
  lemma {:induction false} LoadDependsOnShares(r1: Allocations, r2: Allocations, tasks: set<TaskId>, f: Field)
    requires forall t :: t in tasks ==> Share(r1, t, f) == Share(r2, t, f)
    ensures Load(r1, tasks, f) == Load(r2, tasks, f)
    decreases tasks
  {
    if tasks != {} {
      var t :| t in tasks;
      LoadDependsOnShares(r1, r2, tasks - {t}, f);
      LoadOfOne(r1, tasks, t, f);
      LoadOfOne(r2, tasks, t, f);
    }
  }

  ghost predicate AllNonNegative(running: Allocations) {
    forall t :: t in running ==> running[t].NonNegative()
  }

  lemma {:induction false} LoadIsMonotone(running: Allocations, part: set<TaskId>, whole: set<TaskId>, f: Field)
    requires AllNonNegative(running) && part <= whole
    ensures Load(running, part, f) <= Load(running, whole, f)
    decreases whole
  {
    if t :| t in whole && t !in part {
      LoadIsMonotone(running, part, whole - {t}, f);
      LoadOfOne(running, whole, t, f);
      assert Share(running, t, f) >= 0.0;
    } else {
      assert part == whole;
    }
  }

  lemma LoadNonNegative(running: Allocations, tasks: set<TaskId>, f: Field)
    requires AllNonNegative(running)
    ensures Load(running, tasks, f) >= 0.0
  {
    LoadIsMonotone(running, {}, tasks, f);
  }

  lemma UsedAfterPut(running: Allocations, t: TaskId, demand: ResourceVector, f: Field)
    requires t !in running
    ensures Used(running[t := demand], f) == Used(running, f) + demand.Get(f)
  {
    var after := running[t := demand];
    LoadOfOne(after, after.Keys, t, f);
    assert after.Keys - {t} == running.Keys;
    LoadDependsOnShares(running, after, running.Keys, f);
  }

  lemma UsedAfterRemove(running: Allocations, t: TaskId, f: Field)
    requires t in running
    ensures Used(running - {t}, f) == Used(running, f) - running[t].Get(f)
  {
    LoadOfOne(running, running.Keys, t, f);
    assert (running - {t}).Keys == running.Keys - {t};
    LoadDependsOnShares(running, running - {t}, running.Keys - {t}, f);
  }

  /** The running total that `Node.used` keeps while it walks over the tasks. */
  method ComputeUsed(running: Allocations) returns (total: ResourceVector)
    ensures forall f: Field :: total.Get(f) == Used(running, f)
  {
    total := ZERO;
    var left := running.Keys;
    assert forall f: Field :: Load(running, running.Keys - left, f) == 0.0 by {
      assert running.Keys - left == {};
    }
    while left != {}
      invariant left <= running.Keys
      invariant forall f: Field :: total.Get(f) == Load(running, running.Keys - left, f)
      decreases left
    {
      var t :| t in left;
      ghost var seen := running.Keys - left;
      total := total.Plus(running[t]);
      left := left - {t};
      forall f: Field
        ensures Load(running, running.Keys - left, f) == Load(running, seen, f) + running[t].Get(f)
      {
        assert running.Keys - left - {t} == seen;
        LoadOfOne(running, running.Keys - left, t, f);
      }
    }
    assert running.Keys - left == running.Keys;
  }

  // ----- capacity

  /** What `Node.available` reports for one resource. */
  ghost function Available(capacity: ResourceVector, running: Allocations, f: Field): real {
    Max(0.0, capacity.Get(f) - Used(running, f))
  }

  method ComputeAvailable(capacity: ResourceVector, running: Allocations) returns (available: ResourceVector)
    ensures forall f: Field :: available.Get(f) == Available(capacity, running, f)
  {
    var used := ComputeUsed(running);
    available := capacity.Minus(used).ClampNonNegative();
  }

  /** One slack for each of `n` tasks. */
  function Slack(n: nat, slack: real): real {
    if n == 0 then 0.0 else Slack(n - 1, slack) + slack
  }

  lemma {:induction false} SlackIsProduct(n: nat, slack: real)
    ensures Slack(n, slack) == n as real * slack
  {
    if n > 0 {
      SlackIsProduct(n - 1, slack);
    }
  }

  lemma {:induction false} SlackGrows(m: nat, n: nat, slack: real)
    requires m <= n && slack >= 0.0
    ensures 0.0 <= Slack(m, slack) <= Slack(n, slack)
    ensures m < n ==> Slack(m, slack) + slack <= Slack(n, slack)
    decreases n
  {
    if m < n {
      SlackGrows(m, n - 1, slack);
    } else if n > 0 {
      SlackGrows(m - 1, n - 1, slack);
    }
  }

  ghost predicate FitsOn(demand: ResourceVector, capacity: ResourceVector, running: Allocations, slack: real) {
    forall f: Field :: demand.Get(f) <= Available(capacity, running, f) + slack
  }

  /** No subset of a node's tasks exceeds capacity by more than `slack` per task. Taking
      every subset makes the bound survive removals in any order. */
  ghost predicate NeverOversold(capacity: ResourceVector, running: Allocations, slack: real) {
    forall tasks: set<TaskId>, f: Field :: tasks <= running.Keys && tasks != {} ==>
      Load(running, tasks, f) <= Max(0.0, capacity.Get(f)) + Slack(|tasks|, slack)
  }

  /** The new task against any tasks already there. */
  lemma AdmissionBeside(capacity: ResourceVector, running: Allocations, demand: ResourceVector, slack: real,
                        others: set<TaskId>, f: Field)
    requires NeverOversold(capacity, running, slack) && AllNonNegative(running) && slack >= 0.0
    requires FitsOn(demand, capacity, running, slack) && others <= running.Keys
    ensures Load(running, others, f) + demand.Get(f) <= Max(0.0, capacity.Get(f)) + (Slack(|others|, slack) + slack)
  {
    LoadIsMonotone(running, others, running.Keys, f);
    LoadNonNegative(running, running.Keys, f);
    SlackGrows(0, |others|, slack);
    assert demand.Get(f) <= Available(capacity, running, f) + slack;
    if others != {} {
      assert Load(running, others, f) <= Max(0.0, capacity.Get(f)) + Slack(|others|, slack);
    }
  }

  lemma AdmissionKeepsBound(
      capacity: ResourceVector, running: Allocations, t: TaskId, demand: ResourceVector, slack: real)
    requires NeverOversold(capacity, running, slack) && AllNonNegative(running) && slack >= 0.0
    requires t !in running && FitsOn(demand, capacity, running, slack)
    ensures NeverOversold(capacity, running[t := demand], slack)
  {
    var after := running[t := demand];
    forall tasks: set<TaskId>, f: Field | tasks <= after.Keys && tasks != {}
      ensures Load(after, tasks, f) <= Max(0.0, capacity.Get(f)) + Slack(|tasks|, slack)
    {
      var rest := tasks - {t};
      LoadDependsOnShares(after, running, rest, f);
      if t in tasks {
        LoadOfOne(after, tasks, t, f);
        AdmissionBeside(capacity, running, demand, slack, rest, f);
        assert |tasks| == |rest| + 1;
      } else {
        assert rest == tasks;
      }
    }
  }

  lemma RemovalKeepsBound(capacity: ResourceVector, running: Allocations, t: TaskId, slack: real)
    requires NeverOversold(capacity, running, slack)
    ensures NeverOversold(capacity, running - {t}, slack)
  {
    var after := running - {t};
    forall tasks: set<TaskId>, f: Field | tasks <= after.Keys && tasks != {}
      ensures Load(after, tasks, f) <= Max(0.0, capacity.Get(f)) + Slack(|tasks|, slack)
    {
      LoadDependsOnShares(after, running, tasks, f);
      assert tasks <= running.Keys;
    }
  }

  /** Each of these tasks asks for nothing of a resource, or for more than the slack. */
  ghost predicate Solid(running: Allocations, tasks: set<TaskId>, f: Field, slack: real) {
    forall t :: t in tasks ==> Share(running, t, f) == 0.0 || Share(running, t, f) > slack
  }

  /** Tasks without a demand inside the slack exceed capacity by one slack in all, however
      many they are: the test lets a larger demand in only while there is room left. */
  ghost predicate SolidFit(capacity: ResourceVector, running: Allocations, slack: real) {
    forall tasks: set<TaskId>, f: Field :: tasks <= running.Keys && Solid(running, tasks, f, slack) ==>
      Load(running, tasks, f) <= Max(0.0, capacity.Get(f)) + slack
  }

  lemma SolidDemandFits(capacity: ResourceVector, running: Allocations, demand: ResourceVector, slack: real,
                        others: set<TaskId>, f: Field)
    requires AllNonNegative(running) && FitsOn(demand, capacity, running, slack) && others <= running.Keys
    requires demand.Get(f) > slack
    ensures Load(running, others, f) + demand.Get(f) <= Max(0.0, capacity.Get(f)) + slack
  {
    LoadIsMonotone(running, others, running.Keys, f);
    assert demand.Get(f) <= Available(capacity, running, f) + slack;
  }

  lemma AdmissionKeepsSolidFit(
      capacity: ResourceVector, running: Allocations, t: TaskId, demand: ResourceVector, slack: real)
    requires SolidFit(capacity, running, slack) && AllNonNegative(running)
    requires t !in running && FitsOn(demand, capacity, running, slack)
    ensures SolidFit(capacity, running[t := demand], slack)
  {
    var after := running[t := demand];
    forall tasks: set<TaskId>, f: Field | tasks <= after.Keys && Solid(after, tasks, f, slack)
      ensures Load(after, tasks, f) <= Max(0.0, capacity.Get(f)) + slack
    {
      var rest := tasks - {t};
      LoadDependsOnShares(after, running, rest, f);
      assert Solid(running, rest, f, slack) by {
        assert forall u :: u in rest ==> Share(running, u, f) == Share(after, u, f);
      }
      if t in tasks {
        LoadOfOne(after, tasks, t, f);
        assert Share(after, t, f) == demand.Get(f);
        if demand.Get(f) > slack {
          SolidDemandFits(capacity, running, demand, slack, rest, f);
        }
      } else {
        assert rest == tasks;
      }
    }
  }

  lemma RemovalKeepsSolidFit(capacity: ResourceVector, running: Allocations, t: TaskId, slack: real)
    requires SolidFit(capacity, running, slack)
    ensures SolidFit(capacity, running - {t}, slack)
  {
    var after := running - {t};
    forall tasks: set<TaskId>, f: Field | tasks <= after.Keys && Solid(after, tasks, f, slack)
      ensures Load(after, tasks, f) <= Max(0.0, capacity.Get(f)) + slack
    {
      LoadDependsOnShares(after, running, tasks, f);
      assert Solid(running, tasks, f, slack) by {
        assert forall u :: u in tasks ==> Share(running, u, f) == Share(after, u, f);
      }
    }
  }

  /** The bound in the form a reader wants it. */
  lemma BoundOnUsed(capacity: ResourceVector, running: Allocations, slack: real, f: Field)
    requires NeverOversold(capacity, running, slack) && slack >= 0.0
    ensures Used(running, f) <= Max(0.0, capacity.Get(f)) + |running| as real * slack
  {
    SlackIsProduct(|running|, slack);
    SlackGrows(0, |running|, slack);
    assert |running| == |running.Keys|;
  }

  /** `m` old tasks carrying `lo` of the load `used`, and `n` new ones carrying `la` of the
      tested `sum`: room is tested once, and the old tasks may already be over capacity. */
  lemma JointArithmetic(lo: real, used: real, m: nat, la: real, sum: real, n: nat, total: nat,
                        capacity: real, slack: real)
    requires total == m + n && 0.0 <= slack && 0.0 <= used && lo <= used && la <= sum
    requires if m == 0 then lo == 0.0 else lo <= Max(0.0, capacity) + Slack(m, slack)
    requires n == 0 ==> la == 0.0
    requires sum <= Max(0.0, capacity - used) + slack
    ensures lo + la <= Max(0.0, capacity) + Slack(total, slack)
  {
    SlackGrows(0, m, slack);
    SlackGrows(m, total, slack);
  }

  /** The load of a set of tasks, some old and some new. */
  lemma LoadOfUnion(running: Allocations, batch: Allocations, tasks: set<TaskId>, f: Field)
    requires running.Keys !! batch.Keys && tasks <= running.Keys + batch.Keys
    ensures Load(running + batch, tasks, f)
            == Load(running, tasks * running.Keys, f) + Load(batch, tasks * batch.Keys, f)
    ensures |tasks| == |tasks * running.Keys| + |tasks * batch.Keys|
  {
    var after := running + batch;
    var others, added := tasks * running.Keys, tasks * batch.Keys;
    assert others + added == tasks;
    LoadSplits(after, others, added, f);
    LoadDependsOnShares(after, running, others, f);
    LoadDependsOnShares(after, batch, added, f);
  }

  /** Adding several tasks after testing only their sum, as batch commit does. */
  lemma JointAdmissionKeepsBound(
      capacity: ResourceVector, running: Allocations, batch: Allocations, slack: real)
    requires NeverOversold(capacity, running, slack) && slack >= 0.0
    requires AllNonNegative(running) && AllNonNegative(batch) && running.Keys !! batch.Keys
    requires forall f: Field :: Used(batch, f) <= Available(capacity, running, f) + slack
    ensures NeverOversold(capacity, running + batch, slack)
  {
    forall tasks: set<TaskId>, f: Field | tasks <= (running + batch).Keys && tasks != {}
      ensures Load(running + batch, tasks, f) <= Max(0.0, capacity.Get(f)) + Slack(|tasks|, slack)
    {
      var others, added := tasks * running.Keys, tasks * batch.Keys;
      LoadOfUnion(running, batch, tasks, f);
      LoadIsMonotone(running, others, running.Keys, f);
      LoadIsMonotone(batch, added, batch.Keys, f);
      LoadNonNegative(running, running.Keys, f);
      EmptyLoad(batch, added, f);
      JointArithmetic(Load(running, others, f), Used(running, f), |others|,
                      Load(batch, added, f), Used(batch, f), |added|, |tasks|, capacity.Get(f), slack);
    }
  }

  lemma EmptyLoad(running: Allocations, tasks: set<TaskId>, f: Field)
    ensures |tasks| == 0 ==> Load(running, tasks, f) == 0.0
  {
    if |tasks| == 0 {
      assert tasks == {};
    }
  }

  lemma {:induction false} LoadSplits(running: Allocations, s: set<TaskId>, t: set<TaskId>, f: Field)
    requires s !! t
    ensures Load(running, s + t, f) == Load(running, s, f) + Load(running, t, f)
    decreases s
  {
    if s == {} {
      assert s + t == t;
    } else {
      var x :| x in s;
      LoadOfOne(running, s, x, f);
      LoadOfOne(running, s + t, x, f);
      assert s + t - {x} == (s - {x}) + t;
      LoadSplits(running, s - {x}, t, f);
    }
  }
}
