/** Two offline baselines for assigning tasks to nodes: the integer program whose big-M
    reward makes cardinality come before utility, and the genetic search whose decoder
    keeps every genome within capacity. */
module Assignment {
  import opened Common

  const TOLERANCE: real := 0.000000001

  /** The four resources both baselines look at. */
  const RESOURCE_KEYS := ["cpu", "memory", "gpu", "storage"]

  type Vector = map<string, real>

  /** A missing key counts as zero. */
  function Get(v: Vector, key: string): real {
    if key in v then v[key] else 0.0
  }

  datatype Candidate = Candidate(task: string, node: string, utility: real, demand: Vector, objectives: Vector)

  // ----- the integer program

  /** One constraint row: a task is placed once, a resource of a node is not oversold. */
  datatype Row = TaskRow(task: string) | ResourceRow(node: string, key: string)

  function Coefficient(c: Candidate, row: Row): real {
    match row
    case TaskRow(task) => if c.task == task then 1.0 else 0.0
    case ResourceRow(node, key) => if c.node == node && key in RESOURCE_KEYS then Get(c.demand, key) else 0.0
  }

  /** The sparse matrix; entries that were never written are zero. */
  type Matrix = map<(Row, nat), real>

  function Entry(m: Matrix, row: Row, column: nat): real {
    if (row, column) in m then m[(row, column)] else 0.0
  }

  function Write(m: Matrix, row: Row, column: nat, value: real): (r: Matrix)
    ensures forall other, j: nat :: Entry(r, other, j) == if other == row && j == column then value else Entry(m, other, j)
  {
    m[(row, column) := value]
  }

  method BuildMatrix(cs: seq<Candidate>) returns (m: Matrix)
    ensures forall row, column: nat :: column < |cs| ==> Entry(m, row, column) == Coefficient(cs[column], row)
  {
    m := map[];
    var column := 0;
    while column < |cs|
      invariant 0 <= column <= |cs|
      invariant forall row, j: nat :: j < column ==> Entry(m, row, j) == Coefficient(cs[j], row)
      invariant forall row, j: nat :: column <= j ==> Entry(m, row, j) == 0.0
    {
      ghost var before := m;
      m := Write(m, TaskRow(cs[column].task), column, 1.0);
      var k := 0;
      while k < |RESOURCE_KEYS|
        invariant 0 <= k <= |RESOURCE_KEYS|
        invariant forall row, j: nat :: j != column ==> Entry(m, row, j) == Entry(before, row, j)
        invariant forall task :: Entry(m, TaskRow(task), column) == if task == cs[column].task then 1.0 else 0.0
        invariant forall node, key :: Entry(m, ResourceRow(node, key), column) ==
                    if node == cs[column].node && key in RESOURCE_KEYS[..k] then Get(cs[column].demand, key) else 0.0
      {
        var key := RESOURCE_KEYS[k];
        assert RESOURCE_KEYS[..k + 1] == RESOURCE_KEYS[..k] + [key];
        m := Write(m, ResourceRow(cs[column].node, key), column, Get(cs[column].demand, key));
        k := k + 1;
      }
      assert RESOURCE_KEYS[..k] == RESOURCE_KEYS;
      forall row
        ensures Entry(m, row, column) == Coefficient(cs[column], row)
      {
        match row
        case TaskRow(_) =>
        case ResourceRow(_, _) =>
      }
      column := column + 1;
    }
  }

  /** A zero-one vector over the candidates. */
  type Choice = seq<bool>

  function Activity(cs: seq<Candidate>, x: Choice, row: Row, n: nat): real
    requires n <= |cs| == |x|
  {
    if n == 0 then 0.0
    else Activity(cs, x, row, n - 1) + if x[n - 1] then Coefficient(cs[n - 1], row) else 0.0
  }

  /** What the solver is asked for: every row between zero and its upper bound. */
  ghost predicate Feasible(cs: seq<Candidate>, capacities: map<string, Vector>, x: Choice) {
    && |x| == |cs|
    && (forall task :: 0.0 <= Activity(cs, x, TaskRow(task), |cs|) <= 1.0)
    && (forall node, key :: node in capacities && key in RESOURCE_KEYS ==>
          0.0 <= Activity(cs, x, ResourceRow(node, key), |cs|) <= Get(capacities[node], key))
  }

  /** The chosen candidates place no task twice. */
  ghost predicate OncePerTask(cs: seq<Candidate>, x: Choice, n: nat)
    requires n <= |cs| == |x|
  {
    forall i, j :: 0 <= i < j < n && x[i] && x[j] ==> cs[i].task != cs[j].task
  }

  lemma {:induction false} TaskActivityCounts(cs: seq<Candidate>, x: Choice, task: string, n: nat)
    requires n <= |cs| == |x|
    ensures Activity(cs, x, TaskRow(task), n) >= 0.0
    ensures Activity(cs, x, TaskRow(task), n) < 1.0 <==> forall i :: 0 <= i < n && x[i] ==> cs[i].task != task
    ensures Activity(cs, x, TaskRow(task), n) <= 1.0 <==>
            forall i, j :: 0 <= i < j < n && x[i] && x[j] && cs[i].task == task ==> cs[j].task != task
    ensures Activity(cs, x, TaskRow(task), n) < 1.0 ==> Activity(cs, x, TaskRow(task), n) == 0.0
    ensures Activity(cs, x, TaskRow(task), n) > 1.0 ==> Activity(cs, x, TaskRow(task), n) >= 2.0
  {
    if n > 0 {
      TaskActivityCounts(cs, x, task, n - 1);
    }
  }

  /** The encoding says exactly: no task twice, no listed node oversold. */
  lemma FeasibleMeans(cs: seq<Candidate>, capacities: map<string, Vector>, x: Choice)
    requires |x| == |cs|
    ensures Feasible(cs, capacities, x) <==>
            && OncePerTask(cs, x, |cs|)
            && forall node, key :: node in capacities && key in RESOURCE_KEYS ==>
                 0.0 <= Activity(cs, x, ResourceRow(node, key), |cs|) <= Get(capacities[node], key)
  {
    forall task
      ensures Activity(cs, x, TaskRow(task), |cs|) >= 0.0
      ensures Activity(cs, x, TaskRow(task), |cs|) <= 1.0 <==>
              forall i, j :: 0 <= i < j < |cs| && x[i] && x[j] && cs[i].task == task ==> cs[j].task != task
    {
      TaskActivityCounts(cs, x, task, |cs|);
    }
    if Feasible(cs, capacities, x) {
      forall i, j | 0 <= i < j < |cs| && x[i] && x[j]
        ensures cs[i].task != cs[j].task
      {
        assert Activity(cs, x, TaskRow(cs[i].task), |cs|) <= 1.0;
      }
    }
  }

  function Count(x: Choice, n: nat): nat
    requires n <= |x|
  {
    if n == 0 then 0 else Count(x, n - 1) + if x[n - 1] then 1 else 0
  }

  function Utility(cs: seq<Candidate>, x: Choice, n: nat): real
    requires n <= |cs| == |x|
  {
    if n == 0 then 0.0 else Utility(cs, x, n - 1) + if x[n - 1] then cs[n - 1].utility else 0.0
  }

  function TotalSize(cs: seq<Candidate>, n: nat): real
    requires n <= |cs|
  {
    if n == 0 then 0.0 else TotalSize(cs, n - 1) + Abs(cs[n - 1].utility)
  }

  /** The big M. */
  function Reward(cs: seq<Candidate>): real {
    Max(1.0, TotalSize(cs, |cs|) + 1.0)
  }

  /** The minimised objective, term by term. */
  function Objective(cs: seq<Candidate>, x: Choice, n: nat): real
    requires n <= |cs| == |x|
  {
    if n == 0 then 0.0
    else Objective(cs, x, n - 1) + if x[n - 1] then -(Reward(cs) + cs[n - 1].utility) else 0.0
  }

  /** The objective of so many assignments with this utility. */
  function Worth(count: nat, reward: real, utility: real): real {
    -(count as real * reward) - utility
  }

  lemma {:induction false} ObjectiveSplits(cs: seq<Candidate>, x: Choice, n: nat)
    requires n <= |cs| == |x|
    ensures Objective(cs, x, n) == Worth(Count(x, n), Reward(cs), Utility(cs, x, n))
  {
    if n > 0 {
      ObjectiveSplits(cs, x, n - 1);
      var count := Count(x, n - 1) as real;
      assert (count + 1.0) * Reward(cs) == count * Reward(cs) + Reward(cs);
    }
  }

  /** Two choices differ in utility by at most the sum of all utility sizes. */
  lemma {:induction false} UtilityGap(cs: seq<Candidate>, x: Choice, y: Choice, n: nat)
    requires n <= |cs| == |x| == |y|
    ensures Abs(Utility(cs, x, n) - Utility(cs, y, n)) <= TotalSize(cs, n)
  {
    if n > 0 {
      UtilityGap(cs, x, y, n - 1);
    }
  }

  lemma {:induction false} TotalSizeNonNegative(cs: seq<Candidate>, n: nat)
    requires n <= |cs|
    ensures TotalSize(cs, n) >= 0.0
  {
    if n > 0 {
      TotalSizeNonNegative(cs, n - 1);
    }
  }

  /** One more assignment is worth at least one unit of objective, whatever it costs in
      utility; among equally many assignments the objective orders by utility. */
  lemma BigMIsLexicographic(cs: seq<Candidate>, x: Choice, y: Choice)
    requires |x| == |y| == |cs|
    ensures Count(x, |cs|) > Count(y, |cs|) ==> Objective(cs, x, |cs|) <= Objective(cs, y, |cs|) - 1.0
    ensures Count(x, |cs|) == Count(y, |cs|) ==>
              Objective(cs, x, |cs|) - Objective(cs, y, |cs|) == Utility(cs, y, |cs|) - Utility(cs, x, |cs|)
  {
    ObjectiveSplits(cs, x, |cs|);
    ObjectiveSplits(cs, y, |cs|);
    UtilityGap(cs, x, y, |cs|);
    TotalSizeNonNegative(cs, |cs|);
    RewardDecides(Count(x, |cs|), Count(y, |cs|), Reward(cs), Utility(cs, x, |cs|), Utility(cs, y, |cs|), TotalSize(cs, |cs|));
  }

  lemma RewardDecides(cx: nat, cy: nat, reward: real, ux: real, uy: real, size: real)
    requires reward >= size + 1.0 >= 1.0 && Abs(ux - uy) <= size
    ensures cx > cy ==> Worth(cx, reward, ux) <= Worth(cy, reward, uy) - 1.0
    ensures cx == cy ==> Worth(cx, reward, ux) - Worth(cy, reward, uy) == uy - ux
  {
    if cx > cy {
      RewardDominates(cx, cy, reward, ux, uy, size);
    }
  }

  lemma RewardDominates(more: nat, fewer: nat, reward: real, ux: real, uy: real, size: real)
    requires more > fewer && reward >= size + 1.0 >= 1.0 && Abs(ux - uy) <= size
    ensures Worth(more, reward, ux) <= Worth(fewer, reward, uy) - 1.0
  {
    ProductNonNegative((more - fewer - 1) as real, reward);
    assert more as real * reward == fewer as real * reward + reward + (more - fewer - 1) as real * reward;
  }

  ghost predicate Optimal(cs: seq<Candidate>, capacities: map<string, Vector>, x: Choice) {
    && Feasible(cs, capacities, x)
    && forall y :: Feasible(cs, capacities, y) ==> Objective(cs, x, |cs|) <= Objective(cs, y, |cs|)
  }

  /** First as many assignments as possible, then as much utility as possible. */
  ghost predicate LexicographicallyBest(cs: seq<Candidate>, capacities: map<string, Vector>, x: Choice) {
    && Feasible(cs, capacities, x)
    && forall y :: Feasible(cs, capacities, y) ==>
         || Count(y, |cs|) < Count(x, |cs|)
         || (Count(y, |cs|) == Count(x, |cs|) && Utility(cs, y, |cs|) <= Utility(cs, x, |cs|))
  }

  lemma OptimaAreLexicographic(cs: seq<Candidate>, capacities: map<string, Vector>, x: Choice)
    ensures Optimal(cs, capacities, x) <==> LexicographicallyBest(cs, capacities, x)
  {
    if Feasible(cs, capacities, x) {
      forall y | Feasible(cs, capacities, y)
        ensures Objective(cs, x, |cs|) <= Objective(cs, y, |cs|) <==>
                || Count(y, |cs|) < Count(x, |cs|)
                || (Count(y, |cs|) == Count(x, |cs|) && Utility(cs, y, |cs|) <= Utility(cs, x, |cs|))
      {
        BigMIsLexicographic(cs, x, y);
        BigMIsLexicographic(cs, y, x);
      }
    }
  }
}
