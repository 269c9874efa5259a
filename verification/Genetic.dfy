/** The genetic baseline: a greedy decoder that turns any genome into a plan within
    capacity, and the generation loop that keeps every genome well formed. */
module Genetic {
  import opened Assignment

  /** One gene per task: a negative gene leaves the task out, any other picks a candidate. */
  type Genome = seq<int>

  datatype Problem = Problem(
    tasks: seq<string>, byTask: map<string, seq<Candidate>>, order: seq<nat>, capacities: map<string, Vector>)
  {
    /** Tasks are distinct, every task has candidates of its own on known nodes, and
        `order` visits every position once. */
    ghost predicate Valid() {
      && tasks != []
      && (forall i, j :: 0 <= i < j < |tasks| ==> tasks[i] != tasks[j])
      && (forall i :: 0 <= i < |tasks| ==> tasks[i] in byTask && byTask[tasks[i]] != [])
      && (forall task, c :: task in byTask && c in byTask[task] ==> c.task == task && c.node in capacities)
      && (forall i, j :: 0 <= i < j < |order| ==> order[i] != order[j])
      && (forall k :: 0 <= k < |order| ==> order[k] < |tasks|)
      && (forall i: nat :: i < |tasks| ==> i in order)
      && (forall node, key :: node in capacities ==> Get(capacities[node], key) >= 0.0)
    }

    function Choices(i: nat): nat
      requires i < |tasks| && tasks[i] in byTask
    {
      |byTask[tasks[i]]|
    }

    /** The candidate that gene `i` picks, if it picks one. */
    function Picked(genome: Genome, i: nat): Candidate
      requires i < |tasks| == |genome| && tasks[i] in byTask && byTask[tasks[i]] != [] && genome[i] >= 0
    {
      byTask[tasks[i]][genome[i] % Choices(i)]
    }

    ghost predicate WellFormed(genome: Genome)
      requires Valid()
    {
      |genome| == |tasks| && forall i :: 0 <= i < |tasks| ==> -1 <= genome[i] < Choices(i)
    }
  }

  /** What a plan takes of one resource of one node. */
  function Load(plan: seq<Candidate>, node: string, key: string): real {
    if plan == [] then 0.0
    else
      var last := plan[|plan| - 1];
      Load(plan[..|plan| - 1], node, key) + if last.node == node then Get(last.demand, key) else 0.0
  }

  ghost predicate WithinCapacity(plan: seq<Candidate>, capacities: map<string, Vector>) {
    forall node, key :: node in capacities && key in RESOURCE_KEYS ==>
      Load(plan, node, key) <= Get(capacities[node], key) + TOLERANCE
  }

  ghost predicate NoTaskTwice(plan: seq<Candidate>) {
    forall i, j :: 0 <= i < j < |plan| ==> plan[i].task != plan[j].task
  }

  ghost predicate NonNegative(c: Candidate) {
    forall key :: Get(c.demand, key) >= 0.0
  }

  /** A picked candidate that does not fit beside `plan`. */
  ghost predicate Overflows(plan: seq<Candidate>, capacities: map<string, Vector>, c: Candidate)
    requires c.node in capacities
  {
    exists key :: key in RESOURCE_KEYS
                  && Get(c.demand, key) > Get(capacities[c.node], key) - Load(plan, c.node, key) + TOLERANCE
  }

  type Remaining = map<string, Vector>

  ghost predicate Tracks(remaining: Remaining, capacities: map<string, Vector>, plan: seq<Candidate>) {
    && remaining.Keys == capacities.Keys
    && forall node, key :: node in capacities && key in RESOURCE_KEYS ==>
         Get(remaining[node], key) == Get(capacities[node], key) - Load(plan, node, key)
  }

  predicate Fits(c: Candidate, remaining: Remaining)
    requires c.node in remaining
  {
    forall key :: key in RESOURCE_KEYS ==> Get(c.demand, key) <= Get(remaining[c.node], key) + TOLERANCE
  }

  function Taken(v: Vector, demand: Vector): (r: Vector)
    ensures forall key :: key in RESOURCE_KEYS ==> Get(r, key) == Get(v, key) - Get(demand, key)
  {
    v + map key | key in RESOURCE_KEYS :: Get(v, key) - Get(demand, key)
  }

  lemma TakingTracks(remaining: Remaining, capacities: map<string, Vector>, plan: seq<Candidate>, c: Candidate)
    requires Tracks(remaining, capacities, plan) && c.node in capacities
    ensures Tracks(remaining[c.node := Taken(remaining[c.node], c.demand)], capacities, plan + [c])
  {
    forall node, key | node in capacities && key in RESOURCE_KEYS
      ensures Load(plan + [c], node, key) == Load(plan, node, key) + if c.node == node then Get(c.demand, key) else 0.0
    {
    }
  }

  lemma TakingStaysWithin(remaining: Remaining, capacities: map<string, Vector>, plan: seq<Candidate>, c: Candidate)
    requires Tracks(remaining, capacities, plan) && WithinCapacity(plan, capacities)
    requires c.node in capacities && Fits(c, remaining)
    ensures WithinCapacity(plan + [c], capacities)
  {
    forall node, key | node in capacities && key in RESOURCE_KEYS
      ensures Load(plan + [c], node, key) <= Get(capacities[node], key) + TOLERANCE
    {
    }
  }

  /** Every picked candidate is in the plan or does not fit beside it. */
  ghost predicate Greedy(p: Problem, genome: Genome, plan: seq<Candidate>, visited: nat)
    requires p.Valid() && |genome| == |p.tasks| && visited <= |p.order|
  {
    forall k :: 0 <= k < visited ==> Handled(p, genome, plan, p.order[k])
  }

  ghost predicate Handled(p: Problem, genome: Genome, plan: seq<Candidate>, i: nat)
    requires p.Valid() && |genome| == |p.tasks| && i < |p.tasks|
  {
    genome[i] >= 0 ==> p.Picked(genome, i) in plan || Overflows(plan, p.capacities, p.Picked(genome, i))
  }

  lemma GreedyPersists(p: Problem, genome: Genome, plan: seq<Candidate>, visited: nat, d: Candidate)
    requires p.Valid() && |genome| == |p.tasks| && visited <= |p.order|
    requires Greedy(p, genome, plan, visited) && NonNegative(d)
    ensures Greedy(p, genome, plan + [d], visited)
  {
    forall k | 0 <= k < visited
      ensures Handled(p, genome, plan + [d], p.order[k])
    {
      var i := p.order[k];
      assert Handled(p, genome, plan, i);
    }
  }

  ghost predicate AllNonNegative(p: Problem) {
    forall task, c :: task in p.byTask && c in p.byTask[task] ==> NonNegative(c)
  }

  /** `c` is what one of the first `k` visited genes picks. */
  ghost predicate PickedAmong(p: Problem, genome: Genome, k: nat, c: Candidate)
    requires p.Valid() && |genome| == |p.tasks| && k <= |p.order|
  {
    exists j :: 0 <= j < k && genome[p.order[j]] >= 0 && c == p.Picked(genome, p.order[j])
  }

  /** The plan after the first `k` visited genes: a picked candidate is taken if it fits beside
      those taken before. */
  ghost function DecodedTo(p: Problem, genome: Genome, k: nat): seq<Candidate>
    requires p.Valid() && |genome| == |p.tasks| && k <= |p.order|
  {
    if k == 0 then []
    else
      var plan, i := DecodedTo(p, genome, k - 1), p.order[k - 1];
      if genome[i] >= 0 && !Overflows(plan, p.capacities, Pick(p, genome, i)) then plan + [Pick(p, genome, i)] else plan
  }

  /** `Picked`, known to be on a known node. */
  function Pick(p: Problem, genome: Genome, i: nat): (c: Candidate)
    requires p.Valid() && i < |p.tasks| == |genome| && genome[i] >= 0
    ensures c == p.Picked(genome, i) && c.node in p.capacities
  {
    assert p.Picked(genome, i) in p.byTask[p.tasks[i]];
    p.Picked(genome, i)
  }

  ghost function Decoded(p: Problem, genome: Genome): seq<Candidate>
    requires p.Valid() && |genome| == |p.tasks|
  {
    DecodedTo(p, genome, |p.order|)
  }

  /** What holds of the plan after the first `k` visited genes. */
  ghost predicate DecodedWell(p: Problem, genome: Genome, plan: seq<Candidate>, remaining: Remaining, k: nat)
    requires p.Valid() && |genome| == |p.tasks| && k <= |p.order|
  {
    && plan == DecodedTo(p, genome, k)
    && Tracks(remaining, p.capacities, plan) && WithinCapacity(plan, p.capacities) && NoTaskTwice(plan)
    && (forall c :: c in plan ==> PickedAmong(p, genome, k, c))
    && (AllNonNegative(p) ==> Greedy(p, genome, plan, k))
  }

  lemma TakingDecodes(p: Problem, genome: Genome, plan: seq<Candidate>, remaining: Remaining, k: nat, c: Candidate)
    requires p.Valid() && |genome| == |p.tasks| && k < |p.order| && DecodedWell(p, genome, plan, remaining, k)
    requires genome[p.order[k]] >= 0 && c == Pick(p, genome, p.order[k]) && Fits(c, remaining)
    ensures c.node in remaining
    ensures DecodedWell(p, genome, plan + [c], remaining[c.node := Taken(remaining[c.node], c.demand)], k + 1)
  {
    TakingTracks(remaining, p.capacities, plan, c);
    TakingStaysWithin(remaining, p.capacities, plan, c);
    NewTask(p, genome, plan, k, c);
    if AllNonNegative(p) {
      GreedyPersists(p, genome, plan, k, c);
    }
  }

  lemma SkippingDecodes(p: Problem, genome: Genome, plan: seq<Candidate>, remaining: Remaining, k: nat)
    requires p.Valid() && |genome| == |p.tasks| && k < |p.order| && DecodedWell(p, genome, plan, remaining, k)
    requires genome[p.order[k]] >= 0 ==> !Fits(Pick(p, genome, p.order[k]), remaining)
    ensures DecodedWell(p, genome, plan, remaining, k + 1)
  {
    if genome[p.order[k]] >= 0 {
      assert Overflows(plan, p.capacities, Pick(p, genome, p.order[k]));
    }
  }

  method Decode(p: Problem, genome: Genome) returns (plan: seq<Candidate>)
    requires p.Valid() && |genome| == |p.tasks|
    ensures plan == Decoded(p, genome)
    // at most one candidate per task, and only candidates that the genome picked
    ensures NoTaskTwice(plan)
    ensures forall c :: c in plan ==> PickedAmong(p, genome, |p.order|, c)
    // no node is loaded beyond its capacity and the tolerance
    ensures WithinCapacity(plan, p.capacities)
    // and what was picked but left out does not fit beside the plan
    ensures AllNonNegative(p) ==> Greedy(p, genome, plan, |p.order|)
  {
    var remaining := p.capacities;
    plan := [];
    var k := 0;
    while k < |p.order|
      invariant 0 <= k <= |p.order| && DecodedWell(p, genome, plan, remaining, k)
    {
      var i := p.order[k];
      var fits := false;
      if genome[i] >= 0 {
        var c := Pick(p, genome, i);
        fits := Fits(c, remaining);
        if fits {
          TakingDecodes(p, genome, plan, remaining, k, c);
          remaining := remaining[c.node := Taken(remaining[c.node], c.demand)];
          plan := plan + [c];
        }
      }
      if !fits {
        SkippingDecodes(p, genome, plan, remaining, k);
      }
      k := k + 1;
    }
  }

  lemma NewTask(p: Problem, genome: Genome, plan: seq<Candidate>, k: nat, c: Candidate)
    requires p.Valid() && |genome| == |p.tasks| && k < |p.order| && NoTaskTwice(plan)
    requires forall d :: d in plan ==> PickedAmong(p, genome, k, d)
    requires genome[p.order[k]] >= 0 && c == p.Picked(genome, p.order[k])
    ensures NoTaskTwice(plan + [c])
  {
    forall i | 0 <= i < |plan|
      ensures plan[i].task != c.task
    {
      var d := plan[i];
      assert d in plan;
      var j :| 0 <= j < k && genome[p.order[j]] >= 0 && d == p.Picked(genome, p.order[j]);
      assert d in p.byTask[p.tasks[p.order[j]]] && c in p.byTask[p.tasks[p.order[k]]];
    }
  }

  // ----- fronts with a tolerance

  const EPSILON: real := 0.000000000001

  /** What a decoded plan is compared by: its number of assignments, then its utility and
      its objective totals. */
  datatype Scorecard = Scorecard(count: int, values: seq<real>)

  function UtilityOf(plan: seq<Candidate>): real {
    if plan == [] then 0.0 else UtilityOf(plan[..|plan| - 1]) + plan[|plan| - 1].utility
  }

  function ObjectiveOf(plan: seq<Candidate>, key: string): real {
    if plan == [] then 0.0 else ObjectiveOf(plan[..|plan| - 1], key) + Get(plan[|plan| - 1].objectives, key)
  }

  function CardOf(plan: seq<Candidate>, keys: seq<string>): (card: Scorecard)
    ensures card.count == |plan| && |card.values| == 1 + |keys| && card.values[0] == UtilityOf(plan)
    ensures forall i :: 0 <= i < |keys| ==> card.values[1 + i] == ObjectiveOf(plan, keys[i])
  {
    Scorecard(|plan|, [UtilityOf(plan)] + seq(|keys|, i requires 0 <= i < |keys| => ObjectiveOf(plan, keys[i])))
  }

  ghost predicate OfWidth(cards: seq<Scorecard>, width: nat) {
    forall i :: 0 <= i < |cards| ==> |cards[i].values| == width
  }

  /** Dominance with a tolerance: nowhere worse by more than it, somewhere better by more. */
  predicate Beats(a: Scorecard, b: Scorecard) {
    && |a.values| == |b.values|
    && a.count as real >= b.count as real - EPSILON
    && (forall i :: 0 <= i < |a.values| ==> a.values[i] >= b.values[i] - EPSILON)
    && (a.count as real > b.count as real + EPSILON
        || exists i :: 0 <= i < |a.values| && a.values[i] > b.values[i] + EPSILON)
  }

  /** The members that no other member beats. */
  ghost predicate InTolerantFront(cards: seq<Scorecard>, i: nat)
    requires i < |cards|
  {
    forall j :: 0 <= j < |cards| && j != i ==> !Beats(cards[j], cards[i])
  }

  ghost predicate HasFront(cards: seq<Scorecard>) {
    exists i :: 0 <= i < |cards| && InTolerantFront(cards, i)
  }

  function Narrow(card: Scorecard): real
    requires |card.values| <= 2
  {
    if |card.values| == 0 then 0.0 else if |card.values| == 1 then card.values[0] else card.values[0] + card.values[1]
  }

  /** Ahead by count, or by the sum of at most two values. */
  predicate AheadOf(a: Scorecard, b: Scorecard)
    requires |a.values| <= 2 && |b.values| <= 2
  {
    a.count > b.count || (a.count == b.count && Narrow(a) > Narrow(b))
  }

  /** Counts are whole, so the tolerance forgives no missing assignment. */
  lemma BeatingIsAhead(a: Scorecard, b: Scorecard)
    requires Beats(a, b) && |a.values| <= 2
    ensures AheadOf(a, b)
  {
    if a.count == b.count {
      var i :| 0 <= i < |a.values| && a.values[i] > b.values[i] + EPSILON;
    }
  }

  lemma {:induction false} NobodyAhead(cards: seq<Scorecard>, n: nat) returns (best: nat)
    requires 0 < n <= |cards| && forall i :: 0 <= i < |cards| ==> |cards[i].values| <= 2
    ensures best < n && forall i :: 0 <= i < n ==> !AheadOf(cards[i], cards[best])
  {
    if n == 1 {
      best := 0;
    } else {
      best := NobodyAhead(cards, n - 1);
      if AheadOf(cards[n - 1], cards[best]) {
        best := n - 1;
      }
    }
  }

  lemma NarrowHasFront(cards: seq<Scorecard>, width: nat)
    requires cards != [] && OfWidth(cards, width) && width <= 2
    ensures HasFront(cards)
  {
    var best := NobodyAhead(cards, |cards|);
    forall j | 0 <= j < |cards|
      ensures !Beats(cards[j], cards[best])
    {
      if Beats(cards[j], cards[best]) {
        BeatingIsAhead(cards[j], cards[best]);
      }
    }
    assert InTolerantFront(cards, best);
  }

  lemma FewHaveFront(cards: seq<Scorecard>)
    requires 1 <= |cards| <= 2
    ensures HasFront(cards)
  {
    if |cards| == 2 && Beats(cards[1], cards[0]) {
      assert InTolerantFront(cards, 1);
    } else {
      assert InTolerantFront(cards, 0);
    }
  }

  /** The plans of a population, as they are compared. */
  ghost function CardsOf(p: Problem, population: seq<Genome>, keys: seq<string>): (cards: seq<Scorecard>)
    requires p.Valid() && AllWellFormed(p, population)
    ensures |cards| == |population| && OfWidth(cards, 1 + |keys|)
    ensures forall i :: 0 <= i < |population| ==> cards[i] == CardOf(Decoded(p, population[i]), keys)
  {
    seq(|population|, i requires 0 <= i < |population| => CardOf(Decoded(p, population[i]), keys))
  }

  ghost predicate DistinctKeys(keys: seq<string>) {
    forall i, j :: 0 <= i < j < |keys| ==> keys[i] != keys[j]
  }

  /** One way to place the only task, without a demand. */
  function Placing(x: real, y: real, z: real, keys: seq<string>): (c: Candidate)
    requires DistinctKeys(keys) && |keys| >= 2
    ensures c.task == "task" && c.node == "node" && c.utility == x && c.demand == map[]
    ensures Get(c.objectives, keys[0]) == y && Get(c.objectives, keys[1]) == z
    ensures forall i :: 2 <= i < |keys| ==> Get(c.objectives, keys[i]) == 0.0
  {
    Candidate("task", "node", x, map[], map key | key in keys :: if key == keys[0] then y else if key == keys[1] then z else 0.0)
  }

  lemma CardOfPlacing(c: Candidate, keys: seq<string>)
    ensures var card := CardOf([c], keys);
            && card.count == 1 && card.values[0] == c.utility
            && forall i :: 0 <= i < |keys| ==> card.values[1 + i] == Get(c.objectives, keys[i])
  {
    assert [c][..0] == [];
    assert UtilityOf([c]) == UtilityOf([]) + c.utility;
    forall i | 0 <= i < |keys|
      ensures ObjectiveOf([c], keys[i]) == Get(c.objectives, keys[i])
    {
    }
  }

  /** A task with three candidates, each of which costs nothing. */
  function ThreeWays(a: Candidate, b: Candidate, c: Candidate): Problem {
    Problem(["task"], map["task" := [a, b, c]], [0], map["node" := map[]])
  }

  ghost predicate Costless(c: Candidate) {
    c.task == "task" && c.node == "node" && c.demand == map[]
  }

  lemma ThreeWaysIsValid(a: Candidate, b: Candidate, c: Candidate)
    requires Costless(a) && Costless(b) && Costless(c)
    ensures ThreeWays(a, b, c).Valid()
    ensures forall g :: 0 <= g < 3 ==> ThreeWays(a, b, c).WellFormed([g])
  {
  }

  lemma ThreeWaysDecodes(a: Candidate, b: Candidate, c: Candidate, g: int)
    requires Costless(a) && Costless(b) && Costless(c) && 0 <= g < 3
    requires ThreeWays(a, b, c).Valid()
    ensures Decoded(ThreeWays(a, b, c), [g]) == [[a, b, c][g]]
  {
    var p := ThreeWays(a, b, c);
    var picked := Pick(p, [g], 0);
    assert picked == [a, b, c][g];
    assert DecodedTo(p, [g], 0) == [];
    assert !Overflows([], p.capacities, picked);
  }

  /** The choice of each genome: the three ways in turn, and then the first again and again. */
  function Turn(i: nat): (g: int)
    ensures 0 <= g < 3
  {
    if i < 3 then i else 0
  }

  /** Three plans beat each other in a circle: each is ahead of the next in one value by more
      than the tolerance, and behind it nowhere by more. */
  lemma Circle(a: Candidate, b: Candidate, c: Candidate, keys: seq<string>)
    requires DistinctKeys(keys) && |keys| >= 2
    requires a == Placing(1.5 * EPSILON, 0.75 * EPSILON, 0.0, keys)
    requires b == Placing(0.0, 1.5 * EPSILON, 0.75 * EPSILON, keys)
    requires c == Placing(0.75 * EPSILON, 0.0, 1.5 * EPSILON, keys)
    ensures Beats(CardOf([a], keys), CardOf([b], keys))
    ensures Beats(CardOf([b], keys), CardOf([c], keys))
    ensures Beats(CardOf([c], keys), CardOf([a], keys))
  {
    PlacingBeats(a, b, keys, 0);
    PlacingBeats(b, c, keys, 1);
    PlacingBeats(c, a, keys, 2);
  }

  lemma PlacingBeats(a: Candidate, b: Candidate, keys: seq<string>, at: nat)
    requires DistinctKeys(keys) && |keys| >= 2 && at <= 2
    requires a == Placing(ValueAt(a, keys, 0), ValueAt(a, keys, 1), ValueAt(a, keys, 2), keys)
    requires b == Placing(ValueAt(b, keys, 0), ValueAt(b, keys, 1), ValueAt(b, keys, 2), keys)
    requires ValueAt(a, keys, at) > ValueAt(b, keys, at) + EPSILON
    requires ValueAt(a, keys, 0) >= ValueAt(b, keys, 0) - EPSILON
    requires ValueAt(a, keys, 1) >= ValueAt(b, keys, 1) - EPSILON && ValueAt(a, keys, 2) >= ValueAt(b, keys, 2) - EPSILON
    ensures Beats(CardOf([a], keys), CardOf([b], keys))
  {
    forall i | 3 <= i <= |keys|
      ensures ValueAt(a, keys, i) == 0.0 && ValueAt(b, keys, i) == 0.0
    {
    }
    AheadSomewhere(a, b, keys, at);
  }

  /** The value of a one-candidate plan at a position. */
  function ValueAt(c: Candidate, keys: seq<string>, i: nat): real
    requires i <= |keys|
  {
    if i == 0 then c.utility else Get(c.objectives, keys[i - 1])
  }

  lemma AheadSomewhere(a: Candidate, b: Candidate, keys: seq<string>, at: nat)
    requires at <= |keys| && ValueAt(a, keys, at) > ValueAt(b, keys, at) + EPSILON
    requires forall i :: 0 <= i <= |keys| ==> ValueAt(a, keys, i) >= ValueAt(b, keys, i) - EPSILON
    ensures Beats(CardOf([a], keys), CardOf([b], keys))
  {
    CardOfPlacing(a, keys);
    CardOfPlacing(b, keys);
    var x, y := CardOf([a], keys), CardOf([b], keys);
    forall i | 0 <= i < |x.values|
      ensures x.values[i] == ValueAt(a, keys, i) && y.values[i] == ValueAt(b, keys, i)
    {
      if i > 0 {
        assert x.values[1 + (i - 1)] == Get(a.objectives, keys[i - 1]);
      }
    }
    assert x.values[at] > y.values[at] + EPSILON;
  }

  /** A problem and a population whose decoded plans have no front. */
  lemma PopulationWithoutFront(n: nat, keys: seq<string>) returns (p: Problem, population: seq<Genome>)
    requires n >= 3 && |keys| >= 2 && DistinctKeys(keys)
    ensures p.Valid() && AllWellFormed(p, population) && |population| == n
    ensures !HasFront(CardsOf(p, population, keys))
  {
    var a := Placing(1.5 * EPSILON, 0.75 * EPSILON, 0.0, keys);
    var b := Placing(0.0, 1.5 * EPSILON, 0.75 * EPSILON, keys);
    var c := Placing(0.75 * EPSILON, 0.0, 1.5 * EPSILON, keys);
    Circle(a, b, c, keys);
    p, population := ThreeWaysPopulation(a, b, c, n, keys);
    CircleHasNoFront(CardsOf(p, population, keys), CardOf([a], keys), CardOf([b], keys), CardOf([c], keys));
  }

  /** A population of which each genome takes one of three ways. */
  lemma ThreeWaysPopulation(a: Candidate, b: Candidate, c: Candidate, n: nat, keys: seq<string>)
    returns (p: Problem, population: seq<Genome>)
    requires Costless(a) && Costless(b) && Costless(c)
    ensures p.Valid() && AllWellFormed(p, population) && |population| == n
    ensures forall i :: 0 <= i < n ==>
              CardsOf(p, population, keys)[i] == [CardOf([a], keys), CardOf([b], keys), CardOf([c], keys)][Turn(i)]
  {
    p := ThreeWays(a, b, c);
    ThreeWaysIsValid(a, b, c);
    population := seq(n, i requires 0 <= i < n => [Turn(i)]);
    forall i | 0 <= i < n
      ensures CardsOf(p, population, keys)[i] == [CardOf([a], keys), CardOf([b], keys), CardOf([c], keys)][Turn(i)]
    {
      ThreeWaysDecodes(a, b, c, Turn(i));
    }
  }

  lemma CircleHasNoFront(cards: seq<Scorecard>, x: Scorecard, y: Scorecard, z: Scorecard)
    requires |cards| >= 3 && forall i :: 0 <= i < |cards| ==> cards[i] == [x, y, z][Turn(i)]
    requires Beats(x, y) && Beats(y, z) && Beats(z, x)
    ensures !HasFront(cards)
  {
    forall i | 0 <= i < |cards|
      ensures !InTolerantFront(cards, i)
    {
      var j := if Turn(i) == 1 then 0 else if Turn(i) == 2 then 1 else 2;
      assert Turn(j) == j && j != i && Beats(cards[j], cards[i]);
    }
  }

  /** Unlike an exact front, a front with a tolerance can be empty, and then the search returns
      no plan at all. Whatever the problem, the decoded plans of `n` genomes, compared by their
      count, utility and objectives, have a front exactly when there are at most two genomes or
      at most one objective. */
  lemma TolerantFrontNeverEmptyIff(n: nat, keys: seq<string>)
    requires n > 0 && DistinctKeys(keys)
    ensures (forall p: Problem, population: seq<Genome> ::
               p.Valid() && |population| == n && AllWellFormed(p, population) ==> HasFront(CardsOf(p, population, keys)))
            <==> n <= 2 || |keys| <= 1
  {
    if n <= 2 || |keys| <= 1 {
      forall p: Problem, population: seq<Genome> | p.Valid() && |population| == n && AllWellFormed(p, population)
        ensures HasFront(CardsOf(p, population, keys))
      {
        if n <= 2 {
          FewHaveFront(CardsOf(p, population, keys));
        } else {
          NarrowHasFront(CardsOf(p, population, keys), 1 + |keys|);
        }
      }
    } else {
      var p, population := PopulationWithoutFront(n, keys);
    }
  }

  // ----- generations

  ghost predicate AllWellFormed(p: Problem, population: seq<Genome>)
    requires p.Valid()
  {
    forall i :: 0 <= i < |population| ==> p.WellFormed(population[i])
  }

  /** A random gene for position `i`. */
  method RandomGene(p: Problem, i: nat) returns (gene: int)
    requires p.Valid() && i < |p.tasks|
    ensures -1 <= gene < p.Choices(i)
  {
    gene := *;
    if !(-1 <= gene < p.Choices(i)) {
      gene := -1;
    }
  }

  method RandomGenome(p: Problem) returns (genome: Genome)
    requires p.Valid()
    ensures p.WellFormed(genome)
  {
    genome := [];
    while |genome| < |p.tasks|
      invariant |genome| <= |p.tasks|
      invariant forall i :: 0 <= i < |genome| ==> -1 <= genome[i] < p.Choices(i)
    {
      var gene := RandomGene(p, |genome|);
      genome := genome + [gene];
    }
  }

  /** Genes of `left` before the split and of `right` after it, except possibly at `at`. */
  ghost predicate Crossed(left: Genome, right: Genome, child: Genome, split: nat, at: nat) {
    && |child| == |left| == |right| && 1 <= split <= |left|
    && forall i :: 0 <= i < |left| && i != at ==> child[i] == if i < split then left[i] else right[i]
  }

  /** One-point crossover, sometimes followed by a mutation of one gene. */
  method Breed(p: Problem, left: Genome, right: Genome) returns (child: Genome)
    requires p.Valid() && p.WellFormed(left) && p.WellFormed(right)
    ensures p.WellFormed(child)
    ensures exists split, at :: Crossed(left, right, child, split, at)
  {
    var split: nat := *;
    if !(1 <= split < |p.tasks|) {
      split := 1;
    }
    child := left[..split] + right[split..];
    assert |child| == |p.tasks|;
    var at: int := *;
    if !(0 <= at < |p.tasks|) {
      at := 0;
    }
    var mutate: bool := *;
    if mutate {
      var gene := RandomGene(p, at);
      child := child[at := gene];
    }
    assert Crossed(left, right, child, split, at);
  }

  /** One generation: the elites survive, children of random elites fill up the rest.
      `elite` says which genomes the tolerant front keeps; when it keeps none, the
      best single genome `fallback` survives. */
  method NextGeneration(p: Problem, population: seq<Genome>, elite: seq<bool>, fallback: nat, size: nat)
    returns (next: seq<Genome>)
    requires p.Valid() && size > 0 && AllWellFormed(p, population)
    requires |elite| == |population| && fallback < |population|
    ensures AllWellFormed(p, next) && |next| == size
    ensures |population| <= size ==> forall i :: 0 <= i < |population| && elite[i] ==> population[i] in next
  {
    var elites: seq<Genome>, i := [], 0;
    while i < |population|
      invariant 0 <= i <= |population| && AllWellFormed(p, elites) && |elites| <= i
      invariant forall j :: 0 <= j < i && elite[j] ==> population[j] in elites
    {
      if elite[i] {
        elites := elites + [population[i]];
      }
      i := i + 1;
    }
    if elites == [] {
      elites := [population[fallback]];
    }
    next := if |elites| <= size then elites else elites[..size];
    ghost var survivors := next;
    while |next| < size
      invariant AllWellFormed(p, next) && |next| <= size && survivors <= next
    {
      var l: nat, r: nat := *, *;
      var left := elites[l % |elites|];
      var right := elites[r % |elites|];
      var child := Breed(p, left, right);
      next := next + [child];
    }
  }

  /** What the search hands over: plans of well-formed genomes, each within capacity. */
  method Search(p: Problem, size: nat, generations: nat) returns (plans: seq<seq<Candidate>>)
    requires p.Valid() && size > 0
    ensures forall i :: 0 <= i < |plans| ==> NoTaskTwice(plans[i]) && WithinCapacity(plans[i], p.capacities)
  {
    var population: seq<Genome> := [];
    while |population| < (if size < 8 then 8 else size)
      invariant AllWellFormed(p, population)
    {
      var genome := RandomGenome(p);
      population := population + [genome];
    }
    var round := 0;
    while round < (if generations < 1 then 1 else generations)
      invariant AllWellFormed(p, population) && population != []
    {
      var elite: seq<bool> := seq(|population|, i => false);
      var i := 0;
      while i < |elite|
        invariant |elite| == |population|
      {
        var survives: bool := *;
        elite := elite[i := survives];
        i := i + 1;
      }
      var fallback: nat := *;
      population := NextGeneration(p, population, elite, fallback % |population|, size);
      round := round + 1;
    }
    plans := [];
    var i := 0;
    while i < |population|
      invariant 0 <= i <= |population|
      invariant forall j :: 0 <= j < |plans| ==> NoTaskTwice(plans[j]) && WithinCapacity(plans[j], p.capacities)
    {
      var plan := Decode(p, population[i]);
      var kept: bool := *;
      if kept {
        plans := plans + [plan];
      }
      i := i + 1;
    }
  }
}
