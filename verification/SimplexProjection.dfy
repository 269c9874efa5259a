/** The capped projection of a weight vector: back to the unit simplex without undoing the
    per-weight cap. A weight vector is indexed by the position of its key in the fixed order. */
module SimplexProjection {
  import opened Common

  /** The tolerance the projection works with. */
  const TINY: real := 0.000000000001

  // ----- the box and the room in it

  function Lower(w: real, cap: real): real { Max(0.0, w - cap) }
  function Upper(w: real, cap: real): real { Min(1.0, w + cap) }

  /** Inside the unit interval and within `cap` of the old weight. */
  ghost predicate InBox(current: Weights, cap: real, w: Weights) {
    |w| == |current| && forall k :: 0 <= k < |w| ==> Lower(current[k], cap) <= w[k] <= Upper(current[k], cap)
  }

  /** How far each weight may still move in the direction that closes the gap. */
  function Rooms(current: Weights, cap: real, w: Weights, up: bool): (rooms: seq<real>)
    requires |w| == |current|
    ensures |rooms| == |w|
    ensures forall k :: 0 <= k < |w| ==>
              rooms[k] == if up then Upper(current[k], cap) - w[k] else w[k] - Lower(current[k], cap)
  {
    seq(|w|, k requires 0 <= k < |w| =>
      if up then Upper(current[k], cap) - w[k] else w[k] - Lower(current[k], cap))
  }

  /** The rooms that count: those above the tolerance. */
  function Usable(rooms: seq<real>): (u: seq<real>)
    ensures |u| == |rooms| && forall k :: 0 <= k < |u| ==> u[k] == if rooms[k] > TINY then rooms[k] else 0.0
  {
    seq(|rooms|, k requires 0 <= k < |rooms| => if rooms[k] > TINY then rooms[k] else 0.0)
  }

  function Change(gap: real, room: real, available: real): real
    requires available > 0.0
  {
    if room <= TINY then 0.0 else Min(gap * room / available, room)
  }

  lemma UsableIsNonNegative(rooms: seq<real>)
    ensures Sum(Usable(rooms)) >= 0.0
  {
    SumOfNonNegative(Usable(rooms), |rooms|);
  }

  /** The far side of the box in one direction. */
  function Edges(current: Weights, cap: real, up: bool): (edges: seq<real>)
    ensures |edges| == |current|
    ensures forall k :: 0 <= k < |current| ==> edges[k] == if up then Upper(current[k], cap) else Lower(current[k], cap)
  {
    seq(|current|, k requires 0 <= k < |current| => if up then Upper(current[k], cap) else Lower(current[k], cap))
  }

  lemma EdgesReachOne(current: Weights, cap: real, up: bool)
    requires OnSimplex(current) && cap >= 0.0
    ensures if up then Sum(Edges(current, cap, up)) >= 1.0 else Sum(Edges(current, cap, up)) <= 1.0
  {
    if up {
      SumMonotone(current, Edges(current, cap, up), |current|);
    } else {
      SumMonotone(Edges(current, cap, up), current, |current|);
    }
  }

  /** The box always has room for the whole gap, up to the ignored slivers. */
  lemma BoxCoversGap(current: Weights, cap: real, w: Weights, up: bool)
    requires OnSimplex(current) && cap >= 0.0 && InBox(current, cap, w)
    requires up <==> 1.0 - Sum(w) > 0.0
    ensures Abs(1.0 - Sum(w)) <= Sum(Usable(Rooms(current, cap, w, up))) + |w| as real * TINY
  {
    var rooms := Rooms(current, cap, w, up);
    SumWithin(rooms, Usable(rooms), TINY, |w|);
    EdgesReachOne(current, cap, up);
    SumShift(w, rooms, Edges(current, cap, up), up, |w|);
  }

  /** A single change: the weight's share of the gap, or all of its usable room. */
  lemma ChangeFacts(gap: real, room: real, available: real)
    requires available > 0.0 && gap >= 0.0
    ensures var usable := if room > TINY then room else 0.0;
            && (gap <= available ==> Change(gap, room, available) == (gap / available) * usable)
            && (gap >= available ==> Change(gap, room, available) == usable)
            && (room >= 0.0 ==> 0.0 <= Change(gap, room, available) <= room)
  {
    var ratio := gap / available;
    assert gap * room / available == ratio * room;
    assert ratio * available == gap;
    if gap <= available {
      assert 0.0 <= ratio <= 1.0;
    }
    if ratio < 1.0 {
      assert (1.0 - ratio) * available > 0.0;
    }
    if room > TINY && ratio >= 1.0 {
      assert (ratio - 1.0) * room >= 0.0;
    }
  }

  /** The changes one pass makes. */
  function Changes(gap: real, rooms: seq<real>, available: real): (changes: seq<real>)
    requires available > 0.0
    ensures |changes| == |rooms|
  {
    seq(|rooms|, k requires 0 <= k < |rooms| => Change(gap, rooms[k], available))
  }

  lemma ChangesWithinRooms(gap: real, rooms: seq<real>, available: real)
    requires gap >= 0.0 && available > 0.0 && forall k :: 0 <= k < |rooms| ==> rooms[k] >= 0.0
    ensures forall k :: 0 <= k < |rooms| ==> 0.0 <= Changes(gap, rooms, available)[k] <= rooms[k]
  {
    forall k | 0 <= k < |rooms|
      ensures 0.0 <= Changes(gap, rooms, available)[k] <= rooms[k]
    {
      ChangeFacts(gap, rooms[k], available);
    }
  }

  lemma ScarceChanges(gap: real, rooms: seq<real>, available: real)
    requires gap >= available > 0.0
    ensures Changes(gap, rooms, available) == Usable(rooms)
  {
    forall k | 0 <= k < |rooms|
      ensures Changes(gap, rooms, available)[k] == Usable(rooms)[k]
    {
      ChangeFacts(gap, rooms[k], available);
    }
  }

  lemma ChangeIsShare(gap: real, room: real, available: real, ratio: real)
    requires available >= gap >= 0.0 && available > 0.0 && ratio == gap / available
    ensures Change(gap, room, available) == ratio * (if room > TINY then room else 0.0)
  {
    ChangeFacts(gap, room, available);
  }

  lemma AmpleChanges(gap: real, rooms: seq<real>, available: real, ratio: real)
    requires available >= gap >= 0.0 && available > 0.0 && ratio == gap / available
    ensures Proportional(Usable(rooms), Changes(gap, rooms, available), ratio)
  {
    var usable, changes := Usable(rooms), Changes(gap, rooms, available);
    forall k | 0 <= k < |rooms|
      ensures changes[k] == ratio * usable[k]
    {
      ChangeIsShare(gap, rooms[k], available, ratio);
    }
  }

  /** What one pass adds up to: the whole gap if the room suffices, else all the room. */
  lemma TotalChange(gap: real, rooms: seq<real>, available: real)
    requires gap >= 0.0 && available == Sum(Usable(rooms)) && available > 0.0
    ensures Sum(Changes(gap, rooms, available)) == Min(gap, available)
  {
    if gap <= available {
      var ratio := gap / available;
      AmpleChanges(gap, rooms, available, ratio);
      SumScaled(Usable(rooms), Changes(gap, rooms, available), ratio, |rooms|);
    } else {
      ScarceChanges(gap, rooms, available);
    }
  }

  /** One redistribution pass. */
  method Redistribute(w: Weights, rooms: seq<real>, gap: real, available: real, up: bool) returns (next: Weights)
    requires |rooms| == |w| && available > 0.0
    ensures |next| == |w|
    ensures forall k :: 0 <= k < |w| ==>
              next[k] == Shift(w[k], Changes(gap, rooms, available)[k], up)
  {
    next := w;
    var k := 0;
    while k < |rooms|
      invariant 0 <= k <= |rooms| && |next| == |w|
      invariant forall i :: 0 <= i < k ==>
                  next[i] == Shift(w[i], Changes(gap, rooms, available)[i], up)
      invariant forall i :: k <= i < |w| ==> next[i] == w[i]
    {
      if rooms[k] > TINY {
        var change := Min(gap * rooms[k] / available, rooms[k]);
        next := next[k := if up then next[k] + change else next[k] - change];
      }
      k := k + 1;
    }
  }

  /** Nothing is left for a further pass to do. */
  ghost predicate Finished(current: Weights, cap: real, w: Weights)
    requires |w| == |current|
  {
    var residual := 1.0 - Sum(w);
    || Abs(residual) <= TINY
    || Sum(Usable(Rooms(current, cap, w, residual > 0.0))) <= TINY
  }

  /** A pass that is given the gap, the rooms and their usable total. */
  ghost predicate IsPass(w: Weights, next: Weights, rooms: seq<real>, gap: real, available: real, up: bool) {
    && |next| == |rooms| == |w| && available > 0.0
    && forall k :: 0 <= k < |w| ==> next[k] == Shift(w[k], Changes(gap, rooms, available)[k], up)
  }

  /** A pass closes the gap, or uses up all the room there is. */
  lemma PassEffect(w: Weights, next: Weights, rooms: seq<real>, gap: real, available: real, up: bool)
    requires IsPass(w, next, rooms, gap, available, up) && gap >= 0.0 && available == Sum(Usable(rooms))
    requires forall k :: 0 <= k < |w| ==> rooms[k] >= 0.0
    ensures Sum(next) == Shift(Sum(w), Min(gap, available), up)
    ensures forall k :: 0 <= k < |w| ==> if up then w[k] <= next[k] <= w[k] + rooms[k] else w[k] - rooms[k] <= next[k] <= w[k]
    ensures gap >= available ==> forall k :: 0 <= k < |w| ==> next[k] == Shift(w[k], Usable(rooms)[k], up)
  {
    TotalChange(gap, rooms, available);
    ChangesWithinRooms(gap, rooms, available);
    SumShift(w, Changes(gap, rooms, available), next, up, |w|);
    if gap >= available {
      ScarceChanges(gap, rooms, available);
    }
  }

  /** Weights moved by all of their usable room have none left. */
  lemma NoRoomLeft(current: Weights, cap: real, w: Weights, next: Weights, up: bool)
    requires |next| == |w| == |current|
    requires forall k :: 0 <= k < |w| ==> next[k] == Shift(w[k], Usable(Rooms(current, cap, w, up))[k], up)
    ensures Sum(Usable(Rooms(current, cap, next, up))) == 0.0
  {
    SumEven(Usable(Rooms(current, cap, next, up)), 0.0, |w|);
  }

  /** After one pass no second pass can move anything. */
  lemma OnePassFinishes(current: Weights, cap: real, w: Weights, next: Weights, up: bool, rooms: seq<real>)
    requires OnSimplex(current) && cap >= 0.0 && InBox(current, cap, w)
    requires Abs(1.0 - Sum(w)) > TINY && up == (1.0 - Sum(w) > 0.0)
    requires rooms == Rooms(current, cap, w, up)
    requires IsPass(w, next, rooms, Abs(1.0 - Sum(w)), Sum(Usable(rooms)), up)
    ensures InBox(current, cap, next) && Finished(current, cap, next)
    ensures forall k :: 0 <= k < |w| ==> if up then w[k] <= next[k] else next[k] <= w[k]
  {
    var gap, available := Abs(1.0 - Sum(w)), Sum(Usable(rooms));
    PassEffect(w, next, rooms, gap, available, up);
    if gap > available {
      NoRoomLeft(current, cap, w, next, up);
    }
  }

  method SumOf(s: seq<real>) returns (total: real)
    ensures total == Sum(s)
  {
    total := 0.0;
    var k := 0;
    while k < |s|
      invariant 0 <= k <= |s| && total == SumTo(s, k)
    {
      total := total + s[k];
      k := k + 1;
    }
  }

  function Blend(rate: real, x: real, y: real): real {
    (1.0 - rate) * x + rate * y
  }

  /** A blend of `x` and `y`, no further than the cap from `x` and in the unit interval. */
  function Smoothed(x: real, y: real, rate: real, cap: real): real {
    Min(Upper(x, cap), Max(Lower(x, cap), Blend(Clamp(rate, 0.0, 1.0), x, y)))
  }

  /** The smoothed and clipped proposal that the projection starts from. */
  function Clipped(current: Weights, target: Weights, rate: real, cap: real): (w: Weights)
    requires |target| == |current|
    ensures |w| == |current|
  {
    seq(|current|, k requires 0 <= k < |current| => Smoothed(current[k], target[k], rate, cap))
  }

  method Clip(current: Weights, target: Weights, rate: real, cap: real) returns (bounded: Weights)
    requires |target| == |current|
    ensures bounded == Clipped(current, target, rate, cap)
  {
    ghost var all := Clipped(current, target, rate, cap);
    bounded := [];
    var clampedRate := Clamp(rate, 0.0, 1.0);
    var k := 0;
    while k < |current|
      invariant 0 <= k <= |current| && |bounded| == k
      invariant forall i :: 0 <= i < k ==> bounded[i] == all[i]
    {
      var candidate := Blend(clampedRate, current[k], target[k]);
      bounded := bounded + [Min(Upper(current[k], cap), Max(Lower(current[k], cap), candidate))];
      k := k + 1;
    }
  }

  /** `w` lies between `x` and `y`, and is as far from `x` as `rate` of the way, or the cap if
      that is less. */
  ghost predicate StepsTowards(x: real, y: real, rate: real, cap: real, w: real) {
    && (x <= w <= y || y <= w <= x)
    && Abs(w - x) == Min(Abs(rate * (y - x)), cap)
  }

  lemma BlendIsStep(rate: real, x: real, y: real)
    requires 0.0 <= rate <= 1.0
    ensures Blend(rate, x, y) == x + rate * (y - x)
    ensures x <= Blend(rate, x, y) <= y || y <= Blend(rate, x, y) <= x
  {
    if x <= y {
      ProductNonNegative(rate, y - x);
      ProductNonNegative(1.0 - rate, y - x);
    } else {
      ProductNonNegative(rate, x - y);
      ProductNonNegative(1.0 - rate, x - y);
    }
  }

  /** Clipping to the box stops a step at the cap. */
  lemma SmoothedSteps(x: real, y: real, rate: real, cap: real, clamped: real, w: real)
    requires 0.0 <= x <= 1.0 && 0.0 <= y <= 1.0 && cap >= 0.0
    requires clamped == Clamp(rate, 0.0, 1.0) && w == Smoothed(x, y, rate, cap)
    ensures StepsTowards(x, y, clamped, cap, w)
  {
    BlendIsStep(clamped, x, y);
  }

  ghost predicate StepTaken(x: real, y: real, rate: real, w: real) {
    w == x + rate * (y - x)
  }

  /** `rate` of the way does not exceed the cap. */
  ghost predicate StepFits(x: real, y: real, rate: real, cap: real) {
    Abs(rate * (y - x)) <= cap
  }

  lemma SmoothedWithinCap(x: real, y: real, rate: real, cap: real)
    requires 0.0 <= x <= 1.0 && 0.0 <= y <= 1.0 && 0.0 <= rate <= 1.0 && StepFits(x, y, rate, cap)
    ensures StepTaken(x, y, rate, Smoothed(x, y, rate, cap))
  {
    BlendIsStep(rate, x, y);
    assert Clamp(rate, 0.0, 1.0) == rate;
  }

  ghost predicate StepsFit(current: Weights, target: Weights, rate: real, cap: real)
    requires |target| == |current|
  {
    forall k :: 0 <= k < |current| ==> StepFits(current[k], target[k], rate, cap)
  }

  /** Every weight goes `rate` of the way to its target. */
  ghost predicate StepsTaken(current: Weights, target: Weights, rate: real, w: Weights) {
    && |w| == |target| == |current|
    && forall k :: 0 <= k < |w| ==> StepTaken(current[k], target[k], rate, w[k])
  }

  /** Steps within the cap are taken as they are. */
  lemma StepsAreWhole(current: Weights, target: Weights, rate: real, cap: real)
    requires |target| == |current| && OnSimplex(current) && OnSimplex(target)
    requires 0.0 <= rate <= 1.0 && StepsFit(current, target, rate, cap)
    ensures StepsTaken(current, target, rate, Clipped(current, target, rate, cap))
  {
    forall k | 0 <= k < |current|
      ensures StepTaken(current[k], target[k], rate, Smoothed(current[k], target[k], rate, cap))
    {
      SmoothedWithinCap(current[k], target[k], rate, cap);
    }
  }

  /** Such steps towards another point of the simplex stay on it. */
  lemma StepsKeepSum(current: Weights, target: Weights, rate: real, w: Weights)
    requires OnSimplex(current) && OnSimplex(target)
    requires StepsTaken(current, target, rate, w)
    ensures Sum(w) == 1.0
  {
    SumOfSteps(current, target, rate, w, |current|);
    StepsCancel(rate, Sum(target), Sum(current));
  }

  lemma StepsCancel(rate: real, x: real, y: real)
    requires x == y
    ensures rate * (x - y) == 0.0
  {
  }

  lemma {:induction false} SumOfSteps(current: Weights, target: Weights, rate: real, w: Weights, n: nat)
    requires StepsTaken(current, target, rate, w) && n <= |w|
    ensures SumTo(w, n) == SumTo(current, n) + rate * (SumTo(target, n) - SumTo(current, n))
  {
    if n > 0 {
      SumOfSteps(current, target, rate, w, n - 1);
      Distribute(rate, SumTo(target, n - 1) - SumTo(current, n - 1), target[n - 1] - current[n - 1]);
    }
  }

  /** `w` differs from `start` only in the direction that closes the gap of `start`. */
  ghost predicate TowardsSimplex(start: Weights, w: Weights) {
    && |w| == |start|
    && forall k :: 0 <= k < |start| ==> if Sum(start) <= 1.0 then start[k] <= w[k] else w[k] <= start[k]
  }

  /** `y` is reached from `x` by a share of the room there is up or down, unless that room is
      within the tolerance. */
  ghost predicate TakesShare(low: real, high: real, x: real, y: real, share: real, up: bool) {
    if up then y == x + share * Sizable(high - x) else y == x - share * Sizable(x - low)
  }

  /** From `start` to `w` every weight takes the same share of the room it has in the direction
      that closes the gap. */
  ghost predicate SharesGap(current: Weights, cap: real, start: Weights, w: Weights, share: real) {
    && |w| == |start| == |current| && 0.0 <= share <= 1.0
    && forall k :: 0 <= k < |start| ==>
         TakesShare(Lower(current[k], cap), Upper(current[k], cap), start[k], w[k], share, Sum(start) <= 1.0)
  }

  function Sizable(room: real): real {
    if room > TINY then room else 0.0
  }

  lemma NothingShared(current: Weights, cap: real, start: Weights)
    requires |start| == |current|
    ensures SharesGap(current, cap, start, start, 0.0)
  {
  }

  lemma PassShares(current: Weights, cap: real, w: Weights, next: Weights, up: bool, rooms: seq<real>) returns (share: real)
    requires |w| == |current| && Abs(1.0 - Sum(w)) > TINY && up == (1.0 - Sum(w) > 0.0)
    requires rooms == Rooms(current, cap, w, up)
    requires IsPass(w, next, rooms, Abs(1.0 - Sum(w)), Sum(Usable(rooms)), up)
    ensures SharesGap(current, cap, w, next, share)
  {
    var gap, available := Abs(1.0 - Sum(w)), Sum(Usable(rooms));
    share := ShareOfGap(gap, rooms, available);
    forall k | 0 <= k < |w|
      ensures TakesShare(Lower(current[k], cap), Upper(current[k], cap), w[k], next[k], share, up)
    {
      ShiftTakesShare(Lower(current[k], cap), Upper(current[k], cap), w[k], share, up, rooms[k], next[k],
                      Changes(gap, rooms, available)[k]);
    }
  }

  lemma ShiftTakesShare(low: real, high: real, x: real, share: real, up: bool, room: real, y: real, part: real)
    requires y == Shift(x, part, up) && part == share * Sizable(room) && room == if up then high - x else x - low
    ensures TakesShare(low, high, x, y, share, up)
  {
  }

  lemma ShareOfGap(gap: real, rooms: seq<real>, available: real) returns (share: real)
    requires gap >= 0.0 && available > 0.0
    ensures 0.0 <= share <= 1.0
    ensures forall k :: 0 <= k < |rooms| ==> Changes(gap, rooms, available)[k] == share * Sizable(rooms[k])
  {
    share := Min(gap / available, 1.0);
    RatioNonNegative(gap, available);
    forall k | 0 <= k < |rooms|
      ensures Changes(gap, rooms, available)[k] == share * Sizable(rooms[k])
    {
      ChangeIsMin(gap, rooms[k], available);
    }
  }

  lemma RatioNonNegative(x: real, y: real)
    requires x >= 0.0 && y > 0.0
    ensures x / y >= 0.0 && (x <= y <==> x / y <= 1.0)
  {
  }

  lemma ChangeIsMin(gap: real, room: real, available: real)
    requires gap >= 0.0 && available > 0.0
    ensures Change(gap, room, available) == Min(gap / available, 1.0) * Sizable(room)
  {
    ChangeFacts(gap, room, available);
    RatioNonNegative(gap, available);
  }

  /** Where a round of smoothing and projecting ends: `start` goes from the old weights towards
      the target, and `w` shares out what `start` misses of the sum one. */
  ghost predicate MovesTowards(current: Weights, target: Weights, rate: real, cap: real, start: Weights, w: Weights, share: real) {
    && |target| == |start| == |current|
    && (forall k :: 0 <= k < |current| && 0.0 <= target[k] <= 1.0 ==>
          StepsTowards(current[k], target[k], Clamp(rate, 0.0, 1.0), cap, start[k]))
    && SharesGap(current, cap, start, w, share)
    && Abs(1.0 - Sum(w)) <= |current| as real * TINY
  }

  method SmoothAndBound(current: Weights, target: Weights, rate: real, cap: real)
    returns (bounded: Weights, ghost moves: nat, ghost start: Weights, ghost share: real)
    requires |target| == |current| && OnSimplex(current) && cap >= 0.0
    // every weight stays in the unit interval and within the cap
    ensures InBox(current, cap, bounded)
    ensures forall k :: 0 <= k < |current| ==> 0.0 <= bounded[k] <= 1.0 && Abs(bounded[k] - current[k]) <= cap
    // a capped step towards the target, and then a fair share of the gap, which is closed up to the tolerance
    ensures MovesTowards(current, target, rate, cap, start, bounded, share)
    ensures start == Clipped(current, target, rate, cap)
    // steps within the cap towards a point of the simplex are taken as they are
    ensures OnSimplex(target) && 0.0 <= rate <= 1.0 && StepsFit(current, target, rate, cap) ==>
              StepsTaken(current, target, rate, bounded)
    // at most one pass moves anything, and only towards the simplex
    ensures moves <= 1 && TowardsSimplex(start, bounded)
  {
    bounded := Clip(current, target, rate, cap);
    start, share := bounded, 0.0;
    StartFacts(current, target, rate, cap);
    NothingShared(current, cap, start);
    moves := 0;
    var pass := 0;
    while pass < |current| + 1
      invariant 0 <= pass <= |current| + 1 && InBox(current, cap, bounded)
      invariant moves <= 1 && (pass > 0 ==> Finished(current, cap, bounded))
      invariant pass == 0 ==> moves == 0 && bounded == start
      invariant Sum(start) == 1.0 ==> bounded == start
      invariant TowardsSimplex(start, bounded) && SharesGap(current, cap, start, bounded, share)
    {
      var total := SumOf(bounded);
      var residual := 1.0 - total;
      if Abs(residual) <= TINY { break; }
      var rooms := Rooms(current, cap, bounded, residual > 0.0);
      var available := SumOf(Usable(rooms));
      if available <= TINY { break; }
      var next := Redistribute(bounded, rooms, Abs(residual), available, residual > 0.0);
      OnePassFinishes(current, cap, bounded, next, residual > 0.0, rooms);
      share := PassShares(current, cap, bounded, next, residual > 0.0, rooms);
      bounded := next;
      moves := moves + 1;
      pass := pass + 1;
    }
    FinishedIsClose(current, cap, bounded);
  }

  /** What the projection starts from. */
  lemma StartFacts(current: Weights, target: Weights, rate: real, cap: real)
    requires |target| == |current| && OnSimplex(current) && cap >= 0.0
    ensures InBox(current, cap, Clipped(current, target, rate, cap))
    ensures forall k :: 0 <= k < |current| && 0.0 <= target[k] <= 1.0 ==>
              StepsTowards(current[k], target[k], Clamp(rate, 0.0, 1.0), cap, Clipped(current, target, rate, cap)[k])
    ensures OnSimplex(target) && 0.0 <= rate <= 1.0 && StepsFit(current, target, rate, cap) ==>
              && Sum(Clipped(current, target, rate, cap)) == 1.0 &&
              StepsTaken(current, target, rate, Clipped(current, target, rate, cap))
  {
    forall k | 0 <= k < |current| && 0.0 <= target[k] <= 1.0
      ensures StepsTowards(current[k], target[k], Clamp(rate, 0.0, 1.0), cap, Clipped(current, target, rate, cap)[k])
    {
      SmoothedSteps(current[k], target[k], rate, cap, Clamp(rate, 0.0, 1.0), Clipped(current, target, rate, cap)[k]);
    }
    if OnSimplex(target) && 0.0 <= rate <= 1.0 && StepsFit(current, target, rate, cap) {
      StepsAreWhole(current, target, rate, cap);
      StepsKeepSum(current, target, rate, Clipped(current, target, rate, cap));
    }
  }

  lemma FinishedIsClose(current: Weights, cap: real, w: Weights)
    requires OnSimplex(current) && cap >= 0.0 && InBox(current, cap, w) && Finished(current, cap, w)
    ensures Abs(1.0 - Sum(w)) <= |current| as real * TINY
  {
    assert current != [];
    var up := 1.0 - Sum(w) > 0.0;
    BoxCoversGap(current, cap, w, up);
    var usable := Usable(Rooms(current, cap, w, up));
    if Sum(usable) > 0.0 && Abs(1.0 - Sum(w)) > TINY {
      var k := SomePositive(usable, |usable|);
      UsableIsNonNegative(Rooms(current, cap, w, up));
      ElementBelowSum(usable, k, |usable|);
    }
  }

  lemma {:induction false} SomePositive(s: seq<real>, n: nat) returns (k: nat)
    requires n <= |s| && SumTo(s, n) > 0.0
    ensures k < n && s[k] > 0.0
  {
    if s[n - 1] > 0.0 {
      k := n - 1;
    } else {
      k := SomePositive(s, n - 1);
    }
  }

  // ----- normalising the result

  /** Storing the projected vector moves a weight by no more than the projection's error. */
  lemma RenormalizingIsHarmless(w: Weights)
    requires w != [] && |w| as real * TINY <= 0.5
    requires forall k :: 0 <= k < |w| ==> 0.0 <= w[k] <= 1.0
    requires Abs(1.0 - Sum(w)) <= |w| as real * TINY
    ensures forall k :: 0 <= k < |w| ==> Abs(Normalize(w)[k] - w[k]) <= 2.0 * |w| as real * TINY
  {
    assert Positive(w) == w;
    forall k | 0 <= k < |w|
      ensures Abs(Normalize(w)[k] - w[k]) <= 2.0 * |w| as real * TINY
    {
      QuotientNear(w[k], Sum(w));
    }
  }

  lemma ScaledBound(q: real, error: real)
    requires 0.0 <= q <= 2.0
    ensures Abs(q * error) <= 2.0 * Abs(error)
  {
    var size := Abs(error);
    ProductNonNegative(q, size);
    ProductNonNegative(2.0 - q, size);
    assert q * error == q * size || q * error == -(q * size);
  }

  lemma QuotientNear(x: real, total: real)
    requires 0.0 <= x <= 1.0 && Abs(1.0 - total) <= 0.5
    ensures Abs(x / total - x) <= 2.0 * Abs(1.0 - total)
  {
    var q := x / total;
    assert q * total == x;
    assert 0.0 <= q <= 2.0;
    var error := 1.0 - total;
    assert q - x == q * error;
    ScaledBound(q, error);
  }
}
