/** The carbon trace of a site, and the sparse search for the greenest start tick. */
module Carbon {

  /** `trace` maps breakpoints to the intensity that holds from there on. */
  datatype Profile = Profile(base: real, trace: map<int, real>)

  function Greatest(s: set<int>): (m: int)
    requires s != {}
    ensures m in s && forall k :: k in s ==> k <= m
  {
    HasGreatest(s);
    var m :| m in s && forall k :: k in s ==> k <= m;
    m
  }

  function Least(s: set<int>): (m: int)
    requires s != {}
    ensures m in s && forall k :: k in s ==> m <= k
  {
    HasLeast(s);
    var m :| m in s && forall k :: k in s ==> m <= k;
    m
  }

  lemma Pick<T>(s: set<T>) returns (e: T)
    requires s != {}
    ensures e in s
  {
    e :| e in s;
  }

  lemma {:induction false} HasGreatest(s: set<int>)
    requires s != {}
    ensures exists m :: m in s && forall k :: k in s ==> k <= m
  {
    var e := Pick(s);
    var rest := s - {e};
    assert forall k :: k in s ==> k == e || k in rest;
    if rest == {} {
      assert forall k :: k in s ==> k == e;
    } else {
      HasGreatest(rest);
      var m :| m in rest && forall k :: k in rest ==> k <= m;
      var top := if m <= e then e else m;
      assert top in s && forall k :: k in s ==> k <= top;
    }
  }

  lemma {:induction false} HasLeast(s: set<int>)
    requires s != {}
    ensures exists m :: m in s && forall k :: k in s ==> m <= k
  {
    var e := Pick(s);
    var rest := s - {e};
    assert forall k :: k in s ==> k == e || k in rest;
    if rest == {} {
      assert forall k :: k in s ==> k == e;
    } else {
      HasLeast(rest);
      var m :| m in rest && forall k :: k in rest ==> m <= k;
      var low := if e <= m then e else m;
      assert low in s && forall k :: k in s ==> low <= k;
    }
  }

  function Passed(p: Profile, tick: int): set<int> {
    set k | k in p.trace && k <= tick
  }

  /** The latest breakpoint not after `tick` decides; before the first one, the first does. */
  function IntensityAt(p: Profile, tick: int): real {
    if p.trace == map[] then p.base
    else if Passed(p, tick) != {} then p.trace[Greatest(Passed(p, tick))]
    else p.trace[Least(p.trace.Keys)]
  }

  /** No later breakpoint has been reached, or none at all has and this is the first. */
  ghost predicate Governs(p: Profile, k: int, tick: int) {
    k in p.trace && if k <= tick then forall j :: j in p.trace && j <= tick ==> j <= k else forall j :: j in p.trace ==> k <= j
  }

  /** The breakpoint that governs a tick gives its intensity. */
  lemma IntensityIsGoverned(p: Profile, k: int, tick: int)
    requires Governs(p, k, tick)
    ensures IntensityAt(p, tick) == p.trace[k]
  {
    if k <= tick {
      assert k in Passed(p, tick);
    } else {
      assert Passed(p, tick) == {};
    }
  }

  /** The ticks the scheduler tests: both window ends and the breakpoints between them. */
  function TestedTicks(p: Profile, start: int, latest: int): set<int> {
    {start, latest} + set k | k in p.trace && start <= k <= latest
  }

  /** Between two breakpoints the intensity does not change. */
  lemma SameBreakpoint(p: Profile, t: int, tick: int)
    requires p.trace != map[] && t <= tick
    requires forall k :: k in p.trace && k <= tick ==> k <= t
    ensures IntensityAt(p, t) == IntensityAt(p, tick)
  {
    assert Passed(p, t) == Passed(p, tick);
  }

  /** The sparse search misses no intensity that occurs in the window. */
  lemma TestedTicksCoverWindow(p: Profile, start: int, latest: int, tick: int)
    requires start <= tick <= latest
    ensures exists t :: t in TestedTicks(p, start, latest) && IntensityAt(p, t) == IntensityAt(p, tick)
  {
    var passed := Passed(p, tick);
    if p.trace == map[] || passed == {} || Greatest(passed) < start {
      if p.trace != map[] {
        assert forall k :: k in p.trace && k <= tick ==> k in passed;
        SameBreakpoint(p, start, tick);
      }
      assert start in TestedTicks(p, start, latest);
    } else {
      var k := Greatest(passed);
      assert forall j :: j in p.trace && j <= tick ==> j in passed;
      SameBreakpoint(p, k, tick);
      assert k in TestedTicks(p, start, latest);
    }
  }

  /** The carbon tick of a placement that may be deferred to `latest`. */
  method GreenestTick(p: Profile, start: int, latest: int) returns (tick: int)
    requires start <= latest
    ensures tick in TestedTicks(p, start, latest)
    ensures start <= tick <= latest
    ensures forall t :: start <= t <= latest ==> IntensityAt(p, tick) <= IntensityAt(p, t)
  {
    tick := start;
    ghost var tested := TestedTicks(p, start, latest);
    var left := TestedTicks(p, start, latest) - {start};
    while left != {}
      invariant left <= tested && tick in tested
      invariant forall t :: t in tested && t !in left ==> IntensityAt(p, tick) <= IntensityAt(p, t)
      decreases |left|
    {
      var t :| t in left;
      if IntensityAt(p, t) < IntensityAt(p, tick) {
        tick := t;
      }
      left := left - {t};
    }
    TestedMinimumIsMinimum(p, start, latest, tick);
  }

  lemma TestedMinimumIsMinimum(p: Profile, start: int, latest: int, tick: int)
    requires forall t :: t in TestedTicks(p, start, latest) ==> IntensityAt(p, tick) <= IntensityAt(p, t)
    ensures forall t :: start <= t <= latest ==> IntensityAt(p, tick) <= IntensityAt(p, t)
  {
    forall t | start <= t <= latest
      ensures IntensityAt(p, tick) <= IntensityAt(p, t)
    {
      TestedTicksCoverWindow(p, start, latest, t);
    }
  }
}
