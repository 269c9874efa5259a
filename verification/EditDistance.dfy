/** The two-row edit distance that the policy generator uses to forgive one typing
    slip in a region name, proved to be the least number of single-character
    insertions, deletions and substitutions between two strings, and a metric. */
module EditDistance {

  datatype Edit =
    | Insert(at: nat, c: char)
    | Delete(at: nat)
    | Substitute(at: nat, c: char)

  predicate Applicable(e: Edit, s: string) {
    match e
    case Insert(at, _) => at <= |s|
    case Delete(at) => at < |s|
    case Substitute(at, _) => at < |s|
  }

  function Apply(e: Edit, s: string): string
    requires Applicable(e, s)
  {
    match e
    case Insert(at, c) => s[..at] + [c] + s[at..]
    case Delete(at) => s[..at] + s[at + 1..]
    case Substitute(at, c) => s[at := c]
  }

  /** The edits of `script`, applied first to last, turn `a` into `b`. */
  ghost predicate Transforms(script: seq<Edit>, a: string, b: string) {
    if script == [] then a == b
    else Applicable(script[0], a) && Transforms(script[1..], Apply(script[0], a), b)
  }

  /** `d` is the length of a shortest script from `a` to `b`. */
  ghost predicate IsEditDistance(a: string, b: string, d: nat) {
    && (exists script :: Transforms(script, a, b) && |script| == d)
    && (forall script :: Transforms(script, a, b) ==> d <= |script|)
  }

  function Min(x: nat, y: nat): nat {
    if x <= y then x else y
  }

  function Mismatch(x: char, y: char): nat {
    if x == y then 0 else 1
  }

  function Front(s: string): string
    requires s != ""
  {
    s[..|s| - 1]
  }

  function Last(s: string): char
    requires s != ""
  {
    s[|s| - 1]
  }

  /** A cell of the table from the cells before it, above it, and diagonally above it. */
  function Entry(before: nat, above: nat, diagonal: nat, x: char, y: char): nat {
    Min(Min(before + 1, above + 1), diagonal + Mismatch(x, y))
  }

  /** The recurrence behind the table; its entries are the distances of prefixes. */
  function Distance(a: string, b: string): nat
    decreases |a| + |b|
  {
    if a == "" then |b|
    else if b == "" then |a|
    else Entry(Distance(a, Front(b)), Distance(Front(a), b), Distance(Front(a), Front(b)), Last(a), Last(b))
  }

  // ----- an optimal script exists

  lemma {:induction false} TransformsCompose(p: seq<Edit>, q: seq<Edit>, a: string, b: string, c: string)
    requires Transforms(p, a, b) && Transforms(q, b, c)
    ensures Transforms(p + q, a, c)
  {
    if p == [] {
      assert p + q == q;
    } else {
      TransformsCompose(p[1..], q, Apply(p[0], a), b, c);
      assert (p + q)[1..] == p[1..] + q;
    }
  }

  /** A script ignores a common last character. */
  lemma {:induction false} TransformsWithSuffix(p: seq<Edit>, a: string, b: string, x: char)
    requires Transforms(p, a, b)
    ensures Transforms(p, a + [x], b + [x])
  {
    if p != [] {
      assert Apply(p[0], a + [x]) == Apply(p[0], a) + [x];
      TransformsWithSuffix(p[1..], Apply(p[0], a), b, x);
    }
  }

  lemma InsertLast(p: seq<Edit>, a: string, b: string)
    requires b != "" && Transforms(p, a, Front(b))
    ensures Transforms(p + [Insert(|b| - 1, Last(b))], a, b)
  {
    var e := Insert(|b| - 1, Last(b));
    assert Apply(e, Front(b)) == b;
    assert Transforms([e], Front(b), b);
    TransformsCompose(p, [e], a, Front(b), b);
  }

  lemma DeleteLast(p: seq<Edit>, a: string, b: string)
    requires a != "" && Transforms(p, Front(a), b)
    ensures Transforms([Delete(|a| - 1)] + p, a, b)
  {
    assert Apply(Delete(|a| - 1), a) == Front(a);
  }

  lemma FrontAndLast(s: string)
    requires s != ""
    ensures Front(s) + [Last(s)] == s
  {
  }

  lemma KeepLast(p: seq<Edit>, a: string, b: string)
    requires a != "" && b != "" && Transforms(p, Front(a), Front(b))
    ensures Transforms(p, Front(a) + [Last(b)], b)
    ensures Last(a) == Last(b) ==> Transforms(p, a, b)
  {
    TransformsWithSuffix(p, Front(a), Front(b), Last(b));
    FrontAndLast(a);
    FrontAndLast(b);
  }

  lemma SubstituteLast(p: seq<Edit>, a: string, b: string)
    requires a != "" && b != "" && Transforms(p, Front(a), Front(b))
    ensures Transforms([Substitute(|a| - 1, Last(b))] + p, a, b)
  {
    KeepLast(p, a, b);
    assert Apply(Substitute(|a| - 1, Last(b)), a) == Front(a) + [Last(b)];
  }

  lemma {:induction false} OptimalScript(a: string, b: string) returns (script: seq<Edit>)
    ensures Transforms(script, a, b) && |script| == Distance(a, b)
    decreases |a| + |b|
  {
    if a == "" && b == "" {
      script := [];
    } else if b != "" && Distance(a, b) == Distance(a, Front(b)) + 1 {
      var p := OptimalScript(a, Front(b));
      InsertLast(p, a, b);
      script := p + [Insert(|b| - 1, Last(b))];
    } else if a != "" && Distance(a, b) == Distance(Front(a), b) + 1 {
      var p := OptimalScript(Front(a), b);
      DeleteLast(p, a, b);
      script := [Delete(|a| - 1)] + p;
    } else {
      var p := OptimalScript(Front(a), Front(b));
      KeepLast(p, a, b);
      SubstituteLast(p, a, b);
      script := if Last(a) == Last(b) then p else [Substitute(|a| - 1, Last(b))] + p;
    }
  }

  // ----- no script is shorter

  /** The three ways to fill a cell bound it from above, and one of them is taken. */
  lemma Cell(a: string, b: string)
    requires b != ""
    ensures Distance(a, b) <= Distance(a, Front(b)) + 1
    ensures a != "" ==> Distance(a, b) <= Distance(Front(a), b) + 1
    ensures a != "" ==> Distance(a, b) <= Distance(Front(a), Front(b)) + Mismatch(Last(a), Last(b))
    ensures
      || Distance(a, b) == Distance(a, Front(b)) + 1
      || (a != "" && Distance(a, b) == Distance(Front(a), b) + 1)
      || (a != "" && Distance(a, b) == Distance(Front(a), Front(b)) + Mismatch(Last(a), Last(b)))
  {
  }

  lemma AppendCosts(a: string, a': string, b: string)
    requires a' != "" && b != "" && Front(a') == a
    requires Distance(a, Front(b)) <= Distance(a', Front(b)) + 1
    ensures Distance(a, b) <= Distance(a', b) + 1
  {
    Cell(a, b);
    Cell(a', b);
  }

  lemma SubstituteLastCosts(a: string, a': string, b: string)
    requires a != "" && a' != "" && b != "" && Front(a') == Front(a)
    requires Distance(a, Front(b)) <= Distance(a', Front(b)) + 1
    ensures Distance(a, b) <= Distance(a', b) + 1
  {
    Cell(a, b);
    Cell(a', b);
  }

  /** One edit changes the distance to a fixed string by at most one. */
  lemma {:induction false} OneEditCostsAtMostOne(e: Edit, a: string, b: string)
    requires Applicable(e, a)
    ensures Distance(a, b) <= Distance(Apply(e, a), b) + 1
    decreases |a| + |b|
  {
    var a' := Apply(e, a);
    if b != "" {
      OneEditCostsAtMostOne(e, a, Front(b));
      if e.at + 1 < |a| || (e.at < |a| && e.Insert?) {
        InnerEditFront(e, a);
        OneEditCostsAtMostOne(e, Front(a), b);
        OneEditCostsAtMostOne(e, Front(a), Front(b));
      } else {
        LastEdit(e, a);
        match e {
          case Insert(_, _) => AppendCosts(a, a', b);
          case Delete(_) => Cell(a, b);
          case Substitute(_, _) => SubstituteLastCosts(a, a', b);
        }
      }
    }
  }

  lemma InnerEditFront(e: Edit, a: string)
    requires Applicable(e, a) && (e.at + 1 < |a| || (e.at < |a| && e.Insert?))
    ensures Apply(e, a) != "" && Last(Apply(e, a)) == Last(a)
    ensures Applicable(e, Front(a)) && Front(Apply(e, a)) == Apply(e, Front(a))
  {
    assert Front(Apply(e, a)) == Apply(e, Front(a));
  }

  lemma LastEdit(e: Edit, a: string)
    requires Applicable(e, a) && (if e.Insert? then e.at == |a| else e.at + 1 == |a|)
    ensures match e
            case Insert(_, _) => Front(Apply(e, a)) == a
            case Delete(_) => Apply(e, a) == Front(a)
            case Substitute(_, _) => Front(Apply(e, a)) == Front(a)
  {
  }

  lemma {:induction false} DistanceToSelf(a: string)
    ensures Distance(a, a) == 0
  {
    if a != "" {
      DistanceToSelf(Front(a));
    }
  }

  lemma {:induction false} NoShorterScript(script: seq<Edit>, a: string, b: string)
    requires Transforms(script, a, b)
    ensures Distance(a, b) <= |script|
  {
    if script == [] {
      DistanceToSelf(a);
    } else {
      NoShorterScript(script[1..], Apply(script[0], a), b);
      OneEditCostsAtMostOne(script[0], a, b);
    }
  }

  /** The recurrence computes the length of a shortest script, and nothing else does. */
  lemma DistanceIsLeastScriptLength(a: string, b: string)
    ensures forall d: nat :: IsEditDistance(a, b, d) <==> d == Distance(a, b)
  {
    var best := OptimalScript(a, b);
    forall script | Transforms(script, a, b)
      ensures Distance(a, b) <= |script|
    {
      NoShorterScript(script, a, b);
    }
  }

  // ----- a metric

  lemma ZeroIffEqual(a: string, b: string)
    ensures Distance(a, b) == 0 <==> a == b
  {
    var script := OptimalScript(a, b);
    DistanceToSelf(a);
  }

  lemma {:induction false} Symmetric(a: string, b: string)
    ensures Distance(a, b) == Distance(b, a)
    decreases |a| + |b|
  {
    if a != "" && b != "" {
      Symmetric(a, Front(b));
      Symmetric(Front(a), b);
      Symmetric(Front(a), Front(b));
    }
  }

  lemma TriangleInequality(a: string, b: string, c: string)
    ensures Distance(a, c) <= Distance(a, b) + Distance(b, c)
  {
    var p := OptimalScript(a, b);
    var q := OptimalScript(b, c);
    TransformsCompose(p, q, a, b, c);
    NoShorterScript(p + q, a, c);
  }

  // ----- the two-row computation

  /** The first cells of the table row of `prefix`. */
  ghost predicate IsRow(cells: seq<nat>, prefix: string, right: string) {
    |cells| <= |right| + 1 && forall j :: 0 <= j < |cells| ==> cells[j] == Distance(prefix, right[..j])
  }

  ghost predicate Extends(s: string, front: string, last: char) {
    s != "" && Front(s) == front && Last(s) == last
  }

  lemma TableCell(a: string, above: string, x: char, b: string, before: string, y: char)
    requires Extends(a, above, x) && Extends(b, before, y)
    ensures Distance(a, b) == Entry(Distance(a, before), Distance(above, b), Distance(above, before), x, y)
  {
  }

  /** One more cell, from its three neighbours. */
  lemma ExtendRow(previous: seq<nat>, current: seq<nat>, above: string, here: string, x: char,
                  right: string, cell: nat)
    requires Extends(here, above, x) && IsRow(previous, above, right) && IsRow(current, here, right)
    requires |previous| == |right| + 1 && 1 <= |current| <= |right|
    requires var c := |current|;
             cell == Entry(current[c - 1], previous[c], previous[c - 1], x, right[c - 1])
    ensures IsRow(current + [cell], here, right)
  {
    var c := |current|;
    TableCell(here, above, x, right[..c], right[..c - 1], right[c - 1]);
  }

  method Compute(left: string, right: string) returns (d: nat)
    ensures d == Distance(left, right)
    ensures IsEditDistance(left, right, d)
  {
    var previous: seq<nat> := seq(|right| + 1, i requires 0 <= i => i);
    var row := 1;
    assert left[..0] == "";
    while row <= |left|
      invariant 1 <= row <= |left| + 1
      invariant |previous| == |right| + 1
      invariant IsRow(previous, left[..row - 1], right)
    {
      var leftChar := left[row - 1];
      var current: seq<nat> := [row];
      var column := 1;
      while column <= |right|
        invariant 1 <= column <= |right| + 1
        invariant |current| == column
        invariant IsRow(current, left[..row], right)
      {
        var rightChar := right[column - 1];
        var cell := Min(Min(current[column - 1] + 1, previous[column] + 1),
                        previous[column - 1] + Mismatch(leftChar, rightChar));
        ExtendRow(previous, current, left[..row - 1], left[..row], leftChar, right, cell);
        current := current + [cell];
        column := column + 1;
      }
      previous := current;
      row := row + 1;
    }
    d := previous[|right|];
    assert left[..|left|] == left && right[..|right|] == right;
    DistanceIsLeastScriptLength(left, right);
  }
}
