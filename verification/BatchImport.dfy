/** The uniqueness check on the task identifiers of an imported batch. It looks at the
    identifiers without surrounding blanks, while the tasks keep theirs as they came. */
module BatchImport {

  const BLANKS: set<char> := {' ', '\t', '\n', '\r'}

  function StripLeft(s: string): string {
    if s != "" && s[0] in BLANKS then StripLeft(s[1..]) else s
  }

  function StripRight(s: string): string {
    if s != "" && s[|s| - 1] in BLANKS then StripRight(s[..|s| - 1]) else s
  }

  function Strip(s: string): string {
    StripRight(StripLeft(s))
  }

  datatype Issue = Missing(row: nat) | Duplicate(row: nat)

  /** Row `i` repeats an identifier that is known or that an earlier row has. */
  ghost predicate Repeats(rows: seq<string>, known: set<string>, i: nat)
    requires i < |rows|
  {
    Strip(rows[i]) in known || exists j :: 0 <= j < i && Strip(rows[j]) == Strip(rows[i])
  }

  ghost predicate Accepted(rows: seq<string>, known: set<string>) {
    forall i :: 0 <= i < |rows| ==> Strip(rows[i]) != "" && !Repeats(rows, known, i)
  }

  /** Reports a row exactly when its stripped identifier is missing or repeated. */
  method CheckIds(rows: seq<string>, known: set<string>) returns (issues: seq<Issue>)
    ensures forall i :: 0 <= i < |rows| ==> (Missing(i) in issues <==> Strip(rows[i]) == "")
    ensures forall i :: 0 <= i < |rows| ==> (Duplicate(i) in issues <==> Strip(rows[i]) != "" && Repeats(rows, known, i))
    ensures issues == [] <==> Accepted(rows, known)
  {
    issues := [];
    var seen: set<string> := {};
    var i := 0;
    while i < |rows|
      invariant 0 <= i <= |rows|
      invariant seen == set j | 0 <= j < i :: Strip(rows[j])
      invariant forall k :: k in issues ==> k.row < i
      invariant forall j :: 0 <= j < i ==> (Missing(j) in issues <==> Strip(rows[j]) == "")
      invariant forall j :: 0 <= j < i ==> (Duplicate(j) in issues <==> Strip(rows[j]) != "" && Repeats(rows, known, j))
      invariant issues == [] <==> forall j :: 0 <= j < i ==> Strip(rows[j]) != "" && !Repeats(rows, known, j)
    {
      var id := Strip(rows[i]);
      if id == "" {
        issues := issues + [Missing(i)];
      } else if id in seen || id in known {
        issues := issues + [Duplicate(i)];
      }
      seen := seen + {id};
      i := i + 1;
    }
  }

  lemma AcceptedIdsAreDistinct(rows: seq<string>, known: set<string>, i: nat, j: nat)
    requires Accepted(rows, known) && i < j < |rows|
    ensures rows[i] != rows[j] && rows[i] != ""
  {
    assert !Repeats(rows, known, j);
    assert Strip("") == "";
  }

  lemma {:induction false} StripLeftIsClean(s: string)
    ensures StripLeft(s) == "" || StripLeft(s)[0] !in BLANKS
  {
    if s != "" && s[0] in BLANKS {
      StripLeftIsClean(s[1..]);
    }
  }

  lemma {:induction false} StripRightIsClean(s: string)
    ensures StripRight(s) == "" || StripRight(s)[|StripRight(s)| - 1] !in BLANKS
    ensures StripRight(s) <= s
  {
    if s != "" && s[|s| - 1] in BLANKS {
      StripRightIsClean(s[..|s| - 1]);
    }
  }

  lemma StripTwice(s: string)
    ensures Strip(Strip(s)) == Strip(s)
  {
    StripLeftIsClean(s);
    StripRightIsClean(StripLeft(s));
  }

  /** The check promises that no accepted identifier is known already exactly when none of
      them carries surrounding blanks. */
  lemma AcceptedIdsAreNewIff(rows: seq<string>)
    requires Accepted(rows, {})
    ensures (forall known: set<string> :: Accepted(rows, known) ==> forall i :: 0 <= i < |rows| ==> rows[i] !in known)
            <==> forall i :: 0 <= i < |rows| ==> Strip(rows[i]) == rows[i]
  {
    if forall i :: 0 <= i < |rows| ==> Strip(rows[i]) == rows[i] {
      forall known: set<string>, i | Accepted(rows, known) && 0 <= i < |rows|
        ensures rows[i] !in known
      {
        assert !Repeats(rows, known, i);
      }
    } else {
      var i :| 0 <= i < |rows| && Strip(rows[i]) != rows[i];
      var known := {rows[i]};
      forall j | 0 <= j < |rows|
        ensures Strip(rows[j]) != "" && !Repeats(rows, known, j)
      {
        assert !Repeats(rows, {}, j);
        StripTwice(rows[j]);
      }
      assert Accepted(rows, known) && rows[i] in known;
    }
  }
}
