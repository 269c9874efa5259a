/** Forgiving one slip in a region name: prefixes of the words that follow a place marker are
    compared with the known city names, and only prefixes of about the right length are tried. */
module RegionMatch {
  import opened Common
  import opened EditDistance

  datatype Alias = Alias(name: string, region: string)
  datatype Match = Match(distance: nat, region: string)

  lemma {:induction false} DistanceCoversLengthGap(a: string, b: string)
    ensures Distance(a, b) >= |a| - |b| && Distance(a, b) >= |b| - |a|
    decreases |a| + |b|
  {
    if a != "" && b != "" {
      DistanceCoversLengthGap(a, Front(b));
      DistanceCoversLengthGap(Front(a), b);
      DistanceCoversLengthGap(Front(a), Front(b));
    }
  }

  /** `m` is no worse than a prefix at distance `d`, unless that is more than one slip. */
  predicate AtLeastAsClose(m: Option<Match>, d: nat) {
    d <= 1 ==> m.Some? && m.value.distance <= d
  }

  /** `m` is no worse than any prefix of `from` to `to` characters. */
  ghost predicate NoCloserAmong(m: Option<Match>, chunk: string, name: string, from: nat, to: int) {
    forall k :: from <= k <= to && k <= |chunk| ==> AtLeastAsClose(m, Distance(chunk[..k], name))
  }

  /** `m` is no worse than any prefix of two or more characters. */
  ghost predicate NoCloser(m: Option<Match>, chunk: string, name: string) {
    NoCloserAmong(m, chunk, name, 2, |chunk|)
  }

  /** Prefixes of other lengths are more than one slip away. */
  lemma OtherLengthsAreFar(m: Option<Match>, chunk: string, name: string, from: nat, to: nat)
    requires NoCloserAmong(m, chunk, name, from, to) && (from <= 2 || from < |name|)
    requires to > |name| || to >= |chunk|
    ensures NoCloser(m, chunk, name)
  {
    forall k | 2 <= k <= |chunk|
      ensures AtLeastAsClose(m, Distance(chunk[..k], name))
    {
      DistanceCoversLengthGap(chunk[..k], name);
    }
  }

  lemma OneLengthMore(before: Option<Match>, m: Option<Match>, chunk: string, name: string, from: nat, k: nat)
    requires NoCloserAmong(before, chunk, name, from, k - 1) && Improves(before, m) && k <= |chunk|
    requires AtLeastAsClose(m, Distance(chunk[..k], name))
    ensures NoCloserAmong(m, chunk, name, from, k)
  {
    forall l | from <= l <= k
      ensures AtLeastAsClose(m, Distance(chunk[..l], name))
    {
      if l < k {
        assert AtLeastAsClose(before, Distance(chunk[..l], name));
      }
    }
  }

  ghost predicate Reaches(m: Match, chunk: string, alias: Alias) {
    m.region == alias.region && exists k :: 2 <= k <= |chunk| && Distance(chunk[..k], alias.name) == m.distance
  }

  ghost predicate Improves(before: Option<Match>, after: Option<Match>) {
    before.Some? ==> after.Some? && after.value.distance <= before.value.distance
  }

  /** Tries the prefixes whose length differs from the name's by at most one. */
  method TryAlias(chunk: string, alias: Alias, best: Option<Match>) returns (m: Option<Match>)
    requires |alias.name| >= 2
    ensures NoCloser(m, chunk, alias.name) && Improves(best, m)
    ensures m != best ==> m.Some? && m.value.distance <= 1 && Reaches(m.value, chunk, alias)
  {
    m := best;
    var from := if |alias.name| - 1 > 2 then |alias.name| - 1 else 2;
    var length := from;
    while length <= |chunk| && length <= |alias.name| + 1
      invariant from <= length && (length == from || length - 1 <= |chunk|)
      invariant Improves(best, m) && NoCloserAmong(m, chunk, alias.name, from, length - 1)
      invariant m != best ==> m.Some? && m.value.distance <= 1 && Reaches(m.value, chunk, alias)
    {
      ghost var before := m;
      var distance := Compute(chunk[..length], alias.name);
      if distance <= 1 && (m.None? || distance < m.value.distance) {
        m := Some(Match(distance, alias.region));
        assert Reaches(m.value, chunk, alias);
      }
      OneLengthMore(before, m, chunk, alias.name, from, length);
      length := length + 1;
    }
    OtherLengthsAreFar(m, chunk, alias.name, from, length - 1);
  }

  method TryAliases(chunk: string, aliases: seq<Alias>, best: Option<Match>) returns (m: Option<Match>)
    requires forall i :: 0 <= i < |aliases| ==> |aliases[i].name| >= 2
    ensures Improves(best, m) && forall i :: 0 <= i < |aliases| ==> NoCloser(m, chunk, aliases[i].name)
    ensures m != best ==> m.Some? && m.value.distance <= 1 && exists i :: 0 <= i < |aliases| && Reaches(m.value, chunk, aliases[i])
  {
    m := best;
    var i := 0;
    while i < |aliases|
      invariant 0 <= i <= |aliases| && Improves(best, m)
      invariant forall j :: 0 <= j < i ==> NoCloser(m, chunk, aliases[j].name)
      invariant m != best ==> m.Some? && m.value.distance <= 1 && exists j :: 0 <= j < |aliases| && Reaches(m.value, chunk, aliases[j])
    {
      var next := TryAlias(chunk, aliases[i], m);
      forall j | 0 <= j < i
        ensures NoCloser(next, chunk, aliases[j].name)
      {
      }
      m := next;
      i := i + 1;
    }
  }

  /** The closest city over all prefixes of two or more characters, although only a few
      lengths are tried; none exactly when no prefix is within one slip of a name. */
  method FuzzyRegion(chunks: seq<string>, aliases: seq<Alias>) returns (m: Option<Match>)
    requires forall i :: 0 <= i < |aliases| ==> |aliases[i].name| >= 2
    ensures forall c, i :: 0 <= c < |chunks| && 0 <= i < |aliases| ==> NoCloser(m, chunks[c], aliases[i].name)
    ensures m.Some? ==> m.value.distance <= 1 && exists c, i :: 0 <= c < |chunks| && 0 <= i < |aliases| && Reaches(m.value, chunks[c], aliases[i])
  {
    m := None;
    var c := 0;
    while c < |chunks|
      invariant 0 <= c <= |chunks|
      invariant forall d, i :: 0 <= d < c && 0 <= i < |aliases| ==> NoCloser(m, chunks[d], aliases[i].name)
      invariant m.Some? ==> m.value.distance <= 1 && exists d, i :: 0 <= d < |chunks| && 0 <= i < |aliases| && Reaches(m.value, chunks[d], aliases[i])
    {
      var next := TryAliases(chunks[c], aliases, m);
      forall d, i | 0 <= d < c && 0 <= i < |aliases|
        ensures NoCloser(next, chunks[d], aliases[i].name)
      {
      }
      m := next;
      c := c + 1;
    }
  }
}
