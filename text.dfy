/** Ordering of region names. JavaScript's default Array.prototype.sort and
    Python's sorted() both compare strings code unit by code unit, which is
    the lexicographic order on seq<char> defined here. */
module Text {

  /** a sorts no later than b: lexicographic order on character codes, a
      proper prefix sorting first. */
  predicate LessEq(a: string, b: string)
    decreases |a|
  {
    if |a| == 0 then true
    else if |b| == 0 then false
    else if a[0] != b[0] then a[0] < b[0]
    else LessEq(a[1..], b[1..])
  }

  predicate Less(a: string, b: string)
  {
    LessEq(a, b) && a != b
  }

  lemma {:induction false} LessEqTotal(a: string, b: string)
    ensures LessEq(a, b) || LessEq(b, a)
    decreases |a|
  {
    if |a| != 0 && |b| != 0 && a[0] == b[0] {
      LessEqTotal(a[1..], b[1..]);
    }
  }

  lemma {:induction false} LessEqTransitive(a: string, b: string, c: string)
    requires LessEq(a, b) && LessEq(b, c)
    ensures LessEq(a, c)
    decreases |a|
  {
    if |a| != 0 && |b| != 0 && |c| != 0 && a[0] == b[0] && b[0] == c[0] {
      LessEqTransitive(a[1..], b[1..], c[1..]);
    }
  }

  lemma {:induction false} LessEqAntisymmetric(a: string, b: string)
    requires LessEq(a, b) && LessEq(b, a)
    ensures a == b
    decreases |a|
  {
    if |a| != 0 && |b| != 0 {
      LessEqAntisymmetric(a[1..], b[1..]);
      assert a == [a[0]] + a[1..] && b == [b[0]] + b[1..];
    }
  }

  /** Strictly ascending, hence free of duplicates. */
  predicate StrictlySorted(s: seq<string>)
  {
    forall i, j :: 0 <= i < j < |s| ==> Less(s[i], s[j])
  }

  lemma StrictlySortedHasNoDuplicates(s: seq<string>, i: int, j: int)
    requires StrictlySorted(s) && 0 <= i < |s| && 0 <= j < |s| && i != j
    ensures s[i] != s[j]
  {
  }

  /** Insertion of a new name into a strictly sorted list. */
  function Insert(s: seq<string>, x: string): (r: seq<string>)
    requires StrictlySorted(s) && x !in s
    ensures StrictlySorted(r)
    ensures forall y :: y in r <==> y in s || y == x
    ensures |r| == |s| + 1
  {
    if s == [] then [x]
    else if LessEq(x, s[0]) then
      SmallerThanHead(s, x);
      [x] + s
    else
      var tail := Insert(s[1..], x);
      HeadBelowRest(s, x, tail);
      [s[0]] + tail
  }

  lemma HeadBelowRest(s: seq<string>, x: string, tail: seq<string>)
    requires StrictlySorted(s) && s != [] && x !in s && !LessEq(x, s[0])
    requires forall y :: y in tail <==> y in s[1..] || y == x
    ensures forall y :: y in tail ==> Less(s[0], y)
  {
    LessEqTotal(x, s[0]);
    forall y | y in tail ensures Less(s[0], y) {
      if y != x {
        var j :| 0 <= j < |s[1..]| && s[1..][j] == y;
        assert s[j + 1] == y;
      }
    }
  }

  lemma SmallerThanHead(s: seq<string>, x: string)
    requires StrictlySorted(s) && s != [] && x !in s && LessEq(x, s[0])
    ensures forall j :: 0 <= j < |s| ==> Less(x, s[j])
  {
    forall j | 0 < j < |s| ensures Less(x, s[j]) {
      LessEqTransitive(x, s[0], s[j]);
    }
  }

  /** The strictly sorted list of the names in a set: Array.from(set).sort()
      and sorted(list(set)). */
  method SortedNames(names: set<string>) returns (r: seq<string>)
    ensures StrictlySorted(r)
    ensures forall y :: y in r <==> y in names
    ensures |r| == |names|
  {
    r := [];
    var rest := names;
    while rest != {}
      invariant StrictlySorted(r)
      invariant forall y :: y in r <==> y in names && y !in rest
      invariant rest <= names
      invariant |r| + |rest| == |names|
      decreases |rest|
    {
      var x :| x in rest;
      r := Insert(r, x);
      rest := rest - {x};
    }
  }
}
