/**
 * The array combinators the source uses on its tables: `find`, `findIndex`,
 * `filter` and the `map(x => cond ? update : x)` idiom that replaces every
 * matching record.
 */
module Seqs {
  import opened Wrappers

  /** `s.findIndex(p)`: the first position satisfying `p`, if any. */
  function FindIndex<T>(s: seq<T>, p: T -> bool): (r: Option<nat>)
    ensures r.Some? ==> r.value < |s| && p(s[r.value])
    ensures r.Some? ==> forall j :: 0 <= j < r.value ==> !p(s[j])
    ensures r.None? <==> forall j :: 0 <= j < |s| ==> !p(s[j])
  {
    if |s| == 0 then None
    else if p(s[0]) then Some(0)
    else match FindIndex(s[1..], p)
      case None => None
      case Some(k) => Some(k + 1)
  }

  /** `s.find(p)`: the first element satisfying `p`, if any. */
  function Find<T>(s: seq<T>, p: T -> bool): (r: Option<T>)
    ensures r.Some? ==> r.value in s && p(r.value)
    ensures r.Some? ==> exists k :: 0 <= k < |s| && s[k] == r.value && forall j :: 0 <= j < k ==> !p(s[j])
    ensures r.None? <==> forall j :: 0 <= j < |s| ==> !p(s[j])
  {
    match FindIndex(s, p)
    case None => None
    case Some(k) => Some(s[k])
  }

  /** `s.some(p)`. */
  predicate Any<T>(s: seq<T>, p: T -> bool) {
    exists i :: 0 <= i < |s| && p(s[i])
  }

  /** `r` keeps some of the elements of `s`, in their order. */
  predicate IsSubsequence<T(==)>(r: seq<T>, s: seq<T>)
    decreases |s|
  {
    if r == [] then true
    else if s == [] then false
    else if r[0] == s[0] then IsSubsequence(r[1..], s[1..])
    else IsSubsequence(r, s[1..])
  }

  /** `s.filter(p)`: exactly the elements satisfying `p`, in their original order. */
  function Filter<T(==)>(s: seq<T>, p: T -> bool): (r: seq<T>)
    ensures |r| <= |s|
    ensures forall i :: 0 <= i < |r| ==> p(r[i])
    ensures forall i :: 0 <= i < |r| ==> r[i] in s
    ensures forall i :: 0 <= i < |s| && p(s[i]) ==> s[i] in r
    ensures IsSubsequence(r, s)
  {
    if |s| == 0 then []
    else
      var rest := Filter(s[1..], p);
      assert s == [s[0]] + s[1..];
      if p(s[0]) then
        assert ([s[0]] + rest)[1..] == rest;
        [s[0]] + rest
      else rest
  }

  /** `filter` keeps every satisfying element as often as it occurs, and no other element. */
  lemma {:induction false} FilterCounts<T>(s: seq<T>, p: T -> bool)
    ensures forall i :: 0 <= i < |s| ==>
      multiset(Filter(s, p))[s[i]] == if p(s[i]) then multiset(s)[s[i]] else 0
  {
    if |s| > 0 {
      FilterCounts(s[1..], p);
      var rest := Filter(s[1..], p);
      assert forall i :: 1 <= i < |s| ==> s[i] == s[1..][i - 1];
      CountsStep(s, rest, p);
    }
  }

  /** One step of `Filter`: the multiplicities carry over from the tail to the whole sequence. */
  lemma CountsStep<T>(s: seq<T>, rest: seq<T>, p: T -> bool)
    requires |s| > 0
    requires forall i :: 0 <= i < |rest| ==> rest[i] in s[1..]
    requires forall i :: 1 <= i < |s| ==> multiset(rest)[s[i]] == if p(s[i]) then multiset(s[1..])[s[i]] else 0
    ensures var r := if p(s[0]) then [s[0]] + rest else rest;
      forall i :: 0 <= i < |s| ==> multiset(r)[s[i]] == if p(s[i]) then multiset(s)[s[i]] else 0
  {
    var r := if p(s[0]) then [s[0]] + rest else rest;
    assert s == [s[0]] + s[1..];
    assert multiset(s) == multiset([s[0]]) + multiset(s[1..]);
    assert multiset([s[0]] + rest) == multiset([s[0]]) + multiset(rest);
    if s[0] !in s[1..] {
      assert s[0] !in rest;
    }
    forall i | 0 <= i < |s| ensures multiset(r)[s[i]] == if p(s[i]) then multiset(s)[s[i]] else 0 {
      if s[i] != s[0] {
        var k :| 1 <= k < |s| && s[k] == s[i];
      } else if s[0] in s[1..] {
        var k :| 0 <= k < |s| - 1 && s[1..][k] == s[0];
        assert s[k + 1] == s[0];
      }
    }
  }

  /** `s.map(x => p(x) ? f(x) : x)`: every matching element is replaced, the others are kept. */
  function MapWhere<T>(s: seq<T>, p: T -> bool, f: T -> T): (r: seq<T>)
    ensures |r| == |s|
    ensures forall i :: 0 <= i < |s| && p(s[i]) ==> r[i] == f(s[i])
    ensures forall i :: 0 <= i < |s| && !p(s[i]) ==> r[i] == s[i]
  {
    seq(|s|, i requires 0 <= i < |s| => if p(s[i]) then f(s[i]) else s[i])
  }

  /** Replacing elements by ones that still match (or still do not) leaves the first match where it was. */
  lemma MapWhereKeepsFirstMatch<T>(s: seq<T>, p: T -> bool, f: T -> T)
    requires forall i :: 0 <= i < |s| ==> p(f(s[i])) == p(s[i])
    ensures FindIndex(MapWhere(s, p, f), p) == FindIndex(s, p)
  {
    var t := MapWhere(s, p, f);
    assert forall i :: 0 <= i < |s| ==> p(t[i]) == p(s[i]);
  }

  /** Filtering distributes over concatenation, so it preserves relative order. */
  lemma {:induction false} FilterAppend<T>(a: seq<T>, b: seq<T>, p: T -> bool)
    ensures Filter(a + b, p) == Filter(a, p) + Filter(b, p)
  {
    if |a| > 0 {
      assert (a + b)[1..] == a[1..] + b;
      FilterAppend(a[1..], b, p);
    } else {
      assert a + b == b;
    }
  }

  /** One more element adds one to the filtered length exactly when it satisfies the predicate. */
  lemma FilterSnoc<T>(s: seq<T>, x: T, p: T -> bool)
    ensures |Filter(s + [x], p)| == |Filter(s, p)| + (if p(x) then 1 else 0)
  {
    FilterAppend(s, [x], p);
    assert [x][1..] == [];
  }

  /** The `forEach` that pushes `f(x)` whenever it is defined: results in input order. */
  function FilterMap<A, B>(s: seq<A>, f: A -> Option<B>): seq<B> {
    if s == [] then []
    else FilterMap(s[..|s| - 1], f) + (match f(s[|s| - 1]) case Some(y) => [y] case None => [])
  }

  /** Each input contributes at most one result. */
  lemma {:induction false} FilterMapBound<A, B>(s: seq<A>, f: A -> Option<B>)
    ensures |FilterMap(s, f)| <= |s|
  {
    if s != [] { FilterMapBound(s[..|s| - 1], f); }
  }

  /** `FilterMap` distributes over concatenation, so results keep the input order. */
  lemma {:induction false} FilterMapAppend<A, B>(a: seq<A>, b: seq<A>, f: A -> Option<B>)
    ensures FilterMap(a + b, f) == FilterMap(a, f) + FilterMap(b, f)
    decreases |b|
  {
    if b == [] {
      assert a + b == a;
    } else {
      var b' := b[..|b| - 1];
      assert (a + b)[..|a + b| - 1] == a + b';
      assert (a + b)[|a + b| - 1] == b[|b| - 1];
      FilterMapAppend(a, b', f);
    }
  }

  /** A value is a result exactly when some input maps to it. */
  lemma {:induction false} FilterMapMembership<A, B>(s: seq<A>, f: A -> Option<B>, y: B)
    ensures y in FilterMap(s, f) <==> exists i :: 0 <= i < |s| && f(s[i]) == Some(y)
  {
    if s != [] {
      var init := s[..|s| - 1];
      FilterMapMembership(init, f, y);
      if y in FilterMap(s, f) && y !in FilterMap(init, f) {
        assert f(s[|s| - 1]) == Some(y);
      }
      if exists i :: 0 <= i < |s| && f(s[i]) == Some(y) {
        var i :| 0 <= i < |s| && f(s[i]) == Some(y);
        if i < |init| {
          assert init[i] == s[i];
        }
      }
      if y in FilterMap(init, f) {
        var i :| 0 <= i < |init| && f(init[i]) == Some(y);
        assert s[i] == init[i];
      }
    }
  }
}
