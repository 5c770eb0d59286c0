/** The array built-ins the storefront relies on (`filter`, `findIndex`, `slice`), over sequences. */
module Seqs {

  /** `r` is `s` with some elements deleted and the order of the rest kept. */
  ghost predicate IsSubsequence<T>(r: seq<T>, s: seq<T>)
    decreases |s|
  {
    if r == [] then true
    else if s == [] then false
    else (r[0] == s[0] && IsSubsequence(r[1..], s[1..])) || IsSubsequence(r, s[1..])
  }

  /** `r` is the first `|r|` elements of `s`. */
  ghost predicate IsPrefix<T>(r: seq<T>, s: seq<T>) {
    |r| <= |s| && r == s[..|r|]
  }

  /** `Array.prototype.filter`: the elements of `s` that satisfy `f`, in their original order. */
  function Filter<T>(f: T -> bool, s: seq<T>): (r: seq<T>)
    ensures |r| <= |s|
    ensures forall j :: 0 <= j < |r| ==> f(r[j]) && r[j] in s
    ensures forall j :: 0 <= j < |s| && f(s[j]) ==> s[j] in r
    ensures IsSubsequence(r, s)
  {
    if s == [] then []
    else if f(s[0]) then [s[0]] + Filter(f, s[1..])
    else Filter(f, s[1..])
  }

  /** How many copies of `x` survive `filter`: all of them if `x` passes, none if not. */
  lemma {:induction false} FilterCount<T>(f: T -> bool, s: seq<T>, x: T)
    ensures multiset(Filter(f, s))[x] == if f(x) then multiset(s)[x] else 0
  {
    if s != [] {
      FilterCount(f, s[1..], x);
      assert s == [s[0]] + s[1..];
      assert multiset(s)[x] == multiset([s[0]])[x] + multiset(s[1..])[x];
      if f(s[0]) {
        assert multiset(Filter(f, s))[x] == multiset([s[0]])[x] + multiset(Filter(f, s[1..]))[x];
      }
    }
  }

  /**
   * `filter` keeps every occurrence of a passing element and drops every occurrence of a
   * failing one, so it never merges or duplicates equal elements.
   */
  lemma FilterCounts<T>(f: T -> bool, s: seq<T>)
    ensures multiset(Filter(f, s)) <= multiset(s)
    ensures forall x | x in s :: multiset(Filter(f, s))[x] == if f(x) then multiset(s)[x] else 0
  {
    forall x ensures multiset(Filter(f, s))[x] == if f(x) then multiset(s)[x] else 0 {
      FilterCount(f, s, x);
    }
  }

  /** `Array.prototype.findIndex`: the first index whose element satisfies `f`, or -1. */
  function FindIndex<T>(f: T -> bool, s: seq<T>): (k: int)
    ensures -1 <= k < |s|
    ensures 0 <= k ==> f(s[k]) && forall j :: 0 <= j < k ==> !f(s[j])
    ensures k < 0 <==> forall j :: 0 <= j < |s| ==> !f(s[j])
  {
    if s == [] then -1
    else if f(s[0]) then 0
    else
      var k := FindIndex(f, s[1..]);
      if k < 0 then -1 else k + 1
  }

  /**
   * `s.slice(0, end)`: a non-negative `end` keeps the first `end` elements (all of them if
   * there are fewer); a negative `end` counts from the back and drops `-end` elements.
   */
  function SliceTo<T>(s: seq<T>, end: int): (r: seq<T>)
    ensures IsPrefix(r, s)
    ensures 0 <= end ==> |r| == if end < |s| then end else |s|
    ensures end < 0 ==> |r| == if 0 < |s| + end then |s| + end else 0
  {
    var n := if 0 <= end then (if end < |s| then end else |s|)
             else (if 0 < |s| + end then |s| + end else 0);
    s[..n]
  }

  /** Filtering by a predicate that every element satisfies changes nothing. */
  lemma {:induction false} FilterKeepsAll<T>(f: T -> bool, s: seq<T>)
    requires forall j :: 0 <= j < |s| ==> f(s[j])
    ensures Filter(f, s) == s
  {
    if s != [] {
      FilterKeepsAll(f, s[1..]);
    }
  }

  /** Two filters in a row are one filter by the conjunction of their predicates. */
  lemma {:induction false} FilterTwice<T>(f: T -> bool, g: T -> bool, h: T -> bool, s: seq<T>)
    requires forall x :: h(x) == (f(x) && g(x))
    ensures Filter(g, Filter(f, s)) == Filter(h, s)
  {
    if s != [] {
      FilterTwice(f, g, h, s[1..]);
      if f(s[0]) {
        assert Filter(f, s) == [s[0]] + Filter(f, s[1..]);
        assert Filter(f, s)[0] == s[0] && Filter(f, s)[1..] == Filter(f, s[1..]);
      }
    }
  }

  /** Predicates that agree on every element filter alike. */
  lemma {:induction false} FilterAgrees<T>(f: T -> bool, g: T -> bool, s: seq<T>)
    requires forall j :: 0 <= j < |s| ==> f(s[j]) == g(s[j])
    ensures Filter(f, s) == Filter(g, s)
  {
    if s != [] {
      FilterAgrees(f, g, s[1..]);
    }
  }
}
