// `Array.prototype.filter` over sequences, shared by the matcher, the page and the navigation bar.

module Lists {
  /** `s.filter(keep)`. */
  function Filter<T>(s: seq<T>, keep: T -> bool): (r: seq<T>)
    ensures |r| <= |s|
  {
    if s == [] then [] else (if keep(s[0]) then [s[0]] else []) + Filter(s[1..], keep)
  }

  /** `r` is `s` with some elements left out and the rest in their original order. */
  ghost predicate IsSubsequence<T>(r: seq<T>, s: seq<T>)
    decreases |s|
  {
    r == [] || (s != [] && ((r[0] == s[0] && IsSubsequence(r[1..], s[1..])) || IsSubsequence(r, s[1..])))
  }

  /** `filter` keeps every element that passes, as many times as it occurs, and drops every
      element that fails. */
  lemma {:induction false} FilterCounts<T>(s: seq<T>, keep: T -> bool)
    ensures forall x :: multiset(Filter(s, keep))[x] == if keep(x) then multiset(s)[x] else 0
  {
    if s != [] {
      FilterCounts(s[1..], keep);
      var t := Filter(s[1..], keep);
      assert s == [s[0]] + s[1..];
      assert multiset(s) == multiset{s[0]} + multiset(s[1..]);
      assert multiset(Filter(s, keep)) == (if keep(s[0]) then multiset{s[0]} else multiset{}) + multiset(t);
    }
  }

  /** `filter` keeps exactly the elements that pass, in their original order, each as many times
      as it occurs; a list whose elements all pass comes back unchanged. The order and the counts
      together determine the result. */
  lemma {:induction false} FilterSpec<T>(s: seq<T>, keep: T -> bool)
    ensures forall x :: x in Filter(s, keep) <==> x in s && keep(x)
    ensures forall x :: multiset(Filter(s, keep))[x] == if keep(x) then multiset(s)[x] else 0
    ensures IsSubsequence(Filter(s, keep), s)
    ensures (forall x :: x in s ==> keep(x)) ==> Filter(s, keep) == s
  {
    FilterCounts(s, keep);
    if s != [] {
      FilterSpec(s[1..], keep);
      var r := Filter(s, keep);
      var t := Filter(s[1..], keep);
      assert forall x :: x in s <==> x == s[0] || x in s[1..];
      if keep(s[0]) {
        assert r == [s[0]] + t && r[1..] == t;
      } else {
        assert r == t;
      }
      if forall x :: x in s ==> keep(x) {
        assert t == s[1..];
        assert s == [s[0]] + s[1..];
      }
    }
  }

  /** Filtering with two tests that agree everywhere gives the same list. */
  lemma {:induction false} FilterAgreeing<T>(s: seq<T>, p: T -> bool, q: T -> bool)
    requires forall x :: p(x) == q(x)
    ensures Filter(s, p) == Filter(s, q)
  {
    if s != [] {
      FilterAgreeing(s[1..], p, q);
    }
  }
}
