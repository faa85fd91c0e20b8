/** The array operations the client pages use on their lists: `filter`
    and `map` of one entry, both order-preserving. */
module Lists {

  /** `r` is `s` with some entries left out, the rest in their order. */
  predicate IsSubsequence<T(==)>(r: seq<T>, s: seq<T>)
    decreases |s|
  {
    if r == [] then true
    else if s == [] then false
    else (r[0] == s[0] && IsSubsequence(r[1..], s[1..])) || IsSubsequence(r, s[1..])
  }

  /** `s.filter(p)`: exactly the entries satisfying `p`, each as often as
      in `s`. */
  function Keep<T(==,!new)>(s: seq<T>, p: T -> bool): (r: seq<T>)
    ensures |r| <= |s|
    ensures forall x :: multiset(r)[x] == if p(x) then multiset(s)[x] else 0
    decreases |s|
  {
    if s == [] then []
    else
      var rest := Keep(s[1..], p);
      assert s == [s[0]] + s[1..];
      if p(s[0]) then [s[0]] + rest else rest
  }

  /** The kept entries appear in their original order. */
  lemma {:induction false} KeepIsSubsequence<T(!new)>(s: seq<T>, p: T -> bool)
    ensures IsSubsequence(Keep(s, p), s)
    decreases |s|
  {
    if s != [] {
      KeepIsSubsequence(s[1..], p);
      var rest := Keep(s[1..], p);
      if p(s[0]) {
        assert Keep(s, p)[1..] == rest;
      } else if rest != [] {
        assert Keep(s, p) == rest;
      }
    }
  }

  /** Filtering keeps every entry that satisfies the test and nothing else. */
  lemma KeepMembers<T(!new)>(s: seq<T>, p: T -> bool, x: T)
    ensures x in Keep(s, p) <==> x in s && p(x)
  {
    assert x in Keep(s, p) <==> multiset(Keep(s, p))[x] > 0;
    assert x in s <==> multiset(s)[x] > 0;
  }

  /** A test everything passes keeps the whole list. */
  lemma {:induction false} KeepAll<T(!new)>(s: seq<T>, p: T -> bool)
    requires forall i :: 0 <= i < |s| ==> p(s[i])
    ensures Keep(s, p) == s
    decreases |s|
  {
    if s != [] {
      KeepAll(s[1..], p);
    }
  }
  /** Two tests no entry passes together keep at most the whole list
      between them. */
  lemma {:induction false} KeepDisjointBound<T(!new)>(s: seq<T>, p: T -> bool, q: T -> bool)
    requires forall i :: 0 <= i < |s| ==> !(p(s[i]) && q(s[i]))
    ensures |Keep(s, p)| + |Keep(s, q)| <= |s|
    decreases |s|
  {
    if s != [] {
      KeepDisjointBound(s[1..], p, q);
    }
  }

  /** Lists that agree entry by entry on a test keep equally many entries. */
  lemma {:induction false} KeepSameCount<T(!new)>(s: seq<T>, t: seq<T>, p: T -> bool)
    requires |s| == |t| && forall i :: 0 <= i < |s| ==> p(s[i]) == p(t[i])
    ensures |Keep(s, p)| == |Keep(t, p)|
    decreases |s|
  {
    if s != [] {
      KeepSameCount(s[1..], t[1..], p);
    }
  }
}
