/** `array.sort(compare)` with a comparator that subtracts two integer
    keys: an in-place sort by ascending key. */
module ArraySort {

  predicate SortedByKey<T>(s: seq<T>, key: T -> int) {
    forall i, j :: 0 <= i < j < |s| ==> key(s[i]) <= key(s[j])
  }

  /** Moves `a[n]` down into the sorted prefix `a[..n]`. */
  method Sink<T>(a: array<T>, n: nat, key: T -> int)
    requires n < a.Length
    requires SortedByKey(a[..n], key)
    modifies a
    ensures SortedByKey(a[..n + 1], key)
    ensures multiset(a[..]) == multiset(old(a[..]))
    ensures a[n + 1..] == old(a[n + 1..])
  {
    var m := n;
    while m > 0 && key(a[m - 1]) > key(a[m])
      invariant 0 <= m <= n
      invariant forall i, j :: 0 <= i < j <= n && j != m ==> key(a[i]) <= key(a[j])
      invariant multiset(a[..]) == multiset(old(a[..]))
      invariant a[n + 1..] == old(a[n + 1..])
      decreases m
    {
      a[m - 1], a[m] := a[m], a[m - 1];
      m := m - 1;
    }
  }

  /** Sorts `a` by ascending `key`, in place. */
  method SortByKey<T>(a: array<T>, key: T -> int)
    modifies a
    ensures SortedByKey(a[..], key)
    ensures multiset(a[..]) == multiset(old(a[..]))
  {
    var n := 0;
    while n < a.Length
      invariant 0 <= n <= a.Length
      invariant SortedByKey(a[..n], key)
      invariant multiset(a[..]) == multiset(old(a[..]))
      decreases a.Length - n
    {
      Sink(a, n, key);
      n := n + 1;
    }
    assert a[..n] == a[..];
  }
}
