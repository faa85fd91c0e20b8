/** The read side of the document store: select the documents of a
    collection that match a filter and order them by one numeric key,
    largest first (`find(filter).sort({ key: -1 })`). An ascending sort
    (`sort({ key: 1 })`) is the same query on the negated key. Documents
    whose keys tie may come out in any order, as they may from the store. */
module Query {
  import opened Common

  /** Keys never increase along `r`. */
  predicate Descending<T>(r: seq<(Id, T)>, key: T -> int) {
    forall i, j :: 0 <= i < j < |r| ==> key(r[i].1) >= key(r[j].1)
  }

  /** No document is listed twice. */
  predicate DistinctIds<T>(r: seq<(Id, T)>) {
    forall i, j :: 0 <= i < j < |r| ==> r[i].0 != r[j].0
  }

  /** `r` lists every document of `m` that satisfies `keep`, and nothing else, once each. */
  predicate ListsExactly<T(==,!new)>(r: seq<(Id, T)>, m: map<Id, T>, keep: T -> bool) {
    && (forall x :: x in r ==> x.0 in m && m[x.0] == x.1 && keep(x.1))
    && (forall k :: k in m && keep(m[k]) ==> (k, m[k]) in r)
    && DistinctIds(r)
  }

  /** Inserts `e` into a list sorted by descending key, in front of the
      first entry whose key is not larger. */
  function InsertByKey<T(==,!new)>(r: seq<(Id, T)>, e: (Id, T), key: T -> int): (r': seq<(Id, T)>)
    ensures |r'| == |r| + 1
    ensures forall x :: x in r' <==> x in r || x == e
  {
    if r == [] || key(e.1) >= key(r[0].1) then
      [e] + r
    else
      var tail := InsertByKey(r[1..], e, key);
      assert forall x :: x in r ==> x == r[0] || x in r[1..];
      [r[0]] + tail
  }

  lemma {:induction false} InsertKeepsOrder<T(!new)>(r: seq<(Id, T)>, e: (Id, T), key: T -> int)
    requires Descending(r, key)
    ensures Descending(InsertByKey(r, e, key), key)
    decreases |r|
  {
    if r != [] && key(e.1) < key(r[0].1) {
      var tail := InsertByKey(r[1..], e, key);
      InsertKeepsOrder(r[1..], e, key);
      var r' := [r[0]] + tail;
      forall j | 0 < j < |r'| ensures key(r'[0].1) >= key(r'[j].1) {
        assert r'[j] == tail[j - 1];
        assert r'[j] in tail;
        assert r'[j] in r[1..] || r'[j] == e;
      }
    }
  }

  lemma {:induction false} InsertKeepsDistinct<T(!new)>(r: seq<(Id, T)>, e: (Id, T), key: T -> int)
    requires DistinctIds(r) && forall x :: x in r ==> x.0 != e.0
    ensures DistinctIds(InsertByKey(r, e, key))
    decreases |r|
  {
    if r == [] || key(e.1) >= key(r[0].1) {
      var r' := [e] + r;
      forall i, j | 0 <= i < j < |r'| ensures r'[i].0 != r'[j].0 {
        if i == 0 { assert r'[j] == r[j - 1]; assert r'[j] in r; }
      }
    } else {
      var tail := InsertByKey(r[1..], e, key);
      InsertKeepsDistinct(r[1..], e, key);
      var r' := [r[0]] + tail;
      forall j | 0 < j < |r'| ensures r'[0].0 != r'[j].0 {
        assert r'[j] == tail[j - 1];
        assert r'[j] in tail;
        if r'[j] in r[1..] {
          var k :| 0 <= k < |r[1..]| && r[1..][k] == r'[j];
          assert r[k + 1] == r'[j];
        }
      }
    }
  }

  /** The documents of `m` satisfying `keep`, largest key first. */
  method Select<T(==,!new)>(m: map<Id, T>, keep: T -> bool, key: T -> int) returns (r: seq<(Id, T)>)
    ensures ListsExactly(r, m, keep)
    ensures Descending(r, key)
  {
    r := [];
    var todo := m.Keys;
    while todo != {}
      invariant todo <= m.Keys
      invariant forall x :: x in r ==> x.0 in m.Keys - todo && m[x.0] == x.1 && keep(x.1)
      invariant forall k :: k in m.Keys - todo && keep(m[k]) ==> (k, m[k]) in r
      invariant DistinctIds(r)
      invariant Descending(r, key)
      decreases todo
    {
      var k :| k in todo;
      if keep(m[k]) {
        InsertKeepsOrder(r, (k, m[k]), key);
        InsertKeepsDistinct(r, (k, m[k]), key);
        r := InsertByKey(r, (k, m[k]), key);
      }
      todo := todo - {k};
    }
  }

  /** The largest `n` entries of a descending listing are its first `n`:
      nothing left out has a larger key than anything kept. */
  lemma TopIsLargest<T(!new)>(r: seq<(Id, T)>, m: map<Id, T>, keep: T -> bool, key: T -> int, n: nat)
    requires ListsExactly(r, m, keep) && Descending(r, key)
    ensures var top := r[..if n < |r| then n else |r|];
      forall k, i :: k in m && keep(m[k]) && (k, m[k]) !in top && 0 <= i < |top| ==> key(m[k]) <= key(top[i].1)
  {
    var top := r[..if n < |r| then n else |r|];
    forall k, i | k in m && keep(m[k]) && (k, m[k]) !in top && 0 <= i < |top|
      ensures key(m[k]) <= key(top[i].1)
    {
      var j :| 0 <= j < |r| && r[j] == (k, m[k]);
      assert top[i] == r[i];
    }
  }
  /** The identifiers listed in `r`. */
  function IdsOf<T>(r: seq<(Id, T)>): set<Id>
    decreases |r|
  {
    if r == [] then {} else {r[0].0} + IdsOf(r[1..])
  }

  lemma {:induction false} IdsOfMembers<T>(r: seq<(Id, T)>, k: Id)
    ensures k in IdsOf(r) <==> exists i :: 0 <= i < |r| && r[i].0 == k
    decreases |r|
  {
    if r != [] {
      IdsOfMembers(r[1..], k);
      if exists i :: 0 <= i < |r[1..]| && r[1..][i].0 == k {
        var i :| 0 <= i < |r[1..]| && r[1..][i].0 == k;
        assert r[i + 1].0 == k;
      }
      if exists i :: 0 <= i < |r| && r[i].0 == k {
        var i :| 0 <= i < |r| && r[i].0 == k;
        if i > 0 { assert r[1..][i - 1].0 == k; }
      }
    }
  }

  /** A listing without repeated identifiers has as many entries as it
      has identifiers. */
  lemma {:induction false} DistinctCount<T>(r: seq<(Id, T)>)
    requires DistinctIds(r)
    ensures |IdsOf(r)| == |r|
    decreases |r|
  {
    if r != [] {
      assert DistinctIds(r[1..]) by {
        forall i, j | 0 <= i < j < |r[1..]| ensures r[1..][i].0 != r[1..][j].0 {
          assert r[1..][i] == r[i + 1] && r[1..][j] == r[j + 1];
        }
      }
      DistinctCount(r[1..]);
      IdsOfMembers(r[1..], r[0].0);
    }
  }

  /** A listing of the matching documents has exactly as many entries as
      there are matching documents (what `countDocuments(filter)` counts). */
  lemma ListedCount<T(!new)>(r: seq<(Id, T)>, m: map<Id, T>, keep: T -> bool)
    requires ListsExactly(r, m, keep)
    ensures |r| == |set k | k in m && keep(m[k])|
  {
    var matching := set k | k in m && keep(m[k]);
    forall k ensures k in IdsOf(r) <==> k in matching {
      IdsOfMembers(r, k);
      if k in matching {
        assert (k, m[k]) in r;
      }
      if k in IdsOf(r) {
        var i :| 0 <= i < |r| && r[i].0 == k;
        assert r[i] in r;
      }
    }
    assert IdsOf(r) == matching;
    DistinctCount(r);
  }
  /** `find().sort({ key: -1 }).limit(n)`: the `n` largest documents
      (all of them when there are fewer), largest first. */
  method Latest<T(==,!new)>(m: map<Id, T>, key: T -> int, n: nat) returns (top: seq<(Id, T)>)
    ensures |top| == if n < |m| then n else |m|
    ensures forall x :: x in top ==> x.0 in m && m[x.0] == x.1
    ensures DistinctIds(top)
    ensures Descending(top, key)
    ensures forall k, i :: k in m && (k, m[k]) !in top && 0 <= i < |top| ==> key(m[k]) <= key(top[i].1)
  {
    var all := (x: T) => true;
    var r := Select(m, all, key);
    ListedCount(r, m, all);
    assert (set k | k in m && all(m[k])) == m.Keys;
    TopIsLargest(r, m, all, key, n);
    top := r[..if n < |r| then n else |r|];
    assert forall x :: x in top ==> x in r;
  }
}
