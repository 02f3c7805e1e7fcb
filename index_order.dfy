/** `results.sort((a, b) => (a.index || 0) - (b.index || 0))` in the gift-card sender and the
    redeem form. `Array.prototype.sort` is stable, and a stable sort by a key has exactly one
    possible output, so a stable insertion sort describes it completely. */
module IndexOrder {
  import ResultLists

  predicate SortedBy<T>(s: seq<T>, key: T -> int)
  {
    forall i, j :: 0 <= i < j < |s| ==> key(s[i]) <= key(s[j])
  }

  /** Inserts `x` before the first element whose key is not smaller; `x` stays ahead of
      elements with the same key, which keeps the sort stable. */
  function Insert<T>(x: T, s: seq<T>, key: T -> int): (r: seq<T>)
    requires SortedBy(s, key)
    ensures SortedBy(r, key)
    ensures multiset(r) == multiset(s) + multiset{x}
    ensures |r| == |s| + 1
  {
    if s == [] then [x]
    else if key(x) <= key(s[0]) then [x] + s
    else
      var tail := Insert(x, s[1..], key);
      assert s == [s[0]] + s[1..];
      LowerBoundKept(s[0], x, s[1..], tail, key);
      [s[0]] + tail
  }

  /** A key below every key of `s` and below `key(x)` is below every key of a permutation of `s` plus `x`. */
  lemma LowerBoundKept<T>(h: T, x: T, s: seq<T>, t: seq<T>, key: T -> int)
    requires key(h) <= key(x)
    requires forall i :: 0 <= i < |s| ==> key(h) <= key(s[i])
    requires multiset(t) == multiset(s) + multiset{x}
    ensures forall j :: 0 <= j < |t| ==> key(h) <= key(t[j])
  {
    forall j | 0 <= j < |t|
      ensures key(h) <= key(t[j])
    {
      assert t[j] in multiset(t);
      if t[j] != x {
        assert t[j] in multiset(s);
        var i :| 0 <= i < |s| && s[i] == t[j];
      }
    }
  }

  /** The sorted permutation of `s`. */
  function SortByIndex<T>(s: seq<T>, key: T -> int): (r: seq<T>)
    ensures SortedBy(r, key)
    ensures multiset(r) == multiset(s)
    ensures |r| == |s|
  {
    if s == [] then []
    else
      assert s == [s[0]] + s[1..];
      Insert(s[0], SortByIndex(s[1..], key), key)
  }

  /** Input that is already in index order, as the server's replies are, is left as it is. */
  lemma {:induction false} SortSortedIsIdentity<T>(s: seq<T>, key: T -> int)
    requires SortedBy(s, key)
    ensures SortByIndex(s, key) == s
  {
    if s != [] {
      SortSortedIsIdentity(s[1..], key);
      assert SortByIndex(s[1..], key) == s[1..];
      assert [s[0]] + s[1..] == s;
    }
  }

  /** Putting an element no larger than every element of a sorted list in front of it keeps
      the list sorted. */
  lemma SortedCons<T>(x: T, t: seq<T>, key: T -> int)
    requires SortedBy(t, key)
    requires forall j :: 0 <= j < |t| ==> key(x) <= key(t[j])
    ensures SortedBy([x] + t, key)
  {
    forall i, j | 0 <= i < j < |[x] + t|
      ensures key(([x] + t)[i]) <= key(([x] + t)[j])
    {
      assert ([x] + t)[j] == t[j - 1];
      if i > 0 {
        assert ([x] + t)[i] == t[i - 1];
      }
    }
  }

  /** Keeping only some results of a list in index order leaves them in index order. */
  lemma {:induction false} FilterKeepsOrder<T>(s: seq<T>, key: T -> int, p: T -> bool)
    requires SortedBy(s, key)
    ensures SortedBy(ResultLists.Filter(s, p), key)
  {
    if s != [] {
      assert SortedBy(s[1..], key);
      FilterKeepsOrder(s[1..], key, p);
      var rest := ResultLists.Filter(s[1..], p);
      if p(s[0]) {
        forall j | 0 <= j < |rest|
          ensures key(s[0]) <= key(rest[j])
        {
          var i :| 0 <= i < |s[1..]| && s[1..][i] == rest[j];
          assert s[1..][i] == s[i + 1];
        }
        SortedCons(s[0], rest, key);
      }
    }
  }

  /** Reordering a list does not change whether some element satisfies `p`. */
  lemma AnyOfPermutation<T>(a: seq<T>, b: seq<T>, p: T -> bool)
    requires multiset(a) == multiset(b)
    ensures ResultLists.Any(a, p) <==> ResultLists.Any(b, p)
  {
    if ResultLists.Any(a, p) {
      var k :| 0 <= k < |a| && p(a[k]);
      assert a[k] in multiset(b);
      var j :| 0 <= j < |b| && b[j] == a[k];
    }
    if ResultLists.Any(b, p) {
      var k :| 0 <= k < |b| && p(b[k]);
      assert b[k] in multiset(a);
      var j :| 0 <= j < |a| && a[j] == b[k];
    }
  }
}
