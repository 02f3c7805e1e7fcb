/** Walking a list of per-request results, as the `forEach` and `filter` calls of the
    gift-card sender and the redeem form do. */
module ResultLists {

  /** `s.filter(p)`: the elements satisfying `p`, in their original order. */
  function Filter<T>(s: seq<T>, p: T -> bool): (r: seq<T>)
    ensures |r| <= |s|
    ensures forall k :: 0 <= k < |r| ==> p(r[k])
    ensures forall k :: 0 <= k < |s| && p(s[k]) ==> s[k] in r
    ensures forall k :: 0 <= k < |r| ==> r[k] in s
  {
    if s == [] then []
    else
      var rest := Filter(s[1..], p);
      assert forall k :: 1 <= k < |s| ==> s[k] == s[1..][k - 1];
      if p(s[0]) then [s[0]] + rest else rest
  }

  /** Filtering works element by element: the result for `a + b` is that for `a` followed by
      that for `b`, which is why the kept elements stay in their original order. */
  lemma {:induction false} FilterAppend<T>(a: seq<T>, b: seq<T>, p: T -> bool)
    ensures Filter(a + b, p) == Filter(a, p) + Filter(b, p)
  {
    if a == [] {
      assert a + b == b;
    } else {
      assert (a + b)[1..] == a[1..] + b;
      FilterAppend(a[1..], b, p);
    }
  }

  /** How often `x` survives the filter: as often as it occurs, when it satisfies `p`. */
  lemma {:induction false} FilterMultiplicity<T>(s: seq<T>, p: T -> bool, x: T)
    ensures multiset(Filter(s, p))[x] == if p(x) then multiset(s)[x] else 0
  {
    if s != [] {
      FilterMultiplicity(s[1..], p, x);
      assert s == [s[0]] + s[1..];
    }
  }

  /** Reordering a list does not change how many of its elements satisfy `p`: counting the
      successes after sorting counts the successes of the reply. */
  lemma FilterCountOfPermutation<T>(a: seq<T>, b: seq<T>, p: T -> bool)
    requires multiset(a) == multiset(b)
    ensures |Filter(a, p)| == |Filter(b, p)|
  {
    forall x
      ensures multiset(Filter(a, p))[x] == multiset(Filter(b, p))[x]
    {
      FilterMultiplicity(a, p, x);
      FilterMultiplicity(b, p, x);
    }
    assert multiset(Filter(a, p)) == multiset(Filter(b, p));
  }

  /** Whether some element satisfies `p`. */
  predicate Any<T>(s: seq<T>, p: T -> bool)
  {
    exists k :: 0 <= k < |s| && p(s[k])
  }

  /** Looking at one more element: `forEach` updates a flag exactly this way. */
  lemma AnySnoc<T>(a: seq<T>, x: T, p: T -> bool)
    ensures Any(a + [x], p) <==> Any(a, p) || p(x)
  {
    if Any(a, p) {
      var k :| 0 <= k < |a| && p(a[k]);
      assert (a + [x])[k] == a[k];
    }
    if p(x) {
      assert (a + [x])[|a|] == x;
    }
    if Any(a + [x], p) {
      var k :| 0 <= k < |a + [x]| && p((a + [x])[k]);
      if k < |a| {
        assert (a + [x])[k] == a[k];
      }
    }
  }
}
