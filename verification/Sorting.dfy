/** The library sort the monitor calls on alert records, thresholds and migration names. */
module Sorting {
  ghost predicate TotalPreorder<T(!new)>(lessOrEqual: (T, T) -> bool) {
    && (forall a, b :: lessOrEqual(a, b) || lessOrEqual(b, a))
    && (forall a, b, c :: lessOrEqual(a, b) && lessOrEqual(b, c) ==> lessOrEqual(a, c))
  }

  ghost predicate SortedBy<T(!new)>(s: seq<T>, lessOrEqual: (T, T) -> bool) {
    forall i, j | 0 <= i < j < |s| :: lessOrEqual(s[i], s[j])
  }

  function Insert<T>(r: seq<T>, k: nat, x: T): seq<T>
    requires k <= |r|
  {
    r[..k] + [x] + r[k..]
  }

  lemma InsertKeepsOrder<T(!new)>(r: seq<T>, k: nat, x: T, lessOrEqual: (T, T) -> bool)
    requires TotalPreorder(lessOrEqual) && SortedBy(r, lessOrEqual) && k <= |r|
    requires k > 0 ==> lessOrEqual(r[k - 1], x)
    requires k < |r| ==> lessOrEqual(x, r[k])
    ensures SortedBy(Insert(r, k, x), lessOrEqual)
  {
  }

  lemma InsertAdds<T(!new)>(r: seq<T>, k: nat, x: T)
    requires k <= |r|
    ensures multiset(Insert(r, k, x)) == multiset(r) + multiset{x}
  {
    assert r == r[..k] + r[k..];
  }

  /** Some sorted permutation; like sort.Slice it promises nothing about equal elements. */
  method Sort<T(!new, ==)>(s: seq<T>, lessOrEqual: (T, T) -> bool) returns (r: seq<T>)
    requires TotalPreorder(lessOrEqual)
    ensures multiset(r) == multiset(s)
    ensures SortedBy(r, lessOrEqual)
  {
    r := [];
    for i := 0 to |s|
      invariant multiset(r) == multiset(s[..i])
      invariant SortedBy(r, lessOrEqual)
    {
      var k := |r|;
      while k > 0 && !lessOrEqual(r[k - 1], s[i])
        invariant 0 <= k <= |r|
        invariant k < |r| ==> lessOrEqual(s[i], r[k])
      {
        k := k - 1;
      }
      assert s[..i + 1] == s[..i] + [s[i]];
      InsertKeepsOrder(r, k, s[i], lessOrEqual);
      InsertAdds(r, k, s[i]);
      r := Insert(r, k, s[i]);
    }
    assert s[..|s|] == s;
  }
}
