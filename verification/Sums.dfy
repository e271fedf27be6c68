/** Sums over sequences, independent of order. */
module Sums {

  function SumBy<T>(s: seq<T>, f: T -> int): int {
    if s == [] then 0 else SumBy(s[..|s| - 1], f) + f(s[|s| - 1])
  }

  function Without<T>(s: seq<T>, k: nat): (r: seq<T>)
    requires k < |s|
    ensures multiset(s) == multiset(r) + multiset{s[k]}
  {
    assert s == s[..k] + [s[k]] + s[k + 1..];
    s[..k] + s[k + 1..]
  }

  lemma {:induction false} SumWithout<T>(s: seq<T>, k: nat, f: T -> int)
    requires k < |s|
    ensures SumBy(s, f) == SumBy(Without(s, k), f) + f(s[k])
  {
    var rest, init := Without(s, k), s[..|s| - 1];
    if k == |s| - 1 {
      assert rest == init;
    } else {
      SumWithout(init, k, f);
      assert rest[..|rest| - 1] == Without(init, k);
      assert rest[|rest| - 1] == s[|s| - 1];
    }
  }

  /** Two sequences with the same elements, in any order, have the same sum. */
  lemma {:induction false} SumOrderFree<T>(a: seq<T>, b: seq<T>, f: T -> int)
    requires multiset(a) == multiset(b)
    ensures SumBy(a, f) == SumBy(b, f)
    decreases |a|
  {
    if a == [] {
      assert |multiset(b)| == 0;
    } else {
      var x := a[|a| - 1];
      assert a == a[..|a| - 1] + [x];
      assert x in multiset(b);
      var k :| 0 <= k < |b| && b[k] == x;
      assert multiset(a[..|a| - 1]) == multiset(a) - multiset{x} == multiset(Without(b, k));
      SumWithout(b, k, f);
      SumOrderFree(a[..|a| - 1], Without(b, k), f);
    }
  }

  /** One element more, wherever it stands, adds exactly its own value. */
  lemma SumOneMore<T>(a: seq<T>, b: seq<T>, x: T, f: T -> int)
    requires multiset(a) == multiset(b) + multiset{x}
    ensures SumBy(a, f) == SumBy(b, f) + f(x)
  {
    assert x in multiset(a);
    var k :| 0 <= k < |a| && a[k] == x;
    assert multiset(Without(a, k)) == multiset(a) - multiset{x} == multiset(b);
    SumWithout(a, k, f);
    SumOrderFree(Without(a, k), b, f);
  }
}
