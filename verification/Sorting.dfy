/** Strings in the order in which their bytes compare, which is the order of their code points. */
module Sorting {

  predicate Below(a: string, b: string) {
    b != [] && (a == [] || a[0] < b[0] || (a[0] == b[0] && Below(a[1..], b[1..])))
  }

  lemma {:induction false} BelowIsTotal(a: string, b: string)
    ensures Below(a, b) || a == b || Below(b, a)
    ensures !(Below(a, b) && Below(b, a))
  {
    if a != [] && b != [] && a[0] == b[0] {
      BelowIsTotal(a[1..], b[1..]);
      assert a == [a[0]] + a[1..] && b == [b[0]] + b[1..];
    }
  }

  lemma {:induction false} BelowTransitive(a: string, b: string, c: string)
    requires Below(a, b) && Below(b, c)
    ensures Below(a, c)
  {
    if a != [] && a[0] == b[0] == c[0] {
      BelowTransitive(a[1..], b[1..], c[1..]);
    }
  }

  predicate Ascending(ks: seq<string>) {
    forall i, j :: 0 <= i < j < |ks| ==> Below(ks[i], ks[j])
  }

  function Elements(ks: seq<string>): set<string> {
    set i | 0 <= i < |ks| :: ks[i]
  }

  /** An ascending sequence is determined by its elements. */
  lemma {:induction false} AscendingIsUnique(a: seq<string>, b: seq<string>)
    requires Ascending(a) && Ascending(b) && Elements(a) == Elements(b)
    ensures a == b
  {
    EmptyElements(a);
    EmptyElements(b);
    if a != [] {
      assert a[0] in Elements(b);
      assert b[0] in Elements(a);
      var i :| 0 <= i < |b| && b[i] == a[0];
      var j :| 0 <= j < |a| && a[j] == b[0];
      BelowIsTotal(a[0], b[0]);
      assert a[0] == b[0];
      TailElements(a);
      TailElements(b);
      AscendingIsUnique(a[1..], b[1..]);
    }
  }

  lemma EmptyElements(a: seq<string>)
    ensures Elements(a) == {} <==> a == []
  {
    if a != [] { assert a[0] in Elements(a); }
  }

  lemma TailElements(a: seq<string>)
    requires a != [] && Ascending(a)
    ensures Ascending(a[1..]) && Elements(a[1..]) == Elements(a) - {a[0]}
  {
    forall k ensures k in Elements(a[1..]) <==> k in Elements(a) - {a[0]} {
      if k in Elements(a[1..]) {
        var i :| 0 <= i < |a| - 1 && a[1..][i] == k;
        assert a[i + 1] == k;
        BelowIsTotal(a[0], k);
      }
      if k in Elements(a) - {a[0]} {
        var i :| 0 <= i < |a| && a[i] == k;
        assert a[1..][i - 1] == k;
      }
    }
  }

  function Insert(k: string, ks: seq<string>): (r: seq<string>)
    requires Ascending(ks) && k !in Elements(ks)
    ensures Ascending(r) && Elements(r) == Elements(ks) + {k}
  {
    if ks == [] || Below(k, ks[0]) then
      BelowAll(k, ks);
      ElementsOfPrepended(k, ks);
      [k] + ks
    else
      TailElements(ks);
      BelowIsTotal(k, ks[0]);
      assert ks[0] in Elements(ks);
      var rest := Insert(k, ks[1..]);
      PrependSmallest(ks, k, rest);
      [ks[0]] + rest
  }

  lemma BelowAll(k: string, ks: seq<string>)
    requires Ascending(ks) && (ks == [] || Below(k, ks[0]))
    ensures Ascending([k] + ks)
  {
    forall j | 0 <= j < |ks| ensures Below(k, ks[j]) {
      if j > 0 { BelowTransitive(k, ks[0], ks[j]); }
    }
  }

  lemma ElementsOfPrepended(k: string, ks: seq<string>)
    ensures Elements([k] + ks) == Elements(ks) + {k}
  {
    var r := [k] + ks;
    forall x ensures x in Elements(r) <==> x in Elements(ks) + {k} {
      if x in Elements(ks) {
        var i :| 0 <= i < |ks| && ks[i] == x;
        assert r[i + 1] == x;
      }
      assert r[0] == k;
    }
  }

  lemma PrependSmallest(ks: seq<string>, k: string, rest: seq<string>)
    requires Ascending(ks) && ks != [] && Below(ks[0], k)
    requires Ascending(rest) && Elements(rest) == Elements(ks[1..]) + {k}
    ensures Ascending([ks[0]] + rest) && Elements([ks[0]] + rest) == Elements(ks) + {k}
  {
    forall j | 0 <= j < |rest| ensures Below(ks[0], rest[j]) {
      assert rest[j] in Elements(rest);
      if rest[j] != k {
        var i :| 0 <= i < |ks| - 1 && ks[1..][i] == rest[j];
        assert ks[i + 1] == rest[j];
      }
    }
    ElementsOfPrepended(ks[0], rest);
    ElementsOfPrepended(ks[0], ks[1..]);
    assert [ks[0]] + ks[1..] == ks;
  }

  /** The keys in byte order, whatever order they are taken in. */
  ghost function Sorted(keys: set<string>): (r: seq<string>)
    ensures Ascending(r) && Elements(r) == keys
  {
    if keys == {} then []
    else
      var k :| k in keys;
      Insert(k, Sorted(keys - {k}))
  }

  predicate Distinct(ks: seq<string>) {
    forall i, j :: 0 <= i < j < |ks| ==> ks[i] != ks[j]
  }

  method CollectKeys<V>(data: map<string, V>) returns (keys: seq<string>)
    ensures Distinct(keys) && Elements(keys) == data.Keys
  {
    keys := [];
    var left := data.Keys;
    while left != {}
      invariant left <= data.Keys && Distinct(keys) && Elements(keys) == data.Keys - left
      decreases |left|
    {
      var k :| k in left;
      forall i | 0 <= i < |keys| ensures keys[i] != k {
        assert keys[i] in Elements(keys);
      }
      ElementsOfAppended(keys, k);
      keys, left := keys + [k], left - {k};
    }
  }

  lemma ElementsOfAppended(ks: seq<string>, k: string)
    ensures Elements(ks + [k]) == Elements(ks) + {k}
  {
    var r := ks + [k];
    forall x ensures x in Elements(r) <==> x in Elements(ks) + {k} {
      if x in Elements(ks) {
        var i :| 0 <= i < |ks| && ks[i] == x;
        assert r[i] == x;
      }
      assert r[|ks|] == k;
    }
  }

  method SortStrings(keys: seq<string>) returns (sorted: seq<string>)
    requires Distinct(keys)
    ensures Ascending(sorted) && Elements(sorted) == Elements(keys)
  {
    sorted := [];
    for i := 0 to |keys|
      invariant Ascending(sorted) && Elements(sorted) == Elements(keys[..i])
    {
      ElementsOfAppended(keys[..i], keys[i]);
      assert keys[..i + 1] == keys[..i] + [keys[i]];
      sorted := Insert(keys[i], sorted);
    }
    assert keys[..|keys|] == keys;
  }
}
