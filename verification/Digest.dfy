/** The bytes that are hashed to detect a changed ConfigMap or Secret. */
module Digest {

  import opened Options
  import opened Sorting
  import opened Strings

  /** Bytes are modelled as characters. */
  type Bytes = string

  const NAME: Bytes := "name"
  const DIGEST: Bytes := "digest"

  /* ---- fields, each closed by a zero byte ---- */

  predicate NulFree(s: Bytes) {
    '\0' !in s
  }

  predicate AllNulFree(fields: seq<Bytes>) {
    forall i :: 0 <= i < |fields| ==> NulFree(fields[i])
  }

  function Flatten(fields: seq<Bytes>): Bytes {
    Ended(fields, '\0')
  }

  lemma FlattenConcat(a: seq<Bytes>, b: seq<Bytes>)
    ensures Flatten(a + b) == Flatten(a) + Flatten(b)
  {
    EndedConcat(a, b, '\0');
  }

  /** Fields without zero bytes can be read back. */
  lemma FlattenInjective(a: seq<Bytes>, b: seq<Bytes>)
    requires AllNulFree(a) && AllNulFree(b) && Flatten(a) == Flatten(b)
    ensures a == b
  {
    SplitEnded(a, '\0');
    SplitEnded(b, '\0');
    assert (a + [""])[..|a|] == a && (b + [""])[..|b|] == b;
  }

  lemma FlattenTwo(x: Bytes, y: Bytes)
    ensures Flatten([x, y]) == x + ['\0'] + y + ['\0']
  {
    EndedAppend([], x, '\0');
    EndedAppend([x], y, '\0');
    assert [x] == [] + [x] && [x, y] == [x] + [y];
    assert "" + x + ['\0'] == x + ['\0'];
  }

  class Buffer {
    var h: Bytes

    constructor ()
      ensures h == []
    {
      h := [];
    }

    method AddString(k: Bytes, v: Bytes)
      modifies this
      ensures h == old(h) + Flatten([k, v])
    {
      h := h + k;
      h := h + ['\0'];
      h := h + v;
      h := h + ['\0'];
      FlattenTwo(k, v);
      assert h == old(h) + (k + ['\0'] + v + ['\0']);
    }
  }

  /* ---- one ConfigMap or Secret ---- */

  function Fields(keys: seq<Bytes>, data: map<Bytes, Bytes>): (r: seq<Bytes>)
    requires forall i :: 0 <= i < |keys| ==> keys[i] in data
    ensures |r| == 2 * |keys|
  {
    if keys == [] then [] else Fields(keys[..|keys| - 1], data) + [keys[|keys| - 1], data[keys[|keys| - 1]]]
  }

  lemma SortedKeysAreKeys(data: map<Bytes, Bytes>)
    ensures forall i :: 0 <= i < |Sorted(data.Keys)| ==> Sorted(data.Keys)[i] in data
  {
    var ks := Sorted(data.Keys);
    forall i | 0 <= i < |ks| ensures ks[i] in data {
      assert ks[i] in Elements(ks);
    }
  }

  /** What is hashed for a data map; nothing is hashed for an empty one. */
  ghost function DataInput(data: map<Bytes, Bytes>): Option<Bytes> {
    SortedKeysAreKeys(data);
    if data == map[] then None else Some(Flatten(Fields(Sorted(data.Keys), data)))
  }

  /** The keys are taken in any order, then sorted; the bytes come out the same. */
  method DataDigest(data: map<Bytes, Bytes>) returns (input: Option<Bytes>)
    ensures input == DataInput(data)
  {
    if |data| == 0 {
      return None;
    }
    var keys := CollectKeys(data);
    keys := SortStrings(keys);
    AscendingIsUnique(keys, Sorted(data.Keys));
    SortedKeysAreKeys(data);
    var h := EncodeKeys(keys, data);
    input := Some(h);
  }

  method EncodeKeys(keys: seq<Bytes>, data: map<Bytes, Bytes>) returns (h: Bytes)
    requires forall i :: 0 <= i < |keys| ==> keys[i] in data
    ensures h == Flatten(Fields(keys, data))
  {
    var d := new Buffer();
    for i := 0 to |keys|
      invariant d.h == Flatten(Fields(keys[..i], data))
    {
      d.AddString(keys[i], data[keys[i]]);
      FlattenConcat(Fields(keys[..i], data), [keys[i], data[keys[i]]]);
      assert keys[..i + 1][..i] == keys[..i];
    }
    assert keys[..|keys|] == keys;
    h := d.h;
  }

  predicate NulFreeData(data: map<Bytes, Bytes>) {
    forall k :: k in data ==> NulFree(k) && NulFree(data[k])
  }

  /** Without zero bytes, two data maps are hashed alike exactly when they are equal. */
  lemma EqualInputsEqualData(a: map<Bytes, Bytes>, b: map<Bytes, Bytes>)
    requires NulFreeData(a) && NulFreeData(b)
    ensures DataInput(a) == DataInput(b) <==> a == b
  {
    if DataInput(a) == DataInput(b) && a != map[] && b != map[] {
      SortedKeysAreKeys(a);
      SortedKeysAreKeys(b);
      var ka, kb := Sorted(a.Keys), Sorted(b.Keys);
      FieldsNulFree(ka, a);
      FieldsNulFree(kb, b);
      FlattenInjective(Fields(ka, a), Fields(kb, b));
      FieldsDetermine(ka, a, kb, b);
      assert a.Keys == b.Keys;
      forall k | k in a ensures a[k] == b[k] {
        assert k in Elements(ka);
        var i :| 0 <= i < |ka| && ka[i] == k;
      }
      assert a == b;
    }
  }

  lemma {:induction false} FieldsNulFree(keys: seq<Bytes>, data: map<Bytes, Bytes>)
    requires NulFreeData(data) && forall i :: 0 <= i < |keys| ==> keys[i] in data
    ensures AllNulFree(Fields(keys, data))
  {
    if keys != [] {
      FieldsNulFree(keys[..|keys| - 1], data);
    }
  }

  lemma {:induction false} FieldsDetermine(ka: seq<Bytes>, a: map<Bytes, Bytes>, kb: seq<Bytes>, b: map<Bytes, Bytes>)
    requires forall i :: 0 <= i < |ka| ==> ka[i] in a
    requires forall i :: 0 <= i < |kb| ==> kb[i] in b
    requires Fields(ka, a) == Fields(kb, b)
    ensures ka == kb && forall i :: 0 <= i < |ka| ==> a[ka[i]] == b[ka[i]]
  {
    var n, fa, fb := |ka|, Fields(ka, a), Fields(kb, b);
    assert n == |kb|;
    if n != 0 {
      var k, l := ka[n - 1], kb[n - 1];
      assert fa[2 * n - 2] == k && fb[2 * n - 2] == l;
      assert fa[2 * n - 1] == a[k] && fb[2 * n - 1] == b[l];
      assert fa[..2 * n - 2] == Fields(ka[..n - 1], a) && fb[..2 * n - 2] == Fields(kb[..n - 1], b);
      FieldsDetermine(ka[..n - 1], a, kb[..n - 1], b);
      assert ka == ka[..n - 1] + [k] && kb == kb[..n - 1] + [l];
      assert forall i :: 0 <= i < n - 1 ==> ka[..n - 1][i] == ka[i];
    }
  }

  lemma {:induction false} ListFieldsDetermine(pa: seq<(Bytes, Bytes)>, pb: seq<(Bytes, Bytes)>)
    requires ListFields(pa) == ListFields(pb)
    ensures pa == pb
  {
    var n, fa, fb := |pa|, ListFields(pa), ListFields(pb);
    assert n == |pb|;
    if n != 0 {
      var p, q := pa[n - 1], pb[n - 1];
      assert fa[4 * n - 3] == p.0 && fb[4 * n - 3] == q.0;
      assert fa[4 * n - 1] == p.1 && fb[4 * n - 1] == q.1;
      assert fa[..4 * n - 4] == ListFields(pa[..n - 1]) && fb[..4 * n - 4] == ListFields(pb[..n - 1]);
      ListFieldsDetermine(pa[..n - 1], pb[..n - 1]);
      assert pa == pa[..n - 1] + [p] && pb == pb[..n - 1] + [q];
    }
  }

  /** With zero bytes inside a value the input no longer tells a map of two keys from a map of one. */
  lemma ZeroBytesCollide(k: Bytes, v: Bytes, l: Bytes, w: Bytes)
    requires Below(k, l)
    ensures var two: map<Bytes, Bytes> := map[k := v, l := w];
            var one: map<Bytes, Bytes> := map[k := v + ['\0'] + l + ['\0'] + w];
            two != one && DataInput(two) == DataInput(one)
  {
    var two: map<Bytes, Bytes> := map[k := v, l := w];
    var one: map<Bytes, Bytes> := map[k := v + ['\0'] + l + ['\0'] + w];
    BelowIsTotal(k, l);
    assert l in two && l !in one;
    OneKeyInput(k, v + ['\0'] + l + ['\0'] + w);
    TwoKeyInput(k, v, l, w);
    Regroup(v + ['\0'], l, ['\0'], w);
    Regroup(v + ['\0'], l + ['\0'], w, []);
    Regroup(k + ['\0'], v, ['\0'], []);
    Regroup(k + ['\0'], v + ['\0'], l + ['\0'] + w, ['\0']);
  }

  lemma Regroup(a: Bytes, b: Bytes, c: Bytes, d: Bytes)
    ensures a + b + c == a + (b + c)
    ensures a + (b + c) + d == a + b + (c + d)
  {
  }

  lemma OneKeyInput(k: Bytes, v: Bytes)
    ensures DataInput(map[k := v]) == Some(k + ['\0'] + v + ['\0'])
  {
    var data := map[k := v];
    ElementsOfAppended([], k);
    assert [k] == [] + [k];
    assert data.Keys == {k};
    AscendingIsUnique([k], Sorted(data.Keys));
    assert [k][..0] == [];
    assert Fields([k], data) == [k, v];
    FlattenTwo(k, v);
  }

  lemma TwoKeyInput(k: Bytes, v: Bytes, l: Bytes, w: Bytes)
    requires Below(k, l) && k != l
    ensures DataInput(map[k := v, l := w]) == Some(k + ['\0'] + v + ['\0'] + (l + ['\0'] + w + ['\0']))
  {
    var data := map[k := v, l := w];
    TwoKeysSorted(k, l);
    assert data.Keys == {k, l};
    assert [k, l][..1] == [k] && [k][..0] == [];
    assert Fields([k, l], data) == [k, v] + [l, w];
    FlattenConcat([k, v], [l, w]);
    FlattenTwo(k, v);
    FlattenTwo(l, w);
  }

  lemma TwoKeysSorted(k: Bytes, l: Bytes)
    requires Below(k, l)
    ensures Sorted({k, l}) == [k, l]
  {
    ElementsOfAppended([], k);
    ElementsOfAppended([k], l);
    assert [k] == [] + [k] && [k, l] == [k] + [l];
    AscendingIsUnique([k, l], Sorted({k, l}));
  }

  /* ---- a list of ConfigMaps ---- */

  datatype ConfigMap = ConfigMap(name: Bytes, data: map<Bytes, Bytes>)

  /** `sum` stands for the hash and its truncation. */
  ghost function DigestOf(data: map<Bytes, Bytes>, sum: Bytes -> Bytes): Bytes {
    match DataInput(data)
    case None => []
    case Some(bytes) => sum(bytes)
  }

  ghost function NamedDigest(cm: Option<ConfigMap>, sum: Bytes -> Bytes): seq<(Bytes, Bytes)> {
    if cm.None? then [] else [(cm.value.name, DigestOf(cm.value.data, sum))]
  }

  /** The name and digest of every ConfigMap that is there. */
  ghost function NamedDigests(cms: seq<Option<ConfigMap>>, sum: Bytes -> Bytes): seq<(Bytes, Bytes)> {
    if cms == [] then [] else NamedDigests(cms[..|cms| - 1], sum) + NamedDigest(cms[|cms| - 1], sum)
  }

  function ListFields(ps: seq<(Bytes, Bytes)>): (r: seq<Bytes>)
    ensures |r| == 4 * |ps|
  {
    if ps == [] then [] else ListFields(ps[..|ps| - 1]) + [NAME, ps[|ps| - 1].0, DIGEST, ps[|ps| - 1].1]
  }

  ghost function ListInput(cms: seq<Option<ConfigMap>>, sum: Bytes -> Bytes): Option<Bytes> {
    if cms == [] then None else Some(Flatten(ListFields(NamedDigests(cms, sum))))
  }

  method ListDigest(cms: seq<Option<ConfigMap>>, sum: Bytes -> Bytes) returns (input: Option<Bytes>)
    ensures input == ListInput(cms, sum)
  {
    if |cms| == 0 {
      return None;
    }
    var d := new Buffer();
    for i := 0 to |cms|
      invariant d.h == Flatten(ListFields(NamedDigests(cms[..i], sum)))
    {
      AddConfigMap(d, cms[i], sum, NamedDigests(cms[..i], sum));
      assert cms[..i + 1][..i] == cms[..i];
    }
    assert cms[..|cms|] == cms;
    input := Some(d.h);
  }

  method AddConfigMap(d: Buffer, cm: Option<ConfigMap>, sum: Bytes -> Bytes, ghost before: seq<(Bytes, Bytes)>)
    requires d.h == Flatten(ListFields(before))
    modifies d
    ensures d.h == Flatten(ListFields(before + NamedDigest(cm, sum)))
  {
    if cm.None? {
      assert before + [] == before;
      return;
    }
    var bytes := DataDigest(cm.value.data);
    var digest := if bytes.Some? then sum(bytes.value) else [];
    d.AddString(NAME, cm.value.name);
    d.AddString(DIGEST, digest);
    ListFieldsStep(before, (cm.value.name, digest));
  }

  lemma ListFieldsStep(ps: seq<(Bytes, Bytes)>, p: (Bytes, Bytes))
    ensures Flatten(ListFields(ps + [p])) == Flatten(ListFields(ps)) + Flatten([NAME, p.0]) + Flatten([DIGEST, p.1])
  {
    assert (ps + [p])[..|ps|] == ps;
    FlattenConcat(ListFields(ps), [NAME, p.0, DIGEST, p.1]);
    assert [NAME, p.0, DIGEST, p.1] == [NAME, p.0] + [DIGEST, p.1];
    FlattenConcat([NAME, p.0], [DIGEST, p.1]);
  }

  predicate NulFreePairs(ps: seq<(Bytes, Bytes)>) {
    forall i :: 0 <= i < |ps| ==> NulFree(ps[i].0) && NulFree(ps[i].1)
  }

  /** Two lists are hashed alike exactly when both are empty or they give the same names and digests, in order. */
  lemma EqualListInputs(a: seq<Option<ConfigMap>>, b: seq<Option<ConfigMap>>, sum: Bytes -> Bytes)
    requires NulFreePairs(NamedDigests(a, sum)) && NulFreePairs(NamedDigests(b, sum))
    ensures ListInput(a, sum) == ListInput(b, sum)
       <==> (a == [] <==> b == []) && NamedDigests(a, sum) == NamedDigests(b, sum)
  {
    var pa, pb := NamedDigests(a, sum), NamedDigests(b, sum);
    if ListInput(a, sum) == ListInput(b, sum) && a != [] {
      ListFieldsNulFree(pa);
      ListFieldsNulFree(pb);
      FlattenInjective(ListFields(pa), ListFields(pb));
      ListFieldsDetermine(pa, pb);
    }
  }

  lemma {:induction false} ListFieldsNulFree(ps: seq<(Bytes, Bytes)>)
    requires NulFreePairs(ps)
    ensures AllNulFree(ListFields(ps))
  {
    if ps != [] {
      ListFieldsNulFree(ps[..|ps| - 1]);
    }
  }

  /** A list of absent ConfigMaps is hashed, as the empty text; only an empty list is not. */
  lemma AbsentConfigMapsAreHashed(cms: seq<Option<ConfigMap>>, sum: Bytes -> Bytes)
    requires forall i :: 0 <= i < |cms| ==> cms[i].None?
    ensures ListInput(cms, sum) == if cms == [] then None else Some([])
  {
    NothingNamed(cms, sum);
  }

  lemma {:induction false} NothingNamed(cms: seq<Option<ConfigMap>>, sum: Bytes -> Bytes)
    requires forall i :: 0 <= i < |cms| ==> cms[i].None?
    ensures NamedDigests(cms, sum) == []
  {
    if cms != [] {
      NothingNamed(cms[..|cms| - 1], sum);
    }
  }
}
