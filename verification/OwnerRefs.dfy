/** Releasing a node pool: taking the runtime's own entries out of a resource's owner references. */
module OwnerRefs {

  datatype OwnerRef = OwnerRef(apiVersion: string, kind: string, name: string, uid: string)

  datatype Owner = Owner(name: string, uid: string)

  const GROUP_VERSION: string := "analytics.xtrinode.io/v1"

  /** A reference to the runtime; an empty UID on either side matches any. */
  predicate Matches(r: OwnerRef, o: Owner) {
    && r.apiVersion == GROUP_VERSION && r.kind == "XTrinode" && r.name == o.name
    && (o.uid == "" || r.uid == "" || r.uid == o.uid)
  }

  /** The reference the operator puts on a pool of its runtime. */
  function ReferenceOf(o: Owner): OwnerRef {
    OwnerRef(GROUP_VERSION, "XTrinode", o.name, o.uid)
  }

  /** A runtime's own reference matches it, and matches another only under the same name without a different UID. */
  lemma OwnReferenceMatches(a: Owner, b: Owner)
    ensures Matches(ReferenceOf(a), a)
    ensures Matches(ReferenceOf(a), b) <==> a.name == b.name && (a.uid == b.uid || a.uid == "" || b.uid == "")
  {
  }

  predicate HasMatch(refs: seq<OwnerRef>, o: Owner) {
    exists i :: 0 <= i < |refs| && Matches(refs[i], o)
  }

  function Without(refs: seq<OwnerRef>, o: Owner): seq<OwnerRef> {
    if refs == [] then []
    else Without(refs[..|refs| - 1], o) + (if Matches(refs[|refs| - 1], o) then [] else [refs[|refs| - 1]])
  }

  lemma WithoutAppend(refs: seq<OwnerRef>, r: OwnerRef, o: Owner)
    ensures Without(refs + [r], o) == Without(refs, o) + (if Matches(r, o) then [] else [r])
  {
    assert (refs + [r])[..|refs|] == refs;
  }

  /** Exactly the matching entries go: every other entry stays as often as it was there. */
  lemma {:induction false} WithoutKeepsOthers(refs: seq<OwnerRef>, o: Owner, r: OwnerRef)
    ensures multiset(Without(refs, o))[r] == if Matches(r, o) then 0 else multiset(refs)[r]
  {
    if refs != [] {
      var init, last := refs[..|refs| - 1], refs[|refs| - 1];
      WithoutKeepsOthers(init, o, r);
      assert refs == init + [last];
    }
  }

  lemma WithoutHasNoOwn(refs: seq<OwnerRef>, o: Owner)
    ensures !HasMatch(Without(refs, o), o)
  {
    if HasMatch(Without(refs, o), o) {
      var i :| 0 <= i < |Without(refs, o)| && Matches(Without(refs, o)[i], o);
      WithoutKeepsOthers(refs, o, Without(refs, o)[i]);
      assert false;
    }
  }

  lemma MatchAppend(refs: seq<OwnerRef>, r: OwnerRef, o: Owner)
    ensures HasMatch(refs + [r], o) <==> HasMatch(refs, o) || Matches(r, o)
  {
    assert (refs + [r])[|refs|] == r;
    assert forall j :: 0 <= j < |refs| ==> (refs + [r])[j] == refs[j];
  }

  /** The in-place filter: `refs[..kept]` is the surviving list, in order. */
  method FilterInPlace(refs: array<OwnerRef>, o: Owner) returns (kept: nat, removed: bool)
    modifies refs
    ensures kept <= refs.Length && refs[..kept] == Without(old(refs[..]), o)
    ensures removed <==> HasMatch(old(refs[..]), o)
  {
    kept, removed := 0, false;
    for i := 0 to refs.Length
      invariant kept <= i
      invariant forall j :: i <= j < refs.Length ==> refs[j] == old(refs[j])
      invariant refs[..kept] == Without(old(refs[..])[..i], o)
      invariant removed <==> HasMatch(old(refs[..])[..i], o)
    {
      ghost var was := old(refs[..]);
      WithoutAppend(was[..i], was[i], o);
      MatchAppend(was[..i], was[i], o);
      assert was[..i] + [was[i]] == was[..i + 1];
      var r := refs[i];
      if Matches(r, o) {
        removed := true;
      } else {
        refs[kept] := r;
        kept := kept + 1;
        assert refs[..kept] == refs[..kept - 1] + [r];
      }
    }
    assert old(refs[..])[..refs.Length] == old(refs[..]);
  }

  function Last<T>(s: seq<T>): T
    requires |s| > 0
  {
    s[|s| - 1]
  }

  /** What an update call did: stored and reported, stored but reported as failed, or not stored. */
  datatype Reply = Ok | Lost | Refused

  /**
   One release: whether it reports success, and the versions afterwards. `versions[k]` is the version read,
   `others` the versions stored between read and update, which make the update a conflict.
   */
  function Release(versions: seq<seq<OwnerRef>>, k: nat, others: seq<seq<OwnerRef>>, reply: Reply, o: Owner): (bool, seq<seq<OwnerRef>>)
    requires k < |versions|
  {
    var stored := versions + others;
    if !HasMatch(versions[k], o) then (true, stored)
    else if k != |stored| - 1 || reply.Refused? then (false, stored)
    else (reply.Ok?, stored + [Without(versions[k], o)])
  }

  /** `seen` is the list this call last read or wrote; a success leaves it free of own references. */
  method RemoveOwnerReference(versions: seq<seq<OwnerRef>>, k: nat, others: seq<seq<OwnerRef>>, reply: Reply, o: Owner)
    returns (ok: bool, after: seq<seq<OwnerRef>>, seen: seq<OwnerRef>)
    requires k < |versions|
    ensures (ok, after) == Release(versions, k, others, reply, o)
    ensures ok ==> !HasMatch(seen, o)
  {
    after := versions + others;
    var refs := new OwnerRef[|versions[k]|](i requires 0 <= i < |versions[k]| => versions[k][i]);
    assert refs[..] == versions[k];
    var kept, removed := FilterInPlace(refs, o);
    if !removed {
      return true, after, versions[k];
    }
    seen := refs[..kept];
    WithoutHasNoOwn(versions[k], o);
    if k != |after| - 1 || reply.Refused? {
      return false, after, seen;
    }
    after := after + [seen];
    ok := reply.Ok?;
  }

  /**
   A success leaves the stored list free of own references exactly when the version read showed one or
   there was none to remove: the one way to miss is a stale read from before the reference was set.
   */
  lemma ReleasedIff(versions: seq<seq<OwnerRef>>, k: nat, others: seq<seq<OwnerRef>>, reply: Reply, o: Owner)
    requires k < |versions| && Release(versions, k, others, reply, o).0
    ensures !HasMatch(Last(Release(versions, k, others, reply, o).1), o)
       <==> HasMatch(versions[k], o) || !HasMatch(Last(versions + others), o)
  {
    WithoutHasNoOwn(versions[k], o);
  }

  /** The stale miss is real: success is reported while the latest version holds the reference. */
  lemma StaleReadLeavesReference(o: Owner, reply: Reply)
    ensures var own := OwnerRef(GROUP_VERSION, "XTrinode", o.name, o.uid);
            var (ok, after) := Release([[], [own]], 0, [], reply, o);
            ok && HasMatch(Last(after), o)
  {
    var own := OwnerRef(GROUP_VERSION, "XTrinode", o.name, o.uid);
    assert Matches([own][0], o);
  }
}
