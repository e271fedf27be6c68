/** Which filter blocks a pending pod, and how the verdict moves when pods come and go. */
module Diagnostics {
  import opened Options
  import opened Scheduling

  datatype Category = Placement | Taints | Capacity

  /** Room for the pod: a slot, and enough of everything it asks for. */
  predicate Fits(s: PodSpec, n: Node, pods: seq<Pod>, ds: seq<DaemonSet>) {
    && FreeSlots(n, pods, ds) != 0
    && forall r :: Request(s, r) != 0 ==> 0 < Free(n, pods, ds, r) && Request(s, r) <= Free(n, pods, ds, r)
  }

  /** The pod could be put on this node now. */
  predicate Admits(n: Node, s: PodSpec, pods: seq<Pod>, ds: seq<DaemonSet>) {
    ReadyForScheduling(n) && PlacementMatches(s, n) && ToleratesTaints(s, n) && Fits(s, n, pods, ds)
  }

  /** A node is still in the race after the first `stage` filters: ready, placement, taints, capacity. */
  predicate Survives(stage: nat, n: Node, s: PodSpec, pods: seq<Pod>, ds: seq<DaemonSet>) {
    && ReadyForScheduling(n)
    && (stage >= 1 ==> PlacementMatches(s, n))
    && (stage >= 2 ==> ToleratesTaints(s, n))
    && (stage >= 3 ==> Fits(s, n, pods, ds))
  }

  predicate SomeSurvives(stage: nat, s: PodSpec, nodes: seq<Node>, pods: seq<Pod>, ds: seq<DaemonSet>) {
    exists n :: n in nodes && Survives(stage, n, s, pods, ds)
  }

  /** The verdict on a pending pod: the category of the first filter that leaves no node, if one does. */
  function Blocker(s: PodSpec, nodes: seq<Node>, pods: seq<Pod>, ds: seq<DaemonSet>): Option<Category> {
    if !SomeSurvives(0, s, nodes, pods, ds) then Some(Capacity)
    else if !SomeSurvives(1, s, nodes, pods, ds) then Some(Placement)
    else if !SomeSurvives(2, s, nodes, pods, ds) then Some(Taints)
    else if !SomeSurvives(3, s, nodes, pods, ds) then Some(Capacity)
    else None
  }

  /** No diagnostic exactly when some node would take the pod. */
  lemma UnblockedIffAdmitted(s: PodSpec, nodes: seq<Node>, pods: seq<Pod>, ds: seq<DaemonSet>)
    ensures Blocker(s, nodes, pods, ds).None? <==> exists n :: n in nodes && Admits(n, s, pods, ds)
  {
    if SomeSurvives(3, s, nodes, pods, ds) {
      var n :| n in nodes && Survives(3, n, s, pods, ds);
      assert Survives(0, n, s, pods, ds) && Survives(1, n, s, pods, ds) && Survives(2, n, s, pods, ds);
      assert Admits(n, s, pods, ds);
    }
    if n :| n in nodes && Admits(n, s, pods, ds) {
      assert Survives(3, n, s, pods, ds);
    }
  }

  /* ---- the filters as the operator runs them ---- */

  method RequestsFit(requests: ResourceList, free: ResourceList, freePods: int) returns (fits: bool)
    ensures fits <==> freePods != 0 && forall r :: Qty(requests, r) != 0 ==> 0 < Qty(free, r) && Qty(requests, r) <= Qty(free, r)
  {
    if freePods == 0 {
      return false;
    }
    for i := 0 to 3
      invariant forall j :: 0 <= j < i && Qty(requests, RESOURCES[j]) != 0 ==>
                  0 < Qty(free, RESOURCES[j]) && Qty(requests, RESOURCES[j]) <= Qty(free, RESOURCES[j])
    {
      var requested, available := Qty(requests, RESOURCES[i]), Qty(free, RESOURCES[i]);
      if requested != 0 && (available <= 0 || available < requested) {
        return false;
      }
    }
    forall r | Qty(requests, r) != 0 ensures 0 < Qty(free, r) && Qty(requests, r) <= Qty(free, r) {
      assert RESOURCES[Position(r)] == r;
    }
    return true;
  }

  class BlockerSet {
    var all: seq<string>
    var placement: seq<string>
    var taints: seq<string>
    var capacity: seq<string>

    constructor ()
      ensures all == [] && placement == [] && taints == [] && capacity == []
    {
      all, placement, taints, capacity := [], [], [], [];
    }

    /** Files one line under exactly one category, and in the overall list. */
    method Add(c: Category, summary: string)
      modifies this
      ensures all == old(all) + [summary]
      ensures placement == old(placement) + (if c.Placement? then [summary] else [])
      ensures taints == old(taints) + (if c.Taints? then [summary] else [])
      ensures capacity == old(capacity) + (if c.Capacity? then [summary] else [])
    {
      all := all + [summary];
      match c {
        case Placement => placement := placement + [summary];
        case Taints => taints := taints + [summary];
        case Capacity => capacity := capacity + [summary];
      }
    }
  }

  /** The states are those of the ready nodes of a cluster. */
  ghost predicate StatesOf(states: seq<NodeState>, nodes: seq<Node>, pods: seq<Pod>, ds: seq<DaemonSet>) {
    && |states| == |ReadyNodes(nodes)|
    && forall i :: 0 <= i < |states| ==> Accounts(states[i], ReadyNodes(nodes)[i], pods, ds)
  }

  /** `kept` holds, of the ready nodes' states, exactly those that survive the given stage. */
  ghost predicate Candidates(kept: seq<NodeState>, stage: nat, s: PodSpec, nodes: seq<Node>, pods: seq<Pod>, ds: seq<DaemonSet>) {
    && (forall i :: 0 <= i < |kept| ==>
          kept[i].node in nodes && Survives(stage, kept[i].node, s, pods, ds) && Accounts(kept[i], kept[i].node, pods, ds))
    && (forall n :: n in nodes && Survives(stage, n, s, pods, ds) ==> exists i :: 0 <= i < |kept| && kept[i].node == n)
  }

  lemma StatesAreCandidates(states: seq<NodeState>, s: PodSpec, nodes: seq<Node>, pods: seq<Pod>, ds: seq<DaemonSet>)
    requires StatesOf(states, nodes, pods, ds)
    ensures Candidates(states, 0, s, nodes, pods, ds)
  {
    forall i | 0 <= i < |states| ensures states[i].node in nodes && Survives(0, states[i].node, s, pods, ds) {
      ReadyNodesAre(nodes, states[i].node);
    }
    forall n | n in nodes && Survives(0, n, s, pods, ds) ensures exists i :: 0 <= i < |states| && states[i].node == n {
      ReadyNodesAre(nodes, n);
      var i :| 0 <= i < |ReadyNodes(nodes)| && ReadyNodes(nodes)[i] == n;
      assert states[i].node == n;
    }
  }

  lemma CandidatesDecide(kept: seq<NodeState>, stage: nat, s: PodSpec, nodes: seq<Node>, pods: seq<Pod>, ds: seq<DaemonSet>)
    requires Candidates(kept, stage, s, nodes, pods, ds)
    ensures |kept| == 0 <==> !SomeSurvives(stage, s, nodes, pods, ds)
  {
    if |kept| > 0 {
      assert Survives(stage, kept[0].node, s, pods, ds);
    }
  }

  /** One filter: keep the states that also pass the test of the next stage. */
  method Filter(states: seq<NodeState>, stage: nat, s: PodSpec, ghost nodes: seq<Node>, ghost pods: seq<Pod>, ghost ds: seq<DaemonSet>)
    returns (kept: seq<NodeState>)
    requires stage < 2 && Candidates(states, stage, s, nodes, pods, ds)
    ensures Candidates(kept, stage + 1, s, nodes, pods, ds)
  {
    kept := [];
    for i := 0 to |states|
      invariant forall j :: 0 <= j < |kept| ==>
                  kept[j].node in nodes && Survives(stage + 1, kept[j].node, s, pods, ds) && Accounts(kept[j], kept[j].node, pods, ds)
      invariant forall j :: 0 <= j < i && Survives(stage + 1, states[j].node, s, pods, ds) ==>
                  exists m :: 0 <= m < |kept| && kept[m].node == states[j].node
    {
      var pass := if stage == 0 then PlacementMatches(s, states[i].node) else ToleratesTaints(s, states[i].node);
      assert pass <==> Survives(stage + 1, states[i].node, s, pods, ds);
      if pass {
        ghost var before := kept;
        kept := kept + [states[i]];
        forall j | 0 <= j < i + 1 && Survives(stage + 1, states[j].node, s, pods, ds)
          ensures exists m :: 0 <= m < |kept| && kept[m].node == states[j].node
        {
          if j < i {
            var m :| 0 <= m < |before| && before[m].node == states[j].node;
            assert kept[m].node == states[j].node;
          } else {
            assert kept[|before|].node == states[j].node;
          }
        }
      }
    }
    forall n | n in nodes && Survives(stage + 1, n, s, pods, ds) ensures exists m :: 0 <= m < |kept| && kept[m].node == n {
      assert Survives(stage, n, s, pods, ds);
      var i :| 0 <= i < |states| && states[i].node == n;
    }
  }

  method AnyFits(states: seq<NodeState>, s: PodSpec, ghost nodes: seq<Node>, ghost pods: seq<Pod>, ghost ds: seq<DaemonSet>)
    returns (yes: bool)
    requires Candidates(states, 2, s, nodes, pods, ds)
    ensures yes <==> SomeSurvives(3, s, nodes, pods, ds)
  {
    var requests := PodSchedulingRequests(s);
    for i := 0 to |states|
      invariant forall j :: 0 <= j < i ==> !Fits(s, states[j].node, pods, ds)
    {
      var fits := RequestsFit(requests, states[i].free, states[i].freePods);
      assert fits <==> Fits(s, states[i].node, pods, ds);
      if fits {
        assert Survives(3, states[i].node, s, pods, ds);
        return true;
      }
    }
    forall n | n in nodes ensures !Survives(3, n, s, pods, ds) {
      if Survives(2, n, s, pods, ds) {
        var i :| 0 <= i < |states| && states[i].node == n;
      }
    }
    return false;
  }

  /** The three filters in turn give the verdict. */
  method Diagnose(s: PodSpec, states: seq<NodeState>, ghost nodes: seq<Node>, ghost pods: seq<Pod>, ghost ds: seq<DaemonSet>)
    returns (c: Option<Category>)
    requires StatesOf(states, nodes, pods, ds)
    ensures c == Blocker(s, nodes, pods, ds)
  {
    StatesAreCandidates(states, s, nodes, pods, ds);
    CandidatesDecide(states, 0, s, nodes, pods, ds);
    if |states| == 0 {
      return Some(Capacity);
    }
    var placed := Filter(states, 0, s, nodes, pods, ds);
    CandidatesDecide(placed, 1, s, nodes, pods, ds);
    if |placed| == 0 {
      return Some(Placement);
    }
    var tolerated := Filter(placed, 1, s, nodes, pods, ds);
    CandidatesDecide(tolerated, 2, s, nodes, pods, ds);
    if |tolerated| == 0 {
      return Some(Taints);
    }
    var fits := AnyFits(tolerated, s, nodes, pods, ds);
    return if fits then None else Some(Capacity);
  }

  /** A pending pod adds one line in its category, or none. */
  method AddPodSchedulingDiagnostics(b: BlockerSet, name: string, s: PodSpec, states: seq<NodeState>,
                                     ghost nodes: seq<Node>, ghost pods: seq<Pod>, ghost ds: seq<DaemonSet>)
    requires StatesOf(states, nodes, pods, ds)
    modifies b
    ensures var c := Blocker(s, nodes, pods, ds);
            && |b.all| == |old(b.all)| + (if c.Some? then 1 else 0)
            && |b.placement| == |old(b.placement)| + (if c == Some(Placement) then 1 else 0)
            && |b.taints| == |old(b.taints)| + (if c == Some(Taints) then 1 else 0)
            && |b.capacity| == |old(b.capacity)| + (if c == Some(Capacity) then 1 else 0)
    ensures old(b.all) <= b.all && old(b.placement) <= b.placement && old(b.taints) <= b.taints && old(b.capacity) <= b.capacity
  {
    var c := Diagnose(s, states, nodes, pods, ds);
    if c.Some? {
      b.Add(c.value, "runtime pod " + name);
    }
  }

  /* ---- pods coming and going ---- */

  function Insert(pods: seq<Pod>, k: nat, p: Pod): seq<Pod>
    requires k <= |pods|
  {
    pods[..k] + [p] + pods[k..]
  }

  lemma {:induction false} InsertLoad(pods: seq<Pod>, k: nat, p: Pod, n: Node, r: Resource)
    requires k <= |pods|
    ensures PodLoad(Insert(pods, k, p), n, r) == PodLoad(pods, n, r) + (if LiveOn(p, n) then Request(p.spec, r) else 0)
    ensures PodCount(Insert(pods, k, p), n) == PodCount(pods, n) + (if LiveOn(p, n) then 1 else 0)
  {
    var all := Insert(pods, k, p);
    if k == |pods| {
      assert all[..|all| - 1] == pods;
    } else {
      InsertLoad(pods[..|pods| - 1], k, p, n, r);
      assert all[..|all| - 1] == Insert(pods[..|pods| - 1], k, p);
    }
  }

  lemma InsertKeyed(pods: seq<Pod>, k: nat, p: Pod, node: string, key: string)
    requires k <= |pods|
    ensures Keyed(Insert(pods, k, p), node, key) <==> Keyed(pods, node, key) || Contributes(p, node, key)
  {
    var all := Insert(pods, k, p);
    if Keyed(pods, node, key) {
      var i :| 0 <= i < |pods| && Contributes(pods[i], node, key);
      assert all[if i < k then i else i + 1] == pods[i];
    }
    if Contributes(p, node, key) {
      assert all[k] == p;
    }
    if Keyed(all, node, key) && !Contributes(p, node, key) {
      var i :| 0 <= i < |all| && Contributes(all[i], node, key);
      assert all[i] == pods[if i < k then i else i - 1];
    }
  }

  predicate DistinctSets(ds: seq<DaemonSet>) {
    forall i, j :: 0 <= i < j < |ds| ==> DsKey(ds[i]) != DsKey(ds[j])
  }

  /** `p` is a pod of DaemonSet `d`, with the requests of its template. */
  ghost predicate PodOf(p: Pod, d: DaemonSet) {
    && p.spec.nodeName != "" && !p.terminated
    && (forall key :: AnyJoinsTo(p, p.owners, key) <==> key == DsKey(d))
    && (forall r :: Request(p.spec, r) == Request(d.template, r))
  }

  /** Once `d` has its pod on the node, it alone stops counting as missing there. */
  lemma {:induction false} LandingClearsOne(ds: seq<DaemonSet>, d: DaemonSet, n: Node, pods: seq<Pod>, k: nat, p: Pod, r: Resource)
    requires k <= |pods| && PodOf(p, d) && p.spec.nodeName == n.name && DistinctSets(ds) && Missing(d, n, pods)
    requires forall i :: 0 <= i < |ds| && DsKey(ds[i]) == DsKey(d) ==> ds[i] == d
    ensures MissingLoad(ds, n, Insert(pods, k, p), r) == MissingLoad(ds, n, pods, r) - (if d in ds then Request(d.template, r) else 0)
    ensures MissingCount(ds, n, Insert(pods, k, p)) == MissingCount(ds, n, pods) - (if d in ds then 1 else 0)
  {
    if ds != [] {
      var init, last := ds[..|ds| - 1], ds[|ds| - 1];
      LandingClearsOne(init, d, n, pods, k, p, r);
      InsertKeyed(pods, k, p, n.name, DsKey(last));
      assert ds == init + [last];
      assert last == d ==> d !in init;
    }
  }

  /** A pod on another node leaves the node's missing sets as they were. */
  lemma {:induction false} ElsewhereSame(ds: seq<DaemonSet>, n: Node, pods: seq<Pod>, k: nat, p: Pod, r: Resource)
    requires k <= |pods|
    requires p.spec.nodeName != n.name || (forall key :: !AnyJoinsTo(p, p.owners, key))
    ensures MissingLoad(ds, n, Insert(pods, k, p), r) == MissingLoad(ds, n, pods, r)
    ensures MissingCount(ds, n, Insert(pods, k, p)) == MissingCount(ds, n, pods)
  {
    if ds != [] {
      ElsewhereSame(ds[..|ds| - 1], n, pods, k, p, r);
      InsertKeyed(pods, k, p, n.name, DsKey(ds[|ds| - 1]));
    }
  }

  /**
   Conservation. When a missing DaemonSet pod appears, anywhere in the list, on a node where it should run,
   no node's free resources or free slots change: what was reserved is now used. A slot counter that had
   already run down to zero stays there.
   */
  lemma LandingConserves(d: DaemonSet, ds: seq<DaemonSet>, pods: seq<Pod>, k: nat, p: Pod, n: Node, r: Resource)
    requires k <= |pods| && PodOf(p, d) && DistinctSets(ds) && d in ds
    requires p.spec.nodeName == n.name ==> Missing(d, n, pods)
    ensures Free(n, Insert(pods, k, p), ds, r) == Free(n, pods, ds, r)
    ensures FreeSlots(n, Insert(pods, k, p), ds) == FreeSlots(n, pods, ds)
  {
    InsertLoad(pods, k, p, n, r);
    if p.spec.nodeName == n.name {
      forall i | 0 <= i < |ds| && DsKey(ds[i]) == DsKey(d) ensures ds[i] == d {
        var j :| 0 <= j < |ds| && ds[j] == d;
        assert i < j || j < i || i == j;
      }
      LandingClearsOne(ds, d, n, pods, k, p, r);
    } else {
      ElsewhereSame(ds, n, pods, k, p, r);
    }
  }

  /** A further live pod outside DaemonSets takes room and gives none. */
  lemma MorePodsLessRoom(pods: seq<Pod>, k: nat, p: Pod, ds: seq<DaemonSet>, n: Node, s: PodSpec)
    requires k <= |pods| && (forall key :: !AnyJoinsTo(p, p.owners, key)) && (forall r :: Request(p.spec, r) >= 0)
    ensures Fits(s, n, Insert(pods, k, p), ds) ==> Fits(s, n, pods, ds)
  {
    forall r
      ensures Free(n, Insert(pods, k, p), ds, r) <= Free(n, pods, ds, r)
      ensures FreeSlots(n, Insert(pods, k, p), ds) <= FreeSlots(n, pods, ds)
    {
      InsertLoad(pods, k, p, n, r);
      ElsewhereSame(ds, n, pods, k, p, r);
    }
    assert FreeSlots(n, Insert(pods, k, p), ds) <= FreeSlots(n, pods, ds) by {
      InsertLoad(pods, k, p, n, Cpu);
      ElsewhereSame(ds, n, pods, k, p, Cpu);
    }
  }

  /**
   Adding a live pod that belongs to no DaemonSet never unblocks a blocked pod. Its category stays what it
   was, unless the pod was free to go before and now lacks capacity.
   */
  lemma AddedPodNeverUnblocks(s: PodSpec, nodes: seq<Node>, pods: seq<Pod>, ds: seq<DaemonSet>, k: nat, p: Pod)
    requires k <= |pods| && (forall key :: !AnyJoinsTo(p, p.owners, key)) && (forall r :: Request(p.spec, r) >= 0)
    ensures var before, after := Blocker(s, nodes, pods, ds), Blocker(s, nodes, Insert(pods, k, p), ds);
            after == before || (before.None? && after == Some(Capacity))
  {
    var more := Insert(pods, k, p);
    forall stage: nat | stage <= 2 ensures SomeSurvives(stage, s, nodes, more, ds) == SomeSurvives(stage, s, nodes, pods, ds) {
      if n :| n in nodes && Survives(stage, n, s, pods, ds) { assert Survives(stage, n, s, more, ds); }
      if n :| n in nodes && Survives(stage, n, s, more, ds) { assert Survives(stage, n, s, pods, ds); }
    }
    if SomeSurvives(3, s, nodes, more, ds) {
      var n :| n in nodes && Survives(3, n, s, more, ds);
      MorePodsLessRoom(pods, k, p, ds, n, s);
      assert Survives(3, n, s, pods, ds);
    }
  }
}
