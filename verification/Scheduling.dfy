/**
 Scheduling diagnostics: what each ready node has left once live pods and still missing DaemonSet pods are
 counted, and which filter leaves a pending pod without a node.
 */
module Scheduling {

  import opened Numbers
  import opened Options

  datatype Resource = Cpu | Memory | EphemeralStorage

  const RESOURCES: seq<Resource> := [Cpu, Memory, EphemeralStorage]

  function Position(r: Resource): (i: nat)
    ensures i < |RESOURCES| && RESOURCES[i] == r
  {
    match r
    case Cpu => 0
    case Memory => 1
    case EphemeralStorage => 2
  }

  /** Quantities in their smallest unit; a missing entry is zero. */
  type ResourceList = map<Resource, int>

  function Qty(l: ResourceList, r: Resource): int {
    if r in l then l[r] else 0
  }

  datatype Operator = In | NotIn | Exists | DoesNotExist | Gt | Lt | OtherOp

  datatype Requirement = Requirement(key: string, op: Operator, values: seq<string>)

  datatype Term = Term(expressions: seq<Requirement>, fields: seq<Requirement>)

  datatype Effect = NoSchedule | NoExecute | PreferNoSchedule

  datatype Taint = Taint(key: string, value: string, effect: Effect)

  datatype Toleration = Toleration(key: string, exists_: bool, value: string, effect: Option<Effect>)

  datatype PodSpec = PodSpec(
    nodeName: string,
    selector: map<string, string>,
    affinity: Option<seq<Term>>,
    tolerations: seq<Toleration>,
    containers: seq<ResourceList>,
    initContainers: seq<ResourceList>,
    overhead: ResourceList)

  datatype Owner = Owner(apiVersion: string, kind: string, name: string)

  datatype Pod = Pod(namespace: string, spec: PodSpec, owners: seq<Owner>, terminated: bool)

  datatype Node = Node(
    name: string, labels: map<string, string>, taints: seq<Taint>, unschedulable: bool,
    readyConditions: seq<bool>, allocatable: ResourceList, podSlots: int)

  /** `selects` says whether the selector matches the template's labels. */
  datatype DaemonSet = DaemonSet(namespace: string, name: string, selects: bool, template: PodSpec)

  const MAX_INT32: int := 0x7fff_ffff

  /* ---- matchers ---- */

  /** The first Ready condition decides. */
  predicate ReadyForScheduling(n: Node) {
    !n.unschedulable && |n.readyConditions| > 0 && n.readyConditions[0]
  }

  predicate RequirementMatches(q: Requirement, labels: map<string, string>) {
    match q.op
    case In => q.key in labels && labels[q.key] in q.values
    case NotIn => q.key !in labels || labels[q.key] !in q.values
    case Exists => q.key in labels
    case DoesNotExist => q.key !in labels
    case OtherOp => false
    case _ =>
      && q.key in labels && |q.values| == 1
      && var a, b := ParseInt64(labels[q.key]), ParseInt64(q.values[0]);
         a.Some? && b.Some? && if q.op == Gt then a.value > b.value else a.value < b.value
  }

  /** Operators come in pairs of opposites, and each says what it says of a label that is set, changed or taken away. */
  lemma RequirementLaws(q: Requirement, labels: map<string, string>, value: string)
    ensures RequirementMatches(q.(op := In), labels) <==> !RequirementMatches(q.(op := NotIn), labels)
    ensures RequirementMatches(q.(op := Exists), labels) <==> !RequirementMatches(q.(op := DoesNotExist), labels)
    ensures RequirementMatches(q.(op := Exists), labels[q.key := value]) && RequirementMatches(q.(op := DoesNotExist), labels - {q.key})
    ensures RequirementMatches(q.(op := In), labels[q.key := value]) <==> value in q.values
    ensures RequirementMatches(q.(op := In), labels) ==> RequirementMatches(q.(op := Exists), labels)
    ensures RequirementMatches(q.(op := Gt), labels) ==> RequirementMatches(q.(op := Exists), labels)
    ensures !RequirementMatches(q.(op := OtherOp), labels)
  {
  }

  /** Of a label and a bound written as numbers, exactly one of greater, less and equal holds, and the greater is greater. */
  lemma OrderedLabels(key: string, labels: map<string, string>, value: int, bound: int)
    requires -0x8000_0000_0000_0000 <= value < 0x8000_0000_0000_0000 && -0x8000_0000_0000_0000 <= bound < 0x8000_0000_0000_0000
    ensures var with := labels[key := Decimal(value)];
            && (RequirementMatches(Requirement(key, Gt, [Decimal(bound)]), with) <==> value > bound)
            && (RequirementMatches(Requirement(key, Lt, [Decimal(bound)]), with) <==> value < bound)
  {
    WrittenIsReadBack(value);
    WrittenIsReadBack(bound);
  }

  predicate FieldMatches(q: Requirement, n: Node) {
    q.key == "metadata.name" && RequirementMatches(q, map["metadata.name" := n.name])
  }

  predicate TermMatches(t: Term, n: Node) {
    && (t.expressions != [] || t.fields != [])
    && (forall i :: 0 <= i < |t.expressions| ==> RequirementMatches(t.expressions[i], n.labels))
    && (forall i :: 0 <= i < |t.fields| ==> FieldMatches(t.fields[i], n))
  }

  /** A selector entry is compared with the label's value, a missing label reading as empty. */
  predicate PlacementMatches(s: PodSpec, n: Node) {
    && (forall k :: k in s.selector ==> (if k in n.labels then n.labels[k] else "") == s.selector[k])
    && (s.affinity.Some? ==> exists i :: 0 <= i < |s.affinity.value| && TermMatches(s.affinity.value[i], n))
  }

  predicate Tolerates(t: Toleration, taint: Taint) {
    && (t.effect.None? || t.effect.value == taint.effect)
    && (t.key == "" || t.key == taint.key)
    && (t.exists_ || t.value == taint.value)
  }

  /** A taint is tolerated by its own copy and by the wildcard, and by nothing that names another key, value or effect. */
  lemma TolerationLaws(taint: Taint, t: Toleration)
    ensures Tolerates(Toleration(taint.key, false, taint.value, Some(taint.effect)), taint)
    ensures Tolerates(Toleration("", true, "", None), taint)
    ensures Tolerates(t, taint) ==>
              Tolerates(t.(effect := None), taint) && Tolerates(t.(exists_ := true), taint) && Tolerates(t.(key := ""), taint)
    ensures t.key != "" && t.key != taint.key ==> !Tolerates(t, taint)
    ensures t.effect.Some? && t.effect.value != taint.effect ==> !Tolerates(t, taint)
    ensures !t.exists_ && t.value != taint.value ==> !Tolerates(t, taint)
  {
  }

  predicate ToleratesTaints(s: PodSpec, n: Node) {
    forall i :: 0 <= i < |n.taints| && n.taints[i].effect != PreferNoSchedule ==>
      exists j :: 0 <= j < |s.tolerations| && Tolerates(s.tolerations[j], n.taints[i])
  }

  predicate ShouldRun(d: DaemonSet, n: Node) {
    d.selects && PlacementMatches(d.template, n) && ToleratesTaints(d.template, n)
  }

  /* ---- resource arithmetic ---- */

  method AddRequests(total: ResourceList, add: ResourceList) returns (sum: ResourceList)
    ensures forall r :: Qty(sum, r) == Qty(total, r) + Qty(add, r)
  {
    sum := total;
    for i := 0 to 3
      invariant forall j :: 0 <= j < i ==> Qty(sum, RESOURCES[j]) == Qty(total, RESOURCES[j]) + Qty(add, RESOURCES[j])
      invariant forall j :: i <= j < 3 ==> Qty(sum, RESOURCES[j]) == Qty(total, RESOURCES[j])
    {
      if Qty(add, RESOURCES[i]) != 0 {
        sum := sum[RESOURCES[i] := Qty(sum, RESOURCES[i]) + Qty(add, RESOURCES[i])];
      }
    }
    forall r ensures Qty(sum, r) == Qty(total, r) + Qty(add, r) {
      assert RESOURCES[Position(r)] == r;
    }
  }

  method SubtractRequests(total: ResourceList, used: ResourceList) returns (rest: ResourceList)
    ensures forall r :: Qty(rest, r) == Qty(total, r) - Qty(used, r)
  {
    rest := total;
    for i := 0 to 3
      invariant forall j :: 0 <= j < i ==> Qty(rest, RESOURCES[j]) == Qty(total, RESOURCES[j]) - Qty(used, RESOURCES[j])
      invariant forall j :: i <= j < 3 ==> Qty(rest, RESOURCES[j]) == Qty(total, RESOURCES[j])
    {
      if Qty(used, RESOURCES[i]) != 0 {
        rest := rest[RESOURCES[i] := Qty(rest, RESOURCES[i]) - Qty(used, RESOURCES[i])];
      }
    }
    forall r ensures Qty(rest, r) == Qty(total, r) - Qty(used, r) {
      assert RESOURCES[Position(r)] == r;
    }
  }

  /** A candidate of zero never replaces anything. */
  function Larger(current: int, candidate: int): int {
    if candidate != 0 && candidate > current then candidate else current
  }

  method KeepLarger(total: ResourceList, candidate: ResourceList) returns (best: ResourceList)
    ensures forall r :: Qty(best, r) == Larger(Qty(total, r), Qty(candidate, r))
  {
    best := total;
    for i := 0 to 3
      invariant forall j :: 0 <= j < i ==> Qty(best, RESOURCES[j]) == Larger(Qty(total, RESOURCES[j]), Qty(candidate, RESOURCES[j]))
      invariant forall j :: i <= j < 3 ==> Qty(best, RESOURCES[j]) == Qty(total, RESOURCES[j])
    {
      if Qty(candidate, RESOURCES[i]) != 0 && Qty(candidate, RESOURCES[i]) > Qty(best, RESOURCES[i]) {
        best := best[RESOURCES[i] := Qty(candidate, RESOURCES[i])];
      }
    }
    forall r ensures Qty(best, r) == Larger(Qty(total, r), Qty(candidate, r)) {
      assert RESOURCES[Position(r)] == r;
    }
  }

  function Sum(lists: seq<ResourceList>, r: Resource): int {
    if lists == [] then 0 else Sum(lists[..|lists| - 1], r) + Qty(lists[|lists| - 1], r)
  }

  /** The largest entry, and at least zero. */
  function Peak(lists: seq<ResourceList>, r: Resource): int {
    if lists == [] then 0 else Larger(Peak(lists[..|lists| - 1], r), Qty(lists[|lists| - 1], r))
  }

  /** What a pod asks for: its containers together or its largest init container, plus overhead. */
  function Request(s: PodSpec, r: Resource): int {
    Larger(Sum(s.containers, r), Peak(s.initContainers, r)) + Qty(s.overhead, r)
  }

  method PodSchedulingRequests(s: PodSpec) returns (requests: ResourceList)
    ensures forall r :: Qty(requests, r) == Request(s, r)
  {
    requests := map[];
    for i := 0 to |s.containers|
      invariant forall r :: Qty(requests, r) == Sum(s.containers[..i], r)
    {
      assert s.containers[..i + 1][..i] == s.containers[..i];
      requests := AddRequests(requests, s.containers[i]);
    }
    assert s.containers[..|s.containers|] == s.containers;
    var init: ResourceList := map[];
    for i := 0 to |s.initContainers|
      invariant forall r :: Qty(init, r) == Peak(s.initContainers[..i], r)
    {
      assert s.initContainers[..i + 1][..i] == s.initContainers[..i];
      init := KeepLarger(init, s.initContainers[i]);
    }
    assert s.initContainers[..|s.initContainers|] == s.initContainers;
    requests := KeepLarger(requests, init);
    requests := AddRequests(requests, s.overhead);
  }

  predicate NonNegative(lists: seq<ResourceList>) {
    forall i, r :: 0 <= i < |lists| ==> Qty(lists[i], r) >= 0
  }

  /** For non-negative lists the request is the maximum of the sum and the largest init container, plus overhead. */
  lemma {:induction false} RequestIsPeakOfPod(s: PodSpec, r: Resource)
    requires NonNegative(s.containers) && NonNegative(s.initContainers)
    ensures var sum, peak := Sum(s.containers, r), Peak(s.initContainers, r);
            && Request(s, r) == (if sum < peak then peak else sum) + Qty(s.overhead, r)
            && (forall i :: 0 <= i < |s.initContainers| ==> Qty(s.initContainers[i], r) <= peak)
            && (peak == 0 || exists i :: 0 <= i < |s.initContainers| && Qty(s.initContainers[i], r) == peak)
  {
    SumNonNegative(s.containers, r);
    PeakIsMax(s.initContainers, r);
  }

  lemma {:induction false} SumNonNegative(lists: seq<ResourceList>, r: Resource)
    requires NonNegative(lists)
    ensures Sum(lists, r) >= 0
  {
    if lists != [] {
      assert NonNegative(lists[..|lists| - 1]);
      SumNonNegative(lists[..|lists| - 1], r);
    }
  }

  lemma {:induction false} PeakIsMax(lists: seq<ResourceList>, r: Resource)
    ensures Peak(lists, r) >= 0
    ensures forall i :: 0 <= i < |lists| ==> Qty(lists[i], r) <= Peak(lists, r)
    ensures Peak(lists, r) == 0 || exists i :: 0 <= i < |lists| && Qty(lists[i], r) == Peak(lists, r)
  {
    if lists != [] {
      var init := lists[..|lists| - 1];
      PeakIsMax(init, r);
      if Peak(lists, r) == Peak(init, r) && Peak(init, r) != 0 {
        var i :| 0 <= i < |init| && Qty(init[i], r) == Peak(init, r);
        assert lists[i] == init[i];
      }
      forall i | 0 <= i < |lists| ensures Qty(lists[i], r) <= Peak(lists, r) {
        if i < |init| { assert lists[i] == init[i]; }
      }
    }
  }

  /* ---- which DaemonSets already have a pod on a node ---- */

  predicate OwnedByDaemonSet(o: Owner) {
    o.apiVersion == "apps/v1" && o.kind == "DaemonSet"
  }

  predicate JoinsTo(p: Pod, o: Owner, key: string) {
    OwnedByDaemonSet(o) && p.namespace + "/" + o.name == key
  }

  predicate AnyJoinsTo(p: Pod, owners: seq<Owner>, key: string) {
    exists j :: 0 <= j < |owners| && JoinsTo(p, owners[j], key)
  }

  /** A live pod on the node whose namespace and DaemonSet owner join to this key. */
  predicate Contributes(p: Pod, node: string, key: string) {
    p.spec.nodeName == node && node != "" && !p.terminated && AnyJoinsTo(p, p.owners, key)
  }

  predicate Keyed(pods: seq<Pod>, node: string, key: string) {
    exists i :: 0 <= i < |pods| && Contributes(pods[i], node, key)
  }

  type Index = map<string, set<string>>

  predicate Has(index: Index, node: string, key: string) {
    node in index && key in index[node]
  }

  method IndexOwners(index: Index, p: Pod) returns (index': Index)
    requires p.spec.nodeName != "" && !p.terminated
    ensures forall node, key :: Has(index', node, key) <==> Has(index, node, key) || Contributes(p, node, key)
  {
    index' := index;
    var here := p.spec.nodeName;
    for j := 0 to |p.owners|
      invariant forall node, key :: Has(index', node, key) <==>
                  Has(index, node, key) || (node == here && AnyJoinsTo(p, p.owners[..j], key))
    {
      ghost var before := index';
      if p.owners[j].apiVersion == "apps/v1" && p.owners[j].kind == "DaemonSet" {
        var onNode := if here in index' then index'[here] else {};
        index' := index'[here := onNode + {p.namespace + "/" + p.owners[j].name}];
      }
      forall node, key
        ensures Has(index', node, key) <==> Has(index, node, key) || (node == here && AnyJoinsTo(p, p.owners[..j + 1], key))
      {
        JoinStep(p, j, key);
        assert Has(index', node, key) <==> Has(before, node, key) || (node == here && JoinsTo(p, p.owners[j], key));
      }
    }
    assert p.owners[..|p.owners|] == p.owners;
  }

  lemma JoinStep(p: Pod, j: nat, key: string)
    requires j < |p.owners|
    ensures AnyJoinsTo(p, p.owners[..j + 1], key) <==> AnyJoinsTo(p, p.owners[..j], key) || JoinsTo(p, p.owners[j], key)
  {
    var now, next := p.owners[..j], p.owners[..j + 1];
    assert next == now + [p.owners[j]];
    if AnyJoinsTo(p, now, key) {
      var i :| 0 <= i < j && JoinsTo(p, now[i], key);
      assert JoinsTo(p, next[i], key);
    }
    if JoinsTo(p, p.owners[j], key) {
      assert JoinsTo(p, next[j], key);
    }
  }

  method DaemonSetPodsByNode(pods: seq<Pod>) returns (index: Index)
    ensures forall node, key :: Has(index, node, key) <==> Keyed(pods, node, key)
  {
    index := map[];
    for i := 0 to |pods|
      invariant forall node, key :: Has(index, node, key) <==> Keyed(pods[..i], node, key)
    {
      assert forall node, key :: Keyed(pods[..i + 1], node, key) <==> Keyed(pods[..i], node, key) || Contributes(pods[i], node, key) by {
        KeyedStep(pods, i);
      }
      if pods[i].spec.nodeName != "" && !pods[i].terminated {
        index := IndexOwners(index, pods[i]);
      }
    }
    assert pods[..|pods|] == pods;
  }

  lemma KeyedStep(pods: seq<Pod>, i: nat)
    requires i < |pods|
    ensures forall node, key :: Keyed(pods[..i + 1], node, key) <==> Keyed(pods[..i], node, key) || Contributes(pods[i], node, key)
  {
    forall node, key ensures Keyed(pods[..i + 1], node, key) <==> Keyed(pods[..i], node, key) || Contributes(pods[i], node, key) {
      if Keyed(pods[..i], node, key) {
        var j :| 0 <= j < i && Contributes(pods[..i][j], node, key);
        assert pods[..i + 1][j] == pods[..i][j];
      }
      if Contributes(pods[i], node, key) {
        assert pods[..i + 1][i] == pods[i];
      }
      if Keyed(pods[..i + 1], node, key) && !Contributes(pods[i], node, key) {
        var j :| 0 <= j < i + 1 && Contributes(pods[..i + 1][j], node, key);
        assert pods[..i][j] == pods[..i + 1][j];
      }
    }
  }

  function DsKey(d: DaemonSet): string {
    d.namespace + "/" + d.name
  }

  predicate HasPod(d: DaemonSet, n: Node, pods: seq<Pod>) {
    Keyed(pods, n.name, DsKey(d))
  }

  /** Plain scan: a live pod of that namespace on the node, owned by a DaemonSet of that name. */
  predicate ScanFinds(d: DaemonSet, n: Node, pods: seq<Pod>) {
    n.name != "" &&
    exists i, j ::
      && 0 <= i < |pods| && 0 <= j < |pods[i].owners|
      && pods[i].spec.nodeName == n.name && !pods[i].terminated && pods[i].namespace == d.namespace
      && OwnedByDaemonSet(pods[i].owners[j]) && pods[i].owners[j].name == d.name
  }

  predicate NoSlash(s: string) {
    forall i :: 0 <= i < |s| ==> s[i] != '/'
  }

  lemma JoinInjective(a: string, b: string, c: string, d: string)
    requires NoSlash(a) && NoSlash(c) && a + "/" + b == c + "/" + d
    ensures a == c && b == d
  {
    var s := a + "/" + b;
    assert s[|a|] == '/' && (c + "/" + d)[|c|] == '/';
    if |a| < |c| {
      assert false;
    } else if |c| < |a| {
      assert false;
    }
    assert a == s[..|a|] && c == s[..|a|];
    assert b == s[|a| + 1..] && d == s[|a| + 1..];
  }

  /** The joined-key index agrees with the scan, since namespaces contain no slash. */
  lemma IndexAgreesWithScan(d: DaemonSet, n: Node, pods: seq<Pod>)
    requires NoSlash(d.namespace) && forall i :: 0 <= i < |pods| ==> NoSlash(pods[i].namespace)
    ensures HasPod(d, n, pods) <==> ScanFinds(d, n, pods)
  {
    if HasPod(d, n, pods) {
      var i :| 0 <= i < |pods| && Contributes(pods[i], n.name, DsKey(d));
      var j :| 0 <= j < |pods[i].owners| && JoinsTo(pods[i], pods[i].owners[j], DsKey(d));
      JoinInjective(pods[i].namespace, pods[i].owners[j].name, d.namespace, d.name);
    }
    if ScanFinds(d, n, pods) {
      var i, j :|
        && 0 <= i < |pods| && 0 <= j < |pods[i].owners|
        && pods[i].spec.nodeName == n.name && !pods[i].terminated && pods[i].namespace == d.namespace
        && OwnedByDaemonSet(pods[i].owners[j]) && pods[i].owners[j].name == d.name;
      assert JoinsTo(pods[i], pods[i].owners[j], DsKey(d));
      assert Contributes(pods[i], n.name, DsKey(d));
    }
  }

  /* ---- what a node has left ---- */

  predicate LiveOn(p: Pod, n: Node) {
    p.spec.nodeName == n.name && !p.terminated
  }

  predicate Missing(d: DaemonSet, n: Node, pods: seq<Pod>) {
    ShouldRun(d, n) && !HasPod(d, n, pods)
  }

  function PodLoad(pods: seq<Pod>, n: Node, r: Resource): int {
    if pods == [] then 0
    else PodLoad(pods[..|pods| - 1], n, r) + (if LiveOn(pods[|pods| - 1], n) then Request(pods[|pods| - 1].spec, r) else 0)
  }

  function PodCount(pods: seq<Pod>, n: Node): nat {
    if pods == [] then 0 else PodCount(pods[..|pods| - 1], n) + (if LiveOn(pods[|pods| - 1], n) then 1 else 0)
  }

  function MissingLoad(ds: seq<DaemonSet>, n: Node, pods: seq<Pod>, r: Resource): int {
    if ds == [] then 0
    else MissingLoad(ds[..|ds| - 1], n, pods, r) + (if Missing(ds[|ds| - 1], n, pods) then Request(ds[|ds| - 1].template, r) else 0)
  }

  function MissingCount(ds: seq<DaemonSet>, n: Node, pods: seq<Pod>): nat {
    if ds == [] then 0 else MissingCount(ds[..|ds| - 1], n, pods) + (if Missing(ds[|ds| - 1], n, pods) then 1 else 0)
  }

  /** Allocatable, less live pods, less DaemonSet pods still to come. */
  function Free(n: Node, pods: seq<Pod>, ds: seq<DaemonSet>, r: Resource): int {
    Qty(n.allocatable, r) - PodLoad(pods, n, r) - MissingLoad(ds, n, pods, r)
  }

  /** A node that states no pod limit gets the largest 32-bit one. */
  function Slots(n: Node): int {
    if n.podSlots > 0 then n.podSlots else MAX_INT32
  }

  function FreeSlots(n: Node, pods: seq<Pod>, ds: seq<DaemonSet>): int {
    var left := Slots(n) - PodCount(pods, n) - MissingCount(ds, n, pods);
    if left < 0 then 0 else left
  }

  datatype NodeState = NodeState(node: Node, free: ResourceList, freePods: int)

  ghost predicate Accounts(s: NodeState, n: Node, pods: seq<Pod>, ds: seq<DaemonSet>) {
    && s.node == n
    && (forall r :: Qty(s.free, r) == Free(n, pods, ds, r))
    && s.freePods == FreeSlots(n, pods, ds)
  }

  method SubtractPods(n: Node, pods: seq<Pod>) returns (free: ResourceList, freePods: int)
    ensures forall r :: Qty(free, r) == Qty(n.allocatable, r) - PodLoad(pods, n, r)
    ensures freePods == if Slots(n) - PodCount(pods, n) < 0 then 0 else Slots(n) - PodCount(pods, n)
  {
    free, freePods := n.allocatable, Slots(n);
    for j := 0 to |pods|
      invariant forall r :: Qty(free, r) == Qty(n.allocatable, r) - PodLoad(pods[..j], n, r)
      invariant freePods == if Slots(n) - PodCount(pods[..j], n) < 0 then 0 else Slots(n) - PodCount(pods[..j], n)
    {
      assert pods[..j + 1][..j] == pods[..j];
      if pods[j].spec.nodeName == n.name && !pods[j].terminated {
        var requests := PodSchedulingRequests(pods[j].spec);
        free := SubtractRequests(free, requests);
        if freePods > 0 {
          freePods := freePods - 1;
        }
      }
    }
    assert pods[..|pods|] == pods;
  }

  method BuildNodeState(n: Node, pods: seq<Pod>, ds: seq<DaemonSet>, index: Index) returns (s: NodeState)
    requires forall node, key :: Has(index, node, key) <==> Keyed(pods, node, key)
    ensures Accounts(s, n, pods, ds)
  {
    var free, freePods := SubtractPods(n, pods);
    ghost var before := Slots(n) - PodCount(pods, n);
    for j := 0 to |ds|
      invariant forall r :: Qty(free, r) == Qty(n.allocatable, r) - PodLoad(pods, n, r) - MissingLoad(ds[..j], n, pods, r)
      invariant freePods == if before - MissingCount(ds[..j], n, pods) < 0 then 0 else before - MissingCount(ds[..j], n, pods)
    {
      assert ds[..j + 1][..j] == ds[..j];
      assert Has(index, n.name, DsKey(ds[j])) <==> HasPod(ds[j], n, pods);
      if ShouldRun(ds[j], n) && !Has(index, n.name, DsKey(ds[j])) {
        var requests := PodSchedulingRequests(ds[j].template);
        free := SubtractRequests(free, requests);
        if freePods > 0 {
          freePods := freePods - 1;
        }
      }
    }
    assert ds[..|ds|] == ds;
    s := NodeState(n, free, freePods);
  }

  function ReadyNodes(nodes: seq<Node>): seq<Node> {
    if nodes == [] then []
    else ReadyNodes(nodes[..|nodes| - 1]) + (if ReadyForScheduling(nodes[|nodes| - 1]) then [nodes[|nodes| - 1]] else [])
  }

  /** One state per ready node, in order, each with exactly what the node has left. */
  method BuildSchedulingNodeStates(nodes: seq<Node>, pods: seq<Pod>, ds: seq<DaemonSet>) returns (states: seq<NodeState>)
    ensures |states| == |ReadyNodes(nodes)|
    ensures forall i :: 0 <= i < |states| ==> Accounts(states[i], ReadyNodes(nodes)[i], pods, ds)
  {
    states := [];
    var index := DaemonSetPodsByNode(pods);
    for i := 0 to |nodes|
      invariant |states| == |ReadyNodes(nodes[..i])|
      invariant forall k :: 0 <= k < |states| ==> Accounts(states[k], ReadyNodes(nodes[..i])[k], pods, ds)
    {
      assert nodes[..i + 1][..i] == nodes[..i];
      if ReadyForScheduling(nodes[i]) {
        var s := BuildNodeState(nodes[i], pods, ds, index);
        states := states + [s];
      }
    }
    assert nodes[..|nodes|] == nodes;
  }

  lemma {:induction false} ReadyNodesAre(nodes: seq<Node>, n: Node)
    ensures n in ReadyNodes(nodes) <==> n in nodes && ReadyForScheduling(n)
  {
    if nodes != [] {
      ReadyNodesAre(nodes[..|nodes| - 1], n);
      assert nodes == nodes[..|nodes| - 1] + [nodes[|nodes| - 1]];
    }
  }
}
