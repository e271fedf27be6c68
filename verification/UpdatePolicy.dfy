/** Admission of updates: what may never change without the break-glass annotation. */
module UpdatePolicy {

  import opened Options
  import opened Strings

  datatype Spot = Spot(enabled: bool, maxPrice: string)

  /** A provider block: machine type and disk type; `rest` is what the update rules never look at. */
  datatype Machine = Machine(kind: string, disk: string, rest: int)

  datatype NodePool = NodePool(
    provider: string,
    name: string,
    clusterName: string,
    osDiskGB: Option<int>,
    spot: Option<Spot>,
    azure: Option<Machine>,
    aws: Option<Machine>,
    gcp: Option<Machine>,
    providerMode: string,
    taints: nat,
    deletionPolicy: string)

  datatype Routing = Routing(
    group: string, hostname: string, hostnameDomain: string, header: string, isDefault: bool, capacityUnits: Option<int>)

  /** `otherChecksPass` stands for the validators that the update rules do not depend on. */
  datatype Runtime = Runtime(
    size: string, nodePool: Option<NodePool>, routing: Option<Routing>, breakGlass: Option<string>, otherChecksPass: bool)

  const DELETE := "Delete"
  const RETAIN := "Retain"
  const SCALE_TO_ZERO := "ScaleToZero"

  /* ---- create-time validation ---- */

  function SizeRank(s: string): nat {
    if s == "xs" then 1 else if s == "s" then 2 else if s == "m" then 3 else if s == "l" then 4 else if s == "xl" then 5 else 0
  }

  const SIZES: seq<string> := ["xs", "s", "m", "l", "xl"]

  /** The five sizes ascend, and nothing else counts as a size. */
  lemma SizesAscend(i: nat, j: nat, other: string)
    requires i < j < |SIZES| && other !in SIZES
    ensures SizeRank(other) < SizeRank(SIZES[i]) < SizeRank(SIZES[j])
  {
    assert SIZES[0] == "xs" && SIZES[1] == "s" && SIZES[2] == "m" && SIZES[3] == "l" && SIZES[4] == "xl";
  }

  function SizeOrder(size: string): nat {
    SizeRank(Normalize(size))
  }

  predicate ValidSize(size: string) {
    SizeRank(Lower(size)) > 0
  }

  predicate ValidProvider(provider: string) {
    Lower(provider) == "azure" || Lower(provider) == "aws" || Lower(provider) == "gcp"
  }

  /** The block of the provider in use must be there and name a machine type. */
  predicate ProviderConfigured(np: NodePool) {
    var provider := Normalize(np.provider);
    && (provider == "azure" ==> np.azure.Some? && np.azure.value.kind != "")
    && (provider == "aws" ==> np.aws.Some? && np.aws.value.kind != "")
    && (provider == "gcp" ==> np.gcp.Some? && np.gcp.value.kind != "")
  }

  predicate ValidNodePool(np: NodePool) {
    && np.provider != "" && ValidProvider(np.provider)
    && ProviderConfigured(np)
    && ((Normalize(np.providerMode) == "" || Normalize(np.providerMode) == "self-managed") ==> np.taints == 0)
    && (np.deletionPolicy == "" || np.deletionPolicy == DELETE || np.deletionPolicy == RETAIN || np.deletionPolicy == SCALE_TO_ZERO)
  }

  predicate ValidRouting(r: Routing) {
    && (r.header != "" || r.hostname != "" || r.hostnameDomain != "" || r.isDefault || r.capacityUnits.Some?)
    && (r.hostname == "" || r.hostnameDomain == "")
    && (r.capacityUnits.Some? ==> r.capacityUnits.value >= 1)
  }

  predicate Valid(t: Runtime) {
    && t.size != "" && ValidSize(t.size)
    && (t.nodePool.Some? ==> ValidNodePool(t.nodePool.value))
    && (t.routing.Some? ==> ValidRouting(t.routing.value))
    && t.otherChecksPass
  }

  predicate HasBreakGlass(t: Runtime) {
    t.breakGlass == Some("true")
  }

  /* ---- comparisons ---- */

  predicate NodePoolPresenceChanged(before: Runtime, after: Runtime) {
    before.nodePool.None? != after.nodePool.None?
  }

  predicate NodePoolIdentityChanged(before: Runtime, after: Runtime) {
    if before.nodePool.None? && after.nodePool.None? then false
    else if before.nodePool.None? || after.nodePool.None? then true
    else
      var a, b := before.nodePool.value, after.nodePool.value;
      Normalize(a.provider) != Normalize(b.provider) || a.name != b.name || a.clusterName != b.clusterName
  }

  predicate BlockChanged(a: Option<Machine>, b: Option<Machine>) {
    a.Some? && b.Some? && (a.value.kind != b.value.kind || a.value.disk != b.value.disk)
  }

  predicate NodePoolShapeChanged(before: Runtime, after: Runtime) {
    if before.nodePool.None? || after.nodePool.None? then false
    else
      var a, b := before.nodePool.value, after.nodePool.value;
      if a.osDiskGB != b.osDiskGB then true
      else if a.spot != b.spot then true
      else
        var provider := Normalize(b.provider);
        if provider == "azure" then BlockChanged(a.azure, b.azure)
        else if provider == "aws" then BlockChanged(a.aws, b.aws)
        else if provider == "gcp" then BlockChanged(a.gcp, b.gcp)
        else false
  }

  function EffectivePolicy(np: NodePool): string {
    if np.deletionPolicy == "" then DELETE else np.deletionPolicy
  }

  predicate PolicyBecomesDelete(before: Runtime, after: Runtime) {
    && before.nodePool.Some? && after.nodePool.Some?
    && EffectivePolicy(before.nodePool.value) != DELETE && EffectivePolicy(after.nodePool.value) == DELETE
  }

  predicate RoutingPresenceChanged(before: Runtime, after: Runtime) {
    before.routing.None? != after.routing.None?
  }

  predicate RoutingIdentityChanged(before: Runtime, after: Runtime) {
    if before.routing.None? && after.routing.None? then false
    else if before.routing.None? || after.routing.None? then true
    else
      var a, b := before.routing.value, after.routing.value;
      a.group != b.group || a.hostname != b.hostname || a.hostnameDomain != b.hostnameDomain
      || a.header != b.header || a.isDefault != b.isDefault
  }

  /* ---- the update decision ---- */

  /** What the checks record while they run. Warnings are not part of the model. */
  class UpdateContext {
    const breakGlassEnabled: bool
    var breakGlassReq: set<string>

    constructor (t: Runtime)
      ensures breakGlassEnabled == HasBreakGlass(t) && breakGlassReq == {}
    {
      breakGlassEnabled, breakGlassReq := HasBreakGlass(t), {};
    }

    method RequireBreakGlass(reason: string)
      modifies this
      ensures breakGlassReq == old(breakGlassReq) + {reason}
    {
      breakGlassReq := breakGlassReq + {reason};
    }

    method CheckSizeChange(before: Runtime, after: Runtime)
      modifies this
      ensures breakGlassReq == old(breakGlassReq) + SizeReasons(before, after)
    {
      if before.size == after.size {
        return;
      }
      if SizeOrder(after.size) < SizeOrder(before.size) {
        RequireBreakGlass("spec.size (downgrade)");
      }
    }

    method CheckNodePoolChanges(before: Runtime, after: Runtime)
      modifies this
      ensures breakGlassReq == old(breakGlassReq) + NodePoolReasons(before, after)
    {
      if NodePoolPresenceChanged(before, after) {
        RequireBreakGlass("spec.nodePool (presence)");
      }
      if NodePoolIdentityChanged(before, after) {
        RequireBreakGlass("spec.nodePool identity");
      }
      if NodePoolShapeChanged(before, after) {
        RequireBreakGlass("spec.nodePool shape");
      }
      CheckDeletionPolicy(before, after);
    }

    method CheckDeletionPolicy(before: Runtime, after: Runtime)
      modifies this
      ensures breakGlassReq == old(breakGlassReq) + Reason(PolicyBecomesDelete(before, after), "spec.nodePool.deletionPolicy")
    {
      if before.nodePool.Some? && after.nodePool.Some? {
        var oldPolicy, newPolicy := EffectivePolicy(before.nodePool.value), EffectivePolicy(after.nodePool.value);
        if oldPolicy != newPolicy && oldPolicy != DELETE && newPolicy == DELETE {
          RequireBreakGlass("spec.nodePool.deletionPolicy");
        }
      }
    }

    method CheckRoutingChanges(before: Runtime, after: Runtime)
      modifies this
      ensures breakGlassReq == old(breakGlassReq) + RoutingReasons(before, after)
    {
      if RoutingPresenceChanged(before, after) {
        RequireBreakGlass("spec.routing (presence)");
      }
      if RoutingIdentityChanged(before, after) {
        RequireBreakGlass("spec.routing identity");
      }
    }
  }

  function Reason(changed: bool, reason: string): set<string> {
    if changed then {reason} else {}
  }

  function SizeReasons(before: Runtime, after: Runtime): set<string> {
    Reason(SizeOrder(after.size) < SizeOrder(before.size), "spec.size (downgrade)")
  }

  function NodePoolReasons(before: Runtime, after: Runtime): set<string> {
    Reason(NodePoolPresenceChanged(before, after), "spec.nodePool (presence)")
    + Reason(NodePoolIdentityChanged(before, after), "spec.nodePool identity")
    + Reason(NodePoolShapeChanged(before, after), "spec.nodePool shape")
    + Reason(PolicyBecomesDelete(before, after), "spec.nodePool.deletionPolicy")
  }

  function RoutingReasons(before: Runtime, after: Runtime): set<string> {
    Reason(RoutingPresenceChanged(before, after), "spec.routing (presence)")
    + Reason(RoutingIdentityChanged(before, after), "spec.routing identity")
  }

  predicate NeedsBreakGlass(before: Runtime, after: Runtime) {
    SizeReasons(before, after) + NodePoolReasons(before, after) + RoutingReasons(before, after) != {}
  }

  predicate Accepts(before: Runtime, after: Runtime) {
    Valid(after) && (NeedsBreakGlass(before, after) ==> HasBreakGlass(after))
  }

  method ValidateUpdate(before: Runtime, after: Runtime) returns (accepted: bool)
    ensures accepted == Accepts(before, after)
  {
    if !Valid(after) {
      return false;
    }
    var c := new UpdateContext(after);
    c.CheckSizeChange(before, after);
    c.CheckNodePoolChanges(before, after);
    c.CheckRoutingChanges(before, after);
    accepted := c.breakGlassReq == {} || c.breakGlassEnabled;
  }

  /* ---- what is kept ---- */

  /** The block of the provider in use. */
  function Block(np: NodePool): Option<Machine> {
    var provider := Normalize(np.provider);
    if provider == "azure" then np.azure else if provider == "aws" then np.aws
    else if provider == "gcp" then np.gcp else None
  }

  /** Its machine type and disk type. */
  function MachineShape(np: NodePool): Option<(string, string)> {
    var block := Block(np);
    if block.Some? then Some((block.value.kind, block.value.disk)) else None
  }

  predicate SameOutsideBlock(a: NodePool, b: NodePool) {
    && Normalize(a.provider) == Normalize(b.provider) && a.name == b.name && a.clusterName == b.clusterName
    && a.osDiskGB == b.osDiskGB && a.spot == b.spot
  }

  predicate SamePool(a: NodePool, b: NodePool) {
    SameOutsideBlock(a, b) && MachineShape(a) == MachineShape(b)
  }

  predicate PoolKept(a: Option<NodePool>, b: Option<NodePool>) {
    && a.Some? == b.Some?
    && (a.Some? ==>
          && SamePool(a.value, b.value)
          && (EffectivePolicy(b.value) == DELETE ==> EffectivePolicy(a.value) == DELETE))
  }

  predicate SameRoute(a: Routing, b: Routing) {
    a == b.(capacityUnits := a.capacityUnits)
  }

  /** Size order does not fall; pool and route stay what they were; a pool that is kept is not given up to deletion. */
  predicate Keeps(a: Runtime, b: Runtime) {
    && SizeOrder(a.size) <= SizeOrder(b.size)
    && PoolKept(a.nodePool, b.nodePool)
    && a.routing.Some? == b.routing.Some?
    && (a.routing.Some? ==> SameRoute(a.routing.value, b.routing.value))
  }

  /** Between two valid objects, break-glass is needed exactly when something would not be kept. */
  lemma BreakGlassIffNotKept(a: Runtime, b: Runtime)
    requires Valid(a) && Valid(b)
    ensures NeedsBreakGlass(a, b) <==> !Keeps(a, b)
  {
    NodePoolReasonsIffNotKept(a, b);
    RoutingReasonsIffNotKept(a, b);
    UnionEmpty(SizeReasons(a, b) + NodePoolReasons(a, b), RoutingReasons(a, b));
    UnionEmpty(SizeReasons(a, b), NodePoolReasons(a, b));
  }

  lemma UnionEmpty(x: set<string>, y: set<string>)
    ensures x + y == {} <==> x == {} && y == {}
  {
    assert x <= x + y && y <= x + y;
  }

  lemma NodePoolReasonsIffNotKept(a: Runtime, b: Runtime)
    requires a.nodePool.Some? ==> ProviderConfigured(a.nodePool.value)
    requires b.nodePool.Some? ==> ProviderConfigured(b.nodePool.value)
    ensures NodePoolReasons(a, b) != {} <==> !PoolKept(a.nodePool, b.nodePool)
  {
    assert NodePoolReasons(a, b) == {} <==>
      !NodePoolPresenceChanged(a, b) && !NodePoolIdentityChanged(a, b) && !NodePoolShapeChanged(a, b) && !PolicyBecomesDelete(a, b)
    by {
      var r := NodePoolReasons(a, b);
      assert NodePoolPresenceChanged(a, b) ==> "spec.nodePool (presence)" in r;
      assert NodePoolIdentityChanged(a, b) ==> "spec.nodePool identity" in r;
      assert NodePoolShapeChanged(a, b) ==> "spec.nodePool shape" in r;
      assert PolicyBecomesDelete(a, b) ==> "spec.nodePool.deletionPolicy" in r;
    }
    if a.nodePool.Some? && b.nodePool.Some? && Normalize(a.nodePool.value.provider) == Normalize(b.nodePool.value.provider) {
      ShapeChangedIff(a, b);
      ConfiguredBlocks(a.nodePool.value, b.nodePool.value);
    }
  }

  lemma ConfiguredBlocks(a: NodePool, b: NodePool)
    requires ProviderConfigured(a) && ProviderConfigured(b) && Normalize(a.provider) == Normalize(b.provider)
    ensures Block(a).Some? == Block(b).Some?
  {
  }

  predicate ShapeDiffers(a: NodePool, b: NodePool) {
    a.osDiskGB != b.osDiskGB || a.spot != b.spot || MachineShape(a) != MachineShape(b)
  }

  /** The comparison agrees with the shape exactly when disk or spot differ, or the block is on both sides or on neither. */
  lemma ShapeChangedIff(a: Runtime, b: Runtime)
    requires a.nodePool.Some? && b.nodePool.Some?
    requires Normalize(a.nodePool.value.provider) == Normalize(b.nodePool.value.provider)
    ensures var p, q := a.nodePool.value, b.nodePool.value;
            (NodePoolShapeChanged(a, b) <==> ShapeDiffers(p, q))
            <==> p.osDiskGB != q.osDiskGB || p.spot != q.spot || Block(p).Some? == Block(q).Some?
  {
    var p, q := a.nodePool.value, b.nodePool.value;
    if p.osDiskGB == q.osDiskGB && p.spot == q.spot {
      ComparisonIsOfBlocks(a, b);
      BlocksCompared(Block(p), Block(q));
    }
  }

  lemma ComparisonIsOfBlocks(a: Runtime, b: Runtime)
    requires a.nodePool.Some? && b.nodePool.Some?
    requires Normalize(a.nodePool.value.provider) == Normalize(b.nodePool.value.provider)
    requires a.nodePool.value.osDiskGB == b.nodePool.value.osDiskGB && a.nodePool.value.spot == b.nodePool.value.spot
    ensures NodePoolShapeChanged(a, b) <==> BlockChanged(Block(a.nodePool.value), Block(b.nodePool.value))
  {
  }

  lemma BlocksCompared(p: Option<Machine>, q: Option<Machine>)
    ensures BlockChanged(p, q) ==> p.Some? && q.Some?
    ensures p.Some? && q.Some? ==> (BlockChanged(p, q) <==> (p.value.kind, p.value.disk) != (q.value.kind, q.value.disk))
  {
  }

  lemma RoutingReasonsIffNotKept(a: Runtime, b: Runtime)
    ensures RoutingReasons(a, b) != {} <==>
            !(a.routing.Some? == b.routing.Some? && (a.routing.Some? ==> SameRoute(a.routing.value, b.routing.value)))
  {
    var r := RoutingReasons(a, b);
    assert RoutingPresenceChanged(a, b) ==> "spec.routing (presence)" in r;
    assert RoutingIdentityChanged(a, b) ==> "spec.routing identity" in r;
  }

  lemma KeepsTransitive(a: Runtime, b: Runtime, c: Runtime)
    requires Keeps(a, b) && Keeps(b, c)
    ensures Keeps(a, c)
  {
  }

  /** An object as it was created and then updated, every step accepted. */
  predicate AcceptedHistory(h: seq<Runtime>) {
    && (h != [] ==> Valid(h[0]))
    && forall i :: 0 < i < |h| ==> Accepts(h[i - 1], h[i])
  }

  /** Along every accepted history without break-glass, what must be kept is kept from any point to any later one. */
  lemma {:induction false} HistoryKeeps(h: seq<Runtime>, i: nat, j: nat)
    requires AcceptedHistory(h) && i <= j < |h|
    requires forall k :: 0 <= k < |h| ==> !HasBreakGlass(h[k])
    ensures Keeps(h[i], h[j])
  {
    if i < j {
      HistoryKeeps(h, i, j - 1);
      HistoryValid(h, j - 1);
      HistoryValid(h, j);
      assert Accepts(h[j - 1], h[j]);
      BreakGlassIffNotKept(h[j - 1], h[j]);
      KeepsTransitive(h[i], h[j - 1], h[j]);
    }
  }

  lemma HistoryValid(h: seq<Runtime>, k: nat)
    requires AcceptedHistory(h) && k < |h|
    ensures Valid(h[k])
  {
    if k > 0 { assert Accepts(h[k - 1], h[k]); }
  }

  /**
   A block that is missing on one side only hides the change of machine, for every provider that has blocks:
   the update rules ask for nothing, the pool is not kept, and one of the two pools is not valid.
   */
  lemma MissingBlockHidesShape(a: Runtime, b: Runtime)
    requires a.nodePool.Some? && b.nodePool.Some? && SameOutsideBlock(a.nodePool.value, b.nodePool.value)
    requires Block(a.nodePool.value).Some? != Block(b.nodePool.value).Some?
    ensures !NodePoolShapeChanged(a, b) && !NodePoolIdentityChanged(a, b) && !NodePoolPresenceChanged(a, b)
    ensures !PoolKept(a.nodePool, b.nodePool)
    ensures !Valid(a) || !Valid(b)
  {
    ComparisonIsOfBlocks(a, b);
    if Valid(a) && Valid(b) {
      ConfiguredBlocks(a.nodePool.value, b.nodePool.value);
      assert false;
    }
  }
}
