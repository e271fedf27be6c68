/** Namespace guardrails: a quota large enough for every runtime's rolling update at once. */
module Guardrails {

  import opened Options
  import opened Sums

  /** How many extra pods a rolling update may start; `Invalid` is a text that is neither form. */
  datatype Surge = Count(n: int) | Percent(p: int) | Invalid

  /** Limits in billionths of a core or byte. */
  datatype Limits = Limits(cpu: int, memory: int)

  datatype Shape = Shape(coordinator: Limits, worker: Limits, workerRequests: Limits, quotaWorkers: int)

  /** `shape` is absent when it cannot be resolved; `surge` is absent when none is configured. */
  datatype Runtime = Runtime(name: string, deleting: bool, surge: Option<Surge>, shape: Option<Shape>)

  datatype Dim = Cpu | Memory

  const MAX_INT32: int := 0x7fff_ffff
  const BILLION: int := 1_000_000_000

  function Wrap32(x: int): (r: int)
    ensures -MAX_INT32 - 1 <= r <= MAX_INT32
    ensures -MAX_INT32 - 1 <= x <= MAX_INT32 ==> r == x
    ensures MAX_INT32 < x <= 2 * MAX_INT32 ==> r == x - 0x1_0000_0000
  {
    (x + MAX_INT32 + 1) % 0x1_0000_0000 - MAX_INT32 - 1
  }

  function Wrap64(x: int): (r: int)
    ensures -0x8000_0000_0000_0000 <= r < 0x8000_0000_0000_0000
    ensures -0x8000_0000_0000_0000 <= x < 0x8000_0000_0000_0000 ==> r == x
  {
    (x + 0x8000_0000_0000_0000) % 0x1_0000_0000_0000_0000 - 0x8000_0000_0000_0000
  }

  function CeilDiv(a: int, b: int): (q: int)
    requires b > 0
    ensures q * b >= a && (q - 1) * b < a
  {
    -((-a) / b)
  }

  /* ---- surge ---- */

  /** The scaled surge, a percentage rounded up, before any clamping. */
  function Scaled(s: Surge, replicas: int): Option<int> {
    match s
    case Count(n) => Some(n)
    case Percent(p) => Some(CeilDiv(p * replicas, 100))
    case Invalid => None
  }

  function MaxSurge(r: Runtime): Surge {
    if r.surge.Some? then r.surge.value else Percent(25)
  }

  function SurgeReplicas(s: Surge, replicas: int): int {
    if replicas <= 0 then 0
    else
      match Scaled(s, replicas)
      case None => 0
      case Some(v) => if v < 0 then 0 else if v > MAX_INT32 then MAX_INT32 else v
  }

  /** Pods alive at the peak of a rolling update of `replicas` pods. */
  function PeakPods(s: Surge, replicas: int): int {
    replicas + SurgeReplicas(s, replicas)
  }

  lemma ProductsOrdered(p: int, a: int, b: int)
    requires 0 <= p && a <= b
    ensures p * a <= p * b
  {
    assert p * b - p * a == p * (b - a);
  }

  /** Fewer replicas never peak higher. */
  lemma PeakMonotone(s: Surge, few: int, many: int)
    requires 0 <= few <= many
    ensures PeakPods(s, few) <= PeakPods(s, many)
  {
    if s.Percent? && s.p >= 0 {
      ProductsOrdered(s.p, few, many);
      var a, b := CeilDiv(s.p * few, 100), CeilDiv(s.p * many, 100);
      assert a <= b;
    } else if s.Percent? && few > 0 {
      ProductsOrdered(-s.p, 1, few);
      assert CeilDiv(s.p * few, 100) <= 0;
      ProductsOrdered(-s.p, 1, many);
      assert CeilDiv(s.p * many, 100) <= 0;
    }
  }

  /* ---- what a rolling update may do ---- */

  /**
   How many pods beyond `replicas` a rolling update may have: none for nothing to roll, at most the count of a count,
   and for a percentage, 25 without a policy, less than one above the exact share.
   */
  predicate LegalExtra(policy: Option<Surge>, replicas: int, extra: int) {
    extra == 0 || (
      && 0 < extra && 0 < replicas
      && match policy
         case None => 100 * (extra - 1) < 25 * replicas
         case Some(Count(n)) => extra <= n
         case Some(Percent(p)) => 100 * (extra - 1) < p * replicas
         case Some(Invalid) => false)
  }

  /** A percentage is rounded up: its surge is the least number of pods that is no less than the exact share. */
  lemma PercentSurgeIsLeast(p: int, replicas: int, other: int)
    requires 0 < replicas && 0 <= p && SurgeReplicas(Percent(p), replicas) < MAX_INT32
    ensures 100 * SurgeReplicas(Percent(p), replicas) >= p * replicas
    ensures 100 * other >= p * replicas ==> SurgeReplicas(Percent(p), replicas) <= other
  {
    ProductsOrdered(p, 0, replicas);
  }

  /** The surge counted is legal, and short of the 32-bit limit no legal one is larger. */
  lemma SurgeIsLargestLegal(r: Runtime, replicas: int, extra: int)
    ensures LegalExtra(r.surge, replicas, SurgeReplicas(MaxSurge(r), replicas))
    ensures LegalExtra(r.surge, replicas, extra) && SurgeReplicas(MaxSurge(r), replicas) < MAX_INT32 ==>
              extra <= SurgeReplicas(MaxSurge(r), replicas)
  {
  }

  /* ---- one runtime's share ---- */

  function Of(l: Limits, d: Dim): int {
    if d.Cpu? then l.cpu else l.memory
  }

  /** CPU is counted in thousandths, memory in whole bytes, each rounded up. */
  function Unit(d: Dim): (u: int)
    ensures u > 0
  {
    if d.Cpu? then 1_000_000 else BILLION
  }

  function Times(pods: int, limit: int, d: Dim): int {
    Wrap64(pods * CeilDiv(limit, Unit(d))) * Unit(d)
  }

  function CoordinatorPods(r: Runtime): int {
    Wrap32(1 + SurgeReplicas(MaxSurge(r), 1))
  }

  function WorkerPods(r: Runtime): int
    requires r.shape.Some?
  {
    Wrap32(r.shape.value.quotaWorkers + SurgeReplicas(MaxSurge(r), r.shape.value.quotaWorkers))
  }

  function Share(r: Runtime, d: Dim): int
    requires r.shape.Some?
  {
    Times(CoordinatorPods(r), Of(r.shape.value.coordinator, d), d) + Times(WorkerPods(r), Of(r.shape.value.worker, d), d)
  }

  method ShapeQuotaLimits(r: Runtime) returns (cpu: int, memory: int)
    requires r.shape.Some?
    ensures cpu == Share(r, Cpu) && memory == Share(r, Memory)
  {
    var shape := r.shape.value;
    var coordinatorPods := Wrap32(1 + SurgeReplicas(MaxSurge(r), 1));
    var workerPods := Wrap32(shape.quotaWorkers + SurgeReplicas(MaxSurge(r), shape.quotaWorkers));
    cpu := Times(coordinatorPods, shape.coordinator.cpu, Cpu);
    cpu := cpu + Times(workerPods, shape.worker.cpu, Cpu);
    memory := Times(coordinatorPods, shape.coordinator.memory, Memory);
    memory := memory + Times(workerPods, shape.worker.memory, Memory);
  }

  /* ---- the runtimes that count ---- */

  function Live(list: seq<Runtime>): seq<Runtime> {
    if list == [] then []
    else Live(list[..|list| - 1]) + (if list[|list| - 1].deleting then [] else [list[|list| - 1]])
  }

  predicate Named(list: seq<Runtime>, name: string) {
    exists i :: 0 <= i < |list| && list[i].name == name
  }

  /** The live runtimes of the listing, and the current one if the listing does not have it yet. */
  function Counted(list: seq<Runtime>, current: Runtime): seq<Runtime> {
    Live(list) + (if !Named(Live(list), current.name) && !current.deleting then [current] else [])
  }

  method ListNamespaceRuntimes(list: seq<Runtime>, current: Runtime) returns (runtimes: seq<Runtime>)
    ensures runtimes == Counted(list, current)
  {
    runtimes := [];
    var seen: set<string> := {};
    for i := 0 to |list|
      invariant runtimes == Live(list[..i])
      invariant forall name :: name in seen <==> Named(runtimes, name)
    {
      assert list[..i + 1][..i] == list[..i];
      if list[i].deleting {
        continue;
      }
      ghost var before := runtimes;
      seen := seen + {list[i].name};
      runtimes := runtimes + [list[i]];
      forall name ensures name in seen <==> Named(runtimes, name) {
        assert runtimes[|before|].name == list[i].name;
        if Named(before, name) {
          var j :| 0 <= j < |before| && before[j].name == name;
          assert runtimes[j].name == name;
        }
      }
    }
    assert list[..|list|] == list;
    if current.name !in seen && !current.deleting {
      runtimes := runtimes + [current];
    }
  }

  predicate Resolved(rs: seq<Runtime>) {
    forall i :: 0 <= i < |rs| ==> rs[i].shape.Some?
  }

  /** The share of a runtime whose shape resolves; the others are never summed. */
  function ShareIn(d: Dim): Runtime -> int {
    (r: Runtime) => if r.shape.Some? then Share(r, d) else 0
  }

  function Total(rs: seq<Runtime>, d: Dim): int {
    SumBy(rs, ShareIn(d))
  }

  datatype Quota = Quota(cpu: int, memory: int, requests: Limits, limits: Limits, runtimes: nat)

  /** The four defaults recorded for containers that set none of their own. */
  datatype Default = RequestCpu | RequestMemory | LimitCpu | LimitMemory

  function Amount(s: Shape, w: Default): int {
    match w
    case RequestCpu => s.workerRequests.cpu
    case RequestMemory => s.workerRequests.memory
    case LimitCpu => s.worker.cpu
    case LimitMemory => s.worker.memory
  }

  function Recorded(q: Quota, w: Default): int {
    match w
    case RequestCpu => q.requests.cpu
    case RequestMemory => q.requests.memory
    case LimitCpu => q.limits.cpu
    case LimitMemory => q.limits.memory
  }

  /** `m` is the largest of the amounts and at least zero, the empty quantity the fold starts from. */
  predicate Largest(m: int, rs: seq<Runtime>, w: Default)
    requires Resolved(rs)
  {
    && m >= 0
    && (forall i :: 0 <= i < |rs| ==> Amount(rs[i].shape.value, w) <= m)
    && (m == 0 || exists i :: 0 <= i < |rs| && Amount(rs[i].shape.value, w) == m)
  }

  ghost predicate Summarises(q: Quota, rs: seq<Runtime>) {
    && Resolved(rs)
    && q.cpu == Total(rs, Cpu) && q.memory == Total(rs, Memory)
    && q.runtimes == |rs|
    && forall w :: Largest(Recorded(q, w), rs, w)
  }

  function MaxQuantity(current: int, candidate: int): (m: int)
    ensures m >= current && m >= candidate && (m == current || m == candidate)
  {
    if current >= candidate then current else candidate
  }

  lemma LargestStep(m: int, rs: seq<Runtime>, r: Runtime, w: Default)
    requires Resolved(rs) && r.shape.Some? && Largest(m, rs, w)
    ensures Largest(MaxQuantity(m, Amount(r.shape.value, w)), rs + [r], w)
  {
    var all := rs + [r];
    assert all[|rs|] == r;
    if i :| 0 <= i < |rs| && Amount(rs[i].shape.value, w) == m {
      assert all[i] == rs[i];
    }
  }

  /** The quota is the sum of all shares, the defaults the maxima; one unresolvable runtime fails the whole. */
  method CalculateLimits(list: seq<Runtime>, current: Runtime) returns (q: Option<Quota>)
    ensures q.None? <==> !Resolved(Counted(list, current))
    ensures q.Some? ==> Summarises(q.value, Counted(list, current))
  {
    var rs := ListNamespaceRuntimes(list, current);
    var sum := Quota(0, 0, Limits(0, 0), Limits(0, 0), 0);
    for i := 0 to |rs|
      invariant Summarises(sum, rs[..i])
    {
      if rs[i].shape.None? {
        return None;
      }
      var cpu, memory := ShapeQuotaLimits(rs[i]);
      var next := AddRuntime(sum, rs[i], cpu, memory);
      AddedRuntime(sum, rs[..i], rs[i]);
      assert rs[..i + 1] == rs[..i] + [rs[i]];
      sum := next;
    }
    assert rs[..|rs|] == rs;
    q := Some(sum);
  }

  function AddRuntime(q: Quota, r: Runtime, cpu: int, memory: int): Quota
    requires r.shape.Some?
  {
    var shape := r.shape.value;
    Quota(q.cpu + cpu, q.memory + memory,
          Limits(MaxQuantity(q.requests.cpu, shape.workerRequests.cpu),
                 MaxQuantity(q.requests.memory, shape.workerRequests.memory)),
          Limits(MaxQuantity(q.limits.cpu, shape.worker.cpu),
                 MaxQuantity(q.limits.memory, shape.worker.memory)),
          q.runtimes + 1)
  }

  lemma AddedRuntime(q: Quota, rs: seq<Runtime>, r: Runtime)
    requires Summarises(q, rs) && r.shape.Some?
    ensures Summarises(AddRuntime(q, r, Share(r, Cpu), Share(r, Memory)), rs + [r])
  {
    var next := AddRuntime(q, r, Share(r, Cpu), Share(r, Memory));
    assert (rs + [r])[..|rs|] == rs;
    TotalStep(rs, r, Cpu);
    TotalStep(rs, r, Memory);
    forall w ensures Largest(Recorded(next, w), rs + [r], w) {
      LargestStep(Recorded(q, w), rs, r, w);
    }
  }

  lemma TotalStep(rs: seq<Runtime>, r: Runtime, d: Dim)
    requires r.shape.Some?
    ensures Total(rs + [r], d) == Total(rs, d) + Share(r, d)
  {
    assert (rs + [r])[..|rs|] == rs;
  }

  /* ---- theorems ---- */

  lemma SameElementsResolved(a: seq<Runtime>, b: seq<Runtime>)
    requires Resolved(a) && multiset(b) <= multiset(a)
    ensures Resolved(b)
  {
    forall i | 0 <= i < |b| ensures b[i].shape.Some? {
      assert b[i] in multiset(b);
      assert b[i] in multiset(a);
      var j :| 0 <= j < |a| && a[j] == b[i];
    }
  }

  lemma {:induction false} LiveKeepsMultiset(list: seq<Runtime>, r: Runtime)
    ensures multiset(Live(list))[r] == if r.deleting then 0 else multiset(list)[r]
  {
    if list != [] {
      var init, last := list[..|list| - 1], list[|list| - 1];
      LiveKeepsMultiset(init, r);
      assert list == init + [last];
      assert multiset(list) == multiset(init) + multiset{last};
      assert multiset(Live(list)) == multiset(Live(init)) + if last.deleting then multiset{} else multiset{last};
    }
  }

  lemma SameMultisetSameNames(a: seq<Runtime>, b: seq<Runtime>, name: string)
    requires multiset(a) == multiset(b)
    ensures Named(a, name) ==> Named(b, name)
  {
    if Named(a, name) {
      var i :| 0 <= i < |a| && a[i].name == name;
      assert a[i] in multiset(a);
      assert a[i] in multiset(b);
      var j :| 0 <= j < |b| && b[j] == a[i];
    }
  }

  /** Two listings of the same runtimes, in any order, give the same quota. */
  lemma QuotaOrderFree(a: seq<Runtime>, b: seq<Runtime>, current: Runtime, d: Dim)
    requires multiset(a) == multiset(b) && Resolved(Counted(a, current))
    ensures Resolved(Counted(b, current)) && Total(Counted(a, current), d) == Total(Counted(b, current), d)
  {
    assert multiset(Live(a)) == multiset(Live(b)) by {
      forall r ensures multiset(Live(a))[r] == multiset(Live(b))[r] {
        LiveKeepsMultiset(a, r);
        LiveKeepsMultiset(b, r);
      }
    }
    SameMultisetSameNames(Live(a), Live(b), current.name);
    SameMultisetSameNames(Live(b), Live(a), current.name);
    SumOrderFree(Counted(a, current), Counted(b, current), ShareIn(d));
    SameElementsResolved(Counted(a, current), Counted(b, current));
  }

  lemma LiveWithout(list: seq<Runtime>, k: nat)
    requires k < |list| && !list[k].deleting
    ensures multiset(Live(list)) == multiset(Live(list[k := list[k].(deleting := true)])) + multiset{list[k]}
  {
    var gone := list[k := list[k].(deleting := true)];
    forall r ensures multiset(Live(list))[r] == (multiset(Live(gone)) + multiset{list[k]})[r] {
      LiveKeepsMultiset(list, r);
      LiveKeepsMultiset(gone, r);
    }
  }

  predicate DistinctNames(list: seq<Runtime>) {
    forall i, j :: 0 <= i < j < |list| ==> list[i].name != list[j].name
  }

  /** A live runtime of a given name among live entries is the only one of that name. */
  lemma NamesAfterDeletion(list: seq<Runtime>, k: nat, name: string)
    requires k < |list| && !list[k].deleting && DistinctNames(list)
    ensures var gone := list[k := list[k].(deleting := true)];
            Named(Live(gone), name) <==> Named(Live(list), name) && name != list[k].name
  {
    var gone := list[k := list[k].(deleting := true)];
    LiveNames(list, name);
    LiveNames(gone, name);
    if i :| 0 <= i < |list| && !list[i].deleting && list[i].name == name && i != k {
      assert !gone[i].deleting && gone[i].name == name;
      assert i < k || k < i;
    }
  }

  lemma {:induction false} LiveNames(list: seq<Runtime>, name: string)
    ensures Named(Live(list), name) <==> exists i :: 0 <= i < |list| && !list[i].deleting && list[i].name == name
  {
    if list != [] {
      var init, last := list[..|list| - 1], list[|list| - 1];
      LiveNames(init, name);
      if Named(Live(init), name) {
        var j :| 0 <= j < |Live(init)| && Live(init)[j].name == name;
        assert Live(list)[j].name == name;
        var i :| 0 <= i < |init| && !init[i].deleting && init[i].name == name;
        assert list[i] == init[i];
      }
      if i :| 0 <= i < |list| && !list[i].deleting && list[i].name == name {
        if i < |init| { assert init[i] == list[i]; } else { assert Live(list)[|Live(init)|].name == name; }
      }
      if Named(Live(list), name) {
        var j :| 0 <= j < |Live(list)| && Live(list)[j].name == name;
        if j < |Live(init)| { assert Live(init)[j].name == name; } else { assert list[|list| - 1].name == name; }
      }
    }
  }

  lemma CountedWithout(list: seq<Runtime>, k: nat, current: Runtime, current': Runtime)
    requires k < |list| && !list[k].deleting && DistinctNames(list)
    requires current' == if current.name == list[k].name then current.(deleting := true) else current
    ensures multiset(Counted(list, current))
         == multiset(Counted(list[k := list[k].(deleting := true)], current')) + multiset{list[k]}
  {
    LiveWithout(list, k);
    NamesAfterDeletion(list, k, current.name);
    LiveNames(list, list[k].name);
  }

  /**
   When a runtime goes into deletion, the quota drops by exactly its share: for the pass that deletes it
   (`current` is that runtime, already marked), and for a pass of any other runtime.
   */
  lemma DeletionDropsShare(list: seq<Runtime>, k: nat, current: Runtime, current': Runtime, d: Dim)
    requires k < |list| && !list[k].deleting && DistinctNames(list) && Resolved(Counted(list, current))
    requires current' == if current.name == list[k].name then current.(deleting := true) else current
    ensures list[k].shape.Some?
    ensures var gone := list[k := list[k].(deleting := true)];
            && Resolved(Counted(gone, current'))
            && Total(Counted(gone, current'), d) == Total(Counted(list, current), d) - Share(list[k], d)
  {
    var gone := list[k := list[k].(deleting := true)];
    CountedWithout(list, k, current, current');
    var rs, rs' := Counted(list, current), Counted(gone, current');
    assert list[k] in multiset(rs);
    SumOneMore(rs, rs', list[k], ShareIn(d));
    SameElementsResolved(rs, rs');
  }

  /* ---- does a share cover the peak? ---- */

  /** What a limit counts for: rounded up to whole units. */
  function Rounded(limit: int, d: Dim): (r: int)
    ensures r >= limit
    ensures limit % Unit(d) == 0 ==> r == limit
  {
    CeilDiv(limit, Unit(d)) * Unit(d)
  }

  /** What one runtime uses at the peak of rolling updates, with pods counted at the given limits. */
  function Use(r: Runtime, coordinators: int, workers: int, coordinator: int, worker: int): int {
    PeakPods(MaxSurge(r), coordinators) * coordinator + PeakPods(MaxSurge(r), workers) * worker
  }

  function PeakUse(r: Runtime, coordinators: int, workers: int, d: Dim): int
    requires r.shape.Some?
  {
    Use(r, coordinators, workers, Of(r.shape.value.coordinator, d), Of(r.shape.value.worker, d))
  }

  /** The same with every limit rounded up, as the quota counts it. */
  function RoundedUse(r: Runtime, coordinators: int, workers: int, d: Dim): int
    requires r.shape.Some?
  {
    Use(r, coordinators, workers, Rounded(Of(r.shape.value.coordinator, d), d), Rounded(Of(r.shape.value.worker, d), d))
  }

  /** What the cluster accepts: limits are not negative, the worker count is a 32-bit one. */
  predicate Plausible(r: Runtime, d: Dim) {
    && r.shape.Some? && 0 <= r.shape.value.quotaWorkers <= MAX_INT32
    && Of(r.shape.value.coordinator, d) >= 0 && Of(r.shape.value.worker, d) >= 0
  }

  /** Nothing wraps: there is nothing to count, or the pods fit in 32 bits and their units in 64. */
  predicate TermFits(pods: int, units: int) {
    units == 0 || (pods <= MAX_INT32 && pods * units < 0x8000_0000_0000_0000)
  }

  predicate ShareFits(r: Runtime, d: Dim)
    requires r.shape.Some?
  {
    && TermFits(PeakPods(MaxSurge(r), 1), CeilDiv(Of(r.shape.value.coordinator, d), Unit(d)))
    && TermFits(PeakPods(MaxSurge(r), r.shape.value.quotaWorkers), CeilDiv(Of(r.shape.value.worker, d), Unit(d)))
  }

  lemma WrapsBelow(x: int)
    requires 0 <= x
    ensures Wrap64(x) <= x && (Wrap64(x) == x <==> x < 0x8000_0000_0000_0000)
  {
  }

  /** A pod count too large for 32 bits comes out worth less than the true one, however large the limit. */
  lemma OverflowCostsPods(pods: int, units: int)
    requires MAX_INT32 < pods <= 2 * MAX_INT32 && 0 < units
    ensures Wrap64((pods - 0x1_0000_0000) * units) < pods * units
  {
    if 0x1_0000_0000 <= units {
      ProductsOrdered(units, MAX_INT32 + 1, pods);
      assert pods * units >= 0x8000_0000_0000_0000;
    } else {
      ProductsOrdered(units, -MAX_INT32 - 1, pods - 0x1_0000_0000);
      ProductsOrdered(units, pods - 0x1_0000_0000, -1);
      ProductsOrdered(units, 0, pods);
    }
  }

  lemma WrappedTerm(pods: int, units: int)
    requires 0 <= pods <= 2 * MAX_INT32 && 0 <= units
    ensures Wrap64(Wrap32(pods) * units) <= pods * units
    ensures Wrap64(Wrap32(pods) * units) == pods * units <==> TermFits(pods, units)
  {
    if units == 0 {
      WrapsBelow(0);
    } else if pods <= MAX_INT32 {
      ProductsOrdered(units, 0, pods);
      WrapsBelow(pods * units);
    } else {
      OverflowCostsPods(pods, units);
    }
  }

  lemma UnitsNonNegative(limit: int, d: Dim)
    requires limit >= 0
    ensures CeilDiv(limit, Unit(d)) >= 0
  {
    var c := CeilDiv(limit, Unit(d));
    if c < 0 { ProductsOrdered(Unit(d), c, -1); }
  }

  lemma TermIffFits(pods: int, limit: int, d: Dim)
    requires 0 <= pods <= 2 * MAX_INT32 && 0 <= limit
    ensures Times(Wrap32(pods), limit, d) <= pods * Rounded(limit, d)
    ensures Times(Wrap32(pods), limit, d) == pods * Rounded(limit, d) <==> TermFits(pods, CeilDiv(limit, Unit(d)))
  {
    var c, u := CeilDiv(limit, Unit(d)), Unit(d);
    UnitsNonNegative(limit, d);
    WrappedTerm(pods, c);
    var v := Wrap64(Wrap32(pods) * c);
    assert pods * (c * u) == (pods * c) * u;
    ProductsOrdered(u, v, pods * c);
    if v * u == (pods * c) * u {
      assert (pods * c - v) * u == 0;
    }
  }

  lemma PeakBounds(s: Surge, replicas: int)
    requires 0 <= replicas <= MAX_INT32
    ensures 0 <= replicas <= PeakPods(s, replicas) <= 2 * MAX_INT32
  {
  }

  /** A share never exceeds the rounded peak, and equals it exactly when nothing wraps. */
  lemma ShareIsRoundedPeakIff(r: Runtime, d: Dim)
    requires Plausible(r, d)
    ensures Share(r, d) <= RoundedUse(r, 1, r.shape.value.quotaWorkers, d)
    ensures Share(r, d) == RoundedUse(r, 1, r.shape.value.quotaWorkers, d) <==> ShareFits(r, d)
  {
    var s, quota := MaxSurge(r), r.shape.value.quotaWorkers;
    PeakBounds(s, 1);
    PeakBounds(s, quota);
    TermIffFits(PeakPods(s, 1), Of(r.shape.value.coordinator, d), d);
    TermIffFits(PeakPods(s, quota), Of(r.shape.value.worker, d), d);
  }

  /** Replicas of both Deployments in the middle of rolling updates, and the pods beyond them. */
  datatype Roll = Roll(coordinators: int, coordinatorExtra: int, workers: int, workerExtra: int)

  predicate Legal(r: Runtime, roll: Roll)
    requires r.shape.Some?
  {
    && 0 <= roll.coordinators <= 1 && LegalExtra(r.surge, roll.coordinators, roll.coordinatorExtra)
    && 0 <= roll.workers <= r.shape.value.quotaWorkers && LegalExtra(r.surge, roll.workers, roll.workerExtra)
  }

  function RollUse(roll: Roll, coordinator: int, worker: int): int {
    (roll.coordinators + roll.coordinatorExtra) * coordinator + (roll.workers + roll.workerExtra) * worker
  }

  /** Legal pods never exceed the peak, where the peak fits in 32 bits. */
  lemma LegalPods(r: Runtime, replicas: int, extra: int, most: int)
    requires 0 <= replicas <= most && LegalExtra(r.surge, replicas, extra) && PeakPods(MaxSurge(r), most) <= MAX_INT32
    ensures replicas + extra <= PeakPods(MaxSurge(r), most)
  {
    PeakMonotone(MaxSurge(r), replicas, most);
    SurgeIsLargestLegal(r, replicas, extra);
  }

  /** A legal term: nothing to count, or no more than the peak. */
  lemma LegalTerm(r: Runtime, replicas: int, extra: int, most: int, limit: int)
    requires 0 <= replicas <= most && LegalExtra(r.surge, replicas, extra)
    requires 0 <= limit && (limit > 0 ==> PeakPods(MaxSurge(r), most) <= MAX_INT32)
    ensures (replicas + extra) * limit <= PeakPods(MaxSurge(r), most) * limit
  {
    if limit > 0 {
      LegalPods(r, replicas, extra, most);
      ProductsOrdered(limit, replicas + extra, PeakPods(MaxSurge(r), most));
    }
  }

  /** The roll with the most pods. */
  function PeakRoll(r: Runtime): Roll
    requires r.shape.Some?
  {
    var quota := r.shape.value.quotaWorkers;
    Roll(1, SurgeReplicas(MaxSurge(r), 1), quota, SurgeReplicas(MaxSurge(r), quota))
  }

  lemma PeakRollIsLegal(r: Runtime, c: int, w: int)
    requires r.shape.Some? && 0 <= r.shape.value.quotaWorkers
    ensures Legal(r, PeakRoll(r)) && RollUse(PeakRoll(r), c, w) == Use(r, 1, r.shape.value.quotaWorkers, c, w)
  {
    SurgeIsLargestLegal(r, 1, 0);
    SurgeIsLargestLegal(r, r.shape.value.quotaWorkers, 0);
  }

  /** Nothing wraps, so wherever there is something to count the peak fits in 32 bits. */
  lemma FittingPeaks(r: Runtime, d: Dim)
    requires Plausible(r, d) && ShareFits(r, d)
    ensures Rounded(Of(r.shape.value.coordinator, d), d) > 0 ==> PeakPods(MaxSurge(r), 1) <= MAX_INT32
    ensures Rounded(Of(r.shape.value.worker, d), d) > 0 ==> PeakPods(MaxSurge(r), r.shape.value.quotaWorkers) <= MAX_INT32
  {
  }

  lemma RoundedRollCovered(r: Runtime, roll: Roll, d: Dim)
    requires Plausible(r, d) && ShareFits(r, d) && Legal(r, roll)
    ensures RollUse(roll, Rounded(Of(r.shape.value.coordinator, d), d), Rounded(Of(r.shape.value.worker, d), d)) <= Share(r, d)
  {
    var a, b := Rounded(Of(r.shape.value.coordinator, d), d), Rounded(Of(r.shape.value.worker, d), d);
    ShareIsRoundedPeakIff(r, d);
    FittingPeaks(r, d);
    LegalTerm(r, roll.coordinators, roll.coordinatorExtra, 1, a);
    LegalTerm(r, roll.workers, roll.workerExtra, r.shape.value.quotaWorkers, b);
  }

  /** Every legal roll, with limits rounded up, is covered exactly when nothing wraps. */
  lemma ShareCoversRoundedIff(r: Runtime, d: Dim)
    requires Plausible(r, d)
    ensures var a, b := Rounded(Of(r.shape.value.coordinator, d), d), Rounded(Of(r.shape.value.worker, d), d);
            (forall roll :: Legal(r, roll) ==> RollUse(roll, a, b) <= Share(r, d)) <==> ShareFits(r, d)
  {
    var a, b := Rounded(Of(r.shape.value.coordinator, d), d), Rounded(Of(r.shape.value.worker, d), d);
    ShareIsRoundedPeakIff(r, d);
    PeakRollIsLegal(r, a, b);
    if ShareFits(r, d) {
      forall roll | Legal(r, roll) ensures RollUse(roll, a, b) <= Share(r, d) {
        RoundedRollCovered(r, roll, d);
      }
    }
  }

  predicate WholeUnits(r: Runtime, d: Dim)
    requires r.shape.Some?
  {
    Of(r.shape.value.coordinator, d) % Unit(d) == 0 && Of(r.shape.value.worker, d) % Unit(d) == 0
  }

  /** For limits in whole units (millicores, bytes) the share covers every legal roll exactly when nothing wraps. */
  lemma ShareCoversPeakIff(r: Runtime, d: Dim)
    requires Plausible(r, d) && WholeUnits(r, d)
    ensures (forall roll :: Legal(r, roll) ==>
               RollUse(roll, Of(r.shape.value.coordinator, d), Of(r.shape.value.worker, d)) <= Share(r, d))
       <==> ShareFits(r, d)
  {
    ShareCoversRoundedIff(r, d);
  }

  /** Limits of any precision are covered when nothing wraps. */
  lemma ShareCoversPeak(r: Runtime, roll: Roll, d: Dim)
    requires Plausible(r, d) && ShareFits(r, d) && Legal(r, roll)
    ensures RollUse(roll, Of(r.shape.value.coordinator, d), Of(r.shape.value.worker, d)) <= Share(r, d)
  {
    var c, w := Of(r.shape.value.coordinator, d), Of(r.shape.value.worker, d);
    RoundedRollCovered(r, roll, d);
    ProductsOrdered(roll.coordinators + roll.coordinatorExtra, c, Rounded(c, d));
    ProductsOrdered(roll.workers + roll.workerExtra, w, Rounded(w, d));
  }

  lemma OverflowedTerm(limit: int, d: Dim)
    requires 0 < CeilDiv(limit, Unit(d)) <= 0x1_0000_0000
    ensures Times(-MAX_INT32 - 1, limit, d) < 0
  {
    var units := CeilDiv(limit, Unit(d));
    assert -0x8000_0000_0000_0000 <= (-MAX_INT32 - 1) * units < 0;
    ProductsOrdered(Unit(d), Wrap64((-MAX_INT32 - 1) * units), -1);
  }

  /** A wrapped coordinator count alone makes the share negative: no workers, and a surge of the largest 32-bit number. */
  lemma CoordinatorOverflow(r: Runtime, d: Dim)
    requires Plausible(r, d) && r.surge == Some(Count(MAX_INT32)) && r.shape.value.quotaWorkers == 0
    requires 0 < CeilDiv(Of(r.shape.value.coordinator, d), Unit(d)) <= 0x1_0000_0000
    ensures PeakPods(MaxSurge(r), r.shape.value.quotaWorkers) == 0 && CoordinatorPods(r) == -MAX_INT32 - 1
    ensures Share(r, d) < 0 && !ShareFits(r, d)
  {
    OverflowedTerm(Of(r.shape.value.coordinator, d), d);
    assert WorkerPods(r) == 0;
    assert Times(0, Of(r.shape.value.worker, d), d) == 0;
  }

  /** With limits below one unit, rounding can hide a wrap: one billionth of a core for every pod. */
  lemma RoundingCanHideWrap(name: string, requests: Limits)
    ensures var r := Runtime(name, false, Some(Count(MAX_INT32 - 1)), Some(Shape(Limits(1, 0), Limits(1, 0), requests, MAX_INT32)));
            && Plausible(r, Cpu) && !ShareFits(r, Cpu)
            && PeakUse(r, 1, MAX_INT32, Cpu) <= Share(r, Cpu)
  {
    var r := Runtime(name, false, Some(Count(MAX_INT32 - 1)), Some(Shape(Limits(1, 0), Limits(1, 0), requests, MAX_INT32)));
    assert CeilDiv(1, 1_000_000) == 1;
    assert CoordinatorPods(r) == MAX_INT32 && WorkerPods(r) == -3;
    assert Share(r, Cpu) == (MAX_INT32 - 3) * 1_000_000;
  }

  function TotalUse(rs: seq<Runtime>, rolls: seq<Roll>, d: Dim): int
    requires Resolved(rs) && |rolls| == |rs|
  {
    if rs == [] then 0
    else
      var n, shape := |rs| - 1, rs[|rs| - 1].shape.value;
      TotalUse(rs[..n], rolls[..n], d) + RollUse(rolls[n], Of(shape.coordinator, d), Of(shape.worker, d))
  }

  /**
   The shares cover all runtimes rolling at once, each in any legal roll up to its quota count, as long as the pod
   counts fit in 32 bits and the products in 64.
   */
  lemma {:induction false} SharesCoverSimultaneousPeaks(rs: seq<Runtime>, rolls: seq<Roll>, d: Dim)
    requires Resolved(rs) && |rolls| == |rs|
    requires forall i :: 0 <= i < |rs| ==> Plausible(rs[i], d) && ShareFits(rs[i], d) && Legal(rs[i], rolls[i])
    ensures TotalUse(rs, rolls, d) <= Total(rs, d)
  {
    if rs != [] {
      var n := |rs| - 1;
      SharesCoverSimultaneousPeaks(rs[..n], rolls[..n], d);
      ShareCoversPeak(rs[n], rolls[n], d);
    }
  }

  /** So does the quota `CalculateLimits` returns, in both dimensions. */
  lemma QuotaCoversSimultaneousPeaks(list: seq<Runtime>, current: Runtime, q: Quota, rolls: seq<Roll>)
    requires Summarises(q, Counted(list, current))
    requires var rs := Counted(list, current);
             && |rolls| == |rs|
             && (forall i :: 0 <= i < |rs| ==> Legal(rs[i], rolls[i]))
             && (forall i, d :: 0 <= i < |rs| ==> Plausible(rs[i], d) && ShareFits(rs[i], d))
    ensures TotalUse(Counted(list, current), rolls, Cpu) <= q.cpu
    ensures TotalUse(Counted(list, current), rolls, Memory) <= q.memory
  {
    SharesCoverSimultaneousPeaks(Counted(list, current), rolls, Cpu);
    SharesCoverSimultaneousPeaks(Counted(list, current), rolls, Memory);
  }
}
