/** Suspending a runtime, and the steps it shares with resuming: scaling and node-pool provisioning. */
module Suspend {
  import opened Options
  import opened Model
  import opened Trace
  import opened ApiServer
  import Shutdown

  /** The object in memory may be written as a status right now. */
  ghost predicate Writable(api: Api, x: XTrinode)
    reads api
  {
    api.Valid() && x.created == api.created && StatusAllowed(api.M(), Replace(x.status))
  }

  /** Phase, wake window and activity agree; the rest of the status may differ. */
  predicate SameCore(x: XTrinode, y: XTrinode) {
    y == x.(status := x.status.(other := y.status.other, observedPool := y.status.observedPool))
  }

  /** Setting conditions, the observed shape and the other status fields whose values are outside this model. */
  method SetOther(x: XTrinode) returns (x': XTrinode)
    ensures SameCore(x, x')
  {
    var other: map<string, string> := *;
    var observedPool: Option<string> := *;
    x' := x.(status := x.status.(other := other, observedPool := observedPool));
  }

  /** Setting conditions alone. */
  method SetConditions(x: XTrinode) returns (x': XTrinode)
    ensures SameCore(x, x') && x'.status.observedPool == x.status.observedPool
  {
    var other: map<string, string> := *;
    x' := x.(status := x.status.(other := other));
  }

  /** The last write was to store this status (or its merge with a later activity time). */
  ghost predicate JustStored(api: Api, s: Status)
    reads api
  {
    && |api.writes| > 0
    && api.writes[|api.writes| - 1].StatusWritten?
    && api.writes[|api.writes| - 1].update == Replace(s)
  }

  /** Version `k` is the one before it with the captured status, except that a later activity time is kept. */
  ghost predicate StoredOver(api: Api, captured: Status, k: nat)
    reads api
  {
    && 0 < k < |api.versions|
    && var before, after := api.versions[k - 1], api.versions[k];
       && after == before.(status := after.status)
       && NotLowered(before.status.lastActivity, after.status.lastActivity)
       && after.status == Persist(captured).(lastActivity := after.status.lastActivity)
       && (after.status.lastActivity == before.status.lastActivity
           || after.status.lastActivity == Persist(captured).lastActivity)
  }

  /**
   `updateStatus`. A success stored the captured status on top of version `k - 1`, kept a later activity
   time found there, and changed nothing else; running out of attempts stored nothing.
   */
  method UpdateStatus(api: Api, x: XTrinode) returns (ok: bool, ghost k: nat)
    requires Writable(api, x)
    modifies api
    ensures api.Valid() && api.M() == old(api.M()) && api.now == old(api.now) && api.Grew()
    ensures api.Smooth() ==> ok
    ensures ok ==> JustStored(api, x.status) && |api.writes| == |old(api.writes)| + 1
    ensures ok ==> 0 < |old(api.versions)| <= k && StoredOver(api, x.status, k)
  {
    var r;
    r, k := api.UpdateStatusWithRetry(Replace(x.status));
    ok := r.Written?;
    if ok {
      assert Sound(api.versions[k - 1], api.created, api.M().fetch.recorded);
      MergeKeepsActivity(x.status, api.versions[k - 1].status);
    }
  }

  /** Best-effort error status; the caller returns its own error whatever becomes of this write. */
  method SetErrorStatus(api: Api)
    requires api.Valid() && IsLive(api.M())
    modifies api
    ensures api.Valid() && api.M() == old(api.M()) && api.now == old(api.now) && api.Grew()
  {
    var conditions: string := *;
    var r, k := api.UpdateStatusWithRetry(MarkError(conditions));
  }

  /* ---- scaling ---- */

  function TargetOf(f: Fleet, c: Component): Target {
    if c.Coordinator? then f.coordinator else f.worker
  }

  /** The Deployment is absent, so it will be created with the right count, or was given this many replicas. */
  predicate GivenTo(t: Target, n: int) {
    t == NotThere || t == SetTo(n)
  }

  /** Of the fleet only this Deployment was touched. */
  predicate OnlyTouched(f: Fleet, f': Fleet, c: Component) {
    f' == if c.Coordinator? then f.(coordinator := f'.coordinator) else f.(worker := f'.worker)
  }

  /** An absent Deployment counts as scaled: it will be created with the right count. */
  method ScaleReplicas(api: Api, c: Component, replicas: int) returns (ok: bool)
    requires api.Valid() && ScaleFits(api.M(), c, replicas)
    modifies api`trace, api`mon, api`writes, api`setbacks
    ensures api.Valid() && api.writes == old(api.writes) && OnlyLadders(old(api.M()), api.M()) && api.Grew()
    ensures api.M().ready == old(api.M()).ready && OnlyTouched(old(api.M()).fleet, api.M().fleet, c)
    ensures api.Smooth() ==> ok
    ensures ok ==> GivenTo(TargetOf(api.M().fleet, c), replicas)
    ensures ok && replicas == 0 ==> api.M().suspend == Climb(old(api.M()).suspend, if c.Coordinator? then 5 else 6)
  {
    var found, n := api.GetDeployment(c);
    AfterZeroing(old(api.M()), c, Called(FindDeployment(c, n), found));
    AfterDeploymentCall(old(api.M()), Called(FindDeployment(c, n), found), c);
    if !found.Done? {
      return found.Absent?;
    }
    ok := SetReplicas(api, c, replicas);
  }

  method SetReplicas(api: Api, c: Component, replicas: int) returns (ok: bool)
    requires api.Valid() && ScaleFits(api.M(), c, replicas)
    modifies api`trace, api`mon, api`writes, api`setbacks
    ensures api.Valid() && api.writes == old(api.writes) && OnlyLadders(old(api.M()), api.M()) && api.Grew()
    ensures api.M().ready == old(api.M()).ready && OnlyTouched(old(api.M()).fleet, api.M().fleet, c)
    ensures api.Smooth() ==> ok
    ensures ok ==> TargetOf(api.M().fleet, c) == SetTo(replicas)
    ensures ok && replicas == 0 ==> api.M().suspend == Climb(old(api.M()).suspend, if c.Coordinator? then 5 else 6)
  {
    var scaled := api.CallPlain(ScaleDeployment(c, replicas));
    AfterZeroing(old(api.M()), c, Called(ScaleDeployment(c, replicas), scaled));
    AfterDeploymentCall(old(api.M()), Called(ScaleDeployment(c, replicas), scaled), c);
    ok := scaled.Done?;
  }

  method ScaleDeployments(api: Api, coordinator: int, workers: int) returns (ok: bool)
    requires api.Valid() && ScaleFits(api.M(), Coordinator, coordinator) && ScaleFits(api.M(), Worker, workers)
    modifies api`trace, api`mon, api`writes, api`setbacks
    ensures api.Valid() && api.writes == old(api.writes) && OnlyLadders(old(api.M()), api.M()) && api.Grew()
    ensures api.M().ready == old(api.M()).ready
    ensures api.M().fleet == old(api.M()).fleet.(coordinator := api.M().fleet.coordinator, worker := api.M().fleet.worker)
    ensures api.Smooth() ==> ok
    ensures ok ==> GivenTo(api.M().fleet.coordinator, coordinator) && GivenTo(api.M().fleet.worker, workers)
    ensures ok && coordinator == 0 && workers == 0 ==> api.M().suspend == Climb(Climb(old(api.M()).suspend, 5), 6)
  {
    ok := ScaleReplicas(api, Coordinator, coordinator);
    if !ok {
      return;
    }
    ok := ScaleReplicas(api, Worker, workers);
  }

  /* ---- the suspended state ---- */

  datatype PhaseInvariants = PhaseInvariants(kedaEnabled: bool, coordinator: int, workers: int)

  function SuspendedInvariants(): PhaseInvariants {
    PhaseInvariants(false, 0, 0)
  }

  /** Nothing of the runtime runs, and nothing is left that would start it: what was last done in this pass. */
  predicate FleetDown(m: Monitor) {
    && GivenTo(m.fleet.coordinator, 0) && GivenTo(m.fleet.worker, 0)
    && m.fleet.hpaGone && (KedaInUse(m) ==> m.fleet.kedaOff)
  }

  /** A call that is as good as done when its target is absent. */
  method CallOrAbsent(api: Api, op: Op) returns (ok: bool)
    requires api.Valid() && GoesDown(api.M()) && (op.DisableKeda? || op.DeleteHpa?)
    modifies api`trace, api`mon, api`writes, api`setbacks
    ensures api.Valid() && api.writes == old(api.writes) && api.Grew()
    ensures OnlyLadders(old(api.M()), api.M()) && api.M().ready == old(api.M()).ready
    ensures api.Smooth() <==> ok
    ensures api.M().fleet == old(api.M()).fleet.(kedaOff := old(api.M()).fleet.kedaOff || (ok && op.DisableKeda?),
                                                 hpaGone := old(api.M()).fleet.hpaGone || (ok && op.DeleteHpa?))
    ensures ok ==> api.M().suspend == NextSuspend(old(api.M()), Called(op, Done))
  {
    var c := api.CallPlain(op);
    ok := !c.Broken?;
    if ok {
      AfterAbsence(old(api.M()), op, c);
    }
  }

  /** KEDA off, HPA gone, both Deployments at zero, in this order; the node pool's floor is best effort. */
  method EnsureSuspendedInvariants(api: Api, x: XTrinode) returns (ok: bool)
    requires api.Valid() && GoesDown(api.M()) && api.M().read.value.spec == x.spec
    modifies api`trace, api`mon, api`writes, api`setbacks
    ensures api.Valid() && api.writes == old(api.writes) && OnlyLadders(old(api.M()), api.M()) && api.Grew()
    ensures api.M().ready == old(api.M()).ready
    ensures api.Smooth() ==> ok
    ensures ok ==> FleetDown(api.M())
    ensures ok && old(api.M()).suspend == 2 ==> api.M().suspend == 6
    ensures ok && old(api.M()).suspend == 0 ==> api.M().suspend == 0
  {
    var inv := SuspendedInvariants();
    if x.spec.kedaEnabled && !inv.kedaEnabled {
      ok := CallOrAbsent(api, DisableKeda);
      if !ok {
        return;
      }
    }
    ok := CallOrAbsent(api, DeleteHpa);
    if !ok {
      return;
    }
    ok := ScaleDeployments(api, inv.coordinator, inv.workers);
  }

  /** A runtime whose node pool stays up while suspended still has the pool provisioned. */
  predicate ShouldProvisionWhileSuspended(x: XTrinode) {
    x.spec.pool.Some? && x.spec.pool.value.scaleDownOnSuspend == Some(false)
  }

  datatype Progress = Continue | Requeue | Fail

  /** Continues exactly when the pool was ensured and found ready. */
  method ReconcileNodePoolBlocking(api: Api, x: XTrinode) returns (p: Progress, x': XTrinode)
    requires Writable(api, x) && x.status.phase != Ready
    modifies api
    ensures api.M() == old(api.M()).(ready := if p.Continue? then Climb(old(api.M()).ready, 2) else old(api.M()).ready)
    ensures Writable(api, x') && SameCore(x, x') && api.now == old(api.now) && api.Grew()
    ensures api.Smooth() ==> p.Continue?
  {
    x' := SetOther(x);
    var ensured := EnsurePoolExists(api);
    if !ensured {
      return Fail, x';
    }
    x' := SetOther(x');
    var ready := api.CallPipeline(CheckPool);
    if ready.Done? {
      return Continue, x';
    }
    p := ReportPool(api, x', ready);
  }

  method EnsurePoolExists(api: Api) returns (ok: bool)
    requires api.Valid() && IsLive(api.M())
    modifies api
    ensures api.Valid() && api.M() == old(api.M()) && api.now == old(api.now) && api.Grew()
    ensures api.Smooth() ==> ok
  {
    var ensured := api.CallPipeline(EnsurePool);
    ok := ensured.Done?;
    if !ok {
      SetErrorStatus(api);
    }
  }

  /** A pool that is not ready may leave a diagnosis in the status. */
  method ReportPool(api: Api, x: XTrinode, ready: Call) returns (p: Progress)
    requires Writable(api, x)
    modifies api
    ensures api.Valid() && api.M() == old(api.M()) && api.now == old(api.now) && api.Grew() && !p.Continue?
  {
    var diagnosed: bool := *;
    if diagnosed {
      var ok, k := UpdateStatus(api, x);
      return if ok then Requeue else Fail;
    }
    p := if ready.Absent? then Requeue else Fail;
  }

  method ReconcileSuspendedNodePool(api: Api, x: XTrinode) returns (p: Progress, x': XTrinode)
    requires Writable(api, x) && x.status.phase != Ready
    modifies api
    ensures api.M() == old(api.M()).(ready := api.M().ready) && api.now == old(api.now) && api.Grew()
    ensures Writable(api, x') && SameCore(x, x')
    ensures api.Smooth() ==> p.Continue?
  {
    x' := x;
    if !ShouldProvisionWhileSuspended(x) {
      return Continue, x;
    }
    var provisioned: bool := *;
    if provisioned {
      var needsRepair := api.Ask();
      if !needsRepair.Some? {
        return Fail, x;
      }
      if !needsRepair.value {
        return Continue, x;
      }
    }
    p, x' := ProvisionWhileSuspended(api, x);
  }

  method ProvisionWhileSuspended(api: Api, x: XTrinode) returns (p: Progress, x': XTrinode)
    requires Writable(api, x) && x.status.phase != Ready
    modifies api
    ensures api.M() == old(api.M()).(ready := api.M().ready) && api.now == old(api.now) && api.Grew()
    ensures Writable(api, x') && SameCore(x, x')
    ensures api.Smooth() ==> p.Continue?
  {
    p, x' := ReconcileNodePoolBlocking(api, x);
    if p.Requeue? {
      x' := SetOther(x');
      var ok, k := UpdateStatus(api, x');
      if !ok {
        p := Fail;
      }
    }
  }

  method SyncRoute(api: Api) returns (ok: bool)
    requires api.Valid() && IsLive(api.M())
    modifies api`trace, api`mon, api`writes, api`setbacks
    ensures api.Valid() && api.writes == old(api.writes) && OnlyLadders(old(api.M()), api.M()) && api.Grew()
    ensures api.M().fleet == old(api.M()).fleet && api.M().ready == if ok then Climb(old(api.M()).ready, 6) else old(api.M()).ready
    ensures api.Smooth() <==> ok
    ensures ok ==> api.M().suspend == Climb(old(api.M()).suspend, 1)
    ensures ok ==> |api.trace| > 0 && api.trace[|api.trace| - 1] == Called(PublishRoute, Done)
  {
    var published := api.CallPlain(PublishRoute);
    ok := published.Done?;
  }

  /** The verdict on what the cluster showed. */
  method CheckQueries(api: Api) returns (v: Shutdown.QueryVerdict)
    requires api.Valid()
    modifies api`trace, api`mon, api`writes, api`setbacks
    ensures api.Valid() && api.writes == old(api.writes) && api.Smooth()
    ensures api.M().seen.Some? && v == Shutdown.Judge(api.M().seen.value)
    ensures api.trace == old(api.trace) + [QueriesSeen(api.M().seen.value)]
    ensures api.M() == old(api.M()).(seen := api.M().seen, removal := 0,
                                     suspend := if v.AllIdle? then Climb(old(api.M()).suspend, 2) else 0)
  {
    var o := api.ObserveQueries();
    v := Shutdown.CheckQueriesBeforeScaleDown(o);
  }

  /**
   Settled exactly if the listing succeeded and, at the last clock reading, no listed pod is inside its grace
   period. The clock is read for every pod that is being deleted.
   */
  method WaitForPodTermination(api: Api) returns (settled: bool, ghost listed: Option<seq<Shutdown.WorkerPod>>)
    requires api.Valid()
    modifies api`trace, api`mon, api`writes, api`setbacks, api`now
    ensures api.Valid() && api.writes == old(api.writes) && api.Grew() && (api.Smooth() <==> listed.Some?)
    ensures settled <==> listed.Some? && Shutdown.NoneInGrace(listed.value, api.now)
    ensures api.M() == old(api.M()).(fetch := old(api.M()).fetch.(now := api.M().fetch.now), pods := api.M().pods,
                                     suspend := api.M().suspend, removal := api.M().removal)
    ensures listed.Some? ==> api.M().pods == listed
    ensures settled ==> api.M().suspend == Climb(old(api.M()).suspend, 7) && api.M().removal == Climb(old(api.M()).removal, 2)
    ensures !settled ==> api.M().suspend == old(api.M()).suspend && api.M().removal == old(api.M()).removal
  {
    var got := api.ListPods();
    listed := got;
    if !got.Some? {
      return false, listed;
    }
    AfterPods(old(api.M()), got.value, 0);
    settled := PodsOutOfGrace(api, got.value);
    if settled {
      NoteSettled(api, got.value);
    }
  }

  ghost method NoteSettled(api: Api, pods: seq<Shutdown.WorkerPod>)
    requires api.Valid() && api.M().pods == Some(pods) && Shutdown.NoneInGrace(pods, api.now)
    modifies api`trace, api`mon, api`writes, api`setbacks
    ensures api.Valid() && api.writes == old(api.writes) && api.Grew() && api.Smooth()
    ensures api.M() == old(api.M()).(fetch := old(api.M()).fetch.(now := api.now),
                                     suspend := Climb(old(api.M()).suspend, 7), removal := Climb(old(api.M()).removal, 2))
  {
    AfterPods(api.M(), pods, api.now);
    api.Emit(PodsSettled(api.now));
  }

  method PodsOutOfGrace(api: Api, pods: seq<Shutdown.WorkerPod>) returns (settled: bool)
    requires api.Valid()
    modifies api`now
    ensures api.Valid() && old(api.now) <= api.now
    ensures settled <==> Shutdown.NoneInGrace(pods, api.now)
  {
    for i := 0 to |pods|
      invariant api.Valid() && old(api.now) <= api.now
      invariant forall j :: 0 <= j < i && pods[j].deletedAt.Some? ==> pods[j].deletedAt.value + Shutdown.Grace(pods[j]) <= api.now
    {
      if pods[i].deletedAt.Some? {
        var grace := Shutdown.DEFAULT_GRACE_SECONDS * SECOND;
        if pods[i].graceSeconds.Some? {
          grace := pods[i].graceSeconds.value * SECOND;
        }
        var present := api.Clock();
        var elapsed := present - pods[i].deletedAt.value;
        if elapsed < grace {
          return false;
        }
      }
    }
    settled := true;
  }

  function MarkSuspended(x: XTrinode): XTrinode {
    x.(status := x.status.(phase := Suspended))
  }

  /**
   The runtime is already suspended: repair drift, publish the route, refresh the status. Done, and nothing less,
   if nothing gets in the way; and done means that all of it was done in this pass.
   */
  method KeepSuspended(api: Api, x: XTrinode) returns (done: bool)
    requires Writable(api, x) && x.status.phase == Suspended && GoesDown(api.M()) && api.M().suspend == 0
    requires api.M().read.value.spec == x.spec && api.M().read.value.status.phase == Suspended
    modifies api
    ensures api.Valid() && api.M().read == old(api.M()).read && api.Grew()
    ensures api.Smooth() ==> done
    ensures done ==> FleetDown(api.M()) && api.M().suspend == 1
    ensures done ==> exists s :: JustStored(api, s) && s.phase == Suspended
  {
    var ok := EnsureSuspendedInvariants(api, x);
    if !ok {
      return false;
    }
    ok := SyncRoute(api);
    if !ok {
      return false;
    }
    var x' := SetOther(MarkSuspended(x));
    var p;
    p, x' := ReconcileSuspendedNodePool(api, x');
    if !p.Continue? {
      return false;
    }
    ghost var k;
    done, k := UpdateStatus(api, x');
  }

  /** Queries were checked; if none ran, pods were listed; and if none was in grace, the way down went through. */
  ghost predicate WentDown(m: Monitor, now: int, done: bool) {
    && m.seen.Some?
    && (Shutdown.Judge(m.seen.value).AllIdle? ==> m.pods.Some? && (Shutdown.NoneInGrace(m.pods.value, now) ==> done))
  }

  /** The way down, up to the point where nothing of the runtime is left running. */
  method ScaleDownGracefully(api: Api, x: XTrinode) returns (ok: bool)
    requires api.Valid() && GoesDown(api.M()) && api.M().read.value.spec == x.spec && api.M().suspend == 0
    modifies api`trace, api`mon, api`writes, api`setbacks, api`now
    ensures api.Valid() && api.writes == old(api.writes) && api.M().read == old(api.M()).read && api.Grew()
    ensures api.M().fetch == old(api.M()).fetch.(now := api.M().fetch.now)
    ensures ok ==> api.M().suspend == FULL_SUSPEND && FleetDown(api.M())
    ensures api.Smooth() ==> WentDown(api.M(), api.now, ok)
  {
    ok := SyncRoute(api);
    if !ok {
      return;
    }
    var v := CheckQueries(api);
    if !v.AllIdle? {
      return false;
    }
    ok := EnsureSuspendedInvariants(api, x);
    if !ok {
      return;
    }
    ghost var listed;
    ok, listed := WaitForPodTermination(api);
  }

  /** Drop any wake window and announce the transition; a failed write is only logged. */
  method BeginSuspend(api: Api, x: XTrinode) returns (y: XTrinode)
    requires Writable(api, x) && x.status.phase != Suspended && GoesDown(api.M())
    modifies api
    ensures api.M() == old(api.M()) && api.Grew()
    ensures Writable(api, y) && y.spec == x.spec && y.status.phase == Suspending && y.status.wake.None?
  {
    y := x;
    if y.status.wake.Some? {
      y := y.(status := y.status.(wake := None));
    }
    if y.status.phase != Suspending {
      y := SetOther(y.(status := y.status.(phase := Suspending)));
      var ignored, k := UpdateStatus(api, y);
    }
  }

  /** Success means phase Suspended was stored and the route published once more. */
  method FinishSuspend(api: Api, y: XTrinode) returns (done: bool)
    requires Writable(api, y) && y.status.wake.None? && GoesDown(api.M()) && api.M().suspend == FULL_SUSPEND
    modifies api
    ensures api.Valid() && api.now == old(api.now) && api.Grew()
    ensures api.M() == old(api.M()).(suspend := api.M().suspend, removal := api.M().removal, ready := api.M().ready)
    ensures api.Smooth() ==> done
    ensures done ==> exists s :: JustStored(api, s) && s.phase == Suspended && s.wake.None?
    ensures done ==> |api.trace| > 0 && api.trace[|api.trace| - 1] == Called(PublishRoute, Done)
  {
    var z := SetOther(MarkSuspended(y));
    var p;
    p, z := ReconcileSuspendedNodePool(api, z);
    if !p.Continue? {
      return false;
    }
    ghost var k;
    done, k := UpdateStatus(api, z);
    if done {
      done := SyncRoute(api);
    }
  }

  /**
   A pass that reports success has stored phase Suspended over a runtime that is down. If nothing gets in the way
   it does report success, except that running queries and pods in grace stop a runtime that is not yet suspended.
   */
  method ReconcileSuspend(api: Api, x: XTrinode) returns (done: bool)
    requires Writable(api, x) && api.M().suspend == 0 && GoesDown(api.M())
    requires api.M().read.value.spec == x.spec && api.M().read.value.status.phase == x.status.phase
    modifies api
    ensures api.Valid() && api.M().read == old(api.M()).read && api.Grew()
    ensures done ==> FleetDown(api.M()) && exists s :: JustStored(api, s) && s.phase == Suspended
    ensures api.Smooth() ==> if x.status.phase == Suspended then done else WentDown(api.M(), api.now, done)
  {
    if x.status.phase == Suspended {
      done := KeepSuspended(api, x);
      return;
    }
    var y := BeginSuspend(api, x);
    done := ScaleDownGracefully(api, y);
    if done {
      done := FinishSuspend(api, y);
    }
  }
}
