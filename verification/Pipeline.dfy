/** The reconciliation pipeline of a running runtime, from its first step to phase Ready. */
module Pipeline {
  import opened Options
  import opened Model
  import opened Trace
  import opened ApiServer
  import opened Suspend
  import opened Resume
  import AutoSuspend

  datatype Step = Catalogs | Guardrails | NodePool | TrinoResources | WakeTtl | Keda | RuntimeReady | AutoSuspendCheck

  method NewReconciliationPipeline(x: XTrinode) returns (steps: seq<Step>)
    ensures |steps| == 8 && steps[7] == AutoSuspendCheck
    ensures forall i, j :: 0 <= i < |steps| && 0 <= j < |steps| && steps[i] == WakeTtl && steps[j] == Keda ==> i < j
    ensures forall i, j :: 0 <= i < |steps| && 0 <= j < |steps| && steps[i] == NodePool && steps[j] == TrinoResources ==>
              (i < j <==> x.spec.pool.Some?)
    ensures forall i :: 0 <= i < 7 ==> steps[i] != AutoSuspendCheck
    ensures forall i :: 0 <= i < 7 ==> RungAfter(x.spec, i + 1) == StepRung(RungAfter(x.spec, i), steps[i], x.spec)
  {
    steps := [Catalogs, Guardrails];
    if x.spec.pool.Some? {
      steps := steps + [NodePool, TrinoResources];
    } else {
      steps := steps + [TrinoResources, NodePool];
    }
    steps := steps + [WakeTtl, Keda, RuntimeReady, AutoSuspendCheck];
  }

  /** The height of the ready ladder after a step that went through. */
  function StepRung(height: nat, step: Step, spec: Spec): nat {
    match step
    case Guardrails => Climb(height, 1)
    case NodePool => if spec.pool.Some? then Climb(height, 2) else height
    case TrinoResources => Climb(if height == 1 && spec.pool.None? then 2 else height, 3)
    case Keda => if spec.kedaEnabled then Climb(height, 4) else height
    case RuntimeReady => Climb(if height == 3 && !spec.kedaEnabled then 4 else height, 5)
    case _ => height
  }

  /** The height it is meant to have after `i` steps: five after the seven steps before the last. */
  function RungAfter(spec: Spec, i: nat): nat {
    if i <= 1 then 0
    else if i == 2 then 1
    else if i == 3 then (if spec.pool.Some? then 2 else 3)
    else if i <= 5 then 3
    else if i == 6 then (if spec.kedaEnabled then 4 else 3)
    else 5
  }

  /** An expired window is dropped from memory whether or not the write succeeds. */
  method ReconcileWakeTtl(api: Api, x: XTrinode) returns (x': XTrinode, ghost testedAt: int)
    requires Running(api, x)
    modifies api
    ensures Running(api, x') && api.M() == old(api.M()).(fetch := api.M().fetch) && api.Grew()
    ensures old(api.now) <= testedAt == api.now
    ensures x' == x.(status := x.status.(wake := if WakeActive(x.status.wake, testedAt) then x.status.wake else None))
  {
    x', testedAt := x, api.now;
    if x.status.wake.None? {
      return;
    }
    var present := api.Clock();
    testedAt := present;
    if present < x.status.wake.value.expiresAt {
      return;
    }
    x' := x.(status := x.status.(wake := None));
    ForgetWake(api);
    var ignored, k := UpdateStatus(api, x');
  }

  ghost method ForgetWake(api: Api)
    requires api.Valid() && !WakeActive(api.M().fetch.wake, api.now)
    modifies api`trace, api`mon, api`writes, api`setbacks
    ensures api.Valid() && api.Grew() && api.Smooth() && api.writes == old(api.writes)
    ensures api.M() == old(api.M()).(fetch := old(api.M()).fetch.(now := api.now, wake := None))
  {
    AfterWakeExpired(api.M(), api.now);
    api.Emit(WakeExpired(api.now));
  }

  /** The floor a KEDA object is given: that of the wake window if it is open at the time, none otherwise. */
  function FloorAt(w: Option<Wake>, at: int): int {
    if WakeActive(w, at) && w.value.minWorkers > 0 then w.value.minWorkers else 0
  }

  /** Success means KEDA was asked for exactly the floor of the wake window at the clock reading of the request. */
  method ReconcileKeda(api: Api, x: XTrinode) returns (ok: bool, x': XTrinode)
    requires Running(api, x)
    modifies api
    ensures Running(api, x') && SameCore(x, x') && api.Grew()
    ensures api.M() == old(api.M()).(suspend := api.M().suspend, removal := api.M().removal, ready := api.M().ready,
                                     fleet := api.M().fleet, fetch := api.M().fetch)
    ensures !x.spec.kedaEnabled ==> ok && api.M() == old(api.M()) && api.writes == old(api.writes)
    ensures api.Smooth() ==> ok
    ensures ok && x.spec.kedaEnabled ==>
              && api.M().ready == Climb(old(api.M()).ready, 4)
              && |api.trace| > 0 && api.trace[|api.trace| - 1] == Called(EnsureKeda(FloorAt(x.status.wake, api.now), api.now), Done)
  {
    x' := SetOther(x);
    if !x.spec.kedaEnabled {
      return true, x';
    }
    ok := LookUpScaledObject(api);
    if ok {
      ok := EnsureScaledObject(api, x.status.wake);
      if !ok {
        SetErrorStatus(api);
      }
    }
  }

  method LookUpScaledObject(api: Api) returns (ok: bool)
    requires api.Valid() && GoesUp(api.M())
    modifies api
    ensures api.Valid() && api.M() == old(api.M()) && api.now == old(api.now) && api.Grew()
    ensures api.Smooth() ==> ok
  {
    var found := api.CallPipeline(FindScaledObject);
    ok := !found.Broken?;
    if !ok {
      ReportKeda(api);
    }
  }

  /** Without KEDA a ScaledObject left behind is removed, and a failure of that is ignored. */
  method KedaStep(api: Api, x: XTrinode) returns (p: Progress, x': XTrinode)
    requires Running(api, x)
    modifies api
    ensures Running(api, x') && SameCore(x, x') && api.Grew()
    ensures api.M() == old(api.M()).(suspend := api.M().suspend, removal := api.M().removal, ready := api.M().ready,
                                     fleet := api.M().fleet, fetch := api.M().fetch)
    ensures !x.spec.kedaEnabled ==> p.Continue? && api.M() == old(api.M()) && StaleCleared(api.trace[|old(api.trace)|..])
    ensures api.Smooth() ==> p.Continue?
    ensures p.Continue? && x.spec.kedaEnabled ==> api.M().ready == Climb(old(api.M()).ready, 4)
  {
    if x.spec.kedaEnabled {
      var ok;
      ok, x' := ReconcileKeda(api, x);
      return if ok then Continue else Fail, x';
    }
    var ignored := api.CallPlain(ClearScaledObject);
    AfterPipelineCall(old(api.M()), ClearScaledObject, ignored);
    x' := SetOther(x);
    p := Continue;
  }

  predicate StaleCleared(since: seq<Event>) {
    |since| == 1 && since[0].Called? && since[0].op.ClearScaledObject?
  }

  /** A missing KEDA platform is stored as an error, any other failure of the lookup is not. */
  method ReportKeda(api: Api)
    requires api.Valid() && GoesUp(api.M())
    modifies api
    ensures api.Valid() && api.M() == old(api.M()) && api.now == old(api.now) && api.Grew()
  {
    var platformMissing: bool := *;
    if platformMissing {
      SetErrorStatus(api);
    }
  }

  method EnsureScaledObject(api: Api, wake: Option<Wake>) returns (ok: bool)
    requires api.Valid() && GoesUp(api.M()) && wake == api.M().fetch.wake
    modifies api`trace, api`mon, api`writes, api`setbacks, api`now
    ensures api.Valid() && api.writes == old(api.writes) && api.Grew() && (api.Smooth() <==> ok)
    ensures api.M() == old(api.M()).(fetch := old(api.M()).fetch.(now := api.now), suspend := 0, removal := 0,
                                     ready := if ok then Climb(old(api.M()).ready, 4) else old(api.M()).ready,
                                     fleet := old(api.M()).fleet.(kedaOff := false))
    ensures ok ==> |api.trace| > 0 && api.trace[|api.trace| - 1] == Called(EnsureKeda(FloorAt(wake, api.now), api.now), Done)
  {
    var floor := 0;
    var present := api.Clock();
    if wake.Some? && present < wake.value.expiresAt && wake.value.minWorkers > 0 {
      floor := wake.value.minWorkers;
    }
    AfterEnsureKeda(api.M(), floor, present, Done);
    var c := api.Call(EnsureKeda(floor, present));
    AfterEnsureKeda(old(api.M()), floor, present, c);
    ok := c.Done?;
  }

  /** Continues exactly when the runtime was found ready; until then the route is published as pending. */
  method WaitForRuntimeReady(api: Api, x: XTrinode) returns (p: Progress, x': XTrinode)
    requires Running(api, x)
    modifies api
    ensures OnlyLadders(old(api.M()), api.M()) && api.now == old(api.now) && api.Grew()
    ensures Running(api, x') && SameCore(x, x')
    ensures api.Smooth() ==> p.Continue?
    ensures p.Continue? ==> api.M() == old(api.M()).(ready := NextReady(old(api.M()), Called(CheckReady, Done)))
  {
    x' := SetOther(x);
    var ready := api.CallPipeline(CheckReady);
    if ready.Broken? {
      return Fail, x';
    }
    if ready.Done? {
      return Continue, x';
    }
    p, x' := PublishPending(api, x');
  }

  method PublishPending(api: Api, x: XTrinode) returns (p: Progress, x': XTrinode)
    requires Running(api, x)
    modifies api
    ensures OnlyLadders(old(api.M()), api.M()) && api.now == old(api.now) && api.Grew()
    ensures Running(api, x') && SameCore(x, x') && !p.Continue?
  {
    x' := x;
    var published := SyncRoute(api);
    if !published {
      SetErrorStatus(api);
      return Fail, x';
    }
    x' := SetOther(x');
    var ok, k := UpdateStatus(api, x');
    p := if ok then Requeue else Fail;
  }

  /** A critical step that is one call; its failure is stored as an error. */
  method ApplyOrFail(api: Api, op: Op, x: XTrinode) returns (p: Progress, x': XTrinode)
    requires Running(api, x) && (op.ApplyGuardrails? || op.ApplyTrino?)
    modifies api
    ensures api.now == old(api.now) && api.Grew() && Running(api, x') && SameCore(x, x')
    ensures api.M() == old(api.M()).(ready := api.M().ready)
    ensures api.Smooth() ==> p.Continue?
    ensures p.Continue? ==> api.M().ready == NextReady(old(api.M()), Called(op, Done))
  {
    var applied := api.CallPipeline(op);
    x' := SetOther(x);
    if applied.Done? {
      p := Continue;
    } else {
      SetErrorStatus(api);
      p := Fail;
    }
  }

  /** One step of the pipeline other than the last: it continues if nothing gets in the way, and climbs its rung. */
  method ExecuteStep(api: Api, step: Step, x: XTrinode) returns (p: Progress, x': XTrinode)
    requires Running(api, x) && step != AutoSuspendCheck
    modifies api
    ensures api.M() == old(api.M()).(suspend := api.M().suspend, removal := api.M().removal, ready := api.M().ready,
                                     fleet := api.M().fleet, fetch := api.M().fetch)
    ensures api.Grew() && Running(api, x') && x'.spec == x.spec
    ensures step != WakeTtl && api.Smooth() ==> p.Continue?
    ensures step == WakeTtl ==> p.Continue? && x'.status.wake == if WakeActive(x.status.wake, api.now) then x.status.wake else None
    ensures step == Keda && !x.spec.kedaEnabled ==> StaleCleared(api.trace[|old(api.trace)|..])
    ensures p.Continue? ==> api.M().ready == StepRung(old(api.M()).ready, step, x.spec)
  {
    p, x' := Continue, x;
    match step {
      case Catalogs =>
      case Guardrails =>
        p, x' := ApplyOrFail(api, ApplyGuardrails, x);
      case TrinoResources =>
        p, x' := ApplyOrFail(api, ApplyTrino, x);
      case NodePool =>
        if x.spec.pool.Some? {
          p, x' := ProvisionPool(api, x);
        }
      case WakeTtl =>
        ghost var testedAt;
        x', testedAt := ReconcileWakeTtl(api, x);
      case Keda =>
        p, x' := KedaStep(api, x);
      case RuntimeReady =>
        p, x' := WaitForRuntimeReady(api, x);
      case AutoSuspendCheck =>
        assert false;
    }
  }

  method ProvisionPool(api: Api, x: XTrinode) returns (p: Progress, x': XTrinode)
    requires Running(api, x)
    modifies api
    ensures api.M() == old(api.M()).(ready := api.M().ready) && api.now == old(api.now) && api.Grew()
    ensures Running(api, x') && SameCore(x, x')
    ensures api.Smooth() ==> p.Continue?
    ensures p.Continue? ==> api.M().ready == Climb(old(api.M()).ready, 2)
  {
    p, x' := ReconcileNodePoolBlocking(api, x);
    if p.Requeue? {
      var ok, k := UpdateStatus(api, x');
      p := if ok then Requeue else Fail;
    }
  }

  /** Stops for a request that was sent or lost; any other failure of the check is ignored. */
  method ExecuteAutoSuspend(api: Api, x: XTrinode) returns (p: Progress, x': XTrinode)
    requires Running(api, x)
    modifies api
    ensures api.Valid() && api.M() == old(api.M()).(idle := api.M().idle, fetch := api.M().fetch)
    ensures api.Grew() && AutoSuspend.Held(api, x')
    ensures !p.Continue? ==> api.M().idle.judged
    ensures x.spec.autoSuspendAfter.None? ==> p.Continue?
    ensures x.spec.autoSuspendAfter.Some? && !x.spec.suspended ==> api.M().idle.answer.Some?
    ensures x.spec.autoSuspendAfter.Some? && !x.spec.suspended && api.Smooth() ==> (p.Continue? <==> !api.M().idle.judged)
  {
    p, x' := Continue, x;
    if x.spec.autoSuspendAfter.None? || x.spec.suspended {
      return;
    }
    ghost var judged, wakeTestedAt, idleTestedAt;
    var r;
    r, x', judged, wakeTestedAt, idleTestedAt := AutoSuspend.AutoSuspendIfNeeded(api, x);
    if r.Requested? || r.RequestFailed? {
      p := Requeue;
    }
  }

  /** The whole pipeline. It stops only for a setback or for an idle runtime. */
  method Execute(api: Api, x: XTrinode) returns (p: Progress, x': XTrinode)
    requires Running(api, x) && api.M().ready == 0
    modifies api
    ensures api.Valid() && api.M().read == old(api.M()).read && api.Grew()
    ensures AutoSuspend.Held(api, x')
    ensures api.Smooth() ==> p.Continue? || api.M().idle.judged
    ensures p.Continue? ==> api.M().ready == FULL_READY - 1
    ensures p.Continue? && x.spec.autoSuspendAfter.Some? && !x.spec.suspended ==> api.M().idle.answer.Some?
  {
    var steps := NewReconciliationPipeline(x);
    p, x' := Continue, x;
    for i := 0 to |steps| - 1
      invariant Running(api, x') && api.M().read == old(api.M()).read && api.Grew()
      invariant x'.spec == x.spec && api.M().ready == RungAfter(x.spec, i)
    {
      p, x' := ExecuteStep(api, steps[i], x');
      if !p.Continue? {
        return;
      }
    }
    p, x' := ExecuteAutoSuspend(api, x');
  }

  /** Success means phase Ready was stored. */
  method TransitionToReady(api: Api, x: XTrinode) returns (done: bool)
    requires api.Valid() && GoesUp(api.M()) && api.M().ready == FULL_READY && AutoSuspend.Held(api, x)
    modifies api
    ensures api.Valid() && api.M() == old(api.M()) && api.Grew()
    ensures api.Smooth() ==> done
    ensures done ==> exists s :: JustStored(api, s) && s.phase == Ready && s.wake == x.status.wake
  {
    var y := SetOther(x.(status := x.status.(phase := Ready)));
    ghost var k;
    done, k := UpdateStatus(api, y);
  }

  /**
   The rest of a pass over a runtime that is not suspended. It stores phase Ready at its end, and gets there
   unless something gets in the way or the runtime is found idle.
   */
  method ReconcileRunning(api: Api, x: XTrinode) returns (done: bool)
    requires Current(api, x) && AsRead(api, x) && api.M().ready == 0
    modifies api
    ensures api.Valid() && api.M().read == old(api.M()).read && api.Grew()
    ensures api.Smooth() ==> done || api.M().idle.judged
    ensures done ==> api.M().ready == FULL_READY && exists s :: JustStored(api, s) && s.phase == Ready
  {
    ghost var p, started;
    var ok, y;
    ok, y, p, started := ReconcileResume(api, x);
    if !ok {
      return false;
    }
    y := SetOther(y.(status := y.status.(phase := Reconciling)));
    ghost var k;
    ok, k := UpdateStatus(api, y);
    if ok {
      done := FinishRunning(api, y);
    } else {
      done := false;
    }
  }

  method FinishRunning(api: Api, x: XTrinode) returns (done: bool)
    requires Running(api, x) && api.M().ready == 0
    modifies api
    ensures api.Valid() && api.M().read == old(api.M()).read && api.Grew()
    ensures api.Smooth() ==> done || api.M().idle.judged
    ensures done ==> api.M().ready == FULL_READY && exists s :: JustStored(api, s) && s.phase == Ready
  {
    var p, y := Execute(api, x);
    if !p.Continue? {
      return false;
    }
    var ok := SyncRoute(api);
    if !ok {
      SetErrorStatus(api);
      return false;
    }
    done := TransitionToReady(api, y);
  }
}
