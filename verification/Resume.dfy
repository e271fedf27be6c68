/** Resuming a runtime: its wake window, its replicas, and the overrides that asked for it. */
module Resume {
  import opened Options
  import opened Model
  import opened Trace
  import opened ApiServer
  import opened Suspend
  import AutoSuspend
  import Commands

  predicate HasWakeCommand(x: XTrinode) {
    Lookup(x.annotations, WakeMinWorkers) != Plain("") || Lookup(x.annotations, WakeTTL) != Plain("")
  }

  predicate ShouldRunResumeTransition(x: XTrinode) {
    x.status.phase == Suspended || x.status.phase == Suspending || HasWakeCommand(x)
  }

  method ParseWakeParams(x: XTrinode) returns (workers: int, ttl: int)
    ensures workers == Commands.WakeWorkersOf(x) && ttl == Commands.WakeTtlOf(x)
  {
    workers, ttl := 0, Commands.DEFAULT_WAKE_TTL;
    var workersFromAnnotation, ttlFromAnnotation := false, false;
    var text := Lookup(x.annotations, WakeMinWorkers);
    if text != Plain("") {
      var n := ParseInt32(text);
      if n.Some? && n.value >= 0 {
        workers, workersFromAnnotation := n.value, true;
      }
    }
    text := Lookup(x.annotations, WakeTTL);
    if text != Plain("") {
      var d := ParseDuration(text);
      if d.Some? && d.value >= 0 {
        ttl, ttlFromAnnotation := d.value, true;
      }
    }
    if !workersFromAnnotation && x.spec.wakeMinWorkers.Some? {
      workers := x.spec.wakeMinWorkers.value;
    }
    if !ttlFromAnnotation && x.spec.wakeTTL.Some? {
      ttl := x.spec.wakeTTL.value;
    }
  }

  /**
   An accepted resume command keeps its word: the overrides survive the intake, and the resume that reads
   the result takes exactly the values the command named.
   */
  lemma AcceptedOverridesAreUsed(read: map<Key, Text>, latest: XTrinode)
    requires Commands.IntakeOf(read).Apply? && Commands.IntakeOf(read).plan.winner == Commands.Resume
    requires Lookup(latest.annotations, WakeMinWorkers) == Lookup(read, WakeMinWorkers) != Plain("")
    requires Lookup(latest.annotations, WakeTTL) == Lookup(read, WakeTTL) != Plain("")
    ensures var r := Commands.Mutate(Commands.IntakeOf(read).plan, latest);
            && !r.spec.suspended
            && ShouldRunResumeTransition(r)
            && Some(Commands.WakeWorkersOf(r)) == ParseInt32(Lookup(read, WakeMinWorkers))
            && Some(Commands.WakeTtlOf(r)) == ParseDuration(Lookup(read, WakeTTL))
  {
    Commands.MutationEffect(read, latest, WakeMinWorkers);
    Commands.MutationEffect(read, latest, WakeTTL);
    var w := Commands.Winner(read).value;
    assert w == Commands.CommandOf(read, Commands.Resume);
  }

  /** The object in memory is what the log says it is. */
  ghost predicate Current(api: Api, x: XTrinode)
    reads api
  {
    && api.Valid() && GoesUp(api.M())
    && AutoSuspend.Held(api, x) && AutoSuspend.Tracked(api, x)
    && x.status.lastActivity == api.M().activity
  }

  /** It is also free of the suspended phases, so any wake window may be stored with it, and not Ready yet. */
  ghost predicate Running(api: Api, x: XTrinode)
    reads api
  {
    Current(api, x) && x.status.phase != Suspending && x.status.phase != Suspended && x.status.phase != Ready
  }

  /** It is as the pass read it, as far as annotations and spec go. */
  ghost predicate AsRead(api: Api, x: XTrinode)
    reads api
  {
    api.M().read.Some? && x.annotations == api.M().read.value.annotations && x.spec == api.M().read.value.spec
  }

  /** The wake window of this resume replaces whatever was left of an earlier one. */
  method SetWakeWindow(api: Api, x: XTrinode, workers: int, ttl: int) returns (x': XTrinode)
    requires Current(api, x) && workers == Commands.WakeWorkersOf(x) && ttl == Commands.WakeTtlOf(x)
    requires AsRead(api, x)
    modifies api`trace, api`mon, api`writes, api`setbacks, api`now
    ensures Current(api, x') && api.writes == old(api.writes) && api.Grew() && api.Smooth()
    ensures api.M() == old(api.M()).(fetch := api.M().fetch)
    ensures x' == x.(status := x.status.(wake := Commands.WakeWindowOf(x, api.now)))
  {
    if workers > 0 {
      var present := api.Clock();
      x' := x.(status := x.status.(wake := Some(Wake(workers, present + ttl))));
    } else {
      x' := x.(status := x.status.(wake := None));
    }
    SameWindow(x, api.M().read.value, api.now);
    NoteWake(api, x');
  }

  lemma SameWindow(x: XTrinode, y: XTrinode, at: int)
    requires x.annotations == y.annotations && x.spec == y.spec
    ensures Commands.WakeWindowOf(x, at) == Commands.WakeWindowOf(y, at)
  {
  }

  method NoteWake(api: Api, x: XTrinode)
    requires api.Valid() && api.M().read.Some? && x.status.wake == Commands.WakeWindowOf(api.M().read.value, api.now)
    modifies api`trace, api`mon, api`writes, api`setbacks
    ensures api.Valid() && api.writes == old(api.writes) && api.Grew() && api.Smooth()
    ensures api.M() == old(api.M()).(fetch := old(api.M()).fetch.(now := api.now, wake := x.status.wake))
  {
    AfterWakeChosen(api.M(), api.now);
    api.Emit(WakeChosen(api.now));
  }

  /** Announce the transition; a failed write is only logged. */
  method BeginResume(api: Api, x: XTrinode) returns (x': XTrinode)
    requires Current(api, x)
    modifies api
    ensures api.M() == old(api.M()) && api.now == old(api.now) && api.Grew()
    ensures Running(api, x') && x'.status.phase == Resuming && x'.spec == x.spec && x'.annotations == x.annotations
    ensures x'.status.wake == x.status.wake
  {
    x' := x;
    if x'.status.phase != Resuming {
      x' := SetOther(x'.(status := x'.status.(phase := Resuming)));
      var ignored, k := UpdateStatus(api, x');
    }
  }

  /** A native HPA cannot start from zero: the workers are absent, were found running, or were given the floor. */
  predicate Seeded(before: Target, after: Target, floor: int) {
    if floor <= 0 then after == before
    else after == NotThere || after == SetTo(floor) || (after.Seen? && after.n > 0)
  }

  /** One coordinator; the workers are left to KEDA, seeded for a native HPA, or given the count asked for. */
  predicate Started(before: Fleet, after: Fleet, spec: Spec, workers: int) {
    && GivenTo(after.coordinator, 1)
    && (if spec.kedaEnabled then after.worker == before.worker
        else if spec.hpaFloor.Some? then Seeded(before.worker, after.worker, spec.hpaFloor.value)
        else GivenTo(after.worker, workers))
    && after.kedaOff == before.kedaOff && after.hpaGone == before.hpaGone
  }

  /** Only the coordinator, the coordinator and an HPA seed, or both Deployments, by who owns the workers. */
  method ScaleForResume(api: Api, x: XTrinode, workers: int) returns (ok: bool)
    requires Current(api, x) && AsRead(api, x) && workers == Commands.WakeWorkersOf(x)
    modifies api
    ensures api.Valid() && OnlyLadders(old(api.M()), api.M()) && api.M().ready == old(api.M()).ready
    ensures api.now == old(api.now) && api.Grew()
    ensures api.Smooth() ==> ok
    ensures ok ==> Started(old(api.M()).fleet, api.M().fleet, x.spec, workers)
  {
    SameWorkers(x, api.M().read.value);
    if x.spec.kedaEnabled {
      ok := ScaleReplicas(api, Coordinator, 1);
    } else if x.spec.hpaFloor.Some? {
      ok := ScaleReplicas(api, Coordinator, 1);
      if ok {
        ok := EnsureNativeHpaWorkerFloor(api, x);
      }
    } else {
      ok := ScaleDeployments(api, 1, workers);
    }
    if !ok {
      SetErrorStatus(api);
    }
  }

  lemma SameWorkers(x: XTrinode, y: XTrinode)
    requires x.annotations == y.annotations && x.spec == y.spec
    ensures Commands.WakeWorkersOf(x) == Commands.WakeWorkersOf(y)
  {
  }

  method EnsureNativeHpaWorkerFloor(api: Api, x: XTrinode) returns (ok: bool)
    requires api.Valid() && GoesUp(api.M()) && AutoSuspend.Tracked(api, x)
    modifies api`trace, api`mon, api`writes, api`setbacks
    ensures api.Valid() && api.writes == old(api.writes) && OnlyLadders(old(api.M()), api.M()) && api.Grew()
    ensures api.M().ready == old(api.M()).ready && OnlyTouched(old(api.M()).fleet, api.M().fleet, Worker)
    ensures api.Smooth() ==> ok
    ensures ok ==> if x.spec.hpaFloor.Some? then Seeded(old(api.M()).fleet.worker, api.M().fleet.worker, x.spec.hpaFloor.value)
                   else api.M().fleet == old(api.M()).fleet
  {
    if x.spec.hpaFloor.None? || x.spec.hpaFloor.value <= 0 {
      return true;
    }
    var found, replicas := api.GetDeployment(Worker);
    if found.Broken? {
      return false;
    }
    if !found.Done? || replicas > 0 {
      return true;
    }
    ok := ScaleReplicas(api, Worker, x.spec.hpaFloor.value);
  }

  const WAKE_KEYS: set<Key> := {WakeMinWorkers, WakeTTL}

  predicate Added(memory: XTrinode, met: XTrinode, key: Key) {
    key !in memory.annotations && Lookup(met.annotations, key) != Plain("")
  }

  /** A wake override that the object in memory does not have is on the stored one. */
  predicate AddedSince(memory: XTrinode, met: XTrinode) {
    Added(memory, met, WakeMinWorkers) || Added(memory, met, WakeTTL)
  }

  /** What became of the merge patch: the version it met, whether it was committed, whether its reply came back. */
  datatype Patch = Patch(met: XTrinode, committed: bool, replied: bool)

  /**
   A wake override is left on the stored object: the patch was committed and another writer had added a key that
   memory lacked, or it was not committed and the version it met has one.
   */
  predicate OverrideLeft(memory: XTrinode, p: Patch) {
    if p.committed then AddedSince(memory, p.met) else HasWakeCommand(p.met)
  }

  /** The same of the object in memory: only a reply can bring an override back. */
  predicate OverrideInMemory(memory: XTrinode, p: Patch) {
    p.replied && AddedSince(memory, p.met)
  }

  /** The version stored last. */
  ghost function Stored(api: Api): XTrinode
    requires |api.versions| > 0
    reads api`versions
  {
    api.versions[|api.versions| - 1]
  }

  /** The patch met a stored version, and overrides are left, stored and in memory, exactly as it says. */
  ghost predicate Consumed(api: Api, memory: XTrinode, x': XTrinode, p: Patch)
    reads api`versions
  {
    && |api.versions| > 0 && p.met in api.versions
    && (p.replied ==> p.committed) && (p.committed ==> HasWakeCommand(memory))
    && (HasWakeCommand(Stored(api)) <==> OverrideLeft(memory, p))
    && (HasWakeCommand(x') <==> OverrideInMemory(memory, p))
  }

  /**
   The merge patch names only the keys the object in memory had, and its reply replaces that object; the wake
   window and activity are put back. A failed patch is only logged. Without an override in memory there is no patch.
   */
  method ConsumeWakeAnnotations(api: Api, x: XTrinode) returns (x': XTrinode, ghost p: Patch)
    requires Current(api, x)
    modifies api
    ensures Current(api, x') && OnlyFetched(old(api.M()), api.M()) && api.now == old(api.now) && api.Grew()
    ensures x'.status.wake == x.status.wake && x'.status.lastActivity == x.status.lastActivity
    ensures Consumed(api, x, x', p) && (api.Smooth() && HasWakeCommand(x) ==> p.replied)
  {
    x', p := x, Patch(Stored(api), false, false);
    if !HasWakeCommand(x) {
      return;
    }
    var savedWake, savedLastActivity := x.status.wake, x.status.lastActivity;
    var o, reply, met, committed := api.PatchDropKeys(x.annotations.Keys * WAKE_KEYS);
    p := Patch(met, committed, o.Ok?);
    DroppedKeys(x, met, met.(annotations := met.annotations - x.annotations.Keys * WAKE_KEYS));
    assert Sound(Stored(api), api.created, api.M().fetch.recorded);
    x' := if o.Ok? then reply else x.(annotations := x.annotations - WAKE_KEYS);
    x' := x'.(status := x'.status.(wake := savedWake, lastActivity := savedLastActivity));
  }

  lemma DroppedKeys(memory: XTrinode, met: XTrinode, after: XTrinode)
    requires after.annotations == met.annotations - (memory.annotations.Keys * WAKE_KEYS)
    ensures HasWakeCommand(after) <==> AddedSince(memory, met)
  {
    assert WakeMinWorkers in WAKE_KEYS && WakeTTL in WAKE_KEYS;
  }

  /** It does happen: a worker override in memory, and a lifetime added by another writer before the patch. */
  lemma AddedOverrideStays(memory: XTrinode, workers: Text, ttl: Text)
    requires memory.annotations == map[WakeMinWorkers := workers] && workers != Plain("") && ttl != Plain("")
    ensures var met := memory.(annotations := memory.annotations[WakeTTL := ttl]);
            HasWakeCommand(memory) && OverrideLeft(memory, Patch(met, true, true))
  {
    assert Added(memory, memory.(annotations := memory.annotations[WakeTTL := ttl]), WakeTTL);
  }

  /**
   And without any other writer: a patch that fails before it is committed leaves the override stored, although
   none is left in memory, and the pass that reads the stored object resumes again.
   */
  lemma FailedPatchResumesAgain(memory: XTrinode)
    requires HasWakeCommand(memory)
    ensures var p := Patch(memory, false, false);
            OverrideLeft(memory, p) && !OverrideInMemory(memory, p) && ShouldRunResumeTransition(p.met)
  {
  }

  method RunResumeTransition(api: Api, x: XTrinode) returns (ok: bool, x': XTrinode, ghost p: Patch)
    requires Current(api, x)
    requires AsRead(api, x)
    modifies api
    ensures api.Valid() && AutoSuspend.Held(api, x') && api.Grew()
    ensures api.M() == old(api.M()).(suspend := api.M().suspend, removal := api.M().removal, fleet := api.M().fleet,
                                     fetch := api.M().fetch, activity := api.M().activity)
    ensures api.Smooth() ==> ok
    ensures ok ==> Started(old(api.M()).fleet, api.M().fleet, x.spec, Commands.WakeWorkersOf(x))
    ensures ok ==> Current(api, x') && x'.status.lastActivity == Some(api.now)
    ensures ok ==> Consumed(api, x, x', p)
    ensures ok && x'.status.wake.Some? ==> x'.status.wake.value.minWorkers == Commands.WakeWorkersOf(x) > 0
  {
    var workers, y := OpenWake(api, x);
    SameWorkers(x, y);
    ok := ScaleForResume(api, y, workers);
    if ok {
      x', p := FinishResume(api, y);
      SameOverrides(api, x, y, x', p);
    } else {
      x', p := y, Patch(y, false, false);
    }
  }

  /** Takes off the overrides and marks the runtime active now. */
  method FinishResume(api: Api, x: XTrinode) returns (x': XTrinode, ghost p: Patch)
    requires Current(api, x)
    modifies api
    ensures Current(api, x') && api.Grew()
    ensures api.M() == old(api.M()).(fetch := api.M().fetch, activity := api.M().activity)
    ensures x'.status.wake == x.status.wake && x'.status.lastActivity == Some(api.now)
    ensures Consumed(api, x, x', p)
  {
    var y;
    y, p := ConsumeWakeAnnotations(api, x);
    x' := MarkResumed(api, y);
  }

  lemma SameOverrides(api: Api, x: XTrinode, y: XTrinode, x': XTrinode, p: Patch)
    requires Consumed(api, y, x', p) && x.annotations == y.annotations
    ensures Consumed(api, x, x', p)
  {
  }

  method OpenWake(api: Api, x: XTrinode) returns (workers: int, x': XTrinode)
    requires Current(api, x)
    requires AsRead(api, x)
    modifies api
    ensures Running(api, x') && api.M() == old(api.M()).(fetch := api.M().fetch) && api.Grew()
    ensures workers == Commands.WakeWorkersOf(x) && x'.annotations == x.annotations && x'.spec == x.spec
    ensures x'.status.wake.Some? ==> x'.status.wake.value.minWorkers == workers > 0
  {
    var ttl;
    workers, ttl := ParseWakeParams(x);
    x' := SetWakeWindow(api, x, workers, ttl);
    x' := BeginResume(api, x');
  }

  method MarkResumed(api: Api, x: XTrinode) returns (x': XTrinode)
    requires Current(api, x)
    modifies api`trace, api`mon, api`writes, api`setbacks, api`now
    ensures Current(api, x') && api.writes == old(api.writes) && api.Grew() && api.Smooth()
    ensures api.M() == old(api.M()).(fetch := api.M().fetch, activity := api.M().activity)
    ensures x'.annotations == x.annotations && x'.status.wake == x.status.wake && x'.status.lastActivity == Some(api.now)
  {
    var present := api.Clock();
    AfterResumeMarked(api.M(), present);
    api.Emit(ResumeMarked(present));
    x' := SetOther(x.(status := x.status.(lastActivity := Some(present))));
  }

  /** The coordinator is absent, was found at one replica, or was given one. */
  predicate CoordinatorUp(t: Target) {
    t == NotThere || t == Seen(1) || t == SetTo(1)
  }

  /** Drift is repaired: the coordinator is up, and the workers of a native HPA are seeded unless it is absent. */
  predicate KeptUp(before: Fleet, after: Fleet, spec: Spec) {
    && CoordinatorUp(after.coordinator)
    && (if spec.hpaFloor.Some? && after.coordinator != NotThere then Seeded(before.worker, after.worker, spec.hpaFloor.value)
        else spec.hpaFloor.Some? || after.worker == before.worker)
    && after.kedaOff == before.kedaOff && after.hpaGone == before.hpaGone
  }

  method EnsureResumedInvariants(api: Api, x: XTrinode) returns (ok: bool)
    requires api.Valid() && GoesUp(api.M()) && AutoSuspend.Tracked(api, x)
    modifies api`trace, api`mon, api`writes, api`setbacks
    ensures api.Valid() && api.writes == old(api.writes) && OnlyLadders(old(api.M()), api.M()) && api.Grew()
    ensures api.M().ready == old(api.M()).ready
    ensures api.Smooth() ==> ok
    ensures ok ==> KeptUp(old(api.M()).fleet, api.M().fleet, x.spec)
  {
    var found, replicas := api.GetDeployment(Coordinator);
    if found.Absent? {
      return true;
    }
    if found.Broken? {
      return false;
    }
    if replicas != 1 {
      ok := ScaleReplicas(api, Coordinator, 1);
      if !ok {
        return;
      }
    }
    ok := EnsureNativeHpaWorkerFloor(api, x);
  }

  /** `started` is the fleet after the transition, if one was needed. */
  method ReconcileResume(api: Api, x: XTrinode) returns (ok: bool, x': XTrinode, ghost p: Option<Patch>, ghost started: Fleet)
    requires Current(api, x) && AsRead(api, x)
    modifies api
    ensures api.Valid() && api.Grew()
    ensures api.M() == old(api.M()).(suspend := api.M().suspend, removal := api.M().removal, fleet := api.M().fleet,
                                     fetch := api.M().fetch, activity := api.M().activity)
    ensures api.Smooth() ==> ok
    ensures ok ==> Current(api, x')
    ensures ok ==> (p.Some? <==> ShouldRunResumeTransition(x))
    ensures ok && p.Some? ==> Consumed(api, x, x', p.value) && Started(old(api.M()).fleet, started, x.spec, Commands.WakeWorkersOf(x))
    ensures ok && p.None? ==> x' == x && !HasWakeCommand(x) && started == old(api.M()).fleet
    ensures ok ==> if x'.spec.suspended then api.M().fleet == started else KeptUp(started, api.M().fleet, x'.spec)
  {
    ok, x', p, started := true, x, None, api.M().fleet;
    if ShouldRunResumeTransition(x) {
      ghost var patch;
      ok, x', patch := RunResumeTransition(api, x);
      p, started := Some(patch), api.M().fleet;
      if !ok {
        return;
      }
    }
    if !x'.spec.suspended {
      ok := EnsureResumedInvariants(api, x');
    }
  }
}
