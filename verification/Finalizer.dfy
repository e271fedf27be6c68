/** Deleting a runtime: drain, wait, clean up, and only then let the object go. */
module Finalizer {
  import opened Options
  import opened Model
  import opened Trace
  import opened ApiServer
  import opened Suspend
  import OwnerRefs
  import Shutdown

  /** Whole time since the stored start, never negative; an unreadable start counts as a full window. */
  method DrainElapsed(start: Text, present: int, window: int) returns (elapsed: int)
    requires 0 < window
    ensures elapsed >= window <==> WindowPassed(start, present, window)
    ensures 0 <= elapsed
  {
    var started := ParseTime(start);
    var from := if started.Some? then started.value else present - window;
    elapsed := present - from;
    if elapsed < 0 {
      elapsed := 0;
    }
  }

  datatype DrainResult = QueryComplete | TimeFallback | QueryCheckError | ActiveQueries

  /** Complete exactly if the check made here found no live query, or failed with the configured window passed. */
  method QueryAwareDrainComplete(api: Api, start: Text) returns (complete: bool, result: DrainResult)
    requires api.Valid() && InDeletion(api.M()) && StartRead(api.M()) == Some(start) && Known(start, api.M().fetch.recorded)
    modifies api
    ensures api.Valid() && api.versions == old(api.versions) && api.writes == old(api.writes) && api.Grew() && api.Smooth()
    ensures api.M().seen.Some?
    ensures api.trace == old(api.trace) + [QueriesSeen(api.M().seen.value), DrainJudged(complete, api.now)]
    ensures api.M().read == old(api.M()).read && api.M().fetch == old(api.M()).fetch.(now := api.M().fetch.now)
    ensures match Shutdown.Judge(api.M().seen.value)
            case AllIdle => result.QueryComplete?
            case Active => result.ActiveQueries?
            case Unknown => if WindowPassed(start, api.now, api.drainWindow) then result.TimeFallback? else result.QueryCheckError?
    ensures complete <==> result.QueryComplete? || result.TimeFallback?
    ensures api.M().removal == if complete then 1 else 0
  {
    var present := api.Clock();
    var elapsed := DrainElapsed(start, present, api.drainWindow);
    var fallbackReady := elapsed >= api.drainWindow;
    var v := CheckQueries(api);
    if v.Unknown? {
      complete, result := fallbackReady, if fallbackReady then TimeFallback else QueryCheckError;
    } else if v.AllIdle? {
      complete, result := true, QueryComplete;
    } else {
      complete, result := false, ActiveQueries;
    }
    AfterJudged(api.M(), complete, present);
    api.Emit(DrainJudged(complete, present));
  }

  /** A stored version carries the present as its drain start. */
  ghost predicate StartStored(api: Api)
    reads api
  {
    exists x :: x in api.versions && DrainStartedAt in x.annotations && x.annotations[DrainStartedAt] == FormatTime(api.now)
  }

  /** First deletion pass: drain the route, and only then store when that was. */
  method StartDrain(api: Api) returns (stored: bool)
    requires api.Valid() && InDeletion(api.M())
    modifies api
    ensures api.Valid() && api.Grew() && api.M().read == old(api.M()).read
    ensures |old(api.trace)| < |api.trace| && api.trace[|old(api.trace)|].Called? && api.trace[|old(api.trace)|].op.DrainRoute?
    ensures api.Smooth() ==> stored
    ensures stored ==> api.M().drained && |api.writes| == |old(api.writes)| + 1
    ensures stored ==> StartStored(api)
  {
    var c := api.CallCleanup(DrainRoute);
    if !c.Done? {
      return false;
    }
    var r, last, k := api.OnConflictWithRefresh(RecordDrainStart);
    stored := r.Written?;
    assert stored ==> r.x in api.versions && DrainStartedAt in r.x.annotations;
  }

  /** The object in memory is the one fetched last, apart from its annotations. */
  ghost predicate Fetched(api: Api, x: XTrinode)
    reads api
  {
    && api.M().fetch.hand.Some?
    && x.spec == api.M().fetch.hand.value.spec && x.status == api.M().fetch.hand.value.status
  }

  /** Either this pass stored the completion, or an earlier one had; the object in memory is the latest read. */
  method StoreDrainCompletion(api: Api, result: DrainResult) returns (ok: bool, x: XTrinode)
    requires api.Valid() && InDeletion(api.M())
    modifies api
    ensures api.Valid() && OnlyFetched(old(api.M()), api.M()) && api.Grew()
    ensures api.Smooth() ==> ok
    ensures ok ==> x in api.versions && Lookup(x.annotations, DrainCompletedAt) != Plain("") && Fetched(api, x)
  {
    var completedAt := api.Clock();
    var text := if result.QueryComplete? then "query_complete" else "time_fallback";
    var r, last, k := api.OnConflictWithRefresh(MarkDrainComplete(FormatTime(completedAt), Plain(text)));
    match r {
      case Written(y) => ok, x := true, y;
      case Skipped(y) => ok, x := true, y;
      case _ => ok, x := false, api.versions[0];
    }
  }

  /** Only the pool work of this pass may differ. */
  ghost predicate OnlyPoolWork(m: Monitor, m': Monitor) {
    m' == m.(fetch := m.fetch.(pool := m'.fetch.pool))
  }

  /** Takes the runtime's references off one resource; `ok` is the call's own report. */
  method ReleaseResource(api: Api, part: Part) returns (ok: bool)
    requires api.Valid() && (InDeletion(api.M()) ==> api.M().removal >= 2)
    modifies api`trace, api`mon, api`writes, api`setbacks
    ensures api.Valid() && api.writes == old(api.writes) && OnlyPoolWork(old(api.M()), api.M()) && api.Grew()
    ensures api.Smooth() <==> ok
    ensures forall p :: p in old(api.M()).fetch.pool.tried && p != part ==>
              p in api.M().fetch.pool.tried && api.M().fetch.pool.tried[p] == old(api.M()).fetch.pool.tried[p]
    ensures ok ==> part in api.M().fetch.pool.tried && Succeeded(api.M().fetch.pool.tried[part], api.self)
    ensures api.M().fetch.pool.scaled == old(api.M()).fetch.pool.scaled
  {
    var met := api.MeetRelease(part);
    if !met.Some? {
      return false;
    }
    match met.value {
      case Gone =>
        ok := true;
      case Tried(versions, k, others, reply) =>
        var after, seen;
        ok, after, seen := OwnerRefs.RemoveOwnerReference(versions, k, others, reply, api.self);
    }
  }

  /** Releases both resources of a pool from the runtime. */
  method RetainNodePool(api: Api) returns (ok: bool)
    requires api.Valid() && (InDeletion(api.M()) ==> api.M().removal >= 2)
    modifies api`trace, api`mon, api`writes, api`setbacks
    ensures api.Valid() && api.writes == old(api.writes) && OnlyPoolWork(old(api.M()), api.M()) && api.Grew()
    ensures api.Smooth() ==> ok
    ensures ok ==> BothReleased(api.M())
    ensures api.M().fetch.pool.scaled == old(api.M()).fetch.pool.scaled
  {
    var supported := api.Ask();
    if !supported.Some? {
      return false;
    }
    ok := ReleaseResource(api, MachinePart);
    if ok {
      ok := ReleaseResource(api, InfraPart);
    }
  }

  /** A pool that left the spec can be found again by its observed provider. */
  predicate Releasable(x: XTrinode) {
    x.spec.pool.Some? || x.status.observedPool != Some("")
  }

  /** The node-pool part of the clean-up; success means the pool of this object was left as its policy asks. */
  method CleanupNodePool(api: Api, x: XTrinode) returns (ok: bool)
    requires api.Valid() && InDeletion(api.M()) && Fetched(api, x) && api.M().removal >= 2
    modifies api`trace, api`mon, api`writes, api`setbacks
    ensures api.Valid() && api.writes == old(api.writes) && Fetched(api, x) && api.Grew()
    ensures api.Smooth() && Releasable(x) ==> ok
    ensures api.M() == old(api.M()).(fetch := old(api.M()).fetch.(pool := api.M().fetch.pool), removal := api.M().removal)
    ensures ok ==> PoolSettled(api.M()) && api.M().removal == Climb(old(api.M()).removal, 4)
    ensures !ok ==> api.M().removal == old(api.M()).removal
  {
    ok := SettlePool(api, x);
    if ok {
      AfterPoolLeft(api.M());
      api.Emit(PoolLeft);
    }
  }

  method SettlePool(api: Api, x: XTrinode) returns (ok: bool)
    requires api.Valid() && InDeletion(api.M()) && Fetched(api, x) && api.M().removal >= 2
    modifies api`trace, api`mon, api`writes, api`setbacks
    ensures api.Valid() && api.writes == old(api.writes) && OnlyPoolWork(old(api.M()), api.M()) && api.Grew()
    ensures api.Smooth() && Releasable(x) ==> ok
    ensures ok ==> PoolSettled(api.M())
  {
    if x.spec.pool.Some? {
      match x.spec.pool.value.policy {
        case Retain => ok := RetainNodePool(api);
        case ScaleToZero => ok := ScaleToZeroAndRetain(api);
        case Delete =>
          TryDeletePool(api);
          ok := true;   // a failed deletion is tolerated
      }
    } else if x.status.observedPool.Some? {
      ok := x.status.observedPool.value != "";
      if ok {
        ok := RetainNodePool(api);
      }
    } else {
      ok := true;
    }
  }

  method ScaleToZeroAndRetain(api: Api) returns (ok: bool)
    requires api.Valid() && InDeletion(api.M()) && api.M().removal >= 2
    modifies api`trace, api`mon, api`writes, api`setbacks
    ensures api.Valid() && api.writes == old(api.writes) && OnlyPoolWork(old(api.M()), api.M()) && api.Grew()
    ensures api.Smooth() ==> ok
    ensures ok ==> api.M().fetch.pool.scaled && BothReleased(api.M())
  {
    var c := api.CallCleanup(ScalePoolToZero);
    ok := c.Done?;
    if ok {
      ok := RetainNodePool(api);
    }
  }

  method TryDeletePool(api: Api)
    requires api.Valid() && InDeletion(api.M()) && api.M().removal >= 2
    modifies api`trace, api`mon, api`writes, api`setbacks
    ensures api.Valid() && api.writes == old(api.writes) && OnlyPoolWork(old(api.M()), api.M()) && api.Grew()
    ensures api.M().fetch.pool.deleteTried
  {
    var c := api.CallCleanup(DeletePool);
  }

  predicate IsCall(e: Event, op: Op) {
    e.Called? && e.op == op
  }

  /** The deletions of the ScaledObject, if KEDA is used, and of the Trino resources. */
  predicate WorkloadDeleted(since: seq<Event>, keda: bool) {
    if keda then |since| == 2 && IsCall(since[0], DeleteScaledObject) && IsCall(since[1], DeleteTrino)
    else |since| == 1 && IsCall(since[0], DeleteTrino)
  }

  /** Deletes the ScaledObject and the Trino resources; failures are only logged. */
  method DeleteWorkload(api: Api, x: XTrinode)
    requires api.Valid() && InDeletion(api.M()) && api.M().removal >= 2
    modifies api`trace, api`mon, api`writes, api`setbacks
    ensures api.Valid() && api.writes == old(api.writes) && api.M() == old(api.M()) && api.Grew()
    ensures WorkloadDeleted(api.trace[|old(api.trace)|..], x.spec.kedaEnabled)
  {
    if x.spec.kedaEnabled {
      var c := api.CallCleanup(DeleteScaledObject);
    }
    var c := api.CallCleanup(DeleteTrino);
  }

  /** Every part is attempted; one critical failure is enough to keep the finalizer. */
  method CleanupResources(api: Api, x: XTrinode) returns (ok: bool)
    requires api.Valid() && InDeletion(api.M()) && Fetched(api, x) && api.M().removal == 2
    modifies api`trace, api`mon, api`writes, api`setbacks
    ensures api.Valid() && api.writes == old(api.writes) && api.Grew()
    ensures api.M().read == old(api.M()).read && api.M().pods == old(api.M()).pods
    ensures var n, w := |old(api.trace)| + 1, if x.spec.kedaEnabled then 2 else 1;
            && n + w <= |api.trace| && IsCall(api.trace[n - 1], RemoveRoute)
            && WorkloadDeleted(api.trace[n..n + w], x.spec.kedaEnabled)
    ensures api.Smooth() && Releasable(x) ==> ok
    ensures ok ==> api.M().removal == 4
  {
    var c := api.CallCleanup(RemoveRoute);
    DeleteWorkload(api, x);
    ghost var done := api.trace;
    var poolOk := CleanupNodePool(api, x);
    assert done <= api.trace && api.trace[|old(api.trace)| + 1..|done|] == done[|old(api.trace)| + 1..];
    ok := c.Done? && poolOk;
  }

  /** The last write took the finalizer off, and the version stored by it is without one. */
  ghost predicate RemovedLast(api: Api)
    reads api
  {
    && |api.writes| > 0
    && var w := api.writes[|api.writes| - 1];
       && w.MetaWritten? && w.edit.RemoveFinalizer?
       && exists k :: 0 < k < |api.versions| && api.versions[k - 1] == w.before && !api.versions[k].finalizer
  }

  /**
   After a completed drain. `cleaned` is the object the clean-up worked on. If nothing gets in the way, pods are
   listed; and if none is in grace and the pool can be released, the finalizer goes.
   */
  method FinishDeletion(api: Api, result: DrainResult) returns (gone: bool, ghost cleaned: XTrinode)
    requires api.Valid() && InDeletion(api.M()) && api.M().removal == 1
    modifies api
    ensures api.Valid() && api.Grew() && api.M().read == old(api.M()).read
    ensures gone ==> RemovedLast(api)
    ensures api.Smooth() ==> Ended(api, cleaned, gone)
  {
    var ok, x := StoreDrainCompletion(api, result);
    cleaned := x;
    if !ok {
      return false, cleaned;
    }
    ghost var listed;
    ok, listed := WaitForPodTermination(api);
    if !ok {
      return false, cleaned;
    }
    ok := CleanupResources(api, x);
    if !ok {
      return false, cleaned;
    }
    gone := LetGo(api);
  }

  /** The object cleaned up is a stored one; unless its pods or its pool hold it back, it is gone. */
  ghost predicate Ended(api: Api, cleaned: XTrinode, gone: bool)
    reads api
  {
    && cleaned in api.versions && api.M().pods.Some?
    && (Shutdown.NoneInGrace(api.M().pods.value, api.now) && Releasable(cleaned) ==> gone)
  }

  /** Guardrails first, then the finalizer. */
  method LetGo(api: Api) returns (gone: bool)
    requires api.Valid() && InDeletion(api.M()) && api.M().removal == 4
    modifies api
    ensures api.Valid() && api.Grew() && api.M().read == old(api.M()).read && api.M().pods == old(api.M()).pods
    ensures api.Smooth() ==> gone
    ensures gone ==> RemovedLast(api)
  {
    var c := api.CallCleanup(RecomputeGuardrails);
    if !c.Done? {
      return false;
    }
    var r, last, k := api.OnConflictWithRefresh(RemoveFinalizer);
    gone := r.Written?;
  }

  /** The first thing logged since is a drain of the route. */
  predicate DrainTriedFirst(since: seq<Event>) {
    |since| > 0 && since[0].Called? && since[0].op.DrainRoute?
  }

  /** The first things logged since are a query check and a judgement on it. */
  predicate JudgedFirst(since: seq<Event>) {
    |since| > 1 && since[0].QueriesSeen? && since[1].DrainJudged?
  }

  /**
   One deletion pass over the object read. Without the finalizer it does nothing. With it, and no drain start, it
   drains the route, and stores the start if nothing gets in the way. With a start it checks the queries and judges
   the drain; a complete drain ends in the removal of the finalizer, again if nothing gets in the way.
   */
  method Finalize(api: Api, x: XTrinode) returns (gone: bool, ghost cleaned: XTrinode)
    requires api.Valid() && api.M().read == Some(x) && x.deleting && x in api.versions
    modifies api
    ensures api.Valid() && api.Grew() && api.M().read == old(api.M()).read
    ensures gone ==> RemovedLast(api)
    ensures !x.finalizer ==> api.trace == old(api.trace) && !gone
    ensures x.finalizer && DrainStartedAt !in x.annotations ==>
              DrainTriedFirst(api.trace[|old(api.trace)|..]) && (api.Smooth() ==> StartStored(api))
    ensures x.finalizer && DrainStartedAt in x.annotations ==> JudgedFirst(api.trace[|old(api.trace)|..])
    ensures x.finalizer && DrainStartedAt in x.annotations && api.trace[|old(api.trace)| + 1].complete && api.Smooth() ==>
              Ended(api, cleaned, gone)
  {
    gone, cleaned := false, x;
    if !x.finalizer {
      return;
    }
    if DrainStartedAt !in x.annotations {
      var started := StartDrain(api);
      return;
    }
    assert Sound(x, api.created, api.M().fetch.recorded);
    var complete, result := QueryAwareDrainComplete(api, x.annotations[DrainStartedAt]);
    if complete {
      gone, cleaned := FinishDeletion(api, result);
    }
  }
}
