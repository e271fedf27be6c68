/** Idle detection from Trino's answers, and the request it may lead to. */
module AutoSuspend {
  import opened Options
  import opened Model
  import opened Activity
  import opened Trace
  import opened ApiServer

  /** A runtime object in memory: read from this API server, perhaps with its status changed since. */
  ghost predicate Held(api: Api, x: XTrinode)
    reads api
  {
    x.created == api.created && ActivityOk(x.created, x.status.lastActivity)
  }

  /** Its spec is that of the object fetched last, and its wake window is the one the log knows. */
  ghost predicate Tracked(api: Api, x: XTrinode)
    reads api
  {
    api.M().fetch.hand.Some? && x.spec == api.M().fetch.hand.value.spec && x.status.wake == api.M().fetch.wake
  }

  /**
   Stores an activity time, never one in the future, over whatever time is stored. `v` is the time sent. After a
   failure the object in memory is the one fetched last, already carrying that time, if any was fetched.
   */
  method UpdateLastActivityAt(api: Api, x: XTrinode, t: int) returns (ok: bool, x': XTrinode, ghost v: int, ghost k: nat)
    requires api.Valid() && Held(api, x) && IsLive(api.M()) && api.created <= t
    modifies api
    ensures api.Valid() && OnlyFetched(old(api.M()), api.M())
    ensures Held(api, x') && api.Grew()
    ensures v <= api.now && Min(t, old(api.now)) <= v && (t <= old(api.now) ==> v == t)
    ensures api.Smooth() ==> ok
    ensures ok ==> |old(api.versions)| <= k && api.ActivityStored(v, k, old(api.writes))
    ensures ok ==> x'.status.lastActivity == Some(v)
    ensures api.Stamped(Some(x'), v) || (!ok && x' == x && api.M() == old(api.M()))
  {
    var activity := t;
    var present := api.Clock();
    if activity > present {
      activity := api.Clock();
    }
    v := activity;
    var r, last;
    r, last, k := api.RefreshAndSetActivity(activity);
    ok := r.Written?;
    x' := x;
    if last.Some? {
      x' := last.value;
    }
  }

  /** The time sent fits what was shown: sent exactly if needed, and a past query time is sent as it is. */
  ghost predicate SentFits(x: XTrinode, x': XTrinode, latest: Option<int>, active: bool, at: int, written: Option<int>) {
    var known := ActivityOrCreation(x);
    && SignOfLife(known, latest, active, at) <= ActivityOrCreation(x')
    && (written.Some? <==> active || (latest.Some? && latest.value > known))
    && (!active && latest.Some? && known < latest.value <= at ==> written == latest)
  }

  /** `written` is the time sent to the server, if one was, and `k` the version it was stored as. */
  method UpdateLastActivityIfQueriesActive(api: Api, x: XTrinode)
    returns (ok: bool, x': XTrinode, ghost latest: Option<int>, ghost written: Option<int>, ghost k: nat)
    requires api.Valid() && Held(api, x) && IsLive(api.M()) && Tracked(api, x)
    modifies api
    ensures api.Valid() && api.M() == old(api.M()).(fetch := api.M().fetch, idle := api.M().idle)
    ensures Held(api, x') && Tracked(api, x') && api.Grew()
    ensures api.M().idle.answer.Some? && !api.M().idle.judged && api.M().idle.answeredAt <= api.now
    ensures api.Smooth() ==> ok
    ensures ok ==> ShowsLatest(api.M().idle.answer.value, latest)
    ensures ok ==> SentFits(x, x', latest, ShowsActive(api.M().idle.answer.value), api.M().idle.answeredAt, written)
    ensures ok && written.Some? ==> api.ActivityStored(written.value, k, old(api.writes))
  {
    x', latest, written, k := x, None, None, 0;
    var answer := api.AskTrino();
    if !answer.credential {
      return false, x', latest, written, k;
    }
    if answer.metrics.Some? && answer.metrics.value > 0.0 {
      ghost var v;
      var present := api.Clock();
      ok, x', v, k := UpdateLastActivityAt(api, x, present);
      written := Some(v);
      return;
    }
    if answer.queries.None? {
      return false, x', latest, written, k;
    }
    ok, x', latest, written, k := UpdateLastActivityFromQueries(api, x, answer.queries.value);
  }

  method UpdateLastActivityFromQueries(api: Api, x: XTrinode, queries: seq<Query>)
    returns (ok: bool, x': XTrinode, ghost latest: Option<int>, ghost written: Option<int>, ghost k: nat)
    requires api.Valid() && Held(api, x) && IsLive(api.M()) && Tracked(api, x)
    modifies api
    ensures api.Valid() && OnlyFetched(old(api.M()), api.M())
    ensures Held(api, x') && Tracked(api, x') && api.Grew()
    ensures NewestOverall(latest, queries)
    ensures api.Smooth() ==> ok
    ensures ok ==> SentFits(x, x', latest, SomeRunning(queries), old(api.now), written)
    ensures ok && written.Some? ==> api.ActivityStored(written.value, k, old(api.writes))
  {
    x', written, k := x, None, 0;
    var a := QueryActivity(queries);
    latest := a.latest;
    if a.active == 0 && (a.latest.None? || a.latest.value <= ActivityOrCreation(x)) {
      return true, x', latest, written, k;
    }
    var t;
    if a.active > 0 {
      t := api.Clock();
    } else {
      t := a.latest.value;
    }
    ghost var v;
    ok, x', v, k := UpdateLastActivityAt(api, x, t);
    written := Some(v);
  }

  /** The object was reloaded, or that failed; a reloaded one is in hand, and its activity is not lost. */
  ghost predicate Reread(api: Api, x: XTrinode)
    reads api
  {
    && !api.M().idle.reload.NotReloaded?
    && (api.M().idle.reload.ReloadedAs? ==>
          && api.M().fetch.hand == Some(api.M().idle.reload.x)
          && ActivityOrCreation(api.M().idle.reload.x) <= ActivityOrCreation(x))
  }

  /** An idle decision is possible: the answer is in and all signs of life are in the object's activity time. */
  ghost predicate Observed(api: Api, x: XTrinode, latest: Option<int>)
    reads api
  {
    && api.Valid() && Tracked(api, x) && IsLive(api.M()) && api.M().idle.answer.Some?
    && ShowsLatest(api.M().idle.answer.value, latest)
    && SignOfLife(KnownActivity(api.M()), latest, ShowsActive(api.M().idle.answer.value), api.M().idle.answeredAt)
       <= ActivityOrCreation(x)
    && Reread(api, x)
  }

  /** Suspend exactly if configured, not suspended, outside a wake window, and idle for the threshold. */
  method CheckAutoSuspend(api: Api, x: XTrinode, ghost latest: Option<int>)
    returns (yes: bool, ghost wakeTestedAt: int, ghost idleTestedAt: int)
    requires Observed(api, x, latest)
    modifies api`trace, api`mon, api`writes, api`setbacks, api`now
    ensures api.Valid() && api.writes == old(api.writes) && api.Grew() && api.Smooth()
    ensures old(api.now) <= wakeTestedAt <= idleTestedAt == api.now
    ensures yes <==> Due(x, wakeTestedAt, idleTestedAt)
    ensures api.M() == old(api.M()).(fetch := api.M().fetch, idle := old(api.M()).idle.(judged := api.M().idle.judged))
    ensures api.M().idle.judged <==> yes || old(api.M()).idle.judged
  {
    wakeTestedAt, idleTestedAt := api.now, api.now;
    if x.spec.autoSuspendAfter.None? || x.spec.suspended {
      return false, wakeTestedAt, idleTestedAt;
    }
    var closed;
    closed, wakeTestedAt := WakeWindowClosed(api, x);
    if !closed {
      return false, wakeTestedAt, api.now;
    }
    yes := IdleLongEnough(api, x, latest);
    idleTestedAt := api.now;
  }

  method WakeWindowClosed(api: Api, x: XTrinode) returns (closed: bool, ghost at: int)
    requires api.Valid() && x.status.wake == api.M().fetch.wake && api.M().idle.answer.Some?
    modifies api`trace, api`mon, api`writes, api`setbacks, api`now
    ensures api.Valid() && api.writes == old(api.writes) && old(api.now) <= at == api.now && api.Grew() && api.Smooth()
    ensures closed <==> !WakeActive(x.status.wake, at)
    ensures api.M() == old(api.M()).(fetch := old(api.M()).fetch.(now := api.M().fetch.now, wakeTested := api.M().fetch.wakeTested))
    ensures closed ==> api.M().fetch.wakeTested
  {
    at := api.now;
    if x.status.wake.Some? {
      var present := api.Clock();
      at := present;
      if present < x.status.wake.value.expiresAt {
        return false, at;
      }
    }
    AfterWakeTested(api.M(), api.now);
    api.Emit(WakeTested(api.now));
    closed := true;
  }

  method IdleLongEnough(api: Api, x: XTrinode, ghost latest: Option<int>) returns (yes: bool)
    requires Observed(api, x, latest) && api.M().fetch.wakeTested && x.spec.autoSuspendAfter.Some? && !x.spec.suspended
    modifies api`trace, api`mon, api`writes, api`setbacks, api`now
    ensures api.Valid() && api.writes == old(api.writes) && api.Grew() && api.Smooth()
    ensures yes <==> api.now - ActivityOrCreation(x) >= x.spec.autoSuspendAfter.value
    ensures api.M() == old(api.M()).(fetch := api.M().fetch, idle := old(api.M()).idle.(judged := api.M().idle.judged))
    ensures api.M().idle.judged <==> yes || old(api.M()).idle.judged
  {
    var lastActivity := x.created;
    if x.status.lastActivity.Some? {
      lastActivity := x.status.lastActivity.value;
    }
    var present := api.Clock();
    yes := present - lastActivity >= x.spec.autoSuspendAfter.value;
    if yes {
      AfterIdleJudged(api.M(), latest, api.now);
      api.Emit(IdleJudged(latest, api.now));
    }
  }

  /** The first half of the check: note query activity, reload the object, and keep the later activity time. */
  method ObserveActivity(api: Api, x: XTrinode) returns (ok: bool, x': XTrinode, ghost latest: Option<int>)
    requires api.Valid() && Held(api, x) && IsLive(api.M()) && Tracked(api, x)
    requires x.status.lastActivity == api.M().activity && api.M().read.value.created == x.created
    modifies api
    ensures api.Valid() && api.M() == old(api.M()).(fetch := api.M().fetch, idle := api.M().idle)
    ensures Held(api, x') && api.Grew() && api.M().idle.answer.Some? && !api.M().idle.judged
    ensures api.Smooth() ==> ok && api.M().idle.reload.ReloadedAs?
    ensures ok ==> Observed(api, x', latest)
    ensures ok && api.M().idle.reload.ReloadedAs? ==> ReadAs(x', api.M().idle.reload.x)
  {
    ghost var written, k;
    ok, x', latest, written, k := UpdateLastActivityIfQueriesActive(api, x);
    if !ok {
      return;
    }
    x' := RereadObject(api, x');
  }

  /** Reloads the object and keeps the later of the two activity times; a failed read leaves the object as it is. */
  method RereadObject(api: Api, x: XTrinode) returns (x': XTrinode)
    requires api.Valid() && Held(api, x) && Tracked(api, x)
    modifies api`versions, api`trace, api`mon, api`writes, api`setbacks
    ensures api.Valid() && api.writes == old(api.writes) && api.Grew()
    ensures api.M() == old(api.M()).(fetch := api.M().fetch, idle := old(api.M()).idle.(reload := api.M().idle.reload))
    ensures Held(api, x') && Tracked(api, x') && Reread(api, x')
    ensures api.Smooth() <==> api.M().idle.reload.ReloadedAs?
    ensures api.M().idle.reload.ReloadedAs? ==> ReadAs(x', api.M().idle.reload.x)
    ensures ActivityOrCreation(x) <= ActivityOrCreation(x')
  {
    x' := x;
    var got := api.Reload();
    AfterReloaded(old(api.M()), if got.Found? then Some(got.x) else None);
    if got.Found? {
      x' := got.x;
      assert Sound(x', api.created, api.M().fetch.recorded);
    }
    if Later(x.status.lastActivity, x'.status.lastActivity) {
      x' := x'.(status := x'.status.(lastActivity := x.status.lastActivity));
    }
  }

  datatype CheckResult = Requested | NotDue | CheckFailed | RequestFailed

  /** At their clock readings: configured, not suspended, outside a wake window, and idle for the threshold. */
  predicate Due(x: XTrinode, wakeTestedAt: int, idleTestedAt: int) {
    && x.spec.autoSuspendAfter.Some?
    && !x.spec.suspended
    && !WakeActive(x.status.wake, wakeTestedAt)
    && idleTestedAt - ActivityOrCreation(x) >= x.spec.autoSuspendAfter.value
  }

  /**
   A request is only ever sent after an idle decision that counted the activity time in memory, every query time
   and running queries, whatever the query list was and however old the refreshed object is. If nothing gets in the
   way it is sent exactly when the object, with the latest sign of life, is due.
   */
  method AutoSuspendIfNeeded(api: Api, x: XTrinode)
    returns (r: CheckResult, x': XTrinode, ghost judged: XTrinode, ghost wakeTestedAt: int, ghost idleTestedAt: int)
    requires api.Valid() && Held(api, x) && GoesUp(api.M()) && Tracked(api, x)
    requires x.status.lastActivity == api.M().activity && api.M().read.value.created == x.created
    modifies api
    ensures api.Valid() && api.M() == old(api.M()).(fetch := api.M().fetch, idle := api.M().idle)
    ensures Held(api, x') && api.Grew()
    ensures r.Requested? || r.RequestFailed? ==> api.M().idle.judged
    ensures r.Requested? ==>
              && |api.writes| > 0
              && api.writes[|api.writes| - 1].MetaWritten?
              && api.writes[|api.writes| - 1].edit.RequestAutoSuspend?
    ensures api.Smooth() ==> r == if Due(judged, wakeTestedAt, idleTestedAt) then Requested else NotDue
    ensures api.Smooth() ==>
              && old(api.now) <= wakeTestedAt <= idleTestedAt <= api.now
              && api.M().idle.reload.ReloadedAs? && ReadAs(judged, api.M().idle.reload.x)
    ensures api.M().idle.answer.Some?
    ensures api.Smooth() ==> AllSignsCounted(api.M(), judged) && (api.M().idle.judged <==> r.Requested?)
  {
    var ok;
    ghost var latest;
    ok, x', latest := ObserveActivity(api, x);
    judged, wakeTestedAt, idleTestedAt := x', api.now, api.now;
    if !ok {
      r := CheckFailed;
      return;
    }
    var yes;
    yes, wakeTestedAt, idleTestedAt := CheckAutoSuspend(api, x', latest);
    if !yes {
      r := NotDue;
      return;
    }
    var requested;
    requested, x' := RequestSuspension(api, x');
    r := if requested then Requested else RequestFailed;
  }

  /** The object's activity time is not before any sign of life in the answer, nor the one the pass had in memory. */
  ghost predicate AllSignsCounted(m: Monitor, x: XTrinode) {
    && m.read.Some? && m.idle.answer.Some?
    && exists latest :: ShowsLatest(m.idle.answer.value, latest)
         && SignOfLife(KnownActivity(m), latest, ShowsActive(m.idle.answer.value), m.idle.answeredAt) <= ActivityOrCreation(x)
  }

  /** The object as it was read, with its activity time or a later one. */
  predicate ReadAs(x: XTrinode, read: XTrinode) {
    && x == read.(status := read.status.(lastActivity := x.status.lastActivity))
    && ActivityOrCreation(read) <= ActivityOrCreation(x)
  }

  method RequestSuspension(api: Api, x: XTrinode) returns (requested: bool, x': XTrinode)
    requires api.Valid() && Held(api, x) && GoesUp(api.M()) && api.M().idle.judged
    modifies api
    ensures api.Valid() && OnlyFetched(old(api.M()), api.M()) && Held(api, x') && api.Grew()
    ensures api.Smooth() ==> requested
    ensures requested ==>
              && |api.writes| > 0
              && api.writes[|api.writes| - 1].MetaWritten?
              && api.writes[|api.writes| - 1].edit.RequestAutoSuspend?
  {
    ghost var k;
    var r, last;
    r, last, k := api.OnConflictWithRefresh(RequestAutoSuspend);
    requested := r.Written?;
    x' := x;
    if last.Some? {
      x' := last.value;
      assert Sound(api.M().fetch.hand.value, api.created, api.M().fetch.recorded);
    }
  }

  /* ---- activity can move back ---- */

  /** Sending an activity time lowers the stored one exactly when that exists and lies above the whole second sent. */
  lemma ActivityLoweredIff(stored: Status, t: int)
    requires WholeSeconds(stored)
    ensures !NotLowered(stored.lastActivity, ApplyStatus(SetActivity(t), stored).lastActivity)
       <==> stored.lastActivity.Some? && Trunc(t) < stored.lastActivity.value
  {
  }

  /** One query, finished at `t`, and no running one. */
  function OneFinished(t: int): Reply {
    Reply(true, Some(0.0), Some([Query("FINISHED", [Some(t)], None)]))
  }

  lemma OneFinishedShows(t: int, latest: Option<int>)
    requires ShowsLatest(OneFinished(t), latest)
    ensures latest == Some(t) && !ShowsActive(OneFinished(t))
  {
    var queries := OneFinished(t).queries.value;
    assert Times(queries[0]) == [Some(t)];
    assert Times(queries[0])[0] == Some(t);
  }

  /**
   It does happen, from a stale object: the operator holds `x`, and the answer shows one query that finished after
   the activity time of `x`. If the note of it succeeds, the version it landed on loses activity exactly when
   another writer had stored a time later than the second in which the query finished.
   */
  method RunFromStaleObject(api: Api, x: XTrinode, ghost finished: int) returns (ok: bool, x': XTrinode, ghost k: nat)
    requires api.Valid() && Held(api, x) && IsLive(api.M()) && Tracked(api, x)
    modifies api
    ensures api.Valid() && api.M().idle.answer.Some?
    ensures ok && api.M().idle.answer.value == OneFinished(finished) && ActivityOrCreation(x) < finished <= api.M().idle.answeredAt ==>
              && 0 < k < |api.versions|
              && var stored := api.versions[k - 1].status.lastActivity;
                 !NotLowered(stored, api.versions[k].status.lastActivity) <==> stored.Some? && Trunc(finished) < stored.value
  {
    ghost var latest, written;
    ok, x', latest, written, k := UpdateLastActivityIfQueriesActive(api, x);
    if ok && api.M().idle.answer.value == OneFinished(finished) && ActivityOrCreation(x) < finished <= api.M().idle.answeredAt {
      OneFinishedShows(finished, latest);
      assert Sound(api.versions[k - 1], api.created, api.M().fetch.recorded);
      ActivityLoweredIff(api.versions[k - 1].status, finished);
    }
  }

  /** Such objects exist: activity at 0, then 100 seconds, and a query finished after 50. */
  lemma StaleObjectWitness(spec: Spec)
    ensures var stale := XTrinode(map[], spec, Status(Ready, None, Some(0), None, map[]), true, false, 0);
            var latest := stale.(status := stale.status.(lastActivity := Some(100 * SECOND)));
            && Rely(stale, latest)
            && ActivityOrCreation(stale) < 50 * SECOND < latest.status.lastActivity.value
            && ApplyStatus(SetActivity(50 * SECOND), latest.status).lastActivity == Some(50 * SECOND)
  {
    assert Trunc(50 * SECOND) == 50 * SECOND;
  }
}
