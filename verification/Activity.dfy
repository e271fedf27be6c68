/** Trino's answers about its queries: which are running, and when one was last active. */
module Activity {
  import opened Options
  import opened Model
  import Shutdown

  /**
   One query of the list: its state, the readable times among its own six time fields and among those of
   its statistics block, if it has one.
   */
  datatype Query = Query(state: string, fields: seq<Option<int>>, stats: Option<seq<Option<int>>>)

  datatype Summary = Summary(active: nat, latest: Option<int>)

  function Times(q: Query): seq<Option<int>> {
    q.fields + (if q.stats.Some? then q.stats.value else [])
  }

  /** `r` is the newest of the readable times, and is absent only if none is readable. */
  predicate Newest(r: Option<int>, times: seq<Option<int>>) {
    && (r.Some? ==> r in times)
    && forall i :: 0 <= i < |times| && times[i].Some? ==> r.Some? && times[i].value <= r.value
  }

  /** The newest time over all queries and all their fields. */
  predicate NewestOverall(r: Option<int>, queries: seq<Query>) {
    && (r.Some? ==> exists i :: 0 <= i < |queries| && r in Times(queries[i]))
    && forall i, j :: 0 <= i < |queries| && 0 <= j < |Times(queries[i])| && Times(queries[i])[j].Some? ==>
         r.Some? && Times(queries[i])[j].value <= r.value
  }

  method ScanFields(times: seq<Option<int>>, start: Option<int>, ghost before: seq<Option<int>>) returns (latest: Option<int>)
    requires Newest(start, before)
    ensures Newest(latest, before + times)
  {
    latest := start;
    for i := 0 to |times|
      invariant Newest(latest, before + times[..i])
    {
      assert before + times[..i + 1] == (before + times[..i]) + [times[i]];
      if times[i].Some? && (latest.None? || times[i].value > latest.value) {
        latest := times[i];
      }
    }
    assert times[..|times|] == times;
  }

  method LatestQueryTimestamp(q: Query) returns (latest: Option<int>)
    ensures Newest(latest, Times(q))
  {
    latest := ScanFields(q.fields, None, []);
    assert [] + q.fields == q.fields;
    if q.stats.Some? {
      latest := ScanFields(q.stats.value, latest, q.fields);
    }
  }

  method QueryActivity(queries: seq<Query>) returns (a: Summary)
    ensures a.active == 0 <==> forall i :: 0 <= i < |queries| ==> Shutdown.Terminal(queries[i].state)
    ensures NewestOverall(a.latest, queries)
  {
    var active, latest := 0, None;
    for n := 0 to |queries|
      invariant active == 0 <==> forall i :: 0 <= i < n ==> Shutdown.Terminal(queries[i].state)
      invariant NewestOverall(latest, queries[..n])
    {
      if !Shutdown.Terminal(queries[n].state) {
        active := active + 1;
      }
      var t := LatestQueryTimestamp(queries[n]);
      var was := latest;
      if t.Some? && (latest.None? || t.value > latest.value) {
        latest := t;
      }
      ExtendNewest(was, t, queries[..n], queries[n]);
      assert queries[..n] + [queries[n]] == queries[..n + 1];
    }
    assert queries[..|queries|] == queries;
    a := Summary(active, latest);
  }

  lemma ExtendNewest(r: Option<int>, t: Option<int>, queries: seq<Query>, q: Query)
    requires NewestOverall(r, queries) && Newest(t, Times(q))
    ensures NewestOverall(if Later(t, r) then t else r, queries + [q])
  {
    var all, best := queries + [q], if Later(t, r) then t else r;
    if best.Some? {
      if Later(t, r) {
        assert best in Times(all[|queries|]);
      } else {
        var i :| 0 <= i < |queries| && r in Times(queries[i]);
        assert best in Times(all[i]);
      }
    }
    forall i, j | 0 <= i < |all| && 0 <= j < |Times(all[i])| && Times(all[i])[j].Some?
      ensures best.Some? && Times(all[i])[j].value <= best.value
    {
      if i < |queries| {
        assert all[i] == queries[i];
      }
    }
  }

  /** What the two endpoints answered: the summed metrics value, and the query list. */
  datatype Reply = Reply(credential: bool, metrics: Option<real>, queries: Option<seq<Query>>)

  /** An answer that tells whether queries run: the metrics say so, or the list came. */
  predicate Usable(r: Reply) {
    r.credential && ((r.metrics.Some? && r.metrics.value > 0.0) || r.queries.Some?)
  }

  ghost predicate SomeRunning(queries: seq<Query>) {
    exists i :: 0 <= i < |queries| && !Shutdown.Terminal(queries[i].state)
  }

  /** Queries count as running if the metrics say so, or if the list was consulted and shows a live one. */
  ghost predicate ShowsActive(r: Reply) {
    if r.metrics.Some? && r.metrics.value > 0.0 then true
    else r.queries.Some? && SomeRunning(r.queries.value)
  }

  /** The newest query time known from the reply; the metrics alone tell none. */
  ghost predicate ShowsLatest(r: Reply, latest: Option<int>) {
    if r.metrics.Some? && r.metrics.value > 0.0 then latest.None?
    else r.queries.Some? && NewestOverall(latest, r.queries.value)
  }
}
