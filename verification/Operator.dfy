/** One reconcile pass in order, and any run of passes among other writers. */
module Operator {
  import opened Options
  import opened Model
  import opened Trace
  import opened ApiServer
  import opened Suspend
  import Commands
  import Finalizer
  import Pipeline
  import Resume

  datatype IntakeResult = NothingRequested | RejectedResume | NotStored(exhausted: bool) | Processed(winner: Commands.Command)

  /** Exactly one write happened since: the plan's change, stored as version `k` directly on the one it was applied to. */
  ghost predicate Persisted(api: Api, plan: Commands.Plan, versions: seq<XTrinode>, writes: seq<Event>, k: nat)
    reads api
  {
    && 0 < |versions| <= k < |api.versions|
    && api.versions[k] == Commands.Mutate(plan, api.versions[k - 1])
    && api.versions[k].spec.suspended == (plan.winner != Commands.Resume)
    && |api.writes| == |writes| + 1 && writes <= api.writes
  }

  /**
   Command intake under any interleaving of other writers. A processed winner means that exactly one write
   happened, on top of version `k - 1`, and that it was the change belonging to the requests first read;
   without a winner, or with attempts used up, nothing was written to the object's metadata.
   */
  method ProcessCommands(api: Api, x: XTrinode) returns (r: IntakeResult, x': XTrinode, ghost k: nat)
    requires api.Valid() && api.M().read == Some(x) && !x.deleting
    modifies api
    ensures api.Valid() && OnlyFetched(old(api.M()), api.M()) && api.Grew()
    ensures api.Smooth() ==> !r.NotStored?
    ensures r.NothingRequested? <==> Commands.AllDetected(x.annotations) == []
    ensures r.RejectedResume? <==> Commands.IntakeOf(x.annotations).Rejected?
    ensures r.NothingRequested? || (r.NotStored? && r.exhausted) ==> api.writes == old(api.writes)
    ensures r.NothingRequested? || r.RejectedResume? ==> api.M() == old(api.M())
    ensures r.Processed? ==>
              && Commands.IntakeOf(x.annotations).Apply?
              && Commands.IsWinner(r.winner, Commands.AllDetected(x.annotations))
              && Commands.IntakeOf(x.annotations).plan.winner == r.winner.kind
              && Persisted(api, Commands.IntakeOf(x.annotations).plan, old(api.versions), old(api.writes), k)
    ensures SameCore(x, x') && x'.status.observedPool == x.status.observedPool
  {
    x', k := x, 0;
    var intake, winner := Commands.DecideIntake(x.annotations);
    Commands.IntakeMeaning(x.annotations);
    match intake {
      case Nothing =>
        r := NothingRequested;
      case Rejected =>
        x' := SetConditions(x);
        var conditions: string := *;
        var ignored, j := api.UpdateStatusWithRetry(RejectCommand(conditions));
        r := RejectedResume;
      case Apply(plan) =>
        var written, exhausted;
        written, exhausted, k := PersistCommands(api, plan);
        r := if written then Processed(winner.value) else NotStored(exhausted);
    }
  }

  /** The change is stored on top of the version it was computed from, whatever was written in between. */
  method PersistCommands(api: Api, plan: Commands.Plan) returns (written: bool, exhausted: bool, ghost k: nat)
    requires api.Valid() && EditAllowed(api.M(), ApplyCommands(plan))
    modifies api
    ensures api.Valid() && OnlyFetched(old(api.M()), api.M()) && api.Grew()
    ensures !(written && exhausted) && (api.Smooth() ==> written)
    ensures exhausted ==> api.writes == old(api.writes)
    ensures written ==> Persisted(api, plan, old(api.versions), old(api.writes), k)
  {
    var w, last;
    w, last, k := api.OnConflictWithRefresh(ApplyCommands(plan));
    written, exhausted := w.Written?, w.Exhausted?;
  }

  /**
   The consequence over two passes: a pass that reads the version an intake stored finds new requests only,
   so without new requests it takes in nothing.
   */
  lemma NextPassFindsNothing(read: XTrinode, stored: XTrinode)
    requires Commands.IntakeOf(read.annotations).Apply?
    requires Commands.NoNewRequests(read.annotations, stored.annotations)
    ensures Commands.IntakeOf(Commands.Mutate(Commands.IntakeOf(read.annotations).plan, stored).annotations).Nothing?
  {
    Commands.IntakeLoopEnds(read.annotations, stored);
    var after := Commands.Mutate(Commands.IntakeOf(read.annotations).plan, stored).annotations;
    Commands.WinnerOutranksAll(after, Commands.CommandOf(after, Commands.Resume));
  }

  /** The one write since stored a version that carries the finalizer. */
  ghost predicate FinalizerAdded(api: Api, count: nat, writes: seq<Event>)
    reads api
  {
    && |api.writes| == |writes| + 1 && writes <= api.writes
    && exists k :: 0 < k < |api.versions| && count <= k && api.versions[k] == api.versions[k - 1].(finalizer := true)
  }

  /** An object read without the finalizer is given one and left to the next pass. */
  method EnsureFinalizer(api: Api, x: XTrinode) returns (proceed: bool, added: bool)
    requires api.Valid() && IsLive(api.M())
    modifies api
    ensures api.Valid() && OnlyFetched(old(api.M()), api.M()) && api.Grew()
    ensures proceed <==> x.finalizer
    ensures proceed ==> api.M() == old(api.M()) && api.writes == old(api.writes) && api.now == old(api.now)
    ensures proceed ==> api.versions == old(api.versions) && api.Smooth()
    ensures added ==> !proceed && FinalizerAdded(api, |old(api.versions)|, old(api.writes))
    ensures api.Smooth() && !proceed ==> added
  {
    if x.finalizer {
      return true, false;
    }
    var r, last, k := api.OnConflictWithRefresh(AddFinalizer);
    proceed, added := false, r.Written?;
  }

  /** A pool that left the spec is released; the status is written as read, apart from conditions and shape. */
  method ReconcileRemovedNodePool(api: Api, x: XTrinode) returns (proceed: bool, x': XTrinode)
    requires Writable(api, x)
    modifies api
    ensures Finalizer.OnlyPoolWork(old(api.M()), api.M()) && api.now == old(api.now) && api.Grew()
    ensures api.Smooth() && Finalizer.Releasable(x) ==> proceed
    ensures Writable(api, x') && SameCore(x, x')
    ensures x.spec.pool.Some? || x.status.observedPool.None? ==>
              proceed && x' == x && api.M() == old(api.M()) && api.writes == old(api.writes)
    ensures proceed && x.spec.pool.None? && x.status.observedPool.Some? ==> BothReleased(api.M())
  {
    x' := x;
    if x.spec.pool.Some? || x.status.observedPool.None? {
      return true, x;
    }
    x' := SetOther(x);
    if x.status.observedPool.value == "" {
      var ignored, k := UpdateStatus(api, x');
      return false, x';
    }
    var released := Finalizer.RetainNodePool(api);
    var ok, k := UpdateStatus(api, x');
    proceed := released && ok;
  }

  /** Phase `phase` was stored by the last write. */
  ghost predicate PhaseStored(api: Api, phase: Phase)
    reads api
  {
    exists st :: JustStored(api, st) && st.phase == phase
  }

  /** The plan for the requests of `x` was stored. */
  ghost predicate TakenIn(api: Api, x: XTrinode, versions: seq<XTrinode>, writes: seq<Event>)
    reads api
  {
    && Commands.IntakeOf(x.annotations).Apply?
    && exists k :: Persisted(api, Commands.IntakeOf(x.annotations).plan, versions, writes, k)
  }

  /** Down or up, all the way but for running queries, pods in grace, and an idle runtime that is about to be suspended. */
  ghost predicate Driven(api: Api, x: XTrinode, done: bool)
    reads api
  {
    if !x.spec.suspended then done || api.M().idle.judged
    else if x.status.phase == Suspended then done
    else WentDown(api.M(), api.now, done)
  }

  /** Where a pass over `x` ends if nothing gets in its way. */
  ghost predicate Converged(api: Api, x: XTrinode, done: bool, versions: seq<XTrinode>, writes: seq<Event>)
    reads api
  {
    if !x.finalizer then FinalizerAdded(api, |versions|, writes)
    else if Commands.IntakeOf(x.annotations).Apply? then TakenIn(api, x, versions, writes)
    else Finalizer.Releasable(x) ==> Driven(api, x, done)
  }

  /**
   A pass over an object that is not deleted. Success means that the object was taken where its spec says: phase
   Suspended over a runtime that is down, or phase Ready over one whose pipeline went through. If nothing gets in
   the way, the pass ends as `Converged` says.
   */
  method ReconcileLive(api: Api, x: XTrinode) returns (done: bool)
    requires Writable(api, x) && api.M().suspend == 0 && api.M().ready == 0 && !x.deleting
    requires api.M().read == Some(x) && api.M().fetch.hand == Some(x)
    requires api.M().fetch.wake == x.status.wake && api.M().activity == x.status.lastActivity
    modifies api
    ensures api.Valid() && api.M().read == old(api.M()).read && api.Grew()
    ensures done && x.spec.suspended ==> PhaseStored(api, Suspended) && FleetDown(api.M())
    ensures done && !x.spec.suspended ==> PhaseStored(api, Ready) && api.M().ready == FULL_READY
    ensures api.Smooth() ==> Converged(api, x, done, old(api.versions), old(api.writes))
  {
    var proceed, added := EnsureFinalizer(api, x);
    if !proceed {
      return false;
    }
    var r, y, k := ProcessCommands(api, x);
    if r.Processed? || r.NotStored? {
      return false;
    }
    proceed, y := ReconcileRemovedNodePool(api, y);
    if !proceed {
      return false;
    }
    done := Drive(api, y);
  }

  /** Down for a suspended spec, up for any other. */
  method Drive(api: Api, x: XTrinode) returns (done: bool)
    requires Writable(api, x) && Resume.AsRead(api, x) && api.M().suspend == 0 && api.M().ready == 0
    requires api.M().read.value.status.phase == x.status.phase && api.M().fetch.wake == x.status.wake
    requires api.M().fetch.hand.Some? && api.M().fetch.hand.value.spec == x.spec && api.M().activity == x.status.lastActivity
    modifies api
    ensures api.Valid() && api.M().read == old(api.M()).read && api.Grew()
    ensures done && x.spec.suspended ==> PhaseStored(api, Suspended) && FleetDown(api.M())
    ensures done && !x.spec.suspended ==> PhaseStored(api, Ready) && api.M().ready == FULL_READY
    ensures api.Smooth() ==> Driven(api, x, done)
  {
    if x.spec.suspended {
      done := ReconcileSuspend(api, x);
    } else {
      done := Pipeline.ReconcileRunning(api, x);
    }
  }

  /** One pass, from whatever version the first read returns. */
  method Reconcile(api: Api) returns (done: bool, ghost read: Option<XTrinode>, ghost cleaned: Option<XTrinode>)
    requires api.Valid()
    modifies api
    ensures api.Valid() && api.Grew()
    ensures api.Smooth() ==> read.Some?
    ensures read.Some? ==>
              && read.value in api.versions && api.M().read == read
              && |old(api.trace)| < |api.trace|
              && api.trace[|old(api.trace)|].PassStarted? && api.trace[|old(api.trace)|].read == read.value
    ensures read.Some? && !read.value.deleting ==>
              && (done && read.value.spec.suspended ==> PhaseStored(api, Suspended) && FleetDown(api.M()))
              && (done && !read.value.spec.suspended ==> PhaseStored(api, Ready) && api.M().ready == FULL_READY)
    ensures read.Some? && !read.value.deleting && api.Smooth() ==>
              exists versions :: versions <= api.versions && Converged(api, read.value, done, versions, old(api.writes))
    ensures read.Some? && read.value.deleting ==> DeletionPass(api, read.value, done, cleaned, |old(api.trace)| + 1)
    ensures read.Some? && read.value.deleting && api.Smooth() ==> DeletionConverged(api, read.value, done, cleaned, |old(api.trace)| + 1)
  {
    read, cleaned := None, None;
    var got := api.BeginPass();
    if !got.Found? {
      return false, read, cleaned;
    }
    var x := got.x;
    read := Some(x);
    assert Sound(x, api.created, api.M().fetch.recorded);
    if x.deleting {
      ghost var y;
      done, y := Finalizer.Finalize(api, x);
      cleaned := Some(y);
    } else {
      done := ReconcileLive(api, x);
    }
  }

  /** What a pass over a deleted object logs from `n` on: nothing, a drain of its route, or a check and a judgement. */
  ghost predicate DeletionPass(api: Api, x: XTrinode, gone: bool, cleaned: Option<XTrinode>, n: nat)
    reads api
  {
    && n <= |api.trace|
    && (gone ==> Finalizer.RemovedLast(api))
    && (if !x.finalizer then |api.trace| == n && !gone
        else if DrainStartedAt !in x.annotations then Finalizer.DrainTriedFirst(api.trace[n..])
        else Finalizer.JudgedFirst(api.trace[n..]))
  }

  /** Where it ends if nothing gets in its way: the start is stored, or a complete drain ends in the removal. */
  ghost predicate DeletionConverged(api: Api, x: XTrinode, gone: bool, cleaned: Option<XTrinode>, n: nat)
    reads api
  {
    x.finalizer ==>
      if DrainStartedAt !in x.annotations then Finalizer.StartStored(api)
      else n + 1 < |api.trace| && api.trace[n + 1].DrainJudged?
           && (api.trace[n + 1].complete ==> cleaned.Some? && Finalizer.Ended(api, cleaned.value, gone))
  }

  /**
   Every run: any number of passes, each reading any version, with any call failing, any lost reply, and
   other writers before every call. All of it leaves a safe trace, and every version ever stored keeps the
   wake rule.
   */
  method Run(api: Api, rounds: nat)
    requires api.Valid()
    modifies api
    ensures Safe(api.trace) && |api.trace| > 0 && api.trace[0] == Began(api.drainWindow, api.self)
    ensures Mon(api.trace).fetch.now <= api.now && api.writes == Writes(api.trace)
    ensures old(api.versions) <= api.versions
    ensures forall i :: 0 <= i < |api.versions| ==>
              api.versions[i].status.phase == Suspending || api.versions[i].status.phase == Suspended ==>
                api.versions[i].status.wake.None?
  {
    for i := 0 to rounds
      invariant api.Valid() && api.Grew()
    {
      var idle: bool := *;
      if idle {
        api.Interfere();
        var t := api.Clock();
      } else {
        var done;
        ghost var read, cleaned;
        done, read, cleaned := Reconcile(api);
      }
    }
    assert LookUp(0);
    forall i | 0 <= i < |api.versions| ensures WakeOk(api.versions[i].status) {
      assert Sound(api.versions[i], api.created, api.M().fetch.recorded);
    }
  }
}
