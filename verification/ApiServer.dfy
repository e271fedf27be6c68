/**
 The API server and the rest of the outside world as the operator meets them: reads may be stale, any call
 may fail, an update commits only on the version it was read from, and other writers step in before every
 call. All that is shown, answered or stored is logged here.
 */
module ApiServer {
  import opened Options
  import opened Model
  import opened Trace
  import opened Shutdown
  import Activity
  import OwnerRefs

  /** What an update or status update reports. `Failed` may hide a commit whose reply was lost. */
  datatype Outcome = Ok | Conflict | Missing | Failed

  datatype GetResult = Found(x: XTrinode, version: nat) | NotFound | GetFailed

  /** How a conflict-retry loop ended; `Skipped` is a closure that returned without an update. */
  datatype WriteResult = Written(x: XTrinode) | Skipped(seen: XTrinode) | Exhausted | Aborted(gone: bool)

  const RETRY_STEPS: nat := 5

  ghost predicate LookUp(k: int) { true }

  class Api {
    const drainWindow: int
    const created: int
    const self: OwnerRefs.Owner
    var versions: seq<XTrinode>   // every version ever stored, oldest first
    var now: int                  // last clock reading
    ghost var trace: seq<Event>   // everything logged
    ghost var mon: Monitor        // what matters of it
    ghost var writes: seq<Event>  // the writes in it
    ghost var setbacks: nat       // the number of setbacks in it

    constructor (first: XTrinode, window: int, owner: OwnerRefs.Owner)
      requires WakeOk(first.status) && WholeSeconds(first.status) && first.status.lastActivity.None?
      requires first.created % SECOND == 0 && 0 <= first.created
      requires DrainStartedAt !in first.annotations && 0 < window
      ensures Valid() && trace == [Began(window, owner)] && writes == [] && versions == [first]
      ensures drainWindow == window && self == owner && setbacks == 0
    {
      drainWindow := window;
      created := first.created;
      self := owner;
      versions := [first];
      now := first.created;
      trace := [Began(window, owner)];
      mon := Mon([Began(window, owner)]);
      writes := [];
      setbacks := 0;
      new;
      RecordedAppend([], Start(), [], 0, owner, Began(window, owner));
      assert [] + [Began(window, owner)] == trace;
    }

    ghost function M(): Monitor reads this { mon }

    /** The log is safe, and the fields beside it say what is in it. Spelled out only where `LookUp` asks for it. */
    ghost predicate Logged()
      reads this`trace, this`mon, this`writes, this`setbacks
    {
      forall k: int {:trigger LookUp(k)} :: LookUp(k) ==>
        |trace| > 0 && trace[0] == Began(drainWindow, self) && Recorded(trace, mon, writes, setbacks, self)
    }

    /** Versions, log, clock and setbacks only ever grow. */
    twostate predicate Grew()
      reads this
    {
      old(versions) <= versions && old(trace) <= trace && old(now) <= now && old(setbacks) <= setbacks
    }

    /** Nothing was refused in between, no call failed, and everything needed was there. */
    twostate predicate Smooth()
      reads this
    {
      setbacks == old(setbacks)
    }

    /** The log is that of this server: its window, its owner, its clock, its objects. */
    ghost predicate Valid() reads this {
      && 0 < drainWindow == M().window
      && M().owner == self
      && M().fetch.now <= now
      && created <= now
      && created % SECOND == 0
      && |versions| > 0
      && (forall i :: 0 <= i < |versions| ==> Sound(versions[i], created, M().fetch.recorded))
      && (M().read.Some? ==> M().read.value.created == created)
      && (M().fetch.hand.Some? ==> M().fetch.hand.value in versions)
      && Logged()
    }

    ghost method Record(e: Event)
      requires Logged() && Allowed(mon, e)
      modifies this`trace, this`mon, this`writes, this`setbacks
      ensures Logged() && mon == Next(old(mon), e) && trace == old(trace) + [e]
      ensures writes == old(writes) + if IsWrite(e) then [e] else []
      ensures setbacks == old(setbacks) + if Setback(e, self) then 1 else 0
    {
      assert LookUp(0);
      RecordedAppend(trace, mon, writes, setbacks, self, e);
      trace := trace + [e];
      mon := Next(mon, e);
      writes := writes + if IsWrite(e) then [e] else [];
      setbacks := setbacks + if Setback(e, self) then 1 else 0;
    }

    /** Logs an event. Its clock reading is the last one, its object is a stored one. */
    ghost method Log(e: Event)
      requires Valid() && Allowed(M(), e) && !e.Began?
      requires Reading(e).Some? ==> Reading(e).value == now
      requires e.PassStarted? ==> e.read in versions
      requires e.Refreshed? ==> e.fetched in versions
      requires e.Reloaded? && e.found.Some? ==> e.found.value in versions
      requires e.Patched? ==> e.reply in versions
      modifies this`trace, this`mon, this`writes, this`setbacks
      ensures Valid() && M() == Next(old(M()), e)
      ensures writes == old(writes) + if IsWrite(e) then [e] else []
      ensures trace == old(trace) + [e]
      ensures setbacks == old(setbacks) + if Setback(e, self) then 1 else 0
    {
      NextKeeps(M(), e);
      Record(e);
      forall i | 0 <= i < |versions| ensures Sound(versions[i], created, M().fetch.recorded) {
        SoundLonger(versions[i], created, old(M()).fetch.recorded, M().fetch.recorded);
      }
    }

    /** The only events the operator logs itself. */
    ghost method Emit(e: Event)
      requires Valid() && Allowed(M(), e) && Decision(e)
      requires Reading(e).Some? ==> Reading(e).value == now
      modifies this`trace, this`mon, this`writes, this`setbacks
      ensures Valid() && M() == Next(old(M()), e)
      ensures writes == old(writes) && trace == old(trace) + [e] && setbacks == old(setbacks)
    {
      Log(e);
    }

    ghost method Refuse()
      requires Valid()
      modifies this`trace, this`mon, this`writes, this`setbacks
      ensures Valid() && M() == old(M()) && writes == old(writes) && Grew() && setbacks == old(setbacks) + 1
    {
      AfterRefused(M());
      Log(Refused);
    }

    /** Whether the caller's context ends here. */
    method Interrupted() returns (yes: bool)
      requires Valid()
      modifies this`trace, this`mon, this`writes, this`setbacks
      ensures Valid() && M() == old(M()) && writes == old(writes) && Grew() && (Smooth() <==> !yes)
    {
      yes := *;
      if yes {
        Refuse();
      }
    }

    /** A question to the cluster; no answer is a refusal. */
    method Ask() returns (answer: Option<bool>)
      requires Valid()
      modifies this`trace, this`mon, this`writes, this`setbacks
      ensures Valid() && M() == old(M()) && writes == old(writes) && Grew() && (Smooth() <==> answer.Some?)
    {
      answer := *;
      if !answer.Some? {
        Refuse();
      }
    }

    method Clock() returns (t: int)
      modifies this`now
      ensures old(now) <= t == now
      ensures old(Valid()) ==> Valid()
    {
      var d: int := *;
      if d > 0 {
        now := now + d;
      }
      t := now;
    }

    method Store(x: XTrinode)
      requires Valid() && Sound(x, created, M().fetch.recorded)
      modifies this`versions
      ensures Valid() && versions == old(versions) + [x]
    {
      versions := versions + [x];
    }

    /** Any number of writes by others. */
    method Interfere()
      requires Valid()
      modifies this`versions
      ensures Valid() && Grew()
    {
      var n: nat := *;
      while n > 0
        invariant Valid() && Grew()
      {
        var next: XTrinode := *;
        if Rely(versions[|versions| - 1], next) {
          Store(next);
        }
        n := n - 1;
      }
    }

    method Get() returns (r: GetResult)
      requires Valid()
      modifies this`versions, this`trace, this`mon, this`writes, this`setbacks
      ensures Valid() && Grew() && M() == old(M()) && writes == old(writes)
      ensures if r.Found? then Smooth() && trace == old(trace) && r.version < |versions| && r.x == versions[r.version]
              else setbacks == old(setbacks) + 1
    {
      Interfere();
      var k: int := *;
      var missing: bool := *;
      if 0 <= k < |versions| {
        r := Found(versions[k], k);
      } else if missing {
        r := NotFound;
      } else {
        r := GetFailed;
      }
      if !r.Found? {
        Refuse();
      }
    }

    /** The read a pass starts with. */
    method BeginPass() returns (r: GetResult)
      requires Valid()
      modifies this`versions, this`trace, this`mon, this`writes, this`setbacks
      ensures Valid() && Grew()
      ensures r.Found? ==> r.x in versions && M() == Next(old(M()), PassStarted(r.x, now))
      ensures Smooth() <==> r.Found?
      ensures r.Found? ==> trace == old(trace) + [PassStarted(r.x, now)]
      ensures writes == old(writes)
      ensures !r.Found? ==> M() == old(M())
    {
      r := Get();
      if r.Found? {
        Log(PassStarted(r.x, now));
      }
    }

    /** A read into the operator's own object, as the first step of a write. */
    method Refresh() returns (r: GetResult)
      requires Valid()
      modifies this`versions, this`trace, this`mon, this`writes, this`setbacks
      ensures Valid() && Grew()
      ensures r.Found? ==>
                && r.version < |versions| && r.x == versions[r.version]
                && M().fetch.hand == Some(r.x) && M().fetch.wake == r.x.status.wake
      ensures OnlyFetched(old(M()), M()) && M().fetch.recorded == old(M()).fetch.recorded && M().fetch.now == old(M()).fetch.now
      ensures !r.Found? ==> M() == old(M())
      ensures writes == old(writes) && setbacks == old(setbacks) + if r.Found? then 0 else 1
    {
      r := Get();
      if r.Found? {
        AfterRefreshed(M(), r.x);
        Log(Refreshed(r.x));
      }
    }

    /** A read into the operator's own object on its own; also a failed one is logged. */
    method Reload() returns (r: GetResult)
      requires Valid()
      modifies this`versions, this`trace, this`mon, this`writes, this`setbacks
      ensures Valid() && Grew() && writes == old(writes)
      ensures r.Found? ==> r.x in versions
      ensures Smooth() <==> r.Found?
      ensures M() == Next(old(M()), Reloaded(if r.Found? then Some(r.x) else None))
    {
      r := Get();
      Log(Reloaded(if r.Found? then Some(r.x) else None));
    }

    /* ---- the rest of the outside world ---- */

    method Call(op: Op) returns (c: Call)
      requires Valid() && Allowed(M(), Called(op, Done))
      requires op.EnsureKeda? ==> op.testedAt == now
      modifies this`trace, this`mon, this`writes, this`setbacks
      ensures Valid() && M() == Next(old(M()), Called(op, c)) && Grew()
      ensures writes == old(writes) && trace == old(trace) + [Called(op, c)]
      ensures Smooth() <==> !Setback(Called(op, c), self)
    {
      c := *;
      Log(Called(op, c));
    }

    /** A call that moves nothing but the ladders and the fleet. */
    method CallPlain(op: Op) returns (c: Call)
      requires Valid() && PlainCall(op) && OpFits(M(), op)
      modifies this`trace, this`mon, this`writes, this`setbacks
      ensures Valid() && M() == AfterPlain(old(M()), Called(op, c)) && Grew()
      ensures writes == old(writes) && trace == old(trace) + [Called(op, c)]
      ensures Smooth() <==> !c.Broken? && (c.Absent? ==> MayBeAbsent(op))
    {
      AfterPlainCall(M(), op, Done);
      c := Call(op);
      AfterPlainCall(old(M()), op, c);
    }

    /** A call that moves the ready ladder alone. */
    method CallPipeline(op: Op) returns (c: Call)
      requires Valid() && PipelineCall(op) && OpFits(M(), op)
      modifies this`trace, this`mon, this`writes, this`setbacks
      ensures Valid() && M() == old(M()).(ready := NextReady(old(M()), Called(op, c))) && Grew()
      ensures writes == old(writes) && (Smooth() <==> c.Done? || (c.Absent? && MayBeAbsent(op)))
    {
      c := CallPlain(op);
      AfterPipelineCall(old(M()), op, c);
    }

    /** Reads a Deployment; `n` is its replica count if it is there. */
    method GetDeployment(component: Component) returns (c: Call, n: int)
      requires Valid() && IsLive(M())
      modifies this`trace, this`mon, this`writes, this`setbacks
      ensures Valid() && M() == AfterPlain(old(M()), Called(FindDeployment(component, n), c)) && Grew()
      ensures writes == old(writes) && (Smooth() <==> !c.Broken?)
    {
      n := *;
      c := CallPlain(FindDeployment(component, n));
    }

    /** A call on the way out. */
    method CallCleanup(op: Op) returns (c: Call)
      requires Valid() && InDeletion(M()) && (op.DrainRoute? || (CleanupCall(op) && M().removal >= 2))
      modifies this`trace, this`mon, this`writes, this`setbacks
      ensures Valid() && M() == AfterCleanup(old(M()), op, c) && writes == old(writes) && Grew()
      ensures trace == old(trace) + [Called(op, c)] && (Smooth() <==> c.Done?)
    {
      c := Call(op);
      AfterCleanupCall(old(M()), op, c);
    }

    method ObserveQueries() returns (o: Observation)
      requires Valid()
      modifies this`trace, this`mon, this`writes, this`setbacks
      ensures Valid() && M() == Next(old(M()), QueriesSeen(o)) && writes == old(writes)
      ensures trace == old(trace) + [QueriesSeen(o)] && Smooth()
    {
      o := *;
      Log(QueriesSeen(o));
    }

    method ListPods() returns (listed: Option<seq<WorkerPod>>)
      requires Valid()
      modifies this`trace, this`mon, this`writes, this`setbacks
      ensures Valid() && writes == old(writes) && Grew()
      ensures M() == if listed.Some? then Next(old(M()), PodsListed(listed.value)) else old(M())
      ensures Smooth() <==> listed.Some?
    {
      listed := *;
      if listed.Some? {
        Log(PodsListed(listed.value));
      } else {
        Refuse();
      }
    }

    /** Asks Trino about its queries; the answer is in at the clock reading logged with it. */
    method AskTrino() returns (answer: Activity.Reply)
      requires Valid()
      modifies this`trace, this`mon, this`writes, this`setbacks, this`now
      ensures Valid() && Grew()
      ensures M() == old(M()).(fetch := old(M()).fetch.(now := now, wakeTested := false),
                               idle := IdleWork(Some(answer), now, NotReloaded, false))
      ensures writes == old(writes) && (Smooth() <==> Activity.Usable(answer))
    {
      answer := *;
      var t := Clock();
      AfterReply(M(), answer, t);
      Log(ReplySeen(answer, t));
    }

    /**
     What one release of owner references will meet: the stored lists, the one read, those written in
     between, and the fate of the update. A resource that cannot be read leaves no record.
     */
    method MeetRelease(part: Part) returns (a: Option<Attempt>)
      requires Valid() && (InDeletion(M()) ==> M().removal >= 2)
      modifies this`trace, this`mon, this`writes, this`setbacks
      ensures Valid() && writes == old(writes) && Grew()
      ensures Smooth() <==> a.Some? && Succeeded(a.value, self)
      ensures a.Some? && a.value.Tried? ==> a.value.k < |a.value.versions|
      ensures M() == if a.Some? then old(M()).(fetch := old(M()).fetch.(pool := old(M()).fetch.pool.(
                                                 tried := old(M()).fetch.pool.tried[part := a.value])))
                     else old(M())
    {
      a := *;
      if a.Some? && a.value.Tried? && !(a.value.k < |a.value.versions|) {
        a := None;
      }
      if a.Some? {
        AfterRelease(M(), part, a.value);
        Log(ReleaseTried(part, a.value));
      } else {
        Refuse();
      }
    }

    /* ---- writes ---- */

    method CommitEdit(e: Edit)
      requires Valid() && EditAllowed(M(), e)
      requires ApplyEdit(e, versions[|versions| - 1], now).Some?
      modifies this`versions, this`trace, this`mon, this`writes, this`setbacks
      ensures Valid()
      ensures var x := old(versions)[|old(versions)| - 1];
              && versions == old(versions) + [ApplyEdit(e, x, now).value]
              && writes == old(writes) + [MetaWritten(e, x, now)]
              && M() == old(M()).(fetch := old(M()).fetch.(now := now, recorded := M().fetch.recorded))
              && (!e.RecordDrainStart? ==> M().fetch.recorded == old(M()).fetch.recorded)
      ensures Grew() && Smooth()
    {
      var x := versions[|versions| - 1];
      AfterMetaWritten(M(), e, x, now);
      Log(MetaWritten(e, x, now));
      EditKeepsSound(e, x, now, created, old(M()), M());
      Store(ApplyEdit(e, x, now).value);
    }

    /** Version `k` is the closure's result on the version before it; storing it was the one write since then. */
    ghost predicate StoredEdit(e: Edit, k: nat, since: seq<Event>) reads this {
      && 0 < k < |versions|
      && ApplyEdit(e, versions[k - 1], now) == Some(versions[k])
      && this.writes == since + [MetaWritten(e, versions[k - 1], now)]
    }

    /** An update sent from the version `version`, which the closure was applied to at the last clock reading. */
    method Update(e: Edit, version: nat) returns (o: Outcome, ghost committed: bool)
      requires Valid() && version < |versions| && EditAllowed(M(), e)
      requires ApplyEdit(e, versions[version], now).Some?
      modifies this`versions, this`trace, this`mon, this`writes, this`setbacks
      ensures Valid() && Grew()
      ensures o.Ok? ==> committed
      ensures o.Conflict? ==> !committed
      ensures setbacks == old(setbacks) + if o.Ok? then 0 else 1
      ensures !committed ==> M() == old(M()) && writes == old(writes)
      ensures committed ==>
                && |old(versions)| <= version + 1 && StoredEdit(e, version + 1, old(writes))
                && M() == old(M()).(fetch := old(M()).fetch.(now := now, recorded := M().fetch.recorded))
                && (!e.RecordDrainStart? ==> M().fetch.recorded == old(M()).fetch.recorded)
    {
      committed := false;
      Interfere();
      o := *;
      if version == |versions| - 1 {
        var commit: bool := *;
        if commit && (o.Ok? || o.Failed?) {
          CommitEdit(e);
          committed := true;
        } else if o.Ok? {
          o := Failed;
        }
      } else if o.Ok? {
        o := Conflict;
      }
      if !o.Ok? {
        Refuse();
      }
    }

    method CommitStatus(e: StatusEdit)
      requires Valid() && StatusAllowed(M(), e)
      modifies this`versions, this`trace, this`mon, this`writes, this`setbacks
      ensures Valid() && M() == old(M())
      ensures var x := old(versions)[|old(versions)| - 1];
              && versions == old(versions) + [x.(status := ApplyStatus(e, x.status))]
              && writes == old(writes) + [StatusWritten(e, x.status)]
      ensures Grew() && Smooth()
    {
      var x := versions[|versions| - 1];
      AfterStatusWritten(M(), e, x.status);
      Log(StatusWritten(e, x.status));
      StatusKeepsSound(e, x, created, M());
      Store(x.(status := ApplyStatus(e, x.status)));
    }

    method UpdateStatus(e: StatusEdit, version: nat) returns (o: Outcome, ghost committed: bool)
      requires Valid() && version < |versions| && StatusAllowed(M(), e)
      modifies this`versions, this`trace, this`mon, this`writes, this`setbacks
      ensures Valid() && M() == old(M()) && Grew()
      ensures o.Ok? ==> committed
      ensures o.Conflict? ==> !committed
      ensures setbacks == old(setbacks) + if o.Ok? then 0 else 1
      ensures !committed ==> M() == old(M()) && writes == old(writes)
      ensures committed ==>
                && |old(versions)| <= version + 1 < |versions|
                && versions[version] == old(versions[version])
                && versions[version + 1] == versions[version].(status := ApplyStatus(e, versions[version].status))
                && writes == old(writes) + [StatusWritten(e, versions[version].status)]
    {
      committed := false;
      Interfere();
      o := *;
      if version == |versions| - 1 {
        var commit: bool := *;
        if commit && (o.Ok? || o.Failed?) {
          CommitStatus(e);
          committed := true;
        } else if o.Ok? {
          o := Failed;
        }
      } else if o.Ok? {
        o := Conflict;
      }
      if !o.Ok? {
        Refuse();
      }
    }

    /**
     A merge patch carries no version: it meets whatever is stored, and takes off the keys named in it if it is
     committed. What is stored then is the version met, without those keys or, if nothing was committed, as it was.
     */
    method PatchDropKeys(keys: set<Key>) returns (o: Outcome, x: XTrinode, ghost met: XTrinode, ghost committed: bool)
      requires Valid() && GoesUp(M()) && keys <= {WakeMinWorkers, WakeTTL}
      modifies this`versions, this`trace, this`mon, this`writes, this`setbacks
      ensures Valid() && Grew()
      ensures o.Ok? ==> committed
      ensures Smooth() <==> o.Ok?
      ensures met in versions && writes == old(writes) + if committed then [MetaWritten(DropKeys(keys), met, now)] else []
      ensures versions[|versions| - 1] == if committed then met.(annotations := met.annotations - keys) else met
      ensures o.Ok? ==>
                && x == versions[|versions| - 1]
                && M() == old(M()).(fetch := old(M()).fetch.(now := now, hand := Some(x), pool := NO_POOL_WORK))
      ensures !o.Ok? ==> M() == old(M()).(fetch := old(M()).fetch.(now := M().fetch.now))
    {
      Interfere();
      x := versions[|versions| - 1];
      met, committed := x, false;
      o := *;
      var commit: bool := *;
      if commit && !o.Conflict? && !o.Missing? {
        x := Land(keys, o.Ok?);
        committed := true;
      } else if o.Ok? {
        o := Failed;
      }
      if !o.Ok? {
        Refuse();
      }
    }

    /** Commits the patch; its reply, if it arrives, becomes the operator's own object. */
    method Land(keys: set<Key>, replied: bool) returns (x: XTrinode)
      requires Valid() && GoesUp(M()) && keys <= {WakeMinWorkers, WakeTTL}
      modifies this`versions, this`trace, this`mon, this`writes, this`setbacks
      ensures Valid()
      ensures var met := old(versions)[|old(versions)| - 1];
              && x == met.(annotations := met.annotations - keys)
              && versions == old(versions) + [x] && writes == old(writes) + [MetaWritten(DropKeys(keys), met, now)]
      ensures replied ==> M() == old(M()).(fetch := old(M()).fetch.(now := now, hand := Some(x), pool := NO_POOL_WORK))
      ensures !replied ==> M() == old(M()).(fetch := old(M()).fetch.(now := now))
      ensures Grew() && Smooth()
    {
      CommitEdit(DropKeys(keys));
      x := versions[|versions| - 1];
      if replied {
        AfterPatched(M(), x);
        Log(Patched(x));
      }
    }

    /** The same, `x` being version `k` and the one before it the object last fetched. */
    ghost predicate Committed(e: Edit, k: nat, x: XTrinode, since: seq<Event>) reads this {
      StoredEdit(e, k, since) && x == versions[k] && M().fetch.hand == Some(versions[k - 1])
    }

    /** How a run of the closure ended, and what was written. */
    ghost predicate EditEnded(e: Edit, r: WriteResult, k: nat, count: nat, since: seq<Event>) reads this {
      && (r.Exhausted? || r.Skipped? ==> this.writes == since)
      && (r.Skipped? ==> r.seen in versions && ApplyEdit(e, r.seen, now).None? && M().fetch.hand == Some(r.seen))
      && (r.Written? ==> count <= k && Committed(e, k, r.x, since))
    }

    /** Every attempt of an exhausted loop met one conflict; a loop that is given up met something else. */
    twostate predicate Tried(r: WriteResult)
      reads this
    {
      && (r.Exhausted? ==> setbacks == old(setbacks) + RETRY_STEPS)
      && (r.Aborted? ==> !Smooth())
    }

    /** An object fetched last, perhaps with its metadata changed since. */
    ghost predicate InMemory(x: Option<XTrinode>) reads this {
      x.Some? ==> M().fetch.hand.Some? && x.value.status == M().fetch.hand.value.status && x.value.created == created
    }

    /**
     `OnConflictWithRefresh` around one metadata closure: refresh, apply, update, and again on conflict.
     A success committed the closure's result, once, directly on top of the version it was applied to;
     running out of attempts committed nothing. `last` is the object in memory afterwards, if any was fetched.
     */
    method OnConflictWithRefresh(e: Edit) returns (r: WriteResult, last: Option<XTrinode>, ghost k: nat)
      requires Valid() && EditAllowed(M(), e)
      modifies this`versions, this`trace, this`mon, this`writes, this`setbacks, this`now
      ensures Valid() && Grew()
      ensures OnlyFetched(old(M()), M()) && (!e.RecordDrainStart? ==> M().fetch.recorded == old(M()).fetch.recorded)
      ensures EditEnded(e, r, k, |old(versions)|, old(writes)) && Tried(r)
      ensures InMemory(last)
    {
      var attempt := 0;
      k, last := 0, None;
      while attempt < RETRY_STEPS
        invariant attempt <= RETRY_STEPS
        invariant Valid() && Grew()
        invariant OnlyFetched(old(M()), M()) && M().fetch.recorded == old(M()).fetch.recorded
        invariant writes == old(writes) && setbacks == old(setbacks) + attempt
        invariant InMemory(last)
      {
        attempt := attempt + 1;
        var done;
        done, r, last, k := AttemptEdit(e, attempt, last);
        if done {
          return;
        }
      }
      r := Exhausted;
    }

    /** One refresh, one run of the closure and one update; not `done` asks for another attempt. */
    method AttemptEdit(e: Edit, attempt: nat, before: Option<XTrinode>)
      returns (done: bool, r: WriteResult, last: Option<XTrinode>, ghost k: nat)
      requires Valid() && EditAllowed(M(), e)
      requires InMemory(before)
      modifies this`versions, this`trace, this`mon, this`writes, this`setbacks, this`now
      ensures Valid() && Grew()
      ensures OnlyFetched(old(M()), M()) && (!done || !e.RecordDrainStart? ==> M().fetch.recorded == old(M()).fetch.recorded)
      ensures !done ==> writes == old(writes) && setbacks == old(setbacks) + 1
      ensures done && r.Aborted? ==> !Smooth()
      ensures !r.Exhausted? && (done ==> EditEnded(e, r, k, |old(versions)|, old(writes)))
      ensures InMemory(last)
    {
      if attempt > 1 {
        var cancelled := Interrupted();
        if cancelled {
          return true, Aborted(false), before, 0;
        }
      }
      var got := Refresh();
      if !got.Found? {
        // After a conflict the caller is told of the conflict instead of the failed refresh.
        return true, Aborted(got.NotFound? && attempt == 1), before, 0;
      }
      done, r, last, k := RunClosure(e, got.version);
    }

    method RunClosure(e: Edit, version: nat) returns (done: bool, r: WriteResult, last: Option<XTrinode>, ghost k: nat)
      requires Valid() && EditAllowed(M(), e) && version < |versions| && M().fetch.hand == Some(versions[version])
      modifies this`versions, this`trace, this`mon, this`writes, this`setbacks, this`now
      ensures Valid() && Grew()
      ensures OnlyFetched(old(M()), M()) && (!done || !e.RecordDrainStart? ==> M().fetch.recorded == old(M()).fetch.recorded)
      ensures !done ==> writes == old(writes) && setbacks == old(setbacks) + 1
      ensures done && r.Aborted? ==> !Smooth()
      ensures !r.Exhausted? && (done ==> EditEnded(e, r, k, |old(versions)|, old(writes)))
      ensures InMemory(last)
    {
      var x := versions[version];
      var clock := Clock();
      last := ApplyEdit(e, x, clock);
      assert Sound(x, created, M().fetch.recorded);
      if last.None? {
        return true, Skipped(x), Some(x), 0;
      }
      done, r, k := SendEdit(e, version);
    }

    method SendEdit(e: Edit, version: nat) returns (done: bool, r: WriteResult, ghost k: nat)
      requires Valid() && EditAllowed(M(), e) && version < |versions| && ApplyEdit(e, versions[version], now).Some?
      requires M().fetch.hand == Some(versions[version])
      modifies this`versions, this`trace, this`mon, this`writes, this`setbacks
      ensures Valid() && Grew()
      ensures OnlyFetched(old(M()), M()) && M().fetch.hand == old(M()).fetch.hand
      ensures !done || !e.RecordDrainStart? ==> M().fetch.recorded == old(M()).fetch.recorded
      ensures !done ==> writes == old(writes) && setbacks == old(setbacks) + 1
      ensures done && r.Aborted? ==> !Smooth()
      ensures !r.Exhausted? && !r.Skipped?
      ensures done && r.Written? ==> |old(versions)| <= k && Committed(e, k, r.x, old(writes))
    {
      k, done := 0, true;
      var o, committed := Update(e, version);
      if o.Ok? {
        r, k := Written(versions[version + 1]), version + 1;
        return;
      }
      r := Aborted(o.Missing?);
      if o.Conflict? {
        done := Interrupted();
        r := Aborted(false);
      }
    }

    /** Version `k` is the one before it with the closure's status; storing it was the one write since then. */
    ghost predicate StatusStored(e: StatusEdit, k: nat, x: XTrinode, since: seq<Event>) reads this {
      && 0 < k < |versions|
      && x == versions[k]
      && versions[k] == versions[k - 1].(status := ApplyStatus(e, versions[k - 1].status))
      && this.writes == since + [StatusWritten(e, versions[k - 1].status)]
    }

    /**
     A status closure under conflict retry, applied to an object of its own that is read once more inside the
     closure. A success stored the closure's result, once, on the version it replaced; no other field changed.
     */
    method UpdateStatusWithRetry(e: StatusEdit) returns (r: WriteResult, ghost k: nat)
      requires Valid() && StatusAllowed(M(), e)
      modifies this`versions, this`trace, this`mon, this`writes, this`setbacks
      ensures Valid() && M() == old(M()) && Grew()
      ensures !r.Skipped? && Tried(r)
      ensures r.Exhausted? ==> writes == old(writes)
      ensures r.Written? ==> |old(versions)| <= k && StatusStored(e, k, r.x, old(writes))
    {
      var attempt := 0;
      k := 0;
      while attempt < RETRY_STEPS
        invariant attempt <= RETRY_STEPS
        invariant Valid() && M() == old(M()) && writes == old(writes) && Grew() && setbacks == old(setbacks) + attempt
      {
        attempt := attempt + 1;
        var done;
        done, r, k := AttemptStatus(e, attempt);
        if done {
          return;
        }
      }
      r := Exhausted;
    }

    method AttemptStatus(e: StatusEdit, attempt: nat) returns (done: bool, r: WriteResult, ghost k: nat)
      requires Valid() && StatusAllowed(M(), e)
      modifies this`versions, this`trace, this`mon, this`writes, this`setbacks
      ensures Valid() && M() == old(M()) && Grew()
      ensures !r.Skipped? && !r.Exhausted?
      ensures !done ==> writes == old(writes) && setbacks == old(setbacks) + 1
      ensures done && r.Aborted? ==> !Smooth()
      ensures done && r.Written? ==> |old(versions)| <= k && StatusStored(e, k, r.x, old(writes))
    {
      if attempt > 1 {
        var cancelled := Interrupted();
        if cancelled {
          return true, Aborted(false), 0;
        }
      }
      var refreshed := Get();
      if !refreshed.Found? {
        return true, Aborted(refreshed.NotFound? && attempt == 1), 0;
      }
      var got := Get();
      if !got.Found? {
        return true, Aborted(got.NotFound?), 0;
      }
      done, r, k := SendStatus(e, got.version);
    }

    method SendStatus(e: StatusEdit, version: nat) returns (done: bool, r: WriteResult, ghost k: nat)
      requires Valid() && StatusAllowed(M(), e) && version < |versions|
      modifies this`versions, this`trace, this`mon, this`writes, this`setbacks
      ensures Valid() && M() == old(M()) && Grew()
      ensures !r.Skipped? && !r.Exhausted?
      ensures !done ==> writes == old(writes) && setbacks == old(setbacks) + 1
      ensures done && r.Aborted? ==> !Smooth()
      ensures done && r.Written? ==> |old(versions)| <= k == version + 1 && StatusStored(e, k, r.x, old(writes))
    {
      k, done := 0, true;
      var o, committed := UpdateStatus(e, version);
      if o.Ok? {
        r, k := Written(versions[version + 1]), version + 1;
        return;
      }
      r := Aborted(o.Missing?);
      if o.Conflict? {
        done := Interrupted();
        r := Aborted(false);
      }
    }

    /** Version `k` is the one before it with activity `t`, whatever activity that had. */
    ghost predicate ActivityStored(t: int, k: nat, since: seq<Event>) reads this {
      && 0 < k < |versions|
      && versions[k] == versions[k - 1].(status := ApplyStatus(SetActivity(t), versions[k - 1].status))
      && M().fetch.hand == Some(versions[k - 1])
      && this.writes == since + [StatusWritten(SetActivity(t), versions[k - 1].status)]
    }

    /** The object fetched last, with activity `t`. */
    ghost predicate Stamped(x: Option<XTrinode>, t: int) reads this {
      x.Some? ==>
        && M().fetch.hand.Some? && M().fetch.wake == x.value.status.wake
        && x.value == M().fetch.hand.value.(status := M().fetch.hand.value.status.(lastActivity := Some(t)))
    }

    /**
     The activity writer: the operator's own object is refreshed and its status sent back with the new time,
     whatever time it had. `last` is the object in memory afterwards, if any was fetched.
     */
    method RefreshAndSetActivity(t: int) returns (r: WriteResult, last: Option<XTrinode>, ghost k: nat)
      requires Valid() && StatusAllowed(M(), SetActivity(t))
      modifies this`versions, this`trace, this`mon, this`writes, this`setbacks
      ensures Valid() && Grew()
      ensures OnlyFetched(old(M()), M()) && M().fetch.recorded == old(M()).fetch.recorded && M().fetch.now == old(M()).fetch.now
      ensures !r.Skipped? && Tried(r)
      ensures r.Exhausted? ==> writes == old(writes)
      ensures r.Written? ==> |old(versions)| <= k && ActivityStored(t, k, old(writes)) && last.Some?
      ensures Stamped(last, t) && (last.None? ==> M() == old(M()))
    {
      var attempt := 0;
      k, last := 0, None;
      while attempt < RETRY_STEPS
        invariant attempt <= RETRY_STEPS
        invariant Valid() && Grew()
        invariant OnlyFetched(old(M()), M()) && M().fetch.recorded == old(M()).fetch.recorded && M().fetch.now == old(M()).fetch.now
        invariant writes == old(writes) && setbacks == old(setbacks) + attempt
        invariant Stamped(last, t)
        invariant last.None? ==> M() == old(M())
      {
        attempt := attempt + 1;
        var done;
        done, r, last, k := AttemptActivity(t, attempt, last);
        if done {
          return;
        }
      }
      r := Exhausted;
    }

    method AttemptActivity(t: int, attempt: nat, before: Option<XTrinode>)
      returns (done: bool, r: WriteResult, last: Option<XTrinode>, ghost k: nat)
      requires Valid() && StatusAllowed(M(), SetActivity(t)) && Stamped(before, t)
      modifies this`versions, this`trace, this`mon, this`writes, this`setbacks
      ensures Valid() && Grew()
      ensures OnlyFetched(old(M()), M()) && M().fetch.recorded == old(M()).fetch.recorded && M().fetch.now == old(M()).fetch.now
      ensures !r.Skipped? && !r.Exhausted?
      ensures !done ==> writes == old(writes) && setbacks == old(setbacks) + 1
      ensures done && r.Aborted? ==> !Smooth()
      ensures done && r.Written? ==> |old(versions)| <= k && ActivityStored(t, k, old(writes)) && last.Some?
      ensures Stamped(last, t) && (last.None? ==> M() == old(M()) && before.None?)
    {
      done, k, last := true, 0, before;
      if attempt > 1 {
        var cancelled := Interrupted();
        if cancelled {
          r := Aborted(false);
          return;
        }
      }
      var got := Refresh();
      if !got.Found? {
        r := Aborted(got.NotFound? && attempt == 1);
        return;
      }
      last := Some(got.x.(status := got.x.status.(lastActivity := Some(t))));
      done, r, k := SendActivity(t, got.version);
    }

    method SendActivity(t: int, version: nat) returns (done: bool, r: WriteResult, ghost k: nat)
      requires Valid() && StatusAllowed(M(), SetActivity(t)) && version < |versions|
      requires M().fetch.hand == Some(versions[version])
      modifies this`versions, this`trace, this`mon, this`writes, this`setbacks
      ensures Valid() && Grew() && M() == old(M())
      ensures !r.Skipped? && !r.Exhausted?
      ensures !done ==> writes == old(writes) && setbacks == old(setbacks) + 1
      ensures done && r.Aborted? ==> !Smooth()
      ensures done && r.Written? ==> |old(versions)| <= k && ActivityStored(t, k, old(writes))
    {
      done, r, k := SendStatus(SetActivity(t), version);
    }

  }

  /**
   Stored objects keep the wake rule, whole seconds and their creation time, name no activity from before
   that, and carry only drain starts the operator recorded.
   */
  ghost predicate Sound(x: XTrinode, created: int, recorded: set<int>) {
    && WakeOk(x.status)
    && WholeSeconds(x.status)
    && x.created == created
    && ActivityOk(created, x.status.lastActivity)
    && (DrainStartedAt in x.annotations ==> Known(x.annotations[DrainStartedAt], recorded))
  }

  lemma SoundLonger(x: XTrinode, created: int, recorded: set<int>, more: set<int>)
    requires Sound(x, created, recorded) && recorded <= more
    ensures Sound(x, created, more)
  {}

  lemma EditKeepsSound(e: Edit, x: XTrinode, t: int, created: int, m: Monitor, m': Monitor)
    requires Sound(x, created, m.fetch.recorded) && ApplyEdit(e, x, t).Some?
    requires m' == Next(m, MetaWritten(e, x, t))
    ensures Sound(ApplyEdit(e, x, t).value, created, m'.fetch.recorded)
  {
    var x' := ApplyEdit(e, x, t).value;
    if e.RecordDrainStart? {
      assert t in m'.fetch.recorded && x'.annotations[DrainStartedAt] == FormatTime(t);
    } else {
      assert DrainStartedAt in x'.annotations ==>
               DrainStartedAt in x.annotations && x'.annotations[DrainStartedAt] == x.annotations[DrainStartedAt];
    }
  }

  lemma StatusKeepsSound(e: StatusEdit, x: XTrinode, created: int, m: Monitor)
    requires Sound(x, created, m.fetch.recorded) && StatusAllowed(m, e)
    requires m.read.value.created == created && created % SECOND == 0
    ensures Sound(x.(status := ApplyStatus(e, x.status)), created, m.fetch.recorded)
  {
    match e {
      case Replace(c) => if c.lastActivity.Some? { WholeSecondsBelow(created, c.lastActivity.value); }
      case SetActivity(t) => WholeSecondsBelow(created, t);
      case _ =>
    }
  }

  /**
   What other writers may do in one write: anything to annotations, spec, finalizers and activity, except
   that only the operator writes drain annotations, a written status keeps the wake rule, and no activity
   is dated before the object's creation.
   */
  predicate Rely(a: XTrinode, b: XTrinode) {
    && WakeOk(b.status)
    && WholeSeconds(b.status)
    && b.created == a.created
    && ActivityOk(b.created, b.status.lastActivity)
    && (DrainStartedAt in b.annotations <==> DrainStartedAt in a.annotations)
    && (DrainStartedAt in b.annotations ==> b.annotations[DrainStartedAt] == a.annotations[DrainStartedAt])
  }
}
