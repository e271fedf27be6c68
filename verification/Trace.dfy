/**
 What happens between the operator and the outside world, in order, and when each act is justified.

 `Edit` and `StatusEdit` name the read-modify-write closures of the controllers. What the outside world
 shows or answers is logged by the API server model itself; of its own the operator logs only decisions,
 and a decision carries no data that the log does not already fix. `Safe(trace)` says that every event of a
 run was allowed by the events before it; `Guarantees` reads off what that means for finalizer removal, for the
 Suspended phase, for wake floors and for auto-suspend requests.
 */
module Trace {
  import opened Options
  import opened Model
  import Commands
  import opened Activity
  import opened Shutdown
  import OwnerRefs

  /* ---- writes ---- */

  datatype Edit =
    | AddFinalizer
    | RecordDrainStart
    | MarkDrainComplete(at: Text, result: Text)
    | RemoveFinalizer
    | ApplyCommands(plan: Commands.Plan)
    | RequestAutoSuspend
    | DropKeys(keys: set<Key>)

  /** The object the closure sends back, or `None` when it returns without an update. */
  function ApplyEdit(e: Edit, b: XTrinode, now: int): (r: Option<XTrinode>)
    ensures r.Some? ==> r.value.status == b.status && r.value.deleting == b.deleting && r.value.created == b.created
  {
    match e
    case AddFinalizer => Some(b.(finalizer := true))
    case RecordDrainStart => Some(b.(annotations := b.annotations[DrainStartedAt := FormatTime(now)]))
    case MarkDrainComplete(at, result) =>
      if Lookup(b.annotations, DrainCompletedAt) != Plain("") then None
      else Some(b.(annotations := b.annotations[DrainCompletedAt := at][DrainResult := result]))
    case RemoveFinalizer => Some(b.(finalizer := false))
    case ApplyCommands(plan) => Some(Commands.Mutate(plan, b))
    case RequestAutoSuspend =>
      Some(b.(annotations := b.annotations[AutoSuspendRequested := Plain("true")][AutoSuspendRequestedAt := FormatTime(now)]))
    case DropKeys(keys) => Some(b.(annotations := b.annotations - keys))
  }

  datatype StatusEdit =
    | Replace(captured: Status)
    | MarkError(conditions: string)
    | RejectCommand(conditions: string)
    | SetActivity(t: int)

  /** The status stored when the closure is applied to the stored status `s`. */
  function ApplyStatus(e: StatusEdit, s: Status): Status {
    match e
    case Replace(c) =>
      Persist(if Later(s.lastActivity, c.lastActivity) then c.(lastActivity := s.lastActivity) else c)
    case MarkError(cond) => Persist(s.(phase := Error, other := s.other["conditions" := cond]))
    case RejectCommand(cond) => Persist(s.(other := s.other["conditions" := cond]))
    case SetActivity(t) => Persist(s.(lastActivity := Some(t)))
  }

  /**
   The status merge: the captured status is stored as it is, except that a later activity time found on
   the server is kept. The activity time therefore never moves back, although storing cuts off fractions.
   */
  lemma MergeKeepsActivity(captured: Status, stored: Status)
    requires WholeSeconds(stored)
    ensures var after := ApplyStatus(Replace(captured), stored);
            && NotLowered(stored.lastActivity, after.lastActivity)
            && NotLowered(Persist(captured).lastActivity, after.lastActivity)
            && (after.lastActivity == stored.lastActivity || after.lastActivity == Persist(captured).lastActivity)
            && after == Persist(captured).(lastActivity := after.lastActivity)
  {
    if stored.lastActivity.Some? && captured.lastActivity.Some? && !Later(stored.lastActivity, captured.lastActivity) {
      WholeSecondsBelow(stored.lastActivity.value, captured.lastActivity.value);
    }
  }

  lemma WholeSecondsBelow(a: int, b: int)
    requires a % SECOND == 0 && a <= b
    ensures a <= Trunc(b)
  {
    var q := a / SECOND;
    assert a == q * SECOND;
  }

  /* ---- events ---- */

  /** The two resources of a node pool that carry owner references. */
  datatype Part = MachinePart | InfraPart

  /** A release of one part: it was gone, or it was read and updated as `OwnerRefs.Release` says. */
  datatype Attempt =
    | Gone
    | Tried(versions: seq<seq<OwnerRefs.OwnerRef>>, k: nat, others: seq<seq<OwnerRefs.OwnerRef>>, reply: OwnerRefs.Reply)

  datatype Component = Coordinator | Worker

  /**
   External calls. `EnsureKeda` names the floor it asks for and when the wake window was looked at;
   `FindDeployment` the replicas it saw. `ClearScaledObject` removes what KEDA left behind once it is switched off.
   */
  datatype Op =
    | DrainRoute | PublishRoute | RemoveRoute
    | FindScaledObject | ClearScaledObject | DisableKeda | EnsureKeda(floor: int, testedAt: int) | DeleteHpa
    | FindDeployment(found: Component, seen: int) | ScaleDeployment(scaled: Component, replicas: int)
    | ApplyGuardrails | ApplyTrino | CheckReady
    | EnsurePool | CheckPool
    | DeleteScaledObject | DeleteTrino
    | DeletePool | ScalePoolToZero
    | RecomputeGuardrails

  /** An external call: done, target absent, or any other error. */
  datatype Call = Done | Absent | Broken

  /** `Refused` stands for a read, listing, release or update that failed, and for an interrupted wait. */
  datatype Event =
    // logged by the server: what it was asked, what it stored, what it showed
    | Began(window: int, owner: OwnerRefs.Owner)
    | PassStarted(read: XTrinode, at: int)
    | MetaWritten(edit: Edit, before: XTrinode, at: int)
    | StatusWritten(update: StatusEdit, stored: Status)
    | Refreshed(fetched: XTrinode)
    | Reloaded(found: Option<XTrinode>)
    | Patched(reply: XTrinode)
    | Called(op: Op, result: Call)
    | QueriesSeen(seen: Observation)
    | PodsListed(pods: seq<WorkerPod>)
    | ReleaseTried(part: Part, attempt: Attempt)
    | ReplySeen(answer: Reply, at: int)
    | Refused
    // logged by the operator: decisions
    | DrainJudged(complete: bool, at: int)
    | PodsSettled(at: int)
    | PoolLeft
    | WakeChosen(at: int)
    | WakeExpired(at: int)
    | ResumeMarked(at: int)
    | WakeTested(at: int)
    | IdleJudged(latest: Option<int>, at: int)

  predicate Decision(e: Event) {
    e.DrainJudged? || e.PodsSettled? || e.PoolLeft? || e.WakeChosen? || e.WakeExpired? || e.ResumeMarked?
    || e.WakeTested? || e.IdleJudged?
  }

  /** The clock reading an event carries. */
  function Reading(e: Event): Option<int> {
    match e
    case PassStarted(_, at) => Some(at)
    case MetaWritten(_, _, at) => Some(at)
    case Called(op, _) => if op.EnsureKeda? then Some(op.testedAt) else None
    case ReplySeen(_, at) => Some(at)
    case DrainJudged(_, at) => Some(at)
    case PodsSettled(at) => Some(at)
    case WakeChosen(at) => Some(at)
    case WakeExpired(at) => Some(at)
    case ResumeMarked(at) => Some(at)
    case WakeTested(at) => Some(at)
    case IdleJudged(_, at) => Some(at)
    case _ => None
  }

  /** What keeps a pass from its end: refusals, failed calls, and calls whose target had to be there. */
  predicate Setback(e: Event, owner: OwnerRefs.Owner) {
    match e
    case Refused => true
    case Called(op, c) => c.Broken? || (c.Absent? && !MayBeAbsent(op))
    case ReplySeen(answer, _) => !Usable(answer)
    case ReleaseTried(_, a) => !Succeeded(a, owner)
    case _ => false
  }

  predicate MayBeAbsent(op: Op) {
    op.DisableKeda? || op.DeleteHpa? || op.FindDeployment? || op.FindScaledObject? || op.ClearScaledObject?
  }

  function Setbacks(t: seq<Event>, owner: OwnerRefs.Owner): nat {
    if t == [] then 0 else Setbacks(t[..|t| - 1], owner) + if Setback(t[|t| - 1], owner) then 1 else 0
  }

  /** What the pass last learnt of a Deployment, or did to it. */
  datatype Target = Untouched | NotThere | Seen(n: int) | SetTo(n: int) | Unclear

  /** What the pass last did to the parts of the runtime that run. */
  datatype Fleet = Fleet(coordinator: Target, worker: Target, kedaOff: bool, hpaGone: bool)

  const NO_FLEET_WORK: Fleet := Fleet(Untouched, Untouched, false, false)

  datatype PoolWork = PoolWork(tried: map<Part, Attempt>, deleteTried: bool, scaled: bool)

  /** A read of the object outside any write: not made since the answer, failed, or answered. */
  datatype Reload = NotReloaded | ReloadFailed | ReloadedAs(x: XTrinode)

  datatype IdleWork = IdleWork(answer: Option<Reply>, answeredAt: int, reload: Reload, judged: bool)

  const NO_POOL_WORK: PoolWork := PoolWork(map[], false, false)
  const NO_IDLE_WORK: IdleWork := IdleWork(None, 0, NotReloaded, false)

  /**
   What fetching and storing objects changes: the last clock reading logged, the readings of all stored drain
   starts, and, for the current pass, the object last fetched (`hand`), the wake window the operator has in
   memory and whether it was found closed, and the work done on the pool of that object.
   */
  datatype Fetch = Fetch(
    now: int, recorded: set<int>, hand: Option<XTrinode>, wake: Option<Wake>, wakeTested: bool, pool: PoolWork)

  /**
   What matters of the past. `window` and `owner` are the configuration. The rest is about the current pass:
   the object first read, the activity time the operator has in memory, the last query observation and pod
   listing, the work on idleness and on the fleet. `suspend`, `removal` and `ready` count the rungs climbed, in
   order, towards writing phase Suspended, removing the finalizer and writing phase Ready. Bringing the runtime
   back takes the first two away; a further query observation, or publishing the route, takes the second away.
   */
  datatype Monitor = Monitor(
    window: int, owner: OwnerRefs.Owner, read: Option<XTrinode>, fetch: Fetch, activity: Option<int>,
    drained: bool, seen: Option<Observation>, pods: Option<seq<WorkerPod>>,
    suspend: nat, removal: nat, ready: nat, fleet: Fleet, idle: IdleWork)

  const FULL_SUSPEND: nat := 7
  const FULL_REMOVAL: nat := 5
  const FULL_READY: nat := 6

  predicate KedaOff(e: Event) {
    e.Called? && e.op.DisableKeda? && !e.result.Broken?
  }

  predicate HpaGone(e: Event) {
    e.Called? && e.op.DeleteHpa? && !e.result.Broken?
  }

  /** The Deployment was found absent or set to zero. */
  predicate AtZero(e: Event, c: Component) {
    && e.Called?
    && ((e.op.FindDeployment? && e.op.found == c && e.result.Absent?) || (e.op == ScaleDeployment(c, 0) && e.result.Done?))
  }

  /** The rung of the suspend ladder an event is. */
  ghost function SuspendRung(e: Event): nat {
    if e == Called(PublishRoute, Done) then 1
    else if e.QueriesSeen? && Judge(e.seen).AllIdle? then 2
    else if KedaOff(e) then 3
    else if HpaGone(e) then 4
    else if AtZero(e, Coordinator) then 5
    else if AtZero(e, Worker) then 6
    else if e.PodsSettled? then 7
    else 0
  }

  function RemovalRung(e: Event): nat {
    if e.DrainJudged? && e.complete then 1
    else if e.PodsSettled? then 2
    else if e == Called(RemoveRoute, Done) then 3
    else if e.PoolLeft? then 4
    else if e == Called(RecomputeGuardrails, Done) then 5
    else 0
  }

  /** The rung of the ready ladder a call is. */
  function ReadyRung(e: Event): nat {
    if !e.Called? || !e.result.Done? then 0
    else
      match e.op
      case ApplyGuardrails => 1
      case CheckPool => 2
      case ApplyTrino => 3
      case EnsureKeda(_, _) => 4
      case CheckReady => 5
      case PublishRoute => 6
      case _ => 0
  }

  /** Calls that bring workers back or may do so, whatever they report. */
  predicate Restarts(e: Event) {
    e.Called? && (e.op.EnsureKeda? || (e.op.ScaleDeployment? && e.op.replicas > 0))
  }

  /** What takes the suspend ladder away. */
  ghost predicate EndsSuspend(e: Event) {
    e.PassStarted? || Restarts(e) || (e.QueriesSeen? && !Judge(e.seen).AllIdle?)
  }

  /** What takes the removal ladder away. */
  predicate EndsRemoval(e: Event) {
    e.PassStarted? || Restarts(e) || e.QueriesSeen? || (e.Called? && e.op.PublishRoute?)
  }

  /** One rung up if `rung` is the next one. */
  function Climb(height: nat, rung: nat): nat {
    if rung == height + 1 then rung else height
  }

  predicate KedaInUse(m: Monitor) {
    m.read.Some? && m.read.value.spec.kedaEnabled
  }

  ghost function NextSuspend(m: Monitor, e: Event): nat {
    if EndsSuspend(e) then 0
    else
      // A runtime without KEDA has no third rung.
      var height := if HpaGone(e) && m.suspend == 2 && !KedaInUse(m) then 3 else m.suspend;
      var rung := if KedaOff(e) && !KedaInUse(m) then 0 else SuspendRung(e);
      Climb(height, rung)
  }

  function NextRemoval(m: Monitor, e: Event): nat {
    if EndsRemoval(e) then 0 else Climb(m.removal, RemovalRung(e))
  }

  /** The object in hand decides which rungs there are: no second without a pool, no fourth without KEDA. */
  predicate HandUses(m: Monitor, rung: nat) {
    m.fetch.hand.Some? && (if rung == 2 then m.fetch.hand.value.spec.pool.Some? else m.fetch.hand.value.spec.kedaEnabled)
  }

  function NextReady(m: Monitor, e: Event): nat {
    var rung := ReadyRung(e);
    var height := if rung == 3 && m.ready == 1 && !HandUses(m, 2) then 2
                  else if rung == 5 && m.ready == 3 && !HandUses(m, 4) then 4 else m.ready;
    Climb(height, rung)
  }

  function NextTarget(t: Target, e: Event, c: Component): Target {
    if !e.Called? then t
    else
      match e.op
      case FindDeployment(d, n) => if d != c || e.result.Broken? then t else if e.result.Absent? then NotThere else Seen(n)
      case ScaleDeployment(d, n) => if d != c then t else if e.result.Done? then SetTo(n) else Unclear
      case _ => t
  }

  function NextFleet(f: Fleet, e: Event): Fleet {
    Fleet(NextTarget(f.coordinator, e, Coordinator), NextTarget(f.worker, e, Worker),
          KedaOff(e) || (f.kedaOff && !(e.Called? && e.op.EnsureKeda?)), HpaGone(e) || f.hpaGone)
  }

  function NextFetch(m: Monitor, e: Event): Fetch {
    var f := m.fetch.(now := if Reading(e).Some? then Reading(e).value else m.fetch.now);
    match e
    case PassStarted(x, at) => Fetch(f.now, f.recorded, Some(x), x.status.wake, false, NO_POOL_WORK)
    case MetaWritten(edit, _, at) => if edit.RecordDrainStart? then f.(recorded := f.recorded + {at}) else f
    case Refreshed(x) => Fetch(f.now, f.recorded, Some(x), x.status.wake, false, NO_POOL_WORK)
    case Reloaded(found) =>
      if found.Some? then Fetch(f.now, f.recorded, found, found.value.status.wake, false, NO_POOL_WORK) else f
    case Patched(x) => f.(hand := Some(x), pool := NO_POOL_WORK)
    case Called(op, c) =>
      if op.DeletePool? then f.(pool := f.pool.(deleteTried := true))
      else if op.ScalePoolToZero? && c.Done? then f.(pool := f.pool.(scaled := true))
      else f
    case ReleaseTried(part, a) => f.(pool := f.pool.(tried := f.pool.tried[part := a]))
    case WakeChosen(at) => f.(wake := if m.read.Some? then Commands.WakeWindowOf(m.read.value, at) else None)
    case WakeExpired(_) => f.(wake := None)
    case WakeTested(_) => f.(wakeTested := true)
    case ReplySeen(_, _) => f.(wakeTested := false)
    case _ => f
  }

  function NextIdle(w: IdleWork, e: Event): IdleWork {
    match e
    case ReplySeen(answer, at) => IdleWork(Some(answer), at, NotReloaded, false)
    case Reloaded(found) => w.(reload := if found.Some? then ReloadedAs(found.value) else ReloadFailed)
    case IdleJudged(_, _) => w.(judged := true)
    case _ => w
  }

  ghost function Next(m: Monitor, e: Event): Monitor {
    if e.Began? then m.(window := e.window, owner := e.owner)
    else if e.PassStarted? then
      Monitor(m.window, m.owner, Some(e.read), NextFetch(m, e), e.read.status.lastActivity, false, None, None,
              0, 0, 0, NO_FLEET_WORK, NO_IDLE_WORK)
    else
      m.(fetch := NextFetch(m, e),
         activity := if e.ResumeMarked? then Some(e.at) else m.activity,
         drained := m.drained || e == Called(DrainRoute, Done),
         seen := if e.QueriesSeen? then Some(e.seen) else m.seen,
         pods := if e.PodsListed? then Some(e.pods) else m.pods,
         suspend := NextSuspend(m, e),
         removal := NextRemoval(m, e),
         ready := NextReady(m, e),
         fleet := NextFleet(m.fleet, e),
         idle := NextIdle(m.idle, e))
  }

  function Start(): Monitor {
    Monitor(0, OwnerRefs.Owner("", ""), None, Fetch(0, {}, None, None, false, NO_POOL_WORK), None, false, None, None,
            0, 0, 0, NO_FLEET_WORK, NO_IDLE_WORK)
  }

  ghost function Mon(t: seq<Event>): Monitor {
    if t == [] then Start() else Next(Mon(t[..|t| - 1]), t[|t| - 1])
  }

  /* ---- what is allowed ---- */

  predicate InDeletion(m: Monitor) {
    m.read.Some? && m.read.value.deleting
  }

  predicate IsLive(m: Monitor) {
    m.read.Some? && !m.read.value.deleting
  }

  /** The object the pass read is to be suspended, or is to run. */
  predicate GoesDown(m: Monitor) {
    IsLive(m) && m.read.value.spec.suspended
  }

  predicate GoesUp(m: Monitor) {
    IsLive(m) && !m.read.value.spec.suspended
  }

  ghost predicate EditAllowed(m: Monitor, e: Edit) {
    match e
    case AddFinalizer => IsLive(m)
    case RecordDrainStart => InDeletion(m) && m.drained
    case MarkDrainComplete(_, _) => InDeletion(m)
    case RemoveFinalizer => InDeletion(m) && m.removal == FULL_REMOVAL
    case ApplyCommands(plan) =>
      IsLive(m) && Commands.IntakeOf(m.read.value.annotations) == Commands.Apply(plan)
    case RequestAutoSuspend => GoesUp(m) && m.idle.judged
    case DropKeys(keys) => GoesUp(m) && keys <= {WakeMinWorkers, WakeTTL}
  }

  /** A status names no activity from before the object existed. */
  predicate ActivityOk(created: int, activity: Option<int>) {
    activity.Some? ==> created <= activity.value
  }

  /** A pass that changes the phase takes it where the object it read is to go. */
  predicate PhaseFits(m: Monitor, phase: Phase) {
    && IsLive(m)
    && (phase == m.read.value.status.phase || (
          && (phase == Suspending || phase == Suspended ==> GoesDown(m))
          && (phase == Resuming || phase == Reconciling || phase == Ready ==> GoesUp(m))
          && (phase == Suspended ==> m.suspend == FULL_SUSPEND)))
    && (phase == Ready ==> m.ready == FULL_READY || (m.ready == 0 && phase == m.read.value.status.phase))
  }

  predicate StatusAllowed(m: Monitor, e: StatusEdit) {
    && IsLive(m)
    && match e
       case Replace(c) =>
         && WakeOk(c)
         && ActivityOk(m.read.value.created, c.lastActivity)
         && PhaseFits(m, c.phase)
       case SetActivity(t) => ActivityOk(m.read.value.created, Some(t))
       case _ => true
  }

  /** The drain window has passed since the stored start; an unreadable start counts as long ago. */
  predicate WindowPassed(start: Text, now: int, window: int) {
    match ParseTime(start)
    case None => true
    case Some(t) => now - t >= window
  }

  /** The drain start on the object this pass read. */
  function StartRead(m: Monitor): Option<Text> {
    if m.read.Some? && DrainStartedAt in m.read.value.annotations then Some(m.read.value.annotations[DrainStartedAt]) else None
  }

  ghost predicate Known(start: Text, recorded: set<int>) {
    exists t :: t in recorded && start == FormatTime(t)
  }

  /** The drain is over: the last check found no live query, or it failed and the window has passed. */
  ghost predicate DrainOver(m: Monitor, at: int) {
    && m.seen.Some? && StartRead(m).Some?
    && (Judge(m.seen.value).AllIdle? || (Judge(m.seen.value).Unknown? && WindowPassed(StartRead(m).value, at, m.window)))
  }

  function Max(a: int, b: int): int { if a < b then b else a }
  function Min(a: int, b: int): int { if a < b then a else b }

  /** The latest sign of life: the time in memory, the newest query time, the answer itself if queries ran. */
  function SignOfLife(known: int, latest: Option<int>, active: bool, answeredAt: int): int {
    var base := Min(known, answeredAt);
    var base := if latest.Some? then Max(base, Min(latest.value, answeredAt)) else base;
    if active then Max(base, answeredAt) else base
  }

  /** The activity time the operator has in memory, or the object's creation. */
  function KnownActivity(m: Monitor): int
    requires m.read.Some?
  {
    if m.activity.Some? then m.activity.value else m.read.value.created
  }

  function ActivityOrCreation(x: XTrinode): int {
    if x.status.lastActivity.Some? then x.status.lastActivity.value else x.created
  }

  predicate WakeActive(w: Option<Wake>, now: int) {
    w.Some? && now < w.value.expiresAt
  }

  /** The object was reloaded since the answer, or that failed; a reloaded one is in hand and idle for `span`. */
  predicate ReloadIdle(m: Monitor, at: int, span: int) {
    && !m.idle.reload.NotReloaded?
    && (m.idle.reload.ReloadedAs? ==>
          m.fetch.hand == Some(m.idle.reload.x) && at - ActivityOrCreation(m.idle.reload.x) >= span)
  }

  /** The object last fetched asks for automatic suspension, and nothing has been alive for that long. */
  ghost predicate IdleAt(m: Monitor, latest: Option<int>, at: int) {
    && m.read.Some? && m.fetch.hand.Some? && m.idle.answer.Some?
    && m.fetch.wakeTested
    && m.fetch.hand.value.spec.autoSuspendAfter.Some? && !m.fetch.hand.value.spec.suspended
    && ShowsLatest(m.idle.answer.value, latest)
    && at - SignOfLife(KnownActivity(m), latest, ShowsActive(m.idle.answer.value), m.idle.answeredAt)
       >= m.fetch.hand.value.spec.autoSuspendAfter.value
    && ReloadIdle(m, at, m.fetch.hand.value.spec.autoSuspendAfter.value)
  }

  /** A release that reported success. */
  predicate Succeeded(a: Attempt, owner: OwnerRefs.Owner) {
    a.Gone? || (a.k < |a.versions| && OwnerRefs.Release(a.versions, a.k, a.others, a.reply, owner).0)
  }

  predicate BothReleased(m: Monitor) {
    && MachinePart in m.fetch.pool.tried && Succeeded(m.fetch.pool.tried[MachinePart], m.owner)
    && InfraPart in m.fetch.pool.tried && Succeeded(m.fetch.pool.tried[InfraPart], m.owner)
  }

  /** The pool of the object last fetched was left as its policy asks; policy Delete only has to try. */
  predicate PoolSettled(m: Monitor) {
    && m.fetch.hand.Some?
    && match m.fetch.hand.value.spec.pool
       case Some(p) =>
         if p.policy == Delete then m.fetch.pool.deleteTried
         else if p.policy == ScaleToZero then m.fetch.pool.scaled && BothReleased(m)
         else BothReleased(m)
       case None => m.fetch.hand.value.status.observedPool.Some? ==> BothReleased(m)
  }

  /** Calls of the clean-up of a deleted runtime. */
  predicate CleanupCall(op: Op) {
    op.RemoveRoute? || op.DeleteScaledObject? || op.DeleteTrino? || op.DeletePool? || op.ScalePoolToZero? || op.RecomputeGuardrails?
  }

  /** The replicas a pass may ask for: none on the way down; up, one coordinator and the workers that are asked for. */
  predicate ScaleFits(m: Monitor, c: Component, n: int) {
    if GoesDown(m) then n == 0
    else
      && GoesUp(m)
      && if c.Coordinator? then n == 1
         else
           && m.fetch.hand.Some?
           && var spec := m.fetch.hand.value.spec;
              if spec.hpaFloor.Some? then n == spec.hpaFloor.value
              else !spec.kedaEnabled && n == Commands.WakeWorkersOf(m.read.value)
  }

  /** Which calls belong to a pass follows from the object it read: deleted, to be suspended, or to run. */
  predicate OpFits(m: Monitor, op: Op) {
    if CleanupCall(op) || op.DrainRoute? then InDeletion(m)
    else
      match op
      case DisableKeda => GoesDown(m)
      case DeleteHpa => GoesDown(m)
      case EnsureKeda(_, _) => GoesUp(m)
      case ApplyGuardrails => GoesUp(m)
      case ApplyTrino => GoesUp(m)
      case CheckReady => GoesUp(m)
      case FindScaledObject => GoesUp(m)
      case ClearScaledObject => GoesUp(m)
      case ScaleDeployment(c, n) => ScaleFits(m, c, n)
      case _ => IsLive(m)
  }

  ghost predicate Allowed(m: Monitor, e: Event) {
    && (Reading(e).Some? ==> m.fetch.now <= Reading(e).value)
    && match e
       case Began(window, _) => m == Start() && 0 < window
       case MetaWritten(edit, before, at) => EditAllowed(m, edit) && ApplyEdit(edit, before, at).Some?
       case StatusWritten(edit, before) => StatusAllowed(m, edit) && WholeSeconds(before) && WakeOk(before)
       case Called(op, _) =>
         && OpFits(m, op)
         && (CleanupCall(op) ==> m.removal >= 2)
         && (op.EnsureKeda? && op.floor > 0 ==>
               WakeActive(m.fetch.wake, op.testedAt) && op.floor == m.fetch.wake.value.minWorkers)
       case ReleaseTried(_, a) => (a.Tried? ==> a.k < |a.versions|) && (InDeletion(m) ==> m.removal >= 2)
       case DrainJudged(complete, at) =>
         && InDeletion(m) && 0 < m.window
         && StartRead(m).Some? && Known(StartRead(m).value, m.fetch.recorded)
         && (complete <==> DrainOver(m, at))
       case PodsSettled(at) => m.pods.Some? && NoneInGrace(m.pods.value, at)
       case PoolLeft => PoolSettled(m)
       case WakeExpired(at) => !WakeActive(m.fetch.wake, at)
       case WakeTested(at) => m.idle.answer.Some? && !WakeActive(m.fetch.wake, at)
       case IdleJudged(latest, at) => IdleAt(m, latest, at)
       case _ => true
  }

  /** Every event was allowed by those before it. */
  ghost predicate Safe(t: seq<Event>) {
    forall k {:trigger t[..k]} :: 0 <= k < |t| ==> Allowed(Mon(t[..k]), t[k])
  }

  lemma Append(t: seq<Event>, e: Event)
    ensures Mon(t + [e]) == Next(Mon(t), e)
    ensures Safe(t) && Allowed(Mon(t), e) ==> Safe(t + [e])
    ensures Writes(t + [e]) == Writes(t) + if IsWrite(e) then [e] else []
  {
    assert (t + [e])[..|t|] == t;
    if Safe(t) && Allowed(Mon(t), e) {
      forall k | 0 <= k < |t + [e]| ensures Allowed(Mon((t + [e])[..k]), (t + [e])[k]) {
        if k < |t| {
          assert (t + [e])[..k] == t[..k];
        }
      }
    }
  }

  /** The log, and what is kept beside it. */
  ghost predicate Recorded(t: seq<Event>, m: Monitor, writes: seq<Event>, setbacks: nat, owner: OwnerRefs.Owner) {
    m == Mon(t) && writes == Writes(t) && setbacks == Setbacks(t, owner) && Safe(t)
  }

  lemma RecordedAppend(t: seq<Event>, m: Monitor, writes: seq<Event>, setbacks: nat, owner: OwnerRefs.Owner, e: Event)
    requires Recorded(t, m, writes, setbacks, owner) && Allowed(m, e)
    ensures Recorded(t + [e], Next(m, e), writes + (if IsWrite(e) then [e] else []), setbacks + (if Setback(e, owner) then 1 else 0), owner)
  {
    Append(t, e);
    CountAppend(t, e, owner);
  }

  lemma CountAppend(t: seq<Event>, e: Event, owner: OwnerRefs.Owner)
    ensures Setbacks(t + [e], owner) == Setbacks(t, owner) + if Setback(e, owner) then 1 else 0
  {
    assert (t + [e])[..|t|] == t;
  }

  /** Objects were fetched and stored in between; the pass knows nothing else that is new. */
  predicate OnlyFetched(m: Monitor, m': Monitor) {
    m' == m.(fetch := m'.fetch)
  }

  lemma NextKeeps(m: Monitor, e: Event)
    requires Allowed(m, e) && !e.Began?
    ensures var n := Next(m, e);
            && n.window == m.window && n.owner == m.owner && m.fetch.recorded <= n.fetch.recorded
            && n.fetch.now == (if Reading(e).Some? then Reading(e).value else m.fetch.now)
            && n.read == (if e.PassStarted? then Some(e.read) else m.read)
            && n.fetch.hand == (if e.PassStarted? then Some(e.read) else if e.Refreshed? then Some(e.fetched)
                                else if e.Reloaded? && e.found.Some? then e.found else if e.Patched? then Some(e.reply) else m.fetch.hand)
  {
  }

  lemma AfterRefreshed(m: Monitor, x: XTrinode)
    ensures Next(m, Refreshed(x)) == m.(fetch := Fetch(m.fetch.now, m.fetch.recorded, Some(x), x.status.wake, false, NO_POOL_WORK))
  {
  }

  lemma AfterReloaded(m: Monitor, found: Option<XTrinode>)
    ensures Next(m, Reloaded(found))
         == m.(fetch := if found.Some? then Fetch(m.fetch.now, m.fetch.recorded, found, found.value.status.wake, false, NO_POOL_WORK)
                        else m.fetch,
               idle := m.idle.(reload := if found.Some? then ReloadedAs(found.value) else ReloadFailed))
  {
  }

  lemma AfterPatched(m: Monitor, x: XTrinode)
    ensures Next(m, Patched(x)) == m.(fetch := m.fetch.(hand := Some(x), pool := NO_POOL_WORK))
  {
  }

  lemma AfterMetaWritten(m: Monitor, e: Edit, b: XTrinode, at: int)
    ensures Next(m, MetaWritten(e, b, at))
         == m.(fetch := m.fetch.(now := at, recorded := if e.RecordDrainStart? then m.fetch.recorded + {at} else m.fetch.recorded))
  {
  }

  /** Only the ladders and the fleet may differ. */
  predicate OnlyLadders(m: Monitor, m': Monitor) {
    m' == m.(suspend := m'.suspend, removal := m'.removal, ready := m'.ready, fleet := m'.fleet)
  }

  lemma AfterRefused(m: Monitor)
    ensures Allowed(m, Refused) && Next(m, Refused) == m
  {
  }

  /** Calls that move nothing but the ladders and the fleet. */
  predicate PlainCall(op: Op) {
    !CleanupCall(op) && !op.DrainRoute? && !op.EnsureKeda?
  }

  ghost function AfterPlain(m: Monitor, e: Event): Monitor {
    m.(suspend := NextSuspend(m, e), removal := NextRemoval(m, e), ready := NextReady(m, e), fleet := NextFleet(m.fleet, e))
  }

  lemma AfterPlainCall(m: Monitor, op: Op, c: Call)
    requires PlainCall(op) && OpFits(m, op)
    ensures Allowed(m, Called(op, c))
    ensures Next(m, Called(op, c)) == AfterPlain(m, Called(op, c))
  {
  }

  /** Calls that move the ready ladder alone. */
  predicate PipelineCall(op: Op) {
    || op.EnsurePool? || op.CheckPool? || op.ApplyGuardrails? || op.ApplyTrino? || op.CheckReady?
    || op.FindScaledObject? || op.ClearScaledObject?
  }

  lemma AfterPipelineCall(m: Monitor, op: Op, c: Call)
    requires PipelineCall(op)
    ensures AfterPlain(m, Called(op, c)) == m.(ready := NextReady(m, Called(op, c)))
  {
  }

  /** Removing something that is absent is as good as removing it. */
  lemma AfterAbsence(m: Monitor, op: Op, c: Call)
    requires (op.DisableKeda? || op.DeleteHpa?) && !c.Broken?
    ensures NextSuspend(m, Called(op, c)) == NextSuspend(m, Called(op, Done))
  {
  }

  /** Finding a Deployment changes nothing; finding it absent, or setting it to zero, is its rung. */
  lemma AfterZeroing(m: Monitor, c: Component, e: Event)
    ensures AtZero(e, c) ==> NextSuspend(m, e) == Climb(m.suspend, if c.Coordinator? then 5 else 6)
    ensures e.Called? && e.op.FindDeployment? && e.result.Done? ==> NextSuspend(m, e) == m.suspend
  {
  }

  /** What finding or scaling a Deployment does to the fleet and to the ready ladder. */
  lemma AfterDeploymentCall(m: Monitor, e: Event, c: Component)
    requires e.Called? && ((e.op.FindDeployment? && e.op.found == c) || (e.op.ScaleDeployment? && e.op.scaled == c))
    ensures AfterPlain(m, e).ready == m.ready
    ensures AfterPlain(m, e).fleet == if c.Coordinator? then m.fleet.(coordinator := NextTarget(m.fleet.coordinator, e, c))
                                      else m.fleet.(worker := NextTarget(m.fleet.worker, e, c))
  {
  }

  lemma AfterPods(m: Monitor, pods: seq<WorkerPod>, at: int)
    ensures Next(m, PodsListed(pods)) == m.(pods := Some(pods))
    ensures Next(m, PodsSettled(at))
         == m.(fetch := m.fetch.(now := at), suspend := Climb(m.suspend, 7), removal := Climb(m.removal, 2))
  {
  }

  lemma AfterWakeTested(m: Monitor, at: int)
    ensures Next(m, WakeTested(at)) == m.(fetch := m.fetch.(now := at, wakeTested := true))
  {
  }

  lemma AfterIdleJudged(m: Monitor, latest: Option<int>, at: int)
    ensures Next(m, IdleJudged(latest, at)) == m.(fetch := m.fetch.(now := at), idle := m.idle.(judged := true))
  {
  }

  lemma AfterReply(m: Monitor, r: Reply, at: int)
    ensures Next(m, ReplySeen(r, at))
         == m.(fetch := m.fetch.(now := at, wakeTested := false), idle := IdleWork(Some(r), at, NotReloaded, false))
  {
  }

  lemma AfterJudged(m: Monitor, complete: bool, at: int)
    ensures Next(m, DrainJudged(complete, at))
         == m.(fetch := m.fetch.(now := at), removal := Climb(m.removal, if complete then 1 else 0))
  {
  }

  lemma AfterPoolLeft(m: Monitor)
    ensures Next(m, PoolLeft) == m.(removal := Climb(m.removal, 4))
  {
  }

  lemma AfterRelease(m: Monitor, part: Part, a: Attempt)
    ensures Next(m, ReleaseTried(part, a)) == m.(fetch := m.fetch.(pool := m.fetch.pool.(tried := m.fetch.pool.tried[part := a])))
  {
  }

  /** What a call on the way out moves: the work on the pool, the drain and the removal ladder. */
  function AfterCleanup(m: Monitor, op: Op, c: Call): Monitor {
    m.(fetch := m.fetch.(pool := m.fetch.pool.(deleteTried := m.fetch.pool.deleteTried || op.DeletePool?,
                                               scaled := m.fetch.pool.scaled || (op.ScalePoolToZero? && c.Done?))),
       drained := m.drained || (op.DrainRoute? && c.Done?),
       removal := Climb(m.removal, if op.RemoveRoute? && c.Done? then 3 else if op.RecomputeGuardrails? && c.Done? then 5 else 0))
  }

  lemma AfterCleanupCall(m: Monitor, op: Op, c: Call)
    requires CleanupCall(op) || op.DrainRoute?
    ensures Next(m, Called(op, c)) == AfterCleanup(m, op, c)
  {
  }

  lemma AfterWakeChosen(m: Monitor, at: int)
    requires m.read.Some?
    ensures Next(m, WakeChosen(at)) == m.(fetch := m.fetch.(now := at, wake := Commands.WakeWindowOf(m.read.value, at)))
  {
  }

  lemma AfterWakeExpired(m: Monitor, at: int)
    ensures Next(m, WakeExpired(at)) == m.(fetch := m.fetch.(now := at, wake := None))
  {
  }

  lemma AfterResumeMarked(m: Monitor, at: int)
    ensures Next(m, ResumeMarked(at)) == m.(fetch := m.fetch.(now := at), activity := Some(at))
  {
  }

  lemma AfterEnsureKeda(m: Monitor, floor: int, at: int, c: Call)
    requires m.fetch.now <= at
    requires GoesUp(m)
    requires floor > 0 ==> WakeActive(m.fetch.wake, at) && floor == m.fetch.wake.value.minWorkers
    ensures Allowed(m, Called(EnsureKeda(floor, at), c))
    ensures Next(m, Called(EnsureKeda(floor, at), c)) 
         == m.(fetch := m.fetch.(now := at), suspend := 0, removal := 0, ready := if c.Done? then Climb(m.ready, 4) else m.ready,
               fleet := m.fleet.(kedaOff := false))
  {
  }

  lemma AfterStatusWritten(m: Monitor, e: StatusEdit, s: Status)
    ensures Next(m, StatusWritten(e, s)) == m
  {
  }

  predicate IsWrite(e: Event) {
    e.MetaWritten? || e.StatusWritten?
  }

  /** The writes to the stored object, in order. */
  function Writes(t: seq<Event>): seq<Event> {
    if t == [] then [] else Writes(t[..|t| - 1]) + if IsWrite(t[|t| - 1]) then [t[|t| - 1]] else []
  }

  lemma SafeAt(t: seq<Event>, k: nat)
    requires Safe(t) && k < |t|
    ensures Safe(t[..k]) && Allowed(Mon(t[..k]), t[k])
  {
    forall j | 0 <= j < k ensures Allowed(Mon(t[..k][..j]), t[..k][j]) {
      assert t[..k][..j] == t[..j];
    }
  }
}
