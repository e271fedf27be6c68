/**
 The checks before workers are taken away: are queries still running, and is any worker pod still inside
 its termination grace period. What the cluster answered is a parameter.
 */
module Shutdown {
  import opened Options
  import opened Model

  datatype QueryVerdict = AllIdle | Active | Unknown

  /** The query API's answer: the state of every query it lists, or no usable answer. */
  datatype QueryAnswer = Answered(states: seq<string>) | NoAnswer

  datatype DeploymentView = Absent | Replicas(ready: int, available: int) | GetError

  datatype PodCondition = PodCondition(isReadyType: bool, isTrue: bool)

  datatype PodView = PodView(deleting: bool, conditions: seq<PodCondition>)

  datatype Observation = Observation(
    credential: bool, answer: QueryAnswer, coordinator: DeploymentView, pods: Option<seq<PodView>>)

  predicate Terminal(state: string) {
    state == "FINISHED" || state == "FAILED" || state == "CANCELED" || state == "CANCELLED"
  }

  /** The states Trino gives a query. */
  datatype QueryState =
    | InQueue | AwaitsResources | IsDispatching | IsPlanning | IsStarting | IsRunning | IsFinishing
    | HasFinished | HasFailed

  function StateName(s: QueryState): string {
    match s
    case InQueue => "QUEUED"
    case AwaitsResources => "WAITING_FOR_RESOURCES"
    case IsDispatching => "DISPATCHING"
    case IsPlanning => "PLANNING"
    case IsStarting => "STARTING"
    case IsRunning => "RUNNING"
    case IsFinishing => "FINISHING"
    case HasFinished => "FINISHED"
    case HasFailed => "FAILED"
  }

  /** Of these only the two that end a query are terminal; a cancelled query is, in either spelling. */
  lemma OnlyEndsAreTerminal(s: QueryState)
    ensures Terminal(StateName(s)) <==> s.HasFinished? || s.HasFailed?
    ensures Terminal("CANCELED") && Terminal("CANCELLED")
  {
    assert StateName(s)[0] == 'F' || (StateName(s)[0] != 'F' && StateName(s)[0] != 'C');
  }

  predicate PodReady(p: PodView) {
    !p.deleting && exists i :: 0 <= i < |p.conditions| && p.conditions[i] == PodCondition(true, true)
  }

  /** A coordinator replica is ready; unknown when the cluster cannot be asked. */
  ghost function ReadyRuntime(coordinator: DeploymentView, pods: Option<seq<PodView>>): Option<bool> {
    if coordinator.GetError? then None
    else if coordinator.Replicas? && (coordinator.ready > 0 || coordinator.available > 0) then Some(true)
    else if pods.None? then None
    else Some(exists i :: 0 <= i < |pods.value| && PodReady(pods.value[i]))
  }

  /** Fail closed: only an answer without live queries, or proof that no coordinator is up, counts as idle. */
  ghost function Judge(o: Observation): QueryVerdict {
    if !o.credential then Unknown
    else if o.answer.Answered? then
      (if forall i :: 0 <= i < |o.answer.states| ==> Terminal(o.answer.states[i]) then AllIdle else Active)
    else if ReadyRuntime(o.coordinator, o.pods) == Some(false) then AllIdle
    else Unknown
  }

  method PodIsReady(p: PodView) returns (ready: bool)
    ensures ready <==> PodReady(p)
  {
    if p.deleting {
      return false;
    }
    for i := 0 to |p.conditions|
      invariant forall j :: 0 <= j < i ==> p.conditions[j] != PodCondition(true, true)
    {
      if p.conditions[i].isReadyType && p.conditions[i].isTrue {
        return true;
      }
    }
    return false;
  }

  method CoordinatorHasReadyRuntime(coordinator: DeploymentView, pods: Option<seq<PodView>>) returns (ready: Option<bool>)
    ensures ready == ReadyRuntime(coordinator, pods)
  {
    match coordinator {
      case GetError => return None;
      case Replicas(r, a) => if r > 0 || a > 0 { return Some(true); }
      case Absent =>
    }
    if pods.None? {
      return None;
    }
    for i := 0 to |pods.value|
      invariant forall j :: 0 <= j < i ==> !PodReady(pods.value[j])
    {
      var up := PodIsReady(pods.value[i]);
      if up {
        return Some(true);
      }
    }
    return Some(false);
  }

  method CountActive(states: seq<string>) returns (n: nat)
    ensures n == 0 <==> forall i :: 0 <= i < |states| ==> Terminal(states[i])
  {
    n := 0;
    for i := 0 to |states|
      invariant n == 0 <==> forall j :: 0 <= j < i ==> Terminal(states[j])
    {
      if !Terminal(states[i]) {
        n := n + 1;
      }
    }
  }

  method CheckQueriesBeforeScaleDown(o: Observation) returns (v: QueryVerdict)
    ensures v == Judge(o)
  {
    if !o.credential {
      return Unknown;
    }
    if o.answer.Answered? {
      var active := CountActive(o.answer.states);
      return if active > 0 then Active else AllIdle;
    }
    var ready := CoordinatorHasReadyRuntime(o.coordinator, o.pods);
    if ready.None? {
      return Unknown;
    }
    return if ready.value then Unknown else AllIdle;
  }

  /* ---- worker pods ---- */

  const DEFAULT_GRACE_SECONDS: int := 60 * 60

  datatype WorkerPod = WorkerPod(deletedAt: Option<int>, graceSeconds: Option<int>)

  function Grace(p: WorkerPod): int {
    (if p.graceSeconds.Some? then p.graceSeconds.value else DEFAULT_GRACE_SECONDS) * SECOND
  }

  /** At clock reading `at`, no pod that is being deleted is inside its grace period. */
  ghost predicate NoneInGrace(pods: seq<WorkerPod>, at: int) {
    forall i :: 0 <= i < |pods| && pods[i].deletedAt.Some? ==> pods[i].deletedAt.value + Grace(pods[i]) <= at
  }
}
