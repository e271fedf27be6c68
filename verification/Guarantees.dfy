/** What a safe run guarantees. Every run of the operator is safe (`Operator.Run`). */
module Guarantees {
  import opened Options
  import opened Model
  import opened Activity
  import opened Shutdown
  import opened Trace
  import Commands
  import OwnerRefs

  /* ---- passes, configuration and clock ---- */

  /** No pass starts from `from` on. */
  predicate SamePass(t: seq<Event>, from: nat) {
    from <= |t| && forall i :: from <= i < |t| ==> !t[i].PassStarted?
  }

  /** The object a pass first read goes back to the event that started it. */
  lemma {:induction false} PassOf(t: seq<Event>) returns (p: nat)
    requires Mon(t).read.Some?
    ensures p < |t| && t[p].PassStarted? && Mon(t).read == Some(t[p].read) && SamePass(t, p + 1)
  {
    var t', e := t[..|t| - 1], t[|t| - 1];
    if e.PassStarted? {
      p := |t| - 1;
    } else {
      p := PassOf(t');
    }
  }

  /** The configuration is the one the run began with. */
  lemma {:induction false} Configured(t: seq<Event>)
    requires Safe(t) && |t| > 0 && t[0].Began?
    ensures Mon(t).window == t[0].window > 0 && Mon(t).owner == t[0].owner
  {
    var t', e := t[..|t| - 1], t[|t| - 1];
    SafeAt(t, |t| - 1);
    if |t| == 1 {
      assert t' == [];
    } else {
      Configured(t');
    }
  }

  lemma NowStep(m: Monitor, e: Event)
    ensures Next(m, e).fetch.now == if Reading(e).Some? then Reading(e).value else m.fetch.now
  {
  }

  /** Clock readings never run backwards along the log. */
  lemma {:induction false} ReadingsAscend(t: seq<Event>, i: nat)
    requires Safe(t) && i < |t| && Reading(t[i]).Some?
    ensures Reading(t[i]).value <= Mon(t).fetch.now
  {
    var t', e := t[..|t| - 1], t[|t| - 1];
    SafeAt(t, |t| - 1);
    if i < |t| - 1 {
      ReadingsAscend(t', i);
    }
    NowStep(Mon(t'), e);
  }

  /* ---- the ladders ---- */

  datatype Ladder = ToSuspended | ToRemoved

  ghost function Rung(l: Ladder, e: Event): nat {
    if l.ToSuspended? then SuspendRung(e) else RemovalRung(e)
  }

  ghost predicate Ends(l: Ladder, e: Event) {
    if l.ToSuspended? then EndsSuspend(e) else EndsRemoval(e)
  }

  /** The rungs, each at its own place, in ladder order, and nothing since the first that takes the ladder away. */
  ghost predicate Climbed(t: seq<Event>, at: seq<nat>, rungs: seq<nat>, l: Ladder) {
    && |at| == |rungs|
    && (forall i :: 0 <= i < |at| ==> at[i] < |t| && Rung(l, t[at[i]]) == rungs[i])
    && (forall i, j :: 0 <= i < j < |at| ==> at[i] < at[j])
    && (|at| > 0 ==> forall i :: at[0] <= i < |t| ==> !Ends(l, t[i]))
  }

  /** Rungs 1 to `height` of a ladder; `skipThree` leaves out the third. */
  function Rungs(height: nat, skipThree: bool): seq<nat> {
    if height == 0 then []
    else if height == 3 && skipThree then Rungs(2, true)
    else Rungs(height - 1, skipThree) + [height]
  }

  lemma ClimbedExtend(t: seq<Event>, e: Event, at: seq<nat>, rungs: seq<nat>, l: Ladder)
    requires Climbed(t, at, rungs, l) && !Ends(l, e)
    ensures Climbed(t + [e], at, rungs, l)
    ensures Climbed(t + [e], at + [|t|], rungs + [Rung(l, e)], l)
  {
  }

  /** An event takes the suspend ladder away, leaves it as it is, or adds its own rung on top. */
  lemma SuspendStep(m: Monitor, e: Event)
    ensures EndsSuspend(e) ==> Next(m, e).suspend == 0
    ensures !EndsSuspend(e) ==> KedaInUse(Next(m, e)) == KedaInUse(m)
    ensures var rungs, rungs' := Rungs(m.suspend, !KedaInUse(m)), Rungs(Next(m, e).suspend, !KedaInUse(m));
            !EndsSuspend(e) ==> if Next(m, e).suspend == m.suspend then rungs' == rungs else rungs' == rungs + [SuspendRung(e)]
  {
    SuspendField(m, e);
    if !EndsSuspend(e) && !e.Began? {
      NextRungs(m, e);
    }
  }

  lemma SuspendField(m: Monitor, e: Event)
    ensures EndsSuspend(e) ==> Next(m, e).suspend == 0
    ensures !EndsSuspend(e) ==> KedaInUse(Next(m, e)) == KedaInUse(m)
    ensures !EndsSuspend(e) ==> Next(m, e).suspend == if e.Began? then m.suspend else NextSuspend(m, e)
  {
  }

  lemma NextRungs(m: Monitor, e: Event)
    requires !EndsSuspend(e)
    ensures var n, skip := NextSuspend(m, e), !KedaInUse(m);
            Rungs(n, skip) == if n == m.suspend then Rungs(m.suspend, skip) else Rungs(m.suspend, skip) + [SuspendRung(e)]
  {
    assert Rungs(3, true) == Rungs(2, true);
  }

  lemma SuspendLonger(t: seq<Event>, e: Event, at: seq<nat>, m: Monitor) returns (at': seq<nat>)
    requires Climbed(t, at, Rungs(m.suspend, !KedaInUse(m)), ToSuspended) && !EndsSuspend(e)
    ensures Climbed(t + [e], at', Rungs(Next(m, e).suspend, !KedaInUse(Next(m, e))), ToSuspended)
  {
    SuspendStep(m, e);
    ClimbedExtend(t, e, at, Rungs(m.suspend, !KedaInUse(m)), ToSuspended);
    at' := if Next(m, e).suspend == m.suspend then at else at + [|t|];
  }

  lemma {:induction false} SuspendHeight(t: seq<Event>) returns (at: seq<nat>)
    ensures Climbed(t, at, Rungs(Mon(t).suspend, !KedaInUse(Mon(t))), ToSuspended)
  {
    at := [];
    if t != [] {
      var t', e := t[..|t| - 1], t[|t| - 1];
      if EndsSuspend(e) {
        SuspendStep(Mon(t'), e);
      } else {
        at := SuspendHeight(t');
        at := SuspendLonger(t', e, at, Mon(t'));
        assert t == t' + [e];
      }
    }
  }

  lemma RemovalStep(m: Monitor, e: Event)
    ensures EndsRemoval(e) ==> Next(m, e).removal == 0
    ensures var n := Next(m, e).removal;
            !EndsRemoval(e) ==>
              Rungs(n, false) == if n == m.removal then Rungs(m.removal, false) else Rungs(m.removal, false) + [RemovalRung(e)]
  {
  }

  lemma RemovalLonger(t: seq<Event>, e: Event, at: seq<nat>, m: Monitor) returns (at': seq<nat>)
    requires Climbed(t, at, Rungs(m.removal, false), ToRemoved) && !EndsRemoval(e)
    ensures Climbed(t + [e], at', Rungs(Next(m, e).removal, false), ToRemoved)
  {
    RemovalStep(m, e);
    ClimbedExtend(t, e, at, Rungs(m.removal, false), ToRemoved);
    at' := if Next(m, e).removal == m.removal then at else at + [|t|];
  }

  lemma {:induction false} RemovalHeight(t: seq<Event>) returns (at: seq<nat>)
    ensures Climbed(t, at, Rungs(Mon(t).removal, false), ToRemoved)
  {
    at := [];
    if t != [] {
      var t', e := t[..|t| - 1], t[|t| - 1];
      if EndsRemoval(e) {
        RemovalStep(Mon(t'), e);
      } else {
        at := RemovalHeight(t');
        at := RemovalLonger(t', e, at, Mon(t'));
        assert t == t' + [e];
      }
    }
  }

  lemma AllRemovalRungs()
    ensures Rungs(FULL_REMOVAL, false) == [1, 2, 3, 4, 5]
  {
    assert Rungs(2, false) == Rungs(1, false) + [2] == [1, 2];
    assert Rungs(4, false) == Rungs(3, false) + [4] == [1, 2, 3, 4];
  }

  /** The five rungs before `k`, and nothing in between or after that takes them back. */
  predicate FiveRungs(t: seq<Event>, at: seq<nat>, k: nat) {
    && k <= |t| && |at| == 5 && at[0] < at[1] < at[2] < at[3] < at[4] < k
    && (forall i :: 0 <= i < 5 ==> RemovalRung(t[at[i]]) == i + 1)
    && forall i :: at[0] <= i < k ==> !EndsRemoval(t[i])
  }

  lemma RemovalRungsInOrder(t: seq<Event>, k: nat) returns (at: seq<nat>)
    requires k <= |t| && Mon(t[..k]).removal == FULL_REMOVAL
    ensures FiveRungs(t, at, k)
  {
    var t' := t[..k];
    at := RemovalHeight(t');
    AllRemovalRungs();
    forall i | 0 <= i < 5 ensures RemovalRung(t[at[i]]) == i + 1 {
      assert Rung(ToRemoved, t'[at[i]]) == [1, 2, 3, 4, 5][i] == i + 1;
    }
    forall i | at[0] <= i < k ensures !EndsRemoval(t[i]) {
      assert !Ends(ToRemoved, t'[i]);
    }
  }

  /** The two suspend ladders spelled out. */
  lemma SuspendLadder(skip: bool)
    ensures Rungs(FULL_SUSPEND, skip) == if skip then [1, 2, 4, 5, 6, 7] else [1, 2, 3, 4, 5, 6, 7]
  {
    assert Rungs(1, skip) == [1];
    assert Rungs(2, skip) == [1, 2] by { assert Rungs(2, skip) == Rungs(1, skip) + [2]; }
    assert Rungs(3, skip) == if skip then [1, 2] else [1, 2, 3];
    assert Rungs(4, skip) == if skip then [1, 2, 4] else [1, 2, 3, 4];
    assert Rungs(5, skip) == if skip then [1, 2, 4, 5] else [1, 2, 3, 4, 5];
    assert Rungs(6, skip) == if skip then [1, 2, 4, 5, 6] else [1, 2, 3, 4, 5, 6];
  }

  /* ---- drain starts ---- */

  lemma {:induction false} DrainedInPass(t: seq<Event>) returns (drain: nat)
    requires Mon(t).drained
    ensures drain < |t| && t[drain] == Called(DrainRoute, Done) && SamePass(t, drain)
  {
    var t', e := t[..|t| - 1], t[|t| - 1];
    if e == Called(DrainRoute, Done) {
      drain := |t| - 1;
    } else {
      drain := DrainedInPass(t');
    }
  }

  predicate IsStartWrite(e: Event) {
    e.MetaWritten? && e.edit.RecordDrainStart?
  }

  lemma RecordedStep(m: Monitor, e: Event, r: int)
    requires Allowed(m, e) && r in Next(m, e).fetch.recorded && r !in m.fetch.recorded
    ensures IsStartWrite(e) && e.at == r && m.drained
  {
  }

  /** Every recorded drain start goes back to a write that followed a route drain of the same pass. */
  lemma {:induction false} RecordedAfterDrain(t: seq<Event>, r: int) returns (drain: nat, write: nat)
    requires Safe(t) && r in Mon(t).fetch.recorded
    ensures drain < write < |t|
    ensures t[drain] == Called(DrainRoute, Done) && SamePass(t[..write], drain)
    ensures IsStartWrite(t[write]) && t[write].at == r
  {
    var t', e := t[..|t| - 1], t[|t| - 1];
    SafeAt(t, |t| - 1);
    if r in Mon(t').fetch.recorded {
      drain, write := RecordedAfterDrain(t', r);
      assert t[..write] == t'[..write];
    } else {
      RecordedStep(Mon(t'), e, r);
      write := |t| - 1;
      drain := DrainedInPass(t');
    }
  }

  /** A drain is only ever judged by the start on the object the pass read, stored after a successful route drain. */
  lemma JudgedByRecordedStart(t: seq<Event>, k: nat) returns (drain: nat, write: nat)
    requires Safe(t) && k < |t| && t[k].DrainJudged?
    ensures drain < write < k
    ensures t[drain] == Called(DrainRoute, Done) && SamePass(t[..write], drain)
    ensures IsStartWrite(t[write]) && t[write].at <= t[k].at
    ensures StartRead(Mon(t[..k])) == Some(FormatTime(t[write].at))
  {
    SafeAt(t, k);
    var m := Mon(t[..k]);
    var r :| r in m.fetch.recorded && StartRead(m).value == FormatTime(r);
    drain, write := RecordedAfterDrain(t[..k], r);
    assert t[..k][..write] == t[..write];
    ReadingsAscend(t[..k], write);
  }

  /* ---- query checks ---- */

  /** `q` is the last query check before `k`, made in the same pass. */
  predicate LastCheck(t: seq<Event>, q: nat, k: nat) {
    && q < k <= |t| && t[q].QueriesSeen? && SamePass(t[..k], q)
    && forall i :: q < i < k ==> !t[i].QueriesSeen?
  }

  /** What the log remembers is the last check of the pass. */
  lemma {:induction false} SeenIsLast(t: seq<Event>, q: nat)
    requires LastCheck(t, q, |t|)
    ensures Mon(t).seen == Some(t[q].seen)
  {
    if q < |t| - 1 {
      var t' := t[..|t| - 1];
      assert t'[..|t'|] == t' && t[..|t|] == t;
      SeenIsLast(t', q);
    }
  }

  lemma {:induction false} LastCheckExists(t: seq<Event>) returns (q: nat)
    requires Mon(t).seen.Some?
    ensures LastCheck(t, q, |t|) && Mon(t).seen == Some(t[q].seen)
  {
    var t', e := t[..|t| - 1], t[|t| - 1];
    assert t[..|t|] == t && t'[..|t'|] == t';
    if e.QueriesSeen? {
      q := |t| - 1;
    } else {
      q := LastCheckExists(t');
    }
  }

  /** The last check of the pass did not find live queries. */
  ghost predicate NotActive(m: Monitor) {
    m.seen.Some? && !Judge(m.seen.value).Active?
  }

  lemma NotActiveStep(m: Monitor, e: Event)
    requires Next(m, e).removal > 0 && (m.removal > 0 ==> NotActive(m))
    requires e.DrainJudged? && e.complete ==> DrainOver(m, e.at)
    ensures NotActive(Next(m, e))
  {
  }

  lemma JudgedOver(m: Monitor, e: Event)
    requires Allowed(m, e)
    ensures e.DrainJudged? && e.complete ==> DrainOver(m, e.at)
  {
  }

  /** On the removal ladder, the last check of the pass did not find live queries. */
  lemma {:induction false} LadderMeansNotActive(t: seq<Event>)
    requires Safe(t) && Mon(t).removal > 0
    ensures NotActive(Mon(t))
  {
    var t', e := t[..|t| - 1], t[|t| - 1];
    SafeAt(t, |t| - 1);
    if Mon(t').removal > 0 {
      LadderMeansNotActive(t');
    }
    JudgedOver(Mon(t'), e);
    NotActiveStep(Mon(t'), e);
  }

  /** Acts of the clean-up of a deleted runtime, the removal of its finalizer included. */
  ghost predicate CleanupAct(m: Monitor, e: Event) {
    || (e.Called? && CleanupCall(e.op))
    || (e.ReleaseTried? && InDeletion(m))
    || (e.MetaWritten? && e.edit.RemoveFinalizer?)
  }

  /**
   Queries found running always stop the deletion: in a pass whose last query check found live queries there is
   no clean-up, not even an attempt, however long the drain has lasted.
   */
  lemma ActiveQueriesBlockCleanup(t: seq<Event>, k: nat, q: nat)
    requires Safe(t) && k < |t| && LastCheck(t, q, k) && Judge(t[q].seen).Active?
    ensures !CleanupAct(Mon(t[..k]), t[k])
  {
    if CleanupAct(Mon(t[..k]), t[k]) {
      CleanupNeedsLadder(t, k);
      LadderMeansNotActive(t[..k]);
      assert t[..k][..k] == t[..k];
      SeenIsLast(t[..k], q);
      assert false;
    }
  }

  /** And no clean-up happens without a check in its pass. */
  lemma CleanupFollowsCheck(t: seq<Event>, k: nat) returns (q: nat)
    requires Safe(t) && k < |t| && CleanupAct(Mon(t[..k]), t[k])
    ensures LastCheck(t, q, k) && !Judge(t[q].seen).Active?
  {
    CleanupNeedsLadder(t, k);
    LadderMeansNotActive(t[..k]);
    q := LastCheckBefore(t, k);
  }

  lemma CleanupNeedsLadder(t: seq<Event>, k: nat)
    requires Safe(t) && k < |t| && CleanupAct(Mon(t[..k]), t[k])
    ensures Safe(t[..k]) && Mon(t[..k]).removal > 0
  {
    SafeAt(t, k);
  }

  lemma LastCheckBefore(t: seq<Event>, k: nat) returns (q: nat)
    requires k <= |t| && Mon(t[..k]).seen.Some?
    ensures LastCheck(t, q, k) && Mon(t[..k]).seen == Some(t[q].seen)
  {
    var t' := t[..k];
    q := LastCheckExists(t');
    assert t'[..k] == t';
  }

  lemma WindowLosesASecond(r: int, at: int, window: int)
    requires WindowPassed(FormatTime(r), at, window)
    ensures at - r > window - SECOND
  {
    assert Trunc(r) == r / SECOND * SECOND;
  }

  /**
   Only a failing query check may fall back on time, and then the configured drain window has passed since the
   clock reading at which the start was stored, but for the second lost by storing whole seconds.
   */
  lemma FallbackWaitsForWindow(t: seq<Event>, k: nat) returns (q: nat, drain: nat, write: nat)
    requires Safe(t) && k < |t| && t[0].Began?
    requires t[k].DrainJudged? && t[k].complete
    ensures LastCheck(t, q, k) && !Judge(t[q].seen).Active?
    ensures drain < write < k && t[drain] == Called(DrainRoute, Done) && SamePass(t[..write], drain)
    ensures IsStartWrite(t[write])
    ensures Judge(t[q].seen).Unknown? ==> t[k].at - t[write].at > t[0].window - SECOND
  {
    SafeAt(t, k);
    Configured(t[..k]);
    q := LastCheckBefore(t, k);
    drain, write := JudgedByRecordedStart(t, k);
    if Judge(t[q].seen).Unknown? {
      WindowLosesASecond(t[write].at, t[k].at, t[0].window);
    }
  }

  /* ---- node pools ---- */

  predicate IsFetch(e: Event) {
    e.PassStarted? || e.Refreshed? || (e.Reloaded? && e.found.Some?) || e.Patched?
  }

  function FetchedBy(e: Event): XTrinode
    requires IsFetch(e)
  {
    if e.PassStarted? then e.read else if e.Refreshed? then e.fetched else if e.Reloaded? then e.found.value else e.reply
  }

  /** `h` is where the object in hand was fetched; nothing was fetched since. */
  predicate LastFetch(t: seq<Event>, h: nat) {
    h < |t| && IsFetch(t[h]) && forall i :: h < i < |t| ==> !IsFetch(t[i])
  }

  lemma HandStep(m: Monitor, e: Event)
    ensures Next(m, e).fetch.hand == if IsFetch(e) then Some(FetchedBy(e)) else m.fetch.hand
  {
  }

  lemma {:induction false} HandOrigin(t: seq<Event>) returns (h: nat)
    requires Mon(t).fetch.hand.Some?
    ensures LastFetch(t, h) && Mon(t).fetch.hand == Some(FetchedBy(t[h]))
  {
    var t', e := t[..|t| - 1], t[|t| - 1];
    HandStep(Mon(t'), e);
    if IsFetch(e) {
      h := |t| - 1;
    } else {
      h := HandOrigin(t');
    }
  }

  lemma TriedStep(m: Monitor, e: Event, part: Part)
    requires part in Next(m, e).fetch.pool.tried
    ensures !IsFetch(e)
    ensures if e.ReleaseTried? && e.part == part then Next(m, e).fetch.pool.tried[part] == e.attempt
            else part in m.fetch.pool.tried && Next(m, e).fetch.pool.tried[part] == m.fetch.pool.tried[part]
  {
  }

  /** A release the log knows was tried after that fetch. */
  lemma {:induction false} ReleaseOrigin(t: seq<Event>, part: Part, h: nat) returns (i: nat)
    requires part in Mon(t).fetch.pool.tried && LastFetch(t, h)
    ensures h < i < |t| && t[i] == ReleaseTried(part, Mon(t).fetch.pool.tried[part])
  {
    var t', e := t[..|t| - 1], t[|t| - 1];
    TriedStep(Mon(t'), e, part);
    if e.ReleaseTried? && e.part == part {
      i := |t| - 1;
    } else {
      i := ReleaseOrigin(t', part, h);
    }
  }

  /** The stored owner references of a part once the release is over; none if the resource was gone. */
  function StoredAfter(a: Attempt, owner: OwnerRefs.Owner): seq<OwnerRefs.OwnerRef>
    requires a.Tried? ==> a.k < |a.versions|
  {
    if a.Gone? then [] else OwnerRefs.Last(OwnerRefs.Release(a.versions, a.k, a.others, a.reply, owner).1)
  }

  /** The read was not a stale one from before the reference was set. */
  predicate ReadInTime(a: Attempt, owner: OwnerRefs.Owner)
    requires a.Tried? ==> a.k < |a.versions|
  {
    a.Gone? || OwnerRefs.HasMatch(a.versions[a.k], owner) || !OwnerRefs.HasMatch(OwnerRefs.Last(a.versions + a.others), owner)
  }

  /** A reported release leaves the stored list free of references to the runtime exactly when the read was in time. */
  lemma ReleasedWhenReadInTime(a: Attempt, owner: OwnerRefs.Owner)
    requires Succeeded(a, owner)
    ensures !OwnerRefs.HasMatch(StoredAfter(a, owner), owner) <==> ReadInTime(a, owner)
  {
    if a.Tried? {
      OwnerRefs.ReleasedIff(a.versions, a.k, a.others, a.reply, owner);
    }
  }

  /** The object's pool has to be released: it is kept, or it left the spec while still observed. */
  predicate KeepsPool(x: XTrinode) {
    if x.spec.pool.Some? then x.spec.pool.value.policy != Delete else x.status.observedPool.Some?
  }

  /** Between `h` and `k` this part was released from the owner; its stored list is free exactly if the read was in time. */
  predicate Released(t: seq<Event>, h: nat, i: nat, k: nat, part: Part, owner: OwnerRefs.Owner) {
    && h < i < k <= |t| && t[i].ReleaseTried? && t[i].part == part
    && Succeeded(t[i].attempt, owner)
    && (!OwnerRefs.HasMatch(StoredAfter(t[i].attempt, owner), owner) <==> ReadInTime(t[i].attempt, owner))
  }

  lemma ReleaseBefore(t: seq<Event>, h: nat, k: nat, part: Part, owner: OwnerRefs.Owner) returns (i: nat)
    requires k <= |t| && LastFetch(t[..k], h)
    requires part in Mon(t[..k]).fetch.pool.tried && Succeeded(Mon(t[..k]).fetch.pool.tried[part], owner)
    ensures Released(t, h, i, k, part, owner)
  {
    i := ReleaseOrigin(t[..k], part, h);
    assert t[..k][i] == t[i];
    ReleasedWhenReadInTime(t[i].attempt, owner);
  }

  /**
   Leaving the pool behind, where it has to be released, means: since the object was last fetched, both of its
   resources were released from this very runtime, and each stored list is free of references to it exactly when
   that release did not read a stale list.
   */
  lemma PoolIsReleased(t: seq<Event>, k: nat) returns (h: nat, i: nat, j: nat)
    requires Safe(t) && k < |t| && t[0].Began? && t[k].PoolLeft?
    ensures h < k && LastFetch(t[..k], h)
    ensures KeepsPool(FetchedBy(t[h])) ==>
              Released(t, h, i, k, MachinePart, t[0].owner) && Released(t, h, j, k, InfraPart, t[0].owner)
  {
    PoolRung(t, k);
    SafeAt(t, k);
    Configured(t[..k]);
    h := HandOrigin(t[..k]);
    i, j := 0, 0;
    if KeepsPool(FetchedBy(t[h])) {
      i := ReleaseBefore(t, h, k, MachinePart, t[0].owner);
      j := ReleaseBefore(t, h, k, InfraPart, t[0].owner);
    }
  }

  /**
   Drain before removal. Where a run takes the finalizer off, the same pass first judged the drain complete, then
   saw no listed worker pod inside its grace period, removed the route, left the node pool as its policy asks, and
   recomputed the namespace guardrails, in this order; since then it neither checked queries again nor published the
   route, scaled anything up or asked KEDA for workers; and the drain start it judged by had been stored by an
   earlier write that followed a successful route drain. `PoolIsReleased` says what the fourth means.
   */
  lemma FinalizerRemovalIsEarned(t: seq<Event>, k: nat) returns (at: seq<nat>, drain: nat, write: nat)
    requires Safe(t) && k < |t|
    requires t[k].MetaWritten? && t[k].before.finalizer
    requires ApplyEdit(t[k].edit, t[k].before, t[k].at).Some?
    requires !ApplyEdit(t[k].edit, t[k].before, t[k].at).value.finalizer
    ensures |at| == 5 && at[0] < at[1] < at[2] < at[3] < at[4] < k
    ensures forall i :: at[0] <= i < k ==> !EndsRemoval(t[i])
    ensures DrainFoundOver(t, at[0]) && PodsFoundSettled(t, at[1]) && t[at[2]] == Called(RemoveRoute, Done)
    ensures PoolFoundSettled(t, at[3]) && t[at[4]] == Called(RecomputeGuardrails, Done)
    ensures StartedBy(t, at[0], drain, write)
  {
    RemovalNeedsLadder(t, k);
    at := RemovalRungsInOrder(t, k);
    RungsMean(t, at, k);
    drain, write := StartOf(t, at[0]);
  }

  /** A judgement that the drain is over, on the check and start its pass saw. */
  ghost predicate DrainFoundOver(t: seq<Event>, i: nat) {
    i < |t| && t[i].DrainJudged? && t[i].complete && DrainOver(Mon(t[..i]), t[i].at)
  }

  /** A judgement that no worker pod of the last listing is inside its grace period at the clock reading. */
  ghost predicate PodsFoundSettled(t: seq<Event>, i: nat) {
    i < |t| && t[i].PodsSettled? && Mon(t[..i]).pods.Some? && NoneInGrace(Mon(t[..i]).pods.value, t[i].at)
  }

  ghost predicate PoolFoundSettled(t: seq<Event>, i: nat) {
    i < |t| && t[i].PoolLeft? && PoolSettled(Mon(t[..i]))
  }

  /** The start that judgement `i` used was stored at `write`, after the route drain `drain` of the same pass. */
  ghost predicate StartedBy(t: seq<Event>, i: nat, drain: nat, write: nat) {
    && drain < write < i < |t|
    && t[drain] == Called(DrainRoute, Done) && SamePass(t[..write], drain)
    && IsStartWrite(t[write]) && StartRead(Mon(t[..i])) == Some(FormatTime(t[write].at))
  }

  lemma StartOf(t: seq<Event>, i: nat) returns (drain: nat, write: nat)
    requires Safe(t) && DrainFoundOver(t, i)
    ensures StartedBy(t, i, drain, write)
  {
    drain, write := JudgedByRecordedStart(t, i);
  }

  lemma RungsMean(t: seq<Event>, at: seq<nat>, k: nat)
    requires Safe(t) && FiveRungs(t, at, k)
    ensures DrainFoundOver(t, at[0]) && PodsFoundSettled(t, at[1]) && t[at[2]] == Called(RemoveRoute, Done)
    ensures PoolFoundSettled(t, at[3]) && t[at[4]] == Called(RecomputeGuardrails, Done)
  {
    DrainRung(t, at[0]);
    PodsRung(t, at[1]);
    PoolRung(t, at[3]);
  }

  lemma DrainRung(t: seq<Event>, i: nat)
    requires Safe(t) && i < |t| && RemovalRung(t[i]) == 1
    ensures DrainFoundOver(t, i)
  {
    SafeAt(t, i);
  }

  lemma PodsRung(t: seq<Event>, i: nat)
    requires Safe(t) && i < |t| && t[i].PodsSettled?
    ensures PodsFoundSettled(t, i)
  {
    SafeAt(t, i);
  }

  lemma PoolRung(t: seq<Event>, i: nat)
    requires Safe(t) && i < |t| && RemovalRung(t[i]) == 4
    ensures PoolFoundSettled(t, i)
  {
    SafeAt(t, i);
  }

  lemma OnlyRemovalTakesItOff(m: Monitor, e: Event)
    requires Allowed(m, e) && e.MetaWritten? && e.before.finalizer
    requires ApplyEdit(e.edit, e.before, e.at).Some? && !ApplyEdit(e.edit, e.before, e.at).value.finalizer
    ensures m.removal == FULL_REMOVAL
  {
    assert e.edit.RemoveFinalizer?;
  }

  lemma RemovalNeedsLadder(t: seq<Event>, k: nat)
    requires Safe(t) && k < |t|
    requires t[k].MetaWritten? && t[k].before.finalizer
    requires ApplyEdit(t[k].edit, t[k].before, t[k].at).Some?
    requires !ApplyEdit(t[k].edit, t[k].before, t[k].at).value.finalizer
    ensures Safe(t[..k]) && Mon(t[..k]).removal == FULL_REMOVAL
  {
    SafeAt(t, k);
    OnlyRemovalTakesItOff(Mon(t[..k]), t[k]);
  }

  /* ---- suspending ---- */

  /**
   A pass that read another phase turns a stored phase into Suspended only after, in this order and within that
   pass, the route was published, the query check said safe, KEDA (if used) was off, the native HPA was gone, both
   Deployments were at zero or absent, and no listed worker pod was inside its grace period; and since the first of
   these it neither scaled anything up, asked KEDA for workers nor found queries running.
   */
  lemma SuspendedIsEarned(t: seq<Event>, k: nat) returns (at: seq<nat>)
    requires Safe(t) && k < |t| && t[k].StatusWritten?
    requires t[k].stored.phase != Suspended && ApplyStatus(t[k].update, t[k].stored).phase == Suspended
    requires Mon(t[..k]).read.Some? && Mon(t[..k]).read.value.status.phase != Suspended
    ensures Climbed(t[..k], at, Rungs(FULL_SUSPEND, !Mon(t[..k]).read.value.spec.kedaEnabled), ToSuspended)
    ensures 6 <= |at| && at[1] < k && forall i :: at[0] <= i < k ==> !EndsSuspend(t[i])
    ensures t[at[1]].QueriesSeen? && Judge(t[at[1]].seen) == AllIdle
    ensures PodsFoundSettled(t, at[|at| - 1])
  {
    SuspendedNeedsLadder(t, k);
    at := SuspendHeight(t[..k]);
    SuspendEnds(t, at, k, !KedaInUse(Mon(t[..k])));
    PodsRung(t, at[|at| - 1]);
  }

  lemma RungAt(t: seq<Event>, at: seq<nat>, rungs: seq<nat>, l: Ladder, i: nat)
    requires Climbed(t, at, rungs, l) && i < |rungs|
    ensures |at| == |rungs| && at[i] < |t| && Rung(l, t[at[i]]) == rungs[i]
  {
  }

  lemma SuspendEnds(t: seq<Event>, at: seq<nat>, k: nat, skip: bool)
    requires k <= |t| && Climbed(t[..k], at, Rungs(FULL_SUSPEND, skip), ToSuspended)
    ensures 6 <= |at| && at[1] < k && at[|at| - 1] < k && forall i :: at[0] <= i < k ==> !EndsSuspend(t[i])
    ensures t[at[1]].QueriesSeen? && Judge(t[at[1]].seen) == AllIdle && t[at[|at| - 1]].PodsSettled?
  {
    var t', rungs := t[..k], Rungs(FULL_SUSPEND, skip);
    SuspendLadder(skip);
    RungAt(t', at, rungs, ToSuspended, 1);
    RungAt(t', at, rungs, ToSuspended, |rungs| - 1);
    RungMeaning(t'[at[1]], 2);
    RungMeaning(t'[at[|at| - 1]], 7);
    forall i | at[0] <= i < k ensures !EndsSuspend(t[i]) {
      assert !Ends(ToSuspended, t'[i]);
    }
  }

  lemma RungMeaning(e: Event, rung: nat)
    requires SuspendRung(e) == rung
    ensures rung == 2 ==> e.QueriesSeen? && Judge(e.seen) == AllIdle
    ensures rung == 7 ==> e.PodsSettled?
  {
  }

  lemma SuspendedNeedsLadder(t: seq<Event>, k: nat)
    requires Safe(t) && k < |t| && t[k].StatusWritten?
    requires t[k].stored.phase != Suspended && ApplyStatus(t[k].update, t[k].stored).phase == Suspended
    requires Mon(t[..k]).read.Some? && Mon(t[..k]).read.value.status.phase != Suspended
    ensures Safe(t[..k]) && Mon(t[..k]).suspend == FULL_SUSPEND
  {
    SafeAt(t, k);
  }

  /* ---- which way a pass goes ---- */

  /** The object that the pass of event `k` read, at `p`. */
  predicate InPassOf(t: seq<Event>, p: nat, k: nat) {
    p < k < |t| && t[p].PassStarted? && SamePass(t[..k], p + 1)
  }

  lemma PassBefore(t: seq<Event>, k: nat) returns (p: nat)
    requires k < |t| && Mon(t[..k]).read.Some?
    ensures InPassOf(t, p, k) && Mon(t[..k]).read == Some(t[p].read)
  {
    p := PassOf(t[..k]);
  }

  lemma CallFits(t: seq<Event>, k: nat)
    requires Safe(t) && k < |t| && t[k].Called?
    ensures OpFits(Mon(t[..k]), t[k].op)
  {
    SafeAt(t, k);
  }

  lemma StatusFits(t: seq<Event>, k: nat)
    requires Safe(t) && k < |t| && t[k].StatusWritten?
    ensures StatusAllowed(Mon(t[..k]), t[k].update)
  {
    SafeAt(t, k);
  }

  /**
   A pass that changes the phase takes it where the object it read is to go: Suspending and Suspended are stored over
   another phase only for a suspended spec, Resuming, Reconciling and Ready only for one that is not; and no status
   is written for a deleted object.
   */
  lemma PhaseFollowsSpec(t: seq<Event>, k: nat) returns (p: nat)
    requires Safe(t) && k < |t| && t[k].StatusWritten?
    ensures InPassOf(t, p, k) && !t[p].read.deleting
    ensures t[k].update.Replace? && t[k].update.captured.phase != t[p].read.status.phase ==>
              && (t[k].update.captured.phase in {Suspending, Suspended} ==> t[p].read.spec.suspended)
              && (t[k].update.captured.phase in {Resuming, Reconciling, Ready} ==> !t[p].read.spec.suspended)
  {
    StatusFits(t, k);
    p := PassBefore(t, k);
  }

  /** So a stored phase never changes to Suspended or to Ready against the spec that the pass read. */
  lemma StoredPhaseFollowsSpec(t: seq<Event>, k: nat) returns (p: nat)
    requires Safe(t) && k < |t| && t[k].StatusWritten?
    ensures InPassOf(t, p, k) && !t[p].read.deleting
    ensures var after := ApplyStatus(t[k].update, t[k].stored).phase;
            after != t[k].stored.phase && after != t[p].read.status.phase ==>
              && (after in {Suspending, Suspended} ==> t[p].read.spec.suspended)
              && (after in {Resuming, Reconciling, Ready} ==> !t[p].read.spec.suspended)
  {
    p := PhaseFollowsSpec(t, k);
  }

  /**
   Replicas follow the object as well: a pass asks for none of either Deployment if the spec it read is suspended;
   otherwise for one coordinator and, for the workers, the floor of a native HPA or, without KEDA, the count that
   the overrides and the spec it read ask for. With KEDA and no native HPA it never scales the workers.
   */
  lemma ScaleFollowsSpec(t: seq<Event>, k: nat) returns (p: nat, h: nat)
    requires Safe(t) && k < |t| && t[k].Called? && t[k].op.ScaleDeployment?
    ensures InPassOf(t, p, k) && !t[p].read.deleting
    ensures t[p].read.spec.suspended ==> t[k].op.replicas == 0
    ensures !t[p].read.spec.suspended && t[k].op.scaled.Coordinator? ==> t[k].op.replicas == 1
    ensures !t[p].read.spec.suspended && t[k].op.scaled.Worker? ==>
              && h < k && LastFetch(t[..k], h)
              && var spec := FetchedBy(t[h]).spec;
                 && (spec.hpaFloor.Some? ==> t[k].op.replicas == spec.hpaFloor.value)
                 && (spec.hpaFloor.None? ==> !spec.kedaEnabled && t[k].op.replicas == Commands.WakeWorkersOf(t[p].read))
  {
    CallFits(t, k);
    p := PassBefore(t, k);
    h := 0;
    if !t[p].read.spec.suspended && t[k].op.scaled.Worker? {
      h := HandOrigin(t[..k]);
    }
  }

  /** Autoscalers are switched off only on the way down, and KEDA is asked for workers only on the way up. */
  lemma AutoscalersFollowSpec(t: seq<Event>, k: nat) returns (p: nat)
    requires Safe(t) && k < |t| && t[k].Called? && (t[k].op.DisableKeda? || t[k].op.DeleteHpa? || t[k].op.EnsureKeda?)
    ensures InPassOf(t, p, k) && !t[p].read.deleting && (t[p].read.spec.suspended <==> !t[k].op.EnsureKeda?)
  {
    CallFits(t, k);
    p := PassBefore(t, k);
  }

  /** Only a deleted object is drained, cleaned up after, or relieved of its finalizer. */
  lemma CleanupNeedsDeletion(t: seq<Event>, k: nat) returns (p: nat)
    requires Safe(t) && k < |t|
    requires (t[k].Called? && (CleanupCall(t[k].op) || t[k].op.DrainRoute?)) || t[k].DrainJudged?
          || (t[k].MetaWritten? && (t[k].edit.RecordDrainStart? || t[k].edit.RemoveFinalizer?))
    ensures InPassOf(t, p, k) && t[p].read.deleting
  {
    OnlyInDeletion(t, k);
    p := PassBefore(t, k);
  }

  lemma OnlyInDeletion(t: seq<Event>, k: nat)
    requires Safe(t) && k < |t|
    requires (t[k].Called? && (CleanupCall(t[k].op) || t[k].op.DrainRoute?)) || t[k].DrainJudged?
          || (t[k].MetaWritten? && (t[k].edit.RecordDrainStart? || t[k].edit.RemoveFinalizer?))
    ensures InDeletion(Mon(t[..k]))
  {
    SafeAt(t, k);
  }

  /* ---- phase Ready ---- */

  /** Event `i` lifted the ready ladder to height `h`: from right below, or past a rung that the object in hand lacks. */
  ghost predicate Lifted(t: seq<Event>, i: nat, h: nat) {
    && i < |t| && ReadyRung(t[i]) == h && SamePass(t, i)
    && var m := Mon(t[..i]);
       m.ready + 1 == h || (h == 3 && m.ready == 1 && !HandUses(m, 2)) || (h == 5 && m.ready == 3 && !HandUses(m, 4))
  }

  lemma ReadyStep(m: Monitor, e: Event)
    ensures e.PassStarted? ==> Next(m, e).ready == 0
    ensures !e.PassStarted? && Next(m, e).ready != m.ready ==>
              var h := Next(m, e).ready;
              && ReadyRung(e) == h
              && (m.ready + 1 == h || (h == 3 && m.ready == 1 && !HandUses(m, 2)) || (h == 5 && m.ready == 3 && !HandUses(m, 4)))
  {
  }

  lemma {:induction false} TopRung(t: seq<Event>) returns (i: nat)
    requires Mon(t).ready > 0
    ensures Lifted(t, i, Mon(t).ready)
  {
    var t', e := t[..|t| - 1], t[|t| - 1];
    ReadyStep(Mon(t'), e);
    if Mon(t).ready != Mon(t').ready {
      i := |t| - 1;
    } else {
      i := TopRung(t');
      assert t'[..i] == t[..i];
    }
  }

  lemma RungBefore(t: seq<Event>, k: nat) returns (i: nat)
    requires k <= |t| && Mon(t[..k]).ready > 0
    ensures i < k && ReadyRung(t[i]) == Mon(t[..k]).ready && SamePass(t[..k], i)
    ensures var m, h := Mon(t[..i]), Mon(t[..k]).ready;
            m.ready + 1 == h || (h == 3 && m.ready == 1 && !HandUses(m, 2)) || (h == 5 && m.ready == 3 && !HandUses(m, 4))
  {
    i := TopRung(t[..k]);
    assert t[..k][..i] == t[..i];
  }

  /** The second half: the route was published after a readiness check, and KEDA, if the object in hand uses it, before that. */
  lemma ReadyTop(t: seq<Event>, k: nat) returns (trino: nat, keda: nat, ready: nat, route: nat)
    requires k <= |t| && Mon(t[..k]).ready == FULL_READY
    ensures trino < ready < route < k && SamePass(t[..k], trino)
    ensures t[route] == Called(PublishRoute, Done) && t[ready] == Called(CheckReady, Done) && t[trino] == Called(ApplyTrino, Done)
    ensures HandUses(Mon(t[..ready]), 4) ==> trino < keda < ready && ReadyRung(t[keda]) == 4
    ensures Mon(t[..trino]).ready == 2 || (Mon(t[..trino]).ready == 1 && !HandUses(Mon(t[..trino]), 2))
  {
    route := RungBefore(t, k);
    ready := RungBefore(t, route);
    keda := ready;
    if Mon(t[..ready]).ready == 4 {
      keda := RungBefore(t, ready);
    }
    trino := RungBefore(t, keda);
    forall i | trino <= i < k ensures !t[..k][i].PassStarted? {
      PassesJoin(t, trino, keda, ready, route, k, i);
    }
  }

  lemma PassesJoin(t: seq<Event>, a: nat, b: nat, c: nat, d: nat, k: nat, i: nat)
    requires a < b <= c < d < k <= |t| && a <= i < k
    requires SamePass(t[..b], a) && SamePass(t[..d], c) && SamePass(t[..k], d) && (b < c ==> SamePass(t[..c], b))
    ensures !t[i].PassStarted?
  {
    if i < b {
      assert t[..b][i] == t[i];
    } else if i < c {
      assert t[..c][i] == t[i];
    } else if i < d {
      assert t[..d][i] == t[i];
    } else {
      assert t[..k][i] == t[i];
    }
  }

  /**
   A pass that read another phase, or has begun its pipeline, stores Ready only after, in this order and within that
   pass, the guardrails were applied, the node pool (if the object in hand has one) was found ready, the Trino
   resources were applied, KEDA (if it uses KEDA) was asked for its floor, the runtime was found ready, and its route
   was published.
   */
  lemma ReadyIsEarned(t: seq<Event>, k: nat) returns (guard: nat, pool: nat, trino: nat, keda: nat, ready: nat, route: nat)
    requires Safe(t) && k < |t| && t[k].StatusWritten? && t[k].update.Replace? && t[k].update.captured.phase == Ready
    requires Mon(t[..k]).read.Some? && (Mon(t[..k]).read.value.status.phase != Ready || Mon(t[..k]).ready > 0)
    ensures guard < trino < ready < route < k && SamePass(t[..k], guard)
    ensures t[guard] == Called(ApplyGuardrails, Done) && t[trino] == Called(ApplyTrino, Done)
    ensures t[ready] == Called(CheckReady, Done) && t[route] == Called(PublishRoute, Done)
    ensures HandUses(Mon(t[..trino]), 2) ==> guard < pool < trino && t[pool] == Called(CheckPool, Done)
    ensures HandUses(Mon(t[..ready]), 4) ==> trino < keda < ready && t[keda].Called? && t[keda].op.EnsureKeda? && t[keda].result.Done?
  {
    ReadyNeedsLadder(t, k);
    trino, keda, ready, route := ReadyTop(t, k);
    guard, pool := ReadyBottom(t, trino);
    forall i | guard <= i < k ensures !t[..k][i].PassStarted? {
      if i < trino {
        assert t[..trino][i] == t[i];
      }
    }
  }

  lemma ReadyNeedsLadder(t: seq<Event>, k: nat)
    requires Safe(t) && k < |t| && t[k].StatusWritten? && t[k].update.Replace? && t[k].update.captured.phase == Ready
    requires Mon(t[..k]).read.Some? && (Mon(t[..k]).read.value.status.phase != Ready || Mon(t[..k]).ready > 0)
    ensures Mon(t[..k]).ready == FULL_READY
  {
    StatusFits(t, k);
  }

  /** The first half: guardrails, and the pool, if there is one, before the Trino resources. */
  lemma ReadyBottom(t: seq<Event>, trino: nat) returns (guard: nat, pool: nat)
    requires trino <= |t|
    requires Mon(t[..trino]).ready == 2 || (Mon(t[..trino]).ready == 1 && !HandUses(Mon(t[..trino]), 2))
    ensures guard < trino && SamePass(t[..trino], guard) && t[guard] == Called(ApplyGuardrails, Done)
    ensures HandUses(Mon(t[..trino]), 2) ==> guard < pool < trino && t[pool] == Called(CheckPool, Done)
  {
    pool := trino;
    if Mon(t[..trino]).ready == 2 {
      pool := RungBefore(t, trino);
    }
    guard := RungBefore(t, pool);
    forall i | guard <= i < trino ensures !t[..trino][i].PassStarted? {
      if i < pool {
        assert t[..pool][i] == t[i];
      }
    }
  }

  /** No status write of the operator ever combines a suspended phase with a wake window, or loses activity. */
  lemma StatusWritesKeepPromises(t: seq<Event>, k: nat)
    requires Safe(t) && k < |t| && t[k].StatusWritten?
    ensures WakeOk(ApplyStatus(t[k].update, t[k].stored))
    ensures t[k].update.SetActivity? || NotLowered(t[k].stored.lastActivity, ApplyStatus(t[k].update, t[k].stored).lastActivity)
  {
    SafeAt(t, k);
    if t[k].update.Replace? {
      MergeKeepsActivity(t[k].update.captured, t[k].stored);
    }
  }

  /* ---- wake windows ---- */

  /** Brings the wake window of another read into memory. */
  predicate FetchesWake(e: Event) {
    e.Refreshed? || (e.Reloaded? && e.found.Some?)
  }

  /** Event `j` of the pass that started at `p` put wake window `w` into the operator's memory. */
  predicate BringsWake(t: seq<Event>, p: nat, j: nat, w: Wake)
    requires p < |t| && t[p].PassStarted? && j < |t|
  {
    || (t[j].PassStarted? && t[j].read.status.wake == Some(w))
    || (t[j].Refreshed? && t[j].fetched.status.wake == Some(w))
    || (t[j].Reloaded? && t[j].found.Some? && t[j].found.value.status.wake == Some(w))
    || (t[j].WakeChosen? && Commands.WakeWindowOf(t[p].read, t[j].at) == Some(w))
  }

  lemma WakeStep(m: Monitor, e: Event)
    requires Next(m, e).fetch.wake.Some?
    ensures if e.PassStarted? then e.read.status.wake == Next(m, e).fetch.wake
            else if e.Refreshed? then e.fetched.status.wake == Next(m, e).fetch.wake
            else if e.Reloaded? && e.found.Some? then e.found.value.status.wake == Next(m, e).fetch.wake
            else if e.WakeChosen? then m.read.Some? && Commands.WakeWindowOf(m.read.value, e.at) == Next(m, e).fetch.wake
            else m.fetch.wake == Next(m, e).fetch.wake
  {
  }

  lemma {:induction false} WakeOrigin(t: seq<Event>, p: nat) returns (j: nat)
    requires Mon(t).fetch.wake.Some?
    requires p < |t| && t[p].PassStarted? && SamePass(t, p + 1) && Mon(t).read == Some(t[p].read)
    ensures p <= j < |t| && BringsWake(t, p, j, Mon(t).fetch.wake.value)
  {
    var t', e := t[..|t| - 1], t[|t| - 1];
    WakeStep(Mon(t'), e);
    j := |t| - 1;
    if !e.PassStarted? {
      ReadStays(Mon(t'), e);
      if !FetchesWake(e) && !e.WakeChosen? {
        j := WakeOrigin(t', p);
      }
    }
  }

  lemma ReadStays(m: Monitor, e: Event)
    requires !e.PassStarted?
    ensures Next(m, e).read == m.read
  {
  }

  /**
   KEDA is asked for a worker floor only if it is the floor of a wake window that this pass read, fetched or opened
   itself, and that was still open at a clock reading taken in this pass, after that.
   */
  lemma FloorNeedsOpenWindow(t: seq<Event>, k: nat) returns (p: nat, j: nat, w: Wake)
    requires Safe(t) && k < |t|
    requires t[k].Called? && t[k].op.EnsureKeda? && t[k].op.floor > 0
    ensures p <= j < k && t[p].PassStarted? && SamePass(t[..k], p + 1) && BringsWake(t, p, j, w)
    ensures t[k].op.floor == w.minWorkers && t[p].at <= t[k].op.testedAt < w.expiresAt
    ensures Reading(t[j]).Some? ==> Reading(t[j]).value <= t[k].op.testedAt
  {
    FloorFits(t, k);
    var t' := t[..k];
    p := PassOf(t');
    j := WakeOrigin(t', p);
    w := Mon(t').fetch.wake.value;
    ReadingsAscend(t', p);
    if Reading(t[j]).Some? {
      ReadingsAscend(t', j);
    }
  }

  lemma FloorFits(t: seq<Event>, k: nat)
    requires Safe(t) && k < |t| && t[k].Called? && t[k].op.EnsureKeda? && t[k].op.floor > 0
    ensures var m := Mon(t[..k]);
            && Safe(t[..k]) && m.read.Some? && WakeActive(m.fetch.wake, t[k].op.testedAt)
            && t[k].op.floor == m.fetch.wake.value.minWorkers && m.fetch.now <= t[k].op.testedAt
  {
    SafeAt(t, k);
  }

  /* ---- automatic suspension ---- */

  /** `r` is where the answer the idle decision rests on came in; no later answer came before `k`. */
  predicate LastAnswer(t: seq<Event>, r: nat, k: nat) {
    r < k <= |t| && t[r].ReplySeen? && SamePass(t[..k], r) && forall i :: r < i < k ==> !t[i].ReplySeen?
  }

  lemma AnswerStep(m: Monitor, e: Event)
    requires Next(m, e).idle.answer.Some? && !e.ReplySeen?
    ensures !e.PassStarted? && m.idle.answer == Next(m, e).idle.answer && m.idle.answeredAt == Next(m, e).idle.answeredAt
  {
  }

  lemma {:induction false} AnswerOrigin(t: seq<Event>) returns (r: nat)
    requires Mon(t).idle.answer.Some?
    ensures LastAnswer(t, r, |t|)
    ensures Mon(t).idle.answer == Some(t[r].answer) && Mon(t).idle.answeredAt == t[r].at
  {
    var t', e := t[..|t| - 1], t[|t| - 1];
    assert t[..|t|] == t && t'[..|t'|] == t';
    if e.ReplySeen? {
      r := |t| - 1;
    } else {
      AnswerStep(Mon(t'), e);
      r := AnswerOrigin(t');
    }
  }

  lemma JudgedStep(m: Monitor, e: Event)
    requires Next(m, e).idle.judged && !e.IdleJudged?
    ensures m.idle.judged && !e.PassStarted? && !e.ReplySeen?
  {
  }

  lemma {:induction false} JudgedInPass(t: seq<Event>) returns (j: nat)
    requires Mon(t).idle.judged
    ensures j < |t| && t[j].IdleJudged? && SamePass(t, j) && forall i :: j <= i < |t| ==> !t[i].ReplySeen?
  {
    var t', e := t[..|t| - 1], t[|t| - 1];
    if e.IdleJudged? {
      j := |t| - 1;
    } else {
      JudgedStep(Mon(t'), e);
      j := JudgedInPass(t');
    }
  }

  lemma TestedStep(m: Monitor, e: Event)
    requires Next(m, e).fetch.wakeTested && !e.WakeTested?
    ensures m.fetch.wakeTested && !e.PassStarted? && !FetchesWake(e) && !e.ReplySeen?
  {
  }

  /** Test `w` of the wake window is of the same pass, and neither a window was fetched since nor an answer came. */
  predicate LastTest(t: seq<Event>, w: nat) {
    && w < |t| && t[w].WakeTested? && SamePass(t, w)
    && forall i :: w < i < |t| ==> !FetchesWake(t[i]) && !t[i].ReplySeen?
  }

  lemma {:induction false} TestOrigin(t: seq<Event>) returns (w: nat)
    requires Mon(t).fetch.wakeTested
    ensures LastTest(t, w)
  {
    var t', e := t[..|t| - 1], t[|t| - 1];
    if e.WakeTested? {
      w := |t| - 1;
    } else {
      TestedStep(Mon(t'), e);
      w := TestOrigin(t');
    }
  }

  /** The activity time in memory is that of the object the pass read, or the clock reading of a resume in the pass. */
  lemma {:induction false} ActivityOrigin(t: seq<Event>, p: nat)
    requires p < |t| && t[p].PassStarted? && SamePass(t, p + 1)
    ensures Mon(t).activity == t[p].read.status.lastActivity
         || exists i :: p < i < |t| && t[i].ResumeMarked? && Mon(t).activity == Some(t[i].at)
  {
    if p < |t| - 1 {
      var t' := t[..|t| - 1];
      ActivityOrigin(t', p);
      if Mon(t).activity != t[p].read.status.lastActivity {
        if t[|t| - 1].ResumeMarked? {
          assert Mon(t).activity == Some(t[|t| - 1].at);
        } else {
          var i :| p < i < |t'| && t'[i].ResumeMarked? && Mon(t').activity == Some(t'[i].at);
          assert t[i] == t'[i];
        }
      }
    }
  }

  /**
   An automatic suspend request follows, in its pass, an idle decision `j`. It rests on the last answer `r` of that
   pass about Trino's queries: since the latest of the activity time in memory, the newest time over all queries and
   all their fields, and, if queries were running, the answer itself (each cut down to the time of the answer), at
   least the threshold of the object last fetched has passed; that object asks for it and is not suspended; and its
   wake window was found closed at `w`, after it was fetched. In between the object was read again; unless that
   failed, it is the one last fetched, and the threshold has also passed since its own activity or creation.
   */
  lemma AutoSuspendIsEarned(t: seq<Event>, k: nat) returns (r: nat, w: nat, j: nat)
    requires Safe(t) && k < |t| && t[k].MetaWritten? && t[k].edit.RequestAutoSuspend?
    ensures r < w < j < k && LastAnswer(t, r, j) && SamePass(t[..k], r)
    ensures t[w].WakeTested? && !WakeActive(Mon(t[..w]).fetch.wake, t[w].at) && forall i :: w < i < j ==> !FetchesWake(t[i])
    ensures t[j].IdleJudged? && ShowsLatest(t[r].answer, t[j].latest)
    ensures var m := Mon(t[..j]);
            && m.read.Some? && m.fetch.hand.Some?
            && m.fetch.hand.value.spec.autoSuspendAfter.Some? && !m.fetch.hand.value.spec.suspended
            && t[j].at - SignOfLife(KnownActivity(m), t[j].latest, ShowsActive(t[r].answer), t[r].at)
               >= m.fetch.hand.value.spec.autoSuspendAfter.value
    ensures exists l :: r < l < j && t[l].Reloaded? && RereadIdle(t, l, j)
  {
    j := RequestIsJudged(t, k);
    r, w := JudgementRestsOn(t, j);
    var l := RereadBefore(t, r, j);
    forall i | r <= i < k ensures !t[..k][i].PassStarted? {
      if i < j { assert t[..j][i] == t[i]; }
    }
  }

  /** If the read `l` showed an object, judgement `j` is about that one and counts its activity. */
  ghost predicate RereadIdle(t: seq<Event>, l: nat, j: nat)
    requires l < j < |t| && t[l].Reloaded? && t[j].IdleJudged?
  {
    t[l].found.Some? ==>
      var y := t[l].found.value;
      && Mon(t[..j]).fetch.hand == Some(y) && y.spec.autoSuspendAfter.Some?
      && t[j].at - ActivityOrCreation(y) >= y.spec.autoSuspendAfter.value
  }

  /** The reload the log knows was made since the last answer. */
  lemma {:induction false} ReloadOrigin(t: seq<Event>, r: nat) returns (l: nat)
    requires LastAnswer(t, r, |t|) && !Mon(t).idle.reload.NotReloaded?
    ensures r < l < |t| && t[l].Reloaded?
    ensures Mon(t).idle.reload == if t[l].found.Some? then ReloadedAs(t[l].found.value) else ReloadFailed
  {
    var t', e := t[..|t| - 1], t[|t| - 1];
    assert t[..|t|] == t && t'[..|t'|] == t';
    assert Mon(t).idle == NextIdle(Mon(t').idle, e) by { assert !e.PassStarted?; }
    if e.Reloaded? {
      l := |t| - 1;
    } else {
      l := ReloadOrigin(t', r);
    }
  }

  lemma RereadBefore(t: seq<Event>, r: nat, j: nat) returns (l: nat)
    requires Safe(t) && j < |t| && t[j].IdleJudged? && LastAnswer(t, r, j)
    ensures r < l < j && t[l].Reloaded? && RereadIdle(t, l, j)
  {
    SafeAt(t, j);
    assert t[..j][..j] == t[..j];
    l := ReloadOrigin(t[..j], r);
  }

  lemma RequestIsJudged(t: seq<Event>, k: nat) returns (j: nat)
    requires Safe(t) && k < |t| && t[k].MetaWritten? && t[k].edit.RequestAutoSuspend?
    ensures j < k && t[j].IdleJudged? && SamePass(t[..k], j)
  {
    SafeAt(t, k);
    j := JudgedInPass(t[..k]);
  }

  lemma JudgementRestsOn(t: seq<Event>, j: nat) returns (r: nat, w: nat)
    requires Safe(t) && j < |t| && t[j].IdleJudged?
    ensures IdleAt(Mon(t[..j]), t[j].latest, t[j].at)
    ensures LastAnswer(t, r, j) && Mon(t[..j]).idle.answer == Some(t[r].answer) && Mon(t[..j]).idle.answeredAt == t[r].at
    ensures r < w < j && t[w].WakeTested? && !WakeActive(Mon(t[..w]).fetch.wake, t[w].at) && forall i :: w < i < j ==> !FetchesWake(t[i])
  {
    SafeAt(t, j);
    r := AnswerBefore(t, j);
    w := WakeTestBefore(t, j);
    assert r != w;
  }

  lemma AnswerBefore(t: seq<Event>, j: nat) returns (r: nat)
    requires j <= |t| && Mon(t[..j]).idle.answer.Some?
    ensures LastAnswer(t, r, j) && Mon(t[..j]).idle.answer == Some(t[r].answer) && Mon(t[..j]).idle.answeredAt == t[r].at
  {
    var t' := t[..j];
    assert t'[..j] == t';
    r := AnswerOrigin(t');
  }

  lemma TestedClosed(t: seq<Event>, w: nat)
    requires Safe(t) && w < |t| && t[w].WakeTested?
    ensures !WakeActive(Mon(t[..w]).fetch.wake, t[w].at)
  {
    SafeAt(t, w);
  }

  lemma WakeTestBefore(t: seq<Event>, j: nat) returns (w: nat)
    requires j <= |t| && Safe(t) && Mon(t[..j]).fetch.wakeTested
    ensures w < j && t[w].WakeTested? && !WakeActive(Mon(t[..w]).fetch.wake, t[w].at)
    ensures forall i :: w < i < j ==> !FetchesWake(t[i]) && !t[i].ReplySeen?
  {
    w := TestOrigin(t[..j]);
    TestedClosed(t, w);
    forall i | w < i < j ensures !FetchesWake(t[i]) && !t[i].ReplySeen? {
      assert t[..j][i] == t[i];
    }
  }
}
