/**
 Command intake: request annotations become one change of the spec.

 `DetectAnnotationCommands` and `ResolveCommandPrecedence` follow the source's control flow.
 What they must compute is stated apart from it: the winner is the request that outranks all others.
 */
module Commands {
  import opened Options
  import opened Model

  datatype Kind = Resume | Suspend | AutoSuspend

  datatype Command = Command(kind: Kind, timestamp: int, workers: Text, ttl: Text)

  /** Go's zero time (first second of year 1), used for a missing or unreadable timestamp. */
  const ZERO_TIME: int := -62_135_596_800 * SECOND

  function RequestKey(k: Kind): Key {
    match k
    case Resume => ResumeRequested
    case Suspend => SuspendRequested
    case AutoSuspend => AutoSuspendRequested
  }

  function AtKey(k: Kind): Key {
    match k
    case Resume => ResumeRequestedAt
    case Suspend => SuspendRequestedAt
    case AutoSuspend => AutoSuspendRequestedAt
  }

  function ParseTimestamp(text: Text): int {
    match ParseTime(text)
    case Some(t) => t
    case None => ZERO_TIME
  }

  predicate Requested(annotations: map<Key, Text>, k: Kind) {
    Lookup(annotations, RequestKey(k)) == Plain("true")
  }

  function CommandOf(annotations: map<Key, Text>, k: Kind): Command {
    var stamp := ParseTimestamp(Lookup(annotations, AtKey(k)));
    if k == Resume then
      Command(k, stamp, Lookup(annotations, WakeMinWorkers), Lookup(annotations, WakeTTL))
    else
      Command(k, stamp, Plain(""), Plain(""))
  }

  function Detected(annotations: map<Key, Text>, k: Kind): Option<Command> {
    if Requested(annotations, k) then Some(CommandOf(annotations, k)) else None
  }

  function Listed(c: Option<Command>): seq<Command> {
    if c.Some? then [c.value] else []
  }

  function AllDetected(annotations: map<Key, Text>): seq<Command> {
    Listed(Detected(annotations, Resume)) + Listed(Detected(annotations, Suspend)) + Listed(Detected(annotations, AutoSuspend))
  }

  /* ---- precedence ---- */

  /** Manual beats automatic; of two manual requests the newer one wins, a tie goes to suspend. */
  predicate Outranks(c: Command, d: Command) {
    if d.kind == AutoSuspend then c.kind != AutoSuspend
    else
      && c.kind != AutoSuspend
      && (c.timestamp > d.timestamp || (c.timestamp == d.timestamp && c.kind == Suspend && d.kind == Resume))
  }

  predicate IsWinner(w: Command, cs: seq<Command>) {
    w in cs && forall d :: d in cs && d != w ==> Outranks(w, d)
  }

  function Pick(r: Option<Command>, s: Option<Command>, a: Option<Command>): Option<Command> {
    if r.Some? && s.Some? then (if r.value.timestamp > s.value.timestamp then r else s)
    else if r.Some? then r
    else if s.Some? then s
    else a
  }

  function Winner(annotations: map<Key, Text>): Option<Command> {
    Pick(Detected(annotations, Resume), Detected(annotations, Suspend), Detected(annotations, AutoSuspend))
  }

  /** The winner exists whenever something was requested, and nothing else fits its description. */
  lemma WinnerOutranksAll(annotations: map<Key, Text>, other: Command)
    ensures Winner(annotations).None? <==> AllDetected(annotations) == []
    ensures Winner(annotations).Some? ==>
              (IsWinner(other, AllDetected(annotations)) <==> other == Winner(annotations).value)
  {
    var cs := AllDetected(annotations);
    forall d | d in cs
      ensures d == CommandOf(annotations, d.kind) && Requested(annotations, d.kind)
    {}
    if Winner(annotations).Some? {
      var w := Winner(annotations).value;
      assert w in cs;
    }
  }

  method DetectAnnotationCommands(annotations: map<Key, Text>)
    returns (commands: seq<Command>, resume: Option<Command>, suspend: Option<Command>, auto: Option<Command>)
    ensures commands == AllDetected(annotations)
    ensures resume == Detected(annotations, Resume)
    ensures suspend == Detected(annotations, Suspend)
    ensures auto == Detected(annotations, AutoSuspend)
  {
    commands, resume, suspend, auto := [], None, None, None;
    if ResumeRequested in annotations && annotations[ResumeRequested] == Plain("true") {
      var cmd := Command(Resume, ParseTimestamp(Lookup(annotations, ResumeRequestedAt)),
                         Lookup(annotations, WakeMinWorkers), Lookup(annotations, WakeTTL));
      resume := Some(cmd);
      commands := commands + [cmd];
    }
    if SuspendRequested in annotations && annotations[SuspendRequested] == Plain("true") {
      var cmd := Command(Suspend, ParseTimestamp(Lookup(annotations, SuspendRequestedAt)), Plain(""), Plain(""));
      suspend := Some(cmd);
      commands := commands + [cmd];
    }
    if AutoSuspendRequested in annotations && annotations[AutoSuspendRequested] == Plain("true") {
      var cmd := Command(AutoSuspend, ParseTimestamp(Lookup(annotations, AutoSuspendRequestedAt)), Plain(""), Plain(""));
      auto := Some(cmd);
      commands := commands + [cmd];
    }
  }

  function Keep(cs: seq<Command>, kinds: set<Kind>): seq<Command> {
    if cs == [] then []
    else Keep(cs[..|cs| - 1], kinds) + (if cs[|cs| - 1].kind in kinds then [cs[|cs| - 1]] else [])
  }

  lemma KeepAppend(cs: seq<Command>, c: Command, kinds: set<Kind>)
    ensures Keep(cs + [c], kinds) == Keep(cs, kinds) + (if c.kind in kinds then [c] else [])
  {
    assert (cs + [c])[..|cs|] == cs;
  }

  lemma KeepListed(r: Option<Command>, s: Option<Command>, a: Option<Command>, kinds: set<Kind>)
    requires r.Some? ==> r.value.kind == Resume
    requires s.Some? ==> s.value.kind == Suspend
    requires a.Some? ==> a.value.kind == AutoSuspend
    ensures Keep(Listed(r) + Listed(s) + Listed(a), kinds)
         == (if Resume in kinds then Listed(r) else [])
          + (if Suspend in kinds then Listed(s) else [])
          + (if AutoSuspend in kinds then Listed(a) else [])
  {
    var none: seq<Command> := [];
    assert Keep(none, kinds) == [];
    if r.Some? { KeepAppend(none, r.value, kinds); assert none + [r.value] == Listed(r); }
    if s.Some? { KeepAppend(Listed(r), s.value, kinds); }
    if a.Some? { KeepAppend(Listed(r) + Listed(s), a.value, kinds); }
  }

  method Refilter(commands: seq<Command>, kinds: set<Kind>) returns (filtered: seq<Command>)
    ensures filtered == Keep(commands, kinds)
  {
    filtered := [];
    for i := 0 to |commands|
      invariant filtered == Keep(commands[..i], kinds)
    {
      KeepAppend(commands[..i], commands[i], kinds);
      assert commands[..i] + [commands[i]] == commands[..i + 1];
      if commands[i].kind in kinds {
        filtered := filtered + [commands[i]];
      }
    }
    assert commands[..|commands|] == commands;
  }

  function OfKind(c: Option<Command>, k: Kind): Option<Command> {
    if c.Some? && c.value.kind == k then c else None
  }

  predicate Kinded(r: Option<Command>, s: Option<Command>, a: Option<Command>) {
    && (r.Some? ==> r.value.kind == Resume)
    && (s.Some? ==> s.value.kind == Suspend)
    && (a.Some? ==> a.value.kind == AutoSuspend)
  }

  /** A manual request drops the automatic one. */
  method DropAutomatic(commands: seq<Command>, resume: Option<Command>, suspend: Option<Command>, auto: Option<Command>)
    returns (left: seq<Command>, auto': Option<Command>)
    requires Kinded(resume, suspend, auto) && commands == Listed(resume) + Listed(suspend) + Listed(auto)
    ensures auto' == if resume.Some? || suspend.Some? then None else auto
    ensures left == Listed(resume) + Listed(suspend) + Listed(auto')
  {
    left, auto' := commands, auto;
    if auto.Some? && (resume.Some? || suspend.Some?) {
      auto' := None;
      KeepListed(resume, suspend, auto, {Resume, Suspend});
      left := Refilter(left, {Resume, Suspend});
    }
  }

  /** At most one pointer survives, and it is the winner; the returned list holds just that command. */
  method ResolveCommandPrecedence(commands: seq<Command>, resume: Option<Command>, suspend: Option<Command>, auto: Option<Command>)
    returns (left: seq<Command>, resume': Option<Command>, suspend': Option<Command>, auto': Option<Command>)
    requires Kinded(resume, suspend, auto) && commands == Listed(resume) + Listed(suspend) + Listed(auto)
    ensures left == Listed(Pick(resume, suspend, auto))
    ensures resume' == OfKind(Pick(resume, suspend, auto), Resume)
    ensures suspend' == OfKind(Pick(resume, suspend, auto), Suspend)
    ensures auto' == OfKind(Pick(resume, suspend, auto), AutoSuspend)
  {
    left, resume', suspend', auto' := commands, resume, suspend, auto;
    if |commands| <= 1 {
      return;
    }
    left, auto' := DropAutomatic(left, resume, suspend, auto);
    if resume'.Some? && suspend'.Some? {
      if resume'.value.timestamp > suspend'.value.timestamp {
        KeepListed(resume, suspend, auto', {Resume});
        suspend' := None;
        left := Refilter(left, {Resume});
      } else {
        KeepListed(resume, suspend, auto', {Suspend});
        resume' := None;
        left := Refilter(left, {Suspend});
      }
    }
  }

  /* ---- validation and the spec change ---- */

  /** An empty override is allowed; any other must parse to a non-negative value. */
  predicate ValidResume(c: Command) {
    && (c.workers != Plain("") ==> ParseInt32(c.workers).Some? && ParseInt32(c.workers).value >= 0)
    && (c.ttl != Plain("") ==> ParseDuration(c.ttl).Some? && ParseDuration(c.ttl).value >= 0)
  }

  /* ---- wake parameters ---- */

  const DEFAULT_WAKE_TTL: int := 5 * 60 * SECOND

  /** A readable non-negative override wins, then the spec, then the default. */
  function Preferred(override: Option<int>, spec: Option<int>, default: int): int {
    if override.Some? && override.value >= 0 then override.value
    else if spec.Some? then spec.value
    else default
  }

  function WakeWorkersOf(x: XTrinode): int {
    Preferred(ParseInt32(Lookup(x.annotations, WakeMinWorkers)), x.spec.wakeMinWorkers, 0)
  }

  function WakeTtlOf(x: XTrinode): int {
    Preferred(ParseDuration(Lookup(x.annotations, WakeTTL)), x.spec.wakeTTL, DEFAULT_WAKE_TTL)
  }

  /** The wake window a resume that reads `x` opens at clock reading `at`; without workers it opens none. */
  function WakeWindowOf(x: XTrinode, at: int): Option<Wake> {
    if WakeWorkersOf(x) > 0 then Some(Wake(WakeWorkersOf(x), at + WakeTtlOf(x))) else None
  }

  datatype Plan = Plan(detected: set<Kind>, winner: Kind)

  datatype Intake = Nothing | Rejected | Apply(plan: Plan)

  function IntakeOf(annotations: map<Key, Text>): Intake {
    match Winner(annotations)
    case None => Nothing
    case Some(w) =>
      if w.kind == Resume && !ValidResume(w) then Rejected
      else Apply(Plan((set k | k in {Resume, Suspend, AutoSuspend} && Requested(annotations, k)), w.kind))
  }

  /** Detection, precedence and validation together: what a pass that read these annotations is to do. */
  method DecideIntake(annotations: map<Key, Text>) returns (intake: Intake, winner: Option<Command>)
    ensures intake == IntakeOf(annotations) && winner == Winner(annotations)
  {
    var commands, resume, suspend, auto := DetectAnnotationCommands(annotations);
    var kinds := (if resume.Some? then {Resume} else {}) + (if suspend.Some? then {Suspend} else {})
               + (if auto.Some? then {AutoSuspend} else {});
    commands, resume, suspend, auto := ResolveCommandPrecedence(commands, resume, suspend, auto);
    WinnerOutranksAll(annotations, CommandOf(annotations, Resume));
    if kinds == {} {
      return Nothing, None;
    }
    winner := Some(commands[0]);
    if resume.Some? && !ValidResume(resume.value) {
      return Rejected, winner;
    }
    assert kinds == set k | k in {Resume, Suspend, AutoSuspend} && Requested(annotations, k);
    intake := Apply(Plan(kinds, commands[0].kind));
  }

  /** Nothing is done exactly without a request, and the plan of an intake is that of the winner. */
  lemma IntakeMeaning(annotations: map<Key, Text>)
    ensures IntakeOf(annotations).Nothing? <==> AllDetected(annotations) == []
    ensures IntakeOf(annotations).Apply? ==>
              && Winner(annotations).Some? && IsWinner(Winner(annotations).value, AllDetected(annotations))
              && IntakeOf(annotations).plan.winner == Winner(annotations).value.kind
  {
    if Winner(annotations).Some? {
      WinnerOutranksAll(annotations, Winner(annotations).value);
    } else {
      WinnerOutranksAll(annotations, CommandOf(annotations, Resume));
    }
  }

  /** The annotation reads "true". */
  predicate Asks(annotations: map<Key, Text>, key: Key) {
    key in annotations && annotations[key] == Plain("true")
  }

  /** The first second of year 1, which stands for a time that is missing or cannot be read. */
  const YEAR_ONE: int := -62_135_596_800

  function SecondsAt(annotations: map<Key, Text>, key: Key): int {
    if key in annotations && annotations[key].Stamp? then annotations[key].seconds else YEAR_ONE
  }

  /** An override is missing, empty, or a readable non-negative value of its kind. */
  predicate OverridesReadable(annotations: map<Key, Text>) {
    && (WakeMinWorkers in annotations ==>
          var text := annotations[WakeMinWorkers];
          text == Plain("") || (text.Decimal? && 0 <= text.n < 0x8000_0000))
    && (WakeTTL in annotations ==>
          var text := annotations[WakeTTL];
          text == Plain("") || (text.Span? && 0 <= text.ns) || text == Decimal(0))
  }

  /** Resume is asked for and no suspend request is as new. */
  predicate ResumeLeads(annotations: map<Key, Text>) {
    && Asks(annotations, ResumeRequested)
    && (Asks(annotations, SuspendRequested) ==>
          SecondsAt(annotations, ResumeRequestedAt) > SecondsAt(annotations, SuspendRequestedAt))
  }

  /**
   The intake, read off the annotations themselves. Nothing happens exactly if none of the three requests reads
   "true". A resume leads exactly if it is newer, by its own time, than any manual suspend, and is then taken or, for
   an unreadable override, rejected; a manual suspend wins exactly if it is asked for and no resume leads; the
   automatic one exactly if it is alone.
   */
  lemma IntakeByAnnotations(annotations: map<Key, Text>)
    ensures var intake := IntakeOf(annotations);
            && (intake.Nothing? <==>
                  !Asks(annotations, ResumeRequested) && !Asks(annotations, SuspendRequested) && !Asks(annotations, AutoSuspendRequested))
            && (intake.Rejected? <==> ResumeLeads(annotations) && !OverridesReadable(annotations))
            && (intake.Apply? && intake.plan.winner == Resume <==> ResumeLeads(annotations) && OverridesReadable(annotations))
            && (intake.Apply? && intake.plan.winner == Suspend <==> Asks(annotations, SuspendRequested) && !ResumeLeads(annotations))
            && (intake.Apply? && intake.plan.winner == AutoSuspend <==>
                  Asks(annotations, AutoSuspendRequested) && !Asks(annotations, ResumeRequested) && !Asks(annotations, SuspendRequested))
  {
    StampsCompare(annotations, ResumeRequestedAt, SuspendRequestedAt);
  }

  lemma StampsCompare(annotations: map<Key, Text>, a: Key, b: Key)
    ensures ParseTimestamp(Lookup(annotations, a)) > ParseTimestamp(Lookup(annotations, b))
       <==> SecondsAt(annotations, a) > SecondsAt(annotations, b)
  {
    assert ParseTimestamp(Lookup(annotations, a)) == SecondsAt(annotations, a) * SECOND;
    assert ParseTimestamp(Lookup(annotations, b)) == SecondsAt(annotations, b) * SECOND;
  }

  /** Of two manual requests whose times cannot be read suspend wins; an unreadable time loses to any after year 1. */
  lemma UnreadableTimes(annotations: map<Key, Text>)
    requires Asks(annotations, ResumeRequested) && Asks(annotations, SuspendRequested)
    ensures var r, s := Lookup(annotations, ResumeRequestedAt), Lookup(annotations, SuspendRequestedAt);
            var intake := IntakeOf(annotations);
            && (!r.Stamp? && !s.Stamp? ==> intake.Apply? && intake.plan.winner == Suspend)
            && (!r.Stamp? && s.Stamp? && s.seconds > YEAR_ONE ==> intake.Apply? && intake.plan.winner == Suspend)
            && (r.Stamp? && r.seconds > YEAR_ONE && !s.Stamp? && intake.Apply? ==> intake.plan.winner == Resume)
  {
    IntakeByAnnotations(annotations);
  }

  /** The closure built by `buildSpecMutation`. */
  function Mutate(plan: Plan, t: XTrinode): XTrinode {
    var a0 := t.annotations;
    var a1 := if Resume in plan.detected then a0 - {ResumeRequested, ResumeRequestedAt} else a0;
    var a2 := if Suspend in plan.detected then a1 - {SuspendRequested, SuspendRequestedAt} else a1;
    var a3 := if AutoSuspend in plan.detected then a2 - {AutoSuspendRequested, AutoSuspendRequestedAt} else a2;
    var a4 := if plan.winner != Resume && plan.detected != {} then a3 - {WakeMinWorkers, WakeTTL} else a3;
    t.(annotations := a4, spec := t.spec.(suspended := plan.winner != Resume))
  }

  /** The command a request or time key belongs to. */
  function OwnerOf(key: Key): Option<Kind> {
    match key
    case ResumeRequested | ResumeRequestedAt => Some(Resume)
    case SuspendRequested | SuspendRequestedAt => Some(Suspend)
    case AutoSuspendRequested | AutoSuspendRequestedAt => Some(AutoSuspend)
    case _ => None
  }

  predicate ClearedBy(plan: Plan, key: Key) {
    || (OwnerOf(key).Some? && OwnerOf(key).value in plan.detected)
    || (plan.winner != Resume && (key == WakeMinWorkers || key == WakeTTL))
  }

  /**
   What one intake does to whatever version it lands on: the request and time keys of every detected
   command go, the wake overrides go unless resume won, every other annotation keeps its text, the
   runtime ends suspended exactly when resume did not win, and nothing else changes.
   */
  lemma MutationEffect(annotations: map<Key, Text>, t: XTrinode, key: Key)
    requires IntakeOf(annotations).Apply?
    ensures var plan := IntakeOf(annotations).plan;
            var r := Mutate(plan, t);
            && (key in r.annotations <==> key in t.annotations && !ClearedBy(plan, key))
            && (key in r.annotations ==> r.annotations[key] == t.annotations[key])
            && (!r.spec.suspended <==> Winner(annotations).value.kind == Resume)
            && r == t.(annotations := r.annotations, spec := t.spec.(suspended := r.spec.suspended))
  {
    var plan := IntakeOf(annotations).plan;
    assert plan.winner in plan.detected;
    MutatedAnnotation(plan, t, key);
  }

  lemma MutatedAnnotation(plan: Plan, t: XTrinode, key: Key)
    requires plan.winner in plan.detected
    ensures var r := Mutate(plan, t);
            && (key in r.annotations <==> key in t.annotations && !ClearedBy(plan, key))
            && (key in r.annotations ==> r.annotations[key] == t.annotations[key])
  {
  }

  /** No request appeared between the read and the version the change landed on. */
  predicate NoNewRequests(read: map<Key, Text>, latest: map<Key, Text>) {
    forall k :: Requested(latest, k) ==> Requested(read, k)
  }

  /** After an intake, a read of the result finds exactly the requests that were new at the write. */
  lemma OnlyNewRequestsRemain(read: map<Key, Text>, latest: XTrinode, k: Kind)
    requires IntakeOf(read).Apply?
    ensures var r := Mutate(IntakeOf(read).plan, latest);
            Requested(r.annotations, k) <==> Requested(latest.annotations, k) && !Requested(read, k)
  {
    MutationEffect(read, latest, RequestKey(k));
    assert k in IntakeOf(read).plan.detected <==> Requested(read, k);
  }

  /** So with no new requests the next pass has nothing to take in, and the requeue loop stops. */
  lemma IntakeLoopEnds(read: map<Key, Text>, latest: XTrinode)
    requires IntakeOf(read).Apply?
    ensures NoNewRequests(read, latest.annotations)
       <==> AllDetected(Mutate(IntakeOf(read).plan, latest).annotations) == []
  {
    var after := Mutate(IntakeOf(read).plan, latest).annotations;
    forall k ensures Requested(after, k) <==> Requested(latest.annotations, k) && !Requested(read, k) {
      OnlyNewRequestsRemain(read, latest, k);
    }
    if NoNewRequests(read, latest.annotations) {
      assert Detected(after, Resume).None? && Detected(after, Suspend).None? && Detected(after, AutoSuspend).None?;
    } else {
      var k :| Requested(latest.annotations, k) && !Requested(read, k);
      assert Detected(after, k).Some?;
      assert CommandOf(after, k) in AllDetected(after);
    }
  }
}
