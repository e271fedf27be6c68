/**
 The stored XTrinode object, as far as the lifecycle protocol reads or writes it.

 Times are clock readings in nanoseconds. The API server keeps status times and annotation times
 in whole seconds, so every time that is stored goes through `Trunc`.
 */
module Model {

  import opened Options

  const SECOND: int := 1_000_000_000

  datatype Phase = Unset | Pending | Reconciling | Ready | Suspending | Suspended | Resuming | Error

  datatype Wake = Wake(minWorkers: int, expiresAt: int)

  /** `observedPool` is the provider of the node pool last provisioned; `other` is every further status field. */
  datatype Status = Status(
    phase: Phase,
    wake: Option<Wake>,
    lastActivity: Option<int>,
    observedPool: Option<string>,
    other: map<string, string>)

  datatype DeletionPolicy = Delete | Retain | ScaleToZero

  datatype Pool = Pool(policy: DeletionPolicy, scaleDownOnSuspend: Option<bool>)

  /** `kedaEnabled` is the verdict of `isKEDAEnabled`; `hpaFloor` the worker floor of a native HPA. */
  datatype Spec = Spec(
    suspended: bool,
    kedaEnabled: bool,
    hpaFloor: Option<int>,
    pool: Option<Pool>,
    wakeMinWorkers: Option<int>,
    wakeTTL: Option<int>,
    autoSuspendAfter: Option<int>)

  datatype Key =
    | ResumeRequested | ResumeRequestedAt
    | SuspendRequested | SuspendRequestedAt
    | AutoSuspendRequested | AutoSuspendRequestedAt
    | WakeMinWorkers | WakeTTL
    | DrainStartedAt | DrainCompletedAt | DrainResult
    | Foreign(name: string)

  /**
   An annotation text, by what the operator's parsers make of it: an RFC 3339 time, a decimal
   integer, a Go duration, or anything else.
   */
  datatype Text = Plain(s: string) | Stamp(seconds: int) | Decimal(n: int) | Span(ns: int)

  datatype XTrinode = XTrinode(
    annotations: map<Key, Text>,
    spec: Spec,
    status: Status,
    finalizer: bool,
    deleting: bool,
    created: int)

  /** Start of the second a clock reading falls into. */
  function Trunc(t: int): (r: int)
    ensures r <= t < r + SECOND
    ensures r % SECOND == 0
  {
    t / SECOND * SECOND
  }

  function FormatTime(t: int): Text {
    Stamp(t / SECOND)
  }

  function ParseTime(text: Text): Option<int> {
    if text.Stamp? then Some(text.seconds * SECOND) else None
  }

  /** `strconv.ParseInt(text, 10, 32)` */
  function ParseInt32(text: Text): Option<int> {
    if text.Decimal? && -0x8000_0000 <= text.n < 0x8000_0000 then Some(text.n) else None
  }

  /** `time.ParseDuration(text)`; a bare zero is the one integer it accepts. */
  function ParseDuration(text: Text): Option<int> {
    match text
    case Span(ns) => Some(ns)
    case Decimal(n) => if n == 0 then Some(0) else None
    case _ => None
  }

  /** Go's map lookup: a missing key reads as the empty text. */
  function Lookup(annotations: map<Key, Text>, k: Key): Text {
    if k in annotations then annotations[k] else Plain("")
  }

  predicate Later(a: Option<int>, b: Option<int>) {
    a.Some? && (b.None? || a.value > b.value)
  }

  /** Neither suspended phase is ever combined with a wake window. */
  predicate WakeOk(s: Status) {
    s.phase == Suspending || s.phase == Suspended ==> s.wake.None?
  }

  predicate WholeSeconds(s: Status) {
    && (s.lastActivity.Some? ==> s.lastActivity.value % SECOND == 0)
    && (s.wake.Some? ==> s.wake.value.expiresAt % SECOND == 0)
  }

  /** What the API server keeps of a status written to it. */
  function Persist(s: Status): (r: Status)
    ensures WholeSeconds(r)
    ensures r.phase == s.phase && r.other == s.other && r.observedPool == s.observedPool
    ensures r.wake.Some? == s.wake.Some? && r.lastActivity.Some? == s.lastActivity.Some?
    ensures WholeSeconds(s) ==> r == s
  {
    s.(wake := match s.wake case None => None case Some(w) => Some(w.(expiresAt := Trunc(w.expiresAt))),
       lastActivity := match s.lastActivity case None => None case Some(t) => Some(Trunc(t)))
  }

  /** An activity time is kept or moved forward, never lost and never moved back. */
  predicate NotLowered(before: Option<int>, after: Option<int>) {
    before.Some? ==> after.Some? && before.value <= after.value
  }
}
