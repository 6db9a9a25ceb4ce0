/** The sandbox lifecycle as a transition system.

A `World` holds the journal tables, the image tables, the state of the runtime behind the
adapter, and how far the one API process has got with the operation it holds the mutex for.
An `Event` is one atomic step: a committed transaction, a runtime call with its outcome, a
crash, or something the environment does. A run is a sequence of events; see `Legal`. */
module Lifecycle {
  import opened Options
  import opened Totals

  datatype SandboxId = SandboxId(name: string)
  datatype ImageId = ImageId(name: string)
  datatype Key = Key(text: string)

  /** Amounts of the three budgeted resources. */
  datatype Limits = Limits(cpu: nat, memory: nat, disk: nat)

  const NOTHING := Limits(0, 0, 0)

  datatype Config = Config(image: string, imageId: Option<ImageId>, command: seq<string>, pids: nat, limits: Limits)

  datatype Action = Create | Start | Stop | Restart | Delete

  datatype Status = Creating | Starting | Stopping | Deleting | Running | Stopped | Error | Deleted

  datatype Outcome = Ok | Refused(code: nat, body: string) | Lost

  datatype Problem = CallFailed(outcome: Outcome) | ContainerMissing

  /** One row of `sandboxes`; `held` are its three reservation columns. */
  datatype Row = Row(
    config: Config, status: Status, intent: Option<Action>, expiresAt: Option<nat>,
    error: Option<Problem>, held: Limits)

  /** What a lifecycle request returns to its caller, and what a replay must return again. */
  datatype Document = Document(
    id: SandboxId, status: Status, config: Config, expiresAt: Option<nat>, error: Option<Problem>)

  datatype Body = Doc(document: Document) | Raw(text: string)

  datatype Answer = Answer(code: nat, body: Body)

  /** One row of `lifecycle_requests`. */
  datatype Request = Request(fingerprint: string, sandbox: SandboxId, action: Action, answer: Option<Answer>)

  datatype KeyUse = KeyUse(key: Key, fingerprint: string)

  datatype ImageStatus = Building | Ready | BuildError | ImageDeleting | ImageGone

  /** A container known to the runtime, with the limits it was created with. */
  datatype Container = Container(limits: Limits, running: bool)

  /** All the runtime holds for one sandbox: its container and its quota ownership record. */
  datatype Unit = Unit(container: Option<Container>, quota: Option<nat>)

  datatype Verb = CreateContainer | StartContainer | StopContainer | DeleteContainer

  datatype Phase = AtCreate | AtStart | AtStop | AtBoundary | AtDelete | AtSettle

  /** Where the API process stands; lost by a crash. */
  datatype Pc =
    | Idle
    | Driving(id: SandboxId, intent: Action, phase: Phase)
    | Failing(id: SandboxId, intent: Action, outcome: Outcome)
    | Compensating(id: SandboxId, code: nat, body: string)
    | Observed(id: SandboxId, actual: Option<bool>)
    | Releasing(id: SandboxId)
    | OrphanGone(id: SandboxId)

  datatype World = World(
    budget: Limits,
    rows: map<SandboxId, Row>,
    requests: map<Key, Request>,
    images: map<ImageId, ImageStatus>,
    refs: map<SandboxId, ImageId>,
    containers: map<SandboxId, Container>,
    quotas: map<SandboxId, nat>,
    now: nat,
    builds: set<ImageId>,
    removals: set<ImageId>,
    pc: Pc)

  datatype Event =
    // Committed by the API process under its mutex.
    | AcceptCreate(id: SandboxId, config: Config, ttl: Option<nat>, use: Option<KeyUse>)
    | Accept(id: SandboxId, action: Action, use: Option<KeyUse>)
    | Begin(id: SandboxId)
    | Called(id: SandboxId, verb: Verb, outcome: Outcome, after: Unit)
    | Boundary(id: SandboxId)
    | Settle(id: SandboxId)
    | RecordFailure(id: SandboxId)
    | Compensate(id: SandboxId)
    | Expire(id: SandboxId)
    | Inspected(id: SandboxId, outcome: Outcome)
    | Refresh(id: SandboxId)
    | Release(id: SandboxId)
    | Listed(outcome: Outcome)
    | OrphanDeleted(id: SandboxId, outcome: Outcome, after: Unit)
    | OrphanReleased(id: SandboxId)
    | AdapterSwept(outcome: Outcome, dropped: set<SandboxId>)
    | Crash
    // The environment.
    | TaskExited(id: SandboxId)
    | Vanished(id: SandboxId)
    | Appeared(id: SandboxId, unit: Unit)
    | Tick
    // The image manager, outside the mutex.
    | ImageSubmitted(image: ImageId)
    | ImageReady(image: ImageId)
    | ImageFailed(image: ImageId)
    | ImageDeleteBegun(image: ImageId)
    | ImageDeleted(image: ImageId)
    | BuildsInterrupted

  function UnitOf(w: World, id: SandboxId): Unit {
    Unit(Get(w.containers, id), Get(w.quotas, id))
  }

  function WithUnit(w: World, id: SandboxId, u: Unit): World {
    w.(containers := Put(w.containers, id, u.container), quotas := Put(w.quotas, id, u.quota))
  }

  // ----- Capacity -----

  datatype Resource = Cpu | Memory | Disk

  function Amount(l: Limits, r: Resource): nat {
    match r
    case Cpu => l.cpu
    case Memory => l.memory
    case Disk => l.disk
  }

  /** One reservation column of the sandboxes table. */
  function Held(rows: map<SandboxId, Row>, r: Resource): map<SandboxId, nat> {
    map id | id in rows :: Amount(rows[id].held, r)
  }

  /** Admission: what every other row holds plus the request stays within the budget. */
  ghost predicate Fits(budget: Limits, rows: map<SandboxId, Row>, id: SandboxId, want: Limits) {
    forall r :: Amount(want, r) + Total(Held(rows - {id}, r)) <= Amount(budget, r)
  }

  // ----- The runtime -----

  /** What one runtime call may do to the sandbox it names. A call that was refused or whose
      response was lost may have been carried out, in whole or in part. */
  predicate Effect(verb: Verb, limits: Limits, before: Unit, outcome: Outcome, after: Unit) {
    match verb
    case CreateContainer =>
      var made := Unit(Some(Container(limits, false)), Some(limits.disk));
      if before.container.Some? then after == before
      else if outcome.Ok? then after == made
      else
        || after == made
        || (after.container.None? && after.quota in {before.quota, None, Some(limits.disk)})
    case StartContainer =>
      var started := Started(before);
      (outcome.Ok? ==> before.container.Some?) && (after == started || (!outcome.Ok? && after == before))
    case StopContainer =>
      var halted := Halted(before);
      (outcome.Ok? ==> before.container.Some?) && (after == halted || (!outcome.Ok? && after == before))
    case DeleteContainer =>
      if outcome.Ok? then after == Unit(None, None)
      else
        || after == before
        || after == Halted(before)
        || (after.container.None? && after.quota in {before.quota, None})
  }

  function Started(u: Unit): Unit {
    if u.container.Some? then u.(container := Some(u.container.value.(running := true))) else u
  }

  function Halted(u: Unit): Unit {
    if u.container.Some? then u.(container := Some(u.container.value.(running := false))) else u
  }

  // ----- Converge -----

  function FirstPhase(intent: Action): Phase {
    match intent
    case Create => AtCreate
    case Start => AtStart
    case Restart => AtStop
    case Stop => AtStop
    case Delete => AtDelete
  }

  /** The phase that follows an acknowledged call. */
  function PhaseAfter(intent: Action, phase: Phase): Phase {
    match phase
    case AtCreate => AtStart
    case AtStop => if intent == Restart then AtBoundary else AtSettle
    case AtBoundary => AtStart
    case _ => AtSettle
  }

  predicate VerbAt(phase: Phase, verb: Verb) {
    match phase
    case AtCreate => verb == CreateContainer
    case AtStart => verb == StartContainer
    case AtStop => verb == StopContainer
    case AtDelete => verb == DeleteContainer
    case AtBoundary => false
    case AtSettle => false
  }

  /** The status a completed operation leaves. */
  function Target(intent: Action): Status {
    match intent
    case Delete => Deleted
    case Stop => Stopped
    case _ => Running
  }

  function PendingStatus(action: Action): Status {
    match action
    case Create => Creating
    case Start => Starting
    case Stop => Stopping
    case Restart => Stopping
    case Delete => Deleting
  }

  function Released(held: Limits, status: Status): Limits {
    match status
    case Stopped => Limits(0, 0, held.disk)
    case Deleted => NOTHING
    case _ => held
  }

  function SettledRow(row: Row, intent: Action): Row {
    var status := Target(intent);
    row.(status := status, intent := None, error := None, held := Released(row.held, status))
  }

  function DocumentOf(id: SandboxId, row: Row): Document {
    Document(id, row.status, row.config, row.expiresAt, row.error)
  }

  /** Every key of the sandbox that has no answer yet receives this one. */
  function Answered(requests: map<Key, Request>, id: SandboxId, answer: Answer): map<Key, Request> {
    map k | k in requests ::
      if requests[k].sandbox == id && requests[k].answer.None? then requests[k].(answer := Some(answer))
      else requests[k]
  }

  function WithKey(requests: map<Key, Request>, use: Option<KeyUse>, id: SandboxId, action: Action): map<Key, Request> {
    match use
    case None => requests
    case Some(u) => requests[u.key := Request(u.fingerprint, id, action, None)]
  }

  predicate Expired(row: Row, now: nat) {
    row.expiresAt.Some? && row.expiresAt.value <= now
  }

  /** The rows a sweep visits. */
  predicate Swept(row: Row) {
    row.status != Deleted || row.intent.Some?
  }

  function RefreshedRow(row: Row, actual: Option<bool>): Row {
    match actual
    case Some(true) => row.(status := Running, error := None)
    case Some(false) => row.(status := Stopped, error := None)
    case None => row.(status := Error, error := Some(ContainerMissing))
  }

  predicate ValidLimits(config: Config) {
    && 16 <= config.limits.disk <= 1048576
    && 1 <= config.limits.cpu <= 64
    && 16 <= config.limits.memory <= 262144
    && 1 <= config.pids <= 65536
    && config.command != [] && config.command[0] != ""
  }

  predicate KeyFree(w: World, use: Option<KeyUse>) {
    use.Some? ==> use.value.key !in w.requests
  }

  // ----- Accepting a request -----

  ghost predicate CanAcceptCreate(w: World, id: SandboxId, config: Config, ttl: Option<nat>, use: Option<KeyUse>) {
    && w.pc.Idle? && ValidLimits(config) && KeyFree(w, use)
    && (ttl.Some? ==> 0 < ttl.value)
    && id !in w.rows && id !in w.refs && UnitOf(w, id) == Unit(None, None)
    && (config.imageId.Some? ==> Get(w.images, config.imageId.value) == Some(Ready))
    && Fits(w.budget, w.rows, id, config.limits)
  }

  function CreatedRow(w: World, config: Config, ttl: Option<nat>): Row {
    var expires := if ttl.Some? then Some(w.now + ttl.value) else None;
    Row(config, Creating, Some(Create), expires, None, config.limits)
  }

  function AcceptedCreate(w: World, id: SandboxId, config: Config, ttl: Option<nat>, use: Option<KeyUse>): World {
    w.(rows := w.rows[id := CreatedRow(w, config, ttl)],
       refs := Put(w.refs, id, config.imageId),
       requests := WithKey(w.requests, use, id, Create))
  }

  ghost predicate CanAccept(w: World, id: SandboxId, action: Action, use: Option<KeyUse>) {
    && w.pc.Idle? && KeyFree(w, use) && action != Create && id in w.rows
    && (w.rows[id].intent.None? || action == Delete)
    && (w.rows[id].status == Deleted ==> action == Delete)
    && (action in {Start, Restart} ==> Fits(w.budget, w.rows, id, w.rows[id].config.limits))
  }

  function AcceptedRow(row: Row, action: Action): Row {
    row.(intent := Some(action), status := PendingStatus(action),
         held := if action in {Start, Restart} then row.config.limits else row.held)
  }

  function Accepted(w: World, id: SandboxId, action: Action, use: Option<KeyUse>): World
    requires id in w.rows
  {
    w.(rows := w.rows[id := AcceptedRow(w.rows[id], action)], requests := WithKey(w.requests, use, id, action))
  }

  // ----- Driving the runtime towards the intent -----

  predicate CanBegin(w: World, id: SandboxId) {
    w.pc.Idle? && id in w.rows && w.rows[id].intent.Some?
  }

  function Begun(w: World, id: SandboxId): World
    requires CanBegin(w, id)
  {
    var intent := w.rows[id].intent.value;
    w.(pc := Driving(id, intent, FirstPhase(intent)))
  }

  predicate CanCall(w: World, id: SandboxId, verb: Verb, outcome: Outcome, after: Unit) {
    && w.pc.Driving? && w.pc.id == id && id in w.rows && VerbAt(w.pc.phase, verb)
    && Effect(verb, w.rows[id].config.limits, UnitOf(w, id), outcome, after)
  }

  function CallMade(w: World, id: SandboxId, outcome: Outcome, after: Unit): World
    requires w.pc.Driving?
  {
    WithUnit(w, id, after).(pc :=
      if outcome.Ok? then Driving(id, w.pc.intent, PhaseAfter(w.pc.intent, w.pc.phase))
      else Failing(id, w.pc.intent, outcome))
  }

  predicate CanCross(w: World, id: SandboxId) {
    w.pc == Driving(id, Restart, AtBoundary) && id in w.rows
  }

  /** The stop-to-start boundary of a restart. */
  function Crossed(w: World, id: SandboxId): World
    requires id in w.rows
  {
    w.(rows := w.rows[id := w.rows[id].(intent := Some(Start))], pc := Driving(id, Restart, AtStart))
  }

  predicate CanSettle(w: World, id: SandboxId) {
    w.pc.Driving? && w.pc.id == id && w.pc.phase == AtSettle && id in w.rows
  }

  function Settled(w: World, id: SandboxId): World
    requires CanSettle(w, id)
  {
    var row := SettledRow(w.rows[id], w.pc.intent);
    w.(rows := w.rows[id := row],
       refs := if row.status == Deleted then w.refs - {id} else w.refs,
       requests := Answered(w.requests, id, Answer(200, Doc(DocumentOf(id, row)))),
       pc := Idle)
  }

  predicate CanRecord(w: World, id: SandboxId) {
    w.pc.Failing? && w.pc.id == id && id in w.rows
  }

  function Recorded(w: World, id: SandboxId): World
    requires CanRecord(w, id)
  {
    w.(rows := w.rows[id := w.rows[id].(error := Some(CallFailed(w.pc.outcome)))],
       pc := if w.pc.intent == Create && w.pc.outcome.Refused?
             then Compensating(id, w.pc.outcome.code, w.pc.outcome.body) else Idle)
  }

  predicate CanCompensate(w: World, id: SandboxId) {
    w.pc.Compensating? && w.pc.id == id && id in w.rows
  }

  function Condemned(row: Row): Row {
    row.(intent := Some(Delete), status := Deleting)
  }

  function Compensated(w: World, id: SandboxId): World
    requires CanCompensate(w, id)
  {
    w.(rows := w.rows[id := Condemned(w.rows[id])],
       requests := Answered(w.requests, id, Answer(w.pc.code, Raw(w.pc.body))),
       pc := Idle)
  }

  // ----- The sweep -----

  predicate CanExpire(w: World, id: SandboxId) {
    w.pc.Idle? && id in w.rows && Swept(w.rows[id]) && Expired(w.rows[id], w.now)
  }

  function ExpiredNow(w: World, id: SandboxId): World
    requires id in w.rows
  {
    w.(rows := w.rows[id := Condemned(w.rows[id])])
  }

  predicate CanInspect(w: World, id: SandboxId, outcome: Outcome) {
    && w.pc.Idle? && id in w.rows && w.rows[id].intent.None? && w.rows[id].status != Deleted
    && (outcome.Ok? ==> id in w.containers)
    && (outcome.Refused? && outcome.code == 404 ==> id !in w.containers)
  }

  function Looked(w: World, id: SandboxId, outcome: Outcome): World
    requires CanInspect(w, id, outcome)
  {
    w.(pc := if outcome.Ok? then Observed(id, Some(w.containers[id].running))
             else if outcome.Refused? && outcome.code == 404 then Observed(id, None)
             else Idle)
  }

  predicate CanRefresh(w: World, id: SandboxId) {
    w.pc.Observed? && w.pc.id == id && id in w.rows
  }

  /** The first of two commits: the status. The second, for a stopped task, releases its share. */
  function Refreshed(w: World, id: SandboxId): World
    requires CanRefresh(w, id)
  {
    w.(rows := w.rows[id := RefreshedRow(w.rows[id], w.pc.actual)],
       pc := if w.pc.actual == Some(false) then Releasing(id) else Idle)
  }

  predicate CanRelease(w: World, id: SandboxId) {
    w.pc == Releasing(id) && id in w.rows
  }

  function ReleasedRow(row: Row): Row {
    row.(held := Limits(0, 0, row.held.disk))
  }

  function ReleasedNow(w: World, id: SandboxId): World
    requires id in w.rows
  {
    w.(rows := w.rows[id := ReleasedRow(w.rows[id])], pc := Idle)
  }

  predicate CanDeleteOrphan(w: World, id: SandboxId, outcome: Outcome, after: Unit) {
    && w.pc.Idle? && (id in w.rows ==> w.rows[id].status == Deleted)
    && Effect(DeleteContainer, NOTHING, UnitOf(w, id), outcome, after)
  }

  function OrphanCalled(w: World, id: SandboxId, outcome: Outcome, after: Unit): World {
    WithUnit(w, id, after).(pc := if outcome.Ok? then OrphanGone(id) else Idle)
  }

  // ----- Steps -----

  predicate Admits(e: Event) { e.AcceptCreate? || e.Accept? }
  predicate Drives(e: Event) {
    e.Begin? || e.Called? || e.Boundary? || e.Settle? || e.RecordFailure? || e.Compensate?
  }
  predicate Sweeps(e: Event) {
    || e.Expire? || e.Inspected? || e.Refresh? || e.Release?
    || e.Listed? || e.OrphanDeleted? || e.OrphanReleased? || e.AdapterSwept?
  }
  predicate Befalls(e: Event) { e.Crash? || e.TaskExited? || e.Vanished? || e.Appeared? || e.Tick? }

  ghost predicate Enabled(w: World, e: Event) {
    if Admits(e) then CanAdmit(w, e)
    else if Drives(e) then CanDrive(w, e)
    else if Sweeps(e) then CanSweep(w, e)
    else if Befalls(e) then CanBefall(w, e)
    else CanManageImage(w, e)
  }

  ghost function Apply(w: World, e: Event): World
    requires Enabled(w, e)
  {
    if Admits(e) then Admitted(w, e)
    else if Drives(e) then Driven(w, e)
    else if Sweeps(e) then SweptOnce(w, e)
    else if Befalls(e) then Befallen(w, e)
    else ImageManaged(w, e)
  }

  ghost predicate CanAdmit(w: World, e: Event) {
    match e
    case AcceptCreate(id, config, ttl, use) => CanAcceptCreate(w, id, config, ttl, use)
    case Accept(id, action, use) => CanAccept(w, id, action, use)
    case _ => false
  }

  ghost function Admitted(w: World, e: Event): World
    requires CanAdmit(w, e)
  {
    match e
    case AcceptCreate(id, config, ttl, use) => AcceptedCreate(w, id, config, ttl, use)
    case Accept(id, action, use) => Accepted(w, id, action, use)
  }

  predicate CanDrive(w: World, e: Event) {
    match e
    case Begin(id) => CanBegin(w, id)
    case Called(id, verb, outcome, after) => CanCall(w, id, verb, outcome, after)
    case Boundary(id) => CanCross(w, id)
    case Settle(id) => CanSettle(w, id)
    case RecordFailure(id) => CanRecord(w, id)
    case Compensate(id) => CanCompensate(w, id)
    case _ => false
  }

  function Driven(w: World, e: Event): World
    requires CanDrive(w, e)
  {
    match e
    case Begin(id) => Begun(w, id)
    case Called(id, verb, outcome, after) => CallMade(w, id, outcome, after)
    case Boundary(id) => Crossed(w, id)
    case Settle(id) => Settled(w, id)
    case RecordFailure(id) => Recorded(w, id)
    case Compensate(id) => Compensated(w, id)
  }

  predicate CanSweep(w: World, e: Event) {
    match e
    case Expire(id) => CanExpire(w, id)
    case Inspected(id, outcome) => CanInspect(w, id, outcome)
    case Refresh(id) => CanRefresh(w, id)
    case Release(id) => CanRelease(w, id)
    case Listed(outcome) => w.pc.Idle?
    case OrphanDeleted(id, outcome, after) => CanDeleteOrphan(w, id, outcome, after)
    case OrphanReleased(id) => w.pc == OrphanGone(id)
    case AdapterSwept(outcome, dropped) => w.pc.Idle? && dropped !! w.containers.Keys
    case _ => false
  }

  function SweptOnce(w: World, e: Event): World
    requires CanSweep(w, e)
  {
    match e
    case Expire(id) => ExpiredNow(w, id)
    case Inspected(id, outcome) => Looked(w, id, outcome)
    case Refresh(id) => Refreshed(w, id)
    case Release(id) => ReleasedNow(w, id)
    case Listed(outcome) => w
    case OrphanDeleted(id, outcome, after) => OrphanCalled(w, id, outcome, after)
    case OrphanReleased(id) => w.(refs := w.refs - {id}, pc := Idle)
    case AdapterSwept(outcome, dropped) => w.(quotas := w.quotas - dropped)
  }

  predicate CanBefall(w: World, e: Event) {
    match e
    case Crash => true
    case TaskExited(id) => id in w.containers
    case Vanished(id) => id in w.containers
    case Appeared(id, unit) => id !in w.rows && id !in w.containers && w.pc != OrphanGone(id)
    case Tick => true
    case _ => false
  }

  function Befallen(w: World, e: Event): World
    requires CanBefall(w, e)
  {
    match e
    case Crash => w.(pc := Idle, builds := {}, removals := {})
    case TaskExited(id) => w.(containers := w.containers[id := w.containers[id].(running := false)])
    case Vanished(id) => w.(containers := w.containers - {id})
    case Appeared(id, unit) => WithUnit(w, id, unit)
    case Tick => w.(now := w.now + 1)
  }

  predicate CanManageImage(w: World, e: Event) {
    match e
    case ImageSubmitted(image) => image !in w.images
    case ImageReady(image) => image in w.builds && image in w.images
    case ImageFailed(image) => image in w.builds && image in w.images
    case ImageDeleteBegun(image) => image in w.images && w.images[image] != Building && image !in w.refs.Values
    case ImageDeleted(image) => image in w.removals && image in w.images
    case BuildsInterrupted => w.builds == {}
    case _ => false
  }

  function ImageManaged(w: World, e: Event): World
    requires CanManageImage(w, e)
  {
    match e
    case ImageSubmitted(image) => w.(images := w.images[image := Building], builds := w.builds + {image})
    case ImageReady(image) =>
      w.(images := if w.images[image] == Building then w.images[image := Ready] else w.images,
         builds := w.builds - {image})
    case ImageFailed(image) => w.(images := w.images[image := BuildError], builds := w.builds - {image})
    case ImageDeleteBegun(image) =>
      w.(images := if w.images[image] == ImageGone then w.images else w.images[image := ImageDeleting],
         removals := w.removals + {image})
    case ImageDeleted(image) => w.(images := w.images[image := ImageGone])
    case BuildsInterrupted =>
      w.(images := map i | i in w.images :: if w.images[i] == Building then BuildError else w.images[i])
  }

  // ----- Runs -----

  /** `es` can happen one after the other from `w`. */
  ghost predicate Legal(w: World, es: seq<Event>)
    decreases |es|, 0
  {
    es == [] || (Legal(w, es[..|es| - 1]) && Enabled(After(w, es[..|es| - 1]), es[|es| - 1]))
  }

  ghost function After(w: World, es: seq<Event>): World
    requires Legal(w, es)
    decreases |es|, 1
  {
    if es == [] then w else Apply(After(w, es[..|es| - 1]), es[|es| - 1])
  }

  /** A host on which nothing has happened yet. */
  function Fresh(budget: Limits): World {
    World(budget, map[], map[], map[], map[], map[], map[], 0, {}, {}, Idle)
  }

  lemma LegalExtend(w: World, es: seq<Event>, e: Event)
    requires Legal(w, es) && Enabled(After(w, es), e)
    ensures Legal(w, es + [e]) && After(w, es + [e]) == Apply(After(w, es), e)
  {
  }

  /** A run goes on from where its beginning left off. */
  lemma {:induction false} LegalSplit(w: World, es: seq<Event>, n: nat)
    requires Legal(w, es) && n <= |es|
    ensures Legal(w, es[..n]) && Legal(After(w, es[..n]), es[n..]) && After(After(w, es[..n]), es[n..]) == After(w, es)
    decreases |es|
  {
    if n == |es| {
      assert es[..n] == es && es[n..] == [];
    } else {
      var front, e := es[..|es| - 1], es[|es| - 1];
      LegalSplit(w, front, n);
      assert front[..n] == es[..n];
      Rejoin(w, es, front, e, n);
    }
  }

  lemma Rejoin(w: World, es: seq<Event>, front: seq<Event>, e: Event, n: nat)
    requires es == front + [e] && n <= |front| && Legal(w, front) && Enabled(After(w, front), e) && Legal(w, es[..n])
    requires Legal(After(w, es[..n]), front[n..]) && After(After(w, es[..n]), front[n..]) == After(w, front)
    ensures Legal(w, es) && Legal(After(w, es[..n]), es[n..]) && After(After(w, es[..n]), es[n..]) == After(w, es)
  {
    LegalExtend(w, front, e);
    LegalExtend(After(w, es[..n]), front[n..], e);
    assert es[n..] == front[n..] + [e];
  }

  /** The process can be killed after any step: every prefix of a run followed by a crash is a run. */
  lemma {:induction false} KilledAnywhere(w: World, es: seq<Event>, n: nat)
    requires Legal(w, es) && n <= |es|
    ensures Legal(w, es[..n]) && Legal(w, es[..n] + [Crash])
    ensures After(w, es[..n] + [Crash]) == After(w, es[..n]).(pc := Idle, builds := {}, removals := {})
    decreases |es|
  {
    if n == |es| {
      assert es[..n] == es;
      LegalExtend(w, es, Crash);
    } else {
      KilledAnywhere(w, es[..|es| - 1], n);
      assert es[..|es| - 1][..n] == es[..n];
    }
  }
}
