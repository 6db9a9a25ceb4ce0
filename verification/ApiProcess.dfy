/** The API process: the lifecycle requests, the convergence loop and the reconciliation sweep as
they run, statement by statement, over the journal tables and an unreliable runtime.

Every committed transaction and every runtime call appends its event to `run`. `Valid` says that
this record is a legal run, so all that is proved about runs holds of these methods, also when the
process is killed between any two statements (`Lifecycle.KilledAnywhere`). */
module ApiProcess {
  import opened Options
  import opened Totals
  import opened Lifecycle
  import opened LifecycleSafety
  import opened LifecycleHistory
  import opened CrashEquivalence
  import opened QuotaJournal

  /** The runtime's containers change without being asked to. */
  predicate Moves(e: Event) {
    e.TaskExited? || e.Vanished? || e.Appeared?
  }

  /** A runtime call that was not answered as asked; a missing container is an answer to GET. */
  predicate Unanswered(e: Event) {
    || (e.Called? && !e.outcome.Ok?)
    || (e.Inspected? && !e.outcome.Ok? && !(e.outcome.Refused? && e.outcome.code == 404))
    || (e.Listed? && !e.outcome.Ok?)
    || (e.OrphanDeleted? && !e.outcome.Ok?)
    || (e.AdapterSwept? && !e.outcome.Ok?)
  }

  /** How often containers changed by themselves or a call was not answered. */
  ghost function Troubles(es: seq<Event>): nat {
    if es == [] then 0
    else Troubles(es[..|es| - 1]) + (if Moves(es[|es| - 1]) || Unanswered(es[|es| - 1]) then 1 else 0)
  }

  /** How often a call was not answered. */
  ghost function Lapses(es: seq<Event>): nat {
    if es == [] then 0 else Lapses(es[..|es| - 1]) + if Unanswered(es[|es| - 1]) then 1 else 0
  }

  lemma CountsExtend(es: seq<Event>, e: Event)
    ensures Troubles(es + [e]) == Troubles(es) + (if Moves(e) || Unanswered(e) then 1 else 0)
    ensures Lapses(es + [e]) == Lapses(es) + (if Unanswered(e) then 1 else 0)
  {
    assert (es + [e])[..|es|] == es;
  }

  datatype Order = NewSandbox(config: Config, ttl: Option<nat>) | Existing(id: SandboxId, action: Action)

  /** What can happen to the process between two operations. */
  datatype Work = Ask(order: Order, use: Option<KeyUse>, newId: SandboxId) | Sweep | Wait | Kill

  datatype Rejection =
    | BadKey | BadRequest | Unaccounted | UnknownSandbox | LifecyclePending | SandboxDeleted
    | InsufficientCapacity | ImageUnknown | ImageNotReady

  datatype Reply =
    | Returned(body: Body)
    | RuntimeFault(code: nat, body: Body)
    | Unreachable
    | KeyConflict
    | Rejected(why: Rejection)

  /** New work, which must wait for an inventory without unknown containers. */
  predicate NeedsRoom(order: Order) {
    order.NewSandbox? || order.action == Start || order.action == Restart
  }

  /** The key has its answer. */
  predicate Stored(requests: map<Key, Request>, key: Key) {
    key in requests && requests[key].answer.Some?
  }

  predicate Waiting(requests: map<Key, Request>, key: Key) {
    key in requests && requests[key].answer.None?
  }

  /** What a replay of an answered key produces. */
  function Replayed(a: Answer): Reply {
    if a.code >= 400 then RuntimeFault(a.code, a.body) else Returned(a.body)
  }

  /** What the caller sees when driving the runtime failed. */
  function Raised(o: Outcome): Reply
    requires !o.Ok?
  {
    if o.Refused? then RuntimeFault(o.code, Raw(o.body)) else Unreachable
  }

  /** The reply is the document of this sandbox, in the status that its operation is for. */
  predicate Tells(reply: Reply, id: SandboxId, config: Config, expiresAt: Option<nat>, action: Action) {
    && reply.Returned? && reply.body.Doc?
    && reply.body.document.id == id
    && reply.body.document.config == config
    && reply.body.document.expiresAt == expiresAt
    && reply.body.document.status == (match action case Delete => Deleted case Stop => Stopped case _ => Running)
    && reply.body.document.error.None?
  }

  /** A lifetime that was asked for, counted from some moment between `from` and `to`. */
  predicate Counted(ttl: Option<nat>, from: nat, to: nat, expiresAt: Option<nat>) {
    match ttl
    case None => expiresAt.None?
    case Some(t) => expiresAt.Some? && from + t <= expiresAt.value <= to + t
  }

  /** The reply to a request that was carried out between `from` and `to`, over the rows at its start. */
  predicate EndsAsAsked(
    order: Order, newId: SandboxId, rows: map<SandboxId, Row>, from: nat, to: nat, reply: Reply) {
    match order
    case NewSandbox(config, ttl) =>
      && reply.Returned? && reply.body.Doc? && Counted(ttl, from, to, reply.body.document.expiresAt)
      && Tells(reply, newId, config, reply.body.document.expiresAt, Create)
    case Existing(id, action) =>
      id in rows && Tells(reply, id, rows[id].config, rows[id].expiresAt, action)
  }

  /** The reply to a retry: the document of the sandbox, at the end of what was pending on it. */
  predicate Retold(rows: map<SandboxId, Row>, id: SandboxId, reply: Reply) {
    id in rows && rows[id].intent.Some? && Tells(reply, id, rows[id].config, rows[id].expiresAt, rows[id].intent.value)
  }

  /** The runtime has what the operation needs: all but a create and a delete work on a container. */
  predicate Able(action: Action, unit: Unit) {
    action == Create || action == Delete || unit.container.Some?
  }

  /** What is pending on the sandbox, if anything, can be finished. */
  predicate Finishable(c: Cell) {
    c.row.Some? && (c.row.value.intent.Some? ==> Able(c.row.value.intent.value, c.unit))
  }

  ghost predicate AllFinishable(w: World, ids: set<SandboxId>) {
    forall id | id in ids :: Finishable(CellOf(w, id))
  }

  /** What is stored under the key of a new request when it has replied. */
  predicate Filed(requests: map<Key, Request>, use: Option<KeyUse>, creates: bool, reply: Reply) {
    use.Some? ==>
      var key := use.value.key;
      && (key in requests ==> requests[key].fingerprint == use.value.fingerprint)
      && (reply.Returned? ==> key in requests && requests[key].answer == Some(Answer(200, reply.body)))
      && (creates && reply.RuntimeFault? && key in requests ==>
            requests[key].answer == Some(Answer(reply.code, reply.body)))
      && (!reply.Returned? ==> (Stored(requests, key) <==> key in requests && reply.RuntimeFault? && creates))
  }

  /** What each refusal of a create says; no two of them can be meant. */
  ghost predicate RefusesCreate(w: World, id: SandboxId, config: Config, ttl: Option<nat>, why: Rejection) {
    var bad :=
      || config.limits.disk < 16 || config.limits.disk > 1048576
      || config.limits.cpu < 1 || config.limits.cpu > 64
      || config.limits.memory < 16 || config.limits.memory > 262144
      || config.pids < 1 || config.pids > 65536
      || config.command == [] || config.command[0] == "" || ttl == Some(0);
    match why
    case BadRequest => bad
    case ImageUnknown => !bad && config.imageId.Some? && config.imageId.value !in w.images
    case ImageNotReady =>
      !bad && config.imageId.Some? && config.imageId.value in w.images && w.images[config.imageId.value] != Ready
    case InsufficientCapacity =>
      && !bad && (config.imageId.Some? ==> Get(w.images, config.imageId.value) == Some(Ready))
      && !Fits(w.budget, w.rows, id, config.limits)
    case _ => false
  }

  /** The same for an action on an existing sandbox. A deletion is refused only if there is no sandbox. */
  ghost predicate RefusesAction(w: World, id: SandboxId, action: Action, why: Rejection) {
    match why
    case BadRequest => action == Create
    case UnknownSandbox => action != Create && id !in w.rows
    case LifecyclePending => action in {Start, Stop, Restart} && id in w.rows && w.rows[id].intent.Some?
    case SandboxDeleted =>
      && action in {Start, Stop, Restart} && id in w.rows && w.rows[id].intent.None?
      && w.rows[id].status == Deleted
    case InsufficientCapacity =>
      && action in {Start, Restart} && id in w.rows && w.rows[id].intent.None? && w.rows[id].status != Deleted
      && !Fits(w.budget, w.rows, id, w.rows[id].config.limits)
    case _ => false
  }

  ghost predicate Refuses(w: World, order: Order, newId: SandboxId, why: Rejection) {
    match order
    case NewSandbox(config, ttl) => RefusesCreate(w, newId, config, ttl, why)
    case Existing(id, action) => RefusesAction(w, id, action, why)
  }

  ghost predicate Admissible(w: World, order: Order, use: Option<KeyUse>, newId: SandboxId) {
    match order
    case NewSandbox(config, ttl) => CanAcceptCreate(w, newId, config, ttl, use)
    case Existing(id, action) => CanAccept(w, id, action, use)
  }

  /** The row that an order has been written to. */
  predicate Written(order: Order, before: map<SandboxId, Row>, now: nat, id: SandboxId, row: Row) {
    match order
    case NewSandbox(config, ttl) =>
      row.intent == Some(Create) && row.config == config && Counted(ttl, now, now, row.expiresAt)
    case Existing(sandbox, action) =>
      && id == sandbox && id in before
      && row.intent == Some(action) && row.config == before[id].config && row.expiresAt == before[id].expiresAt
  }

  /** The runtime has what the order needs. */
  predicate Feasible(w: World, order: Order) {
    order.NewSandbox? || Able(order.action, UnitOf(w, order.id))
  }

  /** Of these sandboxes, those whose time had run out at `now` are deleted. */
  ghost predicate OverdueGone(
    before: map<SandboxId, Row>, now: nat, after: map<SandboxId, Row>, ids: set<SandboxId>) {
    forall id | id in ids && id in before && before[id].expiresAt.Some? && before[id].expiresAt.value <= now ::
      id in after && after[id].status == Deleted
  }

  predicate ValidKey(k: Key) {
    0 < |k.text| <= 200 && forall i | 0 <= i < |k.text| :: 33 as char <= k.text[i] <= 126 as char
  }

  /** The row of a sandbox agrees with what the runtime says about it, down to its reservation. */
  predicate SettledCell(c: Cell) {
    && c.row.Some? && c.row.value.intent.None?
    && (c.row.value.status == Deleted
        || (match c.unit.container
            case Some(k) =>
              && c.row.value.status == (if k.running then Running else Stopped) && c.row.value.error.None?
              && (k.running || !HoldsCompute(c.row.value))
            case None =>
              c.row.value.status == Error && c.row.value.error == Some(ContainerMissing)))
  }

  /** No intent is left, every status equals the runtime's or says that the container is missing, a
      stopped sandbox holds its disk only, and the runtime has no container the journal does not
      account for. */
  ghost predicate Converged(w: World) {
    && (forall id | id in w.rows :: SettledCell(CellOf(w, id)))
    && AllAccounted(w)
  }

  /** The journal has a live row for the sandbox. */
  predicate Accounts(rows: map<SandboxId, Row>, id: SandboxId) {
    id in rows && rows[id].status != Deleted
  }

  ghost predicate AllAccounted(w: World) {
    forall id | id in w.containers :: Accounts(w.rows, id)
  }

  /** The runtime already knows the identifier that was generated for a new sandbox. */
  predicate Known(w: World, order: Order, newId: SandboxId) {
    order.NewSandbox? && UnitOf(w, newId) != Unit(None, None)
  }

  /** A request was accepted in the course of the run. */
  ghost predicate AcceptedSince(before: seq<Event>, after: seq<Event>) {
    before <= after && exists e :: e in after[|before|..] && Admits(e)
  }

  lemma WasAccepted(before: seq<Event>, e: Event, after: seq<Event>)
    requires before + [e] <= after && Admits(e)
    ensures AcceptedSince(before, after)
  {
    assert after[|before|..][0] == e;
  }

  lemma AcceptedBefore(before: seq<Event>, accepted: seq<Event>, after: seq<Event>)
    requires AcceptedSince(before, accepted) && accepted <= after
    ensures AcceptedSince(before, after)
  {
    var e :| e in accepted[|before|..] && Admits(e);
    assert accepted[|before|..] <= after[|before|..];
  }

  /** No operation on these sandboxes is left unfinished. */
  predicate NonePending(rows: map<SandboxId, Row>, ids: set<SandboxId>) {
    forall id | id in ids :: id in rows && rows[id].intent.None?
  }

  ghost predicate SameOutside(before: map<SandboxId, Row>, after: map<SandboxId, Row>, ids: set<SandboxId>) {
    forall j | j in before && j !in ids :: j in after && after[j] == before[j]
  }

  /** Time may have passed and images may have been built and deleted; all else is as it was. */
  ghost predicate Meanwhile(w: World, w': World) {
    && w.now <= w'.now
    && w' == w.(now := w'.now, images := w'.images, builds := w'.builds, removals := w'.removals)
  }

  // ----- What converging one sandbox may change -----

  /** Only this sandbox changes in the lifecycle tables, no key is lost, and a key that has an
      answer keeps it. */
  ghost predicate Touches(w: World, w': World, id: SandboxId) {
    && w'.rows.Keys == w.rows.Keys && w'.requests.Keys == w.requests.Keys
    && (forall j | j in w.rows && j != id :: w'.rows[j] == w.rows[j])
    && (forall j | j != id :: Get(w'.refs, j) == Get(w.refs, j))
    && (forall k | k in w.requests ::
          if w.requests[k].sandbox == id && w.requests[k].answer.None?
          then w'.requests[k] == w.requests[k].(answer := w'.requests[k].answer)
          else w'.requests[k] == w.requests[k])
  }

  /** Every key of the sandbox that was waiting has received `a`. */
  ghost predicate Replied(w: World, w': World, id: SandboxId, a: Answer) {
    forall k | k in w.requests && w.requests[k].sandbox == id && w.requests[k].answer.None? ::
      k in w'.requests && w'.requests[k].answer == Some(a)
  }

  /** The operation has reached its end and nothing else has moved. */
  ghost predicate Ends(w: World, w': World, id: SandboxId) {
    && ViewOf(w', id) == Finished(id, ViewOf(w, id))
    && forall j | j != id :: CellOf(w', j) == CellOf(w, j)
  }

  /** The state in which the runtime has acknowledged all calls of an intent. */
  ghost predicate Acknowledged(w0: World, w1: World, id: SandboxId, intent: Action) {
    && id in w0.rows && w0.rows[id].intent == Some(intent) && w1.pc == Driving(id, intent, AtSettle)
    && w1.requests == w0.requests && w1.refs == w0.refs
    && (w1.rows == w0.rows || (intent == Restart && w1.rows == w0.rows[id := w0.rows[id].(intent := Some(Start))]))
  }

  /** The state in which a call of an intent has failed. */
  ghost predicate Broken(w0: World, w1: World, id: SandboxId, intent: Action, o: Outcome) {
    && id in w0.rows && w0.rows[id].intent == Some(intent) && w1.pc == Failing(id, intent, o) && !o.Ok?
    && w1.requests == w0.requests && w1.refs == w0.refs
    && (w1.rows == w0.rows || w1.rows == w0.rows[id := w0.rows[id].(intent := Some(Start))])
  }

  /** One attempt either settles the operation and answers its keys, or leaves it pending. */
  ghost predicate Attempted(w: World, w': World, id: SandboxId, o: Outcome) {
    && id in w.rows && Touches(w, w', id)
    && if o.Ok? then
         && w'.pc.Idle? && w.rows[id].intent.Some? && w'.rows[id] == SettledRow(w.rows[id], w.rows[id].intent.value)
         && Replied(w, w', id, Answer(200, Doc(DocumentOf(id, w'.rows[id]))))
       else
         && w'.requests == w.requests && w'.rows[id].intent.Some?
         && w'.pc == if w.rows[id].intent == Some(Create) && o.Refused? then Compensating(id, o.code, o.body) else Idle
  }

  lemma SettleTouches(w0: World, w1: World, id: SandboxId, intent: Action)
    requires Acknowledged(w0, w1, id, intent)
    ensures Attempted(w0, Settled(w1, id), id, Ok)
  {
  }

  lemma SettleEnds(w0: World, w1: World, id: SandboxId, intent: Action)
    requires Acknowledged(w0, w1, id, intent)
    requires UnitOf(w1, id) == FinishedUnit(intent, w0.rows[id].config.limits, UnitOf(w0, id))
    requires forall j | j != id :: CellOf(w1, j) == CellOf(w0, j)
    ensures Ends(w0, Settled(w1, id), id)
  {
    var w2 := Settled(w1, id);
    assert CellOf(w2, id) == FinishedCell(CellOf(w0, id));
    RepliesSettled(w0.requests, id, Answer(200, Doc(DocumentOf(id, w2.rows[id]))));
    forall j | j != id ensures CellOf(w2, j) == CellOf(w0, j) {
      DrivenElsewhere(w1, Settle(id), j);
    }
  }

  lemma RecordTouches(w0: World, w1: World, id: SandboxId, intent: Action, o: Outcome)
    requires Broken(w0, w1, id, intent, o)
    ensures Attempted(w0, Recorded(w1, id), id, o)
  {
  }

  /** Compensation answers the waiting keys; the deletion that follows cannot change them. */
  lemma CompensateTouches(w1: World, w2: World, w3: World, id: SandboxId)
    requires CanCompensate(w1, id) && w2 == Compensated(w1, id) && Touches(w2, w3, id)
    ensures Touches(w1, w3, id) && Replied(w1, w3, id, Answer(w1.pc.code, Raw(w1.pc.body)))
  {
  }

  lemma UnwindTouches(w0: World, w1: World, w3: World, id: SandboxId)
    requires Touches(w0, w1, id) && w1.requests == w0.requests && Touches(w1, w3, id)
    ensures Touches(w0, w3, id)
  {
  }

  // ----- What the sweep may change -----

  ghost predicate SameElsewhere(w: World, w': World, id: SandboxId) {
    w.now <= w'.now && forall j | j != id :: CellOf(w', j) == CellOf(w, j)
  }

  /** The sandbox is settled and will not expire before `now`. */
  predicate Resting(w: World, id: SandboxId, now: nat) {
    id in w.rows && SettledCell(CellOf(w, id)) && (w.rows[id].status == Deleted || !Expired(w.rows[id], now))
  }

  /** The runtime still has what the pending operation needs, and the sandbox does not expire before `now`. */
  predicate Undue(w: World, id: SandboxId, now: nat) {
    id in w.rows && OnCourse(CellOf(w, id)) && !Expired(w.rows[id], now)
  }

  /** An answered sweep settles the sandbox, moves nothing else, and changes nothing about a sandbox
      that was settled. */
  ghost predicate SweptWell(w: World, w': World, id: SandboxId) {
    && SettledCell(CellOf(w', id)) && SameElsewhere(w, w', id)
    && (Resting(w, id, w'.now) ==> Meanwhile(w, w'))
    && (Undue(w, id, w'.now) ==> ViewOf(w', id) == Finished(id, ViewOf(w, id)))
    && (forall j | j != id :: RequestsOf(w', j) == RequestsOf(w, j))
  }

  lemma TouchesKeys(w: World, w': World, id: SandboxId, j: SandboxId)
    requires Touches(w, w', id) && j != id
    ensures RequestsOf(w', j) == RequestsOf(w, j)
  {
  }

  lemma ExpiryTouches(w0: World, w1: World, w2: World, id: SandboxId)
    requires id in w0.rows && w1 == ExpiredIfDue(w0, id) && Touches(w1, w2, id)
    ensures Touches(w0, w2, id) && (Finishable(CellOf(w0, id)) ==> Finishable(CellOf(w1, id)))
  {
  }

  lemma RefreshTouches(w0: World, w2: World, w3: World, id: SandboxId)
    requires Touches(w0, w2, id) && id in w2.rows
    requires w3.requests == w2.requests && w3.refs == w2.refs && id in w3.rows && w3.rows == w2.rows[id := w3.rows[id]]
    ensures Touches(w0, w3, id)
  {
  }

  /** What GET says about a container. */
  function Actual(unit: Unit): Option<bool> {
    match unit.container
    case Some(k) => Some(k.running)
    case None => None
  }

  /** The world once expiry has been noticed. */
  function ExpiredIfDue(w: World, id: SandboxId): World
    requires id in w.rows
  {
    if Expired(w.rows[id], w.now) then ExpiredNow(w, id) else w
  }

  function LookedUpRow(row: Row, actual: Option<bool>): Row {
    var refreshed := RefreshedRow(row, actual);
    if actual == Some(false) then ReleasedRow(refreshed) else refreshed
  }

  /** The world once the row says what GET says, with both commits made. */
  function LookedUp(w: World, id: SandboxId): World
    requires id in w.rows
  {
    w.(rows := w.rows[id := LookedUpRow(w.rows[id], Actual(UnitOf(w, id)))], pc := Idle)
  }

  /** An undisturbed convergence of a swept row leaves nothing pending. */
  lemma NothingPending(w0: World, w2: World, id: SandboxId)
    requires id in w0.rows && CellOf(w2, id) == FinishedCell(CellOf(ExpiredIfDue(w0, id), id))
    ensures id in w2.rows && w2.rows[id].intent.None?
  {
    assert CellOf(w2, id).row == Get(w2.rows, id);
  }

  lemma ExpirySparesOthers(w0: World, w2: World, id: SandboxId)
    requires id in w0.rows && w0.now <= w2.now && Ends(ExpiredIfDue(w0, id), w2, id)
    ensures SameElsewhere(w0, w2, id)
  {
  }

  lemma RefreshSettles(w: World, id: SandboxId)
    requires id in w.rows && w.rows[id].intent.None?
    ensures
      var w' := LookedUp(w, id);
      SettledCell(CellOf(w', id)) && SameElsewhere(w, w', id)
  {
  }

  /** A settled sandbox is a fixpoint of the sweep. */
  lemma RefreshIdle(w: World, id: SandboxId)
    requires w.pc.Idle? && id in w.rows && SettledCell(CellOf(w, id)) && w.rows[id].status != Deleted
    ensures LookedUp(w, id) == w
  {
    assert LookedUpRow(w.rows[id], Actual(UnitOf(w, id))) == w.rows[id];
  }

  lemma MeanwhileCells(w: World, w': World, id: SandboxId)
    requires Meanwhile(w, w')
    ensures ViewOf(w', id) == ViewOf(w, id)
  {
  }

  /** The end of an operation is what the runtime will say about it. */
  lemma FinishedLooksUp(c: Cell)
    requires CellOk(c) && OnCourse(c)
    ensures
      var f := FinishedCell(c);
      f.row.value.status == Deleted || LookedUpRow(f.row.value, Actual(f.unit)) == f.row.value
  {
  }

  lemma SweepFinishes(w0: World, w2: World, id: SandboxId)
    requires CellOk(CellOf(w0, id)) && OnCourse(CellOf(w0, id)) && ViewOf(w2, id) == Finished(id, ViewOf(w0, id))
    requires id in w2.rows
    ensures w2.rows[id].status == Deleted || ViewOf(LookedUp(w2, id), id) == ViewOf(w2, id)
  {
    FinishedLooksUp(CellOf(w0, id));
    assert CellOf(w2, id).row == Some(w2.rows[id]);
    if w2.rows[id].status != Deleted {
      assert CellOf(LookedUp(w2, id), id) == CellOf(w2, id);
    }
  }

  lemma SweepEnds(w0: World, w2: World, w3: World, id: SandboxId)
    requires id in w0.rows && w0.now <= w2.now && Ends(ExpiredIfDue(w0, id), w2, id) && id in w2.rows
    requires Meanwhile(if w2.rows[id].status == Deleted then w2 else LookedUp(w2, id), w3)
    ensures SettledCell(CellOf(w3, id)) && SameElsewhere(w0, w3, id)
  {
    NothingPending(w0, w2, id);
    ExpirySparesOthers(w0, w2, id);
    if w2.rows[id].status != Deleted {
      RefreshSettles(w2, id);
    }
    var w := if w2.rows[id].status == Deleted then w2 else LookedUp(w2, id);
    forall j ensures CellOf(w3, j) == CellOf(w, j) {
      MeanwhileCells(w, w3, j);
    }
  }

  /** All of `ids` are settled and everything else is as it was. */
  ghost predicate SweptAll(w: World, w': World, ids: set<SandboxId>) {
    && w.now <= w'.now
    && (forall id | id in ids :: SettledCell(CellOf(w', id)))
    && (forall j | j !in ids :: ViewOf(w', j) == ViewOf(w, j))
    && (forall id | id in ids && Undue(w, id, w'.now) :: ViewOf(w', id) == Finished(id, ViewOf(w, id)))
  }

  lemma SweptAllExtends(w0: World, w1: World, w2: World, done: set<SandboxId>, id: SandboxId)
    requires SweptAll(w0, w1, done) && SweptWell(w1, w2, id) && id !in done && id in w0.rows && id in w1.rows
    ensures SweptAll(w0, w2, done + {id})
  {
    forall j | j in done && Undue(w0, j, w2.now) ensures ViewOf(w2, j) == Finished(j, ViewOf(w0, j)) {
      assert Undue(w0, j, w1.now);
      assert CellOf(w2, j) == CellOf(w1, j);
    }
    if Undue(w0, id, w2.now) {
      assert ViewOf(w1, id) == ViewOf(w0, id);
      assert w1.rows[id] == w0.rows[id];
      assert Undue(w1, id, w2.now);
    }
  }

  /** The unaccounted among `ids` have nothing left in the runtime; nothing else has moved. */
  ghost predicate OrphansGone(w: World, w': World, ids: set<SandboxId>) {
    && w.now <= w'.now && w'.rows == w.rows && w'.requests == w.requests
    && forall j :: CellOf(w', j) ==
         if j in ids && !Accounts(w.rows, j) then CellOf(w, j).(unit := Unit(None, None)) else CellOf(w, j)
  }

  /** The same, for the invariant of the loop. */
  ghost predicate Forgetting(w: World, w': World, ids: set<SandboxId>) {
    forall u | u == w' :: OrphansGone(w, u, ids)
  }

  lemma OrphansGoneExtends(w0: World, w1: World, w2: World, done: set<SandboxId>, id: SandboxId)
    requires Forgetting(w0, w1, done) && w2.rows == w1.rows && w2.requests == w1.requests
    requires if Accounts(w1.rows, id) then w2 == w1
             else SameElsewhere(w1, w2, id) && CellOf(w2, id) == CellOf(w1, id).(unit := Unit(None, None))
    ensures Forgetting(w0, w2, done + {id})
  {
    assert OrphansGone(w0, w1, done);
  }

  lemma OrphanForgotten(w0: World, w: World, id: SandboxId)
    requires Meanwhile(w0, w) && w.pc.Idle? && id !in w.refs
    ensures
      var w' := OrphanCalled(w, id, Ok, Unit(None, None));
      var w'' := w'.(refs := w'.refs - {id}, pc := Idle);
      SameElsewhere(w0, w'', id) && CellOf(w'', id) == CellOf(w0, id).(unit := Unit(None, None))
  {
  }

  /** Quota records may go, but never that of an existing container. */
  ghost predicate OnlyDrops(w: World, w': World) {
    && Meanwhile(w.(quotas := w'.quotas), w')
    && forall id :: Get(w'.quotas, id) == Get(w.quotas, id) || (Get(w'.quotas, id).None? && id !in w.containers)
  }

  lemma DropsSpare(w: World, w': World, id: SandboxId)
    requires OnlyDrops(w, w')
    ensures CellOf(w', id) == CellOf(w, id).(unit := UnitOf(w', id)) && RequestsOf(w', id) == RequestsOf(w, id)
    ensures UnitOf(w', id).container == UnitOf(w, id).container
    ensures UnitOf(w, id).container.Some? || UnitOf(w, id).quota.None? ==> CellOf(w', id) == CellOf(w, id)
  {
  }

  lemma FinishedHasQuota(c: Cell)
    requires CellOk(c) && OnCourse(c)
    ensures FinishedCell(c).unit.container.None? ==> FinishedCell(c).unit.quota.None?
  {
  }

  /** The pieces of an answered sweep finish what was pending. */
  lemma SweepReaches(
    w0: World, w1: World, w2: World, w3: World, ids: set<SandboxId>, suspects: set<SandboxId>, id: SandboxId)
    requires CellOk(CellOf(w0, id)) && Undue(w0, id, w3.now) && (id in ids <==> Swept(w0.rows[id]))
    requires SweptAll(w0, w1, ids) && OrphansGone(w1, w2, suspects) && id !in suspects && OnlyDrops(w2, w3)
    ensures ViewOf(w3, id) == Finished(id, ViewOf(w0, id))
  {
    assert Undue(w0, id, w1.now);
    assert ViewOf(w1, id) == Finished(id, ViewOf(w0, id));
    assert CellOf(w2, id) == CellOf(w1, id) && RequestsOf(w2, id) == RequestsOf(w1, id);
    FinishedHasQuota(CellOf(w0, id));
    DropsSpare(w2, w3, id);
  }

  lemma SweepReachesAll(w0: World, w1: World, w2: World, w3: World, ids: set<SandboxId>, inventory: set<SandboxId>)
    requires ids == (set id | id in w0.rows && Swept(w0.rows[id])) && inventory == w0.containers.Keys
    requires SweptAll(w0, w1, ids) && w1.rows.Keys == w0.rows.Keys && OrphansGone(w1, w2, inventory - ids)
    requires OnlyDrops(w2, w3) && RowsOk(w0)
    ensures forall id | Undue(w0, id, w3.now) :: ViewOf(w3, id) == Finished(id, ViewOf(w0, id))
  {
    forall id | Undue(w0, id, w3.now) ensures ViewOf(w3, id) == Finished(id, ViewOf(w0, id)) {
      CellHere(w0, id);
      SweepReaches(w0, w1, w2, w3, ids, inventory - ids, id);
    }
  }

  /** The pieces of an answered sweep add up. */
  lemma SweepConverges(w0: World, w1: World, w2: World, w3: World, ids: set<SandboxId>, inventory: set<SandboxId>)
    requires ids == (set id | id in w0.rows && Swept(w0.rows[id])) && inventory == w0.containers.Keys
    requires SweptAll(w0, w1, ids) && w1.rows.Keys == w0.rows.Keys && OrphansGone(w1, w2, inventory - ids)
    requires OnlyDrops(w2, w3) && RowsOk(w3)
    ensures Converged(w3)
  {
    forall id | id in w3.rows ensures SettledCell(CellOf(w3, id)) {
      assert CellOf(w2, id).row == CellOf(w1, id).row == Some(w3.rows[id]);
      DropsSpare(w2, w3, id);
      if id in ids {
        assert SettledCell(CellOf(w1, id));
      } else {
        assert ViewOf(w1, id) == ViewOf(w0, id);
        assert w0.rows[id] == w3.rows[id];
      }
    }
    forall id | id in w3.containers ensures Accounts(w3.rows, id) {
      CellHere(w3, id);
      DropsSpare(w2, w3, id);
      assert CellOf(w2, id).unit.container == CellOf(w3, id).unit.container;
      assert id !in ids ==> ViewOf(w1, id) == ViewOf(w0, id);
    }
  }

  /** Time and image steps leave the lifecycle tables, the runtime and the process alone. */
  lemma PassedFrame(w: World, e: Event)
    requires e.Tick? || CanManageImage(w, e)
    ensures Enabled(w, e) && Apply(w, e) == (if e.Tick? then Befallen(w, e) else ImageManaged(w, e))
    ensures Meanwhile(w, Apply(w, e)) && !Moves(e) && !Unanswered(e)
  {
  }

  /** A call some time after the state was `w0`. */
  lemma CalledQuietly(w0: World, w1: World, w2: World, id: SandboxId, o: Outcome, after: Unit)
    requires Meanwhile(w0, w1) && w1.pc.Driving? && w2 == CallMade(w1, id, o, after)
    ensures UnitOf(w1, id) == UnitOf(w0, id) && UnitOf(w2, id) == after
    ensures forall j | j != id :: CellOf(w2, j) == CellOf(w0, j)
  {
  }

  /** Some time may pass before the sandbox is looked at. */
  lemma LooksUp(w0: World, w1: World, id: SandboxId)
    requires id in w0.rows && Meanwhile(w0, w1.(pc := Idle))
    ensures Meanwhile(LookedUp(w0, id), LookedUp(w1, id))
  {
  }

  lemma SweepsWell(w0: World, w2: World, w3: World, id: SandboxId)
    requires id in w0.rows && w0.pc.Idle? && CellOk(CellOf(w0, id)) && w0.now <= w2.now && id in w2.rows
    requires Swept(w0.rows[id]) && Ends(ExpiredIfDue(w0, id), w2, id)
    requires Meanwhile(if w2.rows[id].status == Deleted then w2 else LookedUp(w2, id), w3)
    requires w0.rows[id].intent.None? && !Expired(w0.rows[id], w0.now) ==> w2 == w0
    requires forall j | j != id :: RequestsOf(w3, j) == RequestsOf(w0, j)
    ensures SweptWell(w0, w3, id)
  {
    SweepEnds(w0, w2, w3, id);
    if Resting(w0, id, w3.now) {
      RefreshIdle(w0, id);
    }
    if Undue(w0, id, w3.now) {
      SweepFinishes(w0, w2, id);
      MeanwhileCells(if w2.rows[id].status == Deleted then w2 else LookedUp(w2, id), w3, id);
    }
  }

  /** The sandboxes are settled and do not expire before the sweep ends. */
  ghost predicate AllRest(w: World, ids: set<SandboxId>, now: nat) {
    forall id | id in ids :: Resting(w, id, now)
  }

  /** While all are at rest, sweeping one more changes nothing. */
  lemma StillResting(w0: World, w1: World, w2: World, ids: set<SandboxId>, id: SandboxId)
    requires AllRest(w0, ids, w1.now) ==> Meanwhile(w0, w1)
    requires SweptWell(w1, w2, id) && id in ids && AllRest(w0, ids, w2.now)
    ensures Meanwhile(w0, w2)
  {
    assert AllRest(w0, ids, w1.now);
    MeanwhileCells(w0, w1, id);
    assert Resting(w1, id, w2.now);
  }

  /** Of these sandboxes nothing is pending any more, and those that were overdue at the start are deleted. */
  ghost predicate Cleared(w0: World, rows: map<SandboxId, Row>, done: set<SandboxId>) {
    NonePending(rows, done) && OverdueGone(w0.rows, w0.now, rows, done)
  }

  /** The same, for the invariant of the loop. */
  ghost predicate Clearing(w0: World, rows: map<SandboxId, Row>, done: set<SandboxId>) {
    forall m | m == rows :: Cleared(w0, m, done)
  }

  /** Working on one more row leaves the others alone. */
  lemma SweptRow(w0: World, w1: World, w2: World, ids: set<SandboxId>, todo: set<SandboxId>, id: SandboxId)
    requires id in todo && todo <= ids && todo <= w0.rows.Keys == w1.rows.Keys && Touches(w1, w2, id)
    requires SameOutside(w0.rows, w1.rows, ids - todo)
    ensures w2.rows.Keys == w0.rows.Keys && SameOutside(w0.rows, w2.rows, ids - (todo - {id}))
    ensures w1.rows[id] == w0.rows[id]
    ensures
      && Clearing(w0, w1.rows, ids - todo) && w2.rows[id].intent.None?
      && (w0.rows[id].expiresAt.Some? && w0.rows[id].expiresAt.value <= w0.now ==> w2.rows[id].status == Deleted) ==>
        Clearing(w0, w2.rows, ids - (todo - {id}))
  {
    if Clearing(w0, w1.rows, ids - todo) {
      assert Cleared(w0, w1.rows, ids - todo);
    }
  }

  /** How far an answered sweep has come when `todo` is what is left of `ids`. */
  ghost predicate SweptSoFar(w0: World, w: World, ids: set<SandboxId>, todo: set<SandboxId>) {
    SweptAll(w0, w, ids - todo) && (AllRest(w0, ids, w.now) ==> Meanwhile(w0, w))
  }

  /** The same, for the invariant of the loop. */
  ghost predicate Sweeping(w0: World, w: World, ids: set<SandboxId>, todo: set<SandboxId>) {
    forall u | u == w :: SweptSoFar(w0, u, ids, todo)
  }

  lemma NotYetSwept(w0: World, w1: World, ids: set<SandboxId>, todo: set<SandboxId>, id: SandboxId)
    requires Sweeping(w0, w1, ids, todo) && todo <= ids && id in todo && AllFinishable(w0, ids)
    ensures Finishable(CellOf(w1, id))
  {
    assert SweptSoFar(w0, w1, ids, todo);
    assert ViewOf(w1, id) == ViewOf(w0, id);
  }

  lemma SweptMore(w0: World, w1: World, w2: World, ids: set<SandboxId>, todo: set<SandboxId>, id: SandboxId)
    requires Sweeping(w0, w1, ids, todo) && SweptWell(w1, w2, id) && todo <= ids && id in todo
    requires id in w0.rows && id in w1.rows
    ensures Sweeping(w0, w2, ids, todo - {id})
  {
    assert SweptSoFar(w0, w1, ids, todo);
    SweptAllExtends(w0, w1, w2, ids - todo, id);
    assert ids - (todo - {id}) == ids - todo + {id};
    if AllRest(w0, ids, w2.now) {
      StillResting(w0, w1, w2, ids, id);
    }
  }

  lemma DropsLater(w0: World, w1: World, dropped: set<SandboxId>)
    requires Meanwhile(w0, w1) && dropped !! w1.containers.Keys
    ensures OnlyDrops(w0, w1.(quotas := w1.quotas - dropped))
  {
  }

  lemma DropsRecords(before: map<SandboxId, Record>, after: map<SandboxId, Record>)
    requires forall id | id in after :: id in before && after[id] == before[id]
    ensures QuotasOf(after) == QuotasOf(before) - (before.Keys - after.Keys)
  {
  }

  /** What holds of the sweep from its inventory on holds of it from its start on. */
  lemma SweepFromStart(start: World, w0: World, w3: World)
    requires Meanwhile(start, w0)
    requires Converged(w0) && AllRest(w0, w0.rows.Keys, w3.now) ==> OnlyDrops(w0, w3)
    requires forall id | Undue(w0, id, w3.now) :: ViewOf(w3, id) == Finished(id, ViewOf(w0, id))
    ensures Converged(start) && AllRest(start, start.rows.Keys, w3.now) ==> OnlyDrops(start, w3)
    ensures forall id | Undue(start, id, w3.now) :: ViewOf(w3, id) == Finished(id, ViewOf(start, id))
  {
    if Converged(start) && AllRest(start, start.rows.Keys, w3.now) {
      forall id ensures CellOf(w0, id) == CellOf(start, id) {
        MeanwhileCells(start, w0, id);
      }
      forall id | id in w0.rows ensures Resting(w0, id, w3.now) {
        assert Resting(start, id, w3.now);
      }
      assert Converged(w0);
    }
    forall id | Undue(start, id, w3.now) ensures ViewOf(w3, id) == Finished(id, ViewOf(start, id)) {
      MeanwhileCells(start, w0, id);
      assert Undue(w0, id, w3.now);
    }
  }

  lemma SweepAtRest(w0: World, w1: World, w2: World, w3: World, ids: set<SandboxId>, inventory: set<SandboxId>)
    requires Converged(w0) && AllRest(w0, w0.rows.Keys, w3.now)
    requires w1.now <= w2.now <= w3.now && inventory == w0.containers.Keys && ids <= w0.rows.Keys
    requires AllRest(w0, ids, w1.now) ==> Meanwhile(w0, w1)
    requires (forall id | id in inventory - ids :: Accounts(w1.rows, id)) ==> w2 == w1
    requires OnlyDrops(w2, w3)
    ensures OnlyDrops(w0, w3)
  {
    forall id | id in ids ensures Resting(w0, id, w1.now) {
      assert Resting(w0, id, w3.now);
    }
    forall id | id in inventory - ids ensures Accounts(w1.rows, id) {
      assert id in w0.containers;
    }
  }

  lemma SettleIsStep(w: World, id: SandboxId)
    requires CanSettle(w, id)
    ensures Enabled(w, Settle(id)) && Apply(w, Settle(id)) == Settled(w, id)
  {
  }

  lemma CallIsStep(w: World, id: SandboxId, verb: Verb, o: Outcome, after: Unit)
    requires w.pc.Driving? && w.pc.id == id && id in w.rows && VerbAt(w.pc.phase, verb)
    requires Effect(verb, w.rows[id].config.limits, UnitOf(w, id), o, after)
    ensures Enabled(w, Called(id, verb, o, after)) && Apply(w, Called(id, verb, o, after)) == CallMade(w, id, o, after)
  {
  }

  lemma OrphanIsStep(w: World, id: SandboxId, o: Outcome, after: Unit)
    requires w.pc.Idle? && !Accounts(w.rows, id) && Effect(DeleteContainer, NOTHING, UnitOf(w, id), o, after)
    ensures Enabled(w, OrphanDeleted(id, o, after))
    ensures Apply(w, OrphanDeleted(id, o, after)) == OrphanCalled(w, id, o, after)
  {
  }

  lemma AcceptIsStep(w: World, id: SandboxId, action: Action, use: Option<KeyUse>)
    requires CanAccept(w, id, action, use)
    ensures Enabled(w, Accept(id, action, use)) && Apply(w, Accept(id, action, use)) == Accepted(w, id, action, use)
  {
  }

  lemma AcceptCreateStep(w: World, id: SandboxId, config: Config, ttl: Option<nat>, use: Option<KeyUse>)
    requires CanAcceptCreate(w, id, config, ttl, use)
    ensures Enabled(w, AcceptCreate(id, config, ttl, use))
    ensures Apply(w, AcceptCreate(id, config, ttl, use)) == AcceptedCreate(w, id, config, ttl, use)
  {
  }

  /** The journal's rows agree with the runtime, named so that only the lemmas below look inside. */
  ghost predicate Consistent(w: World) {
    forall u | u == w :: RowsOk(u)
  }

  lemma NothingLeft(w0: World, w1: World, ids: set<SandboxId>)
    requires Consistent(w0) && ids == (set id | id in w0.rows && Swept(w0.rows[id]))
    requires w1.rows.Keys == w0.rows.Keys && SameOutside(w0.rows, w1.rows, ids) && Clearing(w0, w1.rows, ids)
    ensures Clearing(w0, w1.rows, w1.rows.Keys)
  {
    assert RowsOk(w0) && Cleared(w0, w1.rows, ids);
  }

  /** All that an answered sweep achieves, from its inventory to its end. */
  lemma SweepWhole(w0: World, w1: World, w2: World, w3: World, ids: set<SandboxId>, inventory: set<SandboxId>)
    requires Consistent(w0) && Consistent(w3)
    requires ids == (set id | id in w0.rows && Swept(w0.rows[id])) && inventory == w0.containers.Keys
    requires Sweeping(w0, w1, ids, {}) && w1.rows.Keys == w0.rows.Keys && OrphansGone(w1, w2, inventory - ids)
    requires (forall id | id in inventory - ids :: Accounts(w1.rows, id)) ==> w2 == w1
    requires OnlyDrops(w2, w3)
    ensures Converged(w3)
    ensures Converged(w0) && AllRest(w0, w0.rows.Keys, w3.now) ==> OnlyDrops(w0, w3)
    ensures forall id | Undue(w0, id, w3.now) :: ViewOf(w3, id) == Finished(id, ViewOf(w0, id))
  {
    assert RowsOk(w0) && RowsOk(w3) && SweptSoFar(w0, w1, ids, {});
    assert ids - {} == ids;
    SweepConverges(w0, w1, w2, w3, ids, inventory);
    SweepReachesAll(w0, w1, w2, w3, ids, inventory);
    if Converged(w0) && AllRest(w0, w0.rows.Keys, w3.now) {
      SweepAtRest(w0, w1, w2, w3, ids, inventory);
    }
  }

  /** A run from the empty host that ends in this state. */
  ghost predicate LeadsTo(budget: Limits, es: seq<Event>, w: World) {
    Legal(Fresh(budget), es) && After(Fresh(budget), es) == w
  }

  /** The same, for contracts: the quantifier keeps the run out of proofs that do not ask for it. */
  ghost predicate Ran(budget: Limits, es: seq<Event>, w: World) {
    forall u | u == w :: LeadsTo(budget, es, u)
  }

  /** At `accepted` an operation on the sandbox had just been accepted; all that followed interrupts it. */
  ghost predicate Interrupted(budget: Limits, es: seq<Event>, accepted: nat, id: SandboxId) {
    && accepted <= |es| && Legal(Fresh(budget), es[..accepted])
    && JustAccepted(After(Fresh(budget), es[..accepted]), id)
    && forall e | e in es[accepted..] :: Interrupts(e, id)
  }

  /** A run in which the pending operation, interrupted or not, is settled. */
  ghost predicate Settles(w: World, es: seq<Event>, id: SandboxId) {
    Legal(w, es) && (forall e | e in es :: Interrupts(e, id)) && !Pending(CellOf(After(w, es), id))
  }

  /** The sandbox is where the operation accepted after `es` was to take it, which is where every run
      that settles the operation takes it. */
  ghost predicate EndsLikeAll(budget: Limits, es: seq<Event>, w: World, id: SandboxId)
    requires Legal(Fresh(budget), es)
  {
    var start := After(Fresh(budget), es);
    && ViewOf(w, id) == Finished(id, ViewOf(start, id))
    && forall smooth | Settles(start, smooth, id) :: ViewOf(w, id) == ViewOf(After(start, smooth), id)
  }

  lemma StaysUndue(budget: Limits, es: seq<Event>, accepted: nat, w: World, id: SandboxId)
    requires Ran(budget, es, w) && Interrupted(budget, es, accepted, id)
    ensures id in w.rows && OnCourse(CellOf(w, id))
    ensures Finished(id, ViewOf(w, id)) == Finished(id, ViewOf(After(Fresh(budget), es[..accepted]), id))
  {
    assert LeadsTo(budget, es, w);
    var start := After(Fresh(budget), es[..accepted]);
    LegalSplit(Fresh(budget), es, accepted);
    CellHere(start, id);
    InterruptedRun(start, es[accepted..], id);
    assert CellOf(w, id).row == Get(w.rows, id);
  }

  lemma AllEndAlike(budget: Limits, es: seq<Event>, accepted: nat, w: World, w': World, id: SandboxId)
    requires Ran(budget, es, w) && Interrupted(budget, es, accepted, id)
    requires ViewOf(w', id) == Finished(id, ViewOf(w, id))
    ensures EndsLikeAll(budget, es[..accepted], w', id)
  {
    StaysUndue(budget, es, accepted, w, id);
    var start := After(Fresh(budget), es[..accepted]);
    forall smooth | Settles(start, smooth, id)
      ensures ViewOf(w', id) == ViewOf(After(start, smooth), id)
    {
      CrashEquivalent(start, smooth, smooth, id);
    }
  }

  /** Recorded sizes, blocks and inodes of these sandboxes fit the disk budget. */
  ghost predicate Bounded(budget: Limits, s: Store, ids: set<SandboxId>) {
    && Total(RecordDisk(s, ids)) <= budget.disk
    && Total(RecordBlocks(s, ids)) <= budget.disk * 2048
    && Total(RecordInodes(s, ids)) <= budget.disk * 256
  }

  /** A sound store that holds the quota records which the journal sees keeps the bound. */
  lemma BoundedAfter(budget: Limits, es: seq<Event>, s: Store)
    requires Legal(Fresh(budget), es) && Sound(s) && QuotasOf(s.records) == After(Fresh(budget), es).quotas
    ensures Bounded(budget, s, After(Fresh(budget), es).rows.Keys)
  {
    var w := After(Fresh(budget), es);
    NoOvercommit(budget, es, Disk);
    assert RecordDisk(s, w.rows.Keys) == KnownQuotas(w);
    UseWithinRecords(s, w.rows.Keys);
  }

  /** After every step the store was sound and held what the journal saw. */
  ghost predicate StoodBy(budget: Limits, es: seq<Event>, stores: seq<Store>) {
    && |stores| == |es|
    && forall i | 0 <= i < |es| ::
         && Sound(stores[i]) && Legal(Fresh(budget), es[..i + 1])
         && QuotasOf(stores[i].records) == After(Fresh(budget), es[..i + 1]).quotas
  }

  /** The same, for contracts. */
  ghost predicate Stood(budget: Limits, es: seq<Event>, stores: seq<Store>) {
    forall ss | ss == stores :: StoodBy(budget, es, ss)
  }

  lemma StoodExtends(budget: Limits, es: seq<Event>, e: Event, stores: seq<Store>, s: Store)
    requires Stood(budget, es, stores) && Kept(s) && Legal(Fresh(budget), es + [e])
    requires QuotasOf(s.records) == After(Fresh(budget), es + [e]).quotas
    ensures Stood(budget, es + [e], stores + [s])
  {
    assert StoodBy(budget, es, stores) && Sound(s);
    var es', ss := es + [e], stores + [s];
    forall i | 0 <= i < |es'|
      ensures Sound(ss[i]) && Legal(Fresh(budget), es'[..i + 1])
      ensures QuotasOf(ss[i].records) == After(Fresh(budget), es'[..i + 1]).quotas
    {
      if i < |es| {
        assert es'[..i + 1] == es[..i + 1];
      } else {
        assert es'[..i + 1] == es';
      }
    }
  }

  class Api {
    const budget: Limits
    // The adapter that this process talks to, with all that the runtime holds.
    const adapter: Adapter
    var rows: map<SandboxId, Row>
    var requests: map<Key, Request>
    var images: map<ImageId, ImageStatus>
    var refs: map<SandboxId, ImageId>
    // The clock and the image fibers.
    var now: nat
    var builds: set<ImageId>
    var removals: set<ImageId>
    // Where this process stands, and all it did since the host was empty.
    var pc: Pc
    ghost var run: seq<Event>
    // What the adapter held after each step of the run.
    ghost var stores: seq<Store>

    /** The journal together with what it can see of the adapter. */
    function W(): World
      reads this, adapter
    {
      World(budget, rows, requests, images, refs, adapter.containers, QuotasOf(adapter.records), now, builds, removals,
            pc)
    }

    ghost predicate Valid()
      reads this, adapter
    {
      Ran(budget, run, W()) && Kept(adapter.S()) && Stood(budget, run, stores)
    }

    lemma Invariant()
      requires Valid()
      ensures Inv(W())
    {
      assert LeadsTo(budget, run, W());
      Reachable(budget, run);
    }

    lemma RowsHere()
      requires Valid()
      ensures Consistent(W())
    {
      Invariant();
    }

    /** The runtime has nothing of a deleted sandbox. */
    lemma Gone()
      requires Valid()
      ensures forall id | id in rows && rows[id].status == Deleted :: UnitOf(W(), id) == Unit(None, None)
    {
      Invariant();
    }

    /** The invariant, as far as one sandbox is concerned. */
    lemma Here(id: SandboxId)
      requires Valid()
      ensures CellOk(CellOf(W(), id))
    {
      Invariant();
      CellHere(W(), id);
    }

    constructor (budget: Limits)
      ensures Valid() && this.budget == budget && W() == Fresh(budget) && run == [] && fresh(adapter)
    {
      var a := new Adapter();
      this.budget, adapter := budget, a;
      rows, requests, images, refs := map[], map[], map[], map[];
      now, builds, removals := 0, {}, {};
      pc, run, stores := Idle, [], [];
    }

    /** The cross-layer bound: whatever crashed, was lost or is still being cleaned up, the limits
        outstanding for journalled sandboxes, and the blocks and inodes they really occupy (2048 and
        256 to the MiB), fit the host's disk budget. */
    lemma DiskBound()
      requires Valid()
      ensures Bounded(budget, adapter.S(), rows.Keys)
    {
      assert LeadsTo(budget, run, W()) && Sound(adapter.S());
      BoundedAfter(budget, run, adapter.S());
    }

    /** So it was at every moment, and so it is wherever the process is killed: after any number of
        steps, in the middle of whatever operation, followed by a crash. */
    lemma DiskBoundThroughout(n: nat)
      requires Valid() && 0 < n <= |run|
      ensures Legal(Fresh(budget), run[..n] + [Crash]) && n <= |stores|
      ensures Bounded(budget, stores[n - 1], After(Fresh(budget), run[..n] + [Crash]).rows.Keys)
    {
      assert LeadsTo(budget, run, W()) && StoodBy(budget, run, stores);
      KilledAnywhere(Fresh(budget), run, n);
      BoundedAfter(budget, run[..n], stores[n - 1]);
    }

    /** Records a step whose table updates have just been made. */
    method Note(ghost before: World, ghost e: Event, next: Pc)
      requires Ran(budget, run, before) && Kept(adapter.S()) && Stood(budget, run, stores)
      requires Enabled(before, e) && W().(pc := next) == Apply(before, e)
      modifies this`run, this`pc, this`stores
      ensures Valid() && W() == Apply(before, e) && run == old(run) + [e] && stores == old(stores) + [adapter.S()]
      ensures Troubles(run) == Troubles(old(run)) + (if Moves(e) || Unanswered(e) then 1 else 0)
      ensures Lapses(run) == Lapses(old(run)) + (if Unanswered(e) then 1 else 0)
    {
      assert LeadsTo(budget, run, before);
      LegalExtend(Fresh(budget), run, e);
      CountsExtend(run, e);
      StoodExtends(budget, run, e, stores, adapter.S());
      run, stores, pc := run + [e], stores + [adapter.S()], next;
    }

    /** Nothing unforeseen happened since the run was `before`. */
    ghost predicate Calm(before: seq<Event>)
      reads this
    {
      Troubles(run) == Troubles(before)
    }

    /** Every runtime call since then was answered, whatever else happened. */
    ghost predicate Heard(before: seq<Event>)
      reads this
    {
      Lapses(run) == Lapses(before)
    }

    /** What was done so far, and how many foreign steps have failed in the adapter. */
    ghost function Past(): (seq<Event>, nat)
      reads this, adapter
    {
      (run, adapter.faults)
    }

    /** The run only grew. */
    ghost predicate Grew(past: (seq<Event>, nat))
      reads this, adapter
    {
      && past.0 <= run && 0 <= Lapses(run) - Lapses(past.0) <= Troubles(run) - Troubles(past.0)
      && past.1 <= adapter.faults
    }

    /** Since then no foreign step has failed and no container has changed by itself. */
    ghost predicate Worked(past: (seq<Event>, nat))
      reads this, adapter
    {
      adapter.faults == past.1 && Troubles(run) - Lapses(run) == Troubles(past.0) - Lapses(past.0)
    }

    // ----- The environment -----

    /** Other fibers and the host get to run: tasks end, operators interfere, sandboxes write, the
        snapshotter cleans up, images are built and deleted, time passes. The lifecycle tables belong
        to the mutex and stay. */
    method Interfere()
      requires Valid()
      modifies this, adapter
      ensures Valid() && Grew(old(Past())) && rows == old(rows) && requests == old(requests) && refs == old(refs)
      ensures pc == old(pc)
      ensures old(now) <= now && Heard(old(run)) && (Calm(old(run)) ==> Meanwhile(old(W()), W()))
    {
      var n: nat := *;
      while n > 0
        invariant Valid() && Grew(old(Past())) && rows == old(rows) && requests == old(requests) && refs == old(refs)
        invariant pc == old(pc)
        invariant old(now) <= now && Heard(old(run)) && (Calm(old(run)) ==> Meanwhile(old(W()), W()))
      {
        HappenOnce();
        n := n - 1;
      }
    }

    /** One such happening. */
    method HappenOnce()
      requires Valid()
      modifies this, adapter
      ensures Valid() && Grew(old(Past())) && rows == old(rows) && requests == old(requests) && refs == old(refs)
      ensures pc == old(pc)
      ensures old(now) <= now && Heard(old(run)) && (Calm(old(run)) ==> Meanwhile(old(W()), W()))
    {
      var e: Event, id: SandboxId, use: Cap, limits: Limits, choice: bool := *, *, *, *, *;
      var what: nat := *;
      if what == 0 && (e.Tick? || CanManageImage(W(), e)) {
        Pass(e);
      } else if what == 1 && id in adapter.containers {
        Lose(id, choice);
      } else if what == 2 && id !in rows && id !in adapter.containers && pc != OrphanGone(id) {
        Appear(id, limits, choice);
      } else if what == 3 && id in adapter.containers {
        adapter.Write(id, use);
      } else {
        adapter.Purge();
      }
    }

    /** Time passes, or the image manager takes a step. */
    method Pass(e: Event)
      requires Valid() && (e.Tick? || CanManageImage(W(), e))
      modifies this
      ensures Valid() && W() == Apply(old(W()), e) && run == old(run) + [e] && Calm(old(run)) && Heard(old(run))
      ensures rows == old(rows) && requests == old(requests) && refs == old(refs) && pc == old(pc)
      ensures Meanwhile(old(W()), W())
    {
      ghost var before := W();
      var w := if e.Tick? then Befallen(W(), e) else ImageManaged(W(), e);
      PassedFrame(before, e);
      images, builds, removals, now := w.images, w.builds, w.removals, w.now;
      Note(before, e, pc);
    }

    /** A task ends, or an operator removes a container. */
    method Lose(id: SandboxId, ends: bool)
      requires Valid() && id in adapter.containers
      modifies this, adapter
      ensures Valid() && Grew(old(Past())) && !Calm(old(run)) && Heard(old(run))
      ensures rows == old(rows) && requests == old(requests) && refs == old(refs) && pc == old(pc) && now == old(now)
    {
      assert Sound(adapter.S());
      ghost var before := W();
      var c := if ends then Some(adapter.containers[id].(running := false)) else None;
      adapter.CommitContainer(id, c);
      Note(before, if ends then TaskExited(id) else Vanished(id), pc);
    }

    /** Someone else has the adapter create a container, and perhaps start it. */
    method Appear(id: SandboxId, limits: Limits, starts: bool)
      requires Valid() && id !in rows && id !in adapter.containers && pc != OrphanGone(id)
      modifies this, adapter
      ensures Valid() && Grew(old(Past())) && !Calm(old(run)) && Heard(old(run))
      ensures rows == old(rows) && requests == old(requests) && refs == old(refs) && pc == old(pc) && now == old(now)
    {
      ghost var before, s := W(), adapter.S();
      adapter.Bring(id, limits, starts);
      SeenAsWrite(s, adapter.S(), id);
      Note(before, Appeared(id, UnitIn(adapter.S(), id)), pc);
    }

    /** The process is killed, at whatever point, and started again. */
    method Reboot()
      requires Valid()
      modifies this
      ensures Valid() && pc.Idle? && W() == old(W()).(pc := Idle, builds := {}, removals := {})
      ensures run == old(run) + [Crash]
    {
      ghost var before := W();
      builds, removals := {}, {};
      Note(before, Crash, Idle);
    }

    /** One runtime call for the sandbox being driven. */
    method Call(id: SandboxId, verb: Verb) returns (o: Outcome)
      requires Valid() && pc.Driving? && pc.id == id && id in rows && VerbAt(pc.phase, verb)
      modifies this, adapter
      ensures Valid() && Grew(old(Past())) && rows == old(rows) && requests == old(requests) && refs == old(refs)
      ensures pc == if o.Ok? then Driving(id, old(pc).intent, PhaseAfter(old(pc).intent, old(pc).phase))
                    else Failing(id, old(pc).intent, o)
      ensures Calm(old(run)) ==>
                && o.Ok?
                && Effect(verb, rows[id].config.limits, old(UnitOf(W(), id)), Ok, UnitOf(W(), id))
                && forall j | j != id :: CellOf(W(), j) == old(CellOf(W(), j))
      ensures old(now) <= now && (Heard(old(run)) <==> o.Ok?)
      ensures Worked(old(Past())) && Accepts(verb, rows[id].config.limits, old(UnitOf(W(), id))) ==> o.Ok?
    {
      ghost var w0 := W();
      Interfere();
      ghost var w1, quiet := W(), Calm(old(run));
      var after;
      o, after := Exchange(id, verb);
      if quiet {
        CalledQuietly(w0, w1, W(), id, o, after);
      }
    }

    /** The runtime answers, refuses or is lost; what it did in the last two cases is unknown. */
    method Exchange(id: SandboxId, verb: Verb) returns (o: Outcome, after: Unit)
      requires Valid() && pc.Driving? && pc.id == id && id in rows && VerbAt(pc.phase, verb)
      modifies this, adapter
      ensures Effect(verb, old(rows)[id].config.limits, old(UnitOf(W(), id)), o, after)
      ensures Valid() && W() == CallMade(old(W()), id, o, after) && run == old(run) + [Called(id, verb, o, after)]
      ensures Troubles(run) == Troubles(old(run)) + (if o.Ok? then 0 else 1)
      ensures Lapses(run) == Lapses(old(run)) + (if o.Ok? then 0 else 1)
      ensures adapter.faults >= old(adapter.faults)
      ensures Accepts(verb, old(rows)[id].config.limits, old(UnitOf(W(), id))) ==>
                (o.Ok? <==> adapter.faults == old(adapter.faults))
    {
      Here(id);
      ghost var before, s := W(), adapter.S();
      o := adapter.Serve(verb, id, rows[id].config.limits);
      after := UnitIn(adapter.S(), id);
      SeenAsWrite(s, adapter.S(), id);
      CallIsStep(before, id, verb, o, after);
      Note(before, Called(id, verb, o, after),
           if o.Ok? then Driving(id, pc.intent, PhaseAfter(pc.intent, pc.phase)) else Failing(id, pc.intent, o));
    }

    // ----- Transactions of the convergence loop -----

    method BeginConverge(id: SandboxId)
      requires Valid() && CanBegin(W(), id)
      modifies this
      ensures Valid() && W() == Begun(old(W()), id) && run == old(run) + [Begin(id)]
      ensures Calm(old(run)) && Heard(old(run))
    {
      Note(W(), Begin(id), Driving(id, rows[id].intent.value, FirstPhase(rows[id].intent.value)));
    }

    method CrossBoundary(id: SandboxId)
      requires Valid() && CanCross(W(), id)
      modifies this
      ensures Valid() && W() == Crossed(old(W()), id) && run == old(run) + [Boundary(id)]
      ensures Calm(old(run)) && Heard(old(run))
      ensures UnitOf(W(), id) == old(UnitOf(W(), id)) && forall j | j != id :: CellOf(W(), j) == old(CellOf(W(), j))
    {
      ghost var before := W();
      rows := rows[id := rows[id].(intent := Some(Start))];
      Note(before, Boundary(id), Driving(id, Restart, AtStart));
    }

    method SettleTransaction(id: SandboxId, intent: Action)
      requires Valid() && CanSettle(W(), id) && intent == pc.intent
      modifies this
      ensures Valid() && W() == Settled(old(W()), id) && run == old(run) + [Settle(id)]
      ensures Calm(old(run)) && Heard(old(run))
    {
      ghost var before := W();
      SettleIsStep(before, id);
      var row := SettleRow(rows[id], intent);
      refs := if row.status == Deleted then refs - {id} else refs;
      rows := rows[id := row];
      requests := Answered(requests, id, Answer(200, Doc(DocumentOf(id, row))));
      Note(before, Settle(id), Idle);
    }

    /** The statements on the row itself. */
    method SettleRow(pending: Row, intent: Action) returns (row: Row)
      ensures row == SettledRow(pending, intent)
    {
      row := pending.(status := Target(intent), intent := None, error := None);
      if row.status == Stopped || row.status == Deleted {
        row := row.(held := row.held.(cpu := 0, memory := 0));
      }
      if row.status == Deleted {
        row := row.(held := row.held.(disk := 0));
      }
    }

    method RecordTransaction(id: SandboxId)
      requires Valid() && CanRecord(W(), id)
      modifies this
      ensures Valid() && W() == Recorded(old(W()), id) && run == old(run) + [RecordFailure(id)]
      ensures Calm(old(run)) && Heard(old(run))
    {
      ghost var before := W();
      var compensate := pc.intent == Create && pc.outcome.Refused?;
      rows := rows[id := rows[id].(error := Some(CallFailed(pc.outcome)))];
      Note(before, RecordFailure(id), if compensate then Compensating(id, pc.outcome.code, pc.outcome.body) else Idle);
    }

    method CompensateTransaction(id: SandboxId)
      requires Valid() && CanCompensate(W(), id)
      modifies this
      ensures Valid() && W() == Compensated(old(W()), id) && run == old(run) + [Compensate(id)]
      ensures Calm(old(run)) && Heard(old(run))
    {
      ghost var before := W();
      rows := rows[id := rows[id].(intent := Some(Delete), status := Deleting)];
      requests := Answered(requests, id, Answer(pc.code, Raw(pc.body)));
      Note(before, Compensate(id), Idle);
    }

    // ----- Converge -----

    /** The first half of a restart. Once the container has stopped the intent becomes a start, so that a
        retry does not stop it again. */
    method Halt(id: SandboxId) returns (o: Outcome)
      requires Valid() && id in rows && rows[id].intent == Some(Restart) && pc == Driving(id, Restart, AtStop)
      modifies this, adapter
      ensures Valid() && Grew(old(Past())) && requests == old(requests) && refs == old(refs)
      ensures rows == if o.Ok? then old(rows)[id := old(rows)[id].(intent := Some(Start))] else old(rows)
      ensures pc == if o.Ok? then Driving(id, Restart, AtStart) else Failing(id, Restart, o)
      ensures old(now) <= now && (Heard(old(run)) <==> o.Ok?)
      ensures Worked(old(Past())) && old(UnitOf(W(), id)).container.Some? ==> o.Ok?
      ensures Calm(old(run)) ==>
                && o.Ok?
                && Effect(StopContainer, rows[id].config.limits, old(UnitOf(W(), id)), Ok, UnitOf(W(), id))
                && forall j | j != id :: CellOf(W(), j) == old(CellOf(W(), j))
    {
      o := Call(id, StopContainer);
      if o.Ok? {
        CrossBoundary(id);
      }
    }

    /** The calls of a restart. */
    method Bounce(id: SandboxId) returns (o: Outcome)
      requires Valid() && id in rows && rows[id].intent == Some(Restart) && pc == Driving(id, Restart, AtStop)
      modifies this, adapter
      ensures Valid() && Grew(old(Past())) && requests == old(requests) && refs == old(refs)
      ensures rows == old(rows) || rows == old(rows)[id := old(rows)[id].(intent := Some(Start))]
      ensures pc == if o.Ok? then Driving(id, Restart, AtSettle) else Failing(id, Restart, o)
      ensures old(now) <= now && (Heard(old(run)) <==> o.Ok?)
      ensures Worked(old(Past())) && old(UnitOf(W(), id)).container.Some? ==> o.Ok?
      ensures Calm(old(run)) ==>
                && o.Ok?
                && UnitOf(W(), id) == FinishedUnit(Restart, rows[id].config.limits, old(UnitOf(W(), id)))
                && forall j | j != id :: CellOf(W(), j) == old(CellOf(W(), j))
    {
      o := Halt(id);
      if o.Ok? {
        o := Call(id, StartContainer);
      }
    }

    /** The runtime calls of one intent, in order, up to the first that fails. */
    method Drive(id: SandboxId, intent: Action) returns (o: Outcome)
      requires Valid() && id in rows && rows[id].intent == Some(intent) && pc == Driving(id, intent, FirstPhase(intent))
      modifies this, adapter
      ensures Valid() && Grew(old(Past())) && requests == old(requests) && refs == old(refs)
      ensures rows == old(rows) || rows == old(rows)[id := old(rows)[id].(intent := Some(Start))]
      ensures intent == Restart || rows == old(rows)
      ensures pc == if o.Ok? then Driving(id, intent, AtSettle) else Failing(id, intent, o)
      ensures old(now) <= now && (Heard(old(run)) <==> o.Ok?)
      ensures Worked(old(Past())) && Able(intent, old(UnitOf(W(), id))) ==> o.Ok?
      ensures Calm(old(run)) ==>
                && o.Ok?
                && UnitOf(W(), id) == FinishedUnit(intent, rows[id].config.limits, old(UnitOf(W(), id)))
                && forall j | j != id :: CellOf(W(), j) == old(CellOf(W(), j))
    {
      Here(id);
      match intent {
        case Create =>
          o := Call(id, CreateContainer);
          if o.Ok? {
            o := Call(id, StartContainer);
          }
        case Start =>
          o := Call(id, StartContainer);
        case Restart =>
          o := Bounce(id);
        case Stop =>
          o := Call(id, StopContainer);
        case Delete =>
          o := Call(id, DeleteContainer);
      }
    }

    /** One attempt at the pending intent: all its runtime calls and the settling transaction, or
        the first failure and its bookkeeping. */
    method Attempt(id: SandboxId) returns (o: Outcome)
      requires Valid() && CanBegin(W(), id)
      modifies this, adapter
      ensures Valid() && Grew(old(Past())) && Attempted(old(W()), W(), id, o)
      ensures old(now) <= now && (Heard(old(run)) <==> o.Ok?)
      ensures Worked(old(Past())) && Finishable(old(CellOf(W(), id))) ==> o.Ok?
      ensures Calm(old(run)) ==> o.Ok? && Ends(old(W()), W(), id)
    {
      ghost var w0 := W();
      var intent := rows[id].intent.value;
      BeginConverge(id);
      o := Drive(id, intent);
      ghost var w1 := W();
      Close(id, intent, o, w0);
      if Calm(old(run)) {
        SettleEnds(w0, w1, id, intent);
      }
    }

    /** The transaction that ends an attempt which began in `w0`. */
    method Close(id: SandboxId, intent: Action, o: Outcome, ghost w0: World)
      requires Valid() && (if o.Ok? then Acknowledged(w0, W(), id, intent) else Broken(w0, W(), id, intent, o))
      modifies this
      ensures Valid() && Grew(old(Past())) && Calm(old(run)) && Heard(old(run)) && now == old(now)
      ensures Attempted(w0, W(), id, o) && (o.Ok? ==> W() == Settled(old(W()), id))
    {
      if o.Ok? {
        SettleTouches(w0, W(), id, intent);
        SettleTransaction(id, intent);
      } else {
        RecordTouches(w0, W(), id, intent, o);
        RecordTransaction(id);
      }
    }

    /** Drives the journalled intent of one sandbox to its end. It returns normally exactly when no
        intent is left; undisturbed, it reaches the end the operation is for. A definitive create
        failure is answered to every waiting key and turned into a deletion. */
    method Converge(id: SandboxId) returns (o: Outcome)
      requires Valid() && pc.Idle? && id in rows
      modifies this, adapter
      ensures Valid() && pc.Idle? && Grew(old(Past())) && Touches(old(W()), W(), id)
      ensures old(rows)[id].intent.None? ==> o.Ok? && run == old(run) && W() == old(W())
      ensures o.Ok? ==> rows[id].intent.None?
      ensures o.Ok? && old(rows)[id].intent.Some? ==>
                Replied(old(W()), W(), id, Answer(200, Doc(DocumentOf(id, rows[id]))))
      ensures o.Ok? && old(rows)[id].intent.Some? ==> rows[id] == SettledRow(old(rows)[id], old(rows)[id].intent.value)
      ensures o.Refused? && old(rows)[id].intent == Some(Create) ==>
                Replied(old(W()), W(), id, Answer(o.code, Raw(o.body)))
      ensures !o.Ok? && !(o.Refused? && old(rows)[id].intent == Some(Create)) ==> requests == old(requests)
      ensures old(now) <= now && (Heard(old(run)) <==> o.Ok?)
      ensures Worked(old(Past())) && Finishable(old(CellOf(W(), id))) ==> o.Ok?
      ensures Calm(old(run)) ==> o.Ok? && Ends(old(W()), W(), id)
      decreases rows[id].intent == Some(Create), 1
    {
      if rows[id].intent.None? {
        return Ok;
      }
      o := Attempt(id);
      if pc.Compensating? {
        ghost var w1 := W();
        Unwind(id);
        UnwindTouches(old(W()), w1, W(), id);
      }
    }

    /** After a definitive create failure: the keys get it as their answer, and what the create left is
        deleted, as far as that succeeds now. */
    method Unwind(id: SandboxId)
      requires Valid() && CanCompensate(W(), id)
      modifies this, adapter
      ensures Valid() && pc.Idle? && Grew(old(Past())) && old(now) <= now && Touches(old(W()), W(), id)
      ensures Replied(old(W()), W(), id, Answer(old(pc).code, Raw(old(pc).body)))
      decreases true, 0
    {
      ghost var w1 := W();
      CompensateTransaction(id);
      ghost var w2 := W();
      var cleanup := Converge(id);
      CompensateTouches(w1, w2, W(), id);
    }

    // ----- The reconciliation sweep -----

    method ExpireTransaction(id: SandboxId)
      requires Valid() && CanExpire(W(), id)
      modifies this
      ensures Valid() && W() == ExpiredNow(old(W()), id) && run == old(run) + [Expire(id)]
      ensures Calm(old(run)) && Heard(old(run))
    {
      ghost var before := W();
      rows := rows[id := rows[id].(intent := Some(Delete), status := Deleting)];
      Note(before, Expire(id), Idle);
    }

    method ExpireIfDue(id: SandboxId)
      requires Valid() && pc.Idle? && id in rows && Swept(rows[id])
      modifies this
      ensures Valid() && Grew(old(Past())) && Calm(old(run)) && Heard(old(run)) && W() == ExpiredIfDue(old(W()), id)
      ensures rows[id].intent == if Expired(old(rows)[id], old(now)) then Some(Delete) else old(rows)[id].intent
    {
      if Expired(rows[id], now) {
        ExpireTransaction(id);
      }
    }

    /** GET of one container; a missing container is reported as such. */
    method Inspect(id: SandboxId) returns (o: Outcome)
      requires Valid() && pc.Idle? && id in rows && rows[id].intent.None? && rows[id].status != Deleted
      modifies this, adapter
      ensures Valid() && Grew(old(Past())) && rows == old(rows) && requests == old(requests) && refs == old(refs)
      ensures pc == if o.Ok? || o == Refused(404, "") then Observed(id, Actual(UnitOf(W(), id))) else Idle
      ensures old(now) <= now && (Heard(old(run)) <==> o.Ok? || o == Refused(404, ""))
      ensures adapter.faults == old(adapter.faults) ==> Heard(old(run))
      ensures Calm(old(run)) ==> Meanwhile(old(W()), W().(pc := Idle)) && (o.Ok? || o == Refused(404, ""))
    {
      Interfere();
      o := adapter.Describe(id);
      Note(W(), Inspected(id, o),
           if o.Ok? then Observed(id, Some(adapter.containers[id].running))
           else if o == Refused(404, "") then Observed(id, None)
           else Idle);
    }

    /** The first commit: the row says what the runtime said. */
    method RefreshTransaction(id: SandboxId)
      requires Valid() && CanRefresh(W(), id)
      modifies this
      ensures Valid() && W() == Refreshed(old(W()), id) && run == old(run) + [Refresh(id)]
      ensures Calm(old(run)) && Heard(old(run))
    {
      ghost var before := W();
      var row := rows[id];
      match pc.actual {
        case Some(running) => row := row.(status := if running then Running else Stopped, error := None);
        case None => row := row.(status := Error, error := Some(ContainerMissing));
      }
      rows := rows[id := row];
      Note(before, Refresh(id), if pc.actual == Some(false) then Releasing(id) else Idle);
    }

    /** The second commit: a stopped task gives up its processors and memory. */
    method ReleaseTransaction(id: SandboxId)
      requires Valid() && CanRelease(W(), id)
      modifies this
      ensures Valid() && W() == ReleasedNow(old(W()), id) && run == old(run) + [Release(id)]
      ensures Calm(old(run)) && Heard(old(run))
    {
      ghost var before := W();
      rows := rows[id := rows[id].(held := rows[id].held.(cpu := 0, memory := 0))];
      Note(before, Release(id), Idle);
    }

    /** Both commits. */
    method RefreshBoth(id: SandboxId)
      requires Valid() && CanRefresh(W(), id) && pc == Observed(id, Actual(UnitOf(W(), id)))
      modifies this
      ensures Valid() && Grew(old(Past())) && Calm(old(run)) && Heard(old(run)) && W() == LookedUp(old(W()), id)
      ensures pc.Idle? && requests == old(requests) && refs == old(refs) && now == old(now)
      ensures id in rows && rows == old(rows)[id := rows[id]] && rows[id].intent == old(rows)[id].intent
    {
      RefreshTransaction(id);
      if pc.Releasing? {
        ReleaseTransaction(id);
      }
    }

    /** Makes the row of a sandbox with nothing pending say what the runtime says. */
    method RefreshOne(id: SandboxId)
      requires Valid() && pc.Idle? && id in rows && rows[id].intent.None? && rows[id].status != Deleted
      modifies this, adapter
      ensures Valid() && pc.Idle? && Grew(old(Past())) && requests == old(requests) && refs == old(refs)
      ensures id in rows && rows == old(rows)[id := rows[id]] && rows[id].intent.None?
      ensures old(now) <= now && (Calm(old(run)) ==> Meanwhile(LookedUp(old(W()), id), W()))
      ensures adapter.faults == old(adapter.faults) ==> Heard(old(run))
    {
      ghost var w0 := W();
      var o := Inspect(id);
      if !o.Ok? && o != Refused(404, "") {
        assert rows == rows[id := rows[id]];
        return;
      }
      ghost var w1 := W();
      RefreshBoth(id);
      if Calm(old(run)) {
        LooksUp(w0, w1, id);
      }
    }

    /** Expires the sandbox if it is due and finishes what is pending. */
    method SettleDue(id: SandboxId) returns (o: Outcome)
      requires Valid() && pc.Idle? && id in rows && Swept(rows[id])
      modifies this, adapter
      ensures Valid() && pc.Idle? && Grew(old(Past())) && Touches(old(W()), W(), id)
      ensures o.Ok? ==> rows[id].intent.None?
      ensures o.Ok? && old(rows)[id].expiresAt.Some? && old(rows)[id].expiresAt.value <= old(now) ==>
                rows[id].status == Deleted
      ensures old(now) <= now && (Heard(old(run)) <==> o.Ok?)
      ensures Worked(old(Past())) && Finishable(old(CellOf(W(), id))) ==> o.Ok?
      ensures Calm(old(run)) ==> o.Ok? && Ends(ExpiredIfDue(old(W()), id), W(), id)
      ensures old(rows)[id].intent.None? && !Expired(old(rows)[id], old(now)) ==> W() == old(W())
    {
      ghost var w0 := W();
      ExpireIfDue(id);
      ghost var w1 := W();
      o := Converge(id);
      ExpiryTouches(w0, w1, W(), id);
    }

    /** The sweep's work on one sandbox: expire it if due, finish what is pending, then make the row
        say what the runtime says. If all is answered the sandbox ends up settled, and a sandbox
        that was settled already is left exactly as it was. */
    method SweepOne(id: SandboxId)
      requires Valid() && pc.Idle? && id in rows && Swept(rows[id])
      modifies this, adapter
      ensures Valid() && pc.Idle? && Grew(old(Past())) && Touches(old(W()), W(), id)
      ensures old(now) <= now && (Heard(old(run)) ==> rows[id].intent.None?)
      ensures Heard(old(run)) && old(rows)[id].expiresAt.Some? && old(rows)[id].expiresAt.value <= old(now) ==>
                rows[id].status == Deleted
      ensures Worked(old(Past())) && Finishable(old(CellOf(W(), id))) ==> Heard(old(run))
      ensures Calm(old(run)) ==> SweptWell(old(W()), W(), id)
    {
      ghost var w0 := W();
      Here(id);
      var o := SettleDue(id);
      ghost var w2 := W();
      if o.Ok? && rows[id].status != Deleted {
        RefreshOne(id);
        RefreshTouches(w0, w2, W(), id);
      }
      if Calm(old(run)) {
        forall j | j != id ensures RequestsOf(W(), j) == RequestsOf(w0, j) {
          TouchesKeys(w0, W(), id, j);
        }
        SweepsWell(w0, w2, W(), id);
      }
    }

    /** The loop below has come so far: `todo` is what is left of `ids`, the sweep began in `w0`. */
    ghost predicate SweepGoing(past: (seq<Event>, nat), w0: World, ids: set<SandboxId>, todo: set<SandboxId>)
      reads this, adapter
    {
      && Valid() && pc.Idle? && Grew(past) && rows.Keys == w0.rows.Keys && w0.now <= now
      && todo <= ids && todo <= w0.rows.Keys && SameOutside(w0.rows, rows, ids - todo)
      && (Heard(past.0) ==> Clearing(w0, rows, ids - todo))
      && (Worked(past) && AllFinishable(w0, ids) ==> Heard(past.0))
      && (Calm(past.0) ==> Sweeping(w0, W(), ids, todo))
    }

    method SweepNext(
      id: SandboxId, ghost past: (seq<Event>, nat), ghost w0: World, ghost ids: set<SandboxId>,
      ghost todo: set<SandboxId>)
      requires SweepGoing(past, w0, ids, todo) && id in todo && Swept(w0.rows[id])
      modifies this, adapter
      ensures SweepGoing(past, w0, ids, todo - {id})
    {
      ghost var w1 := W();
      if Calm(past.0) && AllFinishable(w0, ids) {
        NotYetSwept(w0, w1, ids, todo, id);
      }
      SweepOne(id);
      SweptRow(w0, w1, W(), ids, todo, id);
      if Calm(past.0) {
        SweptMore(w0, w1, W(), ids, todo, id);
      }
    }

    method SweepRows(ids: set<SandboxId>)
      requires Valid() && pc.Idle? && forall id | id in ids :: id in rows && Swept(rows[id])
      modifies this, adapter
      ensures Valid() && pc.Idle? && Grew(old(Past())) && rows.Keys == old(rows).Keys && old(now) <= now
      ensures SameOutside(old(rows), rows, ids)
      ensures Heard(old(run)) ==> Clearing(old(W()), rows, ids)
      ensures Worked(old(Past())) && AllFinishable(old(W()), ids) ==> Heard(old(run))
      ensures Calm(old(run)) ==> Sweeping(old(W()), W(), ids, {})
    {
      ghost var w0 := W();
      var todo := ids;
      while todo != {}
        invariant SweepGoing(old(Past()), w0, ids, todo)
        decreases todo
      {
        var id :| id in todo;
        SweepNext(id, old(Past()), w0, ids, todo);
        todo := todo - {id};
      }
      assert ids - todo == ids;
    }

    /** All rows that are not deleted, or still have work pending. */
    method SweepJournal() returns (ids: set<SandboxId>)
      requires Valid() && pc.Idle?
      modifies this, adapter
      ensures Valid() && pc.Idle? && Grew(old(Past())) && rows.Keys == old(rows).Keys && old(now) <= now
      ensures ids == set id | id in old(rows) && Swept(old(rows)[id])
      ensures Heard(old(run)) ==> Clearing(old(W()), rows, rows.Keys)
      ensures Worked(old(Past())) && AllFinishable(old(W()), ids) ==> Heard(old(run))
      ensures Calm(old(run)) ==> Sweeping(old(W()), W(), ids, {})
    {
      ghost var w0 := W();
      RowsHere();
      ids := set id | id in rows && Swept(rows[id]);
      SweepRows(ids);
      if Heard(old(run)) {
        NothingLeft(w0, W(), ids);
      }
    }

    /** DELETE for a container the journal does not account for, then its image reference. */
    method DeleteOrphan(id: SandboxId)
      requires Valid() && pc.Idle? && !Accounts(rows, id)
      modifies this, adapter
      ensures Valid() && pc.Idle? && Grew(old(Past())) && rows == old(rows) && requests == old(requests)
      ensures old(now) <= now
      ensures Calm(old(run)) ==>
                SameElsewhere(old(W()), W(), id) && CellOf(W(), id) == old(CellOf(W(), id)).(unit := Unit(None, None))
      ensures adapter.faults == old(adapter.faults) ==> Heard(old(run))
    {
      ghost var w0 := W();
      Here(id);
      Interfere();
      ghost var w1 := W();
      var o, after := ExchangeOrphan(id);
      if o.Ok? {
        ghost var before := W();
        refs := refs - {id};
        Note(before, OrphanReleased(id), Idle);
        if Calm(old(run)) {
          OrphanForgotten(w0, w1, id);
        }
      }
    }

    method ExchangeOrphan(id: SandboxId) returns (o: Outcome, after: Unit)
      requires Valid() && pc.Idle? && !Accounts(rows, id)
      modifies this, adapter
      ensures Effect(DeleteContainer, NOTHING, old(UnitOf(W(), id)), o, after)
      ensures Valid() && W() == OrphanCalled(old(W()), id, o, after) && run == old(run) + [OrphanDeleted(id, o, after)]
      ensures Troubles(run) == Troubles(old(run)) + (if o.Ok? then 0 else 1)
      ensures Lapses(run) == Lapses(old(run)) + (if o.Ok? then 0 else 1)
      ensures if o.Ok? then adapter.faults == old(adapter.faults) else adapter.faults > old(adapter.faults)
    {
      ghost var before, s := W(), adapter.S();
      o := adapter.Serve(DeleteContainer, id, NOTHING);
      after := UnitIn(adapter.S(), id);
      SeenAsWrite(s, adapter.S(), id);
      OrphanIsStep(before, id, o, after);
      Note(before, OrphanDeleted(id, o, after), if o.Ok? then OrphanGone(id) else Idle);
    }

    method SweepOrphans(suspects: set<SandboxId>)
      requires Valid() && pc.Idle?
      modifies this, adapter
      ensures Valid() && pc.Idle? && Grew(old(Past())) && rows == old(rows) && requests == old(requests)
      ensures old(now) <= now
      ensures Calm(old(run)) ==> OrphansGone(old(W()), W(), suspects)
      ensures (forall id | id in suspects :: Accounts(old(rows), id)) ==> W() == old(W())
      ensures adapter.faults == old(adapter.faults) ==> Heard(old(run))
    {
      ghost var w0 := W();
      var todo := suspects;
      while todo != {}
        invariant Valid() && pc.Idle? && Grew(old(Past())) && todo <= suspects && rows == w0.rows
        invariant requests == w0.requests && (adapter.faults == old(adapter.faults) ==> Heard(old(run)))
        invariant w0.now <= now && (Calm(old(run)) ==> Forgetting(w0, W(), suspects - todo))
        invariant (forall id | id in suspects :: Accounts(w0.rows, id)) ==> W() == w0
        decreases todo
      {
        var id :| id in todo;
        ghost var w1 := W();
        if !Accounts(rows, id) {
          DeleteOrphan(id);
        }
        if Calm(old(run)) {
          OrphansGoneExtends(w0, w1, W(), suspects - todo, id);
          assert suspects - (todo - {id}) == suspects - todo + {id};
        }
        todo := todo - {id};
      }
      assert suspects - todo == suspects;
      if Calm(old(run)) {
        assert OrphansGone(w0, W(), suspects);
      }
    }

    /** POST /reconcile: the adapter reclaims records that no container needs. */
    method AdapterReconcile()
      requires Valid() && pc.Idle?
      modifies this, adapter
      ensures Valid() && pc.Idle? && Grew(old(Past())) && rows == old(rows) && requests == old(requests)
      ensures old(now) <= now && (Calm(old(run)) ==> OnlyDrops(old(W()), W()))
      ensures adapter.faults == old(adapter.faults) ==> Heard(old(run))
    {
      ghost var w0 := W();
      Interfere();
      ghost var w1 := W();
      ghost var dropped := ExchangeReconcile();
      if Calm(old(run)) {
        DropsLater(w0, w1, dropped);
      }
    }

    method ExchangeReconcile() returns (ghost dropped: set<SandboxId>)
      requires Valid() && pc.Idle?
      modifies this, adapter
      ensures Valid() && Grew(old(Past())) && dropped !! old(adapter.containers).Keys
      ensures W() == old(W()).(quotas := QuotasOf(old(adapter.records)) - dropped)
      ensures adapter.faults == old(adapter.faults) ==> Heard(old(run))
    {
      ghost var w, records := W(), adapter.records;
      var o := adapter.ServeReconcile();
      dropped := records.Keys - adapter.records.Keys;
      DropsRecords(records, adapter.records);
      assert SweptOnce(w, AdapterSwept(o, dropped)) == w.(quotas := w.quotas - dropped);
      Note(w, AdapterSwept(o, dropped), Idle);
    }

    /** GET /containers. */
    method ListContainers() returns (o: Outcome, inventory: set<SandboxId>)
      requires Valid() && pc.Idle?
      modifies this, adapter
      ensures Valid() && pc.Idle? && Grew(old(Past())) && rows == old(rows) && requests == old(requests)
      ensures refs == old(refs)
      ensures o.Ok? ==> inventory == adapter.containers.Keys
      ensures old(now) <= now && (Heard(old(run)) <==> o.Ok?) && (Calm(old(run)) ==> o.Ok? && Meanwhile(old(W()), W()))
      ensures adapter.faults == old(adapter.faults) ==> o.Ok?
    {
      Interfere();
      o, inventory := adapter.List();
      Note(W(), Listed(o), Idle);
    }

    /** The sweep once it knows the inventory: the rows, the unaccounted containers, and then the adapter. */
    method SweepInventory(inventory: set<SandboxId>)
      requires Valid() && pc.Idle? && inventory == adapter.containers.Keys
      modifies this, adapter
      ensures Valid() && pc.Idle? && Grew(old(Past())) && rows.Keys == old(rows).Keys && old(now) <= now
      ensures Heard(old(run)) ==> Clearing(old(W()), rows, rows.Keys)
      ensures Calm(old(run)) ==> Converged(W())
      ensures Calm(old(run)) && Converged(old(W())) && AllRest(old(W()), old(rows).Keys, now) ==>
                OnlyDrops(old(W()), W())
      ensures Calm(old(run)) ==>
                forall id | Undue(old(W()), id, now) :: ViewOf(W(), id) == Finished(id, ViewOf(old(W()), id))
      ensures Worked(old(Past())) && AllFinishable(old(W()), old(rows).Keys) ==> Heard(old(run))
    {
      ghost var w0 := W();
      RowsHere();
      var ids := SweepJournal();
      ghost var w1 := W();
      SweepOrphans(inventory - ids);
      ghost var w2 := W();
      AdapterReconcile();
      if Calm(old(run)) {
        RowsHere();
        SweepWhole(w0, w1, w2, W(), ids, inventory);
      }
    }

    /** One sweep. If every call is answered, no intent is left. If also no container changes by itself,
        every status equals the runtime's or says that the container is missing, and no unaccounted
        container remains. A sweep over such a state, if nothing expires before it ends, changes no
        row, key, reference or container. And every operation that was on course, and whose sandbox
        does not expire before the end, is where it would be had it never been interrupted. */
    method Reconcile()
      requires Valid() && pc.Idle?
      modifies this, adapter
      ensures Valid() && pc.Idle? && Grew(old(Past())) && rows.Keys == old(rows).Keys && old(now) <= now
      ensures Heard(old(run)) ==> NonePending(rows, rows.Keys)
      // What had expired when the sweep began is deleted, and the runtime has nothing of it.
      ensures Heard(old(run)) ==>
                forall id | id in old(rows) && old(rows)[id].expiresAt.Some?
                            && old(rows)[id].expiresAt.value <= old(now) ::
                  rows[id].status == Deleted && UnitOf(W(), id) == Unit(None, None)
      ensures Calm(old(run)) ==> Converged(W())
      ensures Calm(old(run)) && Converged(old(W())) && AllRest(old(W()), old(rows).Keys, now) ==>
                OnlyDrops(old(W()), W())
      ensures Calm(old(run)) ==>
                forall id | Undue(old(W()), id, now) :: ViewOf(W(), id) == Finished(id, ViewOf(old(W()), id))
      // If nothing fails and all that is pending can be done, all calls are answered.
      ensures Worked(old(Past())) && AllFinishable(old(W()), old(rows).Keys) ==> Calm(old(run))
    {
      ghost var start := W();
      var o, inventory := ListContainers();
      if !o.Ok? {
        return;
      }
      ghost var w0 := W();
      SweepInventory(inventory);
      if Calm(old(run)) {
        SweepFromStart(start, w0, W());
      }
      if Heard(old(run)) {
        assert Cleared(w0, rows, rows.Keys);
      }
      Gone();
    }

    /** Crash equivalence of the sweep. The run up to `accepted` ended with an operation just accepted.
        Since then it was interrupted in any way, crashes included, and now one sweep is made. If all of
        it is answered, no container changes by itself and the sandbox does not expire before its end,
        the sandbox is exactly where every run that settles the operation takes it. */
    method SweepAfterCrashes(ghost accepted: nat, id: SandboxId)
      requires Valid() && pc.Idle? && Interrupted(budget, run, accepted, id)
      modifies this, adapter
      ensures Valid() && pc.Idle?
      ensures id in old(rows)
      ensures Calm(old(run)) && !Expired(old(rows)[id], now) ==> EndsLikeAll(budget, old(run)[..accepted], W(), id)
    {
      ghost var w := W();
      StaysUndue(budget, run, accepted, w, id);
      Reconcile();
      if Calm(old(run)) && !Expired(w.rows[id], now) {
        assert Undue(w, id, now);
        AllEndAlike(budget, old(run), accepted, w, W(), id);
      }
    }

    // ----- Admission -----

    /** The sum of one reservation column over the other sandboxes. */
    method Used(id: SandboxId, r: Resource) returns (total: nat)
      ensures total == Total(Held(rows - {id}, r))
    {
      var others := rows.Keys - {id};
      total := 0;
      var seen: map<SandboxId, nat> := map[];
      while others != {}
        invariant others <= rows.Keys - {id} && seen.Keys == rows.Keys - {id} - others
        invariant forall j | j in seen :: seen[j] == Amount(rows[j].held, r)
        invariant total == Total(seen)
        decreases others
      {
        var j :| j in others;
        TotalWrite(seen, j, Amount(rows[j].held, r));
        assert seen - {j} == seen;
        seen := seen[j := Amount(rows[j].held, r)];
        total := total + Amount(rows[j].held, r);
        others := others - {j};
      }
      assert seen == Held(rows - {id}, r);
    }

    /** Capacity admits a reservation exactly when it fits next to what all other rows hold. */
    method HasRoom(id: SandboxId, want: Limits) returns (ok: bool)
      ensures ok <==> Fits(budget, rows, id, want)
    {
      var cpu := Used(id, Cpu);
      var memory := Used(id, Memory);
      var disk := Used(id, Disk);
      ok := !(want.cpu > budget.cpu - cpu || want.memory > budget.memory - memory || want.disk > budget.disk - disk);
      assert Amount(want, Cpu) == want.cpu && Amount(want, Memory) == want.memory && Amount(want, Disk) == want.disk;
      assert Amount(budget, Cpu) == budget.cpu && Amount(budget, Memory) == budget.memory;
      assert Amount(budget, Disk) == budget.disk;
    }

    /** The checks of the create transaction, in its order. */
    method CheckCreate(id: SandboxId, config: Config, ttl: Option<nat>, use: Option<KeyUse>)
      returns (why: Option<Rejection>)
      requires pc.Idle? && KeyFree(W(), use) && id !in rows && id !in refs && UnitOf(W(), id) == Unit(None, None)
      ensures why.None? <==> CanAcceptCreate(W(), id, config, ttl, use)
      ensures why.Some? ==> RefusesCreate(W(), id, config, ttl, why.value)
    {
      if !ValidLimits(config) || (ttl.Some? && ttl.value == 0) {
        return Some(BadRequest);
      }
      if config.imageId.Some? {
        if config.imageId.value !in images {
          return Some(ImageUnknown);
        }
        if images[config.imageId.value] != Ready {
          return Some(ImageNotReady);
        }
      }
      var fits := HasRoom(id, config.limits);
      why := if fits then None else Some(InsufficientCapacity);
    }

    /** The create transaction: image reference, row, reservation and key commit together or not at all. */
    method CreateTransaction(id: SandboxId, config: Config, ttl: Option<nat>, use: Option<KeyUse>)
      returns (why: Option<Rejection>)
      requires Valid() && pc.Idle? && KeyFree(W(), use) && id !in rows && id !in refs
      requires UnitOf(W(), id) == Unit(None, None)
      modifies this
      ensures Valid() && (why.None? <==> CanAcceptCreate(old(W()), id, config, ttl, use))
      ensures why.None? ==>
                && W() == AcceptedCreate(old(W()), id, config, ttl, use)
                && run == old(run) + [AcceptCreate(id, config, ttl, use)]
      ensures why.Some? ==> W() == old(W()) && run == old(run) && RefusesCreate(W(), id, config, ttl, why.value)
      ensures Calm(old(run))
    {
      why := CheckCreate(id, config, ttl, use);
      if why.Some? {
        return;
      }
      CommitCreate(id, config, ttl, use);
    }

    method CommitCreate(id: SandboxId, config: Config, ttl: Option<nat>, use: Option<KeyUse>)
      requires Valid() && CanAcceptCreate(W(), id, config, ttl, use)
      modifies this
      ensures Valid() && W() == AcceptedCreate(old(W()), id, config, ttl, use)
      ensures run == old(run) + [AcceptCreate(id, config, ttl, use)]
      ensures Calm(old(run))
    {
      ghost var before := W();
      AcceptCreateStep(before, id, config, ttl, use);
      var expires := if ttl.Some? then Some(now + ttl.value) else None;
      refs := Put(refs, id, config.imageId);
      rows := rows[id := Row(config, Creating, Some(Create), expires, None, config.limits)];
      requests := WithKey(requests, use, id, Create);
      Note(before, AcceptCreate(id, config, ttl, use), Idle);
    }

    /** The checks of the transaction below, in its order. */
    method CheckAction(id: SandboxId, action: Action, use: Option<KeyUse>) returns (why: Option<Rejection>)
      requires pc.Idle? && KeyFree(W(), use) && action != Create
      ensures why.None? <==> CanAccept(W(), id, action, use)
      ensures why.Some? ==> RefusesAction(W(), id, action, why.value)
    {
      if id !in rows {
        return Some(UnknownSandbox);
      }
      if rows[id].intent.Some? && action != Delete {
        return Some(LifecyclePending);
      }
      if rows[id].status == Deleted && action != Delete {
        return Some(SandboxDeleted);
      }
      if action == Start || action == Restart {
        var fits := HasRoom(id, rows[id].config.limits);
        if !fits {
          return Some(InsufficientCapacity);
        }
      }
      why := None;
    }

    /** The transaction that records a new intent for an existing sandbox. */
    method AcceptTransaction(id: SandboxId, action: Action, use: Option<KeyUse>) returns (why: Option<Rejection>)
      requires Valid() && pc.Idle? && KeyFree(W(), use) && action != Create
      modifies this
      ensures Valid() && (why.None? <==> CanAccept(old(W()), id, action, use))
      ensures why.None? ==> W() == Accepted(old(W()), id, action, use) && run == old(run) + [Accept(id, action, use)]
      ensures why.Some? ==> W() == old(W()) && run == old(run) && RefusesAction(W(), id, action, why.value)
      ensures Calm(old(run))
    {
      why := CheckAction(id, action, use);
      if why.Some? {
        return;
      }
      var row := rows[id];
      if action == Start || action == Restart {
        row := row.(held := row.config.limits);
      }
      ghost var before := W();
      AcceptIsStep(before, id, action, use);
      rows := rows[id := row.(intent := Some(action), status := PendingStatus(action))];
      requests := WithKey(requests, use, id, action);
      Note(before, Accept(id, action, use), Idle);
    }

    // ----- Requests -----

    /** A retry of an accepted request that has no answer yet. Its sandbox always has work pending,
        so a retry whose convergence returns finds its answer stored. */
    method Retry(key: Key) returns (reply: Reply)
      requires Valid() && pc.Idle? && key in requests && requests[key].answer.None?
      modifies this, adapter
      ensures Valid() && pc.Idle? && Grew(old(Past())) && key in requests
      ensures requests[key] == old(requests)[key].(answer := requests[key].answer)
      ensures reply.Returned? ==> requests[key].answer == Some(Answer(200, reply.body))
      ensures !reply.KeyConflict? && !reply.Rejected? && rows.Keys == old(rows).Keys
      ensures Heard(old(run)) ==> reply.Returned?
      ensures old(requests)[key].sandbox in old(rows) && old(rows)[old(requests)[key].sandbox].intent.Some?
      ensures Worked(old(Past())) && Finishable(old(CellOf(W(), requests[key].sandbox))) ==> reply.Returned?
      ensures reply.Returned? ==> Retold(old(rows), old(requests)[key].sandbox, reply)
      ensures !reply.Returned? ==>
                (requests[key].answer.Some? <==>
                 reply.RuntimeFault? && old(rows)[old(requests)[key].sandbox].intent == Some(Create))
    {
      Invariant();
      var id := requests[key].sandbox;
      var o := Converge(id);
      if !o.Ok? {
        return Raised(o);
      }
      reply := Returned(requests[key].answer.value.body);
    }

    /** Carries out a request that was just accepted. What the caller gets is what is stored for its key. */
    method Carry(id: SandboxId, action: Action, use: Option<KeyUse>) returns (reply: Reply)
      requires Valid() && pc.Idle? && id in rows && rows[id].intent == Some(action)
      requires use.Some? ==> Get(requests, use.value.key) == Some(Request(use.value.fingerprint, id, action, None))
      modifies this, adapter
      ensures Valid() && pc.Idle? && Grew(old(Past())) && rows.Keys == old(rows).Keys && !reply.KeyConflict?
      ensures !reply.Rejected?
      ensures reply.Returned? ==> rows[id].intent.None? && reply.body == Doc(DocumentOf(id, rows[id]))
      ensures (use.Some? ==> use.value.key in requests) && Filed(requests, use, action == Create, reply)
      ensures reply.Returned? ==> Tells(reply, id, old(rows)[id].config, old(rows)[id].expiresAt, action)
      ensures old(now) <= now && (Heard(old(run)) ==> reply.Returned?)
      ensures Worked(old(Past())) && Able(action, old(UnitOf(W(), id))) ==> reply.Returned?
    {
      var o := Converge(id);
      if !o.Ok? {
        return Raised(o);
      }
      reply := Returned(Doc(DocumentOf(id, rows[id])));
    }

    /** Looks every container of the inventory up in the journal. */
    method Accounted(inventory: set<SandboxId>) returns (ok: bool)
      ensures ok <==> forall id | id in inventory :: Accounts(rows, id)
    {
      var todo := inventory;
      while todo != {}
        invariant todo <= inventory && forall id | id in inventory - todo :: Accounts(rows, id)
        decreases todo
      {
        var id :| id in todo;
        if !(id in rows && rows[id].status != Deleted) {
          return false;
        }
        todo := todo - {id};
      }
      ok := true;
    }

    /** New work waits until the journal accounts for every container of the runtime. */
    method CheckInventory() returns (refusal: Option<Reply>)
      requires Valid() && pc.Idle?
      modifies this, adapter
      ensures Valid() && pc.Idle? && Grew(old(Past())) && rows == old(rows) && requests == old(requests)
      ensures refs == old(refs)
      ensures refusal.Some? ==>
                refusal.value.Unreachable? || refusal.value.RuntimeFault? || refusal.value == Rejected(Unaccounted)
      ensures refusal.None? ==> AllAccounted(W())
      ensures refusal == Some(Rejected(Unaccounted)) ==> !AllAccounted(W())
      ensures Heard(old(run)) ==> refusal.None? || refusal == Some(Rejected(Unaccounted))
      ensures old(now) <= now && (Calm(old(run)) ==> Heard(old(run)) && Meanwhile(old(W()), W()))
      ensures adapter.faults == old(adapter.faults) ==> Heard(old(run))
    {
      var o, inventory := ListContainers();
      if !o.Ok? {
        return Some(Raised(o));
      }
      var known := Accounted(inventory);
      refusal := if known then None else Some(Rejected(Unaccounted));
    }

    /** A lifecycle request. `newId` is the identifier a create would use. */
    method Handle(order: Order, use: Option<KeyUse>, newId: SandboxId) returns (reply: Reply)
      requires Valid() && pc.Idle? && newId !in rows
      modifies this, adapter
      ensures Valid() && pc.Idle? && Grew(old(Past())) && rows.Keys <= old(rows).Keys + {newId}
      // A key that was used for a different request is refused, and nothing happens.
      ensures use.Some? && ValidKey(use.value.key) && use.value.key in old(requests)
              && old(requests)[use.value.key].fingerprint != use.value.fingerprint ==>
                reply == KeyConflict && run == old(run) && W() == old(W())
      ensures reply.KeyConflict? ==>
                && use.Some? && use.value.key in old(requests)
                && old(requests)[use.value.key].fingerprint != use.value.fingerprint
      // An answered key is replayed without touching the journal or the runtime.
      ensures use.Some? && ValidKey(use.value.key) && use.value.key in old(requests)
              && old(requests)[use.value.key].fingerprint == use.value.fingerprint
              && old(requests)[use.value.key].answer.Some? ==>
                reply == Replayed(old(requests)[use.value.key].answer.value) && run == old(run) && W() == old(W())
      // A reply that was returned under a key is the reply every replay will return.
      ensures use.Some? && reply.Returned? ==>
                && use.value.key in requests && requests[use.value.key].fingerprint == use.value.fingerprint
                && requests[use.value.key].answer.Some? && Replayed(requests[use.value.key].answer.value) == reply
      // A definitive failure of a new create is stored as the answer of its key.
      ensures use.Some? && order.NewSandbox? && reply.RuntimeFault?
              && use.value.key !in old(requests) && use.value.key in requests ==>
                && requests[use.value.key].fingerprint == use.value.fingerprint
                && requests[use.value.key].answer == Some(Answer(reply.code, reply.body))
      // A refused request leaves no trace in the lifecycle tables.
      ensures reply.KeyConflict? || reply.Rejected? ==>
                rows == old(rows) && requests == old(requests) && refs == old(refs)
      // What the refusal says is so, and a malformed key is refused for that alone.
      ensures reply.Rejected? && reply.why != BadKey && reply.why != Unaccounted ==>
                Refuses(W(), order, newId, reply.why)
      ensures reply == Rejected(Unaccounted) ==>
                KeyFree(old(W()), use) && NeedsRoom(order) && (!AllAccounted(W()) || Known(W(), order, newId))
      ensures reply == Rejected(BadKey) <==>
                use.Some? && !(1 <= |use.value.key.text| <= 200
                               && forall i | 0 <= i < |use.value.key.text| ::
                                    33 as char <= use.value.key.text[i] <= 126 as char)
      // A failure is stored under a new key exactly when it is the definitive refusal of a create.
      ensures use.Some? && ValidKey(use.value.key) && use.value.key !in old(requests) && !reply.Returned? ==>
                (Stored(requests, use.value.key) <==>
                 use.value.key in requests && reply.RuntimeFault? && order.NewSandbox?)
      // A new request that returns gives the sandbox that was asked for, in the status that was asked for.
      ensures reply.Returned? && KeyFree(old(W()), use) ==> EndsAsAsked(order, newId, old(rows), old(now), now, reply)
      // A retry that returns gives the sandbox of the first request.
      ensures use.Some? && reply.Returned? && Waiting(old(requests), use.value.key) ==>
                Retold(old(rows), old(requests)[use.value.key].sandbox, reply)
      // It returns if every call is answered, or if nothing fails and the runtime has what is needed.
      ensures use.Some? && ValidKey(use.value.key) && Waiting(old(requests), use.value.key)
              && old(requests)[use.value.key].fingerprint == use.value.fingerprint
              && (Heard(old(run))
                  || (Worked(old(Past())) && Finishable(old(CellOf(W(), requests[use.value.key].sandbox))))) ==>
                reply.Returned?
      // If every call is answered, a request that is not refused returns.
      ensures Heard(old(run)) && KeyFree(old(W()), use) && !reply.Rejected? ==> reply.Returned?
      // So it does if nothing fails and the runtime has what the order needs.
      ensures Worked(old(Past())) && Feasible(old(W()), order) && KeyFree(old(W()), use) && !reply.Rejected? ==>
                reply.Returned?
    {
      if use.Some? {
        var key := use.value.key;
        if !ValidKey(key) {
          return Rejected(BadKey);
        }
        if key in requests {
          if requests[key].fingerprint != use.value.fingerprint {
            return KeyConflict;
          }
          if requests[key].answer.Some? {
            return Replayed(requests[key].answer.value);
          }
          reply := Retry(key);
          return;
        }
      }
      reply := Admit(order, use, newId);
    }

    /** A request whose key, if any, has not been seen before. It changes the tables only by being
        accepted. Undisturbed, new work is refused as unaccounted exactly when the runtime has a
        container that the journal does not account for, or knows the identifier already. */
    method Admit(order: Order, use: Option<KeyUse>, newId: SandboxId) returns (reply: Reply)
      requires Valid() && pc.Idle? && KeyFree(W(), use) && newId !in rows
      modifies this, adapter
      ensures Valid() && pc.Idle? && Grew(old(Past())) && !reply.KeyConflict? && rows.Keys <= old(rows).Keys + {newId}
      ensures AcceptedSince(old(run), run) || (rows == old(rows) && requests == old(requests) && refs == old(refs))
      ensures Filed(requests, use, order.NewSandbox?, reply)
      ensures reply.Rejected? ==> rows == old(rows) && requests == old(requests) && refs == old(refs)
      ensures reply.Rejected? && reply.why != Unaccounted ==> Refuses(W(), order, newId, reply.why)
      ensures reply.Returned? ==> EndsAsAsked(order, newId, old(rows), old(now), now, reply)
      ensures old(now) <= now && (Heard(old(run)) && !reply.Rejected? ==> reply.Returned?)
      ensures Worked(old(Past())) && Feasible(old(W()), order) && !reply.Rejected? ==> reply.Returned?
      ensures reply == Rejected(Unaccounted) ==> NeedsRoom(order) && (!AllAccounted(W()) || Known(W(), order, newId))
      ensures NeedsRoom(order) && Calm(old(run)) && (!AllAccounted(old(W())) || Known(old(W()), order, newId)) ==>
                reply == Rejected(Unaccounted)
    {
      if order.Existing? && order.action == Create {
        return Rejected(BadRequest);
      }
      if NeedsRoom(order) {
        var refusal := CheckInventory();
        if refusal.Some? {
          return refusal.value;
        }
      }
      reply := Enter(order, use, newId);
    }

    /** The transaction of an order, and the sandbox and action that it leaves to be carried out. */
    method CommitOrder(order: Order, use: Option<KeyUse>, newId: SandboxId)
      returns (why: Option<Rejection>, id: SandboxId, action: Action)
      requires Valid() && pc.Idle? && KeyFree(W(), use) && newId !in rows
      requires order.Existing? ==> order.action != Create
      modifies this
      ensures Valid() && pc.Idle? && Calm(old(run)) && Heard(old(run)) && old(run) <= run && now == old(now)
      ensures why.None? <==> Admissible(old(W()), order, use, newId)
      ensures why == Some(Unaccounted) <==> Known(old(W()), order, newId)
      ensures why.Some? ==> W() == old(W()) && (why.value == Unaccounted || Refuses(W(), order, newId, why.value))
      ensures why.None? ==>
                && AcceptedSince(old(run), run) && id == (if order.NewSandbox? then newId else order.id)
                && action == (if order.NewSandbox? then Create else order.action)
                && rows.Keys == old(rows).Keys + {id} && Written(order, old(rows), now, id, rows[id])
                && (use.Some? ==>
                      Get(requests, use.value.key) == Some(Request(use.value.fingerprint, id, action, None)))
    {
      id, action := newId, Create;
      match order {
        case NewSandbox(config, ttl) =>
          Here(newId);
          if UnitOf(W(), newId) != Unit(None, None) {
            return Some(Unaccounted), id, action;
          }
          why := CreateTransaction(newId, config, ttl, use);
          if why.None? {
            WasAccepted(old(run), AcceptCreate(newId, config, ttl, use), run);
          }
        case Existing(sandbox, wanted) =>
          id, action := sandbox, wanted;
          why := AcceptTransaction(id, action, use);
          if why.None? {
            WasAccepted(old(run), Accept(id, action, use), run);
          }
      }
    }

    /** Past the inventory: the intent transaction, and the work. */
    method Enter(order: Order, use: Option<KeyUse>, newId: SandboxId) returns (reply: Reply)
      requires Valid() && pc.Idle? && KeyFree(W(), use) && newId !in rows
      requires (order.Existing? ==> order.action != Create)
      modifies this, adapter
      ensures Valid() && pc.Idle? && Grew(old(Past())) && !reply.KeyConflict? && rows.Keys <= old(rows).Keys + {newId}
      ensures AcceptedSince(old(run), run) || (rows == old(rows) && requests == old(requests) && refs == old(refs))
      ensures Filed(requests, use, order.NewSandbox?, reply)
      ensures reply.Rejected? <==> !Admissible(old(W()), order, use, newId)
      ensures reply.Rejected? ==> W() == old(W()) && (reply.why == Unaccounted || Refuses(W(), order, newId, reply.why))
      ensures reply.Returned? ==> EndsAsAsked(order, newId, old(rows), old(now), now, reply)
      ensures old(now) <= now && (Heard(old(run)) && !reply.Rejected? ==> reply.Returned?)
      ensures Worked(old(Past())) && Feasible(old(W()), order) && !reply.Rejected? ==> reply.Returned?
      ensures reply == Rejected(Unaccounted) <==> Known(old(W()), order, newId)
    {
      var why, id, action := CommitOrder(order, use, newId);
      if why.Some? {
        return Rejected(why.value);
      }
      ghost var accepted := run;
      reply := Carry(id, action, use);
      AcceptedBefore(old(run), accepted, run);
    }

    /** A create under a new key, and then the same request again. The second caller gets what the
        first one got; if the create was accepted and the runtime refused it definitively, that is so
        exactly when its status is an error status. */
    method CreateTwice(config: Config, ttl: Option<nat>, use: KeyUse, newId: SandboxId, otherId: SandboxId)
      returns (first: Reply, stored: bool, second: Reply)
      requires Valid() && pc.Idle? && newId !in rows && otherId !in rows && otherId != newId
      requires ValidKey(use.key) && use.key !in requests
      modifies this, adapter
      ensures Valid() && pc.Idle?
      ensures first.Returned? ==> second == first
      ensures first.RuntimeFault? && stored ==> (second == first <==> first.code >= 400)
    {
      first := Handle(NewSandbox(config, ttl), Some(use), newId);
      stored := use.key in requests;
      second := Handle(NewSandbox(config, ttl), Some(use), otherId);
    }

    /** Any history of requests, sweeps, idle time and kills between them. For kills within them see
        `DiskBoundThroughout`. */
    method Operate(work: seq<Work>)
      requires Valid() && pc.Idle?
      modifies this, adapter
      ensures Valid() && pc.Idle? && Bounded(budget, adapter.S(), rows.Keys)
    {
      for i := 0 to |work|
        invariant Valid() && pc.Idle?
      {
        match work[i]
        case Ask(order, use, newId) =>
          if newId !in rows {
            var reply := Handle(order, use, newId);
          }
        case Sweep => Reconcile();
        case Wait => Interfere();
        case Kill => Reboot();
      }
      DiskBound();
    }

    // ----- The image store -----

    method SubmitImage(image: ImageId)
      requires Valid() && image !in images
      modifies this
      ensures Valid() && W() == old(W()).(images := old(images)[image := Building], builds := old(builds) + {image})
    {
      Pass(ImageSubmitted(image));
    }

    /** The build worker's last act: READY if the build succeeded, ERROR if it did not. */
    method FinishBuild(image: ImageId, succeeded: bool)
      requires Valid() && image in builds
      modifies this
      ensures Valid() && pc == old(pc) && builds == old(builds) - {image}
      ensures images == old(images)[image := if succeeded then Ready else BuildError]
      ensures rows == old(rows) && requests == old(requests) && refs == old(refs)
    {
      Invariant();
      assert image in images && images[image] == Building;
      Pass(if succeeded then ImageReady(image) else ImageFailed(image));
    }

    /** After a restart no worker is left, so no build can still be under way. */
    method InterruptBuilds()
      requires Valid() && builds == {}
      modifies this
      ensures Valid() && pc == old(pc) && images.Keys == old(images).Keys
      ensures forall i | i in images ::
                images[i] != Building && images[i] == if old(images)[i] == Building then BuildError else old(images)[i]
      ensures rows == old(rows) && requests == old(requests) && refs == old(refs)
    {
      Pass(BuildsInterrupted);
    }

    /** A deletion is refused for an unknown image, for an active build, and while a sandbox still
        references the image. */
    method BeginImageDelete(image: ImageId) returns (ok: bool)
      requires Valid()
      modifies this
      ensures Valid() && pc == old(pc) && rows == old(rows) && requests == old(requests) && refs == old(refs)
      ensures ok <==> image in old(images) && old(images)[image] != Building && image !in old(refs).Values
      ensures ok ==>
                images == old(images)[image := if old(images)[image] == ImageGone then ImageGone else ImageDeleting]
      ensures !ok ==> W() == old(W()) && run == old(run)
    {
      ok := image in images && images[image] != Building && image !in refs.Values;
      if ok {
        Pass(ImageDeleteBegun(image));
      }
    }

    method FinishImageDelete(image: ImageId)
      requires Valid() && image in removals
      modifies this
      ensures Valid() && pc == old(pc) && images == old(images)[image := ImageGone]
      ensures rows == old(rows) && requests == old(requests) && refs == old(refs)
      ensures image !in refs.Values
    {
      Invariant();
      assert image in images;
      Pass(ImageDeleted(image));
      Invariant();
    }
  }
}
