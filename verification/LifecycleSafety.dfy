/** What every reachable state of the lifecycle satisfies. */
module LifecycleSafety {
  import opened Options
  import opened Totals
  import opened Lifecycle

  // ----- The invariant, table by table -----

  /** The three reservation sums stay within the budget. */
  ghost predicate WithinBudget(w: World) {
    forall r :: Total(Held(w.rows, r)) <= Amount(w.budget, r)
  }

  /** A row has no intent exactly when its status is a settled one. */
  predicate IntentMatchesStatus(row: Row) {
    match row.intent
    case None => row.status in {Running, Stopped, Error, Deleted}
    case Some(Create) => row.status == Creating
    case Some(Start) => row.status in {Starting, Stopping}
    case Some(Stop) => row.status == Stopping
    case Some(Restart) => row.status == Stopping
    case Some(Delete) => row.status == Deleting
  }

  /** The reservation table of the resource documentation, by status. */
  predicate HeldMatchesStatus(row: Row) {
    var full := row.config.limits;
    && ((row.held.cpu == full.cpu && row.held.memory == full.memory) || (row.held.cpu == 0 && row.held.memory == 0))
    && row.held.disk in {full.disk, 0}
    && (row.status == Running || row.intent in {Some(Create), Some(Start), Some(Restart)} ==> row.held == full)
    && (row.status == Deleted ==> row.held == NOTHING)
    && (row.status !in {Deleted, Deleting} ==> row.held.disk == full.disk)
  }

  /** What the runtime holds for a journalled sandbox is paid for and pins its image. */
  predicate UnitCovered(row: Row, unit: Unit, ref: Option<ImageId>) {
    var full := row.config.limits;
    && (unit.container.Some? ==>
          && unit.container.value.limits == full
          && unit.quota == Some(full.disk)
          && (unit.container.value.running ==> row.held == full)
          && (row.config.imageId.Some? ==> ref == row.config.imageId))
    && (unit.quota.Some? ==> unit.quota.value == full.disk == row.held.disk)
    && (row.status == Deleted ==> unit == Unit(None, None) && ref.None?)
    && (row.status !in {Deleted, Deleting} ==> ref == row.config.imageId)
  }

  predicate RowOk(row: Row, unit: Unit, ref: Option<ImageId>) {
    IntentMatchesStatus(row) && HeldMatchesStatus(row) && UnitCovered(row, unit, ref) && ValidLimits(row.config)
  }

  ghost predicate RowsOk(w: World) {
    && w.refs.Keys <= w.rows.Keys
    && forall id | id in w.rows :: RowOk(w.rows[id], UnitOf(w, id), Get(w.refs, id))
  }

  /** An unanswered key belongs to a sandbox that still has work pending. */
  ghost predicate RequestsOk(w: World) {
    forall k | k in w.requests ::
      && w.requests[k].sandbox in w.rows
      && (w.requests[k].answer.None? ==> w.rows[w.requests[k].sandbox].intent.Some?)
  }

  ghost predicate ImagesOk(w: World) {
    && (forall id | id in w.refs :: Get(w.images, w.refs[id]) == Some(Ready))
    && (forall i | i in w.builds :: Get(w.images, i) == Some(Building))
    && (forall i | i in w.removals :: Get(w.images, i) in {Some(ImageDeleting), Some(ImageGone)})
  }

  predicate PhaseOk(intent: Action, phase: Phase) {
    match intent
    case Create => phase in {AtCreate, AtStart, AtSettle}
    case Start => phase in {AtStart, AtSettle}
    case Stop => phase in {AtStop, AtSettle}
    case Restart => phase in {AtStop, AtBoundary, AtStart, AtSettle}
    case Delete => phase in {AtDelete, AtSettle}
  }

  /** The journalled intent while the process is at `phase`: a restart past its boundary is a start. */
  function IntentAt(intent: Action, phase: Phase): Action {
    if intent == Restart && phase in {AtStart, AtSettle} then Start else intent
  }

  predicate Halting(unit: Unit) {
    unit.container.Some? ==> !unit.container.value.running
  }

  /** What the API process already knows, at its current step, about the sandbox it works on. */
  predicate PcKnows(pc: Pc, row: Option<Row>, unit: Unit) {
    match pc
    case Idle => true
    case Driving(id, intent, phase) =>
      && row.Some? && PhaseOk(intent, phase) && row.value.intent == Some(IntentAt(intent, phase))
      && (intent == Stop && phase == AtSettle ==> Halting(unit))
      && (intent == Delete && phase == AtSettle ==> unit == Unit(None, None))
    case Failing(id, intent, outcome) =>
      row.Some? && row.value.intent.Some? && (intent == Create ==> row.value.intent == Some(Create))
    case Compensating(id, code, body) => row.Some? && row.value.intent == Some(Create)
    case Observed(id, actual) =>
      && row.Some? && row.value.intent.None? && row.value.status != Deleted
      && (actual == Some(true) ==> row.value.held == row.value.config.limits)
      && (actual == Some(false) ==> Halting(unit))
    case Releasing(id) => row.Some? && row.value.intent.None? && row.value.status == Stopped && Halting(unit)
    case OrphanGone(id) => unit == Unit(None, None) && (row.Some? ==> row.value.status == Deleted)
  }

  predicate PcOk(w: World) {
    w.pc.Idle? || PcKnows(w.pc, Get(w.rows, w.pc.id), UnitOf(w, w.pc.id))
  }

  ghost predicate Inv(w: World) {
    WithinBudget(w) && RowsOk(w) && RequestsOk(w) && ImagesOk(w) && PcOk(w)
  }

  // ----- Reservation sums under single-row writes -----

  lemma HeldWrite(rows: map<SandboxId, Row>, id: SandboxId, row: Row, r: Resource)
    ensures Total(Held(rows[id := row], r)) == Amount(row.held, r) + Total(Held(rows - {id}, r))
  {
    var rest := Held(rows - {id}, r);
    TotalWrite(rest, id, Amount(row.held, r));
    assert Held(rows[id := row], r) == rest[id := Amount(row.held, r)];
    assert rest - {id} == rest;
  }

  /** Admission is exact: a reservation fits exactly when the table with it written stays within the
      three budgets. */
  lemma FitsExact(budget: Limits, rows: map<SandboxId, Row>, id: SandboxId, row: Row)
    ensures Fits(budget, rows, id, row.held)
       <==> forall r :: Total(Held(rows[id := row], r)) <= Amount(budget, r)
  {
    forall r ensures Total(Held(rows[id := row], r)) == Amount(row.held, r) + Total(Held(rows - {id}, r)) {
      HeldWrite(rows, id, row, r);
    }
  }

  ghost predicate NoMore(a: Limits, b: Limits) {
    forall r :: Amount(a, r) <= Amount(b, r)
  }

  /** A row may be written when it reserves no more than before, or when what it reserves fits. */
  ghost predicate Affordable(w: World, id: SandboxId, held: Limits) {
    (id in w.rows && NoMore(held, w.rows[id].held)) || Fits(w.budget, w.rows, id, held)
  }

  lemma WriteBudget(w: World, id: SandboxId, row: Row)
    requires WithinBudget(w) && Affordable(w, id, row.held)
    ensures WithinBudget(w.(rows := w.rows[id := row]))
  {
    forall r ensures Total(Held(w.rows[id := row], r)) <= Amount(w.budget, r) {
      HeldWrite(w.rows, id, row, r);
      if id in w.rows {
        HeldWrite(w.rows, id, w.rows[id], r);
        assert w.rows[id := w.rows[id]] == w.rows;
      }
      assert Amount(row.held, r) >= 0;
    }
  }

  // ----- Local reasoning: a step that writes the tables of one sandbox -----

  /** All that is stored about one sandbox. */
  datatype Cell = Cell(row: Option<Row>, unit: Unit, ref: Option<ImageId>)

  predicate CellOk(c: Cell) {
    if c.row.Some? then RowOk(c.row.value, c.unit, c.ref) else c.ref.None?
  }

  function CellOf(w: World, id: SandboxId): Cell {
    Cell(Get(w.rows, id), UnitOf(w, id), Get(w.refs, id))
  }

  function Write(w: World, id: SandboxId, c: Cell, requests: map<Key, Request>, pc: Pc): World {
    World(w.budget, Put(w.rows, id, c.row), requests, w.images, Put(w.refs, id, c.ref),
          Put(w.containers, id, c.unit.container), Put(w.quotas, id, c.unit.quota), w.now, w.builds, w.removals, pc)
  }

  lemma WriteCells(w: World, id: SandboxId, c: Cell, requests: map<Key, Request>, pc: Pc, j: SandboxId)
    ensures CellOf(Write(w, id, c, requests, pc), j) == if j == id then c else CellOf(w, j)
  {
  }

  ghost predicate CellsOk(w: World) {
    forall j :: CellOk(CellOf(w, j))
  }

  lemma CellsAreRows(w: World)
    ensures CellsOk(w) <==> RowsOk(w)
  {
    if RowsOk(w) {
      forall j ensures CellOk(CellOf(w, j)) { }
    }
    if CellsOk(w) {
      forall j | j in w.rows ensures RowOk(w.rows[j], UnitOf(w, j), Get(w.refs, j)) {
        assert CellOk(CellOf(w, j));
      }
      forall j | j in w.refs ensures j in w.rows {
        assert CellOk(CellOf(w, j));
      }
    }
  }

  lemma WriteRows(w: World, id: SandboxId, c: Cell, requests: map<Key, Request>, pc: Pc)
    requires RowsOk(w) && CellOk(c)
    ensures RowsOk(Write(w, id, c, requests, pc))
  {
    CellsAreRows(w);
    var w' := Write(w, id, c, requests, pc);
    forall j ensures CellOk(CellOf(w', j)) {
      WriteCells(w, id, c, requests, pc, j);
      assert CellOk(CellOf(w, j));
    }
    CellsAreRows(w');
  }

  /** Keys of other sandboxes are untouched; keys of this one are answered or have work pending. */
  ghost predicate RequestsFollow(w: World, id: SandboxId, row: Option<Row>, requests: map<Key, Request>) {
    forall k | k in requests ::
      || (requests[k].sandbox != id && k in w.requests && requests[k] == w.requests[k])
      || (requests[k].sandbox == id && row.Some? && (requests[k].answer.Some? || row.value.intent.Some?))
  }

  lemma WriteRequests(w: World, id: SandboxId, c: Cell, requests: map<Key, Request>, pc: Pc)
    requires RequestsOk(w) && RequestsFollow(w, id, c.row, requests)
    ensures RequestsOk(Write(w, id, c, requests, pc))
  {
  }

  lemma WriteImages(w: World, id: SandboxId, c: Cell, requests: map<Key, Request>, pc: Pc)
    requires ImagesOk(w) && (c.ref.Some? ==> c.ref == Get(w.refs, id) || Get(w.images, c.ref.value) == Some(Ready))
    ensures ImagesOk(Write(w, id, c, requests, pc))
  {
  }

  /** Rewriting one sandbox keeps the invariant when the new contents are locally consistent. */
  lemma WriteKeeps(w: World, id: SandboxId, c: Cell, requests: map<Key, Request>, pc: Pc)
    requires Inv(w) && CellOk(c)
    requires if c.row.Some? then Affordable(w, id, c.row.value.held) else id !in w.rows
    requires RequestsFollow(w, id, c.row, requests)
    requires c.ref.Some? ==> c.ref == Get(w.refs, id) || Get(w.images, c.ref.value) == Some(Ready)
    requires pc.Idle? || (pc.id == id && PcKnows(pc, c.row, c.unit)) || (pc == w.pc && pc.id != id)
    ensures Inv(Write(w, id, c, requests, pc))
  {
    var w' := Write(w, id, c, requests, pc);
    if c.row.Some? {
      WriteBudget(w, id, c.row.value);
    } else {
      assert w'.rows == w.rows;
    }
    WriteRows(w, id, c, requests, pc);
    WriteRequests(w, id, c, requests, pc);
    WriteImages(w, id, c, requests, pc);
    if !pc.Idle? {
      WriteCells(w, id, c, requests, pc, pc.id);
    }
  }

  lemma KeysUntouched(w: World, id: SandboxId, row: Row)
    requires RequestsOk(w) && id in w.rows
    requires row.intent.Some? || row.intent == w.rows[id].intent
    ensures RequestsFollow(w, id, Some(row), w.requests)
  {
  }

  lemma KeysAnswered(w: World, id: SandboxId, row: Row, answer: Answer)
    requires RequestsOk(w)
    ensures RequestsFollow(w, id, Some(row), Answered(w.requests, id, answer))
  {
  }

  lemma KeyAdded(w: World, id: SandboxId, row: Row, use: Option<KeyUse>, action: Action)
    requires RequestsOk(w) && row.intent.Some?
    ensures RequestsFollow(w, id, Some(row), WithKey(w.requests, use, id, action))
  {
  }

  lemma CellHere(w: World, id: SandboxId)
    requires RowsOk(w)
    ensures CellOk(CellOf(w, id))
  {
  }

  lemma Unwritten(w: World, id: SandboxId)
    ensures Put(w.rows, id, Get(w.rows, id)) == w.rows
    ensures Put(w.refs, id, Get(w.refs, id)) == w.refs
    ensures Put(w.containers, id, Get(w.containers, id)) == w.containers
    ensures Put(w.quotas, id, Get(w.quotas, id)) == w.quotas
  {
  }

  // ----- Each kind of step keeps the invariant -----

  lemma AcceptCreateKeeps(w: World, id: SandboxId, config: Config, ttl: Option<nat>, use: Option<KeyUse>)
    requires Inv(w) && CanAcceptCreate(w, id, config, ttl, use)
    ensures Inv(AcceptedCreate(w, id, config, ttl, use))
  {
    var c := Cell(Some(CreatedRow(w, config, ttl)), Unit(None, None), config.imageId);
    KeyAdded(w, id, c.row.value, use, Create);
    Unwritten(w, id);
    WriteKeeps(w, id, c, WithKey(w.requests, use, id, Create), Idle);
  }

  lemma AcceptKeeps(w: World, id: SandboxId, action: Action, use: Option<KeyUse>)
    requires Inv(w) && CanAccept(w, id, action, use)
    ensures Inv(Accepted(w, id, action, use))
  {
    var c := CellOf(w, id).(row := Some(AcceptedRow(w.rows[id], action)));
    CellHere(w, id);
    KeyAdded(w, id, c.row.value, use, action);
    Unwritten(w, id);
    WriteKeeps(w, id, c, WithKey(w.requests, use, id, action), Idle);
  }

  /** What a runtime call does to a sandbox with work pending is covered by its reservation. */
  lemma CallLocal(pc: Pc, c: Cell, verb: Verb, outcome: Outcome, after: Unit)
    requires pc.Driving? && VerbAt(pc.phase, verb) && c.row.Some? && CellOk(c) && PcKnows(pc, c.row, c.unit)
    requires Effect(verb, c.row.value.config.limits, c.unit, outcome, after)
    ensures CellOk(c.(unit := after))
    ensures outcome.Ok? ==> PcKnows(Driving(pc.id, pc.intent, PhaseAfter(pc.intent, pc.phase)), c.row, after)
    ensures !outcome.Ok? ==> PcKnows(Failing(pc.id, pc.intent, outcome), c.row, after)
  {
  }

  lemma CallKeeps(w: World, id: SandboxId, verb: Verb, outcome: Outcome, after: Unit)
    requires Inv(w) && CanCall(w, id, verb, outcome, after)
    ensures Inv(CallMade(w, id, outcome, after))
  {
    var c := CellOf(w, id);
    CellHere(w, id);
    CallLocal(w.pc, c, verb, outcome, after);
    KeysUntouched(w, id, w.rows[id]);
    Unwritten(w, id);
    WriteKeeps(w, id, c.(unit := after), w.requests, CallMade(w, id, outcome, after).pc);
  }

  lemma SettleLocal(pc: Pc, c: Cell)
    requires pc.Driving? && pc.phase == AtSettle && CellOk(c) && PcKnows(pc, c.row, c.unit)
    ensures
      var row := SettledRow(c.row.value, pc.intent);
      && CellOk(Cell(Some(row), c.unit, if row.status == Deleted then None else c.ref))
      && NoMore(row.held, c.row.value.held)
  {
  }

  lemma SettleKeeps(w: World, id: SandboxId)
    requires Inv(w) && CanSettle(w, id)
    ensures Inv(Settled(w, id))
  {
    var c := CellOf(w, id);
    var row := SettledRow(w.rows[id], w.pc.intent);
    var answer := Answer(200, Doc(DocumentOf(id, row)));
    CellHere(w, id);
    SettleLocal(w.pc, c);
    KeysAnswered(w, id, row, answer);
    Unwritten(w, id);
    WriteKeeps(w, id, Cell(Some(row), c.unit, if row.status == Deleted then None else c.ref),
               Answered(w.requests, id, answer), Idle);
  }

  /** A step that rewrites the row of one sandbox without raising its reservation. */
  lemma RewriteKeeps(w: World, id: SandboxId, row: Row, requests: map<Key, Request>, pc: Pc)
    requires Inv(w) && id in w.rows && NoMore(row.held, w.rows[id].held)
    requires RowOk(row, UnitOf(w, id), Get(w.refs, id)) && RequestsFollow(w, id, Some(row), requests)
    requires pc.Idle? || (pc.id == id && PcKnows(pc, Some(row), UnitOf(w, id)))
    ensures Inv(w.(rows := w.rows[id := row], requests := requests, pc := pc))
  {
    Unwritten(w, id);
    WriteKeeps(w, id, CellOf(w, id).(row := Some(row)), requests, pc);
  }

  lemma CrossKeeps(w: World, id: SandboxId)
    requires Inv(w) && CanCross(w, id)
    ensures Inv(Crossed(w, id))
  {
    var row := w.rows[id].(intent := Some(Start));
    CellHere(w, id);
    KeysUntouched(w, id, row);
    RewriteKeeps(w, id, row, w.requests, Driving(id, Restart, AtStart));
  }

  lemma RecordLocal(pc: Pc, c: Cell)
    requires pc.Failing? && CellOk(c) && PcKnows(pc, c.row, c.unit)
    ensures
      var row := Some(c.row.value.(error := Some(CallFailed(pc.outcome))));
      && CellOk(c.(row := row))
      && (pc.intent == Create && pc.outcome.Refused? ==>
            PcKnows(Compensating(pc.id, pc.outcome.code, pc.outcome.body), row, c.unit))
  {
  }

  lemma RecordKeeps(w: World, id: SandboxId)
    requires Inv(w) && CanRecord(w, id)
    ensures Inv(Recorded(w, id))
  {
    var row := w.rows[id].(error := Some(CallFailed(w.pc.outcome)));
    CellHere(w, id);
    RecordLocal(w.pc, CellOf(w, id));
    KeysUntouched(w, id, row);
    RewriteKeeps(w, id, row, w.requests, Recorded(w, id).pc);
  }

  lemma CompensateKeeps(w: World, id: SandboxId)
    requires Inv(w) && CanCompensate(w, id)
    ensures Inv(Compensated(w, id))
  {
    var row := Condemned(w.rows[id]);
    var answer := Answer(w.pc.code, Raw(w.pc.body));
    CellHere(w, id);
    KeysAnswered(w, id, row, answer);
    RewriteKeeps(w, id, row, Answered(w.requests, id, answer), Idle);
  }

  lemma ExpireKeeps(w: World, id: SandboxId)
    requires Inv(w) && CanExpire(w, id)
    ensures Inv(ExpiredNow(w, id))
  {
    var row := Condemned(w.rows[id]);
    CellHere(w, id);
    KeysUntouched(w, id, row);
    RewriteKeeps(w, id, row, w.requests, Idle);
  }

  lemma RefreshLocal(pc: Pc, c: Cell)
    requires pc.Observed? && CellOk(c) && PcKnows(pc, c.row, c.unit)
    ensures
      var row := RefreshedRow(c.row.value, pc.actual);
      && CellOk(c.(row := Some(row))) && row.held == c.row.value.held && row.intent.None?
      && (pc.actual == Some(false) ==> PcKnows(Releasing(pc.id), Some(row), c.unit))
  {
  }

  lemma RefreshKeeps(w: World, id: SandboxId)
    requires Inv(w) && CanRefresh(w, id)
    ensures Inv(Refreshed(w, id))
  {
    var row := RefreshedRow(w.rows[id], w.pc.actual);
    CellHere(w, id);
    RefreshLocal(w.pc, CellOf(w, id));
    KeysUntouched(w, id, row);
    RewriteKeeps(w, id, row, w.requests, Refreshed(w, id).pc);
  }

  lemma ReleaseKeeps(w: World, id: SandboxId)
    requires Inv(w) && CanRelease(w, id)
    ensures Inv(ReleasedNow(w, id))
  {
    var row := ReleasedRow(w.rows[id]);
    CellHere(w, id);
    KeysUntouched(w, id, row);
    RewriteKeeps(w, id, row, w.requests, Idle);
  }

  lemma BeginKeeps(w: World, id: SandboxId)
    requires Inv(w) && CanBegin(w, id)
    ensures Inv(Begun(w, id))
  {
  }

  lemma InspectKeeps(w: World, id: SandboxId, outcome: Outcome)
    requires Inv(w) && CanInspect(w, id, outcome)
    ensures Inv(Looked(w, id, outcome))
  {
  }

  /** What the runtime holds for one sandbox changes; its journal row does not. */
  lemma UnitKeeps(w: World, id: SandboxId, unit: Unit, pc: Pc)
    requires Inv(w) && CellOk(CellOf(w, id).(unit := unit))
    requires pc.Idle? || (pc.id == id && PcKnows(pc, Get(w.rows, id), unit)) || (pc == w.pc && pc.id != id)
    ensures Inv(WithUnit(w, id, unit).(pc := pc))
  {
    var c := CellOf(w, id);
    if c.row.Some? {
      KeysUntouched(w, id, c.row.value);
    }
    Unwritten(w, id);
    WriteKeeps(w, id, c.(unit := unit), w.requests, pc);
  }

  lemma OrphanLocal(id: SandboxId, c: Cell, outcome: Outcome, after: Unit)
    requires CellOk(c) && (c.row.Some? ==> c.row.value.status == Deleted)
    requires Effect(DeleteContainer, NOTHING, c.unit, outcome, after)
    ensures CellOk(c.(unit := after)) && (outcome.Ok? ==> PcKnows(OrphanGone(id), c.row, after))
  {
  }

  lemma OrphanKeeps(w: World, id: SandboxId, outcome: Outcome, after: Unit)
    requires Inv(w) && CanDeleteOrphan(w, id, outcome, after)
    ensures Inv(OrphanCalled(w, id, outcome, after))
  {
    CellHere(w, id);
    OrphanLocal(id, CellOf(w, id), outcome, after);
    UnitKeeps(w, id, after, OrphanCalled(w, id, outcome, after).pc);
  }

  lemma OrphanReleaseKeeps(w: World, id: SandboxId)
    requires Inv(w) && w.pc == OrphanGone(id)
    ensures Inv(w.(refs := w.refs - {id}, pc := Idle))
  {
  }

  lemma AdapterSweptKeeps(w: World, dropped: set<SandboxId>)
    requires Inv(w) && w.pc.Idle? && dropped !! w.containers.Keys
    ensures Inv(w.(quotas := w.quotas - dropped))
  {
  }

  /** A task can only stop, and a container can only go, by itself. */
  lemma FadeLocal(pc: Pc, c: Cell, unit: Unit)
    requires CellOk(c) && unit.quota == c.unit.quota && (unit == Halted(c.unit) || unit.container.None?)
    ensures CellOk(c.(unit := unit))
    ensures PcKnows(pc, c.row, c.unit) ==> PcKnows(pc, c.row, unit)
  {
  }

  lemma FadeKeeps(w: World, id: SandboxId, unit: Unit)
    requires Inv(w) && unit.quota == UnitOf(w, id).quota
    requires unit == Halted(UnitOf(w, id)) || unit.container.None?
    ensures Inv(WithUnit(w, id, unit))
  {
    CellHere(w, id);
    FadeLocal(w.pc, CellOf(w, id), unit);
    UnitKeeps(w, id, unit, w.pc);
  }

  /** Steps that leave the journal and the runtime alone. */
  lemma ElsewhereKeeps(w: World, w': World)
    requires Inv(w) && ImagesOk(w') && PcOk(w')
    requires w' == w.(images := w'.images, builds := w'.builds, removals := w'.removals, now := w'.now, pc := w'.pc)
    ensures Inv(w')
  {
  }

  /** The steps up to the end of the runtime calls. */
  lemma CallsKeep(w: World, e: Event)
    requires Inv(w) && CanDrive(w, e) && (e.Begin? || e.Called? || e.Boundary?)
    ensures Inv(Driven(w, e)) && Driven(w, e).budget == w.budget
  {
    match e
    case Begin(id) => BeginKeeps(w, id);
    case Called(id, verb, outcome, after) => CallKeeps(w, id, verb, outcome, after);
    case Boundary(id) => CrossKeeps(w, id);
  }

  /** The commits that follow them. */
  lemma CommitsKeep(w: World, e: Event)
    requires Inv(w) && CanDrive(w, e) && (e.Settle? || e.RecordFailure? || e.Compensate?)
    ensures Inv(Driven(w, e)) && Driven(w, e).budget == w.budget
  {
    match e
    case Settle(id) => SettleKeeps(w, id);
    case RecordFailure(id) => RecordKeeps(w, id);
    case Compensate(id) => CompensateKeeps(w, id);
  }

  lemma DriveKeeps(w: World, e: Event)
    requires Inv(w) && CanDrive(w, e)
    ensures Inv(Driven(w, e)) && Driven(w, e).budget == w.budget
  {
    if e.Begin? || e.Called? || e.Boundary? {
      CallsKeep(w, e);
    } else {
      CommitsKeep(w, e);
    }
  }

  lemma SweepKeeps(w: World, e: Event)
    requires Inv(w) && CanSweep(w, e)
    ensures Inv(SweptOnce(w, e)) && SweptOnce(w, e).budget == w.budget
  {
    match e
    case Expire(id) => ExpireKeeps(w, id);
    case Inspected(id, outcome) => InspectKeeps(w, id, outcome);
    case Refresh(id) => RefreshKeeps(w, id);
    case Release(id) => ReleaseKeeps(w, id);
    case Listed(_) =>
    case OrphanDeleted(id, outcome, after) => OrphanKeeps(w, id, outcome, after);
    case OrphanReleased(id) => OrphanReleaseKeeps(w, id);
    case AdapterSwept(_, dropped) => AdapterSweptKeeps(w, dropped);
  }

  /** Crashes, time, and the runtime's own doing: tasks end, operators remove and add. */
  lemma BefallKeeps(w: World, e: Event)
    requires Inv(w) && CanBefall(w, e)
    ensures Inv(Befallen(w, e)) && Befallen(w, e).budget == w.budget
  {
    match e
    case Crash => ElsewhereKeeps(w, Befallen(w, e));
    case Tick => ElsewhereKeeps(w, Befallen(w, e));
    case TaskExited(id) =>
      Unwritten(w, id);
      FadeKeeps(w, id, Halted(UnitOf(w, id)));
    case Vanished(id) =>
      Unwritten(w, id);
      FadeKeeps(w, id, Unit(None, UnitOf(w, id).quota));
    case Appeared(id, unit) => AppearKeeps(w, id, unit);
  }

  lemma AppearKeeps(w: World, id: SandboxId, unit: Unit)
    requires Inv(w) && id !in w.rows && w.pc != OrphanGone(id)
    ensures Inv(WithUnit(w, id, unit))
  {
    CellHere(w, id);
    UnitKeeps(w, id, unit, w.pc);
  }

  /** Builds and deletions touch only images that no sandbox references. */
  lemma ImagesKept(w: World, e: Event)
    requires ImagesOk(w) && CanManageImage(w, e)
    ensures ImagesOk(ImageManaged(w, e))
  {
  }

  lemma ImageKeeps(w: World, e: Event)
    requires Inv(w) && CanManageImage(w, e)
    ensures Inv(ImageManaged(w, e)) && ImageManaged(w, e).budget == w.budget
  {
    ImagesKept(w, e);
    ElsewhereKeeps(w, ImageManaged(w, e));
  }

  /** Every step keeps the invariant. */
  lemma StepKeeps(w: World, e: Event)
    requires Inv(w) && Enabled(w, e)
    ensures Inv(Apply(w, e)) && Apply(w, e).budget == w.budget
  {
    if Admits(e) {
      match e
      case AcceptCreate(id, config, ttl, use) => AcceptCreateKeeps(w, id, config, ttl, use);
      case Accept(id, action, use) => AcceptKeeps(w, id, action, use);
    } else if Drives(e) {
      DriveKeeps(w, e);
    } else if Sweeps(e) {
      SweepKeeps(w, e);
    } else if Befalls(e) {
      BefallKeeps(w, e);
    } else {
      ImageKeeps(w, e);
    }
  }

  /** Every run from a state that satisfies the invariant ends in one. */
  lemma {:induction false} RunKeeps(w: World, es: seq<Event>)
    requires Inv(w) && Legal(w, es)
    ensures Inv(After(w, es)) && After(w, es).budget == w.budget
    decreases |es|
  {
    if es != [] {
      RunKeeps(w, es[..|es| - 1]);
      StepKeeps(After(w, es[..|es| - 1]), es[|es| - 1]);
    }
  }

  /** The invariant, as far as one sandbox and the process are concerned. */
  lemma RunLocal(w: World, es: seq<Event>, id: SandboxId)
    requires Inv(w) && Legal(w, es)
    ensures CellOk(CellOf(After(w, es), id)) && PcOk(After(w, es))
  {
    RunKeeps(w, es);
    CellHere(After(w, es), id);
  }

  /** Every state reached on a host that started empty satisfies the invariant. */
  lemma Reachable(budget: Limits, es: seq<Event>)
    requires Legal(Fresh(budget), es)
    ensures Inv(After(Fresh(budget), es)) && After(Fresh(budget), es).budget == budget
  {
    RunKeeps(Fresh(budget), es);
  }

  // ----- What the invariant is for -----

  /** What the runtime really grants to journalled sandboxes: processors and memory to running
      tasks, disk to every container. */
  function Granted(w: World, r: Resource): map<SandboxId, nat> {
    map id | id in w.rows && id in w.containers && (w.containers[id].running || r == Disk) ::
      Amount(w.containers[id].limits, r)
  }

  /** The disk of every outstanding quota record of a journalled sandbox. */
  function KnownQuotas(w: World): map<SandboxId, nat> {
    map id | id in w.rows && id in w.quotas :: w.quotas[id]
  }

  lemma GrantedIsHeld(w: World, r: Resource)
    requires RowsOk(w)
    ensures Total(Granted(w, r)) <= Total(Held(w.rows, r))
    ensures Total(KnownQuotas(w)) <= Total(Held(w.rows, Disk))
  {
    forall id | id in w.rows ensures RowOk(w.rows[id], UnitOf(w, id), Get(w.refs, id)) { }
    TotalMonotone(Granted(w, r), Held(w.rows, r));
    TotalMonotone(KnownQuotas(w), Held(w.rows, Disk));
  }

  /** No overcommit: in every run the reservations fit the budget, and so does what the runtime
      really grants, including the disk of records that outlive their container. */
  lemma NoOvercommit(budget: Limits, es: seq<Event>, r: Resource)
    requires Legal(Fresh(budget), es)
    ensures
      var w := After(Fresh(budget), es);
      && Total(Held(w.rows, r)) <= Amount(budget, r)
      && Total(Granted(w, r)) <= Amount(budget, r)
      && Total(KnownQuotas(w)) <= budget.disk
  {
    Reachable(budget, es);
    GrantedIsHeld(After(Fresh(budget), es), r);
    assert Amount(budget, Disk) == budget.disk;
  }

  /** Pending and settled: a row has no intent exactly when its status is a settled one, and a key
      without an answer always names a sandbox that still has an intent. */
  lemma PendingOrSettled(budget: Limits, es: seq<Event>)
    requires Legal(Fresh(budget), es)
    ensures
      var w := After(Fresh(budget), es);
      && (forall id | id in w.rows ::
            w.rows[id].intent.None? <==> w.rows[id].status in {Running, Stopped, Error, Deleted})
      && (forall k | k in w.requests && w.requests[k].answer.None? ::
            w.requests[k].sandbox in w.rows && w.rows[w.requests[k].sandbox].intent.Some?)
  {
    Reachable(budget, es);
    var w := After(Fresh(budget), es);
    forall id | id in w.rows
      ensures w.rows[id].intent.None? <==> w.rows[id].status in {Running, Stopped, Error, Deleted}
    {
      assert RowOk(w.rows[id], UnitOf(w, id), Get(w.refs, id));
    }
  }

  /** Image references: each points to a READY image, and a journalled sandbox whose container
      exists still holds its own, so the image of a live container is neither deleting nor gone. */
  lemma ImagesPinned(budget: Limits, es: seq<Event>)
    requires Legal(Fresh(budget), es)
    ensures
      var w := After(Fresh(budget), es);
      && (forall id | id in w.refs :: Get(w.images, w.refs[id]) == Some(Ready))
      && (forall id | id in w.rows && id in w.containers && w.rows[id].config.imageId.Some? ::
            && Get(w.refs, id) == w.rows[id].config.imageId
            && Get(w.images, w.rows[id].config.imageId.value) == Some(Ready))
  {
    Reachable(budget, es);
    var w := After(Fresh(budget), es);
    forall id | id in w.rows && id in w.containers && w.rows[id].config.imageId.Some?
      ensures Get(w.refs, id) == w.rows[id].config.imageId
      ensures Get(w.images, w.rows[id].config.imageId.value) == Some(Ready)
    {
      assert RowOk(w.rows[id], UnitOf(w, id), Get(w.refs, id));
    }
  }

  predicate HoldsCompute(row: Row) {
    row.held.cpu > 0 || row.held.memory > 0
  }

  /** Reservations by status: a running row holds all its limits, a deleted one nothing, disk is never
      given up before deletion, and processors and memory are held together or not at all. */
  lemma ReservationsByStatus(budget: Limits, es: seq<Event>, id: SandboxId)
    requires Legal(Fresh(budget), es) && id in After(Fresh(budget), es).rows
    ensures
      var row := After(Fresh(budget), es).rows[id];
      var full := row.config.limits;
      && (row.status == Running ==> row.held == full)
      && (row.status == Stopped ==> row.held == full || row.held == Limits(0, 0, full.disk))
      && (row.status == Deleted ==> row.held == NOTHING)
      && (row.status !in {Deleting, Deleted} ==> row.held.disk == full.disk)
  {
    Reachable(budget, es);
  }
}
