/** Crash equivalence: an accepted operation ends the same however often it is interrupted. */
module CrashEquivalence {
  import opened Options
  import opened Lifecycle
  import opened LifecycleSafety
  import opened LifecycleHistory

  /** Everything the journal, the runtime and the callers can see of one sandbox. */
  datatype View = View(cell: Cell, requests: map<Key, Request>)

  function RequestsOf(w: World, id: SandboxId): map<Key, Request> {
    map k | k in w.requests && w.requests[k].sandbox == id :: w.requests[k]
  }

  function ViewOf(w: World, id: SandboxId): View {
    View(CellOf(w, id), RequestsOf(w, id))
  }

  // ----- What an operation is for, said without steps -----

  predicate Pending(c: Cell) {
    c.row.Some? && c.row.value.intent.Some?
  }

  function FinishedUnit(intent: Action, limits: Limits, unit: Unit): Unit {
    match intent
    case Create => Unit(Some(Container(limits, true)), Some(limits.disk))
    case Stop => Halted(unit)
    case Delete => Unit(None, None)
    case _ => Started(unit)
  }

  function FinishedCell(c: Cell): Cell {
    if !Pending(c) then c
    else
      var row, intent := c.row.value, c.row.value.intent.value;
      Cell(Some(SettledRow(row, intent)), FinishedUnit(intent, row.config.limits, c.unit),
           if intent == Delete then None else c.ref)
  }

  /** The end of the pending operation: the intended state of the runtime, the settled row, the
      image reference, and one reply for every key that was still waiting. */
  function Finished(id: SandboxId, v: View): View {
    var c := FinishedCell(v.cell);
    View(c, if !Pending(v.cell) then v.requests
            else Answered(v.requests, id, Answer(200, Doc(DocumentOf(id, c.row.value)))))
  }

  // ----- Interruptions -----

  /** What may happen to the operation: every step of the process, its death, and calls that are lost
      or refused, with or without effect. Excluded are the commit that turns a refused create into a
      deletion, expiry, a newer request for the same sandbox, and the environment changing this
      container. */
  predicate Interrupts(e: Event, id: SandboxId) {
    || !Names(e, id)
    || e.Begin? || e.Called? || e.Boundary? || e.Settle? || e.RecordFailure?
    || e.Inspected? || e.Refresh? || e.Release? || e.AdapterSwept?
  }

  predicate Exists(c: Cell, running: bool) {
    c.unit.container.Some? && c.unit.container.value.running == running
  }

  /** The row agrees with the runtime as far as the operation has come. */
  predicate OnCourse(c: Cell) {
    && c.row.Some?
    && (match c.row.value.intent
        case None =>
          && c.row.value.error.None?
          && (c.row.value.status == Deleted
              || (c.row.value.status == Running && Exists(c, true))
              || (c.row.value.status == Stopped && Exists(c, false) && !HoldsCompute(c.row.value)))
        case Some(Create) => true
        case Some(Delete) => true
        case _ => c.unit.container.Some?)
  }

  predicate PcOnCourse(pc: Pc, c: Cell) {
    match pc
    case Driving(id, intent, phase) =>
      && (phase == AtStart || phase == AtBoundary ==> c.unit.container.Some?)
      && (phase == AtSettle && intent != Delete ==> Exists(c, intent != Stop))
    case Observed(id, actual) => actual.Some? && Exists(c, actual.value)
    case _ => true
  }

  predicate Course(w: World, id: SandboxId) {
    && CellOk(CellOf(w, id)) && PcOk(w) && OnCourse(CellOf(w, id))
    && (!w.pc.Idle? && w.pc.id == id ==> PcOnCourse(w.pc, CellOf(w, id)))
  }

  // ----- Each step leaves the end of the operation where it was -----

  lemma SettleOnCourse(pc: Pc, c: Cell)
    requires pc.Driving? && pc.phase == AtSettle && CellOk(c) && OnCourse(c) && PcKnows(pc, c.row, c.unit)
    requires PcOnCourse(pc, c)
    ensures
      var row := SettledRow(c.row.value, pc.intent);
      var c' := Cell(Some(row), c.unit, if row.status == Deleted then None else c.ref);
      OnCourse(c') && c' == FinishedCell(c)
  {
  }

  lemma CalledStep(w: World, id: SandboxId, verb: Verb, outcome: Outcome, after: Unit)
    requires Course(w, id) && CanCall(w, id, verb, outcome, after)
    ensures
      var w' := CallMade(w, id, outcome, after);
      && OnCourse(CellOf(w', id)) && PcOnCourse(w'.pc, CellOf(w', id))
      && Finished(id, ViewOf(w', id)) == Finished(id, ViewOf(w, id))
  {
  }

  lemma SettleStep(w: World, id: SandboxId)
    requires Course(w, id) && CanSettle(w, id)
    ensures
      var w' := Settled(w, id);
      OnCourse(CellOf(w', id)) && ViewOf(w', id) == Finished(id, ViewOf(w, id)) && !Pending(CellOf(w', id))
  {
    var w' := Settled(w, id);
    SettleOnCourse(w.pc, CellOf(w, id));
    assert CellOf(w', id) == FinishedCell(CellOf(w, id));
    RepliesSettled(w.requests, id, Answer(200, Doc(DocumentOf(id, w'.rows[id]))));
    assert RequestsOf(w', id) == Finished(id, ViewOf(w, id)).requests;
  }

  lemma RepliesSettled(requests: map<Key, Request>, id: SandboxId, a: Answer)
    ensures
      var after := Answered(requests, id, a);
      (map k | k in after && after[k].sandbox == id :: after[k])
      == Answered(map k | k in requests && requests[k].sandbox == id :: requests[k], id, a)
  {
  }

  /** Bookkeeping steps rewrite the row but not what it will become. */
  lemma RowStep(w: World, id: SandboxId, row: Row, pc: Pc)
    requires Course(w, id) && id in w.rows
    requires row == w.rows[id].(error := row.error, intent := row.intent)
    requires row.intent.Some? && w.rows[id].intent.Some?
    requires row.intent == w.rows[id].intent || (row.intent == Some(Start) && w.rows[id].intent == Some(Restart))
    ensures
      var w' := w.(rows := w.rows[id := row], pc := pc);
      && OnCourse(CellOf(w', id)) && CellOf(w', id).unit == UnitOf(w, id)
      && Finished(id, ViewOf(w', id)) == Finished(id, ViewOf(w, id))
  {
  }

  lemma DriveStep(w: World, e: Event)
    requires CanDrive(w, e) && Course(w, e.id) && Interrupts(e, e.id)
    ensures
      var w' := Driven(w, e);
      && OnCourse(CellOf(w', e.id)) && PcOnCourse(w'.pc, CellOf(w', e.id))
      && Finished(e.id, ViewOf(w', e.id)) == Finished(e.id, ViewOf(w, e.id))
  {
    match e
    case Begin(id) =>
      assert ViewOf(Begun(w, id), id) == ViewOf(w, id);
    case Called(id, verb, outcome, after) => CalledStep(w, id, verb, outcome, after);
    case Boundary(id) => RowStep(w, id, w.rows[id].(intent := Some(Start)), Driven(w, e).pc);
    case Settle(id) => SettleStep(w, id);
    case RecordFailure(id) => RowStep(w, id, w.rows[id].(error := Some(CallFailed(w.pc.outcome))), Driven(w, e).pc);
  }

  lemma SweepStep(w: World, e: Event, id: SandboxId)
    requires Course(w, id) && CanSweep(w, e) && Names(e, id) && Interrupts(e, id)
    ensures
      var w' := SweptOnce(w, e);
      && OnCourse(CellOf(w', id)) && PcOnCourse(w'.pc, CellOf(w', id))
      && Finished(id, ViewOf(w', id)) == Finished(id, ViewOf(w, id))
  {
  }

  lemma OtherKeys(w: World, e: Event, id: SandboxId)
    requires Enabled(w, e) && !Names(e, id)
    ensures RequestsOf(Apply(w, e), id) == RequestsOf(w, id)
  {
    if Admits(e) {
      OtherKeysAdmitted(w, e, id);
    } else if Drives(e) {
      OtherKeysDriven(w, e, id);
    } else {
      assert Apply(w, e).requests == w.requests;
    }
  }

  lemma OtherKeysAdmitted(w: World, e: Event, id: SandboxId)
    requires CanAdmit(w, e) && e.id != id
    ensures RequestsOf(Admitted(w, e), id) == RequestsOf(w, id)
  {
  }

  lemma OtherKeysDriven(w: World, e: Event, id: SandboxId)
    requires CanDrive(w, e) && e.id != id
    ensures RequestsOf(Driven(w, e), id) == RequestsOf(w, id)
  {
  }

  lemma OtherPc(w: World, e: Event, id: SandboxId)
    requires Enabled(w, e) && !Names(e, id)
    ensures Apply(w, e).pc.Idle? || Apply(w, e).pc.id != id || Apply(w, e).pc == w.pc
  {
    if Drives(e) {
    }
  }

  /** Every interruption keeps the operation on course for the same end. */
  lemma InterruptedStep(w: World, e: Event, id: SandboxId)
    requires Enabled(w, e) && Course(w, id) && Interrupts(e, id)
    ensures OnCourse(CellOf(Apply(w, e), id))
    ensures !Apply(w, e).pc.Idle? && Apply(w, e).pc.id == id ==> PcOnCourse(Apply(w, e).pc, CellOf(Apply(w, e), id))
    ensures Finished(id, ViewOf(Apply(w, e), id)) == Finished(id, ViewOf(w, id))
  {
    if !Names(e, id) {
      Elsewhere(w, e, id);
      OtherKeys(w, e, id);
      OtherPc(w, e, id);
    } else if Drives(e) {
      DriveStep(w, e);
    } else {
      SweepStep(w, e, id);
    }
  }

  lemma {:induction false} InterruptedRun(w: World, es: seq<Event>, id: SandboxId)
    requires Inv(w) && Course(w, id) && Legal(w, es) && forall e | e in es :: Interrupts(e, id)
    ensures Course(After(w, es), id) && Finished(id, ViewOf(After(w, es), id)) == Finished(id, ViewOf(w, id))
    decreases |es|
  {
    if es != [] {
      InterruptedRun(w, es[..|es| - 1], id);
      InterruptedStep(After(w, es[..|es| - 1]), es[|es| - 1], id);
      RunKeeps(w, es);
      CellHere(After(w, es), id);
    }
  }

  /** An operation that has just been accepted, on a sandbox whose container the runtime still has. */
  ghost predicate JustAccepted(w: World, id: SandboxId) {
    && Inv(w) && w.pc.Idle? && id in w.rows && w.rows[id].intent.Some?
    && (w.rows[id].intent.value in {Start, Stop, Restart} ==> id in w.containers)
  }

  /** Crash equivalence. Take an accepted operation and any run that settles it, with any number of
      crashes, lost responses and refused calls at any step and anything at all happening to other
      sandboxes, short of what `Interrupts` excludes. The
      row, the container, the quota record, the image reference and every stored reply end up the
      same in all such runs: exactly the end the operation was for. */
  lemma CrashEquivalent(w: World, interrupted: seq<Event>, smooth: seq<Event>, id: SandboxId)
    requires JustAccepted(w, id)
    requires Legal(w, interrupted) && forall e | e in interrupted :: Interrupts(e, id)
    requires Legal(w, smooth) && forall e | e in smooth :: Interrupts(e, id)
    requires !Pending(CellOf(After(w, interrupted), id)) && !Pending(CellOf(After(w, smooth), id))
    ensures ViewOf(After(w, interrupted), id) == ViewOf(After(w, smooth), id) == Finished(id, ViewOf(w, id))
  {
    CellHere(w, id);
    InterruptedRun(w, interrupted, id);
    InterruptedRun(w, smooth, id);
  }
}
