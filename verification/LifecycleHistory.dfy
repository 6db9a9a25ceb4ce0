/** What holds across whole runs of the lifecycle, not only in each state. */
module LifecycleHistory {
  import opened Options
  import opened Totals
  import opened Lifecycle
  import opened LifecycleSafety

  // ----- How one step can touch one sandbox -----

  /** The sandbox an event acts on, if it acts on one. */
  predicate Names(e: Event, id: SandboxId) {
    match e
    case Listed(_) => false
    case AdapterSwept(_, dropped) => id in dropped
    case Crash => false
    case Tick => false
    case ImageSubmitted(_) => false
    case ImageReady(_) => false
    case ImageFailed(_) => false
    case ImageDeleteBegun(_) => false
    case ImageDeleted(_) => false
    case BuildsInterrupted => false
    case _ => e.id == id
  }

  lemma DrivenElsewhere(w: World, e: Event, id: SandboxId)
    requires CanDrive(w, e) && e.id != id
    ensures CellOf(Driven(w, e), id) == CellOf(w, id)
  {
  }

  lemma SweptElsewhere(w: World, e: Event, id: SandboxId)
    requires CanSweep(w, e) && !Names(e, id)
    ensures CellOf(SweptOnce(w, e), id) == CellOf(w, id)
  {
  }

  lemma BefallenElsewhere(w: World, e: Event, id: SandboxId)
    requires CanBefall(w, e) && !Names(e, id)
    ensures CellOf(Befallen(w, e), id) == CellOf(w, id)
  {
  }

  /** A step that does not name a sandbox leaves everything stored about it as it was. */
  lemma Elsewhere(w: World, e: Event, id: SandboxId)
    requires Enabled(w, e) && !Names(e, id)
    ensures CellOf(Apply(w, e), id) == CellOf(w, id)
  {
    if Admits(e) {
    } else if Drives(e) {
      DrivenElsewhere(w, e, id);
    } else if Sweeps(e) {
      SweptElsewhere(w, e, id);
    } else if Befalls(e) {
      BefallenElsewhere(w, e, id);
    }
  }

  // ----- Idempotency keys -----

  /** The step that answers an unanswered key: completion with the settled document, or
      compensation with the runtime's own refusal. */
  predicate Answers(w: World, e: Event, id: SandboxId, a: Answer) {
    || (e == Settle(id) && CanSettle(w, id)
        && a == Answer(200, Doc(DocumentOf(id, SettledRow(w.rows[id], w.pc.intent)))))
    || (e == Compensate(id) && CanCompensate(w, id) && a == Answer(w.pc.code, Raw(w.pc.body)))
  }

  lemma KeyStep(w: World, e: Event, k: Key)
    requires Enabled(w, e) && k in w.requests
    ensures
      var r, w' := w.requests[k], Apply(w, e);
      && k in w'.requests
      && (w'.requests[k] == r
          || (r.answer.None? && w'.requests[k].answer.Some? && w'.requests[k] == r.(answer := w'.requests[k].answer)
              && Answers(w, e, r.sandbox, w'.requests[k].answer.value)))
  {
    if Admits(e) {
    } else if Drives(e) {
      KeyDriven(w, e, k);
    } else if Sweeps(e) {
      SameKeysSwept(w, e);
    }
  }

  lemma KeyDriven(w: World, e: Event, k: Key)
    requires CanDrive(w, e) && k in w.requests
    ensures
      var r, w' := w.requests[k], Driven(w, e);
      && k in w'.requests
      && (w'.requests[k] == r
          || (r.answer.None? && w'.requests[k].answer.Some? && w'.requests[k] == r.(answer := w'.requests[k].answer)
              && Answers(w, e, r.sandbox, w'.requests[k].answer.value)))
  {
  }

  /** An accepted key stays bound to its fingerprint, sandbox and action forever, and once it has
      an answer it keeps that answer through every later crash, retry, sweep and deletion. */
  lemma {:induction false} KeyBound(w: World, es: seq<Event>, k: Key)
    requires Legal(w, es) && k in w.requests
    ensures
      var r, w' := w.requests[k], After(w, es);
      && k in w'.requests
      && w'.requests[k] == r.(answer := w'.requests[k].answer)
      && (r.answer.Some? ==> w'.requests[k] == r)
    decreases |es|
  {
    if es != [] {
      KeyBound(w, es[..|es| - 1], k);
      KeyStep(After(w, es[..|es| - 1]), es[|es| - 1], k);
    }
  }

  // ----- Rows and stored documents -----

  lemma RowFixedDriven(w: World, e: Event)
    requires CanDrive(w, e) && e.id in w.rows
    ensures
      var w' := Driven(w, e);
      && e.id in w'.rows && w'.rows[e.id].config == w.rows[e.id].config
      && w'.rows[e.id].expiresAt == w.rows[e.id].expiresAt
  {
  }

  lemma RowFixedStep(w: World, e: Event, id: SandboxId)
    requires Enabled(w, e) && id in w.rows
    ensures
      var w' := Apply(w, e);
      id in w'.rows && w'.rows[id].config == w.rows[id].config && w'.rows[id].expiresAt == w.rows[id].expiresAt
  {
    if !Names(e, id) {
      Elsewhere(w, e, id);
      assert CellOf(Apply(w, e), id).row == Some(w.rows[id]);
    } else if Drives(e) {
      RowFixedDriven(w, e);
    }
  }

  /** A sandbox keeps its row, its configuration and its expiry for ever. */
  lemma {:induction false} RowFixed(w: World, es: seq<Event>, id: SandboxId)
    requires Legal(w, es) && id in w.rows
    ensures
      var w' := After(w, es);
      id in w'.rows && w'.rows[id].config == w.rows[id].config && w'.rows[id].expiresAt == w.rows[id].expiresAt
    decreases |es|
  {
    if es != [] {
      RowFixed(w, es[..|es| - 1], id);
      RowFixedStep(After(w, es[..|es| - 1]), es[|es| - 1], id);
    }
  }

  /** A document that is stored under a key tells of the key's own sandbox, as a success. */
  predicate TellsOf(d: Document, code: nat, id: SandboxId, row: Row) {
    && code == 200 && d.id == id && d.config == row.config && d.expiresAt == row.expiresAt
    && d.error.None? && d.status in {Running, Stopped, Deleted}
  }

  predicate TruthfulKey(w: World, k: Key)
    requires k in w.requests
  {
    var r := w.requests[k];
    r.answer.Some? && r.answer.value.body.Doc? ==>
      r.sandbox in w.rows && TellsOf(r.answer.value.body.document, r.answer.value.code, r.sandbox, w.rows[r.sandbox])
  }

  lemma SameKeysDriven(w: World, e: Event)
    requires CanDrive(w, e)
    ensures Driven(w, e).requests.Keys == w.requests.Keys
  {
  }

  lemma SameKeysSwept(w: World, e: Event)
    requires CanSweep(w, e)
    ensures SweptOnce(w, e).requests == w.requests
  {
  }

  lemma NewKeyUnanswered(w: World, e: Event, k: Key)
    requires Enabled(w, e) && k !in w.requests
    ensures k in Apply(w, e).requests ==> Apply(w, e).requests[k].answer.None?
  {
    if Drives(e) {
      SameKeysDriven(w, e);
    } else if Sweeps(e) {
      SameKeysSwept(w, e);
    }
  }

  lemma TruthfulStep(w: World, e: Event, k: Key)
    requires Enabled(w, e) && RequestsOk(w) && k in Apply(w, e).requests && (k in w.requests ==> TruthfulKey(w, k))
    ensures TruthfulKey(Apply(w, e), k)
  {
    if k in w.requests {
      KeyStep(w, e, k);
      RowFixedStep(w, e, w.requests[k].sandbox);
    } else {
      NewKeyUnanswered(w, e, k);
    }
  }

  /** On every run, every document that a replay returns has the id, the configuration and the expiry
      of the sandbox that the key is bound to. */
  lemma {:induction false} StoredDocuments(budget: Limits, es: seq<Event>, k: Key)
    requires Legal(Fresh(budget), es) && k in After(Fresh(budget), es).requests
    ensures TruthfulKey(After(Fresh(budget), es), k)
    decreases |es|
  {
    if es != [] {
      var w := After(Fresh(budget), es[..|es| - 1]);
      if k in w.requests {
        StoredDocuments(budget, es[..|es| - 1], k);
      }
      Reachable(budget, es[..|es| - 1]);
      TruthfulStep(w, es[|es| - 1], k);
    }
  }

  // ----- Deletion -----

  predicate Doomed(w: World, id: SandboxId) {
    id in w.rows && (w.rows[id].status == Deleting || w.rows[id].status == Deleted)
  }

  predicate Mutates(e: Event, id: SandboxId, verb: Verb) {
    e.Called? && e.id == id && e.verb == verb
  }

  predicate DeletesOnly(e: Event, id: SandboxId) {
    && !Mutates(e, id, CreateContainer) && !Mutates(e, id, StartContainer) && !Mutates(e, id, StopContainer)
    && !(e.AcceptCreate? && e.id == id)
    && !(e.Accept? && e.id == id && e.action != Delete)
  }

  /** Nothing is given back, or it is given back by the commit that follows an acknowledged DELETE. */
  predicate ReleasedBy(w: World, e: Event, w': World, id: SandboxId)
    requires id in w.rows && id in w'.rows
  {
    || (w'.rows[id].held == w.rows[id].held && Get(w'.refs, id) == Get(w.refs, id))
    || (e == Settle(id) && w.pc == Driving(id, Delete, AtSettle) && UnitOf(w, id) == Unit(None, None))
  }

  /** The process can only be deleting a doomed sandbox. */
  lemma DoomedLocal(pc: Pc, c: Cell)
    requires CellOk(c) && c.row.Some? && c.row.value.status in {Deleting, Deleted} && PcKnows(pc, c.row, c.unit)
    ensures pc.Driving? ==>
              pc.intent == Delete && (pc.phase == AtDelete || (pc.phase == AtSettle && c.unit == Unit(None, None)))
    ensures !pc.Compensating? && !pc.Observed? && !pc.Releasing?
    ensures pc.OrphanGone? ==> c.ref.None?
    ensures c.row.value.intent.None? ==> c.row.value.status == Deleted && c.row.value.held == NOTHING
  {
  }

  lemma DoomedDriven(w: World, e: Event)
    requires CanDrive(w, e) && CellOk(CellOf(w, e.id)) && PcOk(w) && Doomed(w, e.id)
    ensures
      var w' := Driven(w, e);
      && Doomed(w', e.id) && DeletesOnly(e, e.id) && NoMore(w'.rows[e.id].held, w.rows[e.id].held)
      && ReleasedBy(w, e, w', e.id)
  {
    DoomedLocal(w.pc, CellOf(w, e.id));
  }

  lemma DoomedSwept(w: World, e: Event, id: SandboxId)
    requires CanSweep(w, e) && CellOk(CellOf(w, id)) && PcOk(w) && Names(e, id) && Doomed(w, id)
    ensures
      var w' := SweptOnce(w, e);
      Doomed(w', id) && NoMore(w'.rows[id].held, w.rows[id].held) && ReleasedBy(w, e, w', id)
  {
  }

  lemma DoomedStep(w: World, e: Event, id: SandboxId)
    requires Enabled(w, e) && CellOk(CellOf(w, id)) && PcOk(w) && Doomed(w, id)
    ensures
      var w' := Apply(w, e);
      Doomed(w', id) && DeletesOnly(e, id) && NoMore(w'.rows[id].held, w.rows[id].held) && ReleasedBy(w, e, w', id)
  {
    if !Names(e, id) {
      Elsewhere(w, e, id);
      assert CellOf(Apply(w, e), id).row == Some(w.rows[id]);
    } else if Admits(e) {
      DoomedLocal(Idle, CellOf(w, id));
    } else if Drives(e) {
      DoomedDriven(w, e);
    } else if Sweeps(e) {
      DoomedSwept(w, e, id);
    }
  }

  predicate DeleteAcked(es: seq<Event>, id: SandboxId) {
    exists e :: e in es && Mutates(e, id, DeleteContainer) && e.outcome.Ok?
  }

  lemma ReachesSettle(w: World, e: Event, id: SandboxId)
    requires Enabled(w, e) && PcOk(w) && Apply(w, e).pc == Driving(id, Delete, AtSettle)
    ensures w.pc == Driving(id, Delete, AtSettle) || (Mutates(e, id, DeleteContainer) && e.outcome.Ok?)
  {
    if Drives(e) {
      ReachesSettleDriven(w, e, id);
    }
  }

  lemma ReachesSettleDriven(w: World, e: Event, id: SandboxId)
    requires CanDrive(w, e) && PcOk(w) && Driven(w, e).pc == Driving(id, Delete, AtSettle)
    ensures Mutates(e, id, DeleteContainer) && e.outcome.Ok?
  {
  }

  /** Between two states of a run: only DELETE calls, no new capacity, and nothing released
      without an acknowledged DELETE. */
  ghost predicate OnlyDeleted(w: World, w': World, es: seq<Event>, id: SandboxId) {
    && Doomed(w, id) && Doomed(w', id)
    && (forall e | e in es :: DeletesOnly(e, id))
    && NoMore(w'.rows[id].held, w.rows[id].held)
    && (DeleteAcked(es, id)
        || (w'.rows[id].held == w.rows[id].held && Get(w'.refs, id) == Get(w.refs, id)
            && w'.pc != Driving(id, Delete, AtSettle)))
  }

  lemma DeleteAckedExtends(es: seq<Event>, e: Event, id: SandboxId)
    ensures DeleteAcked(es, id) ==> DeleteAcked(es + [e], id)
    ensures Mutates(e, id, DeleteContainer) && e.outcome.Ok? ==> DeleteAcked(es + [e], id)
  {
  }

  lemma OnlyDeletedExtends(w: World, m: World, es: seq<Event>, e: Event, id: SandboxId)
    requires OnlyDeleted(w, m, es, id) && CellOk(CellOf(m, id)) && PcOk(m) && Enabled(m, e)
    ensures OnlyDeleted(w, Apply(m, e), es + [e], id)
  {
    DoomedStep(m, e, id);
    DeleteAckedExtends(es, e, id);
    if Apply(m, e).pc == Driving(id, Delete, AtSettle) {
      ReachesSettle(m, e, id);
    }
  }

  /** Deletion is absorbing: from the moment a delete intent stands, every mutating runtime call
      for that sandbox is DELETE, no capacity is reserved for it again, and its reservation and
      image reference are only given up after a DELETE was acknowledged. */
  lemma {:induction false} DeletionAbsorbs(w: World, es: seq<Event>, id: SandboxId)
    requires Inv(w) && Legal(w, es) && Doomed(w, id) && w.pc != Driving(id, Delete, AtSettle)
    ensures OnlyDeleted(w, After(w, es), es, id)
    decreases |es|
  {
    if es != [] {
      var n := |es| - 1;
      DeletionAbsorbs(w, es[..n], id);
      RunLocal(w, es[..n], id);
      OnlyDeletedExtends(w, After(w, es[..n]), es[..n], es[n], id);
      assert es == es[..n] + [es[n]];
    }
  }

  // ----- Restart -----

  /** No stop is due for the sandbox. */
  predicate Quiet(w: World, id: SandboxId) {
    id in w.rows && w.rows[id].intent != Some(Stop) && w.rows[id].intent != Some(Restart)
  }

  predicate AsksToStop(e: Event, id: SandboxId) {
    e.Accept? && e.id == id && (e.action == Stop || e.action == Restart)
  }

  lemma QuietStep(w: World, e: Event, id: SandboxId)
    requires Enabled(w, e) && PcOk(w) && Quiet(w, id) && !AsksToStop(e, id)
    ensures Quiet(Apply(w, e), id) && !Mutates(e, id, StopContainer)
  {
    if !Names(e, id) {
      Elsewhere(w, e, id);
      assert CellOf(Apply(w, e), id).row == Some(w.rows[id]);
    } else if Drives(e) {
      QuietDriven(w, e);
    }
  }

  lemma QuietDriven(w: World, e: Event)
    requires PcOk(w) && CanDrive(w, e) && Quiet(w, e.id)
    ensures Quiet(Driven(w, e), e.id) && !Mutates(e, e.id, StopContainer)
  {
  }

  lemma CrossedIsQuiet(w: World, id: SandboxId)
    requires Enabled(w, Boundary(id))
    ensures Quiet(Apply(w, Boundary(id)), id)
  {
  }

  /** No stop call for the sandbox after position `i`. */
  predicate StopFree(es: seq<Event>, id: SandboxId, i: nat) {
    forall k | i < k < |es| :: !Mutates(es[k], id, StopContainer)
  }

  lemma StopFreeExtends(es: seq<Event>, id: SandboxId, i: nat)
    requires es != [] && StopFree(es[..|es| - 1], id, i) && !Mutates(es[|es| - 1], id, StopContainer)
    ensures StopFree(es, id, i)
  {
  }

  /** Once the journal has moved a restart to its start, no stop call is made for the sandbox until
      a new stop or restart is accepted, whatever crashes, retries and sweeps come in between. */
  lemma {:induction false} RestartBoundary(w: World, es: seq<Event>, id: SandboxId, i: nat)
    requires Inv(w) && Legal(w, es) && i < |es| && es[i] == Boundary(id)
    requires forall k | i < k < |es| :: !AsksToStop(es[k], id)
    ensures StopFree(es, id, i) && Quiet(After(w, es), id)
    decreases |es|
  {
    var n := |es| - 1;
    if i == n {
      CrossedIsQuiet(After(w, es[..n]), id);
    } else {
      RestartBoundary(w, es[..n], id, i);
      RunLocal(w, es[..n], id);
      QuietStep(After(w, es[..n]), es[n], id);
      StopFreeExtends(es, id, i);
    }
  }

  /** A call of this kind for the sandbox was acknowledged. */
  predicate Acked(es: seq<Event>, id: SandboxId, verb: Verb) {
    exists e :: e in es && Mutates(e, id, verb) && e.outcome.Ok?
  }

  /** A stop was acknowledged, and after it a start. */
  predicate Bounced(es: seq<Event>, id: SandboxId) {
    exists j | 0 <= j < |es| ::
      Mutates(es[j], id, StartContainer) && es[j].outcome.Ok? && Acked(es[..j], id, StopContainer)
  }

  /** How far a restart has come, by the calls that were acknowledged. */
  predicate Restarting(w: World, es: seq<Event>, id: SandboxId) {
    id in w.rows &&
    match w.rows[id].intent
    case Some(Restart) => w.pc == Driving(id, Restart, AtBoundary) ==> Acked(es, id, StopContainer)
    case Some(Start) =>
      Acked(es, id, StopContainer) && (w.pc.Driving? && w.pc.id == id && w.pc.phase == AtSettle ==> Bounced(es, id))
    case _ => Bounced(es, id)
  }

  /** Something takes the place of the restart: a newer request or expiry. */
  predicate Supersedes(e: Event, id: SandboxId) {
    (e.Accept? && e.id == id) || e == Expire(id)
  }

  lemma AckedExtends(es: seq<Event>, e: Event, id: SandboxId, verb: Verb)
    ensures Acked(es, id, verb) ==> Acked(es + [e], id, verb)
    ensures Mutates(e, id, verb) && e.outcome.Ok? ==> Acked(es + [e], id, verb)
  {
    assert e in es + [e];
  }

  lemma BouncedExtends(es: seq<Event>, e: Event, id: SandboxId)
    ensures Bounced(es, id) ==> Bounced(es + [e], id)
    ensures Mutates(e, id, StartContainer) && e.outcome.Ok? && Acked(es, id, StopContainer) ==> Bounced(es + [e], id)
  {
    var more := es + [e];
    if Bounced(es, id) {
      var j :| 0 <= j < |es| && Mutates(es[j], id, StartContainer) && es[j].outcome.Ok?
               && Acked(es[..j], id, StopContainer);
      assert more[..j] == es[..j] && more[j] == es[j];
    }
    assert more[..|es|] == es && more[|es|] == e;
  }

  lemma RestartingDriven(w: World, es: seq<Event>, e: Event)
    requires CanDrive(w, e) && PcOk(w) && Restarting(w, es, e.id)
    ensures Restarting(Driven(w, e), es + [e], e.id)
  {
    AckedExtends(es, e, e.id, StopContainer);
    BouncedExtends(es, e, e.id);
  }

  lemma RestartingElsewhere(w: World, es: seq<Event>, e: Event, id: SandboxId)
    requires Enabled(w, e) && PcOk(w) && Restarting(w, es, id) && !Drives(e) && !Supersedes(e, id)
    ensures Restarting(Apply(w, e), es + [e], id)
  {
    AckedExtends(es, e, id, StopContainer);
    BouncedExtends(es, e, id);
    if !Names(e, id) {
      Elsewhere(w, e, id);
      assert CellOf(Apply(w, e), id).row == Some(w.rows[id]);
    }
  }

  lemma RestartingStep(w: World, es: seq<Event>, e: Event, id: SandboxId)
    requires Enabled(w, e) && PcOk(w) && Restarting(w, es, id) && !Supersedes(e, id)
    ensures Restarting(Apply(w, e), es + [e], id)
  {
    if !Drives(e) {
      RestartingElsewhere(w, es, e, id);
    } else if e.id == id {
      RestartingDriven(w, es, e);
    } else {
      AckedExtends(es, e, id, StopContainer);
      BouncedExtends(es, e, id);
      DrivenElsewhere(w, e, id);
      assert CellOf(Driven(w, e), id).row == Some(w.rows[id]);
    }
  }

  lemma {:induction false} RestartingRun(w: World, es: seq<Event>, id: SandboxId)
    requires Inv(w) && Legal(w, es) && w.pc.Idle? && id in w.rows && w.rows[id].intent == Some(Restart)
    requires forall e | e in es :: !Supersedes(e, id)
    ensures Restarting(After(w, es), es, id)
    decreases |es|
  {
    if es != [] {
      var n := |es| - 1;
      RestartingRun(w, es[..n], id);
      RunLocal(w, es[..n], id);
      RestartingStep(After(w, es[..n]), es[..n], es[n], id);
      assert es == es[..n] + [es[n]];
    }
  }

  /** A restart really restarts: on every run on which nothing takes its place, once it is settled the
      runtime has acknowledged a stop and, after that, a start, since it was accepted. */
  lemma RestartBounces(w: World, es: seq<Event>, id: SandboxId)
    requires Inv(w) && Legal(w, es) && w.pc.Idle? && id in w.rows && w.rows[id].intent == Some(Restart)
    requires forall e | e in es :: !Supersedes(e, id)
    requires id in After(w, es).rows && After(w, es).rows[id].intent.None?
    ensures Bounced(es, id)
  {
    RestartingRun(w, es, id);
  }

  // ----- Stopped sandboxes that still hold processors and memory -----

  predicate StoppedHolding(w: World, id: SandboxId) {
    id in w.rows && w.rows[id].status == Stopped && HoldsCompute(w.rows[id])
  }

  /** A step that writes the row of the sandbox, other than the first commit of a refresh. */
  predicate Writes(e: Event, id: SandboxId) {
    && Names(e, id)
    && (Admits(e) || e.Boundary? || e.Settle? || e.RecordFailure? || e.Compensate? || e.Expire? || e.Release?)
  }

  /** The last thing written to the row is a refresh that saw the task stopped and found the row with
      processors and memory, and their release has not been committed. */
  ghost predicate CutShort(w: World, es: seq<Event>, id: SandboxId)
    requires Legal(w, es)
    decreases |es|
  {
    es != [] &&
    var n := |es| - 1;
    var m := After(w, es[..n]);
    if es[n] == Refresh(id) then m.pc.actual == Some(false) && HoldsCompute(m.rows[id])
    else !Writes(es[n], id) && CutShort(w, es[..n], id)
  }

  lemma HoldingDriven(w: World, e: Event)
    requires CanDrive(w, e) && CellOk(CellOf(w, e.id)) && PcOk(w)
    ensures StoppedHolding(Driven(w, e), e.id) <==> !Writes(e, e.id) && StoppedHolding(w, e.id)
  {
  }

  lemma HoldingSwept(w: World, e: Event, id: SandboxId)
    requires CanSweep(w, e) && PcOk(w) && Names(e, id) && e != Refresh(id)
    ensures StoppedHolding(SweptOnce(w, e), id) <==> !Writes(e, id) && StoppedHolding(w, id)
  {
  }

  lemma HoldingStep(w: World, e: Event, id: SandboxId)
    requires Enabled(w, e) && CellOk(CellOf(w, id)) && PcOk(w) && e != Refresh(id)
    ensures StoppedHolding(Apply(w, e), id) <==> !Writes(e, id) && StoppedHolding(w, id)
  {
    if !Names(e, id) {
      Elsewhere(w, e, id);
      assert CellOf(Apply(w, e), id).row == Get(w.rows, id);
    } else if Drives(e) {
      HoldingDriven(w, e);
    } else if Sweeps(e) {
      HoldingSwept(w, e, id);
    }
  }

  /** A stopped sandbox holds processors or memory exactly when a refresh of it was cut short. */
  lemma {:induction false} StoppedHoldsCompute(budget: Limits, es: seq<Event>, id: SandboxId)
    requires Legal(Fresh(budget), es)
    ensures StoppedHolding(After(Fresh(budget), es), id) <==> CutShort(Fresh(budget), es, id)
    decreases |es|
  {
    if es != [] {
      var n := |es| - 1;
      StoppedHoldsCompute(budget, es[..n], id);
      RunLocal(Fresh(budget), es[..n], id);
      if es[n] != Refresh(id) {
        HoldingStep(After(Fresh(budget), es[..n]), es[n], id);
      }
    }
  }

  /** A running sandbox with nothing pending, on a host that has only this one. */
  predicate RunsAlone(w: World, id: SandboxId, config: Config) {
    && w.pc.Idle? && w.rows == map[id := Row(config, Running, None, None, None, config.limits)]
    && w.containers == map[id := Container(config.limits, true)]
  }

  /** A host on which the image that the sandbox asks for, if any, has just been built. */
  lemma ImageBuilt(budget: Limits, config: Config) returns (es: seq<Event>)
    ensures Legal(Fresh(budget), es)
    ensures
      var w := After(Fresh(budget), es);
      && w == Fresh(budget).(images := w.images)
      && (config.imageId.Some? ==> Get(w.images, config.imageId.value) == Some(Ready))
  {
    var w0 := Fresh(budget);
    es := [];
    if config.imageId.Some? {
      es := Then(w0, es, ImageSubmitted(config.imageId.value));
      es := Then(w0, es, ImageReady(config.imageId.value));
    }
  }

  /** A sandbox that has just been accepted, on a host that has only this one. */
  predicate AcceptedAlone(w: World, id: SandboxId, config: Config) {
    && w.pc.Idle? && w.rows == map[id := Row(config, Creating, Some(Create), None, None, config.limits)]
    && w.containers == map[] && w.quotas == map[]
  }

  lemma AcceptAlone(budget: Limits, id: SandboxId, config: Config) returns (es: seq<Event>)
    requires ValidLimits(config) && NoMore(config.limits, budget)
    ensures Legal(Fresh(budget), es) && AcceptedAlone(After(Fresh(budget), es), id, config)
  {
    es := ImageBuilt(budget, config);
    var w := After(Fresh(budget), es);
    forall r ensures Amount(config.limits, r) + Total(Held(w.rows - {id}, r)) <= Amount(budget, r) {
      assert Held(w.rows - {id}, r) == map[];
    }
    es := Then(Fresh(budget), es, AcceptCreate(id, config, None, None));
  }

  /** Its container has been created and started. */
  lemma CreateAlone(budget: Limits, id: SandboxId, config: Config) returns (es: seq<Event>)
    requires ValidLimits(config) && NoMore(config.limits, budget)
    ensures Legal(Fresh(budget), es)
    ensures
      var w := After(Fresh(budget), es);
      && w.pc == Driving(id, Create, AtSettle) && w.containers == map[id := Container(config.limits, true)]
      && w.rows == map[id := Row(config, Creating, Some(Create), None, None, config.limits)]
  {
    var w0 := Fresh(budget);
    es := AcceptAlone(budget, id, config);
    es := Then(w0, es, Begin(id));
    var made := Unit(Some(Container(config.limits, false)), Some(config.limits.disk));
    es := Then(w0, es, Called(id, CreateContainer, Ok, made));
    es := Then(w0, es, Called(id, StartContainer, Ok, Started(made)));
  }

  lemma RunAlone(budget: Limits, id: SandboxId, config: Config) returns (es: seq<Event>)
    requires ValidLimits(config) && NoMore(config.limits, budget)
    ensures Legal(Fresh(budget), es) && RunsAlone(After(Fresh(budget), es), id, config)
  {
    es := CreateAlone(budget, id, config);
    es := Then(Fresh(budget), es, Settle(id));
  }

  lemma Then(w: World, es: seq<Event>, e: Event) returns (more: seq<Event>)
    requires Legal(w, es) && Enabled(After(w, es), e)
    ensures more == es + [e] && Legal(w, more) && After(w, more) == Apply(After(w, es), e)
  {
    LegalExtend(w, es, e);
    more := es + [e];
  }

  /** Such runs exist for every sandbox that fits the host: its task ends, the sweep commits the status,
      and the process is killed before it commits the release. */
  lemma RefreshCutShort(budget: Limits, id: SandboxId, config: Config) returns (es: seq<Event>)
    requires ValidLimits(config) && NoMore(config.limits, budget)
    ensures Legal(Fresh(budget), es)
    ensures StoppedHolding(After(Fresh(budget), es), id) && After(Fresh(budget), es).pc.Idle?
    ensures After(Fresh(budget), es).rows[id].held == config.limits
  {
    var w0 := Fresh(budget);
    es := RunAlone(budget, id, config);
    es := Then(w0, es, TaskExited(id));
    es := Then(w0, es, Inspected(id, Ok));
    es := Then(w0, es, Refresh(id));
    es := Then(w0, es, Crash);
  }

  // ----- Images -----

  predicate Leaving(w: World, image: ImageId) {
    Get(w.images, image) in {Some(ImageDeleting), Some(ImageGone)}
  }

  lemma LeavingStep(w: World, e: Event, image: ImageId)
    requires Enabled(w, e) && ImagesOk(w) && Leaving(w, image)
    ensures Leaving(Apply(w, e), image)
  {
    if Admits(e) || Drives(e) || Sweeps(e) || Befalls(e) {
      ImagesElsewhere(w, e);
    } else {
      LeavingManaged(w, e, image);
    }
  }

  lemma ImagesElsewhere(w: World, e: Event)
    requires Enabled(w, e) && (Admits(e) || Drives(e) || Sweeps(e) || Befalls(e))
    ensures Apply(w, e).images == w.images
  {
  }

  lemma LeavingManaged(w: World, e: Event, image: ImageId)
    requires CanManageImage(w, e) && ImagesOk(w) && Leaving(w, image)
    ensures Leaving(ImageManaged(w, e), image)
  {
  }

  /** Once the deletion of an image has begun it is never READY again and no sandbox ever refers to
      it, through any builds, crashes and failed deletions. */
  lemma {:induction false} ImageDeletionAbsorbs(w: World, es: seq<Event>, image: ImageId)
    requires Inv(w) && Legal(w, es) && Leaving(w, image)
    ensures Leaving(After(w, es), image) && image !in After(w, es).refs.Values
    decreases |es|
  {
    RunKeeps(w, es);
    if es != [] {
      ImageDeletionAbsorbs(w, es[..|es| - 1], image);
      RunKeeps(w, es[..|es| - 1]);
      LeavingStep(After(w, es[..|es| - 1]), es[|es| - 1], image);
    }
  }
}
