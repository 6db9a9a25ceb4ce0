/** Durable process execution: what the adapter remembers about one requested process, what it has
saved, and the runtime's exec record, through failed saves, failed calls and adapter crashes.

A process identifier is derived from its sandbox and the request, so it names one request within
one sandbox lifetime. A run is a sequence of events; a crash may fall between any two. */
module Processes {
  import opened Options

  datatype ProcessId = ProcessId(name: string)

  datatype State = Starting | Running | Exited(code: nat) | Error

  /** The part of `ProcessInfo` that decides anything: the fingerprint of the request and the status. */
  datatype Info = Info(fingerprint: string, state: State)

  /** A `trackedProcess`: `handle` is whether it has a runtime process, `done` whether its channel is closed. */
  datatype Entry = Entry(info: Info, handle: bool, done: bool)

  datatype Exec = Absent | Created | Live | Stopped(code: nat)

  /** How far the adapter has got: the steps of a start, of the watcher, and of recovery. */
  datatype Pc =
    | Idle | Registered | Recorded | Made | Acknowledged | StartFailed | Failing
    | Watching | Draining
    | Down | Discarding

  /** One process. `starts` counts the runtime starts issued, `acked` says that one was answered
      successfully, and `code` is the exit code the runtime reported, once it has one. */
  datatype Process = Process(
    saved: Option<Info>, entry: Option<Entry>, exec: Exec, pc: Pc, starts: nat, acked: bool, code: Option<nat>)

  const UNKNOWN := Process(None, None, Absent, Idle, 0, false, None)

  predicate Terminal(s: State) {
    s.Exited? || s.Error?
  }

  /** How a save or a runtime call ended: a failed one may have had its effect or not. */
  datatype Result = Done | FailedAfter | FailedBefore

  predicate Took(r: Result) {
    r != FailedBefore
  }

  datatype Event =
    | Register(fingerprint: string) | SaveIntent(r: Result) | Abandon | MakeExec(r: Result) | IssueStart(r: Result)
    | DeleteFailed(r: Result) | SaveFailure(r: Result) | SaveRunning(r: Result)
    | SaveMissing(r: Result) | SaveExit(r: Result) | DropExited(r: Result)
    | Crash | Reload | ReloadMissing(r: Result) | ReloadCreated(r: Result) | DropCreated(r: Result)
    | DropStopped(r: Result) | ReloadRunning(r: Result) | ReloadStopped
    | Tidy(r: Result)
    | Exits(code: nat) | Vanishes

  // ----- What a save leaves on disk, what a call leaves in the runtime -----

  function SavedAs(p: Process, s: State, r: Result): Process
    requires p.entry.Some?
  {
    var info := p.entry.value.info.(state := s);
    p.(entry := Some(p.entry.value.(info := info)), saved := if Took(r) then Some(info) else p.saved)
  }

  function Closed(p: Process): Process
    requires p.entry.Some?
  {
    p.(entry := Some(p.entry.value.(done := true)), pc := Idle)
  }

  /** A runtime record is only dropped when it is not running. */
  function Dropped(p: Process, r: Result): Process {
    if Took(r) && !p.exec.Live? then p.(exec := Absent) else p
  }

  /** The entry that recovery makes of a saved record. */
  function Loaded(p: Process, handle: bool): Process
    requires p.saved.Some?
  {
    p.(entry := Some(Entry(p.saved.value, handle, false)))
  }

  // ----- One step -----

  predicate Enabled(p: Process, e: Event) {
    match e
    case Register(_) => p.pc == Idle && p.entry.None?
    case SaveIntent(_) => p.pc == Registered
    case Abandon => p.pc == Recorded
    case MakeExec(r) => p.pc == Recorded && (r.Done? ==> p.exec.Absent?)
    case IssueStart(r) => p.pc == Made && (r.Done? ==> p.exec.Created?)
    case DeleteFailed(_) => p.pc == StartFailed
    case SaveFailure(_) => p.pc == Failing
    case SaveRunning(_) => p.pc == Acknowledged
    case SaveMissing(_) => p.pc == Watching && p.exec.Absent?
    case SaveExit(_) => p.pc == Watching && p.exec.Stopped?
    case DropExited(_) => p.pc == Draining
    case Crash => true
    case Reload => p.pc == Down && p.saved.Some? && p.exec.Absent? && Terminal(p.saved.value.state)
    case ReloadMissing(_) => p.pc == Down && p.saved.Some? && p.exec.Absent? && !Terminal(p.saved.value.state)
    case ReloadCreated(_) => p.pc == Down && p.saved.Some? && p.exec.Created?
    case DropCreated(_) => p.pc == Discarding
    case DropStopped(_) => p.pc == Down && p.saved.Some? && p.exec.Stopped? && Terminal(p.saved.value.state)
    case ReloadRunning(_) => p.pc == Down && p.saved.Some? && p.exec.Live?
    case ReloadStopped => p.pc == Down && p.saved.Some? && p.exec.Stopped? && !Terminal(p.saved.value.state)
    case Tidy(_) => p.entry.Some? && p.entry.value.done && p.entry.value.handle && (p.exec.Stopped? || p.exec.Created?)
    case Exits(_) => p.exec.Live?
    case Vanishes => true
  }

  /** `StartProcess`, in the order of its effects. */
  function Launched(p: Process, e: Event): Process {
    match e
    case Register(fingerprint) => p.(entry := Some(Entry(Info(fingerprint, Starting), false, false)), pc := Registered)
    case SaveIntent(r) =>
      if p.entry.None? then p else SavedAs(p, Starting, r).(pc := if r.Done? then Recorded else Failing)
    case Abandon => p.(pc := Failing)
    case MakeExec(r) =>
      if p.entry.None? then p
      else
        p.(exec := if Took(r) && p.exec.Absent? then Created else p.exec,
           entry := Some(p.entry.value.(handle := r.Done?)), pc := if r.Done? then Made else Failing)
    case IssueStart(r) =>
      p.(exec := if Took(r) && p.exec.Created? then Live else p.exec, starts := p.starts + 1, acked := r.Done?,
         pc := if r.Done? then Acknowledged else StartFailed)
    case DeleteFailed(r) => p.(exec := if Took(r) then Absent else p.exec, pc := Failing)
    case SaveFailure(r) => if p.entry.None? then p else Closed(SavedAs(p, Error, r))
    case SaveRunning(r) => if p.entry.None? then p else SavedAs(p, Running, r).(pc := Watching)
    case _ => p
  }

  /** `watchProcess` and `cleanupProcessRecords`. */
  function Watched(p: Process, e: Event): Process {
    match e
    case SaveMissing(r) =>
      if p.entry.None? then p else if r.Done? then Closed(SavedAs(p, Error, r)) else SavedAs(p, Error, r)
    case SaveExit(r) =>
      if p.entry.None? || !p.exec.Stopped? then p
      else SavedAs(p, Exited(p.exec.code), r).(pc := if r.Done? then Draining else Watching)
    case DropExited(r) => if p.entry.None? then p else Closed(Dropped(p, r))
    case Tidy(r) => Dropped(p, r)
    case _ => p
  }

  /** `recoverProcesses`; a failure stops the adapter before it serves anything. */
  function Recovered(p: Process, e: Event): Process {
    if p.saved.None? then p
    else
      match e
      case Reload => Closed(Loaded(p, false))
      case ReloadMissing(r) =>
        if r.Done? then Closed(SavedAs(Loaded(p, false), Error, r))
        else SavedAs(Loaded(p, false), Error, r).(entry := None)
      case ReloadCreated(r) =>
        if r.Done? then SavedAs(Loaded(p, true), Error, r).(pc := Discarding)
        else SavedAs(Loaded(p, true), Error, r).(entry := None)
      case DropCreated(r) => if p.entry.None? then p else Closed(Dropped(p, r))
      case DropStopped(r) => if r.Done? then Closed(Dropped(Loaded(p, true), r)) else Dropped(p, r)
      case ReloadRunning(r) =>
        if r.Done? then SavedAs(Loaded(p, true), Running, r).(pc := Watching)
        else SavedAs(Loaded(p, true), Running, r).(entry := None)
      case ReloadStopped => Loaded(p, true).(pc := Watching)
      case _ => p
  }

  /** A crash forgets the entry. With nothing saved there is nothing to recover. */
  function Befallen(p: Process, e: Event): Process {
    match e
    case Crash => p.(entry := None, pc := if p.saved.None? then Idle else Down)
    case Exits(code) => p.(exec := Stopped(code), code := Some(code))
    case Vanishes => p.(exec := Absent)
    case _ => p
  }

  predicate Launches(e: Event) {
    e.Register? || e.SaveIntent? || e.Abandon? || e.MakeExec? || e.IssueStart? || e.DeleteFailed? || e.SaveFailure?
    || e.SaveRunning?
  }

  predicate Watches(e: Event) {
    e.SaveMissing? || e.SaveExit? || e.DropExited? || e.Tidy?
  }

  predicate Befalls(e: Event) {
    e.Crash? || e.Exits? || e.Vanishes?
  }

  function Next(p: Process, e: Event): Process {
    if Launches(e) then Launched(p, e)
    else if Watches(e) then Watched(p, e)
    else if Befalls(e) then Befallen(p, e)
    else Recovered(p, e)
  }

  ghost predicate Legal(es: seq<Event>) {
    es == [] || (Legal(es[..|es| - 1]) && Enabled(After(es[..|es| - 1]), es[|es| - 1]))
  }

  /** The process after a run that began with the request unknown. */
  ghost function After(es: seq<Event>): Process {
    if es == [] then UNKNOWN else Next(After(es[..|es| - 1]), es[|es| - 1])
  }

  lemma Extend(es: seq<Event>, e: Event)
    requires Legal(es) && Enabled(After(es), e)
    ensures Legal(es + [e]) && After(es + [e]) == Next(After(es), e)
  {
  }

  /** The adapter can be killed after any step: every prefix of a run followed by a crash is a run. */
  lemma {:induction false} KilledAnywhere(es: seq<Event>, n: nat)
    requires Legal(es) && n <= |es|
    ensures Legal(es[..n]) && Legal(es[..n] + [Crash])
    decreases |es|
  {
    if n == |es| {
      assert es[..n] == es;
      Extend(es, Crash);
    } else {
      KilledAnywhere(es[..|es| - 1], n);
      assert es[..|es| - 1][..n] == es[..n];
    }
  }

  // ----- Invariant -----

  /** Nothing has been started while the adapter is in one of these steps. */
  predicate BeforeStart(pc: Pc) {
    pc == Registered || pc == Recorded || pc == Made
  }

  predicate StartNotAnswered(pc: Pc) {
    BeforeStart(pc) || pc == StartFailed || pc == Failing
  }

  /** Whether the adapter still means to write the record of a start. */
  predicate InStart(pc: Pc) {
    StartNotAnswered(pc) || pc == Acknowledged
  }

  predicate Once(p: Process) {
    && p.starts <= 1
    && (p.saved.None? ==> p.starts == 0 && p.exec.Absent?)
    && (p.saved.Some? && p.entry.None? ==> p.pc == Down)
    && (p.pc == Down ==> p.saved.Some? && p.entry.None?)
    && (p.pc != Down && p.pc != Idle ==> p.entry.Some?)
    && (p.pc == Registered ==> p.saved.None?)
    && (p.pc != Registered && p.pc != Idle && p.pc != Failing ==> p.saved.Some?)
    && (BeforeStart(p.pc) ==> p.starts == 0)
    && (p.starts == 0 ==> !p.exec.Live? && !p.exec.Stopped?)
    && (p.pc == Recorded ==> p.exec.Absent?)
    && (p.pc == Watching ==> !p.exec.Created?)
    && (p.pc == Acknowledged ==> !p.exec.Created?)
  }

  /** The saved and remembered fingerprints agree. */
  predicate SameRequest(p: Process) {
    p.saved.Some? && p.entry.Some? ==> p.saved.value.fingerprint == p.entry.value.info.fingerprint
  }

  predicate TrueCode(p: Process) {
    && (p.saved.Some? && p.saved.value.state.Exited? ==> p.code == Some(p.saved.value.state.code))
    && (p.exec.Stopped? ==> p.code == Some(p.exec.code))
    && (p.exec.Live? || p.exec.Created? ==> p.code.None?)
    && (p.code.Some? ==> p.starts == 1)
    && (InStart(p.pc) && p.saved.Some? ==> !p.saved.value.state.Exited?)
  }

  predicate SavedFirst(p: Process) {
    && (p.acked ==> p.starts == 1 && !p.exec.Created?)
    && (StartNotAnswered(p.pc) ==> !p.acked)
    && (p.pc == Discarding ==> !p.acked && p.saved.Some? && p.saved.value.state.Error?)
    && (StartNotAnswered(p.pc) && p.saved.Some? ==> p.saved.value.state.Starting?)
    && (p.pc == Recorded || p.pc == Made || p.pc == Acknowledged ==> p.saved.Some? && p.saved.value.state.Starting?)
    && (p.pc == Draining ==> p.saved.Some? && p.saved.value.state.Exited?)
    && (p.entry.Some? && p.entry.value.done ==> p.pc == Idle)
    && (p.acked && p.pc == Idle ==> p.saved.Some? && Terminal(p.saved.value.state))
    && (p.acked && p.saved.Some? && Terminal(p.saved.value.state) ==> !p.exec.Live?)
  }

  predicate Good(p: Process) {
    Once(p) && SameRequest(p) && TrueCode(p) && SavedFirst(p)
  }

  lemma LaunchKeeps(p: Process, e: Event)
    requires Good(p) && Enabled(p, e) && Launches(e)
    ensures Good(Next(p, e))
  {
  }

  lemma WatchKeeps(p: Process, e: Event)
    requires Good(p) && Enabled(p, e) && Watches(e)
    ensures Good(Next(p, e))
  {
  }

  lemma BefallKeeps(p: Process, e: Event)
    requires Good(p) && Enabled(p, e) && Befalls(e)
    ensures Good(Next(p, e))
  {
  }

  lemma RecoverKeeps(p: Process, e: Event)
    requires Good(p) && Enabled(p, e) && !Launches(e) && !Watches(e) && !Befalls(e)
    ensures Good(Next(p, e))
  {
  }

  lemma StepKeeps(p: Process, e: Event)
    requires Good(p) && Enabled(p, e)
    ensures Good(Next(p, e))
  {
    if Launches(e) {
      LaunchKeeps(p, e);
    } else if Watches(e) {
      WatchKeeps(p, e);
    } else if Befalls(e) {
      BefallKeeps(p, e);
    } else {
      RecoverKeeps(p, e);
    }
  }

  lemma {:induction false} RunKeeps(es: seq<Event>)
    requires Legal(es)
    ensures Good(After(es))
  {
    if es != [] {
      RunKeeps(es[..|es| - 1]);
      StepKeeps(After(es[..|es| - 1]), es[|es| - 1]);
    }
  }

  // ----- Main results -----

  /** How often a run asks the runtime to start the process. */
  ghost function Starts(es: seq<Event>): nat {
    if es == [] then 0 else Starts(es[..|es| - 1]) + if es[|es| - 1].IssueStart? then 1 else 0
  }

  lemma {:induction false} StartsCounted(es: seq<Event>)
    requires Legal(es)
    ensures After(es).starts == Starts(es)
  {
    if es != [] {
      StartsCounted(es[..|es| - 1]);
    }
  }

  /** At most one start is ever issued, whatever is retried, fails, crashes and is recovered. */
  lemma AtMostOnce(es: seq<Event>)
    requires Legal(es)
    ensures Starts(es) <= 1
  {
    RunKeeps(es);
    StartsCounted(es);
  }

  /** The watcher, recovery and the cleanup sweep asking the runtime to drop the record. */
  predicate Drops(e: Event) {
    e.DropExited? || e.DropCreated? || e.DropStopped? || e.Tidy?
  }

  /** The start failed and so did the attempt to save that, and the adapter has lived on since. */
  predicate Lapsed(es: seq<Event>) {
    es != [] &&
    var e := es[|es| - 1];
    e == SaveFailure(FailedBefore) || (!e.Crash? && !e.Register? && Lapsed(es[..|es| - 1]))
  }

  /** A closed entry has a terminal state saved, unless its run has lapsed. */
  predicate ClosedAsSaved(p: Process, lapsed: bool) {
    if lapsed then
      p.pc == Idle && p.entry.Some? && p.entry.value.done && (p.saved.Some? ==> p.saved.value.state.Starting?)
    else
      p.entry.Some? && p.entry.value.done ==> p.saved.Some? && Terminal(p.saved.value.state)
  }

  lemma ClosedStep(p: Process, e: Event, lapsed: bool)
    requires Good(p) && Enabled(p, e) && ClosedAsSaved(p, lapsed)
    ensures ClosedAsSaved(Next(p, e), e == SaveFailure(FailedBefore) || (!e.Crash? && !e.Register? && lapsed))
  {
  }

  lemma {:induction false} ClosedRun(es: seq<Event>)
    requires Legal(es)
    ensures ClosedAsSaved(After(es), Lapsed(es))
  {
    if es != [] {
      ClosedRun(es[..|es| - 1]);
      RunKeeps(es[..|es| - 1]);
      ClosedStep(After(es[..|es| - 1]), es[|es| - 1], Lapsed(es[..|es| - 1]));
    }
  }

  /** The runtime's record is dropped with a terminal state saved, exactly unless the run has lapsed:
      the start failed, saving that failed before it took effect, and the adapter was not restarted. */
  lemma DroppedUnsaved(es: seq<Event>, e: Event)
    requires Legal(es) && Enabled(After(es), e) && Drops(e)
    ensures After(es).saved.Some?
    ensures Terminal(After(es).saved.value.state) <==> !Lapsed(es)
  {
    RunKeeps(es);
    ClosedRun(es);
  }

  /** Once a start was answered, the runtime's record is dropped only when a terminal state is saved. */
  lemma SavedBeforeDropped(es: seq<Event>, e: Event)
    requires Legal(es) && Enabled(After(es), e) && Drops(e) && After(es).acked
    ensures After(es).saved.Some? && Terminal(After(es).saved.value.state)
  {
    RunKeeps(es);
  }

  /** A process that is about to be started. */
  lemma Prepared(f: string) returns (es: seq<Event>)
    ensures Legal(es)
    ensures
      var info := Info(f, Starting);
      After(es) == Process(Some(info), Some(Entry(info, true, false)), Created, Made, 0, false, None)
  {
    es := [];
    Extend(es, Register(f));
    es := es + [Register(f)];
    Extend(es, SaveIntent(Done));
    es := es + [SaveIntent(Done)];
    Extend(es, MakeExec(Done));
    es := es + [MakeExec(Done)];
  }

  /** Without an answer the record can go while only the intent is saved: the deletion and the save
      after a failed start fail too, and the process exits. */
  lemma UnansweredStartUnsaved(f: string, code: nat) returns (es: seq<Event>)
    ensures Legal(es) && Enabled(After(es), Tidy(Done)) && After(es).starts == 1 && !After(es).acked
    ensures After(es).saved == Some(Info(f, Starting))
  {
    es := Prepared(f);
    Extend(es, IssueStart(FailedAfter));
    es := es + [IssueStart(FailedAfter)];
    Extend(es, DeleteFailed(FailedBefore));
    es := es + [DeleteFailed(FailedBefore)];
    Extend(es, SaveFailure(FailedBefore));
    es := es + [SaveFailure(FailedBefore)];
    Extend(es, Exits(code));
    es := es + [Exits(code)];
  }

  /** An exit has been saved, and no watcher is about to save again. */
  predicate Settled(p: Process) {
    p.saved.Some? && p.saved.value.state.Exited? && p.pc != Watching
  }

  lemma SettledStep(p: Process, e: Event)
    requires Good(p) && Settled(p) && Enabled(p, e)
    ensures Settled(Next(p, e)) && Next(p, e).saved == p.saved
  {
  }

  /** A saved exit is the runtime's own. */
  lemma ExitIsTrue(es: seq<Event>)
    requires Legal(es) && After(es).saved.Some? && After(es).saved.value.state.Exited?
    ensures After(es).code == Some(After(es).saved.value.state.code)
  {
    RunKeeps(es);
  }

  /** With no watcher about to save again, it stays as it is through everything that follows. */
  lemma {:induction false} ExitStays(es: seq<Event>, more: seq<Event>)
    requires Legal(es + more) && Settled(After(es))
    ensures After(es + more).saved == After(es).saved && Settled(After(es + more))
  {
    if more == [] {
      assert es + more == es;
    } else {
      var k := |more| - 1;
      assert (es + more)[..|es + more| - 1] == es + more[..k];
      ExitStays(es, more[..k]);
      RunKeeps(es + more[..k]);
      SettledStep(After(es + more[..k]), more[k]);
    }
  }

  /** While a watcher polls, the runtime may lose the exec and the watcher then saves an error over
      the exit. So it happens when the save of the exit took effect but was reported as failed. */
  lemma ExitOverwritten(es: seq<Event>)
    requires Legal(es) && After(es).pc == Watching
    ensures Legal(es + [Vanishes, SaveMissing(Done)])
    ensures After(es + [Vanishes, SaveMissing(Done)]).saved.Some?
    ensures After(es + [Vanishes, SaveMissing(Done)]).saved.value.state == Error
  {
    RunKeeps(es);
    Extend(es, Vanishes);
    Extend(es + [Vanishes], SaveMissing(Done));
    assert es + [Vanishes] + [SaveMissing(Done)] == es + [Vanishes, SaveMissing(Done)];
  }

  /** The saved state is never changed again, whatever follows. */
  ghost predicate Final(es: seq<Event>) {
    forall more | Legal(es + more) :: After(es + more).saved == After(es).saved
  }

  /** A saved exit is final exactly when no watcher is polling: the watcher that saved it had its save
      acknowledged, or has died with the adapter. */
  lemma ExitIsFinal(es: seq<Event>)
    requires Legal(es) && After(es).saved.Some? && After(es).saved.value.state.Exited?
    ensures Final(es) <==> After(es).pc != Watching
  {
    if After(es).pc == Watching {
      ExitOverwritten(es);
    } else {
      forall more | Legal(es + more) ensures After(es + more).saved == After(es).saved {
        ExitStays(es, more);
      }
    }
  }

  /** Such an exit is saved, and then lost, in a run of every request and every exit code. */
  lemma ExitLost(f: string, code: nat) returns (es: seq<Event>)
    ensures Legal(es) && After(es).saved == Some(Info(f, Exited(code))) && !Final(es)
  {
    es := Answered(f);
    Extend(es, Exits(code));
    es := es + [Exits(code)];
    Extend(es, SaveExit(FailedAfter));
    es := es + [SaveExit(FailedAfter)];
    ExitIsFinal(es);
  }

  lemma Answered(f: string) returns (es: seq<Event>)
    ensures Legal(es)
    ensures
      var info := Info(f, Running);
      After(es) == Process(Some(info), Some(Entry(info, true, false)), Live, Watching, 1, true, None)
  {
    es := Prepared(f);
    Extend(es, IssueStart(Done));
    es := es + [IssueStart(Done)];
    Extend(es, SaveRunning(Done));
    es := es + [SaveRunning(Done)];
  }

  // ----- What an answered start comes to -----

  /** While the runtime has not lost the exec, an answered start has no error saved, and its exec is
      only absent once its exit is saved and nobody watches any more. */
  predicate Faithful(p: Process) {
    p.acked ==>
      && p.saved.Some? && !p.saved.value.state.Error?
      && (p.exec.Absent? ==> p.saved.value.state.Exited? && p.pc != Watching && p.pc != Acknowledged)
  }

  lemma FaithfulStep(p: Process, e: Event)
    requires Good(p) && Faithful(p) && Enabled(p, e) && !e.Vanishes?
    ensures Faithful(Next(p, e))
  {
  }

  lemma {:induction false} FaithfulRun(es: seq<Event>)
    requires Legal(es) && Vanishes !in es
    ensures Faithful(After(es))
  {
    if es != [] {
      FaithfulRun(es[..|es| - 1]);
      RunKeeps(es[..|es| - 1]);
      FaithfulStep(After(es[..|es| - 1]), es[|es| - 1]);
    }
  }

  /** A process whose start was answered is reported as an error only if the runtime lost its exec,
      whatever was retried, failed, crashed and was recovered. */
  lemma ErrorMeansLost(es: seq<Event>)
    requires Legal(es) && After(es).acked && After(es).saved.Some? && After(es).saved.value.state.Error?
    ensures Vanishes in es
  {
    if Vanishes !in es {
      FaithfulRun(es);
    }
  }

  /** And otherwise, once nobody works on it any more, its exit is saved with the runtime's own code,
      also if it exited while the adapter was down. */
  lemma ExitKept(es: seq<Event>)
    requires Legal(es) && After(es).acked && After(es).pc == Idle && Vanishes !in es
    ensures After(es).saved.Some? && After(es).code.Some?
    ensures After(es).saved.value.state == Exited(After(es).code.value)
  {
    FaithfulRun(es);
    RunKeeps(es);
  }

  lemma RequestStep(p: Process, e: Event)
    requires Good(p) && Enabled(p, e) && p.saved.Some?
    ensures Next(p, e).saved.Some? && Next(p, e).saved.value.fingerprint == p.saved.value.fingerprint
  {
  }

  /** A recorded request is never taken for another one. */
  lemma {:induction false} RequestBound(es: seq<Event>, more: seq<Event>)
    requires Legal(es + more) && After(es).saved.Some?
    ensures After(es + more).saved.Some?
    ensures After(es + more).saved.value.fingerprint == After(es).saved.value.fingerprint
  {
    if more == [] {
      assert es + more == es;
    } else {
      var k := |more| - 1;
      assert (es + more)[..|es + more| - 1] == es + more[..k];
      RequestBound(es, more[..k]);
      RunKeeps(es + more[..k]);
      RequestStep(After(es + more[..k]), more[k]);
    }
  }

  // ----- The adapter's tables -----

  /** What the run of a process leaves on disk, in memory and in the runtime. */
  ghost predicate Shows(es: seq<Event>, saved: Option<Info>, entry: Option<Entry>, exec: Exec) {
    Legal(es) && After(es).saved == saved && After(es).entry == entry && After(es).exec == exec
  }

  /** The step is a save of that state, with that result. */
  ghost predicate Saves(p: Process, e: Event, s: State, r: Result, done: bool)
    requires p.entry.Some?
  {
    var info := p.entry.value.info.(state := s);
    && Next(p, e).saved == (if Took(r) then Some(info) else p.saved)
    && Next(p, e).entry == Some(Entry(info, p.entry.value.handle, done || p.entry.value.done))
    && Next(p, e).exec == p.exec
  }

  /** The request the entry was made for. */
  function Asked(p: Process): Option<string> {
    if p.entry.Some? then Some(p.entry.value.info.fingerprint) else None
  }

  ghost function StartsOf(runs: map<ProcessId, seq<Event>>, pid: ProcessId): nat {
    if pid in runs then Starts(runs[pid]) else 0
  }

  /** No process has been started any more often. */
  ghost predicate NoneStarted(before: map<ProcessId, seq<Event>>, after: map<ProcessId, seq<Event>>) {
    forall pid :: StartsOf(after, pid) == StartsOf(before, pid)
  }

  /** The process is being watched, or it is finished with a terminal state saved. */
  predicate Accounted(p: Process) {
    && p.entry.Some? && p.saved.Some?
    && (if p.entry.value.done then p.pc == Idle && Terminal(p.saved.value.state)
        else p.pc == Watching && p.entry.value.handle)
  }

  predicate Finished(entry: Option<Entry>) {
    entry.Some? && entry.value.done
  }

  /** What recovery makes of a record whose process the runtime does not know. */
  function ReportedMissing(info: Info): Info {
    if info.state.Exited? then info else info.(state := Error)
  }

  datatype Reply = Started(info: Info) | Known(info: Info) | Conflict | Refused

  class ProcessTable {
    // The saved `process.json` files.
    var records: map<ProcessId, Info>
    // `Runtime.processes`.
    var entries: map<ProcessId, Entry>
    // The runtime's exec records.
    var execs: map<ProcessId, Exec>
    // What has happened to each process.
    ghost var runs: map<ProcessId, seq<Event>>
    // How many saves, queries and calls have failed.
    ghost var failures: nat

    ghost function RunOf(pid: ProcessId): seq<Event>
      reads `runs
    {
      if pid in runs then runs[pid] else []
    }

    function ExecOf(pid: ProcessId): Exec
      reads `execs
    {
      if pid in execs then execs[pid] else Absent
    }

    ghost function P(pid: ProcessId): Process
      reads `runs
    {
      After(RunOf(pid))
    }

    /** The tables hold what the run of the process says. */
    ghost predicate Mirrors(pid: ProcessId)
      reads `records, `entries, `execs, `runs
    {
      Shows(RunOf(pid), Get(records, pid), Get(entries, pid), ExecOf(pid))
    }

    ghost predicate Valid()
      reads `records, `entries, `execs, `runs
    {
      forall pid :: Mirrors(pid)
    }

    /** Every process has been recovered, so requests are being served. */
    ghost predicate Serving()
      reads `runs
    {
      forall pid :: P(pid).pc != Down
    }

    /** Only this process has gone on, and its run has only grown. */
    twostate predicate Only(pid: ProcessId)
      reads `runs
    {
      && old(RunOf(pid)) <= RunOf(pid)
      && forall q | q != pid :: RunOf(q) == old(RunOf(q))
    }

    constructor ()
      ensures Valid() && Serving() && forall pid :: RunOf(pid) == []
    {
      records, entries, execs, runs, failures := map[], map[], map[], map[], 0;
    }

    /** A save or a call, which may fail with or without effect. */
    method Attempt() returns (r: Result)
      modifies `failures
      ensures failures == old(failures) + if r.Done? then 0 else 1
    {
      r := *;
      if !r.Done? {
        failures := failures + 1;
      }
    }

    /** A query, which may fail. */
    method Query() returns (ok: bool)
      modifies `failures
      ensures failures == old(failures) + if ok then 0 else 1
    {
      ok := *;
      if !ok {
        failures := failures + 1;
      }
    }

    /** One atomic step of one process. */
    method Write(pid: ProcessId, saved: Option<Info>, entry: Option<Entry>, exec: Exec, ghost run: seq<Event>)
      requires Valid() && Shows(run, saved, entry, exec) && RunOf(pid) <= run
      modifies `records, `entries, `execs, `runs
      ensures Valid() && Only(pid) && RunOf(pid) == run
      ensures Get(records, pid) == saved && Get(entries, pid) == entry && ExecOf(pid) == exec
    {
      records := if saved.Some? then records[pid := saved.value] else records - {pid};
      entries := if entry.Some? then entries[pid := entry.value] else entries - {pid};
      execs := execs[pid := exec];
      runs := runs[pid := run];
      forall q ensures Mirrors(q) {
        assert old(Mirrors(q));
      }
    }

    /** The runtime acts on its own: a running process exits, or its task is torn down. */
    method Environment(pid: ProcessId)
      requires Valid()
      modifies `records, `entries, `execs, `runs
      ensures Valid() && Only(pid)
      ensures P(pid) == old(P(pid)).(exec := P(pid).exec, code := P(pid).code)
      ensures Starts(RunOf(pid)) == old(Starts(RunOf(pid)))
      ensures P(pid).exec.Live? ==> old(P(pid).exec.Live?)
    {
      assert Mirrors(pid);
      var exits: bool, vanishes: bool, code: nat := *, *, *;
      if exits && ExecOf(pid).Live? {
        Move(pid, Stopped(code), Exits(code));
      }
      if vanishes {
        assert Mirrors(pid);
        Move(pid, Absent, Vanishes);
      }
    }

    /** A step of the process, other than the runtime's start. */
    method Step(pid: ProcessId, saved: Option<Info>, entry: Option<Entry>, exec: Exec, ghost e: Event)
      requires Valid() && Enabled(P(pid), e) && !e.IssueStart?
      requires Next(P(pid), e).saved == saved && Next(P(pid), e).entry == entry && Next(P(pid), e).exec == exec
      modifies `records, `entries, `execs, `runs
      ensures Valid() && Only(pid) && P(pid) == Next(old(P(pid)), e)
      ensures Starts(RunOf(pid)) == old(Starts(RunOf(pid)))
      ensures Get(records, pid) == saved && Get(entries, pid) == entry && ExecOf(pid) == exec
    {
      assert Mirrors(pid);
      Extend(RunOf(pid), e);
      assert (RunOf(pid) + [e])[..|RunOf(pid)|] == RunOf(pid);
      Write(pid, saved, entry, exec, RunOf(pid) + [e]);
    }

    /** A step that only changes the runtime's record. */
    method Move(pid: ProcessId, exec: Exec, ghost e: Event)
      requires Valid() && Enabled(P(pid), e) && !e.IssueStart?
      requires Next(P(pid), e) == P(pid).(exec := exec, pc := Next(P(pid), e).pc, code := Next(P(pid), e).code)
      modifies `records, `entries, `execs, `runs
      ensures Valid() && Only(pid) && P(pid) == Next(old(P(pid)), e)
      ensures Starts(RunOf(pid)) == old(Starts(RunOf(pid)))
    {
      assert Mirrors(pid);
      Step(pid, Get(records, pid), Get(entries, pid), exec, e);
    }

    /** `saveProcess` after an assignment to the status, closing the entry's channel or not. */
    method Save(pid: ProcessId, s: State, r: Result, done: bool, ghost e: Event)
      requires Valid() && Enabled(P(pid), e) && !e.IssueStart? && P(pid).entry.Some?
      requires Saves(P(pid), e, s, r, done)
      modifies `records, `entries, `execs, `runs
      ensures Valid() && Only(pid) && P(pid) == Next(old(P(pid)), e)
      ensures Starts(RunOf(pid)) == old(Starts(RunOf(pid)))
    {
      assert Mirrors(pid);
      var entry := entries[pid];
      var info := entry.info.(state := s);
      Step(pid, if Took(r) then Some(info) else Get(records, pid),
           Some(Entry(info, entry.handle, done || entry.done)), ExecOf(pid), e);
    }

    // ----- StartProcess -----

    method CreateExec(pid: ProcessId) returns (r: Result)
      requires Valid() && P(pid).pc == Recorded
      modifies this
      ensures Valid() && Only(pid) && Asked(P(pid)) == old(Asked(P(pid)))
      ensures P(pid).pc == if r.Done? then Made else Failing
      ensures failures == old(failures) + if r.Done? then 0 else 1
    {
      Environment(pid);
      assert Mirrors(pid);
      RunKeeps(RunOf(pid));
      r := Attempt();
      var exec := if Took(r) then Created else Absent;
      Extend(RunOf(pid), MakeExec(r));
      Write(pid, Get(records, pid), Some(entries[pid].(handle := r.Done?)), exec, RunOf(pid) + [MakeExec(r)]);
    }

    method StartExec(pid: ProcessId) returns (r: Result)
      requires Valid() && P(pid).pc == Made
      modifies this
      ensures Valid() && Only(pid) && Asked(P(pid)) == old(Asked(P(pid)))
      ensures P(pid).pc == (if r.Done? then Acknowledged else StartFailed) && P(pid).acked == r.Done?
      ensures failures == old(failures) + if r.Done? then 0 else 1
    {
      Environment(pid);
      assert Mirrors(pid);
      RunKeeps(RunOf(pid));
      var exec := ExecOf(pid);
      r := Attempt();
      if exec.Created? {
        exec := if Took(r) then Live else Created;
      } else if r.Done? {
        r, failures := FailedBefore, failures + 1;
      }
      Extend(RunOf(pid), IssueStart(r));
      Write(pid, Get(records, pid), Get(entries, pid), exec, RunOf(pid) + [IssueStart(r)]);
    }

    /** From the registered entry to the answer of the runtime's start. */
    method Launch(pid: ProcessId) returns (ok: bool)
      requires Valid() && P(pid).pc == Registered
      modifies this
      ensures Valid() && Only(pid) && Asked(P(pid)) == old(Asked(P(pid)))
      ensures if ok then P(pid).pc == Acknowledged && P(pid).acked else P(pid).pc == Failing
      ensures if ok then failures == old(failures) else failures > old(failures)
    {
      assert Mirrors(pid);
      RunKeeps(RunOf(pid));
      var r := Attempt();
      Save(pid, Starting, r, false, SaveIntent(r));
      if !r.Done? {
        return false;
      }
      var prepared := Query();
      if !prepared {
        assert Mirrors(pid);
        Move(pid, ExecOf(pid), Abandon);
        return false;
      }
      ok := Execute(pid);
    }

    /** The exec is created and started. */
    method Execute(pid: ProcessId) returns (ok: bool)
      requires Valid() && P(pid).pc == Recorded
      modifies this
      ensures Valid() && Only(pid) && Asked(P(pid)) == old(Asked(P(pid)))
      ensures if ok then P(pid).pc == Acknowledged && P(pid).acked else P(pid).pc == Failing
      ensures if ok then failures == old(failures) else failures > old(failures)
    {
      var r := CreateExec(pid);
      if !r.Done? {
        return false;
      }
      r := StartExec(pid);
      if r.Done? {
        return true;
      }
      DiscardFailed(pid);
      ok := false;
    }

    /** The runtime is asked to kill and delete what a failed start has left. */
    method DiscardFailed(pid: ProcessId)
      requires Valid() && P(pid).pc == StartFailed
      modifies `records, `entries, `execs, `runs
      ensures Valid() && Only(pid) && Asked(P(pid)) == old(Asked(P(pid))) && P(pid).pc == Failing
    {
      Environment(pid);
      assert Mirrors(pid);
      var r: Result := *;
      Move(pid, if Took(r) then Absent else ExecOf(pid), DeleteFailed(r));
    }

    method Enter(pid: ProcessId, fingerprint: string)
      requires Valid() && P(pid).pc == Idle && pid !in entries
      modifies `records, `entries, `execs, `runs
      ensures Valid() && Only(pid) && P(pid).pc == Registered && Asked(P(pid)) == Some(fingerprint)
    {
      assert Mirrors(pid);
      Step(pid, Get(records, pid), Some(Entry(Info(fingerprint, Starting), false, false)), ExecOf(pid),
           Register(fingerprint));
    }

    /** An entry, the launch, and the save of how it went. */
    method Begin(pid: ProcessId, fingerprint: string) returns (reply: Reply)
      requires Valid() && P(pid).pc == Idle && pid !in entries
      modifies this
      ensures Valid() && Only(pid) && Asked(P(pid)) == Some(fingerprint)
      ensures reply.Started? ==> P(pid).acked && P(pid).saved == Some(Info(fingerprint, Running)) == Some(reply.info)
      ensures reply.Started? || reply.Refused?
      ensures if P(pid).acked then P(pid).pc == Watching else P(pid).pc == Idle
      ensures if reply.Started? then failures == old(failures) else failures > old(failures)
    {
      Enter(pid, fingerprint);
      var ok := Launch(pid);
      assert Mirrors(pid);
      RunKeeps(RunOf(pid));
      var r := Attempt();
      if ok {
        Save(pid, Running, r, false, SaveRunning(r));
      } else {
        Save(pid, Error, r, true, SaveFailure(r));
      }
      assert Mirrors(pid);
      reply := if ok && r.Done? then Started(entries[pid].info) else Refused;
    }

    /** A known request is answered from memory and issues nothing; an unknown one is started exactly
        when the sandbox's task is running and nothing fails; in any case at most one start has ever
        been issued. */
    method StartProcess(pid: ProcessId, fingerprint: string, taskRunning: bool) returns (reply: Reply)
      requires Valid() && Serving()
      modifies this
      ensures Valid() && Serving() && Only(pid) && Starts(RunOf(pid)) <= 1
      ensures old(pid in entries) ==> RunOf(pid) == old(RunOf(pid))
      ensures old(pid in entries) ==>
                var known := old(entries)[pid].info;
                reply == if known.fingerprint == fingerprint then Known(known) else Conflict
      ensures reply.Started? ==> P(pid).acked && P(pid).saved == Some(Info(fingerprint, Running)) == Some(reply.info)
      ensures old(pid !in entries) ==> (reply.Started? <==> taskRunning && failures == old(failures))
      ensures old(pid !in entries) && !reply.Started? ==> reply == Refused
    {
      assert Mirrors(pid);
      RunKeeps(RunOf(pid));
      AtMostOnce(RunOf(pid));
      assert P(pid).pc != Down;
      if pid in entries {
        return if entries[pid].info.fingerprint == fingerprint then Known(entries[pid].info) else Conflict;
      }
      var answered := Query();
      if !answered || !taskRunning {
        return Refused;
      }
      reply := Begin(pid, fingerprint);
      assert Mirrors(pid);
      AtMostOnce(RunOf(pid));
      assert forall q | q != pid :: P(q) == old(P(q));
    }

    // ----- watchProcess -----

    /** The runtime's record goes only now, after the exit was saved. */
    method Drain(pid: ProcessId)
      requires Valid() && P(pid).pc == Draining
      modifies `records, `entries, `execs, `runs
      ensures Valid() && Only(pid) && P(pid).pc == Idle && Starts(RunOf(pid)) == old(Starts(RunOf(pid)))
      ensures P(pid).saved == old(P(pid).saved) && pid in entries && entries[pid].done
    {
      Environment(pid);
      assert Mirrors(pid);
      RunKeeps(RunOf(pid));
      var r: Result := *;
      var exec := if Took(r) && !ExecOf(pid).Live? then Absent else ExecOf(pid);
      Step(pid, Get(records, pid), Some(entries[pid].(done := true)), exec, DropExited(r));
      assert Mirrors(pid);
    }

    /** One turn of the watcher's loop. */
    method Poll(pid: ProcessId) returns (done: bool)
      requires Valid() && P(pid).pc == Watching
      modifies this
      ensures Valid() && Only(pid) && Starts(RunOf(pid)) == old(Starts(RunOf(pid)))
      ensures if done then P(pid).pc == Idle && pid in entries && entries[pid].done else P(pid).pc == Watching
      ensures done ==> P(pid).saved.Some? && Terminal(P(pid).saved.value.state)
      ensures failures >= old(failures) && (failures == old(failures) && !old(ExecOf(pid)).Live? ==> done)
    {
      assert Mirrors(pid);
      RunKeeps(RunOf(pid));
      Environment(pid);
      assert Mirrors(pid);
      RunKeeps(RunOf(pid));
      var answered := Query();
      if !answered || ExecOf(pid).Live? {
        return false;
      }
      done := Conclude(pid);
    }

    /** Saves how the process ended: an error if the runtime does not know it, and otherwise its exit. */
    method Conclude(pid: ProcessId) returns (done: bool)
      requires Valid() && P(pid).pc == Watching && (P(pid).exec.Absent? || P(pid).exec.Stopped?)
      modifies this
      ensures Valid() && Only(pid) && Starts(RunOf(pid)) == old(Starts(RunOf(pid)))
      ensures if done then P(pid).pc == Idle && Finished(Get(entries, pid)) else P(pid).pc == Watching
      ensures done ==>
                && P(pid).saved.Some?
                && P(pid).saved.value.state ==
                   (if old(P(pid).exec.Absent?) then Error else Exited(old(P(pid).exec.code)))
      ensures if done then failures == old(failures) else failures > old(failures)
    {
      assert Mirrors(pid);
      RunKeeps(RunOf(pid));
      var r := Attempt();
      if ExecOf(pid).Absent? {
        Save(pid, Error, r, r.Done?, SaveMissing(r));
        assert Mirrors(pid);
        return r.Done?;
      }
      Save(pid, Exited(ExecOf(pid).code), r, false, SaveExit(r));
      if r.Done? {
        Drain(pid);
      }
      done := r.Done?;
    }

    /** The watcher, for as long as it is left to run. Its save is the first thing that can end it, and
        if nothing fails it ends as soon as the process has. */
    method Watch(pid: ProcessId, polls: nat) returns (done: bool)
      requires Valid() && P(pid).pc == Watching
      modifies this
      ensures Valid() && Only(pid) && Starts(RunOf(pid)) == old(Starts(RunOf(pid)))
      ensures done ==> pid in entries && entries[pid].done && pid in records && Terminal(records[pid].state)
      ensures done && records[pid].state.Exited? ==> P(pid).code == Some(records[pid].state.code)
      ensures !done ==> P(pid).pc == Watching
      ensures polls > 0 && failures == old(failures) && !old(ExecOf(pid)).Live? ==> done
    {
      for i := 0 to polls
        invariant Valid() && P(pid).pc == Watching && Only(pid) && Starts(RunOf(pid)) == old(Starts(RunOf(pid)))
        invariant failures >= old(failures) && (i > 0 && !old(ExecOf(pid)).Live? ==> failures > old(failures))
        invariant i == 0 ==> failures == old(failures) && ExecOf(pid) == old(ExecOf(pid))
      {
        done := Poll(pid);
        if done {
          assert Mirrors(pid);
          RunKeeps(RunOf(pid));
          return;
        }
      }
      done := false;
    }

    // ----- Crash and recovery -----

    /** The adapter is killed: memory is lost, the saved records and the runtime are not. */
    method Restart()
      requires Valid()
      modifies `records, `entries, `execs, `runs
      ensures Valid() && entries == map[] && records == old(records) && execs == old(execs)
      ensures NoneStarted(old(runs), runs)
    {
      entries := map[];
      runs := map pid | pid in runs :: runs[pid] + [Crash];
      forall pid ensures Mirrors(pid) && Starts(RunOf(pid)) == old(Starts(RunOf(pid))) {
        assert old(Mirrors(pid));
        if pid in runs {
          Extend(old(RunOf(pid)), Crash);
          assert (old(RunOf(pid)) + [Crash])[..|old(RunOf(pid))|] == old(RunOf(pid));
        }
      }
    }

    /** The runtime does not know the process. A saved terminal state stands. */
    method RecoverMissing(pid: ProcessId) returns (ok: bool)
      requires Valid() && P(pid).pc == Down && ExecOf(pid).Absent?
      modifies this
      ensures Valid() && Only(pid) && Starts(RunOf(pid)) == old(Starts(RunOf(pid))) && ok == (P(pid).pc != Down)
      ensures if ok then failures == old(failures) && Accounted(P(pid)) else failures > old(failures)
      ensures pid in old(records)
      ensures ok ==> Get(records, pid) == Some(ReportedMissing(old(records)[pid]))
    {
      assert Mirrors(pid);
      RunKeeps(RunOf(pid));
      var info := records[pid];
      if Terminal(info.state) {
        Step(pid, Some(info), Some(Entry(info, false, true)), Absent, Reload);
        return true;
      }
      var r := Attempt();
      var failed := info.(state := Error);
      Step(pid, Some(if Took(r) then failed else info), if r.Done? then Some(Entry(failed, false, true)) else None,
           Absent, ReloadMissing(r));
      ok := r.Done?;
    }

    /** The intent was saved but the start was never completed: it is not run a second time. */
    method RecoverCreated(pid: ProcessId) returns (ok: bool)
      requires Valid() && P(pid).pc == Down && ExecOf(pid).Created?
      modifies this
      ensures Valid() && Only(pid) && Starts(RunOf(pid)) == old(Starts(RunOf(pid))) && ok == (P(pid).pc != Down)
      ensures if ok then failures == old(failures) && Accounted(P(pid)) else failures > old(failures)
      ensures pid in old(records)
      ensures ok ==> Get(records, pid) == Some(old(records)[pid].(state := Error)) && Finished(Get(entries, pid))
    {
      assert Mirrors(pid);
      RunKeeps(RunOf(pid));
      var r := Attempt();
      var info := records[pid];
      var failed := info.(state := Error);
      Step(pid, Some(if Took(r) then failed else info), if r.Done? then Some(Entry(failed, true, false)) else None,
           Created, ReloadCreated(r));
      ok := r.Done?;
      if ok {
        assert Mirrors(pid);
        r := *;
        Step(pid, Some(failed), Some(Entry(failed, true, true)), if Took(r) then Absent else Created, DropCreated(r));
      }
    }

    /** The process has exited: retire it if that was saved, and otherwise watch it. */
    method RecoverStopped(pid: ProcessId) returns (ok: bool)
      requires Valid() && P(pid).pc == Down && ExecOf(pid).Stopped?
      modifies this
      ensures Valid() && Only(pid) && Starts(RunOf(pid)) == old(Starts(RunOf(pid))) && ok == (P(pid).pc != Down)
      ensures if ok then failures == old(failures) && Accounted(P(pid)) else failures > old(failures)
      ensures pid in old(records) && Get(records, pid) == Some(old(records)[pid])
      ensures !Terminal(old(records)[pid].state) ==>
                && ok && P(pid).pc == Watching && ExecOf(pid) == old(ExecOf(pid))
                && Get(entries, pid) == Some(Entry(old(records)[pid], true, false))
      ensures Terminal(old(records)[pid].state) && ok ==> ExecOf(pid).Absent? && Finished(Get(entries, pid))
    {
      assert Mirrors(pid);
      RunKeeps(RunOf(pid));
      var info := records[pid];
      if Terminal(info.state) {
        var r := Attempt();
        Step(pid, Some(info), if r.Done? then Some(Entry(info, true, true)) else None,
             if Took(r) then Absent else ExecOf(pid), DropStopped(r));
        return r.Done?;
      }
      Step(pid, Some(info), Some(Entry(info, true, false)), ExecOf(pid), ReloadStopped);
      ok := true;
    }

    /** The process is still running: say so again, and watch it. */
    method RecoverRunning(pid: ProcessId) returns (ok: bool)
      requires Valid() && P(pid).pc == Down && ExecOf(pid).Live?
      modifies this
      ensures Valid() && Only(pid) && Starts(RunOf(pid)) == old(Starts(RunOf(pid))) && ok == (P(pid).pc != Down)
      ensures if ok then failures == old(failures) && Accounted(P(pid)) else failures > old(failures)
      ensures pid in old(records)
      ensures ok ==> Get(records, pid) == Some(old(records)[pid].(state := Running)) && P(pid).pc == Watching
    {
      assert Mirrors(pid);
      RunKeeps(RunOf(pid));
      var r := Attempt();
      var info := records[pid];
      var running := info.(state := Running);
      Step(pid, Some(if Took(r) then running else info), if r.Done? then Some(Entry(running, true, false)) else None,
           Live, ReloadRunning(r));
      ok := r.Done?;
    }

    method RecoverOne(pid: ProcessId) returns (ok: bool)
      requires Valid() && P(pid).pc == Down
      modifies this
      ensures Valid() && Only(pid) && Starts(RunOf(pid)) == old(Starts(RunOf(pid))) && ok == (P(pid).pc != Down)
      ensures if ok then failures == old(failures) && Accounted(P(pid)) else failures > old(failures)
    {
      Environment(pid);
      var answered := Query();
      if !answered {
        return false;
      }
      match ExecOf(pid)
      case Absent => ok := RecoverMissing(pid);
      case Created => ok := RecoverCreated(pid);
      case Stopped(_) => ok := RecoverStopped(pid);
      case Live => ok := RecoverRunning(pid);
    }

    /** These are the processes still to be recovered. */
    ghost predicate Awaiting(paths: set<ProcessId>)
      reads `runs
    {
      forall pid :: pid in paths <==> P(pid).pc == Down
    }

    method RecoverNext(pid: ProcessId, ghost paths: set<ProcessId>) returns (ok: bool)
      requires Valid() && Awaiting(paths) && pid in paths
      modifies this
      ensures Valid() && NoneStarted(old(runs), runs) && (ok ==> Awaiting(paths - {pid}))
      ensures if ok then failures == old(failures) && Accounted(P(pid)) else failures > old(failures)
      ensures forall q | q != pid :: P(q) == old(P(q))
    {
      ok := RecoverOne(pid);
      forall q ensures StartsOf(runs, q) == StartsOf(old(runs), q) {
        assert RunOf(q) == old(RunOf(q)) || q == pid;
      }
      assert forall q | q != pid :: P(q) == old(P(q));
    }

    /** `recoverProcesses`: nothing is started again; it succeeds exactly when nothing fails; and then
        every saved process is being watched, or finished with a terminal status saved. */
    method Recover() returns (ok: bool)
      requires Valid() && entries == map[]
      modifies this
      ensures Valid() && (ok ==> Serving())
      ensures NoneStarted(old(runs), runs)
      ensures ok <==> failures == old(failures)
      ensures ok ==> forall pid | pid in old(records) :: Accounted(P(pid))
    {
      var paths := records.Keys;
      forall pid ensures pid in paths <==> P(pid).pc == Down {
        assert Mirrors(pid);
        RunKeeps(RunOf(pid));
      }
      while paths != {}
        invariant Valid() && Awaiting(paths) && NoneStarted(old(runs), runs) && failures == old(failures)
        invariant forall pid | pid in old(records) && pid !in paths :: Accounted(P(pid))
      {
        var pid :| pid in paths;
        ghost var before := runs;
        ok := RecoverNext(pid, paths);
        assert forall q :: StartsOf(runs, q) == StartsOf(before, q) == StartsOf(old(runs), q);
        if !ok {
          return;
        }
        paths := paths - {pid};
      }
      ok := true;
    }

    // ----- cleanupProcessRecords -----

    /** A finished entry whose runtime record is still there. */
    predicate Untidy(pid: ProcessId)
      reads `entries, `execs
    {
      && pid in entries && entries[pid].done && entries[pid].handle
      && (ExecOf(pid).Stopped? || ExecOf(pid).Created?)
    }

    method TidyOne(pid: ProcessId) returns (ok: bool)
      requires Valid() && pid in entries
      modifies this
      ensures Valid() && Only(pid) && Starts(RunOf(pid)) == old(Starts(RunOf(pid)))
      ensures P(pid) == old(P(pid)).(exec := P(pid).exec, code := P(pid).code)
      ensures ok ==> !Untidy(pid)
      ensures if ok then failures == old(failures) else failures > old(failures)
    {
      if !entries[pid].done || !entries[pid].handle {
        return true;
      }
      assert Mirrors(pid);
      Environment(pid);
      assert Mirrors(pid);
      var answered := Query();
      if !answered {
        return false;
      }
      if !ExecOf(pid).Stopped? && !ExecOf(pid).Created? {
        return true;
      }
      var r := Attempt();
      Step(pid, Get(records, pid), Get(entries, pid), if Took(r) then Absent else ExecOf(pid), Tidy(r));
      assert Mirrors(pid);
      ok := r.Done?;
    }

    method TidyNext(pid: ProcessId) returns (ok: bool)
      requires Valid() && pid in entries
      modifies this
      ensures Valid() && NoneStarted(old(runs), runs) && (ok ==> !Untidy(pid))
      ensures if ok then failures == old(failures) else failures > old(failures)
      ensures records == old(records) && entries == old(entries)
      ensures forall q | q != pid :: Untidy(q) == old(Untidy(q))
    {
      assert Mirrors(pid);
      ok := TidyOne(pid);
      forall q ensures StartsOf(runs, q) == StartsOf(old(runs), q) {
        assert RunOf(q) == old(RunOf(q)) || q == pid;
      }
      forall q ensures Get(records, q) == Get(old(records), q) && Get(entries, q) == Get(old(entries), q)
        ensures q != pid ==> ExecOf(q) == old(ExecOf(q))
      {
        assert Mirrors(q) && old(Mirrors(q));
        assert P(q) == old(P(q)) || q == pid;
      }
      SameGets(records, old(records));
      SameGets(entries, old(entries));
    }

    /** `cleanupProcessRecords`: when every answer is good, no finished entry has a runtime record left. */
    method Cleanup() returns (ok: bool)
      requires Valid()
      modifies this
      ensures Valid() && NoneStarted(old(runs), runs)
      ensures records == old(records) && entries == old(entries)
      ensures (ok <==> failures == old(failures)) && (ok ==> forall pid :: !Untidy(pid))
    {
      var ps := entries.Keys;
      while ps != {}
        invariant Valid() && NoneStarted(old(runs), runs) && ps <= entries.Keys && failures == old(failures)
        invariant records == old(records) && entries == old(entries)
        invariant forall pid | pid !in ps :: !Untidy(pid)
      {
        var pid :| pid in ps;
        ps := ps - {pid};
        ok := TidyNext(pid);
        if !ok {
          return;
        }
      }
      ok := true;
    }
  }
}
