/** The adapter's side of disk accounting: create, start, stop and delete as step sequences over
snapshots, project quotas and durable ownership records.

Each foreign step may fail, before or after taking effect, and the adapter may die at any of them;
both end the method early. What a method promises on every exit therefore holds after every prefix
of its steps. Its contract is the relation `Lifecycle.Effect` that the journal relies on. */
module QuotaJournal {
  import opened Options
  import opened Totals
  import opened Lifecycle

  /** Blocks of 512 bytes and inodes, as the kernel limits and counts them for each project. */
  datatype Cap = Cap(blocks: nat, inodes: nat)

  const NO_USE := Cap(0, 0)

  predicate Under(use: Cap, limit: Cap) {
    use.blocks <= limit.blocks && use.inodes <= limit.inodes
  }

  function CapFor(diskMB: nat): Cap {
    Cap(diskMB * 2048, diskMB * 256)
  }

  /** A durable ownership record; `project` is the numeric snapshot identifier. */
  datatype Record = Record(project: nat, diskMB: nat)

  datatype Store = Store(
    containers: map<SandboxId, Container>,
    snapshots: map<SandboxId, nat>,
    dirs: set<nat>,
    usage: map<nat, Cap>,
    caps: map<nat, Cap>,
    records: map<SandboxId, Record>,
    next: nat)

  function UsageOf(s: Store, project: nat): Cap {
    if project in s.usage then s.usage[project] else NO_USE
  }

  /** A container exists only with its record and with the limits of its own configuration. */
  ghost predicate Enforced(s: Store) {
    forall id | id in s.containers ::
      && id in s.records && s.records[id].diskMB == s.containers[id].limits.disk
      && Get(s.caps, s.records[id].project) == Some(CapFor(s.containers[id].limits.disk))
  }

  /** Every project in use is owned by a record that pays for it. */
  ghost predicate Owned(s: Store) {
    forall p | p in s.usage && s.usage[p] != NO_USE ::
      exists id :: id in s.records && s.records[id].project == p && Under(s.usage[p], CapFor(s.records[id].diskMB))
  }

  /** Snapshot numbers are never reused. */
  ghost predicate Numbered(s: Store) {
    && (forall id | id in s.records :: s.records[id].project < s.next)
    && (forall id | id in s.snapshots :: s.snapshots[id] < s.next)
    && (forall p | p in s.usage :: p < s.next)
    && (forall i, j | i in s.records && j in s.records && s.records[i].project == s.records[j].project :: i == j)
  }

  ghost predicate Sound(s: Store) {
    Enforced(s) && Owned(s) && Numbered(s)
  }

  /** The same, for contracts: the quantifier keeps its parts out of proofs that do not ask for them. */
  ghost predicate Kept(s: Store) {
    forall t | t == s :: Sound(t)
  }

  function UnitIn(s: Store, id: SandboxId): Unit {
    Unit(Get(s.containers, id), if id in s.records then Some(s.records[id].diskMB) else None)
  }

  // ----- Single steps keep the store sound -----

  /** A new snapshot, a removed snapshot and a purged directory leave ownership alone. */
  lemma SnapshotKeeps(s: Store, s': Store)
    requires Sound(s) && s'.containers == s.containers && s'.records == s.records && s'.caps == s.caps
    requires s.next <= s'.next
    requires forall id | id in s'.snapshots :: s'.snapshots[id] < s'.next
    requires forall p | p in s'.usage :: p in s.usage && s'.usage[p] == s.usage[p]
    ensures Sound(s')
  {
  }

  lemma OwnershipKeeps(s: Store, id: SandboxId, r: Record)
    requires Sound(s) && id !in s.records && id !in s.containers && r.project < s.next
    requires forall j | j in s.records :: s.records[j].project != r.project
    ensures Sound(s.(records := s.records[id := r]))
  {
    var s' := s.(records := s.records[id := r]);
    forall p | p in s'.usage && s'.usage[p] != NO_USE
      ensures exists j ::
                j in s'.records && s'.records[j].project == p && Under(s'.usage[p], CapFor(s'.records[j].diskMB))
    {
      var j :| j in s.records && s.records[j].project == p && Under(s.usage[p], CapFor(s.records[j].diskMB));
      assert s'.records[j] == s.records[j];
    }
  }

  lemma CapKeeps(s: Store, id: SandboxId, cap: Option<Cap>)
    requires Sound(s) && id in s.records && id !in s.containers
    ensures Sound(s.(caps := Put(s.caps, s.records[id].project, cap)))
  {
  }

  lemma ForgetKeeps(s: Store, id: SandboxId)
    requires Sound(s) && id in s.records && id !in s.containers && UsageOf(s, s.records[id].project) == NO_USE
    ensures Sound(s.(records := s.records - {id}))
  {
    var s' := s.(records := s.records - {id});
    forall p | p in s'.usage && s'.usage[p] != NO_USE
      ensures exists j ::
                j in s'.records && s'.records[j].project == p && Under(s'.usage[p], CapFor(s'.records[j].diskMB))
    {
      var j :| j in s.records && s.records[j].project == p && Under(s.usage[p], CapFor(s.records[j].diskMB));
      assert j in s'.records;
    }
  }

  lemma ContainerKeeps(s: Store, id: SandboxId, c: Option<Container>)
    requires Sound(s)
    requires c.Some? ==>
               && id in s.records && s.records[id].diskMB == c.value.limits.disk
               && Get(s.caps, s.records[id].project) == Some(CapFor(c.value.limits.disk))
    ensures Sound(s.(containers := Put(s.containers, id, c)))
  {
  }

  /** A sandbox that writes stays within the kernel limit, hence within its record. */
  lemma WriteKeepsOwned(s: Store, id: SandboxId, use: Cap)
    requires Sound(s) && id in s.containers && id in s.records
    requires Under(use, s.caps[s.records[id].project])
    ensures Sound(s.(usage := s.usage[s.records[id].project := use]))
  {
  }

  // ----- The cross-layer disk bound -----

  /** The limits outstanding for some sandboxes, in MiB. */
  function RecordDisk(s: Store, ids: set<SandboxId>): map<SandboxId, nat> {
    map id | id in s.records && id in ids :: s.records[id].diskMB
  }

  /** The blocks those sandboxes occupy. */
  function RecordBlocks(s: Store, ids: set<SandboxId>): map<SandboxId, nat> {
    map id | id in s.records && id in ids :: UsageOf(s, s.records[id].project).blocks
  }

  /** The inodes they occupy. */
  function RecordInodes(s: Store, ids: set<SandboxId>): map<SandboxId, nat> {
    map id | id in s.records && id in ids :: UsageOf(s, s.records[id].project).inodes
  }

  lemma UsePaid(s: Store, id: SandboxId)
    requires Sound(s) && id in s.records
    ensures Under(UsageOf(s, s.records[id].project), CapFor(s.records[id].diskMB))
  {
  }

  lemma {:induction false} TotalScaled(m: map<SandboxId, nat>, scaled: map<SandboxId, nat>, k: nat)
    requires scaled.Keys == m.Keys && forall id | id in m :: scaled[id] == m[id] * k
    ensures Total(scaled) == Total(m) * k
    decreases |m|
  {
    if m == map[] {
      assert scaled == map[];
    } else {
      var id :| id in m;
      TotalSplit(m, id);
      TotalSplit(scaled, id);
      TotalScaled(m - {id}, scaled - {id}, k);
      assert Total(scaled) == m[id] * k + Total(m - {id}) * k == (m[id] + Total(m - {id})) * k;
    }
  }

  /** A column that is bounded row by row is bounded in sum. */
  lemma TotalBounded(use: map<SandboxId, nat>, disk: map<SandboxId, nat>, k: nat)
    requires use.Keys == disk.Keys && forall id | id in use :: use[id] <= disk[id] * k
    ensures Total(use) <= Total(disk) * k
  {
    var scaled := map id | id in disk :: disk[id] * k;
    TotalScaled(disk, scaled, k);
    TotalMonotone(use, scaled);
  }

  lemma UseWithinRecords(s: Store, ids: set<SandboxId>)
    requires Sound(s)
    ensures Total(RecordBlocks(s, ids)) <= Total(RecordDisk(s, ids)) * 2048
    ensures Total(RecordInodes(s, ids)) <= Total(RecordDisk(s, ids)) * 256
  {
    forall id | id in s.records && id in ids
      ensures Under(UsageOf(s, s.records[id].project), CapFor(s.records[id].diskMB))
    {
      UsePaid(s, id);
    }
    TotalBounded(RecordBlocks(s, ids), RecordDisk(s, ids), 2048);
    TotalBounded(RecordInodes(s, ids), RecordDisk(s, ids), 256);
  }

  /** The quota records as the journal sees them. */
  function QuotasOf(records: map<SandboxId, Record>): map<SandboxId, nat> {
    map id | id in records :: records[id].diskMB
  }

  /** Only what is held for `id` has changed. */
  ghost predicate OthersKept(s: Store, s': Store, id: SandboxId) {
    forall j | j != id :: UnitIn(s', j) == UnitIn(s, j)
  }

  /** Then the journal sees one sandbox rewritten. */
  lemma SeenAsWrite(s: Store, s': Store, id: SandboxId)
    requires OthersKept(s, s', id)
    ensures s'.containers == Put(s.containers, id, UnitIn(s', id).container)
    ensures QuotasOf(s'.records) == Put(QuotasOf(s.records), id, UnitIn(s', id).quota)
  {
    forall j | j != id
      ensures Get(s'.containers, j) == Get(s.containers, j)
      ensures Get(QuotasOf(s'.records), j) == Get(QuotasOf(s.records), j)
    {
      assert UnitIn(s', j) == UnitIn(s, j);
    }
    SameGets(s'.containers, Put(s.containers, id, UnitIn(s', id).container));
    SameGets(QuotasOf(s'.records), Put(QuotasOf(s.records), id, UnitIn(s', id).quota));
  }

  // ----- The adapter -----

  /** What the adapter carries out if nothing fails. */
  predicate Accepts(verb: Verb, limits: Limits, unit: Unit) {
    match verb
    case CreateContainer =>
      if unit.container.Some? then unit.container.value.limits == limits else 16 <= limits.disk <= 1048576
    case StartContainer => unit.container.Some?
    case StopContainer => unit.container.Some?
    case DeleteContainer => true
  }

  class Adapter {
    var containers: map<SandboxId, Container>
    var snapshots: map<SandboxId, nat>
    var dirs: set<nat>
    var usage: map<nat, Cap>
    var caps: map<nat, Cap>
    var records: map<SandboxId, Record>
    var next: nat
    // How many foreign steps have failed.
    ghost var faults: nat

    function S(): Store
      reads this
    {
      Store(containers, snapshots, dirs, usage, caps, records, next)
    }

    constructor ()
      ensures Kept(S()) && S() == Store(map[], map[], {}, map[], map[], map[], 0)
    {
      containers, snapshots, dirs, usage, caps, records, next := map[], map[], {}, map[], map[], map[], 0;
      faults := 0;
    }

    /** A foreign step. If it fails it may have had its effect or not. */
    method Try() returns (ok: bool, applied: bool)
      modifies `faults
      ensures (ok ==> applied) && faults == old(faults) + if ok then 0 else 1
    {
      ok, applied := *, *;
      applied := applied || ok;
      if !ok {
        faults := faults + 1;
      }
    }

    /** The error a failed step is reported with, or no report at all if the adapter died. */
    method Fault() returns (o: Outcome)
      ensures !o.Ok?
    {
      o := *;
      if o.Ok? {
        o := Lost;
      }
    }

    /** The snapshotter removes directories of deleted snapshots in its own time, and with them
        their blocks. */
    method Purge()
      requires Kept(S())
      modifies `dirs, `usage
      ensures Kept(S()) && containers == old(containers) && records == old(records) && caps == old(caps)
      ensures snapshots == old(snapshots) && next == old(next)
    {
      var gone: set<nat> := *;
      gone := gone - snapshots.Values;
      ghost var before := S();
      dirs := dirs - gone;
      usage := usage - gone;
      SnapshotKeeps(before, S());
    }

    /** A running or stopped sandbox is written to; the kernel enforces the project's hard limit. */
    method Write(id: SandboxId, use: Cap)
      requires Kept(S()) && id in containers
      modifies `usage
      ensures Kept(S()) && containers == old(containers) && records == old(records)
    {
      assert Sound(S());
      var project := records[id].project;
      if Under(use, caps[project]) {
        WriteKeepsOwned(S(), id, use);
        usage := usage[project := use];
      }
    }

    method RemoveSnapshot(id: SandboxId) returns (ok: bool)
      requires Kept(S())
      modifies this
      ensures Kept(S()) && containers == old(containers) && records == old(records) && caps == old(caps)
      ensures next == old(next)
      ensures ok ==> id !in snapshots
      ensures if ok then faults == old(faults) else faults > old(faults)
    {
      var applied;
      ok, applied := Try();
      if applied {
        ghost var before := S();
        snapshots := snapshots - {id};
        SnapshotKeeps(before, S());
      }
    }

    /** Waits until the snapshot's directory is gone and the kernel reports no use, clears the
        limits, and only then removes the record. Success therefore means that nothing is in use. */
    method ReclaimQuota(id: SandboxId) returns (ok: bool)
      requires Kept(S()) && id !in containers
      modifies this
      ensures Kept(S()) && containers == old(containers) && snapshots == old(snapshots) && next == old(next)
      ensures records == old(records) || (id in old(records) && records == old(records) - {id})
      ensures id in old(records) && id !in records ==>
                var project := old(records)[id].project;
                project !in dirs && UsageOf(S(), project) == NO_USE && project !in caps
      ensures ok ==> id !in records
      ensures if ok then faults == old(faults) else faults > old(faults)
    {
      if id !in records {
        return true;
      }
      var project := records[id].project;
      var polls: nat := *;
      while project in dirs || UsageOf(S(), project) != NO_USE
        invariant Kept(S()) && containers == old(containers) && records == old(records) && caps == old(caps)
        invariant snapshots == old(snapshots) && next == old(next) && faults == old(faults)
        decreases polls
      {
        if polls == 0 {
          faults := faults + 1;
          return false;
        }
        Purge();
        polls := polls - 1;
      }
      var applied;
      ok, applied := Try();
      if applied {
        CapKeeps(S(), id, None);
        caps := caps - {project};
      }
      if !ok {
        return;
      }
      ok, applied := Try();
      if applied {
        ForgetKeeps(S(), id);
        records := records - {id};
      }
    }

    /** Writes the ownership record, then the limits, then reads the limits back. */
    method PrepareQuota(id: SandboxId, project: nat, diskMB: nat) returns (ok: bool)
      requires Kept(S()) && id !in records && id !in containers && project < next
      requires forall j | j in records :: records[j].project != project
      modifies this
      ensures Kept(S()) && containers == old(containers) && snapshots == old(snapshots) && next == old(next)
      ensures records == old(records) || records == old(records)[id := Record(project, diskMB)]
      ensures caps != old(caps) ==> Get(records, id) == Some(Record(project, diskMB))
      ensures ok ==> Get(records, id) == Some(Record(project, diskMB))
      ensures ok ==> Get(caps, project) == Some(CapFor(diskMB)) == Some(Cap(diskMB * 2048, diskMB * 256))
      ensures faults >= old(faults) && (ok <==> faults == old(faults) && 16 <= diskMB <= 1048576)
    {
      var applied;
      ok, applied := Try();
      if applied {
        OwnershipKeeps(S(), id, Record(project, diskMB));
        records := records[id := Record(project, diskMB)];
      }
      if !ok || diskMB < 16 || diskMB > 1048576 {
        return false;
      }
      ok, applied := Try();
      if applied {
        CapKeeps(S(), id, Some(CapFor(diskMB)));
        caps := caps[project := CapFor(diskMB)];
      }
      if !ok {
        return;
      }
      ok, applied := Try();
      ok := ok && caps[project].blocks == diskMB * 2048 && caps[project].inodes == diskMB * 256;
    }

    /** Container metadata and task state, as the runtime commits them. */
    method CommitContainer(id: SandboxId, c: Option<Container>)
      requires Kept(S())
      requires c.Some? ==>
                 && id in records && records[id].diskMB == c.value.limits.disk
                 && Get(caps, records[id].project) == Some(CapFor(c.value.limits.disk))
      modifies this`containers
      ensures Kept(S()) && containers == Put(old(containers), id, c)
    {
      ContainerKeeps(S(), id, c);
      containers := Put(containers, id, c);
    }

    /** A fresh snapshot: the snapshotter hands out its next number. */
    method NewSnapshot(id: SandboxId) returns (ok: bool, project: nat)
      requires Kept(S())
      modifies this
      ensures Kept(S()) && containers == old(containers) && records == old(records)
      ensures ok ==> project < next && forall j | j in records :: records[j].project != project
      ensures if ok then faults == old(faults) else faults > old(faults)
    {
      var applied;
      ok, applied := Try();
      project := next;
      if applied {
        ghost var before := S();
        snapshots := snapshots[id := next];
        dirs := dirs + {next};
        next := next + 1;
        SnapshotKeeps(before, S());
      }
    }

    /** Creates the container of a sandbox. It commits last, so it exists only with its record and
        with limits that were read back. A repeated create finds it, changes nothing and succeeds; a
        first one succeeds exactly when no step fails and the size is in range. */
    method Create(id: SandboxId, limits: Limits) returns (o: Outcome)
      requires Kept(S())
      modifies this
      ensures Kept(S()) && OthersKept(old(S()), S(), id)
      ensures old(id in containers) && old(containers)[id].limits != limits ==> o == Refused(409, "")
      ensures old(id in containers ==> containers[id].limits == limits) ==>
                Effect(CreateContainer, limits, old(UnitIn(S(), id)), o, UnitIn(S(), id))
      ensures old(id in containers) && old(containers)[id].limits == limits ==> o == Ok
      ensures old(id in containers) ==> S() == old(S()) && faults == old(faults)
      ensures old(id !in containers) ==> (o.Ok? <==> faults == old(faults) && 16 <= limits.disk <= 1048576)
      ensures faults >= old(faults)
    {
      if id in containers {
        o := if containers[id].limits == limits then Ok else Refused(409, "");
        return;
      }
      var ok := true;
      if id in snapshots {
        ok := RemoveSnapshot(id);
      }
      if ok {
        ok := ReclaimQuota(id);
      }
      if ok {
        var unpacked;
        ok, unpacked := Try();
      }
      if ok {
        ok := Materialize(id, limits);
      }
      if ok {
        return Ok;
      }
      o := Fault();
    }

    /** Snapshot, quota and container, with the snapshot rolled back if a later step fails. */
    method Materialize(id: SandboxId, limits: Limits) returns (ok: bool)
      requires Kept(S()) && id !in containers && id !in records
      modifies this
      ensures Kept(S()) && OthersKept(old(S()), S(), id)
      ensures ok ==> UnitIn(S(), id) == Unit(Some(Container(limits, false)), Some(limits.disk))
      ensures !ok ==>
                var made := Unit(Some(Container(limits, false)), Some(limits.disk));
                UnitIn(S(), id) in {Unit(None, None), Unit(None, Some(limits.disk)), made}
      ensures faults >= old(faults) && (ok <==> faults == old(faults) && 16 <= limits.disk <= 1048576)
    {
      var project;
      ok, project := NewSnapshot(id);
      if !ok {
        return;
      }
      ok := PrepareQuota(id, project, limits.disk);
      if ok {
        var applied;
        ok, applied := Try();
        if applied {
          CommitContainer(id, Some(Container(limits, false)));
          return;
        }
      }
      var rolledBack := RemoveSnapshot(id);
    }

    /** Starts the task. Its quota is verified first; a missing container is reported as such. */
    method Start(id: SandboxId) returns (o: Outcome)
      requires Kept(S())
      modifies this
      ensures Kept(S()) && OthersKept(old(S()), S(), id)
      ensures old(id !in containers) ==> o == Refused(404, "") && S() == old(S())
      ensures old(id in containers) ==>
                Effect(StartContainer, old(containers)[id].limits, old(UnitIn(S(), id)), o, UnitIn(S(), id))
      ensures o.Ok? ==>
                && id in containers && id in records
                && Get(caps, records[id].project) == Some(CapFor(containers[id].limits.disk))
      ensures old(id in containers) ==> (o.Ok? <==> faults == old(faults))
      ensures faults >= old(faults)
    {
      if id !in containers {
        return Refused(404, "");
      }
      assert Sound(S());
      if containers[id].running {
        return Ok;
      }
      var ok, applied := Try();
      var verified := Get(caps, records[id].project) == Some(CapFor(containers[id].limits.disk));
      if !ok || !verified {
        o := Fault();
        return;
      }
      ok, applied := Try();
      if applied {
        CommitContainer(id, Some(containers[id].(running := true)));
      }
      if ok {
        return Ok;
      }
      o := Fault();
    }

    /** Stops the task; the container, its snapshot and its quota are retained. */
    method Stop(id: SandboxId) returns (o: Outcome)
      requires Kept(S())
      modifies this
      ensures Kept(S()) && OthersKept(old(S()), S(), id)
      ensures old(id !in containers) ==> o == Refused(404, "") && S() == old(S())
      ensures old(id in containers) ==>
                Effect(StopContainer, old(containers)[id].limits, old(UnitIn(S(), id)), o, UnitIn(S(), id))
      ensures records == old(records) && caps == old(caps) && snapshots == old(snapshots) && usage == old(usage)
      ensures old(id in containers) ==> (o.Ok? <==> faults == old(faults))
      ensures faults >= old(faults)
    {
      if id !in containers {
        return Refused(404, "");
      }
      assert Sound(S());
      var ok, applied := Try();
      if applied {
        CommitContainer(id, Some(containers[id].(running := false)));
      }
      if ok {
        return Ok;
      }
      o := Fault();
    }

    /** Task, snapshot and container metadata, in this order; the record is not touched. */
    method RemoveContainer(id: SandboxId) returns (o: Outcome)
      requires Kept(S())
      modifies this
      ensures Kept(S()) && records == old(records) && OthersKept(old(S()), S(), id)
      ensures o.Ok? ==> id !in containers && id !in snapshots
      ensures !o.Ok? ==>
                var unit := old(UnitIn(S(), id));
                UnitIn(S(), id) in {unit, Halted(unit), Unit(None, unit.quota)}
      ensures if o.Ok? then faults == old(faults) else faults > old(faults)
    {
      if id in containers {
        o := Stop(id);
        if !o.Ok? {
          return;
        }
      }
      if id in containers || id in snapshots {
        var removed := RemoveSnapshot(id);
        if !removed {
          o := Fault();
          return;
        }
      }
      if id in containers {
        var ok, applied := Try();
        if applied {
          CommitContainer(id, None);
        }
        if !ok {
          o := Fault();
          return;
        }
      }
      o := Ok;
    }

    /** Deletes a sandbox. Success means that container and record are gone, and the record was only
        removed once the kernel had reported that nothing was in use. */
    method Delete(id: SandboxId) returns (o: Outcome)
      requires Kept(S())
      modifies this
      ensures Kept(S()) && OthersKept(old(S()), S(), id)
      ensures Effect(DeleteContainer, NOTHING, old(UnitIn(S(), id)), o, UnitIn(S(), id))
      ensures id in old(records) && id !in records ==>
                var project := old(records)[id].project;
                project !in dirs && UsageOf(S(), project) == NO_USE && project !in caps
      ensures if o.Ok? then faults == old(faults) else faults > old(faults)
    {
      o := RemoveContainer(id);
      if !o.Ok? {
        return;
      }
      var ok := ReclaimQuota(id);
      if ok {
        var tidied;
        ok, tidied := Try();
      }
      if ok {
        return Ok;
      }
      o := Fault();
    }

    /** Reclaims records that neither a container nor a snapshot needs any more, up to the first
        failure: the `AdapterSwept` step of the journal. */
    method ReconcileQuotas() returns (o: Outcome)
      requires Kept(S())
      modifies this
      ensures Kept(S()) && containers == old(containers)
      ensures forall id :: id in records ==> id in old(records) && records[id] == old(records)[id]
      ensures forall id :: id in old(records) && id !in records ==> id !in containers && id !in snapshots
      ensures if o.Ok? then faults == old(faults) else faults > old(faults)
      ensures snapshots == old(snapshots)
      ensures o.Ok? ==> forall id | id in records :: id in containers || id in snapshots
    {
      var todo := records.Keys;
      while todo != {}
        invariant Kept(S()) && containers == old(containers) && snapshots == old(snapshots) && faults == old(faults)
        invariant todo <= old(records).Keys
        invariant forall id | id in records :: id in todo || id in containers || id in snapshots
        invariant forall id :: id in records ==> id in old(records) && records[id] == old(records)[id]
        invariant forall id :: id in old(records) && id !in records ==> id !in containers && id !in snapshots
        decreases todo
      {
        var id :| id in todo;
        todo := todo - {id};
        if id !in containers && id !in snapshots {
          var ok := ReclaimQuota(id);
          if !ok {
            o := Fault();
            return;
          }
        }
      }
      o := Ok;
    }

    /** A sandbox that the journal did not ask for. */
    method Bring(id: SandboxId, limits: Limits, starts: bool)
      requires Kept(S())
      modifies this
      ensures Kept(S()) && OthersKept(old(S()), S(), id) && faults >= old(faults)
    {
      var o := Create(id, limits);
      if starts {
        o := Start(id);
      }
    }

    /** One request of the journal, as the adapter's server carries it out. */
    method Perform(verb: Verb, id: SandboxId, limits: Limits) returns (o: Outcome)
      requires Kept(S()) && (verb == CreateContainer && id in containers ==> containers[id].limits == limits)
      modifies this
      ensures Kept(S()) && OthersKept(old(S()), S(), id)
      ensures Effect(verb, limits, old(UnitIn(S(), id)), o, UnitIn(S(), id))
      ensures faults >= old(faults)
      ensures Accepts(verb, limits, old(UnitIn(S(), id))) ==> (o.Ok? <==> faults == old(faults))
    {
      match verb
      case CreateContainer => o := Create(id, limits);
      case StartContainer => o := Start(id);
      case StopContainer => o := Stop(id);
      case DeleteContainer => o := Delete(id);
    }

    /** A request over the socket. It may not arrive, and its answer may not come back. */
    method Serve(verb: Verb, id: SandboxId, limits: Limits) returns (o: Outcome)
      requires Kept(S()) && (verb == CreateContainer && id in containers ==> containers[id].limits == limits)
      modifies this
      ensures Kept(S()) && OthersKept(old(S()), S(), id)
      ensures Effect(verb, limits, old(UnitIn(S(), id)), o, UnitIn(S(), id))
      ensures faults >= old(faults)
      ensures Accepts(verb, limits, old(UnitIn(S(), id))) ==> (o.Ok? <==> faults == old(faults))
    {
      var arrives, applied := Try();
      if !arrives {
        return Lost;
      }
      o := Perform(verb, id, limits);
      var answered;
      answered, applied := Try();
      if !answered {
        o := Lost;
      }
    }

    /** POST /reconcile over the socket. */
    method ServeReconcile() returns (o: Outcome)
      requires Kept(S())
      modifies this
      ensures Kept(S()) && containers == old(containers)
      ensures forall id :: id in records ==> id in old(records) && records[id] == old(records)[id]
      ensures forall id :: id in old(records) && id !in records ==> id !in containers
      ensures if o.Ok? then faults == old(faults) else faults > old(faults)
      ensures o.Ok? ==> forall id | id in records :: id in containers || id in snapshots
    {
      o := ReconcileQuotas();
      var answered, applied := Try();
      if !answered {
        o := Lost;
      }
    }

    /** GET of one container over the socket: found, missing, or no answer. */
    method Describe(id: SandboxId) returns (o: Outcome)
      modifies `faults
      ensures faults >= old(faults) && (faults == old(faults) <==> o.Ok? || o == Refused(404, ""))
      ensures o.Ok? ==> id in containers
      ensures o.Refused? && o.code == 404 ==> o.body == "" && id !in containers
    {
      var ok, applied := Try();
      if ok {
        return if id in containers then Ok else Refused(404, "");
      }
      o := Fault();
      if o.Refused? && o.code == 404 {
        o := Lost;
      }
    }

    /** GET of the inventory over the socket. */
    method List() returns (o: Outcome, inventory: set<SandboxId>)
      modifies `faults
      ensures if o.Ok? then faults == old(faults) && inventory == containers.Keys else faults > old(faults)
    {
      var ok, applied := Try();
      if ok {
        return Ok, containers.Keys;
      }
      o := Fault();
      inventory := {};
    }
  }
}
