/** Sandbox networking: the address pool and the ownership journal of kernel objects. */
module Network {
  import Lifecycle
  import opened Options

  type SandboxId = Lifecycle.SandboxId

  // ----- Addresses -----

  /** One /30 block each in 198.18.0.0/15. */
  const SLOTS := 32768

  datatype Address = Address(a: int, b: int, c: int, d: int)

  /** The address at position `host` of a slot: 0 is the subnet, 1 the gateway, 2 the guest. */
  function AddressOf(slot: nat, host: nat): Address {
    var v := slot * 4;
    Address(198, 18 + v / 65536, v / 256 % 256, v % 256 + host)
  }

  predicate ValidAddress(x: Address) {
    0 <= x.a < 256 && 0 <= x.b < 256 && 0 <= x.c < 256 && 0 <= x.d < 256
  }

  function ValueOf(x: Address): int {
    ((x.a * 256 + x.b) * 256 + x.c) * 256 + x.d
  }

  /** The first address of the pool, 198.18.0.0. */
  const POOL := 0xC612_0000

  /** The prefix test of the connection-tracking cleanup. */
  predicate InPool(x: Address) {
    ValidAddress(x) && ValueOf(x) / 0x2_0000 == POOL / 0x2_0000
  }

  /** The formatted octets are the slot's block, counted from the start of the pool. */
  lemma AddressValue(slot: nat, host: nat)
    requires slot < SLOTS && host < 4
    ensures ValidAddress(AddressOf(slot, host)) && ValueOf(AddressOf(slot, host)) == POOL + slot * 4 + host
  {
  }

  /** Every address handed out passes the check that teardown makes before it clears flows. */
  lemma AddressInPool(slot: nat, host: nat)
    requires slot < SLOTS && host < 4
    ensures InPool(AddressOf(slot, host))
  {
  }

  /** Different slots have disjoint blocks. */
  lemma BlocksDisjoint(s: nat, i: nat, t: nat, j: nat)
    requires s < SLOTS && t < SLOTS && i < 4 && j < 4 && AddressOf(s, i) == AddressOf(t, j)
    ensures s == t && i == j
  {
    AddressValue(s, i);
    AddressValue(t, j);
  }

  /** The pool holds nothing but the blocks of its slots. */
  lemma PoolIsSlots(x: Address)
    requires InPool(x)
    ensures exists slot: nat, host: nat :: slot < SLOTS && host < 4 && x == AddressOf(slot, host)
  {
    var k := ValueOf(x) - POOL;
    assert 0 <= k < 0x2_0000;
    AddressValue(k / 4, k % 4);
    ValueInjective(x, AddressOf(k / 4, k % 4));
  }

  lemma ValueInjective(x: Address, y: Address)
    requires ValidAddress(x) && ValidAddress(y) && ValueOf(x) == ValueOf(y)
    ensures x == y
  {
  }

  // ----- The probe -----

  /** The slot visited after `offset` others. */
  function Probe(start: nat, offset: nat): nat {
    (start + offset) % SLOTS
  }

  /** The wrapped probe visits every slot, and each only once. */
  lemma ProbeCovers(start: nat, slot: nat)
    requires start < SLOTS && slot < SLOTS
    ensures exists offset: nat :: offset < SLOTS && Probe(start, offset) == slot
    ensures forall i: nat, j: nat | i < SLOTS && j < SLOTS && Probe(start, i) == Probe(start, j) :: i == j
  {
    var offset := if slot >= start then slot - start else slot + SLOTS - start;
    assert Probe(start, offset) == slot;
  }

  datatype Search = Found(slot: nat) | Exhausted | QueryFailed

  /** A slot that is skipped: it has a route, or a firewall table names its guest. */
  predicate Busy(slot: nat, routes: set<nat>, guests: set<nat>) {
    slot in routes || slot in guests
  }

  /** Every slot before `offset` in probe order was answered and skipped. */
  ghost predicate Skipped(start: nat, offset: nat, routes: set<nat>, guests: set<nat>, faulty: set<nat>) {
    forall i: nat | i < offset :: Probe(start, i) !in faulty && Busy(Probe(start, i), routes, guests)
  }

  /** The first slot in probe order that is not busy; exhausted exactly when every slot is. The route
      query of a slot in `faulty` fails. */
  method FindSlot(start: nat, routes: set<nat>, guests: set<nat>, faulty: set<nat>) returns (r: Search)
    requires start < SLOTS
    ensures r.Exhausted? <==> forall s: nat | s < SLOTS :: s !in faulty && Busy(s, routes, guests)
    ensures r.Found? ==> r.slot < SLOTS && r.slot !in faulty && !Busy(r.slot, routes, guests)
    ensures r.Found? ==> exists k: nat :: Probe(start, k) == r.slot && Skipped(start, k, routes, guests, faulty)
    ensures r.QueryFailed? ==> exists k: nat :: Probe(start, k) in faulty && Skipped(start, k, routes, guests, faulty)
  {
    for offset := 0 to SLOTS
      invariant Skipped(start, offset, routes, guests, faulty)
    {
      var s := Probe(start, offset);
      if s in faulty {
        return QueryFailed;
      }
      if s in routes {
        continue;
      }
      if s in guests {
        continue;
      }
      return Found(s);
    }
    forall s: nat | s < SLOTS ensures s !in faulty && Busy(s, routes, guests) {
      ProbeCovers(start, s);
    }
    r := Exhausted;
  }

  // ----- Ownership -----

  /** The journal of ownership records, the kernel objects of each sandbox, and the slots whose guest
      has tracked connections. Interface and table names are injective in the sandbox. */
  datatype Net = Net(
    records: map<SandboxId, nat>, tables: map<SandboxId, nat>, spaces: set<SandboxId>, links: set<SandboxId>,
    resolvers: set<SandboxId>, flows: set<nat>)

  /** A kernel object exists only with its record, and a link only behind its firewall table. */
  ghost predicate Owned(n: Net) {
    && n.spaces <= n.records.Keys && n.tables.Keys <= n.records.Keys && n.links <= n.tables.Keys
    && n.resolvers <= n.records.Keys
    && (forall id | id in n.tables :: n.tables[id] == n.records[id])
    && (forall id | id in n.records :: n.records[id] < SLOTS)
  }

  /** Live firewall tables have pairwise distinct guests. */
  ghost predicate Distinct(n: Net) {
    forall i, j | i in n.tables && j in n.tables && n.tables[i] == n.tables[j] :: i == j
  }

  /** Connections are only tracked for addresses whose table is still there, so an address that is
      handed out again carries none. */
  ghost predicate NoStaleFlows(n: Net) {
    forall g | g in n.flows :: exists id :: id in n.tables && n.tables[id] == g
  }

  ghost predicate Safe(n: Net) {
    Owned(n) && Distinct(n) && NoStaleFlows(n)
  }

  /** Nothing of the sandbox is left. */
  predicate Gone(n: Net, id: SandboxId) {
    && id !in n.records && id !in n.tables && id !in n.spaces && id !in n.links && id !in n.resolvers
  }

  /** Everything is in place for the sandbox. */
  predicate Attached(n: Net, id: SandboxId) {
    && id in n.records && id in n.tables && id in n.spaces && id in n.links && id in n.resolvers
  }

  /** The objects of every other sandbox are as they were. */
  ghost predicate Elsewhere(n: Net, m: Net, id: SandboxId) {
    && n.records - {id} == m.records - {id} && n.tables - {id} == m.tables - {id}
    && n.spaces - {id} == m.spaces - {id} && n.links - {id} == m.links - {id}
    && n.resolvers - {id} == m.resolvers - {id}
  }

  /** Only sandboxes with a link in place have opened connections. */
  ghost predicate Opened(n: Net, m: Net) {
    && m == n.(flows := m.flows) && n.flows <= m.flows
    && forall g | g in m.flows && g !in n.flows :: exists id :: id in n.links && id in n.tables && n.tables[id] == g
  }

  /** Only connections of the address recorded for the sandbox were cut. */
  ghost predicate OnlyCuts(n: Net, m: Net, id: SandboxId) {
    forall g | g in n.flows && g !in m.flows :: id in n.records && g == n.records[id]
  }

  /** Another sandbox has its firewall table at the address that is still recorded for this one. */
  ghost predicate Shared(n: Net, id: SandboxId) {
    id in n.records && exists j :: j != id && j in n.tables && n.tables[j] == n.records[id]
  }

  /** Every other sandbox has kept its connections. */
  ghost predicate Spared(n: Net, m: Net, id: SandboxId) {
    forall j | j != id && j in n.tables && n.tables[j] in n.flows :: n.tables[j] in m.flows
  }

  lemma CutsSpare(n: Net, m: Net, id: SandboxId)
    requires OnlyCuts(n, m, id) && !Shared(n, id)
    ensures Spared(n, m, id)
  {
  }

  /** An address can be shared so: a teardown deleted its table but not its record, and another sandbox
      was then given the address, which neither a table nor a route reserved any more. */
  lemma SharedIsSafe(a: SandboxId, b: SandboxId, slot: nat)
    requires a != b && slot < SLOTS
    ensures
      var half := Net(map[a := slot], map[], {}, {}, {}, {});
      var n := Net(map[a := slot, b := slot], map[b := slot], {b}, {b}, {b}, {slot});
      Safe(half) && slot !in half.tables.Values && Safe(n) && Shared(n, a)
  {
    var n := Net(map[a := slot, b := slot], map[b := slot], {b}, {b}, {b}, {slot});
    assert b in n.tables && n.tables[b] == slot;
  }

  datatype Setup = Ready | NoAddress | Failed

  /** What may happen to the host. */
  datatype Operation = Attach(id: SandboxId) | Detach(id: SandboxId) | Sweep(running: set<SandboxId>) | Restart

  class NetworkJournal {
    var records: map<SandboxId, nat>
    var tables: map<SandboxId, nat>
    var spaces: set<SandboxId>
    var links: set<SandboxId>
    var resolvers: set<SandboxId>
    var flows: set<nat>
    // How many commands have failed.
    ghost var failures: nat

    function N(): Net
      reads this
    {
      Net(records, tables, spaces, links, resolvers, flows)
    }

    constructor ()
      ensures Safe(N()) && N() == Net(map[], map[], {}, {}, {}, {})
    {
      records, tables, spaces, links, resolvers, flows := map[], map[], {}, {}, {}, {};
      failures := 0;
    }

    /** The outcome of one command. A failed one may have had its effect or not, and meanwhile the
        running sandboxes open connections as they like. */
    method Command() returns (ok: bool, applied: bool)
      modifies `flows, `failures
      ensures (ok ==> applied) && Opened(old(N()), N())
      ensures failures == old(failures) + if ok then 0 else 1
    {
      var begun: set<nat> := *;
      flows := flows + (begun * (set id | id in links && id in tables :: tables[id]));
      ok, applied := *, *;
      applied := applied || ok;
      failures := failures + if ok then 0 else 1;
    }

    // ----- Teardown -----

    method DeleteLink(id: SandboxId) returns (ok: bool)
      requires Safe(N()) && id in records
      modifies this
      ensures Safe(N()) && Elsewhere(old(N()), N(), id) && records == old(records)
      ensures OnlyCuts(old(N()), N(), id)
      ensures if ok then failures == old(failures) && id !in links else failures > old(failures)
    {
      var applied;
      ok, applied := Command();
      if !ok {
        return;
      }
      if id in links {
        ok, applied := Command();
        if applied {
          links := links - {id};
        }
      }
    }

    method DeleteSpace(id: SandboxId) returns (ok: bool)
      requires Safe(N()) && id in records && id !in links
      modifies this
      ensures Safe(N()) && Elsewhere(old(N()), N(), id) && records == old(records) && id !in links
      ensures OnlyCuts(old(N()), N(), id)
      ensures if ok then failures == old(failures) && id !in spaces else failures > old(failures)
    {
      ok := true;
      if id in spaces {
        var applied;
        ok, applied := Command();
        if applied {
          spaces := spaces - {id};
        }
      }
    }

    /** Two deletions, one for each direction; the address check passes for every recorded guest. */
    method ClearFlows(id: SandboxId) returns (ok: bool)
      requires Safe(N()) && id in records && id !in links
      modifies this
      ensures Safe(N()) && Elsewhere(old(N()), N(), id) && records == old(records)
      ensures OnlyCuts(old(N()), N(), id)
      ensures id !in links && spaces == old(spaces)
      ensures if ok then failures == old(failures) && records[id] !in flows else failures > old(failures)
      ensures ok ==> (Spared(old(N()), N(), id) <==> !(Shared(old(N()), id) && old(records[id] in flows)))
    {
      AddressInPool(records[id], 2);
      if !InPool(AddressOf(records[id], 2)) {
        assert false;
      }
      var applied;
      ok, applied := Command();
      if !ok {
        return;
      }
      ok, applied := Command();
      if applied {
        flows := flows - {records[id]};
      }
    }

    method DeleteTable(id: SandboxId) returns (ok: bool)
      requires Safe(N()) && id in records && id !in links && records[id] !in flows
      modifies this
      ensures Safe(N()) && Elsewhere(old(N()), N(), id) && records == old(records)
      ensures OnlyCuts(old(N()), N(), id)
      ensures id !in links && spaces == old(spaces)
      ensures if ok then failures == old(failures) && id !in tables else failures > old(failures)
    {
      var applied;
      ok, applied := Command();
      if !ok {
        return;
      }
      if id in tables {
        ok, applied := Command();
        if applied {
          tables := tables - {id};
        }
      }
    }

    /** The resolver directory and then, last of all, the record. */
    method DeleteRecord(id: SandboxId) returns (ok: bool)
      requires Safe(N()) && id in records && id !in links && id !in spaces && id !in tables
      modifies this
      ensures Safe(N()) && Elsewhere(old(N()), N(), id)
      ensures OnlyCuts(old(N()), N(), id)
      ensures if ok then failures == old(failures) && Gone(N(), id) else failures > old(failures)
    {
      var applied;
      ok, applied := Command();
      if applied {
        resolvers := resolvers - {id};
      }
      if !ok {
        return;
      }
      ok, applied := Command();
      if applied {
        records := records - {id};
      }
    }

    /** `removeNetworkLocked`: stops at the first failed command, and succeeds exactly when none failed. */
    method Teardown(id: SandboxId) returns (ok: bool)
      requires Safe(N())
      modifies this
      ensures Safe(N()) && Elsewhere(old(N()), N(), id)
      ensures OnlyCuts(old(N()), N(), id)
      ensures if ok then failures == old(failures) && Gone(N(), id) else failures > old(failures)
      ensures !Shared(old(N()), id) ==> Spared(old(N()), N(), id)
    {
      if id !in records {
        return true;
      }
      ok := DeleteLink(id);
      if !ok {
        return;
      }
      ok := DeleteSpace(id);
      if !ok {
        return;
      }
      ok := ClearFlows(id);
      if !ok {
        return;
      }
      ok := DeleteTable(id);
      if !ok {
        return;
      }
      ok := DeleteRecord(id);
    }

    // ----- Setup -----

    /** The firewall snapshot, the probe and the durable record. The address chosen belongs to no
        other table and carries no connection. */
    method Claim(id: SandboxId, start: nat, routes: set<nat>, faulty: set<nat>) returns (r: Setup)
      requires Safe(N()) && Gone(N(), id) && start < SLOTS
      modifies this
      ensures Safe(N()) && Elsewhere(old(N()), N(), id)
      ensures id !in tables && id !in spaces && id !in links
      ensures r == Ready ==> id in records && records[id] !in tables.Values && records[id] !in flows
      ensures r == Ready ==> records[id] !in routes
      ensures r == NoAddress ==> forall s: nat | s < SLOTS :: Busy(s, routes, tables.Values)
      ensures r == Failed <==> failures > old(failures)
      ensures failures >= old(failures)
    {
      var ok, applied := Command();
      if !ok {
        return Failed;
      }
      var found := FindSlot(start, routes, tables.Values, faulty);
      if found.QueryFailed? {
        failures := failures + 1;
        return Failed;
      }
      if found.Exhausted? {
        return NoAddress;
      }
      ok, applied := Command();
      if applied {
        records := records[id := found.slot];
      }
      r := if ok then Ready else Failed;
    }

    method AddTable(id: SandboxId) returns (ok: bool)
      requires Safe(N()) && id in records && id !in tables && records[id] !in tables.Values
      modifies this
      ensures Safe(N()) && Elsewhere(old(N()), N(), id)
      ensures records == old(records) && links == old(links)
      ensures if ok then failures == old(failures) && id in tables else failures > old(failures)
    {
      var applied;
      ok, applied := Command();
      if applied {
        tables := tables[id := records[id]];
      }
    }

    /** Namespace and link, and then the commands that only configure them. */
    method AddLink(id: SandboxId) returns (ok: bool)
      requires Safe(N()) && id in records && id in tables
      modifies this
      ensures Safe(N()) && Elsewhere(old(N()), N(), id) && records == old(records) && tables == old(tables)
      ensures if ok then failures == old(failures) && id in spaces && id in links else failures > old(failures)
    {
      var applied;
      ok, applied := Command();
      if applied {
        spaces := spaces + {id};
      }
      if !ok {
        return;
      }
      ok, applied := Command();
      if applied {
        links := links + {id};
      }
      if !ok {
        return;
      }
      ok := Configure();
    }

    /** Addresses, routes and the remaining settings. */
    method Configure() returns (ok: bool)
      requires Safe(N())
      modifies `flows, `failures
      ensures Safe(N()) && if ok then failures == old(failures) else failures > old(failures)
    {
      for step := 0 to 7
        invariant Safe(N()) && failures == old(failures)
      {
        var applied;
        ok, applied := Command();
        if !ok {
          return;
        }
      }
      ok := true;
    }

    method WriteResolver(id: SandboxId) returns (ok: bool)
      requires Safe(N()) && id in records
      modifies this
      ensures Safe(N()) && Elsewhere(old(N()), N(), id)
      ensures records == old(records) && tables == old(tables) && spaces == old(spaces) && links == old(links)
      ensures if ok then failures == old(failures) && id in resolvers else failures > old(failures)
    {
      var applied;
      ok, applied := Command();
      if applied {
        resolvers := resolvers + {id};
      }
      if !ok {
        return;
      }
      ok, applied := Command();
    }

    /** `setupNetwork`: teardown of whatever is there, then the record, the firewall, and only then
        the link. */
    method SetUp(id: SandboxId, start: nat, routes: set<nat>, faulty: set<nat>) returns (r: Setup)
      requires Safe(N()) && start < SLOTS
      modifies this
      ensures Safe(N()) && Elsewhere(old(N()), N(), id)
      ensures r == Ready ==> Attached(N(), id) && tables[id] !in routes
      ensures r == NoAddress ==> forall s: nat | s < SLOTS :: Busy(s, routes, (tables - {id}).Values)
      ensures r == Failed <==> failures > old(failures)
      ensures failures >= old(failures)
    {
      var ok := Teardown(id);
      if !ok {
        return Failed;
      }
      r := Claim(id, start, routes, faulty);
      if r != Ready {
        assert tables - {id} == tables;
        return;
      }
      ok := AddTable(id);
      if ok {
        ok := AddLink(id);
        if ok {
          ok := WriteResolver(id);
        }
      }
      r := if ok then Ready else Failed;
    }

    // ----- The sweep -----

    /** `reconcileNetworks`: takes down what belongs to no running sandbox, and nothing else. */
    method Reconcile(running: set<SandboxId>) returns (ok: bool)
      requires Safe(N())
      modifies this
      ensures Safe(N())
      ensures forall id | id in running :: SameFor(old(N()), N(), id)
      ensures if ok then failures == old(failures) && records.Keys <= running else failures > old(failures)
    {
      var paths := records.Keys;
      while paths != {}
        invariant Safe(N()) && failures == old(failures) && records.Keys <= running + paths
        invariant forall id | id in running :: SameFor(old(N()), N(), id)
      {
        var id :| id in paths;
        paths := paths - {id};
        var inspected: bool := *;
        if !inspected {
          failures := failures + 1;
          return false;
        }
        if id !in running {
          ghost var before := N();
          ok := Teardown(id);
          SpareOthers(before, N(), id);
          forall j | j in running ensures SameFor(old(N()), N(), j) {
            assert SameFor(old(N()), before, j) && SameFor(before, N(), j);
          }
          if !ok {
            return;
          }
        }
      }
      ok := true;
    }

    /** A host restart takes every kernel object with it; the journal stays. */
    method Reboot()
      requires Safe(N())
      modifies this
      ensures Safe(N()) && records == old(records) && tables == map[] && spaces == {} && links == {} && flows == {}
    {
      tables, spaces, links, flows := map[], {}, {}, {};
    }

    /** Any sequence of operations, with any failures in them. */
    method Operate(operations: seq<Operation>)
      requires Safe(N())
      modifies this
      ensures Safe(N())
    {
      for i := 0 to |operations|
        invariant Safe(N())
      {
        match operations[i]
        case Attach(id) =>
          var start: nat, routes: set<nat>, faulty: set<nat> := *, *, *;
          var r := SetUp(id, start % SLOTS, routes, faulty);
        case Detach(id) =>
          var ok := Teardown(id);
        case Sweep(running) =>
          var ok := Reconcile(running);
        case Restart =>
          Reboot();
      }
    }
  }

  /** All that exists for one sandbox is as it was. */
  predicate SameFor(n: Net, m: Net, id: SandboxId) {
    && Get(m.records, id) == Get(n.records, id) && Get(m.tables, id) == Get(n.tables, id)
    && (id in m.spaces <==> id in n.spaces) && (id in m.links <==> id in n.links)
    && (id in m.resolvers <==> id in n.resolvers)
  }

  lemma SpareOthers(n: Net, m: Net, id: SandboxId)
    requires Elsewhere(n, m, id)
    ensures forall j | j != id :: SameFor(n, m, j)
    ensures m.records.Keys <= n.records.Keys + {id}
  {
    forall j | j != id ensures SameFor(n, m, j) {
      assert Get(m.records - {id}, j) == Get(n.records - {id}, j);
      assert Get(m.tables - {id}, j) == Get(n.tables - {id}, j);
      assert j in m.spaces - {id} <==> j in n.spaces - {id};
      assert j in m.links - {id} <==> j in n.links - {id};
      assert j in m.resolvers - {id} <==> j in n.resolvers - {id};
    }
    forall j | j in m.records && j != id ensures j in n.records {
      assert SameFor(n, m, j);
    }
  }
}
