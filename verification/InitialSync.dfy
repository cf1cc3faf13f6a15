/** clustertool/catalog-sync.go: the initial sync of virtual nodes and their services. */
module InitialSync {
  import opened Text
  import opened Sorting
  import opened Identifiers
  import opened CatalogDefs
  import opened CatalogStore

  // ---------------------------------------------------------------- the plan of a run

  function NodeIDs(d: Definition): set<Identifier2> { set i | 0 <= i < |d.nodes| :: d.nodes[i].ID() }

  function ServiceIDsOn(d: Definition, nid: Identifier2): set<Identifier> {
    (set i | 0 <= i < |d.services| && d.services[i].NodeID() == nid :: d.services[i].ID()) +
    (set i | 0 <= i < |d.proxies| && d.proxies[i].NodeID() == nid :: d.proxies[i].ID())
  }

  /** The membership a definition asks for. */
  function Expected(d: Definition): Snapshot { map nid | nid in NodeIDs(d) :: ServiceIDsOn(d, nid) }

  /** Every service and proxy refers to a listed node. */
  predicate WellFormed(d: Definition) {
    && (forall i :: 0 <= i < |d.services| ==> d.services[i].NodeID() in NodeIDs(d))
    && (forall i :: 0 <= i < |d.proxies| ==> d.proxies[i].NodeID() in NodeIDs(d))
  }

  function NodeOps(d: Definition, ent: bool): seq<Op> {
    seq(|d.nodes|, i requires 0 <= i < |d.nodes| => Register(d.nodes[i].ToAPI(ent)))
  }

  function ServiceOps(d: Definition, ent: bool): seq<Op> {
    seq(|d.services|, i requires 0 <= i < |d.services| => Register(d.services[i].ToAPI(ent)))
  }

  function ProxyOps(d: Definition, ent: bool): seq<Op> {
    seq(|d.proxies|, i requires 0 <= i < |d.proxies| => Register(d.proxies[i].ToAPI(ent)))
  }

  function RegisterOps(d: Definition, ent: bool): seq<Op> { NodeOps(d, ent) + ServiceOps(d, ent) + ProxyOps(d, ent) }

  /** The deregistrations due on one dumped node. */
  function StraysAt(curr: Snapshot, wanted: Snapshot, nid: Identifier2): set<Op>
    requires nid in curr
  {
    if nid !in wanted then {DeregisterNode(nid)}
    else set sid | sid in curr[nid] && sid !in wanted[nid] :: DeregisterService(nid.name, sid)
  }

  function StraysOn(curr: Snapshot, wanted: Snapshot, nids: set<Identifier2>): set<Op> {
    set nid, op | nid in nids && nid in curr && op in StraysAt(curr, wanted, nid) :: op
  }

  /** The deregistrations due after a dump. */
  function Strays(curr: Snapshot, wanted: Snapshot): set<Op> { StraysOn(curr, wanted, curr.Keys) }

  /** Dumped services are listed in the partition of their node. */
  predicate ValidSnapshot(curr: Snapshot) {
    forall nid, sid :: nid in curr && sid in curr[nid] ==> sid.partition == nid.partition
  }

  /** The calls of a complete run: all registrations in order, then every stray once, in any order. */
  ghost predicate FullRun(d: Definition, ent: bool, curr: Snapshot, ops: seq<Op>) {
    exists e :: ops == RegisterOps(d, ent) + e && Enumerates(e, Strays(curr, Expected(d)))
  }

  /** The calls of a run that stopped early. */
  ghost predicate PartialRun(d: Definition, ent: bool, curr: Snapshot, ops: seq<Op>) {
    || ops <= RegisterOps(d, ent)
    || exists e :: ops == RegisterOps(d, ent) + e && NoDuplicates(e) && Elements(e) <= Strays(curr, Expected(d))
  }

  // ---------------------------------------------------------------- the sync

  datatype Outcome = Synced | Failed | Panicked

  class CatalogSync {
    const conf: Definition
    const enterprise: bool
    const client: Catalog

    constructor (conf: Definition, enterprise: bool, client: Catalog)
      ensures this.conf == conf && this.enterprise == enterprise && this.client == client
    {
      this.conf, this.enterprise, this.client := conf, enterprise, client;
    }

    method DumpCurrentCatalog() returns (curr: Option<Snapshot>)
      requires ValidRemote(client.nodes)
      ensures curr.Some? ==> curr.value == SnapshotOf(client.nodes)
    {
      var rawNodes := client.ListVirtualNodes();
      if rawNodes.None? {
        return None;
      }
      var raw := rawNodes.value;
      ghost var r := client.nodes;
      var m: Snapshot := map[];
      hide ListedServices, Enumerates, NoDuplicates, NewIdentifier2, SnapshotOf, VirtualNames, ValidRemote;
      assert raw[..0] == [] && DumpedSoFar(r, [], m);
      hide DumpedSoFar;
      for i := 0 to |raw|
        invariant DumpedSoFar(r, raw[..i], m)
      {
        ListedNodeExists(r, raw, i);
        DumpedOneMore(r, raw, i, m);
        var more := DumpNode(raw[i].0, raw[i].1, m);
        if more.None? {
          return None;
        }
        m := more.value;
      }
      assert raw[..|raw|] == raw;
      DumpedAll(r, raw, m);
      return Some(m);
    }

    /** The services of one listed node, added to what was dumped so far. */
    method DumpNode(name: string, partition: string, m: Snapshot) returns (m': Option<Snapshot>)
      ensures m'.Some? ==>
                var nid := NewIdentifier2(name, partition);
                m'.value == m[nid := ServicesIn(m, nid) + if nid in client.nodes then ListedServices(client.nodes[nid]) else {}]
    {
      hide ListedServices, NewIdentifier2;
      var nid := NewIdentifier2(name, partition);
      var curr := m;
      if nid !in curr {
        curr := curr[nid := {}];
      }
      var services := client.NodeServiceList(name, partition);
      if services.None? {
        return None;
      }
      return Some(curr[nid := curr[nid] + services.value]);
    }

    /** The first loop: nodes. */
    method RegisterNodes() returns (ok: bool, wanted: Snapshot, ghost ops: seq<Op>)
      modifies client
      ensures Happened(old(client.nodes), old(client.log), client.nodes, client.log, ops)
      ensures ops <= NodeOps(conf, enterprise)
      ensures ok ==> ops == NodeOps(conf, enterprise) && wanted == ExpectedSoFar(conf, 0, 0)
    {
      hide Happened, CatalogNode.ToAPI;
      wanted, ops := map[], [];
      NothingHappened(client.nodes, client.log);
      for i := 0 to |conf.nodes|
        invariant Happened(old(client.nodes), old(client.log), client.nodes, client.log, ops)
        invariant ops == NodeOps(conf, enterprise)[..i]
        invariant wanted.Keys == set k | 0 <= k < i :: conf.nodes[k].ID()
        invariant forall nid :: nid in wanted ==> wanted[nid] == {}
      {
        var n := conf.nodes[i];
        ok, ops := Issue(client, Register(n.ToAPI(enterprise)), old(client.nodes), old(client.log), ops);
        if !ok {
          return;
        }
        wanted := wanted[n.ID() := {}];
      }
      ExpectedAtFirst(conf, wanted);
      ok := true;
    }

    /** The second loop: services.  A service on an unlisted node panics once it is registered. */
    method RegisterServices(wanted0: Snapshot) returns (r: Outcome, wanted: Snapshot, ghost ops: seq<Op>)
      requires wanted0 == ExpectedSoFar(conf, 0, 0)
      modifies client
      ensures Happened(old(client.nodes), old(client.log), client.nodes, client.log, ops)
      ensures ops <= ServiceOps(conf, enterprise)
      ensures r.Synced? ==> ops == ServiceOps(conf, enterprise) && wanted == ExpectedSoFar(conf, |conf.services|, 0)
      ensures r.Panicked? ==> exists i :: 0 <= i < |conf.services| && conf.services[i].NodeID() !in NodeIDs(conf)
      ensures r.Synced? ==> forall i :: 0 <= i < |conf.services| ==> conf.services[i].NodeID() in NodeIDs(conf)
    {
      hide Happened, CatalogService.ToAPI, NodeIDs, ExpectedSoFar;
      wanted, ops := wanted0, [];
      NothingHappened(client.nodes, client.log);
      for i := 0 to |conf.services|
        invariant Happened(old(client.nodes), old(client.log), client.nodes, client.log, ops)
        invariant ops == ServiceOps(conf, enterprise)[..i]
        invariant wanted == ExpectedSoFar(conf, i, 0)
        invariant forall k :: 0 <= k < i ==> conf.services[k].NodeID() in NodeIDs(conf)
      {
        ExpectOneService(conf, i);
        var svc := conf.services[i];
        var ok;
        ok, ops := Issue(client, Register(svc.ToAPI(enterprise)), old(client.nodes), old(client.log), ops);
        if !ok {
          r := Failed;
          return;
        }
        if svc.NodeID() !in wanted {
          r := Panicked;
          return;
        }
        wanted := wanted[svc.NodeID() := wanted[svc.NodeID()] + {svc.ID()}];
      }
      r := Synced;
    }

    /** The third loop: proxies. */
    method RegisterProxies(wanted0: Snapshot) returns (r: Outcome, wanted: Snapshot, ghost ops: seq<Op>)
      requires wanted0 == ExpectedSoFar(conf, |conf.services|, 0)
      modifies client
      ensures Happened(old(client.nodes), old(client.log), client.nodes, client.log, ops)
      ensures ops <= ProxyOps(conf, enterprise)
      ensures r.Synced? ==> ops == ProxyOps(conf, enterprise) && wanted == Expected(conf)
      ensures r.Panicked? ==> exists i :: 0 <= i < |conf.proxies| && conf.proxies[i].NodeID() !in NodeIDs(conf)
      ensures r.Synced? ==> forall i :: 0 <= i < |conf.proxies| ==> conf.proxies[i].NodeID() in NodeIDs(conf)
    {
      hide Happened, CatalogProxy.ToAPI, NodeIDs, ExpectedSoFar, Expected;
      wanted, ops := wanted0, [];
      NothingHappened(client.nodes, client.log);
      for i := 0 to |conf.proxies|
        invariant Happened(old(client.nodes), old(client.log), client.nodes, client.log, ops)
        invariant ops == ProxyOps(conf, enterprise)[..i]
        invariant wanted == ExpectedSoFar(conf, |conf.services|, i)
        invariant forall k :: 0 <= k < i ==> conf.proxies[k].NodeID() in NodeIDs(conf)
      {
        ExpectOneProxy(conf, i);
        var svc := conf.proxies[i];
        var ok;
        ok, ops := Issue(client, Register(svc.ToAPI(enterprise)), old(client.nodes), old(client.log), ops);
        if !ok {
          r := Failed;
          return;
        }
        if svc.NodeID() !in wanted {
          r := Panicked;
          return;
        }
        wanted := wanted[svc.NodeID() := wanted[svc.NodeID()] + {svc.ID()}];
      }
      ExpectedAtLast(conf);
      r := Synced;
    }

    /** The strays of one retained node. */
    method RemoveStrayServices(nid: Identifier2, curr: Snapshot, wanted: Snapshot) returns (ok: bool, ghost ops: seq<Op>)
      requires nid in curr && nid in wanted
      modifies client
      ensures Happened(old(client.nodes), old(client.log), client.nodes, client.log, ops)
      ensures NoDuplicates(ops) && Elements(ops) <= StraysAt(curr, wanted, nid)
      ensures ok ==> Enumerates(ops, StraysAt(curr, wanted, nid))
    {
      hide Happened;
      ops := [];
      NothingHappened(client.nodes, client.log);
      var todo := curr[nid];
      while todo != {}
        invariant todo <= curr[nid]
        invariant Happened(old(client.nodes), old(client.log), client.nodes, client.log, ops)
        invariant Enumerates(ops, set sid | sid in curr[nid] - todo && sid !in wanted[nid] :: DeregisterService(nid.name, sid))
      {
        var sid :| sid in todo;
        ghost var before := set s | s in curr[nid] - todo && s !in wanted[nid] :: DeregisterService(nid.name, s);
        todo := todo - {sid};
        if sid !in wanted[nid] {
          EnumerateOneMore(ops, before, DeregisterService(nid.name, sid));
          ok, ops := Issue(client, DeregisterService(nid.name, sid), old(client.nodes), old(client.log), ops);
          if !ok {
            return;
          }
          assert before + {DeregisterService(nid.name, sid)}
              == set s | s in curr[nid] - todo && s !in wanted[nid] :: DeregisterService(nid.name, s);
        } else {
          assert before == set s | s in curr[nid] - todo && s !in wanted[nid] :: DeregisterService(nid.name, s);
        }
      }
      assert curr[nid] - todo == curr[nid];
      ok := true;
    }

    /** The last loops: everything dumped that the definition does not list. */
    method RemoveStrays(curr: Snapshot, wanted: Snapshot) returns (ok: bool, ghost ops: seq<Op>)
      requires ValidSnapshot(curr)
      modifies client
      ensures Happened(old(client.nodes), old(client.log), client.nodes, client.log, ops)
      ensures NoDuplicates(ops) && Elements(ops) <= Strays(curr, wanted)
      ensures ok ==> Enumerates(ops, Strays(curr, wanted))
    {
      hide Happened, StraysAt, StraysOn, ValidSnapshot, NoDuplicates;
      ops := [];
      NothingHappened(client.nodes, client.log);
      NoStraysYet(curr, wanted);
      var todo := curr.Keys;
      while todo != {}
        invariant todo <= curr.Keys
        invariant Happened(old(client.nodes), old(client.log), client.nodes, client.log, ops)
        invariant Enumerates(ops, StraysOn(curr, wanted, curr.Keys - todo))
      {
        var nid :| nid in todo;
        ghost var done := curr.Keys - todo;
        ghost var before := ops;
        ghost var nodes1, log1 := client.nodes, client.log;
        StraysOneMore(curr, wanted, done, nid);
        ghost var more;
        ok, more := RemoveStraysOf(nid, curr, wanted);
        HappenedInTurn(old(client.nodes), old(client.log), nodes1, log1, client.nodes, client.log, before, more);
        EnumerateUnion(before, StraysOn(curr, wanted, done), more, Elements(more));
        ops := before + more;
        if !ok {
          StraysGrow(curr, wanted, done + {nid});
          return;
        }
        todo := todo - {nid};
        assert curr.Keys - todo == done + {nid};
      }
      assert curr.Keys - todo == curr.Keys;
      ok := true;
    }

    /** One round of the outer loop. */
    method RemoveStraysOf(nid: Identifier2, curr: Snapshot, wanted: Snapshot) returns (ok: bool, ghost ops: seq<Op>)
      requires nid in curr
      modifies client
      ensures Happened(old(client.nodes), old(client.log), client.nodes, client.log, ops)
      ensures Enumerates(ops, Elements(ops)) && Elements(ops) <= StraysAt(curr, wanted, nid)
      ensures ok ==> Elements(ops) == StraysAt(curr, wanted, nid)
    {
      if nid !in wanted {
        NothingHappened(client.nodes, client.log);
        ok, ops := Issue(client, DeregisterNode(nid), old(client.nodes), old(client.log), []);
        return;
      }
      ok, ops := RemoveStrayServices(nid, curr, wanted);
    }

    /** initialSync. */
    method Run() returns (r: Outcome, ghost ops: seq<Op>)
      requires ValidRemote(client.nodes)
      modifies client
      ensures Happened(old(client.nodes), old(client.log), client.nodes, client.log, ops)
      ensures r.Synced? ==> WellFormed(conf) && FullRun(conf, enterprise, SnapshotOf(old(client.nodes)), ops)
      ensures r.Failed? ==> PartialRun(conf, enterprise, SnapshotOf(old(client.nodes)), ops)
      ensures r.Panicked? ==> !WellFormed(conf) && ops <= RegisterOps(conf, enterprise)
    {
      hide Happened, NodeIDs, Expected, ExpectedSoFar, Strays, StraysOn, ValidRemote, SnapshotOf;
      ghost var r0, log0 := client.nodes, client.log;
      NothingHappened(client.nodes, client.log);
      ops := [];
      var dumped := DumpCurrentCatalog();
      if dumped.None? {
        r := Failed;
        return;
      }
      SnapshotIsValid(client.nodes);
      ghost var all := RegisterOps(conf, enterprise);
      var ok, wanted;
      ok, wanted, ops := RegisterNodes();
      if !ok {
        r := Failed;
        return;
      }
      ghost var more;
      ghost var r1, log1 := client.nodes, client.log;
      r, wanted, more := RegisterServices(wanted);
      HappenedInTurn(r0, log0, r1, log1, client.nodes, client.log, ops, more);
      ops := ops + more;
      if !r.Synced? {
        return;
      }
      ghost var r2, log2 := client.nodes, client.log;
      r, wanted, more := RegisterProxies(wanted);
      HappenedInTurn(r0, log0, r2, log2, client.nodes, client.log, ops, more);
      ops := ops + more;
      if !r.Synced? {
        return;
      }
      assert ops == all;
      ghost var r3, log3 := client.nodes, client.log;
      ok, more := RemoveStrays(dumped.value, wanted);
      HappenedInTurn(r0, log0, r3, log3, client.nodes, client.log, ops, more);
      ops := ops + more;
      assert ops == all + more;
      r := if ok then Synced else Failed;
    }
  }

  /** The bookkeeping of the three registration loops after j services and k proxies. */
  ghost function ExpectedSoFar(d: Definition, j: nat, k: nat): Snapshot
    requires j <= |d.services| && k <= |d.proxies|
  {
    map nid | nid in NodeIDs(d) ::
      (set i | 0 <= i < j && d.services[i].NodeID() == nid :: d.services[i].ID()) +
      (set i | 0 <= i < k && d.proxies[i].NodeID() == nid :: d.proxies[i].ID())
  }

  lemma ExpectedAtFirst(d: Definition, w: Snapshot)
    requires w.Keys == NodeIDs(d) && forall nid :: nid in w ==> w[nid] == {}
    ensures w == ExpectedSoFar(d, 0, 0)
  {
    hide NodeIDs;
    var e := ExpectedSoFar(d, 0, 0);
    forall nid | nid in e ensures e[nid] == {} {
    }
  }

  lemma ExpectOneService(d: Definition, i: nat)
    requires i < |d.services|
    ensures ExpectedSoFar(d, i, 0).Keys == NodeIDs(d)
    ensures d.services[i].NodeID() in NodeIDs(d) ==>
              var w, nid := ExpectedSoFar(d, i, 0), d.services[i].NodeID();
              ExpectedSoFar(d, i + 1, 0) == w[nid := w[nid] + {d.services[i].ID()}]
  {
    hide CatalogService.NodeID, CatalogService.ID, NodeIDs;
    if d.services[i].NodeID() in NodeIDs(d) {
      var w, nid := ExpectedSoFar(d, i, 0), d.services[i].NodeID();
      var w2 := ExpectedSoFar(d, i + 1, 0);
      forall m | m in NodeIDs(d) ensures w2[m] == if m == nid then w[m] + {d.services[i].ID()} else w[m] {
      }
    }
  }

  lemma ExpectOneProxy(d: Definition, i: nat)
    requires i < |d.proxies|
    ensures ExpectedSoFar(d, |d.services|, i).Keys == NodeIDs(d)
    ensures d.proxies[i].NodeID() in NodeIDs(d) ==>
              var w, nid := ExpectedSoFar(d, |d.services|, i), d.proxies[i].NodeID();
              ExpectedSoFar(d, |d.services|, i + 1) == w[nid := w[nid] + {d.proxies[i].ID()}]
  {
    hide CatalogService.NodeID, CatalogService.ID, CatalogProxy.NodeID, CatalogProxy.ID, NodeIDs;
    if d.proxies[i].NodeID() in NodeIDs(d) {
      var w, nid := ExpectedSoFar(d, |d.services|, i), d.proxies[i].NodeID();
      var w2 := ExpectedSoFar(d, |d.services|, i + 1);
      forall m | m in NodeIDs(d) ensures w2[m] == if m == nid then w[m] + {d.proxies[i].ID()} else w[m] {
      }
    }
  }

  lemma ExpectedAtLast(d: Definition)
    ensures ExpectedSoFar(d, |d.services|, |d.proxies|) == Expected(d)
    ensures |d.proxies| == 0 ==> ExpectedSoFar(d, |d.services|, 0) == Expected(d)
  {
  }

  lemma SnapshotIsValid(r: Remote)
    requires ValidRemote(r)
    ensures ValidSnapshot(SnapshotOf(r))
  {
    forall nid, sid | nid in SnapshotOf(r) && sid in SnapshotOf(r)[nid] ensures sid.partition == nid.partition {
      var k :| k in r[nid].services && ListedAs(k, r[nid].services[k]) == sid;
      assert k == k.Normalized() && k.partition == nid.partition;
    }
  }

  lemma NoStraysYet(curr: Snapshot, wanted: Snapshot)
    ensures curr.Keys - curr.Keys == {} && Enumerates([], StraysOn(curr, wanted, {}))
  {
  }

  lemma StraysGrow(curr: Snapshot, wanted: Snapshot, nids: set<Identifier2>)
    requires nids <= curr.Keys
    ensures StraysOn(curr, wanted, nids) <= Strays(curr, wanted)
  {
  }

  /** Which dumped node a deregistration is for. */
  predicate IsFor(op: Op, nid: Identifier2) {
    match op
    case DeregisterNode(m) => m == nid
    case DeregisterService(name, sid) => name == nid.name && sid.partition == nid.partition
    case Register(_) => false
  }

  lemma StraysAreFor(curr: Snapshot, wanted: Snapshot, nid: Identifier2)
    requires ValidSnapshot(curr) && nid in curr
    ensures forall op :: op in StraysAt(curr, wanted, nid) ==> IsFor(op, nid)
  {
  }

  lemma StraysOneMore(curr: Snapshot, wanted: Snapshot, done: set<Identifier2>, nid: Identifier2)
    requires ValidSnapshot(curr) && done <= curr.Keys && nid in curr && nid !in done
    ensures StraysOn(curr, wanted, done + {nid}) == StraysOn(curr, wanted, done) + StraysAt(curr, wanted, nid)
    ensures StraysOn(curr, wanted, done) !! StraysAt(curr, wanted, nid)
  {
    StraysAreFor(curr, wanted, nid);
    forall m | m in done ensures forall op :: op in StraysAt(curr, wanted, m) ==> IsFor(op, m) {
      StraysAreFor(curr, wanted, m);
    }
    hide StraysAt, ValidSnapshot;
    assert forall op, m :: m != nid && IsFor(op, m) ==> !IsFor(op, nid);
  }

  lemma NothingHappened(r: Remote, log: seq<Op>)
    ensures Happened(r, log, r, log, [])
  {
  }

  lemma HappenedInTurn(r0: Remote, log0: seq<Op>, r1: Remote, log1: seq<Op>, r2: Remote, log2: seq<Op>, a: seq<Op>, b: seq<Op>)
    requires Happened(r0, log0, r1, log1, a) && Happened(r1, log1, r2, log2, b)
    ensures Happened(r0, log0, r2, log2, a + b)
  {
    ApplyInTurn(r0, a, b);
  }

  ghost predicate Happened(r0: Remote, log0: seq<Op>, r: Remote, log: seq<Op>, ops: seq<Op>) {
    r == ApplyAll(r0, ops) && log == log0 + ops
  }

  /** One call, with the list of calls since the start of the run kept up to date. */
  method Issue(client: Catalog, op: Op, ghost r0: Remote, ghost log0: seq<Op>, ghost ops: seq<Op>)
    returns (ok: bool, ghost ops': seq<Op>)
    requires Happened(r0, log0, client.nodes, client.log, ops)
    modifies client
    ensures Happened(r0, log0, client.nodes, client.log, ops')
    ensures ops' == ops + [op] || (!ok && ops' == ops)
  {
    label before:
    ok := client.Call(op);
    if client.log == old(client.log) + [op] && client.nodes == Apply(old(client.nodes), op) {
      ops' := ops + [op];
      ApplyOneMore(r0, ops, op);
      assert client.log == log0 + (ops + [op]);
    } else {
      ops' := ops;
    }
  }

  lemma ListedNodeExists(r: Remote, raw: seq<(string, string)>, i: nat)
    requires ValidRemote(r) && i < |raw|
    requires Enumerates(raw, VirtualNames(r))
    ensures NewIdentifier2(raw[i].0, raw[i].1) in r && r[NewIdentifier2(raw[i].0, raw[i].1)].Virtual()
  {
    assert raw[i] in Elements(raw);
    var nid :| nid in r && r[nid].Virtual() && (nid.name, nid.partition) == raw[i];
    assert nid == nid.Normalized();
  }

  /** The snapshot after the dump has worked through some of the listed nodes. */
  predicate DumpedSoFar(r: Remote, raw: seq<(string, string)>, m: Snapshot) {
    && m.Keys == (set k | 0 <= k < |raw| :: NewIdentifier2(raw[k].0, raw[k].1))
    && forall nid :: nid in m ==> nid in r && m[nid] == ListedServices(r[nid])
  }

  function ServicesIn(m: Snapshot, nid: Identifier2): set<Identifier> { if nid in m then m[nid] else {} }

  lemma DumpedAll(r: Remote, raw: seq<(string, string)>, m: Snapshot)
    requires ValidRemote(r) && DumpedSoFar(r, raw, m)
    requires Enumerates(raw, VirtualNames(r))
    ensures m == SnapshotOf(r)
  {
    hide ListedServices;
    DumpedKeys(r, raw);
  }

  lemma DumpedOneMore(r: Remote, raw: seq<(string, string)>, i: nat, m: Snapshot)
    requires i < |raw| && NewIdentifier2(raw[i].0, raw[i].1) in r && DumpedSoFar(r, raw[..i], m)
    ensures var nid := NewIdentifier2(raw[i].0, raw[i].1);
            DumpedSoFar(r, raw[..i + 1], m[nid := ServicesIn(m, nid) + ListedServices(r[nid])])
  {
    hide NewIdentifier2, ListedServices;
    var a, b := raw[..i], raw[..i + 1];
    assert forall k :: 0 <= k < i ==> a[k] == b[k];
    assert (set k | 0 <= k < |b| :: NewIdentifier2(b[k].0, b[k].1))
        == (set k | 0 <= k < |a| :: NewIdentifier2(a[k].0, a[k].1)) + {NewIdentifier2(raw[i].0, raw[i].1)};
  }

  lemma DumpedKeys(r: Remote, raw: seq<(string, string)>)
    requires ValidRemote(r)
    requires Enumerates(raw, VirtualNames(r))
    ensures (set k | 0 <= k < |raw| :: NewIdentifier2(raw[k].0, raw[k].1)) == SnapshotOf(r).Keys
  {
    forall nid | nid in SnapshotOf(r) ensures nid in (set k | 0 <= k < |raw| :: NewIdentifier2(raw[k].0, raw[k].1)) {
      assert (nid.name, nid.partition) in Elements(raw);
      var k :| 0 <= k < |raw| && raw[k] == (nid.name, nid.partition);
      assert nid == nid.Normalized();
    }
    forall k | 0 <= k < |raw| ensures NewIdentifier2(raw[k].0, raw[k].1) in SnapshotOf(r) {
      ListedNodeExists(r, raw, k);
    }
  }
}
