/** The remote catalog: an abstract map with registrations and deregistrations that may fail. */
module CatalogStore {
  import opened Text
  import opened Sorting
  import opened Identifiers
  import opened CatalogDefs

  datatype RemoteNode = RemoteNode(
    address: string,
    meta: map<string, string>,
    services: map<Identifier, AgentService>,
    checks: map<Identifier, AgentCheck>)
  {
    predicate Virtual() { VIRTUAL in meta }
  }

  type Remote = map<Identifier2, RemoteNode>

  datatype Op =
    | Register(reg: Registration)
    | DeregisterNode(nid: Identifier2)
    | DeregisterService(node: string, sid: Identifier)

  function RegNode(reg: Registration): Identifier2 { NewIdentifier2(reg.node, reg.partition) }

  function RegKey(s: AgentService): Identifier { NewIdentifier(s.id, s.ns, s.partition) }

  function CheckKey(c: AgentCheck): Identifier { NewIdentifier(c.checkID, c.ns, c.partition) }

  function Upsert(old_: Option<RemoteNode>, reg: Registration): RemoteNode {
    var was := if old_.Some? then old_.value else RemoteNode("", map[], map[], map[]);
    var n := if reg.skipNodeUpdate && old_.Some? then was else was.(address := reg.address, meta := reg.nodeMeta);
    n.(services := if reg.service.Some? then n.services[RegKey(reg.service.value) := reg.service.value] else n.services,
       checks := if reg.check.Some? then n.checks[CheckKey(reg.check.value) := reg.check.value] else n.checks)
  }

  function Without(n: RemoteNode, sid: Identifier): RemoteNode {
    n.(services := n.services - {sid},
       checks := map k | k in n.checks &&
                         !(n.checks[k].serviceID == sid.name && k.ns == sid.ns && k.partition == sid.partition) :: n.checks[k])
  }

  /** What one call does to the catalog when it takes effect. */
  function Apply(r: Remote, op: Op): Remote {
    match op
    case Register(reg) =>
      var nid := RegNode(reg);
      r[nid := Upsert(if nid in r then Some(r[nid]) else None, reg)]
    case DeregisterNode(nid) => r - {nid}
    case DeregisterService(node, sid) =>
      var nid := NewIdentifier2(node, sid.partition);
      if nid in r then r[nid := Without(r[nid], sid)] else r
  }

  function ApplyAll(r: Remote, ops: seq<Op>): Remote {
    if ops == [] then r else Apply(ApplyAll(r, ops[..|ops| - 1]), ops[|ops| - 1])
  }

  lemma ApplyOneMore(r: Remote, ops: seq<Op>, op: Op)
    ensures ApplyAll(r, ops + [op]) == Apply(ApplyAll(r, ops), op)
  {
    assert (ops + [op])[..|ops|] == ops;
  }

  lemma {:induction false} ApplyInTurn(r: Remote, a: seq<Op>, b: seq<Op>)
    ensures ApplyAll(r, a + b) == ApplyAll(ApplyAll(r, a), b)
  {
    hide Apply;
    if b == [] {
      assert a + b == a;
    } else {
      var rest, last := b[..|b| - 1], b[|b| - 1];
      ApplyInTurn(r, a, rest);
      assert a + b == (a + rest) + [last];
      ApplyOneMore(r, a + rest, last);
    }
  }

  /** Names are normalized, and a service lives in the partition of its node. */
  predicate ValidRemote(r: Remote) {
    && (forall nid :: nid in r ==> nid == nid.Normalized())
    && (forall nid, k :: nid in r && k in r[nid].services ==> k == k.Normalized() && k.partition == nid.partition)
  }

  /** The service as the catalog lists it: by its name, not by its id. */
  function ListedAs(k: Identifier, s: AgentService): Identifier { NewIdentifier(s.service, k.ns, k.partition) }

  function ListedServices(n: RemoteNode): set<Identifier> {
    set k | k in n.services :: ListedAs(k, n.services[k])
  }

  type Snapshot = map<Identifier2, set<Identifier>>

  /** What a dump sees: the virtual nodes and the names of their services. */
  function SnapshotOf(r: Remote): Snapshot {
    map nid | nid in r && r[nid].Virtual() :: ListedServices(r[nid])
  }

  /** What is really there: the virtual nodes and the ids of their services. */
  function Membership(r: Remote): Snapshot {
    map nid | nid in r && r[nid].Virtual() :: r[nid].services.Keys
  }

  /** The virtual nodes as a listing prints them. */
  function VirtualNames(r: Remote): set<(string, string)> {
    set nid | nid in r && r[nid].Virtual() :: (nid.name, nid.partition)
  }

  class Catalog {
    var nodes: Remote
    ghost var log: seq<Op>    // the calls that took effect

    constructor (r: Remote)
      ensures nodes == r && log == []
    {
      nodes, log := r, [];
    }

    /** A call that succeeds took effect; one that fails may or may not have. */
    method Call(op: Op) returns (ok: bool)
      modifies this
      ensures (nodes == Apply(old(nodes), op) && log == old(log) + [op]) || (!ok && nodes == old(nodes) && log == old(log))
    {
      var reached: bool, answered: bool := *, *;
      ok := reached && answered;
      if reached {
        nodes := Apply(nodes, op);
        log := log + [op];
      }
    }

    /** The virtual nodes, each as (name, partition), in some order; None is a failed read. */
    method ListVirtualNodes() returns (r: Option<seq<(string, string)>>)
      requires ValidRemote(nodes)
      ensures r.Some? ==> Enumerates(r.value, VirtualNames(nodes))
    {
      var out := [];
      var todo := nodes.Keys;
      while todo != {}
        invariant todo <= nodes.Keys
        invariant Enumerates(out, set nid | nid in nodes.Keys - todo && nodes[nid].Virtual() :: (nid.name, nid.partition))
      {
        var nid :| nid in todo;
        ghost var before := set n | n in nodes.Keys - todo && nodes[n].Virtual() :: (n.name, n.partition);
        todo := todo - {nid};
        if nodes[nid].Virtual() {
          EnumerateOneMore(out, before, (nid.name, nid.partition));
          out := out + [(nid.name, nid.partition)];
          assert before + {(nid.name, nid.partition)}
              == set n | n in nodes.Keys - todo && nodes[n].Virtual() :: (n.name, n.partition);
        } else {
          assert before == set n | n in nodes.Keys - todo && nodes[n].Virtual() :: (n.name, n.partition);
        }
      }
      assert nodes.Keys - todo == nodes.Keys;
      var answered: bool := *;
      r := if answered then Some(out) else None;
    }

    /** The listed services of a node, each with its tenancy; None is a failed read. */
    method NodeServiceList(node: string, partition: string) returns (r: Option<set<Identifier>>)
      ensures r.Some? ==> r.value == var nid := NewIdentifier2(node, partition);
                                     if nid in nodes then ListedServices(nodes[nid]) else {}
    {
      var nid := NewIdentifier2(node, partition);
      var answered: bool := *;
      r := if answered then Some(if nid in nodes then ListedServices(nodes[nid]) else {}) else None;
    }
  }
}
