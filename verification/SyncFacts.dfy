/** What runs of the initial sync achieve: convergence, frame, recovery, quiescence. */
module SyncFacts {
  import opened Text
  import opened Sorting
  import opened Identifiers
  import opened CatalogDefs
  import opened CatalogStore
  import opened InitialSync

  // ---------------------------------------------------------------- hypotheses

  /** Nodes carry the mark by which a dump recognizes them. */
  predicate Marked(d: Definition) { forall i :: 0 <= i < |d.nodes| ==> VIRTUAL in d.nodes[i].nodeMeta }

  predicate DefaultPartition(p: string) { OrDefault(p) == DEFAULT }

  /** Without enterprise, requests lose their tenancy, so only the default one survives. */
  predicate TenancyOk(d: Definition, ent: bool) {
    ent ||
    (&& (forall i :: 0 <= i < |d.nodes| ==> DefaultPartition(d.nodes[i].partition))
     && (forall i :: 0 <= i < |d.services| ==>
           DefaultPartition(d.services[i].partition) && DefaultPartition(d.services[i].ns))
     && (forall i :: 0 <= i < |d.proxies| ==>
           DefaultPartition(d.proxies[i].base.partition) && DefaultPartition(d.proxies[i].base.ns)))
  }

  predicate Syncable(d: Definition, ent: bool) { WellFormed(d) && Marked(d) && TenancyOk(d, ent) }

  /** Services a node already has. */
  function Present(r: Remote, nid: Identifier2): set<Identifier> { if nid in r then r[nid].services.Keys else {} }

  /** The services of a node whose names a dump reports. */
  function Dumped(r: Remote, nid: Identifier2): set<Identifier> {
    if nid in r && r[nid].Virtual() then ListedServices(r[nid]) else {}
  }

  /** On the nodes of the definition, every service is wanted or its id is among the names the dump reports there. */
  predicate Clean(r: Remote, wanted: Snapshot) {
    forall nid :: nid in wanted ==> Present(r, nid) <= wanted[nid] + Dumped(r, nid)
  }

  /** Stronger: a stray on a node of the definition is reported under its own id. */
  predicate Tidy(r: Remote, wanted: Snapshot) {
    forall nid, k :: nid in wanted && nid in r && k in r[nid].services && k !in wanted[nid] ==>
      r[nid].Virtual() && ListedAs(k, r[nid].services[k]) == k
  }

  lemma TidyIsClean(r: Remote, wanted: Snapshot)
    requires Tidy(r, wanted)
    ensures Clean(r, wanted)
  {
  }

  // ---------------------------------------------------------------- what registrations do

  datatype Touch = NodeTouch(nid: Identifier2) | ServiceTouch(nid: Identifier2, sid: Identifier)

  /** The registration is of that node, or of that service under its own name. */
  predicate Matches(op: Op, t: Touch) {
    && op.Register? && RegNode(op.reg) == t.nid
    && match t
       case NodeTouch(_) => op.reg.service.None? && !op.reg.skipNodeUpdate && VIRTUAL in op.reg.nodeMeta
       case ServiceTouch(_, sid) =>
         op.reg.skipNodeUpdate && op.reg.nodeMeta == map[] && op.reg.service.Some? && RegKey(op.reg.service.value) == sid &&
         ListedAs(sid, op.reg.service.value) == sid
  }

  function Touches(d: Definition): seq<Touch> {
    seq(|d.nodes|, i requires 0 <= i < |d.nodes| => NodeTouch(d.nodes[i].ID())) +
    seq(|d.services|, i requires 0 <= i < |d.services| => ServiceTouch(d.services[i].NodeID(), d.services[i].ID())) +
    seq(|d.proxies|, i requires 0 <= i < |d.proxies| => ServiceTouch(d.proxies[i].NodeID(), d.proxies[i].ID()))
  }

  lemma NodeOpMatches(n: CatalogNode, ent: bool)
    requires VIRTUAL in n.nodeMeta && (ent || DefaultPartition(n.partition))
    ensures Matches(Register(n.ToAPI(ent)), NodeTouch(n.ID()))
  {
  }

  lemma ServiceOpMatches(s: CatalogService, ent: bool)
    requires ent || (DefaultPartition(s.partition) && DefaultPartition(s.ns))
    ensures Matches(Register(s.ToAPI(ent)), ServiceTouch(s.NodeID(), s.ID()))
  {
  }

  lemma ProxyOpMatches(p: CatalogProxy, ent: bool)
    requires ent || (DefaultPartition(p.base.partition) && DefaultPartition(p.base.ns))
    ensures Matches(Register(p.ToAPI(ent)), ServiceTouch(p.NodeID(), p.ID()))
  {
  }

  lemma RegistrationsMatch(d: Definition, ent: bool)
    requires Syncable(d, ent)
    ensures |RegisterOps(d, ent)| == |Touches(d)|
    ensures forall i :: 0 <= i < |Touches(d)| ==> Matches(RegisterOps(d, ent)[i], Touches(d)[i])
  {
    var ops, ts := RegisterOps(d, ent), Touches(d);
    var n, s := |d.nodes|, |d.services|;
    hide Matches, CatalogNode.ToAPI, CatalogService.ToAPI, CatalogProxy.ToAPI, CatalogNode.ID, CatalogService.ID,
      CatalogProxy.ID, CatalogService.NodeID, CatalogProxy.NodeID, WellFormed, DefaultPartition;
    forall i | 0 <= i < |ts| ensures Matches(ops[i], ts[i]) {
      if i < n {
        NodeOpMatches(d.nodes[i], ent);
      } else if i < n + s {
        ServiceOpMatches(d.services[i - n], ent);
      } else {
        ProxyOpMatches(d.proxies[i - n - s], ent);
      }
    }
  }

  predicate TouchedNode(T: set<Touch>, nid: Identifier2) { exists t :: t in T && t.nid == nid }

  /** How a catalog looks after the registrations of T, compared with before. */
  ghost predicate Effect(r: Remote, s: Remote, T: set<Touch>) {
    && (forall nid :: nid in s <==> nid in r || TouchedNode(T, nid))
    && (forall nid :: nid in r && !TouchedNode(T, nid) ==> s[nid] == r[nid])
    && (forall nid :: nid in s ==> NodeEffect(r, s[nid], nid, T))
  }

  ghost predicate NodeEffect(r: Remote, n: RemoteNode, nid: Identifier2, T: set<Touch>) {
    && (forall k :: k in n.services <==> k in Present(r, nid) || ServiceTouch(nid, k) in T)
    && (forall k :: k in n.services ==>
          if ServiceTouch(nid, k) in T then ListedAs(k, n.services[k]) == k else n.services[k] == r[nid].services[k])
    && (if NodeTouch(nid) in T then n.Virtual() else n.meta == if nid in r then r[nid].meta else map[])
  }

  lemma NothingTouched(r: Remote)
    ensures Effect(r, r, {})
  {
  }

  lemma UntouchedNode(T: set<Touch>, nid: Identifier2)
    requires !TouchedNode(T, nid)
    ensures NodeTouch(nid) !in T && forall k :: ServiceTouch(nid, k) !in T
  {
    assert NodeTouch(nid).nid == nid;
    forall k ensures ServiceTouch(nid, k) !in T {
      assert ServiceTouch(nid, k).nid == nid;
    }
  }

  lemma FreshNodeEffect(r: Remote, T: set<Touch>, op: Op, t: Touch)
    requires t.nid !in r && !TouchedNode(T, t.nid) && Matches(op, t)
    ensures NodeEffect(r, Upsert(None, op.reg), t.nid, T + {t})
  {
    UntouchedNode(T, t.nid);
    hide TouchedNode;
  }

  lemma KnownNodeEffect(r: Remote, n: RemoteNode, T: set<Touch>, op: Op, t: Touch)
    requires NodeEffect(r, n, t.nid, T) && Matches(op, t)
    ensures NodeEffect(r, Upsert(Some(n), op.reg), t.nid, T + {t})
  {
  }

  lemma EffectOneMore(r: Remote, s: Remote, T: set<Touch>, op: Op, t: Touch)
    requires Effect(r, s, T) && Matches(op, t)
    ensures Effect(r, Apply(s, op), T + {t})
  {
    if t.nid in s {
      KnownNodeEffect(r, s[t.nid], T, op, t);
    } else {
      FreshNodeEffect(r, T, op, t);
    }
    var u := Apply(s, op);
    hide Upsert, NodeEffect;
    TouchedOneMore(T, t);
    forall nid | nid in u ensures NodeEffect(r, u[nid], nid, T + {t}) {
      if nid != t.nid {
        OtherNodeEffect(r, u[nid], nid, T, t);
      }
    }
    hide TouchedNode;
  }

  lemma TouchedOneMore(T: set<Touch>, t: Touch)
    ensures forall nid :: TouchedNode(T + {t}, nid) <==> TouchedNode(T, nid) || nid == t.nid
  {
    assert t in T + {t};
  }

  lemma OtherNodeEffect(r: Remote, n: RemoteNode, nid: Identifier2, T: set<Touch>, t: Touch)
    requires NodeEffect(r, n, nid, T) && t.nid != nid
    ensures NodeEffect(r, n, nid, T + {t})
  {
  }

  lemma {:induction false} RegistrationEffect(r: Remote, ops: seq<Op>, ts: seq<Touch>)
    requires |ops| == |ts| && forall i :: 0 <= i < |ts| ==> Matches(ops[i], ts[i])
    ensures Effect(r, ApplyAll(r, ops), Elements(ts))
  {
    hide Effect, Apply, Matches;
    if ops == [] {
      NothingTouched(r);
      assert Elements(ts) == {};
    } else {
      var n := |ops| - 1;
      RegistrationEffect(r, ops[..n], ts[..n]);
      EffectOneMore(r, ApplyAll(r, ops[..n]), Elements(ts[..n]), ops[n], ts[n]);
      assert ts == ts[..n] + [ts[n]];
      assert Elements(ts) == Elements(ts[..n]) + {ts[n]};
    }
  }

  // ---------------------------------------------------------------- what deregistrations do

  predicate Drops(D: set<Op>, nid: Identifier2, k: Identifier) {
    k.partition == nid.partition && DeregisterService(nid.name, k) in D
  }

  /** How a catalog looks after the deregistrations of D, compared with before. */
  ghost predicate Removal(s: Remote, t: Remote, D: set<Op>) {
    && (forall nid :: nid in t <==> nid in s && DeregisterNode(nid) !in D)
    && (forall nid :: nid in t ==>
          t[nid].meta == s[nid].meta &&
          (forall k :: k in t[nid].services <==> k in s[nid].services && !Drops(D, nid, k)) &&
          (forall k :: k in t[nid].services ==> t[nid].services[k] == s[nid].services[k]) &&
          ((forall k :: !Drops(D, nid, k)) ==> t[nid] == s[nid]))
  }

  predicate IsRemoval(op: Op) {
    op.DeregisterNode? || (op.DeregisterService? && op.sid.partition != "")
  }

  predicate NormalNodes(r: Remote) { forall nid :: nid in r ==> nid == nid.Normalized() }

  lemma RemovalOneMore(s: Remote, t: Remote, D: set<Op>, op: Op)
    requires Removal(s, t, D) && IsRemoval(op) && NormalNodes(s)
    ensures Removal(s, Apply(t, op), D + {op})
  {
    var u := Apply(t, op);
    forall nid | nid in u
      ensures u[nid].meta == s[nid].meta
      ensures forall k :: k in u[nid].services <==> k in s[nid].services && !Drops(D + {op}, nid, k)
      ensures forall k :: k in u[nid].services ==> u[nid].services[k] == s[nid].services[k]
      ensures (forall k :: !Drops(D + {op}, nid, k)) ==> u[nid] == s[nid]
    {
      RemovalAt(s[nid], t[nid], u[nid], nid, D, op);
    }
  }

  lemma RemovalAt(s: RemoteNode, t: RemoteNode, u: RemoteNode, nid: Identifier2, D: set<Op>, op: Op)
    requires t.meta == s.meta && IsRemoval(op) && nid == nid.Normalized()
    requires forall k :: k in t.services <==> k in s.services && !Drops(D, nid, k)
    requires forall k :: k in t.services ==> t.services[k] == s.services[k]
    requires (forall k :: !Drops(D, nid, k)) ==> t == s
    requires u == if op.DeregisterService? && NewIdentifier2(op.node, op.sid.partition) == nid then Without(t, op.sid) else t
    ensures u.meta == s.meta
    ensures forall k :: k in u.services <==> k in s.services && !Drops(D + {op}, nid, k)
    ensures forall k :: k in u.services ==> u.services[k] == s.services[k]
    ensures (forall k :: !Drops(D + {op}, nid, k)) ==> u == s
  {
    assert forall k :: Drops(D, nid, k) ==> Drops(D + {op}, nid, k);
    if op.DeregisterService? && NewIdentifier2(op.node, op.sid.partition) == nid {
      assert Drops(D + {op}, nid, op.sid);
    }
  }

  lemma {:induction false} RemovalEffect(s: Remote, ops: seq<Op>)
    requires NormalNodes(s) && forall i :: 0 <= i < |ops| ==> IsRemoval(ops[i])
    ensures Removal(s, ApplyAll(s, ops), Elements(ops))
  {
    hide Apply, IsRemoval, NormalNodes, Removal;
    if ops == [] {
      NothingRemoved(s);
      assert Elements(ops) == {};
    } else {
      var n := |ops| - 1;
      RemovalEffect(s, ops[..n]);
      RemovalOneMore(s, ApplyAll(s, ops[..n]), Elements(ops[..n]), ops[n]);
      assert ops == ops[..n] + [ops[n]];
      assert Elements(ops) == Elements(ops[..n]) + {ops[n]};
    }
  }

  lemma NothingRemoved(s: Remote)
    ensures Removal(s, s, {})
  {
  }
}
