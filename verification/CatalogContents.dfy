/** What a complete sync leaves stored for each entry of the definition, field by field. */
module CatalogContents {
  import opened Text
  import opened Sorting
  import opened Identifiers
  import opened CatalogDefs
  import opened CatalogStore
  import opened InitialSync
  import opened SyncFacts
  import SyncConvergence

  // ---------------------------------------------------------------- what later calls leave alone

  /** The call may change what is stored of that service. */
  predicate TouchesService(op: Op, nid: Identifier2, k: Identifier) {
    match op
    case Register(reg) => RegNode(reg) == nid && reg.service.Some? && RegKey(reg.service.value) == k
    case DeregisterNode(m) => m == nid
    case DeregisterService(node, sid) => sid == k && NewIdentifier2(node, sid.partition) == nid
  }

  /** The call may change the address or the metadata of that node. */
  predicate TouchesNode(op: Op, nid: Identifier2) {
    match op
    case Register(reg) => RegNode(reg) == nid && !reg.skipNodeUpdate
    case DeregisterNode(m) => m == nid
    case DeregisterService(_, _) => false
  }

  /** The call may change a check of that service in that place. */
  predicate TouchesCheck(op: Op, nid: Identifier2, c: Identifier, serviceID: string) {
    match op
    case Register(reg) => RegNode(reg) == nid && reg.check.Some? && CheckKey(reg.check.value) == c
    case DeregisterNode(m) => m == nid
    case DeregisterService(node, sid) =>
      sid == Identifier(serviceID, c.ns, c.partition) && NewIdentifier2(node, sid.partition) == nid
  }

  lemma {:induction false} ServiceStays(r: Remote, ops: seq<Op>, nid: Identifier2, k: Identifier)
    requires nid in r && k in r[nid].services && forall op :: op in ops ==> !TouchesService(op, nid, k)
    ensures var t := ApplyAll(r, ops); nid in t && k in t[nid].services && t[nid].services[k] == r[nid].services[k]
  {
    hide RegNode, RegKey, CheckKey;
    if ops != [] {
      assert ops[|ops| - 1] in ops;
      ServiceStays(r, ops[..|ops| - 1], nid, k);
    }
  }

  lemma {:induction false} NodeStays(r: Remote, ops: seq<Op>, nid: Identifier2)
    requires nid in r && forall op :: op in ops ==> !TouchesNode(op, nid)
    ensures var t := ApplyAll(r, ops); nid in t && t[nid].address == r[nid].address && t[nid].meta == r[nid].meta
  {
    hide RegNode, RegKey, CheckKey;
    if ops != [] {
      assert ops[|ops| - 1] in ops;
      NodeStays(r, ops[..|ops| - 1], nid);
    }
  }

  lemma {:induction false} CheckStays(r: Remote, ops: seq<Op>, nid: Identifier2, c: Identifier)
    requires nid in r && c in r[nid].checks && forall op :: op in ops ==> !TouchesCheck(op, nid, c, r[nid].checks[c].serviceID)
    ensures var t := ApplyAll(r, ops); nid in t && c in t[nid].checks && t[nid].checks[c] == r[nid].checks[c]
  {
    hide RegNode, RegKey, CheckKey;
    if ops != [] {
      assert ops[|ops| - 1] in ops;
      CheckStays(r, ops[..|ops| - 1], nid, c);
    }
  }

  // ---------------------------------------------------------------- the calls after a registration

  /** A complete run around its x-th registration. */
  lemma AroundRegistration(d: Definition, ent: bool, r: Remote, ops: seq<Op>, x: nat) returns (before: seq<Op>, after: seq<Op>)
    requires FullRun(d, ent, SnapshotOf(r), ops) && x < |RegisterOps(d, ent)|
    ensures ApplyAll(r, ops) == ApplyAll(Apply(ApplyAll(r, before), RegisterOps(d, ent)[x]), after)
    ensures forall op :: op in after ==>
              op in Strays(SnapshotOf(r), Expected(d)) ||
              exists y :: x < y < |RegisterOps(d, ent)| && op == RegisterOps(d, ent)[y]
  {
    var e :| ops == RegisterOps(d, ent) + e && Enumerates(e, Strays(SnapshotOf(r), Expected(d)));
    hide RegisterOps, Strays, Expected, SnapshotOf;
    before, after := AroundCall(r, RegisterOps(d, ent), e, x);
    assert forall op :: op in e ==> op in Elements(e);
  }

  lemma AroundCall(r: Remote, all: seq<Op>, e: seq<Op>, x: nat) returns (before: seq<Op>, after: seq<Op>)
    requires x < |all|
    ensures ApplyAll(r, all + e) == ApplyAll(Apply(ApplyAll(r, before), all[x]), after)
    ensures forall op :: op in after ==> op in e || exists y :: x < y < |all| && op == all[y]
  {
    hide Apply;
    before, after := all[..x], all[x + 1..] + e;
    assert all + e == (before + [all[x]]) + after;
    ApplyInTurn(r, before + [all[x]], after);
    ApplyOneMore(r, before, all[x]);
    hide ApplyAll;
    forall op | op in after ensures op in e || exists y :: x < y < |all| && op == all[y] {
      if op in all[x + 1..] {
        var i :| 0 <= i < |all[x + 1..]| && all[x + 1..][i] == op;
        assert op == all[x + 1 + i];
      }
    }
  }

  /** No stray is a node of the definition or one of its services. */
  lemma StraysSpareTheWanted(r: Remote, d: Definition, nid: Identifier2, k: Identifier)
    requires ValidRemote(r) && nid in Expected(d)
    ensures var D := Strays(SnapshotOf(r), Expected(d));
            DeregisterNode(nid) !in D &&
            (k in Expected(d)[nid] ==>
               forall op :: op in D && op.DeregisterService? && op.sid == k ==> NewIdentifier2(op.node, k.partition) != nid)
  {
    var E, curr := Expected(d), SnapshotOf(r);
    SnapshotIsValid(r);
    SyncConvergence.ExpectedIsNormal(d);
    SyncConvergence.StraysByNode(curr, E, nid);
    if k in E[nid] {
      SyncConvergence.StraysByService(curr, E, nid, k);
      assert k.partition == nid.partition && k == k.Normalized();
      hide Strays, Expected, SnapshotOf;
      forall op | op in Strays(curr, E) && op.DeregisterService? && op.sid == k ensures NewIdentifier2(op.node, k.partition) != nid {
        assert op == DeregisterService(op.node, k);
      }
    }
  }

  lemma StraysRegisterNothing(r: Remote, d: Definition)
    requires ValidRemote(r)
    ensures forall op :: op in Strays(SnapshotOf(r), Expected(d)) ==> !op.Register?
  {
    SyncConvergence.StraysAreRemovals(r, Expected(d));
    hide Strays, SnapshotOf, Expected;
  }

  /** What a registration stores of a service, unless a later one repeats it, is what the run leaves there. */
  lemma TouchStays(d: Definition, ent: bool, r: Remote, ops: seq<Op>, x: nat)
    requires ValidRemote(r) && Syncable(d, ent) && FullRun(d, ent, SnapshotOf(r), ops)
    requires x < |Touches(d)| == |RegisterOps(d, ent)| && Touches(d)[x].ServiceTouch?
    requires Touches(d)[x].nid in Expected(d) && Touches(d)[x].sid in Expected(d)[Touches(d)[x].nid]
    requires forall y :: x < y < |Touches(d)| ==> Touches(d)[y] != Touches(d)[x]
    ensures var t, nid, k := ApplyAll(r, ops), Touches(d)[x].nid, Touches(d)[x].sid;
            nid in t && k in t[nid].services && RegisterOps(d, ent)[x].Register? &&
            RegisterOps(d, ent)[x].reg.service == Some(t[nid].services[k])
  {
    var before, after := AroundRegistration(d, ent, r, ops, x);
    RegistrationsMatch(d, ent);
    var all, ts := RegisterOps(d, ent), Touches(d);
    var nid, k := ts[x].nid, ts[x].sid;
    assert Matches(all[x], ts[x]);
    StraysSpareTheWanted(r, d, nid, k);
    StraysRegisterNothing(r, d);
    hide Strays, Expected, SnapshotOf, RegisterOps, Touches, ApplyAll, Syncable, ValidRemote, FullRun, Matches, TouchesService, Apply;
    SparedByLater(all, ts, Strays(SnapshotOf(r), Expected(d)), after, x, nid, k);
    Lands(ApplyAll(r, before), all[x], nid, k);
    ServiceStays(Apply(ApplyAll(r, before), all[x]), after, nid, k);
  }

  lemma Lands(r: Remote, op: Op, nid: Identifier2, k: Identifier)
    requires Matches(op, ServiceTouch(nid, k))
    ensures var t := Apply(r, op); nid in t && k in t[nid].services && op.reg.service == Some(t[nid].services[k])
  {
    hide RegNode, RegKey, CheckKey, ListedAs;
  }

  /** The calls after the last registration of a service leave it alone. */
  lemma SparedByLater(all: seq<Op>, ts: seq<Touch>, D: set<Op>, after: seq<Op>, x: nat, nid: Identifier2, k: Identifier)
    requires |all| == |ts| && (forall y :: 0 <= y < |ts| ==> Matches(all[y], ts[y]))
    requires x < |ts| && ts[x] == ServiceTouch(nid, k) && forall y :: x < y < |ts| ==> ts[y] != ts[x]
    requires DeregisterNode(nid) !in D && forall op :: op in D ==> !op.Register?
    requires forall op :: op in D && op.DeregisterService? && op.sid == k ==> NewIdentifier2(op.node, k.partition) != nid
    requires forall op :: op in after ==> op in D || exists y :: x < y < |all| && op == all[y]
    ensures forall op :: op in after ==> !TouchesService(op, nid, k)
  {
    hide Matches;
    forall op | op in after ensures !TouchesService(op, nid, k) {
      if y :| x < y < |all| && op == all[y] {
        if TouchesService(op, nid, k) {
          SameServiceSameTouch(op, ts[y], nid, k);
        }
      }
    }
  }

  lemma SameServiceSameTouch(op: Op, t: Touch, nid: Identifier2, k: Identifier)
    requires Matches(op, t) && TouchesService(op, nid, k)
    ensures t == ServiceTouch(nid, k)
  {
    hide RegNode, RegKey, ListedAs;
  }

  lemma NodeTouchStays(d: Definition, ent: bool, r: Remote, ops: seq<Op>, x: nat)
    requires ValidRemote(r) && Syncable(d, ent) && FullRun(d, ent, SnapshotOf(r), ops)
    requires x < |Touches(d)| == |RegisterOps(d, ent)| && Touches(d)[x].NodeTouch? && Touches(d)[x].nid in Expected(d)
    requires forall y :: x < y < |Touches(d)| ==> Touches(d)[y] != Touches(d)[x]
    ensures var t, nid := ApplyAll(r, ops), Touches(d)[x].nid;
            nid in t && RegisterOps(d, ent)[x].Register? &&
            t[nid].address == RegisterOps(d, ent)[x].reg.address && t[nid].meta == RegisterOps(d, ent)[x].reg.nodeMeta
  {
    var before, after := AroundRegistration(d, ent, r, ops, x);
    RegistrationsMatch(d, ent);
    var all, ts := RegisterOps(d, ent), Touches(d);
    var nid := ts[x].nid;
    StraysSpareTheWanted(r, d, nid, Identifier("", "", ""));
    StraysRegisterNothing(r, d);
    assert Matches(all[x], ts[x]);
    hide Strays, Expected, SnapshotOf, RegisterOps, Touches, ApplyAll, Syncable, ValidRemote, RegKey, CheckKey, ListedAs;
    forall op | op in after ensures !TouchesNode(op, nid) {
      if y :| x < y < |all| && op == all[y] {
        assert Matches(all[y], ts[y]);
      }
    }
    NodeStays(Apply(ApplyAll(r, before), all[x]), after, nid);
  }

  /** The check of a registration, unless a later one takes its place, is what the run leaves there. */
  lemma CheckTouchStays(d: Definition, ent: bool, r: Remote, ops: seq<Op>, x: nat, nid: Identifier2, check: AgentCheck)
    requires ValidRemote(r) && Syncable(d, ent) && FullRun(d, ent, SnapshotOf(r), ops)
    requires x < |RegisterOps(d, ent)| && TouchesCheck(RegisterOps(d, ent)[x], nid, CheckKey(check), check.serviceID)
    requires RegisterOps(d, ent)[x].Register? && RegisterOps(d, ent)[x].reg.check == Some(check)
    requires var c := CheckKey(check); nid in Expected(d) && Identifier(check.serviceID, c.ns, c.partition) in Expected(d)[nid]
    requires forall y :: x < y < |RegisterOps(d, ent)| ==>
               !TouchesCheck(RegisterOps(d, ent)[y], nid, CheckKey(check), check.serviceID)
    ensures var t, c := ApplyAll(r, ops), CheckKey(check); nid in t && c in t[nid].checks && t[nid].checks[c] == check
  {
    var before, after := AroundRegistration(d, ent, r, ops, x);
    var op, c := RegisterOps(d, ent)[x], CheckKey(check);
    var k := Identifier(check.serviceID, c.ns, c.partition);
    StraysSpareTheWanted(r, d, nid, k);
    StraysRegisterNothing(r, d);
    var was := ApplyAll(r, before);
    hide Strays, Expected, SnapshotOf, RegisterOps, ApplyAll, Syncable, ValidRemote, FullRun, CheckKey, RegKey, RegNode;
    assert nid in Apply(was, op) && c in Apply(was, op)[nid].checks && Apply(was, op)[nid].checks[c] == check;
    forall o | o in after ensures !TouchesCheck(o, nid, c, check.serviceID) {
      if o in Strays(SnapshotOf(r), Expected(d)) {
        assert o.DeregisterService? && o.sid == k ==> NewIdentifier2(o.node, k.partition) != nid;
      }
    }
    hide Apply;
    CheckStays(Apply(was, op), after, nid, c);
  }

  // ---------------------------------------------------------------- the entries of a definition

  /** No two entries of the definition are about the same node, or the same service of one. */
  predicate KeysDistinct(d: Definition) {
    && (forall i, j :: 0 <= i < j < |d.nodes| ==> d.nodes[i].ID() != d.nodes[j].ID())
    && (forall i, j :: 0 <= i < j < |d.services| && d.services[i].NodeID() == d.services[j].NodeID() ==>
          d.services[i].ID() != d.services[j].ID())
    && (forall i, j :: 0 <= i < j < |d.proxies| && d.proxies[i].NodeID() == d.proxies[j].NodeID() ==>
          d.proxies[i].ID() != d.proxies[j].ID())
    && (forall i, j :: 0 <= i < |d.services| && 0 <= j < |d.proxies| && d.services[i].NodeID() == d.proxies[j].NodeID() ==>
          d.services[i].ID() != d.proxies[j].ID())
  }

  /** What the catalog is to hold of a node. */
  predicate NodeStored(t: Remote, n: CatalogNode) {
    var nid := NewIdentifier2(n.node, n.partition);
    nid in t && t[nid].address == n.address && t[nid].meta == n.nodeMeta
  }

  /** What the catalog is to hold of a service; without enterprise, stored tenancies are blank. */
  predicate ServiceStored(t: Remote, s: CatalogService, ent: bool) {
    var nid, k := NewIdentifier2(s.node, s.partition), NewIdentifier(s.service, s.ns, s.partition);
    nid in t && k in t[nid].services &&
    t[nid].services[k] == AgentService(Typical, s.service, s.service, s.meta, s.port, s.address,
                                       if ent then s.ns else "", if ent then s.partition else "", None)
  }

  /** What the catalog is to hold of a proxy: its own endpoint, whom it fronts, and where its upstreams lead. */
  predicate ProxyStored(t: Remote, p: CatalogProxy, ent: bool) {
    var s := p.base;
    var nid, k := NewIdentifier2(s.node, s.partition), NewIdentifier(s.service, s.ns, s.partition);
    nid in t && k in t[nid].services &&
    var a := t[nid].services[k];
    && a == AgentService(ConnectProxy, s.service, s.service, s.meta, s.port, s.address,
                         if ent then s.ns else "", if ent then s.partition else "", a.proxy)
    && a.proxy.Some?
    && a.proxy.value.destinationServiceName == p.destinationServiceName
    && a.proxy.value.destinationServiceID == p.destinationServiceName
    && a.proxy.value.localServicePort == p.localServicePort
    && |a.proxy.value.upstreams| == |p.upstreams|
    && forall i :: 0 <= i < |p.upstreams| ==>
         a.proxy.value.upstreams[i] == CatalogProxyUpstream(
           if ent then p.upstreams[i].destinationPartition else "",
           if ent then p.upstreams[i].destinationNamespace else "",
           p.upstreams[i].destinationPeer, p.upstreams[i].destinationName,
           p.upstreams[i].datacenter, p.upstreams[i].localBindPort)
  }

  /** What the catalog is to hold of the check of a service or proxy. */
  predicate CheckStored(t: Remote, s: CatalogService, ent: bool) {
    var nid, c := NewIdentifier2(s.node, s.partition), NewIdentifier(s.checkID, s.ns, s.partition);
    nid in t && c in t[nid].checks &&
    t[nid].checks[c] == AgentCheck(s.checkID, "external sync", "external-sync", "passing", s.service, s.tcpCheck,
                                   if ent then s.ns else "", if ent then s.partition else "")
  }

  lemma NodeArrives(d: Definition, ent: bool, r: Remote, ops: seq<Op>, i: nat)
    requires ValidRemote(r) && Syncable(d, ent) && FullRun(d, ent, SnapshotOf(r), ops) && i < |d.nodes|
    requires forall j :: i < j < |d.nodes| ==> d.nodes[j].ID() != d.nodes[i].ID()
    ensures NodeStored(ApplyAll(r, ops), d.nodes[i])
  {
    RegistrationsMatch(d, ent);
    assert Touches(d)[i] == NodeTouch(d.nodes[i].ID());
    assert d.nodes[i].ID() in Expected(d);
    assert RegisterOps(d, ent)[i] == Register(d.nodes[i].ToAPI(ent));
    assert forall y :: i < y < |Touches(d)| ==> Touches(d)[y] != Touches(d)[i];
    hide ApplyAll, Syncable, ValidRemote, FullRun, Touches, RegisterOps, Expected, SnapshotOf, Matches;
    NodeTouchStays(d, ent, r, ops, i);
  }

  lemma ServiceTouchAt(d: Definition, ent: bool, i: nat)
    requires WellFormed(d) && i < |d.services|
    ensures var x := |d.nodes| + i;
            x < |Touches(d)| == |RegisterOps(d, ent)| && Touches(d)[x] == ServiceTouch(d.services[i].NodeID(), d.services[i].ID()) &&
            RegisterOps(d, ent)[x] == Register(d.services[i].ToAPI(ent))
    ensures d.services[i].NodeID() in Expected(d) && d.services[i].ID() in Expected(d)[d.services[i].NodeID()]
  {
    hide CatalogService.NodeID, CatalogService.ID, CatalogService.ToAPI, CatalogNode.ID, CatalogProxy.NodeID, CatalogProxy.ID;
  }

  lemma ProxyTouchAt(d: Definition, ent: bool, i: nat)
    requires WellFormed(d) && i < |d.proxies|
    ensures var x := |d.nodes| + |d.services| + i;
            x < |Touches(d)| == |RegisterOps(d, ent)| && Touches(d)[x] == ServiceTouch(d.proxies[i].NodeID(), d.proxies[i].ID()) &&
            RegisterOps(d, ent)[x] == Register(d.proxies[i].ToAPI(ent))
    ensures d.proxies[i].NodeID() in Expected(d) && d.proxies[i].ID() in Expected(d)[d.proxies[i].NodeID()]
  {
    hide CatalogService.NodeID, CatalogService.ID, CatalogProxy.ToAPI, CatalogNode.ID, CatalogProxy.NodeID, CatalogProxy.ID;
  }

  lemma LaterTouches(d: Definition, x: nat)
    requires x < |Touches(d)|
    ensures forall y :: x < y < |Touches(d)| && Touches(d)[y] == Touches(d)[x] ==>
              || (y < |d.nodes| && Touches(d)[x] == NodeTouch(d.nodes[y].ID()))
              || (exists j :: 0 <= j < |d.services| && y == |d.nodes| + j &&
                    Touches(d)[x] == ServiceTouch(d.services[j].NodeID(), d.services[j].ID()))
              || (exists j :: 0 <= j < |d.proxies| && y == |d.nodes| + |d.services| + j &&
                    Touches(d)[x] == ServiceTouch(d.proxies[j].NodeID(), d.proxies[j].ID()))
  {
    hide CatalogService.NodeID, CatalogService.ID, CatalogNode.ID, CatalogProxy.NodeID, CatalogProxy.ID;
    var n, m := |d.nodes|, |d.nodes| + |d.services|;
    forall y | x < y < |Touches(d)| && Touches(d)[y] == Touches(d)[x]
      ensures || (y < n && Touches(d)[x] == NodeTouch(d.nodes[y].ID()))
              || (exists j :: 0 <= j < |d.services| && y == n + j &&
                    Touches(d)[x] == ServiceTouch(d.services[j].NodeID(), d.services[j].ID()))
              || (exists j :: 0 <= j < |d.proxies| && y == m + j &&
                    Touches(d)[x] == ServiceTouch(d.proxies[j].NodeID(), d.proxies[j].ID()))
    {
      if n <= y < m {
        var j := y - n;
        assert Touches(d)[y] == ServiceTouch(d.services[j].NodeID(), d.services[j].ID());
      } else if m <= y {
        var j := y - m;
        assert Touches(d)[y] == ServiceTouch(d.proxies[j].NodeID(), d.proxies[j].ID());
      }
    }
  }

  lemma ServiceArrives(d: Definition, ent: bool, r: Remote, ops: seq<Op>, i: nat)
    requires ValidRemote(r) && Syncable(d, ent) && FullRun(d, ent, SnapshotOf(r), ops) && i < |d.services|
    requires forall j :: i < j < |d.services| && d.services[j].NodeID() == d.services[i].NodeID() ==>
               d.services[j].ID() != d.services[i].ID()
    requires forall j :: 0 <= j < |d.proxies| && d.proxies[j].NodeID() == d.services[i].NodeID() ==>
               d.proxies[j].ID() != d.services[i].ID()
    ensures ServiceStored(ApplyAll(r, ops), d.services[i], ent)
  {
    var x := |d.nodes| + i;
    assert WellFormed(d);
    ServiceTouchAt(d, ent, i);
    ServiceIsLast(d, i);
    hide ApplyAll, Syncable, ValidRemote, FullRun, Touches, RegisterOps, Expected, SnapshotOf, WellFormed, ServiceStored,
      CatalogService.ToAPI, CatalogService.ID, CatalogService.NodeID;
    TouchStays(d, ent, r, ops, x);
    ServiceRead(ApplyAll(r, ops), d.services[i], ent);
  }

  lemma ServiceIsLast(d: Definition, i: nat)
    requires i < |d.services|
    requires forall j :: i < j < |d.services| && d.services[j].NodeID() == d.services[i].NodeID() ==>
               d.services[j].ID() != d.services[i].ID()
    requires forall j :: 0 <= j < |d.proxies| && d.proxies[j].NodeID() == d.services[i].NodeID() ==>
               d.proxies[j].ID() != d.services[i].ID()
    ensures var x := |d.nodes| + i;
            x < |Touches(d)| && forall y :: x < y < |Touches(d)| ==> Touches(d)[y] != Touches(d)[x]
  {
    var x := |d.nodes| + i;
    hide CatalogService.ID, CatalogService.NodeID, CatalogProxy.ID, CatalogProxy.NodeID;
    assert Touches(d)[x] == ServiceTouch(d.services[i].NodeID(), d.services[i].ID());
    LaterTouches(d, x);
    hide Touches;
  }

  lemma ServiceRead(t: Remote, s: CatalogService, ent: bool)
    requires s.NodeID() in t && s.ID() in t[s.NodeID()].services
    requires s.ToAPI(ent).service == Some(t[s.NodeID()].services[s.ID()])
    ensures ServiceStored(t, s, ent)
  {
  }

  lemma ProxyArrives(d: Definition, ent: bool, r: Remote, ops: seq<Op>, i: nat)
    requires ValidRemote(r) && Syncable(d, ent) && FullRun(d, ent, SnapshotOf(r), ops) && i < |d.proxies|
    requires forall j :: i < j < |d.proxies| && d.proxies[j].NodeID() == d.proxies[i].NodeID() ==>
               d.proxies[j].ID() != d.proxies[i].ID()
    ensures ProxyStored(ApplyAll(r, ops), d.proxies[i], ent)
  {
    var x := |d.nodes| + |d.services| + i;
    assert WellFormed(d);
    ProxyTouchAt(d, ent, i);
    ProxyIsLast(d, i);
    hide ApplyAll, Syncable, ValidRemote, FullRun, Touches, RegisterOps, Expected, SnapshotOf, WellFormed, ProxyStored,
      CatalogProxy.ToAPI, CatalogProxy.ID, CatalogProxy.NodeID;
    TouchStays(d, ent, r, ops, x);
    ProxyRead(ApplyAll(r, ops), d.proxies[i], ent);
  }

  lemma ProxyIsLast(d: Definition, i: nat)
    requires i < |d.proxies|
    requires forall j :: i < j < |d.proxies| && d.proxies[j].NodeID() == d.proxies[i].NodeID() ==>
               d.proxies[j].ID() != d.proxies[i].ID()
    ensures var x := |d.nodes| + |d.services| + i;
            x < |Touches(d)| && forall y :: x < y < |Touches(d)| ==> Touches(d)[y] != Touches(d)[x]
  {
    var x := |d.nodes| + |d.services| + i;
    hide CatalogService.ID, CatalogService.NodeID, CatalogProxy.ID, CatalogProxy.NodeID;
    assert Touches(d)[x] == ServiceTouch(d.proxies[i].NodeID(), d.proxies[i].ID());
    LaterTouches(d, x);
    hide Touches;
  }

  lemma ProxyRead(t: Remote, p: CatalogProxy, ent: bool)
    requires p.NodeID() in t && p.ID() in t[p.NodeID()].services
    requires p.ToAPI(ent).service == Some(t[p.NodeID()].services[p.ID()])
    ensures ProxyStored(t, p, ent)
  {
  }

  /**
   * After a complete run, from any catalog, every node, service and proxy of a definition without duplicate keys is
   * stored with all that the definition says of it.
   */
  lemma DefinitionArrives(d: Definition, ent: bool, r: Remote, ops: seq<Op>)
    requires ValidRemote(r) && Syncable(d, ent) && FullRun(d, ent, SnapshotOf(r), ops) && KeysDistinct(d)
    ensures forall n :: n in d.nodes ==> NodeStored(ApplyAll(r, ops), n)
    ensures forall s :: s in d.services ==> ServiceStored(ApplyAll(r, ops), s, ent)
    ensures forall p :: p in d.proxies ==> ProxyStored(ApplyAll(r, ops), p, ent)
  {
    hide ApplyAll, Syncable, ValidRemote, FullRun, SnapshotOf, NodeStored, ServiceStored, ProxyStored,
      CatalogService.NodeID, CatalogService.ID, CatalogNode.ID, CatalogProxy.NodeID, CatalogProxy.ID;
    forall n | n in d.nodes ensures NodeStored(ApplyAll(r, ops), n) {
      var i :| 0 <= i < |d.nodes| && d.nodes[i] == n;
      NodeArrives(d, ent, r, ops, i);
    }
    forall s | s in d.services ensures ServiceStored(ApplyAll(r, ops), s, ent) {
      var i :| 0 <= i < |d.services| && d.services[i] == s;
      ServiceArrives(d, ent, r, ops, i);
    }
    forall p | p in d.proxies ensures ProxyStored(ApplyAll(r, ops), p, ent) {
      var i :| 0 <= i < |d.proxies| && d.proxies[i] == p;
      ProxyArrives(d, ent, r, ops, i);
    }
  }

  // ---------------------------------------------------------------- checks

  /** Where the check of an entry is kept. */
  function CheckPlace(s: CatalogService): (Identifier2, Identifier) {
    (NewIdentifier2(s.node, s.partition), NewIdentifier(s.checkID, s.ns, s.partition))
  }

  lemma CheckOfRegistration(s: CatalogService, ent: bool)
    requires ent || (DefaultPartition(s.partition) && DefaultPartition(s.ns))
    ensures var reg := s.ToAPI(ent); RegNode(reg) == s.NodeID() && reg.check.Some? && CheckKey(reg.check.value) == CheckPlace(s).1
    ensures s.NodeID() == CheckPlace(s).0
    ensures s.ToAPI(ent).check.value.serviceID == s.service
    ensures s.ID() == Identifier(s.service, CheckPlace(s).1.ns, CheckPlace(s).1.partition)
  {
  }

  /** Which registrations of a definition write a check, and where. */
  lemma CheckWriters(d: Definition, ent: bool, y: nat)
    requires Syncable(d, ent) && y < |RegisterOps(d, ent)|
    ensures RegisterOps(d, ent)[y].Register?
    ensures y < |d.nodes| ==> RegisterOps(d, ent)[y].reg.check.None?
    ensures y >= |d.nodes| ==>
              var s := if y < |d.nodes| + |d.services| then d.services[y - |d.nodes|]
                       else d.proxies[y - |d.nodes| - |d.services|].base;
              RegisterOps(d, ent)[y].reg.check == s.ToAPI(ent).check && RegNode(RegisterOps(d, ent)[y].reg) == CheckPlace(s).0 &&
              RegisterOps(d, ent)[y].reg.check.Some? && CheckKey(s.ToAPI(ent).check.value) == CheckPlace(s).1
  {
    hide WellFormed, Marked;
    if y >= |d.nodes| {
      if y < |d.nodes| + |d.services| {
        assert RegisterOps(d, ent)[y] == Register(d.services[y - |d.nodes|].ToAPI(ent));
        CheckOfRegistration(d.services[y - |d.nodes|], ent);
      } else {
        assert RegisterOps(d, ent)[y] == Register(d.proxies[y - |d.nodes| - |d.services|].ToAPI(ent));
        CheckOfRegistration(d.proxies[y - |d.nodes| - |d.services|].base, ent);
        ProxyKeepsCheck(d.proxies[y - |d.nodes| - |d.services|], ent);
      }
    } else {
      assert RegisterOps(d, ent)[y] == Register(d.nodes[y].ToAPI(ent));
    }
  }

  lemma ProxyKeepsCheck(p: CatalogProxy, ent: bool)
    ensures p.ToAPI(ent).check == p.base.ToAPI(ent).check && RegNode(p.ToAPI(ent)) == RegNode(p.base.ToAPI(ent))
  {
  }

  /** The entry whose registration is the y-th. */
  function RegisteredAt(d: Definition, y: nat): CatalogService
    requires |d.nodes| <= y < |d.nodes| + |d.services| + |d.proxies|
  {
    if y < |d.nodes| + |d.services| then d.services[y - |d.nodes|] else d.proxies[y - |d.nodes| - |d.services|].base
  }

  /** The last entry whose check is kept in a place is the one whose check is found there in the end. */
  lemma CheckArrives(d: Definition, ent: bool, r: Remote, ops: seq<Op>, x: nat)
    requires ValidRemote(r) && Syncable(d, ent) && FullRun(d, ent, SnapshotOf(r), ops)
    requires |d.nodes| <= x < |d.nodes| + |d.services| + |d.proxies|
    requires forall y :: x < y < |d.nodes| + |d.services| + |d.proxies| ==> CheckPlace(RegisteredAt(d, y)) != CheckPlace(RegisteredAt(d, x))
    ensures CheckStored(ApplyAll(r, ops), RegisteredAt(d, x), ent)
  {
    var s := RegisteredAt(d, x);
    var nid, check := CheckPlace(s).0, s.ToAPI(ent).check.value;
    EntryIsWanted(d, ent, x);
    OwnCheck(d, ent, x);
    LaterChecksElsewhere(d, ent, x);
    hide ApplyAll, Syncable, ValidRemote, FullRun, Expected, SnapshotOf, CheckPlace, CheckKey, RegisteredAt,
      CatalogService.ToAPI, RegisterOps, TouchesCheck, CheckStored;
    CheckTouchStays(d, ent, r, ops, x, nid, check);
    CheckRead(ApplyAll(r, ops), s, ent);
  }

  lemma OwnCheck(d: Definition, ent: bool, x: nat)
    requires Syncable(d, ent) && |d.nodes| <= x < |d.nodes| + |d.services| + |d.proxies|
    ensures var op, s := RegisterOps(d, ent)[x], RegisteredAt(d, x);
            op.Register? && s.ToAPI(ent).check.Some? && op.reg.check == s.ToAPI(ent).check &&
            CheckKey(s.ToAPI(ent).check.value) == CheckPlace(s).1 &&
            TouchesCheck(op, CheckPlace(s).0, CheckPlace(s).1, s.ToAPI(ent).check.value.serviceID)
    ensures |RegisterOps(d, ent)| == |d.nodes| + |d.services| + |d.proxies|
  {
    CheckWriters(d, ent, x);
    hide Syncable, CheckPlace, CheckKey, RegNode, CatalogService.ToAPI, CatalogNode.ToAPI, CatalogProxy.ToAPI;
  }

  lemma LaterChecksElsewhere(d: Definition, ent: bool, x: nat)
    requires Syncable(d, ent) && |d.nodes| <= x < |d.nodes| + |d.services| + |d.proxies|
    requires forall y :: x < y < |d.nodes| + |d.services| + |d.proxies| ==> CheckPlace(RegisteredAt(d, y)) != CheckPlace(RegisteredAt(d, x))
    ensures forall y, serviceID :: x < y < |RegisterOps(d, ent)| ==>
              !TouchesCheck(RegisterOps(d, ent)[y], CheckPlace(RegisteredAt(d, x)).0, CheckPlace(RegisteredAt(d, x)).1, serviceID)
  {
    assert |RegisterOps(d, ent)| == |d.nodes| + |d.services| + |d.proxies|;
    hide RegisterOps, CheckPlace, CheckKey, RegNode, CatalogService.ToAPI, Syncable, TouchesCheck, RegisteredAt;
    forall y, serviceID | x < y < |RegisterOps(d, ent)|
      ensures !TouchesCheck(RegisterOps(d, ent)[y], CheckPlace(RegisteredAt(d, x)).0, CheckPlace(RegisteredAt(d, x)).1, serviceID)
    {
      ChecksElsewhere(d, ent, y, CheckPlace(RegisteredAt(d, x)), serviceID);
    }
  }

  lemma ChecksElsewhere(d: Definition, ent: bool, y: nat, place: (Identifier2, Identifier), serviceID: string)
    requires Syncable(d, ent) && |d.nodes| <= y < |d.nodes| + |d.services| + |d.proxies| && CheckPlace(RegisteredAt(d, y)) != place
    ensures y < |RegisterOps(d, ent)| && !TouchesCheck(RegisterOps(d, ent)[y], place.0, place.1, serviceID)
  {
    assert y < |RegisterOps(d, ent)|;
    hide RegisterOps, CheckPlace, CheckKey, RegNode, CatalogService.ToAPI, Syncable;
    CheckWriters(d, ent, y);
    var b := CheckPlace(RegisteredAt(d, y));
    assert place == (place.0, place.1) && b == (b.0, b.1);
  }

  lemma CheckRead(t: Remote, s: CatalogService, ent: bool)
    requires var check := s.ToAPI(ent).check.value;
             var nid, c := CheckPlace(s).0, CheckPlace(s).1;
             nid in t && c in t[nid].checks && t[nid].checks[c] == check
    ensures CheckStored(t, s, ent)
  {
  }

  lemma EntryIsWanted(d: Definition, ent: bool, x: nat)
    requires Syncable(d, ent) && |d.nodes| <= x < |d.nodes| + |d.services| + |d.proxies|
    ensures var s := RegisteredAt(d, x);
            var nid, c := CheckPlace(s).0, CheckPlace(s).1;
            nid in Expected(d) && Identifier(s.ToAPI(ent).check.value.serviceID, c.ns, c.partition) in Expected(d)[nid]
  {
    CheckOfRegistration(RegisteredAt(d, x), true);
    if x < |d.nodes| + |d.services| {
      ServiceTouchAt(d, ent, x - |d.nodes|);
    } else {
      ProxyTouchAt(d, ent, x - |d.nodes| - |d.services|);
    }
    hide Expected, CheckPlace, CatalogService.ID, CatalogService.NodeID, WellFormed, Marked, TenancyOk;
  }
}
