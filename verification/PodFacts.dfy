/** From a configuration to what the catalog holds of its pods. */
module PodFacts {
  import opened Text
  import opened Sorting
  import opened Identifiers
  import Config
  import opened Infra
  import Compile
  import NameFacts
  import NodeFacts
  import AgentFacts
  import opened CatalogDefs
  import opened CatalogStore
  import opened GenCatalog
  import opened CatalogFacts
  import opened InitialSync
  import opened SyncFacts
  import opened CatalogContents
  import HealthSync

  // ---------------------------------------------------------------- keys and checks of a generated definition

  /** The health passes probe every generated service. */
  lemma GeneratedAreChecked(S: set<Node>, d: Definition)
    requires AllDefinable(S) && Defines(S, d)
    ensures forall s :: s in d.services ==> s.tcpCheck != "" && s.checkID != ""
  {
    hide Defines, Definable, AppEntry;
    forall s | s in d.services ensures s.tcpCheck != "" && s.checkID != "" {
      var i :| 0 <= i < |d.services| && d.services[i] == s;
      var n := AppSource(S, d, i);
      AppIsChecked(n);
    }
  }

  lemma AppIsChecked(n: Node)
    requires Definable(n)
    ensures AppEntry(n).tcpCheck != "" && AppEntry(n).checkID != ""
  {
    var s := n.service.value;
    hide PortText;
    assert |s.id.partition + "/" + s.id.ns + "/" + s.id.name| > 0;
    assert |n.LocalAddress().value + ":" + PortText(s.port)| > 0;
  }

  lemma SidecarApart(n: Node)
    requires Definable(n)
    ensures AppEntry(n).ID() != ProxyEntry(n).ID()
  {
    var name := n.service.value.id.name;
    assert |name + SIDECAR| > |name|;
  }

  /** No two entries of a generated definition are about the same thing. */
  lemma GeneratedKeysDistinct(S: set<Node>, d: Definition)
    requires AllDefinable(S) && AllPlaced(S) && NamedApart(S) && Defines(S, d)
    ensures KeysDistinct(d)
  {
    EntriesApart(S);
    assert NoDuplicates(d.nodes) && NoDuplicates(d.services) && NoDuplicates(d.proxies);
    hide Definable, AppEntry, NodeEntry, ProxyEntry, NodeIDOf, AppIDOf, ProxyIDOf, Placed, Defines, NamedApart,
      CatalogService.NodeID, CatalogService.ID, CatalogProxy.NodeID, CatalogProxy.ID, CatalogNode.ID;
    forall i, j | 0 <= i < j < |d.nodes| ensures d.nodes[i].ID() != d.nodes[j].ID() {
      var a := NodeSource(S, d, i);
      var b := NodeSource(S, d, j);
      KeysAreRecomputed(a);
      KeysAreRecomputed(b);
    }
    forall i, j | 0 <= i < j < |d.services| ensures d.services[i].NodeID() != d.services[j].NodeID() {
      var a := AppSource(S, d, i);
      var b := AppSource(S, d, j);
      KeysAreRecomputed(a);
      KeysAreRecomputed(b);
    }
    forall i, j | 0 <= i < j < |d.proxies| ensures d.proxies[i].NodeID() != d.proxies[j].NodeID() {
      var a := ProxySource(S, d, i);
      var b := ProxySource(S, d, j);
      KeysAreRecomputed(a);
      KeysAreRecomputed(b);
    }
    forall i, j | 0 <= i < |d.services| && 0 <= j < |d.proxies| && d.services[i].NodeID() == d.proxies[j].NodeID()
      ensures d.services[i].ID() != d.proxies[j].ID()
    {
      var a := AppSource(S, d, i);
      var b := ProxySource(S, d, j);
      KeysAreRecomputed(a);
      KeysAreRecomputed(b);
      SidecarApart(a);
    }
  }

  // ---------------------------------------------------------------- what arrives of a pod

  /** What the catalog is to hold of the pod of a node: itself, its service and its sidecar. */
  predicate PodStored(t: Remote, n: Node, ent: bool) {
    && n.service.Some? && n.LocalAddress().Some?
    && var svc, ip := n.service.value, n.LocalAddress().value;
    var nid := Identifier2(n.name + "-pod", n.partition);
    var ns, part := if ent then svc.id.ns else "", if ent then n.partition else "";
    var app, sidecar := svc.id.name, svc.id.name + "-sidecar-proxy";
    var k, p := Identifier(app, svc.id.ns, n.partition), Identifier(sidecar, svc.id.ns, n.partition);
    && nid in t && t[nid].address == ip && t[nid].meta == map["devconsul-virtual" := "1"]
    && k in t[nid].services && p in t[nid].services
    && t[nid].services[k] == AgentService(Typical, app, app, svc.meta, svc.port, ip, ns, part, None)
    && t[nid].services[p] == AgentService(
         ConnectProxy, sidecar, sidecar, svc.meta, 20000, ip, ns, part,
         Some(ProxyConfig(app, app, svc.port,
                          [CatalogProxyUpstream(if ent then svc.upstreamID.partition else "",
                                                if ent then svc.upstreamID.ns else "",
                                                svc.upstreamPeer, svc.upstreamID.name, svc.upstreamDatacenter,
                                                svc.upstreamLocalPort)])))
  }

  lemma EntriesStorePod(t: Remote, n: Node, ent: bool)
    requires Definable(n) && Placed(n)
    requires NodeStored(t, NodeEntry(n)) && ServiceStored(t, AppEntry(n), ent) && ProxyStored(t, ProxyEntry(n), ent)
    ensures PodStored(t, n, ent)
  {
    hide PortText, Identifier.Text;
    var a := t[NewIdentifier2(n.PodName(), n.partition)].services[ProxyEntry(n).ID()];
    assert a.proxy.value.upstreams == [a.proxy.value.upstreams[0]];
  }

  /** After a complete sync of the generated definition, from any catalog, every pod is stored in full. */
  lemma PodArrives(S: set<Node>, d: Definition, ent: bool, r: Remote, ops: seq<Op>, n: Node)
    requires AllDefinable(S) && AllPlaced(S) && NamedApart(S) && Defines(S, d) && n in S
    requires ValidRemote(r) && Syncable(d, ent) && FullRun(d, ent, SnapshotOf(r), ops)
    ensures PodStored(ApplyAll(r, ops), n, ent)
  {
    hide Definable, AppEntry, NodeEntry, ProxyEntry, NodeIDOf, AppIDOf, ProxyIDOf, Placed, Defines, NamedApart, KeysDistinct,
      ValidRemote, Syncable, FullRun, SnapshotOf, ApplyAll, NodeStored, ServiceStored, ProxyStored, PodStored;
    GeneratedKeysDistinct(S, d);
    DefinitionArrives(d, ent, r, ops);
    var i, j, k := EntriesOf(S, d, n);
    assert d.nodes[i] in d.nodes && d.services[j] in d.services && d.proxies[k] in d.proxies;
    EntriesStorePod(ApplyAll(r, ops), n, ent);
  }

  // ---------------------------------------------------------------- the check that app and sidecar share

  /** Where the check of a pod's service is kept, and who holds it: the service or its sidecar. */
  predicate HoldsCheck(t: Remote, n: Node, serviceID: string) {
    && n.service.Some?
    && var id := n.service.value.id;
    var nid := Identifier2(n.name + "-pod", n.partition);
    var c := Identifier(n.partition + "/" + id.ns + "/" + id.name, id.ns, n.partition);
    nid in t && c in t[nid].checks && t[nid].checks[c].serviceID == serviceID
  }

  lemma SharedPlace(n: Node)
    requires Definable(n) && Placed(n)
    ensures var id := n.service.value.id;
            CheckPlace(ProxyEntry(n).base) ==
            (Identifier2(n.name + "-pod", n.partition), Identifier(n.partition + "/" + id.ns + "/" + id.name, id.ns, n.partition))
    ensures CheckPlace(AppEntry(n)) == CheckPlace(ProxyEntry(n).base) && CheckPlace(ProxyEntry(n).base).0 == NodeIDOf(n)
    ensures ProxyEntry(n).base.service == n.service.value.id.name + "-sidecar-proxy" && AppEntry(n).service == n.service.value.id.name
  {
    hide PortText;
  }

  /**
   * The service and its sidecar are registered with the same check id, and the sidecar comes later: after a complete
   * sync the one check of the pod is the sidecar's, and the service has none.
   */
  lemma SidecarTakesTheCheck(S: set<Node>, d: Definition, ent: bool, r: Remote, ops: seq<Op>, n: Node)
    requires AllDefinable(S) && AllPlaced(S) && NamedApart(S) && Defines(S, d) && n in S
    requires ValidRemote(r) && Syncable(d, ent) && FullRun(d, ent, SnapshotOf(r), ops)
    ensures n.service.Some? && HoldsCheck(ApplyAll(r, ops), n, n.service.value.id.name + "-sidecar-proxy")
  {
    hide AppEntry, NodeEntry, ProxyEntry, NodeIDOf, AppIDOf, ProxyIDOf, Placed, Defines, NamedApart,
      ValidRemote, Syncable, FullRun, SnapshotOf, ApplyAll, CheckPlace, CheckStored;
    var i, j, k := EntriesOf(S, d, n);
    var x := |d.nodes| + |d.services| + k;
    assert RegisteredAt(d, x) == ProxyEntry(n).base;
    LaterProxiesElsewhere(S, d, n, k);
    CheckArrives(d, ent, r, ops, x);
    SharedPlace(n);
    SidecarHolds(ApplyAll(r, ops), n, ent);
  }

  lemma SidecarHolds(t: Remote, n: Node, ent: bool)
    requires Definable(n) && Placed(n) && CheckStored(t, ProxyEntry(n).base, ent)
    ensures HoldsCheck(t, n, n.service.value.id.name + "-sidecar-proxy")
  {
    SharedPlace(n);
    hide ProxyEntry, AppEntry, Definable, Placed;
  }

  lemma LaterProxiesElsewhere(S: set<Node>, d: Definition, n: Node, k: nat)
    requires AllDefinable(S) && AllPlaced(S) && NamedApart(S) && Defines(S, d) && n in S && k < |d.proxies| && d.proxies[k] == ProxyEntry(n)
    ensures var x := |d.nodes| + |d.services| + k;
            forall y :: x < y < |d.nodes| + |d.services| + |d.proxies| ==> CheckPlace(RegisteredAt(d, y)) != CheckPlace(RegisteredAt(d, x))
  {
    EntriesApart(S);
    assert NoDuplicates(d.proxies);
    hide Definable, AppEntry, NodeEntry, ProxyEntry, NodeIDOf, AppIDOf, ProxyIDOf, Placed, Defines, NamedApart, CheckPlace;
    var x := |d.nodes| + |d.services| + k;
    SharedPlace(n);
    forall y | x < y < |d.nodes| + |d.services| + |d.proxies| ensures CheckPlace(RegisteredAt(d, y)) != CheckPlace(RegisteredAt(d, x)) {
      var m := ProxySource(S, d, y - |d.nodes| - |d.services|);
      SharedPlace(m);
    }
  }

  /** The first health report of the service takes the check over. */
  lemma ReportTakesTheCheck(t: Remote, n: Node, ent: bool, status: string)
    requires Definable(n) && Placed(n) && DefaultTenancyUnless(ent, n)
    ensures HoldsCheck(Apply(t, HealthSync.ReportFor(AppEntry(n), ent, status)), n, n.service.value.id.name)
  {
    hide PortText;
  }

  predicate DefaultTenancyUnless(ent: bool, n: Node) {
    ent || (n.partition == "default" && n.service.Some? && n.service.value.id.ns == "default")
  }

  // ---------------------------------------------------------------- configured pods

  /** A dataplane node of the cluster that runs a service. */
  predicate IsPod(nm: NodeMap, cluster: string, n: Node) {
    n.name in nm && nm[n.name] == n && n.cluster == cluster && n.kind == Dataplane && n.service.Some?
  }

  /** The sources of a cluster's definition are its dataplane nodes that run a service. */
  lemma SourcesAsCompiled(nm: NodeMap, cluster: string)
    requires WellFiled(nm)
    ensures forall n :: n in Sources(nm, cluster) <==> IsPod(nm, cluster, n)
  {
  }

  /** In a clean catalog, a complete sync leaves exactly the pods of those nodes, each with its service and its sidecar. */
  lemma PodsAsCompiled(cfg: Config.Config, v: View, cluster: string, d: Definition, r: Remote, ops: seq<Op>)
    requires Config.Acceptable(cfg) && Compile.Compilable(cfg) && Compile.IsCompiled(cfg, v)
    requires AllDefinable(Sources(v.nm, cluster)) && Defines(Sources(v.nm, cluster), d)
    requires ValidRemote(r) && Clean(r, Expected(d)) && FullRun(d, cfg.enterpriseEnabled, SnapshotOf(r), ops)
    ensures var m := Membership(ApplyAll(r, ops));
            && (forall nid :: nid in m <==> exists n :: IsPod(v.nm, cluster, n) && nid == Identifier2(n.name + "-pod", n.partition))
            && forall n :: IsPod(v.nm, cluster, n) ==>
                 var nid, id := Identifier2(n.name + "-pod", n.partition), n.service.value.id;
                 nid in m && m[nid] == {id, Identifier(id.name + "-sidecar-proxy", id.ns, id.partition)}
  {
    var S := Sources(v.nm, cluster);
    AgentFacts.CompiledIsWellFiled(cfg, v);
    SourcesAsCompiled(v.nm, cluster);
    CompiledSources(cfg, v, cluster);
    assert forall n :: IsPod(v.nm, cluster, n) ==> n.service.Some?;
    hide IsPod, Config.Acceptable, Compile.Compilable, Compile.IsCompiled, Defines, Definable, Sources, ValidRemote, Clean, FullRun,
      ApplyAll, Membership, Expected, SnapshotOf, WellFiled, Placed, NodeIDOf, AppIDOf, ProxyIDOf;
    GeneratedCatalogArrives(cfg, v, cluster, d, r, ops);
    PlannedPods(S, Membership(ApplyAll(r, ops)));
  }

  lemma PlannedPods(S: set<Node>, m: Snapshot)
    requires AllDefinable(S) && AllPlaced(S) && AsPlanned(S, m)
    ensures forall n :: n in S ==> n.service.Some?
    ensures forall nid :: nid in m <==> exists n :: n in S && nid == Identifier2(n.name + "-pod", n.partition)
    ensures forall n :: n in S ==>
              var nid, id := Identifier2(n.name + "-pod", n.partition), n.service.value.id;
              nid in m && m[nid] == {id, Identifier(id.name + "-sidecar-proxy", id.ns, id.partition)}
  {
    hide Definable, Placed, NodeIDOf, AppIDOf, ProxyIDOf;
    forall n | n in S
      ensures n.service.Some? && NodeIDOf(n) == Identifier2(n.name + "-pod", n.partition)
      ensures var nid, id := Identifier2(n.name + "-pod", n.partition), n.service.value.id;
              nid in m && m[nid] == {id, Identifier(id.name + "-sidecar-proxy", id.ns, id.partition)}
    {
      IdsOfPod(n);
    }
    forall nid | nid in m ensures exists n :: n in S && nid == Identifier2(n.name + "-pod", n.partition) {
      var n :| n in S && NodeIDOf(n) == nid;
    }
  }

  lemma IdsOfPod(n: Node)
    requires Definable(n) && Placed(n)
    ensures n.service.Some? && NodeIDOf(n) == Identifier2(n.name + "-pod", n.partition)
    ensures var id := n.service.value.id;
            AppIDOf(n) == id && ProxyIDOf(n) == Identifier(id.name + "-sidecar-proxy", id.ns, id.partition)
  {
  }

  /** What the catalog is to hold of the pod of a cluster's idx-th client, without enterprise. */
  predicate ConfiguredPodStored(t: Remote, c: ClusterInfo, idx: nat, s: Config.NodeConfig) {
    var nid := Identifier2(c.name + "-client" + Itoa(idx) + "-pod", "default");
    var ip := "10.0." + Itoa(c.index) + "." + Itoa(20 + idx);
    var app, other := if idx % 2 == 1 then "ping" else "pong", if idx % 2 == 1 then "pong" else "ping";
    var k, p := Identifier(app, "default", "default"), Identifier(app + "-sidecar-proxy", "default", "default");
    && nid in t && t[nid].address == ip && t[nid].meta == map["devconsul-virtual" := "1"]
    && k in t[nid].services && p in t[nid].services
    && t[nid].services[k] == AgentService(Typical, app, app, s.serviceMeta, 8080, ip, "", "", None)
    && t[nid].services[p] == AgentService(
         ConnectProxy, app + "-sidecar-proxy", app + "-sidecar-proxy", s.serviceMeta, 20000, ip, "", "",
         Some(ProxyConfig(app, app, 8080,
                          [CatalogProxyUpstream("", "", s.upstreamPeer, if s.upstreamName != "" then s.upstreamName else other,
                                                s.upstreamDatacenter, 9090)])))
  }

  lemma ClientPodStored(cfg: Config.Config, t: Remote, c: ClusterInfo, idx: nat, s: Config.NodeConfig, n: Node)
    requires NodeFacts.Fills(cfg, NodeFacts.ClientAt(c, idx, s), n) && !NodeFacts.IsGatewayIndex(c, idx)
    requires n.LocalAddress() == Some(AgentFacts.LanAt(c, 20 + idx)) && PodStored(t, n, false)
    requires s.partition == "" && s.serviceNamespace == ""
    ensures ConfiguredPodStored(t, c, idx, s)
  {
    hide Itoa, NodeFacts.SettingsFor, NodeFacts.AddressesAt, Node.LocalAddress;
  }

  lemma EntryIsUntenanted(cfg: Config.Config, name: string, s: Config.NodeConfig)
    requires Config.Acceptable(cfg) && Compile.Compilable(cfg) && !cfg.enterpriseEnabled && NodeFacts.SettingsFor(cfg, name, s)
    ensures s.partition == "" && s.serviceNamespace == ""
  {
    var env := Compile.EnvOf(cfg);
    NodeFacts.SettingsAsConfigured(cfg, env, name, s);
    NameFacts.SettingsAreUntenanted(cfg, env, name);
    hide Compile.SettingsOf, NodeFacts.SettingsFor;
  }

  /**
   * From configuration to catalog, without enterprise: after a complete sync of what was generated for a cluster, each
   * of its living dataplane service clients is stored at its configured address, odd ones as ping on port 8080 with a
   * sidecar that reaches pong through port 9090, even ones the other way round, unless the entry names another upstream.
   */
  lemma ConfiguredPodArrives(cfg: Config.Config, v: View, c: ClusterInfo, idx: nat, s: Config.NodeConfig, d: Definition,
                             r: Remote, ops: seq<Op>)
    requires Config.Acceptable(cfg) && !cfg.enterpriseEnabled && Compile.Compilable(cfg) && Compile.IsCompiled(cfg, v)
    requires NameFacts.DistinctNames(v.clusters) && c in v.clusters
    requires NodeFacts.Exists(cfg, NodeFacts.ClientAt(c, idx, s)) && !NodeFacts.IsGatewayIndex(c, idx)
    requires s.mode == "dataplane" || (s.mode != "agent" && cfg.nodeMode == "dataplane")
    requires AllDefinable(Sources(v.nm, c.name)) && Defines(Sources(v.nm, c.name), d)
    requires ValidRemote(r) && FullRun(d, false, SnapshotOf(r), ops)
    ensures ConfiguredPodStored(ApplyAll(r, ops), c, idx, s)
  {
    var place := NodeFacts.ClientAt(c, idx, s);
    var name := c.name + "-client" + Itoa(idx);
    EntryIsUntenanted(cfg, name, s);
    hide Config.Acceptable, Compile.Compilable, Compile.IsCompiled, Defines, Definable, Sources, ValidRemote, FullRun,
      ApplyAll, SnapshotOf, WellFiled, Placed, NodeFacts.Fills, NodeFacts.Exists, NodeFacts.SettingsFor, PodStored,
      ConfiguredPodStored, NameFacts.GoodInfos, Compile.ClusterNameOk, AgentFacts.LanAt, NameFacts.DistinctNames, Itoa,
      Node.LocalAddress, Syncable, NamedApart;
    NodeFacts.PlaceIsFilled(cfg, v, place);
    var n := v.nm[name];
    NameFacts.CompiledInfosAreGood(cfg, v);
    NameFacts.GoodNames(v.clusters);
    AgentFacts.AddressesOfPlace(cfg, place, n);
    AgentFacts.KindOfPlace(cfg, place, n);
    AgentFacts.CompiledIsWellFiled(cfg, v);
    SourcesAsCompiled(v.nm, c.name);
    ServiceClientIsPod(cfg, c, idx, s, n);
    assert IsPod(v.nm, c.name, n);
    CompiledSources(cfg, v, c.name);
    GeneratedIsSyncable(cfg, v, c.name, d);
    PodArrives(Sources(v.nm, c.name), d, false, r, ops, n);
    ClientPodStored(cfg, ApplyAll(r, ops), c, idx, s, n);
  }

  lemma ServiceClientIsPod(cfg: Config.Config, c: ClusterInfo, idx: nat, s: Config.NodeConfig, n: Node)
    requires NodeFacts.Fills(cfg, NodeFacts.ClientAt(c, idx, s), n) && !NodeFacts.IsGatewayIndex(c, idx)
    requires s.mode == "dataplane" || (s.mode != "agent" && cfg.nodeMode == "dataplane")
    ensures n.kind == Dataplane && n.service.Some?
  {
    hide Itoa, NodeFacts.SettingsFor, NodeFacts.AddressesAt;
  }

  /** And the health passes probe it at its configured address, under a check of the service's name. */
  lemma ConfiguredPodIsProbed(cfg: Config.Config, v: View, c: ClusterInfo, idx: nat, s: Config.NodeConfig, d: Definition)
    returns (svc: CatalogService)
    requires Config.Acceptable(cfg) && !cfg.enterpriseEnabled && Compile.Compilable(cfg) && Compile.IsCompiled(cfg, v)
    requires NameFacts.DistinctNames(v.clusters) && c in v.clusters
    requires NodeFacts.Exists(cfg, NodeFacts.ClientAt(c, idx, s)) && !NodeFacts.IsGatewayIndex(c, idx)
    requires s.mode == "dataplane" || (s.mode != "agent" && cfg.nodeMode == "dataplane")
    requires AllDefinable(Sources(v.nm, c.name)) && Defines(Sources(v.nm, c.name), d)
    ensures svc in d.services && svc.node == c.name + "-client" + Itoa(idx) + "-pod"
    ensures svc.tcpCheck == "10.0." + Itoa(c.index) + "." + Itoa(20 + idx) + ":8080"
    ensures svc.checkID == if idx % 2 == 1 then "default/default/ping" else "default/default/pong"
  {
    var place := NodeFacts.ClientAt(c, idx, s);
    var name := c.name + "-client" + Itoa(idx);
    EntryIsUntenanted(cfg, name, s);
    hide Config.Acceptable, Compile.Compilable, Compile.IsCompiled, Defines, Definable, Sources, AppEntry, WellFiled,
      NodeFacts.Fills, NodeFacts.Exists, NodeFacts.SettingsFor, NameFacts.GoodInfos, Compile.ClusterNameOk, AgentFacts.LanAt,
      NameFacts.DistinctNames, Itoa, Node.LocalAddress;
    NodeFacts.PlaceIsFilled(cfg, v, place);
    var n := v.nm[name];
    NameFacts.CompiledInfosAreGood(cfg, v);
    NameFacts.GoodNames(v.clusters);
    AgentFacts.AddressesOfPlace(cfg, place, n);
    AgentFacts.KindOfPlace(cfg, place, n);
    AgentFacts.CompiledIsWellFiled(cfg, v);
    SourcesAsCompiled(v.nm, c.name);
    ServiceClientIsPod(cfg, c, idx, s, n);
    assert IsPod(v.nm, c.name, n);
    var i, j, k := EntriesOf(Sources(v.nm, c.name), d, n);
    svc := d.services[j];
    ClientIsProbed(cfg, c, idx, s, n);
  }

  lemma ClientIsProbed(cfg: Config.Config, c: ClusterInfo, idx: nat, s: Config.NodeConfig, n: Node)
    requires NodeFacts.Fills(cfg, NodeFacts.ClientAt(c, idx, s), n) && !NodeFacts.IsGatewayIndex(c, idx)
    requires n.LocalAddress() == Some(AgentFacts.LanAt(c, 20 + idx)) && Definable(n)
    requires s.partition == "" && s.serviceNamespace == ""
    ensures AppEntry(n).node == c.name + "-client" + Itoa(idx) + "-pod"
    ensures AppEntry(n).tcpCheck == "10.0." + Itoa(c.index) + "." + Itoa(20 + idx) + ":8080"
    ensures AppEntry(n).checkID == if idx % 2 == 1 then "default/default/ping" else "default/default/pong"
  {
    ServiceOfClient(cfg, c, idx, s, n);
    PortIs8080();
    DefaultTexts();
    hide Itoa, NodeFacts.Fills, Node.LocalAddress, PortText, Identifier.Text;
    var ip := AgentFacts.LanAt(c, 20 + idx);
    assert ip + ":" + "8080" == ip + ":8080";
  }

  lemma ServiceOfClient(cfg: Config.Config, c: ClusterInfo, idx: nat, s: Config.NodeConfig, n: Node)
    requires NodeFacts.Fills(cfg, NodeFacts.ClientAt(c, idx, s), n) && !NodeFacts.IsGatewayIndex(c, idx)
    requires s.partition == "" && s.serviceNamespace == ""
    ensures n.name == c.name + "-client" + Itoa(idx) && n.service.Some? && n.service.value.port == 8080
    ensures n.service.value.id == Identifier(if idx % 2 == 1 then "ping" else "pong", "default", "default")
  {
    hide Itoa, NodeFacts.SettingsFor, NodeFacts.AddressesAt;
  }

  lemma DefaultTexts()
    ensures Identifier("ping", "default", "default").Text() == "default/default/ping"
    ensures Identifier("pong", "default", "default").Text() == "default/default/pong"
  {
  }

  lemma PortIs8080()
    ensures PortText(8080) == "8080"
  {
    assert Itoa(8) == "8";
    assert Itoa(80) == Itoa(8) + "0";
    assert Itoa(808) == Itoa(80) + "8";
    assert Itoa(8080) == Itoa(808) + "0";
    assert "8" + "0" + "8" + "0" == "8080";
  }
}
