/** The generated catalog definition meets what the sync and the health passes assume of it. */
module CatalogFacts {
  import opened Text
  import opened Sorting
  import opened Identifiers
  import Config
  import opened Infra
  import Compile
  import NameFacts
  import opened CatalogDefs
  import opened CatalogStore
  import opened GenCatalog
  import opened InitialSync
  import opened SyncFacts
  import SyncConvergence
  import HealthSync

  // ---------------------------------------------------------------- keys

  /** The service is in the partition of its node, and tenancies are never empty. */
  predicate Placed(n: Node) {
    n.service.Some? ==>
      var id := n.service.value.id;
      n.partition != "" && id.partition == n.partition && id.ns != ""
  }

  predicate AllPlaced(S: set<Node>) { forall n :: n in S ==> Placed(n) }

  /** The keys of the generator's maps are the ids that the sync recomputes from the entries. */
  lemma KeysAreRecomputed(n: Node)
    requires Definable(n) && Placed(n)
    ensures NodeEntry(n).ID() == NodeIDOf(n)
    ensures AppEntry(n).NodeID() == NodeIDOf(n) && AppEntry(n).ID() == AppIDOf(n)
    ensures ProxyEntry(n).NodeID() == NodeIDOf(n) && ProxyEntry(n).ID() == ProxyIDOf(n)
  {
  }

  lemma EntryAt<T>(s: seq<T>, S: set<T>, i: nat)
    requires Elements(s) == S && i < |s|
    ensures s[i] in S
  {
  }

  lemma PlaceOf<T>(s: seq<T>, S: set<T>, x: T) returns (i: nat)
    requires Elements(s) == S && x in S
    ensures i < |s| && s[i] == x
  {
    i :| 0 <= i < |s| && s[i] == x;
  }

  lemma NodeSource(S: set<Node>, d: Definition, i: nat) returns (n: Node)
    requires AllDefinable(S) && Defines(S, d) && i < |d.nodes|
    ensures n in S && d.nodes[i] == NodeEntry(n)
  {
    hide NodeEntry, Definable, InOrder;
    EntryAt(d.nodes, NodeEntries(S), i);
    n :| n in S && NodeEntry(n) == d.nodes[i];
  }

  lemma AppSource(S: set<Node>, d: Definition, i: nat) returns (n: Node)
    requires AllDefinable(S) && Defines(S, d) && i < |d.services|
    ensures n in S && d.services[i] == AppEntry(n)
  {
    hide AppEntry, Definable, InOrder;
    EntryAt(d.services, AppEntries(S), i);
    n :| n in S && AppEntry(n) == d.services[i];
  }

  lemma ProxySource(S: set<Node>, d: Definition, i: nat) returns (n: Node)
    requires AllDefinable(S) && Defines(S, d) && i < |d.proxies|
    ensures n in S && d.proxies[i] == ProxyEntry(n)
  {
    hide ProxyEntry, Definable, InOrder;
    EntryAt(d.proxies, ProxyEntries(S), i);
    n :| n in S && ProxyEntry(n) == d.proxies[i];
  }

  lemma EntriesOf(S: set<Node>, d: Definition, n: Node) returns (i: nat, j: nat, k: nat)
    requires AllDefinable(S) && Defines(S, d) && n in S
    ensures i < |d.nodes| && d.nodes[i] == NodeEntry(n)
    ensures j < |d.services| && d.services[j] == AppEntry(n)
    ensures k < |d.proxies| && d.proxies[k] == ProxyEntry(n)
  {
    hide NodeEntry, AppEntry, ProxyEntry, Definable, InOrder;
    i := PlaceOf(d.nodes, NodeEntries(S), NodeEntry(n));
    j := PlaceOf(d.services, AppEntries(S), AppEntry(n));
    k := PlaceOf(d.proxies, ProxyEntries(S), ProxyEntry(n));
  }

  // ---------------------------------------------------------------- shape of the definition

  /** Every service and proxy refers to a listed node, and every node carries the virtual mark. */
  lemma GeneratedIsWellFormed(S: set<Node>, d: Definition)
    requires AllDefinable(S) && AllPlaced(S) && Defines(S, d)
    ensures WellFormed(d) && Marked(d)
  {
    hide NodeEntry, AppEntry, ProxyEntry, NodeIDOf, AppIDOf, ProxyIDOf, Defines, Definable, Placed,
      CatalogService.NodeID, CatalogProxy.NodeID, CatalogService.ID, CatalogProxy.ID, CatalogNode.ID;
    forall i | 0 <= i < |d.services| ensures d.services[i].NodeID() in NodeIDs(d) {
      var n := AppSource(S, d, i);
      SourceIsListed(S, d, n);
    }
    forall i | 0 <= i < |d.proxies| ensures d.proxies[i].NodeID() in NodeIDs(d) {
      var n := ProxySource(S, d, i);
      SourceIsListed(S, d, n);
    }
    forall i | 0 <= i < |d.nodes| ensures VIRTUAL in d.nodes[i].nodeMeta {
      var n := NodeSource(S, d, i);
      EntryIsMarked(n);
    }
  }

  lemma EntryIsMarked(n: Node)
    requires Definable(n)
    ensures VIRTUAL in NodeEntry(n).nodeMeta
  {
  }

  lemma SourceIsListed(S: set<Node>, d: Definition, n: Node)
    requires AllDefinable(S) && AllPlaced(S) && Defines(S, d) && n in S
    ensures NodeIDOf(n) in NodeIDs(d)
    ensures AppEntry(n).NodeID() == NodeIDOf(n) && ProxyEntry(n).NodeID() == NodeIDOf(n)
  {
    KeysAreRecomputed(n);
    hide NodeEntry, AppEntry, ProxyEntry, NodeIDOf, Defines, Definable, Placed, CatalogNode.ID;
    var i, j, k := EntriesOf(S, d, n);
    assert d.nodes[i].ID() in NodeIDs(d);
  }

  lemma {:induction false} ImageSize<T(!new)>(S: set<Node>, E: map<Node, T>)
    requires S <= E.Keys && forall a, b :: a in S && b in S && E[a] == E[b] ==> a == b
    ensures |set n | n in S :: E[n]| == |S|
  {
    if S == {} {
      assert (set n | n in S :: E[n]) == {};
    } else {
      var n :| n in S;
      ImageSize(S - {n}, E);
      assert (set m | m in S :: E[m]) == (set m | m in S - {n} :: E[m]) + {E[n]};
    }
  }

  /** Each source contributes exactly one node, one service and one proxy. */
  lemma OneOfEachPerSource(S: set<Node>, d: Definition)
    requires AllDefinable(S) && NamedApart(S) && Defines(S, d)
    ensures |d.nodes| == |d.services| == |d.proxies| == |S|
  {
    EntriesApart(S);
    hide NodeEntry, AppEntry, ProxyEntry, Definable, InOrder, NodeIDOf, NamedApart, NoDuplicates;
    NodeCount(S, d);
    ServiceCount(S, d);
    ProxyCount(S, d);
  }

  lemma NodeCount(S: set<Node>, d: Definition)
    requires AllDefinable(S) && Defines(S, d) && forall a, b :: a in S && b in S && NodeEntry(a) == NodeEntry(b) ==> a == b
    ensures |d.nodes| == |S|
  {
    hide NodeEntry, Definable, InOrder;
    var E := map n | n in S :: NodeEntry(n);
    assert NodeEntries(S) == set n | n in S :: E[n];
    ImageSize(S, E);
    EnumerationSize(d.nodes, NodeEntries(S));
  }

  lemma ServiceCount(S: set<Node>, d: Definition)
    requires AllDefinable(S) && Defines(S, d) && forall a, b :: a in S && b in S && AppEntry(a) == AppEntry(b) ==> a == b
    ensures |d.services| == |S|
  {
    hide AppEntry, Definable, InOrder;
    var E := map n | n in S :: AppEntry(n);
    assert AppEntries(S) == set n | n in S :: E[n];
    ImageSize(S, E);
    EnumerationSize(d.services, AppEntries(S));
  }

  lemma ProxyCount(S: set<Node>, d: Definition)
    requires AllDefinable(S) && Defines(S, d) && forall a, b :: a in S && b in S && ProxyEntry(a) == ProxyEntry(b) ==> a == b
    ensures |d.proxies| == |S|
  {
    hide ProxyEntry, Definable, InOrder;
    var E := map n | n in S :: ProxyEntry(n);
    assert ProxyEntries(S) == set n | n in S :: E[n];
    ImageSize(S, E);
    EnumerationSize(d.proxies, ProxyEntries(S));
  }

  /** Each proxy stands on the same node and address as the one service it fronts, and passes traffic to its port. */
  lemma ProxiesFrontTheirService(S: set<Node>, d: Definition, k: nat) returns (j: nat)
    requires AllDefinable(S) && NamedApart(S) && Defines(S, d) && k < |d.proxies|
    ensures j < |d.services| && d.services[j].NodeID() == d.proxies[k].NodeID()
    ensures d.services[j].address == d.proxies[k].base.address
    ensures d.services[j].service == d.proxies[k].destinationServiceName
    ensures d.services[j].service + SIDECAR == d.proxies[k].base.service && d.services[j].ns == d.proxies[k].base.ns
    ensures d.services[j].port == d.proxies[k].localServicePort
    ensures forall i :: 0 <= i < |d.services| && d.services[i].node == d.proxies[k].base.node ==> i == j
  {
    var n := ProxySource(S, d, k);
    var x, y, z := EntriesOf(S, d, n);
    j := y;
    EntriesTellNodesApart(S);
    hide Defines, Definable, NamedApart, Identifier.Text, PortText, Node.PodName;
    forall i | 0 <= i < |d.services| && d.services[i].node == d.proxies[k].base.node ensures i == j {
      var m := AppSource(S, d, i);
      assert m == n;
      ServiceOnce(S, d, i, j);
    }
  }

  lemma ServiceOnce(S: set<Node>, d: Definition, i: nat, j: nat)
    requires AllDefinable(S) && Defines(S, d) && i < |d.services| && j < |d.services| && d.services[i] == d.services[j]
    ensures i == j
  {
    hide InOrder, AppEntries, NodeEntries, ProxyEntries;
  }

  // ---------------------------------------------------------------- what the sync will establish

  /** One virtual node per source, running its service and its sidecar and nothing else. */
  ghost predicate AsPlanned(S: set<Node>, m: Snapshot)
    requires AllDefinable(S)
  {
    && m.Keys == (set n | n in S :: NodeIDOf(n))
    && forall n :: n in S ==> m[NodeIDOf(n)] == {AppIDOf(n), ProxyIDOf(n)}
  }

  lemma GeneratedExpectation(S: set<Node>, d: Definition)
    requires AllDefinable(S) && AllPlaced(S) && NamedApart(S) && Defines(S, d)
    ensures AsPlanned(S, Expected(d))
  {
    EntriesApart(S);
    hide NodeEntry, AppEntry, ProxyEntry, NodeIDOf, AppIDOf, ProxyIDOf, Defines, Definable, Placed, NamedApart, ServiceIDsOn,
      CatalogService.NodeID, CatalogProxy.NodeID, CatalogService.ID, CatalogProxy.ID, CatalogNode.ID, NodeIDs;
    forall n | n in S ensures NodeIDOf(n) in NodeIDs(d) && ServiceIDsOn(d, NodeIDOf(n)) == {AppIDOf(n), ProxyIDOf(n)} {
      SourceIsListed(S, d, n);
      ServicesOfSource(S, d, n);
    }
    forall nid | nid in NodeIDs(d) ensures nid in set n | n in S :: NodeIDOf(n) {
      var n := ListedSource(S, d, nid);
    }
  }

  lemma ListedSource(S: set<Node>, d: Definition, nid: Identifier2) returns (n: Node)
    requires AllDefinable(S) && AllPlaced(S) && Defines(S, d) && nid in NodeIDs(d)
    ensures n in S && NodeIDOf(n) == nid
  {
    hide NodeEntry, NodeIDOf, Defines, Definable, Placed, CatalogNode.ID;
    var i :| 0 <= i < |d.nodes| && d.nodes[i].ID() == nid;
    n := NodeSource(S, d, i);
    KeysAreRecomputed(n);
  }

  lemma ServicesOfSource(S: set<Node>, d: Definition, n: Node)
    requires AllDefinable(S) && AllPlaced(S) && Defines(S, d) && n in S
    requires forall a, b :: a in S && b in S && NodeIDOf(a) == NodeIDOf(b) ==> a == b
    ensures ServiceIDsOn(d, NodeIDOf(n)) == {AppIDOf(n), ProxyIDOf(n)}
  {
    var nid := NodeIDOf(n);
    AppsOfSource(S, d, n);
    ProxiesOfSource(S, d, n);
    hide NodeIDOf, AppIDOf, ProxyIDOf, Defines, Definable, Placed,
      CatalogService.NodeID, CatalogProxy.NodeID, CatalogService.ID, CatalogProxy.ID;
  }

  lemma AppsOfSource(S: set<Node>, d: Definition, n: Node)
    requires AllDefinable(S) && AllPlaced(S) && Defines(S, d) && n in S
    requires forall a, b :: a in S && b in S && NodeIDOf(a) == NodeIDOf(b) ==> a == b
    ensures (set i | 0 <= i < |d.services| && d.services[i].NodeID() == NodeIDOf(n) :: d.services[i].ID()) == {AppIDOf(n)}
  {
    assert forall m :: m in S ==> Definable(m) && m.service.Some?;
    hide AppEntry, NodeEntry, ProxyEntry, NodeIDOf, AppIDOf, ProxyIDOf, Defines, Definable, Placed,
      CatalogService.NodeID, CatalogService.ID;
    forall i | 0 <= i < |d.services| && d.services[i].NodeID() == NodeIDOf(n) ensures d.services[i].ID() == AppIDOf(n) {
      var m := AppSource(S, d, i);
      KeysAreRecomputed(m);
    }
    var i, j, k := EntriesOf(S, d, n);
    KeysAreRecomputed(n);
    assert d.services[j].NodeID() == NodeIDOf(n) && d.services[j].ID() == AppIDOf(n);
  }

  lemma ProxiesOfSource(S: set<Node>, d: Definition, n: Node)
    requires AllDefinable(S) && AllPlaced(S) && Defines(S, d) && n in S
    requires forall a, b :: a in S && b in S && NodeIDOf(a) == NodeIDOf(b) ==> a == b
    ensures (set i | 0 <= i < |d.proxies| && d.proxies[i].NodeID() == NodeIDOf(n) :: d.proxies[i].ID()) == {ProxyIDOf(n)}
  {
    assert forall m :: m in S ==> Definable(m) && m.service.Some?;
    hide AppEntry, NodeEntry, ProxyEntry, NodeIDOf, AppIDOf, ProxyIDOf, Defines, Definable, Placed,
      CatalogProxy.NodeID, CatalogProxy.ID;
    forall i | 0 <= i < |d.proxies| && d.proxies[i].NodeID() == NodeIDOf(n) ensures d.proxies[i].ID() == ProxyIDOf(n) {
      var m := ProxySource(S, d, i);
      KeysAreRecomputed(m);
    }
    var i, j, k := EntriesOf(S, d, n);
    KeysAreRecomputed(n);
    assert d.proxies[k].NodeID() == NodeIDOf(n) && d.proxies[k].ID() == ProxyIDOf(n);
  }

  // ---------------------------------------------------------------- compiled topologies

  lemma SlotIsPlaced(env: Compile.Env, s: Compile.Slot)
    ensures Placed(Compile.SlotNode(env, s))
    ensures Compile.SlotNode(env, s).LocalAddress() == Some(Compile.LanAddress(env, s.cluster, s.role, s.idx).ip)
  {
    NameFacts.LocalAddressOfSlot(env, s);
    hide Compile.SlotAddresses, Compile.SlotName, Compile.SettingsOf, FirstOn;
  }

  /** In a compiled topology generation panics exactly on extra upstream HCL. */
  lemma CompiledSources(cfg: Config.Config, v: View, cluster: string)
    requires Compile.Compilable(cfg) && Compile.IsCompiled(cfg, v)
    ensures NamedApart(Sources(v.nm, cluster)) && AllPlaced(Sources(v.nm, cluster))
    ensures AllDefinable(Sources(v.nm, cluster)) <==>
            forall n :: n in Sources(v.nm, cluster) ==> n.service.value.upstreamExtraHCL == ""
  {
    var env := Compile.EnvOf(cfg);
    var S := Compile.Slots(env, v.clusters);
    Compile.HoldsIsWellFiled(env, S, v.nm);
    SourcesNamedApart(v.nm, cluster);
    forall n | n in Sources(v.nm, cluster) ensures Placed(n) && n.LocalAddress().Some? && n.service.Some? {
      hide Compile.Slots, Compile.Holds, Compile.SlotNode, Placed, FirstOn;
      var name :| name in v.nm && Contributes(v.nm[name], cluster) && v.nm[name] == n;
      var s := Compile.HoldsAt(env, S, v.nm, name);
      SlotIsPlaced(env, s);
    }
    hide Sources, Placed, NamedApart, FirstOn;
  }

  /** Without enterprise every generated entry is in the default tenancy. */
  lemma CompiledTenancy(cfg: Config.Config, v: View, cluster: string, d: Definition)
    requires Config.Acceptable(cfg) && Compile.Compilable(cfg) && Compile.IsCompiled(cfg, v)
    requires AllDefinable(Sources(v.nm, cluster)) && Defines(Sources(v.nm, cluster), d)
    ensures TenancyOk(d, cfg.enterpriseEnabled)
  {
    if !cfg.enterpriseEnabled {
      var S := Sources(v.nm, cluster);
      forall n | n in S ensures Untenanted(n) {
        SourceUntenanted(cfg, v, cluster, n);
      }
      hide Defines, Sources, NodeEntry, AppEntry, ProxyEntry, Untenanted, Definable, Compile.IsCompiled, Compile.Compilable,
        Config.Acceptable;
      forall i | 0 <= i < |d.nodes| ensures DefaultPartition(d.nodes[i].partition) {
        var n := NodeSource(S, d, i);
        EntriesUntenanted(n);
      }
      forall i | 0 <= i < |d.services| ensures DefaultPartition(d.services[i].partition) && DefaultPartition(d.services[i].ns) {
        var n := AppSource(S, d, i);
        EntriesUntenanted(n);
      }
      forall i | 0 <= i < |d.proxies|
        ensures DefaultPartition(d.proxies[i].base.partition) && DefaultPartition(d.proxies[i].base.ns)
      {
        var n := ProxySource(S, d, i);
        EntriesUntenanted(n);
      }
    }
  }

  predicate Untenanted(n: Node) {
    n.partition == DEFAULT && (n.service.Some? ==> n.service.value.id.InDefaultTenancy())
  }

  lemma EntriesUntenanted(n: Node)
    requires Definable(n) && Untenanted(n)
    ensures DefaultPartition(NodeEntry(n).partition)
    ensures DefaultPartition(AppEntry(n).partition) && DefaultPartition(AppEntry(n).ns)
    ensures DefaultPartition(ProxyEntry(n).base.partition) && DefaultPartition(ProxyEntry(n).base.ns)
  {
  }

  lemma SourceUntenanted(cfg: Config.Config, v: View, cluster: string, n: Node)
    requires Config.Acceptable(cfg) && Compile.Compilable(cfg) && Compile.IsCompiled(cfg, v) && !cfg.enterpriseEnabled
    requires n in Sources(v.nm, cluster)
    ensures Untenanted(n)
  {
    var env := Compile.EnvOf(cfg);
    var S := Compile.Slots(env, v.clusters);
    var name :| name in v.nm && Contributes(v.nm[name], cluster) && v.nm[name] == n;
    hide Compile.Slots, Compile.Holds, Config.Acceptable;
    var s := Compile.HoldsAt(env, S, v.nm, name);
    SlotUntenanted(cfg, env, s);
  }

  lemma SlotUntenanted(cfg: Config.Config, env: Compile.Env, s: Compile.Slot)
    requires Config.Acceptable(cfg) && !cfg.enterpriseEnabled && env.nodes == cfg.nodes
    ensures Untenanted(Compile.SlotNode(env, s))
  {
    NameFacts.SettingsAreUntenanted(cfg, env, Compile.SlotName(s));
    hide Compile.SlotAddresses, Compile.SlotName, Compile.SettingsOf, Config.Acceptable;
  }

  // ---------------------------------------------------------------- from configuration to catalog

  /** What generation writes for a validated configuration can be synced. */
  lemma GeneratedIsSyncable(cfg: Config.Config, v: View, cluster: string, d: Definition)
    requires Config.Acceptable(cfg) && Compile.Compilable(cfg) && Compile.IsCompiled(cfg, v)
    requires AllDefinable(Sources(v.nm, cluster)) && Defines(Sources(v.nm, cluster), d)
    ensures Syncable(d, cfg.enterpriseEnabled)
  {
    CompiledSources(cfg, v, cluster);
    CompiledTenancy(cfg, v, cluster, d);
    hide Config.Acceptable, Compile.Compilable, Compile.IsCompiled, Defines, AllDefinable, AllPlaced, Sources;
    GeneratedIsWellFormed(Sources(v.nm, cluster), d);
  }

  /**
   * A complete sync of a generated definition leaves one virtual node per dataplane pod with exactly its service
   * and its sidecar, when nothing but the sync has put other services on those nodes.
   */
  lemma GeneratedCatalogArrives(cfg: Config.Config, v: View, cluster: string, d: Definition, r: Remote, ops: seq<Op>)
    requires Config.Acceptable(cfg) && Compile.Compilable(cfg) && Compile.IsCompiled(cfg, v)
    requires AllDefinable(Sources(v.nm, cluster)) && Defines(Sources(v.nm, cluster), d)
    requires ValidRemote(r) && Clean(r, Expected(d)) && FullRun(d, cfg.enterpriseEnabled, SnapshotOf(r), ops)
    ensures AsPlanned(Sources(v.nm, cluster), Membership(ApplyAll(r, ops)))
  {
    GeneratedIsSyncable(cfg, v, cluster, d);
    CompiledSources(cfg, v, cluster);
    GeneratedExpectation(Sources(v.nm, cluster), d);
    hide Config.Acceptable, Compile.Compilable, Compile.IsCompiled, Defines, AllDefinable, AllPlaced, Sources, Syncable,
      ValidRemote, Clean, FullRun, AsPlanned;
    SyncConvergence.SyncConvergesExactly(d, cfg.enterpriseEnabled, r, ops);
  }

  /** The health passes remember and report each generated service in a place of its own. */
  lemma GeneratedKeysApart(S: set<Node>, d: Definition, ent: bool)
    requires AllDefinable(S) && NamedApart(S) && Defines(S, d)
    ensures HealthSync.KeysApart(d.services, ent)
  {
    EntriesTellNodesApart(S);
    hide NamedApart, Defines, Definable, AppEntry, HealthSync.KeyOf, HealthSync.Place, HealthSync.Checked;
    forall i, j | 0 <= i < j < |d.services|
      ensures HealthSync.KeyOf(d.services[i]) != HealthSync.KeyOf(d.services[j])
      ensures HealthSync.Place(d.services[i], ent) != HealthSync.Place(d.services[j], ent)
    {
      var a := AppSource(S, d, i);
      var b := AppSource(S, d, j);
      ServicesApart(S, d, i, j);
      assert a != b;
      AppsApart(a, b, ent);
    }
  }

  lemma ServicesApart(S: set<Node>, d: Definition, i: nat, j: nat)
    requires AllDefinable(S) && Defines(S, d) && i < j < |d.services|
    ensures d.services[i] != d.services[j]
  {
    hide InOrder, AppEntries, NodeEntries, ProxyEntries;
  }

  lemma AppsApart(a: Node, b: Node, ent: bool)
    requires Definable(a) && Definable(b) && a.PodName() != b.PodName()
    ensures HealthSync.KeyOf(AppEntry(a)) != HealthSync.KeyOf(AppEntry(b))
    ensures HealthSync.Place(AppEntry(a), ent) != HealthSync.Place(AppEntry(b), ent)
  {
    hide Node.PodName, PortText, Identifier.Text;
  }
}
