/** What a compiled topology holds, in terms of the configuration alone. */
module NodeFacts {
  import opened Text
  import opened Sorting
  import opened Identifiers
  import opened Config
  import opened Infra
  import opened Compile
  import opened NameFacts

  // ---------------------------------------------------------------- clusters

  /** The cluster is that entry of the configuration, with its gateways counted as clients. */
  predicate IsClusterOf(cfg: Config, k: Cluster, c: ClusterInfo) {
    && c.name == k.name && c.servers == k.servers && c.clients == k.clients + k.meshGateways && c.meshGateways == k.meshGateways
    && (c.primary <==> cfg.linkMode == "peer" || k.name == "dc1")
    && |k.name| > 2 && k.name[..2] == "dc" && AllDigits(k.name[2..]) && c.index == Value(k.name[2..])
    && c.baseIP == "10.0." + Itoa(c.index) && c.wanBaseIP == "10.1." + Itoa(c.index)
  }

  /** The topology lists the configured clusters as they are configured. */
  lemma ClustersAsConfigured(cfg: Config, v: View)
    requires Compilable(cfg) && IsCompiled(cfg, v)
    ensures forall k :: k in cfg.clusters ==> exists c :: c in v.clusters && IsClusterOf(cfg, k, c)
    ensures forall c :: c in v.clusters ==> exists k :: k in cfg.clusters && IsClusterOf(cfg, k, c)
  {
    hide IsCompiled, Compilable, Less, IsClusterOf, InfosOf;
    CompiledMembers(cfg, v);
    var infos := InfosOf(cfg.linkMode == "peer", cfg.clusters);
    InfosAreClusters(cfg);
    forall c | c in v.clusters ensures exists k :: k in cfg.clusters && IsClusterOf(cfg, k, c) {
      var i :| 0 <= i < |infos| && infos[i] == c;
      assert cfg.clusters[i] in cfg.clusters;
    }
    forall k | k in cfg.clusters ensures exists c :: c in v.clusters && IsClusterOf(cfg, k, c) {
      var i :| 0 <= i < |cfg.clusters| && cfg.clusters[i] == k;
      assert infos[i] in infos;
    }
  }

  /** Each once, in the order of their names. */
  lemma ClustersInOrder(cfg: Config, v: View)
    requires Compilable(cfg) && IsCompiled(cfg, v)
    ensures |v.clusters| == |cfg.clusters|
    ensures forall i, j :: 0 <= i < j < |v.clusters| ==> !Less(v.clusters[j].name, v.clusters[i].name)
  {
    hide Less, InfoOf;
    SortedByName(InfosOf(cfg.linkMode == "peer", cfg.clusters), v.clusters);
  }

  lemma SortedByName(infos: seq<ClusterInfo>, sorted: seq<ClusterInfo>)
    requires IsSorting(ByName, infos, sorted)
    ensures |sorted| == |infos| && forall i, j :: 0 <= i < j < |sorted| ==> !Less(sorted[j].name, sorted[i].name)
  {
    hide Less;
    assert |multiset(sorted)| == |sorted| && |multiset(infos)| == |infos|;
    assert forall i, j :: 0 <= i < j < |sorted| ==> !ByName(sorted[j], sorted[i]);
  }

  lemma CompiledMembers(cfg: Config, v: View)
    requires Compilable(cfg) && IsCompiled(cfg, v)
    ensures ClustersOk(cfg) && forall c :: c in v.clusters <==> c in InfosOf(cfg.linkMode == "peer", cfg.clusters)
  {
    hide InfoOf;
    SortedInfosSameMembers(InfosOf(cfg.linkMode == "peer", cfg.clusters), v.clusters);
  }

  lemma InfosAreClusters(cfg: Config)
    requires ClustersOk(cfg)
    ensures var infos := InfosOf(cfg.linkMode == "peer", cfg.clusters);
            |infos| == |cfg.clusters| && forall i :: 0 <= i < |infos| ==> IsClusterOf(cfg, cfg.clusters[i], infos[i])
  {
    hide IsClusterOf, InfoOf;
    var infos := InfosOf(cfg.linkMode == "peer", cfg.clusters);
    forall i | 0 <= i < |infos| ensures IsClusterOf(cfg, cfg.clusters[i], infos[i]) {
      InfoIsClusterOf(cfg, cfg.clusters[i]);
    }
  }

  lemma InfoIsClusterOf(cfg: Config, k: Cluster)
    requires ClusterOk(k)
    ensures IsClusterOf(cfg, k, InfoOf(cfg.linkMode == "peer", k))
  {
  }

  // ---------------------------------------------------------------- nodes

  /** The settings of a node: the first entry of its name, or none at all. */
  predicate SettingsFor(cfg: Config, name: string, n: NodeConfig) {
    if exists i :: 0 <= i < |cfg.nodes| && cfg.nodes[i].nodeName == name then
      exists i :: 0 <= i < |cfg.nodes| && cfg.nodes[i] == n && n.nodeName == name &&
                  forall j :: 0 <= j < i ==> cfg.nodes[j].nodeName != name
    else
      n == NodeConfig("", "", "", "", "", "", "", "", "", "", map[], "", false, false, false, false)
  }

  lemma {:induction false} FirstEntry(nodes: seq<NodeConfig>, name: string)
    ensures match FindNode(nodes, name)
            case Some(n) => exists i :: 0 <= i < |nodes| && nodes[i] == n && n.nodeName == name &&
                                        forall j :: 0 <= j < i ==> nodes[j].nodeName != name
            case None => forall i :: 0 <= i < |nodes| ==> nodes[i].nodeName != name
  {
    if nodes != [] && nodes[0].nodeName != name {
      FirstEntry(nodes[1..], name);
      match FindNode(nodes[1..], name)
      case Some(n) =>
        var i :| 0 <= i < |nodes| - 1 && nodes[1..][i] == n && forall j :: 0 <= j < i ==> nodes[1..][j].nodeName != name;
        assert nodes[i + 1] == n;
        assert forall j :: 1 <= j < i + 1 ==> nodes[j] == nodes[1..][j - 1];
      case None =>
        assert forall i :: 1 <= i < |nodes| ==> nodes[i] == nodes[1..][i - 1];
    }
  }

  lemma SettingsAsConfigured(cfg: Config, env: Env, name: string, n: NodeConfig)
    requires env.nodes == cfg.nodes
    ensures SettingsFor(cfg, name, n) <==> n == SettingsOf(env, name)
  {
    FirstEntry(cfg.nodes, name);
    if SettingsFor(cfg, name, n) && exists i :: 0 <= i < |cfg.nodes| && cfg.nodes[i].nodeName == name {
      var i :| 0 <= i < |cfg.nodes| && cfg.nodes[i] == n && n.nodeName == name &&
               forall j :: 0 <= j < i ==> cfg.nodes[j].nodeName != name;
      var m := FindNode(cfg.nodes, name).value;
      var k :| 0 <= k < |cfg.nodes| && cfg.nodes[k] == m && m.nodeName == name &&
               forall j :: 0 <= j < k ==> cfg.nodes[j].nodeName != name;
      assert i == k;
    }
  }

  /** The addresses of a place: one on the cluster's network and, where asked for, one on the wan. */
  function AddressesAt(cfg: Config, c: ClusterInfo, octet: nat, wan: bool): seq<Address> {
    [Address(if cfg.networkShape == "islands" || cfg.networkShape == "dual" then c.name else "lan",
             "10.0." + Itoa(c.index) + "." + Itoa(octet))]
    + if wan then [Address("wan", "10.1." + Itoa(c.index) + "." + Itoa(octet))] else []
  }

  /** The idx-th server of a cluster. */
  predicate IsServerNode(cfg: Config, c: ClusterInfo, idx: nat, n: Node) {
    n == Node(Server, c.name, c.name + "-server" + Itoa(idx), "", "default",
              AddressesAt(cfg, c, 10 + idx, cfg.networkShape == "dual" || (cfg.networkShape == "islands" && c.name != "dc1")),
              None, false, false, idx - 1, false, false)
  }

  predicate IsInfraNode(cfg: Config, c: ClusterInfo, n: Node) {
    n == Node(Infra, c.name, c.name + "-infra1", "", "default", AddressesAt(cfg, c, 100, false),
              None, false, false, 99, false, false)
  }

  /** The last clients of a cluster are its gateways. */
  predicate IsGatewayIndex(c: ClusterInfo, idx: nat) { c.clients - c.meshGateways < idx }

  /** The idx-th client of a cluster, apart from its service. */
  predicate IsClientNode(cfg: Config, c: ClusterInfo, idx: nat, s: NodeConfig, n: Node) {
    var gw := IsGatewayIndex(c, idx);
    n == Node(if s.mode == "dataplane" || (s.mode != "agent" && cfg.nodeMode == "dataplane") then Dataplane else Client,
              c.name, c.name + "-client" + Itoa(idx), s.segment, if s.partition == "" then "default" else s.partition,
              AddressesAt(cfg, c, 20 + idx, gw && (cfg.networkShape == "dual" || cfg.networkShape == "islands")),
              n.service, gw, !gw && s.useBuiltinProxy, idx - 1,
              cfg.canaryVersions.consulImage != "" && cfg.canaryVersions.envoy != "" && n.name in cfg.canaryNodes,
              gw && s.useDNSWANAddress)
  }

  /**
   * The service of the idx-th client: odd ones run ping and call pong, even ones run pong and call ping, and the
   * node's entry may name another upstream.  Tenancies default to the node's, and those to "default".
   */
  predicate IsServiceAt(idx: nat, s: NodeConfig, svc: Service) {
    var part, ns := if s.partition == "" then "default" else s.partition,
                    if s.serviceNamespace == "" then "default" else s.serviceNamespace;
    && svc.id == Identifier(if idx % 2 == 1 then "ping" else "pong", ns, part)
    && svc.upstreamID == Identifier(if s.upstreamName != "" then s.upstreamName else if idx % 2 == 1 then "pong" else "ping",
                                    if s.upstreamNamespace == "" then ns else s.upstreamNamespace,
                                    if s.upstreamPartition == "" then part else s.upstreamPartition)
    && svc.port == 8080 && svc.upstreamLocalPort == 9090
    && svc.upstreamPeer == s.upstreamPeer && svc.upstreamDatacenter == s.upstreamDatacenter
    && svc.upstreamExtraHCL == s.upstreamExtraHCL && svc.meta == s.serviceMeta
  }

  /** Which place of the topology a node fills. */
  datatype Place = ServerAt(c: ClusterInfo, idx: nat) | InfraAt(c: ClusterInfo) | ClientAt(c: ClusterInfo, idx: nat, s: NodeConfig)

  /** The node fills the place as the configuration says. */
  predicate Fills(cfg: Config, p: Place, n: Node) {
    match p
    case ServerAt(c, idx) => 1 <= idx <= c.servers && IsServerNode(cfg, c, idx, n)
    case InfraAt(c) => IsInfraNode(cfg, c, n)
    case ClientAt(c, idx, s) =>
      && 1 <= idx <= c.clients && SettingsFor(cfg, c.name + "-client" + Itoa(idx), s) && !s.dead
      && IsClientNode(cfg, c, idx, s, n)
      && (n.service.None? <==> IsGatewayIndex(c, idx))
      && (n.service.Some? ==> IsServiceAt(idx, s, n.service.value))
  }

  lemma ServerSlotFills(cfg: Config, env: Env, c: ClusterInfo, idx: nat)
    requires ModesOk(cfg) && env == EnvOf(cfg) && GoodInfo(c) && 1 <= idx <= c.servers
    ensures Fills(cfg, ServerAt(c, idx), SlotNode(env, Slot(c, ServerRole, idx)))
  {
    hide Itoa;
    assert c.name + "-" + "server" + Itoa(idx) == c.name + "-server" + Itoa(idx);
  }

  lemma InfraSlotFills(cfg: Config, env: Env, c: ClusterInfo)
    requires ModesOk(cfg) && env == EnvOf(cfg) && GoodInfo(c)
    ensures Fills(cfg, InfraAt(c), SlotNode(env, Slot(c, InfraRole, 1)))
  {
    InfraNumerals(c);
    hide Itoa;
  }

  lemma ClientSlotFills(cfg: Config, env: Env, c: ClusterInfo, idx: nat)
    requires ModesOk(cfg) && env == EnvOf(cfg) && GoodInfo(c) && 1 <= idx <= c.clients && !Dead(env, c, idx)
    ensures var name := c.name + "-client" + Itoa(idx);
            Fills(cfg, ClientAt(c, idx, SettingsOf(env, name)), SlotNode(env, Slot(c, ClientRole, idx)))
  {
    var name := c.name + "-client" + Itoa(idx);
    assert NodeName(c.name, ClientRole, idx) == name by {
      hide Itoa;
    }
    SettingsAsConfigured(cfg, env, name, SettingsOf(env, name));
    hide SettingsFor, Itoa, NodeName, ServiceOf, IsServiceAt, SlotAddresses, IsClientNode, AddressesAt;
    assert !SettingsOf(env, name).dead;
    ClientNodeFits(cfg, env, c, idx);
    ServiceIsAt(SettingsOf(env, name), idx);
    hide SettingsOf, EnvOf, ModesOk, GoodInfo;
  }

  lemma ClientNodeFits(cfg: Config, env: Env, c: ClusterInfo, idx: nat)
    requires ModesOk(cfg) && env == EnvOf(cfg) && GoodInfo(c) && SlotName(Slot(c, ClientRole, idx)) == c.name + "-client" + Itoa(idx)
    ensures var name := c.name + "-client" + Itoa(idx);
            var n := SlotNode(env, Slot(c, ClientRole, idx));
            IsClientNode(cfg, c, idx, SettingsOf(env, name), n) &&
            n.service == if IsGatewayIndex(c, idx) then None else Some(ServiceOf(SettingsOf(env, name), idx))
  {
    ClientAddresses(cfg, env, c, idx);
    hide SettingsOf, Itoa, NodeName, ServiceOf, SlotAddresses, AddressesAt, GoodInfo;
  }

  lemma ClientAddresses(cfg: Config, env: Env, c: ClusterInfo, idx: nat)
    requires ModesOk(cfg) && env == EnvOf(cfg) && GoodInfo(c)
    ensures SlotAddresses(env, Slot(c, ClientRole, idx)) ==
            AddressesAt(cfg, c, 20 + idx, IsGatewayIndex(c, idx) && (cfg.networkShape == "dual" || cfg.networkShape == "islands"))
  {
    hide Itoa;
  }

  lemma ServiceIsAt(s: NodeConfig, idx: nat)
    ensures IsServiceAt(idx, s, ServiceOf(s, idx))
  {
  }

  /** Every node of a compiled topology fills a place of one of its clusters as configured. */
  lemma NodeAsConfigured(cfg: Config, v: View, name: string) returns (p: Place)
    requires Compilable(cfg) && IsCompiled(cfg, v) && name in v.nm
    ensures p.c in v.clusters && Fills(cfg, p, v.nm[name]) && v.nm[name].name == name
  {
    CompiledInfosAreGood(cfg, v);
    CompiledHolds(cfg, v);
    var env := EnvOf(cfg);
    hide IsCompiled, Slots, Holds, SlotNode, GoodInfo, Fills, SlotsOf, EnvOf, NodeName;
    var s := HoldsAt(env, Slots(env, v.clusters), v.nm, name);
    SlotNodeNamed(env, s);
    SlotsMembership(env, v.clusters, s);
    SlotRange(env, s);
    assert GoodInfo(s.cluster);
    match s.role {
      case ServerRole =>
        p := ServerAt(s.cluster, s.idx);
        ServerSlotFills(cfg, env, s.cluster, s.idx);
      case InfraRole =>
        p := InfraAt(s.cluster);
        InfraSlotFills(cfg, env, s.cluster);
      case ClientRole =>
        p := ClientAt(s.cluster, s.idx, SettingsOf(env, s.cluster.name + "-client" + Itoa(s.idx)));
        ClientSlotFills(cfg, env, s.cluster, s.idx);
    }
  }

  /** The place exists: its number is in range and, for a client, its settings do not declare it dead. */
  predicate Exists(cfg: Config, p: Place) {
    match p
    case ServerAt(c, idx) => 1 <= idx <= c.servers
    case InfraAt(c) => true
    case ClientAt(c, idx, s) => 1 <= idx <= c.clients && SettingsFor(cfg, c.name + "-client" + Itoa(idx), s) && !s.dead
  }

  function NameOf(p: Place): string {
    match p
    case ServerAt(c, idx) => c.name + "-server" + Itoa(idx)
    case InfraAt(c) => c.name + "-infra1"
    case ClientAt(c, idx, _) => c.name + "-client" + Itoa(idx)
  }

  lemma SlotOfPlace(cfg: Config, env: Env, p: Place) returns (s: Slot)
    requires ModesOk(cfg) && env == EnvOf(cfg) && GoodInfo(p.c) && Exists(cfg, p)
    ensures s.cluster == p.c && s in SlotsOf(env, p.c) && SlotName(s) == NameOf(p) && Fills(cfg, p, SlotNode(env, s))
  {
    hide Fills, SlotNode, GoodInfo, SettingsFor, SettingsOf, Itoa;
    match p
    case ServerAt(c, idx) =>
      s := Slot(c, ServerRole, idx);
      assert c.name + "-" + "server" + Itoa(idx) == NameOf(p);
      ServerSlotFills(cfg, env, c, idx);
    case InfraAt(c) =>
      s := Slot(c, InfraRole, 1);
      InfraNumerals(c);
      InfraSlotFills(cfg, env, c);
    case ClientAt(c, idx, settings) =>
      s := Slot(c, ClientRole, idx);
      assert c.name + "-" + "client" + Itoa(idx) == NameOf(p);
      SettingsAsConfigured(cfg, env, NameOf(p), settings);
      ClientSlotFills(cfg, env, c, idx);
  }

  /** With distinct cluster names, every place that exists is filled, under its own name. */
  lemma PlaceIsFilled(cfg: Config, v: View, p: Place)
    requires Compilable(cfg) && IsCompiled(cfg, v) && DistinctNames(v.clusters) && p.c in v.clusters && Exists(cfg, p)
    ensures NameOf(p) in v.nm && Fills(cfg, p, v.nm[NameOf(p)])
  {
    CompiledInfosAreGood(cfg, v);
    CompiledHolds(cfg, v);
    var env := EnvOf(cfg);
    assert GoodInfo(p.c);
    hide IsCompiled, Slots, Holds, SlotNode, GoodInfo, Fills, SlotsOf, EnvOf, SlotName, Exists, NameOf, DistinctNames;
    var s := SlotOfPlace(cfg, env, p);
    SlotsMembership(env, v.clusters, s);
    SlotIsFiled(env, v.clusters, v.nm, s);
  }

  /** A client that is declared dead is left out. */
  lemma DeadIsAbsent(cfg: Config, v: View, c: ClusterInfo, idx: nat, s: NodeConfig)
    requires Compilable(cfg) && IsCompiled(cfg, v) && c in v.clusters
    requires SettingsFor(cfg, c.name + "-client" + Itoa(idx), s) && s.dead
    ensures c.name + "-client" + Itoa(idx) !in v.nm
  {
    var name := c.name + "-client" + Itoa(idx);
    CompiledInfosAreGood(cfg, v);
    CompiledHolds(cfg, v);
    var env := EnvOf(cfg);
    SettingsAsConfigured(cfg, env, name, s);
    GoodNames(v.clusters);
    hide IsCompiled, Slots, Holds, SlotNode, GoodInfos, SlotsOf, EnvOf, SettingsFor, ClusterNameOk, SettingsOf, Compilable;
    if name in v.nm {
      var t := HoldsAt(env, Slots(env, v.clusters), v.nm, name);
      SlotsMembership(env, v.clusters, t);
      LivingNames(env, c.name, idx, t);
    }
  }

  lemma LivingNames(env: Env, cluster: string, idx: nat, t: Slot)
    requires ClusterNameOk(cluster) && ClusterNameOk(t.cluster.name) && t in SlotsOf(env, t.cluster)
    requires SlotName(t) == cluster + "-client" + Itoa(idx)
    ensures !SettingsOf(env, cluster + "-client" + Itoa(idx)).dead
  {
    hide SlotsOf, ClusterNameOk, SettingsOf, Itoa;
    assert NodeName(cluster, ClientRole, idx) == cluster + "-client" + Itoa(idx);
    hide NodeName;
    SlotRange(env, t);
    NodeNameInjective(t.cluster.name, t.role, t.idx, cluster, ClientRole, idx);
  }

  // ---------------------------------------------------------------- dead gateways that are retained

  /** The address is that of a dead gateway of the primary whose entry asks to retain it. */
  predicate IsRetained(cfg: Config, c: ClusterInfo, idx: nat, s: NodeConfig, addr: string) {
    && cfg.linkMode == "federate" && c.name == "dc1" && 1 <= idx <= c.clients && IsGatewayIndex(c, idx)
    && SettingsFor(cfg, "dc1-client" + Itoa(idx), s) && s.dead && s.retainInPrimaryGatewaysList
    && addr == "10.1." + Itoa(c.index) + "." + Itoa(20 + idx) + ":8443"
  }

  lemma RetainedAt(cfg: Config, env: Env, c: ClusterInfo, idx: nat, addr: string)
    requires ModesOk(cfg) && env == EnvOf(cfg) && GoodInfo(c) && 1 <= idx <= c.clients
    ensures addr in RetainedEntry(env, c, idx) <==> exists s :: IsRetained(cfg, c, idx, s, addr)
  {
    var name := NodeName(c.name, ClientRole, idx);
    var s := SettingsOf(env, name);
    hide Itoa, SettingsOf, SettingsFor;
    assert c.name == "dc1" ==> name == "dc1-client" + Itoa(idx);
    forall t ensures SettingsFor(cfg, name, t) <==> t == s {
      SettingsAsConfigured(cfg, env, name, t);
    }
    if addr in RetainedEntry(env, c, idx) {
      assert IsRetained(cfg, c, idx, s, addr);
    }
  }

  lemma {:induction false} RetainedUpTo(env: Env, c: ClusterInfo, upTo: nat, addr: string)
    ensures addr in RetainedOf(env, c, upTo) <==> exists idx: nat :: 1 <= idx <= upTo && addr in RetainedEntry(env, c, idx)
  {
    hide RetainedEntry;
    if upTo > 0 {
      RetainedUpTo(env, c, upTo - 1, addr);
    }
  }

  lemma {:induction false} RetainedIn(env: Env, cs: seq<ClusterInfo>, addr: string)
    ensures addr in RetainedAll(env, cs) <==> exists c :: c in cs && addr in RetainedOf(env, c, c.clients)
  {
    hide RetainedOf;
    if cs != [] {
      var rest, last := cs[..|cs| - 1], cs[|cs| - 1];
      assert cs == rest + [last];
      RetainedIn(env, rest, addr);
      assert forall c :: c in cs <==> c in rest || c == last;
    }
  }

  /** The retained addresses are exactly those of the dead gateways of the primary that ask for it, when federated. */
  lemma RetainedAsConfigured(cfg: Config, v: View, addr: string)
    requires Compilable(cfg) && IsCompiled(cfg, v)
    ensures addr in v.retained <==> exists c, idx: nat, s :: c in v.clusters && IsRetained(cfg, c, idx, s, addr)
  {
    CompiledInfosAreGood(cfg, v);
    var env := EnvOf(cfg);
    RetainedIn(env, v.clusters, addr);
    hide IsCompiled, RetainedOf, RetainedEntry, GoodInfo, EnvOf;
    forall c | c in v.clusters
      ensures addr in RetainedOf(env, c, c.clients) <==> exists idx: nat, s :: IsRetained(cfg, c, idx, s, addr)
    {
      assert GoodInfo(c);
      ClusterRetains(cfg, env, c, addr);
    }
  }

  lemma ClusterRetains(cfg: Config, env: Env, c: ClusterInfo, addr: string)
    requires ModesOk(cfg) && env == EnvOf(cfg) && GoodInfo(c)
    ensures addr in RetainedOf(env, c, c.clients) <==> exists idx: nat, s :: IsRetained(cfg, c, idx, s, addr)
  {
    assert c.clients > 0;
    RetainedUpTo(env, c, c.clients, addr);
    forall idx: nat, s ensures IsRetained(cfg, c, idx, s, addr) ==> 1 <= idx <= c.clients {
    }
    hide EnvOf, RetainedOf, RetainedEntry, GoodInfo, ModesOk, IsRetained;
    if addr in RetainedOf(env, c, c.clients) {
      var idx: nat :| 1 <= idx <= c.clients && addr in RetainedEntry(env, c, idx);
      RetainedAt(cfg, env, c, idx, addr);
    }
    if idx: nat, s :| IsRetained(cfg, c, idx, s, addr) {
      RetainedAt(cfg, env, c, idx, addr);
    }
  }
}
