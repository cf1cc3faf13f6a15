/** infra/infra.go: from a configuration to a topology. */
module Compile {
  import opened Text
  import opened Sorting
  import opened Identifiers
  import opened Config
  import opened Infra

  datatype CompileError =
    | UnknownNetworkShape
    | UnknownNodeMode
    | UnknownModeOfNode(node: NodeConfig)
    | UnknownLinkMode
    | PeeringNeedsFlat
    | IslandsNeedTLS
    | PrometheusNeedsFlat
    | PrimaryMissing
    | NegativeGateways(cluster: string)
    | NoServers(cluster: string)
    | NoClients(cluster: string)
    | TooManyClients(cluster: string)
    | BadClusterName(cluster: string)
    | AgentlessServer(name: string)
    | GatewayOutsideDefaultPartition(name: string)
    | DNSAddressNeedsFlat(name: string)
    | DNSAddressNeedsGateway(name: string)
    | NoPublicAddress(name: string)       // a panic in the program
    | UnexpectedService(name: string)

  // ---------------------------------------------------------------- modes

  function ShapeOf(s: string): Option<NetworkShape> {
    if s == "islands" then Some(Islands)
    else if s == "dual" then Some(Dual)
    else if s == "flat" || s == "" then Some(Flat)
    else None
  }

  function NodeModeOf(s: string): Option<NodeMode> {
    if s == "agent" then Some(AgentMode) else if s == "dataplane" then Some(DataplaneMode) else None
  }

  function LinkModeOf(s: string): Option<ClusterLinkMode> {
    if s == "peer" then Some(Peer) else if s == "federate" then Some(Federate) else None
  }

  predicate NodeModeKnown(n: NodeConfig) { n.mode == "agent" || n.mode == "dataplane" || n.mode == "" }

  /** The switches agree with each other. */
  predicate ModesOk(cfg: Config) {
    && ShapeOf(cfg.networkShape).Some? && NodeModeOf(cfg.nodeMode).Some? && LinkModeOf(cfg.linkMode).Some?
    && (forall i :: 0 <= i < |cfg.nodes| ==> NodeModeKnown(cfg.nodes[i]))
    && (ShapeOf(cfg.networkShape).value != Flat ==> cfg.linkMode != "peer" && !cfg.prometheusEnabled)
    && (ShapeOf(cfg.networkShape).value == Islands ==> cfg.encryptionTLS)
  }

  /** The switches and per-node settings that shape every node. */
  datatype Env = Env(
    shape: NetworkShape,
    mode: NodeMode,
    federate: bool,
    canaryConfigured: bool,
    canaryNodes: seq<string>,
    nodes: seq<NodeConfig>)

  function EnvOf(cfg: Config): Env
    requires ModesOk(cfg)
  {
    Env(ShapeOf(cfg.networkShape).value, NodeModeOf(cfg.nodeMode).value, cfg.linkMode == "federate",
        cfg.CanaryConfigured(), cfg.canaryNodes, cfg.nodes)
  }

  // ---------------------------------------------------------------- clusters

  /** ^dc([0-9]+)$ with an index that fits an int. */
  predicate ClusterNameOk(name: string) {
    |name| >= 2 && name[..2] == "dc" && AllDigits(name[2..]) && Atoi(name[2..]).Some?
  }

  function ClusterIndex(name: string): nat
    requires ClusterNameOk(name)
  {
    Atoi(name[2..]).value
  }

  /** The gateways are just fancy clients. */
  function Bumped(c: Cluster): Cluster { c.(clients := c.clients + c.meshGateways) }

  predicate ClusterOk(c: Cluster) {
    c.meshGateways >= 0 && c.servers > 0 && 0 < c.clients + c.meshGateways <= 50 && ClusterNameOk(c.name)
  }

  function InfoOf(peer: bool, c: Cluster): ClusterInfo
    requires ClusterOk(c)
  {
    var i := ClusterIndex(c.name);
    ClusterInfo(c.name, peer || c.name == PRIMARY_CLUSTER, i, c.servers, c.clients + c.meshGateways, c.meshGateways,
                "10.0." + Itoa(i), "10.1." + Itoa(i))
  }

  function InfosOf(peer: bool, cs: seq<Cluster>): (r: seq<ClusterInfo>)
    requires forall i :: 0 <= i < |cs| ==> ClusterOk(cs[i])
  {
    seq(|cs|, i requires 0 <= i < |cs| => InfoOf(peer, cs[i]))
  }

  predicate ByName(a: ClusterInfo, b: ClusterInfo) { Less(a.name, b.name) }

  lemma ByNameIsWeakOrder()
    ensures WeakOrder(ByName)
  {
    LessIsWeakOrder();
    forall x: ClusterInfo, y: ClusterInfo, z: ClusterInfo | ByName(x, z) ensures ByName(x, y) || ByName(y, z) {
      assert Less(x.name, z.name);
    }
  }

  // ---------------------------------------------------------------- nodes

  datatype Role = ServerRole | InfraRole | ClientRole

  /** One position of the topology: the idx-th server, infra pod or client of a cluster. */
  datatype Slot = Slot(cluster: ClusterInfo, role: Role, idx: nat)

  function RoleName(r: Role): string {
    match r
    case ServerRole => "server"
    case InfraRole => "infra"
    case ClientRole => "client"
  }

  function NodeName(cluster: string, r: Role, idx: nat): string { cluster + "-" + RoleName(r) + Itoa(idx) }

  function SlotName(s: Slot): string { NodeName(s.cluster.name, s.role, s.idx) }

  function Octet(r: Role, idx: nat): nat {
    match r
    case ServerRole => 10 + idx
    case InfraRole => 100
    case ClientRole => 20 + idx
  }

  function LanAddress(env: Env, c: ClusterInfo, r: Role, idx: nat): Address {
    Address(NetworkName(env.shape, c.name), c.baseIP + "." + Itoa(Octet(r, idx)))
  }

  function WanAddress(c: ClusterInfo, r: Role, idx: nat): Address {
    Address(WAN, c.wanBaseIP + "." + Itoa(Octet(r, idx)))
  }

  predicate IsGateway(c: ClusterInfo, idx: nat) { idx > c.clients - c.meshGateways }

  /** Which nodes stand on the wan. */
  predicate OnWan(env: Env, s: Slot) {
    match s.role
    case ServerRole => env.shape == Dual || (env.shape == Islands && s.cluster.name != PRIMARY_CLUSTER)
    case InfraRole => false
    case ClientRole => env.shape != Flat && IsGateway(s.cluster, s.idx)
  }

  function SlotAddresses(env: Env, s: Slot): seq<Address> {
    [LanAddress(env, s.cluster, s.role, s.idx)] +
    if OnWan(env, s) then [WanAddress(s.cluster, s.role, s.idx)] else []
  }

  function SettingsOf(env: Env, name: string): NodeConfig {
    match FindNode(env.nodes, name)
    case Some(n) => n
    case None => ZERO_NODE
  }

  predicate Dead(env: Env, c: ClusterInfo, idx: nat) { SettingsOf(env, NodeName(c.name, ClientRole, idx)).dead }

  function ServiceOf(n: NodeConfig, idx: nat): Service {
    var part := OrDefault(n.partition);
    var ns := OrDefault(n.serviceNamespace);
    var upPart := if n.upstreamPartition == "" then part else n.upstreamPartition;
    var upNs := if n.upstreamNamespace == "" then ns else n.upstreamNamespace;
    var here, there := if idx % 2 == 1 then SERVICE_PING else SERVICE_PONG, if idx % 2 == 1 then SERVICE_PONG else SERVICE_PING;
    Service(Identifier(here, ns, part), 8080,
            Identifier(if n.upstreamName != "" then n.upstreamName else there, upNs, upPart),
            n.upstreamPeer, n.upstreamDatacenter, 9090, n.upstreamExtraHCL, n.serviceMeta)
  }

  function ClientKind(env: Env, n: NodeConfig): NodeKind {
    if n.mode == "agent" then Client
    else if n.mode == "dataplane" || env.mode == DataplaneMode then Dataplane
    else Client
  }

  /** The node that fills a slot. */
  function SlotNode(env: Env, s: Slot): Node {
    var c, name := s.cluster, SlotName(s);
    match s.role
    case ServerRole =>
      Node(Server, c.name, name, "", DEFAULT, SlotAddresses(env, s), None, false, false, s.idx - 1, false, false)
    case InfraRole =>
      Node(Infra, c.name, name, "", DEFAULT, SlotAddresses(env, s), None, false, false, 99, false, false)
    case ClientRole =>
      var n := SettingsOf(env, name);
      var gw := IsGateway(c, s.idx);
      Node(ClientKind(env, n), c.name, name, n.segment, OrDefault(n.partition), SlotAddresses(env, s),
           if gw then None else Some(ServiceOf(n, s.idx)),
           gw, !gw && n.useBuiltinProxy, s.idx - 1,
           env.canaryConfigured && name in env.canaryNodes,
           gw && n.useDNSWANAddress)
  }

  /** A dead gateway of the primary whose address is kept in the gateway list. */
  predicate Retained(env: Env, c: ClusterInfo, idx: nat) {
    var n := SettingsOf(env, NodeName(c.name, ClientRole, idx));
    n.dead && env.federate && IsGateway(c, idx) && c.name == PRIMARY_CLUSTER && n.retainInPrimaryGatewaysList
  }

  function ServerError(env: Env, c: ClusterInfo, idx: nat): Option<CompileError> {
    var name := NodeName(c.name, ServerRole, idx);
    match FindNode(env.nodes, name)
    case Some(n) => if n.mode != "agent" then Some(AgentlessServer(name)) else None
    case None => None
  }

  function ClientError(env: Env, c: ClusterInfo, idx: nat): Option<CompileError> {
    var name := NodeName(c.name, ClientRole, idx);
    var n := SettingsOf(env, name);
    if IsGateway(c, idx) then
      if OrDefault(n.partition) != DEFAULT then Some(GatewayOutsideDefaultPartition(name))
      else if n.useDNSWANAddress && env.shape != Flat then Some(DNSAddressNeedsFlat(name))
      else if Retained(env, c, idx) && env.shape == Flat then Some(NoPublicAddress(name))
      else None
    else if n.useDNSWANAddress then Some(DNSAddressNeedsGateway(name))
    else None
  }

  predicate ServersCompile(env: Env, c: ClusterInfo) {
    forall i :: 1 <= i <= c.servers ==> ServerError(env, c, i).None?
  }

  predicate ClientsCompileTo(env: Env, c: ClusterInfo, upTo: int) {
    upTo <= 0 || (ClientsCompileTo(env, c, upTo - 1) && ClientError(env, c, upTo).None?)
  }

  predicate ClientsCompile(env: Env, c: ClusterInfo) { ClientsCompileTo(env, c, c.clients) }

  lemma {:induction false} ClientsCompileEach(env: Env, c: ClusterInfo, upTo: int)
    ensures ClientsCompileTo(env, c, upTo) <==> forall i :: 1 <= i <= upTo ==> ClientError(env, c, i).None?
  {
    hide ClientError;
    if upTo > 0 {
      ClientsCompileEach(env, c, upTo - 1);
    }
  }

  predicate NodesCompile(env: Env, c: ClusterInfo) { ServersCompile(env, c) && ClientsCompile(env, c) }

  function ServerSlots(c: ClusterInfo, upTo: int): set<Slot> { set i | 1 <= i <= upTo :: Slot(c, ServerRole, i) }

  function ClientSlots(env: Env, c: ClusterInfo, upTo: int): set<Slot> {
    set i | 1 <= i <= upTo && !Dead(env, c, i) :: Slot(c, ClientRole, i)
  }

  function SlotsOf(env: Env, c: ClusterInfo): set<Slot> {
    ServerSlots(c, c.servers) + {Slot(c, InfraRole, 1)} + ClientSlots(env, c, c.clients)
  }

  function Slots(env: Env, cs: seq<ClusterInfo>): set<Slot> {
    if cs == [] then {} else Slots(env, cs[..|cs| - 1]) + SlotsOf(env, cs[|cs| - 1])
  }

  function RetainedEntry(env: Env, c: ClusterInfo, idx: nat): seq<string> {
    if Retained(env, c, idx) then [WanAddress(c, ClientRole, idx).ip + ":8443"] else []
  }

  function RetainedOf(env: Env, c: ClusterInfo, upTo: int): seq<string> {
    if upTo <= 0 then [] else RetainedOf(env, c, upTo - 1) + RetainedEntry(env, c, upTo)
  }

  function RetainedAll(env: Env, cs: seq<ClusterInfo>): seq<string> {
    if cs == [] then [] else RetainedAll(env, cs[..|cs| - 1]) + RetainedOf(env, cs[|cs| - 1], cs[|cs| - 1].clients)
  }

  /** The map holds exactly the nodes of these slots, under their names. */
  ghost predicate Holds(env: Env, S: set<Slot>, nm: NodeMap) {
    && nm.Keys == (set s | s in S :: SlotName(s))
    && forall name :: name in nm ==> exists s :: s in S && SlotName(s) == name && nm[name] == SlotNode(env, s)
  }

  /** A node map once the node of that slot was added: a later node takes the place of an earlier one of its name. */
  function WithSlot(env: Env, nm: NodeMap, s: Slot): NodeMap { nm[SlotName(s) := SlotNode(env, s)] }

  function WithServers(env: Env, nm: NodeMap, c: ClusterInfo, upTo: int): NodeMap {
    if upTo <= 0 then nm else WithSlot(env, WithServers(env, nm, c, upTo - 1), Slot(c, ServerRole, upTo))
  }

  function WithClient(env: Env, nm: NodeMap, c: ClusterInfo, idx: nat): NodeMap {
    if Dead(env, c, idx) then nm else WithSlot(env, nm, Slot(c, ClientRole, idx))
  }

  function WithClients(env: Env, nm: NodeMap, c: ClusterInfo, upTo: int): NodeMap {
    if upTo <= 0 then nm else WithClient(env, WithClients(env, nm, c, upTo - 1), c, upTo)
  }

  function WithCluster(env: Env, nm: NodeMap, c: ClusterInfo): NodeMap {
    WithClients(env, WithSlot(env, WithServers(env, nm, c, c.servers), Slot(c, InfraRole, 1)), c, c.clients)
  }

  /** The node map of the clusters, added one after the other. */
  function NodesOf(env: Env, cs: seq<ClusterInfo>): NodeMap {
    if cs == [] then map[] else WithCluster(env, NodesOf(env, cs[..|cs| - 1]), cs[|cs| - 1])
  }

  lemma HoldsOneMore(env: Env, S: set<Slot>, nm: NodeMap, s: Slot)
    requires Holds(env, S, nm)
    ensures Holds(env, S + {s}, nm[SlotName(s) := SlotNode(env, s)])
  {
    var nm2 := nm[SlotName(s) := SlotNode(env, s)];
    forall name | name in nm2
      ensures exists t :: t in S + {s} && SlotName(t) == name && nm2[name] == SlotNode(env, t)
    {
      if name == SlotName(s) {
        assert s in S + {s};
      } else {
        var t :| t in S && SlotName(t) == name && nm[name] == SlotNode(env, t);
        assert t in S + {s};
      }
    }
  }

  lemma SlotNodeNamed(env: Env, s: Slot)
    ensures SlotNode(env, s).name == SlotName(s) && SlotNode(env, s).cluster == s.cluster.name
    ensures SlotNode(env, s).kind != UnknownKind
    ensures SlotNode(env, s).addresses == SlotAddresses(env, s)
  {
  }

  lemma HoldsAt(env: Env, S: set<Slot>, nm: NodeMap, name: string) returns (s: Slot)
    requires Holds(env, S, nm) && name in nm
    ensures s in S && SlotName(s) == name && nm[name] == SlotNode(env, s)
  {
    s :| s in S && SlotName(s) == name && nm[name] == SlotNode(env, s);
  }

  lemma HoldsIsWellFiled(env: Env, S: set<Slot>, nm: NodeMap)
    requires Holds(env, S, nm)
    ensures WellFiled(nm)
  {
    forall name | name in nm ensures nm[name].name == name && nm[name].kind != UnknownKind {
      var s := HoldsAt(env, S, nm, name);
      SlotNodeNamed(env, s);
    }
  }

  // ---------------------------------------------------------------- networks

  predicate NeedsAllNetworks(shape: NetworkShape) { shape != Flat }

  function NetworksOf(shape: NetworkShape, cs: seq<ClusterInfo>): map<string, Network> {
    if !NeedsAllNetworks(shape) then map[LAN := Network(LAN, "10.0.0.0/16")]
    else if cs == [] then map[WAN := Network(WAN, "10.1.0.0/16")]
    else
      var c := cs[|cs| - 1];
      NetworksOf(shape, cs[..|cs| - 1])[c.name := Network(c.name, c.baseIP + ".0/24")]
  }

  // ---------------------------------------------------------------- the compiler

  predicate HasPrimary(cfg: Config) {
    exists i :: 0 <= i < |cfg.clusters| && cfg.clusters[i].name == PRIMARY_CLUSTER
  }

  predicate ClustersOk(cfg: Config) { forall i :: 0 <= i < |cfg.clusters| ==> ClusterOk(cfg.clusters[i]) }

  /** Exactly the configurations that compile. */
  predicate Compilable(cfg: Config) {
    && ModesOk(cfg) && HasPrimary(cfg) && ClustersOk(cfg)
    && forall i :: 0 <= i < |cfg.clusters| ==>
         NodesCompile(EnvOf(cfg), InfoOf(cfg.linkMode == "peer", cfg.clusters[i]))
  }

  /** The error names a defect the configuration really has. */
  ghost predicate Blamed(e: CompileError, cfg: Config) {
    match e
    case UnknownNetworkShape => ShapeOf(cfg.networkShape).None?
    case UnknownNodeMode => NodeModeOf(cfg.nodeMode).None?
    case UnknownModeOfNode(n) => n in cfg.nodes && !NodeModeKnown(n)
    case UnknownLinkMode => LinkModeOf(cfg.linkMode).None?
    case PeeringNeedsFlat => cfg.linkMode == "peer" && ShapeOf(cfg.networkShape) != Some(Flat)
    case IslandsNeedTLS => ShapeOf(cfg.networkShape) == Some(Islands) && !cfg.encryptionTLS
    case PrometheusNeedsFlat => cfg.prometheusEnabled && ShapeOf(cfg.networkShape) != Some(Flat)
    case PrimaryMissing => !HasPrimary(cfg)
    case NegativeGateways(n) => exists c :: c in cfg.clusters && c.name == n && c.meshGateways < 0
    case NoServers(n) => exists c :: c in cfg.clusters && c.name == n && c.servers <= 0
    case NoClients(n) => exists c :: c in cfg.clusters && c.name == n && c.clients + c.meshGateways <= 0
    case TooManyClients(n) => exists c :: c in cfg.clusters && c.name == n && c.clients + c.meshGateways > 50
    case BadClusterName(n) => !ClusterNameOk(n) && exists c :: c in cfg.clusters && c.name == n
    case _ =>
      ModesOk(cfg) && ClustersOk(cfg) &&
      exists c :: c in InfosOf(cfg.linkMode == "peer", cfg.clusters) && NodeBlamed(e, EnvOf(cfg), c)
  }

  ghost predicate ServerBlamed(e: CompileError, env: Env, c: ClusterInfo) {
    exists i :: 1 <= i <= c.servers && ServerError(env, c, i) == Some(e)
  }

  ghost predicate ClientBlamed(e: CompileError, env: Env, c: ClusterInfo) {
    exists i :: 1 <= i <= c.clients && ClientError(env, c, i) == Some(e)
  }

  ghost predicate NodeBlamed(e: CompileError, env: Env, c: ClusterInfo) {
    ServerBlamed(e, env, c) || ClientBlamed(e, env, c)
  }

  /** What a compiled topology is, for the configuration it came from. */
  ghost predicate IsCompiled(cfg: Config, v: View)
    requires Compilable(cfg)
  {
    var env := EnvOf(cfg);
    var infos := InfosOf(cfg.linkMode == "peer", cfg.clusters);
    && v.shape == env.shape && v.mode == env.mode && LinkModeOf(cfg.linkMode) == Some(v.link)
    && v.networks == NetworksOf(env.shape, infos)
    && IsSorting(ByName, infos, v.clusters)
    && Holds(env, Slots(env, v.clusters), v.nm) && v.nm == NodesOf(env, v.clusters)
    && v.retained == RetainedAll(env, v.clusters)
  }

  method CheckModes(cfg: Config) returns (err: Option<CompileError>)
    ensures err.None? <==> ModesOk(cfg)
    ensures err.Some? ==> Blamed(err.value, cfg)
  {
    if ShapeOf(cfg.networkShape).None? {
      return Some(UnknownNetworkShape);
    }
    var shape := ShapeOf(cfg.networkShape).value;
    if NodeModeOf(cfg.nodeMode).None? {
      return Some(UnknownNodeMode);
    }
    for i := 0 to |cfg.nodes|
      invariant forall k :: 0 <= k < i ==> NodeModeKnown(cfg.nodes[k])
    {
      var n := cfg.nodes[i];
      if n.mode != "agent" && n.mode != "dataplane" && n.mode != "" {
        return Some(UnknownModeOfNode(n));
      }
    }
    if LinkModeOf(cfg.linkMode).None? {
      return Some(UnknownLinkMode);
    }
    if shape != Flat && LinkModeOf(cfg.linkMode).value == Peer {
      return Some(PeeringNeedsFlat);
    }
    if shape == Islands && !cfg.encryptionTLS {
      return Some(IslandsNeedTLS);
    }
    if cfg.prometheusEnabled && shape != Flat {
      return Some(PrometheusNeedsFlat);
    }
    return None;
  }

  /** The ping or pong a service client runs; its settings have had their tenancy filled in. */
  method BuildService(n: NodeConfig, idx: nat) returns (svc: Service)
    requires n.partition != "" && n.serviceNamespace != "" && n.upstreamPartition != "" && n.upstreamNamespace != ""
    ensures svc == ServiceOf(n, idx)
  {
    var id, up;
    if idx % 2 == 1 {
      id := NewIdentifier(SERVICE_PING, n.serviceNamespace, n.partition);
      up := NewIdentifier(SERVICE_PONG, n.upstreamNamespace, n.upstreamPartition);
    } else {
      id := NewIdentifier(SERVICE_PONG, n.serviceNamespace, n.partition);
      up := NewIdentifier(SERVICE_PING, n.upstreamNamespace, n.upstreamPartition);
    }
    if n.upstreamName != "" {
      up := up.(name := n.upstreamName);
    }
    svc := Service(id, 8080, up, "", "", 9090, n.upstreamExtraHCL, n.serviceMeta);
    if n.upstreamPeer != "" {
      svc := svc.(upstreamPeer := n.upstreamPeer);
    }
    if n.upstreamDatacenter != "" {
      svc := svc.(upstreamDatacenter := n.upstreamDatacenter);
    }
  }

  /** The empty partition and namespace fields, filled in. */
  function Filled(n: NodeConfig): NodeConfig {
    var part, ns := OrDefault(n.partition), OrDefault(n.serviceNamespace);
    n.(partition := part, serviceNamespace := ns,
       upstreamPartition := if n.upstreamPartition == "" then part else n.upstreamPartition,
       upstreamNamespace := if n.upstreamNamespace == "" then ns else n.upstreamNamespace)
  }

  method FillTenancy(settings: NodeConfig) returns (n: NodeConfig)
    ensures n == Filled(settings)
  {
    n := settings.(partition := OrDefault(settings.partition));
    if n.upstreamPartition == "" {
      n := n.(upstreamPartition := n.partition);
    }
    n := n.(serviceNamespace := OrDefault(n.serviceNamespace));
    if n.upstreamNamespace == "" {
      n := n.(upstreamNamespace := n.serviceNamespace);
    }
  }

  /** The gateway branch of the client loop. */
  method DressGateway(env: Env, c: ClusterInfo, idx: nat, bare: Node, settings: NodeConfig)
    returns (err: Option<CompileError>, node: Node)
    ensures err == if bare.partition != DEFAULT then Some(GatewayOutsideDefaultPartition(bare.name))
                   else if settings.useDNSWANAddress && env.shape != Flat then Some(DNSAddressNeedsFlat(bare.name))
                   else None
    ensures err.None? ==>
              node == bare.(meshGateway := true, useDNSWANAddress := bare.useDNSWANAddress || settings.useDNSWANAddress,
                            addresses := bare.addresses +
                              if env.shape == Flat then [] else [WanAddress(c, ClientRole, idx)])
  {
    var wanIP := c.wanBaseIP + "." + Itoa(20 + idx);
    node := bare.(meshGateway := true);
    if node.partition != DEFAULT {
      err := Some(GatewayOutsideDefaultPartition(node.name));
      return;
    }
    if settings.useDNSWANAddress {
      if env.shape != Flat {
        err := Some(DNSAddressNeedsFlat(node.name));
        return;
      }
      node := node.(useDNSWANAddress := true);
    }
    match env.shape {
      case Islands => node := node.(addresses := node.addresses + [Address(WAN, wanIP)]);
      case Dual => node := node.(addresses := node.addresses + [Address(WAN, wanIP)]);
      case Flat =>
    }
    err := None;
  }

  /** The service branch of the client loop. */
  method DressServiceClient(idx: nat, bare: Node, filled: NodeConfig) returns (err: Option<CompileError>, node: Node)
    requires filled == Filled(filled)
    ensures err == if filled.useDNSWANAddress then Some(DNSAddressNeedsGateway(bare.name)) else None
    ensures err.None? ==> node == bare.(useBuiltinProxy := bare.useBuiltinProxy || filled.useBuiltinProxy,
                                        service := Some(ServiceOf(filled, idx)))
  {
    node := bare;
    if filled.useDNSWANAddress {
      err := Some(DNSAddressNeedsGateway(node.name));
      return;
    }
    if filled.useBuiltinProxy {
      node := node.(useBuiltinProxy := true);
    }
    var svc := BuildService(filled, idx);
    node := node.(service := Some(svc));
    err := None;
  }

  /** The start of the client loop: name, kind, tenancy, segment and local address. */
  method BareClient(env: Env, c: ClusterInfo, idx: nat) returns (node: Node, filled: NodeConfig)
    ensures var s := Slot(c, ClientRole, idx);
            var n := SettingsOf(env, SlotName(s));
            filled == Filled(n) &&
            node == Node(ClientKind(env, n), c.name, SlotName(s), n.segment, OrDefault(n.partition),
                         [LanAddress(env, c, ClientRole, idx)], None, false, false, idx - 1, false, false)
  {
    var ip := c.baseIP + "." + Itoa(20 + idx);
    var nodeName := NodeName(c.name, ClientRole, idx);
    node := Node(Client, c.name, nodeName, "", "", [Address(NetworkName(env.shape, c.name), ip)],
                 None, false, false, idx - 1, false, false);
    var settings := ZERO_NODE;
    var found := FindNode(env.nodes, nodeName);
    if found.Some? {
      settings := found.value;
    }
    if env.mode == DataplaneMode {
      node := node.(kind := Dataplane);
    }
    if settings.mode == "agent" {
      node := node.(kind := Client);
    } else if settings.mode == "dataplane" {
      node := node.(kind := Dataplane);
    }
    filled := FillTenancy(settings);
    node := node.(partition := filled.partition, segment := filled.segment);
  }

  /** One round of the client loop, up to the question whether the node is dead. */
  method BuildClient(env: Env, c: ClusterInfo, idx: nat) returns (err: Option<CompileError>, node: Node)
    requires idx >= 1
    ensures err.Some? ==> err == ClientError(env, c, idx)
    ensures err.None? ==> ClientError(env, c, idx) in {None, Some(NoPublicAddress(SlotName(Slot(c, ClientRole, idx))))}
    ensures err.None? ==> node == SlotNode(env, Slot(c, ClientRole, idx))
  {
    var isGatewayClient := idx > c.clients - c.meshGateways;
    var filled;
    node, filled := BareClient(env, c, idx);
    if isGatewayClient {
      err, node := DressGateway(env, c, idx, node, filled);
    } else {
      assert Filled(filled) == filled;
      err, node := DressServiceClient(idx, node, filled);
    }
    if err.None? && env.canaryConfigured {
      node := node.(canary := node.name in env.canaryNodes);
    }
  }

  /** What becomes of a node marked dead: left out, at most its address is retained. */
  method RetainIfWanted(env: Env, c: ClusterInfo, idx: nat, node: Node, topology: Topology)
    returns (err: Option<CompileError>)
    requires idx >= 1 && node == SlotNode(env, Slot(c, ClientRole, idx)) && Dead(env, c, idx)
    requires ClientError(env, c, idx) in {None, Some(NoPublicAddress(node.name))}
    modifies topology`additionalPrimaryGateways
    ensures err == ClientError(env, c, idx)
    ensures err.None? ==>
              topology.additionalPrimaryGateways == old(topology.additionalPrimaryGateways) + RetainedEntry(env, c, idx)
  {
    var settings := SettingsOf(env, node.name);
    if env.federate {
      if node.meshGateway && node.cluster == PRIMARY_CLUSTER && settings.retainInPrimaryGatewaysList {
        PublicAddressOfSlot(env, Slot(c, ClientRole, idx));
        var public := node.PublicAddress();
        if public.None? {
          return Some(NoPublicAddress(node.name));
        }
        topology.AddAdditionalPrimaryGateway(public.value + ":8443");
      }
    }
    return None;
  }

  /** A node has a public address exactly when it stands on the wan. */
  lemma PublicAddressOfSlot(env: Env, s: Slot)
    requires s.cluster.name != WAN
    ensures FirstOn(SlotAddresses(env, s), {WAN})
         == if OnWan(env, s) then Some(WanAddress(s.cluster, s.role, s.idx).ip) else None
  {
    var a := SlotAddresses(env, s);
    assert a[0].network != WAN;
    if OnWan(env, s) {
      assert a[1..] == [WanAddress(s.cluster, s.role, s.idx)];
    } else {
      assert a[1..] == [];
    }
  }

  method BuildServer(env: Env, c: ClusterInfo, idx: nat) returns (err: Option<CompileError>, node: Node)
    requires idx >= 1
    ensures err == ServerError(env, c, idx)
    ensures err.None? ==> node == SlotNode(env, Slot(c, ServerRole, idx))
  {
    var ip := c.baseIP + "." + Itoa(10 + idx);
    var wanIP := c.wanBaseIP + "." + Itoa(10 + idx);
    node := Node(Server, c.name, NodeName(c.name, ServerRole, idx), "", DEFAULT,
                     [Address(NetworkName(env.shape, c.name), ip)], None, false, false, idx - 1, false, false);
    var found := FindNode(env.nodes, node.name);
    if found.Some? {
      if found.value.mode != "agent" {
        err := Some(AgentlessServer(node.name));
        return;
      }
    }
    match env.shape {
      case Islands =>
        if c.name != PRIMARY_CLUSTER {
          node := node.(addresses := node.addresses + [Address(WAN, wanIP)]);
        }
      case Dual => node := node.(addresses := node.addresses + [Address(WAN, wanIP)]);
      case Flat =>
    }
    err := None;
  }

  /** One round of the server loop. */
  method AddServer(env: Env, topology: Topology, c: ClusterInfo, idx: nat, ghost S: set<Slot>)
    returns (err: Option<CompileError>)
    requires Holds(env, S, topology.nm) && idx >= 1
    modifies topology`nm
    ensures err == ServerError(env, c, idx)
    ensures err.None? ==> Holds(env, S + {Slot(c, ServerRole, idx)}, topology.nm)
    ensures err.None? ==> topology.nm == WithSlot(env, old(topology.nm), Slot(c, ServerRole, idx))
  {
    var node;
    err, node := BuildServer(env, c, idx);
    if err.Some? {
      return;
    }
    HoldsOneMore(env, S, topology.nm, Slot(c, ServerRole, idx));
    var _ := topology.AddNode(node);
    return None;
  }

  method AddServers(env: Env, topology: Topology, c: ClusterInfo, ghost S: set<Slot>) returns (err: Option<CompileError>)
    requires Holds(env, S, topology.nm) && c.servers >= 0
    modifies topology`nm
    ensures err.None? ==> ServersCompile(env, c) && Holds(env, S + ServerSlots(c, c.servers), topology.nm)
    ensures err.None? ==> topology.nm == WithServers(env, old(topology.nm), c, c.servers)
    ensures err.Some? ==> ServerBlamed(err.value, env, c)
  {
    hide Holds, ServerSlots, ServerError, WithSlot;
    NoSlotsYet(env, c, S);
    for idx := 1 to c.servers + 1
      invariant Holds(env, S + ServerSlots(c, idx - 1), topology.nm)
      invariant topology.nm == WithServers(env, old(topology.nm), c, idx - 1)
      invariant forall i :: 1 <= i < idx ==> ServerError(env, c, i).None?
    {
      err := AddServer(env, topology, c, idx, S + ServerSlots(c, idx - 1));
      if err.Some? {
        return;
      }
      ServerSlotsStep(c, idx, S);
    }
    return None;
  }

  lemma NoSlotsYet(env: Env, c: ClusterInfo, S: set<Slot>)
    ensures S + ServerSlots(c, 0) == S && S + ClientSlots(env, c, 0) == S && RetainedOf(env, c, 0) == []
  {
  }

  lemma ServerSlotsStep(c: ClusterInfo, idx: nat, S: set<Slot>)
    requires idx >= 1
    ensures S + ServerSlots(c, idx) == S + ServerSlots(c, idx - 1) + {Slot(c, ServerRole, idx)}
  {
    assert ServerSlots(c, idx) == ServerSlots(c, idx - 1) + {Slot(c, ServerRole, idx)};
  }

  lemma InfraNumerals(c: ClusterInfo)
    ensures c.name + "-infra1" == NodeName(c.name, InfraRole, 1)
    ensures c.baseIP + ".100" == c.baseIP + "." + Itoa(100)
  {
    assert Itoa(1) == "1";
    assert c.name + "-infra1" == c.name + "-" + "infra" + "1";
    assert Itoa(10) == Itoa(1) + "0";
    assert Itoa(100) == Itoa(10) + "0";
    assert Itoa(100) == "100";
    assert c.baseIP + ".100" == c.baseIP + "." + "100";
  }

  /** The special pod every cluster gets. */
  method AddInfra(env: Env, topology: Topology, c: ClusterInfo, ghost S: set<Slot>)
    requires Holds(env, S, topology.nm)
    modifies topology`nm
    ensures Holds(env, S + {Slot(c, InfraRole, 1)}, topology.nm)
    ensures topology.nm == WithSlot(env, old(topology.nm), Slot(c, InfraRole, 1))
  {
    ghost var s := Slot(c, InfraRole, 1);
    var node := Node(Infra, c.name, c.name + "-infra1", "", DEFAULT,
                     [Address(NetworkName(env.shape, c.name), c.baseIP + ".100")], None, false, false, 99, false, false);
    InfraNumerals(c);
    assert node == SlotNode(env, s);
    HoldsOneMore(env, S, topology.nm, s);
    var _ := topology.AddNode(node);
  }

  /** One round of the client loop. */
  method AddClient(env: Env, topology: Topology, c: ClusterInfo, idx: nat, ghost S: set<Slot>)
    returns (err: Option<CompileError>)
    requires Holds(env, S, topology.nm) && idx >= 1
    modifies topology`nm, topology`additionalPrimaryGateways
    ensures err == ClientError(env, c, idx)
    ensures err.None? ==>
              Holds(env, if Dead(env, c, idx) then S else S + {Slot(c, ClientRole, idx)}, topology.nm)
    ensures err.None? ==> topology.nm == WithClient(env, old(topology.nm), c, idx)
    ensures err.None? ==>
              topology.additionalPrimaryGateways == old(topology.additionalPrimaryGateways) + RetainedEntry(env, c, idx)
  {
    var node;
    err, node := BuildClient(env, c, idx);
    if err.Some? {
      return;
    }
    if SettingsOf(env, node.name).dead {
      err := RetainIfWanted(env, c, idx, node, topology);
      return; // act like this isn't there
    }
    HoldsOneMore(env, S, topology.nm, Slot(c, ClientRole, idx));
    var _ := topology.AddNode(node);
  }

  lemma ClientSlotsStep(env: Env, c: ClusterInfo, idx: nat, S: set<Slot>)
    requires idx >= 1
    ensures S + ClientSlots(env, c, idx)
         == if Dead(env, c, idx) then S + ClientSlots(env, c, idx - 1)
            else S + ClientSlots(env, c, idx - 1) + {Slot(c, ClientRole, idx)}
  {
    assert ClientSlots(env, c, idx) == ClientSlots(env, c, idx - 1) +
           if Dead(env, c, idx) then {} else {Slot(c, ClientRole, idx)};
  }

  method AddClients(env: Env, topology: Topology, c: ClusterInfo, ghost S: set<Slot>) returns (err: Option<CompileError>)
    requires Holds(env, S, topology.nm) && c.clients >= 0
    modifies topology`nm, topology`additionalPrimaryGateways
    ensures err.None? ==> ClientsCompile(env, c) && Holds(env, S + ClientSlots(env, c, c.clients), topology.nm)
    ensures err.None? ==> topology.nm == WithClients(env, old(topology.nm), c, c.clients)
    ensures err.Some? ==> ClientBlamed(err.value, env, c)
    ensures err.None? ==>
              topology.additionalPrimaryGateways == old(topology.additionalPrimaryGateways) + RetainedOf(env, c, c.clients)
  {
    hide Holds, ClientSlots, Dead, RetainedEntry, RetainedOf, ClientError, WithClient;
    NoSlotsYet(env, c, S);
    for idx := 1 to c.clients + 1
      invariant Holds(env, S + ClientSlots(env, c, idx - 1), topology.nm)
      invariant topology.nm == WithClients(env, old(topology.nm), c, idx - 1)
      invariant ClientsCompileTo(env, c, idx - 1)
      invariant topology.additionalPrimaryGateways
             == old(topology.additionalPrimaryGateways) + RetainedOf(env, c, idx - 1)
    {
      err := AddClient(env, topology, c, idx, S + ClientSlots(env, c, idx - 1));
      if err.Some? {
        return;
      }
      ClientSlotsStep(env, c, idx, S);
      RetainedStep(env, c, idx, old(topology.additionalPrimaryGateways));
    }
    return None;
  }

  lemma RetainedStep(env: Env, c: ClusterInfo, idx: nat, before: seq<string>)
    requires idx >= 1
    ensures before + RetainedOf(env, c, idx) == before + RetainedOf(env, c, idx - 1) + RetainedEntry(env, c, idx)
  {
    hide RetainedEntry;
  }

  /** forCluster: adds the servers, the infra pod and the living clients of one cluster. */
  method AddCluster(env: Env, topology: Topology, c: ClusterInfo, ghost S: set<Slot>) returns (err: Option<CompileError>)
    requires Holds(env, S, topology.nm)
    requires c.servers >= 0 && c.clients >= 0
    modifies topology`nm, topology`additionalPrimaryGateways
    ensures err.None? <==> NodesCompile(env, c)
    ensures err.Some? ==> NodeBlamed(err.value, env, c)
    ensures err.None? ==> Holds(env, S + SlotsOf(env, c), topology.nm)
    ensures err.None? ==> topology.nm == WithCluster(env, old(topology.nm), c)
    ensures err.None? ==>
              topology.additionalPrimaryGateways == old(topology.additionalPrimaryGateways) + RetainedOf(env, c, c.clients)
  {
    err := AddServers(env, topology, c, S);
    if err.Some? {
      return;
    }
    ghost var T := S + ServerSlots(c, c.servers);
    AddInfra(env, topology, c, T);
    T := T + {Slot(c, InfraRole, 1)};
    err := AddClients(env, topology, c, T);
    ClientsCompileEach(env, c, c.clients);
    assert S + SlotsOf(env, c) == T + ClientSlots(env, c, c.clients);
  }

  // ---------------------------------------------------------------- putting it together

  /** The configuration after the first k clusters had their gateways added to their clients. */
  function BumpedUpTo(cfg: Config, k: nat): Config
    requires k <= |cfg.clusters|
  {
    cfg.(clusters := seq(|cfg.clusters|, i requires 0 <= i < |cfg.clusters| =>
      if i < k then Bumped(cfg.clusters[i]) else cfg.clusters[i]))
  }

  ghost predicate ClusterBlamed(e: CompileError, c: Cluster) {
    match e
    case NegativeGateways(n) => c.name == n && c.meshGateways < 0
    case NoServers(n) => c.name == n && c.servers <= 0
    case NoClients(n) => c.name == n && c.clients + c.meshGateways <= 0
    case TooManyClients(n) => c.name == n && c.clients + c.meshGateways > 50
    case BadClusterName(n) => c.name == n && !ClusterNameOk(n)
    case _ => false
  }

  /** The checks on a cluster whose clients already include its gateways. */
  method CheckCluster(c: Cluster) returns (err: Option<CompileError>)
    requires c.meshGateways >= 0
    ensures err.None? <==> ClusterOk(c.(clients := c.clients - c.meshGateways))
    ensures err.Some? ==> ClusterBlamed(err.value, c.(clients := c.clients - c.meshGateways))
  {
    if c.servers <= 0 {
      return Some(NoServers(c.name));
    }
    if c.clients <= 0 {
      return Some(NoClients(c.name));
    }
    if c.clients > 50 {
      return Some(TooManyClients(c.name));
    }
    if !(|c.name| >= 3 && c.name[..2] == "dc" && AllDigits(c.name[2..])) {
      return Some(BadClusterName(c.name));
    }
    if Atoi(c.name[2..]).None? {
      return Some(BadClusterName(c.name));
    }
    return None;
  }

  lemma InfosOfExtend(peer: bool, cs: seq<Cluster>, i: nat)
    requires i < |cs|
    requires forall k :: 0 <= k <= i ==> ClusterOk(cs[k])
    ensures InfosOf(peer, cs[..i + 1]) == InfosOf(peer, cs[..i]) + [InfoOf(peer, cs[i])]
  {
  }

  /** One round of the cluster loop, once the client count has been bumped. */
  method AddInfo(topology: Topology, peer: bool, c: Cluster, ghost raw: Cluster) returns (err: Option<CompileError>)
    requires c.meshGateways >= 0 && c == Bumped(raw)
    requires topology.networks == NetworksOf(topology.networkShape, topology.clusters)
    modifies topology`networks, topology`clusters
    ensures err.None? <==> ClusterOk(raw)
    ensures err.Some? ==> ClusterBlamed(err.value, raw)
    ensures err.None? ==> topology.clusters == old(topology.clusters) + [InfoOf(peer, raw)]
    ensures err.None? ==> topology.networks == NetworksOf(topology.networkShape, topology.clusters)
  {
    assert c.(clients := c.clients - c.meshGateways) == raw;
    err := CheckCluster(c);
    if err.Some? {
      return;
    }
    var index := Atoi(c.name[2..]).value;
    var info := ClusterInfo(c.name, peer || c.name == PRIMARY_CLUSTER, index, c.servers, c.clients, c.meshGateways,
                            "10.0." + Itoa(index), "10.1." + Itoa(index));
    ghost var before := topology.clusters;
    topology.clusters := topology.clusters + [info];
    assert topology.clusters[..|topology.clusters| - 1] == before;
    if NeedsAllNetworks(topology.networkShape) {
      topology.AddNetwork(Network(info.name, info.baseIP + ".0/24"));
    }
  }

  lemma BumpOneMore(was: Config, i: nat)
    requires i < |was.clusters|
    ensures var now := BumpedUpTo(was, i);
            now.clusters[i] == was.clusters[i] &&
            now.(clusters := now.clusters[i := Bumped(was.clusters[i])]) == BumpedUpTo(was, i + 1)
  {
  }

  /** Reads the clusters into the topology and bumps their client counts in the configuration. */
  method PrepareClusters(ref: ConfigRef, topology: Topology, peer: bool) returns (err: Option<CompileError>)
    requires topology.clusters == []
    requires topology.networks == NetworksOf(topology.networkShape, [])
    modifies ref, topology`networks, topology`clusters
    ensures err.None? <==> ClustersOk(old(ref.value))
    ensures err.Some? ==> exists c :: c in old(ref.value).clusters && ClusterBlamed(err.value, c)
    ensures err.None? ==> topology.clusters == InfosOf(peer, old(ref.value).clusters)
    ensures err.None? ==> topology.networks == NetworksOf(topology.networkShape, topology.clusters)
    ensures err.None? ==> ref.value == BumpedUpTo(old(ref.value), |old(ref.value).clusters|)
    ensures exists k :: 0 <= k <= |old(ref.value).clusters| && ref.value == BumpedUpTo(old(ref.value), k)
  {
    hide ClusterOk, ClusterBlamed, NetworksOf, InfoOf;
    ghost var was := ref.value;
    ghost var cs := was.clusters;
    assert was == BumpedUpTo(was, 0);
    for i := 0 to |ref.value.clusters|
      invariant ref.value == BumpedUpTo(was, i)
      invariant forall k :: 0 <= k < i ==> ClusterOk(cs[k])
      invariant topology.clusters == InfosOf(peer, cs[..i])
      invariant topology.networks == NetworksOf(topology.networkShape, topology.clusters)
    {
      BumpOneMore(was, i);
      var c := ref.value.clusters[i];
      if c.meshGateways < 0 {
        NegativeGatewaysAreWrong(c);
        return Some(NegativeGateways(c.name));
      }
      c := c.(clients := c.clients + c.meshGateways);
      ref.value := ref.value.(clusters := ref.value.clusters[i := c]);
      err := AddInfo(topology, peer, c, cs[i]);
      if err.Some? {
        assert cs[i] in cs;
        return;
      }
      InfosOfExtend(peer, cs, i);
    }
    assert cs[..|cs|] == cs;
    return None;
  }

  lemma NegativeGatewaysAreWrong(c: Cluster)
    requires c.meshGateways < 0
    ensures !ClusterOk(c) && ClusterBlamed(NegativeGateways(c.name), c)
  {
  }

  /** checkForErrors: every service is one of the two known ones. */
  method CheckForErrors(topology: Topology) returns (err: Option<CompileError>)
    requires WellFiled(topology.nm)
    ensures err.None? <==>
            forall n :: n in topology.nm && topology.nm[n].service.Some? ==>
                          topology.nm[n].service.value.id.name in {SERVICE_PING, SERVICE_PONG}
  {
    hide WalkOrder, WellFiled;
    var names := topology.SortedNodes();
    WalkVisitsEachOnce(topology.nm);
    assert forall n :: n in names <==> n in Elements(names);
    for i := 0 to |names|
      invariant forall k :: 0 <= k < i && topology.nm[names[k]].service.Some? ==>
                  topology.nm[names[k]].service.value.id.name in {SERVICE_PING, SERVICE_PONG}
    {
      var node := topology.nm[names[i]];
      if node.service.Some? {
        var name := node.service.value.id.name;
        if name != SERVICE_PING && name != SERVICE_PONG {
          return Some(UnexpectedService(name));
        }
      }
    }
    return None;
  }

  lemma ServicesArePingOrPong(env: Env, S: set<Slot>, nm: NodeMap, name: string)
    requires Holds(env, S, nm) && name in nm && nm[name].service.Some?
    ensures nm[name].service.value.id.name in {SERVICE_PING, SERVICE_PONG}
  {
    var s := HoldsAt(env, S, nm, name);
  }

  lemma HoldsNothing(env: Env)
    ensures Holds(env, {}, map[])
  {
  }

  method AddClusters(env: Env, topology: Topology) returns (err: Option<CompileError>)
    requires topology.nm == map[] && topology.additionalPrimaryGateways == []
    requires forall c :: c in topology.clusters ==> c.servers >= 0 && c.clients >= 0
    modifies topology`nm, topology`additionalPrimaryGateways
    ensures err.None? <==> forall c :: c in topology.clusters ==> NodesCompile(env, c)
    ensures err.Some? ==> exists c :: c in topology.clusters && NodeBlamed(err.value, env, c)
    ensures err.None? ==> Holds(env, Slots(env, topology.clusters), topology.nm)
    ensures err.None? ==> topology.nm == NodesOf(env, topology.clusters)
    ensures err.None? ==> topology.additionalPrimaryGateways == RetainedAll(env, topology.clusters)
  {
    hide NodesCompile, NodeBlamed, Holds, SlotsOf, RetainedOf, WithCluster;
    HoldsNothing(env);
    var cs := topology.clusters;
    for i := 0 to |cs|
      invariant Holds(env, Slots(env, cs[..i]), topology.nm) && topology.nm == NodesOf(env, cs[..i])
      invariant topology.additionalPrimaryGateways == RetainedAll(env, cs[..i])
      invariant forall k :: 0 <= k < i ==> NodesCompile(env, cs[k])
    {
      assert cs[..i + 1][..i] == cs[..i];
      err := AddCluster(env, topology, cs[i], Slots(env, cs[..i]));
      if err.Some? {
        return;
      }
    }
    assert cs[..|cs|] == cs;
    return None;
  }

  method FindPrimary(cfg: Config) returns (found: bool)
    ensures found == HasPrimary(cfg)
  {
    for i := 0 to |cfg.clusters|
      invariant forall k :: 0 <= k < i ==> cfg.clusters[k].name != PRIMARY_CLUSTER
    {
      if cfg.clusters[i].name == PRIMARY_CLUSTER {
        return true;
      }
    }
    return false;
  }

  lemma SortedInfosSameMembers(infos: seq<ClusterInfo>, sorted: seq<ClusterInfo>)
    requires IsSorting(ByName, infos, sorted)
    ensures forall c :: c in sorted <==> c in infos
  {
    forall c ensures c in sorted <==> c in infos {
      assert c in multiset(sorted) <==> c in multiset(infos);
    }
  }

  lemma ClusterBlameIsBlame(e: CompileError, c: Cluster, cfg: Config)
    requires c in cfg.clusters && ClusterBlamed(e, c)
    ensures Blamed(e, cfg)
  {
  }

  predicate IsNodeError(e: CompileError) {
    e.AgentlessServer? || e.GatewayOutsideDefaultPartition? || e.DNSAddressNeedsFlat? || e.NoPublicAddress?
    || e.DNSAddressNeedsGateway?
  }

  lemma NodeBlameIsNodeError(e: CompileError, env: Env, c: ClusterInfo)
    requires NodeBlamed(e, env, c)
    ensures IsNodeError(e)
  {
    if ServerBlamed(e, env, c) {
      var i :| 1 <= i <= c.servers && ServerError(env, c, i) == Some(e);
    } else {
      var i :| 1 <= i <= c.clients && ClientError(env, c, i) == Some(e);
    }
  }

  lemma NodeBlameIsBlame(e: CompileError, c: ClusterInfo, cfg: Config)
    requires ModesOk(cfg) && ClustersOk(cfg)
    requires c in InfosOf(cfg.linkMode == "peer", cfg.clusters) && NodeBlamed(e, EnvOf(cfg), c)
    ensures Blamed(e, cfg)
  {
    hide NodeBlamed, ModesOk, ClustersOk, EnvOf, InfosOf;
    NodeBlameIsNodeError(e, EnvOf(cfg), c);
  }

  lemma CompilableIffNodes(cfg: Config, sorted: seq<ClusterInfo>)
    requires ModesOk(cfg) && HasPrimary(cfg) && ClustersOk(cfg)
    requires IsSorting(ByName, InfosOf(cfg.linkMode == "peer", cfg.clusters), sorted)
    ensures Compilable(cfg) <==> forall c :: c in sorted ==> NodesCompile(EnvOf(cfg), c)
  {
    var infos := InfosOf(cfg.linkMode == "peer", cfg.clusters);
    SortedInfosSameMembers(infos, sorted);
    if forall c :: c in sorted ==> NodesCompile(EnvOf(cfg), c) {
      forall i | 0 <= i < |cfg.clusters| ensures NodesCompile(EnvOf(cfg), InfoOf(cfg.linkMode == "peer", cfg.clusters[i])) {
        assert infos[i] in infos;
      }
    }
    if Compilable(cfg) {
      forall c | c in sorted ensures NodesCompile(EnvOf(cfg), c) {
        var i :| 0 <= i < |infos| && infos[i] == c;
        assert infos[i] == InfoOf(cfg.linkMode == "peer", cfg.clusters[i]);
      }
    }
  }

  /** CompileTopology: compiles exactly the compilable, and blames a real defect otherwise. */
  method CompileTopology(ref: ConfigRef) returns (err: Option<CompileError>, topology: Topology?)
    modifies ref
    ensures err.None? <==> Compilable(old(ref.value))
    ensures err.None? <==> topology != null
    ensures err.Some? ==> Blamed(err.value, old(ref.value))
    ensures topology != null ==> fresh(topology) && IsCompiled(old(ref.value), topology.Contents())
    ensures topology != null ==> ref.value == BumpedUpTo(old(ref.value), |old(ref.value).clusters|)
    ensures exists k :: 0 <= k <= |old(ref.value).clusters| && ref.value == BumpedUpTo(old(ref.value), k)
  {
    hide Blamed, ClusterBlamed, NodeBlamed, Holds, Slots, RetainedAll, NodesCompile, ClustersOk, ClusterOk, InfosOf,
      Compilable, ModesOk, WellFiled, EnvOf, HasPrimary;
    var cfg := ref.value;
    assert cfg == BumpedUpTo(cfg, 0);
    topology := null;
    err := CheckModes(cfg);
    if err.Some? {
      NotCompilable(cfg);
      return;
    }
    var env := EnvOf(cfg);
    var found := FindPrimary(cfg);
    if !found {
      NotCompilable(cfg);
      err := Some(PrimaryMissing);
      return;
    }
    var t := NewTopology(cfg, env);
    err := PrepareClusters(ref, t, cfg.linkMode == "peer");
    if err.Some? {
      NotCompilable(cfg);
      ghost var c :| c in cfg.clusters && ClusterBlamed(err.value, c);
      ClusterBlameIsBlame(err.value, c, cfg);
      return;
    }
    err := CompileNodes(cfg, env, t);
    if err.None? {
      topology := t;
    }
  }

  lemma NotCompilable(cfg: Config)
    ensures Compilable(cfg) ==> ModesOk(cfg) && HasPrimary(cfg) && ClustersOk(cfg)
    ensures !HasPrimary(cfg) ==> Blamed(PrimaryMissing, cfg)
  {
  }

  method NewTopology(cfg: Config, env: Env) returns (t: Topology)
    requires ModesOk(cfg) && env == EnvOf(cfg)
    ensures fresh(t) && t.networkShape == env.shape && t.nodeMode == env.mode && LinkModeOf(cfg.linkMode) == Some(t.linkMode)
    ensures t.clusters == [] && t.nm == map[] && t.additionalPrimaryGateways == []
    ensures t.networks == NetworksOf(env.shape, [])
  {
    t := new Topology(env.shape, LinkModeOf(cfg.linkMode).value, env.mode);
    if NeedsAllNetworks(env.shape) {
      t.AddNetwork(Network(WAN, "10.1.0.0/16"));
    } else {
      t.AddNetwork(Network(LAN, "10.0.0.0/16"));
    }
  }

  /** From the sort of the clusters on. */
  method CompileNodes(cfg: Config, env: Env, t: Topology) returns (err: Option<CompileError>)
    requires ModesOk(cfg) && HasPrimary(cfg) && ClustersOk(cfg) && env == EnvOf(cfg)
    requires t.networkShape == env.shape && t.nodeMode == env.mode && LinkModeOf(cfg.linkMode) == Some(t.linkMode)
    requires t.nm == map[] && t.additionalPrimaryGateways == []
    requires t.clusters == InfosOf(cfg.linkMode == "peer", cfg.clusters)
    requires t.networks == NetworksOf(env.shape, t.clusters)
    modifies t
    ensures err.None? <==> Compilable(cfg)
    ensures err.Some? ==> Blamed(err.value, cfg)
    ensures err.None? ==> IsCompiled(cfg, t.Contents())
  {
    hide Blamed, NodeBlamed, Holds, Slots, RetainedAll, NodesCompile, ClustersOk, ClusterOk, InfosOf,
      Compilable, ModesOk, WellFiled, EnvOf, HasPrimary, IsSorting, NetworksOf, NodesOf;
    ByNameIsWeakOrder();
    ghost var infos := t.clusters;
    InfoCountsArePositive(cfg);
    t.clusters := SortSlice(ByName, t.clusters);
    SortedInfosSameMembers(infos, t.clusters);
    CompilableIffNodes(cfg, t.clusters);
    err := AddClusters(env, t);
    if err.Some? {
      ghost var c :| c in t.clusters && NodeBlamed(err.value, env, c);
      NodeBlameIsBlame(err.value, c, cfg);
      return;
    }
    HoldsIsWellFiled(env, Slots(env, t.clusters), t.nm);
    forall n | n in t.nm && t.nm[n].service.Some? ensures t.nm[n].service.value.id.name in {SERVICE_PING, SERVICE_PONG} {
      ServicesArePingOrPong(env, Slots(env, t.clusters), t.nm, n);
    }
    err := CheckForErrors(t);
  }

  lemma InfoCountsArePositive(cfg: Config)
    requires ClustersOk(cfg)
    ensures forall c :: c in InfosOf(cfg.linkMode == "peer", cfg.clusters) ==> c.servers > 0 && c.clients > 0
  {
  }
}
