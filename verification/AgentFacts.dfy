/** The addresses an agent of a compiled topology is configured with, in terms of the configuration alone. */
module AgentFacts {
  import opened Text
  import opened Sorting
  import opened Config
  import opened Infra
  import opened Compile
  import opened NameFacts
  import opened NodeFacts
  import opened AgentConfig

  /** The host octet of a place. */
  function OctetAt(p: Place): nat {
    match p
    case ServerAt(_, idx) => 10 + idx
    case InfraAt(_) => 100
    case ClientAt(_, idx, _) => 20 + idx
  }

  function LanAt(c: ClusterInfo, octet: nat): string { "10.0." + Itoa(c.index) + "." + Itoa(octet) }

  function ServerIP(c: ClusterInfo, idx: nat): string { LanAt(c, 10 + idx) }

  function WanAt(c: ClusterInfo, octet: nat): string { "10.1." + Itoa(c.index) + "." + Itoa(octet) }

  /** Which places stand on the wan. */
  predicate StandsOnWan(cfg: Config, p: Place) {
    match p
    case ServerAt(c, _) => cfg.networkShape == "dual" || (cfg.networkShape == "islands" && c.name != "dc1")
    case InfraAt(_) => false
    case ClientAt(c, idx, _) => IsGatewayIndex(c, idx) && (cfg.networkShape == "dual" || cfg.networkShape == "islands")
  }

  /** What the lookups of a filled place find. */
  lemma AddressesOfPlace(cfg: Config, p: Place, n: Node)
    requires Fills(cfg, p, n) && ClusterNameOk(p.c.name)
    ensures n.cluster == p.c.name && n.addresses == AddressesAt(cfg, p.c, OctetAt(p), StandsOnWan(cfg, p))
    ensures n.LocalAddress() == Some(LanAt(p.c, OctetAt(p)))
    ensures n.PublicAddress() == if StandsOnWan(cfg, p) then Some(WanAt(p.c, OctetAt(p))) else None
  {
    assert n.cluster == p.c.name && n.addresses == AddressesAt(cfg, p.c, OctetAt(p), StandsOnWan(cfg, p)) by {
      hide Itoa, AddressesAt, SettingsFor, IsServiceAt, ClusterNameOk;
    }
    NameIsNotReserved(p.c.name);
    hide Fills, Itoa, ClusterNameOk;
    LookUp(cfg, p.c, OctetAt(p), StandsOnWan(cfg, p));
  }

  lemma LookUp(cfg: Config, c: ClusterInfo, octet: nat, wan: bool)
    requires c.name != WAN && c.name != LAN
    ensures FirstOn(AddressesAt(cfg, c, octet, wan), {c.name, LAN}) == Some(LanAt(c, octet))
    ensures FirstOn(AddressesAt(cfg, c, octet, wan), {WAN}) == if wan then Some(WanAt(c, octet)) else None
  {
    hide Itoa;
    var a := AddressesAt(cfg, c, octet, wan);
    if wan {
      assert a[1..] == [Address("wan", WanAt(c, octet))];
    } else {
      assert a[1..] == [];
    }
  }

  // ---------------------------------------------------------------- lists of a walk

  lemma {:induction false} VisitedOnce(nm: NodeMap, names: seq<string>, keep: Node -> bool)
    requires (forall n :: n in names ==> n in nm) && NoDuplicates(names) && forall n :: n in nm ==> nm[n].name == n
    ensures NoDuplicates(Visited(nm, names, keep))
  {
    if names != [] {
      var rest, last := names[..|names| - 1], names[|names| - 1];
      assert names == rest + [last];
      VisitedOnce(nm, rest, keep);
      assert last !in rest;
      var before := Visited(nm, rest, keep);
      assert nm[last] !in before;
    }
  }

  /** The servers of a cluster, each once. */
  lemma ServersOnce(v: View, cluster: string)
    requires WellFiled(v.nm)
    ensures NoDuplicates(ServersOf(v, cluster))
    ensures forall n :: n in ServersOf(v, cluster) <==> n.name in v.nm && v.nm[n.name] == n && n.kind == Server && n.cluster == cluster
  {
    WalkNamesAreFiled(v.nm);
    KindNamesListed(v.nm, Server);
    AscendingHasNoDuplicates(SortedOf(KindNames(v.nm, Server)));
    hide KindNames, SortedOf;
    VisitedOnce(v.nm, SortedOf(KindNames(v.nm, Server)), InCluster(cluster));
  }

  lemma GatewaysOnce(v: View, cluster: string)
    requires WellFiled(v.nm)
    ensures NoDuplicates(GatewaysOf(v, cluster))
    ensures forall n :: n in GatewaysOf(v, cluster) <==>
              n.name in v.nm && v.nm[n.name] == n && n.cluster == cluster && n.meshGateway && (n.kind == Client || n.kind == Dataplane)
  {
    WalkNamesAreFiled(v.nm);
    WalkVisitsEachOnce(v.nm);
    var names := WalkOrder(v.nm);
    assert forall x :: x in names <==> x in Elements(names);
    hide WalkOrder;
    VisitedOnce(v.nm, names, GatewayOf(cluster));
  }

  /** Where a server of a cluster stands, when cluster names are distinct. */
  lemma ServerStands(cfg: Config, v: View, c: ClusterInfo, n: Node) returns (idx: nat)
    requires Compilable(cfg) && IsCompiled(cfg, v) && DistinctNames(v.clusters) && c in v.clusters
    requires n.name in v.nm && v.nm[n.name] == n && n.kind == Server && n.cluster == c.name
    ensures Fills(cfg, ServerAt(c, idx), n) && 1 <= idx <= c.servers && n.LocalAddress() == Some(ServerIP(c, idx))
  {
    hide IsCompiled, Compilable, GoodInfos, GoodInfo, DistinctNames, ClusterNameOk, Fills, Node.LocalAddress, Node.PublicAddress,
      AddressesAt, LanAt, WanAt;
    CompiledInfosAreGood(cfg, v);
    GoodNames(v.clusters);
    var p := NodeAsConfigured(cfg, v, n.name);
    AddressesOfPlace(cfg, p, n);
    KindOfPlace(cfg, p, n);
    MemberByName(v.clusters, p.c, c);
    idx := p.idx;
    ServerInRange(cfg, c, idx, n);
  }

  lemma ServerInRange(cfg: Config, c: ClusterInfo, idx: nat, n: Node)
    requires Fills(cfg, ServerAt(c, idx), n)
    ensures 1 <= idx <= c.servers
  {
  }

  lemma KindOfPlace(cfg: Config, p: Place, n: Node)
    requires Fills(cfg, p, n)
    ensures n.cluster == p.c.name && n.name == NameOf(p)
    ensures n.kind == Server <==> p.ServerAt?
    ensures (n.kind == Client || n.kind == Dataplane) <==> p.ClientAt?
    ensures n.meshGateway <==> p.ClientAt? && IsGatewayIndex(p.c, p.idx)
    ensures p.ClientAt? ==> 1 <= p.idx <= p.c.clients && !p.s.dead && SettingsFor(cfg, NameOf(p), p.s)
  {
    hide Itoa, AddressesAt, SettingsFor, IsServiceAt;
  }

  lemma SameServer(cfg: Config, c: ClusterInfo, i: nat, j: nat, m: Node, n: Node)
    requires Fills(cfg, ServerAt(c, i), m) && Fills(cfg, ServerAt(c, j), n) && ServerIP(c, i) == ServerIP(c, j)
    ensures m == n
  {
    hide Itoa;
    var base := "10.0." + Itoa(c.index) + ".";
    assert LanAt(c, 10 + i) == base + Itoa(10 + i) && LanAt(c, 10 + j) == base + Itoa(10 + j);
    assert (base + Itoa(10 + i))[|base|..] == Itoa(10 + i) && (base + Itoa(10 + j))[|base|..] == Itoa(10 + j);
    ItoaInjective(10 + i, 10 + j);
  }

  /** The servers an agent joins are all those of its cluster, each once. */
  lemma ServerIPsAsConfigured(cfg: Config, v: View, c: ClusterInfo, ips: seq<string>)
    requires Compilable(cfg) && IsCompiled(cfg, v) && DistinctNames(v.clusters) && c in v.clusters
    requires ListsLocal(ServersOf(v, c.name), ips)
    ensures Enumerates(ips, set idx: nat | 1 <= idx <= c.servers :: ServerIP(c, idx))
  {
    hide IsCompiled, Compilable, DistinctNames, ServersOf, Fills, Node.LocalAddress, LanAt;
    var ns := ServersOf(v, c.name);
    CompiledIsWellFiled(cfg, v);
    ServersOnce(v, c.name);
    hide ServerIP, WellFiled;
    forall i, j | 0 <= i < j < |ips| ensures ips[i] != ips[j] {
      assert ns[i] in ns && ns[j] in ns;
      var a := ServerStands(cfg, v, c, ns[i]);
      var b := ServerStands(cfg, v, c, ns[j]);
      if ips[i] == ips[j] {
        SameServer(cfg, c, a, b, ns[i], ns[j]);
      }
    }
    forall i | 0 <= i < |ips| ensures exists idx: nat :: 1 <= idx <= c.servers && ips[i] == ServerIP(c, idx) {
      assert ns[i] in ns;
      var a := ServerStands(cfg, v, c, ns[i]);
    }
    forall idx: nat | 1 <= idx <= c.servers ensures ServerIP(c, idx) in ips {
      ServerIsListed(cfg, v, c, idx, ips);
    }
  }

  lemma CompiledIsWellFiled(cfg: Config, v: View)
    requires Compilable(cfg) && IsCompiled(cfg, v)
    ensures WellFiled(v.nm)
  {
    CompiledHolds(cfg, v);
    hide IsCompiled;
    HoldsIsWellFiled(EnvOf(cfg), Slots(EnvOf(cfg), v.clusters), v.nm);
  }

  lemma ServerIsListed(cfg: Config, v: View, c: ClusterInfo, idx: nat, ips: seq<string>)
    requires Compilable(cfg) && IsCompiled(cfg, v) && DistinctNames(v.clusters) && c in v.clusters && 1 <= idx <= c.servers
    requires ListsLocal(ServersOf(v, c.name), ips)
    ensures ServerIP(c, idx) in ips
  {
    hide IsCompiled, Compilable, DistinctNames, ServersOf, GoodInfos, ClusterNameOk, Node.LocalAddress, Node.PublicAddress, AddressesAt,
      WanAt;
    var ns := ServersOf(v, c.name);
    CompiledIsWellFiled(cfg, v);
    ServersOnce(v, c.name);
    CompiledInfosAreGood(cfg, v);
    GoodNames(v.clusters);
    hide WellFiled;
    PlaceIsFilled(cfg, v, ServerAt(c, idx));
    var n := v.nm[NameOf(ServerAt(c, idx))];
    AddressesOfPlace(cfg, ServerAt(c, idx), n);
    assert n in ns by {
      assert n.kind == Server && n.name == NameOf(ServerAt(c, idx));
    }
    hide Fills;
    var i :| 0 <= i < |ns| && ns[i] == n;
    assert ips[i] == ServerIP(c, idx);
  }

  // ---------------------------------------------------------------- gateways

  function GatewayAddr(c: ClusterInfo, idx: nat): string { WanAt(c, 20 + idx) + ":8443" }

  /** A gateway of the cluster that is not dead. */
  predicate IsLivingGateway(cfg: Config, c: ClusterInfo, idx: nat, s: NodeConfig) {
    IsGatewayIndex(c, idx) && Exists(cfg, ClientAt(c, idx, s))
  }

  lemma GatewayStands(cfg: Config, v: View, c: ClusterInfo, n: Node) returns (idx: nat, s: NodeConfig)
    requires Compilable(cfg) && IsCompiled(cfg, v) && DistinctNames(v.clusters) && c in v.clusters && v.shape != Flat
    requires n.name in v.nm && v.nm[n.name] == n && n.meshGateway && n.cluster == c.name
    ensures IsLivingGateway(cfg, c, idx, s) && n.PublicAddress() == Some(WanAt(c, 20 + idx))
    ensures n.name == NameOf(ClientAt(c, idx, s))
  {
    hide IsCompiled, Compilable, GoodInfos, GoodInfo, DistinctNames, ClusterNameOk, Fills, Node.LocalAddress, Node.PublicAddress,
      AddressesAt, LanAt, WanAt, SettingsFor;
    CompiledInfosAreGood(cfg, v);
    GoodNames(v.clusters);
    ShapeAsConfigured(cfg, v);
    var p := NodeAsConfigured(cfg, v, n.name);
    AddressesOfPlace(cfg, p, n);
    KindOfPlace(cfg, p, n);
    MemberByName(v.clusters, p.c, c);
    idx, s := p.idx, p.s;
  }

  lemma ShapeAsConfigured(cfg: Config, v: View)
    requires Compilable(cfg) && IsCompiled(cfg, v)
    ensures v.shape == Islands <==> cfg.networkShape == "islands"
    ensures v.shape == Dual <==> cfg.networkShape == "dual"
    ensures v.link == Federate <==> cfg.linkMode == "federate"
  {
  }

  /** The gateways that are listed are exactly the living ones of the cluster, each once. */
  lemma GatewaysAsConfigured(cfg: Config, v: View, c: ClusterInfo, addrs: seq<string>)
    requires Compilable(cfg) && IsCompiled(cfg, v) && DistinctNames(v.clusters) && c in v.clusters && v.shape != Flat
    requires ListsPublic(GatewaysOf(v, c.name), addrs, ":8443")
    ensures NoDuplicates(addrs)
    ensures forall a :: a in addrs <==> exists idx: nat, s :: IsLivingGateway(cfg, c, idx, s) && a == GatewayAddr(c, idx)
  {
    hide IsCompiled, Compilable, DistinctNames, GatewaysOf, Fills, Node.PublicAddress, WanAt, IsLivingGateway;
    var ns := GatewaysOf(v, c.name);
    CompiledIsWellFiled(cfg, v);
    GatewaysOnce(v, c.name);
    hide WellFiled;
    forall i, j | 0 <= i < j < |addrs| ensures addrs[i] != addrs[j] {
      assert ns[i] in ns && ns[j] in ns;
      var a, s := GatewayStands(cfg, v, c, ns[i]);
      var b, t := GatewayStands(cfg, v, c, ns[j]);
      if addrs[i] == addrs[j] {
        SameGateway(c, a, b);
      }
    }
    forall i | 0 <= i < |addrs| ensures exists idx: nat, s :: IsLivingGateway(cfg, c, idx, s) && addrs[i] == GatewayAddr(c, idx) {
      assert ns[i] in ns;
      var a, s := GatewayStands(cfg, v, c, ns[i]);
    }
    forall idx: nat, s | IsLivingGateway(cfg, c, idx, s) ensures GatewayAddr(c, idx) in addrs {
      GatewayIsListed(cfg, v, c, idx, s, addrs);
    }
  }

  lemma SameGateway(c: ClusterInfo, i: nat, j: nat)
    ensures WanAt(c, 20 + i) + ":8443" == WanAt(c, 20 + j) + ":8443" ==> i == j
  {
    hide Itoa;
    if WanAt(c, 20 + i) + ":8443" == WanAt(c, 20 + j) + ":8443" {
      var base := "10.1." + Itoa(c.index) + ".";
      var a, b := base + Itoa(20 + i), base + Itoa(20 + j);
      assert a == WanAt(c, 20 + i) && b == WanAt(c, 20 + j);
      assert (a + ":8443")[..|a + ":8443"| - 5] == a && (b + ":8443")[..|b + ":8443"| - 5] == b;
      assert a[|base|..] == Itoa(20 + i) && b[|base|..] == Itoa(20 + j);
      ItoaInjective(20 + i, 20 + j);
    }
  }

  lemma GatewayIsListed(cfg: Config, v: View, c: ClusterInfo, idx: nat, s: NodeConfig, addrs: seq<string>)
    requires Compilable(cfg) && IsCompiled(cfg, v) && DistinctNames(v.clusters) && c in v.clusters && v.shape != Flat
    requires ListsPublic(GatewaysOf(v, c.name), addrs, ":8443") && IsLivingGateway(cfg, c, idx, s)
    ensures GatewayAddr(c, idx) in addrs
  {
    hide IsCompiled, Compilable, DistinctNames, WanAt, GatewaysOf, GoodInfos, ClusterNameOk, Node.PublicAddress, SettingsFor, Fills;
    var ns := GatewaysOf(v, c.name);
    CompiledIsWellFiled(cfg, v);
    GatewaysOnce(v, c.name);
    CompiledInfosAreGood(cfg, v);
    GoodNames(v.clusters);
    ShapeAsConfigured(cfg, v);
    var p := ClientAt(c, idx, s);
    PlaceIsFilled(cfg, v, p);
    var n := v.nm[NameOf(p)];
    AddressesOfPlace(cfg, p, n);
    KindOfPlace(cfg, p, n);
    assert n in ns;
    var i :| 0 <= i < |ns| && ns[i] == n;
    assert addrs[i] == GatewayAddr(c, idx);
  }

  // ---------------------------------------------------------------- leaders

  /** The leaders that are listed are the first servers of all clusters, in the order of the clusters. */
  lemma LeadersAsConfigured(cfg: Config, v: View)
    requires Compilable(cfg) && IsCompiled(cfg, v) && v.shape != Islands
    ensures forall c :: c in v.clusters ==> LeaderAddress(v.nm, c.name, v.shape == Dual).Some?
    ensures var ips := Leaders(v, v.clusters, v.shape == Dual);
            |ips| == |v.clusters| &&
            forall i :: 0 <= i < |ips| ==>
              ips[i] == (if v.shape == Dual then "10.1." else "10.0.") + Itoa(v.clusters[i].index) + ".11"
  {
    hide IsCompiled, Compilable, LeaderAddress, Itoa, LeaderAt;
    forall c | c in v.clusters ensures LeaderAddress(v.nm, c.name, v.shape == Dual) == Some(LeaderAt(c, v.shape == Dual)) {
      LeaderOfCluster(cfg, v, c);
    }
    EachLeader(v, v.clusters, v.shape == Dual);
    LeaderTexts(v.clusters, v.shape == Dual);
  }

  function LeaderAt(c: ClusterInfo, wan: bool): string { (if wan then "10.1." else "10.0.") + Itoa(c.index) + ".11" }

  lemma LeaderTexts(cs: seq<ClusterInfo>, wan: bool)
    ensures forall i :: 0 <= i < |cs| ==> LeaderAt(cs[i], wan) == (if wan then "10.1." else "10.0.") + Itoa(cs[i].index) + ".11"
  {
    hide Itoa;
  }

  lemma LeaderOfCluster(cfg: Config, v: View, c: ClusterInfo)
    requires Compilable(cfg) && IsCompiled(cfg, v) && v.shape != Islands && c in v.clusters
    ensures LeaderAddress(v.nm, c.name, v.shape == Dual) == Some(LeaderAt(c, v.shape == Dual))
  {
    CompiledInfosAreGood(cfg, v);
    ShapeIsEnvShape(cfg, v);
    assert GoodInfo(c);
    hide IsCompiled, Compilable, LeaderAddress, EnvOf, Itoa, GoodInfos;
    LeaderAddressOfCluster(cfg, v, c);
  }

  lemma {:induction false} EachLeader(v: View, cs: seq<ClusterInfo>, wan: bool)
    requires forall c :: c in cs ==> LeaderAddress(v.nm, c.name, wan).Some?
    ensures |Leaders(v, cs, wan)| == |cs|
    ensures forall i :: 0 <= i < |cs| ==> Leaders(v, cs, wan)[i] == LeaderAddress(v.nm, cs[i].name, wan).value
  {
    hide LeaderAddress;
    if cs != [] {
      EachLeader(v, cs[..|cs| - 1], wan);
    }
  }

  // ---------------------------------------------------------------- the whole

  /** The leaders of all clusters, one address each, in the order of the clusters. */
  predicate ListsLeaders(v: View, net: string, ips: seq<string>) {
    |ips| == |v.clusters| && forall i :: 0 <= i < |ips| ==> ips[i] == net + Itoa(v.clusters[i].index) + ".11"
  }

  /** The gateways of the primary that are not dead, each once. */
  ghost predicate ListsPrimaryGateways(cfg: Config, v: View, addrs: seq<string>) {
    && NoDuplicates(addrs)
    && forall c :: c in v.clusters && c.name == "dc1" ==>
         forall a :: a in addrs <==> exists idx: nat, s :: IsLivingGateway(cfg, c, idx, s) && a == GatewayAddr(c, idx)
  }

  /** What only servers are told, where others lists the addresses at which they find the other clusters. */
  ghost predicate SettingsOfServer(cfg: Config, v: View, c: ClusterInfo, idx: nat, others: seq<string>, tail: seq<Part>) {
    if cfg.networkShape == "dual" then
      && ListsLeaders(v, "10.1.", others)
      && tail == [Scalar("advertise_addr_wan", WanAt(c, 10 + idx))] +
                 if cfg.linkMode == "federate" then [List("retry_join_wan", others)] else []
    else if cfg.networkShape == "islands" then
      if c.name == "dc1" then tail == []
      else ListsPrimaryGateways(cfg, v, others) && tail == [List("primary_gateways", others + v.retained)]
    else
      && ListsLeaders(v, "10.0.", others)
      && tail == if cfg.linkMode == "federate" then [List("retry_join_wan", others)] else []
  }

  lemma ServerTail(cfg: Config, v: View, c: ClusterInfo, idx: nat, n: Node, tail: seq<Part>) returns (others: seq<string>)
    requires Compilable(cfg) && IsCompiled(cfg, v) && DistinctNames(v.clusters) && c in v.clusters
    requires Fills(cfg, ServerAt(c, idx), n) && ServerLookupsSucceed(v, n) && ServerParts(v, n, tail)
    ensures SettingsOfServer(cfg, v, c, idx, others, tail)
  {
    hide IsCompiled, Compilable, Fills, GoodInfos, ClusterNameOk, DistinctNames, Node.PublicAddress, Node.LocalAddress, WanAt,
      ListsPrimaryGateways, ListsLeaders, Leaders, GatewaysOf, LeaderAddress, JoinParts, JoinLookupsSucceed;
    CompiledInfosAreGood(cfg, v);
    GoodNames(v.clusters);
    ShapeAsConfigured(cfg, v);
    AddressesOfPlace(cfg, ServerAt(c, idx), n);
    KindOfPlace(cfg, ServerAt(c, idx), n);
    WanText(c, 10 + idx);
    var join :| JoinParts(v, n, join) &&
                tail == (if UsesWan(v, n) then Present("advertise_addr_wan", n.PublicAddress().value) else []) + join;
    others := Joined(cfg, v, c, n, join);
    assert [] + join == join;
  }

  lemma WanText(c: ClusterInfo, octet: nat)
    ensures WanAt(c, octet) != "" && LanAt(c, octet) != ""
  {
    hide Itoa;
    assert |"10.1." + Itoa(c.index) + "." + Itoa(octet)| > 0 && |"10.0." + Itoa(c.index) + "." + Itoa(octet)| > 0;
  }

  /** What federation adds for a server. */
  lemma Joined(cfg: Config, v: View, c: ClusterInfo, n: Node, join: seq<Part>) returns (others: seq<string>)
    requires Compilable(cfg) && IsCompiled(cfg, v) && DistinctNames(v.clusters) && c in v.clusters
    requires n.cluster == c.name && !n.meshGateway && JoinLookupsSucceed(v, n) && JoinParts(v, n, join)
    ensures cfg.networkShape != "islands" ==>
              ListsLeaders(v, if cfg.networkShape == "dual" then "10.1." else "10.0.", others) &&
              join == if cfg.linkMode == "federate" then [List("retry_join_wan", others)] else []
    ensures cfg.networkShape == "islands" ==>
              if c.name == "dc1" then join == []
              else ListsPrimaryGateways(cfg, v, others) && join == [List("primary_gateways", others + v.retained)]
  {
    hide IsCompiled, Compilable, DistinctNames, Leaders, GatewaysOf, LeaderAddress, ListsPublic, IsLivingGateway;
    ShapeAsConfigured(cfg, v);
    IslandsFederate(cfg, v);
    others := [];
    if v.shape != Islands {
      LeadersAsConfigured(cfg, v);
      others := Leaders(v, v.clusters, v.shape == Dual);
    } else if c.name != "dc1" {
      others :| ListsPublic(GatewaysOf(v, PRIMARY_CLUSTER), others, ":8443") &&
                join == [List("primary_gateways", others + v.retained)];
      PrimaryIsCluster(cfg, v);
      forall d | d in v.clusters && d.name == "dc1"
        ensures NoDuplicates(others)
        ensures forall a :: a in others <==> exists idx: nat, s :: IsLivingGateway(cfg, d, idx, s) && a == GatewayAddr(d, idx)
      {
        GatewaysAsConfigured(cfg, v, d, others);
      }
    }
  }

  lemma IslandsFederate(cfg: Config, v: View)
    requires Compilable(cfg) && IsCompiled(cfg, v)
    ensures v.shape == Islands ==> v.link == Federate
  {
  }

  lemma PrimaryIsCluster(cfg: Config, v: View)
    requires Compilable(cfg) && IsCompiled(cfg, v)
    ensures exists d :: d in v.clusters && d.name == "dc1"
  {
    hide IsCompiled, Fills;
    ClustersAsConfigured(cfg, v);
    var i :| 0 <= i < |cfg.clusters| && cfg.clusters[i].name == PRIMARY_CLUSTER;
    assert cfg.clusters[i] in cfg.clusters;
  }

  lemma PlaceOfAgent(cfg: Config, v: View, name: string) returns (p: Place)
    requires Compilable(cfg) && IsCompiled(cfg, v) && name in v.nm
    ensures p.c in v.clusters && Fills(cfg, p, v.nm[name]) && v.nm[name].cluster == p.c.name
    ensures v.nm[name].IsServer() <==> p.ServerAt?
    ensures v.nm[name].LocalAddress() == Some(LanAt(p.c, OctetAt(p)))
  {
    hide IsCompiled, Compilable, Fills, GoodInfos, ClusterNameOk, Node.PublicAddress, Node.LocalAddress, WanAt, LanAt;
    CompiledInfosAreGood(cfg, v);
    GoodNames(v.clusters);
    p := NodeAsConfigured(cfg, v, name);
    AddressesOfPlace(cfg, p, v.nm[name]);
    KindOfPlace(cfg, p, v.nm[name]);
  }

  /**
   * What the configuration of an agent says: it advertises its own lan address and joins all servers of its cluster.
   * A server of the dual shape advertises its own wan address too, and joins the other clusters by the wan addresses
   * of their first servers; one of the flat shape does so by their lan addresses; one of the islands shape, outside
   * the primary, by the living gateways of the primary and those retained.
   */
  lemma AgentAsConfigured(cfg: Config, v: View, name: string, parts: seq<Part>)
    returns (p: Place, ips: seq<string>, tail: seq<Part>, others: seq<string>)
    requires Compilable(cfg) && IsCompiled(cfg, v) && DistinctNames(v.clusters) && name in v.nm
    requires LookupsSucceed(v, v.nm[name]) && AgentParts(v, v.nm[name], parts)
    ensures p.c in v.clusters && Fills(cfg, p, v.nm[name])
    ensures parts == [Scalar("advertise_addr", LanAt(p.c, OctetAt(p))), List("retry_join", ips)] + tail
    ensures Enumerates(ips, set idx: nat | 1 <= idx <= p.c.servers :: ServerIP(p.c, idx))
    ensures !p.ServerAt? ==> tail == []
    ensures p.ServerAt? ==> SettingsOfServer(cfg, v, p.c, p.idx, others, tail)
  {
    hide IsCompiled, Compilable, Fills, GoodInfos, ClusterNameOk, DistinctNames, Node.PublicAddress, Node.LocalAddress, WanAt, LanAt,
      ServerParts, ServerLookupsSucceed, SettingsOfServer, ServersOf;
    others := [];
    var n := v.nm[name];
    p := PlaceOfAgent(cfg, v, name);
    WanText(p.c, OctetAt(p));
    ips, tail :| Assembled(v, n, parts, ips, tail);
    ServerIPsAsConfigured(cfg, v, p.c, ips);
    if p.ServerAt? {
      others := ServerTail(cfg, v, p.c, p.idx, n, tail);
    }
  }
}
