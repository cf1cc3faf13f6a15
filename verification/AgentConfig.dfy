/** app/tfgen/agent.go: the addresses that go into an agent's configuration. */
module AgentConfig {
  import opened Text
  import opened Sorting
  import opened Config
  import opened Infra
  import opened Compile
  import opened NameFacts

  datatype Part = Scalar(key: string, value: string) | List(key: string, values: seq<string>)

  datatype Outcome = NotAnAgent | Panicked | Generated(parts: seq<Part>)

  class HCLBuilder {
    var parts: seq<Part>

    constructor ()
      ensures parts == []
    {
      parts := [];
    }

    method Add(key: string, value: string)
      modifies this
      ensures parts == old(parts) + if value != "" then [Scalar(key, value)] else []
    {
      if value != "" {
        parts := parts + [Scalar(key, value)];
      }
    }

    method AddSlice(key: string, values: seq<string>)
      modifies this
      ensures parts == old(parts) + [List(key, values)]
    {
      parts := parts + [List(key, values)];
    }
  }

  function Present(key: string, value: string): seq<Part> { if value != "" then [Scalar(key, value)] else [] }

  // ---------------------------------------------------------------- what is looked up

  /** Whether a server advertises, and joins by, wan addresses. */
  predicate UsesWan(v: View, node: Node) {
    (v.shape == Islands && node.meshGateway) || v.shape == Dual
  }

  ghost function ServersOf(v: View, cluster: string): seq<Node>
  {
    WalkNamesAreFiled(v.nm);
    Visited(v.nm, SortedOf(KindNames(v.nm, Server)), InCluster(cluster))
  }

  ghost function GatewaysOf(v: View, cluster: string): seq<Node>
  {
    WalkNamesAreFiled(v.nm);
    Visited(v.nm, WalkOrder(v.nm), GatewayOf(cluster))
  }

  predicate JoinsByGateway(v: View, node: Node) {
    v.link == Federate && v.shape == Islands && node.cluster != PRIMARY_CLUSTER
  }

  predicate JoinsByLeader(v: View) { v.link == Federate && v.shape != Islands }

  /** No address lookup made for a server panics. */
  ghost predicate ServerLookupsSucceed(v: View, node: Node) {
    (UsesWan(v, node) ==> node.PublicAddress().Some?) && JoinLookupsSucceed(v, node)
  }

  ghost predicate JoinLookupsSucceed(v: View, node: Node) {
    && (JoinsByGateway(v, node) ==> forall n :: n in GatewaysOf(v, PRIMARY_CLUSTER) ==> n.PublicAddress().Some?)
    && (JoinsByLeader(v) ==>
          forall c :: c in v.clusters ==> LeaderAddress(v.nm, c.name, UsesWan(v, node)).Some?)
  }

  ghost predicate LookupsSucceed(v: View, node: Node) {
    && node.LocalAddress().Some?
    && (forall n :: n in ServersOf(v, node.cluster) ==> n.LocalAddress().Some?)
    && (node.IsServer() ==> ServerLookupsSucceed(v, node))
  }

  ghost function Leaders(v: View, cs: seq<ClusterInfo>, wan: bool): seq<string>
    requires forall c :: c in cs ==> LeaderAddress(v.nm, c.name, wan).Some?
  {
    if cs == [] then []
    else Leaders(v, cs[..|cs| - 1], wan) + [LeaderAddress(v.nm, cs[|cs| - 1].name, wan).value]
  }

  /** How a server finds the other clusters. */
  ghost predicate JoinParts(v: View, node: Node, parts: seq<Part>)
    requires JoinLookupsSucceed(v, node)
  {
    if JoinsByGateway(v, node) then
      exists addrs :: ListsPublic(GatewaysOf(v, PRIMARY_CLUSTER), addrs, ":8443") &&
                      parts == [List("primary_gateways", addrs + v.retained)]
    else if JoinsByLeader(v) then
      parts == [List("retry_join_wan", Leaders(v, v.clusters, UsesWan(v, node)))]
    else
      parts == []
  }

  ghost predicate ServerParts(v: View, node: Node, parts: seq<Part>)
    requires ServerLookupsSucceed(v, node)
  {
    var wan := if UsesWan(v, node) then Present("advertise_addr_wan", node.PublicAddress().value) else [];
    exists join :: JoinParts(v, node, join) && parts == wan + join
  }

  ghost predicate Assembled(v: View, node: Node, parts: seq<Part>, ips: seq<string>, tail: seq<Part>)
    requires LookupsSucceed(v, node)
  {
    && ListsLocal(ServersOf(v, node.cluster), ips)
    && parts == Present("advertise_addr", node.LocalAddress().value) + [List("retry_join", ips)] + tail
    && if node.IsServer() then ServerParts(v, node, tail) else tail == []
  }

  /** The addresses an agent is configured with, in the order they are written. */
  ghost predicate AgentParts(v: View, node: Node, parts: seq<Part>)
    requires LookupsSucceed(v, node)
  {
    exists ips, tail :: Assembled(v, node, parts, ips, tail)
  }

  // ---------------------------------------------------------------- the generator

  method LeaderIPs(topology: Topology, wan: bool) returns (ips: Option<seq<string>>)
    ensures ips.None? <==>
            exists c :: c in topology.clusters && LeaderAddress(topology.nm, c.name, wan).None?
    ensures ips.Some? ==> ips.value == Leaders(topology.Contents(), topology.clusters, wan)
  {
    hide LeaderAddress;
    var cs := topology.clusters;
    ghost var v := topology.Contents();
    var out := [];
    for i := 0 to |cs|
      invariant forall c :: c in cs[..i] ==> LeaderAddress(v.nm, c.name, wan).Some?
      invariant out == Leaders(v, cs[..i], wan)
    {
      assert cs[..i + 1] == cs[..i] + [cs[i]];
      var ip := topology.LeaderIP(cs[i].name, wan);
      if ip.None? {
        assert cs[i] in cs;
        return None;
      }
      assert cs[..i + 1][..i] == cs[..i];
      out := out + [ip.value];
    }
    assert cs[..|cs|] == cs;
    return Some(out);
  }

  /** The part of GenerateAgentHCL that only servers run; false is a panic. */
  method AddServerAddresses(topology: Topology, node: Node, b: HCLBuilder) returns (ok: bool)
    requires WellFiled(topology.nm)
    modifies b
    ensures ok <==> ServerLookupsSucceed(topology.Contents(), node)
    ensures ok ==> exists tail :: ServerParts(topology.Contents(), node, tail) && b.parts == old(b.parts) + tail
  {
    hide WellFiled, Visited, WalkOrder, LeaderAddress, Leaders, KindNames;
    ghost var v := topology.Contents();
    ghost var before := b.parts;
    var useWANIP := false;
    match topology.networkShape {
      case Islands =>
        if node.meshGateway {
          useWANIP := true;
        }
      case Dual => useWANIP := true;
      case Flat =>
    }
    ghost var wan := [];
    if useWANIP {
      if node.PublicAddress().None? {
        return false;
      }
      b.Add("advertise_addr_wan", node.PublicAddress().value);
      wan := Present("advertise_addr_wan", node.PublicAddress().value);
    }
    assert b.parts == before + wan;
    ghost var join;
    ok, join := AddJoinAddresses(topology, node, useWANIP, b);
    if ok {
      hide JoinParts;
      assert ServerParts(v, node, wan + join);
      assert b.parts == before + (wan + join);
    }
  }

  /** The part of it that federation asks for. */
  method AddJoinAddresses(topology: Topology, node: Node, useWANIP: bool, b: HCLBuilder) returns (ok: bool, ghost join: seq<Part>)
    requires WellFiled(topology.nm) && useWANIP == UsesWan(topology.Contents(), node)
    modifies b
    ensures ok <==> JoinLookupsSucceed(topology.Contents(), node)
    ensures ok ==> JoinParts(topology.Contents(), node, join) && b.parts == old(b.parts) + join
  {
    hide WellFiled, Visited, WalkOrder, LeaderAddress, Leaders, KindNames;
    ghost var v := topology.Contents();
    join := [];
    if topology.linkMode == Federate {
      if topology.FederateWithGateways() {
        if node.cluster != PRIMARY_CLUSTER {
          var primaryGateways := topology.GatewayAddrs(PRIMARY_CLUSTER);
          if primaryGateways.None? {
            ok := false;
            return;
          }
          ghost var addrs := primaryGateways.value[..|GatewaysOf(v, PRIMARY_CLUSTER)|];
          assert primaryGateways.value == addrs + v.retained;
          b.AddSlice("primary_gateways", primaryGateways.value);
          join := [List("primary_gateways", addrs + v.retained)];
        }
      } else {
        var ips := LeaderIPs(topology, useWANIP);
        if ips.None? {
          ok := false;
          return;
        }
        b.AddSlice("retry_join_wan", ips.value);
        join := [List("retry_join_wan", ips.value)];
      }
    }
    ok := true;
  }

  /** Panics exactly when a lookup fails; otherwise writes exactly the addresses above. */
  method GenerateAgentHCL(topology: Topology, node: Node) returns (r: Outcome)
    requires WellFiled(topology.nm)
    ensures r.NotAnAgent? <==> !node.IsAgent()
    ensures r.Generated? <==> node.IsAgent() && LookupsSucceed(topology.Contents(), node)
    ensures r.Generated? ==> AgentParts(topology.Contents(), node, r.parts)
  {
    hide WellFiled, Visited, WalkOrder, KindNames, ServerLookupsSucceed, ServerParts;
    if !node.IsAgent() {
      return NotAnAgent;
    }
    ghost var v := topology.Contents();
    var b := new HCLBuilder();
    if node.LocalAddress().None? {
      return Panicked;
    }
    b.Add("advertise_addr", node.LocalAddress().value);
    var ips := topology.ServerIPs(node.cluster);
    assert ips.None? <==> exists n :: n in ServersOf(v, node.cluster) && n.LocalAddress().None?;
    if ips.None? {
      return Panicked;
    }
    b.AddSlice("retry_join", ips.value);
    ghost var head := b.parts;
    ghost var tail := [];
    if node.IsServer() {
      var ok := AddServerAddresses(topology, node, b);
      if !ok {
        return Panicked;
      }
      tail :| ServerParts(v, node, tail) && b.parts == head + tail;
    }
    assert b.parts == head + tail;
    assert head == Present("advertise_addr", node.LocalAddress().value) + [List("retry_join", ips.value)];
    assert Assembled(v, node, b.parts, ips.value, tail);
    return Generated(b.parts);
  }

  // ---------------------------------------------------------------- no lookup panics

  lemma EveryNodeIsLocal(cfg: Config, v: View, name: string)
    requires Compilable(cfg) && IsCompiled(cfg, v) && name in v.nm
    ensures v.nm[name].LocalAddress().Some?
  {
    CompiledHolds(cfg, v);
    hide IsCompiled, Compilable, Slots, EnvOf, Holds;
    var s := HoldsAt(EnvOf(cfg), Slots(EnvOf(cfg), v.clusters), v.nm, name);
    SlotNodeNamed(EnvOf(cfg), s);
    LocalAddressOfSlot(EnvOf(cfg), s);
  }

  lemma SlotKind(env: Env, s: Slot)
    ensures SlotNode(env, s).IsServer() <==> s.role == ServerRole
    ensures SlotNode(env, s).meshGateway ==> s.role == ClientRole && IsGateway(s.cluster, s.idx)
  {
  }

  /** The shape that reads a server's or gateway's wan address is a shape that gave it one. */
  lemma WanWhereNeeded(cfg: Config, v: View, name: string)
    requires Compilable(cfg) && IsCompiled(cfg, v) && name in v.nm
    ensures v.nm[name].IsServer() && UsesWan(v, v.nm[name]) ==> v.nm[name].PublicAddress().Some?
    ensures v.nm[name].meshGateway && v.shape != Flat ==> v.nm[name].PublicAddress().Some?
    ensures v.nm[name].IsServer() ==> !v.nm[name].meshGateway
  {
    CompiledInfosAreGood(cfg, v);
    CompiledHolds(cfg, v);
    var env := EnvOf(cfg);
    assert v.shape == env.shape;
    hide IsCompiled, Compilable, Slots, EnvOf, Holds, SlotNode, GoodInfo;
    var s := HoldsAt(env, Slots(env, v.clusters), v.nm, name);
    SlotsMembership(env, v.clusters, s);
    GoodNames(v.clusters);
    NameIsNotReserved(s.cluster.name);
    SlotKind(env, s);
    SlotNodeNamed(env, s);
    PublicAddressOfSlot(env, s);
  }

  lemma ServersAreFiled(v: View, cluster: string)
    ensures forall n :: n in ServersOf(v, cluster) ==> exists name :: name in v.nm && v.nm[name] == n && n.IsServer()
  {
    KindNamesListed(v.nm, Server);
    hide KindNames;
  }

  lemma GatewaysAreFiled(v: View, cluster: string)
    ensures forall n :: n in GatewaysOf(v, cluster) ==> exists name :: name in v.nm && v.nm[name] == n && n.meshGateway
  {
    WalkNamesAreFiled(v.nm);
    hide WalkOrder;
  }

  lemma ServerLookupsNeverPanic(cfg: Config, v: View, name: string)
    requires Compilable(cfg) && IsCompiled(cfg, v) && name in v.nm && v.nm[name].IsServer()
    ensures ServerLookupsSucceed(v, v.nm[name])
  {
    hide IsCompiled, Compilable, GatewaysOf, LeaderAddress, EnvOf;
    WanWhereNeeded(cfg, v, name);
    var node := v.nm[name];
    if JoinsByGateway(v, node) {
      GatewaysAreFiled(v, PRIMARY_CLUSTER);
      forall n | n in GatewaysOf(v, PRIMARY_CLUSTER) ensures n.PublicAddress().Some? {
        var m :| m in v.nm && v.nm[m] == n && n.meshGateway;
        WanWhereNeeded(cfg, v, m);
      }
    }
    if JoinsByLeader(v) {
      ShapeIsEnvShape(cfg, v);
      forall c | c in v.clusters ensures LeaderAddress(v.nm, c.name, UsesWan(v, node)).Some? {
        LeaderAddressOfCluster(cfg, v, c);
      }
    }
  }

  lemma ShapeIsEnvShape(cfg: Config, v: View)
    requires Compilable(cfg) && IsCompiled(cfg, v)
    ensures v.shape == EnvOf(cfg).shape
  {
  }

  /** Generating the configuration of any agent of a compiled topology never panics. */
  lemma LookupsNeverPanic(cfg: Config, v: View, name: string)
    requires Compilable(cfg) && IsCompiled(cfg, v) && name in v.nm
    ensures LookupsSucceed(v, v.nm[name])
  {
    hide IsCompiled, Compilable, ServersOf, ServerLookupsSucceed;
    EveryNodeIsLocal(cfg, v, name);
    var node := v.nm[name];
    ServersAreFiled(v, node.cluster);
    forall n | n in ServersOf(v, node.cluster) ensures n.LocalAddress().Some? {
      var m :| m in v.nm && v.nm[m] == n && n.IsServer();
      EveryNodeIsLocal(cfg, v, m);
    }
    if node.IsServer() {
      ServerLookupsNeverPanic(cfg, v, name);
    }
  }
}
