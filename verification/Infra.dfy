/** infra/topology.go: the compiled topology, its nodes, and the ordered walks over them. */
module Infra {
  import opened Text
  import opened Sorting
  import opened Identifiers

  datatype NetworkShape = Islands | Dual | Flat
  datatype ClusterLinkMode = Peer | Federate
  datatype NodeMode = AgentMode | DataplaneMode
  datatype NodeKind = UnknownKind | Server | Client | Dataplane | Infra

  const WAN := "wan"
  const LAN := "lan"

  function NetworkName(shape: NetworkShape, cluster: string): string {
    match shape
    case Islands => cluster
    case Dual => cluster
    case Flat => LAN
  }

  datatype Address = Address(network: string, ip: string)

  datatype Network = Network(name: string, cidr: string)

  datatype ClusterInfo = ClusterInfo(
    name: string,
    primary: bool,
    index: nat,
    servers: int,
    clients: int,
    meshGateways: int,
    baseIP: string,
    wanBaseIP: string)

  datatype Service = Service(
    id: Identifier,
    port: int,
    upstreamID: Identifier,
    upstreamPeer: string,
    upstreamDatacenter: string,
    upstreamLocalPort: int,
    upstreamExtraHCL: string,
    meta: map<string, string>)

  datatype Node = Node(
    kind: NodeKind,
    cluster: string,
    name: string,
    segment: string,
    partition: string,
    addresses: seq<Address>,
    service: Option<Service>,
    meshGateway: bool,
    useBuiltinProxy: bool,
    index: int,
    canary: bool,
    useDNSWANAddress: bool)
  {
    function PodName(): string { name + "-pod" }
    function TokenName(): string { "agent--" + name }
    predicate IsServer() { kind == Server }
    predicate IsAgent() { kind == Server || kind == Client }
    predicate IsWorkload() { kind == Client || kind == Dataplane }

    /** The first address on the cluster's own network or the shared one; None is a panic. */
    function LocalAddress(): Option<string> { FirstOn(addresses, {cluster, LAN}) }

    /** The first address on the wan; None is a panic. */
    function PublicAddress(): Option<string> { FirstOn(addresses, {WAN}) }
  }

  function FirstOn(addresses: seq<Address>, networks: set<string>): Option<string> {
    if addresses == [] then None
    else if addresses[0].network in networks then Some(addresses[0].ip)
    else FirstOn(addresses[1..], networks)
  }

  type NodeMap = map<string, Node>

  /** Every node is filed under its own name and has a kind. */
  predicate WellFiled(nm: NodeMap) {
    forall name :: name in nm ==> nm[name].name == name && nm[name].kind != UnknownKind
  }

  function KindNames(nm: NodeMap, kind: NodeKind): set<string> {
    set name | name in nm && nm[name].kind == kind
  }

  function WorkloadNames(nm: NodeMap): set<string> {
    set name | name in nm && nm[name].IsWorkload()
  }

  /** Infra pods, then servers, then clients and dataplanes, ascending within each group. */
  ghost function WalkOrder(nm: NodeMap): seq<string> {
    SortedOf(KindNames(nm, Infra)) + SortedOf(KindNames(nm, Server)) + SortedOf(WorkloadNames(nm))
  }

  /** The nodes of that listing which satisfy keep, in its order. */
  ghost function Visited(nm: NodeMap, names: seq<string>, keep: Node -> bool): (r: seq<Node>)
    requires forall n :: n in names ==> n in nm
    ensures forall n :: n in r <==> exists name :: name in names && nm[name] == n && keep(n)
  {
    if names == [] then []
    else
      var rest := names[..|names| - 1];
      var last := names[|names| - 1];
      assert names == rest + [last];
      assert forall name :: name in names <==> name in rest || name == last;
      Visited(nm, rest, keep) + (if keep(nm[last]) then [nm[last]] else [])
  }

  lemma VisitedExtend(nm: NodeMap, names: seq<string>, i: nat, keep: Node -> bool)
    requires i < |names|
    requires forall n :: n in names ==> n in nm
    ensures Visited(nm, names[..i + 1], keep)
         == Visited(nm, names[..i], keep) + (if keep(nm[names[i]]) then [nm[names[i]]] else [])
  {
    assert names[..i + 1][..i] == names[..i];
  }

  function InCluster(cluster: string): Node -> bool { (n: Node) => n.cluster == cluster }

  function GatewayOf(cluster: string): Node -> bool {
    (n: Node) => n.IsWorkload() && n.cluster == cluster && n.meshGateway
  }

  /** n names the first server of the cluster in name order. */
  predicate FirstServer(nm: NodeMap, cluster: string, n: string) {
    && n in nm && nm[n].IsServer() && nm[n].cluster == cluster
    && forall m :: m in nm && nm[m].IsServer() && nm[m].cluster == cluster && m != n ==> Less(n, m)
  }

  lemma FirstServerUnique(nm: NodeMap, cluster: string)
    ensures forall n, m :: FirstServer(nm, cluster, n) && FirstServer(nm, cluster, m) ==> n == m
  {
    forall n, m | FirstServer(nm, cluster, n) && FirstServer(nm, cluster, m) ensures n == m {
      if n != m {
        LessTotal(n, m);
      }
    }
  }

  ghost function LeaderAddress(nm: NodeMap, cluster: string, wan: bool): Option<string> {
    if exists n :: FirstServer(nm, cluster, n) then
      var n :| FirstServer(nm, cluster, n);
      if wan then nm[n].PublicAddress() else nm[n].LocalAddress()
    else None
  }

  predicate ListsLocal(nodes: seq<Node>, out: seq<string>) {
    |out| == |nodes| && forall k :: 0 <= k < |nodes| ==> nodes[k].LocalAddress() == Some(out[k])
  }

  predicate ListsPublic(nodes: seq<Node>, out: seq<string>, suffix: string) {
    && |out| == |nodes|
    && forall k :: 0 <= k < |nodes| ==>
         nodes[k].PublicAddress().Some? && out[k] == nodes[k].PublicAddress().value + suffix
  }

  lemma KindNamesListed(nm: NodeMap, kind: NodeKind)
    ensures forall n :: n in SortedOf(KindNames(nm, kind)) <==> n in nm && nm[n].kind == kind
  {
    var s := SortedOf(KindNames(nm, kind));
    assert forall n :: n in s <==> n in Elements(s);
  }

  lemma WalkNamesAreFiled(nm: NodeMap)
    ensures forall n :: n in WalkOrder(nm) ==> n in nm
    ensures forall n :: n in SortedOf(KindNames(nm, Server)) ==> n in nm
  {
    KindNamesListed(nm, Server);
    forall n | n in WalkOrder(nm) ensures n in nm {
      assert n in Elements(SortedOf(KindNames(nm, Infra))) || n in Elements(SortedOf(KindNames(nm, Server)))
          || n in Elements(SortedOf(WorkloadNames(nm)));
    }
  }

  /** A walk meets every node exactly once. */
  lemma WalkVisitsEachOnce(nm: NodeMap)
    requires WellFiled(nm)
    ensures Enumerates(WalkOrder(nm), nm.Keys)
    ensures |WalkOrder(nm)| == |nm|
  {
    var a, b, c := SortedOf(KindNames(nm, Infra)), SortedOf(KindNames(nm, Server)), SortedOf(WorkloadNames(nm));
    var w := WalkOrder(nm);
    AscendingHasNoDuplicates(a);
    AscendingHasNoDuplicates(b);
    AscendingHasNoDuplicates(c);
    assert forall x :: x in a <==> x in Elements(a);
    assert forall x :: x in b <==> x in Elements(b);
    assert forall x :: x in c <==> x in Elements(c);
    assert Elements(w) == nm.Keys;
    forall i, j | 0 <= i < j < |w| ensures w[i] != w[j] {
      if i < |a| {
        assert w[i] in a;
        assert j >= |a| + |b| ==> w[j] in c;
        assert |a| <= j < |a| + |b| ==> w[j] in b;
      } else if i < |a| + |b| {
        assert w[i] in b;
        assert j >= |a| + |b| ==> w[j] in c;
      }
    }
    EnumerationSize(w, nm.Keys);
  }

  function WalkRank(n: Node): nat {
    match n.kind
    case Infra => 0
    case Server => 1
    case _ => 2
  }

  lemma WalkIsOrdered(nm: NodeMap, i: nat, j: nat)
    requires i < j < |WalkOrder(nm)|
    ensures var a, b := WalkOrder(nm)[i], WalkOrder(nm)[j];
            a in nm && b in nm &&
            (WalkRank(nm[a]) < WalkRank(nm[b]) || (WalkRank(nm[a]) == WalkRank(nm[b]) && Less(a, b)))
  {
    var s0, s1, s2 := SortedOf(KindNames(nm, Infra)), SortedOf(KindNames(nm, Server)), SortedOf(WorkloadNames(nm));
    var w := WalkOrder(nm);
    GroupOf(nm, i);
    GroupOf(nm, j);
    if WalkRank(nm[w[i]]) == WalkRank(nm[w[j]]) == 0 {
      assert Less(s0[i], s0[j]);
    } else if WalkRank(nm[w[i]]) == WalkRank(nm[w[j]]) == 1 {
      assert Less(s1[i - |s0|], s1[j - |s0|]);
    } else if WalkRank(nm[w[i]]) == WalkRank(nm[w[j]]) == 2 {
      assert Less(s2[i - |s0| - |s1|], s2[j - |s0| - |s1|]);
    }
  }

  lemma GroupOf(nm: NodeMap, i: nat)
    requires i < |WalkOrder(nm)|
    ensures var s0, s1 := SortedOf(KindNames(nm, Infra)), SortedOf(KindNames(nm, Server));
            var n := WalkOrder(nm)[i];
            n in nm && WalkRank(nm[n]) == if i < |s0| then 0 else if i < |s0| + |s1| then 1 else 2
  {
    var s0, s1, s2 := SortedOf(KindNames(nm, Infra)), SortedOf(KindNames(nm, Server)), SortedOf(WorkloadNames(nm));
    if i < |s0| {
      assert s0[i] in Elements(s0);
    } else if i < |s0| + |s1| {
      assert s1[i - |s0|] in Elements(s1);
    } else {
      assert s2[i - |s0| - |s1|] in Elements(s2);
    }
  }

  /** Everything a topology holds, as a value. */
  datatype View = View(
    shape: NetworkShape,
    link: ClusterLinkMode,
    mode: NodeMode,
    networks: map<string, Network>,
    clusters: seq<ClusterInfo>,
    nm: NodeMap,
    retained: seq<string>)

  class Topology {
    var networkShape: NetworkShape
    var linkMode: ClusterLinkMode
    var nodeMode: NodeMode
    var networks: map<string, Network>
    var clusters: seq<ClusterInfo>
    var nm: NodeMap
    var additionalPrimaryGateways: seq<string>

    constructor (shape: NetworkShape, link: ClusterLinkMode, mode: NodeMode)
      ensures networkShape == shape && linkMode == link && nodeMode == mode
      ensures networks == map[] && clusters == [] && nm == map[] && additionalPrimaryGateways == []
    {
      networkShape, linkMode, nodeMode := shape, link, mode;
      networks, clusters, nm, additionalPrimaryGateways := map[], [], map[], [];
    }

    function Contents(): View reads this {
      View(networkShape, linkMode, nodeMode, networks, clusters, nm, additionalPrimaryGateways)
    }

    predicate FederateWithGateways() reads this { networkShape == Islands }

    method AddNetwork(n: Network)
      modifies this`networks
      ensures networks == old(networks)[n.name := n]
    {
      networks := networks[n.name := n];
    }

    /** Refuses a node without a kind; false is a panic. */
    method AddNode(node: Node) returns (ok: bool)
      modifies this`nm
      ensures ok <==> node.kind != UnknownKind
      ensures nm == if ok then old(nm)[node.name := node] else old(nm)
      ensures old(WellFiled(nm)) ==> WellFiled(nm)
    {
      if node.kind == UnknownKind {
        return false;
      }
      nm := nm[node.name := node];
      return true;
    }

    method AddAdditionalPrimaryGateway(addr: string)
      modifies this`additionalPrimaryGateways
      ensures additionalPrimaryGateways == old(additionalPrimaryGateways) + [addr]
    {
      additionalPrimaryGateways := additionalPrimaryGateways + [addr];
    }

    method SortedNodeKind(kind: NodeKind) returns (o: seq<string>)
      ensures o == SortedOf(KindNames(nm, kind))
    {
      o := [];
      var todo := nm.Keys;
      while todo != {}
        invariant todo <= nm.Keys
        invariant Enumerates(o, KindNames(nm, kind) - todo)
      {
        var name :| name in todo;
        todo := todo - {name};
        if nm[name].kind == kind {
          EnumerateOneMore(o, KindNames(nm, kind) - todo - {name}, name);
          assert KindNames(nm, kind) - todo - {name} == KindNames(nm, kind) - (todo + {name});
          o := o + [name];
          assert KindNames(nm, kind) - (todo + {name}) + {name} == KindNames(nm, kind) - todo;
        } else {
          assert KindNames(nm, kind) - (todo + {name}) == KindNames(nm, kind) - todo;
        }
      }
      assert KindNames(nm, kind) - todo == KindNames(nm, kind);
      o := SortStrings(o, KindNames(nm, kind));
      SortedListUnique(o, SortedOf(KindNames(nm, kind)), KindNames(nm, kind));
    }

    method SortedNodes() returns (o: seq<string>)
      requires WellFiled(nm)
      ensures o == WalkOrder(nm)
    {
      var o1, o2, o3 := [], [], [];
      var todo := nm.Keys;
      ghost var s1, s2, s3 := KindNames(nm, Infra), KindNames(nm, Server), WorkloadNames(nm);
      while todo != {}
        invariant todo <= nm.Keys
        invariant Enumerates(o1, s1 - todo) && Enumerates(o2, s2 - todo) && Enumerates(o3, s3 - todo)
      {
        var name :| name in todo;
        ghost var before := todo;
        todo := todo - {name};
        match nm[name].kind {
          case Infra =>
            EnumerateOneMore(o1, s1 - before, name);
            o1 := o1 + [name];
          case Server =>
            EnumerateOneMore(o2, s2 - before, name);
            o2 := o2 + [name];
          case Client =>
            EnumerateOneMore(o3, s3 - before, name);
            o3 := o3 + [name];
          case Dataplane =>
            EnumerateOneMore(o3, s3 - before, name);
            o3 := o3 + [name];
        }
        assert s1 - todo == s1 - before + (if name in s1 then {name} else {});
        assert s2 - todo == s2 - before + (if name in s2 then {name} else {});
        assert s3 - todo == s3 - before + (if name in s3 then {name} else {});
      }
      assert s1 - todo == s1 && s2 - todo == s2 && s3 - todo == s3;
      o1 := SortStrings(o1, s1);
      o2 := SortStrings(o2, s2);
      o3 := SortStrings(o3, s3);
      SortedListUnique(o1, SortedOf(s1), s1);
      SortedListUnique(o2, SortedOf(s2), s2);
      SortedListUnique(o3, SortedOf(s3), s3);
      o := o1 + o2 + o3;
    }

    /** The address of the cluster's first server in name order; None is a panic. */
    method LeaderIP(cluster: string, wan: bool) returns (ip: Option<string>)
      ensures ip == LeaderAddress(nm, cluster, wan)
    {
      var names := SortedNodeKind(Server);
      KindNamesListed(nm, Server);
      for i := 0 to |names|
        invariant forall k :: 0 <= k < i ==> nm[names[k]].cluster != cluster
      {
        var n := nm[names[i]];
        if n.cluster == cluster {
          forall m | m in nm && nm[m].IsServer() && nm[m].cluster == cluster && m != names[i]
            ensures Less(names[i], m) && !Less(m, names[i])
          {
            assert m in names;
            LessTotal(m, names[i]);
          }
          assert FirstServer(nm, cluster, names[i]);
          FirstServerUnique(nm, cluster);
          return if wan then n.PublicAddress() else n.LocalAddress();
        }
      }
      return None;
    }

    /** The local addresses of the cluster's servers in name order; None is a panic. */
    method ServerIPs(cluster: string) returns (ips: Option<seq<string>>)
      ensures forall n :: n in SortedOf(KindNames(nm, Server)) ==> n in nm
      ensures var servers := Visited(nm, SortedOf(KindNames(nm, Server)), InCluster(cluster));
              if exists n :: n in servers && n.LocalAddress().None? then ips == None
              else ips.Some? && ListsLocal(servers, ips.value)
    {
      var names := SortedNodeKind(Server);
      KindNamesListed(nm, Server);
      hide SortedOf, KindNames, Visited, ListsLocal;
      ips := LocalAddrs(nm, names, cluster);
    }

    /** Where the cluster's mesh gateways answer on the wan, then the retained dead ones. */
    method GatewayAddrs(cluster: string) returns (addrs: Option<seq<string>>)
      requires WellFiled(nm)
      ensures forall n :: n in WalkOrder(nm) ==> n in nm
      ensures var gateways := Visited(nm, WalkOrder(nm), GatewayOf(cluster));
              if exists n :: n in gateways && n.PublicAddress().None? then addrs == None
              else addrs.Some? && |gateways| <= |addrs.value| &&
                   ListsPublic(gateways, addrs.value[..|gateways|], ":8443") &&
                   addrs.value[|gateways|..] == additionalPrimaryGateways
    {
      var names := SortedNodes();
      WalkNamesAreFiled(nm);
      var out := PublicAddrs(nm, names, cluster);
      if out.None? {
        return None;
      }
      assert (out.value + additionalPrimaryGateways)[..|out.value|] == out.value;
      return Some(out.value + additionalPrimaryGateways);
    }
  }

  /** The loop of ServerIPs, run over the names of the servers. */
  method LocalAddrs(nm: NodeMap, names: seq<string>, cluster: string) returns (out: Option<seq<string>>)
    requires forall n :: n in names ==> n in nm
    ensures var servers := Visited(nm, names, InCluster(cluster));
            if exists n :: n in servers && n.LocalAddress().None? then out == None
            else out.Some? && ListsLocal(servers, out.value)
  {
    ghost var keep := InCluster(cluster);
    var addrs := [];
    for i := 0 to |names|
      invariant ListsLocal(Visited(nm, names[..i], keep), addrs)
    {
      VisitedExtend(nm, names, i, keep);
      var n := nm[names[i]];
      if n.cluster == cluster {
        if n.LocalAddress().None? {
          assert n in Visited(nm, names, keep);
          return None;
        }
        addrs := addrs + [n.LocalAddress().value];
      }
    }
    assert names[..|names|] == names;
    return Some(addrs);
  }

  /** The callback of GatewayAddrs, run over the names of a walk. */
  method PublicAddrs(nm: NodeMap, names: seq<string>, cluster: string) returns (out: Option<seq<string>>)
    requires forall n :: n in names ==> n in nm
    ensures var gateways := Visited(nm, names, GatewayOf(cluster));
            if exists n :: n in gateways && n.PublicAddress().None? then out == None
            else out.Some? && ListsPublic(gateways, out.value, ":8443")
  {
    ghost var keep := GatewayOf(cluster);
    var addrs := [];
    for i := 0 to |names|
      invariant ListsPublic(Visited(nm, names[..i], keep), addrs, ":8443")
    {
      VisitedExtend(nm, names, i, keep);
      var n := nm[names[i]];
      if n.kind == Client || n.kind == Dataplane {
        if n.cluster == cluster && n.meshGateway {
          if n.PublicAddress().None? {
            assert n in Visited(nm, names, keep);
            return None;
          }
          addrs := addrs + [n.PublicAddress().value + ":8443"];
        }
      }
    }
    assert names[..|names|] == names;
    return Some(addrs);
  }
}
