/** Node names and node counts of a compiled topology. */
module NameFacts {
  import opened Text
  import opened Sorting
  import opened Config
  import opened Infra
  import opened Compile

  /** What the compiler makes of an acceptable cluster. */
  predicate GoodInfo(c: ClusterInfo) {
    && ClusterNameOk(c.name) && c.index == ClusterIndex(c.name)
    && c.servers > 0 && 0 < c.clients <= 50 && 0 <= c.meshGateways
    && c.baseIP == "10.0." + Itoa(c.index) && c.wanBaseIP == "10.1." + Itoa(c.index)
  }

  predicate GoodInfos(cs: seq<ClusterInfo>) { forall c :: c in cs ==> GoodInfo(c) }

  lemma CompiledInfosAreGood(cfg: Config, v: View)
    requires Compilable(cfg) && IsCompiled(cfg, v)
    ensures GoodInfos(InfosOf(cfg.linkMode == "peer", cfg.clusters)) && GoodInfos(v.clusters)
  {
    var infos := InfosOf(cfg.linkMode == "peer", cfg.clusters);
    SortedInfosSameMembers(infos, v.clusters);
    forall c | c in infos ensures GoodInfo(c) {
      var i :| 0 <= i < |infos| && infos[i] == c;
      assert infos[i] == InfoOf(cfg.linkMode == "peer", cfg.clusters[i]);
    }
  }

  predicate DistinctNames(cs: seq<ClusterInfo>) { forall i, j :: 0 <= i < j < |cs| ==> cs[i].name != cs[j].name }

  lemma {:induction false} SlotsMembership(env: Env, cs: seq<ClusterInfo>, s: Slot)
    ensures s in Slots(env, cs) <==> s.cluster in cs && s in SlotsOf(env, s.cluster)
  {
    hide SlotsOf;
    if cs != [] {
      var rest, last := cs[..|cs| - 1], cs[|cs| - 1];
      assert cs == rest + [last];
      SlotsMembership(env, rest, s);
      SlotOfItsCluster(env, last, s);
    }
  }

  lemma SlotOfItsCluster(env: Env, c: ClusterInfo, s: Slot)
    ensures s in SlotsOf(env, c) ==> s.cluster == c && s.idx >= 1
  {
  }

  // ---------------------------------------------------------------- names

  lemma ClusterNameLacksDash(name: string)
    requires ClusterNameOk(name)
    ensures Lacks(name, '-')
  {
    forall i | 0 <= i < |name| ensures name[i] != '-' {
      if i >= 2 {
        assert name[i] == name[2..][i - 2];
      } else {
        assert name[i] == name[..2][i];
      }
    }
  }

  /** A node name gives away its cluster, its role and its number. */
  lemma NodeNameInjective(a: string, r: Role, i: nat, b: string, q: Role, j: nat)
    requires ClusterNameOk(a) && ClusterNameOk(b)
    requires NodeName(a, r, i) == NodeName(b, q, j)
    ensures a == b && r == q && i == j
  {
    hide ClusterNameOk, Itoa;
    ClusterNameLacksDash(a);
    ClusterNameLacksDash(b);
    var ra, rb := RoleName(r) + Itoa(i), RoleName(q) + Itoa(j);
    assert NodeName(a, r, i) == a + ['-'] + ra && NodeName(b, q, j) == b + ['-'] + rb;
    JoinInjective(a, ra, b, rb, '-');
    assert ra[0] == RoleName(r)[0] && rb[0] == RoleName(q)[0];
    assert r == q;
    var n := |RoleName(r)|;
    assert Itoa(i) == ra[n..] == rb[n..] == Itoa(j);
    ItoaInjective(i, j);
  }

  lemma MemberByName(cs: seq<ClusterInfo>, c: ClusterInfo, d: ClusterInfo)
    requires DistinctNames(cs) && c in cs && d in cs && c.name == d.name
    ensures c == d
  {
    var i :| 0 <= i < |cs| && cs[i] == c;
    var j :| 0 <= j < |cs| && cs[j] == d;
    assert i == j;
  }

  /** With distinct cluster names, no two slots share a node name. */
  lemma SlotNamesInjective(env: Env, cs: seq<ClusterInfo>, s: Slot, t: Slot)
    requires GoodInfos(cs) && DistinctNames(cs)
    requires s in Slots(env, cs) && t in Slots(env, cs) && SlotName(s) == SlotName(t)
    ensures s == t
  {
    hide Slots, SlotsOf, GoodInfo, DistinctNames, NodeName;
    SlotsMembership(env, cs, s);
    SlotsMembership(env, cs, t);
    GoodNames(cs);
    NodeNameInjective(s.cluster.name, s.role, s.idx, t.cluster.name, t.role, t.idx);
    MemberByName(cs, s.cluster, t.cluster);
  }

  lemma GoodNames(cs: seq<ClusterInfo>)
    requires GoodInfos(cs)
    ensures forall c :: c in cs ==> ClusterNameOk(c.name)
  {
    forall c | c in cs ensures ClusterNameOk(c.name) {
      assert GoodInfo(c);
    }
  }

  /** Hence the map files every slot's own node under its name. */
  lemma SlotIsFiled(env: Env, cs: seq<ClusterInfo>, nm: NodeMap, s: Slot)
    requires GoodInfos(cs) && DistinctNames(cs) && Holds(env, Slots(env, cs), nm) && s in Slots(env, cs)
    ensures SlotName(s) in nm && nm[SlotName(s)] == SlotNode(env, s)
  {
    hide Slots, SlotNode, GoodInfos, DistinctNames;
    assert SlotName(s) in nm;
    var t := HoldsAt(env, Slots(env, cs), nm, SlotName(s));
    SlotNamesInjective(env, cs, s, t);
  }

  // ---------------------------------------------------------------- counts

  function DeadClients(env: Env, c: ClusterInfo, upTo: int): nat {
    if upTo <= 0 then 0 else DeadClients(env, c, upTo - 1) + (if Dead(env, c, upTo) then 1 else 0)
  }

  /** Servers, one infra pod, and the clients (gateways included) that are not dead. */
  function NodeCount(env: Env, cs: seq<ClusterInfo>): int {
    if cs == [] then 0
    else
      var c := cs[|cs| - 1];
      NodeCount(env, cs[..|cs| - 1]) + c.servers + 1 + c.clients - DeadClients(env, c, c.clients)
  }

  lemma {:induction false} CountServers(c: ClusterInfo, upTo: nat)
    ensures |ServerSlots(c, upTo)| == upTo
  {
    if upTo == 0 {
      assert ServerSlots(c, 0) == {};
    } else {
      CountServers(c, upTo - 1);
      assert ServerSlots(c, upTo) == ServerSlots(c, upTo - 1) + {Slot(c, ServerRole, upTo)};
    }
  }

  lemma {:induction false} CountClients(env: Env, c: ClusterInfo, upTo: nat)
    ensures |ClientSlots(env, c, upTo)| == upTo - DeadClients(env, c, upTo)
  {
    hide Dead;
    if upTo == 0 {
      assert ClientSlots(env, c, 0) == {};
    } else {
      CountClients(env, c, upTo - 1);
      ClientSlotsStep(env, c, upTo, {});
      var before, after := ClientSlots(env, c, upTo - 1), ClientSlots(env, c, upTo);
      assert {} + before == before && {} + after == after;
      assert Slot(c, ClientRole, upTo) !in before;
    }
  }

  lemma CountSlotsOf(env: Env, c: ClusterInfo)
    requires c.servers >= 0 && c.clients >= 0
    ensures |SlotsOf(env, c)| == c.servers + 1 + c.clients - DeadClients(env, c, c.clients)
  {
    hide Dead, DeadClients;
    CountServers(c, c.servers);
    CountClients(env, c, c.clients);
    var a, b, d := ServerSlots(c, c.servers), {Slot(c, InfraRole, 1)}, ClientSlots(env, c, c.clients);
    assert a * b == {} && (a + b) * d == {};
    assert |a + b| == |a| + 1;
    assert |a + b + d| == |a + b| + |d|;
  }

  lemma {:induction false} CountSlots(env: Env, cs: seq<ClusterInfo>)
    requires GoodInfos(cs) && DistinctNames(cs)
    ensures |Slots(env, cs)| == NodeCount(env, cs)
  {
    hide SlotsOf, DeadClients;
    if cs != [] {
      var rest, last := cs[..|cs| - 1], cs[|cs| - 1];
      assert cs == rest + [last] && GoodInfo(last);
      CountSlots(env, rest);
      CountSlotsOf(env, last);
      forall s | s in Slots(env, rest) ensures s !in SlotsOf(env, last) {
        SlotsMembership(env, rest, s);
        SlotOfItsCluster(env, last, s);
        assert last !in rest;
      }
      assert Slots(env, rest) * SlotsOf(env, last) == {};
    }
  }

  lemma {:induction false} InjectiveImageSize(S: set<Slot>)
    requires forall s, t :: s in S && t in S && SlotName(s) == SlotName(t) ==> s == t
    ensures |set s | s in S :: SlotName(s)| == |S|
  {
    hide SlotName;
    if S == {} {
      assert (set s | s in S :: SlotName(s)) == {};
    } else {
      var x :| x in S;
      var rest := S - {x};
      InjectiveImageSize(rest);
      assert (set s | s in S :: SlotName(s)) == (set s | s in rest :: SlotName(s)) + {SlotName(x)};
      assert SlotName(x) !in set s | s in rest :: SlotName(s);
    }
  }

  /** No node is lost or doubled: the map has exactly the configured number of nodes. */
  lemma NodesAreConserved(cfg: Config, v: View)
    requires Compilable(cfg) && IsCompiled(cfg, v) && DistinctNames(v.clusters)
    ensures |v.nm| == NodeCount(EnvOf(cfg), v.clusters)
    ensures Enumerates(WalkOrder(v.nm), v.nm.Keys)
  {
    CompiledInfosAreGood(cfg, v);
    var env := EnvOf(cfg);
    ConservedNodes(env, v.clusters, v.nm);
    HoldsIsWellFiled(env, Slots(env, v.clusters), v.nm);
    WalkVisitsEachOnce(v.nm);
  }

  lemma ConservedNodes(env: Env, cs: seq<ClusterInfo>, nm: NodeMap)
    requires GoodInfos(cs) && DistinctNames(cs) && Holds(env, Slots(env, cs), nm)
    ensures |nm| == NodeCount(env, cs)
  {
    var S := Slots(env, cs);
    assert nm.Keys == set s | s in S :: SlotName(s);
    hide Slots, SlotName, GoodInfos, DistinctNames, NodeCount, Holds;
    forall s, t | s in S && t in S && SlotName(s) == SlotName(t) ensures s == t {
      SlotNamesInjective(env, cs, s, t);
    }
    InjectiveImageSize(S);
    CountSlots(env, cs);
    assert |nm| == |nm.Keys|;
  }

  // ---------------------------------------------------------------- the leader

  /** server1 comes first in name order among its cluster's servers, however many there are. */
  lemma ServerOneComesFirst(env: Env, cs: seq<ClusterInfo>, nm: NodeMap, c: ClusterInfo)
    requires GoodInfos(cs) && Holds(env, Slots(env, cs), nm) && c in cs
    ensures FirstServer(nm, c.name, NodeName(c.name, ServerRole, 1))
  {
    hide Holds, Slots, NodeName;
    var first := NodeName(c.name, ServerRole, 1);
    ServerSlotFiled(env, cs, nm, c, 1);
    forall m | m in nm && nm[m].IsServer() && nm[m].cluster == c.name && m != first ensures Less(first, m) {
      var s := HoldsAt(env, Slots(env, cs), nm, m);
      ServerNodeSlot(env, s);
      SlotsMembership(env, cs, s);
      SlotOfItsCluster(env, s.cluster, s);
      NumberedServersAscend(c.name, s.idx);
    }
  }

  lemma ServerNodeSlot(env: Env, s: Slot)
    ensures SlotNode(env, s).IsServer() <==> s.role == ServerRole
    ensures SlotNode(env, s).cluster == s.cluster.name
  {
  }

  lemma NumberedServersAscend(name: string, i: nat)
    requires i >= 1
    ensures i == 1 || Less(NodeName(name, ServerRole, 1), NodeName(name, ServerRole, i))
  {
    if i > 1 {
      OneIsLeastNumeral(i);
      assert Itoa(1) == "1";
      hide Itoa;
      LessAfterPrefix(name + "-" + "server", "1", Itoa(i));
    }
  }

  /** A server slot is filed as a server of its cluster with its own local address, even if names repeat. */
  lemma ServerSlotFiled(env: Env, cs: seq<ClusterInfo>, nm: NodeMap, c: ClusterInfo, i: nat)
    requires GoodInfos(cs) && Holds(env, Slots(env, cs), nm) && c in cs && 1 <= i <= c.servers
    ensures var name := NodeName(c.name, ServerRole, i);
            name in nm && nm[name].IsServer() && nm[name].cluster == c.name &&
            nm[name].LocalAddress() == Some(c.baseIP + "." + Itoa(10 + i)) &&
            nm[name].PublicAddress() == if OnWan(env, Slot(c, ServerRole, i))
                                        then Some(c.wanBaseIP + "." + Itoa(10 + i)) else None
  {
    hide Holds, Slots, SlotsOf, SlotNode, GoodInfo, Itoa, OnWan, NodeName, FirstOn;
    var s := Slot(c, ServerRole, i);
    var t := FiledAs(env, cs, nm, s);
    hide GoodInfos;
    SameNameSameServer(env, s, t);
  }

  /** Some slot of the same name is filed where a server slot belongs. */
  lemma FiledAs(env: Env, cs: seq<ClusterInfo>, nm: NodeMap, s: Slot) returns (t: Slot)
    requires Holds(env, Slots(env, cs), nm) && s.cluster in cs && s in ServerSlots(s.cluster, s.cluster.servers)
    ensures SlotName(s) in nm && SlotName(t) == SlotName(s) && nm[SlotName(s)] == SlotNode(env, t) && t.cluster in cs
  {
    hide SlotNode, SlotName;
    SlotsMembership(env, cs, s);
    assert SlotName(s) in nm;
    t := HoldsAt(env, Slots(env, cs), nm, SlotName(s));
    SlotsMembership(env, cs, t);
  }

  lemma SameNameSameServer(env: Env, s: Slot, t: Slot)
    requires GoodInfo(s.cluster) && GoodInfo(t.cluster) && SlotName(s) == SlotName(t) && s.role == ServerRole
    ensures SlotNode(env, t).IsServer() && SlotNode(env, t).cluster == s.cluster.name
    ensures SlotNode(env, t).LocalAddress() == Some(s.cluster.baseIP + "." + Itoa(10 + s.idx))
    ensures SlotNode(env, t).PublicAddress() == if OnWan(env, s)
                                                then Some(s.cluster.wanBaseIP + "." + Itoa(10 + s.idx)) else None
  {
    hide Itoa, NodeName, ClusterNameOk, ClusterIndex;
    NodeNameInjective(s.cluster.name, s.role, s.idx, t.cluster.name, t.role, t.idx);
    assert s.cluster.index == t.cluster.index;
    SlotNodeNamed(env, t);
    LocalAddressOfSlot(env, t);
    NameIsNotReserved(t.cluster.name);
    PublicAddressOfSlot(env, t);
  }

  lemma NameIsNotReserved(name: string)
    requires ClusterNameOk(name)
    ensures name != WAN && name != LAN
  {
    assert name[0] == name[..2][0];
    assert WAN[0] == 'w' && LAN[0] == 'l';
  }

  lemma LocalAddressOfSlot(env: Env, s: Slot)
    ensures FirstOn(SlotAddresses(env, s), {s.cluster.name, LAN})
         == Some(LanAddress(env, s.cluster, s.role, s.idx).ip)
  {
    hide Octet;
  }

  /** LeaderIP of a configured cluster never panics for the local address: it is server1's. */
  lemma LeaderIsServerOne(cfg: Config, v: View, c: ClusterInfo)
    requires Compilable(cfg) && IsCompiled(cfg, v) && c in v.clusters
    ensures var first := NodeName(c.name, ServerRole, 1);
            FirstServer(v.nm, c.name, first) &&
            v.nm[first].LocalAddress() == Some(c.baseIP + ".11") &&
            v.nm[first].PublicAddress() ==
              if OnWan(EnvOf(cfg), Slot(c, ServerRole, 1)) then Some(c.wanBaseIP + ".11") else None
  {
    CompiledInfosAreGood(cfg, v);
    assert GoodInfo(c);
    hide IsCompiled, GoodInfos, GoodInfo, Compilable, OnWan, Itoa, NodeName, Holds, Slots, EnvOf;
    CompiledHolds(cfg, v);
    ServerOneComesFirst(EnvOf(cfg), v.clusters, v.nm, c);
    ServerSlotFiled(EnvOf(cfg), v.clusters, v.nm, c, 1);
    DotEleven(c.baseIP);
    DotEleven(c.wanBaseIP);
  }

  /** So LeaderIP answers with server1's addresses. */
  lemma LeaderAddressOfCluster(cfg: Config, v: View, c: ClusterInfo)
    requires Compilable(cfg) && IsCompiled(cfg, v) && c in v.clusters
    ensures LeaderAddress(v.nm, c.name, false) == Some(c.baseIP + ".11")
    ensures LeaderAddress(v.nm, c.name, true) ==
              if OnWan(EnvOf(cfg), Slot(c, ServerRole, 1)) then Some(c.wanBaseIP + ".11") else None
  {
    hide IsCompiled, Compilable, OnWan, FirstServer, EnvOf, NodeName;
    LeaderIsServerOne(cfg, v, c);
    FirstServerUnique(v.nm, c.name);
  }

  lemma DotEleven(base: string)
    ensures base + "." + Itoa(11) == base + ".11"
  {
    assert Itoa(11) == Itoa(1) + "1" && Itoa(1) == "1";
    assert base + "." + "11" == base + ".11";
  }

  /** The nodes of a compiled topology are those of its slots. */
  lemma CompiledHolds(cfg: Config, v: View)
    requires Compilable(cfg) && IsCompiled(cfg, v)
    ensures Holds(EnvOf(cfg), Slots(EnvOf(cfg), v.clusters), v.nm)
  {
  }

  /** Without enterprise no node entry may leave the default tenancy. */
  lemma SettingsAreUntenanted(cfg: Config, env: Env, name: string)
    requires NodesOk(cfg) && !cfg.enterpriseEnabled && env.nodes == cfg.nodes
    ensures var n := SettingsOf(env, name);
            n.partition == "" && n.upstreamPartition == "" && n.serviceNamespace == "" && n.upstreamNamespace == ""
  {
    FindNodeFinds(env.nodes, name);
    var n := SettingsOf(env, name);
    if n in cfg.nodes {
      var i :| 0 <= i < |cfg.nodes| && cfg.nodes[i] == n;
      assert NodeOk(cfg, cfg.nodes[i]);
    }
  }

  // ---------------------------------------------------------------- repeated cluster names

  /** Adding a cluster leaves the nodes of the other names alone. */
  lemma {:induction false} ServersElsewhere(env: Env, nm: NodeMap, c: ClusterInfo, upTo: int, name: string)
    requires forall i: nat :: name != NodeName(c.name, ServerRole, i)
    ensures name in WithServers(env, nm, c, upTo) <==> name in nm
    ensures name in nm ==> WithServers(env, nm, c, upTo)[name] == nm[name]
  {
    hide SlotNode, NodeName;
    if upTo > 0 {
      ServersElsewhere(env, nm, c, upTo - 1, name);
    }
  }

  lemma {:induction false} ClientsElsewhere(env: Env, nm: NodeMap, c: ClusterInfo, upTo: int, name: string)
    requires forall i: nat :: name != NodeName(c.name, ClientRole, i)
    ensures name in WithClients(env, nm, c, upTo) <==> name in nm
    ensures name in nm ==> WithClients(env, nm, c, upTo)[name] == nm[name]
  {
    hide SlotNode, NodeName, Dead;
    if upTo > 0 {
      ClientsElsewhere(env, nm, c, upTo - 1, name);
    }
  }

  lemma ClusterElsewhere(env: Env, nm: NodeMap, c: ClusterInfo, name: string)
    requires forall r: Role, i: nat :: name != NodeName(c.name, r, i)
    ensures name in WithCluster(env, nm, c) <==> name in nm
    ensures name in nm ==> WithCluster(env, nm, c)[name] == nm[name]
  {
    hide SlotNode, NodeName, WithServers, WithClients;
    ServersElsewhere(env, nm, c, c.servers, name);
    ClientsElsewhere(env, WithSlot(env, WithServers(env, nm, c, c.servers), Slot(c, InfraRole, 1)), c, c.clients, name);
  }

  lemma {:induction false} ServerIsAdded(env: Env, nm: NodeMap, c: ClusterInfo, upTo: int, i: nat)
    requires ClusterNameOk(c.name) && 1 <= i <= upTo
    ensures var name, after := NodeName(c.name, ServerRole, i), WithServers(env, nm, c, upTo);
            name in after && after[name] == SlotNode(env, Slot(c, ServerRole, i))
  {
    hide SlotNode, NodeName, ClusterNameOk;
    if i < upTo {
      ServerIsAdded(env, nm, c, upTo - 1, i);
      if NodeName(c.name, ServerRole, i) == NodeName(c.name, ServerRole, upTo) {
        NodeNameInjective(c.name, ServerRole, i, c.name, ServerRole, upTo);
      }
    }
  }

  lemma {:induction false} ClientIsAdded(env: Env, nm: NodeMap, c: ClusterInfo, upTo: int, i: nat)
    requires ClusterNameOk(c.name) && 1 <= i <= upTo && !Dead(env, c, i)
    ensures var name, after := NodeName(c.name, ClientRole, i), WithClients(env, nm, c, upTo);
            name in after && after[name] == SlotNode(env, Slot(c, ClientRole, i))
  {
    hide SlotNode, NodeName, ClusterNameOk, Dead;
    if i < upTo {
      ClientIsAdded(env, nm, c, upTo - 1, i);
      if NodeName(c.name, ClientRole, i) == NodeName(c.name, ClientRole, upTo) {
        NodeNameInjective(c.name, ClientRole, i, c.name, ClientRole, upTo);
      }
    }
  }

  /** Once a cluster is added, all its places hold its own nodes. */
  lemma ClusterIsAdded(env: Env, nm: NodeMap, s: Slot)
    requires ClusterNameOk(s.cluster.name) && s in SlotsOf(env, s.cluster)
    ensures var after := WithCluster(env, nm, s.cluster); SlotName(s) in after && after[SlotName(s)] == SlotNode(env, s)
  {
    var c := s.cluster;
    var servers := WithServers(env, nm, c, c.servers);
    var both := WithSlot(env, servers, Slot(c, InfraRole, 1));
    SlotRange(env, s);
    hide SlotNode, NodeName, ClusterNameOk, WithServers, WithClients, SlotsOf, Dead;
    if s.role == ClientRole {
      ClientIsAdded(env, both, c, c.clients, s.idx);
    } else {
      forall i: nat ensures SlotName(s) != NodeName(c.name, ClientRole, i) {
        if SlotName(s) == NodeName(c.name, ClientRole, i) {
          NodeNameInjective(c.name, s.role, s.idx, c.name, ClientRole, i);
        }
      }
      ClientsElsewhere(env, both, c, c.clients, SlotName(s));
      if s.role == ServerRole {
        ServerIsAdded(env, nm, c, c.servers, s.idx);
        if SlotName(s) == NodeName(c.name, InfraRole, 1) {
          NodeNameInjective(c.name, s.role, s.idx, c.name, InfraRole, 1);
        }
      }
    }
  }

  lemma SlotRange(env: Env, s: Slot)
    requires s in SlotsOf(env, s.cluster)
    ensures match s.role
            case ServerRole => 1 <= s.idx <= s.cluster.servers
            case InfraRole => s.idx == 1
            case ClientRole => 1 <= s.idx <= s.cluster.clients && !Dead(env, s.cluster, s.idx)
  {
    hide Dead;
  }

  /** The last cluster of a name is the one whose nodes the topology keeps, each at its own place. */
  lemma {:induction false} LastOfANameStays(env: Env, cs: seq<ClusterInfo>, k: nat, s: Slot)
    requires GoodInfos(cs) && k < |cs| && s.cluster == cs[k] && s in SlotsOf(env, cs[k])
    requires forall j :: k < j < |cs| ==> cs[j].name != cs[k].name
    ensures SlotName(s) in NodesOf(env, cs) && NodesOf(env, cs)[SlotName(s)] == SlotNode(env, s)
  {
    hide SlotNode, NodeName, SlotsOf, GoodInfos, ClusterNameOk, WithCluster;
    GoodNames(cs);
    var n := |cs| - 1;
    var rest, last := cs[..n], cs[n];
    assert last in cs && cs[k] in cs;
    if k == n {
      ClusterIsAdded(env, NodesOf(env, rest), s);
    } else {
      GoodPrefix(cs, n);
      LastOfANameStays(env, rest, k, s);
      forall r: Role, i: nat ensures SlotName(s) != NodeName(last.name, r, i) {
        if SlotName(s) == NodeName(last.name, r, i) {
          NodeNameInjective(s.cluster.name, s.role, s.idx, last.name, r, i);
        }
      }
      ClusterElsewhere(env, NodesOf(env, rest), last, SlotName(s));
    }
  }

  lemma GoodPrefix(cs: seq<ClusterInfo>, n: nat)
    requires GoodInfos(cs) && n <= |cs|
    ensures GoodInfos(cs[..n])
  {
    assert cs == cs[..n] + cs[n..];
  }
}
