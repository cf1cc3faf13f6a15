/** app/boot.go: the boot sequence as a script, and why it releases no token too early. */
module BootScript {
  import opened Sorting
  import opened Identifiers
  import opened Config
  import opened Infra
  import opened TokenProtocol

  // ---------------------------------------------------------------- who is concerned

  /** The names of a cluster's servers in walk order. */
  function ServerList(walk: seq<Node>, cluster: string): seq<string> {
    if walk == [] then []
    else
      var n := walk[|walk| - 1];
      ServerList(walk[..|walk| - 1], cluster) + if n.cluster == cluster && n.IsServer() then [n.name] else []
  }

  /** The cluster's servers and clients. */
  function AgentList(walk: seq<Node>, cluster: string): seq<Node> {
    if walk == [] then []
    else
      var n := walk[|walk| - 1];
      AgentList(walk[..|walk| - 1], cluster) + if n.cluster == cluster && n.IsAgent() then [n] else []
  }

  /** The cluster's services, each once. */
  function ServiceList(walk: seq<Node>, cluster: string): seq<Identifier> {
    if walk == [] then []
    else
      var n := walk[|walk| - 1];
      var rest := ServiceList(walk[..|walk| - 1], cluster);
      if n.cluster == cluster && n.service.Some? && n.service.value.id !in rest then rest + [n.service.value.id] else rest
  }

  /** The servers outside the primary cluster. */
  function SecondaryServers(walk: seq<Node>): seq<Node> {
    if walk == [] then []
    else
      var n := walk[|walk| - 1];
      SecondaryServers(walk[..|walk| - 1]) + if n.cluster != PRIMARY_CLUSTER && n.IsServer() then [n] else []
  }

  // ---------------------------------------------------------------- the pieces of the script

  function WaitAll(servers: seq<string>, n: TokenName): seq<Action> {
    seq(|servers|, i requires 0 <= i < |servers| => Wait(servers[i], n))
  }

  function AgentsNow(nodes: seq<Node>): seq<Action> {
    if nodes == [] then []
    else
      var n := nodes[|nodes| - 1].name;
      AgentsNow(nodes[..|nodes| - 1]) + [Create(Agent(n)), SetToken(AgentKey(n), Agent(n))]
  }

  function AgentsDelay(servers: seq<string>, nodes: seq<Node>): seq<Action> {
    if nodes == [] then []
    else AgentsDelay(servers, nodes[..|nodes| - 1]) + WaitAll(servers, Agent(nodes[|nodes| - 1].name))
  }

  function ServicesNow(cluster: string, ids: seq<Identifier>): seq<Action> {
    if ids == [] then [] else ServicesNow(cluster, ids[..|ids| - 1]) + [Create(ServiceToken(cluster, ids[|ids| - 1]))]
  }

  function ServicesDelay(servers: seq<string>, cluster: string, ids: seq<Identifier>): seq<Action> {
    if ids == [] then []
    else
      var n := ServiceToken(cluster, ids[|ids| - 1]);
      ServicesDelay(servers, cluster, ids[..|ids| - 1]) + (WaitAll(servers, n) + [Save(n)])
  }

  function GatewayDelay(servers: seq<string>, cluster: string): seq<Action> {
    WaitAll(servers, MeshGateway(cluster)) + [Save(MeshGateway(cluster))]
  }

  function ReplicationScript(walk: seq<Node>): seq<Action> {
    [Create(Replication), SetToken(ReplicationKey, Replication)] + WaitAll(ServerList(walk, PRIMARY_CLUSTER), Replication)
  }

  datatype Setup = Setup(link: ClusterLinkMode, aclsDisabled: bool, kubernetes: bool, primaryOnly: bool)

  /** The end of initPrimaryCluster. */
  function PrimaryServices(walk: seq<Node>, setup: Setup, c: string): seq<Action> {
    if setup.kubernetes then
      if setup.link == Peer then [Refuse] else []
    else
      ServicesNow(c, ServiceList(walk, c)) + ServicesDelay(ServerList(walk, c), c, ServiceList(walk, c))
  }

  /** initPrimaryCluster: tokens are released cluster by cluster as soon as each kind has been waited for. */
  function PrimaryScript(walk: seq<Node>, setup: Setup, c: string): seq<Action> {
    if setup.aclsDisabled then [MakeClients(c)]
    else
      var servers, agents := ServerList(walk, c), AgentList(walk, c);
      [MakeClients(c)]
      + (if setup.link == Federate then ReplicationScript(walk) else [])
      + ([Create(MeshGateway(c))] + GatewayDelay(servers, c))
      + (AgentsNow(agents) + AgentsDelay(servers, agents))
      + [InjectLoop(agents), Create(Anonymous)]
      + PrimaryServices(walk, setup, c)
  }

  /** One round of initSecondaryDCs: all tokens are created first, and released only after the waits. */
  function SecondaryScript(walk: seq<Node>, setup: Setup, c: string): seq<Action> {
    if setup.aclsDisabled then [MakeClients(c)]
    else
      var servers, agents, ids := ServerList(walk, c), AgentList(walk, c), ServiceList(walk, c);
      [MakeClients(c), Create(MeshGateway(c))] + AgentsNow(agents)
      + (if setup.kubernetes then [Refuse]
         else ServicesNow(c, ids) + WaitAll(servers, Master) + GatewayDelay(servers, c) + AgentsDelay(servers, agents)
              + ServicesDelay(servers, c, ids) + [InjectLoop(agents)])
  }

  function SecondaryScripts(walk: seq<Node>, setup: Setup, cs: seq<string>): seq<Action> {
    if cs == [] then []
    else
      SecondaryScripts(walk, setup, cs[..|cs| - 1]) +
      if cs[|cs| - 1] == PRIMARY_CLUSTER then [] else SecondaryScript(walk, setup, cs[|cs| - 1])
  }

  function PrimaryScripts(walk: seq<Node>, setup: Setup, cs: seq<string>): seq<Action> {
    if cs == [] then []
    else PrimaryScripts(walk, setup, cs[..|cs| - 1]) + PrimaryScript(walk, setup, cs[|cs| - 1])
  }

  function ReplicationHandout(nodes: seq<Node>): seq<Action> {
    seq(|nodes|, i requires 0 <= i < |nodes| => InjectReplication(nodes[i]))
  }

  function Handout(walk: seq<Node>, setup: Setup): seq<Action> {
    if setup.aclsDisabled then [] else [MustGet(ReplicationKey)] + ReplicationHandout(SecondaryServers(walk))
  }

  /** The token part of runBoot, once the master token is known. */
  function BootActions(walk: seq<Node>, setup: Setup, cs: seq<string>): seq<Action> {
    match setup.link
    case Peer => if setup.primaryOnly then [Refuse] else PrimaryScripts(walk, setup, cs)
    case Federate =>
      PrimaryScript(walk, setup, PRIMARY_CLUSTER) +
      if setup.primaryOnly || |cs| <= 1 then []
      else Handout(walk, setup) + SecondaryScripts(walk, setup, cs)
  }

  // ---------------------------------------------------------------- the same, as the loops that emit it

  method WaitForTokenOnServers(walk: seq<Node>, cluster: string, n: TokenName) returns (script: seq<Action>)
    ensures script == WaitAll(ServerList(walk, cluster), n)
  {
    script := [];
    for i := 0 to |walk|
      invariant script == WaitAll(ServerList(walk[..i], cluster), n)
    {
      assert walk[..i + 1][..i] == walk[..i];
      var node := walk[i];
      if node.cluster != cluster || !node.IsServer() {
        continue;
      }
      script := script + [Wait(node.name, n)];
    }
    assert walk[..|walk|] == walk;
  }

  /** delayFuncs: running the collected closures in order is running their concatenation. */
  function DelayFuncs(funcs: seq<seq<Action>>): seq<Action> {
    if funcs == [] then [] else DelayFuncs(funcs[..|funcs| - 1]) + funcs[|funcs| - 1]
  }

  lemma OneMoreAgent(walk: seq<Node>, i: nat, c: string, servers: seq<string>)
    requires i < |walk|
    ensures var n, ns := walk[i], AgentList(walk[..i], c);
            AgentList(walk[..i + 1], c) == (if n.cluster == c && n.IsAgent() then ns + [n] else ns) &&
            AgentsNow(ns + [n]) == AgentsNow(ns) + [Create(Agent(n.name)), SetToken(AgentKey(n.name), Agent(n.name))] &&
            AgentsDelay(servers, ns + [n]) == AgentsDelay(servers, ns) + WaitAll(servers, Agent(n.name))
  {
    var n, ns := walk[i], AgentList(walk[..i], c);
    assert walk[..i + 1][..i] == walk[..i];
    assert (ns + [n])[..|ns|] == ns;
  }

  lemma OneMoreService(walk: seq<Node>, i: nat, c: string)
    requires i < |walk|
    ensures var n, ids := walk[i], ServiceList(walk[..i], c);
            ServiceList(walk[..i + 1], c) ==
              if n.cluster == c && n.service.Some? && n.service.value.id !in ids then ids + [n.service.value.id] else ids
  {
    assert walk[..i + 1][..i] == walk[..i];
  }

  lemma OneMoreServiceScript(c: string, ids: seq<Identifier>, id: Identifier, servers: seq<string>)
    ensures ServicesNow(c, ids + [id]) == ServicesNow(c, ids) + [Create(ServiceToken(c, id))]
    ensures ServicesDelay(servers, c, ids + [id]) == ServicesDelay(servers, c, ids) +
              (WaitAll(servers, ServiceToken(c, id)) + [Save(ServiceToken(c, id))])
  {
    assert (ids + [id])[..|ids|] == ids;
  }

  lemma OneMoreFunc(funcs: seq<seq<Action>>, fn: seq<Action>)
    ensures DelayFuncs(funcs + [fn]) == DelayFuncs(funcs) + fn
  {
    assert (funcs + [fn])[..|funcs|] == funcs;
  }

  method CreateAgentTokensDelayWrite(walk: seq<Node>, cluster: string) returns (now: seq<Action>, delay: seq<Action>)
    ensures now == AgentsNow(AgentList(walk, cluster))
    ensures delay == AgentsDelay(ServerList(walk, cluster), AgentList(walk, cluster))
  {
    now := [];
    var funcs: seq<seq<Action>> := [];
    ghost var servers := ServerList(walk, cluster);
    for i := 0 to |walk|
      invariant now == AgentsNow(AgentList(walk[..i], cluster))
      invariant DelayFuncs(funcs) == AgentsDelay(servers, AgentList(walk[..i], cluster))
    {
      hide AgentList, AgentsNow, AgentsDelay, DelayFuncs, ServerList, WaitAll;
      OneMoreAgent(walk, i, cluster, servers);
      var node := walk[i];
      if node.cluster != cluster {
        continue;
      }
      if !node.IsAgent() {
        continue;
      }
      now := now + [Create(Agent(node.name)), SetToken(AgentKey(node.name), Agent(node.name))];
      var waits := WaitForTokenOnServers(walk, cluster, Agent(node.name));
      OneMoreFunc(funcs, waits);
      funcs := funcs + [waits];
    }
    assert walk[..|walk|] == walk;
    delay := DelayFuncs(funcs);
  }

  method CreateServiceTokensDelayWrite(walk: seq<Node>, cluster: string) returns (now: seq<Action>, delay: seq<Action>)
    ensures now == ServicesNow(cluster, ServiceList(walk, cluster))
    ensures delay == ServicesDelay(ServerList(walk, cluster), cluster, ServiceList(walk, cluster))
  {
    now := [];
    var funcs: seq<seq<Action>> := [];
    var done: set<Identifier> := {};
    ghost var servers := ServerList(walk, cluster);
    for i := 0 to |walk|
      invariant forall id :: id in done <==> id in ServiceList(walk[..i], cluster)
      invariant now == ServicesNow(cluster, ServiceList(walk[..i], cluster))
      invariant DelayFuncs(funcs) == ServicesDelay(servers, cluster, ServiceList(walk[..i], cluster))
    {
      hide ServiceList, ServicesNow, ServicesDelay, DelayFuncs, ServerList, WaitAll;
      OneMoreService(walk, i, cluster);
      var n := walk[i];
      if n.cluster != cluster {
        continue;
      }
      if n.service.None? {
        continue;
      }
      var id := n.service.value.id;
      if id in done {
        continue;
      }
      OneMoreServiceScript(cluster, ServiceList(walk[..i], cluster), id, servers);
      now := now + [Create(ServiceToken(cluster, id))];
      var waits := WaitForTokenOnServers(walk, cluster, ServiceToken(cluster, id));
      var fn := waits + [Save(ServiceToken(cluster, id))];
      OneMoreFunc(funcs, fn);
      funcs := funcs + [fn];
      done := done + {id};
    }
    assert walk[..|walk|] == walk;
    delay := DelayFuncs(funcs);
  }

  method AgentsIn(walk: seq<Node>, cluster: string) returns (nodes: seq<Node>)
    ensures nodes == AgentList(walk, cluster)
  {
    nodes := [];
    for i := 0 to |walk|
      invariant nodes == AgentList(walk[..i], cluster)
    {
      assert walk[..i + 1][..i] == walk[..i];
      if walk[i].cluster == cluster && walk[i].IsAgent() {
        nodes := nodes + [walk[i]];
      }
    }
    assert walk[..|walk|] == walk;
  }

  // ---------------------------------------------------------------- what the lists contain

  lemma {:induction false} ServerListIsServerNames(walk: seq<Node>, c: string)
    ensures Elements(ServerList(walk, c)) == ServerNames(walk, c)
  {
    if walk != [] {
      var rest, n := walk[..|walk| - 1], walk[|walk| - 1];
      ServerListIsServerNames(rest, c);
      assert forall i :: 0 <= i < |rest| ==> rest[i] == walk[i];
      assert ServerNames(walk, c) == ServerNames(rest, c) + if n.cluster == c && n.IsServer() then {n.name} else {};
      assert Elements(ServerList(walk, c)) ==
             Elements(ServerList(rest, c)) + if n.cluster == c && n.IsServer() then {n.name} else {};
    }
  }

  /** Every node of a walk has its own name. */
  predicate NamesApart(nodes: seq<Node>) { forall i, j :: 0 <= i < j < |nodes| ==> nodes[i].name != nodes[j].name }

  lemma {:induction false} AgentListFacts(walk: seq<Node>, c: string)
    ensures forall n :: n in AgentList(walk, c) <==> n in walk && n.cluster == c && n.IsAgent()
    ensures NamesApart(walk) ==> NamesApart(AgentList(walk, c))
  {
    if walk != [] {
      var rest, n := walk[..|walk| - 1], walk[|walk| - 1];
      AgentListFacts(rest, c);
      assert walk == rest + [n];
      if NamesApart(walk) {
        forall m | m in rest ensures m.name != n.name {
          var i :| 0 <= i < |rest| && rest[i] == m;
          assert walk[i] == m;
        }
        var a := AgentList(rest, c);
        assert forall i :: 0 <= i < |a| ==> a[i] in rest;
      }
    }
  }

  lemma {:induction false} ServiceListFacts(walk: seq<Node>, c: string)
    ensures forall n :: n in walk && n.cluster == c && n.service.Some? ==> n.service.value.id in ServiceList(walk, c)
    ensures forall id :: id in ServiceList(walk, c) ==>
              exists n :: n in walk && n.cluster == c && n.service.Some? && n.service.value.id == id
  {
    if walk != [] {
      var rest, n := walk[..|walk| - 1], walk[|walk| - 1];
      ServiceListFacts(rest, c);
      assert walk == rest + [n];
    }
  }

  lemma {:induction false} SecondaryServersFacts(walk: seq<Node>)
    ensures forall n :: n in SecondaryServers(walk) <==> n in walk && n.cluster != PRIMARY_CLUSTER && n.IsServer()
  {
    if walk != [] {
      var rest, n := walk[..|walk| - 1], walk[|walk| - 1];
      SecondaryServersFacts(rest);
      assert walk == rest + [n];
    }
  }
}
