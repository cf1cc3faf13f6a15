/** The boot script is disciplined, so every boot is safe and every finished boot is complete. */
module BootSafety {
  import opened Text
  import opened Sorting
  import opened Identifiers
  import opened Config
  import opened Infra
  import opened TokenProtocol
  import opened BootScript

  // ---------------------------------------------------------------- what a script leaves alone

  predicate Creates(script: seq<Action>, n: TokenName) { Create(n) in script }

  ghost predicate Sets(script: seq<Action>, key: TokenKey) { exists n :: SetToken(key, n) in script }

  /** Facts about tokens the script does not create survive it. */
  ghost predicate Keeps(k: Known, k': Known, script: seq<Action>) {
    && (forall p :: p in k.waited && !Creates(script, p.1) ==> p in k'.waited)
    && (forall key :: key in k.bound && !Creates(script, k.bound[key]) && !Sets(script, key) ==>
          key in k'.bound && k'.bound[key] == k.bound[key])
    && k.clients <= k'.clients && k.made <= k'.made
  }

  lemma LearnKeeps(walk: seq<Node>, k: Known, a: Action)
    ensures Keeps(k, Learn(walk, k, a), [a])
  {
    hide ServerNames;
    if a.Create? {
      assert Creates([a], a.name);
    }
    if a.SetToken? {
      assert SetToken(a.key, a.name) in [a];
    }
  }

  lemma {:induction false} AfterKeeps(walk: seq<Node>, k: Known, script: seq<Action>)
    ensures Keeps(k, After(walk, k, script), script)
    decreases |script|
  {
    hide Learn;
    if script != [] {
      var a, rest := script[0], script[1..];
      LearnKeeps(walk, k, a);
      AfterKeeps(walk, Learn(walk, k, a), rest);
      assert script == [a] + rest;
      assert forall n :: !Creates(script, n) ==> !Creates([a], n) && !Creates(rest, n);
      assert forall key :: !Sets(script, key) ==> !Sets([a], key) && !Sets(rest, key);
    }
  }

  lemma OneAction(walk: seq<Node>, k: Known, a: Action)
    ensures Disciplined(walk, k, [a]) <==> Guarded(walk, k, a)
    ensures After(walk, k, [a]) == Learn(walk, k, a)
  {
    hide Guarded, Learn;
    assert [a][1..] == [];
    assert After(walk, Learn(walk, k, a), []) == Learn(walk, k, a);
    assert Disciplined(walk, Learn(walk, k, a), []);
  }

  lemma TwoActions(walk: seq<Node>, k: Known, a: Action, b: Action)
    ensures Disciplined(walk, k, [a, b]) <==> Guarded(walk, k, a) && Guarded(walk, Learn(walk, k, a), b)
    ensures After(walk, k, [a, b]) == Learn(walk, Learn(walk, k, a), b)
  {
    hide Guarded, Learn;
    assert [a, b] == [a] + [b];
    OneAction(walk, k, a);
    OneAction(walk, Learn(walk, k, a), b);
    DisciplinedInTurn(walk, k, [a], [b]);
  }

  // ---------------------------------------------------------------- waits

  predicate AllClients(k: Known, servers: seq<string>) { forall s :: s in servers ==> s in k.clients }

  predicate WaitedOn(k: Known, servers: seq<string>, n: TokenName) { forall s :: s in servers ==> (s, n) in k.waited }

  lemma {:induction false} WaitAllDisciplined(walk: seq<Node>, k: Known, servers: seq<string>, n: TokenName)
    requires n in k.made && AllClients(k, servers)
    ensures Disciplined(walk, k, WaitAll(servers, n))
    ensures WaitedOn(After(walk, k, WaitAll(servers, n)), servers, n)
    decreases |servers|
  {
    var script := WaitAll(servers, n);
    if servers != [] {
      assert script[0] == Wait(servers[0], n) && script[1..] == WaitAll(servers[1..], n);
      var k1 := Learn(walk, k, script[0]);
      WaitAllDisciplined(walk, k1, servers[1..], n);
      AfterKeeps(walk, k1, script[1..]);
      assert !Creates(script[1..], n);
      assert (servers[0], n) in k1.waited;
      assert servers == [servers[0]] + servers[1..];
    }
  }

  lemma WaitAllQuiet(servers: seq<string>, n: TokenName)
    ensures forall m :: !Creates(WaitAll(servers, n), m)
    ensures forall key :: !Sets(WaitAll(servers, n), key)
    ensures Quiet(WaitAll(servers, n))
  {
  }

  lemma WaitedIsReady(walk: seq<Node>, k: Known, c: string, n: TokenName)
    requires WaitedOn(k, ServerList(walk, c), n)
    ensures ReadyOn(k, ServerNames(walk, c), n)
  {
    ServerListIsServerNames(walk, c);
    assert forall s :: s in ServerNames(walk, c) ==> s in Elements(ServerList(walk, c));
    hide ServerNames, ServerList;
  }

  /** Wait on all servers of a cluster, then save: the shape of every delayed write to the cache. */
  lemma DelayedSaveDisciplined(walk: seq<Node>, k: Known, c: string, n: TokenName)
    requires n in k.made && Home(n) == Some(c) && AllClients(k, ServerList(walk, c))
    ensures Disciplined(walk, k, WaitAll(ServerList(walk, c), n) + [Save(n)])
    ensures Quiet(WaitAll(ServerList(walk, c), n) + [Save(n)])
  {
    var waits := WaitAll(ServerList(walk, c), n);
    WaitAllDisciplined(walk, k, ServerList(walk, c), n);
    var k1 := After(walk, k, waits);
    AfterKeeps(walk, k, waits);
    WaitedIsReady(walk, k1, c, n);
    hide ServerList, ServerNames, WaitAll;
    assert Disciplined(walk, k1, [Save(n)]);
    DisciplinedInTurn(walk, k, waits, [Save(n)]);
    WaitAllQuiet(ServerList(walk, c), n);
    QuietInTurn(waits, [Save(n)]);
  }

  // ---------------------------------------------------------------- quiet scripts

  /** A quiet script creates no token and binds none, so it keeps everything that is known. */
  predicate Quiet(script: seq<Action>) { forall a :: a in script ==> !a.Create? && !a.SetToken? }

  lemma QuietInTurn(a: seq<Action>, b: seq<Action>)
    requires Quiet(a) && Quiet(b)
    ensures Quiet(a + b)
  {
  }

  lemma QuietKeeps(walk: seq<Node>, k: Known, script: seq<Action>)
    requires Quiet(script)
    ensures var k' := After(walk, k, script);
            k.waited <= k'.waited && k.clients <= k'.clients && k.made <= k'.made &&
            forall key :: key in k.bound ==> key in k'.bound && k'.bound[key] == k.bound[key]
  {
    AfterKeeps(walk, k, script);
    assert forall n :: !Creates(script, n);
    assert forall key :: !Sets(script, key);
  }

  lemma {:induction false} ServicesDelayDisciplined(walk: seq<Node>, k: Known, c: string, ids: seq<Identifier>)
    requires forall id :: id in ids ==> ServiceToken(c, id) in k.made
    requires AllClients(k, ServerList(walk, c))
    ensures Disciplined(walk, k, ServicesDelay(ServerList(walk, c), c, ids))
    ensures Quiet(ServicesDelay(ServerList(walk, c), c, ids))
  {
    if ids != [] {
      var rest, id := ids[..|ids| - 1], ids[|ids| - 1];
      assert id in ids;
      ServicesDelayDisciplined(walk, k, c, rest);
      var a := ServicesDelay(ServerList(walk, c), c, rest);
      var k1 := After(walk, k, a);
      hide ServerList, WaitAll;
      QuietKeeps(walk, k, a);
      DelayedSaveDisciplined(walk, k1, c, ServiceToken(c, id));
      var b := WaitAll(ServerList(walk, c), ServiceToken(c, id)) + [Save(ServiceToken(c, id))];
      DisciplinedInTurn(walk, k, a, b);
      QuietInTurn(a, b);
    }
  }

  /** After the agents' delayed waits, every agent token has been waited for on all servers. */
  lemma {:induction false} AgentsDelayDisciplined(walk: seq<Node>, k: Known, servers: seq<string>, nodes: seq<Node>)
    requires forall n :: n in nodes ==> Agent(n.name) in k.made
    requires AllClients(k, servers)
    ensures Disciplined(walk, k, AgentsDelay(servers, nodes)) && Quiet(AgentsDelay(servers, nodes))
    ensures forall n :: n in nodes ==> WaitedOn(After(walk, k, AgentsDelay(servers, nodes)), servers, Agent(n.name))
  {
    if nodes != [] {
      var rest, last := nodes[..|nodes| - 1], nodes[|nodes| - 1];
      assert nodes == rest + [last];
      AgentsDelayDisciplined(walk, k, servers, rest);
      var a, b := AgentsDelay(servers, rest), WaitAll(servers, Agent(last.name));
      var k1 := After(walk, k, a);
      QuietKeeps(walk, k, a);
      WaitAllDisciplined(walk, k1, servers, Agent(last.name));
      assert Quiet(b);
      hide WaitAll;
      QuietKeeps(walk, k1, b);
      DisciplinedInTurn(walk, k, a, b);
      QuietInTurn(a, b);
    }
  }

  // ---------------------------------------------------------------- creations

  predicate AgentsBound(k: Known, nodes: seq<Node>) {
    forall n :: n in nodes ==>
      Agent(n.name) in k.made && AgentKey(n.name) in k.bound && k.bound[AgentKey(n.name)] == Agent(n.name)
  }

  lemma CreateAgent(walk: seq<Node>, k: Known, n: string)
    ensures var script := [Create(Agent(n)), SetToken(AgentKey(n), Agent(n))];
            var k' := After(walk, k, script);
            Disciplined(walk, k, script) &&
            k' == Forget(k, Agent(n)).(made := k.made + {Agent(n)}, bound := Forget(k, Agent(n)).bound[AgentKey(n) := Agent(n)])
  {
    hide Forget, ServerNames, Disciplined, After;
    TwoActions(walk, k, Create(Agent(n)), SetToken(AgentKey(n), Agent(n)));
  }

  lemma {:induction false} AgentsNowDisciplined(walk: seq<Node>, k: Known, nodes: seq<Node>)
    requires NamesApart(nodes)
    ensures Disciplined(walk, k, AgentsNow(nodes)) && AgentsBound(After(walk, k, AgentsNow(nodes)), nodes)
  {
    if nodes != [] {
      var rest, last := nodes[..|nodes| - 1], nodes[|nodes| - 1];
      assert nodes == rest + [last];
      AgentsNowDisciplined(walk, k, rest);
      var a, b := AgentsNow(rest), [Create(Agent(last.name)), SetToken(AgentKey(last.name), Agent(last.name))];
      var k1 := After(walk, k, a);
      CreateAgent(walk, k1, last.name);
      DisciplinedInTurn(walk, k, a, b);
      forall n | n in rest ensures n.name != last.name {
        var i :| 0 <= i < |rest| && rest[i] == n;
        assert nodes[i] == n;
      }
    }
  }

  /** The creations of agent tokens touch only agent tokens. */
  lemma {:induction false} AgentsNowTouches(nodes: seq<Node>)
    ensures forall n :: Creates(AgentsNow(nodes), n) ==> n.Agent?
    ensures forall key :: Sets(AgentsNow(nodes), key) ==> key.AgentKey?
  {
    if nodes != [] {
      AgentsNowTouches(nodes[..|nodes| - 1]);
    }
  }

  lemma {:induction false} ServicesNowDisciplined(walk: seq<Node>, k: Known, c: string, ids: seq<Identifier>)
    ensures Disciplined(walk, k, ServicesNow(c, ids))
    ensures forall id :: id in ids ==> ServiceToken(c, id) in After(walk, k, ServicesNow(c, ids)).made
    ensures forall n :: Creates(ServicesNow(c, ids), n) ==> n.ServiceToken?
    ensures forall key :: !Sets(ServicesNow(c, ids), key)
  {
    if ids != [] {
      var rest, id := ids[..|ids| - 1], ids[|ids| - 1];
      assert ids == rest + [id];
      ServicesNowDisciplined(walk, k, c, rest);
      var a, b := ServicesNow(c, rest), [Create(ServiceToken(c, id))];
      var k1 := After(walk, k, a);
      OneAction(walk, k1, b[0]);
      DisciplinedInTurn(walk, k, a, b);
      forall key ensures !Sets(a + b, key) {
        assert !Sets(a, key);
        forall n ensures SetToken(key, n) !in a + b {
          assert SetToken(key, n) !in a;
        }
      }
    }
  }

  // ---------------------------------------------------------------- milestones of a boot

  /** What a script must not do between creating the replication token and handing it out. */
  predicate SparesReplication(script: seq<Action>) {
    forall a :: a in script ==> a != Create(Replication) && (a.SetToken? ==> a.key != ReplicationKey)
  }

  lemma SparingKeepsReplication(walk: seq<Node>, k: Known, script: seq<Action>)
    requires SparesReplication(script)
    ensures ReplicationReady(walk, k) ==> ReplicationReady(walk, After(walk, k, script))
    ensures k.clients <= After(walk, k, script).clients && k.made <= After(walk, k, script).made
  {
    AfterKeeps(walk, k, script);
    assert !Creates(script, Replication);
    assert !Sets(script, ReplicationKey);
    hide ServerNames;
  }

  lemma ReplicationScriptDisciplined(walk: seq<Node>, k: Known)
    requires AllClients(k, ServerList(walk, PRIMARY_CLUSTER))
    ensures Disciplined(walk, k, ReplicationScript(walk)) && ReplicationReady(walk, After(walk, k, ReplicationScript(walk)))
    ensures k.clients <= After(walk, k, ReplicationScript(walk)).clients
    ensures k.made <= After(walk, k, ReplicationScript(walk)).made
  {
    var servers := ServerList(walk, PRIMARY_CLUSTER);
    var a := [Create(Replication), SetToken(ReplicationKey, Replication)];
    var b := WaitAll(servers, Replication);
    TwoActions(walk, k, a[0], a[1]);
    var k1 := After(walk, k, a);
    assert Disciplined(walk, k, a) && Replication in k1.made && ReplicationKey in k1.bound &&
           k1.bound[ReplicationKey] == Replication && k1.clients == k.clients;
    WaitAllDisciplined(walk, k1, servers, Replication);
    WaitAllQuiet(servers, Replication);
    AfterKeeps(walk, k1, b);
    DisciplinedInTurn(walk, k, a, b);
    WaitedIsReady(walk, After(walk, k1, b), PRIMARY_CLUSTER, Replication);
    AfterKeeps(walk, k, a);
    hide ServerNames, ServerList, WaitAll;
  }

  lemma MakeClientsCovers(walk: seq<Node>, k: Known, c: string)
    ensures Disciplined(walk, k, [MakeClients(c)])
    ensures AllClients(After(walk, k, [MakeClients(c)]), ServerList(walk, c))
    ensures k.made <= After(walk, k, [MakeClients(c)]).made
  {
    OneAction(walk, k, MakeClients(c));
    ServerListIsServerNames(walk, c);
    assert forall s :: s in ServerList(walk, c) ==> s in Elements(ServerList(walk, c));
    hide ServerNames, ServerList;
  }

  /** Mesh gateway: create, wait everywhere, save. */
  lemma GatewayNowDisciplined(walk: seq<Node>, k: Known, c: string)
    requires AllClients(k, ServerList(walk, c))
    ensures var script := [Create(MeshGateway(c))] + GatewayDelay(ServerList(walk, c), c);
            Disciplined(walk, k, script) && SparesReplication(script)
  {
    var a, b := [Create(MeshGateway(c))], GatewayDelay(ServerList(walk, c), c);
    OneAction(walk, k, a[0]);
    var k1 := After(walk, k, a);
    DelayedSaveDisciplined(walk, k1, c, MeshGateway(c));
    DisciplinedInTurn(walk, k, a, b);
    hide ServerList, WaitAll;
    assert Quiet(b);
  }

  /** Agents: create all, wait for all everywhere, then hand them out. */
  lemma AgentsReadyAfter(walk: seq<Node>, k: Known, c: string, nodes: seq<Node>)
    requires AgentsBound(k, nodes) && (forall n :: n in nodes ==> n.cluster == c)
    requires forall n :: n in nodes ==> WaitedOn(k, ServerList(walk, c), Agent(n.name))
    ensures AgentsReady(walk, k, nodes)
  {
    forall i | 0 <= i < |nodes| ensures AgentReady(walk, k, nodes[i]) {
      var n := nodes[i];
      assert n in nodes;
      WaitedIsReady(walk, k, c, Agent(n.name));
      hide ServerList, ServerNames;
    }
  }

  lemma AgentsBlockDisciplined(walk: seq<Node>, k: Known, c: string)
    requires NamesApart(walk) && AllClients(k, ServerList(walk, c))
    ensures var agents := AgentList(walk, c);
            var script := AgentsNow(agents) + AgentsDelay(ServerList(walk, c), agents);
            Disciplined(walk, k, script) && SparesReplication(script) && AgentsReady(walk, After(walk, k, script), agents)
  {
    var agents, servers := AgentList(walk, c), ServerList(walk, c);
    var a, b := AgentsNow(agents), AgentsDelay(servers, agents);
    AgentListFacts(walk, c);
    hide AgentList, ServerList;
    AgentsNowDisciplined(walk, k, agents);
    AgentsNowTouches(agents);
    AfterKeeps(walk, k, a);
    var k1 := After(walk, k, a);
    AgentsDelayDisciplined(walk, k1, servers, agents);
    QuietKeeps(walk, k1, b);
    DisciplinedInTurn(walk, k, a, b);
    var k2 := After(walk, k1, b);
    hide AgentsNow, AgentsDelay;
    assert AgentsBound(k2, agents);
    AgentsReadyAfter(walk, k2, c, agents);
    SparingPieces(a, b);
  }

  lemma SparingPieces(a: seq<Action>, b: seq<Action>)
    requires forall n :: Creates(a, n) ==> n.Agent?
    requires forall key :: Sets(a, key) ==> key.AgentKey?
    requires Quiet(b)
    ensures SparesReplication(a + b)
  {
    forall x | x in a + b ensures x != Create(Replication) && (x.SetToken? ==> x.key != ReplicationKey) {
      if x in a {
        assert x.Create? ==> Creates(a, x.name);
        assert x.SetToken? ==> SetToken(x.key, x.name) in a;
        assert x.SetToken? ==> Sets(a, x.key);
      }
    }
  }

  lemma ServicesBlockDisciplined(walk: seq<Node>, k: Known, c: string)
    requires AllClients(k, ServerList(walk, c))
    ensures var ids := ServiceList(walk, c);
            var script := ServicesNow(c, ids) + ServicesDelay(ServerList(walk, c), c, ids);
            Disciplined(walk, k, script) && SparesReplication(script)
  {
    var ids := ServiceList(walk, c);
    var a, b := ServicesNow(c, ids), ServicesDelay(ServerList(walk, c), c, ids);
    hide ServiceList, ServerList;
    ServicesNowDisciplined(walk, k, c, ids);
    AfterKeeps(walk, k, a);
    ServicesDelayDisciplined(walk, After(walk, k, a), c, ids);
    DisciplinedInTurn(walk, k, a, b);
    hide ServicesNow, ServicesDelay;
    forall x | x in a + b ensures x != Create(Replication) && (x.SetToken? ==> x.key != ReplicationKey) {
      if x in a {
        assert x.Create? ==> Creates(a, x.name);
        assert x.SetToken? ==> SetToken(x.key, x.name) in a;
        assert x.SetToken? ==> Sets(a, x.key);
      }
    }
  }

  lemma HandOutDisciplined(walk: seq<Node>, k: Known, nodes: seq<Node>)
    requires AgentsReady(walk, k, nodes)
    ensures var script := [InjectLoop(nodes), Create(Anonymous)];
            Disciplined(walk, k, script) && SparesReplication(script)
  {
    hide AgentsReady, ServerNames, Disciplined;
    TwoActions(walk, k, InjectLoop(nodes), Create(Anonymous));
  }

  lemma SparingInTurn(a: seq<Action>, b: seq<Action>)
    requires SparesReplication(a) && SparesReplication(b)
    ensures SparesReplication(a + b)
  {
  }

  lemma PrimaryServicesDisciplined(walk: seq<Node>, setup: Setup, k: Known, c: string)
    requires AllClients(k, ServerList(walk, c))
    ensures Disciplined(walk, k, PrimaryServices(walk, setup, c)) && SparesReplication(PrimaryServices(walk, setup, c))
  {
    if setup.kubernetes {
      OneAction(walk, k, Refuse);
      hide ServerNames;
    } else {
      ServicesBlockDisciplined(walk, k, c);
    }
  }

  /** initPrimaryCluster is disciplined wherever it starts, and leaves the replication token ready. */
  lemma PrimaryDisciplined(walk: seq<Node>, setup: Setup, k: Known, c: string)
    requires NamesApart(walk) && !setup.aclsDisabled && (setup.link == Federate ==> c == PRIMARY_CLUSTER)
    ensures Disciplined(walk, k, PrimaryScript(walk, setup, c))
    ensures setup.link == Federate ==> ReplicationReady(walk, After(walk, k, PrimaryScript(walk, setup, c)))
    ensures k.made <= After(walk, k, PrimaryScript(walk, setup, c)).made
  {
    var servers, agents := ServerList(walk, c), AgentList(walk, c);
    var s0: seq<Action> := [MakeClients(c)];
    var s1 := if setup.link == Federate then ReplicationScript(walk) else [];
    var s2 := [Create(MeshGateway(c))] + GatewayDelay(servers, c);
    var s3 := AgentsNow(agents) + AgentsDelay(servers, agents);
    var s4 := [InjectLoop(agents), Create(Anonymous)];
    var s5 := PrimaryServices(walk, setup, c);
    assert PrimaryScript(walk, setup, c) == s0 + s1 + s2 + s3 + s4 + s5;
    hide PrimaryScript, PrimaryServices, ReplicationScript, GatewayDelay, AgentsNow, AgentsDelay, ServerList, AgentList,
      Guarded, Learn, ReplicationReady, AgentsReady, NamesApart, SparesReplication;
    MakeClientsCovers(walk, k, c);
    var k1 := After(walk, k, s0);
    if setup.link == Federate {
      ReplicationScriptDisciplined(walk, k1);
    }
    var k2 := After(walk, k1, s1);
    GatewayNowDisciplined(walk, k2, c);
    SparingKeepsReplication(walk, k2, s2);
    var k3 := After(walk, k2, s2);
    AgentsBlockDisciplined(walk, k3, c);
    SparingKeepsReplication(walk, k3, s3);
    var k4 := After(walk, k3, s3);
    HandOutDisciplined(walk, k4, agents);
    SparingKeepsReplication(walk, k4, s4);
    var k5 := After(walk, k4, s4);
    PrimaryServicesDisciplined(walk, setup, k5, c);
    SparingKeepsReplication(walk, k5, s5);
    DisciplinedInTurn(walk, k, s0, s1);
    DisciplinedInTurn(walk, k, s0 + s1, s2);
    DisciplinedInTurn(walk, k, s0 + s1 + s2, s3);
    DisciplinedInTurn(walk, k, s0 + s1 + s2 + s3, s4);
    DisciplinedInTurn(walk, k, s0 + s1 + s2 + s3 + s4, s5);
  }

  // ---------------------------------------------------------------- a secondary cluster

  /** The delayed part of a secondary round: waits and saves only, then the agents' tokens. */
  lemma SecondaryReleaseDisciplined(walk: seq<Node>, k: Known, c: string)
    requires AllClients(k, ServerList(walk, c)) && Master in k.made && MeshGateway(c) in k.made
    requires AgentsBound(k, AgentList(walk, c))
    requires forall id :: id in ServiceList(walk, c) ==> ServiceToken(c, id) in k.made
    ensures var servers, agents, ids := ServerList(walk, c), AgentList(walk, c), ServiceList(walk, c);
            var script := WaitAll(servers, Master) + GatewayDelay(servers, c) + AgentsDelay(servers, agents)
                          + ServicesDelay(servers, c, ids) + [InjectLoop(agents)];
            Disciplined(walk, k, script) && Quiet(script)
  {
    var servers, agents, ids := ServerList(walk, c), AgentList(walk, c), ServiceList(walk, c);
    var s1, s2 := WaitAll(servers, Master), GatewayDelay(servers, c);
    var s3, s4 := AgentsDelay(servers, agents), ServicesDelay(servers, c, ids);
    var s5: seq<Action> := [InjectLoop(agents)];
    hide WaitAll, GatewayDelay, AgentsDelay, ServicesDelay, ServerList, AgentList, ServiceList, Guarded, Learn, Quiet,
      Disciplined, After;
    AgentListFacts(walk, c);
    WaitAllDisciplined(walk, k, servers, Master);
    WaitAllQuiet(servers, Master);
    QuietKeeps(walk, k, s1);
    var k1 := After(walk, k, s1);
    GatewayDelayDisciplined(walk, k1, c);
    QuietKeeps(walk, k1, s2);
    var k2 := After(walk, k1, s2);
    AgentsDelayDisciplined(walk, k2, servers, agents);
    QuietKeeps(walk, k2, s3);
    var k3 := After(walk, k2, s3);
    ServicesDelayDisciplined(walk, k3, c, ids);
    QuietKeeps(walk, k3, s4);
    var k4 := After(walk, k3, s4);
    AgentsReadyAfter(walk, k4, c, agents);
    InjectLoopDisciplined(walk, k4, agents);
    FiveInTurn(walk, k, s1, s2, s3, s4, s5);
  }

  lemma GatewayDelayDisciplined(walk: seq<Node>, k: Known, c: string)
    requires MeshGateway(c) in k.made && AllClients(k, ServerList(walk, c))
    ensures Disciplined(walk, k, GatewayDelay(ServerList(walk, c), c)) && Quiet(GatewayDelay(ServerList(walk, c), c))
  {
    DelayedSaveDisciplined(walk, k, c, MeshGateway(c));
  }

  lemma FiveInTurn(walk: seq<Node>, k: Known, s1: seq<Action>, s2: seq<Action>, s3: seq<Action>, s4: seq<Action>, s5: seq<Action>)
    requires Disciplined(walk, k, s1) && Quiet(s1)
    requires Disciplined(walk, After(walk, k, s1), s2) && Quiet(s2)
    requires Disciplined(walk, After(walk, After(walk, k, s1), s2), s3) && Quiet(s3)
    requires Disciplined(walk, After(walk, After(walk, After(walk, k, s1), s2), s3), s4) && Quiet(s4)
    requires Disciplined(walk, After(walk, After(walk, After(walk, After(walk, k, s1), s2), s3), s4), s5) && Quiet(s5)
    ensures Disciplined(walk, k, s1 + s2 + s3 + s4 + s5) && Quiet(s1 + s2 + s3 + s4 + s5)
  {
    hide Disciplined, After, Quiet;
    DisciplinedInTurn(walk, k, s1, s2);
    DisciplinedInTurn(walk, k, s1 + s2, s3);
    DisciplinedInTurn(walk, k, s1 + s2 + s3, s4);
    DisciplinedInTurn(walk, k, s1 + s2 + s3 + s4, s5);
    QuietInTurn(s1, s2);
    QuietInTurn(s1 + s2, s3);
    QuietInTurn(s1 + s2 + s3, s4);
    QuietInTurn(s1 + s2 + s3 + s4, s5);
  }

  lemma InjectLoopDisciplined(walk: seq<Node>, k: Known, nodes: seq<Node>)
    requires AgentsReady(walk, k, nodes)
    ensures Disciplined(walk, k, [InjectLoop(nodes)]) && Quiet([InjectLoop(nodes)])
  {
    hide AgentsReady;
    OneAction(walk, k, InjectLoop(nodes));
  }

  /** The creating part of a secondary round. */
  lemma SecondaryCreateDisciplined(walk: seq<Node>, k: Known, c: string)
    requires NamesApart(walk)
    ensures var script := [MakeClients(c), Create(MeshGateway(c))] + AgentsNow(AgentList(walk, c));
            var k' := After(walk, k, script);
            Disciplined(walk, k, script) && SparesReplication(script) &&
            AllClients(k', ServerList(walk, c)) && MeshGateway(c) in k'.made && AgentsBound(k', AgentList(walk, c)) &&
            k.made <= k'.made
  {
    var agents := AgentList(walk, c);
    var a, b := [MakeClients(c), Create(MeshGateway(c))], AgentsNow(agents);
    AgentListFacts(walk, c);
    ClientsThenGateway(walk, k, c);
    var k1 := After(walk, k, a);
    hide AgentList, ServerList, Guarded, Learn;
    AgentsNowDisciplined(walk, k1, agents);
    AgentsNowTouches(agents);
    AfterKeeps(walk, k1, b);
    DisciplinedInTurn(walk, k, a, b);
    hide AgentsNow, Disciplined, After;
    forall x | x in a + b ensures x != Create(Replication) && (x.SetToken? ==> x.key != ReplicationKey) {
      if x in b {
        assert x.Create? ==> Creates(b, x.name);
        assert x.SetToken? ==> SetToken(x.key, x.name) in b;
        assert x.SetToken? ==> Sets(b, x.key);
      }
    }
  }

  lemma ClientsThenGateway(walk: seq<Node>, k: Known, c: string)
    ensures var script := [MakeClients(c), Create(MeshGateway(c))];
            var k' := After(walk, k, script);
            Disciplined(walk, k, script) && AllClients(k', ServerList(walk, c)) && MeshGateway(c) in k'.made && k.made <= k'.made
  {
    MakeClientsCovers(walk, k, c);
    var a, b := [MakeClients(c)], [Create(MeshGateway(c))];
    assert [MakeClients(c), Create(MeshGateway(c))] == a + b;
    DisciplinedInTurn(walk, k, a, b);
    OneAction(walk, After(walk, k, a), b[0]);
    hide ServerList, ServerNames;
  }

  /** Creating the service tokens leaves the agents' bindings alone. */
  lemma SecondaryServicesNow(walk: seq<Node>, k: Known, c: string)
    requires AgentsBound(k, AgentList(walk, c))
    ensures var script := ServicesNow(c, ServiceList(walk, c));
            var k' := After(walk, k, script);
            Disciplined(walk, k, script) && SparesReplication(script) && AgentsBound(k', AgentList(walk, c)) &&
            k.clients <= k'.clients && k.made <= k'.made &&
            forall id :: id in ServiceList(walk, c) ==> ServiceToken(c, id) in k'.made
  {
    var script := ServicesNow(c, ServiceList(walk, c));
    hide ServiceList, AgentList;
    ServicesNowDisciplined(walk, k, c, ServiceList(walk, c));
    AfterKeeps(walk, k, script);
    hide ServicesNow, Disciplined, After;
    forall x | x in script ensures x != Create(Replication) && (x.SetToken? ==> x.key != ReplicationKey) {
      assert x.Create? ==> Creates(script, x.name);
      assert x.SetToken? ==> SetToken(x.key, x.name) in script;
      assert x.SetToken? ==> Sets(script, x.key);
    }
  }

  lemma QuietSparesReplication(script: seq<Action>)
    requires Quiet(script)
    ensures SparesReplication(script)
  {
  }

  lemma RefuseDisciplined(walk: seq<Node>, k: Known)
    ensures Disciplined(walk, k, [Refuse]) && Quiet([Refuse])
  {
    OneAction(walk, k, Refuse);
  }

  lemma SecondaryDisciplined(walk: seq<Node>, setup: Setup, k: Known, c: string)
    requires NamesApart(walk) && !setup.aclsDisabled && Master in k.made
    ensures Disciplined(walk, k, SecondaryScript(walk, setup, c))
    ensures SparesReplication(SecondaryScript(walk, setup, c))
  {
    var servers, agents, ids := ServerList(walk, c), AgentList(walk, c), ServiceList(walk, c);
    var s1 := [MakeClients(c), Create(MeshGateway(c))] + AgentsNow(agents);
    hide WaitAll, GatewayDelay, AgentsDelay, ServicesDelay, ServicesNow, AgentsNow, ServerList, AgentList, ServiceList,
      Guarded, Learn, Quiet, SparesReplication, NamesApart;
    SecondaryCreateDisciplined(walk, k, c);
    var k1 := After(walk, k, s1);
    if setup.kubernetes {
      RefuseDisciplined(walk, k1);
      QuietSparesReplication([Refuse]);
      DisciplinedInTurn(walk, k, s1, [Refuse]);
      SparingInTurn(s1, [Refuse]);
    } else {
      var s2 := ServicesNow(c, ids);
      SecondaryServicesNow(walk, k1, c);
      var k2 := After(walk, k1, s2);
      var s3 := WaitAll(servers, Master) + GatewayDelay(servers, c) + AgentsDelay(servers, agents)
                + ServicesDelay(servers, c, ids) + [InjectLoop(agents)];
      SecondaryReleaseDisciplined(walk, k2, c);
      QuietSparesReplication(s3);
      DisciplinedInTurn(walk, k1, s2, s3);
      DisciplinedInTurn(walk, k, s1, s2 + s3);
      SparingInTurn(s2, s3);
      SparingInTurn(s1, s2 + s3);
      SecondaryParts(walk, setup, c, s1, s2, s3);
    }
  }

  lemma SecondaryParts(walk: seq<Node>, setup: Setup, c: string, s1: seq<Action>, s2: seq<Action>, s3: seq<Action>)
    requires !setup.aclsDisabled && !setup.kubernetes
    requires s1 == [MakeClients(c), Create(MeshGateway(c))] + AgentsNow(AgentList(walk, c))
    requires s2 == ServicesNow(c, ServiceList(walk, c))
    requires s3 == WaitAll(ServerList(walk, c), Master) + GatewayDelay(ServerList(walk, c), c)
                   + AgentsDelay(ServerList(walk, c), AgentList(walk, c))
                   + ServicesDelay(ServerList(walk, c), c, ServiceList(walk, c)) + [InjectLoop(AgentList(walk, c))]
    ensures SecondaryScript(walk, setup, c) == s1 + (s2 + s3)
  {
    hide WaitAll, GatewayDelay, AgentsDelay, ServicesDelay, ServicesNow, AgentsNow, ServerList, AgentList, ServiceList;
  }

  lemma {:induction false} SecondariesDisciplined(walk: seq<Node>, setup: Setup, k: Known, cs: seq<string>)
    requires NamesApart(walk) && !setup.aclsDisabled && Master in k.made
    ensures Disciplined(walk, k, SecondaryScripts(walk, setup, cs)) && SparesReplication(SecondaryScripts(walk, setup, cs))
  {
    hide SecondaryScript, NamesApart, SparesReplication, Guarded, Learn;
    if cs == [] {
      NothingSpares();
    } else {
      var rest, c := cs[..|cs| - 1], cs[|cs| - 1];
      SecondariesDisciplined(walk, setup, k, rest);
      var a := SecondaryScripts(walk, setup, rest);
      var k1 := After(walk, k, a);
      SparingKeepsReplication(walk, k, a);
      var b := if c == PRIMARY_CLUSTER then [] else SecondaryScript(walk, setup, c);
      if c != PRIMARY_CLUSTER {
        SecondaryDisciplined(walk, setup, k1, c);
      } else {
        NothingSpares();
      }
      DisciplinedInTurn(walk, k, a, b);
      SparingInTurn(a, b);
    }
  }

  lemma NothingSpares()
    ensures SparesReplication([])
  {
  }

  // ---------------------------------------------------------------- the whole boot

  lemma {:induction false} HandoutDisciplined(walk: seq<Node>, k: Known, nodes: seq<Node>)
    requires ReplicationReady(walk, k)
    ensures Disciplined(walk, k, ReplicationHandout(nodes)) && After(walk, k, ReplicationHandout(nodes)) == k
  {
    hide ReplicationReady;
    if nodes != [] {
      var script := ReplicationHandout(nodes);
      assert script[0] == InjectReplication(nodes[0]) && script[1..] == ReplicationHandout(nodes[1..]);
      HandoutDisciplined(walk, k, nodes[1..]);
    }
  }

  lemma HandoutScriptDisciplined(walk: seq<Node>, setup: Setup, k: Known)
    requires ReplicationReady(walk, k) && !setup.aclsDisabled
    ensures Disciplined(walk, k, Handout(walk, setup)) && After(walk, k, Handout(walk, setup)) == k
  {
    var a: seq<Action> := [MustGet(ReplicationKey)];
    var b := ReplicationHandout(SecondaryServers(walk));
    OneAction(walk, k, MustGet(ReplicationKey));
    hide SecondaryServers, ServerNames;
    HandoutDisciplined(walk, k, SecondaryServers(walk));
    DisciplinedInTurn(walk, k, a, b);
  }

  lemma {:induction false} PrimariesDisciplined(walk: seq<Node>, setup: Setup, k: Known, cs: seq<string>)
    requires NamesApart(walk) && setup.link == Peer && !setup.aclsDisabled
    ensures Disciplined(walk, k, PrimaryScripts(walk, setup, cs))
  {
    hide PrimaryScript, NamesApart, Guarded, Learn;
    if cs != [] {
      var rest, c := cs[..|cs| - 1], cs[|cs| - 1];
      PrimariesDisciplined(walk, setup, k, rest);
      var a := PrimaryScripts(walk, setup, rest);
      PrimaryDisciplined(walk, setup, After(walk, k, a), c);
      DisciplinedInTurn(walk, k, a, PrimaryScript(walk, setup, c));
    }
  }

  /** Without ACLs the script only makes clients. */
  lemma {:induction false} ClientsOnlyDisciplined(walk: seq<Node>, k: Known, script: seq<Action>)
    requires forall a :: a in script ==> a.MakeClients?
    ensures Disciplined(walk, k, script)
    decreases |script|
  {
    hide Learn, ServerNames;
    if script != [] {
      ClientsOnlyDisciplined(walk, Learn(walk, k, script[0]), script[1..]);
    }
  }

  lemma {:induction false} WithoutACLs(walk: seq<Node>, setup: Setup, cs: seq<string>)
    requires setup.aclsDisabled
    ensures forall a :: a in PrimaryScripts(walk, setup, cs) ==> a.MakeClients?
    ensures forall a :: a in SecondaryScripts(walk, setup, cs) ==> a.MakeClients?
  {
    if cs != [] {
      WithoutACLs(walk, setup, cs[..|cs| - 1]);
    }
  }

  /** Every boot script is disciplined: each release stands after its waits. */
  lemma BootIsDisciplined(walk: seq<Node>, setup: Setup, cs: seq<string>)
    requires NamesApart(walk)
    ensures Disciplined(walk, NOTHING_KNOWN, BootActions(walk, setup, cs))
  {
    var k := NOTHING_KNOWN;
    if setup.aclsDisabled {
      RefuseDisciplined(walk, k);
      WithoutACLs(walk, setup, cs);
      if !(setup.link == Peer && setup.primaryOnly) {
        ClientsOnlyDisciplined(walk, k, BootActions(walk, setup, cs));
      }
    } else if setup.link == Peer {
      RefuseDisciplined(walk, k);
      PrimariesDisciplined(walk, setup, k, cs);
    } else {
      hide PrimaryScript, SecondaryScripts, Handout, Guarded, Learn, NamesApart, ReplicationReady;
      PrimaryDisciplined(walk, setup, k, PRIMARY_CLUSTER);
      var a, b, c := PrimaryScript(walk, setup, PRIMARY_CLUSTER), Handout(walk, setup), SecondaryScripts(walk, setup, cs);
      var k1 := After(walk, k, a);
      HandoutScriptDisciplined(walk, setup, k1);
      SecondariesDisciplined(walk, setup, k1, cs);
      DisciplinedInTurn(walk, k1, b, c);
      DisciplinedInTurn(walk, k, a, b + c);
      assert a + [] == a;
    }
  }

  /**
   * In every reachable state of a boot, whatever the servers' replication does meanwhile: the cache holds gateway
   * and service tokens under their own names, and an agent was handed its own token, each readable on every server
   * of its cluster; a secondary was handed the replication token, readable on every primary server.  Panics need
   * an empty secret.
   */
  lemma BootIsSafe(walk: seq<Node>, setup: Setup, cs: seq<string>, ms: seq<Moment>)
    requires NamesApart(walk) && Run(walk, ms) && Starts(ms[0].world) && ms[0].todo == BootActions(walk, setup, cs)
    ensures Safe(walk, ms[|ms| - 1].world) && PanicsOnlyOnEmpty(ms[|ms| - 1].world)
  {
    BootIsDisciplined(walk, setup, cs);
    DisciplinedRunsAreSafe(walk, ms);
  }
}
