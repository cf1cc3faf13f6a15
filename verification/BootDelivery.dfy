/** What a boot hands out, creates and refuses, and that a boot which reaches its end has handed out all of it. */
module BootDelivery {
  import opened Identifiers
  import opened Config
  import opened Infra
  import opened TokenProtocol
  import opened BootScript
  import opened BootSafety

  // ---------------------------------------------------------------- what the pieces owe

  /** What one booted cluster must end up with; under kubernetes, pods log in for themselves. */
  function ClusterDue(walk: seq<Node>, setup: Setup, c: string): set<Delivery> {
    {Saved(MeshGateway(c))} + AgentsDue(walk, c) + if setup.kubernetes then {} else ServicesDue(walk, c)
  }

  function AgentsDue(walk: seq<Node>, c: string): set<Delivery> { set n | n in walk && n.cluster == c && n.IsAgent() :: Given(n) }

  function ServicesDue(walk: seq<Node>, c: string): set<Delivery> {
    set n | n in walk && n.cluster == c && n.service.Some? :: Saved(ServiceToken(c, n.service.value.id))
  }

  lemma NothingDue(script: seq<Action>)
    requires forall a :: a in script ==> Due(a) == {}
    ensures DueIn(script) == {}
  {
    hide Due;
    assert forall i :: 0 <= i < |script| ==> script[i] in script;
  }

  lemma WaitsOweNothing(servers: seq<string>, n: TokenName)
    ensures DueIn(WaitAll(servers, n)) == {}
  {
    NothingDue(WaitAll(servers, n));
  }

  lemma {:induction false} AgentsNowOwesNothing(nodes: seq<Node>)
    ensures DueIn(AgentsNow(nodes)) == {}
  {
    if nodes == [] {
      NothingDue([]);
    } else {
      var n := nodes[|nodes| - 1].name;
      AgentsNowOwesNothing(nodes[..|nodes| - 1]);
      NothingDue([Create(Agent(n)), SetToken(AgentKey(n), Agent(n))]);
      hide DueIn;
      DueInTurn(AgentsNow(nodes[..|nodes| - 1]), [Create(Agent(n)), SetToken(AgentKey(n), Agent(n))]);
    }
  }

  lemma {:induction false} AgentsDelayOwesNothing(servers: seq<string>, nodes: seq<Node>)
    ensures DueIn(AgentsDelay(servers, nodes)) == {}
  {
    hide DueIn, WaitAll;
    if nodes == [] {
      NothingDue([]);
    } else {
      var n := Agent(nodes[|nodes| - 1].name);
      AgentsDelayOwesNothing(servers, nodes[..|nodes| - 1]);
      WaitsOweNothing(servers, n);
      DueInTurn(AgentsDelay(servers, nodes[..|nodes| - 1]), WaitAll(servers, n));
    }
  }

  lemma {:induction false} ServicesNowOwesNothing(c: string, ids: seq<Identifier>)
    ensures DueIn(ServicesNow(c, ids)) == {}
  {
    if ids == [] {
      NothingDue([]);
    } else {
      var n := ServiceToken(c, ids[|ids| - 1]);
      ServicesNowOwesNothing(c, ids[..|ids| - 1]);
      NothingDue([Create(n)]);
      hide DueIn;
      DueInTurn(ServicesNow(c, ids[..|ids| - 1]), [Create(n)]);
    }
  }

  lemma WaitAndSaveOwes(servers: seq<string>, n: TokenName)
    ensures DueIn(WaitAll(servers, n) + [Save(n)]) == {Saved(n)}
  {
    WaitsOweNothing(servers, n);
    DueInTurn(WaitAll(servers, n), [Save(n)]);
    DueInOne(Save(n));
    hide DueIn;
  }

  lemma {:induction false} ServicesDelayOwes(servers: seq<string>, c: string, ids: seq<Identifier>)
    ensures DueIn(ServicesDelay(servers, c, ids)) == set id | id in ids :: Saved(ServiceToken(c, id))
  {
    hide DueIn, WaitAll;
    if ids == [] {
      NothingDue([]);
    } else {
      var rest, id := ids[..|ids| - 1], ids[|ids| - 1];
      var n := ServiceToken(c, id);
      assert ids == rest + [id];
      ServicesDelayOwes(servers, c, rest);
      WaitAndSaveOwes(servers, n);
      DueInTurn(ServicesDelay(servers, c, rest), WaitAll(servers, n) + [Save(n)]);
      assert (set i | i in ids :: Saved(ServiceToken(c, i))) == (set i | i in rest :: Saved(ServiceToken(c, i))) + {Saved(n)};
    }
  }

  lemma ServicesOfWalkOwe(walk: seq<Node>, c: string)
    ensures DueIn(ServicesDelay(ServerList(walk, c), c, ServiceList(walk, c))) == ServicesDue(walk, c)
  {
    ServicesDelayOwes(ServerList(walk, c), c, ServiceList(walk, c));
    ServiceListFacts(walk, c);
    var due := set id | id in ServiceList(walk, c) :: Saved(ServiceToken(c, id));
    hide DueIn, ServicesDelay, ServerList, ServiceList;
    forall d ensures d in due <==> d in ServicesDue(walk, c) {
    }
  }

  lemma InjectLoopOwes(walk: seq<Node>, c: string)
    ensures DueIn([InjectLoop(AgentList(walk, c))]) == AgentsDue(walk, c)
  {
    AgentListFacts(walk, c);
    var agents := AgentList(walk, c);
    hide AgentList;
    DueInOne(InjectLoop(agents));
    forall n | n in walk && n.cluster == c && n.IsAgent() ensures Given(n) in Due(InjectLoop(agents)) {
      assert n in agents;
      var i :| 0 <= i < |agents| && agents[i] == n;
    }
    hide DueIn;
  }

  // ---------------------------------------------------------------- what a cluster's script owes

  lemma PrimaryServicesOwe(walk: seq<Node>, setup: Setup, c: string)
    ensures DueIn(PrimaryServices(walk, setup, c)) ==
            if !setup.kubernetes then ServicesDue(walk, c) else if setup.link == Peer then {Refusal} else {}
  {
    var servers, ids := ServerList(walk, c), ServiceList(walk, c);
    ServicesOfWalkOwe(walk, c);
    ServicesNowOwesNothing(c, ids);
    DueInTurn(ServicesNow(c, ids), ServicesDelay(servers, c, ids));
    DueInOne(Refuse);
    NothingDue([]);
    hide DueIn, ServicesDelay, ServerList, ServiceList, ServicesNow, ServicesDue;
  }

  lemma ReplicationOwesNothing(walk: seq<Node>)
    ensures DueIn(ReplicationScript(walk)) == {}
  {
    var servers := ServerList(walk, PRIMARY_CLUSTER);
    var a := [Create(Replication), SetToken(ReplicationKey, Replication)];
    WaitsOweNothing(servers, Replication);
    NothingDue(a);
    hide DueIn, ServerList, WaitAll;
    DueInTurn(a, WaitAll(servers, Replication));
  }

  /** The start of initPrimaryCluster: replication and gateway tokens. */
  lemma PrimaryHeadOwes(walk: seq<Node>, setup: Setup, c: string)
    ensures DueIn([MakeClients(c)] + (if setup.link == Federate then ReplicationScript(walk) else []) +
                  ([Create(MeshGateway(c))] + GatewayDelay(ServerList(walk, c), c)))
         == {Saved(MeshGateway(c))}
  {
    var a: seq<Action> := [MakeClients(c)];
    var r := if setup.link == Federate then ReplicationScript(walk) else [];
    var m0: seq<Action> := [Create(MeshGateway(c))];
    var m := GatewayDelay(ServerList(walk, c), c);
    ReplicationOwesNothing(walk);
    WaitAndSaveOwes(ServerList(walk, c), MeshGateway(c));
    NothingDue([]);
    NothingDue(a);
    NothingDue(m0);
    hide DueIn, ReplicationScript, ServerList, WaitAll;
    DueInTurn(a, r);
    DueInTurn(m0, m);
    DueInTurn(a + r, m0 + m);
  }

  lemma PrimaryOwes(walk: seq<Node>, setup: Setup, c: string)
    requires !setup.aclsDisabled
    ensures DueIn(PrimaryScript(walk, setup, c)) ==
            ClusterDue(walk, setup, c) + if setup.kubernetes && setup.link == Peer then {Refusal} else {}
  {
    var servers, agents := ServerList(walk, c), AgentList(walk, c);
    var h := [MakeClients(c)] + (if setup.link == Federate then ReplicationScript(walk) else []) +
             ([Create(MeshGateway(c))] + GatewayDelay(servers, c));
    var g := AgentsNow(agents) + AgentsDelay(servers, agents);
    var i0: seq<Action> := [InjectLoop(agents)];
    var i1: seq<Action> := [Create(Anonymous)];
    var s := PrimaryServices(walk, setup, c);
    assert [InjectLoop(agents), Create(Anonymous)] == i0 + i1;
    assert PrimaryScript(walk, setup, c) == h + g + (i0 + i1) + s;
    NothingDue(i1);
    hide DueIn, PrimaryScript, PrimaryServices, GatewayDelay, ServerList, AgentList, AgentsNow, AgentsDelay, ReplicationScript,
      AgentsDue, ServicesDue;
    PrimaryHeadOwes(walk, setup, c);
    AgentsNowOwesNothing(agents);
    AgentsDelayOwesNothing(servers, agents);
    InjectLoopOwes(walk, c);
    PrimaryServicesOwe(walk, setup, c);
    DueInTurn(AgentsNow(agents), AgentsDelay(servers, agents));
    DueInTurn(i0, i1);
    DueInTurn(h, g);
    DueInTurn(h + g, i0 + i1);
    DueInTurn(h + g + (i0 + i1), s);
  }

  lemma SecondaryOwes(walk: seq<Node>, setup: Setup, c: string)
    requires !setup.aclsDisabled
    ensures DueIn(SecondaryScript(walk, setup, c)) == if setup.kubernetes then {Refusal} else ClusterDue(walk, setup, c)
  {
    if setup.kubernetes {
      SecondaryRefuses(walk, setup, c);
    } else {
      SecondaryReleases(walk, setup, c);
    }
  }

  lemma SecondaryHeadOwesNothing(walk: seq<Node>, c: string)
    ensures DueIn([MakeClients(c), Create(MeshGateway(c))] + AgentsNow(AgentList(walk, c))) == {}
  {
    var a := [MakeClients(c), Create(MeshGateway(c))];
    NothingDue(a);
    hide DueIn, AgentList, AgentsNow;
    AgentsNowOwesNothing(AgentList(walk, c));
    DueInTurn(a, AgentsNow(AgentList(walk, c)));
  }

  lemma SecondaryRefuses(walk: seq<Node>, setup: Setup, c: string)
    requires !setup.aclsDisabled && setup.kubernetes
    ensures DueIn(SecondaryScript(walk, setup, c)) == {Refusal}
  {
    var a := [MakeClients(c), Create(MeshGateway(c))] + AgentsNow(AgentList(walk, c));
    SecondaryHeadOwesNothing(walk, c);
    DueInOne(Refuse);
    hide DueIn, AgentList, AgentsNow;
    DueInTurn(a, [Refuse]);
  }

  lemma SecondaryReleases(walk: seq<Node>, setup: Setup, c: string)
    requires !setup.aclsDisabled && !setup.kubernetes
    ensures DueIn(SecondaryScript(walk, setup, c)) == ClusterDue(walk, setup, c)
  {
    var servers, agents, ids := ServerList(walk, c), AgentList(walk, c), ServiceList(walk, c);
    var a := [MakeClients(c), Create(MeshGateway(c))] + AgentsNow(agents);
    var b := ServicesNow(c, ids) + WaitAll(servers, Master);
    var m, g := GatewayDelay(servers, c), AgentsDelay(servers, agents);
    var s := ServicesDelay(servers, c, ids);
    var i: seq<Action> := [InjectLoop(agents)];
    assert SecondaryScript(walk, setup, c) == a + (b + m + g + s + i);
    SecondaryHeadOwesNothing(walk, c);
    WaitAndSaveOwes(servers, MeshGateway(c));
    hide DueIn, SecondaryScript, ServicesDelay, ServerList, AgentList, ServiceList, AgentsNow, AgentsDelay,
      ServicesNow, WaitAll, AgentsDue, ServicesDue;
    ServicesNowOwesNothing(c, ids);
    WaitsOweNothing(servers, Master);
    AgentsDelayOwesNothing(servers, agents);
    ServicesOfWalkOwe(walk, c);
    InjectLoopOwes(walk, c);
    DueInTurn(ServicesNow(c, ids), WaitAll(servers, Master));
    DueInTurn(b, m);
    DueInTurn(b + m, g);
    DueInTurn(b + m + g, s);
    DueInTurn(b + m + g + s, i);
    DueInTurn(a, b + m + g + s + i);
  }

  // ---------------------------------------------------------------- what a boot owes

  lemma {:induction false} PrimariesOwe(walk: seq<Node>, setup: Setup, cs: seq<string>, d: Delivery)
    ensures d in DueIn(PrimaryScripts(walk, setup, cs)) <==> exists c :: c in cs && d in DueIn(PrimaryScript(walk, setup, c))
  {
    hide DueIn, PrimaryScript;
    if cs == [] {
      NothingDue([]);
    } else {
      var rest, last := cs[..|cs| - 1], cs[|cs| - 1];
      assert cs == rest + [last];
      PrimariesOwe(walk, setup, rest, d);
      DueInTurn(PrimaryScripts(walk, setup, rest), PrimaryScript(walk, setup, last));
      assert forall c :: c in cs <==> c in rest || c == last;
    }
  }

  lemma {:induction false} SecondariesOwe(walk: seq<Node>, setup: Setup, cs: seq<string>, d: Delivery)
    ensures d in DueIn(SecondaryScripts(walk, setup, cs)) <==>
            exists c :: c in cs && c != PRIMARY_CLUSTER && d in DueIn(SecondaryScript(walk, setup, c))
  {
    hide DueIn, SecondaryScript;
    NothingDue([]);
    if cs != [] {
      var rest, last := cs[..|cs| - 1], cs[|cs| - 1];
      assert cs == rest + [last];
      SecondariesOwe(walk, setup, rest, d);
      DueInTurn(SecondaryScripts(walk, setup, rest), if last == PRIMARY_CLUSTER then [] else SecondaryScript(walk, setup, last));
      assert forall c :: c in cs <==> c in rest || c == last;
    }
  }

  lemma {:induction false} HandoutsOwe(nodes: seq<Node>)
    ensures DueIn(ReplicationHandout(nodes)) == set n | n in nodes :: Replicated(n.name)
  {
    var script := ReplicationHandout(nodes);
    forall n | n in nodes ensures Replicated(n.name) in DueIn(script) {
      var i :| 0 <= i < |nodes| && nodes[i] == n;
      assert script[i] == InjectReplication(n);
      assert Replicated(n.name) in Due(script[i]);
    }
    forall d | d in DueIn(script) ensures d in set n | n in nodes :: Replicated(n.name) {
      var i :| 0 <= i < |script| && d in Due(script[i]);
      assert nodes[i] in nodes;
    }
  }

  lemma HandoutOwes(walk: seq<Node>, setup: Setup, d: Delivery)
    ensures d in DueIn(Handout(walk, setup)) <==>
            !setup.aclsDisabled && exists n :: n in walk && n.cluster != PRIMARY_CLUSTER && n.IsServer() && d == Replicated(n.name)
  {
    SecondaryServersFacts(walk);
    var nodes := SecondaryServers(walk);
    HandoutsOwe(nodes);
    NothingDue([]);
    NothingDue([MustGet(ReplicationKey)]);
    DueInTurn([MustGet(ReplicationKey)], ReplicationHandout(nodes));
    hide DueIn, SecondaryServers, ReplicationHandout;
  }

  /** What a federated boot owes beyond its primary. */
  lemma BeyondPrimaryOwes(walk: seq<Node>, setup: Setup, cs: seq<string>, d: Delivery)
    requires setup.link == Federate
    ensures d in DueIn(BootActions(walk, setup, cs)) <==>
            d in DueIn(PrimaryScript(walk, setup, PRIMARY_CLUSTER)) ||
            (!setup.primaryOnly && |cs| > 1 &&
             (d in DueIn(Handout(walk, setup)) ||
              exists c :: c in cs && c != PRIMARY_CLUSTER && d in DueIn(SecondaryScript(walk, setup, c))))
  {
    var a, b, e := PrimaryScript(walk, setup, PRIMARY_CLUSTER), Handout(walk, setup), SecondaryScripts(walk, setup, cs);
    SecondariesOwe(walk, setup, cs, d);
    NothingDue([]);
    hide DueIn, PrimaryScript, SecondaryScripts, SecondaryScript, Handout;
    DueInTurn(b, e);
    DueInTurn(a, b + e);
    DueInTurn(a, []);
  }

  /** The clusters that get what is theirs: under kubernetes a secondary does not. */
  predicate Reaches(setup: Setup, cs: seq<string>, c: string) {
    match setup.link
    case Peer => c in cs && !setup.primaryOnly
    case Federate => c == "dc1" || (c in cs && |cs| > 1 && !setup.primaryOnly && !setup.kubernetes)
  }

  /** What a boot refuses: kubernetes with peering or with a secondary, and a primary-only boot of peers. */
  predicate Refuses(setup: Setup, cs: seq<string>) {
    || (setup.link == Peer && setup.primaryOnly)
    || (!setup.aclsDisabled && setup.kubernetes &&
        match setup.link
        case Peer => cs != []
        case Federate => !setup.primaryOnly && |cs| > 1 && exists c :: c in cs && c != "dc1")
  }

  /** Everything a boot with ACLs owes, delivery by delivery. */
  lemma BootOwesExactly(walk: seq<Node>, setup: Setup, cs: seq<string>, d: Delivery)
    requires !setup.aclsDisabled
    ensures d in DueIn(BootActions(walk, setup, cs)) <==>
            || (d == Refusal && Refuses(setup, cs))
            || (exists c :: Reaches(setup, cs, c) && d in ClusterDue(walk, setup, c))
            || (setup.link == Federate && !setup.primaryOnly && |cs| > 1 &&
                exists n :: n in walk && n.cluster != "dc1" && n.IsServer() && d == Replicated(n.name))
  {
    hide DueIn, PrimaryScript, PrimaryScripts, SecondaryScript, Handout, ClusterDue;
    forall c
      ensures DueIn(PrimaryScript(walk, setup, c)) ==
              ClusterDue(walk, setup, c) + if setup.kubernetes && setup.link == Peer then {Refusal} else {}
      ensures DueIn(SecondaryScript(walk, setup, c)) == if setup.kubernetes then {Refusal} else ClusterDue(walk, setup, c)
    {
      PrimaryOwes(walk, setup, c);
      SecondaryOwes(walk, setup, c);
    }
    if setup.link == Peer {
      DueInOne(Refuse);
      PrimariesOwe(walk, setup, cs, d);
      assert cs != [] ==> cs[0] in cs;
    } else {
      HandoutOwes(walk, setup, d);
      BeyondPrimaryOwes(walk, setup, cs, d);
      hide BootActions;
    }
  }

  lemma RefusalIsRefuse(script: seq<Action>)
    ensures Refusal in DueIn(script) <==> Refuse in script
  {
    if Refuse in script {
      var i :| 0 <= i < |script| && script[i] == Refuse;
      assert Refusal in Due(script[i]);
    }
  }

  /** The deliveries of one cluster, kind by kind. */
  lemma InClusterDue(walk: seq<Node>, setup: Setup, c: string, d: Delivery)
    ensures d in ClusterDue(walk, setup, c) <==>
            match d
            case Saved(MeshGateway(e)) => e == c
            case Saved(ServiceToken(e, id)) =>
              !setup.kubernetes && e == c && exists n :: n in walk && n.cluster == c && n.service.Some? && n.service.value.id == id
            case Saved(_) => false
            case Given(n) => n in walk && n.cluster == c && (n.kind == Server || n.kind == Client)
            case Replicated(_) => false
            case Refusal => false
  {
  }

  /**
   * A boot refuses exactly a primary-only boot of peers and, with ACLs under kubernetes, any peer and any secondary;
   * in every other setup its script goes through to the end.
   */
  lemma RefusesExactly(walk: seq<Node>, setup: Setup, cs: seq<string>)
    ensures Refuse in BootActions(walk, setup, cs) <==>
            || (setup.link == Peer && setup.primaryOnly)
            || (!setup.aclsDisabled && setup.kubernetes && setup.link == Peer && cs != [])
            || (!setup.aclsDisabled && setup.kubernetes && setup.link == Federate && !setup.primaryOnly &&
                |cs| > 1 && exists c :: c in cs && c != "dc1")
  {
    if setup.aclsDisabled {
      WithoutACLs(walk, setup, cs);
    } else {
      forall c ensures Refusal !in ClusterDue(walk, setup, c) {
        InClusterDue(walk, setup, c, Refusal);
      }
      hide DueIn, BootActions, ClusterDue;
      RefusalIsRefuse(BootActions(walk, setup, cs));
      BootOwesExactly(walk, setup, cs, Refusal);
    }
  }

  /**
   * What a boot with ACLs hands out, no more and no less: gateway tokens are cached and agents served in exactly the
   * clusters the boot reaches, service tokens too unless under kubernetes, and the replication token goes to exactly
   * the servers outside the primary of a federation that is booted as a whole.
   */
  lemma BootHandsOutExactly(walk: seq<Node>, setup: Setup, cs: seq<string>)
    requires !setup.aclsDisabled
    ensures var due := DueIn(BootActions(walk, setup, cs));
            && (forall c :: Saved(MeshGateway(c)) in due <==> Reaches(setup, cs, c))
            && (forall n :: Given(n) in due <==>
                  n in walk && (n.kind == Server || n.kind == Client) && Reaches(setup, cs, n.cluster))
            && (forall c, id :: Saved(ServiceToken(c, id)) in due <==>
                  !setup.kubernetes && Reaches(setup, cs, c) &&
                  exists n :: n in walk && n.cluster == c && n.service.Some? && n.service.value.id == id)
            && (forall s :: Replicated(s) in due <==>
                  setup.link == Federate && !setup.primaryOnly && |cs| > 1 &&
                  exists n :: n in walk && n.cluster != "dc1" && n.kind == Server && n.name == s)
            && Saved(Master) !in due && Saved(Replication) !in due && Saved(Anonymous) !in due
            && forall x :: Saved(Agent(x)) !in due
  {
    hide DueIn, BootActions, Reaches;
    forall c ensures Saved(MeshGateway(c)) in DueIn(BootActions(walk, setup, cs)) <==> Reaches(setup, cs, c) {
      OwedFrom(walk, setup, cs, c, Saved(MeshGateway(c)));
    }
    forall n ensures Given(n) in DueIn(BootActions(walk, setup, cs)) <==>
                     n in walk && (n.kind == Server || n.kind == Client) && Reaches(setup, cs, n.cluster) {
      OwedFrom(walk, setup, cs, n.cluster, Given(n));
    }
    forall c, id ensures Saved(ServiceToken(c, id)) in DueIn(BootActions(walk, setup, cs)) <==>
                         !setup.kubernetes && Reaches(setup, cs, c) &&
                         exists n :: n in walk && n.cluster == c && n.service.Some? && n.service.value.id == id {
      OwedFrom(walk, setup, cs, c, Saved(ServiceToken(c, id)));
    }
    forall s ensures Replicated(s) in DueIn(BootActions(walk, setup, cs)) <==>
                     setup.link == Federate && !setup.primaryOnly && |cs| > 1 &&
                     exists n :: n in walk && n.cluster != "dc1" && n.kind == Server && n.name == s {
      OwedFrom(walk, setup, cs, "", Replicated(s));
    }
    forall n | n in {Master, Replication, Anonymous} || n.Agent? ensures Saved(n) !in DueIn(BootActions(walk, setup, cs)) {
      OwedFrom(walk, setup, cs, "", Saved(n));
    }
  }

  /** A delivery other than the replication token is owed exactly when its cluster is reached and owes it. */
  lemma OwedFrom(walk: seq<Node>, setup: Setup, cs: seq<string>, c: string, d: Delivery)
    requires !setup.aclsDisabled && d != Refusal
    requires match d
             case Saved(MeshGateway(e)) => e == c
             case Saved(ServiceToken(e, _)) => e == c
             case Given(n) => n.cluster == c
             case _ => true
    ensures d in DueIn(BootActions(walk, setup, cs)) <==>
            if d.Replicated? then
              setup.link == Federate && !setup.primaryOnly && |cs| > 1 &&
              exists n :: n in walk && n.cluster != "dc1" && n.kind == Server && n.name == d.server
            else Reaches(setup, cs, c) && d in ClusterDue(walk, setup, c)
    ensures d in ClusterDue(walk, setup, c) <==>
            match d
            case Saved(MeshGateway(e)) => true
            case Saved(ServiceToken(e, id)) =>
              !setup.kubernetes && exists n :: n in walk && n.cluster == c && n.service.Some? && n.service.value.id == id
            case Given(n) => n in walk && (n.kind == Server || n.kind == Client)
            case _ => false
  {
    forall e ensures d in ClusterDue(walk, setup, e) ==> e == c && !d.Replicated? {
      InClusterDue(walk, setup, e, d);
    }
    InClusterDue(walk, setup, c, d);
    hide DueIn, BootActions, Reaches, ClusterDue, Refuses;
    BootOwesExactly(walk, setup, cs, d);
  }

  /** What a cluster has received: every token under its own name, to the agent it is for, readable where it is used. */
  ghost predicate Served(walk: seq<Node>, setup: Setup, w: World, c: string) {
    var servers := ServerNames(walk, c);
    && MeshGateway(c) in w.cache && Released(w, servers, MeshGateway(c), w.cache[MeshGateway(c)])
    && (forall n :: n in walk && n.cluster == c && n.IsAgent() ==>
          n in w.given && w.given[n] != "" && Released(w, servers, Agent(n.name), w.given[n]))
    && (!setup.kubernetes ==>
          forall n :: n in walk && n.cluster == c && n.service.Some? ==>
            var t := ServiceToken(c, n.service.value.id);
            t in w.cache && Released(w, servers, t, w.cache[t]))
    && (setup.link == Federate && c != PRIMARY_CLUSTER ==>
          forall n :: n in walk && n.cluster == c && n.IsServer() ==>
            n.name in w.replicated && w.replicated[n.name] != "" &&
            Released(w, ServerNames(walk, PRIMARY_CLUSTER), Replication, w.replicated[n.name]))
  }

  /** The clusters a boot is meant to take all the way. */
  predicate Booted(setup: Setup, cs: seq<string>, c: string) {
    match setup.link
    case Peer => c in cs
    case Federate => c == PRIMARY_CLUSTER || (c in cs && !setup.primaryOnly)
  }

  lemma BootedIsReached(setup: Setup, cs: seq<string>, c: string)
    requires !setup.aclsDisabled && Booted(setup, cs, c) && PRIMARY_CLUSTER in cs && !Refuses(setup, cs)
    ensures Reaches(setup, cs, c)
    ensures setup.link == Federate && c != PRIMARY_CLUSTER ==> !setup.primaryOnly && |cs| > 1
  {
    if c in cs && c != PRIMARY_CLUSTER {
      TwoMembers(cs, c, PRIMARY_CLUSTER);
    }
  }

  lemma TwoMembers<T>(s: seq<T>, a: T, b: T)
    requires a in s && b in s && a != b
    ensures |s| > 1
  {
    var i :| 0 <= i < |s| && s[i] == a;
    var j :| 0 <= j < |s| && s[j] == b;
  }

  /** What is delivered was released safely, so it is what it should be. */
  lemma DeliveredSafelyIsServed(walk: seq<Node>, setup: Setup, w: World, c: string, due: set<Delivery>)
    requires Safe(walk, w) && ClusterDue(walk, setup, c) <= due && forall d :: d in due ==> Delivered(w, d)
    requires setup.link == Federate && c != PRIMARY_CLUSTER ==>
               forall n :: n in walk && n.cluster == c && n.IsServer() ==> Replicated(n.name) in due
    ensures Served(walk, setup, w, c)
  {
    hide ServerNames, Released, Recorded;
    assert Saved(MeshGateway(c)) in due && Delivered(w, Saved(MeshGateway(c)));
    forall n | n in walk && n.cluster == c && n.IsAgent() ensures n in w.given {
      assert Given(n) in due && Delivered(w, Given(n));
    }
    forall n | !setup.kubernetes && n in walk && n.cluster == c && n.service.Some?
      ensures ServiceToken(c, n.service.value.id) in w.cache
    {
      assert Saved(ServiceToken(c, n.service.value.id)) in due;
      assert Delivered(w, Saved(ServiceToken(c, n.service.value.id)));
    }
    forall n | setup.link == Federate && c != PRIMARY_CLUSTER && n in walk && n.cluster == c && n.IsServer()
      ensures n.name in w.replicated
    {
      assert Delivered(w, Replicated(n.name));
    }
  }

  /** What a boot that refuses nothing owes to one booted cluster. */
  lemma BootOwes(walk: seq<Node>, setup: Setup, cs: seq<string>, c: string)
    requires !setup.aclsDisabled && Booted(setup, cs, c) && PRIMARY_CLUSTER in cs && !Refuses(setup, cs)
    ensures ClusterDue(walk, setup, c) <= DueIn(BootActions(walk, setup, cs))
    ensures setup.link == Federate && c != PRIMARY_CLUSTER ==>
              forall n :: n in walk && n.cluster == c && n.IsServer() ==> Replicated(n.name) in DueIn(BootActions(walk, setup, cs))
  {
    hide DueIn, BootActions, ClusterDue, Reaches;
    BootedIsReached(setup, cs, c);
    forall d { BootOwesExactly(walk, setup, cs, d); }
  }

  /**
   * A boot that ends without failure refused nothing; it has cached the gateway token of each cluster it booted and,
   * without kubernetes, each service's token; it has handed every agent its own token, and every secondary server the
   * replication token; and all of these are readable on the servers concerned.
   */
  lemma FinishedBootDelivers(walk: seq<Node>, setup: Setup, cs: seq<string>, ms: seq<Moment>, c: string)
    requires !setup.aclsDisabled && Booted(setup, cs, c) && PRIMARY_CLUSTER in cs
    requires NamesApart(walk) && Run(walk, ms) && Starts(ms[0].world) && ms[0].todo == BootActions(walk, setup, cs)
    requires ms[|ms| - 1].todo == [] && ms[|ms| - 1].world.status == Running
    ensures !Refuses(setup, cs) && Served(walk, setup, ms[|ms| - 1].world, c)
  {
    hide BootActions, Booted, Safe, Step, Starts, NamesApart, ClusterDue, DueIn, Refuses;
    FinishedRunsDeliver(walk, ms);
    assert !Delivered(ms[|ms| - 1].world, Refusal);
    BootOwesExactly(walk, setup, cs, Refusal);
    BootOwes(walk, setup, cs, c);
    BootIsSafe(walk, setup, cs, ms);
    DeliveredSafelyIsServed(walk, setup, ms[|ms| - 1].world, c, DueIn(ms[0].todo));
  }

  // ---------------------------------------------------------------- on a topology

  /** The nodes of a topology in walk order. */
  ghost function WalkNodes(nm: NodeMap): seq<Node>
  {
    WalkNamesAreFiled(nm);
    seq(|WalkOrder(nm)|, i requires 0 <= i < |WalkOrder(nm)| => nm[WalkOrder(nm)[i]])
  }

  /** A walk over a topology meets no name twice, which is all the boot asks of it. */
  lemma WalkNodesApart(nm: NodeMap)
    requires WellFiled(nm)
    ensures NamesApart(WalkNodes(nm))
  {
    WalkVisitsEachOnce(nm);
    WalkNamesAreFiled(nm);
    var names := WalkOrder(nm);
    assert forall i :: 0 <= i < |names| ==> WalkNodes(nm)[i].name == names[i];
    hide WalkOrder;
  }
}
