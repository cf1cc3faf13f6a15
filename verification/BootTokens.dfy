/** Which clusters a boot enters, and which tokens it creates there. */
module BootTokens {
  import opened Identifiers
  import opened Config
  import opened Infra
  import opened TokenProtocol
  import opened BootScript
  import opened BootSafety

  // ---------------------------------------------------------------- the pieces

  lemma WaitsOnly(servers: seq<string>, n: TokenName)
    ensures forall a :: a in WaitAll(servers, n) ==> a.Wait?
  {
  }

  lemma {:induction false} AgentsNowCreates(nodes: seq<Node>)
    ensures forall t :: Create(t) in AgentsNow(nodes) <==> exists n :: n in nodes && t == Agent(n.name)
    ensures forall a :: a in AgentsNow(nodes) ==> a.Create? || a.SetToken?
  {
    if nodes != [] {
      var rest, last := nodes[..|nodes| - 1], nodes[|nodes| - 1];
      assert nodes == rest + [last];
      AgentsNowCreates(rest);
      assert AgentsNow(nodes) == AgentsNow(rest) + [Create(Agent(last.name)), SetToken(AgentKey(last.name), Agent(last.name))];
      hide AgentsNow;
      assert forall n :: n in nodes <==> n in rest || n == last;
    }
  }

  lemma {:induction false} AgentsDelayWaits(servers: seq<string>, nodes: seq<Node>)
    ensures forall a :: a in AgentsDelay(servers, nodes) ==> a.Wait?
  {
    hide WaitAll;
    if nodes != [] {
      AgentsDelayWaits(servers, nodes[..|nodes| - 1]);
      WaitsOnly(servers, Agent(nodes[|nodes| - 1].name));
    }
  }

  lemma {:induction false} ServicesNowCreates(c: string, ids: seq<Identifier>)
    ensures forall t :: Create(t) in ServicesNow(c, ids) <==> exists id :: id in ids && t == ServiceToken(c, id)
    ensures forall a :: a in ServicesNow(c, ids) ==> a.Create?
  {
    if ids != [] {
      var rest, last := ids[..|ids| - 1], ids[|ids| - 1];
      assert ids == rest + [last];
      ServicesNowCreates(c, rest);
      assert ServicesNow(c, ids) == ServicesNow(c, rest) + [Create(ServiceToken(c, last))];
      hide ServicesNow;
      assert forall id :: id in ids <==> id in rest || id == last;
    }
  }

  lemma {:induction false} ServicesDelayReleases(servers: seq<string>, c: string, ids: seq<Identifier>)
    ensures forall a :: a in ServicesDelay(servers, c, ids) ==> a.Wait? || a.Save?
  {
    hide WaitAll;
    if ids != [] {
      ServicesDelayReleases(servers, c, ids[..|ids| - 1]);
      WaitsOnly(servers, ServiceToken(c, ids[|ids| - 1]));
    }
  }

  // ---------------------------------------------------------------- one cluster

  /** The tokens of a cluster's own: one for its gateways, one per agent and, without kubernetes, one per service. */
  predicate OfCluster(walk: seq<Node>, setup: Setup, c: string, t: TokenName) {
    match t
    case MeshGateway(e) => e == c
    case Agent(x) => exists n :: n in walk && n.cluster == c && (n.kind == Server || n.kind == Client) && n.name == x
    case ServiceToken(e, id) =>
      !setup.kubernetes && e == c && exists n :: n in walk && n.cluster == c && n.service.Some? && n.service.value.id == id
    case _ => false
  }

  lemma WalkTokens(walk: seq<Node>, setup: Setup, c: string, t: TokenName)
    ensures OfCluster(walk, setup, c, t) <==>
            t == MeshGateway(c) || Create(t) in AgentsNow(AgentList(walk, c)) ||
            (!setup.kubernetes && Create(t) in ServicesNow(c, ServiceList(walk, c)))
  {
    AgentsNowCreates(AgentList(walk, c));
    ServicesNowCreates(c, ServiceList(walk, c));
    AgentListFacts(walk, c);
    ServiceListFacts(walk, c);
    hide AgentsNow, ServicesNow, AgentList, ServiceList;
  }

  lemma PrimaryCreates(walk: seq<Node>, setup: Setup, c: string, t: TokenName)
    requires !setup.aclsDisabled
    ensures Create(t) in PrimaryScript(walk, setup, c) <==>
            OfCluster(walk, setup, c, t) || t == Anonymous || (t == Replication && setup.link == Federate)
    ensures forall d :: MakeClients(d) in PrimaryScript(walk, setup, c) <==> d == c
  {
    var servers, agents, ids := ServerList(walk, c), AgentList(walk, c), ServiceList(walk, c);
    WaitsOnly(servers, MeshGateway(c));
    WaitsOnly(ServerList(walk, PRIMARY_CLUSTER), Replication);
    AgentsNowCreates(agents);
    ServicesNowCreates(c, ids);
    AgentsDelayWaits(servers, agents);
    ServicesDelayReleases(servers, c, ids);
    WalkTokens(walk, setup, c, t);
    hide OfCluster, AgentsNow, AgentsDelay, ServicesNow, ServicesDelay, ServerList, AgentList, ServiceList, WaitAll;
  }

  lemma SecondaryCreates(walk: seq<Node>, setup: Setup, c: string, t: TokenName)
    requires !setup.aclsDisabled
    ensures Create(t) in SecondaryScript(walk, setup, c) <==> OfCluster(walk, setup, c, t)
    ensures forall d :: MakeClients(d) in SecondaryScript(walk, setup, c) <==> d == c
  {
    var servers, agents, ids := ServerList(walk, c), AgentList(walk, c), ServiceList(walk, c);
    WaitsOnly(servers, MeshGateway(c));
    WaitsOnly(servers, Master);
    AgentsNowCreates(agents);
    ServicesNowCreates(c, ids);
    AgentsDelayWaits(servers, agents);
    ServicesDelayReleases(servers, c, ids);
    WalkTokens(walk, setup, c, t);
    hide OfCluster, AgentsNow, AgentsDelay, ServicesNow, ServicesDelay, ServerList, AgentList, ServiceList, WaitAll;
  }

  // ---------------------------------------------------------------- the whole boot

  lemma {:induction false} InPrimaries(walk: seq<Node>, setup: Setup, cs: seq<string>, a: Action)
    ensures a in PrimaryScripts(walk, setup, cs) <==> exists c :: c in cs && a in PrimaryScript(walk, setup, c)
  {
    hide PrimaryScript;
    if cs != [] {
      var rest, last := cs[..|cs| - 1], cs[|cs| - 1];
      assert cs == rest + [last];
      InPrimaries(walk, setup, rest, a);
      assert forall c :: c in cs <==> c in rest || c == last;
    }
  }

  lemma {:induction false} InSecondaries(walk: seq<Node>, setup: Setup, cs: seq<string>, a: Action)
    ensures a in SecondaryScripts(walk, setup, cs) <==>
            exists c :: c in cs && c != PRIMARY_CLUSTER && a in SecondaryScript(walk, setup, c)
  {
    hide SecondaryScript;
    if cs != [] {
      var rest, last := cs[..|cs| - 1], cs[|cs| - 1];
      assert cs == rest + [last];
      InSecondaries(walk, setup, rest, a);
      assert forall c :: c in cs <==> c in rest || c == last;
    }
  }

  /** The clusters that a boot enters. */
  predicate Enters(setup: Setup, cs: seq<string>, c: string) {
    match setup.link
    case Peer => c in cs && !setup.primaryOnly
    case Federate => c == "dc1" || (c in cs && |cs| > 1 && !setup.primaryOnly)
  }

  lemma HandoutMakesNothing(walk: seq<Node>, setup: Setup, a: Action)
    requires a.MakeClients? || a.Create?
    ensures a !in Handout(walk, setup)
  {
    hide SecondaryServers;
  }

  lemma InPeers(walk: seq<Node>, setup: Setup, cs: seq<string>, a: Action)
    requires setup.link == Peer && (a.MakeClients? || a.Create?)
    ensures a in BootActions(walk, setup, cs) <==> exists c :: Enters(setup, cs, c) && a in PrimaryScript(walk, setup, c)
  {
    hide PrimaryScript, PrimaryScripts;
    InPrimaries(walk, setup, cs, a);
  }

  lemma InFederation(walk: seq<Node>, setup: Setup, cs: seq<string>, a: Action)
    requires setup.link == Federate && (a.MakeClients? || a.Create?)
    ensures a in BootActions(walk, setup, cs) <==>
            a in PrimaryScript(walk, setup, "dc1") ||
            exists c :: c != "dc1" && Enters(setup, cs, c) && a in SecondaryScript(walk, setup, c)
  {
    hide PrimaryScript, SecondaryScripts, SecondaryScript, Handout;
    InSecondaries(walk, setup, cs, a);
    HandoutMakesNothing(walk, setup, a);
  }

  lemma ClientsAreOwn(walk: seq<Node>, setup: Setup, c: string, d: string)
    ensures MakeClients(c) in PrimaryScript(walk, setup, d) <==> c == d
    ensures MakeClients(c) in SecondaryScript(walk, setup, d) <==> c == d
  {
    if !setup.aclsDisabled {
      hide PrimaryScript, SecondaryScript;
      PrimaryCreates(walk, setup, d, Master);
      SecondaryCreates(walk, setup, d, Master);
    }
  }

  /** A boot makes clients for exactly the clusters it enters, with or without ACLs. */
  lemma EntersExactly(walk: seq<Node>, setup: Setup, cs: seq<string>, c: string)
    ensures MakeClients(c) in BootActions(walk, setup, cs) <==>
            match setup.link
            case Peer => c in cs && !setup.primaryOnly
            case Federate => c == "dc1" || (c in cs && |cs| > 1 && !setup.primaryOnly)
  {
    hide PrimaryScript, SecondaryScript, BootActions;
    forall d ensures Enters(setup, cs, d) ==>
                     (MakeClients(c) in PrimaryScript(walk, setup, d) <==> c == d) &&
                     (MakeClients(c) in SecondaryScript(walk, setup, d) <==> c == d) {
      ClientsAreOwn(walk, setup, c, d);
    }
    ClientsAreOwn(walk, setup, c, "dc1");
    assert Enters(setup, cs, c) || !Enters(setup, cs, c);
    if setup.link == Peer {
      InPeers(walk, setup, cs, MakeClients(c));
    } else {
      InFederation(walk, setup, cs, MakeClients(c));
    }
  }

  lemma TokenOfWhom(walk: seq<Node>, setup: Setup, cs: seq<string>, t: TokenName)
    ensures (exists c :: Enters(setup, cs, c) && OfCluster(walk, setup, c, t)) <==>
            match t
            case MeshGateway(c) => Enters(setup, cs, c)
            case Agent(x) =>
              exists n :: n in walk && n.name == x && (n.kind == Server || n.kind == Client) && Enters(setup, cs, n.cluster)
            case ServiceToken(c, id) =>
              !setup.kubernetes && Enters(setup, cs, c) &&
              exists n :: n in walk && n.cluster == c && n.service.Some? && n.service.value.id == id
            case _ => false
    ensures t in {Master, Replication, Anonymous} ==> forall c :: !OfCluster(walk, setup, c, t)
  {
    hide Enters;
    match t
    case Agent(x) =>
      if n :| n in walk && n.name == x && (n.kind == Server || n.kind == Client) && Enters(setup, cs, n.cluster) {
        assert OfCluster(walk, setup, n.cluster, t);
      }
    case MeshGateway(c) => assert OfCluster(walk, setup, c, t);
    case ServiceToken(c, id) =>
      assert OfCluster(walk, setup, c, t) || !OfCluster(walk, setup, c, t);
    case _ =>
  }

  lemma NoTokensWithoutACLs(walk: seq<Node>, setup: Setup, cs: seq<string>, t: TokenName)
    requires setup.aclsDisabled
    ensures Create(t) !in BootActions(walk, setup, cs)
  {
    WithoutACLs(walk, setup, cs);
  }

  /**
   * The tokens a boot creates, no more and no less: those of the clusters it enters, the anonymous one wherever a
   * cluster is a primary, and the replication token of a federation.  Without ACLs it creates none.
   */
  lemma CreatesExactly(walk: seq<Node>, setup: Setup, cs: seq<string>, t: TokenName)
    ensures Create(t) in BootActions(walk, setup, cs) <==>
            !setup.aclsDisabled &&
            match t
            case Master => false
            case Replication => setup.link == Federate
            case Anonymous => setup.link == Federate || (cs != [] && !setup.primaryOnly)
            case MeshGateway(c) => Enters(setup, cs, c)
            case Agent(x) =>
              exists n :: n in walk && n.name == x && (n.kind == Server || n.kind == Client) && Enters(setup, cs, n.cluster)
            case ServiceToken(c, id) =>
              !setup.kubernetes && Enters(setup, cs, c) &&
              exists n :: n in walk && n.cluster == c && n.service.Some? && n.service.value.id == id
  {
    hide PrimaryScript, SecondaryScript, BootActions;
    if setup.aclsDisabled {
      NoTokensWithoutACLs(walk, setup, cs, t);
    } else {
      TokenOfWhom(walk, setup, cs, t);
      if setup.link == Peer {
        forall c ensures Enters(setup, cs, c) ==>
                         (Create(t) in PrimaryScript(walk, setup, c) <==> OfCluster(walk, setup, c, t) || t == Anonymous) {
          PrimaryCreates(walk, setup, c, t);
        }
        InPeers(walk, setup, cs, Create(t));
        hide OfCluster;
        if cs != [] && !setup.primaryOnly {
          assert cs[0] in cs && Enters(setup, cs, cs[0]);
        }
      } else {
        forall c ensures Enters(setup, cs, c) ==>
                         (Create(t) in SecondaryScript(walk, setup, c) <==> OfCluster(walk, setup, c, t)) {
          SecondaryCreates(walk, setup, c, t);
        }
        PrimaryCreates(walk, setup, "dc1", t);
        InFederation(walk, setup, cs, Create(t));
        hide OfCluster;
        assert Enters(setup, cs, "dc1");
      }
    }
  }
}
