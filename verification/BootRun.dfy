/** app/boot.go: the functions of the boot, each as the part of the script that running it performs. */
module BootRun {
  import opened Config
  import opened Infra
  import opened TokenProtocol
  import opened BootScript
  import opened BootSafety
  import opened BootDelivery

  // ---------------------------------------------------------------- mesh gateway tokens

  /**
   * Creating the token releases nothing; the delayed part does, and may run as soon as the token is made and the
   * servers have clients, at once or after anything else.
   */
  method CreateMeshGatewayTokenDelayWrite(walk: seq<Node>, cluster: string) returns (now: seq<Action>, delay: seq<Action>)
    ensures now == [Create(MeshGateway(cluster))] && delay == GatewayDelay(ServerList(walk, cluster), cluster)
    ensures DueIn(now) == {} && Saved(MeshGateway(cluster)) in DueIn(delay)
    ensures forall k :: AllClients(k, ServerList(walk, cluster)) ==> Disciplined(walk, k, now + delay)
    ensures forall k: Known :: MeshGateway(cluster) in k.made && AllClients(k, ServerList(walk, cluster)) ==>
                        Disciplined(walk, k, delay)
  {
    now := [Create(MeshGateway(cluster))];
    var waits := WaitForTokenOnServers(walk, cluster, MeshGateway(cluster));
    delay := waits + [Save(MeshGateway(cluster))];
    DueInOne(Create(MeshGateway(cluster)));
    WaitAndSaveOwes(ServerList(walk, cluster), MeshGateway(cluster));
    assert delay == GatewayDelay(ServerList(walk, cluster), cluster);
    hide GatewayDelay, ServerList, AllClients, Disciplined, DueIn;
    forall k | AllClients(k, ServerList(walk, cluster)) ensures Disciplined(walk, k, now + delay) {
      GatewayNowDisciplined(walk, k, cluster);
    }
    forall k: Known | MeshGateway(cluster) in k.made && AllClients(k, ServerList(walk, cluster)) ensures Disciplined(walk, k, delay) {
      GatewayDelayDisciplined(walk, k, cluster);
    }
  }

  // ---------------------------------------------------------------- one cluster

  /** initPrimaryCluster, on the nodes of a walk, whose names are always apart. */
  method InitPrimaryCluster(walk: seq<Node>, setup: Setup, cluster: string) returns (script: seq<Action>)
    requires NamesApart(walk) && (setup.link == Federate ==> cluster == PRIMARY_CLUSTER)
    ensures script == PrimaryScript(walk, setup, cluster)
    ensures forall k :: Disciplined(walk, k, script)
    ensures forall k :: !setup.aclsDisabled && setup.link == Federate ==> ReplicationReady(walk, After(walk, k, script))
    ensures !setup.aclsDisabled ==> ClusterDue(walk, setup, cluster) <= DueIn(script)
    ensures Refuse in script <==> !setup.aclsDisabled && setup.kubernetes && setup.link == Peer
  {
    script := PrimaryActions(walk, setup, cluster);
    PrimaryRefuses(walk, setup, cluster);
    hide PrimaryScript, ReplicationReady, ClusterDue, NamesApart, Disciplined, After;
    if setup.aclsDisabled {
      forall k ensures Disciplined(walk, k, script) {
        PrimaryWithoutACLs(walk, setup, k, cluster);
      }
    } else {
      PrimaryOwes(walk, setup, cluster);
      forall k
        ensures Disciplined(walk, k, script)
        ensures setup.link == Federate ==> ReplicationReady(walk, After(walk, k, script))
      {
        PrimaryDisciplined(walk, setup, k, cluster);
      }
    }
  }

  lemma PrimaryRefuses(walk: seq<Node>, setup: Setup, c: string)
    ensures Refuse in PrimaryScript(walk, setup, c) <==> !setup.aclsDisabled && setup.kubernetes && setup.link == Peer
  {
    if !setup.aclsDisabled {
      PrimaryOwes(walk, setup, c);
      InClusterDue(walk, setup, c, Refusal);
      RefusalIsRefuse(PrimaryScript(walk, setup, c));
      hide PrimaryScript, DueIn, ClusterDue;
    }
  }

  lemma SecondaryScriptRefuses(walk: seq<Node>, setup: Setup, c: string)
    ensures Refuse in SecondaryScript(walk, setup, c) <==> !setup.aclsDisabled && setup.kubernetes
  {
    if !setup.aclsDisabled {
      SecondaryOwes(walk, setup, c);
      InClusterDue(walk, setup, c, Refusal);
      RefusalIsRefuse(SecondaryScript(walk, setup, c));
      hide SecondaryScript, DueIn, ClusterDue;
    }
  }

  lemma PrimaryWithoutACLs(walk: seq<Node>, setup: Setup, k: Known, c: string)
    requires setup.aclsDisabled
    ensures Disciplined(walk, k, PrimaryScript(walk, setup, c)) && Disciplined(walk, k, SecondaryScript(walk, setup, c))
  {
    hide Disciplined;
    ClientsOnlyDisciplined(walk, k, [MakeClients(c)]);
  }

  method PrimaryActions(walk: seq<Node>, setup: Setup, cluster: string) returns (script: seq<Action>)
    ensures script == PrimaryScript(walk, setup, cluster)
  {
    hide AgentsNow, AgentsDelay, ServicesNow, ServicesDelay, GatewayDelay, WaitAll, ServerList, AgentList, ServiceList,
      Disciplined, AllClients, DueIn;
    script := [MakeClients(cluster)];
    if setup.aclsDisabled {
      return;
    }
    if setup.link == Federate {
      var waits := WaitForTokenOnServers(walk, PRIMARY_CLUSTER, Replication);
      script := script + ([Create(Replication), SetToken(ReplicationKey, Replication)] + waits);
    } else {
      script := script + [];
    }
    var now, delay := CreateMeshGatewayTokenDelayWrite(walk, cluster);
    script := script + (now + delay);
    now, delay := CreateAgentTokensDelayWrite(walk, cluster);
    script := script + (now + delay);
    var agents := AgentsIn(walk, cluster);
    script := script + [InjectLoop(agents), Create(Anonymous)];
    if setup.kubernetes {
      script := script + if setup.link == Peer then [Refuse] else [];
    } else {
      now, delay := CreateServiceTokensDelayWrite(walk, cluster);
      script := script + (now + delay);
    }
  }

  /** One round of initSecondaryDCs, for a boot that knows the master token. */
  method InitSecondaryDC(walk: seq<Node>, setup: Setup, cluster: string) returns (script: seq<Action>)
    requires NamesApart(walk)
    ensures script == SecondaryScript(walk, setup, cluster)
    ensures forall k: Known :: Master in k.made ==> Disciplined(walk, k, script)
    ensures forall k :: ReplicationReady(walk, k) ==> ReplicationReady(walk, After(walk, k, script))
    ensures Refuse in script <==> !setup.aclsDisabled && setup.kubernetes
    ensures !setup.aclsDisabled && !setup.kubernetes ==> DueIn(script) == ClusterDue(walk, setup, cluster)
  {
    script := SecondaryActions(walk, setup, cluster);
    SecondarySpares(walk, setup, cluster);
    SecondaryScriptRefuses(walk, setup, cluster);
    hide SecondaryScript, ReplicationReady, ClusterDue, NamesApart, Disciplined, After, SparesReplication;
    forall k | ReplicationReady(walk, k) ensures ReplicationReady(walk, After(walk, k, script)) {
      SparingKeepsReplication(walk, k, script);
    }
    if setup.aclsDisabled {
      forall k ensures Disciplined(walk, k, script) {
        PrimaryWithoutACLs(walk, setup, k, cluster);
      }
    } else {
      SecondaryOwes(walk, setup, cluster);
      forall k: Known | Master in k.made ensures Disciplined(walk, k, script) {
        SecondaryDisciplined(walk, setup, k, cluster);
      }
    }
  }

  lemma SecondarySpares(walk: seq<Node>, setup: Setup, c: string)
    requires NamesApart(walk)
    ensures SparesReplication(SecondaryScript(walk, setup, c))
  {
    if !setup.aclsDisabled {
      hide SecondaryScript, SparesReplication, NamesApart;
      SecondaryDisciplined(walk, setup, NOTHING_KNOWN, c);
    }
  }

  method SecondaryActions(walk: seq<Node>, setup: Setup, cluster: string) returns (script: seq<Action>)
    ensures script == SecondaryScript(walk, setup, cluster)
  {
    hide AgentsNow, AgentsDelay, ServicesNow, ServicesDelay, GatewayDelay, WaitAll, ServerList, AgentList, ServiceList,
      Disciplined, AllClients, DueIn;
    if setup.aclsDisabled {
      return [MakeClients(cluster)];
    }
    var mgwNow, mgwDelay := CreateMeshGatewayTokenDelayWrite(walk, cluster);
    var agentNow, agentDelay := CreateAgentTokensDelayWrite(walk, cluster);
    script := [MakeClients(cluster)] + mgwNow + agentNow;
    if setup.kubernetes {
      return script + [Refuse];
    }
    var svcNow, svcDelay := CreateServiceTokensDelayWrite(walk, cluster);
    var masterWaits := WaitForTokenOnServers(walk, cluster, Master);
    var agents := AgentsIn(walk, cluster);
    script := script + (svcNow + masterWaits + mgwDelay + agentDelay + svcDelay + [InjectLoop(agents)]);
  }

  // ---------------------------------------------------------------- the whole boot

  /** injectReplicationToken: the token is looked up once and handed to every server outside the primary. */
  method InjectReplicationToken(walk: seq<Node>) returns (script: seq<Action>)
    ensures script == [MustGet(ReplicationKey)] + ReplicationHandout(SecondaryServers(walk))
    ensures forall k :: ReplicationReady(walk, k) ==> Disciplined(walk, k, script)
    ensures forall n :: n in walk && n.cluster != PRIMARY_CLUSTER && n.IsServer() ==> Replicated(n.name) in DueIn(script)
  {
    script := [MustGet(ReplicationKey)];
    for i := 0 to |walk|
      invariant script == [MustGet(ReplicationKey)] + ReplicationHandout(SecondaryServers(walk[..i]))
    {
      assert walk[..i + 1][..i] == walk[..i];
      var node := walk[i];
      if node.cluster == PRIMARY_CLUSTER || !node.IsServer() {
        continue;
      }
      HandoutOneMore(SecondaryServers(walk[..i]), node);
      script := script + [InjectReplication(node)];
    }
    assert walk[..|walk|] == walk;
    var setup := Setup(Federate, false, false, false);
    assert script == Handout(walk, setup);
    hide Handout, ReplicationHandout, SecondaryServers, ReplicationReady, Disciplined, DueIn;
    forall k | ReplicationReady(walk, k) ensures Disciplined(walk, k, script) {
      HandoutScriptDisciplined(walk, setup, k);
    }
    forall n | n in walk && n.cluster != PRIMARY_CLUSTER && n.IsServer() ensures Replicated(n.name) in DueIn(script) {
      HandoutOwes(walk, setup, Replicated(n.name));
    }
  }

  lemma HandoutOneMore(nodes: seq<Node>, n: Node)
    ensures ReplicationHandout(nodes + [n]) == ReplicationHandout(nodes) + [InjectReplication(n)]
  {
  }

  method InitSecondaryDCs(walk: seq<Node>, setup: Setup, clusters: seq<string>) returns (script: seq<Action>)
    requires NamesApart(walk)
    ensures script == Handout(walk, setup) + SecondaryScripts(walk, setup, clusters)
  {
    hide SecondaryScripts, NamesApart, Disciplined, ReplicationReady, DueIn;
    script := [];
    if !setup.aclsDisabled {
      script := InjectReplicationToken(walk);
    }
    var rounds := SecondaryRounds(walk, setup, clusters);
    script := script + rounds;
  }

  /** The loop over the clusters other than the primary. */
  method SecondaryRounds(walk: seq<Node>, setup: Setup, clusters: seq<string>) returns (script: seq<Action>)
    requires NamesApart(walk)
    ensures script == SecondaryScripts(walk, setup, clusters)
  {
    hide SecondaryScript, NamesApart, Disciplined, ReplicationReady, After, ClusterDue, DueIn;
    script := [];
    for i := 0 to |clusters|
      invariant script == SecondaryScripts(walk, setup, clusters[..i])
    {
      assert clusters[..i + 1][..i] == clusters[..i];
      if clusters[i] == PRIMARY_CLUSTER {
        continue;
      }
      var more := InitSecondaryDC(walk, setup, clusters[i]);
      script := script + more;
    }
    assert clusters[..|clusters|] == clusters;
  }

  method InitPrimaries(walk: seq<Node>, setup: Setup, clusters: seq<string>) returns (script: seq<Action>)
    requires NamesApart(walk) && setup.link == Peer
    ensures script == PrimaryScripts(walk, setup, clusters)
  {
    hide PrimaryScript, NamesApart, Disciplined, ReplicationReady, After, ClusterDue, DueIn;
    script := [];
    for i := 0 to |clusters|
      invariant script == PrimaryScripts(walk, setup, clusters[..i])
    {
      assert clusters[..i + 1][..i] == clusters[..i];
      var more := InitPrimaryCluster(walk, setup, clusters[i]);
      script := script + more;
    }
    assert clusters[..|clusters|] == clusters;
  }

  /**
   * The token part of runBoot, from the point where the master token is known: nothing is released before it was
   * waited for, it refuses exactly the setups it must, and otherwise every cluster that is booted gets what it is
   * owed.
   */
  method RunBoot(walk: seq<Node>, setup: Setup, clusters: seq<string>) returns (script: seq<Action>)
    requires NamesApart(walk)
    ensures script == BootActions(walk, setup, clusters) && Disciplined(walk, NOTHING_KNOWN, script)
    ensures Refuse in script <==>
            || (setup.link == Peer && setup.primaryOnly)
            || (!setup.aclsDisabled && setup.kubernetes && setup.link == Peer && clusters != [])
            || (!setup.aclsDisabled && setup.kubernetes && setup.link == Federate && !setup.primaryOnly &&
                |clusters| > 1 && exists c :: c in clusters && c != "dc1")
    ensures !setup.aclsDisabled && PRIMARY_CLUSTER in clusters && Refuse !in script ==>
              forall c :: Booted(setup, clusters, c) ==> ClusterDue(walk, setup, c) <= DueIn(script)
    ensures !setup.aclsDisabled && PRIMARY_CLUSTER in clusters && Refuse !in script && setup.link == Federate && !setup.primaryOnly ==>
              forall n :: n in walk && n.cluster in clusters && n.cluster != PRIMARY_CLUSTER && n.IsServer() ==>
                Replicated(n.name) in DueIn(script)
  {
    script := BootScriptOf(walk, setup, clusters);
    BootIsDisciplined(walk, setup, clusters);
    RefusesExactly(walk, setup, clusters);
    hide BootActions, Disciplined, NamesApart, DueIn, ClusterDue;
    if !setup.aclsDisabled && PRIMARY_CLUSTER in clusters && Refuse !in script {
      forall c | Booted(setup, clusters, c) ensures ClusterDue(walk, setup, c) <= DueIn(script) {
        BootOwes(walk, setup, clusters, c);
      }
      if setup.link == Federate && !setup.primaryOnly {
        forall n | n in walk && n.cluster in clusters && n.cluster != PRIMARY_CLUSTER && n.IsServer()
          ensures Replicated(n.name) in DueIn(script)
        {
          BootOwes(walk, setup, clusters, n.cluster);
        }
      }
    }
  }

  method BootScriptOf(walk: seq<Node>, setup: Setup, clusters: seq<string>) returns (script: seq<Action>)
    requires NamesApart(walk)
    ensures script == BootActions(walk, setup, clusters)
  {
    hide PrimaryScript, PrimaryScripts, SecondaryScripts, Handout, NamesApart, Disciplined, ReplicationReady, After, ClusterDue, DueIn;
    if setup.primaryOnly && setup.link != Federate {
      return [Refuse];
    }
    match setup.link {
      case Federate => script := InitPrimaryCluster(walk, setup, PRIMARY_CLUSTER);
      case Peer => script := InitPrimaries(walk, setup, clusters);
    }
    if !setup.primaryOnly && setup.link == Federate && |clusters| > 1 {
      var more := InitSecondaryDCs(walk, setup, clusters);
      script := script + more;
    } else {
      assert script + [] == script;
    }
  }
}
