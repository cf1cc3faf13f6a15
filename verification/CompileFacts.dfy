/** Which configurations compile, in terms of the configuration alone. */
module CompileFacts {
  import opened Text
  import opened Config
  import opened Compile
  import opened NodeFacts

  /** The switches have known values that go together. */
  predicate SwitchesFit(cfg: Config) {
    && cfg.networkShape in {"islands", "dual", "flat", ""}
    && cfg.nodeMode in {"agent", "dataplane"}
    && cfg.linkMode in {"peer", "federate"}
    && (forall n :: n in cfg.nodes ==> n.mode in {"agent", "dataplane", ""})
    && (cfg.networkShape in {"islands", "dual"} ==> cfg.linkMode == "federate" && !cfg.prometheusEnabled)
    && (cfg.networkShape == "islands" ==> cfg.encryptionTLS)
  }

  /** The cluster has a name like dc1 whose number an int can hold, servers, and between 1 and 50 clients. */
  predicate ClusterFits(k: Cluster) {
    && k.meshGateways >= 0 && k.servers >= 1 && 1 <= k.clients + k.meshGateways <= 50
    && |k.name| > 2 && k.name[..2] == "dc" && AllDigits(k.name[2..]) && Value(k.name[2..]) <= 9223372036854775807
  }

  /** A server that has an entry is told to run an agent. */
  ghost predicate ServerEntryFits(cfg: Config, k: Cluster, idx: nat) {
    forall s :: SettingsFor(cfg, k.name + "-server" + Itoa(idx), s) && s.nodeName != "" ==> s.mode == "agent"
  }

  /** The settings of a client suit what it is, a gateway or a service. */
  ghost predicate ClientEntryFits(cfg: Config, k: Cluster, idx: nat) {
    var flat := cfg.networkShape != "islands" && cfg.networkShape != "dual";
    forall s :: SettingsFor(cfg, k.name + "-client" + Itoa(idx), s) ==>
      if idx > k.clients then
        && s.partition in {"", "default"} && (s.useDNSWANAddress ==> flat)
        && !(flat && s.dead && cfg.linkMode == "federate" && k.name == "dc1" && s.retainInPrimaryGatewaysList)
      else !s.useDNSWANAddress
  }

  lemma SwitchesFitExactly(cfg: Config)
    ensures ModesOk(cfg) <==> SwitchesFit(cfg)
  {
    if ModesOk(cfg) {
      forall n | n in cfg.nodes ensures n.mode in {"agent", "dataplane", ""} {
        var i :| 0 <= i < |cfg.nodes| && cfg.nodes[i] == n;
        assert NodeModeKnown(cfg.nodes[i]);
      }
    }
    if SwitchesFit(cfg) {
      forall i | 0 <= i < |cfg.nodes| ensures NodeModeKnown(cfg.nodes[i]) {
        assert cfg.nodes[i] in cfg.nodes;
      }
    }
  }

  lemma ClusterFitsExactly(k: Cluster)
    ensures ClusterOk(k) <==> ClusterFits(k)
  {
    if |k.name| == 2 {
      assert k.name[2..] == "";
    }
  }

  lemma ServerEntryFitsExactly(cfg: Config, k: Cluster, idx: nat)
    requires ModesOk(cfg) && ClusterOk(k)
    ensures ServerError(EnvOf(cfg), InfoOf(cfg.linkMode == "peer", k), idx).None? <==> ServerEntryFits(cfg, k, idx)
  {
    var env := EnvOf(cfg);
    var name := k.name + "-server" + Itoa(idx);
    hide Itoa, SettingsFor;
    assert NodeName(k.name, ServerRole, idx) == name;
    FindNodeFinds(cfg.nodes, name);
    forall s ensures SettingsFor(cfg, name, s) <==> s == SettingsOf(env, name) {
      SettingsAsConfigured(cfg, env, name, s);
    }
  }

  lemma ClientEntryFitsExactly(cfg: Config, k: Cluster, idx: nat)
    requires ModesOk(cfg) && ClusterOk(k)
    ensures ClientError(EnvOf(cfg), InfoOf(cfg.linkMode == "peer", k), idx).None? <==> ClientEntryFits(cfg, k, idx)
  {
    var env := EnvOf(cfg);
    var name := k.name + "-client" + Itoa(idx);
    hide Itoa, SettingsFor, SettingsOf;
    assert NodeName(k.name, ClientRole, idx) == name;
    forall s ensures SettingsFor(cfg, name, s) <==> s == SettingsOf(env, name) {
      SettingsAsConfigured(cfg, env, name, s);
    }
  }

  lemma NodesFitExactly(cfg: Config, k: Cluster)
    requires ModesOk(cfg) && ClusterOk(k)
    ensures NodesCompile(EnvOf(cfg), InfoOf(cfg.linkMode == "peer", k)) <==>
            && (forall idx :: 1 <= idx <= k.servers ==> ServerEntryFits(cfg, k, idx))
            && (forall idx :: 1 <= idx <= k.clients + k.meshGateways ==> ClientEntryFits(cfg, k, idx))
  {
    var env, c := EnvOf(cfg), InfoOf(cfg.linkMode == "peer", k);
    assert c.servers == k.servers && c.clients == k.clients + k.meshGateways;
    ClientsCompileEach(env, c, c.clients);
    hide EnvOf, InfoOf, ServerError, ClientError, ServerEntryFits, ClientEntryFits, ModesOk, ClusterOk;
    forall idx | 1 <= idx <= k.servers ensures ServerError(env, c, idx).None? <==> ServerEntryFits(cfg, k, idx) {
      ServerEntryFitsExactly(cfg, k, idx);
    }
    forall idx | 1 <= idx <= c.clients ensures ClientError(env, c, idx).None? <==> ClientEntryFits(cfg, k, idx) {
      ClientEntryFitsExactly(cfg, k, idx);
    }
  }

  /**
   * A configuration compiles exactly when its switches go together, "dc1" is among its clusters, every cluster is
   * well named and sized, and no node entry asks for what its node cannot be.
   */
  lemma CompilesExactly(cfg: Config)
    ensures Compilable(cfg) <==>
            && SwitchesFit(cfg)
            && (exists k :: k in cfg.clusters && k.name == "dc1")
            && forall k :: k in cfg.clusters ==>
                 && ClusterFits(k)
                 && (forall idx :: 1 <= idx <= k.servers ==> ServerEntryFits(cfg, k, idx))
                 && (forall idx :: 1 <= idx <= k.clients + k.meshGateways ==> ClientEntryFits(cfg, k, idx))
  {
    SwitchesFitExactly(cfg);
    forall k ensures ClusterOk(k) <==> ClusterFits(k) {
      ClusterFitsExactly(k);
    }
    hide SwitchesFit, ModesOk, ClusterOk, ClusterFits, ServerEntryFits, ClientEntryFits, NodesCompile, EnvOf, InfoOf;
    PrimaryIsListed(cfg);
    hide HasPrimary;
    if ModesOk(cfg) {
      forall k | ClusterOk(k)
        ensures NodesCompile(EnvOf(cfg), InfoOf(cfg.linkMode == "peer", k)) <==>
                && (forall idx :: 1 <= idx <= k.servers ==> ServerEntryFits(cfg, k, idx))
                && (forall idx :: 1 <= idx <= k.clients + k.meshGateways ==> ClientEntryFits(cfg, k, idx))
      {
        NodesFitExactly(cfg, k);
      }
      ForEachCluster(cfg);
    }
  }

  lemma PrimaryIsListed(cfg: Config)
    ensures HasPrimary(cfg) <==> exists k :: k in cfg.clusters && k.name == "dc1"
  {
    if k :| k in cfg.clusters && k.name == "dc1" {
      var i :| 0 <= i < |cfg.clusters| && cfg.clusters[i] == k;
    }
  }

  lemma ForEachCluster(cfg: Config)
    requires ModesOk(cfg)
    ensures ClustersOk(cfg) <==> forall k :: k in cfg.clusters ==> ClusterOk(k)
    ensures ClustersOk(cfg) ==>
              ((forall i :: 0 <= i < |cfg.clusters| ==>
                  NodesCompile(EnvOf(cfg), InfoOf(cfg.linkMode == "peer", cfg.clusters[i]))) <==>
               forall k :: k in cfg.clusters ==> ClusterOk(k) && NodesCompile(EnvOf(cfg), InfoOf(cfg.linkMode == "peer", k)))
  {
    hide ClusterOk, NodesCompile, EnvOf, InfoOf, ModesOk;
    if ClustersOk(cfg) {
      forall k | k in cfg.clusters ensures ClusterOk(k) {
        var i :| 0 <= i < |cfg.clusters| && cfg.clusters[i] == k;
      }
      if forall i :: 0 <= i < |cfg.clusters| ==> NodesCompile(EnvOf(cfg), InfoOf(cfg.linkMode == "peer", cfg.clusters[i])) {
        forall k | k in cfg.clusters ensures NodesCompile(EnvOf(cfg), InfoOf(cfg.linkMode == "peer", k)) {
          var i :| 0 <= i < |cfg.clusters| && cfg.clusters[i] == k;
        }
      }
    }
  }
}
