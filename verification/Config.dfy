/** config/config.go and config/parse.go: the runtime configuration and its validation. */
module Config {
  import opened Text
  import opened Sorting

  const PRIMARY_CLUSTER := "dc1"
  const SERVICE_PING := "ping"
  const SERVICE_PONG := "pong"

  datatype Cluster = Cluster(name: string, servers: int, clients: int, meshGateways: int)

  datatype Partition = Partition(name: string, namespaces: seq<string>)

  datatype NodeConfig = NodeConfig(
    nodeName: string,
    mode: string,
    segment: string,
    partition: string,
    upstreamName: string,
    upstreamNamespace: string,
    upstreamPartition: string,
    upstreamPeer: string,
    upstreamDatacenter: string,
    upstreamExtraHCL: string,
    serviceMeta: map<string, string>,
    serviceNamespace: string,
    useBuiltinProxy: bool,
    dead: bool,
    retainInPrimaryGatewaysList: bool,
    useDNSWANAddress: bool)

  const ZERO_NODE := NodeConfig("", "", "", "", "", "", "", "", "", "", map[], "", false, false, false, false)

  datatype Versions = Versions(consulImage: string, envoy: string, dataplaneImage: string)

  datatype Config = Config(
    canaryVersions: Versions,
    canaryNodes: seq<string>,
    encryptionTLS: bool,
    encryptionTLSAPI: bool,
    encryptionTLSGRPC: bool,
    encryptionServerTLSGRPC: bool,
    disableACLs: bool,
    disableDefaultIntentions: bool,
    kubernetesEnabled: bool,
    prometheusEnabled: bool,
    enterpriseEnabled: bool,
    enterpriseSegments: map<string, int>,
    enterprisePartitions: seq<Partition>,
    enterpriseLicensePath: string,
    networkShape: string,
    linkMode: string,
    nodeMode: string,
    clusters: seq<Cluster>,
    nodes: seq<NodeConfig>)
  {
    predicate CanaryConfigured() { canaryVersions.consulImage != "" && canaryVersions.envoy != "" }
  }

  /** The shared pointer through which the program reads and updates one configuration. */
  class ConfigRef {
    var value: Config
    constructor (v: Config)
      ensures value == v
    {
      value := v;
    }
  }

  /** The first node entry of that name. */
  function FindNode(nodes: seq<NodeConfig>, name: string): Option<NodeConfig> {
    if nodes == [] then None
    else if nodes[0].nodeName == name then Some(nodes[0])
    else FindNode(nodes[1..], name)
  }

  lemma {:induction false} FindNodeFinds(nodes: seq<NodeConfig>, name: string)
    ensures FindNode(nodes, name).Some? ==>
              FindNode(nodes, name).value in nodes && FindNode(nodes, name).value.nodeName == name
    ensures FindNode(nodes, name).None? <==> forall n :: n in nodes ==> n.nodeName != name
  {
    if nodes != [] {
      FindNodeFinds(nodes[1..], name);
      assert nodes == [nodes[0]] + nodes[1..];
    }
  }

  // ---------------------------------------------------------------- validation

  datatype Problem =
    | KubernetesWithEnterprise
    | NoLicense
    | SegmentsWithoutEnterprise
    | PartitionsWithoutEnterprise
    | NodeOutsideTenancy(node: NodeConfig)
    | PeeringWithoutTLS
    | PartitionsWithSecondary
    | UnnamedPartition
    | DuplicatePartition(name: string)
    | UnnamedNamespace(partition: string)
    | DuplicateNamespace(partition: string, name: string)
    | TLSMissing
    | CanaryVersionsIncomplete
    | PrometheusWithoutACLs

  /** What validation accepts of one node entry. */
  predicate NodeOk(cfg: Config, n: NodeConfig) {
    if cfg.enterpriseEnabled then
      n.segment == "" || n.segment in cfg.enterpriseSegments
    else
      n.segment == "" && n.partition == "" && n.upstreamPartition == "" &&
      n.serviceNamespace == "" && n.upstreamNamespace == ""
  }

  ghost predicate NamespacesOk(p: Partition) { "" !in p.namespaces && NoDuplicates(p.namespaces) }

  ghost predicate PartitionsOk(ps: seq<Partition>) {
    && (forall i :: 0 <= i < |ps| ==> ps[i].name != "" && NamespacesOk(ps[i]))
    && (forall i, j :: 0 <= i < j < |ps| ==> ps[i].name != ps[j].name)
  }

  predicate HasSecondary(cfg: Config) {
    cfg.linkMode == "federate" && exists i :: 0 <= i < |cfg.clusters| && cfg.clusters[i].name != PRIMARY_CLUSTER
  }

  predicate CanaryOk(v: Versions) {
    (v.consulImage != "") == (v.envoy != "" || v.dataplaneImage != "")
  }

  predicate EnterpriseOk(cfg: Config) {
    && !(cfg.enterpriseEnabled && cfg.kubernetesEnabled)
    && (cfg.enterpriseEnabled ==> cfg.enterpriseLicensePath != "")
    && (!cfg.enterpriseEnabled ==> cfg.enterpriseSegments == map[] && cfg.enterprisePartitions == [])
  }

  predicate NodesOk(cfg: Config) { forall i :: 0 <= i < |cfg.nodes| ==> NodeOk(cfg, cfg.nodes[i]) }

  ghost predicate LinksOk(cfg: Config) {
    && (cfg.linkMode == "peer" ==>
          cfg.encryptionTLS && (cfg.encryptionTLSGRPC || cfg.encryptionServerTLSGRPC))
    && (cfg.enterprisePartitions != [] ==> !HasSecondary(cfg) && PartitionsOk(cfg.enterprisePartitions))
  }

  predicate SecurityOk(cfg: Config) {
    && (cfg.encryptionTLSAPI || cfg.encryptionTLSGRPC ==> cfg.encryptionTLS)
    && CanaryOk(cfg.canaryVersions)
    && !(cfg.prometheusEnabled && cfg.disableACLs)
  }

  /** Everything a configuration must meet to be accepted. */
  ghost predicate Acceptable(cfg: Config) {
    EnterpriseOk(cfg) && NodesOk(cfg) && LinksOk(cfg) && SecurityOk(cfg)
  }

  /** The complaint is justified by the configuration. */
  ghost predicate Justified(p: Problem, cfg: Config) {
    match p
    case KubernetesWithEnterprise => cfg.enterpriseEnabled && cfg.kubernetesEnabled
    case NoLicense => cfg.enterpriseEnabled && cfg.enterpriseLicensePath == ""
    case SegmentsWithoutEnterprise => !cfg.enterpriseEnabled && cfg.enterpriseSegments != map[]
    case PartitionsWithoutEnterprise => !cfg.enterpriseEnabled && cfg.enterprisePartitions != []
    case NodeOutsideTenancy(n) => n in cfg.nodes && !NodeOk(cfg, n)
    case PeeringWithoutTLS =>
      cfg.linkMode == "peer" && !(cfg.encryptionTLS && (cfg.encryptionTLSGRPC || cfg.encryptionServerTLSGRPC))
    case PartitionsWithSecondary => cfg.enterprisePartitions != [] && HasSecondary(cfg)
    case UnnamedPartition => exists i :: 0 <= i < |cfg.enterprisePartitions| && cfg.enterprisePartitions[i].name == ""
    case DuplicatePartition(n) =>
      exists i, j :: 0 <= i < j < |cfg.enterprisePartitions|
                     && cfg.enterprisePartitions[i].name == cfg.enterprisePartitions[j].name == n
    case UnnamedNamespace(n) =>
      exists i :: 0 <= i < |cfg.enterprisePartitions| && cfg.enterprisePartitions[i].name == n
                  && "" in cfg.enterprisePartitions[i].namespaces
    case DuplicateNamespace(n, ns) =>
      exists i :: 0 <= i < |cfg.enterprisePartitions| && cfg.enterprisePartitions[i].name == n
                  && ns in cfg.enterprisePartitions[i].namespaces && !NoDuplicates(cfg.enterprisePartitions[i].namespaces)
    case TLSMissing => (cfg.encryptionTLSAPI || cfg.encryptionTLSGRPC) && !cfg.encryptionTLS
    case CanaryVersionsIncomplete => !CanaryOk(cfg.canaryVersions)
    case PrometheusWithoutACLs => cfg.prometheusEnabled && cfg.disableACLs
  }

  method CheckNamespaces(p: Partition) returns (problem: Option<Problem>)
    ensures problem.None? <==> NamespacesOk(p)
    ensures problem.Some? ==>
              (problem.value == UnnamedNamespace(p.name) && "" in p.namespaces) ||
              (problem.value.DuplicateNamespace? && problem.value.partition == p.name &&
               problem.value.name in p.namespaces && !NoDuplicates(p.namespaces))
  {
    var seen: set<string> := {};
    for i := 0 to |p.namespaces|
      invariant seen == set k | 0 <= k < i :: p.namespaces[k]
      invariant "" !in p.namespaces[..i]
      invariant NoDuplicates(p.namespaces[..i])
    {
      var ns := p.namespaces[i];
      assert p.namespaces[..i + 1] == p.namespaces[..i] + [ns];
      if ns == "" {
        return Some(UnnamedNamespace(p.name));
      }
      if ns in seen {
        ghost var k :| 0 <= k < i && p.namespaces[k] == ns;
        return Some(DuplicateNamespace(p.name, ns));
      }
      seen := seen + {ns};
    }
    assert p.namespaces[..|p.namespaces|] == p.namespaces;
    problem := None;
  }

  method CheckPartitions(ps: seq<Partition>) returns (problem: Option<Problem>)
    ensures problem.None? <==> PartitionsOk(ps)
    ensures problem.Some? ==> match problem.value
              case UnnamedPartition => exists i :: 0 <= i < |ps| && ps[i].name == ""
              case DuplicatePartition(n) => exists i, j :: 0 <= i < j < |ps| && ps[i].name == ps[j].name == n
              case UnnamedNamespace(n) => exists i :: 0 <= i < |ps| && ps[i].name == n && "" in ps[i].namespaces
              case DuplicateNamespace(n, ns) =>
                exists i :: 0 <= i < |ps| && ps[i].name == n && ns in ps[i].namespaces && !NoDuplicates(ps[i].namespaces)
              case _ => false
  {
    var seen: set<string> := {};
    for i := 0 to |ps|
      invariant seen == set k | 0 <= k < i :: ps[k].name
      invariant PartitionsOk(ps[..i])
    {
      var ap := ps[i];
      if ap.name == "" {
        return Some(UnnamedPartition);
      }
      if ap.name in seen {
        ghost var k :| 0 <= k < i && ps[k].name == ap.name;
        return Some(DuplicatePartition(ap.name));
      }
      seen := seen + {ap.name};
      problem := CheckNamespaces(ap);
      if problem.Some? {
        return;
      }
    }
    assert ps[..|ps|] == ps;
    problem := None;
  }

  method CheckNodes(cfg: Config) returns (problem: Option<Problem>)
    ensures problem.None? <==> NodesOk(cfg)
    ensures problem.Some? ==> problem.value.NodeOutsideTenancy? && Justified(problem.value, cfg)
  {
    for i := 0 to |cfg.nodes|
      invariant forall k :: 0 <= k < i ==> NodeOk(cfg, cfg.nodes[k])
    {
      var n := cfg.nodes[i];
      if cfg.enterpriseEnabled {
        if n.segment != "" {
          if n.segment !in cfg.enterpriseSegments {
            return Some(NodeOutsideTenancy(n));
          }
        }
      } else if n.segment != "" || n.partition != "" || n.upstreamPartition != ""
                || n.serviceNamespace != "" || n.upstreamNamespace != "" {
        return Some(NodeOutsideTenancy(n));
      }
    }
    problem := None;
  }

  method CheckEnterprise(cfg: Config) returns (problem: Option<Problem>)
    ensures problem.None? <==> EnterpriseOk(cfg)
    ensures problem.Some? ==> Justified(problem.value, cfg)
  {
    if cfg.enterpriseEnabled && cfg.kubernetesEnabled {
      return Some(KubernetesWithEnterprise);
    }
    if cfg.enterpriseEnabled && cfg.enterpriseLicensePath == "" {
      return Some(NoLicense);
    }
    if !cfg.enterpriseEnabled && |cfg.enterpriseSegments| > 0 {
      return Some(SegmentsWithoutEnterprise);
    }
    if !cfg.enterpriseEnabled && |cfg.enterprisePartitions| > 0 {
      return Some(PartitionsWithoutEnterprise);
    }
    return None;
  }

  method CheckLinks(cfg: Config) returns (problem: Option<Problem>)
    ensures problem.None? <==> LinksOk(cfg)
    ensures problem.Some? ==> Justified(problem.value, cfg)
  {
    var hasSecondary := false;
    if cfg.linkMode == "federate" {
      for i := 0 to |cfg.clusters|
        invariant hasSecondary <==> exists k :: 0 <= k < i && cfg.clusters[k].name != PRIMARY_CLUSTER
      {
        if cfg.clusters[i].name != PRIMARY_CLUSTER {
          hasSecondary := true;
        }
      }
    }
    if cfg.linkMode == "peer" {
      if !cfg.encryptionTLS || (!cfg.encryptionTLSGRPC && !cfg.encryptionServerTLSGRPC) {
        return Some(PeeringWithoutTLS);
      }
    }
    if |cfg.enterprisePartitions| > 0 {
      if hasSecondary {
        return Some(PartitionsWithSecondary);
      }
      problem := CheckPartitions(cfg.enterprisePartitions);
      return;
    }
    return None;
  }

  method CheckSecurity(cfg: Config) returns (problem: Option<Problem>)
    ensures problem.None? <==> SecurityOk(cfg)
    ensures problem.Some? ==> Justified(problem.value, cfg)
  {
    if (cfg.encryptionTLSAPI || cfg.encryptionTLSGRPC) && !cfg.encryptionTLS {
      return Some(TLSMissing);
    }
    var v := cfg.canaryVersions;
    if (v.consulImage == "" && v.envoy != "") || (v.consulImage == "" && v.dataplaneImage != "")
       || (v.consulImage != "" && v.envoy == "" && v.dataplaneImage == "") {
      return Some(CanaryVersionsIncomplete);
    }
    if cfg.prometheusEnabled && cfg.disableACLs {
      return Some(PrometheusWithoutACLs);
    }
    return None;
  }

  method CheckConfig(cfg: Config) returns (problem: Option<Problem>)
    ensures problem.None? <==> Acceptable(cfg)
    ensures problem.Some? ==> Justified(problem.value, cfg)
  {
    problem := CheckEnterprise(cfg);
    if problem.None? {
      problem := CheckNodes(cfg);
    }
    if problem.None? {
      problem := CheckLinks(cfg);
    }
    if problem.None? {
      problem := CheckSecurity(cfg);
    }
  }

  /** validateConfig: drops a license path nobody needs, then accepts exactly the acceptable. */
  method ValidateConfig(ref: ConfigRef) returns (problem: Option<Problem>)
    modifies ref
    ensures ref.value == if !old(ref.value).enterpriseEnabled
                         then old(ref.value).(enterpriseLicensePath := "") else old(ref.value)
    ensures problem.None? <==> Acceptable(ref.value)
    ensures problem.Some? ==> Justified(problem.value, ref.value)
  {
    if !ref.value.enterpriseEnabled && ref.value.enterpriseLicensePath != "" {
      ref.value := ref.value.(enterpriseLicensePath := "");
    }
    problem := CheckConfig(ref.value);
  }

  /** What it takes to be accepted, switch by switch and entry by entry. */
  lemma AcceptsExactly(cfg: Config)
    ensures Acceptable(cfg) <==>
            && (cfg.enterpriseEnabled ==> !cfg.kubernetesEnabled && cfg.enterpriseLicensePath != "")
            && (!cfg.enterpriseEnabled ==> cfg.enterpriseSegments == map[] && cfg.enterprisePartitions == [])
            && (forall n :: n in cfg.nodes ==>
                  if cfg.enterpriseEnabled then n.segment != "" ==> n.segment in cfg.enterpriseSegments
                  else [n.segment, n.partition, n.upstreamPartition, n.serviceNamespace, n.upstreamNamespace] == ["", "", "", "", ""])
            && (cfg.linkMode == "peer" ==> cfg.encryptionTLS && (cfg.encryptionTLSGRPC || cfg.encryptionServerTLSGRPC))
            && (cfg.enterprisePartitions != [] && cfg.linkMode == "federate" ==> forall c :: c in cfg.clusters ==> c.name == "dc1")
            && (forall p :: p in cfg.enterprisePartitions ==> p.name != "" && "" !in p.namespaces && NoDuplicates(p.namespaces))
            && NoDuplicates(PartitionNames(cfg.enterprisePartitions))
            && (cfg.encryptionTLSAPI || cfg.encryptionTLSGRPC ==> cfg.encryptionTLS)
            && (cfg.canaryVersions.consulImage == "" <==> cfg.canaryVersions.envoy == "" && cfg.canaryVersions.dataplaneImage == "")
            && !(cfg.prometheusEnabled && cfg.disableACLs)
  {
    NodesFit(cfg);
    PartitionsFit(cfg.enterprisePartitions);
    assert HasSecondary(cfg) <==> cfg.linkMode == "federate" && exists c :: c in cfg.clusters && c.name != "dc1" by {
      if c :| c in cfg.clusters && c.name != "dc1" {
        var i :| 0 <= i < |cfg.clusters| && cfg.clusters[i] == c;
      }
    }
    hide NodesOk, PartitionsOk, HasSecondary, PartitionNames;
    assert cfg.enterprisePartitions == [] ==> NoDuplicates(PartitionNames(cfg.enterprisePartitions));
  }

  function PartitionNames(ps: seq<Partition>): seq<string> { seq(|ps|, i requires 0 <= i < |ps| => ps[i].name) }

  lemma NodesFit(cfg: Config)
    ensures NodesOk(cfg) <==> forall n :: n in cfg.nodes ==>
              if cfg.enterpriseEnabled then n.segment != "" ==> n.segment in cfg.enterpriseSegments
              else [n.segment, n.partition, n.upstreamPartition, n.serviceNamespace, n.upstreamNamespace] == ["", "", "", "", ""]
  {
    forall n: NodeConfig
      ensures [n.segment, n.partition, n.upstreamPartition, n.serviceNamespace, n.upstreamNamespace] == ["", "", "", "", ""] <==>
              n.segment == "" && n.partition == "" && n.upstreamPartition == "" && n.serviceNamespace == "" && n.upstreamNamespace == ""
    {
      var a := [n.segment, n.partition, n.upstreamPartition, n.serviceNamespace, n.upstreamNamespace];
      var b := ["", "", "", "", ""];
      assert a == b ==> a[0] == b[0] && a[1] == b[1] && a[2] == b[2] && a[3] == b[3] && a[4] == b[4];
    }
    if NodesOk(cfg) {
      forall n | n in cfg.nodes ensures NodeOk(cfg, n) {
        var i :| 0 <= i < |cfg.nodes| && cfg.nodes[i] == n;
      }
    }
    assert forall i :: 0 <= i < |cfg.nodes| ==> cfg.nodes[i] in cfg.nodes;
  }

  lemma PartitionsFit(ps: seq<Partition>)
    ensures PartitionsOk(ps) <==>
            && (forall p :: p in ps ==> p.name != "" && "" !in p.namespaces && NoDuplicates(p.namespaces))
            && NoDuplicates(PartitionNames(ps))
    ensures NoDuplicates(PartitionNames([]))
  {
    hide NoDuplicates;
    assert NoDuplicates(PartitionNames(ps)) <==> forall i, j :: 0 <= i < j < |ps| ==> ps[i].name != ps[j].name by {
      PartitionNamesApart(ps);
    }
    PartitionNamesApart([]);
    if PartitionsOk(ps) {
      forall p | p in ps ensures p.name != "" && NamespacesOk(p) {
        var i :| 0 <= i < |ps| && ps[i] == p;
      }
    }
    assert forall i :: 0 <= i < |ps| ==> ps[i] in ps;
  }

  lemma PartitionNamesApart(ps: seq<Partition>)
    ensures NoDuplicates(PartitionNames(ps)) <==> forall i, j :: 0 <= i < j < |ps| ==> ps[i].name != ps[j].name
  {
    var names := PartitionNames(ps);
    assert forall i :: 0 <= i < |ps| ==> names[i] == ps[i].name;
    if NoDuplicates(names) {
      forall i, j | 0 <= i < j < |ps| ensures ps[i].name != ps[j].name {
        assert names[i] != names[j];
      }
    }
  }
}
