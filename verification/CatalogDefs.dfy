/** structs/catalog_defs.go: the desired catalog, its registrations and its canonical order. */
module CatalogDefs {
  import opened Text
  import opened Sorting
  import opened Identifiers

  datatype CatalogNode = CatalogNode(
    node: string,
    address: string,
    nodeMeta: map<string, string>,
    partition: string)
  {
    function ID(): Identifier2 { NewIdentifier2(node, partition) }

    function ToAPI(enterprise: bool): Registration {
      Registration(node, if enterprise then partition else "", address, nodeMeta, false, None, None)
    }
  }

  datatype CatalogService = CatalogService(
    node: string,
    partition: string,
    service: string,
    meta: map<string, string>,
    port: int,
    address: string,
    ns: string,
    checkID: string,
    tcpCheck: string)
  {
    function NodeID(): Identifier2 { NewIdentifier2(node, partition) }
    function ID(): Identifier { NewIdentifier(service, ns, partition) }

    function ToAPI(enterprise: bool): Registration {
      var part, space := if enterprise then partition else "", if enterprise then ns else "";
      Registration(
        node, part, "", map[], true,
        Some(AgentService(Typical, service, service, meta, port, address, space, part, None)),
        Some(AgentCheck(checkID, "external sync", "external-sync", PASSING, service, tcpCheck, space, part)))
    }
  }

  datatype CatalogProxyUpstream = CatalogProxyUpstream(
    destinationPartition: string,
    destinationNamespace: string,
    destinationPeer: string,
    destinationName: string,
    datacenter: string,
    localBindPort: int)

  datatype CatalogProxy = CatalogProxy(
    base: CatalogService,
    destinationServiceName: string,
    localServicePort: int,
    upstreams: seq<CatalogProxyUpstream>)
  {
    function NodeID(): Identifier2 { base.NodeID() }
    function ID(): Identifier { base.ID() }

    function ToAPI(enterprise: bool): Registration {
      var r := base.ToAPI(enterprise);
      var proxy := ProxyConfig(
        destinationServiceName, destinationServiceName, localServicePort,
        seq(|upstreams|, i requires 0 <= i < |upstreams| =>
          if enterprise then upstreams[i]
          else upstreams[i].(destinationNamespace := "", destinationPartition := "")));
      r.(service := Some(r.service.value.(kind := ConnectProxy, proxy := Some(proxy))))
    }
  }

  const PASSING := "passing"
  const CRITICAL := "critical"
  const VIRTUAL := "devconsul-virtual"

  // ---------------------------------------------------------------- registrations

  datatype ServiceKind = Typical | ConnectProxy

  datatype ProxyConfig = ProxyConfig(
    destinationServiceName: string,
    destinationServiceID: string,
    localServicePort: int,
    upstreams: seq<CatalogProxyUpstream>)

  datatype AgentService = AgentService(
    kind: ServiceKind,
    id: string,
    service: string,
    meta: map<string, string>,
    port: int,
    address: string,
    ns: string,
    partition: string,
    proxy: Option<ProxyConfig>)

  datatype AgentCheck = AgentCheck(
    checkID: string,
    name: string,
    checkType: string,
    status: string,
    serviceID: string,
    tcp: string,
    ns: string,
    partition: string)

  datatype Registration = Registration(
    node: string,
    partition: string,
    address: string,
    nodeMeta: map<string, string>,
    skipNodeUpdate: bool,
    service: Option<AgentService>,
    check: Option<AgentCheck>)

  // ---------------------------------------------------------------- comparators

  predicate NodeLess(a: CatalogNode, b: CatalogNode) {
    if Less(a.partition, b.partition) then true
    else if Less(b.partition, a.partition) then false
    else Less(a.node, b.node)
  }

  predicate ServiceLess(a: CatalogService, b: CatalogService) {
    if Less(a.partition, b.partition) then true
    else if Less(b.partition, a.partition) then false
    else if Less(a.node, b.node) then true
    else if Less(b.node, a.node) then false
    else if Less(a.ns, b.ns) then true
    else if Less(b.ns, a.ns) then false
    else Less(a.service, b.service)
  }

  predicate ProxyLess(a: CatalogProxy, b: CatalogProxy) { ServiceLess(a.base, b.base) }

  function NodeKey(n: CatalogNode): seq<string> { [n.partition, n.node] }

  function ServiceKey(s: CatalogService): seq<string> { [s.partition, s.node, s.ns, s.service] }

  function ProxyKey(p: CatalogProxy): seq<string> { ServiceKey(p.base) }

  /** Lists of strings compared position by position: the order the comparators spell out. */
  predicate KeyLess(a: seq<string>, b: seq<string>) {
    if b == [] then false
    else if a == [] then true
    else if a[0] != b[0] then Less(a[0], b[0])
    else KeyLess(a[1..], b[1..])
  }

  lemma {:induction false} KeyLessIrreflexive(a: seq<string>)
    ensures !KeyLess(a, a)
  {
    if a != [] {
      KeyLessIrreflexive(a[1..]);
    }
  }

  lemma {:induction false} KeyLessTotal(a: seq<string>, b: seq<string>)
    requires a != b
    ensures KeyLess(a, b) != KeyLess(b, a)
  {
    if a != [] && b != [] {
      if a[0] == b[0] {
        assert a == [a[0]] + a[1..] && b == [b[0]] + b[1..];
        KeyLessTotal(a[1..], b[1..]);
      } else {
        LessTotal(a[0], b[0]);
      }
    }
  }

  lemma {:induction false} KeyLessTransitive(a: seq<string>, b: seq<string>, c: seq<string>)
    requires KeyLess(a, b) && KeyLess(b, c)
    ensures KeyLess(a, c)
  {
    if a != [] {
      if a[0] == b[0] == c[0] {
        KeyLessTransitive(a[1..], b[1..], c[1..]);
      } else if a[0] != b[0] && b[0] != c[0] {
        LessTransitive(a[0], b[0], c[0]);
        LessIrreflexive(a[0]);
      }
    }
  }

  lemma KeyLessStep(x: string, a: seq<string>, y: string, b: seq<string>)
    ensures KeyLess([x] + a, [y] + b) == if x != y then Less(x, y) else KeyLess(a, b)
  {
    assert ([x] + a)[1..] == a && ([y] + b)[1..] == b;
  }

  lemma NodeLessByKey(a: CatalogNode, b: CatalogNode)
    ensures NodeLess(a, b) == KeyLess(NodeKey(a), NodeKey(b))
  {
    Trichotomy(a.partition, b.partition);
    Trichotomy(a.node, b.node);
    KeyLessStep(a.partition, [a.node], b.partition, [b.node]);
    KeyLessStep(a.node, [], b.node, []);
    hide Less;
    assert NodeKey(a) == [a.partition] + [a.node] && NodeKey(b) == [b.partition] + [b.node];
    assert [a.node] == [a.node] + [] && [b.node] == [b.node] + [];
  }

  lemma ServiceLessByKey(a: CatalogService, b: CatalogService)
    ensures ServiceLess(a, b) == KeyLess(ServiceKey(a), ServiceKey(b))
  {
    Trichotomy(a.partition, b.partition);
    Trichotomy(a.node, b.node);
    Trichotomy(a.ns, b.ns);
    Trichotomy(a.service, b.service);
    KeyLessStep(a.partition, [a.node, a.ns, a.service], b.partition, [b.node, b.ns, b.service]);
    KeyLessStep(a.node, [a.ns, a.service], b.node, [b.ns, b.service]);
    KeyLessStep(a.ns, [a.service], b.ns, [b.service]);
    KeyLessStep(a.service, [], b.service, []);
    hide Less, KeyLess;
    assert ServiceKey(a) == [a.partition] + [a.node, a.ns, a.service];
    assert ServiceKey(b) == [b.partition] + [b.node, b.ns, b.service];
    assert [a.node, a.ns, a.service] == [a.node] + [a.ns, a.service];
    assert [b.node, b.ns, b.service] == [b.node] + [b.ns, b.service];
    assert [a.ns, a.service] == [a.ns] + [a.service] && [b.ns, b.service] == [b.ns] + [b.service];
    assert [a.service] == [a.service] + [] && [b.service] == [b.service] + [];
    assert !KeyLess([], []) by { KeyLessIrreflexive([]); }
  }

  lemma Trichotomy(a: string, b: string)
    ensures a == b ==> !Less(a, b) && !Less(b, a)
    ensures a != b ==> Less(a, b) != Less(b, a)
  {
    if a == b {
      LessIrreflexive(a);
    } else {
      LessTotal(a, b);
    }
  }

  /** A comparator that is the order of a key is a strict weak order, total on distinct keys. */
  lemma OrderOfKeys<T(!new)>(less: (T, T) -> bool, key: T -> seq<string>)
    requires forall a, b :: less(a, b) == KeyLess(key(a), key(b))
    ensures WeakOrder(less)
    ensures forall a, b :: key(a) != key(b) ==> less(a, b) != less(b, a)
  {
    hide KeyLess;
    forall a: T ensures !less(a, a) { KeyLessIrreflexive(key(a)); }
    forall a: T, b: T | key(a) != key(b) ensures less(a, b) != less(b, a) { KeyLessTotal(key(a), key(b)); }
    forall a: T, b: T, c: T | less(a, b) && less(b, c) ensures less(a, c) {
      KeyLessTransitive(key(a), key(b), key(c));
    }
    forall a: T, b: T, c: T | less(a, c) ensures less(a, b) || less(b, c) {
      if key(a) != key(b) {
        KeyLessTotal(key(a), key(b));
        if less(b, a) {
          KeyLessTransitive(key(b), key(a), key(c));
        }
      }
    }
  }

  /** Nodes are compared by partition and name; services and proxies by partition, node, namespace and name. */
  lemma ComparatorsCompare()
    ensures forall a, b :: NodeLess(a, b) <==> KeyLess([a.partition, a.node], [b.partition, b.node])
    ensures forall a, b :: ServiceLess(a, b) <==>
              KeyLess([a.partition, a.node, a.ns, a.service], [b.partition, b.node, b.ns, b.service])
    ensures forall a, b :: ProxyLess(a, b) <==> ServiceLess(a.base, b.base)
  {
    forall a, b ensures NodeLess(a, b) == KeyLess([a.partition, a.node], [b.partition, b.node]) {
      NodeLessByKey(a, b);
    }
    forall a, b
      ensures ServiceLess(a, b) == KeyLess([a.partition, a.node, a.ns, a.service], [b.partition, b.node, b.ns, b.service])
    {
      ServiceLessByKey(a, b);
    }
    hide KeyLess, NodeLess, ServiceLess;
  }

  /** Each comparator is a strict weak order that separates different keys. */
  lemma ComparatorsAreOrders()
    ensures WeakOrder(NodeLess) && WeakOrder(ServiceLess) && WeakOrder(ProxyLess)
    ensures forall a, b :: NodeKey(a) != NodeKey(b) ==> NodeLess(a, b) != NodeLess(b, a)
    ensures forall a, b :: ServiceKey(a) != ServiceKey(b) ==> ServiceLess(a, b) != ServiceLess(b, a)
    ensures forall a, b :: ProxyKey(a) != ProxyKey(b) ==> ProxyLess(a, b) != ProxyLess(b, a)
  {
    forall a, b ensures NodeLess(a, b) == KeyLess(NodeKey(a), NodeKey(b)) { NodeLessByKey(a, b); }
    forall a, b ensures ServiceLess(a, b) == KeyLess(ServiceKey(a), ServiceKey(b)) { ServiceLessByKey(a, b); }
    forall a: CatalogProxy, b: CatalogProxy ensures ProxyLess(a, b) == KeyLess(ProxyKey(a), ProxyKey(b)) {
      ServiceLessByKey(a.base, b.base);
    }
    hide KeyLess, NodeLess, ServiceLess, ProxyLess, NodeKey, ServiceKey, ProxyKey;
    OrderOfKeys(NodeLess, NodeKey);
    OrderOfKeys(ServiceLess, ServiceKey);
    OrderOfKeys(ProxyLess, ProxyKey);
  }

  // ---------------------------------------------------------------- definitions

  datatype Definition = Definition(
    nodes: seq<CatalogNode>,
    services: seq<CatalogService>,
    proxies: seq<CatalogProxy>)

  class CatalogDefinition {
    var nodes: seq<CatalogNode>
    var services: seq<CatalogService>
    var proxies: seq<CatalogProxy>

    constructor ()
      ensures nodes == [] && services == [] && proxies == []
    {
      nodes, services, proxies := [], [], [];
    }

    function Contents(): Definition reads this { Definition(nodes, services, proxies) }

    method Sort()
      modifies this
      ensures IsSortOf(old(Contents()), Contents())
    {
      ComparatorsAreOrders();
      nodes := SortSlice(NodeLess, nodes);
      services := SortSlice(ServiceLess, services);
      proxies := SortSlice(ProxyLess, proxies);
    }
  }

  predicate IsSortOf(d: Definition, r: Definition) {
    && IsSorting(NodeLess, d.nodes, r.nodes)
    && IsSorting(ServiceLess, d.services, r.services)
    && IsSorting(ProxyLess, d.proxies, r.proxies)
  }

  /** No two different entries share their sort key. */
  ghost predicate KeysUnique(d: Definition) {
    && (forall a, b :: a in d.nodes && b in d.nodes && NodeKey(a) == NodeKey(b) ==> a == b)
    && (forall a, b :: a in d.services && b in d.services && ServiceKey(a) == ServiceKey(b) ==> a == b)
    && (forall a, b :: a in d.proxies && b in d.proxies && ProxyKey(a) == ProxyKey(b) ==> a == b)
  }

  ghost predicate Rearranged(d: Definition, e: Definition) {
    multiset(d.nodes) == multiset(e.nodes) && multiset(d.services) == multiset(e.services) &&
    multiset(d.proxies) == multiset(e.proxies)
  }

  lemma SameMembers<T>(a: seq<T>, b: seq<T>)
    requires multiset(a) == multiset(b)
    ensures forall x :: x in a <==> x in b
  {
    forall x ensures x in a <==> x in b {
      assert x in multiset(a) <==> x in multiset(b);
    }
  }

  /** Sorting any two arrangements of a definition, by any sort, stable or not, gives one result. */
  lemma SortIsCanonical(d: Definition, e: Definition, sd: Definition, se: Definition)
    requires KeysUnique(d) && Rearranged(d, e)
    requires IsSortOf(d, sd) && IsSortOf(e, se)
    ensures sd == se
  {
    ComparatorsAreOrders();
    SameMembers(d.nodes, sd.nodes);
    SameMembers(d.services, sd.services);
    SameMembers(d.proxies, sd.proxies);
    hide NodeLess, ServiceLess, ProxyLess, NodeKey, ServiceKey, ProxyKey, InOrder;
    CanonicalForm(NodeLess, sd.nodes, se.nodes);
    CanonicalForm(ServiceLess, sd.services, se.services);
    CanonicalForm(ProxyLess, sd.proxies, se.proxies);
  }
}
