/** app/gen_catalog.go: the catalog definition of a cluster's dataplane nodes. */
module GenCatalog {
  import opened Text
  import opened Sorting
  import opened Identifiers
  import Config
  import opened Infra
  import opened CatalogDefs

  const SIDECAR := "-sidecar-proxy"

  // ---------------------------------------------------------------- what one node contributes

  predicate Contributes(n: Node, cluster: string) {
    n.cluster == cluster && n.service.Some? && n.kind == Dataplane
  }

  /** Generation panics on a node with extra upstream HCL or without a local address. */
  predicate Definable(n: Node) {
    n.service.Some? && n.service.value.upstreamExtraHCL == "" && n.LocalAddress().Some?
  }

  function NodeIDOf(n: Node): Identifier2 { NewIdentifier2(n.PodName(), n.partition) }

  function AppIDOf(n: Node): Identifier
    requires n.service.Some?
  {
    n.service.value.id
  }

  function ProxyIDOf(n: Node): Identifier
    requires n.service.Some?
  {
    var id := n.service.value.id;
    NewIdentifier(id.name + SIDECAR, id.ns, id.partition)
  }

  function NodeEntry(n: Node): CatalogNode
    requires Definable(n)
  {
    CatalogNode(n.PodName(), n.LocalAddress().value, map[VIRTUAL := "1"], n.partition)
  }

  function PortText(p: int): string { if p < 0 then "-" + Itoa(-p) else Itoa(p) }

  function AppEntry(n: Node): CatalogService
    requires Definable(n)
  {
    var s := n.service.value;
    CatalogService(n.PodName(), n.partition, s.id.name, s.meta, s.port, n.LocalAddress().value, s.id.ns,
                   s.id.Text(), n.LocalAddress().value + ":" + PortText(s.port))
  }

  function ProxyEntry(n: Node): CatalogProxy
    requires Definable(n)
  {
    var s := n.service.value;
    CatalogProxy(
      CatalogService(n.PodName(), n.partition, s.id.name + SIDECAR, s.meta, 20000, n.LocalAddress().value, s.id.ns,
                     s.id.Text(), n.LocalAddress().value + ":20000"),
      s.id.name, s.port,
      [CatalogProxyUpstream(s.upstreamID.partition, s.upstreamID.ns, s.upstreamPeer, s.upstreamID.name,
                            s.upstreamDatacenter, s.upstreamLocalPort)])
  }

  // ---------------------------------------------------------------- the definition of a cluster

  /** The nodes of a cluster that end up in its catalog definition. */
  function Sources(nm: NodeMap, cluster: string): set<Node> {
    set name | name in nm && Contributes(nm[name], cluster) :: nm[name]
  }

  predicate AllDefinable(S: set<Node>) { forall n :: n in S ==> Definable(n) }

  ghost function NodeEntries(S: set<Node>): set<CatalogNode>
    requires AllDefinable(S)
  {
    set n | n in S :: NodeEntry(n)
  }

  ghost function AppEntries(S: set<Node>): set<CatalogService>
    requires AllDefinable(S)
  {
    set n | n in S :: AppEntry(n)
  }

  ghost function ProxyEntries(S: set<Node>): set<CatalogProxy>
    requires AllDefinable(S)
  {
    set n | n in S :: ProxyEntry(n)
  }

  /** Exactly one node, one service and one proxy per source, in canonical order. */
  ghost predicate Defines(S: set<Node>, d: Definition)
    requires AllDefinable(S)
  {
    && Enumerates(d.nodes, NodeEntries(S)) && InOrder(NodeLess, d.nodes)
    && Enumerates(d.services, AppEntries(S)) && InOrder(ServiceLess, d.services)
    && Enumerates(d.proxies, ProxyEntries(S)) && InOrder(ProxyLess, d.proxies)
  }

  /** Names tell the sources apart. */
  ghost predicate NamedApart(S: set<Node>) {
    forall a, b :: a in S && b in S && a.name == b.name ==> a == b
  }

  lemma SourcesNamedApart(nm: NodeMap, cluster: string)
    requires WellFiled(nm)
    ensures NamedApart(Sources(nm, cluster))
  {
  }

  lemma PodNameInjective(a: Node, b: Node)
    ensures a.PodName() == b.PodName() ==> a.name == b.name
  {
    assert a.PodName()[..|a.PodName()| - 4] == a.name;
    assert b.PodName()[..|b.PodName()| - 4] == b.name;
  }

  lemma EntriesTellNodesApart(S: set<Node>)
    requires NamedApart(S) && AllDefinable(S)
    ensures forall a, b :: a in S && b in S && a.PodName() == b.PodName() ==> a == b
  {
    forall a, b | a in S && b in S && a.PodName() == b.PodName() ensures a == b {
      PodNameInjective(a, b);
    }
  }

  /** The definition does not depend on the order in which any map was traversed. */
  lemma DefinitionIsUnique(S: set<Node>, d: Definition, e: Definition)
    requires NamedApart(S) && AllDefinable(S) && Defines(S, d) && Defines(S, e)
    ensures d == e
  {
    ComparatorsAreOrders();
    EntriesTellNodesApart(S);
    SameSetSameBag(d.nodes, e.nodes, NodeEntries(S));
    SameSetSameBag(d.services, e.services, AppEntries(S));
    SameSetSameBag(d.proxies, e.proxies, ProxyEntries(S));
    hide NodeLess, ServiceLess, ProxyLess, InOrder, Node.PodName;
    UniqueNodes(S, d.nodes, e.nodes);
    UniqueServices(S, d.services, e.services);
    UniqueProxies(S, d.proxies, e.proxies);
  }

  lemma SameSetSameBag<T>(a: seq<T>, b: seq<T>, S: set<T>)
    requires Enumerates(a, S) && Enumerates(b, S)
    ensures multiset(a) == multiset(b)
  {
    OccursOnce(a);
    OccursOnce(b);
    forall x ensures multiset(a)[x] == multiset(b)[x] {
      assert x in multiset(a) <==> x in Elements(a);
      assert x in multiset(b) <==> x in Elements(b);
    }
  }

  lemma UniqueNodes(S: set<Node>, a: seq<CatalogNode>, b: seq<CatalogNode>)
    requires AllDefinable(S) && (forall a, b :: a in S && b in S && a.PodName() == b.PodName() ==> a == b)
    requires Enumerates(a, NodeEntries(S)) && InOrder(NodeLess, a) && InOrder(NodeLess, b) && multiset(a) == multiset(b)
    requires forall x, y :: NodeKey(x) != NodeKey(y) ==> NodeLess(x, y) != NodeLess(y, x)
    ensures a == b
  {
    forall x, y | x in a && y in a && x != y ensures NodeLess(x, y) || NodeLess(y, x) {
      assert x in Elements(a) && y in Elements(a);
      assert NodeKey(x)[1] == x.node && NodeKey(y)[1] == y.node;
    }
    CanonicalForm(NodeLess, a, b);
  }

  lemma UniqueServices(S: set<Node>, a: seq<CatalogService>, b: seq<CatalogService>)
    requires AllDefinable(S) && (forall a, b :: a in S && b in S && a.PodName() == b.PodName() ==> a == b)
    requires Enumerates(a, AppEntries(S)) && InOrder(ServiceLess, a) && InOrder(ServiceLess, b) && multiset(a) == multiset(b)
    requires forall x, y :: ServiceKey(x) != ServiceKey(y) ==> ServiceLess(x, y) != ServiceLess(y, x)
    ensures a == b
  {
    forall x, y | x in a && y in a && x != y ensures ServiceLess(x, y) || ServiceLess(y, x) {
      assert x in Elements(a) && y in Elements(a);
      assert ServiceKey(x)[1] == x.node && ServiceKey(y)[1] == y.node;
    }
    CanonicalForm(ServiceLess, a, b);
  }

  lemma UniqueProxies(S: set<Node>, a: seq<CatalogProxy>, b: seq<CatalogProxy>)
    requires AllDefinable(S) && (forall a, b :: a in S && b in S && a.PodName() == b.PodName() ==> a == b)
    requires Enumerates(a, ProxyEntries(S)) && InOrder(ProxyLess, a) && InOrder(ProxyLess, b) && multiset(a) == multiset(b)
    requires forall x, y :: ProxyKey(x) != ProxyKey(y) ==> ProxyLess(x, y) != ProxyLess(y, x)
    ensures a == b
  {
    forall x, y | x in a && y in a && x != y ensures ProxyLess(x, y) || ProxyLess(y, x) {
      assert x in Elements(a) && y in Elements(a);
      assert ProxyKey(x)[1] == x.base.node && ProxyKey(y)[1] == y.base.node;
    }
    CanonicalForm(ProxyLess, a, b);
  }

  // ---------------------------------------------------------------- the generator

  type Nested<V> = map<Identifier2, map<Identifier, V>>

  /** The three maps hold exactly the entries of the nodes met so far. */
  ghost predicate Collected(S: set<Node>, nodes: map<Identifier2, CatalogNode>,
                            services: Nested<CatalogService>, proxies: Nested<CatalogProxy>)
    requires AllDefinable(S)
  {
    && nodes.Keys == services.Keys == proxies.Keys == (set n | n in S :: NodeIDOf(n))
    && forall n :: n in S ==>
         nodes[NodeIDOf(n)] == NodeEntry(n) &&
         services[NodeIDOf(n)] == map[AppIDOf(n) := AppEntry(n)] &&
         proxies[NodeIDOf(n)] == map[ProxyIDOf(n) := ProxyEntry(n)]
  }

  lemma CollectedOneMore(S: set<Node>, n: Node, nodes: map<Identifier2, CatalogNode>,
                         services: Nested<CatalogService>, proxies: Nested<CatalogProxy>)
    requires AllDefinable(S) && Collected(S, nodes, services, proxies)
    requires Definable(n) && NodeIDOf(n) !in nodes
    ensures AllDefinable(S + {n})
    ensures var nid := NodeIDOf(n);
            Collected(S + {n}, nodes[nid := NodeEntry(n)], services[nid := map[AppIDOf(n) := AppEntry(n)]],
                      proxies[nid := map[ProxyIDOf(n) := ProxyEntry(n)]])
  {
    hide NodeEntry, AppEntry, ProxyEntry, AppIDOf, ProxyIDOf, NodeIDOf, Definable;
    NodeIDsOneMore(S, n);
    assert nodes.Keys == set m | m in S :: NodeIDOf(m);
    forall m | m in S ensures NodeIDOf(m) != NodeIDOf(n) {
      assert NodeIDOf(m) in nodes.Keys;
    }
  }

  lemma NodeIDsOneMore(S: set<Node>, n: Node)
    ensures (set m | m in S + {n} :: NodeIDOf(m)) == (set m | m in S :: NodeIDOf(m)) + {NodeIDOf(n)}
  {
    hide NodeIDOf;
  }

  lemma NodeIDIsNew(S: set<Node>, n: Node)
    requires n !in S && NamedApart(S + {n})
    ensures NodeIDOf(n) !in (set m | m in S :: NodeIDOf(m))
  {
    forall m | m in S ensures NodeIDOf(m) != NodeIDOf(n) {
      PodNameInjective(m, n);
      assert m in S + {n};
    }
  }

  /** The walk callback, for a node that contributes. */
  method Define(n: Node, nodes: map<Identifier2, CatalogNode>, services: Nested<CatalogService>,
                proxies: Nested<CatalogProxy>, ghost S: set<Node>)
    returns (nodes': map<Identifier2, CatalogNode>, services': Nested<CatalogService>, proxies': Nested<CatalogProxy>)
    requires AllDefinable(S) && Collected(S, nodes, services, proxies)
    requires Definable(n) && n !in S && NamedApart(S + {n})
    ensures AllDefinable(S + {n}) && Collected(S + {n}, nodes', services', proxies')
  {
    hide NodeEntry, AppEntry, ProxyEntry, AllDefinable, NamedApart;
    nodes', services', proxies' := nodes, services, proxies;
    var svc := n.service.value;
    var nid := NewIdentifier2(n.PodName(), n.partition);
    var sidApp := svc.id;
    var sidProxy := NewIdentifier(svc.id.name + SIDECAR, svc.id.ns, svc.id.partition);
    NodeIDIsNew(S, n);
    CollectedOneMore(S, n, nodes, services, proxies);
    hide Collected;
    if nid !in nodes' {
      nodes' := nodes'[nid := NodeEntry(n)];
      services' := services'[nid := map[]];
      proxies' := proxies'[nid := map[]];
    }
    services' := services'[nid := services'[nid][sidApp := AppEntry(n)]];
    proxies' := proxies'[nid := proxies'[nid][sidProxy := ProxyEntry(n)]];
    FirstUnder(services, nid, sidApp, AppEntry(n));
    FirstUnder(proxies, nid, sidProxy, ProxyEntry(n));
  }

  lemma FirstUnder<V>(m: Nested<V>, nid: Identifier2, sid: Identifier, v: V)
    ensures var fresh0 := m[nid := map[]];
            fresh0[nid := fresh0[nid][sid := v]] == m[nid := map[sid := v]]
  {
  }

  /** The values of a map, one for each key, in the order of keys. */
  ghost predicate Lists<K, V>(keys: seq<K>, out: seq<V>, m: map<K, V>) {
    Enumerates(keys, m.Keys) && |out| == |keys| && forall i :: 0 <= i < |keys| ==> keys[i] in m && out[i] == m[keys[i]]
  }

  /** Ranging over a map, in some order. */
  method Flatten<K(==), V>(m: map<K, V>) returns (out: seq<V>)
    ensures exists keys :: Lists(keys, out, m)
  {
    out := [];
    ghost var keys: seq<K> := [];
    var todo := m.Keys;
    assert m.Keys - todo == {};
    while todo != {}
      invariant todo <= m.Keys
      invariant Enumerates(keys, m.Keys - todo) && |out| == |keys|
      invariant forall i :: 0 <= i < |keys| ==> keys[i] in m && out[i] == m[keys[i]]
    {
      var k :| k in todo;
      EnumerateOneMore(keys, m.Keys - todo, k);
      assert m.Keys - (todo - {k}) == m.Keys - todo + {k};
      hide Enumerates;
      todo := todo - {k};
      out, keys := out + [m[k]], keys + [k];
    }
    assert m.Keys - todo == m.Keys;
    assert Lists(keys, out, m);
  }

  type Place = (Identifier2, Identifier)

  ghost function PlacesUnder<V>(m: Nested<V>, keys: set<Identifier2>): set<Place> {
    set k, l | k in keys && k in m && l in m[k] :: (k, l)
  }

  /** The values of a nested map, one for each place, in the order of places. */
  ghost predicate ListsNested<V>(places: seq<Place>, out: seq<V>, m: Nested<V>, keys: set<Identifier2>) {
    && Enumerates(places, PlacesUnder(m, keys)) && |out| == |places|
    && forall i :: 0 <= i < |places| ==>
         places[i].0 in m && places[i].1 in m[places[i].0] && out[i] == m[places[i].0][places[i].1]
  }

  function PlacesAt(k: Identifier2, ls: seq<Identifier>): seq<Place> {
    seq(|ls|, i requires 0 <= i < |ls| => (k, ls[i]))
  }

  lemma PlacesAtEnumerate<V>(m: Nested<V>, k: Identifier2, ls: seq<Identifier>)
    requires k in m && Enumerates(ls, m[k].Keys)
    ensures Enumerates(PlacesAt(k, ls), PlacesUnder(m, {k}))
  {
    var ps := PlacesAt(k, ls);
    forall p | p in PlacesUnder(m, {k}) ensures p in ps {
      assert p.1 in Elements(ls);
      var i :| 0 <= i < |ls| && ls[i] == p.1;
      assert ps[i] == p;
    }
    forall i | 0 <= i < |ls| ensures ps[i] in PlacesUnder(m, {k}) {
      assert ls[i] in Elements(ls);
    }
    forall i, j | 0 <= i < j < |ps| ensures ps[i] != ps[j] {
      assert ls[i] != ls[j];
    }
  }

  lemma PlacesOneMore<V>(m: Nested<V>, keys: set<Identifier2>, k: Identifier2)
    requires k !in keys
    ensures PlacesUnder(m, keys + {k}) == PlacesUnder(m, keys) + PlacesUnder(m, {k})
    ensures PlacesUnder(m, keys) !! PlacesUnder(m, {k})
  {
  }

  lemma ListsOneMore<V>(places: seq<Place>, out: seq<V>, m: Nested<V>, keys: set<Identifier2>,
                        k: Identifier2, ls: seq<Identifier>, inner: seq<V>)
    requires ListsNested(places, out, m, keys) && k in m && k !in keys && Lists(ls, inner, m[k])
    ensures ListsNested(places + PlacesAt(k, ls), out + inner, m, keys + {k})
  {
    PlacesAtEnumerate(m, k, ls);
    PlacesOneMore(m, keys, k);
    EnumerateUnion(places, PlacesUnder(m, keys), PlacesAt(k, ls), PlacesUnder(m, {k}));
    hide Enumerates, PlacesUnder;
  }

  /** Two nested loops over a map of maps, in some order. */
  method FlattenNested<V>(m: Nested<V>) returns (out: seq<V>)
    ensures exists places :: ListsNested(places, out, m, m.Keys)
  {
    out := [];
    ghost var places: seq<Place> := [];
    var todo := m.Keys;
    assert m.Keys - todo == {};
    assert PlacesUnder(m, {}) == {};
    while todo != {}
      invariant todo <= m.Keys
      invariant ListsNested(places, out, m, m.Keys - todo)
    {
      hide ListsNested, Lists;
      var k :| k in todo;
      var inner := Flatten(m[k]);
      ghost var ls :| Lists(ls, inner, m[k]);
      ListsOneMore(places, out, m, m.Keys - todo, k, ls, inner);
      assert m.Keys - (todo - {k}) == m.Keys - todo + {k};
      todo := todo - {k};
      out, places := out + inner, places + PlacesAt(k, ls);
    }
    assert m.Keys - todo == m.Keys;
  }

  lemma ListsValues<K, V>(keys: seq<K>, out: seq<V>, m: map<K, V>)
    requires Lists(keys, out, m) && forall k, l :: k in m && l in m && m[k] == m[l] ==> k == l
    ensures Enumerates(out, m.Values)
  {
    forall v | v in m.Values ensures v in out {
      var k :| k in m && m[k] == v;
      assert k in Elements(keys);
      var i :| 0 <= i < |keys| && keys[i] == k;
      assert out[i] == v;
    }
    forall i, j | 0 <= i < j < |out| ensures out[i] != out[j] {
      assert keys[i] != keys[j];
    }
  }

  ghost function ValuesUnder<V>(m: Nested<V>, keys: set<Identifier2>): set<V> {
    set k, l | k in keys && k in m && l in m[k] :: m[k][l]
  }

  /** No value occurs at two places of a nested map. */
  ghost predicate ValuesApart<V>(m: Nested<V>) {
    forall k, l, k2, l2 :: k in m && l in m[k] && k2 in m && l2 in m[k2] && m[k][l] == m[k2][l2] ==> k == k2 && l == l2
  }

  lemma ListsNestedValues<V>(places: seq<Place>, out: seq<V>, m: Nested<V>)
    requires ListsNested(places, out, m, m.Keys) && ValuesApart(m)
    ensures Enumerates(out, ValuesUnder(m, m.Keys))
  {
    forall v | v in ValuesUnder(m, m.Keys) ensures v in out {
      var k, l :| k in m && l in m[k] && m[k][l] == v;
      assert (k, l) in Elements(places);
      var i :| 0 <= i < |places| && places[i] == (k, l);
      assert out[i] == v;
    }
    forall i | 0 <= i < |out| ensures out[i] in ValuesUnder(m, m.Keys) {
      var k, l := places[i].0, places[i].1;
      assert m[k][l] == out[i];
    }
    forall i, j | 0 <= i < j < |out| ensures out[i] != out[j] {
      assert places[i] != places[j];
    }
  }

  /** Sources give different entries. */
  lemma EntriesApart(S: set<Node>)
    requires AllDefinable(S) && NamedApart(S)
    ensures forall a, b :: a in S && b in S && NodeEntry(a) == NodeEntry(b) ==> a == b
    ensures forall a, b :: a in S && b in S && AppEntry(a) == AppEntry(b) ==> a == b
    ensures forall a, b :: a in S && b in S && ProxyEntry(a) == ProxyEntry(b) ==> a == b
    ensures forall a, b :: a in S && b in S && NodeIDOf(a) == NodeIDOf(b) ==> a == b
  {
    EntriesTellNodesApart(S);
    hide NamedApart, Node.PodName, Identifier.Text, PortText, OrDefault;
  }

  lemma CollectedNodes(S: set<Node>, nodes: map<Identifier2, CatalogNode>,
                       services: Nested<CatalogService>, proxies: Nested<CatalogProxy>)
    requires AllDefinable(S) && NamedApart(S) && Collected(S, nodes, services, proxies)
    ensures nodes.Values == NodeEntries(S)
    ensures forall k, l :: k in nodes && l in nodes && nodes[k] == nodes[l] ==> k == l
  {
    EntriesApart(S);
    hide NodeEntry, AppEntry, ProxyEntry, NodeIDOf, NamedApart, Definable;
    forall v | v in NodeEntries(S) ensures v in nodes.Values {
      var n :| n in S && NodeEntry(n) == v;
      assert NodeIDOf(n) in nodes;
    }
    forall v | v in nodes.Values ensures v in NodeEntries(S) {
      var k :| k in nodes && nodes[k] == v;
      var n :| n in S && NodeIDOf(n) == k;
    }
  }

  /** In a map of one-entry maps, the place of a value is the place of its source. */
  lemma PlaceOfSource<V>(S: set<Node>, m: Nested<V>, key: Node -> Identifier, E: map<Node, V>,
                         k: Identifier2, l: Identifier) returns (n: Node)
    requires E.Keys == S && m.Keys == (set n | n in S :: NodeIDOf(n))
    requires forall n :: n in S ==> m[NodeIDOf(n)] == map[key(n) := E[n]]
    requires k in m && l in m[k]
    ensures n in S && NodeIDOf(n) == k && key(n) == l && m[k][l] == E[n]
  {
    hide NodeIDOf;
    n :| n in S && NodeIDOf(n) == k;
  }

  lemma NestedApart<V(!new)>(S: set<Node>, m: Nested<V>, key: Node -> Identifier, E: map<Node, V>)
    requires E.Keys == S && m.Keys == (set n | n in S :: NodeIDOf(n))
    requires forall n :: n in S ==> m[NodeIDOf(n)] == map[key(n) := E[n]]
    requires forall a, b :: a in S && b in S && E[a] == E[b] ==> a == b
    ensures ValuesApart(m)
  {
    hide NodeIDOf;
    forall k, l, k2, l2 | k in m && l in m[k] && k2 in m && l2 in m[k2] && m[k][l] == m[k2][l2]
      ensures k == k2 && l == l2
    {
      var a := PlaceOfSource(S, m, key, E, k, l);
      var b := PlaceOfSource(S, m, key, E, k2, l2);
    }
  }

  lemma NestedValues<V(!new)>(S: set<Node>, m: Nested<V>, key: Node -> Identifier, E: map<Node, V>)
    requires E.Keys == S && m.Keys == (set n | n in S :: NodeIDOf(n))
    requires forall n :: n in S ==> m[NodeIDOf(n)] == map[key(n) := E[n]]
    ensures ValuesUnder(m, m.Keys) == (set n | n in S :: E[n])
  {
    hide NodeIDOf;
    forall v | v in ValuesUnder(m, m.Keys) ensures v in set n | n in S :: E[n] {
      var k, l :| k in m && l in m[k] && m[k][l] == v;
      var a := PlaceOfSource(S, m, key, E, k, l);
    }
    forall n | n in S ensures E[n] in ValuesUnder(m, m.Keys) {
      assert NodeIDOf(n) in m;
      assert m[NodeIDOf(n)][key(n)] == E[n];
    }
  }

  lemma CollectedServices(S: set<Node>, nodes: map<Identifier2, CatalogNode>,
                          services: Nested<CatalogService>, proxies: Nested<CatalogProxy>)
    requires AllDefinable(S) && NamedApart(S) && Collected(S, nodes, services, proxies)
    ensures ValuesUnder(services, services.Keys) == AppEntries(S) && ValuesApart(services)
  {
    EntriesApart(S);
    var E := map n | n in S :: AppEntry(n);
    hide NodeEntry, AppEntry, ProxyEntry, NodeIDOf, AppIDOf, ProxyIDOf, NamedApart, Definable, ValuesUnder, ValuesApart;
    var key := (n: Node) => if n.service.Some? then AppIDOf(n) else Identifier("", "", "");
    NestedApart(S, services, key, E);
    NestedValues(S, services, key, E);
  }

  lemma CollectedProxies(S: set<Node>, nodes: map<Identifier2, CatalogNode>,
                          services: Nested<CatalogService>, proxies: Nested<CatalogProxy>)
    requires AllDefinable(S) && NamedApart(S) && Collected(S, nodes, services, proxies)
    ensures ValuesUnder(proxies, proxies.Keys) == ProxyEntries(S) && ValuesApart(proxies)
  {
    EntriesApart(S);
    var E := map n | n in S :: ProxyEntry(n);
    hide NodeEntry, AppEntry, ProxyEntry, NodeIDOf, AppIDOf, ProxyIDOf, NamedApart, Definable, ValuesUnder, ValuesApart;
    var key := (n: Node) => if n.service.Some? then ProxyIDOf(n) else Identifier("", "", "");
    NestedApart(S, proxies, key, E);
    NestedValues(S, proxies, key, E);
  }

  // ---------------------------------------------------------------- one cluster

  /** The contributing nodes among the first names of a walk. */
  ghost function SourcesAmong(nm: NodeMap, names: seq<string>, cluster: string): set<Node>
    requires forall n :: n in names ==> n in nm
  {
    set name | name in names && Contributes(nm[name], cluster) :: nm[name]
  }

  lemma SourcesOneMore(nm: NodeMap, names: seq<string>, i: nat, cluster: string)
    requires WellFiled(nm) && NoDuplicates(names) && i < |names|
    requires forall n :: n in names ==> n in nm
    ensures var before, after := SourcesAmong(nm, names[..i], cluster), SourcesAmong(nm, names[..i + 1], cluster);
            after == (if Contributes(nm[names[i]], cluster) then before + {nm[names[i]]} else before) &&
            nm[names[i]] !in before && after <= Sources(nm, cluster)
  {
    hide Contributes;
    assert names[..i + 1] == names[..i] + [names[i]];
    forall name | name in names[..i] ensures nm[name] != nm[names[i]] {
      var k :| 0 <= k < i && names[k] == name;
      assert names[k] != names[i];
    }
  }

  lemma SourcesOfWholeWalk(nm: NodeMap, names: seq<string>, cluster: string)
    requires Elements(names) == nm.Keys && forall n :: n in names ==> n in nm
    ensures SourcesAmong(nm, names, cluster) == Sources(nm, cluster)
  {
    hide Contributes;
    assert forall n :: n in names <==> n in Elements(names);
  }

  /** The walk over the topology; false is a panic. */
  method CollectCluster(topology: Topology, cluster: string)
    returns (ok: bool, nodes: map<Identifier2, CatalogNode>, services: Nested<CatalogService>, proxies: Nested<CatalogProxy>)
    requires WellFiled(topology.nm)
    ensures ok <==> AllDefinable(Sources(topology.nm, cluster))
    ensures ok ==> Collected(Sources(topology.nm, cluster), nodes, services, proxies)
  {
    ghost var nm := topology.nm;
    var names := topology.SortedNodes();
    WalkVisitsEachOnce(nm);
    WalkNamesAreFiled(nm);
    SourcesNamedApart(nm, cluster);
    nodes, services, proxies := map[], map[], map[];
    hide WalkOrder, WellFiled, Sources, Collected, Contributes, Definable, NamedApart;
    CollectedNothing();
    for i := 0 to |names|
      invariant AllDefinable(SourcesAmong(nm, names[..i], cluster))
      invariant Collected(SourcesAmong(nm, names[..i], cluster), nodes, services, proxies)
    {
      var n := topology.nm[names[i]];
      SourcesOneMore(nm, names, i, cluster);
      var contributes := ToBeDefined(n, cluster);
      if !contributes {
        continue;
      }
      var definable := CanBeDefined(n);
      if !definable {
        SourceOf(nm, names[i], cluster);
        ok := false;
        return;
      }
      NamedApartBelow(SourcesAmong(nm, names[..i + 1], cluster), Sources(nm, cluster));
      nodes, services, proxies := Define(n, nodes, services, proxies, SourcesAmong(nm, names[..i], cluster));
    }
    assert names[..|names|] == names;
    SourcesOfWholeWalk(nm, names, cluster);
    ok := true;
  }

  lemma CollectedNothing()
    ensures AllDefinable({}) && Collected({}, map[], map[], map[])
  {
  }

  lemma NamedApartBelow(S: set<Node>, T: set<Node>)
    requires S <= T && NamedApart(T)
    ensures NamedApart(S)
  {
  }

  lemma SourceOf(nm: NodeMap, name: string, cluster: string)
    requires name in nm && Contributes(nm[name], cluster)
    ensures nm[name] in Sources(nm, cluster)
  {
  }

  /** The three early returns of the callback. */
  method ToBeDefined(n: Node, cluster: string) returns (r: bool)
    ensures r == Contributes(n, cluster)
  {
    if n.cluster != cluster {
      return false;
    }
    if n.service.None? {
      return false;
    }
    if n.kind != Dataplane {
      return false;
    }
    return true;
  }

  /** The two panics of the callback. */
  method CanBeDefined(n: Node) returns (r: bool)
    requires n.service.Some?
    ensures r == Definable(n)
  {
    if n.service.value.upstreamExtraHCL != "" {
      return false;
    }
    return n.LocalAddress().Some?;
  }

  /** The definition written for one cluster; None is a panic. */
  method GenerateCluster(topology: Topology, cluster: string) returns (r: Option<Definition>)
    requires WellFiled(topology.nm)
    ensures r.Some? <==> AllDefinable(Sources(topology.nm, cluster))
    ensures r.Some? ==> Defines(Sources(topology.nm, cluster), r.value)
  {
    ghost var S := Sources(topology.nm, cluster);
    SourcesNamedApart(topology.nm, cluster);
    var ok, nodes, services, proxies := CollectCluster(topology, cluster);
    if !ok {
      return None;
    }
    CollectedNodes(S, nodes, services, proxies);
    CollectedServices(S, nodes, services, proxies);
    CollectedProxies(S, nodes, services, proxies);
    hide Sources, WellFiled, Collected, NamedApart, AllDefinable, NodeEntries, AppEntries, ProxyEntries, InOrder,
      NodeLess, ServiceLess, ProxyLess, Enumerates, Lists, ListsNested, ValuesApart, ValuesUnder;
    var out := new CatalogDefinition();
    out.nodes := Flatten(nodes);
    out.services := FlattenNested(services);
    out.proxies := FlattenNested(proxies);
    ghost var ks :| Lists(ks, out.nodes, nodes);
    ghost var ps :| ListsNested(ps, out.services, services, services.Keys);
    ghost var qs :| ListsNested(qs, out.proxies, proxies, proxies.Keys);
    ListsValues(ks, out.nodes, nodes);
    ListsNestedValues(ps, out.services, services);
    ListsNestedValues(qs, out.proxies, proxies);
    ghost var raw := out.Contents();
    out.Sort();
    RearrangedEnumeration(raw.nodes, out.nodes, NodeEntries(S));
    RearrangedEnumeration(raw.services, out.services, AppEntries(S));
    RearrangedEnumeration(raw.proxies, out.proxies, ProxyEntries(S));
    r := Some(out.Contents());
  }

  // ---------------------------------------------------------------- all clusters

  predicate Wanted(c: ClusterInfo, primaryOnly: bool) { primaryOnly ==> c.name == Config.PRIMARY_CLUSTER }

  function FileName(cluster: string): string { "catalog_def." + cluster + ".json" }

  /** How the generation ended. */
  datatype Outcome = Written | WriteFailed | Panicked

  /** The files hold what belongs to these clusters, and nothing else. */
  ghost predicate FilesOf(topology: Topology, cs: seq<ClusterInfo>, primaryOnly: bool, files: map<string, Definition>)
    reads topology
  {
    && files.Keys == (set c | c in cs && (primaryOnly ==> c.name == "dc1") :: FileName(c.name))
    && forall c :: c in cs && (primaryOnly ==> c.name == "dc1") ==>
         AllDefinable(Sources(topology.nm, c.name)) && Defines(Sources(topology.nm, c.name), files[FileName(c.name)])
  }

  lemma FilesOneMore(topology: Topology, cs: seq<ClusterInfo>, i: nat, primaryOnly: bool, files: map<string, Definition>, d: Definition)
    requires i < |cs| && FilesOf(topology, cs[..i], primaryOnly, files) && Wanted(cs[i], primaryOnly)
    requires AllDefinable(Sources(topology.nm, cs[i].name)) && Defines(Sources(topology.nm, cs[i].name), d)
    ensures FilesOf(topology, cs[..i + 1], primaryOnly, files[FileName(cs[i].name) := d])
  {
    hide Sources, Defines, AllDefinable, FileName;
    assert cs[..i + 1] == cs[..i] + [cs[i]];
    var after := files[FileName(cs[i].name) := d];
    forall c | c in cs[..i + 1] && Wanted(c, primaryOnly)
      ensures AllDefinable(Sources(topology.nm, c.name)) && Defines(Sources(topology.nm, c.name), after[FileName(c.name)])
    {
      FileNameInjective(c.name, cs[i].name);
    }
  }

  /** One file of the cache; a failed write leaves the files as they were. */
  method WriteStringFile(files: map<string, Definition>, name: string, d: Definition)
    returns (ok: bool, files': map<string, Definition>)
    ensures files' == if ok then files[name := d] else files
  {
    ok := *;
    files' := if ok then files[name := d] else files;
  }

  /** generateCatalogInfo: one file per wanted cluster, written in order up to the first failure or panic. */
  method GenerateCatalogInfo(topology: Topology, primaryOnly: bool) returns (r: Outcome, files: map<string, Definition>)
    requires WellFiled(topology.nm)
    ensures r.Written? ==> FilesOf(topology, topology.clusters, primaryOnly, files)
    ensures exists n :: 0 <= n <= |topology.clusters| && FilesOf(topology, topology.clusters[..n], primaryOnly, files)
    ensures r.Panicked? ==> exists c :: c in topology.clusters && Wanted(c, primaryOnly) &&
                                        !AllDefinable(Sources(topology.nm, c.name))
  {
    hide WellFiled, Sources, Defines, AllDefinable;
    files := map[];
    var cs := topology.clusters;
    assert FilesOf(topology, cs[..0], primaryOnly, files);
    for i := 0 to |cs|
      invariant FilesOf(topology, cs[..i], primaryOnly, files)
    {
      hide FilesOf;
      var cluster := cs[i];
      if primaryOnly && cluster.name != Config.PRIMARY_CLUSTER {
        NotWanted(topology, cs, i, primaryOnly, files);
        continue;
      }
      var def := GenerateCluster(topology, cluster.name);
      if def.None? {
        assert cluster in cs && Wanted(cluster, primaryOnly);
        return Panicked, files;
      }
      var ok, after := WriteStringFile(files, FileName(cluster.name), def.value);
      if !ok {
        return WriteFailed, files;
      }
      FilesOneMore(topology, cs, i, primaryOnly, files, def.value);
      files := after;
    }
    assert cs[..|cs|] == cs;
    r := Written;
  }

  lemma NotWanted(topology: Topology, cs: seq<ClusterInfo>, i: nat, primaryOnly: bool, files: map<string, Definition>)
    requires i < |cs| && FilesOf(topology, cs[..i], primaryOnly, files) && !Wanted(cs[i], primaryOnly)
    ensures FilesOf(topology, cs[..i + 1], primaryOnly, files)
  {
    hide Sources, Defines, AllDefinable, FileName;
    assert cs[..i + 1] == cs[..i] + [cs[i]];
  }

  lemma FileNameInjective(a: string, b: string)
    ensures FileName(a) == FileName(b) ==> a == b
  {
    assert FileName(a)[12..|FileName(a)| - 5] == a;
    assert FileName(b)[12..|FileName(b)| - 5] == b;
  }
}
