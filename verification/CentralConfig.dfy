/** app/boot.go (writeCentralConfigs) and consulfunc/config.go, without enterprise features. */
module CentralConfig {
  import opened Text
  import opened Sorting
  import opened Identifiers
  import Config
  import opened Infra

  // ---------------------------------------------------------------- entries

  datatype Kind =
    | MeshConfig
    | ServiceIntentions
    | IngressGateway
    | TerminatingGateway
    | ServiceRouter
    | ServiceSplitter
    | ServiceResolver
    | ServiceDefaults
    | ProxyDefaults
    | ExportedServices
    | OtherKind(name: string)

  /** The kinds that are listed. */
  const LISTED_KINDS: seq<Kind> := [
    MeshConfig, ServiceIntentions, IngressGateway, TerminatingGateway, ServiceRouter,
    ServiceSplitter, ServiceResolver, ServiceDefaults, ProxyDefaults, ExportedServices]

  /** The kinds that are erased, in the order that keeps the remaining entries consistent. */
  const DELETION_ORDER: seq<Kind> := [
    MeshConfig, ServiceIntentions, IngressGateway, TerminatingGateway, ServiceRouter,
    ServiceSplitter, ServiceResolver, ServiceDefaults, ProxyDefaults, ExportedServices]

  predicate Managed(k: Kind) { !k.OtherKind? }

  datatype Source = Source(name: string, ns: string, partition: string, allow: bool)

  /** What an entry says; of proxy defaults, the opaque configuration map and everything else. */
  datatype Body = Intentions(sources: seq<Source>) | Proxy(config: map<string, string>, rest: string) | Other(text: string)

  datatype Entry = Entry(kind: Kind, name: string, ns: string, partition: string, body: Body)

  /** The payload fits the kind, as decoding guarantees. */
  predicate WellTyped(e: Entry) {
    (e.kind == ServiceIntentions ==> e.body.Intentions?) && (e.kind == ProxyDefaults ==> e.body.Proxy?)
  }

  datatype KindName = KindName(kind: Kind, name: string, ns: string, partition: string)

  /** The normalized key of an entry as it is written in the configuration. */
  function WrittenKey(e: Entry): KindName { KindName(e.kind, e.name, OrDefault(e.ns), OrDefault(e.partition)) }

  /** Where the server files an entry: without enterprise there is only the default tenancy. */
  function FiledKey(e: Entry): KindName { KindName(e.kind, e.name, DEFAULT, DEFAULT) }

  /** What the server keeps of an entry. */
  function Untenanted(e: Entry): Entry { e.(ns := "", partition := "") }

  // ---------------------------------------------------------------- the remote store

  type Entries = map<KindName, Entry>

  datatype Op = SetEntry(entry: Entry) | DeleteEntry(key: KindName)

  function Apply(r: Entries, op: Op): Entries {
    match op
    case SetEntry(e) => r[FiledKey(e) := Untenanted(e)]
    case DeleteEntry(k) => r - {k}
  }

  function ApplyAll(r: Entries, ops: seq<Op>): Entries {
    if ops == [] then r else Apply(ApplyAll(r, ops[..|ops| - 1]), ops[|ops| - 1])
  }

  lemma ApplyOneMore(r: Entries, ops: seq<Op>, op: Op)
    ensures ApplyAll(r, ops + [op]) == Apply(ApplyAll(r, ops), op)
  {
    assert (ops + [op])[..|ops|] == ops;
  }

  /** Entries are filed under their own kind and name in the default tenancy, and have a known kind. */
  predicate ValidStore(r: Entries, unsupported: set<Kind>) {
    forall k :: k in r ==> k == FiledKey(r[k]) && WrittenKey(r[k]) == k && k.kind !in unsupported
  }

  /** The server refuses to store kinds it does not know. */
  predicate Accepted(op: Op, unsupported: set<Kind>) { op.SetEntry? ==> op.entry.kind !in unsupported }

  lemma ValidStoreKept(r: Entries, unsupported: set<Kind>, op: Op)
    requires ValidStore(r, unsupported) && Accepted(op, unsupported)
    ensures ValidStore(Apply(r, op), unsupported)
  {
  }

  datatype Listing = Unsupported | ListFailed | Listed(entries: seq<Entry>)

  /** The entries of one kind among the given keys. */
  function EntriesOf(r: Entries, keys: set<KindName>, kind: Kind): set<Entry> {
    set k | k in keys && k in r && k.kind == kind :: r[k]
  }

  lemma EntriesOfOneMore(r: Entries, keys: set<KindName>, kind: Kind, k: KindName)
    requires k in r
    ensures EntriesOf(r, keys + {k}, kind) == EntriesOf(r, keys, kind) + if k.kind == kind then {r[k]} else {}
  {
  }

  class ConfigStore {
    var entries: Entries
    const unsupported: set<Kind>    // version skew
    ghost var log: seq<Op>

    constructor (r: Entries, unsupported: set<Kind>)
      ensures entries == r && this.unsupported == unsupported && log == []
    {
      entries, log := r, [];
      this.unsupported := unsupported;
    }

    method Call(op: Op) returns (ok: bool)
      modifies this
      ensures (entries == Apply(old(entries), op) && log == old(log) + [op] && Accepted(op, unsupported)) ||
              (!ok && entries == old(entries) && log == old(log))
    {
      var reached: bool, answered: bool := *, *;
      reached := reached && Accepted(op, unsupported);
      ok := reached && answered;
      if reached {
        entries := Apply(entries, op);
        log := log + [op];
      }
    }

    /** The entries of one kind, in some order. */
    method List(kind: Kind) returns (r: Listing)
      requires ValidStore(entries, unsupported)
      ensures r.Unsupported? ==> kind in unsupported
      ensures r.Listed? ==> Elements(r.entries) == EntriesOf(entries, entries.Keys, kind)
    {
      if kind in unsupported {
        return Unsupported;
      }
      var out := [];
      var todo := entries.Keys;
      assert EntriesOf(entries, {}, kind) == {};
      assert entries.Keys - todo == {};
      while todo != {}
        invariant todo <= entries.Keys
        invariant Elements(out) == EntriesOf(entries, entries.Keys - todo, kind)
      {
        hide EntriesOf;
        var k :| k in todo;
        EntriesOfOneMore(entries, entries.Keys - todo, kind, k);
        assert entries.Keys - (todo - {k}) == entries.Keys - todo + {k};
        todo := todo - {k};
        if k.kind == kind {
          out := out + [entries[k]];
        }
      }
      assert entries.Keys - todo == entries.Keys;
      var answered: bool := *;
      r := if answered then Listed(out) else ListFailed;
    }
  }

  /** The entries of managed kinds. */
  function ManagedPart(r: Entries): Entries { map k | k in r && Managed(k.kind) :: r[k] }

  function OfKinds(r: Entries, kinds: seq<Kind>): Entries { map k | k in r && k.kind in kinds :: r[k] }

  lemma ListedKindsAreManaged()
    ensures forall k :: k in LISTED_KINDS <==> Managed(k)
    ensures forall k :: k in DELETION_ORDER <==> Managed(k)
  {
    forall k ensures k in LISTED_KINDS <==> Managed(k) {
      assert LISTED_KINDS[0] == MeshConfig && LISTED_KINDS[1] == ServiceIntentions && LISTED_KINDS[2] == IngressGateway;
      assert LISTED_KINDS[3] == TerminatingGateway && LISTED_KINDS[4] == ServiceRouter;
      assert LISTED_KINDS[5] == ServiceSplitter && LISTED_KINDS[6] == ServiceResolver;
      assert LISTED_KINDS[7] == ServiceDefaults && LISTED_KINDS[8] == ProxyDefaults && LISTED_KINDS[9] == ExportedServices;
    }
    assert DELETION_ORDER == LISTED_KINDS;
  }

  lemma KindListed(r: Entries, un: set<Kind>, kinds: seq<Kind>, i: nat, m: Entries, es: seq<Entry>, m': Entries)
    requires ValidStore(r, un) && i < |kinds| && m == OfKinds(r, kinds[..i])
    requires Elements(es) == EntriesOf(r, r.Keys, kinds[i])
    requires m'.Keys == m.Keys + set j | 0 <= j < |es| :: WrittenKey(es[j])
    requires forall k :: k in m' ==> k in r && m'[k] == r[k]
    ensures m' == OfKinds(r, kinds[..i + 1])
  {
    assert kinds[..i + 1] == kinds[..i] + [kinds[i]];
    forall k | k in OfKinds(r, kinds[..i + 1]) ensures k in m' {
      if k.kind == kinds[i] {
        assert r[k] in Elements(es);
        var j :| 0 <= j < |es| && es[j] == r[k];
        assert WrittenKey(es[j]) == k;
      }
    }
    forall k | k in m' ensures k in OfKinds(r, kinds[..i + 1]) {
      if k !in m {
        var j :| 0 <= j < |es| && WrittenKey(es[j]) == k;
        assert es[j] in Elements(es);
      }
    }
  }

  /** The entries of one kind, added to the map under their normalized keys. */
  method AddListed(m: Entries, es: seq<Entry>, ghost r: Entries, ghost un: set<Kind>) returns (m': Entries)
    requires ValidStore(r, un) && (forall k :: k in m ==> k in r && m[k] == r[k])
    requires forall e :: e in es ==> exists k :: k in r && r[k] == e
    ensures m'.Keys == m.Keys + set j | 0 <= j < |es| :: WrittenKey(es[j])
    ensures forall k :: k in m' ==> k in r && m'[k] == r[k]
  {
    m' := m;
    for j := 0 to |es|
      invariant m'.Keys == m.Keys + set i | 0 <= i < j :: WrittenKey(es[i])
      invariant forall k :: k in m' ==> k in r && m'[k] == r[k]
    {
      var entry := es[j];
      assert entry in es;
      ghost var k :| k in r && r[k] == entry;
      m' := m'[WrittenKey(entry) := entry];
    }
  }

  method ListAllConfigEntries(client: ConfigStore) returns (r: Option<Entries>)
    requires ValidStore(client.entries, client.unsupported)
    ensures r.Some? ==> r.value == ManagedPart(client.entries)
  {
    var m: Entries := map[];
    ghost var store := client.entries;
    for i := 0 to |LISTED_KINDS|
      invariant m == OfKinds(store, LISTED_KINDS[..i])
    {
      hide ValidStore;
      var listing := client.List(LISTED_KINDS[i]);
      if listing.ListFailed? {
        return None;
      }
      if listing.Unsupported? {
        NothingOfKind(store, client.unsupported, i);
        continue;
      }
      ghost var before := m;
      AllFromStore(store, listing.entries, LISTED_KINDS[i]);
      m := AddListed(m, listing.entries, store, client.unsupported);
      KindListed(store, client.unsupported, LISTED_KINDS, i, before, listing.entries, m);
    }
    ListedKindsAreManaged();
    assert LISTED_KINDS[..|LISTED_KINDS|] == LISTED_KINDS;
    return Some(m);
  }

  lemma AllFromStore(r: Entries, es: seq<Entry>, kind: Kind)
    requires Elements(es) == EntriesOf(r, r.Keys, kind)
    ensures forall e :: e in es ==> exists k :: k in r && r[k] == e
  {
    forall e | e in es ensures exists k :: k in r && r[k] == e {
      assert e in Elements(es);
    }
  }

  lemma NothingOfKind(r: Entries, un: set<Kind>, i: nat)
    requires ValidStore(r, un) && i < |LISTED_KINDS| && LISTED_KINDS[i] in un
    ensures OfKinds(r, LISTED_KINDS[..i + 1]) == OfKinds(r, LISTED_KINDS[..i])
  {
    assert LISTED_KINDS[..i + 1] == LISTED_KINDS[..i] + [LISTED_KINDS[i]];
  }

  // ---------------------------------------------------------------- stock entries

  type Graph = map<Identifier, set<Identifier>>

  /** Every upstream destination with the services that use it. */
  function Upstreams(walk: seq<Node>): Graph {
    map d | d in Destinations(walk) :: UsersOf(walk, d)
  }

  function Destinations(walk: seq<Node>): set<Identifier> {
    set i | 0 <= i < |walk| && walk[i].service.Some? :: walk[i].service.value.upstreamID
  }

  function UsersOf(walk: seq<Node>, d: Identifier): set<Identifier> {
    set i | 0 <= i < |walk| && walk[i].service.Some? && walk[i].service.value.upstreamID == d :: walk[i].service.value.id
  }

  method CollectUpstreams(walk: seq<Node>) returns (dm: Graph)
    ensures dm == Upstreams(walk)
  {
    dm := map[];
    for i := 0 to |walk|
      invariant dm == Upstreams(walk[..i])
    {
      UpstreamsOneMore(walk, i);
      var n := walk[i];
      if n.service.None? {
        continue;
      }
      var src, dst := n.service.value.id, n.service.value.upstreamID;
      if dst !in dm {
        dm := dm[dst := {}];
      }
      dm := dm[dst := dm[dst] + {src}];
    }
    assert walk[..|walk|] == walk;
  }

  lemma UpstreamsOneMore(walk: seq<Node>, i: nat)
    requires i < |walk|
    ensures var a, n := Upstreams(walk[..i]), walk[i];
            Upstreams(walk[..i + 1]) ==
              if n.service.None? then a
              else
                var d := n.service.value.upstreamID;
                a[d := (if d in a then a[d] else {}) + {n.service.value.id}]
  {
    var w, v, n := walk[..i], walk[..i + 1], walk[i];
    assert forall j :: 0 <= j < i ==> v[j] == w[j];
    DestinationsOneMore(w, v, n);
    UpstreamKeys(w);
    UpstreamKeys(v);
    hide UsersOf, Destinations, Upstreams;
    var A, B := Upstreams(w), Upstreams(v);
    assert B.Keys == A.Keys + if n.service.Some? then {n.service.value.upstreamID} else {};
    forall d | d in B
      ensures B[d] == if n.service.Some? && n.service.value.upstreamID == d
                      then (if d in A then A[d] else {}) + {n.service.value.id} else A[d]
    {
      UsersAt(w, v, n, d);
    }
  }

  lemma UpstreamKeys(w: seq<Node>)
    ensures Upstreams(w).Keys == Destinations(w)
    ensures forall d :: d in Upstreams(w) ==> Upstreams(w)[d] == UsersOf(w, d)
  {
  }

  lemma UsersAt(w: seq<Node>, v: seq<Node>, n: Node, d: Identifier)
    requires |v| == |w| + 1 && v[|w|] == n && (forall j :: 0 <= j < |w| ==> v[j] == w[j])
    requires d in Upstreams(v)
    ensures Upstreams(v)[d] ==
            if n.service.Some? && n.service.value.upstreamID == d
            then (if d in Upstreams(w) then Upstreams(w)[d] else {}) + {n.service.value.id}
            else UsersOf(w, d)
    ensures (n.service.Some? && n.service.value.upstreamID == d) || d in Upstreams(w)
  {
    UsersOneMore(w, v, n, d);
    NoUsers(w, d);
    DestinationsOneMore(w, v, n);
    hide UsersOf, Destinations;
  }

  lemma NoUsers(w: seq<Node>, d: Identifier)
    ensures d !in Destinations(w) ==> UsersOf(w, d) == {}
  {
  }

  lemma DestinationsOneMore(w: seq<Node>, v: seq<Node>, n: Node)
    requires |v| == |w| + 1 && v[|w|] == n && forall j :: 0 <= j < |w| ==> v[j] == w[j]
    ensures Destinations(v) == Destinations(w) + if n.service.Some? then {n.service.value.upstreamID} else {}
  {
  }

  lemma UsersOneMore(w: seq<Node>, v: seq<Node>, n: Node, d: Identifier)
    requires |v| == |w| + 1 && v[|w|] == n && forall j :: 0 <= j < |w| ==> v[j] == w[j]
    ensures UsersOf(v, d) ==
            UsersOf(w, d) + if n.service.Some? && n.service.value.upstreamID == d then {n.service.value.id} else {}
  {
  }

  function AllowFrom(src: Identifier): Source { Source(src.name, src.ns, src.partition, true) }

  /** An intentions entry for d allowing exactly its users, listed in some order. */
  ghost predicate AllowsUsers(e: Entry, d: Identifier, users: set<Identifier>) {
    && e == Entry(ServiceIntentions, d.name, d.ns, d.partition, e.body)
    && e.body.Intentions?
    && Enumerates(e.body.sources, set u | u in users :: AllowFrom(u))
  }

  const PROMETHEUS_ENTRY :=
    Entry(ProxyDefaults, "global", "", DEFAULT, Proxy(map["envoy_prometheus_bind_addr" := "0.0.0.0:9102"], ""))

  function PrometheusPart(prometheus: bool, cluster: string): seq<Entry> {
    if prometheus && cluster == Config.PRIMARY_CLUSTER then [PROMETHEUS_ENTRY] else []
  }

  /** One intentions entry per destination, in the order ds. */
  ghost predicate IntentionsFor(es: seq<Entry>, ds: seq<Identifier>, dm: Graph) {
    && |es| == |ds| && Enumerates(ds, dm.Keys)
    && forall i :: 0 <= i < |es| ==> ds[i] in dm && AllowsUsers(es[i], ds[i], dm[ds[i]])
  }

  method StockIntentions(dm: Graph) returns (es: seq<Entry>)
    ensures exists ds :: IntentionsFor(es, ds, dm)
  {
    es := [];
    ghost var ds: seq<Identifier> := [];
    var todo := dm.Keys;
    while todo != {}
      invariant todo <= dm.Keys
      invariant |es| == |ds| && Enumerates(ds, dm.Keys - todo)
      invariant forall i :: 0 <= i < |es| ==> ds[i] in dm && AllowsUsers(es[i], ds[i], dm[ds[i]])
    {
      var dst :| dst in todo;
      var sources := AllowSources(dm[dst]);
      EnumerateOneMore(ds, dm.Keys - todo, dst);
      es := es + [Entry(ServiceIntentions, dst.name, dst.ns, dst.partition, Intentions(sources))];
      ds := ds + [dst];
      assert dm.Keys - (todo - {dst}) == dm.Keys - todo + {dst};
      todo := todo - {dst};
    }
    assert dm.Keys - todo == dm.Keys;
    assert IntentionsFor(es, ds, dm);
  }

  method AllowSources(users: set<Identifier>) returns (sources: seq<Source>)
    ensures Enumerates(sources, set u | u in users :: AllowFrom(u))
  {
    sources := [];
    var todo := users;
    while todo != {}
      invariant todo <= users
      invariant Enumerates(sources, set u | u in users - todo :: AllowFrom(u))
    {
      var src :| src in todo;
      ghost var before := set u | u in users - todo :: AllowFrom(u);
      EnumerateOneMore(sources, before, AllowFrom(src));
      todo := todo - {src};
      sources := sources + [AllowFrom(src)];
      assert before + {AllowFrom(src)} == set u | u in users - todo :: AllowFrom(u);
    }
    assert users - todo == users;
  }

  // ---------------------------------------------------------------- merging

  predicate SameSubject(a: Entry, b: Entry) { a.kind == b.kind && a.name == b.name }

  /** The first entry about the same subject. */
  function FirstMatch(es: seq<Entry>, stock: Entry): Option<nat> {
    if es == [] then None
    else if SameSubject(stock, es[0]) then Some(0)
    else
      match FirstMatch(es[1..], stock)
      case Some(i) => Some(i + 1)
      case None => None
  }

  lemma {:induction false} FirstMatchFinds(es: seq<Entry>, stock: Entry)
    ensures match FirstMatch(es, stock)
            case Some(i) => i < |es| && SameSubject(stock, es[i]) && forall j :: 0 <= j < i ==> !SameSubject(stock, es[j])
            case None => forall j :: 0 <= j < |es| ==> !SameSubject(stock, es[j])
  {
    if es != [] && !SameSubject(stock, es[0]) {
      FirstMatchFinds(es[1..], stock);
      assert forall j :: 0 < j < |es| ==> es[j] == es[1..][j - 1];
    }
  }

  function MergedProxy(e: Entry, stock: Entry): Entry
    requires WellTyped(e) && WellTyped(stock) && e.kind == ProxyDefaults && stock.kind == ProxyDefaults
  {
    e.(body := e.body.(config := e.body.config + stock.body.config))
  }

  predicate Stockable(e: Entry) { WellTyped(e) && (e.kind == ProxyDefaults || e.kind == ServiceIntentions) }

  /** A stock entry is added unless the user has one of that kind and name; proxy defaults are combined. */
  function MergeOne(es: seq<Entry>, stock: Entry): (r: seq<Entry>)
    requires (forall e :: e in es ==> WellTyped(e)) && Stockable(stock)
    ensures forall e :: e in r ==> WellTyped(e)
  {
    FirstMatchFinds(es, stock);
    match FirstMatch(es, stock)
    case None => es + [stock]
    case Some(i) => if stock.kind == ProxyDefaults then es[i := MergedProxy(es[i], stock)] else es
  }

  function MergeAll(es: seq<Entry>, stock: seq<Entry>): (r: seq<Entry>)
    requires (forall e :: e in es ==> WellTyped(e)) && (forall e :: e in stock ==> Stockable(e))
    ensures forall e :: e in r ==> WellTyped(e)
  {
    if stock == [] then es else MergeOne(MergeAll(es, stock[..|stock| - 1]), stock[|stock| - 1])
  }

  method Merge(user: seq<Entry>, stock: seq<Entry>) returns (entries: seq<Entry>)
    requires (forall e :: e in user ==> WellTyped(e)) && (forall e :: e in stock ==> Stockable(e))
    ensures entries == MergeAll(user, stock)
  {
    entries := user;
    for k := 0 to |stock|
      invariant entries == MergeAll(user, stock[..k])
    {
      assert stock[..k + 1][..k] == stock[..k];
      entries := MergeStockEntry(entries, stock[k]);
    }
    assert stock[..|stock|] == stock;
  }

  /** One round of the merge loop. */
  method MergeStockEntry(es: seq<Entry>, stockEntry: Entry) returns (entries: seq<Entry>)
    requires (forall e :: e in es ==> WellTyped(e)) && Stockable(stockEntry)
    ensures entries == MergeOne(es, stockEntry)
  {
    entries := es;
    FirstMatchFinds(es, stockEntry);
    for i := 0 to |es|
      invariant forall j :: 0 <= j < i ==> !SameSubject(stockEntry, es[j])
    {
      var entry := es[i];
      if stockEntry.kind != entry.kind {
        continue;
      }
      if stockEntry.name != entry.name {
        continue;
      }
      assert entry in es;
      if stockEntry.kind == ProxyDefaults {
        entries := entries[i := entry.(body := entry.body.(config := entry.body.config + stockEntry.body.config))];
      }
      // intentions are deliberately not merged
      return;
    }
    entries := entries + [stockEntry];
  }

  // ---------------------------------------------------------------- writing

  /** Requests lose their tenancy, but only for these two kinds. */
  function Scrubbed(e: Entry): Entry
    requires WellTyped(e)
  {
    if e.kind == ProxyDefaults then e.(ns := "", partition := "")
    else if e.kind == ServiceIntentions then
      e.(ns := "", partition := "",
         body := Intentions(seq(|e.body.sources|, i requires 0 <= i < |e.body.sources| =>
                              e.body.sources[i].(ns := "", partition := ""))))
    else e
  }

  function SetOps(es: seq<Entry>): seq<Op>
    requires forall e :: e in es ==> WellTyped(e)
  {
    seq(|es|, i requires 0 <= i < |es| => SetEntry(Scrubbed(es[i])))
  }

  /** The keys by which written entries are struck off the list of current ones. */
  function WrittenKeys(es: seq<Entry>): set<KindName>
    requires forall e :: e in es ==> WellTyped(e)
  {
    set i | 0 <= i < |es| :: WrittenKey(Scrubbed(es[i]))
  }

  /** Where the written entries end up. */
  function FiledKeys(es: seq<Entry>): set<KindName> { set i | 0 <= i < |es| :: FiledKey(es[i]) }

  function Rank(k: Kind): nat {
    match k
    case MeshConfig => 0
    case ServiceIntentions => 1
    case IngressGateway => 2
    case TerminatingGateway => 3
    case ServiceRouter => 4
    case ServiceSplitter => 5
    case ServiceResolver => 6
    case ServiceDefaults => 7
    case ProxyDefaults => 8
    case ExportedServices => 9
    case OtherKind(_) => 10
  }

  /** Deletions never go back to an earlier kind. */
  predicate KindOrder(ops: seq<Op>) {
    && (forall i :: 0 <= i < |ops| ==> ops[i].DeleteEntry?)
    && forall i, j :: 0 <= i < j < |ops| ==> Rank(ops[i].key.kind) <= Rank(ops[j].key.kind)
  }

  function Deletions(keys: set<KindName>): set<Op> { set k | k in keys :: DeleteEntry(k) }
}
