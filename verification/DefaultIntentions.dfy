/** The intentions that writeCentralConfigs adds for the upstreams of the topology. */
module DefaultIntentions {
  import opened Sorting
  import opened Identifiers
  import opened Infra
  import opened CentralConfig
  import opened CentralConfigRun
  import opened CentralConfigFacts
  import Config
  import Compile
  import NameFacts

  // ---------------------------------------------------------------- the shape of a merge

  predicate Unmatched(user: seq<Entry>, e: Entry) { forall u :: u in user ==> !SameSubject(e, u) }

  predicate SubjectsApart(stock: seq<Entry>) { forall i, j :: 0 <= i < j < |stock| ==> !SameSubject(stock[i], stock[j]) }

  /** The stock entries the user has not pre-empted. */
  function Additions(user: seq<Entry>, stock: seq<Entry>): seq<Entry> {
    if stock == [] then []
    else
      var last := stock[|stock| - 1];
      Additions(user, stock[..|stock| - 1]) + if Unmatched(user, last) then [last] else []
  }

  /** The user's own entries after a merge: only proxy defaults are ever changed. */
  ghost predicate UserKept(user: seq<Entry>, kept: seq<Entry>) {
    && |kept| == |user|
    && forall i :: 0 <= i < |user| ==>
         SameSubject(kept[i], user[i]) && (user[i].kind != ProxyDefaults ==> kept[i] == user[i])
  }

  lemma {:induction false} AdditionsAreStock(user: seq<Entry>, stock: seq<Entry>)
    ensures forall e :: e in Additions(user, stock) <==> e in stock && Unmatched(user, e)
  {
    hide Unmatched;
    if stock != [] {
      assert stock == stock[..|stock| - 1] + [stock[|stock| - 1]];
      AdditionsAreStock(user, stock[..|stock| - 1]);
    }
  }

  /** A merge keeps the user's entries in place and appends the stock entries nobody pre-empted. */
  lemma {:induction false} MergeShape(user: seq<Entry>, stock: seq<Entry>) returns (kept: seq<Entry>)
    requires AllTyped(user) && (forall e :: e in stock ==> Stockable(e)) && SubjectsApart(stock)
    ensures UserKept(user, kept) && MergeAll(user, stock) == kept + Additions(user, stock)
  {
    hide Stockable;
    if stock == [] {
      kept := user;
    } else {
      var rest, last := stock[..|stock| - 1], stock[|stock| - 1];
      assert last in stock;
      kept := MergeShape(user, rest);
      AdditionsAreStock(user, rest);
      var adds := Additions(user, rest);
      assert forall e :: e in adds ==> !SameSubject(last, e) by {
        forall e | e in adds ensures !SameSubject(last, e) {
          var i :| 0 <= i < |rest| && rest[i] == e;
          assert stock[i] == e;
        }
      }
      hide MergeAll, AllTyped, SubjectsApart;
      kept := MergeOneShape(user, kept, adds, last);
    }
  }

  lemma MergeOneShape(user: seq<Entry>, kept: seq<Entry>, adds: seq<Entry>, stock: Entry) returns (kept': seq<Entry>)
    requires (forall e :: e in kept + adds ==> WellTyped(e)) && Stockable(stock)
    requires UserKept(user, kept) && forall e :: e in adds ==> !SameSubject(stock, e)
    ensures UserKept(user, kept')
    ensures MergeOne(kept + adds, stock) == kept' + (adds + if Unmatched(user, stock) then [stock] else [])
  {
    var es := kept + adds;
    FirstMatchFinds(es, stock);
    hide FirstMatch;
    match FirstMatch(es, stock) {
      case None =>
        kept' := kept;
        forall u | u in user ensures !SameSubject(stock, u) {
          var i :| 0 <= i < |user| && user[i] == u;
          assert es[i] == kept[i];
        }
        assert es + [stock] == kept + (adds + [stock]);
      case Some(i) =>
        assert forall j :: |kept| <= j < |es| ==> es[j] == adds[j - |kept|] && es[j] in adds;
        assert es[i] == kept[i] && user[i] in user;
        kept' := if stock.kind == ProxyDefaults then kept[i := MergedProxy(kept[i], stock)] else kept;
        assert es[i := kept'[i]] == kept' + adds;
        assert adds + [] == adds;
    }
  }

  /** All services and upstreams are in the default tenancy, as without enterprise. */
  predicate DefaultServices(walk: seq<Node>) {
    forall i :: 0 <= i < |walk| && walk[i].service.Some? ==>
      walk[i].service.value.id.InDefaultTenancy() && walk[i].service.value.upstreamID.InDefaultTenancy()
  }

  lemma StockSubjectsApart(walk: seq<Node>, es: seq<Entry>, ds: seq<Identifier>, prometheus: bool, cluster: string)
    requires DefaultServices(walk) && IntentionsFor(es, ds, Upstreams(walk))
    ensures SubjectsApart(PrometheusPart(prometheus, cluster) + es)
  {
    var p := PrometheusPart(prometheus, cluster);
    var stock := p + es;
    forall i | 0 <= i < |ds| ensures ds[i].InDefaultTenancy() && es[i].kind == ServiceIntentions && es[i].name == ds[i].name {
      assert AllowsUsers(es[i], ds[i], Upstreams(walk)[ds[i]]);
      assert ds[i] in Destinations(walk);
    }
    hide IntentionsFor, Upstreams, DefaultServices;
    assert NoDuplicates(ds) by { hide *; IntentionsEnumerate(es, ds, walk); }
    forall i, j | 0 <= i < j < |stock| ensures !SameSubject(stock[i], stock[j]) {
      if i >= |p| {
        assert ds[i - |p|] != ds[j - |p|];
      }
    }
  }

  lemma IntentionsEnumerate(es: seq<Entry>, ds: seq<Identifier>, walk: seq<Node>)
    requires IntentionsFor(es, ds, Upstreams(walk))
    ensures NoDuplicates(ds)
  {
  }

  /** Only with enterprise may services leave the default tenancy. */
  lemma CompiledServicesAreDefault(cfg: Config.Config, v: View, walk: seq<Node>)
    requires Config.Acceptable(cfg) && !cfg.enterpriseEnabled
    requires Compile.Compilable(cfg) && Compile.IsCompiled(cfg, v)
    requires forall n :: n in walk ==> n in v.nm.Values
    ensures DefaultServices(walk)
  {
    hide Compile.Slots, Compile.Holds, Compile.SlotNode, Compile.IsCompiled, Config.Acceptable, Identifier.InDefaultTenancy;
    NameFacts.CompiledHolds(cfg, v);
    var env := Compile.EnvOf(cfg);
    var S := Compile.Slots(env, v.clusters);
    forall n | n in walk && n.service.Some?
      ensures n.service.value.id.InDefaultTenancy() && n.service.value.upstreamID.InDefaultTenancy()
    {
      var name :| name in v.nm && v.nm[name] == n;
      var s := Compile.HoldsAt(env, S, v.nm, name);
      SlotServiceIsDefault(cfg, env, s);
    }
  }

  lemma SlotServiceIsDefault(cfg: Config.Config, env: Compile.Env, s: Compile.Slot)
    requires Config.Acceptable(cfg) && !cfg.enterpriseEnabled && env.nodes == cfg.nodes
    ensures var n := Compile.SlotNode(env, s);
            n.service.Some? ==> n.service.value.id.InDefaultTenancy() && n.service.value.upstreamID.InDefaultTenancy()
  {
    NameFacts.SettingsAreUntenanted(cfg, env, Compile.SlotName(s));
    hide Compile.SlotAddresses, Compile.SlotName, Compile.SettingsOf, Config.NodesOk, Config.LinksOk;
  }

  // ---------------------------------------------------------------- who may call whom

  /** Some node runs the service u and has d for its upstream. */
  predicate Calls(walk: seq<Node>, u: Identifier, d: Identifier) {
    exists n :: n in walk && n.service.Some? && n.service.value.id == u && n.service.value.upstreamID == d
  }

  /** An intentions entry for d that allows exactly its callers, each once. */
  ghost predicate AllowsCallers(walk: seq<Node>, e: Entry, d: Identifier) {
    && e.kind == ServiceIntentions && e.name == d.name && e.ns == d.ns && e.partition == d.partition
    && e.body.Intentions? && NoDuplicates(e.body.sources)
    && forall s :: s in e.body.sources <==> exists u :: Calls(walk, u, d) && s == Source(u.name, u.ns, u.partition, true)
  }

  lemma UsersAreCallers(walk: seq<Node>, d: Identifier)
    ensures forall u :: u in UsersOf(walk, d) <==> Calls(walk, u, d)
    ensures d in Destinations(walk) <==> exists u :: Calls(walk, u, d)
  {
    forall u ensures u in UsersOf(walk, d) <==> Calls(walk, u, d) {
      if Calls(walk, u, d) {
        var n :| n in walk && n.service.Some? && n.service.value.id == u && n.service.value.upstreamID == d;
        var i :| 0 <= i < |walk| && walk[i] == n;
      }
    }
    if d in Destinations(walk) {
      var i :| 0 <= i < |walk| && walk[i].service.Some? && walk[i].service.value.upstreamID == d;
      assert Calls(walk, walk[i].service.value.id, d);
    }
    if u :| Calls(walk, u, d) {
      var n :| n in walk && n.service.Some? && n.service.value.id == u && n.service.value.upstreamID == d;
      var i :| 0 <= i < |walk| && walk[i] == n;
    }
  }

  lemma AllowedAreCallers(walk: seq<Node>, e: Entry, d: Identifier)
    requires AllowsUsers(e, d, UsersOf(walk, d))
    ensures AllowsCallers(walk, e, d)
  {
    UsersAreCallers(walk, d);
    hide UsersOf, Destinations, Calls;
    assert forall s :: s in e.body.sources <==> s in Elements(e.body.sources);
  }

  /** The destination is left to the defaults: no user intentions entry bears its name. */
  predicate LeftToDefaults(user: seq<Entry>, d: Identifier) {
    forall u :: u in user && u.kind == ServiceIntentions ==> u.name != d.name
  }

  /** The one intentions entry of that name is the i-th. */
  predicate OnlyIntentions(es: seq<Entry>, name: string, i: nat) {
    && i < |es| && es[i].kind == ServiceIntentions && es[i].name == name
    && forall j :: 0 <= j < |es| && es[j].kind == ServiceIntentions && es[j].name == name ==> j == i
  }

  lemma StockOf(walk: seq<Node>, stock: seq<Entry>, prometheus: bool, cluster: string)
    returns (es: seq<Entry>, ds: seq<Identifier>)
    requires IsStock(stock, prometheus, cluster, false, Upstreams(walk))
    ensures IntentionsFor(es, ds, Upstreams(walk)) && stock == PrometheusPart(prometheus, cluster) + es
  {
    hide IntentionsFor, Upstreams;
    es, ds :| IntentionsFor(es, ds, Upstreams(walk)) && stock == PrometheusPart(prometheus, cluster) + es;
  }

  /** Where the stock entry of a destination stands. */
  lemma StockEntryOf(walk: seq<Node>, es: seq<Entry>, ds: seq<Identifier>, d: Identifier) returns (i: nat)
    requires IntentionsFor(es, ds, Upstreams(walk)) && d in Destinations(walk)
    ensures i < |es| && ds[i] == d && AllowsUsers(es[i], d, UsersOf(walk, d))
  {
    assert d in Elements(ds);
    i :| 0 <= i < |ds| && ds[i] == d;
  }

  /** And every stock intentions entry belongs to a destination. */
  lemma DestinationOf(walk: seq<Node>, es: seq<Entry>, ds: seq<Identifier>, i: nat)
    requires IntentionsFor(es, ds, Upstreams(walk)) && i < |es|
    ensures ds[i] in Destinations(walk) && AllowsUsers(es[i], ds[i], UsersOf(walk, ds[i]))
  {
  }

  lemma IndexOf(es: seq<Entry>, e: Entry) returns (i: nat)
    requires e in es
    ensures i < |es| && es[i] == e
  {
    i :| 0 <= i < |es| && es[i] == e;
  }

  /** The part of a merge that comes from the stock. */
  lemma AdditionsApart(user: seq<Entry>, stock: seq<Entry>)
    requires SubjectsApart(stock)
    ensures SubjectsApart(Additions(user, stock))
  {
    if stock != [] {
      var rest, last := stock[..|stock| - 1], stock[|stock| - 1];
      AdditionsApart(user, rest);
      AdditionsAreStock(user, rest);
      var adds := Additions(user, rest);
      forall i | 0 <= i < |adds| ensures !SameSubject(adds[i], last) {
        assert adds[i] in adds;
        var j := IndexOf(rest, adds[i]);
        assert stock[j] == adds[i];
      }
    }
  }

  /** A destination left to the defaults gets one intentions entry, which allows exactly its users. */
  lemma DefaultIntentions(walk: seq<Node>, user: seq<Entry>, stock: seq<Entry>, prometheus: bool, cluster: string, d: Identifier)
    returns (i: nat)
    requires AllTyped(user) && (forall e :: e in stock ==> Stockable(e)) && DefaultServices(walk)
    requires IsStock(stock, prometheus, cluster, false, Upstreams(walk))
    requires (exists u :: Calls(walk, u, d)) && LeftToDefaults(user, d)
    ensures OnlyIntentions(MergeAll(user, stock), d.name, i)
    ensures AllowsCallers(walk, MergeAll(user, stock)[i], d)
  {
    UsersAreCallers(walk, d);
    hide Calls, UsersOf;
    var es, ds := StockOf(walk, stock, prometheus, cluster);
    StockSubjectsApart(walk, es, ds, prometheus, cluster);
    var j := StockEntryOf(walk, es, ds, d);
    var e := es[j];
    assert e in stock && Unmatched(user, e);
    AdditionsAreStock(user, stock);
    AdditionsApart(user, stock);
    var kept := MergeShape(user, stock);
    var adds := Additions(user, stock);
    var k := IndexOf(adds, e);
    i := |kept| + k;
    hide IsStock, IntentionsFor, DefaultServices, MergeAll, AllTyped, Additions, Upstreams, UsersOf, Destinations, Calls,
      AllowsCallers;
    AllowedAreCallers(walk, e, d);
    OnlyOne(user, kept, adds, d, k);
  }

  lemma OnlyOne(user: seq<Entry>, kept: seq<Entry>, adds: seq<Entry>, d: Identifier, k: nat)
    requires UserKept(user, kept) && SubjectsApart(adds) && LeftToDefaults(user, d)
    requires k < |adds| && adds[k].kind == ServiceIntentions && adds[k].name == d.name
    ensures OnlyIntentions(kept + adds, d.name, |kept| + k)
  {
    forall j | 0 <= j < |kept| ensures !(kept[j].kind == ServiceIntentions && kept[j].name == d.name) {
      assert SameSubject(kept[j], user[j]) && user[j] in user;
    }
  }

  /** Nobody else gets one: an intentions entry that the user did not write allows the callers of a destination. */
  lemma NoOtherIntentions(walk: seq<Node>, user: seq<Entry>, stock: seq<Entry>, prometheus: bool, cluster: string, i: nat)
    returns (d: Identifier)
    requires AllTyped(user) && (forall e :: e in stock ==> Stockable(e)) && DefaultServices(walk)
    requires IsStock(stock, prometheus, cluster, false, Upstreams(walk))
    requires |user| <= i < |MergeAll(user, stock)| && MergeAll(user, stock)[i].kind == ServiceIntentions
    ensures (exists u :: Calls(walk, u, d)) && LeftToDefaults(user, d)
    ensures AllowsCallers(walk, MergeAll(user, stock)[i], d)
  {
    var es, ds := StockOf(walk, stock, prometheus, cluster);
    StockSubjectsApart(walk, es, ds, prometheus, cluster);
    var kept := MergeShape(user, stock);
    AdditionsAreStock(user, stock);
    var e := MergeAll(user, stock)[i];
    assert e in Additions(user, stock);
    hide IsStock, MergeAll, Additions, DefaultServices, AllTyped, IntentionsFor, Upstreams;
    assert e in es;
    var j := IndexOf(es, e);
    DestinationOf(walk, es, ds, j);
    d := ds[j];
    UsersAreCallers(walk, d);
    AllowedAreCallers(walk, e, d);
    hide AllowsCallers, Calls, UsersOf, Destinations;
    assert forall u :: u in user && u.kind == ServiceIntentions ==> !SameSubject(e, u);
  }

  /** The user's own entries stay in place, whatever the stock; only the settings of proxy defaults may change. */
  lemma {:induction false} UserEntriesUnaltered(user: seq<Entry>, stock: seq<Entry>, i: nat)
    requires AllTyped(user) && forall e :: e in stock ==> Stockable(e)
    requires i < |user|
    ensures i < |MergeAll(user, stock)| && MergeAll(user, stock)[i].(body := user[i].body) == user[i]
    ensures user[i].kind != ProxyDefaults ==> MergeAll(user, stock)[i] == user[i]
  {
    hide Stockable, WellTyped, FirstMatch;
    if stock != [] {
      var rest, last := stock[..|stock| - 1], stock[|stock| - 1];
      assert last in stock;
      UserEntriesUnaltered(user, rest, i);
      FirstMatchFinds(MergeAll(user, rest), last);
    }
  }

  // ---------------------------------------------------------------- what arrives

  /**
   * After a complete run the cluster stores, for a destination left to the defaults, one entry under its name that
   * allows exactly the services that call it, by name alone.
   */
  lemma DefaultIntentionsArrive(walk: seq<Node>, user: seq<Entry>, stock: seq<Entry>, prometheus: bool, cluster: string,
                                r: Entries, ops: seq<Op>, d: Identifier)
    requires AllTyped(user) && (forall e :: e in stock ==> Stockable(e)) && DefaultServices(walk)
    requires IsStock(stock, prometheus, cluster, false, Upstreams(walk))
    requires (exists u :: Calls(walk, u, d)) && LeftToDefaults(user, d)
    requires FullRun(MergeAll(user, stock), ManagedPart(r), ops)
    ensures var t, k := ApplyAll(r, ops), KindName(ServiceIntentions, d.name, "default", "default");
            k in t && t[k].body.Intentions? &&
            forall s :: s in t[k].body.sources <==> exists u :: Calls(walk, u, d) && s == Source(u.name, "", "", true)
  {
    var merged := MergeAll(user, stock);
    var i := DefaultIntentions(walk, user, stock, prometheus, cluster, d);
    hide IsStock, DefaultServices, FullRun, ApplyAll, MergeAll, ManagedPart, Calls;
    var j := IntentionsArrive(r, merged, ops, i);
    assert j == i;
    ScrubbedSources(merged[i], walk, d);
  }

  /** Written intentions are struck off whatever their tenancy was, so one of that name is stored at the end. */
  lemma IntentionsArrive(r: Entries, merged: seq<Entry>, ops: seq<Op>, i: nat) returns (j: nat)
    requires AllTyped(merged) && FullRun(merged, ManagedPart(r), ops)
    requires i < |merged| && merged[i].kind == ServiceIntentions
    ensures j < |merged| && merged[j].kind == ServiceIntentions && merged[j].name == merged[i].name
    ensures FiledKey(merged[i]) in ApplyAll(r, ops) && ApplyAll(r, ops)[FiledKey(merged[i])] == Untenanted(Scrubbed(merged[j]))
  {
    var s := AfterFullRun(r, merged, ops);
    var k := FiledKey(merged[i]);
    assert WrittenKey(Scrubbed(merged[i])) == k;
    hide ApplyAll, FullRun, ManagedPart, Scrubbed, Untenanted;
    assert k in FiledKeys(merged) && k in WrittenKeys(merged);
    j :| 0 <= j < |merged| && FiledKey(merged[j]) == k && s[k] == Untenanted(Scrubbed(merged[j]));
  }

  lemma ScrubbedSources(e: Entry, walk: seq<Node>, d: Identifier)
    requires AllowsCallers(walk, e, d)
    ensures Scrubbed(e).body.Intentions?
    ensures forall s :: s in Scrubbed(e).body.sources <==> exists u :: Calls(walk, u, d) && s == Source(u.name, "", "", true)
  {
    var from, to := e.body.sources, Scrubbed(e).body.sources;
    assert |to| == |from| && forall n :: 0 <= n < |from| ==> to[n] == from[n].(ns := "", partition := "");
    hide Scrubbed, Calls;
    forall u | Calls(walk, u, d) ensures Source(u.name, "", "", true) in to {
      assert Source(u.name, u.ns, u.partition, true) in from;
      var n :| 0 <= n < |from| && from[n] == Source(u.name, u.ns, u.partition, true);
      assert to[n] == Source(u.name, "", "", true);
    }
    forall s | s in to ensures exists u :: Calls(walk, u, d) && s == Source(u.name, "", "", true) {
      var n :| 0 <= n < |to| && to[n] == s;
      assert from[n] in from;
    }
  }

  // ---------------------------------------------------------------- tenancy and second runs

  /** An entry is filed under the key it is written with exactly when it is scrubbed or in the default tenancy. */
  lemma IntactExactly(e: Entry)
    requires WellTyped(e)
    ensures WrittenKey(Scrubbed(e)) == FiledKey(e)
       <==> e.kind == ProxyDefaults || e.kind == ServiceIntentions || (OrDefault(e.ns) == DEFAULT && OrDefault(e.partition) == DEFAULT)
  {
  }

  lemma MergeOneKeepsTenancy(es: seq<Entry>, stock: Entry)
    requires AllTyped(es) && Stockable(stock) && TenancyIntact(es)
    ensures TenancyIntact(MergeOne(es, stock))
  {
    FirstMatchFinds(es, stock);
    var m := MergeOne(es, stock);
    forall i | 0 <= i < |m| && Managed(m[i].kind) ensures WrittenKey(Scrubbed(m[i])) == FiledKey(m[i]) {
      assert m[i] in m;
      IntactExactly(m[i]);
      hide Scrubbed;
    }
  }

  lemma {:induction false} MergeKeepsTenancy(user: seq<Entry>, stock: seq<Entry>)
    requires AllTyped(user) && (forall e :: e in stock ==> Stockable(e)) && TenancyIntact(user)
    ensures TenancyIntact(MergeAll(user, stock))
  {
    hide MergeOne, Stockable, WellTyped, TenancyIntact;
    if stock != [] {
      var rest, last := stock[..|stock| - 1], stock[|stock| - 1];
      assert last in stock;
      MergeKeepsTenancy(user, rest);
      MergeOneKeepsTenancy(MergeAll(user, rest), last);
    }
  }

  lemma IntentionKeys(es: seq<Entry>, ds: seq<Identifier>, dm: Graph)
    requires IntentionsFor(es, ds, dm)
    ensures FiledKeys(es) == set d | d in dm :: KindName(ServiceIntentions, d.name, DEFAULT, DEFAULT)
  {
    forall i | 0 <= i < |es| ensures FiledKey(es[i]) == KindName(ServiceIntentions, ds[i].name, DEFAULT, DEFAULT) {
      assert AllowsUsers(es[i], ds[i], dm[ds[i]]);
    }
    hide AllowsUsers, FiledKey;
    forall d | d in dm ensures KindName(ServiceIntentions, d.name, DEFAULT, DEFAULT) in FiledKeys(es) {
      assert d in Elements(ds);
      var i :| 0 <= i < |ds| && ds[i] == d;
      assert FiledKey(es[i]) in FiledKeys(es);
    }
  }

  lemma FiledKeysUnion(a: seq<Entry>, b: seq<Entry>)
    ensures FiledKeys(a + b) == FiledKeys(a) + FiledKeys(b)
  {
    forall k | k in FiledKeys(b) ensures k in FiledKeys(a + b) {
      var i :| 0 <= i < |b| && FiledKey(b[i]) == k;
      assert (a + b)[|a| + i] == b[i];
    }
    forall k | k in FiledKeys(a) ensures k in FiledKeys(a + b) {
      var i :| 0 <= i < |a| && FiledKey(a[i]) == k;
      assert (a + b)[i] == a[i];
    }
  }

  /** Two runs may list their stock entries in different orders, but never different ones. */
  lemma StockKeysAgree(a: seq<Entry>, b: seq<Entry>, prometheus: bool, cluster: string, noIntentions: bool, dm: Graph)
    requires IsStock(a, prometheus, cluster, noIntentions, dm) && IsStock(b, prometheus, cluster, noIntentions, dm)
    ensures FiledKeys(a) == FiledKeys(b)
  {
    hide IntentionsFor;
    if !noIntentions {
      var p := PrometheusPart(prometheus, cluster);
      var es, ds :| IntentionsFor(es, ds, dm) && a == p + es;
      var fs, gs :| IntentionsFor(fs, gs, dm) && b == p + fs;
      IntentionKeys(es, ds, dm);
      IntentionKeys(fs, gs, dm);
      FiledKeysUnion(p, es);
      FiledKeysUnion(p, fs);
    }
  }

  /** Running writeCentralConfigs again after a success deletes nothing, in whatever order the second run works. */
  lemma RerunDeletesNothing(user: seq<Entry>, walk: seq<Node>, prometheus: bool, cluster: string, noIntentions: bool,
                            stock: seq<Entry>, again: seq<Entry>, r: Entries, un: set<Kind>, ops: seq<Op>, more: seq<Op>)
    requires ValidStore(r, un) && AllTyped(user) && TenancyIntact(user)
    requires (forall e :: e in stock ==> Stockable(e)) && (forall e :: e in again ==> Stockable(e))
    requires IsStock(stock, prometheus, cluster, noIntentions, Upstreams(walk))
    requires IsStock(again, prometheus, cluster, noIntentions, Upstreams(walk))
    requires FullRun(MergeAll(user, stock), ManagedPart(r), ops) && forall op :: op in ops ==> Accepted(op, un)
    requires FullRun(MergeAll(user, again), ManagedPart(ApplyAll(r, ops)), more)
    ensures forall op :: op in more ==> !op.DeleteEntry?
  {
    StockKeysAgree(stock, again, prometheus, cluster, noIntentions, Upstreams(walk));
    MergeAllKeys(user, stock);
    MergeAllKeys(user, again);
    MergeKeepsTenancy(user, stock);
    MergeKeepsTenancy(user, again);
    hide IsStock, Upstreams, ValidStore, TenancyIntact, Stockable, FullRun, MergeAll;
    SecondRunDeletesNothing(r, un, MergeAll(user, stock), ops, MergeAll(user, again), more);
  }
}
