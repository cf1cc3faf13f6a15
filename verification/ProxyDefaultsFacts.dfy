/** The proxy defaults that writeCentralConfigs combines with the user's. */
module ProxyDefaultsFacts {
  import opened Infra
  import opened CentralConfig
  import opened CentralConfigRun
  import opened CentralConfigFacts

  /** The first entry of the stock entry's kind and name. */
  predicate FirstOf(es: seq<Entry>, stock: Entry, i: nat) {
    && i < |es| && es[i].kind == stock.kind && es[i].name == stock.name
    && forall j :: 0 <= j < i ==> !(es[j].kind == stock.kind && es[j].name == stock.name)
  }

  /**
   * Combining proxy defaults: the first entry of the name gets every stock setting with its stock value, keeps its
   * other settings and has no further ones; nothing else of it changes, and no other entry does.
   */
  lemma ProxyDefaultsCombined(es: seq<Entry>, stock: Entry, i: nat)
    requires AllTyped(es) && Stockable(stock) && stock.kind == ProxyDefaults && FirstOf(es, stock, i)
    ensures var r := MergeOne(es, stock);
            && |r| == |es| && (forall j :: 0 <= j < |es| && j != i ==> r[j] == es[j])
            && es[i].body.Proxy? && r[i].body.Proxy? && r[i].body.rest == es[i].body.rest
            && r[i].(body := es[i].body) == es[i]
            && (forall k :: k in stock.body.config ==> k in r[i].body.config && r[i].body.config[k] == stock.body.config[k])
            && (forall k :: k in es[i].body.config && k !in stock.body.config ==>
                  k in r[i].body.config && r[i].body.config[k] == es[i].body.config[k])
            && forall k :: k in r[i].body.config ==> k in es[i].body.config || k in stock.body.config
  {
    FirstMatchFinds(es, stock);
    assert es[i] in es;
    match FirstMatch(es, stock)
    case Some(j) => assert j == i;
    case None => assert SameSubject(stock, es[i]);
  }

  /** Stock intentions change none of the entries that were there. */
  lemma {:induction false} IntentionsOnlyAppend(es: seq<Entry>, stock: seq<Entry>)
    requires AllTyped(es) && (forall e :: e in stock ==> Stockable(e)) && forall e :: e in stock ==> e.kind == ServiceIntentions
    ensures es <= MergeAll(es, stock)
    ensures forall e :: e in MergeAll(es, stock)[|es|..] ==> e.kind == ServiceIntentions
  {
    hide FirstMatch;
    if stock != [] {
      var rest, last := stock[..|stock| - 1], stock[|stock| - 1];
      assert last in stock;
      IntentionsOnlyAppend(es, rest);
      var before := MergeAll(es, rest);
      FirstMatchFinds(before, last);
      match FirstMatch(before, last)
      case None => assert (before + [last])[|es|..] == before[|es|..] + [last];
      case Some(_) =>
    }
  }

  /** Merging a stock that starts with one entry is merging that entry first. */
  lemma {:induction false} MergeFirst(es: seq<Entry>, first: Entry, more: seq<Entry>)
    requires AllTyped(es) && Stockable(first) && forall e :: e in more ==> Stockable(e)
    ensures MergeAll(es, [first] + more) == MergeAll(MergeOne(es, first), more)
    decreases |more|
  {
    hide MergeOne, WellTyped, Stockable;
    var all := [first] + more;
    if more == [] {
      assert all == [first] && all[..0] == [];
      assert MergeAll(es, all[..0]) == es;
    } else {
      var rest, last := more[..|more| - 1], more[|more| - 1];
      assert all[..|all| - 1] == [first] + rest && all[|all| - 1] == last && last in more;
      MergeFirst(es, first, rest);
    }
  }

  predicate IsGlobal(e: Entry) { e.kind == ProxyDefaults && e.name == "global" }

  lemma StockSplits(stock: seq<Entry>, prometheus: bool, cluster: string, noIntentions: bool, dm: Graph) returns (es: seq<Entry>)
    requires IsStock(stock, prometheus, cluster, noIntentions, dm)
    ensures stock == PrometheusPart(prometheus, cluster) + es
    ensures forall e :: e in es ==> Stockable(e) && e.kind == ServiceIntentions
  {
    if noIntentions {
      es := [];
    } else {
      var ds;
      es, ds :| IntentionsFor(es, ds, dm) && stock == PrometheusPart(prometheus, cluster) + es;
      forall e | e in es ensures Stockable(e) && e.kind == ServiceIntentions {
        var i :| 0 <= i < |es| && es[i] == e;
        assert AllowsUsers(es[i], ds[i], dm[ds[i]]);
      }
    }
  }

  /** Without prometheus, and outside the primary cluster, the user's entries all come out of the merge as they are. */
  lemma UserEntriesKept(user: seq<Entry>, stock: seq<Entry>, prometheus: bool, cluster: string, noIntentions: bool, dm: Graph)
    requires AllTyped(user) && (forall e :: e in stock ==> Stockable(e)) && IsStock(stock, prometheus, cluster, noIntentions, dm)
    requires !prometheus || cluster != "dc1"
    ensures user <= MergeAll(user, stock)
    ensures forall e :: e in MergeAll(user, stock)[|user|..] ==> e.kind == ServiceIntentions
  {
    var es := StockSplits(stock, prometheus, cluster, noIntentions, dm);
    assert stock == es;
    hide IsStock, MergeAll, Stockable, WellTyped;
    IntentionsOnlyAppend(user, stock);
  }

  /**
   * The i-th entry is the "global" proxy defaults with the bind address: the user's first, whose other settings and
   * all else it says are as they were, or new ones.  The user's other entries stay, and only intentions are added.
   */
  predicate WithBindAddress(user: seq<Entry>, merged: seq<Entry>, i: nat) {
    && |user| <= |merged| && i < |merged| && IsGlobal(merged[i]) && merged[i].body.Proxy?
    && "envoy_prometheus_bind_addr" in merged[i].body.config
    && merged[i].body.config["envoy_prometheus_bind_addr"] == "0.0.0.0:9102"
    && (forall j :: 0 <= j < |user| && j != i ==> merged[j] == user[j])
    && (forall j :: |user| <= j < |merged| && j != i ==> merged[j].kind == ServiceIntentions)
    && if i < |user| then
         && IsGlobal(user[i]) && (forall j :: 0 <= j < i ==> !IsGlobal(user[j]))
         && user[i].body.Proxy? && merged[i].(body := user[i].body) == user[i] && merged[i].body.rest == user[i].body.rest
         && merged[i].body.config.Keys == user[i].body.config.Keys + {"envoy_prometheus_bind_addr"}
         && forall k :: k in user[i].body.config && k != "envoy_prometheus_bind_addr" ==>
              merged[i].body.config[k] == user[i].body.config[k]
       else
         && i == |user| && (forall j :: 0 <= j < |user| ==> !IsGlobal(user[j]))
         && merged[i] == Entry(ProxyDefaults, "global", "", "default", Proxy(map["envoy_prometheus_bind_addr" := "0.0.0.0:9102"], ""))
  }

  lemma BindAddressSet(user: seq<Entry>) returns (i: nat)
    requires AllTyped(user)
    ensures Stockable(PROMETHEUS_ENTRY) && WithBindAddress(user, MergeOne(user, PROMETHEUS_ENTRY), i)
  {
    var p := PROMETHEUS_ENTRY;
    FirstMatchFinds(user, p);
    match FirstMatch(user, p)
    case Some(j) =>
      i := j;
      BindAddressOfUser(user, i);
    case None =>
      i := |user|;
      assert forall j :: 0 <= j < |user| ==> !IsGlobal(user[j]);
  }

  lemma BindAddressOfUser(user: seq<Entry>, i: nat)
    requires AllTyped(user) && FirstOf(user, PROMETHEUS_ENTRY, i)
    ensures Stockable(PROMETHEUS_ENTRY) && WithBindAddress(user, MergeOne(user, PROMETHEUS_ENTRY), i)
  {
    var p := PROMETHEUS_ENTRY;
    assert p.body.config.Keys == {"envoy_prometheus_bind_addr"};
    ProxyDefaultsCombined(user, p, i);
    hide MergeOne, WellTyped;
  }

  lemma IntentionsLeaveIt(user: seq<Entry>, one: seq<Entry>, merged: seq<Entry>, i: nat)
    requires WithBindAddress(user, one, i) && one <= merged && forall e :: e in merged[|one|..] ==> e.kind == ServiceIntentions
    ensures WithBindAddress(user, merged, i)
  {
    assert forall j :: 0 <= j < |one| ==> merged[j] == one[j];
    assert forall j :: |one| <= j < |merged| ==> merged[j] == merged[|one|..][j - |one|];
  }

  /** With prometheus, the merge on the primary cluster sets the bind address, and changes nothing else of the user's. */
  lemma PrometheusMerged(user: seq<Entry>, stock: seq<Entry>, noIntentions: bool, dm: Graph) returns (i: nat)
    requires AllTyped(user) && (forall e :: e in stock ==> Stockable(e)) && IsStock(stock, true, "dc1", noIntentions, dm)
    ensures WithBindAddress(user, MergeAll(user, stock), i)
  {
    var es := StockSplits(stock, true, "dc1", noIntentions, dm);
    assert stock == [PROMETHEUS_ENTRY] + es;
    hide MergeOne, MergeAll, WithBindAddress, IsStock;
    MergeFirst(user, PROMETHEUS_ENTRY, es);
    i := BindAddressSet(user);
    var one := MergeOne(user, PROMETHEUS_ENTRY);
    IntentionsOnlyAppend(one, es);
    IntentionsLeaveIt(user, one, MergeAll(user, stock), i);
  }

  // ---------------------------------------------------------------- what arrives

  /** Where the server files "global" proxy defaults. */
  const GLOBAL_KEY := KindName(ProxyDefaults, "global", "default", "default")

  /** After a complete run, what is stored of the global proxy defaults is the last that was written. */
  lemma LastGlobalArrives(r: Entries, merged: seq<Entry>, ops: seq<Op>, i: nat)
    requires AllTyped(merged) && FullRun(merged, ManagedPart(r), ops)
    requires i < |merged| && IsGlobal(merged[i]) && forall j :: i < j < |merged| ==> !IsGlobal(merged[j])
    ensures GLOBAL_KEY in ApplyAll(r, ops) && ApplyAll(r, ops)[GLOBAL_KEY].body == merged[i].body
  {
    var s := AfterFullRun(r, merged, ops);
    assert FiledKey(merged[i]) == GLOBAL_KEY && WrittenKey(Scrubbed(merged[i])) == GLOBAL_KEY;
    assert forall j :: 0 <= j < |merged| ==> (FiledKey(merged[j]) == GLOBAL_KEY <==> IsGlobal(merged[j]));
    assert Scrubbed(merged[i]).body == merged[i].body;
    hide ApplyAll, FullRun, ManagedPart, Scrubbed, WellTyped;
    assert GLOBAL_KEY in FiledKeys(merged) && GLOBAL_KEY in WrittenKeys(merged);
    assert KeptOf(merged, GLOBAL_KEY, s[GLOBAL_KEY]);
    var j :| 0 <= j < |merged| && FiledKey(merged[j]) == GLOBAL_KEY && s[GLOBAL_KEY] == Untenanted(Scrubbed(merged[j])) &&
             forall m :: j < m < |merged| ==> FiledKey(merged[m]) != GLOBAL_KEY;
    assert j == i;
  }

  predicate HasBindAddress(b: Body) {
    b.Proxy? && "envoy_prometheus_bind_addr" in b.config && b.config["envoy_prometheus_bind_addr"] == "0.0.0.0:9102"
  }

  /** The last of several "global" proxy defaults of the user's. */
  predicate LastOfSeveral(user: seq<Entry>, j: nat) {
    && j < |user| && IsGlobal(user[j]) && (forall m :: j < m < |user| ==> !IsGlobal(user[m]))
    && exists i :: 0 <= i < j && IsGlobal(user[i])
  }

  /**
   * After a complete run on the primary cluster with prometheus, the stored global proxy defaults have the bind
   * address exactly when the user has at most one "global" entry, or the last of them sets it itself: only the first
   * is combined with the stock, and the last one written stays.
   */
  lemma BindAddressArrivesExactly(walk: seq<Node>, user: seq<Entry>, stock: seq<Entry>, noIntentions: bool, r: Entries, ops: seq<Op>)
    requires AllTyped(user) && (forall e :: e in stock ==> Stockable(e))
    requires IsStock(stock, true, "dc1", noIntentions, Upstreams(walk))
    requires FullRun(MergeAll(user, stock), ManagedPart(r), ops)
    ensures var t := ApplyAll(r, ops);
            var k := KindName(ProxyDefaults, "global", "default", "default");
            k in t && (HasBindAddress(t[k].body) <==> forall j: nat :: LastOfSeveral(user, j) ==> HasBindAddress(user[j].body))
  {
    var merged := MergeAll(user, stock);
    var first := PrometheusMerged(user, stock, noIntentions, Upstreams(walk));
    hide MergeAll, IsStock, FullRun, ManagedPart, ApplyAll, Stockable, WithBindAddress, HasBindAddress, LastOfSeveral;
    var last := LastGlobal(user, merged, first);
    LastGlobalArrives(r, merged, ops, last);
    LastDecides(user, merged, first, last);
  }

  lemma LastDecides(user: seq<Entry>, merged: seq<Entry>, first: nat, last: nat)
    requires WithBindAddress(user, merged, first) && first <= last < |merged| && IsGlobal(merged[last])
    requires forall j :: last < j < |merged| ==> !IsGlobal(merged[j])
    ensures HasBindAddress(merged[last].body) <==> forall j: nat :: LastOfSeveral(user, j) ==> HasBindAddress(user[j].body)
  {
    assert last < |user| || last == first;
    if last == first {
      forall j: nat ensures !LastOfSeveral(user, j) {
      }
    } else {
      assert merged[last] == user[last] && IsGlobal(user[first]);
      assert forall m :: last < m < |user| ==> merged[m] == user[m];
      assert LastOfSeveral(user, last);
      forall j: nat | LastOfSeveral(user, j) ensures j == last {
      }
    }
  }

  lemma LastGlobal(user: seq<Entry>, merged: seq<Entry>, first: nat) returns (last: nat)
    requires WithBindAddress(user, merged, first)
    ensures first <= last < |merged| && IsGlobal(merged[last]) && forall j :: last < j < |merged| ==> !IsGlobal(merged[j])
  {
    last := first;
    for j := first + 1 to |merged|
      invariant first <= last < j && IsGlobal(merged[last]) && forall m :: last < m < j ==> !IsGlobal(merged[m])
    {
      if IsGlobal(merged[j]) {
        last := j;
      }
    }
  }
}
