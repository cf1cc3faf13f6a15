/** The run of writeCentralConfigs: write the merged entries, then erase what is left over. */
module CentralConfigRun {
  import opened Sorting
  import opened Identifiers
  import opened Infra
  import opened CentralConfig

  ghost predicate Happened(r0: Entries, log0: seq<Op>, r: Entries, log: seq<Op>, ops: seq<Op>, un: set<Kind>) {
    r == ApplyAll(r0, ops) && log == log0 + ops && forall op :: op in ops ==> Accepted(op, un)
  }

  lemma NothingHappened(r: Entries, log: seq<Op>, un: set<Kind>)
    ensures Happened(r, log, r, log, [], un)
  {
  }

  lemma {:induction false} ApplyInTurn(r: Entries, a: seq<Op>, b: seq<Op>)
    ensures ApplyAll(r, a + b) == ApplyAll(ApplyAll(r, a), b)
  {
    hide Apply;
    if b == [] {
      assert a + b == a;
    } else {
      var rest, last := b[..|b| - 1], b[|b| - 1];
      ApplyInTurn(r, a, rest);
      assert a + b == (a + rest) + [last];
      ApplyOneMore(r, a + rest, last);
    }
  }

  lemma HappenedInTurn(r0: Entries, log0: seq<Op>, r1: Entries, log1: seq<Op>, r2: Entries, log2: seq<Op>,
                       a: seq<Op>, b: seq<Op>, un: set<Kind>)
    requires Happened(r0, log0, r1, log1, a, un) && Happened(r1, log1, r2, log2, b, un)
    ensures Happened(r0, log0, r2, log2, a + b, un)
  {
    ApplyInTurn(r0, a, b);
  }

  method Issue(client: ConfigStore, op: Op, ghost r0: Entries, ghost log0: seq<Op>, ghost ops: seq<Op>)
    returns (ok: bool, ghost ops': seq<Op>)
    requires Happened(r0, log0, client.entries, client.log, ops, client.unsupported)
    modifies client
    ensures Happened(r0, log0, client.entries, client.log, ops', client.unsupported)
    ensures ops' == ops + [op] || (!ok && ops' == ops)
  {
    ok := client.Call(op);
    if client.log == old(client.log) + [op] && client.entries == Apply(old(client.entries), op) {
      ops' := ops + [op];
      ApplyOneMore(r0, ops, op);
      assert client.log == log0 + (ops + [op]);
    } else {
      ops' := ops;
    }
  }

  // ---------------------------------------------------------------- writing

  predicate AllTyped(es: seq<Entry>) { forall e :: e in es ==> WellTyped(e) }

  function WrittenUpTo(es: seq<Entry>, n: nat): set<KindName>
    requires AllTyped(es) && n <= |es|
  {
    set i | 0 <= i < n :: WrittenKey(Scrubbed(es[i]))
  }

  method WriteEntries(client: ConfigStore, es: seq<Entry>, current: Entries)
    returns (ok: bool, left: Entries, ghost ops: seq<Op>)
    requires AllTyped(es)
    modifies client
    ensures Happened(old(client.entries), old(client.log), client.entries, client.log, ops, client.unsupported)
    ensures ops <= SetOps(es)
    ensures ok ==> ops == SetOps(es) && left == current - WrittenKeys(es)
  {
    hide Happened, Scrubbed;
    left, ops := current, [];
    NothingHappened(client.entries, client.log, client.unsupported);
    for i := 0 to |es|
      invariant Happened(old(client.entries), old(client.log), client.entries, client.log, ops, client.unsupported)
      invariant ops == SetOps(es)[..i]
      invariant left == current - WrittenUpTo(es, i)
    {
      var entry := Scrubbed(es[i]);
      ok, ops := Issue(client, SetEntry(entry), old(client.entries), old(client.log), ops);
      if !ok {
        return;
      }
      left := left - {WrittenKey(entry)};
      assert WrittenUpTo(es, i + 1) == WrittenUpTo(es, i) + {WrittenKey(entry)};
    }
    assert WrittenUpTo(es, |es|) == WrittenKeys(es);
    ok := true;
  }

  // ---------------------------------------------------------------- erasing

  function KeysOf(left: Entries, kind: Kind): set<KindName> { set k | k in left && k.kind == kind }

  /** Deletions of kinds before the n-th. */
  predicate RankedBelow(ops: seq<Op>, n: nat) {
    KindOrder(ops) && forall i :: 0 <= i < |ops| ==> Rank(ops[i].key.kind) < n
  }

  /** The inner loop: every leftover of one kind, deleted remotely and then struck off. */
  method EraseKind(client: ConfigStore, current: Entries, kind: Kind)
    returns (ok: bool, left: Entries, ghost ops: seq<Op>)
    modifies client
    ensures Happened(old(client.entries), old(client.log), client.entries, client.log, ops, client.unsupported)
    ensures NoDuplicates(ops) && Elements(ops) <= Deletions(KeysOf(current, kind))
    ensures ok ==> Elements(ops) == Deletions(KeysOf(current, kind)) && left == current - KeysOf(current, kind)
  {
    hide Happened;
    left, ops := current, [];
    NothingHappened(client.entries, client.log, client.unsupported);
    ghost var all := KeysOf(current, kind);
    var todo := KeysOf(current, kind);
    while todo != {}
      invariant todo <= all
      invariant Happened(old(client.entries), old(client.log), client.entries, client.log, ops, client.unsupported)
      invariant Enumerates(ops, Deletions(all - todo))
      invariant left == current - (all - todo)
    {
      var ckn :| ckn in todo;
      DeletionsOneMore(all - todo, ckn);
      EnumerateOneMore(ops, Deletions(all - todo), DeleteEntry(ckn));
      ok, ops := Issue(client, DeleteEntry(ckn), old(client.entries), old(client.log), ops);
      ghost var done := all - todo;
      todo := todo - {ckn};
      assert all - todo == done + {ckn};
      if !ok {
        DeletionsMonotone(all - todo, all);
        return;
      }
      left := left - {ckn};
    }
    assert all - todo == all;
    ok := true;
  }

  lemma DeletionsOneMore(keys: set<KindName>, k: KindName)
    ensures Deletions(keys + {k}) == Deletions(keys) + {DeleteEntry(k)}
    ensures k !in keys ==> DeleteEntry(k) !in Deletions(keys)
  {
  }

  lemma DeletionsMonotone(keys: set<KindName>, more: set<KindName>)
    requires keys <= more
    ensures Deletions(keys) <= Deletions(more)
  {
  }

  lemma RankIsPosition(i: nat)
    requires i < |DELETION_ORDER|
    ensures Rank(DELETION_ORDER[i]) == i
  {
    assert DELETION_ORDER[0] == MeshConfig && DELETION_ORDER[1] == ServiceIntentions && DELETION_ORDER[2] == IngressGateway;
    assert DELETION_ORDER[3] == TerminatingGateway && DELETION_ORDER[4] == ServiceRouter;
    assert DELETION_ORDER[5] == ServiceSplitter && DELETION_ORDER[6] == ServiceResolver;
    assert DELETION_ORDER[7] == ServiceDefaults && DELETION_ORDER[8] == ProxyDefaults && DELETION_ORDER[9] == ExportedServices;
    assert i == 0 || i == 1 || i == 2 || i == 3 || i == 4 || i == 5 || i == 6 || i == 7 || i == 8 || i == 9;
  }

  lemma AppendKind(a: seq<Op>, b: seq<Op>, i: nat, keys: set<KindName>)
    requires RankedBelow(a, i) && Elements(b) <= Deletions(keys) && forall k :: k in keys ==> Rank(k.kind) == i
    ensures RankedBelow(a + b, i + 1)
  {
    hide Rank;
    forall j | 0 <= j < |b| ensures b[j].DeleteEntry? && Rank(b[j].key.kind) == i {
      assert b[j] in Elements(b);
    }
  }

  /** The outer loop over the kinds. */
  method EraseLeftovers(client: ConfigStore, current: Entries) returns (ok: bool, left: Entries, ghost ops: seq<Op>)
    modifies client
    ensures Happened(old(client.entries), old(client.log), client.entries, client.log, ops, client.unsupported)
    ensures NoDuplicates(ops) && KindOrder(ops) && Elements(ops) <= Deletions(current.Keys)
    ensures ok ==> left == current - OfKinds(current, DELETION_ORDER).Keys
    ensures ok ==> Elements(ops) == Deletions(OfKinds(current, DELETION_ORDER).Keys)
  {
    hide Happened, Deletions, KeysOf, Rank, RankedBelow, NoDuplicates, OfKinds;
    left, ops := current, [];
    NothingHappened(client.entries, client.log, client.unsupported);
    NothingErased(current);
    for i := 0 to |DELETION_ORDER|
      invariant Happened(old(client.entries), old(client.log), client.entries, client.log, ops, client.unsupported)
      invariant Enumerates(ops, Deletions(OfKinds(current, DELETION_ORDER[..i]).Keys)) && RankedBelow(ops, i)
      invariant left == current - OfKinds(current, DELETION_ORDER[..i]).Keys
    {
      ghost var before, gone := ops, OfKinds(current, DELETION_ORDER[..i]).Keys;
      ghost var r1, log1 := client.entries, client.log;
      ghost var keys := KeysOf(left, DELETION_ORDER[i]);
      ghost var more;
      ErasedOneMore(current, left, i);
      ok, left, more := EraseKind(client, left, DELETION_ORDER[i]);
      HappenedInTurn(old(client.entries), old(client.log), r1, log1, client.entries, client.log, before, more, client.unsupported);
      EnumerateUnion(before, Deletions(gone), more, Elements(more));
      AppendKind(before, more, i, keys);
      ops := before + more;
      RankedIsOrdered(ops, i + 1);
      if !ok {
        ErasedWithin(current, i + 1);
        return;
      }
    }
    assert DELETION_ORDER[..|DELETION_ORDER|] == DELETION_ORDER;
    ErasedWithin(current, |DELETION_ORDER|);
    RankedIsOrdered(ops, |DELETION_ORDER|);
    ok := true;
  }

  lemma NothingErased(current: Entries)
    ensures current == current - OfKinds(current, DELETION_ORDER[..0]).Keys
    ensures Enumerates([], Deletions(OfKinds(current, DELETION_ORDER[..0]).Keys)) && RankedBelow([], 0)
  {
  }

  lemma RankedIsOrdered(ops: seq<Op>, n: nat)
    requires RankedBelow(ops, n)
    ensures KindOrder(ops)
  {
  }

  lemma ErasedWithin(current: Entries, n: nat)
    requires n <= |DELETION_ORDER|
    ensures Deletions(OfKinds(current, DELETION_ORDER[..n]).Keys) <= Deletions(current.Keys)
  {
  }

  lemma ErasedOneMore(current: Entries, left: Entries, i: nat)
    requires i < |DELETION_ORDER| && left == current - OfKinds(current, DELETION_ORDER[..i]).Keys
    ensures var gone, keys := OfKinds(current, DELETION_ORDER[..i]).Keys, KeysOf(left, DELETION_ORDER[i]);
            OfKinds(current, DELETION_ORDER[..i + 1]).Keys == gone + keys &&
            Deletions(gone + keys) == Deletions(gone) + Deletions(keys) && Deletions(gone) !! Deletions(keys) &&
            left - keys == current - (gone + keys) && forall k :: k in keys ==> Rank(k.kind) == i
  {
    RankIsPosition(i);
    hide Rank;
    var kinds := DELETION_ORDER[..i];
    assert DELETION_ORDER[..i + 1] == kinds + [DELETION_ORDER[i]];
    forall j | 0 <= j < i ensures kinds[j] != DELETION_ORDER[i] {
      RankIsPosition(j);
    }
    SplitDeletions(current, left, kinds, DELETION_ORDER[i]);
  }

  lemma SplitDeletions(current: Entries, left: Entries, kinds: seq<Kind>, kind: Kind)
    requires kind !in kinds && left == current - OfKinds(current, kinds).Keys
    ensures var gone, keys := OfKinds(current, kinds).Keys, KeysOf(left, kind);
            OfKinds(current, kinds + [kind]).Keys == gone + keys &&
            Deletions(gone + keys) == Deletions(gone) + Deletions(keys) && Deletions(gone) !! Deletions(keys) &&
            left - keys == current - (gone + keys)
  {
    var gone, keys := OfKinds(current, kinds).Keys, KeysOf(left, kind);
    assert gone !! keys;
  }

  // ---------------------------------------------------------------- the whole run

  /** The stock entries of a run: prometheus defaults, then one intentions entry per destination. */
  ghost predicate IsStock(stock: seq<Entry>, prometheus: bool, cluster: string, noIntentions: bool, dm: Graph) {
    if noIntentions then stock == PrometheusPart(prometheus, cluster)
    else exists es, ds :: IntentionsFor(es, ds, dm) && stock == PrometheusPart(prometheus, cluster) + es
  }

  lemma StockIsStockable(es: seq<Entry>, ds: seq<Identifier>, dm: Graph, prometheus: bool, cluster: string)
    requires IntentionsFor(es, ds, dm)
    ensures forall e :: e in PrometheusPart(prometheus, cluster) + es ==> Stockable(e)
    ensures forall e :: e in PrometheusPart(prometheus, cluster) ==> Stockable(e)
  {
    forall e | e in es ensures Stockable(e) {
      var i :| 0 <= i < |es| && es[i] == e;
      assert AllowsUsers(es[i], ds[i], dm[ds[i]]);
    }
  }

  /** The calls of a complete run. */
  ghost predicate FullRun(merged: seq<Entry>, current: Entries, ops: seq<Op>)
    requires AllTyped(merged)
  {
    exists dels :: ops == SetOps(merged) + dels && KindOrder(dels) &&
                   Enumerates(dels, Deletions(current.Keys - WrittenKeys(merged)))
  }

  ghost predicate PartialRun(merged: seq<Entry>, current: Entries, ops: seq<Op>)
    requires AllTyped(merged)
  {
    || ops <= SetOps(merged)
    || exists dels :: ops == SetOps(merged) + dels && KindOrder(dels) && NoDuplicates(dels) &&
                      Elements(dels) <= Deletions(current.Keys - WrittenKeys(merged))
  }

  method BuildStock(walk: seq<Node>, prometheus: bool, noIntentions: bool, cluster: string) returns (stock: seq<Entry>)
    ensures IsStock(stock, prometheus, cluster, noIntentions, Upstreams(walk))
    ensures forall e :: e in stock ==> Stockable(e)
  {
    hide Upstreams;
    var dm := CollectUpstreams(walk);
    stock := PrometheusPart(prometheus, cluster);
    if !noIntentions {
      var es := StockIntentions(dm);
      ghost var ds :| IntentionsFor(es, ds, dm);
      StockIsStockable(es, ds, dm, prometheus, cluster);
      stock := stock + es;
    }
  }

  method WriteCentralConfigs(client: ConfigStore, walk: seq<Node>, prometheus: bool, noIntentions: bool, cluster: string,
                             user: seq<Entry>)
    returns (ok: bool, left: Entries, ghost merged: seq<Entry>, ghost stock: seq<Entry>, ghost ops: seq<Op>)
    requires ValidStore(client.entries, client.unsupported) && AllTyped(user)
    modifies client
    ensures Happened(old(client.entries), old(client.log), client.entries, client.log, ops, client.unsupported)
    ensures forall e :: e in stock ==> Stockable(e)
    ensures IsStock(stock, prometheus, cluster, noIntentions, Upstreams(walk)) && merged == MergeAll(user, stock)
    ensures ok ==> FullRun(merged, ManagedPart(old(client.entries)), ops) && left == map[]
    ensures !ok ==> PartialRun(merged, ManagedPart(old(client.entries)), ops)
  {
    hide Happened, IsStock, Upstreams, MergeAll, ValidStore, Stockable, WellTyped, Scrubbed, KindOrder, NoDuplicates;
    ghost var r0, log0 := client.entries, client.log;
    NothingHappened(client.entries, client.log, client.unsupported);
    ops, left := [], map[];
    var current := ListAllConfigEntries(client);
    var stockEntries := BuildStock(walk, prometheus, noIntentions, cluster);
    stock := stockEntries;
    merged := MergeAll(user, stock);
    if current.None? {
      ok := false;
      return;
    }
    var entries := Merge(user, stockEntries);
    ok, left, ops := WriteEntries(client, entries, current.value);
    if !ok {
      return;
    }
    ghost var r1, log1 := client.entries, client.log;
    ghost var more, struck := [], left;
    LeftoversAreManaged(r0, left);
    ok, left, more := EraseLeftovers(client, left);
    HappenedInTurn(r0, log0, r1, log1, client.entries, client.log, ops, more, client.unsupported);
    assert struck.Keys == current.value.Keys - WrittenKeys(merged);
    ops := ops + more;
    if ok {
      assert left == map[];
    }
  }

  lemma LeftoversAreManaged(r: Entries, left: Entries)
    requires left.Keys <= ManagedPart(r).Keys
    ensures OfKinds(left, DELETION_ORDER).Keys == left.Keys
  {
    ListedKindsAreManaged();
  }
}
