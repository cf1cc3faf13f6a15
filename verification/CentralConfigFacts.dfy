/** What writeCentralConfigs achieves: convergence of the managed kinds. */
module CentralConfigFacts {
  import opened Sorting
  import opened CentralConfig
  import opened CentralConfigRun

  // ---------------------------------------------------------------- effects

  /** e is what the server keeps of the last of the entries filed under k. */
  ghost predicate KeptOf(es: seq<Entry>, k: KindName, e: Entry)
    requires AllTyped(es)
  {
    exists i :: 0 <= i < |es| && FiledKey(es[i]) == k && e == Untenanted(Scrubbed(es[i])) &&
                forall j :: i < j < |es| ==> FiledKey(es[j]) != k
  }

  /** Writing es: their places are filled by them, everything else is as before. */
  ghost predicate Filled(r: Entries, s: Entries, es: seq<Entry>)
    requires AllTyped(es)
  {
    && s.Keys == r.Keys + FiledKeys(es)
    && (forall k :: k in r && k !in FiledKeys(es) ==> s[k] == r[k])
    && forall k :: k in FiledKeys(es) ==> KeptOf(es, k, s[k])
  }

  lemma FiledKeysOneMore(es: seq<Entry>)
    requires es != []
    ensures FiledKeys(es) == FiledKeys(es[..|es| - 1]) + {FiledKey(es[|es| - 1])}
  {
  }

  lemma {:induction false} SetEffect(r: Entries, es: seq<Entry>)
    requires AllTyped(es)
    ensures Filled(r, ApplyAll(r, SetOps(es)), es)
  {
    if es != [] {
      var n := |es| - 1;
      var rest, last := es[..n], es[n];
      assert last in es;
      SetEffect(r, rest);
      var s, t := ApplyAll(r, SetOps(rest)), ApplyAll(r, SetOps(es));
      assert SetOps(es) == SetOps(rest) + [SetEntry(Scrubbed(last))];
      ApplyOneMore(r, SetOps(rest), SetEntry(Scrubbed(last)));
      FiledKeysOneMore(es);
      assert FiledKey(Scrubbed(last)) == FiledKey(last);
      hide ApplyAll, SetOps, Scrubbed, Untenanted;
      FilledOneMore(r, s, es);
    }
  }

  lemma FilledOneMore(r: Entries, s: Entries, es: seq<Entry>)
    requires es != [] && AllTyped(es) && Filled(r, s, es[..|es| - 1])
    ensures var last := es[|es| - 1];
            Filled(r, s[FiledKey(last) := Untenanted(Scrubbed(last))], es)
  {
    var rest, last := es[..|es| - 1], es[|es| - 1];
    FiledKeysOneMore(es);
    KeptOneMore(es);
    hide FiledKey, Scrubbed, Untenanted, FiledKeys, KeptOf;
    var t := s[FiledKey(last) := Untenanted(Scrubbed(last))];
    forall k | k in FiledKeys(es) ensures KeptOf(es, k, t[k]) {
      assert k == FiledKey(last) || (k in FiledKeys(rest) && t[k] == s[k]);
    }
  }

  lemma KeptOneMore(es: seq<Entry>)
    requires es != [] && AllTyped(es)
    ensures var last := es[|es| - 1];
            KeptOf(es, FiledKey(last), Untenanted(Scrubbed(last)))
    ensures forall k, e :: KeptOf(es[..|es| - 1], k, e) && k != FiledKey(es[|es| - 1]) ==> KeptOf(es, k, e)
  {
    hide FiledKey, Scrubbed, Untenanted;
    var rest := es[..|es| - 1];
    forall k, e | KeptOf(rest, k, e) && k != FiledKey(es[|es| - 1]) ensures KeptOf(es, k, e) {
      var i :| 0 <= i < |rest| && FiledKey(rest[i]) == k && e == Untenanted(Scrubbed(rest[i])) &&
               forall j :: i < j < |rest| ==> FiledKey(rest[j]) != k;
      assert es[i] == rest[i];
      assert forall j :: i < j < |es| ==> es[j] == (if j < |rest| then rest[j] else es[|es| - 1]);
    }
  }

  lemma {:induction false} DeleteEffect(s: Entries, dels: seq<Op>, keys: set<KindName>)
    requires Elements(dels) <= Deletions(keys)
    ensures ApplyAll(s, dels) == s - (set k | k in keys && DeleteEntry(k) in dels)
  {
    if dels == [] {
      assert (set k | k in keys && DeleteEntry(k) in dels) == {};
    } else {
      var rest, last := dels[..|dels| - 1], dels[|dels| - 1];
      assert dels == rest + [last];
      assert last in Elements(dels) && Elements(rest) <= Elements(dels);
      DeleteEffect(s, rest, keys);
      assert (set k | k in keys && DeleteEntry(k) in dels) == (set k | k in keys && DeleteEntry(k) in rest) + {last.key};
    }
  }

  lemma FullDeleteEffect(s: Entries, dels: seq<Op>, keys: set<KindName>)
    requires Enumerates(dels, Deletions(keys))
    ensures ApplyAll(s, dels) == s - keys
  {
    DeleteEffect(s, dels, keys);
    assert (set k | k in keys && DeleteEntry(k) in dels) == keys by {
      forall k | k in keys ensures DeleteEntry(k) in dels {
        assert DeleteEntry(k) in Elements(dels);
      }
    }
  }

  // ---------------------------------------------------------------- convergence

  /** What is left over when the entries were written. */
  function Leftover(r: Entries, merged: seq<Entry>): set<KindName>
    requires AllTyped(merged)
  {
    ManagedPart(r).Keys - WrittenKeys(merged)
  }

  lemma AfterFullRun(r: Entries, merged: seq<Entry>, ops: seq<Op>) returns (s: Entries)
    requires AllTyped(merged) && FullRun(merged, ManagedPart(r), ops)
    ensures Filled(r, s, merged) && ApplyAll(r, ops) == s - Leftover(r, merged)
  {
    var dels :| ops == SetOps(merged) + dels && KindOrder(dels) && Enumerates(dels, Deletions(Leftover(r, merged)));
    hide SetOps, ApplyAll, Filled, Leftover, KindOrder, Enumerates;
    SetEffect(r, merged);
    s := ApplyAll(r, SetOps(merged));
    ApplyInTurn(r, SetOps(merged), dels);
    FullDeleteEffect(s, dels, Leftover(r, merged));
  }

  /** The written form of every managed entry already is in the default tenancy. */
  predicate TenancyIntact(merged: seq<Entry>)
    requires AllTyped(merged)
  {
    forall i :: 0 <= i < |merged| && Managed(merged[i].kind) ==> WrittenKey(Scrubbed(merged[i])) == FiledKey(merged[i])
  }

  function ManagedKeys(keys: set<KindName>): set<KindName> { set k | k in keys && Managed(k.kind) }

  lemma SameKindAndName(e: Entry)
    requires WellTyped(e)
    ensures Scrubbed(e).kind == e.kind && Scrubbed(e).name == e.name
  {
  }

  lemma KeyFacts(r: Entries, un: set<Kind>, merged: seq<Entry>)
    requires ValidStore(r, un) && AllTyped(merged)
    ensures forall k :: k in ManagedPart(r) && k in WrittenKeys(merged) ==> k in FiledKeys(merged)
    ensures TenancyIntact(merged) ==> ManagedKeys(FiledKeys(merged)) <= WrittenKeys(merged)
  {
    hide WellTyped, Scrubbed;
    forall k | k in ManagedPart(r) && k in WrittenKeys(merged) ensures k in FiledKeys(merged) {
      var i :| 0 <= i < |merged| && WrittenKey(Scrubbed(merged[i])) == k;
      SameKindAndName(merged[i]);
      assert FiledKey(merged[i]) == k;
    }
    if TenancyIntact(merged) {
      forall k | k in ManagedKeys(FiledKeys(merged)) ensures k in WrittenKeys(merged) {
        var i :| 0 <= i < |merged| && FiledKey(merged[i]) == k;
        assert WrittenKey(Scrubbed(merged[i])) == k;
      }
    }
  }

  /**
   * A successful run leaves exactly the desired keys of the managed kinds exactly when no desired key that
   * was there before is written only under another tenancy.
   */
  lemma ConfigConvergesExactly(r: Entries, un: set<Kind>, merged: seq<Entry>, ops: seq<Op>)
    requires ValidStore(r, un) && AllTyped(merged) && FullRun(merged, ManagedPart(r), ops)
    ensures ManagedKeys(ApplyAll(r, ops).Keys) == ManagedKeys(FiledKeys(merged))
       <==> FiledKeys(merged) * ManagedPart(r).Keys <= WrittenKeys(merged)
  {
    var s := AfterFullRun(r, merged, ops);
    KeyFacts(r, un, merged);
    assert s.Keys == r.Keys + FiledKeys(merged);
    hide ApplyAll, FullRun, FiledKeys, WrittenKeys, ValidStore, WellTyped, Filled, TenancyIntact;
    assert ManagedPart(r).Keys == ManagedKeys(r.Keys);
    assert ApplyAll(r, ops).Keys == s.Keys - Leftover(r, merged);
    LeftExactly(r.Keys, FiledKeys(merged), WrittenKeys(merged));
  }

  /** Adding the desired keys and then removing all managed ones that were there but not written. */
  lemma LeftExactly(was: set<KindName>, desired: set<KindName>, written: set<KindName>)
    requires ManagedKeys(was) * written <= desired
    ensures var now := was + desired - (ManagedKeys(was) - written);
            ManagedKeys(now) == ManagedKeys(desired) <==> desired * ManagedKeys(was) <= written
  {
    var now := was + desired - (ManagedKeys(was) - written);
    if !(desired * ManagedKeys(was) <= written) {
      var k :| k in desired * ManagedKeys(was) && k !in written;
      assert k !in ManagedKeys(now) && k in ManagedKeys(desired);
    }
  }

  /** In the default tenancy the managed kinds converge, and no desired entry is ever deleted. */
  lemma ConfigConverges(r: Entries, un: set<Kind>, merged: seq<Entry>, ops: seq<Op>)
    requires ValidStore(r, un) && AllTyped(merged) && TenancyIntact(merged) && FullRun(merged, ManagedPart(r), ops)
    ensures ManagedKeys(ApplyAll(r, ops).Keys) == ManagedKeys(FiledKeys(merged))
    ensures forall k :: k in FiledKeys(merged) ==> k in ApplyAll(r, ops)
    ensures forall k :: k in FiledKeys(merged) ==> KeptOf(merged, k, ApplyAll(r, ops)[k])
    ensures forall op :: op in ops && op.DeleteEntry? ==> op.key !in FiledKeys(merged)
  {
    ConfigConvergesExactly(r, un, merged, ops);
    var s := AfterFullRun(r, merged, ops);
    KeyFacts(r, un, merged);
    DeletesAreLeftovers(r, merged, ops);
    hide ApplyAll, FullRun, FiledKeys, WrittenKeys, ValidStore, AllTyped, FiledKey, Scrubbed, Untenanted;
    assert forall k :: k in FiledKeys(merged) ==> k !in Leftover(r, merged);
  }

  lemma DeletesAreLeftovers(r: Entries, merged: seq<Entry>, ops: seq<Op>)
    requires AllTyped(merged) && FullRun(merged, ManagedPart(r), ops)
    ensures forall op :: op in ops && op.DeleteEntry? ==> op.key in Leftover(r, merged)
  {
    var dels :| ops == SetOps(merged) + dels && KindOrder(dels) && Enumerates(dels, Deletions(Leftover(r, merged)));
    hide Leftover, KindOrder;
    forall op | op in ops && op.DeleteEntry? ensures op.key in Leftover(r, merged) {
      assert op !in SetOps(merged);
      assert op in Elements(dels);
    }
  }

  /** Entries of kinds nobody manages are only ever added to. */
  lemma UnmanagedUntouched(r: Entries, merged: seq<Entry>, ops: seq<Op>, k: KindName)
    requires AllTyped(merged) && FullRun(merged, ManagedPart(r), ops)
    requires k in r && !Managed(k.kind) && k !in FiledKeys(merged)
    ensures k in ApplyAll(r, ops) && ApplyAll(r, ops)[k] == r[k]
  {
    var s := AfterFullRun(r, merged, ops);
    hide ApplyAll, FullRun, FiledKeys, WrittenKeys;
  }

  /** The kind a stands before b in the list, or is b. */
  predicate NotAfter(order: seq<Kind>, a: Kind, b: Kind) { exists i, j :: 0 <= i <= j < |order| && order[i] == a && order[j] == b }

  lemma RankOrders(a: Kind, b: Kind)
    requires Managed(a) && Managed(b) && Rank(a) <= Rank(b)
    ensures NotAfter([MeshConfig, ServiceIntentions, IngressGateway, TerminatingGateway, ServiceRouter, ServiceSplitter,
                      ServiceResolver, ServiceDefaults, ProxyDefaults, ExportedServices], a, b)
  {
    var order := [MeshConfig, ServiceIntentions, IngressGateway, TerminatingGateway, ServiceRouter, ServiceSplitter,
                  ServiceResolver, ServiceDefaults, ProxyDefaults, ExportedServices];
    assert order[Rank(a)] == a && order[Rank(b)] == b;
  }

  lemma DeletesAreManaged(r: Entries, merged: seq<Entry>, ops: seq<Op>)
    requires AllTyped(merged) && (FullRun(merged, ManagedPart(r), ops) || PartialRun(merged, ManagedPart(r), ops))
    ensures forall op :: op in ops && op.DeleteEntry? ==> Managed(op.key.kind) && op.key in r && op.key !in WrittenKeys(merged)
  {
    var D := Deletions(ManagedPart(r).Keys - WrittenKeys(merged));
    assert forall op :: op in D ==> op.DeleteEntry? && Managed(op.key.kind) && op.key in r && op.key !in WrittenKeys(merged);
    assert forall op :: op in SetOps(merged) ==> !op.DeleteEntry?;
    if !(ops <= SetOps(merged)) {
      var dels :| ops == SetOps(merged) + dels && KindOrder(dels) && Elements(dels) <= D;
      assert forall op :: op in dels ==> op in Elements(dels);
    }
  }

  /** Deletions come last, and in an order in which what refers to an entry goes before it. */
  lemma DeletionsFollowKindOrder(r: Entries, merged: seq<Entry>, ops: seq<Op>, i: nat, j: nat)
    requires AllTyped(merged) && (FullRun(merged, ManagedPart(r), ops) || PartialRun(merged, ManagedPart(r), ops))
    requires i < j < |ops| && ops[i].DeleteEntry?
    ensures ops[j].DeleteEntry?
    ensures NotAfter([MeshConfig, ServiceIntentions, IngressGateway, TerminatingGateway, ServiceRouter, ServiceSplitter,
                      ServiceResolver, ServiceDefaults, ProxyDefaults, ExportedServices], ops[i].key.kind, ops[j].key.kind)
  {
    DeletesAreManaged(r, merged, ops);
    hide NotAfter, WrittenKeys, Rank, Deletions, KindOrder, Scrubbed, ManagedPart;
    var writes := SetOps(merged);
    assert forall n :: 0 <= n < |writes| && n < |ops| ==> ops[n] == writes[n] && writes[n].SetEntry?;
    assert i >= |writes|;
    SplitRun(r, merged, ops);
    var dels := ops[|writes|..];
    hide SetOps;
    InKindOrder(dels, i - |writes|, j - |writes|);
    RankOrders(ops[i].key.kind, ops[j].key.kind);
  }

  /**
   * What a complete run sends, entry by entry in the merged order: proxy defaults and intentions without their own
   * tenancy, the sources of intentions without theirs, everything else as it is.
   */
  lemma WritesAreScrubbed(r: Entries, merged: seq<Entry>, ops: seq<Op>, i: nat)
    requires AllTyped(merged) && FullRun(merged, ManagedPart(r), ops) && i < |merged|
    ensures i < |ops| && ops[i].SetEntry?
    ensures var e, m := ops[i].entry, merged[i];
            if m.kind == ProxyDefaults then e == m.(ns := "", partition := "")
            else if m.kind == ServiceIntentions then
              && e.kind == m.kind && e.name == m.name && e.ns == "" && e.partition == ""
              && e.body.Intentions? && m.body.Intentions? && |e.body.sources| == |m.body.sources|
              && forall n :: 0 <= n < |m.body.sources| ==>
                   e.body.sources[n] == Source(m.body.sources[n].name, "", "", m.body.sources[n].allow)
            else e == m
  {
    hide KindOrder, Deletions, ManagedPart, WrittenKeys;
    assert merged[i] in merged;
    var dels :| ops == SetOps(merged) + dels && KindOrder(dels);
  }

  lemma SplitRun(r: Entries, merged: seq<Entry>, ops: seq<Op>)
    requires AllTyped(merged) && |ops| > |SetOps(merged)|
    requires FullRun(merged, ManagedPart(r), ops) || PartialRun(merged, ManagedPart(r), ops)
    ensures KindOrder(ops[|SetOps(merged)|..])
  {
    hide Deletions, KindOrder, SetOps, ManagedPart;
    var dels :| ops == SetOps(merged) + dels && KindOrder(dels);
    assert ops[|SetOps(merged)|..] == dels;
  }

  lemma InKindOrder(dels: seq<Op>, i: nat, j: nat)
    requires KindOrder(dels) && i < j < |dels|
    ensures dels[j].DeleteEntry? && Rank(dels[i].key.kind) <= Rank(dels[j].key.kind)
  {
  }

  /** Any run, complete or not, leaves a catalog of entries from which the next run may start. */
  lemma {:induction false} RunsKeepValid(r: Entries, un: set<Kind>, ops: seq<Op>)
    requires ValidStore(r, un) && forall op :: op in ops ==> Accepted(op, un)
    ensures ValidStore(ApplyAll(r, ops), un)
  {
    hide ValidStore, Accepted, Apply;
    if ops != [] {
      var rest, last := ops[..|ops| - 1], ops[|ops| - 1];
      assert last in ops;
      RunsKeepValid(r, un, rest);
      ValidStoreKept(ApplyAll(r, rest), un, last);
    }
  }

  // ---------------------------------------------------------------- a second run

  lemma MergeOneKeys(es: seq<Entry>, stock: Entry)
    requires AllTyped(es) && Stockable(stock)
    ensures FiledKeys(MergeOne(es, stock)) == FiledKeys(es) + {FiledKey(stock)}
  {
    FirstMatchFinds(es, stock);
    var m := MergeOne(es, stock);
    hide FirstMatch, Stockable, AllTyped;
    match FirstMatch(es, stock) {
      case None =>
        FiledKeysOneMore(m);
        assert m[..|m| - 1] == es;
      case Some(i) =>
        assert |m| == |es| && forall j :: 0 <= j < |es| ==> FiledKey(m[j]) == FiledKey(es[j]);
        assert FiledKey(es[i]) == FiledKey(stock);
    }
  }

  /** Which keys are desired depends on the entries, not on the order of the stock ones. */
  lemma {:induction false} MergeAllKeys(user: seq<Entry>, stock: seq<Entry>)
    requires AllTyped(user) && forall e :: e in stock ==> Stockable(e)
    ensures FiledKeys(MergeAll(user, stock)) == FiledKeys(user) + FiledKeys(stock)
  {
    hide MergeOne, Stockable, WellTyped;
    if stock == [] {
      assert FiledKeys(stock) == {};
    } else {
      var rest, last := stock[..|stock| - 1], stock[|stock| - 1];
      assert last in stock;
      MergeAllKeys(user, rest);
      MergeOneKeys(MergeAll(user, rest), last);
      FiledKeysOneMore(stock);
    }
  }

  /** A run right after a successful one, whatever order it lists its stock entries in, deletes nothing. */
  lemma SecondRunDeletesNothing(r: Entries, un: set<Kind>, merged: seq<Entry>, ops: seq<Op>, again: seq<Entry>, more: seq<Op>)
    requires ValidStore(r, un) && AllTyped(merged) && TenancyIntact(merged) && FullRun(merged, ManagedPart(r), ops)
    requires forall op :: op in ops ==> Accepted(op, un)
    requires AllTyped(again) && TenancyIntact(again) && FiledKeys(again) == FiledKeys(merged)
    requires FullRun(again, ManagedPart(ApplyAll(r, ops)), more)
    ensures forall op :: op in more ==> !op.DeleteEntry?
  {
    ConfigConverges(r, un, merged, ops);
    RunsKeepValid(r, un, ops);
    var t := ApplyAll(r, ops);
    KeyFacts(t, un, again);
    DeletesAreLeftovers(t, again, more);
    hide ApplyAll, FullRun, FiledKeys, WrittenKeys, ValidStore, AllTyped;
    assert Leftover(t, again) == {} by {
      forall k | k in ManagedPart(t) ensures k in WrittenKeys(again) {
        assert k in ManagedKeys(t.Keys);
      }
    }
  }
}
