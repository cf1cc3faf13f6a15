/** The main results about the initial sync, over single runs and over sequences of runs. */
module SyncConvergence {
  import opened Sorting
  import opened Identifiers
  import opened CatalogDefs
  import opened CatalogStore
  import opened InitialSync
  import opened SyncFacts

  // ---------------------------------------------------------------- the touches of a definition

  lemma TouchesAreExpected(d: Definition)
    requires WellFormed(d)
    ensures forall nid :: NodeTouch(nid) in Touches(d) <==> nid in Expected(d)
    ensures forall nid, sid :: ServiceTouch(nid, sid) in Touches(d) <==> nid in Expected(d) && sid in Expected(d)[nid]
  {
    var ts, E := Touches(d), Expected(d);
    var n, s := |d.nodes|, |d.services|;
    hide CatalogNode.ID, CatalogService.ID, CatalogProxy.ID, CatalogService.NodeID, CatalogProxy.NodeID;
    forall nid ensures NodeTouch(nid) in ts <==> nid in E {
      if nid in E {
        var i :| 0 <= i < n && d.nodes[i].ID() == nid;
        assert ts[i] == NodeTouch(nid);
      }
    }
    forall nid, sid ensures ServiceTouch(nid, sid) in ts <==> nid in E && sid in E[nid] {
      ServiceTouchExpected(d, nid, sid);
    }
  }

  lemma ServiceTouchExpected(d: Definition, nid: Identifier2, sid: Identifier)
    requires WellFormed(d)
    ensures ServiceTouch(nid, sid) in Touches(d) <==> nid in Expected(d) && sid in Expected(d)[nid]
  {
    var ts, E := Touches(d), Expected(d);
    var n, s := |d.nodes|, |d.services|;
    hide CatalogNode.ID, CatalogService.ID, CatalogProxy.ID, CatalogService.NodeID, CatalogProxy.NodeID, NodeIDs;
    if ServiceTouch(nid, sid) in ts {
      var i :| 0 <= i < |ts| && ts[i] == ServiceTouch(nid, sid);
      if i < n + s {
        assert d.services[i - n].NodeID() == nid && d.services[i - n].ID() == sid;
      } else {
        assert d.proxies[i - n - s].NodeID() == nid && d.proxies[i - n - s].ID() == sid;
      }
    }
    if nid in E && sid in E[nid] {
      if i :| 0 <= i < s && d.services[i].NodeID() == nid && d.services[i].ID() == sid {
        assert ts[n + i] == ServiceTouch(nid, sid);
      } else {
        var i :| 0 <= i < |d.proxies| && d.proxies[i].NodeID() == nid && d.proxies[i].ID() == sid;
        assert ts[n + s + i] == ServiceTouch(nid, sid);
      }
    }
  }

  predicate NormalExpected(wanted: Snapshot) {
    && (forall nid :: nid in wanted ==> nid == nid.Normalized())
    && (forall nid, k :: nid in wanted && k in wanted[nid] ==> k == k.Normalized() && k.partition == nid.partition)
  }

  lemma ExpectedIsNormal(d: Definition)
    ensures NormalExpected(Expected(d))
  {
    forall nid | nid in NodeIDs(d)
      ensures nid == nid.Normalized()
      ensures forall k :: k in ServiceIDsOn(d, nid) ==> k == k.Normalized() && k.partition == nid.partition
    {
    }
    hide NodeIDs, ServiceIDsOn;
  }

  // ---------------------------------------------------------------- after the registrations

  /** Some of the registrations were made. */
  ghost predicate Registering(r: Remote, s: Remote, wanted: Snapshot) {
    && (forall nid :: nid in r ==> nid in s)
    && (forall nid :: nid in s ==> nid in r || nid in wanted)
    && (forall nid :: nid in r && nid !in wanted ==> s[nid] == r[nid])
    && (forall nid :: nid in s && nid in wanted ==>
          Present(r, nid) <= s[nid].services.Keys <= Present(r, nid) + wanted[nid] &&
          (nid in r && r[nid].Virtual() ==> s[nid].Virtual()) &&
          (forall k :: k in s[nid].services && k !in wanted[nid] ==> s[nid].services[k] == r[nid].services[k]))
  }

  /** All of the registrations were made. */
  ghost predicate Registered(r: Remote, s: Remote, wanted: Snapshot) {
    && Registering(r, s, wanted)
    && forall nid :: nid in wanted ==>
         nid in s && s[nid].Virtual() && s[nid].services.Keys == Present(r, nid) + wanted[nid] &&
         forall k :: k in wanted[nid] ==> ListedAs(k, s[nid].services[k]) == k
  }

  lemma EffectIsRegistering(r: Remote, s: Remote, T: set<Touch>, wanted: Snapshot)
    requires Effect(r, s, T)
    requires forall t :: t in T ==> t.nid in wanted
    requires forall nid, sid :: ServiceTouch(nid, sid) in T ==> nid in wanted && sid in wanted[nid]
    ensures Registering(r, s, wanted)
  {
  }

  lemma EffectIsRegistered(r: Remote, s: Remote, T: set<Touch>, wanted: Snapshot)
    requires Effect(r, s, T)
    requires forall nid :: NodeTouch(nid) in T <==> nid in wanted
    requires forall nid, sid :: ServiceTouch(nid, sid) in T <==> nid in wanted && sid in wanted[nid]
    ensures Registered(r, s, wanted)
  {
    forall t | t in T ensures t.nid in wanted {
      assert t == NodeTouch(t.nid) || t == ServiceTouch(t.nid, t.sid);
    }
    EffectIsRegistering(r, s, T, wanted);
    hide Registering, Effect, ListedAs, Present;
    forall nid | nid in wanted
      ensures nid in s && s[nid].Virtual() && s[nid].services.Keys == Present(r, nid) + wanted[nid]
      ensures forall k :: k in wanted[nid] ==> ListedAs(k, s[nid].services[k]) == k
    {
      NodeIsRegistered(r, s, T, wanted[nid], nid);
    }
  }

  lemma NodeIsRegistered(r: Remote, s: Remote, T: set<Touch>, services: set<Identifier>, nid: Identifier2)
    requires Effect(r, s, T) && NodeTouch(nid) in T
    requires forall sid :: ServiceTouch(nid, sid) in T <==> sid in services
    ensures nid in s && s[nid].Virtual() && s[nid].services.Keys == Present(r, nid) + services
    ensures forall k :: k in services ==> ListedAs(k, s[nid].services[k]) == k
  {
    assert NodeTouch(nid).nid == nid;
    assert nid in s && NodeEffect(r, s[nid], nid, T);
    hide Effect, TouchedNode, ListedAs, Present;
  }

  lemma PrefixRegisters(d: Definition, ent: bool, r: Remote, ops: seq<Op>)
    requires Syncable(d, ent) && ops <= RegisterOps(d, ent)
    ensures Registering(r, ApplyAll(r, ops), Expected(d))
    ensures ops == RegisterOps(d, ent) ==> Registered(r, ApplyAll(r, ops), Expected(d))
  {
    RegistrationsMatch(d, ent);
    TouchesAreExpected(d);
    var all := Touches(d);
    var ts := all[..|ops|];
    hide RegisterOps, Touches, Expected, Matches, Effect, Registering, Registered, ApplyAll, Syncable;
    RegistrationEffect(r, ops, ts);
    forall t | t in Elements(ts) ensures t in all {
    }
    forall t | t in Elements(ts) ensures t.nid in Expected(d) {
      assert t == NodeTouch(t.nid) || t == ServiceTouch(t.nid, t.sid);
    }
    EffectIsRegistering(r, ApplyAll(r, ops), Elements(ts), Expected(d));
    if ops == RegisterOps(d, ent) {
      assert ts == all;
      assert forall t :: t in Elements(ts) <==> t in all;
      EffectIsRegistered(r, ApplyAll(r, ops), Elements(ts), Expected(d));
    }
  }

  // ---------------------------------------------------------------- the strays

  lemma StraysByNode(curr: Snapshot, wanted: Snapshot, nid: Identifier2)
    ensures DeregisterNode(nid) in Strays(curr, wanted) <==> nid in curr && nid !in wanted
  {
    if nid in curr && nid !in wanted {
      assert DeregisterNode(nid) in StraysAt(curr, wanted, nid);
    }
  }

  lemma StraysByService(curr: Snapshot, wanted: Snapshot, nid: Identifier2, k: Identifier)
    requires ValidSnapshot(curr)
    ensures Drops(Strays(curr, wanted), nid, k)
       <==> nid in curr && nid in wanted && k in curr[nid] && k !in wanted[nid]
  {
    var op := DeregisterService(nid.name, k);
    if Drops(Strays(curr, wanted), nid, k) {
      var m :| m in curr && op in StraysAt(curr, wanted, m);
      assert m in wanted && k in curr[m] && m.name == nid.name;
      assert m.partition == k.partition == nid.partition;
      assert m == nid;
    }
    if nid in curr && nid in wanted && k in curr[nid] && k !in wanted[nid] {
      assert op in StraysAt(curr, wanted, nid);
    }
  }

  lemma StraysAreRemovals(r: Remote, wanted: Snapshot)
    requires ValidRemote(r)
    ensures forall op :: op in Strays(SnapshotOf(r), wanted) ==> IsRemoval(op)
  {
    SnapshotIsValid(r);
    var curr := SnapshotOf(r);
    forall op | op in Strays(curr, wanted) ensures IsRemoval(op) {
      var nid :| nid in curr && op in StraysAt(curr, wanted, nid);
      assert nid == nid.Normalized();
    }
  }

  lemma RegisteringIsNormal(r: Remote, s: Remote, wanted: Snapshot)
    requires ValidRemote(r) && NormalExpected(wanted) && Registering(r, s, wanted)
    ensures NormalNodes(s) && ValidRemote(s)
  {
    forall nid, k | nid in s && k in s[nid].services ensures k == k.Normalized() && k.partition == nid.partition {
      assert nid in wanted ==> k in Present(r, nid) || k in wanted[nid];
    }
  }

  // ---------------------------------------------------------------- one complete run

  /** The catalog after a complete run, in terms of the one before. */
  lemma AfterFullRun(d: Definition, ent: bool, r: Remote, ops: seq<Op>)
    returns (s: Remote)
    requires ValidRemote(r) && Syncable(d, ent) && FullRun(d, ent, SnapshotOf(r), ops)
    ensures Registered(r, s, Expected(d)) && NormalNodes(s)
    ensures Removal(s, ApplyAll(r, ops), Strays(SnapshotOf(r), Expected(d)))
  {
    var E, curr := Expected(d), SnapshotOf(r);
    var e :| ops == RegisterOps(d, ent) + e && Enumerates(e, Strays(curr, E));
    hide RegisterOps, Expected, Registered, Registering, ApplyAll, Syncable, Removal, Strays, SnapshotOf, ValidRemote;
    PrefixRegisters(d, ent, r, RegisterOps(d, ent));
    s := ApplyAll(r, RegisterOps(d, ent));
    RegisteredIsRegistering(r, s, E);
    ExpectedIsNormal(d);
    RegisteringIsNormal(r, s, E);
    ApplyInTurn(r, RegisterOps(d, ent), e);
    StraysAreRemovals(r, E);
    forall i | 0 <= i < |e| ensures IsRemoval(e[i]) {
      assert e[i] in Elements(e);
    }
    RemovalEffect(s, e);
  }

  lemma RegisteredIsRegistering(r: Remote, s: Remote, wanted: Snapshot)
    requires Registered(r, s, wanted)
    ensures Registering(r, s, wanted)
  {
  }

  /** A node of the definition ends with its wanted services and those strays the dump did not report. */
  lemma ServicesAfterFullRun(r: Remote, s: Remote, t: Remote, wanted: Snapshot, nid: Identifier2)
    requires ValidRemote(r) && Registered(r, s, wanted) && Removal(s, t, Strays(SnapshotOf(r), wanted))
    requires nid in wanted
    ensures nid in t && t[nid].Virtual()
    ensures t[nid].services.Keys == wanted[nid] + (Present(r, nid) - Dumped(r, nid))
  {
    var curr := SnapshotOf(r);
    SnapshotIsValid(r);
    NotDumped(r, nid, curr);
    WantedIsThere(r, s, wanted, nid);
    hide Registered, Removal, SnapshotOf, Dumped, Present, ValidRemote, Strays, ValidSnapshot;
    WantedSurvives(s, t, curr, wanted, nid);
  }

  lemma WantedIsThere(r: Remote, s: Remote, wanted: Snapshot, nid: Identifier2)
    requires Registered(r, s, wanted) && nid in wanted
    ensures nid in s && s[nid].Virtual() && s[nid].services.Keys == Present(r, nid) + wanted[nid]
  {
  }

  lemma WantedSurvives(s: Remote, t: Remote, curr: Snapshot, wanted: Snapshot, nid: Identifier2)
    requires Removal(s, t, Strays(curr, wanted)) && ValidSnapshot(curr)
    requires nid in s && nid in wanted && s[nid].Virtual()
    ensures nid in t && t[nid].Virtual()
    ensures t[nid].services.Keys == s[nid].services.Keys - ((if nid in curr then curr[nid] else {}) - wanted[nid])
  {
    StraysByNode(curr, wanted, nid);
    hide Strays, Drops, ValidSnapshot;
    forall k ensures k in t[nid].services <==>
                     k in s[nid].services && !(nid in curr && k in curr[nid] && k !in wanted[nid]) {
      StraysByService(curr, wanted, nid, k);
    }
  }

  lemma NotDumped(r: Remote, nid: Identifier2, curr: Snapshot)
    requires curr == SnapshotOf(r)
    ensures Dumped(r, nid) == if nid in curr then curr[nid] else {}
  {
  }

  /** Nodes outside the definition: virtual ones go, the others are untouched. */
  lemma OthersAfterFullRun(r: Remote, s: Remote, t: Remote, wanted: Snapshot, nid: Identifier2)
    requires ValidRemote(r) && Registered(r, s, wanted) && Removal(s, t, Strays(SnapshotOf(r), wanted))
    requires nid !in wanted
    ensures nid in t <==> nid in r && !r[nid].Virtual()
    ensures nid in t ==> t[nid] == r[nid]
  {
    var curr := SnapshotOf(r);
    SnapshotIsValid(r);
    StraysByNode(curr, wanted, nid);
    assert nid in r && r[nid].Virtual() <==> nid in curr;
    hide Strays, SnapshotOf, ValidRemote, Drops, ValidSnapshot;
    forall k ensures !Drops(Strays(curr, wanted), nid, k) {
      StraysByService(curr, wanted, nid, k);
    }
  }

  /**
   * A successful run leaves exactly the wanted membership exactly when, at its start, the id of every unwanted
   * service on a node of the definition was among the names the dump reported for that node.
   */
  lemma SyncConvergesExactly(d: Definition, ent: bool, r: Remote, ops: seq<Op>)
    requires ValidRemote(r) && Syncable(d, ent) && FullRun(d, ent, SnapshotOf(r), ops)
    ensures Membership(ApplyAll(r, ops)).Keys == Expected(d).Keys
    ensures Membership(ApplyAll(r, ops)) == Expected(d) <==> Clean(r, Expected(d))
  {
    var E, t := Expected(d), ApplyAll(r, ops);
    var s := AfterFullRun(d, ent, r, ops);
    hide Expected, ApplyAll, Syncable, FullRun, Registered, Removal, ValidRemote, SnapshotOf, Present, Dumped, Clean;
    forall nid ensures nid in Membership(t) <==> nid in E {
      if nid in E {
        ServicesAfterFullRun(r, s, t, E, nid);
      } else {
        OthersAfterFullRun(r, s, t, E, nid);
      }
    }
    forall nid | nid in E ensures Membership(t)[nid] == E[nid] + (Present(r, nid) - Dumped(r, nid)) {
      ServicesAfterFullRun(r, s, t, E, nid);
    }
    CleanExactly(r, E, Membership(t));
  }

  lemma CleanExactly(r: Remote, wanted: Snapshot, m: Snapshot)
    requires m.Keys == wanted.Keys
    requires forall nid :: nid in wanted ==> m[nid] == wanted[nid] + (Present(r, nid) - Dumped(r, nid))
    ensures m == wanted <==> Clean(r, wanted)
  {
    hide Present, Dumped;
    if Clean(r, wanted) {
      forall nid | nid in wanted ensures m[nid] == wanted[nid] {
      }
    }
    if m == wanted {
      forall nid | nid in wanted ensures Present(r, nid) <= wanted[nid] + Dumped(r, nid) {
        assert m[nid] == wanted[nid];
      }
    }
  }

  /** Whatever else lives in the catalog is left exactly as it was, by complete and partial runs alike. */
  lemma OthersUntouched(d: Definition, ent: bool, r: Remote, ops: seq<Op>, nid: Identifier2)
    requires ValidRemote(r) && Syncable(d, ent)
    requires FullRun(d, ent, SnapshotOf(r), ops) || PartialRun(d, ent, SnapshotOf(r), ops)
    requires nid in r && !r[nid].Virtual() && nid !in Expected(d)
    ensures nid in ApplyAll(r, ops) && ApplyAll(r, ops)[nid] == r[nid]
  {
    var s, D := AfterAnyRun(d, ent, r, ops);
    hide Expected, ApplyAll, Syncable, FullRun, PartialRun, ValidRemote, Drops;
    SnapshotIsValid(r);
    var curr := SnapshotOf(r);
    StraysByNode(curr, Expected(d), nid);
    forall k ensures !Drops(D, nid, k) {
      StraysByService(curr, Expected(d), nid, k);
      DropsMonotone(D, Strays(curr, Expected(d)), nid, k);
    }
  }

  lemma DropsMonotone(D: set<Op>, F: set<Op>, nid: Identifier2, k: Identifier)
    requires D <= F
    ensures Drops(D, nid, k) ==> Drops(F, nid, k)
  {
  }

  /** The catalog after any run: some registrations, then some of the strays removed. */
  lemma AfterAnyRun(d: Definition, ent: bool, r: Remote, ops: seq<Op>) returns (s: Remote, D: set<Op>)
    requires ValidRemote(r) && Syncable(d, ent)
    requires FullRun(d, ent, SnapshotOf(r), ops) || PartialRun(d, ent, SnapshotOf(r), ops)
    ensures Registering(r, s, Expected(d)) && NormalNodes(s)
    ensures D <= Strays(SnapshotOf(r), Expected(d)) && Removal(s, ApplyAll(r, ops), D)
  {
    var E, curr := Expected(d), SnapshotOf(r);
    hide RegisterOps, Expected, Registered, Registering, ApplyAll, Syncable, Removal, Strays, SnapshotOf, ValidRemote,
      Enumerates;
    ExpectedIsNormal(d);
    if FullRun(d, ent, curr, ops) {
      s := AfterFullRun(d, ent, r, ops);
      RegisteredIsRegistering(r, s, E);
      D := Strays(curr, E);
    } else if ops <= RegisterOps(d, ent) {
      PrefixRegisters(d, ent, r, ops);
      s, D := ApplyAll(r, ops), {};
      RegisteringIsNormal(r, s, E);
      NothingRemoved(s);
    } else {
      var e :| ops == RegisterOps(d, ent) + e && NoDuplicates(e) && Elements(e) <= Strays(curr, E);
      PrefixRegisters(d, ent, r, RegisterOps(d, ent));
      s, D := ApplyAll(r, RegisterOps(d, ent)), Elements(e);
      RegisteringIsNormal(r, s, E);
      ApplyInTurn(r, RegisterOps(d, ent), e);
      StraysAreRemovals(r, E);
      forall i | 0 <= i < |e| ensures IsRemoval(e[i]) {
        assert e[i] in Elements(e);
      }
      RemovalEffect(s, e);
    }
  }

  // ---------------------------------------------------------------- sequences of runs

  /** Stopping anywhere keeps the catalog valid and tidy. */
  lemma RunsKeepTidy(d: Definition, ent: bool, r: Remote, ops: seq<Op>)
    requires ValidRemote(r) && Syncable(d, ent) && Tidy(r, Expected(d))
    requires FullRun(d, ent, SnapshotOf(r), ops) || PartialRun(d, ent, SnapshotOf(r), ops)
    ensures ValidRemote(ApplyAll(r, ops)) && Tidy(ApplyAll(r, ops), Expected(d))
  {
    var s, D := AfterAnyRun(d, ent, r, ops);
    ExpectedIsNormal(d);
    hide Expected, ApplyAll, Syncable, FullRun, PartialRun, Drops, Strays, SnapshotOf;
    RegisteringIsNormal(r, s, Expected(d));
    RegisteringKeepsTidy(r, s, Expected(d));
    RemovalKeeps(s, ApplyAll(r, ops), D, Expected(d));
  }

  lemma RegisteringKeepsTidy(r: Remote, s: Remote, wanted: Snapshot)
    requires Registering(r, s, wanted) && Tidy(r, wanted)
    ensures Tidy(s, wanted)
  {
    forall nid, k | nid in wanted && nid in s && k in s[nid].services && k !in wanted[nid]
      ensures s[nid].Virtual() && ListedAs(k, s[nid].services[k]) == k
    {
      assert k in Present(r, nid);
      assert nid in r && k in r[nid].services;
    }
  }

  lemma RemovalKeeps(s: Remote, t: Remote, D: set<Op>, wanted: Snapshot)
    requires Removal(s, t, D) && ValidRemote(s) && Tidy(s, wanted)
    ensures ValidRemote(t) && Tidy(t, wanted)
  {
    hide Drops, ListedAs;
  }

  /** A run that started in r stopped early and left t. */
  ghost predicate Interrupted(d: Definition, ent: bool, r: Remote, t: Remote) {
    exists ops :: PartialRun(d, ent, SnapshotOf(r), ops) && t == ApplyAll(r, ops)
  }

  /** states[0] is where the first run starts; each later one is where an interrupted run stopped. */
  ghost predicate InterruptedRuns(d: Definition, ent: bool, states: seq<Remote>) {
    && |states| > 0
    && forall i, j :: 0 <= i && j == i + 1 && j < |states| ==> Interrupted(d, ent, states[i], states[j])
  }

  lemma {:induction false} InterruptionsKeepTidy(d: Definition, ent: bool, states: seq<Remote>)
    requires InterruptedRuns(d, ent, states) && Syncable(d, ent)
    requires ValidRemote(states[0]) && Tidy(states[0], Expected(d))
    ensures ValidRemote(states[|states| - 1]) && Tidy(states[|states| - 1], Expected(d))
  {
    hide ValidRemote, Tidy, Syncable, PartialRun, Expected, ApplyAll, SnapshotOf;
    if |states| > 1 {
      var n := |states| - 1;
      assert states[..n][|states[..n]| - 1] == states[n - 1];
      InterruptionsKeepTidy(d, ent, states[..n]);
      assert Interrupted(d, ent, states[n - 1], states[n]);
      var ops :| PartialRun(d, ent, SnapshotOf(states[n - 1]), ops) && states[n] == ApplyAll(states[n - 1], ops);
      RunsKeepTidy(d, ent, states[n - 1], ops);
    }
  }

  /**
   * Any number of interrupted runs followed by one successful run ends with exactly the wanted
   * membership, the same as one successful run from the start; one more run deregisters nothing.
   */
  lemma SyncRecovers(d: Definition, ent: bool, states: seq<Remote>, last: seq<Op>, direct: seq<Op>)
    requires InterruptedRuns(d, ent, states) && Syncable(d, ent)
    requires ValidRemote(states[0]) && Tidy(states[0], Expected(d))
    requires FullRun(d, ent, SnapshotOf(states[|states| - 1]), last)
    requires FullRun(d, ent, SnapshotOf(states[0]), direct)
    ensures Membership(ApplyAll(states[|states| - 1], last)) == Expected(d)
    ensures Membership(ApplyAll(states[0], direct)) == Expected(d)
    ensures Strays(SnapshotOf(ApplyAll(states[|states| - 1], last)), Expected(d)) == {}
  {
    hide ValidRemote, Tidy, Clean, Syncable, PartialRun, FullRun, Expected, ApplyAll, SnapshotOf, Membership, Strays;
    InterruptionsKeepTidy(d, ent, states);
    var r := states[|states| - 1];
    TidyIsClean(r, Expected(d));
    TidyIsClean(states[0], Expected(d));
    SyncConvergesExactly(d, ent, r, last);
    SyncConvergesExactly(d, ent, states[0], direct);
    NothingLeftToRemove(d, ent, r, last);
  }

  // ---------------------------------------------------------------- recovery needs a tidy start

  /** Interrupted runs lead from r to t, where a complete run makes the calls last. */
  ghost predicate RecoveryFrom(d: Definition, ent: bool, r: Remote, t: Remote, last: seq<Op>) {
    && FullRun(d, ent, SnapshotOf(t), last)
    && exists states :: InterruptedRuns(d, ent, states) && states[0] == r && states[|states| - 1] == t
  }

  /** Every sequence of interrupted runs from r, followed by a complete one, ends with the wanted membership. */
  ghost predicate AlwaysRecovers(d: Definition, ent: bool, r: Remote) {
    forall t, last :: RecoveryFrom(d, ent, r, t, last) ==> Membership(ApplyAll(t, last)) == Expected(d)
  }

  lemma RemovalKeepsValid(s: Remote, t: Remote, D: set<Op>)
    requires Removal(s, t, D) && ValidRemote(s)
    ensures ValidRemote(t)
  {
    hide Drops;
  }

  /** All registrations, and all deregistrations but that of one service: a run that is interrupted one call early. */
  lemma AllButOne(d: Definition, ent: bool, r: Remote, left: Op) returns (s: Remote, t: Remote, D: set<Op>)
    requires ValidRemote(r) && Syncable(d, ent)
    ensures Interrupted(d, ent, r, t) && ValidRemote(t)
    ensures Registered(r, s, Expected(d)) && Removal(s, t, D) && D == Strays(SnapshotOf(r), Expected(d)) - {left}
  {
    var E, curr := Expected(d), SnapshotOf(r);
    hide RegisterOps, Expected, Registered, Registering, ApplyAll, Syncable, Removal, Strays, SnapshotOf, ValidRemote;
    D := Strays(curr, E) - {left};
    var e := EnumerationExists(D);
    var ops := RegisterOps(d, ent) + e;
    assert PartialRun(d, ent, curr, ops);
    s := ApplyAll(r, RegisterOps(d, ent));
    t := ApplyAll(r, ops);
    ExpectedIsNormal(d);
    PrefixRegisters(d, ent, r, RegisterOps(d, ent));
    RegisteredIsRegistering(r, s, E);
    RegisteringIsNormal(r, s, E);
    ApplyInTurn(r, RegisterOps(d, ent), e);
    StraysAreRemovals(r, E);
    forall i | 0 <= i < |e| ensures IsRemoval(e[i]) {
      assert e[i] in Elements(e);
    }
    RemovalEffect(s, e);
    RemovalKeepsValid(s, t, D);
  }

  /** Where all strays but one are removed, a node of the definition keeps that one besides what the dump missed. */
  lemma OneStays(s: Remote, t: Remote, curr: Snapshot, wanted: Snapshot, nid: Identifier2, k: Identifier)
    requires ValidSnapshot(curr) && Removal(s, t, Strays(curr, wanted) - {DeregisterService(nid.name, k)})
    requires nid in s && nid in wanted && k in s[nid].services && k.partition == nid.partition
    ensures nid in t
    ensures forall j :: j in t[nid].services ==> j in s[nid].services && t[nid].services[j] == s[nid].services[j]
    ensures forall j :: j in t[nid].services <==>
                          j in s[nid].services && (j == k || !(nid in curr && j in curr[nid] && j !in wanted[nid]))
  {
    var D := Strays(curr, wanted) - {DeregisterService(nid.name, k)};
    StraysByNode(curr, wanted, nid);
    hide Strays, ValidSnapshot;
    forall j ensures j in t[nid].services <==>
                     j in s[nid].services && (j == k || !(nid in curr && j in curr[nid] && j !in wanted[nid])) {
      StraysByService(curr, wanted, nid, j);
      assert Drops(D, nid, j) <==> Drops(Strays(curr, wanted), nid, j) && j != k;
    }
  }

  /** From a clean start, a stray that is reported under another id hides from the dump once the others are gone. */
  lemma StrayHides(r: Remote, s: Remote, t: Remote, wanted: Snapshot, nid: Identifier2, k: Identifier)
    requires ValidRemote(r) && Clean(r, wanted) && Registered(r, s, wanted)
    requires Removal(s, t, Strays(SnapshotOf(r), wanted) - {DeregisterService(nid.name, k)})
    requires nid in wanted && nid in r && k in r[nid].services && k !in wanted[nid] && ListedAs(k, r[nid].services[k]) != k
    ensures !Clean(t, wanted)
  {
    var curr := SnapshotOf(r);
    hide Registered, Removal, Strays, Dumped, ListedAs, ValidSnapshot, ListedServices;
    SnapshotIsValid(r);
    NotDumped(r, nid, curr);
    WantedIsListed(r, s, wanted, nid);
    OneStays(s, t, curr, wanted, nid, k);
    hide ValidRemote, SnapshotOf;
    OnlyThatOneStays(r, s[nid], t[nid], wanted, nid, k);
    HiddenFromTheDump(t, wanted, nid, k);
  }

  lemma OnlyThatOneStays(r: Remote, s: RemoteNode, t: RemoteNode, wanted: Snapshot, nid: Identifier2, k: Identifier)
    requires Clean(r, wanted) && nid in wanted && nid in r && k in r[nid].services && k !in wanted[nid]
    requires s.services.Keys == Present(r, nid) + wanted[nid]
    requires forall j :: j in s.services ==> if j in wanted[nid] then ListedAs(j, s.services[j]) == j
                                             else j in r[nid].services && s.services[j] == r[nid].services[j]
    requires forall j :: j in t.services ==> j in s.services && t.services[j] == s.services[j]
    requires forall j :: j in t.services ==> j == k || j in wanted[nid] || j !in Dumped(r, nid)
    requires ListedAs(k, r[nid].services[k]) != k
    ensures forall j :: j in t.services ==> ListedAs(j, t.services[j]) != k
  {
    hide Dumped, ListedAs, Identifier.Normalized;
    assert Present(r, nid) <= wanted[nid] + Dumped(r, nid);
    forall j | j in t.services ensures ListedAs(j, t.services[j]) != k {
      assert j in wanted[nid] || j in Present(r, nid);
    }
  }

  lemma WantedIsListed(r: Remote, s: Remote, wanted: Snapshot, nid: Identifier2)
    requires Registered(r, s, wanted) && nid in wanted
    ensures nid in s && s[nid].services.Keys == Present(r, nid) + wanted[nid]
    ensures forall k :: k in wanted[nid] ==> ListedAs(k, s[nid].services[k]) == k
    ensures forall k :: k in s[nid].services && k !in wanted[nid] ==> nid in r && k in r[nid].services && s[nid].services[k] == r[nid].services[k]
  {
    hide ListedAs;
  }

  lemma HiddenFromTheDump(t: Remote, wanted: Snapshot, nid: Identifier2, k: Identifier)
    requires nid in wanted && nid in t && k in t[nid].services && k !in wanted[nid]
    requires forall j :: j in t[nid].services ==> ListedAs(j, t[nid].services[j]) != k
    ensures !Clean(t, wanted)
  {
    hide ListedAs;
    assert k in Present(t, nid) && k !in Dumped(t, nid);
  }

  lemma RunExists(d: Definition, ent: bool, r: Remote) returns (ops: seq<Op>)
    ensures FullRun(d, ent, SnapshotOf(r), ops)
  {
    hide RegisterOps, Strays, SnapshotOf, Expected;
    var e := EnumerationExists(Strays(SnapshotOf(r), Expected(d)));
    ops := RegisterOps(d, ent) + e;
  }

  lemma UntidyStray(r: Remote, wanted: Snapshot) returns (nid: Identifier2, k: Identifier)
    requires Clean(r, wanted) && !Tidy(r, wanted)
    ensures nid in wanted && nid in r && k in r[nid].services && k !in wanted[nid] && ListedAs(k, r[nid].services[k]) != k
  {
    hide ListedAs;
    nid, k :| nid in wanted && nid in r && k in r[nid].services && k !in wanted[nid] &&
              !(r[nid].Virtual() && ListedAs(k, r[nid].services[k]) == k);
    assert k in Present(r, nid) && k in Dumped(r, nid);
  }

  lemma InterruptedOnce(d: Definition, ent: bool, r: Remote, t: Remote, last: seq<Op>)
    requires Interrupted(d, ent, r, t) && FullRun(d, ent, SnapshotOf(t), last)
    ensures RecoveryFrom(d, ent, r, t, last)
  {
    hide Interrupted, FullRun, SnapshotOf;
    var states := [r, t];
    assert InterruptedRuns(d, ent, states) && states[0] == r && states[|states| - 1] == t;
  }

  /** Recovery from a start that is clean but not tidy can fail: one interruption, then a complete run that misses. */
  lemma UntidyMayNotRecover(d: Definition, ent: bool, r: Remote)
    requires ValidRemote(r) && Syncable(d, ent) && Clean(r, Expected(d)) && !Tidy(r, Expected(d))
    ensures !AlwaysRecovers(d, ent, r)
  {
    var E := Expected(d);
    hide Expected, ApplyAll, Syncable, ValidRemote, SnapshotOf, Strays, Registered, Removal, Membership, FullRun,
      ListedAs, Clean, Tidy, Interrupted, RecoveryFrom, AlwaysRecovers;
    var nid, k := UntidyStray(r, E);
    var s, t, D := AllButOne(d, ent, r, DeregisterService(nid.name, k));
    StrayHides(r, s, t, E, nid, k);
    var last := RunExists(d, ent, t);
    SyncConvergesExactly(d, ent, t, last);
    InterruptedOnce(d, ent, r, t, last);
    FailsToRecover(d, ent, r, t, last);
  }

  lemma FailsToRecover(d: Definition, ent: bool, r: Remote, t: Remote, last: seq<Op>)
    requires RecoveryFrom(d, ent, r, t, last) && Membership(ApplyAll(t, last)) != Expected(d)
    ensures !AlwaysRecovers(d, ent, r)
  {
    hide RecoveryFrom, Membership, ApplyAll, Expected;
  }

  lemma TidyRecovers(d: Definition, ent: bool, r: Remote, t: Remote, last: seq<Op>)
    requires ValidRemote(r) && Syncable(d, ent) && Tidy(r, Expected(d)) && RecoveryFrom(d, ent, r, t, last)
    ensures Membership(ApplyAll(t, last)) == Expected(d)
  {
    hide ValidRemote, Tidy, Syncable, Expected, ApplyAll, SnapshotOf, Membership, FullRun, Interrupted;
    var states :| InterruptedRuns(d, ent, states) && states[0] == r && states[|states| - 1] == t;
    var direct := RunExists(d, ent, r);
    SyncRecovers(d, ent, states, last, direct);
  }

  lemma RecoveryMeansClean(d: Definition, ent: bool, r: Remote)
    requires ValidRemote(r) && Syncable(d, ent) && AlwaysRecovers(d, ent, r)
    ensures Clean(r, Expected(d))
  {
    hide ValidRemote, Clean, Syncable, Expected, ApplyAll, SnapshotOf, Membership, FullRun;
    var last := RunExists(d, ent, r);
    SyncConvergesExactly(d, ent, r, last);
    var states := [r];
    assert InterruptedRuns(d, ent, states) && states[0] == r && states[|states| - 1] == r;
    assert RecoveryFrom(d, ent, r, r, last);
  }

  /**
   * The sync recovers from every sequence of interrupted runs exactly when it starts tidy: otherwise already one
   * complete run misses, or some interrupted run leaves a service that no later dump reports.
   */
  lemma SyncRecoversExactly(d: Definition, ent: bool, r: Remote)
    requires ValidRemote(r) && Syncable(d, ent)
    ensures AlwaysRecovers(d, ent, r) <==> Tidy(r, Expected(d))
  {
    hide ValidRemote, Tidy, Clean, Syncable, Expected, ApplyAll, Membership, RecoveryFrom;
    if Tidy(r, Expected(d)) {
      forall t, last | RecoveryFrom(d, ent, r, t, last) ensures Membership(ApplyAll(t, last)) == Expected(d) {
        TidyRecovers(d, ent, r, t, last);
      }
    } else if AlwaysRecovers(d, ent, r) {
      RecoveryMeansClean(d, ent, r);
      UntidyMayNotRecover(d, ent, r);
    }
  }

  /** After a run that converged, the dump reports exactly the definition: there are no strays. */
  lemma NothingLeftToRemove(d: Definition, ent: bool, r: Remote, ops: seq<Op>)
    requires ValidRemote(r) && Syncable(d, ent) && Clean(r, Expected(d)) && FullRun(d, ent, SnapshotOf(r), ops)
    ensures Strays(SnapshotOf(ApplyAll(r, ops)), Expected(d)) == {}
  {
    var E, t := Expected(d), ApplyAll(r, ops);
    SyncConvergesExactly(d, ent, r, ops);
    var s := AfterFullRun(d, ent, r, ops);
    hide Expected, ApplyAll, Syncable, FullRun, ValidRemote, Clean, Strays, Drops;
    assert Membership(t) == E;
    forall nid | nid in SnapshotOf(t) ensures nid in E && SnapshotOf(t)[nid] <= E[nid] {
      assert nid in Membership(t);
      assert t[nid].services.Keys == E[nid];
      forall k | k in t[nid].services ensures ListedAs(k, t[nid].services[k]) == k {
        assert t[nid].services[k] == s[nid].services[k];
      }
    }
    NoStrays(SnapshotOf(t), E);
  }

  lemma NoStrays(curr: Snapshot, wanted: Snapshot)
    requires forall nid :: nid in curr ==> nid in wanted && curr[nid] <= wanted[nid]
    ensures Strays(curr, wanted) == {}
  {
  }

  // ---------------------------------------------------------------- the tenancy hypothesis

  /** Only the default tenancy exists, as in a catalog without enterprise. */
  predicate DefaultsOnly(r: Remote) {
    && (forall nid :: nid in r ==> nid.partition == DEFAULT)
    && (forall nid, k :: nid in r && k in r[nid].services ==> k.InDefaultTenancy())
  }

  /** The call can only create nodes and services in the default tenancy. */
  predicate MakesDefaultsOnly(op: Op) {
    op.Register? ==>
      RegNode(op.reg).partition == DEFAULT && (op.reg.service.Some? ==> RegKey(op.reg.service.value).InDefaultTenancy())
  }

  lemma ApplyKeepsDefaults(r: Remote, op: Op)
    requires DefaultsOnly(r) && MakesDefaultsOnly(op)
    ensures DefaultsOnly(Apply(r, op))
  {
    hide Identifier.InDefaultTenancy, RegNode, RegKey, CheckKey;
  }

  lemma {:induction false} CallsKeepDefaults(r: Remote, ops: seq<Op>)
    requires DefaultsOnly(r) && forall i :: 0 <= i < |ops| ==> MakesDefaultsOnly(ops[i])
    ensures DefaultsOnly(ApplyAll(r, ops))
  {
    hide DefaultsOnly, MakesDefaultsOnly, Apply;
    if ops != [] {
      var n := |ops| - 1;
      CallsKeepDefaults(r, ops[..n]);
      ApplyKeepsDefaults(ApplyAll(r, ops[..n]), ops[n]);
    }
  }

  /** Without enterprise no call of a run names another tenancy, whatever the definition says. */
  lemma OssRunMakesDefaultsOnly(d: Definition, curr: Snapshot, ops: seq<Op>)
    requires FullRun(d, false, curr, ops)
    ensures forall i :: 0 <= i < |ops| ==> MakesDefaultsOnly(ops[i])
  {
    var e :| ops == RegisterOps(d, false) + e && Enumerates(e, Strays(curr, Expected(d)));
    hide Expected;
    forall i | 0 <= i < |ops| ensures MakesDefaultsOnly(ops[i]) {
      if i >= |RegisterOps(d, false)| {
        assert ops[i] in Elements(e);
      }
    }
  }

  /** A definition outside the default tenancy asks for a node or service there. */
  lemma ForeignIsExpected(d: Definition) returns (nid: Identifier2)
    requires WellFormed(d) && !TenancyOk(d, false)
    ensures nid in Expected(d)
    ensures nid.partition != DEFAULT || exists k :: k in Expected(d)[nid] && !k.InDefaultTenancy()
  {
    if i :| 0 <= i < |d.nodes| && !DefaultPartition(d.nodes[i].partition) {
      nid := d.nodes[i].ID();
    } else if i :| 0 <= i < |d.services| && !(DefaultPartition(d.services[i].partition) && DefaultPartition(d.services[i].ns)) {
      nid := d.services[i].NodeID();
      assert d.services[i].ID() in Expected(d)[nid];
    } else {
      var i :| 0 <= i < |d.proxies| && !(DefaultPartition(d.proxies[i].base.partition) && DefaultPartition(d.proxies[i].base.ns));
      nid := d.proxies[i].NodeID();
      assert d.proxies[i].ID() in Expected(d)[nid];
    }
  }

  /**
   * Without enterprise a complete run reaches the definition exactly when all of the definition is in the default
   * tenancy, which is all that survives in a request, and it starts clean.
   */
  lemma OssSyncConvergesExactly(d: Definition, r: Remote, ops: seq<Op>)
    requires ValidRemote(r) && DefaultsOnly(r)
    requires WellFormed(d) && Marked(d) && FullRun(d, false, SnapshotOf(r), ops)
    ensures Membership(ApplyAll(r, ops)) == Expected(d) <==> TenancyOk(d, false) && Clean(r, Expected(d))
  {
    hide ValidRemote, WellFormed, Marked, FullRun, ApplyAll, Expected, Clean, SnapshotOf, TenancyOk, Identifier.InDefaultTenancy;
    if TenancyOk(d, false) {
      SyncConvergesExactly(d, false, r, ops);
    } else {
      OssRunMakesDefaultsOnly(d, SnapshotOf(r), ops);
      CallsKeepDefaults(r, ops);
      var nid := ForeignIsExpected(d);
      assert nid in Membership(ApplyAll(r, ops)) ==> nid.partition == DEFAULT;
      assert nid in Membership(ApplyAll(r, ops)) ==>
          forall k :: k in Membership(ApplyAll(r, ops))[nid] ==> k.InDefaultTenancy();
    }
  }
}
