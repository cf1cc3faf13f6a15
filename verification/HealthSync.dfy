/** clustertool/catalog-sync.go: detecting health changes and writing only the changes. */
module HealthSync {
  import opened Text
  import opened Identifiers
  import opened CatalogDefs
  import opened CatalogStore

  type Key = (Identifier2, Identifier)

  /** The last status written per node and service, in a nested map that is built on demand. */
  class HealthResults {
    var data: Option<map<Identifier2, map<Identifier, string>>>    // None before the first write

    constructor ()
      ensures Flat() == map[]
    {
      data := None;
    }

    ghost function Flat(): map<Key, string> reads this { if data.None? then map[] else Flattened(data.value) }

    function GetResult(nid: Identifier2, sid: Identifier): (r: string)
      reads this
      ensures r == if (nid, sid) in Flat() then Flat()[(nid, sid)] else ""
    {
      if data.None? then ""
      else if nid in data.value then
        if sid in data.value[nid] then data.value[nid][sid] else ""
      else ""
    }

    method SetResult(nid: Identifier2, sid: Identifier, value: string)
      modifies this
      ensures Flat() == old(Flat())[(nid, sid) := value]
    {
      hide Flattened;
      FlattenedNothing();
      if data.None? {
        data := Some(map[]);
      }
      var outer := data.value;
      var m := if nid in outer then outer[nid] else map[];
      data := Some(outer[nid := m[sid := value]]);
      forall k: Key
        ensures k in Flattened(data.value) <==> k in Flattened(outer) || k == (nid, sid)
        ensures k in Flattened(data.value) ==> Flattened(data.value)[k] == if k == (nid, sid) then value else Flattened(outer)[k]
      {
        FlattenedUpdate(outer, nid, sid, value, k);
      }
    }
  }

  /** The nested map as one flat map. */
  ghost function Flattened(m: map<Identifier2, map<Identifier, string>>): map<Key, string> {
    map nid, sid | nid in m && sid in m[nid] :: (nid, sid) := m[nid][sid]
  }

  lemma FlattenedNothing()
    ensures Flattened(map[]) == map[]
  {
  }

  lemma FlattenedUpdate(m: map<Identifier2, map<Identifier, string>>, nid: Identifier2, sid: Identifier, value: string, k: Key)
    ensures var m2 := m[nid := (if nid in m then m[nid] else map[])[sid := value]];
            (k in Flattened(m2) <==> k in Flattened(m) || k == (nid, sid)) &&
            (k in Flattened(m2) ==> Flattened(m2)[k] == if k == (nid, sid) then value else Flattened(m)[k])
  {
    var inner := if nid in m then m[nid] else map[];
    var m2 := m[nid := inner[sid := value]];
    hide Flattened;
    FlattenedAt(m, k);
    FlattenedAt(m2, k);
    assert k == (nid, sid) <==> k.0 == nid && k.1 == sid;
  }

  lemma FlattenedAt(m: map<Identifier2, map<Identifier, string>>, k: Key)
    ensures k in Flattened(m) <==> k.0 in m && k.1 in m[k.0]
    ensures k in Flattened(m) ==> Flattened(m)[k] == m[k.0][k.1]
  {
    assert k == (k.0, k.1);
  }

  // ---------------------------------------------------------------- what a pass does

  /** How one register call ended; a failed call may have taken effect all the same. */
  datatype Reply = Accepted | Rejected | Lost

  /** Remembered statuses, the catalog, and the calls issued so far. */
  datatype State = State(last: map<Key, string>, nodes: Remote, issued: seq<Op>)

  predicate Checked(s: CatalogService) { s.tcpCheck != "" && s.checkID != "" }

  function KeyOf(s: CatalogService): Key { (s.NodeID(), s.ID()) }

  function StatusFor(up: bool): string { if up then PASSING else CRITICAL }

  function Remembered(last: map<Key, string>, k: Key): string { if k in last then last[k] else "" }

  function Report(s: CatalogService, ent: bool, status: string): Op {
    var reg := s.ToAPI(ent);
    Register(reg.(check := Some(reg.check.value.(status := status))))
  }

  /** One service of a pass. */
  function Step(st: State, s: CatalogService, ent: bool, up: bool, reply: Reply): State {
    var status := StatusFor(up);
    if !Checked(s) || Remembered(st.last, KeyOf(s)) == status then st
    else
      var op := Report(s, ent, status);
      State(if reply == Accepted then st.last[KeyOf(s) := status] else st.last,
            if reply == Rejected then st.nodes else Apply(st.nodes, op),
            st.issued + [op])
  }

  /** The first n services of a pass. */
  function Pass(st: State, ss: seq<CatalogService>, ent: bool, up: seq<bool>, replies: seq<Reply>, n: nat): State
    requires n <= |ss| && n <= |up| && n <= |replies|
  {
    if n == 0 then st
    else Step(Pass(st, ss, ent, up, replies, n - 1), ss[n - 1], ent, up[n - 1], replies[n - 1])
  }

  class HealthSync {
    const services: seq<CatalogService>
    const enterprise: bool
    const client: Catalog
    const last: HealthResults

    constructor (services: seq<CatalogService>, enterprise: bool, client: Catalog)
      ensures this.services == services && this.enterprise == enterprise && this.client == client
      ensures fresh(last) && last.Flat() == map[]
    {
      this.services, this.enterprise, this.client := services, enterprise, client;
      last := new HealthResults();
    }

    ghost function Now(issued: seq<Op>): State reads last, client { State(last.Flat(), client.nodes, issued) }

    method SyncHealth(svc: CatalogService, status: string) returns (ok: bool, ghost reply: Reply)
      modifies client
      ensures ok <==> reply == Accepted
      ensures client.nodes == if reply == Rejected then old(client.nodes)
                              else Apply(old(client.nodes), Report(svc, enterprise, status))
    {
      var reg := svc.ToAPI(enterprise);
      reg := reg.(check := Some(reg.check.value.(status := status)));
      ok := client.Call(Register(reg));
      reply := if ok then Accepted
               else if client.nodes == Apply(old(client.nodes), Register(reg)) then Lost
               else Rejected;
    }

    /** The body of the loop for one service that has a check. */
    method Observe(svc: CatalogService, up: bool, ghost issued: seq<Op>) returns (ghost reply: Reply, ghost issued': seq<Op>)
      requires Checked(svc)
      modifies client, last
      ensures Now(issued') == Step(old(Now(issued)), svc, enterprise, up, reply)
    {
      hide Apply, HealthResults.Flat;
      issued', reply := issued, Accepted;
      var nid, sid := svc.NodeID(), svc.ID();
      var lastResult := last.GetResult(nid, sid);
      if !up {
        if lastResult != CRITICAL {
          var ok;
          ok, reply := SyncHealth(svc, CRITICAL);
          issued' := issued + [Report(svc, enterprise, CRITICAL)];
          if !ok {
            return;
          }
          last.SetResult(nid, sid, CRITICAL);
        }
      } else {
        if lastResult != PASSING {
          var ok;
          ok, reply := SyncHealth(svc, PASSING);
          issued' := issued + [Report(svc, enterprise, PASSING)];
          if !ok {
            return;
          }
          last.SetResult(nid, sid, PASSING);
        }
      }
    }

    /** detectAndSyncHealthOnce, where up[i] is what probing service i found. */
    method DetectAndSyncHealthOnce(up: seq<bool>) returns (ghost replies: seq<Reply>, ghost issued: seq<Op>)
      requires |up| == |services|
      modifies client, last
      ensures |replies| == |services|
      ensures Now(issued) == Pass(old(Now([])), services, enterprise, up, replies, |services|)
    {
      hide Step, HealthResults.Flat;
      replies, issued := [], [];
      ghost var start := Now([]);
      for i := 0 to |services|
        invariant |replies| == i
        invariant Now(issued) == Pass(start, services, enterprise, up, replies, i)
      {
        var svc := services[i];
        ghost var reply := Accepted;
        ghost var before := replies;
        SkipUnchecked(Now(issued), svc, enterprise, up[i], Accepted);
        if svc.tcpCheck != "" && svc.checkID != "" {
          reply, issued := Observe(svc, up[i], issued);
        }
        replies := replies + [reply];
        PassIgnoresLater(start, services, enterprise, up, before, replies, i);
      }
    }
  }

  lemma SkipUnchecked(st: State, s: CatalogService, ent: bool, up: bool, reply: Reply)
    ensures !Checked(s) ==> Step(st, s, ent, up, reply) == st
  {
  }

  lemma {:induction false} PassIgnoresLater(st: State, ss: seq<CatalogService>, ent: bool, up: seq<bool>,
                                            a: seq<Reply>, b: seq<Reply>, n: nat)
    requires n <= |ss| && n <= |up| && n <= |a| && n <= |b| && a[..n] == b[..n]
    ensures Pass(st, ss, ent, up, a, n) == Pass(st, ss, ent, up, b, n)
  {
    hide Step;
    if n > 0 {
      assert a[..n - 1] == a[..n][..n - 1] == b[..n][..n - 1] == b[..n - 1];
      assert a[n - 1] == a[..n][n - 1] == b[..n][n - 1] == b[n - 1];
      PassIgnoresLater(st, ss, ent, up, a, b, n - 1);
    }
  }

  // ---------------------------------------------------------------- agreement with the catalog

  /** Where the catalog keeps the check of a service. */
  function Place(s: CatalogService, ent: bool): (Identifier2, Identifier) {
    (RegNode(s.ToAPI(ent)), CheckKey(s.ToAPI(ent).check.value))
  }

  function CatalogStatus(nodes: Remote, place: (Identifier2, Identifier)): Option<string> {
    if place.0 in nodes && place.1 in nodes[place.0].checks then Some(nodes[place.0].checks[place.1].status) else None
  }

  /** Distinct services are remembered, and checked, in distinct places. */
  predicate KeysApart(ss: seq<CatalogService>, ent: bool) {
    forall i, j :: 0 <= i < j < |ss| && Checked(ss[i]) && Checked(ss[j]) ==>
      KeyOf(ss[i]) != KeyOf(ss[j]) && Place(ss[i], ent) != Place(ss[j], ent)
  }

  /** What is remembered of s, if anything, is what the catalog says. */
  predicate Agrees(st: State, s: CatalogService, ent: bool) {
    Remembered(st.last, KeyOf(s)) != "" ==>
      CatalogStatus(st.nodes, Place(s, ent)) == Some(Remembered(st.last, KeyOf(s)))
  }

  function Opposite(status: string): string { if status == PASSING then CRITICAL else PASSING }

  /** A remembered status is the catalog's, or its opposite for a service in doubt. */
  predicate Settled(st: State, s: CatalogService, ent: bool, inDoubt: bool) {
    var r := Remembered(st.last, KeyOf(s));
    r == "" ||
    (r in {PASSING, CRITICAL} && CatalogStatus(st.nodes, Place(s, ent)) == Some(if inDoubt then Opposite(r) else r))
  }

  /** Every checked service is settled. */
  predicate Agreement(st: State, ss: seq<CatalogService>, ent: bool, doubt: set<int>) {
    forall i :: 0 <= i < |ss| && Checked(ss[i]) ==> Settled(st, ss[i], ent, i in doubt)
  }

  /** So memory and catalog agree exactly on the services that are not in doubt or not remembered at all. */
  lemma AgreesExactly(st: State, ss: seq<CatalogService>, ent: bool, doubt: set<int>, i: nat)
    requires Agreement(st, ss, ent, doubt) && i < |ss| && Checked(ss[i])
    ensures Agrees(st, ss[i], ent) <==> i !in doubt || Remembered(st.last, KeyOf(ss[i])) == ""
  {
    hide CatalogStatus, Place, KeyOf, Remembered;
    assert Settled(st, ss[i], ent, i in doubt);
    assert PASSING != CRITICAL by { assert PASSING[0] != CRITICAL[0]; }
  }

  lemma ReportLands(nodes: Remote, s: CatalogService, ent: bool, status: string, place: (Identifier2, Identifier))
    ensures CatalogStatus(Apply(nodes, Report(s, ent, status)), place)
         == if place == Place(s, ent) then Some(status) else CatalogStatus(nodes, place)
  {
  }

  /** Whether the step writes at all. */
  predicate Writes(st: State, s: CatalogService, up: bool) {
    Checked(s) && Remembered(st.last, KeyOf(s)) != StatusFor(up)
  }

  /** A lost reply puts a service in doubt; an accepted one takes it out. */
  function DoubtAfterStep(doubt: set<int>, st: State, s: CatalogService, i: int, up: bool, reply: Reply): set<int> {
    if !Writes(st, s, up) || reply == Rejected then doubt
    else if reply == Lost then doubt + {i}
    else doubt - {i}
  }

  lemma StepKeepsAgreement(st: State, ss: seq<CatalogService>, ent: bool, i: nat, up: bool, reply: Reply, doubt: set<int>)
    requires i < |ss| && KeysApart(ss, ent) && Agreement(st, ss, ent, doubt)
    ensures Agreement(Step(st, ss[i], ent, up, reply), ss, ent, DoubtAfterStep(doubt, st, ss[i], i, up, reply))
  {
    var after := Step(st, ss[i], ent, up, reply);
    hide Settled, Step, DoubtAfterStep, KeysApart;
    forall j | 0 <= j < |ss| && Checked(ss[j])
      ensures Settled(after, ss[j], ent, j in DoubtAfterStep(doubt, st, ss[i], i, up, reply))
    {
      StepSettles(st, ss, ent, i, j, up, reply, doubt);
    }
  }

  lemma StepSettles(st: State, ss: seq<CatalogService>, ent: bool, i: nat, j: nat, up: bool, reply: Reply, doubt: set<int>)
    requires i < |ss| && j < |ss| && KeysApart(ss, ent) && Checked(ss[j]) && Settled(st, ss[j], ent, j in doubt)
    ensures Settled(Step(st, ss[i], ent, up, reply), ss[j], ent, j in DoubtAfterStep(doubt, st, ss[i], i, up, reply))
  {
    hide Apply, Report, Place, CatalogStatus, KeyOf;
    ReportLands(st.nodes, ss[i], ent, StatusFor(up), Place(ss[j], ent));
    assert Checked(ss[i]) && i != j ==> KeyOf(ss[i]) != KeyOf(ss[j]) && Place(ss[i], ent) != Place(ss[j], ent) by {
      assert i < j || j < i || i == j;
    }
    hide KeysApart;
  }

  function DoubtAfterPass(doubt: set<int>, st: State, ss: seq<CatalogService>, ent: bool, up: seq<bool>,
                          replies: seq<Reply>, n: nat): set<int>
    requires n <= |ss| && n <= |up| && n <= |replies|
  {
    if n == 0 then doubt
    else DoubtAfterStep(DoubtAfterPass(doubt, st, ss, ent, up, replies, n - 1), Pass(st, ss, ent, up, replies, n - 1),
                        ss[n - 1], n - 1, up[n - 1], replies[n - 1])
  }

  lemma {:induction false} PassKeepsAgreement(st: State, ss: seq<CatalogService>, ent: bool, up: seq<bool>,
                                              replies: seq<Reply>, n: nat, doubt: set<int>)
    requires n <= |ss| && n <= |up| && n <= |replies|
    requires KeysApart(ss, ent) && Agreement(st, ss, ent, doubt)
    ensures Agreement(Pass(st, ss, ent, up, replies, n), ss, ent, DoubtAfterPass(doubt, st, ss, ent, up, replies, n))
  {
    hide Step, KeysApart, Agreement, DoubtAfterStep;
    if n > 0 {
      PassKeepsAgreement(st, ss, ent, up, replies, n - 1, doubt);
      StepKeepsAgreement(Pass(st, ss, ent, up, replies, n - 1), ss, ent, n - 1, up[n - 1], replies[n - 1],
                         DoubtAfterPass(doubt, st, ss, ent, up, replies, n - 1));
    }
  }

  // ---------------------------------------------------------------- runs of passes

  datatype Round = Round(up: seq<bool>, replies: seq<Reply>)

  predicate RoundsFit(rounds: seq<Round>, n: nat) {
    forall i :: 0 <= i < |rounds| ==> |rounds[i].up| == n && |rounds[i].replies| == n
  }

  function Run(st: State, ss: seq<CatalogService>, ent: bool, rounds: seq<Round>): State
    requires RoundsFit(rounds, |ss|)
  {
    if rounds == [] then st
    else
      var r := rounds[|rounds| - 1];
      Pass(Run(st, ss, ent, rounds[..|rounds| - 1]), ss, ent, r.up, r.replies, |ss|)
  }

  function DoubtAfter(st: State, ss: seq<CatalogService>, ent: bool, rounds: seq<Round>): set<int>
    requires RoundsFit(rounds, |ss|)
  {
    if rounds == [] then {}
    else
      var r := rounds[|rounds| - 1];
      var before := rounds[..|rounds| - 1];
      DoubtAfterPass(DoubtAfter(st, ss, ent, before), Run(st, ss, ent, before), ss, ent, r.up, r.replies, |ss|)
  }

  /** Over every run from an empty memory, every checked service is settled. */
  lemma {:induction false} RunsKeepAgreement(st: State, ss: seq<CatalogService>, ent: bool, rounds: seq<Round>)
    requires RoundsFit(rounds, |ss|) && KeysApart(ss, ent) && st.last == map[]
    ensures Agreement(Run(st, ss, ent, rounds), ss, ent, DoubtAfter(st, ss, ent, rounds))
  {
    hide KeysApart, Pass, DoubtAfterPass;
    if rounds != [] {
      var n := |rounds| - 1;
      hide Agreement;
      RunsKeepAgreement(st, ss, ent, rounds[..n]);
      PassKeepsAgreement(Run(st, ss, ent, rounds[..n]), ss, ent, rounds[n].up, rounds[n].replies, |ss|,
                         DoubtAfter(st, ss, ent, rounds[..n]));
    }
  }

  /**
   * Over every run from an empty memory, memory and catalog agree on a service exactly when no effective write of
   * it was reported as failed since its last accepted one, or nothing is remembered of it yet.
   */
  lemma RunsAgreeExactly(st: State, ss: seq<CatalogService>, ent: bool, rounds: seq<Round>, i: nat)
    requires RoundsFit(rounds, |ss|) && KeysApart(ss, ent) && st.last == map[] && i < |ss|
    requires ss[i].tcpCheck != "" && ss[i].checkID != ""
    ensures var now := Run(st, ss, ent, rounds);
            StatusOf(now.nodes, ss[i], ent) == Some(MemoryOf(now.last, ss[i])) || MemoryOf(now.last, ss[i]) == "" <==>
            i !in DoubtAfter(st, ss, ent, rounds) || MemoryOf(now.last, ss[i]) == ""
  {
    InPlainTerms(Run(st, ss, ent, rounds), ss[i], ent, "");
    hide RoundsFit, KeysApart, Run, DoubtAfter, Agreement, KeyOf, Remembered, MemoryOf, StatusOf, CatalogStatus, Place;
    RunsKeepAgreement(st, ss, ent, rounds);
    AgreesExactly(Run(st, ss, ent, rounds), ss, ent, DoubtAfter(st, ss, ent, rounds), i);
  }

  predicate NoneLost(rounds: seq<Round>) {
    forall i, j :: 0 <= i < |rounds| && 0 <= j < |rounds[i].replies| ==> rounds[i].replies[j] != Lost
  }

  lemma {:induction false} PassWithoutLoss(doubt: set<int>, st: State, ss: seq<CatalogService>, ent: bool,
                                           up: seq<bool>, replies: seq<Reply>, n: nat)
    requires n <= |ss| && n <= |up| && n <= |replies|
    requires forall j :: 0 <= j < |replies| ==> replies[j] != Lost
    ensures DoubtAfterPass(doubt, st, ss, ent, up, replies, n) <= doubt
  {
    hide Writes, Pass;
    if n > 0 {
      PassWithoutLoss(doubt, st, ss, ent, up, replies, n - 1);
    }
  }

  /** When failed calls change nothing, no service is ever in doubt. */
  lemma {:induction false} NoLossNoDoubt(st: State, ss: seq<CatalogService>, ent: bool, rounds: seq<Round>)
    requires RoundsFit(rounds, |ss|) && NoneLost(rounds)
    ensures DoubtAfter(st, ss, ent, rounds) == {}
  {
    hide Pass, DoubtAfterPass;
    if rounds != [] {
      var n := |rounds| - 1;
      NoLossNoDoubt(st, ss, ent, rounds[..n]);
      PassWithoutLoss({}, Run(st, ss, ent, rounds[..n]), ss, ent, rounds[n].up, rounds[n].replies, |ss|);
    }
  }

  // ---------------------------------------------------------------- what one pass achieves

  lemma StepElsewhere(st: State, ss: seq<CatalogService>, ent: bool, i: nat, j: nat, up: bool, reply: Reply)
    requires i < |ss| && j < |ss| && i != j && KeysApart(ss, ent) && Checked(ss[j])
    ensures var after := Step(st, ss[i], ent, up, reply);
            Remembered(after.last, KeyOf(ss[j])) == Remembered(st.last, KeyOf(ss[j])) &&
            CatalogStatus(after.nodes, Place(ss[j], ent)) == CatalogStatus(st.nodes, Place(ss[j], ent))
  {
    hide Apply, Report, Place, CatalogStatus, KeyOf;
    ReportLands(st.nodes, ss[i], ent, StatusFor(up), Place(ss[j], ent));
    assert Checked(ss[i]) ==> KeyOf(ss[i]) != KeyOf(ss[j]) && Place(ss[i], ent) != Place(ss[j], ent) by {
      assert i < j || j < i;
    }
  }

  /** Until its turn, a service is remembered and recorded as at the start of the pass. */
  lemma {:induction false} BeforeItsTurn(st: State, ss: seq<CatalogService>, ent: bool, up: seq<bool>,
                                         replies: seq<Reply>, n: nat, j: nat)
    requires n <= j < |ss| && n <= |up| && n <= |replies| && KeysApart(ss, ent) && Checked(ss[j])
    ensures var now := Pass(st, ss, ent, up, replies, n);
            Remembered(now.last, KeyOf(ss[j])) == Remembered(st.last, KeyOf(ss[j])) &&
            CatalogStatus(now.nodes, Place(ss[j], ent)) == CatalogStatus(st.nodes, Place(ss[j], ent))
  {
    hide Step, KeysApart, Place, CatalogStatus, KeyOf, Remembered, Checked;
    if n > 0 {
      BeforeItsTurn(st, ss, ent, up, replies, n - 1, j);
      StepElsewhere(Pass(st, ss, ent, up, replies, n - 1), ss, ent, n - 1, j, up[n - 1], replies[n - 1]);
    }
  }

  /** After its turn, a service is left alone for the rest of the pass. */
  lemma {:induction false} AfterItsTurn(st: State, ss: seq<CatalogService>, ent: bool, up: seq<bool>,
                                        replies: seq<Reply>, n: nat, j: nat)
    requires j < n <= |ss| && n <= |up| && n <= |replies| && KeysApart(ss, ent) && Checked(ss[j])
    ensures var then_, now := Pass(st, ss, ent, up, replies, j + 1), Pass(st, ss, ent, up, replies, n);
            Remembered(now.last, KeyOf(ss[j])) == Remembered(then_.last, KeyOf(ss[j])) &&
            CatalogStatus(now.nodes, Place(ss[j], ent)) == CatalogStatus(then_.nodes, Place(ss[j], ent))
  {
    hide Step, KeysApart, Place, CatalogStatus, KeyOf, Remembered, Checked;
    if n > j + 1 {
      AfterItsTurn(st, ss, ent, up, replies, n - 1, j);
      StepElsewhere(Pass(st, ss, ent, up, replies, n - 1), ss, ent, n - 1, j, up[n - 1], replies[n - 1]);
    }
  }

  /** The report of a status: the registration of the service as the definition has it, with its check at that status. */
  function ReportFor(s: CatalogService, ent: bool, status: string): Op {
    var part, ns := if ent then s.partition else "", if ent then s.ns else "";
    Register(Registration(
      s.node, part, "", map[], true,
      Some(AgentService(Typical, s.service, s.service, s.meta, s.port, s.address, ns, part, None)),
      Some(AgentCheck(s.checkID, "external sync", "external-sync", status, s.service, s.tcpCheck, ns, part))))
  }

  /** What is remembered of a service. */
  function MemoryOf(last: map<Key, string>, s: CatalogService): string {
    var k := (NewIdentifier2(s.node, s.partition), NewIdentifier(s.service, s.ns, s.partition));
    if k in last then last[k] else ""
  }

  /** What the catalog says of the check of a service. */
  function StatusOf(nodes: Remote, s: CatalogService, ent: bool): Option<string> {
    var nid := NewIdentifier2(s.node, if ent then s.partition else "");
    var c := NewIdentifier(s.checkID, if ent then s.ns else "", if ent then s.partition else "");
    if nid in nodes && c in nodes[nid].checks then Some(nodes[nid].checks[c].status) else None
  }

  lemma InPlainTerms(st: State, s: CatalogService, ent: bool, status: string)
    ensures Report(s, ent, status) == ReportFor(s, ent, status)
    ensures Remembered(st.last, KeyOf(s)) == MemoryOf(st.last, s)
    ensures CatalogStatus(st.nodes, Place(s, ent)) == StatusOf(st.nodes, s, ent)
  {
  }

  /**
   * The calls a pass is to make, in order: a report for each service that has a check and an address to probe, and
   * whose probe differs from what was remembered at the start.
   */
  function Due(st: State, ss: seq<CatalogService>, ent: bool, up: seq<bool>, n: nat): seq<Op>
    requires n <= |ss| && n <= |up|
  {
    if n == 0 then []
    else
      var s, status := ss[n - 1], if up[n - 1] then "passing" else "critical";
      Due(st, ss, ent, up, n - 1) +
      if s.tcpCheck != "" && s.checkID != "" && MemoryOf(st.last, s) != status then [ReportFor(s, ent, status)] else []
  }

  /** A pass issues exactly those calls. */
  lemma {:induction false} PassIssuesExactlyTheDue(st: State, ss: seq<CatalogService>, ent: bool, up: seq<bool>,
                                                   replies: seq<Reply>, n: nat)
    requires n <= |ss| && n <= |up| && n <= |replies| && KeysApart(ss, ent)
    ensures Pass(st, ss, ent, up, replies, n).issued == st.issued + Due(st, ss, ent, up, n)
  {
    hide KeysApart, ReportFor, MemoryOf, Step;
    if n > 0 {
      PassIssuesExactlyTheDue(st, ss, ent, up, replies, n - 1);
      if Checked(ss[n - 1]) {
        BeforeItsTurn(st, ss, ent, up, replies, n - 1, n - 1);
      }
      hide Remembered, KeyOf, CatalogStatus, Place;
      StepIssues(Pass(st, ss, ent, up, replies, n - 1), ss[n - 1], ent, up[n - 1], replies[n - 1], st);
    }
  }

  lemma StepIssues(st: State, s: CatalogService, ent: bool, up: bool, reply: Reply, start: State)
    requires Checked(s) ==> Remembered(st.last, KeyOf(s)) == Remembered(start.last, KeyOf(s))
    ensures var status := if up then "passing" else "critical";
            Step(st, s, ent, up, reply).issued ==
            st.issued + if s.tcpCheck != "" && s.checkID != "" && MemoryOf(start.last, s) != status then [ReportFor(s, ent, status)] else []
  {
    InPlainTerms(start, s, ent, StatusFor(up));
    hide Report, ReportFor, KeyOf, MemoryOf, Apply, Remembered, CatalogStatus, Place;
  }

  /**
   * After a pass, memory and catalog both have the probe's status of a service exactly when its write was accepted,
   * or none was needed and it was not in doubt.
   */
  lemma PassReports(st: State, ss: seq<CatalogService>, ent: bool, up: seq<bool>, replies: seq<Reply>,
                    doubt: set<int>, j: nat)
    requires |up| == |ss| && |replies| == |ss| && j < |ss|
    requires KeysApart(ss, ent) && Agreement(st, ss, ent, doubt) && ss[j].tcpCheck != "" && ss[j].checkID != ""
    ensures var after, status := Pass(st, ss, ent, up, replies, |ss|), if up[j] then "passing" else "critical";
            (MemoryOf(after.last, ss[j]) == status && StatusOf(after.nodes, ss[j], ent) == Some(status))
            <==> if MemoryOf(st.last, ss[j]) != status then replies[j] == Accepted else j !in doubt
  {
    BeforeItsTurn(st, ss, ent, up, replies, j, j);
    AfterItsTurn(st, ss, ent, up, replies, |ss|, j);
    var now := Pass(st, ss, ent, up, replies, j);
    ReportLands(now.nodes, ss[j], ent, StatusFor(up[j]), Place(ss[j], ent));
    InPlainTerms(st, ss[j], ent, StatusFor(up[j]));
    InPlainTerms(Pass(st, ss, ent, up, replies, |ss|), ss[j], ent, StatusFor(up[j]));
    assert Settled(st, ss[j], ent, j in doubt);
    assert PASSING != CRITICAL by { assert PASSING[0] != CRITICAL[0]; }
    assert Pass(st, ss, ent, up, replies, j + 1) == Step(now, ss[j], ent, up[j], replies[j]);
    hide KeysApart, Pass, Apply, Report, ReportFor, Place, CatalogStatus, KeyOf, Agreement, MemoryOf, StatusOf;
  }

  function Omit<T>(s: seq<T>, j: nat): seq<T>
    requires j < |s|
  {
    s[..j] + s[j + 1..]
  }

  /** A service without a check, or without an address to probe, is passed over, whatever its probe would find. */
  lemma {:induction false} UncheckedIsPassedOver(st: State, ss: seq<CatalogService>, ent: bool, up: seq<bool>,
                                                 replies: seq<Reply>, n: nat, j: nat)
    requires j < n <= |ss| && n <= |up| && n <= |replies| && (ss[j].tcpCheck == "" || ss[j].checkID == "")
    ensures Pass(st, ss, ent, up, replies, n) == Pass(st, Omit(ss, j), ent, Omit(up, j), Omit(replies, j), n - 1)
  {
    hide Step;
    if n == j + 1 {
      SkipUnchecked(Pass(st, ss, ent, up, replies, j), ss[j], ent, up[j], replies[j]);
      PassOfPrefix(st, ss, Omit(ss, j), ent, up, Omit(up, j), replies, Omit(replies, j), j);
    } else {
      UncheckedIsPassedOver(st, ss, ent, up, replies, n - 1, j);
      assert Omit(ss, j)[n - 2] == ss[n - 1] && Omit(up, j)[n - 2] == up[n - 1] && Omit(replies, j)[n - 2] == replies[n - 1];
    }
  }

  lemma {:induction false} PassOfPrefix(st: State, ss: seq<CatalogService>, tt: seq<CatalogService>, ent: bool,
                                        up: seq<bool>, vp: seq<bool>, a: seq<Reply>, b: seq<Reply>, n: nat)
    requires n <= |ss| && n <= |tt| && n <= |up| && n <= |vp| && n <= |a| && n <= |b|
    requires forall i :: 0 <= i < n ==> ss[i] == tt[i] && up[i] == vp[i] && a[i] == b[i]
    ensures Pass(st, ss, ent, up, a, n) == Pass(st, tt, ent, vp, b, n)
  {
    hide Step;
    if n > 0 {
      PassOfPrefix(st, ss, tt, ent, up, vp, a, b, n - 1);
    }
  }

  /** While its probe equals what is remembered, nothing about a service changes. */
  lemma {:induction false} RunLeavesAlone(st: State, ss: seq<CatalogService>, ent: bool, rounds: seq<Round>, j: nat)
    requires RoundsFit(rounds, |ss|) && KeysApart(ss, ent) && j < |ss| && Checked(ss[j])
    requires forall i :: 0 <= i < |rounds| ==> StatusFor(rounds[i].up[j]) == Remembered(st.last, KeyOf(ss[j]))
    ensures var now := Run(st, ss, ent, rounds);
            Remembered(now.last, KeyOf(ss[j])) == Remembered(st.last, KeyOf(ss[j])) &&
            CatalogStatus(now.nodes, Place(ss[j], ent)) == CatalogStatus(st.nodes, Place(ss[j], ent))
  {
    hide KeysApart, Place, CatalogStatus, KeyOf, Remembered, StatusFor, Pass, Checked;
    if rounds != [] {
      var n := |rounds| - 1;
      RunLeavesAlone(st, ss, ent, rounds[..n], j);
      PassLeavesAlone(Run(st, ss, ent, rounds[..n]), ss, ent, rounds[n], j);
    }
  }

  lemma PassLeavesAlone(st: State, ss: seq<CatalogService>, ent: bool, round: Round, j: nat)
    requires |round.up| == |ss| && |round.replies| == |ss| && KeysApart(ss, ent) && j < |ss| && Checked(ss[j])
    requires StatusFor(round.up[j]) == Remembered(st.last, KeyOf(ss[j]))
    ensures var now := Pass(st, ss, ent, round.up, round.replies, |ss|);
            Remembered(now.last, KeyOf(ss[j])) == Remembered(st.last, KeyOf(ss[j])) &&
            CatalogStatus(now.nodes, Place(ss[j], ent)) == CatalogStatus(st.nodes, Place(ss[j], ent))
  {
    BeforeItsTurn(st, ss, ent, round.up, round.replies, j, j);
    AfterItsTurn(st, ss, ent, round.up, round.replies, |ss|, j);
    var now := Pass(st, ss, ent, round.up, round.replies, j);
    assert Pass(st, ss, ent, round.up, round.replies, j + 1) == Step(now, ss[j], ent, round.up[j], round.replies[j]);
    hide KeysApart, Pass, Apply, Report, Place, CatalogStatus, KeyOf, Remembered, StatusFor;
  }

  /** Probing the same again writes nothing. */
  lemma {:induction false} NothingDue(st: State, ss: seq<CatalogService>, ent: bool, up: seq<bool>, n: nat)
    requires n <= |ss| && n <= |up|
    requires forall j :: 0 <= j < n && ss[j].tcpCheck != "" && ss[j].checkID != "" ==>
               MemoryOf(st.last, ss[j]) == if up[j] then "passing" else "critical"
    ensures Due(st, ss, ent, up, n) == []
  {
    hide ReportFor, MemoryOf;
    if n > 0 {
      NothingDue(st, ss, ent, up, n - 1);
    }
  }

  /**
   * A lost report that the probe then contradicts stalls: as long as the service is found passing, as remembered,
   * the catalog keeps it critical and nothing is written.
   */
  lemma {:induction false} LostReplyStalls(s: CatalogService, ent: bool, st: State, rounds: seq<Round>)
    requires s.tcpCheck != "" && s.checkID != "" && MemoryOf(st.last, s) == "passing" && RoundsFit(rounds, 1)
    requires forall i :: 0 <= i < |rounds| ==> rounds[i].up[0]
    ensures var lost := Pass(st, [s], ent, [false], [Lost], 1);
            var now := Run(lost, [s], ent, rounds);
            MemoryOf(now.last, s) == "passing" && StatusOf(now.nodes, s, ent) == Some("critical")
  {
    InPlainTerms(st, s, ent, "");
    InPlainTerms(Run(Pass(st, [s], ent, [false], [Lost], 1), [s], ent, rounds), s, ent, "");
    ReportLands(st.nodes, s, ent, CRITICAL, Place(s, ent));
    assert PASSING != CRITICAL by { assert PASSING[0] != CRITICAL[0]; }
    assert Pass(st, [s], ent, [false], [Lost], 0) == st;
    var lost := Step(st, s, ent, false, Lost);
    assert lost == Pass(st, [s], ent, [false], [Lost], 1);
    hide Apply, Report, Place, CatalogStatus, Pass, Step, Run, KeyOf, MemoryOf, StatusOf;
    RunLeavesAlone(lost, [s], ent, rounds, 0);
  }
}
