/** app/boot.go (createPartitions): bringing the partitions of an enterprise cluster to the configured ones. */
module Partitions {
  import opened Text
  import opened Sorting
  import opened Identifiers
  import Config

  datatype Op = Create(name: string) | Delete(name: string)

  function Apply(r: set<string>, op: Op): set<string> {
    match op
    case Create(n) => r + {n}
    case Delete(n) => r - {n}
  }

  function ApplyAll(r: set<string>, ops: seq<Op>): set<string> {
    if ops == [] then r else Apply(ApplyAll(r, ops[..|ops| - 1]), ops[|ops| - 1])
  }

  lemma ApplyOneMore(r: set<string>, ops: seq<Op>, op: Op)
    ensures ApplyAll(r, ops + [op]) == Apply(ApplyAll(r, ops), op)
  {
    assert (ops + [op])[..|ops|] == ops;
  }

  lemma {:induction false} ApplyInTurn(r: set<string>, a: seq<Op>, b: seq<Op>)
    ensures ApplyAll(r, a + b) == ApplyAll(ApplyAll(r, a), b)
  {
    hide Apply;
    if b == [] {
      assert a + b == a;
    } else {
      var rest, last := b[..|b| - 1], b[|b| - 1];
      ApplyInTurn(r, a, rest);
      assert a + b == (a + rest) + [last];
      ApplyOneMore(r, a + rest, last);
    }
  }

  class PartitionStore {
    var names: set<string>
    ghost var log: seq<Op>

    constructor (names: set<string>)
      ensures this.names == names && log == []
    {
      this.names, log := names, [];
    }

    method List() returns (r: Option<set<string>>)
      ensures r.Some? ==> r.value == names
    {
      var answered: bool := *;
      r := if answered then Some(names) else None;
    }

    /** A call may fail, whether or not it took effect. */
    method Call(op: Op) returns (ok: bool)
      modifies this
      ensures (names == Apply(old(names), op) && log == old(log) + [op]) ||
              (!ok && names == old(names) && log == old(log))
    {
      var reached: bool, answered: bool := *, *;
      ok := reached && answered;
      if reached {
        names := Apply(names, op);
        log := log + [op];
      }
    }
  }

  // ---------------------------------------------------------------- the calls of a run

  function Names(ps: seq<Config.Partition>): set<string> { set i | 0 <= i < |ps| :: ps[i].name }

  /** The creations, given the partitions that were listed: a listed name is struck off when it is first met. */
  function Creations(ps: seq<Config.Partition>, current: set<string>): seq<Op> {
    if ps == [] then []
    else
      var rest, ap := ps[..|ps| - 1], ps[|ps| - 1];
      Creations(rest, current) +
      if ap.name == DEFAULT || (ap.name in current && ap.name !in Names(rest)) then [] else [Create(ap.name)]
  }

  function Leftover(ps: seq<Config.Partition>, current: set<string>): set<string> { current - Names(ps) - {DEFAULT} }

  function Deletions(names: set<string>): set<Op> { set n | n in names :: Delete(n) }

  ghost predicate FullRun(ps: seq<Config.Partition>, current: set<string>, ops: seq<Op>) {
    exists dels :: ops == Creations(ps, current) + dels && Enumerates(dels, Deletions(Leftover(ps, current)))
  }

  ghost predicate PartialRun(ps: seq<Config.Partition>, current: set<string>, ops: seq<Op>) {
    exists n, dels :: 0 <= n <= |Creations(ps, current)| && ops == Creations(ps, current)[..n] + dels &&
                      (dels != [] ==> n == |Creations(ps, current)|) && NoDuplicates(dels) && Elements(dels) <= Deletions(Leftover(ps, current))
  }

  lemma NamesOneMore(ps: seq<Config.Partition>, i: nat)
    requires i < |ps|
    ensures Names(ps[..i + 1]) == Names(ps[..i]) + {ps[i].name}
  {
    assert ps[..i + 1] == ps[..i] + [ps[i]];
  }

  lemma CreationsOneMore(ps: seq<Config.Partition>, current: set<string>, i: nat)
    requires i < |ps|
    ensures Creations(ps[..i + 1], current) ==
            Creations(ps[..i], current) +
            if ps[i].name == DEFAULT || (ps[i].name in current && ps[i].name !in Names(ps[..i])) then [] else [Create(ps[i].name)]
  {
    assert ps[..i + 1][..i] == ps[..i];
  }

  lemma {:induction false} CreationsPrefix(ps: seq<Config.Partition>, current: set<string>, i: nat)
    requires i <= |ps|
    ensures Creations(ps[..i], current) <= Creations(ps, current)
    decreases |ps| - i
  {
    if i < |ps| {
      CreationsOneMore(ps, current, i);
      CreationsPrefix(ps, current, i + 1);
    } else {
      assert ps[..i] == ps;
    }
  }

  ghost predicate Happened(r0: set<string>, log0: seq<Op>, r: set<string>, log: seq<Op>, ops: seq<Op>) {
    r == ApplyAll(r0, ops) && log == log0 + ops
  }

  method Issue(client: PartitionStore, op: Op, ghost r0: set<string>, ghost log0: seq<Op>, ghost ops: seq<Op>)
    returns (ok: bool, ghost ops': seq<Op>)
    requires Happened(r0, log0, client.names, client.log, ops)
    modifies client
    ensures Happened(r0, log0, client.names, client.log, ops')
    ensures ops' == ops + [op] || (!ok && ops' == ops)
  {
    ok := client.Call(op);
    if client.log == old(client.log) + [op] && client.names == Apply(old(client.names), op) {
      ops' := ops + [op];
      ApplyOneMore(r0, ops, op);
      assert client.log == log0 + (ops + [op]);
    } else {
      ops' := ops;
    }
  }

  /** One round of the creating loop. */
  method CreateIfMissing(client: PartitionStore, ap: Config.Partition, current: set<string>,
                         ghost r0: set<string>, ghost log0: seq<Op>, ghost ops: seq<Op>)
    returns (ok: bool, left: set<string>, ghost ops': seq<Op>)
    requires Happened(r0, log0, client.names, client.log, ops)
    modifies client
    ensures Happened(r0, log0, client.names, client.log, ops')
    ensures left == current - {ap.name}
    ensures ops' == ops + (if ap.name in current || ap.name == DEFAULT then [] else [Create(ap.name)]) || (!ok && ops' == ops)
  {
    hide Happened;
    left, ops' := current, ops;
    assert ops + [] == ops;
    if ap.name in current {
      left := left - {ap.name};
      return true, left, ops;
    }
    if ap.name == DEFAULT {
      return true, left, ops;
    }
    ok, ops' := Issue(client, Create(ap.name), r0, log0, ops);
  }

  method CreateMissing(client: PartitionStore, ps: seq<Config.Partition>, current: set<string>)
    returns (ok: bool, left: set<string>, ghost ops: seq<Op>)
    modifies client
    ensures Happened(old(client.names), old(client.log), client.names, client.log, ops)
    ensures ops <= Creations(ps, current)
    ensures ok ==> ops == Creations(ps, current) && left == current - Names(ps)
  {
    left, ops := current, [];
    assert Happened(client.names, client.log, client.names, client.log, []);
    assert Creations(ps[..0], current) == [] && current - Names(ps[..0]) == current;
    hide Happened, Creations, Names;
    for i := 0 to |ps|
      invariant Happened(old(client.names), old(client.log), client.names, client.log, ops)
      invariant ops == Creations(ps[..i], current) && left == current - Names(ps[..i])
    {
      NamesOneMore(ps, i);
      CreationsOneMore(ps, current, i);
      CreationsPrefix(ps, current, i);
      ok, left, ops := CreateIfMissing(client, ps[i], left, old(client.names), old(client.log), ops);
      if !ok {
        CreationsPrefix(ps, current, i + 1);
        return;
      }
    }
    assert ps[..|ps|] == ps;
    ok := true;
  }

  method DeleteLeftovers(client: PartitionStore, left: set<string>) returns (ok: bool, ghost ops: seq<Op>)
    modifies client
    ensures Happened(old(client.names), old(client.log), client.names, client.log, ops)
    ensures NoDuplicates(ops) && Elements(ops) <= Deletions(left)
    ensures ok ==> Elements(ops) == Deletions(left)
  {
    ops := [];
    assert Happened(client.names, client.log, client.names, client.log, []);
    hide Happened;
    var todo := left;
    while todo != {}
      invariant todo <= left
      invariant Happened(old(client.names), old(client.log), client.names, client.log, ops)
      invariant Enumerates(ops, Deletions(left - todo))
    {
      var ap :| ap in todo;
      ghost var done := left - todo;
      DeletionsOneMore(done, ap);
      EnumerateOneMore(ops, Deletions(done), Delete(ap));
      ok, ops := Issue(client, Delete(ap), old(client.names), old(client.log), ops);
      todo := todo - {ap};
      assert left - todo == done + {ap};
      if !ok {
        return;
      }
    }
    assert left - todo == left;
    ok := true;
  }

  lemma DeletionsOneMore(names: set<string>, n: string)
    ensures Deletions(names + {n}) == Deletions(names) + {Delete(n)}
    ensures n !in names ==> Delete(n) !in Deletions(names)
  {
  }

  method CreatePartitions(client: PartitionStore, cfg: Config.Config) returns (ok: bool, ghost ops: seq<Op>)
    modifies client
    ensures Happened(old(client.names), old(client.log), client.names, client.log, ops)
    ensures !cfg.enterpriseEnabled ==> ok && ops == []
    ensures cfg.enterpriseEnabled && ok ==> FullRun(cfg.enterprisePartitions, old(client.names), ops)
    ensures cfg.enterpriseEnabled && !ok ==> PartialRun(cfg.enterprisePartitions, old(client.names), ops)
  {
    ops := [];
    ghost var r0, log0, ps := client.names, client.log, cfg.enterprisePartitions;
    assert Happened(r0, log0, client.names, client.log, []);
    if !cfg.enterpriseEnabled {
      return true, [];
    }
    hide Happened, Creations, Names, Deletions, NoDuplicates;
    var currentList := client.List();
    if currentList.None? {
      NothingDone(ps, r0);
      return false, [];
    }
    var currentMap := currentList.value;
    ok, currentMap, ops := CreateMissing(client, cfg.enterprisePartitions, currentMap);
    if !ok {
      OnlyCreations(ps, r0, ops);
      return;
    }
    ghost var r1, log1, more := client.names, client.log, [];
    currentMap := currentMap - {DEFAULT};
    ok, more := DeleteLeftovers(client, currentMap);
    HappenedInTurn(r0, log0, r1, log1, client.names, client.log, ops, more);
    assert ops == ops[..|ops|];
    ops := ops + more;
  }

  lemma NothingDone(ps: seq<Config.Partition>, current: set<string>)
    ensures PartialRun(ps, current, [])
  {
    OnlyCreations(ps, current, []);
  }

  lemma OnlyCreations(ps: seq<Config.Partition>, current: set<string>, ops: seq<Op>)
    requires ops <= Creations(ps, current)
    ensures PartialRun(ps, current, ops)
  {
    var dels: seq<Op> := [];
    assert ops == Creations(ps, current)[..|ops|] + dels && NoDuplicates(dels) && Elements(dels) == {};
  }

  lemma HappenedInTurn(r0: set<string>, log0: seq<Op>, r1: set<string>, log1: seq<Op>, r2: set<string>, log2: seq<Op>,
                       a: seq<Op>, b: seq<Op>)
    requires Happened(r0, log0, r1, log1, a) && Happened(r1, log1, r2, log2, b)
    ensures Happened(r0, log0, r2, log2, a + b)
  {
    ApplyInTurn(r0, a, b);
  }

  // ---------------------------------------------------------------- what a run achieves

  lemma {:induction false} CreationsAre(ps: seq<Config.Partition>, current: set<string>)
    ensures forall op :: op in Creations(ps, current) ==> op.Create? && op.name in Names(ps) && op.name != DEFAULT
    ensures forall n :: n in Names(ps) && n !in current && n != DEFAULT ==> Create(n) in Creations(ps, current)
  {
    if ps != [] {
      var i := |ps| - 1;
      CreationsAre(ps[..i], current);
      assert ps[..i + 1] == ps;
      NamesOneMore(ps, i);
    }
  }

  function Mentioned(ops: seq<Op>): set<string> { set op | op in ops :: op.name }

  lemma {:induction false} CreationEffect(r: set<string>, ops: seq<Op>)
    requires forall op :: op in ops ==> op.Create?
    ensures ApplyAll(r, ops) == r + Mentioned(ops)
  {
    if ops != [] {
      var rest, last := ops[..|ops| - 1], ops[|ops| - 1];
      assert ops == rest + [last];
      CreationEffect(r, rest);
      assert Mentioned(ops) == Mentioned(rest) + {last.name};
    }
  }

  lemma {:induction false} DeletionEffect(r: set<string>, ops: seq<Op>)
    requires forall op :: op in ops ==> op.Delete?
    ensures ApplyAll(r, ops) == r - Mentioned(ops)
  {
    if ops != [] {
      var rest, last := ops[..|ops| - 1], ops[|ops| - 1];
      assert ops == rest + [last];
      DeletionEffect(r, rest);
      var gone := Mentioned(rest);
      assert Mentioned(ops) == gone + {last.name};
      assert r - (gone + {last.name}) == (r - gone) - {last.name};
    }
  }

  /** Success ends, from any start, with exactly the configured partitions and the default one. */
  lemma PartitionsConverge(ps: seq<Config.Partition>, r: set<string>, ops: seq<Op>)
    requires FullRun(ps, r, ops) && DEFAULT in r
    ensures ApplyAll(r, ops) == (set i | 0 <= i < |ps| :: ps[i].name) + {"default"}
  {
    assert Names(ps) == set i | 0 <= i < |ps| :: ps[i].name;
    hide Creations, Names, Apply;
    var dels :| ops == Creations(ps, r) + dels && Enumerates(dels, Deletions(Leftover(ps, r)));
    ApplyInTurn(r, Creations(ps, r), dels);
    CreationsAre(ps, r);
    var made := Mentioned(Creations(ps, r));
    assert forall n :: n in Names(ps) && n !in r && n != DEFAULT ==> n in made by {
      forall n | n in Names(ps) && n !in r && n != DEFAULT ensures n in made {
        assert Create(n) in Creations(ps, r);
      }
    }
    CreationEffect(r, Creations(ps, r));
    assert forall op :: op in dels <==> op in Elements(dels);
    DeletionEffect(r + made, dels);
    assert Mentioned(dels) == Leftover(ps, r) by {
      forall n | n in Leftover(ps, r) ensures n in Mentioned(dels) {
        assert Delete(n) in dels;
      }
    }
  }

  /** No run, complete or not, deletes a configured partition or the default one. */
  lemma ConfiguredNeverDeleted(ps: seq<Config.Partition>, r: set<string>, ops: seq<Op>, op: Op)
    requires FullRun(ps, r, ops) || PartialRun(ps, r, ops)
    requires op in ops && op.Delete?
    ensures op.name !in Names(ps) && op.name != DEFAULT && op.name in r
  {
    hide Creations, Names;
    CreationsAre(ps, r);
    var made := Creations(ps, r);
    if FullRun(ps, r, ops) {
      var dels :| ops == made + dels && Enumerates(dels, Deletions(Leftover(ps, r)));
      assert op in Elements(dels);
    } else {
      var n, dels :| 0 <= n <= |made| && ops == made[..n] + dels && Elements(dels) <= Deletions(Leftover(ps, r));
      assert forall o :: o in made[..n] ==> o in made;
      assert op in Elements(dels);
    }
  }

  // ---------------------------------------------------------------- creating only what is absent

  /** Every creation is for a name that does not exist at that moment. */
  predicate CreatesAbsent(r: set<string>, ops: seq<Op>) {
    forall i :: 0 <= i < |ops| && ops[i].Create? ==> ops[i].name !in ApplyAll(r, ops[..i])
  }

  /** No partition other than the default one is configured twice. */
  predicate NamesDistinct(ps: seq<Config.Partition>) {
    forall i, j :: 0 <= i < j < |ps| && ps[i].name == ps[j].name ==> ps[i].name == DEFAULT
  }

  lemma CreatesAbsentOneMore(r: set<string>, ops: seq<Op>, op: Op)
    ensures CreatesAbsent(r, ops + [op]) <==>
            CreatesAbsent(r, ops) && (op.Create? ==> op.name !in ApplyAll(r, ops))
  {
    var all := ops + [op];
    assert all[..|ops|] == ops;
    assert forall i :: 0 <= i < |ops| ==> all[..i] == ops[..i] && all[i] == ops[i];
    hide ApplyAll;
    if CreatesAbsent(r, ops) && (op.Create? ==> op.name !in ApplyAll(r, ops)) {
      forall i | 0 <= i < |all| && all[i].Create? ensures all[i].name !in ApplyAll(r, all[..i]) {
        assert i < |ops| || i == |ops|;
      }
    }
    if CreatesAbsent(r, all) {
      assert op.Create? ==> all[|ops|].name !in ApplyAll(r, all[..|ops|]);
      forall i | 0 <= i < |ops| && ops[i].Create? ensures ops[i].name !in ApplyAll(r, ops[..i]) {
        assert all[i].name !in ApplyAll(r, all[..i]);
      }
    }
  }

  lemma NamesDistinctOneMore(ps: seq<Config.Partition>)
    requires ps != []
    ensures var rest, last := ps[..|ps| - 1], ps[|ps| - 1];
            NamesDistinct(ps) <==> NamesDistinct(rest) && (last.name in Names(rest) ==> last.name == DEFAULT)
  {
    var rest, last := ps[..|ps| - 1], ps[|ps| - 1];
    assert forall i :: 0 <= i < |rest| ==> rest[i] == ps[i];
  }

  /** What exists after the creations. */
  lemma AfterCreations(ps: seq<Config.Partition>, r: set<string>, n: string)
    ensures n in ApplyAll(r, Creations(ps, r)) <==> n in r || (n in Names(ps) && n != DEFAULT)
  {
    CreationsAre(ps, r);
    CreationEffect(r, Creations(ps, r));
    hide Creations, Names, ApplyAll;
    if n in Names(ps) && n !in r && n != DEFAULT {
      assert Create(n) in Creations(ps, r);
    }
  }

  /** Only absent partitions are created exactly when no name but the default one is configured twice. */
  lemma {:induction false} CreationsAreForAbsent(ps: seq<Config.Partition>, r: set<string>)
    ensures CreatesAbsent(r, Creations(ps, r)) <==> NamesDistinct(ps)
  {
    if ps != [] {
      var i := |ps| - 1;
      var rest, last := ps[..i], ps[i];
      CreationsAreForAbsent(rest, r);
      NamesDistinctOneMore(ps);
      AfterCreations(rest, r, last.name);
      CreatesAbsentOneMore(r, Creations(rest, r), Create(last.name));
      assert Creations(rest, r) + [] == Creations(rest, r);
      hide NamesDistinct, CreatesAbsent, ApplyAll, Names;
    }
  }

  /** For a whole run, whose deletions create nothing. */
  lemma CreatesOnlyAbsentExactly(ps: seq<Config.Partition>, r: set<string>, ops: seq<Op>)
    requires FullRun(ps, r, ops)
    ensures CreatesAbsent(r, ops) <==> NamesDistinct(ps)
  {
    hide Creations, ApplyAll, NamesDistinct;
    CreationsAreForAbsent(ps, r);
    var made := Creations(ps, r);
    var dels :| ops == made + dels && Enumerates(dels, Deletions(Leftover(ps, r)));
    assert forall i :: 0 <= i < |dels| ==> dels[i] in Elements(dels);
    assert forall i :: 0 <= i < |made| ==> ops[..i] == made[..i] && ops[i] == made[i];
    assert forall i :: |made| <= i < |ops| ==> ops[i] == dels[i - |made|] && ops[i].Delete?;
    if CreatesAbsent(r, ops) {
      forall i | 0 <= i < |made| && made[i].Create? ensures made[i].name !in ApplyAll(r, made[..i]) {
        assert ops[i].name !in ApplyAll(r, ops[..i]);
      }
    } else {
      var i :| 0 <= i < |ops| && ops[i].Create? && ops[i].name in ApplyAll(r, ops[..i]);
      assert made[i].name in ApplyAll(r, made[..i]);
    }
  }

  /** A validated configuration has no duplicates, so its runs create only what is absent. */
  lemma ValidatedCreatesOnlyAbsent(cfg: Config.Config, r: set<string>, ops: seq<Op>)
    requires Config.Acceptable(cfg) && FullRun(cfg.enterprisePartitions, r, ops)
    ensures CreatesAbsent(r, ops)
  {
    CreatesOnlyAbsentExactly(cfg.enterprisePartitions, r, ops);
    hide FullRun, CreatesAbsent;
    assert NamesDistinct(cfg.enterprisePartitions);
  }

  /** After a success, a further run with a validated configuration makes no call at all. */
  lemma FurtherRunIsIdle(cfg: Config.Config, r: set<string>, ops: seq<Op>, more: seq<Op>)
    requires Config.Acceptable(cfg) && DEFAULT in r && FullRun(cfg.enterprisePartitions, r, ops)
    requires FullRun(cfg.enterprisePartitions, ApplyAll(r, ops), more)
    ensures more == []
  {
    var ps := cfg.enterprisePartitions;
    PartitionsConverge(ps, r, ops);
    assert NamesDistinct(ps);
    var t := Names(ps) + {DEFAULT};
    NothingToCreate(ps, t);
    hide Creations, Names, ApplyAll;
    var dels :| more == Creations(ps, t) + dels && Enumerates(dels, Deletions(Leftover(ps, t)));
    assert Leftover(ps, t) == {};
    assert Deletions(Leftover(ps, t)) == {};
    EnumerationSize(dels, {});
  }

  lemma {:induction false} NothingToCreate(ps: seq<Config.Partition>, t: set<string>)
    requires Names(ps) <= t && NamesDistinct(ps)
    ensures Creations(ps, t) == []
  {
    if ps != [] {
      var i := |ps| - 1;
      assert ps[..i + 1] == ps;
      NamesOneMore(ps, i);
      NamesDistinctOneMore(ps);
      NothingToCreate(ps[..i], t);
      hide NamesDistinct, Names;
    }
  }
}
