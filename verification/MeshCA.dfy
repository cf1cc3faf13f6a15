/** app/boot_vault.go (ensureCAProvider): bringing the mesh CA of a cluster to its desired configuration. */
module MeshCA {
  import opened Text

  /** The values that occur in a CA configuration. */
  datatype Value = Nil | Str(text: string) | Num(number: int)

  type Conf = map<string, Value>

  datatype CAConfig = CAConfig(provider: string, config: Conf)

  /** A Go map lookup: an absent key reads as nil. */
  function Get(m: Conf, key: string): Value { if key in m then m[key] else Nil }

  // ---------------------------------------------------------------- the decision

  datatype Decision = Keep | Refuse | Overwrite

  predicate Differs(a: Conf, b: Conf, key: string) {
    (key in a || key in b) && (key in a && key in b ==> a[key] != b[key])
  }

  /** A difference that the simple fields do not explain. */
  predicate Stubborn(a: Conf, b: Conf, simple: seq<string>, key: string) {
    Differs(a, b, key) && !(key in simple && Get(a, key) != Get(b, key))
  }

  ghost predicate Reconcilable(a: Conf, b: Conf, simple: seq<string>) {
    forall key :: key in a.Keys + b.Keys ==> !Stubborn(a, b, simple, key)
  }

  ghost function Decide(curr: CAConfig, update: CAConfig, simple: seq<string>): Decision {
    if curr.provider != update.provider then Overwrite
    else if curr.config == update.config then Keep
    else if Reconcilable(curr.config, update.config, simple) then Overwrite
    else Refuse
  }

  /** The fields among the first i that were struck from both copies. */
  function Struck(a: Conf, b: Conf, simple: seq<string>, i: nat): set<string>
    requires i <= |simple|
  {
    set j | 0 <= j < i && Get(a, simple[j]) != Get(b, simple[j]) :: simple[j]
  }

  lemma StruckOneMore(a: Conf, b: Conf, simple: seq<string>, i: nat)
    requires i < |simple|
    ensures Struck(a, b, simple, i + 1) ==
            Struck(a, b, simple, i) + if Get(a, simple[i]) != Get(b, simple[i]) then {simple[i]} else {}
  {
  }

  /** What remains of the copies is equal exactly when no difference is stubborn. */
  lemma StruckDecides(a: Conf, b: Conf, simple: seq<string>)
    ensures var s := Struck(a, b, simple, |simple|);
            (a - s == b - s <==> Reconcilable(a, b, simple)) && (s == {} && a - s == b - s ==> a == b) &&
            (a == b ==> s == {})
  {
    var s := Struck(a, b, simple, |simple|);
    forall key ensures key in s <==> key in simple && Get(a, key) != Get(b, key) {
      if key in simple && Get(a, key) != Get(b, key) {
        var j :| 0 <= j < |simple| && simple[j] == key;
        assert simple[j] in s;
      }
    }
    if a - s == b - s {
      forall key | key in a.Keys + b.Keys ensures !Stubborn(a, b, simple, key) {
        assert key in a - s <==> key in b - s;
      }
    }
    if Reconcilable(a, b, simple) {
      forall key ensures key in a - s <==> key in b - s {
        assert key in a.Keys + b.Keys ==> !Stubborn(a, b, simple, key);
      }
      forall key | key in a - s ensures a[key] == (b - s)[key] {
        assert !Stubborn(a, b, simple, key);
      }
      assert a - s == b - s;
    }
    if s == {} {
      assert a - s == a && b - s == b;
    }
  }

  /** The comparison as the program makes it: copies of both maps, struck field by field. */
  method Compare(curr: CAConfig, update: CAConfig, simple: seq<string>) returns (d: Decision)
    ensures d == Decide(curr, update, simple)
  {
    if curr.provider != update.provider {
      return Overwrite;
    }
    var currConfig, updateConfig := curr.config, update.config;
    var simpleUpdate := false;
    ghost var a, b := curr.config, update.config;
    for i := 0 to |simple|
      invariant currConfig == a - Struck(a, b, simple, i) && updateConfig == b - Struck(a, b, simple, i)
      invariant simpleUpdate <==> Struck(a, b, simple, i) != {}
    {
      var field := simple[i];
      StruckOneMore(a, b, simple, i);
      ghost var s := Struck(a, b, simple, i);
      hide Struck;
      if Get(currConfig, field) != Get(updateConfig, field) {
        assert field !in s;
        simpleUpdate := true;
        currConfig := currConfig - {field};
        updateConfig := updateConfig - {field};
      } else if Get(a, field) != Get(b, field) {
        assert s + {field} == s;
      }
    }
    StruckDecides(a, b, simple);
    if currConfig != updateConfig {
      return Refuse;
    }
    return if simpleUpdate then Overwrite else Keep;
  }

  // ---------------------------------------------------------------- what the decision means

  predicate NonNil(m: Conf) { forall key :: key in m ==> m[key] != Nil }

  /** A key with a nil value on one side that the other side does not have at all. */
  predicate NilGap(a: Conf, b: Conf, key: string) { Differs(a, b, key) && Get(a, key) == Get(b, key) }

  /**
   * Refused exactly when the provider matches and some key outside the simple fields differs, or one is nil on one
   * side and absent on the other; the latter never happens without nil values.
   */
  lemma RefusesExactly(curr: CAConfig, update: CAConfig, simple: seq<string>)
    ensures var a, b := curr.config, update.config;
            Decide(curr, update, simple).Refuse? <==>
            curr.provider == update.provider &&
            exists key :: key in a.Keys + b.Keys &&
              ((key !in simple && (key in a && key in b ==> a[key] != b[key])) ||
               (key in a && key !in b && a[key] == Nil) || (key in b && key !in a && b[key] == Nil))
    ensures NonNil(curr.config) && NonNil(update.config) ==> forall key :: !NilGap(curr.config, update.config, key)
    ensures Decide(curr, update, simple).Keep? <==> curr == update
    ensures curr.provider != update.provider ==> Decide(curr, update, simple).Overwrite?
  {
    var a, b := curr.config, update.config;
    assert forall key :: NilGap(a, b, key) <==>
        (key in a && key !in b && a[key] == Nil) || (key in b && key !in a && b[key] == Nil);
    assert forall key :: key in a.Keys + b.Keys ==>
        (Stubborn(a, b, simple, key) <==> (key !in simple && Differs(a, b, key)) || NilGap(a, b, key));
    if curr.provider == update.provider && a == b {
      assert forall key :: !Differs(a, b, key);
    }
  }

  /** Whatever the values: when only simple fields differ, they can be updated unless one is nil here and absent there. */
  lemma SimpleDifferencesAreWritten(curr: CAConfig, update: CAConfig, simple: seq<string>)
    requires curr.provider == update.provider && curr.config != update.config
    requires forall key :: key in curr.config.Keys + update.config.Keys && Differs(curr.config, update.config, key) ==> key in simple
    ensures Decide(curr, update, simple) ==
            if exists key :: key in curr.config.Keys + update.config.Keys && NilGap(curr.config, update.config, key)
            then Refuse else Overwrite
  {
    var a, b := curr.config, update.config;
    assert forall key :: key in a.Keys + b.Keys ==> (Stubborn(a, b, simple, key) <==> NilGap(a, b, key));
  }

  // ---------------------------------------------------------------- the remote

  datatype Reply = Done | Reconfiguring | Failed

  datatype Event = Read(curr: CAConfig) | Write(update: CAConfig, reply: Reply)

  class CARemote {
    var current: CAConfig
    var busy: nat            // how often the server may still answer that it is being reconfigured
    ghost var log: seq<Event>

    constructor (current: CAConfig, busy: nat)
      ensures this.current == current && this.busy == busy && log == []
    {
      this.current, this.busy, log := current, busy, [];
    }

    method CAGetConfig() returns (r: Option<CAConfig>)
      modifies this`log
      ensures r.Some? ==> r.value == current && log == old(log) + [Read(current)]
      ensures r.None? ==> log == old(log)
    {
      var answered: bool := *;
      if answered {
        log := log + [Read(current)];
        return Some(current);
      }
      return None;
    }

    /** Atomic; while it is being reconfigured, the configuration is whatever the other writer makes it. */
    method CASetConfig(update: CAConfig) returns (reply: Reply)
      modifies this
      ensures log == old(log) + [Write(update, reply)]
      ensures reply.Done? ==> current == update && busy == old(busy)
      ensures reply.Reconfiguring? ==> busy < old(busy)
      ensures reply.Failed? ==> busy == old(busy) && (current == update || current == old(current))
    {
      var reconfiguring: bool, reached: bool, answered: bool := *, *, *;
      if reconfiguring && busy > 0 {
        var provider: string, config: Conf := *, *;
        current := CAConfig(provider, config);
        busy := busy - 1;
        reply := Reconfiguring;
      } else {
        if reached {
          current := update;
        }
        reply := if reached && answered then Done else Failed;
      }
      log := log + [Write(update, reply)];
    }
  }

  // ---------------------------------------------------------------- the run

  datatype Result = Succeeded | ReadFailed | ConfigDiffers | WriteFailed

  /** Rounds that ended in another try: each read something to overwrite and was turned away. */
  ghost predicate Retries(events: seq<Event>, update: CAConfig, simple: seq<string>) {
    && |events| % 2 == 0
    && forall i :: 0 <= i < |events| ==>
         if i % 2 == 0 then events[i].Read? && Decide(events[i].curr, update, simple) == Overwrite
         else events[i] == Write(update, Reconfiguring)
  }

  /** The round that ended the run. */
  ghost predicate LastRound(events: seq<Event>, update: CAConfig, simple: seq<string>, r: Result) {
    if r == ReadFailed then events == []
    else
      && events != [] && events[0].Read?
      && match Decide(events[0].curr, update, simple)
         case Keep => |events| == 1 && r == Succeeded
         case Refuse => |events| == 1 && r == ConfigDiffers
         case Overwrite =>
           |events| == 2 && r != ConfigDiffers && events[1] == Write(update, if r == Succeeded then Done else Failed)
  }

  /** The calls of one run. */
  ghost predicate IsRun(events: seq<Event>, update: CAConfig, simple: seq<string>, r: Result) {
    exists n :: 0 <= n <= |events| && Retries(events[..n], update, simple) && LastRound(events[n..], update, simple, r)
  }

  lemma RunParts(retries: seq<Event>, last: seq<Event>, update: CAConfig, simple: seq<string>, r: Result)
    requires Retries(retries, update, simple) && LastRound(last, update, simple, r)
    ensures IsRun(retries + last, update, simple, r)
  {
    var events := retries + last;
    hide Retries, LastRound;
    assert events[..|retries|] == retries && events[|retries|..] == last;
  }

  lemma NoRetries(update: CAConfig, simple: seq<string>)
    ensures Retries([], update, simple)
  {
  }

  lemma RetriesOneMore(retries: seq<Event>, curr: CAConfig, update: CAConfig, simple: seq<string>)
    requires Retries(retries, update, simple) && Decide(curr, update, simple) == Overwrite
    ensures Retries(retries + [Read(curr), Write(update, Reconfiguring)], update, simple)
  {
    hide Decide;
  }

  method EnsureCAProvider(remote: CARemote, update: CAConfig, simple: seq<string>) returns (r: Result, ghost events: seq<Event>)
    modifies remote
    ensures remote.log == old(remote.log) + events && IsRun(events, update, simple, r)
    ensures r == Succeeded ==> remote.current == update
    ensures r == ConfigDiffers ==> events[|events| - 1] == Read(remote.current)
    ensures r == Succeeded ==> events[|events| - 1] in {Read(update), Write(update, Done)}
    ensures r == WriteFailed ==> events[|events| - 1] == Write(update, Failed)
    ensures r == ReadFailed ==> events == [] || events[|events| - 1] == Write(update, Reconfiguring)
  {
    hide Decide, IsRun, Retries;
    ghost var retries := [];
    NoRetries(update, simple);
    while true
      invariant remote.log == old(remote.log) + retries && Retries(retries, update, simple)
      invariant retries != [] ==> retries[|retries| - 1] == Write(update, Reconfiguring)
      decreases remote.busy
    {
      var got := remote.CAGetConfig();
      if got.None? {
        RunParts(retries, [], update, simple, ReadFailed);
        return ReadFailed, retries + [];
      }
      var curr := got.value;
      var decision := Compare(curr, update, simple);
      if decision == Refuse {
        RunParts(retries, [Read(curr)], update, simple, ConfigDiffers);
        return ConfigDiffers, retries + [Read(curr)];
      }
      if decision == Keep {
        KeepMeansEqual(curr, update, simple);
        RunParts(retries, [Read(curr)], update, simple, Succeeded);
        return Succeeded, retries + [Read(curr)];
      }
      var reply := remote.CASetConfig(update);
      if reply.Reconfiguring? {
        RetriesOneMore(retries, curr, update, simple);
        retries := retries + [Read(curr), Write(update, Reconfiguring)];
      } else {
        r := if reply.Done? then Succeeded else WriteFailed;
        RunParts(retries, [Read(curr), Write(update, reply)], update, simple, r);
        return r, retries + [Read(curr), Write(update, reply)];
      }
    }
  }

  lemma KeepMeansEqual(curr: CAConfig, update: CAConfig, simple: seq<string>)
    requires Decide(curr, update, simple) == Keep
    ensures curr == update
  {
  }

  // ---------------------------------------------------------------- facts about runs

  /** Every write is of the desired configuration and follows a read that called for it. */
  lemma WritesAreCalledFor(events: seq<Event>, update: CAConfig, simple: seq<string>, r: Result, i: nat)
    requires IsRun(events, update, simple, r) && i < |events| && events[i].Write?
    ensures events[i].update == update && i > 0 && events[i - 1].Read?
    ensures Decide(events[i - 1].curr, update, simple) == Overwrite
    ensures r == Succeeded && events[i].reply.Done? ==> i == |events| - 1
    ensures r == ConfigDiffers ==> events[i].reply.Reconfiguring?
    ensures events[i].reply.Failed? ==> r == WriteFailed && i == |events| - 1
    ensures events[i].reply.Done? ==> r == Succeeded
    ensures events[i].reply.Reconfiguring? ==> if i == |events| - 1 then r == ReadFailed else events[i + 1].Read?
  {
    hide Decide;
    var n :| 0 <= n <= |events| && Retries(events[..n], update, simple) && LastRound(events[n..], update, simple, r);
    var retries, last := events[..n], events[n..];
    assert forall j :: 0 <= j < n ==> retries[j] == events[j];
    assert forall j :: n <= j < |events| ==> last[j - n] == events[j];
  }

  /** What the run reads first decides whether it writes at all. */
  lemma FirstReadDecides(events: seq<Event>, update: CAConfig, simple: seq<string>, r: Result)
    requires IsRun(events, update, simple, r) && events != []
    ensures events[0].Read?
    ensures Decide(events[0].curr, update, simple) == Keep ==> events == [events[0]] && r == Succeeded
    ensures Decide(events[0].curr, update, simple) == Refuse ==> events == [events[0]] && r == ConfigDiffers
    ensures Decide(events[0].curr, update, simple) == Overwrite ==> |events| >= 2 && events[1].Write?
  {
    hide Decide;
    var n :| 0 <= n <= |events| && Retries(events[..n], update, simple) && LastRound(events[n..], update, simple, r);
    var retries := events[..n];
    if n == 0 {
      assert events[n..] == events;
    } else {
      assert n >= 2;
      assert retries[0] == events[0] && retries[1] == events[1];
    }
  }

  /** Once the configuration is the desired one, another run reads once and writes nothing. */
  lemma RerunWritesNothing(events: seq<Event>, update: CAConfig, simple: seq<string>, r: Result)
    requires IsRun(events, update, simple, r) && events != [] && events[0] == Read(update)
    ensures events == [Read(update)] && r == Succeeded
  {
    FirstReadDecides(events, update, simple, r);
    hide IsRun;
  }

  // ---------------------------------------------------------------- the vault configuration in use

  const VAULT_SIMPLE := ["Token"]

  const VAULT_ADDRESS := "http://10.0.100.111:8200"

  function VaultUpdate(cluster: string, token: string): CAConfig {
    CAConfig("vault", map[
      "Address" := Str(VAULT_ADDRESS),
      "Token" := Str(token),
      "RootPKIPath" := Str("connect_root__" + cluster),
      "IntermediatePKIPath" := Str("connect_inter__" + cluster),
      "LeafCertTTL" := Str("72h"),
      "RotationPeriod" := Str("2160h"),
      "IntermediateCertTTL" := Str("8760h"),
      "PrivateKeyType" := Str("rsa"),
      "PrivateKeyBits" := Num(2048)])
  }

  /** A new vault token is always taken over; a CA that belongs to another cluster's mounts never is. */
  lemma TokenRotation(cluster: string, token: string, other: string, token': string)
    ensures Decide(VaultUpdate(cluster, token), VaultUpdate(other, token'), VAULT_SIMPLE) ==
            if cluster != other then Refuse else if token == token' then Keep else Overwrite
  {
    var a, b := VaultUpdate(cluster, token), VaultUpdate(other, token');
    var root := "RootPKIPath";
    MountsTellClustersApart(cluster, other);
    assert a.config["Token"] == Str(token) && b.config["Token"] == Str(token');
    assert a.config[root] == Str("connect_root__" + cluster) && b.config[root] == Str("connect_root__" + other);
    if cluster != other {
      assert Stubborn(a.config, b.config, VAULT_SIMPLE, root) by {
        assert root !in VAULT_SIMPLE;
      }
    } else {
      assert b.config == a.config["Token" := Str(token')];
      assert VAULT_SIMPLE[0] == "Token";
    }
  }

  lemma MountsTellClustersApart(a: string, b: string)
    ensures "connect_root__" + a == "connect_root__" + b ==> a == b
  {
    assert ("connect_root__" + a)[14..] == a && ("connect_root__" + b)[14..] == b;
  }
}
