/** app/boot.go on top of consulfunc/acl.go: the tokens of the boot keep their secrets from one boot to the next. */
module TokenIdentity {
  import opened Text
  import opened TokenStore
  import opened TokenProtocol

  const ANONYMOUS_ACCESSOR := "00000000-0000-0000-0000-000000000002"

  /** The call by which a boot creates the token of that name: only the anonymous one has a preset accessor. */
  predicate CreatesToken(c: Call, n: TokenName) {
    && c.request.description == Description(n) && c.request.secret == ""
    && c.request.accessor == if n == Anonymous then ANONYMOUS_ACCESSOR else ""
  }

  /** The calls of any number of boots, one after the other. */
  ghost predicate Boots(states: seq<Tokens>, calls: seq<Call>, names: seq<TokenName>) {
    && TokenStore.Run(states, calls) && |names| == |calls|
    && forall i :: 0 <= i < |calls| ==> CreatesToken(calls[i], names[i]) && Unambiguous(names[i])
  }

  /** The preset accessor belongs to the built-in anonymous token, not to one that the boot describes otherwise. */
  ghost predicate AnonymousApart(ts: Tokens) {
    ANONYMOUS_ACCESSOR in ts ==>
      forall n :: Unambiguous(n) && ts[ANONYMOUS_ACCESSOR].description == Description(n) ==> n == Anonymous
  }

  lemma AnonymousStaysApart(ts: Tokens, us: Tokens, c: Call, n: TokenName)
    requires TokenStore.Step(ts, us, c) && CreatesToken(c, n) && Unambiguous(n) && AnonymousApart(ts)
    requires ANONYMOUS_ACCESSOR in ts
    ensures AnonymousApart(us) && ANONYMOUS_ACCESSOR in us
  {
    hide Description, MayBecome;
    var a := ANONYMOUS_ACCESSOR;
    StepKeepsSecrets(ts, us, c, a);
    if us != ts {
      StepRedescribesExactly(ts, us, c, a);
      if us[a].description != ts[a].description {
        Redescription(ts, us, c, a);
        forall m | Unambiguous(m) && us[a].description == Description(m) ensures m == Anonymous {
          DescriptionsInjective(m, n);
        }
      }
    }
  }

  lemma Redescription(ts: Tokens, us: Tokens, c: Call, a: string)
    requires TokenStore.Step(ts, us, c) && us != ts && a in ts && Redescribes(ts, c.request, a)
    ensures us[a].description == c.request.description
  {
  }

  lemma BootsPrefix(states: seq<Tokens>, calls: seq<Call>, names: seq<TokenName>)
    requires Boots(states, calls, names) && |calls| > 0
    ensures var m := |calls| - 1;
            Boots(states[..m + 1], calls[..m], names[..m]) && CreatesToken(calls[m], names[m]) && Unambiguous(names[m]) &&
            TokenStore.Step(states[m], states[m + 1], calls[m])
  {
    hide TokenStore.Step, CreatesToken, Unambiguous;
    RunPrefix(states, calls);
    hide TokenStore.Run;
    var m := |calls| - 1;
    assert forall i :: 0 <= i < m ==> calls[..m][i] == calls[i] && names[..m][i] == names[i];
  }

  lemma {:induction false} BootsKeepApart(states: seq<Tokens>, calls: seq<Call>, names: seq<TokenName>)
    requires Boots(states, calls, names) && ANONYMOUS_ACCESSOR in states[0] && AnonymousApart(states[0])
    ensures ANONYMOUS_ACCESSOR in states[|calls|] && AnonymousApart(states[|calls|])
  {
    hide TokenStore.Step, CreatesToken, AnonymousApart, Unambiguous;
    if |calls| > 0 {
      var m := |calls| - 1;
      BootsPrefix(states, calls, names);
      hide Boots, TokenStore.Run;
      BootsKeepApart(states[..m + 1], calls[..m], names[..m]);
      AnonymousStaysApart(states[m], states[m + 1], calls[m], names[m]);
    }
  }

  /** No call of a boot re-describes a token that was created under another name. */
  lemma {:induction false} BootsKeepDescription(states: seq<Tokens>, calls: seq<Call>, names: seq<TokenName>, a: string, n: TokenName)
    requires Boots(states, calls, names) && ANONYMOUS_ACCESSOR in states[0] && AnonymousApart(states[0])
    requires a in states[0] && states[0][a].description == Description(n) && Unambiguous(n)
    ensures a in states[|calls|] && states[|calls|][a].description == Description(n)
    ensures states[|calls|][a].secret == states[0][a].secret
  {
    hide Description, TokenStore.Step, Redescribes, CreatesToken, AnonymousApart, Unambiguous;
    if |calls| > 0 {
      var m := |calls| - 1;
      BootsPrefix(states, calls, names);
      hide Boots, TokenStore.Run;
      BootsKeepDescription(states[..m + 1], calls[..m], names[..m], a, n);
      BootsKeepApart(states[..m + 1], calls[..m], names[..m]);
      StepKeepsSecrets(states[m], states[m + 1], calls[m], a);
      NotRedescribed(states[m], calls[m], names[m], a, n);
      StepKeepsDescription(states[m], states[m + 1], calls[m], a);
    }
  }

  lemma NotRedescribed(ts: Tokens, c: Call, m: TokenName, a: string, n: TokenName)
    requires CreatesToken(c, m) && Unambiguous(n) && AnonymousApart(ts) && a in ts && ts[a].description == Description(n)
    ensures !Redescribes(ts, c.request, a)
  {
    hide Description;
    if m == Anonymous && a == ANONYMOUS_ACCESSOR {
      assert n == Anonymous;
    }
  }

  /** A successful call's answer: the secret of the token that now bears the description. */
  ghost predicate Answers(us: Tokens, n: TokenName, secret: string) {
    exists a :: a in us && us[a].description == Description(n) && us[a].secret == secret
  }

  /** The request for the token of a name, as the boot makes it. */
  method CreateNamed(client: Store, n: TokenName, policies: seq<string>, accessor: string, secret: string)
    returns (r: Option<string>, ghost c: Call)
    requires accessor != "" && accessor !in client.tokens && "" !in client.tokens
    modifies client
    ensures TokenStore.Step(old(client.tokens), client.tokens, c) && CreatesToken(c, n)
    ensures r.Some? ==> Answers(client.tokens, n, r.value)
  {
    hide Description, MayBecome, Written, Adopted;
    var t := new ACLToken(Request(if n == Anonymous then ANONYMOUS_ACCESSOR else "", "", Description(n), policies));
    ghost var request := t.Contents();
    var answer;
    ghost var found;
    answer, found := CreateOrUpdateToken(client, t, accessor, secret);
    c := Call(request, found, accessor, secret);
    r := if answer.Some? then Some(answer.value.secret) else None;
  }

  lemma BootsBetween(states: seq<Tokens>, calls: seq<Call>, names: seq<TokenName>, i: nat, j: nat)
    requires Boots(states, calls, names) && i <= j <= |calls|
    ensures Boots(states[i..j + 1], calls[i..j], names[i..j])
  {
    var ss, cs, ns := states[i..j + 1], calls[i..j], names[i..j];
    hide TokenStore.Step, CreatesToken, Unambiguous;
    forall x, y | 0 <= x < |cs| && y == x + 1 ensures TokenStore.Step(ss[x], ss[y], cs[x]) {
      assert TokenStore.Step(states[i + x], states[i + y], calls[i + x]);
    }
    forall x | 0 <= x < |cs| ensures CreatesToken(cs[x], ns[x]) && Unambiguous(ns[x]) {
      assert cs[x] == calls[i + x] && ns[x] == names[i + x];
    }
  }

  /**
   * Whenever, in this boot or a later one, a call is answered for a name that was answered before, the answer is the
   * same secret, whatever was created in between.
   */
  lemma SameSecretOnEveryBoot(states: seq<Tokens>, calls: seq<Call>, names: seq<TokenName>, i: nat, j: nat, n: TokenName,
                              secret: string, later: string)
    requires Boots(states, calls, names) && UniqueDescriptions(states[0]) && Unambiguous(n) && i <= j <= |calls|
    requires ANONYMOUS_ACCESSOR in states[0] && AnonymousApart(states[0])
    requires Answers(states[i], n, secret) && Answers(states[j], n, later)
    ensures later == secret
  {
    hide Description, AnonymousApart, Unambiguous, UniqueDescriptions, Boots, TokenStore.Run;
    UpTo(states, calls, names, i);
    var a :| a in states[i] && states[i][a].description == Description(n) && states[i][a].secret == secret;
    var b :| b in states[j] && states[j][b].description == Description(n) && states[j][b].secret == later;
    BootsBetween(states, calls, names, i, j);
    assert states[i..j + 1][0] == states[i];
    BootsKeepDescription(states[i..j + 1], calls[i..j], names[i..j], a, n);
    UpTo(states, calls, names, j);
    OneBearer(states[j], a, b);
  }

  lemma UpTo(states: seq<Tokens>, calls: seq<Call>, names: seq<TokenName>, i: nat)
    requires Boots(states, calls, names) && UniqueDescriptions(states[0]) && i <= |calls|
    requires ANONYMOUS_ACCESSOR in states[0] && AnonymousApart(states[0])
    ensures |states| == |calls| + 1 && |names| == |calls|
    ensures UniqueDescriptions(states[i]) && ANONYMOUS_ACCESSOR in states[i] && AnonymousApart(states[i])
  {
    hide AnonymousApart, UniqueDescriptions, CreatesToken, Unambiguous, TokenStore.Step;
    BootsBetween(states, calls, names, 0, i);
    assert states[0..i + 1][0] == states[0] && states[0..i + 1][i] == states[i];
    RunKeepsTokens(states[0..i + 1], calls[0..i]);
    BootsKeepApart(states[0..i + 1], calls[0..i], names[0..i]);
  }

  lemma OneBearer(ts: Tokens, a: string, b: string)
    requires UniqueDescriptions(ts) && a in ts && b in ts && ts[a].description == ts[b].description
    ensures a == b
  {
  }
}
