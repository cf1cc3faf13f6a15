/** consulfunc/acl.go: tokens found by description, then updated or created. */
module TokenStore {
  import opened Text
  import opened Sorting

  /** A token as the server keeps it, filed under its accessor. */
  datatype Token = Token(secret: string, description: string, policies: seq<string>)

  type Tokens = map<string, Token>

  /** What a caller asks for; the accessor and secret may be preset. */
  datatype Request = Request(accessor: string, secret: string, description: string, policies: seq<string>)

  /** The struct the caller passes by pointer. */
  class ACLToken {
    var accessorID: string
    var secretID: string
    var description: string
    var policies: seq<string>

    constructor (r: Request)
      ensures Contents() == r
    {
      accessorID, secretID, description, policies := r.accessor, r.secret, r.description, r.policies;
    }

    function Contents(): Request reads this { Request(accessorID, secretID, description, policies) }
  }

  // ---------------------------------------------------------------- the remote operations

  /** An update needs an existing token and cannot change its secret. */
  function UpdatedToken(ts: Tokens, r: Request): Option<Token> {
    if r.accessor in ts && (r.secret == "" || r.secret == ts[r.accessor].secret)
    then Some(Token(ts[r.accessor].secret, r.description, r.policies))
    else None
  }

  class Store {
    var tokens: Tokens

    constructor (ts: Tokens)
      ensures tokens == ts
    {
      tokens := ts;
    }

    /** Accessor and description of every token, in some order; None is a failed read. */
    method TokenList() returns (r: Option<seq<(string, string)>>)
      ensures r.Some? ==> Enumerates(r.value, set a | a in tokens :: (a, tokens[a].description))
    {
      var out := [];
      var todo := tokens.Keys;
      while todo != {}
        invariant todo <= tokens.Keys
        invariant Enumerates(out, set a | a in tokens.Keys - todo :: (a, tokens[a].description))
      {
        var a :| a in todo;
        ghost var before := set b | b in tokens.Keys - todo :: (b, tokens[b].description);
        EnumerateOneMore(out, before, (a, tokens[a].description));
        todo := todo - {a};
        out := out + [(a, tokens[a].description)];
        assert before + {(a, tokens[a].description)} == set b | b in tokens.Keys - todo :: (b, tokens[b].description);
      }
      assert tokens.Keys - todo == tokens.Keys;
      var answered: bool := *;
      r := if answered then Some(out) else None;
    }

    method TokenRead(accessor: string) returns (r: Option<Token>)
      ensures r.Some? ==> accessor in tokens && r.value == tokens[accessor]
    {
      var answered: bool := *;
      r := if answered && accessor in tokens then Some(tokens[accessor]) else None;
    }

    /** A failed update may still have taken effect. */
    method TokenUpdate(t: ACLToken) returns (r: Option<Request>)
      modifies this
      ensures tokens == old(tokens) ||
              (UpdatedToken(old(tokens), t.Contents()).Some? &&
               tokens == old(tokens)[t.accessorID := UpdatedToken(old(tokens), t.Contents()).value])
      ensures r.Some? ==> UpdatedToken(old(tokens), t.Contents()).Some? &&
                          tokens == old(tokens)[t.accessorID := UpdatedToken(old(tokens), t.Contents()).value] &&
                          r.value == t.Contents().(secret := tokens[t.accessorID].secret)
    {
      var reached: bool, answered: bool := *, *;
      var u := UpdatedToken(tokens, t.Contents());
      if u.None? || !reached {
        return None;
      }
      tokens := tokens[t.accessorID := u.value];
      r := if answered then Some(t.Contents().(secret := u.value.secret)) else None;
    }

    /** The server draws the accessor, and the secret unless one is given. */
    method TokenCreate(t: ACLToken, accessor: string, secret: string) returns (r: Option<Request>)
      requires t.accessorID == "" && accessor != "" && accessor !in tokens
      modifies this
      ensures var made := Token(if t.secretID != "" then t.secretID else secret, t.description, t.policies);
              (tokens == old(tokens) || tokens == old(tokens)[accessor := made]) &&
              (r.Some? ==> tokens == old(tokens)[accessor := made] &&
                           r.value == t.Contents().(accessor := accessor, secret := made.secret))
    {
      var reached: bool, answered: bool := *, *;
      if !reached {
        return None;
      }
      var made := Token(if t.secretID != "" then t.secretID else secret, t.description, t.policies);
      tokens := tokens[accessor := made];
      r := if answered then Some(t.Contents().(accessor := accessor, secret := made.secret)) else None;
    }
  }

  // ---------------------------------------------------------------- create or update

  /** found is a token of that description, or none has it. */
  ghost predicate Finds(ts: Tokens, description: string, found: Option<string>) {
    match found
    case Some(a) => a in ts && ts[a].description == description
    case None => forall a :: a in ts ==> ts[a].description != description
  }

  datatype Lookup = LookupFailed | Looked(found: Option<(string, Token)>)

  method GetTokenByDescription(client: Store, description: string) returns (r: Lookup)
    ensures r.Looked? && r.found.None? ==> Finds(client.tokens, description, None)
    ensures r.Looked? && r.found.Some? ==>
              Finds(client.tokens, description, Some(r.found.value.0)) &&
              r.found.value.1 == client.tokens[r.found.value.0]
  {
    var list := client.TokenList();
    if list.None? {
      return LookupFailed;
    }
    var tokens := list.value;
    for i := 0 to |tokens|
      invariant forall k :: 0 <= k < i ==> tokens[k].1 != description
    {
      if tokens[i].1 == description {
        assert tokens[i] in Elements(tokens);
        var token := client.TokenRead(tokens[i].0);
        if token.None? {
          return LookupFailed;
        }
        return Looked(Some((tokens[i].0, token.value)));
      }
    }
    forall a | a in client.tokens ensures client.tokens[a].description != description {
      assert (a, client.tokens[a].description) in Elements(tokens);
    }
    return Looked(None);
  }

  /** The request once a token of its description has lent it its ids. */
  function Adopted(ts: Tokens, r: Request, found: Option<string>): Request
    requires found.Some? ==> found.value in ts
  {
    if found.Some? then r.(accessor := found.value, secret := ts[found.value].secret) else r
  }

  /** The store after a call that took effect; None when the server refuses. */
  function Written(ts: Tokens, r: Request, accessor: string, secret: string): Option<Tokens> {
    if r.accessor != "" then
      if UpdatedToken(ts, r).Some? then Some(ts[r.accessor := UpdatedToken(ts, r).value]) else None
    else Some(ts[accessor := Token(if r.secret != "" then r.secret else secret, r.description, r.policies)])
  }

  /** What one call may do to the store: nothing, or the write the lookup calls for. */
  ghost predicate MayBecome(ts: Tokens, us: Tokens, r: Request, found: Option<string>, accessor: string, secret: string) {
    us == ts ||
    (Finds(ts, r.description, found) && Written(ts, Adopted(ts, r, found), accessor, secret) == Some(us))
  }

  method CreateOrUpdateToken(client: Store, t: ACLToken, accessor: string, secret: string)
    returns (r: Option<Request>, ghost found: Option<string>)
    requires accessor != "" && accessor !in client.tokens
    requires "" !in client.tokens
    modifies client, t
    ensures MayBecome(old(client.tokens), client.tokens, old(t.Contents()), found, accessor, secret)
    ensures r.Some? ==> Finds(old(client.tokens), old(t.description), found) &&
                        Written(old(client.tokens), Adopted(old(client.tokens), old(t.Contents()), found), accessor, secret)
                        == Some(client.tokens)
    ensures r.Some? ==> r.value.accessor in client.tokens && r.value.description == old(t.description) &&
                        client.tokens[r.value.accessor].description == old(t.description) &&
                        client.tokens[r.value.accessor].secret == r.value.secret &&
                        client.tokens[r.value.accessor].policies == old(t.policies) &&
                        client.tokens.Keys == old(client.tokens).Keys + {r.value.accessor} &&
                        forall a :: a in old(client.tokens) && a != r.value.accessor ==> client.tokens[a] == old(client.tokens)[a]
    ensures t.description == old(t.description) && t.policies == old(t.policies)
    ensures found.Some? ==> Finds(old(client.tokens), old(t.description), found)
    ensures t.Contents() == Adopted(old(client.tokens), old(t.Contents()), found)
  {
    found := None;
    var current := GetTokenByDescription(client, t.description);
    if current.LookupFailed? {
      return None, found;
    }
    if current.found.Some? {
      t.accessorID := current.found.value.0;
      t.secretID := current.found.value.1.secret;
      found := Some(t.accessorID);
    }
    assert t.Contents() == Adopted(old(client.tokens), old(t.Contents()), found);
    if t.accessorID != "" {
      r := client.TokenUpdate(t);
      return;
    }
    r := client.TokenCreate(t, accessor, secret);
  }

  // ---------------------------------------------------------------- what every call keeps

  ghost predicate UniqueDescriptions(ts: Tokens) {
    forall a, b :: a in ts && b in ts && ts[a].description == ts[b].description ==> a == b
  }

  /** The call re-describes the token its preset accessor names. */
  ghost predicate Redescribes(ts: Tokens, r: Request, a: string) {
    a != "" && r.accessor == a && Finds(ts, r.description, None)
  }

  datatype Call = Call(request: Request, found: Option<string>, accessor: string, secret: string)

  /** One call of a run: the drawn accessor is new, and no accessor is empty. */
  ghost predicate Step(ts: Tokens, us: Tokens, c: Call) {
    && "" !in ts && c.accessor != "" && c.accessor !in ts
    && MayBecome(ts, us, c.request, c.found, c.accessor, c.secret)
  }

  lemma StepKeepsUnique(ts: Tokens, us: Tokens, c: Call)
    requires UniqueDescriptions(ts) && Step(ts, us, c)
    ensures UniqueDescriptions(us)
  {
  }

  lemma StepKeepsSecrets(ts: Tokens, us: Tokens, c: Call, a: string)
    requires Step(ts, us, c) && a in ts
    ensures a in us && us[a].secret == ts[a].secret
  {
  }

  lemma StepKeepsDescription(ts: Tokens, us: Tokens, c: Call, a: string)
    requires Step(ts, us, c) && a in ts && !Redescribes(ts, c.request, a)
    ensures a in us && us[a].description == ts[a].description
  {
  }

  /** A call that takes effect changes a token's description exactly when it re-describes that token. */
  lemma StepRedescribesExactly(ts: Tokens, us: Tokens, c: Call, a: string)
    requires Step(ts, us, c) && a in ts && us != ts
    ensures a in us && (us[a].description != ts[a].description <==> Redescribes(ts, c.request, a))
  {
  }

  /**
   * What a call that takes effect writes, and nothing else: the token of its description, or else the one its preset
   * accessor names, gets the description and policies and keeps its secret; without either a token is made.
   */
  lemma StepWritesExactly(ts: Tokens, us: Tokens, c: Call)
    requires Step(ts, us, c) && us != ts
    ensures match c.found
            case Some(a) =>
              a in ts && ts[a].description == c.request.description &&
              us == ts[a := Token(ts[a].secret, c.request.description, c.request.policies)]
            case None =>
              (forall a :: a in ts ==> ts[a].description != c.request.description) &&
              if c.request.accessor != "" then
                c.request.accessor in ts &&
                us == ts[c.request.accessor := Token(ts[c.request.accessor].secret, c.request.description, c.request.policies)]
              else
                us == ts[c.accessor := Token(if c.request.secret != "" then c.request.secret else c.secret,
                                             c.request.description, c.request.policies)]
  {
  }

  /** The server never refuses the call when a token of the description exists, whatever ids the request came with. */
  lemma FoundIsNeverRefused(ts: Tokens, r: Request, a: string, accessor: string, secret: string)
    requires "" !in ts && a in ts
    ensures Written(ts, Adopted(ts, r, Some(a)), accessor, secret)
         == Some(ts[a := Token(ts[a].secret, r.description, r.policies)])
  {
  }

  ghost predicate Run(states: seq<Tokens>, calls: seq<Call>) {
    && |states| == |calls| + 1
    && forall i, j :: 0 <= i < |calls| && j == i + 1 ==> Step(states[i], states[j], calls[i])
  }

  lemma RunPrefix(states: seq<Tokens>, calls: seq<Call>)
    requires Run(states, calls) && |calls| > 0
    ensures Run(states[..|calls|], calls[..|calls| - 1])
    ensures Step(states[|calls| - 1], states[|calls|], calls[|calls| - 1])
  {
  }

  /** Over every run, descriptions stay unique and no token is lost or given another secret. */
  lemma {:induction false} RunKeepsTokens(states: seq<Tokens>, calls: seq<Call>)
    requires Run(states, calls) && UniqueDescriptions(states[0])
    ensures UniqueDescriptions(states[|calls|])
    ensures forall a :: a in states[0] ==> a in states[|calls|] && states[|calls|][a].secret == states[0][a].secret
  {
    hide Step, UniqueDescriptions;
    if |calls| > 0 {
      var n := |calls|;
      RunPrefix(states, calls);
      hide Run;
      RunKeepsTokens(states[..n], calls[..n - 1]);
      StepKeepsUnique(states[n - 1], states[n], calls[n - 1]);
      forall a | a in states[0] ensures a in states[n] && states[n][a].secret == states[0][a].secret {
        StepKeepsSecrets(states[n - 1], states[n], calls[n - 1], a);
      }
    }
  }

  /** Over every run, a token keeps its description unless a preset accessor re-describes it. */
  lemma {:induction false} RunKeepsDescription(states: seq<Tokens>, calls: seq<Call>, a: string)
    requires Run(states, calls) && a in states[0]
    requires forall i :: 0 <= i < |calls| ==> !Redescribes(states[i], calls[i].request, a)
    ensures a in states[|calls|] && states[|calls|][a].description == states[0][a].description
  {
    hide Step, Redescribes;
    if |calls| > 0 {
      var n := |calls|;
      RunPrefix(states, calls);
      hide Run;
      RunKeepsDescription(states[..n], calls[..n - 1], a);
      StepKeepsDescription(states[n - 1], states[n], calls[n - 1], a);
    }
  }

  /** So whoever asks again for a description is answered with the same accessor and secret. */
  lemma AskingAgainFindsTheSame(states: seq<Tokens>, calls: seq<Call>, a: string, again: Option<string>)
    requires Run(states, calls) && UniqueDescriptions(states[0]) && a in states[0]
    requires forall i :: 0 <= i < |calls| ==> !Redescribes(states[i], calls[i].request, a)
    requires Finds(states[|calls|], states[0][a].description, again)
    ensures again == Some(a) && states[|calls|][a].secret == states[0][a].secret
  {
    RunKeepsTokens(states, calls);
    RunKeepsDescription(states, calls, a);
  }
}
