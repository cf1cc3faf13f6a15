/**
 * app/boot.go: how ACL tokens are created, waited for, and only then released.
 *
 * The boot sequence is a script of atomic actions; a delayed write is the part of the script its closure
 * stands for.  Between any two actions, servers may come to read any token that was issued.
 */
module TokenProtocol {
  import opened Text
  import opened Identifiers
  import opened Config
  import opened Infra

  // ---------------------------------------------------------------- names

  datatype TokenName =
    | Master
    | Replication
    | Anonymous
    | MeshGateway(cluster: string)
    | Agent(node: string)
    | ServiceToken(cluster: string, id: Identifier)

  /** The description under which a token is created, and its name in the cache. */
  function Description(t: TokenName): string {
    match t
    case Master => "master"
    case Replication => "acl-replication"
    case Anonymous => "anonymous"
    case MeshGateway(c) => "mesh-gateway--" + c
    case Agent(n) => "agent--" + n
    case ServiceToken(c, id) => "service--" + c + "--" + id.Dotted()
  }

  /** The parts of a service token's name can be read off its description. */
  predicate Unambiguous(t: TokenName) {
    t.ServiceToken? ==> Lacks(t.cluster, '-') && Lacks(t.id.partition, '.') && Lacks(t.id.ns, '.')
  }

  /** Keys of the token table: "replication/" and "agent/<node>". */
  datatype TokenKey = ReplicationKey | AgentKey(node: string)

  lemma ServiceDescriptionInjective(a: TokenName, b: TokenName)
    requires a.ServiceToken? && b.ServiceToken? && Description(a) == Description(b)
    requires Lacks(a.cluster, '-') && Lacks(b.cluster, '-')
    requires Lacks(a.id.partition, '.') && Lacks(a.id.ns, '.') && Lacks(b.id.partition, '.') && Lacks(b.id.ns, '.')
    ensures a == b
  {
    hide Identifier.Dotted;
    var ra, rb := "-" + a.id.Dotted(), "-" + b.id.Dotted();
    assert Description(a) == "service--" + (a.cluster + ['-'] + ra);
    assert Description(b) == "service--" + (b.cluster + ['-'] + rb);
    assert Description(a)[9..] == a.cluster + ['-'] + ra && Description(b)[9..] == b.cluster + ['-'] + rb;
    JoinInjective(a.cluster, ra, b.cluster, rb, '-');
    assert ra[1..] == a.id.Dotted() && rb[1..] == b.id.Dotted();
    DottedInjective(a.id, b.id);
  }

  /** Different tokens have different descriptions, so no token is mistaken for another. */
  lemma DescriptionsInjective(a: TokenName, b: TokenName)
    requires Description(a) == Description(b) && Unambiguous(a) && Unambiguous(b)
    ensures a == b
  {
    hide Identifier.Dotted;
    var d := Description(a);
    assert d[0] == Description(b)[0] && d[1] == Description(b)[1] && d[2] == Description(b)[2];
    if a.ServiceToken? {
      ServiceDescriptionInjective(a, b);
    } else if a.MeshGateway? {
      assert d[14..] == a.cluster && Description(b)[14..] == b.cluster;
    } else if a.Agent? {
      assert d[7..] == a.node && Description(b)[7..] == b.node;
    }
  }

  // ---------------------------------------------------------------- actions and the world

  datatype Action =
    | MakeClients(cluster: string)
    | Create(name: TokenName)
    | SetToken(key: TokenKey, name: TokenName)
    | Wait(server: string, name: TokenName)
    | Save(name: TokenName)
    | MustGet(key: TokenKey)
    | Inject(node: Node)
    | InjectReplication(node: Node)
    | InjectLoop(nodes: seq<Node>)
    | CheckNodes(nodes: seq<Node>)
    | Refuse

  datatype Status = Running | Failed | Panicked

  datatype World = World(
    masterToken: string,
    secrets: map<TokenName, string>,           // what creating or updating each token returned
    tokens: map<TokenKey, string>,             // the table of tokens to hand out
    clients: set<string>,                      // servers with a client of their own
    minted: set<(TokenName, string)>,          // which secrets this run got for which token
    issued: set<string>,                       // secrets that exist in some store
    readable: set<(string, string)>,           // (server, secret) pairs the server can resolve
    cache: map<TokenName, string>,             // what this run saved
    given: map<Node, string>,                  // agent tokens handed out
    replicated: map<string, string>,           // replication tokens handed out
    status: Status)

  function ServerNames(walk: seq<Node>, cluster: string): set<string> {
    set i | 0 <= i < |walk| && walk[i].IsServer() && walk[i].cluster == cluster :: walk[i].name
  }

  function SecretOf(w: World, n: TokenName): string {
    if n == Master then w.masterToken else if n in w.secrets then w.secrets[n] else ""
  }

  /** What mustGetToken finds; the empty string is its panic. */
  function TokenFor(w: World, k: TokenKey): string { if k in w.tokens then w.tokens[k] else "" }

  /** Creating or updating a token returned this secret. */
  function Minted(w: World, n: TokenName, s: string): World {
    w.(secrets := w.secrets[n := s], minted := w.minted + {(n, s)}, issued := w.issued + {s})
  }

  function Handed(w: World, node: Node): World {
    var s := TokenFor(w, AgentKey(node.name));
    if s == "" then w.(status := Panicked) else w.(given := w.given[node := s])
  }

  function HandedReplication(w: World, server: Node): World {
    var s := TokenFor(w, ReplicationKey);
    if s == "" then w.(status := Panicked) else w.(replicated := w.replicated[server.name := s])
  }

  function Injections(nodes: seq<Node>): seq<Action> {
    seq(|nodes|, i requires 0 <= i < |nodes| => Inject(nodes[i]))
  }

  /** A wait is over at once for an empty secret; otherwise it panics without a client, or needs the server. */
  ghost predicate Waited(w: World, v: World, server: string, name: TokenName) {
    var s := SecretOf(w, name);
    if s == "" then v == w
    else if w.masterToken == "" || server !in w.clients then v == w.(status := Panicked)
    else (server, s) in w.readable && v == w
  }

  /** The program performs the first action of its script and goes on with the rest. */
  ghost predicate Performs(walk: seq<Node>, w: World, a: Action, rest: seq<Action>, v: World, next: seq<Action>) {
    match a
    case MakeClients(c) => v == w.(clients := w.clients + ServerNames(walk, c)) && next == rest
    case Create(n) =>
      n != Master && next == rest &&
      exists s :: v == Minted(w, n, s)
    case SetToken(k, n) => v == w.(tokens := w.tokens[k := SecretOf(w, n)]) && next == rest
    case Wait(server, n) => Waited(w, v, server, n) && next == rest
    case Save(n) => v == w.(cache := w.cache[n := SecretOf(w, n)]) && next == rest
    case MustGet(k) => v == (if TokenFor(w, k) == "" then w.(status := Panicked) else w) && next == rest
    case Inject(node) => v == Handed(w, node) && next == rest
    case InjectReplication(server) => v == HandedReplication(w, server) && next == rest
    case InjectLoop(nodes) => v == w && next == Injections(nodes) + [CheckNodes(nodes)] + rest
    case CheckNodes(nodes) => v == w && (next == rest || next == [InjectLoop(nodes)] + rest)
    case Refuse => v == w.(status := Failed) && next == rest
  }

  /** Replication: servers come to read more of the issued secrets, never fewer. */
  ghost predicate Replicates(w: World, v: World) {
    && w.readable <= v.readable && v == w.(readable := v.readable)
    && forall p :: p in v.readable && p !in w.readable ==> p.1 in w.issued
  }

  /** A call reports an error, and the program gives up; the call may have taken effect all the same. */
  ghost predicate Fails(walk: seq<Node>, w: World, a: Action, rest: seq<Action>, v: World) {
    || v == w.(status := Failed)
    || exists u, next :: Performs(walk, w, a, rest, u, next) && u.status == Running && v == u.(status := Failed)
  }

  /** One step: the program acts or its call fails, or the servers make progress. */
  ghost predicate Step(walk: seq<Node>, w: World, todo: seq<Action>, v: World, next: seq<Action>) {
    || (Replicates(w, v) && next == todo)
    || (w.status == Running && todo != [] &&
        (Performs(walk, w, todo[0], todo[1..], v, next) || (Fails(walk, w, todo[0], todo[1..], v) && next == todo)))
  }

  // ---------------------------------------------------------------- safety

  ghost predicate ReadableOnAll(w: World, servers: set<string>, secret: string) {
    secret == "" || forall s :: s in servers ==> (s, secret) in w.readable
  }

  /** The cluster whose services use a cached token. */
  function Home(n: TokenName): Option<string> {
    match n
    case MeshGateway(c) => Some(c)
    case ServiceToken(c, _) => Some(c)
    case _ => None
  }

  /** The secret is the one this run got for that very token, and all these servers can read it. */
  ghost predicate Released(w: World, servers: set<string>, n: TokenName, secret: string) {
    (n, secret) in w.minted && ReadableOnAll(w, servers, secret)
  }

  /** The cache holds each token under its own name, readable where it is used. */
  ghost predicate CacheSafe(walk: seq<Node>, w: World) {
    forall n :: n in w.cache ==> Home(n).Some? && Released(w, ServerNames(walk, Home(n).value), n, w.cache[n])
  }

  /** Every agent was handed its own token, readable on the servers of its cluster. */
  ghost predicate AgentsSafe(walk: seq<Node>, w: World) {
    forall n :: n in w.given ==> w.given[n] != "" && Released(w, ServerNames(walk, n.cluster), Agent(n.name), w.given[n])
  }

  /** Secondary servers were handed the replication token, readable on the servers of the primary. */
  ghost predicate ReplicationSafe(walk: seq<Node>, w: World) {
    forall s :: s in w.replicated ==>
      w.replicated[s] != "" && Released(w, ServerNames(walk, PRIMARY_CLUSTER), Replication, w.replicated[s])
  }

  /** The current secrets are among those this run got. */
  ghost predicate Recorded(w: World) {
    && (forall n :: n in w.secrets ==> (n, w.secrets[n]) in w.minted)
    && (forall p :: p in w.minted ==> p.0 in w.secrets)
  }

  /** Nothing was released to anyone else than intended, nor before every server concerned could read it. */
  ghost predicate Safe(walk: seq<Node>, w: World) {
    CacheSafe(walk, w) && AgentsSafe(walk, w) && ReplicationSafe(walk, w) && Recorded(w)
  }

  /** When every token keeps its secret, what an agent was handed is its token's current secret. */
  lemma HandedIsCurrent(walk: seq<Node>, w: World, n: Node)
    requires Safe(walk, w) && n in w.given
    requires forall p, q :: p in w.minted && q in w.minted && p.0 == q.0 ==> p.1 == q.1
    ensures Agent(n.name) in w.secrets && w.given[n] == w.secrets[Agent(n.name)]
  {
    hide ServerNames, CacheSafe, ReplicationSafe;
    var p, q := (Agent(n.name), w.given[n]), (Agent(n.name), w.secrets[Agent(n.name)]);
    assert p in w.minted && q in w.minted;
  }

  // ---------------------------------------------------------------- the static discipline of a script

  /** What is known at a point of a script on every run that gets there. */
  datatype Known = Known(
    waited: set<(string, TokenName)>,
    bound: map<TokenKey, TokenName>,
    clients: set<string>,
    made: set<TokenName>)

  predicate ReadyOn(k: Known, servers: set<string>, n: TokenName) { forall s :: s in servers ==> (s, n) in k.waited }

  /** The agent's own token is bound to it and was waited for on its servers. */
  predicate AgentReady(walk: seq<Node>, k: Known, node: Node) {
    && AgentKey(node.name) in k.bound && k.bound[AgentKey(node.name)] == Agent(node.name)
    && ReadyOn(k, ServerNames(walk, node.cluster), Agent(node.name))
  }

  predicate AgentsReady(walk: seq<Node>, k: Known, nodes: seq<Node>) {
    forall i :: 0 <= i < |nodes| ==> AgentReady(walk, k, nodes[i])
  }

  /** The replication token is bound and was waited for on the primary's servers. */
  predicate ReplicationReady(walk: seq<Node>, k: Known) {
    && ReplicationKey in k.bound && k.bound[ReplicationKey] == Replication
    && ReadyOn(k, ServerNames(walk, PRIMARY_CLUSTER), Replication)
  }

  /** An action is guarded when everything it releases is meant for the receiver and has been waited for. */
  predicate Guarded(walk: seq<Node>, k: Known, a: Action) {
    match a
    case MakeClients(_) => true
    case Create(n) => n != Master
    case SetToken(_, n) => n in k.made
    case Wait(s, n) => n in k.made && s in k.clients
    case Save(n) => n in k.made && Home(n).Some? && ReadyOn(k, ServerNames(walk, Home(n).value), n)
    case MustGet(key) => key in k.bound
    case Inject(node) => AgentReady(walk, k, node)
    case InjectReplication(_) => ReplicationReady(walk, k)
    case InjectLoop(nodes) => AgentsReady(walk, k, nodes)
    case CheckNodes(nodes) => AgentsReady(walk, k, nodes)
    case Refuse => true
  }

  function Forget(k: Known, n: TokenName): Known {
    k.(waited := (set p | p in k.waited && p.1 != n),
       bound := (map key | key in k.bound && k.bound[key] != n :: k.bound[key]))
  }

  /** What is known after an action. */
  function Learn(walk: seq<Node>, k: Known, a: Action): Known {
    match a
    case MakeClients(c) => k.(clients := k.clients + ServerNames(walk, c))
    case Create(n) => Forget(k, n).(made := k.made + {n})
    case SetToken(key, n) => k.(bound := k.bound[key := n])
    case Wait(s, n) => k.(waited := k.waited + {(s, n)})
    case _ => k
  }

  function After(walk: seq<Node>, k: Known, script: seq<Action>): Known
    decreases |script|
  {
    if script == [] then k else After(walk, Learn(walk, k, script[0]), script[1..])
  }

  predicate Disciplined(walk: seq<Node>, k: Known, script: seq<Action>)
    decreases |script|
  {
    script == [] || (Guarded(walk, k, script[0]) && Disciplined(walk, Learn(walk, k, script[0]), script[1..]))
  }

  lemma {:induction false} DisciplinedInTurn(walk: seq<Node>, k: Known, a: seq<Action>, b: seq<Action>)
    ensures Disciplined(walk, k, a + b) <==> Disciplined(walk, k, a) && Disciplined(walk, After(walk, k, a), b)
    ensures After(walk, k, a + b) == After(walk, After(walk, k, a), b)
    decreases |a|
  {
    hide Guarded, Learn;
    if a == [] {
      assert a + b == b;
    } else {
      assert (a + b)[1..] == a[1..] + b;
      DisciplinedInTurn(walk, Learn(walk, k, a[0]), a[1..], b);
    }
  }

  /** The world agrees with what is known at this point of the script. */
  ghost predicate Holds(w: World, k: Known) {
    && (forall p :: p in k.waited ==> SecretOf(w, p.1) == "" || (p.0, SecretOf(w, p.1)) in w.readable)
    && (forall key :: key in k.bound ==> key in w.tokens && w.tokens[key] == SecretOf(w, k.bound[key]))
    && k.clients <= w.clients
    && (forall key :: key in k.bound ==> k.bound[key] in k.made)
    && (forall n :: n in k.made && n != Master ==> n in w.secrets)
  }

  /** A panic needs an empty secret. */
  ghost predicate PanicsOnlyOnEmpty(w: World) {
    w.status == Panicked ==> w.masterToken == "" || exists n :: n in w.secrets && w.secrets[n] == ""
  }

  ghost predicate Invariant(walk: seq<Node>, w: World, todo: seq<Action>, k: Known) {
    && Safe(walk, w) && PanicsOnlyOnEmpty(w)
    && (w.status == Running ==> Holds(w, k) && Disciplined(walk, k, todo))
  }

  // ---------------------------------------------------------------- every step keeps the invariant

  /** More secrets and more readers keep releases safe. */
  lemma MoreIsSafe(walk: seq<Node>, w: World, v: World)
    requires Safe(walk, w) && w.minted <= v.minted && w.readable <= v.readable && Recorded(v)
    requires v.cache == w.cache && v.given == w.given && v.replicated == w.replicated
    ensures Safe(walk, v)
  {
    hide ServerNames, Recorded;
    MoreIsReleased(w, v);
    hide Released;
  }

  lemma MoreIsReleased(w: World, v: World)
    requires w.minted <= v.minted && w.readable <= v.readable
    ensures forall servers, n, s :: Released(w, servers, n, s) ==> Released(v, servers, n, s)
  {
  }

  lemma ReplicationKeeps(walk: seq<Node>, w: World, v: World, todo: seq<Action>, k: Known)
    requires Invariant(walk, w, todo, k) && Replicates(w, v)
    ensures Invariant(walk, v, todo, k)
  {
    MoreIsSafe(walk, w, v);
    hide Disciplined, ServerNames, Safe;
  }

  lemma CreateKeeps(walk: seq<Node>, w: World, v: World, k: Known, n: TokenName, s: string)
    requires Holds(w, k) && Safe(walk, w) && PanicsOnlyOnEmpty(w) && n != Master && w.status == Running
    requires v == Minted(w, n, s)
    ensures Holds(v, Learn(walk, k, Create(n))) && Safe(walk, v) && PanicsOnlyOnEmpty(v)
  {
    hide ServerNames;
    CreateRecords(walk, w, v, n, s);
    hide Safe;
    assert forall m :: m != n ==> SecretOf(v, m) == SecretOf(w, m);
  }

  lemma CreateRecords(walk: seq<Node>, w: World, v: World, n: TokenName, s: string)
    requires Safe(walk, w) && v == Minted(w, n, s)
    ensures Safe(walk, v)
  {
    hide ServerNames, CacheSafe, AgentsSafe, ReplicationSafe;
    assert Recorded(v);
    MoreIsSafe(walk, w, v);
  }

  /** What is ready on these servers may be released to them. */
  lemma ReadyIsReleased(walk: seq<Node>, w: World, k: Known, servers: set<string>, n: TokenName)
    requires Holds(w, k) && Safe(walk, w) && ReadyOn(k, servers, n) && n in k.made && n != Master
    ensures Released(w, servers, n, SecretOf(w, n))
  {
    hide ServerNames, CacheSafe, AgentsSafe, ReplicationSafe;
    forall s | s in servers ensures SecretOf(w, n) == "" || (s, SecretOf(w, n)) in w.readable {
      assert (s, n) in k.waited;
    }
  }

  /** Only an empty secret makes the lookup of a bound token panic. */
  lemma EmptyTokenPanic(w: World, k: Known, key: TokenKey)
    requires Holds(w, k) && key in k.bound && TokenFor(w, key) == ""
    ensures PanicsOnlyOnEmpty(w.(status := Panicked))
  {
    var n := k.bound[key];
    assert n in k.made && SecretOf(w, n) == "";
    assert n == Master || (n in w.secrets && w.secrets[n] == "");
  }

  /** Releases do not change what is known. */
  lemma ReleaseKeeps(w: World, v: World, k: Known)
    requires Holds(w, k) && PanicsOnlyOnEmpty(w) && w.status == Running
    requires v == w.(cache := v.cache, given := v.given, replicated := v.replicated)
    ensures Holds(v, k) && PanicsOnlyOnEmpty(v)
  {
  }

  lemma PanicKeepsSafe(walk: seq<Node>, w: World)
    requires Safe(walk, w)
    ensures Safe(walk, w.(status := Panicked)) && Safe(walk, w.(status := Failed))
  {
    MoreIsSafe(walk, w, w.(status := Panicked));
    MoreIsSafe(walk, w, w.(status := Failed));
    hide ServerNames;
  }

  lemma SaveKeeps(walk: seq<Node>, w: World, v: World, k: Known, n: TokenName)
    requires Holds(w, k) && Safe(walk, w) && PanicsOnlyOnEmpty(w) && w.status == Running && Guarded(walk, k, Save(n))
    requires v == w.(cache := w.cache[n := SecretOf(w, n)])
    ensures Holds(v, k) && Safe(walk, v) && PanicsOnlyOnEmpty(v)
  {
    ReadyIsReleased(walk, w, k, ServerNames(walk, Home(n).value), n);
    ReleaseKeeps(w, v, k);
    hide ServerNames, Holds, PanicsOnlyOnEmpty, SecretOf;
    SavedIsSafe(walk, w, n, SecretOf(w, n));
  }

  lemma SavedIsSafe(walk: seq<Node>, w: World, n: TokenName, s: string)
    requires Safe(walk, w) && Home(n).Some? && Released(w, ServerNames(walk, Home(n).value), n, s)
    ensures Safe(walk, w.(cache := w.cache[n := s]))
  {
    var v := w.(cache := w.cache[n := s]);
    hide ServerNames;
    MoreIsReleased(w, v);
    hide Released;
  }

  lemma GivenIsSafe(walk: seq<Node>, w: World, node: Node, s: string)
    requires Safe(walk, w) && s != "" && Released(w, ServerNames(walk, node.cluster), Agent(node.name), s)
    ensures Safe(walk, w.(given := w.given[node := s]))
  {
    var v := w.(given := w.given[node := s]);
    hide ServerNames;
    MoreIsReleased(w, v);
    hide Released;
  }

  lemma ReplicatedIsSafe(walk: seq<Node>, w: World, server: string, s: string)
    requires Safe(walk, w) && s != "" && Released(w, ServerNames(walk, PRIMARY_CLUSTER), Replication, s)
    ensures Safe(walk, w.(replicated := w.replicated[server := s]))
  {
    var v := w.(replicated := w.replicated[server := s]);
    hide ServerNames;
    MoreIsReleased(w, v);
    hide Released;
  }

  lemma BoundSecret(w: World, k: Known, key: TokenKey)
    requires Holds(w, k) && key in k.bound
    ensures TokenFor(w, key) == SecretOf(w, k.bound[key]) && k.bound[key] in k.made
  {
  }

  lemma InjectKeeps(walk: seq<Node>, w: World, v: World, k: Known, node: Node)
    requires Holds(w, k) && Safe(walk, w) && PanicsOnlyOnEmpty(w) && w.status == Running && Guarded(walk, k, Inject(node))
    requires v == Handed(w, node)
    ensures Safe(walk, v) && PanicsOnlyOnEmpty(v) && (v.status == Running ==> Holds(v, k))
    ensures v.status == Running ==> v.given[node] == SecretOf(w, Agent(node.name))
  {
    var key, n := AgentKey(node.name), Agent(node.name);
    BoundSecret(w, k, key);
    hide Safe, Holds, SecretOf, PanicsOnlyOnEmpty, ServerNames, Released, TokenFor;
    if TokenFor(w, key) == "" {
      EmptyTokenPanic(w, k, key);
      PanicKeepsSafe(walk, w);
    } else {
      ReadyIsReleased(walk, w, k, ServerNames(walk, node.cluster), n);
      GivenIsSafe(walk, w, node, SecretOf(w, n));
      ReleaseKeeps(w, v, k);
    }
  }

  lemma InjectReplicationKeeps(walk: seq<Node>, w: World, v: World, k: Known, node: Node)
    requires Holds(w, k) && Safe(walk, w) && PanicsOnlyOnEmpty(w) && w.status == Running
    requires Guarded(walk, k, InjectReplication(node)) && v == HandedReplication(w, node)
    ensures Safe(walk, v) && PanicsOnlyOnEmpty(v) && (v.status == Running ==> Holds(v, k))
    ensures v.status == Running ==> v.replicated[node.name] == SecretOf(w, Replication)
  {
    BoundSecret(w, k, ReplicationKey);
    hide Safe, Holds, SecretOf, PanicsOnlyOnEmpty, ServerNames, Released, TokenFor;
    if TokenFor(w, ReplicationKey) == "" {
      EmptyTokenPanic(w, k, ReplicationKey);
      PanicKeepsSafe(walk, w);
    } else {
      ReadyIsReleased(walk, w, k, ServerNames(walk, PRIMARY_CLUSTER), Replication);
      ReplicatedIsSafe(walk, w, node.name, SecretOf(w, Replication));
      ReleaseKeeps(w, v, k);
    }
  }

  lemma MakeClientsKeeps(walk: seq<Node>, w: World, v: World, k: Known, c: string)
    requires Holds(w, k) && Safe(walk, w) && PanicsOnlyOnEmpty(w)
    requires v == w.(clients := w.clients + ServerNames(walk, c))
    ensures Safe(walk, v) && PanicsOnlyOnEmpty(v) && Holds(v, Learn(walk, k, MakeClients(c)))
  {
    MoreIsSafe(walk, w, v);
    hide ServerNames, Safe;
  }

  lemma SetTokenKeeps(walk: seq<Node>, w: World, v: World, k: Known, key: TokenKey, n: TokenName)
    requires Holds(w, k) && Safe(walk, w) && PanicsOnlyOnEmpty(w) && n in k.made
    requires v == w.(tokens := w.tokens[key := SecretOf(w, n)])
    ensures Safe(walk, v) && PanicsOnlyOnEmpty(v) && Holds(v, Learn(walk, k, SetToken(key, n)))
  {
    hide ServerNames, CacheSafe, AgentsSafe, ReplicationSafe;
    MoreIsSafe(walk, w, v);
    hide Safe, Recorded;
  }

  lemma WaitKeeps(walk: seq<Node>, w: World, v: World, k: Known, server: string, n: TokenName)
    requires Holds(w, k) && Safe(walk, w) && PanicsOnlyOnEmpty(w) && w.status == Running
    requires n in k.made && server in k.clients && Waited(w, v, server, n)
    ensures Safe(walk, v) && PanicsOnlyOnEmpty(v) && (v.status == Running ==> Holds(v, Learn(walk, k, Wait(server, n))))
  {
    PanicKeepsSafe(walk, w);
    hide ServerNames, Safe;
  }

  lemma MustGetKeeps(walk: seq<Node>, w: World, k: Known, key: TokenKey)
    requires Holds(w, k) && Safe(walk, w) && PanicsOnlyOnEmpty(w) && w.status == Running && key in k.bound
    ensures var v := if TokenFor(w, key) == "" then w.(status := Panicked) else w;
            Safe(walk, v) && PanicsOnlyOnEmpty(v) && (v.status == Running ==> Holds(v, k))
  {
    PanicKeepsSafe(walk, w);
    hide ServerNames, Safe;
    if TokenFor(w, key) == "" {
      EmptyTokenPanic(w, k, key);
    }
  }

  lemma {:induction false} InjectionsDisciplined(walk: seq<Node>, k: Known, nodes: seq<Node>, tail: seq<Action>)
    requires AgentsReady(walk, k, nodes) && Disciplined(walk, k, tail)
    ensures Disciplined(walk, k, Injections(nodes) + tail)
  {
    hide AgentReady;
    if nodes == [] {
      assert Injections(nodes) + tail == tail;
    } else {
      var script := Injections(nodes) + tail;
      assert script[0] == Inject(nodes[0]);
      assert script[1..] == Injections(nodes[1..]) + tail;
      InjectionsDisciplined(walk, k, nodes[1..], tail);
    }
  }

  lemma LoopKeeps(walk: seq<Node>, k: Known, a: Action, rest: seq<Action>, next: seq<Action>)
    requires Disciplined(walk, k, [a] + rest) && (a.InjectLoop? || a.CheckNodes?)
    requires next == rest || next == [InjectLoop(a.nodes)] + rest || next == Injections(a.nodes) + [CheckNodes(a.nodes)] + rest
    ensures Disciplined(walk, k, next)
  {
    assert ([a] + rest)[1..] == rest;
    assert AgentsReady(walk, k, a.nodes) && Disciplined(walk, k, rest);
    var again, check := [InjectLoop(a.nodes)] + rest, [CheckNodes(a.nodes)] + rest;
    assert again[1..] == rest && check[1..] == rest;
    hide AgentsReady;
    assert Disciplined(walk, k, again) && Disciplined(walk, k, check);
    InjectionsDisciplined(walk, k, a.nodes, check);
    assert Injections(a.nodes) + [CheckNodes(a.nodes)] + rest == Injections(a.nodes) + check;
  }

  lemma ActionKeeps(walk: seq<Node>, w: World, v: World, k: Known, a: Action, rest: seq<Action>, next: seq<Action>)
    returns (k': Known)
    requires Invariant(walk, w, [a] + rest, k) && w.status == Running && Performs(walk, w, a, rest, v, next)
    ensures Invariant(walk, v, next, k')
  {
    assert ([a] + rest)[1..] == rest;
    assert Guarded(walk, k, a) && Disciplined(walk, Learn(walk, k, a), rest);
    k' := Learn(walk, k, a);
    hide Safe, Holds, Guarded, Disciplined, ServerNames, PanicsOnlyOnEmpty, Injections, Handed, HandedReplication;
    match a {
      case Create(n) =>
        var s :| v == Minted(w, n, s);
        CreateKeeps(walk, w, v, k, n, s);
      case Save(n) => SaveKeeps(walk, w, v, k, n);
      case Inject(node) => InjectKeeps(walk, w, v, k, node);
      case InjectReplication(node) => InjectReplicationKeeps(walk, w, v, k, node);
      case InjectLoop(nodes) => LoopKeeps(walk, k, a, rest, next);
      case CheckNodes(nodes) => LoopKeeps(walk, k, a, rest, next);
      case Refuse => FailureKeeps(walk, w, k, next);
      case MakeClients(c) => MakeClientsKeeps(walk, w, v, k, c);
      case SetToken(key, n) => SetTokenKeeps(walk, w, v, k, key, n);
      case Wait(server, n) => WaitKeeps(walk, w, v, k, server, n);
      case MustGet(key) => MustGetKeeps(walk, w, k, key);
    }
  }

  lemma FailureKeeps(walk: seq<Node>, w: World, k: Known, next: seq<Action>)
    requires Safe(walk, w) && w.status == Running
    ensures Invariant(walk, w.(status := Failed), next, k)
  {
    PanicKeepsSafe(walk, w);
    hide ServerNames, Safe;
  }

  /** A call that took effect and then failed leaves what it would have left, so nothing unsafe. */
  lemma LateFailureKeeps(walk: seq<Node>, w: World, v: World, k: Known, a: Action, rest: seq<Action>) returns (k': Known)
    requires Invariant(walk, w, [a] + rest, k) && w.status == Running && Fails(walk, w, a, rest, v)
    requires v != w.(status := Failed)
    ensures Invariant(walk, v, [a] + rest, k')
  {
    hide Performs, Safe, Holds, Disciplined, PanicsOnlyOnEmpty;
    var u, next :| Performs(walk, w, a, rest, u, next) && u.status == Running && v == u.(status := Failed);
    k' := ActionKeeps(walk, w, u, k, a, rest, next);
    FailureKeeps(walk, u, k', [a] + rest);
  }

  lemma StepKeeps(walk: seq<Node>, w: World, todo: seq<Action>, v: World, next: seq<Action>, k: Known) returns (k': Known)
    requires Invariant(walk, w, todo, k) && Step(walk, w, todo, v, next)
    ensures Invariant(walk, v, next, k')
  {
    if Replicates(w, v) && next == todo {
      ReplicationKeeps(walk, w, v, todo, k);
      k' := k;
    } else if v == w.(status := Failed) && next == todo {
      FailureKeeps(walk, w, k, next);
      k' := k;
    } else {
      assert todo == [todo[0]] + todo[1..];
      hide Invariant, Performs;
      if Performs(walk, w, todo[0], todo[1..], v, next) {
        k' := ActionKeeps(walk, w, v, k, todo[0], todo[1..], next);
      } else {
        k' := LateFailureKeeps(walk, w, v, k, todo[0], todo[1..]);
      }
    }
  }

  // ---------------------------------------------------------------- runs

  datatype Moment = Moment(world: World, todo: seq<Action>)

  ghost predicate Run(walk: seq<Node>, ms: seq<Moment>) {
    && |ms| > 0
    && forall i, j :: 0 <= i && j == i + 1 && j < |ms| ==>
         Step(walk, ms[i].world, ms[i].todo, ms[j].world, ms[j].todo)
  }

  /** Nothing has been created, released or handed out yet in this run; whatever servers already read is fine. */
  predicate Starts(w: World) {
    && w.secrets == map[] && w.minted == {} && w.status == Running
    && w.cache == map[] && w.given == map[] && w.replicated == map[]
  }

  const NOTHING_KNOWN := Known({}, map[], {}, {Master})

  lemma StartHolds(walk: seq<Node>, w: World, script: seq<Action>)
    requires Starts(w) && Disciplined(walk, NOTHING_KNOWN, script)
    ensures Invariant(walk, w, script, NOTHING_KNOWN)
  {
  }

  lemma {:induction false} RunKeepsInvariant(walk: seq<Node>, ms: seq<Moment>) returns (k: Known)
    requires Run(walk, ms) && Starts(ms[0].world) && Disciplined(walk, NOTHING_KNOWN, ms[0].todo)
    ensures Invariant(walk, ms[|ms| - 1].world, ms[|ms| - 1].todo, k)
  {
    hide Invariant, Step, Starts, Disciplined;
    if |ms| == 1 {
      StartHolds(walk, ms[0].world, ms[0].todo);
      k := NOTHING_KNOWN;
    } else {
      var n := |ms| - 1;
      assert Step(walk, ms[n - 1].world, ms[n - 1].todo, ms[n].world, ms[n].todo);
      k := RunKeepsInvariant(walk, ms[..n]);
      k := StepKeeps(walk, ms[n - 1].world, ms[n - 1].todo, ms[n].world, ms[n].todo, k);
    }
  }

  /**
   * In every reachable state of a disciplined script, under any interleaving with replication, whatever
   * was saved, given or replicated is the receiver's own token and readable on every server concerned.
   */
  lemma DisciplinedRunsAreSafe(walk: seq<Node>, ms: seq<Moment>)
    requires Run(walk, ms) && Starts(ms[0].world) && Disciplined(walk, NOTHING_KNOWN, ms[0].todo)
    ensures Safe(walk, ms[|ms| - 1].world) && PanicsOnlyOnEmpty(ms[|ms| - 1].world)
  {
    var k := RunKeepsInvariant(walk, ms);
  }

  // ---------------------------------------------------------------- deliveries

  /** What a script owes; a refusal is owed by a script that cannot end well. */
  datatype Delivery = Saved(name: TokenName) | Given(node: Node) | Replicated(server: string) | Refusal

  function Due(a: Action): set<Delivery> {
    match a
    case Save(n) => {Saved(n)}
    case Inject(node) => {Given(node)}
    case InjectReplication(server) => {Replicated(server.name)}
    case InjectLoop(nodes) => set i | 0 <= i < |nodes| :: Given(nodes[i])
    case Refuse => {Refusal}
    case _ => {}
  }

  function DueIn(script: seq<Action>): set<Delivery> {
    set i, d | 0 <= i < |script| && d in Due(script[i]) :: d
  }

  predicate Delivered(w: World, d: Delivery) {
    match d
    case Saved(n) => n in w.cache
    case Given(n) => n in w.given
    case Replicated(s) => s in w.replicated
    case Refusal => false
  }

  /** Everything once due is delivered or still ahead, unless the run failed or panicked. */
  predicate OnTrack(w: World, todo: seq<Action>, due: set<Delivery>) {
    w.status == Running ==> forall d :: d in due ==> Delivered(w, d) || d in DueIn(todo)
  }

  lemma DueInTurn(a: seq<Action>, b: seq<Action>)
    ensures DueIn(a + b) == DueIn(a) + DueIn(b)
  {
    hide Due;
    forall d | d in DueIn(a) ensures d in DueIn(a + b) {
      var i :| 0 <= i < |a| && d in Due(a[i]);
      assert (a + b)[i] == a[i];
    }
    forall d | d in DueIn(b) ensures d in DueIn(a + b) {
      var i :| 0 <= i < |b| && d in Due(b[i]);
      assert (a + b)[|a| + i] == b[i];
    }
  }

  lemma DueInInjections(nodes: seq<Node>)
    ensures DueIn(Injections(nodes)) == Due(InjectLoop(nodes))
  {
    forall d | d in Due(InjectLoop(nodes)) ensures d in DueIn(Injections(nodes)) {
      var i :| 0 <= i < |nodes| && d == Given(nodes[i]);
      assert d in Due(Injections(nodes)[i]);
    }
  }

  lemma DueInOne(a: Action)
    ensures DueIn([a]) == Due(a)
  {
    hide Due;
    assert forall d :: d in Due(a) ==> d in Due([a][0]);
  }

  lemma ActionKeepsOnTrack(walk: seq<Node>, w: World, v: World, a: Action, rest: seq<Action>, next: seq<Action>, due: set<Delivery>)
    requires OnTrack(w, [a] + rest, due) && w.status == Running && Performs(walk, w, a, rest, v, next)
    ensures OnTrack(v, next, due)
  {
    DueInTurn([a], rest);
    DueInOne(a);
    if a.InjectLoop? {
      DueInTurn(Injections(a.nodes), [CheckNodes(a.nodes)]);
      DueInTurn(Injections(a.nodes) + [CheckNodes(a.nodes)], rest);
      DueInInjections(a.nodes);
    } else if a.CheckNodes? {
      DueInTurn([InjectLoop(a.nodes)], rest);
    }
    hide DueIn, Injections, ServerNames;
  }

  lemma {:induction false} RunStaysOnTrack(walk: seq<Node>, ms: seq<Moment>)
    requires Run(walk, ms)
    ensures OnTrack(ms[|ms| - 1].world, ms[|ms| - 1].todo, DueIn(ms[0].todo))
  {
    hide Step, DueIn;
    if |ms| > 1 {
      var n := |ms| - 1;
      var a, b := ms[n - 1], ms[n];
      assert Step(walk, a.world, a.todo, b.world, b.todo);
      RunStaysOnTrack(walk, ms[..n]);
      assert OnTrack(a.world, a.todo, DueIn(ms[0].todo));
      StepStaysOnTrack(walk, a.world, a.todo, b.world, b.todo, DueIn(ms[0].todo));
    }
  }

  lemma StepStaysOnTrack(walk: seq<Node>, w: World, todo: seq<Action>, v: World, next: seq<Action>, due: set<Delivery>)
    requires OnTrack(w, todo, due) && Step(walk, w, todo, v, next)
    ensures OnTrack(v, next, due)
  {
    hide DueIn;
    if Replicates(w, v) && next == todo {
      assert forall d :: Delivered(v, d) == Delivered(w, d);
    } else if Fails(walk, w, todo[0], todo[1..], v) {
      assert v.status == Failed;
    } else {
      assert todo == [todo[0]] + todo[1..];
      hide Performs, OnTrack;
      ActionKeepsOnTrack(walk, w, v, todo[0], todo[1..], next, due);
    }
  }

  /** A run that gets to the end of its script has delivered everything the script was to deliver, and refused nothing. */
  lemma FinishedRunsDeliver(walk: seq<Node>, ms: seq<Moment>)
    requires Run(walk, ms) && ms[|ms| - 1].todo == [] && ms[|ms| - 1].world.status == Running
    ensures forall d :: d in DueIn(ms[0].todo) ==> Delivered(ms[|ms| - 1].world, d)
  {
    RunStaysOnTrack(walk, ms);
  }
}
