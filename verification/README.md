# devconsul: a verified model of its stateful core

devconsul turns one configuration into a set of Consul clusters and then drives remote servers until they
match it. This project models the parts of it that hold state or decide something globally, and proves what
they achieve:

- **The topology compiler** (`Config`, `Infra`, `Compile`). A configuration is validated, then compiled: every
  cluster gets numbered servers, an infra pod and numbered clients, each with names and addresses made by
  string and octet arithmetic. `NameFacts` and `AddressFacts` prove which names and addresses that gives, and
  `AgentConfig` that reading them back never panics. `CompileFacts`, `NodeFacts` and `AgentFacts` say, in terms of
  the configuration alone, what compiles, what each node is, and what its agent is told.
- **The catalog of agentless nodes** (`CatalogDefs`, `GenCatalog`, `CatalogFacts`). Maps filled during a walk
  are flattened in map order and sorted into one canonical definition, which meets what the sync assumes of it.
- **The initial sync** (`CatalogStore`, `InitialSync`, `SyncFacts`, `SyncConvergence`, `CatalogContents`): read a
  snapshot, register what is wanted, deregister what is left over, from any prior state and after any number of
  broken-off runs. `PodFacts` follows one pod from the configuration to what the catalog holds of it.
- **The health cache** (`HealthSync`): a lazily built nested map that decides which register calls are made.
- **ACL tokens** (`TokenStore`, `TokenProtocol`, `TokenIdentity`, `BootScript`, `BootSafety`, `BootTokens`,
  `BootDelivery`, `BootRun`). Tokens are found by description or created, and keep their secrets from one boot to
  the next; servers come to read them at their own pace; the boot sequence waits before it releases any of them.
  Safety is proved over every interleaving of the boot with replication and with calls that fail, early or late.
- **Config entries** (`CentralConfig`, `CentralConfigRun`, `CentralConfigFacts`, `DefaultIntentions`,
  `ProxyDefaultsFacts`): stock entries are merged into the user's, written, and everything else of the managed
  kinds is erased.
- **Partitions** (`Partitions`) and **the mesh CA** (`MeshCA`): two further reconcilers.

`Text`, `Sorting` and `Identifiers` hold strings, numerals, orderings, enumerations of sets, and names with
their tenancy.

Three conventions run through the model. A remote is an abstract map whose calls may fail, and a failed call
may still have taken effect. A panic of the program is a result (`None`, `Panicked`, an error constructor),
never a precondition, so that "no lookup panics" is a theorem. Iterating over a Go map, and `sort.Slice`, pick
an arbitrary order; no result depends on it.

Some promises hold only under a condition the program does not check. Each is proved with its exact condition:

- Addresses are distinct exactly when no server's host octet reaches a living client or the infra pod of its
  cluster, and clusters that share an index may do so (`AddressesDistinctExactly`). Ten servers are always safe, and
  the eleventh takes client 1's address unless that client is dead (`TenServersAreSafe`). Two clusters such as `dc1`
  and `dc01` may share an index only in the islands shape, and only if one is the primary and its living gateways
  keep clear, on the wan, of the host octets of the other's servers and gateways (`SharingTakesThePrimary`).
- Addresses lie inside their networks exactly for indices up to 255 and at most 245 servers
  (`AddressesRoutedExactly`).
- The initial sync lists services by name and deregisters them by id. It reaches the definition exactly when the id
  of every unwanted service on a node of the definition occurs among the names that the dump reports for that node
  (`SyncConvergesExactly`), and, without enterprise, when moreover all of the definition is in the default tenancy
  (`OssSyncConvergesExactly`). It does so after any number of broken-off runs exactly when each unwanted service on
  such a node is reported under its own id (`SyncRecoversExactly`).
- Without enterprise, config entries converge exactly when no desired entry that already exists is written only
  under another tenancy, which would have it deleted right after it was written (`ConfigConvergesExactly`).
- With prometheus, the stored global proxy defaults have the bind address exactly when the user has at most one such
  entry or the last of them sets it: only the first is combined, and the last one written stays
  (`BindAddressArrivesExactly`).
- A boot refuses exactly a primary-only boot of peers and, with ACLs under kubernetes, peers and secondaries
  (`BootDelivery.RefusesExactly`).
- The generator gives a service and its sidecar the same check id, and a node has one check of an id and tenancy. So
  after the initial sync the pod's check is the sidecar's (`SidecarTakesTheCheck`), until a health report of the
  service takes it over (`ReportTakesTheCheck`).
- Partitions are created only when absent exactly when none but the default one is configured twice, which
  validation guarantees (`CreatesOnlyAbsentExactly`).
- A CA of the same provider is refused exactly when a field outside the simple ones differs, or a field is nil on one
  side and absent on the other, which takes a nil value (`MeshCA.RefusesExactly`, `SimpleDifferencesAreWritten`).
- The health cache agrees with the catalog on a service exactly when nothing is remembered of the service yet, or no
  write of it took effect but reported an error since the last one that was accepted (`RunsAgreeExactly`). A
  disagreement lasts for as long as the probe equals what is remembered (`LostReplyStalls`), and ends when the probe
  differs and that write is accepted (`PassReports`).
- A token's description changes exactly when a preset accessor re-describes it (`StepRedescribesExactly`).

The repository's own README.md lists clients at 10.0.1.12 and up. The code places client `i` of cluster `n` at
`10.0.n.(20+i)`, and the model follows the code.

## Model

| member | source | states |
|---|---|---|
| Config.ValidateConfig | config/parse.go:222-336 | accepts exactly the acceptable configurations, justifies every refusal, and changes nothing but an unneeded license path |
| Config.AcceptsExactly | config/parse.go:222-336 | what it takes to be accepted, switch by switch and entry by entry |
| Config.CheckNodes | config/parse.go:243-267 | accepts exactly when no node entry leaves its segment or, without enterprise, the default tenancy |
| Config.CheckPartitions | config/parse.go:291-311 | accepts exactly when partitions and their namespaces are named and free of duplicates, else names a culprit |
| Config.CheckLinks | config/parse.go:269-312 | accepts exactly when peering has TLS on gRPC and partitions come without secondary datacenters and without duplicates |
| Identifiers.TextInjective | util/util.go:26-28 | the printed form of an identifier determines it when tenancies hold no slash |
| Identifiers.DottedInjective | util/util.go:30-32 | the dotted form determines it when tenancies hold no dot |
| Infra.Topology.AddNode | infra/topology.go:220-228 | files the node under its name and keeps all others, and panics exactly on a node without a kind |
| Infra.Topology.SortedNodeKind | infra/topology.go:136-145 | lists exactly the names of one kind in ascending order, whatever the map order |
| Infra.Topology.SortedNodes | infra/topology.go:147-166 | lists infra pods, then servers, then workloads, ascending within each group |
| Infra.Topology.LeaderIP | infra/topology.go:69-81 | answers with the address of the cluster's first server in name order, and panics exactly when there is none or it lacks the address |
| Infra.Topology.ServerIPs | infra/topology.go:111-120 | the local addresses of exactly the cluster's servers in name order |
| Infra.Topology.GatewayAddrs | infra/topology.go:122-134 | the wan addresses of exactly the cluster's gateways in walk order, then the retained ones |
| Infra.WalkVisitsEachOnce | infra/topology.go:197-211 | a walk meets every filed node exactly once |
| Infra.WalkIsOrdered | infra/topology.go:147-166 | along a walk the group never goes back, and within a group names ascend |
| Compile.CompileTopology | infra/infra.go:15-369 | succeeds exactly on compilable configurations, blames a real defect otherwise, leaves exactly the nodes of the sorted clusters added one after the other, the networks and the retained gateways, and adds each cluster's gateways to its clients |
| CompileFacts.CompilesExactly | infra/infra.go:15-369 | compiles exactly when the switches go together, dc1 is present, every cluster is well named and sized, and no node entry asks for what its node cannot be, in fields of the configuration |
| NodeFacts.ClustersAsConfigured | infra/infra.go:305-349 | the listed clusters are the configured ones, with index and base addresses read off the name and gateways counted as clients |
| NodeFacts.ClustersInOrder | infra/infra.go:350-352 | each cluster is listed once, in name order |
| NodeFacts.NodeAsConfigured | infra/infra.go:104-297 | every node is that server, infra pod or living client of a configured cluster: kind, tenancy, addresses, gateway or service; odd clients run ping and call pong, even ones the reverse unless the entry names another upstream, on ports 8080 and 9090, with peer, datacenter, extra HCL and meta of the entry |
| NodeFacts.PlaceIsFilled | infra/infra.go:104-297 | with distinct cluster names every server, infra pod and living client is there, under its own name and as configured |
| NodeFacts.DeadIsAbsent | infra/infra.go:282-290 | a client declared dead is not in the node map |
| NodeFacts.RetainedAsConfigured | infra/infra.go:282-290 | the retained addresses are exactly the wan addresses of the dead gateways of a federated primary whose entry asks for it |
| Compile.CheckModes | infra/infra.go:20-70 | accepts exactly the consistent switches and names the one that is wrong |
| Compile.PrepareClusters | infra/infra.go:305-352 | compiles every cluster entry or stops at a faulty one, with the configuration changed up to there |
| Compile.AddCluster | infra/infra.go:104-297 | adds exactly one node per server, the infra pod and one per living client, or reports a faulty node |
| Compile.BuildClient | infra/infra.go:173-283 | the client of an index: its kind, tenancy, addresses, and either the gateway role or its service and upstream |
| Compile.BuildServer | infra/infra.go:105-146 | the server of an index: on the wan in the dual shape, and outside the primary in the islands shape |
| Compile.CheckForErrors | infra/infra.go:371-385 | accepts exactly when every service is ping or pong |
| NameFacts.NodeNameInjective | infra/infra.go:106-178 | a node name determines cluster, role and index |
| NameFacts.SlotNamesInjective | infra/infra.go:104-297 | no two places of a topology with distinct cluster names share a node name |
| NameFacts.NodesAreConserved | infra/infra.go:104-297 | the node map holds exactly servers, one infra pod and clients less the dead ones, summed over clusters, each met once by a walk |
| NameFacts.ServerOneComesFirst | infra/topology.go:136-145 | server1 is least in string order among its cluster's servers, however many there are |
| NameFacts.LeaderIsServerOne | infra/topology.go:69-81 | the leader lookup of a configured cluster finds server1 with host octet 11 |
| NameFacts.LeaderAddressOfCluster | infra/topology.go:69-81 | so a local leader lookup never panics, and a wan lookup panics exactly where server1 is not on the wan |
| NameFacts.SettingsAreUntenanted | config/parse.go:250-266 | without enterprise no node's effective settings leave the default tenancy |
| NameFacts.LastOfANameStays | infra/infra.go:353-362 | when cluster names repeat, the topology keeps every node of the last cluster of a name in sorted order, at its own place |
| AddressFacts.AddressesDistinctExactly | infra/infra.go:104-174 | with distinct cluster names, all (network, address) pairs differ exactly when no server octet meets a living client or the infra pod and clusters of one index are in the islands shape with disjoint wan octets |
| AddressFacts.TenServersAreSafe | infra/infra.go:104-174 | ten servers never collide; an eleventh collides with client 1 unless that one is dead |
| AddressFacts.SharingTakesThePrimary | infra/infra.go:130-146 | sharing an index takes the islands shape and the primary, and is always possible for a primary without living gateways |
| AddressFacts.AddressesRoutedExactly | infra/infra.go:92-102 | every address parses and lies in the block of a declared network, exactly for indices up to 255 and at most 245 servers, in all shapes |
| AddressFacts.NetworksAsConfigured | infra/infra.go:92-102 | one shared network in the flat shape, else the wan and one per cluster, with these blocks |
| AgentConfig.GenerateAgentHCL | app/tfgen/agent.go:15-178 | panics exactly when an address lookup fails; otherwise writes exactly the specified address settings in order |
| AgentConfig.AddServerAddresses | app/tfgen/agent.go:141-178 | the server part: wan advertisement, then gateways of the primary or leaders of all clusters, by shape |
| AgentConfig.WanWhereNeeded | app/tfgen/agent.go:142-162 | the shape that reads a wan address is one under which the compiler assigned it |
| AgentConfig.LookupsNeverPanic | app/tfgen/agent.go:33-178 | no lookup panics for any agent of any compiled topology |
| AgentFacts.AgentAsConfigured | app/tfgen/agent.go:33-178 | every agent of a compiled topology advertises its own lan address and joins exactly the servers of its cluster; a server of the dual shape also advertises its wan address and, federated, joins by the wan addresses of all first servers, one of the flat shape by their lan addresses, one of the islands shape outside the primary by exactly the living and the retained gateways of the primary |
| CatalogDefs.CatalogDefinition.Sort | structs/catalog_defs.go:138-201 | rearranges the three slices into their comparators' order and keeps their elements |
| CatalogDefs.ComparatorsCompare | structs/catalog_defs.go:138-190 | nodes compare by partition and name, services and proxies by partition, node, namespace and name |
| CatalogDefs.ComparatorsAreOrders | structs/catalog_defs.go:139-200 | each comparator is a strict order, total on distinct key tuples |
| CatalogDefs.SortIsCanonical | structs/catalog_defs.go:138-201 | any two arrangements of a definition with unique keys sort to the same one, by any sort |
| GenCatalog.GenerateCluster | app/gen_catalog.go:17-151 | panics exactly on a source with upstream HCL or without address; otherwise exactly one node, service and proxy per source, in canonical order |
| GenCatalog.GenerateCatalogInfo | app/gen_catalog.go:14-165 | writes one file per wanted cluster, each defining exactly that cluster, in order up to the first failed write or panic |
| GenCatalog.CollectCluster | app/gen_catalog.go:29-132 | the nested maps hold exactly the entries of the contributing nodes of a walk |
| GenCatalog.FlattenNested | app/gen_catalog.go:141-150 | lists the value at every place of a nested map once per place, in some order |
| GenCatalog.ListsNestedValues | app/gen_catalog.go:141-150 | where no value has two places, that is every value exactly once |
| GenCatalog.DefinitionIsUnique | app/gen_catalog.go:137-151 | the generated definition does not depend on map order or on the sort |
| CatalogFacts.GeneratedIsWellFormed | app/gen_catalog.go:57-121 | every service and proxy refers to a listed node, and all nodes carry the virtual mark |
| CatalogFacts.OneOfEachPerSource | app/gen_catalog.go:29-150 | as many nodes, services and proxies as there are contributing nodes |
| CatalogFacts.ProxiesFrontTheirService | app/gen_catalog.go:96-121 | each proxy fronts the one service of its own node, under its name, address and port |
| CatalogFacts.GeneratedExpectation | clustertool/catalog-sync.go:169-213 | the sync's expectation for a generated definition is each pod with its service and its sidecar |
| CatalogFacts.CompiledSources | app/gen_catalog.go:41-48 | in a compiled topology generation panics exactly on upstream HCL |
| CatalogFacts.GeneratedIsSyncable | app/gen_catalog.go:29-149 | a definition generated from a validated configuration meets all hypotheses of the sync |
| CatalogFacts.GeneratedCatalogArrives | clustertool/catalog-sync.go:156-265 | a complete sync of it leaves one virtual node per pod with exactly its service and its sidecar |
| CatalogFacts.GeneratedKeysApart | clustertool/catalog-sync.go:339-381 | its services are remembered and checked in distinct places |
| PodFacts.GeneratedAreChecked | app/gen_catalog.go:73-86 | every generated service has a check id and an address to probe |
| PodFacts.GeneratedKeysDistinct | app/gen_catalog.go:28-116 | no two entries of a generated definition are about the same node or service |
| PodFacts.PodArrives | app/gen_catalog.go:28-116 | after a complete sync from any catalog every pod is stored with address, service, sidecar and upstream as its node has them |
| PodFacts.PodsAsCompiled | app/gen_catalog.go:28-116 | from a clean catalog exactly the dataplane nodes with a service become pods, each with its service and sidecar and nothing else |
| PodFacts.ConfiguredPodArrives | app/gen_catalog.go:60-116 | from configuration to catalog: after a complete sync each living dataplane service client is stored at its configured address as ping or pong on port 8080, with a sidecar on 20000 that passes traffic to 8080 and reaches its upstream through 9090 |
| PodFacts.ConfiguredPodIsProbed | app/gen_catalog.go:73-86 | the definition has each living dataplane service client probed at its configured address and port, under a check of its service's name |
| PodFacts.SidecarTakesTheCheck | app/gen_catalog.go:73-116 | a service and its sidecar are registered with one check id, so after a complete sync that check is the sidecar's |
| PodFacts.ReportTakesTheCheck | clustertool/catalog-sync.go:383-389 | the first health report of the service makes the check of the pod its own |
| InitialSync.CatalogSync.DumpCurrentCatalog | clustertool/catalog-sync.go:267-300 | the virtual nodes with the names of their services, exactly |
| InitialSync.CatalogSync.RegisterServices | clustertool/catalog-sync.go:185-202 | registers a prefix of the services, all on success, and panics exactly at one on an unlisted node |
| InitialSync.CatalogSync.RemoveStrays | clustertool/catalog-sync.go:224-262 | deregisters strays only, each once, and all of them on success |
| InitialSync.CatalogSync.Run | clustertool/catalog-sync.go:156-265 | on success all registrations in order then every stray once; on failure an initial part of that; a panic only for malformed definitions |
| CatalogContents.DefinitionArrives | structs/catalog_defs.go:29-136 | after a complete run from any catalog each node, service and proxy of a definition without duplicate keys is stored field by field: address and meta; name, port, address, meta, tenancy blank without enterprise; kind, destination, local port and every upstream |
| CatalogContents.CheckArrives | structs/catalog_defs.go:80-101 | the check found in a place after a complete run is that of the last entry whose check is kept there, field by field |
| SyncFacts.RegistrationEffect | clustertool/catalog-sync.go:168-222 | what any sequence of registrations adds to and keeps of a catalog |
| SyncFacts.RemovalEffect | clustertool/catalog-sync.go:224-262 | what any sequence of deregistrations removes from and keeps of a catalog |
| SyncConvergence.SyncConvergesExactly | clustertool/catalog-sync.go:156-265 | from any state a complete run makes the virtual nodes those of the definition, and their services too exactly when the id of every unwanted one is among the names the dump reports for its node |
| SyncConvergence.OthersUntouched | clustertool/catalog-sync.go:224-262 | nodes that are neither virtual nor defined are left exactly as they were, by complete and partial runs |
| SyncConvergence.RunsKeepTidy | clustertool/catalog-sync.go:156-265 | a run stopped at any call keeps the catalog fit for the next run |
| SyncConvergence.SyncRecoversExactly | clustertool/catalog-sync.go:168-262 | every sequence of broken-off runs and a success reaches the definition exactly when, at the start, each unwanted service on a defined node is reported under its own id |
| SyncConvergence.SyncRecovers | clustertool/catalog-sync.go:168-262 | from such a start, any number of broken-off runs and one success reach what one success alone reaches, with no strays left |
| SyncConvergence.NothingLeftToRemove | clustertool/catalog-sync.go:224-262 | after convergence a further run deregisters nothing |
| SyncConvergence.OssSyncConvergesExactly | structs/catalog_defs.go:29-136 | without enterprise, where requests lose their tenancy, a complete run reaches the definition exactly when all its nodes, services and proxies are in the default tenancy and the id of every unwanted service on its nodes is among the names the dump reports for that node |
| HealthSync.HealthResults.GetResult | clustertool/catalog-sync.go:313-324 | reads the nested map as one flat map, absent as empty |
| HealthSync.HealthResults.SetResult | clustertool/catalog-sync.go:326-337 | updates that flat map at one key and nowhere else, allocating on demand |
| HealthSync.HealthSync.DetectAndSyncHealthOnce | clustertool/catalog-sync.go:339-381 | a pass takes cache and catalog to what the step-by-step specification says, for some replies |
| HealthSync.RunsKeepAgreement | clustertool/catalog-sync.go:339-381 | over every run of passes a remembered status is passing or critical, and the catalog has it, or its opposite for a service in doubt |
| HealthSync.RunsAgreeExactly | clustertool/catalog-sync.go:339-381 | over every run memory and catalog agree on a service exactly when it is not in doubt or nothing is remembered of it |
| HealthSync.NoLossNoDoubt | clustertool/catalog-sync.go:339-389 | when failed calls change nothing that covers all services |
| HealthSync.PassIssuesExactlyTheDue | clustertool/catalog-sync.go:355-379 | the calls of a pass are, in order, one full registration for each service with a check id and an address to probe whose probe differs from what was remembered |
| HealthSync.PassReports | clustertool/catalog-sync.go:339-389 | after a pass memory and catalog both have passing or critical as the probe found, exactly for services with a check id and an address whose needed write was accepted, or that needed none and were not in doubt |
| HealthSync.UncheckedIsPassedOver | clustertool/catalog-sync.go:340-343 | a pass is the same as without a service that lacks a check id or an address to probe |
| HealthSync.NothingDue | clustertool/catalog-sync.go:355-379 | probing the same again writes nothing |
| HealthSync.RunLeavesAlone | clustertool/catalog-sync.go:355-379 | over any number of passes nothing changes for a service whose probe equals what is remembered |
| HealthSync.LostReplyStalls | clustertool/catalog-sync.go:361-378 | a lost failure report followed by recovery leaves the catalog critical through any number of passing probes |
| TokenStore.GetTokenByDescription | consulfunc/acl.go:41-59 | finds a token of that description exactly when there is one |
| TokenStore.CreateOrUpdateToken | consulfunc/acl.go:169-193 | does nothing or the one write its lookup calls for; success leaves a token of that description and those policies with the returned accessor and secret, and no other token changed |
| TokenStore.RunKeepsTokens | consulfunc/acl.go:169-193 | over every run descriptions stay unique and no token disappears or changes its secret |
| TokenStore.RunKeepsDescription | consulfunc/acl.go:169-193 | over every run a token keeps its description unless a preset accessor re-describes it |
| TokenStore.AskingAgainFindsTheSame | consulfunc/acl.go:172-178 | asking again for a description finds the same accessor and secret |
| TokenStore.StepRedescribesExactly | consulfunc/acl.go:169-193 | a call that takes effect changes a token's description exactly when its preset accessor names that token and no token has the description |
| TokenStore.StepWritesExactly | consulfunc/acl.go:169-193 | a call that takes effect changes one token only: the one of the description or else of the preset accessor gets description and policies and keeps its secret; without either a new one is made |
| TokenStore.FoundIsNeverRefused | consulfunc/acl.go:172-186 | when a token of the description exists the server takes the update, whatever ids the request came with |
| TokenIdentity.CreateNamed | app/boot.go:1137-1149 | creating the token of a name is one step of the store, and its answer is the secret of the token that now bears that description |
| TokenIdentity.BootsKeepDescription | consulfunc/acl.go:169-193 | through any calls of any number of boots a token of the boot keeps its description and secret |
| TokenIdentity.SameSecretOnEveryBoot | consulfunc/acl.go:172-178 | every boot is answered with the same secret for the same token name, whatever was created in between |
| TokenProtocol.DescriptionsInjective | app/boot.go:1244-1309 | different tokens have different descriptions |
| TokenProtocol.StepKeeps | app/boot.go:202-241 | every action, every failure with or without effect, and every replication step keeps the invariant of the protocol |
| TokenProtocol.DisciplinedRunsAreSafe | app/boot.go:202-241 | a script that binds, waits for and then releases is safe in every reachable state of every interleaving: each agent holds its own token, each secondary the replication token, each cached name its own secret, all readable where they are used; it panics only on an empty secret |
| TokenProtocol.HandedIsCurrent | app/boot.go:1082-1108 | where tokens keep their secrets, the one an agent was handed is the current secret of its own token |
| TokenProtocol.FinishedRunsDeliver | app/boot.go:1070-1080 | a run that ends has delivered everything its script was to deliver, and met no refusal |
| BootScript.WaitForTokenOnServers | app/boot.go:202-241 | one wait for each server of the cluster, in walk order |
| BootScript.CreateAgentTokensDelayWrite | app/boot.go:995-1068 | creates and binds each agent's token now; delayed, waits for each on all servers |
| BootScript.CreateServiceTokensDelayWrite | app/boot.go:1244-1309 | creates each service's token once now; delayed, waits for each on all servers and then caches it |
| BootScript.ServerListIsServerNames | app/boot.go:213-240 | the servers waited for are exactly the servers of the cluster |
| BootSafety.PrimaryDisciplined | app/boot.go:387-463 | from any knowledge a primary's script releases only what it waited for, and leaves the replication token ready |
| BootSafety.SecondaryDisciplined | app/boot.go:474-550 | the same for a secondary, whose releases are all delayed |
| BootSafety.BootIsDisciplined | app/boot.go:35-144 | every boot script, in each link mode and setup, releases only what it has waited for |
| BootSafety.BootIsSafe | app/boot.go:35-144 | in every reachable state each cached token stands under its own name, each agent was handed its own token and each secondary the replication token, all readable on all servers concerned |
| BootDelivery.RefusesExactly | app/boot.go:46-48 | the emitted script has a refusal exactly for a primary-only boot of peers and, with ACLs under kubernetes, any peer and any secondary |
| BootDelivery.BootHandsOutExactly | app/boot.go:99-122 | what a boot with ACLs caches and hands out, no more and no less |
| BootTokens.EntersExactly | app/boot.go:99-122 | which clusters a boot enters, in every setup |
| BootTokens.CreatesExactly | app/boot.go:99-122 | which tokens a boot creates, in every setup: gateway, agent and, without kubernetes, service tokens of exactly the clusters it enters, the replication token of a federation, the anonymous one of primaries; none without ACLs |
| BootDelivery.FinishedBootDelivers | app/boot.go:35-144 | a boot that ends refused nothing, has cached the gateway token and, unless under kubernetes, the service tokens of each booted cluster, handed each agent its own token and each server of a federated secondary the replication token, all nonempty where handed out and readable where used |
| BootRun.CreateMeshGatewayTokenDelayWrite | app/boot.go:864-949 | the immediate part releases nothing; the delayed part releases the gateway token, and is safe at once and at any later point where the token is made |
| BootRun.InitPrimaryCluster | app/boot.go:387-463 | whatever is known before, it releases only what it waited for, leaves the replication token ready, owes the cluster all its tokens, and refuses exactly kubernetes with peering |
| BootRun.InitSecondaryDC | app/boot.go:474-550 | knowing only the master token it releases only what it waited for, keeps the replication token ready, refuses exactly kubernetes, and otherwise owes exactly the cluster's tokens |
| BootRun.InjectReplicationToken | app/boot.go:951-985 | every server outside the primary is owed the replication token, safely once it is ready |
| BootRun.RunBoot | app/boot.go:99-122 | the whole boot releases nothing before waiting for it, refuses exactly the setups it must, and otherwise owes every booted cluster and every secondary server its tokens |
| BootDelivery.WalkNodesApart | infra/topology.go:197-205 | a walk over a topology meets no name twice, as the boot requires |
| CentralConfig.ListAllConfigEntries | consulfunc/config.go:30-62 | exactly the entries of managed kinds under their normalized keys, skipping kinds the server does not know |
| CentralConfig.CollectUpstreams | app/boot.go:1324-1347 | each upstream destination with exactly the services that use it |
| CentralConfig.StockIntentions | app/boot.go:1362-1380 | one entry per destination allowing exactly its users, in any order |
| CentralConfig.MergeStockEntry | app/boot.go:1383-1417 | a stock entry is combined with the first of its kind and name for proxy defaults, dropped for intentions, appended otherwise |
| CentralConfigRun.EraseLeftovers | app/boot.go:1457-1495 | deletes leftovers only, each once, in kind order, and on success all of managed kinds |
| CentralConfigRun.WriteCentralConfigs | app/boot.go:1311-1498 | on success writes all merged entries in order, then deletes exactly the leftovers, and ends with no leftover entry; on failure an initial part of that |
| CentralConfigFacts.ConfigConvergesExactly | app/boot.go:1311-1498 | from any state a complete run leaves exactly the desired keys of managed kinds, exactly when no desired key that existed is written only under another tenancy |
| CentralConfigFacts.ConfigConverges | app/boot.go:1311-1498 | in the default tenancy it does, each key with what was last written under it, and deletes no desired key |
| CentralConfigFacts.UnmanagedUntouched | app/boot.go:1457-1495 | entries of other kinds that are not rewritten stay as they were |
| CentralConfigFacts.WritesAreScrubbed | app/boot.go:1419-1447 | what is sent, entry by entry: proxy defaults and intentions without tenancy, sources too, everything else as it is |
| CentralConfigFacts.DeletionsFollowKindOrder | app/boot.go:1457-1495 | after the first deletion of any run come only deletions, never of a kind that stands earlier in the fixed list |
| CentralConfigFacts.RunsKeepValid | app/boot.go:1311-1498 | any run, complete or not, leaves a store the next run can start from |
| CentralConfigFacts.SecondRunDeletesNothing | app/boot.go:1457-1495 | a run after a successful one with the same desired keys deletes nothing |
| DefaultIntentions.MergeShape | app/boot.go:1383-1417 | a merge keeps the user's entries in place and appends exactly the stock entries nobody pre-empted |
| DefaultIntentions.CompiledServicesAreDefault | infra/infra.go:206-276 | without enterprise all compiled services and upstreams are in the default tenancy |
| DefaultIntentions.DefaultIntentions | app/boot.go:1362-1417 | a destination without user intentions gets exactly one intentions entry, allowing exactly the services that call it |
| DefaultIntentions.NoOtherIntentions | app/boot.go:1362-1417 | every added intentions entry is that of such a destination |
| DefaultIntentions.UserEntriesUnaltered | app/boot.go:1383-1417 | whatever the stock, user entries come out of the merge in place, and unchanged but for the settings of proxy defaults |
| DefaultIntentions.DefaultIntentionsArrive | app/boot.go:1311-1498 | after a complete run the cluster stores, for such a destination, exactly the names of the services that call it as allowed sources, whatever tenancy the user's entries name |
| DefaultIntentions.RerunDeletesNothing | app/boot.go:1311-1498 | writing the same configuration again deletes nothing, though stock entries may come in another order |
| ProxyDefaultsFacts.ProxyDefaultsCombined | app/boot.go:1392-1404 | combining gives every stock key its stock value, keeps every other key of the user and adds none |
| ProxyDefaultsFacts.PrometheusMerged | app/boot.go:1343-1417 | with prometheus on the primary the first global proxy defaults get the bind address, keep their other settings and all else, or new ones are added; nothing else of the user changes |
| ProxyDefaultsFacts.UserEntriesKept | app/boot.go:1383-1417 | without prometheus, and outside the primary, all user entries come out of the merge as they are |
| ProxyDefaultsFacts.BindAddressArrivesExactly | app/boot.go:1343-1417 | after a complete run on the primary with prometheus the stored global proxy defaults have 0.0.0.0:9102 exactly when the user has at most one global entry or the last one sets it |
| MeshCA.Compare | app/boot_vault.go:324-350 | the field-by-field comparison of two copies refines a three-way decision stated on the maps themselves |
| MeshCA.RefusesExactly | app/boot_vault.go:325-349 | refuses exactly when the provider matches and a field outside the simple ones differs, or one is nil here and absent there; keeps exactly when nothing differs; another provider is overwritten |
| MeshCA.SimpleDifferencesAreWritten | app/boot_vault.go:335-349 | for any values: simple differences are written unless one side has nil where the other has nothing |
| MeshCA.EnsureCAProvider | app/boot_vault.go:312-365 | through any number of reconfiguring retries success leaves exactly the update, a refusal leaves what it read, and each outcome is that of the last call |
| MeshCA.WritesAreCalledFor | app/boot_vault.go:352-361 | every write is of the update, right after a read that called for it; a reconfiguring answer is followed by another read, any other ends the run |
| MeshCA.RerunWritesNothing | app/boot_vault.go:347-349 | a run that finds the update in place reads once and writes nothing |
| MeshCA.TokenRotation | app/boot_vault.go:279-302 | a new vault token is written, the same one kept, another cluster's mounts refused |
| Partitions.CreatePartitions | app/boot.go:664-717 | on success exactly the specified creations in order then every leftover once; on failure an initial part; nothing without enterprise |
| Partitions.PartitionsConverge | app/boot.go:664-717 | success ends, from any start, with exactly the configured partitions and the default one |
| Partitions.ConfiguredNeverDeleted | app/boot.go:705-714 | no run deletes a configured partition or the default one |
| Partitions.CreatesOnlyAbsentExactly | app/boot.go:685-703 | creations are for absent names only, exactly when no name but the default one is configured twice |
| Partitions.ValidatedCreatesOnlyAbsent | config/parse.go:287-299 | validation rules the duplicates out |
| Partitions.FurtherRunIsIdle | app/boot.go:664-717 | after a success a further run makes no call at all |

## Left out

- GenerateAgentHCL: models the address settings only; the remaining agent settings are constants and switches copied into text.
- CreateOrUpdateToken: models the default tenancy; enterprise query options are passed through and never looked at.
- AddServerAddresses: likewise; `bootstrap_expect` and the switches for servers are not written.
- InitPrimaryCluster: emits the actions in order instead of performing them, so that they can be interleaved with replication step by step; in-memory assignments between actions are part of the action that uses them.
- InitSecondaryDC: likewise; the delayed closures are the parts of the script they stand for.
- ListAllConfigEntries: lists without enterprise, where there is one partition to query.
- WriteCentralConfigs: works on values, so it does not capture that scrubbing and merging change the caller's entries in place, nor the enterprise branches and their partition-wise listing.
- CompileTopology: works with cluster values, so it does not capture sharing of cluster pointers; the node mode of an unknown network shape inside the loop cannot occur and has no branch here.
- BootIsSafe: starts once the master token is known; a fresh ACL bootstrap without a stored master token waits on server clients that do not exist yet and panics.
- AddressesDistinctExactly: covers clusters of distinct names; when names repeat, nodes replace each other as LastOfANameStays says.
- Dead gateways that are retained in the flat shape: the program panics there for want of a wan address; the model reports an error for that configuration.
- Enterprise tenancy in service tokens, intentions and config entries, and per-partition namespaces, whose reconciler ignores the partition when it writes.
- Policies, auth methods, binding rules and roles: the same create-or-update shape as tokens without a secret to keep.
- Vault initialization, unsealing and mounts: a sequence of remote calls with one status loop and no state of its own.
- Peering the clusters after the boot: a pair of reads and, unless both sides are peered, a token and its use.
- Real time, sleeps and unbounded retries: a wait is a step that is enabled once its condition holds, and a reconfiguring CA answers so only finitely often.
- Decoding of HCL and JSON, writing of files, templates, Docker, Terraform, Kubernetes and log output.
- The Consul and Vault servers themselves: each is an abstract map; quotas, watches, checks other than their status, and intentions semantics are not modelled.
