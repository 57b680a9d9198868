# KubeLB: ports, proxy configuration and route services

KubeLB publishes Services, Ingresses and Gateway API routes of tenant clusters through Envoy
proxies in a load-balancing cluster. A tenant Service becomes a `LoadBalancer`, a tenant route
becomes a `Route`; the manager hands every published port a port of its own, generates Services
that send traffic to that port, and configures Envoy to listen on it and to forward to the
tenant's NodePorts. This project models that core and proves what holds over all inputs, all
random draws, all map iteration orders and all runs.

The modules follow the program:

- `Text`, `Keys`, `Names`: decimal printing, the hyphen-joined keys, ordering by name.
- `Api`: the objects that are exchanged.
- `PortTable`, `AllocatorRuns`, `PortRequests`, `LoadedTable`, `PortAllocator`: the shared port
  table, runs of its operations, the allocator object, and what it reads back after a restart.
- `LoadBalancerMapping`, `ServiceReconcile`, `Restart`: from the tenant Service to the
  LoadBalancer, from there to the Service in the load-balancing cluster, and back from status.
- `Snapshot`, `AddressMemo`, `SnapshotClosure`, `SnapshotContents`, `SnapshotCache`, `CacheRuns`:
  the Envoy configuration, its memo of address lists, its referential closure, its exact
  contents, the versioned cache, and the cache over runs of edits, allocator calls and
  reconciles.
- `ServiceGeneration`, `RouteServices`, `RouteRestart`, `Renaming`: Services generated for a
  route, bridges, orphan removal, what a restart reads back for them, and the rewriting of
  Ingress and HTTPRoute backends.
- `Forwarding`, `ListenerExclusivity`, `DataPath`, `GlobalPath`, `DataPathInstance`: the data
  path, step by step, end to end, through the bridges of the global topology, and for concrete
  routes.
- `Finalizers`: the life of a LoadBalancer as a state machine with a crash possible between any
  two API calls.
- `Hostname`: generated host names.

Some promises do not hold on every input. For these the code is modelled as it is, a lemma gives
inputs on which the promise fails, and another states exactly when it holds:

- One call can give the same port to two new keys, because the availability check is refreshed
  only between calls (`PortTable.AllocateInjectiveIff`).
- After a restart a port is lost when the endpoint port at the position of its name in sorted
  order has a different number, because status entries are paired by position
  (`Restart.RestartKeepsIff`). For a LoadBalancer with several endpoint groups, whatever is read
  back for a further group carries a port of the first (`Restart.RestartAllSoundIff`).
- Hostname resources are cleaned up where the Service is, not where they were created
  (`Finalizers.HostnameSafetyIff`).
- A LoadBalancer that is deleted without endpoints keeps its finalizers forever
  (`Finalizers.DeletionIff`).
- The comparison of LoadBalancers misses a change of address mode
  (`LoadBalancerMapping.DetectorRightIff`).
- A Service without annotations is written on every reconcile (`ServiceReconcile.FixpointIff`).
- For a port without an allocation the generated Service and the listener fall back to different
  numbers (`Forwarding.L7AgreementIff`).
- A route service without origin labels is recorded under a key cleanup does not want
  (`RouteServices.RecordedKeyIff`), loses its Service on the next pass
  (`RouteServices.ServiceLostIff`) and its ports in a restart
  (`RouteRestart.RouteRestartIff`).
- The ports of an orphaned route service are given back under a key made of the generated name
  (`RouteServices.OrphanKeyIff`), so its row usually stays (`RouteServices.OwnRowNotFreed`).
- In the global topology a bridge is one object per generated name. A service of another tenant
  that is given the same name takes the bridge over and cuts the first one off
  (`GlobalPath.AlwaysConnectedIff`).
- A route that drops a service, or is deleted, takes the Service away from every other route of
  the tenant that lists the same service (`RouteServices.OtherRouteSafeIff`,
  `RouteServices.CleanupSafeIff`), although the comment at
  internal/controllers/kubelb/route_controller.go:203-204 says that this is ensured against.
- The memo of address lists can mix up two lists (`AddressMemo.MemoExact`).
- A backend can be renamed twice in an Ingress (`Renaming.IngressBackendIff`), and mirrors nested
  under an HTTPRoute backend are written to the wrong filter (`Renaming.RuleIntendedIff`).
- When the random source fails, the wildcard of a domain is not stripped
  (`Hostname.RandomFailureIff`).

The comment on the allocator's reverse table says that it tells whether a port is available; within
one call it does not yet know the ports that call handed out. The model follows the code.

## Model

| member | source | states |
|---|---|---|
| Keys.PortKeyInjective | internal/kubelb/utils.go:56 | a port key determines port and protocol, for every integer and every protocol string |
| Keys.EndpointKeyEqual | internal/kubelb/utils.go:49 | two LoadBalancer endpoint keys are equal if and only if index and joined namespace-name are |
| Keys.EndpointKeyInjective | internal/kubelb/utils.go:49 | names of one length, as UIDs are, make endpoint keys injective whatever hyphens occur |
| Keys.EndpointKeyCollision | internal/kubelb/utils.go:49 | without that, two different LoadBalancers share a key |
| Keys.ResourceKeyInjective | internal/kubelb/utils.go:48 | an Envoy resource name determines namespace, UID name, group index, port and protocol |
| Keys.RouteResourceKeyInjective | internal/kubelb/utils.go:55 | a route resource name determines endpoint key, UID, port and protocol |
| Keys.RouteEndpointKeyCollision | internal/kubelb/utils.go:52 | route endpoint keys of different services can coincide |
| Keys.ResourceKeysDisjoint | internal/kubelb/utils.go:48-55 | no LoadBalancer resource has the name of a route resource |
| Keys.ServiceMapKeyInjective | internal/kubelb/utils.go:57 | a status key determines namespace and name, as no namespace contains a slash |
| PortTable.AllocateExact | internal/port-lookup/allocator.go:70-97 | after a call the endpoint holds exactly the requested keys; kept keys keep their port, new ones get a port in range that nobody held, other endpoints are untouched |
| PortTable.AllocateInjectiveIff | internal/port-lookup/allocator.go:80-97 | a table without shared ports stays so if and only if the accepted draws of the call are distinct |
| PortTable.WholeRange | internal/port-lookup/allocator.go:130-137 | a new key can get any port from 10000 to 65534 that nobody holds |
| PortTable.DoubleAllocation | internal/port-lookup/allocator.go:130-137 | from any table, a draw that comes up twice gives two new keys of one call the same port |
| AllocatorRuns.ApplyEntry | internal/port-lookup/allocator.go:70-128 | every operation keeps, removes or freshly creates an entry; it never changes a port and creates only in its own endpoint on a free port |
| AllocatorRuns.Exclusive | internal/port-lookup/allocator.go:70-137 | over every run from an empty table and all draws, two endpoints never share a port, and two keys of one endpoint share one only if a single call created both |
| AllocatorRuns.RunInjective | internal/port-lookup/allocator.go:70-137 | when no call draws a number twice, no run ever reaches a shared port |
| AllocatorRuns.RunInRange | internal/port-lookup/allocator.go:130-137 | every port of every reachable table is between 10000 and 65534 |
| AllocatorRuns.Stable | internal/port-lookup/allocator.go:70-128 | between any two moments of a run a key keeps its port unless it is deallocated or left out of a call for its endpoint |
| AllocatorRuns.AllocatedByCall | internal/port-lookup/allocator.go:70-97 | a requested key has a port from its call on, as long as later operations retain it |
| PortAllocation.PortAllocator.constructor | internal/port-lookup/allocator.go:49-55 | a new allocator is empty and its reverse table exact |
| PortAllocation.PortAllocator.Lookup | internal/port-lookup/allocator.go:60-67 | found exactly when the pair is in the table, with its port, else -1 |
| PortAllocation.PortAllocator.AllocatePorts | internal/port-lookup/allocator.go:70-97 | the two in-place loops over the row amount to Allocate on the table, for which exactness is proved; the reverse table stays exact; the result says whether the set of keys changed |
| PortAllocation.PortAllocator.DeallocatePorts | internal/port-lookup/allocator.go:100-115 | exactly the given keys leave the row; the reverse table is exact; the result only says that the endpoint existed and some key was given |
| PortAllocation.PortAllocator.DeallocateEndpoints | internal/port-lookup/allocator.go:118-128 | exactly the given endpoints leave the table; the reverse table is exact |
| PortAllocation.PortAllocator.AllocatePort | internal/port-lookup/allocator.go:130-137 | the rejection loop returns the first draw that is not in use and leaves the rest of the draws |
| PortAllocation.PortAllocator.RecomputeAvailablePorts | internal/port-lookup/allocator.go:140-151 | afterwards the reverse table is exactly the set of stored ports |
| PortAllocation.PortAllocator.LoadState | internal/port-lookup/allocator.go:154-222 | a failed list call changes nothing; otherwise the table is the one read from status, and the reverse table is exact |
| PortAllocation.PortAllocator.AllocatePortsForLoadBalancers | internal/port-lookup/mapper.go:27-41 | the nested loops are a run of one allocation per endpoint group |
| PortAllocation.PortAllocator.AllocatePortsForRoutes | internal/port-lookup/mapper.go:44-69 | the nested loops are a run of one allocation per service of a route |
| PortAllocation.PortAllocator.DeallocatePortsForRoute | internal/port-lookup/mapper.go:72-92 | exactly the endpoints of the route's services leave the table, other rows are unchanged |
| PortAllocation.PortAllocator.DeallocatePortsForLoadBalancer | internal/port-lookup/mapper.go:95-104 | exactly the LoadBalancer's endpoints leave the table, other rows are unchanged |
| PortRequests.RequestServedIff | internal/port-lookup/mapper.go:27-69 | after all calls a key of an endpoint has a port if and only if the last request for that endpoint lists it, or nobody asked for the endpoint and it had one before |
| PortRequests.RequestServed | internal/port-lookup/mapper.go:27-69 | so every requested key has one when no two requests for an endpoint disagree |
| Names.SortByName | internal/kubelb/loadbalancer.go:345-348 | a sorted rearrangement of the ports |
| Names.BeforeIff | internal/kubelb/loadbalancer.go:345-348 | the order of names: at the first difference the smaller character comes first, and a proper prefix comes before |
| LoadBalancerMapping.MapLoadBalancer | internal/kubelb/loadbalancer.go:37-106 | field by field what is published: the i-th front port with the user port's number and protocol, the i-th endpoint port with its NodePort, both under its name in lower case; the IPs in order, or the reference to the default list; UID, tenant, labels, annotations without the last-applied configuration |
| LoadBalancerMapping.AdmittedNamesDistinct | internal/kubelb/loadbalancer.go:43-61 | a Service the API server admits gets distinct port names on both sides, named or not |
| LoadBalancerMapping.CreateServicePorts | internal/kubelb/loadbalancer.go:296-351 | the result is a rearrangement, sorted by name, of one port per front port |
| LoadBalancerMapping.TargetMeans | internal/kubelb/loadbalancer.go:303-319 | a front port leads to the first endpoint port of its name, or else to the one of its index, and from there to the allocated port if there is one |
| LoadBalancerMapping.KeptMeans | internal/kubelb/loadbalancer.go:321-343 | the NodePort kept is that of the first stored port of the name, or of the number and protocol |
| LoadBalancerMapping.ServicePortsUnique | internal/kubelb/loadbalancer.go:345-350 | with distinct names the unstable sort has one possible result |
| LoadBalancerMapping.MappedUpstream | internal/kubelb/loadbalancer.go:303-312 | looking an endpoint port up by name finds the NodePort of the same user port |
| LoadBalancerMapping.DetectorExact | internal/kubelb/loadbalancer.go:108-164 | the comparison that ignores names answers yes if and only if kind, routing rules, literal addresses and annotations agree, for any two address modes |
| LoadBalancerMapping.DetectorRightIff | internal/kubelb/loadbalancer.go:108-164 | its verdict is right if and only if the address modes are equal, or the literal list is not empty, or something else differs |
| LoadBalancerMapping.DetectorMissesAddressMode | internal/kubelb/loadbalancer.go:142-161 | for every Service a switch from a reference to an empty literal list is taken for no change |
| ServiceReconcile.ServiceStore.ReconcileService | internal/controllers/kubelb/loadbalancer_controller.go:280-352 | after every run the stored ports are the built ones up to NodePorts the server filled in, labels, selector, type and class are those of the LoadBalancer and the wanted annotations are there; nothing is written if and only if annotations are stored and all that was so before |
| ServiceReconcile.ResultCurrent | internal/controllers/kubelb/loadbalancer_controller.go:322-349 | the same of the result as a value, for any built ports and NodePorts handed out |
| ServiceReconcile.PortsStable | internal/kubelb/loadbalancer.go:321-348 | ports rebuilt on top of stored ones are the stored ones, NodePorts and order included |
| ServiceReconcile.AnnotationsMerged | internal/util/kubernetes/util.go:49-62 | annotations of third parties survive and the wanted ones win, except the last-applied configuration |
| ServiceReconcile.MergeStable | internal/util/kubernetes/util.go:49-62 | merging again changes nothing that is compared, once something is stored |
| ServiceReconcile.FixpointIff | internal/controllers/kubelb/loadbalancer_controller.go:322-349 | an immediate second run writes nothing if and only if some annotation is wanted or stored |
| ServiceReconcile.NeverSettles | internal/controllers/kubelb/loadbalancer_controller.go:322-349 | a Service that wants no annotations and never had any is written by every run |
| ServiceReconcile.ThirdPartySurvives | internal/controllers/kubelb/loadbalancer_controller.go:322-349 | a run keeps third-party annotations of the existing Service |
| Restart.PublishStatus | internal/controllers/kubelb/loadbalancer_controller.go:414-432 | the i-th status port pairs the i-th Service port with the i-th endpoint port |
| Restart.MatchCarriesPort | internal/port-lookup/allocator.go:164-182 | a status port of an endpoint port's name and protocol carries the port allocated for it |
| Restart.RestartSound | internal/port-lookup/allocator.go:164-182 | every entry rebuilt from status is the entry that was lost, even with the positional pairing |
| Restart.RestartKeepsIff | internal/port-lookup/allocator.go:164-182 | an entry survives if and only if the endpoint port at the rank of its name has its number |
| Restart.NameOrderKeepsAll | internal/port-lookup/allocator.go:164-182 | endpoint ports in name order all survive with their ports |
| Restart.ReversedPairLost | internal/controllers/kubelb/loadbalancer_controller.go:414-432 | two ports out of name order with different numbers are both lost |
| Restart.RestartTableSound | internal/port-lookup/allocator.go:154-222 | in the whole rebuilt table each entry of the first endpoint group of a published LoadBalancer is the lost one, whatever else is loaded |
| Restart.FurtherGroupWrong | internal/port-lookup/allocator.go:164-182 | whatever is rebuilt for a further group is not what was lost |
| Restart.RestartAllSoundIff | internal/port-lookup/allocator.go:154-222 | all that is rebuilt for a published LoadBalancer is what was lost, if and only if no port of a further group matches a published one |
| Restart.SecondGroupTakesFirst | internal/port-lookup/allocator.go:164-182 | two groups with one port of one name and number each: the second is rebuilt with the first one's port |
| Snapshot.MapSnapshot | internal/envoy/resource.go:69-205 | the loops over LoadBalancers and routes with the shared memo give the snapshot whose contents SnapshotContents states, held one per name, or an error |
| AddressMemo.MemoExact | internal/envoy/resource.go:73-92 | memoised reads agree with direct reads for every content of the cluster if and only if no two references share a memo key |
| AddressMemo.SnapshotAgrees | internal/envoy/resource.go:73-148 | then the snapshot is the one of direct reads, or fails in the same cases |
| AddressMemo.SnapshotExistsIff | internal/envoy/resource.go:73-148 | there is a snapshot if and only if every address list exists that a LoadBalancer, or a route with a source, refers to |
| AddressMemo.OneNamespace | internal/envoy/resource.go:56 | memo keys are injective when all objects live in one namespace |
| AddressMemo.OneName | internal/envoy/resource.go:56 | and when all references have one name |
| AddressMemo.MemoCollision | internal/envoy/resource.go:56 | otherwise two address lists can share a memo key |
| SnapshotClosure.EmitsUnique | internal/envoy/resource.go:94-182 | every emitted resource has a name of its own, across LoadBalancers and routes |
| SnapshotClosure.SnapshotClosed | internal/envoy/resource.go:69-205 | cluster names and listener names are unique and every listener's target is a cluster of the same snapshot |
| SnapshotClosure.LastClusterKept | internal/envoy/resource.go:198-204 | a name holds the last resource of that name |
| SnapshotClosure.SnapshotIndexed | internal/envoy/resource.go:198-204 | no resource of the lists is lost to another of its name, nothing else is held, and every listener held leads to a cluster held |
| SnapshotClosure.LbPortPublished | internal/envoy/resource.go:94-119 | every port of every endpoint group has its cluster and listener in the snapshot |
| SnapshotClosure.ServicePortPublished | internal/envoy/resource.go:151-182 | so has every port of every route service |
| SnapshotClosure.LbListenerIff | internal/envoy/resource.go:94-119 | a listener of a group port's name exists if and only if its protocol is TCP or UDP |
| SnapshotClosure.ServiceListenerIff | internal/envoy/resource.go:151-182 | the same for a service port |
| SnapshotContents.ListenersExactly | internal/envoy/resource.go:94-182 | the listeners are exactly those of the TCP and UDP ports of LoadBalancers and route services: name, cluster, bound port, a UDP proxy for UDP, else an HTTP manager exactly for routes made from an Ingress, HTTPRoute or GRPCRoute, else a TCP proxy |
| SnapshotContents.ClustersExactly | internal/envoy/resource.go:94-182 | the clusters are exactly those of all those ports: name, each address at the port or NodePort, health checks unless UDP, HTTP/2 for GRPCRoutes and HTTP/1 for HTTPRoutes and Ingresses |
| ServiceGeneration.GenerateName | internal/kubelb/utils.go:69-82 | at most 60 characters, ending in the last four of the UID whenever that is asked for or the name is too long |
| ServiceGeneration.GeneratedNameForms | internal/kubelb/utils.go:69-82 | a name that fits is namespace, name and suffix joined by hyphens; a longer one keeps its first 55 characters |
| ServiceGeneration.GeneratedNameCollision | internal/kubelb/utils.go:69-82 | without the suffix two services can get one name |
| ServiceGeneration.GenerateServiceForLBCluster | internal/resources/service/service.go:111-148 | the loop over ports gives the generated Service, whose ports Forwarding relates to the listeners |
| ServiceGeneration.GenerateBridgeService | internal/resources/service/service.go:158-188 | the loop over ports gives the bridge, whose ports Forwarding.BridgeChain relates to the slice |
| ServiceGeneration.ReconcileBridge | internal/controllers/kubelb/bridgeservice_controller.go:85-117 | a slice exists exactly when the Service does that the bridge's labels name; it has that Service's namespace and name, the bridge's cluster IPs as addresses, and for each port its name, target and protocol |
| Forwarding.SnapshotAddresses | internal/envoy/resource.go:73-92 | a snapshot that exists used for each group the addresses a direct read gives |
| Forwarding.L4Target | internal/kubelb/loadbalancer.go:296-351 | the Service has a port with the user's number and protocol whose target is the allocated port |
| Forwarding.L4Listener | internal/envoy/resource.go:94-119 | Envoy listens on the allocated port with a plain proxy and reaches exactly every address at the user port's NodePort |
| Forwarding.L4Forwarding | internal/envoy/resource.go:69-119 | without any condition on names: given the allocation, the Service has a port whose target some listener binds, with a cluster of every address at the NodePort |
| Forwarding.L7AgreementIff | internal/resources/service/service.go:127-130 | generated target port and listener port agree if and only if the port is allocated or its NodePort equals its port |
| Forwarding.FallbacksDiffer | internal/resources/service/service.go:127-130 | port 80 with NodePort 30080, not allocated: the Service targets one, the listener binds the other |
| Forwarding.L7Listener | internal/envoy/resource.go:151-182 | the listener of a route service port is of the kind the route needs and reaches all addresses of the route at its NodePort |
| Forwarding.L7Forwarding | internal/resources/service/service.go:111-148 | the same for each port of a generated Service |
| ListenerExclusivity.OneNamespaceSeparate | internal/kubelb/utils.go:49-52 | in the shared topology, with LoadBalancers named by UIDs, no LoadBalancer endpoint key is a route's |
| ListenerExclusivity.CallsServe | internal/controllers/kubelb/envoy_cp_controller.go:128-139 | after the calls for both lists every published port has an allocated port |
| ListenerExclusivity.ListenersExclusive | internal/envoy/resource.go:94-182 | over such objects and a table without shared ports no two listeners bind one port |
| ListenerExclusivity.ReachesOnly | internal/envoy/resource.go:94-182 | so whatever a port reaches, and by which kind of listener, is the only thing it reaches |
| DataPath.RequestedServes | internal/port-lookup/mapper.go:27-69 | in any run in which every request for the listed objects was made at some moment and its keys were not given up since, with calls of other controllers before, between and after, every published port has a port |
| DataPath.BlockRequested | internal/controllers/kubelb/envoy_cp_controller.go:128-139 | the Envoy controller's calls made in one block are such requests |
| DataPath.ReconcileServes | internal/controllers/kubelb/envoy_cp_controller.go:128-139 | with distinct draws it is a port of its own, in range |
| DataPath.L4EndToEnd | internal/kubelb/loadbalancer.go:296-351 | Service built and snapshot taken at any two moments of a run: the one Service port of the user port's name has its number and protocol, and on its target Envoy has a TCP or UDP proxy to the given IPs in order, or to those of the tenant's default list, each at the user port's NodePort, and to nothing else |
| DataPath.L7EndToEnd | internal/resources/service/service.go:111-148 | Service generated and snapshot taken at any two moments of a run: on the target of each port Envoy has the kind of listener the route needs, to all addresses of the route at that port's NodePort and to nothing else; type, labels, selector and annotations of the Service |
| GlobalPath.BridgeLeadsBack | internal/controllers/kubelb/bridgeservice_controller.go:85-117 | the labels of a bridge lead the bridge controller to a slice for the stored Service of the namespace and name it was made for |
| GlobalPath.RunMakes | internal/resources/service/service.go:111-148 | Services generated at any moments of a run between which nobody gives their keys up have the ports of the table at the reconcile |
| GlobalPath.ConnectedIff | internal/resources/service/service.go:190-219 | after any applications the stored Service is the last of its namespace and name, the stored bridge that of the last of its name, and a connection through a cluster IP of the bridge exists if and only if the bridge has one and both were made for one service of one route |
| GlobalPath.AlwaysConnectedIff | internal/resources/service/service.go:158-164 | a connection exists in every order of application if and only if the bridge has a cluster IP and every live service given the name belongs to the same tenant and has the port |
| GlobalPath.GlobalEndToEnd | internal/resources/service/service.go:158-219 | a service with its generated name to itself: whatever was stored before, in whatever order and at whatever moments Services are generated and applied, its Service and bridge are its own, the bridge selects Envoy, a connection exists if and only if the bridge has a cluster IP, and wherever one leads Envoy forwards to all addresses of the route at the NodePort and to nothing else |
| Finalizers.NextKeepsInv | internal/controllers/kubelb/loadbalancer_controller.go:162-239 | every step of user, other controllers, crash or reconcile call keeps the invariant |
| Finalizers.InvAlways | internal/controllers/kubelb/loadbalancer_controller.go:162-239 | the invariant holds in every reachable state |
| Finalizers.ServiceSafety | internal/controllers/kubelb/loadbalancer_controller.go:162-239 | over every run the Service exists only while the LoadBalancer exists and holds the cleanup finalizer |
| Finalizers.HostnameSafetyIff | internal/controllers/kubelb/loadbalancer_controller.go:389-411 | over every run hostname resources exist only under the hostname finalizer, if and only if cleanup looks in the namespace they are created in |
| Finalizers.HostnameLeak | internal/controllers/kubelb/loadbalancer_controller.go:617-649 | otherwise a concrete run, from the creation of the object on, leaves an Ingress behind |
| Finalizers.CleanupCompletes | internal/controllers/kubelb/loadbalancer_controller.go:498-543 | an undisturbed cleanup, on deletion or when the tenant is disabled, removes Service and hostname resources and exactly the reconciler's finalizers; the object goes if and only if it is being deleted and nothing else holds it |
| Finalizers.PublishingCompletes | internal/controllers/kubelb/loadbalancer_controller.go:172-239 | an undisturbed reconcile of an enabled LoadBalancer with endpoints ends with the Service under the cleanup finalizer and, when a hostname is configured, its resource under the hostname finalizer and the hostname in the status |
| Finalizers.NothingToDo | internal/controllers/kubelb/loadbalancer_controller.go:128-193 | no sequence of reconciler steps changes anything for an object without endpoints, for one being deleted without the reconciler's finalizers, or, with the tenant disabled, for one without the cleanup finalizer |
| Finalizers.DeletionIff | internal/controllers/kubelb/loadbalancer_controller.go:128-170 | the reconciler can bring a deletion to its end if and only if the object has endpoints |
| RouteServices.UpdateServiceStatuses | internal/controllers/kubelb/route_controller.go:281-293 | the loop over applied Services records them one after the other |
| RouteServices.RecordedMeans | internal/controllers/kubelb/route_controller.go:551-583 | what is recorded: the Service's name and ports, its labelled origin, for a bridge the namespace it is in, and the key joined from these |
| RouteServices.RecordedOnce | internal/controllers/kubelb/route_controller.go:551-583 | a key recorded once holds what was recorded, any other is left as it was |
| RouteServices.RecordedKeyIff | internal/controllers/kubelb/route_controller.go:551-583 | a generated Service is recorded under the key cleanup wants if and only if its labels carry origin namespace and name, or it happens to keep them |
| RouteServices.BridgeRecorded | internal/controllers/kubelb/route_controller.go:551-583 | a bridge is recorded in the controller's namespace under the generated name |
| RouteServices.RouteState.CleanupOrphanedServices | internal/controllers/kubelb/route_controller.go:296-357 | the wanted keys are those of the spec; after a pass in any iteration order, completed or not, exactly the Services behind the removed entries are deleted, a bridge in the controller's namespace and any other in the route's, and exactly their endpoints freed |
| RouteServices.DeletesRemoved | internal/controllers/kubelb/route_controller.go:325-341 | in every pass a removed entry lost its Service or bridge, and every deleted object is that of a removed entry |
| RouteServices.StopsWhenRefused | internal/controllers/kubelb/route_controller.go:337-340 | a pass stops only when the deletion of an unwanted entry's Service is refused |
| RouteServices.RouteState.CleanupRoute | internal/controllers/kubelb/route_controller.go:202-236 | a deleted route takes exactly the objects of its status away and frees its services' endpoints, or stops at a refused deletion with all ports kept |
| RouteServices.WantedStays | internal/controllers/kubelb/route_controller.go:296-357 | a wanted entry is never removed or changed, in any order and whatever fails |
| RouteServices.WantedBridgeStays | internal/controllers/kubelb/route_controller.go:309-324 | nor is the bridge of a wanted service |
| RouteServices.WantedObjectsStay | internal/controllers/kubelb/route_controller.go:296-357 | nor is the object behind either deleted by the route's own pass |
| RouteServices.OnePassShared | internal/controllers/kubelb/route_controller.go:296-357 | without bridges one completed pass leaves exactly the wanted entries and deletes exactly the other Services |
| RouteServices.TwoPassesSettle | internal/controllers/kubelb/route_controller.go:296-357 | with bridges two completed passes, in any two orders, leave exactly the wanted entries and their bridges, and delete exactly the Services and bridges behind the others |
| RouteServices.OnePassMayLeaveBridge | internal/controllers/kubelb/route_controller.go:309-324 | one pass may leave a bridge, depending on the order |
| RouteServices.SettledIsStable | internal/controllers/kubelb/route_controller.go:296-357 | a settled status is left alone in every order |
| RouteServices.UnwantedObjectDeleted | internal/controllers/kubelb/route_controller.go:296-357 | an entry under a key nobody wants costs its Service on every completed pass |
| RouteServices.DeletedIff | internal/controllers/kubelb/route_controller.go:296-357 | after a completed pass the object of an entry that is no bridge is deleted if and only if nobody wants its key |
| RouteServices.ServiceLostIff | internal/controllers/kubelb/route_controller.go:296-357 | a service of the spec whose Service is recorded loses it if and only if it carries no origin labels and does not keep namespace and name |
| RouteServices.NameDeletedIff | internal/controllers/kubelb/route_controller.go:296-357 | a pass deletes a Service of the namespace if and only if an unwanted entry bears its name |
| RouteServices.OtherRouteSafeIff | internal/controllers/kubelb/route_controller.go:296-357 | another route keeps its Service if and only if no unwanted entry bears that name |
| RouteServices.SharedServiceDeleted | internal/controllers/kubelb/route_controller.go:330-341 | of two routes that list one service, the one that drops it takes the other's Service away |
| RouteServices.CleanupSafeIff | internal/controllers/kubelb/route_controller.go:203-225 | deleting a route takes a Service of the namespace away if and only if its status names it |
| RouteServices.OrphanKeyIff | internal/controllers/kubelb/route_controller.go:350 | the endpoint freed with the entry recorded for a service is the service's own if and only if recorded namespace and generated name join to the same text as its namespace and name |
| RouteServices.OwnRowNotFreed | internal/controllers/kubelb/route_controller.go:350-353 | never so for a service labelled with its own namespace and name, unless the name is cut |
| RouteServices.OrphanRowFreedIff | internal/controllers/kubelb/route_controller.go:296-357 | a pass over an orphan removes entry and Service, and its row exactly under that condition |
| RouteServices.OrphanRowStays | internal/controllers/kubelb/route_controller.go:350-353 | a concrete orphan whose row stays |
| RouteRestart.LoadedServiceRow | internal/port-lookup/allocator.go:190-218 | in the whole rebuilt table a service has the row of its route's status |
| RouteRestart.RouteRestartIff | internal/port-lookup/allocator.go:190-218 | in the whole rebuilt table a recorded service has exactly its keys and ports, if and only if it carries origin labels or happens to keep namespace and name |
| RouteRestart.UnlabelledNotRestored | internal/port-lookup/allocator.go:190-218 | a concrete service without origin labels has nothing to read back |
| RouteRestart.RecordedRowSound | internal/port-lookup/allocator.go:190-218 | with or without labels, what is read back for a recorded service is what was lost |
| RouteRestart.RestartedTable | internal/port-lookup/allocator.go:154-222 | the table rebuilt from published LoadBalancers and recorded services has no shared port and is in range, so every result about runs applies after a restart |
| Renaming.NewNameIsGenerated | internal/controllers/kubelb/route_controller.go:403-412 | the name backends are rewritten to is the name of the generated Service, at most 60 characters |
| Renaming.IngressObject.RewriteBackends | internal/resources/ingress/ingress.go:44-60 | the in-place loops over rules, paths and services amount to rewriting each backend and the default backend |
| Renaming.RewriteBackend | internal/resources/ingress/ingress.go:46-49 | the loop over listed services, which reads the backend again after each rewrite |
| Renaming.UnlistedKept | internal/resources/ingress/ingress.go:44-60 | a backend that names no listed service is unchanged |
| Renaming.IngressBackendIff | internal/resources/ingress/ingress.go:44-60 | a backend gets the name generated for its service if and only if no later listed service bears that name |
| Renaming.IngressChain | internal/resources/ingress/ingress.go:44-60 | otherwise it is renamed again |
| Renaming.IngressFollowsServices | internal/resources/ingress/ingress.go:44-60 | every rule and default backend that named a service of the route names its generated Service afterwards |
| Renaming.ServicesFromIngress | internal/resources/ingress/ingress.go:126-154 | each backend of the Ingress exactly once |
| Renaming.HttpRouteObject.RewriteBackends | internal/resources/gatewayapi/httproute/httproute.go:43-95 | all rules rewritten in place, or a panic exactly when some rule panics |
| Renaming.RewriteRule | internal/resources/gatewayapi/httproute/httproute.go:43-95 | filters, backends and nested mirrors of one rule, including the write to the filter at the backend's index and when it panics |
| Renaming.LastMatchWins | internal/resources/gatewayapi/httproute/httproute.go:61-74 | a reference is unchanged exactly when it names no listed service; otherwise the last match names it |
| Renaming.LeftAloneIff | internal/resources/gatewayapi/httproute/httproute.go:61-74 | a reference is left alone if and only if it is to another kind than Service, or to a name or namespace that is not listed |
| Renaming.HttpBackendIff | internal/resources/gatewayapi/httproute/httproute.go:43-74 | a backend or rule mirror gets the generated name of its service, in the route's namespace, if and only if no later listed service matches too |
| Renaming.QualifiedBackend | internal/resources/gatewayapi/httproute/httproute.go:61-74 | a reference with a namespace always gets its own service's name |
| Renaming.HttpFollowsServices | internal/resources/gatewayapi/httproute/httproute.go:43-74 | every backend and rule mirror that named a service of the route last names its generated Service afterwards, in the route's namespace |
| Renaming.RuleIntendedIff | internal/resources/gatewayapi/httproute/httproute.go:75-93 | a rule is rewritten as intended, without a panic, if and only if no nested mirror names a listed service |
| Renaming.LastMirrorWins | internal/resources/gatewayapi/httproute/httproute.go:75-93 | of the mirrors nested under a backend the last that names a listed service gives the name that is written |
| Renaming.NestedMirrorPanics | internal/resources/gatewayapi/httproute/httproute.go:85 | a nested mirror under a rule without filters panics |
| Renaming.NestedMirrorMisplaced | internal/resources/gatewayapi/httproute/httproute.go:85-87 | under a rule with a mirror, that one is redirected and the nested one left alone |
| SnapshotCache.ListLoadBalancersAndRoutes | internal/controllers/kubelb/envoy_cp_controller.go:208-251 | the filtering loops, in both topologies |
| SnapshotCache.ListedLbsExactly | internal/controllers/kubelb/envoy_cp_controller.go:208-251 | each LoadBalancer that is not being deleted and, in the shared topology, is of the namespace is listed as often as it occurs, any other never |
| SnapshotCache.ListedRoutesExactly | internal/controllers/kubelb/envoy_cp_controller.go:208-251 | the same for routes |
| SnapshotCache.EnvoyController.Reconcile | internal/controllers/kubelb/envoy_cp_controller.go:103-140 | one step of the world: the table is the run of the calls for the listed objects, on success the cache is coherent with them and that table, other names are untouched; a failed list or proxy call changes nothing, and with nothing live the name goes |
| SnapshotCache.EnvoyController.UpdateCache | internal/controllers/kubelb/envoy_cp_controller.go:142-187 | on success the name is bound to the snapshot computed now, on failure nothing changes; it succeeds if and only if there is a snapshot and it is cached already, or the store and, for a name already bound, the consistency check succeed |
| SnapshotCache.ReconcileCoherent | internal/controllers/kubelb/envoy_cp_controller.go:103-187 | a successful reconcile binds the name to the snapshot of the live objects, their address lists and the resulting table, absent exactly when nothing is live; a failed one changes nothing unless nothing is live |
| CacheRuns.CacheCoherent | internal/controllers/kubelb/envoy_cp_controller.go:103-187 | over every run of edits, other controllers' allocator calls and reconciles, each name is bound to the snapshot of the world just after its last effective reconcile, or to nothing when there was none |
| CacheRuns.SnapshotFrame | internal/envoy/resource.go:94-182 | a snapshot depends on the table only through the ports of its own objects |
| CacheRuns.StoreFrame | internal/envoy/resource.go:73-148 | a snapshot depends on the address lists only through the references of its own objects |
| CacheRuns.CacheStaysCurrent | internal/controllers/kubelb/envoy_cp_controller.go:103-187 | the cached snapshot is that of the present world as long as the request's own objects and the lists they refer to are what they were and none of its keys is given up |
| CacheRuns.OwnReconcileSpares | internal/controllers/kubelb/envoy_cp_controller.go:128-139 | a reconcile of its own, failed or not, gives up no key of the objects it finds |
| CacheRuns.OtherTenantSpares | internal/controllers/kubelb/envoy_cp_controller.go:128-139 | in the shared topology no reconcile for another tenant gives up a key |
| CacheRuns.CacheUndisturbed | internal/controllers/kubelb/envoy_cp_controller.go:103-187 | in either topology, while the request's own objects and lists stay as they are and no controller releases their ports, the cache is coherent through any edits of others and any reconciles |
| CacheRuns.ReconciledTable | internal/controllers/kubelb/envoy_cp_controller.go:103-140 | a successful reconcile leaves all live objects served on ports of their own, and the snapshot of that table in the cache |
| CacheRuns.CachedRoutePort | internal/controllers/kubelb/envoy_cp_controller.go:103-187 | what is then cached has on the allocated port of each route service port the kind of listener the route needs, to all addresses of the route at its NodePort and to nothing else |
| CacheRuns.CachedLbPort | internal/controllers/kubelb/envoy_cp_controller.go:103-187 | the same for each port of a published tenant Service: a plain proxy to the given IPs, or to those of the tenant's default list |
| SnapshotCache.CollisionKeepsStale | internal/controllers/kubelb/envoy_cp_controller.go:165-170 | versions that collide leave a stale snapshot while success is reported |
| DataPathInstance.WebEndToEnd | internal/resources/service/service.go:158-188 | one concrete route meets all conditions of the end-to-end result of the global topology |
| DataPathInstance.WebReconciled | internal/controllers/kubelb/envoy_cp_controller.go:103-187 | its reconcile succeeds, and what is cached forwards its port to its one address and to nothing else |
| DataPathInstance.BridgeOverwritten | internal/resources/service/service.go:158-164 | two tenants with a service shop/web each, whose UIDs end alike: the first one is cut off |
| Hostname.ValidIffWellFormed | internal/kubelb/loadbalancer.go:208-242 | the validator accepts exactly two or more labels of section 2.1 of RFC 1123, each at most 63 and together at most 253 characters |
| Hostname.PrefixLabel | internal/kubelb/loadbalancer.go:167-205 | one more label keeps a name valid if and only if it fits |
| Hostname.GeneratedEmptyIff | internal/kubelb/loadbalancer.go:167-205 | with a domain configured the generated name is empty if and only if the stripped domain is invalid |
| Hostname.GeneratedValidIff | internal/kubelb/loadbalancer.go:167-205 | for a valid domain the generated name is valid if and only if it or its time-stamped fallback fits, and up to 236 characters it is the random label before the domain |
| Hostname.WildcardDomain | internal/kubelb/loadbalancer.go:167-205 | a wildcard domain gives the random label, or the time stamp where that does not fit, before what follows the wildcard; the tenant's domain comes before the configured one |
| Hostname.HexDigits | internal/kubelb/loadbalancer.go:182-189 | the random label has two hexadecimal digits for each byte, the high one first |
| Hostname.RandomFailureIff | internal/kubelb/loadbalancer.go:182-185 | when the random source fails the name is valid if and only if every label of the configured domain is one and the time-stamped label fits in front |
| Hostname.RandomFailureInvalid | internal/kubelb/loadbalancer.go:182-185 | so never for a wildcard domain |

## Left out

- Kubernetes client calls, informers, conflicts and retries are not modelled as such; the objects read and the outcome of each call are inputs.
- Random numbers and the clock are inputs: the draws of the port allocator are a given stream. With no free port left the loop in `allocatePort` does not end; the model requires that the stream still holds enough free draws.
- AllocatePort: requires a free draw ahead in the stream, because the loop has no other exit.
- Go panics are shut out by preconditions where the model does not show them: an endpoint group with fewer ports than front ports, a UID shorter than four characters, an Ingress rule without paths or with a non-Service backend.
- ReconcileService: requires an endpoint group and one endpoint port per front port, since the source indexes them.
- PublishStatus: requires no more Service ports than endpoint ports, since the source indexes the endpoint ports by position.
- Aliasing: MapLoadBalancer deletes from and MapSnapshot writes addresses into objects of the caller; both return new values here.
- The mutex of the allocator: each method is one critical section, and reads of the table without the lock are not interleaved.
- L4Forwarding: says only that some listener and cluster of the lists fit, and assumes the allocation, because it makes no condition on names; L4EndToEnd states the rest.
- L7Forwarding: likewise; L7EndToEnd and GlobalEndToEnd state the rest.
- GlobalEndToEnd: each Service is applied right after its bridge, as for one route; a failed application and two routes at once in between the two are not modelled.
- Reconcile: is one step; between its calls to the allocator and the computation of the snapshot no other controller's call is interleaved.
- CacheCoherent: treats the version as injective on configurations; CollisionKeepsStale shows what a collision does.
- Protobuf encoding, Envoy bootstrap, timeouts, settings of health checks and filters other than the kind of proxy: no property of the data path depends on them.
- The choice of annotations to propagate: the propagated annotations are an input.
- GetServicesFromHTTPRoute, GRPCRoute, Gateway and the controllers of the tenant side: they repeat the Ingress and HTTPRoute cases.
- ServicesFromIngress: gives names only, since every reference has the namespace of the Ingress.
- Backend renaming leaves names, labels, TLS secrets and class of the Ingress or HTTPRoute alone.
- DNS, certificates, reachability probes, metrics, tenants, secrets and the command-line tools.
- Strings are ASCII: lengths in bytes and lower-casing beyond ASCII are not modelled.
