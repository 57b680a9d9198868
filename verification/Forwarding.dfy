/** The two halves of the data path, computed by different controllers at different times,
    compose: what a Service targets is what a listener binds, and its cluster is right. */
module Forwarding {
  import opened Text
  import opened Keys
  import opened Api
  import opened Names
  import opened PortTable
  import opened AllocatorRuns
  import opened PortRequests
  import opened LoadBalancerMapping
  import opened ServiceGeneration
  import opened Snapshot
  import opened SnapshotClosure
  import opened AddressMemo

  // ----- address resolution -----

  function DirectAddresses(namespace: string, g: Endpoints, store: Store): Option<seq<Address>> {
    if g.reference.None? then Some(g.addresses)
    else if Ref(namespace, g.reference.value) in store then Some(store[Ref(namespace, g.reference.value)])
    else None
  }

  lemma {:induction false} DirectGroup(o: Owner, n: nat, store: Store, memo: Memo, j: nat)
    requires j < n <= |o.groups| && ResolveGroups(o, n, store, memo, false).Resolved?
    ensures Some(ResolveGroups(o, n, store, memo, false).value[j].addresses)
            == DirectAddresses(o.namespace, o.groups[j], store)
    decreases n
  {
    if j < n - 1 {
      DirectGroup(o, n - 1, store, memo, j);
    }
  }

  lemma {:induction false} DirectValue(os: seq<Owner>, n: nat, store: Store, i: nat, j: nat)
    requires i < n <= |os| && j < |os[i].groups| && Resolve(os, n, store, false).Resolved?
    ensures Some(Resolve(os, n, store, false).value[i][j].addresses)
            == DirectAddresses(os[i].namespace, os[i].groups[j], store)
    decreases n
  {
    if i < n - 1 {
      DirectValue(os, n - 1, store, i, j);
    } else {
      DirectGroup(os[i], |os[i].groups|, store, Resolve(os, n - 1, store, false).memo, j);
    }
  }

  /** A snapshot that exists used, for every group, the addresses a direct read gives. */
  lemma SnapshotAddresses(os: seq<Owner>, store: Store, i: nat, j: nat)
    requires KeysInjective(os) && Resolve(os, |os|, store, true).Resolved? && i < |os| && j < |os[i].groups|
    ensures Some(Resolve(os, |os|, store, true).value[i][j].addresses)
            == DirectAddresses(os[i].namespace, os[i].groups[j], store)
  {
    hide Resolve, KeysInjective, DirectAddresses;
    ResolveAgrees(os, |os|, store);
    DirectValue(os, |os|, store, i, j);
  }

  // ----- reaching backends through a configuration -----

  /** Some listener of that kind on that port leads to a cluster with exactly those backends. */
  predicate Reaches(c: EnvoyConfig, port: int, kind: ListenerKind, backends: seq<Backend>) {
    exists l, k :: 0 <= l < |c.listeners| && 0 <= k < |c.clusters|
      && c.listeners[l].port == port && c.listeners[l].kind == kind
      && c.listeners[l].cluster == c.clusters[k].name && c.clusters[k].backends == backends
  }

  /** And nothing else answers there. */
  predicate OnlyReaches(c: EnvoyConfig, port: int, kind: ListenerKind, backends: seq<Backend>) {
    forall l, k | 0 <= l < |c.listeners| && 0 <= k < |c.clusters| && c.listeners[l].port == port
           && c.listeners[l].cluster == c.clusters[k].name ::
      c.listeners[l].kind == kind && c.clusters[k].backends == backends
  }

  /** What a port of a LoadBalancer needs: a plain proxy. */
  function L4Kind(protocol: string): ListenerKind {
    if protocol == "UDP" then UdpProxy else TcpProxy
  }

  /** The kind of resource a route was made from, by the embedded resource or else the label. */
  function MadeFrom(r: Route): string {
    var origin := "kubelb.k8c.io/origin-resource-kind";
    var labelled := if origin in r.labels then r.labels[origin] else "";
    var embedded := if r.source.Some? then r.source.value.resourceKind else "";
    if embedded != "" then embedded else labelled
  }

  /** What a port of a route needs: an HTTP connection manager for an Ingress, an HTTPRoute or a
      GRPCRoute, else a plain proxy. */
  function L7Kind(r: Route, protocol: string): ListenerKind {
    if protocol == "UDP" then UdpProxy
    else if MadeFrom(r) in {"Ingress", "HTTPRoute", "GRPCRoute"} then HttpManager
    else TcpProxy
  }

  /** As many backends as IPs, the i-th at the i-th IP and the NodePort as 32 bits. */
  predicate ForwardsTo(backends: seq<Backend>, ips: seq<string>, nodePort: int) {
    |backends| == |ips|
    && forall i :: 0 <= i < |ips| ==> backends[i].ip == ips[i] && backends[i].port == nodePort % 0x1_0000_0000
  }

  function Ips(addresses: seq<Address>): seq<string> {
    seq(|addresses|, i requires 0 <= i < |addresses| => addresses[i].ip)
  }

  lemma BackendsForward(addresses: seq<Address>, nodePort: int, backends: seq<Backend>)
    ensures ForwardsTo(backends, Ips(addresses), nodePort) <==> backends == Backends(addresses, nodePort)
  {
    if ForwardsTo(backends, Ips(addresses), nodePort) {
      assert backends == Backends(addresses, nodePort);
    }
  }

  lemma ReachesByEmit(c: EnvoyConfig, e: Emit, kind: ListenerKind)
    requires e.cluster in c.clusters && e.listener.Some? && e.listener.value in c.listeners
    requires e.listener.value.cluster == e.cluster.name && e.listener.value.kind == kind
    ensures Reaches(c, e.listener.value.port, kind, e.cluster.backends)
  {
    var l :| 0 <= l < |c.listeners| && c.listeners[l] == e.listener.value;
    var k :| 0 <= k < |c.clusters| && c.clusters[k] == e.cluster;
  }

  // ----- layer 4 -----

  /** The object carries what MapLoadBalancer published for the Service. */
  predicate Publishes(lb: LoadBalancer, s: Service, ips: seq<string>, useReference: bool, cluster: string) {
    var m := Mapped(s, ips, useReference, cluster);
    lb.name == m.name && lb.namespace == m.namespace && lb.ports == m.ports && lb.endpoints == m.endpoints
  }

  function UserPortKey(p: ServicePort): string {
    PortKey(p.nodePort, p.protocol)
  }

  lemma L4Target(lb: LoadBalancer, s: Service, ips: seq<string>, useReference: bool, cluster: string,
                 existing: seq<ServicePort>, t: Table, r: seq<ServicePort>, j: nat)
    requires Publishes(lb, s, ips, useReference, cluster) && DistinctFrontNames(lb.ports) && j < |s.ports|
    requires Has(t, LbKey(lb, 0), UserPortKey(s.ports[j])) && InRange(t)
    requires Indexable(lb) && IsServicePorts(r, lb, existing, t)
    ensures exists p :: p in r && p.port == s.ports[j].port && p.protocol == s.ports[j].protocol
                        && p.targetPort == t[LbKey(lb, 0)][UserPortKey(s.ports[j])]
  {
    MappedUpstream(s, ips, useReference, cluster, j);
    UpstreamOfSpec(lb, Mapped(s, ips, useReference, cluster), j);
    MappedShape(s, ips, useReference, cluster);
    BuiltPortIn(r, lb, existing, t, j);
    PortConversions(t[LbKey(lb, 0)][UserPortKey(s.ports[j])]);
    hide IsServicePorts, Upstream, Mapped, Int32;
    var p := BuiltPort(lb, existing, t, j);
    assert p.targetPort == Target(lb, t, j);
  }

  lemma UpstreamOfSpec(a: LoadBalancer, b: LoadBalancer, i: nat)
    requires a.ports == b.ports && a.endpoints == b.endpoints && a.endpoints != [] && Indexable(a) && i < |a.ports|
    ensures Upstream(a, i) == Upstream(b, i)
  {
  }

  lemma L4Listener(lbs: seq<LoadBalancer>, a: nat, s: Service, ips: seq<string>, useReference: bool, cluster: string,
                   routes: seq<Route>, store: Store, t: Table, j: nat)
    requires a < |lbs| && Publishes(lbs[a], s, ips, useReference, cluster) && j < |s.ports|
    requires s.ports[j].protocol == TCP || s.ports[j].protocol == UDP
    requires Has(t, LbKey(lbs[a], 0), UserPortKey(s.ports[j])) && InRange(t)
    requires KeysInjective(Owners(lbs, routes)) && SnapshotOf(lbs, routes, store, t).Some?
    ensures DirectAddresses(cluster, lbs[a].endpoints[0], store).Some?
    ensures Reaches(SnapshotOf(lbs, routes, store, t).value, t[LbKey(lbs[a], 0)][UserPortKey(s.ports[j])],
                    L4Kind(s.ports[j].protocol),
                    Backends(DirectAddresses(cluster, lbs[a].endpoints[0], store).value, s.ports[j].nodePort))
  {
    var os, lb := Owners(lbs, routes), lbs[a];
    MappedShape(s, ips, useReference, cluster);
    LbPortPublished(lbs, routes, store, t, a, 0, j);
    assert os[a] == Owner(cluster, lb.endpoints);
    SnapshotAddresses(os, store, a, 0);
    var addresses := Resolve(os, |os|, store, true).value[a][0].addresses;
    var p := lb.endpoints[0].ports[j];
    PortConversions(t[LbKey(lb, 0)][UserPortKey(s.ports[j])]);
    PortEmitPaired(lb, 0, addresses, p, t);
    PortEmitServed(lb, 0, addresses, p, t);
    hide SnapshotOf, PortEmit, Reaches, Mapped, Uint32;
    ReachesByEmit(SnapshotOf(lbs, routes, store, t).value, PortEmit(lb, 0, addresses, p, t), L4Kind(p.protocol));
  }

  lemma PortEmitServed(lb: LoadBalancer, i: nat, addresses: seq<Address>, p: EndpointPort, t: Table)
    requires Has(t, LbKey(lb, i), PortKey(p.port, p.protocol)) && (p.protocol == TCP || p.protocol == UDP)
    ensures var e := PortEmit(lb, i, addresses, p, t);
            e.listener.Some? && e.listener.value.port == Uint32(t[LbKey(lb, i)][PortKey(p.port, p.protocol)])
            && e.listener.value.kind == L4Kind(p.protocol) && e.cluster.backends == Backends(addresses, p.port)
  {
  }

  lemma ServiceEmitServed(r: Route, s: Service, addresses: seq<Address>, p: ServicePort, t: Table)
    requires Has(t, ServiceKey(r, s), PortKey(p.port, p.protocol)) && (p.protocol == TCP || p.protocol == UDP)
    ensures var e := ServiceEmit(r, s, addresses, p, t);
            e.listener.Some? && e.listener.value.port == Uint32(t[ServiceKey(r, s)][PortKey(p.port, p.protocol)])
            && e.listener.value.kind == L7Kind(r, p.protocol) && e.cluster.backends == Backends(addresses, p.nodePort)
  {
  }

  /** Layer 4 end to end, over any run: the Service controller builds the Service at moment
      m, the Envoy controller the snapshot at a later moment n. If the user port's key was
      allocated at m and the operations in between retain it, the user's port and protocol
      appear in the Service with a target port on which Envoy reaches exactly every address
      at that user port's NodePort. */
  lemma L4Forwarding(s: Service, ips: seq<string>, useReference: bool, cluster: string, lbs: seq<LoadBalancer>, a: nat,
                     routes: seq<Route>, store: Store, t: Table, ops: seq<Op>, m: nat, n: nat,
                     existing: seq<ServicePort>, r: seq<ServicePort>, j: nat)
    requires a < |lbs| && Publishes(lbs[a], s, ips, useReference, cluster) && Indexable(lbs[a]) && j < |s.ports|
    requires AdmittedPorts(s.ports) && (s.ports[j].protocol == TCP || s.ports[j].protocol == UDP)
    requires InRange(t) && m <= n <= |ops| && Run(t, ops, m).Some? && Run(t, ops, n).Some?
    requires Has(Run(t, ops, m).value, LbKey(lbs[a], 0), UserPortKey(s.ports[j]))
    requires forall i :: m <= i < n ==> Retains(ops[i], LbKey(lbs[a], 0), UserPortKey(s.ports[j]))
    requires IsServicePorts(r, lbs[a], existing, Run(t, ops, m).value)
    requires KeysInjective(Owners(lbs, routes)) && SnapshotOf(lbs, routes, store, Run(t, ops, n).value).Some?
    ensures DirectAddresses(cluster, lbs[a].endpoints[0], store).Some?
    ensures exists p :: p in r && p.port == s.ports[j].port && p.protocol == s.ports[j].protocol
                        && Reaches(SnapshotOf(lbs, routes, store, Run(t, ops, n).value).value, p.targetPort,
                                   L4Kind(p.protocol),
                                   Backends(DirectAddresses(cluster, lbs[a].endpoints[0], store).value,
                                            s.ports[j].nodePort))
  {
    AdmittedNamesDistinct(s, ips, useReference, cluster);
    assert DistinctFrontNames(lbs[a].ports);
    hide *;
    RunInRange(t, ops, m);
    RunInRange(t, ops, n);
    Stable(t, ops, m, n, LbKey(lbs[a], 0), UserPortKey(s.ports[j]));
    L4Target(lbs[a], s, ips, useReference, cluster, existing, Run(t, ops, m).value, r, j);
    L4Listener(lbs, a, s, ips, useReference, cluster, routes, store, Run(t, ops, n).value, j);
  }

  // ----- layer 7 -----

  /** The two fallbacks for an unallocated port differ, so the halves agree exactly when
      the port is allocated or its NodePort happens to be its Service port. */
  lemma L7AgreementIff(r: Route, s: Service, p: ServicePort, t: Table)
    requires InRange(t)
    ensures TargetPort(t, ServiceKey(r, s), p) == ListenerPort(t, ServiceKey(r, s), PortKey(p.port, p.protocol), p.port)
            <==> Has(t, ServiceKey(r, s), PortKey(p.port, p.protocol)) || p.nodePort == Uint32(p.port)
  {
    var ep, k := ServiceKey(r, s), PortKey(p.port, p.protocol);
    if Has(t, ep, k) {
      PortConversions(t[ep][k]);
    }
  }

  /** Port 80 with NodePort 30080, not allocated: the Service targets one number, the listener
      binds the other. */
  lemma FallbacksDiffer(r: Route, s: Service)
    ensures var p := ServicePort("http", 80, TCP, 0, 30080);
            TargetPort(map[], ServiceKey(r, s), p) == 30080
            && ListenerPort(map[], ServiceKey(r, s), PortKey(p.port, p.protocol), p.port) == 80
  {
    hide ServiceKey, PortKey;
  }

  function GeneratedFor(r: Route, s: Service, appName: string, t: Table, global: bool,
                        annotations: Option<Labels>): Service
    requires |s.uid| >= NAME_SUFFIX_LENGTH
  {
    Generated(s, appName, r.namespace, OriginalRouteName(r), t, global, annotations)
  }

  function AllAddresses(r: Route, store: Store, n: nat): Option<seq<Address>>
    requires n <= |r.endpoints|
  {
    if n == 0 then Some([])
    else
      var before, next := AllAddresses(r, store, n - 1), DirectAddresses(r.namespace, r.endpoints[n - 1], store);
      if before.None? || next.None? then None else Some(before.value + next.value)
  }

  lemma {:induction false} RouteAddressesDirect(os: seq<Owner>, store: Store, i: nat, r: Route, n: nat)
    requires KeysInjective(os) && Resolve(os, |os|, store, true).Resolved?
    requires i < |os| && os[i] == Owner(r.namespace, r.endpoints) && n <= |r.endpoints|
    ensures Some(RouteAddresses(Resolve(os, |os|, store, true).value[i], n)) == AllAddresses(r, store, n)
  {
    hide KeysInjective, Resolve, DirectAddresses;
    if n > 0 {
      RouteAddressesDirect(os, store, i, r, n - 1);
      SnapshotAddresses(os, store, i, n - 1);
    }
  }

  lemma L7Listener(lbs: seq<LoadBalancer>, routes: seq<Route>, a: nat, i: nat, p: nat, store: Store, t: Table)
    requires a < |routes| && i < |SourceServices(routes[a])| && p < |SourceServices(routes[a])[i].ports|
    requires var q := SourceServices(routes[a])[i].ports[p];
             (q.protocol == TCP || q.protocol == UDP)
                 && Has(t, ServiceKey(routes[a], SourceServices(routes[a])[i]), PortKey(q.port, q.protocol))
    requires InRange(t) && KeysInjective(Owners(lbs, routes)) && SnapshotOf(lbs, routes, store, t).Some?
    ensures AllAddresses(routes[a], store, |routes[a].endpoints|).Some?
    ensures var s := SourceServices(routes[a])[i];
            var q := s.ports[p];
            Reaches(SnapshotOf(lbs, routes, store, t).value, t[ServiceKey(routes[a], s)][PortKey(q.port, q.protocol)],
                    L7Kind(routes[a], q.protocol),
                    Backends(AllAddresses(routes[a], store, |routes[a].endpoints|).value, q.nodePort))
  {
    hide *;
    var os, r, s := Owners(lbs, routes), routes[a], SourceServices(routes[a])[i];
    var q := s.ports[p];
    RouteOwnerOf(lbs, routes, a);
    SnapshotResolved(lbs, routes, store, t);
    ServicePortPublished(lbs, routes, store, t, a, i, p);
    RouteAddressesDirect(os, store, |lbs| + a, r, |r.endpoints|);
    InRangeAt(t, ServiceKey(r, s), PortKey(q.port, q.protocol));
    PortConversions(t[ServiceKey(r, s)][PortKey(q.port, q.protocol)]);
    var groups := Resolve(os, |os|, store, true).value[|lbs| + a];
    var addresses := RouteAddresses(groups, |groups|);
    ServiceEmitPaired(r, s, addresses, q, t);
    ServiceEmitServed(r, s, addresses, q, t);
    PairedMeans(ServiceEmit(r, s, addresses, q, t));
    ReachesByEmit(SnapshotOf(lbs, routes, store, t).value, ServiceEmit(r, s, addresses, q, t), L7Kind(r, q.protocol));
  }

  lemma RouteOwnerOf(lbs: seq<LoadBalancer>, routes: seq<Route>, a: nat)
    requires a < |routes|
    ensures |Owners(lbs, routes)| == |lbs| + |routes|
    ensures |SourceServices(routes[a])| > 0
            ==> Owners(lbs, routes)[|lbs| + a] == Owner(routes[a].namespace, routes[a].endpoints)
  {
  }

  lemma SnapshotResolved(lbs: seq<LoadBalancer>, routes: seq<Route>, store: Store, t: Table)
    requires SnapshotOf(lbs, routes, store, t).Some?
    ensures Resolve(Owners(lbs, routes), |Owners(lbs, routes)|, store, true).Resolved?
    ensures Emits(lbs, routes, store, t, true).Some?
            && SnapshotOf(lbs, routes, store, t).value == Config(Emits(lbs, routes, store, t, true).value)
  {
  }

  lemma InRangeAt(t: Table, ep: string, k: string)
    requires InRange(t) && Has(t, ep, k)
    ensures ep in t && k in t[ep] && 0 <= t[ep][k] < 0x8000_0000
  {
  }

  lemma PairedMeans(e: Emit)
    requires Paired(e) && e.listener.Some?
    ensures e.listener.value.name == e.listener.value.cluster == e.cluster.name
  {
  }

  /** Layer 7 end to end, over any run: each port of the generated Service targets a
      listener whose cluster is the route's addresses at that port's NodePort. */
  lemma L7Forwarding(lbs: seq<LoadBalancer>, routes: seq<Route>, a: nat, i: nat, p: nat, store: Store, t: Table,
                     ops: seq<Op>, m: nat, n: nat, appName: string, global: bool, annotations: Option<Labels>)
    requires a < |routes| && i < |SourceServices(routes[a])| && p < |SourceServices(routes[a])[i].ports|
             && |SourceServices(routes[a])[i].uid| >= NAME_SUFFIX_LENGTH
    requires InRange(t) && m <= n <= |ops| && Run(t, ops, m).Some? && Run(t, ops, n).Some?
    requires var ep, q := ServiceKey(routes[a], SourceServices(routes[a])[i]), SourceServices(routes[a])[i].ports[p];
             && (q.protocol == TCP || q.protocol == UDP)
             && Has(Run(t, ops, m).value, ep, PortKey(q.port, q.protocol))
             && forall x :: m <= x < n ==> Retains(ops[x], ep, PortKey(q.port, q.protocol))
    requires KeysInjective(Owners(lbs, routes)) && SnapshotOf(lbs, routes, store, Run(t, ops, n).value).Some?
    ensures AllAddresses(routes[a], store, |routes[a].endpoints|).Some?
    ensures var s := SourceServices(routes[a])[i];
            var g := GeneratedFor(routes[a], s, appName, Run(t, ops, m).value, global, annotations);
            && |g.ports| == |s.ports| && g.ports[p].port == s.ports[p].port
                && g.ports[p].protocol == s.ports[p].protocol
            && Reaches(SnapshotOf(lbs, routes, store, Run(t, ops, n).value).value, g.ports[p].targetPort,
                       L7Kind(routes[a], s.ports[p].protocol),
                       Backends(AllAddresses(routes[a], store, |routes[a].endpoints|).value, s.ports[p].nodePort))
  {
    hide *;
    var s := SourceServices(routes[a])[i];
    var ep, k := ServiceKey(routes[a], s), PortKey(s.ports[p].port, s.ports[p].protocol);
    RunInRange(t, ops, m);
    RunInRange(t, ops, n);
    Stable(t, ops, m, n, ep, k);
    L7Listener(lbs, routes, a, i, p, store, Run(t, ops, n).value);
    GeneratedTarget(routes[a], s, appName, Run(t, ops, m).value, global, annotations, p);
  }

  lemma GeneratedTarget(r: Route, s: Service, appName: string, t: Table, global: bool, annotations: Option<Labels>,
                        p: nat)
    requires |s.uid| >= NAME_SUFFIX_LENGTH && p < |s.ports| && InRange(t)
    requires Has(t, ServiceKey(r, s), PortKey(s.ports[p].port, s.ports[p].protocol))
    ensures var g := GeneratedFor(r, s, appName, t, global, annotations);
            && |g.ports| == |s.ports| && g.ports[p].port == s.ports[p].port
                && g.ports[p].protocol == s.ports[p].protocol
            && g.ports[p].name == s.ports[p].name
            && g.ports[p].targetPort == t[ServiceKey(r, s)][PortKey(s.ports[p].port, s.ports[p].protocol)]
  {
    PortConversions(t[ServiceKey(r, s)][PortKey(s.ports[p].port, s.ports[p].protocol)]);
  }

  /** A connection to a port of the generated Service by way of slice and bridge: any slice
      port of the name, then any bridge port of that number and protocol. */
  predicate Takes(slice: EndpointSlice, bridge: Service, name: string, x: nat, y: nat) {
    x < |slice.ports| && y < |bridge.ports| && slice.ports[x].name == name
        && bridge.ports[y].port == slice.ports[x].port && bridge.ports[y].protocol == slice.ports[x].protocol
  }

  /** Through the Service's own bridge it can take one, and ends at the target port of p. */
  lemma BridgeChain(g: Service, appName: string, controllerNamespace: string, clusterIps: seq<string>, p: nat)
    requires p < |g.ports| && DistinctNames(g.ports)
    ensures var slice, bridge := SliceFor(g, clusterIps), Bridge(g, appName, controllerNamespace);
            && Takes(slice, bridge, g.ports[p].name, p, p)
            && forall x: nat, y: nat | Takes(slice, bridge, g.ports[p].name, x, y) ::
                 bridge.ports[y].targetPort == g.ports[p].targetPort && bridge.ports[y].protocol == g.ports[p].protocol
  {
  }
}
