/** What a snapshot holds, resource by resource, in terms of the objects it was made from. */
module SnapshotContents {
  import opened Text
  import opened Api
  import opened PortTable
  import opened PortRequests
  import opened Snapshot
  import opened SnapshotClosure
  import opened AddressMemo
  import opened Forwarding
  import opened ListenerExclusivity

  /** The allocated port, or else the one asked for, as 32 bits. */
  function BoundPort(t: Table, ep: string, port: int, protocol: string): int {
    var k := Decimal(port) + "-" + protocol;
    (if ep in t && k in t[ep] then t[ep][k] else port) % 0x1_0000_0000
  }

  // ----- a port of a LoadBalancer -----

  predicate LbListener(l: Listener, lb: LoadBalancer, i: nat, q: EndpointPort, t: Table) {
    var ep := lb.namespace + "-" + lb.name + "-ep-" + Decimal(i);
    && (q.protocol == "TCP" || q.protocol == "UDP")
    && l.name == ep + "-port-" + Decimal(q.port) + "-" + q.protocol && l.cluster == l.name
    && l.port == BoundPort(t, ep, q.port, q.protocol) && l.kind == L4Kind(q.protocol)
  }

  predicate LbCluster(c: Cluster, lb: LoadBalancer, i: nat, q: EndpointPort, ips: seq<string>) {
    && c.name == lb.namespace + "-" + lb.name + "-ep-" + Decimal(i) + "-port-" + Decimal(q.port) + "-" + q.protocol
    && ForwardsTo(c.backends, ips, q.port) && (c.healthChecked <==> q.protocol != "UDP") && c.http == NoHttp
  }

  lemma PortEmitListener(lb: LoadBalancer, i: nat, addresses: seq<Address>, q: EndpointPort, t: Table, l: Listener)
    ensures PortEmit(lb, i, addresses, q, t).listener == Some(l) <==> LbListener(l, lb, i, q, t)
  {
    hide Decimal, Backends;
  }

  lemma PortEmitCluster(lb: LoadBalancer, i: nat, addresses: seq<Address>, q: EndpointPort, t: Table, c: Cluster)
    ensures PortEmit(lb, i, addresses, q, t).cluster == c <==> LbCluster(c, lb, i, q, Ips(addresses))
  {
    BackendsForward(addresses, q.port, c.backends);
    hide Decimal, ForwardsTo, Backends;
  }

  // ----- a port of a service of a route -----

  /** The name of the resource the route was made from, embedded or else labelled, or the route's. */
  function NamedAfter(r: Route): string {
    var origin := "kubelb.k8c.io/origin-name";
    var labelled := if origin in r.labels then r.labels[origin] else "";
    var embedded := if r.source.Some? then r.source.value.resourceName else "";
    if embedded != "" then embedded else if labelled != "" then labelled else r.name
  }

  function RouteEp(r: Route, s: Service): string {
    "tenant-" + r.namespace + "-route-" + s.namespace + "-" + s.name + "-" + NamedAfter(r)
  }

  predicate RouteListener(l: Listener, r: Route, s: Service, q: ServicePort, t: Table) {
    && (q.protocol == "TCP" || q.protocol == "UDP")
    && l.name == RouteEp(r, s) + "-svc-" + s.uid + "-port-" + Decimal(q.port) + "-" + q.protocol
    && l.cluster == l.name && l.port == BoundPort(t, RouteEp(r, s), q.port, q.protocol)
    && l.kind == L7Kind(r, q.protocol)
  }

  /** HTTP/2 upstream for a GRPCRoute, HTTP/1 for the other HTTP routes. */
  predicate RouteCluster(c: Cluster, r: Route, s: Service, q: ServicePort, ips: seq<string>) {
    && c.name == RouteEp(r, s) + "-svc-" + s.uid + "-port-" + Decimal(q.port) + "-" + q.protocol
    && ForwardsTo(c.backends, ips, q.nodePort) && (c.healthChecked <==> q.protocol != "UDP")
    && (c.http == Http2 <==> MadeFrom(r) == "GRPCRoute")
    && (c.http == Http1 <==> MadeFrom(r) == "HTTPRoute" || MadeFrom(r) == "Ingress")
  }

  lemma ServiceEmitListener(r: Route, s: Service, addresses: seq<Address>, q: ServicePort, t: Table, l: Listener)
    ensures ServiceEmit(r, s, addresses, q, t).listener == Some(l) <==> RouteListener(l, r, s, q, t)
  {
    assert NamedAfter(r) == OriginalRouteName(r) && MadeFrom(r) == RouteKind(r);
    hide Decimal, Backends, OriginalRouteName, RouteKind, NamedAfter, MadeFrom;
  }

  lemma ServiceEmitCluster(r: Route, s: Service, addresses: seq<Address>, q: ServicePort, t: Table, c: Cluster)
    ensures ServiceEmit(r, s, addresses, q, t).cluster == c <==> RouteCluster(c, r, s, q, Ips(addresses))
  {
    BackendsForward(addresses, q.nodePort, c.backends);
    assert NamedAfter(r) == OriginalRouteName(r) && MadeFrom(r) == RouteKind(r);
    hide Decimal, ForwardsTo, Backends, OriginalRouteName, RouteKind, NamedAfter, MadeFrom;
  }

  // ----- the snapshot -----

  predicate ListenerAt(lbs: seq<LoadBalancer>, routes: seq<Route>, t: Table, x: Place, l: Listener) {
    && ValidPlace(lbs, routes, x)
    && match x
       case LbPlace(a, i, p) => LbListener(l, lbs[a], i, lbs[a].endpoints[i].ports[p], t)
       case RoutePlace(a, i, p) =>
         RouteListener(l, routes[a], SourceServices(routes[a])[i], SourceServices(routes[a])[i].ports[p], t)
  }

  predicate ClusterAt(lbs: seq<LoadBalancer>, routes: seq<Route>, store: Store, x: Place, c: Cluster) {
    && ValidPlace(lbs, routes, x)
    && match x
       case LbPlace(a, i, p) =>
         var addresses := DirectAddresses(lbs[a].namespace, lbs[a].endpoints[i], store);
         addresses.Some? && LbCluster(c, lbs[a], i, lbs[a].endpoints[i].ports[p], Ips(addresses.value))
       case RoutePlace(a, i, p) =>
         var s, addresses := SourceServices(routes[a])[i], AllAddresses(routes[a], store, |routes[a].endpoints|);
         addresses.Some? && RouteCluster(c, routes[a], s, s.ports[p], Ips(addresses.value))
  }

  /** The pair emitted at a place, with the addresses as resolved. */
  ghost predicate EmittedAt(lbs: seq<LoadBalancer>, routes: seq<Route>, store: Store, t: Table, x: Place, e: Emit) {
    var v := Resolve(Owners(lbs, routes), |Owners(lbs, routes)|, store, true);
    && ValidPlace(lbs, routes, x) && v.Resolved? && |v.value| == |lbs| + |routes|
    && (forall a :: 0 <= a < |lbs| ==> |v.value[a]| == |lbs[a].endpoints|)
    && e == EmitAt(lbs, routes, v.value, t, x)
  }

  lemma EmitAtPublished(lbs: seq<LoadBalancer>, routes: seq<Route>, store: Store, t: Table, x: Place) returns (e: Emit)
    requires SnapshotOf(lbs, routes, store, t).Some? && ValidPlace(lbs, routes, x)
    ensures EmittedAt(lbs, routes, store, t, x, e)
    ensures var c := SnapshotOf(lbs, routes, store, t).value;
            e.cluster in c.clusters && (e.listener.Some? ==> e.listener.value in c.listeners)
  {
    SnapshotResolved(lbs, routes, store, t);
    ResolvedLbGroups(lbs, routes, store, true);
    hide SnapshotOf, Emits, Resolve, PortEmit, ServiceEmit, RouteAddresses;
    e := EmitAt(lbs, routes, Resolve(Owners(lbs, routes), |Owners(lbs, routes)|, store, true).value, t, x);
    match x
    case LbPlace(a, i, p) => LbPortPublished(lbs, routes, store, t, a, i, p);
    case RoutePlace(a, i, p) => ServicePortPublished(lbs, routes, store, t, a, i, p);
  }

  lemma ListenerOf(lbs: seq<LoadBalancer>, routes: seq<Route>, store: Store, t: Table, x: Place, e: Emit, l: Listener)
    requires EmittedAt(lbs, routes, store, t, x, e)
    ensures e.listener == Some(l) <==> ListenerAt(lbs, routes, t, x, l)
  {
    hide Owners, Resolve, PortEmit, ServiceEmit, RouteAddresses, LbListener, RouteListener;
    var v: seq<seq<Endpoints>> := Resolve(Owners(lbs, routes), |Owners(lbs, routes)|, store, true).value;
    match x
    case LbPlace(a, i, p) => PortEmitListener(lbs[a], i, v[a][i].addresses, lbs[a].endpoints[i].ports[p], t, l);
    case RoutePlace(a, i, p) =>
      var s, groups := SourceServices(routes[a])[i], v[|lbs| + a];
      ServiceEmitListener(routes[a], s, RouteAddresses(groups, |groups|), s.ports[p], t, l);
  }

  lemma LbClusterOf(lbs: seq<LoadBalancer>, routes: seq<Route>, store: Store, t: Table, a: nat, i: nat, p: nat,
                    e: Emit, c: Cluster)
    requires KeysInjective(Owners(lbs, routes)) && EmittedAt(lbs, routes, store, t, LbPlace(a, i, p), e)
    ensures e.cluster == c <==> ClusterAt(lbs, routes, store, LbPlace(a, i, p), c)
  {
    var os := Owners(lbs, routes);
    assert os[a] == Owner(lbs[a].namespace, lbs[a].endpoints);
    hide Owners, Resolve, KeysInjective, PortEmit, ServiceEmit, LbCluster, DirectAddresses;
    var v: seq<seq<Endpoints>> := Resolve(os, |os|, store, true).value;
    SnapshotAddresses(os, store, a, i);
    PortEmitCluster(lbs[a], i, v[a][i].addresses, lbs[a].endpoints[i].ports[p], t, c);
  }

  lemma RouteClusterOf(lbs: seq<LoadBalancer>, routes: seq<Route>, store: Store, t: Table, a: nat, i: nat, p: nat,
                       e: Emit, c: Cluster)
    requires KeysInjective(Owners(lbs, routes)) && EmittedAt(lbs, routes, store, t, RoutePlace(a, i, p), e)
    ensures e.cluster == c <==> ClusterAt(lbs, routes, store, RoutePlace(a, i, p), c)
  {
    hide *;
    var os := Owners(lbs, routes);
    RouteEmitted(lbs, routes, store, t, a, i, p, e);
    RouteClusterAt(lbs, routes, store, a, i, p, c);
    RouteOwnerOf(lbs, routes, a);
    var s, groups := SourceServices(routes[a])[i], Resolve(os, |os|, store, true).value[|lbs| + a];
    RouteAddressesDirect(os, store, |lbs| + a, routes[a], |routes[a].endpoints|);
    ServiceEmitCluster(routes[a], s, RouteAddresses(groups, |groups|), s.ports[p], t, c);
  }

  lemma RouteEmitted(lbs: seq<LoadBalancer>, routes: seq<Route>, store: Store, t: Table, a: nat, i: nat, p: nat,
                     e: Emit)
    requires EmittedAt(lbs, routes, store, t, RoutePlace(a, i, p), e)
    ensures a < |routes| && i < |SourceServices(routes[a])| && p < |SourceServices(routes[a])[i].ports|
    ensures var v := Resolve(Owners(lbs, routes), |Owners(lbs, routes)|, store, true);
            && v.Resolved? && |v.value| == |lbs| + |routes|
            && var s, groups := SourceServices(routes[a])[i], v.value[|lbs| + a];
               |groups| == |Owners(lbs, routes)[|lbs| + a].groups|
               && e == ServiceEmit(routes[a], s, RouteAddresses(groups, |groups|), s.ports[p], t)
  {
    hide Resolve, PortEmit, ServiceEmit, RouteAddresses;
  }

  lemma RouteClusterAt(lbs: seq<LoadBalancer>, routes: seq<Route>, store: Store, a: nat, i: nat, p: nat, c: Cluster)
    requires a < |routes| && i < |SourceServices(routes[a])| && p < |SourceServices(routes[a])[i].ports|
    ensures var s, addresses := SourceServices(routes[a])[i], AllAddresses(routes[a], store, |routes[a].endpoints|);
            ClusterAt(lbs, routes, store, RoutePlace(a, i, p), c)
            <==> addresses.Some? && RouteCluster(c, routes[a], s, s.ports[p], Ips(addresses.value))
  {
    hide LbCluster, RouteCluster, AllAddresses, DirectAddresses;
  }

  lemma ClusterOf(lbs: seq<LoadBalancer>, routes: seq<Route>, store: Store, t: Table, x: Place, e: Emit, c: Cluster)
    requires KeysInjective(Owners(lbs, routes)) && EmittedAt(lbs, routes, store, t, x, e)
    ensures e.cluster == c <==> ClusterAt(lbs, routes, store, x, c)
  {
    hide *;
    match x
    case LbPlace(a, i, p) => LbClusterOf(lbs, routes, store, t, a, i, p, e, c);
    case RoutePlace(a, i, p) => RouteClusterOf(lbs, routes, store, t, a, i, p, e, c);
  }

  /** The listeners of a snapshot are exactly those of the TCP and UDP ports of the
      LoadBalancers' endpoint groups and of the services of the routes. */
  lemma ListenersExactly(lbs: seq<LoadBalancer>, routes: seq<Route>, store: Store, t: Table, l: Listener)
    requires SnapshotOf(lbs, routes, store, t).Some?
    ensures l in SnapshotOf(lbs, routes, store, t).value.listeners
            <==> exists x :: ListenerAt(lbs, routes, t, x, l)
  {
    hide *;
    SnapshotResolved(lbs, routes, store, t);
    var es := Emits(lbs, routes, store, t, true).value;
    ConfigListeners(es);
    if l in Listeners(es, |es|) {
      var k :| 0 <= k < |Listeners(es, |es|)| && Listeners(es, |es|)[k] == l;
      var i := ListenerFrom(es, |es|, k);
      var x := EmitFrom(lbs, routes, store, t, es[i]);
      ListenerOf(lbs, routes, store, t, x, es[i], l);
    }
    if x :| ListenerAt(lbs, routes, t, x, l) {
      ListenerPlace(lbs, routes, t, x, l);
      var e := EmitAtPublished(lbs, routes, store, t, x);
      ListenerOf(lbs, routes, store, t, x, e, l);
    }
  }

  /** The clusters are exactly those of all those ports, whatever the protocol. */
  lemma ClustersExactly(lbs: seq<LoadBalancer>, routes: seq<Route>, store: Store, t: Table, c: Cluster)
    requires KeysInjective(Owners(lbs, routes)) && SnapshotOf(lbs, routes, store, t).Some?
    ensures c in SnapshotOf(lbs, routes, store, t).value.clusters
            <==> exists x :: ClusterAt(lbs, routes, store, x, c)
  {
    hide *;
    SnapshotResolved(lbs, routes, store, t);
    var es := Emits(lbs, routes, store, t, true).value;
    ConfigListeners(es);
    if c in Clusters(es) {
      var i := ClusterFrom(es, c);
      var x := EmitFrom(lbs, routes, store, t, es[i]);
      ClusterOf(lbs, routes, store, t, x, es[i], c);
    }
    if x :| ClusterAt(lbs, routes, store, x, c) {
      ClusterPlace(lbs, routes, store, x, c);
      var e := EmitAtPublished(lbs, routes, store, t, x);
      ClusterOf(lbs, routes, store, t, x, e, c);
    }
  }

  lemma EmitFrom(lbs: seq<LoadBalancer>, routes: seq<Route>, store: Store, t: Table, e: Emit) returns (x: Place)
    requires Emits(lbs, routes, store, t, true).Some? && e in Emits(lbs, routes, store, t, true).value
    ensures EmittedAt(lbs, routes, store, t, x, e)
  {
    hide Emits, Owners, Resolve, EmitAt;
    x := PlaceOf(lbs, routes, store, t, e);
  }

  lemma ClusterFrom(es: seq<Emit>, c: Cluster) returns (i: nat)
    requires c in Clusters(es)
    ensures i < |es| && es[i].cluster == c
  {
    i :| i < |Clusters(es)| && Clusters(es)[i] == c;
  }

  lemma ListenerPlace(lbs: seq<LoadBalancer>, routes: seq<Route>, t: Table, x: Place, l: Listener)
    requires ListenerAt(lbs, routes, t, x, l)
    ensures ValidPlace(lbs, routes, x)
  {
    hide LbListener, RouteListener;
  }

  lemma ClusterPlace(lbs: seq<LoadBalancer>, routes: seq<Route>, store: Store, x: Place, c: Cluster)
    requires ClusterAt(lbs, routes, store, x, c)
    ensures ValidPlace(lbs, routes, x)
  {
    hide LbCluster, RouteCluster, DirectAddresses, AllAddresses;
  }
}
