/** Allocation before use: after the allocator has served a list of objects, each port of
    each object is bound by one listener and by no other. */
module ListenerExclusivity {
  import opened Text
  import opened Keys
  import opened Api
  import opened PortTable
  import opened AllocatorRuns
  import opened PortRequests
  import opened Snapshot
  import opened SnapshotClosure
  import opened Forwarding

  // ----- the calls serve every port -----

  predicate DistinctEndpoints(requests: seq<Request>) {
    forall i, j :: 0 <= i < j < |requests| ==> requests[i].ep != requests[j].ep
  }

  lemma {:induction false} LbRequestFrom(lbs: seq<LoadBalancer>, n: nat, q: Request) returns (a: nat, i: nat)
    requires n <= |lbs| && q in AllLbRequests(lbs, n)
    ensures a < n && i < |lbs[a].endpoints| && q == LbRequest(lbs[a], i)
    decreases n
  {
    hide LbRequest;
    if q in LbRequests(lbs[n - 1]) {
      a := n - 1;
      i :| 0 <= i < |lbs[a].endpoints| && LbRequests(lbs[a])[i] == q;
    } else {
      a, i := LbRequestFrom(lbs, n - 1, q);
    }
  }

  lemma {:induction false} RouteRequestFrom(routes: seq<Route>, n: nat, q: Request) returns (a: nat, i: nat)
    requires n <= |routes| && q in AllRouteRequests(routes, n)
    ensures a < n && i < |SourceServices(routes[a])| && q == ServiceRequest(routes[a], SourceServices(routes[a])[i])
    decreases n
  {
    hide ServiceRequest;
    if q in RouteRequests(routes[n - 1]) {
      a := n - 1;
      i :| 0 <= i < |SourceServices(routes[a])| && RouteRequests(routes[a])[i] == q;
    } else {
      a, i := RouteRequestFrom(routes, n - 1, q);
    }
  }

  lemma DistinctConcat(a: seq<Request>, b: seq<Request>)
    requires DistinctEndpoints(a) && DistinctEndpoints(b) && forall x, y :: x in a && y in b ==> x.ep != y.ep
    ensures DistinctEndpoints(a + b)
  {
  }

  /** LoadBalancers named by UID never share an endpoint key. */
  lemma LbKeysDiffer(lbs: seq<LoadBalancer>, a: nat, i: nat, b: nat, j: nat)
    requires NamedByUid(lbs) && a < |lbs| && b < |lbs| && (a, i) != (b, j)
    ensures LbKey(lbs[a], i) != LbKey(lbs[b], j)
  {
    hide EndpointKey;
    if LbKey(lbs[a], i) == LbKey(lbs[b], j) {
      EndpointKeyInjective(lbs[a].namespace, lbs[a].name, i, lbs[b].namespace, lbs[b].name, j);
    }
  }

  lemma {:induction false} LbRequestsDistinct(lbs: seq<LoadBalancer>, n: nat)
    requires n <= |lbs| && NamedByUid(lbs)
    ensures DistinctEndpoints(AllLbRequests(lbs, n))
  {
    hide LbKey, EndpointPortKeys, NamedByUid;
    if n > 0 {
      LbRequestsDistinct(lbs, n - 1);
      var x, y := AllLbRequests(lbs, n - 1), LbRequests(lbs[n - 1]);
      forall i, j | 0 <= i < j < |y| ensures y[i].ep != y[j].ep {
        LbKeysDiffer(lbs, n - 1, i, n - 1, j);
      }
      forall q, q' | q in x && q' in y ensures q.ep != q'.ep {
        var a, i := LbRequestFrom(lbs, n - 1, q);
        var j :| 0 <= j < |y| && y[j] == q';
        LbKeysDiffer(lbs, a, i, n - 1, j);
      }
      DistinctConcat(x, y);
    }
  }

  lemma {:induction false} RouteRequestsDistinct(routes: seq<Route>, n: nat)
    requires n <= |routes| && PlainRoutes(routes)
    ensures DistinctEndpoints(AllRouteRequests(routes, n))
  {
    hide ServiceKey, ServicePortKeys, PlainRoutes;
    if n > 0 {
      RouteRequestsDistinct(routes, n - 1);
      var x, y := AllRouteRequests(routes, n - 1), RouteRequests(routes[n - 1]);
      PlainRoute(routes, n - 1);
      forall i, j | 0 <= i < j < |y| ensures y[i].ep != y[j].ep {
      }
      forall q, q' | q in x && q' in y ensures q.ep != q'.ep {
        var a, i := RouteRequestFrom(routes, n - 1, q);
        var j :| 0 <= j < |y| && y[j] == q';
        KeysApart(routes, a, n - 1, i, j);
      }
      DistinctConcat(x, y);
    }
  }

  /** No LoadBalancer endpoint key is also a route's. */
  ghost predicate KeysSeparate(lbs: seq<LoadBalancer>, routes: seq<Route>) {
    forall a: nat, i: nat, b: nat, j: nat | a < |lbs| && i < |lbs[a].endpoints| && b < |routes|
           && j < |SourceServices(routes[b])| ::
      LbKey(lbs[a], i) != ServiceKey(routes[b], SourceServices(routes[b])[j])
  }

  /** LoadBalancers are named by UIDs, whose first group has eight digits. */
  predicate UidNames(lbs: seq<LoadBalancer>) {
    forall a :: 0 <= a < |lbs| ==> |lbs[a].name| == 36 && '-' !in lbs[a].name[..8]
  }

  lemma KeyApart(ns: string, uid: string, i: nat, namespace: string, name: string, route: string)
    requires |uid| == 36 && '-' !in uid[..8]
    ensures EndpointKey(ns, uid, i) != RouteEndpointKey(ns, namespace, name, route)
  {
    var x, y, at := EndpointKey(ns, uid, i), RouteEndpointKey(ns, namespace, name, route), |ns| + 7;
    assert x == ns + "-" + (uid + "-ep-" + Digits(i));
    assert x[at] == (uid + "-ep-" + Digits(i))[6] == uid[6] == uid[..8][6];
    var head, tail := "tenant-" + ns, "-route-" + namespace + "-" + name + "-" + route;
    assert y == head + tail;
    assert y[at] == tail[0] == '-';
  }

  /** In the shared topology, where all listed objects have one namespace, the keys are
      separate. */
  lemma OneNamespaceSeparate(lbs: seq<LoadBalancer>, routes: seq<Route>, ns: string)
    requires UidNames(lbs) && (forall a :: 0 <= a < |lbs| ==> lbs[a].namespace == ns)
    requires forall a :: 0 <= a < |routes| ==> routes[a].namespace == ns
    ensures KeysSeparate(lbs, routes)
  {
    forall a: nat, i: nat, b: nat, j: nat
      | a < |lbs| && i < |lbs[a].endpoints| && b < |routes| && j < |SourceServices(routes[b])|
      ensures LbKey(lbs[a], i) != ServiceKey(routes[b], SourceServices(routes[b])[j])
    {
      var s := SourceServices(routes[b])[j];
      KeyApart(ns, lbs[a].name, i, s.namespace, s.name, OriginalRouteName(routes[b]));
    }
  }

  /** What the Envoy controller asks the allocator for before it computes a snapshot. */
  function Wanted(lbs: seq<LoadBalancer>, routes: seq<Route>): seq<Request> {
    AllLbRequests(lbs, |lbs|) + AllRouteRequests(routes, |routes|)
  }

  lemma WantedDistinct(lbs: seq<LoadBalancer>, routes: seq<Route>)
    requires NamedByUid(lbs) && PlainRoutes(routes) && KeysSeparate(lbs, routes)
    ensures DistinctEndpoints(Wanted(lbs, routes))
  {
    hide LbKey, ServiceKey, EndpointPortKeys, ServicePortKeys, PlainRoutes, NamedByUid, AllLbRequests, AllRouteRequests;
    LbRequestsDistinct(lbs, |lbs|);
    RouteRequestsDistinct(routes, |routes|);
    forall q, q' | q in AllLbRequests(lbs, |lbs|) && q' in AllRouteRequests(routes, |routes|) ensures q.ep != q'.ep {
      var a, i := LbRequestFrom(lbs, |lbs|, q);
      var b, j := RouteRequestFrom(routes, |routes|, q');
    }
    DistinctConcat(AllLbRequests(lbs, |lbs|), AllRouteRequests(routes, |routes|));
  }

  ghost predicate Served(t: Table, lbs: seq<LoadBalancer>, routes: seq<Route>) {
    && (forall a: nat, i: nat, p: nat | a < |lbs| && i < |lbs[a].endpoints| && p < |lbs[a].endpoints[i].ports| ::
          LbPortServed(t, lbs[a], i, lbs[a].endpoints[i].ports[p]))
    && (forall a: nat, i: nat, p: nat | a < |routes| && i < |SourceServices(routes[a])|
        && p < |SourceServices(routes[a])[i].ports| ::
          ServicePortServed(t, routes[a], SourceServices(routes[a])[i], SourceServices(routes[a])[i].ports[p]))
  }

  predicate LbPortServed(t: Table, lb: LoadBalancer, i: nat, p: EndpointPort) {
    Has(t, LbKey(lb, i), PortKey(p.port, p.protocol))
  }

  predicate ServicePortServed(t: Table, r: Route, s: Service, p: ServicePort) {
    Has(t, ServiceKey(r, s), PortKey(p.port, p.protocol))
  }

  /** After the calls for both lists, every published port has an allocated port. */
  lemma CallsServe(t: Table, lbs: seq<LoadBalancer>, routes: seq<Route>, draws: seq<seq<int>>)
    requires NamedByUid(lbs) && PlainRoutes(routes) && KeysSeparate(lbs, routes) && |draws| == |Wanted(lbs, routes)|
    requires Run(t, Calls(Wanted(lbs, routes), draws), |draws|).Some?
    ensures Served(Run(t, Calls(Wanted(lbs, routes), draws), |draws|).value, lbs, routes)
  {
    hide Run, LbKey, ServiceKey, PortKey, PlainRoutes, NamedByUid, KeysSeparate, AllLbRequests, AllRouteRequests;
    var all, t' := Wanted(lbs, routes), Run(t, Calls(Wanted(lbs, routes), draws), |draws|).value;
    WantedDistinct(lbs, routes);
    assert Compatible(all);
    forall a: nat, i: nat, p: nat | a < |lbs| && i < |lbs[a].endpoints| && p < |lbs[a].endpoints[i].ports|
      ensures LbPortServed(t', lbs[a], i, lbs[a].endpoints[i].ports[p])
    {
      LbRequestAt(lbs, a, |lbs|, i);
      var keys := EndpointPortKeys(lbs[a].endpoints[i].ports);
      assert keys[p] in keys;
      RequestServed(t, all, draws, |AllLbRequests(lbs, a)| + i, keys[p]);
    }
    forall a: nat, i: nat, p: nat | a < |routes| && i < |SourceServices(routes[a])|
           && p < |SourceServices(routes[a])[i].ports|
      ensures ServicePortServed(t', routes[a], SourceServices(routes[a])[i], SourceServices(routes[a])[i].ports[p])
    {
      RouteRequestAt(routes, a, |routes|, i);
      var keys := ServicePortKeys(SourceServices(routes[a])[i].ports);
      assert keys[p] in keys;
      RequestServed(t, all, draws, |AllLbRequests(lbs, |lbs|)| + |AllRouteRequests(routes, a)| + i, keys[p]);
    }
  }

  // ----- one listener per port -----

  /** The table entry an emitted listener's port comes from. */
  datatype Origin = Origin(ep: string, k: string)

  ghost predicate IsOrigin(o: Origin, e: Emit, t: Table) {
    Has(t, o.ep, o.k) && (e.listener.Some? ==> e.listener.value.port == t[o.ep][o.k])
  }

  lemma PortEmitOrigin(lb: LoadBalancer, i: nat, addresses: seq<Address>, p: EndpointPort, t: Table)
    requires LbPortServed(t, lb, i, p) && InRange(t)
    ensures IsOrigin(Origin(LbKey(lb, i), PortKey(p.port, p.protocol)), PortEmit(lb, i, addresses, p, t), t)
  {
    PortConversions(t[LbKey(lb, i)][PortKey(p.port, p.protocol)]);
  }

  lemma ServiceEmitOrigin(r: Route, s: Service, addresses: seq<Address>, p: ServicePort, t: Table)
    requires ServicePortServed(t, r, s, p) && InRange(t)
    ensures IsOrigin(Origin(ServiceKey(r, s), PortKey(p.port, p.protocol)), ServiceEmit(r, s, addresses, p, t), t)
  {
    PortConversions(t[ServiceKey(r, s)][PortKey(p.port, p.protocol)]);
  }

  /** Where an emitted pair comes from: a LoadBalancer port or a service port. */
  datatype Place = LbPlace(a: nat, i: nat, p: nat) | RoutePlace(a: nat, i: nat, p: nat)

  predicate ValidPlace(lbs: seq<LoadBalancer>, routes: seq<Route>, x: Place) {
    match x
    case LbPlace(a, i, p) => a < |lbs| && i < |lbs[a].endpoints| && p < |lbs[a].endpoints[i].ports|
    case RoutePlace(a, i, p) =>
      a < |routes| && i < |SourceServices(routes[a])| && p < |SourceServices(routes[a])[i].ports|
  }

  function OriginOf(lbs: seq<LoadBalancer>, routes: seq<Route>, x: Place): Origin
    requires ValidPlace(lbs, routes, x)
  {
    match x
    case LbPlace(a, i, p) =>
      var q := lbs[a].endpoints[i].ports[p];
      Origin(LbKey(lbs[a], i), PortKey(q.port, q.protocol))
    case RoutePlace(a, i, p) =>
      var s := SourceServices(routes[a])[i];
      Origin(ServiceKey(routes[a], s), PortKey(s.ports[p].port, s.ports[p].protocol))
  }

  /** Different places have different table entries. */
  lemma OriginInjective(lbs: seq<LoadBalancer>, routes: seq<Route>, x: Place, y: Place)
    requires PlainInputs(lbs, routes) && KeysSeparate(lbs, routes) && ValidPlace(lbs, routes, x)
             && ValidPlace(lbs, routes, y)
    requires OriginOf(lbs, routes, x) == OriginOf(lbs, routes, y)
    ensures x == y
  {
    hide LbKey, ServiceKey, PortKey, PlainRoutes, NamedByUid;
    match (x, y)
    case (LbPlace(a, i, p), LbPlace(b, j, q)) =>
      if (a, i) != (b, j) {
        LbKeysDiffer(lbs, a, i, b, j);
      }
      var ports := lbs[a].endpoints[i].ports;
      assert PlainGroups(lbs[a].endpoints) && PlainPorts(ports);
      PortKeyInjective(ports[p].port, ports[p].protocol, ports[q].port, ports[q].protocol);
    case (RoutePlace(a, i, p), RoutePlace(b, j, q)) =>
      PlainRoute(routes, a);
      if a < b {
        KeysApart(routes, a, b, i, j);
      } else if b < a {
        KeysApart(routes, b, a, j, i);
      }
      var ports := SourceServices(routes[a])[i].ports;
      assert PlainServicePorts(ports);
      PortKeyInjective(ports[p].port, ports[p].protocol, ports[q].port, ports[q].protocol);
    case (LbPlace(a, i, p), RoutePlace(b, j, q)) =>
    case (RoutePlace(a, i, p), LbPlace(b, j, q)) =>
  }

  /** The pair emitted at a place, given the resolved addresses. */
  function EmitAt(lbs: seq<LoadBalancer>, routes: seq<Route>, gs: seq<seq<Endpoints>>, t: Table, x: Place): Emit
    requires ValidPlace(lbs, routes, x) && |gs| == |lbs| + |routes|
             && forall a :: 0 <= a < |lbs| ==> |gs[a]| == |lbs[a].endpoints|
  {
    match x
    case LbPlace(a, i, p) => PortEmit(lbs[a], i, gs[a][i].addresses, lbs[a].endpoints[i].ports[p], t)
    case RoutePlace(a, i, p) =>
      var s, groups := SourceServices(routes[a])[i], gs[|lbs| + a];
      ServiceEmit(routes[a], s, RouteAddresses(groups, |groups|), s.ports[p], t)
  }

  lemma PlaceOf(lbs: seq<LoadBalancer>, routes: seq<Route>, store: Store, t: Table, e: Emit) returns (x: Place)
    requires Emits(lbs, routes, store, t, true).Some? && e in Emits(lbs, routes, store, t, true).value
    ensures ValidPlace(lbs, routes, x) && Resolve(Owners(lbs, routes), |Owners(lbs, routes)|, store, true).Resolved?
    ensures var v: seq<seq<Endpoints>> := Resolve(Owners(lbs, routes), |Owners(lbs, routes)|, store, true).value;
            |v| == |lbs| + |routes| && (forall a :: 0 <= a < |lbs| ==> |v[a]| == |lbs[a].endpoints|)
                && e == EmitAt(lbs, routes, v, t, x)
  {
    hide Resolve, AllLbEmits, AllRouteEmits, PortEmit, ServiceEmit, RouteAddresses;
    var os := Owners(lbs, routes);
    var v: seq<seq<Endpoints>> := Resolve(os, |os|, store, true).value;
    ResolvedLbGroups(lbs, routes, store, true);
    if e in AllLbEmits(lbs, v[..|lbs|], |lbs|, t) {
      var a, i, p := AllLbEmitsFrom(lbs, v[..|lbs|], |lbs|, t, e);
      assert v[..|lbs|][a] == v[a];
      x := LbPlace(a, i, p);
    } else {
      var gs := v[|lbs|..];
      var a, i, p := AllRouteEmitsFrom(routes, gs, |routes|, t, e);
      assert gs[a] == v[|lbs| + a];
      x := RoutePlace(a, i, p);
    }
  }

  lemma EmitAtOrigin(lbs: seq<LoadBalancer>, routes: seq<Route>, gs: seq<seq<Endpoints>>, t: Table, x: Place)
    requires ValidPlace(lbs, routes, x) && |gs| == |lbs| + |routes|
             && forall a :: 0 <= a < |lbs| ==> |gs[a]| == |lbs[a].endpoints|
    requires Served(t, lbs, routes) && InRange(t)
    ensures IsOrigin(OriginOf(lbs, routes, x), EmitAt(lbs, routes, gs, t, x), t)
  {
    hide LbKey, ServiceKey, PortKey, InRange, IsOrigin, PortEmit, ServiceEmit, RouteAddresses;
    match x
    case LbPlace(a, i, p) =>
      assert LbPortServed(t, lbs[a], i, lbs[a].endpoints[i].ports[p]);
      PortEmitOrigin(lbs[a], i, gs[a][i].addresses, lbs[a].endpoints[i].ports[p], t);
    case RoutePlace(a, i, p) =>
      var s, groups := SourceServices(routes[a])[i], gs[|lbs| + a];
      assert ServicePortServed(t, routes[a], s, s.ports[p]);
      ServiceEmitOrigin(routes[a], s, RouteAddresses(groups, |groups|), s.ports[p], t);
  }

  /** Two emitted pairs whose listeners bind one port are one pair. */
  lemma SamePortSameEmit(lbs: seq<LoadBalancer>, routes: seq<Route>, store: Store, t: Table, e: Emit, f: Emit)
    requires PlainInputs(lbs, routes) && KeysSeparate(lbs, routes) && Served(t, lbs, routes) && Injective(t)
             && InRange(t)
    requires Emits(lbs, routes, store, t, true).Some?
    requires e in Emits(lbs, routes, store, t, true).value && f in Emits(lbs, routes, store, t, true).value
    requires e.listener.Some? && f.listener.Some? && e.listener.value.port == f.listener.value.port
    ensures e == f
  {
    hide Emits, PlainInputs, KeysSeparate, Served, InRange, Resolve, OriginOf, EmitAt, Owners;
    var x := PlaceOf(lbs, routes, store, t, e);
    var y := PlaceOf(lbs, routes, store, t, f);
    var v: seq<seq<Endpoints>> := Resolve(Owners(lbs, routes), |Owners(lbs, routes)|, store, true).value;
    EmitAtOrigin(lbs, routes, v, t, x);
    EmitAtOrigin(lbs, routes, v, t, y);
    OriginInjective(lbs, routes, x, y);
  }

  /** Over served objects and an injective table no two listeners of a snapshot bind one
      port, so a Service's target port has one meaning. */
  lemma ListenersExclusive(lbs: seq<LoadBalancer>, routes: seq<Route>, store: Store, t: Table, k: nat, l: nat)
    requires PlainInputs(lbs, routes) && KeysSeparate(lbs, routes) && Served(t, lbs, routes) && Injective(t)
             && InRange(t)
    requires SnapshotOf(lbs, routes, store, t).Some?
    requires var c := SnapshotOf(lbs, routes, store, t).value;
             k < |c.listeners| && l < |c.listeners| && c.listeners[k].port == c.listeners[l].port
    ensures k == l
  {
    hide *;
    SnapshotResolved(lbs, routes, store, t);
    var es := Emits(lbs, routes, store, t, true).value;
    ConfigListeners(es);
    var i := ListenerFrom(es, |es|, k);
    var j := ListenerFrom(es, |es|, l);
    SamePortSameEmit(lbs, routes, store, t, es[i], es[j]);
    SnapshotClosed(lbs, routes, store, t);
  }

  lemma ConfigListeners(es: seq<Emit>)
    ensures Config(es).listeners == Listeners(es, |es|) && Config(es).clusters == Clusters(es)
  {
  }

  /** Whatever reaches backends on a port is the only thing that does. */
  lemma ReachesOnly(lbs: seq<LoadBalancer>, routes: seq<Route>, store: Store, t: Table, port: int,
                    kind: ListenerKind, backends: seq<Backend>)
    requires PlainInputs(lbs, routes) && KeysSeparate(lbs, routes) && Served(t, lbs, routes) && Injective(t)
             && InRange(t)
    requires SnapshotOf(lbs, routes, store, t).Some?
             && Reaches(SnapshotOf(lbs, routes, store, t).value, port, kind, backends)
    ensures OnlyReaches(SnapshotOf(lbs, routes, store, t).value, port, kind, backends)
  {
    hide PlainInputs, KeysSeparate, Served, Injective, InRange, SnapshotOf;
    var c := SnapshotOf(lbs, routes, store, t).value;
    SnapshotClosed(lbs, routes, store, t);
    var l: nat, k: nat :| l < |c.listeners| && k < |c.clusters|
      && c.listeners[l].port == port && c.listeners[l].kind == kind
      && c.listeners[l].cluster == c.clusters[k].name && c.clusters[k].backends == backends;
    forall l': nat, k': nat | l' < |c.listeners| && k' < |c.clusters| && c.listeners[l'].port == port
           && c.listeners[l'].cluster == c.clusters[k'].name
      ensures c.listeners[l'].kind == kind && c.clusters[k'].backends == backends
    {
      ListenersExclusive(lbs, routes, store, t, l, l');
    }
  }
}
