/** What a snapshot contains: one cluster per published port under a name of its own, and
    listeners that only point at clusters of the same snapshot. */
module SnapshotClosure {
  import opened Text
  import opened Keys
  import opened Api
  import opened PortTable
  import opened PortRequests
  import opened Snapshot

  // ----- which ports are emitted -----

  lemma {:induction false} LbEmitsIn(lb: LoadBalancer, groups: seq<Endpoints>, n: nat, t: Table, i: nat, p: nat)
    requires i < n <= |groups| && p < |groups[i].ports|
    ensures PortEmit(lb, i, groups[i].addresses, groups[i].ports[p], t) in LbEmits(lb, groups, n, t)
    decreases n
  {
    hide PortEmit;
    if i < n - 1 {
      LbEmitsIn(lb, groups, n - 1, t, i, p);
    } else {
      assert GroupEmits(lb, i, groups[i], t)[p] in GroupEmits(lb, i, groups[i], t);
    }
  }

  lemma {:induction false} LbEmitsFrom(lb: LoadBalancer, groups: seq<Endpoints>, n: nat, t: Table, e: Emit)
    returns (i: nat, p: nat)
    requires n <= |groups| && e in LbEmits(lb, groups, n, t)
    ensures i < n && p < |groups[i].ports| && e == PortEmit(lb, i, groups[i].addresses, groups[i].ports[p], t)
    decreases n
  {
    hide PortEmit;
    if e in GroupEmits(lb, n - 1, groups[n - 1], t) {
      i := n - 1;
      p :| 0 <= p < |groups[i].ports| && GroupEmits(lb, i, groups[i], t)[p] == e;
    } else {
      i, p := LbEmitsFrom(lb, groups, n - 1, t, e);
    }
  }

  lemma {:induction false} AllLbEmitsIn(lbs: seq<LoadBalancer>, gs: seq<seq<Endpoints>>, n: nat, t: Table, a: nat,
                                        i: nat, p: nat)
    requires a < n <= |lbs| && n <= |gs| && i < |gs[a]| && p < |gs[a][i].ports|
    ensures PortEmit(lbs[a], i, gs[a][i].addresses, gs[a][i].ports[p], t) in AllLbEmits(lbs, gs, n, t)
    decreases n
  {
    hide PortEmit, LbEmits;
    if a < n - 1 {
      AllLbEmitsIn(lbs, gs, n - 1, t, a, i, p);
    } else {
      LbEmitsIn(lbs[a], gs[a], |gs[a]|, t, i, p);
    }
  }

  lemma {:induction false} AllLbEmitsFrom(lbs: seq<LoadBalancer>, gs: seq<seq<Endpoints>>, n: nat, t: Table, e: Emit)
    returns (a: nat, i: nat, p: nat)
    requires n <= |lbs| && n <= |gs| && e in AllLbEmits(lbs, gs, n, t)
    ensures a < n && i < |gs[a]| && p < |gs[a][i].ports|
            && e == PortEmit(lbs[a], i, gs[a][i].addresses, gs[a][i].ports[p], t)
    decreases n
  {
    hide PortEmit, LbEmits;
    if e in LbEmits(lbs[n - 1], gs[n - 1], |gs[n - 1]|, t) {
      a := n - 1;
      i, p := LbEmitsFrom(lbs[a], gs[a], |gs[a]|, t, e);
    } else {
      a, i, p := AllLbEmitsFrom(lbs, gs, n - 1, t, e);
    }
  }

  lemma {:induction false} RouteEmitsIn(r: Route, addresses: seq<Address>, n: nat, t: Table, i: nat, p: nat)
    requires i < n <= |SourceServices(r)| && p < |SourceServices(r)[i].ports|
    ensures ServiceEmit(r, SourceServices(r)[i], addresses, SourceServices(r)[i].ports[p], t) in RouteEmits(r,
            addresses, n, t)
    decreases n
  {
    hide ServiceEmit;
    if i < n - 1 {
      RouteEmitsIn(r, addresses, n - 1, t, i, p);
    } else {
      var es := ServiceEmits(r, SourceServices(r)[i], addresses, t);
      assert es[p] in es;
    }
  }

  lemma {:induction false} RouteEmitsFrom(r: Route, addresses: seq<Address>, n: nat, t: Table, e: Emit)
    returns (i: nat, p: nat)
    requires n <= |SourceServices(r)| && e in RouteEmits(r, addresses, n, t)
    ensures i < n && p < |SourceServices(r)[i].ports|
            && e == ServiceEmit(r, SourceServices(r)[i], addresses, SourceServices(r)[i].ports[p], t)
    decreases n
  {
    hide ServiceEmit;
    var es := ServiceEmits(r, SourceServices(r)[n - 1], addresses, t);
    if e in es {
      i := n - 1;
      p :| 0 <= p < |es| && es[p] == e;
    } else {
      i, p := RouteEmitsFrom(r, addresses, n - 1, t, e);
    }
  }

  lemma {:induction false} AllRouteEmitsIn(routes: seq<Route>, gs: seq<seq<Endpoints>>, n: nat, t: Table, a: nat,
                                           i: nat, p: nat)
    requires a < n <= |routes| && n <= |gs| && i < |SourceServices(routes[a])|
             && p < |SourceServices(routes[a])[i].ports|
    ensures var s := SourceServices(routes[a])[i];
            ServiceEmit(routes[a], s, RouteAddresses(gs[a], |gs[a]|), s.ports[p], t) in AllRouteEmits(routes, gs, n, t)
    decreases n
  {
    hide ServiceEmit, RouteEmits, RouteAddresses;
    if a < n - 1 {
      AllRouteEmitsIn(routes, gs, n - 1, t, a, i, p);
    } else {
      RouteEmitsIn(routes[a], RouteAddresses(gs[a], |gs[a]|), |SourceServices(routes[a])|, t, i, p);
    }
  }

  lemma {:induction false} AllRouteEmitsFrom(routes: seq<Route>, gs: seq<seq<Endpoints>>, n: nat, t: Table, e: Emit)
    returns (a: nat, i: nat, p: nat)
    requires n <= |routes| && n <= |gs| && e in AllRouteEmits(routes, gs, n, t)
    ensures a < n && i < |SourceServices(routes[a])| && p < |SourceServices(routes[a])[i].ports|
    ensures var s := SourceServices(routes[a])[i];
           e == ServiceEmit(routes[a], s, RouteAddresses(gs[a], |gs[a]|), s.ports[p], t)
    decreases n
  {
    hide ServiceEmit, RouteEmits, RouteAddresses;
    var es := RouteEmits(routes[n - 1], RouteAddresses(gs[n - 1], |gs[n - 1]|), |SourceServices(routes[n - 1])|, t);
    if e in es {
      a := n - 1;
      i, p := RouteEmitsFrom(routes[a], RouteAddresses(gs[a], |gs[a]|), |SourceServices(routes[a])|, t, e);
    } else {
      a, i, p := AllRouteEmitsFrom(routes, gs, n - 1, t, e);
    }
  }

  // ----- names are unique -----

  predicate UniqueNames(es: seq<Emit>) {
    forall i, j :: 0 <= i < j < |es| ==> es[i].cluster.name != es[j].cluster.name
  }

  predicate Apart(a: seq<Emit>, b: seq<Emit>) {
    forall i, j :: 0 <= i < |a| && 0 <= j < |b| ==> a[i].cluster.name != b[j].cluster.name
  }

  lemma UniqueConcat(a: seq<Emit>, b: seq<Emit>)
    requires UniqueNames(a) && UniqueNames(b) && Apart(a, b)
    ensures UniqueNames(a + b)
  {
  }

  /** Ports of one group or service: no (port, protocol) twice, protocols without hyphen. */
  predicate PlainPorts(ports: seq<EndpointPort>) {
    && (forall i :: 0 <= i < |ports| ==> '-' !in ports[i].protocol)
    && (forall i, j :: 0 <= i < j < |ports| ==>
         (ports[i].port, ports[i].protocol) != (ports[j].port, ports[j].protocol))
  }

  predicate PlainServicePorts(ports: seq<ServicePort>) {
    && (forall i :: 0 <= i < |ports| ==> '-' !in ports[i].protocol)
    && (forall i, j :: 0 <= i < j < |ports| ==>
         (ports[i].port, ports[i].protocol) != (ports[j].port, ports[j].protocol))
  }

  predicate PlainGroups(groups: seq<Endpoints>) {
    forall i :: 0 <= i < |groups| ==> PlainPorts(groups[i].ports)
  }

  /** LoadBalancers are named by UIDs: one length, and no two alike. */
  predicate NamedByUid(lbs: seq<LoadBalancer>) {
    && (forall i, j :: 0 <= i < j < |lbs| ==> |lbs[i].name| == |lbs[j].name|)
    && (forall i, j :: 0 <= i < j < |lbs| ==> (lbs[i].namespace, lbs[i].name) != (lbs[j].namespace, lbs[j].name))
  }

  lemma PortEmitName(lb: LoadBalancer, i: nat, addresses: seq<Address>, p: EndpointPort, t: Table)
    ensures PortEmit(lb, i, addresses, p, t).cluster.name == ResourceKey(lb.namespace, lb.name, i, p.port, p.protocol)
  {
  }

  lemma ServiceEmitName(r: Route, s: Service, addresses: seq<Address>, p: ServicePort, t: Table)
    ensures ServiceEmit(r, s, addresses, p, t).cluster.name
            == PortSuffixed(ServiceKey(r, s) + "-svc-" + s.uid, p.port, p.protocol)
  {
  }

  lemma GroupUnique(lb: LoadBalancer, i: nat, g: Endpoints, t: Table)
    requires PlainPorts(g.ports)
    ensures UniqueNames(GroupEmits(lb, i, g, t))
  {
    var es := GroupEmits(lb, i, g, t);
    hide PortEmit, ResourceKey;
    forall p, q | 0 <= p < q < |es| ensures es[p].cluster.name != es[q].cluster.name {
      PortEmitName(lb, i, g.addresses, g.ports[p], t);
      PortEmitName(lb, i, g.addresses, g.ports[q], t);
      if es[p].cluster.name == es[q].cluster.name {
        ResourceKeyInjective(lb.namespace, lb.name, i, g.ports[p].port, g.ports[p].protocol,
                             lb.namespace, lb.name, i, g.ports[q].port, g.ports[q].protocol);
      }
    }
  }

  lemma {:induction false} LbUnique(lb: LoadBalancer, groups: seq<Endpoints>, n: nat, t: Table)
    requires n <= |groups| && PlainGroups(groups)
    ensures UniqueNames(LbEmits(lb, groups, n, t))
  {
    if n > 0 {
      LbUnique(lb, groups, n - 1, t);
      GroupUnique(lb, n - 1, groups[n - 1], t);
      var a, b := LbEmits(lb, groups, n - 1, t), GroupEmits(lb, n - 1, groups[n - 1], t);
      hide PortEmit, ResourceKey, UniqueNames;
      forall x, y | 0 <= x < |a| && 0 <= y < |b| ensures a[x].cluster.name != b[y].cluster.name {
        var i, p := LbEmitsFrom(lb, groups, n - 1, t, a[x]);
        PortEmitName(lb, i, groups[i].addresses, groups[i].ports[p], t);
        PortEmitName(lb, n - 1, groups[n - 1].addresses, groups[n - 1].ports[y], t);
        if a[x].cluster.name == b[y].cluster.name {
          assert PlainPorts(groups[i].ports) && PlainPorts(groups[n - 1].ports);
          ResourceKeyInjective(lb.namespace, lb.name, i, groups[i].ports[p].port, groups[i].ports[p].protocol,
                               lb.namespace, lb.name, n - 1, groups[n - 1].ports[y].port,
                                   groups[n - 1].ports[y].protocol);
        }
      }
      UniqueConcat(a, b);
    }
  }

  lemma {:induction false} AllLbsUnique(lbs: seq<LoadBalancer>, gs: seq<seq<Endpoints>>, n: nat, t: Table)
    requires n <= |lbs| && n <= |gs| && NamedByUid(lbs) && forall a :: 0 <= a < |gs| ==> PlainGroups(gs[a])
    ensures UniqueNames(AllLbEmits(lbs, gs, n, t))
  {
    if n > 0 {
      AllLbsUnique(lbs, gs, n - 1, t);
      LbUnique(lbs[n - 1], gs[n - 1], |gs[n - 1]|, t);
      var x, y := AllLbEmits(lbs, gs, n - 1, t), LbEmits(lbs[n - 1], gs[n - 1], |gs[n - 1]|, t);
      hide PortEmit, ResourceKey, UniqueNames, LbEmits;
      forall e, f | 0 <= e < |x| && 0 <= f < |y| ensures x[e].cluster.name != y[f].cluster.name {
        var a, i, p := AllLbEmitsFrom(lbs, gs, n - 1, t, x[e]);
        var j, q := LbEmitsFrom(lbs[n - 1], gs[n - 1], |gs[n - 1]|, t, y[f]);
        var u, v := gs[a][i], gs[n - 1][j];
        PortEmitName(lbs[a], i, u.addresses, u.ports[p], t);
        PortEmitName(lbs[n - 1], j, v.addresses, v.ports[q], t);
        assert PlainGroups(gs[a]) && PlainGroups(gs[n - 1]) && PlainPorts(u.ports) && PlainPorts(v.ports);
        if x[e].cluster.name == y[f].cluster.name {
          ResourceKeyInjective(lbs[a].namespace, lbs[a].name, i, u.ports[p].port, u.ports[p].protocol,
                               lbs[n - 1].namespace, lbs[n - 1].name, j, v.ports[q].port, v.ports[q].protocol);
        }
      }
      UniqueConcat(x, y);
    }
  }

  /** Services of all routes: plain ports, UIDs in the usual shape, endpoint keys distinct. */
  predicate PlainServices(r: Route) {
    && (forall i :: 0 <= i < |SourceServices(r)| ==>
         UidShaped(SourceServices(r)[i].uid) && PlainServicePorts(SourceServices(r)[i].ports))
    && (forall i, j :: 0 <= i < j < |SourceServices(r)| ==>
         ServiceKey(r, SourceServices(r)[i]) != ServiceKey(r, SourceServices(r)[j]))
  }

  predicate PlainRoutes(routes: seq<Route>) {
    && (forall a :: 0 <= a < |routes| ==> PlainServices(routes[a]))
    && (forall a, b, i, j ::
        0 <= a < b < |routes| && 0 <= i < |SourceServices(routes[a])| && 0 <= j < |SourceServices(routes[b])| ==>
          ServiceKey(routes[a], SourceServices(routes[a])[i]) != ServiceKey(routes[b], SourceServices(routes[b])[j]))
  }

  lemma ServiceNamesDiffer(r: Route, s: Service, p: ServicePort, r': Route, s': Service, p': ServicePort,
                           x: seq<Address>, y: seq<Address>, t: Table)
    requires |s.uid| == |s'.uid| && '-' !in p.protocol && '-' !in p'.protocol
    requires ServiceKey(r, s) != ServiceKey(r', s') || (p.port, p.protocol) != (p'.port, p'.protocol)
    ensures ServiceEmit(r, s, x, p, t).cluster.name != ServiceEmit(r', s', y, p', t).cluster.name
  {
    ServiceEmitName(r, s, x, p, t);
    ServiceEmitName(r', s', y, p', t);
    hide ServiceEmit, ServiceKey;
    if ServiceEmit(r, s, x, p, t).cluster.name == ServiceEmit(r', s', y, p', t).cluster.name {
      RouteResourceKeyInjective(ServiceKey(r, s), s.uid, p.port, p.protocol, ServiceKey(r', s'), s'.uid, p'.port,
                                p'.protocol);
    }
  }

  lemma {:induction false} RouteUnique(r: Route, addresses: seq<Address>, n: nat, t: Table)
    requires n <= |SourceServices(r)| && PlainServices(r)
    ensures UniqueNames(RouteEmits(r, addresses, n, t))
  {
    if n > 0 {
      RouteUnique(r, addresses, n - 1, t);
      hide ServiceEmit, ServiceKey;
      var s := SourceServices(r)[n - 1];
      var a, b := RouteEmits(r, addresses, n - 1, t), ServiceEmits(r, s, addresses, t);
      forall x, y | 0 <= x < y < |b| ensures b[x].cluster.name != b[y].cluster.name {
        ServiceNamesDiffer(r, s, s.ports[x], r, s, s.ports[y], addresses, addresses, t);
      }
      forall x, y | 0 <= x < |a| && 0 <= y < |b| ensures a[x].cluster.name != b[y].cluster.name {
        var i, p := RouteEmitsFrom(r, addresses, n - 1, t, a[x]);
        assert PlainServicePorts(SourceServices(r)[i].ports) && PlainServicePorts(s.ports);
        ServiceNamesDiffer(r, SourceServices(r)[i], SourceServices(r)[i].ports[p], r, s, s.ports[y], addresses,
                           addresses, t);
      }
      UniqueConcat(a, b);
    }
  }

  lemma {:induction false} AllRoutesUnique(routes: seq<Route>, gs: seq<seq<Endpoints>>, n: nat, t: Table)
    requires n <= |routes| && n <= |gs| && PlainRoutes(routes)
    ensures UniqueNames(AllRouteEmits(routes, gs, n, t))
  {
    hide *;
    if n == 0 {
      NoRouteEmits(routes, gs, t);
    } else {
      AllRoutesUnique(routes, gs, n - 1, t);
      var r, addresses := routes[n - 1], RouteAddresses(gs[n - 1], |gs[n - 1]|);
      var k := |SourceServices(r)|;
      var x, y := AllRouteEmits(routes, gs, n - 1, t), RouteEmits(r, addresses, k, t);
      PlainRoute(routes, n - 1);
      RouteUnique(r, addresses, k, t);
      AllRoutesApart(routes, gs, n, t, x, y);
      UniqueConcat(x, y);
      AllRouteEmitsStep(routes, gs, n, t);
    }
  }

  lemma NoRouteEmits(routes: seq<Route>, gs: seq<seq<Endpoints>>, t: Table)
    ensures UniqueNames(AllRouteEmits(routes, gs, 0, t))
  {
  }

  lemma AllRouteEmitsStep(routes: seq<Route>, gs: seq<seq<Endpoints>>, n: nat, t: Table)
    requires 0 < n <= |routes| && n <= |gs|
    ensures AllRouteEmits(routes, gs, n, t)
            == AllRouteEmits(routes, gs, n - 1, t)
               + RouteEmits(routes[n - 1], RouteAddresses(gs[n - 1], |gs[n - 1]|), |SourceServices(routes[n - 1])|, t)
  {
  }

  lemma PlainRoute(routes: seq<Route>, a: nat)
    requires PlainRoutes(routes) && a < |routes|
    ensures PlainServices(routes[a])
  {
  }

  lemma KeysApart(routes: seq<Route>, a: nat, b: nat, i: nat, j: nat)
    requires PlainRoutes(routes) && a < b < |routes| && i < |SourceServices(routes[a])|
             && j < |SourceServices(routes[b])|
    ensures ServiceKey(routes[a], SourceServices(routes[a])[i]) != ServiceKey(routes[b], SourceServices(routes[b])[j])
  {
  }

  lemma ApartByMembers(a: seq<Emit>, b: seq<Emit>)
    requires forall e, f :: e in a && f in b ==> e.cluster.name != f.cluster.name
    ensures Apart(a, b)
  {
  }

  lemma AllRoutesApart(routes: seq<Route>, gs: seq<seq<Endpoints>>, n: nat, t: Table, x: seq<Emit>, y: seq<Emit>)
    requires 0 < n <= |routes| && n <= |gs| && PlainRoutes(routes) && x == AllRouteEmits(routes, gs, n - 1, t)
    requires y == RouteEmits(routes[n - 1], RouteAddresses(gs[n - 1], |gs[n - 1]|), |SourceServices(routes[n - 1])|, t)
    ensures Apart(x, y)
  {
    hide PlainRoutes, AllRouteEmits, RouteEmits, RouteAddresses, SourceServices;
    forall i, j | 0 <= i < |x| && 0 <= j < |y| ensures x[i].cluster.name != y[j].cluster.name {
      RoutesApart(routes, gs, n, t, x[i], y[j]);
    }
  }

  lemma {:induction false} RoutesApart(routes: seq<Route>, gs: seq<seq<Endpoints>>, n: nat, t: Table, e: Emit, f: Emit)
    requires 0 < n <= |routes| && n <= |gs| && PlainRoutes(routes) && e in AllRouteEmits(routes, gs, n - 1, t)
    requires f in RouteEmits(routes[n - 1], RouteAddresses(gs[n - 1], |gs[n - 1]|), |SourceServices(routes[n - 1])|, t)
    ensures e.cluster.name != f.cluster.name
  {
    hide *;
    var r, addresses := routes[n - 1], RouteAddresses(gs[n - 1], |gs[n - 1]|);
    var a, i, p := AllRouteEmitsFrom(routes, gs, n - 1, t, e);
    var j, q := RouteEmitsFrom(r, addresses, |SourceServices(r)|, t, f);
    PlainRoute(routes, a);
    PlainRoute(routes, n - 1);
    PlainServicePort(routes[a], i, p);
    PlainServicePort(r, j, q);
    KeysApart(routes, a, n - 1, i, j);
    ServiceNamesDiffer(routes[a], SourceServices(routes[a])[i], SourceServices(routes[a])[i].ports[p],
                       r, SourceServices(r)[j], SourceServices(r)[j].ports[q], RouteAddresses(gs[a], |gs[a]|),
                           addresses, t);
  }

  lemma PlainServicePort(r: Route, i: nat, p: nat)
    requires PlainServices(r) && i < |SourceServices(r)| && p < |SourceServices(r)[i].ports|
    ensures UidShaped(SourceServices(r)[i].uid) && |SourceServices(r)[i].uid| == 36
            && '-' !in SourceServices(r)[i].ports[p].protocol
  {
    assert PlainServicePorts(SourceServices(r)[i].ports);
  }

  lemma {:induction false} ResolvedGroupPorts(o: Owner, n: nat, store: Store, memo: Memo, memoise: bool, j: nat)
    requires j < n <= |o.groups| && ResolveGroups(o, n, store, memo, memoise).Resolved?
    ensures ResolveGroups(o, n, store, memo, memoise).value[j].ports == o.groups[j].ports
    decreases n
  {
    if j < n - 1 {
      ResolvedGroupPorts(o, n - 1, store, memo, memoise, j);
    }
  }

  /** Resolving addresses leaves the ports alone. */
  lemma {:induction false} ResolvedPorts(os: seq<Owner>, n: nat, store: Store, memoise: bool, i: nat, j: nat)
    requires i < n <= |os| && Resolve(os, n, store, memoise).Resolved? && j < |os[i].groups|
    ensures Resolve(os, n, store, memoise).value[i][j].ports == os[i].groups[j].ports
    decreases n
  {
    if i < n - 1 {
      ResolvedPorts(os, n - 1, store, memoise, i, j);
    } else {
      var before := Resolve(os, n - 1, store, memoise);
      ResolvedGroupPorts(os[i], |os[i].groups|, store, before.memo, memoise, j);
    }
  }

  /** What the snapshot is made from obeys the naming conventions. */
  predicate PlainInputs(lbs: seq<LoadBalancer>, routes: seq<Route>) {
    NamedByUid(lbs) && (forall a :: 0 <= a < |lbs| ==> PlainGroups(lbs[a].endpoints)) && PlainRoutes(routes)
  }

  lemma ResolvedLbGroups(lbs: seq<LoadBalancer>, routes: seq<Route>, store: Store, memoise: bool)
    requires Resolve(Owners(lbs, routes), |Owners(lbs, routes)|, store, memoise).Resolved?
    ensures var v := Resolve(Owners(lbs, routes), |Owners(lbs, routes)|, store, memoise).value;
            forall a :: 0 <= a < |lbs|
                   ==> |v[a]| == |lbs[a].endpoints|
                       && forall i :: 0 <= i < |v[a]| ==> v[a][i].ports == lbs[a].endpoints[i].ports
  {
    var os := Owners(lbs, routes);
    var v: seq<seq<Endpoints>> := Resolve(os, |os|, store, memoise).value;
    hide Resolve;
    forall a: nat, i: nat | a < |lbs| && i < |v[a]| ensures v[a][i].ports == lbs[a].endpoints[i].ports {
      ResolvedPorts(os, |os|, store, memoise, a, i);
    }
  }

  /** Every emitted resource has a name of its own, across LoadBalancers and routes. */
  lemma EmitsUnique(lbs: seq<LoadBalancer>, routes: seq<Route>, store: Store, t: Table, memoise: bool)
    requires PlainInputs(lbs, routes) && Emits(lbs, routes, store, t, memoise).Some?
    ensures UniqueNames(Emits(lbs, routes, store, t, memoise).value)
  {
    hide Resolve, AllLbEmits, AllRouteEmits, PlainRoutes, UniqueNames;
    var os := Owners(lbs, routes);
    var v: seq<seq<Endpoints>> := Resolve(os, |os|, store, memoise).value;
    ResolvedLbGroups(lbs, routes, store, memoise);
    var gs, hs := v[..|lbs|], v[|lbs|..];
    forall a | 0 <= a < |gs| ensures PlainGroups(gs[a]) {
      assert gs[a] == v[a] && PlainGroups(lbs[a].endpoints);
    }
    AllLbsUnique(lbs, gs, |lbs|, t);
    AllRoutesUnique(routes, hs, |routes|, t);
    LbsApartFromRoutes(lbs, gs, routes, hs, t);
    UniqueConcat(AllLbEmits(lbs, gs, |lbs|, t), AllRouteEmits(routes, hs, |routes|, t));
  }

  lemma LbsApartFromRoutes(lbs: seq<LoadBalancer>, gs: seq<seq<Endpoints>>, routes: seq<Route>,
                           hs: seq<seq<Endpoints>>, t: Table)
    requires |gs| == |lbs| && |hs| == |routes| && PlainRoutes(routes)
             && forall a :: 0 <= a < |gs| ==> PlainGroups(gs[a])
    ensures Apart(AllLbEmits(lbs, gs, |lbs|, t), AllRouteEmits(routes, hs, |routes|, t))
  {
    hide *;
    var x, y := AllLbEmits(lbs, gs, |lbs|, t), AllRouteEmits(routes, hs, |routes|, t);
    forall e, f | e in x && f in y ensures e.cluster.name != f.cluster.name {
      LbApartFromRoute(lbs, gs, routes, hs, t, e, f);
    }
    ApartByMembers(x, y);
  }

  lemma PlainGroupPort(groups: seq<Endpoints>, i: nat, p: nat)
    requires PlainGroups(groups) && i < |groups| && p < |groups[i].ports|
    ensures '-' !in groups[i].ports[p].protocol
  {
    assert PlainPorts(groups[i].ports);
  }

  lemma LbApartFromRoute(lbs: seq<LoadBalancer>, gs: seq<seq<Endpoints>>, routes: seq<Route>, hs: seq<seq<Endpoints>>,
                         t: Table, e: Emit, f: Emit)
    requires |gs| == |lbs| && |hs| == |routes| && PlainRoutes(routes)
             && forall a :: 0 <= a < |gs| ==> PlainGroups(gs[a])
    requires e in AllLbEmits(lbs, gs, |lbs|, t) && f in AllRouteEmits(routes, hs, |routes|, t)
    ensures e.cluster.name != f.cluster.name
  {
    hide *;
    var a, i, p := AllLbEmitsFrom(lbs, gs, |lbs|, t, e);
    var b, j, q := AllRouteEmitsFrom(routes, hs, |routes|, t, f);
    var g, s := gs[a][i], SourceServices(routes[b])[j];
    PlainGroupPort(gs[a], i, p);
    PlainRoute(routes, b);
    PlainServicePort(routes[b], j, q);
    PortEmitName(lbs[a], i, g.addresses, g.ports[p], t);
    ServiceEmitName(routes[b], s, RouteAddresses(hs[b], |hs[b]|), s.ports[q], t);
    ResourceKeysDisjoint(lbs[a].namespace, lbs[a].name, i, g.ports[p].port, g.ports[p].protocol,
                         ServiceKey(routes[b], s), s.uid, s.ports[q].port, s.ports[q].protocol);
  }

  // ----- listeners -----

  /** A listener bears the name of its cluster and points at it. */
  predicate Paired(e: Emit) {
    e.listener.Some? ==> e.listener.value.name == e.listener.value.cluster == e.cluster.name
  }

  lemma EmitsPaired(lbs: seq<LoadBalancer>, routes: seq<Route>, store: Store, t: Table, memoise: bool, e: Emit)
    requires Emits(lbs, routes, store, t, memoise).Some? && e in Emits(lbs, routes, store, t, memoise).value
    ensures Paired(e)
  {
    hide Resolve, AllLbEmits, AllRouteEmits, PortEmit, ServiceEmit;
    var os := Owners(lbs, routes);
    var v: seq<seq<Endpoints>> := Resolve(os, |os|, store, memoise).value;
    if e in AllLbEmits(lbs, v[..|lbs|], |lbs|, t) {
      var a, i, p := AllLbEmitsFrom(lbs, v[..|lbs|], |lbs|, t, e);
      PortEmitPaired(lbs[a], i, v[a][i].addresses, v[a][i].ports[p], t);
    } else {
      var gs := v[|lbs|..];
      var a, i, p := AllRouteEmitsFrom(routes, gs, |routes|, t, e);
      var s := SourceServices(routes[a])[i];
      ServiceEmitPaired(routes[a], s, RouteAddresses(gs[a], |gs[a]|), s.ports[p], t);
    }
  }

  lemma PortEmitPaired(lb: LoadBalancer, i: nat, addresses: seq<Address>, p: EndpointPort, t: Table)
    ensures Paired(PortEmit(lb, i, addresses, p, t))
  {
  }

  lemma ServiceEmitPaired(r: Route, s: Service, addresses: seq<Address>, p: ServicePort, t: Table)
    ensures Paired(ServiceEmit(r, s, addresses, p, t))
  {
  }

  lemma {:induction false} ListenerFrom(es: seq<Emit>, n: nat, k: nat) returns (i: nat)
    requires n <= |es| && k < |Listeners(es, n)|
    ensures i < n && es[i].listener == Some(Listeners(es, n)[k])
    decreases n
  {
    if k < |Listeners(es, n - 1)| {
      i := ListenerFrom(es, n - 1, k);
    } else {
      i := n - 1;
    }
  }

  lemma {:induction false} ListenerIn(es: seq<Emit>, n: nat, i: nat)
    requires i < n <= |es| && es[i].listener.Some?
    ensures es[i].listener.value in Listeners(es, n)
    decreases n
  {
    if i < n - 1 {
      ListenerIn(es, n - 1, i);
    }
  }

  lemma {:induction false} ListenersUnique(es: seq<Emit>, n: nat)
    requires n <= |es| && UniqueNames(es) && forall i :: 0 <= i < |es| ==> Paired(es[i])
    ensures forall k, l :: 0 <= k < l < |Listeners(es, n)| ==> Listeners(es, n)[k].name != Listeners(es, n)[l].name
  {
    if n > 0 {
      ListenersUnique(es, n - 1);
      var before := Listeners(es, n - 1);
      forall k | 0 <= k < |before| ensures before[k].name != es[n - 1].cluster.name {
        var i := ListenerFrom(es, n - 1, k);
        assert Paired(es[i]);
      }
      assert Paired(es[n - 1]);
    }
  }

  /** Closure: cluster and listener names are unique, and every listener's target is the
      cluster of its own name in the same snapshot. */
  lemma SnapshotClosed(lbs: seq<LoadBalancer>, routes: seq<Route>, store: Store, t: Table)
    requires PlainInputs(lbs, routes) && SnapshotOf(lbs, routes, store, t).Some?
    ensures var c := SnapshotOf(lbs, routes, store, t).value;
            && (forall i, j :: 0 <= i < j < |c.clusters| ==> c.clusters[i].name != c.clusters[j].name)
            && (forall i, j :: 0 <= i < j < |c.listeners| ==> c.listeners[i].name != c.listeners[j].name)
            && (forall k :: 0 <= k < |c.listeners| ==>
                  c.listeners[k].name == c.listeners[k].cluster
                      && exists i :: 0 <= i < |c.clusters| && c.clusters[i].name == c.listeners[k].cluster)
  {
    hide Emits, PlainInputs;
    EmitsUnique(lbs, routes, store, t, true);
    var es := Emits(lbs, routes, store, t, true).value;
    forall i | 0 <= i < |es| ensures Paired(es[i]) {
      EmitsPaired(lbs, routes, store, t, true, es[i]);
    }
    ListenersUnique(es, |es|);
    var c := Config(es);
    forall k | 0 <= k < |c.listeners|
      ensures c.listeners[k].name == c.listeners[k].cluster
              && exists i :: 0 <= i < |c.clusters| && c.clusters[i].name == c.listeners[k].cluster
    {
      var i := ListenerFrom(es, |es|, k);
      assert Paired(es[i]) && c.clusters[i].name == c.listeners[k].cluster;
    }
  }

  // ----- one resource per name -----

  /** A name holds the last cluster of that name in the list. */
  lemma {:induction false} LastClusterKept(cs: seq<Cluster>, n: nat, i: nat)
    requires i < n <= |cs| && forall j :: i < j < n ==> cs[j].name != cs[i].name
    ensures cs[i].name in ClustersByName(cs, n) && ClustersByName(cs, n)[cs[i].name] == cs[i]
    decreases n
  {
    if i < n - 1 {
      LastClusterKept(cs, n - 1, i);
    }
  }

  lemma {:induction false} ClusterNameFrom(cs: seq<Cluster>, n: nat, name: string) returns (i: nat)
    requires n <= |cs| && name in ClustersByName(cs, n)
    ensures i < n && cs[i].name == name && ClustersByName(cs, n)[name] == cs[i]
            && forall j :: i < j < n ==> cs[j].name != name
  {
    if cs[n - 1].name == name {
      i := n - 1;
    } else {
      i := ClusterNameFrom(cs, n - 1, name);
    }
  }

  lemma {:induction false} LastListenerKept(ls: seq<Listener>, n: nat, i: nat)
    requires i < n <= |ls| && forall j :: i < j < n ==> ls[j].name != ls[i].name
    ensures ls[i].name in ListenersByName(ls, n) && ListenersByName(ls, n)[ls[i].name] == ls[i]
    decreases n
  {
    if i < n - 1 {
      LastListenerKept(ls, n - 1, i);
    }
  }

  lemma {:induction false} ListenerNameFrom(ls: seq<Listener>, n: nat, name: string) returns (i: nat)
    requires n <= |ls| && name in ListenersByName(ls, n)
    ensures i < n && ls[i].name == name && ListenersByName(ls, n)[name] == ls[i]
            && forall j :: i < j < n ==> ls[j].name != name
  {
    if ls[n - 1].name == name {
      i := n - 1;
    } else {
      i := ListenerNameFrom(ls, n - 1, name);
    }
  }

  /** No resource of the lists is lost to another of its name, nothing else is held, and every
      listener held leads to a cluster held. */
  lemma SnapshotIndexed(lbs: seq<LoadBalancer>, routes: seq<Route>, store: Store, t: Table)
    requires PlainInputs(lbs, routes) && SnapshotOf(lbs, routes, store, t).Some?
    ensures var c := SnapshotOf(lbs, routes, store, t).value;
            var r := Indexed(c);
            && (forall i :: 0 <= i < |c.clusters| ==>
                 c.clusters[i].name in r.clusters && r.clusters[c.clusters[i].name] == c.clusters[i])
            && (forall i :: 0 <= i < |c.listeners| ==>
                 c.listeners[i].name in r.listeners && r.listeners[c.listeners[i].name] == c.listeners[i])
            && (forall name :: name in r.clusters ==> r.clusters[name] in c.clusters)
            && (forall name :: name in r.listeners ==>
                 r.listeners[name] in c.listeners && r.listeners[name].cluster in r.clusters)
  {
    SnapshotClosed(lbs, routes, store, t);
    hide SnapshotOf, PlainInputs, ClustersByName, ListenersByName;
    var c := SnapshotOf(lbs, routes, store, t).value;
    forall i | 0 <= i < |c.clusters|
      ensures c.clusters[i].name in Indexed(c).clusters && Indexed(c).clusters[c.clusters[i].name] == c.clusters[i] {
      LastClusterKept(c.clusters, |c.clusters|, i);
    }
    forall i | 0 <= i < |c.listeners|
      ensures c.listeners[i].name in Indexed(c).listeners
              && Indexed(c).listeners[c.listeners[i].name] == c.listeners[i] {
      LastListenerKept(c.listeners, |c.listeners|, i);
    }
    forall name | name in Indexed(c).clusters ensures Indexed(c).clusters[name] in c.clusters {
      var k := ClusterNameFrom(c.clusters, |c.clusters|, name);
    }
    forall name | name in Indexed(c).listeners
      ensures Indexed(c).listeners[name] in c.listeners && Indexed(c).listeners[name].cluster in Indexed(c).clusters
    {
      var k := ListenerNameFrom(c.listeners, |c.listeners|, name);
      var i :| 0 <= i < |c.clusters| && c.clusters[i].name == c.listeners[k].cluster;
    }
  }

  // ----- completeness -----

  /** The pair of one port of one endpoint group, with the addresses the snapshot resolved. */
  function LbEmitAt(lbs: seq<LoadBalancer>, routes: seq<Route>, store: Store, t: Table, a: nat, i: nat, p: nat): Emit
    requires SnapshotOf(lbs, routes, store, t).Some? && a < |lbs| && i < |lbs[a].endpoints|
             && p < |lbs[a].endpoints[i].ports|
  {
    var os := Owners(lbs, routes);
    PortEmit(lbs[a], i, Resolve(os, |os|, store, true).value[a][i].addresses, lbs[a].endpoints[i].ports[p], t)
  }

  lemma LbEmitted(lbs: seq<LoadBalancer>, routes: seq<Route>, store: Store, t: Table, a: nat, i: nat, p: nat)
    requires SnapshotOf(lbs, routes, store, t).Some? && a < |lbs| && i < |lbs[a].endpoints|
             && p < |lbs[a].endpoints[i].ports|
    ensures LbEmitAt(lbs, routes, store, t, a, i, p) in Emits(lbs, routes, store, t, true).value
  {
    hide Resolve, AllLbEmits, AllRouteEmits, PortEmit;
    var os := Owners(lbs, routes);
    var v: seq<seq<Endpoints>> := Resolve(os, |os|, store, true).value;
    ResolvedLbGroups(lbs, routes, store, true);
    AllLbEmitsIn(lbs, v[..|lbs|], |lbs|, t, a, i, p);
  }

  /** Every port of every endpoint group has its cluster and, where it has one, its listener. */
  lemma LbPortPublished(lbs: seq<LoadBalancer>, routes: seq<Route>, store: Store, t: Table, a: nat, i: nat, p: nat)
    requires SnapshotOf(lbs, routes, store, t).Some? && a < |lbs| && i < |lbs[a].endpoints|
             && p < |lbs[a].endpoints[i].ports|
    ensures var c, os := SnapshotOf(lbs, routes, store, t).value, Owners(lbs, routes);
            var addresses := Resolve(os, |os|, store, true).value[a][i].addresses;
            var e := PortEmit(lbs[a], i, addresses, lbs[a].endpoints[i].ports[p], t);
            e.cluster in c.clusters && (e.listener.Some? ==> e.listener.value in c.listeners)
  {
    LbEmitted(lbs, routes, store, t, a, i, p);
    hide Resolve, Emits, PortEmit;
    InConfig(Emits(lbs, routes, store, t, true).value, LbEmitAt(lbs, routes, store, t, a, i, p));
  }

  function ServiceEmitAt(lbs: seq<LoadBalancer>, routes: seq<Route>, store: Store, t: Table, a: nat, i: nat,
                         p: nat): Emit
    requires SnapshotOf(lbs, routes, store, t).Some? && a < |routes|
    requires i < |SourceServices(routes[a])| && p < |SourceServices(routes[a])[i].ports|
  {
    var os, s := Owners(lbs, routes), SourceServices(routes[a])[i];
    var groups := Resolve(os, |os|, store, true).value[|lbs| + a];
    ServiceEmit(routes[a], s, RouteAddresses(groups, |groups|), s.ports[p], t)
  }

  lemma ServiceEmitted(lbs: seq<LoadBalancer>, routes: seq<Route>, store: Store, t: Table, a: nat, i: nat, p: nat)
    requires SnapshotOf(lbs, routes, store, t).Some? && a < |routes|
    requires i < |SourceServices(routes[a])| && p < |SourceServices(routes[a])[i].ports|
    ensures ServiceEmitAt(lbs, routes, store, t, a, i, p) in Emits(lbs, routes, store, t, true).value
  {
    hide Resolve, AllLbEmits, AllRouteEmits, ServiceEmit, RouteAddresses;
    var os := Owners(lbs, routes);
    var v: seq<seq<Endpoints>> := Resolve(os, |os|, store, true).value;
    var gs := v[|lbs|..];
    assert gs[a] == v[|lbs| + a];
    AllRouteEmitsIn(routes, gs, |routes|, t, a, i, p);
  }

  lemma ServicePortPublished(lbs: seq<LoadBalancer>, routes: seq<Route>, store: Store, t: Table, a: nat, i: nat, p: nat)
    requires SnapshotOf(lbs, routes, store, t).Some? && a < |routes|
    requires i < |SourceServices(routes[a])| && p < |SourceServices(routes[a])[i].ports|
    ensures var c, os := SnapshotOf(lbs, routes, store, t).value, Owners(lbs, routes);
            var groups, s := Resolve(os, |os|, store, true).value[|lbs| + a], SourceServices(routes[a])[i];
            var e := ServiceEmit(routes[a], s, RouteAddresses(groups, |groups|), s.ports[p], t);
            e.cluster in c.clusters && (e.listener.Some? ==> e.listener.value in c.listeners)
  {
    ServiceEmitted(lbs, routes, store, t, a, i, p);
    hide Resolve, Emits, ServiceEmit, RouteAddresses;
    InConfig(Emits(lbs, routes, store, t, true).value, ServiceEmitAt(lbs, routes, store, t, a, i, p));
  }

  lemma InConfig(es: seq<Emit>, e: Emit)
    requires e in es
    ensures e.cluster in Config(es).clusters && (e.listener.Some? ==> e.listener.value in Config(es).listeners)
  {
    var i :| 0 <= i < |es| && es[i] == e;
    assert Config(es).clusters[i] == e.cluster;
    if e.listener.Some? {
      ListenerIn(es, |es|, i);
    }
  }

  predicate HasListener(c: EnvoyConfig, name: string) {
    exists k :: 0 <= k < |c.listeners| && c.listeners[k].name == name
  }

  lemma OwnListener(es: seq<Emit>, e: Emit)
    requires UniqueNames(es) && e in es && forall i :: 0 <= i < |es| ==> Paired(es[i])
    ensures HasListener(Config(es), e.cluster.name) <==> e.listener.Some?
  {
    var j :| 0 <= j < |es| && es[j] == e;
    if HasListener(Config(es), e.cluster.name) {
      var k :| 0 <= k < |Config(es).listeners| && Config(es).listeners[k].name == e.cluster.name;
      var i := ListenerFrom(es, |es|, k);
      assert Paired(es[i]) && i == j;
    }
    if e.listener.Some? {
      ListenerIn(es, |es|, j);
      assert Paired(es[j]);
      var k :| 0 <= k < |Config(es).listeners| && Config(es).listeners[k] == e.listener.value;
    }
  }

  lemma SnapshotListener(lbs: seq<LoadBalancer>, routes: seq<Route>, store: Store, t: Table, e: Emit)
    requires PlainInputs(lbs, routes) && SnapshotOf(lbs, routes, store, t).Some?
             && e in Emits(lbs, routes, store, t, true).value
    ensures HasListener(SnapshotOf(lbs, routes, store, t).value, e.cluster.name) <==> e.listener.Some?
  {
    hide Emits, PlainInputs, HasListener, UniqueNames, Paired;
    EmitsUnique(lbs, routes, store, t, true);
    var es := Emits(lbs, routes, store, t, true).value;
    forall i | 0 <= i < |es| ensures Paired(es[i]) {
      EmitsPaired(lbs, routes, store, t, true, es[i]);
    }
    OwnListener(es, e);
  }

  /** A port of an endpoint group has a listener if and only if its protocol is TCP or UDP. */
  lemma LbListenerIff(lbs: seq<LoadBalancer>, routes: seq<Route>, store: Store, t: Table, a: nat, i: nat, p: nat)
    requires PlainInputs(lbs, routes) && SnapshotOf(lbs, routes, store, t).Some?
    requires a < |lbs| && i < |lbs[a].endpoints| && p < |lbs[a].endpoints[i].ports|
    ensures var q := lbs[a].endpoints[i].ports[p];
            HasListener(SnapshotOf(lbs, routes, store, t).value,
                        ResourceKey(lbs[a].namespace, lbs[a].name, i, q.port, q.protocol))
            <==> q.protocol == TCP || q.protocol == UDP
  {
    var q := lbs[a].endpoints[i].ports[p];
    var e := LbEmitAt(lbs, routes, store, t, a, i, p);
    assert e.cluster.name == ResourceKey(lbs[a].namespace, lbs[a].name, i, q.port, q.protocol);
    assert e.listener.Some? <==> q.protocol == TCP || q.protocol == UDP;
    hide *;
    LbEmitted(lbs, routes, store, t, a, i, p);
    SnapshotListener(lbs, routes, store, t, e);
  }

  lemma ServiceListenerIff(lbs: seq<LoadBalancer>, routes: seq<Route>, store: Store, t: Table, a: nat, i: nat, p: nat)
    requires PlainInputs(lbs, routes) && SnapshotOf(lbs, routes, store, t).Some?
    requires a < |routes| && i < |SourceServices(routes[a])| && p < |SourceServices(routes[a])[i].ports|
    ensures var r, s := routes[a], SourceServices(routes[a])[i];
            var q := s.ports[p];
            HasListener(SnapshotOf(lbs, routes, store, t).value,
                        RouteResourceKey(r.namespace, s.namespace, s.name, OriginalRouteName(r), s.uid, q.port,
                                         q.protocol))
            <==> q.protocol == TCP || q.protocol == UDP
  {
    var r, s := routes[a], SourceServices(routes[a])[i];
    var q, e := s.ports[p], ServiceEmitAt(lbs, routes, store, t, a, i, p);
    assert e.cluster.name
           == RouteResourceKey(r.namespace, s.namespace, s.name, OriginalRouteName(r), s.uid, q.port, q.protocol);
    assert e.listener.Some? <==> q.protocol == TCP || q.protocol == UDP;
    hide *;
    ServiceEmitted(lbs, routes, store, t, a, i, p);
    SnapshotListener(lbs, routes, store, t, e);
  }
}
