/** The Envoy configuration computed from LoadBalancers, Routes and the port table. */
module Snapshot {
  import opened Text
  import opened Keys
  import opened Api
  import opened PortTable
  import opened PortRequests
  import opened PortAllocation

  datatype Backend = Backend(ip: string, port: int)

  datatype HttpOptions = NoHttp | Http1 | Http2

  datatype Cluster = Cluster(name: string, backends: seq<Backend>, healthChecked: bool, http: HttpOptions)

  datatype ListenerKind = TcpProxy | UdpProxy | HttpManager

  datatype Listener = Listener(name: string, cluster: string, port: int, kind: ListenerKind)

  datatype EnvoyConfig = EnvoyConfig(clusters: seq<Cluster>, listeners: seq<Listener>)

  /** What the snapshot holds: one resource per name, the last of a name. */
  datatype Resources = Resources(clusters: map<string, Cluster>, listeners: map<string, Listener>)

  /** The first n clusters by name. */
  function ClustersByName(cs: seq<Cluster>, n: nat): map<string, Cluster>
    requires n <= |cs|
  {
    if n == 0 then map[] else ClustersByName(cs, n - 1)[cs[n - 1].name := cs[n - 1]]
  }

  function ListenersByName(ls: seq<Listener>, n: nat): map<string, Listener>
    requires n <= |ls|
  {
    if n == 0 then map[] else ListenersByName(ls, n - 1)[ls[n - 1].name := ls[n - 1]]
  }

  function Indexed(c: EnvoyConfig): Resources {
    Resources(ClustersByName(c.clusters, |c.clusters|), ListenersByName(c.listeners, |c.listeners|))
  }

  method IndexByName(c: EnvoyConfig) returns (r: Resources)
    ensures r == Indexed(c)
  {
    var clusters, listeners := map[], map[];
    for i := 0 to |c.clusters|
      invariant clusters == ClustersByName(c.clusters, i)
    {
      clusters := clusters[c.clusters[i].name := c.clusters[i]];
    }
    for i := 0 to |c.listeners|
      invariant listeners == ListenersByName(c.listeners, i)
    {
      listeners := listeners[c.listeners[i].name := c.listeners[i]];
    }
    r := Resources(clusters, listeners);
  }

  // ----- resolving address references -----

  datatype Ref = Ref(namespace: string, name: string)

  /** The Addresses objects. */
  type Store = map<Ref, seq<Address>>

  type Memo = map<string, seq<Address>>

  function MemoKey(r: Ref): string {
    r.namespace + "-address-" + r.name
  }

  /** An object's namespace and endpoint groups; a route without a source has none to
      resolve. */
  datatype Owner = Owner(namespace: string, groups: seq<Endpoints>)

  function Owners(lbs: seq<LoadBalancer>, routes: seq<Route>): seq<Owner> {
    seq(|lbs|, i requires 0 <= i < |lbs| => Owner(lbs[i].namespace, lbs[i].endpoints))
    + seq(|routes|, i requires 0 <= i < |routes| =>
        Owner(routes[i].namespace, if routes[i].source.None? then [] else routes[i].endpoints))
  }

  datatype Resolution<T> = Failed | Resolved(value: T, memo: Memo)

  /** One group's addresses; without `memoise` every reference is read from the store. */
  function ResolveGroup(namespace: string, g: Endpoints, store: Store, memo: Memo,
                        memoise: bool): Resolution<Endpoints> {
    if g.reference.None? then Resolved(g, memo)
    else
      var r := Ref(namespace, g.reference.value);
      if memoise && MemoKey(r) in memo then Resolved(g.(addresses := memo[MemoKey(r)]), memo)
      else if r in store then Resolved(g.(addresses := store[r]), memo[MemoKey(r) := store[r]])
      else Failed
  }

  /** The first n groups of one object. */
  function ResolveGroups(o: Owner, n: nat, store: Store, memo: Memo, memoise: bool): (r: Resolution<seq<Endpoints>>)
    requires n <= |o.groups|
    ensures r.Resolved? ==> |r.value| == n
  {
    if n == 0 then Resolved([], memo)
    else
      var before := ResolveGroups(o, n - 1, store, memo, memoise);
      if before.Failed? then Failed
      else
        var g := ResolveGroup(o.namespace, o.groups[n - 1], store, before.memo, memoise);
        if g.Failed? then Failed else Resolved(before.value + [g.value], g.memo)
  }

  /** The first n objects. */
  function Resolve(os: seq<Owner>, n: nat, store: Store, memoise: bool): (r: Resolution<seq<seq<Endpoints>>>)
    requires n <= |os|
    ensures r.Resolved? ==> |r.value| == n && forall i :: 0 <= i < n ==> |r.value[i]| == |os[i].groups|
  {
    if n == 0 then Resolved([], map[])
    else
      var before := Resolve(os, n - 1, store, memoise);
      if before.Failed? then Failed
      else
        var gs := ResolveGroups(os[n - 1], |os[n - 1].groups|, store, before.memo, memoise);
        if gs.Failed? then Failed else Resolved(before.value + [gs.value], gs.memo)
  }

  lemma {:induction false} ResolvePrefix(os: seq<Owner>, m: nat, n: nat, store: Store, memoise: bool)
    requires m <= n <= |os| && Resolve(os, n, store, memoise).Resolved?
    ensures Resolve(os, m, store, memoise).Resolved?
    ensures Resolve(os, m, store, memoise).value == Resolve(os, n, store, memoise).value[..m]
    decreases n
  {
    if m < n {
      ResolvePrefix(os, m, n - 1, store, memoise);
    }
  }

  lemma {:induction false} GroupsPrefix(o: Owner, m: nat, n: nat, store: Store, memo: Memo, memoise: bool)
    requires m <= n <= |o.groups| && ResolveGroups(o, n, store, memo, memoise).Resolved?
    ensures ResolveGroups(o, m, store, memo, memoise).Resolved?
    ensures ResolveGroups(o, m, store, memo, memoise).value == ResolveGroups(o, n, store, memo, memoise).value[..m]
    decreases n
  {
    if m < n {
      GroupsPrefix(o, m, n - 1, store, memo, memoise);
    }
  }

  // ----- what is emitted per port -----

  /** A cluster and the listener in front of it; only TCP and UDP get a listener. */
  datatype Emit = Emit(cluster: Cluster, listener: Option<Listener>)

  predicate IsHttpRoute(kind: string) {
    kind == "HTTPRoute" || kind == "GRPCRoute" || kind == "Ingress"
  }

  function MakeCluster(name: string, backends: seq<Backend>, protocol: string, kind: string): Cluster {
    Cluster(name, backends, protocol != UDP,
            if kind == "GRPCRoute" then Http2 else if IsHttpRoute(kind) then Http1 else NoHttp)
  }

  function MakeListener(name: string, port: int, protocol: string, http: bool): Option<Listener> {
    if protocol == TCP then Some(Listener(name, name, port, if http then HttpManager else TcpProxy))
    else if protocol == UDP then Some(Listener(name, name, port, UdpProxy))
    else None
  }

  /** The port a listener binds: the allocated one, else the given fallback. */
  function ListenerPort(t: Table, ep: string, k: string, fallback: int): int {
    Uint32(if Has(t, ep, k) then t[ep][k] else fallback)
  }

  function Backends(addresses: seq<Address>, port: int): seq<Backend> {
    seq(|addresses|, i requires 0 <= i < |addresses| => Backend(addresses[i].ip, Uint32(port)))
  }

  function PortEmit(lb: LoadBalancer, i: nat, addresses: seq<Address>, p: EndpointPort, t: Table): Emit {
    var name := ResourceKey(lb.namespace, lb.name, i, p.port, p.protocol);
    var port := ListenerPort(t, EndpointKey(lb.namespace, lb.name, i), PortKey(p.port, p.protocol), p.port);
    Emit(MakeCluster(name, Backends(addresses, p.port), p.protocol, ""), MakeListener(name, port, p.protocol, false))
  }

  function GroupEmits(lb: LoadBalancer, i: nat, g: Endpoints, t: Table): seq<Emit> {
    seq(|g.ports|, p requires 0 <= p < |g.ports| => PortEmit(lb, i, g.addresses, g.ports[p], t))
  }

  /** The first n groups of a LoadBalancer, with their addresses resolved. */
  function LbEmits(lb: LoadBalancer, groups: seq<Endpoints>, n: nat, t: Table): seq<Emit>
    requires n <= |groups|
  {
    if n == 0 then [] else LbEmits(lb, groups, n - 1, t) + GroupEmits(lb, n - 1, groups[n - 1], t)
  }

  /** The first n LoadBalancers. */
  function AllLbEmits(lbs: seq<LoadBalancer>, groups: seq<seq<Endpoints>>, n: nat, t: Table): seq<Emit>
    requires n <= |lbs| && n <= |groups|
  {
    if n == 0 then []
    else AllLbEmits(lbs, groups, n - 1, t) + LbEmits(lbs[n - 1], groups[n - 1], |groups[n - 1]|, t)
  }

  /** The addresses of the first n groups of a route. */
  function RouteAddresses(groups: seq<Endpoints>, n: nat): seq<Address>
    requires n <= |groups|
  {
    if n == 0 then [] else RouteAddresses(groups, n - 1) + groups[n - 1].addresses
  }

  function ServiceEmit(r: Route, s: Service, addresses: seq<Address>, p: ServicePort, t: Table): Emit {
    var name := RouteResourceKey(r.namespace, s.namespace, s.name, OriginalRouteName(r), s.uid, p.port, p.protocol);
    var port := ListenerPort(t, ServiceKey(r, s), PortKey(p.port, p.protocol), p.port);
    Emit(MakeCluster(name, Backends(addresses, p.nodePort), p.protocol, RouteKind(r)),
         MakeListener(name, port, p.protocol, IsHttpRoute(RouteKind(r))))
  }

  function ServiceEmits(r: Route, s: Service, addresses: seq<Address>, t: Table): seq<Emit> {
    seq(|s.ports|, p requires 0 <= p < |s.ports| => ServiceEmit(r, s, addresses, s.ports[p], t))
  }

  /** The first n services of a route. */
  function RouteEmits(r: Route, addresses: seq<Address>, n: nat, t: Table): seq<Emit>
    requires n <= |SourceServices(r)|
  {
    if n == 0 then [] else RouteEmits(r, addresses, n - 1, t) + ServiceEmits(r, SourceServices(r)[n - 1], addresses, t)
  }

  /** The first n routes. */
  function AllRouteEmits(routes: seq<Route>, groups: seq<seq<Endpoints>>, n: nat, t: Table): seq<Emit>
    requires n <= |routes| && n <= |groups|
  {
    if n == 0 then []
    else AllRouteEmits(routes, groups, n - 1, t)
         + RouteEmits(routes[n - 1], RouteAddresses(groups[n - 1], |groups[n - 1]|), |SourceServices(routes[n - 1])|, t)
  }

  function Clusters(es: seq<Emit>): seq<Cluster> {
    seq(|es|, i requires 0 <= i < |es| => es[i].cluster)
  }

  /** The listeners of the first n emits. */
  function Listeners(es: seq<Emit>, n: nat): seq<Listener>
    requires n <= |es|
  {
    if n == 0 then []
    else Listeners(es, n - 1) + if es[n - 1].listener.Some? then [es[n - 1].listener.value] else []
  }

  function Config(es: seq<Emit>): EnvoyConfig {
    EnvoyConfig(Clusters(es), Listeners(es, |es|))
  }

  /** Everything emitted, or None when an address reference cannot be read. */
  function Emits(lbs: seq<LoadBalancer>, routes: seq<Route>, store: Store, t: Table, memoise: bool): Option<seq<Emit>> {
    var os := Owners(lbs, routes);
    var r := Resolve(os, |os|, store, memoise);
    if r.Failed? then None
    else Some(AllLbEmits(lbs, r.value[..|lbs|], |lbs|, t) + AllRouteEmits(routes, r.value[|lbs|..], |routes|, t))
  }

  /** MapSnapshot, as a function of what it reads. */
  function SnapshotOf(lbs: seq<LoadBalancer>, routes: seq<Route>, store: Store, t: Table): Option<EnvoyConfig> {
    var es := Emits(lbs, routes, store, t, true);
    if es.None? then None else Some(Config(es.value))
  }

  // ----- the loops -----

  lemma {:induction false} ListenersAppend(a: seq<Emit>, b: seq<Emit>, n: nat)
    requires n <= |b|
    ensures Listeners(a + b, |a| + n) == Listeners(a, |a|) + Listeners(b, n)
  {
    if n == 0 {
      ListenersPrefix(a, b, |a|);
    } else {
      ListenersAppend(a, b, n - 1);
    }
  }

  lemma {:induction false} ListenersPrefix(a: seq<Emit>, b: seq<Emit>, n: nat)
    requires n <= |a|
    ensures Listeners(a + b, n) == Listeners(a, n)
  {
    if n > 0 {
      ListenersPrefix(a, b, n - 1);
    }
  }

  lemma ConfigAppend(a: seq<Emit>, b: seq<Emit>)
    ensures Config(a + b)
            == EnvoyConfig(Config(a).clusters + Config(b).clusters, Config(a).listeners + Config(b).listeners)
  {
    ListenersAppend(a, b, |b|);
    assert Clusters(a + b) == Clusters(a) + Clusters(b);
  }

  /** Add one emitted pair to the two growing lists. */
  method Append(c: EnvoyConfig, ghost es: seq<Emit>, e: Emit) returns (r: EnvoyConfig)
    requires c == Config(es)
    ensures r == Config(es + [e])
  {
    var listeners := c.listeners;
    if e.listener.Some? {
      listeners := listeners + [e.listener.value];
    }
    r := EnvoyConfig(c.clusters + [e.cluster], listeners);
    ConfigAppend(es, [e]);
    assert Listeners([e], 1) == Listeners([e], 0) + if e.listener.Some? then [e.listener.value] else [];
  }

  method ResolveAddresses(namespace: string, g: Endpoints, store: Store, memo: Memo) returns (r: Resolution<Endpoints>)
    ensures r == ResolveGroup(namespace, g, store, memo, true)
  {
    if g.reference.Some? {
      var ref := Ref(namespace, g.reference.value);
      if MemoKey(ref) in memo {
        return Resolved(g.(addresses := memo[MemoKey(ref)]), memo);
      }
      if ref !in store {
        return Failed;
      }
      return Resolved(g.(addresses := store[ref]), memo[MemoKey(ref) := store[ref]]);
    }
    return Resolved(g, memo);
  }

  method MakePortEmit(lb: LoadBalancer, i: nat, addresses: seq<Address>, port: EndpointPort, allocator: PortAllocator)
    returns (e: Emit)
    ensures e == PortEmit(lb, i, addresses, port, allocator.portLookup)
  {
    hide ResourceKey, EndpointKey, PortKey, Uint32;
    var key := ResourceKey(lb.namespace, lb.name, i, port.port, port.protocol);
    var backends := MakeBackends(addresses, port.port);
    var listenerPort := Uint32(port.port);
    var value, found := allocator.Lookup(EndpointKey(lb.namespace, lb.name, i), PortKey(port.port, port.protocol));
    if found {
      listenerPort := Uint32(value);
    }
    e := Emit(MakeCluster(key, backends, port.protocol, ""), MakeListener(key, listenerPort, port.protocol, false));
  }

  /** One endpoint group: a cluster and at most one listener per port. */
  method MapGroup(lb: LoadBalancer, i: nat, g: Endpoints, allocator: PortAllocator, c: EnvoyConfig,
                  ghost es: seq<Emit>) returns (r: EnvoyConfig)
    requires c == Config(es)
    ensures r == Config(es + GroupEmits(lb, i, g, allocator.portLookup))
  {
    hide Config, PortEmit;
    ghost var all := GroupEmits(lb, i, g, allocator.portLookup);
    r := c;
    assert es + all[..0] == es;
    for p := 0 to |g.ports|
      invariant r == Config(es + all[..p])
    {
      var e := MakePortEmit(lb, i, g.addresses, g.ports[p], allocator);
      r := Append(r, es + all[..p], e);
      assert es + all[..p] + [e] == es + all[..p + 1];
    }
    assert all[..|all|] == all;
  }

  method MakeBackends(addresses: seq<Address>, port: int) returns (r: seq<Backend>)
    ensures r == Backends(addresses, port)
  {
    r := [];
    for i := 0 to |addresses|
      invariant r == Backends(addresses, port)[..i]
    {
      r := r + [Backend(addresses[i].ip, Uint32(port))];
    }
  }

  method CollectAddresses(groups: seq<Endpoints>) returns (r: seq<Address>)
    ensures r == RouteAddresses(groups, |groups|)
  {
    r := [];
    for i := 0 to |groups|
      invariant r == RouteAddresses(groups, i)
    {
      r := r + groups[i].addresses;
    }
  }

  method MakeServiceEmit(route: Route, svc: Service, addresses: seq<Address>, port: ServicePort,
                         allocator: PortAllocator) returns (e: Emit)
    ensures e == ServiceEmit(route, svc, addresses, port, allocator.portLookup)
  {
    hide RouteResourceKey, ServiceKey, PortKey, Uint32, OriginalRouteName, RouteKind, IsHttpRoute;
    var kind := RouteKind(route);
    var backends := MakeBackends(addresses, port.nodePort);
    var listenerPort := Uint32(port.port);
    var value, found := allocator.Lookup(ServiceKey(route, svc), PortKey(port.port, port.protocol));
    if found {
      listenerPort := Uint32(value);
    }
    var key :=
        RouteResourceKey(route.namespace, svc.namespace, svc.name, OriginalRouteName(route), svc.uid, port.port,
                         port.protocol);
    e := Emit(MakeCluster(key, backends, port.protocol, kind),
              MakeListener(key, listenerPort, port.protocol, IsHttpRoute(kind)));
  }

  /** One service of a route. */
  method MapService(route: Route, svc: Service, addresses: seq<Address>, allocator: PortAllocator, c: EnvoyConfig,
                    ghost es: seq<Emit>) returns (r: EnvoyConfig)
    requires c == Config(es)
    ensures r == Config(es + ServiceEmits(route, svc, addresses, allocator.portLookup))
  {
    hide Config, ServiceEmit;
    ghost var all := ServiceEmits(route, svc, addresses, allocator.portLookup);
    r := c;
    assert es + all[..0] == es;
    for p := 0 to |svc.ports|
      invariant r == Config(es + all[..p])
    {
      var e := MakeServiceEmit(route, svc, addresses, svc.ports[p], allocator);
      r := Append(r, es + all[..p], e);
      assert es + all[..p] + [e] == es + all[..p + 1];
    }
    assert all[..|all|] == all;
  }

  /** One LoadBalancer: resolve and emit group by group. */
  method MapOneLb(lb: LoadBalancer, store: Store, memo: Memo, allocator: PortAllocator, c: EnvoyConfig,
                  ghost es: seq<Emit>)
    returns (ok: bool, r: EnvoyConfig, memo': Memo)
    requires c == Config(es)
    ensures var gs := ResolveGroups(Owner(lb.namespace, lb.endpoints), |lb.endpoints|, store, memo, true);
            ok == gs.Resolved?
            && (ok ==> memo' == gs.memo
                       && r == Config(es + LbEmits(lb, gs.value, |lb.endpoints|, allocator.portLookup)))
  {
    hide Config, GroupEmits, ResolveGroup;
    ghost var o, t := Owner(lb.namespace, lb.endpoints), allocator.portLookup;
    ghost var groups: seq<Endpoints> := [];
    r, memo' := c, memo;
    assert es + LbEmits(lb, groups, 0, t) == es;
    for i := 0 to |lb.endpoints|
      invariant ResolveGroups(o, i, store, memo, true) == Resolved(groups, memo')
      invariant |groups| == i && r == Config(es + LbEmits(lb, groups, i, t))
    {
      var g := ResolveAddresses(lb.namespace, lb.endpoints[i], store, memo');
      if g.Failed? {
        GroupsFail(o, i + 1, |o.groups|, store, memo, true);
        return false, r, memo';
      }
      r := MapGroup(lb, i, g.value, allocator, r, es + LbEmits(lb, groups, i, t));
      memo' := g.memo;
      LbEmitsExtend(lb, groups, g.value, i, t);
      assert es + LbEmits(lb, groups, i, t) + GroupEmits(lb, i, g.value, t)
             == es + LbEmits(lb, groups + [g.value], i + 1, t);
      groups := groups + [g.value];
    }
    ok := true;
  }

  lemma {:induction false} GroupsFail(o: Owner, m: nat, n: nat, store: Store, memo: Memo, memoise: bool)
    requires m <= n <= |o.groups| && ResolveGroups(o, m, store, memo, memoise).Failed?
    ensures ResolveGroups(o, n, store, memo, memoise).Failed?
  {
    if ResolveGroups(o, n, store, memo, memoise).Resolved? {
      GroupsPrefix(o, m, n, store, memo, memoise);
    }
  }

  lemma {:induction false} ResolveFail(os: seq<Owner>, m: nat, n: nat, store: Store, memoise: bool)
    requires m <= n <= |os| && Resolve(os, m, store, memoise).Failed?
    ensures Resolve(os, n, store, memoise).Failed?
  {
    if Resolve(os, n, store, memoise).Resolved? {
      ResolvePrefix(os, m, n, store, memoise);
    }
  }

  lemma {:induction false} LbEmitsPrefix(lb: LoadBalancer, a: seq<Endpoints>, b: seq<Endpoints>, n: nat, t: Table)
    requires n <= |a| <= |b| && a == b[..|a|]
    ensures LbEmits(lb, a, n, t) == LbEmits(lb, b, n, t)
  {
    if n > 0 {
      LbEmitsPrefix(lb, a, b, n - 1, t);
    }
  }

  lemma LbEmitsExtend(lb: LoadBalancer, groups: seq<Endpoints>, g: Endpoints, n: nat, t: Table)
    requires n == |groups|
    ensures LbEmits(lb, groups + [g], n + 1, t) == LbEmits(lb, groups, n, t) + GroupEmits(lb, n, g, t)
  {
    LbEmitsPrefix(lb, groups, groups + [g], n, t);
  }

  /** One route: resolve all its groups, then emit service by service. */
  method MapOneRoute(route: Route, store: Store, memo: Memo, allocator: PortAllocator, c: EnvoyConfig,
                     ghost es: seq<Emit>)
    returns (ok: bool, r: EnvoyConfig, memo': Memo)
    requires c == Config(es) && route.source.Some?
    ensures var gs := ResolveGroups(Owner(route.namespace, route.endpoints), |route.endpoints|, store, memo, true);
            ok == gs.Resolved?
            && (ok ==> memo' == gs.memo
                       && r == Config(es + RouteEmits(route, RouteAddresses(gs.value, |gs.value|),
                           |SourceServices(route)|, allocator.portLookup)))
  {
    hide Config, ServiceEmits, ResolveGroup;
    ghost var o, t := Owner(route.namespace, route.endpoints), allocator.portLookup;
    var groups: seq<Endpoints> := [];
    r, memo' := c, memo;
    for i := 0 to |route.endpoints|
      invariant ResolveGroups(o, i, store, memo, true) == Resolved(groups, memo') && r == c
    {
      var g := ResolveAddresses(route.namespace, route.endpoints[i], store, memo');
      if g.Failed? {
        GroupsFail(o, i + 1, |o.groups|, store, memo, true);
        return false, r, memo';
      }
      groups, memo' := groups + [g.value], g.memo;
    }
    var addresses := CollectAddresses(groups);
    var services := route.source.value.services;
    assert es + RouteEmits(route, addresses, 0, t) == es;
    for i := 0 to |services|
      invariant r == Config(es + RouteEmits(route, addresses, i, t))
    {
      r := MapService(route, services[i], addresses, allocator, r, es + RouteEmits(route, addresses, i, t));
      assert es + RouteEmits(route, addresses, i, t) + ServiceEmits(route, services[i], addresses, t)
             == es + RouteEmits(route, addresses, i + 1, t);
    }
    ok := true;
  }

  lemma {:induction false} AllLbEmitsPrefix(lbs: seq<LoadBalancer>, a: seq<seq<Endpoints>>, b: seq<seq<Endpoints>>,
                                            n: nat, t: Table)
    requires n <= |lbs| && n <= |a| <= |b| && a == b[..|a|]
    ensures AllLbEmits(lbs, a, n, t) == AllLbEmits(lbs, b, n, t)
  {
    hide LbEmits;
    if n > 0 {
      AllLbEmitsPrefix(lbs, a, b, n - 1, t);
    }
  }

  lemma {:induction false} AllRouteEmitsPrefix(routes: seq<Route>, a: seq<seq<Endpoints>>, b: seq<seq<Endpoints>>,
                                               n: nat, t: Table)
    requires n <= |routes| && n <= |a| <= |b| && a == b[..|a|]
    ensures AllRouteEmits(routes, a, n, t) == AllRouteEmits(routes, b, n, t)
  {
    hide RouteEmits, RouteAddresses;
    if n > 0 {
      AllRouteEmitsPrefix(routes, a, b, n - 1, t);
    }
  }

  lemma AllLbEmitsExtend(lbs: seq<LoadBalancer>, gs: seq<seq<Endpoints>>, g: seq<Endpoints>, t: Table)
    requires |gs| < |lbs|
    ensures AllLbEmits(lbs, gs + [g], |gs| + 1, t) == AllLbEmits(lbs, gs, |gs|, t) + LbEmits(lbs[|gs|], g, |g|, t)
  {
    AllLbEmitsPrefix(lbs, gs, gs + [g], |gs|, t);
  }

  lemma AllRouteEmitsExtend(routes: seq<Route>, gs: seq<seq<Endpoints>>, g: seq<Endpoints>, t: Table)
    requires |gs| < |routes|
    ensures AllRouteEmits(routes, gs + [g], |gs| + 1, t)
            == AllRouteEmits(routes, gs, |gs|, t)
               + RouteEmits(routes[|gs|], RouteAddresses(g, |g|), |SourceServices(routes[|gs|])|, t)
  {
    AllRouteEmitsPrefix(routes, gs, gs + [g], |gs|, t);
  }

  /** One more object of the list. */
  lemma {:induction false} ResolveNext(os: seq<Owner>, n: nat, store: Store, memoise: bool)
    requires n < |os| && Resolve(os, n, store, memoise).Resolved?
    ensures var before := Resolve(os, n, store, memoise);
            var gs := ResolveGroups(os[n], |os[n].groups|, store, before.memo, memoise);
            Resolve(os, n + 1, store, memoise) == if gs.Failed? then Failed
                else Resolved(before.value + [gs.value], gs.memo)
  {
  }

  lemma StartOfLbs(lbs: seq<LoadBalancer>, os: seq<Owner>, store: Store, t: Table)
    ensures Config(AllLbEmits(lbs, [], 0, t)) == EnvoyConfig([], [])
    ensures Resolve(os, 0, store, true) == Resolved([], map[])
  {
  }

  method MapLbs(lbs: seq<LoadBalancer>, store: Store, allocator: PortAllocator, ghost os: seq<Owner>)
    returns (ok: bool, r: EnvoyConfig, memo: Memo, ghost value: seq<seq<Endpoints>>)
    requires |lbs| <= |os| && forall i :: 0 <= i < |lbs| ==> os[i] == Owner(lbs[i].namespace, lbs[i].endpoints)
    ensures ok == Resolve(os, |lbs|, store, true).Resolved?
    ensures ok ==> Resolve(os, |lbs|, store, true) == Resolved(value, memo)
                   && r == Config(AllLbEmits(lbs, value, |lbs|, allocator.portLookup))
  {
    hide *;
    ghost var t := allocator.portLookup;
    StartOfLbs(lbs, os, store, t);
    r, memo, value := EnvoyConfig([], []), map[], [];
    for a := 0 to |lbs|
      invariant Resolve(os, a, store, true) == Resolved(value, memo) && |value| == a
      invariant r == Config(AllLbEmits(lbs, value, a, t))
    {
      ResolveNext(os, a, store, true);
      ghost var gs := ResolveGroups(os[a], |os[a].groups|, store, memo, true);
      ok, r, memo := MapOneLb(lbs[a], store, memo, allocator, r, AllLbEmits(lbs, value, a, t));
      if !ok {
        ResolveFail(os, a + 1, |lbs|, store, true);
        return;
      }
      AllLbEmitsExtend(lbs, value, gs.value, t);
      value := value + [gs.value];
    }
    ok := true;
  }

  method MapRoutes(lbs: seq<LoadBalancer>, routes: seq<Route>, store: Store, allocator: PortAllocator, c: EnvoyConfig,
                   known: Memo, ghost os: seq<Owner>, ghost es: seq<Emit>)
    returns (ok: bool, r: EnvoyConfig, ghost gs: seq<seq<Endpoints>>)
    requires os == Owners(lbs, routes) && c == Config(es)
    requires Resolve(os, |lbs|, store, true).Resolved? && Resolve(os, |lbs|, store, true).memo == known
    ensures ok == Resolve(os, |os|, store, true).Resolved?
    ensures ok
            ==> |gs| == |routes| && Resolve(os, |os|, store, true).value == Resolve(os, |lbs|, store, true).value + gs
                   && r == Config(es + AllRouteEmits(routes, gs, |routes|, allocator.portLookup))
  {
    hide *;
    StartOfRoutes(lbs, routes, allocator.portLookup);
    ghost var t, first := allocator.portLookup, Resolve(os, |lbs|, store, true).value;
    var memo := known;
    r, gs := c, [];
    assert es + [] == es && first + [] == first;
    for a := 0 to |routes|
      invariant Resolve(os, |lbs| + a, store, true) == Resolved(first + gs, memo) && |gs| == a
      invariant r == Config(es + AllRouteEmits(routes, gs, a, t))
    {
      ghost var next, emitted := [], AllRouteEmits(routes, gs, a, t);
      RouteOwner(lbs, routes, a, store, memo, t);
      ResolveNext(os, |lbs| + a, store, true);
      if routes[a].source.Some? {
        ghost var groups := ResolveGroups(os[|lbs| + a], |routes[a].endpoints|, store, memo, true);
        ok, r, memo := MapOneRoute(routes[a], store, memo, allocator, r, es + emitted);
        if !ok {
          ResolveFail(os, |lbs| + a + 1, |os|, store, true);
          return;
        }
        next := groups.value;
      } else {
        assert es + emitted == es + emitted + [];
      }
      AllRouteEmitsExtend(routes, gs, next, t);
      ghost var more := RouteEmits(routes[a], RouteAddresses(next, |next|), |SourceServices(routes[a])|, t);
      assert es + emitted + more == es + (emitted + more);
      assert first + gs + [next] == first + (gs + [next]);
      gs := gs + [next];
    }
    ok := true;
  }

  lemma StartOfRoutes(lbs: seq<LoadBalancer>, routes: seq<Route>, t: Table)
    ensures |Owners(lbs, routes)| == |lbs| + |routes| && AllRouteEmits(routes, [], 0, t) == []
  {
  }

  lemma RouteOwner(lbs: seq<LoadBalancer>, routes: seq<Route>, a: nat, store: Store, memo: Memo, t: Table)
    requires a < |routes|
    ensures |Owners(lbs, routes)| == |lbs| + |routes|
    ensures var r, o := routes[a], Owners(lbs, routes)[|lbs| + a];
            if r.source.Some? then o == Owner(r.namespace, r.endpoints)
            else |o.groups| == 0 && ResolveGroups(o, 0, store, memo, true) == Resolved([], memo)
                 && |SourceServices(r)| == 0 && RouteEmits(r, RouteAddresses([], 0), 0, t) == []
  {
  }

  /** The lists, of which the version is a hash, and the resources by name. */
  method MapSnapshot(lbs: seq<LoadBalancer>, routes: seq<Route>, store: Store, allocator: PortAllocator)
    returns (r: Option<EnvoyConfig>, resources: Resources)
    ensures r == SnapshotOf(lbs, routes, store, allocator.portLookup)
    ensures r.Some? ==> resources == Indexed(r.value)
  {
    resources := Resources(map[], map[]);
    hide Indexed, Config, Resolve, AllLbEmits, AllRouteEmits;
    ghost var os, t := Owners(lbs, routes), allocator.portLookup;
    var ok, c, memo;
    ghost var first, rest;
    ok, c, memo, first := MapLbs(lbs, store, allocator, os);
    if !ok {
      ResolveFail(os, |lbs|, |os|, store, true);
      return None, resources;
    }
    ok, c, rest := MapRoutes(lbs, routes, store, allocator, c, memo, os, AllLbEmits(lbs, first, |lbs|, t));
    if !ok {
      return None, resources;
    }
    assert (first + rest)[..|lbs|] == first && (first + rest)[|lbs|..] == rest;
    r := Some(c);
    resources := IndexByName(c);
  }
}
