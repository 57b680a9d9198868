/** The data path of the global topology, where the tenant's Service has no selector: its
    EndpointSlice points at a bridge Service in the controller's namespace. A bridge is one
    object per generated name, shared by all tenants. */
module GlobalPath {
  import opened Text
  import opened Keys
  import opened Api
  import opened PortTable
  import opened AllocatorRuns
  import opened PortRequests
  import opened LoadBalancerMapping
  import opened Snapshot
  import opened SnapshotClosure
  import opened AddressMemo
  import opened ServiceGeneration
  import opened Forwarding
  import opened ListenerExclusivity
  import opened DataPath

  // ----- the Service objects of the load-balancing cluster -----

  /** By namespace and name. */
  type Objects = map<(string, string), Service>

  /** CreateOrUpdateService: the object of that namespace and name is replaced. */
  function Put(objects: Objects, s: Service): Objects {
    objects[(s.namespace, s.name) := s]
  }

  /** The first n generated Services applied, each after its bridge. */
  function ApplyAll(base: Objects, gs: seq<Service>, appName: string, controller: string, n: nat): Objects
    requires n <= |gs|
  {
    if n == 0 then base
    else Put(Put(ApplyAll(base, gs, appName, controller, n - 1), Bridge(gs[n - 1], appName, controller)), gs[n - 1])
  }

  predicate LastNamed(gs: seq<Service>, n: nat, name: string, v: nat)
    requires n <= |gs|
  {
    v < n && gs[v].name == name && forall j :: v < j < n ==> gs[j].name != name
  }

  predicate LastKeyed(gs: seq<Service>, n: nat, key: (string, string), u: nat)
    requires n <= |gs|
  {
    u < n && (gs[u].namespace, gs[u].name) == key && forall j :: u < j < n ==> (gs[j].namespace, gs[j].name) != key
  }

  predicate OutsideController(gs: seq<Service>, controller: string) {
    forall j :: 0 <= j < |gs| ==> gs[j].namespace != controller
  }

  lemma BridgeKey(g: Service, appName: string, controller: string)
    ensures var b := Bridge(g, appName, controller); (b.namespace, b.name) == (controller, g.name)
  {
  }

  /** The bridge stored under a name is that of the last Service of the name. */
  lemma {:induction false} LastBridge(base: Objects, gs: seq<Service>, appName: string, controller: string, n: nat,
                                      w: nat)
    returns (v: nat)
    requires w < n <= |gs| && OutsideController(gs, controller)
    ensures LastNamed(gs, n, gs[w].name, v)
    ensures var objects := ApplyAll(base, gs, appName, controller, n);
            (controller, gs[w].name) in objects
                && objects[(controller, gs[w].name)] == Bridge(gs[v], appName, controller)
    decreases n
  {
    hide Bridge;
    BridgeKey(gs[n - 1], appName, controller);
    if gs[n - 1].name == gs[w].name {
      v := n - 1;
    } else {
      v := LastBridge(base, gs, appName, controller, n - 1, w);
    }
  }

  /** The Service stored under a key is the last one of that key. */
  lemma {:induction false} LastService(base: Objects, gs: seq<Service>, appName: string, controller: string, n: nat,
                                       w: nat)
    returns (u: nat)
    requires w < n <= |gs| && OutsideController(gs, controller)
    ensures LastKeyed(gs, n, (gs[w].namespace, gs[w].name), u)
    ensures var objects, key := ApplyAll(base, gs, appName, controller, n), (gs[w].namespace, gs[w].name);
            key in objects && objects[key] == gs[u]
    decreases n
  {
    hide Bridge;
    BridgeKey(gs[n - 1], appName, controller);
    if (gs[n - 1].namespace, gs[n - 1].name) == (gs[w].namespace, gs[w].name) {
      u := n - 1;
    } else {
      u := LastService(base, gs, appName, controller, n - 1, w);
    }
  }

  /** The bridge's labels lead the bridge controller back to the Service of the namespace and
      name it was made for. */
  lemma BridgeLeadsBack(g: Service, appName: string, controller: string, clusterIps: seq<string>, objects: Objects)
    ensures var key := (g.namespace, g.name);
            BridgeSlice(Bridge(g, appName, controller), clusterIps, objects)
            == if key in objects then Some(SliceFor(objects[key], clusterIps)) else None
  {
    assert |LABEL_TYPE| == 22 && |LABEL_ORIGIN_NAME| == 25 && |LABEL_ORIGIN_NAMESPACE| == 23
           && |LABEL_MANAGED_BY| == 24;
  }

  // ----- generated Services and their places -----

  /** The i-th service of the a-th route, generated from the table at moment m of a run. */
  datatype Applied = Applied(a: nat, i: nat, m: nat)

  predicate Live(routes: seq<Route>, a: nat, i: nat) {
    a < |routes| && i < |SourceServices(routes[a])|
  }

  function ServiceAt(routes: seq<Route>, x: Applied): Service
    requires Live(routes, x.a, x.i)
  {
    SourceServices(routes[x.a])[x.i]
  }

  /** The name every Service generated for it gets, whatever the table. */
  function NameAt(routes: seq<Route>, a: nat, i: nat): string
    requires Live(routes, a, i) && |SourceServices(routes[a])[i].uid| >= NAME_SUFFIX_LENGTH
  {
    var s := SourceServices(routes[a])[i];
    GenerateName(true, s.uid, OriginName(s), s.namespace)
  }

  /** At the moment of generation all its ports were allocated, or the calls came first, and
      between the two moments nobody gives its keys up. */
  ghost predicate WellTimed(routes: seq<Route>, t: Table, ops: seq<Op>, n: nat, x: Applied) {
    && Live(routes, x.a, x.i) && x.m <= |ops| && n <= |ops| && Run(t, ops, x.m).Some?
    && forall p: nat | p < |ServiceAt(routes, x).ports| ::
         var ep, q := ServiceKey(routes[x.a], ServiceAt(routes, x)), ServiceAt(routes, x).ports[p];
         Undisturbed(ops, x.m, n, ep, PortKey(q.port, q.protocol))
         && (x.m < n ==> Has(Run(t, ops, x.m).value, ep, PortKey(q.port, q.protocol)))
  }

  ghost predicate AllWellTimed(routes: seq<Route>, t: Table, ops: seq<Op>, n: nat, order: seq<Applied>) {
    forall j :: 0 <= j < |order| ==> WellTimed(routes, t, ops, n, order[j])
  }

  ghost predicate AllUids(routes: seq<Route>) {
    forall a: nat, i: nat | Live(routes, a, i) :: |SourceServices(routes[a])[i].uid| >= NAME_SUFFIX_LENGTH
  }

  function GeneratedAt(routes: seq<Route>, t: Table, ops: seq<Op>, x: Applied, appName: string,
                       annotations: Option<Labels>): Service
    requires Live(routes, x.a, x.i) && |ServiceAt(routes, x).uid| >= NAME_SUFFIX_LENGTH
    requires x.m <= |ops| && Run(t, ops, x.m).Some?
  {
    GeneratedFor(routes[x.a], ServiceAt(routes, x), appName, Run(t, ops, x.m).value, true, annotations)
  }

  ghost function GeneratedAll(routes: seq<Route>, t: Table, ops: seq<Op>, n: nat, order: seq<Applied>, appName: string,
                              annotations: Option<Labels>): seq<Service>
    requires AllUids(routes) && AllWellTimed(routes, t, ops, n, order)
  {
    seq(|order|, j requires 0 <= j < |order| => GeneratedAt(routes, t, ops, order[j], appName, annotations))
  }

  /** The ports a Service has once its keys are settled. */
  function FinalPorts(r: Route, s: Service, t: Table): seq<ServicePort> {
    seq(|s.ports|, p requires 0 <= p < |s.ports| => GeneratedPort(t, ServiceKey(r, s), s.ports[p]))
  }

  lemma GeneratedShape(routes: seq<Route>, t: Table, ops: seq<Op>, x: Applied, appName: string,
                       annotations: Option<Labels>)
    requires Live(routes, x.a, x.i) && |ServiceAt(routes, x).uid| >= NAME_SUFFIX_LENGTH
    requires x.m <= |ops| && Run(t, ops, x.m).Some?
    ensures var g := GeneratedAt(routes, t, ops, x, appName, annotations);
            g.name == NameAt(routes, x.a, x.i) && g.namespace == routes[x.a].namespace
            && g.ports == FinalPorts(routes[x.a], ServiceAt(routes, x), Run(t, ops, x.m).value)
  {
    hide GenerateName, RouteEndpointKey, GeneratedPort;
    var g := GeneratedAt(routes, t, ops, x, appName, annotations);
    assert g.ports == FinalPorts(routes[x.a], ServiceAt(routes, x), Run(t, ops, x.m).value);
  }

  /** Whenever it is generated, a Service has the ports of the table at moment n. */
  lemma SettledPorts(routes: seq<Route>, lbs: seq<LoadBalancer>, t: Table, ops: seq<Op>, n: nat, x: Applied,
                     appName: string, annotations: Option<Labels>)
    requires SoundRun(t, ops, n, lbs, routes) && WellTimed(routes, t, ops, n, x)
    requires |ServiceAt(routes, x).uid| >= NAME_SUFFIX_LENGTH
    ensures GeneratedAt(routes, t, ops, x, appName, annotations).ports
            == FinalPorts(routes[x.a], ServiceAt(routes, x), Run(t, ops, n).value)
  {
    var r, s := routes[x.a], ServiceAt(routes, x);
    GeneratedShape(routes, t, ops, x, appName, annotations);
    ReconcileServes(t, ops, n, lbs, routes);
    hide Run, Served, Requested, GeneratedAt, ServiceKey, PortKey, Int32, InRange, Injective, DistinctDraws,
         Undisturbed;
    forall p: nat | p < |s.ports|
      ensures GeneratedPort(Run(t, ops, x.m).value, ServiceKey(r, s), s.ports[p])
              == GeneratedPort(Run(t, ops, n).value, ServiceKey(r, s), s.ports[p])
    {
      ServedServicePort(Run(t, ops, n).value, lbs, routes, x.a, x.i, p);
      SamePortAt(t, ops, x.m, n, ServiceKey(r, s), PortKey(s.ports[p].port, s.ports[p].protocol));
    }
  }

  /** In a table without shared ports two Services with a common target port are one. */
  lemma TargetTells(lbs: seq<LoadBalancer>, routes: seq<Route>, t: Table, a: nat, i: nat, p: nat, b: nat, j: nat,
                    q: nat)
    requires PlainRoutes(routes) && Served(t, lbs, routes) && InRange(t) && Injective(t)
    requires Live(routes, a, i) && p < |SourceServices(routes[a])[i].ports|
    requires Live(routes, b, j) && q < |SourceServices(routes[b])[j].ports|
    requires FinalPorts(routes[a], SourceServices(routes[a])[i], t)[p].targetPort
             == FinalPorts(routes[b], SourceServices(routes[b])[j], t)[q].targetPort
    ensures a == b && i == j
  {
    var r, s, r', s' := routes[a], SourceServices(routes[a])[i], routes[b], SourceServices(routes[b])[j];
    ServedServicePort(t, lbs, routes, a, i, p);
    ServedServicePort(t, lbs, routes, b, j, q);
    hide Served, ServiceKey, PortKey, PlainRoutes;
    PortConversions(t[ServiceKey(r, s)][PortKey(s.ports[p].port, s.ports[p].protocol)]);
    PortConversions(t[ServiceKey(r', s')][PortKey(s'.ports[q].port, s'.ports[q].protocol)]);
    assert ServiceKey(r, s) == ServiceKey(r', s');
    SameKeySamePlace(routes, a, i, b, j);
  }

  lemma SameKeySamePlace(routes: seq<Route>, a: nat, i: nat, b: nat, j: nat)
    requires PlainRoutes(routes) && Live(routes, a, i) && Live(routes, b, j)
    requires ServiceKey(routes[a], SourceServices(routes[a])[i]) == ServiceKey(routes[b], SourceServices(routes[b])[j])
    ensures a == b && i == j
  {
    hide ServiceKey;
    if a < b {
      KeysApart(routes, a, b, i, j);
    } else if b < a {
      KeysApart(routes, b, a, j, i);
    } else {
      PlainRoute(routes, a);
    }
  }

  // ----- connections -----

  /** A connection to the Service stored under the key by way of a slice made for it and the
      bridge stored under its name, which has those cluster IPs: through one of them. */
  predicate Path(objects: Objects, controller: string, key: (string, string), clusterIps: seq<string>, port: string,
                 ip: string, x: nat, y: nat) {
    && key in objects && (controller, key.1) in objects
    && var slice := SliceFor(objects[key], clusterIps);
    && (slice.namespace, slice.serviceName) == key && ip in slice.addresses && ip in clusterIps
    && Takes(slice, objects[(controller, key.1)], port, x, y)
  }

  ghost predicate Connected(objects: Objects, controller: string, key: (string, string), clusterIps: seq<string>,
                            port: string) {
    exists ip, x: nat, y: nat :: Path(objects, controller, key, clusterIps, port, ip, x, y)
  }

  lemma SliceJoins(g: Service, clusterIps: seq<string>)
    ensures JoinsTo(SliceFor(g, clusterIps), g, clusterIps)
  {
  }

  /** The Services are those generated for the places of live services, settled on the ports of
      the table. */
  ghost predicate MadeFor(routes: seq<Route>, t: Table, order: seq<Applied>, gs: seq<Service>) {
    && |gs| == |order|
    && forall j :: 0 <= j < |gs| ==> GeneratedFrom(routes, t, order[j], gs[j])
  }

  predicate GeneratedFrom(routes: seq<Route>, t: Table, x: Applied, g: Service) {
    && Live(routes, x.a, x.i) && |ServiceAt(routes, x).uid| >= NAME_SUFFIX_LENGTH
    && g.name == NameAt(routes, x.a, x.i) && g.namespace == routes[x.a].namespace
    && g.ports == FinalPorts(routes[x.a], ServiceAt(routes, x), t)
  }

  /** Services generated at any well-chosen moments of a run are. */
  lemma RunMakes(lbs: seq<LoadBalancer>, routes: seq<Route>, t: Table, ops: seq<Op>, n: nat, order: seq<Applied>,
                 appName: string, annotations: Option<Labels>)
    requires SoundRun(t, ops, n, lbs, routes) && AllUids(routes) && AllWellTimed(routes, t, ops, n, order)
    ensures MadeFor(routes, Run(t, ops, n).value, order, GeneratedAll(routes, t, ops, n, order, appName, annotations))
  {
    var gs := GeneratedAll(routes, t, ops, n, order, appName, annotations);
    hide SoundRun, GeneratedAt, FinalPorts, NameAt;
    forall j | 0 <= j < |gs| ensures GeneratedFrom(routes, Run(t, ops, n).value, order[j], gs[j]) {
      assert WellTimed(routes, t, ops, n, order[j]);
      GeneratedShape(routes, t, ops, order[j], appName, annotations);
      SettledPorts(routes, lbs, t, ops, n, order[j], appName, annotations);
    }
  }

  /** The conditions the results below share. */
  ghost predicate Setting(lbs: seq<LoadBalancer>, routes: seq<Route>, t: Table, order: seq<Applied>, gs: seq<Service>,
                          controller: string) {
    && PlainRoutes(routes) && Served(t, lbs, routes) && InRange(t) && Injective(t)
    && MadeFor(routes, t, order, gs) && OutsideController(gs, controller)
  }

  predicate SamePlace(x: Applied, y: Applied) {
    x.a == y.a && x.i == y.i
  }

  predicate HasPort(s: Service, port: string) {
    exists p :: 0 <= p < |s.ports| && s.ports[p].name == port
  }

  lemma FinalLengths(r: Route, s: Service, t: Table)
    ensures |FinalPorts(r, s, t)| == |s.ports|
    ensures forall p :: 0 <= p < |s.ports| ==>
              FinalPorts(r, s, t)[p].name == s.ports[p].name && FinalPorts(r, s, t)[p].protocol == s.ports[p].protocol
  {
  }

  /** A slice port leads on through a bridge exactly when both were made for one service of one
      route and it has such a port. */
  lemma TakesIff(lbs: seq<LoadBalancer>, routes: seq<Route>, t: Table, x: Applied, y: Applied, g: Service, g': Service,
                 appName: string, controller: string, clusterIps: seq<string>, port: string)
    requires PlainRoutes(routes) && Served(t, lbs, routes) && InRange(t) && Injective(t)
    requires GeneratedFrom(routes, t, x, g) && GeneratedFrom(routes, t, y, g')
    ensures (exists i: nat, j: nat :: Takes(SliceFor(g, clusterIps), Bridge(g', appName, controller), port, i, j))
            <==> SamePlace(x, y) && HasPort(ServiceAt(routes, x), port)
  {
    var slice, bridge := SliceFor(g, clusterIps), Bridge(g', appName, controller);
    FinalLengths(routes[x.a], ServiceAt(routes, x), t);
    FinalLengths(routes[y.a], ServiceAt(routes, y), t);
    hide FinalPorts, Served, InRange, Injective, PlainRoutes, NameAt;
    if i: nat, j: nat :| Takes(slice, bridge, port, i, j) {
      assert slice.ports[i].port == g.ports[i].targetPort && bridge.ports[j].port == g'.ports[j].targetPort;
      TargetTells(lbs, routes, t, x.a, x.i, i, y.a, y.i, j);
      assert g.ports[i].name == port;
    }
    if SamePlace(x, y) && HasPort(ServiceAt(routes, x), port) {
      var p: nat :| p < |ServiceAt(routes, x).ports| && ServiceAt(routes, x).ports[p].name == port;
      assert Takes(slice, bridge, port, p, p);
    }
  }

  /** After any applications: the stored Service is the last one applied of its namespace and
      name, the stored bridge that of the last of its name, and a connection exists if and
      only if the bridge has an IP and both were made for one service of one route. */
  lemma ConnectedIff(lbs: seq<LoadBalancer>, routes: seq<Route>, t: Table, order: seq<Applied>, gs: seq<Service>,
                     controller: string, base: Objects, appName: string, clusterIps: seq<string>, w: nat, port: string)
    returns (u: nat, v: nat)
    requires Setting(lbs, routes, t, order, gs, controller) && w < |gs|
    ensures LastKeyed(gs, |gs|, (gs[w].namespace, gs[w].name), u) && LastNamed(gs, |gs|, gs[w].name, v)
    ensures var objects, key := ApplyAll(base, gs, appName, controller, |gs|), (gs[w].namespace, gs[w].name);
            && key in objects && objects[key] == gs[u]
            && (controller, key.1) in objects && objects[(controller, key.1)] == Bridge(gs[v], appName, controller)
            && Live(routes, order[u].a, order[u].i)
            && (Connected(objects, controller, key, clusterIps, port)
                <==> clusterIps != [] && SamePlace(order[u], order[v]) && HasPort(ServiceAt(routes, order[u]), port))
  {
    hide Takes, SliceFor, Bridge, ApplyAll, PlainRoutes, Served, InRange, Injective, FinalPorts, NameAt;
    u := LastService(base, gs, appName, controller, |gs|, w);
    v := LastBridge(base, gs, appName, controller, |gs|, w);
    assert GeneratedFrom(routes, t, order[u], gs[u]) && GeneratedFrom(routes, t, order[v], gs[v]);
    TakesIff(lbs, routes, t, order[u], order[v], gs[u], gs[v], appName, controller, clusterIps, port);
    var objects, key := ApplyAll(base, gs, appName, controller, |gs|), (gs[w].namespace, gs[w].name);
    SliceJoins(gs[u], clusterIps);
    assert forall ip, x: nat, y: nat :: Path(objects, controller, key, clusterIps, port, ip, x, y)
             <==> ip in clusterIps
                  && Takes(SliceFor(gs[u], clusterIps), Bridge(gs[v], appName, controller), port, x, y);
    if clusterIps != [] {
      assert clusterIps[0] in clusterIps;
    }
  }

  // ----- every order -----

  /** Every live service that is given the name belongs to the same tenant and has the port. */
  ghost predicate NameSafe(routes: seq<Route>, x: Applied, port: string)
    requires Live(routes, x.a, x.i) && AllUids(routes)
  {
    forall b: nat, j: nat | Live(routes, b, j) && NameAt(routes, b, j) == NameAt(routes, x.a, x.i) ::
      routes[b].namespace == routes[x.a].namespace && HasPort(SourceServices(routes[b])[j], port)
  }

  /** After these applications there is a connection to the port of the service's object. */
  ghost predicate EndsConnected(routes: seq<Route>, gs: seq<Service>, controller: string, base: Objects,
                                appName: string, clusterIps: seq<string>, x: Applied, port: string)
    requires Live(routes, x.a, x.i) && AllUids(routes)
  {
    Connected(ApplyAll(base, gs, appName, controller, |gs|), controller,
              (routes[x.a].namespace, NameAt(routes, x.a, x.i)), clusterIps, port)
  }

  lemma SafeConnects(lbs: seq<LoadBalancer>, routes: seq<Route>, t: Table, order: seq<Applied>, gs: seq<Service>,
                     controller: string, base: Objects, appName: string, clusterIps: seq<string>, w: nat, port: string)
    requires AllUids(routes) && Setting(lbs, routes, t, order, gs, controller) && w < |order|
             && Live(routes, order[w].a, order[w].i)
    requires NameSafe(routes, order[w], port) && clusterIps != []
    ensures EndsConnected(routes, gs, controller, base, appName, clusterIps, order[w], port)
  {
    hide Connected, ApplyAll, PlainRoutes, Served, InRange, Injective, FinalPorts, NameAt, HasPort, Bridge;
    var u, v := ConnectedIff(lbs, routes, t, order, gs, controller, base, appName, clusterIps, w, port);
    assert GeneratedFrom(routes, t, order[w], gs[w]) && GeneratedFrom(routes, t, order[u], gs[u])
           && GeneratedFrom(routes, t, order[v], gs[v]);
    assert routes[order[v].a].namespace == routes[order[w].a].namespace;
    assert u == v;
  }

  lemma NoAddress(routes: seq<Route>, gs: seq<Service>, controller: string, base: Objects, appName: string, x: Applied,
                  port: string)
    requires Live(routes, x.a, x.i) && AllUids(routes)
    ensures !EndsConnected(routes, gs, controller, base, appName, [], x, port)
  {
    hide ApplyAll, NameAt, SliceFor, Takes;
  }

  /** A Service of x followed by one of another place of the same name. */
  lemma OverwrittenApart(lbs: seq<LoadBalancer>, routes: seq<Route>, t: Table, x: Applied, y: Applied, g: Service,
                         g': Service, controller: string, base: Objects, appName: string, clusterIps: seq<string>,
                         port: string)
    requires AllUids(routes) && Setting(lbs, routes, t, [x, y], [g, g'], controller) && Live(routes, x.a, x.i)
             && Live(routes, y.a, y.i)
    requires NameAt(routes, y.a, y.i) == NameAt(routes, x.a, x.i)
    requires routes[y.a].namespace != routes[x.a].namespace || !HasPort(ServiceAt(routes, y), port)
    ensures !EndsConnected(routes, [g, g'], controller, base, appName, clusterIps, x, port)
  {
    hide Connected, ApplyAll, PlainRoutes, Served, InRange, Injective, FinalPorts, NameAt, HasPort, Bridge;
    var u, v := ConnectedIff(lbs, routes, t, [x, y], [g, g'], controller, base, appName, clusterIps, 0, port);
    assert GeneratedFrom(routes, t, [x, y][0], [g, g'][0]) && GeneratedFrom(routes, t, [x, y][1], [g, g'][1]);
    assert v == 1;
  }

  /** Whatever was stored before, and in whatever order the Services of live services are
      applied, as long as this one is among them. */
  ghost predicate AlwaysConnected(lbs: seq<LoadBalancer>, routes: seq<Route>, t: Table, controller: string,
                                  appName: string, clusterIps: seq<string>, x: Applied, port: string)
    requires Live(routes, x.a, x.i) && AllUids(routes)
  {
    forall base: Objects, order: seq<Applied>, gs: seq<Service>, w: nat
      | Setting(lbs, routes, t, order, gs, controller) && w < |order| && SamePlace(order[w], x) ::
      EndsConnected(routes, gs, controller, base, appName, clusterIps, order[w], port)
  }

  lemma GeneratedNow(routes: seq<Route>, t: Table, x: Applied, appName: string)
    requires Live(routes, x.a, x.i) && |ServiceAt(routes, x).uid| >= NAME_SUFFIX_LENGTH
    ensures GeneratedFrom(routes, t, x, GeneratedFor(routes[x.a], ServiceAt(routes, x), appName, t, true, None))
  {
    hide GenerateName, RouteEndpointKey, GeneratedPort;
    var g := GeneratedFor(routes[x.a], ServiceAt(routes, x), appName, t, true, None);
    assert g.ports == FinalPorts(routes[x.a], ServiceAt(routes, x), t);
  }

  /** A connection to a service's port exists in every order if and only if the bridge has an IP
      and every live service that is given the generated name belongs to the same tenant and
      has the port. */
  lemma AlwaysConnectedIff(lbs: seq<LoadBalancer>, routes: seq<Route>, t: Table, controller: string, appName: string,
                           clusterIps: seq<string>, x: Applied, port: string)
    requires Live(routes, x.a, x.i) && AllUids(routes)
             && forall a :: 0 <= a < |routes| ==> routes[a].namespace != controller
    requires PlainRoutes(routes) && Served(t, lbs, routes) && InRange(t) && Injective(t)
    ensures AlwaysConnected(lbs, routes, t, controller, appName, clusterIps, x, port)
            <==> clusterIps != [] && NameSafe(routes, x, port)
  {
    hide PlainRoutes, Served, InRange, Injective, NameAt, HasPort, EndsConnected, GeneratedFor, FinalPorts;
    GeneratedNow(routes, t, x, appName);
    var g := GeneratedFor(routes[x.a], ServiceAt(routes, x), appName, t, true, None);
    if clusterIps == [] {
      var order, gs := [x], [g];
      assert Setting(lbs, routes, t, order, gs, controller);
      NoAddress(routes, gs, controller, map[], appName, x, port);
      assert SamePlace(order[0], x) && !EndsConnected(routes, gs, controller, map[], appName, [], order[0], port);
    } else if NameSafe(routes, x, port) {
      forall base: Objects, order: seq<Applied>, gs: seq<Service>, w: nat
        | Setting(lbs, routes, t, order, gs, controller) && w < |order| && SamePlace(order[w], x)
        ensures EndsConnected(routes, gs, controller, base, appName, clusterIps, order[w], port)
      {
        SafeConnects(lbs, routes, t, order, gs, controller, base, appName, clusterIps, w, port);
      }
    } else {
      var b: nat, j: nat :| Live(routes, b, j) && NameAt(routes, b, j) == NameAt(routes, x.a, x.i)
        && !(routes[b].namespace == routes[x.a].namespace && HasPort(SourceServices(routes[b])[j], port));
      var y := Applied(b, j, 0);
      var g' := GeneratedFor(routes[b], ServiceAt(routes, y), appName, t, true, None);
      GeneratedNow(routes, t, y, appName);
      var order, gs := [x, y], [g, g'];
      assert Setting(lbs, routes, t, order, gs, controller);
      OverwrittenApart(lbs, routes, t, x, y, g, g', controller, map[], appName, clusterIps, port);
      assert SamePlace(order[0], x)
             && !EndsConnected(routes, gs, controller, map[], appName, clusterIps, order[0], port);
    }
  }

  // ----- end to end -----

  /** No other live service is given the generated name. */
  ghost predicate NameAlone(routes: seq<Route>, x: Applied)
    requires Live(routes, x.a, x.i) && AllUids(routes)
  {
    forall b: nat, j: nat | Live(routes, b, j) && NameAt(routes, b, j) == NameAt(routes, x.a, x.i) ::
           b == x.a && j == x.i
  }

  lemma OwnPath(g: Service, s: Service, r: Route, t: Table, appName: string, controller: string,
                clusterIps: seq<string>, p: nat)
    requires g.ports == FinalPorts(r, s, t) && p < |s.ports| && AdmittedPorts(s.ports)
    ensures |FinalPorts(r, s, t)| == |s.ports|
            && Takes(SliceFor(g, clusterIps), Bridge(g, appName, controller), s.ports[p].name, p, p)
    ensures forall x: nat, y: nat
              | Takes(SliceFor(g, clusterIps), Bridge(g, appName, controller), s.ports[p].name, x, y) ::
              Bridge(g, appName, controller).ports[y].targetPort == FinalPorts(r, s, t)[p].targetPort
              && Bridge(g, appName, controller).ports[y].protocol == s.ports[p].protocol
  {
    hide GeneratedPort, Bridge, SliceFor, Takes;
    FinalLengths(r, s, t);
    hide FinalPorts;
    BridgeChain(g, appName, controller, clusterIps, p);
  }

  /** When no other live service is given its generated name: whatever was stored before and in
      whatever order and at whatever moments of the run the Services of live services were
      generated and applied, the object of this one is its own, the stored bridge selects
      Envoy, the bridge controller makes the Service's slice from its labels, a connection
      exists exactly when the bridge has an IP, and wherever one leads, Envoy forwards to all
      addresses of the route at the port's NodePort and to nothing else. */
  lemma GlobalEndToEnd(lbs: seq<LoadBalancer>, routes: seq<Route>, store: Store, t: Table, ops: seq<Op>, n: nat,
                       order: seq<Applied>, w: nat, p: nat, controller: string, base: Objects, appName: string,
                       annotations: Option<Labels>, clusterIps: seq<string>)
    requires PlainInputs(lbs, routes) && KeysSeparate(lbs, routes) && SoundRun(t, ops, n, lbs, routes)
    requires KeysInjective(Owners(lbs, routes)) && SnapshotOf(lbs, routes, store, Run(t, ops, n).value).Some?
    requires AllUids(routes) && AllWellTimed(routes, t, ops, n, order)
             && forall a :: 0 <= a < |routes| ==> routes[a].namespace != controller
    requires w < |order| && Live(routes, order[w].a, order[w].i) && NameAlone(routes, order[w])
    requires var s := ServiceAt(routes, order[w]);
             p < |s.ports| && AdmittedPorts(s.ports) && (s.ports[p].protocol == TCP || s.ports[p].protocol == UDP)
    ensures AllAddresses(routes[order[w].a], store, |routes[order[w].a].endpoints|).Some?
    ensures var r, s := routes[order[w].a], ServiceAt(routes, order[w]);
            var objects :=
                ApplyAll(base, GeneratedAll(routes, t, ops, n, order, appName, annotations), appName, controller,
                         |order|);
            var key := (r.namespace, NameAt(routes, order[w].a, order[w].i));
            && key in objects && GeneratedFrom(routes, Run(t, ops, n).value, order[w], objects[key])
            && (controller, key.1) in objects && SelectsEnvoy(objects[(controller, key.1)], appName)
            && BridgeSlice(objects[(controller, key.1)], clusterIps, objects)
                == Some(SliceFor(objects[key], clusterIps))
            && JoinsTo(SliceFor(objects[key], clusterIps), objects[key], clusterIps)
            && (Connected(objects, controller, key, clusterIps, s.ports[p].name) <==> clusterIps != [])
            && (forall ip, x: nat, y: nat | Path(objects, controller, key, clusterIps, s.ports[p].name, ip, x, y) ::
                  && objects[(controller, key.1)].ports[y].protocol == s.ports[p].protocol
                  && Serves(Indexed(SnapshotOf(lbs, routes, store, Run(t, ops, n).value).value),
                            objects[(controller, key.1)].ports[y].targetPort, L7Kind(r, s.ports[p].protocol),
                            Ips(AllAddresses(r, store, |r.endpoints|).value), s.ports[p].nodePort))
  {
    var x, gs, tn := order[w], GeneratedAll(routes, t, ops, n, order, appName, annotations), Run(t, ops, n).value;
    var r, s := routes[x.a], ServiceAt(routes, x);
    RunMakes(lbs, routes, t, ops, n, order, appName, annotations);
    ReconcileServes(t, ops, n, lbs, routes);
    var u := OwnObjects(lbs, routes, tn, order, gs, controller, base, appName, clusterIps, w);
    FinalServed(lbs, routes, store, t, ops, n, x, p);
    hide *;
    OwnPath(gs[u], s, r, tn, appName, controller, clusterIps, p);
    SliceJoins(gs[u], clusterIps);
    BridgeSelects(gs[u], appName, controller);
    OwnConnection(ApplyAll(base, gs, appName, controller, |gs|), gs[u], appName, controller, clusterIps,
                  s.ports[p].name, p);
  }

  lemma OwnConnection(objects: Objects, g: Service, appName: string, controller: string, clusterIps: seq<string>,
                      port: string, p: nat)
    requires (g.namespace, g.name) in objects && objects[(g.namespace, g.name)] == g
    requires (controller, g.name) in objects && objects[(controller, g.name)] == Bridge(g, appName, controller)
    requires Takes(SliceFor(g, clusterIps), Bridge(g, appName, controller), port, p, p)
    ensures var key := (g.namespace, g.name);
            (Connected(objects, controller, key, clusterIps, port) <==> clusterIps != [])
            && forall ip, x: nat, y: nat | Path(objects, controller, key, clusterIps, port, ip, x, y) ::
                 Takes(SliceFor(g, clusterIps), Bridge(g, appName, controller), port, x, y)
  {
    SliceJoins(g, clusterIps);
    hide Takes, SliceFor, Bridge;
    if clusterIps != [] {
      assert Path(objects, controller, (g.namespace, g.name), clusterIps, port, clusterIps[0], p, p);
    }
  }

  /** A cluster-internal Service whose endpoints are the Envoy pods. */
  predicate SelectsEnvoy(s: Service, appName: string) {
    s.kind == "ClusterIP" && s.selector == Some(map["app.kubernetes.io/name" := appName])
  }

  lemma BridgeSelects(g: Service, appName: string, controller: string)
    ensures SelectsEnvoy(Bridge(g, appName, controller), appName)
  {
  }

  /** With its name to itself, Service and bridge stored for it are its own. */
  lemma OwnObjects(lbs: seq<LoadBalancer>, routes: seq<Route>, t: Table, order: seq<Applied>, gs: seq<Service>,
                   controller: string, base: Objects, appName: string, clusterIps: seq<string>, w: nat) returns (u: nat)
    requires PlainRoutes(routes) && Served(t, lbs, routes) && InRange(t) && Injective(t)
             && MadeFor(routes, t, order, gs)
    requires forall a :: 0 <= a < |routes| ==> routes[a].namespace != controller
    requires AllUids(routes) && w < |order| && Live(routes, order[w].a, order[w].i) && NameAlone(routes, order[w])
    ensures u < |gs| && GeneratedFrom(routes, t, order[w], gs[u])
    ensures gs[u].namespace == routes[order[w].a].namespace && gs[u].name == NameAt(routes, order[w].a, order[w].i)
    ensures gs[u].ports == FinalPorts(routes[order[w].a], ServiceAt(routes, order[w]), t)
    ensures var objects, key := ApplyAll(base, gs, appName, controller, |gs|), (gs[u].namespace, gs[u].name);
            && key in objects && objects[key] == gs[u]
            && (controller, key.1) in objects && objects[(controller, key.1)] == Bridge(gs[u], appName, controller)
            && BridgeSlice(objects[(controller, key.1)], clusterIps, objects)
                == Some(SliceFor(objects[key], clusterIps))
  {
    hide Connected, ApplyAll, PlainRoutes, Served, InRange, Injective, FinalPorts, NameAt, HasPort, Bridge,
         BridgeSlice, SliceFor;
    assert forall j :: 0 <= j < |gs| ==> GeneratedFrom(routes, t, order[j], gs[j]);
    assert Setting(lbs, routes, t, order, gs, controller);
    var v;
    u, v := ConnectedIff(lbs, routes, t, order, gs, controller, base, appName, clusterIps, w, "");
    assert SamePlace(order[u], order[w]) && SamePlace(order[v], order[w]);
    assert u == v;
    BridgeLeadsBack(gs[u], appName, controller, clusterIps, ApplyAll(base, gs, appName, controller, |gs|));
  }

  lemma FinalServed(lbs: seq<LoadBalancer>, routes: seq<Route>, store: Store, t: Table, ops: seq<Op>, n: nat,
                    x: Applied, p: nat)
    requires PlainInputs(lbs, routes) && KeysSeparate(lbs, routes) && SoundRun(t, ops, n, lbs, routes)
             && Live(routes, x.a, x.i)
    requires KeysInjective(Owners(lbs, routes)) && SnapshotOf(lbs, routes, store, Run(t, ops, n).value).Some?
    requires var s := ServiceAt(routes, x); p < |s.ports| && (s.ports[p].protocol == TCP || s.ports[p].protocol == UDP)
    ensures AllAddresses(routes[x.a], store, |routes[x.a].endpoints|).Some?
    ensures var r, s := routes[x.a], ServiceAt(routes, x);
            |FinalPorts(r, s, Run(t, ops, n).value)| == |s.ports|
            && Serves(Indexed(SnapshotOf(lbs, routes, store, Run(t, ops, n).value).value),
                      FinalPorts(r, s, Run(t, ops, n).value)[p].targetPort, L7Kind(r, s.ports[p].protocol),
                      Ips(AllAddresses(r, store, |r.endpoints|).value), s.ports[p].nodePort)
  {
    assert n <= |ops| && Run(t, ops, n).Some?;
    var r, s, tn := routes[x.a], ServiceAt(routes, x), Run(t, ops, n).value;
    PlainUid(lbs, routes, x.a, x.i);
    GeneratedNow(routes, tn, x, "");
    FinalLengths(r, s, tn);
    hide Run, PlainInputs, KeysSeparate, SoundRun, KeysInjective, SnapshotOf, Serves, FinalPorts, GeneratedFor, Retains;
    L7EndToEnd(lbs, routes, x.a, x.i, p, store, t, ops, n, n, "", true, None);
  }
}
