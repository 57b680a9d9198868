/** One tenant route taken through the whole data path: an instance of the end-to-end results,
    which shows that their conditions can be met together. */
module DataPathInstance {
  import opened Text
  import opened Keys
  import opened Api
  import opened PortTable
  import opened AllocatorRuns
  import opened PortRequests
  import opened Snapshot
  import opened SnapshotClosure
  import opened AddressMemo
  import opened ServiceGeneration
  import opened Forwarding
  import opened ListenerExclusivity
  import opened LoadBalancerMapping
  import opened DataPath
  import opened GlobalPath
  import opened SnapshotCache
  import opened CacheRuns

  const NODE := Address("10.0.0.1", "")
  const HTTP := ServicePort("http", 80, TCP, 0, 30080)

  function Web(uid: string): Service {
    Service("web", "shop", uid, map[], None, "NodePort", None, [HTTP])
  }

  function WebRoute(uid: string): Route {
    Route("r", "tenant", map[], false, [Endpoints([NODE], None, [])], Some(Source("web", "Ingress", [Web(uid)])), map[])
  }

  lemma WebServices(uid: string)
    ensures SourceServices(WebRoute(uid)) == [Web(uid)]
  {
  }

  lemma WebIsPlain(uid: string)
    requires UidShaped(uid)
    ensures PlainInputs([], [WebRoute(uid)]) && KeysSeparate([], [WebRoute(uid)])
            && KeysInjective(Owners([], [WebRoute(uid)]))
  {
    hide UidShaped, ServiceKey;
    WebServices(uid);
    assert '-' !in TCP;
    assert PlainServices(WebRoute(uid));
    OneNamespace(Owners([], [WebRoute(uid)]), "tenant");
  }

  function WebKey(): string {
    PortKey(80, TCP)
  }

  lemma WebWanted(uid: string)
    ensures Wanted([], [WebRoute(uid)]) == [Request(ServiceKey(WebRoute(uid), Web(uid)), [WebKey()])]
  {
    hide ServiceKey, PortKey;
    WebServices(uid);
    var r := WebRoute(uid);
    assert AllRouteRequests([r], 0) == [];
    assert AllRouteRequests([r], 1) == RouteRequests(r);
    assert ServicePortKeys([HTTP]) == [WebKey()];
  }

  /** The one call, which draws the first port of the range. */
  function WebOps(uid: string): seq<Op> {
    [AllocateOp(ServiceKey(WebRoute(uid), Web(uid)), [WebKey()], [0])]
  }

  lemma WebRun(uid: string)
    ensures |Wanted([], [WebRoute(uid)])| == 1 && Calls(Wanted([], [WebRoute(uid)]), [[0]]) == WebOps(uid)
    ensures Run(map[], WebOps(uid), 1).Some?
    ensures Run(map[], WebOps(uid), 0) == Some(map[])
  {
    WebWanted(uid);
    hide ServiceKey, PortKey;
    var used := Ports(map[]);
    assert used == {};
    assert FreeDraws([0], used, 1) == [];
    assert FreeDraws([0], used, 0) == [START_PORT];
    assert CanAllocate(map[], ServiceKey(WebRoute(uid), Web(uid)), [WebKey()], [0]);
    assert Run(map[], WebOps(uid), 0) == Some(map[]);
  }

  lemma WebSnapshot(uid: string, t: Table)
    ensures SnapshotOf([], [WebRoute(uid)], map[], t).Some?
  {
    hide AllLbEmits, AllRouteEmits, Config;
    var r := WebRoute(uid);
    var os := Owners([], [r]);
    assert |os| == 1 && os[0] == Owner("tenant", r.endpoints);
    assert ResolveGroups(os[0], 0, map[], map[], true) == Resolved([], map[]);
    assert ResolveGroups(os[0], 1, map[], map[], true).Resolved?;
    assert Resolve(os, 0, map[], true) == Resolved([], map[]);
    assert Resolve(os, 1, map[], true).Resolved?;
  }

  lemma WebAddresses(uid: string)
    ensures AllAddresses(WebRoute(uid), map[], 1) == Some([NODE])
            && Ips([NODE]) == ["10.0.0.1"] && L7Kind(WebRoute(uid), "TCP") == HttpManager
  {
    var none: seq<Address> := [];
    assert AllAddresses(WebRoute(uid), map[], 0) == Some(none);
    assert none + [NODE] == [NODE];
  }

  lemma WebSoundRun(uid: string)
    requires UidShaped(uid)
    ensures SoundRun(map[], WebOps(uid), 1, [], [WebRoute(uid)])
  {
    WebIsPlain(uid);
    WebWanted(uid);
    WebRun(uid);
    var ops := WebOps(uid);
    assert ops[0..1] == ops && Distinct(ops[0].draws);
    hide Wanted, Run, PlainRoutes, KeysSeparate, Requested;
    BlockRequested(ops, 0, 1, [], [WebRoute(uid)], [[0]]);
    assert InRange(map[]) && Injective(map[]);
  }

  /** A connection to port http of the tenant's Service in the global topology exists and ends
      where Envoy forwards to 10.0.0.1:30080 and to nothing else. */
  lemma WebEndToEnd(uid: string)
    requires UidShaped(uid)
    ensures |uid| >= NAME_SUFFIX_LENGTH && Run(map[], WebOps(uid), 1).Some?
    ensures var t := Run(map[], WebOps(uid), 1).value;
            var g := GeneratedFor(WebRoute(uid), Web(uid), "envoy", t, true, None);
            var objects, key := ApplyAll(map[], [g], "envoy", "kubelb", 1), (g.namespace, g.name);
            && ("kubelb", g.name) in objects && SnapshotOf([], [WebRoute(uid)], map[], t).Some?
            && Connected(objects, "kubelb", key, ["10.96.0.1"], "http")
            && (forall ip, x: nat, y: nat | Path(objects, "kubelb", key, ["10.96.0.1"], "http", ip, x, y) ::
                  Serves(Indexed(SnapshotOf([], [WebRoute(uid)], map[], t).value),
                         objects[("kubelb", g.name)].ports[y].targetPort, HttpManager, ["10.0.0.1"], 30080))
  {
    assert |uid| == 36;
    WebServices(uid);
    WebIsPlain(uid);
    WebRun(uid);
    WebSoundRun(uid);
    WebAddresses(uid);
    var ops, routes, order := WebOps(uid), [WebRoute(uid)], [Applied(0, 0, 1)];
    var t := Run(map[], ops, 1).value;
    WebSnapshot(uid, t);
    assert WellTimed(routes, map[], ops, 1, order[0]);
    assert AllWellTimed(routes, map[], ops, 1, order) && AllUids(routes) && NameAlone(routes, order[0]);
    assert GeneratedAll(routes, map[], ops, 1, order, "envoy", None)
           == [GeneratedFor(WebRoute(uid), Web(uid), "envoy", t, true, None)];
    assert AdmittedPorts([HTTP]) && "tenant" != "kubelb" by { assert |"tenant"| == 6 && "tenant"[0] == 't'; }
    GeneratedNow(routes, t, order[0], "envoy");
    hide *;
    GlobalEndToEnd([], routes, map[], map[], ops, 1, order, 0, 0, "kubelb", map[], "envoy", None, ["10.96.0.1"]);
  }

  // ----- the same route through a reconcile of the controller -----

  function WebWorld(uid: string): World {
    World([], [WebRoute(uid)], map[], map[], map[])
  }

  const FINE := Outcomes(true, true, true, true, true)

  lemma WebLive(uid: string)
    ensures LiveLbs(Shared, "tenant", WebWorld(uid)) == []
            && LiveRoutes(Shared, "tenant", WebWorld(uid)) == [WebRoute(uid)]
    ensures AnythingLive(Shared, "tenant", WebWorld(uid)) && Allocates(Shared, WebWorld(uid), "tenant", FINE)
  {
    assert ListedRoutes(Shared, "tenant", [WebRoute(uid)], 0) == [];
  }

  /** The reconcile succeeds, and what it leaves in the cache forwards the allocated port to
      10.0.0.1:30080 and to nothing else. */
  lemma WebReconciled(uid: string, hash: Hash)
    requires UidShaped(uid) && InjectiveHash(hash)
    ensures var step := Step.Reconcile("tenant", FINE, [[0]]);
            var ep := ServiceKey(WebRoute(uid), Web(uid));
            && Next(Shared, hash, WebWorld(uid), step).Some? && Next(Shared, hash, WebWorld(uid), step).value.1
            && var w := Next(Shared, hash, WebWorld(uid), step).value.0;
            Has(w.table, ep, WebKey()) && "tenant" in w.cache
            && Serves(Indexed(w.cache["tenant"].config), w.table[ep][WebKey()], HttpManager, ["10.0.0.1"], 30080)
  {
    var step, w := Step.Reconcile("tenant", FINE, [[0]]), WebWorld(uid);
    WebServices(uid);
    WebIsPlain(uid);
    WebRun(uid);
    WebLive(uid);
    WebAddresses(uid);
    WebSnapshot(uid, Run(map[], WebOps(uid), 1).value);
    assert InRange(map[]) && Injective(map[]) && WellVersioned(map[], hash) && Distinct([0]);
    assert Needs(Shared, "tenant", w) == Wanted([], [WebRoute(uid)]) && SnapshotName(Shared, "tenant") == "tenant";
    hide Run, SnapshotOf, PlainInputs, KeysSeparate, KeysInjective, Owners, Serves, Wanted, InRange, Injective,
         LiveLbs, LiveRoutes, Needs, Allocates, Next,
      AnythingLive;
    StepUpdates(Shared, hash, w, "tenant", FINE, [[0]]);
    CachedRoutePort(Shared, hash, w, step, 0, 0, 0);
  }

  // ----- two tenants, one bridge -----

  function TenantRoute(tenant: string, uid: string): Route {
    Route("r", tenant, map[], false, [Endpoints([NODE], None, [])], Some(Source("web", "Ingress", [Web(uid)])), map[])
  }

  function TwoRoutes(uid: string, uid': string): seq<Route> {
    [TenantRoute("tenant-a", uid), TenantRoute("tenant-b", uid')]
  }

  lemma TwoKeys(uid: string, uid': string)
    ensures ServiceKey(TenantRoute("tenant-a", uid), Web(uid)) != ServiceKey(TenantRoute("tenant-b", uid'), Web(uid'))
  {
    var x, y := ServiceKey(TenantRoute("tenant-a", uid), Web(uid)),
        ServiceKey(TenantRoute("tenant-b", uid'), Web(uid'));
    var tail := "-route-" + "shop" + "-" + "web" + "-" + "web";
    assert x == "tenant-" + "tenant-a" + tail && y == "tenant-" + "tenant-b" + tail;
    assert x[14] == 'a' && y[14] == 'b';
  }

  function TwoTable(uid: string, uid': string): Table {
    map[ServiceKey(TenantRoute("tenant-a", uid), Web(uid)) := map[WebKey() := 10000],
        ServiceKey(TenantRoute("tenant-b", uid'), Web(uid')) := map[WebKey() := 10001]]
  }

  lemma TwoServices(uid: string, uid': string)
    ensures var routes := TwoRoutes(uid, uid');
            SourceServices(routes[0]) == [Web(uid)] && SourceServices(routes[1]) == [Web(uid')]
  {
  }

  lemma TwoPlain(uid: string, uid': string)
    requires UidShaped(uid) && UidShaped(uid')
    ensures PlainRoutes(TwoRoutes(uid, uid'))
  {
    TwoKeys(uid, uid');
    TwoServices(uid, uid');
    hide UidShaped, ServiceKey, SourceServices, TenantRoute;
    var routes := TwoRoutes(uid, uid');
    assert '-' !in TCP;
    assert PlainServices(routes[0]) && PlainServices(routes[1]);
  }

  lemma TwoTableSound(uid: string, uid': string)
    ensures Served(TwoTable(uid, uid'), [], TwoRoutes(uid, uid')) && InRange(TwoTable(uid, uid'))
            && Injective(TwoTable(uid, uid'))
  {
    TwoKeys(uid, uid');
    TwoServices(uid, uid');
    hide ServiceKey, PortKey, SourceServices, TenantRoute;
    var routes, t := TwoRoutes(uid, uid'), TwoTable(uid, uid');
    assert ServicePortServed(t, routes[0], Web(uid), HTTP) && ServicePortServed(t, routes[1], Web(uid'), HTTP);
    forall a: nat, i: nat, p: nat
      | a < |routes| && i < |SourceServices(routes[a])| && p < |SourceServices(routes[a])[i].ports|
      ensures ServicePortServed(t, routes[a], SourceServices(routes[a])[i], SourceServices(routes[a])[i].ports[p])
    {
      assert i == 0 && p == 0 && (a == 0 || a == 1);
    }
  }

  lemma TwoNames(uid: string, uid': string)
    requires UidShaped(uid) && UidShaped(uid') && uid[32..] == uid'[32..]
    ensures GenerateName(true, uid, "web", "shop") == GenerateName(true, uid', "web", "shop")
  {
  }

  /** Two tenants with a service shop/web each, whose UIDs end alike: the second one's bridge
      replaces the first one's, and no connection to the first one's port http exists. */
  lemma BridgeOverwritten(uid: string, uid': string)
    requires UidShaped(uid) && UidShaped(uid') && uid[32..] == uid'[32..]
    ensures |uid| >= NAME_SUFFIX_LENGTH && |uid'| >= NAME_SUFFIX_LENGTH
    ensures var routes, t := TwoRoutes(uid, uid'), TwoTable(uid, uid');
            var g, g' := GeneratedFor(routes[0], Web(uid), "envoy", t, true, None),
                GeneratedFor(routes[1], Web(uid'), "envoy", t, true, None);
            !Connected(ApplyAll(map[], [g, g'], "envoy", "kubelb", 2), "kubelb", (g.namespace, g.name), ["10.96.0.1"],
                       "http")
  {
    assert |uid| == 36 && |uid'| == 36;
    var routes, t, x, y := TwoRoutes(uid, uid'), TwoTable(uid, uid'), Applied(0, 0, 0), Applied(1, 0, 0);
    TwoPlain(uid, uid');
    TwoTableSound(uid, uid');
    TwoNames(uid, uid');
    assert SourceServices(routes[0]) == [Web(uid)] && SourceServices(routes[1]) == [Web(uid')];
    assert AllUids(routes) && NameAt(routes, 0, 0) == NameAt(routes, 1, 0);
    assert "tenant-a"[7] == 'a' && "tenant-b"[7] == 'b' && |"kubelb"| == 6;
    GeneratedNow(routes, t, x, "envoy");
    GeneratedNow(routes, t, y, "envoy");
    var g, g' := GeneratedFor(routes[0], Web(uid), "envoy", t, true, None),
        GeneratedFor(routes[1], Web(uid'), "envoy", t, true, None);
    hide PlainRoutes, Served, InRange, Injective, GeneratedFor, NameAt, Connected, ApplyAll, FinalPorts, TwoTable;
    assert Setting([], routes, t, [x, y], [g, g'], "kubelb");
    OverwrittenApart([], routes, t, x, y, g, g', "kubelb", map[], "envoy", ["10.96.0.1"], "http");
  }
}
