/** The snapshot cache over every run of edits, allocator calls of other controllers and
    reconciles that succeed or fail. */
module CacheRuns {
  import opened Text
  import opened Keys
  import opened Api
  import opened PortTable
  import opened AllocatorRuns
  import opened PortRequests
  import opened Snapshot
  import opened SnapshotClosure
  import opened AddressMemo
  import opened Forwarding
  import opened ListenerExclusivity
  import opened DataPath
  import opened SnapshotCache

  /** The world after the first n steps, None when some call ran out of draws. */
  function WorldAfter(t: Topology, hash: Hash, w: World, steps: seq<Step>, n: nat): Option<World>
    requires n <= |steps|
  {
    if n == 0 then Some(w)
    else
      var before := WorldAfter(t, hash, w, steps, n - 1);
      if before.None? then None
      else
        var next := Next(t, hash, before.value, steps[n - 1]);
        if next.None? then None else Some(next.value.0)
  }

  /** A reconcile for the name that reports success, or finds nothing live and clears it. */
  predicate Effective(t: Topology, hash: Hash, w: World, step: Step, name: string) {
    && step.Reconcile? && SnapshotName(t, step.ns) == name && Next(t, hash, w, step).Some?
    && (Next(t, hash, w, step).value.1 || (step.outcomes.list && !AnythingLive(t, step.ns, w)))
  }

  /** The moment just after the last effective reconcile for the name, 0 when there was none. */
  function LastEffective(t: Topology, hash: Hash, w: World, steps: seq<Step>, n: nat, name: string): (m: nat)
    requires n <= |steps| && WorldAfter(t, hash, w, steps, n).Some?
    ensures m <= n && WorldAfter(t, hash, w, steps, m).Some?
  {
    if n == 0 then 0
    else if Effective(t, hash, WorldAfter(t, hash, w, steps, n - 1).value, steps[n - 1], name) then n
    else LastEffective(t, hash, w, steps, n - 1, name)
  }

  /** A step that is not an effective reconcile for the name leaves its binding alone. */
  lemma OtherStepsKeep(t: Topology, hash: Hash, w: World, step: Step, name: string)
    requires Next(t, hash, w, step).Some? && !Effective(t, hash, w, step, name)
    ensures Bound(Next(t, hash, w, step).value.0.cache, name) == Bound(w.cache, name)
  {
    if step.Reconcile? {
      ReconcileCoherent(t, hash, w, step.ns, step.outcomes, step.draws);
      var w' := Next(t, hash, w, step).value.0;
      hide Next, AnythingLive;
      if SnapshotName(t, step.ns) != name {
        assert name in w.cache <==> name in w.cache - {SnapshotName(t, step.ns)};
        assert name in w'.cache <==> name in w'.cache - {SnapshotName(t, step.ns)};
      }
    } else {
      hide Run, AnythingLive;
    }
  }

  lemma {:induction false} VersionsAlways(t: Topology, hash: Hash, w: World, steps: seq<Step>, n: nat)
    requires n <= |steps| && WorldAfter(t, hash, w, steps, n).Some? && InjectiveHash(hash)
             && WellVersioned(w.cache, hash)
    ensures WellVersioned(WorldAfter(t, hash, w, steps, n).value.cache, hash)
  {
    hide InjectiveHash, WellVersioned, Run, AnythingLive, Updated, Truth;
    if n > 0 {
      VersionsAlways(t, hash, w, steps, n - 1);
      var before, step := WorldAfter(t, hash, w, steps, n - 1).value, steps[n - 1];
      if step.Reconcile? {
        ReconcileCoherent(t, hash, before, step.ns, step.outcomes, step.draws);
      }
    }
  }

  /** Coherence over every run from an empty cache: a name no reconcile took effect for is not
      bound; otherwise it is bound to the truth of the world just after the last one that did,
      and stays bound to it whatever happened since. */
  lemma {:induction false} CacheCoherent(t: Topology, hash: Hash, w: World, steps: seq<Step>, n: nat, name: string)
    requires n <= |steps| && WorldAfter(t, hash, w, steps, n).Some? && InjectiveHash(hash) && w.cache == map[]
    ensures var m := LastEffective(t, hash, w, steps, n, name);
            var bound := Bound(WorldAfter(t, hash, w, steps, n).value.cache, name);
            if m == 0 then bound == None
            else && steps[m - 1].Reconcile? && SnapshotName(t, steps[m - 1].ns) == name
                 && Coherent(t, steps[m - 1].ns, WorldAfter(t, hash, w, steps, m).value)
                 && bound == Truth(t, steps[m - 1].ns, WorldAfter(t, hash, w, steps, m).value)
  {
    hide InjectiveHash, WellVersioned, Next, Truth, AnythingLive;
    assert WellVersioned(map[], hash) by { EmptyVersioned(hash); }
    if n > 0 {
      CacheCoherent(t, hash, w, steps, n - 1, name);
      var before, step := WorldAfter(t, hash, w, steps, n - 1).value, steps[n - 1];
      if Effective(t, hash, before, step, name) {
        VersionsAlways(t, hash, w, steps, n - 1);
        ReconcileCoherent(t, hash, before, step.ns, step.outcomes, step.draws);
      } else {
        OtherStepsKeep(t, hash, before, step, name);
      }
    }
  }

  lemma EmptyVersioned(hash: Hash)
    ensures WellVersioned(map[], hash)
  {
  }

  // ----- a snapshot depends only on the ports of its own objects -----

  /** Both tables give every port of the objects the same listener port. */
  ghost predicate SamePorts(t: Table, t': Table, lbs: seq<LoadBalancer>, routes: seq<Route>) {
    && (forall a: nat, i: nat, p: nat | a < |lbs| && i < |lbs[a].endpoints| && p < |lbs[a].endpoints[i].ports| ::
          SameLbPort(t, t', lbs[a], i, lbs[a].endpoints[i].ports[p]))
    && (forall a: nat, i: nat, p: nat | a < |routes| && i < |SourceServices(routes[a])|
        && p < |SourceServices(routes[a])[i].ports| ::
          SameServicePort(t, t', routes[a], SourceServices(routes[a])[i], SourceServices(routes[a])[i].ports[p]))
  }

  predicate SameLbPort(t: Table, t': Table, lb: LoadBalancer, i: nat, p: EndpointPort) {
    var ep, k := LbKey(lb, i), PortKey(p.port, p.protocol);
    ListenerPort(t, ep, k, p.port) == ListenerPort(t', ep, k, p.port)
  }

  predicate SameServicePort(t: Table, t': Table, r: Route, s: Service, p: ServicePort) {
    var ep, k := ServiceKey(r, s), PortKey(p.port, p.protocol);
    ListenerPort(t, ep, k, p.port) == ListenerPort(t', ep, k, p.port)
  }

  lemma GroupFrame(lb: LoadBalancer, i: nat, g: Endpoints, t: Table, t': Table)
    requires forall p :: 0 <= p < |g.ports| ==> SameLbPort(t, t', lb, i, g.ports[p])
    ensures GroupEmits(lb, i, g, t) == GroupEmits(lb, i, g, t')
  {
    hide ListenerPort, ResourceKey, PortKey, Backends, MakeCluster, MakeListener;
    forall p | 0 <= p < |g.ports|
      ensures PortEmit(lb, i, g.addresses, g.ports[p], t) == PortEmit(lb, i, g.addresses, g.ports[p], t') {
      assert SameLbPort(t, t', lb, i, g.ports[p]);
    }
  }

  lemma {:induction false} LbFrame(lb: LoadBalancer, gs: seq<Endpoints>, n: nat, t: Table, t': Table)
    requires n <= |gs|
             && forall i: nat, p: nat | i < |gs| && p < |gs[i].ports| :: SameLbPort(t, t', lb, i, gs[i].ports[p])
    ensures LbEmits(lb, gs, n, t) == LbEmits(lb, gs, n, t')
  {
    hide SameLbPort, GroupEmits;
    if n > 0 {
      LbFrame(lb, gs, n - 1, t, t');
      GroupFrame(lb, n - 1, gs[n - 1], t, t');
    }
  }

  lemma {:induction false} AllLbFrame(lbs: seq<LoadBalancer>, gs: seq<seq<Endpoints>>, n: nat, t: Table, t': Table)
    requires n <= |lbs| && n <= |gs|
    requires forall a: nat, i: nat, p: nat | a < n && i < |gs[a]| && p < |gs[a][i].ports| ::
             SameLbPort(t, t', lbs[a], i, gs[a][i].ports[p])
    ensures AllLbEmits(lbs, gs, n, t) == AllLbEmits(lbs, gs, n, t')
  {
    hide SameLbPort, LbEmits;
    if n > 0 {
      AllLbFrame(lbs, gs, n - 1, t, t');
      LbFrame(lbs[n - 1], gs[n - 1], |gs[n - 1]|, t, t');
    }
  }

  lemma ServiceFrame(r: Route, s: Service, addresses: seq<Address>, t: Table, t': Table)
    requires forall p :: 0 <= p < |s.ports| ==> SameServicePort(t, t', r, s, s.ports[p])
    ensures ServiceEmits(r, s, addresses, t) == ServiceEmits(r, s, addresses, t')
  {
    hide ListenerPort, RouteResourceKey, PortKey, Backends, MakeCluster, MakeListener, ServiceKey;
    forall p | 0 <= p < |s.ports|
      ensures ServiceEmit(r, s, addresses, s.ports[p], t) == ServiceEmit(r, s, addresses, s.ports[p], t') {
      assert SameServicePort(t, t', r, s, s.ports[p]);
    }
  }

  lemma {:induction false} RouteFrame(r: Route, addresses: seq<Address>, n: nat, t: Table, t': Table)
    requires n <= |SourceServices(r)|
    requires forall i: nat, p: nat | i < |SourceServices(r)| && p < |SourceServices(r)[i].ports| ::
               SameServicePort(t, t', r, SourceServices(r)[i], SourceServices(r)[i].ports[p])
    ensures RouteEmits(r, addresses, n, t) == RouteEmits(r, addresses, n, t')
  {
    hide SameServicePort, ServiceEmits;
    if n > 0 {
      RouteFrame(r, addresses, n - 1, t, t');
      ServiceFrame(r, SourceServices(r)[n - 1], addresses, t, t');
    }
  }

  lemma {:induction false} AllRouteFrame(routes: seq<Route>, gs: seq<seq<Endpoints>>, n: nat, t: Table, t': Table)
    requires n <= |routes| && n <= |gs|
    requires forall a: nat, i: nat, p: nat | a < n && i < |SourceServices(routes[a])|
             && p < |SourceServices(routes[a])[i].ports| ::
               SameServicePort(t, t', routes[a], SourceServices(routes[a])[i], SourceServices(routes[a])[i].ports[p])
    ensures AllRouteEmits(routes, gs, n, t) == AllRouteEmits(routes, gs, n, t')
  {
    hide SameServicePort, RouteEmits, RouteAddresses;
    if n > 0 {
      AllRouteFrame(routes, gs, n - 1, t, t');
      RouteFrame(routes[n - 1], RouteAddresses(gs[n - 1], |gs[n - 1]|), |SourceServices(routes[n - 1])|, t, t');
    }
  }

  /** What happens elsewhere in the table does not change a snapshot. */
  lemma SnapshotFrame(lbs: seq<LoadBalancer>, routes: seq<Route>, store: Store, t: Table, t': Table)
    requires SamePorts(t, t', lbs, routes)
    ensures SnapshotOf(lbs, routes, store, t) == SnapshotOf(lbs, routes, store, t')
  {
    hide Resolve, AllLbEmits, AllRouteEmits, SameLbPort, SameServicePort, Config;
    var os := Owners(lbs, routes);
    if Resolve(os, |os|, store, true).Resolved? {
      var v: seq<seq<Endpoints>> := Resolve(os, |os|, store, true).value;
      ResolvedLbGroups(lbs, routes, store, true);
      AllLbFrame(lbs, v[..|lbs|], |lbs|, t, t');
      AllRouteFrame(routes, v[|lbs|..], |routes|, t, t');
    }
  }

  // ----- and on the store only through the references of its own objects -----

  /** Both stores have the same lists for all references of the owners. */
  ghost predicate SameLists(os: seq<Owner>, store: Store, store': Store) {
    forall r | Refers(os, r) :: (r in store <==> r in store') && (r in store ==> store[r] == store'[r])
  }

  lemma {:induction false} GroupsStoreFrame(os: seq<Owner>, i: nat, n: nat, store: Store, store': Store, memo: Memo)
    requires i < |os| && n <= |os[i].groups| && SameLists(os, store, store')
    ensures ResolveGroups(os[i], n, store, memo, true) == ResolveGroups(os[i], n, store', memo, true)
  {
    hide MemoKey;
    if n > 0 {
      GroupsStoreFrame(os, i, n - 1, store, store', memo);
      var g := os[i].groups[n - 1];
      if g.reference.Some? {
        assert RefersAt(os, i, n - 1, Ref(os[i].namespace, g.reference.value));
      }
    }
  }

  lemma {:induction false} ResolveStoreFrame(os: seq<Owner>, n: nat, store: Store, store': Store)
    requires n <= |os| && SameLists(os, store, store')
    ensures Resolve(os, n, store, true) == Resolve(os, n, store', true)
  {
    hide SameLists, ResolveGroups;
    if n > 0 {
      ResolveStoreFrame(os, n - 1, store, store');
      var before := Resolve(os, n - 1, store, true);
      if before.Resolved? {
        GroupsStoreFrame(os, n - 1, |os[n - 1].groups|, store, store', before.memo);
      }
    }
  }

  /** What happens to address lists of others does not change a snapshot. */
  lemma StoreFrame(lbs: seq<LoadBalancer>, routes: seq<Route>, store: Store, store': Store, t: Table)
    requires SameLists(Owners(lbs, routes), store, store')
    ensures SnapshotOf(lbs, routes, store, t) == SnapshotOf(lbs, routes, store', t)
  {
    hide Resolve, AllLbEmits, AllRouteEmits, Config, SameLists;
    ResolveStoreFrame(Owners(lbs, routes), |Owners(lbs, routes)|, store, store');
  }

  // ----- how long a snapshot stays the truth -----

  /** No operation of the step gives up a key of the requests. */
  ghost predicate Spares(t: Topology, w: World, step: Step, requests: seq<Request>) {
    forall o, q, k | 0 <= o < |OpsOf(t, w, step)| && q in requests && k in q.keys ::
           Retains(OpsOf(t, w, step)[o], q.ep, k)
  }

  ghost predicate AllSpare(t: Topology, hash: Hash, w: World, steps: seq<Step>, m: nat, n: nat, requests: seq<Request>)
    requires m <= n <= |steps|
  {
    forall i :: m <= i < n && WorldAfter(t, hash, w, steps, i).Some?
           ==> Spares(t, WorldAfter(t, hash, w, steps, i).value, steps[i], requests)
  }

  /** An entry of the first table is in the second, on the same port. */
  ghost predicate KeepsEntry(t: Table, t': Table, ep: string, k: string) {
    Has(t, ep, k) ==> Has(t', ep, k) && t'[ep][k] == t[ep][k]
  }

  lemma TableStep(t: Topology, hash: Hash, w: World, step: Step)
    requires Next(t, hash, w, step).Some?
    ensures Run(w.table, OpsOf(t, w, step), |OpsOf(t, w, step)|) == Some(Next(t, hash, w, step).value.0.table)
  {
    hide Truth, Updated, Needs, AnythingLive;
  }

  lemma {:induction false} KeysSpared(t: Topology, hash: Hash, w: World, steps: seq<Step>, m: nat, n: nat,
                                      requests: seq<Request>, q: Request, k: string)
    requires m <= n <= |steps| && WorldAfter(t, hash, w, steps, n).Some? && WorldAfter(t, hash, w, steps, m).Some?
    requires AllSpare(t, hash, w, steps, m, n, requests) && q in requests && k in q.keys
    ensures KeepsEntry(WorldAfter(t, hash, w, steps, m).value.table, WorldAfter(t, hash, w, steps, n).value.table,
                       q.ep, k)
    decreases n
  {
    hide Next, Run, Apply, Retains, OpsOf;
    if m < n {
      KeysSpared(t, hash, w, steps, m, n - 1, requests, q, k);
      var before, step := WorldAfter(t, hash, w, steps, n - 1).value, steps[n - 1];
      TableStep(t, hash, before, step);
      var ops := OpsOf(t, before, step);
      assert Spares(t, before, step, requests);
      assert Run(before.table, ops, 0) == Some(before.table) by { RunNothing(before.table, ops); }
      if Has(before.table, q.ep, k) {
        Stable(before.table, ops, 0, |ops|, q.ep, k);
      }
    }
  }

  lemma RunNothing(t: Table, ops: seq<Op>)
    ensures Run(t, ops, 0) == Some(t)
  {
  }

  /** Served keys that are spared keep their listener ports. */
  lemma SparedPorts(t: Table, t': Table, lbs: seq<LoadBalancer>, routes: seq<Route>)
    requires Served(t, lbs, routes)
    requires forall q, k | q in Wanted(lbs, routes) && k in q.keys :: KeepsEntry(t, t', q.ep, k)
    ensures SamePorts(t, t', lbs, routes)
  {
    hide LbKey, ServiceKey, PortKey, AllLbRequests, AllRouteRequests, Uint32;
    forall a: nat, i: nat, p: nat | a < |lbs| && i < |lbs[a].endpoints| && p < |lbs[a].endpoints[i].ports|
      ensures SameLbPort(t, t', lbs[a], i, lbs[a].endpoints[i].ports[p])
    {
      LbRequestAt(lbs, a, |lbs|, i);
      var q := LbRequest(lbs[a], i);
      assert LbPortServed(t, lbs[a], i, lbs[a].endpoints[i].ports[p]);
      assert q in Wanted(lbs, routes) && q.keys[p] in q.keys && KeepsEntry(t, t', q.ep, q.keys[p]);
    }
    forall a: nat, i: nat, p: nat | a < |routes| && i < |SourceServices(routes[a])|
           && p < |SourceServices(routes[a])[i].ports|
      ensures SameServicePort(t, t', routes[a], SourceServices(routes[a])[i], SourceServices(routes[a])[i].ports[p])
    {
      RouteRequestAt(routes, a, |routes|, i);
      var q := ServiceRequest(routes[a], SourceServices(routes[a])[i]);
      assert ServicePortServed(t, routes[a], SourceServices(routes[a])[i], SourceServices(routes[a])[i].ports[p]);
      assert q in Wanted(lbs, routes) && q.keys[p] in q.keys && KeepsEntry(t, t', q.ep, q.keys[p]);
    }
  }

  /** An effective reconcile with something live has served all of it. */
  lemma EffectiveServes(t: Topology, hash: Hash, w: World, step: Step, name: string)
    requires Effective(t, hash, w, step, name) && AnythingLive(t, step.ns, w)
    requires var x, y := LiveLbs(t, step.ns, w), LiveRoutes(t, step.ns, w); PlainInputs(x, y) && KeysSeparate(x, y)
    ensures Served(Next(t, hash, w, step).value.0.table, LiveLbs(t, step.ns, w), LiveRoutes(t, step.ns, w))
  {
    hide LiveLbs, LiveRoutes, Updated, Run, Served, KeysSeparate, NamedByUid, PlainRoutes, Truth;
    CallsServe(w.table, LiveLbs(t, step.ns, w), LiveRoutes(t, step.ns, w), step.draws);
  }

  /** The live objects of a request and the address lists they refer to are the same in both
      worlds. */
  ghost predicate SameObjects(t: Topology, ns: string, w: World, w': World) {
    && LiveLbs(t, ns, w) == LiveLbs(t, ns, w') && LiveRoutes(t, ns, w) == LiveRoutes(t, ns, w')
    && SameLists(Owners(LiveLbs(t, ns, w), LiveRoutes(t, ns, w)), w.store, w'.store)
  }

  lemma TruthStays(t: Topology, ns: string, w: World, w': World)
    requires SameObjects(t, ns, w, w')
    requires AnythingLive(t, ns, w) ==> SamePorts(w.table, w'.table, LiveLbs(t, ns, w), LiveRoutes(t, ns, w))
    ensures Truth(t, ns, w) == Truth(t, ns, w') && (AnythingLive(t, ns, w) <==> AnythingLive(t, ns, w'))
  {
    hide LiveLbs, LiveRoutes, SnapshotOf, SamePorts, SameLists, Owners;
    if AnythingLive(t, ns, w) {
      StoreFrame(LiveLbs(t, ns, w), LiveRoutes(t, ns, w), w.store, w'.store, w'.table);
      SnapshotFrame(LiveLbs(t, ns, w), LiveRoutes(t, ns, w), w.store, w.table, w'.table);
    }
  }

  /** The cache stays the truth of the present, not only of its last effective reconcile, as
      long as the request's own objects and the address lists they refer to are what they were
      then and no one gave up a port of theirs. */
  lemma CacheStaysCurrent(t: Topology, hash: Hash, w: World, steps: seq<Step>, n: nat, m: nat, ns: string)
    requires n <= |steps| && WorldAfter(t, hash, w, steps, n).Some? && InjectiveHash(hash) && w.cache == map[]
    requires m == LastEffective(t, hash, w, steps, n, SnapshotName(t, ns)) && m > 0
    requires SameObjects(t, ns, WorldAfter(t, hash, w, steps, m).value, WorldAfter(t, hash, w, steps, n).value)
    requires var x, y := LiveLbs(t, ns, WorldAfter(t, hash, w, steps, m).value),
             LiveRoutes(t, ns, WorldAfter(t, hash, w, steps, m).value);
             PlainInputs(x, y) && KeysSeparate(x, y) && AllSpare(t, hash, w, steps, m, n, Wanted(x, y))
    ensures Coherent(t, ns, WorldAfter(t, hash, w, steps, n).value)
  {
    hide *;
    var name, past, now := SnapshotName(t, ns), WorldAfter(t, hash, w, steps, m).value,
        WorldAfter(t, hash, w, steps, n).value;
    var x, y := LiveLbs(t, ns, past), LiveRoutes(t, ns, past);
    CacheCoherent(t, hash, w, steps, n, name);
    SameRequest(t, steps[m - 1].ns, ns, past);
    if AnythingLive(t, ns, past) {
      ServedSince(t, hash, w, steps, n, m, ns);
      forall q, k | q in Wanted(x, y) && k in q.keys ensures KeepsEntry(past.table, now.table, q.ep, k) {
        KeysSpared(t, hash, w, steps, m, n, Wanted(x, y), q, k);
      }
      SparedPorts(past.table, now.table, x, y);
    }
    TruthStays(t, ns, past, now);
    CoherentNow(t, ns, past, now);
  }

  /** Requests served under one snapshot name see the same objects. */
  lemma SameRequest(t: Topology, ns: string, ns': string, w: World)
    requires SnapshotName(t, ns) == SnapshotName(t, ns')
    ensures LiveLbs(t, ns, w) == LiveLbs(t, ns', w) && LiveRoutes(t, ns, w) == LiveRoutes(t, ns', w)
    ensures Truth(t, ns, w) == Truth(t, ns', w) && (AnythingLive(t, ns, w) <==> AnythingLive(t, ns', w))
    ensures Coherent(t, ns, w) <==> Coherent(t, ns', w)
  {
    SameListing(t, ns, ns', w.lbs, w.routes, |w.lbs|, |w.routes|);
    hide SnapshotOf, ListedLbs, ListedRoutes;
  }

  lemma {:induction false} SameListing(t: Topology, ns: string, ns': string, lbs: seq<LoadBalancer>,
                                       routes: seq<Route>, m: nat, n: nat)
    requires SnapshotName(t, ns) == SnapshotName(t, ns') && m <= |lbs| && n <= |routes|
    ensures ListedLbs(t, ns, lbs, m) == ListedLbs(t, ns', lbs, m)
            && ListedRoutes(t, ns, routes, n) == ListedRoutes(t, ns', routes, n)
    decreases m + n
  {
    if m > 0 {
      SameListing(t, ns, ns', lbs, routes, m - 1, n);
    }
    if n > 0 {
      SameListing(t, ns, ns', lbs, routes, m, n - 1);
    }
  }

  lemma CoherentNow(t: Topology, ns: string, past: World, now: World)
    requires Coherent(t, ns, past) && Truth(t, ns, past) == Truth(t, ns, now)
             && (AnythingLive(t, ns, past) <==> AnythingLive(t, ns, now))
    requires Bound(now.cache, SnapshotName(t, ns)) == Truth(t, ns, past)
    ensures Coherent(t, ns, now)
  {
    hide Truth, AnythingLive;
  }

  lemma {:induction false} EffectiveAt(t: Topology, hash: Hash, w: World, steps: seq<Step>, n: nat, name: string)
    requires n <= |steps| && WorldAfter(t, hash, w, steps, n).Some?
    ensures var m := LastEffective(t, hash, w, steps, n, name);
            m > 0 ==> WorldAfter(t, hash, w, steps, m - 1).Some?
                      && Effective(t, hash, WorldAfter(t, hash, w, steps, m - 1).value, steps[m - 1], name)
  {
    hide Effective, Next;
    if n > 0 {
      EffectiveAt(t, hash, w, steps, n - 1, name);
    }
  }

  lemma ServedSince(t: Topology, hash: Hash, w: World, steps: seq<Step>, n: nat, m: nat, ns: string)
    requires n <= |steps| && WorldAfter(t, hash, w, steps, n).Some?
             && m == LastEffective(t, hash, w, steps, n, SnapshotName(t, ns)) && m > 0
    requires WorldAfter(t, hash, w, steps, m).Some?
    requires var past := WorldAfter(t, hash, w, steps, m).value;
             AnythingLive(t, ns, past) && PlainInputs(LiveLbs(t, ns, past), LiveRoutes(t, ns, past))
                 && KeysSeparate(LiveLbs(t, ns, past), LiveRoutes(t, ns, past))
    ensures var past :=
            WorldAfter(t, hash, w, steps, m).value; Served(past.table, LiveLbs(t, ns, past), LiveRoutes(t, ns, past))
  {
    hide LiveLbs, LiveRoutes, AnythingLive, PlainInputs, KeysSeparate, Served, Next, LastEffective, Coherent, Truth;
    EffectiveAt(t, hash, w, steps, n, SnapshotName(t, ns));
    var before, past, step := WorldAfter(t, hash, w, steps, m - 1).value, WorldAfter(t, hash, w, steps, m).value,
        steps[m - 1];
    ReconcileCoherent(t, hash, before, step.ns, step.outcomes, step.draws);
    LiveDependsOnObjects(t, step.ns, before, past);
    SameRequest(t, step.ns, ns, past);
    EffectiveServes(t, hash, before, step, SnapshotName(t, ns));
  }

  // ----- other tenants -----

  /** Whose request it is: a LoadBalancer's group or a route's service. */
  datatype Asker = LbGroup(a: nat, i: nat) | RouteService(a: nat, i: nat)

  predicate Asks(w: World, ns: string, x: Asker, q: Request) {
    match x
    case LbGroup(a, i) => a < |w.lbs| && w.lbs[a].namespace == ns && i < |w.lbs[a].endpoints|
        && q == LbRequest(w.lbs[a], i)
    case RouteService(a, i) =>
      a < |w.routes| && w.routes[a].namespace == ns && i < |SourceServices(w.routes[a])|
      && q == ServiceRequest(w.routes[a], SourceServices(w.routes[a])[i])
  }

  lemma AskerOf(w: World, ns: string, q: Request) returns (x: Asker)
    requires q in Needs(Shared, ns, w)
    ensures Asks(w, ns, x, q)
  {
    hide LbRequest, ServiceRequest, ListedLbs, ListedRoutes, AllLbRequests, AllRouteRequests;
    var lbs, routes := LiveLbs(Shared, ns, w), LiveRoutes(Shared, ns, w);
    if q in AllLbRequests(lbs, |lbs|) {
      var b, i := LbRequestFrom(lbs, |lbs|, q);
      ListedLbsExactly(Shared, ns, w.lbs, |w.lbs|, lbs[b]);
      assert w.lbs[..|w.lbs|] == w.lbs;
      var a: nat :| a < |w.lbs| && w.lbs[a] == lbs[b];
      x := LbGroup(a, i);
    } else {
      var b, i := RouteRequestFrom(routes, |routes|, q);
      ListedRoutesExactly(Shared, ns, w.routes, |w.routes|, routes[b]);
      assert w.routes[..|w.routes|] == w.routes;
      var a: nat :| a < |w.routes| && w.routes[a] == routes[b];
      x := RouteService(a, i);
    }
  }

  lemma TenantsApart(w: World, ns: string, ns': string, q: Request, q': Request)
    requires NamedByUid(w.lbs) && PlainRoutes(w.routes) && KeysSeparate(w.lbs, w.routes) && ns != ns'
    requires q in Needs(Shared, ns, w) && q' in Needs(Shared, ns', w)
    ensures q.ep != q'.ep
  {
    hide Needs, NamedByUid, PlainRoutes, LbKey, ServiceKey, EndpointPortKeys, ServicePortKeys;
    var x := AskerOf(w, ns, q);
    var y := AskerOf(w, ns', q');
    match (x, y)
    case (LbGroup(a, i), LbGroup(b, j)) => LbKeysDiffer(w.lbs, a, i, b, j);
    case (RouteService(a, i), RouteService(b, j)) =>
      if a < b {
        KeysApart(w.routes, a, b, i, j);
      } else {
        KeysApart(w.routes, b, a, j, i);
      }
    case _ =>
  }

  /** In the shared topology a reconcile for another tenant spares all of a tenant's ports. */
  lemma OtherTenantSpares(w: World, ns: string, step: Step)
    requires NamedByUid(w.lbs) && PlainRoutes(w.routes) && KeysSeparate(w.lbs, w.routes) && step.Reconcile?
             && step.ns != ns
    ensures Spares(Shared, w, step, Needs(Shared, ns, w))
  {
    hide Needs, NamedByUid, PlainRoutes, KeysSeparate, AnythingLive;
    var ops := OpsOf(Shared, w, step);
    forall o, q, k | 0 <= o < |ops| && q in Needs(Shared, ns, w) && k in q.keys ensures Retains(ops[o], q.ep, k) {
      TenantsApart(w, ns, step.ns, q, Needs(Shared, step.ns, w)[o]);
    }
  }

  /** A reconcile under the same snapshot name, whether it succeeds or fails, spares the ports of
      the objects it finds. */
  lemma OwnReconcileSpares(t: Topology, w: World, ns: string, step: Step)
    requires step.Reconcile? && SnapshotName(t, step.ns) == SnapshotName(t, ns)
    requires PlainInputs(LiveLbs(t, ns, w), LiveRoutes(t, ns, w))
             && KeysSeparate(LiveLbs(t, ns, w), LiveRoutes(t, ns, w))
    ensures Spares(t, w, step, Needs(t, ns, w))
  {
    SameRequest(t, step.ns, ns, w);
    assert Needs(t, step.ns, w) == Needs(t, ns, w);
    hide LiveLbs, LiveRoutes, NamedByUid, PlainRoutes, KeysSeparate, Wanted, AnythingLive;
    WantedDistinct(LiveLbs(t, ns, w), LiveRoutes(t, ns, w));
    var ops, all := OpsOf(t, w, step), Needs(t, ns, w);
    forall o, q, k | 0 <= o < |ops| && q in all && k in q.keys ensures Retains(ops[o], q.ep, k) {
      var j :| 0 <= j < |all| && all[j] == q;
      assert all[o].ep == q.ep ==> o == j;
    }
  }

  /** All names in the world are as the keys need them. */
  ghost predicate WorldNamed(w: World) {
    NamedByUid(w.lbs) && PlainRoutes(w.routes) && KeysSeparate(w.lbs, w.routes)
  }

  /** The step is not another controller's call that gives up one of the keys. */
  ghost predicate NoRelease(step: Step, requests: seq<Request>) {
    step.Allocator? ==> forall q, k | q in requests && k in q.keys :: Retains(step.op, q.ep, k)
  }

  lemma StepSpares(t: Topology, w: World, ns: string, step: Step)
    requires WorldNamed(w) && NoRelease(step, Needs(t, ns, w))
    requires PlainInputs(LiveLbs(t, ns, w), LiveRoutes(t, ns, w))
             && KeysSeparate(LiveLbs(t, ns, w), LiveRoutes(t, ns, w))
    ensures Spares(t, w, step, Needs(t, ns, w))
  {
    hide Needs, Retains, NamedByUid, PlainRoutes, KeysSeparate, PlainInputs, LiveLbs, LiveRoutes;
    if step.Reconcile? {
      if SnapshotName(t, step.ns) == SnapshotName(t, ns) {
        OwnReconcileSpares(t, w, ns, step);
      } else {
        OtherTenantSpares(w, ns, step);
      }
    }
  }

  /** In the world after i steps, where there is one, the request's own objects are what they
      were after m, and all names are in order. */
  ghost predicate OwnUnchanged(t: Topology, hash: Hash, w: World, steps: seq<Step>, m: nat, i: nat, ns: string)
    requires m <= |steps| && i <= |steps| && WorldAfter(t, hash, w, steps, m).Some?
  {
    var now := WorldAfter(t, hash, w, steps, i);
    now.Some? ==> WorldNamed(now.value) && SameObjects(t, ns, WorldAfter(t, hash, w, steps, m).value, now.value)
  }

  /** In either topology: while the request's own objects and the lists they refer to stay as
      they are and no controller releases their ports, the cache is coherent at every moment,
      whatever edits of others, reconciles of other tenants and failed or successful
      reconciles of its own take place. */
  lemma CacheUndisturbed(t: Topology, hash: Hash, w: World, steps: seq<Step>, n: nat, m: nat, ns: string)
    requires n <= |steps| && WorldAfter(t, hash, w, steps, n).Some? && InjectiveHash(hash) && w.cache == map[]
    requires m == LastEffective(t, hash, w, steps, n, SnapshotName(t, ns)) && m > 0
    requires forall i :: m <= i <= n ==> OwnUnchanged(t, hash, w, steps, m, i, ns)
    requires var past := WorldAfter(t, hash, w, steps, m).value;
             && PlainInputs(LiveLbs(t, ns, past), LiveRoutes(t, ns, past))
                 && KeysSeparate(LiveLbs(t, ns, past), LiveRoutes(t, ns, past))
             && forall i :: m <= i < n ==> NoRelease(steps[i], Needs(t, ns, past))
    ensures Coherent(t, ns, WorldAfter(t, hash, w, steps, n).value)
  {
    hide LiveLbs, LiveRoutes, PlainInputs, KeysSeparate, NoRelease, Spares, WorldNamed, SameLists, Wanted, Next,
         Coherent, InjectiveHash, LastEffective;
    var past := WorldAfter(t, hash, w, steps, m).value;
    var requests := Wanted(LiveLbs(t, ns, past), LiveRoutes(t, ns, past));
    forall i | m <= i < n && WorldAfter(t, hash, w, steps, i).Some?
      ensures Spares(t, WorldAfter(t, hash, w, steps, i).value, steps[i], requests)
    {
      assert OwnUnchanged(t, hash, w, steps, m, i, ns);
      StepSpares(t, WorldAfter(t, hash, w, steps, i).value, ns, steps[i]);
    }
    assert OwnUnchanged(t, hash, w, steps, m, n, ns);
    CacheStaysCurrent(t, hash, w, steps, n, m, ns);
  }

  // ----- what Envoy is served -----

  /** The draws of every allocation of the step are distinct. */
  ghost predicate StepDrawsDistinct(step: Step) {
    step.Reconcile? ==> forall i :: 0 <= i < |step.draws| ==> Distinct(step.draws[i])
  }

  /** A successful reconcile for live objects leaves a table in which all of them are served on
      ports of their own, and the snapshot of that table in the cache. */
  lemma ReconciledTable(t: Topology, hash: Hash, w: World, step: Step)
    requires step.Reconcile? && Next(t, hash, w, step).Some? && Next(t, hash, w, step).value.1
             && AnythingLive(t, step.ns, w)
    requires InjectiveHash(hash) && WellVersioned(w.cache, hash) && InRange(w.table) && Injective(w.table)
             && StepDrawsDistinct(step)
    requires PlainInputs(LiveLbs(t, step.ns, w), LiveRoutes(t, step.ns, w))
             && KeysSeparate(LiveLbs(t, step.ns, w), LiveRoutes(t, step.ns, w))
    ensures var w', x, y := Next(t, hash, w, step).value.0, LiveLbs(t, step.ns, w), LiveRoutes(t, step.ns, w);
            && Served(w'.table, x, y) && InRange(w'.table) && Injective(w'.table) && w'.store == w.store
            && SnapshotName(t, step.ns) in w'.cache
                && SnapshotOf(x, y, w.store, w'.table) == Some(w'.cache[SnapshotName(t, step.ns)].config)
  {
    var w', x, y := Next(t, hash, w, step).value.0, LiveLbs(t, step.ns, w), LiveRoutes(t, step.ns, w);
    var ops := OpsOf(t, w, step);
    assert Allocates(t, w, step.ns, step.outcomes) && ops == Calls(Needs(t, step.ns, w), step.draws);
    hide Run, Next, LiveLbs, LiveRoutes, PlainInputs, KeysSeparate, Served, InRange, Injective, Allocates, OpsOf,
         SnapshotOf;
    TableStep(t, hash, w, step);
    EffectiveServes(t, hash, w, step, SnapshotName(t, step.ns));
    RunInRange(w.table, ops, |ops|);
    RunInjective(w.table, ops, |ops|);
    ReconcileCoherent(t, hash, w, step.ns, step.outcomes, step.draws);
    LiveDependsOnObjects(t, step.ns, w, w');
  }

  /** From then on, until the name's next effective reconcile, Envoy forwards the allocated
      port of each route service port to all addresses of the route at its NodePort, and to
      nothing else. */
  lemma CachedRoutePort(t: Topology, hash: Hash, w: World, step: Step, a: nat, i: nat, p: nat)
    requires step.Reconcile? && Next(t, hash, w, step).Some? && Next(t, hash, w, step).value.1
             && AnythingLive(t, step.ns, w)
    requires InjectiveHash(hash) && WellVersioned(w.cache, hash) && InRange(w.table) && Injective(w.table)
             && StepDrawsDistinct(step)
    requires PlainInputs(LiveLbs(t, step.ns, w), LiveRoutes(t, step.ns, w))
             && KeysSeparate(LiveLbs(t, step.ns, w), LiveRoutes(t, step.ns, w))
    requires KeysInjective(Owners(LiveLbs(t, step.ns, w), LiveRoutes(t, step.ns, w)))
    requires var y := LiveRoutes(t, step.ns, w);
             && a < |y| && i < |SourceServices(y[a])| && p < |SourceServices(y[a])[i].ports|
             && var q := SourceServices(y[a])[i].ports[p]; q.protocol == TCP || q.protocol == UDP
    ensures var w', r := Next(t, hash, w, step).value.0, LiveRoutes(t, step.ns, w)[a];
            var s := SourceServices(r)[i];
            var ep, k := ServiceKey(r, s), PortKey(s.ports[p].port, s.ports[p].protocol);
            && Has(w'.table, ep, k) && AllAddresses(r, w.store, |r.endpoints|).Some?
                && SnapshotName(t, step.ns) in w'.cache
            && Serves(Indexed(w'.cache[SnapshotName(t, step.ns)].config), w'.table[ep][k],
                      L7Kind(r, s.ports[p].protocol), Ips(AllAddresses(r, w.store, |r.endpoints|).value),
                      s.ports[p].nodePort)
  {
    hide *;
    ReconciledTable(t, hash, w, step);
    var w', x, y := Next(t, hash, w, step).value.0, LiveLbs(t, step.ns, w), LiveRoutes(t, step.ns, w);
    var s := SourceServices(y[a])[i];
    var ep, k := ServiceKey(y[a], s), PortKey(s.ports[p].port, s.ports[p].protocol);
    ServedServicePort(w'.table, x, y, a, i, p);
    InRangeAt(w'.table, ep, k);
    L7Listener(x, y, a, i, p, w.store, w'.table);
    ReachedIsServed(x, y, w.store, w'.table, w'.table[ep][k], L7Kind(y[a], s.ports[p].protocol),
                    AllAddresses(y[a], w.store, |y[a].endpoints|).value, s.ports[p].nodePort);
  }

  /** The same for each port of a tenant Service published as a LoadBalancer. */
  lemma CachedLbPort(t: Topology, hash: Hash, w: World, step: Step, a: nat, s: Service, ips: seq<string>,
                     useReference: bool, cluster: string, j: nat)
    requires step.Reconcile? && Next(t, hash, w, step).Some? && Next(t, hash, w, step).value.1
             && AnythingLive(t, step.ns, w)
    requires InjectiveHash(hash) && WellVersioned(w.cache, hash) && InRange(w.table) && Injective(w.table)
             && StepDrawsDistinct(step)
    requires PlainInputs(LiveLbs(t, step.ns, w), LiveRoutes(t, step.ns, w))
             && KeysSeparate(LiveLbs(t, step.ns, w), LiveRoutes(t, step.ns, w))
    requires KeysInjective(Owners(LiveLbs(t, step.ns, w), LiveRoutes(t, step.ns, w)))
    requires a < |LiveLbs(t, step.ns, w)| && Publishes(LiveLbs(t, step.ns, w)[a], s, ips, useReference, cluster)
    requires j < |s.ports| && (s.ports[j].protocol == TCP || s.ports[j].protocol == UDP)
             && LiveLbs(t, step.ns, w)[a].endpoints != []
    ensures var w', lb := Next(t, hash, w, step).value.0, LiveLbs(t, step.ns, w)[a];
            var ep, k := LbKey(lb, 0), UserPortKey(s.ports[j]);
            && Has(w'.table, ep, k) && L4Ips(ips, useReference, cluster, w.store).Some?
                && SnapshotName(t, step.ns) in w'.cache
            && Serves(Indexed(w'.cache[SnapshotName(t, step.ns)].config), w'.table[ep][k],
                      L4Kind(s.ports[j].protocol), L4Ips(ips, useReference, cluster, w.store).value,
                      s.ports[j].nodePort)
  {
    hide *;
    ReconciledTable(t, hash, w, step);
    var w', x, y := Next(t, hash, w, step).value.0, LiveLbs(t, step.ns, w), LiveRoutes(t, step.ns, w);
    var ep, k := LbKey(x[a], 0), UserPortKey(s.ports[j]);
    ServedLbPort(w'.table, x, y, a, s, ips, useReference, cluster, j);
    InRangeAt(w'.table, ep, k);
    L4Listener(x, a, s, ips, useReference, cluster, y, w.store, w'.table, j);
    L4IpsAre(x[a], s, ips, useReference, cluster, w.store);
    ReachedIsServed(x, y, w.store, w'.table, w'.table[ep][k], L4Kind(s.ports[j].protocol),
                    DirectAddresses(cluster, x[a].endpoints[0], w.store).value, s.ports[j].nodePort);
  }
}
