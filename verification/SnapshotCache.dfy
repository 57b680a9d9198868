/** The Envoy control-plane controller: which objects it lists, and how the cached snapshot
    follows them over a run of reconciles. */
module SnapshotCache {
  import opened Text
  import opened Api
  import opened PortTable
  import opened AllocatorRuns
  import opened PortRequests
  import opened PortAllocation
  import opened Snapshot
  import opened ListenerExclusivity

  const GLOBAL_CACHE := "global"

  datatype Topology = Shared | Global

  /** The snapshot under which a request is served. */
  function SnapshotName(t: Topology, requestNamespace: string): string {
    if t.Shared? then requestNamespace else GLOBAL_CACHE
  }

  predicate LbListed(t: Topology, ns: string, lb: LoadBalancer) {
    !lb.deleting && (t.Shared? ==> lb.namespace == ns)
  }

  predicate RouteListed(t: Topology, ns: string, r: Route) {
    !r.deleting && (t.Shared? ==> r.namespace == ns)
  }

  /** The listed ones among the first n. */
  function ListedLbs(t: Topology, ns: string, lbs: seq<LoadBalancer>, n: nat): seq<LoadBalancer>
    requires n <= |lbs|
  {
    if n == 0 then [] else ListedLbs(t, ns, lbs, n - 1) + if LbListed(t, ns, lbs[n - 1]) then [lbs[n - 1]] else []
  }

  function ListedRoutes(t: Topology, ns: string, routes: seq<Route>, n: nat): seq<Route>
    requires n <= |routes|
  {
    if n == 0 then [] else ListedRoutes(t, ns, routes, n - 1) + if RouteListed(t, ns, routes[n - 1])
        then [routes[n - 1]] else []
  }

  method ListLoadBalancersAndRoutes(t: Topology, ns: string, lbs: seq<LoadBalancer>, routes: seq<Route>)
    returns (outLbs: seq<LoadBalancer>, outRoutes: seq<Route>)
    ensures outLbs == ListedLbs(t, ns, lbs, |lbs|) && outRoutes == ListedRoutes(t, ns, routes, |routes|)
  {
    outLbs, outRoutes := [], [];
    for i := 0 to |lbs|
      invariant outLbs == ListedLbs(t, ns, lbs, i)
    {
      if (t.Global? || lbs[i].namespace == ns) && !lbs[i].deleting {
        outLbs := outLbs + [lbs[i]];
      }
    }
    for i := 0 to |routes|
      invariant outRoutes == ListedRoutes(t, ns, routes, i)
    {
      if (t.Global? || routes[i].namespace == ns) && !routes[i].deleting {
        outRoutes := outRoutes + [routes[i]];
      }
    }
  }

  /** Listing selects: nothing that is being deleted or, in the shared topology, is of another
      tenant, and each of the rest once. */
  lemma {:induction false} ListedLbsExactly(t: Topology, ns: string, lbs: seq<LoadBalancer>, n: nat, lb: LoadBalancer)
    requires n <= |lbs|
    ensures multiset(ListedLbs(t, ns, lbs, n))[lb]
            == if lb.deleting || (t == Shared && lb.namespace != ns) then 0 else multiset(lbs[..n])[lb]
  {
    if n > 0 {
      ListedLbsExactly(t, ns, lbs, n - 1, lb);
      assert lbs[..n] == lbs[..n - 1] + [lbs[n - 1]];
    }
  }

  lemma {:induction false} ListedRoutesExactly(t: Topology, ns: string, routes: seq<Route>, n: nat, r: Route)
    requires n <= |routes|
    ensures multiset(ListedRoutes(t, ns, routes, n))[r]
            == if r.deleting || (t == Shared && r.namespace != ns) then 0 else multiset(routes[..n])[r]
  {
    if n > 0 {
      ListedRoutesExactly(t, ns, routes, n - 1, r);
      assert routes[..n] == routes[..n - 1] + [routes[n - 1]];
    }
  }

  /** A snapshot with the hash that stands for its content. */
  datatype Versioned = Versioned(version: string, config: EnvoyConfig)

  type Hash = EnvoyConfig -> string

  ghost predicate InjectiveHash(hash: Hash) {
    forall a, b :: hash(a) == hash(b) ==> a == b
  }

  /** Which of the calls with an unseen outcome succeed. */
  datatype Outcomes = Outcomes(list: bool, cleanup: bool, ensure: bool, consistent: bool, store: bool)

  type Cache = map<string, Versioned>

  ghost predicate WellVersioned(cache: Cache, hash: Hash) {
    forall name :: name in cache ==> cache[name].version == hash(cache[name].config)
  }

  /** What a name is bound to. */
  function Bound(cache: Cache, name: string): Option<EnvoyConfig> {
    if name in cache then Some(cache[name].config) else None
  }

  predicate OthersUntouched(before: Cache, after: Cache, name: string) {
    before - {name} == after - {name}
  }

  // ----- the world and its steps -----

  /** The live objects, the port table and the cache. */
  datatype World = World(lbs: seq<LoadBalancer>, routes: seq<Route>, store: Store, table: Table, cache: Cache)

  datatype Step =
    | Edit(lbs: seq<LoadBalancer>, routes: seq<Route>, store: Store)
    | Allocator(op: Op)
    | Reconcile(ns: string, outcomes: Outcomes, draws: seq<seq<int>>)

  function LiveLbs(t: Topology, ns: string, w: World): seq<LoadBalancer> {
    ListedLbs(t, ns, w.lbs, |w.lbs|)
  }

  function LiveRoutes(t: Topology, ns: string, w: World): seq<Route> {
    ListedRoutes(t, ns, w.routes, |w.routes|)
  }

  predicate AnythingLive(t: Topology, ns: string, w: World) {
    LiveLbs(t, ns, w) != [] || LiveRoutes(t, ns, w) != []
  }

  function Needs(t: Topology, ns: string, w: World): seq<Request> {
    Wanted(LiveLbs(t, ns, w), LiveRoutes(t, ns, w))
  }

  /** What Envoy should be told for the world as it is: nothing when nothing is live, else the
      snapshot of the live objects, their address lists and the table. */
  function Truth(t: Topology, ns: string, w: World): Option<EnvoyConfig> {
    if AnythingLive(t, ns, w) then SnapshotOf(LiveLbs(t, ns, w), LiveRoutes(t, ns, w), w.store, w.table) else None
  }

  /** The cache holds the truth for a request: absent exactly when nothing is live. */
  predicate Coherent(t: Topology, ns: string, w: World) {
    Bound(w.cache, SnapshotName(t, ns)) == Truth(t, ns, w)
        && (AnythingLive(t, ns, w) <==> SnapshotName(t, ns) in w.cache)
  }

  /** updateCache, and whether it reports success. */
  function Updated(cache: Cache, name: string, desired: Option<EnvoyConfig>, hash: Hash, o: Outcomes): (Cache, bool) {
    if desired.None? then (cache, false)
    else
      var v := Versioned(hash(desired.value), desired.value);
      if name !in cache then if o.store then (cache[name := v], true) else (cache, false)
      else if cache[name].version == v.version then (cache, true)
      else if o.consistent && o.store then (cache[name := v], true)
      else (cache, false)
  }

  /** A reconcile gets as far as the allocator. */
  predicate Allocates(t: Topology, w: World, ns: string, o: Outcomes) {
    o.list && AnythingLive(t, ns, w) && o.ensure
  }

  /** The allocator operations of a step. */
  function OpsOf(t: Topology, w: World, step: Step): seq<Op> {
    match step
    case Edit(_, _, _) => []
    case Allocator(op) => [op]
    case Reconcile(ns, o, draws) =>
      if Allocates(t, w, ns, o) && |draws| == |Needs(t, ns, w)| then Calls(Needs(t, ns, w), draws) else []
  }

  /** One step and whether it reports success; None when the draws do not suffice. */
  function Next(t: Topology, hash: Hash, w: World, step: Step): Option<(World, bool)> {
    var ops := OpsOf(t, w, step);
    var table := Run(w.table, ops, |ops|);
    if table.None? then None
    else
      match step
      case Edit(lbs, routes, store) => Some((w.(lbs := lbs, routes := routes, store := store), true))
      case Allocator(_) => Some((w.(table := table.value), true))
      case Reconcile(ns, o, draws) =>
        if !o.list then Some((w, false))
        else if !AnythingLive(t, ns, w) then Some((w.(cache := w.cache - {SnapshotName(t, ns)}), o.cleanup))
        else if !o.ensure then Some((w, false))
        else if |draws| != |Needs(t, ns, w)| then None
        else
          var w' := w.(table := table.value);
          var (cache, ok) := Updated(w.cache, SnapshotName(t, ns), Truth(t, ns, w'), hash, o);
          Some((w'.(cache := cache), ok))
  }

  class EnvoyController {
    var cache: Cache
    const allocator: PortAllocator
    const topology: Topology
    const hash: Hash

    constructor (allocator: PortAllocator, topology: Topology, hash: Hash)
      ensures cache == map[] && this.allocator == allocator && this.topology == topology && this.hash == hash
    {
      cache := map[];
      this.allocator, this.topology, this.hash := allocator, topology, hash;
    }

    /** reconcile for one request against the live objects: the table is the one after the
        calls for them, and on success the cache is coherent with them and that table. */
    method Reconcile(ns: string, lbs: seq<LoadBalancer>, routes: seq<Route>, store: Store, o: Outcomes,
                     lbDraws: seq<seq<int>>, routeDraws: seq<seq<int>>) returns (ok: bool)
      requires allocator.Valid()
      requires var x, y := ListedLbs(topology, ns, lbs, |lbs|), ListedRoutes(topology, ns, routes, |routes|);
               && |lbDraws| == |AllLbRequests(x, |x|)| && |routeDraws| == |AllRouteRequests(y, |y|)|
               && Run(allocator.portLookup, Calls(Wanted(x, y), lbDraws + routeDraws), |lbDraws + routeDraws|).Some?
      modifies this, allocator
      ensures allocator.Valid()
      ensures var w := World(lbs, routes, store, old(allocator.portLookup), old(cache));
              Next(topology, hash, w, Step.Reconcile(ns, o, lbDraws + routeDraws))
              == Some((World(lbs, routes, store, allocator.portLookup, cache), ok))
      ensures var w := World(lbs, routes, store, old(allocator.portLookup), old(cache));
              var ops := if Allocates(topology, w, ns, o) then Calls(Needs(topology, ns, w), lbDraws + routeDraws)
                  else [];
              Run(old(allocator.portLookup), ops, |ops|) == Some(allocator.portLookup)
      ensures InjectiveHash(hash) && WellVersioned(old(cache), hash) ==>
                WellVersioned(cache, hash)
                    && (ok ==> Coherent(topology, ns, World(lbs, routes, store, allocator.portLookup, cache)))
      ensures OthersUntouched(old(cache), cache, if topology == Shared then ns else "global")
      ensures var name := if topology == Shared then ns else "global";
              var live :=
                ListedLbs(topology, ns, lbs, |lbs|) != [] || ListedRoutes(topology, ns, routes, |routes|) != [];
              && (!live || !o.list || !o.ensure ==> allocator.portLookup == old(allocator.portLookup))
              && (!o.list || (live && !o.ensure) ==> !ok && cache == old(cache))
              && (o.list && !live ==> ok == o.cleanup && cache == old(cache) - {name})
              && (ok && live ==> name in cache)
    {
      hide *;
      ghost var w, draws := World(lbs, routes, store, allocator.portLookup, cache), lbDraws + routeDraws;
      NeedsAre(topology, ns, w);
      SnapshotNameIs(topology, ns);
      var name := SnapshotName(topology, ns);
      if !o.list {
        StepStops(topology, hash, w, ns, o, draws);
        ReconcileCoherent(topology, hash, w, ns, o, draws);
        return false;
      }
      var liveLbs, liveRoutes := ListLoadBalancersAndRoutes(topology, ns, lbs, routes);
      if |liveLbs| == 0 && |liveRoutes| == 0 {
        StepClears(topology, hash, w, ns, o, draws);
        ReconcileCoherent(topology, hash, w, ns, o, draws);
        cache := cache - {name};
        return o.cleanup;
      }
      if !o.ensure {
        StepStops(topology, hash, w, ns, o, draws);
        ReconcileCoherent(topology, hash, w, ns, o, draws);
        return false;
      }
      StepUpdates(topology, hash, w, ns, o, draws);
      ReconcileCoherent(topology, hash, w, ns, o, draws);
      CallsInTwo(allocator.portLookup, liveLbs, liveRoutes, lbDraws, routeDraws);
      allocator.AllocatePortsForLoadBalancers(liveLbs, lbDraws);
      allocator.AllocatePortsForRoutes(liveRoutes, routeDraws);
      ok := UpdateCache(name, liveLbs, liveRoutes, store, o);
    }

    /** On success the name is bound to the snapshot computed now; otherwise nothing changes. */
    method UpdateCache(name: string, lbs: seq<LoadBalancer>, routes: seq<Route>, store: Store, o: Outcomes)
      returns (ok: bool)
      modifies this
      ensures (cache, ok) == Updated(old(cache), name, SnapshotOf(lbs, routes, store, allocator.portLookup), hash, o)
      ensures InjectiveHash(hash) && WellVersioned(old(cache), hash) ==>
                WellVersioned(cache, hash)
                && (ok ==> name in cache && Bound(cache, name) == SnapshotOf(lbs, routes, store, allocator.portLookup))
      ensures if ok then name in cache else cache == old(cache)
      ensures OthersUntouched(old(cache), cache, name)
      ensures InjectiveHash(hash) && WellVersioned(old(cache), hash) ==>
                var desired := SnapshotOf(lbs, routes, store, allocator.portLookup);
                (ok <==> desired.Some? && if name !in old(cache) then o.store
                         else old(cache)[name].config == desired.value || (o.consistent && o.store))
    {
      hide SnapshotOf;
      var desired, _ := MapSnapshot(lbs, routes, store, allocator);
      if desired.None? {
        return false;
      }
      var v := Versioned(hash(desired.value), desired.value);
      if name !in cache {
        if !o.store {
          return false;
        }
        cache := cache[name := v];
        return true;
      }
      if cache[name].version == v.version {
        return true;
      }
      if !o.consistent || !o.store {
        return false;
      }
      cache := cache[name := v];
      return true;
    }
  }

  // ----- what one reconcile does -----

  lemma SnapshotNameIs(t: Topology, ns: string)
    ensures SnapshotName(t, ns) == if t == Shared then ns else "global"
  {
  }

  lemma NeedsAre(t: Topology, ns: string, w: World)
    ensures LiveLbs(t, ns, w) == ListedLbs(t, ns, w.lbs, |w.lbs|)
            && LiveRoutes(t, ns, w) == ListedRoutes(t, ns, w.routes, |w.routes|)
    ensures AnythingLive(t, ns, w) <==> |LiveLbs(t, ns, w)| != 0 || |LiveRoutes(t, ns, w)| != 0
    ensures Needs(t, ns, w) == Wanted(LiveLbs(t, ns, w), LiveRoutes(t, ns, w))
    ensures var x, y := LiveLbs(t, ns, w),
            LiveRoutes(t, ns, w); |Needs(t, ns, w)| == |AllLbRequests(x, |x|)| + |AllRouteRequests(y, |y|)|
    ensures forall o :: Allocates(t, w, ns, o) <==> o.list && AnythingLive(t, ns, w) && o.ensure
  {
  }

  lemma StepStops(t: Topology, hash: Hash, w: World, ns: string, o: Outcomes, draws: seq<seq<int>>)
    requires !o.list || (AnythingLive(t, ns, w) && !o.ensure)
    ensures Next(t, hash, w, Step.Reconcile(ns, o, draws)) == Some((w, false)) && !Allocates(t, w, ns, o)
            && Run(w.table, [], 0) == Some(w.table)
  {
  }

  lemma StepClears(t: Topology, hash: Hash, w: World, ns: string, o: Outcomes, draws: seq<seq<int>>)
    requires o.list && !AnythingLive(t, ns, w)
    ensures Next(t, hash, w, Step.Reconcile(ns, o, draws))
            == Some((w.(cache := w.cache - {SnapshotName(t, ns)}), o.cleanup))
    ensures !Allocates(t, w, ns, o) && Run(w.table, [], 0) == Some(w.table)
  {
  }

  lemma StepUpdates(t: Topology, hash: Hash, w: World, ns: string, o: Outcomes, draws: seq<seq<int>>)
    requires Allocates(t, w, ns, o) && |draws| == |Needs(t, ns, w)|
             && Run(w.table, Calls(Needs(t, ns, w), draws), |draws|).Some?
    ensures var table := Run(w.table, Calls(Needs(t, ns, w), draws), |draws|).value;
            var u :=
                Updated(w.cache, SnapshotName(t, ns),
                        SnapshotOf(LiveLbs(t, ns, w), LiveRoutes(t, ns, w), w.store, table), hash, o);
            Next(t, hash, w, Step.Reconcile(ns, o, draws)) == Some((w.(table := table, cache := u.0), u.1))
    ensures |Calls(Needs(t, ns, w), draws)| == |draws|
  {
    hide Run, SnapshotOf, Updated, LiveLbs, LiveRoutes, Needs;
    var table := Run(w.table, Calls(Needs(t, ns, w), draws), |draws|).value;
    LiveDependsOnObjects(t, ns, w, w.(table := table));
  }

  lemma LiveDependsOnObjects(t: Topology, ns: string, w: World, w': World)
    requires w.lbs == w'.lbs && w.routes == w'.routes
    ensures LiveLbs(t, ns, w) == LiveLbs(t, ns, w') && LiveRoutes(t, ns, w) == LiveRoutes(t, ns, w')
    ensures AnythingLive(t, ns, w) <==> AnythingLive(t, ns, w')
  {
  }

  lemma CallsInTwo(t: Table, lbs: seq<LoadBalancer>, routes: seq<Route>, lbDraws: seq<seq<int>>,
                   routeDraws: seq<seq<int>>)
    requires |lbDraws| == |AllLbRequests(lbs, |lbs|)| && |routeDraws| == |AllRouteRequests(routes, |routes|)|
    requires |lbDraws + routeDraws| == |Wanted(lbs, routes)|
    requires Run(t, Calls(Wanted(lbs, routes), lbDraws + routeDraws), |lbDraws + routeDraws|).Some?
    ensures var first := Run(t, Calls(AllLbRequests(lbs, |lbs|), lbDraws), |lbDraws|);
            && first.Some?
            && Run(t, Calls(Wanted(lbs, routes), lbDraws + routeDraws), |lbDraws + routeDraws|)
               == Run(first.value, Calls(AllRouteRequests(routes, |routes|), routeDraws), |routeDraws|)
  {
    hide Run, AllLbRequests, AllRouteRequests;
    var a, b := Calls(AllLbRequests(lbs, |lbs|), lbDraws), Calls(AllRouteRequests(routes, |routes|), routeDraws);
    assert Calls(Wanted(lbs, routes), lbDraws + routeDraws) == a + b;
    RunAppend(t, a, b, |b|);
  }

  lemma UpdatedCoherent(cache: Cache, name: string, desired: Option<EnvoyConfig>, hash: Hash, o: Outcomes)
    requires InjectiveHash(hash) && WellVersioned(cache, hash)
    ensures var (after, ok) := Updated(cache, name, desired, hash, o);
            WellVersioned(after, hash) && (ok ==> name in after && Bound(after, name) == desired)
  {
  }

  lemma UpdatedOthers(cache: Cache, name: string, desired: Option<EnvoyConfig>, hash: Hash, o: Outcomes)
    ensures var (after, ok) := Updated(cache, name, desired, hash, o);
            OthersUntouched(cache, after, name) && (!ok ==> after == cache)
  {
  }

  lemma ClearedCoherent(cache: Cache, name: string, hash: Hash)
    requires WellVersioned(cache, hash)
    ensures WellVersioned(cache - {name}, hash) && Bound(cache - {name}, name) == None
            && OthersUntouched(cache, cache - {name}, name)
  {
  }

  lemma ClearedOthers(cache: Cache, name: string)
    ensures OthersUntouched(cache, cache - {name}, name) && OthersUntouched(cache, cache, name)
  {
    assert cache - {name} - {name} == cache - {name};
  }

  /** A reconcile that reports success leaves the cache coherent with the live objects and the
      table as the reconcile left it; one that fails leaves the cache alone unless it found
      nothing live; names of other requests are untouched in any case. */
  lemma ReconcileCoherent(t: Topology, hash: Hash, w: World, ns: string, o: Outcomes, draws: seq<seq<int>>)
    requires Next(t, hash, w, Step.Reconcile(ns, o, draws)).Some?
    ensures var (w', ok) := Next(t, hash, w, Step.Reconcile(ns, o, draws)).value;
            && w'.lbs == w.lbs && w'.routes == w.routes && w'.store == w.store
            && OthersUntouched(w.cache, w'.cache, SnapshotName(t, ns))
            && (!ok && (!o.list || AnythingLive(t, ns, w)) ==> w'.cache == w.cache)
            && (InjectiveHash(hash) && WellVersioned(w.cache, hash) ==>
                  WellVersioned(w'.cache, hash) && (ok || (o.list && !AnythingLive(t, ns, w)) ==> Coherent(t, ns, w')))
  {
    hide SnapshotOf, Updated, Run, Bound, LiveLbs, LiveRoutes, Needs, WellVersioned, OthersUntouched, InjectiveHash;
    var (w', ok) := Next(t, hash, w, Step.Reconcile(ns, o, draws)).value;
    var name := SnapshotName(t, ns);
    LiveDependsOnObjects(t, ns, w, w');
    ClearedOthers(w.cache, name);
    if o.list && !AnythingLive(t, ns, w) {
      if WellVersioned(w.cache, hash) {
        ClearedCoherent(w.cache, name, hash);
      }
    } else if Allocates(t, w, ns, o) {
      var desired := Truth(t, ns, w.(table := w'.table));
      LiveDependsOnObjects(t, ns, w, w.(table := w'.table));
      UpdatedOthers(w.cache, name, desired, hash, o);
      if InjectiveHash(hash) && WellVersioned(w.cache, hash) {
        UpdatedCoherent(w.cache, name, desired, hash, o);
      }
    }
  }

  /** A hash that collides breaks this: the stale snapshot stays although a different one
      was computed and success is reported. */
  lemma CollisionKeepsStale(stale: EnvoyConfig, current: EnvoyConfig, hash: Hash, name: string, o: Outcomes)
    requires stale != current && hash(stale) == hash(current)
    ensures var (after, ok) := Updated(map[name := Versioned(hash(stale), stale)], name, Some(current), hash, o);
            ok && Bound(after, name) != Some(current)
  {
  }
}
