/** The Services of a route: what is recorded about them in the route's status, how
    orphaned ones are removed, and what a restart reads back. */
module RouteServices {
  import opened Text
  import opened Keys
  import opened Api
  import opened PortTable
  import opened PortRequests
  import opened LoadedTable
  import opened PortAllocation
  import opened ServiceGeneration
  import opened Forwarding

  type Status = map<string, RouteServiceStatus>

  /** Namespace and name of a Service object in the load-balancing cluster. */
  type ObjectKey = (string, string)

  // ----- recording a service -----

  function RecordedNamespace(s: Service): string {
    if LabelOr(s.labels, LABEL_TYPE, "") == BRIDGE_SERVICE then s.namespace else OriginNamespace(s)
  }

  function RecordedKey(s: Service): string {
    ServiceMapKey(RecordedNamespace(s), OriginName(s))
  }

  function Recorded(s: Service): RouteServiceStatus {
    RouteServiceStatus(s.name, RecordedNamespace(s), OriginName(s), s.ports)
  }

  /** updateServiceStatus. */
  function Record(status: Status, s: Service): Status {
    status[RecordedKey(s) := Recorded(s)]
  }

  /** The first n Services applied by manageServices, bridges included, one after the other. */
  function RecordAll(status: Status, services: seq<Service>, n: nat): Status
    requires n <= |services|
  {
    if n == 0 then status else Record(RecordAll(status, services, n - 1), services[n - 1])
  }

  method UpdateServiceStatuses(given: Status, services: seq<Service>) returns (status: Status)
    ensures status == RecordAll(given, services, |services|)
  {
    status := given;
    for i := 0 to |services|
      invariant status == RecordAll(given, services, i)
    {
      var svc := services[i];
      var name, namespace := OriginName(svc), OriginNamespace(svc);
      if LABEL_TYPE in svc.labels && svc.labels[LABEL_TYPE] == BRIDGE_SERVICE {
        namespace := svc.namespace;
      }
      status := status[ServiceMapKey(namespace, name) := RouteServiceStatus(svc.name, namespace, name, svc.ports)];
    }
  }

  /** Recorded are the Service's own name, its origin's name and namespace where it is labelled, for
      a bridge the namespace it is in, and its ports. */
  lemma RecordedMeans(s: Service)
    ensures var v, l := Recorded(s), s.labels;
            && RecordedKey(s) == v.namespace + "/" + v.name && v.generatedName == s.name && v.ports == s.ports
            && v.name == (if "kubelb.k8c.io/origin-name" in l then l["kubelb.k8c.io/origin-name"] else s.name)
            && v.namespace
               == if "app.kubernetes.io/type" in l && l["app.kubernetes.io/type"] == "bridge-service" then s.namespace
                  else if "kubelb.k8c.io/origin-ns" in l then l["kubelb.k8c.io/origin-ns"] else s.namespace
  {
  }

  /** A key that is recorded once holds what was recorded for it; one that is never recorded
      is left as it was. */
  lemma {:induction false} RecordedOnce(status: Status, services: seq<Service>, n: nat, m: nat, key: string)
    requires m < |services| && n <= |services|
    requires forall i :: 0 <= i < |services| && i != m ==> RecordedKey(services[i]) != key
    ensures if m < n && RecordedKey(services[m]) == key
            then key in RecordAll(status, services, n) && RecordAll(status, services, n)[key] == Recorded(services[m])
            else (key in RecordAll(status, services, n) <==> key in status)
                 && (key in status ==> RecordAll(status, services, n)[key] == status[key])
  {
    hide RecordedKey, Recorded;
    if n > 0 {
      RecordedOnce(status, services, n - 1, m, key);
    }
  }

  /** The key a generated Service is recorded under is the expected one exactly when it
      carries origin labels (or happens to keep namespace and name). */
  lemma RecordedKeyIff(r: Route, s: Service, appName: string, t: Table, global: bool, annotations: Option<Labels>)
    requires |s.uid| >= NAME_SUFFIX_LENGTH && LabelOr(s.labels, LABEL_TYPE, "") != BRIDGE_SERVICE
    requires '/' !in s.namespace && '/' !in r.namespace && '/' !in LabelOr(s.labels, LABEL_ORIGIN_NAMESPACE, "")
    ensures var g := GeneratedFor(r, s, appName, t, global, annotations);
            RecordedKey(g) == StatusKey(s)
            <==> LabelOr(s.labels, LABEL_ORIGIN_NAMESPACE, r.namespace) == s.namespace
                 && (LABEL_ORIGIN_NAME in s.labels || g.name == s.name)
  {
    hide GenerateName;
    var g := GeneratedFor(r, s, appName, t, global, annotations);
    if RecordedKey(g) == StatusKey(s) {
      ServiceMapKeyInjective(OriginNamespace(g), OriginName(g), s.namespace, OriginName(s));
    }
  }

  /** A bridge is recorded in the controller's namespace under its own name. */
  lemma BridgeRecorded(g: Service, appName: string, controllerNamespace: string)
    ensures var b := Bridge(g, appName, controllerNamespace);
            RecordedKey(b) == ServiceMapKey(controllerNamespace, g.name)
            && Recorded(b) == RouteServiceStatus(g.name, controllerNamespace, g.name, b.ports)
  {
    BridgeLabels(g, appName, controllerNamespace);
  }

  lemma BridgeLabels(g: Service, appName: string, controllerNamespace: string)
    ensures var l := Bridge(g, appName, controllerNamespace).labels;
            && LABEL_TYPE in l && l[LABEL_TYPE] == BRIDGE_SERVICE
            && LABEL_ORIGIN_NAME in l && l[LABEL_ORIGIN_NAME] == g.name
            && LABEL_ORIGIN_NAMESPACE in l && l[LABEL_ORIGIN_NAMESPACE] == g.namespace
  {
    assert |LABEL_TYPE| == 22 && |LABEL_ORIGIN_NAME| == 25 && |LABEL_ORIGIN_NAMESPACE| == 23
           && |LABEL_MANAGED_BY| == 24;
  }

  // ----- removing orphans -----

  /** What a pass works with besides the status: the wanted keys, where things live, and
      which deletions the API server refuses. */
  datatype Context = Context(desired: set<string>, global: bool, routeNamespace: string, controllerNamespace: string,
                             refused: set<ObjectKey>)

  /** The keys cleanup wants: those of the services in the route's spec. */
  function WantedKeys(services: seq<Service>): set<string> {
    set s | s in services :: StatusKey(s)
  }

  lemma WantedStep(services: seq<Service>, i: nat)
    requires i < |services|
    ensures WantedKeys(services[..i + 1]) == WantedKeys(services[..i]) + {StatusKey(services[i])}
  {
    hide StatusKey;
    assert services[..i + 1] == services[..i] + [services[i]];
    forall k
      ensures k in WantedKeys(services[..i + 1]) <==> k in WantedKeys(services[..i]) || k == StatusKey(services[i]) {
      if k == StatusKey(services[i]) {
        assert services[i] in services[..i + 1];
      }
    }
  }

  function ContextOf(r: Route, global: bool, controllerNamespace: string, refused: set<ObjectKey>): Context {
    Context(WantedKeys(SourceServices(r)), global, r.namespace, controllerNamespace, refused)
  }

  predicate IsBridge(c: Context, v: RouteServiceStatus) {
    c.global && v.namespace == c.controllerNamespace
  }

  /** Some other entry of the current status still has the bridge's generated name. */
  predicate Backed(status: Status, v: RouteServiceStatus) {
    exists k :: k in status && status[k].generatedName == v.generatedName && status[k].namespace != v.namespace
  }

  predicate Keeps(c: Context, status: Status, key: string)
    requires key in status
  {
    key in c.desired || (IsBridge(c, status[key]) && Backed(status, status[key]))
  }

  function ObjectOf(c: Context, v: RouteServiceStatus): ObjectKey {
    (if IsBridge(c, v) then c.controllerNamespace else c.routeNamespace, v.generatedName)
  }

  /** The Services behind the entries that were removed: a bridge in the controller's namespace,
      any other in the route's. */
  function RemovedObjects(c: Context, before: Status, after: Status): set<ObjectKey> {
    set k | k in before && k !in after ::
      (if c.global && before[k].namespace == c.controllerNamespace then c.controllerNamespace else c.routeNamespace,
       before[k].generatedName)
  }

  /** The objects of all entries. */
  function AllObjects(c: Context, status: Status): set<ObjectKey> {
    RemovedObjects(c, status, map[])
  }

  datatype Pass = Pass(status: Status, deleted: set<ObjectKey>, ok: bool)

  /** The pass after the first n keys of the iteration order. */
  function PassOver(c: Context, status: Status, order: seq<string>, n: nat): Pass
    requires n <= |order|
  {
    if n == 0 then Pass(status, {}, true)
    else
      var before := PassOver(c, status, order, n - 1);
      var key := order[n - 1];
      if !before.ok || key !in before.status || Keeps(c, before.status, key) then before
      else
        var o := ObjectOf(c, before.status[key]);
        if o in c.refused then before.(ok := false)
        else Pass(before.status - {key}, before.deleted + {o}, true)
  }

  /** The status map is ranged over in any order, each key once. */
  ghost predicate Iterates(order: seq<string>, status: Status) {
    Distinct(order) && forall k :: k in order <==> k in status
  }

  /** The endpoint whose ports are given back with an entry. */
  function OrphanKey(c: Context, v: RouteServiceStatus, routeName: string): string {
    RouteEndpointKey(c.routeNamespace, v.namespace, v.generatedName, routeName)
  }

  /** The endpoint belongs to an entry that was removed. */
  predicate Freed(c: Context, before: Status, after: Status, routeName: string, ep: string) {
    exists k :: k in before && k !in after && ep == OrphanKey(c, before[k], routeName)
  }

  /** Exactly the rows of removed entries left the table, and the others are unchanged. */
  ghost predicate RowsFreed(c: Context, before: Status, after: Status, routeName: string, t: Table, t': Table) {
    && (forall e :: e in t' <==> e in t && !Freed(c, before, after, routeName, e))
    && (forall e :: e in t' ==> t'[e] == t[e])
  }

  class RouteState {
    var services: Status
    var objects: set<ObjectKey>
    const allocator: PortAllocator

    constructor (services: Status, objects: set<ObjectKey>, allocator: PortAllocator)
      ensures this.services == services && this.objects == objects && this.allocator == allocator
    {
      this.services, this.objects, this.allocator := services, objects, allocator;
    }

    /** cleanupOrphanedServices; `order` is the order the status map happens to be visited in. */
    method CleanupOrphanedServices(route: Route, global: bool, controllerNamespace: string, refused: set<ObjectKey>,
                                   order: seq<string>)
      returns (ok: bool)
      requires Iterates(order, services) && allocator.Valid()
      modifies this, allocator
      ensures var c := ContextOf(route, global, controllerNamespace, refused);
              var p := PassOver(c, old(services), order, |order|);
              && services == p.status && ok == p.ok && allocator.Valid()
              && objects == old(objects) - RemovedObjects(c, old(services), services)
              && RowsFreed(c, old(services), services, OriginalRouteName(route), old(allocator.portLookup),
                           allocator.portLookup)
    {
      hide PassOver, RowsFreed, Iterates, WantedKeys, StatusKey, RemovedObjects;
      var desired := CollectWanted(SourceServices(route));
      var c := Context(desired, global, route.namespace, controllerNamespace, refused);
      ok := VisitStatus(c, order, OriginalRouteName(route));
    }

    static method CollectWanted(services: seq<Service>) returns (desired: set<string>)
      ensures desired == WantedKeys(services)
    {
      desired := {};
      for i := 0 to |services|
        invariant desired == WantedKeys(services[..i])
      {
        WantedStep(services, i);
        desired := desired + {ServiceMapKey(services[i].namespace, OriginName(services[i]))};
      }
      assert services[..|services|] == services;
    }

    /** cleanup of a route that is deleted: every object of its status, then its ports. */
    method CleanupRoute(route: Route, c: Context, order: seq<string>) returns (ok: bool)
      requires Iterates(order, services) && allocator.Valid()
      modifies this`objects, allocator
      ensures ok <==> AllObjects(c, services) !! c.refused
      ensures ok ==> objects == old(objects) - AllObjects(c, services)
      ensures old(objects) - AllObjects(c, services) <= objects <= old(objects)
      ensures allocator.Valid() && (!ok ==> allocator.portLookup == old(allocator.portLookup))
      ensures ok ==> forall e :: e in allocator.portLookup <==>
                e in old(allocator.portLookup) && !exists s :: s in SourceServices(route) && e == ServiceKey(route, s)
    {
      hide Ports;
      ghost var done: set<ObjectKey> := {};
      for i := 0 to |order|
        invariant allocator.Valid() && allocator.portLookup == old(allocator.portLookup)
        invariant objects == old(objects) - done && done !! c.refused
        invariant done == set k | k in order[..i] && k in services :: ObjectOf(c, services[k])
      {
        assert order[..i + 1] == order[..i] + [order[i]];
        assert order[i] in order && order[i] in services;
        var o := ObjectOf(c, services[order[i]]);
        if o in c.refused {
          return false;
        }
        objects := objects - {o};
        done := done + {o};
      }
      assert order[..|order|] == order;
      assert done == AllObjects(c, services);
      allocator.DeallocatePortsForRoute(route);
      ok := true;
    }

    /** The loop over the status. */
    method VisitStatus(c: Context, order: seq<string>, routeName: string) returns (ok: bool)
      requires Iterates(order, services) && allocator.Valid()
      modifies this, allocator
      ensures var p := PassOver(c, old(services), order, |order|);
              services == p.status && ok == p.ok && objects == old(objects) - p.deleted
      ensures objects == old(objects) - RemovedObjects(c, old(services), services)
      ensures allocator.Valid()
      ensures RowsFreed(c, old(services), services, routeName, old(allocator.portLookup), allocator.portLookup)
    {
      hide RowsFreed, OrphanKey, Ports, Backed, RemovedObjects;
      ghost var s0, o0 := services, objects;
      DeletesRemoved(c, s0, order, |order|);
      NothingFreed(c, s0, routeName, allocator.portLookup);
      assert o0 - {} == o0;
      for i := 0 to |order|
        invariant allocator.Valid()
        invariant PassOver(c, s0, order, i) == Pass(services, PassOver(c, s0, order, i).deleted, true)
        invariant objects == o0 - PassOver(c, s0, order, i).deleted
        invariant forall j :: i <= j < |order| ==> order[j] in services
        invariant forall k :: k in services ==> k in s0 && services[k] == s0[k]
        invariant RowsFreed(c, s0, services, routeName, old(allocator.portLookup), allocator.portLookup)
      {
        var key := order[i];
        var value := services[key];
        ghost var done := PassOver(c, s0, order, i).deleted;
        if key !in c.desired {
          var ns := c.routeNamespace;
          if c.global && value.namespace == c.controllerNamespace {
            var found := HasBacking(value);
            if found {
              continue;
            }
            ns := c.controllerNamespace;
          }
          if (ns, value.generatedName) in c.refused {
            StoppedPass(c, s0, order, i + 1, |order|);
            return false;
          }
          assert objects - {(ns, value.generatedName)} == o0 - done - {(ns, value.generatedName)}
                 == o0 - (done + {(ns, value.generatedName)});
          FreedStep(c, s0, services, key, routeName, old(allocator.portLookup), allocator.portLookup);
          RemoveOrphan(c, key, ns, routeName);
        }
      }
      ok := true;
    }

    method RemoveOrphan(c: Context, key: string, ns: string, routeName: string)
      requires key in services
      modifies this, allocator
      ensures services == old(services) - {key} && objects == old(objects) - {(ns, old(services)[key].generatedName)}
      ensures allocator.Valid()
              && allocator.portLookup == old(allocator.portLookup) - {OrphanKey(c, old(services)[key], routeName)}
    {
      var value := services[key];
      objects := objects - {(ns, value.generatedName)};
      services := services - {key};
      allocator.DeallocateEndpoints([RouteEndpointKey(c.routeNamespace, value.namespace, value.generatedName,
          routeName)]);
    }

    /** The inner search through the current status. */
    method HasBacking(value: RouteServiceStatus) returns (found: bool)
      ensures found == Backed(services, value)
    {
      var todo := services.Keys;
      while todo != {}
        invariant todo <= services.Keys
        invariant forall k :: k in services && k !in todo ==>
                   !(services[k].generatedName == value.generatedName && services[k].namespace != value.namespace)
        decreases |todo|
      {
        var k :| k in todo;
        if services[k].generatedName == value.generatedName && services[k].namespace != value.namespace {
          return true;
        }
        todo := todo - {k};
      }
      return false;
    }
  }

  lemma NothingFreed(c: Context, status: Status, routeName: string, t: Table)
    ensures RowsFreed(c, status, status, routeName, t, t)
  {
  }

  lemma FreedStep(c: Context, before: Status, status: Status, key: string, routeName: string, t: Table, t': Table)
    requires key in status && key in before && before[key] == status[key]
             && RowsFreed(c, before, status, routeName, t, t')
    ensures RowsFreed(c, before, status - {key}, routeName, t, t' - {OrphanKey(c, status[key], routeName)})
  {
    hide OrphanKey;
    forall e
      ensures Freed(c, before, status - {key}, routeName, e)
              <==> Freed(c, before, status, routeName, e) || e == OrphanKey(c, status[key], routeName) {
    }
  }

  lemma {:induction false} StoppedPass(c: Context, status: Status, order: seq<string>, m: nat, n: nat)
    requires m <= n <= |order| && !PassOver(c, status, order, m).ok
    ensures PassOver(c, status, order, n) == PassOver(c, status, order, m)
    decreases n
  {
    if m < n {
      StoppedPass(c, status, order, m, n - 1);
    }
  }

  // ----- what a pass removes -----

  /** Entries are only removed, never changed. */
  lemma {:induction false} PassShrinks(c: Context, status: Status, order: seq<string>, n: nat, k: string)
    requires n <= |order| && k in PassOver(c, status, order, n).status
    ensures k in status && PassOver(c, status, order, n).status[k] == status[k]
  {
    hide Keeps;
    if n > 0 {
      PassShrinks(c, status, order, n - 1, k);
    }
  }

  /** An entry that was removed lost its object. */
  lemma {:induction false} RemovedDeleted(c: Context, status: Status, order: seq<string>, n: nat, k: string)
    requires n <= |order| && k in status && k !in PassOver(c, status, order, n).status
    ensures (if c.global && status[k].namespace == c.controllerNamespace then c.controllerNamespace
             else c.routeNamespace, status[k].generatedName) in PassOver(c, status, order, n).deleted
  {
    hide Keeps;
    if n > 0 {
      if k !in PassOver(c, status, order, n - 1).status {
        RemovedDeleted(c, status, order, n - 1, k);
      } else {
        PassShrinks(c, status, order, n - 1, k);
      }
    }
  }

  /** A deleted object is that of an entry that was removed and that nobody wants. */
  lemma {:induction false} DeletedFrom(c: Context, status: Status, order: seq<string>, n: nat, o: ObjectKey)
    returns (k: string)
    requires n <= |order| && o in PassOver(c, status, order, n).deleted
    ensures k in status && k !in c.desired && k !in PassOver(c, status, order, n).status && o !in c.refused
    ensures o == (if c.global && status[k].namespace == c.controllerNamespace then c.controllerNamespace
                  else c.routeNamespace, status[k].generatedName)
  {
    var before, key := PassOver(c, status, order, n - 1), order[n - 1];
    if o in before.deleted {
      k := DeletedFrom(c, status, order, n - 1, o);
    } else {
      PassShrinks(c, status, order, n - 1, key);
      k := key;
    }
  }

  /** So a pass, completed or not, deletes exactly the Services behind the removed entries. */
  lemma DeletesRemoved(c: Context, status: Status, order: seq<string>, n: nat)
    requires n <= |order|
    ensures PassOver(c, status, order, n).deleted == RemovedObjects(c, status, PassOver(c, status, order, n).status)
  {
    var p := PassOver(c, status, order, n);
    hide PassOver;
    forall o | o in p.deleted ensures o in RemovedObjects(c, status, p.status) {
      var k := DeletedFrom(c, status, order, n, o);
    }
    forall k | k in status && k !in p.status
      ensures (if c.global && status[k].namespace == c.controllerNamespace then c.controllerNamespace
               else c.routeNamespace, status[k].generatedName) in p.deleted
    {
      RemovedDeleted(c, status, order, n, k);
    }
  }

  /** A pass that stops was refused the deletion of an unwanted entry's Service. */
  lemma {:induction false} StopsWhenRefused(c: Context, status: Status, order: seq<string>, n: nat)
    requires n <= |order|
    ensures PassOver(c, status, order, n).ok
            || exists k :: k in status && k in PassOver(c, status, order, n).status && k !in c.desired
                 && (if c.global && status[k].namespace == c.controllerNamespace then c.controllerNamespace
                     else c.routeNamespace, status[k].generatedName) in c.refused
  {
    if n > 0 {
      StopsWhenRefused(c, status, order, n - 1);
      var before, key := PassOver(c, status, order, n - 1), order[n - 1];
      if before.ok && key in before.status {
        PassShrinks(c, status, order, n - 1, key);
      }
    }
  }

  /** A pass never removes a wanted entry, in any order and whatever deletions fail. */
  lemma {:induction false} WantedStays(c: Context, status: Status, order: seq<string>, n: nat, k: string)
    requires n <= |order| && k in status && k in c.desired
    ensures k in PassOver(c, status, order, n).status && PassOver(c, status, order, n).status[k] == status[k]
  {
    if n > 0 {
      WantedStays(c, status, order, n - 1, k);
    }
  }

  /** The entry of a wanted service backs its bridge. */
  predicate BridgeOf(c: Context, status: Status, b: string, k: string) {
    b in status && k in status && k in c.desired && IsBridge(c, status[b])
    && status[k].generatedName == status[b].generatedName && status[k].namespace != c.controllerNamespace
  }

  /** Nor the bridge of a wanted service. */
  lemma {:induction false} WantedBridgeStays(c: Context, status: Status, order: seq<string>, n: nat, b: string,
                                             k: string)
    requires n <= |order| && BridgeOf(c, status, b, k)
    ensures b in PassOver(c, status, order, n).status && PassOver(c, status, order, n).status[b] == status[b]
  {
    if n > 0 {
      WantedBridgeStays(c, status, order, n - 1, b, k);
      WantedStays(c, status, order, n - 1, k);
      var s := PassOver(c, status, order, n - 1).status;
      assert Backed(s, s[b]);
    }
  }

  /** No wanted service lives in the controller namespace, and services with one generated
      name in the route's namespace are one service. */
  predicate WellNamed(c: Context, status: Status) {
    && (forall k :: k in status && k in c.desired && c.global ==> status[k].namespace != c.controllerNamespace)
    && (forall k, k' | k in status && k' in status && !IsBridge(c, status[k]) && !IsBridge(c, status[k']) ::
          status[k].generatedName == status[k'].generatedName ==> k == k')
  }

  /** Nor the object behind either, in any order and whatever deletions fail. */
  lemma {:induction false} WantedObjectsStay(c: Context, status: Status, order: seq<string>, n: nat, k: string)
    requires n <= |order| && WellNamed(c, status) && k in status && k in c.desired
    ensures (c.routeNamespace, status[k].generatedName) !in PassOver(c, status, order, n).deleted
    ensures c.global ==> (c.controllerNamespace, status[k].generatedName) !in PassOver(c, status, order, n).deleted
  {
    if n > 0 {
      WantedObjectsStay(c, status, order, n - 1, k);
      WantedStays(c, status, order, n - 1, k);
      var before, key := PassOver(c, status, order, n - 1), order[n - 1];
      if key in before.status {
        PassShrinks(c, status, order, n - 1, key);
        assert status[key].generatedName == status[k].generatedName && IsBridge(c, status[key])
               ==> Backed(before.status, before.status[key]);
      }
    }
  }

  // ----- two passes converge -----

  lemma {:induction false} VisitedOrphanGone(c: Context, status: Status, order: seq<string>, n: nat, i: nat)
    requires i < n <= |order| && PassOver(c, status, order, n).ok && order[i] in status
    requires order[i] !in c.desired && !IsBridge(c, status[order[i]])
    ensures order[i] !in PassOver(c, status, order, n).status
    decreases n
  {
    var key := order[i];
    if i < n - 1 {
      VisitedOrphanGone(c, status, order, n - 1, i);
    } else if key in PassOver(c, status, order, n - 1).status {
      PassShrinks(c, status, order, n - 1, key);
    }
  }

  /** After one completed pass the only unwanted entries left are bridges. */
  lemma OnePass(c: Context, status: Status, order: seq<string>, k: string)
    requires Iterates(order, status) && PassOver(c, status, order, |order|).ok
    requires k in PassOver(c, status, order, |order|).status
    ensures k in status && PassOver(c, status, order, |order|).status[k] == status[k]
            && (k in c.desired || IsBridge(c, status[k]))
  {
    PassShrinks(c, status, order, |order|, k);
    if k !in c.desired && !IsBridge(c, status[k]) {
      assert k in order;
      var i :| 0 <= i < |order| && order[i] == k;
      VisitedOrphanGone(c, status, order, |order|, i);
    }
  }

  /** Without bridges one pass leaves exactly the wanted entries and deletes exactly the other
      Services. */
  lemma OnePassShared(c: Context, status: Status, order: seq<string>)
    requires Iterates(order, status) && PassOver(c, status, order, |order|).ok && !c.global
    ensures PassOver(c, status, order, |order|).status == map k | k in status && k in c.desired :: status[k]
    ensures PassOver(c, status, order, |order|).deleted
            == set k | k in status && k !in c.desired :: (c.routeNamespace, status[k].generatedName)
  {
    var r := PassOver(c, status, order, |order|).status;
    DeletesRemoved(c, status, order, |order|);
    hide PassOver;
    forall k | k in r ensures k in status && k in c.desired && r[k] == status[k] {
      OnePass(c, status, order, k);
    }
    forall k | k in status && k in c.desired ensures k in r {
      WantedStays(c, status, order, |order|, k);
    }
  }

  lemma {:induction false} VisitedBridgeGone(c: Context, status: Status, order: seq<string>, n: nat, i: nat)
    requires i < n <= |order| && PassOver(c, status, order, n).ok && order[i] in status && order[i] !in c.desired
    requires forall k :: k in status && status[k].generatedName == status[order[i]].generatedName ==>
              status[k].namespace == status[order[i]].namespace
    ensures order[i] !in PassOver(c, status, order, n).status
    decreases n
  {
    var key := order[i];
    if i < n - 1 {
      VisitedBridgeGone(c, status, order, n - 1, i);
    } else if key in PassOver(c, status, order, n - 1).status {
      var s := PassOver(c, status, order, n - 1).status;
      PassShrinks(c, status, order, n - 1, key);
      forall k | k in s && s[k].generatedName == s[key].generatedName ensures s[k].namespace == s[key].namespace {
        PassShrinks(c, status, order, n - 1, k);
      }
      assert !Keeps(c, s, key);
    }
  }

  /** What should remain: the wanted entries that are recorded, and their bridges. */
  function Settled(c: Context, status: Status): Status {
    map k | k in status && (k in c.desired || exists w :: w in status && BridgeOf(c, status, k, w)) :: status[k]
  }

  lemma SecondPassMember(c: Context, status: Status, first: seq<string>, second: seq<string>, k: string)
    requires Iterates(first, status) && PassOver(c, status, first, |first|).ok && WellNamed(c, status) && c.global
    requires var s := PassOver(c, status, first, |first|).status;
            Iterates(second, s) && PassOver(c, s, second, |second|).ok
    requires k in PassOver(c, PassOver(c, status, first, |first|).status, second, |second|).status
    ensures k in Settled(c, status)
  {
    var s := PassOver(c, status, first, |first|).status;
    hide PassOver;
    PassShrinks(c, s, second, |second|, k);
    OnePass(c, status, first, k);
    if k !in c.desired {
      if forall w :: w in s && s[w].generatedName == s[k].generatedName ==> s[w].namespace == s[k].namespace {
        assert k in second;
        var i :| 0 <= i < |second| && second[i] == k;
        VisitedBridgeGone(c, s, second, |second|, i);
        assert false;
      }
      var w :| w in s && s[w].generatedName == s[k].generatedName && s[w].namespace != s[k].namespace;
      OnePass(c, status, first, w);
      assert BridgeOf(c, status, k, w);
    }
  }

  /** In every pair of iteration orders two completed passes leave exactly the wanted entries that
      are recorded plus their bridges, and delete exactly the Services and bridges behind the
      other entries. */
  lemma TwoPassesSettle(c: Context, status: Status, first: seq<string>, second: seq<string>)
    requires Iterates(first, status) && PassOver(c, status, first, |first|).ok && WellNamed(c, status) && c.global
    requires var s := PassOver(c, status, first, |first|).status;
            Iterates(second, s) && PassOver(c, s, second, |second|).ok
    ensures PassOver(c, PassOver(c, status, first, |first|).status, second, |second|).status == Settled(c, status)
    ensures PassOver(c, status, first, |first|).deleted
            + PassOver(c, PassOver(c, status, first, |first|).status, second, |second|).deleted
            == set k | k in status && k !in Settled(c, status) ::
                 (if c.global && status[k].namespace == c.controllerNamespace then c.controllerNamespace
                  else c.routeNamespace, status[k].generatedName)
  {
    SecondPassLeaves(c, status, first, second);
    var s := PassOver(c, status, first, |first|).status;
    var r := PassOver(c, s, second, |second|).status;
    DeletesRemoved(c, status, first, |first|);
    DeletesRemoved(c, s, second, |second|);
    hide PassOver, Iterates, WellNamed, Settled;
    forall k | k in s ensures k in status && s[k] == status[k] {
      PassShrinks(c, status, first, |first|, k);
    }
    forall k | k in r ensures k in s {
      PassShrinks(c, s, second, |second|, k);
    }
    RemovedTwice(c, status, s, r);
  }

  lemma RemovedTwice(c: Context, a: Status, b: Status, r: Status)
    requires (forall k :: k in b ==> k in a && b[k] == a[k]) && forall k :: k in r ==> k in b
    ensures RemovedObjects(c, a, b) + RemovedObjects(c, b, r) == RemovedObjects(c, a, r)
  {
  }

  lemma SecondPassLeaves(c: Context, status: Status, first: seq<string>, second: seq<string>)
    requires Iterates(first, status) && PassOver(c, status, first, |first|).ok && WellNamed(c, status) && c.global
    requires var s := PassOver(c, status, first, |first|).status;
            Iterates(second, s) && PassOver(c, s, second, |second|).ok
    ensures PassOver(c, PassOver(c, status, first, |first|).status, second, |second|).status == Settled(c, status)
  {
    var s := PassOver(c, status, first, |first|).status;
    var r := PassOver(c, s, second, |second|).status;
    hide PassOver, Iterates, WellNamed;
    forall k | k in r ensures k in Settled(c, status) && r[k] == status[k] {
      SecondPassMember(c, status, first, second, k);
      PassShrinks(c, s, second, |second|, k);
      PassShrinks(c, status, first, |first|, k);
    }
    forall k | k in Settled(c, status) ensures k in r {
      if k in c.desired {
        WantedStays(c, status, first, |first|, k);
        WantedStays(c, s, second, |second|, k);
      } else {
        var w :| BridgeOf(c, status, k, w);
        WantedBridgeStays(c, status, first, |first|, k, w);
        WantedStays(c, status, first, |first|, w);
        WantedBridgeStays(c, s, second, |second|, k, w);
      }
    }
  }

  /** One pass is not always enough: a bridge visited before its orphaned service stays. */
  lemma OnePassMayLeaveBridge(c: Context, b: string, k: string, v: RouteServiceStatus, w: RouteServiceStatus)
    requires c.global && c.desired == {} && c.refused == {} && b != k
    requires v.namespace == c.controllerNamespace && w.namespace != c.controllerNamespace
             && v.generatedName == w.generatedName
    ensures b in PassOver(c, map[b := v, k := w], [b, k], 2).status
    ensures b !in PassOver(c, map[b := v, k := w], [k, b], 2).status
  {
    var s := map[b := v, k := w];
    assert PassOver(c, s, [b, k], 0) == Pass(s, {}, true);
    assert s[k].generatedName == s[b].generatedName && Backed(s, s[b]);
    assert PassOver(c, s, [b, k], 1) == Pass(s, {}, true);
    assert PassOver(c, s, [k, b], 0) == Pass(s, {}, true);
    var p := PassOver(c, s, [k, b], 1);
    assert p.status.Keys == {b} && p.ok && !Backed(p.status, v);
  }

  /** A settled status is left alone: nothing is removed or deleted, in any order. */
  lemma {:induction false} SettledIsStable(c: Context, status: Status, order: seq<string>, n: nat)
    requires n <= |order| && Settled(c, status) == status
    ensures PassOver(c, status, order, n) == Pass(status, {}, true)
  {
    if n > 0 {
      SettledIsStable(c, status, order, n - 1);
      var key := order[n - 1];
      if key in status && key !in c.desired {
        assert key in Settled(c, status);
        var w :| w in status && BridgeOf(c, status, key, w);
        assert Backed(status, status[key]);
      }
    }
  }

  /** Conversely an entry recorded under a key nobody wants, as that of a service without
      origin labels, costs the service its object on every completed pass. */
  lemma {:induction false} UnwantedObjectDeleted(c: Context, status: Status, order: seq<string>, n: nat, i: nat)
    requires i < n <= |order| && Distinct(order) && PassOver(c, status, order, n).ok
    requires order[i] in status && order[i] !in c.desired && !IsBridge(c, status[order[i]])
    ensures (c.routeNamespace, status[order[i]].generatedName) in PassOver(c, status, order, n).deleted
    decreases n
  {
    if i < n - 1 {
      UnwantedObjectDeleted(c, status, order, n - 1, i);
    } else {
      NotVisitedStays(c, status, order, n - 1, order[i]);
      PassShrinks(c, status, order, n - 1, order[i]);
    }
  }

  /** After a completed pass the object of an entry that is not a bridge is deleted if and only if
      nobody wants its key. */
  lemma DeletedIff(c: Context, status: Status, order: seq<string>, k: string)
    requires Iterates(order, status) && PassOver(c, status, order, |order|).ok && WellNamed(c, status)
    requires k in status && !IsBridge(c, status[k])
    ensures (c.routeNamespace, status[k].generatedName) in PassOver(c, status, order, |order|).deleted
            <==> k !in c.desired
  {
    hide PassOver, WellNamed;
    if k in c.desired {
      WantedObjectsStay(c, status, order, |order|, k);
    } else {
      var i: nat :| i < |order| && order[i] == k;
      UnwantedObjectDeleted(c, status, order, |order|, i);
    }
  }

  /** So a service of the spec whose Service is recorded loses it on the next completed pass if
      and only if it carries no origin labels and does not happen to keep namespace and name. */
  lemma ServiceLostIff(r: Route, s: Service, appName: string, t: Table, global: bool, annotations: Option<Labels>,
                       controllerNamespace: string, refused: set<ObjectKey>, status: Status, order: seq<string>)
    requires |s.uid| >= NAME_SUFFIX_LENGTH && LabelOr(s.labels, LABEL_TYPE, "") != BRIDGE_SERVICE
             && s in SourceServices(r)
    requires '/' !in s.namespace && '/' !in r.namespace && '/' !in LabelOr(s.labels, LABEL_ORIGIN_NAMESPACE, "")
    requires var c, g := ContextOf(r, global, controllerNamespace, refused),
             GeneratedFor(r, s, appName, t, global, annotations);
             && Iterates(order, status) && PassOver(c, status, order, |order|).ok && WellNamed(c, status)
             && RecordedKey(g) in status && status[RecordedKey(g)] == Recorded(g) && !IsBridge(c, Recorded(g))
             && forall s' :: s' in SourceServices(r) && s' != s ==> StatusKey(s') != RecordedKey(g)
    ensures var c, g := ContextOf(r, global, controllerNamespace, refused),
            GeneratedFor(r, s, appName, t, global, annotations);
            (r.namespace, g.name) in PassOver(c, status, order, |order|).deleted
            <==> !(LabelOr(s.labels, LABEL_ORIGIN_NAMESPACE, r.namespace) == s.namespace
                   && (LABEL_ORIGIN_NAME in s.labels || g.name == s.name))
  {
    var c, g := ContextOf(r, global, controllerNamespace, refused), GeneratedFor(r, s, appName, t, global, annotations);
    RecordedKeyIff(r, s, appName, t, global, annotations);
    hide PassOver, WellNamed, RecordedKey, GeneratedFor, StatusKey, Iterates, IsBridge;
    DeletedIff(c, status, order, RecordedKey(g));
    assert RecordedKey(g) in c.desired <==> StatusKey(s) == RecordedKey(g);
  }

  // ----- objects that routes share -----

  /** Some entry of the status that nobody wants stands for a Service of that name. */
  predicate DropsName(c: Context, status: Status, name: string) {
    exists k :: k in status && k !in c.desired && !IsBridge(c, status[k]) && status[k].generatedName == name
  }

  /** A completed pass deletes a Service of the route's namespace if and only if an unwanted entry
      bears its name, whichever route the Service was generated for. */
  lemma NameDeletedIff(c: Context, status: Status, order: seq<string>, name: string)
    requires Iterates(order, status) && PassOver(c, status, order, |order|).ok
             && c.routeNamespace != c.controllerNamespace
    ensures (c.routeNamespace, name) in PassOver(c, status, order, |order|).deleted <==> DropsName(c, status, name)
  {
    hide PassOver;
    if (c.routeNamespace, name) in PassOver(c, status, order, |order|).deleted {
      var k := DeletedFrom(c, status, order, |order|, (c.routeNamespace, name));
      assert status[k].generatedName == name && !IsBridge(c, status[k]);
    }
    if DropsName(c, status, name) {
      var k :| k in status && k !in c.desired && !IsBridge(c, status[k]) && status[k].generatedName == name;
      var i: nat :| i < |order| && order[i] == k;
      UnwantedObjectDeleted(c, status, order, |order|, i);
    }
  }

  /** Another route of the tenant keeps its Service through the pass if and only if no unwanted
      entry bears that Service's name. */
  lemma OtherRouteSafeIff(c: Context, status: Status, order: seq<string>, r': Route, s': Service, appName: string,
                          t: Table, annotations: Option<Labels>)
    requires Iterates(order, status) && PassOver(c, status, order, |order|).ok
             && c.routeNamespace != c.controllerNamespace
    requires |s'.uid| >= NAME_SUFFIX_LENGTH && r'.namespace == c.routeNamespace
    ensures var g' := GeneratedFor(r', s', appName, t, c.global, annotations);
            (g'.namespace, g'.name) !in PassOver(c, status, order, |order|).deleted <==> !DropsName(c, status, g'.name)
  {
    hide GenerateName, PassOver, Iterates;
    NameDeletedIff(c, status, order, GeneratedFor(r', s', appName, t, c.global, annotations).name);
  }

  /** Two routes of one tenant list one service; the one that drops it takes the other's Service
      away, whatever becomes of its own ports. */
  lemma SharedServiceDeleted(r: Route, r': Route, s: Service, appName: string, t: Table, global: bool,
                             controllerNamespace: string)
    requires |s.uid| >= NAME_SUFFIX_LENGTH && LabelOr(s.labels, LABEL_TYPE, "") != BRIDGE_SERVICE
    requires SourceServices(r) == [] && r'.namespace == r.namespace
    requires global ==> RecordedNamespaceFor(r, s) != controllerNamespace
    ensures var c, g := ContextOf(r, global, controllerNamespace, {}), GeneratedFor(r, s, appName, t, global, None);
            var g' := GeneratedFor(r', s, appName, t, global, None);
            (g'.namespace, g'.name) in PassOver(c, Record(map[], g), [RecordedKey(g)], 1).deleted
  {
    hide GenerateName;
    var c := ContextOf(r, global, controllerNamespace, {});
    OrphanRowFreedIff(c, r, s, appName, t, None);
  }

  /** Deleting a route takes away exactly the objects its status names, another route's among them
      if it has such a name. */
  lemma CleanupSafeIff(c: Context, status: Status, name: string)
    requires c.routeNamespace != c.controllerNamespace
    ensures (c.routeNamespace, name) in AllObjects(c, status)
            <==> exists k :: k in status && !IsBridge(c, status[k]) && status[k].generatedName == name
  {
  }

  lemma {:induction false} NotVisitedStays(c: Context, status: Status, order: seq<string>, n: nat, k: string)
    requires n <= |order| && k in status && k !in order[..n]
    ensures k in PassOver(c, status, order, n).status
  {
    if n > 0 {
      assert order[..n] == order[..n - 1] + [order[n - 1]];
      NotVisitedStays(c, status, order, n - 1, k);
    }
  }

  function RecordedNamespaceFor(r: Route, s: Service): string {
    LabelOr(s.labels, LABEL_ORIGIN_NAMESPACE, r.namespace)
  }

  lemma RouteKeyCancel(routeNamespace: string, ns: string, name: string, ns': string, name': string, route: string)
    ensures RouteEndpointKey(routeNamespace, ns, name, route) == RouteEndpointKey(routeNamespace, ns', name', route)
            <==> ns + "-" + name == ns' + "-" + name'
  {
    var prefix, suffix, x, y := "tenant-" + routeNamespace + "-route-", "-" + route, ns + "-" + name, ns' + "-" + name';
    assert RouteEndpointKey(routeNamespace, ns, name, route) == prefix + x + suffix;
    assert RouteEndpointKey(routeNamespace, ns', name', route) == prefix + y + suffix;
    if prefix + x + suffix == prefix + y + suffix {
      CancelSuffix(prefix + x, suffix, prefix + y, suffix);
      CancelPrefix(prefix, x, prefix, y);
    }
  }

  /** The endpoint freed with an orphan is made of the recorded namespace and the generated
      name, so it is the service's own endpoint exactly when these join to the same text as
      its namespace and name. */
  lemma OrphanKeyIff(c: Context, r: Route, s: Service, appName: string, t: Table, annotations: Option<Labels>)
    requires |s.uid| >= NAME_SUFFIX_LENGTH && c.routeNamespace == r.namespace
             && LabelOr(s.labels, LABEL_TYPE, "") != BRIDGE_SERVICE
    ensures OrphanKey(c, Recorded(GeneratedFor(r, s, appName, t, c.global, annotations)), OriginalRouteName(r))
            == ServiceKey(r, s)
            <==> RecordedNamespaceFor(r, s) + "-" + GenerateName(c.global, s.uid, OriginName(s), s.namespace)
                 == s.namespace + "-" + s.name
  {
    hide GenerateName;
    RouteKeyCancel(r.namespace, RecordedNamespaceFor(r, s), GenerateName(c.global, s.uid, OriginName(s), s.namespace),
                   s.namespace, s.name, OriginalRouteName(r));
  }

  /** A service that is labelled with its own namespace and name gets a longer name unless
      that is cut, so its ports are never given back. */
  lemma OwnRowNotFreed(c: Context, r: Route, s: Service, appName: string, t: Table, annotations: Option<Labels>)
    requires |s.uid| >= NAME_SUFFIX_LENGTH && c.routeNamespace == r.namespace
             && LabelOr(s.labels, LABEL_TYPE, "") != BRIDGE_SERVICE
    requires RecordedNamespaceFor(r, s) == s.namespace && OriginName(s) == s.name
    requires |s.namespace| + 1 + |s.name| < MAX_NAME_LENGTH
    ensures OrphanKey(c, Recorded(GeneratedFor(r, s, appName, t, c.global, annotations)),
                      OriginalRouteName(r)) != ServiceKey(r, s)
  {
    OrphanKeyIff(c, r, s, appName, t, annotations);
    var name := GenerateName(c.global, s.uid, s.name, s.namespace);
    assert |name| > |s.name|;
    assert |s.namespace + "-" + name| != |s.namespace + "-" + s.name|;
  }

  /** A pass over the one entry of a service that is no longer wanted removes the entry and
      the Service, and frees the service's row exactly under the condition above. */
  lemma OrphanRowFreedIff(c: Context, r: Route, s: Service, appName: string, t: Table, annotations: Option<Labels>)
    requires |s.uid| >= NAME_SUFFIX_LENGTH && c.routeNamespace == r.namespace
             && LabelOr(s.labels, LABEL_TYPE, "") != BRIDGE_SERVICE
    requires c.desired == {} && c.refused == {} && (c.global ==> RecordedNamespaceFor(r, s) != c.controllerNamespace)
    ensures var g := GeneratedFor(r, s, appName, t, c.global, annotations);
            var status, key := Record(map[], g), RecordedKey(g);
            PassOver(c, status, [key], 1) == Pass(map[], {(r.namespace, g.name)}, true)
            && (Freed(c, status, map[], OriginalRouteName(r), ServiceKey(r, s))
                <==> RecordedNamespaceFor(r, s) + "-" + GenerateName(c.global, s.uid, OriginName(s), s.namespace)
                     == s.namespace + "-" + s.name)
  {
    OrphanKeyIff(c, r, s, appName, t, annotations);
    hide GenerateName, OrphanKey, RecordedKey, ServiceKey;
    var g := GeneratedFor(r, s, appName, t, c.global, annotations);
    var status, key := Record(map[], g), RecordedKey(g);
    assert PassOver(c, status, [key], 0) == Pass(status, {}, true);
    assert status - {key} == map[];
    assert status[key] == Recorded(g) && Recorded(g).namespace == RecordedNamespaceFor(r, s)
           && Recorded(g).generatedName == g.name;
  }

  /** A service shop/web of a route in tenant namespace t1 that is dropped from the route
      leaves its row in the table. */
  lemma OrphanRowStays(r: Route, uid: string, ports: seq<ServicePort>, c: Context, t: Table)
    requires |uid| >= 4 && r.namespace == "t1" && c == Context({}, false, "t1", "kubelb", {})
    ensures var s :=
            Service("web", "shop", uid, map[LABEL_ORIGIN_NAMESPACE := "shop", LABEL_ORIGIN_NAME := "web"], None,
                    "ClusterIP", None, ports);
            var g := GeneratedFor(r, s, "", t, false, None);
            var status := Record(map[], g);
            PassOver(c, status, [RecordedKey(g)], 1).status == map[]
                && !Freed(c, status, map[], OriginalRouteName(r), ServiceKey(r, s))
  {
    var s :=
        Service("web", "shop", uid, map[LABEL_ORIGIN_NAMESPACE := "shop", LABEL_ORIGIN_NAME := "web"], None,
                "ClusterIP", None, ports);
    assert |LABEL_TYPE| == 22 && |LABEL_ORIGIN_NAME| == 25 && |LABEL_ORIGIN_NAMESPACE| == 23;
    OrphanRowFreedIff(c, r, s, "", t, None);
    OrphanKeyIff(c, r, s, "", t, None);
    OwnRowNotFreed(c, r, s, "", t, None);
  }
}
