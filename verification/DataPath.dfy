/** The data path end to end: whatever the allocator draws and whatever other controllers do
    in between, a connection to a published port ends at the tenant's NodePorts and at
    nothing else. */
module DataPath {
  import opened Text
  import opened Keys
  import opened Api
  import opened PortTable
  import opened AllocatorRuns
  import opened PortRequests
  import opened LoadBalancerMapping
  import opened Snapshot
  import opened SnapshotClosure
  import opened AddressMemo
  import opened ServiceGeneration
  import opened Forwarding
  import opened ListenerExclusivity

  // ----- what Envoy does with a port -----

  /** Envoy listens on that port, and whatever listens there is of that kind and forwards to
      exactly those IPs in order, each at the NodePort. */
  ghost predicate Serves(r: Resources, port: int, kind: ListenerKind, ips: seq<string>, nodePort: int) {
    && (exists name :: name in r.listeners && r.listeners[name].port == port)
    && (forall name | name in r.listeners && r.listeners[name].port == port ::
          && r.listeners[name].kind == kind && r.listeners[name].cluster in r.clusters
          && ForwardsTo(r.clusters[r.listeners[name].cluster].backends, ips, nodePort))
  }

  lemma ReachedIsServed(lbs: seq<LoadBalancer>, routes: seq<Route>, store: Store, t: Table, port: int,
                        kind: ListenerKind, addresses: seq<Address>, nodePort: int)
    requires PlainInputs(lbs, routes) && KeysSeparate(lbs, routes) && Served(t, lbs, routes) && Injective(t)
             && InRange(t)
    requires SnapshotOf(lbs, routes, store, t).Some?
             && Reaches(SnapshotOf(lbs, routes, store, t).value, port, kind, Backends(addresses, nodePort))
    ensures Serves(Indexed(SnapshotOf(lbs, routes, store, t).value), port, kind, Ips(addresses), nodePort)
  {
    hide *;
    var c := SnapshotOf(lbs, routes, store, t).value;
    ReachesOnly(lbs, routes, store, t, port, kind, Backends(addresses, nodePort));
    SnapshotIndexed(lbs, routes, store, t);
    ListenersHaveClusters(lbs, routes, store, t);
    BackendsForward(addresses, nodePort, Backends(addresses, nodePort));
    IndexServes(c, Indexed(c), port, kind, Backends(addresses, nodePort), Ips(addresses), nodePort);
  }

  predicate HasCluster(c: EnvoyConfig, name: string) {
    exists i :: 0 <= i < |c.clusters| && c.clusters[i].name == name
  }

  lemma ListenersHaveClusters(lbs: seq<LoadBalancer>, routes: seq<Route>, store: Store, t: Table)
    requires PlainInputs(lbs, routes) && SnapshotOf(lbs, routes, store, t).Some?
    ensures var c := SnapshotOf(lbs, routes, store, t).value;
            forall k :: 0 <= k < |c.listeners| ==> HasCluster(c, c.listeners[k].cluster)
  {
    hide PlainInputs, SnapshotOf;
    SnapshotClosed(lbs, routes, store, t);
  }

  lemma IndexServes(c: EnvoyConfig, r: Resources, port: int, kind: ListenerKind, backends: seq<Backend>,
                    ips: seq<string>, nodePort: int)
    requires Reaches(c, port, kind, backends) && OnlyReaches(c, port, kind, backends)
    requires ForwardsTo(backends, ips, nodePort)
    requires forall i :: 0 <= i < |c.clusters| ==>
              c.clusters[i].name in r.clusters && r.clusters[c.clusters[i].name] == c.clusters[i]
    requires forall i :: 0 <= i < |c.listeners| ==>
              c.listeners[i].name in r.listeners && r.listeners[c.listeners[i].name] == c.listeners[i]
    requires forall name :: name in r.listeners ==> r.listeners[name] in c.listeners
    requires forall k :: 0 <= k < |c.listeners| ==> HasCluster(c, c.listeners[k].cluster)
    ensures Serves(r, port, kind, ips, nodePort)
  {
    hide ForwardsTo;
    var l, k :| 0 <= l < |c.listeners| && 0 <= k < |c.clusters|
      && c.listeners[l].port == port && c.listeners[l].kind == kind
      && c.listeners[l].cluster == c.clusters[k].name && c.clusters[k].backends == backends;
    assert c.listeners[l].name in r.listeners;
    forall name | name in r.listeners && r.listeners[name].port == port
      ensures r.listeners[name].kind == kind && r.listeners[name].cluster in r.clusters
      ensures r.clusters[r.listeners[name].cluster].backends == backends
    {
      var l' :| 0 <= l' < |c.listeners| && c.listeners[l'] == r.listeners[name];
      assert HasCluster(c, c.listeners[l'].cluster);
      var k' :| 0 <= k' < |c.clusters| && c.clusters[k'].name == c.listeners[l'].cluster;
    }
  }

  // ----- a run with the calls of a reconcile in it -----

  /** The i-th operation of the run makes the request, and up to moment n nobody gives up a key
      of it. */
  ghost predicate MadeAt(ops: seq<Op>, i: nat, n: nat, q: Request) {
    && i < n <= |ops| && ops[i].AllocateOp? && ops[i].ep == q.ep
    && (forall k :: k in q.keys ==> k in ops[i].keys)
    && (forall j, k :: i < j < n && k in q.keys ==> Retains(ops[j], q.ep, k))
  }

  /** Every request for the listed objects was made at some moment before n. Each call is a
      critical section of its own: calls of other controllers may stand before, between and
      after them. */
  ghost predicate Requested(ops: seq<Op>, n: nat, lbs: seq<LoadBalancer>, routes: seq<Route>) {
    forall q | q in Wanted(lbs, routes) :: exists i: nat :: MadeAt(ops, i, n, q)
  }

  lemma RequestHeld(t: Table, ops: seq<Op>, n: nat, lbs: seq<LoadBalancer>, routes: seq<Route>, q: Request, k: string)
    requires n <= |ops| && Run(t, ops, n).Some? && Requested(ops, n, lbs, routes)
    requires q in Wanted(lbs, routes) && k in q.keys
    ensures Has(Run(t, ops, n).value, q.ep, k)
  {
    hide Run, Retains, Has, Wanted;
    var i: nat :| MadeAt(ops, i, n, q);
    AllocatedByCall(t, ops, i, n, k);
  }

  /** Then every published port has a port. */
  lemma RequestedServes(t: Table, ops: seq<Op>, n: nat, lbs: seq<LoadBalancer>, routes: seq<Route>)
    requires n <= |ops| && Run(t, ops, n).Some? && Requested(ops, n, lbs, routes)
    ensures Served(Run(t, ops, n).value, lbs, routes)
  {
    hide Run, Requested, LbKey, ServiceKey, PortKey, AllLbRequests, AllRouteRequests;
    var t' := Run(t, ops, n).value;
    forall a: nat, i: nat, p: nat | a < |lbs| && i < |lbs[a].endpoints| && p < |lbs[a].endpoints[i].ports|
      ensures LbPortServed(t', lbs[a], i, lbs[a].endpoints[i].ports[p])
    {
      LbRequestAt(lbs, a, |lbs|, i);
      var q := LbRequest(lbs[a], i);
      assert q in Wanted(lbs, routes) && q.keys[p] in q.keys;
      RequestHeld(t, ops, n, lbs, routes, q, q.keys[p]);
    }
    forall a: nat, i: nat, p: nat
      | a < |routes| && i < |SourceServices(routes[a])| && p < |SourceServices(routes[a])[i].ports|
      ensures ServicePortServed(t', routes[a], SourceServices(routes[a])[i], SourceServices(routes[a])[i].ports[p])
    {
      RouteRequestAt(routes, a, |routes|, i);
      var q := ServiceRequest(routes[a], SourceServices(routes[a])[i]);
      assert q in Wanted(lbs, routes) && q.keys[p] in q.keys;
      RequestHeld(t, ops, n, lbs, routes, q, q.keys[p]);
    }
  }

  /** The special case in which the calls stand in one block, from moment k on. */
  ghost predicate InOneBlock(ops: seq<Op>, k: nat, n: nat, lbs: seq<LoadBalancer>, routes: seq<Route>,
                             draws: seq<seq<int>>) {
    && |draws| == |Wanted(lbs, routes)| && k + |draws| == n <= |ops|
    && ops[k..n] == Calls(Wanted(lbs, routes), draws)
  }

  lemma BlockRequested(ops: seq<Op>, k: nat, n: nat, lbs: seq<LoadBalancer>, routes: seq<Route>, draws: seq<seq<int>>)
    requires InOneBlock(ops, k, n, lbs, routes, draws)
    requires NamedByUid(lbs) && PlainRoutes(routes) && KeysSeparate(lbs, routes)
    ensures Requested(ops, n, lbs, routes)
  {
    hide Wanted, NamedByUid, PlainRoutes, KeysSeparate;
    WantedDistinct(lbs, routes);
    var all := Wanted(lbs, routes);
    assert forall x :: 0 <= x < |all| ==> ops[k + x] == ops[k..n][x];
    forall q | q in all ensures exists i: nat :: MadeAt(ops, i, n, q) {
      var x :| 0 <= x < |all| && all[x] == q;
      assert ops[k + x] == ops[k..n][x] && ops[k + x].ep == q.ep && ops[k + x].keys == q.keys;
      forall j, key | k + x < j < n && key in q.keys ensures Retains(ops[j], q.ep, key) {
        assert ops[k + (j - k)] == ops[k..n][j - k] && ops[j].ep == all[j - k].ep;
      }
      assert MadeAt(ops, k + x, n, q);
    }
  }

  ghost predicate DistinctDraws(ops: seq<Op>, n: nat)
    requires n <= |ops|
  {
    forall i :: 0 <= i < n && ops[i].AllocateOp? ==> Distinct(ops[i].draws)
  }

  /** A run up to moment n in which the listed objects were asked for, from a sound table and
      with distinct draws. */
  ghost predicate SoundRun(t: Table, ops: seq<Op>, n: nat, lbs: seq<LoadBalancer>, routes: seq<Route>) {
    && n <= |ops| && Run(t, ops, n).Some? && Requested(ops, n, lbs, routes)
    && InRange(t) && Injective(t) && DistinctDraws(ops, n)
  }

  /** Then every published port has a port of its own. */
  lemma ReconcileServes(t: Table, ops: seq<Op>, n: nat, lbs: seq<LoadBalancer>, routes: seq<Route>)
    requires SoundRun(t, ops, n, lbs, routes)
    ensures var t' := Run(t, ops, n).value; Served(t', lbs, routes) && InRange(t') && Injective(t')
  {
    hide Run, InRange, Injective, Served, Requested;
    RequestedServes(t, ops, n, lbs, routes);
    RunInRange(t, ops, n);
    RunInjective(t, ops, n);
  }

  /** Between the two moments, whichever comes first, nobody gives the key up. */
  ghost predicate Undisturbed(ops: seq<Op>, m: nat, n: nat, ep: string, key: string)
    requires m <= |ops| && n <= |ops|
  {
    forall i :: 0 <= i < |ops| && (m <= i < n || n <= i < m) ==> Retains(ops[i], ep, key)
  }

  /** Then it has the same port at both. */
  lemma SamePortAt(t: Table, ops: seq<Op>, m: nat, n: nat, ep: string, key: string)
    requires m <= |ops| && n <= |ops| && Run(t, ops, m).Some? && Run(t, ops, n).Some? && Undisturbed(ops, m, n, ep, key)
    requires Has(Run(t, ops, n).value, ep, key) && (m < n ==> Has(Run(t, ops, m).value, ep, key))
    ensures Has(Run(t, ops, m).value, ep, key) && Run(t, ops, m).value[ep][key] == Run(t, ops, n).value[ep][key]
  {
    hide Run, Retains, Has;
    if m < n {
      Stable(t, ops, m, n, ep, key);
    } else {
      Stable(t, ops, n, m, ep, key);
    }
  }

  // ----- layer 4 -----

  /** The only Service port of the user port's name has its number, protocol and target. */
  lemma L4TargetOf(lb: LoadBalancer, s: Service, ips: seq<string>, useReference: bool, cluster: string,
                   existing: seq<ServicePort>, t: Table, r: seq<ServicePort>, j: nat, p: ServicePort)
    requires Publishes(lb, s, ips, useReference, cluster) && DistinctFrontNames(lb.ports) && j < |s.ports|
    requires Has(t, LbKey(lb, 0), UserPortKey(s.ports[j])) && InRange(t)
    requires Indexable(lb) && IsServicePorts(r, lb, existing, t) && p in r && p.name == PortName(s.ports[j])
    ensures p.port == s.ports[j].port && p.protocol == s.ports[j].protocol
            && p.targetPort == t[LbKey(lb, 0)][UserPortKey(s.ports[j])]
  {
    MappedUpstream(s, ips, useReference, cluster, j);
    UpstreamOfSpec(lb, Mapped(s, ips, useReference, cluster), j);
    MappedShape(s, ips, useReference, cluster);
    PortConversions(t[LbKey(lb, 0)][UserPortKey(s.ports[j])]);
    var i := MemberIsBuilt(r, lb, existing, t, p);
    assert lb.ports[j].name == PortName(s.ports[j]);
    hide IsServicePorts, Upstream, Mapped, Int32;
    assert i == j && p.targetPort == Target(lb, t, j);
  }

  lemma L4PortExists(lb: LoadBalancer, s: Service, ips: seq<string>, useReference: bool, cluster: string,
                     existing: seq<ServicePort>, t: Table, r: seq<ServicePort>, j: nat)
    requires Publishes(lb, s, ips, useReference, cluster) && j < |s.ports| && Indexable(lb)
             && IsServicePorts(r, lb, existing, t)
    ensures exists p :: p in r && p.name == PortName(s.ports[j])
  {
    MappedShape(s, ips, useReference, cluster);
    BuiltPortIn(r, lb, existing, t, j);
    assert lb.ports[j].name == PortName(s.ports[j]);
    assert BuiltPort(lb, existing, t, j).name == PortName(s.ports[j]);
  }

  /** The IPs behind a published Service: the literal list, or the list stored under the tenant's
      default name. */
  function L4Ips(ips: seq<string>, useReference: bool, cluster: string, store: Store): Option<seq<string>> {
    if !useReference then Some(ips)
    else if Ref(cluster, "default") in store then Some(Ips(store[Ref(cluster, "default")]))
    else None
  }

  lemma L4IpsAre(lb: LoadBalancer, s: Service, ips: seq<string>, useReference: bool, cluster: string, store: Store)
    requires Publishes(lb, s, ips, useReference, cluster)
             && DirectAddresses(cluster, lb.endpoints[0], store).Some?
    ensures L4Ips(ips, useReference, cluster, store)
            == Some(Ips(DirectAddresses(cluster, lb.endpoints[0], store).value))
  {
    if !useReference {
      var addresses := DirectAddresses(cluster, lb.endpoints[0], store).value;
      assert Ips(addresses) == ips;
    }
  }

  /** Layer 4: the Service controller builds the Service at moment m of a run, the Envoy
      controller reconciles up to moment n, in either order. The Service has exactly one port
      of the user port's name; it has the user's number and protocol, and on its target port
      Envoy runs a plain proxy to the tenant's addresses at the user port's NodePort and to
      nothing else. */
  lemma L4EndToEnd(s: Service, ips: seq<string>, useReference: bool, cluster: string, lbs: seq<LoadBalancer>, a: nat,
                   routes: seq<Route>, store: Store, t: Table, ops: seq<Op>, n: nat, m: nat,
                   existing: seq<ServicePort>, r: seq<ServicePort>, j: nat)
    requires a < |lbs| && Publishes(lbs[a], s, ips, useReference, cluster) && Indexable(lbs[a]) && j < |s.ports|
    requires AdmittedPorts(s.ports) && (s.ports[j].protocol == TCP || s.ports[j].protocol == UDP)
    requires PlainInputs(lbs, routes) && KeysSeparate(lbs, routes) && SoundRun(t, ops, n, lbs, routes)
    requires m <= |ops| && Run(t, ops, m).Some? && Undisturbed(ops, m, n, LbKey(lbs[a], 0), UserPortKey(s.ports[j]))
    requires m < n ==> Has(Run(t, ops, m).value, LbKey(lbs[a], 0), UserPortKey(s.ports[j]))
    requires IsServicePorts(r, lbs[a], existing, Run(t, ops, m).value)
    requires KeysInjective(Owners(lbs, routes)) && SnapshotOf(lbs, routes, store, Run(t, ops, n).value).Some?
    ensures L4Ips(ips, useReference, cluster, store).Some?
    ensures exists p :: p in r && p.name == PortName(s.ports[j])
    ensures forall p | p in r && p.name == PortName(s.ports[j]) ::
              p.port == s.ports[j].port && p.protocol == s.ports[j].protocol
              && Serves(Indexed(SnapshotOf(lbs, routes, store, Run(t, ops, n).value).value), p.targetPort,
                        L4Kind(s.ports[j].protocol), L4Ips(ips, useReference, cluster, store).value,
                        s.ports[j].nodePort)
  {
    AdmittedNamesDistinct(s, ips, useReference, cluster);
    assert DistinctFrontNames(lbs[a].ports);
    MappedShape(s, ips, useReference, cluster);
    hide *;
    var ep, key, t1, t2 := LbKey(lbs[a], 0), UserPortKey(s.ports[j]), Run(t, ops, m).value, Run(t, ops, n).value;
    ReconcileServes(t, ops, n, lbs, routes);
    ServedLbPort(t2, lbs, routes, a, s, ips, useReference, cluster, j);
    SamePortAt(t, ops, m, n, ep, key);
    RunInRange(t, ops, m);
    L4Listener(lbs, a, s, ips, useReference, cluster, routes, store, t2, j);
    L4PortExists(lbs[a], s, ips, useReference, cluster, existing, t1, r, j);
    L4IpsAre(lbs[a], s, ips, useReference, cluster, store);
    ReachedIsServed(lbs, routes, store, t2, t2[ep][key], L4Kind(s.ports[j].protocol),
                    DirectAddresses(cluster, lbs[a].endpoints[0], store).value, s.ports[j].nodePort);
    forall p | p in r && p.name == PortName(s.ports[j])
      ensures p.port == s.ports[j].port && p.protocol == s.ports[j].protocol && p.targetPort == t2[ep][key]
    {
      L4TargetOf(lbs[a], s, ips, useReference, cluster, existing, t1, r, j, p);
    }
  }

  lemma ServedLbPort(t: Table, lbs: seq<LoadBalancer>, routes: seq<Route>, a: nat, s: Service, ips: seq<string>,
                     useReference: bool, cluster: string, j: nat)
    requires Served(t, lbs, routes) && a < |lbs| && Publishes(lbs[a], s, ips, useReference, cluster) && j < |s.ports|
    ensures Has(t, LbKey(lbs[a], 0), UserPortKey(s.ports[j]))
  {
    MappedShape(s, ips, useReference, cluster);
    hide LbKey, PortKey, Mapped;
    assert LbPortServed(t, lbs[a], 0, lbs[a].endpoints[0].ports[j]);
  }

  // ----- layer 7 -----

  lemma ServedServicePort(t: Table, lbs: seq<LoadBalancer>, routes: seq<Route>, a: nat, i: nat, p: nat)
    requires Served(t, lbs, routes) && a < |routes| && i < |SourceServices(routes[a])|
             && p < |SourceServices(routes[a])[i].ports|
    ensures var s := SourceServices(routes[a])[i];
            Has(t, ServiceKey(routes[a], s), PortKey(s.ports[p].port, s.ports[p].protocol))
  {
    assert ServicePortServed(t, routes[a], SourceServices(routes[a])[i], SourceServices(routes[a])[i].ports[p]);
  }

  lemma PlainUid(lbs: seq<LoadBalancer>, routes: seq<Route>, a: nat, i: nat)
    requires PlainInputs(lbs, routes) && a < |routes| && i < |SourceServices(routes[a])|
    ensures |SourceServices(routes[a])[i].uid| >= NAME_SUFFIX_LENGTH
  {
    PlainRoute(routes, a);
    assert UidShaped(SourceServices(routes[a])[i].uid);
  }

  /** Layer 7, up to the generated Service: the route controller generates it at moment m of a
      run, the Envoy controller reconciles up to moment n, in either order. On the target port
      of each of its ports Envoy forwards to all addresses of the route at that port's
      NodePort and to nothing else. In the shared topology this Service selects Envoy. */
  lemma L7EndToEnd(lbs: seq<LoadBalancer>, routes: seq<Route>, a: nat, i: nat, p: nat, store: Store, t: Table,
                   ops: seq<Op>, n: nat, m: nat, appName: string, global: bool, annotations: Option<Labels>)
    requires a < |routes| && i < |SourceServices(routes[a])| && p < |SourceServices(routes[a])[i].ports|
    requires PlainInputs(lbs, routes) && KeysSeparate(lbs, routes) && SoundRun(t, ops, n, lbs, routes)
    requires m <= |ops| && Run(t, ops, m).Some?
    requires var s := SourceServices(routes[a])[i];
             var ep, key := ServiceKey(routes[a], s), PortKey(s.ports[p].port, s.ports[p].protocol);
             && (s.ports[p].protocol == TCP || s.ports[p].protocol == UDP)
             && Undisturbed(ops, m, n, ep, key) && (m < n ==> Has(Run(t, ops, m).value, ep, key))
    requires KeysInjective(Owners(lbs, routes)) && SnapshotOf(lbs, routes, store, Run(t, ops, n).value).Some?
    ensures |SourceServices(routes[a])[i].uid| >= NAME_SUFFIX_LENGTH
            && AllAddresses(routes[a], store, |routes[a].endpoints|).Some?
    ensures var s := SourceServices(routes[a])[i];
            var g := GeneratedFor(routes[a], s, appName, Run(t, ops, m).value, global, annotations);
            && |g.ports| == |s.ports| && g.ports[p].name == s.ports[p].name
            && g.ports[p].port == s.ports[p].port && g.ports[p].protocol == s.ports[p].protocol
            && g.namespace == routes[a].namespace && g.labels == s.labels && g.annotations == annotations
            && g.kind == (if s.kind == "NodePort" then "ClusterIP" else s.kind) && g.ports[p].nodePort == 0
            && g.selector == (if global then None else Some(map["app.kubernetes.io/name" := appName]))
            && Serves(Indexed(SnapshotOf(lbs, routes, store, Run(t, ops, n).value).value), g.ports[p].targetPort,
                      L7Kind(routes[a], s.ports[p].protocol),
                      Ips(AllAddresses(routes[a], store, |routes[a].endpoints|).value), s.ports[p].nodePort)
  {
    PlainUid(lbs, routes, a, i);
    GeneratedMeta(routes[a], SourceServices(routes[a])[i], appName, Run(t, ops, m).value, global, annotations);
    hide *;
    var s, t1, t2 := SourceServices(routes[a])[i], Run(t, ops, m).value, Run(t, ops, n).value;
    var ep, key := ServiceKey(routes[a], s), PortKey(s.ports[p].port, s.ports[p].protocol);
    ReconcileServes(t, ops, n, lbs, routes);
    ServedServicePort(t2, lbs, routes, a, i, p);
    SamePortAt(t, ops, m, n, ep, key);
    RunInRange(t, ops, m);
    L7Listener(lbs, routes, a, i, p, store, t2);
    GeneratedTarget(routes[a], s, appName, t1, global, annotations, p);
    ReachedIsServed(lbs, routes, store, t2, t2[ep][key], L7Kind(routes[a], s.ports[p].protocol),
                    AllAddresses(routes[a], store, |routes[a].endpoints|).value, s.ports[p].nodePort);
  }

  lemma GeneratedMeta(r: Route, s: Service, appName: string, t: Table, global: bool, annotations: Option<Labels>)
    requires |s.uid| >= NAME_SUFFIX_LENGTH
    ensures var g := GeneratedFor(r, s, appName, t, global, annotations);
            && g.namespace == r.namespace && g.labels == s.labels && g.annotations == annotations
            && g.kind == (if s.kind == "NodePort" then "ClusterIP" else s.kind)
            && (forall p :: 0 <= p < |g.ports| ==> g.ports[p].nodePort == 0)
            && g.selector == (if global then None else Some(map["app.kubernetes.io/name" := appName]))
  {
    hide GenerateName, TargetPort;
  }
}
