/** What a restart reads back for the services of routes. */
module RouteRestart {
  import opened Text
  import opened Keys
  import opened Api
  import opened PortTable
  import opened AllocatorRuns
  import opened PortRequests
  import opened LoadedTable
  import opened ServiceGeneration
  import opened SnapshotClosure
  import opened Forwarding
  import opened ListenerExclusivity
  import opened Restart
  import opened RouteServices

  // ----- one row of the rebuilt table -----

  lemma {:induction false} LoadedPorts(r: Route, s: Service, ports: seq<ServicePort>, t: Table, n: nat, k: string)
    requires n <= |ports| == |s.ports|
    requires forall i :: 0 <= i < |ports| ==> ports[i] == GeneratedPort(t, ServiceKey(r, s), s.ports[i])
    requires forall i :: 0 <= i < |ports| ==> Has(t, ServiceKey(r, s), PortKey(s.ports[i].port, s.ports[i].protocol))
    requires InRange(t)
    ensures k in LoadServicePorts(map[], ports, n) <==> k in ServicePortKeys(s.ports)[..n]
    ensures k in LoadServicePorts(map[], ports, n)
            ==> Has(t, ServiceKey(r, s), k) && LoadServicePorts(map[], ports, n)[k] == t[ServiceKey(r, s)][k]
  {
    hide ServiceKey, PortKey, Int32;
    if n > 0 {
      LoadedPorts(r, s, ports, t, n - 1, k);
      var p := s.ports[n - 1];
      assert ports[n - 1] == GeneratedPort(t, ServiceKey(r, s), p)
             && Has(t, ServiceKey(r, s), PortKey(p.port, p.protocol));
      PortConversions(t[ServiceKey(r, s)][PortKey(p.port, p.protocol)]);
      assert ServicePortKeys(s.ports)[..n] == ServicePortKeys(s.ports)[..n - 1] + [PortKey(p.port, p.protocol)];
    }
  }

  /** The row LoadState builds for a service from its route's status alone. */
  function StatusRow(r: Route, s: Service): Row {
    LoadServicePorts(map[], StatusPorts(r, s), |StatusPorts(r, s)|)
  }

  lemma {:induction false} ServicesRow(t: Table, r: Route, n: nat, i: nat)
    requires n <= |SourceServices(r)| && i < |SourceServices(r)| && PlainServices(r)
             && ServiceKey(r, SourceServices(r)[i]) !in t
    ensures ServiceKey(r, SourceServices(r)[i]) in LoadServices(t, r, n) <==> i < n
    ensures i < n ==> LoadServices(t, r, n)[ServiceKey(r, SourceServices(r)[i])] == StatusRow(r, SourceServices(r)[i])
  {
    hide ServiceKey, LoadServicePorts;
    if n > 0 {
      ServicesRow(t, r, n - 1, i);
    }
  }

  lemma {:induction false} ServicesKeep(t: Table, r: Route, n: nat, ep: string)
    requires n <= |SourceServices(r)|
    requires forall j | 0 <= j < |SourceServices(r)| :: ServiceKey(r, SourceServices(r)[j]) != ep
    ensures ep in LoadServices(t, r, n) <==> ep in t
    ensures ep in t ==> LoadServices(t, r, n)[ep] == t[ep]
  {
    hide ServiceKey, LoadServicePorts;
    if n > 0 {
      ServicesKeep(t, r, n - 1, ep);
    }
  }

  lemma {:induction false} RoutesRow(t: Table, routes: seq<Route>, n: nat, a: nat, i: nat)
    requires n <= |routes| && a < |routes| && i < |SourceServices(routes[a])| && PlainRoutes(routes)
    requires ServiceKey(routes[a], SourceServices(routes[a])[i]) !in t
    ensures var ep := ServiceKey(routes[a], SourceServices(routes[a])[i]);
            (ep in LoadRoutes(t, routes, n) <==> a < n)
                && (a < n ==> LoadRoutes(t, routes, n)[ep] == StatusRow(routes[a], SourceServices(routes[a])[i]))
  {
    hide *;
    LoadRoutesStep(t, routes, n);
    if n > 0 {
      RoutesRow(t, routes, n - 1, a, i);
      var before, r, ep := LoadRoutes(t, routes, n - 1), routes[n - 1],
          ServiceKey(routes[a], SourceServices(routes[a])[i]);
      if a == n - 1 {
        PlainRoute(routes, a);
        ServicesRow(before, r, |SourceServices(r)|, i);
      } else {
        forall j | 0 <= j < |SourceServices(r)| ensures ServiceKey(r, SourceServices(r)[j]) != ep {
          if a < n - 1 {
            KeysApart(routes, a, n - 1, i, j);
          } else {
            KeysApart(routes, n - 1, a, j, i);
          }
        }
        ServicesKeep(before, r, |SourceServices(r)|, ep);
      }
    }
  }

  lemma LoadRoutesStep(t: Table, routes: seq<Route>, n: nat)
    requires n <= |routes|
    ensures LoadRoutes(t, routes, n)
            == if n == 0 then t
                else LoadServices(LoadRoutes(t, routes, n - 1), routes[n - 1], |SourceServices(routes[n - 1])|)
  {
  }

  lemma {:induction false} GroupKeys(t: Table, lb: LoadBalancer, n: nat, ep: string)
    requires n <= |lb.endpoints| && ep in LoadGroups(t, lb, n)
    ensures ep in t || exists i: nat :: i < |lb.endpoints| && ep == LbKey(lb, i)
  {
    hide LbKey, LoadPorts;
    if n > 0 && ep != LbKey(lb, n - 1) {
      GroupKeys(t, lb, n - 1, ep);
    }
  }

  lemma {:induction false} LbsKeys(lbs: seq<LoadBalancer>, n: nat, ep: string)
    requires n <= |lbs| && ep in LoadLbs(lbs, n)
    ensures exists a: nat, i: nat :: a < n && i < |lbs[a].endpoints| && ep == LbKey(lbs[a], i)
  {
    hide LbKey, LoadGroups;
    GroupKeys(LoadLbs(lbs, n - 1), lbs[n - 1], |lbs[n - 1].endpoints|, ep);
    if ep in LoadLbs(lbs, n - 1) {
      LbsKeys(lbs, n - 1, ep);
    }
  }

  /** In the whole rebuilt table a service has the row of its route's status. */
  lemma LoadedServiceRow(lbs: seq<LoadBalancer>, routes: seq<Route>, a: nat, i: nat)
    requires a < |routes| && i < |SourceServices(routes[a])| && PlainRoutes(routes) && KeysSeparate(lbs, routes)
    ensures var ep := ServiceKey(routes[a], SourceServices(routes[a])[i]);
            ep in Load(lbs, routes) && Load(lbs, routes)[ep] == StatusRow(routes[a], SourceServices(routes[a])[i])
  {
    hide ServiceKey, LbKey, PlainRoutes, LoadLbs, LoadRoutes, StatusRow;
    var ep := ServiceKey(routes[a], SourceServices(routes[a])[i]);
    if ep in LoadLbs(lbs, |lbs|) {
      LbsKeys(lbs, |lbs|, ep);
      assert false;
    }
    RoutesRow(LoadLbs(lbs, |lbs|), routes, |routes|, a, i);
  }

  // ----- what the status holds -----

  /** The row is the one that was lost: exactly the service's keys, on their allocated ports. */
  ghost predicate Restored(row: Row, r: Route, s: Service, t: Table) {
    forall k ::
           (k in row <==> k in ServicePortKeys(s.ports))
               && (k in row ==> Has(t, ServiceKey(r, s), k) && row[k] == t[ServiceKey(r, s)][k])
  }

  ghost predicate AllAllocated(r: Route, s: Service, t: Table) {
    forall i :: 0 <= i < |s.ports| ==> Has(t, ServiceKey(r, s), PortKey(s.ports[i].port, s.ports[i].protocol))
  }

  lemma GeneratedRestored(r: Route, s: Service, appName: string, t: Table, global: bool, annotations: Option<Labels>)
    requires |s.uid| >= NAME_SUFFIX_LENGTH && InRange(t) && AllAllocated(r, s, t)
    requires StatusPorts(r, s) == GeneratedFor(r, s, appName, t, global, annotations).ports
    ensures Restored(StatusRow(r, s), r, s, t)
  {
    var ports := StatusPorts(r, s);
    assert ServicePortKeys(s.ports)[..|ports|] == ServicePortKeys(s.ports);
    hide GenerateName, ServicePortKeys, LoadServicePorts;
    forall k
      ensures (k in StatusRow(r, s) <==> k in ServicePortKeys(s.ports))
              && (k in StatusRow(r, s) ==> Has(t, ServiceKey(r, s), k) && StatusRow(r, s)[k] == t[ServiceKey(r, s)][k])
    {
      LoadedPorts(r, s, ports, t, |ports|, k);
    }
  }

  /** The Services manageServices applied for a route are recorded in its status, the one
      generated for the service s at position m, and nothing else under the key that
      LoadState reads for s. */
  ghost predicate RecordedIn(r: Route, s: Service, g: Service, base: Status, applied: seq<Service>, m: nat) {
    && m < |applied| && applied[m] == g && r.status == RecordAll(base, applied, |applied|)
    && StatusKey(s) !in base && forall x :: 0 <= x < |applied| && x != m ==> RecordedKey(applied[x]) != StatusKey(s)
  }

  /** Over the whole rebuilt table: a service with ports comes back from a restart with
      exactly its allocated ports if and only if it carries origin labels, or happens to
      keep namespace and name. */
  lemma RouteRestartIff(lbs: seq<LoadBalancer>, routes: seq<Route>, a: nat, i: nat, appName: string, t: Table,
                        global: bool, annotations: Option<Labels>, base: Status, applied: seq<Service>, m: nat)
    requires a < |routes| && i < |SourceServices(routes[a])| && PlainRoutes(routes) && KeysSeparate(lbs, routes)
    requires var s := SourceServices(routes[a])[i];
             && |s.uid| >= NAME_SUFFIX_LENGTH && s.ports != [] && InRange(t) && AllAllocated(routes[a], s, t)
             && LabelOr(s.labels, LABEL_TYPE, "") != BRIDGE_SERVICE
             && '/' !in s.namespace && '/' !in routes[a].namespace
                 && '/' !in LabelOr(s.labels, LABEL_ORIGIN_NAMESPACE, "")
             && RecordedIn(routes[a], s, GeneratedFor(routes[a], s, appName, t, global, annotations), base, applied, m)
    ensures var r, s := routes[a], SourceServices(routes[a])[i];
            var g := GeneratedFor(r, s, appName, t, global, annotations);
            ServiceKey(r, s) in Load(lbs, routes)
            && (Restored(Load(lbs, routes)[ServiceKey(r, s)], r, s, t)
                <==> LabelOr(s.labels, LABEL_ORIGIN_NAMESPACE, r.namespace) == s.namespace
                     && (LABEL_ORIGIN_NAME in s.labels || g.name == s.name))
  {
    var r, s := routes[a], SourceServices(routes[a])[i];
    var g := GeneratedFor(r, s, appName, t, global, annotations);
    RecordedKeyIff(r, s, appName, t, global, annotations);
    RecordedOnce(base, applied, |applied|, m, StatusKey(s));
    assert RecordedKey(g) == StatusKey(s) ==> StatusPorts(r, s) == g.ports;
    assert RecordedKey(g) != StatusKey(s) ==> StatusPorts(r, s) == [];
    assert ServicePortKeys(s.ports)[0] in ServicePortKeys(s.ports);
    NothingRead(r, s);
    hide *;
    LoadedServiceRow(lbs, routes, a, i);
    if RecordedKey(g) == StatusKey(s) {
      GeneratedRestored(r, s, appName, t, global, annotations);
    } else {
      NotRestored(r, s, t);
    }
  }

  lemma NothingRead(r: Route, s: Service)
    ensures StatusPorts(r, s) == [] ==> StatusRow(r, s) == map[]
  {
  }

  lemma NotRestored(r: Route, s: Service, t: Table)
    requires s.ports != [] && StatusRow(r, s) == map[]
    ensures !Restored(StatusRow(r, s), r, s, t)
  {
    assert ServicePortKeys(s.ports)[0] in ServicePortKeys(s.ports);
  }

  /** A service shop/web without origin labels, recorded for a route of tenant t1, has nothing
      to read back. */
  lemma UnlabelledNotRestored(uid: string, t: Table)
    requires |uid| >= NAME_SUFFIX_LENGTH
    ensures var s :=
            Service("web", "shop", uid, map[], None, "NodePort", None, [ServicePort("http", 80, TCP, 0, 30080)]);
            var r := Route("r", "t1", map[], false, [], Some(Source("web", "Ingress", [s])), map[]);
            var g := GeneratedFor(r, s, "envoy", t, false, None);
            StatusRow(r.(status := Record(map[], g)), s) == map[]
  {
    var s := Service("web", "shop", uid, map[], None, "NodePort", None, [ServicePort("http", 80, TCP, 0, 30080)]);
    var r := Route("r", "t1", map[], false, [], Some(Source("web", "Ingress", [s])), map[]);
    hide GenerateName;
    RecordedKeyIff(r, s, "envoy", t, false, None);
    assert |"t1"| == 2 && |"shop"| == 4;
    assert StatusPorts(r.(status := Record(map[], GeneratedFor(r, s, "envoy", t, false, None))), s) == [];
  }

  // ----- the whole table -----

  /** Whatever the row holds is what was lost. */
  ghost predicate RowSound(row: Row, r: Route, s: Service, t: Table) {
    forall k :: k in row ==> Has(t, ServiceKey(r, s), k) && row[k] == t[ServiceKey(r, s)][k]
  }

  /** With or without origin labels, what is read back for a recorded service is sound. */
  lemma RecordedRowSound(r: Route, s: Service, appName: string, t: Table, global: bool, annotations: Option<Labels>,
                         base: Status, applied: seq<Service>, m: nat)
    requires |s.uid| >= NAME_SUFFIX_LENGTH && InRange(t) && AllAllocated(r, s, t)
    requires RecordedIn(r, s, GeneratedFor(r, s, appName, t, global, annotations), base, applied, m)
    ensures RowSound(StatusRow(r, s), r, s, t)
  {
    var g := GeneratedFor(r, s, appName, t, global, annotations);
    RecordedOnce(base, applied, |applied|, m, StatusKey(s));
    NothingRead(r, s);
    hide GeneratedFor, RecordedKey, StatusKey, ServiceKey, InRange, AllAllocated, StatusRow, RecordAll;
    if RecordedKey(g) == StatusKey(s) {
      GeneratedRestored(r, s, appName, t, global, annotations);
    }
  }

  lemma {:induction false} ServicesKeys(t: Table, r: Route, n: nat, ep: string)
    requires n <= |SourceServices(r)| && ep in LoadServices(t, r, n)
    ensures ep in t || exists i: nat :: i < |SourceServices(r)| && ep == ServiceKey(r, SourceServices(r)[i])
  {
    hide ServiceKey, LoadServicePorts;
    if n > 0 && ep != ServiceKey(r, SourceServices(r)[n - 1]) {
      ServicesKeys(t, r, n - 1, ep);
    }
  }

  lemma {:induction false} RoutesKeys(t: Table, routes: seq<Route>, n: nat, ep: string)
    requires n <= |routes| && ep in LoadRoutes(t, routes, n)
    ensures ep in t
            || exists a: nat, i: nat ::
                a < n && i < |SourceServices(routes[a])| && ep == ServiceKey(routes[a], SourceServices(routes[a])[i])
  {
    hide ServiceKey, LoadServices;
    if n > 0 {
      ServicesKeys(LoadRoutes(t, routes, n - 1), routes[n - 1], |SourceServices(routes[n - 1])|, ep);
      if ep in LoadRoutes(t, routes, n - 1) {
        RoutesKeys(t, routes, n - 1, ep);
      }
    }
  }

  /** The LoadBalancer was published from the table, and no further group matches its status. */
  ghost predicate PublishedAlone(lb: LoadBalancer, t: Table) {
    && (exists existing, built, stored :: Published(lb, existing, t, built, stored))
    && lb.endpoints != [] && SharedNames(lb) && FurtherGroupsUnmatched(lb)
  }

  /** Every entry of the rebuilt table is one of the table that was lost. */
  lemma LoadedSound(lbs: seq<LoadBalancer>, routes: seq<Route>, t: Table, ep: string, k: string)
    requires NamedByUid(lbs) && PlainRoutes(routes) && KeysSeparate(lbs, routes) && Injective(t)
    requires forall a :: 0 <= a < |lbs| ==> PublishedAlone(lbs[a], t)
    requires forall a: nat, i: nat | a < |routes| && i < |SourceServices(routes[a])| ::
               RowSound(StatusRow(routes[a], SourceServices(routes[a])[i]), routes[a], SourceServices(routes[a])[i], t)
    ensures EntrySound(Load(lbs, routes), t, ep, k)
  {
    hide NamedByUid, PlainRoutes, KeysSeparate, Injective, Published, SharedNames, FurtherGroupsUnmatched, LbKey,
         ServiceKey, StatusRow, LoadRoutes, LoadLbs;
    var loaded := Load(lbs, routes);
    if ep in loaded {
      RoutesKeys(LoadLbs(lbs, |lbs|), routes, |routes|, ep);
      if ep in LoadLbs(lbs, |lbs|) {
        LbsKeys(lbs, |lbs|, ep);
        var a: nat, i: nat :| a < |lbs| && i < |lbs[a].endpoints| && ep == LbKey(lbs[a], i);
        assert PublishedAlone(lbs[a], t);
        var existing, built, stored :| Published(lbs[a], existing, t, built, stored);
        RestartAllSoundIff(lbs, routes, a, existing, t, built, stored);
      } else {
        var a: nat, i: nat :| a < |routes| && i < |SourceServices(routes[a])|
            && ep == ServiceKey(routes[a], SourceServices(routes[a])[i]);
        LoadedServiceRow(lbs, routes, a, i);
      }
    }
  }

  lemma SoundTable(loaded: Table, t: Table)
    requires Injective(t) && InRange(t) && forall ep, k :: EntrySound(loaded, t, ep, k)
    ensures Injective(loaded) && InRange(loaded)
  {
    forall e, k, e', k' | Has(loaded, e, k) && Has(loaded, e', k') && loaded[e][k] == loaded[e'][k']
      ensures e == e' && k == k' {
      assert EntrySound(loaded, t, e, k) && EntrySound(loaded, t, e', k');
    }
    forall e, k | Has(loaded, e, k) ensures START_PORT <= loaded[e][k] < END_PORT {
      assert EntrySound(loaded, t, e, k);
    }
  }

  /** So a run may go on from the rebuilt table as from the lost one: it has no shared port and
      every port is in range. */
  lemma RestartedTable(lbs: seq<LoadBalancer>, routes: seq<Route>, t: Table)
    requires NamedByUid(lbs) && PlainRoutes(routes) && KeysSeparate(lbs, routes) && Injective(t) && InRange(t)
    requires forall a :: 0 <= a < |lbs| ==> PublishedAlone(lbs[a], t)
    requires forall a: nat, i: nat | a < |routes| && i < |SourceServices(routes[a])| ::
               RowSound(StatusRow(routes[a], SourceServices(routes[a])[i]), routes[a], SourceServices(routes[a])[i], t)
    ensures Injective(Load(lbs, routes)) && InRange(Load(lbs, routes))
  {
    hide *;
    forall ep, k ensures EntrySound(Load(lbs, routes), t, ep, k) {
      LoadedSound(lbs, routes, t, ep, k);
    }
    SoundTable(Load(lbs, routes), t);
  }
}
