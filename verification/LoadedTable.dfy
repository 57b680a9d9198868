/** The port table LoadState rebuilds from the status of existing objects. */
module LoadedTable {
  import opened Keys
  import opened Api
  import opened PortTable
  import opened PortRequests

  predicate Matches(s: StatusPort, p: EndpointPort) {
    s.upstreamTargetPort == p.port && s.service.protocol == p.protocol && s.service.name == p.name
  }

  /** Position of the first matching status port from i on, or |status|. */
  function FirstMatch(status: seq<StatusPort>, p: EndpointPort, i: nat): (r: nat)
    requires i <= |status|
    ensures i <= r <= |status|
    ensures r < |status| ==> Matches(status[r], p)
    ensures forall j :: i <= j < r ==> !Matches(status[j], p)
    decreases |status| - i
  {
    if i == |status| || Matches(status[i], p) then i else FirstMatch(status, p, i + 1)
  }

  function LoadPort(row: Row, status: seq<StatusPort>, p: EndpointPort): Row {
    var i := FirstMatch(status, p, 0);
    if i < |status| then row[PortKey(p.port, p.protocol) := status[i].service.targetPort] else row
  }

  /** The first n ports of one endpoint group. */
  function LoadPorts(row: Row, status: seq<StatusPort>, ports: seq<EndpointPort>, n: nat): Row
    requires n <= |ports|
  {
    if n == 0 then row else LoadPort(LoadPorts(row, status, ports, n - 1), status, ports[n - 1])
  }

  /** The first n endpoint groups of one LoadBalancer. */
  function LoadGroups(t: Table, lb: LoadBalancer, n: nat): Table
    requires n <= |lb.endpoints|
  {
    if n == 0 then t
    else
      var before := LoadGroups(t, lb, n - 1);
      var ep, ports := LbKey(lb, n - 1), lb.endpoints[n - 1].ports;
      before[ep := LoadPorts(RowOf(before, ep), lb.status, ports, |ports|)]
  }

  /** The first n LoadBalancers. */
  function LoadLbs(lbs: seq<LoadBalancer>, n: nat): Table
    requires n <= |lbs|
  {
    if n == 0 then map[] else LoadGroups(LoadLbs(lbs, n - 1), lbs[n - 1], |lbs[n - 1].endpoints|)
  }

  /** The first n ports of one service. */
  function LoadServicePorts(row: Row, ports: seq<ServicePort>, n: nat): Row
    requires n <= |ports|
  {
    if n == 0 then row
    else LoadServicePorts(row, ports,
                          n - 1)[PortKey(ports[n - 1].port, ports[n - 1].protocol) := ports[n - 1].targetPort]
  }

  /** The status key LoadState reads a service's ports from, and under which cleanup expects
      a service of the spec. */
  function StatusKey(s: Service): string {
    ServiceMapKey(s.namespace, OriginName(s))
  }

  function StatusPorts(r: Route, s: Service): seq<ServicePort> {
    if StatusKey(s) in r.status then r.status[StatusKey(s)].ports else []
  }

  /** The first n services of one route. */
  function LoadServices(t: Table, r: Route, n: nat): Table
    requires n <= |SourceServices(r)|
  {
    if n == 0 then t
    else
      var s, before := SourceServices(r)[n - 1], LoadServices(t, r, n - 1);
      var ep, ports := ServiceKey(r, s), StatusPorts(r, s);
      before[ep := LoadServicePorts(RowOf(before, ep), ports, |ports|)]
  }

  /** The first n routes. */
  function LoadRoutes(t: Table, routes: seq<Route>, n: nat): Table
    requires n <= |routes|
  {
    if n == 0 then t else LoadServices(LoadRoutes(t, routes, n - 1), routes[n - 1], |SourceServices(routes[n - 1])|)
  }

  function Load(lbs: seq<LoadBalancer>, routes: seq<Route>): Table {
    LoadRoutes(LoadLbs(lbs, |lbs|), routes, |routes|)
  }
}
