/** Which AllocatePorts calls the mapper makes for a list of LoadBalancers or Routes. */
module PortRequests {
  import opened Text
  import opened Keys
  import opened Api
  import opened PortTable
  import opened AllocatorRuns

  datatype Request = Request(ep: string, keys: seq<string>)

  function EndpointPortKeys(ports: seq<EndpointPort>): seq<string> {
    seq(|ports|, i requires 0 <= i < |ports| => PortKey(ports[i].port, ports[i].protocol))
  }

  function ServicePortKeys(ports: seq<ServicePort>): seq<string> {
    seq(|ports|, i requires 0 <= i < |ports| => PortKey(ports[i].port, ports[i].protocol))
  }

  function LbKey(lb: LoadBalancer, i: nat): string {
    EndpointKey(lb.namespace, lb.name, i)
  }

  function ServiceKey(r: Route, s: Service): string {
    RouteEndpointKey(r.namespace, s.namespace, s.name, OriginalRouteName(r))
  }

  function SourceServices(r: Route): seq<Service> {
    if r.source.None? then [] else r.source.value.services
  }

  function LbRequest(lb: LoadBalancer, i: nat): Request
    requires i < |lb.endpoints|
  {
    Request(LbKey(lb, i), EndpointPortKeys(lb.endpoints[i].ports))
  }

  function ServiceRequest(r: Route, s: Service): Request {
    Request(ServiceKey(r, s), ServicePortKeys(s.ports))
  }

  function LbRequests(lb: LoadBalancer): seq<Request> {
    seq(|lb.endpoints|, i requires 0 <= i < |lb.endpoints| => LbRequest(lb, i))
  }

  function RouteRequests(r: Route): seq<Request> {
    seq(|SourceServices(r)|, i requires 0 <= i < |SourceServices(r)| => ServiceRequest(r, SourceServices(r)[i]))
  }

  /** The requests for the first n LoadBalancers. */
  function AllLbRequests(lbs: seq<LoadBalancer>, n: nat): seq<Request>
    requires n <= |lbs|
  {
    if n == 0 then [] else AllLbRequests(lbs, n - 1) + LbRequests(lbs[n - 1])
  }

  /** The requests for the first n routes. */
  function AllRouteRequests(routes: seq<Route>, n: nat): seq<Request>
    requires n <= |routes|
  {
    if n == 0 then [] else AllRouteRequests(routes, n - 1) + RouteRequests(routes[n - 1])
  }

  /** The operations those calls are, given the random numbers each of them draws. */
  function Calls(requests: seq<Request>, draws: seq<seq<int>>): seq<Op>
    requires |requests| == |draws|
  {
    seq(|requests|, i requires 0 <= i < |requests| => AllocateOp(requests[i].ep, requests[i].keys, draws[i]))
  }

  /** Where the i-th group of the a-th LoadBalancer stands among the requests. */
  lemma {:induction false} LbRequestAt(lbs: seq<LoadBalancer>, a: nat, n: nat, i: nat)
    requires a < n <= |lbs| && i < |lbs[a].endpoints|
    ensures var at := |AllLbRequests(lbs, a)| + i;
            at < |AllLbRequests(lbs, n)| && AllLbRequests(lbs, n)[at] == LbRequest(lbs[a], i)
    decreases n
  {
    if a + 1 < n {
      LbRequestAt(lbs, a, n - 1, i);
    }
  }

  lemma {:induction false} RouteRequestAt(routes: seq<Route>, a: nat, n: nat, i: nat)
    requires a < n <= |routes| && i < |SourceServices(routes[a])|
    ensures var at := |AllRouteRequests(routes, a)| + i;
            at < |AllRouteRequests(routes, n)|
                && AllRouteRequests(routes, n)[at] == ServiceRequest(routes[a], SourceServices(routes[a])[i])
    decreases n
  {
    if a + 1 < n {
      RouteRequestAt(routes, a, n - 1, i);
    }
  }

  /** Requests for one endpoint ask for the same keys, so none trims another's. */
  predicate Compatible(requests: seq<Request>) {
    forall i, j :: 0 <= i < j < |requests| && requests[i].ep == requests[j].ep ==>
      SetOf(requests[i].keys) == SetOf(requests[j].keys)
  }

  /** One more call of a run of calls. */
  lemma {:induction false} NextCall(t: Table, requests: seq<Request>, draws: seq<seq<int>>, n: nat)
    requires n < |requests| == |draws|
    requires Run(t, Calls(requests, draws), n).Some? && Run(t, Calls(requests, draws), |requests|).Some?
    ensures var t1 := Run(t, Calls(requests, draws), n).value;
            CanAllocate(t1, requests[n].ep, requests[n].keys, draws[n])
            && Run(t, Calls(requests, draws), n + 1) == Some(Allocate(t1, requests[n].ep, requests[n].keys, draws[n]))
  {
    hide Allocate, CanAllocate;
    RunPrefix(t, Calls(requests, draws), n + 1, |requests|);
  }

  /** The last of the first n requests that is for the endpoint. */
  function LastFor(requests: seq<Request>, ep: string, n: nat): (r: Option<nat>)
    requires n <= |requests|
    ensures r.Some? ==> r.value < n && requests[r.value].ep == ep
    ensures forall i :: 0 <= i < n && requests[i].ep == ep ==> r.Some? && i <= r.value
  {
    if n == 0 then None else if requests[n - 1].ep == ep then Some(n - 1) else LastFor(requests, ep, n - 1)
  }

  /** After the calls a key of an endpoint has a port if and only if the last request for
      that endpoint lists it, or there was none and it had one before. */
  lemma {:induction false} RequestServedIff(t: Table, requests: seq<Request>, draws: seq<seq<int>>, n: nat, ep: string,
                                            k: string)
    requires n <= |requests| == |draws| && Run(t, Calls(requests, draws), |requests|).Some?
    ensures Run(t, Calls(requests, draws), n).Some?
    ensures var last := LastFor(requests, ep, n);
            Has(Run(t, Calls(requests, draws), n).value, ep, k)
            <==> if last.Some? then k in requests[last.value].keys else Has(t, ep, k)
  {
    hide Allocate, CanAllocate;
    RunPrefix(t, Calls(requests, draws), n, |requests|);
    if n > 0 {
      RequestServedIff(t, requests, draws, n - 1, ep, k);
      NextCall(t, requests, draws, n - 1);
      AllocateExact(Run(t, Calls(requests, draws), n - 1).value, requests[n - 1].ep, requests[n - 1].keys,
                    draws[n - 1]);
    }
  }

  /** So every requested key has one, provided no two requests for one endpoint disagree. */
  lemma RequestServed(t: Table, requests: seq<Request>, draws: seq<seq<int>>, i: nat, k: string)
    requires i < |requests| == |draws| && Compatible(requests) && k in requests[i].keys
    requires Run(t, Calls(requests, draws), |requests|).Some?
    ensures Has(Run(t, Calls(requests, draws), |requests|).value, requests[i].ep, k)
  {
    hide Run, Has;
    RequestServedIff(t, requests, draws, |requests|, requests[i].ep, k);
    var last := LastFor(requests, requests[i].ep, |requests|);
    assert k in SetOf(requests[i].keys) && k in SetOf(requests[last.value].keys);
  }
}
