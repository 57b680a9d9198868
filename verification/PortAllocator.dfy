/** The shared port allocator. Every public method is one critical section of its mutex. */
module PortAllocation {
  import opened Text
  import opened Keys
  import opened Api
  import opened PortTable
  import opened AllocatorRuns
  import opened PortRequests
  import opened LoadedTable

  class PortAllocator {
    var portLookup: Table
    var portLookupReverse: map<int, bool>

    /** The reverse table is exactly the set of stored ports. */
    ghost predicate Valid()
      reads this
    {
      portLookupReverse.Keys == Ports(portLookup)
    }

    constructor ()
      ensures Valid() && portLookup == map[]
    {
      portLookup, portLookupReverse := map[], map[];
    }

    method Lookup(endpointKey: string, portKey: string) returns (port: int, found: bool)
      ensures found <==> Has(portLookup, endpointKey, portKey)
      ensures port == if found then portLookup[endpointKey][portKey] else -1
    {
      if endpointKey in portLookup {
        if portKey in portLookup[endpointKey] {
          return portLookup[endpointKey][portKey], true;
        }
      }
      return -1, false;
    }

    /** The rejection loop, reading random numbers from `at` on. */
    method AllocatePort(draws: seq<int>, at: nat) returns (port: int, next: nat)
      requires at <= |draws| && FreeDraws(draws, portLookupReverse.Keys, at) != []
      ensures at < next <= |draws|
      ensures FreeDraws(draws, portLookupReverse.Keys, at) == [port] + FreeDraws(draws, portLookupReverse.Keys, next)
    {
      next := at;
      while true
        invariant at <= next <= |draws|
        invariant FreeDraws(draws, portLookupReverse.Keys, next) == FreeDraws(draws, portLookupReverse.Keys, at)
        decreases |draws| - next
      {
        port := draws[next] + START_PORT;
        next := next + 1;
        if port !in portLookupReverse {
          return;
        }
      }
    }

    method RecomputeAvailablePorts()
      modifies this`portLookupReverse
      ensures Valid()
    {
      var reverse: map<int, bool> := map[];
      var eps := portLookup.Keys;
      while eps != {}
        invariant eps <= portLookup.Keys
        invariant reverse.Keys == set ep, k | ep in portLookup && ep !in eps && k in portLookup[ep] :: portLookup[ep][k]
        decreases |eps|
      {
        var ep :| ep in eps;
        var row, keys := portLookup[ep], portLookup[ep].Keys;
        ghost var before := reverse;
        while keys != {}
          invariant keys <= row.Keys
          invariant reverse.Keys == before.Keys + set k | k in row && k !in keys :: row[k]
          decreases |keys|
        {
          var k :| k in keys;
          reverse := reverse[row[k] := true];
          keys := keys - {k};
        }
        eps := eps - {ep};
      }
      portLookupReverse := reverse;
    }

    method AllocatePorts(endpointKey: string, portkeys: seq<string>, draws: seq<int>) returns (updated: bool)
      requires Valid() && CanAllocate(portLookup, endpointKey, portkeys, draws)
      modifies this
      ensures Valid()
      ensures portLookup == Allocate(old(portLookup), endpointKey, portkeys, draws)
      ensures updated <==> RowOf(old(portLookup), endpointKey).Keys != SetOf(portkeys)
    {
      hide Filled, CanAllocate, Ports, RowOf, Keep, SetOf;
      ghost var t := portLookup;
      updated := FillRow(endpointKey, portkeys, draws);
      FilledKeys(t, endpointKey, portkeys, draws);
      updated := TrimRow(endpointKey, portkeys, updated);
      RecomputeAvailablePorts();
    }

    /** The first loop of AllocatePorts, which consults the reverse table but does not
        update it. */
    method FillRow(endpointKey: string, portkeys: seq<string>, draws: seq<int>) returns (updated: bool)
      requires portLookupReverse.Keys == Ports(portLookup) && CanAllocate(portLookup, endpointKey, portkeys, draws)
      modifies this`portLookup
      ensures endpointKey in portLookup && portLookup == old(portLookup)[endpointKey := portLookup[endpointKey]]
      ensures portLookup[endpointKey] == Filled(old(portLookup), endpointKey, portkeys, draws)
      ensures updated <==> !(SetOf(portkeys) <= RowOf(old(portLookup), endpointKey).Keys)
    {
      hide *;
      ghost var t, used := portLookup, Ports(portLookup);
      ghost var row, free := RowOf(t, endpointKey), FreeDraws(draws, used, 0);
      if endpointKey !in portLookup {
        portLookup := portLookup[endpointKey := map[]];
      }
      FillStart(t, endpointKey, portkeys, draws);
      updated := false;
      var at := 0;
      for i := 0 to |portkeys|
        invariant portLookupReverse.Keys == used && at <= |draws|
        invariant endpointKey in portLookup && portLookup == t[endpointKey := portLookup[endpointKey]]
        invariant FillState(row, portkeys, i, free, portLookup[endpointKey], FreeDraws(draws, used, at))
        invariant updated <==> NewKeys(row, portkeys, i) != []
      {
        FillStep(row, portkeys, i, free, portLookup[endpointKey], FreeDraws(draws, used, at));
        if portkeys[i] !in portLookup[endpointKey] {
          var port;
          port, at := AllocatePort(draws, at);
          portLookup := portLookup[endpointKey := portLookup[endpointKey][portkeys[i] := port]];
          updated := true;
        }
      }
      FillEnd(t, endpointKey, portkeys, draws, portLookup[endpointKey], FreeDraws(draws, used, at));
    }

    static lemma FillStart(t: Table, ep: string, keys: seq<string>, draws: seq<int>)
      requires CanAllocate(t, ep, keys, draws)
      ensures |NewKeys(RowOf(t, ep), keys, |keys|)| <= |FreeDraws(draws, Ports(t), 0)|
              && NewKeys(RowOf(t, ep), keys, 0) == []
      ensures RowOf(t, ep) == if ep in t then t[ep] else map[]
      ensures FillState(RowOf(t, ep), keys, 0, FreeDraws(draws, Ports(t), 0), RowOf(t, ep),
                        FreeDraws(draws, Ports(t), 0))
    {
    }

    static lemma FillEnd(t: Table, ep: string, keys: seq<string>, draws: seq<int>, current: Row, rest: seq<int>)
      requires CanAllocate(t, ep, keys, draws)
      requires FillState(RowOf(t, ep), keys, |keys|, FreeDraws(draws, Ports(t), 0), current, rest)
      ensures current == Filled(t, ep, keys, draws)
      ensures NewKeys(RowOf(t, ep), keys, |keys|) != [] <==> !(SetOf(keys) <= RowOf(t, ep).Keys)
    {
      var all := NewKeys(RowOf(t, ep), keys, |keys|);
      assert keys[..|keys|] == keys;
      if all != [] {
        assert all[0] in all;
      }
    }

    /** After i keys: the row holds the new keys so far on the first accepted draws, and
        the remaining draws are what is left of them. */
    static ghost predicate FillState(row: Row, keys: seq<string>, i: nat, free: seq<int>, current: Row, rest: seq<int>)
      requires i <= |keys|
    {
      var added := NewKeys(row, keys, i);
      |added| <= |free| && current == Assign(row, added, free, |added|) && rest == free[|added|..]
    }

    static lemma FillStep(row: Row, keys: seq<string>, i: nat, free: seq<int>, current: Row, rest: seq<int>)
      requires i < |keys| && |NewKeys(row, keys, |keys|)| <= |free| && FillState(row, keys, i, free, current, rest)
      ensures if keys[i] in current then
                NewKeys(row, keys, i + 1) == NewKeys(row, keys, i) && FillState(row, keys, i + 1, free, current, rest)
              else
                rest != [] && NewKeys(row, keys, i + 1) != []
                && FillState(row, keys, i + 1, free, current[keys[i] := rest[0]], rest[1..])
    {
      hide NewKeys;
      var before, after := NewKeys(row, keys, i), NewKeys(row, keys, i + 1);
      NewKeysStep(row, keys, i);
      AssignKeys(row, before, free, |before|, keys[i]);
      assert before[..|before|] == before;
      NewKeysGrow(row, keys, i + 1, |keys|);
      if keys[i] !in current {
        AssignPrefix(row, before, after, free, |before|);
        assert rest[1..] == free[|after|..];
      }
    }

    static lemma {:induction false} AssignPrefix(row: Row, a: seq<string>, b: seq<string>, free: seq<int>, n: nat)
      requires n <= |a| <= |b| && n <= |free| && a == b[..|a|]
      ensures Assign(row, a, free, n) == Assign(row, b, free, n)
    {
      if n > 0 {
        AssignPrefix(row, a, b, free, n - 1);
      }
    }

    /** The second loop of AllocatePorts: range over the row and delete what is not wanted. */
    method TrimRow(endpointKey: string, portkeys: seq<string>, already: bool) returns (updated: bool)
      requires endpointKey in portLookup
      modifies this`portLookup
      ensures portLookup == old(portLookup)[endpointKey := Keep(old(portLookup[endpointKey]), portkeys)]
      ensures updated <==> already || !(old(portLookup[endpointKey]).Keys <= SetOf(portkeys))
    {
      hide Ports;
      updated := already;
      var row := portLookup[endpointKey];
      var todo := row.Keys;
      while todo != {}
        invariant todo <= row.Keys
        invariant endpointKey in portLookup && portLookup == old(portLookup)[endpointKey := portLookup[endpointKey]]
        invariant portLookup[endpointKey] == map k | k in row && (k in todo || k in portkeys) :: row[k]
        invariant updated <==> already || !(row.Keys - todo <= SetOf(portkeys))
        decreases |todo|
      {
        var k :| k in todo;
        assert row.Keys - (todo - {k}) == row.Keys - todo + {k};
        todo := todo - {k};
        if k !in portkeys {
          portLookup := portLookup[endpointKey := portLookup[endpointKey] - {k}];
          updated := true;
        }
      }
      assert portLookup[endpointKey] == Keep(row, portkeys);
    }

    /** The result only says that there was something to look at. */
    method DeallocatePorts(endpointKey: string, portkeys: seq<string>) returns (updated: bool)
      modifies this
      ensures Valid() && portLookup == DropPorts(old(portLookup), endpointKey, portkeys)
      ensures updated <==> endpointKey in old(portLookup) && portkeys != []
    {
      updated := false;
      if endpointKey in portLookup {
        for i := 0 to |portkeys|
          invariant endpointKey in portLookup && portLookup == old(portLookup)[endpointKey := portLookup[endpointKey]]
          invariant portLookup[endpointKey] == old(portLookup)[endpointKey] - SetOf(portkeys[..i])
          invariant updated <==> i > 0
        {
          assert SetOf(portkeys[..i + 1]) == SetOf(portkeys[..i]) + {portkeys[i]};
          portLookup := portLookup[endpointKey := portLookup[endpointKey] - {portkeys[i]}];
          updated := true;
        }
        assert portkeys[..|portkeys|] == portkeys;
      }
      RecomputeAvailablePorts();
    }

    method DeallocateEndpoints(endpointKeys: seq<string>)
      modifies this
      ensures Valid() && portLookup == DropEndpoints(old(portLookup), endpointKeys)
    {
      for i := 0 to |endpointKeys|
        invariant portLookup == old(portLookup) - SetOf(endpointKeys[..i])
      {
        assert SetOf(endpointKeys[..i + 1]) == SetOf(endpointKeys[..i]) + {endpointKeys[i]};
        portLookup := portLookup - {endpointKeys[i]};
      }
      assert endpointKeys[..|endpointKeys|] == endpointKeys;
      RecomputeAvailablePorts();
    }

    /** The next call of a run of calls. */
    method Call(ghost t: Table, ghost requests: seq<Request>, ghost draws: seq<seq<int>>, ghost n: nat,
                endpointKey: string, portkeys: seq<string>, drawn: seq<int>)
      requires Valid() && n < |requests| == |draws| && Run(t, Calls(requests, draws), |requests|).Some?
      requires requests[n] == Request(endpointKey, portkeys) && draws[n] == drawn
      requires Run(t, Calls(requests, draws), n) == Some(portLookup)
      modifies this
      ensures Valid() && Run(t, Calls(requests, draws), n + 1) == Some(portLookup)
    {
      hide *;
      NextCall(t, requests, draws, n);
      var _ := AllocatePorts(endpointKey, portkeys, drawn);
    }

    method AllocatePortsForLoadBalancers(lbs: seq<LoadBalancer>, draws: seq<seq<int>>)
      requires Valid() && |draws| == |AllLbRequests(lbs, |lbs|)|
      requires Run(portLookup, Calls(AllLbRequests(lbs, |lbs|), draws), |draws|).Some?
      modifies this
      ensures Valid()
      ensures Run(old(portLookup), Calls(AllLbRequests(lbs, |lbs|), draws), |draws|) == Some(portLookup)
    {
      hide Run;
      ghost var t, requests := portLookup, AllLbRequests(lbs, |lbs|);
      assert Run(t, Calls(requests, draws), 0) == Some(t) by { RunNone(t, Calls(requests, draws)); }
      var call := 0;
      for a := 0 to |lbs|
        invariant Valid() && call == |AllLbRequests(lbs, a)| <= |draws|
        invariant Run(t, Calls(requests, draws), call) == Some(portLookup)
      {
        for i := 0 to |lbs[a].endpoints|
          invariant Valid() && call == |AllLbRequests(lbs, a)| + i <= |draws|
          invariant Run(t, Calls(requests, draws), call) == Some(portLookup)
        {
          LbRequestAt(lbs, a, |lbs|, i);
          var keys := EndpointKeys(lbs[a].endpoints[i].ports);
          Call(t, requests, draws, call, LbKey(lbs[a], i), keys, draws[call]);
          call := call + 1;
        }
      }
    }

    static lemma RunNone(t: Table, ops: seq<Op>)
      ensures Run(t, ops, 0) == Some(t)
    {
    }

    static method EndpointKeys(ports: seq<EndpointPort>) returns (keys: seq<string>)
      ensures keys == EndpointPortKeys(ports)
    {
      keys := [];
      for i := 0 to |ports|
        invariant keys == EndpointPortKeys(ports)[..i]
      {
        keys := keys + [PortKey(ports[i].port, ports[i].protocol)];
      }
    }

    method AllocatePortsForRoutes(routes: seq<Route>, draws: seq<seq<int>>)
      requires Valid() && |draws| == |AllRouteRequests(routes, |routes|)|
      requires Run(portLookup, Calls(AllRouteRequests(routes, |routes|), draws), |draws|).Some?
      modifies this
      ensures Valid()
      ensures Run(old(portLookup), Calls(AllRouteRequests(routes, |routes|), draws), |draws|) == Some(portLookup)
    {
      hide Run;
      ghost var t, requests := portLookup, AllRouteRequests(routes, |routes|);
      assert Run(t, Calls(requests, draws), 0) == Some(t) by { RunNone(t, Calls(requests, draws)); }
      var call := 0;
      for a := 0 to |routes|
        invariant Valid() && call == |AllRouteRequests(routes, a)| <= |draws|
        invariant Run(t, Calls(requests, draws), call) == Some(portLookup)
      {
        if routes[a].source.None? {
          continue;
        }
        var services := routes[a].source.value.services;
        for i := 0 to |services|
          invariant Valid() && call == |AllRouteRequests(routes, a)| + i <= |draws|
          invariant Run(t, Calls(requests, draws), call) == Some(portLookup)
        {
          RouteRequestAt(routes, a, |routes|, i);
          var keys := ServiceKeys(services[i].ports);
          Call(t, requests, draws, call, ServiceKey(routes[a], services[i]), keys, draws[call]);
          call := call + 1;
        }
      }
    }

    static method ServiceKeys(ports: seq<ServicePort>) returns (keys: seq<string>)
      ensures keys == ServicePortKeys(ports)
    {
      keys := [];
      for i := 0 to |ports|
        invariant keys == ServicePortKeys(ports)[..i]
      {
        keys := keys + [PortKey(ports[i].port, ports[i].protocol)];
      }
    }

    method DeallocatePortsForLoadBalancer(lb: LoadBalancer)
      modifies this
      ensures Valid()
      ensures forall e :: e in portLookup <==>
               e in old(portLookup) && !exists i: nat :: i < |lb.endpoints| && e == LbKey(lb, i)
      ensures forall e :: e in portLookup ==> portLookup[e] == old(portLookup)[e]
    {
      var keys := [];
      for i := 0 to |lb.endpoints|
        invariant portLookup == old(portLookup)
        invariant |keys| == i && forall j: nat :: j < i ==> keys[j] == LbKey(lb, j)
      {
        keys := keys + [LbKey(lb, i)];
      }
      DeallocateEndpoints(keys);
    }

    method DeallocatePortsForRoute(route: Route)
      modifies this
      ensures route.source.None? ==> unchanged(this)
      ensures route.source.Some? ==> Valid()
      ensures forall e :: e in portLookup <==>
               e in old(portLookup) && !exists s :: s in SourceServices(route) && e == ServiceKey(route, s)
      ensures forall e :: e in portLookup ==> portLookup[e] == old(portLookup)[e]
    {
      if route.source.None? {
        return;
      }
      var services := route.source.value.services;
      var keys := [];
      for i := 0 to |services|
        invariant portLookup == old(portLookup)
        invariant |keys| == i && forall j :: 0 <= j < i ==> keys[j] == ServiceKey(route, services[j])
      {
        keys := keys + [ServiceKey(route, services[i])];
      }
      DeallocateEndpoints(keys);
    }

    /** Rebuild the table from listed objects; None is a failed list call. */
    method LoadState(lbs: Option<seq<LoadBalancer>>, routes: Option<seq<Route>>) returns (ok: bool)
      requires Valid()
      modifies this
      ensures Valid() && (ok <==> lbs.Some? && routes.Some?)
      ensures portLookup == if ok then Load(lbs.value, routes.value) else old(portLookup)
    {
      hide LoadGroups, LoadServices, Ports;
      if lbs.None? {
        return false;
      }
      var table := map[];
      for a := 0 to |lbs.value|
        invariant unchanged(this) && table == LoadLbs(lbs.value, a)
      {
        table := LoadLoadBalancer(table, lbs.value[a]);
      }
      if routes.None? {
        return false;
      }
      ghost var loaded := table;
      for a := 0 to |routes.value|
        invariant unchanged(this) && table == LoadRoutes(loaded, routes.value, a)
      {
        table := LoadRoute(table, routes.value[a]);
      }
      portLookup := table;
      RecomputeAvailablePorts();
      ok := true;
    }

    static method LoadLoadBalancer(t: Table, lb: LoadBalancer) returns (table: Table)
      ensures table == LoadGroups(t, lb, |lb.endpoints|)
    {
      table := t;
      for i := 0 to |lb.endpoints|
        invariant table == LoadGroups(t, lb, i)
      {
        var endpointKey, row := LbKey(lb, i), map[];
        if endpointKey in table {
          row := table[endpointKey];
        }
        row := LoadEndpointPorts(row, lb.status, lb.endpoints[i].ports);
        table := table[endpointKey := row];
      }
    }

    static method LoadEndpointPorts(loaded: Row, status: seq<StatusPort>, ports: seq<EndpointPort>) returns (row: Row)
      ensures row == LoadPorts(loaded, status, ports, |ports|)
    {
      hide PortKey, Matches;
      row := loaded;
      for p := 0 to |ports|
        invariant row == LoadPorts(loaded, status, ports, p)
      {
        var s := FindStatus(status, ports[p]);
        if s < |status| {
          row := row[PortKey(ports[p].port, ports[p].protocol) := status[s].service.targetPort];
        }
      }
    }

    static method FindStatus(status: seq<StatusPort>, p: EndpointPort) returns (s: nat)
      ensures s == FirstMatch(status, p, 0)
    {
      s := 0;
      while s < |status| && !Matches(status[s], p)
        invariant s <= |status| && FirstMatch(status, p, s) == FirstMatch(status, p, 0)
      {
        s := s + 1;
      }
    }

    static method LoadRoute(t: Table, route: Route) returns (table: Table)
      ensures table == LoadServices(t, route, |SourceServices(route)|)
    {
      table := t;
      if route.source.None? {
        return;
      }
      var services := route.source.value.services;
      for i := 0 to |services|
        invariant table == LoadServices(t, route, i)
      {
        var svc, row := services[i], map[];
        var endpointKey, key := ServiceKey(route, svc), ServiceMapKey(svc.namespace, OriginName(svc));
        if endpointKey in table {
          row := table[endpointKey];
        }
        if key in route.status {
          row := LoadStatusPorts(row, route.status[key].ports);
        }
        table := table[endpointKey := row];
      }
    }

    static method LoadStatusPorts(loaded: Row, ports: seq<ServicePort>) returns (row: Row)
      ensures row == LoadServicePorts(loaded, ports, |ports|)
    {
      row := loaded;
      for p := 0 to |ports|
        invariant row == LoadServicePorts(loaded, ports, p)
      {
        row := row[PortKey(ports[p].port, ports[p].protocol) := ports[p].targetPort];
      }
    }
  }
}
