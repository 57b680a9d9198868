/** Restart: what the port table rebuilt from published status has in common with the one
    that was lost. */
module Restart {
  import opened Keys
  import opened Api
  import opened Names
  import opened PortTable
  import opened AllocatorRuns
  import opened PortRequests
  import opened LoadedTable
  import opened LoadBalancerMapping
  import opened SnapshotClosure
  import opened ListenerExclusivity

  // ----- publishing -----

  /** The status updateLoadBalancerStatus writes: the Service's ports, in the Service's
      order, each paired by index with an endpoint port. */
  function Written(lb: LoadBalancer, ports: seq<ServicePort>): seq<StatusPort>
    requires lb.endpoints != [] && |ports| <= |lb.endpoints[0].ports|
  {
    seq(|ports|, i requires 0 <= i < |ports| => StatusPort(ports[i], lb.endpoints[0].ports[i].port))
  }

  method PublishStatus(lb: LoadBalancer, ports: seq<ServicePort>) returns (r: LoadBalancer)
    requires lb.endpoints != [] ==> |ports| <= |lb.endpoints[0].ports|
    ensures r == if lb.endpoints == [] then lb else lb.(status := Written(lb, ports))
  {
    if |lb.endpoints| == 0 {
      return lb;
    }
    var updated := [];
    for i := 0 to |ports|
      invariant updated == Written(lb, ports)[..i]
    {
      updated := updated + [StatusPort(ports[i], lb.endpoints[0].ports[i].port)];
    }
    assert updated == Written(lb, ports);
    r := lb.(status := updated);
  }

  /** The API server may have filled in NodePorts. */
  predicate SameButNodePorts(stored: seq<ServicePort>, built: seq<ServicePort>) {
    |stored| == |built| && forall i :: 0 <= i < |stored| ==> stored[i].(nodePort := 0) == built[i].(nodePort := 0)
  }

  /** A LoadBalancer whose Service was built while every endpoint port of its first group was
      allocated, and whose status was published from that Service. */
  ghost predicate Published(lb: LoadBalancer, existing: seq<ServicePort>, t: Table, built: seq<ServicePort>,
                            stored: seq<ServicePort>) {
    && lb.endpoints != [] && |lb.ports| == |lb.endpoints[0].ports| && DistinctBackNames(lb.endpoints[0].ports)
    && (forall p :: p in lb.endpoints[0].ports ==> Has(t, LbKey(lb, 0), PortKey(p.port, p.protocol)))
    && InRange(t) && IsServicePorts(built, lb, existing, t) && SameButNodePorts(stored, built)
    && |stored| == |lb.ports| && lb.status == Written(lb, stored)
  }

  /** What LoadState rebuilds for the i-th endpoint group. */
  function RowAt(lb: LoadBalancer, i: nat): Row
    requires i < |lb.endpoints|
  {
    LoadPorts(map[], lb.status, lb.endpoints[i].ports, |lb.endpoints[i].ports|)
  }

  function Row0(lb: LoadBalancer): Row
    requires lb.endpoints != []
  {
    RowAt(lb, 0)
  }

  // ----- soundness -----

  /** A status port that matches an endpoint port by name, protocol and the index-paired
      number carries the port allocated for exactly that endpoint port. */
  lemma MatchCarriesPort(lb: LoadBalancer, existing: seq<ServicePort>, t: Table, built: seq<ServicePort>,
                         stored: seq<ServicePort>, i: nat, q: nat)
    requires Published(lb, existing, t, built, stored) && i < |lb.status| && q < |lb.endpoints[0].ports|
    requires lb.status[i].service.name == lb.endpoints[0].ports[q].name
             && lb.status[i].service.protocol == lb.endpoints[0].ports[q].protocol
    ensures var p := lb.endpoints[0].ports[q];
            Has(t, LbKey(lb, 0), PortKey(p.port, p.protocol))
                && lb.status[i].service.targetPort == t[LbKey(lb, 0)][PortKey(p.port, p.protocol)]
  {
    var ports := lb.endpoints[0].ports;
    var p := ports[q];
    assert p in ports;
    assert stored[i].(nodePort := 0) == built[i].(nodePort := 0) && built[i] in built;
    var j := MemberIsBuilt(built, lb, existing, t, built[i]);
    var f := FirstNamed(ports, lb.ports[j].name, 0);
    assert f == q;
    PortConversions(t[LbKey(lb, 0)][PortKey(p.port, p.protocol)]);
  }

  /** Soundness: every entry rebuilt from status is the entry that was lost, even where the
      index pairing put the wrong upstream port next to a Service port. */
  lemma {:induction false} RestartSound(lb: LoadBalancer, existing: seq<ServicePort>, t: Table,
                                        built: seq<ServicePort>, stored: seq<ServicePort>, n: nat, k: string)
    requires Published(lb, existing, t, built, stored) && n <= |lb.endpoints[0].ports|
    requires k in LoadPorts(map[], lb.status, lb.endpoints[0].ports, n)
    ensures Has(t, LbKey(lb, 0), k) && LoadPorts(map[], lb.status, lb.endpoints[0].ports, n)[k] == t[LbKey(lb, 0)][k]
  {
    hide *;
    FirstGroup(lb, existing, t, built, stored);
    LoadPortsStep(lb.status, lb.endpoints[0].ports, n, k);
    var p := lb.endpoints[0].ports[n - 1];
    var i := FirstMatch(lb.status, p, 0);
    if i < |lb.status| && k == PortKey(p.port, p.protocol) {
      MatchCarriesPort(lb, existing, t, built, stored, i, n - 1);
    } else {
      RestartSound(lb, existing, t, built, stored, n - 1, k);
    }
  }

  lemma FirstGroup(lb: LoadBalancer, existing: seq<ServicePort>, t: Table, built: seq<ServicePort>,
                   stored: seq<ServicePort>)
    requires Published(lb, existing, t, built, stored)
    ensures lb.endpoints != []
  {
  }

  lemma LoadPortsStep(status: seq<StatusPort>, ports: seq<EndpointPort>, n: nat, k: string)
    requires n <= |ports| && k in LoadPorts(map[], status, ports, n)
    ensures n > 0
    ensures var p := ports[n - 1];
            var i := FirstMatch(status, p, 0);
            if i < |status| && k == PortKey(p.port, p.protocol) then
              LoadPorts(map[], status, ports, n)[k] == status[i].service.targetPort
              && status[i].service.name == p.name && status[i].service.protocol == p.protocol
            else
              k in LoadPorts(map[], status, ports, n - 1)
              && LoadPorts(map[], status, ports, n)[k] == LoadPorts(map[], status, ports, n - 1)[k]
  {
    hide PortKey;
  }

  // ----- completeness -----

  /** How many of the names come before x. */
  function Rank(names: set<string>, x: string): nat {
    |set y | y in names && Before(y, x)|
  }

  function Members(names: seq<string>): set<string> {
    set x | x in names
  }

  lemma {:induction false} MembersCount(names: seq<string>, n: nat)
    requires n <= |names| && Distinct(names)
    ensures |Members(names[..n])| == n
  {
    hide Distinct;
    if n > 0 {
      MembersCount(names, n - 1);
      MembersStep(names, n);
    } else {
      assert Members(names[..0]) == {};
    }
  }

  lemma MembersStep(names: seq<string>, n: nat)
    requires 0 < n <= |names| && Distinct(names)
    ensures Members(names[..n]) == Members(names[..n - 1]) + {names[n - 1]} && names[n - 1] !in Members(names[..n - 1])
  {
    assert names[..n] == names[..n - 1] + [names[n - 1]];
    assert names[n - 1] !in names[..n - 1];
  }

  lemma IncreasingDistinct(names: seq<string>)
    requires Increasing(names)
    ensures Distinct(names)
  {
    hide Before;
    forall i, j | 0 <= i < j < |names| ensures names[i] != names[j] {
      BeforeIrreflexive(names[i]);
    }
  }

  /** In an increasing list the rank of a name is its position. */
  lemma IncreasingRank(names: seq<string>, i: nat)
    requires Increasing(names) && i < |names|
    ensures Rank(Members(names), names[i]) == i
  {
    hide Before;
    IncreasingDistinct(names);
    MembersCount(names, i);
    forall y ensures y in Members(names[..i]) <==> y in Members(names) && Before(y, names[i]) {
      if y in names[..i] {
        var j :| 0 <= j < i && names[..i][j] == y;
        assert names[j] == y;
      }
      if y in names && Before(y, names[i]) {
        var j :| 0 <= j < |names| && names[j] == y;
        BeforeIrreflexive(y);
        if j > i {
          BeforeTransitive(y, names[i], y);
        }
        assert names[..i][j] == y;
      }
    }
    assert Members(names[..i]) == set y | y in Members(names) && Before(y, names[i]);
  }

  function BackNames(ports: seq<EndpointPort>): seq<string> {
    seq(|ports|, i requires 0 <= i < |ports| => ports[i].name)
  }

  /** The endpoint port that the index pairing puts next to port q stands at the rank of
      q's name; pairing is right when that port has q's number. */
  predicate PairedRight(ports: seq<EndpointPort>, q: nat)
    requires q < |ports|
  {
    var i := Rank(Members(BackNames(ports)), ports[q].name);
    i < |ports| && ports[i].port == ports[q].port
  }

  /** Front and endpoint ports share names and protocols position by position, as every
      mapped LoadBalancer's do. */
  predicate SharedNames(lb: LoadBalancer)
    requires lb.endpoints != []
  {
    |lb.ports| == |lb.endpoints[0].ports|
    && forall i :: 0 <= i < |lb.ports|
        ==> lb.ports[i].name == lb.endpoints[0].ports[i].name
            && lb.ports[i].protocol == lb.endpoints[0].ports[i].protocol
  }

  lemma StoredNames(stored: seq<ServicePort>, built: seq<ServicePort>)
    requires SameButNodePorts(stored, built)
    ensures NamesOf(stored) == NamesOf(built)
  {
    forall i | 0 <= i < |stored| ensures stored[i].name == built[i].name {
      assert stored[i].(nodePort := 0) == built[i].(nodePort := 0);
    }
  }

  /** The status holds one port per name, in increasing order of names. */
  lemma StatusNames(lb: LoadBalancer, existing: seq<ServicePort>, t: Table, built: seq<ServicePort>,
                    stored: seq<ServicePort>)
    requires Published(lb, existing, t, built, stored) && SharedNames(lb)
    ensures Increasing(NamesOf(stored)) && Members(NamesOf(stored)) == Members(BackNames(lb.endpoints[0].ports))
  {
    var ports, spec := lb.endpoints[0].ports, BuiltPorts(lb, existing, t);
    SortedIncreasing(built, spec);
    StoredNames(stored, built);
    BuiltNames(lb, existing, t, built);
  }

  lemma BuiltNames(lb: LoadBalancer, existing: seq<ServicePort>, t: Table, built: seq<ServicePort>)
    requires lb.endpoints != [] && SharedNames(lb) && multiset(built) == multiset(BuiltPorts(lb, existing, t))
    ensures Members(NamesOf(built)) == Members(BackNames(lb.endpoints[0].ports))
  {
    hide Target, KeptNodePort;
    var ports, spec := lb.endpoints[0].ports, BuiltPorts(lb, existing, t);
    forall x ensures x in NamesOf(built) <==> x in BackNames(ports) {
      NameOfMember(built, spec, x);
      if x in BackNames(ports) {
        var i :| 0 <= i < |ports| && BackNames(ports)[i] == x;
        assert spec[i] in spec && spec[i].name == x;
      }
      if exists p :: p in spec && p.name == x {
        var p :| p in spec && p.name == x;
        var i :| 0 <= i < |spec| && spec[i] == p;
        assert BackNames(ports)[i] == x;
      }
    }
  }

  /** A status port of q's name exists, has q's protocol and stands at its rank. */
  lemma StatusAtRank(lb: LoadBalancer, existing: seq<ServicePort>, t: Table, built: seq<ServicePort>,
                     stored: seq<ServicePort>, q: nat) returns (i: nat)
    requires Published(lb, existing, t, built, stored) && SharedNames(lb) && q < |lb.endpoints[0].ports|
    ensures i < |lb.status| && i == Rank(Members(BackNames(lb.endpoints[0].ports)), lb.endpoints[0].ports[q].name)
    ensures lb.status[i].service.name == lb.endpoints[0].ports[q].name
            && lb.status[i].service.protocol == lb.endpoints[0].ports[q].protocol
    ensures forall x :: 0 <= x < |lb.status| && lb.status[x].service.name == lb.endpoints[0].ports[q].name ==> x == i
  {
    var ports := lb.endpoints[0].ports;
    StatusNames(lb, existing, t, built, stored);
    assert BackNames(ports)[q] in Members(NamesOf(stored));
    i :| 0 <= i < |stored| && NamesOf(stored)[i] == ports[q].name;
    IncreasingRank(NamesOf(stored), i);
    IncreasingDistinct(NamesOf(stored));
    StatusProtocol(lb, existing, t, built, stored, i, q);
    forall x | 0 <= x < |lb.status| && lb.status[x].service.name == ports[q].name ensures x == i {
      assert NamesOf(stored)[x] == NamesOf(stored)[i];
    }
  }

  lemma StatusProtocol(lb: LoadBalancer, existing: seq<ServicePort>, t: Table, built: seq<ServicePort>,
                       stored: seq<ServicePort>, i: nat, q: nat)
    requires Published(lb, existing, t, built, stored) && SharedNames(lb) && i < |stored| && q < |lb.endpoints[0].ports|
    requires stored[i].name == lb.endpoints[0].ports[q].name
    ensures stored[i].protocol == lb.endpoints[0].ports[q].protocol
  {
    assert stored[i].(nodePort := 0) == built[i].(nodePort := 0) && built[i] in built;
    var j := MemberIsBuilt(built, lb, existing, t, built[i]);
    assert lb.endpoints[0].ports[j].name == lb.endpoints[0].ports[q].name;
  }

  lemma MatchIffPaired(lb: LoadBalancer, existing: seq<ServicePort>, t: Table, built: seq<ServicePort>,
                       stored: seq<ServicePort>, q: nat)
    requires Published(lb, existing, t, built, stored) && SharedNames(lb) && q < |lb.endpoints[0].ports|
    ensures FirstMatch(lb.status, lb.endpoints[0].ports[q], 0) < |lb.status| <==> PairedRight(lb.endpoints[0].ports, q)
  {
    var i := StatusAtRank(lb, existing, t, built, stored, q);
    var p := lb.endpoints[0].ports[q];
    assert Matches(lb.status[i], p) <==> PairedRight(lb.endpoints[0].ports, q);
    var f := FirstMatch(lb.status, p, 0);
    hide Rank;
    if f < |lb.status| {
      assert Matches(lb.status[f], p) && f == i;
    }
  }

  lemma {:induction false} RowKeys(lb: LoadBalancer, n: nat, q: nat)
    requires lb.endpoints != [] && PlainPorts(lb.endpoints[0].ports) && n <= |lb.endpoints[0].ports|
             && q < |lb.endpoints[0].ports|
    ensures var ports := lb.endpoints[0].ports;
            PortKey(ports[q].port, ports[q].protocol) in LoadPorts(map[], lb.status, ports, n)
            <==> q < n && FirstMatch(lb.status, ports[q], 0) < |lb.status|
  {
    hide PortKey;
    if n > 0 {
      var ports := lb.endpoints[0].ports;
      RowKeys(lb, n - 1, q);
      if PortKey(ports[q].port, ports[q].protocol) == PortKey(ports[n - 1].port, ports[n - 1].protocol) {
        PortKeyInjective(ports[q].port, ports[q].protocol, ports[n - 1].port, ports[n - 1].protocol);
      }
    }
  }

  /** Completeness, exactly: the entry of an endpoint port survives a restart if and only
      if the port standing at the rank of its name has its number. */
  lemma RestartKeepsIff(lb: LoadBalancer, existing: seq<ServicePort>, t: Table, built: seq<ServicePort>,
                        stored: seq<ServicePort>, q: nat)
    requires Published(lb, existing, t, built, stored) && SharedNames(lb) && PlainPorts(lb.endpoints[0].ports)
             && q < |lb.endpoints[0].ports|
    ensures var p := lb.endpoints[0].ports[q];
            PortKey(p.port, p.protocol) in Row0(lb) <==> PairedRight(lb.endpoints[0].ports, q)
  {
    assert lb.endpoints != [];
    hide Published, SharedNames, PlainPorts, PortKey, PairedRight, LoadPorts;
    MatchIffPaired(lb, existing, t, built, stored, q);
    RowKeys(lb, |lb.endpoints[0].ports|, q);
  }

  /** Endpoint ports in name order lose nothing. */
  lemma NameOrderKeepsAll(lb: LoadBalancer, existing: seq<ServicePort>, t: Table, built: seq<ServicePort>,
                          stored: seq<ServicePort>, q: nat)
    requires Published(lb, existing, t, built, stored) && SharedNames(lb) && PlainPorts(lb.endpoints[0].ports)
             && q < |lb.endpoints[0].ports|
    requires Increasing(BackNames(lb.endpoints[0].ports))
    ensures var k := PortKey(lb.endpoints[0].ports[q].port, lb.endpoints[0].ports[q].protocol);
            k in Row0(lb) && Has(t, LbKey(lb, 0), k) && Row0(lb)[k] == t[LbKey(lb, 0)][k]
  {
    var ports := lb.endpoints[0].ports;
    IncreasingRank(BackNames(ports), q);
    hide Published, SharedNames, PlainPorts, PortKey, Rank, LoadPorts, Increasing;
    assert BackNames(ports)[q] == ports[q].name;
    assert PairedRight(ports, q);
    RestartKeepsIff(lb, existing, t, built, stored, q);
    RestartSound(lb, existing, t, built, stored, |ports|, PortKey(ports[q].port, ports[q].protocol));
  }

  /** Two ports out of name order with different numbers are both lost. */
  lemma ReversedPairLost(lb: LoadBalancer, existing: seq<ServicePort>, t: Table, built: seq<ServicePort>,
                         stored: seq<ServicePort>)
    requires Published(lb, existing, t, built, stored) && SharedNames(lb) && PlainPorts(lb.endpoints[0].ports)
    requires |lb.endpoints[0].ports| == 2 && Before(lb.endpoints[0].ports[1].name, lb.endpoints[0].ports[0].name)
    requires lb.endpoints[0].ports[0].port != lb.endpoints[0].ports[1].port
    ensures Row0(lb) == map[]
  {
    var ports := lb.endpoints[0].ports;
    var sorted := [ports[1].name, ports[0].name];
    assert Members(sorted) == Members(BackNames(ports)) by {
      assert BackNames(ports) == [ports[0].name, ports[1].name];
    }
    IncreasingRank(sorted, 0);
    IncreasingRank(sorted, 1);
    hide Published, SharedNames, PlainPorts, PortKey, Rank, Before;
    assert !PairedRight(ports, 0) && !PairedRight(ports, 1);
    MatchIffPaired(lb, existing, t, built, stored, 0);
    MatchIffPaired(lb, existing, t, built, stored, 1);
    assert LoadPorts(map[], lb.status, ports, 1) == map[];
  }

  // ----- the whole table -----

  lemma {:induction false} GroupsRow(lbs: seq<LoadBalancer>, a: nat, t: Table, n: nat, i: nat)
    requires NamedByUid(lbs) && a < |lbs| && n <= |lbs[a].endpoints| && i < |lbs[a].endpoints|
    requires forall j: nat :: j < |lbs[a].endpoints| ==> LbKey(lbs[a], j) !in t
    ensures LbKey(lbs[a], i) in LoadGroups(t, lbs[a], n) <==> i < n
    ensures i < n ==> LoadGroups(t, lbs[a], n)[LbKey(lbs[a], i)] == RowAt(lbs[a], i)
  {
    hide LbKey, LoadPorts, NamedByUid;
    if n > 0 {
      GroupsRow(lbs, a, t, n - 1, i);
      if i != n - 1 {
        LbKeysDiffer(lbs, a, i, a, n - 1);
      }
    }
  }

  lemma {:induction false} GroupsKeepRow(t: Table, lb: LoadBalancer, n: nat, ep: string)
    requires n <= |lb.endpoints| && forall j: nat :: j < |lb.endpoints| ==> LbKey(lb, j) != ep
    ensures ep in LoadGroups(t, lb, n) <==> ep in t
    ensures ep in t ==> LoadGroups(t, lb, n)[ep] == t[ep]
  {
    hide LbKey, LoadPorts;
    if n > 0 {
      GroupsKeepRow(t, lb, n - 1, ep);
    }
  }

  /** Loading other LoadBalancers leaves a group's row alone. */
  lemma {:induction false} LoadedRow(lbs: seq<LoadBalancer>, n: nat, a: nat, i: nat)
    requires n <= |lbs| && a < |lbs| && NamedByUid(lbs) && i < |lbs[a].endpoints|
    ensures LbKey(lbs[a], i) in LoadLbs(lbs, n) <==> a < n
    ensures a < n ==> LoadLbs(lbs, n)[LbKey(lbs[a], i)] == RowAt(lbs[a], i)
    decreases n
  {
    hide LbKey, LoadGroups, NamedByUid, RowAt;
    if n > 0 {
      var before, lb := LoadLbs(lbs, n - 1), lbs[n - 1];
      if a == n - 1 {
        forall j: nat | j < |lb.endpoints| ensures LbKey(lb, j) !in before {
          LoadedRow(lbs, n - 1, a, j);
        }
        GroupsRow(lbs, a, before, |lb.endpoints|, i);
      } else {
        LoadedRow(lbs, n - 1, a, i);
        forall j: nat | j < |lb.endpoints| ensures LbKey(lb, j) != LbKey(lbs[a], i) {
          LbKeysDiffer(lbs, n - 1, j, a, i);
        }
        GroupsKeepRow(before, lb, |lb.endpoints|, LbKey(lbs[a], i));
      }
    }
  }

  lemma {:induction false} RoutesKeepRow(t: Table, routes: seq<Route>, n: nat, ep: string)
    requires n <= |routes| && ep in t
    requires forall b, j | 0 <= b < |routes| && 0 <= j < |SourceServices(routes[b])| ::
             ServiceKey(routes[b], SourceServices(routes[b])[j]) != ep
    ensures ep in LoadRoutes(t, routes, n) && LoadRoutes(t, routes, n)[ep] == t[ep]
  {
    hide ServiceKey, LoadServices;
    if n > 0 {
      RoutesKeepRow(t, routes, n - 1, ep);
      ServicesKeepRow(LoadRoutes(t, routes, n - 1), routes[n - 1], |SourceServices(routes[n - 1])|, ep);
    }
  }

  lemma {:induction false} ServicesKeepRow(t: Table, r: Route, n: nat, ep: string)
    requires n <= |SourceServices(r)| && ep in t
    requires forall j | 0 <= j < |SourceServices(r)| :: ServiceKey(r, SourceServices(r)[j]) != ep
    ensures ep in LoadServices(t, r, n) && LoadServices(t, r, n)[ep] == t[ep]
  {
    hide ServiceKey, LoadServicePorts;
    if n > 0 {
      ServicesKeepRow(t, r, n - 1, ep);
    }
  }

  /** In the whole rebuilt table each group has the row read from its object's status. */
  lemma LoadedGroupRow(lbs: seq<LoadBalancer>, routes: seq<Route>, a: nat, i: nat)
    requires a < |lbs| && i < |lbs[a].endpoints| && NamedByUid(lbs) && KeysSeparate(lbs, routes)
    ensures LbKey(lbs[a], i) in Load(lbs, routes) && Load(lbs, routes)[LbKey(lbs[a], i)] == RowAt(lbs[a], i)
  {
    hide LbKey, LoadLbs, LoadRoutes, RowAt, NamedByUid, ServiceKey;
    LoadedRow(lbs, |lbs|, a, i);
    RoutesKeepRow(LoadLbs(lbs, |lbs|), routes, |routes|, LbKey(lbs[a], i));
  }

  /** Restart of the whole table: for every published LoadBalancer, each entry rebuilt for its
      first group is the lost one, whatever else is loaded beside it. */
  lemma RestartTableSound(lbs: seq<LoadBalancer>, routes: seq<Route>, a: nat, existing: seq<ServicePort>, t: Table,
                          built: seq<ServicePort>, stored: seq<ServicePort>, k: string)
    requires a < |lbs| && NamedByUid(lbs) && KeysSeparate(lbs, routes) && Published(lbs[a], existing, t, built, stored)
    ensures LbKey(lbs[a], 0) in Load(lbs, routes) && Load(lbs, routes)[LbKey(lbs[a], 0)] == Row0(lbs[a])
    ensures Has(Load(lbs, routes), LbKey(lbs[a], 0), k) ==>
              Has(t, LbKey(lbs[a], 0), k) && Load(lbs, routes)[LbKey(lbs[a], 0)][k] == t[LbKey(lbs[a], 0)][k]
  {
    hide Published, LbKey, Load, LoadPorts, NamedByUid, KeysSeparate;
    FirstGroup(lbs[a], existing, t, built, stored);
    LoadedGroupRow(lbs, routes, a, 0);
    if k in Row0(lbs[a]) {
      RestartSound(lbs[a], existing, t, built, stored, |lbs[a].endpoints[0].ports|, k);
    }
  }

  // ----- further groups -----

  /** Every status port carries a port of the first group. */
  lemma StatusOfFirstGroup(lb: LoadBalancer, existing: seq<ServicePort>, t: Table, built: seq<ServicePort>,
                           stored: seq<ServicePort>, i: nat)
    returns (k: string)
    requires Published(lb, existing, t, built, stored) && SharedNames(lb) && i < |lb.status|
    ensures Has(t, LbKey(lb, 0), k) && lb.status[i].service.targetPort == t[LbKey(lb, 0)][k]
  {
    assert stored[i].(nodePort := 0) == built[i].(nodePort := 0) && built[i] in built;
    var q := MemberIsBuilt(built, lb, existing, t, built[i]);
    var p := lb.endpoints[0].ports[q];
    assert lb.ports[q].name == p.name && lb.ports[q].protocol == p.protocol;
    assert lb.status[i].service.name == p.name && lb.status[i].service.protocol == p.protocol;
    MatchCarriesPort(lb, existing, t, built, stored, i, q);
    k := PortKey(p.port, p.protocol);
  }

  lemma {:induction false} RowEntryMatched(status: seq<StatusPort>, ports: seq<EndpointPort>, n: nat, k: string)
    returns (i: nat)
    requires n <= |ports| && k in LoadPorts(map[], status, ports, n)
    ensures i < |status| && LoadPorts(map[], status, ports, n)[k] == status[i].service.targetPort
  {
    hide *;
    LoadPortsStep(status, ports, n, k);
    i := FirstMatch(status, ports[n - 1], 0);
    if !(i < |status| && k == PortKey(ports[n - 1].port, ports[n - 1].protocol)) {
      i := RowEntryMatched(status, ports, n - 1, k);
    }
  }

  /** What is rebuilt for a further group is always wrong: it carries a port of the first. */
  lemma FurtherGroupWrong(lb: LoadBalancer, existing: seq<ServicePort>, t: Table, built: seq<ServicePort>,
                          stored: seq<ServicePort>, j: nat, k: string)
    requires Published(lb, existing, t, built, stored) && SharedNames(lb) && Injective(t)
    requires 0 < j < |lb.endpoints| && k in RowAt(lb, j)
    ensures !(Has(t, LbKey(lb, j), k) && t[LbKey(lb, j)][k] == RowAt(lb, j)[k])
  {
    var i := RowEntryMatched(lb.status, lb.endpoints[j].ports, |lb.endpoints[j].ports|, k);
    var k0 := StatusOfFirstGroup(lb, existing, t, built, stored, i);
    EndpointKeyEqual(lb.namespace, lb.name, 0, lb.namespace, lb.name, j);
  }

  /** No port of a further group looks like a published port of the first. */
  predicate FurtherGroupsUnmatched(lb: LoadBalancer) {
    forall j, q :: 0 < j < |lb.endpoints| && 0 <= q < |lb.endpoints[j].ports|
           ==> FirstMatch(lb.status, lb.endpoints[j].ports[q], 0) == |lb.status|
  }

  lemma {:induction false} RowEmptyIff(status: seq<StatusPort>, ports: seq<EndpointPort>, n: nat)
    requires n <= |ports|
    ensures LoadPorts(map[], status, ports, n) == map[]
            <==> forall q :: 0 <= q < n ==> FirstMatch(status, ports[q], 0) == |status|
  {
    hide PortKey, Matches;
    if n > 0 {
      RowEmptyIff(status, ports, n - 1);
      var before, i := LoadPorts(map[], status, ports, n - 1), FirstMatch(status, ports[n - 1], 0);
      if i < |status| {
        assert PortKey(ports[n - 1].port, ports[n - 1].protocol) in LoadPorts(map[], status, ports, n);
      }
    }
  }

  /** The rebuilt entry, if there is one, is the lost one. */
  ghost predicate EntrySound(loaded: Table, t: Table, ep: string, k: string) {
    Has(loaded, ep, k) ==> Has(t, ep, k) && loaded[ep][k] == t[ep][k]
  }

  /** All that a restart rebuilds for a published LoadBalancer is what was lost, if and only if
      no port of a further group matches a published port. */
  lemma RestartAllSoundIff(lbs: seq<LoadBalancer>, routes: seq<Route>, a: nat, existing: seq<ServicePort>, t: Table,
                           built: seq<ServicePort>, stored: seq<ServicePort>)
    requires a < |lbs| && NamedByUid(lbs) && KeysSeparate(lbs, routes) && Injective(t)
    requires Published(lbs[a], existing, t, built, stored) && SharedNames(lbs[a])
    ensures (forall j: nat, k | j < |lbs[a].endpoints| :: EntrySound(Load(lbs, routes), t, LbKey(lbs[a], j), k))
            <==> FurtherGroupsUnmatched(lbs[a])
  {
    hide Published, LbKey, Load, LoadPorts, NamedByUid, KeysSeparate, SharedNames, Injective, FirstMatch;
    var lb, loaded := lbs[a], Load(lbs, routes);
    forall j: nat | j < |lb.endpoints|
      ensures LbKey(lb, j) in loaded && loaded[LbKey(lb, j)] == RowAt(lb, j)
      ensures RowAt(lb, j) == map[]
              <==> forall q :: 0 <= q < |lb.endpoints[j].ports| ==>
                    FirstMatch(lb.status, lb.endpoints[j].ports[q], 0) == |lb.status|
    {
      LoadedGroupRow(lbs, routes, a, j);
      RowEmptyIff(lb.status, lb.endpoints[j].ports, |lb.endpoints[j].ports|);
    }
    if FurtherGroupsUnmatched(lb) {
      forall j: nat, k | j < |lb.endpoints| ensures EntrySound(loaded, t, LbKey(lb, j), k) {
        if j == 0 {
          RestartTableSound(lbs, routes, a, existing, t, built, stored, k);
        } else {
          assert RowAt(lb, j) == map[];
        }
      }
    } else {
      var j, q :| 0 < j < |lb.endpoints| && 0 <= q < |lb.endpoints[j].ports|
          && FirstMatch(lb.status, lb.endpoints[j].ports[q], 0) != |lb.status|;
      assert RowAt(lb, j) != map[];
      var k :| k in RowAt(lb, j);
      FurtherGroupWrong(lb, existing, t, built, stored, j, k);
      assert !EntrySound(loaded, t, LbKey(lb, j), k);
    }
  }

  /** Two groups with one port each, of one name and number: the second is rebuilt with the port
      of the first. */
  lemma SecondGroupTakesFirst(lb: LoadBalancer, group: Endpoints)
    requires group.ports == [EndpointPort("http", 30080, TCP)] && lb.endpoints == [group, group]
    requires lb.status == [StatusPort(ServicePort("http", 80, TCP, 10000, 0), 30080)]
    ensures RowAt(lb, 1) == RowAt(lb, 0) == map[PortKey(30080, TCP) := 10000] && !FurtherGroupsUnmatched(lb)
  {
    hide PortKey;
    assert Matches(lb.status[0], group.ports[0]);
    assert FirstMatch(lb.status, group.ports[0], 0) == 0;
    assert LoadPorts(map[], lb.status, group.ports, 0) == map[];
    assert lb.endpoints[1].ports[0] == group.ports[0];
  }
}
