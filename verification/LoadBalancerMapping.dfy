/** From a tenant Service to a LoadBalancer, and from a LoadBalancer to the ports of the
    Service in front of Envoy. */
module LoadBalancerMapping {
  import opened Text
  import opened Keys
  import opened Api
  import opened Names
  import opened PortTable
  import opened PortAllocation

  function LowerChar(c: char): char {
    if 'A' <= c <= 'Z' then c - 'A' + 'a' else c
  }

  /** strings.ToLower on ASCII. */
  function ToLower(s: string): string {
    seq(|s|, i requires 0 <= i < |s| => LowerChar(s[i]))
  }

  function PortName(p: ServicePort): string {
    if p.name != "" then ToLower(p.name) else Decimal(p.port) + "-" + ToLower(p.protocol)
  }

  function FrontPort(p: ServicePort): LoadBalancerPort {
    LoadBalancerPort(PortName(p), p.port, p.protocol)
  }

  function BackPort(p: ServicePort): EndpointPort {
    EndpointPort(PortName(p), p.nodePort, p.protocol)
  }

  /** The LoadBalancer the tenant side publishes for a Service. */
  function Mapped(svc: Service, addresses: seq<string>, useReference: bool, cluster: string): LoadBalancer {
    var n := |svc.ports|;
    var group := Endpoints(
      if useReference then [] else seq(|addresses|, i requires 0 <= i < |addresses| => Address(addresses[i], "")),
      if useReference then Some(DEFAULT_ADDRESSES) else None,
      seq(n, i requires 0 <= i < n => BackPort(svc.ports[i])));
    LoadBalancer(
      svc.uid, cluster,
      map[LABEL_ORIGIN_NAMESPACE := svc.namespace, LABEL_ORIGIN_NAME := svc.name, LABEL_TENANT := cluster],
      if svc.annotations.None? then None else Some(svc.annotations.value - {LAST_APPLIED}),
      false,
      seq(n, i requires 0 <= i < n => FrontPort(svc.ports[i])),
      [group], svc.kind, [])
  }

  /** a is b with the capitals replaced. */
  predicate LowerOf(a: string, b: string) {
    |a| == |b| && forall i :: 0 <= i < |b| ==> a[i] as int == b[i] as int + if 'A' <= b[i] <= 'Z' then 32 else 0
  }

  predicate NamesPort(name: string, p: ServicePort) {
    if p.name != "" then LowerOf(name, p.name)
    else
      var digits := |Decimal(p.port)|;
      digits < |name| && name[..digits] == Decimal(p.port) && name[digits] == '-'
      && LowerOf(name[digits + 1..], p.protocol)
  }

  /** Field by field: what is published for a Service, the tenant's IPs in order or the reference. */
  ghost predicate PublishedFor(lb: LoadBalancer, svc: Service, ips: seq<string>, useReference: bool, cluster: string) {
    && lb.name == svc.uid && lb.namespace == cluster && lb.kind == svc.kind
    && lb.labels == map["kubelb.k8c.io/origin-ns" := svc.namespace, "kubelb.k8c.io/origin-name" := svc.name,
                        "kubelb.k8c.io/tenant" := cluster]
    && (lb.annotations.Some? <==> svc.annotations.Some?)
    && (lb.annotations.Some? ==> WithoutLastApplied(lb.annotations.value, svc.annotations.value))
    && |lb.endpoints| == 1 && |lb.ports| == |svc.ports| == |lb.endpoints[0].ports|
    && (forall i :: 0 <= i < |svc.ports| ==>
          && NamesPort(lb.ports[i].name, svc.ports[i]) && lb.ports[i].port == svc.ports[i].port
          && lb.ports[i].protocol == svc.ports[i].protocol)
    && (forall i :: 0 <= i < |svc.ports| ==>
          && lb.endpoints[0].ports[i].name == lb.ports[i].name
          && lb.endpoints[0].ports[i].port == svc.ports[i].nodePort
          && lb.endpoints[0].ports[i].protocol == svc.ports[i].protocol)
    && var addresses := lb.endpoints[0].addresses;
       if useReference then addresses == [] && lb.endpoints[0].reference == Some("default")
       else && lb.endpoints[0].reference == None && |addresses| == |ips|
            && forall i :: 0 <= i < |ips| ==> addresses[i].ip == ips[i] && addresses[i].hostname == ""
  }

  ghost predicate WithoutLastApplied(a: Labels, b: Labels) {
    forall k :: (k in a <==> k in b && k != "kubectl.kubernetes.io/last-applied-configuration")
                && (k in a ==> a[k] == b[k])
  }

  lemma LowerOfLower(s: string)
    ensures LowerOf(ToLower(s), s)
  {
  }

  lemma PortNameNames(p: ServicePort)
    ensures NamesPort(PortName(p), p)
  {
    LowerOfLower(p.name);
    LowerOfLower(p.protocol);
    hide ToLower, LowerOf;
    var digits := |Decimal(p.port)|;
    if p.name == "" {
      assert PortName(p)[digits + 1..] == ToLower(p.protocol);
    }
  }

  lemma MappedPublished(svc: Service, ips: seq<string>, useReference: bool, cluster: string)
    ensures PublishedFor(Mapped(svc, ips, useReference, cluster), svc, ips, useReference, cluster)
  {
    hide NamesPort, PortName;
    forall i | 0 <= i < |svc.ports| ensures NamesPort(PortName(svc.ports[i]), svc.ports[i]) {
      PortNameNames(svc.ports[i]);
    }
  }

  method MapLoadBalancer(svc: Service, addresses: seq<string>, useReference: bool, cluster: string)
    returns (lb: LoadBalancer)
    ensures lb == Mapped(svc, addresses, useReference, cluster)
    ensures PublishedFor(lb, svc, addresses, useReference, cluster)
  {
    hide PublishedFor, ToLower, Decimal;
    ghost var spec := Mapped(svc, addresses, useReference, cluster);
    var ports, endpointPorts := [], [];
    for i := 0 to |svc.ports|
      invariant ports == spec.ports[..i] && endpointPorts == spec.endpoints[0].ports[..i]
    {
      var port := svc.ports[i];
      var name := Decimal(port.port) + "-" + ToLower(port.protocol);
      if port.name != "" {
        name := ToLower(port.name);
      }
      ports := ports + [LoadBalancerPort(name, port.port, port.protocol)];
      endpointPorts := endpointPorts + [EndpointPort(name, port.nodePort, port.protocol)];
    }
    var group := Endpoints([], None, endpointPorts);
    if useReference {
      group := group.(reference := Some(DEFAULT_ADDRESSES));
    } else {
      var ips := [];
      for i := 0 to |addresses|
        invariant ips == spec.endpoints[0].addresses[..i]
      {
        ips := ips + [Address(addresses[i], "")];
      }
      group := group.(addresses := ips);
    }
    var annotations := svc.annotations;
    if annotations.Some? {
      annotations := Some(annotations.value - {LAST_APPLIED});
    }
    lb := LoadBalancer(
      svc.uid, cluster,
      map[LABEL_ORIGIN_NAMESPACE := svc.namespace, LABEL_ORIGIN_NAME := svc.name, LABEL_TENANT := cluster],
      annotations, false, ports, [group], svc.kind, []);
    assert lb.ports == spec.ports && group.addresses == spec.endpoints[0].addresses
           && group.ports == spec.endpoints[0].ports;
    MappedPublished(svc, addresses, useReference, cluster);
  }

  predicate DistinctFrontNames(ports: seq<LoadBalancerPort>) {
    forall i, j :: 0 <= i < j < |ports| ==> ports[i].name != ports[j].name
  }

  predicate DistinctBackNames(ports: seq<EndpointPort>) {
    forall i, j :: 0 <= i < j < |ports| ==> ports[i].name != ports[j].name
  }

  predicate IsLower(s: string) {
    forall i :: 0 <= i < |s| ==> !('A' <= s[i] <= 'Z')
  }

  /** What the API server admits: one port, or ports with distinct lower-case names. */
  predicate AdmittedPorts(ports: seq<ServicePort>) {
    |ports| <= 1
    || (DistinctNames(ports) && forall i :: 0 <= i < |ports| ==> ports[i].name != "" && IsLower(ports[i].name))
  }

  /** Every admitted Service maps to distinct names on both sides. */
  lemma AdmittedNamesDistinct(svc: Service, addresses: seq<string>, useReference: bool, cluster: string)
    requires AdmittedPorts(svc.ports)
    ensures DistinctFrontNames(Mapped(svc, addresses, useReference, cluster).ports)
    ensures DistinctBackNames(Mapped(svc, addresses, useReference, cluster).endpoints[0].ports)
  {
    if |svc.ports| > 1 {
      forall i | 0 <= i < |svc.ports| ensures PortName(svc.ports[i]) == svc.ports[i].name {
        var name := svc.ports[i].name;
        assert IsLower(name);
        assert ToLower(name) == name;
      }
    }
  }

  /** The first endpoint port of that name from j on, or |ports|. */
  function FirstNamed(ports: seq<EndpointPort>, name: string, j: nat): (r: nat)
    requires j <= |ports|
    ensures j <= r <= |ports|
    ensures r < |ports| ==> ports[r].name == name
    ensures forall i :: j <= i < r ==> ports[i].name != name
    decreases |ports| - j
  {
    if j == |ports| || ports[j].name == name then j else FirstNamed(ports, name, j + 1)
  }

  /** The loop reads endpoint ports by the index of a front port. */
  predicate Indexable(lb: LoadBalancer) {
    lb.endpoints != [] ==> |lb.ports| <= |lb.endpoints[0].ports|
  }

  /** The upstream port of a front port: by name, else by index. */
  function Upstream(lb: LoadBalancer, i: nat): int
    requires lb.endpoints != [] && Indexable(lb) && i < |lb.ports|
  {
    var ports := lb.endpoints[0].ports;
    var j := FirstNamed(ports, lb.ports[i].name, 0);
    if j < |ports| then ports[j].port else ports[i].port
  }

  function Target(lb: LoadBalancer, t: Table, i: nat): int
    requires lb.endpoints != [] && Indexable(lb) && i < |lb.ports|
  {
    var ep, k := EndpointKey(lb.namespace, lb.name, 0), PortKey(Upstream(lb, i), lb.ports[i].protocol);
    if Has(t, ep, k) then Int32(t[ep][k]) else Upstream(lb, i)
  }

  predicate SamePort(e: ServicePort, p: LoadBalancerPort) {
    e.name == p.name || (e.port == p.port && e.protocol == p.protocol)
  }

  /** The first port of the existing Service that matches from j on, or |existing|. */
  function FirstExisting(existing: seq<ServicePort>, p: LoadBalancerPort, j: nat): (r: nat)
    requires j <= |existing|
    ensures j <= r <= |existing|
    ensures r < |existing| ==> SamePort(existing[r], p)
    ensures forall i :: j <= i < r ==> !SamePort(existing[i], p)
    decreases |existing| - j
  {
    if j == |existing| || SamePort(existing[j], p) then j else FirstExisting(existing, p, j + 1)
  }

  function KeptNodePort(existing: seq<ServicePort>, p: LoadBalancerPort): int {
    var j := FirstExisting(existing, p, 0);
    if j < |existing| then existing[j].nodePort else 0
  }

  function BuiltPort(lb: LoadBalancer, existing: seq<ServicePort>, t: Table, i: nat): ServicePort
    requires lb.endpoints != [] && Indexable(lb) && i < |lb.ports|
  {
    var p := lb.ports[i];
    ServicePort(p.name, p.port, p.protocol, Target(lb, t, i), KeptNodePort(existing, p))
  }

  function BuiltPorts(lb: LoadBalancer, existing: seq<ServicePort>, t: Table): seq<ServicePort>
    requires lb.endpoints != [] && Indexable(lb)
  {
    seq(|lb.ports|, i requires 0 <= i < |lb.ports| => BuiltPort(lb, existing, t, i))
  }

  /** Where a front port leads: the first endpoint port of its name, or else the one of its index,
      and from there to the allocated port if there is one. */
  lemma TargetMeans(lb: LoadBalancer, existing: seq<ServicePort>, t: Table, i: nat, j: nat)
    requires lb.endpoints != [] && Indexable(lb) && i < |lb.ports| && j < |lb.endpoints[0].ports|
    requires var ports, name := lb.endpoints[0].ports, lb.ports[i].name;
             if exists k :: 0 <= k < |ports| && ports[k].name == name
             then ports[j].name == name && forall k :: 0 <= k < j ==> ports[k].name != name
             else j == i
    ensures var p, u := BuiltPort(lb, existing, t, i), lb.endpoints[0].ports[j].port;
            var ep, key := lb.namespace + "-" + lb.name + "-ep-0", Decimal(u) + "-" + lb.ports[i].protocol;
            && p.name == lb.ports[i].name && p.port == lb.ports[i].port && p.protocol == lb.ports[i].protocol
            && p.targetPort == if ep in t && key in t[ep] then Int32(t[ep][key]) else u
  {
    var ports, name := lb.endpoints[0].ports, lb.ports[i].name;
    var f := FirstNamed(ports, name, 0);
    assert EndpointKey(lb.namespace, lb.name, 0) == lb.namespace + "-" + lb.name + "-ep-0" by {
      assert Decimal(0) == "0" && "-ep-" + "0" == "-ep-0";
    }
    assert f == j || (f == |ports| && i == j);
  }

  /** The NodePort kept: that of the first stored port of the name, or of the number and protocol. */
  lemma KeptMeans(existing: seq<ServicePort>, p: LoadBalancerPort, j: nat)
    requires j <= |existing|
    requires forall k :: 0 <= k < j ==> existing[k].name != p.name
                                        && (existing[k].port, existing[k].protocol) != (p.port, p.protocol)
    ensures j == |existing| ==> KeptNodePort(existing, p) == 0
    ensures j < |existing|
            && (existing[j].name == p.name || (existing[j].port, existing[j].protocol) == (p.port, p.protocol))
            ==> KeptNodePort(existing, p) == existing[j].nodePort
  {
    var f := FirstExisting(existing, p, 0);
    assert f < |existing| ==> SamePort(existing[f], p);
  }

  /** What CreateServicePorts returns, up to the order of equal names. */
  ghost predicate IsServicePorts(r: seq<ServicePort>, lb: LoadBalancer, existing: seq<ServicePort>, t: Table)
    requires Indexable(lb)
  {
    if lb.endpoints == [] then r == []
    else SortedByName(r) && multiset(r) == multiset(BuiltPorts(lb, existing, t))
  }

  method CreateServicePorts(lb: LoadBalancer, existing: seq<ServicePort>, allocator: PortAllocator)
    returns (r: seq<ServicePort>)
    requires Indexable(lb)
    ensures IsServicePorts(r, lb, existing, allocator.portLookup)
  {
    if |lb.endpoints| == 0 {
      return [];
    }
    r := [];
    for i := 0 to |lb.ports|
      invariant r == BuiltPorts(lb, existing, allocator.portLookup)[..i]
    {
      var p := CreateServicePort(lb, existing, allocator, i);
      r := r + [p];
    }
    assert r == BuiltPorts(lb, existing, allocator.portLookup);
    r := SortByName(r);
  }

  method CreateServicePort(lb: LoadBalancer, existing: seq<ServicePort>, allocator: PortAllocator, i: nat)
    returns (p: ServicePort)
    requires lb.endpoints != [] && Indexable(lb) && i < |lb.ports|
    ensures p == BuiltPort(lb, existing, allocator.portLookup, i)
  {
    var lbPort, ports := lb.ports[i], lb.endpoints[0].ports;
    var targetPort, j := ports[i].port, 0;
    while j < |ports|
      invariant j <= |ports| && FirstNamed(ports, lbPort.name, 0) == FirstNamed(ports, lbPort.name, j)
      invariant targetPort == ports[i].port
    {
      if ports[j].name == lbPort.name {
        targetPort := ports[j].port;
        break;
      }
      j := j + 1;
    }
    assert targetPort == Upstream(lb, i);
    var value, found := allocator.Lookup(EndpointKey(lb.namespace, lb.name, 0), PortKey(targetPort, lbPort.protocol));
    if found {
      targetPort := Int32(value);
    }
    p := ServicePort(lbPort.name, lbPort.port, lbPort.protocol, targetPort, 0);
    j := 0;
    while j < |existing| && !SamePort(existing[j], lbPort)
      invariant j <= |existing| && FirstExisting(existing, lbPort, 0) == FirstExisting(existing, lbPort, j)
    {
      j := j + 1;
    }
    if j < |existing| && existing[j].nodePort != 0 {
      p := p.(nodePort := existing[j].nodePort);
    }
  }

  /** With distinct names a rearrangement keeps them distinct. */
  lemma DistinctPermuted(r: seq<ServicePort>, s: seq<ServicePort>)
    requires multiset(r) == multiset(s) && DistinctNames(s)
    ensures DistinctNames(r)
  {
    forall i, j | 0 <= i < j < |r| ensures r[i].name != r[j].name {
      assert r[i] in multiset(r) && r[j] in multiset(r);
      var k :| 0 <= k < |s| && s[k] == r[i];
      var l :| 0 <= l < |s| && s[l] == r[j];
      CountOnce(s, k);
      if k == l {
        CountTwice(r, i, j);
      }
    }
  }

  lemma CountOnce(s: seq<ServicePort>, k: nat)
    requires DistinctNames(s) && k < |s|
    ensures multiset(s)[s[k]] == 1
  {
    assert s == s[..k] + [s[k]] + s[k + 1..];
    assert s[k] !in s[..k] && s[k] !in s[k + 1..];
  }

  lemma CountTwice(r: seq<ServicePort>, i: nat, j: nat)
    requires i < j < |r| && r[i] == r[j]
    ensures multiset(r)[r[i]] >= 2
  {
    assert r == r[..j] + [r[j]] + r[j + 1..];
    assert r[i] in r[..j];
  }

  /** Sorting is determined by the members once names are distinct. */
  lemma SortUnique(r: seq<ServicePort>, r': seq<ServicePort>, s: seq<ServicePort>)
    requires DistinctNames(s) && multiset(r) == multiset(s) == multiset(r')
    requires SortedByName(r) && SortedByName(r')
    ensures r == r'
  {
    hide Before;
    SortedIncreasing(r, s);
    SortedIncreasing(r', s);
    var a, b := NamesOf(r), NamesOf(r');
    forall x ensures x in a <==> x in b {
      NameOfMember(r, s, x);
      NameOfMember(r', s, x);
    }
    IncreasingUnique(a, b);
    assert |r| == |a| == |b| == |r'|;
    forall i | 0 <= i < |r| ensures r[i] == r'[i] {
      assert a[i] == b[i];
      assert r[i] in multiset(r) && r'[i] in multiset(r');
    }
  }

  lemma SortedIncreasing(r: seq<ServicePort>, s: seq<ServicePort>)
    requires DistinctNames(s) && multiset(r) == multiset(s) && SortedByName(r)
    ensures Increasing(NamesOf(r)) && DistinctNames(r)
  {
    hide Before;
    DistinctPermuted(r, s);
    forall i, j | 0 <= i < j < |r| ensures Before(r[i].name, r[j].name) {
      BeforeTotal(r[i].name, r[j].name);
    }
  }

  lemma NameOfMember(r: seq<ServicePort>, s: seq<ServicePort>, x: string)
    requires multiset(r) == multiset(s)
    ensures x in NamesOf(r) <==> exists p :: p in s && p.name == x
  {
    forall p ensures p in r <==> p in s {
      assert p in multiset(r) <==> p in multiset(s);
    }
    if x in NamesOf(r) {
      var i :| 0 <= i < |r| && NamesOf(r)[i] == x;
      assert r[i] in s && r[i].name == x;
    }
    forall p | p in s && p.name == x ensures x in NamesOf(r) {
      var i :| 0 <= i < |r| && r[i] == p;
      assert NamesOf(r)[i] == x;
    }
  }

  /** Whatever the unstable sort does, distinct front names leave one result. */
  lemma ServicePortsUnique(r: seq<ServicePort>, r': seq<ServicePort>, lb: LoadBalancer, existing: seq<ServicePort>,
                           t: Table)
    requires Indexable(lb) && DistinctFrontNames(lb.ports)
    requires IsServicePorts(r, lb, existing, t) && IsServicePorts(r', lb, existing, t)
    ensures r == r'
  {
    if lb.endpoints != [] {
      SortUnique(r, r', BuiltPorts(lb, existing, t));
    }
  }

  lemma BuiltPortIn(r: seq<ServicePort>, lb: LoadBalancer, existing: seq<ServicePort>, t: Table, i: nat)
    requires Indexable(lb) && lb.endpoints != [] && i < |lb.ports| && IsServicePorts(r, lb, existing, t)
    ensures BuiltPort(lb, existing, t, i) in r
  {
    assert BuiltPorts(lb, existing, t)[i] in multiset(r);
  }

  lemma MemberIsBuilt(r: seq<ServicePort>, lb: LoadBalancer, existing: seq<ServicePort>, t: Table, p: ServicePort)
    returns (i: nat)
    requires Indexable(lb) && lb.endpoints != [] && IsServicePorts(r, lb, existing, t) && p in r
    ensures i < |lb.ports| && p == BuiltPort(lb, existing, t, i)
  {
    assert p in multiset(BuiltPorts(lb, existing, t));
    i :| 0 <= i < |lb.ports| && BuiltPorts(lb, existing, t)[i] == p;
  }

  // ----- annotations and change detection -----

  /** CompareAnnotations. */
  predicate SameAnnotations(a: Option<Labels>, b: Option<Labels>) {
    match (a, b)
    case (None, None) => true
    case (Some(x), Some(y)) => x == y || x - {LAST_APPLIED} == y - {LAST_APPLIED}
    case _ => false
  }

  /** MergeAnnotations. */
  function MergeAnnotations(existing: Option<Labels>, desired: Option<Labels>): Option<Labels> {
    if SameAnnotations(existing, desired) then existing
    else
      var e, d := if existing.Some? then existing.value else map[], if desired.Some? then desired.value else map[];
      Some(e + d)
  }

  /** LoadBalancerIsDesiredState: compares by position and never looks at a name. */
  predicate IsDesiredState(actual: LoadBalancer, desired: LoadBalancer) {
    && actual.kind == desired.kind
    && |actual.ports| == |desired.ports|
    && (forall i :: 0 <= i < |desired.ports| ==>
          actual.ports[i].protocol == desired.ports[i].protocol && actual.ports[i].port == desired.ports[i].port)
    && |actual.endpoints| == |desired.endpoints|
    && (forall i :: 0 <= i < |desired.endpoints| ==> SameGroup(actual.endpoints[i], desired.endpoints[i]))
    && SameAnnotations(actual.annotations, desired.annotations)
  }

  predicate SameGroup(a: Endpoints, d: Endpoints) {
    && |d.addresses| == |a.addresses| && |d.ports| == |a.ports|
    && (forall i :: 0 <= i < |d.addresses| ==> d.addresses[i] == a.addresses[i])
    && (forall i :: 0 <= i < |d.ports| ==>
         d.ports[i].port == a.ports[i].port && d.ports[i].protocol == a.ports[i].protocol)
  }

  /** One forwarding rule: front port and protocol to upstream port, resolved by name. */
  datatype Rule = Rule(port: int, protocol: string, upstream: int)

  function Rules(lb: LoadBalancer): seq<Rule>
    requires lb.endpoints != [] && Indexable(lb)
  {
    seq(|lb.ports|, i requires 0 <= i < |lb.ports| => Rule(lb.ports[i].port, lb.ports[i].protocol, Upstream(lb, i)))
  }

  /** With distinct names, looking a mapped port up by name finds its own position. */
  lemma MappedUpstream(svc: Service, addresses: seq<string>, useReference: bool, cluster: string, i: nat)
    requires var lb := Mapped(svc, addresses, useReference, cluster); DistinctFrontNames(lb.ports) && i < |lb.ports|
    ensures Upstream(Mapped(svc, addresses, useReference, cluster), i) == svc.ports[i].nodePort
  {
    var lb := Mapped(svc, addresses, useReference, cluster);
    var j := FirstNamed(lb.endpoints[0].ports, lb.ports[i].name, 0);
    assert lb.endpoints[0].ports[i].name == lb.ports[i].name;
    assert j < |lb.ports| && lb.endpoints[0].ports[j].name == lb.ports[j].name;
  }

  function RuleOf(p: ServicePort): Rule {
    Rule(p.port, p.protocol, p.nodePort)
  }

  function RulesOf(ports: seq<ServicePort>): seq<Rule> {
    seq(|ports|, i requires 0 <= i < |ports| => RuleOf(ports[i]))
  }

  lemma MappedRules(s: Service, a: seq<string>, useReference: bool, c: string)
    requires DistinctFrontNames(Mapped(s, a, useReference, c).ports)
    ensures Rules(Mapped(s, a, useReference, c)) == RulesOf(s.ports)
  {
    forall i | 0 <= i < |s.ports| ensures Rules(Mapped(s, a, useReference, c))[i] == RuleOf(s.ports[i]) {
      MappedUpstream(s, a, useReference, c, i);
    }
  }

  lemma SamePortsIffRules(ports: seq<ServicePort>, ports': seq<ServicePort>)
    ensures RulesOf(ports) == RulesOf(ports')
            <==> |ports| == |ports'| && forall i :: 0 <= i < |ports| ==> RuleOf(ports[i]) == RuleOf(ports'[i])
  {
    if RulesOf(ports) == RulesOf(ports') {
      assert |RulesOf(ports)| == |RulesOf(ports')|;
      forall i | 0 <= i < |ports| ensures RuleOf(ports[i]) == RuleOf(ports'[i]) {
        assert RulesOf(ports)[i] == RulesOf(ports')[i];
      }
    }
  }

  lemma DetectorPositional(s: Service, a: seq<string>, u: bool, c: string, s': Service, a': seq<string>, u': bool,
                           c': string)
    ensures var x, y := Mapped(s, a, u, c), Mapped(s', a', u', c');
            IsDesiredState(x, y)
            <==> x.kind == y.kind && RulesOf(s.ports) == RulesOf(s'.ports)
                 && x.endpoints[0].addresses == y.endpoints[0].addresses
                 && SameAnnotations(x.annotations, y.annotations)
  {
    hide Mapped, SameAnnotations, RulesOf;
    var x, y := Mapped(s, a, u, c), Mapped(s', a', u', c');
    MappedShape(s, a, u, c);
    MappedShape(s', a', u', c');
    SamePortsIffRules(s.ports, s'.ports);
    GroupPositional(x.endpoints[0], y.endpoints[0]);
    if IsDesiredState(x, y) {
      assert SameGroup(x.endpoints[0], y.endpoints[0]);
      forall i | 0 <= i < |s.ports| ensures RuleOf(s.ports[i]) == RuleOf(s'.ports[i]) {
        assert x.ports[i].port == y.ports[i].port;
        assert x.endpoints[0].ports[i].port == y.endpoints[0].ports[i].port;
      }
    } else if RulesOf(s.ports) == RulesOf(s'.ports) {
      forall i | 0 <= i < |s.ports|
        ensures x.ports[i].port == y.ports[i].port && x.ports[i].protocol == y.ports[i].protocol
        ensures x.endpoints[0].ports[i].port == y.endpoints[0].ports[i].port
                && x.endpoints[0].ports[i].protocol == y.endpoints[0].ports[i].protocol
      {
        assert RuleOf(s.ports[i]) == RuleOf(s'.ports[i]);
      }
    }
  }

  lemma MappedShape(s: Service, a: seq<string>, useReference: bool, c: string)
    ensures var x := Mapped(s, a, useReference, c);
            && |x.endpoints| == 1 && |x.ports| == |x.endpoints[0].ports| == |s.ports|
            && (forall i :: 0 <= i < |s.ports| ==>
                 x.ports[i].port == s.ports[i].port && x.ports[i].protocol == s.ports[i].protocol)
            && (forall i :: 0 <= i < |s.ports| ==>
                  x.endpoints[0].ports[i].port == s.ports[i].nodePort
                      && x.endpoints[0].ports[i].protocol == s.ports[i].protocol)
  {
  }

  lemma GroupPositional(a: Endpoints, d: Endpoints)
    ensures SameGroup(a, d)
            <==> a.addresses == d.addresses && |a.ports| == |d.ports|
                 && forall i :: 0 <= i < |a.ports|
                     ==> a.ports[i].port == d.ports[i].port && a.ports[i].protocol == d.ports[i].protocol
  {
    if SameGroup(a, d) {
      assert a.addresses == d.addresses;
    }
  }

  /** The name-blind detector answers yes precisely when kind, rules, literal addresses and
      annotations agree, in any pair of address modes u and u'. */
  lemma DetectorExact(s: Service, a: seq<string>, u: bool, c: string, s': Service, a': seq<string>, u': bool,
                      c': string)
    requires DistinctFrontNames(Mapped(s, a, u, c).ports) && DistinctFrontNames(Mapped(s', a', u', c').ports)
    ensures var x, y := Mapped(s, a, u, c), Mapped(s', a', u', c');
            IsDesiredState(x, y)
            <==> x.kind == y.kind && Rules(x) == Rules(y) && x.endpoints[0].addresses == y.endpoints[0].addresses
                 && SameAnnotations(x.annotations, y.annotations)
  {
    hide IsDesiredState, Rules, RulesOf, SameAnnotations;
    MappedRules(s, a, u, c);
    MappedRules(s', a', u', c');
    DetectorPositional(s, a, u, c, s', a', u', c');
  }

  /** Two mapped objects forward alike: also the addresses come from the same place. */
  predicate SameRouting(x: LoadBalancer, y: LoadBalancer)
    requires x.endpoints != [] && Indexable(x) && y.endpoints != [] && Indexable(y)
  {
    && x.kind == y.kind && Rules(x) == Rules(y) && SameAnnotations(x.annotations, y.annotations)
    && x.endpoints[0].addresses == y.endpoints[0].addresses && x.endpoints[0].reference == y.endpoints[0].reference
  }

  /** The literal list of the one side that has one. */
  function LiteralSide(a: seq<string>, u: bool, a': seq<string>): seq<string> {
    if u then a' else a
  }

  /** Its verdict is right if and only if the modes are equal, or the literal list is not
      empty, or the objects differ in something else. */
  lemma DetectorRightIff(s: Service, a: seq<string>, u: bool, c: string, s': Service, a': seq<string>, u': bool,
                         c': string)
    requires DistinctFrontNames(Mapped(s, a, u, c).ports) && DistinctFrontNames(Mapped(s', a', u', c').ports)
    ensures var x, y := Mapped(s, a, u, c), Mapped(s', a', u', c');
            (IsDesiredState(x, y) <==> SameRouting(x, y))
            <==> u == u' || LiteralSide(a, u, a') != []
                 || !(x.kind == y.kind && Rules(x) == Rules(y) && SameAnnotations(x.annotations, y.annotations))
  {
    DetectorExact(s, a, u, c, s', a', u', c');
    hide IsDesiredState, Rules, SameAnnotations;
    var x, y := Mapped(s, a, u, c), Mapped(s', a', u', c');
    if u != u' {
      var literal := if u then y.endpoints[0].addresses else x.endpoints[0].addresses;
      assert |literal| == |LiteralSide(a, u, a')|;
      assert x.endpoints[0].addresses == y.endpoints[0].addresses <==> |literal| == 0;
    }
  }

  /** The failing family is not empty: a switch from a reference to an empty literal list
      goes unnoticed, for every Service. */
  lemma DetectorMissesAddressMode(s: Service, c: string)
    ensures var x, y := Mapped(s, [], true, c), Mapped(s, [], false, c);
            IsDesiredState(x, y) && !SameRouting(x, y)
  {
    var x, y := Mapped(s, [], true, c), Mapped(s, [], false, c);
    DetectorPositional(s, [], true, c, s, [], false, c);
    hide IsDesiredState, Rules;
    assert x.endpoints[0].addresses == y.endpoints[0].addresses;
  }
}
