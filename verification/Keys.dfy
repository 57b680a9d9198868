/** The printed keys under which the two halves of the data path meet: port table
    keys, Envoy resource names and route status keys. */
module Keys {
  import opened Text

  function PortKey(port: int, protocol: string): string {
    Decimal(port) + "-" + protocol
  }

  function EndpointKey(namespace: string, name: string, index: nat): string {
    namespace + "-" + name + "-ep-" + Decimal(index)
  }

  /** The part every Envoy resource name ends in. */
  function PortSuffixed(base: string, port: int, protocol: string): string {
    base + "-port-" + Decimal(port) + "-" + protocol
  }

  function ResourceKey(namespace: string, name: string, index: nat, port: int, protocol: string): string {
    PortSuffixed(EndpointKey(namespace, name, index), port, protocol)
  }

  function RouteEndpointKey(routeNamespace: string, namespace: string, name: string, route: string): string {
    "tenant-" + routeNamespace + "-route-" + namespace + "-" + name + "-" + route
  }

  function RouteResourceKey(routeNamespace: string, namespace: string, name: string, route: string, uid: string,
                            port: int, protocol: string): string {
    PortSuffixed(RouteEndpointKey(routeNamespace, namespace, name, route) + "-svc-" + uid, port, protocol)
  }

  function ServiceMapKey(namespace: string, name: string): string {
    namespace + "/" + name
  }

  lemma PortKeyShape(p: int, protocol: string)
    ensures PortKey(p, protocol) != "" && (PortKey(p, protocol)[0] == '-' <==> p < 0)
    ensures p < 0 ==> PortKey(p, protocol)[1..] == Digits(-p) + "-" + protocol
  {
    DecimalSign(p);
    assert PortKey(p, protocol)[0] == Decimal(p)[0];
  }

  /** Port keys are decodable for every integer and every protocol string: the sign
      and the digits delimit themselves. */
  lemma PortKeyInjective(p: int, protocol: string, q: int, protocol': string)
    requires PortKey(p, protocol) == PortKey(q, protocol')
    ensures p == q && protocol == protocol'
  {
    PortKeyShape(p, protocol);
    PortKeyShape(q, protocol');
    var m: nat, n: nat := if p < 0 then -p else p, if q < 0 then -q else q;
    CutAtFirst(Digits(m), protocol, Digits(n), protocol', '-');
    DigitsInjective(m, n);
  }

  /** LoadBalancer endpoint keys coincide exactly when the index and the joined
      namespace-name coincide. */
  lemma EndpointKeyEqual(ns: string, name: string, i: nat, ns': string, name': string, j: nat)
    ensures EndpointKey(ns, name, i) == EndpointKey(ns', name', j)
            <==> i == j && ns + "-" + name == ns' + "-" + name'
  {
    hide Decimal;
    if EndpointKey(ns, name, i) == EndpointKey(ns', name', j) {
      var a, b := ns + "-" + name + "-ep", ns' + "-" + name' + "-ep";
      assert EndpointKey(ns, name, i) == a + "-" + Decimal(i);
      assert EndpointKey(ns', name', j) == b + "-" + Decimal(j);
      CutDecimal(a, i, b, j);
      CancelSuffix(ns + "-" + name, "-ep", ns' + "-" + name', "-ep");
    }
  }

  /** Names of equal length (UIDs) make the keys injective, whatever hyphens the
      namespaces contain. */
  lemma EndpointKeyInjective(ns: string, name: string, i: nat, ns': string, name': string, j: nat)
    requires |name| == |name'|
    requires EndpointKey(ns, name, i) == EndpointKey(ns', name', j)
    ensures ns == ns' && name == name' && i == j
  {
    EndpointKeyEqual(ns, name, i, ns', name', j);
    CancelSuffix(ns + "-", name, ns' + "-", name');
    CancelSuffix(ns, "-", ns', "-");
  }

  /** Without the length condition two different LoadBalancers share their keys. */
  lemma EndpointKeyCollision()
    ensures EndpointKey("a", "b-c", 0) == EndpointKey("a-b", "c", 0)
  {
    EndpointKeyEqual("a", "b-c", 0, "a-b", "c", 0);
    assert "a" + "-" + "b-c" == "a-b" + "-" + "c";
  }

  lemma PortSuffixedInjective(base: string, p: int, protocol: string, base': string, q: int, protocol': string)
    requires PortSuffixed(base, p, protocol) == PortSuffixed(base', q, protocol')
    requires '-' !in protocol && '-' !in protocol'
    ensures base == base' && p == q && protocol == protocol'
  {
    hide Decimal;
    CutAtLast(base + "-port-" + Decimal(p), protocol, base' + "-port-" + Decimal(q), protocol', '-');
    assert base + "-port-" + Decimal(p) == base + "-port" + "-" + Decimal(p);
    assert base' + "-port-" + Decimal(q) == base' + "-port" + "-" + Decimal(q);
    CutDecimal(base + "-port", p, base' + "-port", q);
    CancelSuffix(base, "-port", base', "-port");
  }

  lemma ResourceKeyInjective(ns: string, name: string, i: nat, p: int, protocol: string, ns': string, name': string,
                             j: nat, q: int, protocol': string)
    requires |name| == |name'| && '-' !in protocol && '-' !in protocol'
    requires ResourceKey(ns, name, i, p, protocol) == ResourceKey(ns', name', j, q, protocol')
    ensures ns == ns' && name == name' && i == j && p == q && protocol == protocol'
  {
    PortSuffixedInjective(EndpointKey(ns, name, i), p, protocol, EndpointKey(ns', name', j), q, protocol');
    EndpointKeyInjective(ns, name, i, ns', name', j);
  }

  /** Route resource names tell apart any two services whose endpoint keys or UIDs
      differ, as soon as the UIDs have one length. */
  lemma RouteResourceKeyInjective(key: string, uid: string, p: int, protocol: string, key': string, uid': string,
                                  q: int, protocol': string)
    requires |uid| == |uid'| && '-' !in protocol && '-' !in protocol'
    requires PortSuffixed(key + "-svc-" + uid, p, protocol) == PortSuffixed(key' + "-svc-" + uid', q, protocol')
    ensures key == key' && uid == uid' && p == q && protocol == protocol'
  {
    PortSuffixedInjective(key + "-svc-" + uid, p, protocol, key' + "-svc-" + uid', q, protocol');
    CancelSuffix(key + "-svc-", uid, key' + "-svc-", uid');
    CancelSuffix(key, "-svc-", key', "-svc-");
  }

  /** Hyphen-joined route keys do collide. */
  lemma RouteEndpointKeyCollision()
    ensures RouteEndpointKey("t", "a", "b-c", "r") == RouteEndpointKey("t", "a-b", "c", "r")
  {
    assert "a" + "-" + "b-c" == "a-b" + "-" + "c";
    assert RouteEndpointKey("t", "a", "b-c", "r") == "tenant-t-route-a-b-c-r";
    assert RouteEndpointKey("t", "a-b", "c", "r") == "tenant-t-route-a-b-c-r";
  }

  /** A UID in the usual 8-4-4-4-12 shape: no letter 'p' before its last hyphen. */
  predicate UidShaped(uid: string) {
    |uid| == 36 && uid[23] == '-' && uid[22] != 'p' && '-' !in uid[24..]
  }

  /** A LoadBalancer's resource never bears the name of a route's resource. */
  lemma ResourceKeysDisjoint(ns: string, name: string, i: nat, p: int, protocol: string, key: string, uid: string,
                             q: int, protocol': string)
    requires UidShaped(uid) && '-' !in protocol && '-' !in protocol'
    ensures ResourceKey(ns, name, i, p, protocol) != PortSuffixed(key + "-svc-" + uid, q, protocol')
  {
    var a, b := ns + "-" + name + "-ep", key + "-svc-" + uid[..23];
    assert EndpointKey(ns, name, i) == a + "-" + Decimal(i);
    assert uid == uid[..23] + "-" + uid[24..];
    assert key + "-svc-" + uid == b + "-" + uid[24..];
    assert a[|a| - 1] == 'p' && b[|b| - 1] == uid[22];
    if ResourceKey(ns, name, i, p, protocol) == PortSuffixed(key + "-svc-" + uid, q, protocol') {
      PortSuffixedInjective(EndpointKey(ns, name, i), p, protocol, key + "-svc-" + uid, q, protocol');
      CutAtLast(a, Decimal(i), b, uid[24..], '-');
      assert false;
    }
  }

  lemma ServiceMapKeyInjective(ns: string, name: string, ns': string, name': string)
    requires '/' !in ns && '/' !in ns'
    requires ServiceMapKey(ns, name) == ServiceMapKey(ns', name')
    ensures ns == ns' && name == name'
  {
    CutAtFirst(ns, name, ns', name', '/');
  }
}
