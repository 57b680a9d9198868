/** The Services a route puts into the load-balancing cluster, their bridge, and the
    EndpointSlice that joins the two in the global topology. */
module ServiceGeneration {
  import opened Text
  import opened Keys
  import opened Api
  import opened PortTable
  import opened PortAllocation

  const MAX_NAME_LENGTH := 60
  const NAME_SUFFIX_LENGTH := 4

  /** GenerateName; the source slices the last four characters off the UID. */
  function GenerateName(appendUid: bool, uid: string, name: string, namespace: string): (r: string)
    requires |uid| >= NAME_SUFFIX_LENGTH
    ensures |r| <= MAX_NAME_LENGTH
    ensures appendUid || |namespace| + 1 + |name| >= MAX_NAME_LENGTH ==>
              |r| >= NAME_SUFFIX_LENGTH && r[|r| - NAME_SUFFIX_LENGTH..] == uid[|uid| - NAME_SUFFIX_LENGTH..]
  {
    var output, suffix := namespace + "-" + name, uid[|uid| - NAME_SUFFIX_LENGTH..];
    if |output| >= MAX_NAME_LENGTH || (appendUid && |output| + |suffix| + 1 >= MAX_NAME_LENGTH) then
      output[..MAX_NAME_LENGTH - (NAME_SUFFIX_LENGTH + 1)] + "-" + suffix
    else if appendUid then output + "-" + suffix
    else output
  }

  /** A name that fits is joined with hyphens; a longer one keeps its first 55 characters and ends in
      the last four of the UID. */
  lemma GeneratedNameForms(appendUid: bool, uid: string, name: string, namespace: string)
    requires |uid| >= 4
    ensures var r, full, suffix := GenerateName(appendUid, uid, name, namespace), namespace + "-" + name,
                                   uid[|uid| - 4..];
            if !appendUid && |full| < 60 then r == full
            else if appendUid && |full| < 55 then r == full + "-" + suffix
            else |r| == 60 && r[..55] == full[..55] && r[55] == '-' && r[56..] == suffix
  {
  }

  /** Without the UID suffix different services can be given one name. */
  lemma GeneratedNameCollision(uid: string, uid': string)
    requires |uid| >= 4 && |uid'| >= 4
    ensures GenerateName(false, uid, "b-c", "a") == GenerateName(false, uid', "c", "a-b")
  {
    assert "a" + "-" + "b-c" == "a-b" + "-" + "c";
  }

  /** The target port of a generated Service port; unallocated ports fall back to the
      NodePort, whereas the listener falls back to the Service port. */
  function TargetPort(t: Table, ep: string, p: ServicePort): int {
    var k := PortKey(p.port, p.protocol);
    if Has(t, ep, k) then Int32(t[ep][k]) else p.nodePort
  }

  function GeneratedPort(t: Table, ep: string, p: ServicePort): ServicePort {
    p.(targetPort := TargetPort(t, ep, p), nodePort := 0)
  }

  /** GenerateServiceForLBCluster; `annotations` are those already propagated. */
  function Generated(s: Service, appName: string, namespace: string, routeName: string, t: Table, global: bool,
                     annotations: Option<Labels>): Service
    requires |s.uid| >= NAME_SUFFIX_LENGTH
  {
    var ep := RouteEndpointKey(namespace, s.namespace, s.name, routeName);
    Service(GenerateName(global, s.uid, OriginName(s), s.namespace), namespace, "", s.labels, annotations,
            if s.kind == "NodePort" then "ClusterIP" else s.kind,
            if global then None else Some(map[LABEL_APP_NAME := appName]),
            seq(|s.ports|, i requires 0 <= i < |s.ports| => GeneratedPort(t, ep, s.ports[i])))
  }

  method GenerateServiceForLBCluster(s: Service, appName: string, namespace: string, routeName: string,
                                     allocator: PortAllocator, global: bool, annotations: Option<Labels>)
    returns (r: Service)
    requires |s.uid| >= NAME_SUFFIX_LENGTH
    ensures r == Generated(s, appName, namespace, routeName, allocator.portLookup, global, annotations)
  {
    ghost var spec := Generated(s, appName, namespace, routeName, allocator.portLookup, global, annotations);
    hide GenerateName, RouteEndpointKey, PortKey, Int32;
    var endpointKey := RouteEndpointKey(namespace, s.namespace, s.name, routeName);
    r := s.(name := GenerateName(global, s.uid, OriginName(s), s.namespace), namespace := namespace, uid := "");
    if r.kind == "NodePort" {
      r := r.(kind := "ClusterIP");
    }
    var ports := s.ports;
    for i := 0 to |ports|
      invariant |ports| == |s.ports| && ports[i..] == s.ports[i..] && ports[..i] == spec.ports[..i]
    {
      var port := ports[i];
      assert port == ports[i..][0] == s.ports[i..][0];
      var targetPort := port.nodePort;
      var value, found := allocator.Lookup(endpointKey, PortKey(port.port, port.protocol));
      if found {
        targetPort := Int32(value);
      }
      ports := ports[i := port.(targetPort := targetPort, nodePort := 0)];
      assert ports[i + 1..] == s.ports[i..][1..] == s.ports[i + 1..];
      assert ports[..i + 1] == spec.ports[..i] + [spec.ports[i]];
    }
    assert ports == ports[..|ports|] == spec.ports[..|ports|];
    r := r.(ports := ports, selector := if global then None else Some(map[LABEL_APP_NAME := appName]),
            annotations := annotations);
  }

  function BridgePort(p: ServicePort): ServicePort {
    ServicePort(p.name, p.targetPort, p.protocol, p.targetPort, 0)
  }

  function Bridge(s: Service, appName: string, controllerNamespace: string): Service {
    Service(s.name, controllerNamespace, "",
            map[LABEL_ORIGIN_NAME := s.name, LABEL_ORIGIN_NAMESPACE := s.namespace,
                LABEL_MANAGED_BY := LABEL_CONTROLLER, LABEL_TYPE := BRIDGE_SERVICE],
            None, "ClusterIP", Some(map[LABEL_APP_NAME := appName]),
            seq(|s.ports|, i requires 0 <= i < |s.ports| => BridgePort(s.ports[i])))
  }

  method GenerateBridgeService(s: Service, appName: string, controllerNamespace: string) returns (r: Service)
    ensures r == Bridge(s, appName, controllerNamespace)
  {
    ghost var spec := Bridge(s, appName, controllerNamespace);
    var ports := [];
    for i := 0 to |s.ports|
      invariant ports == spec.ports[..i]
    {
      ports :=
          ports + [ServicePort(s.ports[i].name, s.ports[i].targetPort, s.ports[i].protocol, s.ports[i].targetPort, 0)];
    }
    r := Service(s.name, controllerNamespace, "",
                 map[LABEL_ORIGIN_NAME := s.name, LABEL_ORIGIN_NAMESPACE := s.namespace,
                     LABEL_MANAGED_BY := LABEL_CONTROLLER, LABEL_TYPE := BRIDGE_SERVICE],
                 None, "ClusterIP", Some(map[LABEL_APP_NAME := appName]), ports);
    assert ports == spec.ports;
  }

  datatype SlicePort = SlicePort(name: string, port: int, protocol: string)

  /** `serviceName` is the label kubernetes.io/service-name. */
  datatype EndpointSlice = EndpointSlice(name: string, namespace: string, serviceName: string, ports: seq<SlicePort>,
                                         addresses: seq<string>)

  function SliceFor(original: Service, clusterIps: seq<string>): EndpointSlice {
    EndpointSlice(original.name, original.namespace, original.name,
                  seq(|original.ports|, i requires 0 <= i < |original.ports| =>
                    SlicePort(original.ports[i].name, original.ports[i].targetPort, original.ports[i].protocol)),
                  clusterIps)
  }

  /** The slice belongs to the Service and lists exactly those addresses, and for each port of the
      Service in order its name, its target and its protocol. */
  predicate JoinsTo(slice: EndpointSlice, original: Service, clusterIps: seq<string>) {
    && slice.namespace == original.namespace && slice.name == original.name && slice.serviceName == original.name
    && slice.addresses == clusterIps && |slice.ports| == |original.ports|
    && forall i :: 0 <= i < |original.ports| ==>
         && slice.ports[i].name == original.ports[i].name && slice.ports[i].port == original.ports[i].targetPort
         && slice.ports[i].protocol == original.ports[i].protocol
  }

  /** A slice for the Service the bridge's labels point back to, or None when it is gone. */
  function BridgeSlice(bridge: Service, clusterIps: seq<string>, services: map<(string, string),
                       Service>): Option<EndpointSlice> {
    var k := (LabelOr(bridge.labels, LABEL_ORIGIN_NAMESPACE, ""), LabelOr(bridge.labels, LABEL_ORIGIN_NAME, ""));
    if k in services then Some(SliceFor(services[k], clusterIps)) else None
  }

  /** The bridge controller. */
  method ReconcileBridge(bridge: Service, clusterIps: seq<string>, services: map<(string, string), Service>)
    returns (r: Option<EndpointSlice>)
    requires forall k :: k in services ==> (services[k].namespace, services[k].name) == k
    ensures r == BridgeSlice(bridge, clusterIps, services)
    ensures var labels := bridge.labels;
            var namespace := if "kubelb.k8c.io/origin-ns" in labels then labels["kubelb.k8c.io/origin-ns"] else "";
            var name := if "kubelb.k8c.io/origin-name" in labels then labels["kubelb.k8c.io/origin-name"] else "";
            && (r.Some? <==> (namespace, name) in services)
            && (r.Some? ==> JoinsTo(r.value, services[(namespace, name)], clusterIps))
  {
    var name, namespace := LabelOr(bridge.labels, LABEL_ORIGIN_NAME, ""),
        LabelOr(bridge.labels, LABEL_ORIGIN_NAMESPACE, "");
    if (namespace, name) !in services {
      return None;
    }
    var original := services[(namespace, name)];
    ghost var spec := SliceFor(original, clusterIps);
    var ports := [];
    for i := 0 to |original.ports|
      invariant ports == spec.ports[..i]
    {
      ports := ports + [SlicePort(original.ports[i].name, original.ports[i].targetPort, original.ports[i].protocol)];
    }
    assert ports == spec.ports;
    r := Some(EndpointSlice(name, namespace, name, ports, clusterIps));
  }
}
