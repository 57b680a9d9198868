/** The Kubernetes and KubeLB objects, cut down to the fields the data path reads.
    A map that Go distinguishes from nil where it matters is an Option. */
module Api {
  import opened Text

  type Labels = map<string, string>

  const LABEL_ORIGIN_NAMESPACE := "kubelb.k8c.io/origin-ns"
  const LABEL_ORIGIN_NAME := "kubelb.k8c.io/origin-name"
  const LABEL_ORIGIN_KIND := "kubelb.k8c.io/origin-resource-kind"
  const LABEL_LB_NAME := "kubelb.k8c.io/lb-name"
  const LABEL_LB_NAMESPACE := "kubelb.k8c.io/lb-namespace"
  const LABEL_TENANT := "kubelb.k8c.io/tenant"
  const LABEL_MANAGED_BY := "kubelb.k8c.io/managed-by"
  const LABEL_CONTROLLER := "kubelb"
  const LABEL_TYPE := "app.kubernetes.io/type"
  const LABEL_APP_NAME := "app.kubernetes.io/name"
  const BRIDGE_SERVICE := "bridge-service"
  const LAST_APPLIED := "kubectl.kubernetes.io/last-applied-configuration"
  const DEFAULT_ADDRESSES := "default"
  const TCP := "TCP"
  const UDP := "UDP"

  datatype ServicePort = ServicePort(name: string, port: int, protocol: string, targetPort: int, nodePort: int)

  datatype Service = Service(
    name: string, namespace: string, uid: string,
    labels: Labels, annotations: Option<Labels>,
    kind: string, selector: Option<Labels>, ports: seq<ServicePort>)

  datatype LoadBalancerPort = LoadBalancerPort(name: string, port: int, protocol: string)

  datatype EndpointPort = EndpointPort(name: string, port: int, protocol: string)

  datatype Address = Address(ip: string, hostname: string)

  datatype Endpoints = Endpoints(addresses: seq<Address>, reference: Option<string>, ports: seq<EndpointPort>)

  /** A Service port as published in a LoadBalancer's status. */
  datatype StatusPort = StatusPort(service: ServicePort, upstreamTargetPort: int)

  datatype LoadBalancer = LoadBalancer(
    name: string, namespace: string,
    labels: Labels, annotations: Option<Labels>, deleting: bool,
    ports: seq<LoadBalancerPort>, endpoints: seq<Endpoints>, kind: string,
    status: seq<StatusPort>)

  /** The embedded Ingress or Gateway API resource and the services it refers to. */
  datatype Source = Source(resourceName: string, resourceKind: string, services: seq<Service>)

  datatype RouteServiceStatus = RouteServiceStatus(generatedName: string, namespace: string, name: string,
      ports: seq<ServicePort>)

  datatype Route = Route(
    name: string, namespace: string, labels: Labels, deleting: bool,
    endpoints: seq<Endpoints>, source: Option<Source>,
    status: map<string, RouteServiceStatus>)

  function LabelOr(labels: Labels, key: string, default: string): string {
    if key in labels then labels[key] else default
  }

  /** GetServiceName and GetName: the origin name when the object is labelled. */
  function OriginName(s: Service): string {
    LabelOr(s.labels, LABEL_ORIGIN_NAME, s.name)
  }

  function OriginNamespace(s: Service): string {
    LabelOr(s.labels, LABEL_ORIGIN_NAMESPACE, s.namespace)
  }

  /** The name of the resource a route was made from: embedded, labelled, or its own. */
  function OriginalRouteName(r: Route): string {
    if r.source.Some? && r.source.value.resourceName != "" then r.source.value.resourceName
    else if LabelOr(r.labels, LABEL_ORIGIN_NAME, "") != "" then r.labels[LABEL_ORIGIN_NAME]
    else r.name
  }

  function RouteKind(r: Route): string {
    if r.source.Some? && r.source.value.resourceKind != "" then r.source.value.resourceKind
    else LabelOr(r.labels, LABEL_ORIGIN_KIND, "")
  }

  /** Go's conversions from a wider integer. */
  function Uint32(n: int): int {
    n % 0x1_0000_0000
  }

  function Int32(n: int): (r: int)
    ensures -0x8000_0000 <= r < 0x8000_0000 && (n - r) % 0x1_0000_0000 == 0
  {
    (n + 0x8000_0000) % 0x1_0000_0000 - 0x8000_0000
  }

  lemma PortConversions(n: int)
    requires 0 <= n < 0x8000_0000
    ensures Uint32(n) == n && Int32(n) == n
  {
  }
}
