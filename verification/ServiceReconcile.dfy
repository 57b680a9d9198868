/** Creating and updating the Service in front of Envoy: when an immediate second run with
    the same inputs has nothing left to write. */
module ServiceReconcile {
  import opened Text
  import opened Api
  import opened Names
  import opened PortTable
  import opened PortAllocation
  import opened LoadBalancerMapping

  /** The fields of the Service that the reconciler compares and sets. */
  datatype Managed = Managed(
    labels: Labels, annotations: Option<Labels>, selector: Labels,
    kind: string, loadBalancerClass: Option<string>, ports: seq<ServicePort>)

  /** What a run is given; the annotations are those already propagated and are never nil. */
  datatype Inputs = Inputs(lb: LoadBalancer, appName: string, loadBalancerClass: Option<string>, annotations: Labels)

  /** A label the LoadBalancer lacks becomes the empty one. */
  function FrontLabels(lb: LoadBalancer, appName: string): Labels {
    map[LABEL_APP_NAME := appName, LABEL_LB_NAME := lb.name, LABEL_LB_NAMESPACE := lb.namespace,
        LABEL_ORIGIN_NAMESPACE := LabelOr(lb.labels, LABEL_ORIGIN_NAMESPACE, ""),
        LABEL_ORIGIN_NAME := LabelOr(lb.labels, LABEL_ORIGIN_NAME, "")]
  }

  function PortsOf(existing: Option<Managed>): seq<ServicePort> {
    if existing.None? then [] else existing.value.ports
  }

  /** The API server fills in NodePorts that were left open and drops empty annotations. */
  function Admitted(m: Managed, nodePorts: seq<int>): Managed
    requires |nodePorts| == |m.ports|
  {
    m.(annotations := if m.annotations == Some(map[]) then None else m.annotations,
       ports := seq(|m.ports|, i requires 0 <= i < |m.ports| =>
         if m.ports[i].nodePort == 0 then m.ports[i].(nodePort := nodePorts[i]) else m.ports[i]))
  }

  function Desired(x: Inputs, annotations: Option<Labels>, ports: seq<ServicePort>): Managed {
    Managed(FrontLabels(x.lb, x.appName), annotations, map[LABEL_APP_NAME := x.appName], x.lb.kind,
            x.loadBalancerClass, ports)
  }

  predicate UpToDate(existing: Managed, desired: Managed) {
    existing.ports == desired.ports && existing.selector == desired.selector && existing.kind == desired.kind
    && existing.loadBalancerClass == desired.loadBalancerClass && existing.labels == desired.labels
    && SameAnnotations(existing.annotations, desired.annotations)
  }

  /** The Service the run wants, after merging annotations. */
  function Wanted(x: Inputs, existing: Option<Managed>, ports: seq<ServicePort>): Managed {
    Desired(x, if existing.None? then Some(x.annotations)
            else MergeAnnotations(existing.value.annotations, Some(x.annotations)), ports)
  }

  predicate Writes(x: Inputs, existing: Option<Managed>, ports: seq<ServicePort>) {
    existing.None? || !UpToDate(existing.value, Wanted(x, existing, ports))
  }

  function Result(x: Inputs, existing: Option<Managed>, ports: seq<ServicePort>, nodePorts: seq<int>): Managed
    requires |nodePorts| == |ports|
  {
    if Writes(x, existing, ports) then Admitted(Wanted(x, existing, ports), nodePorts) else existing.value
  }

  /** The object is what the LoadBalancer asks for: its ports are the built ones, except that the
      server has filled in NodePorts left open; the rest is that of the input. */
  ghost predicate Current(m: Managed, x: Inputs, ports: seq<ServicePort>) {
    && |m.ports| == |ports|
    && (forall i :: 0 <= i < |ports| ==>
          && m.ports[i].name == ports[i].name && m.ports[i].port == ports[i].port
          && m.ports[i].protocol == ports[i].protocol && m.ports[i].targetPort == ports[i].targetPort
          && (ports[i].nodePort != 0 ==> m.ports[i].nodePort == ports[i].nodePort))
    && m.selector == map["app.kubernetes.io/name" := x.appName]
    && m.labels == map["app.kubernetes.io/name" := x.appName, "kubelb.k8c.io/lb-name" := x.lb.name,
                       "kubelb.k8c.io/lb-namespace" := x.lb.namespace,
                       "kubelb.k8c.io/origin-ns" := LabelOr(x.lb.labels, "kubelb.k8c.io/origin-ns", ""),
                       "kubelb.k8c.io/origin-name" := LabelOr(x.lb.labels, "kubelb.k8c.io/origin-name", "")]
    && m.kind == x.lb.kind && m.loadBalancerClass == x.loadBalancerClass
    && forall k :: k in x.annotations && k != LAST_APPLIED ==>
         m.annotations.Some? && k in m.annotations.value && m.annotations.value[k] == x.annotations[k]
  }

  /** Whether it writes or not, a run leaves the object current, and it writes nothing exactly
      when the object has annotations and was current already, NodePorts included. */
  lemma ResultCurrent(x: Inputs, existing: Option<Managed>, ports: seq<ServicePort>, nodePorts: seq<int>)
    requires |nodePorts| == |ports|
    ensures Current(Result(x, existing, ports, nodePorts), x, ports)
    ensures !Writes(x, existing, ports)
            <==> existing.Some? && existing.value.annotations.Some? && existing.value.ports == ports
                 && Current(existing.value, x, ports)
    ensures !Writes(x, existing, ports) ==> existing == Some(Result(x, existing, ports, nodePorts))
  {
    var w := Wanted(x, existing, ports);
    WantedAnnotations(x, existing, ports);
    assert w.ports == ports;
    hide SameAnnotations, MergeAnnotations;
  }

  lemma WantedAnnotations(x: Inputs, existing: Option<Managed>, ports: seq<ServicePort>)
    ensures var w := Wanted(x, existing, ports).annotations;
            && w.Some? && (forall k :: k in x.annotations && k != LAST_APPLIED ==>
                 k in w.value && w.value[k] == x.annotations[k])
            && (existing.Some? && existing.value.annotations.Some? ==>
                 (SameAnnotations(existing.value.annotations, w) <==>
                    forall k :: k in x.annotations && k != LAST_APPLIED ==>
                      k in existing.value.annotations.value
                      && existing.value.annotations.value[k] == x.annotations[k]))
            && (existing.Some? && existing.value.annotations.None? ==> !SameAnnotations(existing.value.annotations, w))
  {
    if existing.Some? && existing.value.annotations.Some? {
      AnnotationsSettled(existing.value.annotations.value, x.annotations);
    }
  }

  lemma AnnotationsSettled(e: Labels, d: Labels)
    ensures var w := MergeAnnotations(Some(e), Some(d));
            && w.Some? && (forall k :: k in d && k != LAST_APPLIED ==> k in w.value && w.value[k] == d[k])
            && (SameAnnotations(Some(e), w) <==>
                 forall k :: k in d && k != LAST_APPLIED ==> k in e && e[k] == d[k])
  {
    if SameAnnotations(Some(e), Some(d)) {
      forall k | k in d && k != LAST_APPLIED ensures k in e && e[k] == d[k] {
        assert k in d - {LAST_APPLIED};
      }
    } else {
      var w := e + d;
      if forall k :: k in d && k != LAST_APPLIED ==> k in e && e[k] == d[k] {
        assert w - {LAST_APPLIED} == e - {LAST_APPLIED};
      }
      if SameAnnotations(Some(e), Some(w)) {
        forall k | k in d && k != LAST_APPLIED ensures k in e && e[k] == d[k] {
          assert k in w - {LAST_APPLIED};
          assert (w - {LAST_APPLIED})[k] == d[k];
        }
      }
    }
  }

  class ServiceStore {
    var stored: Option<Managed>

    constructor ()
      ensures stored == None
    {
      stored := None;
    }

    /** reconcileService, with the NodePorts the server would hand out on a write. */
    method ReconcileService(x: Inputs, allocator: PortAllocator, nodePorts: seq<int>)
      returns (wrote: bool, ports: seq<ServicePort>)
      requires x.lb.endpoints != [] && Indexable(x.lb) && |nodePorts| == |x.lb.ports|
      modifies this
      ensures IsServicePorts(ports, x.lb, PortsOf(old(stored)), allocator.portLookup) && |ports| == |nodePorts|
      ensures wrote == Writes(x, old(stored), ports)
      ensures stored == Some(Result(x, old(stored), ports, nodePorts)) && Current(stored.value, x, ports)
      ensures !wrote ==> stored == old(stored)
      ensures !wrote <==> old(stored).Some? && old(stored).value.annotations.Some?
                          && old(stored).value.ports == ports && Current(old(stored).value, x, ports)
    {
      ports := CreateServicePorts(x.lb, if stored.None? then [] else stored.value.ports, allocator);
      assert |multiset(ports)| == |x.lb.ports|;
      ResultCurrent(x, stored, ports, nodePorts);
      var desired :=
        Managed(FrontLabels(x.lb, x.appName), Some(x.annotations), map[LABEL_APP_NAME := x.appName], x.lb.kind,
                x.loadBalancerClass, ports);
      hide Current;
      if stored.None? {
        stored := Some(Admitted(desired, nodePorts));
        wrote := true;
      } else {
        desired := desired.(annotations := MergeAnnotations(stored.value.annotations, desired.annotations));
        wrote := !UpToDate(stored.value, desired);
        if wrote {
          stored := Some(Admitted(desired, nodePorts));
        }
      }
    }
  }

  /** Front ports are told apart by name and by (port, protocol). */
  predicate PlainFront(lb: LoadBalancer) {
    DistinctFrontNames(lb.ports)
    && forall i, j :: 0 <= i < j < |lb.ports|
        ==> (lb.ports[i].port, lb.ports[i].protocol) != (lb.ports[j].port, lb.ports[j].protocol)
  }

  // ----- ports -----

  predicate SameButNodePort(a: ServicePort, b: ServicePort) {
    a.(nodePort := 0) == b.(nodePort := 0)
  }

  /** Among stored ports built from the front ports, a front port finds its own. */
  lemma OwnPortFound(lb: LoadBalancer, existing: seq<ServicePort>, t: Table, built: seq<ServicePort>,
                     stored: seq<ServicePort>, x: nat, i: nat)
    requires PlainFront(lb) && lb.endpoints != [] && Indexable(lb) && IsServicePorts(built, lb, existing, t)
    requires |stored| == |built| && forall y :: 0 <= y < |stored| ==> SameButNodePort(stored[y], built[y])
    requires DistinctNames(built) && x < |stored| && i < |lb.ports| && stored[x].name == lb.ports[i].name
    ensures FirstExisting(stored, lb.ports[i], 0) == x
    ensures stored[x].(nodePort := 0) == BuiltPort(lb, existing, t, i).(nodePort := 0)
  {
    hide Target, KeptNodePort, IsServicePorts;
    forall y | 0 <= y < |stored| ensures SamePort(stored[y], lb.ports[i]) <==> y == x {
      assert SameButNodePort(stored[y], built[y]) && built[y] in built;
      var j := MemberIsBuilt(built, lb, existing, t, built[y]);
      if y == x {
        assert j == i;
      } else {
        assert SameButNodePort(stored[x], built[x]) && built[y].name != built[x].name;
      }
    }
    assert SameButNodePort(stored[x], built[x]) && built[x] in built;
    var j := MemberIsBuilt(built, lb, existing, t, built[x]);
    assert j == i;
  }

  /** Ports rebuilt on top of the stored ones are the stored ones: NodePorts are kept and
      the order is the same, whatever the unstable sort does. */
  lemma PortsStable(lb: LoadBalancer, existing: seq<ServicePort>, t: Table, built: seq<ServicePort>,
                    stored: seq<ServicePort>, again: seq<ServicePort>)
    requires PlainFront(lb) && lb.endpoints != [] && Indexable(lb)
    requires IsServicePorts(built, lb, existing, t) && IsServicePorts(again, lb, stored, t)
    requires |stored| == |built| && forall y :: 0 <= y < |stored| ==> SameButNodePort(stored[y], built[y])
    ensures again == stored
  {
    var spec, spec' := BuiltPorts(lb, existing, t), BuiltPorts(lb, stored, t);
    SortedIncreasing(built, spec);
    SortedIncreasing(again, spec');
    SameNames(lb, existing, t, built, stored, again);
    hide Target, KeptNodePort, IsServicePorts, Before;
    IncreasingUnique(NamesOf(built), NamesOf(again));
    assert |again| == |NamesOf(again)| == |NamesOf(built)| == |stored|;
    forall x | 0 <= x < |stored| ensures again[x] == stored[x] {
      assert SameButNodePort(stored[x], built[x]);
      assert NamesOf(built)[x] == NamesOf(again)[x];
      assert again[x] in again;
      var i := MemberIsBuilt(again, lb, stored, t, again[x]);
      OwnPortFound(lb, existing, t, built, stored, x, i);
      KeptAt(stored, lb.ports[i], x);
    }
  }

  lemma KeptAt(existing: seq<ServicePort>, p: LoadBalancerPort, x: nat)
    requires x < |existing| && FirstExisting(existing, p, 0) == x
    ensures KeptNodePort(existing, p) == existing[x].nodePort
  {
  }

  lemma SameNames(lb: LoadBalancer, existing: seq<ServicePort>, t: Table, built: seq<ServicePort>,
                  stored: seq<ServicePort>, again: seq<ServicePort>)
    requires lb.endpoints != [] && Indexable(lb) && IsServicePorts(built, lb, existing, t)
             && IsServicePorts(again, lb, stored, t)
    ensures forall x :: x in NamesOf(built) <==> x in NamesOf(again)
  {
    var spec, spec' := BuiltPorts(lb, existing, t), BuiltPorts(lb, stored, t);
    forall x ensures x in NamesOf(built) <==> x in NamesOf(again) {
      NameOfMember(built, spec, x);
      NameOfMember(again, spec', x);
      NameOfSpec(lb, existing, t, x);
      NameOfSpec(lb, stored, t, x);
    }
  }

  lemma NameOfSpec(lb: LoadBalancer, existing: seq<ServicePort>, t: Table, x: string)
    requires lb.endpoints != [] && Indexable(lb)
    ensures (exists p :: p in BuiltPorts(lb, existing, t) && p.name == x)
            <==> exists i :: 0 <= i < |lb.ports| && lb.ports[i].name == x
  {
    hide Target, KeptNodePort;
    var spec := BuiltPorts(lb, existing, t);
    forall i | 0 <= i < |lb.ports| && lb.ports[i].name == x ensures spec[i] in spec && spec[i].name == x {
    }
    forall p | p in spec && p.name == x ensures exists i :: 0 <= i < |lb.ports| && lb.ports[i].name == x {
      var i :| 0 <= i < |spec| && spec[i] == p;
      assert lb.ports[i].name == x;
    }
  }

  // ----- annotations -----

  /** Merging is idempotent once something is stored. */
  lemma MergeStable(existing: Option<Labels>, d: Labels)
    requires MergeAnnotations(existing, Some(d)) != Some(map[])
    ensures SameAnnotations(MergeAnnotations(existing, Some(d)),
                            MergeAnnotations(MergeAnnotations(existing, Some(d)), Some(d)))
  {
    var m := MergeAnnotations(existing, Some(d));
    if !SameAnnotations(existing, Some(d)) {
      assert m.value + d == m.value;
    }
  }

  /** Annotations of third parties survive, and the wanted ones win, except for the
      last-applied configuration, which the comparison ignores. */
  lemma AnnotationsMerged(existing: Labels, d: Labels, k: string)
    ensures var m := MergeAnnotations(Some(existing), Some(d));
            && m.Some?
            && (k in existing && k !in d ==> k in m.value && m.value[k] == existing[k])
            && (k in d && k != LAST_APPLIED ==> k in m.value && m.value[k] == d[k])
  {
    if SameAnnotations(Some(existing), Some(d)) && existing != d {
      assert k in existing && k != LAST_APPLIED ==> k in existing - {LAST_APPLIED};
      assert k in d && k != LAST_APPLIED ==> k in d - {LAST_APPLIED};
    }
  }

  // ----- the fixpoint -----

  /** As read from the server: empty annotations come back as none. */
  predicate ReadBack(existing: Option<Managed>) {
    existing.Some? ==> existing.value.annotations != Some(map[])
  }

  lemma AdmittedPorts(m: Managed, nodePorts: seq<int>)
    requires |nodePorts| == |m.ports|
    ensures |Admitted(m, nodePorts).ports| == |m.ports|
    ensures forall y :: 0 <= y < |m.ports| ==> SameButNodePort(Admitted(m, nodePorts).ports[y], m.ports[y])
  {
  }

  /** After a first run, an immediate second run with unchanged inputs writes nothing if
      and only if there is some annotation to store: without any, nil read back never
      equals the empty map wanted, and every run writes. */
  lemma FixpointIff(x: Inputs, existing: Option<Managed>, t: Table, ports: seq<ServicePort>, nodePorts: seq<int>,
                    again: seq<ServicePort>)
    requires PlainFront(x.lb) && x.lb.endpoints != [] && Indexable(x.lb) && ReadBack(existing)
    requires IsServicePorts(ports, x.lb, PortsOf(existing), t) && |nodePorts| == |ports|
    requires IsServicePorts(again, x.lb, Result(x, existing, ports, nodePorts).ports, t)
    ensures !Writes(x, Some(Result(x, existing, ports, nodePorts)), again)
            <==> x.annotations != map[] || (existing.Some? && existing.value.annotations.Some?)
  {
    var r := Result(x, existing, ports, nodePorts);
    hide IsServicePorts, PlainFront;
    if Writes(x, existing, ports) {
      var w := Wanted(x, existing, ports);
      AdmittedPorts(w, nodePorts);
      PortsStable(x.lb, PortsOf(existing), t, ports, r.ports, again);
      if existing.Some? && w.annotations != Some(map[]) {
        MergeStable(existing.value.annotations, x.annotations);
      }
    } else {
      assert r.ports == ports == PortsOf(existing);
      UniquePorts(x.lb, r.ports, t, ports, again);
    }
  }

  /** A Service that wants no annotations and never had any is written by every run. */
  lemma NeverSettles(x: Inputs, t: Table, ports: seq<ServicePort>, nodePorts: seq<int>, again: seq<ServicePort>)
    requires PlainFront(x.lb) && x.lb.endpoints != [] && Indexable(x.lb) && x.annotations == map[]
    requires IsServicePorts(ports, x.lb, [], t) && |nodePorts| == |ports|
    requires IsServicePorts(again, x.lb, Result(x, None, ports, nodePorts).ports, t)
    ensures Writes(x, Some(Result(x, None, ports, nodePorts)), again)
  {
    hide IsServicePorts, PlainFront, Result, Writes;
    FixpointIff(x, None, t, ports, nodePorts, again);
  }

  lemma UniquePorts(lb: LoadBalancer, existing: seq<ServicePort>, t: Table, a: seq<ServicePort>, b: seq<ServicePort>)
    requires PlainFront(lb) && Indexable(lb) && IsServicePorts(a, lb, existing, t) && IsServicePorts(b, lb, existing, t)
    ensures a == b
  {
    ServicePortsUnique(a, b, lb, existing, t);
  }

  /** Third-party annotations on the existing Service survive a run. */
  lemma ThirdPartySurvives(x: Inputs, existing: Managed, ports: seq<ServicePort>, nodePorts: seq<int>, k: string)
    requires |nodePorts| == |ports| && existing.annotations.Some? && k in existing.annotations.value
             && k !in x.annotations
    ensures var r := Result(x, Some(existing), ports, nodePorts);
            r.annotations.Some? && k in r.annotations.value && r.annotations.value[k] == existing.annotations.value[k]
  {
    AnnotationsMerged(existing.annotations.value, x.annotations, k);
  }
}
