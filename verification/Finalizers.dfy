/** The LoadBalancer reconciler as a state machine: one step per API call, any of which may
    fail or be the last before a crash, interleaved with whatever users, other controllers
    and the API server do meanwhile. Reads at the start of a reconcile are fresh; writes
    carry a resource version and are refused when it is stale. */
module Finalizers {
  import opened Text

  const CLEANUP := "kubelb.k8c.io/cleanup"
  const OLD_CLEANUP := "kubelb.k8c.io/cleanup-envoy-proxy"
  const HOSTNAME := "kubelb.k8c.io/cleanup-hostname"
  const OWN := {CLEANUP, OLD_CLEANUP, HOSTNAME}

  /** Where the hostname Ingress or HTTPRoute is created, and where cleanup looks for it:
      the tenant namespace in the shared topology, the controller's in the global one. */
  datatype Topology = Topology(lbNamespace: string, cleanupNamespace: string)

  /** `hostname` says that the status stores one. */
  datatype Object = Object(version: nat, finalizers: set<string>, deleting: bool, hasEndpoints: bool, hostname: bool)

  /** The API call a running reconcile will make next, with its local copy of the object. */
  datatype Pending =
    | Idle
    | AddFinalizer(local: Object)
    | ApplyService(local: Object)
    | PersistHostname(local: Object)
    | AddHostnameFinalizer(local: Object)
    | ApplyHostnameResource(local: Object)
    | PatchStatus(local: Object, configured: bool)
    | DeleteIngress(local: Object)
    | DeleteHttpRoute(local: Object)
    | DeleteService(local: Object)
    | RemoveFinalizers(local: Object)

  datatype State = State(
    lb: Option<Object>, versions: nat, disabled: bool,
    service: bool, ingresses: set<string>, httpRoutes: set<string>,
    pending: Pending)

  /** What the reconciler finds after a successful call: whether a hostname is to be
      configured, which kind of resource serves it, and whether ports or addresses in the
      status are out of date. */
  datatype Choice = Choice(hostname: bool, gateway: bool, outdated: bool)

  datatype Step =
    | Create(finalizers: set<string>, hasEndpoints: bool)
    | Delete
    | Edit(hasEndpoints: bool)
    | SetForeignFinalizers(foreign: set<string>)
    | SetDisabled(disabled: bool)
    | Collect
    | Begin
    | Call(ok: bool, choice: Choice)
    | Crash

  const Init := State(None, 0, false, false, {}, {}, Idle)

  /** An object whose last finalizer goes while it is being deleted is gone. */
  function Stored(o: Object): Option<Object> {
    if o.deleting && o.finalizers == {} then None else Some(o)
  }

  /** A write by anyone: new content under a new resource version. */
  function Write(s: State, o: Object): State {
    s.(lb := Stored(o.(version := s.versions)), versions := s.versions + 1)
  }

  /** The object as the reconciler would write it back, if its copy is current. */
  predicate Current(s: State, local: Object) {
    s.lb.Some? && s.lb.value.version == local.version
  }

  function AfterHostname(local: Object): Pending {
    if HOSTNAME in local.finalizers then ApplyHostnameResource(local) else AddHostnameFinalizer(local)
  }

  /** Reading the object and branching. */
  function Begun(s: State): Pending {
    if s.lb.None? || !s.lb.value.hasEndpoints then Idle
    else
      var o := s.lb.value;
      var cleanup := if HOSTNAME in o.finalizers then DeleteIngress(o) else DeleteService(o);
      if o.deleting then if o.finalizers * OWN != {} then cleanup else Idle
      else if CLEANUP in o.finalizers && s.disabled then cleanup
      else if s.disabled then Idle
      else if CLEANUP !in o.finalizers then AddFinalizer(o)
      else ApplyService(o)
  }

  /** The pending call, when the API server accepts it. */
  function Called(g: Topology, s: State, c: Choice): State {
    match s.pending
    case Idle => s
    case AddFinalizer(local) =>
      if !Current(s, local) then s.(pending := Idle)
      else
        var o := local.(finalizers := local.finalizers + {CLEANUP} - {OLD_CLEANUP});
        Write(s, o).(pending := ApplyService(o.(version := s.versions)))
    case ApplyService(local) =>
      s.(service := true,
         pending := if !c.hostname then PatchStatus(local, false)
                    else if !local.hostname then PersistHostname(local)
                    else AfterHostname(local))
    case PersistHostname(local) =>
      if !Current(s, local) then s.(pending := Idle)
      else
        var o := local.(hostname := true);
        Write(s, o).(pending := AfterHostname(o.(version := s.versions)))
    case AddHostnameFinalizer(local) =>
      if !Current(s, local) then s.(pending := Idle)
      else
        var o := local.(finalizers := local.finalizers + {HOSTNAME});
        Write(s, o).(pending := ApplyHostnameResource(o.(version := s.versions)))
    case ApplyHostnameResource(local) =>
      var t := s.(pending := PatchStatus(local, true));
      if c.gateway then t.(httpRoutes := s.httpRoutes + {g.lbNamespace})
          else t.(ingresses := s.ingresses + {g.lbNamespace})
    case PatchStatus(local, configured) =>
      if s.lb.None? || (!c.outdated && local.hostname == configured) then s.(pending := Idle)
      else Write(s, s.lb.value.(hostname := configured)).(pending := Idle)
    case DeleteIngress(local) => s.(ingresses := s.ingresses - {g.cleanupNamespace}, pending := DeleteHttpRoute(local))
    case DeleteHttpRoute(local) => s.(httpRoutes := s.httpRoutes - {g.cleanupNamespace},
                                      pending := DeleteService(local))
    case DeleteService(local) => s.(service := false, pending := RemoveFinalizers(local))
    case RemoveFinalizers(local) =>
      if !Current(s, local) then s.(pending := Idle)
      else Write(s, local.(finalizers := local.finalizers - OWN)).(pending := Idle)
  }

  /** One step of anyone; a step that does not apply changes nothing. */
  function Next(g: Topology, s: State, step: Step): State {
    match step
    case Create(finalizers, hasEndpoints) =>
      if s.lb.Some? then s else Write(s, Object(0, finalizers, false, hasEndpoints, false))
    case Delete => if s.lb.None? then s else DeleteObject(s)
    case Edit(hasEndpoints) =>
      if s.lb.None? then s else Write(s, s.lb.value.(hasEndpoints := hasEndpoints))
    case SetForeignFinalizers(foreign) =>
      if s.lb.None? then s
      else Write(s, s.lb.value.(finalizers := s.lb.value.finalizers * OWN + (foreign - OWN)))
    case SetDisabled(disabled) => s.(disabled := disabled)
    case Collect => if s.lb.Some? then s else s.(ingresses := {}, httpRoutes := {})
    case Begin => if s.pending.Idle? then s.(pending := Begun(s)) else s
    case Call(ok, choice) => if ok then Called(g, s, choice) else s.(pending := Idle)
    case Crash => s.(pending := Idle)
  }

  function DeleteObject(s: State): State
    requires s.lb.Some?
  {
    var o := s.lb.value;
    if o.finalizers == {} then s.(lb := None) else Write(s, o.(deleting := true))
  }

  /** The state after the first n steps of a run. */
  function After(g: Topology, steps: seq<Step>, n: nat): State
    requires n <= |steps|
  {
    if n == 0 then Init else Next(g, After(g, steps, n - 1), steps[n - 1])
  }

  // ----- what every step keeps -----

  /** The Envoy Service exists only under the cleanup finalizer. */
  predicate ServiceSafe(s: State) {
    s.service ==> s.lb.Some? && CLEANUP in s.lb.value.finalizers
  }

  /** The hostname resource exists only under the hostname finalizer. */
  predicate HostnameSafe(g: Topology, s: State) {
    g.lbNamespace in s.ingresses + s.httpRoutes ==> s.lb.Some? && HOSTNAME in s.lb.value.finalizers
  }

  /** Versions never come back: a copy with the object's version is the object. */
  predicate Versioned(s: State) {
    && (s.lb.Some? ==> s.lb.value.version < s.versions)
    && (!s.pending.Idle? ==> s.pending.local.version < s.versions)
    && (!s.pending.Idle? && Current(s, s.pending.local) ==> s.lb.value == s.pending.local)
  }

  /** Nobody else touches the reconciler's finalizers while it works. */
  predicate Agrees(s: State, local: Object) {
    s.lb.Some? && s.lb.value.finalizers * OWN == local.finalizers * OWN && local.finalizers * OWN != {}
  }

  predicate PendingSafe(s: State) {
    match s.pending
    case Idle => true
    case AddFinalizer(local) => true
    case ApplyService(local) => Agrees(s, local) && CLEANUP in local.finalizers
    case PersistHostname(local) => Agrees(s, local) && CLEANUP in local.finalizers
    case AddHostnameFinalizer(local) => Agrees(s, local) && CLEANUP in local.finalizers
    case ApplyHostnameResource(local) => Agrees(s, local) && CLEANUP in local.finalizers && HOSTNAME in local.finalizers
    case PatchStatus(local, configured) => Agrees(s, local)
    case DeleteIngress(local) => Agrees(s, local)
    case DeleteHttpRoute(local) => Agrees(s, local)
    case DeleteService(local) => Agrees(s, local)
    case RemoveFinalizers(local) => Agrees(s, local) && !s.service
  }

  /** How far cleanup has got with the hostname resources. */
  predicate HostnamePending(g: Topology, s: State) {
    match s.pending
    case DeleteHttpRoute(local) => g.lbNamespace !in s.ingresses
    case DeleteService(local) => g.lbNamespace !in s.ingresses + s.httpRoutes
    case RemoveFinalizers(local) => g.lbNamespace !in s.ingresses + s.httpRoutes
    case _ => true
  }

  predicate Inv(s: State) {
    ServiceSafe(s) && Versioned(s) && PendingSafe(s)
  }

  lemma OwnMembership(a: set<string>, b: set<string>)
    requires a * OWN == b * OWN
    ensures CLEANUP in a <==> CLEANUP in b
    ensures HOSTNAME in a <==> HOSTNAME in b
    ensures OLD_CLEANUP in a <==> OLD_CLEANUP in b
    ensures a * OWN != {} ==> a != {} && b != {}
  {
    assert CLEANUP in a <==> CLEANUP in a * OWN;
    assert CLEANUP in b <==> CLEANUP in b * OWN;
    assert HOSTNAME in a <==> HOSTNAME in a * OWN;
    assert HOSTNAME in b <==> HOSTNAME in b * OWN;
    assert OLD_CLEANUP in a <==> OLD_CLEANUP in a * OWN;
    assert OLD_CLEANUP in b <==> OLD_CLEANUP in b * OWN;
  }

  /** A write that keeps the reconciler's finalizers keeps everything. */
  lemma WriteKeepsInv(s: State, o: Object)
    requires Inv(s) && s.lb.Some? && o.finalizers * OWN == s.lb.value.finalizers * OWN
    ensures Inv(Write(s, o))
  {
    OwnMembership(o.finalizers, s.lb.value.finalizers);
    if !s.pending.Idle? && !s.pending.AddFinalizer? {
      assert o.finalizers * OWN == s.pending.local.finalizers * OWN;
    }
  }

  lemma EnvironmentKeepsInv(g: Topology, s: State, step: Step)
    requires Inv(s) && !step.Begin? && !step.Call?
    ensures Inv(Next(g, s, step))
  {
    match step
    case Delete =>
      if s.lb.Some? && s.lb.value.finalizers != {} {
        WriteKeepsInv(s, s.lb.value.(deleting := true));
      }
    case Edit(h) =>
      if s.lb.Some? {
        WriteKeepsInv(s, s.lb.value.(hasEndpoints := h));
      }
    case SetForeignFinalizers(foreign) =>
      if s.lb.Some? {
        var f := s.lb.value.finalizers;
        assert (f * OWN + (foreign - OWN)) * OWN == f * OWN;
        WriteKeepsInv(s, s.lb.value.(finalizers := f * OWN + (foreign - OWN)));
      }
    case _ =>
  }

  lemma BeginKeepsInv(g: Topology, s: State)
    requires Inv(s)
    ensures Inv(Next(g, s, Begin))
  {
    if s.pending.Idle? && s.lb.Some? {
      var f := s.lb.value.finalizers;
      assert CLEANUP in f ==> CLEANUP in f * OWN;
    }
  }

  lemma CallKeepsInv(g: Topology, s: State, c: Choice)
    requires Inv(s)
    ensures Inv(Called(g, s, c))
  {
    match s.pending
    case AddFinalizer(local) =>
      if Current(s, local) {
        var f := local.finalizers + {CLEANUP} - {OLD_CLEANUP};
        assert CLEANUP in f * OWN;
      }
    case AddHostnameFinalizer(local) =>
      if Current(s, local) {
        var f := local.finalizers + {HOSTNAME};
        assert CLEANUP in f * OWN;
      }
    case PersistHostname(local) =>
      if Current(s, local) {
        assert CLEANUP in local.finalizers * OWN;
      }
    case ApplyService(local) => OwnMembership(s.lb.value.finalizers, local.finalizers);
    case PatchStatus(local, configured) => OwnMembership(s.lb.value.finalizers, local.finalizers);
    case RemoveFinalizers(local) =>
    case _ =>
  }

  lemma NextKeepsInv(g: Topology, s: State, step: Step)
    requires Inv(s)
    ensures Inv(Next(g, s, step))
  {
    match step
    case Begin => BeginKeepsInv(g, s);
    case Call(ok, c) =>
      if ok {
        CallKeepsInv(g, s, c);
      }
    case _ => EnvironmentKeepsInv(g, s, step);
  }

  lemma {:induction false} InvAlways(g: Topology, steps: seq<Step>, n: nat)
    requires n <= |steps|
    ensures Inv(After(g, steps, n))
  {
    if n > 0 {
      InvAlways(g, steps, n - 1);
      NextKeepsInv(g, After(g, steps, n - 1), steps[n - 1]);
    }
  }

  /** Over every run, in either topology: the Service exists only while the object exists
      and holds the cleanup finalizer. */
  lemma ServiceSafety(g: Topology, steps: seq<Step>, n: nat)
    requires n <= |steps|
    ensures ServiceSafe(After(g, steps, n))
  {
    InvAlways(g, steps, n);
  }

  // ----- hostname resources -----

  lemma FinalizersDiffer()
    ensures CLEANUP != OLD_CLEANUP && CLEANUP != HOSTNAME && OLD_CLEANUP != HOSTNAME
  {
    assert |CLEANUP| == 21 && |OLD_CLEANUP| == 33 && |HOSTNAME| == 30;
  }

  lemma WriteKeepsHostname(g: Topology, s: State, o: Object)
    requires s.lb.Some? && HostnameSafe(g, s) && (HOSTNAME in s.lb.value.finalizers ==> HOSTNAME in o.finalizers)
    ensures HostnameSafe(g, Write(s, o))
  {
    assert HOSTNAME in o.finalizers ==> o.finalizers != {};
  }

  lemma CallKeepsHostname(g: Topology, s: State, c: Choice)
    requires g.lbNamespace == g.cleanupNamespace
    requires Inv(s) && HostnameSafe(g, s) && HostnamePending(g, s)
    ensures HostnameSafe(g, Called(g, s, c)) && HostnamePending(g, Called(g, s, c))
  {
    if !s.pending.Idle? && !s.pending.AddFinalizer? {
      OwnMembership(s.lb.value.finalizers, s.pending.local.finalizers);
    }
    FinalizersDiffer();
    match s.pending
    case AddFinalizer(local) =>
      if Current(s, local) {
        WriteKeepsHostname(g, s, local.(finalizers := local.finalizers + {CLEANUP} - {OLD_CLEANUP}));
      }
    case PersistHostname(local) =>
      if Current(s, local) {
        WriteKeepsHostname(g, s, local.(hostname := true));
      }
    case AddHostnameFinalizer(local) =>
      if Current(s, local) {
        WriteKeepsHostname(g, s, local.(finalizers := local.finalizers + {HOSTNAME}));
      }
    case PatchStatus(local, configured) => WriteKeepsHostname(g, s, s.lb.value.(hostname := configured));
    case _ =>
  }

  lemma NextKeepsHostname(g: Topology, s: State, step: Step)
    requires g.lbNamespace == g.cleanupNamespace
    requires Inv(s) && HostnameSafe(g, s) && HostnamePending(g, s)
    ensures HostnameSafe(g, Next(g, s, step)) && HostnamePending(g, Next(g, s, step))
  {
    match step
    case Delete =>
      if s.lb.Some? && s.lb.value.finalizers != {} {
        WriteKeepsHostname(g, s, s.lb.value.(deleting := true));
      }
    case Edit(h) =>
      if s.lb.Some? {
        WriteKeepsHostname(g, s, s.lb.value.(hasEndpoints := h));
      }
    case SetForeignFinalizers(foreign) =>
      if s.lb.Some? {
        var f := s.lb.value.finalizers;
        WriteKeepsHostname(g, s, s.lb.value.(finalizers := f * OWN + (foreign - OWN)));
      }
    case Call(ok, c) =>
      if ok {
        CallKeepsHostname(g, s, c);
      }
    case _ =>
  }

  lemma {:induction false} HostnameAlways(g: Topology, steps: seq<Step>, n: nat)
    requires n <= |steps| && g.lbNamespace == g.cleanupNamespace
    ensures HostnameSafe(g, After(g, steps, n)) && HostnamePending(g, After(g, steps, n))
  {
    hide Inv, HostnameSafe, HostnamePending, Next;
    if n > 0 {
      HostnameAlways(g, steps, n - 1);
      InvAlways(g, steps, n - 1);
      NextKeepsHostname(g, After(g, steps, n - 1), steps[n - 1]);
    } else {
      InitHostname(g);
    }
  }

  lemma InitHostname(g: Topology)
    ensures HostnameSafe(g, Init) && HostnamePending(g, Init)
  {
  }

  /** A run that creates an object, publishes a hostname for it, and is then disabled. */
  function LeakingRun(): seq<Step> {
    var call := Call(true, Choice(true, false, true));
    [Create({}, true), Begin, call, call, call, call, call, call, SetDisabled(true), Begin, call, call, call, call]
  }

  lemma AfterNext(g: Topology, steps: seq<Step>, n: nat, s: State, t: State)
    requires n < |steps| && After(g, steps, n) == s && Next(g, s, steps[n]) == t
    ensures After(g, steps, n + 1) == t
  {
  }

  lemma LeakStarted(g: Topology, o1: Object)
    requires o1 == Object(1, {CLEANUP}, false, true, false)
    ensures After(g, LeakingRun(), 3) == State(Some(o1), 2, false, false, {}, {}, ApplyService(o1))
  {
    var run := LeakingRun();
    assert After(g, run, 0) == Init;
    hide After;
    FinalizersDiffer();
    var o0 := Object(0, {}, false, true, false);
    assert {} + {CLEANUP} - {OLD_CLEANUP} == {CLEANUP};
    var s1 := State(Some(o0), 1, false, false, {}, {}, Idle);
    AfterNext(g, run, 0, Init, s1);
    var s2 := s1.(pending := AddFinalizer(o0));
    AfterNext(g, run, 1, s1, s2);
    AfterNext(g, run, 2, s2, State(Some(o1), 2, false, false, {}, {}, ApplyService(o1)));
  }

  lemma LeakPersisted(g: Topology, o2: Object)
    requires o2 == Object(2, {CLEANUP}, false, true, true)
    ensures After(g, LeakingRun(), 5) == State(Some(o2), 3, false, true, {}, {}, AddHostnameFinalizer(o2))
  {
    hide After;
    var run, o1 := LeakingRun(), Object(1, {CLEANUP}, false, true, false);
    LeakStarted(g, o1);
    FinalizersDiffer();
    var s3 := State(Some(o1), 2, false, false, {}, {}, ApplyService(o1));
    var s4 := s3.(service := true, pending := PersistHostname(o1));
    AfterNext(g, run, 3, s3, s4);
    AfterNext(g, run, 4, s4, State(Some(o2), 3, false, true, {}, {}, AddHostnameFinalizer(o2)));
  }

  lemma LeakPublished(g: Topology, o: Object)
    requires o == Object(4, {CLEANUP, HOSTNAME}, false, true, true)
    ensures After(g, LeakingRun(), 8) == State(Some(o), 5, false, true, {g.lbNamespace}, {}, Idle)
  {
    hide After;
    var run, o2, o3 := LeakingRun(), Object(2, {CLEANUP}, false, true, true),
        Object(3, {CLEANUP, HOSTNAME}, false, true, true);
    LeakPersisted(g, o2);
    assert {CLEANUP} + {HOSTNAME} == {CLEANUP, HOSTNAME};
    var s5 := State(Some(o2), 3, false, true, {}, {}, AddHostnameFinalizer(o2));
    var s6 := State(Some(o3), 4, false, true, {}, {}, ApplyHostnameResource(o3));
    AfterNext(g, run, 5, s5, s6);
    var s7 := s6.(ingresses := {g.lbNamespace}, pending := PatchStatus(o3, true));
    AfterNext(g, run, 6, s6, s7);
    AfterNext(g, run, 7, s7, State(Some(o), 5, false, true, {g.lbNamespace}, {}, Idle));
  }

  /** When cleanup looks in another namespace, that run leaves the Ingress behind on an
      object without the hostname finalizer. */
  lemma HostnameLeak(g: Topology)
    requires g.lbNamespace != g.cleanupNamespace
    ensures !HostnameSafe(g, After(g, LeakingRun(), 14))
  {
    hide After;
    var run, o := LeakingRun(), Object(4, {CLEANUP, HOSTNAME}, false, true, true);
    assert {CLEANUP, HOSTNAME} - OWN == {} && {g.lbNamespace} - {g.cleanupNamespace} == {g.lbNamespace};
    LeakPublished(g, o);
    var s8 := State(Some(o), 5, false, true, {g.lbNamespace}, {}, Idle);
    var s9 := s8.(disabled := true);
    AfterNext(g, run, 8, s8, s9);
    var s10 := s9.(pending := DeleteIngress(o));
    AfterNext(g, run, 9, s9, s10);
    var s11 := s9.(pending := DeleteHttpRoute(o));
    AfterNext(g, run, 10, s10, s11);
    var s12 := s9.(pending := DeleteService(o));
    AfterNext(g, run, 11, s11, s12);
    var s13 := s9.(service := false, pending := RemoveFinalizers(o));
    AfterNext(g, run, 12, s12, s13);
    AfterNext(g, run, 13, s13,
              State(Some(Object(5, {}, false, true, true)), 6, true, false, {g.lbNamespace}, {}, Idle));
  }

  /** Hostname safety holds over every run exactly when cleanup looks where the resource
      was created: in the shared topology, and not in the global one. */
  lemma HostnameSafetyIff(g: Topology)
    ensures (forall steps: seq<Step>, n: nat | n <= |steps| :: HostnameSafe(g, After(g, steps, n)))
            <==> g.lbNamespace == g.cleanupNamespace
  {
    if g.lbNamespace == g.cleanupNamespace {
      forall steps: seq<Step>, n: nat | n <= |steps| ensures HostnameSafe(g, After(g, steps, n)) {
        HostnameAlways(g, steps, n);
      }
    } else {
      HostnameLeak(g);
      assert 14 <= |LeakingRun()|;
    }
  }

  // ----- cleanup makes progress -----

  function Calls(g: Topology, s: State, c: Choice, n: nat): State {
    if n == 0 then s else Next(g, Calls(g, s, c, n - 1), Call(true, c))
  }

  /** A cleanup that is not disturbed, because the object is being deleted or the tenant was
      disabled, removes Service and hostname resources and takes exactly the reconciler's
      finalizers off; the object goes when it is being deleted and nothing else holds it. */
  lemma CleanupCompletes(g: Topology, s: State, c: Choice)
    requires Inv(s) && s.pending.Idle? && s.lb.Some? && s.lb.value.hasEndpoints
    requires var o := s.lb.value;
             if o.deleting then o.finalizers * OWN != {} else s.disabled && CLEANUP in o.finalizers
    ensures var o := s.lb.value;
            var e := Calls(g, Next(g, s, Begin), c, if HOSTNAME in o.finalizers then 4 else 2);
            && e.pending.Idle? && !e.service
            && (HOSTNAME in o.finalizers ==> g.cleanupNamespace !in e.ingresses + e.httpRoutes)
            && (e.lb.None? <==> o.deleting && o.finalizers <= OWN)
            && (e.lb.Some? ==> e.lb.value == o.(finalizers := o.finalizers - OWN, version := e.lb.value.version))
  {
    var o, b := s.lb.value, Next(g, s, Begin);
    assert o.finalizers - OWN == {} <==> o.finalizers <= OWN;
    assert Calls(g, b, c, 0) == b;
    var s1, s2 := Calls(g, b, c, 1), Calls(g, b, c, 2);
    if HOSTNAME in o.finalizers {
      assert b.pending == DeleteIngress(o);
      assert s1.pending == DeleteHttpRoute(o) && s1.lb == s.lb && g.cleanupNamespace !in s1.ingresses;
      assert s2.pending == DeleteService(o) && s2.lb == s.lb && g.cleanupNamespace !in s2.ingresses + s2.httpRoutes;
      var s3 := Calls(g, b, c, 3);
      assert s3.pending == RemoveFinalizers(o) && s3.lb == s.lb && !s3.service
             && g.cleanupNamespace !in s3.ingresses + s3.httpRoutes;
      assert Calls(g, b, c, 4) == Next(g, s3, Call(true, c));
    } else {
      assert b.pending == DeleteService(o);
      assert s1.pending == RemoveFinalizers(o) && s1.lb == s.lb && !s1.service;
    }
  }

  // ----- publishing makes progress -----

  /** Calls left at most. */
  function CallsLeft(p: Pending): nat {
    match p
    case AddFinalizer(_) => 6
    case ApplyService(_) => 5
    case PersistHostname(_) => 4
    case AddHostnameFinalizer(_) => 3
    case ApplyHostnameResource(_) => 2
    case PatchStatus(_, _) => 1
    case _ => 0
  }

  /** A resource of the chosen kind serves the hostname. */
  predicate HostnameServed(g: Topology, s: State, c: Choice) {
    g.lbNamespace in if c.gateway then s.httpRoutes else s.ingresses
  }

  /** How far an undisturbed reconcile of the object o has got. */
  predicate Publishing(g: Topology, s: State, c: Choice, o: Object) {
    && s.lb.Some? && (!s.pending.Idle? ==> s.lb.value == s.pending.local)
    && s.lb.value.finalizers - OWN == o.finalizers - OWN && !s.lb.value.deleting && s.lb.value.hasEndpoints
    && (!s.pending.AddFinalizer? ==> CLEANUP in s.lb.value.finalizers)
    && (!s.pending.AddFinalizer? && CLEANUP !in o.finalizers ==> OLD_CLEANUP !in s.lb.value.finalizers)
    && (!s.pending.AddFinalizer? && !s.pending.ApplyService? ==> s.service)
    && match s.pending
       case AddFinalizer(_) => true
       case ApplyService(_) => true
       case PersistHostname(local) => c.hostname && !local.hostname
       case AddHostnameFinalizer(local) => c.hostname && local.hostname
       case ApplyHostnameResource(local) => c.hostname && local.hostname && HOSTNAME in local.finalizers
       case PatchStatus(local, configured) =>
         configured == c.hostname
         && (c.hostname ==> local.hostname && HOSTNAME in local.finalizers && HostnameServed(g, s, c))
       case Idle =>
         s.lb.value.hostname == c.hostname
         && (c.hostname ==> HOSTNAME in s.lb.value.finalizers && HostnameServed(g, s, c))
       case _ => false
  }

  lemma PublishingStep(g: Topology, s: State, c: Choice, o: Object)
    requires Publishing(g, s, c, o)
    ensures var t := Next(g, s, Call(true, c));
            Publishing(g, t, c, o) && (t.pending.Idle? || CallsLeft(t.pending) < CallsLeft(s.pending))
  {
    FinalizersDiffer();
    hide HostnameServed;
    var local := s.lb.value;
    if s.pending.AddFinalizer? {
      assert local.finalizers + {CLEANUP} - {OLD_CLEANUP} - OWN == local.finalizers - OWN;
    } else if s.pending.AddHostnameFinalizer? {
      assert local.finalizers + {HOSTNAME} - OWN == local.finalizers - OWN;
    } else if s.pending.ApplyHostnameResource? {
      NowServed(g, s, c);
    } else if s.pending.PatchStatus? {
      StillServed(g, s, c);
    }
  }

  lemma NowServed(g: Topology, s: State, c: Choice)
    requires s.pending.ApplyHostnameResource?
    ensures HostnameServed(g, Called(g, s, c), c)
  {
  }

  lemma StillServed(g: Topology, s: State, c: Choice)
    requires s.pending.PatchStatus?
    ensures HostnameServed(g, Called(g, s, c), c) == HostnameServed(g, s, c)
  {
  }

  lemma {:induction false} PublishingRun(g: Topology, s: State, c: Choice, o: Object, n: nat)
    requires Publishing(g, s, c, o)
    ensures var t := Calls(g, s, c, n);
            Publishing(g, t, c, o) && (t.pending.Idle? || CallsLeft(t.pending) + n <= CallsLeft(s.pending))
  {
    hide Publishing, Next;
    if n > 0 {
      PublishingRun(g, s, c, o, n - 1);
      PublishingStep(g, Calls(g, s, c, n - 1), c, o);
    }
  }

  /** A reconcile that is not disturbed publishes an enabled object with endpoints within six
      calls: the Service exists under the cleanup finalizer, which has replaced the old one, and
      when a hostname is to be configured its resource exists under the hostname finalizer and
      the status says so. */
  lemma PublishingCompletes(g: Topology, s: State, c: Choice)
    requires s.pending.Idle? && s.lb.Some? && !s.disabled
    requires s.lb.value.hasEndpoints && !s.lb.value.deleting
    ensures var o, e := s.lb.value, Calls(g, Next(g, s, Begin), c, 6);
            && e.pending.Idle? && e.service && e.lb.Some? && !e.lb.value.deleting
            && CLEANUP in e.lb.value.finalizers && e.lb.value.finalizers - OWN == o.finalizers - OWN
            && (CLEANUP !in o.finalizers ==> OLD_CLEANUP !in e.lb.value.finalizers)
            && e.lb.value.hostname == c.hostname
            && (c.hostname ==> HOSTNAME in e.lb.value.finalizers)
            && (c.hostname ==> g.lbNamespace in if c.gateway then e.httpRoutes else e.ingresses)
  {
    var b := Next(g, s, Begin);
    assert Publishing(g, b, c, s.lb.value) && CallsLeft(b.pending) <= 6;
    PublishingRun(g, b, c, s.lb.value, 6);
    hide Calls, Next;
  }

  /** A run of the reconciler alone: it begins, makes calls that succeed or fail, crashes. */
  ghost predicate OwnSteps(steps: seq<Step>) {
    forall i :: 0 <= i < |steps| ==> steps[i].Begin? || steps[i].Call? || steps[i].Crash?
  }

  function From(g: Topology, s: State, steps: seq<Step>, n: nat): State
    requires n <= |steps|
  {
    if n == 0 then s else Next(g, From(g, s, steps, n - 1), steps[n - 1])
  }

  /** Whatever it tries, the reconciler does nothing to an object without endpoints, to one that
      is being deleted and holds none of its finalizers, or, when the tenant is disabled, to one
      without the cleanup finalizer. */
  lemma {:induction false} NothingToDo(g: Topology, s: State, steps: seq<Step>, n: nat)
    requires s.pending.Idle? && s.lb.Some? && OwnSteps(steps) && n <= |steps|
    requires var o := s.lb.value;
             || !o.hasEndpoints
             || (if o.deleting then o.finalizers !! {"kubelb.k8c.io/cleanup", "kubelb.k8c.io/cleanup-envoy-proxy",
                                                     "kubelb.k8c.io/cleanup-hostname"}
                 else s.disabled && CLEANUP !in o.finalizers)
    ensures From(g, s, steps, n) == s
  {
    if n > 0 {
      NothingToDo(g, s, steps, n - 1);
      assert steps[n - 1].Begin? || steps[n - 1].Call? || steps[n - 1].Crash?;
    }
  }

  function CleanupRun(c: Choice): seq<Step> {
    [Begin, Call(true, c), Call(true, c), Call(true, c), Call(true, c)]
  }

  lemma {:induction false} CleanupRunIs(g: Topology, s: State, c: Choice, n: nat)
    requires n <= 4
    ensures From(g, s, CleanupRun(c), n + 1) == Calls(g, Next(g, s, Begin), c, n)
  {
    hide Next;
    if n == 0 {
      assert From(g, s, CleanupRun(c), 0) == s;
    } else {
      CleanupRunIs(g, s, c, n - 1);
      assert CleanupRun(c)[n] == Call(true, c);
    }
  }

  /** An object that is being deleted and held by the reconciler's finalizers only can be
      brought to go by the reconciler if and only if it has endpoints. */
  lemma DeletionIff(g: Topology, s: State)
    requires Inv(s) && s.pending.Idle? && s.lb.Some?
    requires var o := s.lb.value; o.deleting && o.finalizers != {} && o.finalizers <= OWN
    ensures (exists steps: seq<Step>, n: nat | n <= |steps| && OwnSteps(steps) :: From(g, s, steps, n).lb.None?)
            <==> s.lb.value.hasEndpoints
  {
    hide Next, Inv, From;
    if s.lb.value.hasEndpoints {
      var c := Choice(false, false, false);
      CleanupCompletes(g, s, c);
      var calls := if HOSTNAME in s.lb.value.finalizers then 4 else 2;
      CleanupRunIs(g, s, c, calls);
      assert OwnSteps(CleanupRun(c));
      assert From(g, s, CleanupRun(c), calls + 1).lb.None?;
    } else {
      forall steps: seq<Step>, n: nat | n <= |steps| && OwnSteps(steps) ensures From(g, s, steps, n).lb.Some? {
        NothingToDo(g, s, steps, n);
      }
    }
  }
}
