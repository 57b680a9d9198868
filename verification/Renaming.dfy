/** Rewriting backends of Ingresses and HTTPRoutes to the names of the generated Services. */
module Renaming {
  import opened Text
  import opened Api
  import opened PortTable
  import opened ServiceGeneration
  import opened Forwarding

  /** A service of the route, as the rewriters see it. */
  datatype Listed = Listed(name: string, namespace: string, uid: string)

  function ListedOf(s: Service): Listed {
    Listed(OriginName(s), s.namespace, s.uid)
  }

  predicate AllNamed(refs: seq<Listed>) {
    forall i :: 0 <= i < |refs| ==> |refs[i].uid| >= NAME_SUFFIX_LENGTH
  }

  function NewName(global: bool, l: Listed): string
    requires |l.uid| >= NAME_SUFFIX_LENGTH
  {
    GenerateName(global, l.uid, l.name, l.namespace)
  }

  /** The rewriters and the generator agree on the name of a service. */
  lemma NewNameIsGenerated(r: Route, s: Service, appName: string, t: Table, global: bool, annotations: Option<Labels>)
    requires |s.uid| >= NAME_SUFFIX_LENGTH
    ensures NewName(global, ListedOf(s)) == GeneratedFor(r, s, appName, t, global, annotations).name
    ensures |NewName(global, ListedOf(s))| <= MAX_NAME_LENGTH
  {
  }

  predicate DistinctListed(refs: seq<Listed>) {
    forall i, j :: 0 <= i < j < |refs| ==> refs[i].name != refs[j].name
  }

  predicate DistinctNewNames(global: bool, refs: seq<Listed>)
    requires AllNamed(refs)
  {
    forall i, j :: 0 <= i < j < |refs| ==> NewName(global, refs[i]) != NewName(global, refs[j])
  }

  // ----- Ingress: the backend is read again after every rewrite -----

  function Rewritten(global: bool, refs: seq<Listed>, name: string, n: nat): string
    requires AllNamed(refs) && n <= |refs|
  {
    if n == 0 then name
    else
      var current := Rewritten(global, refs, name, n - 1);
      if current == refs[n - 1].name then NewName(global, refs[n - 1]) else current
  }

  /** The backend names of an Ingress, rule by rule, and its default backend. */
  datatype Ingress = Ingress(rules: seq<seq<string>>, defaultBackend: Option<string>)

  function RewrittenPaths(global: bool, refs: seq<Listed>, paths: seq<string>): seq<string>
    requires AllNamed(refs)
  {
    seq(|paths|, j requires 0 <= j < |paths| => Rewritten(global, refs, paths[j], |refs|))
  }

  function RewrittenIngress(global: bool, refs: seq<Listed>, x: Ingress): Ingress
    requires AllNamed(refs)
  {
    Ingress(seq(|x.rules|, i requires 0 <= i < |x.rules| => RewrittenPaths(global, refs, x.rules[i])),
            if x.defaultBackend.None? then None else Some(Rewritten(global, refs, x.defaultBackend.value, |refs|)))
  }

  /** The Ingress being prepared for the load-balancing cluster; its backends are rewritten in place. */
  class IngressObject {
    var rules: seq<seq<string>>
    var defaultBackend: Option<string>

    function Value(): Ingress
      reads this
    {
      Ingress(rules, defaultBackend)
    }

    method RewriteBackends(global: bool, refs: seq<Listed>)
      requires AllNamed(refs)
      modifies this
      ensures Value() == RewrittenIngress(global, refs, old(Value()))
    {
      hide NewName, Rewritten, RewrittenPaths;
      ghost var given := rules;
      ghost var spec := RewrittenIngress(global, refs, Value());
      for i := 0 to |rules|
        invariant |rules| == |given| && rules[..i] == spec.rules[..i] && rules[i..] == given[i..]
        invariant defaultBackend == old(defaultBackend)
      {
        assert rules[i] == rules[i..][0] == given[i..][0] == given[i];
        var paths := RewritePaths(global, refs, rules[i]);
        rules := rules[i := paths];
        assert rules[i + 1..] == given[i..][1..] == given[i + 1..];
        assert rules[..i + 1] == spec.rules[..i] + [spec.rules[i]];
      }
      assert rules == rules[..|rules|] == spec.rules[..|rules|];
      if defaultBackend.Some? {
        var name := RewriteBackend(global, refs, defaultBackend.value);
        defaultBackend := Some(name);
      }
    }
  }

  method RewritePaths(global: bool, refs: seq<Listed>, given: seq<string>) returns (paths: seq<string>)
    requires AllNamed(refs)
    ensures paths == RewrittenPaths(global, refs, given)
  {
    hide NewName, Rewritten;
    ghost var spec := RewrittenPaths(global, refs, given);
    paths := given;
    for j := 0 to |paths|
      invariant |paths| == |given| && paths[..j] == spec[..j] && paths[j..] == given[j..]
    {
      assert paths[j] == paths[j..][0] == given[j..][0] == given[j];
      var name := RewriteBackend(global, refs, paths[j]);
      paths := paths[j := name];
      assert paths[j + 1..] == given[j..][1..] == given[j + 1..];
      assert paths[..j + 1] == spec[..j] + [spec[j]];
    }
    assert paths == paths[..|paths|] == spec[..|paths|];
  }

  method RewriteBackend(global: bool, refs: seq<Listed>, given: string) returns (name: string)
    requires AllNamed(refs)
    ensures name == Rewritten(global, refs, given, |refs|)
  {
    name := given;
    for k := 0 to |refs|
      invariant name == Rewritten(global, refs, given, k)
    {
      if name == refs[k].name {
        name := GenerateName(global, refs[k].uid, refs[k].name, refs[k].namespace);
      }
    }
  }

  /** A backend that names no listed service is left alone. */
  lemma {:induction false} UnlistedKept(global: bool, refs: seq<Listed>, name: string, n: nat)
    requires AllNamed(refs) && n <= |refs| && forall i :: 0 <= i < n ==> refs[i].name != name
    ensures Rewritten(global, refs, name, n) == name
  {
    hide NewName;
    if n > 0 {
      UnlistedKept(global, refs, name, n - 1);
    }
  }

  /** Once rewritten at j, a backend ends as the new name of j or of a later service. */
  lemma {:induction false} EndsAtOrAfter(global: bool, refs: seq<Listed>, name: string, n: nat, j: nat) returns (k: nat)
    requires AllNamed(refs) && j < n <= |refs| && Rewritten(global, refs, name, j) == refs[j].name
    ensures j <= k < n && Rewritten(global, refs, name, n) == NewName(global, refs[k])
    decreases n
  {
    hide NewName;
    if j == n - 1 || Rewritten(global, refs, name, n - 1) == refs[n - 1].name {
      k := n - 1;
    } else {
      k := EndsAtOrAfter(global, refs, name, n - 1, j);
    }
  }

  /** No later service is listed under the new name of i. */
  predicate NotTakenLater(global: bool, refs: seq<Listed>, i: nat)
    requires AllNamed(refs) && i < |refs|
  {
    forall j :: i < j < |refs| ==> refs[j].name != NewName(global, refs[i])
  }

  lemma {:induction false} NewNameKept(global: bool, refs: seq<Listed>, i: nat, n: nat)
    requires AllNamed(refs) && DistinctListed(refs) && i < n <= |refs|
             && forall j :: i < j < n ==> refs[j].name != NewName(global, refs[i])
    ensures Rewritten(global, refs, refs[i].name, n) == NewName(global, refs[i])
    decreases n
  {
    hide NewName;
    if i == n - 1 {
      UnlistedKept(global, refs, refs[i].name, i);
    } else {
      NewNameKept(global, refs, i, n - 1);
    }
  }

  /** An Ingress backend naming a listed service is rewritten to the name generated for that
      service if and only if no later listed service bears the generated name. */
  lemma IngressBackendIff(global: bool, refs: seq<Listed>, i: nat)
    requires AllNamed(refs) && DistinctListed(refs) && DistinctNewNames(global, refs) && i < |refs|
    ensures Rewritten(global, refs, refs[i].name, |refs|) == NewName(global, refs[i])
            <==> NotTakenLater(global, refs, i)
  {
    hide NewName;
    if NotTakenLater(global, refs, i) {
      NewNameKept(global, refs, i, |refs|);
    } else {
      var j := FirstTaken(global, refs, i);
      NewNameKept(global, refs, i, j);
      var k := EndsAtOrAfter(global, refs, refs[i].name, |refs|, j);
      assert NewName(global, refs[i]) != NewName(global, refs[k]);
    }
  }

  lemma FirstTaken(global: bool, refs: seq<Listed>, i: nat) returns (j: nat)
    requires AllNamed(refs) && i < |refs| && !NotTakenLater(global, refs, i)
    ensures i < j < |refs| && refs[j].name == NewName(global, refs[i])
    ensures forall k :: i < k < j ==> refs[k].name != NewName(global, refs[i])
  {
    hide NewName;
    j := i + 1;
    while refs[j].name != NewName(global, refs[i])
      invariant i < j < |refs|
      invariant forall k :: i < k < j ==> refs[k].name != NewName(global, refs[i])
      decreases |refs| - j
    {
      j := j + 1;
      if j == |refs| {
        assert false;
      }
    }
  }

  /** The chain is real: a tenant service called like another's generated name. */
  lemma IngressChain(uid: string, uid': string)
    requires |uid| >= 4 && |uid'| >= 4
    ensures Rewritten(false, [Listed("web", "shop", uid), Listed("shop-web", "shop", uid')], "web", 2)
            == "shop-shop-web"
  {
    var refs := [Listed("web", "shop", uid), Listed("shop-web", "shop", uid')];
    assert NewName(false, refs[0]) == "shop-web";
    assert NewName(false, refs[1]) == "shop-shop-web";
    assert Rewritten(false, refs, "web", 0) == "web";
    assert Rewritten(false, refs, "web", 1) == "shop-web";
  }

  function ListedServices(services: seq<Service>): seq<Listed> {
    seq(|services|, i requires 0 <= i < |services| => ListedOf(services[i]))
  }

  /** Every backend of the rewritten Ingress that named a service of the route now names the
      Service generated for it. */
  lemma IngressFollowsServices(r: Route, services: seq<Service>, x: Ingress, appName: string, t: Table, global: bool,
                               annotations: Option<Labels>, i: nat)
    requires AllNamed(ListedServices(services)) && DistinctListed(ListedServices(services)) && i < |services|
    requires NotTakenLater(global, ListedServices(services), i)
    ensures assert ListedServices(services)[i] == ListedOf(services[i]);
            var y, name := RewrittenIngress(global, ListedServices(services), x), OriginName(services[i]);
            var generated := GeneratedFor(r, services[i], appName, t, global, annotations).name;
            && |generated| <= MAX_NAME_LENGTH
            && (x.defaultBackend == Some(name) ==> y.defaultBackend == Some(generated))
            && (forall a, b | 0 <= a < |x.rules| && 0 <= b < |x.rules[a]| && x.rules[a][b] == name ::
                y.rules[a][b] == generated)
  {
    var refs := ListedServices(services);
    NewNameKept(global, refs, i, |refs|);
    assert refs[i] == ListedOf(services[i]);
    NewNameIsGenerated(r, services[i], appName, t, global, annotations);
  }

  /** Every backend of an Ingress, from its rules and its default. */
  predicate IsBackend(x: Ingress, name: string) {
    (exists i, j :: 0 <= i < |x.rules| && 0 <= j < |x.rules[i]| && x.rules[i][j] == name)
        || x.defaultBackend == Some(name)
  }

  /** GetServicesFromIngress: each backend once. */
  method ServicesFromIngress(x: Ingress) returns (names: seq<string>)
    ensures Distinct(names)
    ensures forall n :: n in names <==> IsBackend(x, n)
  {
    names := [];
    for i := 0 to |x.rules|
      invariant Distinct(names)
      invariant forall n :: n in names <==> exists a, j :: 0 <= a < i && 0 <= j < |x.rules[a]| && x.rules[a][j] == n
    {
      for j := 0 to |x.rules[i]|
        invariant Distinct(names)
        invariant forall n :: n in names <==>
                   (exists a, b :: 0 <= a < i && 0 <= b < |x.rules[a]| && x.rules[a][b] == n)
                   || n in x.rules[i][..j]
      {
        if x.rules[i][j] !in names {
          names := names + [x.rules[i][j]];
        }
        assert x.rules[i][..j + 1] == x.rules[i][..j] + [x.rules[i][j]];
      }
      assert x.rules[i][..|x.rules[i]|] == x.rules[i];
      forall n ensures n in x.rules[i] ==> exists j :: 0 <= j < |x.rules[i]| && x.rules[i][j] == n {
      }
    }
    if x.defaultBackend.Some? && x.defaultBackend.value !in names {
      names := names + [x.defaultBackend.value];
    }
  }

  // ----- HTTPRoute: every service is compared with the backend as given -----

  datatype BackendRef = BackendRef(kind: Option<string>, name: string, namespace: Option<string>)

  predicate Names(b: BackendRef, l: Listed) {
    (b.kind.None? || b.kind.value == "Service") && b.name == l.name
        && (b.namespace.None? || b.namespace.value == l.namespace)
  }

  /** The new name the first n services leave to a reference: the last match gives it. */
  function NewNameFor(global: bool, refs: seq<Listed>, b: BackendRef, n: nat): Option<string>
    requires AllNamed(refs) && n <= |refs|
  {
    if n == 0 then None
    else if Names(b, refs[n - 1]) then Some(NewName(global, refs[n - 1]))
    else NewNameFor(global, refs, b, n - 1)
  }

  function Retarget(b: BackendRef, name: Option<string>): BackendRef {
    if name.None? then b else b.(name := name.value, namespace := None)
  }

  function RewrittenRef(global: bool, refs: seq<Listed>, b: BackendRef): BackendRef
    requires AllNamed(refs)
  {
    Retarget(b, NewNameFor(global, refs, b, |refs|))
  }

  /** The filters of a rule or backend; those that are not request mirrors are None. */
  type Filters = seq<Option<BackendRef>>

  datatype Backend = Backend(ref: BackendRef, filters: Filters)

  datatype Rule = Rule(filters: Filters, backends: seq<Backend>)

  function RewrittenFilters(global: bool, refs: seq<Listed>, filters: Filters): Filters
    requires AllNamed(refs)
  {
    seq(|filters|, j requires 0 <= j < |filters| =>
      if filters[j].None? then None else Some(RewrittenRef(global, refs, filters[j].value)))
  }

  function RewrittenBackends(global: bool, refs: seq<Listed>, backends: seq<Backend>): seq<Backend>
    requires AllNamed(refs)
  {
    seq(|backends|, j requires 0 <= j < |backends| => backends[j].(ref := RewrittenRef(global, refs, backends[j].ref)))
  }

  /** The new name that the first n filters of a backend leave behind. */
  function NestedName(global: bool, refs: seq<Listed>, filters: Filters, n: nat): Option<string>
    requires AllNamed(refs) && n <= |filters|
  {
    if n == 0 then None
    else
      var own := if filters[n - 1].None? then None else NewNameFor(global, refs, filters[n - 1].value, |refs|);
      if own.Some? then own else NestedName(global, refs, filters, n - 1)
  }

  /** The last mirror that names a listed service gives it. */
  lemma {:induction false} LastMirrorWins(global: bool, refs: seq<Listed>, filters: Filters, n: nat, k: nat)
    requires AllNamed(refs) && k < n <= |filters|
    requires filters[k].Some? && NewNameFor(global, refs, filters[k].value, |refs|).Some?
    requires forall l :: k < l < n && filters[l].Some? ==> NewNameFor(global, refs, filters[l].value, |refs|) == None
    ensures NestedName(global, refs, filters, n) == NewNameFor(global, refs, filters[k].value, |refs|)
    decreases n
  {
    hide NewNameFor;
    if k < n - 1 {
      LastMirrorWins(global, refs, filters, n - 1, k);
    }
  }

  /** What the j-th backend's own mirrors write: the rule's j-th filter, or nothing. */
  function NestedAt(global: bool, refs: seq<Listed>, x: Rule, j: nat): Option<string>
    requires AllNamed(refs)
  {
    if j < |x.backends| then NestedName(global, refs, x.backends[j].filters, |x.backends[j].filters|) else None
  }

  /** The write of the j-th backend has no mirror to go to, and panics. */
  predicate Panics(global: bool, refs: seq<Listed>, x: Rule, j: nat)
    requires AllNamed(refs)
  {
    NestedAt(global, refs, x, j).Some? && (j >= |x.filters| || x.filters[j].None?)
  }

  /** The rule's filters after the first n backends were treated. */
  function Overwritten(global: bool, refs: seq<Listed>, x: Rule, n: nat): Filters
    requires AllNamed(refs)
  {
    var own := RewrittenFilters(global, refs, x.filters);
    seq(|own|, j requires 0 <= j < |own| =>
      if j < n && own[j].Some? then Some(Retarget(own[j].value, NestedAt(global, refs, x, j))) else own[j])
  }

  /** A rule that was rewritten without a panic. */
  function RuleResult(global: bool, refs: seq<Listed>, x: Rule): Rule
    requires AllNamed(refs)
  {
    Rule(Overwritten(global, refs, x, |x.backends|), RewrittenBackends(global, refs, x.backends))
  }

  predicate RulePanics(global: bool, refs: seq<Listed>, x: Rule)
    requires AllNamed(refs)
  {
    exists j :: 0 <= j < |x.backends| && Panics(global, refs, x, j)
  }

  /** The HTTPRoute being prepared for the load-balancing cluster; its rules are rewritten in place. */
  class HttpRouteObject {
    var rules: seq<Rule>

    method RewriteBackends(global: bool, refs: seq<Listed>) returns (panicked: bool)
      requires AllNamed(refs)
      modifies this
      ensures panicked <==> exists i :: 0 <= i < |old(rules)| && RulePanics(global, refs, old(rules)[i])
      ensures !panicked
              ==> |rules| == |old(rules)|
                  && forall i :: 0 <= i < |rules| ==> rules[i] == RuleResult(global, refs, old(rules)[i])
    {
      hide NewName, RuleResult, RulePanics;
      ghost var given := rules;
      for i := 0 to |rules|
        invariant |rules| == |given| && forall a :: i <= a < |given| ==> rules[a] == given[a]
        invariant forall a :: 0 <= a < i ==>
                   rules[a] == RuleResult(global, refs, given[a]) && !RulePanics(global, refs, given[a])
      {
        var rule := RewriteRule(global, refs, rules[i]);
        if rule.None? {
          return true;
        }
        rules := rules[i := rule.value];
      }
      panicked := false;
    }
  }

  /** One rule of CreateOrUpdateHTTPRoute; None is a panic. */
  method RewriteRule(global: bool, refs: seq<Listed>, x: Rule) returns (r: Option<Rule>)
    requires AllNamed(refs)
    ensures r.None? <==> RulePanics(global, refs, x)
    ensures r.Some? ==> r.value == RuleResult(global, refs, x)
  {
    hide NewName, RewrittenRef, NestedName;
    var filters := RewriteFilters(global, refs, x.filters);
    ghost var spec := RewrittenBackends(global, refs, x.backends);
    var backends := x.backends;
    assert filters == Overwritten(global, refs, x, 0);
    for j := 0 to |x.backends|
      invariant filters == Overwritten(global, refs, x, j)
      invariant forall i: nat :: i < j ==> !Panics(global, refs, x, i)
      invariant |backends| == |x.backends| && backends[..j] == spec[..j] && backends[j..] == x.backends[j..]
    {
      assert backends[j] == backends[j..][0] == x.backends[j..][0] == x.backends[j];
      var ref := RewriteRef(global, refs, backends[j].ref);
      backends := backends[j := backends[j].(ref := ref)];
      assert backends[j + 1..] == x.backends[j..][1..] == x.backends[j + 1..];
      assert backends[..j + 1] == spec[..j] + [spec[j]];
      var own := if j < |filters| then filters[j] else None;
      var target := RewriteNested(global, refs, x.backends[j].filters, own);
      if target.None? {
        assert Panics(global, refs, x, j);
        return None;
      }
      if j < |filters| {
        filters := filters[j := target.value];
      }
      assert filters == Overwritten(global, refs, x, j + 1);
    }
    assert backends == backends[..|backends|] == spec[..|backends|];
    r := Some(Rule(filters, backends));
  }

  /** The mirrors of one backend, written to one filter of the rule; None is a panic. */
  method RewriteNested(global: bool, refs: seq<Listed>, nested: Filters, own: Option<BackendRef>)
    returns (r: Option<Option<BackendRef>>)
    requires AllNamed(refs)
    ensures var name := NestedName(global, refs, nested, |nested|);
            r == if own.None? then (if name.None? then Some(None) else None) else Some(Some(Retarget(own.value, name)))
  {
    hide NewName;
    r := Some(own);
    for k := 0 to |nested|
      invariant var name := NestedName(global, refs, nested, k);
        r == if own.None? then (if name.None? then Some(None) else None) else Some(Some(Retarget(own.value, name)))
    {
      if nested[k].Some? {
        var name := FindName(global, refs, nested[k].value);
        if name.Some? {
          r := if r.None? || r.value.None? then None else Some(Some(Retarget(r.value.value, name)));
        }
      }
    }
  }

  method RewriteFilters(global: bool, refs: seq<Listed>, given: Filters) returns (filters: Filters)
    requires AllNamed(refs)
    ensures filters == RewrittenFilters(global, refs, given)
  {
    hide NewName, RewrittenRef;
    ghost var spec := RewrittenFilters(global, refs, given);
    filters := given;
    for j := 0 to |filters|
      invariant |filters| == |given| && filters[..j] == spec[..j] && filters[j..] == given[j..]
    {
      assert filters[j] == filters[j..][0] == given[j..][0] == given[j];
      if filters[j].Some? {
        var b := RewriteRef(global, refs, filters[j].value);
        filters := filters[j := Some(b)];
      }
      assert filters[j + 1..] == given[j..][1..] == given[j + 1..];
      assert filters[..j + 1] == spec[..j] + [spec[j]];
    }
    assert filters == filters[..|filters|] == spec[..|filters|];
  }

  method RewriteRef(global: bool, refs: seq<Listed>, b: BackendRef) returns (r: BackendRef)
    requires AllNamed(refs)
    ensures r == RewrittenRef(global, refs, b)
  {
    var name := FindName(global, refs, b);
    r := Retarget(b, name);
  }

  method FindName(global: bool, refs: seq<Listed>, b: BackendRef) returns (name: Option<string>)
    requires AllNamed(refs)
    ensures name == NewNameFor(global, refs, b, |refs|)
  {
    hide NewName;
    name := None;
    for k := 0 to |refs|
      invariant name == NewNameFor(global, refs, b, k)
    {
      if Names(b, refs[k]) {
        name := Some(NewName(global, refs[k]));
      }
    }
  }

  /** A reference is left alone exactly when it names no listed service; otherwise the last match wins. */
  lemma {:induction false} LastMatchWins(global: bool, refs: seq<Listed>, b: BackendRef, n: nat) returns (k: nat)
    requires AllNamed(refs) && n <= |refs|
    ensures k <= n && (forall j :: k <= j < n ==> !Names(b, refs[j]))
    ensures k > 0 ==> Names(b, refs[k - 1])
    ensures NewNameFor(global, refs, b, n) == if k == 0 then None else Some(NewName(global, refs[k - 1]))
  {
    hide NewName, Names;
    if n == 0 {
      k := 0;
    } else if Names(b, refs[n - 1]) {
      k := n;
    } else {
      k := LastMatchWins(global, refs, b, n - 1);
    }
  }

  /** A reference is left alone if and only if it is to something other than a Service or to a
      name, or a name in a namespace, that is not listed. */
  lemma LeftAloneIff(global: bool, refs: seq<Listed>, b: BackendRef)
    requires AllNamed(refs)
    ensures NewNameFor(global, refs, b, |refs|) == None
            <==> (b.kind.Some? && b.kind.value != "Service")
                 || forall i :: 0 <= i < |refs| ==>
                      b.name != refs[i].name || (b.namespace.Some? && b.namespace.value != refs[i].namespace)
    ensures NewNameFor(global, refs, b, |refs|) == None ==> RewrittenRef(global, refs, b) == b
  {
    hide NewName;
    var k := LastMatchWins(global, refs, b, |refs|);
  }

  /** A backendRef or rule-level mirror naming a listed service gets that service's generated
      name, in the route's own namespace, if and only if no later listed service matches it too. */
  lemma HttpBackendIff(global: bool, refs: seq<Listed>, b: BackendRef, i: nat)
    requires AllNamed(refs) && DistinctNewNames(global, refs) && i < |refs| && Names(b, refs[i])
    ensures RewrittenRef(global, refs, b) == b.(name := NewName(global, refs[i]), namespace := None)
            <==> forall j :: i < j < |refs| ==> !Names(b, refs[j])
  {
    hide NewName, Names;
    var k := LastMatchWins(global, refs, b, |refs|);
    if k - 1 != i {
      assert NewName(global, refs[k - 1]) != NewName(global, refs[i]);
    }
  }

  /** A reference that gives its namespace is never ambiguous. */
  lemma QualifiedBackend(global: bool, refs: seq<Listed>, b: BackendRef, i: nat)
    requires AllNamed(refs) && i < |refs| && Names(b, refs[i]) && b.namespace.Some?
    requires forall x, y :: 0 <= x < y < |refs| ==>
              refs[x].namespace != refs[y].namespace || refs[x].name != refs[y].name
    ensures RewrittenRef(global, refs, b) == b.(name := NewName(global, refs[i]), namespace := None)
  {
    hide NewName;
    var k := LastMatchWins(global, refs, b, |refs|);
  }

  /** The i-th service is the last one the reference names. */
  predicate NamesLast(b: BackendRef, refs: seq<Listed>, i: nat) {
    i < |refs| && Names(b, refs[i]) && forall j :: i < j < |refs| ==> !Names(b, refs[j])
  }

  lemma NamedLastRewritten(global: bool, refs: seq<Listed>, b: BackendRef, i: nat)
    requires AllNamed(refs) && NamesLast(b, refs, i)
    ensures RewrittenRef(global, refs, b) == b.(name := NewName(global, refs[i]), namespace := None)
  {
    hide NewName, Names;
    var k := LastMatchWins(global, refs, b, |refs|);
    assert k - 1 == i;
  }

  /** Every backend of a rewritten rule that named a service of the route now names the Service
      generated for it, in the route's namespace; so does every mirror of the rule that no
      backend's own mirror was written over. */
  lemma HttpFollowsServices(r: Route, services: seq<Service>, x: Rule, appName: string, t: Table, global: bool,
                            annotations: Option<Labels>, i: nat)
    requires AllNamed(ListedServices(services)) && i < |services|
    ensures assert ListedServices(services)[i] == ListedOf(services[i]);
            var refs, generated := ListedServices(services),
                GeneratedFor(r, services[i], appName, t, global, annotations).name;
            var y := RuleResult(global, refs, x);
            && |generated| <= MAX_NAME_LENGTH
            && (forall j | 0 <= j < |x.backends| && NamesLast(x.backends[j].ref, refs, i) ::
                  y.backends[j].ref == x.backends[j].ref.(name := generated, namespace := None))
            && (forall j | 0 <= j < |x.filters| && x.filters[j].Some? && NamesLast(x.filters[j].value, refs, i)
                && NestedAt(global, refs, x, j) == None ::
                  y.filters[j] == Some(x.filters[j].value.(name := generated, namespace := None)))
  {
    var refs := ListedServices(services);
    assert refs[i] == ListedOf(services[i]);
    NewNameIsGenerated(r, services[i], appName, t, global, annotations);
    hide NewName, NamesLast, RewrittenRef, NestedAt, GeneratedFor, ListedServices;
    forall b | NamesLast(b, refs, i)
      ensures RewrittenRef(global, refs, b) == b.(name := NewName(global, refs[i]), namespace := None) {
      NamedLastRewritten(global, refs, b, i);
    }
  }

  /** What the rewrite is for: every reference of the rule, nested mirrors included. */
  function Intended(global: bool, refs: seq<Listed>, x: Rule): Rule
    requires AllNamed(refs)
  {
    Rule(RewrittenFilters(global, refs, x.filters),
         seq(|x.backends|, j requires 0 <= j < |x.backends| =>
           Backend(RewrittenRef(global, refs, x.backends[j].ref),
                   RewrittenFilters(global, refs, x.backends[j].filters))))
  }

  /** No mirror of a backend names a listed service. */
  predicate NoNestedMatch(global: bool, refs: seq<Listed>, x: Rule)
    requires AllNamed(refs)
  {
    forall j, k, i ::
           0 <= j < |x.backends| && 0 <= k < |x.backends[j].filters| && 0 <= i < |refs|
               && x.backends[j].filters[k].Some? ==>
      !Names(x.backends[j].filters[k].value, refs[i])
  }

  lemma {:induction false} NoMatchNoName(global: bool, refs: seq<Listed>, filters: Filters, n: nat)
    requires AllNamed(refs) && n <= |filters|
    requires forall k, i :: 0 <= k < |filters| && 0 <= i < |refs| && filters[k].Some? ==>
              !Names(filters[k].value, refs[i])
    ensures NestedName(global, refs, filters, n) == None
    ensures RewrittenFilters(global, refs, filters) == filters
  {
    hide NewName, Names;
    forall k | 0 <= k < |filters| && filters[k].Some?
      ensures NewNameFor(global, refs, filters[k].value, |refs|) == None {
      var m := LastMatchWins(global, refs, filters[k].value, |refs|);
    }
    if n > 0 {
      NoMatchNoName(global, refs, filters, n - 1);
    }
  }

  /** A rule is rewritten without a panic to what is intended if and only if no mirror nested
      under a backend names a listed service. */
  lemma RuleIntendedIff(global: bool, refs: seq<Listed>, x: Rule)
    requires AllNamed(refs) && forall i :: 0 <= i < |refs| ==> NewName(global, refs[i]) != refs[i].name
    ensures !RulePanics(global, refs, x) && RuleResult(global, refs, x) == Intended(global, refs, x)
            <==> NoNestedMatch(global, refs, x)
  {
    if NoNestedMatch(global, refs, x) {
      WithoutNested(global, refs, x);
    } else {
      WithNested(global, refs, x);
    }
  }

  lemma WithoutNested(global: bool, refs: seq<Listed>, x: Rule)
    requires AllNamed(refs) && NoNestedMatch(global, refs, x)
    ensures !RulePanics(global, refs, x)
    ensures RuleResult(global, refs, x) == Intended(global, refs, x)
  {
    hide NewName, Names, NewNameFor, NestedName;
    forall j | 0 <= j < |x.backends|
      ensures NestedAt(global, refs, x, j) == None
      ensures RewrittenFilters(global, refs, x.backends[j].filters) == x.backends[j].filters
    {
      NoMatchNoName(global, refs, x.backends[j].filters, |x.backends[j].filters|);
    }
    assert Overwritten(global, refs, x, |x.backends|) == RewrittenFilters(global, refs, x.filters);
  }

  lemma WithNested(global: bool, refs: seq<Listed>, x: Rule)
    requires AllNamed(refs) && forall i :: 0 <= i < |refs| ==> NewName(global, refs[i]) != refs[i].name
    requires !NoNestedMatch(global, refs, x)
    ensures RuleResult(global, refs, x) != Intended(global, refs, x)
  {
    hide NewName, NestedName;
    var j, k, i :| 0 <= j < |x.backends| && 0 <= k < |x.backends[j].filters| && 0 <= i < |refs|
        && x.backends[j].filters[k].Some?
                   && Names(x.backends[j].filters[k].value, refs[i]);
    var b := x.backends[j].filters[k].value;
    var m := LastMatchWins(global, refs, b, |refs|);
    assert RewrittenRef(global, refs, b).name == NewName(global, refs[m - 1]) != b.name;
    assert Intended(global, refs, x).backends[j].filters[k] == Some(RewrittenRef(global, refs, b));
    assert RuleResult(global, refs, x).backends[j].filters[k] == Some(b);
  }

  /** A mirror of web nested under a backend of a rule without filters: the rewrite panics. */
  lemma NestedMirrorPanics(uid: string, ref: BackendRef)
    requires |uid| >= 4
    ensures var refs, web := [Listed("web", "shop", uid)], BackendRef(None, "web", None);
            AllNamed(refs) && RulePanics(false, refs, Rule([], [Backend(ref, [Some(web)])]))
  {
    var refs, web := [Listed("web", "shop", uid)], BackendRef(None, "web", None);
    var x := Rule([], [Backend(ref, [Some(web)])]);
    hide NewName;
    assert Names(web, refs[0]);
    assert NewNameFor(false, refs, web, 1) == Some(NewName(false, refs[0]));
    assert NestedName(false, refs, [Some(web)], 1).Some?;
    assert Panics(false, refs, x, 0);
  }

  /** The same under a rule whose first filter mirrors to other: that mirror is sent to web's
      Service, and the nested one is left alone. */
  lemma NestedMirrorMisplaced(uid: string, ref: BackendRef)
    requires |uid| >= 4
    ensures var refs, web, other := [Listed("web", "shop", uid)], BackendRef(None, "web", None),
            BackendRef(None, "other", None);
            AllNamed(refs)
            && var y := RuleResult(false, refs, Rule([Some(other)], [Backend(ref, [Some(web)])]));
            y.filters == [Some(other.(name := "shop-web"))] && y.backends[0].filters == [Some(web)]
  {
    var refs, web, other := [Listed("web", "shop", uid)], BackendRef(None, "web", None),
        BackendRef(None, "other", None);
    var x := Rule([Some(other)], [Backend(ref, [Some(web)])]);
    assert NewName(false, refs[0]) == "shop-web";
    assert Names(web, refs[0]) && !Names(other, refs[0]) by { assert |"web"| == 3 && |"other"| == 5; }
    assert NewNameFor(false, refs, web, 1) == Some("shop-web");
    assert NewNameFor(false, refs, other, 0) == None;
    assert NewNameFor(false, refs, other, 1) == None;
    assert NestedName(false, refs, [Some(web)], 1) == Some("shop-web");
    assert NestedAt(false, refs, x, 0) == Some("shop-web");
  }
}
