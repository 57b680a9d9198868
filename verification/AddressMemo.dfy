/** Reading each Addresses object once: when the memo agrees with direct reads. */
module AddressMemo {
  import opened Text
  import opened Api
  import opened PortTable
  import opened Snapshot

  predicate RefersAt(os: seq<Owner>, i: nat, j: nat, r: Ref) {
    i < |os| && j < |os[i].groups| && os[i].namespace == r.namespace && os[i].groups[j].reference == Some(r.name)
  }

  ghost predicate Refers(os: seq<Owner>, r: Ref) {
    exists i: nat, j: nat :: RefersAt(os, i, j, r)
  }

  /** No two references of the list print to one memo key. */
  ghost predicate KeysInjective(os: seq<Owner>) {
    forall r, r' :: Refers(os, r) && Refers(os, r') && MemoKey(r) == MemoKey(r') ==> r == r'
  }

  /** Both ways of resolving fail, or give the same addresses everywhere. */
  predicate Agree(os: seq<Owner>, store: Store) {
    var x, y := Resolve(os, |os|, store, true), Resolve(os, |os|, store, false);
    (x.Failed? <==> y.Failed?) && (x.Resolved? && y.Resolved? ==> x.value == y.value)
  }

  /** Every memo entry was read from the store for some reference of the list. */
  ghost predicate MemoSound(memo: Memo, os: seq<Owner>, store: Store) {
    forall k :: k in memo ==> exists r :: Refers(os, r) && MemoKey(r) == k && r in store && memo[k] == store[r]
  }

  lemma GroupAgrees(os: seq<Owner>, i: nat, j: nat, store: Store, memo: Memo, other: Memo)
    requires KeysInjective(os) && MemoSound(memo, os, store) && i < |os| && j < |os[i].groups|
    ensures var x := ResolveGroup(os[i].namespace, os[i].groups[j], store, memo, true);
            var y := ResolveGroup(os[i].namespace, os[i].groups[j], store, other, false);
            && (x.Failed? <==> y.Failed?)
            && (x.Resolved? && y.Resolved? ==> x.value == y.value && MemoSound(x.memo, os, store))
  {
    var g := os[i].groups[j];
    if g.reference.Some? {
      var r := Ref(os[i].namespace, g.reference.value);
      assert RefersAt(os, i, j, r);
    }
  }

  lemma {:induction false} GroupsAgree(os: seq<Owner>, i: nat, n: nat, store: Store, memo: Memo, other: Memo)
    requires KeysInjective(os) && MemoSound(memo, os, store) && i < |os| && n <= |os[i].groups|
    ensures var x := ResolveGroups(os[i], n, store, memo, true);
            var y := ResolveGroups(os[i], n, store, other, false);
            && (x.Failed? <==> y.Failed?)
            && (x.Resolved? && y.Resolved? ==> x.value == y.value && MemoSound(x.memo, os, store))
  {
    hide KeysInjective, MemoSound, ResolveGroup;
    if n > 0 {
      GroupsAgree(os, i, n - 1, store, memo, other);
      var x, y := ResolveGroups(os[i], n - 1, store, memo, true), ResolveGroups(os[i], n - 1, store, other, false);
      if x.Resolved? {
        GroupAgrees(os, i, n - 1, store, x.memo, y.memo);
      }
    }
  }

  lemma {:induction false} ResolveAgrees(os: seq<Owner>, n: nat, store: Store)
    requires KeysInjective(os) && n <= |os|
    ensures var x, y := Resolve(os, n, store, true), Resolve(os, n, store, false);
            && (x.Failed? <==> y.Failed?)
            && (x.Resolved? && y.Resolved? ==> x.value == y.value && MemoSound(x.memo, os, store))
  {
    hide KeysInjective, ResolveGroups;
    if n > 0 {
      ResolveAgrees(os, n - 1, store);
      var x, y := Resolve(os, n - 1, store, true), Resolve(os, n - 1, store, false);
      if x.Resolved? {
        GroupsAgree(os, n - 1, |os[n - 1].groups|, store, x.memo, y.memo);
      }
    }
  }

  // ----- the converse: a store that tells two references with one key apart -----

  function References(os: seq<Owner>): set<Ref> {
    set i, j | 0 <= i < |os| && 0 <= j < |os[i].groups| && os[i].groups[j].reference.Some? ::
      Ref(os[i].namespace, os[i].groups[j].reference.value)
  }

  /** Every referenced object exists and is recognisable by its content. */
  function Telling(os: seq<Owner>): Store {
    map r | r in References(os) :: [Address(r.namespace, r.name)]
  }

  predicate Within(a: Memo, b: Memo) {
    forall k :: k in a ==> k in b && a[k] == b[k]
  }

  /** With a memo, a group ends up with whatever the final memo holds for its key. */
  predicate FromMemo(namespace: string, g: Endpoints, resolved: Endpoints, memo: Memo) {
    g.reference.Some? ==>
      var k := MemoKey(Ref(namespace, g.reference.value));
      k in memo && resolved.addresses == memo[k]
  }

  predicate FromStore(namespace: string, g: Endpoints, resolved: Endpoints, store: Store) {
    g.reference.Some? ==>
      var r := Ref(namespace, g.reference.value);
      r in store && resolved.addresses == store[r]
  }

  predicate GroupsPresent(o: Owner, store: Store) {
    forall j :: 0 <= j < |o.groups| && o.groups[j].reference.Some?
           ==> Ref(o.namespace, o.groups[j].reference.value) in store
  }

  lemma {:induction false} GroupsFromMemo(o: Owner, n: nat, store: Store, memo: Memo)
    requires n <= |o.groups| && GroupsPresent(o, store)
    ensures var x := ResolveGroups(o, n, store, memo, true);
            x.Resolved? && Within(memo, x.memo)
            && forall j :: 0 <= j < n ==> FromMemo(o.namespace, o.groups[j], x.value[j], x.memo)
  {
    if n > 0 {
      GroupsFromMemo(o, n - 1, store, memo);
    }
  }

  lemma {:induction false} GroupsFromStore(o: Owner, n: nat, store: Store, memo: Memo)
    requires n <= |o.groups| && GroupsPresent(o, store)
    ensures var x := ResolveGroups(o, n, store, memo, false);
            x.Resolved? && forall j :: 0 <= j < n ==> FromStore(o.namespace, o.groups[j], x.value[j], store)
  {
    if n > 0 {
      GroupsFromStore(o, n - 1, store, memo);
    }
  }

  predicate AllPresent(os: seq<Owner>, store: Store) {
    forall i :: 0 <= i < |os| ==> GroupsPresent(os[i], store)
  }

  lemma {:induction false} ResolvedFromMemo(os: seq<Owner>, n: nat, store: Store, i: nat, j: nat)
    requires n <= |os| && AllPresent(os, store) && i < n && j < |os[i].groups|
    ensures var x := Resolve(os, n, store, true);
            x.Resolved? && FromMemo(os[i].namespace, os[i].groups[j], x.value[i][j], x.memo)
    decreases n
  {
    AlwaysResolved(os, n - 1, store, true);
    var before := Resolve(os, n - 1, store, true);
    GroupsFromMemo(os[n - 1], |os[n - 1].groups|, store, before.memo);
    hide ResolveGroups;
    if i < n - 1 {
      ResolvedFromMemo(os, n - 1, store, i, j);
    }
  }

  lemma {:induction false} AlwaysResolved(os: seq<Owner>, n: nat, store: Store, memoise: bool)
    requires n <= |os| && AllPresent(os, store)
    ensures Resolve(os, n, store, memoise).Resolved?
  {
    if n > 0 {
      AlwaysResolved(os, n - 1, store, memoise);
      var before := Resolve(os, n - 1, store, memoise);
      if memoise {
        GroupsFromMemo(os[n - 1], |os[n - 1].groups|, store, before.memo);
      } else {
        GroupsFromStore(os[n - 1], |os[n - 1].groups|, store, before.memo);
      }
    }
  }

  lemma {:induction false} ResolvedFromStore(os: seq<Owner>, n: nat, store: Store, i: nat, j: nat)
    requires n <= |os| && AllPresent(os, store) && i < n && j < |os[i].groups|
    ensures var x := Resolve(os, n, store, false);
            x.Resolved? && FromStore(os[i].namespace, os[i].groups[j], x.value[i][j], store)
    decreases n
  {
    AlwaysResolved(os, n - 1, store, false);
    var before := Resolve(os, n - 1, store, false);
    GroupsFromStore(os[n - 1], |os[n - 1].groups|, store, before.memo);
    hide ResolveGroups;
    if i < n - 1 {
      ResolvedFromStore(os, n - 1, store, i, j);
    }
  }

  lemma {:induction false} GroupsNeed(o: Owner, n: nat, store: Store, memo: Memo, j: nat)
    requires j < n <= |o.groups| && ResolveGroups(o, n, store, memo, false).Resolved?
    ensures o.groups[j].reference.Some? ==> Ref(o.namespace, o.groups[j].reference.value) in store
    decreases n
  {
    if j < n - 1 {
      GroupsNeed(o, n - 1, store, memo, j);
    }
  }

  lemma {:induction false} ResolveNeeds(os: seq<Owner>, n: nat, store: Store, i: nat)
    requires i < n <= |os| && Resolve(os, n, store, false).Resolved?
    ensures GroupsPresent(os[i], store)
    decreases n
  {
    if i < n - 1 {
      ResolveNeeds(os, n - 1, store, i);
    } else {
      forall j | 0 <= j < |os[i].groups| && os[i].groups[j].reference.Some?
        ensures Ref(os[i].namespace, os[i].groups[j].reference.value) in store {
        GroupsNeed(os[i], |os[i].groups|, store, Resolve(os, n - 1, store, false).memo, j);
      }
    }
  }

  predicate ReferencesExist(namespace: string, groups: seq<Endpoints>, store: Store) {
    forall j :: 0 <= j < |groups| && groups[j].reference.Some? ==> Ref(namespace, groups[j].reference.value) in store
  }

  lemma AllPresentIff(lbs: seq<LoadBalancer>, routes: seq<Route>, store: Store)
    ensures AllPresent(Owners(lbs, routes), store)
            <==> (forall a :: 0 <= a < |lbs| ==> ReferencesExist(lbs[a].namespace, lbs[a].endpoints, store))
                 && forall a :: 0 <= a < |routes| && routes[a].source.Some? ==>
                      ReferencesExist(routes[a].namespace, routes[a].endpoints, store)
  {
    var os := Owners(lbs, routes);
    if AllPresent(os, store) {
      forall a | 0 <= a < |lbs| ensures ReferencesExist(lbs[a].namespace, lbs[a].endpoints, store) {
        assert GroupsPresent(os[a], store);
      }
      forall a | 0 <= a < |routes| && routes[a].source.Some?
        ensures ReferencesExist(routes[a].namespace, routes[a].endpoints, store) {
        assert GroupsPresent(os[|lbs| + a], store);
      }
    }
  }

  /** There is a snapshot if and only if every Addresses object exists that a LoadBalancer, or a
      route with a source, refers to. */
  lemma SnapshotExistsIff(lbs: seq<LoadBalancer>, routes: seq<Route>, store: Store, t: Table)
    requires KeysInjective(Owners(lbs, routes))
    ensures SnapshotOf(lbs, routes, store, t).Some?
            <==> (forall a :: 0 <= a < |lbs| ==> ReferencesExist(lbs[a].namespace, lbs[a].endpoints, store))
                 && forall a :: 0 <= a < |routes| && routes[a].source.Some? ==>
                      ReferencesExist(routes[a].namespace, routes[a].endpoints, store)
  {
    var os := Owners(lbs, routes);
    AllPresentIff(lbs, routes, store);
    ResolveAgrees(os, |os|, store);
    hide KeysInjective, Owners, Resolve, AllLbEmits, AllRouteEmits, Config;
    if Resolve(os, |os|, store, false).Resolved? {
      forall i | 0 <= i < |os| ensures GroupsPresent(os[i], store) {
        ResolveNeeds(os, |os|, store, i);
      }
    }
    if AllPresent(os, store) {
      AlwaysResolved(os, |os|, store, true);
    }
  }

  lemma TellingPresent(os: seq<Owner>)
    ensures AllPresent(os, Telling(os))
  {
    forall i, j | 0 <= i < |os| && 0 <= j < |os[i].groups| && os[i].groups[j].reference.Some?
      ensures Ref(os[i].namespace, os[i].groups[j].reference.value) in Telling(os)
    {
      assert Ref(os[i].namespace, os[i].groups[j].reference.value) in References(os);
    }
  }

  /** On that store agreement pins the final memo to each reference's own content. */
  lemma AgreePins(os: seq<Owner>, r: Ref)
    requires Agree(os, Telling(os)) && Refers(os, r)
    ensures var x := Resolve(os, |os|, Telling(os), true);
            x.Resolved? && MemoKey(r) in x.memo && x.memo[MemoKey(r)] == [Address(r.namespace, r.name)]
  {
    var i: nat, j: nat :| RefersAt(os, i, j, r);
    TellingPresent(os);
    ResolvedFromMemo(os, |os|, Telling(os), i, j);
    ResolvedFromStore(os, |os|, Telling(os), i, j);
  }

  /** The memo agrees with direct reads for every content of the store exactly when no
      two references of the list share a memo key. */
  lemma MemoExact(os: seq<Owner>)
    ensures (forall store :: Agree(os, store)) <==> KeysInjective(os)
  {
    if KeysInjective(os) {
      forall store ensures Agree(os, store) {
        ResolveAgrees(os, |os|, store);
      }
    }
    if forall store :: Agree(os, store) {
      assert Agree(os, Telling(os));
      hide Agree, Refers, Resolve, Telling;
      forall r, r' | Refers(os, r) && Refers(os, r') && MemoKey(r) == MemoKey(r') ensures r == r' {
        AgreePins(os, r);
        AgreePins(os, r');
        assert [Address(r.namespace, r.name)][0] == [Address(r'.namespace, r'.name)][0];
      }
    }
  }

  /** So the snapshot is the one of direct reads, or an error in the same cases. */
  lemma SnapshotAgrees(lbs: seq<LoadBalancer>, routes: seq<Route>, store: Store, t: Table)
    requires KeysInjective(Owners(lbs, routes))
    ensures Emits(lbs, routes, store, t, true) == Emits(lbs, routes, store, t, false)
  {
    var os := Owners(lbs, routes);
    ResolveAgrees(os, |os|, store);
  }

  /** One namespace (the shared topology) is enough. */
  lemma OneNamespace(os: seq<Owner>, namespace: string)
    requires forall i :: 0 <= i < |os| ==> os[i].namespace == namespace
    ensures KeysInjective(os)
  {
    forall r, r' | Refers(os, r) && Refers(os, r') && MemoKey(r) == MemoKey(r') ensures r == r' {
      var i: nat, j: nat :| RefersAt(os, i, j, r);
      var i': nat, j': nat :| RefersAt(os, i', j', r');
      CancelPrefix(namespace + "-address-", r.name, namespace + "-address-", r'.name);
    }
  }

  /** One reference name (the tenant side always writes the default one) is enough. */
  lemma OneName(os: seq<Owner>, name: string)
    requires forall i, j :: 0 <= i < |os| && 0 <= j < |os[i].groups| && os[i].groups[j].reference.Some? ==>
              os[i].groups[j].reference.value == name
    ensures KeysInjective(os)
  {
    forall r, r' | Refers(os, r) && Refers(os, r') && MemoKey(r) == MemoKey(r') ensures r == r' {
      var i: nat, j: nat :| RefersAt(os, i, j, r);
      var i': nat, j': nat :| RefersAt(os, i', j', r');
      assert r.name == name == r'.name;
      CancelSuffix(r.namespace + "-address-", name, r'.namespace + "-address-", name);
      CancelSuffix(r.namespace, "-address-", r'.namespace, "-address-");
    }
  }

  /** Without either condition two different objects share a memo entry. */
  lemma MemoCollision()
    ensures MemoKey(Ref("a-address-b", "c")) == MemoKey(Ref("a", "b-address-c"))
  {
    assert MemoKey(Ref("a-address-b", "c")) == "a-address-b-address-c";
    assert MemoKey(Ref("a", "b-address-c")) == "a-address-b-address-c";
  }
}
