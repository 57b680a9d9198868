/** The port table as a value: what allocation, trimming and deallocation make of it. */
module PortTable {

  /** Port key to port. */
  type Row = map<string, int>

  /** Endpoint key to row. */
  type Table = map<string, Row>

  const START_PORT := 10000
  const END_PORT := 65535

  function RowOf(t: Table, ep: string): Row {
    if ep in t then t[ep] else map[]
  }

  predicate Has(t: Table, ep: string, k: string) {
    ep in t && k in t[ep]
  }

  /** Every port stored anywhere in the table: the full scan. */
  function Ports(t: Table): set<int> {
    set ep, k | ep in t && k in t[ep] :: t[ep][k]
  }

  /** Results of rand.Intn over the port range. */
  predicate ValidDraws(draws: seq<int>) {
    forall i :: 0 <= i < |draws| ==> 0 <= draws[i] < END_PORT - START_PORT
  }

  /** The ports the rejection loop accepts from position `at` on, while `used` stands. */
  function FreeDraws(draws: seq<int>, used: set<int>, at: nat): (free: seq<int>)
    requires at <= |draws|
    ensures forall i :: 0 <= i < |free| ==> free[i] !in used
    ensures ValidDraws(draws) ==> forall i :: 0 <= i < |free| ==> START_PORT <= free[i] < END_PORT
    decreases |draws| - at
  {
    if at == |draws| then []
    else
      var port := draws[at] + START_PORT;
      (if port in used then [] else [port]) + FreeDraws(draws, used, at + 1)
  }

  predicate Distinct<T(==)>(s: seq<T>) {
    forall i, j :: 0 <= i < j < |s| ==> s[i] != s[j]
  }

  /** Of the first n requested keys, those without a port yet, each once, in order. */
  function NewKeys(row: Row, keys: seq<string>, n: nat): (added: seq<string>)
    requires n <= |keys|
    ensures |added| <= n && Distinct(added)
    ensures forall k :: k in added <==> k in keys[..n] && k !in row
  {
    if n == 0 then []
    else
      var before := NewKeys(row, keys, n - 1);
      var k := keys[n - 1];
      assert keys[..n] == keys[..n - 1] + [k];
      if k in row || k in before then before else before + [k]
  }

  /** Give each added key the port at its position. */
  function Assign(row: Row, added: seq<string>, free: seq<int>, n: nat): Row
    requires n <= |added| && n <= |free|
  {
    if n == 0 then row else Assign(row, added, free, n - 1)[added[n - 1] := free[n - 1]]
  }

  lemma NewKeysStep(row: Row, keys: seq<string>, i: nat)
    requires i < |keys|
    ensures var before := NewKeys(row, keys, i);
            NewKeys(row, keys, i + 1) == if keys[i] in row || keys[i] in before then before else before + [keys[i]]
  {
  }

  lemma {:induction false} NewKeysGrow(row: Row, keys: seq<string>, m: nat, n: nat)
    requires m <= n <= |keys|
    ensures |NewKeys(row, keys, m)| <= |NewKeys(row, keys, n)|
  {
    hide NewKeys, Distinct;
    if m < n {
      NewKeysGrow(row, keys, m, n - 1);
      NewKeysStep(row, keys, n - 1);
    }
  }

  lemma {:induction false} AssignKeys(row: Row, added: seq<string>, free: seq<int>, n: nat, k: string)
    requires n <= |added| && n <= |free|
    ensures k in Assign(row, added, free, n) <==> k in row || k in added[..n]
  {
    if n > 0 {
      AssignKeys(row, added, free, n - 1, k);
      assert added[..n] == added[..n - 1] + [added[n - 1]];
    }
  }

  lemma {:induction false} AssignOld(row: Row, added: seq<string>, free: seq<int>, n: nat, k: string)
    requires n <= |added| && n <= |free| && k in row && k !in added
    ensures k in Assign(row, added, free, n) && Assign(row, added, free, n)[k] == row[k]
  {
    if n > 0 {
      AssignOld(row, added, free, n - 1, k);
    }
  }

  lemma {:induction false} AssignAt(row: Row, added: seq<string>, free: seq<int>, n: nat, i: nat)
    requires i < n <= |added| && n <= |free| && Distinct(added)
    ensures added[i] in Assign(row, added, free, n) && Assign(row, added, free, n)[added[i]] == free[i]
  {
    if i < n - 1 {
      AssignAt(row, added, free, n - 1, i);
    }
  }

  function SetOf(keys: seq<string>): set<string> {
    set k | k in keys
  }

  function Keep(row: Row, keys: seq<string>): Row {
    map k | k in row && k in keys :: row[k]
  }

  /** The stream holds a free draw for every key that has no port yet. */
  predicate CanAllocate(t: Table, ep: string, keys: seq<string>, draws: seq<int>) {
    ValidDraws(draws) && |NewKeys(RowOf(t, ep), keys, |keys|)| <= |FreeDraws(draws, Ports(t), 0)|
  }

  /** The row once every requested key has a port and before it is trimmed. */
  function Filled(t: Table, ep: string, keys: seq<string>, draws: seq<int>): Row
    requires CanAllocate(t, ep, keys, draws)
  {
    var added := NewKeys(RowOf(t, ep), keys, |keys|);
    Assign(RowOf(t, ep), added, FreeDraws(draws, Ports(t), 0), |added|)
  }

  /** AllocatePorts: survivors keep their port, new keys take the accepted draws in
      order, every other key of the endpoint is dropped. */
  function Allocate(t: Table, ep: string, keys: seq<string>, draws: seq<int>): Table
    requires CanAllocate(t, ep, keys, draws)
  {
    t[ep := Keep(Filled(t, ep, keys, draws), keys)]
  }

  /** DeallocatePorts. */
  function DropPorts(t: Table, ep: string, keys: seq<string>): Table {
    if ep in t then t[ep := t[ep] - SetOf(keys)] else t
  }

  /** DeallocateEndpoints. */
  function DropEndpoints(t: Table, eps: seq<string>): Table {
    t - SetOf(eps)
  }

  lemma FilledKeys(t: Table, ep: string, keys: seq<string>, draws: seq<int>)
    requires CanAllocate(t, ep, keys, draws)
    ensures Filled(t, ep, keys, draws).Keys == RowOf(t, ep).Keys + SetOf(keys)
  {
    var row, added := RowOf(t, ep), NewKeys(RowOf(t, ep), keys, |keys|);
    assert keys[..|keys|] == keys && added[..|added|] == added;
    forall k ensures k in Filled(t, ep, keys, draws) <==> k in row || k in keys {
      AssignKeys(row, added, FreeDraws(draws, Ports(t), 0), |added|, k);
    }
  }

  lemma FilledOld(t: Table, ep: string, keys: seq<string>, draws: seq<int>, k: string)
    requires CanAllocate(t, ep, keys, draws) && k in RowOf(t, ep)
    ensures k in Filled(t, ep, keys, draws) && Filled(t, ep, keys, draws)[k] == RowOf(t, ep)[k]
  {
    var added := NewKeys(RowOf(t, ep), keys, |keys|);
    AssignOld(RowOf(t, ep), added, FreeDraws(draws, Ports(t), 0), |added|, k);
  }

  lemma FilledNew(t: Table, ep: string, keys: seq<string>, draws: seq<int>, k: string) returns (i: nat)
    requires CanAllocate(t, ep, keys, draws) && k in keys && k !in RowOf(t, ep)
    ensures i < |NewKeys(RowOf(t, ep), keys, |keys|)| && NewKeys(RowOf(t, ep), keys, |keys|)[i] == k
    ensures k in Filled(t, ep, keys, draws) && Filled(t, ep, keys, draws)[k] == FreeDraws(draws, Ports(t), 0)[i]
  {
    var added := NewKeys(RowOf(t, ep), keys, |keys|);
    assert keys[..|keys|] == keys;
    assert k in added;
    i :| 0 <= i < |added| && added[i] == k;
    AssignAt(RowOf(t, ep), added, FreeDraws(draws, Ports(t), 0), |added|, i);
  }

  /** Exactness and stability of one allocation. */
  lemma AllocateExact(t: Table, ep: string, keys: seq<string>, draws: seq<int>)
    requires CanAllocate(t, ep, keys, draws)
    ensures var t' := Allocate(t, ep, keys, draws);
            && t'.Keys == t.Keys + {ep}
            && t'[ep].Keys == SetOf(keys)
            && (forall k :: k in keys && k in RowOf(t, ep) ==> t'[ep][k] == RowOf(t, ep)[k])
            && (forall k :: k in keys && k !in RowOf(t, ep) ==>
                 t'[ep][k] !in Ports(t) && START_PORT <= t'[ep][k] < END_PORT)
            && (forall e :: e in t && e != ep ==> t'[e] == t[e])
  {
    FilledKeys(t, ep, keys, draws);
    var filled := Filled(t, ep, keys, draws);
    forall k | k in keys
      ensures if k in RowOf(t, ep) then filled[k] == RowOf(t, ep)[k]
              else filled[k] !in Ports(t) && START_PORT <= filled[k] < END_PORT
    {
      if k in RowOf(t, ep) {
        FilledOld(t, ep, keys, draws, k);
      } else {
        var _ := FilledNew(t, ep, keys, draws, k);
      }
    }
  }

  /** No two entries of the table hold one port. */
  ghost predicate Injective(t: Table) {
    forall e, k, e', k' :: Has(t, e, k) && Has(t, e', k') && t[e][k] == t[e'][k'] ==> e == e' && k == k'
  }

  lemma NewPort(t: Table, ep: string, keys: seq<string>, draws: seq<int>, i: nat)
    requires CanAllocate(t, ep, keys, draws) && i < |NewKeys(RowOf(t, ep), keys, |keys|)|
    ensures var k := NewKeys(RowOf(t, ep), keys, |keys|)[i];
            Has(Allocate(t, ep, keys, draws), ep, k)
            && Allocate(t, ep, keys, draws)[ep][k] == FreeDraws(draws, Ports(t), 0)[i]
  {
    var added := NewKeys(RowOf(t, ep), keys, |keys|);
    assert keys[..|keys|] == keys;
    assert added[i] in added;
    var j := FilledNew(t, ep, keys, draws, added[i]);
    assert i == j;
  }

  /** The availability test is refreshed only between calls, so one call can hand the
      same port out twice: an injective table stays injective exactly when the accepted
      draws that the call uses are distinct. */
  lemma AllocateInjectiveIff(t: Table, ep: string, keys: seq<string>, draws: seq<int>)
    requires CanAllocate(t, ep, keys, draws) && Injective(t)
    ensures Injective(Allocate(t, ep, keys, draws))
            <==> Distinct(FreeDraws(draws, Ports(t), 0)[..|NewKeys(RowOf(t, ep), keys, |keys|)|])
  {
    var t', added := Allocate(t, ep, keys, draws), NewKeys(RowOf(t, ep), keys, |keys|);
    var used := FreeDraws(draws, Ports(t), 0)[..|added|];
    hide Allocate, NewKeys, FreeDraws, CanAllocate;
    if Injective(t') {
      forall i, j | 0 <= i < j < |used| ensures used[i] != used[j] {
        NewPort(t, ep, keys, draws, i);
        NewPort(t, ep, keys, draws, j);
      }
    }
    if Distinct(used) {
      forall e, k, e', k' | Has(t', e, k) && Has(t', e', k') && t'[e][k] == t'[e'][k']
        ensures e == e' && k == k'
      {
        EntryOrigin(t, ep, keys, draws, e, k);
        EntryOrigin(t, ep, keys, draws, e', k');
        assert Has(t, e, k) ==> t[e][k] in Ports(t);
        assert Has(t, e', k') ==> t[e'][k'] in Ports(t);
      }
    }
  }

  /** An entry after the call was there before, or is the i-th new key on the i-th
      accepted draw. */
  lemma EntryOrigin(t: Table, ep: string, keys: seq<string>, draws: seq<int>, e: string, k: string)
    requires CanAllocate(t, ep, keys, draws) && Has(Allocate(t, ep, keys, draws), e, k)
    ensures var t', added := Allocate(t, ep, keys, draws), NewKeys(RowOf(t, ep), keys, |keys|);
            if Has(t, e, k) then t'[e][k] == t[e][k]
            else e == ep && t'[e][k] !in Ports(t)
                 && exists i ::
                     0 <= i < |added| && added[i] == k && t'[e][k] == FreeDraws(draws, Ports(t), 0)[..|added|][i]
  {
    AllocateExact(t, ep, keys, draws);
    if !Has(t, e, k) {
      var i := FilledNew(t, ep, keys, draws, k);
    }
  }

  /** A new key can get any port from 10000 to 65534 that nobody holds. */
  lemma WholeRange(t: Table, ep: string, k: string, p: int)
    requires 10000 <= p <= 65534 && p !in Ports(t) && k !in RowOf(t, ep)
    ensures CanAllocate(t, ep, [k], [p - 10000])
    ensures var t' := Allocate(t, ep, [k], [p - 10000]); Has(t', ep, k) && t'[ep][k] == p
  {
    hide Ports;
    var keys, draws := [k], [p - 10000];
    assert NewKeys(RowOf(t, ep), keys, 0) == [];
    assert NewKeys(RowOf(t, ep), keys, 1) == [k];
    assert FreeDraws(draws, Ports(t), 1) == [];
    assert FreeDraws(draws, Ports(t), 0) == [p];
    AssignAt(RowOf(t, ep), [k], [p], 1, 0);
  }

  /** The double allocation: from any table, two new keys of one call and a draw that
      comes up twice. */
  lemma DoubleAllocation(t: Table, ep: string, k: string, k': string, d: int)
    requires k != k' && !Has(t, ep, k) && !Has(t, ep, k')
    requires 0 <= d < END_PORT - START_PORT && d + START_PORT !in Ports(t)
    ensures CanAllocate(t, ep, [k, k'], [d, d])
    ensures !Injective(Allocate(t, ep, [k, k'], [d, d]))
  {
    var keys, draws, port := [k, k'], [d, d], d + START_PORT;
    assert FreeDraws(draws, Ports(t), 2) == [];
    assert FreeDraws(draws, Ports(t), 1) == [port];
    assert FreeDraws(draws, Ports(t), 0) == [port, port];
    var row := RowOf(t, ep);
    assert NewKeys(row, keys, 0) == [];
    assert NewKeys(row, keys, 1) == [k];
    assert NewKeys(row, keys, 2) == [k, k'];
    NewPort(t, ep, keys, draws, 0);
    NewPort(t, ep, keys, draws, 1);
  }
}
