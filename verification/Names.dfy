/** Go's string order and sorting by name. */
module Names {
  import opened Api

  /** a < b in Go's byte order. */
  predicate Before(a: string, b: string) {
    if b == "" then false
    else if a == "" then true
    else a[0] < b[0] || (a[0] == b[0] && Before(a[1..], b[1..]))
  }

  lemma {:induction false} BeforeIrreflexive(a: string)
    ensures !Before(a, a)
  {
    if a != "" {
      BeforeIrreflexive(a[1..]);
    }
  }

  lemma {:induction false} BeforeTransitive(a: string, b: string, c: string)
    requires Before(a, b) && Before(b, c)
    ensures Before(a, c)
  {
    if a != "" && a[0] == b[0] == c[0] {
      BeforeTransitive(a[1..], b[1..], c[1..]);
    }
  }

  lemma {:induction false} BeforeTotal(a: string, b: string)
    ensures Before(a, b) || Before(b, a) || a == b
  {
    if a != "" && b != "" && a[0] == b[0] {
      BeforeTotal(a[1..], b[1..]);
      assert a == [a[0]] + a[1..] && b == [b[0]] + b[1..];
    }
  }

  /** They differ first in a smaller character, or a ends first. */
  lemma {:induction false} BeforeIff(a: string, b: string)
    ensures Before(a, b)
            <==> (|a| < |b| && a == b[..|a|])
                 || exists i :: 0 <= i < |a| && i < |b| && a[..i] == b[..i] && a[i] < b[i]
  {
    if a != "" && b != "" {
      BeforeIff(a[1..], b[1..]);
      if a[0] == b[0] {
        SharedFirst(a, b);
      } else {
        assert a[..0] == b[..0];
        assert forall i :: 0 < i < |a| && i < |b| ==> a[..i][0] != b[..i][0];
        assert |a| < |b| ==> b[..|a|][0] != a[0];
      }
    }
  }

  lemma SharedFirst(a: string, b: string)
    requires a != "" && b != "" && a[0] == b[0]
    ensures |a| < |b| && a == b[..|a|] <==> |a[1..]| < |b[1..]| && a[1..] == b[1..][..|a[1..]|]
    ensures (exists i :: 0 <= i < |a| && i < |b| && a[..i] == b[..i] && a[i] < b[i])
            <==> exists i :: 0 <= i < |a[1..]| && i < |b[1..]| && a[1..][..i] == b[1..][..i] && a[1..][i] < b[1..][i]
  {
    var x, y := a[1..], b[1..];
    assert a == [a[0]] + x && b == [b[0]] + y;
    if |a| < |b| {
      assert b[..|a|] == [b[0]] + y[..|x|] && y[..|x|] == b[..|a|][1..];
    }
    forall i | 0 <= i < |x| && i < |y| ensures a[..i + 1] == b[..i + 1] <==> x[..i] == y[..i] {
      assert a[..i + 1] == [a[0]] + x[..i] && b[..i + 1] == [b[0]] + y[..i];
      assert x[..i] == a[..i + 1][1..] && y[..i] == b[..i + 1][1..];
    }
    if i :| 0 <= i < |a| && i < |b| && a[..i] == b[..i] && a[i] < b[i] {
      assert x[..i - 1] == y[..i - 1] && x[i - 1] < y[i - 1];
    }
    if i :| 0 <= i < |x| && i < |y| && x[..i] == y[..i] && x[i] < y[i] {
      assert a[..i + 1] == b[..i + 1] && a[i + 1] < b[i + 1];
    }
  }

  predicate Increasing(names: seq<string>) {
    forall i, j :: 0 <= i < j < |names| ==> Before(names[i], names[j])
  }

  /** An increasing list is determined by its members. */
  lemma {:induction false} IncreasingUnique(a: seq<string>, b: seq<string>)
    requires Increasing(a) && Increasing(b)
    requires forall x :: x in a <==> x in b
    ensures a == b
  {
    assert b != [] ==> b[0] in a;
    if a != [] {
      assert a[0] in b;
      var i :| 0 <= i < |b| && b[i] == a[0];
      assert b[0] in a;
      var j :| 0 <= j < |a| && a[j] == b[0];
      if i > 0 && j > 0 {
        BeforeTransitive(a[0], b[0], a[0]);
        BeforeIrreflexive(a[0]);
        assert false;
      }
      var a', b' := a[1..], b[1..];
      forall x ensures x in a' <==> x in b' {
        BeforeIrreflexive(a[0]);
        assert x in a <==> x == a[0] || x in a';
        assert x in b <==> x == b[0] || x in b';
        assert a[0] !in a' && b[0] !in b';
      }
      IncreasingUnique(a', b');
      assert a == [a[0]] + a' && b == [b[0]] + b';
    }
  }

  function NamesOf(ports: seq<ServicePort>): seq<string> {
    seq(|ports|, i requires 0 <= i < |ports| => ports[i].name)
  }

  /** Non-strict order of port names. */
  predicate SortedByName(ports: seq<ServicePort>) {
    forall i, j :: 0 <= i < j < |ports| ==> !Before(ports[j].name, ports[i].name)
  }

  predicate DistinctNames(ports: seq<ServicePort>) {
    forall i, j :: 0 <= i < j < |ports| ==> ports[i].name != ports[j].name
  }

  /** Insertion sort: one more element than `sorted`. */
  method InsertByName(sorted: seq<ServicePort>, p: ServicePort) returns (r: seq<ServicePort>)
    requires SortedByName(sorted)
    ensures SortedByName(r) && multiset(r) == multiset(sorted) + multiset{p}
  {
    hide Before, SortedByName;
    var i := |sorted|;
    while i > 0 && Before(p.name, sorted[i - 1].name)
      invariant 0 <= i <= |sorted|
      invariant forall j :: i <= j < |sorted| ==> Before(p.name, sorted[j].name)
    {
      i := i - 1;
    }
    InsertSorted(sorted, p, i);
    r := sorted[..i] + [p] + sorted[i..];
    assert sorted == sorted[..i] + sorted[i..];
  }

  lemma InsertSorted(sorted: seq<ServicePort>, p: ServicePort, i: nat)
    requires SortedByName(sorted) && i <= |sorted|
    requires forall j :: i <= j < |sorted| ==> Before(p.name, sorted[j].name)
    requires i > 0 ==> !Before(p.name, sorted[i - 1].name)
    ensures SortedByName(sorted[..i] + [p] + sorted[i..])
  {
    hide Before;
    forall j | 0 <= j < i ensures !Before(p.name, sorted[j].name) {
      BeforeIrreflexive(sorted[j].name);
      NotBeforeTransitive(sorted[j].name, sorted[i - 1].name, p.name);
    }
    forall j | i <= j < |sorted| ensures !Before(sorted[j].name, p.name) {
      BeforeIrreflexive(p.name);
      if Before(sorted[j].name, p.name) {
        BeforeTransitive(p.name, sorted[j].name, p.name);
      }
    }
  }

  /** a <= b and b <= c give a <= c. */
  lemma NotBeforeTransitive(a: string, b: string, c: string)
    requires !Before(b, a) && !Before(c, b)
    ensures !Before(c, a)
  {
    hide Before;
    if Before(c, a) {
      BeforeTotal(a, b);
      if Before(a, b) {
        BeforeTransitive(c, a, b);
      }
    }
  }

  /** sort.Slice by name; any sorted rearrangement is allowed, as that sort is unstable. */
  method SortByName(ports: seq<ServicePort>) returns (r: seq<ServicePort>)
    ensures SortedByName(r) && multiset(r) == multiset(ports)
  {
    r := [];
    for i := 0 to |ports|
      invariant SortedByName(r) && multiset(r) == multiset(ports[..i])
    {
      assert ports[..i + 1] == ports[..i] + [ports[i]];
      r := InsertByName(r, ports[i]);
    }
    assert ports[..|ports|] == ports;
  }
}
