/** Whole runs of the port allocator: any sequence of its locked operations. */
module AllocatorRuns {
  import opened Text
  import opened PortTable

  datatype Op =
    | AllocateOp(ep: string, keys: seq<string>, draws: seq<int>)
    | DropPortsOp(ep: string, keys: seq<string>)
    | DropEndpointsOp(eps: seq<string>)

  /** None when the rejection loop would run out of free draws: that call never returns. */
  function Apply(t: Table, op: Op): Option<Table> {
    match op
    case AllocateOp(ep, keys, draws) =>
      if CanAllocate(t, ep, keys, draws) then Some(Allocate(t, ep, keys, draws)) else None
    case DropPortsOp(ep, keys) => Some(DropPorts(t, ep, keys))
    case DropEndpointsOp(eps) => Some(DropEndpoints(t, eps))
  }

  /** The table after the first n operations. */
  function Run(t: Table, ops: seq<Op>, n: nat): Option<Table>
    requires n <= |ops|
  {
    if n == 0 then Some(t)
    else
      var before := Run(t, ops, n - 1);
      if before.None? then None else Apply(before.value, ops[n - 1])
  }

  lemma {:induction false} RunPrefix(t: Table, ops: seq<Op>, m: nat, n: nat)
    requires m <= n <= |ops| && Run(t, ops, n).Some?
    ensures Run(t, ops, m).Some?
    decreases n
  {
    hide Apply;
    if m < n {
      RunPrefix(t, ops, m, n - 1);
    }
  }

  /** How many operations had run when the entry (ep, k) came to be; 0 for an entry
      of the initial table. */
  function Born(t: Table, ops: seq<Op>, n: nat, ep: string, k: string): nat
    requires n <= |ops|
  {
    if n == 0 then 0
    else
      var before := Run(t, ops, n - 1);
      if before.Some? && Has(before.value, ep, k) then Born(t, ops, n - 1, ep, k) else n
  }

  /** What any operation does to any entry: it keeps it unchanged, removes it, or creates
      it in the one endpoint the call is for, on a port nobody holds. */
  lemma ApplyEntry(t: Table, op: Op, ep: string, k: string)
    requires Apply(t, op).Some? && Has(Apply(t, op).value, ep, k)
    ensures var t' := Apply(t, op).value;
            if Has(t, ep, k) then t'[ep][k] == t[ep][k]
            else op.AllocateOp? && op.ep == ep && t'[ep][k] !in Ports(t) && START_PORT <= t'[ep][k] < END_PORT
  {
    if op.AllocateOp? {
      AllocateExact(t, op.ep, op.keys, op.draws);
    }
  }

  /** Port exclusivity over every run from an empty allocator, whatever the draws: two
      endpoints never share a port, and two keys of one endpoint share one only if a
      single call created both. */
  lemma {:induction false} Exclusive(ops: seq<Op>, n: nat, e: string, k: string, e': string, k': string)
    requires n <= |ops| && Run(map[], ops, n).Some?
    requires var t := Run(map[], ops, n).value;
             Has(t, e, k) && Has(t, e', k') && t[e][k] == t[e'][k']
    ensures e == e' && Born(map[], ops, n, e, k) == Born(map[], ops, n, e', k')
  {
    if n > 0 {
      var t := Run(map[], ops, n - 1).value;
      ApplyEntry(t, ops[n - 1], e, k);
      ApplyEntry(t, ops[n - 1], e', k');
      assert Has(t, e, k) ==> t[e][k] in Ports(t);
      assert Has(t, e', k') ==> t[e'][k'] in Ports(t);
      if Has(t, e, k) && Has(t, e', k') {
        Exclusive(ops, n - 1, e, k, e', k');
      }
    }
  }

  lemma {:induction false} FreeDrawsDrawn(draws: seq<int>, used: set<int>, at: nat, p: int)
    requires at <= |draws| && p in FreeDraws(draws, used, at)
    ensures exists i :: at <= i < |draws| && draws[i] == p - START_PORT
    decreases |draws| - at
  {
    if p != draws[at] + START_PORT {
      FreeDrawsDrawn(draws, used, at + 1, p);
    }
  }

  lemma {:induction false} FreeDrawsDistinct(draws: seq<int>, used: set<int>, at: nat)
    requires at <= |draws| && Distinct(draws)
    ensures Distinct(FreeDraws(draws, used, at))
    decreases |draws| - at
  {
    if at < |draws| {
      var port, rest := draws[at] + START_PORT, FreeDraws(draws, used, at + 1);
      FreeDrawsDistinct(draws, used, at + 1);
      if port in rest {
        FreeDrawsDrawn(draws, used, at + 1, port);
        assert false;
      }
      assert FreeDraws(draws, used, at) == rest || FreeDraws(draws, used, at) == [port] + rest;
    }
  }

  /** When no call draws a number twice, every table reachable from an injective one is
      injective. */
  lemma {:induction false} RunInjective(t: Table, ops: seq<Op>, n: nat)
    requires Injective(t) && n <= |ops| && Run(t, ops, n).Some?
    requires forall i :: 0 <= i < n && ops[i].AllocateOp? ==> Distinct(ops[i].draws)
    ensures Injective(Run(t, ops, n).value)
  {
    if n > 0 {
      RunInjective(t, ops, n - 1);
      var t1, op := Run(t, ops, n - 1).value, ops[n - 1];
      if op.AllocateOp? {
        FreeDrawsDistinct(op.draws, Ports(t1), 0);
        AllocateInjectiveIff(t1, op.ep, op.keys, op.draws);
      } else {
        forall e, k | Has(Apply(t1, op).value, e, k)
          ensures Has(t1, e, k) && t1[e][k] == Apply(t1, op).value[e][k]
        {
          ApplyEntry(t1, op, e, k);
        }
      }
    }
  }

  /** Every stored port lies in the drawing range. */
  ghost predicate InRange(t: Table) {
    forall e, k :: Has(t, e, k) ==> 10000 <= t[e][k] <= 65534
  }

  lemma {:induction false} RunInRange(t: Table, ops: seq<Op>, n: nat)
    requires InRange(t) && n <= |ops| && Run(t, ops, n).Some?
    ensures InRange(Run(t, ops, n).value)
  {
    if n > 0 {
      RunInRange(t, ops, n - 1);
      forall e, k | Has(Run(t, ops, n).value, e, k)
        ensures 10000 <= Run(t, ops, n).value[e][k] <= 65534
      {
        ApplyEntry(Run(t, ops, n - 1).value, ops[n - 1], e, k);
      }
    }
  }

  /** The operation neither deallocates the entry nor allocates its endpoint without it. */
  predicate Retains(op: Op, ep: string, k: string) {
    match op
    case AllocateOp(e, keys, _) => e == ep ==> k in keys
    case DropPortsOp(e, keys) => e == ep ==> k !in keys
    case DropEndpointsOp(eps) => ep !in eps
  }

  /** Stability: between two moments of a run, a key requested in every call for its
      endpoint keeps its port unless that key or endpoint is deallocated. */
  lemma {:induction false} Stable(t: Table, ops: seq<Op>, m: nat, n: nat, ep: string, k: string)
    requires m <= n <= |ops| && Run(t, ops, m).Some? && Run(t, ops, n).Some?
    requires Has(Run(t, ops, m).value, ep, k)
    requires forall i :: m <= i < n ==> Retains(ops[i], ep, k)
    ensures Has(Run(t, ops, n).value, ep, k) && Run(t, ops, n).value[ep][k] == Run(t, ops, m).value[ep][k]
    decreases n
  {
    hide Apply, Retains, Has;
    if m < n {
      Stable(t, ops, m, n - 1, ep, k);
      RetainedStep(Run(t, ops, n - 1).value, ops[n - 1], ep, k);
    }
  }

  lemma RetainedStep(t: Table, op: Op, ep: string, k: string)
    requires Has(t, ep, k) && Retains(op, ep, k) && Apply(t, op).Some?
    ensures Has(Apply(t, op).value, ep, k) && Apply(t, op).value[ep][k] == t[ep][k]
  {
    if op.AllocateOp? {
      AllocateExact(t, op.ep, op.keys, op.draws);
    }
  }

  lemma ApplyAllocates(t: Table, op: Op, k: string)
    requires op.AllocateOp? && k in op.keys && Apply(t, op).Some?
    ensures Has(Apply(t, op).value, op.ep, k)
  {
    AllocateExact(t, op.ep, op.keys, op.draws);
  }

  /** A requested key has a port from its call on, as long as later operations retain it. */
  lemma {:induction false} AllocatedByCall(t: Table, ops: seq<Op>, i: nat, n: nat, k: string)
    requires i < n <= |ops| && Run(t, ops, n).Some?
    requires ops[i].AllocateOp? && k in ops[i].keys
    requires forall j :: i < j < n ==> Retains(ops[j], ops[i].ep, k)
    ensures Has(Run(t, ops, n).value, ops[i].ep, k)
  {
    hide Apply, Retains;
    RunPrefix(t, ops, i, n);
    RunPrefix(t, ops, i + 1, n);
    ApplyAllocates(Run(t, ops, i).value, ops[i], k);
    Stable(t, ops, i + 1, n, ops[i].ep, k);
  }

  /** Running one list after another. */
  lemma {:induction false} RunAppend(t: Table, a: seq<Op>, b: seq<Op>, n: nat)
    requires n <= |b|
    ensures Run(t, a + b, |a| + n) == if Run(t, a, |a|).None? then None else Run(Run(t, a, |a|).value, b, n)
  {
    hide Apply;
    if n == 0 {
      RunOfPrefix(t, a, b, |a|);
    } else {
      RunAppend(t, a, b, n - 1);
    }
  }

  lemma {:induction false} RunOfPrefix(t: Table, a: seq<Op>, b: seq<Op>, n: nat)
    requires n <= |a|
    ensures Run(t, a + b, n) == Run(t, a, n)
  {
    hide Apply;
    if n > 0 {
      RunOfPrefix(t, a, b, n - 1);
    }
  }
}
