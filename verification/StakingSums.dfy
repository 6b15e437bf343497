/** Delegations added up by delegator and by receiver, and what one row's change does to the sums. */
module StakingSums {
  import opened Common
  import opened Sums
  import opened Staking

  type Part = (Key, Bandwidth) -> int

  function FromPart(a: Name): Part {
    (k: Key, d: Bandwidth) => if k.0 == a then d.net + d.cpu else 0
  }

  function NetPart(r: Name): Part {
    (k: Key, d: Bandwidth) => if k.1 == r then d.net else 0
  }

  function CpuPart(r: Name): Part {
    (k: Key, d: Bandwidth) => if k.1 == r then d.cpu else 0
  }

  function AllPart(): Part {
    (k: Key, d: Bandwidth) => d.net + d.cpu
  }

  ghost function Parts(m: map<Key, Bandwidth>, f: Part): map<Key, int> {
    map k | k in m :: f(k, m[k])
  }

  ghost function Total(m: map<Key, Bandwidth>, f: Part): int {
    SumInt(Parts(m, f))
  }

  function RowOf(m: map<Key, Bandwidth>, k: Key): Bandwidth {
    if k in m then m[k] else Bandwidth(0, 0)
  }

  // An empty row counts for nothing.
  lemma DelegateTotal(m: map<Key, Bandwidth>, k: Key, net: int, cpu: int, f: Part)
    requires Delegate(m, k, net, cpu).Some? && f(k, Bandwidth(0, 0)) == 0
    ensures Total(Delegate(m, k, net, cpu).value, f)
         == Total(m, f) - f(k, RowOf(m, k)) + f(k, Bandwidth(RowOf(m, k).net + net, RowOf(m, k).cpu + cpu))
  {
    hide SumInt;
    var m' := Delegate(m, k, net, cpu).value;
    assert Parts(m', f) - {k} == Parts(m, f) - {k};
    IntChange(Parts(m, f), Parts(m', f), k);
  }

  /** One delegation's change moves its delegator's sum, its receiver's two sums and the grand total,
      and no other sum. */
  lemma DelegateTotals(m: map<Key, Bandwidth>, k: Key, net: int, cpu: int)
    requires Delegate(m, k, net, cpu).Some?
    ensures var m' := Delegate(m, k, net, cpu).value;
            && Total(m', AllPart()) == Total(m, AllPart()) + net + cpu
            && (forall a :: Total(m', FromPart(a)) == Total(m, FromPart(a)) + if a == k.0 then net + cpu else 0)
            && (forall r :: Total(m', NetPart(r)) == Total(m, NetPart(r)) + if r == k.1 then net else 0)
            && (forall r :: Total(m', CpuPart(r)) == Total(m, CpuPart(r)) + if r == k.1 then cpu else 0)
  {
    hide Total, Delegate, RowOf;
    DelegateTotal(m, k, net, cpu, AllPart());
    forall a: Name
      ensures Total(Delegate(m, k, net, cpu).value, FromPart(a)) == Total(m, FromPart(a)) + if a == k.0 then net + cpu else 0
    {
      DelegateTotal(m, k, net, cpu, FromPart(a));
    }
    forall r: Name
      ensures Total(Delegate(m, k, net, cpu).value, NetPart(r)) == Total(m, NetPart(r)) + if r == k.1 then net else 0
      ensures Total(Delegate(m, k, net, cpu).value, CpuPart(r)) == Total(m, CpuPart(r)) + if r == k.1 then cpu else 0
    {
      DelegateTotal(m, k, net, cpu, NetPart(r));
      DelegateTotal(m, k, net, cpu, CpuPart(r));
    }
  }

  ghost predicate Stakes(m: map<Key, Bandwidth>) {
    forall k | k in m :: 0 <= m[k].net && 0 <= m[k].cpu && m[k] != Bandwidth(0, 0)
  }

  // A row is at most the sum it is part of.
  lemma RowInTotal(m: map<Key, Bandwidth>, k: Key, f: Part)
    requires forall x | x in m :: 0 <= f(x, m[x])
    ensures 0 <= Total(m, f) && (k in m ==> f(k, m[k]) <= Total(m, f))
  {
    hide SumInt;
    IntMember(Parts(m, f), k);
    IntNonNegative(Parts(m, f));
  }

  lemma RowInTotals(m: map<Key, Bandwidth>, k: Key)
    requires Stakes(m)
    ensures RowOf(m, k).net + RowOf(m, k).cpu <= Total(m, FromPart(k.0))
    ensures RowOf(m, k).net <= Total(m, NetPart(k.1)) && RowOf(m, k).cpu <= Total(m, CpuPart(k.1))
  {
    hide Total;
    RowInTotal(m, k, FromPart(k.0));
    RowInTotal(m, k, NetPart(k.1));
    RowInTotal(m, k, CpuPart(k.1));
  }

  lemma DelegateKeepsStakes(m: map<Key, Bandwidth>, k: Key, net: int, cpu: int)
    requires Stakes(m) && Delegate(m, k, net, cpu).Some?
    ensures Stakes(Delegate(m, k, net, cpu).value)
    ensures RowOf(Delegate(m, k, net, cpu).value, k) == Bandwidth(RowOf(m, k).net + net, RowOf(m, k).cpu + cpu)
    ensures forall x | x != k :: RowOf(Delegate(m, k, net, cpu).value, x) == RowOf(m, x)
  {
  }

  // ----- receivers' totals

  function NetOf(m: map<Name, Resources>, r: Name): int { if r in m then m[r].net else 0 }
  function CpuOf(m: map<Name, Resources>, r: Name): int { if r in m then m[r].cpu else 0 }
  function RamOf(m: map<Name, Resources>, r: Name): int { if r in m then m[r].ram else 0 }

  ghost function RamRows(m: map<Name, Resources>): map<Name, int> {
    map r | r in m :: m[r].ram
  }

  lemma ReceiveMoves(m: map<Name, Resources>, k: Name, net: int, cpu: int)
    ensures Receive(m, k, net, cpu).Some? <==> 0 <= NetOf(m, k) + net && 0 <= CpuOf(m, k) + cpu
    ensures Receive(m, k, net, cpu).Some? ==>
              var m' := Receive(m, k, net, cpu).value;
              && (forall r :: NetOf(m', r) == NetOf(m, r) + if r == k then net else 0)
              && (forall r :: CpuOf(m', r) == CpuOf(m, r) + if r == k then cpu else 0)
              && (forall r :: RamOf(m', r) == RamOf(m, r))
              && SumInt(RamRows(m')) == SumInt(RamRows(m))
  {
    hide SumInt;
    if Receive(m, k, net, cpu).Some? {
      var m' := Receive(m, k, net, cpu).value;
      assert RamRows(m') - {k} == RamRows(m) - {k};
      IntChange(RamRows(m), RamRows(m'), k);
    }
  }

  lemma AddRamMoves(m: map<Name, Resources>, k: Name, bytes: int)
    ensures var m' := AddRam(m, k, bytes);
            && (forall r :: NetOf(m', r) == NetOf(m, r) && CpuOf(m', r) == CpuOf(m, r))
            && (forall r :: RamOf(m', r) == RamOf(m, r) + if r == k then bytes else 0)
            && SumInt(RamRows(m')) == SumInt(RamRows(m)) + bytes
  {
    hide SumInt;
    var m' := AddRam(m, k, bytes);
    assert RamRows(m') - {k} == RamRows(m) - {k};
    IntChange(RamRows(m), RamRows(m'), k);
  }

  // ----- refunds

  ghost function RefundAmounts(m: map<Name, RefundRequest>): map<Name, int> {
    map o | o in m :: m[o].net + m[o].cpu
  }

  ghost predicate RefundRow(r: RefundRequest) {
    0 <= r.net && 0 <= r.cpu && (r.net != 0 || r.cpu != 0)
  }

  /** Pending refunds and the amount due add up: what is asked for is either queued or, when it
      takes back more than is pending, paid.  Rows stay non-negative and non-empty. */
  lemma RequeueBalances(m: map<Name, RefundRequest>, owner: Name, net: int, cpu: int, now: int)
    requires owner in m ==> RefundRow(m[owner])
    requires (0 <= net && 0 <= cpu) || (net <= 0 && cpu <= 0)
    ensures var (m', due) := Requeue(m, owner, net, cpu, now);
            && 0 <= due
            && SumInt(RefundAmounts(m')) == SumInt(RefundAmounts(m)) - net - cpu + due
            && (net <= 0 && cpu <= 0 ==> due == 0)
            && (owner in m' ==> RefundRow(m'[owner]))
            && (forall o | o != owner :: (o in m' <==> o in m) && (o in m' ==> m'[o] == m[o]))
  {
    hide SumInt;
    var (m', due) := Requeue(m, owner, net, cpu, now);
    assert RefundAmounts(m') - {owner} == RefundAmounts(m) - {owner};
    IntChange(RefundAmounts(m), RefundAmounts(m'), owner);
  }

  lemma RequeueTimes(m: map<Name, RefundRequest>, owner: Name, net: int, cpu: int, now: int)
    ensures var m' := Requeue(m, owner, net, cpu, now).0;
            owner in m' ==> m'[owner].time == if net < 0 || cpu < 0 then now / 1000000 else m[owner].time
    ensures (0 <= net && 0 <= cpu) ==> Requeue(m, owner, net, cpu, now).0.Keys <= m.Keys
  {
  }

  lemma RefundGone(m: map<Name, RefundRequest>, owner: Name)
    requires owner in m
    ensures SumInt(RefundAmounts(m - {owner})) == SumInt(RefundAmounts(m)) - m[owner].net - m[owner].cpu
  {
    hide SumInt;
    assert RefundAmounts(m - {owner}) == RefundAmounts(m) - {owner};
    IntRemove(RefundAmounts(m), owner);
  }
}
