/** Counting votes for hashes, and what each oracle's declared CPU is used for. */
module OracleCounting {
  import opened Common
  import opened Sums
  import opened Oracle

  type Rows = map<Name, Row>

  // ----- counts and modes

  lemma {:induction false} CountPositive(rows: Rows, names: seq<Name>, id: int, h: Hash)
    requires 0 < Count(rows, names, id, h)
    ensures exists j :: 0 <= j < |names| && names[j] in rows && Submitted(rows[names[j]], id, h)
    decreases |names|
  {
    if names[0] in rows && Submitted(rows[names[0]], id, h) {
    } else {
      CountPositive(rows, names[1..], id, h);
      var j :| 0 <= j < |names[1..]| && names[1..][j] in rows && Submitted(rows[names[1..][j]], id, h);
      assert names[j + 1] == names[1..][j];
    }
  }

  lemma {:induction false} CountAppend(rows: Rows, names: seq<Name>, n: Name, id: int, h: Hash)
    ensures Count(rows, names + [n], id, h)
         == Count(rows, names, id, h) + if n in rows && Submitted(rows[n], id, h) then 1 else 0
    decreases |names|
  {
    if names == [] {
      assert names + [n] == [n];
    } else {
      assert (names + [n])[1..] == names[1..] + [n];
      CountAppend(rows, names[1..], n, id, h);
    }
  }

  // Rows that answer alike count alike.
  lemma {:induction false} CountSame(rows: Rows, rows': Rows, names: seq<Name>, id: int, h: Hash)
    requires forall n | n in names ::
               (n in rows && Submitted(rows[n], id, h)) <==> (n in rows' && Submitted(rows'[n], id, h))
    ensures Count(rows', names, id, h) == Count(rows, names, id, h)
    decreases |names|
  {
    if names != [] { CountSame(rows, rows', names[1..], id, h); }
  }

  // One row's answer changes from no to yes.
  lemma {:induction false} CountOneMore(rows: Rows, rows': Rows, names: seq<Name>, n: Name, id: int, h: Hash)
    requires Distinct(names) && n in names
    requires n in rows' && Submitted(rows'[n], id, h) && !(n in rows && Submitted(rows[n], id, h))
    requires forall x | x in names && x != n ::
               (x in rows && Submitted(rows[x], id, h)) <==> (x in rows' && Submitted(rows'[x], id, h))
    ensures Count(rows', names, id, h) == Count(rows, names, id, h) + 1
    decreases |names|
  {
    assert Distinct(names[1..]) by { RestDistinct(names); }
    if names[0] == n {
      RestDistinct(names);
      CountSame(rows, rows', names[1..], id, h);
    } else {
      CountOneMore(rows, rows', names[1..], n, id, h);
    }
  }

  ghost predicate Distinct(names: seq<Name>) {
    forall i, j | 0 <= i < j < |names| :: names[i] != names[j]
  }

  lemma RestDistinct(names: seq<Name>)
    requires Distinct(names) && names != []
    ensures Distinct(names[1..]) && names[0] !in names[1..]
  {
    forall i, j | 0 <= i < j < |names[1..]|
      ensures names[1..][i] != names[1..][j]
    {
      assert names[1..][i] == names[i + 1] && names[1..][j] == names[j + 1];
    }
    assert forall i | 0 <= i < |names[1..]| :: names[1..][i] == names[i + 1] && names[0] != names[i + 1];
  }

  lemma {:induction false} CountAtMost(rows: Rows, names: seq<Name>, id: int, h: Hash)
    ensures Count(rows, names, id, h) <= |names|
    decreases |names|
  {
    if names != [] { CountAtMost(rows, names[1..], id, h); }
  }

  /** The mode's count is that of its hash, in eight bits, and no submitted hash has more; among
      equals it is the smallest. */
  lemma {:induction false} ModeIsBest(rows: Rows, names: seq<Name>, id: int, k: nat)
    requires k <= |names|
    ensures var m := ModeOf(rows, names, id, k);
            && (m.hash.None? ==> m.count == 0)
            && (m.hash.Some? ==>
                  && 0 < m.count == Count(rows, names, id, m.hash.value) % COUNTER
                  && exists j :: 0 <= j < k && names[j] in rows && Submitted(rows[names[j]], id, m.hash.value))
            && forall j, h | 0 <= j < k && names[j] in rows && Submitted(rows[names[j]], id, h) ::
                 && Count(rows, names, id, h) % COUNTER <= m.count
                 && (0 < m.count == Count(rows, names, id, h) % COUNTER ==> m.hash.value <= h)
    decreases k
  {
    if 0 < k {
      ModeIsBest(rows, names, id, k - 1);
      var m := ModeOf(rows, names, id, k);
      if m.hash.Some? && m != ModeOf(rows, names, id, k - 1) {
        assert names[k - 1] in rows && Submitted(rows[names[k - 1]], id, m.hash.value);
      }
    }
  }

  lemma ModeCovers(rows: Rows, names: seq<Name>, id: int, h: Hash)
    ensures Count(rows, names, id, h) % COUNTER <= ModeOf(rows, names, id, |names|).count
    ensures ModeOf(rows, names, id, |names|).hash.Some? ==>
              ModeOf(rows, names, id, |names|).count <= Count(rows, names, id, ModeOf(rows, names, id, |names|).hash.value)
  {
    ModeIsBest(rows, names, id, |names|);
    if 0 < Count(rows, names, id, h) {
      CountPositive(rows, names, id, h);
    }
  }

  // Oracles that all have h as item id are among those counted for h.
  lemma {:induction false} FullAreCounted(env: Env, rows: Rows, names: seq<Name>, m: Mode, id: int, h: Hash)
    requires forall n | n in names && n in rows && Full(env, rows[n], m) :: Submitted(rows[n], id, h)
    ensures CountFull(env, rows, names, m) <= Count(rows, names, id, h)
    decreases |names|
  {
    if names != [] { FullAreCounted(env, rows, names[1..], m, id, h); }
  }

  lemma {:induction false} FullPositive(env: Env, rows: Rows, names: seq<Name>, m: Mode)
    requires 0 < CountFull(env, rows, names, m)
    ensures exists n :: n in names && n in rows && Full(env, rows[n], m)
    decreases |names|
  {
    if names[0] in rows && Full(env, rows[names[0]], m) {
    } else {
      FullPositive(env, rows, names[1..], m);
    }
  }

  // ----- credits

  // What one oracle contributed to the payouts made so far.
  ghost function CreditRows(paid: map<int, Payout>, r: Row): map<int, int> {
    map id | id in paid :: if Submitted(r, id, paid[id].hash) then paid[id].cpu else 0
  }

  ghost function Credit(paid: map<int, Payout>, r: Row): int {
    SumInt(CreditRows(paid, r))
  }

  ghost function Credits(paid: map<int, Payout>, rows: Rows): map<Name, int> {
    map o | o in rows :: Credit(paid, rows[o])
  }

  ghost function PaidCpu(paid: map<int, Payout>): map<int, int> {
    map id | id in paid :: paid[id].cpu
  }

  ghost function Spent(rows: Rows): map<Name, int> { map o | o in rows :: rows[o].spent }
  ghost function Declared(rows: Rows): map<Name, int> { map o | o in rows :: rows[o].total }

  // A number for each name of a list.
  ghost function ListSum(m: map<Name, int>, names: seq<Name>): int
    decreases |names|
  {
    if names == [] then 0 else (if names[0] in m then m[names[0]] else 0) + ListSum(m, names[1..])
  }

  lemma {:induction false} ListSumIsSum(m: map<Name, int>, names: seq<Name>)
    requires Distinct(names) && forall n :: n in m <==> n in names
    ensures ListSum(m, names) == SumInt(m)
    decreases |names|
  {
    hide SumInt;
    if names == [] {
      IntZero(m);
    } else {
      RestDistinct(names);
      var rest := m - {names[0]};
      assert forall n | n in names :: n == names[0] || n in names[1..];
      ListSumIsSum(rest, names[1..]);
      ListSumWithout(m, rest, names[1..]);
      IntRemove(m, names[0]);
    }
  }

  lemma {:induction false} ListSumWithout(m: map<Name, int>, m': map<Name, int>, names: seq<Name>)
    requires forall n | n in names :: n in m && n in m' && m[n] == m'[n]
    ensures ListSum(m, names) == ListSum(m', names)
    decreases |names|
  {
    if names != [] { ListSumWithout(m, m', names[1..]); }
  }

  // Paying cpu to every oracle that has h as item id pays the count times cpu.
  lemma {:induction false} CountTimes(rows: Rows, names: seq<Name>, id: int, h: Hash, cpu: int, gains: map<Name, int>)
    requires forall n | n in names :: n in rows && n in gains && gains[n] == if Submitted(rows[n], id, h) then cpu else 0
    ensures ListSum(gains, names) == Count(rows, names, id, h) * cpu
    decreases |names|
  {
    if names != [] { CountTimes(rows, names[1..], id, h, cpu, gains); }
  }

  // A new payout is credited to everyone who submitted its hash.
  lemma PayoutCredits(rows: Rows, names: seq<Name>, paid: map<int, Payout>, id: int, p: Payout)
    requires Distinct(names) && (forall n :: n in rows <==> n in names) && id !in paid
    ensures SumInt(Credits(paid[id := p], rows)) == SumInt(Credits(paid, rows)) + Count(rows, names, id, p.hash) * p.cpu
  {
    hide SumInt;
    var gains := map o | o in rows :: if Submitted(rows[o], id, p.hash) then p.cpu else 0;
    forall o | o in rows
      ensures Credit(paid[id := p], rows[o]) == Credit(paid, rows[o]) + gains[o]
    {
      var a, b := CreditRows(paid, rows[o]), CreditRows(paid[id := p], rows[o]);
      assert b - {id} == a - {id};
      IntChange(a, b, id);
    }
    IntPlus(Credits(paid, rows), gains, Credits(paid[id := p], rows));
    ListSumIsSum(gains, names);
    CountTimes(rows, names, id, p.hash, p.cpu, gains);
  }

  // Submitting more never lowers an oracle's credit.
  lemma CreditGrows(paid: map<int, Payout>, r: Row, r': Row)
    requires forall id | id in paid :: 0 <= paid[id].cpu
    requires |r.hashes| <= |r'.hashes| && r'.hashes[..|r.hashes|] == r.hashes
    ensures Credit(paid, r) <= Credit(paid, r')
  {
    hide SumInt;
    forall id | id in paid
      ensures CreditRows(paid, r)[id] <= CreditRows(paid, r')[id]
    {
      if Submitted(r, id, paid[id].hash) { assert r'.hashes[id] == r'.hashes[..|r.hashes|][id]; }
    }
    IntMonotone(CreditRows(paid, r), CreditRows(paid, r'));
  }

  // The CPU of all datasets after the totals.
  function CpuAfter(data: seq<Dataset>): int {
    if |data| <= 1 then 0 else CpuAfter(data[..|data| - 1]) + Cpu(data[|data| - 1])
  }

  /** An oracle is never credited with more than its own datasets hold, as long as what is paid for
      one of its hashes is at most what it submitted under that hash. */
  lemma {:induction false} CreditAtMost(paid: map<int, Payout>, r: Row)
    requires |r.data| == |r.hashes|
    requires forall id | id in paid :: 1 <= id
    requires forall id | id in paid && Submitted(r, id, paid[id].hash) :: paid[id].cpu <= Cpu(r.data[id])
    requires forall i | 0 <= i < |r.data| :: 0 <= Cpu(r.data[i])
    ensures Credit(paid, r) <= CpuAfter(r.data)
    decreases |r.hashes|
  {
    hide SumInt;
    if |r.hashes| <= 1 {
      IntZero(CreditRows(paid, r));
    } else {
      var n := |r.hashes| - 1;
      var r0 := r.(hashes := r.hashes[..n], data := r.data[..n]);
      CreditAtMost(paid, r0);
      var a, b := CreditRows(paid, r0), CreditRows(paid, r);
      assert a - {n} == b - {n};
      IntChange(a, b, n);
    }
  }

  lemma {:induction false} CpuNonNegative(d: Dataset)
    requires forall i | 0 <= i < |d| :: 0 <= d[i].cpu
    ensures 0 <= Cpu(d)
  {
    if d != [] { CpuNonNegative(d[1..]); }
  }
}
