/** When the oracle protocol never counts twice: exactly when the hash of a dataset's text tells its
    CPU.  One direction is an invariant of every run; the other a run for any two texts that collide. */
module OracleHashes {
  import opened Common
  import opened Sums
  import Token
  import opened Oracle
  import opened OracleCounting
  import opened OracleMachine
  import opened OracleExamples

  // ----- the condition

  // A dataset as addactusg accepts it.
  predicate Usable(d: Dataset) {
    forall i | 0 <= i < |d| :: 0 < d[i].cpu
  }

  function HashOf(env: Env, d: Dataset): Hash
    requires Usable(d)
  {
    env.sha(Text(env, d))
  }

  // Datasets with the same hash have the same CPU.
  ghost predicate TextsTell(env: Env) {
    forall d, e | Usable(d) && Usable(e) && HashOf(env, d) == HashOf(env, e) :: Cpu(d) == Cpu(e)
  }

  // Totals that share a dataset's hash are stored with no more CPU than the dataset has.
  ghost predicate TotalsTell(env: Env) {
    forall cpu: nat, net: nat, d: Dataset | net < TWO_TO_64 && Usable(d) && env.sha(TotalsText(cpu, net)) == HashOf(env, d) ::
      cpu + net <= Cpu(d)
  }

  // ----- where hashes come from

  predicate FromTotals(env: Env, h: Hash, d: Dataset) {
    |d| == 2 && 0 <= d[0].cpu && 0 <= d[1].cpu < TWO_TO_64 && h == env.sha(TotalsText(d[0].cpu, d[1].cpu))
  }

  predicate Stored(env: Env, h: Hash, d: Dataset) {
    FromTotals(env, h, d) || (Usable(d) && h == HashOf(env, d))
  }

  predicate Reported(env: Env, r: Row, i: int)
    requires 0 <= i < |r.hashes|
  {
    i < |r.data| && Usable(r.data[i]) && r.hashes[i] == HashOf(env, r.data[i])
  }

  ghost predicate RowTraced(env: Env, r: Row) {
    |r.data| == |r.hashes| && forall i | 1 <= i < |r.hashes| :: Reported(env, r, i)
  }

  /** Every stored dataset and every reported one has the hash it is known under. */
  ghost predicate Traced(env: Env, s: State) {
    && (forall h | h in s.datasets :: Stored(env, h, s.datasets[h]))
    && (forall n | n in s.rows :: RowTraced(env, s.rows[n]))
  }

  lemma TracedIsFaithful(env: Env, s: State)
    requires TextsTell(env) && TotalsTell(env) && Inv(s) && Traced(env, s)
    ensures Faithful(s)
  {
    hide Settled, TokensOk, SumInt, RowsOk, Text;
    forall n, id | n in s.rows && id in s.paid && Submitted(s.rows[n], id, s.paid[id].hash) && id < |s.rows[n].data|
                   && s.paid[id].hash in s.datasets
      ensures Cpu(s.datasets[s.paid[id].hash]) <= Cpu(s.rows[n].data[id])
    {
      var h, r := s.paid[id].hash, s.rows[n];
      assert Reported(env, r, id);
      assert Stored(env, h, s.datasets[h]);
      if FromTotals(env, h, s.datasets[h]) { CpuOfPair(s.datasets[h]); }
    }
  }

  lemma CpuOfPair(d: Dataset)
    requires |d| == 2
    ensures Cpu(d) == d[0].cpu + d[1].cpu
  {
    CpuOfTwo(d[0], d[1]);
    assert d == [d[0], d[1]];
  }

  lemma TotalsTraced(env: Env, s: State, source: Name, cpu: nat, net: nat, commitment: Hash, names: (Name, Name))
    requires Traced(env, s) && net < TWO_TO_64
    ensures Traced(env, WithTotals(env, s, source, cpu, net, commitment, names))
  {
    hide TotalsText, Text;
    var s' := WithTotals(env, s, source, cpu, net, commitment, names);
    forall n | n in s'.rows
      ensures RowTraced(env, s'.rows[n])
    {
      assert n != source ==> RowTraced(env, s.rows[n]);
    }
  }

  lemma RowGrows(env: Env, r: Row, d: Dataset)
    requires RowTraced(env, r) && Usable(d)
    ensures RowTraced(env, r.(spent := r.spent + Cpu(d), hashes := r.hashes + [HashOf(env, d)], data := r.data + [d]))
  {
    hide Text, HashOf;
    var r' := r.(spent := r.spent + Cpu(d), hashes := r.hashes + [HashOf(env, d)], data := r.data + [d]);
    forall i | 1 <= i < |r'.hashes|
      ensures Reported(env, r', i)
    {
      if i < |r.hashes| { assert Reported(env, r, i); }
    }
  }

  lemma UsageTraced(env: Env, s: State, source: Name, d: Dataset)
    requires Traced(env, s) && source in s.rows && Allocatable(s.rows[source], d)
    ensures Traced(env, WithUsage(env, s, source, d))
  {
    hide Text, Cpu;
    var s' := WithUsage(env, s, source, d);
    assert Usable(d);
    forall n | n in s'.rows
      ensures RowTraced(env, s'.rows[n])
    {
      assert RowTraced(env, s.rows[n]);
      RowGrows(env, s.rows[source], d);
    }
  }

  lemma SameTraced(env: Env, s: State, s': State)
    requires Traced(env, s) && s'.datasets == s.datasets && s'.rows == s.rows
    ensures Traced(env, s')
  {
  }

  lemma NextTraced(env: Env, s: State, a: Action)
    requires Inv(s) && Traced(env, s)
    ensures Traced(env, Next(env, s, a))
  {
    hide Traced, RowsOk, PayoutsOk, Settled, TokensOk, IssueIfAgreed, PayIfAgreed, WithTotals, WithUsage, FullReveals, Token.Act,
         Allocatable;
    var s' := Next(env, s, a);
    match a
    case Totals(source, isOracle, cpu, net, maxCpu, maxNet, commitment, start, i, names) =>
      if s' != s {
        TotalsTraced(env, s, source, cpu, net, commitment, names);
        IssueKeepsTables(WithTotals(env, s, source, cpu, net, commitment, names), i);
        SameTraced(env, WithTotals(env, s, source, cpu, net, commitment, names), s');
      }
    case Usage(source, isOracle, id, d, start) =>
      if s' != s {
        UsageTraced(env, s, source, d);
        PayKeepsTables(WithUsage(env, s, source, d), id);
        SameTraced(env, WithUsage(env, s, source, d), s');
      }
    case Advance(now) => if s' != s { AdvanceTraced(env, s'); }
    case ClaimShare(account) => SameTraced(env, s, s');
    case ClaimPay(owner) => SameTraced(env, s, s');
    case Activate(active) => SameTraced(env, s, s');
    case TokenAction(ta) => SameTraced(env, s, s');
  }

  lemma AdvanceTraced(env: Env, s: State)
    requires s.datasets == map[] && s.rows == map[]
    ensures Traced(env, s)
  {
  }

  lemma IssueKeepsTables(s: State, i: Inflation)
    ensures IssueIfAgreed(s, i).Some? ==> IssueIfAgreed(s, i).value.datasets == s.datasets && IssueIfAgreed(s, i).value.rows == s.rows
  {
    hide Issue, ModeOf;
    IssueKeepsVotes(i);
  }

  lemma PayKeepsTables(s: State, id: int)
    ensures PayIfAgreed(s, id).Some? ==> PayIfAgreed(s, id).value.datasets == s.datasets && PayIfAgreed(s, id).value.rows == s.rows
  {
    hide ModeOf, PayAccounts, Shares, Cpu;
  }

  lemma {:induction false} RunTraced(env: Env, s: State, acts: seq<Action>, s': State)
    requires Inv(s) && Traced(env, s) && IsRun(env, s, acts, s')
    ensures Inv(s') && Traced(env, s')
    decreases |acts|
  {
    hide Inv, Traced, Next;
    if acts != [] {
      NextKeeps(env, s, acts[0]);
      NextTraced(env, s, acts[0]);
      RunTraced(env, Next(env, s, acts[0]), acts[1..], s');
    }
  }

  /** Where hashes tell the CPU, no run counts twice. */
  lemma TellingHashesCountOnce(env: Env, threshold: nat, batchSize: nat, start: int, seconds: nat, token: Token.State,
                               acts: seq<Action>, s: State)
    requires TextsTell(env) && TotalsTell(env) && Token.Inv(token) && token.issuer == EOSIO
    requires IsRun(env, Fresh(threshold, batchSize, start, seconds, token), acts, s)
    ensures s.threshold * SumInt(PaidCpu(s.paid)) <= SumInt(Spent(s.rows)) <= SumInt(Declared(s.rows))
  {
    hide Inv, Traced, TextsTell, TotalsTell, IsRun, SumInt;
    var s0 := Fresh(threshold, batchSize, start, seconds, token);
    FreshInv(threshold, batchSize, start, seconds, token);
    AdvanceTraced(env, s0);
    RunTraced(env, s0, acts, s);
    TracedIsFaithful(env, s);
    NoDoubleCounting(s);
  }

  // ----- a run for two colliding datasets

  function Begun(threshold: nat, batchSize: nat): State {
    Fresh(threshold, batchSize, 0, 1, Token.Created(EOSIO, 100)).(active := true)
  }

  function Declare(source: Name, cpu: nat, net: nat): Action {
    Totals(source, true, cpu, net, cpu, net * 8 % TWO_TO_64, 0, 0, TERMS, (21, 22))
  }

  function Report(source: Name, d: Dataset): Action {
    Usage(source, true, 1, d, 0)
  }

  function TotalsHash(env: Env, cpu: nat, net: nat): Hash {
    env.sha(TotalsText(cpu, net))
  }

  function StoredTotals(cpu: nat, net: nat): Dataset {
    [Metric(21, cpu), Metric(22, net)]
  }

  function DeclaredRow(env: Env, cpu: nat, net: nat): Row {
    Row(cpu, 0, [TotalsHash(env, cpu, net)], 0, [StoredTotals(cpu, net)])
  }

  function ReportedRow(env: Env, a: nat, d: Dataset): Row
    requires Usable(d)
  {
    Row(a, Cpu(d), [TotalsHash(env, a, 0), HashOf(env, d)], 0, [StoredTotals(a, 0), d])
  }

  // Inflation has been issued for the total a.
  function Funded(s: State, a: nat): State {
    s.(totalCpu := a, utility := 3, token := Issued(), issued := s.issued + 3, inflationDone := true)
  }

  lemma DeclareIs(env: Env, s: State, source: Name, cpu: nat, net: nat)
    requires s.active && s.periodStart == 0 && source !in s.rows && net < TWO_TO_64
    ensures var h := TotalsHash(env, cpu, net);
            var s1 := s.(datasets := if h in s.datasets then s.datasets else s.datasets[h := StoredTotals(cpu, net)],
                         rows := s.rows[source := DeclaredRow(env, cpu, net)], oracles := s.oracles + [source]);
            Act(env, s, Declare(source, cpu, net)) == IssueIfAgreed(s1, TERMS)
  {
    hide IssueIfAgreed, TotalsText;
  }

  lemma ReportIs(env: Env, s: State, source: Name, a: nat, d: Dataset)
    requires s.active && s.periodStart == 0 && s.inflationDone && |d| <= s.batchSize && Usable(d) && Cpu(d) <= a
    requires source in s.rows && s.rows[source] == DeclaredRow(env, a, 0)
    ensures var h := HashOf(env, d);
            var s1 := s.(datasets := if h in s.datasets then s.datasets else s.datasets[h := d],
                         rows := s.rows[source := ReportedRow(env, a, d)]);
            Act(env, s, Report(source, d)) == PayIfAgreed(s1, 1)
  {
    hide PayIfAgreed, TotalsText, Text, Cpu;
    var t, h := TotalsHash(env, a, 0), HashOf(env, d);
    assert [t] + [h] == [t, h] && [StoredTotals(a, 0)] + [d] == [StoredTotals(a, 0), d];
  }

  // Enough votes for the totals of a: the inflation is issued.
  lemma FundedIs(s: State, a: nat, h: Hash)
    requires s.token == Token.Created(EOSIO, 100) && !s.inflationDone && s.threshold <= |s.oracles|
    requires ModeOf(s.rows, s.oracles, 0, |s.oracles|) == Mode(Some(h), s.threshold)
    requires h in s.datasets && s.datasets[h] == StoredTotals(a, 0)
    ensures IssueIfAgreed(s, TERMS) == Some(Funded(s, a))
  {
    hide ModeOf, Issue;
    IssueThree(s.(totalCpu := a));
  }

  // Enough votes for a dataset number: what is stored is paid.
  lemma PaidIs(s: State, h: Hash)
    requires s.threshold <= |s.oracles| && s.distributed == [] && s.paid == map[] && s.totalCpu != 0
    requires ModeOf(s.rows, s.oracles, 1, |s.oracles|) == Mode(Some(h), s.threshold) && h in s.datasets
    ensures var o := PayIfAgreed(s, 1);
            && o.Some? && o.value.paid == map[1 := Payout(h, Cpu(s.datasets[h]))] && o.value.rows == s.rows
            && o.value.threshold == s.threshold
  {
    hide ModeOf, PayAccounts, Shares;
  }

  lemma ModesOfPair(rows: map<Name, Row>, id: nat, h: Hash)
    requires 1 in rows && 2 in rows && Submitted(rows[1], id, h)
    ensures Submitted(rows[2], id, h) ==> ModeOf(rows, [1, 2], id, 2) == Mode(Some(h), 2)
    ensures |rows[2].hashes| <= id ==> ModeOf(rows, [1, 2], id, 2) == Mode(Some(h), 1)
  {
    hide Count;
    CountOfTwo(rows, 1, 2, id, h);
    assert ModeOf(rows, [1, 2], id, 0) == Mode(None, 0);
    assert ModeOf(rows, [1, 2], id, 1) == Better(Mode(None, 0), h, Count(rows, [1, 2], id, h) % COUNTER);
  }

  lemma RunOfFive(env: Env, s: State, a0: Action, a1: Action, a2: Action, a3: Action, a4: Action,
                  s1: State, s2: State, s3: State, s4: State, s5: State)
    requires Act(env, s, a0) == Some(s1) && Act(env, s1, a1) == Some(s2) && Act(env, s2, a2) == Some(s3)
    requires Act(env, s3, a3) == Some(s4) && Act(env, s4, a4) == Some(s5)
    requires Ordinary(a0) && Ordinary(a1) && Ordinary(a2) && Ordinary(a3) && Ordinary(a4)
    ensures IsRun(env, s, [a0, a1, a2, a3, a4], s5)
  {
    hide Act;
    assert [a0, a1, a2, a3, a4][1..] == [a1, a2, a3, a4] && [a1, a2, a3, a4][1..] == [a2, a3, a4];
    assert [a2, a3, a4][1..] == [a3, a4] && [a3, a4][1..] == [a4] && [a4][1..] == [];
    assert IsRun(env, s5, [], s5);
    assert IsRun(env, s4, [a4], s5);
    assert IsRun(env, s3, [a3, a4], s5);
    assert IsRun(env, s2, [a2, a3, a4], s5);
    assert IsRun(env, s1, [a1, a2, a3, a4], s5);
  }

  // The table after both oracles have declared a.
  function PairDeclared(env: Env, batchSize: nat, a: nat): State {
    var row := DeclaredRow(env, a, 0);
    Funded(Begun(2, batchSize).(datasets := map[TotalsHash(env, a, 0) := StoredTotals(a, 0)], rows := map[1 := row, 2 := row],
                                oracles := [1, 2]), a)
  }

  lemma PairDeclares(env: Env, batchSize: nat, a: nat) returns (s: State)
    ensures Act(env, Begun(2, batchSize), Declare(1, a, 0)) == Some(s)
    ensures Act(env, s, Declare(2, a, 0)) == Some(PairDeclared(env, batchSize, a))
  {
    hide ModeOf, TotalsText, Count;
    var s0, h, row := Begun(2, batchSize), TotalsHash(env, a, 0), DeclaredRow(env, a, 0);
    DeclareIs(env, s0, 1, a, 0);
    s := s0.(datasets := map[h := StoredTotals(a, 0)], rows := map[1 := row], oracles := [1]);
    assert [] + [1] == [1];
    DeclareIs(env, s, 2, a, 0);
    var s1 := s.(rows := map[1 := row, 2 := row], oracles := [1, 2]);
    assert [1] + [2] == [1, 2] && s.rows[2 := row] == s1.rows;
    ModesOfPair(s1.rows, 0, h);
    FundedIs(s1, a, h);
  }

  /** Two datasets share a hash: one oracle reports the larger, one the smaller, and the larger is
      paid. */
  lemma PairReports(env: Env, batchSize: nat, a: nat, d: Dataset, e: Dataset) returns (s: State, s': State)
    requires Usable(d) && Usable(e) && HashOf(env, d) == HashOf(env, e) && |d| <= batchSize && |e| <= batchSize
    requires Cpu(d) <= a && Cpu(e) <= a && 0 < a
    ensures Act(env, PairDeclared(env, batchSize, a), Report(1, d)) == Some(s) && Act(env, s, Report(2, e)) == Some(s')
    ensures s'.threshold == 2 && s'.rows == map[1 := ReportedRow(env, a, d), 2 := ReportedRow(env, a, e)]
    ensures var cpu := if HashOf(env, d) == TotalsHash(env, a, 0) then Cpu(StoredTotals(a, 0)) else Cpu(d);
            s'.paid == map[1 := Payout(HashOf(env, d), cpu)]
  {
    hide ModeOf, TotalsText, Count, Text, Cpu, HashOf;
    var s0, h, t := PairDeclared(env, batchSize, a), HashOf(env, d), TotalsHash(env, a, 0);
    ReportIs(env, s0, 1, a, d);
    s := s0.(datasets := if h in s0.datasets then s0.datasets else s0.datasets[h := d], rows := s0.rows[1 := ReportedRow(env, a, d)]);
    ModesOfPair(s.rows, 1, h);
    assert PayIfAgreed(s, 1) == Some(s);
    ReportIs(env, s, 2, a, e);
    var s1 := s.(rows := map[1 := ReportedRow(env, a, d), 2 := ReportedRow(env, a, e)]);
    assert s.rows[2 := ReportedRow(env, a, e)] == s1.rows;
    ModesOfPair(s1.rows, 1, h);
    PaidIs(s1, h);
    s' := PayIfAgreed(s1, 1).value;
  }

  lemma BeginIs(env: Env, threshold: nat, batchSize: nat)
    ensures Act(env, Fresh(threshold, batchSize, 0, 1, Token.Created(EOSIO, 100)), Activate(true)) == Some(Begun(threshold, batchSize))
  {
  }

  // A run from a fresh state in which more is paid for than was used up.
  ghost predicate CountsTwice(env: Env, threshold: nat, batchSize: nat, acts: seq<Action>, s: State) {
    && IsRun(env, Fresh(threshold, batchSize, 0, 1, Token.Created(EOSIO, 100)), acts, s)
    && SumInt(Spent(s.rows)) < s.threshold * SumInt(PaidCpu(s.paid))
  }

  lemma SumOfOne(m: map<int, int>, k: int)
    requires m.Keys == {k}
    ensures SumInt(m) == m[k]
  {
    hide SumInt;
    IntRemove(m, k);
    IntZero(m - {k});
  }

  lemma SumOfPair(m: map<Name, int>, a: Name, b: Name)
    requires m.Keys == {a, b} && a != b
    ensures SumInt(m) == m[a] + m[b]
  {
    hide SumInt;
    IntRemove(m, a);
    assert (m - {a}).Keys == {b};
    IntRemove(m - {a}, b);
    IntZero(m - {a} - {b});
  }

  lemma DatasetsCountTwice(env: Env, d: Dataset, e: Dataset) returns (batchSize: nat, acts: seq<Action>, s: State)
    requires Usable(d) && Usable(e) && HashOf(env, d) == HashOf(env, e) && Cpu(e) < Cpu(d)
    ensures CountsTwice(env, 2, batchSize, acts, s)
  {
    hide SumInt, Act, Text, TotalsText, HashOf, IsRun, Begun, PairDeclared;
    batchSize := |d| + |e|;
    CpuNonNegative(e);
    var a: nat := Cpu(d);
    CpuOfPair(StoredTotals(a, 0));
    BeginIs(env, 2, batchSize);
    var s2 := PairDeclares(env, batchSize, a);
    var s4, s5 := PairReports(env, batchSize, a, d, e);
    s := s5;
    acts := [Activate(true), Declare(1, a, 0), Declare(2, a, 0), Report(1, d), Report(2, e)];
    RunOfFive(env, Fresh(2, batchSize, 0, 1, Token.Created(EOSIO, 100)), Activate(true), Declare(1, a, 0), Declare(2, a, 0),
              Report(1, d), Report(2, e), Begun(2, batchSize), s2, PairDeclared(env, batchSize, a), s4, s5);
    SumOfOne(PaidCpu(s.paid), 1);
    SumOfPair(Spent(s.rows), 1, 2);
  }

  // ----- a run for totals that collide with a dataset

  lemma ModeOfLone(rows: map<Name, Row>, h: Hash)
    requires 1 in rows && Submitted(rows[1], 0, h)
    ensures ModeOf(rows, [1], 0, 1) == Mode(Some(h), 1)
  {
    hide Count;
    CountOfSingle(rows, h);
    assert ModeOf(rows, [1], 0, 0) == Mode(None, 0);
    assert ModeOf(rows, [1], 0, 1) == Better(Mode(None, 0), h, Count(rows, [1], 0, h) % COUNTER);
  }

  lemma CountOfSingle(rows: map<Name, Row>, h: Hash)
    ensures Count(rows, [1], 0, h) == One(rows, 1, 0, h)
  {
    assert [1][1..] == [];
    assert Count(rows, [], 0, h) == 0;
  }

  // Oracle 1 has declared a, and oracle 2 the totals that collide.
  function LoneDeclared(env: Env, batchSize: nat, a: nat, cpu: nat, net: nat): State {
    var t, h := TotalsHash(env, a, 0), TotalsHash(env, cpu, net);
    Funded(Begun(1, batchSize).(
             datasets := if h == t then map[t := StoredTotals(a, 0)] else map[t := StoredTotals(a, 0), h := StoredTotals(cpu, net)],
             rows := map[1 := DeclaredRow(env, a, 0), 2 := DeclaredRow(env, cpu, net)],
             oracles := [1, 2]), a)
  }

  lemma LoneDeclares(env: Env, batchSize: nat, a: nat, cpu: nat, net: nat) returns (s: State)
    requires net < TWO_TO_64
    ensures Act(env, Begun(1, batchSize), Declare(1, a, 0)) == Some(s)
    ensures Act(env, s, Declare(2, cpu, net)) == Some(LoneDeclared(env, batchSize, a, cpu, net))
  {
    hide ModeOf, TotalsText, Count;
    var s0, t, h := Begun(1, batchSize), TotalsHash(env, a, 0), TotalsHash(env, cpu, net);
    DeclareIs(env, s0, 1, a, 0);
    var s1 := s0.(datasets := map[t := StoredTotals(a, 0)], rows := map[1 := DeclaredRow(env, a, 0)], oracles := [1]);
    assert [] + [1] == [1];
    ModeOfLone(s1.rows, t);
    FundedIs(s1, a, t);
    s := Funded(s1, a);
    DeclareIs(env, s, 2, cpu, net);
    assert [1] + [2] == [1, 2];
    assert s.rows[2 := DeclaredRow(env, cpu, net)] == LoneDeclared(env, batchSize, a, cpu, net).rows;
    assert h != t ==> s.datasets[h := StoredTotals(cpu, net)] == LoneDeclared(env, batchSize, a, cpu, net).datasets;
  }

  lemma LoneReports(env: Env, batchSize: nat, a: nat, cpu: nat, net: nat, d: Dataset) returns (s: State)
    requires Usable(d) && HashOf(env, d) == TotalsHash(env, cpu, net) && |d| <= batchSize && Cpu(d) <= a && 0 < a
    ensures Act(env, LoneDeclared(env, batchSize, a, cpu, net), Report(1, d)) == Some(s)
    ensures s.threshold == 1 && s.rows == map[1 := ReportedRow(env, a, d), 2 := DeclaredRow(env, cpu, net)]
    ensures var paid := if HashOf(env, d) == TotalsHash(env, a, 0) then Cpu(StoredTotals(a, 0)) else Cpu(StoredTotals(cpu, net));
            s.paid == map[1 := Payout(HashOf(env, d), paid)]
  {
    hide ModeOf, TotalsText, Count, Text, Cpu, HashOf;
    var s0 := LoneDeclared(env, batchSize, a, cpu, net);
    ReportIs(env, s0, 1, a, d);
    var s1 := s0.(rows := map[1 := ReportedRow(env, a, d), 2 := DeclaredRow(env, cpu, net)]);
    assert s0.rows[1 := ReportedRow(env, a, d)] == s1.rows;
    ModesOfPair(s1.rows, 1, HashOf(env, d));
    PaidIs(s1, HashOf(env, d));
    s := PayIfAgreed(s1, 1).value;
  }

  lemma RunOfFour(env: Env, s: State, a0: Action, a1: Action, a2: Action, a3: Action,
                  s1: State, s2: State, s3: State, s4: State)
    requires Act(env, s, a0) == Some(s1) && Act(env, s1, a1) == Some(s2) && Act(env, s2, a2) == Some(s3)
    requires Act(env, s3, a3) == Some(s4)
    requires Ordinary(a0) && Ordinary(a1) && Ordinary(a2) && Ordinary(a3)
    ensures IsRun(env, s, [a0, a1, a2, a3], s4)
  {
    hide Act;
    assert [a0, a1, a2, a3][1..] == [a1, a2, a3] && [a1, a2, a3][1..] == [a2, a3];
    assert [a2, a3][1..] == [a3] && [a3][1..] == [];
    assert IsRun(env, s4, [], s4);
    assert IsRun(env, s3, [a3], s4);
    assert IsRun(env, s2, [a2, a3], s4);
    assert IsRun(env, s1, [a1, a2, a3], s4);
  }

  lemma TotalsCountTwice(env: Env, cpu: nat, net: nat, d: Dataset) returns (batchSize: nat, acts: seq<Action>, s: State)
    requires Usable(d) && HashOf(env, d) == TotalsHash(env, cpu, net) && net < TWO_TO_64 && Cpu(d) < cpu + net
    ensures CountsTwice(env, 1, batchSize, acts, s)
  {
    hide SumInt, Act, Text, TotalsText, HashOf, IsRun, Begun, LoneDeclared;
    batchSize := |d|;
    CpuNonNegative(d);
    var a: nat := Cpu(d) + 1;
    CpuOfPair(StoredTotals(a, 0));
    CpuOfPair(StoredTotals(cpu, net));
    BeginIs(env, 1, batchSize);
    var s2 := LoneDeclares(env, batchSize, a, cpu, net);
    s := LoneReports(env, batchSize, a, cpu, net, d);
    acts := [Activate(true), Declare(1, a, 0), Declare(2, cpu, net), Report(1, d)];
    RunOfFour(env, Fresh(1, batchSize, 0, 1, Token.Created(EOSIO, 100)), Activate(true), Declare(1, a, 0), Declare(2, cpu, net),
              Report(1, d), Begun(1, batchSize), s2, LoneDeclared(env, batchSize, a, cpu, net), s);
    SumOfOne(PaidCpu(s.paid), 1);
    SumOfPair(Spent(s.rows), 1, 2);
  }

  // ----- both directions

  // No run counts twice.
  ghost predicate CountsOnce(env: Env) {
    forall threshold: nat, batchSize: nat, start: int, seconds: nat, token: Token.State, acts: seq<Action>, s: State |
      && Token.Inv(token) && token.issuer == EOSIO
      && IsRun(env, Fresh(threshold, batchSize, start, seconds, token), acts, s) ::
      s.threshold * SumInt(PaidCpu(s.paid)) <= SumInt(Spent(s.rows))
  }

  lemma OneRunIsEnough(env: Env, threshold: nat, batchSize: nat, acts: seq<Action>, s: State)
    requires CountsTwice(env, threshold, batchSize, acts, s)
    ensures !CountsOnce(env)
  {
    hide SumInt, IsRun;
    CreatedInv();
  }

  lemma CreatedInv()
    ensures Token.Inv(Token.Created(EOSIO, 100)) && Token.Created(EOSIO, 100).issuer == EOSIO
  {
  }

  /** In every run the CPU paid for, threshold times over, is within what the oracles used up, if and
      only if hashes tell the CPU: no two datasets of different CPU share a hash, and no totals share
      one with a dataset of less CPU. */
  lemma CountsOnceExactly(env: Env)
    ensures CountsOnce(env) <==> TextsTell(env) && TotalsTell(env)
  {
    hide SumInt, IsRun, Text, TotalsText, CountsTwice, Cpu;
    if TextsTell(env) && TotalsTell(env) {
      forall threshold: nat, batchSize: nat, start: int, seconds: nat, token: Token.State, acts: seq<Action>, s: State |
        && Token.Inv(token) && token.issuer == EOSIO
        && IsRun(env, Fresh(threshold, batchSize, start, seconds, token), acts, s)
        ensures s.threshold * SumInt(PaidCpu(s.paid)) <= SumInt(Spent(s.rows))
      {
        TellingHashesCountOnce(env, threshold, batchSize, start, seconds, token, acts, s);
      }
    } else if !TextsTell(env) {
      var d, e :| Usable(d) && Usable(e) && HashOf(env, d) == HashOf(env, e) && Cpu(d) != Cpu(e);
      if Cpu(d) < Cpu(e) { d, e := e, d; }
      var batchSize, acts, s := DatasetsCountTwice(env, d, e);
      OneRunIsEnough(env, 2, batchSize, acts, s);
    } else {
      var cpu: nat, net: nat, d: Dataset :|
        net < TWO_TO_64 && Usable(d) && env.sha(TotalsText(cpu, net)) == HashOf(env, d) && !(cpu + net <= Cpu(d));
      var batchSize, acts, s := TotalsCountTwice(env, cpu, net, d);
      OneRunIsEnough(env, 1, batchSize, acts, s);
    }
  }
}
