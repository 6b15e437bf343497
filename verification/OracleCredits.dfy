/** What accounts are credited within one period, and how far that can go. */
module OracleCredits {
  import opened Common
  import opened Sums
  import Token
  import opened Oracle
  import opened OracleCounting
  import opened OracleMachine

  // A dataset as settotalusg stores it.
  predicate TotalsData(d: Dataset) {
    d != [] && 0 <= d[0].cpu
  }

  /** What was credited in this period is covered by the utility tokens in proportion to the CPU
      paid for; before inflation is issued nothing is, and only totals are stored. */
  ghost predicate CreditsOk(s: State) {
    && 0 <= s.utility && 0 <= s.totalCpu
    && s.totalCpu * s.credited <= s.utility * SumInt(PaidCpu(s.paid))
    && (!s.inflationDone ==> s.credited == 0 && s.paid == map[] && forall h | h in s.datasets :: TotalsData(s.datasets[h]))
  }

  /** What the accounts' balances gain by a payout is what the record counts. */
  lemma DistributeCredits(s: State, id: int, m: Mode)
    requires CreditsOk(s) && Distribute(s, id, m).Some? && id !in s.paid && s.inflationDone
    ensures var s' := Distribute(s, id, m).value;
            && SumInt(s'.accountPay) - SumInt(s.accountPay) == s'.credited - s.credited
            && CreditsOk(s')
  {
    hide SumInt, Cpu, Shares, PayAccounts, PaidCpu;
    var s' := Distribute(s, id, m).value;
    var d := if m.hash.Some? && m.hash.value in s.datasets then s.datasets[m.hash.value] else [];
    PaidOneMore(s.paid, id, s'.paid[id]);
    if d == [] {
      CpuOfNothing();
    } else {
      PayoutBound(s.accountPay, d, s.totalCpu, s.utility);
      MoreCredited(s.totalCpu, s.credited, Shares(d, s.totalCpu, s.utility), s.utility, SumInt(PaidCpu(s.paid)), Cpu(d));
    }
  }

  lemma MoreCredited(total: int, credited: int, more: int, utility: int, paid: int, cpu: int)
    requires total * credited <= utility * paid && total * more <= utility * cpu
    ensures total * (credited + more) <= utility * (paid + cpu)
  {
    assert total * (credited + more) == total * credited + total * more;
    assert utility * (paid + cpu) == utility * paid + utility * cpu;
  }

  lemma NothingPaid(s: State)
    requires s.paid == map[] && s.credited == 0
    ensures s.totalCpu * s.credited <= s.utility * SumInt(PaidCpu(s.paid))
  {
    hide SumInt;
    IntZero(PaidCpu(s.paid));
  }

  // The fields that matter here.
  predicate SameCredits(s: State, s': State) {
    && s'.utility == s.utility && s'.totalCpu == s.totalCpu && s'.credited == s.credited && s'.paid == s.paid
    && s'.inflationDone == s.inflationDone && s'.datasets == s.datasets
  }

  lemma CreditsElsewhere(s: State, s': State)
    requires CreditsOk(s) && SameCredits(s, s')
    ensures CreditsOk(s')
  {
    hide SumInt;
  }

  lemma TotalsCredits(env: Env, s: State, source: Name, cpu: nat, net: nat, commitment: Hash, i: Inflation,
                      names: (Name, Name))
    requires CreditsOk(s) && TokensOk(s) && PayoutsOk(s)
    ensures var s1 := WithTotals(env, s, source, cpu, net, commitment, names);
            IssueIfAgreed(s1, i).Some? ==> CreditsOk(IssueIfAgreed(s1, i).value)
  {
    hide SumInt, Issue, ModeOf, Token.Inv, Credits, PaidCpu, TotalsText;
    var s1 := WithTotals(env, s, source, cpu, net, commitment, names);
    assert CreditsOk(s1);
    var m := ModeOf(s1.rows, s1.oracles, 0, |s1.oracles|);
    var o := IssueIfAgreed(s1, i);
    if o.Some? && !s1.inflationDone && o.value.inflationDone {
      var s2 := s1.(totalCpu := s1.datasets[m.hash.value][0].cpu);
      assert TotalsData(s1.datasets[m.hash.value]);
      TokensElsewhere(s, s2);
      IssueKeeps(s2, i);
      NothingPaid(o.value);
    }
  }

  lemma UsageCredits(env: Env, s: State, source: Name, id: int, d: Dataset)
    requires CreditsOk(s) && PayoutsOk(s) && s.inflationDone && source in s.rows && Allocatable(s.rows[source], d)
    ensures var o := PayIfAgreed(WithUsage(env, s, source, d), id);
            o.Some? ==> CreditsOk(o.value)
  {
    hide SumInt, ModeOf, PaidCpu, Credits, Text, Cpu, Distribute;
    var s1 := WithUsage(env, s, source, d);
    assert CreditsOk(s1);
    var m := ModeOf(s1.rows, s1.oracles, id, |s1.oracles|);
    if PayIfAgreed(s1, id).Some? && id !in s1.distributed && s1.threshold <= m.count && s1.threshold <= |s1.oracles| {
      DistributeCredits(s1, id, m);
    }
  }

  lemma NextCredits(env: Env, s: State, a: Action)
    requires Inv(s) && CreditsOk(s)
    ensures CreditsOk(Next(env, s, a))
  {
    hide CreditsOk, RowsOk, PayoutsOk, Settled, TokensOk, IssueIfAgreed, PayIfAgreed, WithTotals, WithUsage, SumInt,
         FullReveals, Token.Act, Limits, Allocatable;
    var s' := Next(env, s, a);
    match a
    case Totals(source, isOracle, cpu, net, maxCpu, maxNet, commitment, start, i, names) =>
      if s' != s { TotalsActed(env, s, a); TotalsCredits(env, s, source, cpu, net, commitment, i, names); }
    case Usage(source, isOracle, id, d, start) =>
      if s' != s { UsageCredits(env, s, source, id, d); }
    case Advance(now) => if s' != s { AdvanceCredits(env, s, now); }
    case ClaimShare(account) => CreditsElsewhere(s, s');
    case ClaimPay(owner) => CreditsElsewhere(s, s');
    case Activate(active) => CreditsElsewhere(s, s');
    case TokenAction(ta) => CreditsElsewhere(s, s');
  }

  lemma TotalsActed(env: Env, s: State, a: Action)
    requires a.Totals? && Next(env, s, a) != s
    ensures 0 <= a.cpu && 0 <= a.net
  {
    hide IssueIfAgreed, WithTotals;
  }

  lemma AdvanceCredits(env: Env, s: State, now: int)
    requires CreditsOk(s)
    ensures NextPeriod(env, s, now).Some? ==> CreditsOk(NextPeriod(env, s, now).value)
  {
    hide SumInt, FullReveals;
    if NextPeriod(env, s, now).Some? { NothingPaid(NextPeriod(env, s, now).value); }
  }

  lemma {:induction false} RunCredits(env: Env, s: State, acts: seq<Action>, s': State)
    requires Inv(s) && CreditsOk(s) && IsRun(env, s, acts, s')
    ensures Inv(s') && CreditsOk(s')
    decreases |acts|
  {
    hide Inv, CreditsOk, Next;
    if acts != [] {
      NextKeeps(env, s, acts[0]);
      NextCredits(env, s, acts[0]);
      RunCredits(env, Next(env, s, acts[0]), acts[1..], s');
    }
  }

  lemma FreshCredits(threshold: nat, batchSize: nat, start: int, seconds: nat, token: Token.State)
    ensures CreditsOk(Fresh(threshold, batchSize, start, seconds, token))
  {
    hide SumInt;
    NothingPaid(Fresh(threshold, batchSize, start, seconds, token));
  }

  lemma Chained(threshold: nat, total: int, credited: int, utility: int, paid: int, declared: int)
    requires total * credited <= utility * paid && threshold * paid <= declared && 0 <= utility
    ensures threshold * (total * credited) <= utility * declared
  {
    assert threshold * (total * credited) <= threshold * (utility * paid);
    assert threshold * (utility * paid) == utility * (threshold * paid);
    assert utility * (threshold * paid) <= utility * declared;
  }

  lemma Covered(threshold: nat, total: int, credited: int, utility: int, declared: int)
    requires threshold * (total * credited) <= utility * declared && 0 <= utility
    ensures 0 < threshold * total && declared <= threshold * total ==> credited <= utility
  {
    var k := threshold * total;
    if 0 < k && declared <= k {
      assert utility * declared <= utility * k;
      assert threshold * (total * credited) == k * credited;
      SmallerFactor(k, credited, utility);
    }
  }

  lemma SmallerFactor(k: int, x: int, y: int)
    requires 0 < k && k * x <= y * k
    ensures x <= y
  {
    assert k * (y - x) == y * k - k * x;
  }

  /** In no period are accounts credited with more than the utility tokens in proportion to the CPU
      declared, shared by threshold: at the end of every run, if hashes identify datasets,
      threshold * totalCpu * credited <= utility * declared.  So if the oracles declared no more in
      all than threshold times the agreed total, the utility tokens cover all credits. */
  lemma CreditsOfEveryRun(env: Env, threshold: nat, batchSize: nat, start: int, seconds: nat, token: Token.State,
                          acts: seq<Action>, s: State)
    requires Token.Inv(token) && token.issuer == EOSIO
    requires IsRun(env, Fresh(threshold, batchSize, start, seconds, token), acts, s) && Faithful(s)
    ensures s.threshold * (s.totalCpu * s.credited) <= s.utility * SumInt(Declared(s.rows))
    ensures 0 < s.threshold * s.totalCpu && SumInt(Declared(s.rows)) <= s.threshold * s.totalCpu ==> s.credited <= s.utility
  {
    hide SumInt, RowsOk, Settled, TokensOk, Faithful, IsRun, PayoutsOk, PaidCpu, Declared;
    FreshInv(threshold, batchSize, start, seconds, token);
    FreshCredits(threshold, batchSize, start, seconds, token);
    RunCredits(env, Fresh(threshold, batchSize, start, seconds, token), acts, s);
    NoDoubleCounting(s);
    Chained(s.threshold, s.totalCpu, s.credited, s.utility, SumInt(PaidCpu(s.paid)), SumInt(Declared(s.rows)));
    Covered(s.threshold, s.totalCpu, s.credited, s.utility, SumInt(Declared(s.rows)));
  }
}
