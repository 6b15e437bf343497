/** Safety of the oracle protocol over whole runs: no double counting, one issue per period, one
    payout per dataset, and a gate that opens only after everything agreed on was paid. */
module OracleMachine {
  import opened Common
  import opened Sums
  import Token
  import opened Oracle
  import opened OracleCounting

  // ----- the invariant

  ghost predicate RowOk(r: Row, datasets: map<Hash, Dataset>) {
    && 1 <= |r.hashes| == |r.data|
    && 0 <= r.spent <= r.total && r.spent == CpuAfter(r.data)
    && (forall i | 0 <= i < |r.hashes| :: r.hashes[i] in datasets)
    && (forall i | 0 <= i < |r.data| :: 0 <= Cpu(r.data[i]))
  }

  // Every submitting oracle has one row, and every row's hashes are known.
  ghost predicate RowsOk(s: State) {
    && Distinct(s.oracles)
    && (forall n :: n in s.rows <==> n in s.oracles)
    && (forall n | n in s.rows :: RowOk(s.rows[n], s.datasets))
    && (forall h | h in s.datasets :: 0 <= Cpu(s.datasets[h]))
  }

  /** Each dataset number is paid at most once, only after inflation was issued, and the CPU paid
      for, threshold times over, is credited to oracles that submitted it. */
  ghost predicate PayoutsOk(s: State) {
    && (forall id :: id in s.paid <==> id in s.distributed)
    && (forall i, j | 0 <= i < j < |s.distributed| :: s.distributed[i] != s.distributed[j])
    && (forall id | id in s.paid ::
          && 1 <= id && 0 <= s.paid[id].cpu
          && (if s.paid[id].hash in s.datasets then s.paid[id].cpu <= Cpu(s.datasets[s.paid[id].hash]) else s.paid[id].cpu == 0))
    && (s.paid != map[] ==> s.inflationDone)
    && s.threshold * SumInt(PaidCpu(s.paid)) <= SumInt(Credits(s.paid, s.rows))
  }

  // What enough oracles agreed on has been issued or paid.
  ghost predicate Settled(s: State) {
    1 <= s.threshold < COUNTER ==>
      && (forall h | s.threshold <= Count(s.rows, s.oracles, 0, h) :: s.inflationDone)
      && forall id, h | 1 <= id && s.threshold <= Count(s.rows, s.oracles, id, h) :: id in s.distributed
  }

  /** The tokens issued are at most the cap once for each period, and the pay account covers what
      producers are owed. */
  ghost predicate TokensOk(s: State) {
    && Token.Inv(s.token)
    && (forall p | p in s.producerPay :: 0 <= s.producerPay[p])
    && s.token.issuer == EOSIO
    && SumInt(s.producerPay) <= Token.BalanceOf(s.token.balances, EOSIO_BPAY)
    && s.issued <= INFLATION_CAP * (s.advances + if s.inflationDone then 1 else 0)
  }

  ghost predicate Inv(s: State) {
    RowsOk(s) && PayoutsOk(s) && Settled(s) && TokensOk(s)
  }

  // ----- inflation

  lemma CutBounds(bppay: nat, utility: nat, remaining: nat)
    ensures var (b, u) := Cut(bppay, utility, remaining);
            0 <= b && 0 <= u && b + u == (if remaining < bppay + utility then remaining else bppay + utility)
  {
    if remaining < bppay + utility {
      var all := bppay + utility;
      assert bppay * remaining <= all * remaining;
      QuotientAtMost(bppay * remaining, all, remaining);
    }
  }

  lemma QuotientAtMost(x: nat, d: nat, q: nat)
    requires 0 < d && x <= d * q
    ensures x / d <= q
  {
    assert x / d * d <= x;
    assert (q - x / d) * d == q * d - x / d * d;
  }

  lemma {:induction false} AddPaySums(pay: map<Name, int>, names: seq<Name>, amount: int)
    requires 0 <= amount && forall p | p in pay :: 0 <= pay[p]
    ensures SumInt(AddPay(pay, names, amount)) == SumInt(pay) + |names| * amount
    ensures forall p | p in AddPay(pay, names, amount) :: 0 <= AddPay(pay, names, amount)[p]
    decreases |names|
  {
    hide SumInt;
    if names != [] {
      var pay1 := pay[names[0] := (if names[0] in pay then pay[names[0]] else 0) + amount];
      IntChange(pay, pay1, names[0]);
      AddPaySums(pay1, names[1..], amount);
      assert |names| * amount == amount + |names[1..]| * amount;
    }
  }

  lemma SendMoves(t: Token.State, to: Name, q: int)
    requires Token.Inv(t)
    ensures Send(t, to, q).Some? ==>
              var t' := Send(t, to, q).value;
              && Token.Inv(t') && t'.supply == t.supply && t'.maxSupply == t.maxSupply && t'.issuer == t.issuer
              && forall a | a != EOSIO :: Token.BalanceOf(t'.balances, a)
                                       == Token.BalanceOf(t.balances, a) + if a == to && 0 < q then q else 0
  {
    hide SumInt;
    if 0 < q {
      Token.TransferMoves(t.balances, EOSIO, to, q);
      Token.NextKeeps(t, Token.Pay(EOSIO, to, q));
    }
  }

  lemma IssueTokens(t: Token.State, q: int)
    requires Token.Inv(t) && Token.Act(t, Token.Issue(EOSIO, q)).Some?
    ensures var t' := Token.Act(t, Token.Issue(EOSIO, q)).value;
            && Token.Inv(t') && t'.supply == t.supply + q && t'.issuer == t.issuer
            && forall a | a != EOSIO :: Token.BalanceOf(t'.balances, a) == Token.BalanceOf(t.balances, a)
  {
    hide SumInt;
    Token.NextKeeps(t, Token.Issue(EOSIO, q));
  }

  // The amounts one issue creates.
  function Created(s: State, i: Inflation): (int, int)
    requires s.token.supply <= s.token.maxSupply
  {
    Cut(i.bppay, i.utility, s.token.maxSupply - s.token.supply)
  }

  /** One issue creates at most the cap, never more than the supply allows, and what it credits to
      producers is covered by what it pays to their account. */
  lemma IssueKeeps(s: State, i: Inflation)
    requires TokensOk(s)
    ensures Issue(s, i).Some? ==>
              var s' := Issue(s, i).value;
              && Token.Inv(s'.token)
              && (forall p | p in s'.producerPay :: 0 <= s'.producerPay[p])
              && SumInt(s'.producerPay) <= Token.BalanceOf(s'.token.balances, EOSIO_BPAY)
              && 0 <= s'.issued - s.issued <= INFLATION_CAP && 0 <= s'.utility && s'.token.issuer == EOSIO
              && s' == s.(token := s'.token, utility := s'.utility, issued := s'.issued, producerPay := s'.producerPay)
  {
    hide SumInt, Token.Act, Send, Cut, AddPay;
    if Issue(s, i).Some? {
      CutBounds(i.bppay, i.utility, s.token.maxSupply - s.token.supply);
      var (bppay, utility) := Created(s, i);
      var t0 := s.token;
      if bppay + utility != 0 {
        IssueTokens(s.token, bppay + utility);
        t0 := Token.Act(s.token, Token.Issue(EOSIO, bppay + utility)).value;
      }
      SendMoves(t0, EOSIO_BPAY, bppay);
      SendMoves(Send(t0, EOSIO_BPAY, bppay).value, EOSIO_UPAY, utility);
      var n := |i.producers|;
      EarnedFits(bppay, n);
      AddPaySums(s.producerPay, i.producers, bppay / n);
    }
  }

  lemma EarnedFits(bppay: int, n: nat)
    requires 0 <= bppay && 0 < n
    ensures 0 <= bppay / n && n * (bppay / n) <= bppay
  {
  }

  // ----- submitting

  lemma CpuAfterAppend(data: seq<Dataset>, d: Dataset)
    requires 1 <= |data|
    ensures CpuAfter(data + [d]) == CpuAfter(data) + Cpu(d)
  {
    assert (data + [d])[..|data|] == data;
  }

  // Adding an oracle with its totals changes only the counts for item 0.
  lemma TotalsCounts(s: State, source: Name, r: Row, id: int, h: Hash)
    requires RowsOk(s) && source !in s.rows && |r.hashes| == 1
    ensures Count(s.rows[source := r], s.oracles + [source], id, h)
         == Count(s.rows, s.oracles, id, h) + if Submitted(r, id, h) then 1 else 0
  {
    CountAppend(s.rows[source := r], s.oracles, source, id, h);
    CountSame(s.rows, s.rows[source := r], s.oracles, id, h);
  }

  // Adding a dataset changes only the count for its number and hash.
  lemma UsageCounts(s: State, source: Name, r: Row, n: Hash, id: int, h: Hash)
    requires RowsOk(s) && source in s.rows && r.hashes == s.rows[source].hashes + [n]
    ensures Count(s.rows[source := r], s.oracles, id, h)
         == Count(s.rows, s.oracles, id, h) + if id == |s.rows[source].hashes| && h == n then 1 else 0
  {
    if id == |s.rows[source].hashes| && h == n {
      CountOneMore(s.rows, s.rows[source := r], s.oracles, source, id, h);
    } else {
      CountSame(s.rows, s.rows[source := r], s.oracles, id, h);
    }
  }

  lemma DistinctAppend(names: seq<Name>, n: Name)
    requires Distinct(names) && n !in names
    ensures Distinct(names + [n])
  {
  }

  lemma CpuOfTwo(a: Metric, b: Metric)
    ensures Cpu([a, b]) == a.cpu + b.cpu
  {
    assert [a, b][1..] == [b] && [b][1..] == [];
    assert Cpu([b]) == b.cpu + Cpu([]);
  }

  lemma RowsAfterTotals(env: Env, s: State, source: Name, cpu: nat, net: nat, commitment: Hash, names: (Name, Name))
    requires RowsOk(s) && source !in s.rows
    ensures RowsOk(WithTotals(env, s, source, cpu, net, commitment, names))
  {
    var s' := WithTotals(env, s, source, cpu, net, commitment, names);
    DistinctAppend(s.oracles, source);
    var d := [Metric(names.0, cpu), Metric(names.1, net)];
    CpuOfTwo(d[0], d[1]);
    forall n | n in s'.rows
      ensures RowOk(s'.rows[n], s'.datasets)
    {
      if n != source { assert RowOk(s.rows[n], s.datasets); }
    }
  }

  lemma RowGrows(r: Row, known: map<Hash, Dataset>, known': map<Hash, Dataset>, d: Dataset, h: Hash)
    requires RowOk(r, known) && known.Keys <= known'.Keys && h in known' && 0 <= Cpu(d) && r.spent + Cpu(d) <= r.total
    ensures RowOk(r, known')
    ensures RowOk(r.(spent := r.spent + Cpu(d), hashes := r.hashes + [h], data := r.data + [d]), known')
  {
    hide Cpu, CpuAfter;
    CpuAfterAppend(r.data, d);
  }

  lemma RowsAfterUsage(env: Env, s: State, source: Name, d: Dataset)
    requires RowsOk(s) && source in s.rows && Allocatable(s.rows[source], d)
    ensures RowsOk(WithUsage(env, s, source, d))
  {
    hide Text, RowOk, Cpu;
    var s', h := WithUsage(env, s, source, d), env.sha(Text(env, d));
    CpuNonNegative(d);
    RowGrows(s.rows[source], s.datasets, s'.datasets, d, h);
    forall n | n in s.rows && n != source
      ensures RowOk(s'.rows[n], s'.datasets)
    {
      RowKeeps(s.rows[n], s.datasets, s'.datasets);
    }
  }

  lemma RowKeeps(r: Row, known: map<Hash, Dataset>, known': map<Hash, Dataset>)
    requires RowOk(r, known) && known.Keys <= known'.Keys
    ensures RowOk(r, known')
  {
  }

  // New rows and longer rows do not lower the credits.
  lemma CreditsAfterSubmission(paid: map<int, Payout>, rows: Rows, source: Name, r: Row)
    requires forall id | id in paid :: 1 <= id && 0 <= paid[id].cpu
    requires source in rows ==> rows[source].hashes <= r.hashes
    requires source !in rows ==> |r.hashes| == 1
    ensures SumInt(Credits(paid, rows)) <= SumInt(Credits(paid, rows[source := r]))
  {
    hide SumInt;
    var a, b := Credits(paid, rows), Credits(paid, rows[source := r]);
    assert a - {source} == b - {source};
    IntChange(a, b, source);
    if source in rows {
      CreditGrows(paid, rows[source], r);
    } else {
      IntNonNegative(CreditRows(paid, r));
    }
  }

  lemma PayoutsAfterSubmission(s: State, s': State, source: Name)
    requires PayoutsOk(s) && source in s'.rows
    requires s' == s.(rows := s.rows[source := s'.rows[source]], datasets := s'.datasets, oracles := s'.oracles)
    requires source in s.rows ==> s.rows[source].hashes <= s'.rows[source].hashes
    requires source !in s.rows ==> |s'.rows[source].hashes| == 1
    requires forall h | h in s.datasets :: h in s'.datasets && s'.datasets[h] == s.datasets[h]
    requires forall h | h in s'.datasets :: 0 <= Cpu(s'.datasets[h])
    ensures PayoutsOk(s')
  {
    hide SumInt, Cpu, Credits, PaidCpu;
    CreditsAfterSubmission(s.paid, s.rows, source, s'.rows[source]);
  }

  // ----- agreement

  // A hash that has just reached the threshold is seen by the mode, eight bits or not.
  lemma ModeReaches(rows: Rows, names: seq<Name>, id: int, h: Hash, threshold: nat)
    requires 1 <= threshold < COUNTER && Count(rows, names, id, h) == threshold
    ensures var m := ModeOf(rows, names, id, |names|);
            && threshold <= m.count && m.hash.Some? && threshold <= |names|
            && exists j :: 0 <= j < |names| && names[j] in rows && Submitted(rows[names[j]], id, m.hash.value)
  {
    ModeCovers(rows, names, id, h);
    ModeIsBest(rows, names, id, |names|);
    CountAtMost(rows, names, id, h);
  }

  lemma ModeKnown(s: State, id: int)
    requires RowsOk(s)
    ensures var m := ModeOf(s.rows, s.oracles, id, |s.oracles|);
            m.hash.Some? ==> m.hash.value in s.datasets
  {
    ModeIsBest(s.rows, s.oracles, id, |s.oracles|);
    var m := ModeOf(s.rows, s.oracles, id, |s.oracles|);
    if m.hash.Some? {
      var j :| 0 <= j < |s.oracles| && s.oracles[j] in s.rows && Submitted(s.rows[s.oracles[j]], id, m.hash.value);
      assert RowOk(s.rows[s.oracles[j]], s.datasets);
    }
  }

  // Settled, except that one more vote has just come in for item id.
  ghost predicate AlmostSettled(s: State, id: int) {
    1 <= s.threshold < COUNTER ==>
      && (!s.inflationDone ==> forall h :: Count(s.rows, s.oracles, 0, h) <= (if id == 0 then s.threshold else s.threshold - 1))
      && forall n, h | 1 <= n && n !in s.distributed ::
           Count(s.rows, s.oracles, n, h) <= if n == id then s.threshold else s.threshold - 1
  }

  lemma AlmostAfterTotals(s: State, s1: State, source: Name)
    requires Settled(s) && RowsOk(s) && source !in s.rows && source in s1.rows && |s1.rows[source].hashes| == 1
    requires s1 == s.(rows := s.rows[source := s1.rows[source]], datasets := s1.datasets, oracles := s.oracles + [source])
    ensures AlmostSettled(s1, 0)
  {
    hide RowsOk;
    forall id, h
      ensures Count(s1.rows, s1.oracles, id, h) == Count(s.rows, s.oracles, id, h) + if Submitted(s1.rows[source], id, h) then 1 else 0
    {
      TotalsCounts(s, source, s1.rows[source], id, h);
    }
  }

  lemma AlmostAfterUsage(s: State, s1: State, source: Name, n: Hash)
    requires Settled(s) && RowsOk(s) && source in s.rows && source in s1.rows && s1.rows[source].hashes == s.rows[source].hashes + [n]
    requires s1 == s.(rows := s.rows[source := s1.rows[source]], datasets := s1.datasets) && 1 <= |s.rows[source].hashes|
    ensures AlmostSettled(s1, |s.rows[source].hashes|)
  {
    hide RowsOk;
    forall id, h
      ensures Count(s1.rows, s1.oracles, id, h)
           == Count(s.rows, s.oracles, id, h) + if id == |s.rows[source].hashes| && h == n then 1 else 0
    {
      UsageCounts(s, source, s1.rows[source], n, id, h);
    }
  }

  // Whatever has the threshold's votes is issued now.
  lemma IssueSettles(s: State, i: Inflation)
    requires RowsOk(s) && AlmostSettled(s, 0) && IssueIfAgreed(s, i).Some?
    ensures Settled(IssueIfAgreed(s, i).value)
  {
    hide RowsOk, ModeOf, Count, Issue;
    var s' := IssueIfAgreed(s, i).value;
    IssueKeepsVotes(i);
    ModeKnown(s, 0);
    if 1 <= s.threshold < COUNTER && !s'.inflationDone {
      forall h | s.threshold <= Count(s.rows, s.oracles, 0, h)
        ensures false
      {
        ModeReaches(s.rows, s.oracles, 0, h, s.threshold);
      }
    }
  }

  // The two states have the same votes and payouts.
  ghost predicate SameVotes(s: State, s': State) {
    s' == s.(token := s'.token, utility := s'.utility, issued := s'.issued, producerPay := s'.producerPay)
  }

  lemma IssueKeepsVotes(i: Inflation)
    ensures forall s: State :: Issue(s, i).Some? ==> SameVotes(s, Issue(s, i).value)
  {
    hide Token.Act, Send, Cut, AddPay;
  }

  lemma IssueIfAgreedKeeps(s: State, i: Inflation)
    requires TokensOk(s) && PayoutsOk(s)
    ensures IssueIfAgreed(s, i).Some? ==>
              var s' := IssueIfAgreed(s, i).value;
              && TokensOk(s') && PayoutsOk(s')
              && s' == s.(token := s'.token, utility := s'.utility, issued := s'.issued, producerPay := s'.producerPay,
                          totalCpu := s'.totalCpu, inflationDone := s'.inflationDone)
              && (s.inflationDone ==> s' == s) && (!s'.inflationDone ==> s' == s)
              && (s' != s ==> s.threshold <= ModeOf(s.rows, s.oracles, 0, |s.oracles|).count
                              && ModeOf(s.rows, s.oracles, 0, |s.oracles|).hash.Some?)
  {
    hide SumInt, ModeOf, Issue, Token.Inv, Credits, PaidCpu;
    var m := ModeOf(s.rows, s.oracles, 0, |s.oracles|);
    if m.hash.Some? && m.hash.value in s.datasets && s.datasets[m.hash.value] != [] {
      IssueKeeps(s.(totalCpu := s.datasets[m.hash.value][0].cpu), i);
    }
  }

  // How many oracles stand behind the totals that inflation was issued for.
  ghost predicate Agreed(s: State) {
    exists h :: s.threshold <= Count(s.rows, s.oracles, 0, h)
  }

  /** settotalusg: inflation is issued once, on the agreement of at least threshold oracles, and an
      agreement never goes without it. */
  lemma SetTotalsKeeps(env: Env, s: State, source: Name, isOracle: bool, cpu: int, net: int, maxCpu: int, maxNet: int,
                       commitment: Hash, start: int, i: Inflation, names: (Name, Name))
    requires Inv(s)
    ensures var o := SetTotals(env, s, source, isOracle, cpu, net, maxCpu, maxNet, commitment, start, i, names);
            o.Some? ==>
              && Inv(o.value) && o.value.threshold == s.threshold && o.value.advances == s.advances
              && (o.value.issued != s.issued ==> !s.inflationDone && o.value.inflationDone && Agreed(o.value))
  {
    hide SumInt, RowOk, Count, ModeOf, TokensOk, Credits, PaidCpu, IssueIfAgreed;
    var o := SetTotals(env, s, source, isOracle, cpu, net, maxCpu, maxNet, commitment, start, i, names);
    if o.Some? {
      var s1 := WithTotals(env, s, source, cpu, net, commitment, names);
      RowsAfterTotals(env, s, source, cpu, net, commitment, names);
      PayoutsAfterSubmission(s, s1, source);
      AlmostAfterTotals(s, s1, source);
      TokensElsewhere(s, s1);
      IssueIfAgreedKeeps(s1, i);
      IssueSettles(s1, i);
      RowsElsewhere(s1, o.value);
      if o.value != s1 { ModeCovers(s1.rows, s1.oracles, 0, 0); }
    }
  }

  lemma TokensElsewhere(s: State, s': State)
    requires TokensOk(s) && s'.token == s.token && s'.producerPay == s.producerPay && s'.issued == s.issued
    requires s'.advances == s.advances && s'.inflationDone == s.inflationDone
    ensures TokensOk(s')
  {
  }

  lemma RowsElsewhere(s: State, s': State)
    requires RowsOk(s) && s'.rows == s.rows && s'.oracles == s.oracles && s'.datasets == s.datasets
    ensures RowsOk(s')
  {
  }

  // ----- payouts

  lemma DistributeKeeps(s: State, id: int, m: Mode)
    requires PayoutsOk(s) && RowsOk(s) && 1 <= id && id !in s.distributed && s.inflationDone
    requires m == ModeOf(s.rows, s.oracles, id, |s.oracles|) && s.threshold <= m.count
    ensures Distribute(s, id, m).Some? ==> PayoutsOk(Distribute(s, id, m).value)
  {
    hide SumInt, ModeOf, Count, Credits, PaidCpu, RowOk, Cpu;
    var o := Distribute(s, id, m);
    if o.Some? {
      var p := o.value.paid[id];
      ModeCovers(s.rows, s.oracles, id, p.hash);
      PayoutCredits(s.rows, s.oracles, s.paid, id, p);
      PaidOneMore(s.paid, id, p);
      CpuOfNothing();
      EnoughVotes(s.threshold, Count(s.rows, s.oracles, id, p.hash), p.cpu, SumInt(PaidCpu(s.paid)));
    }
  }

  lemma CpuOfNothing()
    ensures Cpu([]) == 0
  {
  }

  lemma PaidOneMore(paid: map<int, Payout>, id: int, p: Payout)
    requires id !in paid
    ensures SumInt(PaidCpu(paid[id := p])) == SumInt(PaidCpu(paid)) + p.cpu
  {
    hide SumInt;
    assert PaidCpu(paid[id := p]) - {id} == PaidCpu(paid) - {id};
    IntChange(PaidCpu(paid), PaidCpu(paid[id := p]), id);
  }

  lemma EnoughVotes(threshold: nat, count: nat, cpu: int, sum: int)
    requires 0 <= cpu && (threshold <= count || cpu == 0)
    ensures threshold * (sum + cpu) <= threshold * sum + count * cpu
  {
    assert threshold * (sum + cpu) == threshold * sum + threshold * cpu;
    if threshold <= count {
      assert threshold * cpu <= count * cpu;
    }
  }

  lemma PaySettles(s: State, id: int)
    requires RowsOk(s) && AlmostSettled(s, id) && 1 <= id && PayIfAgreed(s, id).Some?
    ensures Settled(PayIfAgreed(s, id).value)
  {
    hide RowsOk, ModeOf, Count;
    var s' := PayIfAgreed(s, id).value;
    if 1 <= s.threshold < COUNTER && id !in s'.distributed {
      forall h | s.threshold <= Count(s.rows, s.oracles, id, h)
        ensures false
      {
        ModeReaches(s.rows, s.oracles, id, h, s.threshold);
      }
    }
  }

  /** addactusg: a dataset number is paid once, on the agreement of at least threshold oracles, and
      an agreement never goes unpaid. */
  lemma AddUsageKeeps(env: Env, s: State, source: Name, isOracle: bool, id: int, d: Dataset, start: int)
    requires Inv(s)
    ensures var o := AddUsage(env, s, source, isOracle, id, d, start);
            o.Some? ==>
              && Inv(o.value) && o.value.threshold == s.threshold && o.value.advances == s.advances
              && o.value.issued == s.issued && o.value.inflationDone == s.inflationDone
  {
    hide SumInt, Count, ModeOf, TokensOk, Credits, PaidCpu, PayIfAgreed, Text;
    var o := AddUsage(env, s, source, isOracle, id, d, start);
    if o.Some? {
      var s1 := WithUsage(env, s, source, d);
      RowsAfterUsage(env, s, source, d);
      PayoutsAfterSubmission(s, s1, source);
      AlmostAfterUsage(s, s1, source, env.sha(Text(env, d)));
      PayIfAgreedFields(s1, id);
      PaySettles(s1, id);
      RowsElsewhere(s1, o.value);
      TokensElsewhere(s, o.value);
    }
  }

  lemma PayIfAgreedFields(s: State, id: int)
    requires PayoutsOk(s) && RowsOk(s) && 1 <= id && s.inflationDone
    ensures PayIfAgreed(s, id).Some? ==>
              var s' := PayIfAgreed(s, id).value;
              PayoutsOk(s') && s' == s.(accountPay := s'.accountPay, distributed := s'.distributed, paid := s'.paid,
                                       credited := s'.credited)
  {
    hide SumInt, Count, ModeOf, Credits, PaidCpu, RowsOk, PayoutsOk;
    var m := ModeOf(s.rows, s.oracles, id, |s.oracles|);
    if id !in s.distributed && s.threshold <= m.count {
      DistributeKeeps(s, id, m);
    }
  }

  // ----- double counting

  // What is stored under a hash that was paid out holds no more CPU than any oracle submitted under
  // that hash; nothing is asked of other hashes.
  ghost predicate Faithful(s: State) {
    forall n, id | n in s.rows && id in s.paid && Submitted(s.rows[n], id, s.paid[id].hash) && id < |s.rows[n].data|
                   && s.paid[id].hash in s.datasets ::
      Cpu(s.datasets[s.paid[id].hash]) <= Cpu(s.rows[n].data[id])
  }

  /** No double counting: the CPU of all datasets paid in this period, threshold times over, is at
      most what the oracles used up, which is at most what they declared, even when different
      oracles back different datasets.  It needs that no paid hash stands for less CPU than was stored
      under it. */
  lemma NoDoubleCounting(s: State)
    requires Inv(s) && Faithful(s)
    ensures s.threshold * SumInt(PaidCpu(s.paid)) <= SumInt(Spent(s.rows)) <= SumInt(Declared(s.rows))
  {
    hide SumInt, Cpu, CpuAfter, Credit, Settled, TokensOk;
    forall n | n in s.rows
      ensures Credits(s.paid, s.rows)[n] <= Spent(s.rows)[n] <= Declared(s.rows)[n]
    {
      var r := s.rows[n];
      assert RowOk(r, s.datasets);
      CreditAtMost(s.paid, r);
    }
    IntMonotone(Credits(s.paid, s.rows), Spent(s.rows));
    IntMonotone(Spent(s.rows), Declared(s.rows));
  }

  /** The text that is hashed has no separators, so two datasets of different CPU can share it. */
  lemma TextsCollide(env: Env, x: Name, y: Name)
    requires env.spell(x) == "a1" && env.spell(y) == "a12"
    ensures Text(env, [Metric(x, 23)]) == Text(env, [Metric(y, 3)]) && Cpu([Metric(x, 23)]) != Cpu([Metric(y, 3)])
  {
    var d, e := [Metric(x, 23)], [Metric(y, 3)];
    assert d[1..] == [] && e[1..] == [];
    assert Decimal(23) == Decimal(2) + "3" && Decimal(2) == "2" && Decimal(3) == "3";
    assert Text(env, d) == "a1" + "23" + "" && Text(env, e) == "a12" + "3" + "";
    assert "a1" + "23" == "a12" + "3";
  }

  /** A payout adds its shares to the accounts' balances and no more than the dataset's part of the
      utility tokens. */
  lemma {:induction false} PayoutBound(pay: map<Name, int>, d: Dataset, totalCpu: int, utility: int)
    requires 0 < totalCpu
    ensures SumInt(PayAccounts(pay, d, totalCpu, utility)) == SumInt(pay) + Shares(d, totalCpu, utility)
    ensures totalCpu * Shares(d, totalCpu, utility) <= utility * Cpu(d)
    decreases |d|
  {
    hide SumInt;
    if d != [] {
      var a, share := d[0].account, Share(d[0].cpu, totalCpu, utility);
      var pay1 := pay[a := (if a in pay then pay[a] else 0) + share];
      IntChange(pay, pay1, a);
      PayoutBound(pay1, d[1..], totalCpu, utility);
      ShareBound(d[0].cpu, totalCpu, utility);
      var more := Shares(d[1..], totalCpu, utility);
      assert totalCpu * (more + share) == totalCpu * more + totalCpu * share;
      assert utility * Cpu(d) == utility * d[0].cpu + utility * Cpu(d[1..]);
    }
  }

  lemma ShareBound(cpu: int, totalCpu: int, utility: int)
    requires 0 < totalCpu
    ensures totalCpu * Share(cpu, totalCpu, utility) <= cpu * utility
  {
    var x := cpu * utility;
    assert x == totalCpu * (x / totalCpu) + x % totalCpu;
  }

  // ----- the next period

  lemma NextPeriodKeeps(env: Env, s: State, now: int)
    requires Inv(s)
    ensures NextPeriod(env, s, now).Some? ==>
              var s' := NextPeriod(env, s, now).value;
              Inv(s') && s'.threshold == s.threshold && s'.issued == s.issued && s'.advances == s.advances + 1
  {
    hide CommitmentMode, CountFull, RowsOk, PayoutsOk, Settled, SumInt, Token.Inv;
    if NextPeriod(env, s, now).Some? {
      NothingSubmitted(NextPeriod(env, s, now).value);
    }
  }

  lemma NothingSubmitted(s: State)
    requires s.rows == map[] && s.datasets == map[] && s.oracles == [] && s.distributed == [] && s.paid == map[]
    ensures RowsOk(s) && PayoutsOk(s) && Settled(s)
  {
    hide SumInt;
    IntZero(PaidCpu(s.paid));
    IntZero(Credits(s.paid, s.rows));
  }

  // A reveal hash identifies the list of hashes it was computed from.
  ghost predicate RevealsDistinct(env: Env, rows: Rows) {
    forall a, b | a in rows && b in rows && env.shaList(rows[a].hashes) == env.shaList(rows[b].hashes) ::
      rows[a].hashes == rows[b].hashes
  }

  /** The period advances only when at least threshold oracles revealed one and the same list of
      hashes, inflation has been issued, and every dataset on that list has been paid. */
  lemma AdvanceMeansSettled(env: Env, s: State, now: int)
    requires RowsOk(s) && Settled(s) && 1 <= s.threshold < COUNTER
    requires RevealsDistinct(env, s.rows) && NextPeriod(env, s, now).Some?
    ensures s.inflationDone
    ensures exists n :: n in s.rows && (forall id | 1 <= id < |s.rows[n].hashes| :: id in s.distributed)
                        && forall id | 0 <= id < |s.rows[n].hashes| :: s.threshold <= Count(s.rows, s.oracles, id, s.rows[n].hashes[id])
  {
    hide Count, CommitmentMode, PayoutsOk, TokensOk;
    var m := CommitmentMode(s.rows, s.oracles);
    assert s.threshold <= CountFull(env, s.rows, s.oracles, m);
    FullPositive(env, s.rows, s.oracles, m);
    var n :| n in s.oracles && n in s.rows && Full(env, s.rows[n], m);
    var list := s.rows[n].hashes;
    assert RowOk(s.rows[n], s.datasets);
    forall id | 0 <= id < |list|
      ensures s.threshold <= Count(s.rows, s.oracles, id, list[id])
    {
      forall x | x in s.oracles && x in s.rows && Full(env, s.rows[x], m)
        ensures Submitted(s.rows[x], id, list[id])
      {
        assert s.rows[x].hashes == list;
      }
      FullAreCounted(env, s.rows, s.oracles, m, id, list[id]);
    }
    assert s.threshold <= Count(s.rows, s.oracles, 0, list[0]);
    forall id | 1 <= id < |list|
      ensures id in s.distributed
    {
      assert s.threshold <= Count(s.rows, s.oracles, id, list[id]);
    }
  }

  // ----- claims and token transfers

  lemma ClaimRewardsKeeps(s: State, owner: Name)
    requires Inv(s)
    ensures ClaimRewards(s, owner).Some? ==> Inv(ClaimRewards(s, owner).value)
  {
    hide SumInt, RowsOk, PayoutsOk, Settled;
    if ClaimRewards(s, owner).Some? {
      var s' := ClaimRewards(s, owner).value;
      Token.NextKeeps(s.token, Token.Pay(EOSIO_BPAY, owner, s.producerPay[owner]));
      Token.TransferMoves(s.token.balances, EOSIO_BPAY, owner, s.producerPay[owner]);
      IntChange(s.producerPay, s'.producerPay, owner);
      VotesElsewhere(s, s');
    }
  }

  lemma VotesElsewhere(s: State, s': State)
    requires RowsOk(s) && PayoutsOk(s) && Settled(s)
    requires s' == s.(token := s'.token, producerPay := s'.producerPay, accountPay := s'.accountPay, active := s'.active)
    ensures RowsOk(s') && PayoutsOk(s') && Settled(s')
  {
    hide SumInt, RowOk, Count, Credits, PaidCpu;
  }

  // The pay account acts only through the contract.
  predicate Ordinary(a: Action) {
    a.TokenAction? ==> (a.action.Pay? ==> a.action.from != EOSIO_BPAY)
  }

  lemma TokenActionKeeps(s: State, ta: Token.Action)
    requires Inv(s) && Ordinary(TokenAction(ta)) && Token.Act(s.token, ta).Some?
    ensures Inv(s.(token := Token.Act(s.token, ta).value))
  {
    hide SumInt, RowsOk, PayoutsOk, Settled;
    Token.NextKeeps(s.token, ta);
    if ta.Pay? { Token.TransferMoves(s.token.balances, ta.from, ta.to, ta.quantity); }
    VotesElsewhere(s, s.(token := Token.Act(s.token, ta).value));
  }

  lemma ClaimDistributionKeeps(s: State, account: Name)
    requires Inv(s)
    ensures ClaimDistribution(s, account).Some? ==> Inv(ClaimDistribution(s, account).value)
  {
    hide SumInt, RowsOk, PayoutsOk, Settled;
    if ClaimDistribution(s, account).Some? {
      var q := s.accountPay[account];
      Token.NextKeeps(s.token, Token.Pay(EOSIO_UPAY, account, q));
      Token.TransferMoves(s.token.balances, EOSIO_UPAY, account, q);
      VotesElsewhere(s, ClaimDistribution(s, account).value);
    }
  }

  /** No action breaks the protocol; inflation is issued only by a settotalusg that finds it not yet
      issued in this period and at least threshold oracles agreed. */
  lemma NextKeeps(env: Env, s: State, a: Action)
    requires Inv(s) && Ordinary(a)
    ensures Inv(Next(env, s, a)) && Next(env, s, a).threshold == s.threshold
    ensures Next(env, s, a).issued != s.issued ==>
              !s.inflationDone && Next(env, s, a).inflationDone && Agreed(Next(env, s, a))
    ensures Next(env, s, a).advances == s.advances + if a.Advance? && NextPeriod(env, s, a.now).Some? then 1 else 0
    ensures s.inflationDone && !a.Advance? ==> Next(env, s, a).inflationDone
  {
    hide Inv, SetTotals, AddUsage, NextPeriod, ClaimDistribution, ClaimRewards, Agreed;
    match a
    case Totals(source, isOracle, cpu, net, maxCpu, maxNet, commitment, start, i, names) =>
      SetTotalsKeeps(env, s, source, isOracle, cpu, net, maxCpu, maxNet, commitment, start, i, names);
      IssuedStays(env, s, a);
    case Usage(source, isOracle, id, d, start) => AddUsageKeeps(env, s, source, isOracle, id, d, start);
    case Advance(now) => NextPeriodKeeps(env, s, now);
    case ClaimShare(account) => ClaimDistributionKeeps(s, account); IssuedStays(env, s, a);
    case ClaimPay(owner) => ClaimRewardsKeeps(s, owner); IssuedStays(env, s, a);
    case Activate(active) => if active != s.active { ActivateKeeps(s, active); }
    case TokenAction(ta) => if Token.Act(s.token, ta).Some? { TokenActionKeeps(s, ta); }
  }

  lemma ActivateKeeps(s: State, active: bool)
    requires Inv(s)
    ensures Inv(s.(active := active))
  {
    hide RowsOk, PayoutsOk, Settled;
    VotesElsewhere(s, s.(active := active));
  }

  lemma IssuedStays(env: Env, s: State, a: Action)
    requires a.Totals? || a.ClaimShare? || a.ClaimPay?
    ensures s.inflationDone ==> Next(env, s, a).inflationDone
    ensures a.ClaimShare? || a.ClaimPay? ==>
              && Next(env, s, a).threshold == s.threshold && Next(env, s, a).issued == s.issued
              && Next(env, s, a).advances == s.advances
  {
    hide Token.Act;
  }

  ghost predicate IsRun(env: Env, s: State, acts: seq<Action>, s': State)
    decreases |acts|
  {
    if acts == [] then s' == s else Ordinary(acts[0]) && IsRun(env, Next(env, s, acts[0]), acts[1..], s')
  }

  lemma {:induction false} RunKeeps(env: Env, s: State, acts: seq<Action>, s': State)
    requires Inv(s) && IsRun(env, s, acts, s')
    ensures Inv(s') && s'.threshold == s.threshold
    decreases |acts|
  {
    hide RowsOk, PayoutsOk, Settled, Next, SumInt;
    if acts != [] {
      NextKeeps(env, s, acts[0]);
      RunKeeps(env, Next(env, s, acts[0]), acts[1..], s');
    }
  }

  // A fresh protocol state over a token issued by the system account.
  function Fresh(threshold: nat, batchSize: nat, start: int, seconds: nat, token: Token.State): State {
    State(false, threshold, batchSize, start, seconds, [], map[], map[], false, [], 0, 0, token, map[], map[], map[], 0, 0, 0)
  }

  lemma FreshInv(threshold: nat, batchSize: nat, start: int, seconds: nat, token: Token.State)
    requires Token.Inv(token) && token.issuer == EOSIO
    ensures Inv(Fresh(threshold, batchSize, start, seconds, token))
  {
    hide Token.Inv, RowsOk, PayoutsOk, Settled;
    BalanceNotNegative(token, EOSIO_BPAY);
    NothingSubmitted(Fresh(threshold, batchSize, start, seconds, token));
  }

  lemma BalanceNotNegative(t: Token.State, a: Name)
    requires Token.Inv(t)
    ensures 0 <= Token.BalanceOf(t.balances, a)
  {
  }

  // ----- how often inflation is issued

  // The votes for the totals call for issue_inflation.
  predicate IssueDue(s: State) {
    && !s.inflationDone && s.threshold <= |s.oracles|
    && var m := ModeOf(s.rows, s.oracles, 0, |s.oracles|);
       s.threshold <= m.count && m.hash.Some? && m.hash.value in s.datasets
  }

  // The action calls issue_inflation and is accepted.
  predicate Issues(env: Env, s: State, a: Action) {
    && a.Totals? && Act(env, s, a).Some? && 0 <= a.cpu && 0 <= a.net
    && IssueDue(WithTotals(env, s, a.source, a.cpu, a.net, a.commitment, a.names))
  }

  // The action ends a period whose inflation is done.
  predicate Finishes(env: Env, s: State, a: Action) {
    a.Advance? && Act(env, s, a).Some? && s.inflationDone
  }

  function Issuances(env: Env, s: State, acts: seq<Action>): nat
    decreases |acts|
  {
    if acts == [] then 0
    else (if Issues(env, s, acts[0]) then 1 else 0) + Issuances(env, Next(env, s, acts[0]), acts[1..])
  }

  function FinishedPeriods(env: Env, s: State, acts: seq<Action>): nat
    decreases |acts|
  {
    if acts == [] then 0
    else (if Finishes(env, s, acts[0]) then 1 else 0) + FinishedPeriods(env, Next(env, s, acts[0]), acts[1..])
  }

  function Once(b: bool): nat {
    if b then 1 else 0
  }

  lemma DueIssues(s: State, i: Inflation)
    requires TokensOk(s) && IssueIfAgreed(s, i).Some?
    ensures var s' := IssueIfAgreed(s, i).value;
            if IssueDue(s) then s'.inflationDone && s'.issued <= s.issued + INFLATION_CAP
            else s'.inflationDone == s.inflationDone && s'.issued == s.issued
  {
    hide SumInt, ModeOf, Issue, Token.Inv;
    var m := ModeOf(s.rows, s.oracles, 0, |s.oracles|);
    if IssueDue(s) && s.datasets[m.hash.value] != [] {
      IssueKeeps(s.(totalCpu := s.datasets[m.hash.value][0].cpu), i);
    }
  }

  lemma StepIssues(env: Env, s: State, a: Action)
    requires Inv(s) && Ordinary(a)
    ensures var s' := Next(env, s, a);
            && Once(s'.inflationDone) + Once(Finishes(env, s, a)) == Once(s.inflationDone) + Once(Issues(env, s, a))
            && s'.issued <= s.issued + INFLATION_CAP * Once(Issues(env, s, a))
  {
    hide RowsOk, PayoutsOk, Settled, TokensOk, SumInt, ModeOf, IssueIfAgreed, PayIfAgreed, WithTotals, WithUsage, FullReveals, Token.Act,
         Limits, Allocatable, IssueDue;
    if a.Totals? && Act(env, s, a).Some? {
      TotalsIssue(env, s, a);
    } else if a.Usage? && Act(env, s, a).Some? {
      AddUsageKeeps(env, s, a.source, a.isOracle, a.id, a.dataset, a.periodStart);
    }
  }

  lemma TotalsIssue(env: Env, s: State, a: Action)
    requires Inv(s) && a.Totals? && Act(env, s, a).Some?
    ensures 0 <= a.cpu && 0 <= a.net
    ensures var s', due := Act(env, s, a).value, IssueDue(WithTotals(env, s, a.source, a.cpu, a.net, a.commitment, a.names));
            && Once(s'.inflationDone) == Once(s.inflationDone) + Once(due)
            && s'.issued <= s.issued + INFLATION_CAP * Once(due)
  {
    hide RowsOk, PayoutsOk, Settled, TokensOk, SumInt, ModeOf, IssueIfAgreed, TotalsText;
    var s1 := WithTotals(env, s, a.source, a.cpu, a.net, a.commitment, a.names);
    TokensElsewhere(s, s1);
    DueIssues(s1, a.inflation);
  }

  lemma {:induction false} RunIssues(env: Env, s: State, acts: seq<Action>, s': State)
    requires Inv(s) && IsRun(env, s, acts, s')
    ensures Issuances(env, s, acts) + Once(s.inflationDone) == FinishedPeriods(env, s, acts) + Once(s'.inflationDone)
    ensures s'.issued <= s.issued + INFLATION_CAP * Issuances(env, s, acts)
    decreases |acts|
  {
    hide Inv, Next, Issues, Finishes;
    if acts != [] {
      NextKeeps(env, s, acts[0]);
      StepIssues(env, s, acts[0]);
      RunIssues(env, Next(env, s, acts[0]), acts[1..], s');
    }
  }

  /** Over any run from a fresh state inflation is issued once in each period whose inflation is done,
      and in no other; at most the cap is issued each time; and producers' pay is always covered. */
  lemma IssuedOverEveryRun(env: Env, threshold: nat, batchSize: nat, start: int, seconds: nat, token: Token.State,
                           acts: seq<Action>, s: State)
    requires Token.Inv(token) && token.issuer == EOSIO
    requires IsRun(env, Fresh(threshold, batchSize, start, seconds, token), acts, s)
    ensures Issuances(env, Fresh(threshold, batchSize, start, seconds, token), acts)
         == FinishedPeriods(env, Fresh(threshold, batchSize, start, seconds, token), acts) + Once(s.inflationDone)
    ensures s.issued <= INFLATION_CAP * Issuances(env, Fresh(threshold, batchSize, start, seconds, token), acts)
    ensures s.issued <= INFLATION_CAP * (s.advances + if s.inflationDone then 1 else 0)
    ensures SumInt(s.producerPay) <= Token.BalanceOf(s.token.balances, EOSIO_BPAY)
    ensures s.token.supply == SumInt(s.token.balances) <= s.token.maxSupply
  {
    hide SumInt, RowsOk, PayoutsOk, Settled, IsRun, Issuances, FinishedPeriods;
    FreshInv(threshold, batchSize, start, seconds, token);
    RunKeeps(env, Fresh(threshold, batchSize, start, seconds, token), acts, s);
    RunIssues(env, Fresh(threshold, batchSize, start, seconds, token), acts, s);
  }

  /** After any run from a fresh state, whatever the order of submissions, payouts, claims and period
      advances: threshold times the CPU paid for is within what was declared, if hashes identify
      datasets. */
  lemma NoDoubleCountingInAnyRun(env: Env, threshold: nat, batchSize: nat, start: int, seconds: nat, token: Token.State,
                                 acts: seq<Action>, s: State)
    requires Token.Inv(token) && token.issuer == EOSIO
    requires IsRun(env, Fresh(threshold, batchSize, start, seconds, token), acts, s) && Faithful(s)
    ensures s.threshold * SumInt(PaidCpu(s.paid)) <= SumInt(Declared(s.rows))
    ensures forall i, j | 0 <= i < j < |s.distributed| :: s.distributed[i] != s.distributed[j]
  {
    hide SumInt, RowsOk, Settled, TokensOk, Faithful, IsRun;
    FreshInv(threshold, batchSize, start, seconds, token);
    RunKeeps(env, Fresh(threshold, batchSize, start, seconds, token), acts, s);
    NoDoubleCounting(s);
  }
}
