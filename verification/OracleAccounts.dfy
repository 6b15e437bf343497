/** Who is paid by the oracle protocol: what each action does to every row and balance, and over whole
    runs what each account and each producer is owed and has been paid. */
module OracleAccounts {
  import opened Common
  import opened Sums
  import Token
  import opened Oracle
  import opened OracleCounting
  import opened OracleMachine

  // ----- votes

  // The oracles that have submitted h as their item number id, by their places in the list.
  function Voters(rows: Rows, names: seq<Name>, id: int, h: Hash): set<int> {
    set i | 0 <= i < |names| && names[i] in rows && 0 <= id < |rows[names[i]].hashes| && rows[names[i]].hashes[id] == h
  }

  /** Each oracle that submitted a hash is counted once for it. */
  lemma {:induction false} CountIsVoters(rows: Rows, names: seq<Name>, id: int, h: Hash)
    ensures Count(rows, names, id, h) == |Voters(rows, names, id, h)|
    decreases |names|
  {
    if names == [] {
      assert Voters(rows, names, id, h) == {};
    } else {
      var n := |names| - 1;
      var front := names[..n];
      assert names == front + [names[n]];
      CountAppend(rows, front, names[n], id, h);
      CountIsVoters(rows, front, id, h);
      var before, all := Voters(rows, front, id, h), Voters(rows, names, id, h);
      assert forall i | 0 <= i < n :: front[i] == names[i];
      assert n !in before;
      if names[n] in rows && Submitted(rows[names[n]], id, h) {
        assert all == before + {n};
      } else {
        assert all == before;
      }
    }
  }

  // The votes for h in eight bits, as the contract counts them.
  function Ballots(rows: Rows, names: seq<Name>, id: int, h: Hash): nat {
    |Voters(rows, names, id, h)| % 256
  }

  // No hash has more votes than h, and no smaller one as many.
  ghost predicate MostVoted(rows: Rows, names: seq<Name>, id: int, h: Hash) {
    && 0 < Ballots(rows, names, id, h)
    && forall x: Hash :: && Ballots(rows, names, id, x) <= Ballots(rows, names, id, h)
                         && (Ballots(rows, names, id, x) == Ballots(rows, names, id, h) ==> h <= x)
  }

  lemma BallotsAre(rows: Rows, names: seq<Name>, id: int, h: Hash)
    ensures Ballots(rows, names, id, h) == Count(rows, names, id, h) % COUNTER
  {
    CountIsVoters(rows, names, id, h);
  }

  /** The mode is the most voted hash, and its count that hash's votes; without one nobody has votes. */
  lemma ModeIsMostVoted(rows: Rows, names: seq<Name>, id: int)
    ensures var m := ModeOf(rows, names, id, |names|);
            && (forall h: Hash :: m.hash == Some(h) <==> MostVoted(rows, names, id, h))
            && (m.hash.Some? ==> m.count == Ballots(rows, names, id, m.hash.value))
            && (m.hash.None? ==> m.count == 0 && forall h: Hash :: Ballots(rows, names, id, h) == 0)
  {
    hide Voters, Ballots, ModeOf, Count;
    var m := ModeOf(rows, names, id, |names|);
    ModeIsBest(rows, names, id, |names|);
    forall h: Hash
      ensures Ballots(rows, names, id, h) == Count(rows, names, id, h) % COUNTER <= m.count
      ensures 0 < m.count == Ballots(rows, names, id, h) ==> m.hash.value <= h
    {
      BallotsAre(rows, names, id, h);
      if 0 < Count(rows, names, id, h) { CountPositive(rows, names, id, h); }
    }
    if m.hash.Some? {
      assert MostVoted(rows, names, id, m.hash.value);
      forall h: Hash | MostVoted(rows, names, id, h)
        ensures h == m.hash.value
      {
        assert Ballots(rows, names, id, m.hash.value) <= Ballots(rows, names, id, h);
      }
    }
  }

  // ----- shares

  // What d gives a: the shares of its own entries.
  function SharesTo(d: Dataset, a: Name, totalCpu: int, utility: int): int
    requires totalCpu != 0
  {
    if d == [] then 0
    else (if d[0].account == a then Share(d[0].cpu, totalCpu, utility) else 0) + SharesTo(d[1..], a, totalCpu, utility)
  }

  function Product(x: int, y: int): int { x * y }

  /** A share is the account's part of the utility tokens, in proportion to its CPU, rounded down. */
  lemma ShareRounds(cpu: int, totalCpu: int, utility: int)
    requires 0 < totalCpu
    ensures Product(totalCpu, Share(cpu, totalCpu, utility)) <= Product(cpu, utility)
            < Product(totalCpu, Share(cpu, totalCpu, utility)) + totalCpu
  {
    var x := cpu * utility;
    assert x == totalCpu * (x / totalCpu) + x % totalCpu;
  }

  /** A payout adds to each account's balance the shares of that account's own entries. */
  lemma {:induction false} PayAccountsOf(pay: map<Name, int>, d: Dataset, totalCpu: int, utility: int, a: Name)
    requires totalCpu != 0
    ensures IntAt(PayAccounts(pay, d, totalCpu, utility), a) == IntAt(pay, a) + SharesTo(d, a, totalCpu, utility)
    decreases |d|
  {
    hide Share;
    if d != [] {
      var x := d[0].account;
      var pay1 := pay[x := (if x in pay then pay[x] else 0) + Share(d[0].cpu, totalCpu, utility)];
      PayAccountsOf(pay1, d[1..], totalCpu, utility, a);
    }
  }

  /** Each producer named is credited the amount, as often as it is named. */
  lemma {:induction false} AddPayOf(pay: map<Name, int>, names: seq<Name>, amount: int, p: Name)
    ensures IntAt(AddPay(pay, names, amount), p) == IntAt(pay, p) + Product(multiset(names)[p], amount)
    decreases |names|
  {
    if names != [] {
      var pay1 := pay[names[0] := (if names[0] in pay then pay[names[0]] else 0) + amount];
      AddPayOf(pay1, names[1..], amount, p);
      assert names == [names[0]] + names[1..];
      OnceMore(multiset(names[1..])[p], amount);
    }
  }

  lemma OnceMore(n: nat, amount: int)
    ensures Product(n + 1, amount) == Product(n, amount) + amount
  {
  }

  // ----- inflation

  // The two parts are in proportion, rounded down for the producers, and together all there is.
  ghost predicate CutRight(bppay: nat, utility: nat, remaining: nat, b: int, u: int) {
    if bppay + utility <= remaining then b == bppay && u == utility
    else b + u == remaining && Product(b, bppay + utility) <= Product(bppay, remaining) < Product(b + 1, bppay + utility)
  }

  lemma CutIsRight(bppay: nat, utility: nat, remaining: nat)
    ensures var (b, u) := Cut(bppay, utility, remaining);
            CutRight(bppay, utility, remaining, b, u)
  {
    if remaining < bppay + utility {
      var all, x := bppay + utility, bppay * remaining;
      assert x == all * (x / all) + x % all;
      assert (x / all + 1) * all == x / all * all + all;
    }
  }

  /** issue_inflation: the producers' part goes to the producers' pay account and the rest to the usage
      account; each producer is credited an equal part, rounded down; nothing else moves. */
  lemma IssueSpelled(s: State, i: Inflation)
    requires TokensOk(s) && Issue(s, i).Some?
    ensures i.ok && i.bppay + i.utility <= 15000000000 && s.token.supply < s.token.maxSupply
    ensures 0 < |i.producers| == i.scheduleSize
    ensures var s', b := Issue(s, i).value, Issue(s, i).value.issued - s.issued - Issue(s, i).value.utility;
            && CutRight(i.bppay, i.utility, s.token.maxSupply - s.token.supply, b, s'.utility)
            && s'.token.supply == s.token.supply + b + s'.utility
            && (forall a :: Token.BalanceOf(s'.token.balances, a)
                         == Token.BalanceOf(s.token.balances, a)
                            + (if a == EOSIO_BPAY then b else 0) + (if a == EOSIO_UPAY then s'.utility else 0))
            && (forall p :: IntAt(s'.producerPay, p) == IntAt(s.producerPay, p) + Product(multiset(i.producers)[p], b / |i.producers|))
            && s' == s.(token := s'.token, utility := s'.utility, issued := s'.issued, producerPay := s'.producerPay)
  {
    hide SumInt, Token.Act, Send, Cut, AddPay, Token.Inv;
    CutBounds(i.bppay, i.utility, s.token.maxSupply - s.token.supply);
    CutIsRight(i.bppay, i.utility, s.token.maxSupply - s.token.supply);
    var (bppay, utility) := Created(s, i);
    SendsSpelled(s.token, bppay, utility);
    IssuePays(s, i);
  }

  // Minted by the system account and sent on at once.
  lemma SendsSpelled(t: Token.State, bppay: int, utility: int)
    requires Token.Inv(t) && t.issuer == EOSIO && 0 <= bppay && 0 <= utility
    ensures var t0 := if bppay + utility == 0 then Some(t) else Token.Act(t, Token.Issue(EOSIO, bppay + utility));
            t0.Some? && Send(t0.value, EOSIO_BPAY, bppay).Some? && Send(Send(t0.value, EOSIO_BPAY, bppay).value, EOSIO_UPAY, utility).Some? ==>
              var t' := Send(Send(t0.value, EOSIO_BPAY, bppay).value, EOSIO_UPAY, utility).value;
              && t'.supply == t.supply + bppay + utility
              && forall a :: Token.BalanceOf(t'.balances, a)
                          == Token.BalanceOf(t.balances, a) + (if a == EOSIO_BPAY then bppay else 0) + (if a == EOSIO_UPAY then utility else 0)
  {
    hide SumInt, Token.Act, Send, Token.Inv;
    var t0 := if bppay + utility == 0 then Some(t) else Token.Act(t, Token.Issue(EOSIO, bppay + utility));
    if t0.Some? {
      if bppay + utility != 0 {
        Token.ActSpelled(t, Token.Issue(EOSIO, bppay + utility));
        Token.NextKeeps(t, Token.Issue(EOSIO, bppay + utility)) by { NextIsAct(t, Token.Issue(EOSIO, bppay + utility)); }
      }
      SendSpelled(t0.value, EOSIO_BPAY, bppay);
      if Send(t0.value, EOSIO_BPAY, bppay).Some? { SendSpelled(Send(t0.value, EOSIO_BPAY, bppay).value, EOSIO_UPAY, utility); }
    }
  }

  lemma NextIsAct(t: Token.State, a: Token.Action)
    ensures Token.Act(t, a).Some? ==> Token.Next(t, a) == Token.Act(t, a).value
  {
  }

  lemma SendSpelled(t: Token.State, to: Name, q: int)
    requires Token.Inv(t) && 0 <= q
    ensures Send(t, to, q).Some? ==>
              var t' := Send(t, to, q).value;
              && Token.Inv(t') && t'.supply == t.supply && Token.Moved(t.balances, t'.balances, EOSIO, to, q)
  {
    hide SumInt, Token.Act, Token.Inv;
    Token.ActSpelled(t, Token.Pay(EOSIO, to, q));
    Token.NextKeeps(t, Token.Pay(EOSIO, to, q));
    NextIsAct(t, Token.Pay(EOSIO, to, q));
  }

  lemma IssuePays(s: State, i: Inflation)
    requires TokensOk(s) && Issue(s, i).Some?
    ensures var s', (bppay, utility) := Issue(s, i).value, Created(s, i);
            && s'.utility == utility && s'.issued == s.issued + bppay + utility && |i.producers| != 0
            && (forall p :: IntAt(s'.producerPay, p) == IntAt(s.producerPay, p) + Product(multiset(i.producers)[p], bppay / |i.producers|))
  {
    hide SumInt, Token.Act, Send, Cut, AddPay, Token.Inv, Product;
    CutBounds(i.bppay, i.utility, s.token.maxSupply - s.token.supply);
    var (bppay, utility) := Created(s, i);
    var earned := bppay / |i.producers|;
    forall p: Name
      ensures IntAt(Issue(s, i).value.producerPay, p) == IntAt(s.producerPay, p) + Product(multiset(i.producers)[p], earned)
    {
      if 0 < earned { AddPayOf(s.producerPay, i.producers, earned, p); } else { NoneEarned(multiset(i.producers)[p], bppay, |i.producers|); }
    }
  }

  lemma NoneEarned(n: nat, bppay: int, count: int)
    requires 0 <= bppay && 0 < count && bppay / count <= 0
    ensures Product(n, bppay / count) == 0
  {
  }

  // ----- the actions

  ghost function Winner(rows: Rows, names: seq<Name>, id: int): (o: Option<Hash>)
    ensures o.Some? ==> MostVoted(rows, names, id, o.value)
    ensures o.None? ==> forall h: Hash :: !MostVoted(rows, names, id, h)
  {
    if exists h: Hash :: MostVoted(rows, names, id, h) then
      var h: Hash :| MostVoted(rows, names, id, h);
      Some(h)
    else None
  }

  lemma ModeIsWinner(rows: Rows, names: seq<Name>, id: int)
    ensures var m, w := ModeOf(rows, names, id, |names|), Winner(rows, names, id);
            m.hash == w && m.count == if w.Some? then Ballots(rows, names, id, w.value) else 0
  {
    hide ModeOf, Ballots, MostVoted;
    ModeIsMostVoted(rows, names, id);
  }

  // Enough oracles stand behind the most voted hash of an item.
  ghost predicate Decided(s: State, id: int) {
    && s.threshold <= |s.oracles|
    && s.threshold <= match Winner(s.rows, s.oracles, id) {
                        case Some(h) => Ballots(s.rows, s.oracles, id, h)
                        case None => 0
                      }
  }

  /** settotalusg: who may submit, the row it leaves, and that as soon as enough oracles agree on totals
      that are stored, inflation is issued for their CPU, once. */
  lemma SetTotalsSpelled(env: Env, s: State, source: Name, isOracle: bool, cpu: int, net: int, maxCpu: int, maxNet: int,
                         commitment: Hash, start: int, i: Inflation, names: (Name, Name))
    requires Inv(s) && SetTotals(env, s, source, isOracle, cpu, net, maxCpu, maxNet, commitment, start, i, names).Some?
    ensures isOracle && s.active && start == s.periodStart && source !in s.rows
    ensures 0 <= cpu <= maxCpu && 0 <= net < 0x1_0000_0000_0000_0000 && net * 8 % 0x1_0000_0000_0000_0000 <= maxNet
    ensures var s', h := SetTotals(env, s, source, isOracle, cpu, net, maxCpu, maxNet, commitment, start, i, names).value,
                         env.sha(TotalsText(cpu, net));
            var w := Winner(s'.rows, s'.oracles, 0);
            && s'.oracles == s.oracles + [source]
            && s'.rows - {source} == s.rows - {source} && source in s'.rows
            && s'.rows[source].total == cpu && s'.rows[source].spent == 0 && s'.rows[source].hashes == [h]
            && s'.rows[source].commitment == commitment
            && h in s'.datasets && s'.datasets - {h} == s.datasets - {h}
            && (if h in s.datasets then s'.datasets[h] == s.datasets[h]
                else s'.datasets[h] == [Metric(names.0, cpu), Metric(names.1, net)])
            && (if !s.inflationDone && Decided(s', 0) && w.Some? then
                  && s'.inflationDone && w.value in s'.datasets && s'.datasets[w.value] != []
                  && s'.totalCpu == s'.datasets[w.value][0].cpu
                  && Issue(s.(totalCpu := s'.totalCpu, oracles := s'.oracles, rows := s'.rows, datasets := s'.datasets), i)
                     == Some(s'.(inflationDone := false))
                else s' == s.(oracles := s'.oracles, rows := s'.rows, datasets := s'.datasets))
  {
    hide SumInt, ModeOf, Issue, Winner, Ballots, Token.Inv, RowsOk, PayoutsOk, Settled, TokensOk, TotalsText;
    var s1 := WithTotals(env, s, source, cpu, net, commitment, names);
    ModeIsWinner(s1.rows, s1.oracles, 0);
    RowsAfterTotals(env, s, source, cpu, net, commitment, names);
    ModeKnown(s1, 0);
    IssueKeepsVotes(i);
    var d := if ModeOf(s1.rows, s1.oracles, 0, |s1.oracles|).hash.Some? then ModeOf(s1.rows, s1.oracles, 0, |s1.oracles|).hash.value else 0;
    if d in s1.datasets && s1.datasets[d] != [] { IssueLeavesTables(s1.(totalCpu := s1.datasets[d][0].cpu), i); }
  }

  lemma IssueLeavesTables(s: State, i: Inflation)
    ensures Issue(s, i).Some? ==> SameVotes(s, Issue(s, i).value)
  {
    IssueKeepsVotes(i);
  }

  /** issue_inflation succeeds exactly within the cap and below the maximum supply, with a schedule that
      is elected in full; its transfers never fail. */
  lemma IssueSucceeds(s: State, i: Inflation)
    requires TokensOk(s)
    ensures Issue(s, i).Some? <==> && i.ok && i.bppay + i.utility <= 15000000000 && s.token.supply < s.token.maxSupply
                                   && 0 < |i.producers| == i.scheduleSize
  {
    hide SumInt, Token.Act, Send, Cut, AddPay;
    if s.token.supply < s.token.maxSupply {
      CutBounds(i.bppay, i.utility, s.token.maxSupply - s.token.supply);
      var (bppay, utility) := Created(s, i);
      SendsSucceed(s.token, bppay, utility);
    }
  }

  lemma SendsSucceed(t: Token.State, bppay: int, utility: int)
    requires Token.Inv(t) && t.issuer == EOSIO && 0 <= bppay && 0 <= utility && bppay + utility <= t.maxSupply - t.supply
    ensures var t0 := if bppay + utility == 0 then Some(t) else Token.Act(t, Token.Issue(EOSIO, bppay + utility));
            && t0.Some? && Send(t0.value, EOSIO_BPAY, bppay).Some?
            && Send(Send(t0.value, EOSIO_BPAY, bppay).value, EOSIO_UPAY, utility).Some?
  {
    hide SumInt, Token.Act, Token.Inv;
    assert 0 <= Token.BalanceOf(t.balances, EOSIO) by { BalanceNotNegative(t, EOSIO); }
    if bppay + utility != 0 {
      Token.ActSpelled(t, Token.Issue(EOSIO, bppay + utility));
      Token.NextKeeps(t, Token.Issue(EOSIO, bppay + utility));
      NextIsAct(t, Token.Issue(EOSIO, bppay + utility));
    }
    var t0 := if bppay + utility == 0 then t else Token.Act(t, Token.Issue(EOSIO, bppay + utility)).value;
    Token.ActSpelled(t0, Token.Pay(EOSIO, EOSIO_BPAY, bppay));
    SendSpelled(t0, EOSIO_BPAY, bppay);
    var t1 := Send(t0, EOSIO_BPAY, bppay).value;
    Token.ActSpelled(t1, Token.Pay(EOSIO, EOSIO_UPAY, utility));
  }

  // ----- reporting usage

  ghost function StoredFor(s: State, id: int): Dataset {
    match Winner(s.rows, s.oracles, id)
    case Some(h) => if h in s.datasets then s.datasets[h] else []
    case None => []
  }

  // The step pays dataset id to the accounts listed in d.
  ghost predicate PaysOut(s: State, s': State, id: int, d: Dataset) {
    && s'.distributed == s.distributed + [id] && id in s'.paid && s'.paid - {id} == s.paid - {id} && s'.paid[id].cpu == Cpu(d)
    && (d != [] ==> s.totalCpu != 0)
    && forall a: Name :: IntAt(s'.accountPay, a) == IntAt(s.accountPay, a) + if d == [] then 0 else SharesTo(d, a, s.totalCpu, s.utility)
  }

  lemma DistributePays(s: State, id: int, m: Mode)
    requires m.hash == Winner(s.rows, s.oracles, id) && id !in s.paid
    ensures Distribute(s, id, m).Some? <==> StoredFor(s, id) == [] || s.totalCpu != 0
    ensures Distribute(s, id, m).Some? ==>
              var s' := Distribute(s, id, m).value;
              && PaysOut(s, s', id, StoredFor(s, id))
              && s' == s.(accountPay := s'.accountPay, distributed := s'.distributed, paid := s'.paid, credited := s'.credited)
  {
    hide PayAccounts, Shares, SharesTo, Cpu, Winner;
    var d := StoredFor(s, id);
    if Distribute(s, id, m).Some? {
      if d != [] {
        forall a: Name
          ensures IntAt(Distribute(s, id, m).value.accountPay, a) == IntAt(s.accountPay, a) + SharesTo(d, a, s.totalCpu, s.utility)
        {
          PayAccountsOf(s.accountPay, d, s.totalCpu, s.utility, a);
        }
      }
    }
  }

  lemma PayIfAgreedSpelled(s: State, id: int)
    requires id in s.paid <==> id in s.distributed
    ensures var due := id !in s.distributed && Decided(s, id);
            && (PayIfAgreed(s, id).Some? <==> (due && StoredFor(s, id) != [] ==> s.totalCpu != 0))
            && (PayIfAgreed(s, id).Some? ==>
                  var s' := PayIfAgreed(s, id).value;
                  if due then
                    && PaysOut(s, s', id, StoredFor(s, id))
                    && s' == s.(accountPay := s'.accountPay, distributed := s'.distributed, paid := s'.paid, credited := s'.credited)
                  else s' == s)
  {
    hide ModeOf, Distribute, Winner, Ballots, PaysOut, StoredFor;
    ModeIsWinner(s.rows, s.oracles, id);
    var m := ModeOf(s.rows, s.oracles, id, |s.oracles|);
    if id !in s.distributed { DistributePays(s, id, m); }
  }

  /** addactusg: who may report what, the row it leaves, and that as soon as enough oracles agree on a
      dataset number the stored dataset is paid, once, each account the shares of its own entries. */
  lemma AddUsageSpelled(env: Env, s: State, source: Name, isOracle: bool, id: int, d: Dataset, start: int)
    requires Inv(s) && AddUsage(env, s, source, isOracle, id, d, start).Some?
    ensures isOracle && s.active && start == s.periodStart && |d| <= s.batchSize && s.inflationDone
    ensures source in s.rows && id == |s.rows[source].hashes| && forall i | 0 <= i < |d| :: 0 < d[i].cpu
    ensures var s', r, h := AddUsage(env, s, source, isOracle, id, d, start).value, s.rows[source], env.sha(Text(env, d));
            && r.spent + Cpu(d) <= r.total
            && s'.rows - {source} == s.rows - {source} && source in s'.rows
            && s'.rows[source].total == r.total && s'.rows[source].spent == r.spent + Cpu(d)
            && s'.rows[source].hashes == r.hashes + [h] && s'.rows[source].commitment == r.commitment
            && h in s'.datasets && s'.datasets - {h} == s.datasets - {h}
            && s'.datasets[h] == (if h in s.datasets then s.datasets[h] else d)
            && (if id !in s.distributed && Decided(s', id) then PaysOut(s, s', id, StoredFor(s', id))
                else s' == s.(rows := s'.rows, datasets := s'.datasets))
            && s' == s.(rows := s'.rows, datasets := s'.datasets, accountPay := s'.accountPay, distributed := s'.distributed,
                        paid := s'.paid, credited := s'.credited)
  {
    hide SumInt, PayIfAgreed, Winner, Ballots, Token.Inv, RowsOk, Settled, TokensOk, Text, Cpu, SharesTo;
    var s1 := WithUsage(env, s, source, d);
    assert (id in s1.paid <==> id in s1.distributed) by { PaidOnce(s, id); }
    PayIfAgreedSpelled(s1, id);
    SameStored(s1, AddUsage(env, s, source, isOracle, id, d, start).value, id);
  }

  lemma PaidOnce(s: State, id: int)
    requires PayoutsOk(s)
    ensures id in s.paid <==> id in s.distributed
  {
    hide SumInt;
  }

  lemma SameStored(s: State, s': State, id: int)
    requires s'.rows == s.rows && s'.oracles == s.oracles && s'.datasets == s.datasets && s'.threshold == s.threshold
    ensures StoredFor(s', id) == StoredFor(s, id) && (Decided(s', id) <==> Decided(s, id))
  {
  }

  /** Nothing else can refuse a submission: one that passes those checks is accepted, unless it makes
      inflation due and that cannot be issued. */
  lemma SetTotalsSucceeds(env: Env, s: State, source: Name, cpu: int, net: int, maxCpu: int, maxNet: int,
                          commitment: Hash, i: Inflation, names: (Name, Name))
    requires Inv(s) && s.active && source !in s.rows
    requires 0 <= cpu <= maxCpu && 0 <= net < 0x1_0000_0000_0000_0000 && net * 8 % 0x1_0000_0000_0000_0000 <= maxNet
    ensures var s1 := WithTotals(env, s, source, cpu, net, commitment, names);
            var d := StoredFor(s1, 0);
            SetTotals(env, s, source, true, cpu, net, maxCpu, maxNet, commitment, s.periodStart, i, names).Some?
            <==> (!s.inflationDone && Decided(s1, 0) && Winner(s1.rows, s1.oracles, 0).Some? ==>
                    && d != [] && i.ok && i.bppay + i.utility <= 15000000000 && s.token.supply < s.token.maxSupply
                    && 0 < |i.producers| == i.scheduleSize)
  {
    hide SumInt, ModeOf, Issue, Winner, Ballots, Token.Inv, RowsOk, PayoutsOk, Settled, TotalsText;
    var s1 := WithTotals(env, s, source, cpu, net, commitment, names);
    ModeIsWinner(s1.rows, s1.oracles, 0);
    RowsAfterTotals(env, s, source, cpu, net, commitment, names);
    ModeKnown(s1, 0);
    var d := StoredFor(s1, 0);
    if d != [] { IssueSucceeds(s1.(totalCpu := d[0].cpu), i); }
  }

  /** Nor a report: only a payout that would divide by an agreed total of zero can still refuse it. */
  lemma AddUsageSucceeds(env: Env, s: State, source: Name, d: Dataset)
    requires Inv(s) && s.active && s.inflationDone && |d| <= s.batchSize && source in s.rows
    requires (forall i | 0 <= i < |d| :: 0 < d[i].cpu) && s.rows[source].spent + Cpu(d) <= s.rows[source].total
    ensures var s1, id := WithUsage(env, s, source, d), |s.rows[source].hashes|;
            AddUsage(env, s, source, true, id, d, s.periodStart).Some?
            <==> (id !in s.distributed && Decided(s1, id) && StoredFor(s1, id) != [] ==> s.totalCpu != 0)
  {
    hide SumInt, PayIfAgreed, Winner, Ballots, Token.Inv, RowsOk, Settled, TokensOk, Text, Cpu;
    PaidOnce(s, |s.rows[source].hashes|);
    PayIfAgreedSpelled(WithUsage(env, s, source, d), |s.rows[source].hashes|);
  }

  // ----- claims

  /** claimdistrib pays an account all it is owed out of the usage account, and then owes it nothing. */
  lemma ClaimShareSpelled(s: State, account: Name)
    requires Inv(s)
    ensures ClaimDistribution(s, account).Some?
            <==> account != EOSIO_UPAY && 0 < IntAt(s.accountPay, account) <= Token.BalanceOf(s.token.balances, EOSIO_UPAY)
    ensures ClaimDistribution(s, account).Some? ==>
              var s' := ClaimDistribution(s, account).value;
              && Token.Moved(s.token.balances, s'.token.balances, EOSIO_UPAY, account, IntAt(s.accountPay, account))
              && (forall a :: IntAt(s'.accountPay, a) == if a == account then 0 else IntAt(s.accountPay, a))
              && s' == s.(token := s'.token, accountPay := s'.accountPay)
  {
    hide SumInt, RowsOk, PayoutsOk, Settled, Token.Act, Token.Inv;
    Token.ActSpelled(s.token, Token.Pay(EOSIO_UPAY, account, IntAt(s.accountPay, account)));
  }

  /** claimrewards pays a producer all it is owed out of the producers' pay account, which always covers it. */
  lemma ClaimPaySpelled(s: State, owner: Name)
    requires Inv(s)
    ensures ClaimRewards(s, owner).Some? <==> owner != EOSIO_BPAY && 0 < IntAt(s.producerPay, owner)
    ensures ClaimRewards(s, owner).Some? ==>
              var s' := ClaimRewards(s, owner).value;
              && Token.Moved(s.token.balances, s'.token.balances, EOSIO_BPAY, owner, IntAt(s.producerPay, owner))
              && (forall p :: IntAt(s'.producerPay, p) == if p == owner then 0 else IntAt(s.producerPay, p))
              && s' == s.(token := s'.token, producerPay := s'.producerPay)
  {
    hide SumInt, RowsOk, PayoutsOk, Settled, Token.Act, Token.Inv;
    Token.ActSpelled(s.token, Token.Pay(EOSIO_BPAY, owner, IntAt(s.producerPay, owner)));
    IntMember(s.producerPay, owner);
  }

  // ----- the next period

  // The oracles that committed to h and then revealed a list with that hash.
  function Revealers(env: Env, rows: Rows, names: seq<Name>, h: Hash): set<int> {
    set i | 0 <= i < |names| && names[i] in rows && rows[names[i]].commitment == h && env.shaList(rows[names[i]].hashes) == h
  }

  lemma {:induction false} CountFullAppend(env: Env, rows: Rows, names: seq<Name>, n: Name, m: Mode)
    ensures CountFull(env, rows, names + [n], m) == CountFull(env, rows, names, m) + if n in rows && Full(env, rows[n], m) then 1 else 0
    decreases |names|
  {
    if names == [] {
      assert names + [n] == [n];
    } else {
      assert (names + [n])[1..] == names[1..] + [n];
      CountFullAppend(env, rows, names[1..], n, m);
    }
  }

  lemma {:induction false} FullAreRevealers(env: Env, rows: Rows, names: seq<Name>, h: Hash, count: nat)
    ensures CountFull(env, rows, names, Mode(Some(h), count)) == |Revealers(env, rows, names, h)|
    decreases |names|
  {
    if names == [] {
      assert Revealers(env, rows, names, h) == {};
    } else {
      var n := |names| - 1;
      var front := names[..n];
      assert names == front + [names[n]];
      CountFullAppend(env, rows, front, names[n], Mode(Some(h), count));
      FullAreRevealers(env, rows, front, h, count);
      var before, all := Revealers(env, rows, front, h), Revealers(env, rows, names, h);
      assert forall i | 0 <= i < n :: front[i] == names[i];
      assert n !in before;
      if names[n] in rows && Full(env, rows[names[n]], Mode(Some(h), count)) {
        assert all == before + {n};
      } else {
        assert all == before;
      }
    }
  }

  /** nextperiod succeeds exactly when the period is over and enough oracles have revealed the data behind
      the most common commitment; it then clears every submission and payout of the period. */
  lemma NextPeriodSpelled(env: Env, s: State, now: int)
    requires 1 <= s.threshold
    ensures NextPeriod(env, s, now).Some?
            <==> && s.active && s.periodStart + s.periodSeconds <= now && s.threshold <= |s.oracles|
                 && exists h: Hash :: && MostVoted(Commitments(s.rows), s.oracles, 0, h)
                                      && s.threshold <= Ballots(Commitments(s.rows), s.oracles, 0, h)
                                      && s.threshold <= |Revealers(env, s.rows, s.oracles, h)|
    ensures NextPeriod(env, s, now).Some? ==>
              NextPeriod(env, s, now).value
              == s.(datasets := map[], rows := map[], oracles := [], periodStart := s.periodStart + s.periodSeconds,
                    inflationDone := false, distributed := [], paid := map[], credited := 0, advances := s.advances + 1)
  {
    hide ModeOf, Ballots, MostVoted, Revealers, CountFull;
    ModeIsMostVoted(Commitments(s.rows), s.oracles, 0);
    var m := CommitmentMode(s.rows, s.oracles);
    if m.hash.Some? { FullAreRevealers(env, s.rows, s.oracles, m.hash.value, m.count); }
  }

  // ----- runs

  // What an accepted action credits to an account, and what it pays out to it.
  ghost function CreditedNow(s: State, s': State, action: Action, a: Name): int {
    if action.Usage? && action.id in s'.paid && action.id !in s.paid && StoredFor(s', action.id) != [] && s.totalCpu != 0
    then SharesTo(StoredFor(s', action.id), a, s.totalCpu, s.utility) else 0
  }

  ghost function CollectedNow(s: State, action: Action, a: Name): int {
    if action.ClaimShare? && action.account == a then IntAt(s.accountPay, a) else 0
  }

  /** An account's balance moves by the shares of its own entries and by its own claims only. */
  lemma ActPays(env: Env, s: State, action: Action, a: Name)
    requires Inv(s) && Act(env, s, action).Some?
    ensures var s' := Act(env, s, action).value;
            IntAt(s'.accountPay, a) == IntAt(s.accountPay, a) + CreditedNow(s, s', action, a) - CollectedNow(s, action, a)
  {
    hide Inv, SetTotals, AddUsage, NextPeriod, ClaimDistribution, ClaimRewards, StoredFor, SharesTo, Token.Act;
    var s' := Act(env, s, action).value;
    match action
    case Totals(source, isOracle, cpu, net, maxCpu, maxNet, commitment, start, i, names) => TotalsPayNobody(env, s, action);
    case Usage(source, isOracle, id, d, start) =>
      AddUsageSpelled(env, s, source, isOracle, id, d, start);
      UsagePays(s, s', id, a);
    case Advance(now) => AdvancePaysNobody(env, s, now);
    case ClaimShare(account) => ClaimShareSpelled(s, account);
    case ClaimPay(owner) => ClaimPaySpelled(s, owner);
    case Activate(active) =>
    case TokenAction(ta) =>
  }

  lemma UsagePays(s: State, s': State, id: int, a: Name)
    requires Inv(s)
    requires if id !in s.distributed && Decided(s', id) then PaysOut(s, s', id, StoredFor(s', id))
             else s' == s.(rows := s'.rows, datasets := s'.datasets)
    ensures IntAt(s'.accountPay, a)
         == IntAt(s.accountPay, a)
            + if id in s'.paid && id !in s.paid && StoredFor(s', id) != [] && s.totalCpu != 0
              then SharesTo(StoredFor(s', id), a, s.totalCpu, s.utility) else 0
  {
    hide RowsOk, Settled, TokensOk, SumInt, StoredFor, SharesTo, Cpu, Winner, Ballots;
    PaidOnce(s, id);
  }

  lemma TotalsPayNobody(env: Env, s: State, a: Action)
    requires a.Totals? && Act(env, s, a).Some?
    ensures Act(env, s, a).value.accountPay == s.accountPay
  {
    hide Issue, ModeOf, TotalsText;
    IssueKeepsVotes(a.inflation);
  }

  lemma AdvancePaysNobody(env: Env, s: State, now: int)
    requires NextPeriod(env, s, now).Some?
    ensures NextPeriod(env, s, now).value.accountPay == s.accountPay
  {
    hide FullReveals;
  }

  ghost function CreditedInRun(env: Env, s: State, acts: seq<Action>, a: Name): int
    decreases |acts|
  {
    if acts == [] then 0 else
    (if Act(env, s, acts[0]).Some? then CreditedNow(s, Next(env, s, acts[0]), acts[0], a) else 0)
    + CreditedInRun(env, Next(env, s, acts[0]), acts[1..], a)
  }

  ghost function CollectedInRun(env: Env, s: State, acts: seq<Action>, a: Name): int
    decreases |acts|
  {
    if acts == [] then 0 else
    (if Act(env, s, acts[0]).Some? then CollectedNow(s, acts[0], a) else 0) + CollectedInRun(env, Next(env, s, acts[0]), acts[1..], a)
  }

  lemma {:induction false} RunPays(env: Env, s: State, acts: seq<Action>, s': State, a: Name)
    requires Inv(s) && IsRun(env, s, acts, s')
    ensures IntAt(s'.accountPay, a) + CollectedInRun(env, s, acts, a) == IntAt(s.accountPay, a) + CreditedInRun(env, s, acts, a)
    decreases |acts|
  {
    hide Inv, Act, CreditedNow, CollectedNow;
    if acts != [] {
      NextKeeps(env, s, acts[0]);
      if Act(env, s, acts[0]).Some? { ActPays(env, s, acts[0], a); }
      RunPays(env, Next(env, s, acts[0]), acts[1..], s', a);
    }
  }

  /** Over any run from a fresh state what an account is owed and has collected is just the shares of its
      own entries in the datasets paid. */
  lemma PayOfEveryRun(env: Env, threshold: nat, batchSize: nat, start: int, seconds: nat, token: Token.State,
                      acts: seq<Action>, s: State, a: Name)
    requires Token.Inv(token) && token.issuer == EOSIO
    requires IsRun(env, Fresh(threshold, batchSize, start, seconds, token), acts, s)
    ensures var s0 := Fresh(threshold, batchSize, start, seconds, token);
            IntAt(s.accountPay, a) + CollectedInRun(env, s0, acts, a) == CreditedInRun(env, s0, acts, a)
  {
    hide Inv, IsRun, CreditedInRun, CollectedInRun;
    var s0 := Fresh(threshold, batchSize, start, seconds, token);
    FreshInv(threshold, batchSize, start, seconds, token);
    RunPays(env, s0, acts, s, a);
  }
}
