/** Drops on the way to a proxy need two rates close together.  stake2vote grows in weekly steps; once
    two different rates of a run are more than 1 apart, proxies' tallies are exact. */
module VotingRates {
  import opened Common
  import opened Sums
  import opened Voting
  import opened VotingChains
  import opened VotingTallies
  import opened VotingRuns
  import opened VotingActions
  import opened VotingMachine
  import opened VotingAborts

  ghost predicate Spread(ws: set<real>) {
    forall x, y | x in ws && y in ws && x != y :: 1.0 < Abs(x - y)
  }

  // What the row lends is its stake at one of the rates.
  ghost predicate Seen(r: Voter, ws: set<real>) {
    r.proxy.Some? ==> exists w | w in ws :: r.last == Times(w)(r.staked as real)
  }

  ghost predicate SeenBelow(s: State, ws: set<real>, n: nat) {
    s.rank.Keys == s.voters.Keys && forall x | x in s.voters && s.rank[x] <= n :: Seen(s.voters[x], ws)
  }

  ghost predicate SeenExcept(s: State, ws: set<real>, skip: set<Name>) {
    forall x | x in s.voters && x !in skip :: Seen(s.voters[x], ws)
  }

  lemma ExceptIsBelow(s: State, ws: set<real>, v: Name, n: nat)
    requires Ranked(s) && v in s.voters && SeenExcept(s, ws, {v}) && n < s.rank[v]
    ensures SeenBelow(s, ws, n)
  {
  }

  lemma SmallIsNone(w: real, w0: real, n: int)
    requires 0 <= n && (w == w0 || 1.0 < Abs(w - w0)) && Abs(Times(w)(n as real) - Times(w0)(n as real)) <= 1.0
    ensures Times(w)(n as real) == Times(w0)(n as real)
  {
    assert Times(w)(n as real) - Times(w0)(n as real) == (w - w0) * n as real;
    if w != w0 && 0 < n { FarApart(w - w0, n); }
  }

  lemma FarApart(d: real, n: int)
    requires 0 < n && 1.0 < Abs(d)
    ensures 1.0 < Abs(d * n as real)
  {
    if 0.0 < d {
      assert d * n as real >= d;
    } else {
      assert (-d) * n as real >= -d;
    }
  }

  // A row with a proxy whose weight moves by at most 1 does not move at all.
  lemma NoSmallChange(r: Voter, w: real, ws: set<real>)
    requires Seen(r, ws) && Spread(ws) && w in ws && RowOk(r) && r.proxy.Some?
    requires Abs(Weight(r, w) - r.last) <= 1.0
    ensures DropOf(r, Weight(r, w)) == 0.0
  {
    hide Times, Weight, Backs;
    StakeWeight(r, w);
    var w0: real :| w0 in ws && r.last == Times(w0)(r.staked as real);
    SmallIsNone(w, w0, r.staked);
  }

  lemma CarrySeen(s: State, v: Name, ws: set<real>)
    requires Ranked(s) && v in s.voters && SeenBelow(s, ws, s.rank[v]) && s.voters[v].proxy.Some?
    ensures var z := s.voters[v].proxy.value;
            z in s.voters && z in s.rank && SeenBelow(Carry(s, v), ws, s.rank[z])
  {
    hide Weight, Seen;
    CarryFields(s, v);
    RankedAt(s, v);
    var z, s1 := s.voters[v].proxy.value, Carry(s, v);
    forall x | x in s1.voters && s1.rank[x] <= s.rank[z]
      ensures Seen(s1.voters[x], ws)
    {
      assert Seen(s.voters[x], ws);
      LentPlaysNoPart(s.voters[x], s1.voters[x], ws);
    }
  }

  lemma LentPlaysNoPart(r: Voter, r': Voter, ws: set<real>)
    requires r' == r.(proxied := r'.proxied) && Seen(r, ws)
    ensures Seen(r', ws)
  {
  }

  /** No change is dropped on its way to a proxy. */
  lemma {:induction false} PropagateUnlent(s: State, v: Name, ws: set<real>)
    requires Ranked(s) && RowsFine(s) && v in s.voters
    requires Spread(ws) && s.stakeRate in ws && SeenBelow(s, ws, s.rank[v])
    ensures Propagate(s, v).Some? ==> Propagate(s, v).value.lent == s.lent
    decreases s.rank[v]
  {
    hide Propagate, Weight, ApplyChanges, SameStructure, Ranked, Carry, Abs, RowOk, Spread, DropOf, Seen;
    RankedAt(s, v);
    PropagateCases(s, v);
    var r := s.voters[v];
    assert RowOk(r) && Seen(r, ws);
    if Abs(Weight(r, s.stakeRate) - r.last) <= 1.0 {
      if r.proxy.Some? { NoSmallChange(r, s.stakeRate, ws); }
    } else if r.proxy.Some? {
      CarryFields(s, v);
      CarrySeen(s, v, ws);
      CarryKeepsStructure(s, v);
      StructureKeepsRows(s, Carry(s, v));
      CarryKeepsKeys(s, v);
      PropagateUnlent(Carry(s, v), r.proxy.value, ws);
    } else {
      ApplyOnlyClamps(Carry(s, v), SameForAll(r.producers, Weight(r, s.stakeRate) - r.last), false);
      assert Carry(s, v).lent == s.lent by { CarryAlone(s, v); }
    }
  }

  lemma CarryAlone(s: State, v: Name)
    requires Ranked(s) && v in s.voters && s.voters[v].proxy.None?
    ensures Carry(s, v).lent == s.lent
  {
  }

  lemma LendUnlent(s: State, q: Name, x: real, ws: set<real>)
    requires Ranked(s) && RowsFine(s) && q in s.voters
    requires Spread(ws) && s.stakeRate in ws && SeenBelow(s, ws, s.rank[q])
    ensures Lend(s, q, x).Some? ==> Lend(s, q, x).value.lent == s.lent
  {
    hide Propagate, RowOk, Spread, SameStructure, Seen;
    var s1 := AddProxied(s, q, x);
    assert SameStructure(s, s1) by { LendKeepsStructure(s, q, x); }
    StructureKeepsOrder(s, s1);
    StructureKeepsRows(s, s1);
    forall y | y in s1.voters && s1.rank[y] <= s.rank[q]
      ensures Seen(s1.voters[y], ws)
    {
      LentPlaysNoPart(s.voters[y], s1.voters[y], ws);
    }
    assert s1.rank.Keys == s1.voters.Keys;
    PropagateUnlent(s1, q, ws);
  }

  lemma LendKeepsStructure(s: State, q: Name, x: real)
    requires q in s.voters
    ensures SameStructure(s, AddProxied(s, q, x))
  {
  }

  lemma RefreshedKeepsSeen(s: State, s': State, ws: set<real>, skip: set<Name>)
    requires RowsFine(s) && SameStructure(s, s') && Refreshed(s, s') && s.stakeRate in ws && SeenExcept(s, ws, skip)
    ensures SeenExcept(s', ws, skip)
  {
    hide Times, Weight;
    forall x | x in s'.voters && x !in skip
      ensures Seen(s'.voters[x], ws)
    {
      var r, r' := s.voters[x], s'.voters[x];
      assert Seen(r, ws) && RowOk(r);
      assert r' == r.(last := r'.last, proxied := r'.proxied);
      StakeWeightOf(r', s.stakeRate);
    }
  }

  lemma StakeWeightOf(r: Voter, w: real)
    ensures 0 <= r.staked && !r.isProxy ==> Weight(r, w) == Times(w)(r.staked as real)
  {
  }

  // ----- a vote

  lemma BeginVoteSeen(s: State, v: Name, proxy: Option<Name>, voting: bool, ws: set<real>)
    requires Shape(s) && v in s.voters && ProxyOk(s, proxy, voting)
    requires Spread(ws) && s.stakeRate in ws && SeenExcept(s, ws, {v})
    ensures BeginVote(s, v, proxy, voting).Some? ==>
              var s' := BeginVote(s, v, proxy, voting).value;
              SeenExcept(s', ws, {v}) && s'.lent == s.lent && s'.stakeRate == s.stakeRate
  {
    hide Lend, SameStructure, RowOk, Ranked, Seen, Spread, Rerank, Refreshed;
    var r := s.voters[v];
    var s0 := Activate(s, r);
    ActivatedFits(s, v);
    RankedAt(s, v);
    var o := Withdraw(s0, r);
    if o.Some? {
      if r.proxy.Some? {
        ExceptIsBelow(s0, ws, v, s.rank[r.proxy.value]);
        LendUnlent(s0, r.proxy.value, -r.last, ws);
      }
      WithdrawRefreshes(s0, r);
      RefreshedKeepsSeen(s0, o.value, ws, {v});
      StructureKeys(s0, o.value);
      RerankOnly(o.value, proxy);
    }
  }

  lemma RerankOnly(s: State, proxy: Option<Name>)
    ensures Rerank(s, proxy) == s.(rank := Rerank(s, proxy).rank)
  {
  }

  lemma EndorseSeen(s: State, v: Name, proxy: Option<Name>, nw: real, ws: set<real>)
    requires Ranked(s) && RowsFine(s) && v in s.voters
    requires proxy.Some? ==> proxy.value in s.voters && s.rank[proxy.value] < s.rank[v]
    requires Spread(ws) && s.stakeRate in ws && SeenExcept(s, ws, {v})
    ensures Endorse(s, proxy, nw).Some? ==>
              var s' := Endorse(s, proxy, nw).value;
              SeenExcept(s', ws, {v}) && s'.lent == s.lent
  {
    hide Lend, SameStructure, RowOk, Ranked, Seen, Spread, Refreshed;
    if Endorse(s, proxy, nw).Some? {
      if proxy.Some? {
        RankedAt(s, proxy.value);
        RankedAt(s, v);
        ExceptIsBelow(s, ws, v, s.rank[proxy.value]);
        LendUnlent(s, proxy.value, nw, ws);
      }
      EndorseRefreshes(s, proxy, nw);
      RefreshedKeepsSeen(s, Endorse(s, proxy, nw).value, ws, {v});
    }
  }

  lemma CompleteVoteSeen(s: State, v: Name, r: Voter, proxy: Option<Name>, producers: seq<Name>, ws: set<real>)
    requires Ranked(s) && RowsFine(s) && v in s.voters && s.voters[v] == r && (proxy.Some? ==> !r.isProxy)
    requires proxy.Some? ==> proxy.value in s.voters && s.rank[proxy.value] < s.rank[v]
    requires Spread(ws) && s.stakeRate in ws && SeenExcept(s, ws, {v})
    ensures var o := CompleteVote(s, v, r, proxy, producers, Weight(r, s.stakeRate));
            o.Some? ==> SeenExcept(o.value, ws, {}) && o.value.lent == s.lent
  {
    hide Endorse, SameStructure, RowOk, Ranked, Spread, ApplyChanges, BallotChanges, Times;
    var nw := Weight(r, s.stakeRate);
    EndorseSeen(s, v, proxy, nw, ws);
    var o := CompleteVote(s, v, r, proxy, producers, nw);
    if o.Some? {
      var s1 := Endorse(s, proxy, nw).value;
      ApplyOnlyClamps(s1, BallotChanges(r, producers, nw), true);
      StructureStakes(s, s1);
      forall x | x in o.value.voters
        ensures Seen(o.value.voters[x], ws)
      {
        assert x != v ==> Seen(s1.voters[x], ws);
      }
    }
  }

  lemma StructureStakes(s: State, s': State)
    requires SameStructure(s, s')
    ensures s'.voters.Keys == s.voters.Keys && forall v | v in s.voters :: s'.voters[v].staked == s.voters[v].staked
  {
  }

  lemma UpdateVotesSeen(s: State, v: Name, proxy: Option<Name>, producers: seq<Name>, voting: bool, ws: set<real>)
    requires Inv(s) && (voting || Renewal(s, v, proxy, producers))
    requires Spread(ws) && s.stakeRate in ws && SeenExcept(s, ws, {v})
    ensures var o := UpdateVotes(s, v, proxy, producers, voting);
            o.Some? ==> SeenExcept(o.value, ws, {}) && o.value.lent == s.lent
  {
    hide Sound, Weight, BeginVote, CompleteVote, BallotOk, Ranked, RowOk, Spread, SeenExcept, PlainOk, Electable;
    if UpdateVotes(s, v, proxy, producers, voting).Some? {
      var s1 := BeginVote(s, v, proxy, voting).value;
      BeginVoteKeeps(s, v, proxy, producers, voting);
      BeginVoteSeen(s, v, proxy, voting, ws);
      CompleteVoteSeen(s1, v, s.voters[v], proxy, producers, ws);
    }
  }

  // ----- the other actions

  lemma FlipSeen(s: State, v: Name, isProxy: bool, ws: set<real>)
    requires Shape(s) && v in s.voters && SeenExcept(s, ws, {}) && !(isProxy && s.voters[v].proxy.Some?)
    ensures var s1 := s.(voters := s.voters[v := s.voters[v].(isProxy := isProxy)]);
            SeenExcept(s1, ws, {}) && SeenBelow(s1, ws, s.rank[v]) && Ranked(s1) && RowsFine(s1)
  {
    hide Times;
    var s1 := s.(voters := s.voters[v := s.voters[v].(isProxy := isProxy)]);
    forall x | x in s1.voters
      ensures Seen(s1.voters[x], ws) && RowOk(s1.voters[x])
    {
      assert Seen(s.voters[x], ws) && RowOk(s.voters[x]);
    }
  }

  lemma RegProxySeen(s: State, v: Name, isProxy: bool, ws: set<real>)
    requires Shape(s) && Spread(ws) && s.stakeRate in ws && SeenExcept(s, ws, {})
    ensures RegProxy(s, v, isProxy).Some? ==>
              var s' := RegProxy(s, v, isProxy).value;
              SeenExcept(s', ws, {}) && s'.lent == s.lent
  {
    hide Propagate, RowOk, Spread, Seen, Refreshed, Reached, Ranked, SeenBelow, SameStructure;
    if v !in s.voters {
      NewRowSeen(s, v, NEW_VOTER.(isProxy := isProxy), ws);
    } else if RegProxy(s, v, isProxy).Some? {
      var s1 := s.(voters := s.voters[v := s.voters[v].(isProxy := isProxy)]);
      FlipSeen(s, v, isProxy, ws);
      PropagateUnlent(s1, v, ws);
      PropagateRefreshes(s1, v);
      PropagateFrame(s1, v);
      assert SameStructure(s1, Propagate(s1, v).value) by {
        RankKeys(s1);
        ReachedStructure(s1, Propagate(s1, v).value, v);
      }
      RefreshedKeepsSeen(s1, Propagate(s1, v).value, ws, {});
    }
  }

  lemma ReachedStructure(s: State, s': State, v: Name)
    requires v in s.voters && s.rank.Keys == s.voters.Keys && Reached(s, s', v, Weight(s.voters[v], s.stakeRate))
    ensures SameStructure(s, s')
  {
  }

  lemma NewRowSeen(s: State, v: Name, r: Voter, ws: set<real>)
    requires SeenExcept(s, ws, {v}) && r.proxy.None?
    ensures SeenExcept(s.(voters := s.voters[v := r], rank := s.rank[v := 0]), ws, {})
  {
    hide Times;
  }

  lemma UpdateVotingPowerSeen(s: State, v: Name, delta: int, ws: set<real>)
    requires Inv(s) && Spread(ws) && s.stakeRate in ws && SeenExcept(s, ws, {})
    ensures UpdateVotingPower(s, v, delta).Some? ==>
              var s' := UpdateVotingPower(s, v, delta).value;
              SeenExcept(s', ws, {}) && s'.lent == s.lent
  {
    hide Sound, UpdateVotes, RowOk, Ranked, Spread, Seen, PlainOk;
    if UpdateVotingPower(s, v, delta).Some? {
      if v in s.voters {
        var r, s1 := s.voters[v], Restaked(s, v, delta);
        StakedRowKeeps(s, v, r.staked + delta);
        RestakedFits(s, v, delta);
        if Backs(r) {
          UpdateVotesSeen(s1, v, r.proxy, r.producers, false, ws);
        } else {
          RestakedSeen(s, v, delta, ws);
        }
      } else {
        NewRowSeen(s, v, NEW_VOTER.(staked := delta), ws);
      }
    }
  }

  lemma RestakedSeen(s: State, v: Name, delta: int, ws: set<real>)
    requires v in s.voters && s.voters[v].proxy.None? && SeenExcept(s, ws, {})
    requires Shape(s) && !Backs(s.voters[v]) && UpdateVotingPower(s, v, delta).Some?
    ensures SeenExcept(UpdateVotingPower(s, v, delta).value, ws, {}) && UpdateVotingPower(s, v, delta).value.lent == s.lent
  {
    hide UpdateVotes, RowOk, Ranked, Times;
  }

  lemma NextSeen(s: State, e: Event, ws: set<real>)
    requires Inv(Tick(s, e)) && Spread(ws) && e.rate in ws && SeenExcept(s, ws, {})
    ensures SeenExcept(Next(s, e), ws, {}) && Next(s, e).lent == s.lent
  {
    hide UpdateVotes, RegProxy, UpdateVotingPower, Ranked, RowOk, Seen, Spread, Sound, PlainOk;
    var t := Tick(s, e);
    match e.action
    case Vote(v, proxy, producers) => UpdateVotesSeen(t, v, proxy, producers, true, ws);
    case SetProxy(v, isProxy) => RegProxySeen(t, v, isProxy, ws);
    case ChangeStake(v, delta) => UpdateVotingPowerSeen(t, v, delta, ws);
    case Register(p) =>
    case Unregister(p) =>
  }

  // ----- runs

  ghost predicate RatesIn(es: seq<Event>, ws: set<real>) {
    forall i | 0 <= i < |es| :: es[i].rate in ws
  }

  lemma LentNotNegative(s: State, q: Name)
    requires Inv(s) && s.lent == 0.0 && q in s.voters
    ensures s.voters[q].proxied == SumReal(LentTo(s.voters, q)) && 0.0 <= s.voters[q].proxied
    ensures 0.0 <= Weight(s.voters[q], s.stakeRate)
  {
    hide SumReal, VotingIndex.IndexOk, Clean, TotalTallied, ProducersTallied, Weight, Ranked;
    assert Near(s.voters[q].proxied, SumReal(LentTo(s.voters, q)), LentLoss(s, Loss(s)));
    RealNonNegative(LentTo(s.voters, q));
    assert RowOk(s.voters[q]);
    NoneNegative(s.voters[q], s.stakeRate);
  }

  lemma NoneNegative(r: Voter, w: real)
    requires 0 <= r.staked && 0.0 < w && 0.0 <= r.proxied
    ensures 0.0 <= Weight(r, w)
  {
    assert 0.0 <= w * r.staked as real;
  }

  lemma {:induction false} RunSeen(s: State, es: seq<Event>, s': State, ws: set<real>)
    requires Inv(s) && Listed(s) && IsRun(s, es, s') && s.lent == 0.0
    requires Spread(ws) && RatesIn(es, ws) && SeenExcept(s, ws, {})
    ensures SeenExcept(s', ws, {}) && s'.lent == 0.0 && Listed(s')
    decreases |es|
  {
    hide Inv, Next, Shape, Listed, Spread, SeenExcept, Weight;
    if es != [] {
      var e := es[0];
      NextKeeps(s, e);
      NextSeen(s, e, ws);
      var t := Tick(s, e);
      if e.action.Vote? && e.action.voter in t.voters { LentNotNegative(t, e.action.voter); }
      NextKeepsListed(s, e);
      RunSeen(Next(s, e), es[1..], s', ws);
    }
  }

  /** When any two rates of a run are equal or more than 1 apart, nothing is ever dropped on its way
      to a proxy: each proxy's tally is exactly what is lent to it, no weight is negative, and an
      action aborts only on the checks it states. */
  lemma SpreadRuns(now: int, rate: real, es: seq<Event>, s: State, e: Event, ws: set<real>)
    requires 0 < now && 0.0 < rate && IsRun(Genesis(now, rate), es, s) && Orderly(s, e)
    requires Spread(ws) && RatesIn(es, ws)
    ensures s.lent == 0.0
    ensures forall q | q in s.voters ::
              s.voters[q].proxied == SumReal(LentTo(s.voters, q)) && 0.0 <= Weight(s.voters[q], s.stakeRate)
    ensures Shape(Tick(s, e)) && (Act(Tick(s, e), e.action).Some? <==> Permitted(Tick(s, e), e.action))
  {
    hide Inv, IsRun, Act, Permitted, Listed, Spread, Weight, RatesIn, Shape, LentTo, SumReal;
    var s0 := Genesis(now, rate);
    GenesisInv(now, rate);
    EmptyListed(now, rate);
    RunKeeps(s0, es, s);
    RunSeen(s0, es, s, ws);
    forall q | q in s.voters
      ensures s.voters[q].proxied == SumReal(LentTo(s.voters, q)) && 0.0 <= Weight(s.voters[q], s.stakeRate)
    {
      LentNotNegative(s, q);
    }
    NextKeeps(s, e);
    assert Shape(Tick(s, e)) by { InvHasShape(Tick(s, e)); }
    MoreProducersListed(s, Tick(s, e));
    ActSucceeds(Tick(s, e), e.action);
  }

  lemma InvHasShape(s: State)
    requires Inv(s)
    ensures Shape(s)
  {
  }
}
