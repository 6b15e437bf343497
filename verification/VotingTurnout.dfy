/** Whose stake activates the chain: on spread rates, before anything is unstaked, no account's stake
    counts twice. */
module VotingTurnout {
  import opened Common
  import opened Sums
  import opened Voting
  import opened VotingChains
  import opened VotingTallies
  import opened VotingRuns
  import opened VotingActions
  import opened VotingMachine
  import opened VotingAborts
  import opened VotingRates
  import opened VotingExact
  import opened VotingExactRuns
  import opened VotingActivation
  import VotingEffects

  // The stake of an account whose vote has weight.
  function CountedOf(r: Voter): int {
    if 0.0 < r.last then r.staked else 0
  }

  ghost function Counted(voters: map<Name, Voter>): map<Name, int> {
    map v | v in voters :: CountedOf(voters[v])
  }

  /** The stake of all accounts whose votes have weight. */
  ghost function Turnout(s: State): int {
    SumInt(Counted(s.voters))
  }

  // No row counts less than before, and v's counts n more.
  ghost predicate CountsMore(s: State, s': State, v: Name, n: int) {
    && s.voters.Keys <= s'.voters.Keys <= s.voters.Keys + {v}
    && (v in s'.voters && v !in s.voters ==> n <= CountedOf(s'.voters[v]))
    && (v !in s'.voters ==> n <= 0)
    && forall x | x in s.voters :: CountedOf(s.voters[x]) + (if x == v then n else 0) <= CountedOf(s'.voters[x])
  }

  lemma CountsAdd(s: State, s': State, v: Name, n: int)
    requires CountsMore(s, s', v, n)
    ensures Turnout(s) + n <= Turnout(s')
  {
    hide SumInt, CountedOf;
    var a, b := Counted(s.voters), Counted(s'.voters);
    if v in s'.voters {
      var a' := a[v := IntAt(a, v) + n];
      IntChange(a, a', v);
      IntMonotone(a', b);
    } else {
      IntMonotone(a, b);
    }
  }

  // A row that is up to date counts its stake in full, as nothing lent to it is negative.
  lemma UpToDateCounts(r: Voter, w: real)
    requires 0 <= r.staked && 0.0 < w && 0.0 <= r.proxied && r.last == Weight(r, w)
    ensures CountedOf(r) == r.staked
  {
    if 0 < r.staked {
      assert 0.0 < w * r.staked as real;
    }
  }

  // Nothing is lent out of nothing: no proxy's tally is negative.
  ghost predicate LoansPositive(s: State) {
    0.0 < s.stakeRate && forall x | x in s.voters :: 0.0 <= s.voters[x].proxied && 0 <= s.voters[x].staked
  }

  lemma UnlentPositive(s: State)
    requires Inv(s) && s.lent == 0.0
    ensures LoansPositive(s)
  {
    hide Sound, RowOk, Ranked, PlainOk, Weight;
    forall x | x in s.voters
      ensures 0.0 <= s.voters[x].proxied && 0 <= s.voters[x].staked
    {
      LentNotNegative(s, x);
      RowStaked(s, x);
    }
  }

  lemma RowStaked(s: State, x: Name)
    requires Shape(s) && x in s.voters
    ensures 0 <= s.voters[x].staked
  {
    assert RowOk(s.voters[x]);
  }

  lemma UpToDateAt(s: State, x: Name)
    requires LoansPositive(s) && x in s.voters && UpToDate(s, x)
    ensures CountedOf(s.voters[x]) == s.voters[x].staked
  {
    UpToDateCounts(s.voters[x], s.stakeRate);
  }

  // ----- one action

  // A step that leaves every row but v's as it was or up to date.
  lemma OthersCount(s: State, s': State, v: Name)
    requires RefreshedBut(s, s', v) && LoansPositive(s')
    requires forall x | x in s.voters && x != v :: 0 <= s.voters[x].staked == s'.voters[x].staked
    ensures forall x | x in s.voters && x != v :: CountedOf(s.voters[x]) <= CountedOf(s'.voters[x])
  {
    hide CountedOf, Weight;
    forall x | x in s.voters && x != v
      ensures CountedOf(s.voters[x]) <= CountedOf(s'.voters[x])
    {
      CountedAtMost(s.voters[x]);
      if s'.voters[x] != s.voters[x] { UpToDateAt(s', x); }
    }
  }

  lemma CountedAtMost(r: Voter)
    requires 0 <= r.staked
    ensures 0 <= CountedOf(r) <= r.staked
  {
  }

  lemma VoteCounts(s: State, v: Name, proxy: Option<Name>, ps: seq<Name>, voting: bool)
    requires Inv(s) && (voting || Renewal(s, v, proxy, ps)) && UpdateVotes(s, v, proxy, ps, voting).Some?
    requires UpdateVotes(s, v, proxy, ps, voting).value.lent == 0.0
    ensures CountsMore(s, UpdateVotes(s, v, proxy, ps, voting).value, v, FirstStake(s, v))
  {
    hide Sound, UpdateVotes, Ranked, RowOk, PlainOk, RefreshedBut, Weight, LoansPositive;
    var s' := UpdateVotes(s, v, proxy, ps, voting).value;
    UpdateVotesKeeps(s, v, proxy, ps, voting);
    VoteKeepsOthers(s, v, proxy, ps, voting);
    VoteRefreshes(s, v, proxy, ps, voting);
    UnlentPositive(s');
    StakesNotNegative(s);
    OthersCount(s, s', v);
    RefreshedKeys(s, s', v);
    VoterUpToDate(s, s', v, proxy, ps);
    UpToDateAt(s', v);
  }

  lemma VoterUpToDate(s: State, s': State, v: Name, proxy: Option<Name>, ps: seq<Name>)
    requires v in s.voters && v in s'.voters && s'.stakeRate == s.stakeRate
    requires s'.voters[v] == s.voters[v].(last := Weight(s.voters[v], s.stakeRate), producers := ps, proxy := proxy)
    ensures UpToDate(s', v)
  {
  }

  lemma RefreshedKeys(s: State, s': State, v: Name)
    requires RefreshedBut(s, s', v)
    ensures s'.voters.Keys == s.voters.Keys && s'.stakeRate == s.stakeRate
  {
  }

  lemma StakesNotNegative(s: State)
    requires Shape(s)
    ensures forall x | x in s.voters :: 0 <= s.voters[x].staked
  {
    forall x | x in s.voters ensures 0 <= s.voters[x].staked { RowStaked(s, x); }
  }

  lemma RegProxyRefreshes(s: State, v: Name, isProxy: bool)
    requires Inv(s) && v in s.voters && RegProxy(s, v, isProxy).Some?
    ensures RefreshedBut(s, RegProxy(s, v, isProxy).value, v)
  {
    hide Sound, Propagate, RowOk, PlainOk, Weight, RefreshedBut, Refreshed;
    var s1, s' := Flipped(s, v, isProxy), RegProxy(s, v, isProxy).value;
    FlipRanked(s, v, isProxy);
    PropagateRefreshes(s1, v);
    PropagateFrame(s1, v);
    ReachedKeys(s1, s', v);
    RefreshedFlip(s, s1, s', v);
  }

  lemma RegProxyCounts(s: State, v: Name, isProxy: bool)
    requires Inv(s) && s.lent == 0.0 && RegProxy(s, v, isProxy).Some? && RegProxy(s, v, isProxy).value.lent == 0.0
    ensures CountsMore(s, RegProxy(s, v, isProxy).value, v, 0)
  {
    hide Sound, RegProxy, Ranked, RowOk, PlainOk, RefreshedBut, LoansPositive, CountedOf;
    var s' := RegProxy(s, v, isProxy).value;
    RegProxyKeeps(s, v, isProxy);
    VotingEffects.RegProxySpelled(s, v, isProxy);
    if v in s.voters {
      UnlentPositive(s);
      LoanAt(s, v);
      UnlentPositive(s');
      StakesNotNegative(s);
      RegProxyRefreshes(s, v, isProxy);
      OthersCount(s, s', v);
      FlippedCounts(s.voters[v], s'.voters[v], s.stakeRate);
    } else {
      NewRow(s, v, isProxy);
      NewRowCounts(s, s', v);
    }
  }

  lemma NewRow(s: State, v: Name, isProxy: bool)
    requires Shape(s) && v !in s.voters && RegProxy(s, v, isProxy).Some?
    ensures RegProxy(s, v, isProxy).value.voters - {v} == s.voters
  {
  }

  lemma NewRowCounts(s: State, s': State, v: Name)
    requires v !in s.voters && s'.voters.Keys == s.voters.Keys + {v} && s'.voters[v].last <= 0.0
    requires s'.voters - {v} == s.voters
    ensures CountsMore(s, s', v, 0)
  {
  }

  lemma LoanAt(s: State, x: Name)
    requires LoansPositive(s) && x in s.voters
    ensures 0.0 < s.stakeRate && 0.0 <= s.voters[x].proxied
  {
  }

  lemma RefreshedFlip(s: State, s1: State, s': State, v: Name)
    requires Refreshed(s1, s') && s'.voters.Keys == s.voters.Keys && v in s.voters
    requires v in s1.voters && s1.voters == s.voters[v := s1.voters[v]] && s1.stakeRate == s.stakeRate
    ensures RefreshedBut(s, s', v)
  {
    hide Weight;
  }

  lemma FlippedCounts(r: Voter, r': Voter, w: real)
    requires 0 <= r.staked == r'.staked && 0.0 <= r.proxied && 0.0 < w
    requires r'.last == w * r.staked as real + if r'.isProxy then r.proxied else 0.0
    ensures CountedOf(r) <= CountedOf(r')
  {
    if 0 < r.staked { assert 0.0 < w * r.staked as real; }
  }

  lemma StakeCounts(s: State, v: Name, delta: int)
    requires Inv(s) && 0 <= delta && UpdateVotingPower(s, v, delta).Some? && UpdateVotingPower(s, v, delta).value.lent == 0.0
    ensures CountsMore(s, UpdateVotingPower(s, v, delta).value, v, NewlyVoting(s, ChangeStake(v, delta)))
  {
    hide Sound, UpdateVotes, Ranked, RowOk, PlainOk, Vested, Weight;
    StakesNotNegative(s);
    if v in s.voters {
      var r, s1 := s.voters[v], Restaked(s, v, delta);
      StakedRowKeeps(s, v, r.staked + delta);
      RestakedFits(s, v, delta);
      if Backs(r) {
        VoteCounts(s1, v, r.proxy, r.producers, false);
        RestakedCounts(s, s1, UpdateVotingPower(s, v, delta).value, v, delta);
      }
    }
  }

  lemma RestakedCounts(s: State, s1: State, s': State, v: Name, delta: int)
    requires 0 <= delta && v in s.voters && s1 == Restaked(s, v, delta) && CountsMore(s1, s', v, FirstStake(s1, v))
    requires Backs(s.voters[v])
    ensures CountsMore(s, s', v, NewlyVoting(s, ChangeStake(v, delta)))
  {
  }

  // The action takes no stake away.
  predicate StakesMore(a: Action) {
    a.ChangeStake? ==> 0 <= a.delta
  }

  lemma ActCounts(s: State, a: Action)
    requires Inv(s) && s.lent == 0.0 && StakesMore(a) && Act(s, a).Some? && Act(s, a).value.lent == 0.0
    ensures Turnout(s) + NewlyVoting(s, a) <= Turnout(Act(s, a).value)
  {
    hide Sound, UpdateVotes, RegProxy, UpdateVotingPower, Ranked, RowOk, PlainOk, Turnout, CountsMore, RegisterProducer;
    var s' := Act(s, a).value;
    match a
    case Vote(v, proxy, ps) =>
      VoteCounts(s, v, proxy, ps, true);
      CountsAdd(s, s', v, FirstStake(s, v));
    case SetProxy(v, isProxy) =>
      RegProxyCounts(s, v, isProxy);
      CountsAdd(s, s', v, 0);
    case ChangeStake(v, delta) =>
      StakeCounts(s, v, delta);
      CountsAdd(s, s', v, NewlyVoting(s, a));
    case Register(p) =>
      RegisterVoters(s, p);
      SameVotersCount(s, s');
    case Unregister(p) => SameVotersCount(s, s');
  }

  lemma RegisterVoters(s: State, p: Name)
    ensures RegisterProducer(s, p).voters == s.voters
  {
  }

  lemma SameVotersCount(s: State, s': State)
    requires s'.voters == s.voters
    ensures Turnout(s') == Turnout(s)
  {
  }

  // ----- runs

  // Until the chain is activated accepted actions take no stake away.
  ghost predicate NothingUnstaked(s: State, es: seq<Event>)
    decreases |es|
  {
    es != [] && Shape(Tick(s, es[0])) ==>
      var t := Tick(s, es[0]);
      && (t.activationTime == 0 && Act(t, es[0].action).Some? ==> StakesMore(es[0].action))
      && NothingUnstaked(Next(s, es[0]), es[1..])
  }

  lemma StepCounts(s: State, e: Event, ws: set<real>)
    requires Inv(s) && Orderly(s, e) && s.lent == 0.0 && SeenExcept(s, ws, {}) && Spread(ws) && e.rate in ws && Earned(s)
    requires s.activationTime == 0 && s.activatedStake <= Turnout(s)
    requires Shape(Tick(s, e)) && Act(Tick(s, e), e.action).Some? ==> StakesMore(e.action)
    ensures Shape(Tick(s, e)) && Next(s, e).activatedStake <= Turnout(Next(s, e))
  {
    hide Sound, Act, Ranked, RowOk, PlainOk, Turnout, Spread, SeenExcept, NewlyVoting, Earned;
    TickKeeps(s, e);
    NextSeen(s, e, ws);
    StepActivates(s, e);
    var t := Tick(s, e);
    SameVotersCount(s, t);
    if Act(t, e.action).Some? { ActCounts(t, e.action); }
  }

  lemma {:induction false} RunCounts(s: State, es: seq<Event>, s': State, ws: set<real>)
    requires Inv(s) && IsRun(s, es, s') && s.lent == 0.0 && SeenExcept(s, ws, {}) && Spread(ws) && RatesIn(es, ws) && Earned(s)
    requires NothingUnstaked(s, es) && (s.activationTime == 0 ==> s.activatedStake <= Turnout(s))
    ensures s'.activationTime == 0 ==> s'.activatedStake <= Turnout(s')
    decreases |es|
  {
    hide Inv, Act, Next, Shape, Turnout, Spread, SeenExcept, Earned, StakesMore;
    if es != [] {
      var e := es[0];
      assert RatesIn(es[1..], ws) && e.rate in ws;
      NextKeeps(s, e);
      NextSeen(s, e, ws);
      StepActivates(s, e);
      if s.activationTime == 0 { StepCounts(s, e, ws); }
      RunCounts(Next(s, e), es[1..], s', ws);
    }
  }

  lemma EmptyTurnout(now: int, rate: real, ws: set<real>)
    ensures var s := Genesis(now, rate);
            SeenExcept(s, ws, {}) && Earned(s) && s.activationTime == 0 && s.activatedStake <= Turnout(s) && s.lent == 0.0
  {
    assert Counted(map[]) == map[];
  }

  /** Take any run on spread rates in which nothing is unstaked before the chain is activated.  The step
      that activates it leaves accounts whose votes have weight with 150,000,000.0000 tokens of stake. */
  lemma ActivatedByTurnout(now: int, rate: real, es: seq<Event>, s: State, e: Event, ws: set<real>)
    requires 0 < now && 0.0 < rate && IsRun(Genesis(now, rate), es, s) && Orderly(s, e)
    requires Spread(ws) && RatesIn(es, ws) && e.rate in ws && NothingUnstaked(Genesis(now, rate), es)
    requires Shape(Tick(s, e)) && Act(Tick(s, e), e.action).Some? ==> StakesMore(e.action)
    ensures Shape(Tick(s, e))
    ensures s.activationTime == 0 && Next(s, e).activationTime != 0 ==> 1500000000000 <= Turnout(Next(s, e))
  {
    hide Inv, IsRun, Act, Next, Shape, Turnout, Spread, SeenExcept, StakesMore, NothingUnstaked, RatesIn;
    var s0 := Genesis(now, rate);
    GenesisInv(now, rate);
    EmptyTurnout(now, rate, ws);
    RunKeeps(s0, es, s);
    RunActivates(s0, es, s);
    RunSeen(s0, es, s, ws);
    RunCounts(s0, es, s, ws);
    NextKeeps(s, e);
    StepActivates(s, e);
    if s.activationTime == 0 { StepCounts(s, e, ws); }
  }
}
