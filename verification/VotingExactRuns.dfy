/** Whole runs of the vote ledger: they keep every tally exact as long as every chain of weight
    changes delivers; and where the rates are far apart, a producer's tally misses no more than the
    changes dropped at rows that vote for it. */
module VotingExactRuns {
  import opened Common
  import opened Sums
  import opened Voting
  import opened VotingChains
  import opened VotingTallies
  import opened VotingRuns
  import opened VotingActions
  import opened VotingMachine
  import opened VotingAborts
  import opened VotingRates
  import opened VotingErrors
  import opened VotingExact

  // ----- tables without negative weights

  ghost predicate NonNegative(s: State) {
    forall v | v in s.voters :: 0.0 <= s.voters[v].last
  }

  ghost predicate LentExact(s: State) {
    forall q | q in s.voters :: LentError(s, q) == 0.0
  }

  ghost predicate Tidy(s: State) {
    Inv(s) && LentExact(s) && NonNegative(s) && Listed(s)
  }

  // Nobody lends a negative weight, so a proxy with an exact tally has none either.
  lemma ExactWeight(s: State, q: Name)
    requires Shape(s) && PlainOk(s) && LentExact(s) && q in s.voters
    ensures 0.0 <= Weight(s.voters[q], s.stakeRate)
  {
    hide SumReal, Ranked, Weight;
    assert LentError(s, q) == 0.0;
    LendersPlain(s, q);
    RealNonNegative(LentTo(s.voters, q));
    assert RowOk(s.voters[q]);
    NoneNegative(s.voters[q], s.stakeRate);
  }

  lemma LendersPlain(s: State, q: Name)
    requires Shape(s) && PlainOk(s)
    ensures forall v | v in LentTo(s.voters, q) :: 0.0 <= LentTo(s.voters, q)[v]
  {
    hide Ranked;
    forall v | v in s.voters && s.voters[v].proxy == Some(q)
      ensures 0.0 <= s.voters[v].last
    {
      LenderIsPlain(s, v);
    }
  }

  // Every row but v's is as it was or up to date.
  ghost predicate RefreshedBut(s: State, s': State, v: Name) {
    && s'.voters.Keys == s.voters.Keys && s'.stakeRate == s.stakeRate
    && forall x | x in s.voters && x != v :: s'.voters[x] == s.voters[x] || UpToDate(s', x)
  }

  lemma BeginRefreshes(s: State, v: Name, proxy: Option<Name>, voting: bool)
    requires Shape(s) && v in s.voters && ProxyOk(s, proxy, voting)
    ensures BeginVote(s, v, proxy, voting).Some? ==> Refreshed(s, BeginVote(s, v, proxy, voting).value)
  {
    hide Withdraw, RowOk, Ranked, Refreshed, SameStructure, Rerank;
    var s0 := Activate(s, s.voters[v]);
    ActivatedFits(s, v);
    WithdrawRefreshes(s0, s.voters[v]);
    if BeginVote(s, v, proxy, voting).Some? {
      var s1 := Withdraw(s0, s.voters[v]).value;
      RerankTables(s1, proxy);
      SameStartRefreshed(s, s0, s1);
      SameRowsRefreshed(s, s1, BeginVote(s, v, proxy, voting).value);
    }
  }

  lemma SameStartRefreshed(s: State, s0: State, s1: State)
    requires s0.voters == s.voters && s0.stakeRate == s.stakeRate && Refreshed(s0, s1)
    ensures Refreshed(s, s1)
  {
    hide Weight;
  }

  lemma FinishRefreshes(s: State, s2: State, v: Name, r: Voter, proxy: Option<Name>, ps: seq<Name>, nw: real)
    requires Refreshed(s, s2) && s2.voters.Keys == s.voters.Keys && v in s.voters
    ensures RefreshedBut(s, Finish(s2, v, r, proxy, ps, nw), v)
  {
    hide Weight, ApplyChanges;
    ApplyKeepsStructure(s2, BallotChanges(r, ps, nw), true);
  }

  lemma VoteRefreshes(s: State, v: Name, proxy: Option<Name>, ps: seq<Name>, voting: bool)
    requires Inv(s) && (voting || Renewal(s, v, proxy, ps)) && UpdateVotes(s, v, proxy, ps, voting).Some?
    ensures RefreshedBut(s, UpdateVotes(s, v, proxy, ps, voting).value, v)
  {
    hide Sound, Weight, BeginVote, CompleteVote, Ranked, RowOk, PlainOk, Electable, Endorse, Finish, Refreshed, BallotOk;
    var r, nw := s.voters[v], Weight(s.voters[v], s.stakeRate);
    BeginVoteKeeps(s, v, proxy, ps, voting);
    BeginRefreshes(s, v, proxy, voting);
    var s1 := BeginVote(s, v, proxy, voting).value;
    EndorseRefreshes(s1, proxy, nw);
    CompleteIsFinish(s1, v, r, proxy, ps, nw);
    var s2 := Endorse(s1, proxy, nw).value;
    RefreshedOn(s, s1, s2);
    EndorseKeys(s1, proxy, nw);
    FinishRefreshes(s, s2, v, r, proxy, ps, nw);
  }

  lemma EndorseKeys(s: State, proxy: Option<Name>, nw: real)
    requires Ranked(s) && (proxy.Some? ==> proxy.value in s.voters)
    ensures Endorse(s, proxy, nw).Some? ==> Endorse(s, proxy, nw).value.voters.Keys == s.voters.Keys
  {
    hide Lend;
  }

  lemma RefreshedNonNegative(s: State, s': State, v: Name)
    requires NonNegative(s) && RefreshedBut(s, s', v) && Inv(s') && LentExact(s')
    requires v in s.voters ==> UpToDate(s', v) || 0.0 <= s'.voters[v].last
    ensures NonNegative(s')
  {
    hide Weight, Sound, Ranked, RowOk, LentExact, PlainOk;
    forall x | x in s'.voters
      ensures 0.0 <= s'.voters[x].last
    {
      ExactWeight(s', x);
    }
  }

  // ----- a vote

  // An error of e, unless a floor at zero brought the tally back towards the sum.
  predicate NotWorse(e': real, e: real) {
    e' == e || e < e' <= 0.0
  }

  // What p misses of the two changes a vote sends along proxy edges.
  ghost function VoteMissed(s: State, v: Name, proxy: Option<Name>, voting: bool, p: Name): real
    requires Shape(s)
  {
    if v in s.voters && ProxyOk(s, proxy, voting) && BeginVote(s, v, proxy, voting).Some? then
      var s1 := BeginVote(s, v, proxy, voting).value;
      MissedVotes(s, FirstRest(s, v), p) + MissedVotes(s1, SecondRest(s1, proxy, Weight(s.voters[v], s.stakeRate)), p)
    else 0.0
  }

  lemma FlooredVotes(s: State, ds: map<Name, real>, p: Name)
    requires p in s.producers
    ensures var s' := ApplyChanges(s, ds, true);
            0.0 <= Losses(s, ds, true)[p] && (0.0 < Losses(s, ds, true)[p] ==> s'.producers[p].votes == 0.0)
  {
    hide SumReal;
  }

  lemma FlooredError(s: State, v: Name, r: Voter, proxy: Option<Name>, ps: seq<Name>, nw: real, p: Name)
    requires p in s.producers && NonNegative(Finish(s, v, r, proxy, ps, nw))
    ensures var s', loss := Finish(s, v, r, proxy, ps, nw), Losses(s, BallotChanges(r, ps, nw), true)[p];
            p in s'.producers && 0.0 <= loss && (0.0 < loss ==> VoteError(s', p) <= 0.0)
  {
    hide SumReal, ApplyChanges, BallotChanges, Swallowed;
    var s' := Finish(s, v, r, proxy, ps, nw);
    FlooredVotes(s, BallotChanges(r, ps, nw), p);
    ApplyFields(s, BallotChanges(r, ps, nw), true);
    RealNonNegative(VotesFor(s'.voters, p));
  }

  lemma TidyVoteSigns(s: State, v: Name, proxy: Option<Name>, ps: seq<Name>, voting: bool)
    requires Inv(s) && (voting || Renewal(s, v, proxy, ps)) && UpdateVotes(s, v, proxy, ps, voting).Some?
    requires LentExact(s) && NonNegative(s) && LentExact(UpdateVotes(s, v, proxy, ps, voting).value)
    ensures NonNegative(UpdateVotes(s, v, proxy, ps, voting).value)
    ensures v in s.voters && 0.0 <= Weight(s.voters[v], s.stakeRate)
  {
    hide Sound, Weight, UpdateVotes, Ranked, RowOk, PlainOk, RefreshedBut, NonNegative, LentExact;
    UpdateVotesKeeps(s, v, proxy, ps, voting);
    VoteRefreshes(s, v, proxy, ps, voting);
    ExactWeight(s, v);
    RefreshedNonNegative(s, UpdateVotes(s, v, proxy, ps, voting).value, v);
  }

  lemma VoteFinishes(s: State, v: Name, proxy: Option<Name>, ps: seq<Name>, voting: bool)
    requires Inv(s) && (voting || Renewal(s, v, proxy, ps)) && UpdateVotes(s, v, proxy, ps, voting).Some?
    ensures v in s.voters && ProxyOk(s, proxy, voting)
    ensures var r := s.voters[v];
            UpdateVotes(s, v, proxy, ps, voting).value
            == Finish(Middle(s, v, proxy, voting), v, r, proxy, ps, Weight(r, s.stakeRate))
  {
    hide Sound, Weight, BeginVote, CompleteVote, Ranked, RowOk, PlainOk, Electable, Endorse, Finish, BallotOk;
    BeginVoteKeeps(s, v, proxy, ps, voting);
    CompleteIsFinish(BeginVote(s, v, proxy, voting).value, v, s.voters[v], proxy, ps, Weight(s.voters[v], s.stakeRate));
  }

  // While no weight is negative nothing is overlooked, and a floor can only help.
  lemma TidyVote(s: State, v: Name, proxy: Option<Name>, ps: seq<Name>, voting: bool)
    requires Inv(s) && (voting || Renewal(s, v, proxy, ps)) && UpdateVotes(s, v, proxy, ps, voting).Some?
    requires LentExact(s) && NonNegative(s) && LentExact(UpdateVotes(s, v, proxy, ps, voting).value)
    ensures var s' := UpdateVotes(s, v, proxy, ps, voting).value;
            && NonNegative(s') && s'.producers.Keys == s.producers.Keys
            && (forall p | p in s.producers :: NotWorse(VoteError(s', p), VoteError(s, p) - VoteMissed(s, v, proxy, voting, p)))
            && ((forall p | p in s.producers :: VoteError(s', p) == VoteError(s, p) - VoteMissed(s, v, proxy, voting, p)) ==>
                  TotalError(s') == TotalError(s))
  {
    hide Sound, Weight, BeginVote, UpdateVotes, Ranked, RowOk, PlainOk, Finish, FirstRest, SecondRest, Middle,
         LentError, VoteError, TotalError, BallotChanges, Losses, SumReal, MissedLent, MissedVotes, NonNegative, LentExact, Overlooked;
    UpdateVotesErrors(s, v, proxy, ps, voting);
    TidyVoteSigns(s, v, proxy, ps, voting);
    VoteFinishes(s, v, proxy, ps, voting);
    var r, nw, s2 := s.voters[v], Weight(s.voters[v], s.stakeRate), Middle(s, v, proxy, voting);
    NothingOverlooked(s, v, r, proxy, ps, nw);
    forall p | p in s.producers
      ensures NotWorse(VoteError(UpdateVotes(s, v, proxy, ps, voting).value, p), VoteError(s, p) - VoteMissed(s, v, proxy, voting, p))
    {
      FlooredError(s2, v, r, proxy, ps, nw, p);
    }
    NoLossNoSum(s2, BallotChanges(r, ps, nw));
  }

  lemma NothingOverlooked(s: State, v: Name, r: Voter, proxy: Option<Name>, ps: seq<Name>, nw: real)
    requires NonNegative(s) && v in s.voters && s.voters[v] == r && 0.0 <= nw
    ensures forall p: Name :: Overlooked(r, p) == 0.0 && Overlooked(NewRow(r, proxy, ps, nw), p) == 0.0
  {
  }

  lemma NoLossNoSum(s: State, ds: map<Name, real>)
    ensures (forall p | p in s.producers :: Losses(s, ds, true)[p] == 0.0) ==> SumReal(Losses(s, ds, true)) == 0.0
  {
    hide SumReal;
    if forall p | p in s.producers :: Losses(s, ds, true)[p] == 0.0 { RealZero(Losses(s, ds, true)); }
  }

  // Chains that deliver leave every proxy's tally as right as it was, and miss no producer.
  lemma ChainsMissNothing(s: State, v: Name, proxy: Option<Name>, ps: seq<Name>, voting: bool)
    requires Inv(s) && (voting || Renewal(s, v, proxy, ps)) && UpdateVotes(s, v, proxy, ps, voting).Some?
    requires ChainsDeliver(s, v, proxy, voting)
    ensures var s' := UpdateVotes(s, v, proxy, ps, voting).value;
            s'.voters.Keys == s.voters.Keys && forall q | q in s.voters :: LentError(s', q) == LentError(s, q)
    ensures forall p | p in s.producers :: VoteMissed(s, v, proxy, voting, p) == 0.0
  {
    hide Sound, Weight, BeginVote, CompleteVote, Ranked, RowOk, PlainOk, Electable, FirstRest, SecondRest, LentError,
         VoteError, TotalError, BallotChanges, Losses, SumReal, Middle, Overlooked, MissedLent, MissedVotes, Quiet, Cancel, BallotOk;
    UpdateVotesErrors(s, v, proxy, ps, voting);
    SecondMisses(s, v, proxy, ps, voting);
    var nw := Weight(s.voters[v], s.stakeRate);
    MissedExactly(s, FirstRest(s, v), SecondRest(BeginVote(s, v, proxy, voting).value, proxy, nw));
  }

  /** Without negative weights a vote leaves exact tallies exact if and only if its chains deliver. */
  lemma TidyVoteExact(s: State, v: Name, proxy: Option<Name>, ps: seq<Name>, voting: bool)
    requires Inv(s) && (voting || Renewal(s, v, proxy, ps)) && UpdateVotes(s, v, proxy, ps, voting).Some?
    requires Exact(s) && NonNegative(s)
    ensures Exact(UpdateVotes(s, v, proxy, ps, voting).value) <==> ChainsDeliver(s, v, proxy, voting)
  {
    hide Sound, Ranked, RowOk, PlainOk, UpdateVotes, ChainsDeliver, LentError, VoteError, TotalError, VoteMissed, NonNegative,
         Renewal;
    if ChainsDeliver(s, v, proxy, voting) {
      ChainsMissNothing(s, v, proxy, ps, voting);
      TidyVote(s, v, proxy, ps, voting);
    } else {
      VoteStaysExact(s, v, proxy, ps, voting);
    }
  }

  // ----- every action

  /** Every chain of weight changes that the action starts delivers. */
  ghost predicate Settles(s: State, a: Action)
    requires Shape(s)
  {
    match a
    case Vote(v, proxy, _) => ChainsDeliver(s, v, proxy, true)
    case SetProxy(v, isProxy) => FlipDelivers(s, v, isProxy)
    case ChangeStake(v, delta) =>
      v in s.voters && Backs(s.voters[v]) ==>
        Shape(Restaked(s, v, delta)) && ChainsDeliver(Restaked(s, v, delta), v, s.voters[v].proxy, false)
    case Register(_) => true
    case Unregister(_) => true
  }

  lemma RestakedTidy(s: State, v: Name, delta: int)
    requires Inv(s) && v in s.voters && NonNegative(s) && 0 <= s.voters[v].staked + delta
    ensures var s1 := Restaked(s, v, delta);
            && Inv(s1) && NonNegative(s1) && (LentExact(s1) <==> LentExact(s)) && s1.producers == s.producers
            && (forall p | p in s.producers :: VoteError(s1, p) == VoteError(s, p))
  {
    hide Inv, LentError, VoteError, TotalError;
    StakedRowKeeps(s, v, s.voters[v].staked + delta);
    SameBallotErrors(s, v, s.voters[v].(staked := s.voters[v].staked + delta));
  }

  lemma TidyStakeExact(s: State, v: Name, delta: int)
    requires Inv(s) && Exact(s) && NonNegative(s) && UpdateVotingPower(s, v, delta).Some?
    ensures Exact(UpdateVotingPower(s, v, delta).value) <==> Settles(s, ChangeStake(v, delta))
  {
    hide Sound, UpdateVotes, ChainsDeliver, Ranked, RowOk, PlainOk, Exact, Vested, NonNegative, VoteDelivers, LentExact;
    StakeStaysExact(s, v, delta);
    if v in s.voters && Backs(s.voters[v]) {
      var r := s.voters[v];
      RestakedTidy(s, v, delta);
      RestakedExact(s, v, delta);
      RestakedFits(s, v, delta);
      TidyVoteExact(Restaked(s, v, delta), v, r.proxy, r.producers, false);
    }
  }

  lemma NobodyVotes(s: State, p: Name)
    requires Listed(s) && p !in s.producers
    ensures SumReal(VotesFor(s.voters, p)) == 0.0
  {
    forall v | v in s.voters
      ensures VotesFor(s.voters, p)[v] == 0.0
    {
      ListedAt(s, v);
    }
    RealZero(VotesFor(s.voters, p));
  }

  /** Without negative weights an accepted action leaves exact tallies exact if and only if its chains
      deliver. */
  lemma TidyActExact(s: State, a: Action)
    requires Tidy(s) && Exact(s) && Act(s, a).Some?
    ensures Exact(Act(s, a).value) <==> Settles(s, a)
  {
    hide UpdateVotes, RegProxy, UpdateVotingPower, ChainsDeliver, FlipDelivers, Sound, Exact, Ranked, RowOk, PlainOk, SumReal,
         NonNegative, LentExact, Listed, RegisterProducer, VotesFor;
    match a
    case Vote(v, proxy, ps) => TidyVoteExact(s, v, proxy, ps, true);
    case SetProxy(v, isProxy) => RegProxyStaysExact(s, v, isProxy);
    case ChangeStake(v, delta) => TidyStakeExact(s, v, delta);
    case Register(p) =>
      RegisterStaysExact(s, p);
      if p !in s.producers { NobodyVotes(s, p); }
    case Unregister(p) => DeactivateStaysExact(s, p);
  }

  // What p misses of the changes the action sends along proxy edges.
  ghost function ActMissed(s: State, a: Action, p: Name): real
    requires Shape(s)
  {
    match a
    case Vote(v, proxy, _) => VoteMissed(s, v, proxy, true, p)
    case SetProxy(v, isProxy) => if v in s.voters then MissedVotes(s, Some(FlipRest(s, v, isProxy)), p) else 0.0
    case ChangeStake(v, delta) =>
      if v in s.voters && Backs(s.voters[v]) && Shape(Restaked(s, v, delta))
      then VoteMissed(Restaked(s, v, delta), v, s.voters[v].proxy, false, p) else 0.0
    case Register(_) => 0.0
    case Unregister(_) => 0.0
  }

  // No weight is negative afterwards, and every producer's error is accounted for.
  ghost predicate StepErrors(s: State, a: Action, s': State)
    requires Shape(s)
  {
    && NonNegative(s') && s.producers.Keys <= s'.producers.Keys
    && (forall p | p in s.producers :: NotWorse(VoteError(s', p), VoteError(s, p) - ActMissed(s, a, p)))
    && (forall p | p in s'.producers && p !in s.producers :: VoteError(s', p) == 0.0)
  }

  lemma StakeErrors(s: State, v: Name, delta: int)
    requires Tidy(s) && UpdateVotingPower(s, v, delta).Some? && LentExact(UpdateVotingPower(s, v, delta).value)
    ensures StepErrors(s, ChangeStake(v, delta), UpdateVotingPower(s, v, delta).value)
  {
    hide Sound, UpdateVotes, Ranked, RowOk, PlainOk, Vested, NonNegative, LentExact, LentError, VoteError, TotalError, VoteMissed, Listed;
    if v in s.voters {
      var r, s1 := s.voters[v], Restaked(s, v, delta);
      RestakedTidy(s, v, delta);
      RestakedFits(s, v, delta);
      if Backs(r) { TidyVote(s1, v, r.proxy, r.producers, false); } else { OnlyRestaked(s, v, delta); }
    } else {
      RankKeys(s);
      NewRowErrors(s, v, NEW_VOTER.(staked := delta));
      NewRowNonNegative(s, v, NEW_VOTER.(staked := delta));
    }
  }

  lemma NewRowNonNegative(s: State, v: Name, r: Voter)
    requires NonNegative(s) && 0.0 <= r.last
    ensures NonNegative(s.(voters := s.voters[v := r], rank := s.rank[v := 0]))
  {
  }

  lemma RegProxyNonNegative(s: State, v: Name, isProxy: bool)
    requires Inv(s) && NonNegative(s) && v in s.voters && RegProxy(s, v, isProxy).Some? && LentExact(RegProxy(s, v, isProxy).value)
    ensures NonNegative(RegProxy(s, v, isProxy).value)
  {
    hide Sound, Propagate, Ranked, RowOk, PlainOk, LentExact, Weight, SameStructure, Refreshed;
    var s1, s' := Flipped(s, v, isProxy), RegProxy(s, v, isProxy).value;
    FlipRanked(s, v, isProxy);
    RegProxyKeeps(s, v, isProxy);
    PropagateRefreshes(s1, v);
    PropagateFrame(s1, v);
    ReachedKeys(s1, s', v);
    assert NonNegative(s1);
    RefreshedMeans(s1, s', v);
    RefreshedNonNegative(s1, s', v);
  }

  lemma ReachedKeys(s: State, s': State, v: Name)
    requires Ranked(s) && v in s.voters && Reached(s, s', v, Weight(s.voters[v], s.stakeRate))
    ensures s'.voters.Keys == s.voters.Keys
  {
  }

  lemma RefreshedMeans(s: State, s': State, v: Name)
    requires Refreshed(s, s') && s'.voters.Keys == s.voters.Keys && NonNegative(s) && v in s.voters
    ensures RefreshedBut(s, s', v) && (UpToDate(s', v) || 0.0 <= s'.voters[v].last)
  {
    hide Weight;
  }

  lemma RegProxyStep(s: State, v: Name, isProxy: bool)
    requires Tidy(s) && RegProxy(s, v, isProxy).Some? && LentExact(RegProxy(s, v, isProxy).value)
    ensures StepErrors(s, SetProxy(v, isProxy), RegProxy(s, v, isProxy).value)
  {
    hide Sound, Propagate, Ranked, RowOk, PlainOk, NonNegative, LentExact, LentError, VoteError, TotalError, Listed, MissedLent,
         MissedVotes;
    if v in s.voters {
      RegProxyErrors(s, v, isProxy);
      RegProxyNonNegative(s, v, isProxy);
    } else {
      NewRowErrors(s, v, NEW_VOTER.(isProxy := isProxy));
      NewRowNonNegative(s, v, NEW_VOTER.(isProxy := isProxy));
    }
  }

  lemma RegisterStep(s: State, p: Name)
    requires Tidy(s)
    ensures StepErrors(s, Register(p), RegisterProducer(s, p))
  {
    hide Sound, Ranked, RowOk, PlainOk, LentExact, LentError, VoteError, TotalError, Listed, SumReal, VotesFor;
    var s' := RegisterProducer(s, p);
    ProducerRowErrors(s, s', p, s'.producers[p]);
    if p !in s.producers { NobodyVotes(s, p); }
  }

  lemma DeactivateStep(s: State, p: Name)
    requires Tidy(s) && p in s.producers
    ensures StepErrors(s, Unregister(p), Deactivate(s, p).value)
  {
    hide Sound, Ranked, RowOk, PlainOk, LentExact, LentError, VoteError, TotalError, Listed;
    var s' := Deactivate(s, p).value;
    ProducerRowErrors(s, s', p, s'.producers[p]);
  }

  /** While proxies' tallies are exact, an action adds to a producer's error what it misses of the
      changes sent along proxy edges, or a floor brings the tally closer to the sum. */
  lemma ActErrors(s: State, a: Action)
    requires Tidy(s) && Act(s, a).Some? && LentExact(Act(s, a).value)
    ensures StepErrors(s, a, Act(s, a).value)
  {
    hide UpdateVotes, RegProxy, UpdateVotingPower, Sound, Ranked, RowOk, PlainOk, LentExact, NonNegative, Listed, RegisterProducer,
         LentError, VoteError, TotalError, VoteMissed;
    match a
    case Vote(v, proxy, ps) => TidyVote(s, v, proxy, ps, true);
    case SetProxy(v, isProxy) => RegProxyStep(s, v, isProxy);
    case ChangeStake(v, delta) => StakeErrors(s, v, delta);
    case Register(p) => RegisterStep(s, p);
    case Unregister(p) => DeactivateStep(s, p);
  }

  // ----- runs

  // Every tally is exact at the start of the run and after each of its events.
  ghost predicate AlwaysExact(s: State, es: seq<Event>)
    decreases |es|
  {
    Exact(s) && (es != [] && Shape(Tick(s, es[0])) ==> AlwaysExact(Next(s, es[0]), es[1..]))
  }

  // Every action of the run that is accepted settles.
  ghost predicate AlwaysSettles(s: State, es: seq<Event>)
    decreases |es|
  {
    es != [] && Shape(Tick(s, es[0])) ==>
      var t := Tick(s, es[0]);
      (Act(t, es[0].action).Some? ==> Settles(t, es[0].action)) && AlwaysSettles(Next(s, es[0]), es[1..])
  }

  lemma TickTidy(s: State, e: Event)
    requires Tidy(s) && Orderly(s, e)
    ensures Tidy(Tick(s, e)) && (Exact(Tick(s, e)) <==> Exact(s))
    ensures forall p | p in s.producers :: VoteError(Tick(s, e), p) == VoteError(s, p)
  {
    hide Inv, LentError, VoteError, TotalError, Listed;
    TickKeeps(s, e);
    MoreProducersListed(s, Tick(s, e));
    SameErrors(s, Tick(s, e));
  }

  lemma TidyWeighty(s: State, a: Action)
    requires Tidy(s)
    ensures Weighty(s, a)
  {
    hide Sound, Ranked, RowOk, PlainOk, LentExact, Weight;
    if a.Vote? && a.voter in s.voters { ExactWeight(s, a.voter); }
  }

  lemma TidyNext(s: State, e: Event)
    requires Tidy(s) && Orderly(s, e) && LentExact(Next(s, e))
    ensures Tidy(Next(s, e))
    ensures var t := Tick(s, e);
            Act(t, e.action).Some? ==> StepErrors(t, e.action, Next(s, e))
  {
    hide Inv, LentExact, NonNegative, Listed, Act, StepErrors, Weighty;
    TickTidy(s, e);
    NextKeeps(s, e);
    InvHasShape(Tick(s, e));
    TidyWeighty(Tick(s, e), e.action);
    NextKeepsListed(s, e);
    if Act(Tick(s, e), e.action).Some? { ActErrors(Tick(s, e), e.action); StepNonNegative(Tick(s, e), e.action, Next(s, e)); }
  }

  lemma StepNonNegative(s: State, a: Action, s': State)
    requires Shape(s) && StepErrors(s, a, s')
    ensures NonNegative(s')
  {
  }

  lemma {:induction false} RunExact(s: State, es: seq<Event>, s': State)
    requires Tidy(s) && Exact(s) && IsRun(s, es, s')
    ensures AlwaysExact(s, es) <==> AlwaysSettles(s, es)
    decreases |es|
  {
    hide Tidy, Exact, Act, Settles, Shape, StepErrors;
    if es != [] {
      var e := es[0];
      TickTidy(s, e);
      if Act(Tick(s, e), e.action).Some? { TidyActExact(Tick(s, e), e.action); }
      if Exact(Next(s, e)) {
        TidyNext(s, e) by { ExactMeansLent(Next(s, e)); }
        RunExact(Next(s, e), es[1..], s');
      }
    }
  }

  lemma ExactMeansLent(s: State)
    requires Exact(s)
    ensures LentExact(s)
  {
    hide LentError, VoteError, TotalError;
  }

  lemma GenesisTidy(now: int, rate: real)
    requires 0 < now && 0.0 < rate
    ensures Tidy(Genesis(now, rate)) && Exact(Genesis(now, rate))
  {
    hide Inv;
    GenesisInv(now, rate);
    EmptyListed(now, rate);
    assert AllVotes(Genesis(now, rate).producers) == map[];
  }

  /** A run keeps every tally exact at every step if and only if every chain of weight changes that its
      accepted actions start delivers: it is carried to the end, or changes nothing there, or comes
      to rest at a row that backs nobody, or makes up for the other chain of the same vote. */
  lemma RunsStayExact(now: int, rate: real, es: seq<Event>, s: State)
    requires 0 < now && 0.0 < rate && IsRun(Genesis(now, rate), es, s)
    ensures AlwaysExact(Genesis(now, rate), es) <==> AlwaysSettles(Genesis(now, rate), es)
  {
    hide Tidy, Exact, IsRun, AlwaysExact, AlwaysSettles;
    GenesisTidy(now, rate);
    RunExact(Genesis(now, rate), es, s);
  }

  // ----- rates far apart

  // The size of all that p missed in the run.
  ghost function RunMissed(s: State, es: seq<Event>, p: Name): real
    decreases |es|
  {
    if es == [] || !Shape(Tick(s, es[0])) then 0.0 else
    var t := Tick(s, es[0]);
    (if Act(t, es[0].action).Some? then Abs(ActMissed(t, es[0].action, p)) else 0.0) + RunMissed(Next(s, es[0]), es[1..], p)
  }

  ghost function ErrorOf(s: State, p: Name): real {
    if p in s.producers then VoteError(s, p) else 0.0
  }

  lemma UnlentExact(s: State)
    requires Inv(s) && s.lent == 0.0
    ensures LentExact(s)
  {
    hide Inv, SumReal;
    forall q | q in s.voters
      ensures LentError(s, q) == 0.0
    {
      LentNotNegative(s, q);
    }
  }

  lemma StepError(s: State, a: Action, s': State, p: Name)
    requires Shape(s) && StepErrors(s, a, s')
    ensures Abs(ErrorOf(s', p)) <= Abs(ErrorOf(s, p)) + Abs(ActMissed(s, a, p))
  {
    hide VoteError, ActMissed, NonNegative, Shape;
  }

  lemma SpreadStep(s: State, e: Event, ws: set<real>, p: Name)
    requires Tidy(s) && Orderly(s, e) && s.lent == 0.0 && Spread(ws) && e.rate in ws && SeenExcept(s, ws, {})
    ensures var t := Tick(s, e);
            && Tidy(t) && Tidy(Next(s, e)) && Next(s, e).lent == 0.0 && SeenExcept(Next(s, e), ws, {})
            && Abs(ErrorOf(Next(s, e), p))
               <= Abs(ErrorOf(s, p)) + if Act(t, e.action).Some? then Abs(ActMissed(t, e.action, p)) else 0.0
  {
    hide Inv, LentExact, NonNegative, Listed, Act, StepErrors, Spread, SeenExcept, VoteError, ActMissed, Abs, Shape;
    TickTidy(s, e);
    InvHasShape(Tick(s, e));
    NextKeeps(s, e);
    NextSeen(s, e, ws);
    UnlentExact(Next(s, e));
    TidyNext(s, e);
    if Act(Tick(s, e), e.action).Some? { StepError(Tick(s, e), e.action, Next(s, e), p); }
  }

  lemma {:induction false} SpreadRunMissed(s: State, es: seq<Event>, s': State, ws: set<real>, p: Name)
    requires Tidy(s) && IsRun(s, es, s') && s.lent == 0.0
    requires Spread(ws) && RatesIn(es, ws) && SeenExcept(s, ws, {})
    ensures Abs(ErrorOf(s', p)) <= Abs(ErrorOf(s, p)) + RunMissed(s, es, p)
    decreases |es|
  {
    hide Tidy, Act, Spread, SeenExcept, ActMissed, Abs, ErrorOf, Next;
    if es != [] {
      SpreadStep(s, es[0], ws, p);
      SpreadRunMissed(Next(s, es[0]), es[1..], s', ws, p);
    }
  }

  /** When any two rates of a run are equal or more than 1 apart, a producer's tally is off by at most
      what was dropped at rows that vote for that producer themselves. */
  lemma SpreadTallies(now: int, rate: real, es: seq<Event>, s: State, ws: set<real>, p: Name)
    requires 0 < now && 0.0 < rate && IsRun(Genesis(now, rate), es, s) && p in s.producers
    requires Spread(ws) && RatesIn(es, ws)
    ensures Abs(s.producers[p].votes - SumReal(VotesFor(s.voters, p))) <= RunMissed(Genesis(now, rate), es, p)
  {
    hide Tidy, IsRun, Spread, RunMissed, Abs, SumReal, VotesFor, RatesIn;
    GenesisTidy(now, rate);
    SpreadRunMissed(Genesis(now, rate), es, s, ws, p);
    assert Abs(0.0) == 0.0 by { AbsZero(); }
  }

  lemma AbsZero()
    ensures Abs(0.0) == 0.0
  {
  }
}
