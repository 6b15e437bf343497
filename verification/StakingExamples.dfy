/** A refund can be claimed before three full days are over: the request time is kept in seconds. */
module StakingExamples {
  import opened Common
  import opened Staking
  import opened StakingSums
  import opened StakingVotes
  import opened StakingMachine
  import opened StakingRuns
  import Token
  import Voting
  import VotingAborts
  import VotingActions
  import VotingTallies

  const OWNER: Name := 7
  const STAKE: int := Voting.MIN_ACTIVATED_STAKE
  const OPENING: int := Voting.MIN_ACTIVATED_DATE     // microseconds; a whole second
  const RELEASE: int := OPENING + REFUND_DELAY * 1000000

  /** The owner stakes enough to activate the chain, votes, and takes back one unit f microseconds
      past a whole second. */
  function EarlyRun(w: real, f: int): seq<Event> {
    [Event(OPENING, w, Stake(OWNER, OWNER, STAKE, 0, false)),
     Event(OPENING, w, CastVote(OWNER, None, [])),
     Event(OPENING + f, w, Unstake(OWNER, OWNER, 1, 0))]
  }

  function Opening(w: real): State {
    Genesis(OPENING, w, map[OWNER := STAKE], map[])
  }

  // What the example needs to know of the state after each event.
  ghost predicate After(w: real, es: seq<Event>, s: State) {
    0.0 < w && IsRun(Opening(w), es, s) && Inv(s) && VotingAborts.Listed(s.votes) && 0 <= Backing(s)
    && s.votes.producers == map[]
  }

  lemma Start(w: real)
    requires 0.0 < w
    ensures After(w, [], Opening(w))
  {
    GenesisInv(OPENING, w, map[OWNER := STAKE], map[]);
    VotingAborts.EmptyListed(OPENING, w);
    hide Inv, Backing, VotingAborts.Listed;
  }

  // One more event.
  lemma Step(w: real, es: seq<Event>, k: nat, s: State) returns (s': State)
    requires k < |es| && After(w, es[..k], s) && s.votes.now <= es[k].time && 0.0 < es[k].rate && Ordinary(es[k].action)
    requires Weighty(Tick(s, es[k]), es[k].action) && !es[k].action.RegisterProducer?
    ensures Voting.Shape(Tick(s, es[k]).votes) && Inv(Tick(s, es[k])) && VotingAborts.Listed(Tick(s, es[k]).votes)
    ensures s' == Next(s, es[k])
    ensures s'.votes.producers == map[] ==> After(w, es[..k + 1], s')
  {
    hide Inv, Backing, VotingAborts.Listed, Act, Voting.Shape, Weighty, IsRun;
    var e := es[k];
    NextKeeps(s, e);
    VotingAborts.MoreProducersListed(s.votes, Tick(s, e).votes);
    ActKeepsListed(Tick(s, e), e.action);
    s' := Next(s, e);
    RunAppend(Opening(w), es[..k], s, e);
    assert es[..k + 1] == es[..k] + [e];
  }

  lemma {:induction false} RunAppend(s0: State, es: seq<Event>, s: State, e: Event)
    requires IsRun(s0, es, s) && Voting.Shape(Tick(s, e).votes) && Orderly(s, e)
    ensures IsRun(s0, es + [e], Next(s, e))
    decreases |es|
  {
    hide Next, Voting.Shape;
    if es == [] {
      assert [e][1..] == [];
    } else {
      RunAppend(Next(s0, es[0]), es[1..], s, e);
      assert (es + [e])[1..] == es[1..] + [e];
    }
  }

  lemma ShapeAtStart(w: real)
    requires 0.0 < w
    ensures Voting.Shape(Opening(w).votes)
  {
  }

  lemma FirstVotes(w: real)
    requires 0.0 < w
    ensures Voting.Shape(Opening(w).votes)
    ensures var o := Voting.UpdateVotingPower(Opening(w).votes, OWNER, STAKE);
            o == Some(Opening(w).votes.(voters := map[OWNER := Voting.NEW_VOTER.(staked := STAKE)], rank := map[OWNER := 0]))
  {
    ShapeAtStart(w);
    hide Voting.Shape, Voting.UpdateVotes, Voting.Ranked, Voting.RowOk;
  }

  lemma FirstPayment(w: real)
    ensures var s := Opening(w);
            var o := Pay(s, OWNER, OWNER, OWNER, STAKE, 0, false);
            o.Some? && o.value == s.(tokens := o.value.tokens)
  {
    hide Token.Credit;
  }

  // After the first stake: one row in each table, and no vote yet.
  ghost predicate OneStake(s: State) {
    && s.delegations == map[(OWNER, OWNER) := Bandwidth(STAKE, 0)]
    && s.votes.voters == map[OWNER := Voting.NEW_VOTER.(staked := STAKE)] && s.votes.producers == map[]
    && s.votes.activationTime == 0 && s.votes.activatedStake == 0 && s.votes.now == OPENING
  }

  lemma FirstStake(w: real)
    requires 0.0 < w
    ensures Voting.Shape(Opening(w).votes)
    ensures var o := DelegateBw(Opening(w), OWNER, OWNER, STAKE, 0, false);
            o.Some? && OneStake(o.value)
  {
    FirstVotes(w);
    FirstPayment(w);
    var s := Opening(w);
    PayElsewhere(s, map[(OWNER, OWNER) := Bandwidth(STAKE, 0)], map[OWNER := Resources(STAKE, 0, 0)],
                 OWNER, OWNER, OWNER, STAKE, 0, false);
    hide Pay, Voting.Shape, Voting.UpdateVotingPower;
  }

  lemma NextIsAct(s: State, e: Event)
    requires Voting.Shape(Tick(s, e).votes) && Act(Tick(s, e), e.action).Some?
    ensures Next(s, e) == Act(Tick(s, e), e.action).value
  {
    hide Act, Voting.Shape;
  }

  lemma ActIsStake(s: State, a: Action)
    requires Voting.Shape(s.votes)
    ensures a.Stake? ==> Act(s, a) == DelegateBw(s, a.from, a.receiver, a.net, a.cpu, a.transfer)
    ensures a.Unstake? ==> Act(s, a) == UndelegateBw(s, a.from, a.receiver, a.net, a.cpu)
    ensures a.CastVote? ==> Act(s, a) == WithVotes(s, Voting.UpdateVotes(s.votes, a.voter, a.proxy, a.producers, true))
  {
    hide DelegateBw, UndelegateBw, Voting.UpdateVotes, Voting.Shape;
  }

  lemma TickAtStart(w: real, e: Event)
    requires e.time == OPENING && e.rate == w
    ensures Tick(Opening(w), e) == Opening(w) && Opening(w).votes.now == OPENING && Opening(w).votes.voters == map[]
  {
  }

  lemma NotByBallot(s: State, a: Action)
    requires !a.CastVote?
    ensures Weighty(s, a)
  {
  }

  lemma Staked(w: real, es: seq<Event>) returns (s: State)
    requires 0.0 < w && 0 < |es| && es[0] == Event(OPENING, w, Stake(OWNER, OWNER, STAKE, 0, false))
    ensures After(w, es[..1], s) && OneStake(s)
  {
    hide After, DelegateBw, UndelegateBw, Voting.UpdateVotes, Voting.Shape, Act, Next, Inv, VotingAborts.Listed, Opening, Tick,
         OneStake, Weighty;
    FirstStake(w);
    Start(w);
    TickAtStart(w, es[0]);
    NotByBallot(Opening(w), es[0].action);
    assert es[..0] == [];
    s := Step(w, es, 0, Opening(w));
    ActIsStake(Opening(w), es[0].action);
    NextIsAct(Opening(w), es[0]);
    OneStakeNoProducers(s);
  }

  lemma OneStakeNoProducers(s: State)
    requires OneStake(s)
    ensures s.votes.producers == map[]
  {
  }

  // ----- the vote that activates the chain

  lemma FirstVote(s: Voting.State)
    requires VotingTallies.Inv(s) && VotingAborts.Listed(s)
    requires s.voters == map[OWNER := Voting.NEW_VOTER.(staked := STAKE)] && s.producers == map[]
    requires s.activationTime == 0 && s.activatedStake == 0 && OPENING <= s.now
    ensures var o := Voting.UpdateVotes(s, OWNER, None, [], true);
            && o.Some? && o.value.activationTime == s.now && o.value.producers == map[] && o.value.now == s.now
            && OWNER in o.value.voters && !Voting.Backs(o.value.voters[OWNER])
  {
    assert Voting.BallotOk(OWNER, None, []);
    assert Voting.Allowed(s, OWNER, None, [], true);
    hide VotingTallies.Sound, Voting.CompleteVote, Voting.Weight, Voting.Ranked, Voting.RowOk, VotingAborts.Listed,
         VotingTallies.PlainOk;
    VotingAborts.VoteSucceeds(s, OWNER, None, [], true);
    VotingAborts.VoteLists(s, OWNER, None, [], true);
    VotingActions.UpdateVotesKeeps(s, OWNER, None, [], true);
    var r := s.voters[OWNER];
    CompleteVoteKeepsStakes(Voting.BeginVote(s, OWNER, None, true).value, OWNER, r, None, [], Voting.Weight(r, s.stakeRate));
  }

  // After the vote: the chain is activated, and the ballot is empty.
  ghost predicate Opened(s: State) {
    && s.delegations == map[(OWNER, OWNER) := Bandwidth(STAKE, 0)]
    && s.votes.activationTime != 0 && s.votes.producers == map[] && s.votes.now == OPENING
  }

  lemma VoteOpens(s: State, e: Event)
    requires e.time == OPENING && e.action == CastVote(OWNER, None, []) && 0.0 < e.rate
    requires OneStake(s) && Inv(Tick(s, e)) && VotingAborts.Listed(Tick(s, e).votes) && Voting.Shape(Tick(s, e).votes)
    ensures Act(Tick(s, e), e.action).Some? && Opened(Act(Tick(s, e), e.action).value)
  {
    hide Act, Voting.UpdateVotes, Voting.Shape, VotingAborts.Listed, VotingTallies.Inv, Agree, RefundsOk, RamOk,
         ProducersStaked, Stakes;
    FirstVote(Tick(s, e).votes);
    ActIsStake(Tick(s, e), e.action);
  }

  lemma BallotWeight(s: State, e: Event)
    requires OneStake(s) && 0.0 < e.rate
    ensures e.action == CastVote(OWNER, None, []) ==> Weighty(Tick(s, e), e.action)
  {
    VotingActions.UnlentWeight(s.votes.voters[OWNER], e.rate);
    hide Voting.Weight;
  }

  lemma OpeningTime(s: State)
    ensures OneStake(s) || Opened(s) ==> s.votes.now == OPENING && s.votes.producers == map[]
  {
  }

  lemma Voted(w: real, es: seq<Event>) returns (s: State)
    requires 0.0 < w && 1 < |es| && es[0] == Event(OPENING, w, Stake(OWNER, OWNER, STAKE, 0, false))
    requires es[1] == Event(OPENING, w, CastVote(OWNER, None, []))
    ensures After(w, es[..2], s) && Opened(s)
  {
    hide After, DelegateBw, UndelegateBw, Voting.UpdateVotes, Voting.Shape, Act, Next, Inv, VotingAborts.Listed, Tick,
         OneStake, Opened, Weighty;
    var s1 := Staked(w, es);
    OpeningTime(s1);
    BallotWeight(s1, es[1]);
    s := Step(w, es, 1, s1);
    VoteOpens(s1, es[1]);
    NextIsAct(s1, es[1]);
    OpeningTime(s);
  }

  // ----- the request and its release

  lemma PayQueues(s: State)
    requires RefundsOk(s)
    ensures var o := Pay(s, OWNER, OWNER, OWNER, -1, 0, false);
            o.Some? ==> OWNER in o.value.refunds && OWNER in o.value.undelegated && o.value.undelegated[OWNER] == s.votes.now
  {
    hide Token.Transfer;
    assert OWNER in s.refunds ==> RefundRow(s.refunds[OWNER]);
  }

  // The state t, at the end of the run, has the owner's request of time f past the opening.
  ghost predicate Requested(s: State, f: int) {
    OWNER in s.refunds && OWNER in s.undelegated && s.undelegated[OWNER] == OPENING + f
    && s.votes.producers == map[] && s.votes.now == OPENING + f
  }

  lemma UnstakeQueues(s: State, e: Event, f: int)
    requires e.time == OPENING + f && e.action == Unstake(OWNER, OWNER, 1, 0)
    requires Opened(s) && Inv(Tick(s, e)) && VotingAborts.Listed(Tick(s, e).votes) && Voting.Shape(Tick(s, e).votes)
    ensures Act(Tick(s, e), e.action).Some? && Requested(Act(Tick(s, e), e.action).value, f)
  {
    hide Act, Voting.UpdateVotes, Voting.Shape, VotingAborts.Listed, VotingTallies.Inv, Agree, RamOk, RefundsOk,
         ProducersStaked, Stakes, GuardPasses, ChangeBw, Pay, Delegate, Receive, Voting.UpdateVotingPower;
    var t := Tick(s, e);
    UndelegateBwSucceeds(t, OWNER, OWNER, 1, 0);
    ActIsStake(t, e.action);
    ChangeBwTables(t, OWNER, OWNER, -1, 0, false);
    PayQueues(t);
    StakeMoves(t.votes, OWNER, -1);
    VotingAborts.StakeChangeLists(t.votes, OWNER, -1);
    var s' := Act(t, e.action).value;
    assert s'.votes.producers.Keys == {};
  }

  lemma RequestTime(s: State, f: int)
    requires Requested(s, f)
    ensures s.votes.now == OPENING + f && s.votes.producers == map[]
    ensures OWNER in s.undelegated && s.undelegated[OWNER] == OPENING + f
  {
  }

  lemma RefundDue(s: State, e: Event, f: int)
    requires 0 <= f < 1000000 && e.time == RELEASE && Requested(s, f)
    requires Inv(Tick(s, e)) && 0 <= Backing(Tick(s, e))
    ensures Refund(Tick(s, e), OWNER).Some?
  {
    hide Inv, Backing, Refund;
    RefundSucceeds(Tick(s, e), OWNER);
  }

  /** Three full days are not guaranteed: whatever fraction of a second past a whole second a stake
      is taken back, so much earlier the refund can be claimed. */
  lemma RefundBeforeThreeDays(w: real, f: int)
    requires 0.0 < w && 0 <= f < 1000000
    ensures exists s: State ::
              && IsRun(Opening(w), EarlyRun(w, f), s) && OWNER in s.undelegated
              && Refund(Tick(s, Event(RELEASE, w, ClaimRefund(OWNER))), OWNER).Some?
              && RELEASE - s.undelegated[OWNER] == REFUND_DELAY * 1000000 - f
  {
    hide DelegateBw, UndelegateBw, Voting.UpdateVotes, Voting.Shape, Act, Next, Inv, VotingAborts.Listed, Tick,
         Opened, Requested, Weighty, Refund, IsRun, Backing, Opening;
    var es := EarlyRun(w, f);
    var s2 := Voted(w, es);
    OpeningTime(s2);
    NotByBallot(Tick(s2, es[2]), es[2].action);
    var s := Step(w, es, 2, s2);
    UnstakeQueues(s2, es[2], f);
    NextIsAct(s2, es[2]);
    assert es[..3] == es;
    var e := Event(RELEASE, w, ClaimRefund(OWNER));
    RequestTime(s, f);
    TickKeeps(s, e);
    RefundDue(s, e, f);
  }
}
