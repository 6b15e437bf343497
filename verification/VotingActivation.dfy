/** How the chain is activated: each account's vote adds its stake once, until enough has voted. */
module VotingActivation {
  import opened Common
  import opened Voting
  import opened VotingTallies
  import opened VotingActions
  import opened VotingMachine
  import opened VotingAborts

  /** What one step may do to the activation when x units of stake vote for the first time: before it,
      they are added, and the chain is activated once 150,000,000.0000 tokens have voted, not before
      1 September 2020; after it, nothing moves. */
  ghost predicate Activates(s: State, s': State, x: int) {
    if s.activationTime != 0 then
      s'.activatedStake == s.activatedStake && s'.activationTime == s.activationTime
    else
      && s'.activatedStake == s.activatedStake + x
      && s'.activationTime == if 1500000000000 <= s.activatedStake + x && 1598918400000000 <= s.now then s.now else 0
  }

  ghost predicate SameActivation(s: State, s': State) {
    s'.activatedStake == s.activatedStake && s'.activationTime == s.activationTime
  }

  lemma StructureKeepsActivation(s: State, s': State)
    requires SameStructure(s, s')
    ensures SameActivation(s, s')
  {
  }

  // The stake that v's vote adds to those that have voted.
  function FirstStake(s: State, v: Name): int {
    if v in s.voters && s.voters[v].last <= 0.0 then s.voters[v].staked else 0
  }

  lemma BeginVoteActivates(s: State, v: Name, proxy: Option<Name>, voting: bool)
    requires Shape(s) && v in s.voters && ProxyOk(s, proxy, voting)
    ensures BeginVote(s, v, proxy, voting).Some? ==> Activates(s, BeginVote(s, v, proxy, voting).value, FirstStake(s, v))
  {
    hide Withdraw, SameStructure, RowOk, Ranked, Rerank;
    var r := s.voters[v];
    var s0 := Activate(s, r);
    ActivatedFits(s, v);
    if BeginVote(s, v, proxy, voting).Some? {
      var s1 := Withdraw(s0, r).value;
      StructureKeepsActivation(s0, s1);
      RerankKeepsActivation(s1, proxy);
    }
  }

  lemma RerankKeepsActivation(s: State, proxy: Option<Name>)
    ensures SameActivation(s, Rerank(s, proxy))
  {
  }

  lemma CompleteVoteKeepsActivation(s: State, v: Name, r: Voter, proxy: Option<Name>, producers: seq<Name>, nw: real)
    requires Ranked(s) && v in s.voters && (proxy.Some? ==> proxy.value in s.voters)
    ensures CompleteVote(s, v, r, proxy, producers, nw).Some? ==> SameActivation(s, CompleteVote(s, v, r, proxy, producers, nw).value)
  {
    hide Endorse, ApplyChanges, SameStructure, BallotChanges, Ranked;
    if CompleteVote(s, v, r, proxy, producers, nw).Some? {
      var s1 := Endorse(s, proxy, nw).value;
      StructureKeepsActivation(s, s1);
      ApplyKeepsStructure(s1, BallotChanges(r, producers, nw), true);
      StructureKeepsActivation(s1, ApplyChanges(s1, BallotChanges(r, producers, nw), true));
    }
  }

  /** A vote adds the voter's stake if its last weight was not positive, and nothing otherwise. */
  lemma VoteActivates(s: State, v: Name, proxy: Option<Name>, producers: seq<Name>, voting: bool)
    requires Shape(s) && UpdateVotes(s, v, proxy, producers, voting).Some?
    ensures v in s.voters
    ensures Activates(s, UpdateVotes(s, v, proxy, producers, voting).value,
                      if s.voters[v].last <= 0.0 then s.voters[v].staked else 0)
  {
    hide BeginVote, CompleteVote, Weight, RowOk, Ranked, BallotOk, Electable;
    BeginVoteActivates(s, v, proxy, voting);
    var s1 := BeginVote(s, v, proxy, voting).value;
    CompleteVoteKeepsActivation(s1, v, s.voters[v], proxy, producers, Weight(s.voters[v], s.stakeRate));
  }

  // ----- every action

  // The stake that votes for the first time through an action: a stake change renews the vote.
  function NewlyVoting(s: State, a: Action): int {
    match a
    case Vote(v, _, _) => FirstStake(s, v)
    case ChangeStake(v, delta) =>
      if v in s.voters && Backs(s.voters[v]) && s.voters[v].last <= 0.0 then s.voters[v].staked + delta else 0
    case _ => 0
  }

  // The action lets somebody vote, which is when the threshold is looked at.
  predicate Votes(s: State, a: Action) {
    a.Vote? || (a.ChangeStake? && a.voter in s.voters && Backs(s.voters[a.voter]))
  }

  lemma RegProxyKeepsActivation(s: State, v: Name, isProxy: bool)
    requires Shape(s)
    ensures RegProxy(s, v, isProxy).Some? ==> SameActivation(s, RegProxy(s, v, isProxy).value)
  {
    hide Propagate, SameStructure, RowOk, Weight;
    if v in s.voters && RegProxy(s, v, isProxy).Some? {
      var s1 := s.(voters := s.voters[v := s.voters[v].(isProxy := isProxy)]);
      PropagateFrame(s1, v);
      ReachedActivation(s1, RegProxy(s, v, isProxy).value, v, Weight(s1.voters[v], s1.stakeRate));
    }
  }

  lemma ReachedActivation(s: State, s': State, v: Name, x: real)
    requires v in s.voters && s.rank.Keys == s.voters.Keys && Reached(s, s', v, x)
    ensures SameActivation(s, s')
  {
  }

  /** Only votes, and stake changes that renew one, move the activation; each as Activates says. */
  lemma ActActivates(s: State, a: Action)
    requires Shape(s) && Act(s, a).Some?
    ensures if Votes(s, a) then Activates(s, Act(s, a).value, NewlyVoting(s, a)) else SameActivation(s, Act(s, a).value)
  {
    hide UpdateVotes, RegProxy, Ranked, RowOk, Activates;
    match a
    case Vote(v, proxy, producers) => VoteActivates(s, v, proxy, producers, true);
    case SetProxy(v, isProxy) => RegProxyKeepsActivation(s, v, isProxy);
    case ChangeStake(v, delta) => StakeActivates(s, v, delta);
    case Register(p) => RegisterKeepsActivation(s, p);
    case Unregister(p) =>
  }

  lemma RegisterKeepsActivation(s: State, p: Name)
    ensures SameActivation(s, RegisterProducer(s, p))
  {
  }

  lemma StakeActivates(s: State, v: Name, delta: int)
    requires Shape(s) && UpdateVotingPower(s, v, delta).Some?
    ensures var s', a := UpdateVotingPower(s, v, delta).value, ChangeStake(v, delta);
            if Votes(s, a) then Activates(s, s', NewlyVoting(s, a)) else SameActivation(s, s')
  {
    hide UpdateVotes, Ranked, RowOk, Vested;
    if v in s.voters {
      var r := s.voters[v];
      RestakedFits(s, v, delta);
      if Backs(r) { VoteActivates(Restaked(s, v, delta), v, r.proxy, r.producers, false); }
    }
  }

  // ----- runs

  // All the stake that voted for the first time before the activation.
  ghost function FirstVotes(s: State, es: seq<Event>): int
    decreases |es|
  {
    if es == [] || !Shape(Tick(s, es[0])) then 0 else
    var t, a := Tick(s, es[0]), es[0].action;
    (if t.activationTime == 0 && Act(t, a).Some? then NewlyVoting(t, a) else 0) + FirstVotes(Next(s, es[0]), es[1..])
  }

  // The chain is activated only with enough stake, and not too early.
  ghost predicate Earned(s: State) {
    s.activationTime != 0 ==> 1500000000000 <= s.activatedStake && 1598918400000000 <= s.activationTime <= s.now
  }

  lemma StepActivates(s: State, e: Event)
    requires Inv(s) && Orderly(s, e) && Earned(s)
    ensures Shape(Tick(s, e)) && Earned(Next(s, e))
    ensures var t := Tick(s, e);
            Next(s, e).activatedStake
            == s.activatedStake + if t.activationTime == 0 && Act(t, e.action).Some? then NewlyVoting(t, e.action) else 0
    ensures s.activationTime != 0 ==> SameActivation(s, Next(s, e))
  {
    hide Sound, Act, PlainOk, Ranked, RowOk;
    NextKeeps(s, e);
    var t := Tick(s, e);
    if Act(t, e.action).Some? {
      ActActivates(t, e.action);
      NowStays(t, e.action);
      if !Votes(t, e.action) { NothingNew(t, e.action); }
    }
  }

  lemma NothingNew(s: State, a: Action)
    requires !Votes(s, a)
    ensures NewlyVoting(s, a) == 0
  {
  }

  lemma NowStays(s: State, a: Action)
    requires Inv(s) && Act(s, a).Some?
    ensures Act(s, a).value.now == s.now
  {
    hide Sound, UpdateVotes, RegProxy, Ranked, RowOk, PlainOk, Vested, Propagate;
    match a
    case Vote(v, proxy, producers) => UpdateVotesKeeps(s, v, proxy, producers, true);
    case SetProxy(v, isProxy) => RegProxyNow(s, v, isProxy);
    case ChangeStake(v, delta) => StakeNow(s, v, delta);
    case Register(p) => RegisterNow(s, p);
    case Unregister(p) =>
  }

  lemma RegisterNow(s: State, p: Name)
    ensures RegisterProducer(s, p).now == s.now
  {
  }

  lemma StakeNow(s: State, v: Name, delta: int)
    requires Inv(s) && UpdateVotingPower(s, v, delta).Some?
    ensures UpdateVotingPower(s, v, delta).value.now == s.now
  {
    hide Sound, UpdateVotes, Ranked, RowOk, PlainOk, Vested;
    if v in s.voters {
      var r := s.voters[v];
      StakedRowKeeps(s, v, r.staked + delta);
      RestakedFits(s, v, delta);
      if Backs(r) { UpdateVotesKeeps(Restaked(s, v, delta), v, r.proxy, r.producers, false); }
    }
  }

  lemma RegProxyNow(s: State, v: Name, isProxy: bool)
    requires Inv(s) && RegProxy(s, v, isProxy).Some?
    ensures RegProxy(s, v, isProxy).value.now == s.now
  {
    hide Sound, Propagate, SameStructure, RowOk, Weight, PlainOk;
    if v in s.voters {
      var s1 := s.(voters := s.voters[v := s.voters[v].(isProxy := isProxy)]);
      FlipKeeps(s, v, isProxy);
      PropagateKeepsInv(s1, v);
    }
  }

  lemma {:induction false} RunActivates(s: State, es: seq<Event>, s': State)
    requires Inv(s) && Earned(s) && IsRun(s, es, s')
    ensures Earned(s') && s'.activatedStake == s.activatedStake + FirstVotes(s, es)
    ensures s.activationTime != 0 ==> SameActivation(s, s')
    decreases |es|
  {
    hide Inv, Next, Shape, Act, NewlyVoting, Earned;
    if es != [] {
      NextKeeps(s, es[0]);
      StepActivates(s, es[0]);
      RunActivates(Next(s, es[0]), es[1..], s');
    }
  }

  /** After any run the recorded stake is that of the first votes cast before the activation; the chain
      is activated only by 150,000,000.0000 tokens of it, not before 1 September 2020, and once
      activated neither the stake nor the time ever changes. */
  lemma ActivationOfEveryRun(now: int, rate: real, es: seq<Event>, s: State, later: seq<Event>, s': State)
    requires 0 < now && 0.0 < rate && IsRun(Genesis(now, rate), es, s)
    ensures s.activatedStake == FirstVotes(Genesis(now, rate), es)
    ensures s.activationTime != 0 ==> 1500000000000 <= s.activatedStake && 1598918400000000 <= s.activationTime <= s.now
    ensures s.activationTime != 0 && IsRun(s, later, s') ==>
              s'.activatedStake == s.activatedStake && s'.activationTime == s.activationTime
  {
    hide Inv, IsRun, FirstVotes;
    GenesisInv(now, rate);
    RunKeeps(Genesis(now, rate), es, s);
    RunActivates(Genesis(now, rate), es, s);
    if IsRun(s, later, s') { RunActivates(s, later, s'); }
  }
}
