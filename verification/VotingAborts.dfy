/** When the actions of the vote ledger abort: a change of weight travels along proxy edges, and
    fails only where it comes to rest at a row that lists an unregistered producer. */
module VotingAborts {
  import opened Common
  import opened Voting
  import opened VotingChains
  import opened VotingTallies
  import opened VotingActions
  import opened VotingMachine

  // ----- one action

  /** What an account may ask of its old proxy: to give back the weight it was lent. */
  ghost predicate Releases(s: State, v: Name)
    requires Ranked(s) && v in s.voters
  {
    var r := s.voters[v];
    r.proxy.Some? && 0.0 < r.last ==> Unblocked(s, r.proxy.value, -r.last)
  }

  // What it may ask of the new one, once the old proxy has been dealt with.
  ghost predicate Receives(s: State, proxy: Option<Name>, nw: real)
    requires Ranked(s) && (proxy.Some? ==> proxy.value in s.voters)
  {
    proxy.Some? && 0.0 <= nw ==> Unblocked(s, proxy.value, nw)
  }

  ghost predicate ReceivesAfter(s: State, v: Name, proxy: Option<Name>, voting: bool)
    requires Shape(s) && v in s.voters && ProxyOk(s, proxy, voting)
  {
    var o := BeginVote(s, v, proxy, voting);
    o.Some? ==> Receives(o.value, proxy, Weight(s.voters[v], s.stakeRate))
  }

  lemma LendUnblocked(s: State, q: Name, x: real)
    requires Ranked(s) && q in s.voters
    ensures Lend(s, q, x).Some? <==> Unblocked(s, q, x)
  {
    hide Propagate, Unblocked, SameStructure;
    PropagateUnblocked(s, q, x);
  }

  lemma BeginVoteExact(s: State, v: Name, proxy: Option<Name>, voting: bool)
    requires Shape(s) && v in s.voters && ProxyOk(s, proxy, voting)
    ensures BeginVote(s, v, proxy, voting).Some? <==> Releases(s, v)
  {
    hide Lend, Unblocked, RowOk, Rerank;
    var r := s.voters[v];
    var s0 := Activate(s, r);
    RankedAt(s, v);
    if r.proxy.Some? && 0.0 < r.last {
      LendUnblocked(s0, r.proxy.value, -r.last);
      UnblockedBelow(s, s0, r.proxy.value, -r.last);
    }
  }

  lemma CompleteVoteExact(s: State, v: Name, r: Voter, proxy: Option<Name>, producers: seq<Name>, nw: real)
    requires Ranked(s) && v in s.voters && (proxy.Some? ==> proxy.value in s.voters)
    ensures CompleteVote(s, v, r, proxy, producers, nw).Some? <==> Receives(s, proxy, nw)
  {
    hide Lend, Unblocked, ApplyChanges, BallotChanges, Ranked;
    if proxy.Some? { LendUnblocked(s, proxy.value, nw); }
  }

  /** update_votes succeeds exactly when its checks pass and no weight comes to rest, on its way
      from the old proxy or to the new one, at a row that lists an unregistered producer. */
  lemma UpdateVotesExact(s: State, v: Name, proxy: Option<Name>, producers: seq<Name>, voting: bool)
    requires Shape(s)
    ensures UpdateVotes(s, v, proxy, producers, voting).Some?
            <==> Allowed(s, v, proxy, producers, voting) && Releases(s, v) && ReceivesAfter(s, v, proxy, voting)
  {
    hide Weight, BeginVote, CompleteVote, BallotOk, Electable, Releases, Receives, RowOk;
    if Allowed(s, v, proxy, producers, voting) {
      BeginVoteExact(s, v, proxy, voting);
      var o := BeginVote(s, v, proxy, voting);
      if o.Some? {
        CompleteVoteExact(o.value, v, s.voters[v], proxy, producers, Weight(s.voters[v], s.stakeRate));
      }
    }
  }

  /** A voter without a proxy can tell from the table before its vote. */
  lemma FirstProxyExact(s: State, v: Name, q: Name)
    requires Shape(s) && v in s.voters && s.voters[v].proxy.None?
    ensures UpdateVotes(s, v, Some(q), [], true).Some?
            <==> Allowed(s, v, Some(q), [], true) && Unblocked(s, q, Weight(s.voters[v], s.stakeRate))
  {
    hide Weight, UpdateVotes, Withdraw, ChainRest, RowOk, BallotOk, Electable, Ranked;
    UpdateVotesExact(s, v, Some(q), [], true);
    if Allowed(s, v, Some(q), [], true) {
      var o := BeginVote(s, v, Some(q), true);
      BeginWithoutProxy(s, v, Some(q));
      ChainRestSameRows(s, o.value, q, Weight(s.voters[v], s.stakeRate));
      UnlentWeight(s.voters[v], s.stakeRate) by { assert RowOk(s.voters[v]); StakedNotNegative(s, v); }
    }
  }

  lemma StakedNotNegative(s: State, v: Name)
    requires Shape(s) && v in s.voters
    ensures 0 <= s.voters[v].staked
  {
    assert RowOk(s.voters[v]);
  }

  lemma BeginWithoutProxy(s: State, v: Name, proxy: Option<Name>)
    requires Shape(s) && v in s.voters && s.voters[v].proxy.None? && ProxyOk(s, proxy, true)
    ensures var o := BeginVote(s, v, proxy, true);
            o.Some? && o.value.voters == s.voters && o.value.producers == s.producers && o.value.stakeRate == s.stakeRate
  {
    hide RowOk;
  }

  /** regproxy succeeds exactly when the status changes, an account with a proxy does not become
      one, and the changed weight can come to rest. */
  lemma RegProxyExact(s: State, v: Name, isProxy: bool)
    requires Shape(s)
    ensures v !in s.voters ==> RegProxy(s, v, isProxy).Some?
    ensures v in s.voters ==>
              var s1 := s.(voters := s.voters[v := s.voters[v].(isProxy := isProxy)]);
              RegProxy(s, v, isProxy).Some?
              <==> && isProxy != s.voters[v].isProxy && !(isProxy && s.voters[v].proxy.Some?)
                   && Ranked(s1) && Unblocked(s1, v, 0.0)
  {
    hide Propagate, Unblocked, RowOk;
    if v in s.voters {
      var s1 := s.(voters := s.voters[v := s.voters[v].(isProxy := isProxy)]);
      assert Ranked(s1);
      PropagateUnblocked(s1, v, 0.0);
      assert s1.voters[v].(proxied := s1.voters[v].proxied + 0.0) == s1.voters[v];
      assert AddProxied(s1, v, 0.0).voters == s1.voters;
      assert AddProxied(s1, v, 0.0) == s1;
    }
  }

  // The table with v's new stake, before its vote is renewed.
  ghost function Restaked(s: State, v: Name, delta: int): State
    requires v in s.voters
  {
    s.(voters := s.voters[v := s.voters[v].(staked := s.voters[v].staked + delta)])
  }

  lemma RestakedFits(s: State, v: Name, delta: int)
    requires Shape(s) && v in s.voters && 0 <= s.voters[v].staked + delta
    requires Vested(v, s.voters[v].staked + delta, s.now)
    ensures Shape(Restaked(s, v, delta))
    ensures var r := s.voters[v];
            Backs(r) ==> UpdateVotingPower(s, v, delta) == UpdateVotes(Restaked(s, v, delta), v, r.proxy, r.producers, false)
    ensures !Backs(s.voters[v]) ==> UpdateVotingPower(s, v, delta).Some?
  {
    hide UpdateVotes, RowOk, Ranked;
    StakeFits(s, v, delta);
    RankedAt(s, v);
    var r := s.voters[v];
    assert s.(voters := s.voters[v := r.(staked := r.staked + delta)], rank := s.rank) == Restaked(s, v, delta);
  }

  // A renewed vote needs no new permission but that its producers are registered.
  lemma RenewalAllowed(s: State, v: Name)
    requires Shape(s) && v in s.voters
    ensures Allowed(s, v, s.voters[v].proxy, s.voters[v].producers, false)
            <==> AllRegistered(s, GivenTo(s.voters[v].producers, Weight(s.voters[v], s.stakeRate)))
  {
    hide Weight;
    RankedAt(s, v);
    assert RowOk(s.voters[v]);
  }

  /** A stake change is refused exactly when it would leave a negative stake, or b1 less than it must
      keep, or the renewed vote cannot come to rest. */
  lemma StakeChangeExact(s: State, v: Name, delta: int)
    requires Shape(s)
    ensures v !in s.voters ==> (UpdateVotingPower(s, v, delta).Some? <==> 0 <= delta && Vested(v, delta, s.now))
    ensures v in s.voters ==>
              (UpdateVotingPower(s, v, delta).Some?
               <==> && 0 <= s.voters[v].staked + delta && Vested(v, s.voters[v].staked + delta, s.now)
                    && (Backs(s.voters[v]) ==> RenewalFits(Restaked(s, v, delta), v)))
  {
    hide UpdateVotes, Ranked, RowOk, RenewalFits, Vested;
    if v in s.voters && 0 <= s.voters[v].staked + delta && Vested(v, s.voters[v].staked + delta, s.now) {
      RestakedFits(s, v, delta);
      if Backs(s.voters[v]) { RenewalExact(Restaked(s, v, delta), v); }
    }
  }

  ghost predicate RenewalFits(s: State, v: Name)
    requires v in s.voters
  {
    && Shape(s) && AllRegistered(s, GivenTo(s.voters[v].producers, Weight(s.voters[v], s.stakeRate)))
    && ProxyOk(s, s.voters[v].proxy, false) && Releases(s, v) && ReceivesAfter(s, v, s.voters[v].proxy, false)
  }

  lemma RenewalExact(s: State, v: Name)
    requires Shape(s) && v in s.voters
    ensures UpdateVotes(s, v, s.voters[v].proxy, s.voters[v].producers, false).Some? <==> RenewalFits(s, v)
  {
    hide UpdateVotes, Releases, ReceivesAfter, RowOk, BallotOk, Weight;
    UpdateVotesExact(s, v, s.voters[v].proxy, s.voters[v].producers, false);
    RenewalAllowed(s, v);
    RankedAt(s, v);
  }

  // ----- tables in which every listed producer is registered

  // Every row names registered producers only.
  ghost predicate Listed(s: State) {
    forall v | v in s.voters :: AllRegistered(s, s.voters[v].producers)
  }

  lemma ListedUnblocks(s: State, v: Name, x: real)
    requires Ranked(s) && v in s.voters && Listed(s)
    ensures Unblocked(s, v, x)
  {
  }

  lemma StructureKeepsListed(s: State, s': State)
    requires SameStructure(s, s')
    ensures Listed(s') <==> Listed(s)
  {
    if Listed(s') {
      forall v | v in s.voters
        ensures AllRegistered(s, s.voters[v].producers)
      {
        assert AllRegistered(s', s'.voters[v].producers);
      }
    }
    if Listed(s) {
      forall v | v in s'.voters
        ensures AllRegistered(s', s'.voters[v].producers)
      {
        assert AllRegistered(s, s.voters[v].producers);
      }
    }
  }

  lemma BeginVoteLists(s: State, v: Name, proxy: Option<Name>, voting: bool)
    requires Shape(s) && v in s.voters && ProxyOk(s, proxy, voting)
    ensures BeginVote(s, v, proxy, voting).Some? ==>
              BeginVote(s, v, proxy, voting).value.producers.Keys == s.producers.Keys
  {
    hide Withdraw, SameStructure, RowOk, Ranked;
    ActivatedFits(s, v);
    var o := Withdraw(Activate(s, s.voters[v]), s.voters[v]);
    if o.Some? { StructureKeys(Activate(s, s.voters[v]), o.value); }
  }

  lemma CompleteVoteLists(s: State, v: Name, r: Voter, proxy: Option<Name>, producers: seq<Name>, nw: real)
    requires Ranked(s) && v in s.voters && (proxy.Some? ==> proxy.value in s.voters)
    ensures var o := CompleteVote(s, v, r, proxy, producers, nw);
            o.Some? ==>
              && o.value.producers.Keys == s.producers.Keys
              && v in o.value.voters && o.value.voters[v].producers == producers
  {
    hide Endorse, ApplyChanges, SameStructure, BallotChanges, Ranked;
    var o := Endorse(s, proxy, nw);
    if CompleteVote(s, v, r, proxy, producers, nw).Some? {
      StructureKeys(s, o.value);
      ApplyKeepsStructure(o.value, BallotChanges(r, producers, nw), true);
      StructureKeys(o.value, ApplyChanges(o.value, BallotChanges(r, producers, nw), true));
    }
  }

  lemma VoteLists(s: State, v: Name, proxy: Option<Name>, producers: seq<Name>, voting: bool)
    requires Shape(s)
    ensures var o := UpdateVotes(s, v, proxy, producers, voting);
            o.Some? ==>
              && OthersKeep(s, o.value, v) && o.value.producers.Keys == s.producers.Keys
              && v in s.voters && o.value.voters[v].producers == producers
  {
    hide BeginVote, CompleteVote, OthersKeep, Weight, RowOk, Ranked, BallotOk, Electable;
    VoteKeepsOthers(s, v, proxy, producers, voting);
    if UpdateVotes(s, v, proxy, producers, voting).Some? {
      BeginVoteLists(s, v, proxy, voting);
      var s1 := BeginVote(s, v, proxy, voting).value;
      CompleteVoteLists(s1, v, s.voters[v], proxy, producers, Weight(s.voters[v], s.stakeRate));
    }
  }

  lemma OneBallotChanged(s: State, s': State, v: Name)
    requires OthersKeep(s, s', v) && s'.producers.Keys == s.producers.Keys && v in s.voters
    ensures Listed(s) ==> (Listed(s') <==> AllRegistered(s, s'.voters[v].producers))
  {
    if Listed(s) && AllRegistered(s, s'.voters[v].producers) {
      forall x | x in s'.voters
        ensures AllRegistered(s', s'.voters[x].producers)
      {
        assert AllRegistered(s, s.voters[x].producers);
      }
    }
  }

  /** An accepted vote puts an unregistered producer into the table exactly when it names one, and
      only a voter of negative weight can name one. */
  lemma VoteKeepsListed(s: State, v: Name, proxy: Option<Name>, producers: seq<Name>, voting: bool)
    requires Shape(s) && Listed(s) && UpdateVotes(s, v, proxy, producers, voting).Some?
    ensures Listed(UpdateVotes(s, v, proxy, producers, voting).value) <==> AllRegistered(s, producers)
    ensures v in s.voters && (0.0 <= Weight(s.voters[v], s.stakeRate) ==> AllRegistered(s, producers))
  {
    hide BeginVote, CompleteVote, OthersKeep, Weight, RowOk, Ranked, BallotOk, Listed;
    VoteLists(s, v, proxy, producers, voting);
    OneBallotChanged(s, UpdateVotes(s, v, proxy, producers, voting).value, v);
  }

  lemma RegProxyKeepsListed(s: State, v: Name, isProxy: bool)
    requires Shape(s) && Listed(s)
    ensures RegProxy(s, v, isProxy).Some? ==> Listed(RegProxy(s, v, isProxy).value)
  {
    hide Propagate, RowOk, SameStructure;
    if v !in s.voters {
      NewRowKeepsListed(s, v, NEW_VOTER.(isProxy := isProxy), s.rank[v := 0]);
    } else if RegProxy(s, v, isProxy).Some? {
      var s1 := s.(voters := s.voters[v := s.voters[v].(isProxy := isProxy)]);
      PropagateFrame(s1, v);
      assert AllRegistered(s, s.voters[v].producers);
      NewRowKeepsListed(s, v, s1.voters[v], s.rank);
      StructureKeepsListed(s1, RegProxy(s, v, isProxy).value);
    }
  }

  lemma NewRowKeepsListed(s: State, v: Name, r: Voter, rank: Ranks)
    requires Listed(s) && AllRegistered(s, r.producers)
    ensures Listed(s.(voters := s.voters[v := r], rank := rank))
  {
    var s' := s.(voters := s.voters[v := r], rank := rank);
    forall x | x in s'.voters
      ensures AllRegistered(s', s'.voters[x].producers)
    {
      assert x != v ==> AllRegistered(s, s.voters[x].producers);
    }
  }

  lemma StakeChangeKeepsListed(s: State, v: Name, delta: int)
    requires Shape(s) && Listed(s)
    ensures UpdateVotingPower(s, v, delta).Some? ==> Listed(UpdateVotingPower(s, v, delta).value)
  {
    hide UpdateVotes, RowOk, Listed;
    if UpdateVotingPower(s, v, delta).Some? {
      var r := if v in s.voters then s.voters[v] else NEW_VOTER;
      assert AllRegistered(s, r.producers) by { ListedAt(s, v); }
      var rank := if v in s.rank then s.rank else s.rank[v := 0];
      NewRowKeepsListed(s, v, r.(staked := r.staked + delta), rank);
      var s1 := s.(voters := s.voters[v := r.(staked := r.staked + delta)], rank := rank);
      StakeFits(s, v, delta);
      if Backs(r) { VoteKeepsListed(s1, v, r.proxy, r.producers, false); }
    }
  }

  lemma StakeChangeLists(s: State, v: Name, delta: int)
    requires Shape(s) && UpdateVotingPower(s, v, delta).Some?
    ensures UpdateVotingPower(s, v, delta).value.producers.Keys == s.producers.Keys
  {
    hide UpdateVotes, RowOk, Ranked;
    if v in s.voters {
      var r := s.voters[v];
      RestakedFits(s, v, delta);
      if Backs(r) { VoteLists(Restaked(s, v, delta), v, r.proxy, r.producers, false); }
    }
  }

  lemma ListedAt(s: State, v: Name)
    requires Listed(s)
    ensures v in s.voters ==> AllRegistered(s, s.voters[v].producers)
  {
  }

  lemma MoreProducersListed(s: State, s': State)
    requires Listed(s) && s'.voters == s.voters && s.producers.Keys <= s'.producers.Keys
    ensures Listed(s')
  {
    forall x | x in s'.voters
      ensures AllRegistered(s', s'.voters[x].producers)
    {
      assert AllRegistered(s, s.voters[x].producers);
    }
  }

  // The action is no ballot of a negative weight.
  ghost predicate Weighty(s: State, a: Action) {
    a.Vote? && a.voter in s.voters ==> 0.0 <= Weight(s.voters[a.voter], s.stakeRate)
  }

  lemma NextKeepsListed(s: State, e: Event)
    requires Shape(Tick(s, e)) && Listed(s) && Weighty(Tick(s, e), e.action)
    ensures Listed(Next(s, e))
  {
    hide UpdateVotes, RegProxy, UpdateVotingPower, Listed, Ranked, RowOk, Weight;
    var t := Tick(s, e);
    MoreProducersListed(s, t);
    match e.action
    case Vote(v, proxy, producers) =>
      if UpdateVotes(t, v, proxy, producers, true).Some? { VoteKeepsListed(t, v, proxy, producers, true); }
    case SetProxy(v, isProxy) => RegProxyKeepsListed(t, v, isProxy);
    case ChangeStake(v, delta) => StakeChangeKeepsListed(t, v, delta);
    case Register(p) => MoreProducersListed(t, RegisterProducer(t, p));
    case Unregister(p) => if p in t.producers { MoreProducersListed(t, Deactivate(t, p).value); }
  }

  // The checks of each action, read off the table.
  ghost predicate Permitted(s: State, a: Action) {
    match a
    case Vote(v, proxy, producers) => Allowed(s, v, proxy, producers, true)
    case SetProxy(v, isProxy) =>
      v in s.voters ==> isProxy != s.voters[v].isProxy && !(isProxy && s.voters[v].proxy.Some?)
    case ChangeStake(v, delta) => 0 <= StakeOf(s, v) + delta && Vested(v, StakeOf(s, v) + delta, s.now)
    case Register(_) => true
    case Unregister(p) => p in s.producers
  }

  lemma VoteSucceeds(s: State, v: Name, proxy: Option<Name>, producers: seq<Name>, voting: bool)
    requires Shape(s) && Listed(s)
    ensures UpdateVotes(s, v, proxy, producers, voting).Some? <==> Allowed(s, v, proxy, producers, voting)
  {
    hide UpdateVotes, BeginVote, Weight, BallotOk, Electable, Unblocked, RowOk, Listed;
    UpdateVotesExact(s, v, proxy, producers, voting);
    if Allowed(s, v, proxy, producers, voting) {
      RankedAt(s, v);
      var r := s.voters[v];
      if r.proxy.Some? { ListedUnblocks(s, r.proxy.value, -r.last); }
      var o := BeginVote(s, v, proxy, voting);
      if o.Some? && proxy.Some? {
        BeginVoteKeepsListed(s, v, proxy, voting);
        ListedUnblocks(o.value, proxy.value, Weight(r, s.stakeRate));
      }
    }
  }

  lemma BeginVoteKeepsListed(s: State, v: Name, proxy: Option<Name>, voting: bool)
    requires Shape(s) && v in s.voters && ProxyOk(s, proxy, voting) && Listed(s)
    ensures BeginVote(s, v, proxy, voting).Some? ==> Listed(BeginVote(s, v, proxy, voting).value)
  {
    hide Withdraw, SameStructure, RowOk, Ranked, Listed;
    ActivatedFits(s, v);
    var s0 := Activate(s, s.voters[v]);
    MoreProducersListed(s, s0);
    var o := Withdraw(s0, s.voters[v]);
    if o.Some? {
      StructureKeepsListed(s0, o.value);
      MoreProducersListed(o.value, BeginVote(s, v, proxy, voting).value);
    }
  }

  lemma StakeChangeSucceeds(s: State, v: Name, delta: int)
    requires Shape(s) && Listed(s)
    ensures UpdateVotingPower(s, v, delta).Some? <==> 0 <= StakeOf(s, v) + delta && Vested(v, StakeOf(s, v) + delta, s.now)
  {
    hide UpdateVotes, RowOk, Listed, RenewalFits, Vested;
    if v in s.voters && 0 <= s.voters[v].staked + delta && Vested(v, s.voters[v].staked + delta, s.now) {
      var r, s1 := s.voters[v], Restaked(s, v, delta);
      RestakedFits(s, v, delta);
      ListedAt(s, v);
      NewRowKeepsListed(s, v, s1.voters[v], s.rank);
      if Backs(r) {
        VoteSucceeds(s1, v, r.proxy, r.producers, false);
        RenewalAllowed(s1, v);
      }
    }
  }

  /** While every listed producer is registered, an action aborts only on the checks it states:
      "old proxy not found", "proxy not found" and "producer not found" cannot occur. */
  lemma ActSucceeds(s: State, a: Action)
    requires Shape(s) && Listed(s)
    ensures Act(s, a).Some? <==> Permitted(s, a)
  {
    hide UpdateVotes, RegProxy, UpdateVotingPower, Listed, Ranked, RowOk, Allowed, Unblocked;
    match a
    case Vote(v, proxy, producers) => VoteSucceeds(s, v, proxy, producers, true);
    case SetProxy(v, isProxy) =>
      RegProxyExact(s, v, isProxy);
      if v in s.voters && Permitted(s, a) {
        var s1 := s.(voters := s.voters[v := s.voters[v].(isProxy := isProxy)]);
        FlipFitsHere(s, v, isProxy);
        ListedUnblocks(s1, v, 0.0);
      }
    case ChangeStake(v, delta) => StakeChangeSucceeds(s, v, delta);
    case Register(p) =>
    case Unregister(p) =>
  }

  lemma FlipFitsHere(s: State, v: Name, isProxy: bool)
    requires Shape(s) && v in s.voters && Listed(s)
    ensures var s1 := s.(voters := s.voters[v := s.voters[v].(isProxy := isProxy)]);
            Ranked(s1) && Listed(s1)
  {
    ListedAt(s, v);
    var s1 := s.(voters := s.voters[v := s.voters[v].(isProxy := isProxy)]);
    NewRowKeepsListed(s, v, s1.voters[v], s.rank);
  }

  // ----- runs

  // A run in which no ballot is cast with a negative weight.
  ghost predicate WeightyRun(s: State, es: seq<Event>)
    decreases |es|
  {
    es != [] && Shape(Tick(s, es[0])) ==> Weighty(Tick(s, es[0]), es[0].action) && WeightyRun(Next(s, es[0]), es[1..])
  }

  lemma {:induction false} RunKeepsListed(s: State, es: seq<Event>, s': State)
    requires Inv(s) && Listed(s) && IsRun(s, es, s') && WeightyRun(s, es)
    ensures Listed(s')
    decreases |es|
  {
    hide Inv, Next, Shape, Weighty, Listed;
    if es != [] {
      NextKeeps(s, es[0]);
      NextKeepsListed(s, es[0]);
      RunKeepsListed(Next(s, es[0]), es[1..], s');
    }
  }

  /** In every run, with or without drops, a row's proxy exists; and as long as no ballot is cast
      with a negative weight every listed producer is registered, so that an action aborts only
      on the checks it states. */
  lemma NothingGoesMissing(now: int, rate: real, es: seq<Event>, s: State, e: Event)
    requires 0 < now && 0.0 < rate && IsRun(Genesis(now, rate), es, s) && Orderly(s, e)
    ensures Shape(Tick(s, e))
    ensures forall v | v in s.voters && s.voters[v].proxy.Some? :: s.voters[v].proxy.value in s.voters
    ensures WeightyRun(Genesis(now, rate), es) ==>
              Listed(s) && (Act(Tick(s, e), e.action).Some? <==> Permitted(Tick(s, e), e.action))
  {
    hide Act, Permitted, Sound, Listed, RowOk, WeightyRun;
    GenesisInv(now, rate);
    RunKeeps(Genesis(now, rate), es, s);
    TickKeeps(s, e);
    if WeightyRun(Genesis(now, rate), es) {
      assert Listed(Genesis(now, rate)) by { EmptyListed(now, rate); }
      RunKeepsListed(Genesis(now, rate), es, s);
      MoreProducersListed(s, Tick(s, e));
      ActSucceeds(Tick(s, e), e.action);
    }
  }

  lemma EmptyListed(now: int, rate: real)
    ensures Listed(Genesis(now, rate))
  {
  }
}
