/** What the actions of the vote ledger do to stakes and to the producers' active flags: nothing
    but update_voting_power moves a stake. */
module StakingVotes {
  import opened Common
  import opened Voting
  import opened VotingActions

  ghost predicate SameStakes(v: State, v': State) {
    && (forall a :: StakeOf(v', a) == StakeOf(v, a))
    && forall p :: Active(v', p) == Active(v, p)
  }

  lemma StructureKeepsStakes(v: State, v': State)
    requires SameStructure(v, v')
    ensures SameStakes(v, v') && v'.now == v.now && v'.activationTime == v.activationTime
    ensures v'.voters.Keys == v.voters.Keys
  {
  }

  lemma BeginVoteKeepsStakes(s: State, v: Name, proxy: Option<Name>, voting: bool)
    requires Shape(s) && v in s.voters && ProxyOk(s, proxy, voting)
    ensures BeginVote(s, v, proxy, voting).Some? ==>
              var s' := BeginVote(s, v, proxy, voting).value;
              SameStakes(s, s') && s'.now == s.now && (s.activationTime != 0 ==> s'.activationTime == s.activationTime)
  {
    hide Withdraw, SameStructure, SameStakes, RowOk, Ranked, Rerank;
    var s0 := Activate(s, s.voters[v]);
    ActivatedFits(s, v);
    var o := Withdraw(s0, s.voters[v]);
    if o.Some? {
      StructureKeepsStakes(s0, o.value);
      FieldsKeepStakes(s, s0);
      FieldsKeepStakes(o.value, Rerank(o.value, proxy));
      SameStakesTrans(s, s0, o.value);
      SameStakesTrans(s, o.value, Rerank(o.value, proxy));
      RerankKeepsFields(o.value, proxy);
    }
  }

  lemma RerankKeepsFields(s: State, proxy: Option<Name>)
    ensures Rerank(s, proxy).now == s.now && Rerank(s, proxy).activationTime == s.activationTime
    ensures Rerank(s, proxy).voters == s.voters && Rerank(s, proxy).producers == s.producers
  {
  }

  lemma FieldsKeepStakes(s: State, s': State)
    ensures s'.voters == s.voters && s'.producers == s.producers ==> SameStakes(s, s')
  {
  }

  lemma SameStakesTrans(s: State, s': State, s'': State)
    ensures SameStakes(s, s') && SameStakes(s', s'') ==> SameStakes(s, s'')
  {
  }

  lemma RowKeepsStakes(s: State, v: Name, r: Voter, c: real)
    requires v in s.voters && r.staked == s.voters[v].staked
    ensures SameStakes(s, s.(voters := s.voters[v := r], clamped := c))
  {
  }

  lemma CompleteVoteKeepsStakes(s: State, v: Name, r: Voter, proxy: Option<Name>, producers: seq<Name>, nw: real)
    requires Ranked(s) && v in s.voters && (proxy.Some? ==> proxy.value in s.voters)
    ensures CompleteVote(s, v, r, proxy, producers, nw).Some? ==>
              var s' := CompleteVote(s, v, r, proxy, producers, nw).value;
              SameStakes(s, s') && s'.now == s.now && s'.activationTime == s.activationTime
  {
    hide Endorse, ApplyChanges, SameStructure, SameStakes, BallotChanges, Ranked;
    var o := Endorse(s, proxy, nw);
    if CompleteVote(s, v, r, proxy, producers, nw).Some? {
      var s1 := o.value;
      var s2 := ApplyChanges(s1, BallotChanges(r, producers, nw), true);
      StructureKeepsStakes(s, s1);
      ApplyKeepsStructure(s1, BallotChanges(r, producers, nw), true);
      StructureKeepsStakes(s1, s2);
      var row := s2.voters[v].(last := nw, producers := producers, proxy := proxy);
      RowKeepsStakes(s2, v, row, s2.clamped + Swallowed(nw));
      SameStakesTrans(s, s1, s2);
      SameStakesTrans(s, s2, s2.(voters := s2.voters[v := row], clamped := s2.clamped + Swallowed(nw)));
    }
  }

  /** A vote moves no stake. */
  lemma UpdateVotesKeepsStakes(s: State, v: Name, proxy: Option<Name>, producers: seq<Name>, voting: bool)
    requires Shape(s)
    ensures UpdateVotes(s, v, proxy, producers, voting).Some? ==>
              var s' := UpdateVotes(s, v, proxy, producers, voting).value;
              SameStakes(s, s') && s'.now == s.now && (s.activationTime != 0 ==> s'.activationTime == s.activationTime)
  {
    hide BeginVote, CompleteVote, SameStakes, Weight, RowOk, Ranked, BallotOk, Electable;
    if UpdateVotes(s, v, proxy, producers, voting).Some? {
      BeginVoteKeepsStakes(s, v, proxy, voting);
      var s1 := BeginVote(s, v, proxy, voting).value;
      CompleteVoteKeepsStakes(s1, v, s.voters[v], proxy, producers, Weight(s.voters[v], s.stakeRate));
      SameStakesTrans(s, s1, UpdateVotes(s, v, proxy, producers, voting).value);
    }
  }

  lemma FlipKeepsOrder(s: State, v: Name, isProxy: bool)
    requires Ranked(s) && v in s.voters
    ensures Ranked(s.(voters := s.voters[v := s.voters[v].(isProxy := isProxy)]))
  {
  }

  lemma RegProxyKeepsStakes(s: State, v: Name, isProxy: bool)
    requires Shape(s)
    ensures RegProxy(s, v, isProxy).Some? ==>
              var s' := RegProxy(s, v, isProxy).value;
              SameStakes(s, s') && s'.now == s.now && s'.activationTime == s.activationTime
  {
    hide Propagate, SameStructure, RowOk, Weight, Ranked;
    if v in s.voters && RegProxy(s, v, isProxy).Some? {
      var s1 := s.(voters := s.voters[v := s.voters[v].(isProxy := isProxy)]);
      assert Ranked(s1) by { FlipKeepsOrder(s, v, isProxy); }
      PropagateFrame(s1, v);
      StructureKeepsStakes(s1, RegProxy(s, v, isProxy).value);
    }
  }

  /** A stake change moves exactly that voter's stake. */
  lemma StakeMoves(s: State, v: Name, delta: int)
    requires Shape(s)
    ensures UpdateVotingPower(s, v, delta).Some? ==>
              var s' := UpdateVotingPower(s, v, delta).value;
              && (forall a :: StakeOf(s', a) == StakeOf(s, a) + if a == v then delta else 0)
              && (forall p :: Active(s', p) == Active(s, p))
              && s'.now == s.now
  {
    hide UpdateVotes, RowOk, Weight;
    if UpdateVotingPower(s, v, delta).Some? {
      var r := if v in s.voters then s.voters[v] else NEW_VOTER;
      var s1 := s.(voters := s.voters[v := r.(staked := r.staked + delta)],
                   rank := if v in s.rank then s.rank else s.rank[v := 0]);
      StakeFits(s, v, delta);
      if Backs(r) {
        UpdateVotesKeepsStakes(s1, v, r.proxy, r.producers, false);
      }
    }
  }
}
