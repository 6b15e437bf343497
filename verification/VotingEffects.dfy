/** What each action of the vote ledger leaves in the tables, said without the functions that compute
    it: who may vote for whom, the rows afterwards, vote pay and b1's vesting. */
module VotingEffects {
  import opened Common
  import opened Sums
  import opened Voting
  import opened VotingIndex
  import opened VotingTallies
  import opened VotingActions
  import opened VotingMachine
  import opened VotingAborts

  // ----- voting

  /** update_votes, in full: what it checks about the ballot and the accounts named, the two chains that
      must be able to come to rest, and the row it leaves. */
  lemma UpdateVotesSpelled(s: State, v: Name, proxy: Option<Name>, producers: seq<Name>, voting: bool)
    requires Inv(s) && (voting || Renewal(s, v, proxy, producers))
    ensures var o := UpdateVotes(s, v, proxy, producers, voting);
            o.Some? <==>
              && v in s.voters
              && (if proxy.Some? then
                    && producers == [] && proxy.value != v && !s.voters[v].isProxy
                    && proxy.value in s.voters && (voting ==> s.voters[proxy.value].isProxy)
                  else |producers| <= 30 && forall i | 1 <= i < |producers| :: producers[i - 1] < producers[i])
              && (0.0 <= s.stakeRate * s.voters[v].staked as real + (if s.voters[v].isProxy then s.voters[v].proxied else 0.0) ==>
                    forall p | p in producers :: p in s.producers && (voting ==> s.producers[p].active))
              && ProxyOk(s, proxy, voting) && Releases(s, v) && ReceivesAfter(s, v, proxy, voting)
    ensures UpdateVotes(s, v, proxy, producers, voting).Some? ==>
              var s', r := UpdateVotes(s, v, proxy, producers, voting).value, s.voters[v];
              && v in s'.voters
              && s'.voters[v] == Voter(proxy, producers, r.staked,
                                       s.stakeRate * r.staked as real + (if r.isProxy then r.proxied else 0.0), r.proxied, r.isProxy)
              && OthersKeep(s, s', v)
  {
    hide Sound, UpdateVotes, Releases, ReceivesAfter, RowOk, Ranked, PlainOk, OthersKeep;
    UpdateVotesExact(s, v, proxy, producers, voting);
    UpdateVotesKeeps(s, v, proxy, producers, voting);
    VoteKeepsOthers(s, v, proxy, producers, voting);
  }

  // ----- the other actions

  // v's row is as it was but for its weight and what it was lent.
  ghost predicate KeepsBallot(s: State, s': State, v: Name) {
    v in s.voters && v in s'.voters && s'.voters[v] == s.voters[v].(last := s'.voters[v].last, proxied := s'.voters[v].proxied)
  }

  /** regproxy sets one account's status and nobody else's; all keep stake and ballot. */
  lemma RegProxySpelled(s: State, v: Name, isProxy: bool)
    requires Inv(s) && RegProxy(s, v, isProxy).Some?
    ensures var s' := RegProxy(s, v, isProxy).value;
            && s'.voters.Keys == s.voters.Keys + {v}
            && (forall x | x in s.voters && x != v :: KeepsBallot(s, s', x))
            && (if v in s.voters then
                  && s.voters[v].isProxy != isProxy && (isProxy ==> s.voters[v].proxy.None?)
                  && s'.voters[v] == s.voters[v].(isProxy := isProxy, proxied := s'.voters[v].proxied,
                                                  last := s.stakeRate * s.voters[v].staked as real + if isProxy then s.voters[v].proxied else 0.0)
                else s'.voters[v] == Voter(None, [], 0, 0.0, 0.0, isProxy))
  {
    hide Sound, Propagate, RowOk, PlainOk, KeepsBallot;
    if v in s.voters {
      RegProxyFlips(s, v, isProxy);
    } else {
      NewRowKeepsBallots(s, v, NEW_VOTER.(isProxy := isProxy));
    }
  }

  lemma NewRowKeepsBallots(s: State, v: Name, r: Voter)
    requires v !in s.voters
    ensures forall x | x in s.voters :: KeepsBallot(s, s.(voters := s.voters[v := r], rank := s.rank[v := 0]), x)
  {
  }

  lemma RegProxyFlips(s: State, v: Name, isProxy: bool)
    requires Inv(s) && v in s.voters && RegProxy(s, v, isProxy).Some?
    ensures var s' := RegProxy(s, v, isProxy).value;
            && s'.voters.Keys == s.voters.Keys
            && (forall x | x in s.voters && x != v :: KeepsBallot(s, s', x))
            && s'.voters[v] == s.voters[v].(isProxy := isProxy, proxied := s'.voters[v].proxied,
                                            last := Weight(s.voters[v].(isProxy := isProxy), s.stakeRate))
  {
    hide Sound, Propagate, RowOk, PlainOk, SameStructure, Weight, Reached;
    var s1 := s.(voters := s.voters[v := s.voters[v].(isProxy := isProxy)]);
    PropagateFrame(s1, v);
    ReachedBallots(s1, RegProxy(s, v, isProxy).value, v, Weight(s1.voters[v], s1.stakeRate));
  }

  lemma ReachedBallots(s: State, s': State, v: Name, x: real)
    requires v in s.voters && s.rank.Keys == s.voters.Keys && Reached(s, s', v, x)
    ensures s'.voters.Keys == s.voters.Keys && s'.voters[v].last == x
    ensures forall y | y in s.voters :: KeepsBallot(s, s', y)
  {
  }

  /** A stake change moves one account's stake; all keep their ballots. */
  lemma StakeChangeSpelled(s: State, v: Name, delta: int)
    requires Inv(s) && UpdateVotingPower(s, v, delta).Some?
    ensures var s' := UpdateVotingPower(s, v, delta).value;
            && s'.voters.Keys == s.voters.Keys + {v}
            && (forall x | x in s.voters && x != v :: KeepsBallot(s, s', x))
            && (if v in s.voters then
                  var r := s.voters[v];
                  s'.voters[v] == r.(staked := r.staked + delta,
                                     last := if r.proxy.None? && r.producers == [] then r.last
                                             else s.stakeRate * (r.staked + delta) as real + if r.isProxy then r.proxied else 0.0)
                else s'.voters[v] == Voter(None, [], delta, 0.0, 0.0, false))
  {
    hide Sound, UpdateVotes, RowOk, PlainOk, Ranked, Vested;
    if v in s.voters {
      var r, s1 := s.voters[v], Restaked(s, v, delta);
      StakedRowKeeps(s, v, r.staked + delta);
      RestakedFits(s, v, delta);
      if Backs(r) {
        UpdateVotesKeeps(s1, v, r.proxy, r.producers, false);
        VoteKeepsOthers(s1, v, r.proxy, r.producers, false);
        RestakedKeeps(s, v, delta, UpdateVotingPower(s, v, delta).value);
      }
    }
  }

  lemma RestakedKeeps(s: State, v: Name, delta: int, s': State)
    requires v in s.voters && OthersKeep(Restaked(s, v, delta), s', v)
    ensures s'.voters.Keys == s.voters.Keys && forall x | x in s.voters && x != v :: KeepsBallot(s, s', x)
  {
  }

  // Every producer but p keeps its two rows.
  ghost predicate OtherProducersKeep(s: State, s': State, p: Name) {
    && (forall x | x != p :: (x in s'.producers <==> x in s.producers) && (x in s.producers ==> s'.producers[x] == s.producers[x]))
    && (forall x | x != p :: (x in s'.producers2 <==> x in s.producers2) && (x in s.producers2 ==> s'.producers2[x] == s.producers2[x]))
  }

  /** Registering makes p active, with the votes and vote pay it had; a new producer begins with none. */
  lemma RegisterSpelled(s: State, p: Name)
    requires Shape(s)
    ensures var s' := RegisterProducer(s, p);
            && OtherProducersKeep(s, s', p) && p in s'.producers && p in s'.producers2
            && s'.producers[p] == Producer(if p in s.producers then s.producers[p].votes else 0.0, true,
                                           if p in s.producers then s.producers[p].lastClaim else s.now)
            && s'.producers2[p] == (if p in s.producers then s.producers2[p] else Producer2(0.0, s.now))
            && s' == s.(producers := s'.producers, producers2 := s'.producers2)
  {
  }

  /** Unregistering makes p inactive and takes nothing from it. */
  lemma UnregisterSpelled(s: State, p: Name)
    ensures Deactivate(s, p).Some? <==> p in s.producers
    ensures p in s.producers ==>
              var s' := Deactivate(s, p).value;
              && OtherProducersKeep(s, s', p) && p in s'.producers
              && s'.producers[p] == Producer(s.producers[p].votes, false, s.producers[p].lastClaim)
              && s' == s.(producers := s'.producers)
  {
  }

  // ----- vote pay

  // What p has earned by now, settled or not.
  ghost function Earned(s: State, p: Name): real {
    if p in s.producers && p in s.producers2 then Due(s.producers[p], s.producers2[p], s.now) else 0.0
  }

  /** Other producers' votes never move a producer's vote pay: a round of changes leaves what everybody
      has earned by now as it is, except that a listed producer whose three days are over loses it. */
  lemma RoundKeepsEarned(s: State, ds: map<Name, real>, floor: bool, p: Name)
    requires IndexOk(s) && p in s.producers
    ensures var s' := ApplyChanges(s, ds, floor);
            Earned(s', p) == if p in ds && s.producers2[p].updated < s.producers[p].lastClaim + 259200000000 <= s.now
                             then 0.0 else Earned(s, p)
  {
    hide SumReal;
    var p1, p2 := s.producers[p], s.producers2[p];
    assert ShareOk(p1, p2, s.shareTime, s.now);
    SettledIsDue(p1, p2, s.shareTime, s.now);
    if p in ds { SettledEarns(p1, p2, s.shareTime, s.now, NewVotes(p1, ds[p], floor)); }
  }

  lemma SettledEarns(p: Producer, p2: Producer2, t: int, now: int, votes: real)
    requires ShareOk(p, p2, t, now)
    ensures Due(p.(votes := votes), Settle(p, p2, now), now) == if Expires(p, p2, now) then 0.0 else Due(p, p2, now)
  {
    SettledIsDue(p, p2, t, now);
    TimesZero(0, Live(p.(votes := votes), Settle(p, p2, now)));
  }

  // ----- b1

  /** Only b1 is bound by vesting; it keeps what 100,000,000.0000 tokens, released evenly over 3640 days
      from 1 June 2018, have not released yet, to the unit. */
  lemma VestedSpelled(v: Name, stake: int, now: int)
    ensures v != 0x3840000000000000 ==> Vested(v, stake, now)
    ensures v == 0x3840000000000000 ==>
              var seconds, kept := now / 1000000 - 1527811200, 1000000000000 - stake;
              Vested(v, stake, now)
              <==> if 0 <= seconds then Product(kept, 314496000) <= Product(1000000000000, seconds)
                   else Product(kept - 1, 314496000) < Product(1000000000000, seconds)
  {
    var seconds, kept := now / 1000000 - 1527811200, 1000000000000 - stake;
    if 0 <= seconds {
      AtMostQuotient(kept, 1000000000000 * seconds, 314496000);
    } else {
      AtMostQuotient(1 - kept, 1000000000000 * -seconds, 314496000);
    }
  }

  function Product(x: int, y: int): int { x * y }

  lemma AtMostQuotient(k: int, x: int, d: int)
    requires 0 < d
    ensures k <= x / d <==> k * d <= x
  {
    if k <= x / d {
      assert k * d <= x / d * d;
    } else {
      assert (x / d + 1) * d <= k * d;
    }
  }
}
