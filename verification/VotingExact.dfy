/** When an action of the vote ledger leaves exact tallies exact: a condition on the table before it,
    for every action, in both directions. */
module VotingExact {
  import opened Common
  import opened Sums
  import opened Voting
  import opened VotingChains
  import opened VotingTallies
  import opened VotingRuns
  import opened VotingActions
  import opened VotingMachine
  import opened VotingAborts
  import opened VotingErrors

  // ----- the two chains a vote can start

  ghost function FirstRest(s: State, v: Name): (o: Option<Rest>)
    requires Ranked(s) && v in s.voters
    ensures o.Some? ==> o.value.row in s.voters
  {
    var r := s.voters[v];
    if r.proxy.Some? && 0.0 < r.last then Some(ChainRest(s, r.proxy.value, -r.last)) else None
  }

  ghost function SecondRest(s: State, proxy: Option<Name>, nw: real): (o: Option<Rest>)
    requires Ranked(s) && (proxy.Some? ==> proxy.value in s.voters)
    ensures o.Some? ==> o.value.row in s.voters
  {
    if proxy.Some? && 0.0 <= nw then Some(ChainRest(s, proxy.value, nw)) else None
  }

  function MissedLent(s: State, o: Option<Rest>, q: Name): real
    requires o.Some? ==> o.value.row in s.voters
  {
    if o.Some? then LentMiss(s, o.value, q) else 0.0
  }

  function MissedVotes(s: State, o: Option<Rest>, p: Name): real
    requires o.Some? ==> o.value.row in s.voters
  {
    if o.Some? then VoteMiss(s, o.value, p) else 0.0
  }

  // What dealing with one proxy does to every error: it holds x more than its lenders' rows say.
  ghost predicate StageErrors(s: State, s': State, to: Option<Name>, x: real, o: Option<Rest>)
    requires o.Some? ==> o.value.row in s.voters
  {
    && s'.voters.Keys == s.voters.Keys && s'.producers.Keys == s.producers.Keys
    && (forall q | q in s.voters ::
          LentError(s', q) == LentError(s, q) + (if to == Some(q) then x else 0.0) - MissedLent(s, o, q))
    && (forall p | p in s.producers :: VoteError(s', p) == VoteError(s, p) - MissedVotes(s, o, p))
    && TotalError(s') == TotalError(s)
  }

  lemma LendErrors(s: State, q: Name, x: real)
    requires Ranked(s) && q in s.voters
    ensures Lend(s, q, x).Some? ==> StageErrors(s, Lend(s, q, x).value, Some(q), x, Some(ChainRest(s, q, x)))
  {
    hide Propagate, LentError, VoteError, TotalError, LentMiss, VoteMiss, SameStructure, ChainRest, AddProxied;
    PropagateErrors(s, q, x);
  }

  lemma NoStage(s: State, s': State, x: real)
    requires s'.voters == s.voters && s'.producers == s.producers && s'.totalWeight == s.totalWeight
    ensures StageErrors(s, s', None, x, None)
  {
    hide LentError, VoteError, TotalError;
    SameErrors(s, s');
  }

  lemma WithdrawErrors(s: State, v: Name)
    requires Ranked(s) && v in s.voters
    requires s.voters[v].proxy.Some? ==> s.voters[v].proxy.value in s.voters
    ensures var r := s.voters[v];
            Withdraw(s, r).Some? ==>
              StageErrors(s, Withdraw(s, r).value, if 0.0 < r.last then r.proxy else None, -r.last, FirstRest(s, v))
  {
    hide Lend, StageErrors, ChainRest, Ranked;
    var r := s.voters[v];
    if r.proxy.Some? && 0.0 < r.last {
      LendErrors(s, r.proxy.value, -r.last);
    } else {
      NoStage(s, Withdraw(s, r).value, -r.last);
    }
  }

  lemma EndorseErrors(s: State, proxy: Option<Name>, nw: real)
    requires Ranked(s) && (proxy.Some? ==> proxy.value in s.voters)
    ensures Endorse(s, proxy, nw).Some? ==>
              StageErrors(s, Endorse(s, proxy, nw).value, if 0.0 <= nw then proxy else None, nw, SecondRest(s, proxy, nw))
  {
    hide Lend, StageErrors, ChainRest, Ranked;
    if proxy.Some? && 0.0 <= nw {
      LendErrors(s, proxy.value, nw);
    } else {
      NoStage(s, s, nw);
    }
  }

  // ----- the row itself

  // A negative weight with a ballot for p: it is neither given to p nor ever taken back.
  function Overlooked(r: Voter, p: Name): real {
    if r.proxy.None? && p in r.producers && r.last < 0.0 then r.last else 0.0
  }

  lemma BallotBalance(r: Voter, proxy: Option<Name>, ps: seq<Name>, nw: real, p: Name)
    requires proxy.Some? ==> ps == []
    ensures var r' := NewRow(r, proxy, ps, nw);
            RealAt(BallotChanges(r, ps, nw), p) + CountsFor(r, p) - CountsFor(r', p) == Overlooked(r, p) - Overlooked(r', p)
  {
  }

  lemma RowWritten(s: State, v: Name, r: Voter, c: real)
    requires v in s.voters && r.proxied == s.voters[v].proxied
    ensures var s' := s.(voters := s.voters[v := r], clamped := c);
            && s'.voters.Keys == s.voters.Keys
            && (forall q | q in s.voters :: LentError(s', q) == LentError(s, q) + Lends(s.voters[v], q) - Lends(r, q))
            && (forall p | p in s.producers :: VoteError(s', p) == VoteError(s, p) + CountsFor(s.voters[v], p) - CountsFor(r, p))
            && TotalError(s') == TotalError(s)
  {
    hide SumReal, Lends, CountsFor;
    forall q | q in s.voters
      ensures LentError(s.(voters := s.voters[v := r], clamped := c), q) == LentError(s, q) + Lends(s.voters[v], q) - Lends(r, q)
    {
      LentToUpdate(s.voters, v, r, q);
    }
    forall p | p in s.producers
      ensures VoteError(s.(voters := s.voters[v := r], clamped := c), p) == VoteError(s, p) + CountsFor(s.voters[v], p) - CountsFor(r, p)
    {
      VotesForUpdate(s.voters, v, r, p);
    }
  }

  // What writing the new ballot does to every error.
  ghost predicate BallotErrors(s: State, s': State, r: Voter, r': Voter, ds: map<Name, real>) {
    && s'.voters.Keys == s.voters.Keys && s'.producers.Keys == s.producers.Keys
    && (forall q | q in s.voters :: LentError(s', q) == LentError(s, q) + Lends(r, q) - Lends(r', q))
    && (forall p | p in s.producers ::
          VoteError(s', p) == VoteError(s, p) + Overlooked(r, p) - Overlooked(r', p) + Losses(s, ds, true)[p])
    && TotalError(s') == TotalError(s) - SumReal(Losses(s, ds, true))
  }

  lemma FinishErrors(s: State, v: Name, r: Voter, proxy: Option<Name>, ps: seq<Name>, nw: real)
    requires v in s.voters && s.voters[v] == r && (proxy.Some? ==> ps == [])
    ensures BallotErrors(s, Finish(s, v, r, proxy, ps, nw), r, NewRow(r, proxy, ps, nw), BallotChanges(r, ps, nw))
  {
    hide SumReal, ApplyChanges, LentError, VoteError, TotalError, BallotChanges, Swallowed, Lends, CountsFor, Overlooked;
    var ds, r' := BallotChanges(r, ps, nw), NewRow(r, proxy, ps, nw);
    var s1 := ApplyChanges(s, ds, true);
    AppliedErrors(s, ds, true);
    RowWritten(s1, v, r', s1.clamped + Swallowed(nw));
    forall p: Name
      ensures RealAt(ds, p) + CountsFor(r, p) - CountsFor(r', p) == Overlooked(r, p) - Overlooked(r', p)
    {
      BallotBalance(r, proxy, ps, nw, p);
    }
  }

  // ----- a vote as a whole

  lemma FirstRestActivated(s: State, v: Name)
    requires Shape(s) && v in s.voters
    ensures Ranked(Activate(s, s.voters[v])) && v in Activate(s, s.voters[v]).voters
    ensures var s0 := Activate(s, s.voters[v]);
            && FirstRest(s0, v) == FirstRest(s, v)
            && (forall q: Name :: MissedLent(s0, FirstRest(s0, v), q) == MissedLent(s, FirstRest(s, v), q))
            && (forall p: Name :: MissedVotes(s0, FirstRest(s0, v), p) == MissedVotes(s, FirstRest(s, v), p))
            && (forall q | q in s.voters :: LentError(s0, q) == LentError(s, q))
            && (forall p | p in s.producers :: VoteError(s0, p) == VoteError(s, p))
            && TotalError(s0) == TotalError(s)
  {
    hide RowOk, Ranked, ChainRest, LentError, VoteError, TotalError;
    var r, s0 := s.voters[v], Activate(s, s.voters[v]);
    ActivatedFits(s, v);
    RankedAt(s, v);
    SameErrors(s, s0);
    if r.proxy.Some? { ChainRestSameRows(s, s0, r.proxy.value, -r.last); }
  }

  // The old proxy has been dealt with.
  lemma BeginErrors(s: State, v: Name, proxy: Option<Name>, voting: bool)
    requires Shape(s) && v in s.voters && ProxyOk(s, proxy, voting)
    ensures var r, o := s.voters[v], BeginVote(s, v, proxy, voting);
            o.Some? ==> StageErrors(s, o.value, if 0.0 < r.last then r.proxy else None, -r.last, FirstRest(s, v))
  {
    hide Withdraw, RowOk, Ranked, Activate, FirstRest, LentError, VoteError, TotalError, MissedLent, MissedVotes, Rerank,
         SameStructure;
    var r := s.voters[v];
    var s0 := Activate(s, r);
    ActivateKeepsTables(s, r);
    FirstRestActivated(s, v);
    RankedAt(s0, v);
    WithdrawErrors(s0, v);
    ActivateProducers(s, r);
    if BeginVote(s, v, proxy, voting).Some? {
      var s1 := Withdraw(s0, r).value;
      RerankTables(s1, proxy);
      SameErrors(s1, BeginVote(s, v, proxy, voting).value);
    }
  }

  lemma ActivateProducers(s: State, r: Voter)
    ensures Activate(s, r).producers == s.producers
  {
  }

  lemma RerankTables(s: State, proxy: Option<Name>)
    ensures Rerank(s, proxy) == s.(rank := Rerank(s, proxy).rank)
  {
  }

  // The table after both proxies have been dealt with, and the changes that go to producers.
  ghost function Middle(s: State, v: Name, proxy: Option<Name>, voting: bool): State
    requires Shape(s) && v in s.voters && ProxyOk(s, proxy, voting)
  {
    var o := BeginVote(s, v, proxy, voting);
    if o.None? then s else
    var o' := Endorse(o.value, proxy, Weight(s.voters[v], s.stakeRate));
    if o'.Some? then o'.value else o.value
  }

  ghost predicate VoteErrors(s: State, v: Name, proxy: Option<Name>, ps: seq<Name>, voting: bool, s': State)
    requires Shape(s) && v in s.voters && ProxyOk(s, proxy, voting) && BeginVote(s, v, proxy, voting).Some?
  {
    var r, nw := s.voters[v], Weight(s.voters[v], s.stakeRate);
    var s1, s2, ds := BeginVote(s, v, proxy, voting).value, Middle(s, v, proxy, voting), BallotChanges(r, ps, nw);
    var r', a, b := NewRow(r, proxy, ps, nw), FirstRest(s, v), SecondRest(s1, proxy, nw);
    && s'.voters.Keys == s.voters.Keys && s'.producers.Keys == s.producers.Keys == s2.producers.Keys
    && (forall q | q in s.voters :: LentError(s', q) == LentError(s, q) - MissedLent(s, a, q) - MissedLent(s1, b, q))
    && (forall p | p in s.producers ::
          VoteError(s', p) == VoteError(s, p) - MissedVotes(s, a, p) - MissedVotes(s1, b, p)
                              + Overlooked(r, p) - Overlooked(r', p) + Losses(s2, ds, true)[p])
    && TotalError(s') == TotalError(s) - SumReal(Losses(s2, ds, true))
  }

  // A plain row lends just what is taken from the old proxy and what is given to the new one.
  lemma LoansBalance(r: Voter, proxy: Option<Name>, ps: seq<Name>, nw: real, q: Name)
    requires (r.proxy.Some? ==> 0.0 <= r.last) && (proxy.Some? ==> 0.0 <= nw)
    ensures var taken, given := if 0.0 < r.last then r.proxy else None, if 0.0 <= nw then proxy else None;
            (if taken == Some(q) then -r.last else 0.0) + (if given == Some(q) then nw else 0.0)
            + Lends(r, q) - Lends(NewRow(r, proxy, ps, nw), q) == 0.0
  {
  }

  // Three stages, one after the other.
  lemma StagesAdd(s: State, s1: State, s2: State, s': State, r: Voter, proxy: Option<Name>, ps: seq<Name>, nw: real,
                  a: Option<Rest>, b: Option<Rest>)
    requires a.Some? ==> a.value.row in s.voters
    requires b.Some? ==> b.value.row in s1.voters
    requires (r.proxy.Some? ==> 0.0 <= r.last) && (proxy.Some? ==> 0.0 <= nw)
    requires StageErrors(s, s1, if 0.0 < r.last then r.proxy else None, -r.last, a)
    requires StageErrors(s1, s2, if 0.0 <= nw then proxy else None, nw, b)
    requires BallotErrors(s2, s', r, NewRow(r, proxy, ps, nw), BallotChanges(r, ps, nw))
    ensures s'.voters.Keys == s.voters.Keys && s'.producers.Keys == s.producers.Keys == s2.producers.Keys
    ensures forall q | q in s.voters :: LentError(s', q) == LentError(s, q) - MissedLent(s, a, q) - MissedLent(s1, b, q)
    ensures forall p | p in s.producers ::
              VoteError(s', p) == VoteError(s, p) - MissedVotes(s, a, p) - MissedVotes(s1, b, p) + Overlooked(r, p)
                                  - Overlooked(NewRow(r, proxy, ps, nw), p) + Losses(s2, BallotChanges(r, ps, nw), true)[p]
    ensures TotalError(s') == TotalError(s) - SumReal(Losses(s2, BallotChanges(r, ps, nw), true))
  {
    hide LentError, VoteError, TotalError, MissedLent, MissedVotes, Overlooked, SumReal, Lends, Swallowed, BallotChanges;
    forall q | q in s.voters
      ensures LentError(s', q) == LentError(s, q) - MissedLent(s, a, q) - MissedLent(s1, b, q)
    {
      LoansBalance(r, proxy, ps, nw, q);
    }
  }

  lemma CompleteIsFinish(s: State, v: Name, r: Voter, proxy: Option<Name>, ps: seq<Name>, nw: real)
    requires Ranked(s) && v in s.voters && s.voters[v] == r && (proxy.Some? ==> proxy.value in s.voters && s.rank[proxy.value] < s.rank[v])
    ensures var o, o' := CompleteVote(s, v, r, proxy, ps, nw), Endorse(s, proxy, nw);
            && (o.Some? <==> o'.Some?)
            && (o.Some? ==> v in o'.value.voters && o'.value.voters[v] == r && o.value == Finish(o'.value, v, r, proxy, ps, nw))
  {
    hide Lend, ApplyChanges, BallotChanges, Finish, Ranked, SameStructure;
    RankedAt(s, v);
    if CompleteVote(s, v, r, proxy, ps, nw).Some? {
      var s1 := Endorse(s, proxy, nw).value;
      EndorseKeepsRow(s, v, proxy, nw);
      FinishWritesRow(s1, v, r, proxy, ps, nw);
    }
  }

  lemma EndorseKeepsRow(s: State, v: Name, proxy: Option<Name>, nw: real)
    requires Ranked(s) && v in s.voters && (proxy.Some? ==> proxy.value in s.voters && s.rank[proxy.value] < s.rank[v])
    ensures Endorse(s, proxy, nw).Some? ==>
              v in Endorse(s, proxy, nw).value.voters && Endorse(s, proxy, nw).value.voters[v] == s.voters[v]
  {
    hide SameStructure, Propagate, Ranked;
    if Endorse(s, proxy, nw).Some? { StructureKeys(s, Endorse(s, proxy, nw).value); }
  }

  /** What update_votes does to every tally's error, read off the table. */
  lemma UpdateVotesErrors(s: State, v: Name, proxy: Option<Name>, ps: seq<Name>, voting: bool)
    requires Inv(s) && (voting || Renewal(s, v, proxy, ps)) && UpdateVotes(s, v, proxy, ps, voting).Some?
    ensures v in s.voters && ProxyOk(s, proxy, voting) && BeginVote(s, v, proxy, voting).Some?
    ensures VoteErrors(s, v, proxy, ps, voting, UpdateVotes(s, v, proxy, ps, voting).value)
  {
    hide Sound, Weight, BeginVote, CompleteVote, Ranked, RowOk, PlainOk, Electable, StageErrors, BallotErrors, Finish,
         FirstRest, SecondRest, Endorse, LentError, VoteError, TotalError, BallotChanges, Losses, SumReal, StrictlySorted;
    var r, nw := s.voters[v], Weight(s.voters[v], s.stakeRate);
    AllowedMeans(s, v, proxy, ps, voting);
    LenderIsPlain(s, v);
    BeginErrors(s, v, proxy, voting);
    BeginVoteKeeps(s, v, proxy, ps, voting);
    var s1 := BeginVote(s, v, proxy, voting).value;
    EndorseErrors(s1, proxy, nw);
    CompleteIsFinish(s1, v, r, proxy, ps, nw);
    var s2 := Endorse(s1, proxy, nw).value;
    FinishErrors(s2, v, r, proxy, ps, nw);
    StagesAdd(s, s1, s2, UpdateVotes(s, v, proxy, ps, voting).value, r, proxy, ps, nw, FirstRest(s, v), SecondRest(s1, proxy, nw));
  }

  // ----- the condition

  // Nobody misses anything: the change was carried, there was none, or its row backs nobody.
  ghost predicate Quiet(s: State, o: Option<Rest>)
    requires o.Some? ==> o.value.row in s.voters
  {
    o.Some? && Small(o.value) && o.value.change != 0.0 ==>
      s.voters[o.value.row].proxy.None? && forall p | p in s.voters[o.value.row].producers :: p !in s.producers
  }

  // Two dropped changes that undo each other for everybody.
  ghost predicate Cancel(s: State, a: Option<Rest>, b: Option<Rest>)
    requires (a.Some? ==> a.value.row in s.voters) && (b.Some? ==> b.value.row in s.voters)
  {
    && a.Some? && b.Some? && Small(a.value) && Small(b.value) && a.value.change + b.value.change == 0.0
    && s.voters[a.value.row].proxy == s.voters[b.value.row].proxy
    && forall p | p in s.producers :: p in s.voters[a.value.row].producers <==> p in s.voters[b.value.row].producers
  }

  ghost predicate NothingMissed(s: State, a: Option<Rest>, b: Option<Rest>)
    requires (a.Some? ==> a.value.row in s.voters) && (b.Some? ==> b.value.row in s.voters)
  {
    && (forall q | q in s.voters :: MissedLent(s, a, q) + MissedLent(s, b, q) == 0.0)
    && (forall p | p in s.producers :: MissedVotes(s, a, p) + MissedVotes(s, b, p) == 0.0)
  }

  lemma QuietMissesNothing(s: State, o: Option<Rest>)
    requires Shape(s) && (o.Some? ==> o.value.row in s.voters)
    ensures Quiet(s, o) <==> && (forall q | q in s.voters :: MissedLent(s, o, q) == 0.0)
                             && (forall p | p in s.producers :: MissedVotes(s, o, p) == 0.0)
  {
    hide RowOk, Abs;
    if o.Some? && !Quiet(s, o) {
      var r := s.voters[o.value.row];
      RankedAt(s, o.value.row);
      if r.proxy.Some? {
        assert MissedLent(s, o, r.proxy.value) == o.value.change;
      } else {
        var p: Name :| p in r.producers && p in s.producers;
        assert MissedVotes(s, o, p) == o.value.change;
      }
    }
  }

  // If b makes up for a everywhere, and a is missed by somebody, then both went to the same ones.
  lemma MissesMatch(s: State, a: Option<Rest>, b: Option<Rest>)
    requires Shape(s) && (a.Some? ==> a.value.row in s.voters) && (b.Some? ==> b.value.row in s.voters)
    requires NothingMissed(s, a, b) && !Quiet(s, a)
    ensures Cancel(s, a, b)
  {
    hide RowOk, Abs;
    var r := s.voters[a.value.row];
    RankedAt(s, a.value.row);
    if r.proxy.Some? {
      assert MissedLent(s, a, r.proxy.value) == a.value.change;
      assert MissedLent(s, b, r.proxy.value) != 0.0;
      assert RowOk(r) && RowOk(s.voters[b.value.row]);
      NoProducers(s, a.value.row);
      NoProducers(s, b.value.row);
    } else {
      var p: Name :| p in r.producers && p in s.producers;
      assert MissedVotes(s, a, p) == a.value.change;
      assert MissedVotes(s, b, p) != 0.0;
      forall x | x in s.producers
        ensures x in r.producers <==> x in s.voters[b.value.row].producers
      {
        assert MissedVotes(s, a, x) + MissedVotes(s, b, x) == 0.0;
      }
    }
  }

  lemma NoProducers(s: State, v: Name)
    requires Shape(s) && v in s.voters
    ensures s.voters[v].proxy.Some? ==> s.voters[v].producers == []
  {
    assert RowOk(s.voters[v]);
  }

  /** What two chains drop is made up for everywhere exactly when each is quiet or they cancel. */
  lemma MissedExactly(s: State, a: Option<Rest>, b: Option<Rest>)
    requires Shape(s) && (a.Some? ==> a.value.row in s.voters) && (b.Some? ==> b.value.row in s.voters)
    ensures NothingMissed(s, a, b) <==> (Quiet(s, a) && Quiet(s, b)) || Cancel(s, a, b)
  {
    hide Shape, Quiet, Cancel, MissedLent, MissedVotes;
    QuietMissesNothing(s, a);
    QuietMissesNothing(s, b);
    if NothingMissed(s, a, b) && !Quiet(s, a) { MissesMatch(s, a, b); }
    if Cancel(s, a, b) { CancelMissesNothing(s, a, b); }
  }

  lemma CancelMissesNothing(s: State, a: Option<Rest>, b: Option<Rest>)
    requires (a.Some? ==> a.value.row in s.voters) && (b.Some? ==> b.value.row in s.voters)
    requires Cancel(s, a, b)
    ensures NothingMissed(s, a, b)
  {
    hide Abs;
  }

  ghost predicate NoFloorReached(s: State, ds: map<Name, real>) {
    forall p | p in ds && p in s.producers :: 0.0 <= s.producers[p].votes + ds[p]
  }

  /** The changes a vote sends to the old proxy and to the new one are both delivered, or they make up
      for each other. */
  ghost predicate ChainsDeliver(s: State, v: Name, proxy: Option<Name>, voting: bool)
    requires Shape(s)
  {
    && v in s.voters && ProxyOk(s, proxy, voting) && BeginVote(s, v, proxy, voting).Some?
    && var a, b := FirstRest(s, v), SecondRest(BeginVote(s, v, proxy, voting).value, proxy, Weight(s.voters[v], s.stakeRate));
       (Quiet(s, a) && Quiet(s, b)) || Cancel(s, a, b)
  }

  /** The condition for a vote: its chains deliver, a negative weight stays with the producers it was
      with, and no tally would fall below zero. */
  ghost predicate VoteDelivers(s: State, v: Name, proxy: Option<Name>, ps: seq<Name>, voting: bool)
    requires Shape(s)
  {
    && ChainsDeliver(s, v, proxy, voting)
    && var r, nw := s.voters[v], Weight(s.voters[v], s.stakeRate);
       && (forall p | p in s.producers :: Overlooked(r, p) == Overlooked(NewRow(r, proxy, ps, nw), p))
       && NoFloorReached(Middle(s, v, proxy, voting), BallotChanges(r, ps, nw))
  }

  lemma FloorReached(s: State, ds: map<Name, real>)
    ensures SumReal(Losses(s, ds, true)) == 0.0 <==> NoFloorReached(s, ds)
    ensures NoFloorReached(s, ds) ==> forall p | p in s.producers :: Losses(s, ds, true)[p] == 0.0
    ensures forall p | p in s.producers :: 0.0 <= Losses(s, ds, true)[p]
    ensures SumReal(Losses(s, ds, true)) == 0.0 ==> forall p | p in s.producers :: Losses(s, ds, true)[p] == 0.0
  {
    hide SumReal;
    LossesGrow(s, ds, true);
    if NoFloorReached(s, ds) { RealZero(Losses(s, ds, true)); }
    if SumReal(Losses(s, ds, true)) == 0.0 {
      forall p | p in s.producers
        ensures Losses(s, ds, true)[p] == 0.0
      {
        RealMember(Losses(s, ds, true), p);
      }
      forall p | p in ds && p in s.producers
        ensures 0.0 <= s.producers[p].votes + ds[p]
      {
        assert Losses(s, ds, true)[p] == 0.0;
      }
    }
  }

  // The chain to the new proxy ends at a row whose ballot nobody has touched.
  lemma SecondMisses(s: State, v: Name, proxy: Option<Name>, ps: seq<Name>, voting: bool)
    requires Inv(s) && (voting || Renewal(s, v, proxy, ps))
    requires v in s.voters && BallotOk(v, proxy, ps) && ProxyOk(s, proxy, voting) && BeginVote(s, v, proxy, voting).Some?
    ensures var s1 := BeginVote(s, v, proxy, voting).value;
            var b := SecondRest(s1, proxy, Weight(s.voters[v], s.stakeRate));
            && (b.Some? ==> b.value.row in s.voters)
            && (forall q: Name :: MissedLent(s1, b, q) == MissedLent(s, b, q))
            && (forall p: Name :: MissedVotes(s1, b, p) == MissedVotes(s, b, p))
  {
    hide Sound, Weight, BeginVote, Ranked, RowOk, PlainOk, BallotOk, ChainRest, LentMiss, VoteMiss;
    BeginVoteOthers(s, v, proxy, voting);
    BeginVoteKeeps(s, v, proxy, ps, voting);
    var s1 := BeginVote(s, v, proxy, voting).value;
    var b := SecondRest(s1, proxy, Weight(s.voters[v], s.stakeRate));
    if b.Some? { SameMisses(s, s1, b.value); }
  }

  // Only a proxy's ballot can be overlooked, and a proxy starts no chain.
  lemma NoChainOrPlain(s: State, v: Name, proxy: Option<Name>, ps: seq<Name>, voting: bool)
    requires Inv(s) && Allowed(s, v, proxy, ps, voting) && BeginVote(s, v, proxy, voting).Some?
    ensures var r, nw := s.voters[v], Weight(s.voters[v], s.stakeRate);
            FirstRest(s, v).Some? || SecondRest(BeginVote(s, v, proxy, voting).value, proxy, nw).Some? ==>
              forall p: Name :: Overlooked(r, p) == 0.0 && Overlooked(NewRow(r, proxy, ps, nw), p) == 0.0
  {
    hide Sound, Weight, BeginVote, Ranked, Electable, ChainRest;
    AllowedMeans(s, v, proxy, ps, voting);
    assert RowOk(s.voters[v]);
  }

  /** From exact tallies, update_votes leaves exact tallies if and only if VoteDelivers. */
  lemma VoteStaysExact(s: State, v: Name, proxy: Option<Name>, ps: seq<Name>, voting: bool)
    requires Inv(s) && Exact(s) && (voting || Renewal(s, v, proxy, ps)) && UpdateVotes(s, v, proxy, ps, voting).Some?
    ensures Exact(UpdateVotes(s, v, proxy, ps, voting).value) <==> VoteDelivers(s, v, proxy, ps, voting)
  {
    hide Sound, Weight, BeginVote, CompleteVote, Ranked, RowOk, PlainOk, Electable, FirstRest, SecondRest, LentError,
         VoteError, TotalError, BallotChanges, Losses, SumReal, StrictlySorted, Middle, Overlooked, MissedLent, MissedVotes,
         Quiet, Cancel, NoFloorReached, BallotOk;
    UpdateVotesErrors(s, v, proxy, ps, voting);
    SecondMisses(s, v, proxy, ps, voting);
    NoChainOrPlain(s, v, proxy, ps, voting);
    var r, nw := s.voters[v], Weight(s.voters[v], s.stakeRate);
    var a, b := FirstRest(s, v), SecondRest(BeginVote(s, v, proxy, voting).value, proxy, nw);
    FloorReached(Middle(s, v, proxy, voting), BallotChanges(r, ps, nw));
    MissedExactly(s, a, b);
    if a.None? && b.None? { NoChains(s, a, b); }
  }

  lemma NoChains(s: State, a: Option<Rest>, b: Option<Rest>)
    requires a.None? && b.None?
    ensures NothingMissed(s, a, b)
  {
  }

  lemma SmallRest(s: State, q: Name, x: real)
    requires Ranked(s) && q in s.voters && s.voters[q].isProxy && UpToDate(s, q) && Abs(x) <= 1.0
    ensures ChainRest(s, q, x) == Rest(q, x)
    ensures Lend(s, q, x).Some?
    ensures var s' := Lend(s, q, x).value;
            && q in s'.voters && s'.voters[q].isProxy && UpToDate(s', q) && s'.voters[q].proxy == s.voters[q].proxy
            && s'.stakeRate == s.stakeRate
  {
    hide Ranked, Propagate, Dropped, ChainRest, AddProxied, Weighed, SameStructure, Times;
    LendDrops(s, q, x) by { assert Ripple(s, q, x) == x; }
    DroppedIs(s, q, x);
    WeighedFits(s, q, x);
  }

  lemma RerankRest(s: State, q: Name, x: real)
    requires Ranked(s) && q in s.voters && s.voters[q].isProxy && s.voters[q].proxy.None? && UpToDate(s, q) && Abs(x) <= 1.0
    ensures var s' := Rerank(s, Some(q));
            Ranked(s') && q in s'.voters && s'.stakeRate == s.stakeRate && ChainRest(s', q, x) == Rest(q, x)
  {
    hide Rerank, Ranked, ChainRest, Times;
    RerankKeepsOrder(s, Some(q));
    RerankTables(s, Some(q));
    SmallRest(Rerank(s, Some(q)), q, x);
  }

  lemma AskingAgainBegins(s: State, v: Name, q: Name)
    requires Shape(s) && v in s.voters && s.voters[v].proxy == Some(q) && q in s.voters && s.voters[q].isProxy
    requires s.voters[q].proxy.None? && 0.0 < s.voters[v].last <= 1.0 && UpToDate(s, q)
    ensures ProxyOk(s, Some(q), true) && BeginVote(s, v, Some(q), true).Some?
    ensures var x, s1 := s.voters[v].last, BeginVote(s, v, Some(q), true).value;
            s1.stakeRate == s.stakeRate && q in s1.voters && ChainRest(s1, q, x) == Rest(q, x)
  {
    hide Ranked, RowOk, Rerank, ChainRest, Lend, Weight, Activate, SameStructure, UpToDate, StrictlySorted;
    var s0, x := Activate(s, s.voters[v]), s.voters[v].last;
    ActivatedFits(s, v);
    ActivateRate(s, s.voters[v], q);
    SmallRest(s0, q, -x);
    RerankRest(Lend(s0, q, -x).value, q, x);
  }

  lemma ActivateRate(s: State, r: Voter, q: Name)
    requires q in s.voters && UpToDate(s, q)
    ensures var s0 := Activate(s, r);
            s0.stakeRate == s.stakeRate && q in s0.voters && UpToDate(s0, q)
  {
  }

  /** Two drops can make up for each other: asking again for the same proxy, with an unchanged weight
      of at most 1, drops it on the way out and on the way back. */
  lemma AskingAgainCancels(s: State, v: Name, q: Name)
    requires Shape(s) && v in s.voters && s.voters[v].proxy == Some(q) && q in s.voters && s.voters[q].isProxy
    requires UpToDate(s, v) && 0.0 < s.voters[v].last <= 1.0 && UpToDate(s, q)
    ensures ProxyOk(s, Some(q), true) && BeginVote(s, v, Some(q), true).Some?
    ensures var x, s1 := s.voters[v].last, BeginVote(s, v, Some(q), true).value;
            && FirstRest(s, v) == Some(Rest(q, -x))
            && SecondRest(s1, Some(q), Weight(s.voters[v], s.stakeRate)) == Some(Rest(q, x))
            && Cancel(s, FirstRest(s, v), Some(Rest(q, x)))
            && ChainsDeliver(s, v, Some(q), true)
  {
    hide Ranked, RowOk, BeginVote, ChainRest, Lend, Weight;
    ProxyHasNone(s, q);
    AskingAgainBegins(s, v, q);
    SmallRest(s, q, -s.voters[v].last);
  }

  lemma ProxyHasNone(s: State, q: Name)
    requires Shape(s) && q in s.voters && s.voters[q].isProxy
    ensures s.voters[q].proxy.None?
  {
    assert RowOk(s.voters[q]);
  }

  // ----- the other actions

  // The table with v's new status, before its weight is propagated.
  ghost function Flipped(s: State, v: Name, isProxy: bool): State
    requires v in s.voters
  {
    s.(voters := s.voters[v := s.voters[v].(isProxy := isProxy)])
  }

  ghost function FlipRest(s: State, v: Name, isProxy: bool): (r: Rest)
    requires Shape(s) && v in s.voters
    ensures r.row in s.voters
  {
    ChainRest(Flipped(s, v, isProxy), v, 0.0)
  }

  // A row that differs in neither ballot nor weight leaves every error as it is.
  lemma SameBallotErrors(s: State, v: Name, r: Voter)
    requires v in s.voters && r == s.voters[v].(staked := r.staked, isProxy := r.isProxy)
    ensures var s' := s.(voters := s.voters[v := r]);
            && s'.voters.Keys == s.voters.Keys
            && (forall q | q in s.voters :: LentError(s', q) == LentError(s, q))
            && (forall p | p in s.producers :: VoteError(s', p) == VoteError(s, p))
            && TotalError(s') == TotalError(s)
  {
    hide LentError, VoteError, TotalError;
    RowWritten(s, v, r, s.clamped);
    assert s.(voters := s.voters[v := r], clamped := s.clamped) == s.(voters := s.voters[v := r]);
  }

  /** What regproxy does to every tally's error. */
  lemma RegProxyErrors(s: State, v: Name, isProxy: bool)
    requires Shape(s) && v in s.voters && RegProxy(s, v, isProxy).Some?
    ensures StageErrors(s, RegProxy(s, v, isProxy).value, None, 0.0, Some(FlipRest(s, v, isProxy)))
  {
    hide Propagate, LentError, VoteError, TotalError, Ranked, RowOk, ChainRest;
    var s1 := Flipped(s, v, isProxy);
    assert Ranked(s1) by { FlipRanked(s, v, isProxy); }
    SameBallotErrors(s, v, s.voters[v].(isProxy := isProxy));
    AddNothing(s1, v);
    PropagateErrors(s1, v, 0.0);
    FlipMisses(s, v, isProxy);
  }

  lemma FlipRanked(s: State, v: Name, isProxy: bool)
    requires Ranked(s) && v in s.voters
    ensures Ranked(Flipped(s, v, isProxy))
  {
  }

  lemma FlipMisses(s: State, v: Name, isProxy: bool)
    requires Shape(s) && v in s.voters
    ensures var s1, r := Flipped(s, v, isProxy), FlipRest(s, v, isProxy);
            && (forall q: Name :: LentMiss(s1, r, q) == LentMiss(s, r, q))
            && (forall p: Name :: VoteMiss(s1, r, p) == VoteMiss(s, r, p))
  {
    hide LentMiss, VoteMiss, Ranked, RowOk, ChainRest;
    FlipRanked(s, v, isProxy);
    SameMisses(s, Flipped(s, v, isProxy), FlipRest(s, v, isProxy));
  }

  ghost predicate FlipDelivers(s: State, v: Name, isProxy: bool)
    requires Shape(s)
  {
    v in s.voters ==> Quiet(s, Some(FlipRest(s, v, isProxy)))
  }

  lemma NewRowErrors(s: State, v: Name, r: Voter)
    requires v !in s.voters && Ranked(s) && r.proxy.None? && r.producers == [] && r.proxied == 0.0
    ensures var s' := s.(voters := s.voters[v := r], rank := s.rank[v := 0]);
            && LentError(s', v) == 0.0
            && (forall q | q in s.voters :: LentError(s', q) == LentError(s, q))
            && (forall p | p in s.producers :: VoteError(s', p) == VoteError(s, p))
            && TotalError(s') == TotalError(s)
  {
    hide SumReal, Ranked, LentTo, VotesFor;
    var s' := s.(voters := s.voters[v := r], rank := s.rank[v := 0]);
    NobodyLends(s, v, r);
    forall q | q in s.voters
      ensures LentError(s', q) == LentError(s, q)
    {
      LentAddRow(s.voters, v, r, q);
    }
    forall p | p in s.producers
      ensures VoteError(s', p) == VoteError(s, p)
    {
      VotesAddRow(s.voters, v, r, p);
    }
  }

  lemma VotesAddRow(vs: Rows, v: Name, r: Voter, p: Name)
    requires v !in vs && r.proxy.None? && r.producers == []
    ensures SumReal(VotesFor(vs[v := r], p)) == SumReal(VotesFor(vs, p))
  {
    hide SumReal;
    RealChange(VotesFor(vs, p), VotesFor(vs[v := r], p), v);
  }

  /** From exact tallies, regproxy leaves exact tallies if and only if the changed weight is carried
      to where it belongs, is no change, or comes to rest at a row that backs nobody. */
  lemma RegProxyStaysExact(s: State, v: Name, isProxy: bool)
    requires Shape(s) && Exact(s) && RegProxy(s, v, isProxy).Some?
    ensures Exact(RegProxy(s, v, isProxy).value) <==> FlipDelivers(s, v, isProxy)
  {
    hide Ranked, RowOk, Quiet, Propagate, LentError, VoteError, TotalError, MissedLent, MissedVotes;
    if v in s.voters {
      RegProxyErrors(s, v, isProxy);
      QuietMissesNothing(s, Some(FlipRest(s, v, isProxy)));
    } else {
      NewRowErrors(s, v, NEW_VOTER.(isProxy := isProxy));
    }
  }

  // The renewed vote, if there is one, delivers.
  ghost predicate StakeDelivers(s: State, v: Name, delta: int) {
    v in s.voters && Backs(s.voters[v]) ==>
      var r, s1 := s.voters[v], Restaked(s, v, delta);
      Shape(s1) && VoteDelivers(s1, v, r.proxy, r.producers, false)
  }

  lemma RestakedExact(s: State, v: Name, delta: int)
    requires v in s.voters
    ensures Exact(Restaked(s, v, delta)) <==> Exact(s)
  {
    hide LentError, VoteError, TotalError;
    SameBallotErrors(s, v, s.voters[v].(staked := s.voters[v].staked + delta));
  }

  /** From exact tallies, a stake change leaves exact tallies if and only if its renewed vote delivers. */
  lemma StakeStaysExact(s: State, v: Name, delta: int)
    requires Inv(s) && Exact(s) && UpdateVotingPower(s, v, delta).Some?
    ensures Exact(UpdateVotingPower(s, v, delta).value) <==> StakeDelivers(s, v, delta)
  {
    hide Sound, UpdateVotes, VoteDelivers, Ranked, RowOk, PlainOk, LentError, VoteError, TotalError, Vested;
    if v in s.voters {
      var r := s.voters[v];
      StakedRowKeeps(s, v, r.staked + delta);
      RestakedFits(s, v, delta);
      RestakedExact(s, v, delta);
      if Backs(r) { VoteStaysExact(Restaked(s, v, delta), v, r.proxy, r.producers, false); }
      else { OnlyRestaked(s, v, delta); }
    } else {
      NewRowErrors(s, v, NEW_VOTER.(staked := delta));
      RankKeys(s);
    }
  }

  lemma OnlyRestaked(s: State, v: Name, delta: int)
    requires Shape(s) && v in s.voters && !Backs(s.voters[v]) && UpdateVotingPower(s, v, delta).Some?
    ensures UpdateVotingPower(s, v, delta).value == Restaked(s, v, delta)
  {
    hide RowOk;
    assert s.(voters := s.voters[v := s.voters[v].(staked := s.voters[v].staked + delta)], rank := s.rank) == Restaked(s, v, delta);
  }

  // A producer's row that changes in nothing that is tallied.
  lemma ProducerRowErrors(s: State, s': State, p: Name, row: Producer)
    requires s'.voters == s.voters && s'.producers == s.producers[p := row] && s'.totalWeight == s.totalWeight
    requires row.votes == if p in s.producers then s.producers[p].votes else 0.0
    ensures forall q | q in s.voters :: LentError(s', q) == LentError(s, q)
    ensures forall x | x in s.producers :: VoteError(s', x) == VoteError(s, x)
    ensures p !in s.producers ==> VoteError(s', p) == -SumReal(VotesFor(s.voters, p))
    ensures TotalError(s') == TotalError(s)
  {
    hide SumReal;
    AllVotesAdd(s.producers, p, row);
  }

  /** Registering leaves exact tallies exact, unless a new producer is already on a ballot that counts. */
  lemma RegisterStaysExact(s: State, p: Name)
    requires Shape(s) && Exact(s)
    ensures Exact(RegisterProducer(s, p)) <==> p in s.producers || SumReal(VotesFor(s.voters, p)) == 0.0
  {
    hide LentError, VoteError, TotalError, SumReal, Ranked, RowOk;
    var s' := RegisterProducer(s, p);
    ProducerRowErrors(s, s', p, s'.producers[p]);
  }

  lemma DeactivateStaysExact(s: State, p: Name)
    requires Exact(s) && p in s.producers
    ensures Exact(Deactivate(s, p).value)
  {
    hide LentError, VoteError, TotalError;
    var s' := Deactivate(s, p).value;
    ProducerRowErrors(s, s', p, s'.producers[p]);
  }

  // ----- every action

  /** The condition for each action, read off the table before it. */
  ghost predicate ActDelivers(s: State, a: Action)
    requires Shape(s)
  {
    match a
    case Vote(v, proxy, ps) => VoteDelivers(s, v, proxy, ps, true)
    case SetProxy(v, isProxy) => FlipDelivers(s, v, isProxy)
    case ChangeStake(v, delta) => StakeDelivers(s, v, delta)
    case Register(p) => p in s.producers || SumReal(VotesFor(s.voters, p)) == 0.0
    case Unregister(_) => true
  }

  /** From exact tallies, an accepted action leaves exact tallies if and only if it delivers. */
  lemma ActStaysExact(s: State, a: Action)
    requires Inv(s) && Exact(s) && Act(s, a).Some?
    ensures Exact(Act(s, a).value) <==> ActDelivers(s, a)
  {
    hide UpdateVotes, RegProxy, UpdateVotingPower, VoteDelivers, FlipDelivers, StakeDelivers, Sound, Exact, Ranked, RowOk, PlainOk,
         SumReal;
    match a
    case Vote(v, proxy, ps) => VoteStaysExact(s, v, proxy, ps, true);
    case SetProxy(v, isProxy) => RegProxyStaysExact(s, v, isProxy);
    case ChangeStake(v, delta) => StakeStaysExact(s, v, delta);
    case Register(p) => RegisterStaysExact(s, p);
    case Unregister(p) => DeactivateStaysExact(s, p);
  }
}
