/** The vote ledger as a machine: one event is one action at a block time, and every run from
    the empty ledger keeps the tallies, the vote-pay index and the proxy graph. */
module VotingMachine {
  import opened Common
  import opened Sums
  import opened Voting
  import opened VotingChains
  import opened VotingIndex
  import opened VotingTallies
  import opened VotingRuns
  import opened VotingActions

  // ----- the other actions

  lemma FlipProxyTallies(s: State, v: Name, isProxy: bool)
    requires v in s.voters && Sound(s, Loss(s), s.voters, s.voters)
    ensures var s1 := s.(voters := s.voters[v := s.voters[v].(isProxy := isProxy)]);
            Sound(s1, Loss(s1), s1.voters, s1.voters)
  {
    hide SumReal, IndexOk, CleanRow;
    var r := s.voters[v].(isProxy := isProxy);
    assert s.voters == s.voters[v := s.voters[v]];
    ViewSwap(s, 0.0, s.voters, s.voters, v, r, r) by {
      assert s.dropped == 0.0 ==> CleanRow(s, r) by { FlipProxyClean(s, v, isProxy); }
    }
    assert s.(clamped := s.clamped + 0.0) == s;
    WriteRow(s, v, r, s.voters[v := r], s.voters[v := r]);
  }

  lemma FlipProxyClean(s: State, v: Name, isProxy: bool)
    requires v in s.voters && Sound(s, Loss(s), s.voters, s.voters)
    ensures s.dropped == 0.0 ==> CleanRow(s, s.voters[v].(isProxy := isProxy))
  {
    if s.dropped == 0.0 {
      SoundIsClean(s, Loss(s), s.voters, s.voters, v);
    }
  }

  lemma NewRowVotes(s: State, v: Name, r: Voter)
    requires v !in s.voters && ProducersTallied(s, Loss(s), s.voters)
    requires r.proxy.None? && r.producers == []
    ensures var s1 := s.(voters := s.voters[v := r], rank := s.rank[v := 0]);
            ProducersTallied(s1, Loss(s1), s1.voters)
  {
    hide SumReal;
    var s1 := s.(voters := s.voters[v := r], rank := s.rank[v := 0]);
    forall p: Name
      ensures Near(VotesOf(s1, p), SumReal(VotesFor(s1.voters, p)), Loss(s1))
    {
      assert Near(VotesOf(s, p), SumReal(VotesFor(s.voters, p)), Loss(s));
      RealChange(VotesFor(s.voters, p), VotesFor(s1.voters, p), v);
    }
  }

  lemma NobodyLends(s: State, v: Name, r: Voter)
    requires v !in s.voters && Ranked(s) && r.proxy.None?
    ensures SumReal(LentTo(s.voters[v := r], v)) == 0.0
  {
    RealZero(LentTo(s.voters[v := r], v));
  }

  lemma LentAddRow(vs: Rows, v: Name, r: Voter, q: Name)
    requires v !in vs && r.proxy.None?
    ensures SumReal(LentTo(vs[v := r], q)) == SumReal(LentTo(vs, q))
  {
    hide SumReal;
    RealChange(LentTo(vs, q), LentTo(vs[v := r], q), v);
  }

  lemma NewRowLent(s: State, v: Name, r: Voter)
    requires v !in s.voters && Ranked(s) && ProxiesTallied(s, s.lent, s.voters) && 0.0 <= s.lent
    requires r.proxy.None? && r.proxied == 0.0
    ensures var s1 := s.(voters := s.voters[v := r], rank := s.rank[v := 0]);
            ProxiesTallied(s1, s1.lent, s1.voters)
  {
    hide SumReal, Ranked, LentTo;
    var rows := s.voters[v := r];
    forall q | q in rows
      ensures Near(rows[q].proxied, SumReal(LentTo(rows, q)), s.lent)
    {
      NobodyLends(s, v, r);
      if q != v {
        assert Near(s.voters[q].proxied, SumReal(LentTo(s.voters, q)), s.lent);
        LentAddRow(s.voters, v, r, q);
      }
    }
  }

  lemma NewRowTallies(s: State, v: Name, r: Voter)
    requires v !in s.voters && Ranked(s) && Sound(s, Loss(s), s.voters, s.voters)
    requires r.proxy.None? && r.producers == [] && r.last == 0.0 && r.proxied == 0.0
    ensures var s1 := s.(voters := s.voters[v := r], rank := s.rank[v := 0]);
            Sound(s1, Loss(s1), s1.voters, s1.voters)
  {
    hide SumReal, IndexOk, ProducersTallied, ProxiesTallied;
    var s1 := s.(voters := s.voters[v := r], rank := s.rank[v := 0]);
    NewRowVotes(s, v, r);
    NewRowLent(s, v, r);
    IndexIgnoresVoters(s, s1);
  }

  lemma NewRowKeeps(s: State, v: Name, r: Voter)
    requires Inv(s) && v !in s.voters
    requires r.proxy.None? && r.producers == [] && r.last == 0.0 && r.proxied == 0.0 && 0 <= r.staked
    ensures Inv(s.(voters := s.voters[v := r], rank := s.rank[v := 0]))
  {
    hide Sound;
    NewRowTallies(s, v, r);
    var s1 := s.(voters := s.voters[v := r], rank := s.rank[v := 0]);
    forall x | x in s1.voters
      ensures RowOk(s1.voters[x])
    {
      assert x != v ==> RowOk(s.voters[x]);
    }
  }

  lemma PropagateKeepsInv(s: State, v: Name)
    requires Shape(s) && Sound(s, Loss(s), s.voters, s.voters) && PlainExcept(s, v) && v in s.voters
    ensures Propagate(s, v).Some? ==>
              Inv(Propagate(s, v).value) && s.dropped <= Propagate(s, v).value.dropped && Propagate(s, v).value.now == s.now
  {
    hide Sound, SumReal, Weight, RowOk, Reached, Agree, Refresh, Propagate, Kept, Ranked, Loss, Refreshed, PlainOk,
         PlainExcept;
    RankedAt(s, v);
    assert s.rank.Keys == s.voters.Keys by { RankKeys(s); }
    AgreeSelf(s.rank, s.voters, s.rank[v]);
    PropagateKeeps(s, v, Loss(s), s.voters, s.voters);
    PropagateRefreshes(s, v);
    if Propagate(s, v).Some? {
      PropagateFrame(s, v);
      ReachedKeepsPlain(s, Propagate(s, v).value, v);
      RefreshedState(s, Propagate(s, v).value, v);
      KeptMeansSound(s, Propagate(s, v).value, v);
    }
  }

  // What is known of s when v's status has just changed.
  ghost predicate PlainExcept(s: State, v: Name) {
    forall x | x in s.voters && x != v && !s.voters[x].isProxy :: 0.0 <= s.voters[x].last
  }

  lemma ReachedKeepsPlain(s: State, s': State, v: Name)
    requires Shape(s) && PlainExcept(s, v) && v in s.voters && Refreshed(s, s')
    requires Reached(s, s', v, Weight(s.voters[v], s.stakeRate))
    ensures PlainOk(s')
  {
    hide Weight, Ranked;
    forall x | x in s'.voters && !s'.voters[x].isProxy
      ensures 0.0 <= s'.voters[x].last
    {
      assert RowOk(s.voters[x]) && s'.voters[x].staked == s.voters[x].staked;
      StakeWeight(s'.voters[x], s.stakeRate);
      StakeWeight(s.voters[x], s.stakeRate);
    }
  }

  lemma RankKeys(s: State)
    requires Ranked(s)
    ensures s.rank.Keys == s.voters.Keys
  {
  }

  lemma KeptMeansSound(s: State, s': State, v: Name)
    requires v in s.rank && Kept(s, s', Loss(s), s.voters, s.voters, s.rank[v])
    requires Refresh(s'.rank, s'.voters, s.voters, s.rank[v]) == s'.voters
    ensures Sound(s', Loss(s'), s'.voters, s'.voters) && s.dropped <= s'.dropped
  {
    hide Sound, Refresh, Loss;
    assert Loss(s) + Loss(s') - Loss(s) == Loss(s');
  }

  lemma AgreeSelf(rank: Ranks, table: Rows, n: nat)
    requires rank.Keys == table.Keys
    ensures Agree(rank, table, table, n)
  {
  }

  lemma RefreshedState(s: State, s': State, v: Name)
    requires Shape(s) && v in s.voters && Reached(s, s', v, Weight(s.voters[v], s.stakeRate)) && Ranked(s')
    ensures Shape(s') && s'.now == s.now
    ensures Refresh(s'.rank, s'.voters, s.voters, s.rank[v]) == s'.voters
  {
    hide SumReal, Weight, RowOk;
    StructureKeepsRows(s, s');
    RefreshAll(s.rank, s.voters, s'.voters, s.rank[v]);
  }

  lemma RefreshAll(rank: Ranks, table: Rows, table': Rows, n: nat)
    requires table.Keys == table'.Keys == rank.Keys
    requires forall y | y in table && n < rank[y] :: table'[y] == table[y]
    ensures Refresh(rank, table', table, n) == table'
  {
  }

  lemma FlipKeeps(s: State, v: Name, isProxy: bool)
    requires Inv(s) && v in s.voters && !(isProxy && s.voters[v].proxy.Some?)
    ensures var s1 := s.(voters := s.voters[v := s.voters[v].(isProxy := isProxy)]);
            Shape(s1) && Sound(s1, Loss(s1), s1.voters, s1.voters) && PlainExcept(s1, v)
  {
    hide Sound, SumReal;
    var s1 := s.(voters := s.voters[v := s.voters[v].(isProxy := isProxy)]);
    FlipProxyTallies(s, v, isProxy);
    forall x | x in s1.voters
      ensures RowOk(s1.voters[x])
    {
      assert RowOk(s.voters[x]);
    }
  }

  /** regproxy keeps the invariant, in both directions, and leaves the row with its new weight. */
  lemma RegProxyKeeps(s: State, v: Name, isProxy: bool)
    requires Inv(s)
    ensures RegProxy(s, v, isProxy).Some? ==>
              var s' := RegProxy(s, v, isProxy).value;
              && Inv(s') && s.dropped <= s'.dropped
              && v in s'.voters && s'.voters[v].isProxy == isProxy
              && (v in s.voters ==> s'.voters[v].last == Weight(s.voters[v].(isProxy := isProxy), s.stakeRate))
  {
    hide Sound, SumReal, Weight, Ranked, RowOk, PlainOk, PlainExcept, Propagate, SameStructure;
    if v !in s.voters {
      NewRowKeeps(s, v, NEW_VOTER.(isProxy := isProxy));
    } else if RegProxy(s, v, isProxy).Some? {
      var s1 := s.(voters := s.voters[v := s.voters[v].(isProxy := isProxy)]);
      FlipKeeps(s, v, isProxy);
      PropagateKeepsInv(s1, v);
      PropagateFrame(s1, v);
      StructureKeepsProxies(s1, RegProxy(s, v, isProxy).value);
    }
  }

  lemma StructureKeepsProxies(s: State, s': State)
    requires SameStructure(s, s')
    ensures s'.voters.Keys == s.voters.Keys && forall v | v in s.voters :: s'.voters[v].isProxy == s.voters[v].isProxy
  {
  }

  lemma StakeTallies(s: State, v: Name, staked: int)
    requires v in s.voters && Sound(s, Loss(s), s.voters, s.voters)
    ensures var s1 := s.(voters := s.voters[v := s.voters[v].(staked := staked)]);
            Sound(s1, Loss(s1), s1.voters, s1.voters)
  {
    hide SumReal, IndexOk;
    var r := s.voters[v].(staked := staked);
    assert s.voters == s.voters[v := s.voters[v]];
    ViewSwap(s, 0.0, s.voters, s.voters, v, r, r);
    assert s.(clamped := s.clamped + 0.0) == s;
    WriteRow(s, v, r, s.voters[v := r], s.voters[v := r]);
  }

  /** update_voting_power keeps the invariant: the votes follow the stake. */
  lemma UpdateVotingPowerKeeps(s: State, v: Name, delta: int)
    requires Inv(s)
    ensures var o := UpdateVotingPower(s, v, delta);
            o.Some? ==> Inv(o.value) && s.dropped <= o.value.dropped
  {
    hide Sound, SumReal, Weight, UpdateVotes;
    if UpdateVotingPower(s, v, delta).Some? {
      if v in s.voters {
        var r := s.voters[v];
        var s1 := s.(voters := s.voters[v := r.(staked := r.staked + delta)]);
        StakedRowKeeps(s, v, r.staked + delta);
        assert s1 == s1.(rank := s.rank);
        if Backs(r) { UpdateVotesKeeps(s1, v, r.proxy, r.producers, false); }
      } else {
        NewRowKeeps(s, v, NEW_VOTER.(staked := delta));
      }
    }
  }

  lemma StakedRowKeeps(s: State, v: Name, staked: int)
    requires Inv(s) && v in s.voters && 0 <= staked
    ensures Inv(s.(voters := s.voters[v := s.voters[v].(staked := staked)]))
  {
    hide Sound, SumReal;
    StakeTallies(s, v, staked);
    var s1 := s.(voters := s.voters[v := s.voters[v].(staked := staked)]);
    forall x | x in s1.voters
      ensures RowOk(s1.voters[x])
    {
      assert RowOk(s.voters[x]);
    }
  }

  lemma AllVotesAdd(ps: map<Name, Producer>, p: Name, row: Producer)
    requires row.votes == if p in ps then ps[p].votes else 0.0
    ensures SumReal(AllVotes(ps[p := row])) == SumReal(AllVotes(ps))
  {
    hide SumReal;
    RealChange(AllVotes(ps), AllVotes(ps[p := row]), p);
  }

  // A producer's row changes in nothing that is tallied.
  lemma ProducerRowKeeps(s: State, p: Name, row: Producer, row2: Producer2)
    requires Inv(s)
    requires p in s.producers ==> row == s.producers[p].(active := row.active) && row2 == s.producers2[p]
    requires p !in s.producers ==> row.votes == 0.0 && row2.share == 0.0 && row.lastClaim == row2.updated == s.now
    ensures Inv(s.(producers := s.producers[p := row], producers2 := s.producers2[p := row2]))
  {
    hide SumReal, RowOk, IndexOk;
    var s' := s.(producers := s.producers[p := row], producers2 := s.producers2[p := row2]);
    AllVotesAdd(s.producers, p, row);
    assert forall x: Name :: VotesOf(s', x) == VotesOf(s, x);
    if s.dropped == 0.0 {
      ProducerRowKeepsIndex(s, p, row, row2);
    }
  }

  lemma ProducerRowShares(s: State, p: Name, row: Producer, row2: Producer2)
    requires RowsOk(s) && 0 < s.now
    requires p in s.producers ==> row == s.producers[p].(active := row.active) && row2 == s.producers2[p]
    requires p !in s.producers ==> row.votes == 0.0 && row2.share == 0.0 && row.lastClaim == row2.updated == s.now
    ensures RowsOk(s.(producers := s.producers[p := row], producers2 := s.producers2[p := row2]))
  {
    var s' := s.(producers := s.producers[p := row], producers2 := s.producers2[p := row2]);
    forall x | x in s'.producers
      ensures ShareOk(s'.producers[x], s'.producers2[x], s.shareTime, s.now)
    {
      assert x != p ==> ShareOk(s.producers[x], s.producers2[x], s.shareTime, s.now);
    }
  }

  lemma ProducerRowSums(s: State, p: Name, row: Producer, row2: Producer2)
    requires s.producers2.Keys == s.producers.Keys
    ensures var s' := s.(producers := s.producers[p := row], producers2 := s.producers2[p := row2]);
            && Rates(s') - {p} == Rates(s) - {p} && DueShares(s', s.shareTime) - {p} == DueShares(s, s.shareTime) - {p}
            && RealAt(Rates(s'), p) == Live(row, row2) && RealAt(DueShares(s', s.shareTime), p) == Due(row, row2, s.shareTime)
  {
    hide Live, Due;
  }

  lemma ProducerRowKeepsIndex(s: State, p: Name, row: Producer, row2: Producer2)
    requires IndexOk(s) && 0 < s.now
    requires p in s.producers ==> row == s.producers[p].(active := row.active) && row2 == s.producers2[p]
    requires p !in s.producers ==> row.votes == 0.0 && row2.share == 0.0 && row.lastClaim == row2.updated == s.now
    ensures IndexOk(s.(producers := s.producers[p := row], producers2 := s.producers2[p := row2]))
  {
    hide SumReal, Times, ShareOk;
    var s' := s.(producers := s.producers[p := row], producers2 := s.producers2[p := row2]);
    ProducerRowShares(s, p, row, row2);
    ProducerRowSums(s, p, row, row2);
    TimesZero(s.shareTime - row2.updated, 0.0);
    RealChange(Rates(s), Rates(s'), p);
    RealChange(DueShares(s, s.shareTime), DueShares(s', s.shareTime), p);
  }

  /** Registering again only reactivates a producer; registering anew adds an empty tally. */
  lemma RegisterKeeps(s: State, p: Name)
    requires Inv(s)
    ensures Inv(RegisterProducer(s, p))
  {
    if p in s.producers {
      var row := s.producers[p].(active := true);
      ProducerRowKeeps(s, p, row, s.producers2[p]);
      assert s.producers2[p := s.producers2[p]] == s.producers2;
    } else {
      ProducerRowKeeps(s, p, Producer(0.0, true, s.now), Producer2(0.0, s.now));
    }
  }

  lemma DeactivateKeeps(s: State, p: Name)
    requires Inv(s) && p in s.producers
    ensures Inv(Deactivate(s, p).value)
  {
    ProducerRowKeeps(s, p, s.producers[p].(active := false), s.producers2[p]);
    assert s.producers2[p := s.producers2[p]] == s.producers2;
  }

  // ----- runs

  datatype Action =
    | Vote(voter: Name, proxy: Option<Name>, producers: seq<Name>)
    | SetProxy(voter: Name, isProxy: bool)
    | ChangeStake(voter: Name, delta: int)
    | Register(producer: Name)
    | Unregister(producer: Name)

  // An action, the time of its block and the vote weight of one staked unit at that time.
  datatype Event = Event(time: int, rate: real, action: Action)

  function Tick(s: State, e: Event): State {
    s.(now := e.time, stakeRate := e.rate)
  }

  ghost function Act(s: State, a: Action): Option<State>
    requires Shape(s)
  {
    match a
    case Vote(v, proxy, producers) => UpdateVotes(s, v, proxy, producers, true)
    case SetProxy(v, isProxy) => RegProxy(s, v, isProxy)
    case ChangeStake(v, delta) => UpdateVotingPower(s, v, delta)
    case Register(p) => Some(RegisterProducer(s, p))
    case Unregister(p) => Deactivate(s, p)
  }

  // An aborted action leaves the ledger as it was.
  ghost function Next(s: State, e: Event): State
    requires Shape(Tick(s, e))
  {
    match Act(Tick(s, e), e.action)
    case Some(s') => s'
    case None => Tick(s, e)
  }

  // Block times never go back.
  predicate Orderly(s: State, e: Event) {
    s.now <= e.time && 0.0 < e.rate
  }

  lemma TickKeeps(s: State, e: Event)
    requires Inv(s) && Orderly(s, e)
    ensures Inv(Tick(s, e))
  {
    hide SumReal, RowOk;
    var s' := Tick(s, e);
    IndexFields(s, s');
    TalliesIgnoreLosses(s, s', Loss(s), s.lent, s.voters, s.voters);
    CleanIgnoresLosses(s, s');
    if s.dropped == 0.0 {
      assert RowsOk(s') by {
        forall p | p in s.producers
          ensures ShareOk(s.producers[p], s.producers2[p], s.shareTime, e.time)
        {
          assert ShareOk(s.producers[p], s.producers2[p], s.shareTime, s.now);
        }
      }
    }
  }

  /** Every action of an event keeps the invariant. */
  lemma NextKeeps(s: State, e: Event)
    requires Inv(s) && Orderly(s, e)
    ensures Inv(Tick(s, e)) && Inv(Next(s, e)) && s.dropped <= Next(s, e).dropped
  {
    hide Sound, SumReal, Weight, UpdateVotes, RegProxy, UpdateVotingPower, Ranked, RowOk;
    TickKeeps(s, e);
    var t := Tick(s, e);
    match e.action
    case Vote(v, proxy, producers) => UpdateVotesKeeps(t, v, proxy, producers, true);
    case SetProxy(v, isProxy) => RegProxyKeeps(t, v, isProxy);
    case ChangeStake(v, delta) => UpdateVotingPowerKeeps(t, v, delta);
    case Register(p) => RegisterKeeps(t, p);
    case Unregister(p) => if p in t.producers { DeactivateKeeps(t, p); }
  }

  // The states of a run: it starts at s and takes the events in order.
  ghost predicate IsRun(s: State, es: seq<Event>, s': State)
    decreases |es|
  {
    if es == [] then s' == s
    else Shape(Tick(s, es[0])) && Orderly(s, es[0]) && IsRun(Next(s, es[0]), es[1..], s')
  }

  function Genesis(now: int, rate: real): State {
    State(map[], map[], map[], 0.0, 0.0, 0.0, 0, 0, 0, now, rate, map[], 0.0, 0.0, 0, 0.0)
  }

  lemma GenesisInv(now: int, rate: real)
    requires 0 < now && 0.0 < rate
    ensures Inv(Genesis(now, rate))
  {
    var s := Genesis(now, rate);
    forall p: Name ensures VotesFor(s.voters, p) == map[] { }
    assert AllVotes(s.producers) == map[] && Rates(s) == map[] && DueShares(s, 0) == map[];
  }

  /** Safety over whole runs: whatever the order of votes, proxy changes, stake changes and
      registrations, and whatever the weights at their times, the invariant holds at the end. */
  lemma {:induction false} RunKeeps(s: State, es: seq<Event>, s': State)
    requires Inv(s) && IsRun(s, es, s')
    ensures Inv(s') && s.dropped <= s'.dropped
    decreases |es|
  {
    if es != [] {
      NextKeeps(s, es[0]);
      RunKeeps(Next(s, es[0]), es[1..], s');
    }
  }

  // ----- what the invariant says to a reader

  /** A proxy's tally is off the weight lent to it by at most the changes dropped on their way to
      a proxy, each of which is at most 1; only producers' tallies also miss what was clamped. */
  ghost predicate TalliesClose(s: State) {
    && (forall p | p in s.producers ::
          Abs(s.producers[p].votes - SumReal(VotesFor(s.voters, p))) <= s.dropped + s.clamped)
    && (forall q | q in s.voters ::
          Abs(s.voters[q].proxied - SumReal(LentTo(s.voters, q))) <= s.lent)
    && s.lent <= s.dropped <= s.drops as real
    && Abs(s.totalWeight - SumReal(AllVotes(s.producers))) <= s.clamped
  }

  // Every tally is the sum it stands for, and so are the vote-pay rate and share total; a share
  // settled after its three days is gone.
  ghost predicate TalliesExact(s: State) {
    && (forall p | p in s.producers :: s.producers[p].votes == SumReal(VotesFor(s.voters, p)))
    && (forall q | q in s.voters :: s.voters[q].proxied == SumReal(LentTo(s.voters, q)))
    && s.totalWeight == SumReal(AllVotes(s.producers))
    && s.changeRate == SumReal(Rates(s))
    && s.votepayShare == SumReal(DueShares(s, s.shareTime))
    && (forall p | p in s.producers && p in s.producers2 && Stale(s.producers[p], s.producers2[p]) :: s.producers2[p].share == 0.0)
  }

  lemma InvMeansClose(s: State)
    requires Inv(s)
    ensures TalliesClose(s)
  {
    hide SumReal, IndexOk, Clean, Shape;
    assert Sound(s, Loss(s), s.voters, s.voters);
    forall p | p in s.producers
      ensures Abs(s.producers[p].votes - SumReal(VotesFor(s.voters, p))) <= s.dropped + s.clamped
    {
      assert Near(VotesOf(s, p), SumReal(VotesFor(s.voters, p)), Loss(s));
    }
    forall q | q in s.voters
      ensures Abs(s.voters[q].proxied - SumReal(LentTo(s.voters, q))) <= s.lent
    {
      assert Near(s.voters[q].proxied, SumReal(LentTo(s.voters, q)), LentLoss(s, Loss(s)));
    }
  }

  lemma CloseMeansExact(s: State)
    requires TalliesClose(s) && s.dropped == 0.0 && s.clamped == 0.0 && IndexOk(s)
    ensures TalliesExact(s)
  {
    hide SumReal;
    forall p | p in s.producers && p in s.producers2 && Stale(s.producers[p], s.producers2[p])
      ensures s.producers2[p].share == 0.0
    {
      assert ShareOk(s.producers[p], s.producers2[p], s.shareTime, s.now);
    }
    forall p | p in s.producers
      ensures s.producers[p].votes == SumReal(VotesFor(s.voters, p))
    {
      assert Abs(s.producers[p].votes - SumReal(VotesFor(s.voters, p))) <= 0.0;
    }
    forall q | q in s.voters
      ensures s.voters[q].proxied == SumReal(LentTo(s.voters, q))
    {
      assert Abs(s.voters[q].proxied - SumReal(LentTo(s.voters, q))) <= 0.0;
    }
  }

  lemma InvMeansIndex(s: State)
    requires Inv(s) && s.dropped == 0.0
    ensures s.clamped == 0.0 && IndexOk(s)
  {
  }

  /** At the end of every run each tally is off by no more than the weight lost so far; and if no
      change was ever dropped as too small, every tally is exact, so are the vote-pay rate and
      share total, and nothing was ever clamped at zero. */
  lemma TalliesOfEveryRun(now: int, rate: real, es: seq<Event>, s: State)
    requires 0 < now && 0.0 < rate && IsRun(Genesis(now, rate), es, s)
    ensures TalliesClose(s)
    ensures s.dropped == 0.0 ==> s.clamped == 0.0 && TalliesExact(s)
  {
    hide Inv, TalliesClose, TalliesExact, IndexOk;
    GenesisInv(now, rate);
    RunKeeps(Genesis(now, rate), es, s);
    InvMeansClose(s);
    if s.dropped == 0.0 {
      InvMeansIndex(s);
      CloseMeansExact(s);
    }
  }

  // A walk along proxy edges.
  ghost predicate ProxyPath(vs: Rows, path: seq<Name>) {
    && (forall i | 0 <= i < |path| :: path[i] in vs)
    && forall i | 0 <= i < |path| - 1 :: vs[path[i]].proxy == Some(path[i + 1])
  }

  lemma {:induction false} PathDescends(s: State, path: seq<Name>)
    requires Ranked(s) && ProxyPath(s.voters, path) && 2 <= |path|
    ensures s.rank[path[|path| - 1]] < s.rank[path[0]]
    decreases |path|
  {
    assert s.voters[path[0]].proxy == Some(path[1]);
    if 2 < |path| {
      assert ProxyPath(s.voters, path[1..]) by {
        forall i | 0 <= i < |path[1..]| - 1
          ensures s.voters[path[1..][i]].proxy == Some(path[1..][i + 1])
        {
          assert path[1..][i] == path[i + 1] && path[1..][i + 1] == path[i + 2];
        }
      }
      PathDescends(s, path[1..]);
    }
  }

  /** No run can build a cycle of proxies, although an account that stopped being a proxy may
      take one itself while others still point at it. */
  lemma ProxiesNeverCycle(now: int, rate: real, es: seq<Event>, s: State, path: seq<Name>)
    requires 0 < now && 0.0 < rate && IsRun(Genesis(now, rate), es, s)
    requires ProxyPath(s.voters, path) && 2 <= |path|
    ensures path[0] != path[|path| - 1]
  {
    GenesisInv(now, rate);
    RunKeeps(Genesis(now, rate), es, s);
    PathDescends(s, path);
  }
}
