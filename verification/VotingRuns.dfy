/** Every action of the vote ledger, and so every run, keeps the invariant. */
module VotingRuns {
  import opened Common
  import opened Sums
  import opened Voting
  import opened VotingChains
  import opened VotingTallies

  // ----- propagation along a chain

  ghost predicate RowsFine(s: State) {
    && 0.0 < s.stakeRate
    && (forall v | v in s.voters :: RowOk(s.voters[v]))
    && (forall p | p in s.producers :: 0 < s.producers[p].lastClaim)
  }

  lemma StructureKeepsRows(s: State, s': State)
    requires RowsFine(s) && SameStructure(s, s')
    ensures RowsFine(s')
  {
    forall v | v in s'.voters
      ensures RowOk(s'.voters[v])
    {
      assert RowOk(s.voters[v]);
    }
  }

  lemma RefreshOne(rank: Ranks, table: Rows, v: Name, r: Voter, vs: Rows)
    requires v in table && v in rank && Agree(rank, table, vs, rank[v])
    ensures Refresh(rank, table[v := r], vs, rank[v]) == vs[v := r]
  {
  }

  lemma RefreshChain(rank: Ranks, table: Rows, v: Name, r: Voter, z: Name, q: Voter, table': Rows, vs: Rows)
    requires v in table && z in table && v in rank && z in rank && Agree(rank, table, vs, rank[v]) && rank[z] < rank[v]
    requires table'.Keys == table.Keys
    requires forall y | y in table && rank[z] < rank[y] :: table'[y] == table[v := r][z := q][y]
    ensures Refresh(rank, table', vs[v := r][z := q], rank[z]) == Refresh(rank, table', vs, rank[v])
  {
    var a, b := Refresh(rank, table', vs[v := r][z := q], rank[z]), Refresh(rank, table', vs, rank[v]);
    forall y | y in vs
      ensures a[y] == b[y]
    {
    }
    assert a.Keys == b.Keys;
  }

  lemma AgreeChain(rank: Ranks, table: Rows, v: Name, r: Voter, z: Name, q: Voter, vs: Rows)
    requires v in table && z in table && v in rank && z in rank && Agree(rank, table, vs, rank[v]) && rank[z] < rank[v]
    ensures Agree(rank, table[v := r][z := q], vs[v := r][z := q], rank[z])
  {
  }

  // What PropagateKeeps says about the state after a successful propagation.
  ghost predicate Kept(s: State, s': State, e: real, vp: Rows, vq: Rows, n: nat) {
    && Sound(s', e + Loss(s') - Loss(s), Refresh(s'.rank, s'.voters, vp, n), Refresh(s'.rank, s'.voters, vq, n))
    && s.dropped <= s'.dropped && s.clamped <= s'.clamped
  }

  lemma SoundIsClean(s: State, e: real, vp: Rows, vq: Rows, v: Name)
    requires Sound(s, e, vp, vq) && v in vp && s.dropped == 0.0
    ensures CleanRow(s, vp[v])
  {
  }

  lemma ApplyOnlyClamps(s: State, ds: map<Name, real>, floor: bool)
    ensures ApplyChanges(s, ds, floor).dropped == s.dropped && ApplyChanges(s, ds, floor).lent == s.lent
    ensures s.clamped <= ApplyChanges(s, ds, floor).clamped
    ensures ApplyChanges(s, ds, floor).voters == s.voters && ApplyChanges(s, ds, floor).rank == s.rank
  {
    LossesGrow(s, ds, floor);
  }

  lemma CarryFields(s: State, v: Name)
    requires Ranked(s) && v in s.voters && s.voters[v].proxy.Some?
    ensures var s1, z := Carry(s, v), s.voters[v].proxy.value;
            && z in s.voters && s1.voters == s.voters[v := s1.voters[v]][z := s1.voters[z]] && s1.rank == s.rank
            && s1.dropped == s.dropped && s1.clamped == s.clamped && s1.lent == s.lent
  {
    hide Weight;
    RankedAt(s, v);
    var s1, z := Carry(s, v), s.voters[v].proxy.value;
    assert s1.voters.Keys == s.voters.Keys;
  }

  lemma ReachedRows(s: State, s': State, v: Name, x: real)
    requires v in s.voters && s.rank.Keys == s.voters.Keys && Reached(s, s', v, x)
    ensures s'.voters.Keys == s.voters.Keys && s'.rank == s.rank
    ensures forall y | y in s.voters && s.rank[v] < s.rank[y] :: s'.voters[y] == s.voters[y]
  {
  }

  // The step along a proxy edge, given that the rest of the chain keeps the tallies.
  lemma ChainKeeps(s: State, v: Name, e: real, vp: Rows, vq: Rows, s': State, x: real)
    requires Ranked(s) && v in s.voters && s.voters[v].proxy.Some?
    requires Agree(s.rank, s.voters, vp, s.rank[v]) && Agree(s.rank, s.voters, vq, s.rank[v])
    requires var s1, z := Carry(s, v), s.voters[v].proxy.value;
             && Reached(s1, s', z, x)
             && Kept(s1, s', e, vp[v := s1.voters[v]][z := s1.voters[z]], vq[v := s1.voters[v]][z := s1.voters[z]], s.rank[z])
    ensures Kept(s, s', e, vp, vq, s.rank[v])
  {
    hide Sound, Weight, SameStructure, Reached;
    RankedAt(s, v);
    CarryFields(s, v);
    ReachedRows(Carry(s, v), s', s.voters[v].proxy.value, x);
    var s1, z := Carry(s, v), s.voters[v].proxy.value;
    hide Carry, Ranked;
    RefreshChain(s.rank, s.voters, v, s1.voters[v], z, s1.voters[z], s'.voters, vp);
    RefreshChain(s.rank, s.voters, v, s1.voters[v], z, s1.voters[z], s'.voters, vq);
  }

  lemma DropKept(s: State, v: Name, e: real, vp: Rows, vq: Rows)
    requires Ranked(s) && RowsFine(s) && v in s.voters
    requires Sound(s, e, vp, vq) && Agree(s.rank, s.voters, vp, s.rank[v]) && Agree(s.rank, s.voters, vq, s.rank[v])
    requires Abs(Weight(s.voters[v], s.stakeRate) - s.voters[v].last) <= 1.0
    ensures Kept(s, Dropped(s, v), e, vp, vq, s.rank[v])
  {
    hide Sound, Weight;
    var r' := s.voters[v].(last := Weight(s.voters[v], s.stakeRate));
    DropKeeps(s, v, e, vp, vq);
    RefreshOne(s.rank, s.voters, v, r', vp);
    RefreshOne(s.rank, s.voters, v, r', vq);
  }

  lemma VotesKept(s: State, v: Name, e: real, vp: Rows, vq: Rows)
    requires Ranked(s) && RowsFine(s) && v in s.voters && s.voters[v].proxy.None?
    requires Sound(s, e, vp, vq) && Agree(s.rank, s.voters, vp, s.rank[v]) && Agree(s.rank, s.voters, vq, s.rank[v])
    requires forall p | p in s.voters[v].producers :: p in s.producers
    ensures var ds := SameForAll(s.voters[v].producers, Weight(s.voters[v], s.stakeRate) - s.voters[v].last);
            Kept(s, ApplyChanges(Carry(s, v), ds, false), e, vp, vq, s.rank[v])
  {
    hide Sound, Weight, ApplyChanges;
    var r' := s.voters[v].(last := Weight(s.voters[v], s.stakeRate));
    var ds := SameForAll(s.voters[v].producers, Weight(s.voters[v], s.stakeRate) - s.voters[v].last);
    ApplyOnlyClamps(Carry(s, v), ds, false);
    VotesKeep(s, v, e, vp, vq);
    RefreshOne(s.rank, s.voters, v, r', vp);
    RefreshOne(s.rank, s.voters, v, r', vq);
  }

  /** Propagating a weight keeps every tally, for any two views that agree with the table on the
      rows it can reach. */
  lemma {:induction false} PropagateKeeps(s: State, v: Name, e: real, vp: Rows, vq: Rows)
    requires Ranked(s) && RowsFine(s) && v in s.voters
    requires Sound(s, e, vp, vq) && Agree(s.rank, s.voters, vp, s.rank[v]) && Agree(s.rank, s.voters, vq, s.rank[v])
    ensures Propagate(s, v).Some? ==> Kept(s, Propagate(s, v).value, e, vp, vq, s.rank[v])
    decreases s.rank[v]
  {
    hide Sound, Weight, SumReal, ApplyChanges, RowOk, Kept, Agree, SameStructure;
    var r := s.voters[v];
    assert RowOk(r);
    if Abs(Weight(r, s.stakeRate) - r.last) <= 1.0 {
      DropKept(s, v, e, vp, vq);
    } else if r.proxy.Some? {
      var s1, z := Carry(s, v), r.proxy.value;
      var r', q' := s1.voters[v], s1.voters[z];
      CarryKeeps(s, v, e, vp, vq);
      CarryKeepsStructure(s, v);
      StructureKeepsRows(s, s1);
      AgreeChain(s.rank, s.voters, v, r', z, q', vp);
      AgreeChain(s.rank, s.voters, v, r', z, q', vq);
      PropagateKeeps(s1, z, e, vp[v := r'][z := q'], vq[v := r'][z := q']);
      if Propagate(s1, z).Some? {
        PropagateFrame(s1, z);
        ChainKeeps(s, v, e, vp, vq, Propagate(s1, z).value, Weight(q', s.stakeRate));
      }
    } else {
      if forall p | p in r.producers :: p in s.producers {
        VotesKept(s, v, e, vp, vq);
      }
    }
  }

  // ----- what a row lends

  lemma StakeWeight(r: Voter, w: real)
    requires 0 <= r.staked && !r.isProxy
    ensures Weight(r, w) == Times(w)(r.staked as real)
    ensures 0.0 < w ==> 0.0 <= Weight(r, w)
  {
    assert 0.0 < w ==> 0.0 <= w * r.staked as real;
  }

  lemma RefreshedKeepsPlain(s: State, s': State)
    requires PlainOk(s) && RowsFine(s) && SameStructure(s, s') && Refreshed(s, s')
    ensures PlainOk(s')
  {
    hide Weight;
    forall v | v in s'.voters && !s'.voters[v].isProxy
      ensures 0.0 <= s'.voters[v].last
    {
      assert RowOk(s.voters[v]) && s'.voters[v].staked == s.voters[v].staked;
      StakeWeight(s'.voters[v], s.stakeRate);
    }
  }

  lemma AddNothing(s: State, v: Name)
    requires v in s.voters
    ensures AddProxied(s, v, 0.0) == s
  {
    assert AddProxied(s, v, 0.0).voters == s.voters;
  }

  /** A propagation leaves every row as it was or with the weight its stake and loans give it today. */
  lemma PropagateRefreshes(s: State, v: Name)
    requires Ranked(s) && v in s.voters
    ensures Propagate(s, v).Some? ==> Refreshed(s, Propagate(s, v).value)
  {
    hide Propagate, Ranked, Refreshed;
    AddNothing(s, v);
    LendRefreshes(s, v, 0.0);
  }
}
