/** The incrementally kept tallies of the vote ledger against the sums they stand for.  Two
    views of the voters table are carried through an action: the rows as the producers' tallies
    still see them, and the rows as the proxies' tallies do. */
module VotingTallies {
  import opened Common
  import opened Sums
  import opened Voting
  import opened VotingIndex

  type Rows = map<Name, Voter>

  // ----- one row's part in each tally

  function CountsFor(r: Voter, p: Name): real {
    if r.proxy.None? && p in r.producers then r.last else 0.0
  }

  function Lends(r: Voter, q: Name): real {
    if r.proxy == Some(q) then r.last else 0.0
  }

  lemma VotesForUpdate(vs: Rows, v: Name, r: Voter, p: Name)
    requires v in vs
    ensures SumReal(VotesFor(vs[v := r], p)) == SumReal(VotesFor(vs, p)) - CountsFor(vs[v], p) + CountsFor(r, p)
  {
    hide SumReal;
    RealChange(VotesFor(vs, p), VotesFor(vs[v := r], p), v);
  }

  lemma LentToUpdate(vs: Rows, v: Name, r: Voter, q: Name)
    requires v in vs
    ensures SumReal(LentTo(vs[v := r], q)) == SumReal(LentTo(vs, q)) - Lends(vs[v], q) + Lends(r, q)
  {
    hide SumReal;
    RealChange(LentTo(vs, q), LentTo(vs[v := r], q), v);
  }

  // ----- the invariant

  function VotesOf(s: State, p: Name): real {
    if p in s.producers then s.producers[p].votes else 0.0
  }

  ghost function Loss(s: State): real {
    s.dropped + s.clamped
  }

  // While producers' tallies are within e, proxies' tallies are within what was dropped on its way
  // to a proxy: e less all that only producers missed.
  ghost function LentLoss(s: State, e: real): real {
    s.lent + e - Loss(s)
  }

  ghost predicate Near(x: real, y: real, e: real) {
    y - e <= x <= y + e
  }

  // Every producer's tally is within e of the votes cast for it.
  ghost predicate ProducersTallied(s: State, e: real, vp: Rows) {
    forall p: Name :: Near(VotesOf(s, p), SumReal(VotesFor(vp, p)), e)
  }

  // Every proxy's tally is within e of what is lent to it.
  ghost predicate ProxiesTallied(s: State, e: real, vq: Rows) {
    forall q | q in s.voters :: Near(s.voters[q].proxied, SumReal(LentTo(vq, q)), e)
  }

  ghost predicate TotalTallied(s: State) {
    Near(s.totalWeight, SumReal(AllVotes(s.producers)), s.clamped)
  }

  ghost predicate CleanRow(s: State, r: Voter) {
    0.0 <= r.last && forall p | p in r.producers :: p in s.producers
  }

  // Weights are non-negative and go to registered producers only.
  ghost predicate Clean(s: State, vs: Rows) {
    forall v | v in vs :: CleanRow(s, vs[v])
  }

  /** All tallies agree with the rows up to the weight lost so far; and while no change was
      dropped as too small, nothing is lost at all. */
  ghost predicate Sound(s: State, e: real, vp: Rows, vq: Rows) {
    && ProducersTallied(s, e, vp) && ProxiesTallied(s, LentLoss(s, e), vq) && TotalTallied(s)
    && 0.0 <= s.lent <= s.dropped <= s.drops as real && 0.0 <= s.clamped && e <= Loss(s)
    && s.producers2.Keys == s.producers.Keys
    && (s.dropped == 0.0 ==> s.clamped == 0.0 && Clean(s, vp) && Clean(s, vq) && IndexOk(s))
  }

  // Only proxies can have a negative weight; so nobody lends one.
  ghost predicate PlainOk(s: State) {
    forall v | v in s.voters && !s.voters[v].isProxy :: 0.0 <= s.voters[v].last
  }

  ghost predicate Inv(s: State) {
    Shape(s) && Sound(s, Loss(s), s.voters, s.voters) && PlainOk(s)
  }

  // ----- a round of changes to producers

  // What the row views must say for the changes ds to be the right ones.
  ghost predicate Matches(s: State, ds: map<Name, real>, vp: Rows, vp': Rows) {
    forall p: Name :: SumReal(VotesFor(vp', p)) == SumReal(VotesFor(vp, p)) + RealAt(ds, p)
  }

  lemma LossesGrow(s: State, ds: map<Name, real>, floor: bool)
    ensures forall p | p in s.producers :: 0.0 <= Losses(s, ds, floor)[p]
    ensures 0.0 <= SumReal(Losses(s, ds, floor)) && 0.0 <= SumReal(Strays(s, ds))
    ensures s.clamped + SumReal(Losses(s, ds, floor)) + SumReal(Strays(s, ds)) <= ApplyChanges(s, ds, floor).clamped
  {
    hide SumReal;
    RealNonNegative(Losses(s, ds, floor));
    RealNonNegative(Strays(s, ds));
  }

  // One producer's tally after the round.
  lemma TallyMoves(s: State, ds: map<Name, real>, floor: bool, p: Name, before: real, after: real, e: real)
    requires Near(VotesOf(s, p), before, e) && after == before + RealAt(ds, p)
    ensures Near(VotesOf(ApplyChanges(s, ds, floor), p), after, e + ApplyChanges(s, ds, floor).clamped - s.clamped)
  {
    hide SumReal;
    LossesGrow(s, ds, floor);
    RealMember(Losses(s, ds, floor), p);
    RealMember(Strays(s, ds), p);
  }

  lemma VotesMove(s: State, ds: map<Name, real>, floor: bool, moved: map<Name, real>)
    requires moved == map p | p in s.producers :: s.producers[p].votes + TotalChange(s, ds)[p]
    ensures var after := AllVotes(ApplyChanges(s, ds, floor).producers);
            && after.Keys == s.producers.Keys
            && forall p | p in s.producers :: after[p] == moved[p] + Losses(s, ds, floor)[p]
  {
    hide SumReal;
  }

  lemma TotalMoves(s: State, ds: map<Name, real>, floor: bool)
    requires TotalTallied(s)
    ensures TotalTallied(ApplyChanges(s, ds, floor))
  {
    hide SumReal, Swallowed, NewVotes;
    LossesGrow(s, ds, floor);
    var moved := map p | p in s.producers :: s.producers[p].votes + TotalChange(s, ds)[p];
    VotesMove(s, ds, floor, moved);
    RealPlus(AllVotes(s.producers), TotalChange(s, ds), moved);
    RealPlus(moved, Losses(s, ds, floor), AllVotes(ApplyChanges(s, ds, floor).producers));
  }

  lemma NothingLost(s: State, ds: map<Name, real>, vp: Rows, vp': Rows)
    requires ProducersTallied(s, 0.0, vp) && Matches(s, ds, vp, vp') && Clean(s, vp')
    requires forall p | p in ds :: p in s.producers
    ensures NoLoss(s, ds)
  {
    hide SumReal;
    forall p | p in ds
      ensures 0.0 <= s.producers[p].votes + ds[p]
    {
      assert Near(VotesOf(s, p), SumReal(VotesFor(vp, p)), 0.0);
      RealNonNegative(VotesFor(vp', p));
    }
  }

  lemma ApplyFields(s: State, ds: map<Name, real>, floor: bool)
    ensures var s' := ApplyChanges(s, ds, floor);
            && s'.voters == s.voters && s'.dropped == s.dropped && s.clamped <= s'.clamped
            && s'.lent == s.lent && s'.drops == s.drops
            && s'.producers.Keys == s.producers.Keys && s'.producers2.Keys == s.producers2.Keys
  {
    LossesGrow(s, ds, floor);
  }

  lemma CleanElsewhere(s: State, s': State, vs: Rows)
    requires s'.producers.Keys == s.producers.Keys
    ensures Clean(s', vs) <==> Clean(s, vs)
  {
  }

  lemma MatchAt(s: State, ds: map<Name, real>, vp: Rows, vp': Rows, p: Name)
    requires Matches(s, ds, vp, vp')
    ensures SumReal(VotesFor(vp', p)) == SumReal(VotesFor(vp, p)) + RealAt(ds, p)
  {
  }

  /** A round of changes that matches the change of the rows keeps every tally. */
  lemma ApplyKeeps(s: State, ds: map<Name, real>, floor: bool, e: real, vp: Rows, vq: Rows, vp': Rows)
    requires Sound(s, e, vp, vq) && Matches(s, ds, vp, vp')
    requires s.dropped == 0.0 ==> Clean(s, vp') && forall p | p in ds :: p in s.producers
    ensures Sound(ApplyChanges(s, ds, floor), e + ApplyChanges(s, ds, floor).clamped - s.clamped, vp', vq)
  {
    hide SumReal, IndexOk, ApplyChanges, TotalTallied, Clean, Matches;
    var s' := ApplyChanges(s, ds, floor);
    ApplyFields(s, ds, floor);
    CleanElsewhere(s, s', vp');
    CleanElsewhere(s, s', vq);
    forall p: Name
      ensures Near(VotesOf(s', p), SumReal(VotesFor(vp', p)), e + s'.clamped - s.clamped)
    {
      MatchAt(s, ds, vp, vp', p);
      TallyMoves(s, ds, floor, p, SumReal(VotesFor(vp, p)), SumReal(VotesFor(vp', p)), e);
    }
    TotalMoves(s, ds, floor);
    if s.dropped == 0.0 {
      assert ProducersTallied(s, 0.0, vp);
      NothingLost(s, ds, vp, vp');
      ApplyKeepsIndex(s, ds, floor);
    }
  }

  // ----- propagation

  type Ranks = map<Name, nat>

  // A view agrees with the table on every row that propagation from rank n can reach.
  ghost predicate Agree(rank: Ranks, table: Rows, vs: Rows, n: nat) {
    && vs.Keys == table.Keys == rank.Keys
    && forall y | y in table && rank[y] <= n :: vs[y] == table[y]
  }

  // A view brought up to date on those rows.
  ghost function Refresh(rank: Ranks, table: Rows, vs: Rows, n: nat): Rows {
    map y | y in vs :: if y in rank && y in table && rank[y] <= n then table[y] else vs[y]
  }

  // One row takes a new weight: every tally it takes part in is off by at most the change.
  lemma WeightMoves(s: State, v: Name, x: real, e: real, g: real, vp: Rows, vq: Rows)
    requires v in s.voters && v in vp && v in vq && vp[v] == s.voters[v] == vq[v]
    requires ProducersTallied(s, e, vp) && ProxiesTallied(s, g, vq)
    ensures var r := s.voters[v];
            && ProducersTallied(SetLast(s, v, x), e + DropOf(r, x), vp[v := r.(last := x)])
            && ProxiesTallied(SetLast(s, v, x), g + (if r.proxy.Some? then DropOf(r, x) else 0.0), vq[v := r.(last := x)])
  {
    hide SumReal;
    var r := s.voters[v];
    var s', r' := SetLast(s, v, x), r.(last := x);
    var d := DropOf(r, x);
    var l := if r.proxy.Some? then d else 0.0;
    forall p: Name
      ensures Near(VotesOf(s', p), SumReal(VotesFor(vp[v := r'], p)), e + d)
    {
      VotesForUpdate(vp, v, r', p);
      assert Near(VotesOf(s, p), SumReal(VotesFor(vp, p)), e);
    }
    forall q | q in s'.voters
      ensures Near(s'.voters[q].proxied, SumReal(LentTo(vq[v := r'], q)), g + l)
    {
      LentToUpdate(vq, v, r', q);
      assert Near(s.voters[q].proxied, SumReal(LentTo(vq, q)), g);
    }
  }

  // While nothing was dropped a row's weight is not negative.
  lemma WeightNonNegative(s: State, v: Name, e: real, vp: Rows, vq: Rows)
    requires Sound(s, e, vp, vq) && s.dropped == 0.0 && v in s.voters
    requires RowOk(s.voters[v]) && 0.0 < s.stakeRate
    ensures 0.0 <= Weight(s.voters[v], s.stakeRate)
  {
    hide SumReal, IndexOk;
    assert Near(s.voters[v].proxied, SumReal(LentTo(vq, v)), 0.0);
    RealNonNegative(LentTo(vq, v));
    assert 0.0 <= s.stakeRate * s.voters[v].staked as real;
  }

  // The index does not look at voters.
  lemma IndexIgnoresVoters(s: State, s': State)
    requires s' == s.(voters := s'.voters, rank := s'.rank, dropped := s'.dropped, clamped := s'.clamped,
                      lent := s'.lent, drops := s'.drops,
                      activatedStake := s'.activatedStake, activationTime := s'.activationTime)
    ensures IndexOk(s') == IndexOk(s)
  {
    hide SumReal;
    IndexFields(s, s');
  }

  lemma AgreeAtTop(s: State, v: Name, vp: Rows, vq: Rows)
    requires Ranked(s) && v in s.voters && Agree(s.rank, s.voters, vp, s.rank[v]) && Agree(s.rank, s.voters, vq, s.rank[v])
    ensures v in vp && v in vq && vp[v] == s.voters[v] == vq[v]
  {
  }

  // Case 1: the change is too small and is dropped.
  lemma DropKeeps(s: State, v: Name, e: real, vp: Rows, vq: Rows)
    requires Ranked(s) && v in s.voters && RowOk(s.voters[v]) && 0.0 < s.stakeRate
    requires Sound(s, e, vp, vq) && Agree(s.rank, s.voters, vp, s.rank[v]) && Agree(s.rank, s.voters, vq, s.rank[v])
    requires Abs(Weight(s.voters[v], s.stakeRate) - s.voters[v].last) <= 1.0
    ensures var r := s.voters[v];
            var r' := r.(last := Weight(r, s.stakeRate));
            Sound(Dropped(s, v), e + Dropped(s, v).dropped - s.dropped, vp[v := r'], vq[v := r'])
  {
    hide SumReal, IndexOk, Ranked;
    assert v in vp && v in vq && vp[v] == s.voters[v] == vq[v] by { AgreeAtTop(s, v, vp, vq); }
    hide Agree;
    var r := s.voters[v];
    var x := Weight(r, s.stakeRate);
    var s' := Dropped(s, v);
    WeightMoves(s, v, x, e, LentLoss(s, e), vp, vq);
    IndexIgnoresVoters(s, s');
    if s.dropped == 0.0 {
      WeightNonNegative(s, v, e, vp, vq);
    }
    assert ProducersTallied(s', e + DropOf(r, x), vp[v := r.(last := x)]);
    assert ProxiesTallied(s', LentLoss(s', e + DropOf(r, x)), vq[v := r.(last := x)]);
  }

  // The rows after one carry: v has weight x and its proxy z holds the change.
  ghost function Handed(s: State, v: Name, z: Name, x: real): State
    requires v in s.voters && z in s.voters
  {
    AddProxied(SetLast(s, v, x), z, x - s.voters[v].last)
  }

  // Case 2: the change is handed to the proxy, whose own row is next.
  lemma HandedVotes(s: State, v: Name, z: Name, x: real, e: real, vp: Rows)
    requires v in s.voters && z in s.voters && v != z && s.voters[v].proxy == Some(z)
    requires v in vp && z in vp && vp[v] == s.voters[v] && vp[z] == s.voters[z]
    requires ProducersTallied(s, e, vp)
    ensures ProducersTallied(Handed(s, v, z, x), e, vp[v := s.voters[v].(last := x)][z := Handed(s, v, z, x).voters[z]])
  {
    hide SumReal, Near;
    var r', z' := s.voters[v].(last := x), Handed(s, v, z, x).voters[z];
    forall p: Name
      ensures SumReal(VotesFor(vp[v := r'][z := z'], p)) == SumReal(VotesFor(vp, p))
    {
      VotesForUpdate(vp, v, r', p);
      VotesForUpdate(vp[v := r'], z, z', p);
    }
    assert forall p: Name :: VotesOf(Handed(s, v, z, x), p) == VotesOf(s, p);
  }

  lemma HandedLent(s: State, v: Name, z: Name, x: real, e: real, vq: Rows)
    requires v in s.voters && z in s.voters && v != z && s.voters[v].proxy == Some(z)
    requires v in vq && z in vq && vq[v] == s.voters[v] && vq[z] == s.voters[z]
    requires ProxiesTallied(s, e, vq)
    ensures ProxiesTallied(Handed(s, v, z, x), e, vq[v := s.voters[v].(last := x)][z := Handed(s, v, z, x).voters[z]])
  {
    hide SumReal;
    var s1 := Handed(s, v, z, x);
    var r', z' := s.voters[v].(last := x), s1.voters[z];
    forall q | q in s1.voters
      ensures Near(s1.voters[q].proxied, SumReal(LentTo(vq[v := r'][z := z'], q)), e)
    {
      assert Near(s.voters[q].proxied, SumReal(LentTo(vq, q)), e);
      LentToUpdate(vq, v, r', q);
      LentToUpdate(vq[v := r'], z, z', q);
    }
  }

  lemma CarryKeeps(s: State, v: Name, e: real, vp: Rows, vq: Rows)
    requires Ranked(s) && v in s.voters && RowOk(s.voters[v]) && 0.0 < s.stakeRate && s.voters[v].proxy.Some?
    requires Sound(s, e, vp, vq) && Agree(s.rank, s.voters, vp, s.rank[v]) && Agree(s.rank, s.voters, vq, s.rank[v])
    ensures var s1, z := Carry(s, v), s.voters[v].proxy.value;
            Sound(s1, e, vp[v := s1.voters[v]][z := s1.voters[z]], vq[v := s1.voters[v]][z := s1.voters[z]])
  {
    hide SumReal, IndexOk, ProducersTallied, ProxiesTallied, Weight;
    var z, x := s.voters[v].proxy.value, Weight(s.voters[v], s.stakeRate);
    HandedVotes(s, v, z, x, e, vp);
    HandedLent(s, v, z, x, LentLoss(s, e), vq);
    IndexIgnoresVoters(s, Carry(s, v));
    if s.dropped == 0.0 {
      WeightNonNegative(s, v, e, vp, vq);
    }
  }

  // Case 3: the change goes to the producers the row votes for.
  lemma OwnVotesMatch(s: State, v: Name, x: real, vp: Rows)
    requires v in s.voters && v in vp && vp[v] == s.voters[v] && s.voters[v].proxy.None?
    ensures Matches(s, SameForAll(s.voters[v].producers, x - s.voters[v].last), vp, vp[v := s.voters[v].(last := x)])
  {
    hide SumReal;
    var r := s.voters[v];
    forall p: Name
      ensures SumReal(VotesFor(vp[v := r.(last := x)], p)) == SumReal(VotesFor(vp, p)) + RealAt(SameForAll(r.producers, x - r.last), p)
    {
      VotesForUpdate(vp, v, r.(last := x), p);
    }
  }

  lemma OwnVotesLent(s: State, v: Name, x: real, e: real, vq: Rows)
    requires v in s.voters && v in vq && vq[v] == s.voters[v] && s.voters[v].proxy.None?
    requires ProxiesTallied(s, e, vq)
    ensures ProxiesTallied(SetLast(s, v, x), e, vq[v := s.voters[v].(last := x)])
  {
    hide SumReal;
    var s', r' := SetLast(s, v, x), s.voters[v].(last := x);
    forall q | q in s'.voters
      ensures Near(s'.voters[q].proxied, SumReal(LentTo(vq[v := r'], q)), e)
    {
      assert Near(s.voters[q].proxied, SumReal(LentTo(vq, q)), e);
      LentToUpdate(vq, v, r', q);
    }
  }

  lemma VotesKeep(s: State, v: Name, e: real, vp: Rows, vq: Rows)
    requires Ranked(s) && v in s.voters && RowOk(s.voters[v]) && 0.0 < s.stakeRate && s.voters[v].proxy.None?
    requires Sound(s, e, vp, vq) && Agree(s.rank, s.voters, vp, s.rank[v]) && Agree(s.rank, s.voters, vq, s.rank[v])
    requires forall p | p in s.voters[v].producers :: p in s.producers
    ensures var r := s.voters[v];
            var x := Weight(r, s.stakeRate);
            var s' := ApplyChanges(Carry(s, v), SameForAll(r.producers, x - r.last), false);
            Sound(s', e + s'.clamped - s.clamped, vp[v := r.(last := x)], vq[v := r.(last := x)])
  {
    hide SumReal, IndexOk, Weight, Near, ApplyChanges, Ranked;
    assert v in vp && v in vq && vp[v] == s.voters[v] == vq[v] by { AgreeAtTop(s, v, vp, vq); }
    hide Agree;
    var r := s.voters[v];
    var x := Weight(r, s.stakeRate);
    var s1, r' := SetLast(s, v, x), r.(last := x);
    IndexIgnoresVoters(s, s1);
    if s.dropped == 0.0 {
      WeightNonNegative(s, v, e, vp, vq);
    }
    OwnVotesLent(s, v, x, LentLoss(s, e), vq);
    OwnVotesMatch(s, v, x, vp);
    assert forall p: Name :: VotesOf(s1, p) == VotesOf(s, p);
    ApplyKeeps(s1, SameForAll(r.producers, x - r.last), false, e, vp, vq[v := r'], vp[v := r']);
  }
}
