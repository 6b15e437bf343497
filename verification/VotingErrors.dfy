/** By how much each tally of the vote ledger is off, and what a propagation adds to that: the change
    it drops, at the row where its chain comes to rest, is missed by whoever that row backs. */
module VotingErrors {
  import opened Common
  import opened Sums
  import opened Voting
  import opened VotingChains
  import opened VotingTallies

  // ----- the errors

  ghost function LentError(s: State, q: Name): real
    requires q in s.voters
  {
    s.voters[q].proxied - SumReal(LentTo(s.voters, q))
  }

  ghost function VoteError(s: State, p: Name): real
    requires p in s.producers
  {
    s.producers[p].votes - SumReal(VotesFor(s.voters, p))
  }

  ghost function TotalError(s: State): real {
    s.totalWeight - SumReal(AllVotes(s.producers))
  }

  /** Every tally is the sum it stands for. */
  ghost predicate Exact(s: State) {
    && (forall q | q in s.voters :: LentError(s, q) == 0.0)
    && (forall p | p in s.producers :: VoteError(s, p) == 0.0)
    && TotalError(s) == 0.0
  }

  // ----- what a chain leaves undelivered

  predicate Small(r: Rest) {
    Abs(r.change) <= 1.0
  }

  // The change dropped at the end of a chain, as its row's proxy or one of its producers misses it.
  function LentMiss(s: State, r: Rest, q: Name): real
    requires r.row in s.voters
  {
    if Small(r) && s.voters[r.row].proxy == Some(q) then r.change else 0.0
  }

  function VoteMiss(s: State, r: Rest, p: Name): real
    requires r.row in s.voters
  {
    if Small(r) && s.voters[r.row].proxy.None? && p in s.voters[r.row].producers then r.change else 0.0
  }

  lemma WeighedErrors(s: State, v: Name, x: real)
    requires Ranked(s) && v in s.voters
    ensures var s', d := Weighed(s, v, x), Ripple(s, v, x);
            && s'.voters.Keys == s.voters.Keys && s'.producers == s.producers
            && (forall q | q in s.voters ::
                  LentError(s', q) == LentError(s, q) + (if q == v then x else 0.0) - if s.voters[v].proxy == Some(q) then d else 0.0)
            && (forall p | p in s.producers ::
                  VoteError(s', p)
                  == VoteError(s, p) - if s.voters[v].proxy.None? && p in s.voters[v].producers then d else 0.0)
            && TotalError(s') == TotalError(s)
  {
    hide SumReal, Weighed, Ripple, Ranked;
    WeighedFits(s, v, x);
    var s', r' := Weighed(s, v, x), Weighed(s, v, x).voters[v];
    assert s'.voters == s.voters[v := r'];
    forall q | q in s.voters
      ensures LentError(s', q)
           == LentError(s, q) + (if q == v then x else 0.0) - if s.voters[v].proxy == Some(q) then Ripple(s, v, x) else 0.0
    {
      LentToUpdate(s.voters, v, r', q);
    }
    forall p | p in s.producers
      ensures VoteError(s', p)
           == VoteError(s, p) - if s.voters[v].proxy.None? && p in s.voters[v].producers then Ripple(s, v, x) else 0.0
    {
      VotesForUpdate(s.voters, v, r', p);
    }
  }

  // The errors depend on these tables only.
  lemma SameErrors(s: State, s': State)
    requires s'.voters == s.voters && s'.producers == s.producers && s'.totalWeight == s.totalWeight
    ensures forall q | q in s.voters :: LentError(s', q) == LentError(s, q)
    ensures forall p | p in s.producers :: VoteError(s', p) == VoteError(s, p)
    ensures TotalError(s') == TotalError(s)
  {
    hide SumReal;
  }

  lemma AppliedTotal(s: State, ds: map<Name, real>, floor: bool)
    ensures TotalError(ApplyChanges(s, ds, floor)) == TotalError(s) - SumReal(Losses(s, ds, floor))
  {
    hide SumReal, Swallowed, NewVotes;
    var moved := map p | p in s.producers :: s.producers[p].votes + TotalChange(s, ds)[p];
    VotesMove(s, ds, floor, moved);
    RealPlus(AllVotes(s.producers), TotalChange(s, ds), moved);
    RealPlus(moved, Losses(s, ds, floor), AllVotes(ApplyChanges(s, ds, floor).producers));
  }

  lemma AppliedVotes(s: State, ds: map<Name, real>, floor: bool, p: Name)
    requires p in s.producers
    ensures var s' := ApplyChanges(s, ds, floor);
            p in s'.producers && s'.producers[p].votes == s.producers[p].votes + RealAt(ds, p) + Losses(s, ds, floor)[p]
  {
    hide SumReal;
  }

  /** A round of changes adds what each producer is given, and what a floor swallows. */
  lemma AppliedErrors(s: State, ds: map<Name, real>, floor: bool)
    ensures var s' := ApplyChanges(s, ds, floor);
            && s'.voters == s.voters && s'.producers.Keys == s.producers.Keys
            && (forall q | q in s.voters :: LentError(s', q) == LentError(s, q))
            && (forall p | p in s.producers :: VoteError(s', p) == VoteError(s, p) + RealAt(ds, p) + Losses(s, ds, floor)[p])
            && TotalError(s') == TotalError(s) - SumReal(Losses(s, ds, floor))
  {
    hide SumReal, ApplyChanges, Swallowed, TotalError;
    ApplyFields(s, ds, floor);
    AppliedTotal(s, ds, floor);
    forall p | p in s.producers
      ensures VoteError(ApplyChanges(s, ds, floor), p) == VoteError(s, p) + RealAt(ds, p) + Losses(s, ds, floor)[p]
    {
      AppliedVotes(s, ds, floor, p);
    }
  }

  // Without a floor nothing is swallowed.
  lemma NoFloorNoLoss(s: State, ds: map<Name, real>)
    ensures SumReal(Losses(s, ds, false)) == 0.0
    ensures forall p | p in s.producers :: Losses(s, ds, false)[p] == 0.0
  {
    hide SumReal;
    RealZero(Losses(s, ds, false));
  }

  lemma SameMisses(s: State, s': State, r: Rest)
    requires r.row in s.voters && r.row in s'.voters
    requires s'.voters[r.row].proxy == s.voters[r.row].proxy && s'.voters[r.row].producers == s.voters[r.row].producers
    ensures forall q: Name :: LentMiss(s', r, q) == LentMiss(s, r, q)
    ensures forall p: Name :: VoteMiss(s', r, p) == VoteMiss(s, r, p)
  {
  }

  // What lending x to v does to every error.
  ghost predicate ChainErrors(s: State, s': State, v: Name, x: real, r: Rest)
    requires r.row in s.voters
  {
    && s'.voters.Keys == s.voters.Keys && s'.producers.Keys == s.producers.Keys
    && (forall q | q in s.voters :: LentError(s', q) == LentError(s, q) + (if q == v then x else 0.0) - LentMiss(s, r, q))
    && (forall p | p in s.producers :: VoteError(s', p) == VoteError(s, p) - VoteMiss(s, r, p))
    && TotalError(s') == TotalError(s)
  }

  lemma DropErrors(s: State, v: Name, x: real)
    requires Ranked(s) && v in s.voters && Abs(Ripple(s, v, x)) <= 1.0
    ensures v in AddProxied(s, v, x).voters
    ensures ChainErrors(s, Dropped(AddProxied(s, v, x), v), v, x, Rest(v, Ripple(s, v, x)))
  {
    hide Ripple, Weighed, AddProxied, LentError, VoteError, TotalError, Dropped;
    DroppedIs(s, v, x);
    WeighedErrors(s, v, x);
    SameErrors(Weighed(s, v, x), Dropped(AddProxied(s, v, x), v));
  }

  lemma SpreadErrors(s: State, v: Name, x: real)
    requires Ranked(s) && v in s.voters && 1.0 < Abs(Ripple(s, v, x)) && s.voters[v].proxy.None?
    ensures var d := Ripple(s, v, x);
            ChainErrors(s, ApplyChanges(Weighed(s, v, x), SameForAll(s.voters[v].producers, d), false), v, x, Rest(v, d))
  {
    hide Ripple, Weighed, ApplyChanges, LentError, VoteError, TotalError, Losses, SumReal;
    var s1, ds := Weighed(s, v, x), SameForAll(s.voters[v].producers, Ripple(s, v, x));
    WeighedErrors(s, v, x);
    AppliedErrors(s1, ds, false);
    NoFloorNoLoss(s1, ds);
  }

  lemma CarryErrors(s: State, v: Name, x: real, s': State)
    requires Ranked(s) && v in s.voters && 1.0 < Abs(Ripple(s, v, x)) && s.voters[v].proxy.Some?
    requires var z, s1, r := s.voters[v].proxy.value, Weighed(s, v, x), ChainRest(s, v, x);
             r.row in s1.voters && ChainErrors(s1, s', z, Ripple(s, v, x), r)
    ensures ChainErrors(s, s', v, x, ChainRest(s, v, x))
  {
    hide Ripple, Weighed, LentError, VoteError, TotalError, Ranked, ChainRest, LentMiss, VoteMiss;
    WeighedErrors(s, v, x);
    WeighedFits(s, v, x);
    SameMisses(s, Weighed(s, v, x), ChainRest(s, v, x));
  }

  /** Lending x to v makes v's tally higher by x, and leaves every other as right or wrong as it was,
      except that the change dropped where the chain comes to rest is missed by whoever that row
      backs. */
  lemma {:induction false} PropagateErrors(s: State, v: Name, x: real)
    requires Ranked(s) && v in s.voters
    ensures Ranked(AddProxied(s, v, x))
    ensures Propagate(AddProxied(s, v, x), v).Some? ==>
              ChainErrors(s, Propagate(AddProxied(s, v, x), v).value, v, x, ChainRest(s, v, x))
    decreases s.rank[v]
  {
    hide Propagate, ApplyChanges, Dropped, Ranked, Ripple, Abs, Weighed, SameBelow, ChainRest, AddProxied,
         SameForAll, ChainErrors;
    AddedFits(s, v, x);
    WeighedFits(s, v, x);
    if Abs(Ripple(s, v, x)) <= 1.0 {
      LendDrops(s, v, x);
      DropErrors(s, v, x);
    } else if s.voters[v].proxy.Some? {
      LendCarries(s, v, x);
      var z, d, s1 := s.voters[v].proxy.value, Ripple(s, v, x), Weighed(s, v, x);
      PropagateErrors(s1, z, d);
      if Propagate(AddProxied(s1, z, d), z).Some? { CarryErrors(s, v, x, Propagate(AddProxied(s1, z, d), z).value); }
    } else {
      LendSpreads(s, v, x);
      SpreadErrors(s, v, x);
    }
  }
}
