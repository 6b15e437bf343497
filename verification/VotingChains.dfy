/** How a change of weight travels along proxy edges: where it comes to rest, read off the table,
    decides whether the propagation aborts and whom it leaves with a wrong tally. */
module VotingChains {
  import opened Common
  import opened Voting

  // ----- where a change comes to rest

  // What v's weight changes by once v has been lent x more.
  function Ripple(s: State, v: Name, x: real): real
    requires v in s.voters
  {
    Weight(s.voters[v].(proxied := s.voters[v].proxied + x), s.stakeRate) - s.voters[v].last
  }

  // The row at the end of a chain, and what its weight changes by there.
  datatype Rest = Rest(row: Name, change: real)

  /** Where lending x to v comes to rest: at the first row whose change is too small to carry, or else
      at the row without a proxy.  Only reads the table. */
  ghost function ChainRest(s: State, v: Name, x: real): (r: Rest)
    requires Ranked(s) && v in s.voters
    ensures r.row in s.voters && s.rank[r.row] <= s.rank[v]
    ensures 1.0 < Abs(r.change) ==> s.voters[r.row].proxy.None?
    decreases s.rank[v]
  {
    var d := Ripple(s, v, x);
    if 1.0 < Abs(d) && s.voters[v].proxy.Some? then ChainRest(s, s.voters[v].proxy.value, d) else Rest(v, d)
  }

  ghost predicate SameBelow(s: State, s': State, n: nat)
    requires Ranked(s)
  {
    && s'.rank == s.rank && s'.voters.Keys == s.voters.Keys && s'.stakeRate == s.stakeRate
    && forall y | y in s.voters && s.rank[y] <= n :: s'.voters[y] == s.voters[y]
  }

  lemma {:induction false} ChainRestBelow(s: State, s': State, v: Name, x: real)
    requires Ranked(s) && Ranked(s') && v in s.voters && SameBelow(s, s', s.rank[v])
    ensures v in s'.voters && ChainRest(s', v, x) == ChainRest(s, v, x)
    decreases s.rank[v]
  {
    hide Weight, Abs;
    if 1.0 < Abs(Ripple(s, v, x)) && s.voters[v].proxy.Some? {
      ChainRestBelow(s, s', s.voters[v].proxy.value, Ripple(s, v, x));
    }
  }

  lemma {:induction false} ChainRestSameRows(s: State, s': State, v: Name, x: real)
    requires Ranked(s) && Ranked(s') && v in s.voters && s'.voters == s.voters && s'.stakeRate == s.stakeRate
    ensures ChainRest(s', v, x) == ChainRest(s, v, x)
    decreases s.rank[v]
  {
    hide Weight, Abs;
    if 1.0 < Abs(Ripple(s, v, x)) && s.voters[v].proxy.Some? {
      ChainRestSameRows(s, s', s.voters[v].proxy.value, Ripple(s, v, x));
    }
  }

  // ----- one row of a chain

  lemma AddedFits(s: State, v: Name, x: real)
    requires Ranked(s) && v in s.voters
    ensures var s1 := AddProxied(s, v, x);
            && Ranked(s1) && v in s1.voters && s1.rank == s.rank && s1.stakeRate == s.stakeRate && s1.producers == s.producers
            && s1.voters[v] == s.voters[v].(proxied := s.voters[v].proxied + x)
            && Weight(s1.voters[v], s.stakeRate) - s1.voters[v].last == Ripple(s, v, x)
  {
  }

  // The table once v has been lent x and taken its new weight.
  ghost function Weighed(s: State, v: Name, x: real): State
    requires v in s.voters
  {
    SetLast(AddProxied(s, v, x), v, s.voters[v].last + Ripple(s, v, x))
  }

  lemma WeighedFits(s: State, v: Name, x: real)
    requires Ranked(s) && v in s.voters
    ensures var s' := Weighed(s, v, x);
            && Ranked(s') && s' == s.(voters := s'.voters) && s'.voters.Keys == s.voters.Keys
            && s'.rank == s.rank && s'.stakeRate == s.stakeRate && s'.producers == s.producers
            && s'.voters[v] == s.voters[v].(proxied := s.voters[v].proxied + x, last := s.voters[v].last + Ripple(s, v, x))
            && forall y | y in s.voters && y != v :: s'.voters[y] == s.voters[y]
  {
    hide Weight;
  }

  lemma OnlyAbove(s: State, s': State, v: Name, z: Name)
    requires Ranked(s) && v in s.voters && z in s.voters && s.rank[z] < s.rank[v]
    requires s'.rank == s.rank && s'.voters.Keys == s.voters.Keys && s'.stakeRate == s.stakeRate
    requires forall y | y in s.voters && y != v :: s'.voters[y] == s.voters[y]
    ensures SameBelow(s, s', s.rank[z])
  {
  }

  lemma CarriedIs(s: State, v: Name, x: real)
    requires Ranked(s) && v in s.voters
    ensures var s1, s' := AddProxied(s, v, x), Weighed(s, v, x);
            && Ranked(s1) && v in s1.voters
            && (s.voters[v].proxy.None? ==> Carry(s1, v) == s')
            && (s.voters[v].proxy.Some? ==>
                  && s.voters[v].proxy.value in s'.voters
                  && Carry(s1, v) == AddProxied(s', s.voters[v].proxy.value, Ripple(s, v, x)))
  {
    hide Weight;
    RankedAt(s, v);
    AddedFits(s, v, x);
  }

  lemma DroppedIs(s: State, v: Name, x: real)
    requires Ranked(s) && v in s.voters
    ensures var s1, s' := AddProxied(s, v, x), Weighed(s, v, x);
            v in s1.voters && Dropped(s1, v).voters == s'.voters
            && Dropped(s1, v) == s'.(dropped := Dropped(s1, v).dropped, lent := Dropped(s1, v).lent, drops := Dropped(s1, v).drops)
  {
    hide Weight;
    AddedFits(s, v, x);
  }

  lemma RestCases(s: State, v: Name, x: real)
    requires Ranked(s) && v in s.voters
    ensures var r, d := s.voters[v], Ripple(s, v, x);
            if 1.0 < Abs(d) && r.proxy.Some? then r.proxy.value in s.voters && ChainRest(s, v, x) == ChainRest(s, r.proxy.value, d)
            else ChainRest(s, v, x) == Rest(v, d)
  {
    hide Weight, Abs, Ripple;
  }

  // The three ways lending x to v can go on, in terms of the table it started from.
  lemma LendDrops(s: State, v: Name, x: real)
    requires Ranked(s) && v in s.voters && Abs(Ripple(s, v, x)) <= 1.0
    ensures var s1 := AddProxied(s, v, x);
            Ranked(s1) && v in s1.voters && Propagate(s1, v) == Some(Dropped(s1, v))
    ensures ChainRest(s, v, x) == Rest(v, Ripple(s, v, x))
  {
    hide Weight, ApplyChanges, Carry, Dropped, Ranked, Abs, ChainRest, AddProxied;
    hide Ripple, Propagate;
    AddedFits(s, v, x);
    RestCases(s, v, x);
    PropagateCases(AddProxied(s, v, x), v);
  }

  lemma LendSpreads(s: State, v: Name, x: real)
    requires Ranked(s) && v in s.voters && 1.0 < Abs(Ripple(s, v, x)) && s.voters[v].proxy.None?
    ensures var s1, ps := AddProxied(s, v, x), s.voters[v].producers;
            && Ranked(s1) && v in s1.voters
            && Propagate(s1, v) == if AllRegistered(s, ps)
                                   then Some(ApplyChanges(Weighed(s, v, x), SameForAll(ps, Ripple(s, v, x)), false)) else None
    ensures ChainRest(s, v, x) == Rest(v, Ripple(s, v, x))
  {
    hide Weight, ApplyChanges, Carry, Dropped, Ranked, Abs, ChainRest, AddProxied, Weighed, SameForAll;
    hide Ripple, Propagate;
    AddedFits(s, v, x);
    CarriedIs(s, v, x);
    RestCases(s, v, x);
    PropagateCases(AddProxied(s, v, x), v);
  }

  lemma LendCarries(s: State, v: Name, x: real)
    requires Ranked(s) && v in s.voters && 1.0 < Abs(Ripple(s, v, x)) && s.voters[v].proxy.Some?
    ensures var z, d, s1, s' := s.voters[v].proxy.value, Ripple(s, v, x), AddProxied(s, v, x), Weighed(s, v, x);
            && Ranked(s1) && v in s1.voters && Ranked(s') && z in s'.voters && z in s'.rank && v in s.rank
            && s'.rank == s.rank && s.rank[z] < s.rank[v]
            && Ranked(AddProxied(s', z, d)) && z in AddProxied(s', z, d).voters
            && Propagate(s1, v) == Propagate(AddProxied(s', z, d), z)
            && z in s.voters && SameBelow(s, s', s.rank[z])
            && ChainRest(s, v, x) == ChainRest(s, z, d) == ChainRest(s', z, d)
  {
    hide Weight, ApplyChanges, Carry, Dropped, Ranked, Abs, ChainRest, AddProxied, Weighed, SameBelow;
    hide Ripple, Propagate;
    var z, s' := s.voters[v].proxy.value, Weighed(s, v, x);
    RankedAt(s, v);
    AddedFits(s, v, x);
    WeighedFits(s, v, x);
    CarriedIs(s, v, x);
    AddedFits(s', z, Ripple(s, v, x));
    RestCases(s, v, x);
    PropagateCases(AddProxied(s, v, x), v);
    OnlyAbove(s, s', v, z);
    ChainRestBelow(s, s', z, Ripple(s, v, x));
  }

  predicate AllRegistered(s: State, ps: seq<Name>) {
    forall p | p in ps :: p in s.producers
  }

  // ----- aborts

  // The row where the change ends up lists registered producers only.
  ghost predicate Unblocked(s: State, v: Name, x: real)
    requires Ranked(s) && v in s.voters
  {
    var r := ChainRest(s, v, x);
    1.0 < Abs(r.change) ==> AllRegistered(s, s.voters[r.row].producers)
  }

  lemma UnblockedBelow(s: State, s': State, v: Name, x: real)
    requires Ranked(s) && Ranked(s') && v in s.voters && SameBelow(s, s', s.rank[v]) && s'.producers == s.producers
    ensures v in s'.voters && (Unblocked(s', v, x) <==> Unblocked(s, v, x))
  {
    hide ChainRest;
    ChainRestBelow(s, s', v, x);
  }

  /** Lending x to v aborts exactly when the change comes to rest, too large to be dropped, at a row
      that lists an unregistered producer. */
  lemma {:induction false} PropagateUnblocked(s: State, v: Name, x: real)
    requires Ranked(s) && v in s.voters
    ensures Ranked(AddProxied(s, v, x))
    ensures Propagate(AddProxied(s, v, x), v).Some? <==> Unblocked(s, v, x)
    decreases s.rank[v]
  {
    hide Propagate, ApplyChanges, Dropped, Ranked, Ripple, Abs, Weighed, SameBelow, ChainRest, AddProxied, SameForAll;
    AddedFits(s, v, x);
    WeighedFits(s, v, x);
    if Abs(Ripple(s, v, x)) <= 1.0 {
      LendDrops(s, v, x);
    } else if s.voters[v].proxy.Some? {
      LendCarries(s, v, x);
      var z, d := s.voters[v].proxy.value, Ripple(s, v, x);
      PropagateUnblocked(Weighed(s, v, x), z, d);
      UnblockedBelow(s, Weighed(s, v, x), z, d);
    } else {
      LendSpreads(s, v, x);
    }
  }

  // ----- which rows change

  // The row has the weight its stake and its loans give it today.
  predicate UpToDate(s: State, v: Name)
    requires v in s.voters
  {
    s.voters[v].last == Weight(s.voters[v], s.stakeRate)
  }

  // Every row is as it was or up to date.
  ghost predicate Refreshed(s: State, s': State) {
    s'.stakeRate == s.stakeRate && forall y | y in s.voters :: y in s'.voters && (s'.voters[y] == s.voters[y] || UpToDate(s', y))
  }

  lemma RefreshedOn(s: State, s1: State, s2: State)
    requires Refreshed(s, s1) && Refreshed(s1, s2)
    ensures Refreshed(s, s2)
  {
    hide Weight;
  }

  lemma WeighedRefreshes(s: State, v: Name, x: real)
    requires Ranked(s) && v in s.voters
    ensures Refreshed(s, Weighed(s, v, x))
  {
    WeighedFits(s, v, x);
    hide Weighed;
  }

  lemma AppliedRefreshes(s: State, s1: State, ds: map<Name, real>, floor: bool)
    requires Refreshed(s, s1)
    ensures Refreshed(s, ApplyChanges(s1, ds, floor))
  {
    hide Weight;
    ApplyKeepsStructure(s1, ds, floor);
  }

  /** Lending leaves every row of the table as it was or up to date. */
  lemma {:induction false} LendRefreshes(s: State, v: Name, x: real)
    requires Ranked(s) && v in s.voters
    ensures Ranked(AddProxied(s, v, x))
    ensures Propagate(AddProxied(s, v, x), v).Some? ==> Refreshed(s, Propagate(AddProxied(s, v, x), v).value)
    decreases s.rank[v]
  {
    hide Propagate, ApplyChanges, Dropped, Ranked, Ripple, Abs, Weighed, SameBelow, ChainRest, AddProxied, Refreshed,
         SameForAll;
    AddedFits(s, v, x);
    WeighedFits(s, v, x);
    WeighedRefreshes(s, v, x);
    var s' := Weighed(s, v, x);
    if Abs(Ripple(s, v, x)) <= 1.0 {
      LendDrops(s, v, x);
      DroppedIs(s, v, x);
      SameRowsRefreshed(s, s', Dropped(AddProxied(s, v, x), v));
    } else if s.voters[v].proxy.Some? {
      var z, d := s.voters[v].proxy.value, Ripple(s, v, x);
      LendCarries(s, v, x);
      LendRefreshes(s', z, d);
      if Propagate(AddProxied(s', z, d), z).Some? { RefreshedOn(s, s', Propagate(AddProxied(s', z, d), z).value); }
    } else {
      LendSpreads(s, v, x);
      AppliedRefreshes(s, s', SameForAll(s.voters[v].producers, Ripple(s, v, x)), false);
    }
  }

  lemma SameRowsRefreshed(s: State, s1: State, s2: State)
    requires Refreshed(s, s1) && s2.voters == s1.voters && s2.stakeRate == s1.stakeRate
    ensures Refreshed(s, s2)
  {
    hide Weight;
  }
}
