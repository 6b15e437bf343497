/** voting.cpp as it is written: tables and global fields updated in place, proved to do to the
    ledger exactly what the functions of module Voting say. */
module VotingContract {
  import opened Common
  import opened Sums
  import opened Voting
  import opened VotingIndex
  import opened VotingRuns
  import opened VotingActions
  import opened VotingMachine

  // ----- one producer more in a round of changes

  lemma RowsStep(s: State, ds: map<Name, real>, p: Name, d: real, floor: bool)
    requires p !in ds && p in s.producers && s.producers2.Keys == s.producers.Keys
    ensures var s1, s2 := ChangedRows(s, ds, floor), ChangedRows(s, ds[p := d], floor);
            && s1.producers[p] == s.producers[p] && s1.producers2[p] == s.producers2[p]
            && s2.producers == s1.producers[p := s.producers[p].(votes := NewVotes(s.producers[p], d, floor))]
            && s2.producers2 == s1.producers2[p := Settle(s.producers[p], s.producers2[p], s.now)]
  {
    hide SumReal, NewVotes, Settle, ChangedVotes, ChangedShares;
    OneRowMore(s.producers, ds, p, d, floor);
    OneShareMore(s.producers, s.producers2, ds, p, d, s.now);
  }

  lemma OneRowMore(ps: map<Name, Producer>, ds: map<Name, real>, p: Name, d: real, floor: bool)
    requires p !in ds && p in ps
    ensures ChangedVotes(ps, ds[p := d], floor) == ChangedVotes(ps, ds, floor)[p := ps[p].(votes := NewVotes(ps[p], d, floor))]
    ensures ChangedVotes(ps, ds, floor)[p] == ps[p]
  {
    hide NewVotes;
  }

  lemma OneShareMore(ps: map<Name, Producer>, ps2: map<Name, Producer2>, ds: map<Name, real>, p: Name, d: real,
                     now: int)
    requires p !in ds && p in ps && p in ps2
    ensures ChangedShares(ps, ps2, ds[p := d], now) == ChangedShares(ps, ps2, ds, now)[p := Settle(ps[p], ps2[p], now)]
    ensures ChangedShares(ps, ps2, ds, now)[p] == ps2[p]
  {
    hide Settle;
  }

  lemma SumsStep(s: State, ds: map<Name, real>, p: Name, d: real, floor: bool)
    requires p !in ds && p in s.producers && s.producers2.Keys == s.producers.Keys
    ensures SumReal(TotalChange(s, ds[p := d])) == SumReal(TotalChange(s, ds)) + d
    ensures SumReal(Losses(s, ds[p := d], floor))
         == SumReal(Losses(s, ds, floor)) + if floor then Swallowed(s.producers[p].votes + d) else 0.0
    ensures Strays(s, ds[p := d]) == Strays(s, ds)
  {
    hide SumReal;
    RealChange(TotalChange(s, ds), TotalChange(s, ds[p := d]), p);
    RealChange(Losses(s, ds, floor), Losses(s, ds[p := d], floor), p);
  }

  lemma ShareSumsStep(s: State, ds: map<Name, real>, p: Name, d: real)
    requires p !in ds && p in s.producers && s.producers2.Keys == s.producers.Keys
    ensures SumReal(ExpiredShares(s, ds[p := d]))
         == SumReal(ExpiredShares(s, ds)) + Expired(s.producers[p], s.producers2[p], s.now)
    ensures SumReal(RateChanges(s, ds[p := d]))
         == SumReal(RateChanges(s, ds)) + RateChange(s.producers[p], s.producers2[p], d, s.now)
  {
    hide SumReal, SettledShare, RateChange;
    RealChange(ExpiredShares(s, ds), ExpiredShares(s, ds[p := d]), p);
    RealChange(RateChanges(s, ds), RateChanges(s, ds[p := d]), p);
  }

  // A name that is not registered: nothing changes but the model's record of the loss.
  lemma StrayRows(s: State, ds: map<Name, real>, p: Name, d: real, floor: bool)
    requires p !in ds && p !in s.producers && s.producers2.Keys == s.producers.Keys
    ensures ChangedRows(s, ds[p := d], floor).producers == ChangedRows(s, ds, floor).producers
    ensures ChangedRows(s, ds[p := d], floor).producers2 == ChangedRows(s, ds, floor).producers2
  {
    hide SumReal, Settle, NewVotes;
  }

  lemma StrayMaps(s: State, ds: map<Name, real>, p: Name, d: real, floor: bool)
    requires p !in ds && p !in s.producers
    ensures Losses(s, ds[p := d], floor) == Losses(s, ds, floor) && TotalChange(s, ds[p := d]) == TotalChange(s, ds)
    ensures ExpiredShares(s, ds[p := d]) == ExpiredShares(s, ds) && RateChanges(s, ds[p := d]) == RateChanges(s, ds)
  {
    hide SumReal, SettledShare, RateChange, Swallowed, Expires;
  }

  lemma StrayStep(s: State, ds: map<Name, real>, p: Name, d: real, floor: bool)
    requires p !in ds && p !in s.producers && s.producers2.Keys == s.producers.Keys
    ensures ChangedRows(s, ds[p := d], floor)
         == ChangedRows(s, ds, floor).(clamped := ChangedRows(s, ds, floor).clamped + Abs(d))
    ensures ExpiredShares(s, ds[p := d]) == ExpiredShares(s, ds) && RateChanges(s, ds[p := d]) == RateChanges(s, ds)
  {
    hide SumReal, Losses, TotalChange, ExpiredShares, RateChanges;
    StrayMaps(s, ds, p, d, floor);
    StrayRows(s, ds, p, d, floor);
    RealChange(Strays(s, ds), Strays(s, ds[p := d]), p);
  }

  lemma NoRowsChange(s: State, floor: bool)
    ensures ChangedRows(s, map[], floor).producers == s.producers
    ensures ChangedRows(s, map[], floor).producers2 == s.producers2
  {
    hide SumReal, Settle, NewVotes;
  }

  lemma NoChanges(s: State, floor: bool)
    ensures ChangedRows(s, map[], floor) == s
    ensures SumReal(ExpiredShares(s, map[])) == 0.0 && SumReal(RateChanges(s, map[])) == 0.0
  {
    hide SumReal;
    NoRowsChange(s, floor);
    RealZero(TotalChange(s, map[]));
    RealZero(Losses(s, map[], floor));
    RealZero(Strays(s, map[]));
    RealZero(ExpiredShares(s, map[]));
    RealZero(RateChanges(s, map[]));
  }

  // ----- propagation never reads or writes a row above the one it starts from

  lemma SetLastTwice(s: State, v: Name, y: real, x: Name, w: real)
    requires v in s.voters && x in s.voters && x != v
    ensures SetLast(SetLast(s, x, w), v, y) == SetLast(SetLast(s, v, y), x, w)
  {
    assert SetLast(SetLast(s, x, w), v, y).voters == SetLast(SetLast(s, v, y), x, w).voters;
  }

  lemma AddProxiedAfterSetLast(s: State, z: Name, d: real, x: Name, w: real)
    requires z in s.voters && x in s.voters && x != z
    ensures AddProxied(SetLast(s, x, w), z, d) == SetLast(AddProxied(s, z, d), x, w)
  {
    assert AddProxied(SetLast(s, x, w), z, d).voters == SetLast(AddProxied(s, z, d), x, w).voters;
  }

  lemma CarryCommutes(s: State, v: Name, x: Name, w: real)
    requires Ranked(s) && v in s.voters && x in s.voters && s.rank[v] < s.rank[x]
    ensures Ranked(SetLast(s, x, w))
    ensures Carry(SetLast(s, x, w), v) == SetLast(Carry(s, v), x, w)
  {
    hide SetLast, AddProxied, Weight;
    var r := s.voters[v];
    SetLastKeeps(s, x, w);
    SetLastTwice(s, v, Weight(r, s.stakeRate), x, w);
    if r.proxy.Some? {
      SetLastKeeps(s, v, Weight(r, s.stakeRate));
      AddProxiedAfterSetLast(SetLast(s, v, Weight(r, s.stakeRate)), r.proxy.value, Weight(r, s.stakeRate) - r.last, x, w);
    }
  }

  lemma SetLastKeeps(s: State, x: Name, w: real)
    requires x in s.voters
    ensures SetLast(s, x, w).voters.Keys == s.voters.Keys && SetLast(s, x, w).stakeRate == s.stakeRate
    ensures forall y | y in s.voters && y != x :: SetLast(s, x, w).voters[y] == s.voters[y]
    ensures SetLast(s, x, w).rank == s.rank && SetLast(s, x, w).producers == s.producers
    ensures SetLast(s, x, w).dropped == s.dropped
    ensures Ranked(s) ==> Ranked(SetLast(s, x, w))
  {
  }

  lemma ApplyMapsIgnoreVoters(s: State, s': State, ds: map<Name, real>, floor: bool)
    requires s' == s.(voters := s'.voters)
    ensures TotalChange(s', ds) == TotalChange(s, ds) && Losses(s', ds, floor) == Losses(s, ds, floor)
    ensures Strays(s', ds) == Strays(s, ds)
    ensures ExpiredShares(s', ds) == ExpiredShares(s, ds) && RateChanges(s', ds) == RateChanges(s, ds)
  {
    hide SettledShare, RateChange, Swallowed, Expires;
  }

  lemma ApplyIgnoresVoters(s: State, s': State, ds: map<Name, real>, floor: bool)
    requires s' == s.(voters := s'.voters)
    ensures ApplyChanges(s', ds, floor) == ApplyChanges(s, ds, floor).(voters := s'.voters)
  {
    hide SumReal, TotalChange, Losses, Strays, ExpiredShares, RateChanges, Settle, NewVotes, Settled, Spilled;
    ApplyMapsIgnoreVoters(s, s', ds, floor);
    var a, b := ChangedRows(s', ds, floor), ChangedRows(s, ds, floor);
    assert a.producers == b.producers && a.producers2 == b.producers2;
  }

  lemma ApplyCommutes(s: State, ds: map<Name, real>, floor: bool, x: Name, w: real)
    requires x in s.voters
    ensures x in ApplyChanges(s, ds, floor).voters
    ensures ApplyChanges(SetLast(s, x, w), ds, floor) == SetLast(ApplyChanges(s, ds, floor), x, w)
  {
    hide SumReal, ChangedRows, UpdateTotalShare;
    ApplyKeepsStructure(s, ds, floor);
    ApplyIgnoresVoters(s, SetLast(s, x, w), ds, floor);
  }

  /** The weight of a row above v may be written before or after propagating from v. */
  lemma {:induction false} PropagateCommutes(s: State, v: Name, x: Name, w: real)
    requires Ranked(s) && v in s.voters && x in s.voters && s.rank[v] < s.rank[x]
    ensures Ranked(SetLast(s, x, w))
    ensures Propagate(SetLast(s, x, w), v).Some? <==> Propagate(s, v).Some?
    ensures Propagate(s, v).Some? ==>
              && x in Propagate(s, v).value.voters
              && Propagate(SetLast(s, x, w), v).value == SetLast(Propagate(s, v).value, x, w)
    decreases s.rank[v]
  {
    hide Propagate, ApplyChanges, Weight, SetLast, Carry, Dropped, Abs, Ranked;
    RankedAt(s, v);
    SetLastKeeps(s, x, w);
    CarryCommutes(s, v, x, w);
    CarryKeepsKeys(s, v);
    PropagateCases(s, v);
    PropagateCases(SetLast(s, x, w), v);
    var r := s.voters[v];
    var y := Weight(r, s.stakeRate);
    if Abs(y - r.last) <= 1.0 {
      DropCommutes(s, v, x, w);
    } else if r.proxy.Some? {
      PropagateCommutes(Carry(s, v), r.proxy.value, x, w);
    } else {
      ApplyCommutes(Carry(s, v), SameForAll(r.producers, y - r.last), false, x, w);
    }
  }

  lemma DropCommutes(s: State, v: Name, x: Name, w: real)
    requires v in s.voters && x in s.voters && x != v
    ensures v in SetLast(s, x, w).voters && x in Dropped(s, v).voters
    ensures Dropped(SetLast(s, x, w), v) == SetLast(Dropped(s, v), x, w)
  {
    hide Weight, Abs;
    SetLastTwice(s, v, Weight(s.voters[v], s.stakeRate), x, w);
  }

  lemma RowsKeepKeys(s: State, ds: map<Name, real>, floor: bool)
    ensures ChangedRows(s, ds, floor).producers.Keys == s.producers.Keys
    ensures ChangedRows(s, ds, floor).producers2.Keys == s.producers2.Keys
    ensures ChangedRows(s, ds, floor).now == s.now
  {
    hide SumReal, Settle, NewVotes;
  }

  lemma SameForNone(ps: seq<Name>, d: real)
    ensures SameForAll(ps[..0], d) == map[]
  {
  }

  // One more producer: what the body of either loop does.
  lemma RoundStep(s: State, ds: map<Name, real>, p: Name, d: real, floor: bool)
    requires p !in ds && p in s.producers && s.producers2.Keys == s.producers.Keys
    ensures var ds' := ds[p := d];
            var s1, s2 := ChangedRows(s, ds, floor), ChangedRows(s, ds', floor);
            && s1.producers[p] == s.producers[p] && s1.producers2[p] == s.producers2[p] && s1.now == s.now
            && s2 == s1.(producers := s1.producers[p := s.producers[p].(votes := NewVotes(s.producers[p], d, floor))],
                         producers2 := s1.producers2[p := Settle(s.producers[p], s.producers2[p], s.now)],
                         totalWeight := s1.totalWeight + d,
                         clamped := s1.clamped + if floor then Swallowed(s.producers[p].votes + d) else 0.0)
            && SumReal(ExpiredShares(s, ds')) == SumReal(ExpiredShares(s, ds)) + Expired(s.producers[p], s.producers2[p], s.now)
            && SumReal(RateChanges(s, ds')) == SumReal(RateChanges(s, ds)) + RateChange(s.producers[p], s.producers2[p], d, s.now)
  {
    hide SumReal, TotalChange, Losses, Strays, ExpiredShares, RateChanges, Settle, NewVotes, Expired, RateChange,
         Swallowed;
    RowsStep(s, ds, p, d, floor);
    SumsStep(s, ds, p, d, floor);
    ShareSumsStep(s, ds, p, d);
  }

  lemma SameForOneMore(ps: seq<Name>, i: nat, d: real)
    requires StrictlySorted(ps) && i < |ps|
    ensures ps[i] !in SameForAll(ps[..i], d) && SameForAll(ps[..i + 1], d) == SameForAll(ps[..i], d)[ps[i] := d]
  {
    assert ps[..i + 1] == ps[..i] + [ps[i]];
  }

  lemma RowsKeepActive(s: State, ds: map<Name, real>, floor: bool)
    ensures forall p | p in s.producers ::
              p in ChangedRows(s, ds, floor).producers && ChangedRows(s, ds, floor).producers[p].active == s.producers[p].active
  {
    hide SumReal, NewVotes;
  }

  // What the contract does along a proxy edge (lend, recurse, then write its own weight) is what
  // Propagate does (write, lend, recurse).
  lemma ProxyFirst(s: State, v: Name, z: Name, d: real)
    requires Ranked(s) && RowsFine(s) && v in s.voters && s.voters[v].proxy == Some(z)
    requires d == Weight(s.voters[v], s.stakeRate) - s.voters[v].last && 1.0 < Abs(d)
    ensures z in s.voters && s.rank[z] < s.rank[v]
    ensures var s1 := AddProxied(s, z, d);
            && Ranked(s1) && RowsFine(s1) && z in s1.voters && s1.rank == s.rank
            && (Propagate(s, v).Some? <==> Propagate(s1, z).Some?)
            && (Propagate(s1, z).Some? ==>
                  && v in Propagate(s1, z).value.voters
                  && Propagate(s, v).value == SetLast(Propagate(s1, z).value, v, d + s.voters[v].last))
  {
    hide Propagate, Weight, Abs, Ranked, RowsFine, Carry, AddProxied, SetLast;
    RankedAt(s, v);
    PropagateCases(s, v);
    LendKeepsRows(s, z, d);
    CarryIsLend(s, v, z, d);
    var s1, w := AddProxied(s, z, d), d + s.voters[v].last;
    assert Propagate(s, v) == Propagate(SetLast(s1, v, w), z) by {
      assert Abs(Weight(s.voters[v], s.stakeRate) - s.voters[v].last) == Abs(d);
    }
    PropagateCommutes(s1, z, v, w);
  }

  lemma CarryIsLend(s: State, v: Name, z: Name, d: real)
    requires Ranked(s) && v in s.voters && s.voters[v].proxy == Some(z) && z in s.voters && z != v
    requires d == Weight(s.voters[v], s.stakeRate) - s.voters[v].last
    ensures v in AddProxied(s, z, d).voters && Carry(s, v) == SetLast(AddProxied(s, z, d), v, d + s.voters[v].last)
  {
    hide Weight, Ranked;
    RankedAt(s, v);
    AddProxiedAfterSetLast(s, z, d, v, d + s.voters[v].last);
  }

  lemma LendKeepsRows(s: State, z: Name, d: real)
    requires Ranked(s) && RowsFine(s) && z in s.voters
    ensures Ranked(AddProxied(s, z, d)) && RowsFine(AddProxied(s, z, d))
    ensures AddProxied(s, z, d).rank == s.rank && AddProxied(s, z, d).voters.Keys == s.voters.Keys
  {
    forall v | v in s.voters
      ensures RowOk(AddProxied(s, z, d).voters[v])
    {
      assert RowOk(s.voters[v]);
    }
  }

  // ----- the contract's tables and globals

  // A pending change to one producer: the amount, and whether the new ballot names it.
  datatype Delta = Delta(amount: real, given: bool)

  function AmountAt(deltas: map<Name, Delta>, p: Name): real {
    if p in deltas then deltas[p].amount else 0.0
  }

  ghost function Amounts(deltas: map<Name, Delta>): map<Name, real> {
    map p | p in deltas :: deltas[p].amount
  }

  ghost predicate DeltasElectable(s: State, deltas: map<Name, Delta>, voting: bool) {
    forall p | p in deltas && deltas[p].given :: p in s.producers && (voting ==> s.producers[p].active)
  }

  // The changes that were made so far and those still to do.
  ghost predicate Underway(deltas: map<Name, Delta>, todo: map<Name, Delta>, done: map<Name, real>) {
    && todo.Keys <= deltas.Keys && done.Keys == deltas.Keys - todo.Keys
    && (forall p | p in todo :: todo[p] == deltas[p])
    && forall p | p in done :: done[p] == deltas[p].amount
  }

  lemma OneMoreDone(s: State, deltas: map<Name, Delta>, todo: map<Name, Delta>, done: map<Name, real>, p: Name,
                    voting: bool)
    requires Underway(deltas, todo, done) && DeltasElectable(s, DonePart(deltas, todo), voting) && p in todo
    ensures p in deltas && p !in done && todo[p] == deltas[p]
    ensures Underway(deltas, todo - {p}, done[p := todo[p].amount])
    ensures DeltasElectable(s, map[p := deltas[p]], voting) <==> DeltasElectable(s, DonePart(deltas, todo - {p}), voting)
    ensures !DeltasElectable(s, map[p := deltas[p]], voting) ==> !DeltasElectable(s, deltas, voting)
    ensures |todo - {p}| < |todo|
  {
    assert (todo - {p}).Keys == todo.Keys - {p};
    var one := map[p := deltas[p]];
    assert one[p] == deltas[p];
    if DeltasElectable(s, DonePart(deltas, todo - {p}), voting) {
      assert DonePart(deltas, todo - {p})[p] == deltas[p];
    }
  }

  // The part of the changes that is done.
  ghost function DonePart(deltas: map<Name, Delta>, todo: map<Name, Delta>): map<Name, Delta> {
    map p | p in deltas && p !in todo :: deltas[p]
  }

  lemma AllDone(deltas: map<Name, Delta>, done: map<Name, real>)
    requires Underway(deltas, map[], done)
    ensures done == Amounts(deltas) && DonePart(deltas, map[]) == deltas
  {
  }

  lemma NoneDone(s: State, deltas: map<Name, Delta>, voting: bool)
    ensures Underway(deltas, deltas, map[]) && DeltasElectable(s, DonePart(deltas, deltas), voting)
  {
  }

  lemma BallotSorted(v: Name, proxy: Option<Name>, ps: seq<Name>)
    requires BallotOk(v, proxy, ps)
    ensures StrictlySorted(ps) && (proxy.Some? ==> ps == [])
  {
    if proxy.None? { StrictlySortedFromSteps(ps); }
  }

  // update_votes in the two halves the contract goes through.
  lemma VotingStages(s: State, v: Name, proxy: Option<Name>, ps: seq<Name>, voting: bool, s2: State, nw: real)
    requires Shape(s) && BallotOk(v, proxy, ps) && v in s.voters && !(proxy.Some? && s.voters[v].isProxy)
    requires ProxyOk(s, proxy, voting) && BeginVote(s, v, proxy, voting) == Some(s2)
    requires nw == Weight(s.voters[v], s.stakeRate)
    requires Ranked(s2) && s2.voters.Keys == s.voters.Keys
    ensures proxy.Some? ==> proxy.value in s2.voters
    ensures Voting.UpdateVotes(s, v, proxy, ps, voting)
         == if Electable(s, GivenTo(ps, nw), voting) then CompleteVote(s2, v, s.voters[v], proxy, ps, nw) else None
  {
    hide BallotOk, BeginVote, CompleteVote, Weight, Ranked, Electable, BallotChanges, RowOk;
  }

  // The row update_votes writes at the end.
  lemma CompletedVote(s: State, v: Name, r: Voter, proxy: Option<Name>, ps: seq<Name>, nw: real)
    requires Ranked(s) && v in s.voters && (proxy.Some? ==> proxy.value in s.voters)
    ensures CompleteVote(s, v, r, proxy, ps, nw).Some? <==> Endorse(s, proxy, nw).Some?
    ensures Endorse(s, proxy, nw).Some? ==>
              var s' := ApplyChanges(Endorse(s, proxy, nw).value, BallotChanges(r, ps, nw), true);
              && v in s'.voters
              && CompleteVote(s, v, r, proxy, ps, nw)
              == Some(s'.(voters := s'.voters[v := s'.voters[v].(last := nw, producers := ps, proxy := proxy)],
                          clamped := s'.clamped + Swallowed(nw)))
  {
    hide Endorse, ApplyChanges, Ranked, BallotChanges;
    if Endorse(s, proxy, nw).Some? {
      StructureKeys(s, Endorse(s, proxy, nw).value);
      ApplyKeepsStructure(Endorse(s, proxy, nw).value, BallotChanges(r, ps, nw), true);
    }
  }

  lemma BallotRefused(s: State, v: Name, proxy: Option<Name>, ps: seq<Name>, voting: bool)
    requires Shape(s)
    requires !BallotOk(v, proxy, ps) || v !in s.voters || (proxy.Some? && s.voters[v].isProxy)
    ensures Voting.UpdateVotes(s, v, proxy, ps, voting).None?
  {
    hide BallotOk, BeginVote, CompleteVote, Weight, Ranked, Electable, RowOk;
  }

  lemma VotingBlocked(s: State, v: Name, proxy: Option<Name>, ps: seq<Name>, voting: bool)
    requires Shape(s) && v in s.voters
    requires ProxyOk(s, proxy, voting) ==> BeginVote(s, v, proxy, voting).None?
    ensures Voting.UpdateVotes(s, v, proxy, ps, voting).None?
  {
    hide BallotOk, BeginVote, CompleteVote, Weight, Ranked, Electable, RowOk;
  }

  lemma WithdrawnNone(s: State, v: Name, proxy: Option<Name>, voting: bool)
    requires Shape(s) && v in s.voters && Ranked(Activate(s, s.voters[v]))
    requires s.voters[v].proxy.Some? ==> s.voters[v].proxy.value in Activate(s, s.voters[v]).voters
    requires Withdraw(Activate(s, s.voters[v]), s.voters[v]).None?
    ensures ProxyOk(s, proxy, voting) ==> BeginVote(s, v, proxy, voting).None?
  {
    hide Withdraw, Ranked;
  }

  lemma SameChecks(s: State, s': State, proxy: Option<Name>, ps: seq<Name>, voting: bool)
    requires SameStructure(s, s')
    ensures ProxyOk(s', proxy, voting) <==> ProxyOk(s, proxy, voting)
    ensures Electable(s', ps, voting) <==> Electable(s, ps, voting)
  {
    StructureKeys(s, s');
    StructureKeepsActive(s, s');
  }

  lemma StructureKeepsActive(s: State, s': State)
    requires SameStructure(s, s')
    ensures forall p | p in s.producers :: p in s'.producers && s'.producers[p].active == s.producers[p].active
  {
  }

  // After withdrawing: which checks still matter, and what BeginVote makes of it.
  lemma WithdrawnFits(s: State, v: Name, proxy: Option<Name>, ps: seq<Name>, voting: bool)
    requires Shape(s) && v in s.voters
    requires Ranked(Activate(s, s.voters[v]))
    requires s.voters[v].proxy.Some? ==> s.voters[v].proxy.value in Activate(s, s.voters[v]).voters
    requires Withdraw(Activate(s, s.voters[v]), s.voters[v]).Some?
    ensures var s1 := Withdraw(Activate(s, s.voters[v]), s.voters[v]).value;
            && Ranked(s1) && RowsFine(s1) && s1.producers2.Keys == s1.producers.Keys && s1.voters.Keys == s.voters.Keys
            && (ProxyOk(s1, proxy, voting) <==> ProxyOk(s, proxy, voting))
            && (ProxyOk(s, proxy, voting) ==>
                  var s2 := if voting then Rerank(s1, proxy) else s1;
                  && BeginVote(s, v, proxy, voting) == Some(s2) && Ranked(s2) && RowsFine(s2)
                  && s2 == s1.(rank := s2.rank)
                  && (Electable(s2, ps, voting) <==> Electable(s, ps, voting)))
  {
    hide Weight, Withdraw, ProxyOk, Electable, SameStructure, RowOk;
    var s0 := Activate(s, s.voters[v]);
    var s1 := Withdraw(s0, s.voters[v]).value;
    ActivatedFits(s, v);
    StructureKeepsOrder(s0, s1);
    StructureKeepsRows(s0, s1);
    StructureKeys(s0, s1);
    SameChecks(s0, s1, proxy, ps, voting);
    ActivateChecks(s, s.voters[v], proxy, ps, voting);
    SameProducers(s1, if voting then Rerank(s1, proxy) else s1, ps, voting);
  }

  lemma SameProducers(s: State, s': State, ps: seq<Name>, voting: bool)
    requires s'.producers == s.producers
    ensures Electable(s', ps, voting) <==> Electable(s, ps, voting)
  {
  }

  lemma ActivateChecks(s: State, r: Voter, proxy: Option<Name>, ps: seq<Name>, voting: bool)
    ensures ProxyOk(Activate(s, r), proxy, voting) <==> ProxyOk(s, proxy, voting)
    ensures Electable(Activate(s, r), ps, voting) <==> Electable(s, ps, voting)
  {
  }

  lemma EndorsedFits(s: State, proxy: Option<Name>, nw: real, ps: seq<Name>, voting: bool)
    requires Ranked(s) && (proxy.Some? ==> proxy.value in s.voters) && Endorse(s, proxy, nw).Some?
    requires s.producers2.Keys == s.producers.Keys
    ensures var s' := Endorse(s, proxy, nw).value;
            && s'.producers2.Keys == s'.producers.Keys && s'.voters.Keys == s.voters.Keys
            && (Electable(s', ps, voting) <==> Electable(s, ps, voting))
  {
    hide SameStructure, Endorse, Electable;
    StructureKeys(s, Endorse(s, proxy, nw).value);
    SameChecks(s, Endorse(s, proxy, nw).value, None, ps, voting);
  }

  /** The changes update_votes collects in two passes are those of the ballot. */
  lemma CollectedIsBallot(s: State, r: Voter, ps: seq<Name>, nw: real, taken: map<Name, Delta>, deltas: map<Name,
                          Delta>, voting: bool)
    requires Taken(taken, r) && Given(deltas, taken, GivenTo(ps, nw), nw)
    ensures Amounts(deltas) == BallotChanges(r, ps, nw)
    ensures DeltasElectable(s, deltas, voting) <==> Electable(s, GivenTo(ps, nw), voting)
  {
    assert Amounts(deltas).Keys == BallotChanges(r, ps, nw).Keys;
    if DeltasElectable(s, deltas, voting) {
      forall p | p in GivenTo(ps, nw)
        ensures p in s.producers && (voting ==> s.producers[p].active)
      {
        assert deltas[p].given;
      }
    }
  }

  lemma FlipFits(s: State, v: Name, isProxy: bool)
    requires Shape(s) && v in s.voters && !(isProxy && s.voters[v].proxy.Some?)
    ensures var s1 := s.(voters := s.voters[v := s.voters[v].(isProxy := isProxy)]);
            Ranked(s1) && RowsFine(s1)
  {
    var s1 := s.(voters := s.voters[v := s.voters[v].(isProxy := isProxy)]);
    forall x | x in s1.voters
      ensures RowOk(s1.voters[x])
    {
      assert RowOk(s.voters[x]);
    }
  }

  // The changes collected from the old ballot, and those after adding the new one.
  ghost predicate Taken(deltas: map<Name, Delta>, r: Voter) {
    && (forall p :: p in deltas <==> p in TakenFrom(r))
    && forall p | p in deltas :: deltas[p] == Delta(-r.last, false)
  }

  ghost predicate Given(deltas: map<Name, Delta>, taken: map<Name, Delta>, ps: seq<Name>, nw: real) {
    && (forall p :: p in deltas <==> p in taken || p in ps)
    && forall p | p in deltas ::
         deltas[p] == if p in ps then Delta((if p in taken then taken[p].amount else 0.0) + nw, true) else taken[p]
  }

  class Ledger {
    var voters: map<Name, Voter>
    var producers: map<Name, Producer>
    var producers2: map<Name, Producer2>
    var totalWeight: real
    var votepayShare: real
    var changeRate: real
    var shareTime: int
    var activatedStake: int
    var activationTime: int
    var now: int
    var stakeRate: real
    ghost var rank: map<Name, nat>
    ghost var dropped: real
    ghost var lent: real
    ghost var drops: nat
    ghost var clamped: real

    ghost function Model(): State
      reads this
    {
      State(voters, producers, producers2, totalWeight, votepayShare, changeRate, shareTime,
            activatedStake, activationTime, now, stakeRate, rank, dropped, lent, drops, clamped)
    }

    constructor (now: int, rate: real)
      ensures Model() == Genesis(now, rate)
    {
      voters, producers, producers2 := map[], map[], map[];
      totalWeight, votepayShare, changeRate := 0.0, 0.0, 0.0;
      shareTime, activatedStake, activationTime := 0, 0, 0;
      this.now, stakeRate := now, rate;
      rank, dropped, lent, drops, clamped := map[], 0.0, 0.0, 0, 0.0;
    }

    method UpdateTotalVotepayShare(additionalShares: real, rateDelta: real)
      modifies this
      ensures Model() == UpdateTotalShare(old(Model()), additionalShares, rateDelta)
    {
      var delta := 0.0;
      if shareTime < now {
        delta := Times(Seconds(now - shareTime))(changeRate);
      }
      delta := delta + additionalShares;
      ghost var lost := Spilled(votepayShare, delta) + Spilled(changeRate, rateDelta);
      if delta < 0.0 && votepayShare < -delta {
        votepayShare := 0.0;
      } else {
        votepayShare := votepayShare + delta;
      }
      if rateDelta < 0.0 && changeRate < -rateDelta {
        changeRate := 0.0;
      } else {
        changeRate := changeRate + rateDelta;
      }
      shareTime := now;
      clamped := clamped + lost;
    }

    method UpdateProducerVotepayShare(p: Name, sharesRate: real, resetToZero: bool) returns (newShare: real)
      requires p in producers2
      modifies `producers2
      ensures forall row: Producer | resetToZero == Expires(row, old(producers2)[p], now)
                                     && sharesRate == (if Stale(row, old(producers2)[p]) then 0.0 else row.votes) ::
                newShare == SettledShare(row, old(producers2)[p], now)
                && producers2 == old(producers2)[p := Settle(row, old(producers2)[p], now)]
    {
      var row := producers2[p];
      var delta := 0.0;
      if 0.0 < sharesRate && row.updated < now {
        delta := Times(Seconds(now - row.updated))(sharesRate);
      }
      newShare := row.share + delta;
      producers2 := producers2[p := Producer2(if resetToZero then 0.0 else newShare, now)];
    }

    // What both loops over producers do with one registered producer.
    method MoveVotes(p: Name, d: real, floor: bool) returns (rateChange: real, expired: real)
      requires p in producers && p in producers2
      modifies `producers, `producers2, `totalWeight, `clamped
      ensures producers == old(producers)[p := old(producers)[p].(votes := NewVotes(old(producers)[p], d, floor))]
      ensures producers2 == old(producers2)[p := Settle(old(producers)[p], old(producers2)[p], now)]
      ensures totalWeight == old(totalWeight) + d
      ensures clamped == old(clamped) + if floor then Swallowed(old(producers)[p].votes + d) else 0.0
      ensures rateChange == RateChange(old(producers)[p], old(producers2)[p], d, now)
      ensures expired == Expired(old(producers)[p], old(producers2)[p], now)
    {
      var row := producers[p];
      var votes := row.votes + d;
      if floor && votes < 0.0 {
        clamped := clamped - votes;
        votes := 0.0;
      }
      producers := producers[p := row.(votes := votes)];
      totalWeight := totalWeight + d;
      var crossed := row.lastClaim + THREE_DAYS <= now;
      var updatedAfter := row.lastClaim + THREE_DAYS <= producers2[p].updated;
      var newShare := UpdateProducerVotepayShare(p, if updatedAfter then 0.0 else row.votes, crossed && !updatedAfter);
      rateChange, expired := 0.0, 0.0;
      if !crossed {
        rateChange := d;
      } else if !updatedAfter {
        expired := newShare;
        rateChange := -row.votes;
      }
    }

    // The loop of propagate_weight_change over the producers a row votes for.
    method SpreadWeight(ps: seq<Name>, d: real) returns (ok: bool)
      requires StrictlySorted(ps) && producers2.Keys == producers.Keys
      modifies this
      ensures ok <==> forall p | p in ps :: p in old(producers)
      ensures ok ==> Model() == ApplyChanges(old(Model()), SameForAll(ps, d), false)
    {
      hide SumReal, Settle, NewVotes, RateChange, Expired, UpdateTotalShare, SettledShare, ChangedRows, ExpiredShares,
           RateChanges,
           SameForAll;
      ghost var s := Model();
      NoChanges(s, false);
      SameForNone(ps, d);
      var rateChange, expired := 0.0, 0.0;
      for i := 0 to |ps|
        invariant forall p | p in ps[..i] :: p in s.producers
        invariant Model() == ChangedRows(s, SameForAll(ps[..i], d), false)
        invariant expired == SumReal(ExpiredShares(s, SameForAll(ps[..i], d)))
        invariant rateChange == SumReal(RateChanges(s, SameForAll(ps[..i], d)))
      {
        var p := ps[i];
        RowsKeepKeys(s, SameForAll(ps[..i], d), false);
        if p !in producers {
          return false;
        }
        SameForOneMore(ps, i, d);
        RoundStep(s, SameForAll(ps[..i], d), p, d, false);
        var c, e := MoveVotes(p, d, false);
        rateChange, expired := rateChange + c, expired + e;
      }
      assert ps[..|ps|] == ps;
      UpdateTotalVotepayShare(-expired, rateChange);
      ok := true;
    }

    ghost method RecordDrop(r: Voter, x: real)
      modifies `dropped, `lent, `drops
      ensures dropped == old(dropped) + DropOf(r, x)
      ensures lent == old(lent) + if r.proxy.Some? then DropOf(r, x) else 0.0
      ensures drops == old(drops) + if DropOf(r, x) != 0.0 then 1 else 0
    {
      dropped, drops := dropped + DropOf(r, x), drops + if DropOf(r, x) != 0.0 then 1 else 0;
      lent := lent + if r.proxy.Some? then DropOf(r, x) else 0.0;
    }

    method PropagateWeightChange(v: Name) returns (ok: bool)
      requires Ranked(Model()) && RowsFine(Model()) && producers2.Keys == producers.Keys && v in voters
      modifies this
      ensures ok <==> Propagate(old(Model()), v).Some?
      ensures ok ==> Model() == Propagate(old(Model()), v).value
      decreases rank[v]
    {
      hide Propagate, Ranked, ApplyChanges, SameForAll, DropOf;
      ghost var s := Model();
      var r := voters[v];
      assert RowOk(r);
      RankedAt(s, v);
      PropagateCases(s, v);
      assert !(r.proxy.Some? && r.isProxy);
      var weight := NewWeight(r);
      var delta := weight - r.last;
      if 1.0 < Abs(delta) {
        if r.proxy.Some? {
          var z := r.proxy.value;
          ProxyFirst(s, v, z, delta);
          voters := voters[z := voters[z].(proxied := voters[z].proxied + delta)];
          var done := PropagateWeightChange(z);
          if !done {
            return false;
          }
        } else {
          ApplyCommutes(s, SameForAll(r.producers, delta), false, v, weight);
          var done := SpreadWeight(r.producers, delta);
          if !done {
            return false;
          }
        }
      } else {
        RecordDrop(r, weight);
      }
      voters := voters[v := voters[v].(last := weight)];
      ok := true;
    }

    static method CheckBallot(v: Name, proxy: Option<Name>, ps: seq<Name>) returns (ok: bool)
      ensures ok <==> BallotOk(v, proxy, ps)
    {
      if proxy.Some? {
        return ps == [] && v != proxy.value;
      }
      if MAX_BALLOT < |ps| {
        return false;
      }
      var i := 1;
      while i < |ps|
        invariant 1 <= i && forall j | 1 <= j < i && j < |ps| :: ps[j - 1] < ps[j]
      {
        if ps[i] <= ps[i - 1] {
          return false;
        }
        i := i + 1;
      }
      ok := true;
    }

    // A first vote counts the stake towards activating the chain.
    method CountStake(r: Voter)
      modifies `activatedStake, `activationTime
      ensures Model() == Activate(old(Model()), r)
    {
      if activationTime == 0 {
        if r.last <= 0.0 {
          activatedStake := activatedStake + r.staked;
        }
        if MIN_ACTIVATED_STAKE <= activatedStake && MIN_ACTIVATED_DATE <= now {
          activationTime := now;
        }
      }
    }

    method LendWeight(q: Name, x: real) returns (ok: bool)
      requires Ranked(Model()) && RowsFine(Model()) && producers2.Keys == producers.Keys && q in voters
      modifies this
      ensures ok <==> Lend(old(Model()), q, x).Some?
      ensures ok ==> Model() == Lend(old(Model()), q, x).value
    {
      hide Propagate, RowOk, SameStructure;
      LendKeepsRows(Model(), q, x);
      voters := voters[q := voters[q].(proxied := voters[q].proxied + x)];
      ok := PropagateWeightChange(q);
    }

    // The old ballot's weight is taken back: from the proxy at once, from producers later.
    method WithdrawVotes(r: Voter) returns (ok: bool, deltas: map<Name, Delta>)
      requires Ranked(Model()) && RowsFine(Model()) && producers2.Keys == producers.Keys && StrictlySorted(r.producers)
      requires r.proxy.Some? ==> r.proxy.value in voters
      modifies this
      ensures ok <==> Withdraw(old(Model()), r).Some?
      ensures ok ==> Model() == Withdraw(old(Model()), r).value && Taken(deltas, r)
    {
      hide Lend, Ranked, RowOk, SameStructure;
      deltas := map[];
      ok := true;
      if 0.0 < r.last {
        if r.proxy.Some? {
          ok := LendWeight(r.proxy.value, -r.last);
        } else {
          for i := 0 to |r.producers|
            invariant Model() == old(Model())
            invariant forall p :: p in deltas <==> p in r.producers[..i]
            invariant forall p | p in deltas :: deltas[p] == Delta(-r.last, false)
          {
            var p := r.producers[i];
            var amount := AmountAt(deltas, p);
            assert p !in r.producers[..i];
            deltas := deltas[p := Delta(amount - r.last, false)];
            assert r.producers[..i + 1] == r.producers[..i] + [p];
          }
        }
      } else {
        clamped := clamped - r.last;
      }
    }

    // The new ballot's weight is given: to the proxy at once, to producers later.
    method EndorseVotes(proxy: Option<Name>, ps: seq<Name>, nw: real, taken: map<Name, Delta>) returns (ok: bool,
                        deltas: map<Name, Delta>)
      requires Ranked(Model()) && RowsFine(Model()) && producers2.Keys == producers.Keys && StrictlySorted(ps)
      requires proxy.Some? ==> proxy.value in voters && ps == []
      modifies this
      ensures ok <==> Endorse(old(Model()), proxy, nw).Some?
      ensures ok ==> Model() == Endorse(old(Model()), proxy, nw).value && Given(deltas, taken, GivenTo(ps, nw), nw)
    {
      hide Lend, Ranked, RowOk, SameStructure;
      deltas := taken;
      ok := true;
      if proxy.Some? {
        if 0.0 <= nw {
          ok := LendWeight(proxy.value, nw);
        }
      } else if 0.0 <= nw {
        for i := 0 to |ps|
          invariant Model() == old(Model())
          invariant Given(deltas, taken, ps[..i], nw)
        {
          var p := ps[i];
          var amount := AmountAt(deltas, p);
          assert p !in ps[..i];
          deltas := deltas[p := Delta(amount + nw, true)];
          assert ps[..i + 1] == ps[..i] + [p];
        }
        assert ps[..|ps|] == ps;
      }
    }

    method ApplyDeltas(deltas: map<Name, Delta>, voting: bool) returns (ok: bool)
      requires producers2.Keys == producers.Keys
      modifies this
      ensures ok <==> DeltasElectable(old(Model()), deltas, voting)
      ensures ok ==> Model() == ApplyChanges(old(Model()), Amounts(deltas), true)
    {
      hide SumReal, UpdateTotalShare, ChangedRows, ExpiredShares, RateChanges, Amounts, DeltasElectable;
      var rateChange, expired;
      ok, rateChange, expired := MoveAllVotes(deltas, voting);
      if ok {
        UpdateTotalVotepayShare(-expired, rateChange);
      }
    }

    // The body of that loop: one collected change is checked and applied.
    method MoveOneVote(p: Name, d: Delta, voting: bool, ghost s: State, ghost done: map<Name, real>)
      returns (ok: bool, rateChange: real, expired: real)
      requires p !in done && s.producers2.Keys == s.producers.Keys && Model() == ChangedRows(s, done, true)
      modifies this
      ensures ok <==> DeltasElectable(s, map[p := d], voting)
      ensures ok ==> Model() == ChangedRows(s, done[p := d.amount], true)
      ensures ok ==> SumReal(ExpiredShares(s, done[p := d.amount])) == SumReal(ExpiredShares(s, done)) + expired
      ensures ok ==> SumReal(RateChanges(s, done[p := d.amount])) == SumReal(RateChanges(s, done)) + rateChange
    {
      hide SumReal, Settle, NewVotes, RateChange, Expired, SettledShare, ChangedRows, ExpiredShares, RateChanges,
           Swallowed;
      ok, rateChange, expired := true, 0.0, 0.0;
      RowsKeepKeys(s, done, true);
      RowsKeepActive(s, done, true);
      ghost var one := map[p := d];
      assert one[p] == d;
      if p in producers {
        if voting && !producers[p].active && d.given {
          ok := false;
        } else {
          RoundStep(s, done, p, d.amount, true);
          rateChange, expired := MoveVotes(p, d.amount, true);
        }
      } else if d.given {
        ok := false;
      } else {
        StrayStep(s, done, p, d.amount, true);
        clamped := clamped + Abs(d.amount);
      }
    }

    // The loop of update_votes over the collected changes; their order does not matter.
    method MoveAllVotes(deltas: map<Name, Delta>, voting: bool) returns (ok: bool, rateChange: real, expired: real)
      requires producers2.Keys == producers.Keys
      modifies this
      ensures ok <==> DeltasElectable(old(Model()), deltas, voting)
      ensures ok ==> Model() == ChangedRows(old(Model()), Amounts(deltas), true)
      ensures ok ==> expired == SumReal(ExpiredShares(old(Model()), Amounts(deltas)))
      ensures ok ==> rateChange == SumReal(RateChanges(old(Model()), Amounts(deltas)))
    {
      hide SumReal, ChangedRows, ExpiredShares, RateChanges, Amounts, Underway, DonePart, DeltasElectable;
      ghost var s := Model();
      ghost var done: map<Name, real> := map[];
      NoChanges(s, true);
      NoneDone(s, deltas, voting);
      var todo := deltas;
      rateChange, expired := 0.0, 0.0;
      while todo != map[]
        invariant Underway(deltas, todo, done) && DeltasElectable(s, DonePart(deltas, todo), voting)
        invariant Model() == ChangedRows(s, done, true)
        invariant expired == SumReal(ExpiredShares(s, done)) && rateChange == SumReal(RateChanges(s, done))
        decreases |todo|
      {
        var p :| p in todo;
        OneMoreDone(s, deltas, todo, done, p, voting);
        var c, e;
        ok, c, e := MoveOneVote(p, todo[p], voting, s, done);
        if !ok {
          return;
        }
        rateChange, expired := rateChange + c, expired + e;
        done := done[p := todo[p].amount];
        todo := todo - {p};
      }
      AllDone(deltas, done);
      ok := true;
    }

    method NewWeight(r: Voter) returns (w: real)
      ensures w == Weight(r, stakeRate)
    {
      w := Times(stakeRate)(r.staked as real);
      if r.isProxy {
        w := w + r.proxied;
      }
    }

    // The second half of update_votes: the new ballot gets its weight and the row is written.
    method FinishVote(v: Name, r: Voter, proxy: Option<Name>, ps: seq<Name>, nw: real, taken: map<Name, Delta>,
                      voting: bool)
      returns (ok: bool)
      requires Ranked(Model()) && RowsFine(Model()) && producers2.Keys == producers.Keys && v in voters
      requires StrictlySorted(ps) && (proxy.Some? ==> proxy.value in voters && ps == []) && Taken(taken, r)
      modifies this
      ensures ok <==> CompleteVote(old(Model()), v, r, proxy, ps, nw).Some? && Electable(old(Model()), GivenTo(ps, nw), voting)
      ensures ok ==> Some(Model()) == CompleteVote(old(Model()), v, r, proxy, ps, nw)
    {
      hide Endorse, ApplyChanges, CompleteVote, DeltasElectable, Taken, Given, Electable, Ranked, RowOk,
           StrictlySorted, BallotChanges,
           Amounts, GivenTo, SameStructure, Swallowed;
      ghost var s := Model();
      CompletedVote(s, v, r, proxy, ps, nw);
      var deltas;
      ok, deltas := EndorseVotes(proxy, ps, nw, taken);
      if ok {
        EndorsedFits(s, proxy, nw, GivenTo(ps, nw), voting);
        CollectedIsBallot(Model(), r, ps, nw, taken, deltas, voting);
        ok := ApplyDeltas(deltas, voting);
        if ok {
          voters := voters[v := voters[v].(last := nw, producers := ps, proxy := proxy)];
          clamped := clamped + Swallowed(nw);
        }
      }
    }

    /** update_votes. */
    method UpdateVotes(v: Name, proxy: Option<Name>, ps: seq<Name>, voting: bool) returns (ok: bool)
      requires Shape(Model())
      modifies this
      ensures ok <==> Voting.UpdateVotes(old(Model()), v, proxy, ps, voting).Some?
      ensures ok ==> Some(Model()) == Voting.UpdateVotes(old(Model()), v, proxy, ps, voting)
    {
      hide Voting.UpdateVotes, Withdraw, CompleteVote, Taken, Weight, SameStructure, BeginVote,
           Electable, Ranked, BallotOk, Rerank, Activate, RowOk, StrictlySorted, GivenTo;
      ghost var s := Model();
      var ballot := CheckBallot(v, proxy, ps);
      if !ballot || v !in voters || (proxy.Some? && voters[v].isProxy) {
        BallotRefused(s, v, proxy, ps, voting);
        return false;
      }
      BallotSorted(v, proxy, ps);
      ActivatedFits(s, v);
      var r := voters[v];
      CountStake(r);
      var nw := NewWeight(r);
      var taken;
      ok, taken := WithdrawVotes(r);
      if !ok {
        WithdrawnNone(s, v, proxy, voting);
        VotingBlocked(s, v, proxy, ps, voting);
        return;
      }
      WithdrawnFits(s, v, proxy, GivenTo(ps, nw), voting);
      if proxy.Some? && (proxy.value !in voters || (voting && !voters[proxy.value].isProxy)) {
        VotingBlocked(s, v, proxy, ps, voting);
        return false;
      }
      rank := if voting then Rerank(Model(), proxy).rank else rank;
      VotingStages(s, v, proxy, ps, voting, Model(), nw);
      ok := FinishVote(v, r, proxy, ps, nw, taken, voting);
    }

    /** regproxy. */
    method RegProxy(v: Name, isProxy: bool) returns (ok: bool)
      requires Shape(Model())
      modifies this
      ensures ok <==> Voting.RegProxy(old(Model()), v, isProxy).Some?
      ensures ok ==> Some(Model()) == Voting.RegProxy(old(Model()), v, isProxy)
    {
      hide Propagate, Ranked, RowOk;
      ghost var s := Model();
      if v in voters {
        if isProxy == voters[v].isProxy || (isProxy && voters[v].proxy.Some?) {
          return false;
        }
        FlipFits(s, v, isProxy);
        voters := voters[v := voters[v].(isProxy := isProxy)];
        ok := PropagateWeightChange(v);
      } else {
        voters := voters[v := NEW_VOTER.(isProxy := isProxy)];
        rank := rank[v := 0];
        ok := true;
      }
    }

    /** register_producer, once the self-stake check has passed. */
    method RegisterProducer(p: Name)
      modifies this
      ensures Model() == Voting.RegisterProducer(old(Model()), p)
    {
      if p in producers {
        var row := producers[p];
        var claimed := if row.lastClaim == 0 then now else row.lastClaim;
        producers := producers[p := row.(active := true, lastClaim := claimed)];
        if p !in producers2 {
          producers2 := producers2[p := Producer2(0.0, now)];
          UpdateTotalVotepayShare(0.0, row.votes);
        }
      } else {
        producers := producers[p := Producer(0.0, true, now)];
        producers2 := producers2[p := Producer2(0.0, now)];
      }
    }

    /** unregprod and rmvproducer. */
    method UnregProd(p: Name) returns (ok: bool)
      modifies this
      ensures ok <==> Deactivate(old(Model()), p).Some?
      ensures ok ==> Some(Model()) == Deactivate(old(Model()), p)
    {
      if p !in producers {
        return false;
      }
      producers := producers[p := producers[p].(active := false)];
      ok := true;
    }

    /** update_voting_power. */
    method UpdateVotingPower(v: Name, delta: int) returns (ok: bool)
      requires Shape(Model())
      modifies this
      ensures ok <==> Voting.UpdateVotingPower(old(Model()), v, delta).Some?
      ensures ok ==> Some(Model()) == Voting.UpdateVotingPower(old(Model()), v, delta)
    {
      hide Voting.UpdateVotes, RowOk;
      ghost var s := Model();
      if v in voters {
        voters := voters[v := voters[v].(staked := voters[v].staked + delta)];
      } else {
        voters := voters[v := NEW_VOTER.(staked := delta)];
        rank := rank[v := 0];
      }
      var r := voters[v];
      if r.staked < 0 {
        return false;
      }
      if v == B1 && r.staked < MAX_CLAIMABLE - Claimable(now) {
        return false;
      }
      StakeFits(s, v, delta);
      ok := true;
      if r.producers != [] || r.proxy.Some? {
        ok := UpdateVotes(v, r.proxy, r.producers, false);
      }
    }

    // The action itself; after a failed check the tables may be half changed.
    method Perform(a: Action) returns (ok: bool)
      requires Shape(Model())
      modifies this
      ensures ok <==> Act(old(Model()), a).Some?
      ensures ok ==> Some(Model()) == Act(old(Model()), a)
    {
      hide Shape, Voting.UpdateVotes, Voting.RegProxy, Voting.UpdateVotingPower, Voting.RegisterProducer, Deactivate;
      ok := true;
      match a {
        case Vote(v, proxy, ps) => ok := UpdateVotes(v, proxy, ps, true);
        case SetProxy(v, isProxy) => ok := RegProxy(v, isProxy);
        case ChangeStake(v, delta) => ok := UpdateVotingPower(v, delta);
        case Register(p) => RegisterProducer(p);
        case Unregister(p) => ok := UnregProd(p);
      }
    }

    // The non-ghost state, and putting it back.
    method Snapshot() returns (s: State)
      ensures s == Model().(rank := s.rank, dropped := s.dropped, lent := s.lent, drops := s.drops, clamped := s.clamped)
    {
      s := State(voters, producers, producers2, totalWeight, votepayShare, changeRate, shareTime,
                 activatedStake, activationTime, now, stakeRate, map[], 0.0, 0.0, 0, 0.0);
    }

    method RestoreTables(s: State)
      modifies `voters, `producers, `producers2, `totalWeight, `votepayShare, `changeRate
      ensures voters == s.voters && producers == s.producers && producers2 == s.producers2
      ensures totalWeight == s.totalWeight && votepayShare == s.votepayShare && changeRate == s.changeRate
    {
      voters, producers, producers2 := s.voters, s.producers, s.producers2;
      totalWeight, votepayShare, changeRate := s.totalWeight, s.votepayShare, s.changeRate;
    }

    method Restore(s: State, ghost record: State)
      modifies this
      ensures Model() == s.(rank := record.rank, dropped := record.dropped, lent := record.lent,
                            drops := record.drops, clamped := record.clamped)
    {
      RestoreTables(s);
      shareTime, activatedStake, activationTime := s.shareTime, s.activatedStake, s.activationTime;
      now, stakeRate := s.now, s.stakeRate;
      rank, dropped, clamped := record.rank, record.dropped, record.clamped;
      lent, drops := record.lent, record.drops;
    }

    /** One action in one block.  A failed check undoes everything the action did. */
    method Transact(e: Event)
      requires Shape(Tick(Model(), e))
      modifies this
      ensures Model() == Next(old(Model()), e)
    {
      hide Shape, Act;
      now, stakeRate := e.time, e.rate;
      ghost var before := Model();
      var saved := Snapshot();
      var ok := Perform(e.action);
      if !ok {
        Restore(saved, before);
      }
    }
  }
}
