/** Casting a vote, becoming a proxy, registering: each action keeps the invariant. */
module VotingActions {
  import opened Common
  import opened Sums
  import opened Voting
  import opened VotingChains
  import opened VotingIndex
  import opened VotingTallies
  import opened VotingRuns

  // ----- changing one row in the two views

  lemma ViewMoves(s: State, e: real, g: real, d: real, vp: Rows, vq: Rows, v: Name, rp: Voter, rq: Voter)
    requires v in vp && v in vq && 0.0 <= d
    requires forall p: Name :: Near(CountsFor(rp, p), CountsFor(vp[v], p), d)
    requires forall q: Name :: Lends(rq, q) == Lends(vq[v], q)
    requires ProducersTallied(s, e, vp) && ProxiesTallied(s, g, vq)
    ensures ProducersTallied(s, e + d, vp[v := rp]) && ProxiesTallied(s, g, vq[v := rq])
  {
    hide SumReal, CountsFor, Lends;
    forall p: Name
      ensures Near(VotesOf(s, p), SumReal(VotesFor(vp[v := rp], p)), e + d)
    {
      VotesForUpdate(vp, v, rp, p);
      assert Near(VotesOf(s, p), SumReal(VotesFor(vp, p)), e);
      assert Near(CountsFor(rp, p), CountsFor(vp[v], p), d);
    }
    forall q | q in s.voters
      ensures Near(s.voters[q].proxied, SumReal(LentTo(vq[v := rq], q)), g)
    {
      LentToUpdate(vq, v, rq, q);
      assert Near(s.voters[q].proxied, SumReal(LentTo(vq, q)), g);
      assert Lends(rq, q) == Lends(vq[v], q);
    }
  }

  // A row swap that moves no producer's tally by more than d and no proxy's at all, with d more
  // weight written off.
  lemma ViewSwap(s: State, d: real, vp: Rows, vq: Rows, v: Name, rp: Voter, rq: Voter)
    requires v in vp && v in vq && 0.0 <= d
    requires forall p: Name :: Near(CountsFor(rp, p), CountsFor(vp[v], p), d)
    requires forall q: Name :: Lends(rq, q) == Lends(vq[v], q)
    requires Sound(s, Loss(s), vp, vq)
    requires s.dropped == 0.0 ==> d == 0.0 && CleanRow(s, rp) && CleanRow(s, rq)
    ensures var s' := s.(clamped := s.clamped + d);
            Sound(s', Loss(s'), vp[v := rp], vq[v := rq])
  {
    hide SumReal, CountsFor, Lends, IndexOk, ProducersTallied, ProxiesTallied, CleanRow;
    var s' := s.(clamped := s.clamped + d);
    ViewMoves(s, Loss(s), s.lent, d, vp, vq, v, rp, rq);
    IndexIgnoresVoters(s, s');
    assert ProducersTallied(s', Loss(s'), vp[v := rp]) && ProxiesTallied(s', s'.lent, vq[v := rq]) by {
      TalliesIgnoreLosses(s, s', Loss(s'), s.lent, vp[v := rp], vq[v := rq]);
    }
    CleanIgnoresLosses(s, s');
  }

  lemma TalliesIgnoreLosses(s: State, s': State, e: real, g: real, vp: Rows, vq: Rows)
    requires s'.producers == s.producers && s'.voters == s.voters
    requires ProducersTallied(s, e, vp) && ProxiesTallied(s, g, vq)
    ensures ProducersTallied(s', e, vp) && ProxiesTallied(s', g, vq)
  {
    hide SumReal, Near;
    assert forall p: Name :: VotesOf(s', p) == VotesOf(s, p);
  }

  lemma CleanIgnoresLosses(s: State, s': State)
    requires s'.producers == s.producers
    ensures forall r :: CleanRow(s', r) == CleanRow(s, r)
  {
  }

  // ----- lending to a proxy

  // What a row has been lent plays no part in what it votes for or lends on.
  predicate SameBallot(r: Voter, r': Voter) {
    r' == r.(proxied := r'.proxied)
  }

  ghost predicate SameBallots(a: Rows, b: Rows) {
    a.Keys == b.Keys && forall y | y in a :: SameBallot(a[y], b[y])
  }

  lemma SameBallotsSameSums(a: Rows, b: Rows)
    requires SameBallots(a, b)
    ensures forall p: Name :: VotesFor(b, p) == VotesFor(a, p)
    ensures forall q: Name :: LentTo(b, q) == LentTo(a, q)
  {
  }

  lemma SameBallotsClean(s: State, s': State, a: Rows, b: Rows)
    requires SameBallots(a, b) && s'.producers == s.producers && Clean(s, a)
    ensures Clean(s', b)
  {
    forall y | y in b
      ensures CleanRow(s', b[y])
    {
      assert CleanRow(s, a[y]);
    }
  }

  lemma CleanSwap(s: State, vs: Rows, v: Name, r: Voter, r': Voter)
    requires Clean(s, vs[v := r]) && CleanRow(s, r')
    ensures Clean(s, vs[v := r'])
  {
    var before, after := vs[v := r], vs[v := r'];
    forall y | y in after
      ensures CleanRow(s, after[y])
    {
      assert y != v ==> after[y] == before[y];
    }
  }

  lemma AddProxiedVotes(s: State, q: Name, x: real, v: Name, e: real, rp: Voter)
    requires v in s.voters && q in s.voters && v != q
    requires ProducersTallied(s, e, s.voters[v := rp])
    ensures var s1 := AddProxied(s, q, x);
            SameBallots(s.voters[v := rp], s1.voters[v := rp]) && ProducersTallied(s1, e, s1.voters[v := rp])
  {
    hide SumReal, Near;
    var s1 := AddProxied(s, q, x);
    SameBallotsSameSums(s.voters[v := rp], s1.voters[v := rp]);
    assert forall p: Name :: VotesOf(s1, p) == VotesOf(s, p);
  }

  lemma AddProxiedLent(s: State, q: Name, x: real, v: Name, e: real, rq: Voter, rq': Voter)
    requires v in s.voters && q in s.voters && v != q
    requires ProxiesTallied(s, e, s.voters[v := rq])
    requires forall y: Name :: Lends(rq', y) == Lends(rq, y) + if y == q then x else 0.0
    ensures var s1 := AddProxied(s, q, x);
            ProxiesTallied(s1, e, s1.voters[v := rq'])
  {
    hide SumReal, Lends;
    var s1 := AddProxied(s, q, x);
    var before, after := s.voters[v := rq], s1.voters[v := rq'];
    assert before[v := rq'] == s.voters[v := rq'];
    SameBallotsSameSums(s.voters[v := rq'], after);
    forall y | y in s1.voters
      ensures Near(s1.voters[y].proxied, SumReal(LentTo(after, y)), e)
    {
      assert Near(s.voters[y].proxied, SumReal(LentTo(before, y)), e);
      LentToUpdate(before, v, rq', y);
    }
  }

  lemma AddProxiedSound(s: State, q: Name, x: real, v: Name, rp: Voter, rq: Voter, rq': Voter)
    requires v in s.voters && q in s.voters && v != q
    requires Sound(s, Loss(s), s.voters[v := rp], s.voters[v := rq])
    requires forall y: Name :: Lends(rq', y) == Lends(rq, y) + if y == q then x else 0.0
    requires s.dropped == 0.0 ==> CleanRow(s, rq')
    ensures var s1 := AddProxied(s, q, x);
            Sound(s1, Loss(s1), s1.voters[v := rp], s1.voters[v := rq'])
  {
    hide SumReal, IndexOk, ProducersTallied, ProxiesTallied, Lends, CleanRow;
    var s1 := AddProxied(s, q, x);
    AddProxiedVotes(s, q, x, v, Loss(s), rp);
    AddProxiedLent(s, q, x, v, s.lent, rq, rq');
    IndexIgnoresVoters(s, s1);
    if s.dropped == 0.0 {
      CleanSwap(s, s.voters, v, rq, rq');
      SameBallotsClean(s, s1, s.voters[v := rp], s1.voters[v := rp]);
      SameBallotsClean(s, s1, s.voters[v := rq'], s1.voters[v := rq']);
    }
  }

  lemma RefreshView(s: State, s': State, v: Name, r: Voter, n: nat)
    requires v in s.voters && s.rank.Keys == s.voters.Keys && s'.voters.Keys == s.voters.Keys && s'.rank == s.rank
    requires n < s.rank[v]
    requires forall y | y in s.voters && n < s.rank[y] :: s'.voters[y] == s.voters[y]
    ensures Refresh(s'.rank, s'.voters, s.voters[v := r], n) == s'.voters[v := r]
    ensures Agree(s.rank, s.voters, s.voters[v := r], n)
  {
  }

  // The rows change from (rp, rq) to (rp, rq') as q is lent x more.
  lemma LendKeeps(s: State, q: Name, x: real, v: Name, rp: Voter, rq: Voter, rq': Voter)
    requires Ranked(s) && RowsFine(s) && v in s.voters && q in s.voters && s.rank[q] < s.rank[v]
    requires Sound(s, Loss(s), s.voters[v := rp], s.voters[v := rq])
    requires forall y: Name :: Lends(rq', y) == Lends(rq, y) + if y == q then x else 0.0
    requires s.dropped == 0.0 ==> CleanRow(s, rq')
    ensures Lend(s, q, x).Some? ==>
              var s' := Lend(s, q, x).value;
              Sound(s', Loss(s'), s'.voters[v := rp], s'.voters[v := rq']) && s.dropped <= s'.dropped
  {
    hide Sound, SumReal, Lends, CleanRow, RowOk, Weight;
    var s1 := AddProxied(s, q, x);
    AddProxiedSound(s, q, x, v, rp, rq, rq');
    assert SameStructure(s, s1);
    StructureKeepsOrder(s, s1);
    StructureKeepsRows(s, s1);
    RefreshView(s1, s1, v, rp, s.rank[q]);
    RefreshView(s1, s1, v, rq', s.rank[q]);
    PropagateKeeps(s1, q, Loss(s1), s1.voters[v := rp], s1.voters[v := rq']);
    if Propagate(s1, q).Some? {
      PropagateFrame(s1, q);
      RefreshView(s1, Propagate(s1, q).value, v, rp, s.rank[q]);
      RefreshView(s1, Propagate(s1, q).value, v, rq', s.rank[q]);
    }
  }

  lemma LentRefreshes(s: State, q: Name, x: real)
    requires Ranked(s) && q in s.voters
    ensures Lend(s, q, x).Some? ==> Refreshed(s, Lend(s, q, x).value)
  {
    hide Propagate, Refreshed, SameStructure;
    LendRefreshes(s, q, x);
  }

  lemma RefreshedSelf(s: State, s': State)
    requires s'.voters == s.voters && s'.stakeRate == s.stakeRate
    ensures Refreshed(s, s')
  {
  }

  // ----- casting a vote, stage by stage

  // What is left of the old row once its proxy, or everything, has been withdrawn.
  function OldBallot(r: Voter): Voter {
    r.(proxy := None, producers := TakenFrom(r))
  }

  function NoBallot(r: Voter): Voter {
    r.(proxy := None, producers := [])
  }

  // A row that votes for nobody.
  function Abstaining(r: Voter, nw: real): Voter {
    r.(proxy := None, producers := [], last := nw)
  }

  lemma WithdrawKeeps(s: State, v: Name)
    requires Ranked(s) && RowsFine(s) && v in s.voters && Sound(s, Loss(s), s.voters, s.voters)
    requires s.voters[v].proxy.Some? ==> 0.0 <= s.voters[v].last
    ensures var r := s.voters[v];
            Withdraw(s, r).Some? ==>
                  var s' := Withdraw(s, r).value;
                  && Sound(s', Loss(s'), s'.voters[v := OldBallot(r)], s'.voters[v := NoBallot(r)])
                  && s'.voters[v] == r && s.dropped <= s'.dropped
  {
    hide Sound, SumReal, RowOk, Lend;
    var r := s.voters[v];
    assert s.voters[v := r] == s.voters;
    assert RowOk(r);
    if s.dropped == 0.0 {
      SoundIsClean(s, Loss(s), s.voters, s.voters, v);
    }
    WithdrawnRow(r);
    if r.last <= 0.0 {
      ViewSwap(s, -r.last, s.voters, s.voters, v, OldBallot(r), NoBallot(r));
    } else if r.proxy.Some? {
      var q := r.proxy.value;
      ViewSwap(s, 0.0, s.voters, s.voters, v, OldBallot(r), r);
      assert s.(clamped := s.clamped + 0.0) == s;
      LendKeeps(s, q, -r.last, v, OldBallot(r), r, NoBallot(r));
    } else {
      ViewSwap(s, 0.0, s.voters, s.voters, v, OldBallot(r), NoBallot(r));
      assert s.(clamped := s.clamped + 0.0) == s;
    }
  }

  lemma WithdrawnRow(r: Voter)
    requires RowOk(r) && (r.proxy.Some? ==> 0.0 <= r.last)
    ensures r.last <= 0.0 ==> forall p: Name :: Near(CountsFor(OldBallot(r), p), CountsFor(r, p), -r.last)
    ensures 0.0 < r.last ==> forall p: Name :: CountsFor(OldBallot(r), p) == CountsFor(r, p)
    ensures forall q: Name :: Lends(NoBallot(r), q) == Lends(r, q) + if r.proxy == Some(q) then -r.last else 0.0
    ensures r.last <= 0.0 ==> forall q: Name :: Lends(NoBallot(r), q) == Lends(r, q)
  {
  }

  lemma EndorseKeeps(s: State, v: Name, proxy: Option<Name>, nw: real, rp: Voter, rq: Voter, rq': Voter)
    requires Ranked(s) && RowsFine(s) && v in s.voters
    requires proxy.Some? ==> proxy.value in s.voters && s.rank[proxy.value] < s.rank[v]
    requires Sound(s, Loss(s), s.voters[v := rp], s.voters[v := rq])
    requires rq.proxy.None? && rq'.last == nw && rq'.proxy == if 0.0 <= nw then proxy else None
    requires s.dropped == 0.0 ==> CleanRow(s, rp) && CleanRow(s, rq')
    ensures Endorse(s, proxy, nw).Some? ==>
              var s' := Endorse(s, proxy, nw).value;
              && Sound(s', Loss(s'), s'.voters[v := rp], s'.voters[v := rq'])
              && s'.voters[v] == s.voters[v] && s.dropped <= s'.dropped
  {
    hide Sound, SumReal, CleanRow, RowOk, Lend;
    if 0.0 <= nw && proxy.Some? {
      LendKeeps(s, proxy.value, nw, v, rp, rq, rq');
    } else {
      ViewSwap(s, 0.0, s.voters[v := rp], s.voters[v := rq], v, rp, rq');
      assert s.(clamped := s.clamped + 0.0) == s;
      assert s.voters[v := rp][v := rp] == s.voters[v := rp];
      assert s.voters[v := rq][v := rq'] == s.voters[v := rq'];
    }
  }

  // producer_deltas is exactly the difference between the old and the new ballot.
  lemma BallotMatches(s: State, vs: Rows, v: Name, r: Voter, producers: seq<Name>, nw: real, r': Voter)
    requires v in vs
    requires r'.proxy.None? || r'.producers == []
    requires r'.last == nw && r'.producers == GivenTo(producers, nw)
    ensures Matches(s, BallotChanges(r, producers, nw), vs[v := OldBallot(r)], vs[v := r'])
  {
    hide SumReal;
    forall p: Name
      ensures SumReal(VotesFor(vs[v := r'], p))
           == SumReal(VotesFor(vs[v := OldBallot(r)], p)) + RealAt(BallotChanges(r, producers, nw), p)
    {
      VotesForUpdate(vs[v := OldBallot(r)], v, r', p);
      assert vs[v := OldBallot(r)][v := r'] == vs[v := r'];
    }
  }

  // The row itself is written last; what it has been lent stays.
  lemma WriteRow(s: State, v: Name, r: Voter, vp: Rows, vq: Rows)
    requires v in s.voters && r.proxied == s.voters[v].proxied
    requires Sound(s, Loss(s), vp, vq)
    ensures var s' := s.(voters := s.voters[v := r]);
            Sound(s', Loss(s'), vp, vq)
  {
    hide SumReal, IndexOk, CleanRow, Near;
    var s' := s.(voters := s.voters[v := r]);
    IndexIgnoresVoters(s, s');
    CleanIgnoresLosses(s, s');
    assert forall p: Name :: VotesOf(s', p) == VotesOf(s, p);
    assert forall q | q in s'.voters :: s'.voters[q].proxied == s.voters[q].proxied;
  }

  // The row after the vote.
  function NewRow(r: Voter, proxy: Option<Name>, producers: seq<Name>, nw: real): Voter {
    r.(last := nw, producers := producers, proxy := proxy)
  }

  // What of the new row is carried into the tallies.
  function Counted(r: Voter, proxy: Option<Name>, producers: seq<Name>, nw: real): Voter {
    if 0.0 <= nw then NewRow(r, proxy, producers, nw) else Abstaining(r, nw)
  }

  // The last stage: producers' tallies, then the row.
  ghost function Finish(s: State, v: Name, r: Voter, proxy: Option<Name>, producers: seq<Name>, nw: real): State {
    var s4 := ApplyChanges(s, BallotChanges(r, producers, nw), true);
    s4.(voters := s4.voters[v := NewRow(r, proxy, producers, nw)], clamped := s4.clamped + Swallowed(nw))
  }

  lemma FinishKeeps(s: State, v: Name, r: Voter, proxy: Option<Name>, producers: seq<Name>, nw: real)
    requires v in s.voters && s.voters[v] == r && BallotOk(v, proxy, producers) && (proxy.Some? ==> 0.0 <= nw)
    requires Sound(s, Loss(s), s.voters[v := OldBallot(r)], s.voters[v := Counted(r, proxy, producers, nw)])
    requires s.dropped == 0.0 ==> 0.0 <= nw && CleanRow(s, r) && forall p | p in producers :: p in s.producers
    ensures var s' := Finish(s, v, r, proxy, producers, nw);
            && Sound(s', Loss(s'), s'.voters, s'.voters)
            && s'.dropped == s.dropped
  {
    hide SumReal, Sound, ApplyChanges;
    var ds, a := BallotChanges(r, producers, nw), Counted(r, proxy, producers, nw);
    var s4, row := ApplyChanges(s, ds, true), NewRow(r, proxy, producers, nw);
    BallotMatches(s, s.voters, v, r, producers, nw, a);
    if s.dropped == 0.0 {
      SoundIsCleanAll(s, Loss(s), s.voters[v := OldBallot(r)], s.voters[v := a]);
    }
    ApplyKeeps(s, ds, true, Loss(s), s.voters[v := OldBallot(r)], s.voters[v := a], s.voters[v := a]);
    ApplyOnlyClamps(s, ds, true);
    ApplyKeepsStructure(s, ds, true);
    ViewSwap(s4, Swallowed(nw), s.voters[v := a], s.voters[v := a], v, row, row);
    assert s.voters[v := a][v := row] == s.voters[v := row];
    WriteRow(s4.(clamped := s4.clamped + Swallowed(nw)), v, row, s.voters[v := row], s.voters[v := row]);
  }

  lemma SoundIsCleanAll(s: State, e: real, vp: Rows, vq: Rows)
    requires Sound(s, e, vp, vq) && s.dropped == 0.0
    ensures Clean(s, vp) && Clean(s, vq)
  {
  }

  lemma ActivateKeeps(s: State, r: Voter)
    requires Sound(s, Loss(s), s.voters, s.voters)
    ensures Sound(Activate(s, r), Loss(s), s.voters, s.voters)
  {
    hide SumReal, IndexOk, ProducersTallied, ProxiesTallied;
    var s' := Activate(s, r);
    IndexIgnoresVoters(s, s');
    TalliesIgnoreLosses(s, s', Loss(s), s.lent, s.voters, s.voters);
    CleanIgnoresLosses(s, s');
  }

  lemma RerankKeeps(s: State, proxy: Option<Name>, vp: Rows, vq: Rows)
    requires Sound(s, Loss(s), vp, vq)
    ensures Sound(Rerank(s, proxy), Loss(s), vp, vq)
  {
    hide SumReal, IndexOk, ProducersTallied, ProxiesTallied;
    var s' := Rerank(s, proxy);
    IndexIgnoresVoters(s, s');
    TalliesIgnoreLosses(s, s', Loss(s), s.lent, vp, vq);
    CleanIgnoresLosses(s, s');
  }

  // A renewed vote repeats the row's own ballot.
  ghost predicate Renewal(s: State, v: Name, proxy: Option<Name>, producers: seq<Name>) {
    v in s.voters && proxy == s.voters[v].proxy && producers == s.voters[v].producers
  }

  // The table after both proxies have been dealt with.
  ghost predicate MidVote(s: State, v: Name, r: Voter, rq: Voter) {
    && Ranked(s) && RowsFine(s) && v in s.voters && s.voters[v] == r
    && Sound(s, Loss(s), s.voters[v := OldBallot(r)], s.voters[v := rq]) && PlainOk(s)
  }

  lemma WithdrawRefreshes(s: State, r: Voter)
    requires Ranked(s) && (r.proxy.Some? ==> r.proxy.value in s.voters)
    ensures Withdraw(s, r).Some? ==> Refreshed(s, Withdraw(s, r).value)
  {
    hide Lend, Refreshed;
    if r.proxy.Some? { LentRefreshes(s, r.proxy.value, -r.last); }
    if Withdraw(s, r).Some? && (r.last <= 0.0 || r.proxy.None?) { RefreshedSelf(s, Withdraw(s, r).value); }
  }

  lemma EndorseRefreshes(s: State, proxy: Option<Name>, nw: real)
    requires Ranked(s) && (proxy.Some? ==> proxy.value in s.voters)
    ensures Endorse(s, proxy, nw).Some? ==> Refreshed(s, Endorse(s, proxy, nw).value)
  {
    hide Lend, Refreshed;
    if proxy.Some? { LentRefreshes(s, proxy.value, nw); }
    RefreshedSelf(s, s);
  }

  lemma FinishKeepsPlain(s: State, v: Name, r: Voter, proxy: Option<Name>, producers: seq<Name>, nw: real)
    requires PlainOk(s) && (!r.isProxy ==> 0.0 <= nw)
    ensures PlainOk(Finish(s, v, r, proxy, producers, nw))
  {
    hide ApplyChanges;
    ApplyKeepsStructure(s, BallotChanges(r, producers, nw), true);
  }

  lemma LenderIsPlain(s: State, v: Name)
    requires Shape(s) && PlainOk(s) && v in s.voters
    ensures s.voters[v].proxy.Some? ==> 0.0 <= s.voters[v].last
  {
    hide Ranked;
    assert RowOk(s.voters[v]);
  }

  lemma WithdrawStage(s: State, v: Name)
    requires Inv(s) && v in s.voters
    ensures var r := s.voters[v];
            var o := Withdraw(Activate(s, r), r);
            o.Some? ==>
              && MidVote(o.value, v, r, NoBallot(r))
              && s.dropped <= o.value.dropped
              && SameStructure(Activate(s, r), o.value)
  {
    hide Sound, SumReal, SameStructure, RowOk, Refreshed, Withdraw;
    var r := s.voters[v];
    var s0 := Activate(s, r);
    ActivateKeeps(s, r);
    RankedAt(s, v);
    LenderIsPlain(s, v);
    WithdrawKeeps(s0, v);
    WithdrawRefreshes(s0, r);
    var o := Withdraw(s0, r);
    if o.Some? {
      RefreshedKeepsPlain(s0, o.value);
      StructureKeepsOrder(s0, o.value);
      StructureKeepsRows(s0, o.value);
      StructureKeys(s0, o.value);
    }
  }

  lemma StructureKeys(s: State, s': State)
    requires SameStructure(s, s')
    ensures s'.voters.Keys == s.voters.Keys && s'.producers.Keys == s.producers.Keys
    ensures s'.stakeRate == s.stakeRate && s'.now == s.now && s'.rank == s.rank
    ensures s'.producers2.Keys == s.producers2.Keys
    ensures forall v | v in s.voters :: s'.voters[v].proxy == s.voters[v].proxy && s'.voters[v].isProxy == s.voters[v].isProxy
  {
  }

  lemma EndorseStage(s: State, v: Name, r: Voter, proxy: Option<Name>, producers: seq<Name>, nw: real)
    requires MidVote(s, v, r, NoBallot(r)) && BallotOk(v, proxy, producers)
    requires proxy.Some? ==> proxy.value in s.voters && s.rank[proxy.value] < s.rank[v]
    requires s.dropped == 0.0 ==> 0.0 <= nw && CleanRow(s, r) && forall p | p in producers :: p in s.producers
    ensures var o := Endorse(s, proxy, nw);
            o.Some? ==>
              && MidVote(o.value, v, r, Counted(r, proxy, producers, nw))
              && s.dropped <= o.value.dropped
              && SameStructure(s, o.value)
  {
    hide Sound, SumReal, SameStructure, RowOk, Refreshed, Endorse;
    EndorseKeeps(s, v, proxy, nw, OldBallot(r), NoBallot(r), Counted(r, proxy, producers, nw));
    EndorseRefreshes(s, proxy, nw);
    var o := Endorse(s, proxy, nw);
    if o.Some? {
      RefreshedKeepsPlain(s, o.value);
      StructureKeepsOrder(s, o.value);
      StructureKeepsRows(s, o.value);
      StructureKeys(s, o.value);
    }
  }

  lemma StrictlySortedFromSteps(ps: seq<Name>)
    requires forall i | 1 <= i < |ps| :: ps[i - 1] < ps[i]
    ensures StrictlySorted(ps)
  {
    forall i, j | 0 <= i < j < |ps|
      ensures ps[i] < ps[j]
    {
      StepsAscend(ps, i, j);
    }
  }

  lemma {:induction false} StepsAscend(ps: seq<Name>, i: nat, j: nat)
    requires forall k | 1 <= k < |ps| :: ps[k - 1] < ps[k]
    requires i < j < |ps|
    ensures ps[i] < ps[j]
    decreases j - i
  {
    if i + 1 < j {
      StepsAscend(ps, i, j - 1);
    }
  }

  // After the vote the table is again in shape: a new proxy edge points at the bottom.
  lemma VoteKeepsShape(s: State, v: Name, r: Voter, proxy: Option<Name>, producers: seq<Name>, nw: real, s': State)
    requires Ranked(s) && RowsFine(s) && v in s.voters && s.voters[v] == r && BallotOk(v, proxy, producers)
    requires s.producers2.Keys == s.producers.Keys && 0 < s.now
    requires proxy.Some? ==> proxy.value in s.voters && s.rank[proxy.value] < s.rank[v] && !r.isProxy
    requires s' == Finish(s, v, r, proxy, producers, nw)
    ensures Shape(s')
  {
    hide SumReal, ApplyChanges;
    var ds := BallotChanges(r, producers, nw);
    ApplyKeepsStructure(s, ds, true);
    StructureKeys(s, ApplyChanges(s, ds, true));
    if proxy.None? {
      StrictlySortedFromSteps(producers);
    }
    assert RowOk(r);
    forall x | x in s'.voters
      ensures RowOk(s'.voters[x])
    {
      assert x != v ==> s'.voters[x] == s.voters[x] && RowOk(s.voters[x]);
    }
  }

  lemma RerankStage(s: State, s1: State, v: Name, r: Voter, proxy: Option<Name>, producers: seq<Name>, voting: bool)
    requires Shape(s) && (voting || Renewal(s, v, proxy, producers))
    requires MidVote(s1, v, r, NoBallot(r)) && SameStructure(Activate(s, r), s1)
    requires v in s.voters && s.voters[v] == r && BallotOk(v, proxy, producers) && ProxyOk(s, proxy, voting)
    ensures var s2 := if voting then Rerank(s1, proxy) else s1;
            && MidVote(s2, v, r, NoBallot(r))
            && s2 == s1.(rank := s2.rank)
            && (proxy.Some? ==> s2.rank[proxy.value] < s2.rank[v])
  {
    hide Sound, SumReal, Rerank, Ranked, Activate;
    ActivateKeepsTables(s, r);
    if voting {
      assert proxy.Some? ==> RowOk(s.voters[proxy.value]);
      RerankKeepsOrder(s1, proxy);
      RerankPlaces(s1, proxy, v);
      RerankKeeps(s1, proxy, s1.voters[v := OldBallot(r)], s1.voters[v := NoBallot(r)]);
    } else if proxy.Some? {
      RankedAt(s1, v);
    }
  }

  lemma ActivateKeepsTables(s: State, r: Voter)
    ensures Activate(s, r).voters == s.voters && Activate(s, r).rank == s.rank
  {
  }

  lemma RerankPlaces(s: State, proxy: Option<Name>, v: Name)
    requires Ranked(s) && v in s.voters && (proxy.Some? ==> proxy.value in s.voters && proxy.value != v)
    ensures Rerank(s, proxy) == s.(rank := Rerank(s, proxy).rank)
    ensures proxy.Some? ==> Rerank(s, proxy).rank[proxy.value] < Rerank(s, proxy).rank[v]
  {
  }

  lemma FinishStage(s: State, v: Name, r: Voter, proxy: Option<Name>, producers: seq<Name>, nw: real)
    requires MidVote(s, v, r, Counted(r, proxy, producers, nw)) && BallotOk(v, proxy, producers) && 0 < s.now
    requires proxy.Some? ==> proxy.value in s.voters && s.rank[proxy.value] < s.rank[v] && !r.isProxy
    requires !r.isProxy ==> 0.0 <= nw
    requires s.dropped == 0.0 ==> 0.0 <= nw && CleanRow(s, r) && forall p | p in producers :: p in s.producers
    ensures var s' := Finish(s, v, r, proxy, producers, nw);
            Inv(s') && s'.dropped == s.dropped && s'.now == s.now
  {
    hide SumReal, ApplyChanges, PlainOk;
    FinishKeeps(s, v, r, proxy, producers, nw);
    FinishKeepsPlain(s, v, r, proxy, producers, nw);
    VoteKeepsShape(s, v, r, proxy, producers, nw, Finish(s, v, r, proxy, producers, nw));
    ApplyKeepsStructure(s, BallotChanges(r, producers, nw), true);
  }

  lemma SoundSigns(s: State, e: real, vp: Rows, vq: Rows)
    requires Sound(s, e, vp, vq)
    ensures 0.0 <= s.dropped && 0.0 <= s.clamped
  {
  }

  // The new weight and the new ballot, once the old proxy has been dealt with.
  lemma CompleteVoteKeeps(s: State, v: Name, r: Voter, proxy: Option<Name>, producers: seq<Name>, nw: real)
    requires MidVote(s, v, r, NoBallot(r)) && BallotOk(v, proxy, producers) && 0 < s.now
    requires proxy.Some? ==> proxy.value in s.voters && s.rank[proxy.value] < s.rank[v] && !r.isProxy
    requires !r.isProxy ==> 0.0 <= nw
    requires s.dropped == 0.0 ==> 0.0 <= nw && CleanRow(s, r) && forall p | p in producers :: p in s.producers
    ensures var o := CompleteVote(s, v, r, proxy, producers, nw);
            o.Some? ==>
              && Inv(o.value) && s.dropped <= o.value.dropped && o.value.now == s.now
              && v in o.value.voters && o.value.voters[v] == NewRow(r, proxy, producers, nw)
  {
    hide Sound, SumReal, SameStructure, RowOk, Finish, Weight, Endorse, Inv, ApplyChanges;
    SoundSigns(s, Loss(s), s.voters[v := OldBallot(r)], s.voters[v := NoBallot(r)]);
    EndorseStage(s, v, r, proxy, producers, nw);
    var o := Endorse(s, proxy, nw);
    if o.Some? {
      StructureKeys(s, o.value);
      FinishStage(o.value, v, r, proxy, producers, nw);
      FinishWritesRow(o.value, v, r, proxy, producers, nw);
      FinishRow(o.value, v, r, proxy, producers, nw);
    }
  }

  lemma FinishRow(s: State, v: Name, r: Voter, proxy: Option<Name>, producers: seq<Name>, nw: real)
    ensures v in Finish(s, v, r, proxy, producers, nw).voters
    ensures Finish(s, v, r, proxy, producers, nw).voters[v] == NewRow(r, proxy, producers, nw)
  {
  }

  // The old proxy's tally is right again, and the new edge has room in the ranking.
  lemma BeginVoteKeeps(s: State, v: Name, proxy: Option<Name>, producers: seq<Name>, voting: bool)
    requires Inv(s) && (voting || Renewal(s, v, proxy, producers))
    requires v in s.voters && BallotOk(v, proxy, producers) && ProxyOk(s, proxy, voting)
    ensures var r, o := s.voters[v], BeginVote(s, v, proxy, voting);
            o.Some? ==>
              && MidVote(o.value, v, r, NoBallot(r)) && s.dropped <= o.value.dropped
              && o.value.producers.Keys == s.producers.Keys && o.value.now == s.now
              && (proxy.Some? ==> proxy.value in o.value.voters && o.value.rank[proxy.value] < o.value.rank[v])
  {
    hide Sound, SumReal, SameStructure, RowOk, Withdraw, MidVote, BallotOk;
    WithdrawStage(s, v);
    var o := Withdraw(Activate(s, s.voters[v]), s.voters[v]);
    if o.Some? {
      StructureKeys(Activate(s, s.voters[v]), o.value);
      RerankStage(s, o.value, v, s.voters[v], proxy, producers, voting);
    }
  }

  // Only a proxy's weight can be negative.
  lemma UnlentWeight(r: Voter, w: real)
    requires 0 <= r.staked && !r.isProxy && 0.0 < w
    ensures 0.0 <= Weight(r, w)
  {
    assert 0.0 <= w * r.staked as real;
  }

  // What the checks mean for the new weight.
  lemma AllowedMeans(s: State, v: Name, proxy: Option<Name>, producers: seq<Name>, voting: bool)
    requires Inv(s) && Allowed(s, v, proxy, producers, voting)
    ensures 0.0 <= s.dropped
    ensures !s.voters[v].isProxy ==> 0.0 <= Weight(s.voters[v], s.stakeRate)
    ensures s.dropped == 0.0 ==>
              0.0 <= Weight(s.voters[v], s.stakeRate) && CleanRow(s, s.voters[v]) && forall p | p in producers :: p in s.producers
  {
    hide Sound, SumReal, Weight;
    SoundSigns(s, Loss(s), s.voters, s.voters);
    if !s.voters[v].isProxy { UnlentWeight(s.voters[v], s.stakeRate) by { assert RowOk(s.voters[v]); } }
    if s.dropped == 0.0 {
      WeightNonNegative(s, v, Loss(s), s.voters, s.voters);
      SoundIsClean(s, Loss(s), s.voters, s.voters, v);
    }
  }

  /** update_votes keeps every tally, the vote-pay index and the proxy graph, and leaves the voter's
      row with the ballot asked for and today's weight, otherwise as it was. */
  lemma UpdateVotesKeeps(s: State, v: Name, proxy: Option<Name>, producers: seq<Name>, voting: bool)
    requires Inv(s) && (voting || Renewal(s, v, proxy, producers))
    ensures var o := UpdateVotes(s, v, proxy, producers, voting);
            o.Some? ==>
              && Inv(o.value) && s.dropped <= o.value.dropped && o.value.now == s.now
              && v in s.voters && v in o.value.voters
              && o.value.voters[v] == s.voters[v].(last := Weight(s.voters[v], s.stakeRate), producers := producers, proxy := proxy)
  {
    hide Sound, Weight, BeginVote, CompleteVote, MidVote, CleanRow, BallotOk, Ranked, RowOk;
    if Allowed(s, v, proxy, producers, voting) {
      var r := s.voters[v];
      AllowedMeans(s, v, proxy, producers, voting);
      BeginVoteKeeps(s, v, proxy, producers, voting);
      var o := BeginVote(s, v, proxy, voting);
      if o.Some? {
        CleanKeys(s, o.value, r);
        CompleteVoteKeeps(o.value, v, r, proxy, producers, Weight(r, s.stakeRate));
      }
    }
  }

  lemma CleanKeys(s: State, s': State, r: Voter)
    requires s'.producers.Keys == s.producers.Keys
    ensures CleanRow(s', r) == CleanRow(s, r)
  {
  }

  lemma FinishWritesRow(s: State, v: Name, r: Voter, proxy: Option<Name>, producers: seq<Name>, nw: real)
    requires v in s.voters && s.voters[v] == r
    ensures var s4 := ApplyChanges(s, BallotChanges(r, producers, nw), true);
            && v in s4.voters
            && Finish(s, v, r, proxy, producers, nw)
               == s4.(voters := s4.voters[v := s4.voters[v].(last := nw, producers := producers, proxy := proxy)],
                      clamped := s4.clamped + Swallowed(nw))
  {
    hide SumReal;
  }

  // The table after the stake was counted still has every row that withdrawing needs.
  lemma ActivatedFits(s: State, v: Name)
    requires Shape(s) && v in s.voters
    ensures var r, s0 := s.voters[v], Activate(s, s.voters[v]);
            && Ranked(s0) && RowsFine(s0) && s0.voters == s.voters && s0.producers == s.producers && s0.producers2 == s.producers2
            && StrictlySorted(r.producers) && (r.proxy.Some? ==> r.proxy.value in s0.voters)
            && !(r.proxy.Some? && r.isProxy)
  {
    RankedAt(s, v);
    assert RowOk(s.voters[v]);
  }

  // The table with the new stake is in shape.
  lemma StakeFits(s: State, v: Name, delta: int)
    requires Shape(s)
    requires 0 <= (if v in s.voters then s.voters[v].staked else 0) + delta
    ensures var r := if v in s.voters then s.voters[v] else NEW_VOTER;
            Shape(s.(voters := s.voters[v := r.(staked := r.staked + delta)],
                     rank := if v in s.rank then s.rank else s.rank[v := 0]))
  {
    forall x | x in s.voters
      ensures RowOk(s.voters[x])
    {
    }
  }

  // ----- what a vote leaves alone

  // Everybody but v keeps stake, ballot and proxy status; only weights may change.
  ghost predicate OthersKeep(s: State, s': State, v: Name) {
    && s'.voters.Keys == s.voters.Keys
    && forall x | x in s.voters && x != v ::
         s'.voters[x] == s.voters[x].(last := s'.voters[x].last, proxied := s'.voters[x].proxied)
  }

  lemma StructureKeepsOthers(s: State, s': State, v: Name)
    requires SameStructure(s, s')
    ensures OthersKeep(s, s', v)
  {
  }

  lemma OthersKeepOn(s: State, s': State, s'': State, v: Name)
    requires OthersKeep(s, s', v) && OthersKeep(s', s'', v)
    ensures OthersKeep(s, s'', v)
  {
  }

  lemma BeginVoteOthers(s: State, v: Name, proxy: Option<Name>, voting: bool)
    requires Shape(s) && v in s.voters && ProxyOk(s, proxy, voting)
    ensures BeginVote(s, v, proxy, voting).Some? ==> OthersKeep(s, BeginVote(s, v, proxy, voting).value, v)
  {
    hide Withdraw, SameStructure, RowOk, Ranked;
    ActivatedFits(s, v);
    var s0 := Activate(s, s.voters[v]);
    var o := Withdraw(s0, s.voters[v]);
    if o.Some? { StructureKeepsOthers(s0, o.value, v); }
  }

  lemma CompleteVoteOthers(s: State, v: Name, r: Voter, proxy: Option<Name>, producers: seq<Name>, nw: real)
    requires Ranked(s) && v in s.voters && (proxy.Some? ==> proxy.value in s.voters)
    ensures CompleteVote(s, v, r, proxy, producers, nw).Some? ==> OthersKeep(s, CompleteVote(s, v, r, proxy, producers, nw).value, v)
  {
    hide Endorse, ApplyChanges, SameStructure, BallotChanges, Ranked;
    if CompleteVote(s, v, r, proxy, producers, nw).Some? {
      var s1 := Endorse(s, proxy, nw).value;
      StructureKeepsOthers(s, s1, v);
      ApplyKeepsStructure(s1, BallotChanges(r, producers, nw), true);
    }
  }

  /** A vote rewrites one ballot only: everybody else keeps stake, ballot and proxy status. */
  lemma VoteKeepsOthers(s: State, v: Name, proxy: Option<Name>, producers: seq<Name>, voting: bool)
    requires Shape(s)
    ensures var o := UpdateVotes(s, v, proxy, producers, voting);
            o.Some? ==> OthersKeep(s, o.value, v)
  {
    hide BeginVote, CompleteVote, OthersKeep, Weight, RowOk, Ranked, BallotOk, Electable;
    if UpdateVotes(s, v, proxy, producers, voting).Some? {
      var s1 := BeginVote(s, v, proxy, voting).value;
      BeginVoteOthers(s, v, proxy, voting);
      CompleteVoteOthers(s1, v, s.voters[v], proxy, producers, Weight(s.voters[v], s.stakeRate));
      OthersKeepOn(s, s1, UpdateVotes(s, v, proxy, producers, voting).value, v);
    }
  }
}
