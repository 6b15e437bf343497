/** The vote ledger of voting.cpp as a value, and what one action does to it. */
module Voting {
  import opened Common
  import opened Sums

  const THREE_DAYS: int := 3 * 24 * 3600 * 1000000          // microseconds
  const MIN_ACTIVATED_STAKE: int := 1500000000000           // 150,000,000.0000 tokens
  const MIN_ACTIVATED_DATE: int := 1598918400000 * 1000     // microseconds
  const MAX_BALLOT: int := 30
  const MAX_CLAIMABLE: int := 100000000 * 10000              // 100,000,000.0000 tokens
  const VESTING_START: int := 1527811200                     // seconds
  const TEN_YEARS: int := 10 * 52 * 7 * 24 * 3600            // seconds

  // One row of the voters table.
  datatype Voter = Voter(proxy: Option<Name>, producers: seq<Name>, staked: int,
                         last: real, proxied: real, isProxy: bool)

  // One row of the producers table and one of producers2.
  datatype Producer = Producer(votes: real, active: bool, lastClaim: int)
  datatype Producer2 = Producer2(share: real, updated: int)

  /** The tables and global fields, with the block's time and the votes per staked unit that
      stake2vote yields at that time.  The last five are bookkeeping of the model, not of the
      contract: a rank that decreases along every proxy edge, the total size of the weight
      changes dropped as too small, the part of it that was on its way to a proxy, the number of
      such drops, and everything producers' tallies lost by a floor at zero or by skipping a
      negative weight. */
  datatype State = State(
    voters: map<Name, Voter>,
    producers: map<Name, Producer>,
    producers2: map<Name, Producer2>,
    totalWeight: real,
    votepayShare: real,
    changeRate: real,
    shareTime: int,
    activatedStake: int,
    activationTime: int,
    now: int,
    stakeRate: real,
    rank: map<Name, nat>,
    dropped: real,
    lent: real,
    drops: nat,
    clamped: real)

  const NEW_VOTER: Voter := Voter(None, [], 0, 0.0, 0.0, false)

  // ----- what the tallies stand for

  // A row's weight: its stake at today's rate plus, for a proxy, what others lend it.
  function Weight(r: Voter, w: real): real {
    Times(w)(r.staked as real) + if r.isProxy then r.proxied else 0.0
  }

  ghost function VotesFor(vs: map<Name, Voter>, p: Name): map<Name, real> {
    map v | v in vs :: if vs[v].proxy.None? && p in vs[v].producers then vs[v].last else 0.0
  }

  ghost function LentTo(vs: map<Name, Voter>, q: Name): map<Name, real> {
    map v | v in vs :: if vs[v].proxy == Some(q) then vs[v].last else 0.0
  }

  ghost function AllVotes(ps: map<Name, Producer>): map<Name, real> {
    map p | p in ps :: ps[p].votes
  }

  function StakeOf(s: State, a: Name): int {
    if a in s.voters then s.voters[a].staked else 0
  }

  predicate Active(s: State, p: Name) {
    p in s.producers && s.producers[p].active
  }

  // ----- the vote-pay index

  function Seconds(dt: int): real {
    dt as real / 1000000.0
  }

  predicate Crossed(p: Producer, now: int) {
    p.lastClaim + THREE_DAYS <= now
  }

  // The share was last settled after the producer's three days were over.
  predicate Stale(p: Producer, p2: Producer2) {
    p.lastClaim + THREE_DAYS <= p2.updated
  }

  function SettledShare(p: Producer, p2: Producer2, now: int): real {
    p2.share + if !Stale(p, p2) && 0.0 < p.votes && p2.updated < now
               then Times(Seconds(now - p2.updated))(p.votes) else 0.0
  }

  // A share is reset exactly once: at the first settlement past the three days.
  predicate Expires(p: Producer, p2: Producer2, now: int) {
    Crossed(p, now) && !Stale(p, p2)
  }

  function Settle(p: Producer, p2: Producer2, now: int): Producer2 {
    Producer2(if Expires(p, p2, now) then 0.0 else SettledShare(p, p2, now), now)
  }

  function RateChange(p: Producer, p2: Producer2, d: real, now: int): real {
    if !Crossed(p, now) then d else if !Stale(p, p2) then -p.votes else 0.0
  }

  // An amount that may not fall below zero, and what the floor swallowed.
  function Floored(x: real): real { if x < 0.0 then 0.0 else x }
  function Swallowed(x: real): real { if x < 0.0 then -x else 0.0 }

  // Only a negative change can trip a floor.
  function Settled(x: real, d: real): real { if d < 0.0 then Floored(x + d) else x + d }
  function Spilled(x: real, d: real): real { if d < 0.0 then Swallowed(x + d) else 0.0 }

  function Accrued(s: State): real {
    if s.shareTime < s.now then Times(Seconds(s.now - s.shareTime))(s.changeRate) else 0.0
  }

  function UpdateTotalShare(s: State, shares: real, rate: real): State {
    var delta := Accrued(s) + shares;
    s.(votepayShare := Settled(s.votepayShare, delta),
       changeRate := Settled(s.changeRate, rate),
       shareTime := s.now,
       clamped := s.clamped + Spilled(s.votepayShare, delta) + Spilled(s.changeRate, rate))
  }

  // ----- applying vote changes to producers

  ghost function TotalChange(s: State, ds: map<Name, real>): map<Name, real> {
    map p | p in s.producers :: RealAt(ds, p)
  }

  ghost function Losses(s: State, ds: map<Name, real>, floor: bool): map<Name, real> {
    map p | p in s.producers ::
      if floor && p in ds then Swallowed(s.producers[p].votes + ds[p]) else 0.0
  }

  // Votes taken from a name that is not registered are not recorded anywhere.
  ghost function Strays(s: State, ds: map<Name, real>): map<Name, real> {
    map p | p in ds && p !in s.producers :: Abs(ds[p])
  }

  ghost function ExpiredShares(s: State, ds: map<Name, real>): map<Name, real> {
    map p | p in s.producers ::
      if p in ds && p in s.producers2 && Expires(s.producers[p], s.producers2[p], s.now)
      then SettledShare(s.producers[p], s.producers2[p], s.now) else 0.0
  }

  ghost function RateChanges(s: State, ds: map<Name, real>): map<Name, real> {
    map p | p in s.producers ::
      if p in ds && p in s.producers2
      then RateChange(s.producers[p], s.producers2[p], ds[p], s.now) else 0.0
  }

  function NewVotes(p: Producer, d: real, floor: bool): real {
    if floor then Floored(p.votes + d) else p.votes + d
  }

  /** Adds ds[p] to every listed producer's votes, settles that producer's vote-pay share and
      then the global index.  update_votes floors a tally at zero, propagate_weight_change
      does not. */
  ghost function ApplyChanges(s: State, ds: map<Name, real>, floor: bool): State {
    UpdateTotalShare(ChangedRows(s, ds, floor), -SumReal(ExpiredShares(s, ds)), SumReal(RateChanges(s, ds)))
  }

  ghost function ChangedVotes(ps: map<Name, Producer>, ds: map<Name, real>, floor: bool): map<Name, Producer> {
    map p | p in ps :: if p in ds then ps[p].(votes := NewVotes(ps[p], ds[p], floor)) else ps[p]
  }

  ghost function ChangedShares(ps: map<Name, Producer>, ps2: map<Name, Producer2>, ds: map<Name, real>,
                               now: int): map<Name, Producer2> {
    map p | p in ps2 :: if p in ds && p in ps then Settle(ps[p], ps2[p], now) else ps2[p]
  }

  ghost function ChangedRows(s: State, ds: map<Name, real>, floor: bool): State {
    s.(producers := ChangedVotes(s.producers, ds, floor),
       producers2 := ChangedShares(s.producers, s.producers2, ds, s.now),
       totalWeight := s.totalWeight + SumReal(TotalChange(s, ds)),
       clamped := s.clamped + SumReal(Losses(s, ds, floor)) + SumReal(Strays(s, ds)))
  }

  // ----- the proxy graph

  // Every proxy edge leads to a row of smaller rank.
  ghost predicate Ranked(s: State) {
    && s.rank.Keys == s.voters.Keys
    && forall v | v in s.voters && s.voters[v].proxy.Some? ::
         s.voters[v].proxy.value in s.voters && s.rank[s.voters[v].proxy.value] < s.rank[v]
  }

  lemma RankedAt(s: State, v: Name)
    requires Ranked(s) && v in s.voters
    ensures v in s.rank
    ensures s.voters[v].proxy.Some? ==>
              && s.voters[v].proxy.value in s.voters && s.voters[v].proxy.value in s.rank
              && s.rank[s.voters[v].proxy.value] < s.rank[v]
  {
  }

  // The rank to use once somebody may start to point at q: q goes to the bottom.
  ghost function Reranked(rank: map<Name, nat>, q: Name): map<Name, nat> {
    map v | v in rank :: if v == q then 0 else rank[v] + 1
  }

  ghost predicate RowOk(r: Voter) {
    && 0 <= r.staked
    && (r.proxy.Some? ==> r.producers == [] && !r.isProxy)
    && StrictlySorted(r.producers) && |r.producers| <= MAX_BALLOT
  }

  // Structure that every action keeps.
  ghost predicate Shape(s: State) {
    && Ranked(s)
    && (forall v | v in s.voters :: RowOk(s.voters[v]))
    && (forall p | p in s.producers :: 0 < s.producers[p].lastClaim)
    && s.producers2.Keys == s.producers.Keys
    && 0.0 < s.stakeRate && 0 < s.now
  }

  // s' differs from s only in weights, tallies and vote pay.
  ghost predicate SameStructure(s: State, s': State) {
    && s'.voters.Keys == s.voters.Keys
    && (forall v | v in s.voters ::
          s'.voters[v] == s.voters[v].(last := s'.voters[v].last, proxied := s'.voters[v].proxied))
    && s'.producers.Keys == s.producers.Keys && s'.producers2.Keys == s.producers2.Keys
    && (forall p | p in s.producers :: s'.producers[p] == s.producers[p].(votes := s'.producers[p].votes))
    && s'.rank == s.rank && s'.now == s.now && s'.stakeRate == s.stakeRate
    && s'.activatedStake == s.activatedStake && s'.activationTime == s.activationTime
  }

  predicate Backs(r: Voter) {
    r.proxy.Some? || r.producers != []
  }

  ghost function SetLast(s: State, v: Name, x: real): State
    requires v in s.voters
  {
    s.(voters := s.voters[v := s.voters[v].(last := x)])
  }

  ghost function AddProxied(s: State, q: Name, x: real): State
    requires q in s.voters
  {
    s.(voters := s.voters[q := s.voters[q].(proxied := s.voters[q].proxied + x)])
  }

  ghost function SameForAll(ps: seq<Name>, d: real): map<Name, real> {
    map p | p in ps :: d
  }

  lemma StructureKeepsOrder(s: State, s': State)
    requires Ranked(s) && SameStructure(s, s')
    ensures Ranked(s')
  {
  }

  lemma StructureTransitive(s: State, s': State, s'': State)
    requires SameStructure(s, s') && SameStructure(s', s'')
    ensures SameStructure(s, s'')
  {
  }

  lemma ApplyKeepsStructure(s: State, ds: map<Name, real>, floor: bool)
    ensures SameStructure(s, ApplyChanges(s, ds, floor))
    ensures ApplyChanges(s, ds, floor).voters == s.voters
  {
  }

  // The row takes its new weight; a change of more than 1 goes on to the proxy.
  ghost function Carry(s: State, v: Name): State
    requires Ranked(s) && v in s.voters
  {
    var r := s.voters[v];
    var nw := Weight(r, s.stakeRate);
    var s0 := SetLast(s, v, nw);
    if r.proxy.Some? then AddProxied(s0, r.proxy.value, nw - r.last) else s0
  }

  lemma CarryKeepsStructure(s: State, v: Name)
    requires Ranked(s) && v in s.voters
    ensures SameStructure(s, Carry(s, v)) && Ranked(Carry(s, v))
  {
    hide Weight;
  }

  // What somebody misses when r takes the weight x unheard.
  function DropOf(r: Voter, x: real): real {
    if Backs(r) then Abs(x - r.last) else 0.0
  }

  // A change too small to carry: the row takes the weight, nobody else hears of it.
  ghost function Dropped(s: State, v: Name): State
    requires v in s.voters
  {
    var r := s.voters[v];
    var x := Weight(r, s.stakeRate);
    SetLast(s, v, x).(dropped := s.dropped + DropOf(r, x),
                      lent := s.lent + if r.proxy.Some? then DropOf(r, x) else 0.0,
                      drops := s.drops + if DropOf(r, x) != 0.0 then 1 else 0)
  }

  /** Recomputes v's weight and carries the change to its proxy, and on along the chain, or to
      its producers.  A change of at most 1 is not carried, yet the row still takes the new
      weight.  None is an abort: a listed producer is not registered. */
  ghost function Propagate(s: State, v: Name): Option<State>
    requires Ranked(s) && v in s.voters
    decreases s.rank[v]
  {
    var r := s.voters[v];
    var d := Weight(r, s.stakeRate) - r.last;
    if Abs(d) <= 1.0 then
      Some(Dropped(s, v))
    else if r.proxy.Some? then
      CarryKeepsStructure(s, v);
      Propagate(Carry(s, v), r.proxy.value)
    else if forall p | p in r.producers :: p in s.producers then
      Some(ApplyChanges(Carry(s, v), SameForAll(r.producers, d), false))
    else None
  }

  // Only weights changed, no row above v did, and v has the weight x.
  ghost predicate Reached(s: State, s': State, v: Name, x: real)
    requires v in s.voters && s.rank.Keys == s.voters.Keys
  {
    && SameStructure(s, s')
    && (forall y | y in s.voters && s.rank[v] < s.rank[y] :: s'.voters[y] == s.voters[y])
    && s'.voters[v].last == x
  }

  lemma ReachedThroughProxy(s: State, v: Name, s': State, x: real)
    requires Ranked(s) && v in s.voters && s.voters[v].proxy.Some?
    requires Reached(Carry(s, v), s', s.voters[v].proxy.value, x)
    ensures Reached(s, s', v, Weight(s.voters[v], s.stakeRate))
  {
    CarryKeepsStructure(s, v);
    StructureTransitive(s, Carry(s, v), s');
  }

  lemma ReachedProducers(s: State, v: Name, ds: map<Name, real>)
    requires Ranked(s) && v in s.voters && s.voters[v].proxy.None?
    ensures Reached(s, ApplyChanges(Carry(s, v), ds, false), v, Weight(s.voters[v], s.stakeRate))
  {
    CarryKeepsStructure(s, v);
    ApplyKeepsStructure(Carry(s, v), ds, false);
    StructureTransitive(s, Carry(s, v), ApplyChanges(Carry(s, v), ds, false));
  }

  lemma CarryKeepsKeys(s: State, v: Name)
    requires Ranked(s) && v in s.voters
    ensures Carry(s, v).voters.Keys == s.voters.Keys && Carry(s, v).rank == s.rank
    ensures Ranked(Carry(s, v)) && Carry(s, v).producers == s.producers && Carry(s, v).stakeRate == s.stakeRate
  {
    hide Weight;
    CarryKeepsStructure(s, v);
  }

  // The four ways a propagation can go.
  lemma PropagateCases(s: State, v: Name)
    requires Ranked(s) && v in s.voters
    ensures var r, d := s.voters[v], Weight(s.voters[v], s.stakeRate) - s.voters[v].last;
            if Abs(d) <= 1.0 then Propagate(s, v) == Some(Dropped(s, v))
            else if r.proxy.Some? then
              Ranked(Carry(s, v)) && r.proxy.value in Carry(s, v).voters && Carry(s, v).rank == s.rank
              && Propagate(s, v) == Propagate(Carry(s, v), r.proxy.value)
            else if forall p | p in r.producers :: p in s.producers then
              Propagate(s, v) == Some(ApplyChanges(Carry(s, v), SameForAll(r.producers, d), false))
            else Propagate(s, v) == None
  {
    hide ApplyChanges, Weight, Carry, Dropped, Abs, Ranked;
    RankedAt(s, v);
    CarryKeepsKeys(s, v);
  }

  lemma ReachedByDrop(s: State, v: Name)
    requires Ranked(s) && v in s.voters
    ensures Reached(s, Dropped(s, v), v, Weight(s.voters[v], s.stakeRate))
  {
    hide Weight;
  }

  lemma ReachedKeepsOrder(s: State, s': State, v: Name, x: real)
    requires Ranked(s) && v in s.voters && Reached(s, s', v, x)
    ensures Ranked(s') && v in s'.voters && s'.rank == s.rank && s'.voters[v].last == x
  {
    StructureKeepsOrder(s, s');
  }

  /** Propagation changes weights only, reaches no row above v in the proxy graph, and leaves v
      with its new weight. */
  lemma {:induction false} PropagateFrame(s: State, v: Name)
    requires Ranked(s) && v in s.voters
    ensures Propagate(s, v).Some? ==> Reached(s, Propagate(s, v).value, v, Weight(s.voters[v], s.stakeRate))
    ensures Propagate(s, v).Some? ==> Ranked(Propagate(s, v).value)
    decreases s.rank[v]
  {
    hide Propagate, Weight, ApplyChanges, Reached, SameStructure, Ranked, Carry, Dropped, Abs;
    RankedAt(s, v);
    PropagateCases(s, v);
    var r := s.voters[v];
    if Propagate(s, v).Some? {
      var s', d := Propagate(s, v).value, Weight(r, s.stakeRate) - r.last;
      if Abs(d) <= 1.0 {
        ReachedByDrop(s, v);
      } else if r.proxy.Some? {
        PropagateFrame(Carry(s, v), r.proxy.value);
        ReachedKeepsOrder(Carry(s, v), s', r.proxy.value, Weight(Carry(s, v).voters[r.proxy.value], Carry(s, v).stakeRate));
        ReachedThroughProxy(s, v, s', s'.voters[r.proxy.value].last);
      } else {
        ReachedProducers(s, v, SameForAll(r.producers, d));
      }
      ReachedKeepsOrder(s, s', v, Weight(r, s.stakeRate));
    }
  }

  // ----- casting a vote

  predicate BallotOk(v: Name, proxy: Option<Name>, producers: seq<Name>) {
    if proxy.Some? then
      producers == [] && v != proxy.value
    else
      |producers| <= MAX_BALLOT && forall i | 1 <= i < |producers| :: producers[i - 1] < producers[i]
  }

  // The first vote of an account counts its stake towards activating the chain.
  function Activate(s: State, r: Voter): State {
    if s.activationTime == 0 then
      var total := s.activatedStake + if r.last <= 0.0 then r.staked else 0;
      s.(activatedStake := total,
         activationTime := if MIN_ACTIVATED_STAKE <= total && MIN_ACTIVATED_DATE <= s.now then s.now else 0)
    else s
  }

  // Adds x to what q has been lent and passes q's new weight on.
  ghost function Lend(s: State, q: Name, x: real): (o: Option<State>)
    requires Ranked(s) && q in s.voters
    ensures o.Some? ==> SameStructure(s, o.value) && Ranked(o.value)
    ensures o.Some? ==> forall v | v in s.voters && s.rank[q] < s.rank[v] :: o.value.voters[v] == s.voters[v]
  {
    var s1 := AddProxied(s, q, x);
    assert SameStructure(s, s1);
    StructureKeepsOrder(s, s1);
    PropagateFrame(s1, q);
    var o := Propagate(s1, q);
    assert o.Some? ==> SameStructure(s, o.value) by {
      if o.Some? { StructureTransitive(s, s1, o.value); }
    }
    o
  }

  // Takes the old weight back from the old proxy; a weight of zero or less is not taken back.
  ghost function Withdraw(s: State, r: Voter): (o: Option<State>)
    requires Ranked(s)
    requires r.proxy.Some? ==> r.proxy.value in s.voters
    ensures o.Some? ==> SameStructure(s, o.value)
  {
    if r.last <= 0.0 then Some(s.(clamped := s.clamped - r.last))
    else if r.proxy.Some? then Lend(s, r.proxy.value, -r.last)
    else Some(s)
  }

  // Gives the new weight to the new proxy; a negative weight is not given.
  ghost function Endorse(s: State, proxy: Option<Name>, nw: real): (o: Option<State>)
    requires Ranked(s)
    requires proxy.Some? ==> proxy.value in s.voters
    ensures o.Some? ==> SameStructure(s, o.value)
  {
    if 0.0 <= nw && proxy.Some? then Lend(s, proxy.value, nw) else Some(s)
  }

  // The producers the old weight is taken from, and those the new weight goes to.
  function TakenFrom(r: Voter): seq<Name> {
    if 0.0 < r.last && r.proxy.None? then r.producers else []
  }

  function GivenTo(producers: seq<Name>, nw: real): seq<Name> {
    if 0.0 <= nw then producers else []
  }

  ghost function BallotChanges(r: Voter, producers: seq<Name>, nw: real): map<Name, real> {
    map p | p in TakenFrom(r) + GivenTo(producers, nw) ::
      (if p in TakenFrom(r) then -r.last else 0.0) + (if p in GivenTo(producers, nw) then nw else 0.0)
  }

  // Weight goes only to registered producers and, in a fresh vote, only to active ones.
  ghost predicate Electable(s: State, producers: seq<Name>, voting: bool) {
    forall p | p in producers :: p in s.producers && (voting ==> s.producers[p].active)
  }

  // A fresh vote may name only a registered proxy.
  ghost predicate ProxyOk(s: State, proxy: Option<Name>, voting: bool) {
    proxy.Some? ==> proxy.value in s.voters && (voting ==> s.voters[proxy.value].isProxy)
  }

  ghost function Rerank(s: State, proxy: Option<Name>): State {
    if proxy.Some? then s.(rank := Reranked(s.rank, proxy.value)) else s
  }

  lemma RerankKeepsOrder(s: State, proxy: Option<Name>)
    requires Ranked(s)
    requires proxy.Some? ==> proxy.value in s.voters && s.voters[proxy.value].proxy.None?
    ensures Ranked(Rerank(s, proxy))
  {
  }

  // The checks update_votes makes.
  ghost predicate Allowed(s: State, v: Name, proxy: Option<Name>, producers: seq<Name>, voting: bool) {
    && BallotOk(v, proxy, producers) && v in s.voters && !(proxy.Some? && s.voters[v].isProxy)
    && ProxyOk(s, proxy, voting) && Electable(s, GivenTo(producers, Weight(s.voters[v], s.stakeRate)), voting)
  }

  // First half: the old proxy, if any, loses the old weight.
  ghost function BeginVote(s: State, v: Name, proxy: Option<Name>, voting: bool): (o: Option<State>)
    requires Shape(s) && v in s.voters && ProxyOk(s, proxy, voting)
    ensures o.Some? ==> Ranked(o.value) && o.value.voters.Keys == s.voters.Keys
  {
    var o := Withdraw(Activate(s, s.voters[v]), s.voters[v]);
    if o.None? then None
    else if voting then
      assert proxy.Some? ==> RowOk(s.voters[proxy.value]);
      RerankKeepsOrder(o.value, proxy);
      Some(Rerank(o.value, proxy))
    else o
  }

  // Second half: the new proxy or the producers gain, and the row is written.
  ghost function CompleteVote(s: State, v: Name, r: Voter, proxy: Option<Name>, producers: seq<Name>,
                              nw: real): Option<State>
    requires Ranked(s) && v in s.voters && (proxy.Some? ==> proxy.value in s.voters)
  {
    var o := Endorse(s, proxy, nw);
    if o.None? then None else
    var s' := ApplyChanges(o.value, BallotChanges(r, producers, nw), true);
    Some(s'.(voters := s'.voters[v := s'.voters[v].(last := nw, producers := producers, proxy := proxy)],
             clamped := s'.clamped + Swallowed(nw)))
  }

  /** update_votes.  None is an aborted transaction. */
  ghost function UpdateVotes(s: State, v: Name, proxy: Option<Name>, producers: seq<Name>, voting: bool): Option<State>
    requires Shape(s)
  {
    if !Allowed(s, v, proxy, producers, voting) then None else
    var o := BeginVote(s, v, proxy, voting);
    if o.None? then None else
    CompleteVote(o.value, v, s.voters[v], proxy, producers, Weight(s.voters[v], s.stakeRate))
  }

  /** regproxy. */
  ghost function RegProxy(s: State, v: Name, isProxy: bool): Option<State>
    requires Shape(s)
  {
    if v !in s.voters then
      Some(s.(voters := s.voters[v := NEW_VOTER.(isProxy := isProxy)], rank := s.rank[v := 0]))
    else if isProxy == s.voters[v].isProxy || (isProxy && s.voters[v].proxy.Some?) then None
    else
      Propagate(s.(voters := s.voters[v := s.voters[v].(isProxy := isProxy)]), v)
  }

  // What b1 may have unstaked by now, truncated towards zero.
  function Claimable(now: int): int {
    var x := MAX_CLAIMABLE * (now / 1000000 - VESTING_START);
    if 0 <= x then x / TEN_YEARS else -(-x / TEN_YEARS)
  }

  // The account b1 must keep what is not yet claimable; nobody else is bound.
  predicate Vested(v: Name, stake: int, now: int) {
    v == B1 ==> MAX_CLAIMABLE - Claimable(now) <= stake
  }

  /** update_voting_power: v's stake changes by delta and its votes follow. */
  ghost function UpdateVotingPower(s: State, v: Name, delta: int): Option<State>
    requires Shape(s)
  {
    var r := if v in s.voters then s.voters[v] else NEW_VOTER;
    if r.staked + delta < 0 || !Vested(v, r.staked + delta, s.now) then None else
    var s1 := s.(voters := s.voters[v := r.(staked := r.staked + delta)],
                 rank := if v in s.rank then s.rank else s.rank[v := 0]);
    assert Shape(s1) by {
      assert forall x | x in s.voters :: RowOk(s.voters[x]);
    }
    if Backs(r) then UpdateVotes(s1, v, r.proxy, r.producers, false) else Some(s1)
  }

  /** register_producer, once the self-stake check has passed. */
  ghost function RegisterProducer(s: State, p: Name): State {
    if p in s.producers then
      var row := s.producers[p];
      var s1 := s.(producers := s.producers[p := row.(active := true, lastClaim := if row.lastClaim == 0 then s.now else row.lastClaim)]);
      if p in s.producers2 then s1
      else UpdateTotalShare(s1.(producers2 := s.producers2[p := Producer2(0.0, s.now)]), 0.0, row.votes)
    else
      s.(producers := s.producers[p := Producer(0.0, true, s.now)],
         producers2 := s.producers2[p := Producer2(0.0, s.now)])
  }

  /** unregprod and rmvproducer. */
  ghost function Deactivate(s: State, p: Name): Option<State> {
    if p in s.producers then Some(s.(producers := s.producers[p := s.producers[p].(active := false)])) else None
  }
}
