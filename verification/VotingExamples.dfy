/** Runs of the vote ledger from its empty state that show what can go wrong, and that the bounds
    of VotingMachine are met.  A book is the part of the ledger the examples follow. */
module VotingExamples {
  import opened Common
  import opened Sums
  import opened Voting
  import opened VotingTallies
  import opened VotingActions
  import opened VotingMachine

  datatype Book = Book(voters: Rows, producers: map<Name, Producer>, now: int, rate: real, dropped: real, lent: real)

  function BookOf(s: State): Book {
    Book(s.voters, s.producers, s.now, s.stakeRate, s.dropped, s.lent)
  }

  // ----- lending where the change goes no further than one row

  function Given(b: Book, q: Name, x: real): Voter
    requires q in b.voters
  {
    b.voters[q].(proxied := b.voters[q].proxied + x)
  }

  predicate CanHop(b: Book, q: Name, x: real) {
    q in b.voters &&
    var r := Given(b, q, x);
    Abs(Weight(r, b.rate) - r.last) <= 1.0 || (r.proxy.None? && forall p | p in r.producers :: p in b.producers)
  }

  ghost function Hop(b: Book, q: Name, x: real): Book
    requires q in b.voters
  {
    var r := Given(b, q, x);
    var w := Weight(r, b.rate);
    var rows := b.voters[q := r.(last := w)];
    if Abs(w - r.last) <= 1.0 then
      b.(voters := rows, dropped := b.dropped + DropOf(r, w), lent := b.lent + if r.proxy.Some? then DropOf(r, w) else 0.0)
    else
      b.(voters := rows, producers := ChangedVotes(b.producers, SameForAll(r.producers, w - r.last), false))
  }

  lemma BookAfterApply(s: State, ds: map<Name, real>, floor: bool)
    ensures BookOf(ApplyChanges(s, ds, floor)) == BookOf(s).(producers := ChangedVotes(s.producers, ds, floor))
  {
    hide ChangedVotes, SumReal;
  }

  lemma AddedRow(s: State, q: Name, x: real)
    requires Ranked(s) && q in s.voters
    ensures var s1 := AddProxied(s, q, x);
            && Ranked(s1) && s1.voters == s.voters[q := Given(BookOf(s), q, x)]
            && BookOf(s1) == BookOf(s).(voters := s1.voters)
  {
  }

  lemma LendIsHop(s: State, q: Name, x: real)
    requires Ranked(s) && CanHop(BookOf(s), q, x)
    ensures Lend(s, q, x).Some? && BookOf(Lend(s, q, x).value) == Hop(BookOf(s), q, x)
  {
    hide Propagate, Weight, ApplyChanges, ChangedVotes, Ranked, DropOf, SameStructure, Abs;
    AddedRow(s, q, x);
    var s1 := AddProxied(s, q, x);
    PropagateCases(s1, q);
    var r := s1.voters[q];
    var w := Weight(r, s.stakeRate);
    assert s1.voters[q := r.(last := w)] == s.voters[q := r.(last := w)];
    if 1.0 < Abs(w - r.last) {
      BookAfterApply(Carry(s1, q), SameForAll(r.producers, w - r.last), false);
    }
  }

  // ----- casting a ballot

  ghost function Withdrawn(b: Book, r: Voter): Book
    requires r.proxy.Some? ==> r.proxy.value in b.voters
  {
    if r.proxy.Some? && 0.0 < r.last then Hop(b, r.proxy.value, -r.last) else b
  }

  ghost predicate CanCast(b: Book, v: Name, proxy: Option<Name>) {
    v in b.voters && (proxy.Some? ==> proxy.value in b.voters) &&
    var r := b.voters[v];
    && (r.proxy.Some? && 0.0 < r.last ==> CanHop(b, r.proxy.value, -r.last))
    && (r.proxy.Some? ==> r.proxy.value in b.voters)
    && (proxy.Some? && 0.0 <= Weight(r, b.rate) ==> CanHop(Withdrawn(b, r), proxy.value, Weight(r, b.rate)))
  }

  ghost function Cast(b: Book, v: Name, proxy: Option<Name>, ps: seq<Name>): Book
    requires CanCast(b, v, proxy)
  {
    var r := b.voters[v];
    var nw := Weight(r, b.rate);
    var b1 := Withdrawn(b, r);
    var b2 := if proxy.Some? && 0.0 <= nw then Hop(b1, proxy.value, nw) else b1;
    b2.(voters := b2.voters[v := b2.voters[v].(last := nw, producers := ps, proxy := proxy)],
        producers := ChangedVotes(b2.producers, BallotChanges(r, ps, nw), true))
  }

  lemma BeginIsWithdrawn(s: State, v: Name, proxy: Option<Name>)
    requires Shape(s) && v in s.voters && ProxyOk(s, proxy, true) && CanCast(BookOf(s), v, proxy)
    ensures var o := BeginVote(s, v, proxy, true);
            o.Some? && BookOf(o.value) == Withdrawn(BookOf(s), s.voters[v])
  {
    hide Lend, Hop, CanHop, Ranked, RowOk, Weight;
    var r := s.voters[v];
    var s0 := Activate(s, r);
    ActivatedFits(s, v);
    assert BookOf(s0) == BookOf(s);
    if r.proxy.Some? && 0.0 < r.last { LendIsHop(s0, r.proxy.value, -r.last); }
  }

  lemma CompleteIsCast(s: State, v: Name, r: Voter, proxy: Option<Name>, ps: seq<Name>, nw: real)
    requires Ranked(s) && v in s.voters && (proxy.Some? ==> proxy.value in s.voters)
    requires proxy.Some? && 0.0 <= nw ==> CanHop(BookOf(s), proxy.value, nw)
    ensures var o := CompleteVote(s, v, r, proxy, ps, nw);
            var b := if proxy.Some? && 0.0 <= nw then Hop(BookOf(s), proxy.value, nw) else BookOf(s);
            && o.Some? && v in b.voters
            && BookOf(o.value) == b.(voters := b.voters[v := b.voters[v].(last := nw, producers := ps, proxy := proxy)],
                                     producers := ChangedVotes(b.producers, BallotChanges(r, ps, nw), true))
  {
    hide Lend, Hop, CanHop, Ranked, ApplyChanges, ChangedVotes, BallotChanges;
    if proxy.Some? && 0.0 <= nw { LendIsHop(s, proxy.value, nw); }
    BookAfterApply(Endorse(s, proxy, nw).value, BallotChanges(r, ps, nw), true);
  }

  lemma VoteIsCast(s: State, v: Name, proxy: Option<Name>, ps: seq<Name>)
    requires Shape(s) && Allowed(s, v, proxy, ps, true) && CanCast(BookOf(s), v, proxy)
    ensures UpdateVotes(s, v, proxy, ps, true).Some?
    ensures BookOf(UpdateVotes(s, v, proxy, ps, true).value) == Cast(BookOf(s), v, proxy, ps)
  {
    hide BeginVote, CompleteVote, Hop, CanHop, Ranked, RowOk, Weight, BallotOk, Electable, ChangedVotes, BallotChanges;
    BeginIsWithdrawn(s, v, proxy);
    var o := BeginVote(s, v, proxy, true);
    CompleteIsCast(o.value, v, s.voters[v], proxy, ps, Weight(s.voters[v], s.stakeRate));
  }

  // ----- changing proxy status

  ghost function Flip(b: Book, v: Name, isProxy: bool): Book
    requires v in b.voters
  {
    Hop(b.(voters := b.voters[v := b.voters[v].(isProxy := isProxy)]), v, 0.0)
  }

  lemma RegProxyIsFlip(s: State, v: Name, isProxy: bool)
    requires Shape(s) && v in s.voters && isProxy != s.voters[v].isProxy && !(isProxy && s.voters[v].proxy.Some?)
    requires CanHop(BookOf(s).(voters := s.voters[v := s.voters[v].(isProxy := isProxy)]), v, 0.0)
    ensures RegProxy(s, v, isProxy).Some? && BookOf(RegProxy(s, v, isProxy).value) == Flip(BookOf(s), v, isProxy)
  {
    hide Propagate, Hop, CanHop, RowOk, Ranked;
    var s1 := s.(voters := s.voters[v := s.voters[v].(isProxy := isProxy)]);
    FlippedRow(s, v, isProxy);
    LendIsHop(s1, v, 0.0);
  }

  lemma FlippedRow(s: State, v: Name, isProxy: bool)
    requires Ranked(s) && v in s.voters
    ensures var s1 := s.(voters := s.voters[v := s.voters[v].(isProxy := isProxy)]);
            Ranked(s1) && AddProxied(s1, v, 0.0) == s1
  {
    var s1 := s.(voters := s.voters[v := s.voters[v].(isProxy := isProxy)]);
    assert AddProxied(s1, v, 0.0).voters == s1.voters;
  }

  // ----- the book's own machine

  ghost predicate BookAllows(b: Book, v: Name, proxy: Option<Name>, ps: seq<Name>) {
    && BallotOk(v, proxy, ps) && v in b.voters && !(proxy.Some? && b.voters[v].isProxy)
    && (proxy.Some? ==> proxy.value in b.voters && b.voters[proxy.value].isProxy)
    && forall p | p in GivenTo(ps, Weight(b.voters[v], b.rate)) :: p in b.producers && b.producers[p].active
  }

  // The action passes its checks, and what it carries goes no further than one row.
  ghost predicate Simple(b: Book, a: Action) {
    match a
    case Vote(v, proxy, ps) => BookAllows(b, v, proxy, ps) && CanCast(b, v, proxy)
    case SetProxy(v, isProxy) =>
      v in b.voters ==>
        && isProxy != b.voters[v].isProxy && !(isProxy && b.voters[v].proxy.Some?)
        && CanHop(b.(voters := b.voters[v := b.voters[v].(isProxy := isProxy)]), v, 0.0)
    case ChangeStake(v, delta) =>
      v != B1 && if v in b.voters then !Backs(b.voters[v]) && 0 <= b.voters[v].staked + delta else 0 <= delta
    case Register(p) => p !in b.producers
    case Unregister(p) => p in b.producers
  }

  ghost function Play(b: Book, a: Action): Book
    requires Simple(b, a)
  {
    match a
    case Vote(v, proxy, ps) => Cast(b, v, proxy, ps)
    case SetProxy(v, isProxy) =>
      if v in b.voters then Flip(b, v, isProxy) else b.(voters := b.voters[v := NEW_VOTER.(isProxy := isProxy)])
    case ChangeStake(v, delta) =>
      var r := if v in b.voters then b.voters[v] else NEW_VOTER;
      b.(voters := b.voters[v := r.(staked := r.staked + delta)])
    case Register(p) => b.(producers := b.producers[p := Producer(0.0, true, b.now)])
    case Unregister(p) => b.(producers := b.producers[p := b.producers[p].(active := false)])
  }

  lemma BookAllowed(s: State, v: Name, proxy: Option<Name>, ps: seq<Name>)
    requires BookAllows(BookOf(s), v, proxy, ps)
    ensures Allowed(s, v, proxy, ps, true)
  {
    hide Weight, BallotOk;
  }

  lemma PlayIsAct(s: State, a: Action)
    requires Shape(s) && Simple(BookOf(s), a)
    ensures Act(s, a).Some? && BookOf(Act(s, a).value) == Play(BookOf(s), a)
  {
    hide UpdateVotes, RegProxy, CanCast, Cast, CanHop, Flip, Hop, Ranked, RowOk, BookAllows, Allowed;
    match a
    case Vote(v, proxy, ps) =>
      BookAllowed(s, v, proxy, ps);
      VoteIsCast(s, v, proxy, ps);
    case SetProxy(v, isProxy) =>
      if v in s.voters { RegProxyIsFlip(s, v, isProxy); } else { NewProxyRow(s, v, isProxy); }
    case ChangeStake(v, delta) =>
    case Register(p) =>
    case Unregister(p) =>
  }

  lemma NewProxyRow(s: State, v: Name, isProxy: bool)
    requires Shape(s) && v !in s.voters
    ensures RegProxy(s, v, isProxy).Some?
    ensures BookOf(RegProxy(s, v, isProxy).value) == BookOf(s).(voters := s.voters[v := NEW_VOTER.(isProxy := isProxy)])
  {
    hide Ranked, RowOk;
  }

  // ----- runs

  // The events are a run from the empty ledger that leaves the book b.
  ghost predicate Leaves(now: int, rate: real, es: seq<Event>, s: State, b: Book) {
    0 < now && 0.0 < rate && IsRun(Genesis(now, rate), es, s) && BookOf(s) == b
  }

  lemma Start(now: int, rate: real)
    requires 0 < now && 0.0 < rate
    ensures Leaves(now, rate, [], Genesis(now, rate), Book(map[], map[], now, rate, 0.0, 0.0))
  {
  }

  ghost function Due(b: Book, e: Event): Book {
    b.(now := e.time, rate := e.rate)
  }

  /** One more event of the list. */
  lemma Step(now: int, rate: real, es: seq<Event>, k: nat, s: State, b: Book) returns (s': State)
    requires k < |es| && Leaves(now, rate, es[..k], s, b)
    requires b.now <= es[k].time && 0.0 < es[k].rate && Simple(Due(b, es[k]), es[k].action)
    ensures Leaves(now, rate, es[..k + 1], s', Play(Due(b, es[k]), es[k].action))
  {
    hide IsRun, Act, Simple, Play, Inv, Shape;
    var e := es[k];
    GenesisInv(now, rate);
    RunKeeps(Genesis(now, rate), es[..k], s);
    TickKeeps(s, e);
    InvIsShape(Tick(s, e));
    RunAppend(Genesis(now, rate), es[..k], s, e);
    assert es[..k + 1] == es[..k] + [e];
    PlayIsAct(Tick(s, e), e.action);
    s' := Next(s, e);
  }

  lemma InvIsShape(s: State)
    requires Inv(s)
    ensures Shape(s)
  {
  }

  lemma {:induction false} RunAppend(s0: State, es: seq<Event>, s: State, e: Event)
    requires IsRun(s0, es, s) && Shape(Tick(s, e)) && Orderly(s, e)
    ensures IsRun(s0, es + [e], Next(s, e))
    decreases |es|
  {
    hide Next, Shape;
    if es == [] {
      assert [e][1..] == [];
    } else {
      RunAppend(Next(s0, es[0]), es[1..], s, e);
      assert (es + [e])[1..] == es[1..] + [e];
    }
  }
}
