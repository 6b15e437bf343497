/** What drops and negative weights lead to, each shown by a run from the empty ledger. */
module VotingFailures {
  import opened Common
  import opened Sums
  import opened Voting
  import opened VotingChains
  import opened VotingTallies
  import opened VotingMachine
  import opened VotingAborts
  import opened VotingExamples
  import Schedule
  import VotingWeeks

  // stake2vote gives 1 a unit in the first week of 2000 and 2 a unit 52 weeks later.
  const FIRST_WEEK: int := 946684800 * 1000000
  const YEAR_ON: int := FIRST_WEEK + 52 * 7 * 24 * 3600 * 1000000

  function Early(a: Action): Event {
    Event(FIRST_WEEK, 1.0, a)
  }

  function Late(a: Action): Event {
    Event(YEAR_ON, 2.0, a)
  }

  // ----- an accepted vote that aborts nobody but the next voter

  /** Account 3 lends to 1, and 1 to 2.  A year on, 1 does not hear of 3's leaving, since its own
      stake grew by just as much; 2 ends up below zero and may name a producer nobody registered. */
  const ABORT_RUN: seq<Event> := [
    Early(SetProxy(1, true)),
    Early(SetProxy(2, true)),
    Early(ChangeStake(3, 1)),
    Early(Vote(3, Some(1), [])),
    Early(SetProxy(1, false)),
    Early(ChangeStake(1, 1)),
    Early(Vote(1, Some(2), [])),
    Late(Vote(3, None, [])),
    Late(Vote(1, None, [])),
    Late(Vote(2, None, [9]))]

  const IDLE_PROXY: Voter := Voter(None, [], 0, 0.0, 0.0, true)

  function EarlyBook(voters: Rows): Book {
    Book(voters, map[], FIRST_WEEK, 1.0, 0.0, 0.0)
  }

  function LateBook(voters: Rows): Book {
    Book(voters, map[], YEAR_ON, 2.0, 1.0, 1.0)
  }

  function ChainOfThree(): Rows {
    map[1 := Voter(Some(2), [], 1, 1.0, 1.0, false), 2 := Voter(None, [], 0, 1.0, 1.0, true),
        3 := Voter(Some(1), [], 1, 1.0, 0.0, false)]
  }

  function BelowZero(): Rows {
    map[1 := Voter(None, [], 1, 2.0, 0.0, false), 2 := Voter(None, [9], 0, -1.0, -1.0, true),
        3 := Voter(None, [], 1, 2.0, 0.0, false)]
  }

  lemma NobodyToVoteFor(ds: map<Name, real>, floor: bool)
    ensures ChangedVotes(map[], ds, floor) == map[]
  {
  }

  // A vote in a ledger without producers moves weights between rows only.
  lemma CastAmongVoters(b: Book, v: Name, proxy: Option<Name>, ps: seq<Name>)
    requires CanCast(b, v, proxy) && b.producers == map[]
    ensures Cast(b, v, proxy, ps).producers == map[]
  {
    hide ChangedVotes, BallotChanges, CanHop, Weight;
    forall ds, floor
      ensures ChangedVotes(map[], ds, floor) == map[]
    {
      NobodyToVoteFor(ds, floor);
    }
  }

  const LENDER: Voter := Voter(Some(1), [], 1, 1.0, 0.0, false)
  const GONE: Voter := Voter(None, [], 1, 2.0, 0.0, false)

  lemma LendToIdle()
    ensures var b := EarlyBook(map[1 := IDLE_PROXY, 2 := IDLE_PROXY, 3 := NEW_VOTER.(staked := 1)]);
            && Simple(b, Vote(3, Some(1), []))
            && Play(b, Vote(3, Some(1), []))
               == EarlyBook(map[1 := IDLE_PROXY.(last := 1.0, proxied := 1.0), 2 := IDLE_PROXY, 3 := LENDER])
  {
    hide ChangedVotes, BallotChanges;
    CastAmongVoters(EarlyBook(map[1 := IDLE_PROXY, 2 := IDLE_PROXY, 3 := NEW_VOTER.(staked := 1)]), 3, Some(1), []);
  }

  lemma StopBeingProxy()
    ensures var b := EarlyBook(map[1 := IDLE_PROXY.(last := 1.0, proxied := 1.0), 2 := IDLE_PROXY, 3 := LENDER]);
            && Simple(b, SetProxy(1, false))
            && Play(b, SetProxy(1, false))
               == EarlyBook(map[1 := NEW_VOTER.(proxied := 1.0), 2 := IDLE_PROXY, 3 := LENDER])
  {
    hide ChangedVotes;
  }

  lemma LendOnwards()
    ensures var b := EarlyBook(map[1 := NEW_VOTER.(staked := 1, proxied := 1.0), 2 := IDLE_PROXY, 3 := LENDER]);
            && Simple(b, Vote(1, Some(2), [])) && Play(b, Vote(1, Some(2), [])) == EarlyBook(ChainOfThree())
  {
    hide ChangedVotes, BallotChanges;
    CastAmongVoters(EarlyBook(map[1 := NEW_VOTER.(staked := 1, proxied := 1.0), 2 := IDLE_PROXY, 3 := LENDER]), 1, Some(2), []);
  }

  lemma LeaveUnheard()
    ensures var b := EarlyBook(ChainOfThree()).(now := YEAR_ON, rate := 2.0);
            && Simple(b, Vote(3, None, []))
            && Play(b, Vote(3, None, []))
               == LateBook(map[1 := GONE.(proxy := Some(2)), 2 := IDLE_PROXY.(last := 1.0, proxied := 1.0), 3 := GONE])
  {
    hide ChangedVotes, BallotChanges;
    CastAmongVoters(EarlyBook(ChainOfThree()).(now := YEAR_ON, rate := 2.0), 3, None, []);
  }

  lemma LeaveTwice()
    ensures var b := LateBook(map[1 := GONE.(proxy := Some(2)), 2 := IDLE_PROXY.(last := 1.0, proxied := 1.0), 3 := GONE]);
            && Simple(b, Vote(1, None, []))
            && Play(b, Vote(1, None, [])) == LateBook(map[1 := GONE, 2 := IDLE_PROXY.(last := -1.0, proxied := -1.0), 3 := GONE])
  {
    hide ChangedVotes, BallotChanges;
    var b := LateBook(map[1 := GONE.(proxy := Some(2)), 2 := IDLE_PROXY.(last := 1.0, proxied := 1.0), 3 := GONE]);
    CastAmongVoters(b, 1, None, []);
  }

  lemma NameNobody()
    ensures var b := LateBook(map[1 := GONE, 2 := IDLE_PROXY.(last := -1.0, proxied := -1.0), 3 := GONE]);
            && Simple(b, Vote(2, None, [9])) && Play(b, Vote(2, None, [9])) == LateBook(BelowZero())
  {
    hide ChangedVotes, BallotChanges;
    CastAmongVoters(LateBook(map[1 := GONE, 2 := IDLE_PROXY.(last := -1.0, proxied := -1.0), 3 := GONE]), 2, None, [9]);
  }

  lemma BuildProxies() returns (s: State)
    ensures Leaves(FIRST_WEEK, 1.0, ABORT_RUN[..3], s,
                   EarlyBook(map[1 := IDLE_PROXY, 2 := IDLE_PROXY, 3 := NEW_VOTER.(staked := 1)]))
  {
    hide Leaves;
    s := Genesis(FIRST_WEEK, 1.0);
    Start(FIRST_WEEK, 1.0);
    assert ABORT_RUN[..0] == [];
    s := Step(FIRST_WEEK, 1.0, ABORT_RUN, 0, s, EarlyBook(map[]));
    s := Step(FIRST_WEEK, 1.0, ABORT_RUN, 1, s, EarlyBook(map[1 := IDLE_PROXY]));
    s := Step(FIRST_WEEK, 1.0, ABORT_RUN, 2, s, EarlyBook(map[1 := IDLE_PROXY, 2 := IDLE_PROXY]));
  }

  lemma TakeStake()
    ensures var b := EarlyBook(map[1 := NEW_VOTER.(proxied := 1.0), 2 := IDLE_PROXY, 3 := LENDER]);
            && Simple(b, ChangeStake(1, 1))
            && Play(b, ChangeStake(1, 1))
               == EarlyBook(map[1 := NEW_VOTER.(staked := 1, proxied := 1.0), 2 := IDLE_PROXY, 3 := LENDER])
  {
  }

  lemma BuildChain() returns (s: State)
    ensures Leaves(FIRST_WEEK, 1.0, ABORT_RUN[..7], s, EarlyBook(ChainOfThree()))
  {
    s := BuildProxies();
    LendToIdle();
    StopBeingProxy();
    TakeStake();
    LendOnwards();
    hide Leaves, Simple, Play;
    s := Step(FIRST_WEEK, 1.0, ABORT_RUN, 3, s, EarlyBook(map[1 := IDLE_PROXY, 2 := IDLE_PROXY, 3 := NEW_VOTER.(staked := 1)]));
    s := Step(FIRST_WEEK, 1.0, ABORT_RUN, 4, s,
              EarlyBook(map[1 := IDLE_PROXY.(last := 1.0, proxied := 1.0), 2 := IDLE_PROXY, 3 := LENDER]));
    s := Step(FIRST_WEEK, 1.0, ABORT_RUN, 5, s, EarlyBook(map[1 := NEW_VOTER.(proxied := 1.0), 2 := IDLE_PROXY, 3 := LENDER]));
    s := Step(FIRST_WEEK, 1.0, ABORT_RUN, 6, s,
              EarlyBook(map[1 := NEW_VOTER.(staked := 1, proxied := 1.0), 2 := IDLE_PROXY, 3 := LENDER]));
  }

  lemma SinkBelowZero() returns (s: State)
    ensures Leaves(FIRST_WEEK, 1.0, ABORT_RUN, s, LateBook(BelowZero()))
  {
    s := BuildChain();
    LeaveUnheard();
    LeaveTwice();
    NameNobody();
    hide Leaves, Simple, Play;
    s := Step(FIRST_WEEK, 1.0, ABORT_RUN, 7, s, EarlyBook(ChainOfThree()));
    s := Step(FIRST_WEEK, 1.0, ABORT_RUN, 8, s,
              LateBook(map[1 := GONE.(proxy := Some(2)), 2 := IDLE_PROXY.(last := 1.0, proxied := 1.0), 3 := GONE]));
    s := Step(FIRST_WEEK, 1.0, ABORT_RUN, 9, s,
              LateBook(map[1 := GONE, 2 := IDLE_PROXY.(last := -1.0, proxied := -1.0), 3 := GONE]));
    assert ABORT_RUN[..10] == ABORT_RUN;
  }

  // Whoever names account 2 its proxy passes every check and aborts on producer 9.
  lemma LendingAborts(s: State)
    requires Shape(s) && BookOf(s) == LateBook(BelowZero())
    ensures Allowed(s, 3, Some(2), [], true) && UpdateVotes(s, 3, Some(2), [], true).None?
  {
    hide UpdateVotes, Ranked, RowOk;
    assert Weight(s.voters[3], 2.0) == 2.0 && Ripple(s, 2, 2.0) == 2.0;
    assert ChainRest(s, 2, 2.0) == Rest(2, 2.0);
    assert 9 in s.voters[2].producers;
    FirstProxyExact(s, 3, 2);
  }

  /** A vote can abort with "producer not found" on somebody else's ballot: after one dropped change
      a proxy of negative weight has named an unregistered producer, and a voter who meets every
      check cannot name that proxy. */
  lemma AbortAfterDrop()
    ensures exists s: State ::
              && IsRun(Genesis(FIRST_WEEK, 1.0), ABORT_RUN, s) && s.lent == 1.0 && Shape(s)
              && Allowed(s, 3, Some(2), [], true) && UpdateVotes(s, 3, Some(2), [], true).None?
  {
    hide IsRun, UpdateVotes, Allowed, Inv;
    var s := SinkBelowZero();
    GenesisInv(FIRST_WEEK, 1.0);
    RunKeeps(Genesis(FIRST_WEEK, 1.0), ABORT_RUN, s);
    InvIsShape(s);
    LendingAborts(s);
  }

  // The rates of this run are stake2vote's own at its two times.
  lemma RatesAreTrue(c: real)
    requires VotingWeeks.Pow(c, 52) == 2.0
    ensures forall e | e in ABORT_RUN :: e.rate == VotingWeeks.Pow(c, VotingWeeks.Week(e.time))
  {
    hide VotingWeeks.Pow;
    VotingWeeks.PowZero(c);
  }

  // ----- a producer's tally keeps votes that nobody casts any more

  /** Account 1, a proxy with a stake of a, votes for producer 9; account 2 lends it a stake of b at
      the rate w and leaves at the rate w'. */
  function DropRun(now: int, later: int, a: int, b: int, w: real, w': real): seq<Event> {
    [Event(now, w, Register(9)),
     Event(now, w, SetProxy(1, true)),
     Event(now, w, ChangeStake(1, a)),
     Event(now, w, Vote(1, None, [9])),
     Event(now, w, ChangeStake(2, b)),
     Event(now, w, Vote(2, Some(1), [])),
     Event(later, w', Vote(2, None, []))]
  }

  function Tally(votes: real, now: int): map<Name, Producer> {
    map[9 := Producer(votes, true, now)]
  }

  function Proxy(a: int, last: real, proxied: real): Voter {
    Voter(None, [9], a, last, proxied, true)
  }

  function Borrowed(b: int, last: real): Voter {
    Voter(Some(1), [], b, last, 0.0, false)
  }

  lemma TallyAfter(votes: real, now: int, ds: map<Name, real>, floor: bool)
    ensures ChangedVotes(Tally(votes, now), ds, floor)
         == Tally(if 9 !in ds then votes else if floor then Floored(votes + ds[9]) else votes + ds[9], now)
  {
  }

  // The proxy's own ballot.
  lemma ProxyVotes(now: int, w: real, a: int, x: real)
    requires 0.0 < w && 0 <= a && x == Times(w)(a as real)
    ensures var b := Book(map[1 := Voter(None, [], a, 0.0, 0.0, true)], Tally(0.0, now), now, w, 0.0, 0.0);
            && Simple(b, Vote(1, None, [9]))
            && Play(b, Vote(1, None, [9])) == Book(map[1 := Proxy(a, x, 0.0)], Tally(x, now), now, w, 0.0, 0.0)
  {
    hide ChangedVotes, Times;
    var r := Voter(None, [], a, 0.0, 0.0, true);
    UnlentNotNegative(a, w);
    assert Weight(r, w) == x;
    assert BallotChanges(r, [9], x) == map[9 := x];
    TallyAfter(0.0, now, map[9 := x], true);
  }

  lemma UnlentNotNegative(a: int, w: real)
    requires 0 <= a && 0.0 < w
    ensures 0.0 <= Times(w)(a as real)
  {
  }

  // A lender whose weight is more than 1 is heard.
  lemma LenderJoins(now: int, w: real, a: int, b: int, x: real, y: real)
    requires 0.0 < w && x == Times(w)(a as real) && y == Times(w)(b as real) && 1.0 < y
    ensures var k := Book(map[1 := Proxy(a, x, 0.0), 2 := NEW_VOTER.(staked := b)], Tally(x, now), now, w, 0.0, 0.0);
            && Simple(k, Vote(2, Some(1), []))
            && Play(k, Vote(2, Some(1), []))
               == Book(map[1 := Proxy(a, x + y, y), 2 := Borrowed(b, y)], Tally(x + y, now), now, w, 0.0, 0.0)
  {
    hide ChangedVotes, Times;
    var r := NEW_VOTER.(staked := b);
    assert Weight(r, w) == y && BallotChanges(r, [], y) == map[];
    assert Weight(Proxy(a, x, y), w) == x + y;
    assert SameForAll([9], y) == map[9 := y];
    TallyAfter(x, now, map[9 := y], false);
    TallyAfter(x + y, now, map[], true);
  }

  // Its leaving is not, when the proxy's own stake has grown by almost as much.
  lemma LenderLeaves(now: int, later: int, w: real, w': real, a: int, b: int, x: real, y: real)
    requires 0.0 < w' && x == Times(w)(a as real) && y == Times(w)(b as real) && 1.0 < y && 0 <= b
    requires Abs(Times(w')(a as real) - x - y) <= 1.0
    ensures var k := Book(map[1 := Proxy(a, x + y, y), 2 := Borrowed(b, y)], Tally(x + y, now), later, w', 0.0, 0.0);
            var x', y' := Times(w')(a as real), Times(w')(b as real);
            && Simple(k, Vote(2, None, []))
            && Play(k, Vote(2, None, []))
               == Book(map[1 := Proxy(a, x', 0.0), 2 := Voter(None, [], b, y', 0.0, false)], Tally(x + y, now),
                       later, w', Abs(x' - x - y), 0.0)
  {
    hide ChangedVotes, Times;
    var r := Borrowed(b, y);
    assert Weight(Proxy(a, x + y, 0.0), w') == Times(w')(a as real);
    assert BallotChanges(r, [], Weight(r, w')) == map[];
    TallyAfter(x + y, now, map[], true);
  }

  lemma SumOfTwo(m: map<Name, real>, a: Name, b: Name)
    requires m.Keys == {a, b} && a != b
    ensures SumReal(m) == m[a] + m[b]
  {
    hide SumReal;
    RealRemove(m, a);
    assert (m - {a}).Keys == {b};
    RealRemove(m - {a}, b);
    RealZero(m - {a} - {b});
  }

  lemma GiveStake(k: Book, v: Name, b: int)
    requires v != B1
    requires v !in k.voters || (!Backs(k.voters[v]) && k.voters[v].staked == 0)
    requires 0 <= b
    ensures Simple(k, ChangeStake(v, b))
    ensures var r := if v in k.voters then k.voters[v] else NEW_VOTER;
            Play(k, ChangeStake(v, b)) == k.(voters := k.voters[v := r.(staked := b)])
  {
  }

  lemma BuildProxy(now: int, later: int, a: int, b: int, w: real, w': real) returns (s: State)
    requires 0 < now && 0 <= a && 0.0 < w
    ensures Leaves(now, w, DropRun(now, later, a, b, w, w')[..3], s,
                   Book(map[1 := Voter(None, [], a, 0.0, 0.0, true)], Tally(0.0, now), now, w, 0.0, 0.0))
  {
    hide Leaves;
    var es := DropRun(now, later, a, b, w, w');
    s := Genesis(now, w);
    Start(now, w);
    assert es[..0] == [];
    s := Step(now, w, es, 0, s, Book(map[], map[], now, w, 0.0, 0.0));
    s := Step(now, w, es, 1, s, Book(map[], Tally(0.0, now), now, w, 0.0, 0.0));
    var k := Book(map[1 := IDLE_PROXY], Tally(0.0, now), now, w, 0.0, 0.0);
    GiveStake(k, 1, a);
    s := Step(now, w, es, 2, s, k);
    assert map[1 := IDLE_PROXY][1 := IDLE_PROXY.(staked := a)] == map[1 := Voter(None, [], a, 0.0, 0.0, true)];
  }

  lemma BuildBallot(now: int, later: int, a: int, b: int, w: real, w': real) returns (s: State)
    requires 0 < now && 0 <= a && 0 <= b && 0.0 < w
    ensures var x := Times(w)(a as real);
            Leaves(now, w, DropRun(now, later, a, b, w, w')[..5], s,
                   Book(map[1 := Proxy(a, x, 0.0), 2 := NEW_VOTER.(staked := b)], Tally(x, now), now, w, 0.0, 0.0))
  {
    var es := DropRun(now, later, a, b, w, w');
    var x := Times(w)(a as real);
    s := BuildProxy(now, later, a, b, w, w');
    ProxyVotes(now, w, a, x);
    var k := Book(map[1 := Proxy(a, x, 0.0)], Tally(x, now), now, w, 0.0, 0.0);
    GiveStake(k, 2, b);
    hide Leaves, Simple, Play, Times;
    s := Step(now, w, es, 3, s, Book(map[1 := Voter(None, [], a, 0.0, 0.0, true)], Tally(0.0, now), now, w, 0.0, 0.0));
    s := Step(now, w, es, 4, s, k);
    assert k.voters[2 := NEW_VOTER.(staked := b)] == map[1 := Proxy(a, x, 0.0), 2 := NEW_VOTER.(staked := b)];
  }

  lemma BuildLender(now: int, later: int, a: int, b: int, w: real, w': real, x: real, y: real) returns (s: State)
    requires 0 < now && 0 <= a && 0 <= b && 0.0 < w
    requires x == Times(w)(a as real) && y == Times(w)(b as real) && 1.0 < y
    ensures Leaves(now, w, DropRun(now, later, a, b, w, w')[..6], s,
                   Book(map[1 := Proxy(a, x + y, y), 2 := Borrowed(b, y)], Tally(x + y, now), now, w, 0.0, 0.0))
  {
    s := BuildBallot(now, later, a, b, w, w');
    LenderJoins(now, w, a, b, x, y);
    hide Leaves, Simple, Play, Times, Tally;
    s := Step(now, w, DropRun(now, later, a, b, w, w'), 5, s,
              Book(map[1 := Proxy(a, x, 0.0), 2 := NEW_VOTER.(staked := b)], Tally(x, now), now, w, 0.0, 0.0));
  }

  lemma BuildDrop(now: int, later: int, a: int, b: int, w: real, w': real, x: real, y: real) returns (s: State)
    requires 0 < now <= later && 0 <= a && 0 <= b && 0.0 < w && 0.0 < w'
    requires x == Times(w)(a as real) && y == Times(w)(b as real)
    requires 1.0 < y && Abs(Times(w')(a as real) - x - y) <= 1.0
    ensures var x', y' := Times(w')(a as real), Times(w')(b as real);
            Leaves(now, w, DropRun(now, later, a, b, w, w'), s,
                   Book(map[1 := Proxy(a, x', 0.0), 2 := Voter(None, [], b, y', 0.0, false)], Tally(x + y, now),
                        later, w', Abs(x' - x - y), 0.0))
  {
    var es := DropRun(now, later, a, b, w, w');
    s := BuildLender(now, later, a, b, w, w', x, y);
    LenderLeaves(now, later, w, w', a, b, x, y);
    hide Leaves, Simple, Play, Times, Abs, Tally;
    s := Step(now, w, es, 6, s,
              Book(map[1 := Proxy(a, x + y, y), 2 := Borrowed(b, y)], Tally(x + y, now), now, w, 0.0, 0.0));
    assert es[..7] == es;
  }

  /** The bound on a producer's tally is met, for all stakes and rates at which the proxy's growth
      and the lender's leaving differ by at most 1: the producer keeps (a + b) w while the rows add
      up to a w', and the difference is just what was dropped. */
  lemma DropBreaksTally(now: int, later: int, a: int, b: int, w: real, w': real)
    requires 0 < now <= later && 0 <= a && 0 <= b && 0.0 < w && 0.0 < w'
    requires 1.0 < Times(w)(b as real) && Abs(Times(w')(a as real) - Times(w)(a as real) - Times(w)(b as real)) <= 1.0
    ensures exists s: State ::
              && IsRun(Genesis(now, w), DropRun(now, later, a, b, w, w'), s) && 9 in s.producers
              && s.producers[9].votes == Times(w)(a as real) + Times(w)(b as real)
              && SumReal(VotesFor(s.voters, 9)) == Times(w')(a as real)
              && s.dropped == Abs(s.producers[9].votes - SumReal(VotesFor(s.voters, 9)))
  {
    hide SumReal, IsRun, Times, DropRun;
    var s := BuildDrop(now, later, a, b, w, w', Times(w)(a as real), Times(w)(b as real));
    SumOfTwo(VotesFor(s.voters, 9), 1, 2);
  }

  // ----- votes below zero

  /** Two lenders of a proxy without stake are not heard when they come, and then it stops being one:
      producer 9 loses 2 votes it never had, unregisters, and hides producer 8. */
  const NEGATIVE_RUN: seq<Event> := [
    Early(Register(9)),
    Early(SetProxy(1, true)),
    Early(Vote(1, None, [9])),
    Early(ChangeStake(2, 1)),
    Early(Vote(2, Some(1), [])),
    Early(ChangeStake(3, 1)),
    Early(Vote(3, Some(1), [])),
    Early(SetProxy(1, false)),
    Early(Unregister(9)),
    Early(Register(8)),
    Early(ChangeStake(4, 1)),
    Early(Vote(4, None, [8]))]

  function NegativeBook(voters: Rows, votes: real, dropped: real): Book {
    Book(voters, Tally(votes, FIRST_WEEK), FIRST_WEEK, 1.0, dropped, 0.0)
  }

  // Somebody with a stake of 1 names account 1 its proxy, which has no stake and is lent x already.
  lemma Unheard(rows: Rows, v: Name, x: real)
    requires v != 1 && 1 in rows && rows[1] == Proxy(0, x, x) && v in rows && rows[v] == NEW_VOTER.(staked := 1)
    ensures var b := NegativeBook(rows, 0.0, x);
            && Simple(b, Vote(v, Some(1), []))
            && Play(b, Vote(v, Some(1), []))
               == NegativeBook(rows[1 := Proxy(0, x + 1.0, x + 1.0)][v := LENDER], 0.0, x + 1.0)
  {
    hide ChangedVotes;
    assert Weight(rows[v], 1.0) == 1.0 && BallotChanges(rows[v], [], 1.0) == map[];
    assert Weight(Proxy(0, x, x + 1.0), 1.0) == x + 1.0;
    TallyAfter(0.0, FIRST_WEEK, map[], true);
  }

  lemma NegativeStart() returns (s: State)
    ensures Leaves(FIRST_WEEK, 1.0, NEGATIVE_RUN[..2], s, NegativeBook(map[1 := IDLE_PROXY], 0.0, 0.0))
  {
    hide Leaves;
    s := Genesis(FIRST_WEEK, 1.0);
    Start(FIRST_WEEK, 1.0);
    assert NEGATIVE_RUN[..0] == [];
    s := Step(FIRST_WEEK, 1.0, NEGATIVE_RUN, 0, s, Book(map[], map[], FIRST_WEEK, 1.0, 0.0, 0.0));
    s := Step(FIRST_WEEK, 1.0, NEGATIVE_RUN, 1, s, NegativeBook(map[], 0.0, 0.0));
  }

  lemma NegativeBallot() returns (s: State)
    ensures Leaves(FIRST_WEEK, 1.0, NEGATIVE_RUN[..3], s, NegativeBook(map[1 := Proxy(0, 0.0, 0.0)], 0.0, 0.0))
  {
    s := NegativeStart();
    assert Times(1.0)(0.0) == 0.0;
    ProxyVotes(FIRST_WEEK, 1.0, 0, 0.0);
    hide Leaves, Simple, Play, Times, Tally;
    s := Step(FIRST_WEEK, 1.0, NEGATIVE_RUN, 2, s, NegativeBook(map[1 := IDLE_PROXY], 0.0, 0.0));
  }

  lemma NegativeFirst() returns (s: State)
    ensures Leaves(FIRST_WEEK, 1.0, NEGATIVE_RUN[..5], s, NegativeBook(map[1 := Proxy(0, 1.0, 1.0), 2 := LENDER], 0.0, 1.0))
  {
    s := NegativeBallot();
    var rows: Rows := map[1 := Proxy(0, 0.0, 0.0)];
    GiveStake(NegativeBook(rows, 0.0, 0.0), 2, 1);
    var staked := rows[2 := NEW_VOTER.(staked := 1)];
    Unheard(staked, 2, 0.0);
    hide Leaves, Simple, Play, Times, Tally;
    s := Step(FIRST_WEEK, 1.0, NEGATIVE_RUN, 3, s, NegativeBook(rows, 0.0, 0.0));
    s := Step(FIRST_WEEK, 1.0, NEGATIVE_RUN, 4, s, NegativeBook(staked, 0.0, 0.0));
    assert staked[1 := Proxy(0, 1.0, 1.0)][2 := LENDER] == map[1 := Proxy(0, 1.0, 1.0), 2 := LENDER];
  }

  function TwoLenders(r: Voter): Rows {
    map[1 := r, 2 := LENDER, 3 := LENDER]
  }

  lemma NegativeSecond() returns (s: State)
    ensures Leaves(FIRST_WEEK, 1.0, NEGATIVE_RUN[..7], s, NegativeBook(TwoLenders(Proxy(0, 2.0, 2.0)), 0.0, 2.0))
  {
    s := NegativeFirst();
    var rows: Rows := map[1 := Proxy(0, 1.0, 1.0), 2 := LENDER];
    GiveStake(NegativeBook(rows, 0.0, 1.0), 3, 1);
    var staked := rows[3 := NEW_VOTER.(staked := 1)];
    Unheard(staked, 3, 1.0);
    hide Leaves, Simple, Play, Times, Tally;
    s := Step(FIRST_WEEK, 1.0, NEGATIVE_RUN, 5, s, NegativeBook(rows, 0.0, 1.0));
    s := Step(FIRST_WEEK, 1.0, NEGATIVE_RUN, 6, s, NegativeBook(staked, 0.0, 1.0));
    assert staked[1 := Proxy(0, 2.0, 2.0)][3 := LENDER] == TwoLenders(Proxy(0, 2.0, 2.0));
  }

  // It stops being a proxy, and the producer is told of all it never got.
  lemma TakeBack()
    ensures var b := NegativeBook(TwoLenders(Proxy(0, 2.0, 2.0)), 0.0, 2.0);
            && Simple(b, SetProxy(1, false))
            && Play(b, SetProxy(1, false)) == NegativeBook(TwoLenders(Voter(None, [9], 0, 0.0, 2.0, false)), -2.0, 2.0)
  {
    hide ChangedVotes;
    assert SameForAll([9], -2.0) == map[9 := -2.0];
    TallyAfter(0.0, FIRST_WEEK, map[9 := -2.0], false);
    var rows := TwoLenders(Proxy(0, 2.0, 2.0));
    assert rows[1 := Voter(None, [9], 0, 2.0, 2.0, false)][1 := Voter(None, [9], 0, 0.0, 2.0, false)]
        == TwoLenders(Voter(None, [9], 0, 0.0, 2.0, false));
  }

  function TwoProducers(votes: real): map<Name, Producer> {
    map[9 := Producer(-2.0, false, FIRST_WEEK), 8 := Producer(votes, true, FIRST_WEEK)]
  }

  function EndBook(voters: Rows, votes: real): Book {
    Book(voters, TwoProducers(votes), FIRST_WEEK, 1.0, 2.0, 0.0)
  }

  lemma NegativeProducers() returns (s: State)
    ensures Leaves(FIRST_WEEK, 1.0, NEGATIVE_RUN[..10], s, EndBook(TwoLenders(Voter(None, [9], 0, 0.0, 2.0, false)), 0.0))
  {
    s := NegativeSecond();
    TakeBack();
    hide Leaves;
    var rows := TwoLenders(Voter(None, [9], 0, 0.0, 2.0, false));
    s := Step(FIRST_WEEK, 1.0, NEGATIVE_RUN, 7, s, NegativeBook(TwoLenders(Proxy(0, 2.0, 2.0)), 0.0, 2.0));
    s := Step(FIRST_WEEK, 1.0, NEGATIVE_RUN, 8, s, NegativeBook(rows, -2.0, 2.0));
    var inactive := Producer(-2.0, false, FIRST_WEEK);
    assert Tally(-2.0, FIRST_WEEK)[9 := inactive] == map[9 := inactive];
    s := Step(FIRST_WEEK, 1.0, NEGATIVE_RUN, 9, s,
              NegativeBook(rows, -2.0, 2.0).(producers := map[9 := inactive]));
  }

  lemma NewcomerVotes(rows: Rows)
    requires 4 in rows && rows[4] == NEW_VOTER.(staked := 1)
    ensures Simple(EndBook(rows, 0.0), Vote(4, None, [8]))
    ensures Play(EndBook(rows, 0.0), Vote(4, None, [8]))
         == EndBook(rows[4 := Voter(None, [8], 1, 1.0, 0.0, false)], 1.0)
  {
    assert Weight(rows[4], 1.0) == 1.0 && BallotChanges(rows[4], [8], 1.0) == map[8 := 1.0];
    assert ChangedVotes(TwoProducers(0.0), map[8 := 1.0], true) == TwoProducers(1.0);
  }

  lemma NegativeNewcomer() returns (s: State)
    ensures var rows := TwoLenders(Voter(None, [9], 0, 0.0, 2.0, false))[4 := NEW_VOTER.(staked := 1)];
            Leaves(FIRST_WEEK, 1.0, NEGATIVE_RUN[..11], s, EndBook(rows, 0.0))
  {
    s := NegativeProducers();
    var k := EndBook(TwoLenders(Voter(None, [9], 0, 0.0, 2.0, false)), 0.0);
    GiveStake(k, 4, 1);
    hide Leaves, Simple, Play, TwoLenders, TwoProducers;
    s := Step(FIRST_WEEK, 1.0, NEGATIVE_RUN, 10, s, k);
  }

  /** Producers' votes can fall below zero, and then the schedule can come out empty although an
      active producer has votes: the negative one, no longer active, sorts before it. */
  lemma NegativeVotesObstruct()
    ensures exists s: State ::
              && IsRun(Genesis(FIRST_WEEK, 1.0), NEGATIVE_RUN, s)
              && s.producers == TwoProducers(1.0)
              && Schedule.InOrder(s.producers, [9, 8]) && Schedule.Eligible(s.producers[8])
              && Schedule.Elected(s.producers, [9, 8]) == []
  {
    var s := NegativeNewcomer();
    var rows := TwoLenders(Voter(None, [9], 0, 0.0, 2.0, false))[4 := NEW_VOTER.(staked := 1)];
    NewcomerVotes(rows);
    NothingElected();
    hide Leaves, Simple, Play, TwoLenders, TwoProducers, Schedule.InOrder, Schedule.Elected;
    s := Step(FIRST_WEEK, 1.0, NEGATIVE_RUN, 11, s, EndBook(rows, 0.0));
    assert NEGATIVE_RUN[..12] == NEGATIVE_RUN;
    NegativeEnd(s, rows[4 := Voter(None, [8], 1, 1.0, 0.0, false)]);
  }

  lemma NegativeEnd(s: State, rows: Rows)
    requires Leaves(FIRST_WEEK, 1.0, NEGATIVE_RUN, s, EndBook(rows, 1.0))
    ensures IsRun(Genesis(FIRST_WEEK, 1.0), NEGATIVE_RUN, s) && s.producers == TwoProducers(1.0)
  {
    hide IsRun;
  }

  lemma NothingElected()
    ensures var ps := TwoProducers(1.0);
            && Schedule.InOrder(ps, [9, 8]) && Schedule.Eligible(ps[8]) && Schedule.Elected(ps, [9, 8]) == []
  {
  }
}
