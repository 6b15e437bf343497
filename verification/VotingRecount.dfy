/** A run in which one unit of stake counts towards the activation as often as its owner votes. */
module VotingRecount {
  import opened Common
  import opened Voting
  import opened VotingTallies
  import opened VotingMachine
  import opened VotingExamples
  import opened VotingFailures
  import opened VotingActivation

  const HALF_YEAR_ON: int := FIRST_WEEK + 26 * 7 * 24 * 3600 * 1000000

  /** Accounts 3 and 4 lend to 1, and 1 to 2.  Each time one of them leaves, 1's own stake has grown by
      just as much, so 2 hears of neither; and when 1 leaves, 2 gives back 2 more than it got. */
  const RECOUNT_RUN: seq<Event> := [
    Early(SetProxy(1, true)),
    Early(SetProxy(2, true)),
    Early(ChangeStake(3, 1)),
    Early(Vote(3, Some(1), [])),
    Early(ChangeStake(4, 1)),
    Early(Vote(4, Some(1), [])),
    Early(SetProxy(1, false)),
    Early(ChangeStake(1, 2)),
    Early(ChangeStake(2, 1)),
    Early(Vote(1, Some(2), [])),
    Event(HALF_YEAR_ON, 1.5, Vote(3, None, [])),
    Late(Vote(4, None, [])),
    Late(Vote(1, None, [])),
    Late(Vote(2, None, []))]

  function Rows4(a: Voter, b: Voter, c: Voter, d: Voter): Rows {
    map[1 := a, 2 := b, 3 := c, 4 := d]
  }

  const NEWCOMER: Voter := NEW_VOTER.(staked := 1)
  const SINGLE: Voter := Voter(None, [], 1, 3.0, 2.0, true)

  function Left(last: real): Voter {
    Voter(None, [], 1, last, 0.0, false)
  }

  function Onward(last: real, proxied: real): Voter {
    Voter(Some(2), [], 2, last, proxied, false)
  }

  function Lapsed(voters: Rows, now: int, rate: real, lost: real): Book {
    Book(voters, map[], now, rate, lost, lost)
  }

  /** The account whose one unit has no weight, although it votes. */
  const WEIGHTLESS: Voter := Voter(None, [], 1, 0.0, -2.0, true)

  function AtTheEnd(): Book {
    Lapsed(Rows4(Voter(None, [], 2, 4.0, 0.0, false), WEIGHTLESS, Left(1.5), Left(2.0)), YEAR_ON, 2.0, 2.0)
  }

  // ----- the steps

  lemma Lends(rows: Rows, v: Name, x: real)
    requires v != 1 && 1 in rows && rows[1] == IDLE_PROXY.(last := x, proxied := x) && v in rows && rows[v] == NEWCOMER
    ensures var b := EarlyBook(rows);
            && Simple(b, Vote(v, Some(1), []))
            && Play(b, Vote(v, Some(1), []))
               == EarlyBook(rows[1 := IDLE_PROXY.(last := x + 1.0, proxied := x + 1.0)][v := LENDER])
  {
    hide ChangedVotes, BallotChanges;
    assert Weight(rows[v], 1.0) == 1.0;
    assert Weight(IDLE_PROXY.(proxied := x + 1.0), 1.0) == x + 1.0;
    CastAmongVoters(EarlyBook(rows), v, Some(1), []);
  }

  lemma Stops(rows: Rows)
    requires 1 in rows && rows[1] == IDLE_PROXY.(last := 2.0, proxied := 2.0)
    ensures var b := EarlyBook(rows);
            Simple(b, SetProxy(1, false)) && Play(b, SetProxy(1, false)) == EarlyBook(rows[1 := NEW_VOTER.(proxied := 2.0)])
  {
    hide ChangedVotes;
    NobodyToVoteFor(SameForAll([], -2.0), false);
    assert rows[1 := NEW_VOTER.(last := 2.0, proxied := 2.0)][1 := NEW_VOTER.(proxied := 2.0)] == rows[1 := NEW_VOTER.(proxied := 2.0)];
  }

  lemma LendsOn()
    ensures var b := EarlyBook(Rows4(NEW_VOTER.(staked := 2, proxied := 2.0), IDLE_PROXY.(staked := 1), LENDER, LENDER));
            && Simple(b, Vote(1, Some(2), []))
            && Play(b, Vote(1, Some(2), [])) == EarlyBook(Rows4(Onward(2.0, 2.0), SINGLE, LENDER, LENDER))
  {
    hide ChangedVotes, BallotChanges;
    CastAmongVoters(EarlyBook(Rows4(NEW_VOTER.(staked := 2, proxied := 2.0), IDLE_PROXY.(staked := 1), LENDER, LENDER)), 1, Some(2), []);
  }

  // One lender leaves while the stake in between grows by as much.
  lemma LeavesUnheard(rows: Rows, v: Name, now: int, rate: real, lost: real)
    requires 2 < v && 1 in rows && v in rows && rows[v] == LENDER && 0.0 < rate
    requires rows[1] == Onward(2.0 * rate - 1.0, 2.0 - lost)
    ensures var b := Lapsed(rows, now, rate, lost);
            && Simple(b, Vote(v, None, []))
            && Play(b, Vote(v, None, [])) == Lapsed(rows[1 := Onward(2.0 * rate, 1.0 - lost)][v := Left(rate)], now, rate, lost + 1.0)
  {
    hide ChangedVotes, BallotChanges;
    assert Weight(Onward(2.0 * rate - 1.0, 1.0 - lost), rate) == 2.0 * rate;
    assert Weight(LENDER, rate) == rate;
    CastAmongVoters(Lapsed(rows, now, rate, lost), v, None, []);
  }

  lemma TakesBackMore()
    ensures var b := Lapsed(Rows4(Onward(4.0, 0.0), SINGLE, Left(1.5), Left(2.0)), YEAR_ON, 2.0, 2.0);
            Simple(b, Vote(1, None, [])) && Play(b, Vote(1, None, [])) == AtTheEnd()
  {
    hide ChangedVotes, BallotChanges;
    CastAmongVoters(Lapsed(Rows4(Onward(4.0, 0.0), SINGLE, Left(1.5), Left(2.0)), YEAR_ON, 2.0, 2.0), 1, None, []);
  }

  lemma VotesWithoutWeight()
    ensures Simple(AtTheEnd(), Vote(2, None, [])) && Play(AtTheEnd(), Vote(2, None, [])) == AtTheEnd()
  {
    hide ChangedVotes, BallotChanges;
    CastAmongVoters(AtTheEnd(), 2, None, []);
  }

  // ----- the run

  lemma TwoIdle() returns (s: State)
    ensures Leaves(FIRST_WEEK, 1.0, RECOUNT_RUN[..3], s, EarlyBook(map[1 := IDLE_PROXY, 2 := IDLE_PROXY, 3 := NEWCOMER]))
  {
    hide Leaves;
    s := Genesis(FIRST_WEEK, 1.0);
    Start(FIRST_WEEK, 1.0);
    assert RECOUNT_RUN[..0] == [];
    s := Step(FIRST_WEEK, 1.0, RECOUNT_RUN, 0, s, EarlyBook(map[]));
    s := Step(FIRST_WEEK, 1.0, RECOUNT_RUN, 1, s, EarlyBook(map[1 := IDLE_PROXY]));
    s := Step(FIRST_WEEK, 1.0, RECOUNT_RUN, 2, s, EarlyBook(map[1 := IDLE_PROXY, 2 := IDLE_PROXY]));
  }

  lemma TwoLend() returns (s: State)
    ensures Leaves(FIRST_WEEK, 1.0, RECOUNT_RUN[..6], s,
                   EarlyBook(Rows4(IDLE_PROXY.(last := 2.0, proxied := 2.0), IDLE_PROXY, LENDER, LENDER)))
  {
    hide Leaves, Simple, Play, Backs;
    s := TwoIdle();
    var rows: Rows := map[1 := IDLE_PROXY, 2 := IDLE_PROXY, 3 := NEWCOMER];
    Lends(rows, 3, 0.0);
    var lent := rows[1 := IDLE_PROXY.(last := 1.0, proxied := 1.0)][3 := LENDER];
    GiveStake(EarlyBook(lent), 4, 1);
    Lends(lent[4 := NEWCOMER], 4, 1.0);
    s := Step(FIRST_WEEK, 1.0, RECOUNT_RUN, 3, s, EarlyBook(rows));
    s := Step(FIRST_WEEK, 1.0, RECOUNT_RUN, 4, s, EarlyBook(lent));
    s := Step(FIRST_WEEK, 1.0, RECOUNT_RUN, 5, s, EarlyBook(lent[4 := NEWCOMER]));
    assert lent[4 := NEWCOMER][1 := IDLE_PROXY.(last := 2.0, proxied := 2.0)][4 := LENDER]
        == Rows4(IDLE_PROXY.(last := 2.0, proxied := 2.0), IDLE_PROXY, LENDER, LENDER);
  }

  lemma OneStops() returns (s: State)
    ensures Leaves(FIRST_WEEK, 1.0, RECOUNT_RUN[..9], s,
                   EarlyBook(Rows4(NEW_VOTER.(staked := 2, proxied := 2.0), IDLE_PROXY.(staked := 1), LENDER, LENDER)))
  {
    hide Leaves, Simple, Play;
    s := TwoLend();
    var rows := Rows4(IDLE_PROXY.(last := 2.0, proxied := 2.0), IDLE_PROXY, LENDER, LENDER);
    Stops(rows);
    var after := rows[1 := NEW_VOTER.(proxied := 2.0)];
    GiveStake(EarlyBook(after), 1, 2);
    var staked := after[1 := NEW_VOTER.(staked := 2, proxied := 2.0)];
    GiveStake(EarlyBook(staked), 2, 1);
    s := Step(FIRST_WEEK, 1.0, RECOUNT_RUN, 6, s, EarlyBook(rows));
    s := Step(FIRST_WEEK, 1.0, RECOUNT_RUN, 7, s, EarlyBook(after));
    s := Step(FIRST_WEEK, 1.0, RECOUNT_RUN, 8, s, EarlyBook(staked));
    assert staked[2 := IDLE_PROXY.(staked := 1)]
        == Rows4(NEW_VOTER.(staked := 2, proxied := 2.0), IDLE_PROXY.(staked := 1), LENDER, LENDER);
  }

  lemma TwoLeave() returns (s: State)
    ensures Leaves(FIRST_WEEK, 1.0, RECOUNT_RUN[..12], s,
                   Lapsed(Rows4(Onward(4.0, 0.0), SINGLE, Left(1.5), Left(2.0)), YEAR_ON, 2.0, 2.0))
  {
    hide Leaves, Simple, Play, Backs;
    s := OneStops();
    LendsOn();
    var k0 := EarlyBook(Rows4(NEW_VOTER.(staked := 2, proxied := 2.0), IDLE_PROXY.(staked := 1), LENDER, LENDER));
    var k1 := EarlyBook(Rows4(Onward(2.0, 2.0), SINGLE, LENDER, LENDER));
    LeavesUnheard(k1.voters, 3, HALF_YEAR_ON, 1.5, 0.0);
    var rows := k1.voters[1 := Onward(3.0, 1.0)][3 := Left(1.5)];
    LeavesUnheard(rows, 4, YEAR_ON, 2.0, 1.0);
    s := Step(FIRST_WEEK, 1.0, RECOUNT_RUN, 9, s, k0);
    s := Step(FIRST_WEEK, 1.0, RECOUNT_RUN, 10, s, k1);
    s := Step(FIRST_WEEK, 1.0, RECOUNT_RUN, 11, s, Lapsed(rows, HALF_YEAR_ON, 1.5, 1.0));
    assert rows[1 := Onward(4.0, 0.0)][4 := Left(2.0)] == Rows4(Onward(4.0, 0.0), SINGLE, Left(1.5), Left(2.0));
  }

  lemma WeightGone() returns (s: State)
    ensures Leaves(FIRST_WEEK, 1.0, RECOUNT_RUN, s, AtTheEnd())
  {
    hide Leaves, Simple, Play, Backs;
    s := TwoLeave();
    TakesBackMore();
    VotesWithoutWeight();
    s := Step(FIRST_WEEK, 1.0, RECOUNT_RUN, 12, s, Lapsed(Rows4(Onward(4.0, 0.0), SINGLE, Left(1.5), Left(2.0)), YEAR_ON, 2.0, 2.0));
    s := Step(FIRST_WEEK, 1.0, RECOUNT_RUN, 13, s, AtTheEnd());
    assert RECOUNT_RUN[..14] == RECOUNT_RUN;
  }

  // ----- the same vote again and again

  function Again(n: nat): seq<Event> {
    if n == 0 then [] else [Late(Vote(2, None, []))] + Again(n - 1)
  }

  // Its unit counts once more, and nothing else changes.
  lemma OnceMore(s: State)
    requires Inv(s) && Earned(s) && BookOf(s) == AtTheEnd()
    ensures var e := Late(Vote(2, None, []));
            && Orderly(s, e) && Shape(Tick(s, e))
            && Next(s, e).activatedStake == s.activatedStake + 1 && BookOf(Next(s, e)) == AtTheEnd()
  {
    hide Inv, Act, Simple, Play, Shape;
    var e := Late(Vote(2, None, []));
    NextKeeps(s, e);
    InvIsShape(Tick(s, e));
    VotesWithoutWeight();
    PlayIsAct(Tick(s, e), e.action);
    StepActivates(s, e);
  }

  lemma {:induction false} CountsAgain(s: State, n: nat) returns (s': State)
    requires Inv(s) && Earned(s) && BookOf(s) == AtTheEnd()
    ensures IsRun(s, Again(n), s') && s'.voters == s.voters && s'.activatedStake == s.activatedStake + n
    decreases n
  {
    hide Inv, Earned, Next, Shape, AtTheEnd;
    if n == 0 {
      s' := s;
    } else {
      var e := Late(Vote(2, None, []));
      OnceMore(s);
      NextKeeps(s, e);
      StepActivates(s, e);
      s' := CountsAgain(Next(s, e), n - 1);
      assert Again(n)[0] == e && Again(n)[1..] == Again(n - 1);
    }
  }

  /** However often account 2 repeats its vote, its one unit of stake counts each time, while five
      units are all there is. */
  lemma CountsEachTime(n: nat)
    ensures exists s, s': State ::
              && IsRun(Genesis(FIRST_WEEK, 1.0), RECOUNT_RUN, s) && IsRun(s, Again(n), s')
              && s'.activatedStake == s.activatedStake + n
              && s'.voters.Keys == {1, 2, 3, 4} && StakeOf(s', 1) + StakeOf(s', 2) + StakeOf(s', 3) + StakeOf(s', 4) == 5
  {
    hide Inv, IsRun, Earned, RECOUNT_RUN, Again;
    var s := WeightGone();
    GenesisInv(FIRST_WEEK, 1.0);
    RunKeeps(Genesis(FIRST_WEEK, 1.0), RECOUNT_RUN, s);
    assert Earned(Genesis(FIRST_WEEK, 1.0)) by { EmptyEarned(FIRST_WEEK, 1.0); }
    RunActivates(Genesis(FIRST_WEEK, 1.0), RECOUNT_RUN, s);
    var s' := CountsAgain(s, n);
  }

  lemma EmptyEarned(now: int, rate: real)
    ensures Earned(Genesis(now, rate))
  {
  }
}
