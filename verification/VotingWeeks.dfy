/** The rates of stake2vote: a unit of stake doubles its weight every 52 weeks, in weekly steps. */
module VotingWeeks {
  import opened Common
  import opened Sums
  import opened Voting
  import opened VotingMachine
  import opened VotingAborts
  import opened VotingRates
  import opened VotingExactRuns

  // Weeks since the start of the year 2000, as stake2vote counts them; times are in microseconds.
  function Week(time: int): int {
    (time / 1000000 - 946684800) / (7 * 24 * 3600)
  }

  // stake2vote doubles every 52 weeks; c is its growth in one week.
  function Pow(c: real, n: nat): real {
    if n == 0 then 1.0 else c * Pow(c, n - 1)
  }

  lemma {:induction false} PowPositive(c: real, n: nat)
    requires 0.0 < c
    ensures 0.0 < Pow(c, n)
  {
    if n != 0 {
      PowPositive(c, n - 1);
      assert 0.0 < c * Pow(c, n - 1);
    }
  }

  lemma {:induction false} PowPlus(c: real, m: nat, n: nat)
    ensures Pow(c, m + n) == Pow(c, m) * Pow(c, n)
    decreases m
  {
    PowZero(c);
    hide Pow;
    if m == 0 {
      assert 0 + n == n && 1.0 * Pow(c, n) == Pow(c, n);
    } else {
      PowPlus(c, m - 1, n);
      Regroup(c, Pow(c, m - 1), Pow(c, n));
      PowStep(c, m + n);
      PowStep(c, m);
    }
  }

  lemma PowZero(c: real)
    ensures Pow(c, 0) == 1.0
  {
  }

  lemma PowStep(c: real, n: nat)
    requires 0 < n
    ensures Pow(c, n) == c * Pow(c, n - 1)
  {
  }

  lemma Regroup(x: real, y: real, z: real)
    ensures x * (y * z) == x * y * z
  {
  }

  lemma {:induction false} PowGrows(c: real, n: nat)
    requires 1.0 <= c
    ensures 1.0 <= Pow(c, n)
  {
    if n != 0 {
      PowGrows(c, n - 1);
      assert 1.0 <= c * Pow(c, n - 1);
    }
  }

  lemma ProductAtMost(x: real, y: real, a: real, b: real)
    requires 0.0 <= x <= a && 0.0 <= y <= b
    ensures 0.0 <= x * y <= a * b
  {
    assert x * y <= a * y <= a * b;
  }

  lemma PowThree(c: real)
    ensures Pow(c, 3) == c * (c * c)
  {
    assert Pow(c, 1) == c * Pow(c, 0) == c;
    assert Pow(c, 2) == c * Pow(c, 1);
    assert Pow(c, 3) == c * Pow(c, 2);
  }

  lemma ThirteenWeeks(c: real)
    requires 0.0 < c <= 77.0 / 76.0
    ensures 0.0 <= Pow(c, 13) <= 1.1855
  {
    hide Pow;
    PowThree(c);
    ProductAtMost(c, c, 77.0 / 76.0, 77.0 / 76.0);
    ProductAtMost(c, c * c, 77.0 / 76.0, 1.02649);
    PowPlus(c, 3, 3);
    ProductAtMost(Pow(c, 3), Pow(c, 3), 1.04, 1.04);
    PowPlus(c, 6, 6);
    ProductAtMost(Pow(c, 6), Pow(c, 6), 1.0816, 1.0816);
    PowPlus(c, 12, 1);
    PowOne(c);
    ProductAtMost(Pow(c, 12), c, 1.17, 77.0 / 76.0);
  }

  // Doubling in 52 weeks takes more than one part in 76 a week.
  lemma GrowthPerWeek(c: real)
    requires 0.0 < c && Pow(c, 52) == 2.0
    ensures 77.0 / 76.0 < c
  {
    hide Pow;
    if c <= 77.0 / 76.0 {
      ThirteenWeeks(c);
      PowPlus(c, 13, 13);
      ProductAtMost(Pow(c, 13), Pow(c, 13), 1.1855, 1.1855);
      PowPlus(c, 26, 26);
      ProductAtMost(Pow(c, 26), Pow(c, 26), 1.4055, 1.4055);
    }
  }

  lemma PowOne(c: real)
    ensures Pow(c, 1) == c
  {
  }

  // After seven times 52 weeks one unit weighs at least 128.
  lemma WeightAfterSeven(c: real, n: nat)
    requires 1.0 <= c && Pow(c, 52) == 2.0 && 364 <= n
    ensures 128.0 <= Pow(c, n)
  {
    hide Pow;
    PowPlus(c, 52, 52);
    PowPlus(c, 104, 104);
    PowPlus(c, 208, 104);
    PowPlus(c, 312, 52);
    PowPlus(c, 364, n - 364);
    PowGrows(c, n - 364);
  }

  lemma ProductAtLeast(x: real, y: real, a: real, b: real)
    requires 0.0 <= a <= x && 0.0 <= b <= y
    ensures 0.0 <= a * b <= x * y
  {
    assert a * b <= x * b <= x * y;
  }

  // From then on the weights of two different weeks are more than 1 apart.
  lemma WeeksApart(c: real, m: nat, n: nat)
    requires 0.0 < c && Pow(c, 52) == 2.0 && 364 <= m < n
    ensures 1.0 < Pow(c, n) - Pow(c, m)
  {
    hide Pow;
    GrowthPerWeek(c);
    WeightAfterSeven(c, m);
    PowGrows(c, n - m - 1);
    PowStep(c, n - m);
    ProductAtLeast(c, Pow(c, n - m - 1), c, 1.0);
    PowPlus(c, n - m, m);
    ProductAtLeast(Pow(c, n - m), Pow(c, m), 77.0 / 76.0, Pow(c, m));
  }

  // The events carry stake2vote's rates and come after its 364th week, which ended in 2006.
  ghost predicate OnChain(es: seq<Event>, c: real) {
    && 0.0 < c && Pow(c, 52) == 2.0
    && forall i | 0 <= i < |es| :: 364 <= Week(es[i].time) && es[i].rate == Pow(c, Week(es[i].time))
  }

  lemma ChainRatesSpread(es: seq<Event>, c: real)
    requires OnChain(es, c)
    ensures Spread(set i | 0 <= i < |es| :: es[i].rate)
  {
    hide Pow, Week;
    forall i, j | 0 <= i < |es| && 0 <= j < |es| && es[i].rate != es[j].rate
      ensures 1.0 < Abs(es[i].rate - es[j].rate)
    {
      var m, n := Week(es[i].time), Week(es[j].time);
      if m < n {
        WeeksApart(c, m, n);
      } else if n < m {
        WeeksApart(c, n, m);
      }
    }
  }

  /** On a chain whose blocks all come after 2006, the rates being those of stake2vote, a proxy's
      tally is always exactly what is lent to it, no weight is negative, and votes, proxy changes
      and stake changes abort only on the checks they state. */
  lemma ChainRuns(now: int, rate: real, es: seq<Event>, s: State, e: Event, c: real)
    requires 0 < now && 0.0 < rate && IsRun(Genesis(now, rate), es, s) && Orderly(s, e) && OnChain(es, c)
    ensures s.lent == 0.0
    ensures forall q | q in s.voters ::
              s.voters[q].proxied == SumReal(LentTo(s.voters, q)) && 0.0 <= Weight(s.voters[q], s.stakeRate)
    ensures Shape(Tick(s, e)) && (Act(Tick(s, e), e.action).Some? <==> Permitted(Tick(s, e), e.action))
  {
    hide IsRun, Act, Permitted, Spread, Weight, Shape, LentTo, SumReal, OnChain;
    ChainRatesSpread(es, c);
    SpreadRuns(now, rate, es, s, e, set i | 0 <= i < |es| :: es[i].rate);
  }

  /** On such a chain a producer's tally misses at most the changes dropped at rows that vote for it
      themselves. */
  lemma ChainTallies(now: int, rate: real, es: seq<Event>, s: State, c: real, p: Name)
    requires 0 < now && 0.0 < rate && IsRun(Genesis(now, rate), es, s) && OnChain(es, c) && p in s.producers
    ensures Abs(s.producers[p].votes - SumReal(VotesFor(s.voters, p))) <= RunMissed(Genesis(now, rate), es, p)
  {
    hide IsRun, Spread, VotesFor, SumReal, OnChain, RunMissed, Abs;
    ChainRatesSpread(es, c);
    SpreadTallies(now, rate, es, s, set i | 0 <= i < |es| :: es[i].rate, p);
  }
}
