/** The lazily settled vote-pay index of voting.cpp is the eager sum over producers. */
module VotingIndex {
  import opened Common
  import opened Sums
  import opened Voting

  // ----- the vote-pay index

  // A producer's votes count towards the global rate while it is live.
  function Live(p: Producer, p2: Producer2): real {
    if Stale(p, p2) then 0.0 else p.votes
  }

  // What the share would be if it were settled at time t.
  function Due(p: Producer, p2: Producer2, t: int): real {
    p2.share + Times(Seconds(t - p2.updated))(Live(p, p2))
  }

  ghost function Rates(s: State): map<Name, real> {
    map p | p in s.producers :: if p in s.producers2 then Live(s.producers[p], s.producers2[p]) else 0.0
  }

  ghost function DueShares(s: State, t: int): map<Name, real> {
    map p | p in s.producers :: if p in s.producers2 then Due(s.producers[p], s.producers2[p], t) else 0.0
  }

  predicate ShareOk(p: Producer, p2: Producer2, shareTime: int, now: int) {
    && 0 < p.lastClaim && 0.0 <= p.votes && 0.0 <= p2.share && p2.updated <= now
    && (Stale(p, p2) ==> p2.share == 0.0)
    && (!Stale(p, p2) && p.votes != 0.0 ==> p2.updated <= shareTime)
  }

  ghost predicate RowsOk(s: State) {
    && s.shareTime <= s.now
    && s.producers2.Keys == s.producers.Keys
    && forall p | p in s.producers :: ShareOk(s.producers[p], s.producers2[p], s.shareTime, s.now)
  }

  /** The lazily kept rate and share total are the eager sums over producers. */
  ghost predicate IndexOk(s: State) {
    && s.changeRate == SumReal(Rates(s))
    && s.votepayShare == SumReal(DueShares(s, s.shareTime))
    && RowsOk(s)
  }

  lemma TimesSplits(a: int, b: int, c: int, x: real)
    ensures Times(Seconds(c - a))(x) == Times(Seconds(b - a))(x) + Times(Seconds(c - b))(x)
  {
    assert Seconds(c - a) == Seconds(b - a) + Seconds(c - b);
    assert Seconds(c - a) * x == Seconds(b - a) * x + Seconds(c - b) * x;
  }

  lemma TimesSign(dt: int, x: real)
    requires 0 <= dt && 0.0 <= x
    ensures 0.0 <= Times(Seconds(dt))(x)
  {
  }

  lemma TimesZero(dt: int, x: real)
    requires dt == 0 || x == 0.0
    ensures Times(Seconds(dt))(x) == 0.0
  {
  }

  // ----- one producer over one round of changes

  // The part of the global total that a settlement removes for good.
  function Expired(p: Producer, p2: Producer2, now: int): real {
    if Expires(p, p2, now) then SettledShare(p, p2, now) else 0.0
  }

  lemma SettledIsDue(p: Producer, p2: Producer2, t: int, now: int)
    requires ShareOk(p, p2, t, now)
    ensures SettledShare(p, p2, now) == Due(p, p2, now)
    ensures 0.0 <= Due(p, p2, now)
  {
    if Live(p, p2) == 0.0 || p2.updated == now {
      TimesZero(now - p2.updated, Live(p, p2));
    } else {
      TimesSign(now - p2.updated, Live(p, p2));
    }
  }

  // A producer whose votes change by d: its share, its rate and what it loses balance.
  lemma RowSettles(p: Producer, p2: Producer2, d: real, t: int, now: int)
    requires ShareOk(p, p2, t, now) && 0.0 <= p.votes + d && t <= now
    ensures var p', p2' := p.(votes := p.votes + d), Settle(p, p2, now);
            && Live(p', p2') == Live(p, p2) + RateChange(p, p2, d, now)
            && Due(p', p2', now) + Expired(p, p2, now) == Due(p, p2, t) + Times(Seconds(now - t))(Live(p, p2))
            && ShareOk(p', p2', now, now)
  {
    var p', p2' := p.(votes := p.votes + d), Settle(p, p2, now);
    SettledIsDue(p, p2, t, now);
    TimesSplits(p2.updated, t, now, Live(p, p2));
    TimesZero(now - now, Live(p', p2'));
  }

  // A producer that is not touched: only time passes.
  lemma RowAges(p: Producer, p2: Producer2, t: int, now: int)
    requires ShareOk(p, p2, t, now) && t <= now
    ensures Due(p, p2, now) == Due(p, p2, t) + Times(Seconds(now - t))(Live(p, p2))
    ensures ShareOk(p, p2, now, now) && 0.0 <= Due(p, p2, now)
  {
    SettledIsDue(p, p2, t, now);
    TimesSplits(p2.updated, t, now, Live(p, p2));
  }

  // ----- the global index after one round of changes

  // Nothing is lost when every name is registered and every new tally is non-negative.
  ghost predicate NoLoss(s: State, ds: map<Name, real>) {
    forall p | p in ds :: p in s.producers && 0.0 <= s.producers[p].votes + ds[p]
  }

  ghost function Accruals(s: State): map<Name, real> {
    map p | p in s.producers :: Times(Seconds(s.now - s.shareTime))(RealAt(Rates(s), p))
  }

  lemma AccrualsSum(s: State)
    requires s.changeRate == SumReal(Rates(s))
    ensures SumReal(Accruals(s)) == Times(Seconds(s.now - s.shareTime))(s.changeRate)
  {
    TimesIsAdditive(Seconds(s.now - s.shareTime));
    RealMap(Rates(s), Times(Seconds(s.now - s.shareTime)), Accruals(s));
  }

  lemma AccruedIsProduct(s: State)
    requires s.shareTime <= s.now
    ensures Accrued(s) == Times(Seconds(s.now - s.shareTime))(s.changeRate)
  {
    if s.shareTime == s.now {
      TimesZero(0, s.changeRate);
    }
  }

  // A producer's rows after the round.
  ghost function NextRow(s: State, ds: map<Name, real>, p: Name): Producer
    requires p in s.producers
  {
    s.producers[p].(votes := s.producers[p].votes + RealAt(ds, p))
  }

  ghost function NextRow2(s: State, ds: map<Name, real>, p: Name): Producer2
    requires p in s.producers && p in s.producers2
  {
    if p in ds then Settle(s.producers[p], s.producers2[p], s.now) else s.producers2[p]
  }

  lemma ChangedRowsAre(s: State, ds: map<Name, real>, floor: bool, p: Name)
    requires NoLoss(s, ds) && p in s.producers && p in s.producers2
    ensures ChangedRows(s, ds, floor).producers[p] == NextRow(s, ds, p)
    ensures ChangedRows(s, ds, floor).producers2[p] == NextRow2(s, ds, p)
  {
  }

  // One producer's balance, read off the tables.
  lemma RowBalance(s: State, ds: map<Name, real>, p: Name)
    requires p in s.producers && p in s.producers2 && s.shareTime <= s.now
    requires ShareOk(s.producers[p], s.producers2[p], s.shareTime, s.now)
    requires 0.0 <= s.producers[p].votes + RealAt(ds, p)
    ensures var row, row2, row', row2' := s.producers[p], s.producers2[p], NextRow(s, ds, p), NextRow2(s, ds, p);
            && Live(row', row2') == Live(row, row2) + RateChanges(s, ds)[p]
            && Due(row', row2', s.now) + ExpiredShares(s, ds)[p]
               == Due(row, row2, s.shareTime) + Times(Seconds(s.now - s.shareTime))(Live(row, row2))
            && ShareOk(row', row2', s.now, s.now)
            && 0.0 <= Due(row', row2', s.now)
  {
    var row, row2 := s.producers[p], s.producers2[p];
    if p in ds {
      RowSettles(row, row2, ds[p], s.shareTime, s.now);
      SettledIsDue(NextRow(s, ds, p), NextRow2(s, ds, p), s.now, s.now);
    } else {
      RowAges(row, row2, s.shareTime, s.now);
    }
  }

  lemma RateRow(s: State, ds: map<Name, real>, floor: bool, p: Name)
    requires RowsOk(s) && NoLoss(s, ds) && p in s.producers
    ensures Rates(ChangedRows(s, ds, floor))[p] == Rates(s)[p] + RateChanges(s, ds)[p]
    ensures 0.0 <= Rates(ChangedRows(s, ds, floor))[p]
  {
    ChangedRowsAre(s, ds, floor, p);
    RowBalance(s, ds, p);
  }

  lemma DueRow(s: State, ds: map<Name, real>, floor: bool, p: Name)
    requires RowsOk(s) && NoLoss(s, ds) && p in s.producers
    ensures DueShares(ChangedRows(s, ds, floor), s.now)[p] + ExpiredShares(s, ds)[p]
         == DueShares(s, s.shareTime)[p] + Accruals(s)[p]
    ensures 0.0 <= DueShares(ChangedRows(s, ds, floor), s.now)[p]
  {
    hide Due, Times, ChangedRows, NextRow, NextRow2;
    ChangedRowsAre(s, ds, floor, p);
    RoundFields(s, ds, floor);
    assert ShareOk(s.producers[p], s.producers2[p], s.shareTime, s.now);
    RowBalance(s, ds, p);
  }

  lemma RatesBalance(s: State, ds: map<Name, real>, floor: bool)
    requires RowsOk(s) && NoLoss(s, ds)
    ensures SumReal(Rates(ChangedRows(s, ds, floor))) == SumReal(Rates(s)) + SumReal(RateChanges(s, ds))
    ensures 0.0 <= SumReal(Rates(ChangedRows(s, ds, floor)))
  {
    var before, changes, rates := Rates(s), RateChanges(s, ds), Rates(ChangedRows(s, ds, floor));
    assert before.Keys == s.producers.Keys && changes.Keys == s.producers.Keys && rates.Keys == s.producers.Keys;
    forall p | p in before
      ensures rates[p] == before[p] + changes[p] && 0.0 <= rates[p]
    {
      RateRow(s, ds, floor, p);
    }
    RealPlus(before, changes, rates);
    RealNonNegative(rates);
  }

  lemma DuesBalance(s: State, ds: map<Name, real>, floor: bool)
    requires RowsOk(s) && NoLoss(s, ds)
    ensures SumReal(DueShares(ChangedRows(s, ds, floor), s.now)) + SumReal(ExpiredShares(s, ds))
         == SumReal(DueShares(s, s.shareTime)) + SumReal(Accruals(s))
    ensures 0.0 <= SumReal(DueShares(ChangedRows(s, ds, floor), s.now))
  {
    hide Due, Times;
    var due, expired := DueShares(ChangedRows(s, ds, floor), s.now), ExpiredShares(s, ds);
    var before, accruals := DueShares(s, s.shareTime), Accruals(s);
    assert due.Keys == s.producers.Keys && expired.Keys == s.producers.Keys
        && before.Keys == s.producers.Keys && accruals.Keys == s.producers.Keys;
    forall p | p in due
      ensures due[p] + expired[p] == before[p] + accruals[p] && 0.0 <= due[p]
    {
      DueRow(s, ds, floor, p);
    }
    RealBalance(due, expired, before, accruals);
    RealNonNegative(due);
  }

  lemma SharesStayOk(s: State, ds: map<Name, real>, floor: bool)
    requires IndexOk(s) && NoLoss(s, ds)
    ensures var s1 := ChangedRows(s, ds, floor);
            forall p | p in s1.producers :: ShareOk(s1.producers[p], s1.producers2[p], s.now, s.now)
  {
    forall p | p in s.producers
      ensures ShareOk(ChangedRows(s, ds, floor).producers[p], ChangedRows(s, ds, floor).producers2[p], s.now, s.now)
    {
      ChangedRowsAre(s, ds, floor, p);
      RowBalance(s, ds, p);
    }
  }

  // update_total_votepay_share when its floors are not reached.
  lemma TotalShareExact(s: State, shares: real, rate: real)
    requires 0.0 <= s.votepayShare + Accrued(s) + shares && 0.0 <= s.changeRate + rate
    ensures UpdateTotalShare(s, shares, rate)
         == s.(votepayShare := s.votepayShare + Accrued(s) + shares, changeRate := s.changeRate + rate, shareTime := s.now)
  {
  }

  lemma NoLosses(s: State, ds: map<Name, real>, floor: bool)
    requires NoLoss(s, ds)
    ensures ChangedRows(s, ds, floor).clamped == s.clamped
  {
    RealZero(Losses(s, ds, floor));
    RealZero(Strays(s, ds));
  }

  lemma RoundFields(s: State, ds: map<Name, real>, floor: bool)
    ensures var s1 := ChangedRows(s, ds, floor);
            && s1.votepayShare == s.votepayShare && s1.changeRate == s.changeRate && s1.shareTime == s.shareTime && s1.now == s.now
            && s1.producers.Keys == s.producers.Keys && s1.producers2.Keys == s.producers2.Keys
            && Accrued(s1) == Accrued(s)
  {
    hide SumReal, NewVotes, Settle, Times;
  }

  // The index of s depends on these fields only.
  lemma IndexFields(s: State, s1: State)
    requires s1.producers == s.producers && s1.producers2 == s.producers2
    ensures Rates(s1) == Rates(s) && forall t :: DueShares(s1, t) == DueShares(s, t)
  {
  }

  /** One round of vote changes keeps the vote-pay index exact, and neither floor of
      update_total_votepay_share is ever reached. */
  lemma ApplyKeepsIndex(s: State, ds: map<Name, real>, floor: bool)
    requires IndexOk(s) && NoLoss(s, ds)
    ensures IndexOk(ApplyChanges(s, ds, floor))
    ensures ApplyChanges(s, ds, floor).clamped == s.clamped
  {
    hide SumReal, Times, Due, SettledShare, ShareOk, ChangedRows, UpdateTotalShare, Rates, DueShares, ExpiredShares,
         RateChanges, Accrued;
    var s1 := ChangedRows(s, ds, floor);
    RoundFields(s, ds, floor);
    RatesBalance(s, ds, floor);
    DuesBalance(s, ds, floor);
    AccrualsSum(s);
    AccruedIsProduct(s);
    SharesStayOk(s, ds, floor);
    NoLosses(s, ds, floor);
    TotalShareExact(s1, -SumReal(ExpiredShares(s, ds)), SumReal(RateChanges(s, ds)));
    IndexFields(s1, ApplyChanges(s, ds, floor));
  }
}
