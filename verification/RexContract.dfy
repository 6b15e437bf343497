/** rex.cpp's helpers as they are written: running totals updated in place, proved to agree with
    the history of the return pool and the steps of the share pool. */
module RexContract {
  import opened Common
  import opened Sums
  import opened RexReturns
  import RexMachine
  import RexPool

  // ----- one distribution, bucket by bucket

  // What a bucket would be overpaid by counting intervals past its thirty days.
  function Overtime(t: int, rate: int, now: int): int {
    if t + LIFETIME <= now then Scaled(rate, (now - t - LIFETIME) / INTERVAL) else 0
  }

  ghost function Overpaid(m: map<int, int>, now: int): map<int, int> {
    map t | t in m :: Overtime(t, m[t], now)
  }

  // What an old bucket gains between two distributions.
  lemma Gain(t: int, p: int, last: int, now: int)
    requires t <= last < now && t % INTERVAL == 0 && last % INTERVAL == 0 && now % INTERVAL == 0 && 0 <= p
    ensures PaidOut(t, p, now) - PaidOut(t, p, last)
         == if last < t + LIFETIME then Scaled(Rate(p), (now - last) / INTERVAL) - Overtime(t, Rate(p), now) else 0
  {
    hide Scaled, Rate;
    AgeBounds(t, last);
    AgeBounds(t, now);
    assert (now - t) / INTERVAL == (last - t) / INTERVAL + (now - last) / INTERVAL;
    ScaledAdd(Rate(p), (last - t) / INTERVAL, (now - last) / INTERVAL);
    ScaledAdd(Rate(p), INTERVALS, (now - t) / INTERVAL - INTERVALS);
    assert (now - t - LIFETIME) / INTERVAL == (now - t) / INTERVAL - INTERVALS;
  }

  // What a bucket pays in the distribution that closes it.
  lemma FirstPayment(t: int, p: int, now: int)
    requires t <= now && t % INTERVAL == 0 && now % INTERVAL == 0 && 0 <= p
    ensures PaidOut(t, p, now) == p % INTERVALS + Scaled(Rate(p), (now - t) / INTERVAL) - Overtime(t, Rate(p), now)
  {
    hide Scaled, Rate;
    AgeBounds(t, now);
    ScaledAdd(Rate(p), INTERVALS, (now - t) / INTERVAL - INTERVALS);
    assert (now - t - LIFETIME) / INTERVAL == (now - t) / INTERVAL - INTERVALS;
  }

  lemma {:induction false} ScaleSum(m: map<int, int>, n: int, scaled: map<int, int>)
    requires scaled.Keys == m.Keys && forall t | t in m :: scaled[t] == Scaled(m[t], n)
    ensures SumInt(scaled) == Scaled(SumInt(m), n)
    decreases |m|
  {
    hide SumInt;
    if m == map[] {
      assert scaled == map[];
      IntZero(m);
    } else {
      var t := SomeKey(m);
      assert (m - {t}).Keys == m.Keys - {t};
      ScaleSum(m - {t}, n, scaled - {t});
      IntRemove(m, t);
      IntRemove(scaled, t);
      assert (m[t] + SumInt(m - {t})) * n == m[t] * n + SumInt(m - {t}) * n;
    }
  }

  // The buckets of one distribution: the old ones and the one it closes.
  ghost function Active(h: History, ct: int): map<int, int> {
    if h.pendingTime <= Floor(ct) then Buckets(h)[h.pendingTime := Rate(h.pending)] else Buckets(h)
  }

  lemma ActiveAfter(h: History, ct: int)
    requires Ok(h) && Timely(h, ct) && h.last < Floor(ct)
    ensures Buckets(Advance(h, ct)) == map t | t in Active(h, ct) && Floor(ct) < t + LIFETIME :: Active(h, ct)[t]
  {
    hide Rate;
  }

  // The old buckets' gains add up to the current rate for every interval, less what was overpaid.
  lemma OldBucketsGain(h: History, now: int, later: map<int, int>)
    requires Ok(h) && h.last < now && now % INTERVAL == 0
    requires later == map t | t in h.past :: PaidOut(t, h.past[t], now)
    ensures SumInt(later) == Distributed(h) + Scaled(SumInt(Buckets(h)), (now - h.last) / INTERVAL) - SumInt(Overpaid(Buckets(h), now))
  {
    hide SumInt, PaidOut, Scaled, Rate, Overtime;
    var b, n := Buckets(h), (now - h.last) / INTERVAL;
    var steps := map t | t in b :: Scaled(b[t], n);
    var steps' := map t | t in h.past :: if t in b then steps[t] else 0;
    var over' := map t | t in h.past :: if t in b then Overpaid(b, now)[t] else 0;
    forall t | t in h.past
      ensures later[t] + over'[t] == Payments(h)[t] + steps'[t]
    {
      Gain(t, h.past[t], h.last, now);
    }
    IntBalance(later, over', Payments(h), steps');
    Padding(steps, steps');
    Padding(Overpaid(b, now), over');
    ScaleSum(b, n, steps);
  }

  /** What the contract computes as the change is what the history says has become due. */
  lemma ChangeIsDue(h: History, ct: int)
    requires Ok(h) && Timely(h, ct) && h.last < Floor(ct)
    ensures Distributed(Advance(h, ct)) - Distributed(h)
         == Scaled(SumInt(Buckets(h)), (Floor(ct) - h.last) / INTERVAL)
            + (if h.pendingTime <= Floor(ct)
               then h.pending % INTERVALS + Scaled(Rate(h.pending), (Floor(ct) - h.pendingTime) / INTERVAL) else 0)
            - SumInt(Overpaid(Active(h, ct), Floor(ct)))
  {
    hide SumInt, PaidOut, Scaled, Rate, Overtime;
    AdvanceKeeps(h, ct);
    var now, h' := Floor(ct), Advance(h, ct);
    var later := map t | t in h.past :: PaidOut(t, h.past[t], now);
    OldBucketsGain(h, now, later);
    if h.pendingTime <= now {
      FirstPayment(h.pendingTime, h.pending, now);
      assert Payments(h') - {h.pendingTime} == later - {h.pendingTime};
      IntChange(later, Payments(h'), h.pendingTime);
      assert Overpaid(Active(h, ct), now) - {h.pendingTime} == Overpaid(Buckets(h), now) - {h.pendingTime};
      IntChange(Overpaid(Buckets(h), now), Overpaid(Active(h, ct), now), h.pendingTime);
    } else {
      assert Payments(h') == later;
    }
  }

  lemma BucketsPositive(h: History, ct: int)
    requires Ok(h) && Timely(h, ct)
    ensures forall t | t in Active(h, ct) :: 0 <= Active(h, ct)[t] && (h.last < Floor(ct) ==> t <= Floor(ct) && t % INTERVAL == 0)
  {
  }

  lemma ActiveRates(h: History, ct: int)
    requires Ok(h) && Timely(h, ct) && h.last < Floor(ct)
    ensures SumInt(Active(h, ct)) == SumInt(Buckets(h)) + if h.pendingTime <= Floor(ct) then Rate(h.pending) else 0
    ensures h.pendingTime <= Floor(ct) ==> Active(h, ct) == Buckets(h)[h.pendingTime := Rate(h.pending)]
    ensures !(h.pendingTime <= Floor(ct)) ==> Active(h, ct) == Buckets(h)
  {
    hide SumInt, Rate;
    AdvanceKeeps(h, ct);
    if h.pendingTime <= Floor(ct) {
      assert Active(h, ct) - {h.pendingTime} == Buckets(h) - {h.pendingTime};
      IntChange(Buckets(h), Active(h, ct), h.pendingTime);
    }
  }

  // When the oldest bucket is still being paid, so is every bucket.
  lemma NothingExpires(h: History, ct: int, oldest: int)
    requires Ok(h) && Timely(h, ct) && h.last < Floor(ct)
    requires IsOldest(Buckets(h), oldest) && Floor(ct) - LIFETIME < oldest
    ensures Buckets(Advance(h, ct)) == Active(h, ct) && SumInt(Overpaid(Active(h, ct), Floor(ct))) == 0
    ensures IsOldest(Active(h, ct), oldest)
  {
    hide SumInt, Rate;
    ActiveAfter(h, ct);
    NoneOverpaid(Active(h, ct), Floor(ct));
    assert Buckets(Advance(h, ct)) == Active(h, ct);
  }

  lemma ExpiredSigns(h: History, ct: int)
    requires Ok(h) && Timely(h, ct) && h.last < Floor(ct)
    ensures SumInt(Buckets(Advance(h, ct))) <= SumInt(Active(h, ct)) && 0 <= SumInt(Overpaid(Active(h, ct), Floor(ct)))
  {
    hide SumInt, Rate;
    ActiveAfter(h, ct);
    BucketsPositive(h, ct);
    var a, b := Active(h, ct), Buckets(Advance(h, ct));
    var kept := map t | t in a :: if t in b then b[t] else 0;
    Padding(b, kept);
    IntMonotone(kept, a);
    forall t | t in a
      ensures 0 <= Overtime(t, a[t], Floor(ct))
    {
      if t + LIFETIME <= Floor(ct) { ScaledSign(a[t], (Floor(ct) - t - LIFETIME) / INTERVAL); }
    }
    IntNonNegative(Overpaid(a, Floor(ct)));
  }

  // ----- the tables

  ghost predicate IsOldest(m: map<int, int>, t: int) {
    if m == map[] then t == 0 else t in m && forall x | x in m :: t <= x
  }

  lemma {:induction false} HasOldest(m: map<int, int>) returns (t: int)
    requires m != map[]
    ensures t in m && forall x | x in m :: t <= x
    decreases |m|
  {
    t := SomeKey(m);
    var rest := m - {t};
    if rest != map[] {
      assert rest.Keys == m.Keys - {t};
      var u := HasOldest(rest);
      assert forall x | x in m :: x == t || x in rest;
      if u < t { t := u; }
    } else {
      forall x | x in m ensures x == t { assert x != t ==> x in rest; }
    }
  }

  // The first key of an ordered map.
  method FirstKey(m: map<int, int>) returns (t: int)
    requires m != map[]
    ensures t in m && forall x | x in m :: t <= x
  {
    ghost var oldest := HasOldest(m);
    t :| t in m && forall x | x in m :: t <= x;
  }

  class Rex {
    // The share pool's row.
    var created: bool
    var totalLent: int
    var totalUnlent: int
    var totalRent: int
    var totalLendable: int
    var totalRex: int
    // The return pool's row and its buckets.
    var returning: bool
    var lastDistTime: int
    var pendingBucketTime: int
    var oldestBucketTime: int
    var pendingBucketProceeds: int
    var currentRate: int
    var proceeds: int
    var returnBuckets: map<int, int>
    // What each open loan has staked.
    var loans: map<int, int>
    // The buckets' history, and the record of RexMachine.
    ghost var history: Option<History>
    ghost var paidIn: int
    ghost var paidOut: int
    ghost var fees: int
    ghost var spread: int
    ghost var overwritten: int

    constructor ()
      ensures Valid() && Model() == RexMachine.Opening()
    {
      created, returning, history := false, false, None;
      returnBuckets, loans := map[], map[];
      paidIn, paidOut, fees, spread, overwritten := 0, 0, 0, 0, 0;
    }

    ghost function Shares(): RexPool.State
      reads this
    {
      RexPool.State(Pool(), loans)
    }

    ghost function Model(): RexMachine.Books
      reads this
    {
      RexMachine.Books(Shares(), history, paidIn, paidOut, fees, spread, overwritten)
    }

    ghost function Pool(): Option<RexPool.Pool>
      reads `created, `totalLent, `totalUnlent, `totalRent, `totalLendable, `totalRex
    {
      if created then Some(RexPool.Pool(totalLent, totalUnlent, totalRent, totalLendable, totalRex)) else None
    }

    /** The running totals are what the history says. */
    ghost predicate Valid()
      reads `returning, `lastDistTime, `pendingBucketTime, `oldestBucketTime, `pendingBucketProceeds, `currentRate, `proceeds,
            `returnBuckets, `history
    {
      && returning == history.Some?
      && (returning ==> Follows(history.value))
    }

    ghost predicate Follows(h: History)
      reads `lastDistTime, `pendingBucketTime, `oldestBucketTime, `pendingBucketProceeds, `currentRate, `proceeds, `returnBuckets
    {
      && Ok(h)
      && lastDistTime == h.last && pendingBucketTime == h.pendingTime && pendingBucketProceeds == h.pending
      && returnBuckets == Buckets(h) && IsOldest(returnBuckets, oldestBucketTime)
      && currentRate == SumInt(returnBuckets)
      && proceeds == Proceeds(h)
    }

    // The loop that erases expired buckets, oldest first.
    method ExpireBuckets(now: int) returns (expiredRate: int, surplus: int)
      modifies `returnBuckets
      ensures returnBuckets == map t | t in old(returnBuckets) && now < t + LIFETIME :: old(returnBuckets)[t]
      ensures expiredRate == SumInt(old(returnBuckets)) - SumInt(returnBuckets)
      ensures surplus == SumInt(Overpaid(old(returnBuckets), now))
    {
      hide SumInt, Scaled, Overtime;
      ghost var all := returnBuckets;
      expiredRate, surplus := 0, 0;
      var expired := true;
      while expired && returnBuckets != map[]
        invariant returnBuckets.Keys <= all.Keys && forall t | t in returnBuckets :: returnBuckets[t] == all[t]
        invariant forall t | t in all && now < t + LIFETIME :: t in returnBuckets
        invariant !expired ==> forall t | t in returnBuckets :: now < t + LIFETIME
        invariant expiredRate == SumInt(all) - SumInt(returnBuckets)
        invariant surplus == SumInt(Overpaid(all, now)) - SumInt(Overpaid(returnBuckets, now))
        decreases |returnBuckets|, expired
      {
        var t := FirstKey(returnBuckets);
        if t + LIFETIME <= now {
          OneExpires(returnBuckets, t, now);
          surplus := surplus + Scaled(returnBuckets[t], (now - (t + LIFETIME)) / INTERVAL);
          expiredRate := expiredRate + returnBuckets[t];
          returnBuckets := returnBuckets - {t};
        } else {
          expired := false;
        }
      }
      NoneOverpaid(returnBuckets, now);
      assert returnBuckets == map t | t in all && now < t + LIFETIME :: all[t];
    }

    // The first half of update_rex_pool: the current rate pays for the time passed, and an open
    // bucket whose time has come is closed.
    method CloseBucket(now: int) returns (change: int)
      requires Valid() && returning && lastDistTime < now < NEVER
      modifies `lastDistTime, `pendingBucketTime, `oldestBucketTime, `pendingBucketProceeds, `currentRate, `proceeds,
               `returnBuckets
      ensures lastDistTime == now && oldestBucketTime == old(oldestBucketTime)
      ensures change == Scaled(old(currentRate), (now - old(lastDistTime)) / INTERVAL)
                      + if old(pendingBucketTime) <= now
                        then old(pendingBucketProceeds) % INTERVALS
                             + Scaled(Rate(old(pendingBucketProceeds)), (now - old(pendingBucketTime)) / INTERVAL)
                        else 0
      ensures proceeds == old(proceeds) - change
      ensures if old(pendingBucketTime) <= now then
                && pendingBucketTime == NEVER && pendingBucketProceeds == 0
                && currentRate == old(currentRate) + Rate(old(pendingBucketProceeds))
                && returnBuckets == old(returnBuckets)[old(pendingBucketTime) := Rate(old(pendingBucketProceeds))]
              else
                && pendingBucketTime == old(pendingBucketTime) && pendingBucketProceeds == old(pendingBucketProceeds)
                && currentRate == old(currentRate) && returnBuckets == old(returnBuckets)
    {
      hide Scaled, Follows, SumInt;
      ghost var oldest := oldestBucketTime;
      change := Scaled(currentRate, (now - lastDistTime) / INTERVAL);
      if pendingBucketTime <= now {
        var remainder := pendingBucketProceeds % INTERVALS;
        var rate := (pendingBucketProceeds - remainder) / INTERVALS;
        assert rate == Rate(pendingBucketProceeds);
        currentRate := currentRate + rate;
        change := change + remainder + Scaled(rate, (now - pendingBucketTime) / INTERVAL);
        if pendingBucketTime < oldestBucketTime {
          oldestBucketTime := pendingBucketTime;
        }
        returnBuckets := returnBuckets[pendingBucketTime := rate];
        pendingBucketProceeds, pendingBucketTime := 0, NEVER;
      }
      proceeds := proceeds - change;
      lastDistTime := now;
      // A new bucket is never older than the oldest.
      assert oldestBucketTime == oldest by { OldestFirst(); }
    }

    // oldestBucketTime is not later than any bucket, nor than the open one.
    twostate lemma OldestFirst()
      requires old(Valid() && returning)
      ensures old(pendingBucketTime == NEVER || oldestBucketTime <= pendingBucketTime)
    {
    }

    // The second half: buckets past their thirty days are erased and what they were overpaid by
    // the first half is taken back.
    method TakeBackSurplus(now: int, change0: int, ghost h: History, ghost ct: int) returns (change: int)
      requires Ok(h) && Timely(h, ct) && h.last < Floor(ct) == now
      requires returnBuckets == Active(h, ct) && currentRate == SumInt(returnBuckets) && IsOldest(Buckets(h), oldestBucketTime)
      modifies `returnBuckets, `oldestBucketTime, `currentRate, `proceeds
      ensures returnBuckets == Buckets(Advance(h, ct)) && currentRate == SumInt(returnBuckets)
      ensures IsOldest(returnBuckets, oldestBucketTime)
      ensures change == change0 - SumInt(Overpaid(Active(h, ct), now))
      ensures proceeds == old(proceeds) + SumInt(Overpaid(Active(h, ct), now))
    {
      hide SumInt, Scaled, Rate, Overtime, Buckets, Active;
      change := change0;
      if oldestBucketTime <= now - LIFETIME {
        ActiveAfter(h, ct);
        ExpiredSigns(h, ct);
        var expiredRate, surplus := ExpireBuckets(now);
        if returnBuckets != map[] {
          oldestBucketTime := FirstKey(returnBuckets);
        } else {
          oldestBucketTime := 0;
        }
        if 0 < expiredRate {
          currentRate := currentRate - expiredRate;
        }
        if 0 < surplus {
          change := change - surplus;
          proceeds := proceeds + surplus;
        }
      } else {
        NothingExpires(h, ct, oldestBucketTime);
      }
    }

    // What has become due by now leaves the return pool.
    method HandOver(ct: int) returns (change: int)
      requires Valid() && returning && Timely(history.value, ct) && lastDistTime < Floor(ct)
      modifies `lastDistTime, `pendingBucketTime, `oldestBucketTime, `pendingBucketProceeds, `currentRate, `proceeds,
               `returnBuckets, `history
      ensures Valid() && history == Some(Advance(old(history).value, ct))
      ensures change == Distributed(history.value) - Distributed(old(history).value)
    {
      hide SumInt, Scaled, Rate, Overtime, Distributed, Proceeds, Buckets, Active, Overpaid;
      ghost var h := history.value;
      AdvanceKeeps(h, ct);
      ActiveRates(h, ct);
      ChangeIsDue(h, ct);
      ProceedsFall(h, ct);
      var now := ct - ct % INTERVAL;
      change := CloseBucket(now);
      change := TakeBackSurplus(now, change, h, ct);
      history := Some(Advance(h, ct));
    }

    /** update_rex_pool. */
    method UpdateRexPool(ct: int)
      requires Valid() && (returning ==> created && Timely(history.value, ct))
      modifies `lastDistTime, `pendingBucketTime, `oldestBucketTime, `pendingBucketProceeds, `currentRate, `proceeds,
               `returnBuckets, `history, `totalUnlent, `totalLendable
      ensures Valid() && history == Settle(old(history), ct)
      ensures returning ==>
                Pool() == Some(RexPool.Distribute(old(Pool()).value, Distributed(history.value) - Distributed(old(history).value)))
      ensures !returning ==> Pool() == old(Pool())
    {
      hide SumInt, Distributed, Proceeds, Buckets, Ok, IsOldest;
      if !returning || ct - ct % INTERVAL <= lastDistTime {
        return;
      }
      var change := HandOver(ct);
      ghost var due, left := change, proceeds;
      if 0 < change && proceeds < 0 {
        change := change + proceeds;
        proceeds := 0;
      }
      // The repair of negative proceeds is never needed.
      ProceedsFall(old(history).value, ct);
      assert change == due && proceeds == left;
      if 0 < change {
        totalUnlent := totalUnlent + change;
        totalLendable := totalUnlent + totalLent;
      }
    }

    // What a call's distribution does to the share pool's row.
    ghost predicate Paid(before: Option<RexPool.Pool>, h: Option<History>, h': Option<History>)
      reads this
    {
      if h.Some? && h'.Some? && before.Some? then
        Pool() == Some(RexPool.Distribute(before.value, Distributed(h'.value) - Distributed(h.value)))
      else Pool() == before
    }

    // The fee joins the open bucket, which is opened if need be.
    method GatherFee(closing: int, fee: int)
      requires Valid() && 0 < fee
      requires returning ==> Ok(history.value.(pending := history.value.pending + fee,
                                               pendingTime := if pendingBucketTime == NEVER then closing else pendingBucketTime))
      requires Ok(History(map[], closing, closing, fee))
      modifies `returning, `lastDistTime, `pendingBucketTime, `oldestBucketTime, `pendingBucketProceeds, `currentRate, `proceeds,
               `returnBuckets, `history
      ensures Valid()
      ensures history == if old(history).None? then Some(History(map[], closing, closing, fee))
                         else Some(old(history).value.(
                                     pending := old(history).value.pending + fee,
                                     pendingTime := if old(pendingBucketTime) == NEVER then closing else old(pendingBucketTime)))
    {
      hide SumInt, Buckets, Proceeds, Ok;
      if !returning {
        returning := true;
        lastDistTime, pendingBucketTime, oldestBucketTime := closing, closing, 0;
        pendingBucketProceeds, currentRate, proceeds := fee, 0, fee;
        returnBuckets := map[];
        history := Some(History(map[], closing, closing, fee));
        NewHistory(closing, fee);
      } else {
        pendingBucketProceeds := pendingBucketProceeds + fee;
        proceeds := proceeds + fee;
        if pendingBucketTime == NEVER {
          pendingBucketTime := closing;
        }
        FeeToBucket(history.value, fee, pendingBucketTime);
        history := Some(history.value.(pending := pendingBucketProceeds, pendingTime := pendingBucketTime));
      }
    }

    /** add_to_rex_return_pool. */
    method AddToRexReturnPool(ct: int, fee: int)
      requires Valid() && Ready(history, ct) && created
      modifies `returning, `lastDistTime, `pendingBucketTime, `oldestBucketTime, `pendingBucketProceeds, `currentRate, `proceeds,
               `returnBuckets, `history, `totalUnlent, `totalLendable
      ensures Valid() && history == AddFee(old(history), ct, fee)
      ensures Paid(old(Pool()), old(history), Settle(old(history), ct))
    {
      hide SumInt, Buckets, Proceeds, Distributed, Advance, RexPool.Distribute, Ok;
      AddFeeKeeps(history, ct, fee);
      AddFeeKeeps(None, ct, fee);
      UpdateRexPool(ct);
      if 0 < fee {
        GatherFee(ct - ct % BUCKET + BUCKET, fee);
      }
    }

    /** add_to_rex_pool. */
    method AddToRexPool(payment: int) returns (ok: bool, received: int)
      modifies `created, `totalLent, `totalUnlent, `totalRent, `totalLendable, `totalRex
      ensures ok <==> RexPool.Buy(old(Pool()), payment).Some?
      ensures ok ==> Pool() == Some(RexPool.Buy(old(Pool()), payment).value.0) && received == RexPool.Buy(old(Pool()), payment).value.1
    {
      ok := true;
      if !created {
        received := payment * RexPool.REX_RATIO;
        created := true;
        totalLendable, totalLent := payment, 0;
        totalUnlent := totalLendable - totalLent;
        totalRent, totalRex := RexPool.INIT_RENT, received;
      } else if totalRex <= 0 {
        received := payment * RexPool.REX_RATIO;
        totalLendable, totalLent := payment, 0;
        totalUnlent := totalLendable - totalLent;
        totalRent, totalRex := RexPool.INIT_RENT, received;
      } else {
        if totalLendable <= 0 {
          return false, 0;
        }
        var s1 := totalLendable + payment;
        var r1 := s1 * totalRex / totalLendable;
        received := r1 - totalRex;
        totalLendable, totalRex := s1, r1;
        totalUnlent := totalLendable - totalLent;
        if totalUnlent < 0 {
          return false, 0;
        }
      }
    }

    /** fill_rex_order's part in the pool. */
    method FillRexOrder(rex: int) returns (success: bool, proceedsOut: int)
      requires created && totalRex != 0
      modifies `totalRex, `totalLendable, `totalUnlent
      ensures success <==> RexPool.Sell(old(Pool()).value, rex).Some?
      ensures success ==> Pool() == Some(RexPool.Sell(old(Pool()).value, rex).value.0)
      ensures success ==> proceedsOut == RexPool.Sell(old(Pool()).value, rex).value.1
      ensures !success ==> Pool() == old(Pool()) && proceedsOut == 0
    {
      var p := rex * totalLendable / totalRex;
      var available := totalUnlent - totalLent / 10;
      if p <= available {
        totalRex, totalLendable := totalRex - rex, totalLendable - p;
        totalUnlent := totalLendable - totalLent;
        return true, p;
      }
      return false, 0;
    }

    /** add_loan_to_rex_pool: the fee goes to the return pool, the tokens to the loan. */
    method AddLoanToRexPool(ct: int, payment: int, rented: int)
      requires Valid() && Ready(history, ct) && created
      modifies `returning, `lastDistTime, `pendingBucketTime, `oldestBucketTime, `pendingBucketProceeds, `currentRate, `proceeds,
               `returnBuckets, `history, `totalRent, `totalUnlent, `totalLent, `totalLendable
      ensures Valid() && history == AddFee(old(history), ct, payment)
      ensures Paid(Some(RexPool.AddLoan(old(Pool()).value, payment, rented)), old(history), Settle(old(history), ct))
    {
      hide SumInt, Buckets, Proceeds, Distributed, Advance, AddFee;
      AddToRexReturnPool(ct, payment);
      totalRent := totalRent + payment;
      totalUnlent := totalUnlent - rented;
      totalLent := totalLent + rented;
    }

    /** remove_loan_from_rex_pool. */
    method RemoveLoanFromRexPool(staked: int)
      requires created && 0 <= totalUnlent && 0 <= totalRent && 0 < staked
      modifies `totalRent, `totalUnlent, `totalLent, `totalLendable
      ensures Pool() == Some(RexPool.RemoveLoan(old(Pool()).value, staked))
    {
      var rent := RexPool.BancorOutput(totalUnlent, totalRent, staked);
      totalRent := totalRent - rent;
      totalUnlent := totalUnlent + staked;
      totalLent := totalLent - staked;
      totalLendable := totalUnlent + totalLent;
    }

    // ----- the calls of RexMachine

    /** update_rex_pool as a call of its own. */
    method Update(ct: int)
      requires Valid() && RexMachine.Inv(Model()) && Ready(history, ct)
      modifies `lastDistTime, `pendingBucketTime, `oldestBucketTime, `pendingBucketProceeds, `currentRate, `proceeds,
               `returnBuckets, `history, `totalUnlent, `totalLendable, `spread
      ensures Valid() && Model() == RexMachine.Refresh(old(Model()), ct)
    {
      hide Follows, SumInt, Distributed, Proceeds, Ok, RexPool.PoolOk, RexPool.Distribute;
      ghost var b := Model();
      RexMachine.RefreshIs(b, ct);
      UpdateRexPool(ct);
      spread := spread + RexMachine.Lendable(Shares()) - RexMachine.Lendable(b.shares);
    }

    /** A fee, gathered while there are shares. */
    method Gather(ct: int, fee: int)
      requires Valid() && RexMachine.Inv(Model()) && Ready(history, ct)
      modifies this
      ensures Valid() && Model() == RexMachine.Step(old(Model()), RexMachine.Gather(ct, fee))
    {
      hide Follows, SumInt, Distributed, Proceeds, Ok, RexPool.PoolOk, RexPool.Distribute, AddFee, RexMachine.Refresh;
      ghost var b := Model();
      if created && 0 < totalRex {
        RexMachine.RefreshIs(b, ct);
        RexMachine.FeeOnce(history, ct, fee);
        AddToRexReturnPool(ct, fee);
        spread := spread + RexMachine.Lendable(Shares()) - RexMachine.Lendable(b.shares);
        fees := fees + RexMachine.Fee(fee);
      }
    }

    // The loan itself, once the pool has been updated.
    method GrantLoan(ct: int, id: int, payment: int) returns (ok: bool)
      requires Valid() && RexPool.Inv(Shares()) && Ready(history, ct) && Settle(history, ct) == history
      requires returning ==> created
      modifies this
      ensures Valid()
      ensures ok <==> old(Pool()).Some? && RexPool.Rent(old(Pool()).value, old(loans), id, payment).Some?
      ensures ok ==> Model() == RexMachine.Collect(
                       old(Model()).(shares := RexPool.Rent(old(Pool()).value, old(loans), id, payment).value), ct, payment)
      ensures !ok ==> unchanged(this)
    {
      hide Follows, SumInt, Distributed, Proceeds, Ok, AddFee, Advance, RexPool.BancorOutput;
      ok := false;
      if created && 0 < totalRex && 0 < payment && id !in loans {
        var rented := RexPool.BancorOutput(totalRent, totalUnlent, payment);
        if payment < rented {
          AddLoanToRexPool(ct, payment, rented);
          loans := loans[id := rented];
          fees := fees + RexMachine.Fee(payment);
          ok := true;
        }
      }
    }

    method TryLoan(ct: int, id: int, payment: int) returns (ok: bool)
      requires Valid() && RexMachine.Inv(Model()) && Ready(history, ct)
      modifies this
      ensures ok ==> Valid() && Model() == RexMachine.Step(old(Model()), RexMachine.Lend(ct, id, payment))
      ensures !ok ==> RexMachine.Step(old(Model()), RexMachine.Lend(ct, id, payment)) == old(Model())
      ensures !ok ==> unchanged(`created, `totalLent, `totalRent, `totalRex, `returning, `loans)
      ensures !ok ==> unchanged(`paidIn, `paidOut, `fees, `overwritten)
    {
      hide Valid, Ready, Settle, RexPool.Inv, RexPool.Rent, RexMachine.Inv, RexMachine.Refresh, RexMachine.Collect;
      RexMachine.RefreshReady(Model(), ct);
      Update(ct);
      assert returning ==> created by { ReturningHasHistory(); }
      ok := GrantLoan(ct, id, payment);
    }

    // What an update changes, put back as it was.
    method Undo(dist: int, pending: int, oldest: int, buckets: map<int, int>, gathered: int, rate: int, left: int,
                unlent: int, lendable: int, ghost b: RexMachine.Books)
      modifies `lastDistTime, `pendingBucketTime, `oldestBucketTime, `pendingBucketProceeds, `currentRate, `proceeds,
               `returnBuckets, `totalUnlent, `totalLendable, `history, `spread
      ensures lastDistTime == dist && pendingBucketTime == pending && oldestBucketTime == oldest && returnBuckets == buckets
      ensures pendingBucketProceeds == gathered && currentRate == rate && proceeds == left
      ensures totalUnlent == unlent && totalLendable == lendable && history == b.history && spread == b.spread
    {
      totalUnlent, totalLendable := unlent, lendable;
      history, spread := b.history, b.spread;
      lastDistTime, pendingBucketTime, oldestBucketTime, returnBuckets := dist, pending, oldest, buckets;
      pendingBucketProceeds, currentRate, proceeds := gathered, rate, left;
    }

    lemma ReturningHasHistory()
      requires Valid()
      ensures returning <==> history.Some?
    {
    }

    /** A loan opened after an update; if it is refused the update is undone with it. */
    method OpenLoan(ct: int, id: int, payment: int)
      requires Valid() && RexMachine.Inv(Model()) && Ready(history, ct)
      modifies this
      ensures Valid() && Model() == RexMachine.Step(old(Model()), RexMachine.Lend(ct, id, payment))
    {
      hide Ok, Buckets, IsOldest, SumInt, Proceeds, Ready, RexMachine.Inv, RexMachine.Step, RexPool.Inv;
      var dist, pending, oldest, buckets := lastDistTime, pendingBucketTime, oldestBucketTime, returnBuckets;
      var gathered, rate, left := pendingBucketProceeds, currentRate, proceeds;
      var unlent, lendable := totalUnlent, totalLendable;
      ghost var b := Model();
      var ok := TryLoan(ct, id, payment);
      if !ok {
        Undo(dist, pending, oldest, buckets, gathered, rate, left, unlent, lendable, b);
      }
    }

    /** A loan closed, if it is open. */
    method EndLoan(id: int)
      requires Valid() && RexMachine.Inv(Model())
      modifies `totalRent, `totalUnlent, `totalLent, `totalLendable, `loans
      ensures Valid() && Model() == RexMachine.Step(old(Model()), RexMachine.Close(id))
    {
      hide Follows, SumInt, Distributed, Proceeds, Ok, RexPool.RemoveLoan;
      if created && id in loans {
        RemoveLoanFromRexPool(loans[id]);
        loans := loans - {id};
      }
    }

    /** A purchase; the checks of add_to_rex_pool never fail. */
    method Purchase(payment: int)
      requires Valid() && RexMachine.Inv(Model())
      modifies `created, `totalLent, `totalUnlent, `totalRent, `totalLendable, `totalRex, `paidIn, `overwritten
      ensures Valid() && Model() == RexMachine.Step(old(Model()), RexMachine.Purchase(payment))
    {
      hide Follows, SumInt, Distributed, Proceeds, Ok, RexPool.Buy;
      if 0 < payment {
        RexPool.BuyKeeps(Pool(), payment);
        overwritten := overwritten + if RexMachine.Live(Shares()) then 0 else RexMachine.Lendable(Shares());
        var ok, received := AddToRexPool(payment);
        assert ok;
        paidIn := paidIn + payment;
      }
    }

    /** A sale order, filled if the pool can spare the proceeds. */
    method Sale(rex: int)
      requires Valid() && RexMachine.Inv(Model())
      modifies `totalRex, `totalLendable, `totalUnlent, `paidOut
      ensures Valid() && Model() == RexMachine.Step(old(Model()), RexMachine.Sale(rex))
    {
      hide Follows, SumInt, Distributed, Proceeds, Ok, RexPool.PoolOk, RexPool.Sell;
      if created && 0 < rex <= totalRex {
        var success, proceedsOut := FillRexOrder(rex);
        paidOut := paidOut + proceedsOut;
      }
    }

    /** Any call leaves the tables as RexMachine says. */
    method Perform(c: RexMachine.Call)
      requires Valid() && RexMachine.Inv(Model())
      requires RexMachine.TimeOf(c).Some? ==> Ready(history, RexMachine.TimeOf(c).value)
      modifies this
      ensures Valid() && Model() == RexMachine.Step(old(Model()), c)
    {
      hide Follows, RexMachine.Refresh, RexPool.Next, Ok;
      match c
      case Update(ct) => Update(ct);
      case Gather(ct, fee) => Gather(ct, fee);
      case Lend(ct, id, payment) => OpenLoan(ct, id, payment);
      case Close(id) => EndLoan(id);
      case Purchase(payment) => Purchase(payment);
      case Sale(rex) => Sale(rex);
    }
  }

  lemma OneExpires(m: map<int, int>, t: int, now: int)
    requires t in m && t + LIFETIME <= now
    ensures SumInt(m) == m[t] + SumInt(m - {t}) && |m - {t}| < |m|
    ensures SumInt(Overpaid(m, now)) == Scaled(m[t], (now - (t + LIFETIME)) / INTERVAL) + SumInt(Overpaid(m - {t}, now))
  {
    hide SumInt, Scaled;
    IntRemove(m, t);
    IntRemove(Overpaid(m, now), t);
    assert Overpaid(m, now) - {t} == Overpaid(m - {t}, now);
    assert (m - {t}).Keys == m.Keys - {t};
  }

  lemma NoneOverpaid(m: map<int, int>, now: int)
    requires forall t | t in m :: now < t + LIFETIME
    ensures SumInt(Overpaid(m, now)) == 0
  {
    IntZero(Overpaid(m, now));
  }
}
