/** The REX return pool of rex.cpp: fees are gathered in 12-hour buckets and each bucket is handed
    to the REX pool over thirty days.  A history of the buckets is the reference; the incremental
    bookkeeping of the contract is proved against it in module RexContract. */
module RexReturns {
  import opened Common
  import opened Sums

  const INTERVAL: int := 600                       // seconds between distributions
  const INTERVALS: int := 30 * 144                 // intervals a bucket is paid over
  const LIFETIME: int := INTERVAL * INTERVALS      // thirty days
  const BUCKET: int := 12 * 3600                   // seconds a bucket gathers fees
  const NEVER: int := 0xffff_ffff                  // the largest time, meaning no pending bucket

  /** The closed buckets by their closing time, the last distribution and the open bucket. */
  datatype History = History(past: map<int, int>, last: int, pendingTime: int, pending: int)

  // ----- what the history says has been paid

  function Rate(p: int): int { p / INTERVALS }

  // Whole intervals between two times, at most the thirty days.
  function Age(t: int, now: int): int {
    var n := (now - t) / INTERVAL;
    if n < INTERVALS then n else INTERVALS
  }

  function Scaled(rate: int, n: int): int { rate * n }

  /** A bucket of p pays p mod 4320 at once and p / 4320 in each interval. */
  function PaidOut(t: int, p: int, now: int): int {
    p % INTERVALS + Scaled(Rate(p), Age(t, now))
  }

  ghost function Payments(h: History): map<int, int> {
    map t | t in h.past :: PaidOut(t, h.past[t], h.last)
  }

  ghost function Distributed(h: History): int {
    SumInt(Payments(h))
  }

  ghost function Outstanding(h: History): map<int, int> {
    map t | t in h.past :: h.past[t] - PaidOut(t, h.past[t], h.last)
  }

  // What is still to be handed over, the open bucket included.
  ghost function Proceeds(h: History): int {
    h.pending + SumInt(Outstanding(h))
  }

  // The buckets still being paid and their rates.
  ghost function Buckets(h: History): map<int, int> {
    map t | t in h.past && h.last < t + LIFETIME :: Rate(h.past[t])
  }

  ghost predicate Ok(h: History) {
    && h.last % INTERVAL == 0 && 0 <= h.pending
    && (forall t | t in h.past :: 0 < t <= h.last && t % INTERVAL == 0 && 0 < h.past[t])
    && (h.pendingTime == NEVER <==> h.pending == 0)
    && (h.pendingTime != NEVER ==> 0 < h.pendingTime && h.last <= h.pendingTime && h.pendingTime % INTERVAL == 0)
    && (h.pendingTime == h.last ==> h.past == map[])
  }

  // Calls come in order of time; only before its first distribution can the pool be ahead.
  predicate Timely(h: History, ct: int) {
    (h.pendingTime == h.last || h.last <= ct) && LIFETIME + INTERVAL <= ct < NEVER - BUCKET
  }

  // ----- the two operations on the history

  function Floor(ct: int): int { ct - ct % INTERVAL }
  function NextBucket(ct: int): int { ct - ct % BUCKET + BUCKET }

  /** update_rex_pool. */
  function Advance(h: History, ct: int): History {
    if Floor(ct) <= h.last then h
    else if h.pendingTime <= Floor(ct) then History(h.past[h.pendingTime := h.pending], Floor(ct), NEVER, 0)
    else h.(last := Floor(ct))
  }

  /** add_to_rex_return_pool; the first fee creates the pool. */
  function AddFee(o: Option<History>, ct: int, fee: int): Option<History> {
    match o
    case None => if fee <= 0 then None else Some(History(map[], NextBucket(ct), NextBucket(ct), fee))
    case Some(h) =>
      var h1 := Advance(h, ct);
      if fee <= 0 then Some(h1)
      else Some(h1.(pending := h1.pending + fee, pendingTime := if h1.pendingTime == NEVER then NextBucket(ct) else h1.pendingTime))
  }

  lemma AdvanceKeeps(h: History, ct: int)
    requires Ok(h) && Timely(h, ct)
    ensures Ok(Advance(h, ct)) && Timely(Advance(h, ct), ct)
    ensures Floor(ct) > h.last && h.pendingTime <= Floor(ct) ==> h.pendingTime !in h.past
  {
  }

  lemma AddFeeKeeps(o: Option<History>, ct: int, fee: int)
    requires o.Some? ==> Ok(o.value) && Timely(o.value, ct)
    requires LIFETIME + INTERVAL <= ct < NEVER - BUCKET
    ensures AddFee(o, ct, fee).Some? ==> Ok(AddFee(o, ct, fee).value) && Timely(AddFee(o, ct, fee).value, ct)
  {
    assert NextBucket(ct) % INTERVAL == 0;
    if o.Some? { AdvanceKeeps(o.value, ct); }
  }

  // ----- conservation

  lemma AgeBounds(t: int, now: int)
    requires t <= now
    ensures 0 <= Age(t, now) <= INTERVALS
    ensures t + LIFETIME <= now ==> Age(t, now) == INTERVALS
    ensures now < t + LIFETIME ==> Age(t, now) == (now - t) / INTERVAL
  {
  }

  lemma PaidOutBounds(t: int, p: int, now: int)
    requires t <= now && 0 <= p
    ensures p % INTERVALS <= PaidOut(t, p, now) <= p
    ensures t + LIFETIME <= now ==> PaidOut(t, p, now) == p
    ensures now < t + LIFETIME ==> p - PaidOut(t, p, now) == Scaled(Rate(p), INTERVALS - (now - t) / INTERVAL)
  {
    AgeBounds(t, now);
    var q, a := Rate(p), Age(t, now);
    assert p == q * INTERVALS + p % INTERVALS;
    assert q * INTERVALS - q * a == q * (INTERVALS - a);
    assert 0 <= q * a <= q * INTERVALS;
  }

  /** Every fee is either handed over or still in the proceeds, which are never negative. */
  lemma Conservation(h: History)
    requires Ok(h)
    ensures Distributed(h) + Proceeds(h) == h.pending + SumInt(h.past)
    ensures h.pending <= Proceeds(h) && 0 <= Distributed(h)
  {
    hide SumInt, PaidOut;
    forall t | t in h.past
      ensures 0 <= PaidOut(t, h.past[t], h.last) <= h.past[t]
    {
      PaidOutBounds(t, h.past[t], h.last);
    }
    IntPlus(Payments(h), Outstanding(h), h.past);
    IntNonNegative(Outstanding(h));
    IntNonNegative(Payments(h));
  }

  ghost function Remaining(h: History): map<int, int> {
    map t | t in Buckets(h) :: Scaled(Buckets(h)[t], INTERVALS - (h.last - t) / INTERVAL)
  }

  /** The proceeds are the open bucket plus, for every bucket still being paid, its rate times the
      intervals it has left. */
  lemma ProceedsAreRemaining(h: History)
    requires Ok(h)
    ensures Proceeds(h) == h.pending + SumInt(Remaining(h))
  {
    hide SumInt, PaidOut, Scaled, Rate;
    var padded := map t | t in h.past :: if t in Buckets(h) then Remaining(h)[t] else 0;
    forall t | t in h.past
      ensures Outstanding(h)[t] == padded[t]
    {
      PaidOutBounds(t, h.past[t], h.last);
    }
    assert Outstanding(h) == padded;
    Padding(Remaining(h), padded);
  }

  // Rows of zero can be left out of a sum.
  lemma {:induction false} Padding(m: map<int, int>, padded: map<int, int>)
    requires m.Keys <= padded.Keys
    requires forall t | t in padded :: padded[t] == if t in m then m[t] else 0
    ensures SumInt(padded) == SumInt(m)
    decreases |padded|
  {
    hide SumInt;
    if t :| t in padded && t !in m {
      assert (padded - {t}).Keys == padded.Keys - {t};
      Padding(m, padded - {t});
      IntRemove(padded, t);
    } else {
      assert forall t | t in padded.Keys :: t in m.Keys;
      assert padded.Keys == m.Keys;
      assert forall t | t in m :: padded[t] == m[t];
      assert padded == m;
    }
  }

  /** Once every bucket has run its thirty days and none is open, exactly the fees have been paid. */
  lemma AllPaidInTheEnd(h: History)
    requires Ok(h) && h.pending == 0 && (forall t | t in h.past :: t + LIFETIME <= h.last)
    ensures Distributed(h) == SumInt(h.past) && Proceeds(h) == 0 && Buckets(h) == map[]
  {
    hide SumInt, PaidOut;
    forall t | t in h.past
      ensures PaidOut(t, h.past[t], h.last) == h.past[t]
    {
      PaidOutBounds(t, h.past[t], h.last);
    }
    assert Payments(h) == h.past;
    Conservation(h);
  }

  // ----- how often the pool is updated does not matter

  /** A later update makes an earlier one unnecessary. */
  lemma AdvanceAbsorbs(h: History, t1: int, t2: int)
    requires Ok(h) && Timely(h, t1) && t1 <= t2 < NEVER - BUCKET
    ensures Advance(Advance(h, t1), t2) == Advance(h, t2)
  {
  }

  datatype Call = Call(time: int, fee: int)

  function Run(o: Option<History>, calls: seq<Call>): Option<History>
    decreases |calls|
  {
    if calls == [] then o else Run(AddFee(o, calls[0].time, calls[0].fee), calls[1..])
  }

  ghost predicate InOrder(calls: seq<Call>, from: int) {
    && (forall i | 0 <= i < |calls| :: from <= calls[i].time < NEVER - BUCKET)
    && forall i, j | 0 <= i < j < |calls| :: calls[i].time <= calls[j].time
  }

  // The calls that bring a fee; the others only update the pool.
  function Fees(calls: seq<Call>): seq<Call>
    decreases |calls|
  {
    if calls == [] then []
    else if 0 < calls[0].fee then [calls[0]] + Fees(calls[1..]) else Fees(calls[1..])
  }

  function FeeSum(calls: seq<Call>): int
    decreases |calls|
  {
    if calls == [] then 0 else (if 0 < calls[0].fee then calls[0].fee else 0) + FeeSum(calls[1..])
  }

  function Settle(o: Option<History>, ct: int): Option<History> {
    match o
    case None => None
    case Some(h) => Some(Advance(h, ct))
  }

  ghost predicate Ready(o: Option<History>, ct: int) {
    LIFETIME + INTERVAL <= ct < NEVER - BUCKET && (o.Some? ==> Ok(o.value) && Timely(o.value, ct))
  }

  lemma LaterReady(o: Option<History>, ct: int, ct': int)
    requires Ready(o, ct) && ct <= ct' < NEVER - BUCKET
    ensures Ready(o, ct')
  {
  }

  // An update just before a run makes no difference to it.
  lemma UpdateFirst(o: Option<History>, ct: int, calls: seq<Call>, end: int)
    requires Ready(o, ct) && InOrder(calls, ct) && (forall i | 0 <= i < |calls| :: calls[i].time <= end) && ct <= end < NEVER - BUCKET
    ensures Settle(Run(Settle(o, ct), calls), end) == Settle(Run(o, calls), end)
  {
    if o.Some? {
      if calls == [] {
        AdvanceAbsorbs(o.value, ct, end);
      } else {
        AdvanceAbsorbs(o.value, ct, calls[0].time);
      }
    }
  }

  lemma RestInOrder(calls: seq<Call>, from: int)
    requires InOrder(calls, from) && calls != []
    ensures InOrder(calls[1..], calls[0].time) && InOrder(calls[1..], from)
  {
    forall i | 0 <= i < |calls[1..]|
      ensures calls[0].time <= calls[1..][i].time < NEVER - BUCKET && from <= calls[1..][i].time
    {
      assert calls[1..][i] == calls[i + 1];
    }
    forall i, j | 0 <= i < j < |calls[1..]|
      ensures calls[1..][i].time <= calls[1..][j].time
    {
      assert calls[1..][i] == calls[i + 1] && calls[1..][j] == calls[j + 1];
    }
  }

  lemma {:induction false} FeesInOrder(calls: seq<Call>, from: int, end: int)
    requires InOrder(calls, from) && forall i | 0 <= i < |calls| :: calls[i].time <= end
    ensures InOrder(Fees(calls), from) && forall i | 0 <= i < |Fees(calls)| :: Fees(calls)[i].time <= end
    decreases |calls|
  {
    if calls != [] {
      RestInOrder(calls, from);
      assert forall i | 0 <= i < |calls[1..]| :: calls[1..][i] == calls[i + 1];
      FeesInOrder(calls[1..], calls[0].time, end);
    }
  }

  /** For any fees and times, leaving out every call that only updates the pool changes nothing at
      any later update: not the amount distributed, the rate, the buckets or what is pending. */
  lemma {:induction false} ExtraUpdatesDoNotMatter(o: Option<History>, calls: seq<Call>, now: int, end: int)
    requires Ready(o, now) && InOrder(calls, now) && now <= end < NEVER - BUCKET
    requires forall i | 0 <= i < |calls| :: calls[i].time <= end
    ensures Settle(Run(o, calls), end) == Settle(Run(o, Fees(calls)), end)
    decreases |calls|
  {
    hide Ready, InOrder, AddFee, Advance;
    if calls != [] {
      var c := calls[0];
      FirstStep(o, calls, now, end);
      RestInOrder(calls, now);
      assert forall i | 0 <= i < |calls[1..]| :: calls[1..][i] == calls[i + 1];
      ExtraUpdatesDoNotMatter(AddFee(o, c.time, c.fee), calls[1..], c.time, end);
      if 0 < c.fee {
        assert Fees(calls) == [c] + Fees(calls[1..]);
        assert Fees(calls)[1..] == Fees(calls[1..]);
      } else {
        FeesInOrder(calls[1..], c.time, end);
        UpdateFirst(o, c.time, Fees(calls[1..]), end);
        NoFee(o, c.time, c.fee);
      }
    }
  }

  lemma FirstStep(o: Option<History>, calls: seq<Call>, now: int, end: int)
    requires Ready(o, now) && InOrder(calls, now) && calls != []
    requires forall i | 0 <= i < |calls| :: calls[i].time <= end
    ensures calls[0].time <= end && Ready(o, calls[0].time) && Ready(AddFee(o, calls[0].time, calls[0].fee), calls[0].time)
  {
    LaterReady(o, now, calls[0].time);
    AddFeeKeeps(o, calls[0].time, calls[0].fee);
  }

  lemma NoFee(o: Option<History>, ct: int, fee: int)
    requires fee <= 0
    ensures AddFee(o, ct, fee) == Settle(o, ct)
  {
  }

  ghost function Gathered(o: Option<History>): int {
    match o
    case None => 0
    case Some(h) => h.pending + SumInt(h.past)
  }

  lemma AddFeeGathers(o: Option<History>, ct: int, fee: int)
    requires Ready(o, ct)
    ensures Gathered(AddFee(o, ct, fee)) == Gathered(o) + if 0 < fee then fee else 0
  {
    hide SumInt;
    var none: map<int, int> := map[];
    IntZero(none);
    if o.Some? {
      var h, h1 := o.value, Advance(o.value, ct);
      AdvanceKeeps(h, ct);
      if h.last < Floor(ct) && h.pendingTime <= Floor(ct) {
        assert h1.past - {h.pendingTime} == h.past - {h.pendingTime};
        IntChange(h.past, h1.past, h.pendingTime);
      }
    }
  }

  /** Over any run of fees and updates, what was handed over plus the proceeds is the sum of all
      fees, to the unit. */
  lemma {:induction false} FeesOfEveryRun(o: Option<History>, calls: seq<Call>, now: int)
    requires Ready(o, now) && InOrder(calls, now)
    ensures Run(o, calls).Some? ==>
              var h := Run(o, calls).value;
              && Ok(h) && 0 <= Proceeds(h)
              && Distributed(h) + Proceeds(h) == Gathered(o) + FeeSum(calls)
    decreases |calls|
  {
    hide SumInt, AddFee, Distributed, Proceeds, Payments;
    if calls == [] {
      if o.Some? { Conservation(o.value); }
    } else {
      LaterReady(o, now, calls[0].time);
      AddFeeKeeps(o, calls[0].time, calls[0].fee);
      AddFeeGathers(o, calls[0].time, calls[0].fee);
      RestInOrder(calls, now);
      FeesOfEveryRun(AddFee(o, calls[0].time, calls[0].fee), calls[1..], calls[0].time);
    }
  }

  // ----- what an update hands over

  lemma ScaledAdd(r: int, a: int, b: int)
    ensures Scaled(r, a + b) == Scaled(r, a) + Scaled(r, b)
  {
    assert r * (a + b) == r * a + r * b;
  }

  lemma ScaledSign(r: int, a: int)
    requires 0 <= r && 0 <= a
    ensures 0 <= Scaled(r, a)
  {
  }

  lemma PaidOutGrows(t: int, p: int, last: int, now: int)
    requires t <= last <= now && 0 <= p
    ensures PaidOut(t, p, last) <= PaidOut(t, p, now)
  {
    hide Scaled;
    AgeBounds(t, last);
    AgeBounds(t, now);
    ScaledAdd(Rate(p), Age(t, last), Age(t, now) - Age(t, last));
    ScaledSign(Rate(p), Age(t, now) - Age(t, last));
  }

  lemma NeverPaidBack(h: History, ct: int)
    requires Ok(h) && Timely(h, ct)
    ensures Distributed(h) <= Distributed(Advance(h, ct))
  {
    hide SumInt, PaidOut;
    AdvanceKeeps(h, ct);
    var h' := Advance(h, ct);
    var before := map t | t in h'.past :: if t in h.past then Payments(h)[t] else 0;
    forall t | t in h'.past
      ensures before[t] <= Payments(h')[t]
    {
      if t in h.past { PaidOutGrows(t, h.past[t], h.last, h'.last); } else { PaidOutBounds(t, h'.past[t], h'.last); }
    }
    Padding(Payments(h), before);
    IntMonotone(before, Payments(h'));
  }

  lemma ProceedsFall(h: History, ct: int)
    requires Ok(h) && Timely(h, ct)
    ensures Proceeds(Advance(h, ct)) == Proceeds(h) - (Distributed(Advance(h, ct)) - Distributed(h))
    ensures 0 <= Proceeds(Advance(h, ct)) && Distributed(h) <= Distributed(Advance(h, ct))
  {
    hide SumInt, Distributed, Proceeds;
    AdvanceKeeps(h, ct);
    Conservation(h);
    Conservation(Advance(h, ct));
    AddFeeGathers(Some(h), ct, 0);
    NeverPaidBack(h, ct);
  }

  lemma NewHistory(closing: int, fee: int)
    ensures var h := History(map[], closing, closing, fee);
            Buckets(h) == map[] && Proceeds(h) == fee && SumInt(Buckets(h)) == 0
  {
    var h := History(map[], closing, closing, fee);
    assert Outstanding(h) == map[] && Buckets(h) == map[];
  }

  lemma FeeToBucket(h: History, fee: int, t: int)
    ensures var h' := h.(pending := h.pending + fee, pendingTime := t);
            Buckets(h') == Buckets(h) && Proceeds(h') == Proceeds(h) + fee
  {
    hide SumInt;
    assert Outstanding(h.(pending := h.pending + fee, pendingTime := t)) == Outstanding(h);
  }
}
