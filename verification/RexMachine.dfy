/** The share pool and the return pool of rex.cpp together: fees gathered by one are spread over the
    other, and over any run no token appears or is lost except by the reset of an empty pool. */
module RexMachine {
  import opened Common
  import opened Sums
  import opened RexReturns
  import opened RexPool

  /** The last five fields are the model's record: payments taken in, sale proceeds paid out, fees
      gathered, what updates added to the share pool, and what a reset overwrote. */
  datatype Books = Books(shares: RexPool.State, history: Option<History>,
                         paidIn: int, paidOut: int, fees: int, spread: int, overwritten: int)

  datatype Call =
    | Update(time: int)
    | Gather(time: int, fee: int)
    | Lend(time: int, id: int, payment: int)
    | Close(id: int)
    | Purchase(payment: int)
    | Sale(rex: int)

  ghost function Given(o: Option<History>): int {
    if o.Some? then Distributed(o.value) else 0
  }

  ghost function Waiting(o: Option<History>): int {
    if o.Some? then Proceeds(o.value) else 0
  }

  function Lendable(s: RexPool.State): int {
    if s.pool.Some? then s.pool.value.lendable else 0
  }

  /** update_rex_pool: what has become due since the last time goes to the share pool. */
  ghost function Refresh(b: Books, ct: int): Books
    requires RexPool.Inv(b.shares)
  {
    var history := Settle(b.history, ct);
    var shares := RexPool.Next(b.shares, Return(Given(history) - Given(b.history)));
    b.(shares := shares, history := history, spread := b.spread + Lendable(shares) - Lendable(b.shares))
  }

  function Fee(fee: int): int {
    if 0 < fee then fee else 0
  }

  // add_to_rex_return_pool's second half, after the update.
  function Collect(b: Books, ct: int, fee: int): Books {
    b.(history := AddFee(b.history, ct, fee), fees := b.fees + Fee(fee))
  }

  predicate Live(s: RexPool.State) {
    s.pool.Some? && 0 < s.pool.value.rex
  }

  // What a seller is paid; an order that is not filled yet is paid nothing.
  function Payout(s: RexPool.State, rex: int): int {
    if s.pool.None? || rex <= 0 || s.pool.value.rex < rex || Sell(s.pool.value, rex).None? then 0
    else Sell(s.pool.value, rex).value.1
  }

  /** One call of a helper.  Fees reach the return pool only while there are shares, and a loan is
      opened after an update, its price being a fee. */
  ghost function Step(b: Books, c: Call): Books
    requires Inv(b)
  {
    match c
    case Update(ct) => Refresh(b, ct)
    case Gather(ct, fee) => if Live(b.shares) then Collect(Refresh(b, ct), ct, fee) else b
    case Lend(ct, id, payment) =>
      RefreshKeepsShares(b, ct);
      var b1 := Refresh(b, ct);
      if b1.shares.pool.None? || Rent(b1.shares.pool.value, b1.shares.loans, id, payment).None? then b
      else Collect(b1.(shares := RexPool.Next(b1.shares, OpenLoan(id, payment))), ct, payment)
    case Close(id) => b.(shares := RexPool.Next(b.shares, CloseLoan(id)))
    case Purchase(payment) =>
      if payment <= 0 || RexPool.Buy(b.shares.pool, payment).None? then b
      else b.(shares := RexPool.Next(b.shares, BuyShares(payment)), paidIn := b.paidIn + payment,
              overwritten := b.overwritten + if Live(b.shares) then 0 else Lendable(b.shares))
    case Sale(rex) =>
      b.(shares := RexPool.Next(b.shares, SellShares(rex)), paidOut := b.paidOut + Payout(b.shares, rex))
  }

  ghost predicate Inv(b: Books) {
    && RexPool.Inv(b.shares) && (b.history.Some? ==> Ok(b.history.value) && b.shares.pool.Some?)
    && b.spread == Given(b.history)
    && Lendable(b.shares) + Waiting(b.history) + b.paidOut + b.overwritten == b.paidIn + b.fees
  }

  lemma RefreshKeepsShares(b: Books, ct: int)
    requires RexPool.Inv(b.shares)
    ensures RexPool.Inv(Refresh(b, ct).shares) && (b.shares.pool.Some? ==> Refresh(b, ct).shares.pool.Some?)
  {
    RexPool.NextKeeps(b.shares, Return(Given(Settle(b.history, ct)) - Given(b.history)));
    hide RexPool.Inv, RexPool.Next;
  }

  lemma ReturnAdds(s: RexPool.State, due: int)
    requires RexPool.Inv(s) && 0 <= due && (s.pool.None? ==> due == 0)
    ensures Lendable(RexPool.Next(s, Return(due))) == Lendable(s) + due
  {
  }

  lemma RefreshKeeps(b: Books, ct: int)
    requires Inv(b) && Ready(b.history, ct)
    ensures Inv(Refresh(b, ct)) && Ready(Refresh(b, ct).history, ct)
  {
    hide RexPool.Inv, RexPool.Next, Distributed, Proceeds, Advance, Ok, Timely;
    RefreshKeepsShares(b, ct);
    if b.history.Some? {
      ProceedsFall(b.history.value, ct);
      AdvanceKeeps(b.history.value, ct);
    }
    ReturnAdds(b.shares, Given(Settle(b.history, ct)) - Given(b.history));
  }

  // What an update does to the share pool's row.
  lemma RefreshIs(b: Books, ct: int)
    requires RexPool.Inv(b.shares)
    ensures var b', due := Refresh(b, ct), Given(Settle(b.history, ct)) - Given(b.history);
            && b' == b.(shares := b'.shares, history := Settle(b.history, ct), spread := b'.spread)
            && b'.shares == b.shares.(pool := if b.shares.pool.Some? then Some(Distribute(b.shares.pool.value, due)) else None)
            && b'.spread == b.spread + Lendable(b'.shares) - Lendable(b.shares)
            && (b.history.None? && b.shares.pool.Some? ==> Distribute(b.shares.pool.value, due) == b.shares.pool.value)
  {
  }

  lemma RefreshReady(b: Books, ct: int)
    requires Inv(b) && Ready(b.history, ct)
    ensures var b' := Refresh(b, ct);
            && RexPool.Inv(b'.shares) && Ready(b'.history, ct) && Settle(b'.history, ct) == b'.history
            && (b'.history.Some? ==> b'.shares.pool.Some?)
  {
    hide RexPool.Inv, RexPool.Next, Distributed, Proceeds, Advance, Ok;
    RefreshKeeps(b, ct);
    SettledTwice(b.history, ct);
  }

  // Updating first makes no difference to a fee.
  lemma FeeOnce(o: Option<History>, ct: int, fee: int)
    requires Ready(o, ct)
    ensures AddFee(Settle(o, ct), ct, fee) == AddFee(o, ct, fee)
  {
    SettledTwice(o, ct);
  }

  // ----- the other calls

  lemma CollectKeeps(b: Books, ct: int, fee: int)
    requires Inv(b) && Ready(b.history, ct) && b.shares.pool.Some? && Settle(b.history, ct) == b.history
    ensures Inv(Collect(b, ct, fee)) && Ready(Collect(b, ct, fee).history, ct)
  {
    hide RexPool.Inv, SumInt, Ok, Timely;
    AddFeeKeeps(b.history, ct, fee);
    FeeWaits(b.history, ct, fee);
  }

  // A fee waits in the open bucket; nothing of it is due yet.
  lemma FeeWaits(o: Option<History>, ct: int, fee: int)
    requires Ready(o, ct) && Settle(o, ct) == o
    ensures Given(AddFee(o, ct, fee)) == Given(o) && Waiting(AddFee(o, ct, fee)) == Waiting(o) + Fee(fee)
  {
    hide SumInt, PaidOut;
    var o' := AddFee(o, ct, fee);
    if o.None? {
      if 0 < fee { NewHistory(NextBucket(ct), fee); NothingDue(o'.value); }
    } else if 0 < fee {
      FeeToBucket(o.value, fee, o'.value.pendingTime);
      assert Payments(o'.value) == Payments(o.value);
    }
  }

  lemma NothingDue(h: History)
    requires h.past == map[]
    ensures Distributed(h) == 0
  {
    assert Payments(h) == map[];
  }

  lemma SettledTwice(o: Option<History>, ct: int)
    requires Ready(o, ct)
    ensures Settle(Settle(o, ct), ct) == Settle(o, ct)
  {
    if o.Some? { AdvanceAbsorbs(o.value, ct, ct); }
  }

  lemma LoanKeepsLendable(s: RexPool.State, step: RexPool.Step)
    requires RexPool.Inv(s) && (step.OpenLoan? || step.CloseLoan?)
    ensures RexPool.Inv(RexPool.Next(s, step)) && Lendable(RexPool.Next(s, step)) == Lendable(s)
    ensures s.pool.Some? ==> RexPool.Next(s, step).pool.Some?
  {
    RexPool.NextKeeps(s, step);
    hide SumInt, Rent, RemoveLoan;
    if s.pool.Some? {
      match step
      case OpenLoan(id, payment) => RentKeeps(s.pool.value, s.loans, id, payment);
      case CloseLoan(id) => if id in s.loans { CloseKeeps(s.pool.value, s.loans, id); }
    }
  }

  lemma PurchaseAdds(s: RexPool.State, payment: int)
    requires RexPool.Inv(s) && 0 < payment
    ensures var s' := RexPool.Next(s, BuyShares(payment));
            && RexPool.Inv(s') && s'.pool.Some?
            && Lendable(s') == payment + if Live(s) then Lendable(s) else 0
  {
    RexPool.NextKeeps(s, BuyShares(payment));
    BuyKeeps(s.pool, payment);
  }

  lemma SaleTakes(s: RexPool.State, rex: int)
    requires RexPool.Inv(s)
    ensures var s' := RexPool.Next(s, SellShares(rex));
            && RexPool.Inv(s') && (s.pool.Some? ==> s'.pool.Some?)
            && Lendable(s') == Lendable(s) - Payout(s, rex)
  {
    RexPool.NextKeeps(s, SellShares(rex));
  }

  lemma CallReady(b: Books, c: Call)
    requires Inv(b) && (c.Update? || c.Gather? || c.Lend? ==> Ready(b.history, c.time))
    ensures Inv(Step(b, c))
  {
    hide RexPool.Inv, RexPool.Next, Distributed, Proceeds, Collect, Refresh, Rent, Ready, Buy, Payout;
    match c
    case Update(ct) => RefreshKeeps(b, ct);
    case Gather(ct, fee) =>
      if Live(b.shares) { GatherKeeps(b, ct, fee); }
    case Lend(ct, id, payment) => LendKeeps(b, ct, id, payment);
    case Close(id) => LoanKeepsLendable(b.shares, CloseLoan(id));
    case Purchase(payment) => if 0 < payment { PurchaseAdds(b.shares, payment); }
    case Sale(rex) => SaleTakes(b.shares, rex);
  }

  lemma GatherKeeps(b: Books, ct: int, fee: int)
    requires Inv(b) && Ready(b.history, ct) && Live(b.shares)
    ensures Inv(Collect(Refresh(b, ct), ct, fee))
  {
    hide RexPool.Inv, RexPool.Next, Distributed, Proceeds, Ok, Ready, Settle;
    RefreshKeeps(b, ct);
    RefreshKeepsShares(b, ct);
    SettledTwice(b.history, ct);
    CollectKeeps(Refresh(b, ct), ct, fee);
  }

  lemma LendKeeps(b: Books, ct: int, id: int, payment: int)
    requires Inv(b) && Ready(b.history, ct)
    ensures Inv(Step(b, Lend(ct, id, payment)))
  {
    hide RexPool.Inv, RexPool.Next, Distributed, Proceeds, Ok, Ready, Settle, Rent, Collect;
    RefreshKeeps(b, ct);
    RefreshKeepsShares(b, ct);
    SettledTwice(b.history, ct);
    var b1 := Refresh(b, ct);
    LoanKeepsLendable(b1.shares, OpenLoan(id, payment));
    if b1.shares.pool.Some? {
      CollectKeeps(b1.(shares := RexPool.Next(b1.shares, OpenLoan(id, payment))), ct, payment);
    }
  }

  // ----- runs

  function TimeOf(c: Call): Option<int> {
    if c.Update? || c.Gather? || c.Lend? then Some(c.time) else None
  }

  // Calls in order of time, none of them so late that times wrap around.
  ghost predicate IsRun(b: Books, now: int, calls: seq<Call>, b': Books)
    decreases |calls|
  {
    if calls == [] then b' == b
    else
      && Inv(b)
      && (TimeOf(calls[0]).Some? ==> now <= TimeOf(calls[0]).value < NEVER - BUCKET)
      && IsRun(Step(b, calls[0]), if TimeOf(calls[0]).Some? then TimeOf(calls[0]).value else now, calls[1..], b')
  }

  lemma StepReady(b: Books, c: Call, now: int)
    requires Inv(b) && Ready(b.history, now) && (TimeOf(c).Some? ==> now <= TimeOf(c).value < NEVER - BUCKET)
    ensures Ready(Step(b, c).history, if TimeOf(c).Some? then TimeOf(c).value else now)
  {
    hide RexPool.Inv, RexPool.Next, Distributed, Proceeds, Rent, Buy, Ok, Timely, Advance;
    if TimeOf(c).Some? {
      LaterReady(b.history, now, c.time);
      RefreshKeeps(b, c.time);
      SettledTwice(b.history, c.time);
      RefreshKeepsShares(b, c.time);
      var o := Settle(b.history, c.time);
      match c
      case Update(_) =>
      case Gather(ct, fee) => AddFeeKeeps(o, ct, fee);
      case Lend(ct, id, payment) => AddFeeKeeps(o, ct, payment);
    }
  }

  function Opening(): Books {
    Books(EMPTY, None, 0, 0, 0, 0, 0)
  }

  lemma {:induction false} RunKeeps(b: Books, now: int, calls: seq<Call>, b': Books)
    requires Inv(b) && Ready(b.history, now) && IsRun(b, now, calls, b')
    ensures Inv(b')
    decreases |calls|
  {
    hide Inv, Step, Ready;
    if calls != [] {
      var c := calls[0];
      StepReady(b, c, now);
      if TimeOf(c).Some? { LaterReady(b.history, now, c.time); }
      CallReady(b, c);
      RunKeeps(Step(b, c), if TimeOf(c).Some? then c.time else now, calls[1..], b');
    }
  }

  lemma OpeningInv(now: int)
    requires LIFETIME + INTERVAL <= now < NEVER - BUCKET
    ensures Inv(Opening()) && Ready(Opening().history, now)
  {
    EmptyInv();
    hide RexPool.Inv;
  }

  lemma InvMeans(b: Books)
    requires Inv(b)
    ensures b.spread == Given(b.history)
    ensures Lendable(b.shares) + Waiting(b.history) + b.paidOut + b.overwritten == b.paidIn + b.fees
    ensures b.shares.pool.Some? ==> b.shares.pool.value.lendable == b.shares.pool.value.unlent + SumInt(b.shares.loans)
  {
    hide SumInt, Distributed, Proceeds;
  }

  /** Over any run what updates added to the share pool is just what the return pool's history says
      it has handed over, and what buyers and fees brought in is lendable, still waiting, paid out to
      sellers, or was overwritten when the pool was reset. */
  lemma TokensOfEveryRun(now: int, calls: seq<Call>, b: Books)
    requires LIFETIME + INTERVAL <= now < NEVER - BUCKET && IsRun(Opening(), now, calls, b)
    ensures b.spread == Given(b.history)
    ensures Lendable(b.shares) + Waiting(b.history) + b.paidOut + b.overwritten == b.paidIn + b.fees
    ensures b.shares.pool.Some? ==> b.shares.pool.value.lendable == b.shares.pool.value.unlent + SumInt(b.shares.loans)
  {
    hide *;
    OpeningInv(now);
    RunKeeps(Opening(), now, calls, b);
    InvMeans(b);
  }
}
