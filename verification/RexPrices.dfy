/** What a REX purchase, sale, loan or return is worth: two-sided bounds that leave each amount no
    choice, and what becomes of every field of the pool. */
module RexPrices {
  import opened Common
  import opened Sums
  import opened RexReturns
  import opened RexPool
  import RexMachine

  // q is x / d rounded down, said by multiplication.
  predicate RoundedDown(q: int, x: int, d: int) {
    Product2(q, d) <= x < Product2(q + 1, d)
  }

  function Product2(x: int, y: int): int { x * y }

  lemma QuotientRounds(x: nat, d: nat)
    requires 0 < d
    ensures RoundedDown(x / d, x, d)
  {
    hide RoundedDown;
    DivisionBound(x, d);
    Rounds(x / d, x, d);
  }

  lemma Rounds(q: int, x: int, d: int)
    requires q * d <= x < q * d + d
    ensures RoundedDown(q, x, d)
  {
    assert (q + 1) * d == q * d + d;
  }

  lemma RoundedOnce(q: int, r: int, x: int, d: int)
    requires 0 < d && RoundedDown(q, x, d) && RoundedDown(r, x, d)
    ensures q == r
  {
    MulCancelStrict(q, r + 1, d);
    MulCancelStrict(r, q + 1, d);
  }

  // ----- purchases

  /** A purchase gives the payment's worth of shares, rounded down, and neither more nor less; the first
      purchase, or one into a pool without shares, gives 10000 shares for a unit. */
  lemma BuyIsWorth(o: Option<Pool>, payment: int)
    requires 0 < payment && (o.Some? ==> PoolOk(o.value))
    ensures Buy(o, payment).Some?
    ensures var (p', received) := Buy(o, payment).value;
            if o.Some? && 0 < o.value.rex then
              && RoundedDown(received, Product2(payment, o.value.rex), o.value.lendable)
              && p' == Pool(o.value.lent, o.value.unlent + payment, o.value.rent, o.value.lendable + payment, o.value.rex + received)
            else received == 10000 * payment && p' == Pool(0, payment, 200000000, payment, 10000 * payment)
  {
    BuyKeeps(o, payment);
    if o.Some? && 0 < o.value.rex {
      var p := o.value;
      var s1 := p.lendable + payment;
      QuotientRounds(s1 * p.rex, p.lendable);
      var r1 := s1 * p.rex / p.lendable;
      assert s1 * p.rex == p.lendable * p.rex + payment * p.rex;
      assert (r1 - p.rex) * p.lendable == r1 * p.lendable - p.rex * p.lendable;
      assert (r1 - p.rex + 1) * p.lendable == (r1 + 1) * p.lendable - p.rex * p.lendable;
    }
  }

  // ----- sales

  /** A sale is paid the shares' worth, rounded down, if that is no more than what is not lent less a
      tenth of what is; and the pool loses just that. */
  lemma SellIsWorth(p: Pool, rex: int, q: int)
    requires PoolOk(p) && 0 < rex <= p.rex && RoundedDown(q, Product2(rex, p.lendable), p.rex)
    ensures Sell(p, rex) == if q <= p.unlent - p.lent / 10
                            then Some((Pool(p.lent, p.unlent - q, p.rent, p.lendable - q, p.rex - rex), q)) else None
  {
    QuotientRounds(rex * p.lendable, p.rex);
    RoundedOnce(q, rex * p.lendable / p.rex, rex * p.lendable, p.rex);
  }

  lemma WorthExists(rex: int, p: Pool) returns (q: int)
    requires PoolOk(p) && 0 < rex <= p.rex
    ensures RoundedDown(q, Product2(rex, p.lendable), p.rex)
  {
    QuotientRounds(rex * p.lendable, p.rex);
    q := rex * p.lendable / p.rex;
  }

  /** Selling at once what was just bought costs less than one unit and one share's price: the loss less
      one unit, times the shares there are then, is less than what the pool held. */
  lemma BuyThenSellLoses(p: Pool, payment: int)
    requires PoolOk(p) && 0 < payment && 0 < p.rex
    ensures Buy(Some(p), payment).Some?
    ensures var (p', received) := Buy(Some(p), payment).value;
            0 < received && Sell(p', received).Some? ==>
              Product2(payment - Sell(p', received).value.1 - 1, p'.rex) < p.lendable
  {
    BuyIsWorth(Some(p), payment);
    BuyKeeps(Some(p), payment);
    var (p', received) := Buy(Some(p), payment).value;
    if 0 < received && Sell(p', received).Some? {
      var q := WorthExists(received, p');
      SellIsWorth(p', received, q);
      LossBound(p.lendable, p.rex, payment, received, q);
    }
  }

  lemma LossBound(l: int, r: int, payment: int, received: int, q: int)
    requires Product2(payment, r) < Product2(received + 1, l)
    requires Product2(received, l + payment) < Product2(q + 1, r + received)
    ensures Product2(payment - q - 1, r + received) < l
  {
    assert Product2(received + 1, l) == received * l + l;
    assert Product2(received, l + payment) == received * l + received * payment;
    assert Product2(payment - q - 1, r + received) == payment * r + payment * received - Product2(q + 1, r + received) by {
      assert (payment - (q + 1)) * (r + received) == payment * (r + received) - (q + 1) * (r + received);
      assert payment * (r + received) == payment * r + payment * received;
    }
  }

  // ----- loans

  // x is the most that can leave the reserve for inp, the product of the reserves not falling.
  predicate MostFor(x: int, inReserve: int, outReserve: int, inp: int) {
    && Product2(inReserve, outReserve) <= Product2(inReserve + inp, outReserve - x)
    && Product2(inReserve + inp, outReserve - x - 1) < Product2(inReserve, outReserve)
  }

  /** The bancor output is the most that keeps the product of the reserves from falling. */
  lemma BancorIsMost(inReserve: nat, outReserve: nat, inp: nat)
    requires 0 < inp
    ensures MostFor(BancorOutput(inReserve, outReserve, inp), inReserve, outReserve, inp)
  {
    var x, d := BancorOutput(inReserve, outReserve, inp), inReserve + inp;
    QuotientRounds(Product(inp, outReserve), d);
    assert d * (outReserve - x) == inReserve * outReserve + inp * outReserve - x * d;
    assert d * (outReserve - x - 1) == inReserve * outReserve + inp * outReserve - (x + 1) * d;
  }

  lemma MostOnce(x: int, y: int, inReserve: nat, outReserve: nat, inp: nat)
    requires 0 < inp && MostFor(x, inReserve, outReserve, inp) && MostFor(y, inReserve, outReserve, inp)
    ensures x == y
  {
    var d := inReserve + inp;
    if x < y {
      MulAtMost(outReserve - y, outReserve - x - 1, d);
    } else if y < x {
      MulAtMost(outReserve - x, outReserve - y - 1, d);
    }
  }

  lemma MulAtMost(a: int, b: int, d: int)
    requires 0 <= d && a <= b
    ensures d * a <= d * b
  {
    assert d * (b - a) >= 0;
  }

  /** Opening a loan rents the most the price allows: it succeeds just when there are shares and that is
      more than the payment, and moves just that from unlent to lent, into this loan alone. */
  lemma RentIsWorth(p: Pool, loans: map<int, int>, id: int, payment: int, x: int)
    requires PoolOk(p) && 0 < payment && MostFor(x, p.rent, p.unlent, payment)
    ensures Rent(p, loans, id, payment)
         == if 0 < p.rex && id !in loans && payment < x
            then Some(State(Some(Pool(p.lent + x, p.unlent - x, p.rent + payment, p.lendable, p.rex)), loans[id := x])) else None
  {
    BancorIsMost(p.rent, p.unlent, payment);
    MostOnce(x, BancorOutput(p.rent, p.unlent, payment), p.rent, p.unlent, payment);
  }

  /** Closing a loan brings all it had rented back to unlent, and takes the most that allows from the
      rent. */
  lemma CloseIsWorth(p: Pool, staked: int, y: int)
    requires PoolOk(p) && 0 < staked && MostFor(y, p.unlent, p.rent, staked)
    ensures RemoveLoan(p, staked) == Pool(p.lent - staked, p.unlent + staked, p.rent - y, p.lendable, p.rex)
  {
    BancorIsMost(p.unlent, p.rent, staked);
    MostOnce(y, BancorOutput(p.unlent, p.rent, staked), p.unlent, p.rent, staked);
  }

  /** Each step is the sale, purchase, loan or return it says, for the whole state; a renewal is a
      closing and an opening. */
  lemma StepsSpelled(s: RexPool.State, id: int, amount: int)
    requires Inv(s) && s.pool.Some?
    ensures Inv(Next(s, CloseLoan(id)))
    ensures id !in s.loans ==> Next(s, CloseLoan(id)) == Next(s, RenewLoan(id, amount)) == s
    ensures id in s.loans ==>
              && Next(s, CloseLoan(id)) == State(Some(RemoveLoan(s.pool.value, s.loans[id])), s.loans - {id})
              && Next(s, RenewLoan(id, amount)) == Next(Next(s, CloseLoan(id)), OpenLoan(id, amount))
    ensures Next(s, Return(amount))
         == if 0 < amount
            then var p := s.pool.value; s.(pool := Some(p.(unlent := p.unlent + amount, lendable := p.lendable + amount))) else s
  {
    hide RemoveLoan, Rent, SumInt;
    NextKeeps(s, CloseLoan(id));
  }

  // ----- the return pool

  /** A fee joins the open bucket; without one it opens a bucket that closes at the next multiple of
      twelve hours.  Nothing else changes but by the update that comes first. */
  lemma FeeJoins(o: Option<History>, ct: int, fee: int)
    requires Ready(o, ct) && 0 < fee
    ensures var h' := AddFee(o, ct, fee);
            && h'.Some? && 0 < h'.value.pending
            && (o.None? || Settle(o, ct).value.pending == 0 ==>
                  h'.value.pending == fee && h'.value.pendingTime % 43200 == 0 && ct < h'.value.pendingTime <= ct + 43200)
            && (o.None? ==> h'.value.past == map[] && h'.value.last == h'.value.pendingTime)
            && (o.Some? ==>
                  var h := Settle(o, ct).value;
                  && h'.value == h.(pending := h.pending + fee, pendingTime := h'.value.pendingTime)
                  && (h.pending != 0 ==> h'.value.pendingTime == h.pendingTime))
  {
    if o.Some? { AdvanceKeeps(o.value, ct); }
  }

  /** An update at ct brings the pool to the last multiple of ten minutes; the open bucket closes if its
      time has come, keeping its amount and closing time. */
  lemma UpdateSpelled(h: History, ct: int)
    requires Ok(h) && Timely(h, ct)
    ensures var h', t := Advance(h, ct), ct - ct % 600;
            if t <= h.last then h' == h
            else if h.pending != 0 && h.pendingTime <= t then
              h'.past == h.past[h.pendingTime := h.pending] && h'.last == t && h'.pending == 0
            else h' == h.(last := t)
  {
  }

  /** A bucket pays the remainder at once and then the same in each of 4320 intervals of ten minutes. */
  lemma PaidEvenly(t: int, p: int, n: int)
    requires 0 <= n && 0 <= p
    ensures PaidOut(t, p, t + 600 * n) == p % 4320 + Product2(p / 4320, if n < 4320 then n else 4320)
  {
  }

  // ----- both pools together

  /** A fee reaches the return pool whenever there are shares, and with it what was due before. */
  lemma GatherSpelled(b: RexMachine.Books, ct: int, fee: int)
    requires RexMachine.Inv(b) && Ready(b.history, ct)
    ensures var b' := RexMachine.Step(b, RexMachine.Gather(ct, fee));
            if b.shares.pool.Some? && 0 < b.shares.pool.value.rex then
              && b'.history == AddFee(b.history, ct, fee) && b'.fees == b.fees + (if 0 < fee then fee else 0)
              && b'.shares.loans == b.shares.loans
              && RexMachine.Lendable(b'.shares)
                 == RexMachine.Lendable(b.shares) + RexMachine.Given(Settle(b.history, ct)) - RexMachine.Given(b.history)
            else b' == b
  {
    hide Distributed, Proceeds, RexPool.Inv, Ok, AddFee, Advance;
    if RexMachine.Live(b.shares) {
      RexMachine.RefreshIs(b, ct);
      RexMachine.FeeOnce(b.history, ct, fee);
      DueArrives(b, ct);
    }
  }

  lemma DueArrives(b: RexMachine.Books, ct: int)
    requires RexMachine.Inv(b) && Ready(b.history, ct)
    ensures RexMachine.Lendable(RexMachine.Refresh(b, ct).shares)
         == RexMachine.Lendable(b.shares) + RexMachine.Given(Settle(b.history, ct)) - RexMachine.Given(b.history)
  {
    hide Distributed, Proceeds, RexPool.Inv, RexPool.Next, Ok, Advance;
    if b.history.Some? { ProceedsFall(b.history.value, ct); }
    RexMachine.ReturnAdds(b.shares, RexMachine.Given(Settle(b.history, ct)) - RexMachine.Given(b.history));
  }

  /** A loan is opened on the pool as it is after an update, and its price is gathered as a fee; a refused
      one leaves everything as it was. */
  lemma LendSpelled(b: RexMachine.Books, ct: int, id: int, payment: int, x: int)
    requires RexMachine.Inv(b) && Ready(b.history, ct) && b.shares.pool.Some? && 0 < payment
    requires var p := RexMachine.Refresh(b, ct).shares.pool;
             p.Some? && MostFor(x, p.value.rent, p.value.unlent, payment)
    ensures var b', p := RexMachine.Step(b, RexMachine.Lend(ct, id, payment)), RexMachine.Refresh(b, ct).shares.pool.value;
            if 0 < p.rex && id !in b.shares.loans && payment < x then
              && b'.shares == State(Some(Pool(p.lent + x, p.unlent - x, p.rent + payment, p.lendable, p.rex)), b.shares.loans[id := x])
              && b'.history == AddFee(b.history, ct, payment) && b'.fees == b.fees + payment
            else b' == b
  {
    hide Distributed, Proceeds, Ok, AddFee, Advance, MostFor, Rent;
    RexMachine.RefreshIs(b, ct);
    RexMachine.RefreshReady(b, ct);
    RexMachine.FeeOnce(b.history, ct, payment);
    RentIsWorth(RexMachine.Refresh(b, ct).shares.pool.value, b.shares.loans, id, payment, x);
  }
}
