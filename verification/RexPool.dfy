/** The REX share pool of rex.cpp: buying and selling shares, loans against the pool and returns,
    all in whole units with floor division. */
module RexPool {
  import opened Common
  import opened Sums

  const REX_RATIO: int := 10000
  const INIT_RENT: int := 20 * 1000 * 10000     // 20,000.0000 tokens

  datatype Pool = Pool(lent: int, unlent: int, rent: int, lendable: int, rex: int)

  // The pool, once created, and what each open loan has staked.
  datatype State = State(pool: Option<Pool>, loans: map<int, int>)

  // ----- exchange_state.cpp

  /** get_bancor_output over exact quotients, for reserves and inputs that are not negative. */
  function BancorOutput(inReserve: nat, outReserve: nat, inp: nat): nat
    requires 0 < inp
  {
    Product(inp, outReserve) / (inReserve + inp)
  }

  function BancorInput(outReserve: nat, inReserve: nat, out: nat): nat
    requires out < outReserve
  {
    Product(inReserve, out) / (outReserve - out)
  }

  function Product(x: nat, y: nat): nat { x * y }

  /** The output never exhausts the reserve, and the product of the reserves never falls. */
  lemma BancorKeepsProduct(inReserve: nat, outReserve: nat, inp: nat)
    requires 0 < inp
    ensures var out := BancorOutput(inReserve, outReserve, inp);
            && out <= outReserve
            && Product(inReserve, outReserve) <= Product(inReserve + inp, outReserve - out)
  {
    var out := BancorOutput(inReserve, outReserve, inp);
    var d := inReserve + inp;
    DivisionBound(inp * outReserve, d);
    assert out * d <= inp * outReserve;
    assert inp * outReserve <= outReserve * d;
    MulCancel(out, outReserve, d);
    assert d * (outReserve - out) == inReserve * outReserve + inp * outReserve - d * out;
  }

  lemma MulCancel(x: int, y: int, d: int)
    requires 0 < d && x * d <= y * d
    ensures x <= y
  {
    assert (y - x) * d == y * d - x * d;
  }

  lemma MulCancelStrict(x: int, y: int, d: int)
    requires 0 < d && x * d < y * d
    ensures x < y
  {
    assert (y - x) * d == y * d - x * d;
  }

  lemma DivisionBound(x: nat, d: nat)
    requires 0 < d
    ensures x / d * d <= x < x / d * d + d
  {
  }

  /** Paying the price of an output buys at most that output. */
  lemma BancorRoundTrip(inReserve: nat, outReserve: nat, out: nat)
    requires out < outReserve && 0 < BancorInput(outReserve, inReserve, out)
    ensures BancorOutput(inReserve, outReserve, BancorInput(outReserve, inReserve, out)) <= out
  {
    var inp := BancorInput(outReserve, inReserve, out);
    var back := BancorOutput(inReserve, outReserve, inp);
    DivisionBound(inReserve * out, outReserve - out);
    DivisionBound(inp * outReserve, inReserve + inp);
    assert inp * (outReserve - out) <= inReserve * out;
    assert inp * outReserve - inp * out == inp * (outReserve - out);
    assert (inReserve + inp) * out == inReserve * out + inp * out;
    assert back * (inReserve + inp) <= inp * outReserve <= out * (inReserve + inp);
    MulCancel(back, out, inReserve + inp);
  }

  // ----- the helpers, as steps

  /** add_to_rex_pool.  None is an abort; the second part is the shares received. */
  function Buy(o: Option<Pool>, payment: int): Option<(Pool, int)> {
    if o.None? || o.value.rex <= 0 then
      Some((Pool(0, payment, INIT_RENT, payment, payment * REX_RATIO), payment * REX_RATIO))
    else
      var p := o.value;
      if p.lendable <= 0 then None else
      var s1 := p.lendable + payment;
      var r1 := s1 * p.rex / p.lendable;
      if s1 - p.lent < 0 then None
      else Some((p.(lendable := s1, rex := r1, unlent := s1 - p.lent), r1 - p.rex))
  }

  /** fill_rex_order: the proceeds of selling that many shares, if the pool can spare them. */
  function Sell(p: Pool, rex: int): Option<(Pool, int)> {
    if p.rex == 0 then None else
    var proceeds := rex * p.lendable / p.rex;
    if p.unlent - p.lent / 10 < proceeds then None
    else Some((p.(rex := p.rex - rex, lendable := p.lendable - proceeds, unlent := p.lendable - proceeds - p.lent), proceeds))
  }

  // add_loan_to_rex_pool
  function AddLoan(p: Pool, payment: int, rented: int): Pool {
    p.(rent := p.rent + payment, unlent := p.unlent - rented, lent := p.lent + rented)
  }

  // remove_loan_from_rex_pool
  function RemoveLoan(p: Pool, staked: int): Pool
    requires 0 <= p.unlent && 0 <= p.rent && 0 < staked
  {
    p.(rent := p.rent - BancorOutput(p.unlent, p.rent, staked),
       unlent := p.unlent + staked, lent := p.lent - staked,
       lendable := p.unlent + staked + (p.lent - staked))
  }

  // The end of update_rex_pool.
  function Distribute(p: Pool, change: int): Pool {
    if 0 < change then p.(unlent := p.unlent + change, lendable := p.unlent + change + p.lent) else p
  }

  datatype Step =
    | BuyShares(payment: int)
    | SellShares(rex: int)
    | OpenLoan(id: int, payment: int)
    | CloseLoan(id: int)
    | RenewLoan(id: int, payment: int)
    | Return(change: int)

  // Opening a loan on a live pool, on terms that favour renting.
  function Rent(p: Pool, loans: map<int, int>, id: int, payment: int): Option<State>
    requires 0 <= p.unlent && 0 <= p.rent
  {
    if p.rex <= 0 || payment <= 0 || id in loans then None else
    var rented := BancorOutput(p.rent, p.unlent, payment);
    if rented <= payment then None else Some(State(Some(AddLoan(p, payment, rented)), loans[id := rented]))
  }

  /** One helper call.  A loan that cannot be renewed is closed, as runrex does. */
  ghost function Next(s: State, step: Step): State
    requires Inv(s)
  {
    match step
    case BuyShares(payment) =>
      if payment <= 0 || Buy(s.pool, payment).None? then s else s.(pool := Some(Buy(s.pool, payment).value.0))
    case SellShares(rex) =>
      if s.pool.None? || rex <= 0 || s.pool.value.rex < rex || Sell(s.pool.value, rex).None? then s
      else s.(pool := Some(Sell(s.pool.value, rex).value.0))
    case OpenLoan(id, payment) =>
      if s.pool.None? || Rent(s.pool.value, s.loans, id, payment).None? then s
      else Rent(s.pool.value, s.loans, id, payment).value
    case CloseLoan(id) =>
      if s.pool.None? || id !in s.loans then s
      else State(Some(RemoveLoan(s.pool.value, s.loans[id])), s.loans - {id})
    case RenewLoan(id, payment) =>
      if s.pool.None? || id !in s.loans then s else
      RemoveLoanBounds(s.pool.value, s.loans[id]);
      var closed := State(Some(RemoveLoan(s.pool.value, s.loans[id])), s.loans - {id});
      if Rent(closed.pool.value, closed.loans, id, payment).None? then closed
      else Rent(closed.pool.value, closed.loans, id, payment).value
    case Return(change) =>
      if s.pool.None? then s else s.(pool := Some(Distribute(s.pool.value, change)))
  }

  lemma RemoveLoanBounds(p: Pool, staked: int)
    requires 0 <= p.unlent && 0 <= p.rent && 0 < staked
    ensures 0 <= RemoveLoan(p, staked).rent <= p.rent && 0 <= RemoveLoan(p, staked).unlent
  {
    BancorKeepsProduct(p.unlent, p.rent, staked);
  }

  // ----- the invariant

  ghost predicate PoolOk(p: Pool) {
    && 0 <= p.lent && 0 <= p.unlent && 0 <= p.rent && 0 <= p.rex
    && p.lendable == p.unlent + p.lent
    && (0 < p.rex ==> 0 < p.lendable)
    && (p.rex == 0 ==> p.lent == 0)
  }

  /** What is lent is what the open loans have staked; a pool without shares has nothing lent. */
  ghost predicate Inv(s: State) {
    && (forall id | id in s.loans :: 0 < s.loans[id])
    && (s.pool.Some? ==> PoolOk(s.pool.value))
    && SumInt(s.loans) == (if s.pool.Some? then s.pool.value.lent else 0)
  }

  // a / b as a price does not fall: a / b <= c / d for positive b and d.
  predicate NotCheaper(a: int, b: int, c: int, d: int) {
    a * d <= c * b
  }

  /** Buying keeps the pool in order and the price from falling; the check that the pool is not
      empty never fails, nor does the check on the unlent amount. */
  lemma BuyKeeps(o: Option<Pool>, payment: int)
    requires 0 < payment && (o.Some? ==> PoolOk(o.value))
    ensures Buy(o, payment).Some?
    ensures var (p', received) := Buy(o, payment).value;
            && PoolOk(p') && 0 <= received && 0 < p'.rex && p'.lent == (if o.Some? then o.value.lent else 0)
            && (o.Some? && 0 < o.value.rex ==>
                  && p'.rex == o.value.rex + received && p'.lendable == o.value.lendable + payment
                  && NotCheaper(o.value.lendable, o.value.rex, p'.lendable, p'.rex))
  {
    if o.Some? && 0 < o.value.rex {
      var p := o.value;
      var s1 := p.lendable + payment;
      DivisionBound(s1 * p.rex, p.lendable);
      assert p.lendable * p.rex <= s1 * p.rex;
      QuotientAtLeast(s1 * p.rex, p.lendable, p.rex);
    }
  }

  lemma QuotientAtLeast(x: nat, d: nat, q: nat)
    requires 0 < d && d * q <= x
    ensures q <= x / d
  {
    DivisionBound(x, d);
    assert q * d < (x / d + 1) * d;
    MulCancelStrict(q, x / d + 1, d);
  }

  lemma SellProceeds(p: Pool, rex: int)
    requires PoolOk(p) && 0 < rex <= p.rex
    ensures var proceeds := rex * p.lendable / p.rex;
            && 0 <= proceeds <= p.lendable && proceeds * p.rex <= rex * p.lendable
            && (rex < p.rex ==> proceeds < p.lendable) && (rex == p.rex ==> proceeds == p.lendable)
  {
    ShareOfWhole(p.lendable, p.rex, rex, rex * p.lendable);
  }

  lemma ShareOfWhole(whole: nat, parts: nat, n: nat, x: nat)
    requires 0 < n <= parts && x == n * whole
    ensures 0 <= x / parts <= whole && x / parts * parts <= x
    ensures n < parts && 0 < whole ==> x / parts < whole
    ensures n == parts ==> x / parts == whole
  {
    DivisionBound(x, parts);
    MulOrder(n, parts, whole);
    Cancelled(x / parts, whole, parts, x);
    if n == parts {
      QuotientAtLeast(x, parts, whole);
    }
  }

  lemma MulOrder(n: nat, parts: nat, whole: nat)
    requires n <= parts
    ensures n * whole <= whole * parts
    ensures n < parts && 0 < whole ==> n * whole < whole * parts
  {
    assert whole * parts - n * whole == whole * (parts - n);
  }

  lemma Cancelled(q: nat, whole: nat, parts: nat, x: nat)
    requires 0 < parts && q * parts <= x <= whole * parts
    ensures q <= whole && (x < whole * parts ==> q < whole)
  {
    MulCancel(q, whole, parts);
    if x < whole * parts {
      MulCancelStrict(q, whole, parts);
    }
  }

  /** Selling keeps the pool in order and the price from falling; only a pool with nothing lent can
      sell its last share. */
  lemma SellKeeps(p: Pool, rex: int)
    requires PoolOk(p) && 0 < rex <= p.rex
    ensures Sell(p, rex).Some? ==>
              var (p', proceeds) := Sell(p, rex).value;
              && PoolOk(p') && p'.lent == p.lent && 0 <= proceeds
              && NotCheaper(p.lendable, p.rex, p'.lendable, p'.rex)
              && (p'.rex == 0 ==> p.lent == 0 && p'.lendable == 0)
  {
    SellProceeds(p, rex);
    var proceeds := rex * p.lendable / p.rex;
    assert p.lendable * (p.rex - rex) == p.lendable * p.rex - rex * p.lendable;
    assert (p.lendable - proceeds) * p.rex == p.lendable * p.rex - proceeds * p.rex;
  }

  /** Selling at once what was just bought never returns more than was paid. */
  lemma BuyThenSell(o: Option<Pool>, payment: int)
    requires 0 < payment && (o.Some? ==> PoolOk(o.value))
    ensures Buy(o, payment).Some?
    ensures var (p, received) := Buy(o, payment).value;
            0 < received && Sell(p, received).Some? ==> Sell(p, received).value.1 <= payment
  {
    BuyKeeps(o, payment);
    var (p, received) := Buy(o, payment).value;
    if 0 < received {
      SellProceeds(p, received);
      var proceeds := received * p.lendable / p.rex;
      if o.Some? && 0 < o.value.rex {
        var s0, r0 := o.value.lendable, o.value.rex;
        assert s0 * p.rex <= p.lendable * r0;
        assert received * p.lendable == p.rex * p.lendable - r0 * p.lendable;
        assert payment * p.rex == p.lendable * p.rex - s0 * p.rex;
        assert proceeds * p.rex <= payment * p.rex;
        MulCancel(proceeds, payment, p.rex);
      }
    }
  }

  /** A purchase adds exactly its payment to the pool, except that a pool without shares is reset:
      whatever it still held is overwritten. */
  lemma BuyAddsPayment(o: Option<Pool>, payment: int)
    requires 0 < payment && o.Some? && PoolOk(o.value)
    ensures Buy(o, payment).Some?
    ensures Buy(o, payment).value.0.lendable == o.value.lendable + payment <==> 0 < o.value.rex || o.value.lendable == 0
  {
    BuyKeeps(o, payment);
  }

  // ----- loans

  lemma RentKeeps(p: Pool, loans: map<int, int>, id: int, payment: int)
    requires Inv(State(Some(p), loans))
    ensures Rent(p, loans, id, payment).Some? ==>
              var s' := Rent(p, loans, id, payment).value;
              Inv(s') && s'.pool.Some? && s'.pool.value.lendable == p.lendable && s'.pool.value.rex == p.rex
  {
    hide SumInt;
    if Rent(p, loans, id, payment).Some? {
      BancorKeepsProduct(p.rent, p.unlent, payment);
      var rented := BancorOutput(p.rent, p.unlent, payment);
      assert loans[id := rented] - {id} == loans - {id};
      IntChange(loans, loans[id := rented], id);
    }
  }

  lemma CloseKeeps(p: Pool, loans: map<int, int>, id: int)
    requires Inv(State(Some(p), loans)) && id in loans
    ensures var s' := State(Some(RemoveLoan(p, loans[id])), loans - {id});
            Inv(s') && s'.pool.value.lendable == p.lendable && s'.pool.value.rex == p.rex
  {
    hide SumInt;
    RemoveLoanBounds(p, loans[id]);
    IntRemove(loans, id);
    forall x | x in loans - {id}
      ensures 0 <= (loans - {id})[x]
    {
      assert 0 < loans[x];
    }
    IntNonNegative(loans - {id});
  }

  // The price of a share, compared by cross-multiplication, while there are shares.
  ghost predicate PriceHeld(s: State, s': State) {
    s.pool.Some? && 0 < s.pool.value.rex && s'.pool.Some? && 0 < s'.pool.value.rex ==>
      NotCheaper(s.pool.value.lendable, s.pool.value.rex, s'.pool.value.lendable, s'.pool.value.rex)
  }

  /** No step breaks the pool or lets the price of a share fall, and only a pool with nothing lent
      can run out of shares. */
  lemma NextKeeps(s: State, step: Step)
    requires Inv(s)
    ensures Inv(Next(s, step)) && PriceHeld(s, Next(s, step))
    ensures s.pool.Some? ==> Next(s, step).pool.Some?
  {
    hide Buy, Sell, Rent, RemoveLoan, SumInt;
    match step
    case BuyShares(payment) => if 0 < payment { BuyKeeps(s.pool, payment); }
    case SellShares(rex) => if s.pool.Some? && 0 < rex <= s.pool.value.rex { SellKeeps(s.pool.value, rex); }
    case OpenLoan(id, payment) => if s.pool.Some? { RentKeeps(s.pool.value, s.loans, id, payment); }
    case CloseLoan(id) => if s.pool.Some? && id in s.loans { CloseKeeps(s.pool.value, s.loans, id); }
    case RenewLoan(id, payment) =>
      if s.pool.Some? && id in s.loans {
        CloseKeeps(s.pool.value, s.loans, id);
        RentKeeps(RemoveLoan(s.pool.value, s.loans[id]), s.loans - {id}, id, payment);
      }
    case Return(change) => if s.pool.Some? { ReturnKeeps(s.pool.value, change); }
  }

  lemma ReturnKeeps(p: Pool, change: int)
    requires PoolOk(p)
    ensures PoolOk(Distribute(p, change)) && Distribute(p, change).lent == p.lent && Distribute(p, change).rex == p.rex
    ensures NotCheaper(p.lendable, p.rex, Distribute(p, change).lendable, p.rex)
  {
    assert p.lendable <= Distribute(p, change).lendable;
  }

  // Every state of the run has shares.
  ghost predicate StaysOpen(s: State, steps: seq<Step>)
    requires Inv(s)
    decreases |steps|
  {
    && s.pool.Some? && 0 < s.pool.value.rex
    && (steps != [] ==> (NextKeeps(s, steps[0]); StaysOpen(Next(s, steps[0]), steps[1..])))
  }

  ghost function Run(s: State, steps: seq<Step>): State
    requires Inv(s)
    decreases |steps|
  {
    if steps == [] then s else NextKeeps(s, steps[0]); Run(Next(s, steps[0]), steps[1..])
  }

  lemma PriceTransitive(a: int, b: int, c: int, d: int, e: int, f: int)
    requires 0 < b && 0 < d && 0 < f && NotCheaper(a, b, c, d) && NotCheaper(c, d, e, f)
    ensures NotCheaper(a, b, e, f)
  {
    assert a * d * f <= c * b * f by { assert a * d <= c * b; }
    assert c * f * b <= e * d * b by { assert c * f <= e * d; }
    assert a * f * d <= e * b * d by {
      assert a * f * d == a * d * f && c * b * f == c * f * b && e * d * b == e * b * d;
    }
    MulCancel(a * f, e * b, d);
  }

  /** Over any run in which the pool keeps shares, the price of a share never ends below where it
      began, and the pool stays in order. */
  lemma {:induction false} PriceOfEveryRun(s: State, steps: seq<Step>)
    requires Inv(s) && StaysOpen(s, steps)
    ensures Inv(Run(s, steps)) && Run(s, steps).pool.Some? && 0 < Run(s, steps).pool.value.rex
    ensures var p, p' := s.pool.value, Run(s, steps).pool.value;
            NotCheaper(p.lendable, p.rex, p'.lendable, p'.rex)
    decreases |steps|
  {
    hide Next, Inv;
    if steps != [] {
      NextKeeps(s, steps[0]);
      var s1 := Next(s, steps[0]);
      PriceOfEveryRun(s1, steps[1..]);
      var p, p1, p' := s.pool.value, s1.pool.value, Run(s, steps).pool.value;
      PriceTransitive(p.lendable, p.rex, p1.lendable, p1.rex, p'.lendable, p'.rex);
    }
  }

  const EMPTY: State := State(None, map[])

  lemma EmptyInv()
    ensures Inv(EMPTY)
  {
  }

  // Everything is sold, and a late return arrives.
  function LateReturn(first: int, late: int): seq<Step> {
    [BuyShares(first), SellShares(first * REX_RATIO), Return(late)]
  }

  lemma SellAll(p: Pool)
    requires PoolOk(p) && 0 < p.rex && p.lent == 0
    ensures Sell(p, p.rex) == Some((p.(rex := 0, lendable := 0, unlent := 0), p.lendable))
  {
    SellProceeds(p, p.rex);
  }

  lemma {:induction false} RunSteps(s: State, step: Step, rest: seq<Step>)
    requires Inv(s)
    ensures Inv(Next(s, step)) && Run(s, [step] + rest) == Run(Next(s, step), rest)
  {
    NextKeeps(s, step);
    assert ([step] + rest)[1..] == rest;
  }

  lemma NextBuys(s: State, payment: int)
    requires Inv(s) && 0 < payment && (s.pool.Some? ==> s.pool.value.rex == 0)
    ensures Next(s, BuyShares(payment)) == s.(pool := Some(Pool(0, payment, INIT_RENT, payment, payment * REX_RATIO)))
  {
  }

  lemma NextSellsAll(s: State)
    requires Inv(s) && s.pool.Some? && 0 < s.pool.value.rex && s.pool.value.lent == 0
    ensures Next(s, SellShares(s.pool.value.rex)) == s.(pool := Some(s.pool.value.(rex := 0, lendable := 0, unlent := 0)))
  {
    hide Sell;
    SellAll(s.pool.value);
  }

  lemma NextReturns(s: State, change: int)
    requires Inv(s) && s.pool.Some? && 0 < change && s.pool.value.lent == 0
    ensures var p := s.pool.value;
            Next(s, Return(change)) == s.(pool := Some(p.(unlent := p.unlent + change, lendable := p.unlent + change)))
  {
  }

  // The pool then holds the return and has no shares.
  function Leftover(late: int): State {
    EMPTY.(pool := Some(Pool(0, late, INIT_RENT, late, 0)))
  }

  lemma LateReturnLeaves(first: int, late: int, rest: seq<Step>)
    requires 0 < first && 0 < late
    ensures Inv(EMPTY) && Inv(Leftover(late)) && Run(EMPTY, LateReturn(first, late) + rest) == Run(Leftover(late), rest)
  {
    hide Next, Run, SumInt, Inv;
    EmptyInv();
    var rex := first * REX_RATIO;
    var s1 := EMPTY.(pool := Some(Pool(0, first, INIT_RENT, first, rex)));
    var s2 := EMPTY.(pool := Some(Pool(0, 0, INIT_RENT, 0, 0)));
    var steps := LateReturn(first, late);
    NextBuys(EMPTY, first);
    RunSteps(EMPTY, steps[0], [steps[1], steps[2]] + rest);
    NextSellsAll(s1);
    RunSteps(s1, steps[1], [steps[2]] + rest);
    NextReturns(s2, late);
    RunSteps(s2, steps[2], rest);
    assert steps + rest == [steps[0]] + ([steps[1], steps[2]] + rest);
    assert [steps[1], steps[2]] + rest == [steps[1]] + ([steps[2]] + rest);
  }

  /** A pool without shares can still be given returns, and the next purchase overwrites them: after
      this run the pool holds the second payment alone. */
  lemma ResetLosesReturn(first: int, late: int, second: int)
    requires 0 < first && 0 < late && 0 < second
    ensures Inv(EMPTY)
    ensures Run(EMPTY, LateReturn(first, late)) == Leftover(late)
    ensures var s := Run(EMPTY, LateReturn(first, late) + [BuyShares(second)]);
            s.pool.Some? && s.pool.value.lendable == second < late + second
  {
    hide Next, SumInt, Inv;
    LateReturnLeaves(first, late, []);
    assert LateReturn(first, late) + [] == LateReturn(first, late);
    LateReturnLeaves(first, late, [BuyShares(second)]);
    NextBuys(Leftover(late), second);
    RunSteps(Leftover(late), BuyShares(second), []);
    assert [BuyShares(second)] + [] == [BuyShares(second)];
  }
}
