/** Name auctions: bidname and bidrefund, the daily close in onblock and the claim in newaccount. */
module Auctions {
  import opened Common
  import opened Sums
  import Token

  const DAY: int := 24 * 3600 * 1000000            // microseconds
  const BLOCKS_PER_DAY: int := 2 * 24 * 3600       // half-second slots
  const TWO_TO_64: int := 0x1_0000_0000_0000_0000

  // A negative high bid marks a closed auction waiting to be claimed.
  datatype Bid = Bid(bidder: Name, high: int, time: int)

  // How an account name may be created: freely, by auction, or by its suffix account.
  datatype Kind = Free | Premium | Under(suffix: Name)

  datatype State = State(
    bids: map<Name, Bid>,
    refunds: map<(Name, Name), int>,    // by auctioned name and bidder
    accounts: set<Name>,
    token: Token.State,
    now: int,
    activationTime: int,
    lastSchedule: int,
    lastClose: int)

  // ----- the index by high bid

  // The index key: the negated bid as an unsigned 64-bit word.
  function Key(high: int): int {
    (-high) % TWO_TO_64
  }

  // The first row of the index, ordered by key and then by name, at or after a bound.
  ghost predicate IsLowerBound(bids: map<Name, Bid>, bound: int, n: Name) {
    && n in bids && bound <= Key(bids[n].high)
    && forall m | m in bids && bound <= Key(bids[m].high) ::
         Key(bids[n].high) < Key(bids[m].high) || (Key(bids[n].high) == Key(bids[m].high) && n <= m)
  }

  // The open auction with the greatest bid, the smallest name among equals.
  ghost predicate IsHighest(bids: map<Name, Bid>, n: Name) {
    && n in bids && 0 < bids[n].high
    && forall m | m in bids && 0 < bids[m].high ::
         bids[m].high < bids[n].high || (bids[m].high == bids[n].high && n <= m)
  }

  ghost function Highest(bids: map<Name, Bid>): Option<Name> {
    if exists n :: IsHighest(bids, n) then
      var n :| IsHighest(bids, n);
      Some(n)
    else None
  }

  // ----- the actions

  /** bidname. */
  function BidName(s: State, kindOf: Name -> Kind, bidder: Name, n: Name, q: int): Option<State> {
    if kindOf(n) != Premium || n in s.accounts || q <= 0 then None else
    match Token.Act(s.token, Token.Pay(bidder, EOSIO_NAMES, q))
    case None => None
    case Some(t) =>
      if n !in s.bids then
        Some(s.(token := t, bids := s.bids[n := Bid(bidder, q, s.now)]))
      else
        var b := s.bids[n];
        if b.high <= 0 || q - b.high <= b.high / 10 || b.bidder == bidder then None else
        var k := (n, b.bidder);
        Some(s.(token := t, bids := s.bids[n := Bid(bidder, q, s.now)],
                refunds := s.refunds[k := (if k in s.refunds then s.refunds[k] else 0) + b.high]))
  }

  /** bidrefund. */
  function BidRefund(s: State, bidder: Name, n: Name): Option<State> {
    if (n, bidder) !in s.refunds then None else
    match Token.Act(s.token, Token.Pay(EOSIO_NAMES, bidder, s.refunds[(n, bidder)]))
    case Some(t) => Some(s.(token := t, refunds := s.refunds - {(n, bidder)}))
    case None => None
  }

  // The conditions under which the highest open auction is closed.
  predicate Ripe(s: State, b: Bid) {
    && DAY < s.now - b.time
    && 0 < s.activationTime && 14 * DAY < s.now - s.activationTime
  }

  /** onblock's part in the auctions: at most once a day the highest open auction is closed and its
      bid leaves for the usage account. */
  ghost function OnBlock(s: State, slot: int): Option<State> {
    if s.activationTime == 0 || slot - s.lastSchedule <= 120 then Some(s) else
    var s1 := s.(lastSchedule := slot);
    if slot - s.lastClose <= BLOCKS_PER_DAY || Highest(s.bids).None? || !Ripe(s, s.bids[Highest(s.bids).value]) then Some(s1) else
    var n := Highest(s.bids).value;
    match Token.Act(s.token, Token.Pay(EOSIO_NAMES, EOSIO_UPAY, s.bids[n].high))
    case Some(t) => Some(s1.(token := t, lastClose := slot, bids := s.bids[n := s.bids[n].(high := -s.bids[n].high)]))
    case None => None
  }

  /** newaccount: a premium name goes to the winner of its closed auction, unless the system itself
      creates it. */
  function NewAccount(s: State, kindOf: Name -> Kind, creator: Name, n: Name): Option<State> {
    if n in s.accounts then None
    else if creator == EOSIO then Some(s.(accounts := s.accounts + {n})) else
    match kindOf(n)
    case Free => Some(s.(accounts := s.accounts + {n}))
    case Under(suffix) => if creator == suffix then Some(s.(accounts := s.accounts + {n})) else None
    case Premium =>
      if n !in s.bids || s.bids[n].bidder != creator || 0 <= s.bids[n].high then None
      else Some(s.(accounts := s.accounts + {n}, bids := s.bids - {n}))
  }

  datatype Action =
    | PlaceBid(bidder: Name, name: Name, quantity: int)
    | TakeRefund(bidder: Name, name: Name)
    | Block(slot: int)
    | CreateAccount(creator: Name, name: Name)
    | TokenAction(action: Token.Action)

  datatype Event = Event(time: int, activationTime: int, action: Action)

  function Tick(s: State, e: Event): State {
    s.(now := e.time, activationTime := e.activationTime)
  }

  ghost function Act(s: State, kindOf: Name -> Kind, a: Action): Option<State> {
    match a
    case PlaceBid(bidder, n, q) => BidName(s, kindOf, bidder, n, q)
    case TakeRefund(bidder, n) => BidRefund(s, bidder, n)
    case Block(slot) => OnBlock(s, slot)
    case CreateAccount(creator, n) => NewAccount(s, kindOf, creator, n)
    case TokenAction(ta) =>
      match Token.Act(s.token, ta) {
        case Some(t) => Some(s.(token := t))
        case None => None
      }
  }

  ghost function Next(s: State, kindOf: Name -> Kind, e: Event): State {
    match Act(Tick(s, e), kindOf, e.action)
    case Some(s') => s'
    case None => Tick(s, e)
  }

  // ----- the index refines the maximum

  ghost predicate InRange(bids: map<Name, Bid>) {
    forall n | n in bids :: bids[n].high != 0 && -MAX_AMOUNT <= bids[n].high <= MAX_AMOUNT
  }

  /** For bids that are asset amounts, the index lookup at 2^63 - 1 finds the highest open auction
      and never a closed one; and it finds one exactly when an auction is open. */
  lemma LookupFindsHighest(bids: map<Name, Bid>, n: Name)
    requires InRange(bids)
    ensures IsLowerBound(bids, (TWO_TO_64 - 1) / 2, n) <==> IsHighest(bids, n)
  {
    forall m | m in bids
      ensures (TWO_TO_64 - 1) / 2 <= Key(bids[m].high) <==> 0 < bids[m].high
      ensures 0 < bids[m].high ==> Key(bids[m].high) == TWO_TO_64 - bids[m].high
    {
      KeyOf(bids[m].high);
    }
  }

  lemma KeyOf(high: int)
    requires high != 0 && -MAX_AMOUNT <= high <= MAX_AMOUNT
    ensures 0 < high ==> Key(high) == TWO_TO_64 - high
    ensures high < 0 ==> Key(high) == -high
  {
  }

  lemma {:induction false} HighestExists(bids: map<Name, Bid>, n: Name)
    requires n in bids && 0 < bids[n].high
    ensures exists m :: IsHighest(bids, m)
    decreases |bids|
  {
    var rest := bids - {n};
    assert rest.Keys == bids.Keys - {n};
    if m: Name :| m in rest && 0 < rest[m].high {
      HighestExists(rest, m);
      var h: Name :| IsHighest(rest, h);
      assert forall x: Name | x in bids :: x == n || (x in rest && rest[x] == bids[x]);
      if bids[n].high < bids[h].high || (bids[n].high == bids[h].high && h <= n) {
        assert IsHighest(bids, h);
      } else {
        assert IsHighest(bids, n);
      }
    } else {
      assert forall x: Name | x in bids && 0 < bids[x].high :: x == n by {
        forall x: Name | x in bids && 0 < bids[x].high
          ensures x == n
        {
          assert x != n ==> x in rest;
        }
      }
      assert IsHighest(bids, n);
    }
  }

  lemma HighestIs(bids: map<Name, Bid>)
    ensures Highest(bids).Some? ==> IsHighest(bids, Highest(bids).value)
    ensures Highest(bids).None? <==> forall n | n in bids :: bids[n].high <= 0
  {
    if n: Name :| n in bids && 0 < bids[n].high {
      HighestExists(bids, n);
    }
  }

  // ----- the invariant

  ghost function OpenBids(bids: map<Name, Bid>): map<Name, int> {
    map n | n in bids :: if 0 < bids[n].high then bids[n].high else 0
  }

  ghost predicate Inv(s: State) {
    && Token.Inv(s.token) && InRange(s.bids)
    && (forall n | n in s.bids :: s.bids[n].bidder != EOSIO_NAMES)
    && (forall k | k in s.refunds :: 0 < s.refunds[k] && k.1 != EOSIO_NAMES)
  }

  // What the auction account holds beyond open bids and refunds.
  ghost function Backing(s: State): int {
    Token.BalanceOf(s.token.balances, EOSIO_NAMES) - SumInt(OpenBids(s.bids)) - SumInt(s.refunds)
  }

  lemma PayMoves(t: Token.State, from: Name, to: Name, q: int)
    requires Token.Inv(t)
    ensures Token.Act(t, Token.Pay(from, to, q)).Some? <==> from != to && 0 < q <= Token.BalanceOf(t.balances, from)
    ensures Token.Act(t, Token.Pay(from, to, q)).Some? ==>
              var t' := Token.Act(t, Token.Pay(from, to, q)).value;
              && Token.Inv(t') && 0 < q <= MAX_AMOUNT
              && (forall a :: Token.BalanceOf(t'.balances, a)
                           == Token.BalanceOf(t.balances, a) + (if a == to then q else 0) - (if a == from then q else 0))
  {
    hide SumInt;
    Token.TransferMoves(t.balances, from, to, q);
    Token.NextKeeps(t, Token.Pay(from, to, q));
    IntMember(t.balances, from);
    IntNonNegative(t.balances);
  }

  lemma BidKeeps(s: State, kindOf: Name -> Kind, bidder: Name, n: Name, q: int)
    requires Inv(s)
    ensures var o := BidName(s, kindOf, bidder, n, q);
            o.Some? ==> Inv(o.value) && Backing(o.value) == Backing(s)
  {
    hide SumInt, Token.Act, Token.Inv;
    PayMoves(s.token, bidder, EOSIO_NAMES, q);
    var o := BidName(s, kindOf, bidder, n, q);
    if o.Some? {
      assert OpenBids(o.value.bids) - {n} == OpenBids(s.bids) - {n};
      IntChange(OpenBids(s.bids), OpenBids(o.value.bids), n);
      if n in s.bids {
        var k := (n, s.bids[n].bidder);
        assert o.value.refunds - {k} == s.refunds - {k};
        IntChange(s.refunds, o.value.refunds, k);
      }
    }
  }

  lemma BidRefundKeeps(s: State, bidder: Name, n: Name)
    requires Inv(s)
    ensures var o := BidRefund(s, bidder, n);
            o.Some? ==> Inv(o.value) && Backing(o.value) == Backing(s)
  {
    hide SumInt, Token.Act, Token.Inv;
    if (n, bidder) in s.refunds {
      PayMoves(s.token, EOSIO_NAMES, bidder, s.refunds[(n, bidder)]);
      IntRemove(s.refunds, (n, bidder));
    }
  }

  lemma OnBlockKeeps(s: State, slot: int)
    requires Inv(s)
    ensures var o := OnBlock(s, slot);
            o.Some? ==> Inv(o.value) && Backing(o.value) == Backing(s)
  {
    hide SumInt, Token.Act, Token.Inv, Highest, Ripe;
    HighestIs(s.bids);
    var o := OnBlock(s, slot);
    if o.Some? && o.value.bids != s.bids {
      var n := Highest(s.bids).value;
      PayMoves(s.token, EOSIO_NAMES, EOSIO_UPAY, s.bids[n].high);
      assert OpenBids(o.value.bids) - {n} == OpenBids(s.bids) - {n};
      IntChange(OpenBids(s.bids), OpenBids(o.value.bids), n);
    }
  }

  lemma NewAccountKeeps(s: State, kindOf: Name -> Kind, creator: Name, n: Name)
    requires Inv(s)
    ensures var o := NewAccount(s, kindOf, creator, n);
            o.Some? ==> Inv(o.value) && Backing(o.value) == Backing(s)
  {
    hide SumInt, Token.Inv;
    var o := NewAccount(s, kindOf, creator, n);
    if o.Some? && o.value.bids != s.bids {
      assert OpenBids(o.value.bids) == OpenBids(s.bids) - {n};
      IntRemove(OpenBids(s.bids), n);
    }
  }

  // The auction account acts only through the contract.
  predicate Ordinary(a: Action) {
    a.TokenAction? && a.action.Pay? ==> a.action.from != EOSIO_NAMES
  }

  // Tokens given to the auction account from outside.
  function Gift(s: State, a: Action): int {
    if a.TokenAction? && a.action.Pay? && a.action.to == EOSIO_NAMES && Token.Act(s.token, a.action).Some? then a.action.quantity else 0
  }

  lemma TokenActionKeeps(s: State, ta: Token.Action)
    requires Inv(s) && Ordinary(TokenAction(ta)) && Token.Act(s.token, ta).Some? && s.token.issuer != EOSIO_NAMES
    ensures var s' := s.(token := Token.Act(s.token, ta).value);
            Inv(s') && Backing(s') == Backing(s) + Gift(s, TokenAction(ta))
  {
    hide SumInt;
    Token.NextKeeps(s.token, ta);
    if ta.Pay? { PayMoves(s.token, ta.from, ta.to, ta.quantity); }
  }

  /** Auction conservation: over bid, outbid, refund, daily close and claim, the account's balance
      less the open bids and the refunds never changes, gifts aside. */
  lemma ActKeeps(s: State, kindOf: Name -> Kind, a: Action)
    requires Inv(s) && Ordinary(a) && s.token.issuer != EOSIO_NAMES
    ensures Act(s, kindOf, a).Some? ==>
              var s' := Act(s, kindOf, a).value;
              Inv(s') && Backing(s') == Backing(s) + Gift(s, a) && s'.token.issuer == s.token.issuer
  {
    hide Inv, Backing, OnBlock, Token.Act;
    IssuerStays(s, kindOf, a);
    match a
    case PlaceBid(bidder, n, q) => BidKeeps(s, kindOf, bidder, n, q);
    case TakeRefund(bidder, n) => BidRefundKeeps(s, bidder, n);
    case Block(slot) => OnBlockKeeps(s, slot);
    case CreateAccount(creator, n) => NewAccountKeeps(s, kindOf, creator, n);
    case TokenAction(ta) => if Token.Act(s.token, ta).Some? { TokenActionKeeps(s, ta); }
  }

  lemma IssuerStays(s: State, kindOf: Name -> Kind, a: Action)
    ensures Act(s, kindOf, a).Some? ==> Act(s, kindOf, a).value.token.issuer == s.token.issuer
  {
    hide Highest, Ripe;
  }

  /** A backed auction account can always pay: a refund succeeds exactly when it is recorded, and the
      daily close never aborts a block. */
  lemma AuctionsCanPay(s: State, bidder: Name, n: Name, slot: int)
    requires Inv(s) && 0 <= Backing(s)
    ensures BidRefund(s, bidder, n).Some? <==> (n, bidder) in s.refunds
    ensures OnBlock(s, slot).Some?
  {
    hide SumInt, Token.Act, Token.Inv, Highest, Ripe;
    HighestIs(s.bids);
    IntNonNegative(OpenBids(s.bids));
    IntNonNegative(s.refunds);
    if (n, bidder) in s.refunds {
      IntMember(s.refunds, (n, bidder));
      PayMoves(s.token, EOSIO_NAMES, bidder, s.refunds[(n, bidder)]);
    }
    if Highest(s.bids).Some? {
      var h := Highest(s.bids).value;
      IntMember(OpenBids(s.bids), h);
      PayMoves(s.token, EOSIO_NAMES, EOSIO_UPAY, s.bids[h].high);
    }
  }

  // ----- the life of one auction

  /** How one name's auction can change in one step: an open bid only grows, by more than a tenth; it
      closes at its own amount; and a closed one stays as it is until its winner makes the name an
      account. */
  ghost predicate Progress(s: State, a: Action, s': State, n: Name) {
    && (n in s.bids && n in s'.bids && 0 < s.bids[n].high && 0 < s'.bids[n].high ==>
          s'.bids[n] == s.bids[n] || s.bids[n].high + s.bids[n].high / 10 < s'.bids[n].high)
    && (n in s.bids && n in s'.bids && 0 < s.bids[n].high && s'.bids[n].high < 0 ==>
          s'.bids[n] == s.bids[n].(high := -s.bids[n].high))
    && (n in s.bids && n in s'.bids && s.bids[n].high < 0 ==> s'.bids[n] == s.bids[n])
    && (n in s.bids && n !in s'.bids ==>
          s.bids[n].high < 0 && n in s'.accounts && a == CreateAccount(s.bids[n].bidder, n))
    && s.accounts <= s'.accounts
    && (n in s.accounts && n !in s.bids ==> n !in s'.bids)
  }

  lemma StepProgress(s: State, kindOf: Name -> Kind, a: Action, n: Name)
    requires Inv(s)
    ensures Act(s, kindOf, a).Some? ==> Progress(s, a, Act(s, kindOf, a).value, n)
  {
    hide SumInt, Token.Act, Token.Inv, Highest, Ripe;
    HighestIs(s.bids);
  }

  // Closed with this winner and price, or already claimed.
  ghost predicate ClosedFor(s: State, n: Name, winner: Name, price: int) {
    if n in s.bids then s.bids[n].bidder == winner && s.bids[n].high == -price else n in s.accounts
  }

  // The winner made the name an account in one of these events.
  ghost predicate ClaimedBy(es: seq<Event>, n: Name, winner: Name) {
    exists i | 0 <= i < |es| :: es[i].action == CreateAccount(winner, n)
  }

  lemma ClaimedFirst(es: seq<Event>, n: Name, winner: Name)
    requires es != [] && es[0].action == CreateAccount(winner, n)
    ensures ClaimedBy(es, n, winner)
  {
  }

  lemma ClaimedLater(es: seq<Event>, n: Name, winner: Name)
    requires es != [] && ClaimedBy(es[1..], n, winner)
    ensures ClaimedBy(es, n, winner)
  {
    var i :| 0 <= i < |es[1..]| && es[1..][i].action == CreateAccount(winner, n);
    assert es[i + 1] == es[1..][i];
  }

  ghost predicate IsRun(s: State, kindOf: Name -> Kind, es: seq<Event>, s': State)
    decreases |es|
  {
    if es == [] then s' == s
    else Ordinary(es[0].action) && s.token.issuer != EOSIO_NAMES && IsRun(Next(s, kindOf, es[0]), kindOf, es[1..], s')
  }

  lemma NextKeeps(s: State, kindOf: Name -> Kind, e: Event)
    requires Inv(s) && Ordinary(e.action) && s.token.issuer != EOSIO_NAMES
    ensures Inv(Tick(s, e)) && Inv(Next(s, kindOf, e)) && Backing(s) <= Backing(Next(s, kindOf, e))
  {
    hide SumInt, Act, Token.Inv, OpenBids;
    ActKeeps(Tick(s, e), kindOf, e.action);
    GiftPositive(Tick(s, e), e.action);
  }

  lemma GiftPositive(s: State, a: Action)
    ensures 0 <= Gift(s, a)
  {
  }

  lemma {:induction false} RunKeeps(s: State, kindOf: Name -> Kind, es: seq<Event>, s': State, n: Name,
                                    winner: Name, price: int)
    requires Inv(s) && IsRun(s, kindOf, es, s')
    ensures Inv(s') && Backing(s) <= Backing(s')
    ensures 0 < price && ClosedFor(s, n, winner, price) ==> ClosedFor(s', n, winner, price)
    ensures 0 < price && ClosedFor(s, n, winner, price) && n in s.bids && n !in s'.bids ==> ClaimedBy(es, n, winner)
    decreases |es|
  {
    hide Inv, Backing, Act, ClaimedBy;
    if es != [] {
      NextKeeps(s, kindOf, es[0]);
      StepProgress(Tick(s, es[0]), kindOf, es[0].action, n);
      RunKeeps(Next(s, kindOf, es[0]), kindOf, es[1..], s', n, winner, price);
      if ClaimedBy(es[1..], n, winner) { ClaimedLater(es, n, winner); }
      if es[0].action == CreateAccount(winner, n) { ClaimedFirst(es, n, winner); }
    }
  }

  // No auction yet; any token and any accounts.
  function Genesis(token: Token.State, accounts: set<Name>, now: int, slot: int): State {
    State(map[], map[], accounts, token, now, 0, slot, slot)
  }

  lemma GenesisInv(token: Token.State, accounts: set<Name>, now: int, slot: int)
    requires Token.Inv(token)
    ensures Inv(Genesis(token, accounts, now, slot)) && 0 <= Backing(Genesis(token, accounts, now, slot))
  {
    var s := Genesis(token, accounts, now, slot);
    assert OpenBids(s.bids) == map[];
  }

  /** After any run from a state without auctions, the auction account covers every open bid and
      every refund, so that a refund succeeds exactly when it is recorded and the daily close never
      aborts a block; and an auction that has closed never reopens nor changes winner or price, and
      ends only when its winner makes the name an account. */
  lemma AuctionsOfEveryRun(token: Token.State, accounts: set<Name>, now: int, first: int, kindOf: Name -> Kind,
                           es: seq<Event>, s: State, bidder: Name, n: Name, slot: int,
                           later: seq<Event>, s': State, winner: Name, price: int)
    requires Token.Inv(token) && IsRun(Genesis(token, accounts, now, first), kindOf, es, s)
    ensures SumInt(OpenBids(s.bids)) + SumInt(s.refunds) <= Token.BalanceOf(s.token.balances, EOSIO_NAMES)
    ensures BidRefund(s, bidder, n).Some? <==> (n, bidder) in s.refunds
    ensures OnBlock(s, slot).Some?
    ensures IsRun(s, kindOf, later, s') && 0 < price && ClosedFor(s, n, winner, price) ==> ClosedFor(s', n, winner, price)
    ensures IsRun(s, kindOf, later, s') && n in s.bids && s.bids[n].high < 0 && n !in s'.bids ==>
              ClaimedBy(later, n, s.bids[n].bidder)
  {
    hide Inv, IsRun, SumInt, OpenBids, BidRefund, OnBlock, ClaimedBy;
    GenesisInv(token, accounts, now, first);
    RunKeeps(Genesis(token, accounts, now, first), kindOf, es, s, n, winner, price);
    AuctionsCanPay(s, bidder, n, slot);
    if IsRun(s, kindOf, later, s') {
      RunKeeps(s, kindOf, later, s', n, winner, price);
      if n in s.bids { RunKeeps(s, kindOf, later, s', n, s.bids[n].bidder, -s.bids[n].high); }
    }
  }
}
