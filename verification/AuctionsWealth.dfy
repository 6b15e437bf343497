/** Whose bids, refunds and names: what each auction action does to every row and balance, and over
    whole runs that all an account ever bid is still open, due, taken back or spent on a closed auction. */
module AuctionsWealth {
  import opened Common
  import opened Sums
  import opened Auctions
  import Token

  function RefundOf(s: State, n: Name, a: Name): int {
    if (n, a) in s.refunds then s.refunds[(n, a)] else 0
  }

  // The auctions of all names but n are as they were.
  ghost predicate OtherBids(s: State, s': State, n: Name) {
    s'.bids - {n} == s.bids - {n}
  }

  // Only the auctions, the refunds and the token changed.
  ghost predicate SameChain(s: State, s': State) {
    s' == s.(bids := s'.bids, refunds := s'.refunds, token := s'.token)
  }

  /** bidname: who may bid, and that the new bidder pays its bid, leads the auction from now, and whoever
      led before is owed just what it had bid; nobody else's refund and no other auction moves. */
  lemma BidSpelled(s: State, kindOf: Name -> Kind, bidder: Name, n: Name, q: int)
    requires Inv(s)
    ensures BidName(s, kindOf, bidder, n, q).Some?
            <==> && kindOf(n) == Premium && n !in s.accounts
                 && bidder != EOSIO_NAMES && 0 < q <= Token.BalanceOf(s.token.balances, bidder)
                 && (n in s.bids ==> 0 < s.bids[n].high && s.bids[n].bidder != bidder && s.bids[n].high / 10 < q - s.bids[n].high)
    ensures BidName(s, kindOf, bidder, n, q).Some? ==>
              var s' := BidName(s, kindOf, bidder, n, q).value;
              && n in s'.bids && s'.bids[n] == Bid(bidder, q, s.now) && OtherBids(s, s', n)
              && (forall m: Name, a: Name :: RefundOf(s', m, a)
                              == RefundOf(s, m, a) + if m == n && n in s.bids && a == s.bids[n].bidder then s.bids[n].high else 0)
              && Token.Moved(s.token.balances, s'.token.balances, bidder, EOSIO_NAMES, q)
              && SameChain(s, s')
  {
    hide Token.Act, Token.Inv;
    PayMoves(s.token, bidder, EOSIO_NAMES, q);
  }

  /** bidrefund: the bidder named is paid what it is owed for the name, once. */
  lemma BidRefundSpelled(s: State, bidder: Name, n: Name)
    requires Inv(s) && BidRefund(s, bidder, n).Some?
    ensures var s' := BidRefund(s, bidder, n).value;
            && 0 < RefundOf(s, n, bidder) && (n, bidder) !in s'.refunds
            && (forall m: Name, a: Name :: RefundOf(s', m, a) == if m == n && a == bidder then 0 else RefundOf(s, m, a))
            && Token.Moved(s.token.balances, s'.token.balances, EOSIO_NAMES, bidder, RefundOf(s, n, bidder))
            && s'.bids == s.bids && SameChain(s, s')
  {
    hide Token.Act, Token.Inv;
    PayMoves(s.token, EOSIO_NAMES, bidder, s.refunds[(n, bidder)]);
  }

  // The open auction with the greatest bid, the smallest name among equals.
  ghost predicate Leads(bids: map<Name, Bid>, n: Name) {
    && n in bids && 0 < bids[n].high
    && forall m | m in bids :: bids[m].high <= bids[n].high && (bids[m].high == bids[n].high ==> n <= m)
  }

  /** onblock: more than 120 slots after the last schedule, and more than a day of slots after the last
      close, the leading auction is closed if its bid is more than a day old and the chain has been
      activated for more than 14 days; its bid goes to the usage account.  Nothing else is touched. */
  lemma OnBlockSpelled(s: State, slot: int)
    requires Inv(s) && OnBlock(s, slot).Some?
    ensures var s' := OnBlock(s, slot).value;
            var due := s.activationTime != 0 && 120 < slot - s.lastSchedule;
            && s'.refunds == s.refunds && s'.accounts == s.accounts && s'.now == s.now && s'.activationTime == s.activationTime
            && s'.lastSchedule == (if due then slot else s.lastSchedule)
            && (forall n | Leads(s.bids, n) ::
                  if due && 172800 < slot - s.lastClose && 86400000000 < s.now - s.bids[n].time
                     && 0 < s.activationTime && 1209600000000 < s.now - s.activationTime then
                    && n in s'.bids && s'.bids[n] == Bid(s.bids[n].bidder, -s.bids[n].high, s.bids[n].time) && OtherBids(s, s', n)
                    && s'.lastClose == slot && Token.Moved(s.token.balances, s'.token.balances, EOSIO_NAMES, EOSIO_UPAY, s.bids[n].high)
                  else s'.bids == s.bids && s'.lastClose == s.lastClose && s'.token == s.token)
            && ((forall n | n in s.bids :: s.bids[n].high <= 0) ==>
                  s'.bids == s.bids && s'.lastClose == s.lastClose && s'.token == s.token)
  {
    hide Token.Act, Token.Inv, Highest, Token.Moved;
    HighestIs(s.bids);
    if Highest(s.bids).Some? {
      var h := Highest(s.bids).value;
      forall n | Leads(s.bids, n)
        ensures n == h
      {
      }
      ClosePays(s, h);
    }
  }

  lemma ClosePays(s: State, n: Name)
    requires Inv(s) && n in s.bids
    ensures var o := Token.Act(s.token, Token.Pay(EOSIO_NAMES, EOSIO_UPAY, s.bids[n].high));
            o.Some? ==> Token.Moved(s.token.balances, o.value.balances, EOSIO_NAMES, EOSIO_UPAY, s.bids[n].high)
  {
    hide Token.Act, Token.Inv;
    PayMoves(s.token, EOSIO_NAMES, EOSIO_UPAY, s.bids[n].high);
  }

  /** newaccount: the system may create any account, anybody a free name, a suffix account the names under
      it, and the winner of a closed auction the name it won; that ends the auction. */
  lemma NewAccountSpelled(s: State, kindOf: Name -> Kind, creator: Name, n: Name)
    requires Inv(s)
    ensures NewAccount(s, kindOf, creator, n).Some?
            <==> n !in s.accounts && (creator == EOSIO || kindOf(n) == Free || kindOf(n) == Under(creator)
                                      || (kindOf(n) == Premium && n in s.bids && s.bids[n].bidder == creator && s.bids[n].high < 0))
    ensures NewAccount(s, kindOf, creator, n).Some? ==>
              var s' := NewAccount(s, kindOf, creator, n).value;
              && s'.accounts == s.accounts + {n} && s'.token == s.token && s'.refunds == s.refunds
              && s'.bids == (if creator != EOSIO && kindOf(n) == Premium then s.bids - {n} else s.bids)
              && s' == s.(accounts := s'.accounts, bids := s'.bids)
  {
  }

  // ----- one account's bids

  // What a's open bids amount to.
  ghost function OpenOf(bids: map<Name, Bid>, a: Name): map<Name, int> {
    map n | n in bids :: if 0 < bids[n].high && bids[n].bidder == a then bids[n].high else 0
  }

  // What a is owed.
  ghost function DueTo(refunds: map<(Name, Name), int>, a: Name): map<(Name, Name), int> {
    map k | k in refunds :: if k.1 == a then refunds[k] else 0
  }

  // What a's bids that this step closed amount to.
  ghost function ClosedOf(s: State, s': State, a: Name): map<Name, int> {
    map n | n in s.bids ::
      if s.bids[n].bidder == a && 0 < s.bids[n].high && n in s'.bids && s'.bids[n].high < 0 then s.bids[n].high else 0
  }

  /** What a has at stake: its open bids and what it is owed. */
  ghost function AtStake(s: State, a: Name): int {
    SumInt(OpenOf(s.bids, a)) + SumInt(DueTo(s.refunds, a))
  }

  // What a pays by an accepted action, and what it takes back.
  function Pays(s: State, action: Action, a: Name): int {
    if action.PlaceBid? && action.bidder == a then action.quantity else 0
  }

  function Takes(s: State, action: Action, a: Name): int {
    if action.TakeRefund? && action.bidder == a then RefundOf(s, action.name, a) else 0
  }

  lemma NothingClosed(s: State, s': State, a: Name)
    requires forall n | n in s.bids && n in s'.bids && 0 < s.bids[n].high :: 0 <= s'.bids[n].high
    ensures SumInt(ClosedOf(s, s', a)) == 0
  {
    IntZero(ClosedOf(s, s', a));
  }

  lemma BidStake(s: State, kindOf: Name -> Kind, bidder: Name, n: Name, q: int, a: Name)
    requires Inv(s) && BidName(s, kindOf, bidder, n, q).Some?
    ensures var s' := BidName(s, kindOf, bidder, n, q).value;
            && AtStake(s', a) == AtStake(s, a) + (if a == bidder then q else 0)
            && SumInt(ClosedOf(s, s', a)) == 0
  {
    hide SumInt, BidName, Token.Moved, Token.Inv;
    BidSpelled(s, kindOf, bidder, n, q);
    var s' := BidName(s, kindOf, bidder, n, q).value;
    BidAt(s, s', n);
    NothingClosed(s, s', a);
    assert OpenOf(s'.bids, a) - {n} == OpenOf(s.bids, a) - {n};
    IntChange(OpenOf(s.bids, a), OpenOf(s'.bids, a), n);
    if n in s.bids { RefundsChange(s, s', (n, s.bids[n].bidder), a); } else { SameRefunds(s, s', a); }
  }

  lemma BidAt(s: State, s': State, n: Name)
    requires OtherBids(s, s', n)
    ensures forall m | m != n :: (m in s'.bids <==> m in s.bids) && (m in s.bids ==> s'.bids[m] == s.bids[m])
  {
    forall m | m != n
      ensures (m in s'.bids <==> m in s.bids) && (m in s.bids ==> s'.bids[m] == s.bids[m])
    {
      assert m in s'.bids - {n} <==> m in s'.bids;
      assert m in s.bids - {n} <==> m in s.bids;
      if m in s.bids { assert (s.bids - {n})[m] == s.bids[m] && (s'.bids - {n})[m] == s'.bids[m]; }
    }
  }

  // What a is owed by name, a missing row counting as 0.
  ghost function Padded(s: State, a: Name, keys: set<(Name, Name)>): map<(Name, Name), int> {
    map x | x in keys :: if x.1 == a then RefundOf(s, x.0, x.1) else 0
  }

  lemma PaddedSum(s: State, a: Name, keys: set<(Name, Name)>)
    requires s.refunds.Keys <= keys
    ensures SumInt(Padded(s, a, keys)) == SumInt(DueTo(s.refunds, a))
  {
    hide SumInt;
    forall x: (Name, Name)
      ensures RefundOf(s, x.0, x.1) == if x in s.refunds then s.refunds[x] else 0
    {
      assert x == (x.0, x.1);
    }
    PadDue(s.refunds, a, Padded(s, a, keys));
  }

  lemma RefundsChange(s: State, s': State, k: (Name, Name), a: Name)
    requires forall m: Name, x: Name | (m, x) != k :: RefundOf(s', m, x) == RefundOf(s, m, x)
    ensures SumInt(DueTo(s'.refunds, a))
         == SumInt(DueTo(s.refunds, a)) + if k.1 == a then RefundOf(s', k.0, a) - RefundOf(s, k.0, a) else 0
  {
    hide SumInt, RefundOf;
    var keys := s.refunds.Keys + s'.refunds.Keys + {k};
    PaddedSum(s, a, keys);
    PaddedSum(s', a, keys);
    var before, after := Padded(s, a, keys), Padded(s', a, keys);
    forall x: (Name, Name) | x in keys && x != k
      ensures before[x] == after[x]
    {
      assert (x.0, x.1) != k;
    }
    assert before - {k} == after - {k};
    IntChange(before, after, k);
  }

  lemma {:induction false} PadDue(refunds: map<(Name, Name), int>, a: Name, padded: map<(Name, Name), int>)
    requires refunds.Keys <= padded.Keys
    requires forall x | x in padded :: padded[x] == if x in refunds && x.1 == a then refunds[x] else 0
    ensures SumInt(padded) == SumInt(DueTo(refunds, a))
    decreases |padded|
  {
    hide SumInt;
    if x :| x in padded && x !in refunds {
      assert (padded - {x}).Keys == padded.Keys - {x};
      PadDue(refunds, a, padded - {x});
      IntRemove(padded, x);
    } else {
      assert forall x | x in padded.Keys :: x in refunds.Keys;
      assert padded.Keys == refunds.Keys;
      assert padded == DueTo(refunds, a);
    }
  }

  lemma SameRefunds(s: State, s': State, a: Name)
    requires forall m: Name, x: Name :: RefundOf(s', m, x) == RefundOf(s, m, x)
    ensures SumInt(DueTo(s'.refunds, a)) == SumInt(DueTo(s.refunds, a))
  {
    hide SumInt;
    RefundsChange(s, s', (0, 0), a);
  }

  lemma RefundStake(s: State, bidder: Name, n: Name, a: Name)
    requires Inv(s) && BidRefund(s, bidder, n).Some?
    ensures var s' := BidRefund(s, bidder, n).value;
            && AtStake(s', a) == AtStake(s, a) - (if a == bidder then RefundOf(s, n, a) else 0)
            && SumInt(ClosedOf(s, s', a)) == 0
  {
    hide SumInt, BidRefund, Token.Moved, Token.Inv;
    BidRefundSpelled(s, bidder, n);
    var s' := BidRefund(s, bidder, n).value;
    NothingClosed(s, s', a);
    RefundsChange(s, s', (n, bidder), a);
  }

  lemma BlockStake(s: State, slot: int, a: Name)
    requires Inv(s) && OnBlock(s, slot).Some?
    ensures var s' := OnBlock(s, slot).value;
            AtStake(s', a) == AtStake(s, a) - SumInt(ClosedOf(s, s', a))
  {
    hide SumInt, OnBlock, Token.Moved, Token.Inv;
    OnBlockSpelled(s, slot);
    var s' := OnBlock(s, slot).value;
    if n :| Leads(s.bids, n) && s'.bids != s.bids {
      OneCloses(s, s', n, a);
    } else {
      LeaderExists(s.bids);
      NothingClosed(s, s', a);
    }
  }

  lemma LeaderExists(bids: map<Name, Bid>)
    ensures (exists n :: Leads(bids, n)) || forall n | n in bids :: bids[n].high <= 0
  {
    if n :| n in bids && 0 < bids[n].high {
      HighestExists(bids, n);
      var h :| IsHighest(bids, h);
      assert Leads(bids, h);
    }
  }

  lemma OneCloses(s: State, s': State, n: Name, a: Name)
    requires n in s.bids && n in s'.bids && 0 < s.bids[n].high && OtherBids(s, s', n)
    requires s'.bids[n] == s.bids[n].(high := -s.bids[n].high) && s'.refunds == s.refunds
    ensures AtStake(s', a) == AtStake(s, a) - SumInt(ClosedOf(s, s', a))
  {
    hide SumInt;
    BidAt(s, s', n);
    assert OpenOf(s'.bids, a) - {n} == OpenOf(s.bids, a) - {n};
    IntChange(OpenOf(s.bids, a), OpenOf(s'.bids, a), n);
    IntRemove(ClosedOf(s, s', a), n);
    IntZero(ClosedOf(s, s', a) - {n});
  }

  lemma ClaimStake(s: State, kindOf: Name -> Kind, creator: Name, n: Name, a: Name)
    requires Inv(s) && NewAccount(s, kindOf, creator, n).Some?
    ensures var s' := NewAccount(s, kindOf, creator, n).value;
            AtStake(s', a) == AtStake(s, a) && SumInt(ClosedOf(s, s', a)) == 0
  {
    hide SumInt, NewAccount, Token.Inv;
    NewAccountSpelled(s, kindOf, creator, n);
    var s' := NewAccount(s, kindOf, creator, n).value;
    NothingClosed(s, s', a);
    if s'.bids != s.bids {
      assert OpenOf(s'.bids, a) == OpenOf(s.bids, a) - {n};
      IntRemove(OpenOf(s.bids, a), n) by { assert n in s.bids; }
    }
  }

  /** What an action changes in what a has at stake: a's own bid and refund, and its auctions' close. */
  lemma ActStake(s: State, kindOf: Name -> Kind, action: Action, a: Name)
    requires Inv(s) && Act(s, kindOf, action).Some?
    ensures var s' := Act(s, kindOf, action).value;
            AtStake(s', a) == AtStake(s, a) + Pays(s, action, a) - Takes(s, action, a) - SumInt(ClosedOf(s, s', a))
  {
    hide Inv, AtStake, BidName, BidRefund, OnBlock, NewAccount, SumInt, ClosedOf, Token.Act;
    match action
    case PlaceBid(bidder, n, q) => BidStake(s, kindOf, bidder, n, q, a);
    case TakeRefund(bidder, n) => RefundStake(s, bidder, n, a);
    case Block(slot) => BlockStake(s, slot, a);
    case CreateAccount(creator, n) => ClaimStake(s, kindOf, creator, n, a);
    case TokenAction(ta) => TokensStake(s, Act(s, kindOf, action).value, a);
  }

  lemma TokensStake(s: State, s': State, a: Name)
    requires s'.bids == s.bids && s'.refunds == s.refunds
    ensures AtStake(s', a) == AtStake(s, a) && SumInt(ClosedOf(s, s', a)) == 0
  {
    hide SumInt;
    NothingClosed(s, s', a);
  }

  // ----- runs

  ghost function PaidIn(s: State, kindOf: Name -> Kind, es: seq<Event>, a: Name): int
    decreases |es|
  {
    if es == [] then 0 else
    var t := Tick(s, es[0]);
    (if Act(t, kindOf, es[0].action).Some? then Pays(t, es[0].action, a) else 0) + PaidIn(Next(s, kindOf, es[0]), kindOf, es[1..], a)
  }

  ghost function TakenBack(s: State, kindOf: Name -> Kind, es: seq<Event>, a: Name): int
    decreases |es|
  {
    if es == [] then 0 else
    var t := Tick(s, es[0]);
    (if Act(t, kindOf, es[0].action).Some? then Takes(t, es[0].action, a) else 0) + TakenBack(Next(s, kindOf, es[0]), kindOf, es[1..], a)
  }

  ghost function SpentOn(s: State, kindOf: Name -> Kind, es: seq<Event>, a: Name): int
    decreases |es|
  {
    if es == [] then 0 else
    SumInt(ClosedOf(s, Next(s, kindOf, es[0]), a)) + SpentOn(Next(s, kindOf, es[0]), kindOf, es[1..], a)
  }

  lemma StepStake(s: State, kindOf: Name -> Kind, e: Event, a: Name)
    requires Inv(s)
    ensures var t, s' := Tick(s, e), Next(s, kindOf, e);
            AtStake(s', a) == AtStake(s, a)
                              + (if Act(t, kindOf, e.action).Some? then Pays(t, e.action, a) - Takes(t, e.action, a) else 0)
                              - SumInt(ClosedOf(s, s', a))
  {
    hide Act, SumInt, Token.Inv, Pays, Takes;
    var t := Tick(s, e);
    assert Inv(t) && AtStake(t, a) == AtStake(s, a);
    if Act(t, kindOf, e.action).Some? {
      ActStake(t, kindOf, e.action, a);
      assert ClosedOf(t, Next(s, kindOf, e), a) == ClosedOf(s, Next(s, kindOf, e), a);
    } else {
      NothingClosed(s, t, a);
    }
  }

  lemma {:induction false} RunStake(s: State, kindOf: Name -> Kind, es: seq<Event>, s': State, a: Name)
    requires Inv(s) && IsRun(s, kindOf, es, s')
    ensures AtStake(s', a) + TakenBack(s, kindOf, es, a) + SpentOn(s, kindOf, es, a) == AtStake(s, a) + PaidIn(s, kindOf, es, a)
    decreases |es|
  {
    hide Inv, Act, AtStake, SumInt, ClosedOf, Pays, Takes, Next;
    if es != [] {
      NextKeeps(s, kindOf, es[0]);
      StepStake(s, kindOf, es[0], a);
      RunStake(Next(s, kindOf, es[0]), kindOf, es[1..], s', a);
    }
  }

  /** After any run from a state without auctions, all that an account ever bid is in its open bids, owed
      to it, taken back by it, or was spent on auctions closed in its name. */
  lemma BidsOfEveryRun(token: Token.State, accounts: set<Name>, now: int, first: int, kindOf: Name -> Kind,
                       es: seq<Event>, s: State, a: Name)
    requires Token.Inv(token) && IsRun(Genesis(token, accounts, now, first), kindOf, es, s)
    ensures var s0 := Genesis(token, accounts, now, first);
            PaidIn(s0, kindOf, es, a)
            == SumInt(OpenOf(s.bids, a)) + SumInt(DueTo(s.refunds, a)) + TakenBack(s0, kindOf, es, a) + SpentOn(s0, kindOf, es, a)
  {
    hide IsRun, PaidIn, TakenBack, SpentOn, SumInt;
    var s0 := Genesis(token, accounts, now, first);
    GenesisInv(token, accounts, now, first);
    RunStake(s0, kindOf, es, s, a);
    assert OpenOf(s0.bids, a) == map[] && DueTo(s0.refunds, a) == map[];
    IntZero(OpenOf(s0.bids, a));
    IntZero(DueTo(s0.refunds, a));
  }
}
