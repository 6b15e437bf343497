/** The auction tables updated in place; the daily close looks the winner up in the index by high
    bid.  After a failed check (ok is false) the chain discards the transaction. */
module AuctionsContract {
  import opened Common
  import opened Auctions
  import Token
  import TokenContract

  class NameBids {
    const kindOf: Name -> Kind
    const token: TokenContract.Accounts
    var bids: map<Name, Bid>
    var refunds: map<(Name, Name), int>
    var accounts: set<Name>
    var now: int
    var activationTime: int
    var lastSchedule: int
    var lastClose: int

    ghost function Model(): State
      reads this, token
    {
      State(bids, refunds, accounts, token.Model(), now, activationTime, lastSchedule, lastClose)
    }

    constructor (kindOf: Name -> Kind, token: TokenContract.Accounts, now: int)
      ensures Model() == State(map[], map[], {}, token.Model(), now, 0, 0, 0)
      ensures this.kindOf == kindOf && this.token == token
    {
      this.kindOf, this.token, this.now := kindOf, token, now;
      bids, refunds, accounts := map[], map[], {};
      activationTime, lastSchedule, lastClose := 0, 0, 0;
    }

    /** bidname. */
    method BidName(bidder: Name, n: Name, q: int) returns (ok: bool)
      modifies `bids, `refunds, token
      ensures ok <==> Auctions.BidName(old(Model()), kindOf, bidder, n, q).Some?
      ensures ok ==> Some(Model()) == Auctions.BidName(old(Model()), kindOf, bidder, n, q)
    {
      hide Token.Act;
      if kindOf(n) != Premium || n in accounts || q <= 0 {
        return false;
      }
      ok := token.Transfer(bidder, EOSIO_NAMES, q);
      if !ok {
        return;
      }
      if n !in bids {
        bids := bids[n := Bid(bidder, q, now)];
      } else {
        var current := bids[n];
        if current.high <= 0 {
          return false;
        }
        if q - current.high <= current.high / 10 {
          return false;
        }
        if current.bidder == bidder {
          return false;
        }
        var k := (n, current.bidder);
        if k in refunds {
          refunds := refunds[k := refunds[k] + current.high];
        } else {
          refunds := refunds[k := current.high];
        }
        bids := bids[n := Bid(bidder, q, now)];
      }
    }

    /** bidrefund. */
    method BidRefund(bidder: Name, n: Name) returns (ok: bool)
      modifies `refunds, token
      ensures ok <==> Auctions.BidRefund(old(Model()), bidder, n).Some?
      ensures ok ==> Some(Model()) == Auctions.BidRefund(old(Model()), bidder, n)
    {
      hide Token.Act;
      if (n, bidder) !in refunds {
        return false;
      }
      ok := token.Transfer(EOSIO_NAMES, bidder, refunds[(n, bidder)]);
      if ok {
        refunds := refunds - {(n, bidder)};
      }
    }

    // lower_bound on the index by high bid: a scan for the least key at or after the bound.
    method LowerBound(bound: int) returns (r: Option<Name>)
      ensures r.Some? ==> IsLowerBound(bids, bound, r.value)
      ensures r.None? ==> forall n | n in bids :: Key(bids[n].high) < bound
    {
      r := None;
      var todo := bids.Keys;
      while todo != {}
        invariant todo <= bids.Keys
        invariant r.Some? ==> r.value in bids && bound <= Key(bids[r.value].high)
        invariant r.None? ==> forall n | n in bids && n !in todo :: Key(bids[n].high) < bound
        invariant r.Some? ==> forall m | m in bids && m !in todo && bound <= Key(bids[m].high) ::
                    Key(bids[r.value].high) < Key(bids[m].high) || (Key(bids[r.value].high) == Key(bids[m].high) && r.value <= m)
        decreases |todo|
      {
        var n :| n in todo;
        var key := Key(bids[n].high);
        if bound <= key {
          if r.None? || key < Key(bids[r.value].high) || (key == Key(bids[r.value].high) && n < r.value) {
            r := Some(n);
          }
        }
        todo := todo - {n};
      }
    }

    // The lookup the daily close makes.
    method FindHighest() returns (r: Option<Name>)
      requires InRange(bids)
      ensures r == Highest(bids)
    {
      r := LowerBound((TWO_TO_64 - 1) / 2);
      HighestIs(bids);
      if r.Some? {
        LookupFindsHighest(bids, r.value);
        HighestExists(bids, r.value);
      } else {
        forall n | n in bids
          ensures bids[n].high <= 0
        {
          KeyOf(bids[n].high);
        }
      }
    }

    /** onblock's part in the auctions. */
    method OnBlock(slot: int) returns (ok: bool)
      requires InRange(bids)
      modifies `bids, `lastSchedule, `lastClose, token
      ensures ok <==> Auctions.OnBlock(old(Model()), slot).Some?
      ensures ok ==> Some(Model()) == Auctions.OnBlock(old(Model()), slot)
    {
      hide Token.Act, Highest, InRange;
      if activationTime == 0 {
        return true;
      }
      HighestIs(bids);
      if 120 < slot - lastSchedule {
        lastSchedule := slot;
        if BLOCKS_PER_DAY < slot - lastClose {
          var highest := FindHighest();
          if highest.Some? && 0 < bids[highest.value].high && DAY < now - bids[highest.value].time
             && 0 < activationTime && 14 * DAY < now - activationTime {
            lastClose := slot;
            var n, b := highest.value, bids[highest.value];
            ok := token.Transfer(EOSIO_NAMES, EOSIO_UPAY, b.high);
            if !ok {
              return;
            }
            bids := bids[n := b.(high := -b.high)];
          }
        }
      }
      ok := true;
    }

    /** newaccount. */
    method NewAccount(creator: Name, n: Name) returns (ok: bool)
      modifies `bids, `accounts
      ensures ok <==> Auctions.NewAccount(old(Model()), kindOf, creator, n).Some?
      ensures ok ==> Some(Model()) == Auctions.NewAccount(old(Model()), kindOf, creator, n)
    {
      if n in accounts {
        return false;
      }
      if creator != EOSIO {
        match kindOf(n) {
          case Free =>
          case Under(suffix) =>
            if creator != suffix {
              return false;
            }
          case Premium =>
            if n !in bids || bids[n].bidder != creator || 0 <= bids[n].high {
              return false;
            }
            bids := bids - {n};
        }
      }
      accounts := accounts + {n};
      ok := true;
    }

    /** Every action is one step of the auction machine. */
    method Perform(a: Action) returns (ok: bool)
      requires InRange(bids)
      modifies this, token
      ensures ok <==> Act(old(Model()), kindOf, a).Some?
      ensures ok ==> Some(Model()) == Act(old(Model()), kindOf, a)
    {
      hide Token.Act, Highest, InRange, Auctions.BidName, Auctions.BidRefund, Auctions.OnBlock, Auctions.NewAccount;
      match a {
        case PlaceBid(bidder, n, q) => ok := BidName(bidder, n, q);
        case TakeRefund(bidder, n) => ok := BidRefund(bidder, n);
        case Block(slot) => ok := OnBlock(slot);
        case CreateAccount(creator, n) => ok := NewAccount(creator, n);
        case TokenAction(ta) => ok := token.Perform(ta);
      }
    }
  }
}
