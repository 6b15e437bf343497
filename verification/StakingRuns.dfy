/** Refunds, RAM and whole runs of the staking machine. */
module StakingRuns {
  import opened Common
  import opened Sums
  import opened Staking
  import opened StakingSums
  import opened StakingVotes
  import opened StakingMachine
  import Token
  import Voting
  import VotingTallies
  import VotingAborts
  import VotingActions

  // ----- refunds

  /** A refund leaves the backing as it was.  Its exact release time: three days after the owner's
      last undelegation, less the fraction of a second that the request time does not record. */
  lemma RefundKeeps(s: State, owner: Name)
    requires Inv(s)
    ensures var o := Refund(s, owner);
            o.Some? ==>
              && Inv(o.value) && Backing(o.value) == Backing(s) && o.value.votes == s.votes
              && owner in s.undelegated
              && 259200000000 - s.undelegated[owner] % 1000000 <= s.votes.now - s.undelegated[owner]
  {
    hide SumInt, Total, VotingTallies.Inv, Stakes, Agree, ProducersStaked, RamOk;
    if Refund(s, owner).Some? {
      var r := s.refunds[owner];
      Token.TransferMoves(s.tokens, EOSIO_STAKE, owner, r.net + r.cpu);
      RefundGone(s.refunds, owner);
      SameStaking(s, Refund(s, owner).value);
    }
  }

  // Parts of the invariant look only at these tables.
  lemma SameStaking(s: State, s': State)
    requires Inv(s)
    requires s'.votes == s.votes && s'.delegations == s.delegations && s'.resources == s.resources
    requires s'.ramReserved == s.ramReserved && s'.ramStake == s.ramStake
    ensures Agree(s') && ProducersStaked(s') && RamOk(s') && Stakes(s'.delegations) && VotingTallies.Inv(s'.votes)
  {
    hide SumInt, Total, VotingTallies.Inv, Stakes;
  }

  /** While the staking account is backed, a refund can be claimed exactly when one is pending and
      its time has come: the payment itself never fails. */
  lemma RefundSucceeds(s: State, owner: Name)
    requires Inv(s) && 0 <= Backing(s)
    ensures Refund(s, owner).Some?
            <==> && owner in s.refunds
                 && 259200000000 - s.undelegated[owner] % 1000000 <= s.votes.now - s.undelegated[owner]
  {
    hide SumInt, Total, VotingTallies.Inv, Agree, ProducersStaked, RamOk;
    if owner in s.refunds {
      var r := s.refunds[owner];
      assert RefundRow(r);
      RowInTotal(s.delegations, (owner, owner), AllPart());
      IntMember(RefundAmounts(s.refunds), owner);
      Token.TransferMoves(s.tokens, EOSIO_STAKE, owner, r.net + r.cpu);
    }
  }

  /** Staking to oneself never moves the release of what is still pending to an earlier time, nor
      to a later one. */
  lemma RestakeKeepsTime(s: State, from: Name, receiver: Name, net: int, cpu: int, transfer: bool, owner: Name)
    requires Inv(s)
    ensures var o := DelegateBw(s, from, receiver, net, cpu, transfer);
            o.Some? && owner in o.value.refunds ==>
              owner in s.refunds && o.value.refunds[owner].time == s.refunds[owner].time
  {
    hide ChangeBw, VotingTallies.Inv, Voting.Shape, Agree, ProducersStaked, RamOk, Stakes, Delegate, Receive, Token.Transfer,
         Voting.UpdateVotingPower, Requeue;
    assert Voting.Shape(s.votes) by { ShapeOf(s); }
    if DelegateBw(s, from, receiver, net, cpu, transfer).Some? {
      ChangeBwTables(s, from, receiver, net, cpu, transfer);
      RequeueTimes(s.refunds, if transfer then receiver else from, net, cpu, s.votes.now);
      RequeueBalances(s.refunds, if transfer then receiver else from, net, cpu, s.votes.now);
    }
  }

  lemma ShapeOf(s: State)
    requires Inv(s)
    ensures Voting.Shape(s.votes)
  {
  }

  // ----- RAM

  lemma RamRowAtMost(s: State, a: Name)
    requires RamOk(s)
    ensures RamOf(s.resources, a) <= s.ramReserved
  {
    hide SumInt;
    forall x | x in RamRows(s.resources)
      ensures 0 <= RamRows(s.resources)[x]
    {
      assert RamOf(s.resources, x) == RamRows(s.resources)[x];
    }
    IntMember(RamRows(s.resources), a);
    IntNonNegative(RamRows(s.resources));
  }

  // Adding RAM leaves bandwidth totals alone.
  lemma RamTables(s: State, s': State, a: Name, bytes: int)
    requires Inv(s) && s'.votes == s.votes && s'.delegations == s.delegations && s'.refunds == s.refunds
    requires s'.undelegated == s.undelegated && s'.tokens == s.tokens && Token.NonNegative(s'.ramTokens)
    requires s'.resources == AddRam(s.resources, a, bytes) && s'.ramReserved == s.ramReserved + bytes
    requires (s'.ramStake - s.ramStake) * 1024 == bytes * 10000 && 0 <= RamOf(s.resources, a) + bytes
    ensures Inv(s')
  {
    hide SumInt, Total, VotingTallies.Inv, Stakes, RefundRow, AddRam;
    AddRamMoves(s.resources, a, bytes);
  }

  /** Buying RAM: the tokens paid back the reservation, byte for byte. */
  lemma BuyRamKeeps(s: State, payer: Name, receiver: Name, quant: int)
    requires Inv(s)
    ensures BuyRam(s, payer, receiver, quant).Some?
            <==> 0 < quant && quant % 10000 == 0 && payer != EOSIO_RAM && quant <= Token.BalanceOf(s.ramTokens, payer)
    ensures var o := BuyRam(s, payer, receiver, quant);
            o.Some? ==>
              && Inv(o.value) && RamBacking(o.value) == RamBacking(s) && Backing(o.value) == Backing(s)
              && o.value.ramReserved == s.ramReserved + quant / 10000 * 1024
              && (forall a :: RamOf(o.value.resources, a) == RamOf(s.resources, a) + if a == receiver then quant / 10000 * 1024 else 0)
  {
    hide Inv, AddRam;
    assert Token.NonNegative(s.ramTokens) && 0 <= RamOf(s.resources, receiver) by { RamFacts(s, receiver); }
    Token.TransferMoves(s.ramTokens, payer, EOSIO_RAM, quant);
    AddRamMoves(s.resources, receiver, quant / 10000 * 1024);
    if BuyRam(s, payer, receiver, quant).Some? {
      RamTables(s, BuyRam(s, payer, receiver, quant).value, receiver, quant / 10000 * 1024);
    }
  }

  lemma RamFacts(s: State, a: Name)
    requires Inv(s)
    ensures Token.NonNegative(s.ramTokens) && 0 <= RamOf(s.resources, a)
    ensures s.ramStake * 1024 == s.ramReserved * 10000 && RamOf(s.resources, a) <= s.ramReserved
  {
    hide VotingTallies.Inv, Agree, RefundsOk, ProducersStaked, SumInt;
    RamRowAtMost(s, a);
  }

  /** The price in buyrambytes is a 32-bit product, yet no wrapped price is accepted: a purchase
      succeeds exactly when the true price fits and can be paid, and buys exactly the bytes asked. */
  lemma BuyRamBytesExact(s: State, payer: Name, receiver: Name, bytes: int)
    requires Inv(s) && 0 <= bytes < TWO_TO_32
    ensures var o := BuyRamBytes(s, payer, receiver, bytes);
            && (o.Some? <==> && 0 < bytes && bytes % 1024 == 0 && bytes / 1024 * 10000 < 4294967296
                             && payer != EOSIO_RAM && bytes / 1024 * 10000 <= Token.BalanceOf(s.ramTokens, payer))
            && (o.Some? ==>
                  && Inv(o.value) && RamBacking(o.value) == RamBacking(s) && Backing(o.value) == Backing(s)
                  && o.value.ramReserved == s.ramReserved + bytes
                  && RamOf(o.value.resources, receiver) == RamOf(s.resources, receiver) + bytes)
  {
    hide Inv, Backing, RamBacking, BuyRam, RamOf;
    if 0 < bytes && bytes % 1024 == 0 {
      WrappedPriceIsOdd(bytes / 1024);
      BuyRamKeeps(s, payer, receiver, bytes / 1024 * 10000 % TWO_TO_32);
    }
  }

  // 2^32 shares with 10000 only the factor 16, so a wrapped multiple of 10000 is not one again.
  lemma WrappedPriceIsOdd(k: int)
    requires 0 < k <= TWO_TO_32 / 1024
    ensures k * 10000 % TWO_TO_32 % 10000 == 0 <==> k * 10000 < TWO_TO_32
  {
    var q := k * 10000 / TWO_TO_32;
    var w := k * 10000 % TWO_TO_32;
    assert k * 10000 == q * TWO_TO_32 + w && 0 <= q < 10;
    assert w % 10000 == (10000 * k - q * TWO_TO_32) % 10000;
    assert q == 0 || q == 1 || q == 2 || q == 3 || q == 4 || q == 5 || q == 6 || q == 7 || q == 8 || q == 9;
  }

  lemma SellRamKeeps(s: State, account: Name, bytes: int)
    requires Inv(s) && 0 <= RamBacking(s)
    ensures SellRam(s, account, bytes).Some?
            <==> 0 < bytes <= RamOf(s.resources, account) && bytes % 1024 == 0 && account != EOSIO_RAM
  {
    hide Inv, AddRam;
    RamFacts(s, account);
    Token.TransferMoves(s.ramTokens, EOSIO_RAM, account, bytes / 1024 * 10000);
  }

  lemma SellRamMoves(s: State, account: Name, bytes: int)
    requires Inv(s) && SellRam(s, account, bytes).Some?
    ensures var s' := SellRam(s, account, bytes).value;
            && Inv(s') && RamBacking(s') == RamBacking(s) && Backing(s') == Backing(s)
            && s'.ramReserved == s.ramReserved - bytes
            && (forall a :: RamOf(s'.resources, a) == RamOf(s.resources, a) - if a == account then bytes else 0)
            && (forall a :: Token.BalanceOf(s'.ramTokens, a)
                         == Token.BalanceOf(s.ramTokens, a)
                            + (if a == account then bytes / 1024 * 10000 else 0) - (if a == EOSIO_RAM then bytes / 1024 * 10000 else 0))
  {
    hide Inv, AddRam;
    RamFacts(s, account);
    Token.TransferMoves(s.ramTokens, EOSIO_RAM, account, bytes / 1024 * 10000);
    AddRamMoves(s.resources, account, -bytes);
    RamTables(s, SellRam(s, account, bytes).value, account, -bytes);
  }

  /** Selling undoes buying: the receiver can always sell what was just bought for it, and then the
      payer's tokens have moved to the receiver and nothing else has changed. */
  lemma SellUndoesBuy(s: State, payer: Name, receiver: Name, quant: int)
    requires Inv(s) && 0 <= RamBacking(s) && receiver != EOSIO_RAM && BuyRam(s, payer, receiver, quant).Some?
    ensures var s1 := BuyRam(s, payer, receiver, quant).value;
            && SellRam(s1, receiver, quant / 10000 * 1024).Some?
            && var s2 := SellRam(s1, receiver, quant / 10000 * 1024).value;
               && s2.ramReserved == s.ramReserved && s2.ramStake == s.ramStake
               && (forall a :: RamOf(s2.resources, a) == RamOf(s.resources, a))
               && (forall a :: Token.BalanceOf(s2.ramTokens, a)
                            == Token.BalanceOf(s.ramTokens, a) + (if a == receiver then quant else 0) - (if a == payer then quant else 0))
  {
    hide Inv, AddRam, Backing;
    RamFacts(s, receiver);
    BuyRamKeeps(s, payer, receiver, quant);
    var s1 := BuyRam(s, payer, receiver, quant).value;
    SellRamKeeps(s1, receiver, quant / 10000 * 1024);
    SellRamMoves(s1, receiver, quant / 10000 * 1024);
    Token.TransferMoves(s.ramTokens, payer, EOSIO_RAM, quant);
  }

  // ----- the other actions

  // An action of the vote ledger that moves no stake and activates nobody.
  lemma VotesKeep(s: State, votes': Voting.State)
    requires Inv(s) && VotingTallies.Inv(votes') && votes'.now == s.votes.now
    requires forall a :: Voting.StakeOf(votes', a) == Voting.StakeOf(s.votes, a)
    requires forall p: Name :: Voting.Active(votes', p) ==> Voting.Active(s.votes, p) || MIN_SELF_STAKE <= SelfStake(s, p)
    ensures Inv(s.(votes := votes')) && Backing(s.(votes := votes')) == Backing(s)
  {
    hide SumInt, Total, VotingTallies.Inv, Stakes, RefundRow, Token.NonNegative;
    var s' := s.(votes := votes');
    forall p: Name
      ensures SelfStake(s', p) == SelfStake(s, p)
    {
    }
  }

  lemma CastVoteKeeps(s: State, v: Name, proxy: Option<Name>, producers: seq<Name>)
    requires Inv(s)
    ensures var o := WithVotes(s, Voting.UpdateVotes(s.votes, v, proxy, producers, true));
            o.Some? ==> Inv(o.value) && Backing(o.value) == Backing(s) && s.votes.dropped <= o.value.votes.dropped
  {
    hide Voting.UpdateVotes, VotingTallies.Sound, Agree, RefundsOk, RamOk, ProducersStaked, Backing, Inv;
    VotesOf(s);
    UpdateVotesKeepsStakes(s.votes, v, proxy, producers, true);
    VotingActions.UpdateVotesKeeps(s.votes, v, proxy, producers, true);
    var o := Voting.UpdateVotes(s.votes, v, proxy, producers, true);
    if o.Some? { VotesKeep(s, o.value); }
  }

  lemma VotesOf(s: State)
    requires Inv(s)
    ensures VotingTallies.Inv(s.votes)
  {
  }

  lemma SetProxyKeeps(s: State, v: Name, isProxy: bool)
    requires Inv(s)
    ensures var o := WithVotes(s, Voting.RegProxy(s.votes, v, isProxy));
            o.Some? ==> Inv(o.value) && Backing(o.value) == Backing(s) && s.votes.dropped <= o.value.votes.dropped
  {
    hide Voting.RegProxy, VotingTallies.Sound, Agree, RefundsOk, RamOk, ProducersStaked, Backing, Inv;
    VotesOf(s);
    RegProxyKeepsStakes(s.votes, v, isProxy);
    VotingMachine.RegProxyKeeps(s.votes, v, isProxy);
    var o := Voting.RegProxy(s.votes, v, isProxy);
    if o.Some? { VotesKeep(s, o.value); }
  }

  lemma RegProducerKeeps(s: State, p: Name)
    requires Inv(s)
    ensures var o := RegProducer(s, p);
            o.Some? ==> Inv(o.value) && Backing(o.value) == Backing(s) && s.votes.dropped <= o.value.votes.dropped
  {
    hide VotingTallies.Sound, Agree, RefundsOk, RamOk, ProducersStaked, Backing, Inv, SelfStake;
    VotesOf(s);
    VotingMachine.RegisterKeeps(s.votes, p);
    if RegProducer(s, p).Some? { VotesKeep(s, Voting.RegisterProducer(s.votes, p)); }
  }

  lemma UnregisterKeeps(s: State, p: Name)
    requires Inv(s)
    ensures var o := WithVotes(s, Voting.Deactivate(s.votes, p));
            o.Some? ==> Inv(o.value) && Backing(o.value) == Backing(s) && s.votes.dropped <= o.value.votes.dropped
  {
    hide VotingTallies.Sound, Agree, RefundsOk, RamOk, ProducersStaked, Backing, Inv, SelfStake;
    VotesOf(s);
    if p in s.votes.producers {
      VotingMachine.DeactivateKeeps(s.votes, p);
      VotesKeep(s, Voting.Deactivate(s.votes, p).value);
    }
  }

  lemma NewResourcesKeep(s: State, a: Name)
    requires Inv(s)
    ensures var o := NewResources(s, a);
            o.Some? ==> Inv(o.value) && Backing(o.value) == Backing(s)
  {
    hide SumInt, Total, VotingTallies.Inv, Stakes, RefundRow, Token.NonNegative;
    if a !in s.resources {
      var r := s.resources[a := Resources(0, 0, 0)];
      assert RamRows(r) - {a} == RamRows(s.resources) - {a};
      IntChange(RamRows(s.resources), RamRows(r), a);
      forall x: Name
        ensures NetOf(r, x) == NetOf(s.resources, x) && CpuOf(r, x) == CpuOf(s.resources, x) && RamOf(r, x) == RamOf(s.resources, x)
      {
      }
    }
  }

  lemma SendKeeps(s: State, from: Name, to: Name, q: int)
    requires Inv(s)
    ensures Token.Transfer(s.tokens, from, to, q).Some? ==>
              var s' := s.(tokens := Token.Transfer(s.tokens, from, to, q).value);
              Inv(s') && Backing(s') == Backing(s) + (if to == EOSIO_STAKE then q else 0) - (if from == EOSIO_STAKE then q else 0)
    ensures Token.Transfer(s.ramTokens, from, to, q).Some? ==>
              var s' := s.(ramTokens := Token.Transfer(s.ramTokens, from, to, q).value);
              0 < q && Inv(s') && RamBacking(s') == RamBacking(s) + (if to == EOSIO_RAM then q else 0) - (if from == EOSIO_RAM then q else 0)
  {
    hide SumInt, Total, VotingTallies.Inv, Stakes, RefundRow, Token.Transfer, Token.NonNegative;
    Token.TransferMoves(s.tokens, from, to, q);
    Token.TransferMoves(s.ramTokens, from, to, q);
  }

  // ----- steps and runs

  // The staking and RAM accounts act only through the contract.
  predicate Ordinary(a: Action) {
    match a
    case Stake(from, _, _, _, _) => from != EOSIO_STAKE
    case Unstake(from, _, _, _) => from != EOSIO_STAKE
    case SendTokens(from, _, _) => from != EOSIO_STAKE
    case SendRamTokens(from, _, _) => from != EOSIO_RAM
    case _ => true
  }

  // What a step gives to the staking account from outside.
  function Gift(s: State, a: Action): int {
    match a
    case SendTokens(from, to, q) => if to == EOSIO_STAKE && Token.Transfer(s.tokens, from, to, q).Some? then q else 0
    case _ => 0
  }

  predicate Orderly(s: State, e: Event) {
    s.votes.now <= e.time && 0.0 < e.rate && Ordinary(e.action)
  }

  lemma SelfStakeOf(s: State, s': State, p: Name)
    requires s'.delegations == s.delegations
    ensures SelfStake(s', p) == SelfStake(s, p)
  {
  }

  lemma TickKeeps(s: State, e: Event)
    requires Inv(s) && Orderly(s, e)
    ensures Inv(Tick(s, e)) && Backing(Tick(s, e)) == Backing(s)
  {
    hide SumInt, Total, VotingTallies.Sound, Stakes, RefundRow, Token.NonNegative, Voting.RowOk, SelfStake;
    VotingMachine.TickKeeps(s.votes, VotingMachine.Event(e.time, e.rate, VotingMachine.Register(0)));
    var s' := Tick(s, e);
    forall p: Name
      ensures SelfStake(s', p) == SelfStake(s, p)
    {
      SelfStakeOf(s, s', p);
    }
  }

  /** Every successful action keeps the invariant and, apart from gifts, the backing. */
  lemma ActKeeps(s: State, a: Action)
    requires Inv(s) && Voting.Shape(s.votes) && Ordinary(a)
    ensures Act(s, a).Some? ==>
              var s' := Act(s, a).value;
              Inv(s') && Backing(s') == Backing(s) + Gift(s, a) && s.votes.dropped <= s'.votes.dropped
  {
    hide Inv, Backing, DelegateBw, UndelegateBw, Refund, RegProducer, Voting.Deactivate, Voting.UpdateVotes,
         Voting.RegProxy,
         BuyRam, BuyRamBytes, SellRam, NewResources, Token.Transfer, Voting.Shape;
    match a
    case Stake(from, receiver, net, cpu, transfer) => DelegateBwKeeps(s, from, receiver, net, cpu, transfer);
    case Unstake(from, receiver, net, cpu) => UndelegateBwKeeps(s, from, receiver, net, cpu);
    case ClaimRefund(owner) => RefundKeeps(s, owner);
    case RegisterProducer(p) => RegProducerKeeps(s, p);
    case UnregisterProducer(p) => UnregisterKeeps(s, p);
    case CastVote(v, proxy, producers) => CastVoteKeeps(s, v, proxy, producers);
    case SetProxy(v, isProxy) => SetProxyKeeps(s, v, isProxy);
    case BuyRamFor(payer, receiver, quant) =>
      BuyRamKeeps(s, payer, receiver, quant);
      RamActionsKeepVotes(s, payer, receiver, quant, 0);
    case BuyBytesFor(payer, receiver, bytes) =>
      if 0 <= bytes < TWO_TO_32 {
        BuyRamBytesExact(s, payer, receiver, bytes);
        RamActionsKeepVotes(s, payer, receiver, 0, bytes);
      }
    case SellRamOf(account, bytes) =>
      if SellRam(s, account, bytes).Some? {
        SellRamMoves(s, account, bytes);
        RamActionsKeepVotes(s, account, account, 0, bytes);
      }
    case NewAccount(account) =>
      NewResourcesKeep(s, account);
      RamActionsKeepVotes(s, account, account, 0, 0);
    case SendTokens(from, to, q) => SendKeeps(s, from, to, q);
    case SendRamTokens(from, to, q) =>
      SendKeeps(s, from, to, q);
      RamTokensNotBacking(s, from, to, q);
  }

  lemma RamActionsKeepVotes(s: State, payer: Name, receiver: Name, quant: int, bytes: int)
    ensures BuyRam(s, payer, receiver, quant).Some? ==> BuyRam(s, payer, receiver, quant).value.votes == s.votes
    ensures 0 <= bytes < TWO_TO_32 && BuyRamBytes(s, payer, receiver, bytes).Some?
            ==> BuyRamBytes(s, payer, receiver, bytes).value.votes == s.votes
    ensures SellRam(s, receiver, bytes).Some? ==> SellRam(s, receiver, bytes).value.votes == s.votes
    ensures NewResources(s, receiver).Some? ==> NewResources(s, receiver).value.votes == s.votes
  {
    hide Token.Transfer, AddRam;
  }

  lemma RamTokensNotBacking(s: State, from: Name, to: Name, q: int)
    ensures Token.Transfer(s.ramTokens, from, to, q).Some? ==>
              Backing(s.(ramTokens := Token.Transfer(s.ramTokens, from, to, q).value)) == Backing(s)
  {
    hide Token.Transfer, Total, SumInt;
  }

  lemma RamBackingKept(s: State, a: Action)
    requires Inv(s) && Voting.Shape(s.votes) && Ordinary(a) && 0 <= RamBacking(s)
    ensures Act(s, a).Some? ==> RamBacking(s) <= RamBacking(Act(s, a).value)
  {
    hide Inv, Backing, ChangeBw, Refund, RegProducer, Voting.Deactivate, Voting.UpdateVotes, Voting.RegProxy,
         BuyRam, BuyRamBytes, SellRam, NewResources, Token.Transfer, Voting.Shape, RamBacking;
    match a
    case BuyRamFor(payer, receiver, quant) => BuyRamKeeps(s, payer, receiver, quant);
    case BuyBytesFor(payer, receiver, bytes) => if 0 <= bytes < TWO_TO_32 { BuyRamBytesExact(s, payer, receiver, bytes); }
    case SellRamOf(account, bytes) => if SellRam(s, account, bytes).Some? { SellRamMoves(s, account, bytes); }
    case SendRamTokens(from, to, q) => SendKeeps(s, from, to, q);
    case _ => RamUntouched(s, a);
  }

  lemma RamUntouched(s: State, a: Action)
    requires Inv(s) && Voting.Shape(s.votes)
    requires !a.BuyRamFor? && !a.BuyBytesFor? && !a.SellRamOf? && !a.SendRamTokens?
    ensures Act(s, a).Some? ==> RamBacking(Act(s, a).value) == RamBacking(s)
  {
    hide Voting.Deactivate, Voting.UpdateVotes, Voting.RegProxy, Token.Transfer, ChangeBw, Inv, GuardPasses, SelfStake,
         Voting.RegisterProducer;
    match a
    case Stake(from, receiver, net, cpu, transfer) => ChangeBwTables(s, from, receiver, net, cpu, transfer);
    case Unstake(from, receiver, net, cpu) => ChangeBwTables(s, from, receiver, -net, -cpu, false);
    case _ =>
  }

  lemma NextKeeps(s: State, e: Event)
    requires Inv(s) && Orderly(s, e)
    ensures Inv(Tick(s, e)) && Voting.Shape(Tick(s, e).votes) && Inv(Next(s, e))
    ensures Backing(s) <= Backing(Next(s, e)) && s.votes.dropped <= Next(s, e).votes.dropped
    ensures 0 <= RamBacking(s) ==> RamBacking(s) <= RamBacking(Next(s, e))
  {
    hide Inv, Act, Backing, Voting.Shape, RamBacking, Gift;
    TickKeeps(s, e);
    ShapeOf(Tick(s, e));
    ActKeeps(Tick(s, e), e.action);
    GiftPositive(Tick(s, e), e.action);
    RamTick(s, e);
    if 0 <= RamBacking(s) { RamBackingKept(Tick(s, e), e.action); }
  }

  lemma RamTick(s: State, e: Event)
    ensures RamBacking(Tick(s, e)) == RamBacking(s)
  {
  }

  lemma GiftPositive(s: State, a: Action)
    ensures 0 <= Gift(s, a)
  {
  }

  ghost predicate IsRun(s: State, es: seq<Event>, s': State)
    decreases |es|
  {
    if es == [] then s' == s
    else Voting.Shape(Tick(s, es[0]).votes) && Orderly(s, es[0]) && IsRun(Next(s, es[0]), es[1..], s')
  }

  /** Any order of staking, unstaking, refunds, votes, registrations, RAM purchases and sales and
      token transfers keeps the invariant, and neither account's backing can fall. */
  lemma {:induction false} RunKeeps(s: State, es: seq<Event>, s': State)
    requires Inv(s) && IsRun(s, es, s')
    ensures Inv(s') && Backing(s) <= Backing(s') && s.votes.dropped <= s'.votes.dropped
    ensures 0 <= RamBacking(s) ==> RamBacking(s) <= RamBacking(s')
    decreases |es|
  {
    hide Inv, Act, Backing, RamBacking, Voting.Shape, Next;
    if es != [] {
      NextKeeps(s, es[0]);
      RunKeeps(Next(s, es[0]), es[1..], s');
    }
  }

  function Genesis(now: int, rate: real, tokens: Token.Balances, ramTokens: Token.Balances): State {
    State(VotingMachine.Genesis(now, rate), map[], map[], map[], tokens, ramTokens, 0, 0, map[])
  }

  lemma GenesisInv(now: int, rate: real, tokens: Token.Balances, ramTokens: Token.Balances)
    requires 0 < now && 0.0 < rate && Token.NonNegative(tokens) && Token.NonNegative(ramTokens)
    ensures var s := Genesis(now, rate, tokens, ramTokens);
            Inv(s) && 0 <= Backing(s) && 0 <= RamBacking(s)
  {
    VotingMachine.GenesisInv(now, rate);
    var s := Genesis(now, rate, tokens, ramTokens);
    forall f: Part ensures Parts(s.delegations, f) == map[] { }
    assert RamRows(s.resources) == map[] && RefundAmounts(s.refunds) == map[];
  }

  /** What every run from genesis guarantees: stakes and totals are the sums of the delegations, the
      staking and RAM accounts cover all they owe, reserved RAM is what the rows hold, and every
      active producer keeps its self-stake. */
  lemma EveryRunIsCovered(now: int, rate: real, tokens: Token.Balances, ramTokens: Token.Balances, es: seq<Event>,
                          s: State)
    requires 0 < now && 0.0 < rate && Token.NonNegative(tokens) && Token.NonNegative(ramTokens)
    requires IsRun(Genesis(now, rate, tokens, ramTokens), es, s)
    ensures Agree(s) && RamOk(s) && ProducersStaked(s)
    ensures Total(s.delegations, AllPart()) + SumInt(RefundAmounts(s.refunds)) <= Token.BalanceOf(s.tokens, EOSIO_STAKE)
    ensures s.ramStake <= Token.BalanceOf(s.ramTokens, EOSIO_RAM)
  {
    hide Agree, RamOk, ProducersStaked, VotingTallies.Inv, RefundsOk, Total, SumInt, IsRun;
    GenesisInv(now, rate, tokens, ramTokens);
    RunKeeps(Genesis(now, rate, tokens, ramTokens), es, s);
  }

  /** After any run, a pending refund whose time has come is paid; and none is ever paid earlier. */
  lemma EveryRunPaysRefunds(now: int, rate: real, tokens: Token.Balances, ramTokens: Token.Balances, es: seq<Event>,
                            s: State, owner: Name)
    requires 0 < now && 0.0 < rate && Token.NonNegative(tokens) && Token.NonNegative(ramTokens)
    requires IsRun(Genesis(now, rate, tokens, ramTokens), es, s)
    ensures Refund(s, owner).Some?
            <==> && owner in s.refunds && owner in s.undelegated
                 && 259200000000 - s.undelegated[owner] % 1000000 <= s.votes.now - s.undelegated[owner]
  {
    hide Inv, IsRun, Backing, RamBacking;
    GenesisInv(now, rate, tokens, ramTokens);
    RunKeeps(Genesis(now, rate, tokens, ramTokens), es, s);
    RefundSucceeds(s, owner);
    if Refund(s, owner).Some? { RefundKeeps(s, owner); }
  }

  // ----- runs in which staking fails only on its own checks

  // The action is no ballot of a negative weight.
  ghost predicate Weighty(s: State, a: Action) {
    a.CastVote? && a.voter in s.votes.voters ==> 0.0 <= Voting.Weight(s.votes.voters[a.voter], s.votes.stakeRate)
  }

  lemma ActKeepsListed(s: State, a: Action)
    requires Inv(s) && Voting.Shape(s.votes) && VotingAborts.Listed(s.votes) && Weighty(s, a)
    ensures Act(s, a).Some? ==> VotingAborts.Listed(Act(s, a).value.votes)
  {
    hide Inv, ChangeBw, Refund, Voting.UpdateVotes, Voting.RegProxy, Voting.UpdateVotingPower,
         BuyRam, BuyRamBytes, SellRam, NewResources, Token.Transfer, Voting.Shape, VotingAborts.Listed, GuardPasses, SelfStake;
    match a
    case Stake(from, receiver, net, cpu, transfer) =>
      ChangeBwTables(s, from, receiver, net, cpu, transfer);
      VotingAborts.StakeChangeKeepsListed(s.votes, if transfer then receiver else from, net + cpu);
    case Unstake(from, receiver, net, cpu) =>
      ChangeBwTables(s, from, receiver, -net, -cpu, false);
      VotingAborts.StakeChangeKeepsListed(s.votes, from, -net - cpu);
    case ClaimRefund(owner) => RefundKeeps(s, owner);
    case RegisterProducer(p) => VotingAborts.MoreProducersListed(s.votes, Voting.RegisterProducer(s.votes, p));
    case UnregisterProducer(p) =>
      if p in s.votes.producers { VotingAborts.MoreProducersListed(s.votes, Voting.Deactivate(s.votes, p).value); }
    case CastVote(v, proxy, producers) =>
      if Voting.UpdateVotes(s.votes, v, proxy, producers, true).Some? {
        VotingAborts.VoteKeepsListed(s.votes, v, proxy, producers, true);
      }
    case SetProxy(v, isProxy) => VotingAborts.RegProxyKeepsListed(s.votes, v, isProxy);
    case BuyRamFor(payer, receiver, quant) => RamActionsKeepVotes(s, payer, receiver, quant, 0);
    case BuyBytesFor(payer, receiver, bytes) => RamActionsKeepVotes(s, payer, receiver, 0, bytes);
    case SellRamOf(account, bytes) => RamActionsKeepVotes(s, account, account, 0, bytes);
    case NewAccount(account) => RamActionsKeepVotes(s, account, account, 0, 0);
    case SendTokens(_, _, _) =>
    case SendRamTokens(_, _, _) =>
  }

  ghost predicate WeightyRun(s: State, es: seq<Event>)
    decreases |es|
  {
    es != [] && Voting.Shape(Tick(s, es[0]).votes) ==>
      Weighty(Tick(s, es[0]), es[0].action) && WeightyRun(Next(s, es[0]), es[1..])
  }

  lemma {:induction false} RunKeepsListed(s: State, es: seq<Event>, s': State)
    requires Inv(s) && VotingAborts.Listed(s.votes) && IsRun(s, es, s') && WeightyRun(s, es)
    ensures VotingAborts.Listed(s'.votes)
    decreases |es|
  {
    hide Inv, Act, Voting.Shape, Weighty, VotingAborts.Listed, Orderly;
    if es != [] {
      NextKeeps(s, es[0]);
      VotingAborts.MoreProducersListed(s.votes, Tick(s, es[0]).votes);
      ActKeepsListed(Tick(s, es[0]), es[0].action);
      RunKeepsListed(Next(s, es[0]), es[1..], s');
    }
  }

  /** At the end of every run in which no ballot is cast with a negative weight, delegatebw and
      undelegatebw fail only on their own checks. */
  lemma EveryRunStakes(now: int, rate: real, tokens: Token.Balances, ramTokens: Token.Balances, es: seq<Event>,
                       s: State, from: Name, receiver: Name, net: int, cpu: int, transfer: bool)
    requires 0 < now && 0.0 < rate && Token.NonNegative(tokens) && Token.NonNegative(ramTokens)
    requires IsRun(Genesis(now, rate, tokens, ramTokens), es, s) && WeightyRun(Genesis(now, rate, tokens, ramTokens), es)
    ensures Voting.Shape(s.votes)
    ensures DelegateBw(s, from, receiver, net, cpu, transfer).Some?
            <==> && 0 <= net && 0 <= cpu && 0 < net + cpu && !(transfer && from == receiver)
                 && (from == EOSIO_STAKE || Due(s, from, receiver, net, cpu) <= Token.BalanceOf(s.tokens, from))
                 && KeepsVested(s, if transfer then receiver else from, net + cpu)
    ensures UndelegateBw(s, from, receiver, net, cpu).Some?
            <==> && 0 <= net <= RowOf(s.delegations, (from, receiver)).net && 0 <= cpu <= RowOf(s.delegations, (from, receiver)).cpu
                 && 0 < net + cpu && s.votes.activationTime != 0
                 && (Voting.Active(s.votes, from) ==> GuardPasses(SelfStake(s, from), net + cpu))
                 && KeepsVested(s, from, -net - cpu)
  {
    hide KeepsVested, Inv, IsRun, WeightyRun, Backing, RamBacking, VotingAborts.Listed, DelegateBw, UndelegateBw, Voting.Shape,
         GuardPasses, SelfStake;
    var s0 := Genesis(now, rate, tokens, ramTokens);
    GenesisInv(now, rate, tokens, ramTokens);
    VotingAborts.EmptyListed(now, rate);
    RunKeeps(s0, es, s);
    RunKeepsListed(s0, es, s);
    ShapeOf(s);
    DelegateBwSucceeds(s, from, receiver, net, cpu, transfer);
    UndelegateBwSucceeds(s, from, receiver, net, cpu);
  }
}
