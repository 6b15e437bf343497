/** Whose tokens staking moves: what each action does to every row and balance, and over whole runs
    that no account's tokens, stake and pending refunds ever become another's. */
module StakingWealth {
  import opened Common
  import opened Staking
  import opened StakingSums
  import opened StakingVotes
  import opened StakingMachine
  import opened StakingRuns
  import Token
  import Voting
  import VotingEffects
  import VotingTallies

  function PendingNet(s: State, a: Name): int { if a in s.refunds then s.refunds[a].net else 0 }
  function PendingCpu(s: State, a: Name): int { if a in s.refunds then s.refunds[a].cpu else 0 }

  // ----- refund

  /** A refund pays its owner what was pending for it, out of the staking account, and ends it; every
      other balance and every other refund stays. */
  lemma RefundPaysOwner(s: State, owner: Name)
    requires Inv(s) && Refund(s, owner).Some?
    ensures var s' := Refund(s, owner).value;
            && Token.Moved(s.tokens, s'.tokens, EOSIO_STAKE, owner, PendingNet(s, owner) + PendingCpu(s, owner))
            && owner in s.refunds && owner !in s'.refunds
            && (forall o | o != owner :: (o in s'.refunds <==> o in s.refunds) && (o in s.refunds ==> s'.refunds[o] == s.refunds[o]))
            && s' == s.(tokens := s'.tokens, refunds := s'.refunds)
  {
    hide Token.Transfer, VotingTallies.Inv, Stakes, Agree, RefundsOk, ProducersStaked, RamOk;
    Token.TransferIsMove(s.tokens, EOSIO_STAKE, owner, s.refunds[owner].net + s.refunds[owner].cpu);
  }

  // ----- delegating and undelegating

  // The delegation of one pair of accounts, and its receiver's totals, moved by net and cpu.
  ghost predicate Delegated(s: State, s': State, holder: Name, receiver: Name, net: int, cpu: int) {
    && (forall k :: RowOf(s'.delegations, k) == if k == (holder, receiver)
                                               then Bandwidth(RowOf(s.delegations, k).net + net, RowOf(s.delegations, k).cpu + cpu)
                                               else RowOf(s.delegations, k))
    && (forall r :: NetOf(s'.resources, r) == NetOf(s.resources, r) + if r == receiver then net else 0)
    && (forall r :: CpuOf(s'.resources, r) == CpuOf(s.resources, r) + if r == receiver then cpu else 0)
    && (forall r :: RamOf(s'.resources, r) == RamOf(s.resources, r))
    && (forall a :: Voting.StakeOf(s'.votes, a) == Voting.StakeOf(s.votes, a) + if a == holder then net + cpu else 0)
    && s'.ramTokens == s.ramTokens && s'.ramReserved == s.ramReserved && s'.ramStake == s.ramStake
  }

  lemma ChangeBwDelegates(s: State, source: Name, receiver: Name, net: int, cpu: int, transfer: bool)
    requires Inv(s) && ChangeBw(s, source, receiver, net, cpu, transfer).Some?
    ensures Delegated(s, ChangeBw(s, source, receiver, net, cpu, transfer).value, if transfer then receiver else source,
                      receiver, net, cpu)
  {
    hide ChangeBw, Delegate, Receive, Pay, Voting.UpdateVotingPower, Voting.Shape, VotingTallies.Sound, Agree, RefundsOk, RamOk,
         ProducersStaked, RowOf, NetOf, CpuOf, RamOf;
    var from := if transfer then receiver else source;
    ChangeBwTables(s, source, receiver, net, cpu, transfer);
    DelegateKeepsStakes(s.delegations, (from, receiver), net, cpu);
    ReceiveMoves(s.resources, receiver, net, cpu);
    StakeMoves(s.votes, from, net + cpu);
  }

  // What is pending for a, after net and cpu more were staked out of it.
  ghost predicate UsedUp(s: State, s': State, a: Name, net: int, cpu: int) {
    PendingNet(s', a) == Max(PendingNet(s, a) - net, 0) && PendingCpu(s', a) == Max(PendingCpu(s, a) - cpu, 0)
  }

  // The refunds of everybody but a are as they were.
  ghost predicate OtherRefunds(s: State, s': State, a: Name) {
    forall o | o != a :: (o in s'.refunds <==> o in s.refunds) && (o in s.refunds ==> s'.refunds[o] == s.refunds[o])
  }

  lemma PayWhenStaking(s: State, from: Name, receiver: Name, net: int, cpu: int, transfer: bool)
    requires RefundsOk(s) && Token.NonNegative(s.tokens) && from != EOSIO_STAKE
    requires 0 <= net && 0 <= cpu && 0 < net + cpu && !(transfer && from == receiver)
    requires Pay(s, from, if transfer then receiver else from, receiver, net, cpu, transfer).Some?
    ensures var s' := Pay(s, from, if transfer then receiver else from, receiver, net, cpu, transfer).value;
            && OtherRefunds(s, s', from)
            && (if from == receiver then UsedUp(s, s', from, net, cpu) else s'.refunds == s.refunds)
            && s'.undelegated == s.undelegated
            && Token.Moved(s.tokens, s'.tokens, from, EOSIO_STAKE,
                     net + cpu - (PendingNet(s, from) - PendingNet(s', from)) - (PendingCpu(s, from) - PendingCpu(s', from)))
  {
    hide Token.Transfer, Token.NonNegative;
    var due := if from == receiver then Requeue(s.refunds, from, net, cpu, s.votes.now).1 else net + cpu;
    if 0 < due { Token.TransferIsMove(s.tokens, from, EOSIO_STAKE, due); }
  }

  /** delegatebw: the delegation grows by just what was asked, in the name of the delegator or, with the
      transfer flag, of the receiver; the delegator pays all that its own pending refund does not
      cover, and nobody else's tokens or refunds move. */
  lemma DelegateBwMoves(s: State, from: Name, receiver: Name, net: int, cpu: int, transfer: bool)
    requires Inv(s) && DelegateBw(s, from, receiver, net, cpu, transfer).Some?
    ensures 0 <= net && 0 <= cpu && 0 < net + cpu
    ensures var s' := DelegateBw(s, from, receiver, net, cpu, transfer).value;
            && Delegated(s, s', if transfer then receiver else from, receiver, net, cpu)
            && s'.undelegated == s.undelegated
            && (from == EOSIO_STAKE ==> s'.refunds == s.refunds && s'.tokens == s.tokens)
            && (from != EOSIO_STAKE ==>
                  && OtherRefunds(s, s', from)
                  && (if from == receiver then UsedUp(s, s', from, net, cpu) else s'.refunds == s.refunds)
                  && Token.Moved(s.tokens, s'.tokens, from, EOSIO_STAKE,
                           net + cpu - (PendingNet(s, from) - PendingNet(s', from)) - (PendingCpu(s, from) - PendingCpu(s', from))))
  {
    hide ChangeBw, Pay, Voting.Shape, VotingTallies.Sound, Agree, RamOk, ProducersStaked, RefundsOk, Delegated, Token.Moved;
    ChangeBwDelegates(s, from, receiver, net, cpu, transfer);
    ChangeBwTables(s, from, receiver, net, cpu, transfer);
    var s' := DelegateBw(s, from, receiver, net, cpu, transfer).value;
    if from == EOSIO_STAKE {
      NothingPaid(s, from, if transfer then receiver else from, receiver, net, cpu, transfer);
    } else {
      PayWhenStaking(s, from, receiver, net, cpu, transfer);
    }
  }

  lemma NothingPaid(s: State, source: Name, from: Name, receiver: Name, net: int, cpu: int, transfer: bool)
    requires source == EOSIO_STAKE
    ensures Pay(s, source, from, receiver, net, cpu, transfer) == Some(s)
  {
  }

  lemma PayWhenUnstaking(s: State, from: Name, receiver: Name, net: int, cpu: int)
    requires RefundsOk(s) && from != EOSIO_STAKE && 0 <= net && 0 <= cpu && 0 < net + cpu
    requires Pay(s, from, from, receiver, -net, -cpu, false).Some?
    ensures var s' := Pay(s, from, from, receiver, -net, -cpu, false).value;
            && OtherRefunds(s, s', from) && s'.tokens == s.tokens
            && from in s'.refunds
            && s'.refunds[from] == RefundRequest(s.votes.now / 1000000, PendingNet(s, from) + net, PendingCpu(s, from) + cpu)
            && s'.undelegated == s.undelegated[from := s.votes.now]
  {
  }

  /** undelegatebw: the delegation shrinks by just what was asked, which is pending from now on for the
      delegator; no tokens move. */
  lemma UndelegateBwMoves(s: State, from: Name, receiver: Name, net: int, cpu: int)
    requires Inv(s) && UndelegateBw(s, from, receiver, net, cpu).Some?
    ensures 0 <= net && 0 <= cpu && 0 < net + cpu
    ensures var s' := UndelegateBw(s, from, receiver, net, cpu).value;
            && Delegated(s, s', from, receiver, -net, -cpu) && s'.tokens == s.tokens
            && (from == EOSIO_STAKE ==> s'.refunds == s.refunds && s'.undelegated == s.undelegated)
            && (from != EOSIO_STAKE ==>
                  && OtherRefunds(s, s', from) && from in s'.refunds
                  && s'.refunds[from] == RefundRequest(s.votes.now / 1000000, PendingNet(s, from) + net, PendingCpu(s, from) + cpu)
                  && s'.undelegated == s.undelegated[from := s.votes.now])
  {
    hide ChangeBw, Pay, Voting.Shape, VotingTallies.Sound, Agree, RamOk, ProducersStaked, RefundsOk, Delegated, GuardPasses, SelfStake;
    ChangeBwDelegates(s, from, receiver, -net, -cpu, false);
    ChangeBwTables(s, from, receiver, -net, -cpu, false);
    if from == EOSIO_STAKE {
      NothingPaid(s, from, from, receiver, -net, -cpu, false);
    } else {
      PayWhenUnstaking(s, from, receiver, net, cpu);
    }
  }

  // ----- RAM and producers

  /** buyram: the payer pays the RAM account, and the receiver alone gets the bytes. */
  lemma BuyRamPays(s: State, payer: Name, receiver: Name, quant: int)
    requires Inv(s) && BuyRam(s, payer, receiver, quant).Some?
    ensures var s' := BuyRam(s, payer, receiver, quant).value;
            && Token.Moved(s.ramTokens, s'.ramTokens, payer, EOSIO_RAM, quant)
            && (forall a :: RamOf(s'.resources, a) == RamOf(s.resources, a) + if a == receiver then quant / 10000 * 1024 else 0)
            && (forall a :: NetOf(s'.resources, a) == NetOf(s.resources, a) && CpuOf(s'.resources, a) == CpuOf(s.resources, a))
            && s'.ramReserved == s.ramReserved + quant / 10000 * 1024 && s'.ramStake == s.ramStake + quant
            && s' == s.(ramTokens := s'.ramTokens, resources := s'.resources, ramReserved := s'.ramReserved, ramStake := s'.ramStake)
  {
    hide Token.Transfer, VotingTallies.Inv, Stakes, Agree, RefundsOk, ProducersStaked, RamOk, AddRam;
    Token.TransferIsMove(s.ramTokens, payer, EOSIO_RAM, quant);
    AddRamMoves(s.resources, receiver, quant / 10000 * 1024);
  }

  /** sellram: the seller is paid by the RAM account, and it alone gives up bytes. */
  lemma SellRamPays(s: State, account: Name, bytes: int)
    requires Inv(s) && SellRam(s, account, bytes).Some?
    ensures var s' := SellRam(s, account, bytes).value;
            && Token.Moved(s.ramTokens, s'.ramTokens, EOSIO_RAM, account, bytes / 1024 * 10000)
            && (forall a :: RamOf(s'.resources, a) == RamOf(s.resources, a) - if a == account then bytes else 0)
            && (forall a :: NetOf(s'.resources, a) == NetOf(s.resources, a) && CpuOf(s'.resources, a) == CpuOf(s.resources, a))
            && s'.ramReserved == s.ramReserved - bytes && s'.ramStake == s.ramStake - bytes / 1024 * 10000
            && s' == s.(ramTokens := s'.ramTokens, resources := s'.resources, ramReserved := s'.ramReserved, ramStake := s'.ramStake)
  {
    hide Token.Transfer, VotingTallies.Inv, Stakes, Agree, RefundsOk, ProducersStaked, RamOk, AddRam;
    Token.TransferIsMove(s.ramTokens, EOSIO_RAM, account, bytes / 1024 * 10000);
    AddRamMoves(s.resources, account, -bytes);
  }

  /** regproducer succeeds exactly for who has 10,000,000.0000 tokens staked to itself, which makes it
      active and touches nothing of anybody else. */
  lemma RegProducerSpelled(s: State, p: Name)
    requires Inv(s)
    ensures RegProducer(s, p).Some? <==> 100000000000 <= RowOf(s.delegations, (p, p)).net + RowOf(s.delegations, (p, p)).cpu
    ensures RegProducer(s, p).Some? ==>
              var s' := RegProducer(s, p).value;
              && s' == s.(votes := s'.votes) && VotingEffects.OtherProducersKeep(s.votes, s'.votes, p)
              && Voting.Active(s'.votes, p) && s'.votes.voters == s.votes.voters
  {
    hide VotingTallies.Sound, Stakes, Agree, RefundsOk, ProducersStaked, RamOk;
    VotingEffects.RegisterSpelled(s.votes, p);
  }

  // ----- one account's tokens, staked or not

  /** What is a's: its balance, what it has delegated and what is pending for it. */
  ghost function Wealth(s: State, a: Name): int {
    Token.BalanceOf(s.tokens, a) + Total(s.delegations, FromPart(a)) + PendingNet(s, a) + PendingCpu(s, a)
  }

  // What an accepted action gives to a, and takes from it: transfers, and stakes with the transfer flag.
  function Given(action: Action, a: Name): int {
    match action
    case Stake(from, receiver, net, cpu, transfer) =>
      if transfer then (if a == receiver then net + cpu else 0) - (if a == from then net + cpu else 0) else 0
    case SendTokens(from, to, q) => (if a == to then q else 0) - (if a == from then q else 0)
    case _ => 0
  }

  lemma ChangeBwTotal(s: State, source: Name, receiver: Name, net: int, cpu: int, transfer: bool, a: Name)
    requires Inv(s) && ChangeBw(s, source, receiver, net, cpu, transfer).Some?
    ensures var s' := ChangeBw(s, source, receiver, net, cpu, transfer).value;
            Total(s'.delegations, FromPart(a))
            == Total(s.delegations, FromPart(a)) + if a == (if transfer then receiver else source) then net + cpu else 0
  {
    hide ChangeBw, Delegate, Receive, Pay, Voting.UpdateVotingPower, Voting.Shape, VotingTallies.Sound, Agree, RefundsOk, RamOk,
         ProducersStaked, Total;
    ChangeBwTables(s, source, receiver, net, cpu, transfer);
    DelegateTotals(s.delegations, (if transfer then receiver else source, receiver), net, cpu);
  }

  lemma StakeWealth(s: State, from: Name, receiver: Name, net: int, cpu: int, transfer: bool, a: Name)
    requires Inv(s) && DelegateBw(s, from, receiver, net, cpu, transfer).Some? && from != EOSIO_STAKE && a != EOSIO_STAKE
    ensures Wealth(DelegateBw(s, from, receiver, net, cpu, transfer).value, a)
         == Wealth(s, a) + Given(Stake(from, receiver, net, cpu, transfer), a)
  {
    hide ChangeBw, Pay, Voting.Shape, VotingTallies.Inv, Agree, RamOk, ProducersStaked, RefundsOk, Delegated, Total;
    DelegateBwMoves(s, from, receiver, net, cpu, transfer);
    ChangeBwTotal(s, from, receiver, net, cpu, transfer, a) by { assert Inv(s); }
  }

  lemma UnstakeWealth(s: State, from: Name, receiver: Name, net: int, cpu: int, a: Name)
    requires Inv(s) && UndelegateBw(s, from, receiver, net, cpu).Some? && from != EOSIO_STAKE
    ensures Wealth(UndelegateBw(s, from, receiver, net, cpu).value, a) == Wealth(s, a)
  {
    hide ChangeBw, Pay, Voting.Shape, VotingTallies.Inv, Agree, RamOk, ProducersStaked, RefundsOk, Delegated, Total, GuardPasses,
         SelfStake;
    UndelegateBwMoves(s, from, receiver, net, cpu);
    ChangeBwTotal(s, from, receiver, -net, -cpu, false, a);
  }

  lemma RefundWealth(s: State, owner: Name, a: Name)
    requires Inv(s) && Refund(s, owner).Some? && a != EOSIO_STAKE
    ensures Wealth(Refund(s, owner).value, a) == Wealth(s, a)
  {
    hide Refund, VotingTallies.Inv, Agree, RamOk, ProducersStaked, RefundsOk, Stakes, Total;
    RefundPaysOwner(s, owner);
  }

  lemma SendWealth(s: State, from: Name, to: Name, q: int, a: Name)
    requires Inv(s) && Token.Transfer(s.tokens, from, to, q).Some?
    ensures Wealth(s.(tokens := Token.Transfer(s.tokens, from, to, q).value), a) == Wealth(s, a) + Given(SendTokens(from, to, q), a)
  {
    hide Token.Transfer, VotingTallies.Inv, Agree, RamOk, ProducersStaked, RefundsOk, Stakes, Total;
    Token.TransferIsMove(s.tokens, from, to, q);
  }

  lemma OthersWealth(s: State, action: Action)
    requires Voting.Shape(s.votes) && Act(s, action).Some?
    requires !action.Stake? && !action.Unstake? && !action.ClaimRefund? && !action.SendTokens?
    ensures forall a :: Wealth(Act(s, action).value, a) == Wealth(s, a)
  {
    hide Voting.Deactivate, Voting.UpdateVotes, Voting.RegProxy, Token.Transfer, Voting.RegisterProducer, Total, AddRam, SelfStake;
  }

  /** No action moves a's wealth, apart from what is given openly. */
  lemma ActWealth(s: State, action: Action, a: Name)
    requires Inv(s) && Voting.Shape(s.votes) && Ordinary(action) && Act(s, action).Some? && a != EOSIO_STAKE
    ensures Wealth(Act(s, action).value, a) == Wealth(s, a) + Given(action, a)
  {
    hide Inv, Wealth, DelegateBw, UndelegateBw, Refund, RegProducer, Voting.Deactivate, Voting.UpdateVotes, Voting.RegProxy,
         BuyRam, BuyRamBytes, SellRam, NewResources, Token.Transfer, Voting.Shape;
    match action
    case Stake(from, receiver, net, cpu, transfer) => StakeWealth(s, from, receiver, net, cpu, transfer, a);
    case Unstake(from, receiver, net, cpu) => UnstakeWealth(s, from, receiver, net, cpu, a);
    case ClaimRefund(owner) => RefundWealth(s, owner, a);
    case SendTokens(from, to, q) => SendWealth(s, from, to, q, a);
    case _ => OthersWealth(s, action);
  }

  // All that was openly given to a in the run, less what a gave.
  ghost function GivenInRun(s: State, es: seq<Event>, a: Name): int
    decreases |es|
  {
    if es == [] || !Voting.Shape(Tick(s, es[0]).votes) then 0 else
    var t := Tick(s, es[0]);
    (if Act(t, es[0].action).Some? then Given(es[0].action, a) else 0) + GivenInRun(Next(s, es[0]), es[1..], a)
  }

  lemma TickWealth(s: State, e: Event, a: Name)
    ensures Wealth(Tick(s, e), a) == Wealth(s, a)
  {
  }

  lemma {:induction false} RunWealth(s: State, es: seq<Event>, s': State, a: Name)
    requires Inv(s) && IsRun(s, es, s') && a != EOSIO_STAKE
    ensures Wealth(s', a) == Wealth(s, a) + GivenInRun(s, es, a)
    decreases |es|
  {
    hide Inv, Act, Wealth, Voting.Shape, Given;
    if es != [] {
      var t := Tick(s, es[0]);
      NextKeeps(s, es[0]);
      TickWealth(s, es[0], a);
      if Act(t, es[0].action).Some? { ActWealth(t, es[0].action, a); }
      RunWealth(Next(s, es[0]), es[1..], s', a);
    }
  }

  /** Over any run an account's balance, delegations and pending refunds together are what it began
      with and was openly given: no stake, refund or payment ends up with anybody else. */
  lemma WealthOfEveryRun(now: int, rate: real, tokens: Token.Balances, ramTokens: Token.Balances, es: seq<Event>,
                         s: State, a: Name)
    requires 0 < now && 0.0 < rate && Token.NonNegative(tokens) && Token.NonNegative(ramTokens) && a != EOSIO_STAKE
    requires IsRun(Genesis(now, rate, tokens, ramTokens), es, s)
    ensures Token.BalanceOf(s.tokens, a) + Voting.StakeOf(s.votes, a) + PendingNet(s, a) + PendingCpu(s, a)
         == Token.BalanceOf(tokens, a) + GivenInRun(Genesis(now, rate, tokens, ramTokens), es, a)
  {
    hide IsRun, GivenInRun, Total, VotingTallies.Inv, RefundsOk, ProducersStaked, RamOk, Stakes;
    var s0 := Genesis(now, rate, tokens, ramTokens);
    GenesisInv(now, rate, tokens, ramTokens);
    RunKeeps(s0, es, s);
    RunWealth(s0, es, s, a);
  }
}
