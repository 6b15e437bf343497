/** What every staking action, and so every run, keeps. */
module StakingMachine {
  import opened Common
  import opened Sums
  import opened Staking
  import opened StakingSums
  import opened StakingVotes
  import Token
  import Voting
  import VotingTallies
  import VotingAborts
  import VotingMachine

  // ----- the invariant

  /** A voter's stake is what it delegated, a receiver's totals are what was delegated to it. */
  ghost predicate Agree(s: State) {
    && (forall a :: Voting.StakeOf(s.votes, a) == Total(s.delegations, FromPart(a)))
    && (forall r :: NetOf(s.resources, r) == Total(s.delegations, NetPart(r)))
    && (forall r :: CpuOf(s.resources, r) == Total(s.delegations, CpuPart(r)))
  }

  // Pending refunds are due three days after the last undelegation, in whole seconds.
  ghost predicate RefundsOk(s: State) {
    && (forall o | o in s.refunds ::
          && RefundRow(s.refunds[o]) && o != EOSIO_STAKE
          && o in s.undelegated && s.refunds[o].time == s.undelegated[o] / 1000000)
    && (forall o | o in s.undelegated :: s.undelegated[o] <= s.votes.now)
  }

  ghost predicate ProducersStaked(s: State) {
    forall p: Name | Voting.Active(s.votes, p) :: MIN_SELF_STAKE <= SelfStake(s, p)
  }

  /** Reserved RAM is what the rows hold, paid for at 10000 units for 1024 bytes. */
  ghost predicate RamOk(s: State) {
    && s.ramReserved == SumInt(RamRows(s.resources))
    && s.ramStake * 1024 == s.ramReserved * 10000
    && (forall r :: 0 <= RamOf(s.resources, r))
  }

  ghost predicate Inv(s: State) {
    && VotingTallies.Inv(s.votes)
    && Stakes(s.delegations) && Agree(s) && RefundsOk(s) && ProducersStaked(s) && RamOk(s)
    && Token.NonNegative(s.tokens) && Token.NonNegative(s.ramTokens)
  }

  // What the staking account holds beyond delegations and pending refunds.
  ghost function Backing(s: State): int {
    Token.BalanceOf(s.tokens, EOSIO_STAKE) - Total(s.delegations, AllPart()) - SumInt(RefundAmounts(s.refunds))
  }

  // What the RAM account holds beyond the RAM stake.
  function RamBacking(s: State): int {
    Token.BalanceOf(s.ramTokens, EOSIO_RAM) - s.ramStake
  }

  // ----- changebw

  lemma SameSigns(net: int, cpu: int)
    requires DeltasOk(net, cpu)
    ensures (0 <= net && 0 <= cpu && 0 < net + cpu) || (net <= 0 && cpu <= 0 && net + cpu < 0)
  {
  }

  /** The checks on the receiver's totals and on the voter's stake can never be the ones that fail:
      they hold whenever the delegation row's own check does. */
  lemma TotalsNeverFail(s: State, from: Name, receiver: Name, net: int, cpu: int)
    requires Inv(s)
    ensures Delegate(s.delegations, (from, receiver), net, cpu).Some? ==>
              && Receive(s.resources, receiver, net, cpu).Some?
              && 0 <= Voting.StakeOf(s.votes, from) + net + cpu
  {
    hide Total, VotingTallies.Inv, RefundsOk, ProducersStaked, RamOk;
    RowInTotals(s.delegations, (from, receiver));
    ReceiveMoves(s.resources, receiver, net, cpu);
  }

  // The payment in words of sums: what is asked for is queued or paid by the source.
  lemma PayBalances(s: State, source: Name, from: Name, receiver: Name, net: int, cpu: int, transfer: bool)
    requires RefundsOk(s) && Token.NonNegative(s.tokens) && DeltasOk(net, cpu)
    ensures var o := Pay(s, source, from, receiver, net, cpu, transfer);
            o.Some? ==>
              && o.value == s.(refunds := o.value.refunds, undelegated := o.value.undelegated, tokens := o.value.tokens)
              && Token.NonNegative(o.value.tokens)
              && (source != EOSIO_STAKE ==>
                    Token.BalanceOf(o.value.tokens, EOSIO_STAKE) - SumInt(RefundAmounts(o.value.refunds))
                    == Token.BalanceOf(s.tokens, EOSIO_STAKE) - SumInt(RefundAmounts(s.refunds)) + net + cpu)
              && (source == EOSIO_STAKE ==> o.value == s)
  {
    hide SumInt, Requeue, Token.Transfer, Token.NonNegative, DeltasOk, Total;
    SameSigns(net, cpu);
    RequeueBalances(s.refunds, from, net, cpu, s.votes.now);
    var touches := net + cpu < 0 || (!transfer && from == receiver);
    var due := if touches then Requeue(s.refunds, from, net, cpu, s.votes.now).1 else net + cpu;
    Token.TransferMoves(s.tokens, source, EOSIO_STAKE, due);
  }

  lemma PayKeepsRefunds(s: State, source: Name, from: Name, receiver: Name, net: int, cpu: int, transfer: bool)
    requires RefundsOk(s) && DeltasOk(net, cpu)
    requires (!transfer ==> from == source) && (net + cpu < 0 ==> !transfer)
    ensures var o := Pay(s, source, from, receiver, net, cpu, transfer);
            o.Some? ==> RefundsOk(o.value)
  {
    hide SumInt, Requeue;
    SameSigns(net, cpu);
    RequeueBalances(s.refunds, from, net, cpu, s.votes.now);
    RequeueTimes(s.refunds, from, net, cpu, s.votes.now);
  }

  lemma PayElsewhere(s: State, d: map<Key, Bandwidth>, r: map<Name, Resources>,
                     source: Name, from: Name, receiver: Name, net: int, cpu: int, transfer: bool)
    ensures var o, o' := Pay(s, source, from, receiver, net, cpu, transfer),
                         Pay(s.(delegations := d, resources := r), source, from, receiver, net, cpu, transfer);
            && (o.Some? <==> o'.Some?)
            && (o.Some? ==> o'.value == o.value.(delegations := d, resources := r))
    ensures Pay(s, source, from, receiver, net, cpu, transfer).Some? ==>
              var s' := Pay(s, source, from, receiver, net, cpu, transfer).value;
              s' == s.(refunds := s'.refunds, undelegated := s'.undelegated, tokens := s'.tokens)
  {
    hide Requeue, Token.Transfer;
  }

  // changebw as a whole, table by table.
  lemma ChangeBwTables(s: State, source: Name, receiver: Name, net: int, cpu: int, transfer: bool)
    requires Inv(s)
    ensures var o := ChangeBw(s, source, receiver, net, cpu, transfer);
            var from := if transfer then receiver else source;
            o.Some? ==>
              && DeltasOk(net, cpu)
              && Delegate(s.delegations, (from, receiver), net, cpu) == Some(o.value.delegations)
              && Receive(s.resources, receiver, net, cpu) == Some(o.value.resources)
              && Voting.UpdateVotingPower(s.votes, from, net + cpu) == Some(o.value.votes)
              && Pay(s, source, from, receiver, net, cpu, transfer)
                 == Some(s.(refunds := o.value.refunds, undelegated := o.value.undelegated, tokens := o.value.tokens))
              && o.value.ramTokens == s.ramTokens && o.value.ramReserved == s.ramReserved && o.value.ramStake == s.ramStake
  {
    hide Pay, Delegate, Receive, Voting.UpdateVotingPower, DeltasOk, Agree, RefundsOk, RamOk, ProducersStaked;
    var from := if transfer then receiver else source;
    var d, r := Delegate(s.delegations, (from, receiver), net, cpu), Receive(s.resources, receiver, net, cpu);
    if d.Some? && r.Some? {
      PayElsewhere(s, d.value, r.value, source, from, receiver, net, cpu, transfer);
    }
  }

  lemma ChangeBwAgrees(s: State, source: Name, receiver: Name, net: int, cpu: int, transfer: bool)
    requires Inv(s) && ChangeBw(s, source, receiver, net, cpu, transfer).Some?
    ensures var s' := ChangeBw(s, source, receiver, net, cpu, transfer).value;
            Stakes(s'.delegations) && Agree(s')
  {
    hide ChangeBw, Total, Delegate, Receive, Voting.UpdateVotingPower, RefundsOk, RamOk, ProducersStaked, Pay,
         Voting.Shape, SumInt;
    var from := if transfer then receiver else source;
    ChangeBwTables(s, source, receiver, net, cpu, transfer);
    DelegateTotals(s.delegations, (from, receiver), net, cpu);
    DelegateKeepsStakes(s.delegations, (from, receiver), net, cpu);
    ReceiveMoves(s.resources, receiver, net, cpu);
    StakeMoves(s.votes, from, net + cpu);
  }

  /** Stake conservation: whatever the source, as long as it is not the staking account itself, the
      staking account's balance moves with delegations and pending refunds; for the staking
      account nothing is paid. */
  lemma ChangeBwBacking(s: State, source: Name, receiver: Name, net: int, cpu: int, transfer: bool)
    requires Inv(s) && ChangeBw(s, source, receiver, net, cpu, transfer).Some?
    ensures Backing(ChangeBw(s, source, receiver, net, cpu, transfer).value)
         == Backing(s) - if source == EOSIO_STAKE then net + cpu else 0
  {
    hide ChangeBw, Total, Delegate, Receive, Voting.UpdateVotingPower, RamOk, ProducersStaked, Pay, Voting.Shape,
         SumInt, Agree,
         RefundsOk, DeltasOk;
    var from := if transfer then receiver else source;
    ChangeBwTables(s, source, receiver, net, cpu, transfer);
    DelegateTotals(s.delegations, (from, receiver), net, cpu);
    PayBalances(s, source, from, receiver, net, cpu, transfer);
  }

  // Everything but the producers' self-stake.
  lemma ChangeBwKeeps(s: State, source: Name, receiver: Name, net: int, cpu: int, transfer: bool)
    requires Inv(s) && ChangeBw(s, source, receiver, net, cpu, transfer).Some? && (net + cpu < 0 ==> !transfer)
    ensures var s' := ChangeBw(s, source, receiver, net, cpu, transfer).value;
            && VotingTallies.Inv(s'.votes) && s.votes.dropped <= s'.votes.dropped
            && Stakes(s'.delegations) && Agree(s') && RefundsOk(s') && RamOk(s')
            && Token.NonNegative(s'.tokens) && Token.NonNegative(s'.ramTokens)
  {
    hide ChangeBw, Total, Delegate, Receive, Voting.UpdateVotingPower, ProducersStaked, Pay, Voting.Shape, SumInt,
         Agree, RefundsOk,
         DeltasOk, VotingTallies.Sound, Token.NonNegative;
    var from := if transfer then receiver else source;
    ChangeBwTables(s, source, receiver, net, cpu, transfer);
    ChangeBwAgrees(s, source, receiver, net, cpu, transfer);
    VotingMachine.UpdateVotingPowerKeeps(s.votes, from, net + cpu);
    StakeMoves(s.votes, from, net + cpu);
    PayBalances(s, source, from, receiver, net, cpu, transfer);
    PayKeepsRefunds(s, source, from, receiver, net, cpu, transfer);
    ReceiveMoves(s.resources, receiver, net, cpu);
    var s' := ChangeBw(s, source, receiver, net, cpu, transfer).value;
    RefundsElsewhere(Pay(s, source, from, receiver, net, cpu, transfer).value, s');
  }

  lemma RefundsElsewhere(s: State, s': State)
    requires RefundsOk(s) && s'.refunds == s.refunds && s'.undelegated == s.undelegated && s'.votes.now == s.votes.now
    ensures RefundsOk(s')
  {
  }

  // ----- producers' self-stake

  /** The guard as a caller reads it: besides stakes that stay large enough, it lets through every
      amount above the stake, since the subtraction wraps around. */
  lemma GuardMeaning(total: int, change: int)
    requires 0 <= total < 0x8000_0000_0000_0000 && 0 <= change < 0x8000_0000_0000_0000
    ensures GuardPasses(total, change) <==> 100000000000 <= total - change || total < change
  {
  }

  // The wrapped guard is still enough: an amount above the stake fails on the row itself.
  lemma GuardSuffices(total: int, change: int)
    requires 0 <= change <= total && GuardPasses(total, change)
    ensures MIN_SELF_STAKE <= total - change
  {
    var q := total / TWO_TO_64 - change / TWO_TO_64;
    assert total - change == q * TWO_TO_64 + (total % TWO_TO_64 - change % TWO_TO_64);
  }

  lemma SelfStakeMoves(s: State, s': State, k: Key, net: int, cpu: int, p: Name)
    requires Stakes(s.delegations) && Delegate(s.delegations, k, net, cpu) == Some(s'.delegations)
    ensures SelfStake(s', p) == SelfStake(s, p) + if k == (p, p) then net + cpu else 0
    ensures k == (p, p) ==> 0 <= SelfStake(s', p)
  {
    DelegateKeepsStakes(s.delegations, k, net, cpu);
    assert SelfStake(s, p) == RowOf(s.delegations, (p, p)).net + RowOf(s.delegations, (p, p)).cpu;
    assert SelfStake(s', p) == RowOf(s'.delegations, (p, p)).net + RowOf(s'.delegations, (p, p)).cpu;
  }

  // A producer's self-stake after changebw, if every decrease of it passed the guard.
  lemma ChangeBwProducers(s: State, source: Name, receiver: Name, net: int, cpu: int, transfer: bool)
    requires Inv(s) && ChangeBw(s, source, receiver, net, cpu, transfer).Some?
    requires net + cpu < 0 ==> !transfer && (Voting.Active(s.votes, source) ==> GuardPasses(SelfStake(s, source), -net - cpu))
    ensures ProducersStaked(ChangeBw(s, source, receiver, net, cpu, transfer).value)
  {
    hide ChangeBw, Delegate, Receive, Voting.UpdateVotingPower, Pay, Voting.Shape, Agree, RefundsOk, RamOk, DeltasOk,
         GuardPasses, SelfStake, VotingTallies.Sound;
    var s' := ChangeBw(s, source, receiver, net, cpu, transfer).value;
    var from := if transfer then receiver else source;
    ChangeBwTables(s, source, receiver, net, cpu, transfer);
    StakeMoves(s.votes, from, net + cpu);
    forall p: Name | Voting.Active(s'.votes, p)
      ensures MIN_SELF_STAKE <= SelfStake(s', p)
    {
      assert Voting.Active(s.votes, p);
      SelfStakeMoves(s, s', (from, receiver), net, cpu, p);
      if net + cpu < 0 && (from, receiver) == (p, p) {
        GuardSuffices(SelfStake(s, p), -net - cpu);
      }
    }
  }

  lemma DelegateBwKeeps(s: State, from: Name, receiver: Name, net: int, cpu: int, transfer: bool)
    requires Inv(s)
    ensures var o := DelegateBw(s, from, receiver, net, cpu, transfer);
            o.Some? ==>
              && Inv(o.value) && s.votes.dropped <= o.value.votes.dropped
              && Backing(o.value) == Backing(s) - if from == EOSIO_STAKE then net + cpu else 0
  {
    hide ChangeBw, Voting.Shape, Backing, SelfStake, Agree, RefundsOk, RamOk, ProducersStaked, VotingTallies.Sound;
    if DelegateBw(s, from, receiver, net, cpu, transfer).Some? {
      ChangeBwKeeps(s, from, receiver, net, cpu, transfer);
      ChangeBwProducers(s, from, receiver, net, cpu, transfer);
      ChangeBwBacking(s, from, receiver, net, cpu, transfer);
    }
  }

  lemma UndelegateBwKeeps(s: State, from: Name, receiver: Name, net: int, cpu: int)
    requires Inv(s)
    ensures var o := UndelegateBw(s, from, receiver, net, cpu);
            o.Some? ==>
              && Inv(o.value) && s.votes.dropped <= o.value.votes.dropped
              && Backing(o.value) == Backing(s) + if from == EOSIO_STAKE then net + cpu else 0
  {
    hide ChangeBw, Voting.Shape, Backing, GuardPasses, SelfStake, Agree, RefundsOk, RamOk, ProducersStaked,
         VotingTallies.Sound;
    if UndelegateBw(s, from, receiver, net, cpu).Some? {
      ChangeBwKeeps(s, from, receiver, -net, -cpu, false);
      ChangeBwProducers(s, from, receiver, -net, -cpu, false);
      ChangeBwBacking(s, from, receiver, -net, -cpu, false);
    }
  }

  // ----- when staking succeeds

  // What a delegation has to pay: to oneself, a pending refund is used up first.
  function Due(s: State, from: Name, receiver: Name, net: int, cpu: int): int {
    if from == receiver && from in s.refunds
    then Positive(net - s.refunds[from].net) + Positive(cpu - s.refunds[from].cpu)
    else net + cpu
  }

  // The account b1 is left with what it may not yet have.
  predicate KeepsVested(s: State, from: Name, change: int) {
    Voting.Vested(from, Voting.StakeOf(s.votes, from) + change, s.votes.now)
  }

  // While every listed producer is registered, changebw fails only on the delegation row or the payment.
  lemma ChangeBwSucceeds(s: State, source: Name, receiver: Name, net: int, cpu: int, transfer: bool)
    requires Inv(s) && VotingAborts.Listed(s.votes) && DeltasOk(net, cpu)
    ensures var from := if transfer then receiver else source;
            ChangeBw(s, source, receiver, net, cpu, transfer).Some?
            <==> Delegate(s.delegations, (from, receiver), net, cpu).Some?
                 && Pay(s, source, from, receiver, net, cpu, transfer).Some? && KeepsVested(s, from, net + cpu)
  {
    hide Voting.Vested, Delegate, Receive, Pay, Voting.UpdateVotingPower, VotingTallies.Sound, Agree, RefundsOk, RamOk,
         ProducersStaked;
    var from := if transfer then receiver else source;
    TotalsNeverFail(s, from, receiver, net, cpu);
    VotingAborts.StakeChangeSucceeds(s.votes, from, net + cpu);
    var d, r := Delegate(s.delegations, (from, receiver), net, cpu), Receive(s.resources, receiver, net, cpu);
    if d.Some? {
      PayElsewhere(s, d.value, r.value, source, from, receiver, net, cpu, transfer);
    }
  }

  lemma PaySucceeds(s: State, source: Name, from: Name, receiver: Name, net: int, cpu: int, transfer: bool)
    requires Token.NonNegative(s.tokens) && DeltasOk(net, cpu) && (forall o | o in s.refunds :: RefundRow(s.refunds[o]))
    requires (!transfer ==> from == source) && (transfer ==> source != receiver && from == receiver)
    ensures Pay(s, source, from, receiver, net, cpu, transfer).Some?
            <==> source == EOSIO_STAKE || net + cpu < 0 || Due(s, source, receiver, net, cpu) <= Token.BalanceOf(s.tokens, source)
  {
    SameSigns(net, cpu);
    var touches := net + cpu < 0 || (!transfer && from == receiver);
    var due := if touches then Requeue(s.refunds, from, net, cpu, s.votes.now).1 else net + cpu;
    Token.TransferMoves(s.tokens, source, EOSIO_STAKE, due);
  }

  /** delegatebw succeeds exactly when the amounts are non-negative, not both zero, not a transfer
      to oneself, the delegator can pay what a pending refund does not cover, and b1 is left with
      what it must keep. */
  lemma DelegateBwSucceeds(s: State, from: Name, receiver: Name, net: int, cpu: int, transfer: bool)
    requires Inv(s) && VotingAborts.Listed(s.votes)
    ensures DelegateBw(s, from, receiver, net, cpu, transfer).Some?
            <==> && 0 <= net && 0 <= cpu && 0 < net + cpu && !(transfer && from == receiver)
                 && (from == EOSIO_STAKE || Due(s, from, receiver, net, cpu) <= Token.BalanceOf(s.tokens, from))
                 && KeepsVested(s, if transfer then receiver else from, net + cpu)
  {
    hide KeepsVested, ChangeBw, Pay, VotingTallies.Sound, Agree, RamOk, ProducersStaked;
    if 0 <= net && 0 <= cpu && 0 < net + cpu && !(transfer && from == receiver) {
      ChangeBwSucceeds(s, from, receiver, net, cpu, transfer);
      PaySucceeds(s, from, if transfer then receiver else from, receiver, net, cpu, transfer);
      MoreStakeFits(s, (if transfer then receiver else from, receiver), net, cpu);
    }
  }

  lemma MoreStakeFits(s: State, k: Key, net: int, cpu: int)
    requires Stakes(s.delegations) && 0 <= net && 0 <= cpu
    ensures Delegate(s.delegations, k, net, cpu).Some?
  {
  }

  /** undelegatebw succeeds exactly when the amounts are non-negative and covered by that
      delegation, the chain is activated, an active producer passes the guard, and b1 keeps what is
      not yet claimable. */
  lemma UndelegateBwSucceeds(s: State, from: Name, receiver: Name, net: int, cpu: int)
    requires Inv(s) && VotingAborts.Listed(s.votes)
    ensures UndelegateBw(s, from, receiver, net, cpu).Some?
            <==> && 0 <= net <= RowOf(s.delegations, (from, receiver)).net && 0 <= cpu <= RowOf(s.delegations, (from, receiver)).cpu
                 && 0 < net + cpu && s.votes.activationTime != 0
                 && (Voting.Active(s.votes, from) ==> GuardPasses(SelfStake(s, from), net + cpu))
                 && KeepsVested(s, from, -net - cpu)
  {
    hide KeepsVested, ChangeBw, Pay, VotingTallies.Sound, Agree, RamOk, GuardPasses;
    if 0 <= net && 0 <= cpu && 0 < net + cpu {
      ChangeBwSucceeds(s, from, receiver, -net, -cpu, false);
      PaySucceeds(s, from, from, receiver, -net, -cpu, false);
    }
  }
}
