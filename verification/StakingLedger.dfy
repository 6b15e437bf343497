/** Staking runs are runs of the vote ledger, so all that holds of those holds here; and what opens
    undelegation is stake that the staking account really holds. */
module StakingLedger {
  import opened Common
  import opened Sums
  import opened Staking
  import opened StakingSums
  import opened StakingMachine
  import opened StakingRuns
  import Voting
  import VotingMachine
  import VotingTallies
  import VotingRates
  import VotingTurnout
  import VotingWeeks
  import Token

  // A vote for oneself as a proxy is always refused.
  const IDLE := VotingMachine.Vote(EOSIO, Some(EOSIO), [])

  /** What an accepted action does to the vote ledger. */
  function LedgerAction(a: Action): VotingMachine.Action {
    match a
    case Stake(from, receiver, net, cpu, transfer) => VotingMachine.ChangeStake(if transfer then receiver else from, net + cpu)
    case Unstake(from, _, net, cpu) => VotingMachine.ChangeStake(from, -net - cpu)
    case RegisterProducer(p) => VotingMachine.Register(p)
    case UnregisterProducer(p) => VotingMachine.Unregister(p)
    case CastVote(v, proxy, producers) => VotingMachine.Vote(v, proxy, producers)
    case SetProxy(v, isProxy) => VotingMachine.SetProxy(v, isProxy)
    case _ => IDLE
  }

  // A refused action leaves nothing but the time.
  ghost function LedgerEvent(s: State, e: Event): VotingMachine.Event
    requires Voting.Shape(Tick(s, e).votes)
  {
    VotingMachine.Event(e.time, e.rate, if Act(Tick(s, e), e.action).Some? then LedgerAction(e.action) else IDLE)
  }

  lemma IdleIsRefused(s: Voting.State)
    requires Voting.Shape(s)
    ensures VotingMachine.Act(s, IDLE).None?
  {
  }

  lemma ActProjects(s: State, a: Action)
    requires Inv(s) && Voting.Shape(s.votes) && Act(s, a).Some?
    ensures match VotingMachine.Act(s.votes, LedgerAction(a))
            case Some(v) => Act(s, a).value.votes == v
            case None => Act(s, a).value.votes == s.votes
  {
    hide Inv, ChangeBw, Voting.UpdateVotes, Voting.RegProxy, Voting.UpdateVotingPower, Voting.RegisterProducer,
         BuyRam, BuyRamBytes, SellRam, NewResources, Token.Transfer, Voting.Shape, GuardPasses, SelfStake;
    match a
    case Stake(from, receiver, net, cpu, transfer) => ChangeBwTables(s, from, receiver, net, cpu, transfer);
    case Unstake(from, receiver, net, cpu) => ChangeBwTables(s, from, receiver, -net, -cpu, false);
    case ClaimRefund(owner) => IdleIsRefused(s.votes); RefundKeeps(s, owner);
    case RegisterProducer(p) =>
    case UnregisterProducer(p) =>
    case CastVote(v, proxy, producers) =>
    case SetProxy(v, isProxy) =>
    case BuyRamFor(payer, receiver, quant) => IdleIsRefused(s.votes); RamActionsKeepVotes(s, payer, receiver, quant, 0);
    case BuyBytesFor(payer, receiver, bytes) => IdleIsRefused(s.votes); RamActionsKeepVotes(s, payer, receiver, 0, bytes);
    case SellRamOf(account, bytes) => IdleIsRefused(s.votes); RamActionsKeepVotes(s, account, account, 0, bytes);
    case NewAccount(account) => IdleIsRefused(s.votes); RamActionsKeepVotes(s, account, account, 0, 0);
    case SendTokens(_, _, _) => IdleIsRefused(s.votes);
    case SendRamTokens(_, _, _) => IdleIsRefused(s.votes);
  }

  /** One step of staking is one step of the vote ledger. */
  lemma NextProjects(s: State, e: Event)
    requires Inv(s) && Orderly(s, e)
    ensures Voting.Shape(Tick(s, e).votes)
    ensures Next(s, e).votes == VotingMachine.Next(s.votes, LedgerEvent(s, e))
  {
    hide Inv, Act, VotingMachine.Act, Voting.Shape;
    NextKeeps(s, e);
    var t := Tick(s, e);
    IdleIsRefused(t.votes);
    if Act(t, e.action).Some? { ActProjects(t, e.action); }
  }

  // ----- runs

  ghost function LedgerRun(s: State, es: seq<Event>): seq<VotingMachine.Event>
    decreases |es|
  {
    if es == [] || !Voting.Shape(Tick(s, es[0]).votes) then []
    else [LedgerEvent(s, es[0])] + LedgerRun(Next(s, es[0]), es[1..])
  }

  /** A staking run from any state of the invariant is a run of the vote ledger at the same times and
      rates, in which nothing is unstaked before the chain is activated. */
  lemma {:induction false} RunProjects(s: State, es: seq<Event>, s': State)
    requires Inv(s) && IsRun(s, es, s')
    ensures VotingMachine.IsRun(s.votes, LedgerRun(s, es), s'.votes)
    ensures |LedgerRun(s, es)| == |es|
    ensures forall i | 0 <= i < |es| :: LedgerRun(s, es)[i].rate == es[i].rate && LedgerRun(s, es)[i].time == es[i].time
    ensures VotingTurnout.NothingUnstaked(s.votes, LedgerRun(s, es))
    decreases |es|
  {
    hide Inv, Act, Next, VotingMachine.Act, VotingMachine.Next, Voting.Shape, VotingTurnout.StakesMore;
    if es != [] {
      NextKeeps(s, es[0]);
      NextProjects(s, es[0]);
      if s.votes.activationTime == 0 { EventStakesMore(s, es[0]); }
      RunProjects(Next(s, es[0]), es[1..], s');
    }
  }

  lemma EventStakesMore(s: State, e: Event)
    requires Inv(s) && Orderly(s, e) && Voting.Shape(Tick(s, e).votes) && s.votes.activationTime == 0
    ensures VotingTurnout.StakesMore(LedgerEvent(s, e).action)
  {
    hide Inv, ChangeBw, Voting.Shape;
  }

  // ----- what the staking account holds of it

  function OwnersPart(owners: set<Name>): Part {
    (k: Key, d: Bandwidth) => if k.0 in owners then d.net + d.cpu else 0
  }

  lemma OneOwner(d: map<Key, Bandwidth>, owners: set<Name>, k: Name)
    requires k in owners
    ensures Total(d, OwnersPart(owners)) == Total(d, OwnersPart(owners - {k})) + Total(d, FromPart(k))
  {
    IntPlus(Parts(d, OwnersPart(owners - {k})), Parts(d, FromPart(k)), Parts(d, OwnersPart(owners)));
  }

  /** The delegations of several accounts add up to those of all of them. */
  lemma {:induction false} OwnersAddUp(d: map<Key, Bandwidth>, m: map<Name, int>)
    requires forall a | a in m :: m[a] == Total(d, FromPart(a))
    ensures SumInt(m) == Total(d, OwnersPart(m.Keys))
    decreases |m|
  {
    if m == map[] {
      IntZero(Parts(d, OwnersPart({})));
      assert m.Keys == {};
    } else {
      hide Total, SumInt;
      var k := SomeKey(m);
      IntRemove(m, k);
      OwnersAddUp(d, m - {k});
      assert (m - {k}).Keys == m.Keys - {k};
      OneOwner(d, m.Keys, k);
    }
  }

  lemma TurnoutIsDelegated(s: State)
    requires Inv(s)
    ensures VotingTurnout.Turnout(s.votes) <= Total(s.delegations, AllPart())
  {
    hide VotingTallies.Inv, RefundsOk, ProducersStaked, RamOk;
    var m := map a | a in s.votes.voters :: Total(s.delegations, FromPart(a));
    forall a | a in m
      ensures VotingTurnout.Counted(s.votes.voters)[a] <= m[a]
    {
      assert Voting.StakeOf(s.votes, a) == m[a];
      IntNonNegative(Parts(s.delegations, FromPart(a)));
    }
    IntMonotone(VotingTurnout.Counted(s.votes.voters), m);
    OwnersAddUp(s.delegations, m);
    IntMonotone(Parts(s.delegations, OwnersPart(m.Keys)), Parts(s.delegations, AllPart()));
  }

  lemma StakeIsHeld(s: State)
    requires Inv(s) && 0 <= Backing(s)
    ensures Total(s.delegations, AllPart()) <= Token.BalanceOf(s.tokens, EOSIO_STAKE)
  {
    hide VotingTallies.Inv, Agree, ProducersStaked, RamOk, Stakes, Total;
    IntNonNegative(RefundAmounts(s.refunds));
  }

  /** After any run on spread rates, undelegation is opened only by a step after which accounts whose
      votes have weight hold at least 150,000,000.0000 tokens of stake, no unit counted twice, and the
      staking account holds as much. */
  lemma ActivationIsBacked(now: int, rate: real, tokens: Token.Balances, ramTokens: Token.Balances, es: seq<Event>,
                           s: State, e: Event, ws: set<real>)
    requires 0 < now && 0.0 < rate && Token.NonNegative(tokens) && Token.NonNegative(ramTokens)
    requires IsRun(Genesis(now, rate, tokens, ramTokens), es, s) && Orderly(s, e)
    requires VotingRates.Spread(ws) && e.rate in ws && forall i | 0 <= i < |es| :: es[i].rate in ws
    ensures Voting.Shape(Tick(s, e).votes)
    ensures s.votes.activationTime == 0 && Next(s, e).votes.activationTime != 0 ==>
              && 1500000000000 <= VotingTurnout.Turnout(Next(s, e).votes)
              && VotingTurnout.Turnout(Next(s, e).votes) <= Token.BalanceOf(Next(s, e).tokens, EOSIO_STAKE)
  {
    hide Inv, IsRun, Next, Act, Backing, RamBacking, Voting.Shape, VotingMachine.IsRun, VotingMachine.Next, VotingMachine.Act,
         VotingRates.Spread, VotingTurnout.NothingUnstaked, VotingTurnout.Turnout, VotingTurnout.StakesMore, LedgerRun, LedgerEvent;
    var s0 := Genesis(now, rate, tokens, ramTokens);
    GenesisInv(now, rate, tokens, ramTokens);
    RunKeeps(s0, es, s);
    RunProjects(s0, es, s);
    NextKeeps(s, e);
    NextProjects(s, e);
    TurnoutIsDelegated(Next(s, e));
    StakeIsHeld(Next(s, e));
    if s.votes.activationTime == 0 {
      EventStakesMore(s, e);
      EventIs(s, e);
      VotingTurnout.ActivatedByTurnout(now, rate, LedgerRun(s0, es), s.votes, LedgerEvent(s, e), ws);
    }
  }

  lemma EventIs(s: State, e: Event)
    requires Orderly(s, e) && Voting.Shape(Tick(s, e).votes)
    ensures LedgerEvent(s, e).time == e.time && LedgerEvent(s, e).rate == e.rate
    ensures VotingMachine.Orderly(s.votes, LedgerEvent(s, e)) && VotingMachine.Tick(s.votes, LedgerEvent(s, e)) == Tick(s, e).votes
  {
    hide Act, Voting.Shape;
  }

  // ----- with the rates of stake2vote

  ghost predicate OnChain(es: seq<Event>, c: real) {
    && 0.0 < c && VotingWeeks.Pow(c, 52) == 2.0
    && forall i | 0 <= i < |es| :: 364 <= VotingWeeks.Week(es[i].time) && es[i].rate == VotingWeeks.Pow(c, VotingWeeks.Week(es[i].time))
  }

  function Rates(es: seq<Event>): set<real> {
    set i | 0 <= i < |es| :: es[i].rate
  }

  lemma OnChainSpreads(es: seq<Event>, c: real)
    requires OnChain(es, c)
    ensures VotingRates.Spread(Rates(es))
  {
    hide VotingWeeks.Pow, VotingWeeks.Week;
    var ls := seq(|es|, i requires 0 <= i < |es| => VotingMachine.Event(es[i].time, es[i].rate, IDLE));
    VotingWeeks.ChainRatesSpread(ls, c);
    assert Rates(es) == set i | 0 <= i < |ls| :: ls[i].rate by { RatesOf(es, ls); }
  }

  lemma RatesOf(es: seq<Event>, ls: seq<VotingMachine.Event>)
    requires |ls| == |es| && forall i | 0 <= i < |es| :: ls[i].rate == es[i].rate
    ensures Rates(es) == set i | 0 <= i < |ls| :: ls[i].rate
  {
    forall x | x in Rates(es)
      ensures x in set i | 0 <= i < |ls| :: ls[i].rate
    {
      var i :| 0 <= i < |es| && es[i].rate == x;
      assert ls[i].rate == x;
    }
    forall x | x in set i | 0 <= i < |ls| :: ls[i].rate
      ensures x in Rates(es)
    {
      var i :| 0 <= i < |ls| && ls[i].rate == x;
      assert es[i].rate == x;
    }
  }

  /** So on a chain whose blocks all come after 2006, with the rates of stake2vote, whatever the run. */
  lemma ChainActivationIsBacked(now: int, rate: real, tokens: Token.Balances, ramTokens: Token.Balances, es: seq<Event>,
                                s: State, e: Event, c: real)
    requires 0 < now && 0.0 < rate && Token.NonNegative(tokens) && Token.NonNegative(ramTokens)
    requires IsRun(Genesis(now, rate, tokens, ramTokens), es, s) && Orderly(s, e) && OnChain(es + [e], c)
    ensures Voting.Shape(Tick(s, e).votes)
    ensures s.votes.activationTime == 0 && Next(s, e).votes.activationTime != 0 ==>
              && 1500000000000 <= VotingTurnout.Turnout(Next(s, e).votes)
              && VotingTurnout.Turnout(Next(s, e).votes) <= Token.BalanceOf(Next(s, e).tokens, EOSIO_STAKE)
  {
    hide IsRun, Next, Act, Voting.Shape, VotingRates.Spread, VotingTurnout.Turnout, OnChain, Rates;
    OnChainSpreads(es + [e], c);
    RatesContain(es, e);
    ActivationIsBacked(now, rate, tokens, ramTokens, es, s, e, Rates(es + [e]));
  }

  lemma RatesContain(es: seq<Event>, e: Event)
    ensures e.rate in Rates(es + [e]) && forall i | 0 <= i < |es| :: es[i].rate in Rates(es + [e])
  {
    assert (es + [e])[|es|] == e;
    forall i | 0 <= i < |es|
      ensures es[i].rate in Rates(es + [e])
    {
      assert (es + [e])[i] == es[i];
    }
  }
}
