/** Staking and RAM of delegate_bandwidth.cpp as a value: delegations, receivers' totals, pending
    refunds, token balances and, through update_voting_power, the vote ledger. */
module Staking {
  import opened Common
  import Token
  import Voting

  const REFUND_DELAY: int := 3 * 24 * 3600                // seconds
  const MIN_SELF_STAKE: int := 100000000000               // 10,000,000.0000 tokens
  const TWO_TO_32: int := 0x1_0000_0000
  const TWO_TO_64: int := 0x1_0000_0000_0000_0000

  type Key = (Name, Name)   // (from, to)

  datatype Bandwidth = Bandwidth(net: int, cpu: int)
  datatype Resources = Resources(net: int, cpu: int, ram: int)
  datatype RefundRequest = RefundRequest(time: int, net: int, cpu: int)   // time in seconds

  /** The last field is the model's record of when each account last undelegated, in
      microseconds; the contract keeps only whole seconds. */
  datatype State = State(
    votes: Voting.State,
    delegations: map<Key, Bandwidth>,
    resources: map<Name, Resources>,
    refunds: map<Name, RefundRequest>,
    tokens: Token.Balances,
    ramTokens: Token.Balances,
    ramReserved: int,
    ramStake: int,
    undelegated: map<Name, int>)

  function Positive(x: int): int { if 0 < x then x else 0 }
  function AbsInt(x: int): int { if x < 0 then -x else x }
  function Max(x: int, y: int): int { if x < y then y else x }

  // ----- changebw, table by table

  // The delegation row; None is an abort on a negative stake.  An empty row is erased.
  function Delegate(m: map<Key, Bandwidth>, k: Key, net: int, cpu: int): Option<map<Key, Bandwidth>> {
    var d := if k in m then m[k] else Bandwidth(0, 0);
    var d' := Bandwidth(d.net + net, d.cpu + cpu);
    if d'.net < 0 || d'.cpu < 0 then None
    else if d' == Bandwidth(0, 0) then Some(m - {k})
    else Some(m[k := d'])
  }

  // The receiver's totals, likewise.
  function Receive(m: map<Name, Resources>, k: Name, net: int, cpu: int): Option<map<Name, Resources>> {
    var d := if k in m then m[k] else Resources(0, 0, 0);
    var d' := Resources(d.net + net, d.cpu + cpu, d.ram);
    if d'.net < 0 || d'.cpu < 0 then None
    else if d' == Resources(0, 0, 0) then Some(m - {k})
    else Some(m[k := d'])
  }

  // The refund row after asking for net and cpu more (or, if positive, taking them back first
  // from what is pending), and what is left to pay.
  function Requeue(m: map<Name, RefundRequest>, owner: Name, net: int, cpu: int, now: int): (map<Name, RefundRequest>,
                   int) {
    if owner in m then
      var r := m[owner];
      var r' := RefundRequest(if net < 0 || cpu < 0 then now / 1000000 else r.time, Positive(r.net - net), Positive(r.cpu - cpu));
      (if r'.net == 0 && r'.cpu == 0 then m - {owner} else m[owner := r'],
       Positive(net - r.net) + Positive(cpu - r.cpu))
    else if net < 0 || cpu < 0 then
      (m[owner := RefundRequest(now / 1000000, Positive(-net), Positive(-cpu))], Positive(net) + Positive(cpu))
    else
      (m, net + cpu)
  }

  // The deltas must not both be zero nor have opposite signs.
  predicate DeltasOk(net: int, cpu: int) {
    && (net != 0 || cpu != 0)
    && Max(AbsInt(net), AbsInt(cpu)) <= AbsInt(net + cpu)
  }

  // Refunds and the payment: skipped when the staking account itself is the source.
  function Pay(s: State, source: Name, from: Name, receiver: Name, net: int, cpu: int, transfer: bool): Option<State> {
    if source == EOSIO_STAKE then Some(s) else
    var touches := net + cpu < 0 || (!transfer && from == receiver);
    var (refunds', due) := if touches then Requeue(s.refunds, from, net, cpu, s.votes.now) else (s.refunds, net + cpu);
    var undelegated' := if net + cpu < 0 then s.undelegated[from := s.votes.now] else s.undelegated;
    if due <= 0 then Some(s.(refunds := refunds', undelegated := undelegated')) else
    match Token.Transfer(s.tokens, source, EOSIO_STAKE, due)
    case Some(tokens') => Some(s.(refunds := refunds', undelegated := undelegated', tokens := tokens'))
    case None => None
  }

  /** changebw. */
  ghost function ChangeBw(s: State, source: Name, receiver: Name, net: int, cpu: int, transfer: bool): Option<State>
    requires Voting.Shape(s.votes)
  {
    var from := if transfer then receiver else source;
    var delegations' := Delegate(s.delegations, (from, receiver), net, cpu);
    var resources' := Receive(s.resources, receiver, net, cpu);
    if !DeltasOk(net, cpu) || delegations'.None? || resources'.None? then None else
    match Pay(s.(delegations := delegations'.value, resources := resources'.value), source, from, receiver, net, cpu, transfer)
    case None => None
    case Some(s1) =>
      match Voting.UpdateVotingPower(s1.votes, from, net + cpu)
      case Some(votes') => Some(s1.(votes := votes'))
      case None => None
  }

  // ----- the staking actions

  /** delegatebw. */
  ghost function DelegateBw(s: State, from: Name, receiver: Name, net: int, cpu: int, transfer: bool): Option<State>
    requires Voting.Shape(s.votes)
  {
    if net < 0 || cpu < 0 || net + cpu <= 0 || (transfer && from == receiver) then None
    else ChangeBw(s, from, receiver, net, cpu, transfer)
  }

  function SelfStake(s: State, p: Name): int {
    if (p, p) in s.delegations then s.delegations[(p, p)].net + s.delegations[(p, p)].cpu else 0
  }

  // The guard on a producer's stake, in unsigned 64-bit arithmetic.
  predicate GuardPasses(total: int, change: int) {
    MIN_SELF_STAKE <= (total % TWO_TO_64 - change % TWO_TO_64) % TWO_TO_64
  }

  /** undelegatebw. */
  ghost function UndelegateBw(s: State, from: Name, receiver: Name, net: int, cpu: int): Option<State>
    requires Voting.Shape(s.votes)
  {
    if Voting.Active(s.votes, from) && !((from, from) in s.delegations && GuardPasses(SelfStake(s, from), net + cpu)) then None
    else if net < 0 || cpu < 0 || net + cpu <= 0 || s.votes.activationTime == 0 then None
    else ChangeBw(s, from, receiver, -net, -cpu, false)
  }

  /** refund. */
  function Refund(s: State, owner: Name): Option<State> {
    if owner !in s.refunds then None else
    var r := s.refunds[owner];
    if s.votes.now < (r.time + REFUND_DELAY) * 1000000 then None else
    match Token.Transfer(s.tokens, EOSIO_STAKE, owner, r.net + r.cpu)
    case Some(tokens') => Some(s.(tokens := tokens', refunds := s.refunds - {owner}))
    case None => None
  }

  /** regproducer, with the self-stake check it makes first. */
  ghost function RegProducer(s: State, p: Name): Option<State> {
    if (p, p) !in s.delegations || SelfStake(s, p) < MIN_SELF_STAKE then None
    else Some(s.(votes := Voting.RegisterProducer(s.votes, p)))
  }

  // ----- RAM

  function AddRam(m: map<Name, Resources>, k: Name, bytes: int): map<Name, Resources> {
    if k in m then m[k := m[k].(ram := m[k].ram + bytes)] else m[k := Resources(0, 0, bytes)]
  }

  /** buyram: 10000 units of the RAM token buy 1024 bytes. */
  function BuyRam(s: State, payer: Name, receiver: Name, quant: int): Option<State> {
    if quant % 10000 != 0 || quant <= 0 then None else
    match Token.Transfer(s.ramTokens, payer, EOSIO_RAM, quant)
    case None => None
    case Some(ramTokens') =>
      var bytes := quant / 10000 * 1024;
      Some(s.(ramTokens := ramTokens', ramReserved := s.ramReserved + bytes, ramStake := s.ramStake + quant,
              resources := AddRam(s.resources, receiver, bytes)))
  }

  /** buyrambytes: the price is a 32-bit product. */
  function BuyRamBytes(s: State, payer: Name, receiver: Name, bytes: int): Option<State>
    requires 0 <= bytes < TWO_TO_32
  {
    if bytes == 0 || bytes % 1024 != 0 then None
    else BuyRam(s, payer, receiver, bytes / 1024 * 10000 % TWO_TO_32)
  }

  /** sellram. */
  function SellRam(s: State, account: Name, bytes: int): Option<State> {
    if bytes <= 0 || bytes % 1024 != 0 || account !in s.resources || s.resources[account].ram < bytes then None else
    var quant := bytes / 1024 * 10000;
    if quant <= 1 || s.ramStake - quant < 0 then None else
    match Token.Transfer(s.ramTokens, EOSIO_RAM, account, quant)
    case None => None
    case Some(ramTokens') =>
      Some(s.(ramTokens := ramTokens', ramReserved := s.ramReserved - bytes, ramStake := s.ramStake - quant,
              resources := AddRam(s.resources, account, -bytes)))
  }

  /** newaccount's resource row. */
  function NewResources(s: State, a: Name): Option<State> {
    if a in s.resources then None else Some(s.(resources := s.resources[a := Resources(0, 0, 0)]))
  }

  // ----- the machine

  datatype Action =
    | Stake(from: Name, receiver: Name, net: int, cpu: int, transfer: bool)
    | Unstake(from: Name, receiver: Name, net: int, cpu: int)
    | ClaimRefund(owner: Name)
    | RegisterProducer(producer: Name)
    | UnregisterProducer(producer: Name)
    | CastVote(voter: Name, proxy: Option<Name>, producers: seq<Name>)
    | SetProxy(voter: Name, isProxy: bool)
    | BuyRamFor(payer: Name, receiver: Name, quant: int)
    | BuyBytesFor(payer: Name, receiver: Name, bytes: int)
    | SellRamOf(account: Name, bytes: int)
    | NewAccount(account: Name)
    | SendTokens(from: Name, to: Name, quantity: int)
    | SendRamTokens(from: Name, to: Name, quantity: int)

  datatype Event = Event(time: int, rate: real, action: Action)

  function Tick(s: State, e: Event): State {
    s.(votes := s.votes.(now := e.time, stakeRate := e.rate))
  }

  function WithVotes(s: State, o: Option<Voting.State>): Option<State> {
    match o
    case Some(v) => Some(s.(votes := v))
    case None => None
  }

  ghost function Act(s: State, a: Action): Option<State>
    requires Voting.Shape(s.votes)
  {
    match a
    case Stake(from, receiver, net, cpu, transfer) => DelegateBw(s, from, receiver, net, cpu, transfer)
    case Unstake(from, receiver, net, cpu) => UndelegateBw(s, from, receiver, net, cpu)
    case ClaimRefund(owner) => Refund(s, owner)
    case RegisterProducer(p) => RegProducer(s, p)
    case UnregisterProducer(p) => WithVotes(s, Voting.Deactivate(s.votes, p))
    case CastVote(v, proxy, producers) => WithVotes(s, Voting.UpdateVotes(s.votes, v, proxy, producers, true))
    case SetProxy(v, isProxy) => WithVotes(s, Voting.RegProxy(s.votes, v, isProxy))
    case BuyRamFor(payer, receiver, quant) => BuyRam(s, payer, receiver, quant)
    case BuyBytesFor(payer, receiver, bytes) => if 0 <= bytes < TWO_TO_32 then BuyRamBytes(s, payer, receiver, bytes) else None
    case SellRamOf(account, bytes) => SellRam(s, account, bytes)
    case NewAccount(account) => NewResources(s, account)
    case SendTokens(from, to, q) =>
      if Token.Transfer(s.tokens, from, to, q).None? then None
      else Some(s.(tokens := Token.Transfer(s.tokens, from, to, q).value))
    case SendRamTokens(from, to, q) =>
      if Token.Transfer(s.ramTokens, from, to, q).None? then None
      else Some(s.(ramTokens := Token.Transfer(s.ramTokens, from, to, q).value))
  }

  ghost function Next(s: State, e: Event): State
    requires Voting.Shape(Tick(s, e).votes)
  {
    match Act(Tick(s, e), e.action)
    case Some(s') => s'
    case None => Tick(s, e)
  }
}
