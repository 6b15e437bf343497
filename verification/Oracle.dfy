/** The oracle protocol of resource.cpp: totals, numbered datasets, one inflation issue and one
    payout per dataset in each period, and the gate to the next period. */
module Oracle {
  import opened Common
  import Token

  const INFLATION_CAP: int := 1500000 * 10000       // 1,500,000.0000 tokens
  const COUNTER: int := 256                         // the votes are counted in eight bits
  const TWO_TO_64: int := 0x1_0000_0000_0000_0000

  type Hash = nat

  datatype Metric = Metric(account: Name, cpu: int)
  type Dataset = seq<Metric>

  /** What the chain supplies: SHA-256 of a text and of a list of hashes, and the spelling of a
      name. */
  datatype Env = Env(sha: string -> Hash, shaList: seq<Hash> -> Hash, spell: Name -> string)

  // ----- texts

  function Decimal(n: nat): string
    decreases n
  {
    if n < 10 then [('0' as int + n) as char] else Decimal(n / 10) + [('0' as int + n % 10) as char]
  }

  // The text of a dataset: names and amounts without any separator.
  function Text(env: Env, d: Dataset): string
    requires forall i | 0 <= i < |d| :: 0 <= d[i].cpu
  {
    if d == [] then "" else env.spell(d[0].account) + Decimal(d[0].cpu) + Text(env, d[1..])
  }

  function TotalsText(cpu: nat, net: nat): string {
    Decimal(cpu) + "-" + Decimal(net)
  }

  function Cpu(d: Dataset): int {
    if d == [] then 0 else d[0].cpu + Cpu(d[1..])
  }

  // ----- state

  /** One oracle's row.  The last field is the model's record of what was submitted under each
      hash; the contract keeps only the hashes. */
  datatype Row = Row(total: int, spent: int, hashes: seq<Hash>, commitment: Hash, data: seq<Dataset>)

  // A payout as the model records it: the hash it followed and the CPU paid for.
  datatype Payout = Payout(hash: Hash, cpu: int)

  /** Configuration, tables, the last history record's totals, token and pay balances.  The last
      four are the model's record of payouts, of what they credited to accounts in this period, of
      tokens issued and of period advances. */
  datatype State = State(
    active: bool,
    threshold: nat,
    batchSize: nat,
    periodStart: int,
    periodSeconds: nat,
    oracles: seq<Name>,
    rows: map<Name, Row>,
    datasets: map<Hash, Dataset>,
    inflationDone: bool,
    distributed: seq<int>,
    totalCpu: int,
    utility: int,
    token: Token.State,
    producerPay: map<Name, int>,
    accountPay: map<Name, int>,
    paid: map<int, Payout>,
    credited: int,
    issued: int,
    advances: nat)

  // ----- counting hashes

  // Whether an oracle has submitted h as its item number id.
  predicate Submitted(r: Row, id: int, h: Hash) {
    0 <= id < |r.hashes| && r.hashes[id] == h
  }

  function Count(rows: map<Name, Row>, names: seq<Name>, id: int, h: Hash): nat {
    if names == [] then 0
    else (if names[0] in rows && Submitted(rows[names[0]], id, h) then 1 else 0) + Count(rows, names[1..], id, h)
  }

  // Each oracle's commitment, as if it were its only hash.
  function Commitments(rows: map<Name, Row>): map<Name, Row> {
    map n | n in rows :: rows[n].(hashes := [rows[n].commitment])
  }

  // The most frequent hash, the smallest among equals, and its eight-bit count.
  datatype Mode = Mode(hash: Option<Hash>, count: nat)

  function Better(m: Mode, h: Hash, n: nat): Mode {
    if m.count < n || (0 < n == m.count && m.hash.Some? && h < m.hash.value) then Mode(Some(h), n) else m
  }

  function ModeOf(rows: map<Name, Row>, names: seq<Name>, id: int, k: nat): Mode
    requires k <= |names|
  {
    if k == 0 then Mode(None, 0) else
    var m := ModeOf(rows, names, id, k - 1);
    if names[k - 1] in rows && 0 <= id < |rows[names[k - 1]].hashes| then
      var h := rows[names[k - 1]].hashes[id];
      Better(m, h, Count(rows, names, id, h) % COUNTER)
    else m
  }

  function CommitmentMode(rows: map<Name, Row>, names: seq<Name>): Mode {
    ModeOf(Commitments(rows), names, 0, |names|)
  }

  // ----- inflation

  /** What set_total computes and the schedule says: two token amounts, the elected producers and
      the size of the last schedule. */
  datatype Inflation = Inflation(ok: bool, bppay: nat, utility: nat, producers: seq<Name>, scheduleSize: nat)

  // The amounts cut to what may still be issued.
  function Cut(bppay: nat, utility: nat, remaining: nat): (int, int) {
    if remaining < bppay + utility then
      var b := bppay * remaining / (bppay + utility);
      (b, remaining - b)
    else (bppay, utility)
  }

  function AddPay(pay: map<Name, int>, names: seq<Name>, amount: int): map<Name, int>
    decreases |names|
  {
    if names == [] then pay
    else AddPay(pay[names[0] := (if names[0] in pay then pay[names[0]] else 0) + amount], names[1..], amount)
  }

  function Send(t: Token.State, to: Name, q: int): Option<Token.State> {
    if q <= 0 then Some(t) else Token.Act(t, Token.Pay(EOSIO, to, q))
  }

  /** issue_inflation.  None is an abort. */
  function Issue(s: State, i: Inflation): Option<State> {
    if !i.ok || INFLATION_CAP < i.bppay + i.utility || s.token.maxSupply <= s.token.supply then None else
    var (bppay, utility) := Cut(i.bppay, i.utility, s.token.maxSupply - s.token.supply);
    var t0 := if bppay + utility == 0 then Some(s.token) else Token.Act(s.token, Token.Issue(EOSIO, bppay + utility));
    if t0.None? then None else
    var t1 := Send(t0.value, EOSIO_BPAY, bppay);
    if t1.None? then None else
    var t2 := Send(t1.value, EOSIO_UPAY, utility);
    if t2.None? || |i.producers| == 0 || |i.producers| != i.scheduleSize then None else
    var earned := bppay / |i.producers|;
    Some(s.(token := t2.value, utility := utility, issued := s.issued + bppay + utility,
            producerPay := if 0 < earned then AddPay(s.producerPay, i.producers, earned) else s.producerPay))
  }

  // ----- the actions

  // Both totals are 64-bit words, and so is the product the second check compares.
  predicate Limits(cpu: int, net: int, maxCpu: int, maxNet: int) {
    0 <= cpu <= maxCpu && 0 <= net < TWO_TO_64 && net * 8 % TWO_TO_64 <= maxNet
  }

  // The row and dataset of settotalusg.
  function WithTotals(env: Env, s: State, source: Name, cpu: nat, net: nat, commitment: Hash, names: (Name,
                      Name)): State {
    var h := env.sha(TotalsText(cpu, net));
    var d := [Metric(names.0, cpu), Metric(names.1, net)];
    s.(datasets := if h in s.datasets then s.datasets else s.datasets[h := d],
       rows := s.rows[source := Row(cpu, 0, [h], commitment, [d])],
       oracles := s.oracles + [source])
  }

  // Inflation is issued when the modal totals have enough votes.
  function IssueIfAgreed(s: State, i: Inflation): Option<State> {
    if s.inflationDone || |s.oracles| < s.threshold then Some(s) else
    var m := ModeOf(s.rows, s.oracles, 0, |s.oracles|);
    if m.count < s.threshold || m.hash.None? || m.hash.value !in s.datasets then Some(s)
    else if s.datasets[m.hash.value] == [] then None else
    match Issue(s.(totalCpu := s.datasets[m.hash.value][0].cpu), i)
    case Some(s') => Some(s'.(inflationDone := true))
    case None => None
  }

  /** settotalusg. */
  function SetTotals(env: Env, s: State, source: Name, isOracle: bool, cpu: int, net: int, maxCpu: int, maxNet: int,
                     commitment: Hash, periodStart: int, i: Inflation, names: (Name, Name)): Option<State> {
    if !isOracle || !s.active || s.periodStart != periodStart || !Limits(cpu, net, maxCpu, maxNet) || source in s.rows then None
    else IssueIfAgreed(WithTotals(env, s, source, cpu, net, commitment, names), i)
  }

  // Every amount is positive and together they fit in what the oracle declared.
  predicate Allocatable(r: Row, d: Dataset) {
    && (forall i | 0 <= i < |d| :: 0 < d[i].cpu)
    && r.spent + Cpu(d) <= r.total
  }

  // The row and dataset of addactusg.
  function WithUsage(env: Env, s: State, source: Name, d: Dataset): State
    requires source in s.rows && Allocatable(s.rows[source], d)
  {
    var h := env.sha(Text(env, d));
    var r := s.rows[source];
    s.(datasets := if h in s.datasets then s.datasets else s.datasets[h := d],
       rows := s.rows[source := r.(spent := r.spent + Cpu(d), hashes := r.hashes + [h], data := r.data + [d])])
  }

  // One account's share, rounded down.
  function Share(cpu: int, totalCpu: int, utility: int): int
    requires totalCpu != 0
  {
    cpu * utility / totalCpu
  }

  function PayAccounts(pay: map<Name, int>, d: Dataset, totalCpu: int, utility: int): map<Name, int>
    requires totalCpu != 0
    decreases |d|
  {
    if d == [] then pay
    else
      var a := d[0].account;
      PayAccounts(pay[a := (if a in pay then pay[a] else 0) + Share(d[0].cpu, totalCpu, utility)], d[1..], totalCpu, utility)
  }

  // What a payout hands out in all.
  function Shares(d: Dataset, totalCpu: int, utility: int): int
    requires totalCpu != 0
  {
    if d == [] then 0 else Share(d[0].cpu, totalCpu, utility) + Shares(d[1..], totalCpu, utility)
  }

  /** The payout of dataset id to the accounts of the modal dataset; dividing by a total of zero
      aborts. */
  function Distribute(s: State, id: int, m: Mode): Option<State> {
    var d := if m.hash.Some? && m.hash.value in s.datasets then s.datasets[m.hash.value] else [];
    if d != [] && s.totalCpu == 0 then None else
    Some(s.(accountPay := if d == [] then s.accountPay else PayAccounts(s.accountPay, d, s.totalCpu, s.utility),
            credited := s.credited + if d == [] then 0 else Shares(d, s.totalCpu, s.utility),
            distributed := s.distributed + [id],
            paid := s.paid[id := Payout(if m.hash.Some? then m.hash.value else 0, Cpu(d))]))
  }

  // A dataset number is paid when its modal dataset has enough votes.
  function PayIfAgreed(s: State, id: int): Option<State> {
    if |s.oracles| < s.threshold || id in s.distributed then Some(s) else
    var m := ModeOf(s.rows, s.oracles, id, |s.oracles|);
    if m.count < s.threshold then Some(s) else Distribute(s, id, m)
  }

  /** addactusg. */
  function AddUsage(env: Env, s: State, source: Name, isOracle: bool, id: int, d: Dataset,
                    periodStart: int): Option<State> {
    if !isOracle || !s.active || s.batchSize < |d| || s.periodStart != periodStart || !s.inflationDone then None
    else if source !in s.rows || id != |s.rows[source].hashes| || !Allocatable(s.rows[source], d) then None
    else PayIfAgreed(WithUsage(env, s, source, d), id)
  }

  // Oracles whose submissions match their commitment and the modal one.
  predicate Full(env: Env, r: Row, m: Mode) {
    env.shaList(r.hashes) == r.commitment && m.hash == Some(r.commitment)
  }

  function CountFull(env: Env, rows: map<Name, Row>, names: seq<Name>, m: Mode): nat {
    if names == [] then 0
    else (if names[0] in rows && Full(env, rows[names[0]], m) then 1 else 0) + CountFull(env, rows, names[1..], m)
  }

  // How many oracles revealed the commitment that most share, if enough share it.
  function FullReveals(env: Env, s: State): nat {
    var m := if |s.oracles| < s.threshold then Mode(None, 0) else CommitmentMode(s.rows, s.oracles);
    if m.count < s.threshold then 0 else CountFull(env, s.rows, s.oracles, m)
  }

  /** nextperiod. */
  function NextPeriod(env: Env, s: State, now: int): Option<State> {
    if !s.active || now < s.periodStart + s.periodSeconds then None else
    if FullReveals(env, s) < s.threshold then None else
    Some(s.(datasets := map[], rows := map[], oracles := [], periodStart := s.periodStart + s.periodSeconds,
            inflationDone := false, distributed := [], paid := map[], credited := 0, advances := s.advances + 1))
  }

  /** claimdistrib. */
  function ClaimDistribution(s: State, account: Name): Option<State> {
    if account !in s.accountPay || s.accountPay[account] == 0 then None else
    match Token.Act(s.token, Token.Pay(EOSIO_UPAY, account, s.accountPay[account]))
    case Some(t) => Some(s.(token := t, accountPay := s.accountPay - {account}))
    case None => None
  }

  /** claimrewards. */
  function ClaimRewards(s: State, owner: Name): Option<State> {
    if owner !in s.producerPay || s.producerPay[owner] <= 0 then None else
    match Token.Act(s.token, Token.Pay(EOSIO_BPAY, owner, s.producerPay[owner]))
    case Some(t) => Some(s.(token := t, producerPay := s.producerPay[owner := 0]))
    case None => None
  }

  datatype Action =
    | Totals(source: Name, isOracle: bool, cpu: int, net: int, maxCpu: int, maxNet: int,
             commitment: Hash, periodStart: int, inflation: Inflation, names: (Name, Name))
    | Usage(source: Name, isOracle: bool, id: int, dataset: Dataset, periodStart: int)
    | Advance(now: int)
    | ClaimShare(account: Name)
    | ClaimPay(owner: Name)
    | Activate(active: bool)
    | TokenAction(action: Token.Action)

  function Act(env: Env, s: State, a: Action): Option<State> {
    match a
    case Totals(source, isOracle, cpu, net, maxCpu, maxNet, commitment, start, i, names) =>
      SetTotals(env, s, source, isOracle, cpu, net, maxCpu, maxNet, commitment, start, i, names)
    case Usage(source, isOracle, id, d, start) => AddUsage(env, s, source, isOracle, id, d, start)
    case Advance(now) => NextPeriod(env, s, now)
    case ClaimShare(account) => ClaimDistribution(s, account)
    case ClaimPay(owner) => ClaimRewards(s, owner)
    case Activate(active) => if active == s.active then None else Some(s.(active := active))
    case TokenAction(ta) =>
      match Token.Act(s.token, ta) {
        case Some(t) => Some(s.(token := t))
        case None => None
      }
  }

  function Next(env: Env, s: State, a: Action): State {
    match Act(env, s, a)
    case Some(s') => s'
    case None => s
  }
}
