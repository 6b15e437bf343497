/** resource.cpp's actions as they are written: hashes counted in eight bits, tables and pay rows
    updated in loops.  After a failed check (ok is false) the chain discards the transaction. */
module OracleContract {
  import opened Common
  import opened Oracle
  import opened OracleCounting
  import Token
  import TokenContract
  import Sums
  import OracleMachine

  // ----- the modal hash

  function CountIn(counts: map<Hash, nat>, h: Hash): nat {
    if h in counts then counts[h] else 0
  }

  ghost predicate CountsOf(rows: Rows, names: seq<Name>, id: int, counts: map<Hash, nat>) {
    && (forall h :: CountIn(counts, h) == Count(rows, names, id, h) % COUNTER)
    && forall h | h in counts :: 0 < Count(rows, names, id, h)
  }

  // One oracle more: its hash is counted once more, in eight bits.
  lemma CountsStep(rows: Rows, names: seq<Name>, n: Name, id: int, counts: map<Hash, nat>, counts': map<Hash, nat>)
    requires CountsOf(rows, names, id, counts)
    requires if n in rows && 0 <= id < |rows[n].hashes| then
               var h := rows[n].hashes[id]; counts' == counts[h := (CountIn(counts, h) + 1) % COUNTER]
             else counts' == counts
    ensures CountsOf(rows, names + [n], id, counts')
  {
    hide Count;
    forall h: Hash
      ensures CountIn(counts', h) == Count(rows, names + [n], id, h) % COUNTER
      ensures h in counts' ==> 0 < Count(rows, names + [n], id, h)
    {
      CountAppend(rows, names, n, id, h);
    }
  }

  // Eight-bit counts of item id over the named oracles.
  method CountHashes(rows: Rows, names: seq<Name>, id: int) returns (counts: map<Hash, nat>)
    ensures CountsOf(rows, names, id, counts)
  {
    counts := map[];
    for i := 0 to |names|
      invariant CountsOf(rows, names[..i], id, counts)
    {
      hide CountsOf;
      ghost var before := counts;
      if names[i] in rows && 0 <= id < |rows[names[i]].hashes| {
        var h := rows[names[i]].hashes[id];
        counts := counts[h := (CountIn(counts, h) + 1) % COUNTER];
      }
      CountsStep(rows, names[..i], names[i], id, before, counts);
      assert names[..i + 1] == names[..i] + [names[i]];
    }
    assert names[..|names|] == names;
  }

  // What the scan over the ordered counts finds.
  ghost predicate IsMode(counts: map<Hash, nat>, m: Mode) {
    && (m.hash.None? ==> m.count == 0)
    && (m.hash.Some? ==> 0 < m.count == CountIn(counts, m.hash.value))
    && (forall h | h in counts :: counts[h] <= m.count)
    && (forall h | h in counts && 0 < counts[h] == m.count :: m.hash.value <= h)
  }

  lemma {:induction false} HasSmallest(m: map<Hash, nat>) returns (h: Hash)
    requires m != map[]
    ensures h in m && forall x | x in m :: h <= x
    decreases |m|
  {
    h := Sums.SomeKey(m);
    var rest := m - {h};
    if rest != map[] {
      assert rest.Keys == m.Keys - {h};
      var u := HasSmallest(rest);
      assert forall x | x in m :: x == h || x in rest;
      if u < h { h := u; }
    } else {
      forall x | x in m ensures x == h { assert x != h ==> x in rest; }
    }
  }

  // The scan in the order of the hashes: only a strictly larger count replaces the best so far.
  method FindMode(counts: map<Hash, nat>) returns (m: Mode)
    ensures IsMode(counts, m)
  {
    m := Mode(None, 0);
    var todo := counts;
    while todo != map[]
      invariant todo.Keys <= counts.Keys && forall h | h in todo :: todo[h] == counts[h]
      invariant forall h, x | h in counts && h !in todo && x in todo :: h < x
      invariant m.hash.None? ==> m.count == 0
      invariant m.hash.Some? ==> m.hash.value in counts && m.hash.value !in todo && 0 < m.count == counts[m.hash.value]
      invariant forall h | h in counts && h !in todo :: counts[h] <= m.count
      invariant forall h | h in counts && h !in todo && 0 < counts[h] == m.count :: m.hash.value <= h
      decreases |todo|
    {
      ghost var first := HasSmallest(todo);
      var h :| h in todo && forall x | x in todo :: h <= x;
      if m.count < todo[h] {
        m := Mode(Some(h), todo[h]);
      }
      assert (todo - {h}).Keys == todo.Keys - {h};
      todo := todo - {h};
    }
  }

  /** The scan finds the mode of the specification. */
  lemma ScanFindsMode(rows: Rows, names: seq<Name>, id: int, counts: map<Hash, nat>, m: Mode)
    requires CountsOf(rows, names, id, counts) && IsMode(counts, m)
    ensures m == ModeOf(rows, names, id, |names|)
  {
    var best := ModeOf(rows, names, id, |names|);
    ModeIsBest(rows, names, id, |names|);
    if m.hash.Some? {
      assert CountIn(counts, m.hash.value) == Count(rows, names, id, m.hash.value) % COUNTER;
      CountPositive(rows, names, id, m.hash.value);
    }
    if best.hash.Some? {
      assert CountIn(counts, best.hash.value) == Count(rows, names, id, best.hash.value) % COUNTER;
    }
  }

  method ModalHash(rows: Rows, names: seq<Name>, id: int) returns (m: Mode)
    ensures m == ModeOf(rows, names, id, |names|)
  {
    var counts := CountHashes(rows, names, id);
    m := FindMode(counts);
    ScanFindsMode(rows, names, id, counts, m);
  }

  // ----- sums over a dataset

  lemma {:induction false} CpuSplit(d: Dataset, i: nat)
    requires i <= |d|
    ensures Cpu(d) == Cpu(d[..i]) + Cpu(d[i..])
    decreases |d|
  {
    if i == 0 {
      assert d[..0] == [] && d[0..] == d;
    } else {
      assert d[..i][1..] == d[1..][..i - 1] && d[1..][i - 1..] == d[i..];
      CpuSplit(d[1..], i - 1);
    }
  }

  lemma AllPositive(d: Dataset)
    requires forall i | 0 <= i < |d| :: 0 < d[i].cpu
    ensures 0 <= Cpu(d)
  {
    CpuNonNegative(d);
  }

  // A prefix that does not fit leaves no room for the whole.
  lemma PrefixTooMuch(r: Row, d: Dataset, i: nat)
    requires i < |d| && (d[i].cpu <= 0 || r.total < r.spent + Cpu(d[..i]) + d[i].cpu)
    ensures !Allocatable(r, d)
  {
    if forall j | 0 <= j < |d| :: 0 < d[j].cpu {
      CpuSplit(d, i + 1);
      CpuSplit(d[..i + 1], i);
      assert d[..i + 1][..i] == d[..i] && d[..i + 1][i..] == [d[i]];
      assert Cpu([d[i]]) == d[i].cpu + Cpu([]);
      AllPositive(d[i + 1..]);
    }
  }

  lemma CpuOneMore(d: Dataset, i: nat)
    requires i < |d|
    ensures Cpu(d[..i + 1]) == Cpu(d[..i]) + d[i].cpu
  {
    CpuSplit(d[..i + 1], i);
    assert d[..i + 1][..i] == d[..i] && d[..i + 1][i..] == [d[i]];
    assert Cpu([d[i]]) == d[i].cpu + Cpu([]);
  }

  // The text of the first i entries.
  ghost predicate SpelledSoFar(env: Env, d: Dataset, i: nat, text: string)
    requires i <= |d|
  {
    (forall j | 0 <= j < |d| :: 0 <= d[j].cpu) ==> text + Text(env, d[i..]) == Text(env, d)
  }

  lemma NothingSpelled(env: Env, d: Dataset)
    ensures SpelledSoFar(env, d, 0, "")
  {
    assert d[0..] == d;
    if forall j | 0 <= j < |d| :: 0 <= d[j].cpu {
      assert "" + Text(env, d) == Text(env, d);
    }
  }

  lemma OneMoreSpelled(env: Env, d: Dataset, i: nat, text: string)
    requires i < |d| && 0 <= d[i].cpu && SpelledSoFar(env, d, i, text)
    ensures SpelledSoFar(env, d, i + 1, text + (env.spell(d[i].account) + Decimal(d[i].cpu)))
  {
    hide Decimal;
    if forall j | 0 <= j < |d| :: 0 <= d[j].cpu {
      assert d[i..][1..] == d[i + 1..];
      var word := env.spell(d[i].account) + Decimal(d[i].cpu);
      assert text + (word + Text(env, d[i + 1..])) == (text + word) + Text(env, d[i + 1..]);
    }
  }

  lemma AllSpelled(env: Env, d: Dataset, text: string)
    requires SpelledSoFar(env, d, |d|, text)
    ensures (forall j | 0 <= j < |d| :: 0 < d[j].cpu) ==> text == Text(env, d)
  {
    assert d[|d|..] == [];
    assert text + "" == text;
  }

  class Oracles {
    const env: Env
    const threshold: nat
    const batchSize: nat
    const periodSeconds: nat
    const token: TokenContract.Accounts
    var active: bool
    var periodStart: int
    var oracles: seq<Name>
    var rows: map<Name, Row>
    var datasets: map<Hash, Dataset>
    var inflationDone: bool
    var distributed: seq<int>
    var totalCpu: int
    var utility: int
    var producerPay: map<Name, int>
    var accountPay: map<Name, int>
    ghost var paid: map<int, Payout>
    ghost var credited: int
    ghost var issued: int
    ghost var advances: nat

    ghost function Model(): State
      reads this, token
    {
      State(active, threshold, batchSize, periodStart, periodSeconds, oracles, rows, datasets, inflationDone, distributed,
            totalCpu, utility, token.Model(), producerPay, accountPay, paid, credited, issued, advances)
    }

    constructor (env: Env, threshold: nat, batchSize: nat, start: int, seconds: nat, token: TokenContract.Accounts)
      ensures Model() == OracleMachine.Fresh(threshold, batchSize, start, seconds, token.Model())
      ensures this.env == env && this.token == token
    {
      this.env, this.threshold, this.batchSize, this.periodSeconds, this.token := env, threshold, batchSize, seconds, token;
      active, periodStart, oracles, rows, datasets := false, start, [], map[], map[];
      inflationDone, distributed, totalCpu, utility := false, [], 0, 0;
      producerPay, accountPay := map[], map[];
      paid, credited, issued, advances := map[], 0, 0, 0;
    }

    // One inline transfer from the system account, skipped for nothing.
    method Transfer(to: Name, q: int) returns (ok: bool)
      modifies token
      ensures ok <==> Send(old(token.Model()), to, q).Some?
      ensures ok ==> Some(token.Model()) == Send(old(token.Model()), to, q)
    {
      ok := true;
      if 0 < q {
        ok := token.Transfer(EOSIO, to, q);
      }
    }

    method CreditProducers(producers: seq<Name>, earned: int)
      modifies `producerPay
      ensures producerPay == AddPay(old(producerPay), producers, earned)
    {
      for i := 0 to |producers|
        invariant AddPay(old(producerPay), producers, earned) == AddPay(producerPay, producers[i..], earned)
      {
        var p := producers[i];
        assert producers[i..][1..] == producers[i + 1..];
        if p in producerPay {
          producerPay := producerPay[p := producerPay[p] + earned];
        } else {
          producerPay := producerPay[p := earned];
        }
      }
    }

    /** issue_inflation. */
    method IssueInflation(i: Inflation) returns (ok: bool)
      requires token.supply <= token.maxSupply
      modifies `utility, `producerPay, `issued, token
      ensures ok <==> Issue(old(Model()), i).Some?
      ensures ok ==> Some(Model()) == Issue(old(Model()), i)
    {
      hide AddPay, Send, Token.Act;
      if !i.ok || INFLATION_CAP < i.bppay + i.utility {
        return false;
      }
      var remaining := token.maxSupply - token.supply;
      if remaining <= 0 {
        return false;
      }
      var bppay, forUse := i.bppay as int, i.utility as int;
      if remaining < bppay + forUse {
        bppay := i.bppay * remaining / (i.bppay + i.utility);
        forUse := remaining - bppay;
      }
      assert (bppay, forUse) == Cut(i.bppay, i.utility, remaining);
      OracleMachine.CutBounds(i.bppay, i.utility, remaining);
      if 0 < bppay + forUse {
        ok := token.Issue(EOSIO, bppay + forUse);
        if !ok {
          return;
        }
      }
      ok := Transfer(EOSIO_BPAY, bppay);
      if !ok {
        return;
      }
      ok := Transfer(EOSIO_UPAY, forUse);
      if !ok {
        return;
      }
      if |i.producers| == 0 || |i.producers| != i.scheduleSize {
        return false;
      }
      var earned := bppay / |i.producers|;
      if 0 < earned {
        CreditProducers(i.producers, earned);
      }
      utility := forUse;
      issued := issued + bppay + forUse;
    }

    // The second half of settotalusg.
    method IssueOnAgreement(i: Inflation) returns (ok: bool)
      requires token.supply <= token.maxSupply
      modifies `totalCpu, `inflationDone, `utility, `producerPay, `issued, token
      ensures ok <==> IssueIfAgreed(old(Model()), i).Some?
      ensures ok ==> Some(Model()) == IssueIfAgreed(old(Model()), i)
    {
      hide Issue, ModeOf, Token.Act;
      if inflationDone || |oracles| < threshold {
        return true;
      }
      var m := ModalHash(rows, oracles, 0);
      if m.count < threshold || m.hash.None? || m.hash.value !in datasets {
        return true;
      }
      if datasets[m.hash.value] == [] {
        return false;
      }
      totalCpu := datasets[m.hash.value][0].cpu;
      ok := IssueInflation(i);
      if ok {
        inflationDone := true;
      }
    }

    /** settotalusg. */
    method SetTotalUsage(source: Name, isOracle: bool, cpu: int, net: int, maxCpu: int, maxNet: int,
                         commitment: Hash, start: int, i: Inflation, names: (Name, Name)) returns (ok: bool)
      requires token.supply <= token.maxSupply
      modifies this, token
      ensures ok <==> SetTotals(env, old(Model()), source, isOracle, cpu, net, maxCpu, maxNet, commitment, start, i, names).Some?
      ensures ok ==> Some(Model()) == SetTotals(env, old(Model()), source, isOracle, cpu, net, maxCpu, maxNet, commitment, start, i, names)
    {
      hide IssueIfAgreed, Token.Act;
      if !isOracle || !active || periodStart != start || !Limits(cpu, net, maxCpu, maxNet) || source in rows {
        return false;
      }
      var h := env.sha(TotalsText(cpu, net));
      var data := [Metric(names.0, cpu), Metric(names.1, net)];
      if h !in datasets {
        datasets := datasets[h := data];
      }
      rows := rows[source := Row(cpu, 0, [h], commitment, [data])];
      oracles := oracles + [source];
      ok := IssueOnAgreement(i);
    }

    // The loop of addactusg: each amount is checked, set aside and spelled out.
    method Allocate(source: Name, d: Dataset) returns (ok: bool, text: string)
      requires source in rows
      modifies `rows
      ensures ok <==> Allocatable(old(rows)[source], d)
      ensures ok ==> text == Text(env, d)
      ensures ok ==> rows == old(rows)[source := old(rows)[source].(spent := old(rows)[source].spent + Cpu(d))]
    {
      hide Decimal, Text, SpelledSoFar;
      var r := rows[source];
      text := "";
      NothingSpelled(env, d);
      for i := 0 to |d|
        invariant forall j | 0 <= j < i :: 0 < d[j].cpu
        invariant 0 < i ==> r.spent + Cpu(d[..i]) <= r.total
        invariant rows == old(rows)[source := r.(spent := r.spent + Cpu(d[..i]))]
        invariant SpelledSoFar(env, d, i, text)
      {
        CpuOneMore(d, i);
        var unallocated := rows[source].total - rows[source].spent;
        if d[i].cpu <= 0 || unallocated < d[i].cpu {
          PrefixTooMuch(r, d, i);
          return false, text;
        }
        rows := rows[source := rows[source].(spent := rows[source].spent + d[i].cpu)];
        OneMoreSpelled(env, d, i, text);
        text := text + (env.spell(d[i].account) + Decimal(d[i].cpu));
      }
      assert d[..|d|] == d;
      AllSpelled(env, d, text);
      ok := d != [] || r.spent <= r.total;
    }

    method PayShares(d: Dataset)
      requires totalCpu != 0
      modifies `accountPay
      ensures accountPay == PayAccounts(old(accountPay), d, totalCpu, utility)
    {
      for i := 0 to |d|
        invariant PayAccounts(old(accountPay), d, totalCpu, utility) == PayAccounts(accountPay, d[i..], totalCpu, utility)
      {
        var account, payout := d[i].account, Share(d[i].cpu, totalCpu, utility);
        assert d[i..][1..] == d[i + 1..];
        if account in accountPay {
          accountPay := accountPay[account := accountPay[account] + payout];
        } else {
          accountPay := accountPay[account := payout];
        }
      }
    }

    // The second half of addactusg.
    method PayOnAgreement(id: int) returns (ok: bool)
      modifies `accountPay, `distributed, `paid, `credited
      ensures ok <==> PayIfAgreed(old(Model()), id).Some?
      ensures ok ==> Some(Model()) == PayIfAgreed(old(Model()), id)
    {
      hide ModeOf, PayAccounts, Cpu, Shares;
      if |oracles| < threshold {
        return true;
      }
      var m := ModalHash(rows, oracles, id);
      if id in distributed || m.count < threshold {
        return true;
      }
      var data := [];
      if m.hash.Some? && m.hash.value in datasets {
        data := datasets[m.hash.value];
      }
      if data != [] {
        if totalCpu == 0 {
          return false;
        }
        PayShares(data);
        credited := credited + Shares(data, totalCpu, utility);
      }
      distributed := distributed + [id];
      paid := paid[id := Payout(if m.hash.Some? then m.hash.value else 0, Cpu(data))];
      ok := true;
    }

    /** addactusg. */
    method AddActualUsage(source: Name, isOracle: bool, id: int, d: Dataset, start: int) returns (ok: bool)
      modifies `rows, `datasets, `accountPay, `distributed, `paid, `credited
      ensures ok <==> AddUsage(env, old(Model()), source, isOracle, id, d, start).Some?
      ensures ok ==> Some(Model()) == AddUsage(env, old(Model()), source, isOracle, id, d, start)
    {
      hide PayIfAgreed, Text, Cpu;
      if !isOracle || !active || batchSize < |d| || periodStart != start || !inflationDone {
        return false;
      }
      if source !in rows || id != |rows[source].hashes| {
        return false;
      }
      var text;
      ok, text := Allocate(source, d);
      if !ok {
        return;
      }
      var h := env.sha(text);
      rows := rows[source := rows[source].(hashes := rows[source].hashes + [h], data := rows[source].data + [d])];
      if h !in datasets {
        datasets := datasets[h := d];
      }
      ghost var s1 := WithUsage(env, old(Model()), source, d);
      assert rows == s1.rows;
      ok := PayOnAgreement(id);
    }

    // The loop of nextperiod that scores the oracles.
    method CountFullReveals(m: Mode) returns (full: nat)
      ensures full == CountFull(env, rows, oracles, m)
    {
      full := 0;
      for i := 0 to |oracles|
        invariant full + CountFull(env, rows, oracles[i..], m) == CountFull(env, rows, oracles, m)
      {
        assert oracles[i..][1..] == oracles[i + 1..];
        if oracles[i] in rows {
          var r := rows[oracles[i]];
          if env.shaList(r.hashes) == r.commitment && m.hash == Some(r.commitment) {
            full := full + 1;
          }
        }
      }
    }

    // How many oracles revealed the commitment that most share.
    method CountAgreed() returns (full: nat)
      ensures full == FullReveals(env, Model())
    {
      hide ModeOf, CountFull, Commitments;
      var m := Mode(None, 0);
      if threshold <= |oracles| {
        m := ModalHash(Commitments(rows), oracles, 0);
      }
      full := 0;
      if threshold <= m.count {
        full := CountFullReveals(m);
      }
    }

    method ClearSubmissions()
      modifies `rows, `oracles, `distributed, `inflationDone, `paid
      ensures rows == map[] && oracles == [] && distributed == [] && !inflationDone && paid == map[]
    {
      rows, oracles := map[], [];
      inflationDone, distributed := false, [];
      paid := map[];
    }

    /** nextperiod. */
    method NextPeriod(now: int) returns (ok: bool)
      modifies `rows, `oracles, `datasets, `distributed, `inflationDone, `paid, `periodStart, `advances, `credited
      ensures ok <==> Oracle.NextPeriod(env, old(Model()), now).Some?
      ensures ok ==> Some(Model()) == Oracle.NextPeriod(env, old(Model()), now)
    {
      hide CommitmentMode, CountFull;
      if !active || now < periodStart + periodSeconds {
        return false;
      }
      datasets := map[];
      var full := CountAgreed();
      if full < threshold {
        return false;
      }
      ClearSubmissions();
      periodStart := periodStart + periodSeconds;
      advances, credited := advances + 1, 0;
      ok := true;
    }

    /** claimdistrib. */
    method ClaimDistrib(account: Name) returns (ok: bool)
      modifies `accountPay, token
      ensures ok <==> ClaimDistribution(old(Model()), account).Some?
      ensures ok ==> Some(Model()) == ClaimDistribution(old(Model()), account)
    {
      hide Token.Act;
      if account !in accountPay || accountPay[account] == 0 {
        return false;
      }
      ok := token.Transfer(EOSIO_UPAY, account, accountPay[account]);
      if ok {
        accountPay := accountPay - {account};
      }
    }

    /** claimrewards. */
    method ClaimRewards(owner: Name) returns (ok: bool)
      modifies `producerPay, token
      ensures ok <==> Oracle.ClaimRewards(old(Model()), owner).Some?
      ensures ok ==> Some(Model()) == Oracle.ClaimRewards(old(Model()), owner)
    {
      hide Token.Act;
      if owner !in producerPay || producerPay[owner] <= 0 {
        return false;
      }
      var balance := producerPay[owner];
      ok := token.Transfer(EOSIO_BPAY, owner, balance);
      if ok {
        producerPay := producerPay[owner := producerPay[owner] - balance];
      }
    }

    /** Every action is one step of the protocol's machine. */
    method Perform(a: Action) returns (ok: bool)
      requires token.supply <= token.maxSupply
      modifies this, token
      ensures ok <==> Act(env, old(Model()), a).Some?
      ensures ok ==> Some(Model()) == Act(env, old(Model()), a)
    {
      hide Token.Act, SetTotals, AddUsage, Oracle.NextPeriod, ClaimDistribution, Oracle.ClaimRewards;
      match a {
        case Totals(source, isOracle, cpu, net, maxCpu, maxNet, commitment, start, i, names) =>
          ok := SetTotalUsage(source, isOracle, cpu, net, maxCpu, maxNet, commitment, start, i, names);
        case Usage(source, isOracle, id, d, start) => ok := AddActualUsage(source, isOracle, id, d, start);
        case Advance(now) => ok := NextPeriod(now);
        case ClaimShare(account) => ok := ClaimDistrib(account);
        case ClaimPay(owner) => ok := ClaimRewards(owner);
        case Activate(on) =>
          ok := on != active;
          active := on;
        case TokenAction(ta) => ok := token.Perform(ta);
      }
    }
  }
}
