/** delegate_bandwidth.cpp as it is written: tables updated in place, votes and payments made
    through the vote ledger and the token contracts.  After a failed check (ok is false) the chain
    discards the transaction, so nothing is said about the tables then. */
module StakingContract {
  import opened Common
  import opened Staking
  import Token
  import TokenContract
  import Voting
  import VotingContract

  class Bandwidths {
    const ledger: VotingContract.Ledger
    const tokens: TokenContract.Accounts
    const ramTokens: TokenContract.Accounts
    var delegations: map<Key, Bandwidth>
    var resources: map<Name, Resources>
    var refunds: map<Name, RefundRequest>
    var ramReserved: int
    var ramStake: int
    ghost var undelegated: map<Name, int>

    ghost function Model(): State
      reads this, ledger, tokens, ramTokens
    {
      State(ledger.Model(), delegations, resources, refunds, tokens.balances, ramTokens.balances,
            ramReserved, ramStake, undelegated)
    }

    constructor (ledger: VotingContract.Ledger, tokens: TokenContract.Accounts, ramTokens: TokenContract.Accounts)
      ensures Model() == State(ledger.Model(), map[], map[], map[], tokens.balances, ramTokens.balances, 0, 0, map[])
      ensures this.ledger == ledger && this.tokens == tokens && this.ramTokens == ramTokens
    {
      this.ledger, this.tokens, this.ramTokens := ledger, tokens, ramTokens;
      delegations, resources, refunds := map[], map[], map[];
      ramReserved, ramStake := 0, 0;
      undelegated := map[];
    }

    // Stake delegated from k.0 to k.1.
    method UpdateDelegation(k: Key, net: int, cpu: int) returns (ok: bool)
      modifies `delegations
      ensures ok <==> Delegate(old(delegations), k, net, cpu).Some?
      ensures ok ==> Some(delegations) == Delegate(old(delegations), k, net, cpu)
    {
      if k !in delegations {
        delegations := delegations[k := Bandwidth(net, cpu)];
      } else {
        var d := delegations[k];
        delegations := delegations[k := d.(net := d.net + net, cpu := d.cpu + cpu)];
      }
      var row := delegations[k];
      if row.net < 0 || row.cpu < 0 {
        return false;
      }
      if row.net == 0 && row.cpu == 0 {
        delegations := delegations - {k};
        assert delegations == old(delegations) - {k};
      }
      ok := true;
    }

    // Totals of the receiver.
    method UpdateTotals(receiver: Name, net: int, cpu: int) returns (ok: bool)
      modifies `resources
      ensures ok <==> Receive(old(resources), receiver, net, cpu).Some?
      ensures ok ==> Some(resources) == Receive(old(resources), receiver, net, cpu)
    {
      if receiver !in resources {
        resources := resources[receiver := Resources(net, cpu, 0)];
      } else {
        var d := resources[receiver];
        resources := resources[receiver := d.(net := d.net + net, cpu := d.cpu + cpu)];
      }
      var row := resources[receiver];
      if row.net < 0 || row.cpu < 0 {
        return false;
      }
      if row.net == 0 && row.cpu == 0 && row.ram == 0 {
        resources := resources - {receiver};
        assert resources == old(resources) - {receiver};
      }
      ok := true;
    }

    // Creates, updates or erases the refund row; what it does not absorb is left to pay.
    method UpdateRefund(from: Name, net: int, cpu: int) returns (due: int)
      modifies `refunds
      ensures (refunds, due) == Requeue(old(refunds), from, net, cpu, ledger.now)
    {
      var netBalance, cpuBalance := net, cpu;
      if from in refunds {
        var r := refunds[from];
        if netBalance < 0 || cpuBalance < 0 {
          r := r.(time := ledger.now / 1000000);
        }
        r := r.(net := r.net - netBalance);
        if r.net < 0 {
          netBalance := -r.net;
          r := r.(net := 0);
        } else {
          netBalance := 0;
        }
        r := r.(cpu := r.cpu - cpuBalance);
        if r.cpu < 0 {
          cpuBalance := -r.cpu;
          r := r.(cpu := 0);
        } else {
          cpuBalance := 0;
        }
        if r.net == 0 && r.cpu == 0 {
          refunds := refunds - {from};
        } else {
          refunds := refunds[from := r];
        }
      } else if netBalance < 0 || cpuBalance < 0 {
        var r := RefundRequest(ledger.now / 1000000, 0, 0);
        if netBalance < 0 {
          r := r.(net := -netBalance);
          netBalance := 0;
        }
        if cpuBalance < 0 {
          r := r.(cpu := -cpuBalance);
          cpuBalance := 0;
        }
        refunds := refunds[from := r];
      }
      due := netBalance + cpuBalance;
    }

    // The refund and payment part of changebw.
    method PayStake(source: Name, from: Name, receiver: Name, net: int, cpu: int, transfer: bool) returns (ok: bool)
      requires tokens != ramTokens
      modifies `refunds, `undelegated, tokens
      ensures ok <==> Pay(old(Model()), source, from, receiver, net, cpu, transfer).Some?
      ensures ok ==> Some(Model()) == Pay(old(Model()), source, from, receiver, net, cpu, transfer)
    {
      hide Requeue, Token.Transfer, Voting.Shape;
      ok := true;
      if EOSIO_STAKE != source {
        var due := net + cpu;
        var undelegating := net + cpu < 0;
        if undelegating || (!transfer && from == receiver) {
          due := UpdateRefund(from, net, cpu);
        }
        if undelegating {
          undelegated := undelegated[from := ledger.now];
        }
        if 0 < due {
          ok := tokens.Transfer(source, EOSIO_STAKE, due);
        }
      }
    }

    method ChangeBw(source: Name, receiver: Name, net: int, cpu: int, transfer: bool) returns (ok: bool)
      requires tokens != ramTokens && Voting.Shape(ledger.Model())
      modifies this, ledger, tokens
      ensures ok <==> Staking.ChangeBw(old(Model()), source, receiver, net, cpu, transfer).Some?
      ensures ok ==> Some(Model()) == Staking.ChangeBw(old(Model()), source, receiver, net, cpu, transfer)
    {
      hide Delegate, Receive, Pay, Voting.Shape, Voting.UpdateVotingPower;
      if net == 0 && cpu == 0 {
        return false;
      }
      if AbsInt(net + cpu) < Max(AbsInt(net), AbsInt(cpu)) {
        return false;
      }
      var from := if transfer then receiver else source;
      ok := UpdateDelegation((from, receiver), net, cpu);
      if !ok {
        return;
      }
      ok := UpdateTotals(receiver, net, cpu);
      if !ok {
        return;
      }
      ok := PayStake(source, from, receiver, net, cpu, transfer);
      if !ok {
        return;
      }
      ok := ledger.UpdateVotingPower(from, net + cpu);
    }

    /** delegatebw. */
    method DelegateBw(from: Name, receiver: Name, net: int, cpu: int, transfer: bool) returns (ok: bool)
      requires tokens != ramTokens && Voting.Shape(ledger.Model())
      modifies this, ledger, tokens
      ensures ok <==> Staking.DelegateBw(old(Model()), from, receiver, net, cpu, transfer).Some?
      ensures ok ==> Some(Model()) == Staking.DelegateBw(old(Model()), from, receiver, net, cpu, transfer)
    {
      hide Staking.ChangeBw, Voting.Shape;
      if cpu < 0 || net < 0 || net + cpu <= 0 || (transfer && from == receiver) {
        return false;
      }
      ok := ChangeBw(from, receiver, net, cpu, transfer);
    }

    /** undelegatebw. */
    method UndelegateBw(from: Name, receiver: Name, net: int, cpu: int) returns (ok: bool)
      requires tokens != ramTokens && Voting.Shape(ledger.Model())
      modifies this, ledger, tokens
      ensures ok <==> Staking.UndelegateBw(old(Model()), from, receiver, net, cpu).Some?
      ensures ok ==> Some(Model()) == Staking.UndelegateBw(old(Model()), from, receiver, net, cpu)
    {
      hide Staking.ChangeBw, Voting.Shape;
      if from in ledger.producers && ledger.producers[from].active {
        if (from, from) !in delegations {
          return false;
        }
        var change := (net + cpu) % TWO_TO_64;
        var total := (delegations[(from, from)].net + delegations[(from, from)].cpu) % TWO_TO_64;
        if (total - change) % TWO_TO_64 < MIN_SELF_STAKE {
          return false;
        }
      }
      if cpu < 0 || net < 0 || net + cpu <= 0 || ledger.activationTime == 0 {
        return false;
      }
      ok := ChangeBw(from, receiver, -net, -cpu, false);
    }

    /** refund. */
    method Refund(owner: Name) returns (ok: bool)
      requires tokens != ramTokens
      modifies this, tokens
      ensures ok <==> Staking.Refund(old(Model()), owner).Some?
      ensures ok ==> Some(Model()) == Staking.Refund(old(Model()), owner)
    {
      hide Token.Transfer, Voting.Shape;
      if owner !in refunds {
        return false;
      }
      var r := refunds[owner];
      if ledger.now < (r.time + REFUND_DELAY) * 1000000 {
        return false;
      }
      ok := tokens.Transfer(EOSIO_STAKE, owner, r.net + r.cpu);
      if ok {
        refunds := refunds - {owner};
      }
    }

    /** regproducer. */
    method RegProducer(p: Name) returns (ok: bool)
      modifies ledger
      ensures ok <==> Staking.RegProducer(old(Model()), p).Some?
      ensures ok ==> Some(Model()) == Staking.RegProducer(old(Model()), p)
    {
      hide Voting.RegisterProducer;
      if (p, p) !in delegations {
        return false;
      }
      if delegations[(p, p)].net + delegations[(p, p)].cpu < MIN_SELF_STAKE {
        return false;
      }
      ledger.RegisterProducer(p);
      ok := true;
    }

    method ChangeRam(account: Name, bytes: int)
      modifies `resources
      ensures resources == AddRam(old(resources), account, bytes)
    {
      if account !in resources {
        resources := resources[account := Resources(0, 0, bytes)];
      } else {
        resources := resources[account := resources[account].(ram := resources[account].ram + bytes)];
      }
    }

    /** buyram. */
    method BuyRam(payer: Name, receiver: Name, quant: int) returns (ok: bool)
      requires tokens != ramTokens
      modifies this, ramTokens
      ensures ok <==> Staking.BuyRam(old(Model()), payer, receiver, quant).Some?
      ensures ok ==> Some(Model()) == Staking.BuyRam(old(Model()), payer, receiver, quant)
    {
      hide Token.Transfer, AddRam;
      if quant % 10000 != 0 || quant <= 0 {
        return false;
      }
      ok := ramTokens.Transfer(payer, EOSIO_RAM, quant);
      if !ok {
        return;
      }
      var bytes := quant / 10000 * 1024;
      assert 0 < bytes;
      ramReserved := ramReserved + bytes;
      ramStake := ramStake + quant;
      ChangeRam(receiver, bytes);
    }

    /** buyrambytes: the price is computed in 32 bits. */
    method BuyRamBytes(payer: Name, receiver: Name, bytes: int) returns (ok: bool)
      requires tokens != ramTokens && 0 <= bytes < TWO_TO_32
      modifies this, ramTokens
      ensures ok <==> Staking.BuyRamBytes(old(Model()), payer, receiver, bytes).Some?
      ensures ok ==> Some(Model()) == Staking.BuyRamBytes(old(Model()), payer, receiver, bytes)
    {
      hide Staking.BuyRam;
      if bytes == 0 || bytes % 1024 != 0 {
        return false;
      }
      ok := BuyRam(payer, receiver, bytes / 1024 * 10000 % TWO_TO_32);
    }

    /** sellram. */
    method SellRam(account: Name, bytes: int) returns (ok: bool)
      requires tokens != ramTokens
      modifies this, ramTokens
      ensures ok <==> Staking.SellRam(old(Model()), account, bytes).Some?
      ensures ok ==> Some(Model()) == Staking.SellRam(old(Model()), account, bytes)
    {
      hide Token.Transfer, AddRam;
      if bytes <= 0 || bytes % 1024 != 0 || account !in resources || resources[account].ram < bytes {
        return false;
      }
      var quant := bytes / 1024 * 10000;
      if quant <= 1 {
        return false;
      }
      ramReserved := ramReserved - bytes;
      ramStake := ramStake - quant;
      if ramStake < 0 {
        return false;
      }
      ChangeRam(account, -bytes);
      ok := ramTokens.Transfer(EOSIO_RAM, account, quant);
    }

    // newaccount's resource row.
    method NewResources(a: Name) returns (ok: bool)
      modifies `resources
      ensures ok <==> Staking.NewResources(old(Model()), a).Some?
      ensures ok ==> Some(Model()) == Staking.NewResources(old(Model()), a)
    {
      if a in resources {
        return false;
      }
      resources := resources[a := Resources(0, 0, 0)];
      ok := true;
    }

    // The actions on the vote ledger alone.
    method PerformVote(a: Action) returns (ok: bool)
      requires Voting.Shape(ledger.Model()) && (a.CastVote? || a.SetProxy? || a.UnregisterProducer?)
      modifies ledger
      ensures ok <==> Act(old(Model()), a).Some?
      ensures ok ==> Some(Model()) == Act(old(Model()), a)
    {
      hide Voting.Shape, Voting.UpdateVotes, Voting.RegProxy, Voting.Deactivate, Token.Transfer, Staking.DelegateBw,
           Staking.UndelegateBw, Staking.Refund, Staking.BuyRam, Staking.SellRam, Staking.RegProducer;
      match a {
        case CastVote(v, proxy, ps) => ok := ledger.UpdateVotes(v, proxy, ps, true);
        case SetProxy(v, isProxy) => ok := ledger.RegProxy(v, isProxy);
        case UnregisterProducer(p) => ok := ledger.UnregProd(p);
      }
    }

    /** Every action is one step of the staking machine. */
    method Perform(a: Action) returns (ok: bool)
      requires tokens != ramTokens && Voting.Shape(ledger.Model())
      modifies this, ledger, tokens, ramTokens
      ensures ok <==> Act(old(Model()), a).Some?
      ensures ok ==> Some(Model()) == Act(old(Model()), a)
    {
      hide Voting.Shape, Voting.UpdateVotes, Voting.RegProxy, Voting.Deactivate, Token.Transfer, Staking.DelegateBw,
           Staking.UndelegateBw, Staking.Refund, Staking.BuyRam, Staking.BuyRamBytes, Staking.SellRam,
           Staking.RegProducer, Staking.NewResources;
      match a {
        case Stake(from, receiver, net, cpu, transfer) => ok := DelegateBw(from, receiver, net, cpu, transfer);
        case Unstake(from, receiver, net, cpu) => ok := UndelegateBw(from, receiver, net, cpu);
        case ClaimRefund(owner) => ok := Refund(owner);
        case RegisterProducer(p) => ok := RegProducer(p);
        case UnregisterProducer(_) => ok := PerformVote(a);
        case CastVote(_, _, _) => ok := PerformVote(a);
        case SetProxy(_, _) => ok := PerformVote(a);
        case BuyRamFor(payer, receiver, quant) => ok := BuyRam(payer, receiver, quant);
        case BuyBytesFor(payer, receiver, bytes) =>
          ok := false;
          if 0 <= bytes < TWO_TO_32 {
            ok := BuyRamBytes(payer, receiver, bytes);
          }
        case SellRamOf(account, bytes) => ok := SellRam(account, bytes);
        case NewAccount(account) => ok := NewResources(account);
        case SendTokens(from, to, q) => ok := tokens.Transfer(from, to, q);
        case SendRamTokens(from, to, q) => ok := ramTokens.Transfer(from, to, q);
      }
    }
  }
}
