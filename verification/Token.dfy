/** The ledger of one token: eosio.token.cpp. */
module Token {
  import opened Common
  import opened Sums

  type Balances = map<Name, int>

  function BalanceOf(b: Balances, a: Name): int {
    if a in b then b[a] else 0
  }

  // None is an aborted transaction.
  function Debit(b: Balances, owner: Name, q: int): Option<Balances> {
    if owner in b && q <= b[owner] then Some(b[owner := b[owner] - q]) else None
  }

  function Credit(b: Balances, owner: Name, q: int): Balances {
    b[owner := BalanceOf(b, owner) + q]
  }

  /** transfer. */
  function Transfer(b: Balances, from: Name, to: Name, q: int): Option<Balances> {
    if from == to || q <= 0 then None else
    match Debit(b, from, q)
    case Some(b') => Some(Credit(b', to, q))
    case None => None
  }

  ghost predicate NonNegative(b: Balances) {
    forall a | a in b :: 0 <= b[a]
  }

  /** A transfer succeeds exactly when two different accounts and a positive, covered amount are
      named; it moves that amount and nothing else, and the total stays. */
  lemma TransferMoves(b: Balances, from: Name, to: Name, q: int)
    requires NonNegative(b)
    ensures Transfer(b, from, to, q).Some? <==> from != to && 0 < q <= BalanceOf(b, from)
    ensures Transfer(b, from, to, q).Some? ==>
              var b' := Transfer(b, from, to, q).value;
              && NonNegative(b') && SumInt(b') == SumInt(b)
              && BalanceOf(b', from) == BalanceOf(b, from) - q
              && BalanceOf(b', to) == BalanceOf(b, to) + q
              && forall a | a != from && a != to :: BalanceOf(b', a) == BalanceOf(b, a)
  {
    hide SumInt;
    if Transfer(b, from, to, q).Some? {
      var b1 := b[from := b[from] - q];
      IntChange(b, b1, from);
      IntChange(b1, Credit(b1, to, q), to);
    }
  }

  // q units went from one account to another, and nothing else moved.
  ghost predicate Moved(b: Balances, b': Balances, from: Name, to: Name, q: int) {
    forall a :: BalanceOf(b', a) == BalanceOf(b, a) + (if a == to then q else 0) - (if a == from then q else 0)
  }

  lemma TransferIsMove(b: Balances, from: Name, to: Name, q: int)
    requires NonNegative(b) && Transfer(b, from, to, q).Some?
    ensures Moved(b, Transfer(b, from, to, q).value, from, to, q) && from != to && 0 < q
  {
    hide Transfer;
    TransferMoves(b, from, to, q);
  }

  // ----- the ledger as a whole

  datatype State = State(issuer: Name, maxSupply: int, supply: int, balances: Balances)

  datatype Action =
    | Issue(to: Name, quantity: int)
    | Retire(quantity: int)
    | Pay(from: Name, to: Name, quantity: int)
    | Open(owner: Name)
    | Close(owner: Name)

  function Act(s: State, a: Action): Option<State> {
    match a
    case Issue(to, q) =>
      if to != s.issuer || q <= 0 || s.maxSupply - s.supply < q then None
      else Some(s.(supply := s.supply + q, balances := Credit(s.balances, s.issuer, q)))
    case Retire(q) =>
      if q <= 0 || Debit(s.balances, s.issuer, q).None? then None
      else Some(s.(supply := s.supply - q, balances := Debit(s.balances, s.issuer, q).value))
    case Pay(from, to, q) =>
      if Transfer(s.balances, from, to, q).None? then None
      else Some(s.(balances := Transfer(s.balances, from, to, q).value))
    case Open(owner) =>
      Some(if owner in s.balances then s else s.(balances := s.balances[owner := 0]))
    case Close(owner) =>
      if owner in s.balances && s.balances[owner] == 0 then Some(s.(balances := s.balances - {owner})) else None
  }

  function Next(s: State, a: Action): State {
    match Act(s, a)
    case Some(s') => s'
    case None => s
  }

  /** The supply is the sum of all balances, and none is negative. */
  ghost predicate Inv(s: State) {
    && NonNegative(s.balances)
    && s.supply == SumInt(s.balances)
    && s.supply <= s.maxSupply <= MAX_AMOUNT
  }

  lemma NextKeeps(s: State, a: Action)
    requires Inv(s)
    ensures Inv(Next(s, a))
  {
    hide SumInt;
    var s' := Next(s, a);
    match a
    case Issue(to, q) => if s' != s { IntChange(s.balances, s'.balances, s.issuer); }
    case Retire(q) => if s' != s { IntChange(s.balances, s'.balances, s.issuer); }
    case Pay(from, to, q) => TransferMoves(s.balances, from, to, q);
    case Open(owner) => if s' != s { IntChange(s.balances, s'.balances, owner); }
    case Close(owner) => if s' != s { IntChange(s.balances, s'.balances, owner); }
  }

  // Only the issuer's balance moved, by x, and the supply with it.
  ghost predicate Minted(s: State, s': State, x: int) {
    && s'.supply == s.supply + x && s'.issuer == s.issuer && s'.maxSupply == s.maxSupply
    && forall a :: BalanceOf(s'.balances, a) == BalanceOf(s.balances, a) + if a == s.issuer then x else 0
  }

  /** Tokens are issued to the issuer and retired from it, within the maximum and its balance; opening and
      closing a row moves no balance, and only an empty row can be closed. */
  lemma ActSpelled(s: State, a: Action)
    requires Inv(s)
    ensures a.Issue? ==> (Act(s, a).Some? <==> a.to == s.issuer && 0 < a.quantity && s.supply + a.quantity <= s.maxSupply)
    ensures a.Issue? && Act(s, a).Some? ==> Minted(s, Act(s, a).value, a.quantity)
    ensures a.Retire? ==> (Act(s, a).Some? <==> 0 < a.quantity <= BalanceOf(s.balances, s.issuer))
    ensures a.Retire? && Act(s, a).Some? ==> Minted(s, Act(s, a).value, -a.quantity)
    ensures a.Pay? ==> (Act(s, a).Some? <==> a.from != a.to && 0 < a.quantity <= BalanceOf(s.balances, a.from))
    ensures a.Pay? && Act(s, a).Some? ==>
              var s' := Act(s, a).value;
              Moved(s.balances, s'.balances, a.from, a.to, a.quantity) && s' == s.(balances := s'.balances)
    ensures a.Open? ==> Act(s, a).Some? && Minted(s, Act(s, a).value, 0) && Act(s, a).value.balances.Keys == s.balances.Keys + {a.owner}
    ensures a.Close? ==> (Act(s, a).Some? <==> a.owner in s.balances && s.balances[a.owner] == 0)
    ensures a.Close? && Act(s, a).Some? ==>
              Minted(s, Act(s, a).value, 0) && Act(s, a).value.balances.Keys == s.balances.Keys - {a.owner}
  {
    hide SumInt;
    match a
    case Issue(to, q) =>
    case Retire(q) =>
    case Pay(from, to, q) => TransferMoves(s.balances, from, to, q);
    case Open(owner) =>
    case Close(owner) =>
  }

  ghost predicate IsRun(s: State, acts: seq<Action>, s': State)
    decreases |acts|
  {
    if acts == [] then s' == s else IsRun(Next(s, acts[0]), acts[1..], s')
  }

  lemma {:induction false} RunKeeps(s: State, acts: seq<Action>, s': State)
    requires Inv(s) && IsRun(s, acts, s')
    ensures Inv(s') && s'.maxSupply == s.maxSupply
    decreases |acts|
  {
    hide Inv, Act;
    if acts != [] {
      NextKeeps(s, acts[0]);
      MaxStays(s, acts[0]);
      RunKeeps(Next(s, acts[0]), acts[1..], s');
    }
  }

  lemma MaxStays(s: State, a: Action)
    ensures Next(s, a).maxSupply == s.maxSupply && Next(s, a).issuer == s.issuer
  {
  }

  // The ledger that create leaves.
  function Created(issuer: Name, maxSupply: int): State {
    State(issuer, maxSupply, 0, map[])
  }

  lemma CreatedInv(issuer: Name, maxSupply: int)
    requires 0 < maxSupply <= MAX_AMOUNT
    ensures Inv(Created(issuer, maxSupply))
  {
  }

  /** After any run from a newly created token the supply is the sum of the balances and within the
      maximum it was created with, and no balance can leave the range of an asset amount. */
  lemma SupplyOfEveryRun(issuer: Name, maxSupply: int, acts: seq<Action>, s: State)
    requires 0 < maxSupply <= MAX_AMOUNT && IsRun(Created(issuer, maxSupply), acts, s)
    ensures s.supply == SumInt(s.balances) <= maxSupply
    ensures forall a :: 0 <= BalanceOf(s.balances, a) <= s.supply
  {
    hide SumInt, IsRun;
    CreatedInv(issuer, maxSupply);
    RunKeeps(Created(issuer, maxSupply), acts, s);
    forall a: Name
      ensures 0 <= BalanceOf(s.balances, a) <= s.supply
    {
      IntMember(s.balances, a);
      IntNonNegative(s.balances);
    }
  }
}

/** eosio.token.cpp with its rows updated in place. */
module TokenContract {
  import opened Common
  import opened Token

  class Accounts {
    const issuer: Name
    const maxSupply: int
    var supply: int
    var balances: Balances

    ghost function Model(): State
      reads this
    {
      State(issuer, maxSupply, supply, balances)
    }

    constructor (issuer: Name, maxSupply: int)
      ensures Model() == State(issuer, maxSupply, 0, map[])
    {
      this.issuer, this.maxSupply := issuer, maxSupply;
      supply, balances := 0, map[];
    }

    // sub_balance; nothing changes on a failed check.
    method SubBalance(owner: Name, q: int) returns (ok: bool)
      modifies `balances
      ensures ok <==> Debit(old(balances), owner, q).Some?
      ensures balances == if ok then Debit(old(balances), owner, q).value else old(balances)
    {
      if owner !in balances || balances[owner] < q {
        return false;
      }
      balances := balances[owner := balances[owner] - q];
      ok := true;
    }

    method AddBalance(owner: Name, q: int)
      modifies `balances
      ensures balances == Credit(old(balances), owner, q)
    {
      if owner in balances {
        balances := balances[owner := balances[owner] + q];
      } else {
        balances := balances[owner := q];
      }
    }

    method Issue(to: Name, q: int) returns (ok: bool)
      modifies this
      ensures ok <==> Act(old(Model()), Action.Issue(to, q)).Some?
      ensures Model() == Next(old(Model()), Action.Issue(to, q))
    {
      if to != issuer || q <= 0 || maxSupply - supply < q {
        return false;
      }
      supply := supply + q;
      AddBalance(issuer, q);
      ok := true;
    }

    method Retire(q: int) returns (ok: bool)
      modifies this
      ensures ok <==> Act(old(Model()), Action.Retire(q)).Some?
      ensures Model() == Next(old(Model()), Action.Retire(q))
    {
      if q <= 0 {
        return false;
      }
      ok := SubBalance(issuer, q);
      if ok {
        supply := supply - q;
      }
    }

    method Transfer(from: Name, to: Name, q: int) returns (ok: bool)
      modifies this
      ensures ok <==> Act(old(Model()), Pay(from, to, q)).Some?
      ensures Model() == Next(old(Model()), Pay(from, to, q))
    {
      if from == to || q <= 0 {
        return false;
      }
      ok := SubBalance(from, q);
      if ok {
        AddBalance(to, q);
      }
    }

    method Open(owner: Name) returns (ok: bool)
      modifies this
      ensures ok <==> Act(old(Model()), Action.Open(owner)).Some?
      ensures Model() == Next(old(Model()), Action.Open(owner))
    {
      if owner !in balances {
        balances := balances[owner := 0];
      }
      ok := true;
    }

    method Close(owner: Name) returns (ok: bool)
      modifies this
      ensures ok <==> Act(old(Model()), Action.Close(owner)).Some?
      ensures Model() == Next(old(Model()), Action.Close(owner))
    {
      if owner !in balances || balances[owner] != 0 {
        return false;
      }
      balances := balances - {owner};
      ok := true;
    }

    /** Every action is one step of the token's machine; nothing changes on a failed check. */
    method Perform(a: Action) returns (ok: bool)
      modifies this
      ensures ok <==> Act(old(Model()), a).Some?
      ensures Model() == Next(old(Model()), a)
    {
      hide Act;
      match a {
        case Issue(to, q) => ok := Issue(to, q);
        case Retire(q) => ok := Retire(q);
        case Pay(from, to, q) => ok := Transfer(from, to, q);
        case Open(owner) => ok := Open(owner);
        case Close(owner) => ok := Close(owner);
      }
    }
  }
}
