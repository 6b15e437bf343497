/** update_elected_producers: the schedule is read off the index by votes. */
module Schedule {
  import opened Common
  import opened Voting
  import VotingTallies
  import VotingIndex

  const SEATS: nat := 21

  type Producers = map<Name, Producer>

  // by_votes: active producers come first, those with more votes before those with fewer.
  function Key(p: Producer): real {
    if p.active then -p.votes else p.votes
  }

  // The index: every producer once, by key and then by name.
  ghost predicate InOrder(ps: Producers, idx: seq<Name>) {
    && (forall p :: p in ps <==> p in idx)
    && (forall i | 0 <= i < |idx| :: idx[i] in ps)
    && forall i, j | 0 <= i < j < |idx| ::
         Key(ps[idx[i]]) < Key(ps[idx[j]]) || (Key(ps[idx[i]]) == Key(ps[idx[j]]) && idx[i] < idx[j])
  }

  predicate Eligible(p: Producer) {
    p.active && 0.0 < p.votes
  }

  // How many rows the loop takes, given that k are taken already.
  function Taken(ps: Producers, idx: seq<Name>, k: nat): nat
    requires forall i | 0 <= i < |idx| :: idx[i] in ps
    requires k <= |idx|
    decreases |idx| - k
  {
    if k < |idx| && k < SEATS && Eligible(ps[idx[k]]) then Taken(ps, idx, k + 1) else k
  }

  function Elected(ps: Producers, idx: seq<Name>): seq<Name>
    requires forall i | 0 <= i < |idx| :: idx[i] in ps
  {
    TakenBounds(ps, idx, 0);
    idx[..Taken(ps, idx, 0)]
  }

  lemma {:induction false} TakenBounds(ps: Producers, idx: seq<Name>, k: nat)
    requires forall i | 0 <= i < |idx| :: idx[i] in ps
    requires k <= |idx| && k <= SEATS && forall i | 0 <= i < k :: Eligible(ps[idx[i]])
    ensures var n := Taken(ps, idx, k);
            && k <= n <= |idx| && n <= SEATS
            && (forall i | 0 <= i < n :: Eligible(ps[idx[i]]))
            && (n < SEATS && n < |idx| ==> !Eligible(ps[idx[n]]))
    decreases |idx| - k
  {
    if k < |idx| && k < SEATS && Eligible(ps[idx[k]]) {
      TakenBounds(ps, idx, k + 1);
    }
  }

  // Whoever is eligible and not elected is outvoted by a full schedule.
  ghost predicate TopElected(ps: Producers, elected: seq<Name>) {
    && |elected| <= 21 && (forall e | e in elected :: e in ps && ps[e].active && 0.0 < ps[e].votes)
    && forall q | q in ps && ps[q].active && 0.0 < ps[q].votes && q !in elected ::
         |elected| == 21 && forall e | e in elected :: ps[q].votes <= ps[e].votes
  }

  // An inactive producer with negative votes sorts among the active ones.
  ghost predicate Obstructed(ps: Producers, idx: seq<Name>)
    requires forall i | 0 <= i < |idx| :: idx[i] in ps
  {
    exists i, j :: 0 <= i < j < |idx| && i < 21
      && !ps[idx[i]].active && ps[idx[i]].votes < 0.0 && ps[idx[j]].active && 0.0 < ps[idx[j]].votes
  }

  // What sorts no later than an eligible producer is eligible, unless it obstructs.
  lemma NoEarlyStop(ps: Producers, idx: seq<Name>, n: nat, j: nat)
    requires InOrder(ps, idx) && !Obstructed(ps, idx) && n <= j < |idx| && Eligible(ps[idx[j]])
    ensures n < SEATS ==> Eligible(ps[idx[n]])
  {
    assert Key(ps[idx[n]]) <= Key(ps[idx[j]]);
  }

  // An eligible producer behind the last one taken.
  lemma OutvotedBy(ps: Producers, idx: seq<Name>, j: nat)
    requires InOrder(ps, idx) && !Obstructed(ps, idx) && j < |idx| && Eligible(ps[idx[j]]) && Taken(ps, idx, 0) <= j
    ensures Taken(ps, idx, 0) == SEATS
    ensures forall i | 0 <= i < SEATS :: i < |idx| && ps[idx[j]].votes <= ps[idx[i]].votes
  {
    TakenBounds(ps, idx, 0);
    hide Taken;
    var n := Taken(ps, idx, 0);
    NoEarlyStop(ps, idx, n, j);
    forall i | 0 <= i < n
      ensures ps[idx[j]].votes <= ps[idx[i]].votes
    {
      assert Eligible(ps[idx[i]]) && Key(ps[idx[i]]) <= Key(ps[idx[j]]);
    }
  }

  // Of those not elected, every eligible one is outvoted.
  lemma NotElected(ps: Producers, idx: seq<Name>, q: Name)
    requires InOrder(ps, idx) && !Obstructed(ps, idx) && q in ps && Eligible(ps[q]) && q !in Elected(ps, idx)
    ensures |Elected(ps, idx)| == 21
    ensures forall e | e in Elected(ps, idx) :: e in ps && ps[q].votes <= ps[e].votes
  {
    TakenBounds(ps, idx, 0);
    hide Taken, Obstructed, Eligible, Key;
    var j :| 0 <= j < |idx| && idx[j] == q;
    assert forall i | 0 <= i < Taken(ps, idx, 0) :: Elected(ps, idx)[i] == idx[i];
    OutvotedBy(ps, idx, j);
  }

  lemma TopUnlessObstructed(ps: Producers, idx: seq<Name>)
    requires InOrder(ps, idx) && !Obstructed(ps, idx)
    ensures TopElected(ps, Elected(ps, idx))
  {
    TakenBounds(ps, idx, 0);
    forall q | q in ps && Eligible(ps[q]) && q !in Elected(ps, idx)
      ensures |Elected(ps, idx)| == 21 && forall e | e in Elected(ps, idx) :: ps[q].votes <= ps[e].votes
    {
      NotElected(ps, idx, q);
    }
    hide Taken, Obstructed, InOrder, Key;
  }

  lemma ObstructedMissesOne(ps: Producers, idx: seq<Name>)
    requires InOrder(ps, idx) && Obstructed(ps, idx)
    ensures !TopElected(ps, Elected(ps, idx))
  {
    var i, j :| 0 <= i < j < |idx| && i < SEATS && !ps[idx[i]].active && ps[idx[i]].votes < 0.0 && Eligible(ps[idx[j]]);
    hide Obstructed;
    NotReached(ps, idx, i, j);
  }

  // An entry that is not eligible ends the scan, so one behind it is not elected.
  lemma NotReached(ps: Producers, idx: seq<Name>, i: nat, j: nat)
    requires InOrder(ps, idx) && i < j < |idx| && i < SEATS && !Eligible(ps[idx[i]])
    ensures |Elected(ps, idx)| <= i && idx[j] !in Elected(ps, idx)
  {
    TakenBounds(ps, idx, 0);
    hide Taken;
    var n := Taken(ps, idx, 0);
    forall m | 0 <= m < n
      ensures idx[m] != idx[j]
    {
      assert m < j;
    }
  }

  /** The schedule holds the top eligible producers exactly when no inactive producer with negative
      votes stands before an eligible one within the first 21 places of the index. */
  lemma ElectedAreTop(ps: Producers, idx: seq<Name>)
    requires InOrder(ps, idx)
    ensures TopElected(ps, Elected(ps, idx)) <==> !Obstructed(ps, idx)
  {
    hide TopElected, InOrder;
    assert forall i | 0 <= i < |idx| :: idx[i] in ps by { OrderCovers(ps, idx); }
    if Obstructed(ps, idx) {
      ObstructedMissesOne(ps, idx);
    } else {
      TopUnlessObstructed(ps, idx);
    }
  }

  /** In a ledger where nothing was dropped no votes are negative, so the top producers are elected. */
  lemma CleanLedgerElectsTop(s: State, idx: seq<Name>)
    requires VotingTallies.Inv(s) && s.dropped == 0.0 && InOrder(s.producers, idx)
    ensures TopElected(s.producers, Elected(s.producers, idx))
  {
    hide InOrder, TopElected;
    ElectedAreTop(s.producers, idx);
    VotesNotNegative(s);
    assert forall i | 0 <= i < |idx| :: idx[i] in s.producers by { OrderCovers(s.producers, idx); }
    assert !Obstructed(s.producers, idx);
  }

  lemma OrderCovers(ps: Producers, idx: seq<Name>)
    requires InOrder(ps, idx)
    ensures forall i | 0 <= i < |idx| :: idx[i] in ps
  {
  }

  lemma VotesNotNegative(s: State)
    requires VotingTallies.Inv(s) && s.dropped == 0.0
    ensures forall p | p in s.producers :: 0.0 <= s.producers[p].votes
  {
    assert VotingIndex.IndexOk(s);
    forall p | p in s.producers
      ensures 0.0 <= s.producers[p].votes
    {
      assert VotingIndex.ShareOk(s.producers[p], s.producers2[p], s.shareTime, s.now);
    }
  }

  // ----- the proposal

  function Insert(p: Name, ps: seq<Name>): seq<Name> {
    if ps == [] || p <= ps[0] then [p] + ps else [ps[0]] + Insert(p, ps[1..])
  }

  // The elected producers in the order of their names, as the library's sort leaves them.
  function ByName(ps: seq<Name>): seq<Name> {
    if ps == [] then [] else Insert(ps[0], ByName(ps[1..]))
  }

  ghost predicate InNameOrder(ps: seq<Name>) {
    forall i, j | 0 <= i < j < |ps| :: ps[i] <= ps[j]
  }

  lemma {:induction false} InsertMembers(p: Name, ps: seq<Name>)
    ensures multiset(Insert(p, ps)) == multiset{p} + multiset(ps)
  {
    if ps != [] && ps[0] < p {
      InsertMembers(p, ps[1..]);
      assert ps == [ps[0]] + ps[1..];
    }
  }

  lemma {:induction false} InsertKeeps(p: Name, ps: seq<Name>)
    requires InNameOrder(ps)
    ensures InNameOrder(Insert(p, ps))
  {
    if ps != [] && ps[0] < p {
      InsertKeeps(p, ps[1..]);
      InsertMembers(p, ps[1..]);
      var rest := Insert(p, ps[1..]);
      hide Insert;
      forall i | 0 <= i < |rest|
        ensures ps[0] <= rest[i]
      {
        assert rest[i] in multiset(rest);
      }
    }
  }

  /** Sorting keeps every entry and puts the names in order. */
  lemma {:induction false} ByNameSorts(ps: seq<Name>)
    ensures InNameOrder(ByName(ps)) && multiset(ByName(ps)) == multiset(ps) && |ByName(ps)| == |ps|
  {
    if ps != [] {
      ByNameSorts(ps[1..]);
      InsertKeeps(ps[0], ByName(ps[1..]));
      InsertMembers(ps[0], ByName(ps[1..]));
      assert ps == [ps[0]] + ps[1..];
      assert |multiset(ByName(ps))| == |multiset(ps)|;
    }
  }

  lemma ElectedOnce(ps: Producers, idx: seq<Name>)
    requires InOrder(ps, idx)
    ensures var top := Elected(ps, idx);
            forall i, j | 0 <= i < j < |top| :: top[i] != top[j]
  {
    TakenBounds(ps, idx, 0);
    var top := Elected(ps, idx);
    forall i, j | 0 <= i < j < |top|
      ensures top[i] != top[j]
    {
      assert top[i] == idx[i] && top[j] == idx[j];
    }
  }

  /** The schedule proposed names the elected producers, all of them and nobody else, in strictly
      ascending order. */
  lemma ProposalIsElected(ps: Producers, idx: seq<Name>)
    requires InOrder(ps, idx)
    ensures StrictlySorted(ByName(Elected(ps, idx)))
    ensures forall p: Name :: p in ByName(Elected(ps, idx)) <==> p in Elected(ps, idx)
  {
    var top := Elected(ps, idx);
    ElectedOnce(ps, idx);
    ByNameSorts(top);
    hide ByName, Elected, InOrder;
    OnceInOrder(ByName(top), top);
    forall p: Name
      ensures p in ByName(top) <==> p in top
    {
      assert p in ByName(top) <==> p in multiset(ByName(top));
      assert p in top <==> p in multiset(top);
    }
  }

  lemma OnceInOrder(ps: seq<Name>, top: seq<Name>)
    requires InNameOrder(ps) && multiset(ps) == multiset(top)
    requires forall i, j | 0 <= i < j < |top| :: top[i] != top[j]
    ensures StrictlySorted(ps)
  {
    forall i, j | 0 <= i < j < |ps|
      ensures ps[i] < ps[j]
    {
      OnceCounts(top, ps[i]);
      TwiceCounts(ps, i, j);
    }
  }

  lemma {:induction false} OnceCounts(ps: seq<Name>, p: Name)
    requires forall i, j | 0 <= i < j < |ps| :: ps[i] != ps[j]
    ensures multiset(ps)[p] <= 1
  {
    if ps != [] {
      OnceCounts(ps[1..], p);
      assert ps == [ps[0]] + ps[1..];
      if ps[0] == p && p in ps[1..] {
        assert false;
      }
    }
  }

  lemma TwiceCounts(ps: seq<Name>, i: nat, j: nat)
    requires i < j < |ps|
    ensures ps[i] == ps[j] ==> 2 <= multiset(ps)[ps[i]]
  {
    assert ps == ps[..i] + [ps[i]] + ps[i + 1..j] + [ps[j]] + ps[j + 1..];
  }

  // ----- the size of the schedule

  class Elections {
    var lastSize: nat

    constructor ()
      ensures lastSize == 0
    {
      lastSize := 0;
    }

    /** update_elected_producers.  A schedule that would shrink is not proposed; whether a proposal is
        accepted is the chain's decision. */
    method UpdateElectedProducers(ps: Producers, idx: seq<Name>, accepted: bool) returns (proposed: Option<seq<Name>>)
      requires InOrder(ps, idx)
      modifies this
      ensures proposed == if Elected(ps, idx) == [] || |Elected(ps, idx)| < old(lastSize) then None
                          else Some(ByName(Elected(ps, idx)))
      ensures lastSize == if proposed.Some? && accepted then |proposed.value| else old(lastSize)
      ensures old(lastSize) <= lastSize && (old(lastSize) <= SEATS ==> lastSize <= SEATS)
    {
      var top: seq<Name> := [];
      TakenBounds(ps, idx, 0);
      while |top| < |idx| && |top| < SEATS && 0.0 < ps[idx[|top|]].votes && ps[idx[|top|]].active
        invariant |top| <= |idx| && |top| <= SEATS && top == idx[..|top|]
        invariant Taken(ps, idx, |top|) == Taken(ps, idx, 0)
        decreases |idx| - |top|
      {
        top := top + [idx[|top|]];
      }
      if |top| == 0 || |top| < lastSize {
        return None;
      }
      ByNameSorts(top);
      proposed := Some(ByName(top));
      if accepted {
        lastSize := |top|;
      }
    }
  }
}
