/** Multisignature proposals of eosio.msig.cpp: who was asked, who approved, and whose approvals
    count when the proposal is executed. */
module Multisig {
  import opened Common

  datatype Level = Level(actor: Name, permission: Name)
  datatype Approval = Approval(level: Level, time: int)

  type Key = (Name, Name)   // (proposer, proposal name)

  // A proposal; its transaction is known by its expiration (in seconds).  The levels it was
  // proposed with are the model's record.
  datatype Proposal = Proposal(expiration: int, proposed: seq<Level>)

  // The two formats of an approvals row.
  datatype Row = Row(requested: seq<Approval>, provided: seq<Approval>)
  datatype OldRow = OldRow(requested: seq<Level>, provided: seq<Level>)

  datatype State = State(
    proposals: map<Key, Proposal>,
    approvals: map<Key, Row>,
    oldApprovals: map<Key, OldRow>,
    invalidations: map<Name, int>,
    now: int)

  /** What the chain decides: whether a set of levels may authorise a proposal's transaction. */
  type Authority = (Key, seq<Level>) -> bool

  function Levels(a: seq<Approval>): (ls: seq<Level>)
    ensures |ls| == |a|
  {
    seq(|a|, i requires 0 <= i < |a| => a[i].level)
  }

  // Everything asked for and not yet given.
  function Requests(requested: seq<Level>): seq<Approval> {
    seq(|requested|, i requires 0 <= i < |requested| => Approval(requested[i], 0))
  }

  // The first position of l, or the length of the list.
  function Find(ls: seq<Level>, l: Level): (i: nat)
    ensures i <= |ls|
    ensures i < |ls| ==> ls[i] == l
    ensures i == |ls| ==> l !in ls
  {
    if ls == [] || ls[0] == l then 0 else 1 + Find(ls[1..], l)
  }

  function Without<T>(s: seq<T>, i: nat): seq<T>
    requires i < |s|
  {
    s[..i] + s[i + 1..]
  }

  // ----- the actions; None is an abort

  function Propose(s: State, k: Key, requested: seq<Level>, expiration: int, authority: Authority): Option<State> {
    if expiration < s.now / 1000000 || k in s.proposals || !authority(k, requested) || k in s.approvals then None
    else Some(s.(proposals := s.proposals[k := Proposal(expiration, requested)],
                 approvals := s.approvals[k := Row(Requests(requested), [])]))
  }

  function Approve(s: State, k: Key, l: Level): Option<State> {
    if k in s.approvals then
      var r := s.approvals[k];
      var i := Find(Levels(r.requested), l);
      if i == |r.requested| then None
      else Some(s.(approvals := s.approvals[k := Row(Without(r.requested, i), r.provided + [Approval(l, s.now)])]))
    else if k in s.oldApprovals then
      var r := s.oldApprovals[k];
      var i := Find(r.requested, l);
      if i == |r.requested| then None
      else Some(s.(oldApprovals := s.oldApprovals[k := OldRow(Without(r.requested, i), r.provided + [l])]))
    else None
  }

  function Unapprove(s: State, k: Key, l: Level): Option<State> {
    if k in s.approvals then
      var r := s.approvals[k];
      var i := Find(Levels(r.provided), l);
      if i == |r.provided| then None
      else Some(s.(approvals := s.approvals[k := Row(r.requested + [Approval(l, s.now)], Without(r.provided, i))]))
    else if k in s.oldApprovals then
      var r := s.oldApprovals[k];
      var i := Find(r.provided, l);
      if i == |r.provided| then None
      else Some(s.(oldApprovals := s.oldApprovals[k := OldRow(r.requested + [l], Without(r.provided, i))]))
    else None
  }

  function Cancel(s: State, k: Key, canceler: Name): Option<State> {
    if k !in s.proposals then None
    else if canceler != k.0 && s.now / 1000000 <= s.proposals[k].expiration then None
    else if k in s.approvals then Some(s.(proposals := s.proposals - {k}, approvals := s.approvals - {k}))
    else if k in s.oldApprovals then Some(s.(proposals := s.proposals - {k}, oldApprovals := s.oldApprovals - {k}))
    else None
  }

  // Whether an approval given at that time still stands.
  predicate Stands(invalidations: map<Name, int>, a: Approval) {
    a.level.actor !in invalidations || invalidations[a.level.actor] < a.time
  }

  function Standing(invalidations: map<Name, int>, provided: seq<Approval>): seq<Level> {
    if provided == [] then []
    else
      var rest := Standing(invalidations, provided[..|provided| - 1]);
      var a := provided[|provided| - 1];
      if Stands(invalidations, a) then rest + [a.level] else rest
  }

  // In the old format an account that ever invalidated has no standing approval.
  function OldStanding(invalidations: map<Name, int>, provided: seq<Level>): seq<Level> {
    if provided == [] then []
    else
      var rest := OldStanding(invalidations, provided[..|provided| - 1]);
      var l := provided[|provided| - 1];
      if l.actor !in invalidations then rest + [l] else rest
  }

  // The levels exec puts to the chain.
  function Counted(s: State, k: Key): seq<Level> {
    if k in s.approvals then Standing(s.invalidations, s.approvals[k].provided)
    else if k in s.oldApprovals then OldStanding(s.invalidations, s.oldApprovals[k].provided)
    else []
  }

  function Exec(s: State, k: Key, authority: Authority): Option<State> {
    if k !in s.proposals || s.proposals[k].expiration < s.now / 1000000 then None
    else if k !in s.approvals && k !in s.oldApprovals then None
    else if !authority(k, Counted(s, k)) then None
    else Some(s.(proposals := s.proposals - {k}, approvals := s.approvals - {k},
                 oldApprovals := if k in s.approvals then s.oldApprovals else s.oldApprovals - {k}))
  }

  function Invalidate(s: State, account: Name): State {
    s.(invalidations := s.invalidations[account := s.now])
  }

  datatype Action =
    | ProposeIt(key: Key, requested: seq<Level>, expiration: int)
    | ApproveIt(key: Key, level: Level)
    | UnapproveIt(key: Key, level: Level)
    | CancelIt(key: Key, canceler: Name)
    | ExecIt(key: Key)
    | InvalidateAll(account: Name)

  function Act(s: State, authority: Authority, a: Action): Option<State> {
    match a
    case ProposeIt(k, requested, expiration) => Propose(s, k, requested, expiration, authority)
    case ApproveIt(k, l) => Approve(s, k, l)
    case UnapproveIt(k, l) => Unapprove(s, k, l)
    case CancelIt(k, canceler) => Cancel(s, k, canceler)
    case ExecIt(k) => Exec(s, k, authority)
    case InvalidateAll(account) => Some(Invalidate(s, account))
  }

  function Next(s: State, authority: Authority, time: int, a: Action): State {
    match Act(s.(now := time), authority, a)
    case Some(s') => s'
    case None => s.(now := time)
  }

  // ----- the invariant

  ghost predicate RowOk(r: Row, p: Proposal, now: int) {
    && multiset(Levels(r.requested)) + multiset(Levels(r.provided)) == multiset(p.proposed)
    && forall i | 0 <= i < |r.provided| :: r.provided[i].time <= now
  }

  ghost predicate OldRowOk(r: OldRow, p: Proposal) {
    multiset(r.requested) + multiset(r.provided) == multiset(p.proposed)
  }

  /** A proposal exists exactly when it has an approvals row, in one format only; and those asked
      together with those who approved are those it was proposed with. */
  ghost predicate Inv(s: State) {
    && (forall k :: k in s.proposals <==> k in s.approvals || k in s.oldApprovals)
    && (forall k :: !(k in s.approvals && k in s.oldApprovals))
    && (forall k | k in s.approvals :: RowOk(s.approvals[k], s.proposals[k], s.now))
    && (forall k | k in s.oldApprovals :: OldRowOk(s.oldApprovals[k], s.proposals[k]))
    && (forall a | a in s.invalidations :: s.invalidations[a] <= s.now)
  }

  // ----- moving a level from one list to the other

  lemma WithoutSplits<T>(s: seq<T>, i: nat)
    requires i < |s|
    ensures multiset(s) == multiset(Without(s, i)) + multiset{s[i]}
  {
    assert s == s[..i] + ([s[i]] + s[i + 1..]);
  }

  lemma LevelsWithout(a: seq<Approval>, i: nat)
    requires i < |a|
    ensures Levels(Without(a, i)) == Without(Levels(a), i)
  {
  }

  lemma LevelsAppend(a: seq<Approval>, x: Approval)
    ensures Levels(a + [x]) == Levels(a) + [x.level]
  {
  }

  // Taking l out of one list and putting it at the end of the other keeps the two together.
  lemma MoveLevel(from: seq<Level>, to: seq<Level>, l: Level)
    requires Find(from, l) < |from|
    ensures multiset(Without(from, Find(from, l))) + multiset(to + [l]) == multiset(from) + multiset(to)
  {
    WithoutSplits(from, Find(from, l));
  }

  lemma ApproveKeepsRow(r: Row, p: Proposal, l: Level, now: int)
    requires RowOk(r, p, now) && Find(Levels(r.requested), l) < |r.requested|
    ensures RowOk(Row(Without(r.requested, Find(Levels(r.requested), l)), r.provided + [Approval(l, now)]), p, now)
  {
    var i := Find(Levels(r.requested), l);
    LevelsWithout(r.requested, i);
    LevelsAppend(r.provided, Approval(l, now));
    MoveLevel(Levels(r.requested), Levels(r.provided), l);
  }

  lemma UnapproveKeepsRow(r: Row, p: Proposal, l: Level, now: int)
    requires RowOk(r, p, now) && Find(Levels(r.provided), l) < |r.provided|
    ensures RowOk(Row(r.requested + [Approval(l, now)], Without(r.provided, Find(Levels(r.provided), l))), p, now)
  {
    hide Levels, Find;
    var i := Find(Levels(r.provided), l);
    LevelsWithout(r.provided, i);
    LevelsAppend(r.requested, Approval(l, now));
    MoveLevel(Levels(r.provided), Levels(r.requested), l);
    forall j | 0 <= j < |Without(r.provided, i)|
      ensures Without(r.provided, i)[j].time <= now
    {
      assert Without(r.provided, i)[j] == r.provided[if j < i then j else j + 1];
    }
    var r' := Row(r.requested + [Approval(l, now)], Without(r.provided, i));
    assert multiset(Levels(r'.requested)) + multiset(Levels(r'.provided))
        == multiset(Levels(r'.provided)) + multiset(Levels(r'.requested));
  }

  lemma ProposeKeepsRow(requested: seq<Level>, p: Proposal, now: int)
    requires p.proposed == requested
    ensures RowOk(Row(Requests(requested), []), p, now)
  {
    assert Levels(Requests(requested)) == requested;
  }

  /** Every action keeps the invariant: nobody is asked twice or lost between propose and the end. */
  lemma NextKeeps(s: State, authority: Authority, time: int, a: Action)
    requires Inv(s) && s.now <= time
    ensures Inv(Next(s, authority, time, a))
  {
    hide RowOk, OldRowOk, Levels, Without, Find, Standing, OldStanding;
    var t := s.(now := time);
    TimePasses(s, time);
    var o := Act(t, authority, a);
    if o.Some? {
      match a
      case ProposeIt(k, requested, expiration) => ProposeKeepsRow(requested, Proposal(expiration, requested), time);
      case ApproveIt(k, l) =>
        if k in t.approvals {
          ApproveKeepsRow(t.approvals[k], t.proposals[k], l, time);
        } else {
          OldMove(t.oldApprovals[k].requested, t.oldApprovals[k].provided, t.proposals[k], l);
        }
      case UnapproveIt(k, l) =>
        if k in t.approvals {
          UnapproveKeepsRow(t.approvals[k], t.proposals[k], l, time);
        } else {
          OldMove(t.oldApprovals[k].provided, t.oldApprovals[k].requested, t.proposals[k], l);
        }
      case CancelIt(k, canceler) =>
      case ExecIt(k) =>
      case InvalidateAll(account) =>
    }
  }

  lemma OldMove(from: seq<Level>, to: seq<Level>, p: Proposal, l: Level)
    requires multiset(from) + multiset(to) == multiset(p.proposed) || OldRowOk(OldRow(from, to), p) || OldRowOk(OldRow(to, from), p)
    requires Find(from, l) < |from|
    ensures OldRowOk(OldRow(Without(from, Find(from, l)), to + [l]), p) && OldRowOk(OldRow(to + [l], Without(from, Find(from, l))), p)
  {
    MoveLevel(from, to, l);
  }

  lemma TimePasses(s: State, time: int)
    requires Inv(s) && s.now <= time
    ensures Inv(s.(now := time))
  {
    forall k | k in s.approvals
      ensures RowOk(s.approvals[k], s.proposals[k], time)
    {
      assert RowOk(s.approvals[k], s.proposals[k], s.now);
    }
  }

  ghost predicate IsRun(s: State, authority: Authority, acts: seq<(int, Action)>, s': State)
    decreases |acts|
  {
    if acts == [] then s' == s
    else s.now <= acts[0].0 && IsRun(Next(s, authority, acts[0].0, acts[0].1), authority, acts[1..], s')
  }

  lemma {:induction false} RunKeeps(s: State, authority: Authority, acts: seq<(int, Action)>, s': State)
    requires Inv(s) && IsRun(s, authority, acts, s')
    ensures Inv(s')
    decreases |acts|
  {
    hide Inv, Next;
    if acts != [] {
      NextKeeps(s, authority, acts[0].0, acts[0].1);
      RunKeeps(Next(s, authority, acts[0].0, acts[0].1), authority, acts[1..], s');
    }
  }

  // The tables at the start: nothing but what an earlier version left in the old format.
  function Inherited(proposals: map<Key, Proposal>, rows: map<Key, OldRow>, now: int): State {
    State(proposals, map[], rows, map[], now)
  }

  /** After any run from tables that hold old-format proposals only, or nothing, a proposal exists
      exactly when it has an approvals row, in one format only, and the levels asked and the levels
      given are together those it was proposed with. */
  lemma LevelsOfEveryRun(proposals: map<Key, Proposal>, rows: map<Key, OldRow>, now: int, authority: Authority,
                         acts: seq<(int, Action)>, s: State)
    requires rows.Keys == proposals.Keys && forall k | k in rows :: OldRowOk(rows[k], proposals[k])
    requires IsRun(Inherited(proposals, rows, now), authority, acts, s)
    ensures forall k :: k in s.proposals <==> k in s.approvals || k in s.oldApprovals
    ensures forall k :: !(k in s.approvals && k in s.oldApprovals)
    ensures forall k | k in s.approvals ::
              multiset(Levels(s.approvals[k].requested)) + multiset(Levels(s.approvals[k].provided)) == multiset(s.proposals[k].proposed)
    ensures forall k | k in s.oldApprovals ::
              multiset(s.oldApprovals[k].requested) + multiset(s.oldApprovals[k].provided) == multiset(s.proposals[k].proposed)
  {
    hide IsRun;
    RunKeeps(Inherited(proposals, rows, now), authority, acts, s);
    forall k | k in s.approvals
      ensures multiset(Levels(s.approvals[k].requested)) + multiset(Levels(s.approvals[k].provided)) == multiset(s.proposals[k].proposed)
    {
      assert RowOk(s.approvals[k], s.proposals[k], s.now);
    }
    forall k | k in s.oldApprovals
      ensures multiset(s.oldApprovals[k].requested) + multiset(s.oldApprovals[k].provided) == multiset(s.proposals[k].proposed)
    {
      assert OldRowOk(s.oldApprovals[k], s.proposals[k]);
    }
  }

  /** Taking an approval back restores who is asked and who has approved. */
  lemma UnapproveUndoesApprove(s: State, k: Key, l: Level)
    requires Inv(s) && Approve(s, k, l).Some? && k in s.approvals
    ensures Unapprove(Approve(s, k, l).value, k, l).Some?
    ensures var r, r' := s.approvals[k], Unapprove(Approve(s, k, l).value, k, l).value.approvals[k];
            && multiset(Levels(r'.requested)) == multiset(Levels(r.requested))
            && multiset(Levels(r'.provided)) == multiset(Levels(r.provided))
  {
    hide Levels, Find, Without, RowOk;
    var r := s.approvals[k];
    var i := Find(Levels(r.requested), l);
    var r1 := Approve(s, k, l).value.approvals[k];
    LevelsWithout(r.requested, i);
    LevelsAppend(r.provided, Approval(l, s.now));
    WithoutSplits(Levels(r.requested), i);
    var j := Find(Levels(r1.provided), l);
    assert Levels(r1.provided)[|r.provided|] == l;
    LevelsWithout(r1.provided, j);
    WithoutSplits(Levels(r1.provided), j);
    LevelsAppend(r1.requested, Approval(l, s.now));
    assert multiset(Levels(r1.provided)) == multiset(Levels(r.provided)) + multiset{l};
    CancelOne(multiset(Without(Levels(r1.provided), j)), multiset(Levels(r.provided)), l);
  }

  lemma CancelOne(a: multiset<Level>, b: multiset<Level>, l: Level)
    requires a + multiset{l} == b + multiset{l}
    ensures a == b
  {
    assert a == (a + multiset{l}) - multiset{l};
    assert b == (b + multiset{l}) - multiset{l};
  }

  // ----- what counts at exec

  // How many standing approvals of l a list holds.
  function CountStanding(invalidations: map<Name, int>, provided: seq<Approval>, l: Level): nat {
    |set i | 0 <= i < |provided| && provided[i].level == l && Stands(invalidations, provided[i])|
  }

  /** exec counts exactly the approvals given strictly after their account's last invalidation, each
      as often as it was given. */
  lemma {:induction false} ExecCountsStanding(invalidations: map<Name, int>, provided: seq<Approval>, l: Level)
    ensures multiset(Standing(invalidations, provided))[l] == CountStanding(invalidations, provided, l)
    decreases |provided|
  {
    hide CountStanding, Stands;
    if provided == [] {
      NoneStanding(invalidations, l);
    } else {
      ExecCountsStanding(invalidations, provided[..|provided| - 1], l);
      OneMoreStanding(invalidations, provided, l);
    }
  }

  lemma NoneStanding(invalidations: map<Name, int>, l: Level)
    ensures CountStanding(invalidations, [], l) == 0
  {
  }

  lemma OneMoreStanding(invalidations: map<Name, int>, provided: seq<Approval>, l: Level)
    requires provided != []
    ensures var n := |provided| - 1;
            CountStanding(invalidations, provided, l)
            == CountStanding(invalidations, provided[..n], l)
               + if provided[n].level == l && Stands(invalidations, provided[n]) then 1 else 0
  {
    hide Stands;
    var n := |provided| - 1;
    var front := provided[..n];
    var before := set i | 0 <= i < |front| && front[i].level == l && Stands(invalidations, front[i]);
    var all := set i | 0 <= i < |provided| && provided[i].level == l && Stands(invalidations, provided[i]);
    assert forall i | 0 <= i < n :: front[i] == provided[i];
    assert n !in before;
    if provided[n].level == l && Stands(invalidations, provided[n]) {
      assert all == before + {n};
    } else {
      assert all == before;
    }
  }

  lemma {:induction false} OldCountsStanding(invalidations: map<Name, int>, provided: seq<Level>, l: Level)
    ensures multiset(OldStanding(invalidations, provided))[l] == if l.actor in invalidations then 0 else multiset(provided)[l]
    decreases |provided|
  {
    if provided != [] {
      var n := |provided| - 1;
      OldCountsStanding(invalidations, provided[..n], l);
      assert provided == provided[..n] + [provided[n]];
    }
  }

  /** After an account invalidates, none of the approvals it gave before counts for any proposal, and
      everybody else's count as before. */
  lemma InvalidateClears(s: State, account: Name, k: Key, l: Level)
    requires Inv(s) && k in s.proposals
    ensures multiset(Counted(Invalidate(s, account), k))[l] == if l.actor == account then 0 else multiset(Counted(s, k))[l]
  {
    var s' := Invalidate(s, account);
    if k in s.approvals {
      var provided := s.approvals[k].provided;
      ExecCountsStanding(s.invalidations, provided, l);
      ExecCountsStanding(s'.invalidations, provided, l);
      assert RowOk(s.approvals[k], s.proposals[k], s.now);
      var before := set i | 0 <= i < |provided| && provided[i].level == l && Stands(s.invalidations, provided[i]);
      var after := set i | 0 <= i < |provided| && provided[i].level == l && Stands(s'.invalidations, provided[i]);
      if l.actor == account {
        assert after == {};
      } else {
        assert after == before;
      }
    } else {
      OldCountsStanding(s.invalidations, s.oldApprovals[k].provided, l);
      OldCountsStanding(s'.invalidations, s.oldApprovals[k].provided, l);
    }
  }

  /** An approval given after that counts again. */
  lemma ApproveCounts(s: State, k: Key, l: Level)
    requires Inv(s) && Approve(s, k, l).Some? && k in s.approvals && (l.actor in s.invalidations ==> s.invalidations[l.actor] < s.now)
    ensures Counted(Approve(s, k, l).value, k) == Counted(s, k) + [l]
  {
    var provided := s.approvals[k].provided;
    assert (provided + [Approval(l, s.now)])[..|provided|] == provided;
  }
}
