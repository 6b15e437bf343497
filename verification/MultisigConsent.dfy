/** Who stands behind an executed proposal: what each action does to the tables, and over whole runs
    that exec puts to the chain just the approvals given and not invalidated since. */
module MultisigConsent {
  import opened Common
  import opened Multisig

  // ----- the list exec puts to the chain

  ghost predicate Ascending(at: seq<nat>) {
    forall i, j | 0 <= i < j < |at| :: at[i] < at[j]
  }

  // The list is read off at these positions: all the approvals given later than their account's last
  // invalidation, each once, and no other.
  ghost predicate StandAt(at: seq<nat>, list: seq<Level>, invalidations: map<Name, int>, provided: seq<Approval>) {
    && Ascending(at) && |list| == |at|
    && (forall j | 0 <= j < |at| :: at[j] < |provided| && list[j] == provided[at[j]].level)
    && forall i: nat | i < |provided| ::
         i in at <==> (provided[i].level.actor in invalidations ==> invalidations[provided[i].level.actor] < provided[i].time)
  }

  /** list holds the levels of the approvals given later than their account's last invalidation, as
      often as they were given and in that order, and no others. */
  ghost predicate Stand(list: seq<Level>, invalidations: map<Name, int>, provided: seq<Approval>) {
    exists at :: StandAt(at, list, invalidations, provided)
  }

  ghost predicate OldStandAt(at: seq<nat>, list: seq<Level>, invalidations: map<Name, int>, provided: seq<Level>) {
    && Ascending(at) && |list| == |at|
    && (forall j | 0 <= j < |at| :: at[j] < |provided| && list[j] == provided[at[j]])
    && forall i: nat | i < |provided| :: i in at <==> provided[i].actor !in invalidations
  }

  // The same for the old format, which has no times: the levels of accounts that never invalidated.
  ghost predicate OldStand(list: seq<Level>, invalidations: map<Name, int>, provided: seq<Level>) {
    exists at :: OldStandAt(at, list, invalidations, provided)
  }

  lemma {:induction false} AscendingOnce(a: seq<nat>, b: seq<nat>)
    requires Ascending(a) && Ascending(b) && forall x: nat :: x in a <==> x in b
    ensures a == b
    decreases |a|
  {
    BothEmpty(a, b);
    if a != [] {
      var m, n := |a| - 1, |b| - 1;
      LastIsGreatest(a);
      LastIsGreatest(b);
      assert a[m] in b && b[n] in a;
      forall x: nat
        ensures x in a[..m] <==> x in b[..n]
      {
        WithoutLast(a, x);
        WithoutLast(b, x);
      }
      AscendingOnce(a[..m], b[..n]);
      assert a == a[..m] + [a[m]] && b == b[..n] + [b[n]];
    }
  }

  lemma BothEmpty(a: seq<nat>, b: seq<nat>)
    requires forall x: nat :: x in a <==> x in b
    ensures a == [] <==> b == []
  {
    if a != [] { assert a[0] in b; }
    if b != [] { assert b[0] in a; }
  }

  lemma LastIsGreatest(a: seq<nat>)
    requires Ascending(a) && a != []
    ensures forall x | x in a :: x <= a[|a| - 1]
  {
  }

  lemma WithoutLast(a: seq<nat>, x: nat)
    requires Ascending(a) && a != []
    ensures x in a[..|a| - 1] <==> x in a && x != a[|a| - 1]
  {
    if x in a && x != a[|a| - 1] {
      var i :| 0 <= i < |a| && a[i] == x;
      assert a[..|a| - 1][i] == x;
    }
  }

  /** There is one such list only. */
  lemma StandOnce(a: seq<Level>, b: seq<Level>, invalidations: map<Name, int>, provided: seq<Approval>)
    requires Stand(a, invalidations, provided) && Stand(b, invalidations, provided)
    ensures a == b
  {
    var at :| StandAt(at, a, invalidations, provided);
    var bt :| StandAt(bt, b, invalidations, provided);
    forall x: nat
      ensures x in at <==> x in bt
    {
      if x in at { assert x < |provided|; }
      if x in bt { assert x < |provided|; }
    }
    AscendingOnce(at, bt);
  }

  lemma OldStandOnce(a: seq<Level>, b: seq<Level>, invalidations: map<Name, int>, provided: seq<Level>)
    requires OldStand(a, invalidations, provided) && OldStand(b, invalidations, provided)
    ensures a == b
  {
    var at :| OldStandAt(at, a, invalidations, provided);
    var bt :| OldStandAt(bt, b, invalidations, provided);
    forall x: nat
      ensures x in at <==> x in bt
    {
      if x in at { assert x < |provided|; }
      if x in bt { assert x < |provided|; }
    }
    AscendingOnce(at, bt);
  }

  lemma {:induction false} StandingStands(invalidations: map<Name, int>, provided: seq<Approval>)
    ensures Stand(Standing(invalidations, provided), invalidations, provided)
    decreases |provided|
  {
    if provided == [] {
      assert StandAt([], [], invalidations, provided);
    } else {
      var n := |provided| - 1;
      var front := provided[..n];
      StandingStands(invalidations, front);
      var list := Standing(invalidations, front);
      var at :| StandAt(at, list, invalidations, front);
      OneMoreStands(at, list, invalidations, provided);
    }
  }

  lemma OneMoreStands(at: seq<nat>, list: seq<Level>, invalidations: map<Name, int>, provided: seq<Approval>)
    requires provided != [] && StandAt(at, list, invalidations, provided[..|provided| - 1])
    ensures var a := provided[|provided| - 1];
            Stand(if Stands(invalidations, a) then list + [a.level] else list, invalidations, provided)
  {
    var n: nat := |provided| - 1;
    var a := provided[n];
    assert forall i: nat | i < n :: provided[..n][i] == provided[i];
    if Stands(invalidations, a) {
      var at', list' := at + [n], list + [a.level];
      assert forall i: nat :: i in at' <==> i in at || i == n;
      assert StandAt(at', list', invalidations, provided);
    } else {
      assert n !in at;
      assert StandAt(at, list, invalidations, provided);
    }
  }

  lemma {:induction false} OldStandingStands(invalidations: map<Name, int>, provided: seq<Level>)
    ensures OldStand(OldStanding(invalidations, provided), invalidations, provided)
    decreases |provided|
  {
    if provided == [] {
      assert OldStandAt([], [], invalidations, provided);
    } else {
      var front := provided[..|provided| - 1];
      OldStandingStands(invalidations, front);
      var list := OldStanding(invalidations, front);
      var at :| OldStandAt(at, list, invalidations, front);
      OneMoreOldStands(at, list, invalidations, provided);
    }
  }

  lemma OneMoreOldStands(at: seq<nat>, list: seq<Level>, invalidations: map<Name, int>, provided: seq<Level>)
    requires provided != [] && OldStandAt(at, list, invalidations, provided[..|provided| - 1])
    ensures var l := provided[|provided| - 1];
            OldStand(if l.actor !in invalidations then list + [l] else list, invalidations, provided)
  {
    var n: nat := |provided| - 1;
    var l := provided[n];
    assert forall i: nat | i < n :: provided[..n][i] == provided[i];
    if l.actor !in invalidations {
      var at', list' := at + [n], list + [l];
      assert forall i: nat :: i in at' <==> i in at || i == n;
      assert OldStandAt(at', list', invalidations, provided);
    } else {
      assert n !in at;
      assert OldStandAt(at, list, invalidations, provided);
    }
  }

  // ----- what each action does

  // What exec must put to the chain for k.
  ghost predicate Consenting(s: State, k: Key, list: seq<Level>) {
    if k in s.approvals then Stand(list, s.invalidations, s.approvals[k].provided)
    else if k in s.oldApprovals then OldStand(list, s.invalidations, s.oldApprovals[k].provided)
    else list == []
  }

  // All that belongs to other proposals is as it was.
  ghost predicate OthersKeep(s: State, s': State, k: Key) {
    && s'.proposals - {k} == s.proposals - {k} && s'.approvals - {k} == s.approvals - {k}
    && s'.oldApprovals - {k} == s.oldApprovals - {k} && s'.now == s.now
  }

  /** exec succeeds exactly when the proposal exists, has not expired, has an approvals row and the
      chain accepts the approvals that still stand, this one list; it then ends the proposal and
      touches no other. */
  lemma ExecSpelled(s: State, k: Key, authority: Authority) returns (list: seq<Level>)
    requires Inv(s)
    ensures Consenting(s, k, list) && forall l | Consenting(s, k, l) :: l == list
    ensures Exec(s, k, authority).Some?
            <==> && k in s.proposals && s.now / 1000000 <= s.proposals[k].expiration
                 && (k in s.approvals || k in s.oldApprovals) && authority(k, list)
    ensures Exec(s, k, authority).Some? ==>
              var s' := Exec(s, k, authority).value;
              && k !in s'.proposals && k !in s'.approvals && k !in s'.oldApprovals
              && OthersKeep(s, s', k) && s'.invalidations == s.invalidations
  {
    hide Standing, OldStanding, Stand, OldStand, RowOk, OldRowOk;
    list := Counted(s, k);
    if k in s.approvals {
      StandingStands(s.invalidations, s.approvals[k].provided);
      forall l | Consenting(s, k, l) ensures l == list { StandOnce(l, list, s.invalidations, s.approvals[k].provided); }
    } else if k in s.oldApprovals {
      OldStandingStands(s.invalidations, s.oldApprovals[k].provided);
      forall l | Consenting(s, k, l) ensures l == list { OldStandOnce(l, list, s.invalidations, s.oldApprovals[k].provided); }
    }
  }

  /** propose succeeds exactly when the proposal would not have expired, does not exist yet and the chain
      would accept it from all those asked; they are then asked and nobody has approved. */
  lemma ProposeSpelled(s: State, k: Key, requested: seq<Level>, expiration: int, authority: Authority)
    requires Inv(s)
    ensures var o := Propose(s, k, requested, expiration, authority);
            o.Some? <==> s.now / 1000000 <= expiration && k !in s.proposals && authority(k, requested)
    ensures Propose(s, k, requested, expiration, authority).Some? ==>
              var s' := Propose(s, k, requested, expiration, authority).value;
              && k in s'.proposals && s'.proposals[k].expiration == expiration
              && k in s'.approvals && s'.approvals[k].provided == [] && |s'.approvals[k].requested| == |requested|
              && (forall i | 0 <= i < |requested| :: s'.approvals[k].requested[i].level == requested[i])
              && OthersKeep(s, s', k) && s'.invalidations == s.invalidations
  {
  }

  // One entry for l has gone from the list, the others are in their order.
  ghost predicate Removed(a: seq<Approval>, b: seq<Approval>, l: Level) {
    exists i :: 0 <= i < |a| && a[i].level == l && b == a[..i] + a[i + 1..]
  }

  ghost predicate OldRemoved(a: seq<Level>, b: seq<Level>, l: Level) {
    exists i :: 0 <= i < |a| && a[i] == l && b == a[..i] + a[i + 1..]
  }

  ghost predicate Holds(a: seq<Approval>, l: Level) {
    exists i :: 0 <= i < |a| && a[i].level == l
  }

  lemma FindFinds(a: seq<Approval>, l: Level)
    ensures Find(Levels(a), l) < |a| <==> Holds(a, l)
    ensures Holds(a, l) ==> Removed(a, Without(a, Find(Levels(a), l)), l)
  {
    var i := Find(Levels(a), l);
    if i < |a| {
      assert a[i].level == l;
    } else {
      assert forall j | 0 <= j < |a| :: Levels(a)[j] == a[j].level;
    }
  }

  lemma OldFindFinds(a: seq<Level>, l: Level)
    ensures Find(a, l) < |a| <==> l in a
    ensures l in a ==> OldRemoved(a, Without(a, Find(a, l)), l)
  {
  }

  /** approve succeeds exactly when the level is asked for: the first such request goes, and the level has
      approved now, after all others; nothing else changes. */
  lemma ApproveSpelled(s: State, k: Key, l: Level)
    requires Inv(s)
    ensures Approve(s, k, l).Some?
            <==> if k in s.approvals then Holds(s.approvals[k].requested, l)
                 else k in s.oldApprovals && l in s.oldApprovals[k].requested
    ensures Approve(s, k, l).Some? ==>
              var s' := Approve(s, k, l).value;
              && OthersKeep(s, s', k) && s'.proposals == s.proposals && s'.invalidations == s.invalidations
              && (k in s.approvals ==>
                    && k in s'.approvals && s'.oldApprovals == s.oldApprovals
                    && s'.approvals[k].provided == s.approvals[k].provided + [Approval(l, s.now)]
                    && Removed(s.approvals[k].requested, s'.approvals[k].requested, l))
              && (k !in s.approvals ==>
                    && k in s'.oldApprovals && s'.approvals == s.approvals
                    && s'.oldApprovals[k].provided == s.oldApprovals[k].provided + [l]
                    && OldRemoved(s.oldApprovals[k].requested, s'.oldApprovals[k].requested, l))
  {
    hide RowOk, OldRowOk, Find, Levels, Without, Removed, OldRemoved, Holds;
    if k in s.approvals {
      FindFinds(s.approvals[k].requested, l);
    } else if k in s.oldApprovals {
      OldFindFinds(s.oldApprovals[k].requested, l);
    }
  }


  /** unapprove succeeds exactly when the level has approved: one such approval goes, and the level is
      asked again. */
  lemma UnapproveSpelled(s: State, k: Key, l: Level)
    requires Inv(s)
    ensures Unapprove(s, k, l).Some?
            <==> if k in s.approvals then Holds(s.approvals[k].provided, l)
                 else k in s.oldApprovals && l in s.oldApprovals[k].provided
    ensures Unapprove(s, k, l).Some? ==>
              var s' := Unapprove(s, k, l).value;
              && OthersKeep(s, s', k) && s'.proposals == s.proposals && s'.invalidations == s.invalidations
              && (k in s.approvals ==>
                    && k in s'.approvals && s'.oldApprovals == s.oldApprovals
                    && s'.approvals[k].requested == s.approvals[k].requested + [Approval(l, s.now)]
                    && Removed(s.approvals[k].provided, s'.approvals[k].provided, l))
              && (k !in s.approvals ==>
                    && k in s'.oldApprovals && s'.approvals == s.approvals
                    && s'.oldApprovals[k].requested == s.oldApprovals[k].requested + [l]
                    && OldRemoved(s.oldApprovals[k].provided, s'.oldApprovals[k].provided, l))
  {
    hide RowOk, OldRowOk, Find, Levels, Without, Removed, OldRemoved, Holds;
    if k in s.approvals {
      FindFinds(s.approvals[k].provided, l);
    } else if k in s.oldApprovals {
      OldFindFinds(s.oldApprovals[k].provided, l);
    }
  }

  /** cancel succeeds exactly when the proposal exists and its proposer asks, or anybody once it has
      expired; it ends that proposal only. */
  lemma CancelSpelled(s: State, k: Key, canceler: Name)
    requires Inv(s)
    ensures Cancel(s, k, canceler).Some? <==> k in s.proposals && (canceler == k.0 || s.proposals[k].expiration < s.now / 1000000)
    ensures Cancel(s, k, canceler).Some? ==>
              var s' := Cancel(s, k, canceler).value;
              && k !in s'.proposals && k !in s'.approvals && k !in s'.oldApprovals
              && OthersKeep(s, s', k) && s'.invalidations == s.invalidations
  {
    hide RowOk, OldRowOk;
  }

  /** invalidate notes the time for that account and does nothing else. */
  lemma InvalidateSpelled(s: State, account: Name)
    ensures var s' := Invalidate(s, account);
            && account in s'.invalidations && s'.invalidations[account] == s.now
            && s'.invalidations - {account} == s.invalidations - {account}
            && s' == s.(invalidations := s'.invalidations)
  {
  }

  // ----- runs

  type Trace = seq<(int, Action)>

  // The approval was given by an action of the run, at its time.
  ghost predicate Given(done: Trace, k: Key, a: Approval) {
    exists e :: 0 <= e < |done| && done[e] == (a.time, ApproveIt(k, a.level))
  }

  ghost predicate RowTraced(done: Trace, k: Key, r: Row) {
    forall i | 0 <= i < |r.provided| :: Given(done, k, r.provided[i])
  }

  /** Every approval on record was given in the run, and no account's record of invalidation is older
      than its last one. */
  ghost predicate Traced(done: Trace, s: State) {
    && (forall k | k in s.approvals :: RowTraced(done, k, s.approvals[k]))
    && forall e | 0 <= e < |done| && done[e].1.InvalidateAll? ::
         done[e].1.account in s.invalidations && done[e].0 <= s.invalidations[done[e].1.account]
  }

  lemma GivenLater(done: Trace, step: (int, Action), k: Key, a: Approval)
    requires Given(done, k, a)
    ensures Given(done + [step], k, a)
  {
    var e :| 0 <= e < |done| && done[e] == (a.time, ApproveIt(k, a.level));
    assert (done + [step])[e] == done[e];
  }

  lemma RowLater(done: Trace, step: (int, Action), k: Key, r: Row)
    requires RowTraced(done, k, r)
    ensures RowTraced(done + [step], k, r)
  {
    hide Given;
    forall i | 0 <= i < |r.provided|
      ensures Given(done + [step], k, r.provided[i])
    {
      GivenLater(done, step, k, r.provided[i]);
    }
  }

  lemma FewerTraced(done: Trace, k: Key, r: Row, r': Row, l: Level)
    requires RowTraced(done, k, r) && Removed(r.provided, r'.provided, l)
    ensures RowTraced(done, k, r')
  {
    hide Given;
    var i :| 0 <= i < |r.provided| && r.provided[i].level == l && r'.provided == r.provided[..i] + r.provided[i + 1..];
    forall j | 0 <= j < |r'.provided|
      ensures Given(done, k, r'.provided[j])
    {
      assert r'.provided[j] == r.provided[if j < i then j else j + 1];
    }
  }

  lemma OneMoreTraced(done: Trace, time: int, k: Key, r: Row, r': Row, l: Level)
    requires RowTraced(done, k, r) && r'.provided == r.provided + [Approval(l, time)]
    ensures RowTraced(done + [(time, ApproveIt(k, l))], k, r')
  {
    var step := (time, ApproveIt(k, l));
    forall i | 0 <= i < |r'.provided|
      ensures Given(done + [step], k, r'.provided[i])
    {
      if i < |r.provided| {
        GivenLater(done, step, k, r.provided[i]);
      } else {
        assert (done + [step])[|done|] == step;
      }
    }
  }

  // The rows of all proposals but k's.
  lemma OtherRowsTraced(done: Trace, step: (int, Action), s: State, s': State, k: Key)
    requires (forall x | x in s.approvals :: RowTraced(done, x, s.approvals[x])) && s'.approvals - {k} == s.approvals - {k}
    ensures forall x | x in s'.approvals && x != k :: RowTraced(done + [step], x, s'.approvals[x])
  {
    hide RowTraced;
    forall x | x in s'.approvals && x != k
      ensures RowTraced(done + [step], x, s'.approvals[x])
    {
      assert x in s'.approvals - {k} && (s'.approvals - {k})[x] == s'.approvals[x];
      assert x in s.approvals - {k} && (s.approvals - {k})[x] == s.approvals[x];
      RowLater(done, step, x, s.approvals[x]);
    }
  }

  // One action leaves every approval on record traced.
  lemma ActRows(done: Trace, s: State, authority: Authority, a: Action)
    requires Inv(s) && (forall k | k in s.approvals :: RowTraced(done, k, s.approvals[k])) && Act(s, authority, a).Some?
    ensures var s' := Act(s, authority, a).value;
            forall k | k in s'.approvals :: RowTraced(done + [(s.now, a)], k, s'.approvals[k])
  {
    hide Inv, RowTraced, Propose, Approve, Unapprove, Cancel, Exec, Removed, OldRemoved, Holds, Consenting;
    var step, s' := (s.now, a), Act(s, authority, a).value;
    match a
    case ProposeIt(k, requested, expiration) =>
      ProposeSpelled(s, k, requested, expiration, authority);
      OtherRowsTraced(done, step, s, s', k);
      NothingGiven(done + [step], k, s'.approvals[k]);
    case ApproveIt(k, l) =>
      ApproveSpelled(s, k, l);
      OtherRowsTraced(done, step, s, s', k);
      if k in s.approvals { OneMoreTraced(done, s.now, k, s.approvals[k], s'.approvals[k], l); }
    case UnapproveIt(k, l) =>
      UnapproveSpelled(s, k, l);
      OtherRowsTraced(done, step, s, s', k);
      if k in s.approvals {
        FewerTraced(done, k, s.approvals[k], s'.approvals[k], l);
        RowLater(done, step, k, s'.approvals[k]);
      }
    case CancelIt(k, canceler) =>
      CancelSpelled(s, k, canceler);
      OtherRowsTraced(done, step, s, s', k);
    case ExecIt(k) =>
      var list := ExecSpelled(s, k, authority);
      OtherRowsTraced(done, step, s, s', k);
    case InvalidateAll(account) =>
      forall k | k in s'.approvals
        ensures RowTraced(done + [step], k, s'.approvals[k])
      {
        RowLater(done, step, k, s.approvals[k]);
      }
  }

  lemma NothingGiven(done: Trace, k: Key, r: Row)
    requires r.provided == []
    ensures RowTraced(done, k, r)
  {
  }

  lemma ActInvalidations(done: Trace, s: State, authority: Authority, a: Action)
    requires Inv(s) && Traced(done, s) && Act(s, authority, a).Some?
    ensures var s', all := Act(s, authority, a).value, done + [(s.now, a)];
            forall e | 0 <= e < |all| && all[e].1.InvalidateAll? ::
              all[e].1.account in s'.invalidations && all[e].0 <= s'.invalidations[all[e].1.account]
  {
    hide RowTraced, Without, Find, Levels, RowOk, OldRowOk, Counted;
    var s', all := Act(s, authority, a).value, done + [(s.now, a)];
    forall e | 0 <= e < |all| && all[e].1.InvalidateAll?
      ensures all[e].1.account in s'.invalidations && all[e].0 <= s'.invalidations[all[e].1.account]
    {
      if e < |done| { assert all[e] == done[e]; }
    }
  }

  lemma Untouched(done: Trace, s: State, step: (int, Action))
    requires Traced(done, s) && !step.1.InvalidateAll?
    ensures Traced(done + [step], s)
  {
    hide RowTraced;
    forall k | k in s.approvals
      ensures RowTraced(done + [step], k, s.approvals[k])
    {
      RowLater(done, step, k, s.approvals[k]);
    }
  }

  lemma NextTraced(done: Trace, s: State, authority: Authority, time: int, a: Action)
    requires Inv(s) && Traced(done, s) && s.now <= time
    ensures Traced(done + [(time, a)], Next(s, authority, time, a))
  {
    hide RowTraced, Inv, Act;
    var t := s.(now := time);
    TimePasses(s, time);
    if Act(t, authority, a).Some? {
      ActRows(done, t, authority, a);
      ActInvalidations(done, t, authority, a);
    } else {
      AlwaysInvalidates(t, authority, a);
      Untouched(done, t, (time, a));
    }
  }

  lemma AlwaysInvalidates(s: State, authority: Authority, a: Action)
    requires Act(s, authority, a).None?
    ensures !a.InvalidateAll?
  {
  }

  lemma {:induction false} RunTraced(done: Trace, s: State, authority: Authority, acts: Trace, s': State)
    requires Inv(s) && Traced(done, s) && IsRun(s, authority, acts, s')
    ensures Inv(s') && Traced(done + acts, s')
    decreases |acts|
  {
    hide Inv, Next, Traced;
    if acts == [] {
      assert done + acts == done;
    } else {
      NextKeeps(s, authority, acts[0].0, acts[0].1);
      NextTraced(done, s, authority, acts[0].0, acts[0].1);
      RunTraced(done + [acts[0]], Next(s, authority, acts[0].0, acts[0].1), authority, acts[1..], s');
      assert done + [acts[0]] + acts[1..] == done + acts;
    }
  }

  // l approved k in the run, after every time its account invalidated its approvals.
  ghost predicate Consents(acts: Trace, k: Key, l: Level) {
    exists e :: && 0 <= e < |acts| && acts[e].1 == ApproveIt(k, l)
                && forall j | 0 <= j < |acts| && acts[j].1 == InvalidateAll(l.actor) :: acts[j].0 < acts[e].0
  }

  lemma ListedStands(list: seq<Level>, invalidations: map<Name, int>, provided: seq<Approval>, l: Level) returns (i: nat)
    requires Stand(list, invalidations, provided) && l in list
    ensures i < |provided| && provided[i].level == l && (l.actor in invalidations ==> invalidations[l.actor] < provided[i].time)
  {
    var at :| StandAt(at, list, invalidations, provided);
    var j :| 0 <= j < |list| && list[j] == l;
    i := at[j];
    assert i in at;
  }

  lemma GivenConsents(acts: Trace, s: State, k: Key, a: Approval)
    requires Traced(acts, s) && Given(acts, k, a) && (a.level.actor in s.invalidations ==> s.invalidations[a.level.actor] < a.time)
    ensures Consents(acts, k, a.level)
  {
    hide RowTraced;
    var e :| 0 <= e < |acts| && acts[e] == (a.time, ApproveIt(k, a.level));
    assert forall i | 0 <= i < |acts| && acts[i].1 == InvalidateAll(a.level.actor) :: acts[i].0 < acts[e].0;
  }

  lemma StandingConsents(acts: Trace, s: State, k: Key, list: seq<Level>, l: Level)
    requires Traced(acts, s) && k in s.approvals && Stand(list, s.invalidations, s.approvals[k].provided) && l in list
    ensures Consents(acts, k, l)
  {
    hide Stand, Given, Consents;
    var i := ListedStands(list, s.invalidations, s.approvals[k].provided, l);
    assert RowTraced(acts, k, s.approvals[k]);
    GivenConsents(acts, s, k, s.approvals[k].provided[i]);
  }

  /** Whatever happened before, a proposal is executed only if the chain accepts a list of levels each of
      which approved it in the run, later than its account's last invalidation; proposals inherited in
      the old format apart. */
  lemma ExecutedWithConsent(proposals: map<Key, Proposal>, rows: map<Key, OldRow>, start: int, authority: Authority,
                            acts: Trace, s: State, time: int, k: Key)
    requires rows.Keys == proposals.Keys && forall x | x in rows :: OldRowOk(rows[x], proposals[x])
    requires IsRun(Inherited(proposals, rows, start), authority, acts, s) && s.now <= time && k in s.approvals
    requires Exec(s.(now := time), k, authority).Some?
    ensures exists list: seq<Level> :: authority(k, list) && forall l | l in list :: Consents(acts, k, l)
  {
    hide IsRun, Exec, Traced, Consents, Stand;
    var s0 := Inherited(proposals, rows, start);
    assert Traced([], s0) by { NothingTraced(s0); }
    RunKeeps(s0, authority, acts, s);
    RunTraced([], s0, authority, acts, s);
    assert [] + acts == acts;
    TimePasses(s, time);
    var list := ExecSpelled(s.(now := time), k, authority);
    forall l | l in list
      ensures Consents(acts, k, l)
    {
      StandingConsents(acts, s, k, list, l);
    }
  }

  lemma NothingTraced(s: State)
    requires s.approvals == map[]
    ensures Traced([], s)
  {
  }
}
