/** eosio.msig.cpp with its rows updated in place.  Each method's result ok tells whether every check
    passed; if not, nothing has changed. */
module MultisigContract {
  import opened Common
  import opened Multisig

  // find: the first position of the level.
  method FindLevel(ls: seq<Level>, l: Level) returns (i: nat)
    ensures i == Find(ls, l)
  {
    i := 0;
    while i < |ls| && ls[i] != l
      invariant i <= |ls| && Find(ls, l) == i + Find(ls[i..], l)
    {
      assert ls[i..][1..] == ls[i + 1..];
      i := i + 1;
    }
  }

  class Proposals {
    const authority: Authority
    var proposals: map<Key, Proposal>
    var approvals: map<Key, Row>
    var oldApprovals: map<Key, OldRow>
    var invalidations: map<Name, int>
    var now: int

    ghost function Model(): State
      reads this
    {
      State(proposals, approvals, oldApprovals, invalidations, now)
    }

    constructor (authority: Authority, oldProposals: map<Key, Proposal>, oldApprovals: map<Key, OldRow>, now: int)
      ensures Model() == State(oldProposals, map[], oldApprovals, map[], now) && this.authority == authority
    {
      this.authority, proposals, approvals := authority, oldProposals, map[];
      this.oldApprovals, invalidations, this.now := oldApprovals, map[], now;
    }

    method Propose(k: Key, requested: seq<Level>, expiration: int) returns (ok: bool)
      modifies `proposals, `approvals
      ensures ok <==> Multisig.Propose(old(Model()), k, requested, expiration, authority).Some?
      ensures Model() == Next(old(Model()), authority, now, ProposeIt(k, requested, expiration))
    {
      if expiration < now / 1000000 || k in proposals || !authority(k, requested) || k in approvals {
        return false;
      }
      proposals := proposals[k := Proposal(expiration, requested)];
      var asked: seq<Approval> := [];
      for i := 0 to |requested|
        invariant asked == Requests(requested)[..i]
      {
        asked := asked + [Approval(requested[i], 0)];
      }
      assert asked == Requests(requested);
      approvals := approvals[k := Row(asked, [])];
      ok := true;
    }

    method Approve(k: Key, l: Level) returns (ok: bool)
      modifies `approvals, `oldApprovals
      ensures ok <==> Multisig.Approve(old(Model()), k, l).Some?
      ensures Model() == Next(old(Model()), authority, now, ApproveIt(k, l))
    {
      hide Levels, Find;
      if k in approvals {
        var r := approvals[k];
        var i := FindLevel(Levels(r.requested), l);
        if i == |r.requested| {
          return false;
        }
        approvals := approvals[k := Row(Without(r.requested, i), r.provided + [Approval(l, now)])];
      } else {
        if k !in oldApprovals {
          return false;
        }
        var r := oldApprovals[k];
        var i := FindLevel(r.requested, l);
        if i == |r.requested| {
          return false;
        }
        oldApprovals := oldApprovals[k := OldRow(Without(r.requested, i), r.provided + [l])];
      }
      ok := true;
    }

    method Unapprove(k: Key, l: Level) returns (ok: bool)
      modifies `approvals, `oldApprovals
      ensures ok <==> Multisig.Unapprove(old(Model()), k, l).Some?
      ensures Model() == Next(old(Model()), authority, now, UnapproveIt(k, l))
    {
      hide Levels, Find;
      if k in approvals {
        var r := approvals[k];
        var i := FindLevel(Levels(r.provided), l);
        if i == |r.provided| {
          return false;
        }
        approvals := approvals[k := Row(r.requested + [Approval(l, now)], Without(r.provided, i))];
      } else {
        if k !in oldApprovals {
          return false;
        }
        var r := oldApprovals[k];
        var i := FindLevel(r.provided, l);
        if i == |r.provided| {
          return false;
        }
        oldApprovals := oldApprovals[k := OldRow(r.requested + [l], Without(r.provided, i))];
      }
      ok := true;
    }

    method Cancel(k: Key, canceler: Name) returns (ok: bool)
      modifies `proposals, `approvals, `oldApprovals
      ensures ok <==> Multisig.Cancel(old(Model()), k, canceler).Some?
      ensures Model() == Next(old(Model()), authority, now, CancelIt(k, canceler))
    {
      if k !in proposals || (canceler != k.0 && now / 1000000 <= proposals[k].expiration) {
        return false;
      }
      if k in approvals {
        approvals := approvals - {k};
      } else if k in oldApprovals {
        oldApprovals := oldApprovals - {k};
      } else {
        return false;
      }
      proposals := proposals - {k};
      ok := true;
    }

    // The loops of exec that gather the approvals which still stand.
    method GatherStanding(provided: seq<Approval>) returns (standing: seq<Level>)
      ensures standing == Standing(invalidations, provided)
    {
      standing := [];
      for i := 0 to |provided|
        invariant standing == Standing(invalidations, provided[..i])
      {
        var p := provided[i];
        assert provided[..i + 1][..i] == provided[..i];
        if p.level.actor !in invalidations || invalidations[p.level.actor] < p.time {
          standing := standing + [p.level];
        }
      }
      assert provided[..|provided|] == provided;
    }

    method GatherOldStanding(provided: seq<Level>) returns (standing: seq<Level>)
      ensures standing == OldStanding(invalidations, provided)
    {
      standing := [];
      for i := 0 to |provided|
        invariant standing == OldStanding(invalidations, provided[..i])
      {
        assert provided[..i + 1][..i] == provided[..i];
        if provided[i].actor !in invalidations {
          standing := standing + [provided[i]];
        }
      }
      assert provided[..|provided|] == provided;
    }

    method Exec(k: Key) returns (ok: bool)
      modifies `proposals, `approvals, `oldApprovals
      ensures ok <==> Multisig.Exec(old(Model()), k, authority).Some?
      ensures Model() == Next(old(Model()), authority, now, ExecIt(k))
    {
      if k !in proposals || proposals[k].expiration < now / 1000000 {
        return false;
      }
      var levels;
      if k in approvals {
        levels := GatherStanding(approvals[k].provided);
      } else if k in oldApprovals {
        levels := GatherOldStanding(oldApprovals[k].provided);
      } else {
        return false;
      }
      if !authority(k, levels) {
        return false;
      }
      if k in approvals {
        approvals := approvals - {k};
      } else {
        oldApprovals := oldApprovals - {k};
      }
      proposals := proposals - {k};
      assert approvals == old(approvals) - {k};
      ok := true;
    }

    method Invalidate(account: Name)
      modifies `invalidations
      ensures Model() == Next(old(Model()), authority, now, InvalidateAll(account))
    {
      invalidations := invalidations[account := now];
    }

    /** Every action, at its time, is one step of the proposal machine. */
    method Perform(time: int, a: Action) returns (ok: bool)
      modifies this
      ensures ok <==> Act(old(Model()).(now := time), authority, a).Some?
      ensures Model() == Next(old(Model()), authority, time, a)
    {
      hide Multisig.Propose, Multisig.Approve, Multisig.Unapprove, Multisig.Cancel, Multisig.Exec;
      now := time;
      ok := true;
      match a {
        case ProposeIt(k, requested, expiration) => ok := Propose(k, requested, expiration);
        case ApproveIt(k, l) => ok := Approve(k, l);
        case UnapproveIt(k, l) => ok := Unapprove(k, l);
        case CancelIt(k, canceler) => ok := Cancel(k, canceler);
        case ExecIt(k) => ok := Exec(k);
        case InvalidateAll(account) => Invalidate(account);
      }
    }
  }
}
