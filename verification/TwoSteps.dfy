/** The two-step build locks on the certified block itself, so a replica votes only on the branch
    of its lock.  That gives the locking lemma without any hypothesis about certificates. */
module TwoSteps {
  import opened Blocks
  import opened Quorum
  import opened Replicas
  import opened Protocol
  import opened Safety

  /** The voters for `w` that were not yet locked on it. */
  function EarlyVoters(c: Config, s: System, w: Block): set<ReplicaID> {
    set r | r in Voters(s.signed, w) && (r in c.honest && Ballot(r, w) in s.locks ==> s.locks[Ballot(r, w)] != w)
  }

  predicate EarlyQuorum(c: Config, s: System, w: Block) {
    w.Node? && Certified(c, s.signed, w) ==> |EarlyVoters(c, s, w)| >= Majority(c.n)
  }

  /** Every certificate was completed by voters that were not yet locked on its block. */
  ghost predicate EarlyOk(c: Config, s: System) {
    forall w {:trigger EarlyQuorum(c, s, w)} :: EarlyQuorum(c, s, w)
  }

  ghost predicate TwoStepInv(c: Config, s: System) {
    Base(c, s) && c.steps == TwoStep && EarlyOk(c, s)
  }

  /** An honest replica that signed the top `t` of a chain held, when it signed `w` later, a lock on the
      branch of `w`, strictly below it and as high as the bottom of the chain. */
  lemma LockBelowLaterVote(c: Config, s: System, t: Block, w: Block) returns (l: Block)
    requires TwoStepInv(c, s)
    requires Certified(c, s.signed, t) && Certified(c, s.signed, w) && DirectChain(TwoStep, t)
    requires Height(t) < Height(w)
    ensures Certified(c, s.signed, l) && Extends(w, l) && l != w
    ensures Height(Ref(t)) <= Height(l)
  {
    VotersAreReplicas(c, s, t);
    VotersAreReplicas(c, s, w);
    assert EarlyQuorum(c, s, w);
    var r := HonestInIntersection(c.n, c.honest, Voters(s.signed, t), EarlyVoters(c, s, w));
    assert Ballot(r, t) in s.signed && Ballot(r, w) in s.signed;
    l := s.locks[Ballot(r, w)];
  }

  /** The locking lemma of the two-step build. */
  lemma {:induction false} TwoStepLocking(c: Config, s: System, t: Block, w: Block)
    requires TwoStepInv(c, s) && Certified(c, s.signed, t) && DirectChain(TwoStep, t)
    requires Certified(c, s.signed, w) && Height(w) >= Height(Ref(t))
    ensures Extends(w, Ref(t))
    decreases Height(w)
  {
    if Height(w) <= Height(t) {
      CertifiedInsideChain(c, s, t, w);
    } else {
      var l := LockBelowLaterVote(c, s, t, w);
      ExtendsHeight(w, l);
      TwoStepLocking(c, s, t, l);
      ExtendsTransitive(w, l, Ref(t));
    }
  }

  lemma TwoStepCommittedComparable(c: Config, s: System, a: Block, b: Block)
    requires TwoStepInv(c, s) && Committed(c, s.signed, a) && Committed(c, s.signed, b)
    requires Height(a) <= Height(b)
    ensures Extends(b, a)
  {
    CommittedIsCertified(c, s, b);
    if a == Genesis {
      ExtendsGenesis(b);
    } else {
      var t :| CommitTip(c, s.signed, t, a);
      TwoStepLocking(c, s, t, b);
    }
  }

  lemma TwoStepSafe(c: Config, s: System)
    requires TwoStepInv(c, s)
    ensures Safe(c, s)
  {
    forall a, b | Committed(c, s.signed, a) && Committed(c, s.signed, b) ensures Comparable(a, b) {
      if Height(a) <= Height(b) {
        TwoStepCommittedComparable(c, s, a, b);
      } else {
        TwoStepCommittedComparable(c, s, b, a);
      }
    }
  }
}
