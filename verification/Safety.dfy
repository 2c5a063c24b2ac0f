/** What holds in every state of the system, and the locking lemma.

    `Base` needs no hypothesis about certificates.  `Inv` adds what replicas keep while every
    delivered certificate names an ancestor; the locking lemma and agreement follow from it in
    either build.  For the two-step build `TwoSteps` derives both from `Base` alone. */
module Safety {
  import opened Blocks
  import opened Quorum
  import opened Replicas
  import opened Local
  import opened Protocol

  // ---- what holds in every state ----

  /** What an honest replica `st` knew when it signed `b` holding lock `l`.  It may have signed before
      the block that `b` refers to was delivered, unless that block is an ancestor of `b`. */
  predicate BallotOk(c: Config, signed: set<Ballot>, st: Replica, b: Block, l: Block) {
    && b.Node? && b in st.delivered && Height(b) <= st.vheight
    && Certified(c, signed, l) && Height(l) <= Height(st.bLock)
    && (Extends(b, l) || (c.steps == ThreeStep && Height(Ref(b)) > Height(l)))
    && (DirectChain(c.steps, b) ==> Height(LockOf(c.steps, b)) <= Height(l))
    && (QcOnBranch(b) ==> Height(Ref(b)) <= Height(st.hqc))
  }

  ghost predicate BallotsOk(c: Config, s: System) {
    forall v :: v in s.signed ==>
      && v.voter < c.n
      && (v.voter in c.honest ==>
            && v.voter in s.replicas && v in s.locks
            && BallotOk(c, s.signed, s.replicas[v.voter], v.blk, s.locks[v]))
  }

  /** An honest replica signs in order of height, and its lock never gets lower. */
  ghost predicate HistoryOk(c: Config, s: System) {
    forall v, w :: v in s.signed && w in s.signed && v.voter == w.voter && v.voter in c.honest
                   && v in s.locks && w in s.locks ==>
      && (Height(v.blk) == Height(w.blk) ==> v == w)
      && (Height(v.blk) < Height(w.blk) ==> Height(s.locks[v]) <= Height(s.locks[w]))
  }

  predicate CommitTip(c: Config, signed: set<Ballot>, t: Block, b: Block) {
    Certified(c, signed, t) && DirectChain(c.steps, t) && LockOf(c.steps, t) == b
  }

  ghost predicate Committed(c: Config, signed: set<Ballot>, b: Block) {
    b == Genesis || exists t :: CommitTip(c, signed, t, b)
  }

  /** In the three-step build a lock was itself referred to by a certified block. */
  predicate LockTip(c: Config, signed: set<Ballot>, q: Block, l: Block) {
    Certified(c, signed, q) && Ref(q) == l
  }

  ghost predicate LockSeen(c: Config, signed: set<Ballot>, l: Block) {
    c.steps == ThreeStep && l != Genesis ==> exists q :: LockTip(c, signed, q, l)
  }

  /** Votes are counted only for blocks that their voters signed. */
  predicate VotesSigned(signed: set<Ballot>, voted: map<Block, set<ReplicaID>>) {
    forall b :: b in voted && b != Genesis ==> voted[b] <= Voters(signed, b)
  }

  predicate RefKnown(c: Config, signed: set<Ballot>, b: Block) {
    Certified(c, signed, Ref(b))
  }

  ghost predicate RefsKnown(c: Config, signed: set<Ballot>, delivered: set<Block>) {
    forall b {:trigger RefKnown(c, signed, b)} :: b in delivered ==> RefKnown(c, signed, b)
  }

  /** The certificates that a replica keeps or has delivered consist of signatures, genesis excepted. */
  predicate CertsSigned(signed: set<Ballot>, st: Replica) {
    && (st.hqc != Genesis ==> st.hqcCert <= Voters(signed, st.hqc))
    && (forall b :: b in st.selfQc && b != Genesis ==> st.selfQc[b] <= Voters(signed, b))
    && (forall b :: b in st.delivered && Ref(b) != Genesis ==> Cert(b) <= Voters(signed, Ref(b)))
  }

  ghost predicate Knows(c: Config, signed: set<Ballot>, st: Replica) {
    && RefsKnown(c, signed, st.delivered) && st.hqc in st.delivered
    && Certified(c, signed, st.hqc) && Certified(c, signed, st.bLock)
    && Committed(c, signed, st.bExec)
    && LockSeen(c, signed, st.bLock)
    && VotesSigned(signed, st.voted) && CertsSigned(signed, st)
  }

  ghost predicate Base(c: Config, s: System) {
    && ValidConfig(c) && s.replicas.Keys == c.honest
    && (forall r {:trigger s.replicas[r]} :: r in s.replicas ==> Knows(c, s.signed, s.replicas[r]) && Loose(s.replicas[r]))
    && BallotsOk(c, s) && HistoryOk(c, s)
  }

  lemma VotersAreReplicas(c: Config, s: System, b: Block)
    requires BallotsOk(c, s)
    ensures Voters(s.signed, b) <= Ids(c.n)
  {
  }

  /** An honest replica signed both of two certified blocks. */
  lemma CommonVoter(c: Config, s: System, a: Block, b: Block) returns (r: ReplicaID)
    requires Base(c, s)
    requires Certified(c, s.signed, a) && Certified(c, s.signed, b) && a.Node? && b.Node?
    ensures r in c.honest && r in s.replicas
    ensures Ballot(r, a) in s.signed && Ballot(r, b) in s.signed
    ensures Ballot(r, a) in s.locks && Ballot(r, b) in s.locks
  {
    VotersAreReplicas(c, s, a);
    VotersAreReplicas(c, s, b);
    r := HonestInIntersection(c.n, c.honest, Voters(s.signed, a), Voters(s.signed, b));
  }

  lemma OneCertifiedPerHeight(c: Config, s: System, a: Block, b: Block)
    requires Base(c, s)
    requires Certified(c, s.signed, a) && Certified(c, s.signed, b)
    requires Height(a) == Height(b)
    ensures a == b
  {
    if a.Node? && b.Node? {
      var r := CommonVoter(c, s, a, b);
    }
  }

  /** Whatever a certified block refers to is certified. */
  lemma RefCertified(c: Config, s: System, b: Block)
    requires Base(c, s) && Certified(c, s.signed, b)
    ensures Certified(c, s.signed, Ref(b))
  {
    if b.Node? {
      var r := CommonVoter(c, s, b, b);
      assert RefKnown(c, s.signed, b);
    }
  }

  lemma CommittedIsCertified(c: Config, s: System, b: Block)
    requires Base(c, s) && Committed(c, s.signed, b)
    ensures Certified(c, s.signed, b)
  {
    if b != Genesis {
      var t :| CommitTip(c, s.signed, t, b);
      RefCertified(c, s, t);
      RefCertified(c, s, Ref(t));
    }
  }

  /** A delivered block whose certificate closes a direct chain commits its bottom. */
  lemma CommitOfIsCommitted(c: Config, signed: set<Ballot>, delivered: set<Block>, b: Block)
    requires RefsKnown(c, signed, delivered) && Closed(delivered) && b in delivered
    requires DirectChain(c.steps, RefIn(delivered, b))
    ensures Committed(c, signed, CommitIn(c.steps, delivered, b))
  {
    assert RefKnown(c, signed, b);
    ChainSeen(c.steps, delivered, RefIn(delivered, b));
    assert CommitTip(c, signed, Ref(b), CommitIn(c.steps, delivered, b));
  }

  // ---- what agreement rests on ----

  ghost predicate AllCommittedComparable(c: Config, signed: set<Ballot>) {
    forall a, b :: Committed(c, signed, a) && Committed(c, signed, b) ==> Comparable(a, b)
  }

  ghost predicate Safe(c: Config, s: System) {
    Base(c, s) && AllCommittedComparable(c, s.signed)
  }

  /** The exception "safety breached" is not thrown for a delivered block. */
  lemma NoBreach(c: Config, s: System, r: ReplicaID, b: Block)
    requires Safe(c, s) && r in s.replicas && b in s.replicas[r].delivered
    ensures !Breach(c.steps, s.replicas[r], b)
  {
    if DirectChain(c.steps, RefIn(s.replicas[r].delivered, b)) {
      CommitOfIsCommitted(c, s.signed, s.replicas[r].delivered, b);
    }
  }

  /** Nor for a block that a replica proposes itself. */
  lemma NoBreachOnPropose(c: Config, s: System, r: ReplicaID, b: Block)
    requires Safe(c, s) && r in s.replicas && Ref(b) == s.replicas[r].hqc
    requires ParentsDelivered(s.replicas[r].delivered, b)
    ensures !Breach(c.steps, s.replicas[r], b) && !Breach(c.steps, Introduce(s.replicas[r], b), b)
  {
    var st := s.replicas[r];
    IntroduceLoose(st, b);
    if DirectChain(c.steps, st.hqc) {
      ChainSeen(c.steps, st.delivered, st.hqc);
      ChainSeen(c.steps, st.delivered + {b}, st.hqc);
      assert CommitTip(c, s.signed, st.hqc, LockOf(c.steps, st.hqc));
    }
  }

  // ---- while certificates name ancestors ----

  ghost predicate LocalsOk(s: System) {
    forall r {:trigger s.replicas[r]} :: r in s.replicas ==> LocalInv(s.replicas[r])
  }

  /** An honest replica never signs a block that is not above its lock. */
  ghost predicate LocksBelow(c: Config, s: System) {
    forall v :: v in s.signed && v.voter in c.honest && v in s.locks ==> Height(s.locks[v]) < Height(v.blk)
  }

  ghost predicate Inv(c: Config, s: System) {
    Base(c, s) && LocalsOk(s) && LocksBelow(c, s)
  }

  /** What a certified block refers to is lower, and on its branch. */
  lemma RefOnBranch(c: Config, s: System, b: Block)
    requires Inv(c, s) && Certified(c, s.signed, b)
    ensures Certified(c, s.signed, Ref(b)) && Extends(b, Ref(b))
    ensures b.Node? ==> Height(Ref(b)) < Height(b)
  {
    RefCertified(c, s, b);
    if b.Node? {
      var r := CommonVoter(c, s, b, b);
      RefDelivered(s.replicas[r].delivered, b);
    }
  }

  /** The blocks between `LockOf(t)` and the top `t` of a direct chain leave no height free. */
  lemma CertifiedInsideChain(c: Config, s: System, t: Block, w: Block)
    requires Base(c, s) && Certified(c, s.signed, t) && DirectChain(c.steps, t)
    requires Certified(c, s.signed, w)
    requires Height(LockOf(c.steps, t)) <= Height(w) <= Height(t)
    ensures Extends(w, LockOf(c.steps, t))
  {
    RefCertified(c, s, t);
    RefCertified(c, s, Ref(t));
    if Height(w) == Height(t) {
      OneCertifiedPerHeight(c, s, w, t);
    } else if Height(w) == Height(Ref(t)) {
      OneCertifiedPerHeight(c, s, w, Ref(t));
    } else {
      OneCertifiedPerHeight(c, s, w, LockOf(c.steps, t));
    }
  }

  /** An honest replica that signed `t` and later `w` held, at `w`, a lock as high as `LockOf(t)`. */
  lemma LockAtLaterVote(c: Config, s: System, t: Block, w: Block) returns (l: Block)
    requires Inv(c, s)
    requires Certified(c, s.signed, t) && Certified(c, s.signed, w) && DirectChain(c.steps, t)
    requires Height(t) < Height(w)
    ensures Certified(c, s.signed, l) && (Extends(w, l) || Height(Ref(w)) > Height(l))
    ensures Height(LockOf(c.steps, t)) <= Height(l) < Height(w)
  {
    var r := CommonVoter(c, s, t, w);
    l := s.locks[Ballot(r, w)];
  }

  /** The locking lemma: once the top of a direct chain is certified, every certified
      block from the chain's bottom upward is on the bottom's branch. */
  lemma {:induction false} LockingLemma(c: Config, s: System, t: Block, w: Block)
    requires Inv(c, s) && Certified(c, s.signed, t) && DirectChain(c.steps, t)
    requires Certified(c, s.signed, w) && Height(w) >= Height(LockOf(c.steps, t))
    ensures Extends(w, LockOf(c.steps, t))
    decreases Height(w)
  {
    var b := LockOf(c.steps, t);
    if Height(w) <= Height(t) {
      CertifiedInsideChain(c, s, t, w);
    } else {
      var l := LockAtLaterVote(c, s, t, w);
      RefOnBranch(c, s, w);
      if Extends(w, l) {
        LockingLemma(c, s, t, l);
        ExtendsTransitive(w, l, b);
      } else {
        LockingLemma(c, s, t, Ref(w));
        ExtendsTransitive(w, Ref(w), b);
      }
    }
  }

  /** Every certified block at least as high as a committed block extends it. */
  lemma CertifiedAboveCommitted(c: Config, s: System, b: Block, w: Block)
    requires Inv(c, s) && Committed(c, s.signed, b) && Certified(c, s.signed, w)
    requires Height(w) >= Height(b)
    ensures Extends(w, b)
  {
    if b == Genesis {
      ExtendsGenesis(w);
    } else {
      var t :| CommitTip(c, s.signed, t, b);
      LockingLemma(c, s, t, w);
    }
  }

  lemma CommittedComparable(c: Config, s: System, a: Block, b: Block)
    requires Inv(c, s) && Committed(c, s.signed, a) && Committed(c, s.signed, b)
    ensures Comparable(a, b)
  {
    CommittedIsCertified(c, s, a);
    CommittedIsCertified(c, s, b);
    if Height(a) <= Height(b) {
      CertifiedAboveCommitted(c, s, a, b);
    } else {
      CertifiedAboveCommitted(c, s, b, a);
    }
  }

  lemma InvSafe(c: Config, s: System)
    requires Inv(c, s)
    ensures Safe(c, s)
  {
    forall a, b | Committed(c, s.signed, a) && Committed(c, s.signed, b) ensures Comparable(a, b) {
      CommittedComparable(c, s, a, b);
    }
  }
}
