/** When the locks let a proposal pass: in the three-step build always, in the two-step build exactly
    when the locks above the `hqc` it is built on lie on one branch that can be delivered. */
module Liveness {
  import opened Blocks
  import opened Quorum
  import opened Replicas
  import opened Protocol
  import opened Safety
  import opened Invariance

  /** Among any majority of replicas an honest one has an `hqc` as high as a given honest lock. */
  lemma MajoritySeesLock(c: Config, s: System, quorum: set<ReplicaID>, r: ReplicaID) returns (m: ReplicaID)
    requires Inv(c, s) && c.steps == ThreeStep && r in c.honest
    requires quorum <= Ids(c.n) && |quorum| >= Majority(c.n)
    ensures r in s.replicas && m in quorum && m in c.honest && m in s.replicas
    ensures Height(s.replicas[r].bLock) <= Height(s.replicas[m].hqc)
  {
    var l := s.replicas[r].bLock;
    if l == Genesis {
      m := HonestInIntersection(c.n, c.honest, quorum, quorum);
    } else {
      var q :| LockTip(c, s.signed, q, l);
      VotersAreReplicas(c, s, q);
      m := HonestInIntersection(c.n, c.honest, quorum, Voters(s.signed, q));
      assert Ballot(m, q) in s.signed && Grafted(s.replicas[m].delivered, q);
    }
  }

  /** Replica `m` has the highest `hqc` among the honest members of `quorum`. */
  predicate HighestHqc(c: Config, s: System, quorum: set<ReplicaID>, m: ReplicaID) {
    && m in quorum && m in c.honest && m in s.replicas
    && forall q :: q in quorum && q in c.honest && q in s.replicas ==>
         Height(s.replicas[q].hqc) <= Height(s.replicas[m].hqc)
  }

  /** `b` is a proposal on the branch of `h` that carries a certificate for `h`. */
  predicate OnTopOf(b: Block, h: Block) {
    b.Node? && b.qcRef == h && Extends(b.parent, h)
  }

  /** What the replica makes of `b` once `b` and its ancestors are delivered. */
  predicate Accepts(k: Steps, st: Replica, b: Block) {
    Opinion(Update(k, Having(st, Chain(b)), b), b)
  }

  /** The certified block is among them, so the replica sees it. */
  lemma AncestorsSeen(k: Steps, st: Replica, h: Block, b: Block)
    requires OnTopOf(b, h) && Height(Ref(h)) <= Height(h)
    ensures var delivered := st.delivered + Chain(b);
            && RefIn(delivered, b) == h
            && LockIn(k, delivered, b) == (if k == TwoStep then h else RefIn(delivered, h))
            && Height(RefIn(delivered, h)) <= Height(Ref(h))
  {
    ChainIsAncestors(b, h);
  }

  /** A lock below the certified block does not object, nor does that block itself. */
  lemma AboveLockAccepted(k: Steps, st: Replica, h: Block, b: Block)
    requires OnTopOf(b, h) && Height(b) > st.vheight
    requires Height(Ref(h)) <= Height(h) && (h.Node? ==> Height(Ref(h)) < Height(h))
    requires Height(st.bLock) < Height(h) || st.bLock == h
    ensures Accepts(k, st, b)
  {
    AncestorsSeen(k, st, h, b);
  }

  /** In either build, a lock that is not higher than the certified block accepts the proposal. */
  lemma LowLockAccepts(c: Config, s: System, m: ReplicaID, b: Block, r: ReplicaID)
    requires Inv(c, s) && m in s.replicas && r in s.replicas
    requires Height(s.replicas[r].bLock) <= Height(s.replicas[m].hqc)
    requires OnTopOf(b, s.replicas[m].hqc) && Height(b) > s.replicas[r].vheight
    ensures Accepts(c.steps, s.replicas[r], b)
  {
    var h, st := s.replicas[m].hqc, s.replicas[r];
    RefOnBranch(c, s, h);
    if Height(h) == Height(st.bLock) {
      OneCertifiedPerHeight(c, s, h, st.bLock);
    }
    AboveLockAccepted(c.steps, st, h, b);
  }

  /** A proposal on the branch of that `hqc`, carrying its certificate and higher than what
      a replica has voted for, is accepted by that replica. */
  lemma ProposalAccepted(c: Config, s: System, quorum: set<ReplicaID>, m: ReplicaID, b: Block, r: ReplicaID)
    requires Inv(c, s) && c.steps == ThreeStep && r in c.honest && r in s.replicas
    requires quorum <= Ids(c.n) && |quorum| >= Majority(c.n) && HighestHqc(c, s, quorum, m)
    requires OnTopOf(b, s.replicas[m].hqc) && Height(b) > s.replicas[r].vheight
    ensures Accepts(c.steps, s.replicas[r], b)
  {
    var q := MajoritySeesLock(c, s, quorum, r);
    LowLockAccepts(c, s, m, b, r);
  }

  // ---- certificates that verify ----

  /** A certificate with signers `cert` verifies for `h`. */
  predicate CertFor(c: Config, signed: set<Ballot>, h: Block, cert: set<ReplicaID>) {
    h == Genesis || (|cert| >= Majority(c.n) && cert <= Voters(signed, h))
  }

  /** The certificate of the replica's `hqc` is complete. */
  predicate Presentable(c: Config, st: Replica) {
    st.hqc == Genesis || |st.hqcCert| >= Majority(c.n)
  }

  /** In every state of every run, exactly the complete certificates of honest replicas verify. */
  lemma PresentableVerifies(c: Config, s: System, r: ReplicaID)
    requires Base(c, s) && r in s.replicas
    ensures CertFor(c, s.signed, s.replicas[r].hqc, s.replicas[r].hqcCert) <==> Presentable(c, s.replicas[r])
  {
    assert Knows(c, s.signed, s.replicas[r]);
  }

  /** What an honest replica proposes verifies at other replicas if and only if its certificate is
      complete, whatever certificates name. */
  lemma OwnProposalVerifies(c: Config, s: System, r: ReplicaID, cmds: seq<Command>, extra: seq<Byte>)
    requires ValidConfig(c) && Reachable(c, s) && r in c.honest
    ensures r in s.replicas
    ensures var st := s.replicas[r];
            CertOk(c, s.signed, NewBlock(st, [st.hqcTail], cmds, extra)) <==> Presentable(c, st)
  {
    var run :| Run(c, run) && run[|run| - 1] == s;
    RunBase(c, run, |run| - 1);
    PresentableVerifies(c, s, r);
  }

  // ---- such a proposal exists ----

  /** `count` blocks on top of `base`, each carrying a certificate for `h`. */
  function Tower(base: Block, h: Block, cmds: seq<Command>, cert: set<ReplicaID>, count: nat): Block {
    if count == 0 then base else Node(Tower(base, h, cmds, cert, count - 1), [], cmds, h, cert, [])
  }

  /** Every block from `h` up to `b` may be delivered once `h` is. */
  predicate DeliverableFrom(c: Config, signed: set<Ballot>, b: Block, h: Block) {
    b == h || (b.Node? && b.uncles == [] && CertOk(c, signed, b) && QcOnBranch(b)
               && DeliverableFrom(c, signed, b.parent, h))
  }

  lemma {:induction false} TowerDeliverable(c: Config, signed: set<Ballot>, base: Block, h: Block,
                                            cmds: seq<Command>, cert: set<ReplicaID>, count: nat)
    requires CertFor(c, signed, h, cert) && Extends(base, h) && DeliverableFrom(c, signed, base, h)
    ensures var b := Tower(base, h, cmds, cert, count);
            && Extends(b, base) && Extends(b, h) && Height(b) == Height(base) + count
            && DeliverableFrom(c, signed, b, h)
  {
    if count > 0 {
      TowerDeliverable(c, signed, base, h, cmds, cert, count - 1);
    }
  }

  /** A tower contains no block above its base that carries other commands. */
  lemma {:induction false} TowerAvoids(h: Block, cmds: seq<Command>, cert: set<ReplicaID>, count: nat, l: Block)
    requires l.Node? && l.cmds != cmds && Height(l) > Height(h)
    ensures !Extends(Tower(h, h, cmds, cert, count), l)
  {
    if count == 0 {
      if Extends(h, l) {
        ExtendsHeight(h, l);
      }
    } else {
      TowerAvoids(h, cmds, cert, count - 1, l);
    }
  }

  /** What lies between a deliverable block and `h` is deliverable. */
  lemma {:induction false} DeliverableBetween(c: Config, signed: set<Ballot>, b: Block, l: Block, h: Block)
    requires DeliverableFrom(c, signed, b, h) && Extends(b, l) && Height(l) >= Height(h)
    ensures DeliverableFrom(c, signed, l, h) && Extends(l, h)
  {
    if b == h {
      ExtendsHeight(b, l);
    } else if b == l {
      DeliverableExtends(c, signed, b, h);
    } else {
      DeliverableBetween(c, signed, b.parent, l, h);
    }
  }

  lemma {:induction false} DeliverableExtends(c: Config, signed: set<Ballot>, b: Block, h: Block)
    requires DeliverableFrom(c, signed, b, h)
    ensures Extends(b, h)
  {
    if b != h {
      DeliverableExtends(c, signed, b.parent, h);
    }
  }

  lemma {:induction false} HighestMember(s: System, among: set<ReplicaID>) returns (m: ReplicaID)
    requires among != {} && among <= s.replicas.Keys
    ensures m in among
    ensures forall q :: q in among ==> Height(s.replicas[q].hqc) <= Height(s.replicas[m].hqc)
    decreases among
  {
    var x :| x in among;
    if among == {x} {
      m := x;
    } else {
      m := HighestMember(s, among - {x});
      if Height(s.replicas[x].hqc) > Height(s.replicas[m].hqc) {
        m := x;
      }
      assert forall q :: q in among ==> q == x || q in among - {x};
    }
  }

  lemma {:induction false} HeightBound(replicas: map<ReplicaID, Replica>, ids: set<ReplicaID>) returns (top: nat)
    requires ids <= replicas.Keys
    ensures forall r :: r in ids ==> replicas[r].vheight <= top
    decreases ids
  {
    if ids == {} {
      top := 0;
    } else {
      var x :| x in ids;
      top := HeightBound(replicas, ids - {x});
      top := if replicas[x].vheight > top then replicas[x].vheight else top;
      assert forall q :: q in ids ==> q == x || q in ids - {x};
    }
  }

  /** A proposal on the `hqc` of the replica in state `st`, with the certificate it holds, that every
      replica having that block can deliver. */
  predicate Candidate(c: Config, signed: set<Ballot>, st: Replica, b: Block) {
    OnTopOf(b, st.hqc) && Cert(b) == st.hqcCert && DeliverableFrom(c, signed, b, st.hqc)
  }

  lemma CandidateVerifies(c: Config, signed: set<Ballot>, st: Replica, b: Block)
    requires Candidate(c, signed, st, b)
    ensures CertFor(c, signed, st.hqc, st.hqcCert)
  {
    assert b != b.qcRef;
  }

  lemma NoCandidate(c: Config, signed: set<Ballot>, st: Replica)
    requires !CertFor(c, signed, st.hqc, st.hqcCert)
    ensures forall b :: !Candidate(c, signed, st, b)
  {
    forall b ensures !Candidate(c, signed, st, b) {
      if Candidate(c, signed, st, b) {
        CandidateVerifies(c, signed, st, b);
      }
    }
  }

  lemma CandidateExists(c: Config, signed: set<Ballot>, st: Replica, base: Block, cmds: seq<Command>, top: nat)
    returns (b: Block)
    requires CertFor(c, signed, st.hqc, st.hqcCert)
    requires Extends(base, st.hqc) && DeliverableFrom(c, signed, base, st.hqc)
    ensures Candidate(c, signed, st, b) && Extends(b, base) && Height(b) > top
    ensures b == Tower(base, st.hqc, cmds, st.hqcCert, top + 1)
  {
    b := Tower(base, st.hqc, cmds, st.hqcCert, top + 1);
    TowerDeliverable(c, signed, base, st.hqc, cmds, st.hqcCert, top);
    TowerDeliverable(c, signed, base, st.hqc, cmds, st.hqcCert, top + 1);
  }

  ghost predicate AcceptsAll(c: Config, s: System, m: ReplicaID, r: ReplicaID)
    requires m in s.replicas && r in s.replicas
  {
    forall b {:trigger Candidate(c, s.signed, s.replicas[m], b)} ::
      Candidate(c, s.signed, s.replicas[m], b) && Height(b) > s.replicas[r].vheight ==>
        Accepts(c.steps, s.replicas[r], b)
  }

  /** A lock above the `hqc` of `m` rejects some candidate. */
  lemma HighLockObjects(c: Config, s: System, m: ReplicaID, r: ReplicaID)
    requires m in s.replicas && r in s.replicas && Height(Ref(s.replicas[m].hqc)) <= Height(s.replicas[m].hqc)
    requires CertFor(c, s.signed, s.replicas[m].hqc, s.replicas[m].hqcCert)
    requires Height(s.replicas[r].bLock) > Height(s.replicas[m].hqc)
    ensures !AcceptsAll(c, s, m, r)
  {
    var h, st := s.replicas[m].hqc, s.replicas[r];
    var cmds := [0] + st.bLock.cmds;
    var b := CandidateExists(c, s.signed, s.replicas[m], h, cmds, st.vheight);
    TowerAvoids(h, cmds, s.replicas[m].hqcCert, st.vheight + 1, st.bLock);
    HighLockRejects(c.steps, st, h, b);
  }

  /** In either build: a replica accepts every new proposal that replica `m` can build on its `hqc` if
      and only if its own lock is not higher, or `m` can build none for want of a complete certificate. */
  lemma AcceptedIffLockLow(c: Config, s: System, m: ReplicaID, r: ReplicaID)
    requires ValidConfig(c) && Reachable(c, s) && AncestryOk(s) && m in c.honest && r in c.honest
    ensures m in s.replicas && r in s.replicas
    ensures AcceptsAll(c, s, m, r) <==>
              Height(s.replicas[r].bLock) <= Height(s.replicas[m].hqc) || !Presentable(c, s.replicas[m])
  {
    ReachableInv(c, s);
    PresentableVerifies(c, s, m);
    var h, st := s.replicas[m].hqc, s.replicas[r];
    if Height(st.bLock) <= Height(h) {
      forall b | Candidate(c, s.signed, s.replicas[m], b) && Height(b) > st.vheight
        ensures Accepts(c.steps, st, b)
      {
        LowLockAccepts(c, s, m, b, r);
      }
    } else if Presentable(c, s.replicas[m]) {
      RefOnBranch(c, s, h);
      HighLockObjects(c, s, m, r);
    } else {
      NoCandidate(c, s.signed, s.replicas[m]);
    }
  }

  lemma HighLockRejects(k: Steps, st: Replica, h: Block, b: Block)
    requires OnTopOf(b, h) && Height(Ref(h)) <= Height(h) < Height(st.bLock) && !Extends(b, st.bLock)
    ensures !Accepts(k, st, b)
  {
    AncestorsSeen(k, st, h, b);
  }

  /** A lock on the branch of the proposal does not object. */
  lemma OnLockAccepted(k: Steps, st: Replica, h: Block, b: Block)
    requires OnTopOf(b, h) && Height(Ref(h)) <= Height(h) < Height(st.bLock)
    requires Extends(b, st.bLock) && Height(b) > st.vheight
    ensures Accepts(k, st, b)
  {
    AncestorsSeen(k, st, h, b);
  }

  // ---- when one proposal suits everybody ----

  predicate AcceptedBy(c: Config, s: System, among: set<ReplicaID>, b: Block)
    requires among <= s.replicas.Keys
  {
    forall r :: r in among ==> Accepts(c.steps, s.replicas[r], b)
  }

  /** A lock that stands in the way of proposals on `h`. */
  predicate HighLock(s: System, h: Block, r: ReplicaID) {
    r in s.replicas && Height(s.replicas[r].bLock) > Height(h)
  }

  /** The locks above `h` lie on one branch that can be delivered from `h`. */
  predicate LocksOnOneBranch(c: Config, s: System, among: set<ReplicaID>, h: Block)
    requires among <= s.replicas.Keys
  {
    && (forall r :: r in among && HighLock(s, h, r) ==> DeliverableFrom(c, s.signed, s.replicas[r].bLock, h))
    && (forall r, q :: r in among && q in among && HighLock(s, h, r) && HighLock(s, h, q) ==>
          Comparable(s.replicas[r].bLock, s.replicas[q].bLock))
  }

  /** A block that all those locks lie below. */
  lemma {:induction false} TopLock(c: Config, s: System, among: set<ReplicaID>, h: Block) returns (tip: Block)
    requires among <= s.replicas.Keys && LocksOnOneBranch(c, s, among, h)
    ensures DeliverableFrom(c, s.signed, tip, h)
    ensures forall r :: r in among && HighLock(s, h, r) ==> Extends(tip, s.replicas[r].bLock)
    ensures tip == h || exists r :: r in among && HighLock(s, h, r) && tip == s.replicas[r].bLock
    decreases among
  {
    if r :| r in among && HighLock(s, h, r) {
      var rest := TopLock(c, s, among - {r}, h);
      var l := s.replicas[r].bLock;
      tip := if rest == h || Extends(l, rest) then l else rest;
      forall q | q in among && HighLock(s, h, q) ensures Extends(tip, s.replicas[q].bLock) {
        if q != r {
          assert q in among - {r} && Extends(rest, s.replicas[q].bLock);
          if tip != rest {
            if rest == h {
              ExtendsHeight(h, s.replicas[q].bLock);
            } else {
              ExtendsTransitive(l, rest, s.replicas[q].bLock);
            }
          }
        }
      }
    } else {
      tip := h;
    }
  }

  ghost predicate HasCommonProposal(c: Config, s: System, m: ReplicaID, among: set<ReplicaID>)
    requires m in s.replicas && among <= s.replicas.Keys
  {
    exists b {:trigger Candidate(c, s.signed, s.replicas[m], b)} ::
      Candidate(c, s.signed, s.replicas[m], b) && AcceptedBy(c, s, among, b)
  }

  /** In either build: replica `m` can build a proposal on its `hqc` that all of `among` accept if and
      only if its certificate is complete and their locks above its `hqc` lie on one branch that can
      be delivered from it. */
  lemma AcceptableIffLocksOnOneBranch(c: Config, s: System, m: ReplicaID, among: set<ReplicaID>)
    requires ValidConfig(c) && Reachable(c, s) && AncestryOk(s) && m in c.honest && among <= c.honest
    ensures s.replicas.Keys == c.honest
    ensures HasCommonProposal(c, s, m, among) <==>
              Presentable(c, s.replicas[m]) && LocksOnOneBranch(c, s, among, s.replicas[m].hqc)
  {
    ReachableInv(c, s);
    PresentableVerifies(c, s, m);
    var h := s.replicas[m].hqc;
    RefOnBranch(c, s, h);
    if Presentable(c, s.replicas[m]) && LocksOnOneBranch(c, s, among, h) {
      CommonProposal(c, s, m, among);
    }
    forall b | Candidate(c, s.signed, s.replicas[m], b) && AcceptedBy(c, s, among, b)
      ensures Presentable(c, s.replicas[m]) && LocksOnOneBranch(c, s, among, h)
    {
      CandidateVerifies(c, s.signed, s.replicas[m], b);
      AcceptedLocksOnOneBranch(c, s, among, s.replicas[m], b);
    }
  }

  lemma CommonProposal(c: Config, s: System, m: ReplicaID, among: set<ReplicaID>)
    requires Inv(c, s) && m in s.replicas && among <= s.replicas.Keys
    requires Presentable(c, s.replicas[m]) && LocksOnOneBranch(c, s, among, s.replicas[m].hqc)
    ensures HasCommonProposal(c, s, m, among)
  {
    var h := s.replicas[m].hqc;
    PresentableVerifies(c, s, m);
    RefOnBranch(c, s, h);
    var tip := TopLock(c, s, among, h);
    var top := HeightBound(s.replicas, s.replicas.Keys);
    DeliverableExtends(c, s.signed, tip, h);
    var b := CandidateExists(c, s.signed, s.replicas[m], tip, [], top);
    forall r | r in among ensures Accepts(c.steps, s.replicas[r], b) {
      if HighLock(s, h, r) {
        ExtendsTransitive(b, tip, s.replicas[r].bLock);
        OnLockAccepted(c.steps, s.replicas[r], h, b);
      } else {
        LowLockAccepts(c, s, m, b, r);
      }
    }
    assert AcceptedBy(c, s, among, b);
  }

  lemma AcceptedLocksOnOneBranch(c: Config, s: System, among: set<ReplicaID>, st: Replica, b: Block)
    requires among <= s.replicas.Keys && Height(Ref(st.hqc)) <= Height(st.hqc)
    requires Candidate(c, s.signed, st, b) && AcceptedBy(c, s, among, b)
    ensures LocksOnOneBranch(c, s, among, st.hqc)
  {
    var h := st.hqc;
    forall r | r in among && HighLock(s, h, r)
      ensures Extends(b, s.replicas[r].bLock) && DeliverableFrom(c, s.signed, s.replicas[r].bLock, h)
    {
      if !Extends(b, s.replicas[r].bLock) {
        HighLockRejects(c.steps, s.replicas[r], h, b);
      }
      DeliverableBetween(c, s.signed, b, s.replicas[r].bLock, h);
    }
    forall r, q | r in among && q in among && HighLock(s, h, r) && HighLock(s, h, q)
      ensures Comparable(s.replicas[r].bLock, s.replicas[q].bLock)
    {
      AncestorsComparable(b, s.replicas[r].bLock, s.replicas[q].bLock);
    }
  }

  /** Three-step build: the replica with the highest `hqc` among the honest members of a majority can
      build a proposal on it that every honest replica accepts if and only if its certificate is
      complete. */
  lemma HighestProposes(c: Config, s: System, quorum: set<ReplicaID>, m: ReplicaID)
    requires ValidConfig(c) && Reachable(c, s) && AncestryOk(s) && c.steps == ThreeStep
    requires quorum <= Ids(c.n) && |quorum| >= Majority(c.n) && HighestHqc(c, s, quorum, m)
    ensures s.replicas.Keys == c.honest
    ensures HasCommonProposal(c, s, m, c.honest) <==> Presentable(c, s.replicas[m])
  {
    ReachableInv(c, s);
    AcceptableIffLocksOnOneBranch(c, s, m, c.honest);
    forall r | r in c.honest ensures !HighLock(s, s.replicas[m].hqc, r) {
      var q := MajoritySeesLock(c, s, quorum, r);
    }
  }

  /** In every reachable state whose delivered certificates name ancestors, some honest member of any
      majority has the highest `hqc` of its honest members; if the certificate it holds is complete it
      can build a proposal that every honest replica accepts. */
  lemma AcceptingProposalExists(c: Config, s: System, quorum: set<ReplicaID>) returns (m: ReplicaID)
    requires ValidConfig(c) && Reachable(c, s) && AncestryOk(s) && c.steps == ThreeStep
    requires quorum <= Ids(c.n) && |quorum| >= Majority(c.n)
    ensures HighestHqc(c, s, quorum, m) && s.replicas.Keys == c.honest
    ensures HasCommonProposal(c, s, m, c.honest) <==> Presentable(c, s.replicas[m])
  {
    ReachableInv(c, s);
    var someone := HonestInIntersection(c.n, c.honest, quorum, quorum);
    m := HighestMember(s, quorum * c.honest);
    HighestProposes(c, s, quorum, m);
  }
}
