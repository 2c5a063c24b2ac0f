/** Two things that the protocol does not promise, shown by runs in which every certificate names an
    ancestor: with two steps the locks of honest replicas can rule out every proposal that a majority
    can build, and proposing a block that already has votes spoils its certificate. */
module Limits {
  import opened Blocks
  import opened Quorum
  import opened Replicas
  import opened Protocol
  import opened Liveness
  import opened Runs

  /** Four replicas, the last of them faulty. */
  function FourReplicas(k: Steps): Config {
    Config(4, {0, 1, 2}, k)
  }

  lemma FourReplicasValid(k: Steps)
    ensures ValidConfig(FourReplicas(k)) && 3 in Ids(4) - FourReplicas(k).honest
  {
    assert |{0, 1, 2}| == 3;
  }

  // ---- two locks in the two-step build ----

  function L1(): Block { Node(Genesis, [], [1], Genesis, {}, []) }
  function K1(): Block { Node(L1(), [], [], L1(), {0, 2, 3}, []) }

  function D1(): Block { Node(Genesis, [], [2], Genesis, {}, []) }
  function L2(): Block { Node(D1(), [], [], Genesis, {}, []) }
  function K2(): Block { Node(L2(), [], [], L2(), {1, 2, 3}, []) }

  function AllBlocks(): set<Block> {
    {Genesis, L1(), K1(), D1(), L2(), K2()}
  }

  lemma LocksApart()
    ensures Height(L1()) == 1 && Height(L2()) == 2 && Height(D1()) == 1 && Height(K1()) == 2 && Height(K2()) == 3
    ensures Extends(L1(), Genesis) && Extends(L2(), Genesis) && Extends(D1(), Genesis)
    ensures !Comparable(L1(), L2())
    ensures QcOnBranch(L1()) && QcOnBranch(L2()) && QcOnBranch(D1()) && QcOnBranch(K1()) && QcOnBranch(K2())
  {
    assert !Extends(L1(), L2());
  }

  /** Replicas 0, 2 and 3 sign `L1`. */
  lemma VoteForL1() returns (s: System)
    ensures Reachable(FourReplicas(TwoStep), s) && s.replicas.Keys == {0, 1, 2}
    ensures {Ballot(0, L1()), Ballot(2, L1()), Ballot(3, L1()), Ballot(3, L2())} <= s.signed
    ensures Stands(s.replicas[0], Genesis, Genesis, Genesis, 1) && s.replicas[0].delivered == {Genesis, L1()}
    ensures s.replicas[1] == InitReplica(4)
    ensures Stands(s.replicas[2], Genesis, Genesis, Genesis, 1) && s.replicas[2].delivered == {Genesis, L1()}
  {
    var c := FourReplicas(TwoStep);
    LocksApart();
    FourReplicasValid(TwoStep);
    var s0 := Start(c);
    var s1 := StepFaultySign(c, s0, 3, L1());
    var s2 := StepFaultySign(c, s1, 3, L2());
    TakesFresh(TwoStep, s2.replicas[0], L1(), 0);
    var s3 := StepAccept(c, s2, 0, L1(), Genesis, Genesis, Genesis);
    s := StepAccept(c, s3, 2, L1(), Genesis, Genesis, Genesis);
  }

  /** Replica `r` delivers `D1` and votes for `L2`. */
  lemma VoteForL2(s: System, r: ReplicaID, vheight: nat) returns (s': System)
    requires Reachable(FourReplicas(TwoStep), s) && r in {0, 1, 2} && r in s.replicas && vheight <= 1
    requires Stands(s.replicas[r], Genesis, Genesis, Genesis, vheight) && Genesis in s.replicas[r].delivered
    ensures Reachable(FourReplicas(TwoStep), s') && OthersKept(s, s', r) && s'.signed == s.signed + {Ballot(r, L2())}
    ensures r in s'.replicas && Stands(s'.replicas[r], Genesis, Genesis, Genesis, 2)
    ensures s'.replicas[r].delivered == s.replicas[r].delivered + {D1(), L2()}
  {
    var c := FourReplicas(TwoStep);
    LocksApart();
    var s1 := StepDeliver(c, s, r, D1());
    TakesFresh(TwoStep, s1.replicas[r], L2(), vheight);
    s' := StepAccept(c, s1, r, L2(), Genesis, Genesis, Genesis);
  }

  lemma BothCertified(signed: set<Ballot>)
    requires {Ballot(0, L1()), Ballot(2, L1()), Ballot(3, L1())} <= signed
    requires {Ballot(1, L2()), Ballot(2, L2()), Ballot(3, L2())} <= signed
    ensures CertOk(FourReplicas(TwoStep), signed, K1()) && CertOk(FourReplicas(TwoStep), signed, K2())
  {
    assert |Cert(K1())| == 3 && |Cert(K2())| == 3;
  }

  lemma VoteForBoth() returns (s: System)
    ensures Reachable(FourReplicas(TwoStep), s) && s.replicas.Keys == {0, 1, 2}
    ensures Stands(s.replicas[0], Genesis, Genesis, Genesis, 1) && s.replicas[0].delivered == {Genesis, L1()}
    ensures Stands(s.replicas[1], Genesis, Genesis, Genesis, 2) && s.replicas[1].delivered == {Genesis, D1(), L2()}
    ensures Stands(s.replicas[2], Genesis, Genesis, Genesis, 2) && s.replicas[2].delivered <= AllBlocks()
    ensures {Ballot(0, L1()), Ballot(2, L1()), Ballot(3, L1())} <= s.signed
    ensures {Ballot(1, L2()), Ballot(2, L2()), Ballot(3, L2())} <= s.signed
  {
    var s0 := VoteForL1();
    var s1 := VoteForL2(s0, 2, 1);
    s := VoteForL2(s1, 1, 0);
  }

  /** Replica 0 locks on `L1` and replica 1 on `L2`; neither knows the other certificate. */
  lemma TwoLocks() returns (s: System)
    ensures Reachable(FourReplicas(TwoStep), s) && s.replicas.Keys == {0, 1, 2}
    ensures Stands(s.replicas[0], L1(), L1(), Genesis, 2) && Stands(s.replicas[1], L2(), L2(), Genesis, 3)
    ensures Stands(s.replicas[2], Genesis, Genesis, Genesis, 2)
    ensures forall r :: r in {0, 1, 2} ==> s.replicas[r].delivered <= AllBlocks()
  {
    var c := FourReplicas(TwoStep);
    LocksApart();
    var s0 := VoteForBoth();
    BothCertified(s0.signed);
    var s1 := StepAccept(c, s0, 0, K1(), L1(), L1(), Genesis);
    BothCertified(s1.signed);
    s := StepAccept(c, s1, 1, K2(), L2(), L2(), Genesis);
  }

  lemma OnBranch(s: System)
    requires s.replicas.Keys == {0, 1, 2} && forall r :: r in {0, 1, 2} ==> s.replicas[r].delivered <= AllBlocks()
    ensures AncestryOk(s)
  {
    LocksApart();
    forall r, b | r in s.replicas && b in s.replicas[r].delivered ensures QcOnBranch(b) {
      assert b in AllBlocks();
    }
  }

  /** Whatever it delivers, the replica in state `st` rejects `b`. */
  ghost predicate Rejects(st: Replica, b: Block) {
    forall more {:trigger Having(st, more)} :: !Opinion(Update(TwoStep, Having(st, more), b), b)
  }

  lemma LockRejects(st: Replica, b: Block)
    requires Height(Ref(b)) <= Height(st.bLock) && !Extends(b, st.bLock)
    ensures Rejects(st, b)
  {
  }

  /** What is on the branch of one lock is off the branch of the other. */
  lemma NoCommonProposal(st0: Replica, st1: Replica, b: Block)
    requires st0.bLock == L1() && st1.bLock == L2() && Height(Ref(b)) <= 1
    ensures Rejects(st0, b) || Rejects(st1, b)
  {
    LocksApart();
    if !Extends(b, L1()) {
      LockRejects(st0, b);
    } else {
      if Extends(b, L2()) {
        AncestorsComparable(b, L1(), L2());
      }
      LockRejects(st1, b);
    }
  }

  /** In the two-step build a majority can be unable to build an acceptable proposal: whatever block
      carries a certificate no higher than the highest `hqc` that the majority knows of, on whatever
      branch, one of two honest replicas rejects it. */
  lemma TwoStepCanBlock() returns (s: System, quorum: set<ReplicaID>, m: ReplicaID)
    ensures var c := FourReplicas(TwoStep);
            && ValidConfig(c) && Reachable(c, s) && AncestryOk(s)
            && quorum <= Ids(4) && |quorum| >= Majority(4) && HighestHqc(c, s, quorum, m)
            && s.replicas.Keys == c.honest
            && forall b :: Height(Ref(b)) <= Height(s.replicas[m].hqc) ==>
                 exists r :: r in c.honest && Rejects(s.replicas[r], b)
  {
    FourReplicasValid(TwoStep);
    LocksApart();
    s := TwoLocks();
    OnBranch(s);
    quorum, m := {0, 2, 3}, 0;
    assert |quorum| == 3;
    forall b | Height(Ref(b)) <= Height(s.replicas[m].hqc)
      ensures exists r :: r in {0, 1, 2} && Rejects(s.replicas[r], b)
    {
      NoCommonProposal(s.replicas[0], s.replicas[1], b);
      assert 0 in {0, 1, 2} && 1 in {0, 1, 2};
    }
  }

  // ---- a block proposed after it got a vote ----

  function Twice(): Block { Node(Genesis, [], [1], Genesis, {}, []) }

  lemma TwiceOk()
    ensures Height(Twice()) == 1 && QcOnBranch(Twice())
  {
    assert Extends(Twice(), Genesis);
  }

  lemma FirstVote(st: Replica)
    requires st == Deliver(InitReplica(4), Twice())
    ensures var st1 := CountVote(4, st, 3, Twice());
            && st1.delivered == {Genesis, Twice()} && Stands(st1, Genesis, Genesis, Genesis, 0) && st1.hqcCert == {}
            && VotedFor(st1, Twice()) == {3}
  {
  }

  /** Replica 3 sends a block that equals the next proposal of replica 0, and votes for it. */
  lemma VotedBeforeProposed(k: Steps) returns (s: System)
    ensures Reachable(FourReplicas(k), s) && s.replicas.Keys == {0, 1, 2}
    ensures s.replicas[1] == InitReplica(4) && s.replicas[2] == InitReplica(4)
    ensures var st := s.replicas[0];
            && st.delivered == {Genesis, Twice()} && Stands(st, Genesis, Genesis, Genesis, 0) && st.hqcCert == {}
            && st.hqcTail == Genesis && VotedFor(st, Twice()) == {3}
  {
    var c, x := FourReplicas(k), Twice();
    FourReplicasValid(k);
    var s0 := Start(c);
    var s1 := StepFaultySign(c, s0, 3, x);
    var s2 := StepDeliver(c, s1, 0, x);
    FirstVote(s2.replicas[0]);
    var s3, tail := StepVote(c, s2, 0, 3, x);
    s := s3;
  }

  /** Then replica 0 proposes. */
  lemma ProposedTwice(k: Steps) returns (s: System)
    ensures Reachable(FourReplicas(k), s) && s.replicas.Keys == {0, 1, 2}
    ensures s.replicas[1] == InitReplica(4) && s.replicas[2] == InitReplica(4)
    ensures var st := s.replicas[0];
            && st.delivered == {Genesis, Twice()} && st.hqc == Genesis
            && VotedFor(st, Twice()) == {3} && SelfQc(st, Twice()) == {}
  {
    var x := Twice();
    TwiceOk();
    var s0 := VotedBeforeProposed(k);
    var st := s0.replicas[0];
    assert NewBlock(st, [Genesis], [1], []) == x;
    TakesFresh(k, Introduce(st, x), x, 0);
    s := StepPropose(FourReplicas(k), s0, 0, [1]);
  }

  /** Replicas 1 and 2 vote for the block. */
  lemma VotedByOthers(k: Steps) returns (s: System)
    ensures Reachable(FourReplicas(k), s) && s.replicas.Keys == {0, 1, 2}
    ensures {Ballot(1, Twice()), Ballot(2, Twice())} <= s.signed
    ensures forall r :: r in {0, 1, 2} ==> s.replicas[r].delivered == {Genesis, Twice()}
    ensures var st := s.replicas[0];
            st.hqc == Genesis && VotedFor(st, Twice()) == {3} && SelfQc(st, Twice()) == {}
  {
    var c, x := FourReplicas(k), Twice();
    TwiceOk();
    var s0 := ProposedTwice(k);
    TakesFresh(k, s0.replicas[1], x, 0);
    var s1 := StepAccept(c, s0, 1, x, Genesis, Genesis, Genesis);
    s := StepAccept(c, s1, 2, x, Genesis, Genesis, Genesis);
  }

  lemma SecondVote(st: Replica)
    requires st.hqc == Genesis && VotedFor(st, Twice()) == {3} && SelfQc(st, Twice()) == {}
    ensures var st1 := CountVote(4, st, 1, Twice());
            && st1.hqc == Genesis && st1.delivered == st.delivered
            && VotedFor(st1, Twice()) == {3, 1} && SelfQc(st1, Twice()) == {1}
  {
  }

  lemma ThirdVote(st: Replica)
    requires st.hqc == Genesis && VotedFor(st, Twice()) == {3, 1} && SelfQc(st, Twice()) == {1}
    ensures var st1 := CountVote(4, st, 2, Twice());
            st1.hqc == Twice() && st1.hqcCert == {1, 2} && st1.delivered == st.delivered
  {
    TwiceOk();
    assert |{3, 1}| == 2;
  }

  lemma VotesCounted(k: Steps) returns (s: System)
    ensures Reachable(FourReplicas(k), s) && s.replicas.Keys == {0, 1, 2}
    ensures forall r :: r in {0, 1, 2} ==> s.replicas[r].delivered == {Genesis, Twice()}
    ensures s.replicas[0].hqc == Twice() && s.replicas[0].hqcCert == {1, 2}
  {
    var c, x := FourReplicas(k), Twice();
    var s0 := VotedByOthers(k);
    SecondVote(s0.replicas[0]);
    var s1, t1 := StepVote(c, s0, 0, 1, x);
    ThirdVote(s1.replicas[0]);
    var s2, t2 := StepVote(c, s1, 0, 2, x);
    s := s2;
  }

  /** The certificate that replica 0 completes carries two signatures of the three it needs, so that
      no replica can deliver what replica 0 proposes on it. */
  lemma RestartLosesVotes(k: Steps) returns (s: System)
    ensures var c := FourReplicas(k);
            && ValidConfig(c) && Reachable(c, s) && AncestryOk(s) && 0 in s.replicas
            && s.replicas[0].hqc == Twice() && !Presentable(c, s.replicas[0])
            && forall signed, b :: Ref(b) == s.replicas[0].hqc && Cert(b) == s.replicas[0].hqcCert ==>
                 !CertOk(c, signed, b)
  {
    FourReplicasValid(k);
    TwiceOk();
    s := VotesCounted(k);
    assert |s.replicas[0].hqcCert| == 2;
  }
}
