/** The three-step build needs the ancestry hypothesis: a run of four replicas, one of them faulty,
    in which every certificate verifies and two honest replicas commit conflicting blocks.  One
    block of the run, `B4`, carries a certificate that names a block off its branch.  `ForkedCode`
    takes the code through the same blocks. */
module Fork {
  import opened Blocks
  import opened Quorum
  import opened Replicas
  import opened Protocol
  import opened Runs

  function FourReplicas(): Config {
    Config(4, {0, 1, 2}, ThreeStep)
  }

  // The branch that replicas 0 and 1 vote for first.
  function A1(): Block { Node(Genesis, [], [1], Genesis, {}, []) }
  function A2(): Block { Node(A1(), [], [], A1(), {0, 1, 3}, []) }
  function A3(): Block { Node(A2(), [], [], A2(), {0, 1, 3}, []) }
  function A4(): Block { Node(A3(), [], [], A3(), {0, 1, 3}, []) }

  // A branch that nobody has voted for.
  function C1(): Block { Node(Genesis, [], [2], Genesis, {}, []) }
  function C2(): Block { Node(C1(), [], [], Genesis, {}, []) }
  function C3(): Block { Node(C2(), [], [], Genesis, {}, []) }

  // Its continuation, which starts with a certificate of the other branch.
  function B4(): Block { Node(C3(), [], [], A2(), {0, 1, 3}, []) }
  function B5(): Block { Node(B4(), [], [], B4(), {1, 2, 3}, []) }
  function B6(): Block { Node(B5(), [], [], B5(), {1, 2, 3}, []) }
  function B7(): Block { Node(B6(), [], [], B6(), {1, 2, 3}, []) }

  lemma Heights()
    ensures Height(A1()) == 1 && Height(A2()) == 2 && Height(A3()) == 3 && Height(A4()) == 4
    ensures Height(C1()) == 1 && Height(C2()) == 2 && Height(C3()) == 3
    ensures Height(B4()) == 4 && Height(B5()) == 5 && Height(B6()) == 6 && Height(B7()) == 7
  {
  }

  lemma Branches()
    ensures Extends(A1(), Genesis) && !Comparable(A1(), B4())
    ensures !QcOnBranch(B4())
  {
    Heights();
    assert !Extends(C3(), A1()) && !Extends(C3(), A2());
  }

  // ---- what each block makes of a replica ----

  lemma TakesA2(st: Replica)
    requires Stands(st, Genesis, Genesis, Genesis, 1)
    requires {A1()} <= st.delivered
    ensures Takes(ThreeStep, st, A2(), A1(), Genesis, Genesis)
  {
    Heights();
  }

  lemma TakesA3(st: Replica)
    requires Stands(st, A1(), Genesis, Genesis, 2)
    requires {A1(), A2()} <= st.delivered
    ensures Takes(ThreeStep, st, A3(), A2(), A1(), Genesis)
  {
    Heights();
  }

  lemma TakesA4(st: Replica)
    requires Stands(st, A2(), A1(), Genesis, 3)
    requires {A1(), A2(), A3()} <= st.delivered
    ensures Takes(ThreeStep, st, A4(), A3(), A2(), A1())
  {
    Heights();
  }

  /** The vote that leaves the locked branch: the certificate for `A2` unlocks `A1`. */
  lemma TakesB4(st: Replica, vheight: nat)
    requires Stands(st, A2(), A1(), Genesis, vheight) || Stands(st, Genesis, Genesis, Genesis, vheight)
    requires vheight <= 3
    requires {A1(), A2()} <= st.delivered
    ensures Takes(ThreeStep, st, B4(), A2(), A1(), Genesis)
  {
    Heights();
  }

  lemma TakesB5(st: Replica)
    requires Stands(st, A2(), A1(), Genesis, 4)
    requires {A2(), B4()} <= st.delivered
    ensures Takes(ThreeStep, st, B5(), B4(), A2(), Genesis)
  {
    Heights();
  }

  lemma TakesB6(st: Replica)
    requires Stands(st, B4(), A2(), Genesis, 5)
    requires {B4(), B5()} <= st.delivered
    ensures Takes(ThreeStep, st, B6(), B5(), B4(), Genesis)
  {
    Heights();
  }

  lemma TakesB7(st: Replica)
    requires Stands(st, B5(), B4(), Genesis, 6)
    requires {B4(), B5(), B6()} <= st.delivered
    ensures Takes(ThreeStep, st, B7(), B6(), B5(), B4())
  {
    Heights();
  }
  // ---- the run ----

  predicate SignedBy(signed: set<Ballot>, b: Block, voters: set<ReplicaID>) {
    voters <= Voters(signed, b)
  }

  lemma CertifiesFrom(signed: set<Ballot>, b: Block)
    requires Cert(b) in {{0, 1, 3}, {1, 2, 3}} && SignedBy(signed, Ref(b), Cert(b))
    ensures CertOk(FourReplicas(), signed, b)
  {
    assert |{0, 1, 3}| == 3 && |{1, 2, 3}| == 3;
  }

  /** What replica 3 signs. */
  predicate FaultySigned(signed: set<Ballot>) {
    && Ballot(3, A1()) in signed && Ballot(3, A2()) in signed && Ballot(3, A3()) in signed
    && Ballot(3, B4()) in signed && Ballot(3, B5()) in signed && Ballot(3, B6()) in signed
  }

  lemma FaultySigns() returns (s: System)
    ensures Reachable(FourReplicas(), s) && s.replicas.Keys == {0, 1, 2} && FaultySigned(s.signed)
    ensures forall r :: r in s.replicas ==> s.replicas[r] == InitReplica(4)
  {
    var c := FourReplicas();
    assert 3 in Ids(4) - c.honest;
    s := Start(c);
    s := StepFaultySign(c, s, 3, A1());
    s := StepFaultySign(c, s, 3, A2());
    s := StepFaultySign(c, s, 3, A3());
    s := StepFaultySign(c, s, 3, B4());
    s := StepFaultySign(c, s, 3, B5());
    s := StepFaultySign(c, s, 3, B6());
  }

  /** Replicas `p` and `q` both take `b` and vote for it. */
  lemma BothTake(s: System, p: ReplicaID, q: ReplicaID, b: Block, hqc: Block, bLock: Block, bExec: Block)
    returns (s': System)
    requires Reachable(FourReplicas(), s) && s.replicas.Keys == {0, 1, 2} && p in {0, 1, 2} && q in {0, 1, 2} && p != q
    requires Deliverable(FourReplicas(), s.signed, s.replicas[p].delivered, b)
    requires Deliverable(FourReplicas(), s.signed, s.replicas[q].delivered, b)
    requires Takes(ThreeStep, s.replicas[p], b, hqc, bLock, bExec)
    requires Takes(ThreeStep, s.replicas[q], b, hqc, bLock, bExec)
    ensures Reachable(FourReplicas(), s') && s'.replicas.Keys == {0, 1, 2}
    ensures forall r :: r in {0, 1, 2} && r != p && r != q ==> s'.replicas[r] == s.replicas[r]
    ensures s'.signed == s.signed + {Ballot(p, b), Ballot(q, b)}
    ensures Stands(s'.replicas[p], hqc, bLock, bExec, Height(b))
    ensures Stands(s'.replicas[q], hqc, bLock, bExec, Height(b))
    ensures s'.replicas[p].delivered == s.replicas[p].delivered + {b}
    ensures s'.replicas[q].delivered == s.replicas[q].delivered + {b}
  {
    var c := FourReplicas();
    var s1 := StepAccept(c, s, p, b, hqc, bLock, bExec);
    if Ref(b) != Genesis {
      assert Voters(s.signed, Ref(b)) <= Voters(s1.signed, Ref(b));
    }
    s' := StepAccept(c, s1, q, b, hqc, bLock, bExec);
  }

  /** Replicas 0 and 1 vote for `A1` and `A2`. */
  lemma VoteA2() returns (s: System)
    ensures Reachable(FourReplicas(), s) && s.replicas.Keys == {0, 1, 2} && FaultySigned(s.signed)
    ensures forall r :: r in {0, 1} ==>
              && Stands(s.replicas[r], A1(), Genesis, Genesis, 2)
              && {Genesis, A1(), A2()} <= s.replicas[r].delivered
    ensures s.replicas[2] == InitReplica(4)
    ensures SignedBy(s.signed, A1(), {0, 1, 3}) && SignedBy(s.signed, A2(), {0, 1, 3})
  {
    Heights();
    var s0 := FaultySigns();
    TakesFresh(ThreeStep, s0.replicas[0], A1(), 0);
    var s1 := BothTake(s0, 0, 1, A1(), Genesis, Genesis, Genesis);
    CertifiesFrom(s1.signed, A2());
    TakesA2(s1.replicas[0]);
    TakesA2(s1.replicas[1]);
    s := BothTake(s1, 0, 1, A2(), A1(), Genesis, Genesis);
  }

  /** They go on to vote for `A3`. */
  lemma VoteA3() returns (s: System)
    ensures Reachable(FourReplicas(), s) && s.replicas.Keys == {0, 1, 2} && FaultySigned(s.signed)
    ensures forall r :: r in {0, 1} ==>
              && Stands(s.replicas[r], A2(), A1(), Genesis, 3)
              && {Genesis, A1(), A2(), A3()} <= s.replicas[r].delivered
    ensures s.replicas[2] == InitReplica(4)
    ensures SignedBy(s.signed, A1(), {0, 1, 3}) && SignedBy(s.signed, A2(), {0, 1, 3}) && SignedBy(s.signed, A3(), {0, 1, 3})
  {
    Heights();
    var s0 := VoteA2();
    CertifiesFrom(s0.signed, A3());
    TakesA3(s0.replicas[0]);
    TakesA3(s0.replicas[1]);
    s := BothTake(s0, 0, 1, A3(), A2(), A1(), Genesis);
  }

  /** `s` is `s0` but for deliveries of replica `r`. */
  ghost predicate OnlyDelivered(s0: System, s: System, r: ReplicaID) {
    && Reachable(FourReplicas(), s) && s.signed == s0.signed && OthersKept(s0, s, r) && r in s0.replicas
    && s.replicas[r] == s0.replicas[r].(delivered := s.replicas[r].delivered, tails := s.replicas[r].tails)
  }

  lemma DeliverMore(s0: System, s: System, r: ReplicaID, b: Block) returns (s': System)
    requires OnlyDelivered(s0, s, r) && r in {0, 1, 2}
    requires Deliverable(FourReplicas(), s.signed, s.replicas[r].delivered, b)
    ensures OnlyDelivered(s0, s', r) && s'.replicas[r].delivered == s.replicas[r].delivered + {b}
  {
    s' := StepDeliver(FourReplicas(), s, r, b);
  }

  lemma DeliverC(s0: System, s: System, r: ReplicaID) returns (s': System)
    requires OnlyDelivered(s0, s, r) && r in {0, 1, 2} && Genesis in s.replicas[r].delivered
    ensures OnlyDelivered(s0, s', r) && s'.replicas[r].delivered == s.replicas[r].delivered + {C1(), C2(), C3()}
  {
    var s1 := DeliverMore(s0, s, r, C1());
    var s2 := DeliverMore(s0, s1, r, C2());
    s' := DeliverMore(s0, s2, r, C3());
  }

  /** Replica `r` delivers the side branch and what `B4` refers to. */
  lemma DeliverSide(s: System, r: ReplicaID) returns (s': System)
    requires Reachable(FourReplicas(), s) && r in s.replicas && r in {0, 1, 2}
    requires Genesis in s.replicas[r].delivered && SignedBy(s.signed, A1(), {0, 1, 3})
    ensures OnlyDelivered(s, s', r) && {A1(), A2(), C1(), C2(), C3()} <= s'.replicas[r].delivered
  {
    CertifiesFrom(s.signed, A2());
    var s1 := DeliverMore(s, s, r, A1());
    var s2 := DeliverMore(s, s1, r, A2());
    s' := DeliverC(s, s2, r);
  }

  /** Replica 0 commits `A1`. */
  lemma CommitA() returns (s: System)
    ensures Reachable(FourReplicas(), s) && s.replicas.Keys == {0, 1, 2} && FaultySigned(s.signed)
    ensures s.replicas[0].bExec == A1()
    ensures Stands(s.replicas[1], A2(), A1(), Genesis, 3) && Genesis in s.replicas[1].delivered
    ensures s.replicas[2] == InitReplica(4)
    ensures SignedBy(s.signed, A1(), {0, 1, 3}) && SignedBy(s.signed, A2(), {0, 1, 3})
  {
    var s0 := VoteA3();
    CertifiesFrom(s0.signed, A4());
    TakesA4(s0.replicas[0]);
    s := StepAccept(FourReplicas(), s0, 0, A4(), A3(), A2(), A1());
  }

  /** Replicas 1 and 2 vote for `B4`. */
  lemma VoteB4() returns (s: System)
    ensures Reachable(FourReplicas(), s) && s.replicas.Keys == {0, 1, 2} && FaultySigned(s.signed)
    ensures s.replicas[0].bExec == A1()
    ensures forall r :: r in {1, 2} ==>
              Stands(s.replicas[r], A2(), A1(), Genesis, 4) && {A2(), B4()} <= s.replicas[r].delivered
    ensures SignedBy(s.signed, B4(), {1, 2, 3})
  {
    Heights();
    var s1 := CommitA();
    var s2 := DeliverSide(s1, 1);
    var s3 := DeliverSide(s2, 2);
    CertifiesFrom(s3.signed, B4());
    TakesB4(s3.replicas[1], 3);
    TakesB4(s3.replicas[2], 0);
    s := BothTake(s3, 1, 2, B4(), A2(), A1(), Genesis);
  }

  /** They go on to vote for `B5`. */
  lemma VoteB5() returns (s: System)
    ensures Reachable(FourReplicas(), s) && s.replicas.Keys == {0, 1, 2} && FaultySigned(s.signed)
    ensures s.replicas[0].bExec == A1()
    ensures forall r :: r in {1, 2} ==>
              Stands(s.replicas[r], B4(), A2(), Genesis, 5) && {B4(), B5()} <= s.replicas[r].delivered
    ensures SignedBy(s.signed, B5(), {1, 2, 3})
  {
    Heights();
    var s0 := VoteB4();
    CertifiesFrom(s0.signed, B5());
    TakesB5(s0.replicas[1]);
    TakesB5(s0.replicas[2]);
    s := BothTake(s0, 1, 2, B5(), B4(), A2(), Genesis);
  }

  /** And for `B6`. */
  lemma VoteB6() returns (s: System)
    ensures Reachable(FourReplicas(), s) && s.replicas.Keys == {0, 1, 2}
    ensures s.replicas[0].bExec == A1()
    ensures Stands(s.replicas[2], B5(), B4(), Genesis, 6) && {B4(), B5(), B6()} <= s.replicas[2].delivered
    ensures SignedBy(s.signed, B6(), {1, 2, 3})
  {
    Heights();
    var s0 := VoteB5();
    CertifiesFrom(s0.signed, B6());
    TakesB6(s0.replicas[1]);
    TakesB6(s0.replicas[2]);
    s := BothTake(s0, 1, 2, B6(), B5(), B4(), Genesis);
  }

  /** With one faulty replica of four and every certificate verified, replica 0 has executed `A1` and
      replica 2 has executed `B4`, neither of which extends the other, and `B7` would make replica 0
      throw "safety breached".  The reason is `B4`, which breaks the ancestry hypothesis. */
  lemma ThreeStepForks() returns (s: System)
    ensures ValidConfig(FourReplicas()) && Reachable(FourReplicas(), s)
    ensures s.replicas.Keys == FourReplicas().honest
    ensures !Comparable(s.replicas[0].bExec, s.replicas[2].bExec)
    ensures Breach(ThreeStep, Having(s.replicas[0], Chain(B7())), B7()) && B7() in s.replicas[2].delivered
    ensures !AncestryOk(s)
  {
    Heights();
    Branches();
    assert |{0, 1, 2}| == 3;
    var s0 := VoteB6();
    CertifiesFrom(s0.signed, B7());
    TakesB7(s0.replicas[2]);
    s := StepAccept(FourReplicas(), s0, 2, B7(), B6(), B5(), B4());
    assert B4() in s.replicas[2].delivered;
  }
}
