/** `Base` holds in every state of every run, `TwoStepInv` in every state of a two-step run, and
    `Inv` in every state whose delivered certificates name ancestors. */
module Invariance {
  import opened Blocks
  import opened Quorum
  import opened Replicas
  import opened Local
  import opened Protocol
  import opened Safety
  import opened TwoSteps

  lemma CertifiedGrows(c: Config, signed: set<Ballot>, signed': set<Ballot>, b: Block)
    requires signed <= signed' && Certified(c, signed, b)
    ensures Certified(c, signed', b)
  {
    SubsetSize(Voters(signed, b), Voters(signed', b));
  }

  lemma CommittedGrows(c: Config, signed: set<Ballot>, signed': set<Ballot>, b: Block)
    requires signed <= signed' && Committed(c, signed, b)
    ensures Committed(c, signed', b)
  {
    if b != Genesis {
      var t :| CommitTip(c, signed, t, b);
      CertifiedGrows(c, signed, signed', t);
      assert CommitTip(c, signed', t, b);
    }
  }

  lemma LockSeenGrows(c: Config, signed: set<Ballot>, signed': set<Ballot>, l: Block)
    requires signed <= signed' && LockSeen(c, signed, l)
    ensures LockSeen(c, signed', l)
  {
    if c.steps == ThreeStep && l != Genesis {
      var q :| LockTip(c, signed, q, l);
      CertifiedGrows(c, signed, signed', q);
      assert LockTip(c, signed', q, l);
    }
  }

  lemma RefsKnownGrows(c: Config, signed: set<Ballot>, signed': set<Ballot>, delivered: set<Block>)
    requires signed <= signed' && RefsKnown(c, signed, delivered)
    ensures RefsKnown(c, signed', delivered)
  {
    forall b | b in delivered ensures RefKnown(c, signed', b) {
      assert RefKnown(c, signed, b);
      CertifiedGrows(c, signed, signed', Ref(b));
    }
  }

  lemma CertsGrow(signed: set<Ballot>, signed': set<Ballot>, st: Replica)
    requires signed <= signed' && CertsSigned(signed, st)
    ensures CertsSigned(signed', st)
  {
    assert forall b :: Voters(signed, b) <= Voters(signed', b);
  }

  lemma KnowsGrows(c: Config, signed: set<Ballot>, signed': set<Ballot>, st: Replica)
    requires signed <= signed' && Knows(c, signed, st)
    ensures Knows(c, signed', st)
  {
    RefsKnownGrows(c, signed, signed', st.delivered);
    forall b | b in st.voted && b != Genesis ensures st.voted[b] <= Voters(signed', b) {
      assert Voters(signed, b) <= Voters(signed', b);
    }
    CertifiedGrows(c, signed, signed', st.hqc);
    CertifiedGrows(c, signed, signed', st.bLock);
    CommittedGrows(c, signed, signed', st.bExec);
    LockSeenGrows(c, signed, signed', st.bLock);
    CertsGrow(signed, signed', st);
  }

  // ---- moves of one replica ----

  /** Nothing an honest replica has signed is invalidated when its state grows. */
  predicate Grows(st: Replica, st': Replica) {
    && st.delivered <= st'.delivered && st.vheight <= st'.vheight
    && Height(st.bLock) <= Height(st'.bLock) && Height(st.hqc) <= Height(st'.hqc)
  }

  /** What a vote of the replica in state `st` for `b` has to satisfy. */
  predicate MayVote(c: Config, signed: set<Ballot>, st: Replica, st': Replica, b: Block) {
    Height(b) > st.vheight && st'.vheight == Height(b) && BallotOk(c, signed, st', b, st'.bLock)
  }

  /** Replica `r` moves to `st'` having learned only what the signatures bear out. */
  ghost predicate SoundMove(c: Config, s: System, s': System, r: ReplicaID, st': Replica, vote: bool, b: Block) {
    && r in c.honest && r in s.replicas
    && Moves(s, s', r, st', vote, b) && Grows(s.replicas[r], st')
    && Knows(c, s.signed, st') && Loose(st')
    && (vote ==> MayVote(c, s.signed, s.replicas[r], st', b))
  }

  lemma BallotGrows(c: Config, signed: set<Ballot>, signed': set<Ballot>,
                    st: Replica, st': Replica, b: Block, l: Block)
    requires signed <= signed' && Grows(st, st') && BallotOk(c, signed, st, b, l)
    ensures BallotOk(c, signed', st', b, l)
  {
    CertifiedGrows(c, signed, signed', l);
  }

  lemma MoveKeepsBallots(c: Config, s: System, s': System, r: ReplicaID,
                         st': Replica, vote: bool, b: Block)
    requires BallotsOk(c, s) && c.honest <= Ids(c.n) && SoundMove(c, s, s', r, st', vote, b)
    ensures BallotsOk(c, s')
  {
    forall v | v in s'.signed && v.voter in c.honest
      ensures v.voter in s'.replicas && v in s'.locks
      ensures BallotOk(c, s'.signed, s'.replicas[v.voter], v.blk, s'.locks[v])
    {
      if v in s.signed {
        assert vote ==> v != Ballot(r, b);
        BallotGrows(c, s.signed, s'.signed, s.replicas[v.voter], s'.replicas[v.voter], v.blk, s.locks[v]);
      } else {
        BallotGrows(c, s.signed, s'.signed, st', st', b, st'.bLock);
      }
    }
  }

  lemma MoveKeepsHistory(c: Config, s: System, s': System, r: ReplicaID,
                         st': Replica, vote: bool, b: Block)
    requires BallotsOk(c, s) && HistoryOk(c, s) && r in c.honest && r in s.replicas
    requires Moves(s, s', r, st', vote, b)
    requires vote ==> Height(b) > s.replicas[r].vheight && Height(s.replicas[r].bLock) <= Height(st'.bLock)
    ensures HistoryOk(c, s')
  {
  }

  lemma AllKnow(c: Config, signed: set<Ballot>, signed': set<Ballot>, replicas: map<ReplicaID, Replica>)
    requires signed <= signed'
    requires forall r :: r in replicas ==> Knows(c, signed, replicas[r])
    ensures forall r :: r in replicas ==> Knows(c, signed', replicas[r])
  {
    forall r | r in replicas ensures Knows(c, signed', replicas[r]) {
      KnowsGrows(c, signed, signed', replicas[r]);
    }
  }

  lemma MoveKeepsReplicas(c: Config, s: System, s': System, r: ReplicaID, st': Replica, vote: bool, b: Block)
    requires Base(c, s) && SoundMove(c, s, s', r, st', vote, b)
    ensures forall q {:trigger s'.replicas[q]} :: q in s'.replicas ==>
              Knows(c, s'.signed, s'.replicas[q]) && Loose(s'.replicas[q])
  {
    AllKnow(c, s.signed, s'.signed, s.replicas[r := st']);
  }

  lemma MoveKeepsBase(c: Config, s: System, s': System, r: ReplicaID, st': Replica, vote: bool, b: Block)
    requires Base(c, s) && SoundMove(c, s, s', r, st', vote, b)
    ensures Base(c, s')
  {
    MoveKeepsBallots(c, s, s', r, st', vote, b);
    MoveKeepsHistory(c, s, s', r, st', vote, b);
    MoveKeepsReplicas(c, s, s', r, st', vote, b);
  }

  lemma MoveKeepsLocals(s: System, s': System, r: ReplicaID, st': Replica, vote: bool, b: Block)
    requires LocalsOk(s) && r in s.replicas && Moves(s, s', r, st', vote, b) && LocalInv(st')
    ensures LocalsOk(s')
  {
    forall q | q in s'.replicas ensures LocalInv(s'.replicas[q]) {
      assert q != r ==> s'.replicas[q] == s.replicas[q];
    }
  }

  lemma MoveKeepsLocksBelow(c: Config, s: System, s': System, r: ReplicaID, st': Replica, vote: bool, b: Block)
    requires LocksBelow(c, s) && r in s.replicas && Moves(s, s', r, st', vote, b)
    requires vote ==> Height(st'.bLock) < Height(b)
    ensures LocksBelow(c, s')
  {
  }

  /** While certificates name ancestors, a vote is above the lock. */
  lemma MoveKeepsInv(c: Config, s: System, s': System, r: ReplicaID, st': Replica, vote: bool, b: Block)
    requires Inv(c, s) && SoundMove(c, s, s', r, st', vote, b) && LocalInv(st')
    ensures Inv(c, s')
  {
    MoveKeepsBase(c, s, s', r, st', vote, b);
    MoveKeepsLocals(s, s', r, st', vote, b);
    MoveKeepsLocksBelow(c, s, s', r, st', vote, b);
  }

  // ---- the handlers ----

  lemma CertifiedByCert(c: Config, signed: set<Ballot>, b: Block)
    requires CertOk(c, signed, b)
    ensures Certified(c, signed, Ref(b))
  {
    if Ref(b) != Genesis {
      SubsetSize(Cert(b), Voters(signed, Ref(b)));
    }
  }

  lemma ProcessCerts(k: Steps, signed: set<Ballot>, st: Replica, b: Block)
    requires CertsSigned(signed, st) && b in st.delivered
    ensures CertsSigned(signed, Processed(k, st, b))
  {
  }

  lemma ProcessGrows(k: Steps, st: Replica, b: Block)
    ensures Grows(st, Processed(k, st, b))
  {
  }

  /** What `update` learns is certified. */
  lemma ProcessHqc(c: Config, signed: set<Ballot>, st: Replica, b: Block)
    requires RefsKnown(c, signed, st.delivered) && b in st.delivered
    requires st.hqc in st.delivered && Certified(c, signed, st.hqc)
    ensures var st1 := Processed(c.steps, st, b);
            st1.hqc in st.delivered && Certified(c, signed, st1.hqc)
  {
    assert RefKnown(c, signed, b);
  }

  lemma LockCertified(c: Config, signed: set<Ballot>, delivered: set<Block>, b: Block)
    requires RefsKnown(c, signed, delivered) && b in delivered
    ensures Certified(c, signed, LockIn(c.steps, delivered, b)) && LockSeen(c, signed, LockIn(c.steps, delivered, b))
  {
    var t := RefIn(delivered, b);
    assert RefKnown(c, signed, b);
    if t in delivered {
      assert RefKnown(c, signed, t);
    }
    if c.steps == ThreeStep && LockIn(c.steps, delivered, b) != Genesis {
      assert LockTip(c, signed, t, LockIn(c.steps, delivered, b));
    }
  }

  lemma ProcessLock(c: Config, signed: set<Ballot>, st: Replica, b: Block)
    requires RefsKnown(c, signed, st.delivered) && b in st.delivered
    requires Certified(c, signed, st.bLock) && LockSeen(c, signed, st.bLock)
    ensures var st1 := Processed(c.steps, st, b);
            Certified(c, signed, st1.bLock) && LockSeen(c, signed, st1.bLock)
  {
    LockCertified(c, signed, st.delivered, b);
  }

  lemma ProcessCommitted(c: Config, signed: set<Ballot>, st: Replica, b: Block)
    requires RefsKnown(c, signed, st.delivered) && Closed(st.delivered) && b in st.delivered
    requires Committed(c, signed, st.bExec)
    ensures Committed(c, signed, Processed(c.steps, st, b).bExec)
  {
    if DirectChain(c.steps, RefIn(st.delivered, b)) {
      CommitOfIsCommitted(c, signed, st.delivered, b);
    }
  }

  /** `update` learns only certified and committed blocks, also when it throws. */
  lemma ProcessKnows(c: Config, signed: set<Ballot>, st: Replica, b: Block)
    requires Knows(c, signed, st) && Closed(st.delivered) && b in st.delivered
    ensures var st1 := Processed(c.steps, st, b);
            Knows(c, signed, st1) && Grows(st, st1)
  {
    ProcessCerts(c.steps, signed, st, b);
    ProcessGrows(c.steps, st, b);
    ProcessHqc(c, signed, st, b);
    ProcessLock(c, signed, st, b);
    ProcessCommitted(c, signed, st, b);
  }

  lemma ProcessHeights(k: Steps, st: Replica, b: Block)
    ensures var st1 := Processed(k, st, b);
            && Height(RefIn(st.delivered, b)) <= Height(st1.hqc)
            && Height(LockIn(k, st.delivered, b)) <= Height(st1.bLock)
            && st1.delivered == st.delivered && st1.vheight == st.vheight
  {
    var l, st1 := Lift(k, st, b), Processed(k, st, b);
    assert st1.hqc == l.hqc && st1.bLock == l.bLock;
    assert l.hqc == Higher(st.hqc, RefIn(st.delivered, b));
    assert l.bLock == Higher(st.bLock, LockIn(k, st.delivered, b));
    HigherIsHigher(st.hqc, RefIn(st.delivered, b));
    HigherIsHigher(st.bLock, LockIn(k, st.delivered, b));
  }

  /** What lies on the branch of a delivered block is seen. */
  lemma SignerSees(k: Steps, delivered: set<Block>, b: Block)
    requires Closed(delivered) && b in delivered
    ensures DirectChain(k, b) ==> LockIn(k, delivered, b) == LockOf(k, b)
    ensures QcOnBranch(b) ==> RefIn(delivered, b) == Ref(b)
  {
    if DirectChain(k, b) {
      ChainSeen(k, delivered, b);
    }
    if QcOnBranch(b) {
      AncestorSeen(delivered, b);
    }
  }

  /** After `update(b)`, whoever finds `b` acceptable may sign it. */
  lemma OpinionMayVote(c: Config, signed: set<Ballot>, st: Replica, b: Block, st': Replica)
    requires Certified(c, signed, st'.bLock) && Closed(st.delivered) && b in st.delivered
    requires var st1 := Processed(c.steps, st, b);
             && Opinion(st1, b)
             && st'.delivered == st.delivered && st'.vheight == Height(b)
             && st'.bLock == st1.bLock && st'.hqc == st1.hqc
    ensures MayVote(c, signed, st, st', b)
  {
    ProcessHeights(c.steps, st, b);
    SignerSees(c.steps, st.delivered, b);
  }

  lemma JudgeKnows(c: Config, signed: set<Ballot>, st: Replica, b: Block, tail: Block)
    requires Knows(c, signed, st)
    ensures Knows(c, signed, Judge(st, b).(hqcTail := tail)) && Grows(st, Judge(st, b).(hqcTail := tail))
  {
  }

  lemma DeliverKnows(c: Config, signed: set<Ballot>, st: Replica, b: Block)
    requires Knows(c, signed, st) && Certified(c, signed, Ref(b))
    requires Ref(b) != Genesis ==> Cert(b) <= Voters(signed, Ref(b))
    ensures Knows(c, signed, Deliver(st, b)) && Grows(st, Deliver(st, b))
  {
    var delivered' := Deliver(st, b).delivered;
    forall x | x in delivered' ensures RefKnown(c, signed, x) {
      assert x in st.delivered ==> RefKnown(c, signed, x);
    }
  }

  lemma DeliverSound(c: Config, s: System, s': System, r: ReplicaID, b: Block)
    requires Base(c, s) && DeliverStep(c, s, s', r, b)
    ensures SoundMove(c, s, s', r, Deliver(s.replicas[r], b), false, b)
  {
    CertifiedByCert(c, s.signed, b);
    DeliverKnows(c, s.signed, s.replicas[r], b);
    DeliverLoose(s.replicas[r], b);
  }

  lemma ReceiveKnows(c: Config, signed: set<Ballot>, st: Replica, b: Block, st': Replica, vote: bool)
    requires Knows(c, signed, st) && Closed(st.delivered) && b in st.delivered && ReceivesProposal(c.steps, st, b, st', vote)
    ensures Knows(c, signed, st') && Grows(st, st')
    ensures vote ==> MayVote(c, signed, st, st', b)
  {
    var st1 := Processed(c.steps, st, b);
    var tail :| Rescanned(st, st1, tail) && st' == Judge(st1.(hqcTail := tail), b);
    ProcessKnows(c, signed, st, b);
    JudgeKnows(c, signed, st1, b, st'.hqcTail);
    if vote {
      OpinionMayVote(c, signed, st, b, st');
    }
  }

  lemma ReceiveProposalSound(c: Config, s: System, s': System, r: ReplicaID, b: Block,
                             st': Replica, vote: bool)
    requires Base(c, s) && ReceiveProposalStep(c, s, s', r, b, st', vote)
    ensures SoundMove(c, s, s', r, st', vote, b)
  {
    var st := s.replicas[r];
    ReceiveKnows(c, s.signed, st, b, st', vote);
    ReceiveLoose(c.steps, st, b, st', vote);
  }

  lemma BreachSound(c: Config, s: System, s': System, r: ReplicaID, b: Block, tail: Block)
    requires Base(c, s) && BreachStep(c, s, s', r, b, tail)
    ensures SoundMove(c, s, s', r, Lift(c.steps, s.replicas[r], b).(hqcTail := tail), false, b)
  {
    ProcessKnows(c, s.signed, s.replicas[r], b);
    ProcessLoose(c.steps, s.replicas[r], b, tail);
  }

  /** A replica may introduce a block that carries its own `hqc`. */
  lemma IntroduceKnows(c: Config, signed: set<Ballot>, st: Replica, b: Block)
    requires Knows(c, signed, st) && Ref(b) == st.hqc && Cert(b) == st.hqcCert
    ensures Knows(c, signed, Introduce(st, b)) && Grows(st, Introduce(st, b))
    ensures b in Introduce(st, b).delivered && Introduce(st, b).vheight == st.vheight
  {
    DeliverKnows(c, signed, st, b);
    assert Introduce(st, b).delivered == Deliver(st, b).delivered;
  }

  lemma OwnProcessKnows(c: Config, signed: set<Ballot>, st: Replica, b: Block)
    requires Knows(c, signed, st) && Loose(st) && ParentsDelivered(st.delivered, b)
    requires Ref(b) == st.hqc && Cert(b) == st.hqcCert
    ensures var st1 := Processed(c.steps, Introduce(st, b), b);
            Knows(c, signed, st1) && Grows(st, st1) && st1.vheight == st.vheight
  {
    IntroduceKnows(c, signed, st, b);
    IntroduceLoose(st, b);
    ProcessKnows(c, signed, Introduce(st, b), b);
  }

  lemma ProposeSound(c: Config, s: System, s': System, r: ReplicaID,
                     cmds: seq<Command>, extra: seq<Byte>, st': Replica, vote: bool)
    requires Base(c, s) && ProposeStep(c, s, s', r, cmds, extra, st', vote)
    ensures SoundMove(c, s, s', r, st', vote, NewBlock(s.replicas[r], [s.replicas[r].hqcTail], cmds, extra))
  {
    var st := s.replicas[r];
    var b := NewBlock(st, [st.hqcTail], cmds, extra);
    OwnProcessKnows(c, s.signed, st, b);
    JudgeKnows(c, s.signed, Processed(c.steps, Introduce(st, b), b), b, b);
    ProposeLoose(c.steps, st, b, st', vote);
    if vote {
      IntroduceKnows(c, s.signed, st, b);
      OpinionMayVote(c, s.signed, Introduce(st, b), b, st');
    }
  }

  /** `on_propose` when it throws after `update`, or in it. */
  lemma FailedProposeSound(c: Config, s: System, s': System, r: ReplicaID,
                           cmds: seq<Command>, extra: seq<Byte>)
    requires Base(c, s)
    requires ProposeTooLowStep(c, s, s', r, cmds, extra) || ProposeBreachStep(c, s, s', r, cmds, extra)
    ensures var st, b := s.replicas[r], NewBlock(s.replicas[r], [s.replicas[r].hqcTail], cmds, extra);
            SoundMove(c, s, s', r, Processed(c.steps, Introduce(st, b), b), false, b)
  {
    var st := s.replicas[r];
    var b := NewBlock(st, [st.hqcTail], cmds, extra);
    OwnProcessKnows(c, s.signed, st, b);
    ProcessOwnLoose(c.steps, st, b);
  }

  lemma CountVoteCerts(n: nat, signed: set<Ballot>, st: Replica, voter: ReplicaID, b: Block)
    requires CertsSigned(signed, st) && Ballot(voter, b) in signed
    ensures CertsSigned(signed, CountVote(n, st, voter, b))
  {
    if Counts(n, st, voter, b) {
      assert b != Genesis ==> SelfQc(st, b) + {voter} <= Voters(signed, b);
    }
  }

  lemma CountVoteSigned(n: nat, signed: set<Ballot>, st: Replica, voter: ReplicaID, b: Block)
    requires VotesSigned(signed, st.voted) && Ballot(voter, b) in signed
    ensures VotesSigned(signed, CountVote(n, st, voter, b).voted)
    ensures Completes(n, st, voter, b) && b != Genesis ==> |Voters(signed, b)| >= Majority(n)
  {
    if Counts(n, st, voter, b) && b != Genesis {
      var voters := VotedFor(st, b) + {voter};
      assert voters <= Voters(signed, b);
      SubsetSize(voters, Voters(signed, b));
    }
  }

  /** A completed quorum consists of signatures. */
  lemma CountVoteKnows(c: Config, signed: set<Ballot>, st: Replica, voter: ReplicaID, b: Block)
    requires Knows(c, signed, st) && Ballot(voter, b) in signed && b in st.delivered
    ensures var st1 := CountVote(c.n, st, voter, b);
            Knows(c, signed, st1) && Grows(st, st1)
  {
    CountVoteCerts(c.n, signed, st, voter, b);
    CountVoteSigned(c.n, signed, st, voter, b);
  }

  lemma ReceiveVoteSound(c: Config, s: System, s': System, r: ReplicaID,
                         voter: ReplicaID, b: Block, st': Replica)
    requires Base(c, s) && ReceiveVoteStep(c, s, s', r, voter, b, st')
    ensures SoundMove(c, s, s', r, st', false, b)
  {
    CountVoteKnows(c, s.signed, s.replicas[r], voter, b);
    VoteLoose(c.n, s.replicas[r], voter, b, st');
  }

  lemma SwitchVotingSound(c: Config, s: System, s': System, r: ReplicaID, off: bool)
    requires Base(c, s) && SwitchVotingStep(c, s, s', r, off)
    ensures SoundMove(c, s, s', r, s.replicas[r].(voteDisabled := off), false, Genesis)
  {
  }

  /** Every step but the signature of a faulty replica is the sound move of an honest one, which keeps
      `LocalInv` as long as certificates name ancestors and safety is not breached. */
  lemma HonestStep(c: Config, s: System, s': System)
    returns (r: ReplicaID, st': Replica, vote: bool, b: Block)
    requires Base(c, s) && Next(c, s, s') && !exists f, x :: FaultySignStep(c, s, s', f, x)
    ensures SoundMove(c, s, s', r, st', vote, b)
    ensures Safe(c, s) && LocalInv(s.replicas[r]) && (b in st'.delivered ==> QcOnBranch(b)) ==> LocalInv(st')
  {
    if x, y :| DeliverStep(c, s, s', x, y) {
      r, b, st', vote := x, y, Deliver(s.replicas[x], y), false;
      DeliverSound(c, s, s', r, b);
      if LocalInv(s.replicas[r]) && QcOnBranch(b) {
        DeliverKeeps(s.replicas[r], b);
      }
    } else if x, y, st1, v :| ReceiveProposalStep(c, s, s', x, y, st1, v) {
      r, b, st', vote := x, y, st1, v;
      ReceiveProposalSound(c, s, s', r, b, st', vote);
      if LocalInv(s.replicas[r]) {
        ReceiveKeeps(c.steps, s.replicas[r], b, st', vote);
      }
    } else if x, cmds, extra, st1, v :| ProposeStep(c, s, s', x, cmds, extra, st1, v) {
      r, st', vote := x, st1, v;
      b := NewBlock(s.replicas[r], [s.replicas[r].hqcTail], cmds, extra);
      ProposeSound(c, s, s', r, cmds, extra, st', vote);
      if LocalInv(s.replicas[r]) {
        OwnProposalQcOnBranch(s.replicas[r], cmds, extra);
        ProposeKeeps(c.steps, s.replicas[r], b, st', vote);
      }
    } else if x, y, tail :| BreachStep(c, s, s', x, y, tail) {
      r, b, st', vote := x, y, Lift(c.steps, s.replicas[x], y).(hqcTail := tail), false;
      BreachSound(c, s, s', r, b, tail);
      if Safe(c, s) {
        NoBreach(c, s, r, b);
      }
    } else {
      r, st', vote, b := OtherHonestStep(c, s, s');
    }
  }

  lemma FailedPropose(c: Config, s: System, s': System, r: ReplicaID, cmds: seq<Command>, extra: seq<Byte>)
    returns (st': Replica, b: Block)
    requires Base(c, s)
    requires ProposeTooLowStep(c, s, s', r, cmds, extra) || ProposeBreachStep(c, s, s', r, cmds, extra)
    ensures SoundMove(c, s, s', r, st', false, b)
    ensures Safe(c, s) && LocalInv(s.replicas[r]) ==> LocalInv(st')
  {
    b := NewBlock(s.replicas[r], [s.replicas[r].hqcTail], cmds, extra);
    st' := Processed(c.steps, Introduce(s.replicas[r], b), b);
    FailedProposeSound(c, s, s', r, cmds, extra);
    if Safe(c, s) && LocalInv(s.replicas[r]) {
      NoBreachOnPropose(c, s, r, b);
      IntroduceKeeps(c.steps, s.replicas[r], b);
    }
  }

  lemma OtherHonestStep(c: Config, s: System, s': System)
    returns (r: ReplicaID, st': Replica, vote: bool, b: Block)
    requires Base(c, s)
    requires || (exists r, cmds, extra :: ProposeTooLowStep(c, s, s', r, cmds, extra))
             || (exists r, cmds, extra :: ProposeBreachStep(c, s, s', r, cmds, extra))
             || (exists r, voter, b, st' :: ReceiveVoteStep(c, s, s', r, voter, b, st'))
             || (exists r, off :: SwitchVotingStep(c, s, s', r, off))
    ensures SoundMove(c, s, s', r, st', vote, b)
    ensures Safe(c, s) && LocalInv(s.replicas[r]) ==> LocalInv(st')
  {
    vote := false;
    if x, cmds, extra :| ProposeTooLowStep(c, s, s', x, cmds, extra) {
      r := x;
      st', b := FailedPropose(c, s, s', r, cmds, extra);
    } else if x, cmds, extra :| ProposeBreachStep(c, s, s', x, cmds, extra) {
      r := x;
      st', b := FailedPropose(c, s, s', r, cmds, extra);
    } else if x, voter, y, st1 :| ReceiveVoteStep(c, s, s', x, voter, y, st1) {
      r, b, st' := x, y, st1;
      ReceiveVoteSound(c, s, s', r, voter, b, st');
      if LocalInv(s.replicas[r]) {
        VoteKeeps(c.n, s.replicas[r], voter, b, st');
      }
    } else {
      var x, off :| SwitchVotingStep(c, s, s', x, off);
      r, b, st' := x, Genesis, s.replicas[x].(voteDisabled := off);
      SwitchVotingSound(c, s, s', r, off);
    }
  }

  // ---- signatures of faulty replicas ----

  lemma FaultySignKeepsBallots(c: Config, s: System, s': System, f: ReplicaID, b: Block)
    requires BallotsOk(c, s) && FaultySignStep(c, s, s', f, b)
    ensures BallotsOk(c, s')
  {
    forall v | v in s'.signed && v.voter in c.honest
      ensures v.voter in s'.replicas && v in s'.locks
      ensures BallotOk(c, s'.signed, s'.replicas[v.voter], v.blk, s'.locks[v])
    {
      var st := s.replicas[v.voter];
      BallotGrows(c, s.signed, s'.signed, st, st, v.blk, s.locks[v]);
    }
  }

  lemma FaultySignKeepsHistory(c: Config, s: System, s': System, f: ReplicaID, b: Block)
    requires HistoryOk(c, s) && FaultySignStep(c, s, s', f, b)
    ensures HistoryOk(c, s')
  {
  }

  lemma FaultySignKeepsBase(c: Config, s: System, s': System, f: ReplicaID, b: Block)
    requires Base(c, s) && FaultySignStep(c, s, s', f, b)
    ensures Base(c, s')
  {
    FaultySignKeepsBallots(c, s, s', f, b);
    FaultySignKeepsHistory(c, s, s', f, b);
    AllKnow(c, s.signed, s'.signed, s.replicas);
  }

  // ---- the two-step build ----

  /** Before a block is certified, no honest replica that signed it was locked on it. */
  lemma AllVotersEarly(c: Config, s: System, w: Block)
    requires BallotsOk(c, s) && !Certified(c, s.signed, w)
    ensures EarlyVoters(c, s, w) == Voters(s.signed, w)
  {
  }

  lemma QuorumStaysEarly(c: Config, s: System, s': System, w: Block)
    requires EarlyQuorum(c, s, w) && Certified(c, s.signed, w)
    requires EarlyVoters(c, s, w) <= EarlyVoters(c, s', w)
    ensures EarlyQuorum(c, s', w)
  {
    if w.Node? {
      SubsetSize(EarlyVoters(c, s, w), EarlyVoters(c, s', w));
    }
  }

  lemma MoveKeepsEarly(c: Config, s: System, s': System, r: ReplicaID, st': Replica, vote: bool, b: Block)
    requires BallotsOk(c, s) && EarlyOk(c, s) && r in c.honest && r in s.replicas
    requires Moves(s, s', r, st', vote, b)
    requires vote ==> Height(b) > s.replicas[r].vheight && Certified(c, s.signed, st'.bLock)
    ensures EarlyOk(c, s')
  {
    assert vote ==> Ballot(r, b) !in s.signed;
    forall w ensures EarlyQuorum(c, s', w) {
      assert EarlyQuorum(c, s, w);
      if Certified(c, s.signed, w) {
        QuorumStaysEarly(c, s, s', w);
      } else {
        AllVotersEarly(c, s, w);
        assert EarlyVoters(c, s', w) == Voters(s'.signed, w);
      }
    }
  }

  lemma FaultySignKeepsEarly(c: Config, s: System, s': System, f: ReplicaID, b: Block)
    requires BallotsOk(c, s) && EarlyOk(c, s) && FaultySignStep(c, s, s', f, b)
    ensures EarlyOk(c, s')
  {
    forall w ensures EarlyQuorum(c, s', w) {
      assert EarlyQuorum(c, s, w);
      if Certified(c, s.signed, w) {
        QuorumStaysEarly(c, s, s', w);
      } else {
        AllVotersEarly(c, s, w);
        assert EarlyVoters(c, s', w) == Voters(s'.signed, w);
      }
    }
  }

  // ---- steps and runs ----

  lemma InitInv(c: Config, s: System)
    requires ValidConfig(c) && Init(c, s)
    ensures Inv(c, s) && EarlyOk(c, s)
  {
    assert Voters(s.signed, Genesis) == {};
    forall w ensures EarlyQuorum(c, s, w) {
      assert Voters(s.signed, w) == {};
    }
  }

  lemma NextBase(c: Config, s: System, s': System)
    requires Base(c, s) && EarlyOk(c, s) && Next(c, s, s')
    ensures Base(c, s') && EarlyOk(c, s')
  {
    if f, x :| FaultySignStep(c, s, s', f, x) {
      FaultySignKeepsBase(c, s, s', f, x);
      FaultySignKeepsEarly(c, s, s', f, x);
    } else {
      var r, st', vote, b := HonestStep(c, s, s');
      MoveKeepsBase(c, s, s', r, st', vote, b);
      MoveKeepsEarly(c, s, s', r, st', vote, b);
    }
  }

  /** Blocks stay delivered. */
  lemma NextAncestry(c: Config, s: System, s': System)
    requires Base(c, s) && Next(c, s, s') && AncestryOk(s')
    ensures AncestryOk(s)
  {
    if f, x :| FaultySignStep(c, s, s', f, x) {
    } else {
      var r, st', vote, b := HonestStep(c, s, s');
      forall q, x | q in s.replicas && x in s.replicas[q].delivered ensures QcOnBranch(x) {
        assert q in s'.replicas && x in s'.replicas[q].delivered;
      }
    }
  }

  lemma FaultySignKeepsInv(c: Config, s: System, s': System, f: ReplicaID, b: Block)
    requires LocalsOk(s) && LocksBelow(c, s) && FaultySignStep(c, s, s', f, b)
    ensures LocalsOk(s') && LocksBelow(c, s')
  {
  }

  lemma HonestKeepsInv(c: Config, s: System, s': System)
    requires Inv(c, s) && Next(c, s, s') && AncestryOk(s') && !exists f, x :: FaultySignStep(c, s, s', f, x)
    ensures Inv(c, s')
  {
    InvSafe(c, s);
    var r, st', vote, b := HonestStep(c, s, s');
    assert LocalInv(st') by {
      assert st' == s'.replicas[r] && LocalInv(s.replicas[r]);
    }
    MoveKeepsInv(c, s, s', r, st', vote, b);
  }

  lemma NextInv(c: Config, s: System, s': System)
    requires Inv(c, s) && Next(c, s, s') && AncestryOk(s')
    ensures Inv(c, s')
  {
    if f, x :| FaultySignStep(c, s, s', f, x) {
      FaultySignKeepsBase(c, s, s', f, x);
      FaultySignKeepsInv(c, s, s', f, x);
    } else {
      HonestKeepsInv(c, s, s');
    }
  }

  lemma {:induction false} RunBase(c: Config, run: seq<System>, i: nat)
    requires ValidConfig(c) && Run(c, run) && i < |run|
    ensures Base(c, run[i]) && EarlyOk(c, run[i])
  {
    if i == 0 {
      InitInv(c, run[0]);
    } else {
      RunBase(c, run, i - 1);
      assert Next(c, run[i - 1], run[i - 1 + 1]);
      NextBase(c, run[i - 1], run[i]);
    }
  }

  lemma {:induction false} RunInv(c: Config, run: seq<System>, i: nat)
    requires ValidConfig(c) && Run(c, run) && i < |run| && AncestryOk(run[i])
    ensures Inv(c, run[i])
  {
    if i == 0 {
      InitInv(c, run[0]);
    } else {
      assert Next(c, run[i - 1], run[i - 1 + 1]);
      RunBase(c, run, i - 1);
      NextAncestry(c, run[i - 1], run[i]);
      RunInv(c, run, i - 1);
      NextInv(c, run[i - 1], run[i]);
    }
  }

  lemma ReachableInv(c: Config, s: System)
    requires ValidConfig(c) && Reachable(c, s) && AncestryOk(s)
    ensures Inv(c, s)
  {
    var run :| Run(c, run) && run[|run| - 1] == s;
    RunInv(c, run, |run| - 1);
  }
}
