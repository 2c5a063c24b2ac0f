/** The certificates that replicas collect, over whole runs of the system: when the vote that completes
    one leaves the replica with a certificate that others can verify. */
module Certificates {
  import opened Blocks
  import opened Quorum
  import opened Replicas
  import opened Protocol
  import opened Progress
  import opened Aggregation
  import opened Liveness

  /** In this step replica `r` proposes `b`, successfully or not. */
  ghost predicate ProposesIn(c: Config, s: System, s': System, r: ReplicaID, b: Block) {
    r in s.replicas && exists cmds, extra {:trigger NewBlock(s.replicas[r], [s.replicas[r].hqcTail], cmds, extra)} ::
      && b == NewBlock(s.replicas[r], [s.replicas[r].hqcTail], cmds, extra)
      && ((exists st', vote :: ProposeStep(c, s, s', r, cmds, extra, st', vote))
          || ProposeTooLowStep(c, s, s', r, cmds, extra) || ProposeBreachStep(c, s, s', r, cmds, extra))
  }

  /** Before state `i`, replica `r` proposed `b` again after it had counted a vote for it. */
  ghost predicate RestartedBefore(c: Config, run: seq<System>, i: nat, r: ReplicaID, b: Block)
    requires i < |run|
  {
    exists j :: 0 <= j < i && RestartsAt(c, run, j, r, b)
  }

  ghost predicate RestartsAt(c: Config, run: seq<System>, j: nat, r: ReplicaID, b: Block)
    requires j + 1 < |run|
  {
    ProposesIn(c, run[j], run[j + 1], r, b) && VotedFor(run[j].replicas[r], b) != {}
  }

  predicate Emptied(st: Replica, b: Block, st': Replica) {
    st'.voted == st.voted && st'.selfQc == st.selfQc[b := {}]
  }

  lemma ProcessedEmptied(k: Steps, st: Replica, b: Block)
    ensures Emptied(st, b, Processed(k, Introduce(st, b), b))
    ensures Emptied(st, b, Judge(Processed(k, Introduce(st, b), b), b).(hqcTail := b))
  {
    IntroduceIntroduces(st, b);
    assert Processed(k, Introduce(st, b), b).voted == Introduce(st, b).voted;
    assert Processed(k, Introduce(st, b), b).selfQc == Introduce(st, b).selfQc;
  }

  predicate OwnStep(c: Config, s: System, s': System, r: ReplicaID, b: Block) {
    r in s.replicas && s'.replicas.Keys == s.replicas.Keys && Emptied(s.replicas[r], b, s'.replicas[r])
    && forall q :: q in s.replicas && q != r ==> s'.replicas[q] == s.replicas[q]
  }

  lemma ProposeIsOwn(c: Config, s: System, s': System, r: ReplicaID, cmds: seq<Command>, extra: seq<Byte>,
                     st': Replica, vote: bool)
    requires ProposeStep(c, s, s', r, cmds, extra, st', vote)
    ensures OwnStep(c, s, s', r, NewBlock(s.replicas[r], [s.replicas[r].hqcTail], cmds, extra))
  {
    ProcessedEmptied(c.steps, s.replicas[r], NewBlock(s.replicas[r], [s.replicas[r].hqcTail], cmds, extra));
  }

  lemma FailureIsOwn(c: Config, s: System, s': System, r: ReplicaID, cmds: seq<Command>, extra: seq<Byte>)
    requires ProposeTooLowStep(c, s, s', r, cmds, extra) || ProposeBreachStep(c, s, s', r, cmds, extra)
    ensures OwnStep(c, s, s', r, NewBlock(s.replicas[r], [s.replicas[r].hqcTail], cmds, extra))
  {
    ProcessedEmptied(c.steps, s.replicas[r], NewBlock(s.replicas[r], [s.replicas[r].hqcTail], cmds, extra));
  }

  /** A proposal starts an empty certificate. */
  lemma ProposalEmpties(c: Config, s: System, s': System, r: ReplicaID, b: Block)
    requires ProposesIn(c, s, s', r, b)
    ensures OwnStep(c, s, s', r, b)
    ensures VotedFor(s'.replicas[r], b) == VotedFor(s.replicas[r], b) && SelfQc(s'.replicas[r], b) == {}
  {
    var cmds, extra :|
      && b == NewBlock(s.replicas[r], [s.replicas[r].hqcTail], cmds, extra)
      && ((exists st', vote :: ProposeStep(c, s, s', r, cmds, extra, st', vote))
          || ProposeTooLowStep(c, s, s', r, cmds, extra) || ProposeBreachStep(c, s, s', r, cmds, extra));
    if st', vote :| ProposeStep(c, s, s', r, cmds, extra, st', vote) {
      ProposeIsOwn(c, s, s', r, cmds, extra, st', vote);
    } else {
      FailureIsOwn(c, s, s', r, cmds, extra);
    }
  }

  /** One more vote for `b` has been counted. */
  predicate Gains(n: nat, st: Replica, b: Block, st': Replica) {
    exists voter :: voter in VotedFor(st', b) && VoteAdds(n, st, voter, b, st')
  }

  predicate VoteAdds(n: nat, st: Replica, voter: ReplicaID, b: Block, st': Replica) {
    && !Late(n, st, voter, b)
    && VotedFor(st', b) == VotedFor(st, b) + {voter} && SelfQc(st', b) == SelfQc(st, b) + {voter}
  }

  lemma VoteGains(c: Config, s: System, s': System, q: ReplicaID, voter: ReplicaID, x: Block, st': Replica,
                  r: ReplicaID, b: Block)
    requires ReceiveVoteStep(c, s, s', q, voter, x, st') && r in s.replicas
    ensures r in s'.replicas
    ensures SameBox(s.replicas[r], s'.replicas[r], b) || Gains(c.n, s.replicas[r], b, s'.replicas[r])
  {
    if q == r {
      VoteCounted(c.n, s.replicas[r], voter, x, st');
      if x == b && !Late(c.n, s.replicas[r], voter, b) {
        assert VoteAdds(c.n, s.replicas[r], voter, b, st');
      } else if x != b {
        assert SameBox(s.replicas[r], st', b);
      }
    }
  }

  lemma OwnSame(c: Config, s: System, s': System, q: ReplicaID, x: Block, r: ReplicaID, b: Block)
    requires OwnStep(c, s, s', q, x) && r in s.replicas && (q != r || x != b)
    ensures r in s'.replicas && SameBox(s.replicas[r], s'.replicas[r], b)
  {
  }

  /** A step that leaves votes and certificates alone. */
  lemma QuietSame(c: Config, s: System, s': System, r: ReplicaID, b: Block)
    requires r in s.replicas
    requires || (exists q, x :: DeliverStep(c, s, s', q, x))
             || (exists q, x, tail :: BreachStep(c, s, s', q, x, tail))
             || (exists q, off :: SwitchVotingStep(c, s, s', q, off))
             || (exists f, x :: FaultySignStep(c, s, s', f, x))
    ensures r in s'.replicas && SameBox(s.replicas[r], s'.replicas[r], b)
  {
  }

  lemma HeardSame(c: Config, s: System, s': System, q: ReplicaID, x: Block, st': Replica, vote: bool,
                  r: ReplicaID, b: Block)
    requires ReceiveProposalStep(c, s, s', q, x, st', vote) && r in s.replicas
    ensures r in s'.replicas && SameBox(s.replicas[r], s'.replicas[r], b)
  {
    var p := Processed(c.steps, s.replicas[q], x);
    assert p.voted == s.replicas[q].voted && p.selfQc == s.replicas[q].selfQc;
  }

  /** Nothing but proposals of `b` and votes for it changes its certificate. */
  lemma OtherwiseGains(c: Config, s: System, s': System, r: ReplicaID, b: Block)
    requires Next(c, s, s') && r in s.replicas && !ProposesIn(c, s, s', r, b)
    ensures r in s'.replicas
    ensures SameBox(s.replicas[r], s'.replicas[r], b) || Gains(c.n, s.replicas[r], b, s'.replicas[r])
  {
    if q, voter, x, st' :| ReceiveVoteStep(c, s, s', q, voter, x, st') {
      VoteGains(c, s, s', q, voter, x, st', r, b);
    } else if q, x, st', vote :| ReceiveProposalStep(c, s, s', q, x, st', vote) {
      HeardSame(c, s, s', q, x, st', vote, r, b);
    } else if q, cmds, extra, st', vote :| ProposeStep(c, s, s', q, cmds, extra, st', vote) {
      ProposeIsOwn(c, s, s', q, cmds, extra, st', vote);
      OwnSame(c, s, s', q, NewBlock(s.replicas[q], [s.replicas[q].hqcTail], cmds, extra), r, b);
    } else if q, cmds, extra :| ProposeTooLowStep(c, s, s', q, cmds, extra) || ProposeBreachStep(c, s, s', q, cmds, extra) {
      FailureIsOwn(c, s, s', q, cmds, extra);
      OwnSame(c, s, s', q, NewBlock(s.replicas[q], [s.replicas[q].hqcTail], cmds, extra), r, b);
    } else {
      QuietSame(c, s, s', r, b);
    }
  }

  // ---- over a run ----

  /** What a run has made of the votes for `b` and its certificate. */
  ghost predicate Tracks(c: Config, run: seq<System>, i: nat, r: ReplicaID, b: Block)
    requires i < |run|
  {
    && r in run[i].replicas
    && var voted, qc := VotedFor(run[i].replicas[r], b), SelfQc(run[i].replicas[r], b);
       && qc <= voted && |voted| <= Majority(c.n)
       && (qc == voted <==> !RestartedBefore(c, run, i, r, b))
  }

  lemma RestartedNext(c: Config, run: seq<System>, i: nat, r: ReplicaID, b: Block)
    requires i + 1 < |run|
    ensures RestartedBefore(c, run, i + 1, r, b) <==> RestartedBefore(c, run, i, r, b) || RestartsAt(c, run, i, r, b)
  {
  }

  lemma GainTracks(n: nat, st: Replica, b: Block, st': Replica)
    requires Gains(n, st, b, st') && SelfQc(st, b) <= VotedFor(st, b)
    ensures SelfQc(st', b) <= VotedFor(st', b) && |VotedFor(st', b)| <= Majority(n)
    ensures SelfQc(st', b) == VotedFor(st', b) <==> SelfQc(st, b) == VotedFor(st, b)
  {
    var voter :| voter in VotedFor(st', b) && VoteAdds(n, st, voter, b, st');
    var voted, qc := VotedFor(st, b), SelfQc(st, b);
    assert voter !in voted && |voted + {voter}| == |voted| + 1;
    assert voted == voted + {voter} - {voter} && qc == qc + {voter} - {voter};
  }

  lemma TracksNext(c: Config, run: seq<System>, i: nat, r: ReplicaID, b: Block)
    requires Run(c, run) && i + 1 < |run| && Tracks(c, run, i, r, b)
    ensures Tracks(c, run, i + 1, r, b)
  {
    var s, s' := run[i], run[i + 1];
    assert Next(c, s, s');
    RestartedNext(c, run, i, r, b);
    if ProposesIn(c, s, s', r, b) {
      ProposalEmpties(c, s, s', r, b);
    } else {
      OtherwiseGains(c, s, s', r, b);
      if Gains(c.n, s.replicas[r], b, s'.replicas[r]) {
        GainTracks(c.n, s.replicas[r], b, s'.replicas[r]);
      }
    }
  }

  lemma {:induction false} RunTracks(c: Config, run: seq<System>, i: nat, r: ReplicaID, b: Block)
    requires ValidConfig(c) && Run(c, run) && i < |run| && r in c.honest && b.Node?
    ensures Tracks(c, run, i, r, b)
  {
    if i > 0 {
      RunTracks(c, run, i - 1, r, b);
      TracksNext(c, run, i - 1, r, b);
    }
  }

  /** In every run: the vote that completes the certificate of a block above `hqc` makes that block the
      `hqc` of the replica, with the signatures it has counted since it last proposed the block.  They
      are `nmajority`, so that others accept what the replica proposes next, if and only if it had not
      proposed the block again after counting a vote. */
  lemma CompletedCertificate(c: Config, run: seq<System>, i: nat, r: ReplicaID, voter: ReplicaID, b: Block, st': Replica)
    requires ValidConfig(c) && Run(c, run) && i + 1 < |run|
    requires ReceiveVoteStep(c, run[i], run[i + 1], r, voter, b, st')
    requires Completes(c.n, run[i].replicas[r], voter, b) && Height(b) > Height(run[i].replicas[r].hqc)
    ensures st'.hqc == b && voter in st'.hqcCert && st'.hqcCert <= VotedFor(st', b) && |st'.hqcCert| <= Majority(c.n)
    ensures |st'.hqcCert| == Majority(c.n) <==> !RestartedBefore(c, run, i, r, b)
    ensures Presentable(c, st') <==> !RestartedBefore(c, run, i, r, b)
  {
    var st := run[i].replicas[r];
    RunTracks(c, run, i, r, b);
    VoteCounted(c.n, st, voter, b, st');
    assert VotedFor(st', b) == VotedFor(st, b) + {voter} && st'.hqcCert == SelfQc(st, b) + {voter};
    ProperSubsetSmaller(st'.hqcCert, VotedFor(st', b));
    assert voter !in VotedFor(st, b);
  }
}
