/** Agreement over all runs, and how the decisions of a replica grow over a whole run.

    The theorems need `Trusted`: in the two-step build nothing at all, in the three-step build that
    the certificates delivered by honest replicas name ancestors.  Module `Fork` shows that the
    three-step build needs it. */
module Agreement {
  import opened Blocks
  import opened Replicas
  import opened Logs
  import opened Progress
  import opened Protocol
  import opened Safety
  import opened TwoSteps
  import opened Invariance

  // ---- what agreement rests on ----

  /** What a caller can check of the blocks that honest replicas have delivered. */
  predicate Trusted(c: Config, s: System) {
    c.steps == TwoStep || AncestryOk(s)
  }

  lemma RunSafe(c: Config, run: seq<System>, i: nat)
    requires ValidConfig(c) && Run(c, run) && i < |run| && Trusted(c, run[i])
    ensures Safe(c, run[i])
  {
    if c.steps == TwoStep {
      RunBase(c, run, i);
      TwoStepSafe(c, run[i]);
    } else {
      RunInv(c, run, i);
      InvSafe(c, run[i]);
    }
  }

  /** A state that comes before a trusted one is trusted. */
  lemma {:induction false} TrustedBefore(c: Config, run: seq<System>, i: nat, j: nat)
    requires ValidConfig(c) && Run(c, run) && i <= j < |run| && Trusted(c, run[j])
    ensures Trusted(c, run[i])
    decreases j
  {
    if i < j && c.steps == ThreeStep {
      RunBase(c, run, j - 1);
      assert Next(c, run[j - 1], run[j - 1 + 1]);
      NextAncestry(c, run[j - 1], run[j]);
      TrustedBefore(c, run, i, j - 1);
    }
  }

  // ---- how one step changes the executed block and the signatures ----

  lemma HigherComparableExtends(a: Block, b: Block)
    requires Comparable(a, b) && Height(a) <= Height(b)
    ensures Extends(b, a)
  {
    if Extends(a, b) {
      ExtendsHeight(a, b);
    }
  }

  /** `update` moves `b_exec` only forward on its own branch, or throws. */
  lemma UpdateExecExtends(k: Steps, st: Replica, b: Block)
    requires !Breach(k, st, b)
    ensures Extends(Update(k, st, b).bExec, st.bExec)
  {
    var blk := CommitIn(k, st.delivered, b);
    if DirectChain(k, RefIn(st.delivered, b)) && Height(blk) > Height(st.bExec) {
      HigherComparableExtends(st.bExec, blk);
    }
  }

  predicate ExecGrows(s: System, s': System) {
    && s.signed <= s'.signed && s.replicas.Keys == s'.replicas.Keys
    && forall r :: r in s.replicas ==> Extends(s'.replicas[r].bExec, s.replicas[r].bExec)
  }

  lemma MoveExecGrows(s: System, s': System, r: ReplicaID, st': Replica, vote: bool, b: Block)
    requires r in s.replicas && Moves(s, s', r, st', vote, b)
    requires Extends(st'.bExec, s.replicas[r].bExec)
    ensures ExecGrows(s, s')
  {
  }

  lemma ReceiveExecGrows(c: Config, s: System, s': System, r: ReplicaID, b: Block, st': Replica, vote: bool)
    requires ReceiveProposalStep(c, s, s', r, b, st', vote)
    ensures ExecGrows(s, s')
  {
    UpdateExecExtends(c.steps, s.replicas[r], b);
    MoveExecGrows(s, s', r, st', vote, b);
  }

  lemma ProposeExecGrows(c: Config, s: System, s': System, r: ReplicaID, b: Block, st': Replica, vote: bool)
    requires r in s.replicas && st'.bExec == Processed(c.steps, Introduce(s.replicas[r], b), b).bExec
    requires Moves(s, s', r, st', vote, b)
    ensures ExecGrows(s, s')
  {
    var st := Introduce(s.replicas[r], b);
    if !Breach(c.steps, st, b) {
      UpdateExecExtends(c.steps, st, b);
    }
    MoveExecGrows(s, s', r, st', vote, b);
  }

  /** A step that commits nothing. */
  lemma OtherExecGrows(c: Config, s: System, s': System)
    requires || (exists r, b :: DeliverStep(c, s, s', r, b))
             || (exists r, b, tail :: BreachStep(c, s, s', r, b, tail))
             || (exists r, voter, b, st' :: ReceiveVoteStep(c, s, s', r, voter, b, st'))
             || (exists r, off :: SwitchVotingStep(c, s, s', r, off))
             || (exists f, b :: FaultySignStep(c, s, s', f, b))
    ensures ExecGrows(s, s')
  {
  }

  lemma NextExecGrows(c: Config, s: System, s': System)
    requires Next(c, s, s')
    ensures ExecGrows(s, s')
  {
    if r, b, st', vote :| ReceiveProposalStep(c, s, s', r, b, st', vote) {
      ReceiveExecGrows(c, s, s', r, b, st', vote);
    } else if r, cmds, extra, st', vote :| ProposeStep(c, s, s', r, cmds, extra, st', vote) {
      var b := NewBlock(s.replicas[r], [s.replicas[r].hqcTail], cmds, extra);
      ProposeExecGrows(c, s, s', r, b, st', vote);
    } else if r, cmds, extra :| ProposeTooLowStep(c, s, s', r, cmds, extra) || ProposeBreachStep(c, s, s', r, cmds, extra) {
      var b := NewBlock(s.replicas[r], [s.replicas[r].hqcTail], cmds, extra);
      ProposeExecGrows(c, s, s', r, b, Processed(c.steps, Introduce(s.replicas[r], b), b), false);
    } else {
      OtherExecGrows(c, s, s');
    }
  }

  lemma ExecGrowsTransitive(s: System, s1: System, s2: System)
    requires ExecGrows(s, s1) && ExecGrows(s1, s2)
    ensures ExecGrows(s, s2)
  {
    forall r | r in s.replicas ensures Extends(s2.replicas[r].bExec, s.replicas[r].bExec) {
      ExtendsTransitive(s2.replicas[r].bExec, s1.replicas[r].bExec, s.replicas[r].bExec);
    }
  }

  predicate GrowsAt(run: seq<System>, i: nat)
    requires i + 1 < |run|
  {
    ExecGrows(run[i], run[i + 1])
  }

  lemma RunStepGrows(c: Config, run: seq<System>, i: nat)
    requires Run(c, run) && i + 1 < |run|
    ensures GrowsAt(run, i)
  {
    NextExecGrows(c, run[i], run[i + 1]);
  }

  lemma {:induction false} GrowthAddsUp(run: seq<System>, i: nat, j: nat)
    requires i <= j < |run|
    requires forall k: nat {:trigger GrowsAt(run, k)} :: k < j ==> GrowsAt(run, k)
    ensures ExecGrows(run[i], run[j])
    decreases j
  {
    if i < j {
      GrowthAddsUp(run, i, j - 1);
      assert GrowsAt(run, j - 1);
      ExecGrowsTransitive(run[i], run[j - 1], run[j]);
    }
  }

  lemma RunExecGrows(c: Config, run: seq<System>, i: nat, j: nat)
    requires Run(c, run) && i <= j < |run|
    ensures ExecGrows(run[i], run[j])
  {
    forall k: nat | k < j ensures GrowsAt(run, k) {
      RunStepGrows(c, run, k);
    }
    GrowthAddsUp(run, i, j);
  }

  // ---- main theorems ----

  /** The safety exception is unreachable: whatever block an honest replica has delivered,
      the block it commits and the last executed block lie on one branch. */
  lemma SafetyBreachUnreachable(c: Config, s: System, r: ReplicaID, b: Block)
    requires ValidConfig(c) && Reachable(c, s) && Trusted(c, s) && r in c.honest
    ensures r in s.replicas
    ensures b in s.replicas[r].delivered ==> !Breach(c.steps, s.replicas[r], b)
  {
    var run :| Run(c, run) && run[|run| - 1] == s;
    RunSafe(c, run, |run| - 1);
    if b in s.replicas[r].delivered {
      NoBreach(c, s, r, b);
    }
  }

  /** While certificates name ancestors, `hqc` and `b_lock` of an honest replica descend from its
      `b_exec`. */
  lemma LockAndHqcFollowExec(c: Config, s: System, r: ReplicaID)
    requires ValidConfig(c) && Reachable(c, s) && AncestryOk(s) && r in c.honest
    ensures r in s.replicas
    ensures Extends(s.replicas[r].bLock, s.replicas[r].bExec)
    ensures Extends(s.replicas[r].hqc, s.replicas[r].bExec)
  {
    ReachableInv(c, s);
    CertifiedAboveCommitted(c, s, s.replicas[r].bExec, s.replicas[r].bLock);
    CertifiedAboveCommitted(c, s, s.replicas[r].bExec, s.replicas[r].hqc);
  }

  /** Agreement, even between what one replica has executed at one time and another at
      another time of a run. */
  lemma ExecutedComparable(c: Config, run: seq<System>, i: nat, j: nat, r: ReplicaID, q: ReplicaID)
    requires ValidConfig(c) && Run(c, run) && i <= j < |run| && Trusted(c, run[j])
    requires r in c.honest && q in c.honest
    ensures r in run[i].replicas && q in run[j].replicas
    ensures Comparable(run[i].replicas[r].bExec, run[j].replicas[q].bExec)
  {
    TrustedBefore(c, run, i, j);
    RunSafe(c, run, i);
    RunSafe(c, run, j);
    RunExecGrows(c, run, i, j);
    CommittedGrows(c, run[i].signed, run[j].signed, run[i].replicas[r].bExec);
  }

  /** The decision sequences of two honest replicas, at any two times, agree as far as both go. */
  lemma DecisionsAgree(c: Config, run: seq<System>, i: nat, j: nat, r: ReplicaID, q: ReplicaID)
    requires ValidConfig(c) && Run(c, run) && i <= j < |run| && Trusted(c, run[j])
    requires r in c.honest && q in c.honest
    ensures r in run[i].replicas && q in run[j].replicas
    ensures var x := Anonymous(Decisions(r, run[i].replicas[r].bExec));
            var y := Anonymous(Decisions(q, run[j].replicas[q].bExec));
            x <= y || y <= x
  {
    ExecutedComparable(c, run, i, j, r, q);
    var a, b := run[i].replicas[r].bExec, run[j].replicas[q].bExec;
    AnonymousDecisions(r, a);
    AnonymousDecisions(q, b);
    if Extends(a, b) {
      DecisionsPrefix(0, a, b);
    } else {
      DecisionsPrefix(0, b, a);
    }
  }

  /** What a replica has decided stays decided, in the same order, whatever certificates name. */
  lemma DecisionsOnlyGrow(c: Config, run: seq<System>, i: nat, j: nat, r: ReplicaID)
    requires ValidConfig(c) && Run(c, run) && i <= j < |run| && r in c.honest
    ensures r in run[i].replicas && r in run[j].replicas
    ensures Decisions(r, run[i].replicas[r].bExec) <= Decisions(r, run[j].replicas[r].bExec)
  {
    RunBase(c, run, i);
    RunExecGrows(c, run, i, j);
    DecisionsPrefix(r, run[j].replicas[r].bExec, run[i].replicas[r].bExec);
  }

  lemma ProposalCommits(c: Config, st: Replica, b: Block, st': Replica, vote: bool)
    requires Closed(st.delivered) && !Breach(c.steps, st, b) && ReceivesProposal(c.steps, st, b, st', vote)
    requires Commits(c.steps, st.delivered, b)
    ensures Extends(st'.bExec, Bottom(c.steps, b))
  {
    BreachMeans(c.steps, st, b);
    ReceiveHeard(c.steps, st, b, st', vote);
  }

  lemma StaysExecuted(c: Config, run: seq<System>, i: nat, j: nat, r: ReplicaID, b: Block)
    requires Run(c, run) && i <= j < |run| && r in run[i].replicas && Extends(run[i].replicas[r].bExec, b)
    ensures r in run[j].replicas && Logged(r, b, Decisions(r, run[j].replicas[r].bExec))
  {
    RunExecGrows(c, run, i, j);
    ExtendsTransitive(run[j].replicas[r].bExec, run[i].replicas[r].bExec, b);
    ExecutedIsLogged(r, run[j].replicas[r].bExec, b);
  }

  /** In every run: once a replica has processed, without an exception, a proposal that certifies the top
      of a direct chain, the whole branch of the block at its bottom is decided for good. */
  lemma ProcessedIsDecided(c: Config, run: seq<System>, i: nat, j: nat, r: ReplicaID, b: Block, st': Replica, vote: bool)
    requires ValidConfig(c) && Run(c, run) && i < j < |run|
    requires ReceiveProposalStep(c, run[i], run[i + 1], r, b, st', vote)
    requires Commits(c.steps, run[i].replicas[r].delivered, b)
    ensures r in run[j].replicas && Logged(r, Bottom(c.steps, b), Decisions(r, run[j].replicas[r].bExec))
  {
    RunClosed(c, run, i, r);
    ProposalCommits(c, run[i].replicas[r], b, st', vote);
    StaysExecuted(c, run, i + 1, j, r, Bottom(c.steps, b));
  }

  lemma RunClosed(c: Config, run: seq<System>, i: nat, r: ReplicaID)
    requires ValidConfig(c) && Run(c, run) && i < |run| && r in c.honest
    ensures r in run[i].replicas && Closed(run[i].replicas[r].delivered)
  {
    RunBase(c, run, i);
    assert Loose(run[i].replicas[r]);
  }

  /** In every run: when any replica has executed a block that was proposed, or one above it, every
      command given to the proposer is decided, with its index. */
  lemma ProposedIsDecided(c: Config, run: seq<System>, i: nat, j: nat, r: ReplicaID, q: ReplicaID,
                          cmds: seq<Command>, extra: seq<Byte>, st': Replica, vote: bool, k: nat)
    requires Run(c, run) && i + 1 < |run| && j < |run| && q in run[j].replicas && k < |cmds|
    requires ProposeStep(c, run[i], run[i + 1], r, cmds, extra, st', vote)
    requires Extends(run[j].replicas[q].bExec, st'.hqcTail)
    ensures Height(st'.hqcTail) == Height(run[i].replicas[r].hqcTail) + 1
    ensures Finality(q, k, Height(st'.hqcTail), cmds[k], st'.hqcTail) in Decisions(q, run[j].replicas[q].bExec)
  {
    NewBlockHolds(run[i].replicas[r], [run[i].replicas[r].hqcTail], cmds, extra);
    CommandsDecided(q, run[j].replicas[q].bExec, st'.hqcTail, k);
  }

  /** Two blocks that any two honest replicas have ever executed at the same height are equal. */
  lemma OneExecutedPerHeight(c: Config, run: seq<System>, i: nat, j: nat,
                             r: ReplicaID, q: ReplicaID, x: Block, y: Block)
    requires ValidConfig(c) && Run(c, run) && i <= j < |run| && Trusted(c, run[j])
    requires r in c.honest && q in c.honest
    requires r in run[i].replicas && q in run[j].replicas
    requires x in Chain(run[i].replicas[r].bExec) && y in Chain(run[j].replicas[q].bExec)
    requires Height(x) == Height(y)
    ensures x == y
  {
    var a, b := run[i].replicas[r].bExec, run[j].replicas[q].bExec;
    ExecutedComparable(c, run, i, j, r, q);
    ChainIsAncestors(a, x);
    ChainIsAncestors(b, y);
    if Extends(a, b) {
      ExtendsTransitive(a, b, y);
      AncestorsComparable(a, x, y);
    } else {
      ExtendsTransitive(b, a, x);
      AncestorsComparable(b, x, y);
    }
    ExtendsHeight(y, x);
  }
}
