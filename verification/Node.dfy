/** The handlers of the class are the steps of the system.

    Each method below runs one handler of an honest replica, in a system in any state that a run can
    reach, and shows that the call is a step of the system, or, for `prune`, changes nothing that the
    system sees.  "Safety breached" is not thrown where `Assured` holds. */
module Node {
  import opened Blocks
  import opened Replicas
  import opened Local
  import opened Protocol
  import opened Safety
  import opened TwoSteps
  import opened Invariance
  import opened Agreement
  import opened Logs
  import opened Links
  import opened Core

  /** `core` is in the state of replica `r` of the system `s`. */
  ghost predicate Mirrors(c: Config, s: System, r: ReplicaID, core: HotStuffCore)
    reads core, core.pm
  {
    && r in c.honest && r in s.replicas
    && core.Linked() && core.id == r && core.nreplicas == c.n && core.steps == c.steps
    && s.replicas[r] == core.Abs()
  }

  /** `core` is replica `r` of the system `s`, and its handlers do what the algorithm says. */
  ghost predicate Represents(c: Config, s: System, r: ReplicaID, core: HotStuffCore)
    reads core, core.pm
  {
    Mirrors(c, s, r, core) && core.Working()
  }

  /** What every reachable state satisfies, whatever certificates name. */
  ghost predicate Sound(c: Config, s: System) {
    Base(c, s) && EarlyOk(c, s)
  }

  /** Nothing that replica `r` may commit conflicts with what it has executed. */
  ghost predicate Assured(c: Config, s: System, r: ReplicaID) {
    r in s.replicas && (Inv(c, s) || c.steps == TwoStep || s.replicas[r].bExec == Genesis)
  }

  lemma AssuredNoBreach(c: Config, s: System, r: ReplicaID, b: Block)
    requires Sound(c, s) && Assured(c, s, r)
    requires b in s.replicas[r].delivered || (Ref(b) == s.replicas[r].hqc && ParentsDelivered(s.replicas[r].delivered, b))
    ensures !Breach(c.steps, s.replicas[r], b)
    ensures b !in s.replicas[r].delivered ==> !Breach(c.steps, Introduce(s.replicas[r], b), b)
  {
    if Inv(c, s) || c.steps == TwoStep {
      if Inv(c, s) {
        InvSafe(c, s);
      } else {
        TwoStepSafe(c, s);
      }
      if b in s.replicas[r].delivered {
        NoBreach(c, s, r, b);
      } else {
        NoBreachOnPropose(c, s, r, b);
      }
    } else {
      ExtendsGenesis(CommitIn(c.steps, s.replicas[r].delivered, b));
      ExtendsGenesis(CommitIn(c.steps, Introduce(s.replicas[r], b).delivered, b));
    }
  }

  /** The system after replica `r` has moved. */
  ghost function After(s: System, r: ReplicaID, st': Replica, vote: bool, b: Block): (s': System)
    requires r in s.replicas
    ensures Moves(s, s', r, st', vote, b)
  {
    System(s.replicas[r := st'],
           if vote then s.signed + {Ballot(r, b)} else s.signed,
           if vote then s.locks[Ballot(r, b) := st'.bLock] else s.locks)
  }

  /** A sound move leads to a sound state, and keeps the full invariant with `LocalInv`. */
  lemma MoveKeeps(c: Config, s: System, s': System, r: ReplicaID, st': Replica, vote: bool, b: Block)
    requires Sound(c, s) && SoundMove(c, s, s', r, st', vote, b)
    ensures Sound(c, s')
    ensures Inv(c, s) && LocalInv(st') ==> Inv(c, s')
  {
    MoveKeepsBase(c, s, s', r, st', vote, b);
    MoveKeepsEarly(c, s, s', r, st', vote, b);
    if Inv(c, s) && LocalInv(st') {
      MoveKeepsInv(c, s, s', r, st', vote, b);
    }
  }

  ghost predicate KeepsLocal(s: System, s': System, r: ReplicaID)
    requires r in s.replicas && r in s'.replicas
  {
    LocalInv(s.replicas[r]) ==> LocalInv(s'.replicas[r])
  }

  /** The move of replica `r` from `s` to `s'` is a step, and keeps what it should. */
  ghost predicate GoodStep(c: Config, s: System, s': System, r: ReplicaID) {
    && Next(c, s, s') && Sound(c, s') && r in s.replicas && r in s'.replicas
    && (Inv(c, s) && KeepsLocal(s, s', r) ==> Inv(c, s') && LocalInv(s'.replicas[r]))
  }

  lemma DeliverIsStep(c: Config, s: System, r: ReplicaID, b: Block)
    requires Sound(c, s) && r in c.honest && r in s.replicas
    requires b.Node? && ParentsDelivered(s.replicas[r].delivered, b)
    requires CertOk(c, s.signed, b)
    ensures GoodStep(c, s, After(s, r, Replicas.Deliver(s.replicas[r], b), false, b), r)
  {
    var st' := Replicas.Deliver(s.replicas[r], b);
    var s' := After(s, r, st', false, b);
    assert DeliverStep(c, s, s', r, b);
    DeliverSound(c, s, s', r, b);
    MoveKeeps(c, s, s', r, st', false, b);
  }

  lemma ReceiveIsStep(c: Config, s: System, r: ReplicaID, b: Block, st': Replica, vote: bool)
    requires Sound(c, s) && r in c.honest && r in s.replicas
    requires b in s.replicas[r].delivered && !Breach(c.steps, s.replicas[r], b)
    requires ReceivesProposal(c.steps, s.replicas[r], b, st', vote)
    ensures GoodStep(c, s, After(s, r, st', vote, b), r)
  {
    var s' := After(s, r, st', vote, b);
    assert ReceiveProposalStep(c, s, s', r, b, st', vote);
    ReceiveProposalSound(c, s, s', r, b, st', vote);
    MoveKeeps(c, s, s', r, st', vote, b);
  }

  lemma ProposeIsStep(c: Config, s: System, r: ReplicaID, cmds: seq<Command>, extra: seq<Byte>, b: Block,
                      st': Replica, vote: bool)
    requires Sound(c, s) && r in c.honest && r in s.replicas
    requires b == NewBlock(s.replicas[r], [s.replicas[r].hqcTail], cmds, extra)
    requires !Breach(c.steps, Introduce(s.replicas[r], b), b)
    requires if Height(b) > s.replicas[r].vheight then Proposes(c.steps, s.replicas[r], b, st', vote)
             else !vote && st' == Processed(c.steps, Introduce(s.replicas[r], b), b)
    ensures GoodStep(c, s, After(s, r, st', vote, b), r)
  {
    var s' := After(s, r, st', vote, b);
    if Height(b) > s.replicas[r].vheight {
      assert ProposeStep(c, s, s', r, cmds, extra, st', vote);
      ProposeSound(c, s, s', r, cmds, extra, st', vote);
    } else {
      assert ProposeTooLowStep(c, s, s', r, cmds, extra);
      FailedProposeSound(c, s, s', r, cmds, extra);
    }
    MoveKeeps(c, s, s', r, st', vote, b);
  }

  lemma VoteIsStep(c: Config, s: System, r: ReplicaID, voter: ReplicaID, b: Block, st': Replica)
    requires Sound(c, s) && r in c.honest && r in s.replicas
    requires b in s.replicas[r].delivered && Ballot(voter, b) in s.signed
    requires ReceivesVote(c.n, s.replicas[r], voter, b, st')
    ensures GoodStep(c, s, After(s, r, st', false, b), r)
    ensures Completes(c.n, s.replicas[r], voter, b) ==> Certified(c, s.signed, b)
  {
    var s' := After(s, r, st', false, b);
    assert ReceiveVoteStep(c, s, s', r, voter, b, st');
    ReceiveVoteSound(c, s, s', r, voter, b, st');
    MoveKeeps(c, s, s', r, st', false, b);
    CountVoteSigned(c.n, s.signed, s.replicas[r], voter, b);
  }

  lemma SwitchIsStep(c: Config, s: System, r: ReplicaID, off: bool)
    requires Sound(c, s) && r in c.honest && r in s.replicas
    ensures GoodStep(c, s, After(s, r, s.replicas[r].(voteDisabled := off), false, Genesis), r)
  {
    var st' := s.replicas[r].(voteDisabled := off);
    var s' := After(s, r, st', false, Genesis);
    assert SwitchVotingStep(c, s, s', r, off);
    SwitchVotingSound(c, s, s', r, off);
    MoveKeeps(c, s, s', r, st', false, Genesis);
  }

  lemma LocalOf(c: Config, s: System, r: ReplicaID)
    requires Inv(c, s) && r in s.replicas
    ensures LocalInv(s.replicas[r])
  {
  }

  /** A replica that has just been set up is in its initial state. */
  method Start(c: Config, ghost s: System, r: ReplicaID) returns (core: HotStuffCore)
    requires ValidConfig(c) && Init(c, s) && r in c.honest
    ensures fresh(core) && fresh(core.pm) && Represents(c, s, r, core) && core.Unpruned()
    ensures Sound(c, s) && Inv(c, s)
  {
    core := new HotStuffCore(r, c.n, c.steps);
    InitInv(c, s);
  }

  /** Delivery asks nothing of the certificate but that it verify and that its block be fetched. */
  method Deliver(c: Config, ghost s: System, r: ReplicaID, core: HotStuffCore, b: Block)
    returns (outcome: Outcome, ghost s': System)
    requires Sound(c, s) && Mirrors(c, s, r, core)
    requires b.Node? && CertOk(c, s.signed, b)
    modifies core
    ensures outcome == NotDelivered <==>
              b !in s.replicas[r].delivered && !ParentsDelivered(s.replicas[r].delivered, b)
    ensures outcome == Ok ==> b !in s.replicas[r].delivered && ParentsDelivered(s.replicas[r].delivered, b)
    ensures Mirrors(c, s', r, core)
    ensures if outcome == Ok then Next(c, s, s') && Sound(c, s') else s' == s
    ensures old(core.Unpruned()) ==> core.Unpruned()
    ensures old(core.Working()) && QcOnBranch(b) ==> Represents(c, s', r, core)
    ensures Inv(c, s) && QcOnBranch(b) ==> outcome != QcNotFetched && Inv(c, s')
  {
    if Inv(c, s) {
      LocalOf(c, s, r);
    }
    core.AddBlk(b);
    outcome := core.OnDeliverBlk(b);
    s' := s;
    if outcome == Ok {
      s' := After(s, r, core.Abs(), false, b);
      DeliverIsStep(c, s, r, b);
    }
  }

  method ReceiveProposal(c: Config, ghost s: System, r: ReplicaID, core: HotStuffCore, b: Block)
    returns (outcome: Outcome, vote: bool, ghost s': System)
    requires Sound(c, s) && Represents(c, s, r, core) && Assured(c, s, r)
    modifies core, core.pm
    ensures outcome == if b in s.replicas[r].delivered then Ok else NotDelivered
    ensures Mirrors(c, s', r, core) && Sound(c, s')
    ensures if outcome == Ok then Next(c, s, s') else s' == s
    ensures vote ==> Ballot(r, b) in s'.signed
    ensures old(core.Unpruned()) ==> core.Unpruned()
    ensures Inv(c, s) ==> Inv(c, s')
    ensures Inv(c, s) || c.steps == TwoStep ==> Represents(c, s', r, core)
  {
    ghost var st := s.replicas[r];
    if b in core.delivered {
      AssuredNoBreach(c, s, r, b);
    }
    outcome, vote := core.OnReceiveProposal(b);
    s' := s;
    if outcome == Ok {
      s' := After(s, r, core.Abs(), vote, b);
      ReceiveIsStep(c, s, r, b, core.Abs(), vote);
    }
  }

  method Propose(c: Config, ghost s: System, r: ReplicaID, core: HotStuffCore, cmds: seq<Command>, extra: seq<Byte>)
    returns (outcome: Outcome, b: Block, vote: bool, ghost s': System)
    requires Sound(c, s) && Represents(c, s, r, core) && Assured(c, s, r)
    modifies core, core.pm
    ensures outcome in {Ok, NotAboveVheight}
    ensures QcOnBranch(b) && Certified(c, s.signed, Ref(b))
    ensures Mirrors(c, s', r, core) && Sound(c, s') && Next(c, s, s')
    ensures vote ==> outcome == Ok && Ballot(r, b) in s'.signed
    ensures old(core.Unpruned()) ==> core.Unpruned()
    ensures Inv(c, s) ==> Inv(c, s')
    ensures Inv(c, s) || c.steps == TwoStep ==> Represents(c, s', r, core)
  {
    ghost var own := NewBlock(s.replicas[r], [s.replicas[r].hqcTail], cmds, extra);
    AssuredNoBreach(c, s, r, own);
    OwnProposalQcOnBranch(s.replicas[r], cmds, extra);
    outcome, b, vote := core.Beat(cmds, extra);
    s' := After(s, r, core.Abs(), vote, b);
    ProposeIsStep(c, s, r, cmds, extra, b, core.Abs(), vote);
  }

  method ReceiveVote(c: Config, ghost s: System, r: ReplicaID, core: HotStuffCore, voter: ReplicaID, b: Block)
    returns (outcome: Outcome, formed: bool, ghost s': System)
    requires Sound(c, s) && Mirrors(c, s, r, core) && (core.Valid() || core.Unpruned())
    requires Ballot(voter, b) in s.signed
    modifies core, core.pm
    ensures outcome == if b in s.replicas[r].delivered then Ok else NotDelivered
    ensures Mirrors(c, s', r, core) && Sound(c, s')
    ensures if outcome == Ok then Next(c, s, s') else s' == s
    ensures formed ==> Certified(c, s.signed, b)
    ensures old(core.Unpruned()) ==> core.Unpruned()
    ensures Inv(c, s) ==> Inv(c, s')
    ensures old(core.Working()) ==> Represents(c, s', r, core)
  {
    outcome, formed := core.OnReceiveVote(voter, b);
    s' := s;
    if outcome == Ok {
      s' := After(s, r, core.Abs(), false, b);
      VoteIsStep(c, s, r, voter, b, core.Abs());
    }
  }

  method SetVoteDisabled(c: Config, ghost s: System, r: ReplicaID, core: HotStuffCore, off: bool)
    returns (ghost s': System)
    requires Sound(c, s) && Mirrors(c, s, r, core)
    modifies core
    ensures Mirrors(c, s', r, core) && Sound(c, s') && Next(c, s, s')
    ensures Inv(c, s) ==> Inv(c, s')
    ensures old(core.Working()) ==> Represents(c, s', r, core)
  {
    core.SetVoteDisabled(off);
    s' := After(s, r, core.Abs(), false, Genesis);
    SwitchIsStep(c, s, r, off);
  }

  /** The system does not see `prune`: the object goes on as replica `r` exactly if no block above
      `b_lock` is reached. */
  method Prune(c: Config, ghost s: System, r: ReplicaID, core: HotStuffCore, staleness: nat)
    requires Sound(c, s) && Mirrors(c, s, r, core)
    modifies core
    ensures core.Abs() == s.replicas[r]
    ensures var start := Descend(old(core.parents), core.bExec, staleness);
            Mirrors(c, s, r, core) <==>
              start.None? || PrunesNothingAbove(old(core.parents), start.value, Height(core.bLock))
    ensures SingleParent(core.bExec) ==> Mirrors(c, s, r, core)
    ensures Inv(c, s) && Mirrors(c, s, r, core) ==> Represents(c, s, r, core)
  {
    if Inv(c, s) {
      LocalOf(c, s, r);
    }
    core.Prune(staleness);
  }

  /** When `update` passes the test for direct parents with an undecided block, that block is above
      `b_exec` and the walk down its first parents stops exactly at `b_exec`. */
  lemma CommitWalkFindsExec(c: Config, s: System, r: ReplicaID, b: Block)
    requires ValidConfig(c) && Reachable(c, s) && Trusted(c, s) && r in c.honest && r in s.replicas
    requires b in s.replicas[r].delivered && DirectChain(c.steps, RefIn(s.replicas[r].delivered, b))
    requires !Extends(s.replicas[r].bExec, CommitIn(c.steps, s.replicas[r].delivered, b))
    ensures var blk, bExec := CommitIn(c.steps, s.replicas[r].delivered, b), s.replicas[r].bExec;
            Height(blk) > Height(bExec) && WalkDown(blk, Height(bExec)) == bExec
  {
    SafetyBreachUnreachable(c, s, r, b);
    UndecidedWalk(s.replicas[r].bExec, CommitIn(c.steps, s.replicas[r].delivered, b));
  }

  /** The logs of two honest replicas of a reachable system agree as far as both go. */
  lemma LogsAgree(c: Config, s: System, r: ReplicaID, q: ReplicaID, a: HotStuffCore, b: HotStuffCore)
    requires ValidConfig(c) && Reachable(c, s) && Trusted(c, s)
    requires Mirrors(c, s, r, a) && Mirrors(c, s, q, b)
    ensures Anonymous(a.log) <= Anonymous(b.log) || Anonymous(b.log) <= Anonymous(a.log)
  {
    var run :| Run(c, run) && run[|run| - 1] == s;
    DecisionsAgree(c, run, |run| - 1, |run| - 1, r, q);
  }
}
