/** The whole system: `n` replicas, some of them faulty, and every signature ever made.

    An honest replica takes only the steps of its `HotStuffCore`.  A faulty replica may
    sign any block at any time; what it sends is whatever an honest replica may deliver.
    As in the code, nothing in these steps asks that a certificate name an ancestor of the
    block that carries it; `AncestryOk` is that condition, on the blocks a state has delivered. */
module Protocol {
  import opened Blocks
  import opened Quorum
  import opened Replicas

  datatype Config = Config(n: nat, honest: set<ReplicaID>, steps: Steps)

  /** At most `MaxFaulty(c.n)` replicas are faulty. */
  predicate ValidConfig(c: Config) {
    c.n > 0 && c.honest <= Ids(c.n) && |c.honest| >= Majority(c.n)
  }

  /** The signature of `voter` on the hash of `blk`. */
  datatype Ballot = Ballot(voter: ReplicaID, blk: Block)

  /** `locks` is history: the lock an honest replica held when it signed. */
  datatype System = System(replicas: map<ReplicaID, Replica>,
                           signed: set<Ballot>,
                           locks: map<Ballot, Block>)

  function Voters(signed: set<Ballot>, b: Block): set<ReplicaID> {
    set v | v in signed && v.blk == b :: v.voter
  }

  /** A quorum certificate for `b` can exist.  Genesis needs none. */
  predicate Certified(c: Config, signed: set<Ballot>, b: Block) {
    b == Genesis || |Voters(signed, b)| >= Majority(c.n)
  }

  /** What `Block::verify` accepts, signatures being unforgeable. */
  predicate CertOk(c: Config, signed: set<Ballot>, b: Block) {
    Ref(b) == Genesis || (|Cert(b)| >= Majority(c.n) && Cert(b) <= Voters(signed, Ref(b)))
  }

  predicate Init(c: Config, s: System) {
    && s.replicas == (map r | r in c.honest :: InitReplica(c.n))
    && s.signed == {} && s.locks == map[]
  }

  /** Replica `r` moves to `st'`; if it votes, its signature on `b` becomes known. */
  predicate Moves(s: System, s': System, r: ReplicaID, st': Replica, vote: bool, b: Block)
    requires r in s.replicas
  {
    && s'.replicas == s.replicas[r := st']
    && s'.signed == (if vote then s.signed + {Ballot(r, b)} else s.signed)
    && s'.locks == (if vote then s.locks[Ballot(r, b) := st'.bLock] else s.locks)
  }

  // ---- steps ----

  /** A block arrives with its parents delivered and a certificate that verifies.  The certified block
      need not be delivered. */
  predicate DeliverStep(c: Config, s: System, s': System, r: ReplicaID, b: Block) {
    && r in c.honest && r in s.replicas
    && b.Node? && ParentsDelivered(s.replicas[r].delivered, b)
    && CertOk(c, s.signed, b)
    && Moves(s, s', r, Deliver(s.replicas[r], b), false, b)
  }

  ghost predicate ReceiveProposalStep(c: Config, s: System, s': System, r: ReplicaID, b: Block,
                                      st': Replica, vote: bool) {
    && r in c.honest && r in s.replicas
    && b in s.replicas[r].delivered && !Breach(c.steps, s.replicas[r], b)
    && ReceivesProposal(c.steps, s.replicas[r], b, st', vote)
    && Moves(s, s', r, st', vote, b)
  }

  /** "Safety breached": the exception leaves `hqc` and `b_lock` raised and nothing signed. */
  ghost predicate BreachStep(c: Config, s: System, s': System, r: ReplicaID, b: Block, tail: Block) {
    && r in c.honest && r in s.replicas
    && b in s.replicas[r].delivered && Breach(c.steps, s.replicas[r], b)
    && Rescanned(s.replicas[r], Lift(c.steps, s.replicas[r], b), tail)
    && Moves(s, s', r, Lift(c.steps, s.replicas[r], b).(hqcTail := tail), false, b)
  }

  /** `on_propose` with the parents chosen by the pacemaker. */
  ghost predicate ProposeStep(c: Config, s: System, s': System, r: ReplicaID,
                              cmds: seq<Command>, extra: seq<Byte>, st': Replica, vote: bool) {
    && r in c.honest && r in s.replicas
    && var b := NewBlock(s.replicas[r], [s.replicas[r].hqcTail], cmds, extra);
    && Height(b) > s.replicas[r].vheight && !Breach(c.steps, Introduce(s.replicas[r], b), b)
    && Proposes(c.steps, s.replicas[r], b, st', vote)
    && Moves(s, s', r, st', vote, b)
  }

  /** `on_propose` of a block that is not above `vheight`: the exception leaves the new
      block delivered and processed. */
  ghost predicate ProposeTooLowStep(c: Config, s: System, s': System, r: ReplicaID,
                                    cmds: seq<Command>, extra: seq<Byte>) {
    && r in c.honest && r in s.replicas
    && var st, b := s.replicas[r], NewBlock(s.replicas[r], [s.replicas[r].hqcTail], cmds, extra);
    && Height(b) <= st.vheight && !Breach(c.steps, Introduce(st, b), b)
    && Moves(s, s', r, Update(c.steps, Introduce(st, b), b), false, b)
  }

  /** `on_propose` of a block that breaches safety. */
  ghost predicate ProposeBreachStep(c: Config, s: System, s': System, r: ReplicaID,
                                    cmds: seq<Command>, extra: seq<Byte>) {
    && r in c.honest && r in s.replicas
    && var st, b := s.replicas[r], NewBlock(s.replicas[r], [s.replicas[r].hqcTail], cmds, extra);
    && Breach(c.steps, Introduce(st, b), b)
    && Moves(s, s', r, Lift(c.steps, Introduce(st, b), b), false, b)
  }

  ghost predicate ReceiveVoteStep(c: Config, s: System, s': System, r: ReplicaID,
                                  voter: ReplicaID, b: Block, st': Replica) {
    && r in c.honest && r in s.replicas
    && b in s.replicas[r].delivered && Ballot(voter, b) in s.signed
    && ReceivesVote(c.n, s.replicas[r], voter, b, st')
    && Moves(s, s', r, st', false, b)
  }

  ghost predicate SwitchVotingStep(c: Config, s: System, s': System, r: ReplicaID, off: bool) {
    && r in c.honest && r in s.replicas
    && Moves(s, s', r, s.replicas[r].(voteDisabled := off), false, Genesis)
  }

  predicate FaultySignStep(c: Config, s: System, s': System, f: ReplicaID, b: Block) {
    && f in Ids(c.n) - c.honest
    && s' == s.(signed := s.signed + {Ballot(f, b)})
  }

  ghost predicate Next(c: Config, s: System, s': System) {
    || (exists r, b :: DeliverStep(c, s, s', r, b))
    || (exists r, b, st', vote :: ReceiveProposalStep(c, s, s', r, b, st', vote))
    || (exists r, cmds, extra, st', vote :: ProposeStep(c, s, s', r, cmds, extra, st', vote))
    || (exists r, cmds, extra :: ProposeTooLowStep(c, s, s', r, cmds, extra))
    || (exists r, b, tail :: BreachStep(c, s, s', r, b, tail))
    || (exists r, cmds, extra :: ProposeBreachStep(c, s, s', r, cmds, extra))
    || (exists r, voter, b, st' :: ReceiveVoteStep(c, s, s', r, voter, b, st'))
    || (exists r, off :: SwitchVotingStep(c, s, s', r, off))
    || (exists f, b :: FaultySignStep(c, s, s', f, b))
  }

  /** The hypothesis of the paper: every certificate that an honest replica has delivered names a
      proper ancestor of the block that carries it. */
  predicate AncestryOk(s: System) {
    forall r, b :: r in s.replicas && b in s.replicas[r].delivered ==> QcOnBranch(b)
  }

  /** A run, from an initial state. */
  ghost predicate Run(c: Config, run: seq<System>) {
    && run != [] && Init(c, run[0])
    && forall i :: 0 <= i < |run| - 1 ==> Next(c, run[i], run[i + 1])
  }

  ghost predicate Reachable(c: Config, s: System) {
    exists run :: Run(c, run) && run[|run| - 1] == s
  }
}
