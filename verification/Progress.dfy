/** What each handler achieves, said of the state it finds and the state it leaves.

    The functions of `Replicas` say how a handler computes its result; here is what has to come of
    it: nothing that is certified, voted for or proposed is overlooked, and nothing else is learned. */
module Progress {
  import opened Blocks
  import opened Quorum
  import opened Replicas
  import opened Local

  // ---- update ----

  /** `b` certifies the top of a chain of direct parents, each of which is certified by its child. */
  predicate Closes(k: Steps, b: Block) {
    && Ref(b).Node? && Ref(b).parent == Ref(b).qcRef
    && (k == ThreeStep ==> Ref(b).parent.Node? && Ref(b).parent.parent == Ref(b).parent.qcRef)
  }

  /** The block at the bottom of that chain. */
  function Bottom(k: Steps, b: Block): Block
    requires Closes(k, b)
  {
    if k == ThreeStep then Ref(b).parent.parent else Ref(b).parent
  }

  /** `b` makes a replica with these delivered blocks commit the bottom of the chain. */
  predicate Commits(k: Steps, delivered: set<Block>, b: Block) {
    Ref(b) in delivered && Closes(k, b)
  }

  /** `hqc` is at least as high as the block that `b` certifies, and changes for that block only. */
  predicate HqcLearned(delivered: set<Block>, st: Replica, b: Block, st1: Replica) {
    && Height(st.hqc) <= Height(st1.hqc)
    && (Ref(b) in delivered ==> Height(Ref(b)) <= Height(st1.hqc))
    && ((st1.hqc == st.hqc && st1.hqcCert == st.hqcCert)
        || (Ref(b) in delivered && st1.hqc == Ref(b) && st1.hqcCert == Cert(b)))
  }

  /** The lock is at least as high as the block to lock on, and changes for that block only. */
  predicate LockLearned(k: Steps, delivered: set<Block>, st: Replica, b: Block, st1: Replica) {
    var l := if k == ThreeStep then Ref(Ref(b)) else Ref(b);
    var seen := Ref(b) in delivered && l in delivered;
    && Height(st.bLock) <= Height(st1.bLock)
    && (seen ==> Height(l) <= Height(st1.bLock))
    && (st1.bLock == st.bLock || (seen && st1.bLock == l))
  }

  /** What has to be committed is executed, and nothing else is. */
  predicate ExecLearned(k: Steps, delivered: set<Block>, st: Replica, b: Block, st1: Replica) {
    && (Commits(k, delivered, b) && Comparable(Bottom(k, b), st.bExec) ==>
          Extends(st1.bExec, Bottom(k, b)) && Extends(st1.bExec, st.bExec))
    && (st1.bExec == st.bExec || (Commits(k, delivered, b) && st1.bExec == Bottom(k, b)))
  }

  /** What `update(b)` makes of `st`. */
  predicate Learned(k: Steps, delivered: set<Block>, st: Replica, b: Block, st1: Replica) {
    && HqcLearned(delivered, st, b, st1)
    && LockLearned(k, delivered, st, b, st1)
    && ExecLearned(k, delivered, st, b, st1)
  }

  lemma CommitsSeen(k: Steps, delivered: set<Block>, b: Block)
    requires Closed(delivered)
    ensures Commits(k, delivered, b) <==> DirectChain(k, RefIn(delivered, b))
    ensures Commits(k, delivered, b) ==> CommitIn(k, delivered, b) == Bottom(k, b)
  {
    if DirectChain(k, RefIn(delivered, b)) {
      ChainSeen(k, delivered, RefIn(delivered, b));
    }
  }

  /** The throw is due exactly if the block to commit conflicts with `b_exec`. */
  lemma BreachMeans(k: Steps, st: Replica, b: Block)
    requires Closed(st.delivered)
    ensures Breach(k, st, b) <==> Commits(k, st.delivered, b) && !Comparable(Bottom(k, b), st.bExec)
  {
    CommitsSeen(k, st.delivered, b);
  }

  lemma UpdateExecutes(k: Steps, st: Replica, b: Block)
    requires Closed(st.delivered)
    ensures ExecLearned(k, st.delivered, st, b, Processed(k, st, b))
  {
    CommitsSeen(k, st.delivered, b);
    if Commits(k, st.delivered, b) {
      var blk := Bottom(k, b);
      assert Extends(blk, blk) && Extends(st.bExec, st.bExec);
      if Extends(blk, st.bExec) {
        ExtendsHeight(blk, st.bExec);
      } else if Extends(st.bExec, blk) {
        ExtendsHeight(st.bExec, blk);
      }
    }
  }

  lemma UpdateLearns(k: Steps, st: Replica, b: Block)
    requires Closed(st.delivered)
    ensures Learned(k, st.delivered, st, b, Processed(k, st, b))
  {
    UpdateExecutes(k, st, b);
    var l, st1 := Lift(k, st, b), Processed(k, st, b);
    assert st1.hqc == l.hqc && st1.hqcCert == l.hqcCert && st1.bLock == l.bLock;
  }

  // ---- proposals ----

  /** The voting rule, for the lock that the replica holds after `update`. */
  predicate Acceptable(delivered: set<Block>, bLock: Block, b: Block) {
    Extends(b, bLock) || (Ref(b) in delivered && Height(Ref(b)) > Height(bLock))
  }

  /** A replica votes exactly for what is acceptable, new and not forbidden by the switch, and
      remembers the height of what it finds acceptable. */
  predicate Voted(delivered: set<Block>, st: Replica, b: Block, st1: Replica, vote: bool) {
    var opinion := Height(b) > st.vheight && Acceptable(delivered, st1.bLock, b);
    && (vote <==> opinion && !st.voteDisabled)
    && st1.vheight == (if opinion then Height(b) else st.vheight)
  }

  /** No tail that follows a new `hqc` is higher than the cache. */
  predicate CacheFresh(st: Replica, st1: Replica) {
    st1.hqc != st.hqc ==> forall u :: u in st.tails && Extends(u, st1.hqc) ==> Height(u) <= Height(st1.hqcTail)
  }

  /** A received proposal is learned from and judged, and the cache is at least as high as it. */
  predicate Heard(k: Steps, st: Replica, b: Block, st1: Replica, vote: bool) {
    && st1.delivered == st.delivered && st1.tails == st.tails && st1.voted == st.voted && st1.selfQc == st.selfQc
    && Learned(k, st.delivered, st, b, st1) && Voted(st.delivered, st, b, st1, vote)
    && CacheFresh(st, st1)
    && (Extends(b, st1.hqc) ==> Height(b) <= Height(st1.hqcTail))
    && (st1.hqc == st.hqc ==> Height(st.hqcTail) <= Height(st1.hqcTail) && st1.hqcTail in {st.hqcTail, b})
  }

  lemma HeardAt(k: Steps, st: Replica, b: Block, tail: Block, st1: Replica, vote: bool)
    requires Closed(st.delivered) && Genesis in st.delivered
    requires Rescanned(st, Processed(k, st, b), tail) && st1 == Judge(Processed(k, st, b).(hqcTail := tail), b)
    requires vote <==> Opinion(Processed(k, st, b), b) && !st.voteDisabled
    ensures Heard(k, st, b, st1, vote)
  {
    UpdateLearns(k, st, b);
    var p := Processed(k, st, b);
    assert p.delivered == st.delivered && p.tails == st.tails && p.vheight == st.vheight;
    assert st1.hqc == p.hqc && st1.hqcCert == p.hqcCert && st1.bLock == p.bLock && st1.bExec == p.bExec;
  }

  /** Whatever the handler of a proposal does, the proposal is heard. */
  lemma ReceiveHeard(k: Steps, st: Replica, b: Block, st1: Replica, vote: bool)
    requires Closed(st.delivered) && ReceivesProposal(k, st, b, st1, vote)
    ensures Heard(k, st, b, st1, vote)
  {
    var tail :| Rescanned(st, Processed(k, st, b), tail) && st1 == Judge(Processed(k, st, b).(hqcTail := tail), b);
    HeardAt(k, st, b, tail, st1, vote);
  }

  /** After a vote for a block that follows `hqc` the replica can propose above it. */
  lemma VoterCanPropose(k: Steps, st: Replica, b: Block, st1: Replica, vote: bool, cmds: seq<Command>, extra: seq<Byte>)
    requires Closed(st.delivered) && ReceivesProposal(k, st, b, st1, vote) && vote && Extends(b, st1.hqc)
    ensures Height(NewBlock(st1, [st1.hqcTail], cmds, extra)) > st1.vheight
  {
    ReceiveHeard(k, st, b, st1, vote);
  }

  // ---- own proposals ----

  /** A new block holds what it is given, and the best certificate the replica has. */
  lemma NewBlockHolds(st: Replica, ps: seq<Block>, cmds: seq<Command>, extra: seq<Byte>)
    requires ps != []
    ensures var b := NewBlock(st, ps, cmds, extra);
            && Parents(b) == ps && b.Node? && b.cmds == cmds && b.extra == extra && Height(b) == Height(ps[0]) + 1
            && Ref(b) == st.hqc && Cert(b) == st.hqcCert
  {
  }

  /** An own block is delivered with an empty certificate, and nothing else but tails changes. */
  predicate Introduced(st: Replica, b: Block, st1: Replica) {
    && st1.delivered == st.delivered + {b} && st1.voted == st.voted && st1.selfQc == st.selfQc[b := {}]
    && st1.tails == st.tails - (set p | p in Parents(b)) + (if b in st.delivered then {} else {b})
  }

  /** An own proposal is introduced, learned from and judged, and becomes the next parent. */
  predicate Sent(k: Steps, st: Replica, b: Block, st1: Replica, vote: bool) {
    && Introduced(st, b, st1) && Learned(k, st.delivered + {b}, st, b, st1)
    && Voted(st.delivered + {b}, st, b, st1, vote)
    && st1.hqcTail == b
  }

  lemma IntroduceIntroduces(st: Replica, b: Block)
    ensures Introduced(st, b, Introduce(st, b))
    ensures var st0 := Introduce(st, b);
            && st0.hqc == st.hqc && st0.hqcCert == st.hqcCert && st0.bLock == st.bLock && st0.bExec == st.bExec
            && st0.vheight == st.vheight && st0.voteDisabled == st.voteDisabled
  {
    if b !in st.delivered {
      var ps := set p | p in Parents(b);
      assert st.tails - ps - ps + {b} == st.tails - ps + {b};
    }
  }

  lemma OwnLearns(k: Steps, st: Replica, b: Block, st1: Replica)
    requires Closed(st.delivered) && ParentsDelivered(st.delivered, b) && st1 == Processed(k, Introduce(st, b), b)
    ensures Introduced(st, b, st1) && st1.vheight == st.vheight
    ensures forall st2: Replica ::
              st2.hqc == st1.hqc && st2.hqcCert == st1.hqcCert && st2.bLock == st1.bLock && st2.bExec == st1.bExec ==>
                Learned(k, st.delivered + {b}, st, b, st2)
  {
    var st0 := Introduce(st, b);
    IntroduceIntroduces(st, b);
    ClosedGrows(st.delivered, b);
    UpdateLearns(k, st0, b);
    assert st1.delivered == st0.delivered && st1.tails == st0.tails && st1.vheight == st0.vheight;
    assert st1.voted == st0.voted && st1.selfQc == st0.selfQc;
  }

  lemma ProposeSent(k: Steps, st: Replica, b: Block, st1: Replica, vote: bool)
    requires Closed(st.delivered) && ParentsDelivered(st.delivered, b) && Proposes(k, st, b, st1, vote)
    ensures Sent(k, st, b, st1, vote)
  {
    OwnLearns(k, st, b, Processed(k, Introduce(st, b), b));
  }

  // ---- votes ----

  /** Late votes and second ones are not counted. */
  predicate Late(n: nat, st: Replica, voter: ReplicaID, b: Block) {
    |VotedFor(st, b)| >= Majority(n) || voter in VotedFor(st, b)
  }

  predicate SameBox(st: Replica, st1: Replica, x: Block) {
    VotedFor(st1, x) == VotedFor(st, x) && SelfQc(st1, x) == SelfQc(st, x)
  }

  /** The voters of `b` and the signatures of its certificate, after a vote for it. */
  ghost predicate Added(n: nat, st: Replica, voter: ReplicaID, b: Block, st1: Replica) {
    && (if Late(n, st, voter, b) then SameBox(st, st1, b)
        else VotedFor(st1, b) == VotedFor(st, b) + {voter} && SelfQc(st1, b) == SelfQc(st, b) + {voter})
    && forall x {:trigger SameBox(st, st1, x)} :: x != b ==> SameBox(st, st1, x)
  }

  /** The vote that completes a quorum gives a higher block its certificate, with that vote. */
  predicate Completed(n: nat, st: Replica, b: Block, st1: Replica) {
    if |VotedFor(st, b)| < Majority(n) <= |VotedFor(st1, b)| && Height(b) > Height(st.hqc)
    then st1.hqc == b && st1.hqcCert == SelfQc(st1, b)
    else st1.hqc == st.hqc && st1.hqcCert == st.hqcCert
  }

  /** What a vote makes of `st`. */
  ghost predicate Counted(n: nat, st: Replica, voter: ReplicaID, b: Block, st1: Replica) {
    && st1.delivered == st.delivered && st1.tails == st.tails && st1.vheight == st.vheight
    && st1.bLock == st.bLock && st1.bExec == st.bExec && st1.voteDisabled == st.voteDisabled
    && Added(n, st, voter, b, st1) && Completed(n, st, b, st1)
    && CacheFresh(st, st1) && (st1.hqc == st.hqc ==> st1.hqcTail == st.hqcTail)
  }

  lemma OtherBox(n: nat, st: Replica, voter: ReplicaID, b: Block, x: Block)
    requires x != b
    ensures SameBox(st, CountVote(n, st, voter, b), x)
  {
  }

  lemma VoteAdded(n: nat, st: Replica, voter: ReplicaID, b: Block)
    ensures Added(n, st, voter, b, CountVote(n, st, voter, b))
  {
    forall x | x != b ensures SameBox(st, CountVote(n, st, voter, b), x) {
      OtherBox(n, st, voter, b, x);
    }
  }

  lemma VoteCompletes(n: nat, st: Replica, voter: ReplicaID, b: Block)
    ensures Completed(n, st, b, CountVote(n, st, voter, b))
  {
    var st1 := CountVote(n, st, voter, b);
    VoteAdded(n, st, voter, b);
  }

  lemma VoteCounted(n: nat, st: Replica, voter: ReplicaID, b: Block, st1: Replica)
    requires ReceivesVote(n, st, voter, b, st1)
    ensures Counted(n, st, voter, b, st1)
  {
    var p := CountVote(n, st, voter, b);
    var tail :| Rescanned(st, p, tail) && st1 == p.(hqcTail := tail);
    VoteAdded(n, st, voter, b);
    VoteCompletes(n, st, voter, b);
    CountVoteKeeps(n, st, voter, b);
    assert VotedFor(st1, b) == VotedFor(p, b) && SelfQc(st1, b) == SelfQc(p, b);
    forall x | x != b ensures SameBox(st, st1, x) {
      assert SameBox(st, p, x);
    }
  }

  lemma CountVoteKeeps(n: nat, st: Replica, voter: ReplicaID, b: Block)
    ensures var p := CountVote(n, st, voter, b);
            && p.delivered == st.delivered && p.tails == st.tails && p.vheight == st.vheight
            && p.bLock == st.bLock && p.bExec == st.bExec && p.voteDisabled == st.voteDisabled
  {
  }
}
