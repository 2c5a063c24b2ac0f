/** Every handler keeps `LocalInv`. */
module Local {
  import opened Blocks
  import opened Replicas

  lemma TreeClosed(delivered: set<Block>)
    requires TreeOk(delivered)
    ensures Closed(delivered)
  {
    forall b | b in delivered ensures ParentsDelivered(delivered, b) {
      assert Grafted(delivered, b);
    }
  }

  lemma {:induction false} AncestorsDelivered(delivered: set<Block>, b: Block, a: Block)
    requires Closed(delivered) && b in delivered && Extends(b, a)
    ensures a in delivered
  {
    if b != a {
      assert ParentsDelivered(delivered, b) && b.parent in Parents(b);
      AncestorsDelivered(delivered, b.parent, a);
    }
  }

  /** What a delivered block refers to is delivered, lower, and on its branch. */
  lemma RefDelivered(delivered: set<Block>, b: Block)
    requires TreeOk(delivered) && b in delivered
    ensures Ref(b) in delivered && Extends(b, Ref(b))
    ensures Height(Ref(b)) <= Height(b)
    ensures b.Node? ==> Height(Ref(b)) < Height(b)
  {
    assert Grafted(delivered, b);
    RefBelow(b);
    TreeClosed(delivered);
    AncestorsDelivered(delivered, b, Ref(b));
  }

  lemma LockDelivered(k: Steps, delivered: set<Block>, b: Block)
    requires TreeOk(delivered) && b in delivered
    ensures LockIn(k, delivered, b) == LockOf(k, b) && Extends(b, LockOf(k, b))
    ensures Height(LockOf(k, b)) <= Height(Ref(b))
    ensures b.Node? ==> Height(LockOf(k, b)) < Height(b)
  {
    RefDelivered(delivered, b);
    RefDelivered(delivered, Ref(b));
    if k == ThreeStep {
      ExtendsTransitive(b, Ref(b), LockOf(k, b));
    }
  }

  lemma LeafAfterDelivery(delivered: set<Block>, b: Block, x: Block)
    ensures Leaf(delivered + {b}, x) <==> Leaf(delivered, x) && x !in Parents(b)
  {
    assert b in delivered + {b};
  }

  lemma NewIsLeaf(delivered: set<Block>, b: Block)
    requires Closed(delivered) && b !in delivered
    ensures Leaf(delivered + {b}, b)
  {
    forall c | c in delivered ensures b !in Parents(c) {
      assert ParentsDelivered(delivered, c);
    }
  }

  lemma ClosedGrows(delivered: set<Block>, b: Block)
    requires Closed(delivered) && ParentsDelivered(delivered, b)
    ensures Closed(delivered + {b})
  {
    forall x | x in delivered + {b} ensures ParentsDelivered(delivered + {b}, x) {
      assert ParentsDelivered(delivered, x) || x == b;
    }
  }

  lemma DeliverKeepsTails(st: Replica, b: Block)
    requires Closed(st.delivered) && TailsOk(st.delivered, st.tails)
    requires ParentsDelivered(st.delivered, b)
    ensures Closed(Deliver(st, b).delivered)
    ensures TailsOk(Deliver(st, b).delivered, Deliver(st, b).tails)
  {
    var st1 := Deliver(st, b);
    if b !in st.delivered {
      ClosedGrows(st.delivered, b);
      forall x
        ensures x in st1.tails <==> x in st1.delivered && Leaf(st1.delivered, x)
      {
        LeafAfterDelivery(st.delivered, b, x);
        NewIsLeaf(st.delivered, b);
      }
    }
  }

  lemma DeliverLoose(st: Replica, b: Block)
    requires Loose(st) && ParentsDelivered(st.delivered, b)
    ensures Loose(Deliver(st, b))
  {
    DeliverKeepsTails(st, b);
  }

  /** A block on the branch of its certificate brings the certified block along. */
  lemma RefOfNew(delivered: set<Block>, b: Block)
    requires Closed(delivered) && QcOnBranch(b) && ParentsDelivered(delivered, b)
    ensures Ref(b) in delivered
  {
    if b.Node? {
      assert b.parent in Parents(b);
      AncestorsDelivered(delivered, b.parent, Ref(b));
    }
  }

  lemma DeliverKeepsTree(delivered: set<Block>, b: Block)
    requires TreeOk(delivered) && QcOnBranch(b) && ParentsDelivered(delivered, b)
    ensures TreeOk(delivered + {b})
  {
    forall x | x in delivered + {b} ensures Grafted(delivered + {b}, x) {
      assert Grafted(delivered, x) || x == b;
    }
  }

  lemma DeliverKeeps(st: Replica, b: Block)
    requires Rooted(st) && QcOnBranch(b) && ParentsDelivered(st.delivered, b)
    ensures Rooted(Deliver(st, b))
    ensures LocalInv(st) ==> LocalInv(Deliver(st, b))
  {
    DeliverLoose(st, b);
    DeliverKeepsTree(st.delivered, b);
    assert Deliver(st, b).delivered == st.delivered + {b};
  }

  // ---- whatever certificates name ----

  /** A delivered direct chain is seen as it is. */
  lemma ChainSeen(k: Steps, delivered: set<Block>, t: Block)
    requires Closed(delivered) && t in delivered && DirectChain(k, t)
    ensures LockIn(k, delivered, t) == LockOf(k, t) && LockOf(k, t) in delivered && RefIn(delivered, t) == Ref(t)
  {
    assert ParentsDelivered(delivered, t) && t.parent in Parents(t);
    assert ParentsDelivered(delivered, Ref(t));
    if k == ThreeStep {
      assert Ref(t).parent in Parents(Ref(t));
    }
  }

  /** An ancestor that a delivered block refers to is seen. */
  lemma AncestorSeen(delivered: set<Block>, b: Block)
    requires Closed(delivered) && b in delivered && QcOnBranch(b)
    ensures RefIn(delivered, b) == Ref(b)
  {
    RefBelow(b);
    AncestorsDelivered(delivered, b, Ref(b));
  }

  lemma RefsSeen(k: Steps, delivered: set<Block>, b: Block)
    requires Genesis in delivered
    ensures RefIn(delivered, b) in delivered && LockIn(k, delivered, b) in delivered
    ensures CommitIn(k, delivered, b) in delivered
  {
  }

  /** A direct chain leads down. */
  lemma CommitLower(k: Steps, delivered: set<Block>, nblk: Block)
    requires Closed(delivered)
    ensures DirectChain(k, RefIn(delivered, nblk)) ==>
              Height(CommitIn(k, delivered, nblk)) < Height(LockIn(k, delivered, nblk)) <= Height(RefIn(delivered, nblk))
  {
    if DirectChain(k, RefIn(delivered, nblk)) {
      ChainSeen(k, delivered, RefIn(delivered, nblk));
    }
  }

  lemma HigherIsHigher(a: Block, b: Block)
    ensures Height(a) <= Height(Higher(a, b)) && Height(b) <= Height(Higher(a, b))
    ensures Higher(a, b) in {a, b}
  {
  }

  lemma ExecBelow(k: Steps, st: Replica, b: Block, exec: Block)
    requires Closed(st.delivered) && Height(st.bExec) <= Height(st.bLock) && Height(st.bExec) <= Height(st.hqc)
    requires exec == st.bExec || (DirectChain(k, RefIn(st.delivered, b)) && exec == CommitIn(k, st.delivered, b))
    ensures Height(exec) <= Height(Higher(st.bLock, LockIn(k, st.delivered, b)))
    ensures Height(exec) <= Height(Higher(st.hqc, RefIn(st.delivered, b)))
  {
    HigherIsHigher(st.hqc, RefIn(st.delivered, b));
    HigherIsHigher(st.bLock, LockIn(k, st.delivered, b));
    CommitLower(k, st.delivered, b);
  }

  lemma ProcessOrder(k: Steps, st: Replica, b: Block)
    requires Closed(st.delivered) && Height(st.bExec) <= Height(st.bLock) && Height(st.bExec) <= Height(st.hqc)
    ensures var st1 := Processed(k, st, b);
            Height(st1.bExec) <= Height(st1.bLock) && Height(st1.bExec) <= Height(st1.hqc)
  {
    ExecBelow(k, st, b, Processed(k, st, b).bExec);
  }

  lemma ProcessDelivered(k: Steps, st: Replica, b: Block)
    requires Closed(st.delivered) && b in st.delivered
    requires st.hqc in st.delivered && st.bLock in st.delivered && st.bExec in st.delivered
    ensures var st1 := Processed(k, st, b);
            st1.hqc in st.delivered && st1.bLock in st.delivered && st1.bExec in st.delivered
  {
    RefsSeen(k, st.delivered, b);
  }

  lemma TailDelivered(st: Replica, st1: Replica, tail: Block)
    requires Loose(st) && st1.hqc in st.delivered && Rescanned(st, st1, tail)
    ensures tail in st.delivered && Extends(tail, st1.hqc)
  {
  }

  lemma ProcessLoose(k: Steps, st: Replica, b: Block, tail: Block)
    requires Loose(st) && b in st.delivered && Rescanned(st, Processed(k, st, b), tail)
    ensures Loose(Processed(k, st, b).(hqcTail := tail))
  {
    ProcessOrder(k, st, b);
    ProcessDelivered(k, st, b);
    TailDelivered(st, Processed(k, st, b), tail);
  }

  lemma JudgeLoose(st: Replica, b: Block)
    requires Loose(st) && b in st.delivered
    ensures Loose(Judge(st, b))
  {
  }

  lemma ReceiveLooseAt(k: Steps, st: Replica, b: Block, tail: Block)
    requires Loose(st) && b in st.delivered && Rescanned(st, Processed(k, st, b), tail)
    ensures Loose(Judge(Processed(k, st, b).(hqcTail := tail), b))
  {
    ProcessLoose(k, st, b, tail);
    JudgeLoose(Processed(k, st, b).(hqcTail := tail), b);
  }

  lemma ReceiveLoose(k: Steps, st: Replica, b: Block, st': Replica, vote: bool)
    requires Loose(st) && b in st.delivered && ReceivesProposal(k, st, b, st', vote)
    ensures Loose(st')
  {
    var tail :| Rescanned(st, Processed(k, st, b), tail) && st' == Judge(Processed(k, st, b).(hqcTail := tail), b);
    ReceiveLooseAt(k, st, b, tail);
  }

  lemma VoteLoose(n: nat, st: Replica, voter: ReplicaID, b: Block, st': Replica)
    requires Loose(st) && b in st.delivered && ReceivesVote(n, st, voter, b, st')
    ensures Loose(st')
  {
  }

  lemma IntroduceIsDeliver(st: Replica, b: Block)
    requires TailsOk(st.delivered, st.tails) && ParentsDelivered(st.delivered, b)
    ensures Introduce(st, b) == Deliver(st, b).(selfQc := st.selfQc[b := {}])
  {
    if b in st.delivered {
      forall p | p in Parents(b) ensures p !in st.tails {
        assert !Leaf(st.delivered, p);
      }
      assert st.tails - (set p | p in Parents(b)) == st.tails;
    }
    assert st.tails - (set p | p in Parents(b)) - (set p | p in Parents(b)) == st.tails - (set p | p in Parents(b));
  }

  lemma IntroduceLoose(st: Replica, b: Block)
    requires Loose(st) && ParentsDelivered(st.delivered, b) && Ref(b) == st.hqc
    ensures Loose(Introduce(st, b)) && b in Introduce(st, b).delivered
    ensures Introduce(st, b).delivered == st.delivered + {b}
  {
    IntroduceIsDeliver(st, b);
    DeliverLoose(st, b);
  }

  /** An own proposal carries `hqc` and cannot raise it. */
  lemma OwnKeepsHqc(k: Steps, st: Replica, b: Block)
    requires Ref(b) == st.hqc
    ensures Processed(k, Introduce(st, b), b).hqc == st.hqc
  {
  }

  lemma ProcessOwnLoose(k: Steps, st: Replica, b: Block)
    requires Loose(st) && ParentsDelivered(st.delivered, b) && Ref(b) == st.hqc
    ensures Loose(Processed(k, Introduce(st, b), b))
  {
    IntroduceLoose(st, b);
    OwnKeepsHqc(k, st, b);
    ProcessLoose(k, Introduce(st, b), b, st.hqcTail);
  }

  lemma ProposeLoose(k: Steps, st: Replica, b: Block, st': Replica, vote: bool)
    requires Loose(st) && ParentsDelivered(st.delivered, b)
    requires b.Node? && Ref(b) == st.hqc && Extends(b.parent, st.hqc)
    requires Proposes(k, st, b, st', vote)
    ensures Loose(st')
  {
    IntroduceLoose(st, b);
    OwnKeepsHqc(k, st, b);
    ProcessOwnLoose(k, st, b);
    JudgeLoose(Processed(k, Introduce(st, b), b), b);
  }

  // ---- while certificates name ancestors ----

  /** `update` keeps the order of the three blocks; a new lock lies below `b`, on its branch. */
  lemma UpdateKeepsOrder(k: Steps, st: Replica, b: Block)
    requires Rooted(st) && b in st.delivered
    ensures var st1 := Update(k, st, b);
            && st1.hqc in st.delivered && st1.bLock in st.delivered && st1.bExec in st.delivered
            && Height(st1.bExec) <= Height(st1.bLock) <= Height(st1.hqc)
            && (st1.bLock == st.bLock || (Extends(b, st1.bLock) && Height(st1.bLock) < Height(b)))
            && (st1.hqc == st.hqc || (Extends(b, st1.hqc) && Height(st1.hqc) < Height(b)))
  {
    RefDelivered(st.delivered, b);
    LockDelivered(k, st.delivered, b);
    CommitLower(k, st.delivered, b);
  }

  lemma ReceiveKeeps(k: Steps, st: Replica, b: Block, st': Replica, vote: bool)
    requires LocalInv(st) && b in st.delivered
    requires ReceivesProposal(k, st, b, st', vote)
    ensures LocalInv(st')
  {
    ReceiveLoose(k, st, b, st', vote);
    UpdateKeepsOrder(k, st, b);
  }

  /** A new block on the branch of `hqc` may be introduced and processed. */
  lemma IntroduceKeeps(k: Steps, st: Replica, b: Block)
    requires LocalInv(st) && ParentsDelivered(st.delivered, b)
    requires b.Node? && Ref(b) == st.hqc && Extends(b.parent, st.hqc)
    ensures LocalInv(Introduce(st, b)) && b in Introduce(st, b).delivered
    ensures Height(b) <= st.vheight ==> LocalInv(Processed(k, Introduce(st, b), b))
  {
    IntroduceIsDeliver(st, b);
    DeliverKeeps(st, b);
    ProcessOwnLoose(k, st, b);
    UpdateKeepsOrder(k, Introduce(st, b), b);
  }

  lemma ProposeKeeps(k: Steps, st: Replica, b: Block, st': Replica, vote: bool)
    requires LocalInv(st) && ParentsDelivered(st.delivered, b)
    requires b.Node? && Ref(b) == st.hqc && Extends(b.parent, st.hqc)
    requires Proposes(k, st, b, st', vote)
    ensures LocalInv(st')
  {
    ProposeLoose(k, st, b, st', vote);
    IntroduceKeeps(k, st, b);
    UpdateKeepsOrder(k, Introduce(st, b), b);
  }

  lemma VoteKeeps(n: nat, st: Replica, voter: ReplicaID, b: Block, st': Replica)
    requires LocalInv(st) && b in st.delivered && ReceivesVote(n, st, voter, b, st')
    ensures LocalInv(st')
  {
    VoteLoose(n, st, voter, b, st');
  }

  // ---- the pacemaker ----

  /** The parent that `PMHighTail::get_parents` returns makes every own proposal one whose
      certificate names a proper ancestor. */
  lemma OwnProposalQcOnBranch(st: Replica, cmds: seq<Command>, extra: seq<Byte>)
    requires Loose(st)
    ensures var b := NewBlock(st, [st.hqcTail], cmds, extra);
            ParentsDelivered(st.delivered, b) && QcOnBranch(b) && Height(Ref(b)) < Height(b)
  {
    RefBelow(NewBlock(st, [st.hqcTail], cmds, extra));
  }

  /** Above any delivered block there is a tail, if blocks have single parents. */
  lemma {:induction false} TailAbove(st: Replica, d: Block, above: set<Block>) returns (t: Block)
    requires TailsOk(st.delivered, st.tails) && d in st.delivered
    requires forall b :: b in st.delivered ==> SingleParent(b)
    requires above == set b | b in st.delivered && Height(b) > Height(d)
    ensures t in st.tails && Extends(t, d)
    decreases above
  {
    if Leaf(st.delivered, d) {
      t := d;
    } else {
      var c :| c in st.delivered && d in Parents(c);
      assert c.parent == d;
      var above' := set b | b in st.delivered && Height(b) > Height(c);
      assert c in above && c !in above';
      t := TailAbove(st, c, above');
      ExtendsTransitive(t, c, d);
    }
  }

  /** Scanning the tails finds as high a block as searching every delivered block that follows `hqc`. */
  lemma HighTailIsHighest(st: Replica, hqc: Block, t: Block)
    requires TailsOk(st.delivered, st.tails) && hqc in st.delivered && HighTail(st.tails, hqc, t)
    requires forall b :: b in st.delivered ==> SingleParent(b)
    ensures t in st.delivered && Extends(t, hqc)
    ensures forall d :: d in st.delivered && Extends(d, hqc) ==> Height(d) <= Height(t)
  {
    forall d | d in st.delivered && Extends(d, hqc)
      ensures Height(d) <= Height(t)
    {
      var u := TailAbove(st, d, set b | b in st.delivered && Height(b) > Height(d));
      ExtendsTransitive(u, d, hqc);
      ExtendsHeight(u, d);
    }
  }
}
