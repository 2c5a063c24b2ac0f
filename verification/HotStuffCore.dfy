/** The protocol state machine of one replica, `HotStuffCore` of `src/consensus.cpp`. */
module Core {
  import opened Blocks
  import opened Quorum
  import opened Replicas
  import opened Local
  import opened Links
  import opened Options
  import opened PaceMaker
  import opened Pruning
  import opened Logs
  import opened Progress

  // ---- what ties the mutable fields of blocks to the protocol state ----

  /** Neither `parents` nor `qc_ref` of `b` has been cleared. */
  predicate Whole(parents: LinkMap, qcRef: map<Block, Block>, b: Block) {
    b in parents && parents[b] == Parents(b) && b in qcRef && qcRef[b] == Ref(b)
  }

  /** The blocks whose links the handlers may follow: those above `b_lock`, and the descendants of
      `b_exec`.  `h` is the height of `b_lock`. */
  predicate MustKeep(bExec: Block, h: nat, b: Block) {
    Height(b) > h || (b != bExec && Extends(b, bExec))
  }

  /** Such a block has kept its links, and a block that has kept `qc_ref` its parents. */
  predicate Kept(delivered: set<Block>, bExec: Block, h: nat, parents: LinkMap, qcRef: map<Block, Block>, b: Block) {
    && (b in delivered && MustKeep(bExec, h, b) ==> b in qcRef)
    && (b in qcRef ==> b in delivered && Whole(parents, qcRef, b))
  }

  ghost predicate BlocksLinked(delivered: set<Block>, bExec: Block, h: nat, parents: LinkMap, qcRef: map<Block, Block>) {
    && parents.Keys == delivered && Closed(delivered)
    && LinksOk(parents)
    && forall b {:trigger Kept(delivered, bExec, h, parents, qcRef, b)} :: Kept(delivered, bExec, h, parents, qcRef, b)
  }

  /** Decided are the ancestors of `b_exec`, and `do_decide` was called for them from genesis on. */
  ghost predicate Executed(id: ReplicaID, bExec: Block, decision: set<Block>, log: seq<Finality>) {
    && (forall b {:trigger b in decision} :: b in decision <==> Extends(bExec, b))
    && log == Decisions(id, bExec)
  }

  lemma AboveLockIntact(delivered: set<Block>, bExec: Block, h: nat, parents: LinkMap, qcRef: map<Block, Block>)
    requires BlocksLinked(delivered, bExec, h, parents, qcRef)
    ensures IntactAbove(parents, h)
  {
    forall b | b in parents && Height(b) > h ensures parents[b] == Parents(b) {
      assert Kept(delivered, bExec, h, parents, qcRef, b);
    }
  }

  /** The walk from `blk` down to height `h` meets no cleared block. */
  predicate WalkSafe(parents: LinkMap, blk: Block, h: nat) {
    forall y :: y in parents && Extends(blk, y) && Height(y) > h ==> parents[y] == Parents(y)
  }

  /** The commit walk stays among descendants of `b_exec`, unless it starts off its branch. */
  lemma CommitWalkSafe(delivered: set<Block>, bExec: Block, h: nat, parents: LinkMap, qcRef: map<Block, Block>, blk: Block)
    requires BlocksLinked(delivered, bExec, h, parents, qcRef)
    requires Extends(blk, bExec) || IntactAbove(parents, Height(bExec))
    ensures WalkSafe(parents, blk, Height(bExec))
  {
    forall y | y in parents && Extends(blk, y) && Height(y) > Height(bExec)
      ensures parents[y] == Parents(y)
    {
      if Extends(blk, bExec) {
        AncestorsComparable(blk, bExec, y);
      }
      assert Kept(delivered, bExec, h, parents, qcRef, y);
    }
  }

  lemma DeliverLinks(delivered: set<Block>, bExec: Block, h: nat, parents: LinkMap, qcRef: map<Block, Block>, b: Block)
    requires BlocksLinked(delivered, bExec, h, parents, qcRef)
    requires b !in delivered && ParentsDelivered(delivered, b)
    ensures BlocksLinked(delivered + {b}, bExec, h, parents[b := Parents(b)], qcRef[b := Ref(b)])
  {
    ClosedGrows(delivered, b);
    var parents', qcRef' := parents[b := Parents(b)], qcRef[b := Ref(b)];
    forall x | x in parents' ensures LinkOk(parents', x) {
      assert LinkOk(parents, x);
    }
    forall x ensures Kept(delivered + {b}, bExec, h, parents', qcRef', x) {
      assert Kept(delivered, bExec, h, parents, qcRef, x);
    }
  }

  /** Fewer links are needed once `b_lock` or `b_exec` has moved up. */
  lemma FewerNeeded(delivered: set<Block>, bExec: Block, h: nat, bExec': Block, h': nat,
                    parents: LinkMap, qcRef: map<Block, Block>)
    requires BlocksLinked(delivered, bExec, h, parents, qcRef)
    requires h <= h' && Extends(bExec', bExec)
    ensures BlocksLinked(delivered, bExec', h', parents, qcRef)
  {
    forall x ensures Kept(delivered, bExec', h', parents, qcRef, x) {
      assert Kept(delivered, bExec, h, parents, qcRef, x);
      if x != bExec' && Extends(x, bExec') {
        ExtendsTransitive(x, bExec', bExec);
        ExtendsHeight(x, bExec');
        ExtendsHeight(bExec', bExec);
      }
    }
  }

  lemma DecideNext(id: ReplicaID, cur: Block, decision: set<Block>, log: seq<Finality>, b: Block)
    requires Executed(id, cur, decision, log) && b.Node? && b.parent == cur
    ensures Executed(id, b, decision + {b}, log + BlockDecisions(id, b, |b.cmds|))
  {
  }

  /** `prune`, starting at `start`, reaches no block above height `h`. */
  ghost predicate PrunesNothingAbove(parents: LinkMap, start: Block, h: nat)
    requires LinksOk(parents)
  {
    forall b :: b in parents && Reaches(parents, start, b) ==> Height(b) <= h
  }

  /** The walks down to `b_lock` and `hqc` stay on intact links, and so does everything else a handler
      follows, exactly if `prune` reaches no block above `b_lock`; the walks that commit always do. */
  lemma PruneKeepsLinked(delivered: set<Block>, bExec: Block, h: nat, start: Block,
                         parents: LinkMap, qcRef: map<Block, Block>,
                         parents': LinkMap, qcRef': map<Block, Block>)
    requires BlocksLinked(delivered, bExec, h, parents, qcRef)
    requires Extends(bExec, start) && Height(bExec) <= h
    requires ClearedFrom(parents, qcRef, start, parents', qcRef')
    ensures BlocksLinked(delivered, bExec, h, parents', qcRef') <==> PrunesNothingAbove(parents, start, h)
    ensures IntactAbove(parents', h) <==> PrunesNothingAbove(parents, start, h)
    ensures forall d :: d in delivered && d != bExec && Extends(d, bExec) ==> parents'[d] == Parents(d) && d in qcRef'
  {
    ClearedLinksOk(parents, qcRef, start, parents', qcRef');
    ExtendsHeight(bExec, start);
    forall d | d in delivered && d != bExec && Extends(d, bExec)
      ensures d in qcRef' && parents'[d] == Parents(d) && !Reaches(parents, start, d)
    {
      assert Kept(delivered, bExec, h, parents, qcRef, d);
      DescendantKept(parents, start, bExec, d);
    }
    if PrunesNothingAbove(parents, start, h) {
      forall x ensures Kept(delivered, bExec, h, parents', qcRef', x) {
        assert Kept(delivered, bExec, h, parents, qcRef, x);
      }
    }
    if BlocksLinked(delivered, bExec, h, parents', qcRef') {
      AboveLockIntact(delivered, bExec, h, parents', qcRef');
    }
    if IntactAbove(parents', h) {
      forall b | b in parents && Reaches(parents, start, b) ensures Height(b) <= h {
        assert parents'[b] == [];
      }
    }
  }

  lemma DescendantKept(parents: LinkMap, start: Block, bExec: Block, d: Block)
    requires LinksOk(parents) && Extends(bExec, start) && d != bExec && Extends(d, bExec)
    ensures d != start && !Reaches(parents, start, d)
  {
    if Reaches(parents, start, d) {
      NoDescendantReached(parents, start, bExec, d);
    }
    assert Reaches(parents, start, start);
  }

  /** It reaches none if blocks have one parent each. */
  lemma SingleParentPrunesBelow(parents: LinkMap, start: Block, h: nat)
    requires LinksOk(parents) && SingleParent(start) && Height(start) <= h
    ensures PrunesNothingAbove(parents, start, h)
  {
    forall b | b in parents && Reaches(parents, start, b) ensures Height(b) <= h {
      ReachesIsExtends(parents, start, b);
      ExtendsHeight(start, b);
    }
  }

  /** `queue` lists the blocks from `top` down to the child of `bottom`. */
  predicate CommitPath(queue: seq<Block>, top: Block, bottom: Block) {
    if queue == [] then top == bottom
    else
      var last := queue[|queue| - 1];
      last.Node? && last.parent == bottom && CommitPath(queue[..|queue| - 1], top, last)
  }

  lemma TailsDelivered(st: Replica)
    requires TailsOk(st.delivered, st.tails)
    ensures st.tails <= st.delivered
  {
  }

  // ---- why the early returns of update lose nothing ----

  /** None of the references that `update(nblk)` follows has been cleared, or waits for a delivery. */
  predicate FullyLinked(k: Steps, qcRef: map<Block, Block>, nblk: Block) {
    nblk in qcRef && Ref(nblk) in qcRef && LockOf(k, nblk) in qcRef
  }

  /** The case in which the code throws "safety breached". */
  predicate Throws(k: Steps, delivered: set<Block>, bExec: Block, qcRef: map<Block, Block>, nblk: Block) {
    FullyLinked(k, qcRef, nblk) && Conflicts(k, delivered, bExec, nblk)
  }

  /** What an early return skips would have changed nothing. */
  predicate EarlyReturnsSafe(k: Steps, delivered: set<Block>, hqc: Block, bLock: Block, bExec: Block,
                             qcRef: map<Block, Block>, nblk: Block) {
    var blk2, blk1, blk := RefIn(delivered, nblk), LockIn(k, delivered, nblk), CommitIn(k, delivered, nblk);
    && Height(bExec) <= Height(bLock) && Height(bExec) <= Height(hqc)
    && (nblk !in qcRef ==> Height(blk2) <= Height(hqc) && Height(blk2) <= Height(bLock) && Height(blk1) <= Height(bLock))
    && (Height(blk2) <= Height(bExec) || (k == ThreeStep && blk2 !in qcRef) ==> Height(blk1) <= Height(bLock))
    && (!FullyLinked(k, qcRef, nblk) && DirectChain(k, blk2) && Comparable(blk, bExec) ==> Height(blk) <= Height(bExec))
  }

  /** What `update(nblk)` relies on.  The last condition is met whenever safety is not breached. */
  predicate Prepared(k: Steps, st: Replica, parents: LinkMap, qcRef: map<Block, Block>, nblk: Block) {
    && IntactAbove(parents, Height(st.hqc))
    && EarlyReturnsSafe(k, st.delivered, st.hqc, st.bLock, st.bExec, qcRef, nblk)
    && (Conflicts(k, st.delivered, st.bExec, nblk) ==> IntactAbove(parents, Height(st.bExec)))
  }

  /** A direct chain is seen as it is, and leads down. */
  lemma DirectChainDown(k: Steps, delivered: set<Block>, nblk: Block)
    requires Closed(delivered) && DirectChain(k, RefIn(delivered, nblk))
    ensures var blk2, blk1, blk := Ref(nblk), LockOf(k, nblk), LockOf(k, Ref(nblk));
            && RefIn(delivered, nblk) == blk2 && LockIn(k, delivered, nblk) == blk1 && CommitIn(k, delivered, nblk) == blk
            && blk2 in delivered && blk1 in delivered && blk in delivered
            && Extends(blk1, blk) && Extends(blk2, blk1) && Extends(blk2, blk)
  {
    var blk2, blk1, blk := Ref(nblk), LockOf(k, nblk), LockOf(k, Ref(nblk));
    ChainSeen(k, delivered, blk2);
    assert Extends(blk, blk) && Extends(blk1, blk1);
    ExtendsTransitive(blk2, blk1, blk);
  }

  /** `nblk` is delivered and refers into a tree of blocks whose certificates name ancestors; a block
      outside that tree is new, so its own reference is in place. */
  ghost predicate Rests(st: Replica, tree: set<Block>, qcRef: map<Block, Block>, nblk: Block) {
    && TreeOk(tree) && tree <= st.delivered && nblk in st.delivered && Ref(nblk) in tree
    && (nblk in qcRef || nblk in tree)
    && Height(st.bExec) <= Height(st.bLock) <= Height(st.hqc)
  }

  /** What commits a block above `b_exec` has kept its references. */
  lemma CommitLinked(k: Steps, st: Replica, tree: set<Block>, parents: LinkMap, qcRef: map<Block, Block>, nblk: Block)
    requires BlocksLinked(st.delivered, st.bExec, Height(st.bLock), parents, qcRef)
    requires Rests(st, tree, qcRef, nblk) && DirectChain(k, Ref(nblk))
    requires var x := CommitIn(k, st.delivered, nblk); Comparable(x, st.bExec) && Height(x) > Height(st.bExec)
    ensures FullyLinked(k, qcRef, nblk)
  {
    var x := CommitIn(k, st.delivered, nblk);
    if Extends(st.bExec, x) {
      ExtendsHeight(st.bExec, x);
    }
    DirectChainDown(k, st.delivered, nblk);
    if nblk in tree {
      RefDelivered(tree, nblk);
      ExtendsTransitive(nblk, Ref(nblk), x);
      AboveExecKept(st, parents, qcRef, nblk, x);
    }
    AboveExecKept(st, parents, qcRef, Ref(nblk), x);
    AboveExecKept(st, parents, qcRef, LockOf(k, nblk), x);
  }

  lemma AboveExecKept(st: Replica, parents: LinkMap, qcRef: map<Block, Block>, b: Block, x: Block)
    requires BlocksLinked(st.delivered, st.bExec, Height(st.bLock), parents, qcRef) && b in st.delivered
    requires Extends(b, x) && Extends(x, st.bExec) && Height(x) > Height(st.bExec)
    ensures b in qcRef
  {
    ExtendsTransitive(b, x, st.bExec);
    ExtendsHeight(b, x);
    assert Kept(st.delivered, st.bExec, Height(st.bLock), parents, qcRef, b);
  }

  /** While certificates name ancestors, pruning or not. */
  lemma RootedPrepared(k: Steps, st: Replica, tree: set<Block>, parents: LinkMap, qcRef: map<Block, Block>, nblk: Block)
    requires BlocksLinked(st.delivered, st.bExec, Height(st.bLock), parents, qcRef)
    requires Rests(st, tree, qcRef, nblk)
    requires Conflicts(k, st.delivered, st.bExec, nblk) ==> IntactAbove(parents, Height(st.bExec))
    ensures Prepared(k, st, parents, qcRef, nblk)
  {
    AboveLockIntact(st.delivered, st.bExec, Height(st.bLock), parents, qcRef);
    LockNotAbove(k, st.delivered, tree, nblk);
    assert Kept(st.delivered, st.bExec, Height(st.bLock), parents, qcRef, nblk);
    assert Kept(st.delivered, st.bExec, Height(st.bLock), parents, qcRef, Ref(nblk));
    var x := CommitIn(k, st.delivered, nblk);
    if DirectChain(k, Ref(nblk)) && Comparable(x, st.bExec) && Height(x) > Height(st.bExec) {
      CommitLinked(k, st, tree, parents, qcRef, nblk);
    }
  }

  lemma LockNotAbove(k: Steps, delivered: set<Block>, tree: set<Block>, nblk: Block)
    requires TreeOk(tree) && tree <= delivered && Ref(nblk) in tree
    ensures RefIn(delivered, nblk) == Ref(nblk) && LockIn(k, delivered, nblk) == LockOf(k, nblk)
    ensures Height(LockOf(k, nblk)) <= Height(Ref(nblk))
    ensures nblk in tree ==> Height(Ref(nblk)) <= Height(nblk)
  {
    RefDelivered(tree, Ref(nblk));
    if nblk in tree {
      RefDelivered(tree, nblk);
    }
  }

  /** Without pruning the two-step build needs no hypothesis about certificates, nor does a replica
      that has executed nothing. */
  lemma UnprunedPrepared(k: Steps, st: Replica, parents: LinkMap, qcRef: map<Block, Block>, nblk: Block)
    requires BlocksLinked(st.delivered, st.bExec, Height(st.bLock), parents, qcRef) && qcRef.Keys == st.delivered
    requires Loose(st) && nblk in st.delivered && (k == TwoStep || st.bExec == Genesis)
    ensures Prepared(k, st, parents, qcRef, nblk)
  {
    RefsSeen(k, st.delivered, nblk);
    if DirectChain(k, RefIn(st.delivered, nblk)) {
      DirectChainDown(k, st.delivered, nblk);
    }
    forall b | b in parents ensures parents[b] == Parents(b) {
      assert Kept(st.delivered, st.bExec, Height(st.bLock), parents, qcRef, b);
    }
  }

  /** What a decided block makes a replica commit is decided. */
  lemma DecidedNoThrow(k: Steps, delivered: set<Block>, bExec: Block, nblk: Block)
    requires Closed(delivered) && (Extends(bExec, Ref(nblk)) || Extends(bExec, LockOf(k, nblk)))
    ensures DirectChain(k, RefIn(delivered, nblk)) ==>
              var blk := CommitIn(k, delivered, nblk);
              Extends(bExec, blk) && Height(blk) <= Height(bExec)
  {
    if DirectChain(k, RefIn(delivered, nblk)) {
      DirectChainDown(k, delivered, nblk);
      if Extends(bExec, Ref(nblk)) {
        ExtendsTransitive(bExec, Ref(nblk), LockOf(k, nblk));
      }
      ExtendsTransitive(bExec, LockOf(k, nblk), CommitIn(k, delivered, nblk));
      ExtendsHeight(bExec, CommitIn(k, delivered, nblk));
    }
  }

  lemma DecidedLow(id: ReplicaID, bExec: Block, decision: set<Block>, log: seq<Finality>, b: Block)
    requires Executed(id, bExec, decision, log) && b in decision
    ensures Extends(bExec, b) && Height(b) <= Height(bExec)
  {
    ExtendsHeight(bExec, b);
  }

  /** The walk from an undecided block finds `b_exec` exactly if the two blocks are on one branch. */
  lemma UndecidedWalk(bExec: Block, b: Block)
    requires !Extends(bExec, b)
    ensures Comparable(b, bExec) <==> WalkDown(b, Height(bExec)) == bExec
    ensures Comparable(b, bExec) ==> Height(b) > Height(bExec)
  {
    WalkDecidesExtends(b, bExec);
    if Extends(b, bExec) {
      ExtendsHeight(b, bExec);
    }
  }

  class HotStuffCore {
    const id: ReplicaID
    const nreplicas: nat
    const nmajority: nat
    const steps: Steps
    const pm: PMHighTail

    var hqc: Block
    var hqcCert: set<ReplicaID>
    var bLock: Block
    var bExec: Block
    var vheight: nat
    var tails: set<Block>
    var voteDisabled: bool

    // fields of the blocks, by block
    var storage: set<Block>                   // fetched blocks
    var delivered: set<Block>
    var decision: set<Block>
    var parents: LinkMap
    var qcRef: map<Block, Block>              // absent: null
    var voted: map<Block, set<ReplicaID>>
    var selfQc: map<Block, set<ReplicaID>>    // absent: null

    var log: seq<Finality>                    // the calls of do_decide so far

    ghost function Abs(): Replica
      reads this, pm
    {
      Replica(hqc, hqcCert, bLock, bExec, vheight, delivered, tails, voted, selfQc, voteDisabled, pm.hqcTail)
    }

    ghost predicate Linked()
      reads `storage, `delivered, `decision, `parents, `qcRef, `bExec, `bLock, `log
    {
      && nreplicas > 0 && nmajority == Majority(nreplicas)
      && delivered <= storage
      && BlocksLinked(delivered, bExec, Height(bLock), parents, qcRef)
      && Executed(id, bExec, decision, log)
    }

    /** Certificates name ancestors; links may have been pruned. */
    ghost predicate Valid()
      reads this, pm
    {
      Linked() && LocalInv(Abs())
    }

    ghost predicate NothingPruned()
      reads `qcRef, `delivered
    {
      qcRef.Keys == delivered
    }

    /** Nothing has been pruned; certificates may name any block. */
    ghost predicate Unpruned()
      reads this, pm
    {
      Linked() && NothingPruned() && Loose(Abs())
    }

    /** The states in which the handlers do what the algorithm says. */
    ghost predicate Working()
      reads this, pm
    {
      Valid() || (Unpruned() && (steps == TwoStep || bExec == Genesis))
    }

    /** The constructor, with `add_replica` for `n` replicas and `on_init`. */
    constructor (id: ReplicaID, n: nat, steps: Steps)
      requires n > 0
      ensures Valid() && Unpruned() && Abs() == InitReplica(n)
      ensures this.id == id && this.nreplicas == n && this.steps == steps && fresh(pm)
    {
      this.id, this.nreplicas, this.steps := id, n, steps;
      nmajority := n - (n - 1) / 3;
      pm := new PMHighTail();
      hqc, hqcCert, bLock, bExec, vheight := Genesis, {}, Genesis, Genesis, 0;
      tails, storage, delivered, decision := {Genesis}, {Genesis}, {Genesis}, {Genesis};
      voteDisabled := false;
      parents, qcRef := map[Genesis := []], map[Genesis := Genesis];
      voted, selfQc := map[Genesis := Ids(n)], map[Genesis := {}];
      log := [];
    }

    method SetVoteDisabled(f: bool)
      requires Linked()
      modifies this`voteDisabled
      ensures Linked() && Abs() == old(Abs()).(voteDisabled := f)
      ensures old(Valid()) ==> Valid()
      ensures old(Unpruned()) ==> Unpruned()
    {
      voteDisabled := f;
    }

    method AddBlk(b: Block)
      requires Linked()
      modifies this`storage
      ensures Linked() && Abs() == old(Abs()) && storage == old(storage) + {b}
      ensures old(Valid()) ==> Valid()
      ensures old(Unpruned()) ==> Unpruned()
    {
      storage := storage + {b};
    }

    /** The parent pointers of a block, unless a parent is not delivered. */
    method LookUpParents(blk: Block) returns (ok: bool, ps: seq<Block>)
      ensures ok <==> ParentsDelivered(delivered, blk)
      ensures ok ==> ps == Parents(blk)
    {
      ps := [];
      for i := 0 to |Parents(blk)|
        invariant ps == Parents(blk)[..i]
        invariant forall p :: p in ps ==> p in delivered
      {
        if Parents(blk)[i] !in delivered {
          return false, ps;
        }
        ps := ps + [Parents(blk)[i]];
      }
      ok := true;
    }

    method EraseTails(ps: seq<Block>)
      modifies this`tails
      ensures tails == old(tails) - (set p | p in ps)
    {
      for i := 0 to |ps|
        invariant tails == old(tails) - (set p | p in ps[..i])
      {
        tails := tails - {ps[i]};
      }
    }

    method TryDeliver(blk: Block) returns (outcome: Outcome)
      requires Linked() && blk in storage
      modifies this`tails, this`delivered, this`parents, this`qcRef
      ensures Linked()
      ensures outcome == AlreadyDelivered <==> blk in old(delivered)
      ensures outcome == NotDelivered <==> blk !in old(delivered) && !ParentsDelivered(old(delivered), blk)
      ensures outcome == QcNotFetched <==>
                blk !in old(delivered) && ParentsDelivered(old(delivered), blk) && Ref(blk) !in storage
      ensures outcome in {Ok, AlreadyDelivered, NotDelivered, QcNotFetched}
      ensures Abs() == if outcome == Ok then Deliver(old(Abs()), blk) else old(Abs())
      ensures qcRef == if outcome == Ok then old(qcRef)[blk := Ref(blk)] else old(qcRef)
      ensures parents == if outcome == Ok then old(parents)[blk := Parents(blk)] else old(parents)
    {
      if blk in delivered {
        return AlreadyDelivered;
      }
      var ok, ps := LookUpParents(blk);
      if !ok {
        return NotDelivered;
      }
      if Ref(blk) !in storage {
        return QcNotFetched;
      }
      DeliverLinks(delivered, bExec, Height(bLock), parents, qcRef, blk);
      Attach(blk, ps);
      outcome := Ok;
    }

    /** A new block is delivered when its parents are and the block of its certificate is fetched. */
    method OnDeliverBlk(blk: Block) returns (outcome: Outcome)
      requires Linked() && blk in storage
      modifies this`tails, this`delivered, this`parents, this`qcRef
      ensures Linked()
      ensures outcome == AlreadyDelivered <==> blk in old(delivered)
      ensures outcome == NotDelivered <==> blk !in old(delivered) && !ParentsDelivered(old(delivered), blk)
      ensures outcome == QcNotFetched <==>
                blk !in old(delivered) && ParentsDelivered(old(delivered), blk) && Ref(blk) !in storage
      ensures outcome in {Ok, AlreadyDelivered, NotDelivered, QcNotFetched}
      ensures Abs() == if outcome == Ok then Deliver(old(Abs()), blk) else old(Abs())
      ensures outcome == Ok ==>
                && delivered == old(delivered) + {blk} && tails == old(tails) - (set p | p in Parents(blk)) + {blk}
                && parents == old(parents)[blk := Parents(blk)] && qcRef == old(qcRef)[blk := Ref(blk)]
      ensures old(Valid()) && (outcome == Ok ==> QcOnBranch(blk)) ==> Valid()
      ensures old(Valid()) && QcOnBranch(blk) ==> outcome != QcNotFetched
      ensures old(Unpruned()) ==> Unpruned()
    {
      ghost var st := Abs();
      DeliverInvariants(st, blk);
      outcome := TryDeliver(blk);
    }

    static lemma DeliverInvariants(st: Replica, blk: Block)
      ensures LocalInv(st) && QcOnBranch(blk) && ParentsDelivered(st.delivered, blk) ==>
                Ref(blk) in st.delivered && LocalInv(Deliver(st, blk))
      ensures Loose(st) && ParentsDelivered(st.delivered, blk) ==> Loose(Deliver(st, blk))
    {
      if LocalInv(st) && QcOnBranch(blk) && ParentsDelivered(st.delivered, blk) {
        RefOfNew(st.delivered, blk);
        DeliverKeeps(st, blk);
      }
      if Loose(st) && ParentsDelivered(st.delivered, blk) {
        DeliverLoose(st, blk);
      }
    }

    method Attach(blk: Block, ps: seq<Block>)
      requires blk !in delivered && ps == Parents(blk)
      modifies this`tails, this`delivered, this`parents, this`qcRef
      ensures Abs() == Deliver(old(Abs()), blk)
      ensures parents == old(parents)[blk := Parents(blk)] && qcRef == old(qcRef)[blk := Ref(blk)]
    {
      parents, qcRef := parents[blk := ps], qcRef[blk := Ref(blk)];
      EraseTails(ps);
      tails := tails + {blk};
      delivered := delivered + {blk};
    }

    /** The field `height`, which is 0 until the block is delivered. */
    function HeightField(b: Block): nat
      reads `delivered
    {
      if b in delivered then Height(b) else 0
    }

    /** `update_hqc`, with the callback it triggers. */
    method UpdateHqc(b: Block, cert: set<ReplicaID>)
      requires LinksOk(parents) && IntactAbove(parents, Height(hqc)) && tails <= parents.Keys
      modifies this`hqc, this`hqcCert, pm
      ensures hqc == if HeightField(b) > Height(old(hqc)) then b else old(hqc)
      ensures hqcCert == if HeightField(b) > Height(old(hqc)) then cert else old(hqcCert)
      ensures TailFollows(tails, old(hqc), hqc, old(pm.hqcTail), pm.hqcTail)
    {
      if HeightField(b) > Height(hqc) {
        hqc, hqcCert := b, cert;
        pm.OnHqcUpdate(hqc, tails, parents);
      }
    }

    /** The loop that collects the blocks to commit. */
    method CollectCommits(blk: Block) returns (b: Block, queue: seq<Block>)
      requires LinksOk(parents) && blk in parents && WalkSafe(parents, blk, Height(bExec))
      ensures b == WalkDown(blk, Height(bExec))
      ensures CommitPath(queue, blk, b)
    {
      b, queue := blk, [];
      while Height(b) > Height(bExec)
        invariant b in parents && Extends(blk, b)
        invariant WalkDown(b, Height(bExec)) == WalkDown(blk, Height(bExec))
        invariant CommitPath(queue, blk, b)
        decreases Height(b)
      {
        assert (queue + [b])[..|queue|] == queue;
        assert LinkOk(parents, b) && parents[b][0] in parents[b];
        ExtendsTransitive(blk, b, b.parent);
        queue := queue + [b];
        b := parents[b][0];
      }
    }

    /** Executes one block: its decision flag and one `do_decide` per command. */
    method DecideBlock(blk: Block)
      requires blk.Node?
      modifies this`decision, this`log
      ensures decision == old(decision) + {blk}
      ensures log == old(log) + BlockDecisions(id, blk, |blk.cmds|)
    {
      decision := decision + {blk};
      for i := 0 to |blk.cmds|
        invariant decision == old(decision) + {blk}
        invariant log == old(log) + BlockDecisions(id, blk, i)
      {
        log := log + [Finality(id, i, Height(blk), blk.cmds[i], blk)];
      }
    }

    /** The loop that executes the collected blocks in reverse. */
    method ExecuteCommits(queue: seq<Block>, blk: Block)
      requires CommitPath(queue, blk, bExec) && Executed(id, bExec, decision, log)
      modifies this`decision, this`log
      ensures Executed(id, blk, decision, log) && old(decision) <= decision
    {
      var i := |queue|;
      ghost var cur := bExec;
      assert queue[..i] == queue;
      while i > 0
        invariant 0 <= i <= |queue|
        invariant CommitPath(queue[..i], blk, cur)
        invariant Executed(id, cur, decision, log) && old(decision) <= decision
      {
        i := i - 1;
        assert queue[..i + 1][..i] == queue[..i];
        DecideNext(id, cur, decision, log, queue[i]);
        DecideBlock(queue[i]);
        cur := queue[i];
      }
    }

    /** The commit: walk down to `b_exec`, then execute in reverse. */
    method Commit(blk: Block) returns (breached: bool)
      requires Linked() && blk in delivered && WalkSafe(parents, blk, Height(bExec))
      modifies this`bExec, this`decision, this`log
      ensures Linked()
      ensures breached <==> WalkDown(blk, Height(old(bExec))) != old(bExec)
      ensures bExec == if breached then old(bExec) else blk
    {
      var b, queue := CollectCommits(blk);
      if b != bExec {
        return true;
      }
      ExecuteCommits(queue, blk);
      WalkDecidesExtends(blk, bExec);
      FewerNeeded(delivered, bExec, Height(bLock), blk, Height(bLock), parents, qcRef);
      bExec := blk;
      breached := false;
    }

    // ---- update ----

    /** The three-step arm once `blk1` is locked. */
    method CommitThreeChain(blk2: Block, blk1: Block, ghost nblk: Block) returns (breached: bool)
      requires Linked() && steps == ThreeStep && nblk in qcRef
      requires blk2 == Ref(nblk) && blk1 == Ref(blk2) && blk2 in qcRef && {blk2, blk1} !! decision
      requires Kept(delivered, bExec, Height(bLock), parents, qcRef, blk2)
      requires EarlyReturnsSafe(steps, delivered, hqc, bLock, bExec, qcRef, nblk)
      requires Conflicts(steps, delivered, bExec, nblk) ==> IntactAbove(parents, Height(bExec))
      modifies this`bExec, this`decision, this`log
      ensures Linked()
      ensures breached <==> Throws(steps, delivered, old(bExec), qcRef, nblk)
      ensures bExec == ExecFrom(steps, delivered, old(bExec), nblk)
    {
      CommitLower(steps, delivered, nblk);
      if DirectChain(steps, blk2) {
        DirectChainDown(steps, delivered, nblk);
      }
      assert Kept(delivered, bExec, Height(bLock), parents, qcRef, blk1);
      if blk1 !in qcRef {
        return false;
      }
      var blk := qcRef[blk1];
      if blk in decision {
        DecidedLow(id, bExec, decision, log, blk);
        return false;
      }
      ExtendsGenesis(bExec);
      assert Genesis in decision;
      if parents[blk2][0] != blk1 || parents[blk1][0] != blk {
        return false;
      }
      UndecidedWalk(bExec, blk);
      CommitWalkSafe(delivered, bExec, Height(bLock), parents, qcRef, blk);
      breached := Commit(blk);
    }

    /** The two-step arm once `blk1` is locked. */
    method CommitTwoChain(blk1: Block, ghost nblk: Block) returns (breached: bool)
      requires Linked() && steps == TwoStep && nblk in qcRef
      requires blk1 == Ref(nblk) && blk1 !in decision
      requires EarlyReturnsSafe(steps, delivered, hqc, bLock, bExec, qcRef, nblk)
      requires Conflicts(steps, delivered, bExec, nblk) ==> IntactAbove(parents, Height(bExec))
      modifies this`bExec, this`decision, this`log
      ensures Linked()
      ensures breached <==> Throws(steps, delivered, old(bExec), qcRef, nblk)
      ensures bExec == ExecFrom(steps, delivered, old(bExec), nblk)
    {
      CommitLower(steps, delivered, nblk);
      if DirectChain(steps, RefIn(delivered, nblk)) {
        DirectChainDown(steps, delivered, nblk);
      }
      assert Kept(delivered, bExec, Height(bLock), parents, qcRef, blk1);
      if blk1 !in qcRef {
        return false;
      }
      var blk := qcRef[blk1];
      if blk in decision {
        DecidedLow(id, bExec, decision, log, blk);
        return false;
      }
      ExtendsGenesis(bExec);
      assert Genesis in decision;
      if parents[blk1][0] != blk {
        return false;
      }
      UndecidedWalk(bExec, blk);
      CommitWalkSafe(delivered, bExec, Height(bLock), parents, qcRef, blk);
      breached := Commit(blk);
    }

    /** `b_lock` becomes the higher of the two. */
    method RaiseLock(blk1: Block)
      requires Linked()
      modifies this`bLock
      ensures Linked() && bLock == if HeightField(blk1) > Height(old(bLock)) then blk1 else old(bLock)
    {
      if HeightField(blk1) > Height(bLock) {
        FewerNeeded(delivered, bExec, Height(bLock), bExec, Height(blk1), parents, qcRef);
        bLock := blk1;
      }
    }

    /** The three-step arm from the certified block `blk2` on. */
    method LockThreeChain(blk2: Block, ghost nblk: Block) returns (breached: bool)
      requires Linked() && steps == ThreeStep && nblk in qcRef
      requires blk2 == Ref(nblk) && blk2 !in decision
      requires EarlyReturnsSafe(steps, delivered, hqc, bLock, bExec, qcRef, nblk)
      requires Conflicts(steps, delivered, bExec, nblk) ==> IntactAbove(parents, Height(bExec))
      modifies this`bLock, this`bExec, this`decision, this`log
      ensures Linked()
      ensures bLock == Higher(old(bLock), LockIn(steps, delivered, nblk))
      ensures breached <==> Throws(steps, delivered, old(bExec), qcRef, nblk)
      ensures bExec == ExecFrom(steps, delivered, old(bExec), nblk)
    {
      assert Kept(delivered, bExec, Height(bLock), parents, qcRef, blk2);
      if blk2 !in qcRef {
        return false;
      }
      var blk1 := qcRef[blk2];
      if blk1 in decision {
        DecidedLow(id, bExec, decision, log, blk1);
        DecidedNoThrow(steps, delivered, bExec, nblk);
        return false;
      }
      RaiseLock(blk1);
      breached := CommitThreeChain(blk2, blk1, nblk);
    }

    method UpdateThreeStep(nblk: Block) returns (breached: bool)
      requires Linked() && steps == ThreeStep && tails <= delivered && IntactAbove(parents, Height(hqc))
      requires nblk in delivered
      requires EarlyReturnsSafe(steps, delivered, hqc, bLock, bExec, qcRef, nblk)
      requires Conflicts(steps, delivered, bExec, nblk) ==> IntactAbove(parents, Height(bExec))
      modifies this`hqc, this`hqcCert, this`bLock, this`bExec, this`decision, this`log, pm
      ensures Linked()
      ensures hqc == Higher(old(hqc), RefIn(delivered, nblk))
      ensures hqcCert == if Height(RefIn(delivered, nblk)) > Height(old(hqc)) then Cert(nblk) else old(hqcCert)
      ensures bLock == Higher(old(bLock), LockIn(steps, delivered, nblk))
      ensures breached <==> Throws(steps, delivered, old(bExec), qcRef, nblk)
      ensures bExec == ExecFrom(steps, delivered, old(bExec), nblk)
      ensures TailFollows(tails, old(hqc), hqc, old(pm.hqcTail), pm.hqcTail)
    {
      assert Kept(delivered, bExec, Height(bLock), parents, qcRef, nblk);
      if nblk !in qcRef {
        return false;
      }
      var blk2 := qcRef[nblk];
      if blk2 in decision {
        DecidedLow(id, bExec, decision, log, blk2);
        DecidedNoThrow(steps, delivered, bExec, nblk);
        return false;
      }
      UpdateHqc(blk2, Cert(nblk));
      breached := LockThreeChain(blk2, nblk);
    }

    /** The two-step arm from the certified block `blk1` on. */
    method LockTwoChain(blk1: Block, ghost nblk: Block) returns (breached: bool)
      requires Linked() && steps == TwoStep && nblk in qcRef
      requires blk1 == Ref(nblk) && blk1 !in decision
      requires EarlyReturnsSafe(steps, delivered, hqc, bLock, bExec, qcRef, nblk)
      requires Conflicts(steps, delivered, bExec, nblk) ==> IntactAbove(parents, Height(bExec))
      modifies this`bLock, this`bExec, this`decision, this`log
      ensures Linked()
      ensures bLock == Higher(old(bLock), LockIn(steps, delivered, nblk))
      ensures breached <==> Throws(steps, delivered, old(bExec), qcRef, nblk)
      ensures bExec == ExecFrom(steps, delivered, old(bExec), nblk)
    {
      RaiseLock(blk1);
      breached := CommitTwoChain(blk1, nblk);
    }

    method UpdateTwoStep(nblk: Block) returns (breached: bool)
      requires Linked() && steps == TwoStep && tails <= delivered && IntactAbove(parents, Height(hqc))
      requires nblk in delivered
      requires EarlyReturnsSafe(steps, delivered, hqc, bLock, bExec, qcRef, nblk)
      requires Conflicts(steps, delivered, bExec, nblk) ==> IntactAbove(parents, Height(bExec))
      modifies this`hqc, this`hqcCert, this`bLock, this`bExec, this`decision, this`log, pm
      ensures Linked()
      ensures hqc == Higher(old(hqc), RefIn(delivered, nblk))
      ensures hqcCert == if Height(RefIn(delivered, nblk)) > Height(old(hqc)) then Cert(nblk) else old(hqcCert)
      ensures bLock == Higher(old(bLock), LockIn(steps, delivered, nblk))
      ensures breached <==> Throws(steps, delivered, old(bExec), qcRef, nblk)
      ensures bExec == ExecFrom(steps, delivered, old(bExec), nblk)
      ensures TailFollows(tails, old(hqc), hqc, old(pm.hqcTail), pm.hqcTail)
    {
      assert Kept(delivered, bExec, Height(bLock), parents, qcRef, nblk);
      if nblk !in qcRef {
        return false;
      }
      var blk1 := qcRef[nblk];
      if blk1 in decision {
        DecidedLow(id, bExec, decision, log, blk1);
        DecidedNoThrow(steps, delivered, bExec, nblk);
        return false;
      }
      UpdateHqc(blk1, Cert(nblk));
      breached := LockTwoChain(blk1, nblk);
    }

    method UpdateFields(nblk: Block) returns (breached: bool)
      requires Linked() && tails <= delivered && IntactAbove(parents, Height(hqc))
      requires nblk in delivered
      requires EarlyReturnsSafe(steps, delivered, hqc, bLock, bExec, qcRef, nblk)
      requires Conflicts(steps, delivered, bExec, nblk) ==> IntactAbove(parents, Height(bExec))
      modifies this`hqc, this`hqcCert, this`bLock, this`bExec, this`decision, this`log, pm
      ensures Linked()
      ensures hqc == Higher(old(hqc), RefIn(delivered, nblk))
      ensures hqcCert == if Height(RefIn(delivered, nblk)) > Height(old(hqc)) then Cert(nblk) else old(hqcCert)
      ensures bLock == Higher(old(bLock), LockIn(steps, delivered, nblk))
      ensures breached <==> Throws(steps, delivered, old(bExec), qcRef, nblk)
      ensures bExec == ExecFrom(steps, delivered, old(bExec), nblk)
      ensures TailFollows(tails, old(hqc), hqc, old(pm.hqcTail), pm.hqcTail)
    {
      if steps == ThreeStep {
        breached := UpdateThreeStep(nblk);
      } else {
        breached := UpdateTwoStep(nblk);
      }
    }

    method UpdateState(nblk: Block) returns (breached: bool)
      requires Linked() && tails <= delivered && Prepared(steps, Abs(), parents, qcRef, nblk)
      requires nblk in delivered
      modifies this`hqc, this`hqcCert, this`bLock, this`bExec, this`decision, this`log, pm
      ensures Linked()
      ensures breached <==> Throws(steps, delivered, old(bExec), qcRef, nblk)
      ensures Abs() == Processed(steps, old(Abs()), nblk).(hqcTail := pm.hqcTail)
      ensures TailFollows(tails, old(hqc), hqc, old(pm.hqcTail), pm.hqcTail)
      ensures Height(old(hqc)) <= Height(hqc) && Height(old(bLock)) <= Height(bLock)
    {
      breached := UpdateFields(nblk);
    }

    /** `update` does what the event-driven algorithm without early returns does, and throws
        exactly if the block to commit conflicts with `b_exec` and can be found. */
    method Update(nblk: Block) returns (breached: bool)
      requires Linked() && Loose(Abs()) && nblk in delivered && Prepared(steps, Abs(), parents, qcRef, nblk)
      modifies this`hqc, this`hqcCert, this`bLock, this`bExec, this`decision, this`log, pm
      ensures Linked() && Loose(Abs()) && IntactAbove(parents, Height(hqc)) && Height(old(bLock)) <= Height(bLock)
      ensures breached <==> Throws(steps, delivered, old(bExec), qcRef, nblk)
      ensures Abs() == Processed(steps, old(Abs()), nblk).(hqcTail := pm.hqcTail)
      ensures Rescanned(old(Abs()), Abs(), pm.hqcTail)
      ensures Learned(steps, delivered, old(Abs()), nblk, Abs())
      ensures Commits(steps, delivered, nblk) && Comparable(Bottom(steps, nblk), old(bExec)) ==>
                Logged(id, Bottom(steps, nblk), log)
    {
      ghost var st := Abs();
      TailsDelivered(st);
      breached := UpdateState(nblk);
      UpdateLeaves(steps, st, nblk, Abs());
      CommitIsLogged(st, nblk);
    }

    /** What `update` has committed is in the log, with all that comes before. */
    lemma CommitIsLogged(st: Replica, nblk: Block)
      requires Linked() && Learned(steps, delivered, st, nblk, Abs())
      ensures Commits(steps, delivered, nblk) && Comparable(Bottom(steps, nblk), st.bExec) ==>
                Logged(id, Bottom(steps, nblk), log)
    {
      if Commits(steps, delivered, nblk) && Comparable(Bottom(steps, nblk), st.bExec) {
        ExecutedIsLogged(id, bExec, Bottom(steps, nblk));
      }
    }

    static lemma UpdateLeaves(k: Steps, st: Replica, nblk: Block, st1: Replica)
      requires Loose(st) && nblk in st.delivered
      requires st1 == Processed(k, st, nblk).(hqcTail := st1.hqcTail)
      requires TailFollows(st.tails, st.hqc, st1.hqc, st.hqcTail, st1.hqcTail)
      ensures Loose(st1) && Rescanned(st, st1, st1.hqcTail) && Learned(k, st.delivered, st, nblk, st1)
    {
      UpdateLearns(k, st, nblk);
      assert Rescanned(st, Processed(k, st, nblk), st1.hqcTail);
      ProcessLoose(k, st, nblk, st1.hqcTail);
    }

    // ---- proposals ----

    /** The safety condition: does the branch of `bnew` contain the lock? */
    method FollowsLock(bnew: Block) returns (r: bool)
      requires LinksOk(parents) && IntactAbove(parents, Height(bLock)) && bnew in parents
      ensures r <==> Extends(bnew, bLock)
    {
      var b := bnew;
      while Height(b) > Height(bLock)
        invariant b in parents && WalkDown(b, Height(bLock)) == WalkDown(bnew, Height(bLock))
        decreases Height(b)
      {
        assert LinkOk(parents, b) && parents[b][0] in parents[b];
        b := parents[b][0];
      }
      WalkDecidesExtends(bnew, bLock);
      r := b == bLock;
    }

    /** The part of `on_receive_proposal` after `update`. */
    method FormOpinion(bnew: Block) returns (opinion: bool)
      requires Linked() && bnew in delivered
      requires bnew !in qcRef ==> Height(RefIn(delivered, bnew)) <= Height(bLock)
      modifies this`vheight
      ensures opinion <==> Height(bnew) > old(vheight) && VoteRule(delivered, bLock, bnew)
      ensures vheight == if opinion then Height(bnew) else old(vheight)
    {
      opinion := false;
      AboveLockIntact(delivered, bExec, Height(bLock), parents, qcRef);
      assert Kept(delivered, bExec, Height(bLock), parents, qcRef, bnew);
      if Height(bnew) > vheight {
        if bnew in qcRef && HeightField(qcRef[bnew]) > Height(bLock) {
          opinion := true;
          vheight := Height(bnew);
        } else {
          var follows := FollowsLock(bnew);
          if follows {
            opinion := true;
            vheight := Height(bnew);
          }
        }
      }
    }

    method JudgeProposal(bnew: Block) returns (vote: bool)
      requires Linked() && Loose(Abs()) && bnew in delivered && IntactAbove(parents, Height(hqc))
      requires bnew !in qcRef ==> Height(RefIn(delivered, bnew)) <= Height(bLock)
      modifies this`vheight, pm
      ensures Linked() && Loose(Abs())
      ensures Abs() == Judge(old(Abs()), bnew)
      ensures vote <==> Opinion(old(Abs()), bnew) && !voteDisabled
    {
      ghost var st := Abs();
      var opinion := FormOpinion(bnew);
      pm.OnReceiveProposal(hqc, bnew, parents);
      vote := opinion && !voteDisabled;
      JudgeLoose(st, bnew);
    }

    static lemma JudgedReceives(k: Steps, st: Replica, st1: Replica, bnew: Block, st': Replica, vote: bool)
      requires st1 == Processed(k, st, bnew).(hqcTail := st1.hqcTail) && Rescanned(st, st1, st1.hqcTail)
      requires st' == Judge(st1, bnew) && (vote <==> Opinion(st1, bnew) && !st.voteDisabled)
      ensures ReceivesProposal(k, st, bnew, st', vote)
    {
      assert Rescanned(st, Processed(k, st, bnew), st1.hqcTail);
    }

    /** The same, after `update` took the replica from `st` to its present state. */
    method JudgeReceived(bnew: Block, ghost st: Replica) returns (vote: bool)
      requires Linked() && Loose(Abs()) && bnew in delivered && IntactAbove(parents, Height(hqc))
      requires bnew !in qcRef ==> Height(RefIn(delivered, bnew)) <= Height(bLock)
      requires Abs() == Processed(steps, st, bnew).(hqcTail := pm.hqcTail) && Rescanned(st, Abs(), pm.hqcTail)
      modifies this`vheight, pm
      ensures Linked() && Loose(Abs()) && ReceivesProposal(steps, st, bnew, Abs(), vote)
    {
      ghost var st1 := Abs();
      vote := JudgeProposal(bnew);
      JudgedReceives(steps, st, st1, bnew, Abs(), vote);
    }

    /** `update` and the opinion, for a proposal of another replica. */
    method ProcessProposal(bnew: Block) returns (breached: bool, vote: bool)
      requires Linked() && Loose(Abs()) && bnew in delivered && Prepared(steps, Abs(), parents, qcRef, bnew)
      modifies this`hqc, this`hqcCert, this`bLock, this`bExec, this`vheight, this`decision, this`log, pm
      ensures Linked() && Loose(Abs())
      ensures breached <==> Throws(steps, delivered, old(bExec), qcRef, bnew)
      ensures breached ==>
                && !vote && Rescanned(old(Abs()), Abs(), pm.hqcTail)
                && Abs() == Processed(steps, old(Abs()), bnew).(hqcTail := pm.hqcTail)
      ensures !breached ==> ReceivesProposal(steps, old(Abs()), bnew, Abs(), vote)
    {
      ghost var st := Abs();
      vote := false;
      breached := Update(bnew);
      if !breached {
        vote := JudgeReceived(bnew, st);
      }
    }

    /** A block that conflicts with `b_exec` can be walked down from.  No block conflicts unless safety
        is breached. */
    ghost predicate Ready(bnew: Block)
      reads this, pm
    {
      Working() && (Conflicts(steps, delivered, bExec, bnew) ==> IntactAbove(parents, Height(bExec)))
    }

    lemma ReadyPrepared(bnew: Block)
      requires Ready(bnew) && bnew in delivered
      ensures Linked() && Loose(Abs()) && Prepared(steps, Abs(), parents, qcRef, bnew)
    {
      if Valid() {
        RefDelivered(delivered, bnew);
        RootedPrepared(steps, Abs(), delivered, parents, qcRef, bnew);
      } else {
        UnprunedPrepared(steps, Abs(), parents, qcRef, bnew);
      }
    }

    /** A delivered proposal from another replica. */
    method RunProposal(bnew: Block) returns (breached: bool, vote: bool)
      requires Ready(bnew) && bnew in delivered
      modifies this`hqc, this`hqcCert, this`bLock, this`bExec, this`vheight, this`decision, this`log, pm
      ensures Linked()
      ensures breached <==> Throws(steps, delivered, old(bExec), qcRef, bnew)
      ensures breached ==>
                && !vote && Rescanned(old(Abs()), Abs(), pm.hqcTail)
                && Abs() == Processed(steps, old(Abs()), bnew).(hqcTail := pm.hqcTail)
      ensures !breached ==>
                ReceivesProposal(steps, old(Abs()), bnew, Abs(), vote) && Heard(steps, old(Abs()), bnew, Abs(), vote)
      ensures !breached && Commits(steps, delivered, bnew) && Comparable(Bottom(steps, bnew), old(bExec)) ==>
                Logged(id, Bottom(steps, bnew), log)
      ensures old(Valid()) && !breached ==> Valid()
      ensures old(Unpruned()) ==> Unpruned()
    {
      ghost var st := Abs();
      ReadyPrepared(bnew);
      breached, vote := ProcessProposal(bnew);
      if !breached {
        HeardKeeps(steps, st, bnew, Abs(), vote);
        CommitIsLogged(st, bnew);
      }
    }

    /** A proposal from another replica. */
    method OnReceiveProposal(bnew: Block) returns (outcome: Outcome, vote: bool)
      requires Working() && (bnew in delivered ==> Ready(bnew))
      modifies this`hqc, this`hqcCert, this`bLock, this`bExec, this`vheight, this`decision, this`log, pm
      ensures Linked()
      ensures outcome == NotDelivered <==> bnew !in delivered
      ensures outcome == NotDelivered ==> Abs() == old(Abs()) && !vote
      ensures outcome == SafetyBreached <==> bnew in delivered && Throws(steps, delivered, old(bExec), qcRef, bnew)
      ensures outcome == SafetyBreached ==>
                && !vote && Rescanned(old(Abs()), Abs(), pm.hqcTail)
                && Abs() == Processed(steps, old(Abs()), bnew).(hqcTail := pm.hqcTail)
      ensures outcome !in {NotDelivered, SafetyBreached} ==>
                outcome == Ok && ReceivesProposal(steps, old(Abs()), bnew, Abs(), vote)
      ensures outcome == Ok ==> Heard(steps, old(Abs()), bnew, Abs(), vote)
      ensures outcome == Ok && Commits(steps, delivered, bnew) && Comparable(Bottom(steps, bnew), old(bExec)) ==>
                Logged(id, Bottom(steps, bnew), log)
      ensures outcome == SafetyBreached ==>
                Commits(steps, delivered, bnew) && !Comparable(Bottom(steps, bnew), old(bExec))
      ensures NothingPruned() && bnew in delivered ==>
                (Commits(steps, delivered, bnew) && !Comparable(Bottom(steps, bnew), old(bExec)) ==>
                   outcome == SafetyBreached)
      ensures old(Valid()) && outcome != SafetyBreached ==> Valid()
      ensures old(Unpruned()) ==> Unpruned()
    {
      if bnew !in delivered {
        return NotDelivered, false;
      }
      ThrowsMeans(bnew);
      var breached;
      breached, vote := RunProposal(bnew);
      if breached {
        return SafetyBreached, false;
      }
      outcome := Ok;
    }

    /** The throw is due for conflicting blocks, and it comes unless links were pruned. */
    lemma ThrowsMeans(b: Block)
      requires Linked() && b in delivered
      ensures Throws(steps, delivered, bExec, qcRef, b) ==>
                Commits(steps, delivered, b) && !Comparable(Bottom(steps, b), bExec)
      ensures NothingPruned() && Commits(steps, delivered, b) && !Comparable(Bottom(steps, b), bExec) ==>
                Throws(steps, delivered, bExec, qcRef, b)
    {
      CommitsSeen(steps, delivered, b);
      if Commits(steps, delivered, b) {
        DirectChainDown(steps, delivered, b);
      }
    }

    static lemma HeardKeeps(k: Steps, st: Replica, b: Block, st1: Replica, vote: bool)
      requires Loose(st) && b in st.delivered && ReceivesProposal(k, st, b, st1, vote)
      ensures Heard(k, st, b, st1, vote) && (LocalInv(st) ==> LocalInv(st1))
    {
      ReceiveHeard(k, st, b, st1, vote);
      if LocalInv(st) {
        ReceiveKeeps(k, st, b, st1, vote);
      }
    }

    // ---- own proposals ----

    /** Adds a new block to the storage and delivers it, as `on_propose` begins. */
    method AddOwnBlock(bnew: Block, ps: seq<Block>)
      requires ps == Parents(bnew)
      modifies this`tails, this`storage, this`selfQc, this`delivered, this`parents, this`qcRef
      ensures Abs() == Introduce(old(Abs()), bnew) && storage == old(storage) + {bnew}
      ensures bnew in old(delivered) ==> parents == old(parents) && qcRef == old(qcRef)
      ensures bnew !in old(delivered) ==>
                parents == old(parents)[bnew := Parents(bnew)] && qcRef == old(qcRef)[bnew := Ref(bnew)]
    {
      EraseTails(ps);
      storage := storage + {bnew};
      selfQc := selfQc[bnew := {}];
      if bnew !in delivered {
        Attach(bnew, ps);
      }
    }

    method LinkOwnBlock(bnew: Block, ps: seq<Block>)
      requires Linked() && ps == Parents(bnew) && ParentsDelivered(delivered, bnew)
      modifies this`tails, this`storage, this`selfQc, this`delivered, this`parents, this`qcRef
      ensures Linked() && Abs() == Introduce(old(Abs()), bnew)
      ensures bnew in old(delivered) ==> parents == old(parents) && qcRef == old(qcRef)
      ensures bnew !in old(delivered) ==>
                parents == old(parents)[bnew := Parents(bnew)] && qcRef == old(qcRef)[bnew := Ref(bnew)]
    {
      if bnew !in delivered {
        DeliverLinks(delivered, bExec, Height(bLock), parents, qcRef, bnew);
      }
      AddOwnBlock(bnew, ps);
    }

    /** The new block rests on the tree as it was, wherever its first parent lies. */
    lemma OwnPrepared(st: Replica, qcRef0: map<Block, Block>, bnew: Block)
      requires Linked() && Loose(st) && ParentsDelivered(st.delivered, bnew) && Abs() == Introduce(st, bnew)
      requires bnew.Node? && Ref(bnew) == st.hqc
      requires qcRef == if bnew in st.delivered then qcRef0 else qcRef0[bnew := Ref(bnew)]
      requires Rooted(st) || (qcRef0.Keys == st.delivered && (steps == TwoStep || bExec == Genesis))
      requires Conflicts(steps, delivered, bExec, bnew) ==> IntactAbove(parents, Height(bExec))
      ensures Loose(Abs()) && delivered == st.delivered + {bnew} && Prepared(steps, Abs(), parents, qcRef, bnew)
    {
      IntroduceLoose(st, bnew);
      if Rooted(st) {
        assert Rests(Abs(), st.delivered, qcRef, bnew);
        RootedPrepared(steps, Abs(), st.delivered, parents, qcRef, bnew);
      } else {
        UnprunedPrepared(steps, Abs(), parents, qcRef, bnew);
      }
    }

    /** `bnew` has been made in state `st` and delivered. */
    ghost predicate Made(st: Replica, bnew: Block)
      reads this, pm
    {
      && Loose(st) && ParentsDelivered(st.delivered, bnew) && Abs() == Introduce(st, bnew)
      && bnew.Node? && Ref(bnew) == st.hqc && hqc == st.hqc && vheight == st.vheight
      && Linked() && Loose(Abs()) && delivered == st.delivered + {bnew} && Prepared(steps, Abs(), parents, qcRef, bnew)
    }

    method CreateBlock(cmds: seq<Command>, ps: seq<Block>, extra: seq<Byte>) returns (bnew: Block)
      requires ps != [] && (forall p :: p in ps ==> p in delivered) && Ready(NewBlock(Abs(), ps, cmds, extra))
      modifies this`tails, this`storage, this`selfQc, this`delivered, this`parents, this`qcRef
      ensures bnew == NewBlock(old(Abs()), ps, cmds, extra) && Made(old(Abs()), bnew)
      ensures old(Unpruned()) ==> NothingPruned()
    {
      bnew := Node(ps[0], ps[1..], cmds, hqc, hqcCert, extra);
      assert Parents(bnew) == ps;
      ghost var st, qcRef0 := Abs(), qcRef;
      LinkOwnBlock(bnew, ps);
      ConflictsKept(steps, st.delivered, bExec, bnew);
      OwnPrepared(st, qcRef0, bnew);
    }

    static lemma ConflictsKept(k: Steps, delivered: set<Block>, bExec: Block, b: Block)
      requires Closed(delivered) && ParentsDelivered(delivered, b) && Ref(b) in delivered
      ensures Conflicts(k, delivered + {b}, bExec, b) <==> Conflicts(k, delivered, bExec, b)
    {
      ClosedGrows(delivered, b);
      CommitsSeen(k, delivered, b);
      CommitsSeen(k, delivered + {b}, b);
    }

    /** `update` of a block that carries the replica's own `hqc`, which leaves the cache alone. */
    method UpdateOwn(bnew: Block) returns (breached: bool)
      requires Linked() && Loose(Abs()) && bnew in delivered && Prepared(steps, Abs(), parents, qcRef, bnew)
      requires Processed(steps, Abs(), bnew).hqc == hqc
      modifies this`hqc, this`hqcCert, this`bLock, this`bExec, this`decision, this`log, pm
      ensures Linked() && Loose(Abs()) && IntactAbove(parents, Height(hqc))
      ensures breached <==> Throws(steps, delivered, old(bExec), qcRef, bnew)
      ensures Abs() == Processed(steps, old(Abs()), bnew)
      ensures bnew !in qcRef ==> Height(RefIn(delivered, bnew)) <= Height(bLock)
    {
      breached := Update(bnew);
    }

    static function OwnOutcome(throws: bool, vheight: nat, bnew: Block): Outcome {
      if throws then SafetyBreached else if Height(bnew) <= vheight then NotAboveVheight else Ok
    }

    /** `on_propose` once the block `bnew` is delivered; `update` takes the replica to `st1`. */
    method RunOwnBlock(bnew: Block, ghost st1: Replica) returns (outcome: Outcome, vote: bool)
      requires Linked() && Loose(Abs()) && bnew in delivered && Prepared(steps, Abs(), parents, qcRef, bnew)
      requires st1 == Processed(steps, Abs(), bnew) && st1.hqc == hqc
      modifies this`hqc, this`hqcCert, this`bLock, this`bExec, this`vheight, this`decision, this`log, pm
      ensures Linked() && NothingPruned() == old(NothingPruned())
      ensures outcome == OwnOutcome(Throws(steps, delivered, old(bExec), qcRef, bnew), old(vheight), bnew)
      ensures outcome != Ok ==> !vote && Abs() == st1
      ensures outcome == Ok ==>
                (vote <==> Opinion(st1, bnew) && !voteDisabled) && Abs() == Judge(st1, bnew).(hqcTail := bnew)
    {
      var breached := UpdateOwn(bnew);
      if breached {
        return SafetyBreached, false;
      }
      if Height(bnew) <= vheight {
        return NotAboveVheight, false;
      }
      vote := JudgeProposal(bnew);
      pm.OnProposal(bnew);
      outcome := Ok;
    }

    /** What an own proposal, processed or failed, leaves of the invariants. */
    static lemma OwnInvariants(k: Steps, st: Replica, bnew: Block, st1: Replica, st': Replica, failed: bool, vote: bool)
      requires Loose(st) && ParentsDelivered(st.delivered, bnew) && bnew.Node? && Ref(bnew) == st.hqc
      requires st1 == Processed(k, Introduce(st, bnew), bnew)
      requires st' == if failed then st1 else Judge(st1, bnew).(hqcTail := bnew)
      requires !failed ==> (vote <==> Opinion(st1, bnew) && !st.voteDisabled)
      ensures Learned(k, st.delivered + {bnew}, st, bnew, st')
      ensures !failed ==> Proposes(k, st, bnew, st', vote) && Sent(k, st, bnew, st', vote)
      ensures failed || Extends(bnew.parent, st.hqc) ==> Loose(st')
      ensures LocalInv(st) && Extends(bnew.parent, st.hqc) && (failed ==> Height(bnew) <= st.vheight) ==> LocalInv(st')
    {
      ProcessOwnLoose(k, st, bnew);
      OwnLearns(k, st, bnew, st1);
      assert !failed ==> Proposes(k, st, bnew, st', vote);
      if !failed {
        ProposeSent(k, st, bnew, st', vote);
      }
      if Extends(bnew.parent, st.hqc) {
        if !failed {
          ProposeLoose(k, st, bnew, st', vote);
        }
        if LocalInv(st) && failed && Height(bnew) <= st.vheight {
          IntroduceKeeps(k, st, bnew);
        } else if LocalInv(st) && !failed {
          ProposeKeeps(k, st, bnew, st', vote);
        }
      }
    }

    /** `on_propose` once `bnew`, made in state `st`, is delivered. */
    method RunOwnProposal(bnew: Block, ghost st: Replica) returns (outcome: Outcome, vote: bool)
      requires Made(st, bnew)
      modifies this`hqc, this`hqcCert, this`bLock, this`bExec, this`vheight, this`decision, this`log, pm
      ensures Linked()
      ensures outcome == OwnOutcome(Throws(steps, delivered, old(bExec), qcRef, bnew), old(vheight), bnew)
      ensures bnew in delivered && Learned(steps, delivered, st, bnew, Abs())
      ensures outcome != Ok ==> !vote && Abs() == Processed(steps, Introduce(st, bnew), bnew)
      ensures outcome == Ok ==> Proposes(steps, st, bnew, Abs(), vote) && Sent(steps, st, bnew, Abs(), vote)
      ensures LocalInv(st) && outcome != SafetyBreached && Extends(bnew.parent, st.hqc) ==> Valid()
      ensures old(NothingPruned()) && (outcome == Ok ==> Extends(bnew.parent, st.hqc)) ==> Unpruned()
    {
      OwnKeepsHqc(steps, st, bnew);
      ghost var st1 := Processed(steps, Abs(), bnew);
      outcome, vote := RunOwnBlock(bnew, st1);
      OwnInvariants(steps, st, bnew, st1, Abs(), outcome != Ok, vote);
    }

    /** `on_propose` on at least one parent. */
    method ProposeOn(cmds: seq<Command>, ps: seq<Block>, extra: seq<Byte>)
      returns (outcome: Outcome, bnew: Block, vote: bool)
      requires ps != [] && (forall p :: p in ps ==> p in delivered) && Ready(NewBlock(Abs(), ps, cmds, extra))
      modifies this, pm
      ensures Linked()
      ensures bnew == NewBlock(old(Abs()), ps, cmds, extra) && bnew in delivered
      ensures Learned(steps, delivered, old(Abs()), bnew, Abs())
      ensures Commits(steps, delivered, bnew) && Comparable(Bottom(steps, bnew), old(bExec)) ==>
                Logged(id, Bottom(steps, bnew), log)
      ensures outcome == OwnOutcome(Throws(steps, delivered, old(bExec), qcRef, bnew), old(vheight), bnew)
      ensures outcome != Ok ==> !vote && Abs() == Processed(steps, Introduce(old(Abs()), bnew), bnew)
      ensures outcome == Ok ==> Proposes(steps, old(Abs()), bnew, Abs(), vote) && Sent(steps, old(Abs()), bnew, Abs(), vote)
      ensures old(Valid()) && outcome != SafetyBreached && Extends(ps[0], old(hqc)) ==> Valid()
      ensures old(Unpruned()) && (outcome == Ok ==> Extends(ps[0], old(hqc))) ==> Unpruned()
    {
      ghost var st := Abs();
      bnew := CreateBlock(cmds, ps, extra);
      outcome, vote := RunOwnProposal(bnew, st);
      CommitIsLogged(st, bnew);
    }

    /** `ps` is the parent list the pacemaker chose.  The invariants need its first block to follow
        `hqc`, which is what the pacemaker gives. */
    method OnPropose(cmds: seq<Command>, ps: seq<Block>, extra: seq<Byte>)
      returns (outcome: Outcome, bnew: Block, vote: bool)
      requires Working()
      requires ps != [] ==> (forall p :: p in ps ==> p in delivered) && Ready(NewBlock(Abs(), ps, cmds, extra))
      modifies this, pm
      ensures Linked()
      ensures outcome == EmptyParents <==> ps == []
      ensures outcome == EmptyParents ==> !vote && Abs() == old(Abs())
      ensures ps != [] ==> bnew == NewBlock(old(Abs()), ps, cmds, extra) && bnew in delivered
      ensures ps != [] ==>
                && Parents(bnew) == ps && bnew.cmds == cmds && bnew.extra == extra && Height(bnew) == Height(ps[0]) + 1
                && Ref(bnew) == old(hqc) && Cert(bnew) == old(hqcCert)
      ensures ps != [] ==> Learned(steps, delivered, old(Abs()), bnew, Abs())
      ensures ps != [] && Commits(steps, delivered, bnew) && Comparable(Bottom(steps, bnew), old(bExec)) ==>
                Logged(id, Bottom(steps, bnew), log)
      ensures ps != [] ==> outcome == OwnOutcome(Throws(steps, delivered, old(bExec), qcRef, bnew), old(vheight), bnew)
      ensures outcome in {SafetyBreached, NotAboveVheight} ==>
                !vote && Abs() == Processed(steps, Introduce(old(Abs()), bnew), bnew)
      ensures outcome == Ok ==> Proposes(steps, old(Abs()), bnew, Abs(), vote) && Sent(steps, old(Abs()), bnew, Abs(), vote)
      ensures old(Valid()) && outcome != SafetyBreached && (ps != [] ==> Extends(ps[0], old(hqc))) ==> Valid()
      ensures old(Unpruned()) && (outcome == Ok ==> Extends(ps[0], old(hqc))) ==> Unpruned()
    {
      if ps == [] {
        return EmptyParents, Genesis, false;
      }
      NewBlockHolds(Abs(), ps, cmds, extra);
      outcome, bnew, vote := ProposeOn(cmds, ps, extra);
    }

    /** A beat of the pacemaker: propose on the parents it selects.  `extra` is empty but for the bytes
        of the signatures that `hqcCert` does not record. */
    method Beat(cmds: seq<Command>, extra: seq<Byte>) returns (outcome: Outcome, bnew: Block, vote: bool)
      requires Working() && Ready(NewBlock(Abs(), [pm.hqcTail], cmds, extra))
      modifies this, pm
      ensures Linked()
      ensures bnew == NewBlock(old(Abs()), [old(pm.hqcTail)], cmds, extra) && bnew in delivered
      ensures && Parents(bnew) == [old(pm.hqcTail)] && bnew.cmds == cmds && bnew.extra == extra
              && Height(bnew) == Height(old(pm.hqcTail)) + 1 && Ref(bnew) == old(hqc) && Cert(bnew) == old(hqcCert)
      ensures Learned(steps, delivered, old(Abs()), bnew, Abs())
      ensures Commits(steps, delivered, bnew) && Comparable(Bottom(steps, bnew), old(bExec)) ==>
                Logged(id, Bottom(steps, bnew), log)
      ensures outcome == OwnOutcome(Throws(steps, delivered, old(bExec), qcRef, bnew), old(vheight), bnew)
      ensures outcome != Ok ==> !vote && Abs() == Processed(steps, Introduce(old(Abs()), bnew), bnew)
      ensures outcome == Ok ==> Proposes(steps, old(Abs()), bnew, Abs(), vote) && Sent(steps, old(Abs()), bnew, Abs(), vote)
      ensures old(Valid()) && outcome != SafetyBreached ==> Valid()
      ensures old(Unpruned()) ==> Unpruned()
    {
      var ps := pm.GetParents();
      outcome, bnew, vote := OnPropose(cmds, ps, extra);
    }

    // ---- votes ----

    /** Records a new vote in `voted` and `self_qc`. */
    method AddVote(voter: ReplicaID, blk: Block) returns (qsize: nat, isNew: bool)
      requires nmajority == Majority(nreplicas)
      modifies this`voted, this`selfQc
      ensures qsize == |VotedFor(old(Abs()), blk)|
      ensures isNew <==> Counts(nreplicas, old(Abs()), voter, blk)
      ensures voted == if isNew then old(voted)[blk := VotedFor(old(Abs()), blk) + {voter}] else old(voted)
      ensures selfQc == if isNew then old(selfQc)[blk := SelfQc(old(Abs()), blk) + {voter}] else old(selfQc)
    {
      var voters := if blk in voted then voted[blk] else {};
      qsize := |voters|;
      if qsize >= nmajority {
        return qsize, false;
      }
      if voter in voters {
        return qsize, false;
      }
      voted := voted[blk := voters + {voter}];
      if blk !in selfQc {
        selfQc := selfQc[blk := {}];
      }
      selfQc := selfQc[blk := selfQc[blk] + {voter}];
      isNew := true;
    }

    /** Counts a vote and, if it completes the certificate, calls `update_hqc`. */
    method RecordVote(voter: ReplicaID, blk: Block) returns (formed: bool)
      requires nmajority == Majority(nreplicas)
      requires blk in delivered
      requires LinksOk(parents) && IntactAbove(parents, Height(hqc)) && tails <= parents.Keys
      modifies this`voted, this`selfQc, this`hqc, this`hqcCert, pm
      ensures var st1 := CountVote(nreplicas, old(Abs()), voter, blk);
              voted == st1.voted && selfQc == st1.selfQc && hqc == st1.hqc && hqcCert == st1.hqcCert
      ensures TailFollows(tails, old(hqc), hqc, old(pm.hqcTail), pm.hqcTail)
      ensures formed <==> Completes(nreplicas, old(Abs()), voter, blk)
    {
      var qsize, counted := AddVote(voter, blk);
      formed := counted && qsize + 1 == nmajority;
      if formed {
        UpdateHqc(blk, selfQc[blk]);
      }
    }

    method RecordVoteState(voter: ReplicaID, blk: Block) returns (formed: bool)
      requires nmajority == Majority(nreplicas)
      requires blk in delivered
      requires LinksOk(parents) && IntactAbove(parents, Height(hqc)) && tails <= parents.Keys
      modifies this`voted, this`selfQc, this`hqc, this`hqcCert, pm
      ensures Abs() == CountVote(nreplicas, old(Abs()), voter, blk).(hqcTail := pm.hqcTail)
      ensures Rescanned(old(Abs()), CountVote(nreplicas, old(Abs()), voter, blk), pm.hqcTail)
      ensures formed <==> Completes(nreplicas, old(Abs()), voter, blk)
    {
      formed := RecordVote(voter, blk);
    }

    static lemma VoteInvariants(n: nat, st: Replica, voter: ReplicaID, b: Block, st': Replica)
      requires Loose(st) && b in st.delivered && Rescanned(st, CountVote(n, st, voter, b), st'.hqcTail)
      requires st' == CountVote(n, st, voter, b).(hqcTail := st'.hqcTail)
      ensures ReceivesVote(n, st, voter, b, st') && Loose(st') && Counted(n, st, voter, b, st')
      ensures LocalInv(st) ==> LocalInv(st')
    {
      VoteCounted(n, st, voter, b, st');
      VoteLoose(n, st, voter, b, st');
      if LocalInv(st) {
        VoteKeeps(n, st, voter, b, st');
      }
    }

    method CountVoteFor(voter: ReplicaID, blk: Block) returns (formed: bool)
      requires Linked() && Loose(Abs()) && blk in delivered
      requires LinksOk(parents) && IntactAbove(parents, Height(hqc)) && tails <= parents.Keys
      modifies this`voted, this`selfQc, this`hqc, this`hqcCert, pm
      ensures Linked() && Loose(Abs()) && ReceivesVote(nreplicas, old(Abs()), voter, blk, Abs())
      ensures Counted(nreplicas, old(Abs()), voter, blk, Abs())
      ensures LocalInv(old(Abs())) ==> LocalInv(Abs())
      ensures formed <==> Completes(nreplicas, old(Abs()), voter, blk)
    {
      ghost var st := Abs();
      formed := RecordVoteState(voter, blk);
      VoteInvariants(nreplicas, st, voter, blk, Abs());
    }

    /** A verified vote.  `formed` says whether it completed a quorum certificate. */
    method OnReceiveVote(voter: ReplicaID, blk: Block) returns (outcome: Outcome, formed: bool)
      requires Valid() || Unpruned()
      modifies this`voted, this`selfQc, this`hqc, this`hqcCert, pm
      ensures Linked()
      ensures outcome == if blk in delivered then Ok else NotDelivered
      ensures outcome == NotDelivered ==> Abs() == old(Abs()) && !formed
      ensures outcome == Ok ==>
                && ReceivesVote(nreplicas, old(Abs()), voter, blk, Abs())
                && Counted(nreplicas, old(Abs()), voter, blk, Abs())
                && (formed <==> Completes(nreplicas, old(Abs()), voter, blk))
      ensures old(Valid()) ==> Valid()
      ensures old(Unpruned()) ==> Unpruned()
    {
      if blk !in delivered {
        return NotDelivered, false;
      }
      ScanIsSafe();
      formed := CountVoteFor(voter, blk);
      outcome := Ok;
    }

    /** What scanning the tails after a vote relies on. */
    lemma ScanIsSafe()
      requires Valid() || Unpruned()
      ensures LinksOk(parents) && IntactAbove(parents, Height(hqc)) && tails <= parents.Keys && Loose(Abs())
    {
      TailsDelivered(Abs());
      if Valid() {
        AboveLockIntact(delivered, bExec, Height(bLock), parents, qcRef);
      } else {
        forall b | b in parents ensures parents[b] == Parents(b) {
          assert Kept(delivered, bExec, Height(bLock), parents, qcRef, b);
        }
      }
    }

    // ---- pruning ----

    /** The ancestor of `b_exec` at depth `staleness`, if it is still linked. */
    method FindPruneStart(staleness: nat) returns (start: Option<Block>)
      requires LinksOk(parents) && bExec in parents
      ensures start == Descend(parents, bExec, staleness)
      ensures start.Some? ==>
                start.value in parents && Extends(bExec, start.value) && Height(start.value) + staleness == Height(bExec)
      ensures start.None? ==>
                exists b :: b in parents && parents[b] == [] && Extends(bExec, b) && Height(b) + staleness > Height(bExec)
    {
      var b, k := bExec, staleness;
      while k > 0
        invariant b in parents && Extends(bExec, b) && Height(b) + staleness == Height(bExec) + k
        invariant Descend(parents, b, k) == Descend(parents, bExec, staleness)
      {
        if parents[b] == [] {
          return None;
        }
        assert LinkOk(parents, b) && parents[b][0] in parents[b];
        ExtendsTransitive(bExec, b, b.parent);
        b, k := parents[b][0], k - 1;
      }
      start := Some(b);
    }

    /** `prune` clears exactly the links of the blocks it can reach and leaves the protocol state
        alone.  Every walk of a handler stays on intact links exactly if no block above `b_lock` is
        reached, which is so for single-parent blocks. */
    method Prune(staleness: nat)
      requires Linked() && Loose(Abs())
      modifies this`parents, this`qcRef
      ensures Abs() == old(Abs())
      ensures var start := Descend(old(parents), bExec, staleness);
              if start.None? then Linked() && parents == old(parents) && qcRef == old(qcRef)
              else && ClearedFrom(old(parents), old(qcRef), start.value, parents, qcRef)
                   && (Linked() <==> PrunesNothingAbove(old(parents), start.value, Height(bLock)))
                   && (IntactAbove(parents, Height(bLock)) <==>
                         PrunesNothingAbove(old(parents), start.value, Height(bLock)))
      ensures forall d :: d in delivered && d != bExec && Extends(d, bExec) ==> parents[d] == Parents(d)
      ensures SingleParent(bExec) ==> Linked()
    {
      var start := FindPruneStart(staleness);
      forall d | d in delivered && d != bExec && Extends(d, bExec) ensures parents[d] == Parents(d) {
        assert Kept(delivered, bExec, Height(bLock), parents, qcRef, d);
      }
      if start.None? {
        return;
      }
      DescendExtends(parents, bExec, staleness);
      ExtendsHeight(bExec, start.value);
      if SingleParent(bExec) {
        SingleParentPrunesBelow(parents, start.value, Height(bLock));
      }
      parents, qcRef := ClearLinks(parents, qcRef, start.value);
      PruneKeepsLinked(delivered, bExec, Height(bLock), start.value, old(parents), old(qcRef), parents, qcRef);
    }
  }
}
