/** Which prunings stop a replica from voting: exactly those that reach a block above its lock. */
module BlockedWalks {
  import opened Blocks
  import opened Replicas
  import opened Protocol
  import opened Links
  import opened Pruning
  import opened Liveness
  import opened Core

  /** The walk from `b` down to height `h` comes to a block without parents. */
  predicate Blocked(links: LinkMap, h: nat, b: Block) {
    exists y :: y in links && links[y] == [] && Height(y) > h && Extends(b, y)
  }

  /** A proposal that can be delivered on what `st` has, is new enough to be voted for, does not
      outweigh the lock by its certificate, and whose vote walk is blocked. */
  ghost predicate BlockedProposal(c: Config, signed: set<Ballot>, st: Replica, links: LinkMap, b: Block) {
    && Height(b) > st.vheight && Height(Ref(b)) <= Height(st.bLock)
    && Blocked(links, Height(st.bLock), b)
    && exists x :: x in st.delivered && DeliverableFrom(c, signed, b, x)
  }

  lemma {:induction false} PlainTower(c: Config, signed: set<Ballot>, x: Block, count: nat)
    ensures var b := Tower(x, Genesis, [], {}, count);
            && DeliverableFrom(c, signed, b, x) && Extends(b, x) && Height(b) == Height(x) + count
  {
    if count > 0 {
      PlainTower(c, signed, x, count - 1);
      ExtendsGenesis(Tower(x, Genesis, [], {}, count - 1));
    }
  }

  lemma ReachedBlocks(c: Config, signed: set<Ballot>, st: Replica, links: LinkMap, x: Block) returns (b: Block)
    requires x in st.delivered && x in links && links[x] == [] && Height(x) > Height(st.bLock)
    ensures BlockedProposal(c, signed, st, links, b)
  {
    b := Tower(x, Genesis, [], {}, st.vheight + 1);
    PlainTower(c, signed, x, st.vheight + 1);
  }

  /** Pruning leaves some deliverable proposal with a blocked vote walk if and only if it reaches a
      block above the lock. */
  lemma VoteWalkBlockedIff(c: Config, signed: set<Ballot>, st: Replica, start: Block,
                           parents: LinkMap, qcRef: map<Block, Block>, parents': LinkMap, qcRef': map<Block, Block>)
    requires BlocksLinked(st.delivered, st.bExec, Height(st.bLock), parents, qcRef)
    requires ClearedFrom(parents, qcRef, start, parents', qcRef')
    ensures (exists b :: BlockedProposal(c, signed, st, parents', b))
       <==> !PrunesNothingAbove(parents, start, Height(st.bLock))
  {
    if !PrunesNothingAbove(parents, start, Height(st.bLock)) {
      var x :| x in parents && Reaches(parents, start, x) && Height(x) > Height(st.bLock);
      var b := ReachedBlocks(c, signed, st, parents', x);
    }
    forall b | BlockedProposal(c, signed, st, parents', b)
      ensures !PrunesNothingAbove(parents, start, Height(st.bLock))
    {
      var y :| y in parents' && parents'[y] == [] && Height(y) > Height(st.bLock) && Extends(b, y);
      assert Kept(st.delivered, st.bExec, Height(st.bLock), parents, qcRef, y);
    }
  }
}
