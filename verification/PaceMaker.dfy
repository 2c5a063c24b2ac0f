/** Parent selection: `PMHighTail` of `include/hotstuff/liveness.h`. */
module PaceMaker {
  import opened Blocks
  import opened Links
  import opened Replicas

  class PMHighTail {
    var hqcTail: Block

    constructor ()
      ensures hqcTail == Genesis
    {
      hqcTail := Genesis;
    }

    /** Is `b` the block `a` or a descendant of it? */
    static method CheckAncestry(a: Block, b: Block, links: LinkMap) returns (r: bool)
      requires LinksOk(links) && IntactAbove(links, Height(a)) && b in links
      ensures r <==> Extends(b, a)
    {
      var x := b;
      while Height(x) > Height(a)
        invariant x in links && WalkDown(x, Height(a)) == WalkDown(b, Height(a))
        decreases Height(x)
      {
        assert LinkOk(links, x) && links[x][0] in links[x];
        x := links[x][0];
      }
      WalkDecidesExtends(b, a);
      r := x == a;
    }

    /** The callback of `async_hqc_update`; the tails are visited in an unknown order. */
    method OnHqcUpdate(hqc: Block, tails: set<Block>, links: LinkMap)
      requires LinksOk(links) && IntactAbove(links, Height(hqc)) && tails <= links.Keys
      modifies this
      ensures HighTail(tails, hqc, hqcTail)
    {
      hqcTail := hqc;
      var rest := tails;
      while rest != {}
        invariant rest <= tails
        invariant HighTail(tails - rest, hqc, hqcTail)
      {
        var tail :| tail in rest;
        var follows := CheckAncestry(hqc, tail, links);
        if follows && Height(tail) > Height(hqcTail) {
          hqcTail := tail;
        }
        rest := rest - {tail};
      }
      assert tails - rest == tails;
    }

    /** The callback of `async_wait_proposal`. */
    method OnProposal(blk: Block)
      modifies this
      ensures hqcTail == blk
    {
      hqcTail := blk;
    }

    /** The callback of `async_wait_receive_proposal`. */
    method OnReceiveProposal(hqc: Block, blk: Block, links: LinkMap)
      requires LinksOk(links) && IntactAbove(links, Height(hqc)) && blk in links
      modifies this
      ensures hqcTail == if Extends(blk, hqc) && Height(blk) > Height(old(hqcTail)) then blk else old(hqcTail)
    {
      var follows := CheckAncestry(hqc, blk, links);
      if follows && Height(blk) > Height(hqcTail) {
        hqcTail := blk;
      }
    }

    method GetParents() returns (parents: seq<Block>)
      ensures parents == [hqcTail]
    {
      parents := [hqcTail];
    }
  }
}
