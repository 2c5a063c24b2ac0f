/** The walk of `HotStuffCore::prune` that clears links. */
module Pruning {
  import opened Blocks
  import opened Links

  /** The links still in place. */
  ghost function LinkSet(links: LinkMap): set<(Block, int)> {
    set b, i | b in links && 0 <= i < |links[b]| :: (b, i)
  }

  lemma LinkSetShrinks(links: LinkMap, b: Block)
    requires b in links && links[b] != []
    ensures LinkSet(links[b := links[b][..|links[b]| - 1]]) < LinkSet(links)
  {
    var links' := links[b := links[b][..|links[b]| - 1]];
    assert (b, |links[b]| - 1) in LinkSet(links) && (b, |links[b]| - 1) !in LinkSet(links');
  }

  /** Every link removed so far leads to a block on the stack or to one without links. */
  predicate Followed(links: LinkMap, rest: LinkMap, stack: seq<Block>, b: Block) {
    b in links && b in rest ==>
      forall i :: |rest[b]| <= i < |links[b]| ==>
        links[b][i] in stack || (links[b][i] in rest && rest[links[b][i]] == [])
  }

  predicate AllFollowed(links: LinkMap, rest: LinkMap, stack: seq<Block>) {
    forall b {:trigger Followed(links, rest, stack, b)} :: b in links ==> Followed(links, rest, stack, b)
  }

  /** Once the stack is empty, whatever can be reached from a cleared block is cleared. */
  lemma {:induction false} ClearedBelow(links: LinkMap, rest: LinkMap, x: Block, y: Block)
    requires LinksOk(links) && rest.Keys == links.Keys && AllFollowed(links, rest, [])
    requires x in links && rest[x] == [] && Reaches(links, x, y)
    ensures y in links && rest[y] == []
    decreases x
  {
    if x != y {
      var p :| p in links[x] && p in Parents(x) && Reaches(links, p, y);
      assert Followed(links, rest, [], x);
      ClearedBelow(links, rest, p, y);
    }
  }

  /** Exactly the blocks reachable from `start` have lost their links; these blocks, if they had
      any, and `start` have lost `qc_ref`. */
  ghost predicate ClearedFrom(links: LinkMap, refs: map<Block, Block>, start: Block,
                              links': LinkMap, refs': map<Block, Block>) {
    && LinksOk(links) && links'.Keys == links.Keys
    && (forall b :: b in links ==> links'[b] == if Reaches(links, start, b) then [] else links[b])
    && (forall b :: b in refs' <==>
          b in refs && b != start && !(b in links && links[b] != [] && Reaches(links, start, b)))
    && (forall b :: b in refs' ==> refs'[b] == refs[b])
  }

  /** What holds while the stack is worked off. */
  ghost predicate Clearing(links: LinkMap, refs: map<Block, Block>, start: Block,
                           rest: LinkMap, refs': map<Block, Block>, stack: seq<Block>) {
    && LinksOk(links) && rest.Keys == links.Keys && start in links
    && (forall b :: b in links ==> rest[b] <= links[b] && (rest[b] != links[b] ==> Reaches(links, start, b)))
    && (forall b :: b in stack ==> b in links && Reaches(links, start, b))
    && (start in stack || rest[start] == [])
    && AllFollowed(links, rest, stack)
    && (forall b :: b in refs' <==> b in refs && b != start && !(b in links && rest[b] != links[b]))
    && (forall b :: b in refs' ==> refs'[b] == refs[b])
  }

  lemma PushKeepsFollowed(links: LinkMap, rest: LinkMap, stack: seq<Block>, b: Block)
    requires rest.Keys == links.Keys && b in links && AllFollowed(links, rest, stack)
    requires rest[b] <= links[b] && rest[b] != []
    ensures var k := |rest[b]| - 1;
            AllFollowed(links, rest[b := rest[b][..k]], stack + [rest[b][k]])
  {
    var k := |rest[b]| - 1;
    var rest', stack' := rest[b := rest[b][..k]], stack + [rest[b][k]];
    forall x | x in links ensures Followed(links, rest', stack', x) {
      assert Followed(links, rest, stack, x);
      assert links[b][k] == rest[b][k];
    }
  }

  lemma PopKeepsFollowed(links: LinkMap, rest: LinkMap, stack: seq<Block>)
    requires rest.Keys == links.Keys && AllFollowed(links, rest, stack)
    requires stack != [] && stack[|stack| - 1] in rest && rest[stack[|stack| - 1]] == []
    ensures AllFollowed(links, rest, stack[..|stack| - 1])
  {
    var stack' := stack[..|stack| - 1];
    assert stack == stack' + [stack[|stack| - 1]];
    forall x | x in links ensures Followed(links, rest, stack', x) {
      assert Followed(links, rest, stack, x);
    }
  }

  lemma ClearingStep(links: LinkMap, refs: map<Block, Block>, start: Block,
                     rest: LinkMap, refs': map<Block, Block>, stack: seq<Block>)
    requires Clearing(links, refs, start, rest, refs', stack) && stack != []
    requires rest[stack[|stack| - 1]] != []
    ensures var b := stack[|stack| - 1];
            var k := |rest[b]| - 1;
            Clearing(links, refs, start, rest[b := rest[b][..k]], refs' - {b}, stack + [rest[b][k]])
  {
    var b := stack[|stack| - 1];
    var k := |rest[b]| - 1;
    assert LinkOk(links, b) && rest[b][k] == links[b][k];
    ReachesStep(links, start, b, rest[b][k]);
    PushKeepsFollowed(links, rest, stack, b);
  }

  lemma ClearingPop(links: LinkMap, refs: map<Block, Block>, start: Block,
                    rest: LinkMap, refs': map<Block, Block>, stack: seq<Block>)
    requires Clearing(links, refs, start, rest, refs', stack) && stack != []
    requires rest[stack[|stack| - 1]] == []
    ensures Clearing(links, refs, start, rest, refs', stack[..|stack| - 1])
  {
    PopKeepsFollowed(links, rest, stack);
    assert stack == stack[..|stack| - 1] + [stack[|stack| - 1]];
  }

  lemma ClearingDone(links: LinkMap, refs: map<Block, Block>, start: Block,
                     rest: LinkMap, refs': map<Block, Block>)
    requires Clearing(links, refs, start, rest, refs', [])
    ensures ClearedFrom(links, refs, start, rest, refs')
  {
    forall b | b in links && Reaches(links, start, b) ensures rest[b] == [] {
      ClearedBelow(links, rest, start, b);
    }
  }

  /** The depth-first walk with its explicit stack. */
  method ClearLinks(links: LinkMap, refs: map<Block, Block>, start: Block)
    returns (links': LinkMap, refs': map<Block, Block>)
    requires LinksOk(links) && start in links
    ensures ClearedFrom(links, refs, start, links', refs')
  {
    links', refs' := links, refs - {start};
    var stack := [start];
    while stack != []
      invariant Clearing(links, refs, start, links', refs', stack)
      decreases LinkSet(links'), |stack|
    {
      var blk := stack[|stack| - 1];
      if links'[blk] == [] {
        ClearingPop(links, refs, start, links', refs', stack);
        stack := stack[..|stack| - 1];
      } else {
        ClearingStep(links, refs, start, links', refs', stack);
        LinkSetShrinks(links', blk);
        var k := |links'[blk]| - 1;
        refs' := refs' - {blk};
        stack := stack + [links'[blk][k]];
        links' := links'[blk := links'[blk][..k]];
      }
    }
    ClearingDone(links, refs, start, links', refs');
  }

  /** What remains is still a link structure. */
  lemma ClearedLinksOk(links: LinkMap, refs: map<Block, Block>, start: Block,
                       links': LinkMap, refs': map<Block, Block>)
    requires ClearedFrom(links, refs, start, links', refs')
    ensures LinksOk(links')
  {
    forall b | b in links' ensures LinkOk(links', b) {
      assert LinkOk(links, b);
    }
  }
}
