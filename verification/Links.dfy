/** The `parents` vectors of the delivered blocks, which `prune` empties. */
module Links {
  import opened Blocks
  import opened Options

  type LinkMap = map<Block, seq<Block>>

  predicate LinkOk(links: LinkMap, b: Block) {
    b in links ==> links[b] <= Parents(b) && forall p :: p in links[b] ==> p in links
  }

  /** Links are what is left of the parent lists. */
  predicate LinksOk(links: LinkMap) {
    forall b {:trigger LinkOk(links, b)} :: b in links ==> LinkOk(links, b)
  }

  /** No link above height `h` has been cleared. */
  predicate IntactAbove(links: LinkMap, h: nat) {
    forall b :: b in links && Height(b) > h ==> links[b] == Parents(b)
  }

  /** `x` can be reached from `b` along the links. */
  ghost predicate Reaches(links: LinkMap, b: Block, x: Block)
    requires LinksOk(links)
    decreases b
  {
    x == b || (b in links && exists p :: p in links[b] && p in Parents(b) && Reaches(links, p, x))
  }

  lemma {:induction false} ReachesStep(links: LinkMap, b: Block, x: Block, p: Block)
    requires LinksOk(links) && Reaches(links, b, x) && x in links && p in links[x]
    ensures Reaches(links, b, p)
    decreases b
  {
    if x == b {
      assert LinkOk(links, b);
      assert p in Parents(b) && Reaches(links, p, p);
    } else {
      var q :| q in links[b] && q in Parents(b) && Reaches(links, q, x);
      ReachesStep(links, q, x, p);
    }
  }

  // ---- what is reached is smaller ----

  function Size(b: Block): nat
    decreases b
  {
    if b.Genesis? then 1 else 1 + Size(b.parent) + SizeAll(b.uncles)
  }

  function SizeAll(bs: seq<Block>): nat
    decreases bs
  {
    if bs == [] then 0 else Size(bs[0]) + SizeAll(bs[1..])
  }

  lemma {:induction false} MemberSize(bs: seq<Block>, p: Block)
    requires p in bs
    ensures Size(p) <= SizeAll(bs)
  {
    if p != bs[0] {
      MemberSize(bs[1..], p);
    }
  }

  lemma {:induction false} ReachesSmaller(links: LinkMap, b: Block, x: Block)
    requires LinksOk(links) && Reaches(links, b, x)
    ensures x == b || Size(x) < Size(b)
    decreases b
  {
    if x != b {
      var p :| p in links[b] && p in Parents(b) && Reaches(links, p, x);
      ReachesSmaller(links, p, x);
      if p != b.parent {
        MemberSize(b.uncles, p);
      }
    }
  }

  lemma {:induction false} ExtendsLarger(x: Block, b: Block)
    requires Extends(x, b)
    ensures Size(b) <= Size(x)
  {
    if x != b {
      ExtendsLarger(x.parent, b);
    }
  }

  /** No walk along links leads to a proper descendant. */
  lemma NoDescendantReached(links: LinkMap, start: Block, b: Block, d: Block)
    requires LinksOk(links) && Reaches(links, start, d)
    requires Extends(b, start) && Extends(d, b)
    ensures d == b
  {
    ExtendsTransitive(d, b, start);
    ReachesSmaller(links, start, d);
    ExtendsLarger(d, start);
    ExtendsHeight(b, start);
    ExtendsHeight(d, b);
  }

  lemma {:induction false} ReachesIsExtends(links: LinkMap, b: Block, x: Block)
    requires LinksOk(links) && Reaches(links, b, x) && SingleParent(b)
    ensures Extends(b, x)
    decreases b
  {
    if x != b {
      var p :| p in links[b] && p in Parents(b) && Reaches(links, p, x);
      ReachesIsExtends(links, p, x);
    }
  }

  /** The ancestor at depth `k`, if the links go that far. */
  function Descend(links: LinkMap, b: Block, k: nat): Option<Block>
    requires LinksOk(links) && b in links
    decreases k
  {
    if k == 0 then Some(b)
    else if links[b] == [] then None
    else assert LinkOk(links, b) && links[b][0] in links[b]; Descend(links, links[b][0], k - 1)
  }

  lemma {:induction false} DescendExtends(links: LinkMap, b: Block, k: nat)
    requires LinksOk(links) && b in links && Descend(links, b, k).Some?
    ensures Descend(links, b, k).value in links && Extends(b, Descend(links, b, k).value)
    ensures Height(Descend(links, b, k).value) + k == Height(b)
    ensures SingleParent(b) ==> SingleParent(Descend(links, b, k).value)
    decreases k
  {
    if k > 0 {
      assert LinkOk(links, b);
      assert links[b][0] == Parents(b)[0] == b.parent;
      DescendExtends(links, links[b][0], k - 1);
    }
  }
}
