/** The block tree.

    The repository identifies a block by a 256-bit hash of its content: parent
    hashes, commands, certificate and extra bytes (`src/entity.cpp`).  A hash is
    taken to identify one block, so a block is modelled by its whole content, and
    equality of blocks stands for equality of hashes.  The derived fields that
    never change once a block is delivered (`parents`, `qc_ref`, `height`) are
    functions of that content; the fields that do change belong to a replica. */
module Blocks {

  type ReplicaID = nat
  type Command = nat
  newtype Byte = x: int | 0 <= x < 256

  /** `Node(parent, uncles, ..)` has the parent list `[parent] + uncles`; `qcRef` is the
      block its certificate names and `cert` the replicas whose signatures it carries.  `extra`
      stands for the extra bytes together with the bytes of those signatures, so that blocks
      whose signatures differ are different blocks; no proof looks at it. */
  datatype Block =
    | Genesis
    | Node(parent: Block, uncles: seq<Block>, cmds: seq<Command>,
           qcRef: Block, cert: set<ReplicaID>, extra: seq<Byte>)

  function Parents(b: Block): seq<Block> {
    if b.Genesis? then [] else [b.parent] + b.uncles
  }

  /** The genesis block refers to itself. */
  function Ref(b: Block): Block {
    if b.Genesis? then Genesis else b.qcRef
  }

  function Cert(b: Block): set<ReplicaID> {
    if b.Genesis? then {} else b.cert
  }

  function Height(b: Block): nat {
    if b.Genesis? then 0 else Height(b.parent) + 1
  }

  /** `b` is `a` or a descendant of `a` along first parents. */
  predicate Extends(b: Block, a: Block) {
    b == a || (b.Node? && Extends(b.parent, a))
  }

  predicate Comparable(a: Block, b: Block) {
    Extends(a, b) || Extends(b, a)
  }

  /** Where the loop `for (b = from; b->height > h; b = b->parents[0])` stops. */
  function WalkDown(from: Block, h: nat): Block {
    if Height(from) <= h then from else WalkDown(from.parent, h)
  }

  /** The set of first-parent ancestors of `b`, with `b` itself. */
  function Chain(b: Block): set<Block> {
    if b.Genesis? then {Genesis} else Chain(b.parent) + {b}
  }

  /** The block referred to by the certificate is a proper ancestor. */
  predicate QcOnBranch(b: Block) {
    b.Node? ==> Extends(b.parent, b.qcRef)
  }

  /** A block with one parent, all of whose ancestors have one parent. */
  predicate SingleParent(b: Block) {
    b.Node? ==> b.uncles == [] && SingleParent(b.parent)
  }

  // ---- facts about branches ----

  lemma {:induction false} ExtendsHeight(b: Block, a: Block)
    requires Extends(b, a)
    ensures Height(a) <= Height(b)
    ensures Height(a) == Height(b) ==> a == b
  {
    if b != a {
      ExtendsHeight(b.parent, a);
    }
  }

  lemma {:induction false} ExtendsTransitive(c: Block, b: Block, a: Block)
    requires Extends(c, b) && Extends(b, a)
    ensures Extends(c, a)
  {
    if c != b {
      ExtendsTransitive(c.parent, b, a);
    }
  }

  lemma {:induction false} ExtendsGenesis(b: Block)
    ensures Extends(b, Genesis)
  {
    if b.Node? {
      ExtendsGenesis(b.parent);
    }
  }

  /** Two ancestors of one block lie on one branch. */
  lemma {:induction false} AncestorsComparable(c: Block, a: Block, b: Block)
    requires Extends(c, a) && Extends(c, b)
    ensures Height(a) <= Height(b) ==> Extends(b, a)
    ensures Comparable(a, b)
  {
    if c == a {
      if Height(a) <= Height(b) {
        ExtendsHeight(a, b);
      }
    } else if c != b {
      AncestorsComparable(c.parent, a, b);
    }
  }

  /** The height-bounded walk of the code decides ancestry. */
  lemma {:induction false} WalkDecidesExtends(b: Block, a: Block)
    ensures WalkDown(b, Height(a)) == a <==> Extends(b, a)
  {
    if Height(b) <= Height(a) {
      if Extends(b, a) {
        ExtendsHeight(b, a);
      }
    } else {
      WalkDecidesExtends(b.parent, a);
    }
  }

  lemma {:induction false} ChainIsAncestors(b: Block, a: Block)
    ensures a in Chain(b) <==> Extends(b, a)
  {
    if b.Node? {
      ChainIsAncestors(b.parent, a);
    }
  }

  /** A branch has a block of every height up to its top. */
  lemma {:induction false} WalkDownIsAncestor(b: Block, h: nat)
    requires h <= Height(b)
    ensures Height(WalkDown(b, h)) == h && Extends(b, WalkDown(b, h))
  {
    if Height(b) > h {
      WalkDownIsAncestor(b.parent, h);
    }
  }

  /** A certificate reference never points upward, and only genesis points to itself. */
  lemma RefBelow(b: Block)
    requires QcOnBranch(b)
    ensures Extends(b, Ref(b))
    ensures b.Node? ==> Height(Ref(b)) < Height(b)
    ensures Height(Ref(b)) <= Height(b)
  {
    if b.Node? {
      ExtendsHeight(b.parent, b.qcRef);
    }
  }
}
