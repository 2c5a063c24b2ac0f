/** What a replica has decided when it has executed a block. */
module Logs {
  import opened Blocks
  import opened Replicas

  /** A decision without the id of the replica that made it. */
  function Anonymous(log: seq<Finality>): seq<Finality> {
    seq(|log|, i requires 0 <= i < |log| => log[i].(rid := 0))
  }

  lemma {:induction false} DecisionsPrefix(id: ReplicaID, b: Block, a: Block)
    requires Extends(b, a)
    ensures Decisions(id, a) <= Decisions(id, b)
  {
    if b != a {
      DecisionsPrefix(id, b.parent, a);
    }
  }

  lemma {:induction false} AnonymousDecisions(id: ReplicaID, b: Block)
    ensures Anonymous(Decisions(id, b)) == Decisions(0, b)
  {
    if b.Node? {
      AnonymousDecisions(id, b.parent);
      assert Anonymous(Decisions(id, b))
          == Anonymous(Decisions(id, b.parent)) + Anonymous(BlockDecisions(id, b, |b.cmds|));
      assert Anonymous(BlockDecisions(id, b, |b.cmds|)) == BlockDecisions(0, b, |b.cmds|);
    }
  }

  /** `e` reports a command of the branch of `b`. */
  predicate Reports(id: ReplicaID, b: Block, e: Finality) {
    && e.rid == id && e.blk.Node? && Extends(b, e.blk) && e.height == Height(e.blk)
    && e.index < |e.blk.cmds| && e.cmd == e.blk.cmds[e.index]
  }

  /** The decisions up to `b` are exactly the commands of the blocks of its branch. */
  lemma {:induction false} DecisionsExact(id: ReplicaID, b: Block, e: Finality)
    ensures e in Decisions(id, b) <==> Reports(id, b, e)
  {
    if b.Node? {
      DecisionsExact(id, b.parent, e);
      var own := BlockDecisions(id, b, |b.cmds|);
      if Reports(id, b, e) && e.blk == b {
        assert own[e.index] == e;
      }
      if e in own {
        var i :| 0 <= i < |own| && own[i] == e;
      }
    }
  }

  /** Lower blocks come first, and the commands of a block in their order. */
  predicate Before(d: Finality, e: Finality) {
    d.height < e.height || (d.height == e.height && d.index < e.index)
  }

  /** No command of a block is decided twice or out of order. */
  lemma {:induction false} DecisionsOrdered(id: ReplicaID, b: Block, i: nat, j: nat)
    requires i < j < |Decisions(id, b)|
    ensures Before(Decisions(id, b)[i], Decisions(id, b)[j])
  {
    var rest, own := Decisions(id, b.parent), BlockDecisions(id, b, |b.cmds|);
    if j < |rest| {
      DecisionsOrdered(id, b.parent, i, j);
    } else if i < |rest| {
      DecisionsExact(id, b.parent, rest[i]);
      assert Reports(id, b.parent, rest[i]);
      ExtendsHeight(b.parent, rest[i].blk);
      assert Decisions(id, b)[i] == rest[i] && Decisions(id, b)[j] == own[j - |rest|];
      assert Height(rest[i].blk) <= Height(b.parent) < Height(b);
    } else {
      assert Decisions(id, b)[i] == own[i - |rest|] && Decisions(id, b)[j] == own[j - |rest|];
    }
  }

  /** Every command of the branch of `b` is in the log. */
  ghost predicate Logged(id: ReplicaID, b: Block, log: seq<Finality>) {
    forall e {:trigger Reports(id, b, e)} :: Reports(id, b, e) ==> e in log
  }

  lemma ExecutedIsLogged(id: ReplicaID, bExec: Block, b: Block)
    requires Extends(bExec, b)
    ensures Logged(id, b, Decisions(id, bExec))
  {
    forall e | Reports(id, b, e) ensures e in Decisions(id, bExec) {
      ExtendsTransitive(bExec, b, e.blk);
      DecisionsExact(id, bExec, e);
    }
  }

  /** The commands of a block are decided with it and everything above it, each at its index. */
  lemma CommandsDecided(id: ReplicaID, bExec: Block, b: Block, i: nat)
    requires b.Node? && Extends(bExec, b) && i < |b.cmds|
    ensures Finality(id, i, Height(b), b.cmds[i], b) in Decisions(id, bExec)
  {
    DecisionsExact(id, bExec, Finality(id, i, Height(b), b.cmds[i], b));
  }
}
