/** Why `prune` relies on blocks with a single parent: a replica that has executed a block with an
    uncle taller than itself, and prunes, is left with a delivered proposal whose vote walk runs
    into a cleared parent list. */
module TallUncle {
  import opened Blocks
  import opened Replicas
  import opened Links
  import opened Core

  // A side branch of height 3 and the proposal that extends it.
  function U1(): Block { Node(Genesis, [], [1], Genesis, {}, []) }
  function U2(): Block { Node(U1(), [], [], Genesis, {}, []) }
  function U3(): Block { Node(U2(), [], [], Genesis, {}, []) }
  function Proposal(): Block { Node(U3(), [], [], Genesis, {}, []) }

  // The branch that is executed; its first block has the uncle.
  function B1(): Block { Node(Genesis, [U3()], [], Genesis, {}, []) }
  function B2(): Block { Node(B1(), [], [], B1(), {0, 1, 2}, []) }
  function B3(): Block { Node(B2(), [], [], B2(), {0, 1, 2}, []) }

  lemma Heights()
    ensures Height(U1()) == 1 && Height(U2()) == 2 && Height(U3()) == 3 && Height(Proposal()) == 4
    ensures Height(B1()) == 1 && Height(B2()) == 2 && Height(B3()) == 3
    ensures QcOnBranch(U1()) && QcOnBranch(U2()) && QcOnBranch(U3()) && QcOnBranch(Proposal())
    ensures QcOnBranch(B1()) && QcOnBranch(B2()) && QcOnBranch(B3())
  {
    ExtendsGenesis(U2());
    ExtendsGenesis(U3());
  }

  /** Nothing but deliveries has happened. */
  ghost predicate Untouched(core: HotStuffCore, delivered: set<Block>)
    reads core, core.pm
  {
    && core.Valid() && core.steps == TwoStep && core.delivered == delivered
    && core.hqc == Genesis && core.bLock == Genesis && core.bExec == Genesis && core.vheight == 0
  }

  method DeliverNext(core: HotStuffCore, b: Block, ghost delivered: set<Block>)
    requires Untouched(core, delivered) && b !in delivered && ParentsDelivered(delivered, b) && QcOnBranch(b)
    modifies core
    ensures Untouched(core, delivered + {b})
  {
    core.AddBlk(b);
    var outcome := core.OnDeliverBlk(b);
  }

  method DeliverUncles() returns (core: HotStuffCore)
    ensures fresh(core) && fresh(core.pm)
    ensures Untouched(core, {Genesis, U1(), U2(), U3()})
  {
    Heights();
    core := new HotStuffCore(0, 4, TwoStep);
    DeliverNext(core, U1(), {Genesis});
    DeliverNext(core, U2(), {Genesis, U1()});
    DeliverNext(core, U3(), {Genesis, U1(), U2()});
  }

  method DeliverProposal() returns (core: HotStuffCore)
    ensures fresh(core) && fresh(core.pm)
    ensures Untouched(core, {Genesis, U1(), U2(), U3(), Proposal(), B1()})
  {
    Heights();
    core := DeliverUncles();
    DeliverNext(core, Proposal(), {Genesis, U1(), U2(), U3()});
    DeliverNext(core, B1(), {Genesis, U1(), U2(), U3(), Proposal()});
  }

  method DeliverAll() returns (core: HotStuffCore)
    ensures fresh(core) && fresh(core.pm)
    ensures Untouched(core, {Genesis, U1(), U2(), U3(), Proposal(), B1(), B2(), B3()})
  {
    Heights();
    core := DeliverProposal();
    DeliverNext(core, B2(), {Genesis, U1(), U2(), U3(), Proposal(), B1()});
    DeliverNext(core, B3(), {Genesis, U1(), U2(), U3(), Proposal(), B1(), B2()});
  }

  lemma UpdateB3(st: Replica)
    requires st.hqc == Genesis && st.bLock == Genesis && st.bExec == Genesis && st.vheight == 0
    requires {B1(), B2()} <= st.delivered
    ensures var st1 := Update(TwoStep, st, B3());
            st1.bLock == B2() && st1.bExec == B1() && Judge(st1, B3()).vheight <= 3
    ensures !Conflicts(TwoStep, st.delivered, Genesis, B3())
  {
    Heights();
    ExtendsGenesis(B1());
  }

  /** The replica executes `B1`, and keeps working. */
  method ExecuteB1() returns (core: HotStuffCore)
    ensures core.Valid() && core.bExec == B1() && core.bLock == B2() && core.vheight <= 3
    ensures Proposal() in core.delivered && U3() in core.parents && B1() in core.parents
    ensures core.parents[B1()] == Parents(B1()) && core.parents[U3()] == Parents(U3())
    ensures fresh(core)
  {
    Heights();
    core := DeliverAll();
    ghost var st := core.Abs();
    UpdateB3(st);
    assert Kept(core.delivered, Genesis, 0, core.parents, core.qcRef, B1());
    assert Kept(core.delivered, Genesis, 0, core.parents, core.qcRef, U3());
    var outcome, vote := core.OnReceiveProposal(B3());
  }

  /** After pruning, the vote walk from the proposal, which is not exempt from it, comes to `U3` above
      the lock and finds its parents gone. */
  method PruneBreaksVoteWalk() returns (core: HotStuffCore)
    ensures core.bExec == B1() && core.bLock == B2()
    ensures Proposal() in core.delivered && Height(Proposal()) > core.vheight
    ensures Height(Ref(Proposal())) <= Height(core.bLock)
    ensures Proposal().parent == U3() && Height(U3()) > Height(core.bLock)
    ensures U3() in core.parents && core.parents[U3()] == []
    ensures !core.Valid() && !IntactAbove(core.parents, Height(core.bLock))
  {
    Heights();
    core := ExecuteB1();
    ghost var links := core.parents;
    assert U3() in links[B1()] && U3() in Parents(B1()) && Reaches(links, U3(), U3());
    assert Reaches(links, B1(), U3());
    core.Prune(0);
  }
}
