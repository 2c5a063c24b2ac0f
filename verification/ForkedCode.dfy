/** The run of `Fork` on the code: each replica runs the handlers of the class on the blocks it
    delivers there, from construction to its last vote or commit. */
module ForkedCode {
  import opened Blocks
  import opened Replicas
  import opened Runs
  import opened Fork
  import opened Core

  /** A three-step replica that has executed nothing stands at a certain point. */
  ghost predicate At(core: HotStuffCore, hqc: Block, bLock: Block, vheight: nat, have: set<Block>)
    reads core, core.pm
  {
    && core.Unpruned() && core.steps == ThreeStep && have <= core.delivered
    && Stands(core.Abs(), hqc, bLock, Genesis, vheight)
  }

  predicate Placed(have: set<Block>, b: Block) {
    ParentsDelivered(have, b) && Ref(b) in have
  }

  method Create(id: ReplicaID) returns (core: HotStuffCore)
    ensures fresh(core) && fresh(core.pm) && core.id == id
    ensures At(core, Genesis, Genesis, 0, {Genesis})
  {
    core := new HotStuffCore(id, 4, ThreeStep);
  }

  method DeliverTo(core: HotStuffCore, b: Block,
                   ghost hqc: Block, ghost bLock: Block, ghost vheight: nat, ghost have: set<Block>)
    requires At(core, hqc, bLock, vheight, have) && Placed(have, b)
    modifies core
    ensures At(core, hqc, bLock, vheight, have + {b}) && core.Abs() == Deliver(old(core.Abs()), b)
  {
    core.AddBlk(b);
    var outcome := core.OnDeliverBlk(b);
  }

  /** Delivers `b` and runs `on_receive_proposal`, which votes. */
  method Take(core: HotStuffCore, b: Block, ghost hqc': Block, ghost bLock': Block, ghost bExec': Block,
              ghost hqc: Block, ghost bLock: Block, ghost vheight: nat, ghost have: set<Block>)
    returns (vote: bool)
    requires At(core, hqc, bLock, vheight, have) && Placed(have, b)
    requires Takes(ThreeStep, core.Abs(), b, hqc', bLock', bExec')
    modifies core, core.pm
    ensures vote && core.Unpruned() && core.steps == ThreeStep && have + {b} <= core.delivered
    ensures Stands(core.Abs(), hqc', bLock', bExec', Height(b))
  {
    ExtendsGenesis(CommitIn(ThreeStep, Deliver(core.Abs(), b).delivered, b));
    DeliverTo(core, b, hqc, bLock, vheight, have);
    var outcome;
    outcome, vote := core.OnReceiveProposal(b);
  }

  /** Replicas 0 and 1 vote for the branch of `A1`. */
  method TakeA(id: ReplicaID) returns (core: HotStuffCore)
    ensures fresh(core) && fresh(core.pm) && core.id == id
    ensures At(core, A2(), A1(), 3, {Genesis, A1(), A2(), A3()})
  {
    Heights();
    core := Create(id);
    TakesFresh(ThreeStep, core.Abs(), A1(), 0);
    var v1 := Take(core, A1(), Genesis, Genesis, Genesis, Genesis, Genesis, 0, {Genesis});
    TakesA2(core.Abs());
    var v2 := Take(core, A2(), A1(), Genesis, Genesis, Genesis, Genesis, 1, {Genesis, A1()});
    TakesA3(core.Abs());
    var v3 := Take(core, A3(), A2(), A1(), Genesis, A1(), Genesis, 2, {Genesis, A1(), A2()});
  }

  /** Replica 0 goes on to commit `A1`. */
  method RunReplica0() returns (core: HotStuffCore)
    ensures core.id == 0 && core.Linked() && core.bExec == A1()
  {
    Heights();
    core := TakeA(0);
    TakesA4(core.Abs());
    var v4 := Take(core, A4(), A3(), A2(), A1(), A2(), A1(), 3, {A3()});
  }

  method DeliverC(core: HotStuffCore, ghost hqc: Block, ghost bLock: Block, ghost vheight: nat)
    requires At(core, hqc, bLock, vheight, {Genesis, A1(), A2()})
    modifies core
    ensures At(core, hqc, bLock, vheight, {C3(), A1(), A2()})
  {
    DeliverTo(core, C1(), hqc, bLock, vheight, {Genesis, A1(), A2()});
    DeliverTo(core, C2(), hqc, bLock, vheight, {Genesis, A1(), A2(), C1()});
    DeliverTo(core, C3(), hqc, bLock, vheight, {Genesis, A1(), A2(), C2()});
  }

  /** A replica locked on `A1`, or on nothing, votes for `B4` to `B6`. */
  method VoteUpToB6(core: HotStuffCore, ghost hqc: Block, ghost bLock: Block, ghost vheight: nat)
    requires At(core, hqc, bLock, vheight, {C3(), A1(), A2()}) && vheight <= 3
    requires (hqc == A2() && bLock == A1()) || (hqc == Genesis && bLock == Genesis)
    modifies core, core.pm
    ensures At(core, B5(), B4(), 6, {B6()})
  {
    Heights();
    TakesB4(core.Abs(), vheight);
    var v4 := Take(core, B4(), A2(), A1(), Genesis, hqc, bLock, vheight, {C3(), A1(), A2()});
    TakesB5(core.Abs());
    var v5 := Take(core, B5(), B4(), A2(), Genesis, A2(), A1(), 4, {A2(), B4()});
    TakesB6(core.Abs());
    var v6 := Take(core, B6(), B5(), B4(), Genesis, B4(), A2(), 5, {B5()});
  }

  /** Replica 1, locked on `A1`, votes for them. */
  method RunReplica1() returns (core: HotStuffCore)
    ensures core.id == 1 && core.Linked() && Stands(core.Abs(), B5(), B4(), Genesis, 6)
  {
    core := TakeA(1);
    DeliverC(core, A2(), A1(), 3);
    VoteUpToB6(core, A2(), A1(), 3);
  }

  method PrepareReplica2() returns (core: HotStuffCore)
    ensures fresh(core) && fresh(core.pm) && core.id == 2 && At(core, Genesis, Genesis, 0, {C3(), A1(), A2()})
  {
    core := Create(2);
    DeliverTo(core, A1(), Genesis, Genesis, 0, {Genesis});
    DeliverTo(core, A2(), Genesis, Genesis, 0, {Genesis, A1()});
    DeliverC(core, Genesis, Genesis, 0);
  }

  /** Replica 2 votes with it and commits `B4`. */
  method RunReplica2() returns (core: HotStuffCore)
    ensures core.id == 2 && core.Linked() && core.bExec == B4()
  {
    Heights();
    core := PrepareReplica2();
    VoteUpToB6(core, Genesis, Genesis, 0);
    TakesB7(core.Abs());
    var v7 := Take(core, B7(), B6(), B5(), B4(), B5(), B4(), 6, {B6()});
  }

  lemma FirstDecisions()
    ensures Decisions(0, A1()) == [Finality(0, 0, 1, 1, A1())]
    ensures |Decisions(2, B4())| > 0 && Decisions(2, B4())[0] == Finality(2, 0, 1, 2, C1())
  {
    Heights();
    assert Decisions(2, C1()) == [Finality(2, 0, 1, 2, C1())];
    assert Decisions(2, C2()) == Decisions(2, C1());
    assert Decisions(2, C3()) == Decisions(2, C2());
  }

  /** The two replicas have decided different commands first. */
  method CodeForks() returns (core0: HotStuffCore, core2: HotStuffCore)
    ensures core0.id == 0 && core0.bExec == A1() && core2.id == 2 && core2.bExec == B4()
    ensures |core0.log| > 0 && |core2.log| > 0
    ensures core0.log[0].height == core2.log[0].height && core0.log[0].cmd != core2.log[0].cmd
  {
    FirstDecisions();
    core0 := RunReplica0();
    core2 := RunReplica2();
  }
}
