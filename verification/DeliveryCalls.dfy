/** What the asynchronous delivery of `Delivery` means for the protocol state machine: its deliveries
    are calls of `on_deliver_blk` that succeed, on blocks whose certificates verify. */
module DeliveryCalls {
  import opened Blocks
  import opened Replicas
  import opened Protocol
  import opened Core
  import opened Delivery

  /** The checks that succeeded did so on certificates that verify (`QuorumCerts.VerifiedIsCertified`). */
  predicate VerdictsOk(c: Config, signed: set<Ballot>, p: Pool) {
    forall b :: b in p.verdicts && p.verdicts[b] ==> CertOk(c, signed, b)
  }

  /** Every block delivered meets the conditions of a delivery step, and its certified block is fetched. */
  lemma DeliveredVerifies(c: Config, signed: set<Ballot>, p: Pool, b: Block)
    requires DeliveredOk(p) && VerdictsOk(c, signed, p) && b in p.delivered && b != Genesis
    ensures ParentsDelivered(p.delivered, b) && CertOk(c, signed, b) && Ref(b) in p.storage
  {
    var i :| 0 <= i < |p.order| && p.order[i] == b;
    assert Justified(p, b) && ParentsBefore(p.order, i);
  }

  /** The blocks delivered by the first `i` calls. */
  function Before(order: seq<Block>, i: nat): set<Block>
    requires i <= |order|
  {
    {Genesis} + set b | b in order[..i]
  }

  /** Call number `i` finds its block new, its parents delivered and its certified block fetched. */
  lemma CallSucceeds(p: Pool, i: nat)
    requires DeliveredOk(p) && i < |p.order|
    ensures var b := p.order[i];
            && b in p.storage && Ref(b) in p.storage && b !in Before(p.order, i)
            && ParentsDelivered(Before(p.order, i), b) && Before(p.order, i + 1) == Before(p.order, i) + {b}
  {
    assert Justified(p, p.order[i]) && ParentsBefore(p.order, i);
    assert p.order[..i + 1] == p.order[..i] + [p.order[i]];
  }

  method Call(core: HotStuffCore, b: Block, ghost have: set<Block>) returns (outcome: Outcome)
    requires core.Linked() && b in core.storage && Ref(b) in core.storage
    requires have <= core.delivered && ParentsDelivered(have, b)
    modifies core
    ensures core.Linked() && core.storage == old(core.storage) && core.delivered == old(core.delivered) + {b}
    ensures outcome == if b in old(core.delivered) then AlreadyDelivered else Ok
  {
    outcome := core.OnDeliverBlk(b);
    assert core.delivered == core.Abs().delivered;
  }

  /** Runs `on_deliver_blk` for every block that was delivered between `p0` and `p1`, in that order.
      Each call succeeds, unless the replica has proposed the block itself. */
  method Replay(core: HotStuffCore, ghost p0: Pool, p1: Pool, n: nat) returns (outcomes: seq<Outcome>)
    requires DeliveredOk(p0) && DeliveredOk(p1) && n == |p0.order| && p0.order <= p1.order
    requires core.Linked() && p0.delivered <= core.delivered && p1.storage <= core.storage
    modifies core
    ensures core.Linked() && core.delivered == old(core.delivered) + p1.delivered
    ensures |outcomes| == |p1.order| - n
    ensures forall i :: 0 <= i < |outcomes| ==>
              outcomes[i] == if p1.order[n + i] in old(core.delivered) then AlreadyDelivered else Ok
  {
    outcomes := [];
    ghost var own := core.delivered;
    assert p1.order[..n] == p0.order;
    for i := n to |p1.order|
      invariant core.Linked() && core.storage == old(core.storage)
      invariant core.delivered == own + Before(p1.order, i)
      invariant |outcomes| == i - n
      invariant forall j :: 0 <= j < i - n ==>
                  outcomes[j] == if p1.order[n + j] in own then AlreadyDelivered else Ok
    {
      CallSucceeds(p1, i);
      var outcome := Call(core, p1.order[i], Before(p1.order, i));
      outcomes := outcomes + [outcome];
    }
    assert p1.order[..|p1.order|] == p1.order;
  }
}
