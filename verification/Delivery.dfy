/** Asynchronous fetching and delivery of blocks: `async_fetch_blk`, `async_deliver_blk`,
    `on_fetch_blk` and `on_deliver_blk` of `src/hotstuff.cpp`.

    Promise callbacks run in some order as soon as their promise is resolved; here they are
    run by `Settle`, in any order, before a handler returns. */
module Delivery {
  import opened Blocks

  datatype Pool = Pool(
    storage: set<Block>,          // blocks in the storage
    delivered: set<Block>,
    order: seq<Block>,            // the successful calls of on_deliver_blk
    waiting: set<Block>,          // blk_delivery_waiting
    started: set<Block>,          // blocks whose fetch promise was resolved for delivery
    fetching: set<Block>,         // blk_fetch_waiting
    awaitingQc: set<Block>,       // started blocks whose certified block is being fetched
    verdicts: map<Block, bool>)   // certificate checks that have finished

  /** Every promise that the delivery of `b` waits for is fulfilled, and verification succeeded. */
  predicate Ready(p: Pool, b: Block) {
    && b in p.waiting && b in p.started
    && b in p.verdicts && p.verdicts[b]
    && b !in p.awaitingQc
    && forall x :: x in Parents(b) ==> x in p.delivered
  }

  /** No delivery has been left undone. */
  predicate Quiescent(p: Pool) {
    forall b :: b in p.waiting ==> !Ready(p, b)
  }

  /** What a block has to bring along to be delivered. */
  predicate Justified(p: Pool, b: Block) {
    && b in p.storage && b in p.started
    && b in p.verdicts && p.verdicts[b]
    && b !in p.awaitingQc && Ref(b) in p.storage
  }

  /** Blocks are delivered once each, after all their parents, with a verified certificate whose
      block has been fetched. */
  predicate DeliveredOk(p: Pool) {
    && p.delivered == {Genesis} + (set b | b in p.order)
    && (forall i, j :: 0 <= i < j < |p.order| ==> p.order[i] != p.order[j])
    && (forall i :: 0 <= i < |p.order| ==> p.order[i] != Genesis && Justified(p, p.order[i]))
    && (forall i :: 0 <= i < |p.order| ==> ParentsBefore(p.order, i))
    && Genesis in p.storage
  }

  predicate ParentsBefore(order: seq<Block>, i: nat)
    requires i < |order|
  {
    forall x :: x in Parents(order[i]) ==> x == Genesis || x in order[..i]
  }

  predicate Requested(p: Pool, b: Block) {
    b in p.waiting || b in p.delivered
  }

  predicate WaitOk(p: Pool, b: Block, open: set<Block>) {
    if b in p.started then
      && b in p.storage
      && (if b in p.awaitingQc then Ref(b) in p.fetching else Ref(b) in p.storage)
      && (Ref(b) == Genesis ==> b in p.verdicts && p.verdicts[b])
      && (b !in open ==> forall x :: x in Parents(b) ==> Requested(p, x))
    else b in p.fetching
  }

  /** The parents of the blocks in `open` are still being requested, and the delivery of those in
      `skip` has not been set up yet. */
  predicate Consistent(p: Pool, open: set<Block>, skip: set<Block>) {
    && DeliveredOk(p)
    && p.waiting !! p.delivered
    && p.started <= p.waiting + p.delivered
    && (forall b :: b in p.verdicts ==> b in p.started)
    && (forall b {:trigger WaitOk(p, b, open)} :: b in p.waiting && b !in skip ==> WaitOk(p, b, open))
  }

  predicate Valid(p: Pool) {
    Consistent(p, {}, {}) && Quiescent(p)
  }

  /** No check is forgotten, and without one only a certificate for genesis passes. */
  predicate VerdictsGrown(p: Pool, p': Pool) {
    && (forall b :: b in p.verdicts ==> b in p'.verdicts && p'.verdicts[b] == p.verdicts[b])
    && (forall b :: b in p'.verdicts && b !in p.verdicts ==> p'.verdicts[b] && Ref(b) == Genesis)
  }

  /** No fetch, wait or start is forgotten, and only what is not stored is fetched anew. */
  predicate RequestsGrown(p: Pool, p': Pool) {
    && p.waiting + p.delivered <= p'.waiting + p'.delivered && p.started <= p'.started
    && (forall b :: b in p'.fetching && b !in p.fetching ==> b !in p'.storage)
    && (forall b :: b in p'.awaitingQc && b !in p.awaitingQc ==> Ref(b) !in p'.storage)
  }

  /** Requesting blocks delivers nothing and forgets nothing. */
  predicate Grown(p: Pool, p': Pool) {
    && p'.storage == p.storage && p'.delivered == p.delivered && p'.order == p.order
    && p.waiting <= p'.waiting && RequestsGrown(p, p') && VerdictsGrown(p, p')
  }

  /** The delivery of `b` is set up, except for the requests of its parents. */
  function Begun(p: Pool, b: Block): Pool {
    p.(started := p.started + {b},
       fetching := if Ref(b) in p.storage then p.fetching else p.fetching + {Ref(b)},
       awaitingQc := if Ref(b) in p.storage then p.awaitingQc - {b} else p.awaitingQc + {b},
       verdicts := if Ref(b) == Genesis && b !in p.verdicts then p.verdicts[b := true] else p.verdicts)
  }

  /** The pool of a new replica. */
  function EmptyPool(): Pool {
    Pool({Genesis}, {Genesis}, [], {}, {}, {}, {}, map[])
  }

  // ---- events ----

  /** A proposal or vote needs a block, a proposal brings one, a response brings one, or a certificate
      check ends. */
  datatype Event = Need(blk: Block) | Stored(blk: Block) | Arrival(blk: Block) | Checked(blk: Block, ok: bool)

  /** The answer to the fetch of `b` resumes everything that waits for it. */
  predicate Resumes(p: Pool, b: Block, p': Pool) {
    && b in p'.storage && b !in p'.fetching
    && (b in p.waiting && b in p.fetching ==> b in p'.started)
    && (b in p.fetching ==> forall x :: x in p'.awaitingQc ==> Ref(x) != b)
  }

  /** What a handler makes of the pool. */
  predicate Handles(p: Pool, e: Event, p': Pool) {
    && Valid(p') && p.order <= p'.order && p.storage <= p'.storage && RequestsGrown(p, p')
    && (forall b :: b in p.verdicts ==> b in p'.verdicts && p'.verdicts[b] == p.verdicts[b])
    && match e
       case Need(b) => Requested(p', b)
       case Stored(b) => p' == p.(storage := p.storage + {b})
       case Arrival(b) => Resumes(p, b, p')
       case Checked(b, ok) => b in p'.verdicts && p'.verdicts[b] == ok
  }

  lemma BegunConsistent(p: Pool, open: set<Block>, b: Block)
    requires Consistent(p, open, {b}) && b in p.waiting && b in p.storage && b !in p.started
    ensures Consistent(Begun(p, b), open + {b}, {}) && Grown(p, Begun(p, b))
  {
    var p' := Begun(p, b);
    forall x | x in p'.waiting ensures WaitOk(p', x, open + {b}) {
      assert x != b ==> WaitOk(p, x, open);
    }
    DeliveredKept(p, p');
  }

  lemma DeliveredKept(p: Pool, p': Pool)
    requires DeliveredOk(p) && p'.delivered == p.delivered && p'.order == p.order
    requires p.storage <= p'.storage && p.started <= p'.started
    requires forall b :: b in p.delivered && b in p'.awaitingQc ==> b in p.awaitingQc
    requires forall b :: b in p.verdicts ==> b in p'.verdicts && p'.verdicts[b] == p.verdicts[b]
    ensures DeliveredOk(p')
  {
  }

  lemma CloseOpen(p: Pool, open: set<Block>, b: Block)
    requires Consistent(p, open + {b}, {})
    requires forall x :: x in Parents(b) ==> Requested(p, x)
    ensures Consistent(p, open, {})
  {
    forall x | x in p.waiting ensures WaitOk(p, x, open) {
      assert WaitOk(p, x, open + {b});
    }
  }

  lemma AddWaiting(p: Pool, open: set<Block>, b: Block, fetching: set<Block>)
    requires Consistent(p, open, {}) && b !in p.waiting && b !in p.delivered
    requires p.fetching <= fetching
    ensures Consistent(p.(waiting := p.waiting + {b}, fetching := fetching), open, {b})
    ensures b in fetching ==> Consistent(p.(waiting := p.waiting + {b}, fetching := fetching), open, {})
  {
    var p' := p.(waiting := p.waiting + {b}, fetching := fetching);
    DeliveredKept(p, p');
    forall x | x in p'.waiting && x != b ensures WaitOk(p', x, open) {
      assert WaitOk(p, x, open);
    }
    if b in fetching {
      assert WaitOk(p', b, open);
    }
  }

  /** A block has arrived: its fetch promise is resolved. */
  function Arrived(p: Pool, b: Block): Pool {
    if b in p.fetching then
      p.(storage := p.storage + {b}, fetching := p.fetching - {b},
         awaitingQc := set x | x in p.awaitingQc && Ref(x) != b)
    else p.(storage := p.storage + {b})
  }

  lemma ArrivedConsistent(p: Pool, b: Block)
    requires Consistent(p, {}, {})
    ensures Consistent(Arrived(p, b), {}, if b in p.waiting && b !in p.started then {b} else {})
  {
    var p' := Arrived(p, b);
    DeliveredKept(p, p');
    forall x | x in p'.waiting && (x != b || x in p.started) ensures WaitOk(p', x, {}) {
      assert WaitOk(p, x, {});
    }
  }

  lemma StoredConsistent(p: Pool, b: Block)
    requires Valid(p)
    ensures Valid(p.(storage := p.storage + {b}))
  {
    var p' := p.(storage := p.storage + {b});
    DeliveredKept(p, p');
    forall x | x in p'.waiting ensures WaitOk(p', x, {}) && !Ready(p', x) {
      assert WaitOk(p, x, {}) && !Ready(p, x);
    }
  }

  lemma VerdictConsistent(p: Pool, b: Block, ok: bool)
    requires Consistent(p, {}, {}) && b in p.started && b !in p.verdicts
    ensures Consistent(p.(verdicts := p.verdicts[b := ok]), {}, {})
  {
    var p' := p.(verdicts := p.verdicts[b := ok]);
    DeliveredKept(p, p');
    forall x | x in p'.waiting ensures WaitOk(p', x, {}) {
      assert WaitOk(p, x, {});
    }
  }

  lemma DeliverOne(p: Pool, b: Block)
    requires Consistent(p, {}, {}) && Ready(p, b)
    ensures Consistent(p.(delivered := p.delivered + {b}, order := p.order + [b], waiting := p.waiting - {b}), {}, {})
  {
    var p' := p.(delivered := p.delivered + {b}, order := p.order + [b], waiting := p.waiting - {b});
    assert WaitOk(p, b, {});
    forall i | 0 <= i < |p'.order| ensures ParentsBefore(p'.order, i) {
      if i < |p.order| {
        assert ParentsBefore(p.order, i) && p'.order[..i] == p.order[..i];
      } else {
        assert p'.order[..i] == p.order;
      }
    }
    forall x | x in p'.waiting ensures WaitOk(p', x, {}) {
      assert WaitOk(p, x, {});
    }
  }

  class HotStuffBase {
    var pool: Pool

    constructor ()
      ensures Valid(pool) && pool == EmptyPool()
    {
      pool := EmptyPool();
    }

    /** `async_fetch_blk`: is the promise resolved at once? */
    method AsyncFetch(b: Block) returns (now: bool)
      modifies this
      ensures now <==> b in old(pool).storage
      ensures pool == if now then old(pool) else old(pool).(fetching := old(pool).fetching + {b})
    {
      now := b in pool.storage;
      if !now {
        pool := pool.(fetching := pool.fetching + {b});
      }
    }

    /** The promises of all deliveries that can complete are resolved. */
    method Settle()
      requires Consistent(pool, {}, {})
      modifies this
      ensures Valid(pool)
      ensures old(pool).order <= pool.order && old(pool).delivered <= pool.delivered
      ensures pool == old(pool).(delivered := pool.delivered, order := pool.order, waiting := pool.waiting)
      ensures pool.waiting + pool.delivered == old(pool).waiting + old(pool).delivered
    {
      while exists b :: b in pool.waiting && Ready(pool, b)
        invariant Consistent(pool, {}, {})
        invariant old(pool).order <= pool.order && old(pool).delivered <= pool.delivered
        invariant pool == old(pool).(delivered := pool.delivered, order := pool.order, waiting := pool.waiting)
        invariant pool.waiting + pool.delivered == old(pool).waiting + old(pool).delivered
        decreases pool.waiting
      {
        var b :| b in pool.waiting && Ready(pool, b);
        DeliverOne(pool, b);
        pool := pool.(delivered := pool.delivered + {b}, order := pool.order + [b], waiting := pool.waiting - {b});
      }
    }

    /** `async_deliver_blk`, up to the callbacks of promises it resolves. */
    method AsyncDeliver(b: Block, ghost open: set<Block>)
      requires Consistent(pool, open, {})
      modifies this
      ensures Consistent(pool, open, {}) && Grown(old(pool), pool) && Requested(pool, b)
      decreases b, 1
    {
      if b in pool.delivered || b in pool.waiting {
        return;
      }
      AddWaiting(pool, open, b, pool.fetching);
      AddWaiting(pool, open, b, pool.fetching + {b});
      pool := pool.(waiting := pool.waiting + {b});
      var now := AsyncFetch(b);
      if now {
        Start(b, open);
      }
    }

    /** The callback of the fetch promise: verify, fetch the certified block, request the parents. */
    method Start(b: Block, ghost open: set<Block>)
      requires Consistent(pool, open, {b}) && b in pool.waiting && b in pool.storage && b !in pool.started
      modifies this
      ensures Consistent(pool, open, {}) && Grown(old(pool), pool) && b in pool.started
      decreases b, 0
    {
      BegunConsistent(pool, open, b);
      pool := Begun(pool, b);
      var ps := Parents(b);
      for i := 0 to |ps|
        invariant Consistent(pool, open + {b}, {}) && Grown(old(pool), pool) && b in pool.started
        invariant forall j :: 0 <= j < i ==> Requested(pool, ps[j])
      {
        AsyncDeliver(ps[i], open + {b});
      }
      CloseOpen(pool, open, b);
    }

    // ---- events ----

    /** A proposal or vote needs `b`. */
    method Request(b: Block)
      requires Valid(pool)
      modifies this
      ensures Valid(pool) && Requested(pool, b)
      ensures pool.storage == old(pool).storage && Handles(old(pool), Need(b), pool)
      ensures VerdictsGrown(old(pool), pool)
    {
      AsyncDeliver(b, {});
      Settle();
    }

    /** A proposal message puts its block into the storage; pending fetches are not told. */
    method Store(b: Block)
      requires Valid(pool)
      modifies this
      ensures Valid(pool) && Handles(old(pool), Stored(b), pool)
    {
      StoredConsistent(pool, b);
      pool := pool.(storage := pool.storage + {b});
    }

    /** A response message brings `b`: `on_fetch_blk`. */
    method OnFetchBlk(b: Block)
      requires Valid(pool)
      modifies this
      ensures Valid(pool)
      ensures pool.storage == old(pool).storage + {b} && Handles(old(pool), Arrival(b), pool)
      ensures VerdictsGrown(old(pool), pool)
    {
      var starts := b in pool.fetching && b in pool.waiting && b !in pool.started;
      if b in pool.waiting && b !in pool.started {
        assert WaitOk(pool, b, {});
      }
      ArrivedConsistent(pool, b);
      pool := Arrived(pool, b);
      if starts {
        Start(b, {});
      }
      Settle();
    }

    /** The verification of the certificate of `b` has finished. */
    method OnVerified(b: Block, ok: bool)
      requires Valid(pool) && b in pool.started && b !in pool.verdicts
      modifies this
      ensures Valid(pool)
      ensures pool.storage == old(pool).storage && Handles(old(pool), Checked(b, ok), pool)
      ensures pool.verdicts == old(pool).verdicts[b := ok]
    {
      VerdictConsistent(pool, b, ok);
      pool := pool.(verdicts := pool.verdicts[b := ok]);
      Settle();
    }
  }

  // ---- what delivery achieves ----

  /** Whatever is delivered has its parents delivered, was verified, and its certified block is there. */
  lemma DeliveredIsJustified(p: Pool, b: Block)
    requires Valid(p) && b in p.delivered && b != Genesis
    ensures Justified(p, b) && forall x :: x in Parents(b) ==> x in p.delivered
  {
    var i :| 0 <= i < |p.order| && p.order[i] == b;
    assert ParentsBefore(p.order, i);
  }

  /** Nothing `b` depends on is missing: every ancestor but genesis has arrived for its delivery,
      has verified, and waits for no certified block. */
  predicate Supplied(p: Pool, b: Block) {
    b.Genesis? ||
    (b in p.started && b in p.verdicts && p.verdicts[b] && b !in p.awaitingQc
     && Supplied(p, b.parent) && forall x :: x in b.uncles ==> Supplied(p, x))
  }

  /** A requested block is delivered exactly when nothing it depends on is missing. */
  lemma {:induction false} DeliveredIffSupplied(p: Pool, b: Block)
    requires Valid(p) && Requested(p, b)
    ensures b in p.delivered <==> Supplied(p, b)
  {
    if b.Node? && b in p.delivered {
      DeliveredIsJustified(p, b);
      forall x | x in Parents(b) ensures Supplied(p, x) {
        DeliveredIffSupplied(p, x);
      }
      assert b.parent in Parents(b) && forall x :: x in b.uncles ==> x in Parents(b);
    } else if b.Node? && Supplied(p, b) {
      assert WaitOk(p, b, {});
      forall x | x in Parents(b) ensures x in p.delivered {
        assert Requested(p, x);
        DeliveredIffSupplied(p, x);
      }
      assert Ready(p, b);
    }
  }

  // ---- every request is served once its answers are in ----

  /** Neither `b` nor anything it depends on waits for an answer, and no check has failed. */
  predicate Answered(p: Pool, b: Block) {
    b.Genesis? ||
    (b !in p.fetching && Ref(b) !in p.fetching && (b in p.started ==> b in p.verdicts && p.verdicts[b])
     && Answered(p, b.parent) && forall x :: x in b.uncles ==> Answered(p, x))
  }

  lemma {:induction false} DeliveredWhenAnswered(p: Pool, b: Block)
    requires Valid(p) && Requested(p, b) && Answered(p, b)
    ensures b in p.delivered
  {
    if b.Node? && b !in p.delivered {
      assert WaitOk(p, b, {});
      forall x | x in Parents(b) ensures x in p.delivered {
        assert Requested(p, x);
        DeliveredWhenAnswered(p, x);
      }
      assert Ready(p, b);
    }
  }

  /** `pools` are the pools before, between and after these events. */
  predicate Serves(pools: seq<Pool>, events: seq<Event>) {
    && |pools| == |events| + 1 && pools[0] == EmptyPool()
    && forall i :: 0 <= i < |events| ==> Handles(pools[i], events[i], pools[i + 1])
  }

  /** What has arrived stays stored and is not fetched again; requests and verdicts are kept. */
  lemma {:induction false} Kept(pools: seq<Pool>, events: seq<Event>, j: nat, i: nat, b: Block)
    requires Serves(pools, events) && j <= i <= |events|
    ensures b in pools[j].storage ==> b in pools[i].storage
    ensures b in pools[j].storage && b !in pools[j].fetching ==> b !in pools[i].fetching
    ensures Requested(pools[j], b) ==> Requested(pools[i], b)
    ensures b in pools[j].verdicts ==> b in pools[i].verdicts && pools[i].verdicts[b] == pools[j].verdicts[b]
    decreases i
  {
    if j < i {
      Kept(pools, events, j, i - 1, b);
      assert Handles(pools[i - 1], events[i - 1], pools[i - 1 + 1]);
    }
  }

  /** Every block that `b` depends on, and the block of its certificate, has come in answer, and its
      certificate has passed unless it names genesis. */
  predicate AllCome(events: seq<Event>, b: Block) {
    b.Genesis? ||
    (Arrival(b) in events && (Ref(b) == Genesis || (Arrival(Ref(b)) in events && Checked(b, true) in events))
     && AllCome(events, b.parent) && forall x :: x in b.uncles ==> AllCome(events, x))
  }

  lemma Come(pools: seq<Pool>, events: seq<Event>, b: Block)
    requires Serves(pools, events) && (b == Genesis || Arrival(b) in events)
    ensures b !in pools[|events|].fetching
  {
    if b == Genesis {
      Kept(pools, events, 0, |events|, b);
    } else {
      var j :| 0 <= j < |events| && events[j] == Arrival(b);
      assert Handles(pools[j], events[j], pools[j + 1]);
      Kept(pools, events, j + 1, |events|, b);
    }
  }

  lemma Passed(pools: seq<Pool>, events: seq<Event>, b: Block)
    requires Serves(pools, events) && b.Node? && (Ref(b) == Genesis || Checked(b, true) in events)
    requires Valid(pools[|events|]) && b in pools[|events|].started
    ensures b in pools[|events|].verdicts && pools[|events|].verdicts[b]
  {
    var p := pools[|events|];
    if Checked(b, true) in events {
      var j :| 0 <= j < |events| && events[j] == Checked(b, true);
      assert Handles(pools[j], events[j], pools[j + 1]);
      Kept(pools, events, j + 1, |events|, b);
    } else if b in p.delivered {
      DeliveredIsJustified(p, b);
    } else {
      assert WaitOk(p, b, {});
    }
  }

  lemma {:induction false} AllComeAnswered(pools: seq<Pool>, events: seq<Event>, b: Block)
    requires Serves(pools, events) && AllCome(events, b) && Valid(pools[|events|])
    ensures Answered(pools[|events|], b)
  {
    if b.Node? {
      Come(pools, events, b);
      Come(pools, events, Ref(b));
      if b in pools[|events|].started {
        Passed(pools, events, b);
      }
      AllComeAnswered(pools, events, b.parent);
      forall x | x in b.uncles ensures Answered(pools[|events|], x) {
        AllComeAnswered(pools, events, x);
      }
    }
  }

  /** Over any sequence of requests, arrivals and finished checks, in any order: a requested block is
      delivered once it, its ancestors and their certified blocks have come and their certificates
      have passed. */
  lemma RequestIsServed(pools: seq<Pool>, events: seq<Event>, b: Block)
    requires Serves(pools, events) && Need(b) in events && AllCome(events, b)
    ensures b in pools[|events|].delivered
  {
    var j :| 0 <= j < |events| && events[j] == Need(b);
    assert Handles(pools[j], events[j], pools[j + 1]);
    assert Handles(pools[|events| - 1], events[|events| - 1], pools[|events| - 1 + 1]);
    Kept(pools, events, j + 1, |events|, b);
    AllComeAnswered(pools, events, b);
    DeliveredWhenAnswered(pools[|events|], b);
  }
}
