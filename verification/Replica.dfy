/** What the handlers of one replica mean.

    A `Replica` is the protocol state of `HotStuffCore` together with the cache of its
    pacemaker.  The functions below are the event-driven algorithm of the HotStuff paper
    (arXiv 1803.05069, "Implementation"): no early returns on the `decision` flag, no
    commit queue, no cleared links.  The class `HotStuffCore` is proved to compute them. */
module Replicas {
  import opened Blocks
  import opened Quorum

  /** The compile switch HOTSTUFF_TWO_STEP. */
  datatype Steps = TwoStep | ThreeStep

  datatype Outcome =
    | Ok
    | AlreadyDelivered
    | NotDelivered
    | QcNotFetched
    | EmptyParents
    | SafetyBreached
    | NotAboveVheight

  datatype Replica = Replica(
    hqc: Block, hqcCert: set<ReplicaID>,
    bLock: Block, bExec: Block, vheight: nat,
    delivered: set<Block>, tails: set<Block>,
    voted: map<Block, set<ReplicaID>>,
    selfQc: map<Block, set<ReplicaID>>,
    voteDisabled: bool,
    hqcTail: Block)

  function InitReplica(n: nat): Replica {
    Replica(Genesis, {}, Genesis, Genesis, 0, {Genesis}, {Genesis},
            map[Genesis := Ids(n)], map[Genesis := {}], false, Genesis)
  }

  // ---- update ----

  /** What a replica finds at `qc_ref` of `b`: a block that is fetched and not delivered has height 0
      and refers to nothing, and is treated like genesis. */
  function RefIn(delivered: set<Block>, b: Block): Block {
    if Ref(b) in delivered then Ref(b) else Genesis
  }

  /** The block a replica locks on when it processes `b`. */
  function LockIn(k: Steps, delivered: set<Block>, b: Block): Block {
    if k == ThreeStep then RefIn(delivered, RefIn(delivered, b)) else RefIn(delivered, b)
  }

  /** The block at the bottom of a chain with top `b`. */
  function LockOf(k: Steps, b: Block): Block {
    if k == ThreeStep then Ref(Ref(b)) else Ref(b)
  }

  /** `t` closes a chain of direct parents, each certified by the next; the
      block at its bottom is `LockOf(k, t)`. */
  predicate DirectChain(k: Steps, t: Block) {
    && t.Node? && t.parent == Ref(t)
    && (k == ThreeStep ==> Ref(t).Node? && Ref(t).parent == Ref(Ref(t)))
  }

  function Higher(current: Block, b: Block): Block {
    if Height(b) > Height(current) then b else current
  }

  /** `update_hqc`, without its callback. */
  function RaiseHqc(st: Replica, b: Block, cert: set<ReplicaID>): Replica {
    st.(hqc := Higher(st.hqc, b),
        hqcCert := if Height(b) > Height(st.hqc) then cert else st.hqcCert)
  }

  /** `update` up to the commit. */
  function Lift(k: Steps, st: Replica, nblk: Block): Replica {
    RaiseHqc(st, RefIn(st.delivered, nblk), Cert(nblk)).(bLock := Higher(st.bLock, LockIn(k, st.delivered, nblk)))
  }

  /** The block that `nblk` makes a replica commit. */
  function CommitIn(k: Steps, delivered: set<Block>, nblk: Block): Block {
    LockIn(k, delivered, RefIn(delivered, nblk))
  }

  function ExecAfter(k: Steps, delivered: set<Block>, bExec: Block, nblk: Block): Block {
    if DirectChain(k, RefIn(delivered, nblk)) then Higher(bExec, CommitIn(k, delivered, nblk)) else bExec
  }

  function Update(k: Steps, st: Replica, nblk: Block): Replica {
    Lift(k, st, nblk).(bExec := ExecAfter(k, st.delivered, st.bExec, nblk))
  }

  /** `nblk` makes a replica commit a block that is not on one branch with `b_exec`. */
  predicate Conflicts(k: Steps, delivered: set<Block>, bExec: Block, nblk: Block) {
    DirectChain(k, RefIn(delivered, nblk)) && !Comparable(CommitIn(k, delivered, nblk), bExec)
  }

  /** The case in which the code throws "safety breached". */
  predicate Breach(k: Steps, st: Replica, nblk: Block) {
    Conflicts(k, st.delivered, st.bExec, nblk)
  }

  /** The last executed block when `update` returns or throws. */
  function ExecFrom(k: Steps, delivered: set<Block>, bExec: Block, nblk: Block): Block {
    if Conflicts(k, delivered, bExec, nblk) then bExec else ExecAfter(k, delivered, bExec, nblk)
  }

  /** What `update` has done when it returns or throws. */
  function Processed(k: Steps, st: Replica, nblk: Block): Replica {
    Lift(k, st, nblk).(bExec := ExecFrom(k, st.delivered, st.bExec, nblk))
  }

  // ---- voting ----

  predicate VoteRule(delivered: set<Block>, bLock: Block, b: Block) {
    Height(RefIn(delivered, b)) > Height(bLock) || Extends(b, bLock)
  }

  predicate Opinion(st: Replica, b: Block) {
    Height(b) > st.vheight && VoteRule(st.delivered, st.bLock, b)
  }

  // ---- the pacemaker's cache ----

  /** `t` is a highest tail among those that follow `hqc`, or `hqc` when none is higher. */
  predicate HighTail(tails: set<Block>, hqc: Block, t: Block) {
    && (t == hqc || (t in tails && Extends(t, hqc) && Height(t) > Height(hqc)))
    && forall u :: u in tails && Extends(u, hqc) ==> Height(u) <= Height(t)
  }

  predicate TailFollows(tails: set<Block>, hqc: Block, hqc': Block, tail: Block, tail': Block) {
    if hqc' == hqc then tail' == tail else HighTail(tails, hqc', tail')
  }

  /** The cache after a handler took `st` to `st1`: rescanned exactly if `hqc` changed. */
  predicate Rescanned(st: Replica, st1: Replica, tail: Block) {
    TailFollows(st.tails, st.hqc, st1.hqc, st.hqcTail, tail)
  }

  // ---- handlers ----

  function Deliver(st: Replica, b: Block): Replica {
    if b in st.delivered then st
    else st.(delivered := st.delivered + {b},
             tails := st.tails - (set p | p in Parents(b)) + {b})
  }

  /** `st` with more blocks delivered, as far as the judgement of a proposal goes. */
  function Having(st: Replica, more: set<Block>): Replica {
    st.(delivered := st.delivered + more)
  }

  predicate ParentsDelivered(delivered: set<Block>, b: Block) {
    forall p :: p in Parents(b) ==> p in delivered
  }

  /** The part of `on_receive_proposal` after `update`. */
  function Judge(st: Replica, b: Block): Replica {
    st.(vheight := if Opinion(st, b) then Height(b) else st.vheight,
        hqcTail := if Extends(b, st.hqc) && Height(b) > Height(st.hqcTail) then b else st.hqcTail)
  }

  /** A proposal of another replica, unless `update` throws. */
  ghost predicate ReceivesProposal(k: Steps, st: Replica, b: Block, st': Replica, vote: bool) {
    var st1 := Processed(k, st, b);
    && (vote <==> Opinion(st1, b) && !st.voteDisabled)
    && exists tail :: Rescanned(st, st1, tail) && st' == Judge(st1.(hqcTail := tail), b)
  }

  function NewBlock(st: Replica, parents: seq<Block>, cmds: seq<Command>, extra: seq<Byte>): Block
    requires parents != []
  {
    Node(parents[0], parents[1..], cmds, st.hqc, st.hqcCert, extra)
  }

  /** `on_propose` up to and including `on_deliver_blk`. */
  function Introduce(st: Replica, b: Block): Replica {
    Deliver(st.(tails := st.tails - (set p | p in Parents(b)), selfQc := st.selfQc[b := {}]), b)
  }

  /** A proposal of one's own that is higher than every block voted for. */
  predicate Proposes(k: Steps, st: Replica, b: Block, st': Replica, vote: bool) {
    var st1 := Processed(k, Introduce(st, b), b);
    && st' == Judge(st1, b).(hqcTail := b)
    && (vote <==> Opinion(st1, b) && !st.voteDisabled)
  }

  function VotedFor(st: Replica, b: Block): set<ReplicaID> {
    if b in st.voted then st.voted[b] else {}
  }

  function SelfQc(st: Replica, b: Block): set<ReplicaID> {
    if b in st.selfQc then st.selfQc[b] else {}
  }

  /** The vote is new and the quorum not yet complete. */
  predicate Counts(n: nat, st: Replica, voter: ReplicaID, b: Block) {
    |VotedFor(st, b)| < Majority(n) && voter !in VotedFor(st, b)
  }

  /** The vote completes the quorum. */
  predicate Completes(n: nat, st: Replica, voter: ReplicaID, b: Block) {
    Counts(n, st, voter, b) && |VotedFor(st, b)| + 1 == Majority(n)
  }

  function CountVote(n: nat, st: Replica, voter: ReplicaID, b: Block): Replica {
    if !Counts(n, st, voter, b) then st
    else
      var qc := SelfQc(st, b) + {voter};
      st.(voted := st.voted[b := VotedFor(st, b) + {voter}],
          selfQc := st.selfQc[b := qc],
          hqc := if Completes(n, st, voter, b) then Higher(st.hqc, b) else st.hqc,
          hqcCert := if Completes(n, st, voter, b) && Height(b) > Height(st.hqc) then qc else st.hqcCert)
  }

  ghost predicate ReceivesVote(n: nat, st: Replica, voter: ReplicaID, b: Block, st': Replica) {
    var st1 := CountVote(n, st, voter, b);
    exists tail :: Rescanned(st, st1, tail) && st' == st1.(hqcTail := tail)
  }

  // ---- the decisions of a replica ----

  /** One call of `do_decide`. */
  datatype Finality = Finality(rid: ReplicaID, index: nat, height: nat, cmd: Command, blk: Block)

  function BlockDecisions(id: ReplicaID, b: Block, count: nat): seq<Finality>
    requires b.Node? && count <= |b.cmds|
  {
    seq(count, i requires 0 <= i < count => Finality(id, i, Height(b), b.cmds[i], b))
  }

  /** Every command on the branch of `b`, oldest block first. */
  function Decisions(id: ReplicaID, b: Block): seq<Finality> {
    if b.Genesis? then [] else Decisions(id, b.parent) + BlockDecisions(id, b, |b.cmds|)
  }

  // ---- what each replica keeps ----

  /** No delivered block names `b` as a parent. */
  predicate Leaf(delivered: set<Block>, b: Block) {
    forall c :: c in delivered ==> b !in Parents(c)
  }

  predicate Grafted(delivered: set<Block>, b: Block) {
    QcOnBranch(b) && ParentsDelivered(delivered, b)
  }

  /** Delivered blocks come with their parents, and refer to blocks of their own branch. */
  ghost predicate TreeOk(delivered: set<Block>) {
    && Genesis in delivered
    && forall b {:trigger Grafted(delivered, b)} :: b in delivered ==> Grafted(delivered, b)
  }

  /** The tails are the leaves of the delivered tree. */
  ghost predicate TailsOk(delivered: set<Block>, tails: set<Block>) {
    forall b {:trigger b in tails} :: b in tails <==> b in delivered && Leaf(delivered, b)
  }

  /** Delivered blocks come with their parents. */
  ghost predicate Closed(delivered: set<Block>) {
    && Genesis in delivered
    && forall b {:trigger ParentsDelivered(delivered, b)} :: b in delivered ==> ParentsDelivered(delivered, b)
  }

  /** What each handler keeps whatever certificates name. */
  ghost predicate Loose(st: Replica) {
    && Closed(st.delivered)
    && TailsOk(st.delivered, st.tails)
    && st.hqc in st.delivered && st.bLock in st.delivered
    && st.bExec in st.delivered && st.hqcTail in st.delivered
    && Height(st.bExec) <= Height(st.bLock) && Height(st.bExec) <= Height(st.hqc)
    && Extends(st.hqcTail, st.hqc)
  }

  /** What holds between any two statements of a handler that matter, while certificates name ancestors. */
  ghost predicate Rooted(st: Replica) {
    Loose(st) && TreeOk(st.delivered) && Height(st.bLock) <= Height(st.hqc)
  }

  /** The invariant each handler keeps without looking at other replicas, while certificates name
      ancestors. */
  ghost predicate LocalInv(st: Replica) {
    Rooted(st) && (st.bLock == Genesis || Height(st.bLock) < st.vheight)
  }
}
