/** The system is never stuck: from the states of which `Liveness` says that a proposal suits everybody,
    the honest replicas alone can go on to decide any commands. */
module Continuation {
  import opened Blocks
  import opened Quorum
  import opened Replicas
  import opened Local
  import opened Protocol
  import opened Safety
  import opened Invariance
  import opened Liveness
  import opened Runs
  import opened Logs
  import opened Progress

  // ---- paths ----

  /** A step in which no faulty replica signs anything new. */
  ghost predicate Unaided(c: Config, s: System, s': System) {
    Next(c, s, s') && forall v :: v in s'.signed ==> v in s.signed || v.voter in c.honest
  }

  ghost predicate Path(c: Config, path: seq<System>) {
    path != [] && forall i :: 0 <= i < |path| - 1 ==> Unaided(c, path[i], path[i + 1])
  }

  /** The system can go from `s` to `s'` without help of faulty replicas. */
  ghost predicate Leads(c: Config, s: System, s': System) {
    exists path :: Path(c, path) && path[0] == s && path[|path| - 1] == s'
  }

  lemma LeadsNowhere(c: Config, s: System)
    ensures Leads(c, s, s)
  {
    assert Path(c, [s]) && [s][0] == s && [s][|[s]| - 1] == s;
  }

  lemma LeadsFurther(c: Config, s: System, s1: System, s2: System)
    requires Leads(c, s, s1) && Unaided(c, s1, s2)
    ensures Leads(c, s, s2)
  {
    var path :| Path(c, path) && path[0] == s && path[|path| - 1] == s1;
    var longer := path + [s2];
    forall i | 0 <= i < |longer| - 1 ensures Unaided(c, longer[i], longer[i + 1]) {
      if i < |path| - 1 {
        assert longer[i] == path[i] && longer[i + 1] == path[i + 1];
      }
    }
    assert Path(c, longer) && longer[0] == s && longer[|longer| - 1] == s2;
  }

  // ---- delivery to everybody ----

  /** `b` and all it rests on can be delivered anywhere. */
  predicate Verifiable(c: Config, signed: set<Ballot>, b: Block) {
    b.Genesis? ||
    (CertOk(c, signed, b) && QcOnBranch(b)
     && Verifiable(c, signed, b.parent) && forall x :: x in b.uncles ==> Verifiable(c, signed, x))
  }

  /** What has been delivered is verifiable if its certificates verify and name ancestors. */
  lemma {:induction false} DeliveredVerifiable(c: Config, signed: set<Ballot>, delivered: set<Block>, b: Block)
    requires TreeOk(delivered) && b in delivered && forall x :: x in delivered ==> CertOk(c, signed, x)
    ensures Verifiable(c, signed, b)
  {
    if b.Node? {
      assert Grafted(delivered, b) && b.parent in Parents(b);
      DeliveredVerifiable(c, signed, delivered, b.parent);
      forall x | x in b.uncles ensures Verifiable(c, signed, x) {
        assert x in Parents(b);
        DeliveredVerifiable(c, signed, delivered, x);
      }
    }
  }

  /** From `s` to `s'` blocks have been delivered, and nothing else has happened. */
  ghost predicate OnlyDelivers(c: Config, s: System, s': System) {
    && Leads(c, s, s') && Reachable(c, s') && AncestryOk(s')
    && s'.signed == s.signed && s'.replicas.Keys == s.replicas.Keys
    && forall r {:trigger s'.replicas[r]} :: r in s.replicas ==> MoreDelivered(s.replicas[r], s'.replicas[r])
  }

  predicate MoreDelivered(st: Replica, st': Replica) {
    && st' == st.(delivered := st'.delivered, tails := st'.tails)
    && st.delivered <= st'.delivered
  }

  lemma DeliverNext(c: Config, s0: System, s: System, r: ReplicaID, b: Block) returns (s': System)
    requires OnlyDelivers(c, s0, s) && r in c.honest && r in s.replicas
    requires Deliverable(c, s.signed, s.replicas[r].delivered, b) && QcOnBranch(b)
    ensures OnlyDelivers(c, s0, s') && OthersKept(s, s', r) && r in s'.replicas
    ensures s'.replicas[r].delivered == s.replicas[r].delivered + {b}
  {
    s' := StepDeliver(c, s, r, b);
    LeadsFurther(c, s0, s, s');
    forall q, x | q in s'.replicas && x in s'.replicas[q].delivered ensures QcOnBranch(x) {
      assert x in s.replicas[q].delivered || x == b;
    }
    forall q | q in s0.replicas ensures MoreDelivered(s0.replicas[q], s'.replicas[q]) {
      assert MoreDelivered(s0.replicas[q], s.replicas[q]);
    }
  }

  /** From `s` to `s'` only replica `r` has delivered. */
  ghost predicate DeliversAt(c: Config, s0: System, s: System, s': System, r: ReplicaID) {
    && OnlyDelivers(c, s0, s') && s'.signed == s.signed && OthersKept(s, s', r)
    && r in s.replicas && r in s'.replicas && s.replicas[r].delivered <= s'.replicas[r].delivered
  }

  lemma DeliversTwice(c: Config, s0: System, s: System, s1: System, s2: System, r: ReplicaID)
    requires DeliversAt(c, s0, s, s1, r) && DeliversAt(c, s0, s1, s2, r)
    ensures DeliversAt(c, s0, s, s2, r)
  {
  }

  /** Replica `r` delivers `b` and all it rests on. */
  lemma {:induction false} DeliverWithAncestors(c: Config, s0: System, s: System, r: ReplicaID, b: Block)
    returns (s': System)
    requires OnlyDelivers(c, s0, s) && r in c.honest && r in s.replicas && Genesis in s.replicas[r].delivered
    requires Verifiable(c, s.signed, b)
    ensures DeliversAt(c, s0, s, s', r) && b in s'.replicas[r].delivered
    decreases b, 1
  {
    if b in s.replicas[r].delivered {
      s' := s;
    } else {
      var s1 := DeliverParents(c, s0, s, r, b, |Parents(b)|);
      assert Parents(b)[..|Parents(b)|] == Parents(b);
      s' := DeliverNext(c, s0, s1, r, b);
      DeliversTwice(c, s0, s, s1, s', r);
    }
  }

  lemma {:induction false} DeliverParents(c: Config, s0: System, s: System, r: ReplicaID, b: Block, i: nat)
    returns (s': System)
    requires OnlyDelivers(c, s0, s) && r in c.honest && r in s.replicas && Genesis in s.replicas[r].delivered
    requires Verifiable(c, s.signed, b) && i <= |Parents(b)|
    ensures DeliversAt(c, s0, s, s', r) && forall p :: p in Parents(b)[..i] ==> p in s'.replicas[r].delivered
    decreases b, 0, i
  {
    if i == 0 {
      s' := s;
    } else {
      var p := Parents(b)[i - 1];
      var s1 := DeliverParents(c, s0, s, r, b, i - 1);
      ParentVerifiable(c, s.signed, b, p);
      s' := DeliverWithAncestors(c, s0, s1, r, p);
      DeliversTwice(c, s0, s, s1, s', r);
      OneMoreParent(Parents(b), i, s1.replicas[r].delivered, s'.replicas[r].delivered);
    }
  }

  lemma ParentVerifiable(c: Config, signed: set<Ballot>, b: Block, p: Block)
    requires Verifiable(c, signed, b) && p in Parents(b)
    ensures Verifiable(c, signed, p)
  {
  }

  lemma OneMoreParent(ps: seq<Block>, i: nat, have: set<Block>, have': set<Block>)
    requires 0 < i <= |ps| && have <= have' && ps[i - 1] in have'
    requires forall p :: p in ps[..i - 1] ==> p in have
    ensures forall p :: p in ps[..i] ==> p in have'
  {
    assert ps[..i] == ps[..i - 1] + [ps[i - 1]];
  }

  lemma {:induction false} DeliverToAll(c: Config, s0: System, s: System, todo: set<ReplicaID>, b: Block)
    returns (s': System)
    requires OnlyDelivers(c, s0, s) && todo <= c.honest && todo <= s.replicas.Keys
    requires forall r :: r in todo ==> Genesis in s.replicas[r].delivered
    requires Verifiable(c, s.signed, b)
    ensures OnlyDelivers(c, s0, s') && s'.replicas.Keys == s.replicas.Keys
    ensures forall r :: r in s.replicas && r !in todo ==> s'.replicas[r] == s.replicas[r]
    ensures forall r :: r in todo ==> b in s'.replicas[r].delivered
    decreases todo
  {
    s' := s;
    if todo != {} {
      var r :| r in todo;
      var s1 := DeliverWithAncestors(c, s0, s, r, b);
      s' := DeliverToAll(c, s0, s1, todo - {r}, b);
    }
  }

  // ---- votes of everybody ----

  /** The replica has delivered `b` and will vote for it. */
  predicate WillTake(k: Steps, st: Replica, b: Block) {
    b.Node? && b in st.delivered && !st.voteDisabled && Opinion(Update(k, st, b), b)
  }

  /** It has done so. */
  predicate HasTaken(k: Steps, st: Replica, b: Block, st': Replica) {
    && Heard(k, st, b, st', true) && st'.voteDisabled == st.voteDisabled
    && (Commits(k, st.delivered, b) ==> Extends(st'.bExec, Bottom(k, b)))
  }

  lemma Take(c: Config, s0: System, s: System, r: ReplicaID, b: Block) returns (s': System)
    requires ValidConfig(c) && Reachable(c, s) && Leads(c, s0, s) && AncestryOk(s)
    requires r in c.honest && r in s.replicas && WillTake(c.steps, s.replicas[r], b)
    ensures Reachable(c, s') && Leads(c, s0, s') && AncestryOk(s')
    ensures OthersKept(s, s', r) && s'.signed == s.signed + {Ballot(r, b)}
    ensures r in s'.replicas && HasTaken(c.steps, s.replicas[r], b, s'.replicas[r])
  {
    Unbreached(c, s, r, b);
    var s1, tail := StepReceive(c, s, r, b);
    s' := s1;
    LeadsFurther(c, s0, s, s');
    ReceiveTakes(c.steps, s.replicas[r], b, tail, s'.replicas[r]);
    SameDelivered(s, s', r);
  }

  lemma Unbreached(c: Config, s: System, r: ReplicaID, b: Block)
    requires ValidConfig(c) && Reachable(c, s) && AncestryOk(s) && r in s.replicas && b in s.replicas[r].delivered
    ensures LocalInv(s.replicas[r]) && !Breach(c.steps, s.replicas[r], b)
  {
    ReachableInv(c, s);
    InvSafe(c, s);
    NoBreach(c, s, r, b);
  }

  lemma ReceiveTakes(k: Steps, st: Replica, b: Block, tail: Block, st': Replica)
    requires Closed(st.delivered) && !Breach(k, st, b) && WillTake(k, st, b)
    requires Rescanned(st, Update(k, st, b), tail) && st' == Judge(Update(k, st, b).(hqcTail := tail), b)
    ensures HasTaken(k, st, b, st')
  {
    BreachMeans(k, st, b);
    assert Processed(k, st, b) == Update(k, st, b);
    HeardAt(k, st, b, tail, st', true);
  }

  lemma SameDelivered(s: System, s': System, r: ReplicaID)
    requires AncestryOk(s) && OthersKept(s, s', r) && r in s.replicas && s'.replicas[r].delivered == s.replicas[r].delivered
    ensures AncestryOk(s')
  {
    forall q, x | q in s'.replicas && x in s'.replicas[q].delivered ensures QcOnBranch(x) {
      assert x in s.replicas[q].delivered;
    }
  }

  lemma {:induction false} AllTake(c: Config, s0: System, s: System, todo: set<ReplicaID>, b: Block) returns (s': System)
    requires ValidConfig(c) && Reachable(c, s) && Leads(c, s0, s) && AncestryOk(s)
    requires todo <= c.honest && todo <= s.replicas.Keys
    requires forall r :: r in todo ==> WillTake(c.steps, s.replicas[r], b)
    ensures Reachable(c, s') && Leads(c, s0, s') && AncestryOk(s')
    ensures s'.replicas.Keys == s.replicas.Keys && s.signed <= s'.signed
    ensures forall r :: r in s.replicas && r !in todo ==> s'.replicas[r] == s.replicas[r]
    ensures forall r :: r in todo ==> Ballot(r, b) in s'.signed && HasTaken(c.steps, s.replicas[r], b, s'.replicas[r])
    decreases todo
  {
    s' := s;
    if todo != {} {
      var r :| r in todo;
      var s1 := Take(c, s0, s, r, b);
      s' := AllTake(c, s0, s1, todo - {r}, b);
      forall q | q in todo
        ensures Ballot(q, b) in s'.signed && HasTaken(c.steps, s.replicas[q], b, s'.replicas[q])
      {
        assert q == r || (q in todo - {r} && s1.replicas[q] == s.replicas[q]);
      }
    }
  }

  // ---- rounds ----

  lemma {:induction false} VerifiableGrows(c: Config, signed: set<Ballot>, signed': set<Ballot>, b: Block)
    requires signed <= signed' && Verifiable(c, signed, b)
    ensures Verifiable(c, signed', b)
  {
    if b.Node? {
      assert Voters(signed, Ref(b)) <= Voters(signed', Ref(b));
      VerifiableGrows(c, signed, signed', b.parent);
      forall x | x in b.uncles ensures Verifiable(c, signed', x) {
        VerifiableGrows(c, signed, signed', x);
      }
    }
  }

  /** Every honest replica has voted for `b` and for nothing above it. */
  ghost predicate Aligned(c: Config, s0: System, s: System, b: Block) {
    && Reachable(c, s) && Leads(c, s0, s) && AncestryOk(s) && s.replicas.Keys == c.honest
    && b.Node? && Verifiable(c, s.signed, b)
    && forall r {:trigger AlignedAt(s, r, b)} :: r in c.honest ==> AlignedAt(s, r, b)
  }

  predicate AlignedAt(s: System, r: ReplicaID, b: Block) {
    && r in s.replicas && s.replicas[r].vheight == Height(b)
    && b in s.replicas[r].delivered && !s.replicas[r].voteDisabled && Ballot(r, b) in s.signed
  }

  /** The block that carries the certificate of the honest replicas for `b`. */
  function Child(c: Config, b: Block, cmds: seq<Command>): (child: Block)
    ensures child.Node? && child.parent == b && Ref(child) == b && child.cmds == cmds && Height(child) == Height(b) + 1
  {
    Node(b, [], cmds, b, c.honest, [])
  }

  /** Whoever has voted for `b` last accepts its child. */
  lemma ChildAccepted(k: Steps, st: Replica, b: Block, child: Block)
    requires LocalInv(st) && b.Node? && b in st.delivered && st.vheight == Height(b)
    requires child.Node? && child.parent == b && child.qcRef == b
    ensures Opinion(Update(k, st, child), child)
  {
    RefDelivered(st.delivered, b);
    assert RefIn(st.delivered, child) == b;
    assert Extends(child, b);
  }

  lemma ChildVerifiable(c: Config, s0: System, s: System, b: Block, cmds: seq<Command>)
    requires ValidConfig(c) && Aligned(c, s0, s, b)
    ensures Verifiable(c, s.signed, Child(c, b, cmds))
  {
    forall r | r in c.honest ensures r in Voters(s.signed, b) {
      assert AlignedAt(s, r, b);
    }
  }

  /** Everybody delivers `b`, is found willing to vote for it, and votes. */
  lemma Round(c: Config, s0: System, s: System, b: Block) returns (s': System)
    requires ValidConfig(c) && Reachable(c, s) && Leads(c, s0, s) && AncestryOk(s) && s.replicas.Keys == c.honest
    requires b.Node? && Verifiable(c, s.signed, b)
    requires forall r :: r in c.honest ==> b in s.replicas[r].delivered && WillTake(c.steps, s.replicas[r], b)
    ensures Aligned(c, s0, s', b)
    ensures forall r :: r in c.honest ==> HasTaken(c.steps, s.replicas[r], b, s'.replicas[r])
  {
    s' := AllTake(c, s0, s, c.honest, b);
    VerifiableGrows(c, s.signed, s'.signed, b);
    forall r | r in c.honest ensures AlignedAt(s', r, b) {
      assert HasTaken(c.steps, s.replicas[r], b, s'.replicas[r]);
    }
  }

  lemma {:induction false} LeadsOn(c: Config, s: System, s1: System, path: seq<System>)
    requires Leads(c, s, s1) && Path(c, path) && path[0] == s1
    ensures Leads(c, s, path[|path| - 1])
    decreases |path|
  {
    if |path| > 1 {
      var shorter := path[..|path| - 1];
      assert Path(c, shorter) && shorter[0] == s1;
      LeadsOn(c, s, s1, shorter);
      assert Unaided(c, path[|path| - 2], path[|path| - 2 + 1]);
      LeadsFurther(c, s, shorter[|shorter| - 1], path[|path| - 1]);
    }
  }

  lemma LeadsTransitive(c: Config, s: System, s1: System, s2: System)
    requires Leads(c, s, s1) && Leads(c, s1, s2)
    ensures Leads(c, s, s2)
  {
    var path :| Path(c, path) && path[0] == s1 && path[|path| - 1] == s2;
    LeadsOn(c, s, s1, path);
  }

  /** Everybody delivers `b` with its ancestors. */
  lemma DeliverEverywhere(c: Config, s: System, b: Block) returns (s': System)
    requires ValidConfig(c) && Reachable(c, s) && AncestryOk(s) && Verifiable(c, s.signed, b)
    ensures OnlyDelivers(c, s, s') && s'.replicas.Keys == s.replicas.Keys == c.honest
    ensures forall r :: r in c.honest ==>
              && b in s'.replicas[r].delivered && LocalInv(s'.replicas[r])
              && MoreDelivered(s.replicas[r], s'.replicas[r])
  {
    ReachableInv(c, s);
    LeadsNowhere(c, s);
    assert OnlyDelivers(c, s, s);
    s' := DeliverToAll(c, s, s, c.honest, b);
    ReachableInv(c, s');
    forall r | r in c.honest ensures LocalInv(s'.replicas[r]) && MoreDelivered(s.replicas[r], s'.replicas[r]) {
      assert s'.replicas[r] == s'.replicas[r];
    }
  }

  /** One more round, on a block with these commands. */
  lemma NextRound(c: Config, s0: System, s: System, b: Block, cmds: seq<Command>) returns (s': System)
    requires ValidConfig(c) && Aligned(c, s0, s, b)
    ensures Aligned(c, s0, s', Child(c, b, cmds))
    ensures Closes(c.steps, Child(c, b, cmds)) ==>
              forall r :: r in c.honest ==> Extends(s'.replicas[r].bExec, Bottom(c.steps, Child(c, b, cmds)))
  {
    var child := Child(c, b, cmds);
    ChildVerifiable(c, s0, s, b, cmds);
    var s1 := DeliverEverywhere(c, s, child);
    LeadsTransitive(c, s0, s, s1);
    forall r | r in c.honest ensures WillTake(c.steps, s1.replicas[r], child) && b in s1.replicas[r].delivered {
      assert AlignedAt(s, r, b) && MoreDelivered(s.replicas[r], s1.replicas[r]);
      ChildAccepted(c.steps, s1.replicas[r], b, child);
    }
    s' := Round(c, s0, s1, child);
    forall r | r in c.honest && Closes(c.steps, child)
      ensures Extends(s'.replicas[r].bExec, Bottom(c.steps, child))
    {
      assert HasTaken(c.steps, s1.replicas[r], child, s'.replicas[r]);
    }
  }

  // ---- the first round ----

  lemma {:induction false} TowerVerifiable(c: Config, signed: set<Ballot>, b: Block, h: Block)
    requires DeliverableFrom(c, signed, b, h) && Verifiable(c, signed, h)
    ensures Verifiable(c, signed, b)
  {
    if b != h {
      TowerVerifiable(c, signed, b.parent, h);
    }
  }

  /** What a replica would accept it accepts once it has delivered it. */
  lemma AcceptedOnceDelivered(k: Steps, st: Replica, st': Replica, h: Block, b: Block)
    requires Closed(st'.delivered) && b in st'.delivered && MoreDelivered(st, st')
    requires OnTopOf(b, h) && QcOnBranch(h) && Accepts(k, st, b)
    ensures Opinion(Update(k, st', b), b)
  {
    RefBelow(h);
    AncestorsSeen(k, st, h, b);
    ExtendsTransitive(b, b.parent, h);
    ExtendsTransitive(b, h, Ref(h));
    ChainIsAncestors(b, h);
    ChainIsAncestors(b, Ref(h));
    AncestorsDelivered(st'.delivered, b, h);
    AncestorsDelivered(st'.delivered, b, Ref(h));
    var more := st.delivered + Chain(b);
    assert RefIn(st'.delivered, b) == RefIn(more, b) && LockIn(k, st'.delivered, b) == LockIn(k, more, b);
  }

  lemma FirstRound(c: Config, s: System, m: ReplicaID, b: Block) returns (s': System)
    requires ValidConfig(c) && Reachable(c, s) && AncestryOk(s) && m in c.honest && m in s.replicas
    requires s.replicas.Keys == c.honest && forall r :: r in c.honest ==> !s.replicas[r].voteDisabled
    requires Verifiable(c, s.signed, s.replicas[m].hqc) && QcOnBranch(s.replicas[m].hqc)
    requires Candidate(c, s.signed, s.replicas[m], b) && AcceptedBy(c, s, c.honest, b)
    ensures Aligned(c, s, s', b)
  {
    var h := s.replicas[m].hqc;
    TowerVerifiable(c, s.signed, b, h);
    var s1 := DeliverEverywhere(c, s, b);
    forall r | r in c.honest ensures WillTake(c.steps, s1.replicas[r], b) && b in s1.replicas[r].delivered {
      AcceptedOnceDelivered(c.steps, s.replicas[r], s1.replicas[r], h, b);
    }
    s' := Round(c, s, s1, b);
  }

  // ---- the theorem ----

  /** All certificates that replica `m` has delivered verify, and nobody has been told not to vote. */
  predicate InOrder(c: Config, s: System, m: ReplicaID) {
    && m in s.replicas && (forall b :: b in s.replicas[m].delivered ==> CertOk(c, s.signed, b))
    && forall r :: r in s.replicas ==> !s.replicas[r].voteDisabled
  }

  /** All honest replicas have decided these commands, in a block above everything they had voted for. */
  ghost predicate AllDecide(c: Config, s: System, s': System, x: Block, cmds: seq<Command>) {
    && x.Node? && x.cmds == cmds
    && forall r :: r in c.honest ==>
         && r in s.replicas && r in s'.replicas && Height(x) > s.replicas[r].vheight
         && Logged(r, x, Decisions(r, s'.replicas[r].bExec))
  }

  /** Four rounds on top of a block that everybody has voted for decide the commands of the first. */
  lemma FourRounds(c: Config, s0: System, s: System, b: Block, cmds: seq<Command>) returns (s': System)
    requires ValidConfig(c) && Aligned(c, s0, s, b)
    ensures Reachable(c, s') && Leads(c, s0, s') && AncestryOk(s') && s'.replicas.Keys == c.honest
    ensures forall r :: r in c.honest ==> Extends(s'.replicas[r].bExec, Child(c, b, cmds))
  {
    var x := Child(c, b, cmds);
    var s1 := NextRound(c, s0, s, b, cmds);
    var s2 := NextRound(c, s0, s1, x, []);
    var s3 := NextRound(c, s0, s2, Child(c, x, []), []);
    var last := Child(c, Child(c, Child(c, x, []), []), []);
    s' := NextRound(c, s0, s3, Child(c, Child(c, x, []), []), []);
    assert Closes(c.steps, last) && Extends(Bottom(c.steps, last), x);
    forall r | r in c.honest ensures Extends(s'.replicas[r].bExec, x) {
      ExtendsTransitive(s'.replicas[r].bExec, Bottom(c.steps, last), x);
    }
  }

  lemma HqcVerifiable(c: Config, s: System, m: ReplicaID)
    requires ValidConfig(c) && Reachable(c, s) && AncestryOk(s) && m in c.honest && InOrder(c, s, m)
    ensures Verifiable(c, s.signed, s.replicas[m].hqc) && QcOnBranch(s.replicas[m].hqc)
    ensures s.replicas.Keys == c.honest
  {
    ReachableInv(c, s);
    var st := s.replicas[m];
    assert LocalInv(st) && st.hqc in st.delivered && Grafted(st.delivered, st.hqc);
    DeliveredVerifiable(c, s.signed, st.delivered, st.hqc);
  }

  lemma DecidedBy(c: Config, s: System, s': System, b: Block, x: Block, cmds: seq<Command>)
    requires s.replicas.Keys == c.honest && s'.replicas.Keys == c.honest && AcceptedBy(c, s, c.honest, b)
    requires x.Node? && x.cmds == cmds && Height(x) > Height(b)
    requires forall r :: r in c.honest ==> Extends(s'.replicas[r].bExec, x)
    ensures AllDecide(c, s, s', x, cmds)
  {
    forall r | r in c.honest
      ensures Height(x) > s.replicas[r].vheight && Logged(r, x, Decisions(r, s'.replicas[r].bExec))
    {
      assert Accepts(c.steps, s.replicas[r], b);
      ExecutedIsLogged(r, s'.replicas[r].bExec, x);
    }
  }

  /** In either build: whenever some proposal of replica `m` suits every honest replica and what `m` has
      delivered verifies, the honest replicas can go on, without the faulty ones, to decide any
      commands. */
  lemma CanDecide(c: Config, s: System, m: ReplicaID, cmds: seq<Command>) returns (s': System, x: Block)
    requires ValidConfig(c) && Reachable(c, s) && AncestryOk(s) && m in c.honest && InOrder(c, s, m)
    requires s.replicas.Keys == c.honest && HasCommonProposal(c, s, m, c.honest)
    ensures Leads(c, s, s') && Reachable(c, s') && AncestryOk(s') && AllDecide(c, s, s', x, cmds)
  {
    HqcVerifiable(c, s, m);
    var b :| Candidate(c, s.signed, s.replicas[m], b) && AcceptedBy(c, s, c.honest, b);
    var s1 := FirstRound(c, s, m, b);
    s' := FourRounds(c, s, s1, b, cmds);
    x := Child(c, b, cmds);
    DecidedBy(c, s, s', b, x, cmds);
  }

  /** Three-step build: from every reachable state whose delivered certificates name ancestors, if the
      replica with the highest `hqc` among the honest members of a majority holds a complete
      certificate for it. */
  lemma HighestCanDecide(c: Config, s: System, quorum: set<ReplicaID>, m: ReplicaID, cmds: seq<Command>)
    returns (s': System, x: Block)
    requires ValidConfig(c) && Reachable(c, s) && AncestryOk(s) && c.steps == ThreeStep
    requires quorum <= Ids(c.n) && |quorum| >= Majority(c.n) && HighestHqc(c, s, quorum, m)
    requires InOrder(c, s, m) && Presentable(c, s.replicas[m])
    ensures Leads(c, s, s') && Reachable(c, s') && AncestryOk(s') && AllDecide(c, s, s', x, cmds)
  {
    HighestProposes(c, s, quorum, m);
    s', x := CanDecide(c, s, m, cmds);
  }

  /** In either build: if that holds for replica `m` and the locks above its `hqc` lie on one branch that
      can be delivered. */
  lemma AgreedLocksCanDecide(c: Config, s: System, m: ReplicaID, cmds: seq<Command>) returns (s': System, x: Block)
    requires ValidConfig(c) && Reachable(c, s) && AncestryOk(s) && m in c.honest && s.replicas.Keys == c.honest
    requires InOrder(c, s, m) && Presentable(c, s.replicas[m])
    requires LocksOnOneBranch(c, s, c.honest, s.replicas[m].hqc)
    ensures Leads(c, s, s') && Reachable(c, s') && AncestryOk(s') && AllDecide(c, s, s', x, cmds)
  {
    AcceptableIffLocksOnOneBranch(c, s, m, c.honest);
    s', x := CanDecide(c, s, m, cmds);
  }
}
