/** Building runs step by step: what one delivery, proposal, vote or signature makes of a
    reachable state. */
module Runs {
  import opened Blocks
  import opened Quorum
  import opened Replicas
  import opened Protocol

  lemma OneMoreStep(c: Config, s: System, s': System)
    requires Reachable(c, s) && Next(c, s, s')
    ensures Reachable(c, s')
  {
    var run :| Run(c, run) && run[|run| - 1] == s;
    var longer := run + [s'];
    forall i | 0 <= i < |longer| - 1 ensures Next(c, longer[i], longer[i + 1]) {
      if i < |run| - 1 {
        assert longer[i] == run[i] && longer[i + 1] == run[i + 1];
      }
    }
    assert Run(c, longer) && longer[|longer| - 1] == s';
  }

  /** A scan of the tails always has a result, so a proposal can always be processed. */
  lemma {:induction false} HighTailExists(tails: set<Block>, hqc: Block) returns (t: Block)
    ensures HighTail(tails, hqc, t)
    decreases tails
  {
    if tails == {} {
      t := hqc;
    } else {
      var x :| x in tails;
      t := HighTailExists(tails - {x}, hqc);
      if Extends(x, hqc) && Height(x) > Height(t) {
        t := x;
      }
      assert forall u :: u in tails ==> u == x || u in tails - {x};
    }
  }

  lemma RescanExists(st: Replica, st1: Replica) returns (t: Block)
    ensures Rescanned(st, st1, t)
  {
    if st1.hqc == st.hqc {
      t := st.hqcTail;
    } else {
      t := HighTailExists(st.tails, st1.hqc);
    }
  }

  lemma Start(c: Config) returns (s: System)
    ensures Reachable(c, s) && s.signed == {} && s.replicas.Keys == c.honest
    ensures forall r :: r in s.replicas ==> s.replicas[r] == InitReplica(c.n)
  {
    s := System(map r | r in c.honest :: InitReplica(c.n), {}, map[]);
    assert Run(c, [s]) && [s][|[s]| - 1] == s;
  }

  /** Only replica `r` has moved. */
  predicate OthersKept(s: System, s': System, r: ReplicaID) {
    && s'.replicas.Keys == s.replicas.Keys
    && forall q :: q in s.replicas && q != r ==> s'.replicas[q] == s.replicas[q]
  }

  /** `b` can be delivered by a replica with these delivered blocks. */
  predicate Deliverable(c: Config, signed: set<Ballot>, delivered: set<Block>, b: Block) {
    b.Node? && ParentsDelivered(delivered, b) && CertOk(c, signed, b)
  }

  lemma StepDeliver(c: Config, s: System, r: ReplicaID, b: Block) returns (s': System)
    requires Reachable(c, s) && r in c.honest && r in s.replicas
    requires Deliverable(c, s.signed, s.replicas[r].delivered, b)
    ensures Next(c, s, s') && Reachable(c, s') && OthersKept(s, s', r) && s'.signed == s.signed
    ensures r in s'.replicas && s'.replicas[r] == Deliver(s.replicas[r], b)
  {
    s' := s.(replicas := s.replicas[r := Deliver(s.replicas[r], b)]);
    assert DeliverStep(c, s, s', r, b);
    OneMoreStep(c, s, s');
  }

  lemma StepReceive(c: Config, s: System, r: ReplicaID, b: Block) returns (s': System, tail: Block)
    requires Reachable(c, s) && r in c.honest && r in s.replicas && b in s.replicas[r].delivered
    requires !Breach(c.steps, s.replicas[r], b)
    ensures Next(c, s, s') && Reachable(c, s') && OthersKept(s, s', r)
    ensures var st1 := Update(c.steps, s.replicas[r], b);
            && Rescanned(s.replicas[r], st1, tail)
            && r in s'.replicas && s'.replicas[r] == Judge(st1.(hqcTail := tail), b)
            && s'.signed == (if Opinion(st1, b) && !s.replicas[r].voteDisabled
                             then s.signed + {Ballot(r, b)} else s.signed)
  {
    var st := s.replicas[r];
    var st1 := Update(c.steps, st, b);
    tail := RescanExists(st, st1);
    var st' := Judge(st1.(hqcTail := tail), b);
    var vote := Opinion(st1, b) && !st.voteDisabled;
    s' := System(s.replicas[r := st'],
                 if vote then s.signed + {Ballot(r, b)} else s.signed,
                 if vote then s.locks[Ballot(r, b) := st'.bLock] else s.locks);
    assert ReceiveProposalStep(c, s, s', r, b, st', vote);
    OneMoreStep(c, s, s');
  }

  lemma StepPropose(c: Config, s: System, r: ReplicaID, cmds: seq<Command>) returns (s': System)
    requires Reachable(c, s) && r in c.honest && r in s.replicas
    requires Height(s.replicas[r].hqcTail) + 1 > s.replicas[r].vheight
    requires var st := s.replicas[r];
             var b := NewBlock(st, [st.hqcTail], cmds, []);
             !Breach(c.steps, Introduce(st, b), b)
    ensures Reachable(c, s') && OthersKept(s, s', r) && s.signed <= s'.signed
    ensures var st := s.replicas[r];
            var b := NewBlock(st, [st.hqcTail], cmds, []);
            r in s'.replicas && s'.replicas[r] == Judge(Update(c.steps, Introduce(st, b), b), b).(hqcTail := b)
  {
    var st := s.replicas[r];
    var b := NewBlock(st, [st.hqcTail], cmds, []);
    var st1 := Update(c.steps, Introduce(st, b), b);
    var st' := Judge(st1, b).(hqcTail := b);
    var vote := Opinion(st1, b) && !st.voteDisabled;
    s' := System(s.replicas[r := st'],
                 if vote then s.signed + {Ballot(r, b)} else s.signed,
                 if vote then s.locks[Ballot(r, b) := st'.bLock] else s.locks);
    assert ProposeStep(c, s, s', r, cmds, [], st', vote);
    OneMoreStep(c, s, s');
  }

  lemma StepVote(c: Config, s: System, r: ReplicaID, voter: ReplicaID, b: Block) returns (s': System, tail: Block)
    requires Reachable(c, s) && r in c.honest && r in s.replicas
    requires b in s.replicas[r].delivered && Ballot(voter, b) in s.signed
    ensures Reachable(c, s') && OthersKept(s, s', r) && s'.signed == s.signed
    ensures Rescanned(s.replicas[r], CountVote(c.n, s.replicas[r], voter, b), tail)
    ensures r in s'.replicas && s'.replicas[r] == CountVote(c.n, s.replicas[r], voter, b).(hqcTail := tail)
  {
    var st := s.replicas[r];
    tail := RescanExists(st, CountVote(c.n, st, voter, b));
    s' := s.(replicas := s.replicas[r := CountVote(c.n, st, voter, b).(hqcTail := tail)]);
    assert ReceiveVoteStep(c, s, s', r, voter, b, s'.replicas[r]);
    OneMoreStep(c, s, s');
  }

  lemma StepFaultySign(c: Config, s: System, f: ReplicaID, b: Block) returns (s': System)
    requires Reachable(c, s) && f in Ids(c.n) - c.honest
    ensures Reachable(c, s') && s'.replicas == s.replicas && s'.signed == s.signed + {Ballot(f, b)}
  {
    s' := s.(signed := s.signed + {Ballot(f, b)});
    assert FaultySignStep(c, s, s', f, b);
    OneMoreStep(c, s, s');
  }

  // ---- a replica that delivers and accepts a block ----

  /** Where a replica that may vote stands. */
  predicate Stands(st: Replica, hqc: Block, bLock: Block, bExec: Block, vheight: nat) {
    st.hqc == hqc && st.bLock == bLock && st.bExec == bExec && st.vheight == vheight && !st.voteDisabled
  }

  /** Where `update(b)` takes it once `b` is delivered, with a favourable opinion of `b`. */
  predicate Takes(k: Steps, st: Replica, b: Block, hqc: Block, bLock: Block, bExec: Block) {
    var st1 := Update(k, Deliver(st, b), b);
    && st1.hqc == hqc && st1.bLock == bLock && st1.bExec == bExec && Opinion(st1, b) && !st.voteDisabled
    && !Breach(k, Deliver(st, b), b)
  }

  /** A replica without locks accepts a new block that refers to genesis. */
  lemma TakesFresh(k: Steps, st: Replica, b: Block, vheight: nat)
    requires Stands(st, Genesis, Genesis, Genesis, vheight) && Ref(b) == Genesis && Height(b) > vheight
    ensures Takes(k, st, b, Genesis, Genesis, Genesis)
    ensures Update(k, st, b) == st && !Breach(k, st, b)
  {
    ExtendsGenesis(b);
  }

  lemma StepAccept(c: Config, s: System, r: ReplicaID, b: Block, hqc: Block, bLock: Block, bExec: Block)
    returns (s': System)
    requires Reachable(c, s) && r in c.honest && r in s.replicas
    requires Deliverable(c, s.signed, s.replicas[r].delivered, b)
    requires Takes(c.steps, s.replicas[r], b, hqc, bLock, bExec)
    ensures Reachable(c, s') && OthersKept(s, s', r) && s'.signed == s.signed + {Ballot(r, b)}
    ensures r in s'.replicas && Stands(s'.replicas[r], hqc, bLock, bExec, Height(b))
    ensures s'.replicas[r].delivered == s.replicas[r].delivered + {b}
  {
    var s1 := StepDeliver(c, s, r, b);
    var s2, tail := StepReceive(c, s1, r, b);
    s' := s2;
  }
}
