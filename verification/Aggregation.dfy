/** How votes for one block add up to a quorum certificate, over any run of votes and proposals. */
module Aggregation {
  import opened Blocks
  import opened Quorum
  import opened Replicas

  /** A counted vote (`on_receive_vote`), or a fresh `self_qc` for an own proposal (`on_propose`). */
  datatype Event = Vote(voter: ReplicaID, blk: Block) | Create(blk: Block)

  function Apply(n: nat, st: Replica, e: Event): Replica {
    match e
    case Vote(voter, blk) => CountVote(n, st, voter, blk)
    case Create(blk) => st.(selfQc := st.selfQc[blk := {}])
  }

  function StateAt(n: nat, st: Replica, es: seq<Event>, i: nat): Replica
    requires i <= |es|
  {
    if i == 0 then st else Apply(n, StateAt(n, st, es, i - 1), es[i - 1])
  }

  /** Event `i` completes the certificate of `b`. */
  predicate FormsAt(n: nat, st: Replica, es: seq<Event>, i: nat, b: Block)
    requires i < |es|
  {
    es[i].Vote? && es[i].blk == b && Completes(n, StateAt(n, st, es, i), es[i].voter, b)
  }

  /** The distinct voters for `b` among the first `i` events. */
  function VotersIn(es: seq<Event>, i: nat, b: Block): set<ReplicaID>
    requires i <= |es|
  {
    if i == 0 then {}
    else if es[i - 1].Vote? && es[i - 1].blk == b then VotersIn(es, i - 1, b) + {es[i - 1].voter}
    else VotersIn(es, i - 1, b)
  }

  // ---- what a run does to one block ----

  /** The voters counted for a block and the signatures its certificate carries. */
  datatype Box = Box(voted: set<ReplicaID>, qc: set<ReplicaID>)

  function BoxOf(st: Replica, b: Block): Box {
    Box(VotedFor(st, b), SelfQc(st, b))
  }

  function BoxStep(n: nat, box: Box, e: Event, b: Block): Box {
    if e.blk != b then box
    else match e
      case Create(_) => box.(qc := {})
      case Vote(voter, _) =>
        if |box.voted| < Majority(n) && voter !in box.voted
        then Box(box.voted + {voter}, box.qc + {voter})
        else box
  }

  function BoxAt(n: nat, es: seq<Event>, i: nat, b: Block): Box
    requires i <= |es|
  {
    if i == 0 then Box({}, {}) else BoxStep(n, BoxAt(n, es, i - 1, b), es[i - 1], b)
  }

  lemma ApplyIsBoxStep(n: nat, st: Replica, e: Event, b: Block)
    ensures BoxOf(Apply(n, st, e), b) == BoxStep(n, BoxOf(st, b), e, b)
  {
  }

  lemma {:induction false} StateHasBox(n: nat, st: Replica, es: seq<Event>, i: nat, b: Block)
    requires i <= |es| && BoxOf(st, b) == Box({}, {})
    ensures BoxOf(StateAt(n, st, es, i), b) == BoxAt(n, es, i, b)
  {
    if i > 0 {
      StateHasBox(n, st, es, i - 1, b);
      ApplyIsBoxStep(n, StateAt(n, st, es, i - 1), es[i - 1], b);
    }
  }

  /** Event `i` is the vote that fills the box. */
  predicate FillsAt(n: nat, es: seq<Event>, i: nat, b: Block)
    requires i < |es|
  {
    |BoxAt(n, es, i, b).voted| < Majority(n) && |BoxAt(n, es, i + 1, b).voted| >= Majority(n)
  }

  lemma FormsIsFills(n: nat, st: Replica, es: seq<Event>, i: nat, b: Block)
    requires i < |es| && BoxOf(st, b) == Box({}, {})
    ensures FormsAt(n, st, es, i, b) <==> FillsAt(n, es, i, b)
  {
    StateHasBox(n, st, es, i, b);
  }

  /** No event changes the voters of a full box. */
  lemma FullStays(n: nat, box: Box, e: Event, b: Block)
    requires |box.voted| >= Majority(n)
    ensures BoxStep(n, box, e, b).voted == box.voted
  {
  }

  lemma {:induction false} BoxSteady(n: nat, es: seq<Event>, i: nat, j: nat, b: Block)
    requires i <= j <= |es| && |BoxAt(n, es, i, b).voted| >= Majority(n)
    ensures BoxAt(n, es, j, b).voted == BoxAt(n, es, i, b).voted
  {
    if i < j {
      BoxSteady(n, es, i, j - 1, b);
      FullStays(n, BoxAt(n, es, j - 1, b), es[j - 1], b);
    }
  }

  /** Until the quorum is complete `voted` holds every voter; then it stops growing. */
  predicate HoldsVoters(n: nat, voted: set<ReplicaID>, voters: set<ReplicaID>) {
    voted <= voters && |voted| <= Majority(n) && (|voted| < Majority(n) ==> voted == voters)
  }

  lemma OneMoreVoter(n: nat, voted: set<ReplicaID>, voters: set<ReplicaID>, r: ReplicaID)
    requires HoldsVoters(n, voted, voters)
    ensures |voted| < Majority(n) && r !in voted ==> HoldsVoters(n, voted + {r}, voters + {r})
    ensures !(|voted| < Majority(n) && r !in voted) ==> HoldsVoters(n, voted, voters + {r})
  {
  }

  lemma {:induction false} BoxHoldsVoters(n: nat, es: seq<Event>, i: nat, b: Block)
    requires i <= |es|
    ensures HoldsVoters(n, BoxAt(n, es, i, b).voted, VotersIn(es, i, b))
  {
    if i > 0 {
      BoxHoldsVoters(n, es, i - 1, b);
      if es[i - 1].Vote? && es[i - 1].blk == b {
        OneMoreVoter(n, BoxAt(n, es, i - 1, b).voted, VotersIn(es, i - 1, b), es[i - 1].voter);
      }
    }
  }

  lemma {:induction false} FillsBefore(n: nat, es: seq<Event>, i: nat, b: Block) returns (k: nat)
    requires n > 0 && i <= |es| && |BoxAt(n, es, i, b).voted| >= Majority(n)
    ensures k < i && FillsAt(n, es, k, b)
  {
    if |BoxAt(n, es, i - 1, b).voted| >= Majority(n) {
      k := FillsBefore(n, es, i - 1, b);
    } else {
      k := i - 1;
    }
  }

  // ---- the theorems ----

  /** A block gets at most one certificate. */
  lemma CertificateFormsOnce(n: nat, st: Replica, es: seq<Event>, i: nat, j: nat, b: Block)
    requires i < |es| && j < |es| && BoxOf(st, b) == Box({}, {})
    requires FormsAt(n, st, es, i, b) && FormsAt(n, st, es, j, b)
    ensures i == j
  {
    FormsIsFills(n, st, es, i, b);
    FormsIsFills(n, st, es, j, b);
    if i < j {
      BoxSteady(n, es, i + 1, j, b);
    } else if j < i {
      BoxSteady(n, es, j + 1, i, b);
    }
  }

  /** It gets one exactly if a majority of distinct replicas vote for it. */
  lemma CertificateFormsIff(n: nat, st: Replica, es: seq<Event>, b: Block)
    requires n > 0 && BoxOf(st, b) == Box({}, {})
    ensures (exists i :: 0 <= i < |es| && FormsAt(n, st, es, i, b)) <==> |VotersIn(es, |es|, b)| >= Majority(n)
  {
    BoxHoldsVoters(n, es, |es|, b);
    if |VotersIn(es, |es|, b)| >= Majority(n) {
      var k := FillsBefore(n, es, |es|, b);
      FormsIsFills(n, st, es, k, b);
    }
    forall i | 0 <= i < |es| && FormsAt(n, st, es, i, b)
      ensures |VotersIn(es, |es|, b)| >= Majority(n)
    {
      FormsIsFills(n, st, es, i, b);
      BoxSteady(n, es, i + 1, |es|, b);
      SubsetSize(BoxAt(n, es, |es|, b).voted, VotersIn(es, |es|, b));
    }
  }

  /** Before event `i`, no certificate of `b` is started afresh once a vote for `b` has been counted. */
  predicate NotRestarted(n: nat, st: Replica, es: seq<Event>, i: nat, b: Block)
    requires i <= |es|
  {
    forall j :: 0 <= j < i && es[j] == Create(b) ==> VotedFor(StateAt(n, st, es, j), b) == {}
  }

  predicate BoxNotRestarted(n: nat, es: seq<Event>, i: nat, b: Block)
    requires i <= |es|
  {
    i == 0 || (BoxNotRestarted(n, es, i - 1, b) && (es[i - 1] == Create(b) ==> BoxAt(n, es, i - 1, b).voted == {}))
  }

  lemma {:induction false} NotRestartedIsBox(n: nat, st: Replica, es: seq<Event>, i: nat, b: Block)
    requires i <= |es| && BoxOf(st, b) == Box({}, {})
    ensures NotRestarted(n, st, es, i, b) <==> BoxNotRestarted(n, es, i, b)
  {
    if i > 0 {
      NotRestartedIsBox(n, st, es, i - 1, b);
      StateHasBox(n, st, es, i - 1, b);
      assert NotRestarted(n, st, es, i, b) <==>
               NotRestarted(n, st, es, i - 1, b)
               && (es[i - 1] == Create(b) ==> VotedFor(StateAt(n, st, es, i - 1), b) == {});
    }
  }

  lemma {:induction false} QcTracksVoted(n: nat, es: seq<Event>, i: nat, b: Block)
    requires i <= |es|
    ensures var box := BoxAt(n, es, i, b);
            && box.qc <= box.voted
            && (box.qc == box.voted <==> BoxNotRestarted(n, es, i, b))
  {
    if i > 0 {
      QcTracksVoted(n, es, i - 1, b);
    }
  }

  lemma ProperSubsetSmaller(a: set<ReplicaID>, b: set<ReplicaID>)
    requires a <= b
    ensures |a| <= |b| && (|a| == |b| <==> a == b)
  {
    SubsetSize(a, b);
    if a != b {
      var x :| x in b && x !in a;
      SubsetSize(a, b - {x});
    }
  }

  lemma FilledBox(n: nat, es: seq<Event>, i: nat, b: Block)
    requires i < |es| && FillsAt(n, es, i, b)
    ensures var qc := BoxAt(n, es, i + 1, b).qc;
            && qc <= VotersIn(es, i + 1, b) && |qc| <= Majority(n)
            && (|qc| == Majority(n) <==> BoxNotRestarted(n, es, i, b))
  {
    BoxHoldsVoters(n, es, i + 1, b);
    QcTracksVoted(n, es, i + 1, b);
    ProperSubsetSmaller(BoxAt(n, es, i + 1, b).qc, BoxAt(n, es, i + 1, b).voted);
  }

  /** The completed certificate carries the signatures of exactly a majority of distinct voters,
      if and only if the block was not proposed again after its first vote. */
  lemma CertificateIsComplete(n: nat, st: Replica, es: seq<Event>, i: nat, b: Block)
    requires i < |es| && BoxOf(st, b) == Box({}, {})
    requires FormsAt(n, st, es, i, b)
    ensures var qc := SelfQc(StateAt(n, st, es, i + 1), b);
            && qc <= VotersIn(es, i + 1, b) && |qc| <= Majority(n)
            && (|qc| == Majority(n) <==> NotRestarted(n, st, es, i, b))
  {
    FormsIsFills(n, st, es, i, b);
    FilledBox(n, es, i, b);
    StateHasBox(n, st, es, i + 1, b);
    NotRestartedIsBox(n, st, es, i, b);
  }
}
