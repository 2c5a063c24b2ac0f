/** Quorum sizes, as `HotStuffBase::start` and `HotStuffCore::on_init` set them. */
module Quorum {

  /** `peers.size() / 3`, where the peers are the other `n - 1` replicas. */
  function MaxFaulty(n: nat): nat {
    if n == 0 then 0 else (n - 1) / 3
  }

  /** `config.nmajority` */
  function Majority(n: nat): nat {
    n - MaxFaulty(n)
  }

  /** The largest number of faulty replicas that `n` replicas tolerate. */
  lemma MaxFaultyIsLargest(n: nat, f: nat)
    requires n > 0
    ensures f <= MaxFaulty(n) <==> n >= 3 * f + 1
  {
  }

  function Ids(n: nat): (ids: set<nat>)
    ensures forall i: nat :: i in ids <==> i < n
  {
    if n == 0 then {} else Ids(n - 1) + {n - 1}
  }

  lemma {:induction false} IdsSize(n: nat)
    ensures |Ids(n)| == n
  {
    if n > 0 {
      IdsSize(n - 1);
    }
  }

  lemma {:induction false} SubsetSize<T>(a: set<T>, b: set<T>)
    requires a <= b
    ensures |a| <= |b|
  {
    if a != {} {
      var x :| x in a;
      SubsetSize(a - {x}, b - {x});
    }
  }

  /** The others are a majority exactly if no more than `MaxFaulty(n)` are missing. */
  lemma MajorityLeft(n: nat, missing: set<nat>)
    requires missing <= Ids(n)
    ensures |Ids(n) - missing| >= Majority(n) <==> |missing| <= MaxFaulty(n)
  {
    IdsSize(n);
    assert |Ids(n) - missing| == |Ids(n)| - |missing|;
  }

  /** Any two majorities share more than `MaxFaulty(n)` replicas. */
  lemma MajoritiesIntersect(n: nat, a: set<nat>, b: set<nat>)
    requires n > 0
    requires a <= Ids(n) && b <= Ids(n)
    requires |a| >= Majority(n) && |b| >= Majority(n)
    ensures |a * b| >= MaxFaulty(n) + 1
  {
    IdsSize(n);
    SubsetSize(a + b, Ids(n));
    assert |a + b| + |a * b| == |a| + |b|;
  }

  /** If at most `MaxFaulty(n)` replicas are faulty, an honest one is in both of any two majorities. */
  lemma HonestInIntersection(n: nat, honest: set<nat>, a: set<nat>, b: set<nat>) returns (r: nat)
    requires n > 0 && honest <= Ids(n) && |honest| >= Majority(n)
    requires a <= Ids(n) && b <= Ids(n)
    requires |a| >= Majority(n) && |b| >= Majority(n)
    ensures r in a && r in b && r in honest
  {
    MajoritiesIntersect(n, a, b);
    if a * b * honest == {} {
      IdsSize(n);
      assert |Ids(n) - honest| == |Ids(n)| - |honest|;
      SubsetSize(a * b, Ids(n) - honest);
    }
    r :| r in a * b * honest;
  }
}
