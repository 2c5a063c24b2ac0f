/** `QuorumCertSecp256k1` of `include/hotstuff/crypto.h` and `src/crypto.cpp`.

    What secp256k1 verification accepts is a parameter. */
module QuorumCerts {
  import opened Blocks
  import opened Quorum
  import opened Protocol
  import Codec

  type Signature = seq<Byte>

  /** Does a signature verify under the public key of a replica? */
  type Checker = (ReplicaID, Block, Signature) -> bool

  /** The exception is `get_pubkey` not finding a replica. */
  datatype Verdict = Verified(valid: bool) | UnknownReplica

  /** The replicas whose bit is set. */
  function SetBits(rids: seq<bool>): set<ReplicaID> {
    set i | 0 <= i < |rids| && rids[i]
  }

  /** A certificate value: the hash it is about, the bit per replica and the signatures. */
  predicate Synced(rids: seq<bool>, sigs: map<ReplicaID, Signature>) {
    sigs.Keys == SetBits(rids)
  }

  /** The signatures at set bits below `i` all verify. */
  predicate AllValid(check: Checker, replicas: set<ReplicaID>, obj: Block,
                     sigs: map<ReplicaID, Signature>, i: nat) {
    forall r :: r in sigs && r < i ==> r in replicas && check(r, obj, sigs[r])
  }

  class QuorumCert {
    const objHash: Block
    var rids: seq<bool>
    var sigs: map<ReplicaID, Signature>

    predicate Valid()
      reads this
    {
      Synced(rids, sigs)
    }

    constructor (nreplicas: nat, objHash: Block)
      ensures Valid() && this.objHash == objHash && |rids| == nreplicas && sigs == map[]
    {
      this.objHash := objHash;
      rids := seq(nreplicas, _ => false);
      sigs := map[];
    }

    /** What `unserialize` makes of a decoded certificate. */
    constructor Read(objHash: Block, qc: Codec.WireQc)
      requires Codec.QcSynced(qc)
      ensures Valid() && this.objHash == objHash && rids == qc.rids && sigs == qc.sigs
    {
      this.objHash := objHash;
      rids := qc.rids;
      sigs := qc.sigs;
    }

    /** Adds the signature of a replica; a signature already present is kept. */
    method AddPart(rid: ReplicaID, pcHash: Block, pc: Signature) returns (ok: bool)
      requires Valid() && rid < |rids|
      modifies this
      ensures Valid() && |rids| == |old(rids)|
      ensures ok <==> pcHash == objHash
      ensures sigs == if ok && rid !in old(sigs) then old(sigs)[rid := pc] else old(sigs)
    {
      if pcHash != objHash {
        return false;
      }
      if rid !in sigs {
        sigs := sigs[rid := pc];
      }
      rids := rids[rid := true];
      ok := true;
    }

    /** Signature after signature, stopping at the first that fails. */
    method Verify(replicas: set<ReplicaID>, nmajority: nat, check: Checker) returns (verdict: Verdict)
      requires Valid()
      ensures verdict == Verified(true) <==>
                |sigs| >= nmajority && AllValid(check, replicas, objHash, sigs, |rids|)
      ensures verdict == UnknownReplica <==>
                |sigs| >= nmajority
                && exists r :: r in sigs && r !in replicas && AllValid(check, replicas, objHash, sigs, r)
    {
      if |sigs| < nmajority {
        return Verified(false);
      }
      for i := 0 to |rids|
        invariant AllValid(check, replicas, objHash, sigs, i)
      {
        if rids[i] {
          assert i in SetBits(rids);
          if i !in replicas {
            return UnknownReplica;
          }
          if !check(i, objHash, sigs[i]) {
            return Verified(false);
          }
        }
      }
      verdict := Verified(true);
    }

    /** The pooled form: all signatures are submitted, then the answers are combined. */
    method VerifyPooled(replicas: set<ReplicaID>, nmajority: nat, check: Checker) returns (verdict: Verdict)
      requires Valid() && nmajority > 0
      ensures verdict == Verified(true) <==>
                |sigs| >= nmajority && AllValid(check, replicas, objHash, sigs, |rids|)
      ensures verdict == UnknownReplica <==>
                |sigs| >= nmajority && exists r :: r in sigs && r !in replicas
    {
      if |sigs| < nmajority {
        return Verified(false);
      }
      var answers: seq<bool> := [];
      for i := 0 to |rids|
        invariant forall r :: r in sigs && r < i ==> r in replicas
        invariant AllTrue(answers) <==> AllValid(check, replicas, objHash, sigs, i)
      {
        assert i in SetBits(rids) <==> rids[i];
        if rids[i] {
          if i !in replicas {
            return UnknownReplica;
          }
          AllTrueStep(answers, check(i, objHash, sigs[i]));
          answers := answers + [check(i, objHash, sigs[i])];
        }
      }
      for j := 0 to |answers|
        invariant AllTrue(answers[..j])
      {
        AllTrueStep(answers[..j], answers[j]);
        assert answers[..j] + [answers[j]] == answers[..j + 1];
        if !answers[j] {
          return Verified(false);
        }
      }
      assert answers[..|answers|] == answers;
      verdict := Verified(true);
    }
  }

  predicate AllTrue(answers: seq<bool>) {
    forall j :: 0 <= j < |answers| ==> answers[j]
  }

  lemma AllTrueStep(answers: seq<bool>, a: bool)
    ensures AllTrue(answers + [a]) <==> AllTrue(answers) && a
  {
    var longer := answers + [a];
    assert longer[|answers|] == a;
    assert forall j :: 0 <= j < |answers| ==> longer[j] == answers[j];
  }

  /** Nobody can make a signature that verifies for a replica that did not sign. */
  ghost predicate Unforgeable(check: Checker, signed: set<Ballot>) {
    forall r, b, sig :: check(r, b, sig) ==> Ballot(r, b) in signed
  }

  /** A certificate that verifies consists of signatures of at least a majority of distinct
      configured replicas on its block, so the block is certified. */
  lemma VerifiedIsCertified(c: Config, signed: set<Ballot>, check: Checker, obj: Block,
                            rids: seq<bool>, sigs: map<ReplicaID, Signature>)
    requires Synced(rids, sigs) && Unforgeable(check, signed)
    requires |sigs| >= Majority(c.n) && AllValid(check, Ids(c.n), obj, sigs, |rids|)
    ensures sigs.Keys <= Voters(signed, obj) && sigs.Keys <= Ids(c.n)
    ensures |sigs.Keys| >= Majority(c.n) && Certified(c, signed, obj)
    ensures forall b :: Ref(b) == obj && Cert(b) == sigs.Keys ==> CertOk(c, signed, b)
  {
    forall r | r in sigs ensures Ballot(r, obj) in signed && r in Ids(c.n) {
      assert r in SetBits(rids);
    }
    SubsetSize(sigs.Keys, Voters(signed, obj));
  }

  /** The same for a certificate read from any bytes, `obj` being the block with its hash. */
  lemma DecodedIsCertified(c: Config, signed: set<Ballot>, check: Checker, obj: Block,
                           f: Codec.Formats, s: Codec.Bytes)
    requires Unforgeable(check, signed) && Codec.GetQc(f, s).Some?
    requires var qc := Codec.GetQc(f, s).value.0;
             |qc.sigs| >= Majority(c.n) && AllValid(check, Ids(c.n), obj, qc.sigs, |qc.rids|)
    ensures var qc := Codec.GetQc(f, s).value.0;
            && qc.sigs.Keys <= Voters(signed, obj) && Certified(c, signed, obj)
            && forall b :: Ref(b) == obj && Cert(b) == qc.sigs.Keys ==> CertOk(c, signed, b)
  {
    var qc := Codec.GetQc(f, s).value.0;
    Codec.DecodedQcSynced(f, s);
    assert qc.sigs.Keys == SetBits(qc.rids);
    VerifiedIsCertified(c, signed, check, obj, qc.rids, qc.sigs);
  }

  /** Conversely a certificate filled with the valid signatures of a majority verifies. */
  method CertifyAndVerify(n: nat, obj: Block, voters: seq<ReplicaID>, sign: ReplicaID -> Signature, check: Checker)
    returns (verdict: Verdict)
    requires n > 0 && forall r :: r in voters ==> r < n && check(r, obj, sign(r))
    ensures verdict == Verified(|set r | r in voters| >= Majority(n))
  {
    var qc := new QuorumCert(n, obj);
    for i := 0 to |voters|
      invariant fresh(qc) && qc.Valid() && |qc.rids| == n && qc.objHash == obj
      invariant qc.sigs.Keys == set r | r in voters[..i]
      invariant forall r :: r in qc.sigs ==> r < n && check(r, obj, qc.sigs[r])
    {
      var ok := qc.AddPart(voters[i], obj, sign(voters[i]));
    }
    assert voters[..|voters|] == voters;
    assert |qc.sigs| == |qc.sigs.Keys|;
    verdict := qc.Verify(Ids(n), Majority(n), check);
  }
}
