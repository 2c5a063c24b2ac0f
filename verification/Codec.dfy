/** The wire format of certificates, blocks and the messages that carry them:
    `src/entity.cpp`, `include/hotstuff/crypto.h`, `include/hotstuff/consensus.h`, `src/hotstuff.cpp`.

    A decoder returns the value and the bytes it has not read, or nothing if the stream ends
    early or a signature does not parse. */
module Codec {
  import opened Blocks
  import opened Options

  type Bytes = seq<Byte>

  const U32: nat := 0x1_0000_0000

  /** A 256-bit hash. */
  type Hash = h: Bytes | |h| == 32 witness seq(32, _ => 0)

  /** A compact signature. */
  type WireSig = s: Bytes | |s| == 64 witness seq(64, _ => 0)

  datatype WireQc = WireQc(objHash: Hash, rids: seq<bool>, sigs: map<nat, WireSig>)

  datatype WireBlock = WireBlock(parentHashes: seq<Hash>, cmds: seq<Hash>, qc: WireQc, extra: Bytes)

  /** What the bit set of the network library and secp256k1 contribute.  `bits(s)` is a bit set
      and the number of bytes it took. */
  datatype Formats = Formats(putBits: seq<bool> -> Bytes,
                             getBits: Bytes -> Option<(seq<bool>, nat)>,
                             parses: Bytes -> bool)

  ghost predicate FormatsOk(f: Formats) {
    && (forall s :: f.getBits(s).Some? ==> f.getBits(s).value.1 <= |s|)
    && (forall bits, rest :: 
          var used: nat := |f.putBits(bits)|;
          f.getBits(f.putBits(bits) + rest) == Some((bits, used)))
  }

  // ---- numbers and lists of hashes ----

  /** `htole((uint32_t)n)`: the cast truncates. */
  function PutU32(n: nat): Bytes {
    var m := n % U32;
    [(m % 256) as Byte, (m / 256 % 256) as Byte, (m / 65536 % 256) as Byte, (m / 16777216) as Byte]
  }

  function GetU32(s: Bytes): Option<(nat, Bytes)> {
    if |s| < 4 then None
    else Some((s[0] as nat + 256 * s[1] as nat + 65536 * s[2] as nat + 16777216 * s[3] as nat, s[4..]))
  }

  function PutHashes(hs: seq<Hash>): Bytes {
    if hs == [] then [] else hs[0] + PutHashes(hs[1..])
  }

  function GetHashes(n: nat, acc: seq<Hash>, s: Bytes): Option<(seq<Hash>, Bytes)> {
    if n == 0 then Some((acc, s))
    else if |s| < 32 then None
    else GetHashes(n - 1, acc + [s[..32]], s[32..])
  }

  lemma FourBytes(m: nat)
    ensures m == m % 256 + 256 * (m / 256 % 256) + 65536 * (m / 65536 % 256) + 16777216 * (m / 16777216)
  {
    assert m / 65536 == m / 256 / 256 && m / 16777216 == m / 65536 / 256;
  }

  /** Little-endian, four bytes. */
  lemma U32Bytes(n: nat)
    ensures var s := PutU32(n);
            |s| == 4 && s[0] as nat + 256 * s[1] as nat + 65536 * s[2] as nat + 16777216 * s[3] as nat == n % U32
  {
    FourBytes(n % U32);
  }

  lemma U32RoundTrip(n: nat, rest: Bytes)
    ensures GetU32(PutU32(n) + rest) == Some((n % U32, rest))
  {
    assert (PutU32(n) + rest)[4..] == rest;
    FourBytes(n % U32);
  }

  lemma U32Exact(n: nat, rest: Bytes)
    requires n < U32
    ensures GetU32(PutU32(n) + rest) == Some((n, rest))
  {
    U32RoundTrip(n, rest);
    assert n % U32 == n;
  }

  /** A list of hashes is written in order, 32 bytes each. */
  lemma {:induction false} HashAt(hs: seq<Hash>, i: nat)
    requires i <= |hs|
    ensures |PutHashes(hs)| == 32 * |hs|
    ensures i < |hs| ==> PutHashes(hs)[32 * i..32 * i + 32] == hs[i]
  {
    if hs != [] {
      var rest := PutHashes(hs[1..]);
      HashAt(hs[1..], if i == 0 then 0 else i - 1);
      if 0 < i < |hs| {
        assert PutHashes(hs)[32 * i..32 * i + 32] == rest[32 * (i - 1)..32 * (i - 1) + 32];
      }
    }
  }

  lemma {:induction false} HashesRoundTrip(hs: seq<Hash>, acc: seq<Hash>, rest: Bytes)
    ensures GetHashes(|hs|, acc, PutHashes(hs) + rest) == Some((acc + hs, rest))
  {
    if hs == [] {
      assert PutHashes(hs) + rest == rest && acc + hs == acc;
    } else {
      var s := PutHashes(hs) + rest;
      assert s == hs[0] + (PutHashes(hs[1..]) + rest);
      assert s[..32] == hs[0] && s[32..] == PutHashes(hs[1..]) + rest;
      HashesRoundTrip(hs[1..], acc + [hs[0]], rest);
      assert acc + [hs[0]] + hs[1..] == acc + hs;
    }
  }

  /** A decoded list has the announced length. */
  lemma {:induction false} GetHashesLength(n: nat, acc: seq<Hash>, s: Bytes)
    requires GetHashes(n, acc, s).Some?
    ensures |GetHashes(n, acc, s).value.0| == |acc| + n
  {
    if n > 0 {
      GetHashesLength(n - 1, acc + [s[..32]], s[32..]);
    }
  }

  // ---- certificates ----

  /** The signatures are those of the set bits. */
  ghost predicate QcSynced(qc: WireQc) {
    forall i :: i in qc.sigs <==> 0 <= i < |qc.rids| && qc.rids[i]
  }

  predicate SigsParse(f: Formats, qc: WireQc) {
    forall i :: i in qc.sigs ==> f.parses(qc.sigs[i])
  }

  /** The signatures of the set bits from `i` on, in order. */
  function PutSigs(qc: WireQc, i: nat): Bytes
    requires QcSynced(qc) && i <= |qc.rids|
    decreases |qc.rids| - i
  {
    if i == |qc.rids| then []
    else if qc.rids[i] then qc.sigs[i] + PutSigs(qc, i + 1)
    else PutSigs(qc, i + 1)
  }

  function GetSigs(f: Formats, rids: seq<bool>, i: nat, acc: map<nat, WireSig>, s: Bytes)
    : Option<(map<nat, WireSig>, Bytes)>
    requires i <= |rids|
    decreases |rids| - i
  {
    if i == |rids| then Some((acc, s))
    else if !rids[i] then GetSigs(f, rids, i + 1, acc, s)
    else if |s| < 64 || !f.parses(s[..64]) then None
    else GetSigs(f, rids, i + 1, acc[i := s[..64]], s[64..])
  }

  function PutQc(f: Formats, qc: WireQc): Bytes
    requires QcSynced(qc)
  {
    qc.objHash + f.putBits(qc.rids) + PutSigs(qc, 0)
  }

  function GetQc(f: Formats, s: Bytes): Option<(WireQc, Bytes)> {
    if |s| < 32 then None
    else match f.getBits(s[32..])
      case None => None
      case Some((rids, used)) =>
        if used > |s| - 32 then None
        else match GetSigs(f, rids, 0, map[], s[32..][used..])
          case None => None
          case Some((sigs, rest)) => Some((WireQc(s[..32], rids, sigs), rest))
  }

  lemma {:induction false} SigsRoundTrip(f: Formats, qc: WireQc, i: nat, acc: map<nat, WireSig>, rest: Bytes)
    requires QcSynced(qc) && SigsParse(f, qc) && i <= |qc.rids|
    requires acc == map r | r in qc.sigs && r < i :: qc.sigs[r]
    ensures GetSigs(f, qc.rids, i, acc, PutSigs(qc, i) + rest) == Some((qc.sigs, rest))
    decreases |qc.rids| - i
  {
    if i == |qc.rids| {
      assert PutSigs(qc, i) + rest == rest && acc == qc.sigs;
    } else if qc.rids[i] {
      var s := PutSigs(qc, i) + rest;
      assert s == qc.sigs[i] + (PutSigs(qc, i + 1) + rest);
      assert s[..64] == qc.sigs[i] && s[64..] == PutSigs(qc, i + 1) + rest;
      SigsRoundTrip(f, qc, i + 1, acc[i := qc.sigs[i]], rest);
    } else {
      SigsRoundTrip(f, qc, i + 1, acc, rest);
    }
  }

  lemma QcRoundTrip(f: Formats, qc: WireQc, rest: Bytes)
    requires FormatsOk(f) && QcSynced(qc) && SigsParse(f, qc)
    ensures GetQc(f, PutQc(f, qc) + rest) == Some((qc, rest))
  {
    var s := PutQc(f, qc) + rest;
    var tail := PutSigs(qc, 0) + rest;
    assert s == qc.objHash + (f.putBits(qc.rids) + tail);
    assert s[..32] == qc.objHash && s[32..] == f.putBits(qc.rids) + tail;
    assert s[32..][|f.putBits(qc.rids)|..] == tail;
    SigsRoundTrip(f, qc, 0, map[], rest);
  }

  lemma {:induction false} GetSigsSynced(f: Formats, rids: seq<bool>, i: nat, acc: map<nat, WireSig>, s: Bytes)
    requires i <= |rids| && GetSigs(f, rids, i, acc, s).Some?
    requires forall k :: k in acc <==> 0 <= k < i && rids[k]
    requires forall k :: k in acc ==> f.parses(acc[k])
    ensures var sigs := GetSigs(f, rids, i, acc, s).value.0;
            && (forall k :: k in sigs <==> 0 <= k < |rids| && rids[k])
            && (forall k :: k in sigs ==> f.parses(sigs[k]))
    decreases |rids| - i
  {
    if i < |rids| {
      if rids[i] {
        GetSigsSynced(f, rids, i + 1, acc[i := s[..64]], s[64..]);
      } else {
        GetSigsSynced(f, rids, i + 1, acc, s);
      }
    }
  }

  /** Whatever bytes a certificate is read from, it has a signature exactly at each set bit. */
  lemma DecodedQcSynced(f: Formats, s: Bytes)
    requires GetQc(f, s).Some?
    ensures QcSynced(GetQc(f, s).value.0) && SigsParse(f, GetQc(f, s).value.0)
  {
    var (rids, used) := f.getBits(s[32..]).value;
    GetSigsSynced(f, rids, 0, map[], s[32..][used..]);
  }

  // ---- blocks ----

  ghost predicate BlockOk(f: Formats, b: WireBlock) {
    QcSynced(b.qc) && SigsParse(f, b.qc)
  }

  /** Every count fits the 32 bits it is written in. */
  predicate CountsFit(b: WireBlock) {
    |b.parentHashes| < U32 && |b.cmds| < U32 && |b.extra| < U32
  }

  function PutBlock(f: Formats, b: WireBlock): Bytes
    requires QcSynced(b.qc)
  {
    PutU32(|b.parentHashes|) + PutHashes(b.parentHashes)
    + PutU32(|b.cmds|) + PutHashes(b.cmds)
    + PutQc(f, b.qc)
    + PutU32(|b.extra|) + b.extra
  }

  function GetList(s: Bytes): Option<(seq<Hash>, Bytes)> {
    match GetU32(s)
    case None => None
    case Some((n, s1)) => GetHashes(n, [], s1)
  }

  function GetExtra(s: Bytes): Option<(Bytes, Bytes)> {
    match GetU32(s)
    case None => None
    case Some((n, s1)) => if n > |s1| then None else Some((s1[..n], s1[n..]))
  }

  function GetBlock(f: Formats, s: Bytes): Option<(WireBlock, Bytes)> {
    match GetList(s)
    case None => None
    case Some((ps, s1)) => match GetList(s1)
      case None => None
      case Some((cmds, s2)) => match GetQc(f, s2)
        case None => None
        case Some((qc, s3)) => match GetExtra(s3)
          case None => None
          case Some((extra, s4)) => Some((WireBlock(ps, cmds, qc, extra), s4))
  }

  lemma ListRoundTrip(hs: seq<Hash>, rest: Bytes)
    requires |hs| < U32
    ensures GetList(PutU32(|hs|) + PutHashes(hs) + rest) == Some((hs, rest))
  {
    Assoc(PutU32(|hs|), PutHashes(hs), rest);
    U32Exact(|hs|, PutHashes(hs) + rest);
    HashesRoundTrip(hs, [], rest);
    assert [] + hs == hs;
  }

  /** A list that is too long is never read back as it was. */
  lemma ListTooLong(hs: seq<Hash>, rest: Bytes)
    requires |hs| >= U32
    ensures var r := GetList(PutU32(|hs|) + PutHashes(hs) + rest);
            r.Some? ==> |r.value.0| < U32
  {
    U32RoundTrip(|hs|, PutHashes(hs) + rest);
    var s := PutU32(|hs|) + PutHashes(hs) + rest;
    assert s == PutU32(|hs|) + (PutHashes(hs) + rest);
    if GetList(s).Some? {
      GetHashesLength(|hs| % U32, [], PutHashes(hs) + rest);
    }
  }

  lemma ExtraRoundTrip(extra: Bytes, rest: Bytes)
    ensures |extra| < U32 ==> GetExtra(PutU32(|extra|) + extra + rest) == Some((extra, rest))
    ensures |extra| >= U32 ==> var r := GetExtra(PutU32(|extra|) + extra + rest);
                               r.Some? ==> |r.value.0| < U32
  {
    assert PutU32(|extra|) + extra + rest == PutU32(|extra|) + (extra + rest);
    if |extra| < U32 {
      U32Exact(|extra|, extra + rest);
      assert (extra + rest)[..|extra|] == extra && (extra + rest)[|extra|..] == rest;
    } else {
      U32RoundTrip(|extra|, extra + rest);
    }
  }

  /** What follows the parent hashes, the commands and the certificate of a written block. */
  function CmdsOn(f: Formats, b: WireBlock, rest: Bytes): Bytes
    requires QcSynced(b.qc)
  {
    PutU32(|b.cmds|) + PutHashes(b.cmds) + QcOn(f, b, rest)
  }

  function QcOn(f: Formats, b: WireBlock, rest: Bytes): Bytes
    requires QcSynced(b.qc)
  {
    PutQc(f, b.qc) + ExtraOn(b, rest)
  }

  function ExtraOn(b: WireBlock, rest: Bytes): Bytes {
    PutU32(|b.extra|) + b.extra + rest
  }

  lemma ConcatSeven(a: Bytes, b: Bytes, c: Bytes, d: Bytes, e: Bytes, g: Bytes, h: Bytes, rest: Bytes)
    ensures a + b + c + d + e + g + h + rest == a + b + (c + d + (e + (g + h + rest)))
  {
  }

  lemma BlockLayout(f: Formats, b: WireBlock, rest: Bytes)
    requires QcSynced(b.qc)
    ensures PutBlock(f, b) + rest == PutU32(|b.parentHashes|) + PutHashes(b.parentHashes) + CmdsOn(f, b, rest)
  {
    ConcatSeven(PutU32(|b.parentHashes|), PutHashes(b.parentHashes), PutU32(|b.cmds|), PutHashes(b.cmds),
                PutQc(f, b.qc), PutU32(|b.extra|), b.extra, rest);
  }

  /** Where the parts of a block are written: its counts, the hash of parent `i` and of command `j`,
      and the extra bytes at the end. */
  lemma BlockBytes(f: Formats, b: WireBlock, i: nat, j: nat)
    requires QcSynced(b.qc) && i < |b.parentHashes| && j < |b.cmds|
    ensures var s, p := PutBlock(f, b), 4 + 32 * |b.parentHashes|;
            && p + 4 + 32 * |b.cmds| + |b.extra| <= |s|
            && s[..4] == PutU32(|b.parentHashes|) && s[4 + 32 * i..36 + 32 * i] == b.parentHashes[i]
            && s[p..p + 4] == PutU32(|b.cmds|) && s[p + 4 + 32 * j..p + 36 + 32 * j] == b.cmds[j]
            && s[|s| - |b.extra|..] == b.extra
  {
    var ps, cs := PutHashes(b.parentHashes), PutHashes(b.cmds);
    HashAt(b.parentHashes, i);
    HashAt(b.cmds, j);
    ListAt(PutU32(|b.parentHashes|), ps, PutU32(|b.cmds|) + cs + (PutQc(f, b.qc) + PutU32(|b.extra|) + b.extra), 32 * i);
    ListAt(PutU32(|b.cmds|), cs, PutQc(f, b.qc) + PutU32(|b.extra|) + b.extra, 32 * j);
    var head := PutU32(|b.parentHashes|) + ps;
    var tail := PutU32(|b.cmds|) + cs + (PutQc(f, b.qc) + PutU32(|b.extra|) + b.extra);
    var s := PutBlock(f, b);
    assert s == head + tail;
    Shifted(head, tail, 0, 4);
    Shifted(head, tail, 4 + 32 * j, 32);
    assert s[|s| - |b.extra|..] == b.extra;
  }

  lemma ListAt(count: Bytes, hs: Bytes, rest: Bytes, at: nat)
    requires |count| == 4 && at + 32 <= |hs|
    ensures (count + hs + rest)[..4] == count && (count + hs + rest)[4 + at..36 + at] == hs[at..at + 32]
  {
  }

  lemma Shifted(head: Bytes, tail: Bytes, at: nat, len: nat)
    requires at + len <= |tail|
    ensures (head + tail)[|head| + at..|head| + at + len] == tail[at..at + len]
  {
  }

  lemma BlockFits(f: Formats, b: WireBlock, rest: Bytes)
    requires FormatsOk(f) && BlockOk(f, b) && CountsFit(b)
    ensures GetBlock(f, PutBlock(f, b) + rest) == Some((b, rest))
  {
    BlockLayout(f, b, rest);
    ListRoundTrip(b.parentHashes, CmdsOn(f, b, rest));
    ListRoundTrip(b.cmds, QcOn(f, b, rest));
    QcRoundTrip(f, b.qc, ExtraOn(b, rest));
    ExtraRoundTrip(b.extra, rest);
  }

  lemma BlockTooLong(f: Formats, b: WireBlock, rest: Bytes)
    requires FormatsOk(f) && BlockOk(f, b) && !CountsFit(b)
    ensures var r := GetBlock(f, PutBlock(f, b) + rest);
            r.Some? ==> r.value.0 != b
  {
    BlockLayout(f, b, rest);
    if |b.parentHashes| >= U32 {
      ListTooLong(b.parentHashes, CmdsOn(f, b, rest));
    } else {
      ListRoundTrip(b.parentHashes, CmdsOn(f, b, rest));
      if |b.cmds| >= U32 {
        ListTooLong(b.cmds, QcOn(f, b, rest));
      } else {
        ListRoundTrip(b.cmds, QcOn(f, b, rest));
        QcRoundTrip(f, b.qc, ExtraOn(b, rest));
        ExtraRoundTrip(b.extra, rest);
      }
    }
  }

  /** Reading back a written block gives the block and leaves what follows it unread, if and
      only if every count fits 32 bits. */
  lemma BlockRoundTrip(f: Formats, b: WireBlock, rest: Bytes)
    requires FormatsOk(f) && BlockOk(f, b)
    ensures GetBlock(f, PutBlock(f, b) + rest) == Some((b, rest)) <==> CountsFit(b)
  {
    if CountsFit(b) {
      BlockFits(f, b, rest);
    } else {
      BlockTooLong(f, b, rest);
    }
  }

  /** Different blocks whose counts fit have different encodings, even with different bytes following,
      so a collision-free hash of the encoding identifies the block. */
  lemma EncodingIdentifiesBlock(f: Formats, a: WireBlock, b: WireBlock, x: Bytes, y: Bytes)
    requires FormatsOk(f) && BlockOk(f, a) && BlockOk(f, b) && CountsFit(a) && CountsFit(b)
    requires PutBlock(f, a) + x == PutBlock(f, b) + y
    ensures a == b && x == y
  {
    BlockRoundTrip(f, a, x);
    BlockRoundTrip(f, b, y);
  }

  /** If a count does not fit, the encoding can also be that of another block, with the rest following. */
  lemma LongExtraIsAmbiguous(f: Formats, b: WireBlock)
    requires QcSynced(b.qc) && |b.extra| == U32
    ensures PutBlock(f, b) == PutBlock(f, b.(extra := [])) + b.extra
  {
    var a := b.(extra := []);
    assert PutU32(|b.extra|) == PutU32(0);
    assert PutBlock(f, a) + b.extra == PutBlock(f, b);
  }

  // ---- messages ----

  datatype WireProposal = WireProposal(proposer: nat, blk: WireBlock)

  /** The proposer id has 16 bits. */
  function PutU16(n: nat): Bytes
    requires n < 65536
  {
    [(n % 256) as Byte, (n / 256) as Byte]
  }

  function PutProposal(f: Formats, p: WireProposal): Bytes
    requires p.proposer < 65536 && QcSynced(p.blk.qc)
  {
    PutU16(p.proposer) + PutBlock(f, p.blk)
  }

  function GetProposal(f: Formats, s: Bytes): Option<(WireProposal, Bytes)> {
    if |s| < 2 then None
    else match GetBlock(f, s[2..])
      case None => None
      case Some((blk, rest)) => Some((WireProposal(s[0] as nat + 256 * s[1] as nat, blk), rest))
  }

  lemma U16RoundTrip(n: nat)
    requires n < 65536
    ensures |PutU16(n)| == 2 && PutU16(n)[0] as nat + 256 * PutU16(n)[1] as nat == n
  {
  }

  /** `w` and `u` stand for the encoded proposer and block. */
  lemma ProposalHead(f: Formats, w: Bytes, u: Bytes, p: WireProposal, rest: Bytes)
    requires |w| == 2 && w[0] as nat + 256 * w[1] as nat == p.proposer
    ensures GetProposal(f, w + u + rest) == Some((p, rest)) <==> GetBlock(f, u + rest) == Some((p.blk, rest))
  {
    assert (w + u + rest)[2..] == u + rest;
  }

  lemma ProposalRoundTrip(f: Formats, p: WireProposal, rest: Bytes)
    requires FormatsOk(f) && BlockOk(f, p.blk) && p.proposer < 65536
    ensures GetProposal(f, PutProposal(f, p) + rest) == Some((p, rest)) <==> CountsFit(p.blk)
  {
    U16RoundTrip(p.proposer);
    BlockRoundTrip(f, p.blk, rest);
    ProposalHead(f, PutU16(p.proposer), PutBlock(f, p.blk), p, rest);
  }

  ghost predicate AllSynced(bs: seq<WireBlock>) {
    forall b :: b in bs ==> QcSynced(b.qc)
  }

  ghost predicate BlocksOk(f: Formats, bs: seq<WireBlock>) {
    AllSynced(bs) && forall b :: b in bs ==> BlockOk(f, b)
  }

  predicate AllFit(bs: seq<WireBlock>) {
    forall b :: b in bs ==> CountsFit(b)
  }

  function PutBlocks(f: Formats, bs: seq<WireBlock>): Bytes
    requires AllSynced(bs)
  {
    if bs == [] then [] else PutBlock(f, bs[0]) + PutBlocks(f, bs[1..])
  }

  function GetBlocks(f: Formats, n: nat, s: Bytes): Option<(seq<WireBlock>, Bytes)> {
    if n == 0 then Some(([], s))
    else match GetBlock(f, s)
      case None => None
      case Some((b, s1)) => match GetBlocks(f, n - 1, s1)
        case None => None
        case Some((bs, rest)) => Some(([b] + bs, rest))
  }

  /** `MsgRespBlock` */
  function PutResponse(f: Formats, bs: seq<WireBlock>): Bytes
    requires AllSynced(bs)
  {
    PutU32(|bs|) + PutBlocks(f, bs)
  }

  function GetResponse(f: Formats, s: Bytes): Option<(seq<WireBlock>, Bytes)> {
    match GetU32(s)
    case None => None
    case Some((n, s1)) => GetBlocks(f, n, s1)
  }

  lemma FirstBlockRoundTrip(f: Formats, s: Bytes, b: WireBlock, n: nat, bs: seq<WireBlock>, tail: Bytes, rest: Bytes)
    requires GetBlock(f, s) == Some((b, tail)) && GetBlocks(f, n, tail) == Some((bs, rest))
    ensures GetBlocks(f, n + 1, s) == Some(([b] + bs, rest))
  {
  }

  lemma Assoc(a: Bytes, b: Bytes, c: Bytes)
    ensures a + b + c == a + (b + c)
  {
  }

  lemma FirstOfBlocks(f: Formats, bs: seq<WireBlock>, rest: Bytes)
    requires AllSynced(bs) && bs != []
    ensures PutBlocks(f, bs) + rest == PutBlock(f, bs[0]) + (PutBlocks(f, bs[1..]) + rest)
    ensures [bs[0]] + bs[1..] == bs
  {
  }

  lemma {:induction false} BlocksFit(f: Formats, bs: seq<WireBlock>, rest: Bytes)
    requires FormatsOk(f) && BlocksOk(f, bs) && AllFit(bs)
    ensures GetBlocks(f, |bs|, PutBlocks(f, bs) + rest) == Some((bs, rest))
  {
    if bs == [] {
      assert PutBlocks(f, bs) + rest == rest;
    } else {
      var tail := PutBlocks(f, bs[1..]) + rest;
      BlocksFit(f, bs[1..], rest);
      BlockRoundTrip(f, bs[0], tail);
      FirstOfBlocks(f, bs, rest);
      FirstBlockRoundTrip(f, PutBlock(f, bs[0]) + tail, bs[0], |bs| - 1, bs[1..], tail, rest);
    }
  }

  lemma OtherFirstBlock(f: Formats, s: Bytes, bs: seq<WireBlock>)
    requires bs != [] && (GetBlock(f, s).Some? ==> GetBlock(f, s).value.0 != bs[0])
    ensures var r := GetBlocks(f, |bs|, s);
            r.Some? ==> r.value.0 != bs
  {
  }

  lemma OtherLaterBlocks(f: Formats, s: Bytes, bs: seq<WireBlock>, tail: Bytes)
    requires bs != [] && GetBlock(f, s) == Some((bs[0], tail))
    requires GetBlocks(f, |bs| - 1, tail).Some? ==> GetBlocks(f, |bs| - 1, tail).value.0 != bs[1..]
    ensures var r := GetBlocks(f, |bs|, s);
            r.Some? ==> r.value.0 != bs
  {
    if GetBlocks(f, |bs|, s).Some? {
      assert GetBlocks(f, |bs|, s).value.0[1..] == GetBlocks(f, |bs| - 1, tail).value.0;
    }
  }

  lemma FirstOrLaterFits(bs: seq<WireBlock>)
    requires bs != []
    ensures AllFit(bs) <==> CountsFit(bs[0]) && AllFit(bs[1..])
  {
    assert [bs[0]] + bs[1..] == bs;
  }

  lemma RestOk(f: Formats, bs: seq<WireBlock>)
    requires BlocksOk(f, bs) && bs != []
    ensures BlockOk(f, bs[0]) && BlocksOk(f, bs[1..])
  {
  }

  lemma FirstTooLong(f: Formats, bs: seq<WireBlock>, rest: Bytes)
    requires FormatsOk(f) && AllSynced(bs) && bs != [] && BlockOk(f, bs[0]) && !CountsFit(bs[0])
    ensures var r := GetBlocks(f, |bs|, PutBlocks(f, bs) + rest);
            r.Some? ==> r.value.0 != bs
  {
    BlockTooLong(f, bs[0], PutBlocks(f, bs[1..]) + rest);
    FirstOfBlocks(f, bs, rest);
    OtherFirstBlock(f, PutBlocks(f, bs) + rest, bs);
  }

  lemma LaterTooLong(f: Formats, bs: seq<WireBlock>, rest: Bytes)
    requires FormatsOk(f) && AllSynced(bs) && bs != [] && BlockOk(f, bs[0]) && CountsFit(bs[0])
    requires var r := GetBlocks(f, |bs| - 1, PutBlocks(f, bs[1..]) + rest);
             r.Some? ==> r.value.0 != bs[1..]
    ensures var r := GetBlocks(f, |bs|, PutBlocks(f, bs) + rest);
            r.Some? ==> r.value.0 != bs
  {
    BlockFits(f, bs[0], PutBlocks(f, bs[1..]) + rest);
    FirstOfBlocks(f, bs, rest);
    OtherLaterBlocks(f, PutBlocks(f, bs) + rest, bs, PutBlocks(f, bs[1..]) + rest);
  }

  lemma {:induction false} BlocksTooLong(f: Formats, bs: seq<WireBlock>, rest: Bytes)
    requires FormatsOk(f) && BlocksOk(f, bs) && !AllFit(bs)
    ensures var r := GetBlocks(f, |bs|, PutBlocks(f, bs) + rest);
            r.Some? ==> r.value.0 != bs
  {
    FirstOrLaterFits(bs);
    RestOk(f, bs);
    assert |bs[1..]| == |bs| - 1;
    if CountsFit(bs[0]) {
      BlocksTooLong(f, bs[1..], rest);
      LaterTooLong(f, bs, rest);
    } else {
      FirstTooLong(f, bs, rest);
    }
  }

  /** A list of blocks is read back if and only if the counts of each block fit. */
  lemma BlocksRoundTrip(f: Formats, bs: seq<WireBlock>, rest: Bytes)
    requires FormatsOk(f) && BlocksOk(f, bs)
    ensures GetBlocks(f, |bs|, PutBlocks(f, bs) + rest) == Some((bs, rest)) <==> AllFit(bs)
  {
    if AllFit(bs) {
      BlocksFit(f, bs, rest);
    } else {
      BlocksTooLong(f, bs, rest);
    }
  }

  lemma {:induction false} GetBlocksLength(f: Formats, n: nat, s: Bytes)
    requires GetBlocks(f, n, s).Some?
    ensures |GetBlocks(f, n, s).value.0| == n
  {
    if n > 0 {
      GetBlocksLength(f, n - 1, GetBlock(f, s).value.1);
    }
  }

  /** A response is read back if and only if its own count and those of its blocks fit. */
  lemma ResponseRoundTrip(f: Formats, bs: seq<WireBlock>, rest: Bytes)
    requires FormatsOk(f) && BlocksOk(f, bs)
    ensures GetResponse(f, PutResponse(f, bs) + rest) == Some((bs, rest)) <==> |bs| < U32 && AllFit(bs)
  {
    var tail := PutBlocks(f, bs) + rest;
    Assoc(PutU32(|bs|), PutBlocks(f, bs), rest);
    U32RoundTrip(|bs|, tail);
    if |bs| < U32 {
      U32Exact(|bs|, tail);
      BlocksRoundTrip(f, bs, rest);
    } else if GetBlocks(f, |bs| % U32, tail).Some? {
      GetBlocksLength(f, |bs| % U32, tail);
    }
  }

  // ---- the code: appending to and reading from a stream ----

  class DataStream {
    var unread: Bytes

    constructor ()
      ensures unread == []
    {
      unread := [];
    }

    method Put(data: Bytes)
      modifies this
      ensures unread == old(unread) + data
    {
      unread := unread + data;
    }

    /** Fails like the stream when fewer than `n` bytes are left. */
    method Take(n: nat) returns (data: Option<Bytes>)
      modifies this
      ensures data == if n <= |old(unread)| then Some(old(unread)[..n]) else None
      ensures unread == if n <= |old(unread)| then old(unread)[n..] else old(unread)
    {
      if n > |unread| {
        return None;
      }
      data := Some(unread[..n]);
      unread := unread[n..];
    }

    method PutHashList(hs: seq<Hash>)
      modifies this
      ensures unread == old(unread) + PutU32(|hs|) + PutHashes(hs)
    {
      Put(PutU32(|hs|));
      for i := 0 to |hs|
        invariant unread + PutHashes(hs[i..]) == old(unread) + PutU32(|hs|) + PutHashes(hs)
      {
        assert hs[i..][0] == hs[i] && hs[i..][1..] == hs[i + 1..];
        assert unread + hs[i] + PutHashes(hs[i + 1..]) == unread + PutHashes(hs[i..]);
        Put(hs[i]);
      }
    }

    method TakeU32() returns (n: Option<nat>)
      modifies this
      ensures match GetU32(old(unread))
              case None => n == None
              case Some((m, rest)) => n == Some(m) && unread == rest
    {
      var data := Take(4);
      match data
      case None => n := None;
      case Some(d) =>
        n := Some(d[0] as nat + 256 * d[1] as nat + 65536 * d[2] as nat + 16777216 * d[3] as nat);
    }

    method TakeHashList() returns (hs: Option<seq<Hash>>)
      modifies this
      ensures match GetList(old(unread))
              case None => hs == None
              case Some((l, rest)) => hs == Some(l) && unread == rest
    {
      var n := TakeU32();
      if n == None {
        return None;
      }
      var acc: seq<Hash> := [];
      for i := 0 to n.value
        invariant GetHashes(n.value - i, acc, unread) == GetList(old(unread))
      {
        var h := Take(32);
        if h == None {
          return None;
        }
        acc := acc + [h.value];
      }
      hs := Some(acc);
    }

    method PutCertificate(f: Formats, qc: WireQc)
      requires QcSynced(qc)
      modifies this
      ensures unread == old(unread) + PutQc(f, qc)
    {
      Put(qc.objHash);
      Put(f.putBits(qc.rids));
      for i := 0 to |qc.rids|
        invariant unread + PutSigs(qc, i) == old(unread) + PutQc(f, qc)
      {
        if qc.rids[i] {
          assert unread + qc.sigs[i] + PutSigs(qc, i + 1) == unread + PutSigs(qc, i);
          Put(qc.sigs[i]);
        }
      }
    }

    method TakeCertificate(f: Formats) returns (qc: Option<WireQc>)
      modifies this
      ensures match GetQc(f, old(unread))
              case None => qc == None
              case Some((q, rest)) => qc == Some(q) && unread == rest
    {
      var objHash := Take(32);
      if objHash == None {
        return None;
      }
      var bits := f.getBits(unread);
      if bits == None || bits.value.1 > |unread| {
        return None;
      }
      var rids := bits.value.0;
      unread := unread[bits.value.1..];
      ghost var start := unread;
      var sigs: map<nat, WireSig> := map[];
      for i := 0 to |rids|
        invariant GetSigs(f, rids, i, sigs, unread) == GetSigs(f, rids, 0, map[], start)
      {
        if rids[i] {
          var sig := Take(64);
          if sig == None || !f.parses(sig.value) {
            return None;
          }
          sigs := sigs[i := sig.value];
        }
      }
      qc := Some(WireQc(objHash.value, rids, sigs));
    }

    /** `Block::serialize` */
    method Serialize(f: Formats, b: WireBlock)
      requires QcSynced(b.qc)
      modifies this
      ensures unread == old(unread) + PutBlock(f, b)
    {
      PutHashList(b.parentHashes);
      PutHashList(b.cmds);
      PutCertificate(f, b.qc);
      Put(PutU32(|b.extra|));
      Put(b.extra);
    }

    /** `Block::unserialize` */
    method Unserialize(f: Formats) returns (b: Option<WireBlock>)
      modifies this
      ensures match GetBlock(f, old(unread))
              case None => b == None
              case Some((blk, rest)) => b == Some(blk) && unread == rest
    {
      var parentHashes := TakeHashList();
      if parentHashes == None {
        return None;
      }
      var cmds := TakeHashList();
      if cmds == None {
        return None;
      }
      var qc := TakeCertificate(f);
      if qc == None {
        return None;
      }
      var n := TakeU32();
      if n == None {
        return None;
      }
      if n.value == 0 {
        b := Some(WireBlock(parentHashes.value, cmds.value, qc.value, []));
      } else {
        var extra := Take(n.value);
        if extra == None {
          return None;
        }
        b := Some(WireBlock(parentHashes.value, cmds.value, qc.value, extra.value));
      }
    }
  }
}
