/** The byte strings that are hashed and signed, and why they separate the same messages as the digest
    terms of module `Types` do. */
module Encoding {
  import opened Types

  type Byte = x: int | 0 <= x < 256

  const U64_BYTES := 8
  const HASH_BYTES := 32

  function Power256(k: nat): nat {
    if k == 0 then 1 else 256 * Power256(k - 1)
  }

  /** Fixed-width little-endian encoding. */
  function LittleEndian(v: nat, width: nat): (r: seq<Byte>)
    ensures |r| == width
  {
    if width == 0 then [] else [v % 256] + LittleEndian(v / 256, width - 1)
  }

  function Value(bytes: seq<Byte>): nat {
    if bytes == [] then 0 else bytes[0] + 256 * Value(bytes[1..])
  }

  lemma {:induction false} LittleEndianRoundTrip(v: nat, width: nat)
    requires v < Power256(width)
    ensures Value(LittleEndian(v, width)) == v
  {
    if width > 0 {
      LittleEndianRoundTrip(v / 256, width - 1);
      assert LittleEndian(v, width)[1..] == LittleEndian(v / 256, width - 1);
    }
  }

  lemma {:induction false} LittleEndianInjective(v: nat, w: nat, width: nat)
    requires v < Power256(width) && w < Power256(width)
    ensures LittleEndian(v, width) == LittleEndian(w, width) <==> v == w
  {
    LittleEndianRoundTrip(v, width);
    LittleEndianRoundTrip(w, width);
  }

  /** The fields of what is hashed, hashes and identifiers being byte strings already. */
  datatype Fields =
    | VoteFields(proposalHash: seq<Byte>, view: nat)
    | TimeoutFields(view: nat, qcView: nat)
    | ProposalFields(author: seq<Byte>, blockHash: seq<Byte>, blockNumber: nat, view: nat, parent: seq<Byte>)

  /** The width of block numbers, at most 128 bits. */
  type Width = w: nat | w <= 16

  /** Hashes and identifiers have their fixed width, numbers fit theirs. */
  predicate InRange(f: Fields, width: Width) {
    match f
    case VoteFields(hash, view) => |hash| == HASH_BYTES && view < Power256(U64_BYTES)
    case TimeoutFields(view, qcView) => view < Power256(U64_BYTES) && qcView < Power256(U64_BYTES)
    case ProposalFields(author, hash, number, view, parent) =>
      && |author| == |hash| == |parent| == HASH_BYTES
      && number < Power256(width) && view < Power256(U64_BYTES)
  }

  /** The bytes the program collects. */
  function Data(f: Fields, width: Width): seq<Byte> {
    match f
    case VoteFields(hash, view) => hash + LittleEndian(view, U64_BYTES)
    case TimeoutFields(view, qcView) => LittleEndian(view, U64_BYTES) + LittleEndian(qcView, U64_BYTES)
    case ProposalFields(author, hash, number, view, parent) =>
      author + (hash + LittleEndian(number, width)) + LittleEndian(view, U64_BYTES) + parent
  }

  /** The compact encoding of a length below 2 to the power 14: one byte with mode bits 00, or two with 01. */
  function CompactLength(n: nat): (r: seq<Byte>)
    requires n < 0x4000
    ensures |r| == if n < 64 then 1 else 2
  {
    if n < 64 then [4 * n] else LittleEndian(4 * n + 1, 2)
  }

  lemma DataLength(f: Fields, width: Width)
    requires InRange(f, width)
    ensures |Data(f, width)| == match f
                                case VoteFields(_, _) => 40
                                case TimeoutFields(_, _) => 16
                                case ProposalFields(_, _, _, _, _) => 104 + width
  {
  }

  /** The bytes that are hashed: the collected ones are encoded as a vector, that is, behind their length. */
  function Preimage(f: Fields, width: Width): seq<Byte>
    requires InRange(f, width)
  {
    DataLength(f, width);
    CompactLength(|Data(f, width)|) + Data(f, width)
  }

  /** The length prefix can be read back: the two low bits of its first byte tell how many bytes it has. */
  lemma CompactRoundTrip(n: nat)
    requires n < 0x4000
    ensures var r := CompactLength(n);
            Value(r) / 4 == n && |r| == 1 + r[0] % 4 && (n < 64 <==> r[0] % 4 == 0)
  {
    if n < 64 {
      assert [4 * n][1..] == [];
    } else {
      assert Power256(2) == 65536;
      LittleEndianRoundTrip(4 * n + 1, 2);
    }
  }

  /** Where the fields stand in the collected bytes. */
  lemma DataLayout(f: Fields, width: Width)
    requires InRange(f, width)
    ensures var d := Data(f, width);
            match f
            case VoteFields(hash, view) => |d| == 40 && d[..32] == hash && Value(d[32..]) == view
            case TimeoutFields(view, qcView) => |d| == 16 && Value(d[..8]) == view && Value(d[8..]) == qcView
            case ProposalFields(author, hash, number, view, parent) =>
              && |d| == 104 + width && d[..32] == author && d[32..64] == hash && Value(d[64..64 + width]) == number
              && Value(d[64 + width..72 + width]) == view && d[72 + width..] == parent
  {
    var d := Data(f, width);
    match f
    case VoteFields(hash, view) =>
      LittleEndianRoundTrip(view, 8);
      assert d[32..] == LittleEndian(view, 8);
    case TimeoutFields(view, qcView) =>
      LittleEndianRoundTrip(view, 8);
      LittleEndianRoundTrip(qcView, 8);
      assert d[..8] == LittleEndian(view, 8) && d[8..] == LittleEndian(qcView, 8);
    case ProposalFields(author, hash, number, view, parent) =>
      LittleEndianRoundTrip(number, width);
      LittleEndianRoundTrip(view, 8);
      assert d[64..64 + width] == LittleEndian(number, width);
      assert d[64 + width..72 + width] == LittleEndian(view, 8);
  }

  lemma AppendInjective(a: seq<Byte>, b: seq<Byte>, a': seq<Byte>, b': seq<Byte>)
    requires |a| == |a'|
    ensures a + b == a' + b' <==> a == a' && b == b'
  {
    if a + b == a' + b' {
      assert a == (a + b)[..|a|] && a' == (a' + b')[..|a|];
      assert b == (a + b)[|a|..] && b' == (a' + b')[|a|..];
    }
  }

  lemma ProposalDataInjective(f: Fields, g: Fields, width: Width)
    requires InRange(f, width) && InRange(g, width) && f.ProposalFields? && g.ProposalFields?
    requires Data(f, width) == Data(g, width)
    ensures f == g
  {
    var fn, gn := LittleEndian(f.blockNumber, width), LittleEndian(g.blockNumber, width);
    var fv, gv := LittleEndian(f.view, U64_BYTES), LittleEndian(g.view, U64_BYTES);
    AppendInjective(f.author + (f.blockHash + fn) + fv, f.parent, g.author + (g.blockHash + gn) + gv, g.parent);
    AppendInjective(f.author + (f.blockHash + fn), fv, g.author + (g.blockHash + gn), gv);
    AppendInjective(f.author, f.blockHash + fn, g.author, g.blockHash + gn);
    AppendInjective(f.blockHash, fn, g.blockHash, gn);
    LittleEndianInjective(f.blockNumber, g.blockNumber, width);
    LittleEndianInjective(f.view, g.view, U64_BYTES);
  }

  lemma DataInjective(f: Fields, g: Fields, width: Width)
    requires InRange(f, width) && InRange(g, width)
    ensures Data(f, width) == Data(g, width) <==> f == g
  {
    if Data(f, width) == Data(g, width) {
      assert |Data(f, width)| == |Data(g, width)|;
      match f
      case VoteFields(hash, view) =>
        AppendInjective(hash, LittleEndian(view, U64_BYTES), g.proposalHash, LittleEndian(g.view, U64_BYTES));
        LittleEndianInjective(view, g.view, U64_BYTES);
      case TimeoutFields(view, qcView) =>
        AppendInjective(LittleEndian(view, U64_BYTES), LittleEndian(qcView, U64_BYTES),
                        LittleEndian(g.view, U64_BYTES), LittleEndian(g.qcView, U64_BYTES));
        LittleEndianInjective(view, g.view, U64_BYTES);
        LittleEndianInjective(qcView, g.qcView, U64_BYTES);
      case ProposalFields(_, _, _, _, _) =>
        ProposalDataInjective(f, g, width);
    }
  }

  /** Preimages determine all fields, and no vote, timeout or proposal shares a preimage with another kind. */
  lemma PreimageInjective(f: Fields, g: Fields, width: Width)
    requires InRange(f, width) && InRange(g, width)
    ensures Preimage(f, width) == Preimage(g, width) <==> f == g
  {
    hide Data, CompactLength;
    DataLength(f, width);
    DataLength(g, width);
    var d, e := Data(f, width), Data(g, width);
    if Preimage(f, width) == Preimage(g, width) {
      assert |CompactLength(|d|)| + |d| == |Preimage(f, width)|;
      assert |CompactLength(|e|)| + |e| == |Preimage(g, width)|;
      AppendInjective(CompactLength(|d|), d, CompactLength(|e|), e);
      DataInjective(f, g, width);
    }
  }

  // ---------- The terms of module Types ----------

  /** The bytes of the hashes and identifiers in play.  Distinct ones have distinct bytes: this is where
      collision freedom is assumed, for finitely many hashes. */
  datatype Names = Names(hashes: map<Digest, seq<Byte>>, ids: map<AuthorityId, seq<Byte>>)

  ghost predicate ValidNames(names: Names) {
    && (forall d :: d in names.hashes ==> |names.hashes[d]| == HASH_BYTES)
    && (forall id :: id in names.ids ==> |names.ids[id]| == HASH_BYTES)
    && (forall d, e :: d in names.hashes && e in names.hashes && names.hashes[d] == names.hashes[e] ==> d == e)
    && (forall i, j :: i in names.ids && j in names.ids && names.ids[i] == names.ids[j] ==> i == j)
  }

  /** A digest the consensus code computes, from parts that have names and fit their widths. */
  predicate Computed(d: Digest, names: Names, width: Width) {
    match d
    case VoteHash(proposal, view) => proposal in names.hashes && view < Power256(U64_BYTES)
    case TimeoutHash(view, qcView) => view < Power256(U64_BYTES) && qcView < Power256(U64_BYTES)
    case ProposalHash(author, payload, view, parent) =>
      && author in names.ids && payload.blockHash in names.hashes && parent in names.hashes
      && payload.blockNumber < Power256(width) && view < Power256(U64_BYTES)
    case _ => false
  }

  function FieldsOf(d: Digest, names: Names, width: Width): (f: Fields)
    requires ValidNames(names) && Computed(d, names, width)
    ensures InRange(f, width)
  {
    match d
    case VoteHash(proposal, view) => VoteFields(names.hashes[proposal], view)
    case TimeoutHash(view, qcView) => TimeoutFields(view, qcView)
    case ProposalHash(author, payload, view, parent) =>
      ProposalFields(names.ids[author], names.hashes[payload.blockHash], payload.blockNumber, view, names.hashes[parent])
  }

  /** Two computed digests are the same term exactly when the program hashes the same bytes for them. */
  lemma TermsMatchBytes(d: Digest, e: Digest, names: Names, width: Width)
    requires ValidNames(names) && Computed(d, names, width) && Computed(e, names, width)
    ensures Preimage(FieldsOf(d, names, width), width) == Preimage(FieldsOf(e, names, width), width) <==> d == e
  {
    PreimageInjective(FieldsOf(d, names, width), FieldsOf(e, names, width), width);
  }

  /** A certificate and a vote share their preimage exactly when they agree on proposal and view: this is
      what lets votes be collected into certificates. */
  lemma QcSharesVotePreimage(qc: QC, v: Vote, names: Names, width: Width)
    requires ValidNames(names) && Computed(QcDigest(qc), names, width) && Computed(VoteDigest(v), names, width)
    ensures Preimage(FieldsOf(QcDigest(qc), names, width), width) == Preimage(FieldsOf(VoteDigest(v), names, width), width)
            <==> qc.proposalHash == v.proposalHash && qc.view == v.view
  {
    TermsMatchBytes(QcDigest(qc), VoteDigest(v), names, width);
  }
}
