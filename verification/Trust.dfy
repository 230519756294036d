/** The environment assumptions, and what a replica may rely on under them.

    Up to `faulty` authorities are arbitrary.  `known` is the set of signatures honest replicas have
    made so far: a signature of an honest authority exists only if it is in that set. */
module Trust {
  import opened Types
  import opened Certificates
  import opened Aggregation
  import opened Replica

  datatype Config = Config(authorities: seq<AuthorityId>, faulty: set<AuthorityId>)

  ghost predicate ValidConfig(c: Config) {
    && |c.authorities| >= 2
    && NoDuplicates(c.authorities)
    && c.faulty <= Members(c.authorities)
    && 3 * |c.faulty| < |c.authorities|
  }

  function Honest(c: Config): set<AuthorityId> {
    Members(c.authorities) - c.faulty
  }

  /** More than two thirds of the authorities. */
  ghost predicate IsQuorum(c: Config, q: set<AuthorityId>) {
    q <= Members(c.authorities) && |q| > |c.authorities| * 2 / 3
  }

  lemma QuorumsMeet(c: Config, q1: set<AuthorityId>, q2: set<AuthorityId>) returns (id: AuthorityId)
    requires ValidConfig(c) && IsQuorum(c, q1) && IsQuorum(c, q2)
    ensures id in q1 && id in q2 && id in Honest(c)
  {
    MembersCount(c.authorities);
    QuorumsIntersect(Members(c.authorities), c.faulty, q1, q2);
    id :| id in q1 && id in q2 && id !in c.faulty;
  }

  // ---------- Unforgeability ----------

  /** `id` signed `digest`, as far as honest authorities are concerned. */
  ghost predicate Backed(c: Config, known: set<Signature>, id: AuthorityId, digest: Digest) {
    id in c.faulty || Sig(id, digest) in known
  }

  /** A signature that can occur in a message: honest authorities' signatures are not forged. */
  ghost predicate Authentic(c: Config, known: set<Signature>, signature: Signature) {
    signature.Sig? && signature.signer in Honest(c) ==> signature in known
  }

  ghost predicate AuthenticQcVotes(c: Config, known: set<Signature>, qc: QC) {
    forall i :: 0 <= i < |qc.votes| ==> Authentic(c, known, qc.votes[i].1)
  }

  ghost predicate AuthenticTcVotes(c: Config, known: set<Signature>, tc: TC) {
    forall i :: 0 <= i < |tc.votes| ==> Authentic(c, known, tc.votes[i].1)
  }

  predicate QcNamesAuthorities(c: Config, qc: QC) {
    forall i :: 0 <= i < |qc.votes| ==> qc.votes[i].0 in c.authorities
  }

  predicate TcNamesAuthorities(c: Config, tc: TC) {
    forall i :: 0 <= i < |tc.votes| ==> tc.votes[i].0 in c.authorities
  }

  /** Certificates in circulation name authorities only.  The verification of certificates does not
      check this, so it is an assumption on the environment. */
  ghost predicate AuthenticQc(c: Config, known: set<Signature>, qc: QC) {
    AuthenticQcVotes(c, known, qc) && QcNamesAuthorities(c, qc)
  }

  ghost predicate AuthenticTc(c: Config, known: set<Signature>, tc: TC) {
    AuthenticTcVotes(c, known, tc) && TcNamesAuthorities(c, tc)
  }

  ghost predicate AuthenticOption(c: Config, known: set<Signature>, signature: Option<Signature>) {
    signature.Some? ==> Authentic(c, known, signature.value)
  }

  /** The messages that can reach an honest replica: anything the network and the faulty authorities
      can put together.  A timeout certificate inside a proposal is unconstrained. */
  ghost predicate AuthenticMessage(c: Config, known: set<Signature>, m: Message) {
    match m
    case Propose(p) => AuthenticOption(c, known, p.signature) && AuthenticQc(c, known, p.qc)
    case VoteMsg(v) => AuthenticOption(c, known, v.signature)
    case TimeoutMsg(t) => AuthenticOption(c, known, t.signature) && AuthenticQc(c, known, t.highQc)
    case TcMsg(tc) => AuthenticTc(c, known, tc)
    case SyncRequest(_, _) => true
  }

  // ---------- What certificates mean ----------

  /** A certificate that passes verification and that a quorum of authorities signed. */
  ghost predicate QuorumQc(c: Config, known: set<Signature>, qc: QC) {
    && CheckQc(qc, c.authorities).Ok?
    && forall i :: 0 <= i < |qc.votes| ==>
         qc.votes[i].0 in c.authorities && Backed(c, known, qc.votes[i].0, QcDigest(qc))
  }

  ghost predicate GoodQc(c: Config, known: set<Signature>, qc: QC) {
    EqualsDefault(qc) || QuorumQc(c, known, qc)
  }

  /** The members of `q` voted for `digest` in `view`, honest ones by a signature they really made. */
  ghost predicate VotedBy(c: Config, known: set<Signature>, digest: Digest, view: View, q: set<AuthorityId>) {
    IsQuorum(c, q) && forall id :: id in q ==> Backed(c, known, id, VoteHash(digest, view))
  }

  /** Of the certificates that pass verification, exactly the default one and those that name authorities only
      are what they claim to be. */
  lemma CheckedQcIsGood(c: Config, known: set<Signature>, qc: QC)
    requires AuthenticQcVotes(c, known, qc) && CheckCarriedQc(qc, c.authorities).Ok?
    ensures GoodQc(c, known, qc) <==> EqualsDefault(qc) || QcNamesAuthorities(c, qc)
  {
    var bs := QcBallots(qc);
    CheckMeaning(bs, |c.authorities|);
    if !EqualsDefault(qc) && QcNamesAuthorities(c, qc) {
      forall i | 0 <= i < |qc.votes| ensures Backed(c, known, qc.votes[i].0, QcDigest(qc)) {
        assert Valid(bs[i]);
      }
    }
  }

  function QcVoters(qc: QC): set<AuthorityId> {
    Voters(QcBallots(qc))
  }

  lemma QuorumQcVoters(c: Config, known: set<Signature>, qc: QC)
    requires QuorumQc(c, known, qc)
    ensures VotedBy(c, known, qc.proposalHash, qc.view, QcVoters(qc))
  {
    var bs := QcBallots(qc);
    CheckMeaning(bs, |c.authorities|);
    VotersCount(bs);
    forall id | id in QcVoters(qc)
      ensures id in Members(c.authorities) && Backed(c, known, id, QcDigest(qc))
    {
      var i :| 0 <= i < |bs| && bs[i].voter == id;
      assert qc.votes[i].0 == id;
    }
  }

  /** The voters of a certificate that passes verification are a quorum, and voted as it says, if and only if
      they are authorities. */
  lemma AcceptedQcMeaning(c: Config, known: set<Signature>, qc: QC)
    requires AuthenticQcVotes(c, known, qc) && CheckQc(qc, c.authorities).Ok?
    ensures IsQuorum(c, QcVoters(qc)) <==> QcNamesAuthorities(c, qc)
    ensures VotedBy(c, known, qc.proposalHash, qc.view, QcVoters(qc)) <==> QcNamesAuthorities(c, qc)
  {
    var bs := QcBallots(qc);
    CheckMeaning(bs, |c.authorities|);
    if QcNamesAuthorities(c, qc) {
      forall i | 0 <= i < |qc.votes| ensures Backed(c, known, qc.votes[i].0, QcDigest(qc)) {
        assert Valid(bs[i]);
      }
      QuorumQcVoters(c, known, qc);
    } else {
      var i :| 0 <= i < |qc.votes| && qc.votes[i].0 !in c.authorities;
      assert bs[i].voter in QcVoters(qc);
    }
  }

  /** A faulty leader can carry a certificate for any hash and view that no authority has signed in a proposal
      that every replica accepts. */
  lemma OutsiderProposal(c: Config, s: State, payload: Payload, view: View, hash: Digest, qcView: View)
      returns (p: Proposal)
    requires ValidConfig(c) && s.authorities == c.authorities && Leader(c.authorities, view) in c.faulty
    ensures ProposalVerdict(s, p).Ok? && p.view == view && p.payload == payload
    ensures p.qc.proposalHash == hash && p.qc.view == qcView && |p.qc.votes| > |c.authorities| * 2 / 3
    ensures forall i :: 0 <= i < |p.qc.votes| ==> p.qc.votes[i].0 !in c.authorities
    ensures AuthenticOption(c, {}, p.signature) && AuthenticQcVotes(c, {}, p.qc)
  {
    var author := Leader(c.authorities, view);
    var qc := OutsiderQc(c.authorities, hash, qcView);
    CheckMeaning(QcBallots(qc), |c.authorities|);
    p := Proposal(qc, None, payload, view, author, Some(Sig(author, ProposalHash(author, payload, view, hash))));
  }

  /** A timeout certificate that no authority has signed takes any replica out of its view. */
  lemma OutsiderTcAdvances(c: Config, s: State) returns (tc: TC)
    requires WellFormed(s) && s.authorities == c.authorities
    ensures AuthenticTcVotes(c, {}, tc) && forall i :: 0 <= i < |tc.votes| ==> tc.votes[i].0 !in c.authorities
    ensures HandleTc(s, tc).state.view > s.view
  {
    hide GenerateProposal, CheckTc, Leader;
    tc := OutsiderTc(c.authorities, s.view);
    var s1 := AdvanceView(s, tc.view).(processing := None);
    assert s1.view == s.view + 1;
  }

  /** An honest signature over a vote or a timeout of the view. */
  predicate OfView(d: Digest, view: View) {
    (d.VoteHash? || d.TimeoutHash?) && d.view == view
  }

  ghost predicate SignedInView(c: Config, known: set<Signature>, id: AuthorityId, view: View) {
    id in c.faulty || exists d :: OfView(d, view) && Sig(id, d) in known
  }

  ghost predicate QuorumInView(c: Config, known: set<Signature>, view: View, q: set<AuthorityId>) {
    IsQuorum(c, q) && forall id :: id in q ==> SignedInView(c, known, id, view)
  }

  /** A quorum signed a vote or a timeout of the view. */
  ghost predicate Witnessed(c: Config, known: set<Signature>, view: View) {
    exists q :: QuorumInView(c, known, view, q)
  }

  lemma QcWitnesses(c: Config, known: set<Signature>, qc: QC)
    requires QuorumQc(c, known, qc)
    ensures Witnessed(c, known, qc.view)
  {
    QuorumQcVoters(c, known, qc);
    var q := QcVoters(qc);
    forall id | id in q ensures SignedInView(c, known, id, qc.view) {
      assert OfView(QcDigest(qc), qc.view);
    }
    assert QuorumInView(c, known, qc.view, q);
  }

  /** `signature` is a signature of `id` over a timeout of the view. */
  ghost predicate TimeoutBacked(c: Config, known: set<Signature>, id: AuthorityId, signature: Signature, view: View) {
    && signature.Sig? && signature.signer == id
    && signature.digest.TimeoutHash? && signature.digest.view == view
    && (id in c.faulty || signature in known)
  }

  /** A quorum of authorities whose entries sign timeouts of the certificate's view; unlike verification,
      this does not look at the third component of the entries. */
  ghost predicate QuorumTc(c: Config, known: set<Signature>, tc: TC) {
    && |tc.votes| > |c.authorities| * 2 / 3
    && Distinct(TcBallots(tc))
    && forall i :: 0 <= i < |tc.votes| ==>
         tc.votes[i].0 in c.authorities && TimeoutBacked(c, known, tc.votes[i].0, tc.votes[i].1, tc.view)
  }

  /** A timeout certificate that passes verification carries timeouts of its view signed by a quorum if and only
      if it names authorities only. */
  lemma CheckedTcIsQuorum(c: Config, known: set<Signature>, tc: TC)
    requires AuthenticTcVotes(c, known, tc) && CheckTc(tc, c.authorities).Ok?
    ensures QuorumTc(c, known, tc) <==> TcNamesAuthorities(c, tc)
  {
    var bs := TcBallots(tc);
    CheckMeaning(bs, |c.authorities|);
    if TcNamesAuthorities(c, tc) {
      forall i | 0 <= i < |tc.votes| ensures TimeoutBacked(c, known, tc.votes[i].0, tc.votes[i].1, tc.view) {
        assert Valid(bs[i]);
      }
    }
  }

  lemma TcWitnesses(c: Config, known: set<Signature>, tc: TC)
    requires QuorumTc(c, known, tc)
    ensures Witnessed(c, known, tc.view)
  {
    var bs := TcBallots(tc);
    VotersCount(bs);
    var q := Voters(bs);
    forall id | id in q
      ensures id in Members(c.authorities) && SignedInView(c, known, id, tc.view)
    {
      var i :| 0 <= i < |bs| && bs[i].voter == id;
      assert tc.votes[i].0 == id;
      assert OfView(tc.votes[i].1.digest, tc.view);
    }
    assert QuorumInView(c, known, tc.view, q);
  }

  // ---------- Monotonicity ----------

  lemma WitnessedGrows(c: Config, known: set<Signature>, known': set<Signature>, view: View)
    requires known <= known' && Witnessed(c, known, view)
    ensures Witnessed(c, known', view)
  {
    var q :| QuorumInView(c, known, view, q);
    assert QuorumInView(c, known', view, q);
  }
}
