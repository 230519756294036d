/** What holds in every state of every run. */
module Safety {
  import opened Types
  import opened Certificates
  import opened Replica
  import opened Trust
  import opened Invariant
  import opened Protocol

  /** A quorum voted for the proposal with digest `d`. */
  ghost predicate Certified(c: Config, sys: System, d: Digest) {
    exists q :: VotedBy(c, Signed(sys), d, ViewOf(d), q)
  }

  /** `child` directly follows `d`, in the next view, and both are certified. */
  ghost predicate TwoChain(c: Config, sys: System, d: Digest, child: Digest) {
    && Certified(c, sys, d) && Certified(c, sys, child)
    && child.ProposalHash? && child.parent == d && child.view == ViewOf(d) + 1
  }

  predicate Descends(d: Digest, ancestor: Digest) {
    d == ancestor || (d.ProposalHash? && Descends(d.parent, ancestor))
  }

  /** Replica `id` asked its client to finalise the payload of `grandpa`. */
  ghost predicate Finalized(sys: System, id: AuthorityId, child: Proposal, parent: Proposal, grandpa: Proposal) {
    id in sys && FinalizeCalled(child, parent, grandpa) in sys[id].trace
  }

  // ---------- Votes behind certificates ----------

  lemma HonestVote(c: Config, sys: System, id: AuthorityId, d: Digest, view: View) returns (i: int)
    requires SystemInv(c, sys) && id in sys && Sig(id, VoteHash(d, view)) in Signed(sys)
    ensures VotedAt(sys[id].trace, i, d) && sys[id].trace[i].proposal.view == view
    ensures d.ProposalHash? && ViewOf(d) == view && view >= 1
  {
    hide Inv, Descent;
    var id' :| id' in sys && Sig(id, VoteHash(d, view)) in Made(id', sys[id'].trace);
    MadeSigner(id', sys[id'].trace);
    i := VoteSignature(id, sys[id].trace, d, view);
    VotedViewPositive(c, SignedByOthers(sys, id), sys[id], i);
  }

  lemma HonestVoter(c: Config, sys: System, d: Digest, view: View, q: set<AuthorityId>) returns (id: AuthorityId, i: int)
    requires SystemInv(c, sys) && VotedBy(c, Signed(sys), d, view, q)
    ensures id in q && id in sys && VotedAt(sys[id].trace, i, d) && sys[id].trace[i].proposal.view == view
    ensures d.ProposalHash? && ViewOf(d) == view && view >= 1
  {
    hide Inv, Descent;
    id := QuorumsMeet(c, q, q);
    assert Backed(c, Signed(sys), id, VoteHash(d, view));
    i := HonestVote(c, sys, id, d, view);
  }

  /** A quorum of votes of a view is for a proposal of that view, and the view is not 0. */
  lemma CertificateView(c: Config, sys: System, d: Digest, view: View, q: set<AuthorityId>)
    requires SystemInv(c, sys) && VotedBy(c, Signed(sys), d, view, q)
    ensures d.ProposalHash? && ViewOf(d) == view && view >= 1 && Certified(c, sys, d)
  {
    hide Inv, Descent;
    var _, _ := HonestVoter(c, sys, d, view, q);
  }

  lemma OneVotePerView(c: Config, base: set<Signature>, s: State, i: int, j: int)
    requires Inv(c, base, s)
    requires 0 <= i < |s.trace| && 0 <= j < |s.trace| && s.trace[i].Voted? && s.trace[j].Voted?
    ensures s.trace[i].proposal.view < s.trace[j].proposal.view ==> i < j
    ensures s.trace[i].proposal.view == s.trace[j].proposal.view ==> i == j
  {
    hide Sound, GoodTrace;
    assert Binding(s.trace[i]) && Binding(s.trace[j]);
  }

  lemma SameViewSameProposal(c: Config, sys: System, d1: Digest, q1: set<AuthorityId>, d2: Digest, q2: set<AuthorityId>, view: View)
    requires SystemInv(c, sys)
    requires VotedBy(c, Signed(sys), d1, view, q1) && VotedBy(c, Signed(sys), d2, view, q2)
    ensures d1 == d2
  {
    hide Inv, Descent;
    var id := QuorumsMeet(c, q1, q2);
    assert Backed(c, Signed(sys), id, VoteHash(d1, view)) && Backed(c, Signed(sys), id, VoteHash(d2, view));
    var i := HonestVote(c, sys, id, d1, view);
    var j := HonestVote(c, sys, id, d2, view);
    OneVotePerView(c, SignedByOthers(sys, id), sys[id], i, j);
  }

  lemma CertifiedUnique(c: Config, sys: System, d1: Digest, d2: Digest)
    requires SystemInv(c, sys) && Certified(c, sys, d1) && Certified(c, sys, d2) && ViewOf(d1) == ViewOf(d2)
    ensures d1 == d2
  {
    hide SystemInv, VotedBy;
    var q1 :| VotedBy(c, Signed(sys), d1, ViewOf(d1), q1);
    var q2 :| VotedBy(c, Signed(sys), d2, ViewOf(d2), q2);
    SameViewSameProposal(c, sys, d1, q1, d2, q2, ViewOf(d1));
  }

  /** In every run, two certificates of one view that any replica would accept are for the same proposal,
      and their view is the view of that proposal. */
  lemma OneCertificatePerView(c: Config, sys: System, qc1: QC, qc2: QC)
    requires Reachable(c, sys)
    requires AuthenticQc(c, Signed(sys), qc1) && CheckQc(qc1, c.authorities).Ok?
    requires AuthenticQc(c, Signed(sys), qc2) && CheckQc(qc2, c.authorities).Ok?
    requires qc1.view == qc2.view
    ensures qc1.proposalHash == qc2.proposalHash
    ensures qc1.proposalHash.ProposalHash? && qc1.proposalHash.view == qc1.view
  {
    hide SystemInv, Reachable, CheckQc;
    ReachableInv(c, sys);
    AcceptedQcVotes(c, sys, qc1);
    AcceptedQcVotes(c, sys, qc2);
    SameViewSameProposal(c, sys, qc1.proposalHash, QcVoters(qc1), qc2.proposalHash, QcVoters(qc2), qc1.view);
    CertificateView(c, sys, qc1.proposalHash, qc1.view, QcVoters(qc1));
  }

  /** That both name authorities only is needed: in any state there are two certificates of any one view, for any
      two hashes, that every replica accepts and for which no authority has signed anything. */
  lemma OutsiderCertificatesConflict(c: Config, hash1: Digest, hash2: Digest, view: View) returns (qc1: QC, qc2: QC)
    ensures qc1.proposalHash == hash1 && qc2.proposalHash == hash2 && qc1.view == qc2.view == view
    ensures CheckQc(qc1, c.authorities).Ok? && CheckQc(qc2, c.authorities).Ok?
    ensures AuthenticQcVotes(c, {}, qc1) && AuthenticQcVotes(c, {}, qc2)
  {
    hide CheckQc;
    qc1 := OutsiderQc(c.authorities, hash1, view);
    qc2 := OutsiderQc(c.authorities, hash2, view);
  }

  lemma AcceptedQcVotes(c: Config, sys: System, qc: QC)
    requires SystemInv(c, sys) && AuthenticQc(c, Signed(sys), qc) && CheckQc(qc, c.authorities).Ok?
    ensures VotedBy(c, Signed(sys), qc.proposalHash, qc.view, QcVoters(qc))
  {
    hide Inv, Descent;
    if EqualsDefault(qc) {
      DefaultIsNotCertified(c, sys, qc);
    } else {
      CheckedQcIsGood(c, Signed(sys), qc);
      QuorumQcVoters(c, Signed(sys), qc);
    }
  }

  /** No quorum can sign a certificate that equals the default one. */
  lemma DefaultIsNotCertified(c: Config, sys: System, qc: QC)
    requires SystemInv(c, sys) && AuthenticQc(c, Signed(sys), qc) && CheckQc(qc, c.authorities).Ok?
    ensures !EqualsDefault(qc)
  {
    hide Inv, Descent;
    var bs := QcBallots(qc);
    CheckMeaning(bs, |c.authorities|);
    forall i | 0 <= i < |qc.votes| ensures Backed(c, Signed(sys), qc.votes[i].0, QcDigest(qc)) {
      assert Valid(bs[i]);
    }
    QuorumQcVoters(c, Signed(sys), qc);
    var _, _ := HonestVoter(c, sys, qc.proposalHash, qc.view, QcVoters(qc));
  }

  // ---------- Views descend ----------

  lemma {:induction false} SignedContains(c: Config, sys: System, id: AuthorityId, i: int)
    requires SystemInv(c, sys) && id in sys && 0 <= i <= |sys[id].trace|
    ensures SignedByOthers(sys, id) + Made(id, sys[id].trace[..i]) <= Signed(sys)
  {
    hide Inv, Descent;
    MadeGrows(id, sys[id].trace[..i], sys[id].trace);
  }

  lemma GoodQcGrows(c: Config, known: set<Signature>, known': set<Signature>, qc: QC)
    requires known <= known' && GoodQc(c, known, qc)
    ensures GoodQc(c, known', qc)
  {
  }

  /** A certificate a replica has verified names the view of the proposal it is for; unless it is the
      default one, that proposal is certified. */
  lemma GoodQcMeaning(c: Config, sys: System, qc: QC)
    requires SystemInv(c, sys) && GoodQc(c, Signed(sys), qc)
    ensures qc.view == ViewOf(qc.proposalHash)
    ensures qc.proposalHash == Zero || Certified(c, sys, qc.proposalHash)
  {
    hide Inv, Descent;
    if !EqualsDefault(qc) {
      QuorumQcVoters(c, Signed(sys), qc);
      CertificateView(c, sys, qc.proposalHash, qc.view, QcVoters(qc));
    }
  }

  lemma VotedParent(c: Config, sys: System, id: AuthorityId, i: int)
    requires SystemInv(c, sys) && id in sys && 0 <= i < |sys[id].trace| && sys[id].trace[i].Voted?
    ensures var p := sys[id].trace[i].proposal;
            && p.qc.view == ViewOf(p.qc.proposalHash)
            && (p.qc.proposalHash == Zero || Certified(c, sys, p.qc.proposalHash))
  {
    hide Inv, Descent, GoodQc;
    var base := SignedByOthers(sys, id);
    VoteCertificate(c, base, sys[id], i);
    SignedContains(c, sys, id, i);
    GoodQcGrows(c, base + Made(id, sys[id].trace[..i]), Signed(sys), sys[id].trace[i].proposal.qc);
    GoodQcMeaning(c, sys, sys[id].trace[i].proposal.qc);
  }

  lemma CertifiedChain(c: Config, sys: System, d: Digest)
    requires SystemInv(c, sys) && Certified(c, sys, d)
    ensures d.ProposalHash? && ViewOf(d.parent) < d.view
    ensures d.parent == Zero || Certified(c, sys, d.parent)
  {
    hide Inv, Certified, Descent;
    var q := CertifyingQuorum(c, sys, d);
    var id, i := HonestVoter(c, sys, d, ViewOf(d), q);
    VotedParent(c, sys, id, i);
    if ViewOf(d.parent) >= d.view {
      var q' := BlockingQuorum(c, sys, d, id, i);
      var id' := QuorumsMeet(c, q, q');
      assert Backed(c, Signed(sys), id', VoteHash(d, ViewOf(d)));
      var j := HonestVote(c, sys, id', d, ViewOf(d));
      assert false;
    }
  }

  lemma CertifyingQuorum(c: Config, sys: System, d: Digest) returns (q: set<AuthorityId>)
    requires Certified(c, sys, d)
    ensures VotedBy(c, Signed(sys), d, ViewOf(d), q)
  {
    q :| VotedBy(c, Signed(sys), d, ViewOf(d), q);
  }

  lemma BlockingQuorum(c: Config, sys: System, d: Digest, id: AuthorityId, i: int) returns (q: set<AuthorityId>)
    requires SystemInv(c, sys) && id in sys && VotedAt(sys[id].trace, i, d)
    requires d.ProposalHash? && ViewOf(d.parent) >= d.view
    ensures BlockedBy(c, sys, d, q)
  {
    hide Inv;
    assert HasVotedFor(sys[id].trace, d);
    q :| BlockedBy(c, sys, d, q);
  }

  /** In every run, the parent of a certified proposal has a strictly lower view, although no handler
      compares the two, and is certified itself unless it is the default hash. */
  lemma ViewsDescend(c: Config, sys: System, d: Digest)
    requires Reachable(c, sys) && Certified(c, sys, d)
    ensures d.ProposalHash? && ViewOf(d.parent) < d.view
    ensures d.parent == Zero || Certified(c, sys, d.parent)
  {
    hide SystemInv, Reachable, Certified;
    ReachableInv(c, sys);
    CertifiedChain(c, sys, d);
  }

  lemma StoredQc(c: Config, base: set<Signature>, s: State, d: Digest)
    requires Inv(c, base, s) && d in s.store
    ensures ProposalDigest(s.store[d]) == d && GoodQc(c, Known(base, s), s.store[d].qc)
  {
    hide Discipline, GoodTrace;
  }

  /** The certificate in any copy of a certified proposal that an honest replica has stored is of a
      strictly lower view than the proposal. */
  lemma StoredCopiesDescend(c: Config, sys: System, id: AuthorityId, d: Digest)
    requires Reachable(c, sys) && id in sys && d in sys[id].store && Certified(c, sys, d)
    ensures sys[id].store[d].qc.view < sys[id].store[d].view
  {
    hide Inv, Descent, Reachable, Certified, GoodQc;
    ReachableInv(c, sys);
    CertifiedChain(c, sys, d);
    StoredQc(c, SignedByOthers(sys, id), sys[id], d);
    KnownIsSigned(c, sys, id);
    GoodQcMeaning(c, sys, sys[id].store[d].qc);
  }

  // ---------- Finalisation ----------

  lemma FinalizeEvent(c: Config, base: set<Signature>, s: State, i: int)
    requires Inv(c, base, s) && 0 <= i < |s.trace| && s.trace[i].FinalizeCalled?
    ensures GoodEvent(c, base + Made(s.me.value, s.trace[..i]), s.me.value, s.trace[i])
  {
    hide Sound, Discipline;
  }

  lemma FinalizedChain(c: Config, sys: System, id: AuthorityId, child: Proposal, parent: Proposal, grandpa: Proposal)
    requires SystemInv(c, sys) && Finalized(sys, id, child, parent, grandpa)
    ensures TwoChain(c, sys, ProposalDigest(grandpa), ProposalDigest(parent))
    ensures child.qc.proposalHash == ProposalDigest(parent) && child.qc.view == parent.view
    ensures parent.qc.proposalHash == ProposalDigest(grandpa) && parent.qc.view == grandpa.view
    ensures grandpa.payload.blockHash != EMPTY_PAYLOAD
  {
    hide Inv, Descent, QuorumQc;
    var i :| 0 <= i < |sys[id].trace| && sys[id].trace[i] == FinalizeCalled(child, parent, grandpa);
    var known := SignedByOthers(sys, id) + Made(id, sys[id].trace[..i]);
    FinalizeEvent(c, SignedByOthers(sys, id), sys[id], i);
    SignedContains(c, sys, id, i);
    GoodQcGrows(c, known, Signed(sys), child.qc);
    GoodQcMeaning(c, sys, child.qc);
    GoodQcGrows(c, known, Signed(sys), parent.qc);
    GoodQcMeaning(c, sys, parent.qc);
  }

  /** Every finalise call is justified by a full two-chain: the finalised proposal and its child, in the
      next view, are both certified, by the certificates the replica has verified. */
  lemma FinalizedIsTwoChain(c: Config, sys: System, id: AuthorityId, child: Proposal, parent: Proposal, grandpa: Proposal)
    requires Reachable(c, sys) && Finalized(sys, id, child, parent, grandpa)
    ensures TwoChain(c, sys, ProposalDigest(grandpa), ProposalDigest(parent))
    ensures child.qc.proposalHash == ProposalDigest(parent) && child.qc.view == parent.view
    ensures parent.qc.proposalHash == ProposalDigest(grandpa) && parent.qc.view == grandpa.view
    ensures parent.view == grandpa.view + 1
  {
    hide SystemInv, Reachable, Certified;
    ReachableInv(c, sys);
    FinalizedChain(c, sys, id, child, parent, grandpa);
  }

  /** Two honest replicas that finalise proposals of the same view finalise the same proposal; if one
      finalises in a view and another in the next, the second proposal is the child of the first.  No
      rule on which proposals may be voted for is needed. */
  lemma FinalizationAgreement(
    c: Config, sys: System,
    id1: AuthorityId, child1: Proposal, parent1: Proposal, grandpa1: Proposal,
    id2: AuthorityId, child2: Proposal, parent2: Proposal, grandpa2: Proposal)
    requires Reachable(c, sys)
    requires Finalized(sys, id1, child1, parent1, grandpa1) && Finalized(sys, id2, child2, parent2, grandpa2)
    ensures grandpa1.view == grandpa2.view ==>
              ProposalDigest(grandpa1) == ProposalDigest(grandpa2) && grandpa1.payload == grandpa2.payload
    ensures grandpa2.view == grandpa1.view + 1 ==>
              ProposalDigest(grandpa2) == ProposalDigest(parent1) && grandpa2.qc.proposalHash == ProposalDigest(grandpa1)
  {
    hide SystemInv, Reachable, Certified;
    ReachableInv(c, sys);
    FinalizedChain(c, sys, id1, child1, parent1, grandpa1);
    FinalizedChain(c, sys, id2, child2, parent2, grandpa2);
    if grandpa1.view == grandpa2.view {
      CertifiedUnique(c, sys, ProposalDigest(grandpa1), ProposalDigest(grandpa2));
    } else if grandpa2.view == grandpa1.view + 1 {
      CertifiedUnique(c, sys, ProposalDigest(parent1), ProposalDigest(grandpa2));
    }
  }

  // ---------- A locking rule ----------

  /** Each honest replica votes only for proposals whose certificate is at least as high as that of every
      proposal it voted for before.  The voting function leaves such a rule open. */
  ghost predicate Locked(sys: System) {
    forall id, i, j ::
      id in sys && 0 <= i < j < |sys[id].trace| && sys[id].trace[i].Voted? && sys[id].trace[j].Voted? ==>
        sys[id].trace[i].proposal.qc.view <= sys[id].trace[j].proposal.qc.view
  }

  lemma LockedParents(c: Config, sys: System, d: Digest, later: Digest)
    requires SystemInv(c, sys) && Locked(sys)
    requires Certified(c, sys, d) && Certified(c, sys, later) && ViewOf(d) < ViewOf(later)
    ensures d.ProposalHash? && later.ProposalHash? && ViewOf(d.parent) <= ViewOf(later.parent)
  {
    hide Inv, Descent, Certified;
    var q1 := CertifyingQuorum(c, sys, d);
    var q2 := CertifyingQuorum(c, sys, later);
    var id := QuorumsMeet(c, q1, q2);
    assert Backed(c, Signed(sys), id, VoteHash(d, ViewOf(d))) && Backed(c, Signed(sys), id, VoteHash(later, ViewOf(later)));
    var i := HonestVote(c, sys, id, d, ViewOf(d));
    var j := HonestVote(c, sys, id, later, ViewOf(later));
    OneVotePerView(c, SignedByOthers(sys, id), sys[id], i, j);
    VotedParent(c, sys, id, i);
    VotedParent(c, sys, id, j);
  }

  // ---------- Exactly when a later proposal descends ----------

  /** Every proposal on the branch of `later` above the view of `child` was proposed on a certificate at least
      as high as the view of `d`. */
  ghost predicate BranchCarriesHighQc(d: Digest, child: Digest, later: Digest) {
    forall x: Digest :: x.ProposalHash? && x.view > ViewOf(child) && Descends(later, x) ==> ViewOf(x.parent) >= ViewOf(d)
  }

  lemma {:induction false} HighQcDescends(c: Config, sys: System, d: Digest, child: Digest, later: Digest)
    requires SystemInv(c, sys) && TwoChain(c, sys, d, child) && BranchCarriesHighQc(d, child, later)
    requires Certified(c, sys, later) && ViewOf(later) >= ViewOf(d)
    ensures Descends(later, d)
    decreases ViewOf(later)
  {
    hide SystemInv, Certified;
    CertifiedChain(c, sys, d);
    CertifiedChain(c, sys, later);
    if ViewOf(later) == ViewOf(d) {
      CertifiedUnique(c, sys, later, d);
    } else if ViewOf(later) == ViewOf(child) {
      CertifiedUnique(c, sys, later, child);
    } else {
      assert Descends(later, later);
      HighQcDescends(c, sys, d, child, later.parent);
    }
  }

  lemma {:induction false} DescendantViews(c: Config, sys: System, d: Digest, later: Digest)
    requires SystemInv(c, sys) && Certified(c, sys, d) && Certified(c, sys, later) && Descends(later, d)
    ensures ViewOf(later) >= ViewOf(d)
    ensures ViewOf(later) == ViewOf(d) ==> later == d
    decreases later
  {
    hide SystemInv, Certified;
    CertifiedChain(c, sys, d);
    CertifiedChain(c, sys, later);
    if later != d {
      DescendantViews(c, sys, d, later.parent);
    }
  }

  /** Between a certified proposal and a certified ancestor of it, every proposal of a view above the ancestor's
      was proposed on a certificate at least as high as that ancestor. */
  lemma {:induction false} DescentCarriesHighQc(c: Config, sys: System, d: Digest, later: Digest, x: Digest)
    requires SystemInv(c, sys) && Certified(c, sys, d) && Certified(c, sys, later) && Descends(later, d)
    requires x.ProposalHash? && Descends(later, x) && x.view > ViewOf(d)
    ensures ViewOf(x.parent) >= ViewOf(d)
    decreases later
  {
    hide SystemInv, Certified;
    CertifiedChain(c, sys, d);
    CertifiedChain(c, sys, later);
    if later == x {
      DescendantViews(c, sys, d, later.parent);
    } else {
      AncestorViews(c, sys, later.parent, x);
      if later != d {
        DescentCarriesHighQc(c, sys, d, later.parent, x);
      }
    }
  }

  lemma {:induction false} AncestorViews(c: Config, sys: System, later: Digest, x: Digest)
    requires SystemInv(c, sys) && (later == Zero || Certified(c, sys, later)) && Descends(later, x)
    ensures ViewOf(x) <= ViewOf(later)
    decreases later
  {
    hide SystemInv, Certified;
    if later != x {
      CertifiedChain(c, sys, later);
      AncestorViews(c, sys, later.parent, x);
    }
  }

  lemma {:induction false} DescentCondition(c: Config, sys: System, d: Digest, child: Digest, later: Digest)
    requires SystemInv(c, sys) && TwoChain(c, sys, d, child)
    requires Certified(c, sys, later) && ViewOf(later) >= ViewOf(d)
    ensures Descends(later, d) <==> BranchCarriesHighQc(d, child, later)
  {
    hide SystemInv, Certified, Descends;
    if BranchCarriesHighQc(d, child, later) {
      HighQcDescends(c, sys, d, child, later);
    }
    if Descends(later, d) {
      forall x: Digest | x.ProposalHash? && x.view > ViewOf(child) && Descends(later, x)
        ensures ViewOf(x.parent) >= ViewOf(d)
      {
        DescentCarriesHighQc(c, sys, d, later, x);
      }
    }
  }

  /** In every run, a certified proposal of the same or a later view descends from a finalised one if and only
      if every proposal on its branch after the finalised one's child was proposed on a certificate of at least
      the finalised one's view. */
  lemma {:induction false} SafetyCondition(
    c: Config, sys: System, id: AuthorityId, child: Proposal, parent: Proposal, grandpa: Proposal, later: Digest)
    requires Reachable(c, sys) && Finalized(sys, id, child, parent, grandpa)
    requires Certified(c, sys, later) && ViewOf(later) >= grandpa.view
    ensures Descends(later, ProposalDigest(grandpa)) <==>
            BranchCarriesHighQc(ProposalDigest(grandpa), ProposalDigest(parent), later)
  {
    hide SystemInv, Reachable, Certified, Descends;
    ReachableInv(c, sys);
    FinalizedChain(c, sys, id, child, parent, grandpa);
    DescentCondition(c, sys, ProposalDigest(grandpa), ProposalDigest(parent), later);
  }

  predicate OneBranch(d1: Digest, d2: Digest) {
    Descends(d1, d2) || Descends(d2, d1)
  }

  /** The exact condition for commit safety, in every run: two finalised proposals lie on one branch if and only
      if every proposal on the branch of the later one, after the child of the earlier one, was proposed on a
      certificate of at least the earlier one's view. */
  lemma BranchCondition(
    c: Config, sys: System,
    id1: AuthorityId, child1: Proposal, parent1: Proposal, grandpa1: Proposal,
    id2: AuthorityId, child2: Proposal, parent2: Proposal, grandpa2: Proposal)
    requires Reachable(c, sys) && grandpa1.view <= grandpa2.view
    requires Finalized(sys, id1, child1, parent1, grandpa1) && Finalized(sys, id2, child2, parent2, grandpa2)
    ensures OneBranch(ProposalDigest(grandpa1), ProposalDigest(grandpa2)) <==>
            BranchCarriesHighQc(ProposalDigest(grandpa1), ProposalDigest(parent1), ProposalDigest(grandpa2))
  {
    hide SystemInv, Reachable, Certified, Descends;
    ReachableInv(c, sys);
    FinalizedChain(c, sys, id1, child1, parent1, grandpa1);
    FinalizedChain(c, sys, id2, child2, parent2, grandpa2);
    var d1, d2 := ProposalDigest(grandpa1), ProposalDigest(grandpa2);
    DescentCondition(c, sys, d1, ProposalDigest(parent1), d2);
    if Descends(d1, d2) {
      DescendantViews(c, sys, d2, d1);
    }
  }

  // ---------- Safety under a locking rule ----------

  /** If honest replicas vote under the locking rule, every certified proposal of the same or a later view
      descends from any finalised one. */
  lemma {:induction false} LockedSafety(
    c: Config, sys: System, id: AuthorityId, child: Proposal, parent: Proposal, grandpa: Proposal, later: Digest)
    requires Reachable(c, sys) && Locked(sys)
    requires Finalized(sys, id, child, parent, grandpa)
    requires Certified(c, sys, later) && ViewOf(later) >= grandpa.view
    ensures Descends(later, ProposalDigest(grandpa))
  {
    hide SystemInv, Reachable, Certified, Locked, Descends;
    ReachableInv(c, sys);
    FinalizedChain(c, sys, id, child, parent, grandpa);
    LockedDescent(c, sys, ProposalDigest(grandpa), ProposalDigest(parent), later);
  }

  lemma {:induction false} LockedDescent(c: Config, sys: System, d: Digest, child: Digest, later: Digest)
    requires SystemInv(c, sys) && Locked(sys) && TwoChain(c, sys, d, child)
    requires Certified(c, sys, later) && ViewOf(later) >= ViewOf(d)
    ensures Descends(later, d)
  {
    hide SystemInv, Certified, Locked, Descends;
    forall x: Digest | x.ProposalHash? && x.view > ViewOf(child) && Descends(later, x)
      ensures ViewOf(x.parent) >= ViewOf(d)
    {
      CertifiedAncestor(c, sys, later, x);
      LockedParents(c, sys, child, x);
    }
    DescentCondition(c, sys, d, child, later);
  }

  lemma {:induction false} CertifiedAncestor(c: Config, sys: System, later: Digest, x: Digest)
    requires SystemInv(c, sys) && Certified(c, sys, later) && Descends(later, x) && x.ProposalHash?
    ensures Certified(c, sys, x)
    decreases later
  {
    hide SystemInv, Certified;
    if later != x {
      CertifiedChain(c, sys, later);
      CertifiedAncestor(c, sys, later.parent, x);
    }
  }

  /** Under the same rule, all finalised proposals lie on one branch. */
  lemma LockedBranch(
    c: Config, sys: System,
    id1: AuthorityId, child1: Proposal, parent1: Proposal, grandpa1: Proposal,
    id2: AuthorityId, child2: Proposal, parent2: Proposal, grandpa2: Proposal)
    requires Reachable(c, sys) && Locked(sys)
    requires Finalized(sys, id1, child1, parent1, grandpa1) && Finalized(sys, id2, child2, parent2, grandpa2)
    ensures OneBranch(ProposalDigest(grandpa1), ProposalDigest(grandpa2))
  {
    hide SystemInv, Reachable, Certified, Locked, Descends;
    ReachableInv(c, sys);
    FinalizedChain(c, sys, id1, child1, parent1, grandpa1);
    FinalizedChain(c, sys, id2, child2, parent2, grandpa2);
    if grandpa1.view <= grandpa2.view {
      LockedSafety(c, sys, id1, child1, parent1, grandpa1, ProposalDigest(grandpa2));
    } else {
      LockedSafety(c, sys, id2, child2, parent2, grandpa2, ProposalDigest(grandpa1));
    }
  }
}
