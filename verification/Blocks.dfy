/** Which blocks the clients finalise.

    Proposals on one branch may still carry competing blocks: the handlers relate a payload neither to the payloads
    before it nor to what the client knows of its block.  `height` gives the number of a block as the clients know
    it, which need not be the number its payload claims. */
module Blocks {
  import opened Types
  import opened Certificates
  import opened Aggregation
  import opened Replica
  import opened Trust
  import opened Invariant
  import opened Protocol
  import opened Safety

  type Heights = Digest -> BlockNumber

  function BlockOf(d: Digest): Digest {
    if d.ProposalHash? then d.payload.blockHash else EMPTY_PAYLOAD
  }

  /** The proposal carries a block of number `n`. */
  predicate CarriesAt(height: Heights, n: BlockNumber, d: Digest) {
    BlockOf(d) != EMPTY_PAYLOAD && height(BlockOf(d)) == n
  }

  ghost function AllAt(height: Heights, n: BlockNumber): iset<Digest> {
    iset d: Digest | CarriesAt(height, n, d)
  }

  // ---------- Branches ----------

  lemma {:induction false} DescendsTransitive(a: Digest, b: Digest, c: Digest)
    requires Descends(a, b) && Descends(b, c)
    ensures Descends(a, c)
    decreases a
  {
    if a != b {
      DescendsTransitive(a.parent, b, c);
    }
  }

  /** Two proposals on the branch of a third are on one branch. */
  lemma {:induction false} BranchIsLinear(later: Digest, x: Digest, y: Digest)
    requires Descends(later, x) && Descends(later, y)
    ensures OneBranch(x, y)
    decreases later
  {
    if later != x && later != y {
      BranchIsLinear(later.parent, x, y);
    }
  }

  /** The last marked proposal on the branch of `d`. */
  ghost function Nearest(marked: iset<Digest>, d: Digest): Option<Digest> {
    if d in marked then Some(d) else if d.ProposalHash? then Nearest(marked, d.parent) else None
  }

  lemma {:induction false} NearestMeaning(marked: iset<Digest>, d: Digest, x: Digest)
    requires x in marked && Descends(d, x)
    ensures var z := Nearest(marked, d); z.Some? && z.value in marked && Descends(d, z.value) && Descends(z.value, x)
    decreases d
  {
    if d !in marked {
      NearestMeaning(marked, d.parent, x);
    }
  }

  lemma {:induction false} NearestIsMarked(marked: iset<Digest>, d: Digest)
    requires Nearest(marked, d).Some?
    ensures var z := Nearest(marked, d).value; z in marked && Descends(d, z)
    decreases d
  {
    if d !in marked {
      NearestIsMarked(marked, d.parent);
    }
  }

  /** `d` repeats the block of the last marked proposal before it, if there is one. */
  ghost predicate RepeatsNearest(marked: iset<Digest>, d: Digest) {
    d.ProposalHash? && Nearest(marked, d.parent).Some? ==> BlockOf(Nearest(marked, d.parent).value) == BlockOf(d)
  }

  ghost predicate RepeatsAlong(marked: iset<Digest>, later: Digest) {
    forall y :: y in marked && Descends(later, y) ==> RepeatsNearest(marked, y)
  }

  /** All marked proposals on the branch carry the same block. */
  ghost predicate AgreeAlong(marked: iset<Digest>, later: Digest) {
    forall x, y :: x in marked && y in marked && Descends(later, x) && Descends(later, y) ==> BlockOf(x) == BlockOf(y)
  }

  lemma {:induction false} RepeatedBlock(marked: iset<Digest>, later: Digest, x: Digest)
    requires later in marked && x in marked && Descends(later, x) && RepeatsAlong(marked, later)
    ensures BlockOf(later) == BlockOf(x)
    decreases later
  {
    if later != x {
      NearestMeaning(marked, later.parent, x);
      var z := Nearest(marked, later.parent).value;
      forall y | y in marked && Descends(z, y) ensures RepeatsNearest(marked, y) {
        DescendsTransitive(later.parent, z, y);
      }
      DescendsShrinks(later.parent, z);
      RepeatedBlock(marked, z, x);
    }
  }

  lemma {:induction false} DescendsShrinks(d: Digest, x: Digest)
    requires Descends(d, x)
    ensures x == d || x < d
    decreases d
  {
    if d != x {
      DescendsShrinks(d.parent, x);
    }
  }

  lemma {:induction false} RepeatsAgree(marked: iset<Digest>, later: Digest, x: Digest, y: Digest)
    requires RepeatsAlong(marked, later)
    requires x in marked && y in marked && Descends(later, x) && Descends(later, y) && Descends(y, x)
    ensures BlockOf(x) == BlockOf(y)
  {
    forall z | z in marked && Descends(y, z) ensures RepeatsNearest(marked, z) {
      DescendsTransitive(later, y, z);
    }
    RepeatedBlock(marked, y, x);
  }

  /** All marked proposals on a branch carry the same block if and only if each repeats the block of the marked one
      before it: a look at one earlier proposal decides. */
  lemma AgreeIffRepeats(marked: iset<Digest>, later: Digest)
    ensures AgreeAlong(marked, later) <==> RepeatsAlong(marked, later)
  {
    if AgreeAlong(marked, later) {
      forall y | y in marked && Descends(later, y) ensures RepeatsNearest(marked, y) {
        if y.ProposalHash? && Nearest(marked, y.parent).Some? {
          NearestIsMarked(marked, y.parent);
          var z := Nearest(marked, y.parent).value;
          DescendsTransitive(later, y, z);
        }
      }
    }
    if RepeatsAlong(marked, later) {
      forall x, y | x in marked && y in marked && Descends(later, x) && Descends(later, y)
        ensures BlockOf(x) == BlockOf(y)
      {
        BranchIsLinear(later, x, y);
        if Descends(y, x) {
          RepeatsAgree(marked, later, x, y);
        } else {
          RepeatsAgree(marked, later, y, x);
        }
      }
    }
  }

  /** Each block on the branch is the one before it or one of a higher number. */
  ghost predicate InOrder(height: Heights, later: Digest) {
    forall x, y: Digest ::
      y.ProposalHash? && Descends(later, y) && Descends(y.parent, x) &&
      BlockOf(x) != EMPTY_PAYLOAD && BlockOf(y) != EMPTY_PAYLOAD ==>
        height(BlockOf(x)) < height(BlockOf(y)) || BlockOf(x) == BlockOf(y)
  }

  lemma {:induction false} InOrderRepeats(height: Heights, n: BlockNumber, later: Digest)
    requires InOrder(height, later)
    ensures RepeatsAlong(AllAt(height, n), later)
  {
    var marked := AllAt(height, n);
    forall y | y in marked && Descends(later, y) ensures RepeatsNearest(marked, y) {
      if Nearest(marked, y.parent).Some? {
        NearestIsMarked(marked, y.parent);
      }
    }
  }

  // ---------- Exactly when finalised blocks agree ----------

  /** The exact condition for a finalised block to stay the only one of its number on a later branch: the later
      proposal descends from it, and all proposals of that number on its branch carry that block, if and only if the
      branch carries certificates high enough and each proposal of that number repeats the block of the one before. */
  lemma {:induction false} BlockSafetyCondition(
    c: Config, sys: System, height: Heights,
    id: AuthorityId, child: Proposal, parent: Proposal, grandpa: Proposal, later: Digest)
    requires Reachable(c, sys) && Finalized(sys, id, child, parent, grandpa)
    requires Certified(c, sys, later) && ViewOf(later) >= grandpa.view
    ensures var d, marked := ProposalDigest(grandpa), AllAt(height, height(grandpa.payload.blockHash));
            Descends(later, d) && (forall y :: y in marked && Descends(later, y) ==> BlockOf(y) == BlockOf(d)) <==>
            BranchCarriesHighQc(d, ProposalDigest(parent), later) && RepeatsAlong(marked, later)
  {
    hide Reachable, SystemInv, Certified, Descends, BranchCarriesHighQc, RepeatsAlong;
    SafetyCondition(c, sys, id, child, parent, grandpa, later);
    ReachableInv(c, sys);
    FinalizedChain(c, sys, id, child, parent, grandpa);
    AgreeIffRepeats(AllAt(height, height(grandpa.payload.blockHash)), later);
  }

  /** Two finalised proposals that carry blocks of one number carry the same block if the later branch carries
      certificates high enough and each block on it is the one before it or one of a higher number. */
  lemma {:induction false} InOrderBlocks(
    c: Config, sys: System, height: Heights,
    id1: AuthorityId, child1: Proposal, parent1: Proposal, grandpa1: Proposal,
    id2: AuthorityId, child2: Proposal, parent2: Proposal, grandpa2: Proposal)
    requires Reachable(c, sys) && grandpa1.view <= grandpa2.view
    requires Finalized(sys, id1, child1, parent1, grandpa1) && Finalized(sys, id2, child2, parent2, grandpa2)
    requires BranchCarriesHighQc(ProposalDigest(grandpa1), ProposalDigest(parent1), ProposalDigest(grandpa2))
    requires InOrder(height, ProposalDigest(grandpa2))
    ensures height(grandpa1.payload.blockHash) == height(grandpa2.payload.blockHash) ==>
              grandpa1.payload.blockHash == grandpa2.payload.blockHash
  {
    hide Reachable, SystemInv, Certified, Descends, BranchCarriesHighQc, RepeatsAlong, InOrder;
    ReachableInv(c, sys);
    FinalizedChain(c, sys, id2, child2, parent2, grandpa2);
    var d2 := ProposalDigest(grandpa2);
    InOrderRepeats(height, height(grandpa1.payload.blockHash), d2);
    BlockSafetyCondition(c, sys, height, id1, child1, parent1, grandpa1, d2);
    SelfDescends(d2);
  }

  /** Some honest replica has finalised the proposal. */
  ghost predicate FinalizedDigest(sys: System, d: Digest) {
    exists id, child, parent, grandpa :: Finalized(sys, id, child, parent, grandpa) && ProposalDigest(grandpa) == d
  }

  ghost function FinalizedAt(sys: System, height: Heights, n: BlockNumber): iset<Digest> {
    iset d: Digest | FinalizedDigest(sys, d) && CarriesAt(height, n, d)
  }

  ghost predicate AllOneBranch(sys: System) {
    forall d1, d2 :: FinalizedDigest(sys, d1) && FinalizedDigest(sys, d2) ==> OneBranch(d1, d2)
  }

  /** No two finalised proposals carry different blocks of one number. */
  ghost predicate BlocksAgree(sys: System, height: Heights) {
    forall n, d1, d2 :: d1 in FinalizedAt(sys, height, n) && d2 in FinalizedAt(sys, height, n) ==> BlockOf(d1) == BlockOf(d2)
  }

  /** The exact condition for the blocks themselves, when the finalised proposals lie on one branch: no two finalised
      blocks of one number differ if and only if each finalised proposal repeats the block of the finalised one of
      its number before it. */
  lemma FinalizedBlocksCondition(sys: System, height: Heights)
    requires AllOneBranch(sys)
    ensures BlocksAgree(sys, height) <==>
            forall n, d :: d in FinalizedAt(sys, height, n) ==> RepeatsNearest(FinalizedAt(sys, height, n), d)
  {
    hide FinalizedDigest, CarriesAt, RepeatsNearest;
    if BlocksAgree(sys, height) {
      forall n, d | d in FinalizedAt(sys, height, n) ensures RepeatsNearest(FinalizedAt(sys, height, n), d) {
        AgreeIffRepeats(FinalizedAt(sys, height, n), d);
        assert Descends(d, d);
      }
    }
    if forall n, d :: d in FinalizedAt(sys, height, n) ==> RepeatsNearest(FinalizedAt(sys, height, n), d) {
      forall n, d1, d2 | d1 in FinalizedAt(sys, height, n) && d2 in FinalizedAt(sys, height, n)
        ensures BlockOf(d1) == BlockOf(d2)
      {
        AgreeIffRepeats(FinalizedAt(sys, height, n), d1);
        AgreeIffRepeats(FinalizedAt(sys, height, n), d2);
        assert OneBranch(d1, d2) && Descends(d1, d1) && Descends(d2, d2);
      }
    }
  }

  /** The same condition is exact in every run whose honest votes obey the locking rule. */
  lemma LockedBlocksCondition(c: Config, sys: System, height: Heights)
    requires Reachable(c, sys) && Locked(sys)
    ensures BlocksAgree(sys, height) <==>
            forall n, d :: d in FinalizedAt(sys, height, n) ==> RepeatsNearest(FinalizedAt(sys, height, n), d)
  {
    hide Reachable, Locked, OneBranch, BlocksAgree, RepeatsNearest, FinalizedAt, Finalized;
    forall d1, d2 | FinalizedDigest(sys, d1) && FinalizedDigest(sys, d2) ensures OneBranch(d1, d2) {
      var id1, child1, parent1, grandpa1 :| Finalized(sys, id1, child1, parent1, grandpa1) && ProposalDigest(grandpa1) == d1;
      var id2, child2, parent2, grandpa2 :| Finalized(sys, id2, child2, parent2, grandpa2) && ProposalDigest(grandpa2) == d2;
      LockedBranch(c, sys, id1, child1, parent1, grandpa1, id2, child2, parent2, grandpa2);
    }
    FinalizedBlocksCondition(sys, height);
  }

  // ---------- A rule on payloads ----------

  /** Honest replicas vote only for proposals that repeat the block of the last proposal of the same number before
      them.  The voting function has no such rule. */
  ghost predicate VotesRepeat(sys: System, height: Heights) {
    forall id, i ::
      id in sys && 0 <= i < |sys[id].trace| && sys[id].trace[i].Voted? ==>
        var d := ProposalDigest(sys[id].trace[i].proposal);
        d in AllAt(height, height(BlockOf(d))) ==> RepeatsNearest(AllAt(height, height(BlockOf(d))), d)
  }

  lemma CertifiedRepeats(c: Config, sys: System, height: Heights, n: BlockNumber, later: Digest)
    requires SystemInv(c, sys) && VotesRepeat(sys, height) && Certified(c, sys, later)
    ensures RepeatsAlong(AllAt(height, n), later)
  {
    hide SystemInv, Certified, Descends, RepeatsNearest;
    forall y | y in AllAt(height, n) && Descends(later, y) ensures RepeatsNearest(AllAt(height, n), y) {
      CertifiedAncestor(c, sys, later, y);
      var q := CertifyingQuorum(c, sys, y);
      var id, i := HonestVoter(c, sys, y, ViewOf(y), q);
    }
  }

  /** If honest replicas vote under this rule, two finalised proposals on one branch that carry blocks of the same
      number carry the same block. */
  lemma OrderedBlocks(
    c: Config, sys: System, height: Heights,
    id1: AuthorityId, child1: Proposal, parent1: Proposal, grandpa1: Proposal,
    id2: AuthorityId, child2: Proposal, parent2: Proposal, grandpa2: Proposal)
    requires Reachable(c, sys) && VotesRepeat(sys, height)
    requires Finalized(sys, id1, child1, parent1, grandpa1) && Finalized(sys, id2, child2, parent2, grandpa2)
    requires OneBranch(ProposalDigest(grandpa1), ProposalDigest(grandpa2))
    ensures height(grandpa1.payload.blockHash) == height(grandpa2.payload.blockHash) ==>
              grandpa1.payload.blockHash == grandpa2.payload.blockHash
  {
    hide Reachable, SystemInv, Certified, Descends, VotesRepeat, RepeatsAlong;
    ReachableInv(c, sys);
    FinalizedChain(c, sys, id1, child1, parent1, grandpa1);
    FinalizedChain(c, sys, id2, child2, parent2, grandpa2);
    var d1, d2, n := ProposalDigest(grandpa1), ProposalDigest(grandpa2), height(grandpa1.payload.blockHash);
    SelfDescends(d1);
    SelfDescends(d2);
    CertifiedRepeats(c, sys, height, n, d1);
    CertifiedRepeats(c, sys, height, n, d2);
    AgreeIffRepeats(AllAt(height, n), d1);
    AgreeIffRepeats(AllAt(height, n), d2);
  }

  lemma {:induction false} SelfDescends(d: Digest)
    ensures Descends(d, d)
  {
  }

  /** Under both rules, all finalised proposals that carry blocks of the same number carry the same block. */
  lemma LockedBlocks(
    c: Config, sys: System, height: Heights,
    id1: AuthorityId, child1: Proposal, parent1: Proposal, grandpa1: Proposal,
    id2: AuthorityId, child2: Proposal, parent2: Proposal, grandpa2: Proposal)
    requires Reachable(c, sys) && Locked(sys) && VotesRepeat(sys, height)
    requires Finalized(sys, id1, child1, parent1, grandpa1) && Finalized(sys, id2, child2, parent2, grandpa2)
    ensures height(grandpa1.payload.blockHash) == height(grandpa2.payload.blockHash) ==>
              grandpa1.payload.blockHash == grandpa2.payload.blockHash
  {
    hide Reachable, Locked, VotesRepeat, OneBranch;
    LockedBranch(c, sys, id1, child1, parent1, grandpa1, id2, child2, parent2, grandpa2);
    OrderedBlocks(c, sys, height, id1, child1, parent1, grandpa1, id2, child2, parent2, grandpa2);
  }
}
