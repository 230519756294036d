/** Two runs of the protocol as it stands, with four authorities of which one is faulty, in which two honest replicas
    finalise different blocks of the same number.

    Authority 1 is faulty.  Replica 0 votes, replica 2 votes and leads.  In a round the faulty leader of view
    `view` proposes a block, replica 2 proposes an empty child in the next view, and the faulty leader of a later
    view proposes a grandchild, on which the first proposal is finalised.  After one round, which replica 3 misses,
    timeouts take replicas 0 and 2 to the next view the faulty authority leads.  There a second round starts, with a
    competing block; replica 3 receives its three proposals and finalises the competing block.

    In the first run the second round starts from the default certificate again, on a branch of its own: there is no
    locking rule.  In the second run it continues the branch of the first round, and honest votes obey the locking
    rule: the payloads of a branch are not related to each other. */
module Fork {
  import opened Types
  import opened Certificates
  import opened Aggregation
  import opened Replica
  import opened Trust
  import opened Invariant
  import opened Protocol
  import opened Safety
  import opened Blocks
  import opened Steps

  const AUTHORITIES: seq<AuthorityId> := [0, 1, 2, 3]
  const CONFIG := Config(AUTHORITIES, {1})

  /** `number` is the number the payload claims, `height` the number the clients know the block by. */
  datatype Round = Round(view: View, block: Digest, number: BlockNumber, height: BlockNumber, later: View, qc: QC)

  ghost predicate ValidRound(r: Round) {
    && r.view % 4 == 1 && r.later % 4 == 1 && r.block.Atom? && r.block != EMPTY_PAYLOAD
    && r.qc.view < r.view && CheckCarriedQc(r.qc, AUTHORITIES).Ok?
  }

  function SignedVote(id: AuthorityId, d: Digest, view: View): Vote {
    Vote(d, view, id, Some(Sig(id, VoteHash(d, view))))
  }

  /** The certificate of replicas 2 and 0 and the faulty authority. */
  function Certificate(d: Digest, view: View): QC {
    QC(d, view, [(2, Sig(2, VoteHash(d, view))), (0, Sig(0, VoteHash(d, view))), (1, Sig(1, VoteHash(d, view)))])
  }

  function SignedProposal(qc: QC, payload: Payload, view: View, author: AuthorityId): Proposal {
    Proposal(qc, None, payload, view, author, Some(Sig(author, ProposalHash(author, payload, view, qc.proposalHash))))
  }

  function First(r: Round): Proposal {
    SignedProposal(r.qc, Payload(r.block, r.number), r.view, 1)
  }

  function Second(r: Round): Proposal {
    SignedProposal(Certificate(ProposalDigest(First(r)), r.view), Payload(EMPTY_PAYLOAD, r.number), r.view + 1, 2)
  }

  function Third(r: Round): Proposal {
    SignedProposal(Certificate(ProposalDigest(Second(r)), r.view + 1), Payload(EMPTY_PAYLOAD, r.number), r.later, 1)
  }

  lemma ConfigIsValid()
    ensures ValidConfig(CONFIG) && Honest(CONFIG) == {0, 2, 3}
  {
    assert Members(AUTHORITIES) == {0, 1, 2, 3} by {
      assert AUTHORITIES[0] == 0 && AUTHORITIES[1] == 1 && AUTHORITIES[2] == 2 && AUTHORITIES[3] == 3;
    }
  }

  lemma LeaderOf(view: View)
    ensures Leader(AUTHORITIES, view) == view % 4
  {
  }

  lemma CertificateChecks(d: Digest, view: View)
    ensures CheckQc(Certificate(d, view), AUTHORITIES).Ok?
  {
    var bs := QcBallots(Certificate(d, view));
    assert |bs| == 3 && bs[0].voter == 2 && bs[1].voter == 0 && bs[2].voter == 1;
    CheckMeaning(bs, 4);
  }

  lemma TallyThree(b: VoteBuckets, d: Digest, view: View)
    requires view !in b
    ensures var t1 := TallyVote(b, SignedVote(2, d, view), 4);
            var t2 := TallyVote(t1.0, SignedVote(0, d, view), 4);
            var t3 := TallyVote(t2.0, SignedVote(1, d, view), 4);
            && t1.1 == Ok(None) && t2.1 == Ok(None) && t3.1 == Ok(Some(Certificate(d, view)))
            && t3.0.Keys == b.Keys + {view}
  {
    var key := VoteHash(d, view);
    var v1, v2, v3 := (2, Sig(2, key)), (0, Sig(0, key)), (1, Sig(1, key));
    var t1 := TallyVote(b, SignedVote(2, d, view), 4);
    assert t1.0[view][key] == QcMaker(1, [v1]);
    var t2 := TallyVote(t1.0, SignedVote(0, d, view), 4);
    assert t2.0[view][key] == QcMaker(2, [v1, v2]);
    var t3 := TallyVote(t2.0, SignedVote(1, d, view), 4);
    assert t3.0[view][key] == QcMaker(3, [v1, v2, v3]);
  }

  // ---------- Replicas in the run ----------

  /** What the run needs to know of a replica. */
  ghost predicate Ready(s: State, id: AuthorityId, view: View) {
    && s.me == Some(id) && s.authorities == AUTHORITIES && s.view == view
    && s.lastVotedView <= view
    && s.pending == [] && s.client.failing == {}
    && Zero !in s.store
  }

  /** Nothing was collected for `view` or any later view. */
  ghost predicate NothingFrom(s: State, view: View) {
    forall v :: v >= view ==> v !in s.votes && v !in s.timeouts
  }

  ghost predicate KnowsBlock(s: State, r: Round) {
    r.block in s.client.known && s.client.known[r.block] == r.height
  }

  ghost predicate AwaitsBlock(s: State, r: Round) {
    KnowsBlock(s, r) && s.client.finalizedNumber < r.height && s.client.finalizedHash != r.block
  }

  /** The proposal the round starts from, if stored, is not of the view just before the round. */
  predicate ParentApart(s: State, r: Round) {
    r.qc.proposalHash in s.store ==> s.store[r.qc.proposalHash].view + 1 != r.view
  }

  /** The replica is in the round's view, or will be on receipt of the first proposal, free to vote for it and with
      nothing to finalise on it. */
  ghost predicate CanStart(s: State, id: AuthorityId, r: Round) {
    && Ready(s, id, s.view) && (s.view == r.view || (s.view == 0 && r.view == 1))
    && s.lastVotedView < r.view && s.highQc.view < r.view
    && NothingFrom(s, r.view) && KnowsBlock(s, r)
    && !Finalizes(s, First(r)) && ParentApart(s, r)
  }

  predicate HasStored(s: State, p: Proposal) {
    ProposalDigest(p) in s.store && s.store[ProposalDigest(p)] == p
  }

  /** The replica has the first two proposals of the round and has not finalised yet. */
  ghost predicate CanFinalize(s: State, id: AuthorityId, r: Round) {
    && Ready(s, id, r.view + 1) && s.highQc.view <= r.view && AwaitsBlock(s, r)
    && HasStored(s, First(r)) && HasStored(s, Second(r)) && NothingFrom(s, r.view + 2)
  }

  /** What a round leaves behind. */
  ghost predicate Ended(s: State, s': State, id: AuthorityId, r: Round, votes: seq<Proposal>) {
    && Ready(s', id, r.view + 2)
    && s'.highQc == Certificate(ProposalDigest(Second(r)), r.view + 1)
    && NothingFrom(s', r.view + 2)
    && s'.client.known == s.client.known
    && s'.client.finalizedNumber == r.height && s'.client.finalizedHash == r.block
    && HasStored(s', First(r)) && HasStored(s', Second(r))
    && s.trace <= s'.trace && Votes(s'.trace) == Votes(s.trace) + votes
  }

  lemma FirstVerified(s: State, r: Round)
    requires ValidRound(r) && s.authorities == AUTHORITIES
    ensures ProposalVerdict(s, First(r)).Ok?
  {
    LeaderOf(r.view);
  }

  lemma SecondVerified(s: State, r: Round)
    requires ValidRound(r) && s.authorities == AUTHORITIES
    ensures ProposalVerdict(s, Second(r)).Ok?
  {
    hide CheckQc;
    LeaderOf(r.view + 1);
    CertificateChecks(ProposalDigest(First(r)), r.view);
  }

  lemma ThirdVerified(s: State, r: Round)
    requires ValidRound(r) && s.authorities == AUTHORITIES
    ensures ProposalVerdict(s, Third(r)).Ok?
  {
    hide CheckQc;
    LeaderOf(r.later);
    CertificateChecks(ProposalDigest(Second(r)), r.view + 1);
  }

  lemma FourAuthorities(s: State)
    requires s.authorities == AUTHORITIES
    ensures WellFormed(s)
  {
  }

  /** The history after a vote that was cast and sent. */
  lemma {:induction false} VoteLogged(trace: seq<Event>, trace': seq<Event>, p: Proposal)
    requires |trace'| == |trace| + 2 && trace <= trace' && trace'[|trace|].Voted? && trace'[|trace|].proposal == p
    requires !trace'[|trace| + 1].Voted?
    ensures Votes(trace') == Votes(trace) + [p]
  {
    hide Votes;
    VotesAppend(trace, trace'[|trace|]);
    VotesAppend(trace + [trace'[|trace|]], trace'[|trace| + 1]);
    assert trace' == trace + [trace'[|trace|]] + [trace'[|trace| + 1]];
  }

  /** A replica that has the first proposal of the round finalises nothing on the second. */
  lemma SecondFinalizesNothing(s: State, r: Round)
    requires HasStored(s, First(r)) && ParentApart(s, r)
    ensures !Finalizes(s, Second(r))
  {
  }

  /** Receipt of the first proposal, up to the point where the vote is signed. */
  lemma FirstVote(s: State, id: AuthorityId, r: Round) returns (s': State)
    requires ValidRound(r) && CanStart(s, id, r)
    ensures WellFormed(s) && WellFormed(s')
    ensures s' == CastVote(Stored(s, First(r)), First(r))
    ensures s'.view == r.view && s'.me == Some(id) && s'.authorities == AUTHORITIES
    ensures HandleProposal(s, First(r)) == PassOnVote(s', First(r))
  {
    hide Leader, Extends;
    var p := First(r);
    FourAuthorities(s);
    FirstVerified(s, r);
    AcceptStored(s, p);
    ProposalAccepted(s, p);
    VoteCast(Stored(s, p), p);
    s' := CastVote(Stored(s, p), p);
    FourAuthorities(s');
  }

  /** Replica 0 votes for the first proposal and sends its vote. */
  lemma VoterFirst(s: State, r: Round) returns (s': State)
    requires ValidRound(r) && CanStart(s, 0, r)
    ensures WellFormed(s) && s' == Handle(s, Propose(First(r))).state
    ensures Ready(s', 0, r.view) && s'.lastVotedView == r.view && s'.highQc == s.highQc
    ensures HasStored(s', First(r))
    ensures s'.client == s.client && s'.votes == s.votes && s'.timeouts == s.timeouts
    ensures ParentApart(s', r)
    ensures s.trace <= s'.trace && Voted(r.view, First(r)) in s'.trace && Votes(s'.trace) == Votes(s.trace) + [First(r)]
  {
    hide Leader, Extends, HandleProposal, Votes, Finalizes;
    var p := First(r);
    FourAuthorities(s);
    FirstVerified(s, r);
    LeaderOf(r.view + 1);
    AcceptsAndVotes(s, p);
    s' := Handle(s, Propose(p)).state;
    assert Voted(r.view, p) == s'.trace[|s.trace|];
    VoteLogged(s.trace, s'.trace, p);
  }

  /** Replica 0 votes for the second proposal and sends its vote. */
  lemma VoterSecond(s: State, r: Round) returns (s': State)
    requires ValidRound(r) && Ready(s, 0, r.view) && s.highQc.view < r.view
    requires HasStored(s, First(r)) && ParentApart(s, r)
    ensures WellFormed(s) && s' == Handle(s, Propose(Second(r))).state
    ensures Ready(s', 0, r.view + 1) && s'.lastVotedView == r.view + 1
    ensures s'.highQc == Second(r).qc
    ensures s'.store == s.store[ProposalDigest(Second(r)) := Second(r)]
    ensures s'.client == s.client && s'.votes == s.votes && s'.timeouts == s.timeouts
    ensures s.trace <= s'.trace && Voted(r.view + 1, Second(r)) in s'.trace
    ensures Votes(s'.trace) == Votes(s.trace) + [Second(r)]
  {
    hide Leader, Extends, HandleProposal, Votes;
    var p := Second(r);
    FourAuthorities(s);
    SecondVerified(s, r);
    SecondFinalizesNothing(s, r);
    LeaderOf(r.view + 2);
    AcceptsAndVotes(s, p);
    s' := Handle(s, Propose(p)).state;
    assert Voted(r.view + 1, p) == s'.trace[|s.trace|];
    VoteLogged(s.trace, s'.trace, p);
  }

  /** A replica that has both proposals finalises the first on receipt of the third. */
  lemma FinalizesFirst(s: State, id: AuthorityId, r: Round) returns (s': State)
    requires ValidRound(r) && CanFinalize(s, id, r)
    ensures WellFormed(s) && s' == Handle(s, Propose(Third(r))).state
    ensures Ended(s, s', id, r, [])
    ensures FinalizeCalled(Third(r), Second(r), First(r)) in s'.trace
  {
    hide Leader, Extends, HandleProposal, Votes;
    var p := Third(r);
    FourAuthorities(s);
    ThirdVerified(s, r);
    assert HandleQc(s, p.qc).view == r.view + 2;
    ProposalFinalizes(s, p, Second(r), First(r));
    VotesAppend(s.trace, FinalizeCalled(p, Second(r), First(r)));
    s' := Handle(s, Propose(p)).state;
    assert FinalizeCalled(p, Second(r), First(r)) == s'.trace[|s.trace|];
  }

  // ---------- Replica 2 collects the votes and proposes ----------

  lemma VoteVerified(s: State, id: AuthorityId, d: Digest)
    requires s.authorities == AUTHORITIES && id < 4
    ensures VoteVerdict(s, SignedVote(id, d, s.view)).Ok?
  {
    assert AUTHORITIES[id] == id;
  }

  /** The collector has voted for the first proposal; its vote buckets aside, nothing happened since. */
  ghost predicate VotedFirst(s: State, s1: State, r: Round) {
    s1 == CastVote(Stored(s, First(r)), First(r)).(votes := s1.votes)
  }

  lemma AfterFirstVote(s: State, s1: State, r: Round)
    requires ValidRound(r) && CanStart(s, 2, r) && VotedFirst(s, s1, r)
    ensures s1.me == Some(2) && s1.authorities == AUTHORITIES
    ensures s1.view == s1.lastVotedView == r.view && s1.highQc.view < r.view
    ensures s1.store == s.store[ProposalDigest(First(r)) := First(r)]
    ensures s1.client == s.client && s1.timeouts == s.timeouts
    ensures s1.trace == s.trace + [Voted(r.view, First(r))]
    ensures Votes(s1.trace) == Votes(s.trace) + [First(r)]
  {
    hide Leader, Extends, Votes, Finalizes;
    VotesAppend(s.trace, Voted(r.view, First(r)));
  }

  /** Replica 2 votes for the first proposal and keeps its vote. */
  lemma CollectorFirst(s: State, r: Round) returns (s': State)
    requires ValidRound(r) && CanStart(s, 2, r)
    ensures WellFormed(s) && s' == Handle(s, Propose(First(r))).state
    ensures VotedFirst(s, s', r)
    ensures s'.votes == TallyVote(s.votes, SignedVote(2, ProposalDigest(First(r)), r.view), 4).0
  {
    hide Leader, Extends, HandleProposal, PassOnVote, HandleVote, TallyVote;
    var p := First(r);
    var d := ProposalDigest(p);
    var s1 := FirstVote(s, 2, r);
    LeaderOf(r.view + 1);
    VoteKept(s1, p);
    VoteVerified(s1, 2, d);
    TallyThree(s.votes, d, r.view);
    VoteTallied(s1, SignedVote(2, d, r.view));
    s' := Handle(s, Propose(p)).state;
  }

  lemma CollectorSecondVote(s: State, s1: State, r: Round) returns (s': State)
    requires ValidRound(r) && CanStart(s, 2, r) && VotedFirst(s, s1, r)
    requires s1.votes == TallyVote(s.votes, SignedVote(2, ProposalDigest(First(r)), r.view), 4).0
    ensures WellFormed(s1) && s' == Handle(s1, VoteMsg(SignedVote(0, ProposalDigest(First(r)), r.view))).state
    ensures VotedFirst(s, s', r)
    ensures s'.votes == TallyVote(s1.votes, SignedVote(0, ProposalDigest(First(r)), r.view), 4).0
  {
    hide Leader, Extends, HandleVote, TallyVote, CastVote, Stored;
    var d := ProposalDigest(First(r));
    AfterFirstVote(s, s1, r);
    FourAuthorities(s1);
    VoteVerified(s1, 0, d);
    TallyThree(s.votes, d, r.view);
    VoteTallied(s1, SignedVote(0, d, r.view));
    s' := Handle(s1, VoteMsg(SignedVote(0, d, r.view))).state;
  }

  lemma DifferentDigests(r: Round)
    ensures ProposalDigest(First(r)) != ProposalDigest(Second(r)) && Second(r).qc.view == r.view
    ensures First(r).view == r.view
  {
  }

  /** The third vote completes the certificate; replica 2 enters the next view, proposes there and votes for
      its own proposal. */
  lemma CollectorThirdVote(s: State, s2: State, r: Round) returns (s': State)
    requires ValidRound(r) && CanStart(s, 2, r) && VotedFirst(s, s2, r)
    requires var d := ProposalDigest(First(r));
             s2.votes == TallyVote(TallyVote(s.votes, SignedVote(2, d, r.view), 4).0, SignedVote(0, d, r.view), 4).0
    ensures WellFormed(s2) && s' == Handle(s2, VoteMsg(SignedVote(1, ProposalDigest(First(r)), r.view))).state
    ensures Ready(s', 2, r.view + 1) && s'.lastVotedView == r.view + 1
    ensures HasStored(s', First(r)) && HasStored(s', Second(r)) && s'.highQc.view == r.view
    ensures s'.client == s.client && s'.timeouts == s.timeouts && s'.votes.Keys == s.votes.Keys + {r.view}
    ensures s.trace <= s'.trace && Voted(r.view, First(r)) in s'.trace && Voted(r.view + 1, Second(r)) in s'.trace
    ensures Sent(r.view + 1, Propose(Second(r))) in s'.trace
    ensures Votes(s'.trace) == Votes(s.trace) + [First(r), Second(r)]
  {
    hide Leader, Extends, HandleProposal, HandleVote, TallyVote, ProposeOnQc, First, Second, VotedFirst, Finalizes, Votes;
    AfterFirstVote(s, s2, r);
    var s3 := CertificateAssembled(s.votes, s2, r);
    DifferentDigests(r);
    var s4 := SecondProposed(s, s2, s3, r);
    VotesAppend(s2.trace, Sent(r.view + 1, Propose(Second(r))));
    s' := SecondVoted(s4, r);
    assert s2.trace[|s.trace|] == Voted(r.view, First(r));
    assert s4.trace[|s2.trace|] == Sent(r.view + 1, Propose(Second(r)));
    assert s'.trace[|s.trace|] == s2.trace[|s.trace|] && s'.trace[|s2.trace|] == s4.trace[|s2.trace|];
  }

  lemma CertificateAssembled(votes: VoteBuckets, s2: State, r: Round) returns (s3: State)
    requires r.view !in votes && s2.authorities == AUTHORITIES && s2.view == r.view && s2.highQc.view < r.view
    requires var d := ProposalDigest(First(r));
             s2.votes == TallyVote(TallyVote(votes, SignedVote(2, d, r.view), 4).0, SignedVote(0, d, r.view), 4).0
    ensures WellFormed(s2) && WellFormed(s3)
    ensures HandleVote(s2, SignedVote(1, ProposalDigest(First(r)), r.view)) == ProposeOnQc(s3)
    ensures s3 == s2.(view := r.view + 1, gossipView := r.view + 1, highQc := Second(r).qc, votes := s3.votes)
    ensures s3.votes.Keys == votes.Keys + {r.view}
  {
    hide Leader, Extends, HandleVote, TallyVote, ProposeOnQc, VoteVerdict, First;
    var d := ProposalDigest(First(r));
    var vote := SignedVote(1, d, r.view);
    FourAuthorities(s2);
    VoteVerified(s2, 1, d);
    TallyThree(votes, d, r.view);
    var qc := Certificate(d, r.view);
    VoteCompletesQc(s2, vote, qc);
    s3 := HandleQc(s2.(votes := TallyVote(s2.votes, vote, 4).0), qc);
    FourAuthorities(s3);
  }

  lemma SecondProposed(s: State, s2: State, s3: State, r: Round) returns (s4: State)
    requires ValidRound(r) && CanStart(s, 2, r) && VotedFirst(s, s2, r)
    requires s3 == s2.(view := r.view + 1, gossipView := r.view + 1, highQc := Second(r).qc, votes := s3.votes)
    ensures WellFormed(s3) && WellFormed(s4)
    ensures ProposeOnQc(s3) == HandleProposal(s4, Second(r))
    ensures s4 == Log(s3, Sent(r.view + 1, Propose(Second(r)))).(hashQueue := s4.hashQueue)
    ensures Ready(s4, 2, r.view + 1) && s4.lastVotedView == r.view
  {
    hide Leader, Extends, HandleProposal, ProposeOnQc;
    FourAuthorities(s3);
    LeaderOf(r.view + 1);
    var p;
    s4, p := EmptyProposal(s3);
    FourAuthorities(s4);
  }

  lemma SecondVoted(s: State, r: Round) returns (s': State)
    requires ValidRound(r) && Ready(s, 2, r.view + 1) && s.lastVotedView == r.view && s.highQc == Second(r).qc
    requires HasStored(s, First(r)) && ParentApart(s, r)
    ensures WellFormed(s) && s' == HandleProposal(s, Second(r)).state
    ensures Ready(s', 2, r.view + 1) && s'.lastVotedView == r.view + 1 && s'.highQc == s.highQc
    ensures s'.store == s.store[ProposalDigest(Second(r)) := Second(r)]
    ensures s'.client == s.client && s'.votes == s.votes && s'.timeouts == s.timeouts
    ensures s.trace <= s'.trace && Voted(r.view + 1, Second(r)) in s'.trace
    ensures Votes(s'.trace) == Votes(s.trace) + [Second(r)]
  {
    hide Leader, Extends, HandleProposal, Votes;
    var p := Second(r);
    FourAuthorities(s);
    SecondVerified(s, r);
    SecondFinalizesNothing(s, r);
    LeaderOf(r.view + 2);
    AcceptsAndVotes(s, p);
    s' := HandleProposal(s, p).state;
    assert Voted(r.view + 1, p) == s'.trace[|s.trace|];
    VoteLogged(s.trace, s'.trace, p);
  }

  // ---------- The run ----------

  const FIRST_ROUND := Round(1, Atom(10), 1, 1, 5, DEFAULT_QC)

  /** The second round of the first run. */
  const SECOND_ROUND := Round(5, Atom(11), 1, 1, 9, DEFAULT_QC)

  /** The second round of the second run, on the branch of the first round, with any claimed number. */
  function ContinuedRound(number: BlockNumber): Round {
    Round(5, Atom(11), number, 1, 9, Certificate(ProposalDigest(Second(FIRST_ROUND)), 2))
  }

  const CLIENT := Client(map[Atom(10) := 1, Atom(11) := 1], {}, Zero, 0)

  function Start(id: AuthorityId): State {
    Init(Some(id), AUTHORITIES, CLIENT, [])
  }

  function Together(s0: State, s2: State, s3: State): System {
    map[0 := s0, 2 := s2, 3 := s3]
  }

  lemma StartReachable()
    ensures Reachable(CONFIG, Together(Start(0), Start(2), Start(3)))
  {
    ConfigIsValid();
    var sys := Together(Start(0), Start(2), Start(3));
    assert sys.Keys == {0, 2, 3};
    assert CanRun(CONFIG, sys, []) && After(CONFIG, sys, []) == sys;
  }

  lemma VoterStep(s0: State, s2: State, s3: State, a: Action, s0': State)
    requires Reachable(CONFIG, Together(s0, s2, s3)) && a.id == 0 && WellFormed(s0) && s0' == Local(s0, a)
    requires a.Deliver? ==> AuthenticMessage(CONFIG, Signed(Together(s0, s2, s3)), a.message)
    ensures Reachable(CONFIG, Together(s0', s2, s3))
  {
    hide Reachable, WellFormed, Local, AuthenticMessage, Signed;
    ReachableStep(CONFIG, Together(s0, s2, s3), a);
    assert Apply(CONFIG, Together(s0, s2, s3), a) == Together(s0', s2, s3);
  }

  lemma CollectorStep(s0: State, s2: State, s3: State, a: Action, s2': State)
    requires Reachable(CONFIG, Together(s0, s2, s3)) && a.id == 2 && WellFormed(s2) && s2' == Local(s2, a)
    requires a.Deliver? ==> AuthenticMessage(CONFIG, Signed(Together(s0, s2, s3)), a.message)
    ensures Reachable(CONFIG, Together(s0, s2', s3))
  {
    hide Reachable, WellFormed, Local, AuthenticMessage, Signed;
    ReachableStep(CONFIG, Together(s0, s2, s3), a);
    assert Apply(CONFIG, Together(s0, s2, s3), a) == Together(s0, s2', s3);
  }

  lemma ObserverStep(s0: State, s2: State, s3: State, a: Action, s3': State)
    requires Reachable(CONFIG, Together(s0, s2, s3)) && a.id == 3 && WellFormed(s3) && s3' == Local(s3, a)
    requires a.Deliver? ==> AuthenticMessage(CONFIG, Signed(Together(s0, s2, s3)), a.message)
    ensures Reachable(CONFIG, Together(s0, s2, s3'))
  {
    hide Reachable, WellFormed, Local, AuthenticMessage, Signed;
    ReachableStep(CONFIG, Together(s0, s2, s3), a);
    assert Apply(CONFIG, Together(s0, s2, s3), a) == Together(s0, s2, s3');
  }

  lemma VoterSigned(s0: State, s2: State, s3: State, e: Event, signature: Signature)
    requires e in s0.trace && signature in Signatures(0, e)
    ensures signature in Signed(Together(s0, s2, s3))
  {
    MadeAt(0, s0.trace, signature);
    assert Together(s0, s2, s3)[0] == s0;
  }

  lemma CollectorSigned(s0: State, s2: State, s3: State, e: Event, signature: Signature)
    requires e in s2.trace && signature in Signatures(2, e)
    ensures signature in Signed(Together(s0, s2, s3))
  {
    MadeAt(2, s2.trace, signature);
    assert Together(s0, s2, s3)[2] == s2;
  }

  lemma CertificateAuthentic(s0: State, s2: State, s3: State, view: View, p: Proposal)
    requires p.view == view && Voted(view, p) in s0.trace && Voted(view, p) in s2.trace
    ensures AuthenticQc(CONFIG, Signed(Together(s0, s2, s3)), Certificate(ProposalDigest(p), view))
  {
    hide Signed;
    var d := ProposalDigest(p);
    ConfigIsValid();
    VoterSigned(s0, s2, s3, Voted(view, p), Sig(0, VoteHash(d, view)));
    CollectorSigned(s0, s2, s3, Voted(view, p), Sig(2, VoteHash(d, view)));
    assert AUTHORITIES[0] == 0 && AUTHORITIES[1] == 1 && AUTHORITIES[2] == 2;
  }

  /** The round starts from the default certificate or from one of a proposal both replicas voted for. */
  ghost predicate StartsFrom(s0: State, s2: State, r: Round) {
    r.qc == DEFAULT_QC || exists p :: VotedByBoth(s0, s2, p) && r.qc == Certificate(ProposalDigest(p), p.view)
  }

  ghost predicate VotedByBoth(s0: State, s2: State, p: Proposal) {
    Voted(p.view, p) in s0.trace && Voted(p.view, p) in s2.trace
  }

  lemma FirstAuthentic(s0: State, s2: State, s3: State, r: Round)
    requires StartsFrom(s0, s2, r)
    ensures AuthenticMessage(CONFIG, Signed(Together(s0, s2, s3)), Propose(First(r)))
  {
    hide Signed, Together;
    FaultySignature(Signed(Together(s0, s2, s3)), ProposalDigest(First(r)));
    if r.qc != DEFAULT_QC {
      var p :| VotedByBoth(s0, s2, p) && r.qc == Certificate(ProposalDigest(p), p.view);
      CertificateAuthentic(s0, s2, s3, p.view, p);
    }
  }

  lemma StartsFromGrows(s0: State, s2: State, s0': State, s2': State, r: Round)
    requires StartsFrom(s0, s2, r) && s0.trace <= s0'.trace && s2.trace <= s2'.trace
    ensures StartsFrom(s0', s2', r)
  {
    if r.qc != DEFAULT_QC {
      var p :| VotedByBoth(s0, s2, p) && r.qc == Certificate(ProposalDigest(p), p.view);
      assert VotedByBoth(s0', s2', p);
    }
  }

  lemma FaultySignature(known: set<Signature>, d: Digest)
    ensures Authentic(CONFIG, known, Sig(1, d))
  {
    ConfigIsValid();
  }

  /** Both replicas receive the first proposal, and replica 2 the votes for it. */
  lemma PlayFirst(s0: State, s2: State, s3: State, r: Round) returns (s0': State, s2': State)
    requires Reachable(CONFIG, Together(s0, s2, s3)) && ValidRound(r) && CanStart(s0, 0, r) && CanStart(s2, 2, r)
    requires StartsFrom(s0, s2, r)
    ensures Reachable(CONFIG, Together(s0', s2', s3))
    ensures Ready(s0', 0, r.view) && s0'.highQc == s0.highQc
    ensures HasStored(s0', First(r)) && ParentApart(s0', r) && Votes(s0'.trace) == Votes(s0.trace) + [First(r)]
    ensures s0'.client == s0.client && s0'.votes == s0.votes && s0'.timeouts == s0.timeouts
    ensures s0.trace <= s0'.trace && Voted(r.view, First(r)) in s0'.trace
    ensures Ready(s2', 2, r.view + 1) && s2'.highQc.view == r.view
    ensures HasStored(s2', First(r)) && HasStored(s2', Second(r))
    ensures s2'.client == s2.client && s2'.timeouts == s2.timeouts && s2'.votes.Keys == s2.votes.Keys + {r.view}
    ensures s2.trace <= s2'.trace && Voted(r.view, First(r)) in s2'.trace && Voted(r.view + 1, Second(r)) in s2'.trace
    ensures Sent(r.view + 1, Propose(Second(r))) in s2'.trace
    ensures Votes(s2'.trace) == Votes(s2.trace) + [First(r), Second(r)]
  {
    hide Reachable, Handle, WellFormed, Signed, CanStart, Together, TallyVote, VotedFirst, HasStored, Second, Votes;
    hide ParentApart, StartsFrom, First;
    var p := First(r);
    var d := ProposalDigest(p);
    DifferentDigests(r);
    FirstAuthentic(s0, s2, s3, r);
    s0' := VoterFirst(s0, r);
    VoterStep(s0, s2, s3, Deliver(0, Propose(p)), s0');
    StartsFromGrows(s0, s2, s0', s2, r);
    FirstAuthentic(s0', s2, s3, r);
    var c1 := CollectorFirst(s2, r);
    CollectorStep(s0', s2, s3, Deliver(2, Propose(p)), c1);
    VoterSigned(s0', c1, s3, Voted(r.view, p), Sig(0, VoteHash(d, r.view)));
    var c2 := CollectorSecondVote(s2, c1, r);
    CollectorStep(s0', c1, s3, Deliver(2, VoteMsg(SignedVote(0, d, r.view))), c2);
    FaultySignature(Signed(Together(s0', c2, s3)), VoteHash(d, r.view));
    s2' := CollectorThirdVote(s2, c2, r);
    CollectorStep(s0', c2, s3, Deliver(2, VoteMsg(SignedVote(1, d, r.view))), s2');
  }

  /** Replica 0 receives the second proposal and votes for it; then a quorum has. */
  lemma PlaySecond(s0: State, s2: State, s3: State, r: Round) returns (s0': State)
    requires Reachable(CONFIG, Together(s0, s2, s3)) && ValidRound(r)
    requires Ready(s0, 0, r.view) && s0.highQc.view < r.view
    requires HasStored(s0, First(r)) && ParentApart(s0, r)
    requires Voted(r.view, First(r)) in s0.trace && Voted(r.view, First(r)) in s2.trace
    requires Sent(r.view + 1, Propose(Second(r))) in s2.trace
    ensures Reachable(CONFIG, Together(s0', s2, s3))
    ensures Ready(s0', 0, r.view + 1) && s0'.highQc.view == r.view
    ensures HasStored(s0', First(r)) && HasStored(s0', Second(r))
    ensures s0'.client == s0.client && s0'.votes == s0.votes && s0'.timeouts == s0.timeouts
    ensures s0.trace <= s0'.trace && Voted(r.view + 1, Second(r)) in s0'.trace
    ensures Votes(s0'.trace) == Votes(s0.trace) + [Second(r)]
  {
    hide Reachable, Handle, WellFormed, Signed, Together, Votes, ParentApart;
    var p, q := First(r), Second(r);
    CertificateAuthentic(s0, s2, s3, r.view, p);
    CollectorSigned(s0, s2, s3, Sent(r.view + 1, Propose(q)), Sig(2, ProposalDigest(q)));
    s0' := VoterSecond(s0, r);
    VoterStep(s0, s2, s3, Deliver(0, Propose(q)), s0');
  }

  /** Both receive the third proposal. */
  lemma PlayThird(s0: State, s2: State, s3: State, r: Round) returns (s0': State, s2': State)
    requires Reachable(CONFIG, Together(s0, s2, s3)) && ValidRound(r)
    requires CanFinalize(s0, 0, r) && CanFinalize(s2, 2, r)
    requires Voted(r.view + 1, Second(r)) in s0.trace && Voted(r.view + 1, Second(r)) in s2.trace
    ensures Reachable(CONFIG, Together(s0', s2', s3))
    ensures Ended(s0, s0', 0, r, []) && Ended(s2, s2', 2, r, [])
    ensures FinalizeCalled(Third(r), Second(r), First(r)) in s0'.trace
  {
    hide Reachable, Handle, WellFormed, Signed, Together, CanFinalize, Votes;
    var q, t := Second(r), Third(r);
    CertificateAuthentic(s0, s2, s3, r.view + 1, q);
    FaultySignature(Signed(Together(s0, s2, s3)), ProposalDigest(t));
    s0' := FinalizesFirst(s0, 0, r);
    VoterStep(s0, s2, s3, Deliver(0, Propose(t)), s0');
    CertificateAuthentic(s0', s2, s3, r.view + 1, q);
    FaultySignature(Signed(Together(s0', s2, s3)), ProposalDigest(t));
    s2' := FinalizesFirst(s2, 2, r);
    CollectorStep(s0', s2, s3, Deliver(2, Propose(t)), s2');
  }

  lemma PlayRound(s0: State, s2: State, s3: State, r: Round) returns (s0': State, s2': State)
    requires Reachable(CONFIG, Together(s0, s2, s3)) && ValidRound(r) && CanStart(s0, 0, r) && CanStart(s2, 2, r)
    requires AwaitsBlock(s0, r) && AwaitsBlock(s2, r) && StartsFrom(s0, s2, r)
    ensures Reachable(CONFIG, Together(s0', s2', s3))
    ensures Ended(s0, s0', 0, r, [First(r), Second(r)]) && Ended(s2, s2', 2, r, [First(r), Second(r)])
    ensures FinalizeCalled(Third(r), Second(r), First(r)) in s0'.trace
    ensures VotedByBoth(s0', s2', Second(r))
  {
    hide Reachable, Together, First, Third, HasStored, Votes, ParentApart, StartsFrom, Finalizes;
    var v, c := PlayFirst(s0, s2, s3, r);
    var v' := PlaySecond(v, c, s3, r);
    s0', s2' := PlayThird(v', c, s3, r);
  }

  // ---------- Leaving a view by timeout ----------

  function SignedTimeout(id: AuthorityId, qc: QC, view: View): Timeout {
    Timeout(qc, view, id, Some(Sig(id, TimeoutHash(view, qc.view))))
  }

  /** A certificate of replicas 0 and 2 and the faulty authority, with the views they signed. */
  function TimeoutCertificate(view: View, qcView: View): TC {
    var d := TimeoutHash(view, qcView);
    TC(view, [(0, Sig(0, d), qcView), (1, Sig(1, d), qcView), (2, Sig(2, d), qcView)])
  }

  lemma TimeoutCertificateChecks(view: View, qcView: View)
    ensures CheckTc(TimeoutCertificate(view, qcView), AUTHORITIES).Ok?
  {
    var bs := TcBallots(TimeoutCertificate(view, qcView));
    assert |bs| == 3 && bs[0].voter == 0 && bs[1].voter == 1 && bs[2].voter == 2;
    CheckMeaning(bs, 4);
  }

  /** The replica's highest certificate is the one a round left behind, of a view below its own. */
  ghost predicate Waiting(s: State, id: AuthorityId, view: View, d: Digest, qcView: View) {
    Ready(s, id, view) && s.highQc == Certificate(d, qcView) && qcView < view && NothingFrom(s, view)
  }

  ghost predicate SameButView(s: State, s': State) {
    && s'.client == s.client && s'.votes == s.votes && s'.store == s.store
    && s.trace <= s'.trace && Votes(s'.trace) == Votes(s.trace)
  }

  lemma TimesOut(s: State, id: AuthorityId, view: View, d: Digest, qcView: View) returns (s': State)
    requires Waiting(s, id, view, d, qcView) && id < 4
    ensures WellFormed(s) && s' == HandleLocalTimer(s).state
    ensures Ready(s', id, view) && s'.highQc == s.highQc && NothingFrom(s', view + 1) && SameButView(s, s')
    ensures Sent(view, TimeoutMsg(SignedTimeout(id, s.highQc, view))) in s'.trace
  {
    hide Extends, HandleLocalTimer, CheckQc, Votes;
    var t := SignedTimeout(id, s.highQc, view);
    FourAuthorities(s);
    assert AUTHORITIES[id] == id;
    CertificateChecks(d, qcView);
    TimerSends(s, t);
    s' := HandleLocalTimer(s).state;
    assert s'.trace[|s.trace|] == Sent(view, TimeoutMsg(t));
    VotesAppend(s.trace, Sent(view, TimeoutMsg(t)));
  }

  lemma Advances(s: State, id: AuthorityId, view: View, qcView: View) returns (s': State)
    requires Ready(s, id, view) && NothingFrom(s, view + 1)
    ensures WellFormed(s) && s' == Handle(s, TcMsg(TimeoutCertificate(view, qcView))).state
    ensures Ready(s', id, view + 1) && s'.lastVotedView <= view && s'.highQc == s.highQc && NothingFrom(s', view + 1)
    ensures SameButView(s, s')
  {
    hide Extends, HandleTc, CheckTc;
    FourAuthorities(s);
    TimeoutCertificateChecks(view, qcView);
    TcAdvances(s, TimeoutCertificate(view, qcView));
    s' := Handle(s, TcMsg(TimeoutCertificate(view, qcView))).state;
  }

  lemma TimeoutCertificateAuthentic(s0: State, s2: State, s3: State, view: View, qc: QC)
    requires Sent(view, TimeoutMsg(SignedTimeout(0, qc, view))) in s0.trace
    requires Sent(view, TimeoutMsg(SignedTimeout(2, qc, view))) in s2.trace
    ensures AuthenticMessage(CONFIG, Signed(Together(s0, s2, s3)), TcMsg(TimeoutCertificate(view, qc.view)))
  {
    hide Signed;
    var d := TimeoutHash(view, qc.view);
    ConfigIsValid();
    VoterSigned(s0, s2, s3, Sent(view, TimeoutMsg(SignedTimeout(0, qc, view))), Sig(0, d));
    CollectorSigned(s0, s2, s3, Sent(view, TimeoutMsg(SignedTimeout(2, qc, view))), Sig(2, d));
    assert AUTHORITIES[0] == 0 && AUTHORITIES[1] == 1 && AUTHORITIES[2] == 2;
  }

  /** Both replicas time out, and a certificate of their timeouts takes both to the next view. */
  lemma SkipView(s0: State, s2: State, s3: State, view: View, d: Digest, qcView: View) returns (s0': State, s2': State)
    requires Reachable(CONFIG, Together(s0, s2, s3))
    requires Waiting(s0, 0, view, d, qcView) && Waiting(s2, 2, view, d, qcView)
    ensures Reachable(CONFIG, Together(s0', s2', s3))
    ensures Waiting(s0', 0, view + 1, d, qcView) && SameButView(s0, s0') && s0'.lastVotedView <= view
    ensures Waiting(s2', 2, view + 1, d, qcView) && SameButView(s2, s2') && s2'.lastVotedView <= view
  {
    hide Reachable, Handle, HandleLocalTimer, WellFormed, Signed, Together, TimeoutCertificate, AuthenticMessage;
    var qc, tc := Certificate(d, qcView), TimeoutCertificate(view, qcView);
    var v1 := TimesOut(s0, 0, view, d, qcView);
    VoterStep(s0, s2, s3, Timer(0), v1);
    var c1 := TimesOut(s2, 2, view, d, qcView);
    CollectorStep(v1, s2, s3, Timer(2), c1);
    TimeoutCertificateAuthentic(v1, c1, s3, view, qc);
    s0' := Advances(v1, 0, view, qcView);
    VoterStep(v1, c1, s3, Deliver(0, TcMsg(tc)), s0');
    TimeoutCertificateAuthentic(s0', c1, s3, view, qc);
    s2' := Advances(c1, 2, view, qcView);
    CollectorStep(s0', c1, s3, Deliver(2, TcMsg(tc)), s2');
  }

  // ---------- Replica 3 catches up ----------

  /** A replica that has seen nothing receives the first two proposals of a round and stores them. */
  lemma ObserverStores(s: State, r: Round) returns (s1: State, s2: State)
    requires ValidRound(r) && r.view > 1 && s == Start(3) && KnowsBlock(s, r)
    ensures WellFormed(s) && s1 == Handle(s, Propose(First(r))).state
    ensures WellFormed(s1) && s2 == Handle(s1, Propose(Second(r))).state
    ensures s2.view <= 1 && s2.me == Some(3) && s2.authorities == AUTHORITIES && s2.client == s.client
    ensures HasStored(s2, First(r)) && HasStored(s2, Second(r)) && s2.trace == []
  {
    hide Leader, Extends, HandleProposal;
    FourAuthorities(s);
    FirstVerified(s, r);
    ProposalStored(s, First(r));
    s1 := Stored(s, First(r));
    FourAuthorities(s1);
    SecondVerified(s1, r);
    SecondFinalizesNothing(s1, r);
    ProposalStored(s1, Second(r));
    s2 := Stored(s1, Second(r));
  }

  /** On the third it finalises the first. */
  lemma ObserverFinalizes(s: State, r: Round) returns (s': State)
    requires ValidRound(r) && r.view > 1 && r.later > 1 && AwaitsBlock(s, r)
    requires s.view <= 1 && s.me == Some(3) && s.authorities == AUTHORITIES
    requires HasStored(s, First(r)) && HasStored(s, Second(r))
    ensures WellFormed(s) && s' == Handle(s, Propose(Third(r))).state
    ensures s'.trace == s.trace + [FinalizeCalled(Third(r), Second(r), First(r))]
    ensures s'.client.finalizedHash == r.block && s'.client.finalizedNumber == r.height
  {
    hide Leader, Extends, HandleProposal;
    var p := Third(r);
    FourAuthorities(s);
    ThirdVerified(s, r);
    ProposalFinalizes(s, p, Second(r), First(r));
    s' := Handle(s, Propose(p)).state;
  }

  lemma Observe(s0: State, s2: State, r: Round) returns (s3: State)
    requires Reachable(CONFIG, Together(s0, s2, Start(3))) && ValidRound(r) && r.view > 1 && r.later > 1
    requires AwaitsBlock(Start(3), r) && StartsFrom(s0, s2, r)
    requires Voted(r.view, First(r)) in s0.trace && Voted(r.view, First(r)) in s2.trace
    requires Voted(r.view + 1, Second(r)) in s0.trace && Voted(r.view + 1, Second(r)) in s2.trace
    requires Sent(r.view + 1, Propose(Second(r))) in s2.trace
    ensures Reachable(CONFIG, Together(s0, s2, s3))
    ensures s3.trace == [FinalizeCalled(Third(r), Second(r), First(r))]
    ensures s3.client.finalizedHash == r.block && s3.client.finalizedNumber == r.height
  {
    hide Reachable, Handle, WellFormed, Signed, Together, StartsFrom;
    var p, q, t := First(r), Second(r), Third(r);
    var o1, o2 := ObserverStores(Start(3), r);
    FirstAuthentic(s0, s2, Start(3), r);
    ObserverStep(s0, s2, Start(3), Deliver(3, Propose(p)), o1);
    CertificateAuthentic(s0, s2, o1, r.view, p);
    CollectorSigned(s0, s2, o1, Sent(r.view + 1, Propose(q)), Sig(2, ProposalDigest(q)));
    ObserverStep(s0, s2, o1, Deliver(3, Propose(q)), o2);
    CertificateAuthentic(s0, s2, o2, r.view + 1, q);
    FaultySignature(Signed(Together(s0, s2, o2)), ProposalDigest(t));
    s3 := ObserverFinalizes(o2, r);
    ObserverStep(s0, s2, o2, Deliver(3, Propose(t)), s3);
  }

  /** The second round up to the votes for the second proposal, and replica 3 catching up with it: all it does is
      finalise the round's block. */
  lemma PlayObserved(s0: State, s2: State, r: Round) returns (s0': State, s2': State, s3': State)
    requires Reachable(CONFIG, Together(s0, s2, Start(3))) && ValidRound(r) && r.view > 1 && r.later > 1
    requires CanStart(s0, 0, r) && CanStart(s2, 2, r) && AwaitsBlock(Start(3), r) && StartsFrom(s0, s2, r)
    ensures Reachable(CONFIG, Together(s0', s2', s3'))
    ensures s0.trace <= s0'.trace && s0'.client == s0.client
    ensures Votes(s0'.trace) == Votes(s0.trace) + [First(r), Second(r)]
    ensures Votes(s2'.trace) == Votes(s2.trace) + [First(r), Second(r)]
    ensures s3'.trace == [FinalizeCalled(Third(r), Second(r), First(r))]
    ensures s3'.client.finalizedHash == r.block && s3'.client.finalizedNumber == r.height
  {
    hide Reachable, Together, Start, StartsFrom, First, Second, Third, Votes, HasStored, ParentApart;
    var v, c := PlayFirst(s0, s2, Start(3), r);
    s0' := PlaySecond(v, c, Start(3), r);
    s2' := c;
    StartsFromGrows(s0, s2, s0', s2', r);
    s3' := Observe(s0', s2', r);
  }

  /** A replica after the first round, in the view of the second. */
  ghost predicate Between(s: State, id: AuthorityId) {
    && Ready(s, id, 5) && s.lastVotedView < 5 && s.highQc.view == 2 && NothingFrom(s, 5)
    && s.client.known == CLIENT.known
    && s.client.finalizedHash == FIRST_ROUND.block && s.client.finalizedNumber == FIRST_ROUND.height
    && HasStored(s, First(FIRST_ROUND)) && HasStored(s, Second(FIRST_ROUND))
    && Votes(s.trace) == [First(FIRST_ROUND), Second(FIRST_ROUND)]
  }

  /** The first round, and the way to the view of the second. */
  lemma FirstRoundPlayed() returns (s0: State, s2: State)
    ensures Reachable(CONFIG, Together(s0, s2, Start(3)))
    ensures Between(s0, 0) && Between(s2, 2) && VotedByBoth(s0, s2, Second(FIRST_ROUND))
    ensures FinalizeCalled(Third(FIRST_ROUND), Second(FIRST_ROUND), First(FIRST_ROUND)) in s0.trace
  {
    hide Reachable, Together, Second, Third;
    StartReachable();
    FirstRoundStarts(0);
    FirstRoundStarts(2);
    var v1, c1 := PlayRound(Start(0), Start(2), Start(3), FIRST_ROUND);
    var d := ProposalDigest(Second(FIRST_ROUND));
    var v2, c2 := SkipView(v1, c1, Start(3), 3, d, 2);
    s0, s2 := SkipView(v2, c2, Start(3), 4, d, 2);
    assert FinalizeCalled(Third(FIRST_ROUND), Second(FIRST_ROUND), First(FIRST_ROUND)) in v2.trace;
    assert VotedByBoth(v2, c2, Second(FIRST_ROUND));
  }

  lemma FirstRoundStarts(id: AuthorityId)
    ensures ValidRound(FIRST_ROUND) && CanStart(Start(id), id, FIRST_ROUND) && AwaitsBlock(Start(id), FIRST_ROUND)
  {
  }

  lemma SecondRoundStarts(s: State, id: AuthorityId)
    requires Between(s, id)
    ensures ValidRound(SECOND_ROUND) && CanStart(s, id, SECOND_ROUND)
  {
  }

  lemma ContinuedRoundStarts(s: State, id: AuthorityId, number: BlockNumber)
    requires Between(s, id)
    ensures ValidRound(ContinuedRound(number)) && CanStart(s, id, ContinuedRound(number))
  {
    hide CheckQc;
    CertificateChecks(ProposalDigest(Second(FIRST_ROUND)), 2);
  }

  // ---------- Votes of the runs ----------

  lemma LockedByVotes(sys: System)
    requires forall id, i, j ::
               id in sys && 0 <= i < j < |Votes(sys[id].trace)| ==>
                 Votes(sys[id].trace)[i].qc.view <= Votes(sys[id].trace)[j].qc.view
    ensures Locked(sys)
  {
    forall id, i, j | id in sys && 0 <= i < j < |sys[id].trace| && sys[id].trace[i].Voted? && sys[id].trace[j].Voted?
      ensures sys[id].trace[i].proposal.qc.view <= sys[id].trace[j].proposal.qc.view
    {
      VoteListed(sys[id].trace, i);
      VoteListed(sys[id].trace, j);
      VotesOrdered(sys[id].trace, i, j);
    }
  }

  /** Proposals that carry no block, or start a branch, satisfy the rule on payloads. */
  lemma RepeatsByVotes(sys: System, height: Heights)
    requires forall id, i ::
               id in sys && 0 <= i < |Votes(sys[id].trace)| ==>
                 var p := Votes(sys[id].trace)[i]; p.payload.blockHash == EMPTY_PAYLOAD || p.qc.proposalHash == Zero
    ensures VotesRepeat(sys, height)
  {
    forall id, i | id in sys && 0 <= i < |sys[id].trace| && sys[id].trace[i].Voted?
      ensures var d := ProposalDigest(sys[id].trace[i].proposal);
              d in AllAt(height, height(BlockOf(d))) ==> RepeatsNearest(AllAt(height, height(BlockOf(d))), d)
    {
      VoteListed(sys[id].trace, i);
    }
  }

  lemma {:induction false} NoVotes(trace: seq<Event>)
    requires |trace| == 1 && trace[0].FinalizeCalled?
    ensures Votes(trace) == []
  {
    assert trace[..0] == [];
  }

  // ---------- The two runs ----------

  /** Two honest clients have finalised different blocks of the same number. */
  ghost predicate ClientsDisagree(sys: System, id1: AuthorityId, id2: AuthorityId) {
    && id1 in sys && id2 in sys
    && sys[id1].client.finalizedNumber == sys[id2].client.finalizedNumber
    && sys[id1].client.finalizedHash != sys[id2].client.finalizedHash
  }

  /** Some run of the protocol as it stands makes two honest replicas finalise proposals neither of which descends
      from the other, and different blocks of the same number.  Its votes satisfy the rule on payloads. */
  lemma CommitSafetyFails() returns (c: Config, sys: System, id1: AuthorityId, id2: AuthorityId, r1: Round, r2: Round)
    ensures Reachable(c, sys)
    ensures Finalized(sys, id1, Third(r1), Second(r1), First(r1)) && Finalized(sys, id2, Third(r2), Second(r2), First(r2))
    ensures !OneBranch(ProposalDigest(First(r1)), ProposalDigest(First(r2))) && ClientsDisagree(sys, id1, id2)
    ensures !Locked(sys) && forall height: Heights :: VotesRepeat(sys, height)
  {
    hide Reachable, Locked, CanStart, Third, Votes, VotesRepeat;
    c, id1, id2, r1, r2 := CONFIG, 0, 3, FIRST_ROUND, SECOND_ROUND;
    var v, w := FirstRoundPlayed();
    SecondRoundStarts(v, 0);
    SecondRoundStarts(w, 2);
    var v', w', o := PlayObserved(v, w, r2);
    sys := Together(v', w', o);
    assert FinalizeCalled(Third(r1), Second(r1), First(r1)) in v'.trace;
    if Locked(sys) {
      LockedBranch(c, sys, id1, Third(r1), Second(r1), First(r1), id2, Third(r2), Second(r2), First(r2));
    }
    NoVotes(o.trace);
    forall height: Heights ensures VotesRepeat(sys, height) {
      RepeatsByVotes(sys, height);
    }
  }

  /** The locking rule does not prevent it: some run in which honest votes obey it makes two honest replicas finalise
      proposals on one branch with different blocks of the same number, whatever number the second payload claims.
      Its votes break the rule on payloads. */
  lemma BlockSafetyFails(number: BlockNumber)
      returns (c: Config, sys: System, id1: AuthorityId, id2: AuthorityId, r1: Round, r2: Round)
    ensures Reachable(c, sys) && Locked(sys)
    ensures Finalized(sys, id1, Third(r1), Second(r1), First(r1)) && Finalized(sys, id2, Third(r2), Second(r2), First(r2))
    ensures OneBranch(ProposalDigest(First(r1)), ProposalDigest(First(r2))) && ClientsDisagree(sys, id1, id2)
    ensures First(r1).payload == Payload(r1.block, 1) && First(r2).payload == Payload(r2.block, number)
    ensures forall height: Heights :: height(r1.block) == height(r2.block) ==> !VotesRepeat(sys, height)
  {
    hide Reachable, Locked, CanStart, Third, Votes, VotesRepeat;
    c, id1, id2, r1, r2 := CONFIG, 0, 3, FIRST_ROUND, ContinuedRound(number);
    var v, w := FirstRoundPlayed();
    ContinuedRoundStarts(v, 0, number);
    ContinuedRoundStarts(w, 2, number);
    var v', w', o := PlayObserved(v, w, r2);
    sys := Together(v', w', o);
    assert FinalizeCalled(Third(r1), Second(r1), First(r1)) in v'.trace;
    NoVotes(o.trace);
    LockedByVotes(sys);
    assert Descends(ProposalDigest(Second(r1)), ProposalDigest(First(r1)));
    forall height: Heights | height(r1.block) == height(r2.block) ensures !VotesRepeat(sys, height) {
      if VotesRepeat(sys, height) {
        LockedBlocks(c, sys, height, id1, Third(r1), Second(r1), First(r1), id2, Third(r2), Second(r2), First(r2));
      }
    }
  }
}
