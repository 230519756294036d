/** The outcome of a handler in the situations a run goes through, as one update of the state. */
module Steps {
  import opened Types
  import opened Certificates
  import opened Aggregation
  import opened Replica

  ghost predicate BlockAvailable(s: State, p: Proposal) {
    p.payload.blockHash == EMPTY_PAYLOAD ||
    (p.payload.blockHash in s.client.known && p.payload.blockHash !in s.client.failing)
  }

  /** The replica after it accepted a proposal that finalises nothing. */
  function Stored(s: State, p: Proposal): State {
    HandleQc(s, p.qc).(store := s.store[ProposalDigest(p) := p])
  }

  /** The proposal completes a two-chain whose block is not the finalised one. */
  predicate Finalizes(s: State, p: Proposal) {
    match Ancestors(s.store[ProposalDigest(p) := p], p)
    case Err(_) => false
    case Ok((parent, grandpa)) =>
      var hash := grandpa.payload.blockHash;
      parent.view == grandpa.view + 1 && hash != EMPTY_PAYLOAD && hash != s.client.finalizedHash
  }

  lemma AcceptStored(s: State, p: Proposal)
    requires p.tc.None? && !Finalizes(s, p)
    ensures Accept(s, p) == Stored(s, p)
  {
    hide Extends, Ancestors;
  }

  lemma {:induction false} ProposalAccepted(s: State, p: Proposal)
    requires WellFormed(s) && BlockAvailable(s, p) && ProposalVerdict(s, p).Ok?
    ensures HandleProposal(s, p) == VoteOn(Accept(s, p), p)
  {
    hide Accept, VoteOn, ProposalVerdict, Extends;
  }

  /** A proposal of another view that finalises nothing is only stored. */
  lemma {:induction false} ProposalStored(s: State, p: Proposal)
    requires WellFormed(s) && BlockAvailable(s, p) && ProposalVerdict(s, p).Ok? && p.tc.None?
    requires p.view != HandleQc(s, p.qc).view && !Finalizes(s, p)
    ensures HandleProposal(s, p).state == Stored(s, p)
  {
    hide Extends, ProposalVerdict, HandleProposal, PassOnVote, Finalizes, CastVote, Accept;
    AcceptStored(s, p);
    ProposalAccepted(s, p);
  }

  lemma {:induction false} VoteCast(s: State, p: Proposal)
    requires WellFormed(s) && s.view == p.view && MayVote(s, p)
    ensures VoteOn(s, p) == PassOnVote(CastVote(s, p), p)
  {
    hide PassOnVote, Extends, Leader;
  }

  lemma {:induction false} VoteSentOn(s: State, p: Proposal)
    requires WellFormed(s) && s.me.Some? && s.view == p.view && !IsLeader(s, s.view + 1)
    ensures PassOnVote(s, p).state == Log(s, Sent(s.view, VoteMsg(VoteFor(s.me.value, p))))
  {
    hide HandleVote, Extends, Leader;
  }

  /** The replica accepts the proposal, votes for it and sends the vote to the next leader. */
  lemma {:induction false} AcceptsAndVotes(s: State, p: Proposal)
    requires WellFormed(s) && s.me.Some? && BlockAvailable(s, p) && ProposalVerdict(s, p).Ok? && p.tc.None?
    requires !Finalizes(s, p)
    requires HandleQc(s, p.qc).view == p.view && p.view > s.lastVotedView && !IsLeader(s, p.view + 1)
    ensures HandleProposal(s, p).state ==
            Log(CastVote(Stored(s, p), p), Sent(p.view, VoteMsg(VoteFor(s.me.value, p))))
  {
    hide Leader, ProposalVerdict, HandleProposal, VoteOn, PassOnVote, Finalizes, Accept;
    AcceptStored(s, p);
    ProposalAccepted(s, p);
    VoteCast(Stored(s, p), p);
    VoteSentOn(CastVote(Stored(s, p), p), p);
  }

  lemma {:induction false} VoteKept(s: State, p: Proposal)
    requires WellFormed(s) && s.me.Some? && s.view == p.view && IsLeader(s, s.view + 1)
    ensures PassOnVote(s, p) == HandleVote(s, VoteFor(s.me.value, p))
  {
    hide HandleVote, Extends, Leader;
  }

  lemma {:induction false} VoteTallied(s: State, vote: Vote)
    requires WellFormed(s) && VoteVerdict(s, vote).Ok?
    requires TallyVote(s.votes, vote, |s.authorities|).1 == Ok(None)
    ensures HandleVote(s, vote).state == s.(votes := TallyVote(s.votes, vote, |s.authorities|).0)
  {
    hide ProposeOnQc, Extends, VoteVerdict, TallyVote, HandleQc;
  }

  lemma {:induction false} VoteCompletesQc(s: State, vote: Vote, qc: QC)
    requires WellFormed(s) && VoteVerdict(s, vote).Ok?
    requires TallyVote(s.votes, vote, |s.authorities|).1 == Ok(Some(qc))
    ensures HandleVote(s, vote) == ProposeOnQc(HandleQc(s.(votes := TallyVote(s.votes, vote, |s.authorities|).0), qc))
  {
    hide ProposeOnQc, Extends, VoteVerdict, TallyVote, HandleQc;
  }

  /** A leader whose block in process is not finalised, or that has no other block, proposes an empty payload. */
  lemma EmptyProposal(s: State) returns (s1: State, p: Proposal)
    requires WellFormed(s) && IsLeader(s, s.view)
    requires s.processing.Some?
    requires s.processing.value.number > s.client.finalizedNumber || s.pending == []
    requires !TwoTrailingEmpty(s.hashQueue)
    ensures MakeProposal(s, Payload(EMPTY_PAYLOAD, s.processing.value.number), None) == Ok(p)
    ensures s1 == Log(s, Sent(s.view, Propose(p))).(hashQueue := s1.hashQueue)
    ensures ProposeOnQc(s) == HandleProposal(s1, p)
  {
    hide HandleProposal, Extends, Leader;
    var payload := Payload(EMPTY_PAYLOAD, s.processing.value.number);
    var kept := if |s.hashQueue| > 3 then [] else s.hashQueue;
    p := MakeProposal(s, payload, None).value;
    s1 := Log(s.(hashQueue := kept + [EMPTY_PAYLOAD]), Sent(s.view, Propose(p)));
  }

  /** A proposal of another view that completes a two-chain finalises and is not voted for. */
  lemma {:induction false} ProposalFinalizes(s: State, p: Proposal, parent: Proposal, grandpa: Proposal)
    requires WellFormed(s) && BlockAvailable(s, p) && ProposalVerdict(s, p).Ok? && p.tc.None?
    requires p.view != HandleQc(s, p.qc).view
    requires Ancestors(s.store[ProposalDigest(p) := p], p) == Ok((parent, grandpa))
    requires parent.view == grandpa.view + 1
    requires grandpa.payload.blockHash != EMPTY_PAYLOAD && grandpa.payload.blockHash != s.client.finalizedHash
    ensures HandleProposal(s, p).state ==
            Stored(s, p).(trace := s.trace + [FinalizeCalled(p, parent, grandpa)],
                          client := FinalizeBlock(s.client, grandpa.payload.blockHash))
  {
    hide Extends, ProposalVerdict, HandleProposal, PassOnVote, Ancestors, CastVote;
    ProposalAccepted(s, p);
  }

  /** A timer without a quorum of timeouts: the replica gives up the view's vote and sends a timeout. */
  lemma TimerSends(s: State, t: Timeout)
    requires WellFormed(s) && MakeTimeout(s) == Ok(t) && CheckTimeout(t, s.authorities).Ok?
    requires s.highQc.view < s.view && TallyTimeout(s.timeouts, t, |s.authorities|).1 == Ok(None)
    requires s.lastVotedView <= s.view
    ensures HandleLocalTimer(s).state ==
            s.(lastVotedView := s.view, trace := s.trace + [Sent(s.view, TimeoutMsg(t))],
               timeouts := TallyTimeout(s.timeouts, t, |s.authorities|).0)
  {
    hide Extends, CheckTimeout, TallyTimeout;
  }

  /** A timeout certificate for the current view, when there is nothing to propose. */
  lemma TcAdvances(s: State, tc: TC)
    requires WellFormed(s) && TcVerdict(s, tc).Ok? && tc.view == s.view && s.pending == []
    ensures HandleTc(s, tc).state == AdvanceView(s, tc.view).(processing := None)
  {
    hide Extends, CheckTc, HandleProposal;
  }

  // ---------- Votes in a history ----------

  /** The proposals voted for, in order. */
  function Votes(trace: seq<Event>): seq<Proposal> {
    if trace == [] then []
    else
      var last := trace[|trace| - 1];
      Votes(trace[..|trace| - 1]) + if last.Voted? then [last.proposal] else []
  }

  lemma {:induction false} VotesAppend(trace: seq<Event>, e: Event)
    ensures Votes(trace + [e]) == Votes(trace) + if e.Voted? then [e.proposal] else []
  {
    assert (trace + [e])[..|trace|] == trace;
  }

  lemma {:induction false} VotesPrefix(trace: seq<Event>, k: nat)
    requires k <= |trace|
    ensures Votes(trace[..k]) <= Votes(trace)
    decreases |trace|
  {
    if k < |trace| {
      assert trace[..|trace| - 1][..k] == trace[..k];
      VotesPrefix(trace[..|trace| - 1], k);
    } else {
      assert trace[..k] == trace;
    }
  }

  /** A vote is listed at the position given by the number of votes before it. */
  lemma {:induction false} VoteListed(trace: seq<Event>, i: nat)
    requires i < |trace| && trace[i].Voted?
    ensures var k := |Votes(trace[..i])|;
            k < |Votes(trace[..i + 1])| <= |Votes(trace)| && Votes(trace)[k] == trace[i].proposal
  {
    assert trace[..i + 1] == trace[..i] + [trace[i]];
    VotesAppend(trace[..i], trace[i]);
    VotesPrefix(trace, i + 1);
  }

  lemma {:induction false} VotesOrdered(trace: seq<Event>, i: nat, j: nat)
    requires i < j < |trace| && trace[i].Voted? && trace[j].Voted?
    ensures |Votes(trace[..i])| < |Votes(trace[..j])|
  {
    VoteListed(trace, i);
    assert trace[..j][..i + 1] == trace[..i + 1];
    VotesPrefix(trace[..j], i + 1);
  }
}
