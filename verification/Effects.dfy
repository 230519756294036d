/** What each event does to a replica, case by case: what it refuses, what it records, signs and sends, and which
    payload a leader proposes. */
module Effects {
  import opened Types
  import opened Certificates
  import opened Aggregation
  import opened Replica
  import opened Steps
  import opened Reaction
  import opened Runs
  import opened PendingQueue

  // ---------- Proposals ----------

  /** A replica that cannot tell whether it has the block fails; one that does not have it asks for it and does nothing
      else; a proposal that fails verification changes nothing. */
  lemma ProposalRefused(s: State, p: Proposal)
    requires WellFormed(s)
    ensures var (hash, r) := (p.payload.blockHash, Handle(s, Propose(p)));
            && (hash != EMPTY_PAYLOAD && hash in s.client.failing ==> r == Outcome(s, Err(ClientError)))
            && (hash != EMPTY_PAYLOAD && hash !in s.client.failing && hash !in s.client.known ==>
                  r == Outcome(s.(trace := s.trace + [SyncRequested(p.payload)]), Ok(())))
            && (BlockAvailable(s, p) && ProposalVerdict(s, p).Err? ==> r == Outcome(s, ProposalVerdict(s, p)))
  {
    hide Accept, VoteOn, ProposalVerdict, Leader;
  }

  /** Accepting a proposal touches the views, the highest certificate, the store and what finalising changes. */
  lemma AcceptFields(s: State, p: Proposal)
    ensures var (a, h) := (Accept(s, p), HandleQc(s, p.qc));
            a == h.(gossipView := a.gossipView, store := s.store[ProposalDigest(p) := p], client := a.client, trace := a.trace)
  {
    hide Ancestors, Extends;
  }

  /** A proposal that passes verification is stored; its certificate, unless it is of a view the replica has left, is
      no higher than the highest one afterwards, and if it is of the current view the replica leaves that view. */
  lemma ProposalDelivered(s: State, p: Proposal)
    requires WellFormed(s) && BlockAvailable(s, p) && ProposalVerdict(s, p).Ok?
    ensures var r := Handle(s, Propose(p)).state;
            && ProposalDigest(p) in r.store
            && (p.qc.view >= s.view ==> r.highQc.view >= p.qc.view)
            && (p.qc.view == s.view ==> r.view > s.view)
  {
    hide Accept, VoteOn, HandleProposal, HandleQc, ProposalVerdict;
    ProposalAccepted(s, p);
    AcceptFields(s, p);
    CarriedCertificates(s, p.qc, p);
    assert Extends(Accept(s, p), VoteOn(Accept(s, p), p).state);
  }

  /** The replica votes for the proposal exactly if it is an authority, the proposal is for the view its certificate
      leads to, and nothing was signed for that view or a later one. */
  predicate VotesFor(s: State, p: Proposal) {
    s.me.Some? && p.view == HandleQc(s, p.qc).view && p.view > s.lastVotedView
  }

  lemma FinalizeTrace(s: State, p: Proposal)
    ensures TryFinalize(s, p).trace == s.trace ||
            exists parent, grandpa :: TryFinalize(s, p).trace == s.trace + [FinalizeCalled(p, parent, grandpa)]
  {
    hide Ancestors;
  }

  lemma AcceptTrace(s: State, p: Proposal)
    ensures s.trace <= Accept(s, p).trace
    ensures forall i :: |s.trace| <= i < |Accept(s, p).trace| ==> Accept(s, p).trace[i].FinalizeCalled?
  {
    hide TryFinalize, HandleQc;
    var s1 := Save(HandleQc(s, p.qc), p);
    assert s1.trace == s.trace;
    FinalizeTrace(s1, p);
  }

  lemma VoteExact(s: State, p: Proposal)
    requires WellFormed(s) && BlockAvailable(s, p) && ProposalVerdict(s, p).Ok?
    ensures var r := Handle(s, Propose(p)).state;
            VotesFor(s, p) <==> exists i :: |s.trace| <= i < |r.trace| && r.trace[i] == Voted(p.view, p)
  {
    hide Accept, PassOnVote, HandleProposal, HandleQc, ProposalVerdict, Leader;
    ProposalAccepted(s, p);
    AcceptFields(s, p);
    AcceptTrace(s, p);
    var s1 := Accept(s, p);
    var r := VoteOn(s1, p).state;
    if VotesFor(s, p) {
      assert CastVote(s1, p).trace[|s1.trace|] == Voted(p.view, p);
      assert VoteOn(s1, p) == PassOnVote(CastVote(s1, p), p);
      assert r.trace[|s1.trace|] == Voted(p.view, p);
    } else {
      assert r == s1;
    }
  }

  /** The first thing handling the proposal does that shows is the finalise call, exactly if its parent and
      grandparent are stored, of consecutive views, and the grandparent's block is neither empty nor the finalised
      one. */
  lemma FinalizeExact(s: State, p: Proposal, parent: Proposal, grandpa: Proposal)
    requires WellFormed(s) && BlockAvailable(s, p) && ProposalVerdict(s, p).Ok?
    ensures var (r, store) := (Handle(s, Propose(p)).state, s.store[ProposalDigest(p) := p]);
            |r.trace| > |s.trace| && r.trace[|s.trace|] == FinalizeCalled(p, parent, grandpa) <==>
            && p.qc.proposalHash in store && store[p.qc.proposalHash] == parent
            && parent.qc.proposalHash in store && store[parent.qc.proposalHash] == grandpa
            && parent.view == grandpa.view + 1
            && grandpa.payload.blockHash != EMPTY_PAYLOAD && grandpa.payload.blockHash != s.client.finalizedHash
  {
    hide VoteOn, HandleProposal, HandleQc, ProposalVerdict, Leader, Extends;
    ProposalAccepted(s, p);
    var s1 := Accept(s, p);
    FirstOfVoteOn(s1, p);
  }

  lemma {:induction false} FirstOfVoteOn(s: State, p: Proposal)
    requires WellFormed(s)
    ensures var r := VoteOn(s, p).state;
            s.trace <= r.trace && (|r.trace| > |s.trace| ==> r.trace[|s.trace|].Voted?)
  {
    hide PassOnVote, Leader;
    if p.view == s.view && MayVote(s, p) {
      assert CastVote(s, p).trace[|s.trace|].Voted?;
      assert VoteOn(s, p) == PassOnVote(CastVote(s, p), p);
    }
  }

  /** What a proposal leaves behind besides: a vote that is sent on makes the proposal's block the one in process and
      lists its payload; without a vote neither changes. */
  lemma VoteLeaves(s: State, p: Proposal)
    requires WellFormed(s) && BlockAvailable(s, p) && ProposalVerdict(s, p).Ok?
    ensures var r := Handle(s, Propose(p)).state;
            && (!VotesFor(s, p) || !IsLeader(s, p.view + 1) ==> Handle(s, Propose(p)).result == Ok(()))
            && (VotesFor(s, p) && !IsLeader(s, p.view + 1) ==>
                  && r.lastVotedView == p.view && r.view == p.view && r.votes == s.votes && r.timeouts == s.timeouts
                  && r.processing == Some(BlockInfo(Some(p.payload.blockHash), p.payload.blockNumber))
                  && r.hashQueue == s.hashQueue + [p.payload.blockHash])
            && (!VotesFor(s, p) ==>
                  && r.lastVotedView == s.lastVotedView && r.votes == s.votes && r.timeouts == s.timeouts
                  && r.processing == s.processing && r.hashQueue == s.hashQueue)
  {
    hide Accept, HandleVote, HandleProposal, HandleQc, ProposalVerdict, Leader;
    ProposalAccepted(s, p);
    AcceptFields(s, p);
    var s1 := Accept(s, p);
    if VotesFor(s, p) {
      assert VoteOn(s1, p) == PassOnVote(CastVote(s1, p), p);
    }
  }

  // ---------- A leader's proposals ----------

  /** The event is the sending of a leader's own proposal: with this payload and timeout certificate, on its highest
      certificate, for its view, signed by itself. */
  predicate Proposes(s: State, payload: Payload, tc: Option<TC>, e: Event) {
    && e.Sent? && e.at == s.view && e.message.Propose?
    && var p := e.message.proposal;
       && p.payload == payload && p.tc == tc && p.qc == s.highQc && p.view == s.view && s.me == Some(p.author)
       && p.signature == Some(Sig(p.author, ProposalDigest(p)))
  }

  lemma {:induction false} OwnProposalEffect(s: State, p: Proposal)
    requires WellFormed(s) && IsLeader(s, p.view)
    ensures s.hashQueue <= HandleProposal(s, p).state.hashQueue
    ensures HandleProposal(s, p).state.timeouts == s.timeouts
    ensures HandleProposal(s, p).result ==
            if FailedBlock(s, p) then Err(ClientError) else if UnknownBlock(s, p) then Ok(()) else ProposalVerdict(s, p)
  {
    hide HandleVote, ProposalVerdict, Leader, Accept, Extends, HandleQc;
    ConsecutiveLeaders(s.authorities, p.view);
    AcceptFields(s, p);
    var s1 := Accept(s, p);
    assert ProposalVerdict(s, p).Ok? ==> ProposalVerdict(s, p).value == ();
    if p.view == s1.view && MayVote(s1, p) {
      assert VoteOn(s1, p) == PassOnVote(CastVote(s1, p), p);
      assert PassOnVote(CastVote(s1, p), p).result == Ok(());
    }
  }

  lemma ProposeStep(s: State, payload: Payload) returns (s1: State, p: Proposal)
    requires WellFormed(s) && IsLeader(s, s.view) && ProposalPayload(s).1 == Some(payload)
    requires !(payload.blockHash == EMPTY_PAYLOAD && TwoTrailingEmpty(s.hashQueue))
    ensures Proposes(s, payload, None, Sent(s.view, Propose(p)))
    ensures s1 == s.(processing := s1.processing, trace := s.trace + [Sent(s.view, Propose(p))],
                     hashQueue := (if |s.hashQueue| > 3 then [] else s.hashQueue) + [payload.blockHash])
    ensures ProposeOnQc(s) == HandleProposal(s1, p)
  {
    hide HandleProposal, Leader, ProposalPayload, Extends;
    var s0 := ProposalPayload(s).0;
    var kept := if |s0.hashQueue| > 3 then [] else s0.hashQueue;
    var s2 := s0.(hashQueue := kept + [payload.blockHash]);
    p := MakeProposal(s2, payload, None).value;
    s1 := Log(s2, Sent(s2.view, Propose(p)));
  }

  lemma ProposerLeads(s: State, payload: Payload, p: Proposal)
    requires Proposes(s, payload, None, Sent(s.view, Propose(p)))
    ensures p.view == s.view
  {
  }

  lemma {:induction false} ProposeSends(s: State, payload: Payload)
    requires WellFormed(s) && IsLeader(s, s.view) && ProposalPayload(s).1 == Some(payload)
    requires !(payload.blockHash == EMPTY_PAYLOAD && TwoTrailingEmpty(s.hashQueue))
    ensures var (r, q) := (ProposeOnQc(s).state, s.hashQueue);
            && |r.trace| > |s.trace| && Proposes(s, payload, None, r.trace[|s.trace|])
            && (if |q| > 3 then [] else q) + [payload.blockHash] <= r.hashQueue
            && r.votes == s.votes && r.timeouts == s.timeouts
  {
    hide ProposeOnQc, HandleProposal, Leader, ProposalPayload, Proposes, VoteCount, ProposalCount, KeptVotes;
    var s1, p := ProposeStep(s, payload);
    assert Proposes(s, payload, None, Sent(s.view, Propose(p)));
    assert s1.trace[|s.trace|] == Sent(s.view, Propose(p));
    ProposerLeads(s, payload, p);
    OwnProposalReaction(s1, p);
    OwnProposalEffect(s1, p);
  }

  /** After a completed certificate a replica proposes exactly if it leads its view, there is a payload, and this is
      not a third empty one in a row.  The payload is listed, in a list that is cleared when it holds more than three. */
  lemma {:induction false} ProposeExact(s: State)
    requires WellFormed(s)
    ensures var (r, choice, q) := (ProposeOnQc(s).state, ProposalPayload(s).1, s.hashQueue);
            if IsLeader(s, s.view) && choice.Some? && !(choice.value.blockHash == EMPTY_PAYLOAD && TwoTrailingEmpty(q)) then
              && |r.trace| > |s.trace| && Proposes(s, choice.value, None, r.trace[|s.trace|])
              && (if |q| > 3 then [] else q) + [choice.value.blockHash] <= r.hashQueue
            else
              && r.trace == s.trace && r.hashQueue == q && r.view == s.view && r.store == s.store
              && ProposeOnQc(s).result == Ok(())
    ensures ProposeOnQc(s).state.votes == s.votes && ProposeOnQc(s).state.timeouts == s.timeouts
  {
    hide HandleProposal, Leader, ProposalPayload;
    var (s1, choice) := ProposalPayload(s);
    if IsLeader(s, s.view) && choice.Some? && !(choice.value.blockHash == EMPTY_PAYLOAD && TwoTrailingEmpty(s.hashQueue)) {
      ProposeSends(s, choice.value);
    } else {
      assert ProposeOnQc(s).state == s || ProposeOnQc(s).state == s1;
    }
  }

  /** After a timeout certificate a leader proposes exactly if there is a payload, and passes the certificate on. */
  lemma GenerateExact(s: State, tc: Option<TC>)
    requires WellFormed(s) && IsLeader(s, s.view)
    ensures var (r, choice) := (GenerateProposal(s, tc).state, ProposalPayload(s).1);
            if choice.Some? then
              && |r.trace| > |s.trace| && Proposes(s, choice.value, tc, r.trace[|s.trace|]) && s.hashQueue <= r.hashQueue
            else r.trace == s.trace && r.hashQueue == s.hashQueue && r.view == s.view && r.store == s.store
    ensures GenerateProposal(s, tc).state.votes == s.votes && GenerateProposal(s, tc).state.timeouts == s.timeouts
  {
    hide HandleProposal, Leader;
    var (s1, choice) := ProposalPayload(s);
    if choice.Some? {
      var p := MakeProposal(s1, choice.value, tc).value;
      var s2 := Log(s1, Sent(s1.view, Propose(p)));
      OwnProposalReaction(s2, p);
      OwnProposalEffect(s2, p);
      assert s2.trace[|s.trace|] == Sent(s.view, Propose(p));
    }
  }

  // ---------- Votes ----------

  /** A vote is refused without effect, or counted; the reply of the count decides.  A completed certificate is no
      higher than the highest one afterwards, and if it is of the current view the replica leaves that view. */
  lemma VoteDelivered(s: State, vote: Vote)
    requires WellFormed(s)
    ensures var (r, (votes, reply)) := (Handle(s, VoteMsg(vote)), TallyVote(s.votes, vote, |s.authorities|));
            if VoteVerdict(s, vote).Err? then r == Outcome(s, VoteVerdict(s, vote))
            else
              && r.state.votes == votes && r.state.timeouts == s.timeouts
              && (reply.Err? ==> r == Outcome(s.(votes := votes), Err(reply.error)))
              && (reply == Ok(None) ==> r == Outcome(s.(votes := votes), Ok(())))
              && (reply.Ok? && reply.value.Some? ==>
                    r.state.highQc.view >= vote.view && (vote.view == s.view ==> r.state.view > s.view))
  {
    hide ProposeOnQc, TallyVote, Leader, CheckVote, HandleQc;
    var (votes, reply) := TallyVote(s.votes, vote, |s.authorities|);
    if VoteVerdict(s, vote).Ok? && reply.Ok? && reply.value.Some? {
      var qc := reply.value.value;
      var s1 := HandleQc(s.(votes := votes), qc);
      TalliedQcView(s.votes, vote, |s.authorities|, qc);
      QcAdopted(s.(votes := votes), qc);
      ProposeExact(s1);
      assert Extends(s1, ProposeOnQc(s1).state);
    }
  }

  lemma QcAdopted(s: State, qc: QC)
    ensures qc.view >= s.view ==> HandleQc(s, qc).highQc.view >= qc.view
    ensures qc.view == s.view ==> HandleQc(s, qc).view > s.view
  {
  }

  /** A vote that completes a certificate makes the leader of the view it leads to propose the first pending block
      above the finalised one, if the block in process is finalised, on its highest certificate. */
  lemma BlockProposedOnQc(s: State, vote: Vote, qc: QC, i: int)
    requires WellFormed(s) && VoteVerdict(s, vote).Ok? && TallyVote(s.votes, vote, |s.authorities|).1 == Ok(Some(qc))
    requires var s1 := HandleQc(s, qc); IsLeader(s1, s1.view)
    requires s.processing.Some? && !Awaiting(s) && FirstPendingAt(s, i)
    requires s.pending[i].hash.Some? && s.pending[i].hash.value != EMPTY_PAYLOAD
    ensures var (r, s1) := (Handle(s, VoteMsg(vote)).state, HandleQc(s, qc));
            && |r.trace| > |s.trace|
            && Proposes(s1, Payload(s.pending[i].hash.value, s.pending[i].number), None, r.trace[|s.trace|])
  {
    hide ProposeOnQc, TallyVote, Leader, VoteVerdict, HandleQc;
    var votes := TallyVote(s.votes, vote, |s.authorities|).0;
    VoteCompletesQc(s, vote, qc);
    var s1 := HandleQc(s.(votes := votes), qc);
    SameUseOfQc(s, votes, qc);
    PayloadExact(s1);
    assert FirstPendingAt(s1, i);
    ProposeExact(s1);
  }

  lemma SameUseOfQc(s: State, votes: VoteBuckets, qc: QC)
    ensures HandleQc(s.(votes := votes), qc) == HandleQc(s, qc).(votes := votes)
  {
  }

  /** With no block to propose the leader proposes an empty payload, unless its last two payloads were empty. */
  lemma EmptyProposedOnQc(s: State, vote: Vote, qc: QC)
    requires WellFormed(s) && VoteVerdict(s, vote).Ok? && TallyVote(s.votes, vote, |s.authorities|).1 == Ok(Some(qc))
    requires var s1 := HandleQc(s, qc); IsLeader(s1, s1.view)
    requires s.processing.Some?
    requires Awaiting(s) || forall b :: b in s.pending ==> b.number <= s.client.finalizedNumber
    ensures var (r, s1, q) := (Handle(s, VoteMsg(vote)).state, HandleQc(s, qc), s.hashQueue);
            if |q| >= 2 && q[|q| - 1] == EMPTY_PAYLOAD && q[|q| - 2] == EMPTY_PAYLOAD then r.trace == s.trace
            else
              && |r.trace| > |s.trace|
              && Proposes(s1, Payload(EMPTY_PAYLOAD, s.processing.value.number), None, r.trace[|s.trace|])
  {
    hide ProposeOnQc, TallyVote, Leader, VoteVerdict, HandleQc;
    var votes := TallyVote(s.votes, vote, |s.authorities|).0;
    VoteCompletesQc(s, vote, qc);
    SameUseOfQc(s, votes, qc);
    PayloadExact(HandleQc(s.(votes := votes), qc));
    ProposeExact(HandleQc(s.(votes := votes), qc));
  }

  // ---------- Timeouts and their certificates ----------

  /** The timer: the replica gives up its vote in the view and sends a timeout of it with its highest certificate;
      without a key it fails. */
  lemma TimerFires(s: State)
    requires WellFormed(s)
    ensures var r := HandleLocalTimer(s);
            && r.state.lastVotedView >= s.view
            && (s.me.None? ==> r == Outcome(s.(lastVotedView := Max(s.lastVotedView, s.view)), Err(NotAuthority)))
            && (s.me.Some? ==>
                  && |r.state.trace| > |s.trace|
                  && r.state.trace[|s.trace|] ==
                     Sent(s.view, TimeoutMsg(Timeout(s.highQc, s.view, s.me.value,
                                                     Some(Sig(s.me.value, TimeoutHash(s.view, s.highQc.view)))))))
  {
    hide HandleTimeout;
    var s1 := s.(lastVotedView := Max(s.lastVotedView, s.view));
    if MakeTimeout(s1).Ok? {
      var t := MakeTimeout(s1).value;
      var s2 := Log(s1, Sent(s1.view, TimeoutMsg(t)));
      assert s2.trace[|s.trace|] == Sent(s.view, TimeoutMsg(t));
    }
  }

  /** An old timeout is ignored and one that fails verification refused, without effect.  Any other is counted; its
      certificate, unless it is of a view the replica has left, is no higher than the highest one afterwards, and if
      it is of the current view the replica leaves that view, whether or not a timeout certificate is completed. */
  lemma TimeoutDelivered(s: State, t: Timeout)
    requires WellFormed(s)
    ensures var (r, (timeouts, reply)) := (Handle(s, TimeoutMsg(t)), TallyTimeout(s.timeouts, t, |s.authorities|));
            if s.view > t.view then r == Outcome(s, Ok(()))
            else if CheckTimeout(t, s.authorities).Err? then r == Outcome(s, CheckTimeout(t, s.authorities))
            else
              && r.state.timeouts == timeouts && r.state.votes == s.votes
              && (t.highQc.view >= s.view ==> r.state.highQc.view >= t.highQc.view)
              && (t.highQc.view == s.view ==> r.state.view > s.view)
              && (reply.Err? ==> r == Outcome(HandleQc(s, t.highQc).(timeouts := timeouts), Err(reply.error)))
              && (reply == Ok(None) ==> r == Outcome(HandleQc(s, t.highQc).(timeouts := timeouts), Ok(())))
  {
    hide GenerateProposal, TallyTimeout, Leader, CheckTimeout, UseOwnTc, HandleQc;
    var (timeouts, reply) := TallyTimeout(s.timeouts, t, |s.authorities|);
    var s1 := HandleQc(s, t.highQc).(timeouts := timeouts);
    QcAdopted(s, t.highQc);
    if s.view <= t.view && CheckTimeout(t, s.authorities).Ok? && reply.Ok? && reply.value.Some? {
      TcCompleted(s1, reply.value.value);
    }
  }

  /** The end of the handling of a timeout that completes a certificate. */
  function AfterTc(s: State, tc: TC): Outcome
    requires WellFormed(s)
  {
    var s1 := UseOwnTc(s, tc);
    if IsLeader(s1, s1.view) then GenerateProposal(s1.(processing := None), Some(tc)) else Outcome(s1, Ok(()))
  }

  lemma TcCompleted(s: State, tc: TC)
    requires WellFormed(s)
    ensures var r := AfterTc(s, tc).state; Extends(s, r) && r.timeouts == s.timeouts && r.votes == s.votes
  {
    hide GenerateProposal, Leader;
    var s1 := UseOwnTc(s, tc);
    if IsLeader(s1, s1.view) {
      var s2 := s1.(processing := None);
      GenerateExact(s2, Some(tc));
      ExtendsTransitive(s, s2, GenerateProposal(s2, Some(tc)).state);
    }
  }

  /** A completed timeout certificate is sent.  Then, with no block in process, the leader of the view it leads to
      proposes the front of the queue with that certificate, or nothing if the queue is empty; any other replica
      keeps its block in process. */
  lemma ProposedOnOwnTc(s: State, t: Timeout, tc: TC)
    requires WellFormed(s) && s.view <= t.view && CheckTimeout(t, s.authorities).Ok?
    requires TallyTimeout(s.timeouts, t, |s.authorities|).1 == Ok(Some(tc))
    ensures var (r, h) := (Handle(s, TimeoutMsg(t)).state, HandleQc(s, t.highQc));
            var s1 := h.(view := if tc.view == h.view then h.view + 1 else h.view);
            && |r.trace| > |s.trace| && r.trace[|s.trace|] == Sent(s1.view, TcMsg(tc))
            && (IsLeader(s, s1.view) && s.pending != [] ==>
                  |r.trace| > |s.trace| + 1 && Proposes(s1, PayloadOf(s.pending[0]), Some(tc), r.trace[|s.trace| + 1]))
            && (IsLeader(s, s1.view) && s.pending == [] ==> |r.trace| == |s.trace| + 1 && r.processing == None)
            && (!IsLeader(s, s1.view) ==>
                  |r.trace| == |s.trace| + 1 && r.processing == s.processing && r.view == s1.view && r.store == s.store)
  {
    hide TallyTimeout, Leader, CheckTimeout, HandleQc, Proposes, AfterTc;
    var h := HandleQc(s, t.highQc);
    var s2 := h.(timeouts := TallyTimeout(s.timeouts, t, |s.authorities|).0);
    EndsWithTc(s, t, tc);
    AfterTcExact(s2, tc);
    SameProposals(s2, h, tc, h.view);
    SameProposals(s2, h, tc, h.view + 1);
  }

  lemma SameProposals(s: State, s': State, tc: TC, view: View)
    requires s.highQc == s'.highQc && s.me == s'.me
    ensures forall payload, e :: Proposes(s.(view := view), payload, Some(tc), e) ==> Proposes(s'.(view := view), payload, Some(tc), e)
  {
  }

  lemma EndsWithTc(s: State, t: Timeout, tc: TC)
    requires WellFormed(s) && s.view <= t.view && CheckTimeout(t, s.authorities).Ok?
    requires TallyTimeout(s.timeouts, t, |s.authorities|).1 == Ok(Some(tc))
    ensures HandleTimeout(s, t) == AfterTc(HandleQc(s, t.highQc).(timeouts := TallyTimeout(s.timeouts, t, |s.authorities|).0), tc)
  {
    hide GenerateProposal, TallyTimeout, Leader, CheckTimeout, HandleQc, UseOwnTc;
  }

  lemma AfterTcExact(s: State, tc: TC)
    requires WellFormed(s)
    ensures var r := AfterTc(s, tc).state;
            var s1 := s.(view := if tc.view == s.view then s.view + 1 else s.view);
            && |r.trace| > |s.trace| && r.trace[|s.trace|] == Sent(s1.view, TcMsg(tc))
            && (IsLeader(s, s1.view) && s.pending != [] ==>
                  |r.trace| > |s.trace| + 1 && Proposes(s1, PayloadOf(s.pending[0]), Some(tc), r.trace[|s.trace| + 1]))
            && (IsLeader(s, s1.view) && s.pending == [] ==> |r.trace| == |s.trace| + 1 && r.processing == None)
            && (!IsLeader(s, s1.view) ==>
                  |r.trace| == |s.trace| + 1 && r.processing == s.processing && r.view == s1.view && r.store == s.store)
  {
    hide GenerateProposal, Leader;
    var s3 := UseOwnTc(s, tc);
    assert s3.trace[|s.trace|] == Sent(s3.view, TcMsg(tc));
    if IsLeader(s3, s3.view) {
      FrontProposed(s3.(processing := None), Some(tc));
    }
  }

  /** With no block in process a leader proposes the front of the queue, or nothing if the queue is empty. */
  lemma FrontProposed(s: State, tc: Option<TC>)
    requires WellFormed(s) && IsLeader(s, s.view) && s.processing.None?
    ensures var r := GenerateProposal(s, tc);
            && s.trace <= r.state.trace && s.view <= r.state.view
            && (s.pending == [] ==> r == Outcome(s, Ok(())))
            && (s.pending != [] ==>
                  |r.state.trace| > |s.trace| && Proposes(s, PayloadOf(s.pending[0]), tc, r.state.trace[|s.trace|]))
  {
    hide HandleProposal, Leader, Proposes;
    PayloadExact(s);
    GenerateExact(s, tc);
  }

  /** A timeout certificate is refused without effect, or leaves no block in process; if it is of the current view the
      replica leaves that view.  The leader of the view it leads to proposes the front of the queue, without the
      certificate, or nothing if the queue is empty. */
  lemma TcDelivered(s: State, tc: TC)
    requires WellFormed(s)
    ensures var r := Handle(s, TcMsg(tc));
            var s1 := s.(view := if tc.view == s.view then s.view + 1 else s.view);
            if TcVerdict(s, tc).Err? then r == Outcome(s, TcVerdict(s, tc))
            else
              && r.state.view >= s1.view
              && (IsLeader(s, s1.view) && s.pending != [] ==>
                    |r.state.trace| > |s.trace| && Proposes(s1, PayloadOf(s.pending[0]), None, r.state.trace[|s.trace|]))
              && (!IsLeader(s, s1.view) || s.pending == [] ==>
                    r == Outcome(s1.(gossipView := s1.view, processing := None), Ok(())))
  {
    hide GenerateProposal, Leader, CheckTc;
    var s2 := AdvanceView(s, tc.view).(processing := None);
    if TcVerdict(s, tc).Ok? && IsLeader(s2, s2.view) {
      FrontProposed(s2, None);
    }
  }

  /** The payload of a pending block is its hash and number; a block without a hash gives an empty payload. */
  lemma PayloadOfBlock(b: BlockInfo)
    ensures b.hash.Some? ==> PayloadOf(b) == Payload(b.hash.value, b.number)
    ensures b.hash.None? ==> PayloadOf(b) == Payload(EMPTY_PAYLOAD, b.number)
  {
  }

  /** A sync request is ignored. */
  lemma SyncRequestIgnored(s: State, hash: Digest, id: AuthorityId)
    requires WellFormed(s)
    ensures Handle(s, SyncRequest(hash, id)) == Outcome(s, Ok(()))
  {
  }

  // ---------- Verdicts ----------

  /** A signed message: unknown signers are reported before missing signatures, those before wrong ones. */
  lemma SignedExact(id: AuthorityId, signature: Option<Signature>, digest: Digest, authorities: seq<AuthorityId>)
    ensures var r := CheckSigned(id, signature, digest, authorities);
            && (r.Ok? <==> id in authorities && signature == Some(Sig(id, digest)))
            && (r == Err(UnknownAuthority(id)) <==> id !in authorities)
            && (r == Err(NullSignature) <==> id in authorities && signature == None)
            && (r == Err(InvalidSignature(id)) <==> id in authorities && signature.Some? && signature != Some(Sig(id, digest)))
  {
  }

  /** A proposal: a wrong author is reported before anything else, the signature before the certificate, which is not
      looked at if it equals the default one. */
  lemma ProposalVerdictExact(s: State, p: Proposal)
    requires s.authorities != []
    ensures var (r, leader) := (ProposalVerdict(s, p), s.authorities[p.view % |s.authorities|]);
            && (p.author != leader ==> r == Err(WrongProposer))
            && (p.author == leader && p.signature == None ==> r == Err(NullSignature))
            && (p.author == leader && p.signature.Some? && p.signature != Some(Sig(leader, ProposalDigest(p))) ==>
                  r == Err(InvalidSignature(leader)))
            && (p.author == leader && p.signature == Some(Sig(leader, ProposalDigest(p))) ==>
                  r == if p.qc.proposalHash == Zero && p.qc.view == 0 then Ok(()) else CheckQc(p.qc, s.authorities))
  {
    hide CheckQc;
    assert s.authorities[p.view % |s.authorities|] in s.authorities;
  }

  /** A timeout: signer and signature are reported before the certificate, which is not looked at if it equals the
      default one. */
  lemma TimeoutVerdictExact(t: Timeout, authorities: seq<AuthorityId>)
    ensures var (r, signed) := (CheckTimeout(t, authorities), Some(Sig(t.voter, TimeoutHash(t.view, t.highQc.view))));
            && (t.voter !in authorities ==> r == Err(UnknownAuthority(t.voter)))
            && (t.voter in authorities && t.signature == None ==> r == Err(NullSignature))
            && (t.voter in authorities && t.signature.Some? && t.signature != signed ==> r == Err(InvalidSignature(t.voter)))
            && (t.voter in authorities && t.signature == signed ==>
                  r == if t.highQc.proposalHash == Zero && t.highQc.view == 0 then Ok(()) else CheckQc(t.highQc, authorities))
  {
    hide CheckQc;
  }

  /** A vote: an old one is reported before its signer and signature. */
  lemma VoteVerdictExact(s: State, v: Vote)
    ensures var (r, signed) := (VoteVerdict(s, v), Some(Sig(v.voter, VoteHash(v.proposalHash, v.view))));
            && (v.view < s.view ==> r == Err(ExpiredVote))
            && (v.view >= s.view && v.voter !in s.authorities ==> r == Err(UnknownAuthority(v.voter)))
            && (v.view >= s.view && v.voter in s.authorities && v.signature == None ==> r == Err(NullSignature))
            && (v.view >= s.view && v.voter in s.authorities && v.signature.Some? && v.signature != signed ==>
                  r == Err(InvalidSignature(v.voter)))
            && (v.view >= s.view && v.voter in s.authorities && v.signature == signed ==> r == Ok(()))
  {
  }

  /** A timeout certificate: an old one is reported before what its verification finds. */
  lemma TcVerdictExact(s: State, tc: TC)
    ensures tc.view < s.view ==> TcVerdict(s, tc) == Err(InvalidTC)
    ensures tc.view >= s.view ==> TcVerdict(s, tc) == CheckTc(tc, s.authorities)
  {
  }

  /** The leaders take turns in the order of the list. */
  lemma LeadersTakeTurns(authorities: seq<AuthorityId>, view: View)
    requires authorities != []
    ensures view < |authorities| ==> Leader(authorities, view) == authorities[view]
    ensures Leader(authorities, view + |authorities|) == Leader(authorities, view)
  {
    var n := |authorities|;
    ModuloUnique(view + n, n, view / n + 1, view % n);
    if view < n {
      ModuloUnique(view, n, 0, view);
    }
  }
}
