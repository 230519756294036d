/** The worker of one replica as the program has it: an object that its handlers update in place.
    Every method is proved to do what the function of the same name in module `Replica` says. */
module Worker {
  import opened Types
  import Certificates
  import opened Aggregation
  import opened Replica

  class ConsensusWorker {
    const me: Option<AuthorityId>
    const authorities: seq<AuthorityId>
    const aggregator: Aggregator
    var view: View
    var lastVotedView: View
    var highQc: QC
    var store: map<Digest, Proposal>
    var processingBlock: Option<BlockInfo>
    var proposalHashQueue: seq<Digest>
    var validatorView: View
    var pendingFinalizeQueue: seq<BlockInfo>
    var client: Client
    ghost var trace: seq<Event>

    ghost function Abstract(): State
      reads this, aggregator
    {
      State(me, authorities, view, lastVotedView, highQc,
            aggregator.votesAggregator, aggregator.timeoutsAggregators,
            store, processingBlock, proposalHashQueue, validatorView, pendingFinalizeQueue, client, trace)
    }

    constructor (me: Option<AuthorityId>, authorities: seq<AuthorityId>, client: Client, pending: seq<BlockInfo>)
      ensures Abstract() == Init(me, authorities, client, pending)
      ensures view == lastVotedView == validatorView == 0 && highQc == DEFAULT_QC && store == map[] && trace == []
      ensures aggregator.votesAggregator == map[] && aggregator.timeoutsAggregators == map[] && proposalHashQueue == []
      ensures pending != [] ==> processingBlock == Some(pending[0])
      ensures pending == [] ==> processingBlock == None
      ensures fresh(aggregator)
    {
      this.me := me;
      this.authorities := authorities;
      aggregator := new Aggregator();
      view := 0;
      lastVotedView := 0;
      highQc := DEFAULT_QC;
      store := map[];
      processingBlock := if pending == [] then None else Some(pending[0]);
      proposalHashQueue := [];
      validatorView := 0;
      pendingFinalizeQueue := pending;
      this.client := client;
      trace := [];
    }

    // ---------- Consensus state ----------

    /** Give up voting in the current view and below; what may be voted for above it stays the same. */
    method IncreaseLastVotedView()
      modifies this`lastVotedView
      ensures lastVotedView == Max(old(lastVotedView), view)
      ensures forall p: Proposal :: MayVote(Abstract(), p) <==> old(MayVote(Abstract(), p)) && p.view > view
    {
      lastVotedView := Max(lastVotedView, view);
    }

    /** A target from the current view on moves the view, by one, only if it is the current view.  A lower target
        would take the view back; the callers guard against it. */
    method AdvanceView(target: View)
      modifies this`view, this`validatorView
      ensures Abstract() == Replica.AdvanceView(old(Abstract()), target)
      ensures view > old(view) <==> target == old(view)
      ensures view < old(view) <==> target + 1 < old(view)
      ensures view <= old(view) + 1 && validatorView == view
    {
      if view >= target {
        view := target + 1;
      }
      validatorView := view;
    }

    /** Keep a certificate of the highest view seen, the earlier one of two of the same view. */
    method UpdateHighQc(qc: QC)
      modifies this`highQc
      ensures Abstract() == Replica.UpdateHighQc(old(Abstract()), qc)
      ensures highQc.view == Max(old(highQc.view), qc.view)
      ensures highQc == old(highQc) || (highQc == qc && qc.view > old(highQc.view))
    {
      if qc.view > highQc.view {
        highQc := qc;
      }
    }

    method HandleQc(qc: QC)
      modifies this`view, this`validatorView, this`highQc
      ensures Abstract() == Replica.HandleQc(old(Abstract()), qc)
    {
      if qc.view >= view {
        AdvanceView(qc.view);
        UpdateHighQc(qc);
      }
    }

    method GossipMessage(m: Message)
      modifies this`trace
      ensures trace == old(trace) + [Sent(view, m)]
    {
      trace := trace + [Sent(view, m)];
    }

    /** Sign a vote for the proposal, unless a vote or timeout for its view or a later one was signed before. */
    method MakeVote(p: Proposal) returns (vote: Option<Vote>)
      modifies this`lastVotedView, this`trace
      ensures vote.Some? <==> old(MayVote(Abstract(), p))
      ensures vote.Some? ==> vote == Some(VoteFor(me.value, p)) && lastVotedView == p.view &&
                             trace == old(trace) + [Voted(view, p)]
      ensures vote.None? ==> lastVotedView == old(lastVotedView) && trace == old(trace)
    {
      if me.None? || p.view <= lastVotedView {
        return None;
      }
      lastVotedView := Max(lastVotedView, p.view);
      var digest := ProposalDigest(p);
      trace := trace + [Voted(view, p)];
      vote := Some(Vote(digest, p.view, me.value, Some(Sig(me.value, VoteHash(digest, p.view)))));
    }

    // ---------- Finalisation ----------

    /** In a store keyed by digest, the one stored proposal whose digest the certificate of `p` names; an error
        exactly when no such proposal is stored. */
    method GetProposalParent(p: Proposal) returns (r: Result<Proposal>)
      ensures r == Parent(store, p)
      ensures KeyedByDigest(store) && r.Ok? ==> r.value in store.Values && ProposalDigest(r.value) == p.qc.proposalHash
      ensures KeyedByDigest(store) && r.Err? ==>
                r.error == ProposalNoParent && forall q :: q in store.Values ==> ProposalDigest(q) != p.qc.proposalHash
    {
      if p.qc.proposalHash in store {
        return Ok(store[p.qc.proposalHash]);
      }
      return Err(ProposalNoParent);
    }

    /** In a store keyed by digest, two proposals each of which is certified by the one after it, `p` last; an error
        exactly when one of them is not stored. */
    method GetProposalAncestors(p: Proposal) returns (r: Result<(Proposal, Proposal)>)
      ensures r == Ancestors(store, p)
      ensures KeyedByDigest(store) && r.Ok? ==>
                && r.value.0 in store.Values && ProposalDigest(r.value.0) == p.qc.proposalHash
                && r.value.1 in store.Values && ProposalDigest(r.value.1) == r.value.0.qc.proposalHash
      ensures KeyedByDigest(store) && r.Err? ==>
                r.error == ProposalNoParent &&
                forall parent, grandpa :: parent in store.Values && grandpa in store.Values ==>
                  ProposalDigest(parent) != p.qc.proposalHash || ProposalDigest(grandpa) != parent.qc.proposalHash
    {
      var parent := GetProposalParent(p);
      if parent.Err? {
        return Err(parent.error);
      }
      var grandpa := GetProposalParent(parent.value);
      if grandpa.Err? {
        return Err(grandpa.error);
      }
      return Ok((parent.value, grandpa.value));
    }

    method TryFinalize(p: Proposal)
      modifies this`client, this`trace
      ensures Abstract() == Replica.TryFinalize(old(Abstract()), p)
    {
      var ancestors := GetProposalAncestors(p);
      if ancestors.Ok? {
        var (parent, grandpa) := ancestors.value;
        if parent.view == grandpa.view + 1 {
          var hash := grandpa.payload.blockHash;
          if hash != EMPTY_PAYLOAD && hash != client.finalizedHash {
            trace := trace + [FinalizeCalled(p, parent, grandpa)];
            client := FinalizeBlock(client, hash);
          }
        }
      }
    }

    // ---------- Payloads ----------

    method GetProposalPayload() returns (payload: Option<Payload>)
      modifies this`processingBlock
      ensures (Abstract(), payload) == ProposalPayload(old(Abstract()))
    {
      match processingBlock
      case Some(processing) =>
        var finalizedNumber := client.finalizedNumber;
        if processing.number > finalizedNumber {
          return Some(Payload(EMPTY_PAYLOAD, processing.number));
        }
        var i := 0;
        while i < |pendingFinalizeQueue|
          invariant 0 <= i <= |pendingFinalizeQueue|
          invariant FirstAbove(pendingFinalizeQueue, finalizedNumber) == FirstAbove(pendingFinalizeQueue[i..], finalizedNumber)
        {
          var info := pendingFinalizeQueue[i];
          if info.number > finalizedNumber {
            processingBlock := Some(info);
            return Some(PayloadOf(info));
          }
          assert pendingFinalizeQueue[i..][1..] == pendingFinalizeQueue[i + 1..];
          i := i + 1;
        }
        return Some(Payload(EMPTY_PAYLOAD, processing.number));
      case None =>
        if pendingFinalizeQueue == [] {
          return None;
        }
        processingBlock := Some(pendingFinalizeQueue[0]);
        return Some(PayloadOf(pendingFinalizeQueue[0]));
    }

    /** The loop that counts trailing empty proposals stops the proposal exactly when the payload and the
        last two entries of the queue are empty. */
    method TooManyEmpty(payload: Payload) returns (stop: bool)
      ensures stop <==> payload.blockHash == EMPTY_PAYLOAD && TwoTrailingEmpty(proposalHashQueue)
      ensures stop <==> payload.blockHash == EMPTY_PAYLOAD && |proposalHashQueue| >= 2 &&
                        forall i :: |proposalHashQueue| - 2 <= i < |proposalHashQueue| ==> proposalHashQueue[i] == EMPTY_PAYLOAD
    {
      var count := 0;
      var i := |proposalHashQueue|;
      while i > 0
        invariant 0 <= i <= |proposalHashQueue| && count == |proposalHashQueue| - i
        invariant forall k :: i <= k < |proposalHashQueue| ==> proposalHashQueue[k] == EMPTY_PAYLOAD
        invariant count >= 2 ==> payload.blockHash != EMPTY_PAYLOAD
      {
        i := i - 1;
        if proposalHashQueue[i] != EMPTY_PAYLOAD {
          break;
        }
        count := count + 1;
        if count == 2 && payload.blockHash == EMPTY_PAYLOAD {
          return true;
        }
      }
      return false;
    }

    // ---------- Handlers ----------

    method HandleProposal(p: Proposal) returns (r: Result<()>)
      requires WellFormed(Abstract())
      modifies this, aggregator
      ensures Outcome(Abstract(), r) == Replica.HandleProposal(old(Abstract()), p)
      decreases if IsLeader(Abstract(), p.view) then 0 else 2, 2
    {
      hide Extends, ProposalVerdict, Replica.VoteOn, Leader;
      ghost var s := Abstract();
      if p.payload.blockHash != EMPTY_PAYLOAD {
        if p.payload.blockHash in client.failing {
          return Err(ClientError);
        }
        if p.payload.blockHash !in client.known {
          trace := trace + [SyncRequested(p.payload)];
          return Ok(());
        }
      }
      var verdict := VerifyProposal(p);
      if verdict.Err? {
        return Err(verdict.error);
      }
      HandleQc(p.qc);
      if p.tc.Some? && p.tc.value.view > view {
        AdvanceView(p.tc.value.view);
      }
      store := store[ProposalDigest(p) := p];
      TryFinalize(p);
      assert Abstract() == Accept(s, p);
      r := VoteOn(p);
    }

    /** The second half of the handling of a proposal. */
    method VoteOn(p: Proposal) returns (r: Result<()>)
      requires WellFormed(Abstract())
      modifies this, aggregator
      ensures Outcome(Abstract(), r) == Replica.VoteOn(old(Abstract()), p)
      decreases if IsLeader(Abstract(), p.view) then 0 else 2, 1
    {
      hide Extends, Replica.HandleVote, Leader;
      ghost var s := Abstract();
      if p.view != view {
        return Ok(());
      }
      var vote := MakeVote(p);
      if vote.Some? {
        proposalHashQueue := proposalHashQueue + [p.payload.blockHash];
        processingBlock := Some(BlockInfo(Some(p.payload.blockHash), p.payload.blockNumber));
        assert Abstract() == CastVote(s, p);
        var nextLeader := Leader(authorities, view + 1);
        if me == Some(nextLeader) {
          ConsecutiveLeaders(authorities, view);
          r := HandleVote(vote.value);
          return;
        }
        GossipMessage(VoteMsg(vote.value));
      }
      return Ok(());
    }

    method VerifyProposal(p: Proposal) returns (r: Result<()>)
      requires WellFormed(Abstract())
      ensures r == ProposalVerdict(Abstract(), p)
    {
      if p.author != Leader(authorities, p.view) {
        return Err(WrongProposer);
      }
      var signed := Certificates.CheckSigned(p.author, p.signature, ProposalDigest(p), authorities);
      if signed.Err? {
        return signed;
      }
      if !EqualsDefault(p.qc) {
        r := Certificates.VerifyQc(p.qc, authorities);
        return;
      }
      return Ok(());
    }

    method HandleVote(vote: Vote) returns (r: Result<()>)
      requires WellFormed(Abstract())
      modifies this, aggregator
      ensures Outcome(Abstract(), r) == Replica.HandleVote(old(Abstract()), vote)
      decreases 1, 1
    {
      hide Extends, Replica.HandleProposal, Leader, TallyVote, Certificates.CheckVote, ProposalPayload, TwoTrailingEmpty;
      ghost var s := Abstract();
      if vote.view < view {
        return Err(ExpiredVote);
      }
      var verdict := Certificates.CheckVote(vote, authorities);
      if verdict.Err? {
        return verdict;
      }
      var reply := aggregator.AddVote(vote, authorities);
      if reply.Err? {
        return Err(reply.error);
      }
      if reply.value.Some? {
        HandleQc(reply.value.value);
        ghost var s1 := Abstract();
        assert Replica.HandleVote(s, vote) == ProposeOnQc(s1);
        var currentLeader := Leader(authorities, view);
        if me == Some(currentLeader) {
          var payload := GetProposalPayload();
          if payload.Some? {
            var stop := TooManyEmpty(payload.value);
            if stop {
              return Ok(());
            }
            if |proposalHashQueue| > 3 {
              proposalHashQueue := [];
            }
            proposalHashQueue := proposalHashQueue + [payload.value.blockHash];
            var proposal := MakeProposal(payload.value, None);
            GossipMessage(Propose(proposal.value));
            r := HandleProposal(proposal.value);
            return;
          }
        }
      }
      return Ok(());
    }

    /** The proposal passes verification exactly when the replica leads its view and its highest certificate would
        pass. */
    method MakeProposal(payload: Payload, tc: Option<TC>) returns (r: Result<Proposal>)
      ensures r == Replica.MakeProposal(Abstract(), payload, tc)
      ensures r.Ok? <==> me.Some?
      ensures r.Ok? && authorities != [] ==>
                (ProposalVerdict(Abstract(), r.value).Ok? <==>
                 IsLeader(Abstract(), view) && Certificates.CheckCarriedQc(highQc, authorities).Ok?)
    {
      if me.None? {
        return Err(NotAuthority);
      }
      var unsigned := Proposal(highQc, tc, payload, view, me.value, None);
      return Ok(unsigned.(signature := Some(Sig(me.value, ProposalDigest(unsigned)))));
    }

    method GenerateProposal(tc: Option<TC>) returns (r: Result<()>)
      requires WellFormed(Abstract())
      modifies this, aggregator
      ensures Outcome(Abstract(), r) == Replica.GenerateProposal(old(Abstract()), tc)
    {
      hide Extends, Replica.HandleProposal, ProposalPayload;
      var payload := GetProposalPayload();
      if payload.Some? {
        var proposal := MakeProposal(payload.value, tc);
        if proposal.Err? {
          return Err(proposal.error);
        }
        GossipMessage(Propose(proposal.value));
        r := HandleProposal(proposal.value);
        return;
      }
      return Ok(());
    }

    method VerifyTimeout(t: Timeout) returns (r: Result<()>)
      ensures r == Certificates.CheckTimeout(t, authorities)
    {
      var signed := Certificates.CheckSigned(t.voter, t.signature, TimeoutDigest(t), authorities);
      if signed.Err? {
        return signed;
      }
      if !EqualsDefault(t.highQc) {
        r := Certificates.VerifyQc(t.highQc, authorities);
        return;
      }
      return Ok(());
    }

    method HandleTimeout(t: Timeout) returns (r: Result<()>)
      requires WellFormed(Abstract())
      modifies this, aggregator
      ensures Outcome(Abstract(), r) == Replica.HandleTimeout(old(Abstract()), t)
    {
      hide Extends, Replica.GenerateProposal, Leader, TallyTimeout, Certificates.CheckTimeout;
      ghost var s := Abstract();
      if view > t.view {
        return Ok(());
      }
      var verdict := VerifyTimeout(t);
      if verdict.Err? {
        return verdict;
      }
      HandleQc(t.highQc);
      var reply := aggregator.AddTimeout(t, authorities);
      if reply.Err? {
        return Err(reply.error);
      }
      if reply.value.Some? {
        var tc := reply.value.value;
        ghost var s2 := Abstract();
        if tc.view >= view {
          AdvanceView(tc.view);
        }
        GossipMessage(TcMsg(tc));
        assert Abstract() == UseOwnTc(s2, tc);
        if me == Some(Leader(authorities, view)) {
          processingBlock := None;
          r := GenerateProposal(Some(tc));
          return;
        }
      }
      return Ok(());
    }

    /** The timeout passes verification exactly when the replica is an authority and its highest certificate would
        pass. */
    method MakeTimeout() returns (r: Result<Timeout>)
      ensures r == Replica.MakeTimeout(Abstract())
      ensures r.Ok? <==> me.Some?
      ensures r.Ok? ==>
                (Certificates.CheckTimeout(r.value, authorities).Ok? <==>
                 me.value in authorities && Certificates.CheckCarriedQc(highQc, authorities).Ok?)
    {
      if me.None? {
        return Err(NotAuthority);
      }
      var unsigned := Timeout(highQc, view, me.value, None);
      return Ok(unsigned.(signature := Some(Sig(me.value, TimeoutDigest(unsigned)))));
    }

    method HandleLocalTimer() returns (r: Result<()>)
      requires WellFormed(Abstract())
      modifies this, aggregator
      ensures Outcome(Abstract(), r) == Replica.HandleLocalTimer(old(Abstract()))
    {
      hide Extends, Replica.HandleTimeout;
      IncreaseLastVotedView();
      var timeout := MakeTimeout();
      if timeout.Err? {
        return Err(timeout.error);
      }
      GossipMessage(TimeoutMsg(timeout.value));
      r := HandleTimeout(timeout.value);
    }

    method HandleTc(tc: TC) returns (r: Result<()>)
      requires WellFormed(Abstract())
      modifies this, aggregator
      ensures Outcome(Abstract(), r) == Replica.HandleTc(old(Abstract()), tc)
    {
      hide Extends, Replica.GenerateProposal, Leader;
      if tc.view < view {
        return Err(InvalidTC);
      }
      var verdict := Certificates.VerifyTc(tc, authorities);
      if verdict.Err? {
        return verdict;
      }
      AdvanceView(tc.view);
      processingBlock := None;
      if me == Some(Leader(authorities, view)) {
        r := GenerateProposal(None);
        return;
      }
      return Ok(());
    }

    /** The worker's dispatch of one message. */
    method HandleMessage(m: Message) returns (r: Result<()>)
      requires WellFormed(Abstract())
      modifies this, aggregator
      ensures Outcome(Abstract(), r) == Handle(old(Abstract()), m)
    {
      hide Extends, Replica.HandleProposal, Replica.HandleVote, Replica.HandleTimeout, Replica.HandleTc;
      match m
      case Propose(p) => r := HandleProposal(p);
      case VoteMsg(v) => r := HandleVote(v);
      case TimeoutMsg(t) => r := HandleTimeout(t);
      case TcMsg(tc) => r := HandleTc(tc);
      case SyncRequest(_, _) => r := Ok(());
    }
  }
}
