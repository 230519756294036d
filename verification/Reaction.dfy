/** How far one external event can carry a replica.  Handling a proposal may handle the replica's own vote,
    which may propose and handle that proposal in turn; there the chain ends, because no replica leads two
    consecutive views. */
module Reaction {
  import opened Types
  import opened Certificates
  import opened Aggregation
  import opened Replica

  // ---------- Nested calls ----------

  /** How many calls of the proposal handler and of the vote handler are made, one inside the other. */
  datatype Frames = Frames(proposals: nat, votes: nat)

  /** At most two proposal handlers and one vote handler are nested, one of each less inside a leader's own
      proposal. */
  function ProposalFrames(s: State, p: Proposal): (f: Frames)
    requires WellFormed(s)
    ensures f.proposals <= 2 && f.votes <= 1
    ensures IsLeader(s, p.view) ==> f == Frames(1, 0)
    decreases if IsLeader(s, p.view) then 0 else 2
  {
    if UnknownBlock(s, p) || FailedBlock(s, p) || ProposalVerdict(s, p).Err? then Frames(1, 0)
    else
      var s1 := Accept(s, p);
      if p.view != s1.view || !MayVote(s1, p) || !IsLeader(s1, s1.view + 1) then Frames(1, 0)
      else
        ConsecutiveLeaders(s.authorities, p.view);
        var f := VoteFrames(CastVote(s1, p), VoteFor(s1.me.value, p));
        Frames(1 + f.proposals, f.votes)
  }

  function VoteFrames(s: State, vote: Vote): (f: Frames)
    requires WellFormed(s)
    ensures f.proposals <= 1 && f.votes == 1
    decreases 1
  {
    if VoteVerdict(s, vote).Err? then Frames(0, 1)
    else
      var (votes, reply) := TallyVote(s.votes, vote, |s.authorities|);
      if reply.Err? || reply.value.None? then Frames(0, 1)
      else
        var s1 := HandleQc(s.(votes := votes), reply.value.value);
        var (s2, choice) := ProposalPayload(s1);
        if !IsLeader(s1, s1.view) || choice.None?
           || (choice.value.blockHash == EMPTY_PAYLOAD && TwoTrailingEmpty(s2.hashQueue)) then Frames(0, 1)
        else
          var kept := if |s2.hashQueue| > 3 then [] else s2.hashQueue;
          var s3 := s2.(hashQueue := kept + [choice.value.blockHash]);
          var p := MakeProposal(s3, choice.value, None).value;
          var f := ProposalFrames(Log(s3, Sent(s3.view, Propose(p))), p);
          Frames(f.proposals, 1 + f.votes)
  }

  function GenerateFrames(s: State, tc: Option<TC>): (f: Frames)
    requires WellFormed(s) && IsLeader(s, s.view)
    ensures f.proposals <= 1 && f.votes == 0
  {
    var (s1, choice) := ProposalPayload(s);
    if choice.None? then Frames(0, 0)
    else
      var p := MakeProposal(s1, choice.value, tc).value;
      ProposalFrames(Log(s1, Sent(s1.view, Propose(p))), p)
  }

  function TimeoutFrames(s: State, t: Timeout): (f: Frames)
    requires WellFormed(s)
    ensures f.proposals <= 1 && f.votes == 0
  {
    if s.view > t.view || CheckTimeout(t, s.authorities).Err? then Frames(0, 0)
    else
      var s1 := HandleQc(s, t.highQc);
      var (timeouts, reply) := TallyTimeout(s1.timeouts, t, |s1.authorities|);
      if reply.Err? || reply.value.None? then Frames(0, 0)
      else
        var s3 := UseOwnTc(s1.(timeouts := timeouts), reply.value.value);
        if IsLeader(s3, s3.view) then GenerateFrames(s3.(processing := None), Some(reply.value.value)) else Frames(0, 0)
  }

  function TimerFrames(s: State): (f: Frames)
    requires WellFormed(s)
    ensures f.proposals <= 1 && f.votes == 0
  {
    var s1 := s.(lastVotedView := Max(s.lastVotedView, s.view));
    match MakeTimeout(s1)
    case Err(_) => Frames(0, 0)
    case Ok(t) => TimeoutFrames(Log(s1, Sent(s1.view, TimeoutMsg(t))), t)
  }

  function TcFrames(s: State, tc: TC): (f: Frames)
    requires WellFormed(s)
    ensures f.proposals <= 1 && f.votes == 0
  {
    var s1 := AdvanceView(s, tc.view).(processing := None);
    if TcVerdict(s, tc).Ok? && IsLeader(s1, s1.view) then GenerateFrames(s1, None) else Frames(0, 0)
  }

  /** Whatever message arrives, at most two proposal handlers and one vote handler are nested. */
  function MessageFrames(s: State, m: Message): (f: Frames)
    requires WellFormed(s)
    ensures f.proposals <= 2 && f.votes <= 1
  {
    match m
    case Propose(p) => ProposalFrames(s, p)
    case VoteMsg(v) => VoteFrames(s, v)
    case TimeoutMsg(t) => TimeoutFrames(s, t)
    case TcMsg(tc) => TcFrames(s, tc)
    case SyncRequest(_, _) => Frames(0, 0)
  }

  // ---------- Visible effects ----------

  function VoteCount(trace: seq<Event>): nat {
    if trace == [] then 0
    else VoteCount(trace[..|trace| - 1]) + if trace[|trace| - 1].Voted? then 1 else 0
  }

  predicate IsProposal(e: Event) {
    e.Sent? && e.message.Propose?
  }

  function ProposalCount(trace: seq<Event>): nat {
    if trace == [] then 0
    else ProposalCount(trace[..|trace| - 1]) + if IsProposal(trace[|trace| - 1]) then 1 else 0
  }

  /** The number of votes cast less the number of votes sent: those the replica handled itself. */
  function KeptVotes(trace: seq<Event>): int {
    if trace == [] then 0
    else
      var last := trace[|trace| - 1];
      KeptVotes(trace[..|trace| - 1]) +
      if last.Voted? then 1 else if last.Sent? && last.message.VoteMsg? then -1 else 0
  }

  /** From `s` to `s'` the replica sent `proposals` proposals and kept `votes` of its votes. */
  ghost predicate Adds(s: State, s': State, proposals: int, votes: int) {
    && ProposalCount(s'.trace) == ProposalCount(s.trace) + proposals
    && KeptVotes(s'.trace) == KeptVotes(s.trace) + votes
  }

  /** From `s` to `s'` the replica cast at most `votes` votes, sent at most `proposals` proposals and
      entered at most `views` new views. */
  ghost predicate AtMost(s: State, s': State, votes: nat, proposals: nat, views: nat) {
    && VoteCount(s'.trace) <= VoteCount(s.trace) + votes
    && ProposalCount(s'.trace) <= ProposalCount(s.trace) + proposals
    && s'.view <= s.view + views
  }

  lemma LogCounts(s: State, e: Event)
    ensures AtMost(s, Log(s, e), if e.Voted? then 1 else 0, if IsProposal(e) then 1 else 0, 0)
    ensures Adds(s, Log(s, e), if IsProposal(e) then 1 else 0,
                 if e.Voted? then 1 else if e.Sent? && e.message.VoteMsg? then -1 else 0)
  {
    assert (s.trace + [e])[..|s.trace|] == s.trace;
  }

  lemma TryFinalizeCounts(s: State, p: Proposal)
    ensures AtMost(s, TryFinalize(s, p), 0, 0, 0) && Adds(s, TryFinalize(s, p), 0, 0) && TryFinalize(s, p).votes == s.votes
    ensures TryFinalize(s, p).me == s.me && TryFinalize(s, p).authorities == s.authorities
  {
    hide VoteCount, ProposalCount, KeptVotes, Extends, Ancestors;
    if Ancestors(s.store, p).Ok? {
      var (parent, grandpa) := Ancestors(s.store, p).value;
      LogCounts(s, FinalizeCalled(p, parent, grandpa));
    }
  }

  lemma AcceptCounts(s: State, p: Proposal)
    ensures AtMost(s, Accept(s, p), 0, 0, 1) && Adds(s, Accept(s, p), 0, 0) && Accept(s, p).votes == s.votes
    ensures Accept(s, p).me == s.me && Accept(s, p).authorities == s.authorities
  {
    hide VoteCount, ProposalCount, KeptVotes, Extends, TryFinalize;
    TryFinalizeCounts(Save(HandleQc(s, p.qc), p), p);
  }

  lemma CastVoteCounts(s: State, p: Proposal)
    ensures AtMost(s, CastVote(s, p), 1, 0, 0) && Adds(s, CastVote(s, p), 0, 1) && CastVote(s, p).votes == s.votes
  {
    hide VoteCount, ProposalCount, KeptVotes, Extends;
    LogCounts(s, Voted(s.view, p));
  }

  lemma {:induction false} PassOnOwnVote(s: State, p: Proposal)
    requires WellFormed(s) && s.me.Some? && s.view == p.view && IsLeader(s, p.view)
    ensures AtMost(s, PassOnVote(s, p).state, 0, 0, 0) && Adds(s, PassOnVote(s, p).state, 0, -1)
    ensures PassOnVote(s, p).state.votes == s.votes
  {
    hide VoteCount, ProposalCount, KeptVotes, Extends;
    ConsecutiveLeaders(s.authorities, s.view);
    LogCounts(s, Sent(s.view, VoteMsg(VoteFor(s.me.value, p))));
  }

  lemma {:induction false} OwnVoteOn(s: State, p: Proposal)
    requires WellFormed(s) && IsLeader(s, p.view)
    ensures AtMost(s, VoteOn(s, p).state, 1, 0, 0) && Adds(s, VoteOn(s, p).state, 0, 0)
    ensures VoteOn(s, p).state.votes == s.votes
  {
    hide VoteCount, ProposalCount, KeptVotes, PassOnVote, Extends, Leader;
    if p.view == s.view && MayVote(s, p) {
      CastVoteCounts(s, p);
      PassOnOwnVote(CastVote(s, p), p);
    }
  }

  /** Handling its own proposal a leader handles no vote: no certificate is assembled and nothing further
      is proposed. */
  lemma {:induction false} OwnProposalReaction(s: State, p: Proposal)
    requires WellFormed(s) && IsLeader(s, p.view)
    ensures AtMost(s, HandleProposal(s, p).state, 1, 0, 1) && Adds(s, HandleProposal(s, p).state, 0, 0)
    ensures HandleProposal(s, p).state.votes == s.votes
  {
    hide VoteCount, ProposalCount, KeptVotes, VoteOn, Accept, Extends, Leader;
    if UnknownBlock(s, p) {
      LogCounts(s, SyncRequested(p.payload));
    } else if !FailedBlock(s, p) && ProposalVerdict(s, p).Ok? {
      AcceptCounts(s, p);
      OwnVoteOn(Accept(s, p), p);
    }
  }

  /** A vote leads to at most one proposal, and to at most one vote, for that proposal. */
  lemma {:induction false} VoteReaction(s: State, vote: Vote)
    requires WellFormed(s)
    ensures AtMost(s, HandleVote(s, vote).state, 1, 1, 2)
  {
    hide VoteCount, ProposalCount, KeptVotes, ProposeOnQc, Extends, Leader;
    if VoteVerdict(s, vote).Ok? {
      var (votes, reply) := TallyVote(s.votes, vote, |s.authorities|);
      if reply.Ok? && reply.value.Some? {
        ProposeReaction(HandleQc(s.(votes := votes), reply.value.value));
      }
    }
  }

  lemma {:induction false} ProposeReaction(s: State)
    requires WellFormed(s)
    ensures AtMost(s, ProposeOnQc(s).state, 1, 1, 1)
  {
    hide VoteCount, ProposalCount, KeptVotes, HandleProposal, Extends, Leader;
    if IsLeader(s, s.view) {
      var (s1, choice) := ProposalPayload(s);
      if choice.Some? && !(choice.value.blockHash == EMPTY_PAYLOAD && TwoTrailingEmpty(s1.hashQueue)) {
        var kept := if |s1.hashQueue| > 3 then [] else s1.hashQueue;
        var s2 := s1.(hashQueue := kept + [choice.value.blockHash]);
        var p := MakeProposal(s2, choice.value, None).value;
        LogCounts(s2, Sent(s2.view, Propose(p)));
        OwnProposalReaction(Log(s2, Sent(s2.view, Propose(p))), p);
      }
    }
  }

  lemma GenerateReaction(s: State, tc: Option<TC>)
    requires WellFormed(s) && IsLeader(s, s.view)
    ensures AtMost(s, GenerateProposal(s, tc).state, 1, 1, 1)
  {
    hide VoteCount, ProposalCount, KeptVotes, HandleProposal, Extends, Leader;
    var (s1, choice) := ProposalPayload(s);
    if choice.Some? {
      var p := MakeProposal(s1, choice.value, tc).value;
      LogCounts(s1, Sent(s1.view, Propose(p)));
      OwnProposalReaction(Log(s1, Sent(s1.view, Propose(p))), p);
    }
  }

  lemma {:induction false} VoteOnReaction(s: State, p: Proposal)
    requires WellFormed(s)
    ensures AtMost(s, VoteOn(s, p).state, 2, 1, 2)
  {
    hide VoteCount, ProposalCount, KeptVotes, HandleVote, Extends, Leader;
    if p.view == s.view && MayVote(s, p) {
      var s1 := CastVote(s, p);
      var vote := VoteFor(s1.me.value, p);
      CastVoteCounts(s, p);
      VoteReaction(s1, vote);
      LogCounts(s1, Sent(s1.view, VoteMsg(vote)));
    }
  }

  lemma TimeoutReaction(s: State, t: Timeout)
    requires WellFormed(s)
    ensures AtMost(s, HandleTimeout(s, t).state, 1, 1, 3)
  {
    hide VoteCount, ProposalCount, KeptVotes, GenerateProposal, Extends, Leader;
    if s.view <= t.view && CheckTimeout(t, s.authorities).Ok? {
      var s1 := HandleQc(s, t.highQc);
      var (timeouts, reply) := TallyTimeout(s1.timeouts, t, |s1.authorities|);
      var s2 := s1.(timeouts := timeouts);
      if reply.Ok? && reply.value.Some? {
        var s3 := UseOwnTc(s2, reply.value.value);
        UseOwnTcCounts(s2, reply.value.value);
        if IsLeader(s3, s3.view) {
          GenerateReaction(s3.(processing := None), Some(reply.value.value));
        }
      }
    }
  }

  lemma UseOwnTcCounts(s: State, tc: TC)
    ensures AtMost(s, UseOwnTc(s, tc), 0, 0, 1) && Adds(s, UseOwnTc(s, tc), 0, 0)
  {
    hide VoteCount, ProposalCount, KeptVotes, Extends;
    var s1 := if tc.view >= s.view then AdvanceView(s, tc.view) else s;
    LogCounts(s1, Sent(s1.view, TcMsg(tc)));
  }

  lemma TimerReaction(s: State)
    requires WellFormed(s)
    ensures AtMost(s, HandleLocalTimer(s).state, 1, 1, 3)
  {
    hide VoteCount, ProposalCount, KeptVotes, HandleTimeout, Extends;
    var s1 := s.(lastVotedView := Max(s.lastVotedView, s.view));
    if MakeTimeout(s1).Ok? {
      var t := MakeTimeout(s1).value;
      LogCounts(s1, Sent(s1.view, TimeoutMsg(t)));
      TimeoutReaction(Log(s1, Sent(s1.view, TimeoutMsg(t))), t);
    }
  }

  /** Whatever message arrives, the replica handles at most the proposal and one of its own on top of it:
      it casts at most two votes, sends at most one proposal and enters at most three views. */
  lemma BoundedReaction(s: State, m: Message)
    requires WellFormed(s)
    ensures AtMost(s, Handle(s, m).state, 2, 1, 3)
  {
    hide VoteCount, ProposalCount, KeptVotes, HandleVote, HandleTimeout, VoteOn, Accept, GenerateProposal, Extends, Leader;
    match m
    case Propose(p) =>
      if UnknownBlock(s, p) {
        LogCounts(s, SyncRequested(p.payload));
      } else if !FailedBlock(s, p) && ProposalVerdict(s, p).Ok? {
        AcceptCounts(s, p);
        VoteOnReaction(Accept(s, p), p);
      }
    case VoteMsg(v) => VoteReaction(s, v);
    case TimeoutMsg(t) => TimeoutReaction(s, t);
    case TcMsg(tc) =>
      if TcVerdict(s, tc).Ok? {
        var s1 := AdvanceView(s, tc.view).(processing := None);
        if IsLeader(s1, s1.view) {
          GenerateReaction(s1, None);
        }
      }
    case SyncRequest(_, _) =>
  }

  // ---------- Nested calls show in the history ----------

  lemma {:induction false} VoteCalls(s: State, vote: Vote)
    requires WellFormed(s)
    ensures Adds(s, HandleVote(s, vote).state, VoteFrames(s, vote).proposals, VoteFrames(s, vote).votes - 1)
  {
    hide VoteCount, ProposalCount, KeptVotes, HandleProposal, Extends, Leader, VoteVerdict, TallyVote;
    if VoteVerdict(s, vote).Ok? {
      var (votes, reply) := TallyVote(s.votes, vote, |s.authorities|);
      if reply.Ok? && reply.value.Some? {
        var s1 := HandleQc(s.(votes := votes), reply.value.value);
        var (s2, choice) := ProposalPayload(s1);
        if IsLeader(s1, s1.view) && choice.Some? && !(choice.value.blockHash == EMPTY_PAYLOAD && TwoTrailingEmpty(s2.hashQueue)) {
          var kept := if |s2.hashQueue| > 3 then [] else s2.hashQueue;
          var s3 := s2.(hashQueue := kept + [choice.value.blockHash]);
          var p := MakeProposal(s3, choice.value, None).value;
          LogCounts(s3, Sent(s3.view, Propose(p)));
          OwnProposalReaction(Log(s3, Sent(s3.view, Propose(p))), p);
        }
      }
    }
  }

  lemma {:induction false} ProposalCalls(s: State, p: Proposal)
    requires WellFormed(s)
    ensures Adds(s, HandleProposal(s, p).state, ProposalFrames(s, p).proposals - 1, ProposalFrames(s, p).votes)
  {
    hide VoteCount, ProposalCount, KeptVotes, HandleVote, VoteFrames, Accept, CastVote, Extends, Leader, ProposalVerdict;
    if UnknownBlock(s, p) {
      LogCounts(s, SyncRequested(p.payload));
    } else if !FailedBlock(s, p) && ProposalVerdict(s, p).Ok? {
      var s1 := Accept(s, p);
      AcceptCounts(s, p);
      if p.view == s1.view && MayVote(s1, p) {
        CastVoteCounts(s1, p);
        var s2 := CastVote(s1, p);
        CastVoteKeeps(s1, p);
        var vote := VoteFor(s2.me.value, p);
        assert HandleProposal(s, p) == VoteOn(s1, p) == PassOnVote(s2, p);
        if IsLeader(s2, s2.view + 1) {
          VoteCalls(s2, vote);
        } else {
          LogCounts(s2, Sent(s2.view, VoteMsg(vote)));
        }
      }
    }
  }

  lemma CastVoteKeeps(s: State, p: Proposal)
    ensures var s' := CastVote(s, p); s'.me == s.me && s'.authorities == s.authorities && s'.view == s.view
  {
  }

  lemma GenerateCalls(s: State, tc: Option<TC>)
    requires WellFormed(s) && IsLeader(s, s.view)
    ensures Adds(s, GenerateProposal(s, tc).state, GenerateFrames(s, tc).proposals, GenerateFrames(s, tc).votes)
  {
    hide VoteCount, ProposalCount, KeptVotes, HandleProposal, ProposalFrames, Extends, Leader;
    var (s1, choice) := ProposalPayload(s);
    if choice.Some? {
      var p := MakeProposal(s1, choice.value, tc).value;
      LogCounts(s1, Sent(s1.view, Propose(p)));
      ProposalCalls(Log(s1, Sent(s1.view, Propose(p))), p);
    }
  }

  lemma TimeoutCalls(s: State, t: Timeout)
    requires WellFormed(s)
    ensures Adds(s, HandleTimeout(s, t).state, TimeoutFrames(s, t).proposals, TimeoutFrames(s, t).votes)
  {
    hide VoteCount, ProposalCount, KeptVotes, GenerateProposal, GenerateFrames, Leader, UseOwnTc, HandleQc;
    hide CheckTimeout, TallyTimeout;
    if s.view <= t.view && CheckTimeout(t, s.authorities).Ok? {
      var s1 := HandleQc(s, t.highQc);
      var (timeouts, reply) := TallyTimeout(s1.timeouts, t, |s1.authorities|);
      var s2 := s1.(timeouts := timeouts);
      if reply.Ok? && reply.value.Some? {
        var s3 := UseOwnTc(s2, reply.value.value);
        UseOwnTcCounts(s2, reply.value.value);
        if IsLeader(s3, s3.view) {
          GenerateCalls(s3.(processing := None), Some(reply.value.value));
        }
      }
    }
  }

  lemma TcCalls(s: State, tc: TC)
    requires WellFormed(s)
    ensures Adds(s, HandleTc(s, tc).state, TcFrames(s, tc).proposals, TcFrames(s, tc).votes)
  {
    hide VoteCount, ProposalCount, KeptVotes, GenerateProposal, GenerateFrames, Extends, Leader, TcVerdict;
    if TcVerdict(s, tc).Ok? {
      var s1 := AdvanceView(s, tc.view).(processing := None);
      if IsLeader(s1, s1.view) {
        GenerateCalls(s1, None);
      }
    }
  }

  /** The counted calls are those the timer really makes: each call of the proposal handler is for a proposal the
      replica sent, and no vote is handled. */
  lemma TimerCallsShow(s: State)
    requires WellFormed(s)
    ensures Adds(s, HandleLocalTimer(s).state, TimerFrames(s).proposals, TimerFrames(s).votes)
  {
    hide VoteCount, ProposalCount, KeptVotes, HandleTimeout, TimeoutFrames, Extends;
    var s1 := s.(lastVotedView := Max(s.lastVotedView, s.view));
    if MakeTimeout(s1).Ok? {
      var t := MakeTimeout(s1).value;
      LogCounts(s1, Sent(s1.view, TimeoutMsg(t)));
      TimeoutCalls(Log(s1, Sent(s1.view, TimeoutMsg(t))), t);
    }
  }

  /** The counted calls are those a message really leads to: besides the handling of the message itself, each call
      of the proposal handler is for a proposal the replica sent, and each call of the vote handler for a vote it
      cast and did not send. */
  lemma CallsShow(s: State, m: Message)
    requires WellFormed(s)
    ensures var f := MessageFrames(s, m);
            Adds(s, Handle(s, m).state,
                 f.proposals - if m.Propose? then 1 else 0, f.votes - if m.VoteMsg? then 1 else 0)
  {
    hide VoteCount, ProposalCount, KeptVotes, HandleProposal, HandleVote, HandleTimeout, HandleTc, Extends;
    hide ProposalFrames, VoteFrames, TimeoutFrames, TcFrames;
    match m
    case Propose(p) => ProposalCalls(s, p);
    case VoteMsg(v) => VoteCalls(s, v);
    case TimeoutMsg(t) => TimeoutCalls(s, t);
    case TcMsg(tc) => TcCalls(s, tc);
    case SyncRequest(_, _) =>
  }
}
