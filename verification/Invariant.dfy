/** The invariant of one honest replica, and its preservation by every handler.

    `base` is the set of signatures made by the other honest replicas; what this replica has signed is
    read off its trace. */
module Invariant {
  import opened Types
  import opened Certificates
  import opened Aggregation
  import opened Replica
  import opened Trust

  // ---------- Signatures a trace accounts for ----------

  function Signatures(me: AuthorityId, e: Event): set<Signature> {
    match e
    case Voted(_, p) => {Sig(me, VoteHash(ProposalDigest(p), p.view))}
    case Sent(_, Propose(p)) => {Sig(me, ProposalDigest(p))}
    case Sent(_, TimeoutMsg(t)) => {Sig(me, TimeoutDigest(t))}
    case _ => {}
  }

  function Made(me: AuthorityId, trace: seq<Event>): set<Signature> {
    if trace == [] then {} else Made(me, trace[..|trace| - 1]) + Signatures(me, trace[|trace| - 1])
  }

  lemma {:induction false} MadeAppend(me: AuthorityId, trace: seq<Event>, e: Event)
    ensures Made(me, trace + [e]) == Made(me, trace) + Signatures(me, e)
  {
    assert (trace + [e])[..|trace|] == trace;
  }

  lemma {:induction false} MadeAt(me: AuthorityId, trace: seq<Event>, signature: Signature)
    ensures signature in Made(me, trace) <==>
            exists i :: 0 <= i < |trace| && signature in Signatures(me, trace[i])
  {
    if trace != [] {
      var k := |trace| - 1;
      MadeAt(me, trace[..k], signature);
      assert forall i :: 0 <= i < k ==> trace[..k][i] == trace[i];
    }
  }

  lemma {:induction false} MadeGrows(me: AuthorityId, trace: seq<Event>, trace': seq<Event>)
    requires trace <= trace'
    ensures Made(me, trace) <= Made(me, trace')
    decreases |trace'|
  {
    if |trace| < |trace'| {
      MadeGrows(me, trace, trace'[..|trace'| - 1]);
    } else {
      assert trace == trace';
    }
  }

  lemma {:induction false} MadeSigner(me: AuthorityId, trace: seq<Event>)
    ensures forall signature :: signature in Made(me, trace) ==> signature.Sig? && signature.signer == me
  {
    forall signature | signature in Made(me, trace) ensures signature.Sig? && signature.signer == me {
      MadeAt(me, trace, signature);
    }
  }

  // ---------- Voting discipline ----------

  /** Events that bind the replica not to vote in their view or below afterwards. */
  predicate Binding(e: Event) {
    e.Voted? || (e.Sent? && e.message.TimeoutMsg?)
  }

  function BoundView(e: Event): View
    requires Binding(e)
  {
    if e.Voted? then e.proposal.view else e.message.timeout.view
  }

  /** Votes are cast in the current view, never in view 0, each in a view above every earlier vote and
      every view the replica has timed out of. */
  ghost predicate Discipline(trace: seq<Event>, lastVoted: View) {
    && (forall i :: 0 <= i < |trace| && Binding(trace[i]) ==> BoundView(trace[i]) <= lastVoted)
    && (forall i :: 0 <= i < |trace| && trace[i].Voted? ==> 1 <= trace[i].at == trace[i].proposal.view)
    && (forall i, j :: 0 <= i < j < |trace| && Binding(trace[i]) && trace[j].Voted? ==>
          BoundView(trace[i]) < trace[j].proposal.view)
  }

  // ---------- Soundness of what is stored ----------

  ghost predicate GoodQcMaker(c: Config, known: set<Signature>, digest: Digest, m: QcMaker) {
    && m.weight == |m.votes|
    && (forall i :: 0 <= i < |m.votes| ==>
          m.votes[i].0 in c.authorities && m.votes[i].1 == Sig(m.votes[i].0, digest) &&
          Backed(c, known, m.votes[i].0, digest))
    && (forall i, j :: 0 <= i < j < |m.votes| ==> m.votes[i].0 != m.votes[j].0)
  }

  ghost predicate GoodVotes(c: Config, known: set<Signature>, b: VoteBuckets) {
    forall v, d :: v in b && d in b[v] ==> GoodQcMaker(c, known, d, b[v][d])
  }

  ghost predicate GoodTcMaker(c: Config, known: set<Signature>, view: View, m: TcMaker) {
    && m.weight == |m.votes|
    && (forall i :: 0 <= i < |m.votes| ==>
          m.votes[i].0 in c.authorities && m.votes[i].2 == view &&
          TimeoutBacked(c, known, m.votes[i].0, m.votes[i].1, view))
    && (forall i, j :: 0 <= i < j < |m.votes| ==> m.votes[i].0 != m.votes[j].0)
  }

  /** A certificate as replicas assemble it: each entry repeats the certificate's view. */
  ghost predicate AssembledTc(c: Config, known: set<Signature>, tc: TC) {
    QuorumTc(c, known, tc) && forall i :: 0 <= i < |tc.votes| ==> tc.votes[i].2 == tc.view
  }

  ghost predicate GoodTimeouts(c: Config, known: set<Signature>, b: TimeoutBuckets) {
    forall v :: v in b ==> GoodTcMaker(c, known, v, b[v])
  }

  /** Every stored proposal sits under its own digest and carries a certificate that was verified. */
  ghost predicate GoodStore(c: Config, known: set<Signature>, store: map<Digest, Proposal>) {
    KeyedByDigest(store) && forall d :: d in store ==> GoodQc(c, known, store[d].qc)
  }

  ghost predicate GoodHighQc(c: Config, known: set<Signature>, qc: QC) {
    qc == DEFAULT_QC || QuorumQc(c, known, qc)
  }

  /** Every view below `view`, except view 0, was left on the word of a quorum. */
  ghost predicate Ladder(c: Config, known: set<Signature>, view: View) {
    forall v :: 1 <= v < view ==> Witnessed(c, known, v)
  }

  /** What holds of an event, given the signatures that existed when it happened. */
  ghost predicate GoodEvent(c: Config, known: set<Signature>, me: AuthorityId, e: Event)
    requires c.authorities != []
  {
    match e
    case Voted(_, p) => GoodQc(c, known, p.qc)
    case Sent(at, Propose(p)) =>
      && at == p.view
      && p.author == me == Leader(c.authorities, p.view)
      && CheckProposal(p, c.authorities).Ok? && GoodHighQc(c, known, p.qc)
    case Sent(at, VoteMsg(v)) => at == v.view && v.voter == me && CheckVote(v, c.authorities).Ok? && Sig(me, VoteDigest(v)) in known
    case Sent(at, TimeoutMsg(t)) =>
      at == t.view && t.voter == me && CheckTimeout(t, c.authorities).Ok? && GoodHighQc(c, known, t.highQc)
    case Sent(_, TcMsg(tc)) => AssembledTc(c, known, tc)
    case Sent(_, SyncRequest(_, _)) => false
    case SyncRequested(_) => true
    case FinalizeCalled(child, parent, grandpa) =>
      && child.qc.proposalHash == ProposalDigest(parent) && QuorumQc(c, known, child.qc)
      && parent.qc.proposalHash == ProposalDigest(grandpa) && QuorumQc(c, known, parent.qc)
      && parent.view == grandpa.view + 1 && grandpa.payload.blockHash != EMPTY_PAYLOAD
  }

  ghost predicate GoodTrace(c: Config, base: set<Signature>, me: AuthorityId, trace: seq<Event>)
    requires c.authorities != []
  {
    forall i :: 0 <= i < |trace| ==> GoodEvent(c, base + Made(me, trace[..i]), me, trace[i])
  }

  function Known(base: set<Signature>, s: State): set<Signature>
    requires s.me.Some?
  {
    base + Made(s.me.value, s.trace)
  }

  /** The parts of the state whose soundness rests on signatures. */
  ghost predicate Sound(c: Config, known: set<Signature>, s: State) {
    && GoodHighQc(c, known, s.highQc)
    && GoodVotes(c, known, s.votes)
    && GoodTimeouts(c, known, s.timeouts)
    && GoodStore(c, known, s.store)
    && Ladder(c, known, s.view)
  }

  ghost predicate HonestReplica(c: Config, s: State) {
    ValidConfig(c) && s.authorities == c.authorities && s.me.Some? && s.me.value in Honest(c)
  }

  ghost predicate Inv(c: Config, base: set<Signature>, s: State) {
    && HonestReplica(c, s)
    && s.lastVotedView <= s.view == s.gossipView
    && Sound(c, Known(base, s), s)
    && Discipline(s.trace, s.lastVotedView)
    && GoodTrace(c, base, s.me.value, s.trace)
  }

  // ---------- Monotonicity ----------

  lemma LadderGrows(c: Config, known: set<Signature>, known': set<Signature>, view: View)
    requires known <= known' && Ladder(c, known, view)
    ensures Ladder(c, known', view)
  {
    forall v | 1 <= v < view ensures Witnessed(c, known', v) {
      WitnessedGrows(c, known, known', v);
    }
  }

  lemma VotesGrow(c: Config, known: set<Signature>, known': set<Signature>, b: VoteBuckets)
    requires known <= known' && GoodVotes(c, known, b)
    ensures GoodVotes(c, known', b)
  {
    forall v, d | v in b && d in b[v] ensures GoodQcMaker(c, known', d, b[v][d]) {
      assert GoodQcMaker(c, known, d, b[v][d]);
    }
  }

  lemma TimeoutsGrow(c: Config, known: set<Signature>, known': set<Signature>, b: TimeoutBuckets)
    requires known <= known' && GoodTimeouts(c, known, b)
    ensures GoodTimeouts(c, known', b)
  {
    forall v | v in b ensures GoodTcMaker(c, known', v, b[v]) {
      assert GoodTcMaker(c, known, v, b[v]);
    }
  }

  lemma StoreGrows(c: Config, known: set<Signature>, known': set<Signature>, store: map<Digest, Proposal>)
    requires known <= known' && GoodStore(c, known, store)
    ensures GoodStore(c, known', store)
  {
    forall d | d in store ensures GoodQc(c, known', store[d].qc) {
      assert GoodQc(c, known, store[d].qc);
    }
  }

  lemma SoundGrows(c: Config, known: set<Signature>, known': set<Signature>, s: State)
    requires known <= known' && Sound(c, known, s)
    ensures Sound(c, known', s)
  {
    LadderGrows(c, known, known', s.view);
    VotesGrow(c, known, known', s.votes);
    TimeoutsGrow(c, known, known', s.timeouts);
    StoreGrows(c, known, known', s.store);
  }

  lemma EventGrows(c: Config, known: set<Signature>, known': set<Signature>, me: AuthorityId, e: Event)
    requires c.authorities != [] && known <= known' && GoodEvent(c, known, me, e)
    ensures GoodEvent(c, known', me, e)
  {
  }

  /** The invariant survives whatever the other replicas sign. */
  lemma InvGrows(c: Config, base: set<Signature>, base': set<Signature>, s: State)
    requires base <= base' && Inv(c, base, s)
    ensures Inv(c, base', s)
  {
    SoundGrows(c, Known(base, s), Known(base', s), s);
    var me := s.me.value;
    forall i | 0 <= i < |s.trace| ensures GoodEvent(c, base' + Made(me, s.trace[..i]), me, s.trace[i]) {
      EventGrows(c, base + Made(me, s.trace[..i]), base' + Made(me, s.trace[..i]), me, s.trace[i]);
    }
  }

  // ---------- Logging ----------

  lemma {:induction false} GoodTraceAppend(c: Config, base: set<Signature>, me: AuthorityId, trace: seq<Event>, e: Event)
    requires c.authorities != [] && GoodTrace(c, base, me, trace)
    requires GoodEvent(c, base + Made(me, trace), me, e)
    ensures GoodTrace(c, base, me, trace + [e])
  {
    var trace' := trace + [e];
    forall i | 0 <= i < |trace'| ensures GoodEvent(c, base + Made(me, trace'[..i]), me, trace'[i]) {
      assert trace'[..i] == trace[..i];
      assert trace[..|trace|] == trace;
    }
  }

  lemma LogInv(c: Config, base: set<Signature>, s: State, e: Event)
    requires Inv(c, base, s) && GoodEvent(c, Known(base, s), s.me.value, e)
    requires !e.Voted? && (Binding(e) ==> BoundView(e) <= s.lastVotedView)
    ensures Inv(c, base, Log(s, e))
  {
    var me := s.me.value;
    var s' := Log(s, e);
    MadeAppend(me, s.trace, e);
    SoundGrows(c, Known(base, s), Known(base, s'), s);
    GoodTraceAppend(c, base, me, s.trace, e);
  }

  lemma CastVoteInv(c: Config, base: set<Signature>, s: State, p: Proposal)
    requires Inv(c, base, s) && GoodQc(c, Known(base, s), p.qc)
    requires MayVote(s, p) && p.view == s.view
    ensures Inv(c, base, CastVote(s, p))
    ensures Sig(s.me.value, VoteHash(ProposalDigest(p), p.view)) in Known(base, CastVote(s, p))
  {
    var me := s.me.value;
    var e := Voted(s.view, p);
    var s' := CastVote(s, p);
    MadeAppend(me, s.trace, e);
    SoundGrows(c, Known(base, s), Known(base, s'), s);
    GoodTraceAppend(c, base, me, s.trace, e);
    assert Discipline(s'.trace, s'.lastVotedView);
  }

  // ---------- Steps of a handler ----------

  lemma HandleQcInv(c: Config, base: set<Signature>, s: State, qc: QC)
    requires Inv(c, base, s) && GoodQc(c, Known(base, s), qc)
    ensures Inv(c, base, HandleQc(s, qc))
    ensures Known(base, HandleQc(s, qc)) == Known(base, s)
  {
    hide GoodVotes, GoodTimeouts, GoodStore, Discipline, GoodTrace, QuorumQc, Witnessed;
    if qc.view == s.view && s.view >= 1 {
      QcWitnesses(c, Known(base, s), qc);
    }
  }

  lemma EnterNextViewInv(c: Config, base: set<Signature>, s: State, tc: TC)
    requires Inv(c, base, s) && QuorumTc(c, Known(base, s), tc) && tc.view >= s.view
    ensures Inv(c, base, AdvanceView(s, tc.view))
  {
    TcWitnesses(c, Known(base, s), tc);
  }

  lemma SaveInv(c: Config, base: set<Signature>, s: State, p: Proposal)
    requires Inv(c, base, s) && GoodQc(c, Known(base, s), p.qc)
    ensures Inv(c, base, Save(s, p))
    ensures Known(base, Save(s, p)) == Known(base, s)
  {
  }

  lemma TryFinalizeInv(c: Config, base: set<Signature>, s: State, p: Proposal)
    requires Inv(c, base, s) && GoodQc(c, Known(base, s), p.qc)
    ensures Inv(c, base, TryFinalize(s, p))
    ensures Known(base, TryFinalize(s, p)) == Known(base, s)
  {
    hide GoodVotes, GoodTimeouts, Ladder, Discipline, GoodTrace, GoodHighQc;
    var s' := TryFinalize(s, p);
    if s'.trace != s.trace {
      var (parent, grandpa) := Ancestors(s.store, p).value;
      var e := FinalizeCalled(p, parent, grandpa);
      assert s' == Log(s, e).(client := s'.client);
      assert GoodEvent(c, Known(base, s), s.me.value, e);
      LogInv(c, base, s, e);
      MadeAppend(s.me.value, s.trace, e);
    }
  }

  lemma AcceptInv(c: Config, base: set<Signature>, s: State, p: Proposal)
    requires Inv(c, base, s) && GoodQc(c, Known(base, s), p.qc)
    ensures Inv(c, base, Accept(s, p))
    ensures Known(base, Accept(s, p)) == Known(base, s)
  {
    var s1 := HandleQc(s, p.qc);
    HandleQcInv(c, base, s, p.qc);
    SaveInv(c, base, s1, p);
    TryFinalizeInv(c, base, Save(s1, p), p);
  }

  /** A bucket stays sound, and a certificate made from it passes verification. */
  lemma AppendVoteGood(c: Config, known: set<Signature>, m: QcMaker, vote: Vote)
    requires GoodQcMaker(c, known, VoteDigest(vote), m) && CheckVote(vote, c.authorities).Ok?
    requires Backed(c, known, vote.voter, VoteDigest(vote))
    ensures var (m', reply) := AppendVote(m, vote, |c.authorities|);
            && GoodQcMaker(c, known, VoteDigest(vote), m')
            && (reply.Ok? && reply.value.Some? ==> QuorumQc(c, known, reply.value.value))
  {
    var (m', reply) := AppendVote(m, vote, |c.authorities|);
    if reply.Ok? && reply.value.Some? {
      var bs := QcBallots(reply.value.value);
      assert forall i :: 0 <= i < |bs| ==> bs[i].voter == m'.votes[i].0 && Valid(bs[i]);
      CheckMeaning(bs, |c.authorities|);
    }
  }

  lemma TallyVoteInv(c: Config, base: set<Signature>, s: State, vote: Vote)
    requires Inv(c, base, s) && CheckVote(vote, c.authorities).Ok?
    requires Backed(c, Known(base, s), vote.voter, VoteDigest(vote))
    ensures var (votes, reply) := TallyVote(s.votes, vote, |c.authorities|);
            && Inv(c, base, s.(votes := votes))
            && (reply.Ok? && reply.value.Some? ==> QuorumQc(c, Known(base, s), reply.value.value))
  {
    hide GoodTimeouts, GoodStore, Ladder, Discipline, GoodTrace, GoodHighQc, AppendVote, QuorumQc;
    var known := Known(base, s);
    var m := QcMakerAt(s.votes, vote.view, VoteDigest(vote));
    assert GoodQcMaker(c, known, VoteDigest(vote), m);
    AppendVoteGood(c, known, m, vote);
    assert GoodVotes(c, known, TallyVote(s.votes, vote, |c.authorities|).0);
  }

  lemma TallyTimeoutInv(c: Config, base: set<Signature>, s: State, t: Timeout)
    requires Inv(c, base, s) && CheckTimeout(t, c.authorities).Ok?
    requires Backed(c, Known(base, s), t.voter, TimeoutDigest(t))
    ensures var (timeouts, reply) := TallyTimeout(s.timeouts, t, |c.authorities|);
            && Inv(c, base, s.(timeouts := timeouts))
            && (reply.Ok? && reply.value.Some? ==> AssembledTc(c, Known(base, s), reply.value.value))
  {
    hide GoodVotes, GoodStore, Ladder, Discipline, GoodTrace, GoodHighQc;
    var known := Known(base, s);
    var m := TcMakerAt(s.timeouts, t.view);
    assert GoodTcMaker(c, known, t.view, m);
    var (m', reply) := AppendTimeout(m, t, |c.authorities|);
    assert GoodTcMaker(c, known, t.view, m');
    if reply.Ok? && reply.value.Some? {
      var tc := reply.value.value;
      var bs := TcBallots(tc);
      assert forall i :: 0 <= i < |bs| ==> bs[i].voter == m'.votes[i].0;
    }
  }

  lemma OwnProposal(c: Config, base: set<Signature>, s: State, payload: Payload, tc: Option<TC>)
    requires Inv(c, base, s) && IsLeader(s, s.view)
    ensures var p := MakeProposal(s, payload, tc).value;
            && GoodEvent(c, Known(base, s), s.me.value, Sent(s.view, Propose(p)))
            && ProposalVerdict(s, p).Ok?
            && Inv(c, base, Log(s, Sent(s.view, Propose(p))))
            && GoodQc(c, Known(base, Log(s, Sent(s.view, Propose(p)))), p.qc)
  {
    var p := MakeProposal(s, payload, tc).value;
    var e := Sent(s.view, Propose(p));
    LogInv(c, base, s, e);
    MadeAppend(s.me.value, s.trace, e);
  }

  /** The choice of payloads plays no part in the invariant. */
  lemma PayloadInv(c: Config, base: set<Signature>, s: State, s': State)
    requires Inv(c, base, s)
    requires s' == s.(processing := s'.processing, hashQueue := s'.hashQueue, client := s'.client, pending := s'.pending)
    ensures Inv(c, base, s') && Known(base, s') == Known(base, s)
  {
  }

  lemma OwnVoteSentInv(c: Config, base: set<Signature>, s: State, p: Proposal)
    requires Inv(c, base, s) && Sig(s.me.value, VoteHash(ProposalDigest(p), p.view)) in Known(base, s) && s.view == p.view
    ensures Inv(c, base, Log(s, Sent(s.view, VoteMsg(VoteFor(s.me.value, p)))))
  {
    LogInv(c, base, s, Sent(s.view, VoteMsg(VoteFor(s.me.value, p))));
  }

  /** The leader's own proposal, from the choice of payload to the point where it handles it itself. */
  lemma OwnProposalSent(c: Config, base: set<Signature>, s: State, s': State, payload: Payload, tc: Option<TC>)
      returns (p: Proposal)
    requires Inv(c, base, s) && IsLeader(s, s.view)
    requires s' == s.(processing := s'.processing, hashQueue := s'.hashQueue)
    ensures MakeProposal(s', payload, tc) == Ok(p)
    ensures Inv(c, base, Log(s', Sent(s'.view, Propose(p)))) && GoodQc(c, Known(base, Log(s', Sent(s'.view, Propose(p)))), p.qc)
    ensures IsLeader(Log(s', Sent(s'.view, Propose(p))), p.view)
  {
    PayloadInv(c, base, s, s');
    OwnProposal(c, base, s', payload, tc);
    p := MakeProposal(s', payload, tc).value;
  }

  // ---------- Handlers ----------

  lemma {:induction false} HandleProposalInv(c: Config, base: set<Signature>, s: State, p: Proposal)
    requires Inv(c, base, s)
    requires CheckCarriedQc(p.qc, c.authorities).Ok? ==> GoodQc(c, Known(base, s), p.qc)
    ensures Inv(c, base, HandleProposal(s, p).state)
    decreases if IsLeader(s, p.view) then 0 else 2, 2
  {
    hide Sound, Discipline, GoodTrace, VoteOn, Accept;
    if UnknownBlock(s, p) {
      LogInv(c, base, s, SyncRequested(p.payload));
    } else if !FailedBlock(s, p) && ProposalVerdict(s, p).Ok? {
      AcceptInv(c, base, s, p);
      VoteOnInv(c, base, Accept(s, p), p);
    }
  }

  lemma {:induction false} VoteOnInv(c: Config, base: set<Signature>, s: State, p: Proposal)
    requires Inv(c, base, s) && GoodQc(c, Known(base, s), p.qc)
    ensures Inv(c, base, VoteOn(s, p).state)
    decreases if IsLeader(s, p.view) then 0 else 2, 1
  {
    hide Sound, Discipline, GoodTrace, PassOnVote;
    if p.view == s.view && MayVote(s, p) {
      CastVoteInv(c, base, s, p);
      PassOnVoteInv(c, base, CastVote(s, p), p);
    }
  }

  lemma {:induction false} PassOnVoteInv(c: Config, base: set<Signature>, s: State, p: Proposal)
    requires Inv(c, base, s) && s.view == p.view
    requires Sig(s.me.value, VoteHash(ProposalDigest(p), p.view)) in Known(base, s)
    ensures Inv(c, base, PassOnVote(s, p).state)
    decreases if IsLeader(s, p.view) then 0 else 2, 0
  {
    hide Sound, Discipline, GoodTrace, HandleVote;
    if IsLeader(s, s.view + 1) {
      ConsecutiveLeaders(s.authorities, s.view);
      HandleVoteInv(c, base, s, VoteFor(s.me.value, p));
    } else {
      OwnVoteSentInv(c, base, s, p);
    }
  }

  lemma {:induction false} HandleVoteInv(c: Config, base: set<Signature>, s: State, vote: Vote)
    requires Inv(c, base, s)
    requires CheckVote(vote, c.authorities).Ok? ==> Backed(c, Known(base, s), vote.voter, VoteDigest(vote))
    ensures Inv(c, base, HandleVote(s, vote).state)
    decreases 1, 1
  {
    hide Sound, Discipline, GoodTrace, ProposeOnQc, HandleQc;
    if VoteVerdict(s, vote).Ok? {
      TallyVoteInv(c, base, s, vote);
      var (votes, reply) := TallyVote(s.votes, vote, |s.authorities|);
      var s1 := s.(votes := votes);
      if reply.Ok? && reply.value.Some? {
        HandleQcInv(c, base, s1, reply.value.value);
        ProposeOnQcInv(c, base, HandleQc(s1, reply.value.value));
      }
    }
  }

  lemma {:induction false} ProposeOnQcInv(c: Config, base: set<Signature>, s: State)
    requires Inv(c, base, s)
    ensures Inv(c, base, ProposeOnQc(s).state)
    decreases 1, 0
  {
    hide Sound, Discipline, GoodTrace, HandleProposal;
    if IsLeader(s, s.view) {
      var (s1, choice) := ProposalPayload(s);
      PayloadInv(c, base, s, s1);
      if choice.Some? && !(choice.value.blockHash == EMPTY_PAYLOAD && TwoTrailingEmpty(s1.hashQueue)) {
        var kept := if |s1.hashQueue| > 3 then [] else s1.hashQueue;
        var s2 := s1.(hashQueue := kept + [choice.value.blockHash]);
        var p := OwnProposalSent(c, base, s, s2, choice.value, None);
        HandleProposalInv(c, base, Log(s2, Sent(s2.view, Propose(p))), p);
      }
    }
  }

  lemma GenerateProposalInv(c: Config, base: set<Signature>, s: State, tc: Option<TC>)
    requires Inv(c, base, s) && IsLeader(s, s.view)
    ensures Inv(c, base, GenerateProposal(s, tc).state)
  {
    hide Sound, Discipline, GoodTrace, HandleProposal;
    var (s1, choice) := ProposalPayload(s);
    PayloadInv(c, base, s, s1);
    if choice.Some? {
      var p := OwnProposalSent(c, base, s, s1, choice.value, tc);
      HandleProposalInv(c, base, Log(s1, Sent(s1.view, Propose(p))), p);
    }
  }

  lemma HandleTimeoutInv(c: Config, base: set<Signature>, s: State, t: Timeout)
    requires Inv(c, base, s)
    requires CheckTimeout(t, c.authorities).Ok? ==>
               Backed(c, Known(base, s), t.voter, TimeoutDigest(t)) && GoodQc(c, Known(base, s), t.highQc)
    ensures Inv(c, base, HandleTimeout(s, t).state)
  {
    hide Sound, Discipline, GoodTrace, GenerateProposal, HandleQc, UseOwnTc;
    if s.view <= t.view && CheckTimeout(t, s.authorities).Ok? {
      HandleQcInv(c, base, s, t.highQc);
      var s1 := HandleQc(s, t.highQc);
      TallyTimeoutInv(c, base, s1, t);
      var (timeouts, reply) := TallyTimeout(s1.timeouts, t, |s1.authorities|);
      var s2 := s1.(timeouts := timeouts);
      if reply.Ok? && reply.value.Some? {
        var tc := reply.value.value;
        var s3 := UseOwnTc(s2, tc);
        UseOwnTcInv(c, base, s2, tc);
        var s4 := s3.(processing := None);
        PayloadInv(c, base, s3, s4);
        if IsLeader(s3, s3.view) {
          GenerateProposalInv(c, base, s4, Some(tc));
        }
      }
    }
  }

  lemma UseOwnTcInv(c: Config, base: set<Signature>, s: State, tc: TC)
    requires Inv(c, base, s) && AssembledTc(c, Known(base, s), tc)
    ensures Inv(c, base, UseOwnTc(s, tc))
  {
    if tc.view >= s.view {
      EnterNextViewInv(c, base, s, tc);
      LogInv(c, base, AdvanceView(s, tc.view), Sent(AdvanceView(s, tc.view).view, TcMsg(tc)));
    } else {
      LogInv(c, base, s, Sent(s.view, TcMsg(tc)));
    }
  }

  /** The replica gives up voting in its view, then signs and sends its timeout. */
  lemma OwnTimeoutSent(c: Config, base: set<Signature>, s: State, s1: State, t: Timeout)
    requires Inv(c, base, s) && s1 == s.(lastVotedView := s.view) && MakeTimeout(s1) == Ok(t)
    ensures var s2 := Log(s1, Sent(s1.view, TimeoutMsg(t)));
            && Inv(c, base, s2)
            && Backed(c, Known(base, s2), t.voter, TimeoutDigest(t))
            && GoodQc(c, Known(base, s2), t.highQc)
  {
    var e := Sent(s1.view, TimeoutMsg(t));
    assert Inv(c, base, s1);
    LogInv(c, base, s1, e);
    MadeAppend(s.me.value, s1.trace, e);
  }

  lemma HandleLocalTimerInv(c: Config, base: set<Signature>, s: State)
    requires Inv(c, base, s)
    ensures Inv(c, base, HandleLocalTimer(s).state)
  {
    hide Sound, Discipline, GoodTrace, HandleTimeout;
    var s1 := s.(lastVotedView := s.view);
    var t := MakeTimeout(s1).value;
    OwnTimeoutSent(c, base, s, s1, t);
    HandleTimeoutInv(c, base, Log(s1, Sent(s1.view, TimeoutMsg(t))), t);
  }

  lemma HandleTcInv(c: Config, base: set<Signature>, s: State, tc: TC)
    requires Inv(c, base, s)
    requires CheckTc(tc, c.authorities).Ok? ==> QuorumTc(c, Known(base, s), tc)
    ensures Inv(c, base, HandleTc(s, tc).state)
  {
    hide Sound, Discipline, GoodTrace, GenerateProposal;
    if TcVerdict(s, tc).Ok? {
      EnterNextViewInv(c, base, s, tc);
      var s1 := AdvanceView(s, tc.view).(processing := None);
      PayloadInv(c, base, AdvanceView(s, tc.view), s1);
      if IsLeader(s1, s1.view) {
        GenerateProposalInv(c, base, s1, None);
      }
    }
  }

  /** Every handler keeps the invariant, whatever authentic message it is given. */
  lemma HandleInv(c: Config, base: set<Signature>, s: State, m: Message)
    requires Inv(c, base, s) && AuthenticMessage(c, Known(base, s), m)
    ensures Inv(c, base, Handle(s, m).state)
  {
    hide Sound, Discipline, GoodTrace, HandleProposal, HandleVote, HandleTimeout, HandleTc;
    var known := Known(base, s);
    match m
    case Propose(p) =>
      if CheckCarriedQc(p.qc, c.authorities).Ok? {
        CheckedQcIsGood(c, known, p.qc);
      }
      HandleProposalInv(c, base, s, p);
    case VoteMsg(v) =>
      HandleVoteInv(c, base, s, v);
    case TimeoutMsg(t) =>
      if CheckTimeout(t, c.authorities).Ok? {
        CheckedQcIsGood(c, known, t.highQc);
      }
      HandleTimeoutInv(c, base, s, t);
    case TcMsg(tc) =>
      if CheckTc(tc, c.authorities).Ok? {
        CheckedTcIsQuorum(c, known, tc);
      }
      HandleTcInv(c, base, s, tc);
    case SyncRequest(_, _) =>
  }

  lemma InitInv(c: Config, me: AuthorityId, client: Client, pending: seq<BlockInfo>)
    requires ValidConfig(c) && me in Honest(c)
    ensures Inv(c, {}, Init(Some(me), c.authorities, client, pending))
  {
  }
}
