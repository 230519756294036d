/** What replicas do over whole runs: how they vote, change view and what they send. */
module Runs {
  import opened Types
  import opened Certificates
  import opened Aggregation
  import opened Replica
  import opened Trust
  import opened Invariant
  import opened Protocol
  import opened Reaction

  // ---------- Voting discipline ----------

  /** In every run an honest replica votes only in its current view, never in view 0, in strictly
      increasing views, and never in a view it has already signed a timeout for. */
  lemma VotingDiscipline(c: Config, sys: System, id: AuthorityId)
    requires Reachable(c, sys) && id in sys
    ensures var trace := sys[id].trace;
            && sys[id].lastVotedView <= sys[id].view
            && (forall i :: 0 <= i < |trace| && trace[i].Voted? ==>
                  1 <= trace[i].proposal.view == trace[i].at <= sys[id].lastVotedView)
            && (forall i, j :: 0 <= i < j < |trace| && trace[i].Voted? && trace[j].Voted? ==>
                  trace[i].proposal.view < trace[j].proposal.view)
            && (forall i, j :: 0 <= i < j < |trace| && trace[i].Sent? && trace[i].message.TimeoutMsg? && trace[j].Voted? ==>
                  trace[i].message.timeout.view < trace[j].proposal.view)
  {
    hide Reachable, Sound, GoodTrace, Descent;
    ReachableInv(c, sys);
    var trace := sys[id].trace;
    assert forall i :: 0 <= i < |trace| && trace[i].Voted? ==> Binding(trace[i]);
    assert forall i :: 0 <= i < |trace| && trace[i].Sent? && trace[i].message.TimeoutMsg? ==> Binding(trace[i]);
  }

  // ---------- View ladder ----------

  predicate ActedAt(trace: seq<Event>, i: int, view: View) {
    0 <= i < |trace| && Binding(trace[i]) && BoundView(trace[i]) == view == trace[i].at
  }

  /** The replica was in the view, and signed a vote or a timeout of it there. */
  ghost predicate WasIn(s: State, view: View) {
    s.view >= view && exists i :: ActedAt(s.trace, i, view)
  }

  lemma TimeoutSentAt(c: Config, base: set<Signature>, s: State, i: int)
    requires Inv(c, base, s) && 0 <= i < |s.trace| && s.trace[i].Sent? && s.trace[i].message.TimeoutMsg?
    ensures s.trace[i].at == s.trace[i].message.timeout.view
  {
    hide Sound, Discipline;
    assert GoodEvent(c, base + Made(s.me.value, s.trace[..i]), s.me.value, s.trace[i]);
  }

  lemma SignedMeansWasIn(c: Config, base: set<Signature>, s: State, d: Digest, view: View)
    requires Inv(c, base, s) && OfView(d, view) && Sig(s.me.value, d) in Made(s.me.value, s.trace)
    ensures WasIn(s, view)
  {
    hide Sound, GoodTrace;
    var me := s.me.value;
    MadeAt(me, s.trace, Sig(me, d));
    var i :| 0 <= i < |s.trace| && Sig(me, d) in Signatures(me, s.trace[i]);
    if !s.trace[i].Voted? {
      TimeoutSentAt(c, base, s, i);
    }
    assert ActedAt(s.trace, i, view);
  }

  lemma SignedInViewMeansWasIn(c: Config, sys: System, id: AuthorityId, view: View)
    requires SystemInv(c, sys) && id in sys && SignedInView(c, Signed(sys), id, view)
    ensures WasIn(sys[id], view)
  {
    hide Inv, Descent, WasIn;
    var d :| OfView(d, view) && Sig(id, d) in Signed(sys);
    var id' :| id' in sys && Sig(id, d) in Made(id', sys[id'].trace);
    MadeSigner(id', sys[id'].trace);
    SignedMeansWasIn(c, SignedByOthers(sys, id), sys[id], d, view);
  }

  lemma LadderAt(c: Config, base: set<Signature>, s: State, view: View)
    requires Inv(c, base, s) && 1 <= view < s.view
    ensures Witnessed(c, Known(base, s), view)
  {
    hide Discipline, GoodTrace;
  }

  /** A replica that has left a view other than 0 did so on the word of a quorum: every honest member of it
      was in that view and signed a vote or a timeout of it there, and they number more than the faulty. */
  lemma ViewLadder(c: Config, sys: System, id: AuthorityId, view: View) returns (q: set<AuthorityId>)
    requires Reachable(c, sys) && id in sys && 1 <= view < sys[id].view
    ensures IsQuorum(c, q) && |q - c.faulty| > |c.faulty|
    ensures forall member :: member in q && member !in c.faulty ==> member in sys && WasIn(sys[member], view)
  {
    hide Reachable, Inv, Descent, WasIn;
    ReachableInv(c, sys);
    LadderAt(c, SignedByOthers(sys, id), sys[id], view);
    KnownIsSigned(c, sys, id);
    q :| QuorumInView(c, Signed(sys), view, q);
    MembersCount(c.authorities);
    QuorumHonest(Members(c.authorities), c.faulty, q);
    forall member | member in q && member !in c.faulty ensures member in sys && WasIn(sys[member], view) {
      SignedInViewMeansWasIn(c, sys, member, view);
    }
  }

  /** A certificate moves the view exactly when it is for the current view, and then by one; a timeout
      certificate inside a proposal never does. */
  lemma CarriedCertificates(s: State, qc: QC, p: Proposal)
    ensures HandleQc(s, qc).view == if qc.view == s.view then s.view + 1 else s.view
    ensures HandleQc(s, qc).highQc.view == if qc.view >= s.view then Max(s.highQc.view, qc.view) else s.highQc.view
    ensures HandleQc(s, qc).highQc == qc || HandleQc(s, qc).highQc == s.highQc
    ensures Save(s, p).view == s.view
  {
  }

  lemma AcceptedView(s: State, p: Proposal)
    ensures Accept(s, p).view == HandleQc(s, p.qc).view
  {
    hide TryFinalize, HandleQc;
    var s1 := Save(HandleQc(s, p.qc), p);
    CarriedCertificates(HandleQc(s, p.qc), p.qc, p);
    TryFinalizeCounts(s1, p);
    assert Extends(s1, TryFinalize(s1, p));
  }

  /** The vote completes a quorum certificate of the current view. */
  predicate CompletesQc(s: State, vote: Vote) {
    var reply := TallyVote(s.votes, vote, |s.authorities|).1;
    reply.Ok? && reply.value.Some? && vote.view == s.view
  }

  /** The timeout completes a timeout certificate of the current view. */
  predicate CompletesTc(s: State, t: Timeout) {
    var reply := TallyTimeout(s.timeouts, t, |s.authorities|).1;
    reply.Ok? && reply.value.Some? && t.view == s.view
  }

  /** A certificate of exactly the current view is at hand: carried by the message, known to the replica as its
      highest, or completed by the event. */
  predicate HasCertificate(s: State, a: Action) {
    match a
    case Timer(_) => s.highQc.view == s.view || (MakeTimeout(s).Ok? && CompletesTc(s, MakeTimeout(s).value))
    case Deliver(_, Propose(p)) => p.qc.view == s.view || (s.me.Some? && CompletesQc(s, VoteFor(s.me.value, p)))
    case Deliver(_, VoteMsg(v)) => s.highQc.view == s.view || CompletesQc(s, v)
    case Deliver(_, TimeoutMsg(t)) => t.highQc.view == s.view || s.highQc.view == s.view || CompletesTc(s, t)
    case Deliver(_, TcMsg(tc)) => tc.view == s.view || s.highQc.view == s.view
    case _ => false
  }

  lemma {:induction false} OwnProposalStays(s: State, p: Proposal)
    requires WellFormed(s) && IsLeader(s, p.view) && p.qc.view != s.view
    ensures HandleProposal(s, p).state.view == s.view
  {
    hide VoteOn, Accept, Leader, ProposalVerdict, VoteCount, ProposalCount, KeptVotes;
    AcceptedView(s, p);
    OwnVoteOn(Accept(s, p), p);
  }

  lemma GenerateStays(s: State, tc: Option<TC>)
    requires WellFormed(s) && IsLeader(s, s.view) && s.highQc.view != s.view
    ensures GenerateProposal(s, tc).state.view == s.view
  {
    hide HandleProposal, Leader;
    var (s1, choice) := ProposalPayload(s);
    if choice.Some? {
      var p := MakeProposal(s1, choice.value, tc).value;
      OwnProposalStays(Log(s1, Sent(s1.view, Propose(p))), p);
    }
  }

  lemma {:induction false} ProposeStays(s: State)
    requires WellFormed(s) && s.highQc.view != s.view
    ensures ProposeOnQc(s).state.view == s.view
  {
    hide HandleProposal, Leader;
    var (s1, choice) := ProposalPayload(s);
    if IsLeader(s, s.view) && choice.Some? {
      var kept := if |s1.hashQueue| > 3 then [] else s1.hashQueue;
      var s2 := s1.(hashQueue := kept + [choice.value.blockHash]);
      var p := MakeProposal(s2, choice.value, None).value;
      OwnProposalStays(Log(s2, Sent(s2.view, Propose(p))), p);
    }
  }

  lemma TalliedView(b: TimeoutBuckets, t: Timeout, n: nat, tc: TC)
    requires TallyTimeout(b, t, n).1 == Ok(Some(tc))
    ensures tc.view == t.view
  {
  }

  lemma TalliedQcView(b: VoteBuckets, vote: Vote, n: nat, qc: QC)
    requires TallyVote(b, vote, n).1 == Ok(Some(qc))
    ensures qc.view == vote.view
  {
  }

  lemma {:induction false} VoteStays(s: State, vote: Vote)
    requires WellFormed(s) && !CompletesQc(s, vote)
    requires vote.view == s.view || s.highQc.view != s.view
    ensures HandleVote(s, vote).state.view == s.view
  {
    hide ProposeOnQc, TallyVote, Leader, CheckVote;
    var (votes, reply) := TallyVote(s.votes, vote, |s.authorities|);
    if VoteVerdict(s, vote).Ok? && reply.Ok? && reply.value.Some? {
      var qc := reply.value.value;
      TalliedQcView(s.votes, vote, |s.authorities|, qc);
      ProposeStays(HandleQc(s.(votes := votes), qc));
    }
  }

  lemma {:induction false} ProposalStays(s: State, p: Proposal)
    requires WellFormed(s) && p.qc.view != s.view
    requires s.me.Some? ==> !CompletesQc(s, VoteFor(s.me.value, p))
    ensures HandleProposal(s, p).state.view == s.view
  {
    hide Accept, Leader, ProposalVerdict, HandleVote, TallyVote, VoteCount, ProposalCount, KeptVotes;
    AcceptedView(s, p);
    AcceptCounts(s, p);
    var s1 := Accept(s, p);
    if p.view == s1.view && MayVote(s1, p) {
      var s2 := CastVote(s1, p);
      if IsLeader(s2, s2.view + 1) {
        VoteStays(s2, VoteFor(s2.me.value, p));
      }
      assert VoteOn(s1, p) == PassOnVote(s2, p);
    }
  }

  lemma TimeoutStays(s: State, t: Timeout)
    requires WellFormed(s) && t.highQc.view != s.view && s.highQc.view != s.view && !CompletesTc(s, t)
    ensures HandleTimeout(s, t).state.view == s.view
  {
    hide GenerateProposal, TallyTimeout, Leader, CheckTimeout;
    var s1 := HandleQc(s, t.highQc);
    var (timeouts, reply) := TallyTimeout(s.timeouts, t, |s.authorities|);
    if s.view <= t.view && reply.Ok? && reply.value.Some? {
      TalliedView(s.timeouts, t, |s.authorities|, reply.value.value);
      var s3 := UseOwnTc(s1.(timeouts := timeouts), reply.value.value);
      if IsLeader(s3, s3.view) {
        GenerateStays(s3.(processing := None), Some(reply.value.value));
      }
    }
  }

  lemma TimerStays(s: State)
    requires WellFormed(s) && s.highQc.view != s.view
    requires MakeTimeout(s).Ok? ==> !CompletesTc(s, MakeTimeout(s).value)
    ensures HandleLocalTimer(s).state.view == s.view
  {
    hide HandleTimeout, TallyTimeout;
    var s1 := s.(lastVotedView := Max(s.lastVotedView, s.view));
    if MakeTimeout(s1).Ok? {
      var t := MakeTimeout(s1).value;
      TimeoutStays(Log(s1, Sent(s1.view, TimeoutMsg(t))), t);
    }
  }

  lemma TcStays(s: State, tc: TC)
    requires WellFormed(s) && tc.view != s.view && s.highQc.view != s.view
    ensures HandleTc(s, tc).state.view == s.view
  {
    hide GenerateProposal, Leader, CheckTc;
    var s1 := AdvanceView(s, tc.view).(processing := None);
    if TcVerdict(s, tc).Ok? && IsLeader(s1, s1.view) {
      GenerateStays(s1, None);
    }
  }

  /** No event takes a replica out of its view without a certificate of exactly that view.  A certificate of a
      higher view, wherever it comes from, does not. */
  lemma OnlyExactCertificatesAdvance(s: State, a: Action)
    requires WellFormed(s)
    ensures Local(s, a).view > s.view ==> HasCertificate(s, a)
  {
    hide HandleLocalTimer, HandleProposal, HandleVote, HandleTimeout, HandleTc, CompletesQc, CompletesTc;
    if !HasCertificate(s, a) {
      match a
      case Timer(_) => TimerStays(s);
      case Deliver(_, Propose(p)) => ProposalStays(s, p);
      case Deliver(_, VoteMsg(v)) => VoteStays(s, v);
      case Deliver(_, TimeoutMsg(t)) => TimeoutStays(s, t);
      case Deliver(_, TcMsg(tc)) => TcStays(s, tc);
      case _ =>
    }
  }

  /** A vote of the current view that completes a certificate takes the replica past that view, with the
      certificate, or a higher one, as its highest. */
  lemma {:induction false} CompletedQcAdvances(s: State, vote: Vote, qc: QC)
    requires WellFormed(s) && VoteVerdict(s, vote).Ok? && vote.view == s.view
    requires TallyVote(s.votes, vote, |s.authorities|).1 == Ok(Some(qc))
    ensures HandleVote(s, vote).state.view > s.view
    ensures HandleVote(s, vote).state.highQc.view >= qc.view == s.view
  {
    hide ProposeOnQc;
    var s1 := HandleQc(s.(votes := TallyVote(s.votes, vote, |s.authorities|).0), qc);
    assert Extends(s1, ProposeOnQc(s1).state);
  }

  lemma CompletedTc(s: State, t: Timeout, tc: TC) returns (s3: State)
    requires WellFormed(s) && s.view <= t.view && CheckTimeout(t, s.authorities).Ok?
    requires TallyTimeout(s.timeouts, t, |s.authorities|).1 == Ok(Some(tc))
    ensures s3 == UseOwnTc(HandleQc(s, t.highQc).(timeouts := TallyTimeout(s.timeouts, t, |s.authorities|).0), tc)
    ensures Extends(s3, HandleTimeout(s, t).state)
  {
    hide GenerateProposal, CheckTimeout, TallyTimeout, Leader, UseOwnTc, HandleQc;
    s3 := UseOwnTc(HandleQc(s, t.highQc).(timeouts := TallyTimeout(s.timeouts, t, |s.authorities|).0), tc);
    var s4 := s3.(processing := None);
    if IsLeader(s3, s3.view) {
      ExtendsTransitive(s3, s4, GenerateProposal(s4, Some(tc)).state);
    }
  }

  /** A timeout that completes a certificate takes the replica past the timed-out view, unless the replica
      lags behind that view, and the certificate is sent. */
  lemma CompletedTcAdvances(s: State, t: Timeout, tc: TC)
    requires WellFormed(s) && s.view <= t.view && CheckTimeout(t, s.authorities).Ok?
    requires TallyTimeout(s.timeouts, t, |s.authorities|).1 == Ok(Some(tc))
    ensures HandleQc(s, t.highQc).view >= t.view ==> HandleTimeout(s, t).state.view > t.view
    ensures exists at :: Sent(at, TcMsg(tc)) in HandleTimeout(s, t).state.trace
  {
    hide HandleTimeout, CheckTimeout, TallyTimeout;
    var s3 := CompletedTc(s, t, tc);
    TalliedView(s.timeouts, t, |s.authorities|, tc);
    assert s3.trace[|s.trace|] == Sent(s3.view, TcMsg(tc));
    assert HandleTimeout(s, t).state.trace[|s.trace|] == s3.trace[|s.trace|];
  }

  // ---------- Monotonicity ----------

  lemma ExtendsReflexive(s: State)
    ensures Extends(s, s)
  {
  }

  lemma LocalExtends(c: Config, sys: System, a: Action)
    requires Enabled(c, sys, a)
    ensures forall id :: id in sys ==> Extends(sys[id], Apply(c, sys, a)[id])
  {
    forall id | id in sys ensures Extends(sys[id], Apply(c, sys, a)[id]) {
      ExtendsReflexive(sys[id]);
    }
  }

  lemma {:induction false} RunPrefix(c: Config, init: System, run: seq<Action>, k: nat)
    requires CanRun(c, init, run) && k <= |run|
    ensures CanRun(c, init, run[..k])
    decreases |run|
  {
    if k < |run| {
      assert run[..|run| - 1][..k] == run[..k];
      RunPrefix(c, init, run[..|run| - 1], k);
    } else {
      assert run[..k] == run;
    }
  }

  /** Along a run no replica's view, last voted view or highest certificate goes back, nothing is removed
      from its store, and what it did stays done. */
  lemma {:induction false} RunExtends(c: Config, init: System, run: seq<Action>, k: nat, id: AuthorityId)
    requires CanRun(c, init, run) && k <= |run| && id in init
    ensures CanRun(c, init, run[..k])
    ensures id in After(c, init, run[..k]) && id in After(c, init, run)
    ensures Extends(After(c, init, run[..k])[id], After(c, init, run)[id])
    decreases |run|
  {
    hide Extends, Apply;
    RunPrefix(c, init, run, k);
    if k == |run| {
      assert run[..k] == run;
      RunKeys(c, init, run);
      ExtendsReflexive(After(c, init, run)[id]);
    } else {
      var j := |run| - 1;
      assert run[..j][..k] == run[..k];
      RunExtends(c, init, run[..j], k, id);
      var sys := After(c, init, run[..j]);
      LocalExtends(c, sys, run[j]);
      RunKeys(c, init, run);
      ExtendsTransitive(After(c, init, run[..k])[id], sys[id], After(c, init, run)[id]);
    }
  }

  lemma {:induction false} RunKeys(c: Config, init: System, run: seq<Action>)
    requires CanRun(c, init, run)
    ensures After(c, init, run).Keys == init.Keys
  {
    if run != [] {
      RunKeys(c, init, run[..|run| - 1]);
    }
  }

  lemma LocalBound(s: State, a: Action)
    requires WellFormed(s)
    ensures Local(s, a).view <= s.view + 3
  {
    hide HandleLocalTimer, Handle, VoteCount, ProposalCount, Extends;
    match a
    case Timer(_) => TimerReaction(s);
    case Deliver(_, m) => BoundedReaction(s, m);
    case Chain(_, _, _) =>
  }

  /** Views grow at most three at a time, so 64-bit views do not overflow within 2 to the power 62 events. */
  lemma {:induction false} ViewsBounded(c: Config, init: System, run: seq<Action>, id: AuthorityId)
    requires CanRun(c, init, run) && id in init
    ensures id in After(c, init, run) && After(c, init, run)[id].view <= 3 * |run|
  {
    hide Local;
    RunKeys(c, init, run);
    if run != [] {
      var k := |run| - 1;
      ViewsBounded(c, init, run[..k], id);
      LocalBound(After(c, init, run[..k])[run[k].id], run[k]);
    }
  }

  // ---------- Emission ----------

  lemma SentEvent(c: Config, base: set<Signature>, s: State, i: int)
    requires Inv(c, base, s) && 0 <= i < |s.trace|
    ensures GoodEvent(c, base + Made(s.me.value, s.trace[..i]), s.me.value, s.trace[i])
    ensures Signatures(s.me.value, s.trace[i]) <= Made(s.me.value, s.trace)
  {
    hide Sound, Discipline;
    forall signature | signature in Signatures(s.me.value, s.trace[i]) ensures signature in Made(s.me.value, s.trace) {
      MadeAt(s.me.value, s.trace, signature);
    }
  }

  lemma HighQcAuthentic(c: Config, known: set<Signature>, qc: QC)
    requires GoodHighQc(c, known, qc)
    ensures AuthenticQc(c, known, qc)
  {
    if qc != DEFAULT_QC {
      var bs := QcBallots(qc);
      CheckMeaning(bs, |c.authorities|);
      forall i | 0 <= i < |qc.votes| ensures Authentic(c, known, qc.votes[i].1) {
        assert Valid(bs[i]);
      }
    }
  }

  /** A message the replica can send, given the signatures in circulation. */
  ghost predicate Deliverable(c: Config, known: set<Signature>, m: Message) {
    && AuthenticMessage(c, known, m)
    && !m.SyncRequest?
    && (m.Propose? ==> c.authorities != [] && m.proposal.author == Leader(c.authorities, m.proposal.view) &&
                       CheckProposal(m.proposal, c.authorities).Ok?)
    && (m.VoteMsg? ==> CheckVote(m.vote, c.authorities).Ok?)
    && (m.TimeoutMsg? ==> CheckTimeout(m.timeout, c.authorities).Ok?)
  }

  lemma EventDeliverable(c: Config, known: set<Signature>, me: AuthorityId, at: View, m: Message)
    requires c.authorities != [] && me in Honest(c) && GoodEvent(c, known, me, Sent(at, m))
    requires Signatures(me, Sent(at, m)) <= known
    ensures Deliverable(c, known, m)
  {
    match m
    case Propose(p) => HighQcAuthentic(c, known, p.qc);
    case TimeoutMsg(t) => HighQcAuthentic(c, known, t.highQc);
    case _ =>
  }

  /** Every proposal, vote and timeout an honest replica sends can be delivered to, and passes the
      verification of, every honest receiver. */
  lemma EmissionComplete(c: Config, sys: System, id: AuthorityId, at: View, m: Message, receiver: AuthorityId)
    requires Reachable(c, sys) && id in sys && receiver in sys && Sent(at, m) in sys[id].trace
    ensures AuthenticMessage(c, Signed(sys), m)
    ensures sys[receiver].authorities == c.authorities && c.authorities != []
    ensures m.Propose? ==> ProposalVerdict(sys[receiver], m.proposal).Ok?
    ensures m.VoteMsg? ==> CheckVote(m.vote, sys[receiver].authorities).Ok?
    ensures m.TimeoutMsg? ==> CheckTimeout(m.timeout, sys[receiver].authorities).Ok?
    ensures !m.SyncRequest?
  {
    hide Reachable, Sound, Discipline, GoodTrace, Descent, GoodEvent, AuthenticMessage;
    ReachableInv(c, sys);
    var base := SignedByOthers(sys, id);
    var i :| 0 <= i < |sys[id].trace| && sys[id].trace[i] == Sent(at, m);
    SentEvent(c, base, sys[id], i);
    KnownIsSigned(c, sys, id);
    MadeGrows(id, sys[id].trace[..i], sys[id].trace);
    EventGrows(c, base + Made(id, sys[id].trace[..i]), Signed(sys), id, Sent(at, m));
    EventDeliverable(c, Signed(sys), id, at, m);
  }

  /** A timeout certificate an honest replica assembles and sends is accepted by the others if and only if
      each timeout in it was signed over a highest certificate of the timed-out view itself. */
  lemma SentTcAccepted(c: Config, sys: System, id: AuthorityId, at: View, tc: TC)
    requires Reachable(c, sys) && id in sys && Sent(at, TcMsg(tc)) in sys[id].trace
    ensures forall i :: 0 <= i < |tc.votes| ==> tc.votes[i].1.Sig? && tc.votes[i].1.digest.TimeoutHash?
    ensures CheckTc(tc, c.authorities).Ok? <==>
            forall i :: 0 <= i < |tc.votes| ==> tc.votes[i].1.digest.qcView == tc.view
  {
    hide Reachable, Sound, Discipline, GoodTrace, Descent, CheckTc, Made;
    ReachableInv(c, sys);
    var i :| 0 <= i < |sys[id].trace| && sys[id].trace[i] == Sent(at, TcMsg(tc));
    SentEvent(c, SignedByOthers(sys, id), sys[id], i);
    AssembledTcAccepted(c, SignedByOthers(sys, id) + Made(id, sys[id].trace[..i]), tc);
  }

  lemma AssembledTcAccepted(c: Config, known: set<Signature>, tc: TC)
    requires AssembledTc(c, known, tc)
    ensures CheckTc(tc, c.authorities).Ok? <==>
            forall i :: 0 <= i < |tc.votes| ==> tc.votes[i].1.digest.qcView == tc.view
  {
    var bs := TcBallots(tc);
    CheckMeaning(bs, |c.authorities|);
    assert forall i :: 0 <= i < |bs| ==> (Valid(bs[i]) <==> tc.votes[i].1.digest.qcView == tc.view);
  }
}
