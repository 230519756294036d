/** What every event does for good: what a replica signs or sends is followed through before the event ends, and
    nothing it has collected, stored or finalised is lost.

    `Settles` relates the states before and after a handler.  It is transitive, so it is proved handler by handler,
    through all nested calls. */
module Progress {
  import opened Types
  import opened Certificates
  import opened Aggregation
  import opened Replica
  import opened Trust
  import opened Protocol
  import opened Steps

  // ---------- What is kept ----------

  predicate CalledAt(trace: seq<Event>, i: int, hash: Digest) {
    0 <= i < |trace| && trace[i].FinalizeCalled? && trace[i].grandpa.payload.blockHash == hash
  }

  /** The replica has asked its client to finalise the block. */
  ghost predicate Called(trace: seq<Event>, hash: Digest) {
    exists i :: CalledAt(trace, i, hash)
  }

  ghost predicate Raised(s: State, s': State) {
    var client := s'.client;
    && Called(s'.trace, client.finalizedHash)
    && client.finalizedHash in client.known && client.known[client.finalizedHash] == client.finalizedNumber
    && client.finalizedNumber > s.client.finalizedNumber
  }

  /** The client's finalised block stays the same or becomes a higher one, known to the client, that the replica
      asked for. */
  ghost predicate ClientFollows(s: State, s': State) {
    && s'.client.known == s.client.known && s'.client.failing == s.client.failing
    && (s'.client == s.client || Raised(s, s'))
  }

  /** The replica's highest certificate is at least as high as that of the proposal, or that one is of a view the
      replica has left. */
  predicate Adopted(s: State, p: Proposal) {
    p.qc.view <= s.highQc.view || p.qc.view < s.view
  }

  ghost predicate StoreFollows(s: State, s': State) {
    forall d :: d in s'.store ==> (d in s.store && s.store[d] == s'.store[d]) || Adopted(s', s'.store[d])
  }

  predicate VoteCounted(b: VoteBuckets, view: View, digest: Digest, id: AuthorityId) {
    HasVoted(QcMakerAt(b, view, digest).votes, id)
  }

  predicate TimeoutCounted(b: TimeoutBuckets, view: View, id: AuthorityId) {
    HasTimedOut(TcMakerAt(b, view).votes, id)
  }

  ghost predicate TalliesKept(s: State, s': State) {
    && (forall view, digest, id :: VoteCounted(s.votes, view, digest, id) ==> VoteCounted(s'.votes, view, digest, id))
    && (forall view, id :: TimeoutCounted(s.timeouts, view, id) ==> TimeoutCounted(s'.timeouts, view, id))
  }

  ghost predicate Keeps(s: State, s': State) {
    Extends(s, s') && ClientFollows(s, s') && StoreFollows(s, s') && TalliesKept(s, s')
  }

  // ---------- What is followed through ----------

  /** A vote was counted by the replica itself if it leads the next view, and sent otherwise. */
  ghost predicate PassedOn(s: State, p: Proposal)
    requires WellFormed(s) && s.me.Some?
  {
    var vote := VoteFor(s.me.value, p);
    if IsLeader(s, p.view + 1) then VoteCounted(s.votes, p.view, VoteDigest(vote), s.me.value)
    else Sent(p.view, VoteMsg(vote)) in s.trace
  }

  /** A proposal was stored, or its block asked for if the client does not know it. */
  ghost predicate Taken(s: State, p: Proposal)
    requires WellFormed(s)
  {
    && (UnknownBlock(s, p) ==> SyncRequested(p.payload) in s.trace)
    && (BlockAvailable(s, p) && ProposalVerdict(s, p).Ok? ==> ProposalDigest(p) in s.store)
  }

  ghost predicate Settled(s: State, e: Event)
    requires WellFormed(s)
  {
    match e
    case Voted(at, p) =>
      && s.me.Some? && at == p.view && BlockAvailable(s, p) && ProposalVerdict(s, p).Ok?
      && ProposalDigest(p) in s.store && PassedOn(s, p)
    case Sent(_, Propose(p)) => Taken(s, p)
    case Sent(_, TimeoutMsg(t)) => CheckTimeout(t, s.authorities).Ok? ==> TimeoutCounted(s.timeouts, t.view, t.voter)
    case Sent(_, _) => true
    case SyncRequested(payload) =>
      payload.blockHash != EMPTY_PAYLOAD && payload.blockHash !in s.client.known && payload.blockHash !in s.client.failing
    case FinalizeCalled(_, _, grandpa) =>
      var hash := grandpa.payload.blockHash;
      hash in s.client.known ==> s.client.known[hash] <= s.client.finalizedNumber
  }

  ghost predicate Settles(s: State, s': State) {
    && WellFormed(s) && Keeps(s, s')
    && forall i :: |s.trace| <= i < |s'.trace| ==> Settled(s', s'.trace[i])
  }

  // ---------- Composition ----------

  lemma CalledStays(trace: seq<Event>, trace': seq<Event>, hash: Digest)
    requires trace <= trace' && Called(trace, hash)
    ensures Called(trace', hash)
  {
    var i :| CalledAt(trace, i, hash);
    assert CalledAt(trace', i, hash);
  }

  lemma ClientFollowsOn(a: State, b: State, c: State)
    requires ClientFollows(a, b) && ClientFollows(b, c) && b.trace <= c.trace
    ensures ClientFollows(a, c)
  {
    hide Called;
    if c.client == b.client && b.client != a.client {
      CalledStays(b.trace, c.trace, b.client.finalizedHash);
    }
  }

  lemma KeepsOn(a: State, b: State, c: State)
    requires Keeps(a, b) && Keeps(b, c)
    ensures Keeps(a, c)
  {
    hide ClientFollows, VoteCounted, TimeoutCounted;
    ClientFollowsOn(a, b, c);
    assert TalliesKept(a, c) by { hide Extends, StoreFollows; }
    assert Extends(a, c) && StoreFollows(a, c) by { hide TalliesKept; }
  }

  lemma SettledStays(s: State, s': State, e: Event)
    requires WellFormed(s) && Keeps(s, s') && Settled(s, e)
    ensures Settled(s', e)
  {
    hide Called, VoteCounted, TimeoutCounted, CheckTimeout, CheckProposal, StoreFollows;
  }

  lemma SettlesOn(a: State, b: State, c: State)
    requires Settles(a, b) && Settles(b, c)
    ensures Settles(a, c)
  {
    assert WellFormed(b) && b.trace <= c.trace by { hide ClientFollows, StoreFollows, TalliesKept, Settled; }
    KeepsOn(a, b, c);
    hide Keeps, Settled;
    forall i | |a.trace| <= i < |c.trace| ensures Settled(c, c.trace[i]) {
      if i < |b.trace| {
        SettledStays(b, c, b.trace[i]);
      }
    }
  }

  /** An event that is settled by what follows it. */
  lemma SettlesAfter(s: State, s1: State, s2: State, e: Event)
    requires WellFormed(s) && Keeps(s, s1) && s1.trace == s.trace + [e] && Settles(s1, s2) && Settled(s2, e)
    ensures Settles(s, s2)
  {
    assert s1.trace <= s2.trace by { hide ClientFollows, StoreFollows, TalliesKept, Settled; }
    KeepsOn(s, s1, s2);
    hide Keeps, Settled;
    assert s2.trace[|s.trace|] == e;
  }

  lemma KeepsSame(s: State, s': State)
    requires Extends(s, s') && s'.client == s.client && s'.store == s.store && s'.votes == s.votes && s'.timeouts == s.timeouts
    ensures Keeps(s, s')
  {
  }

  lemma SettlesSame(s: State, s': State)
    requires WellFormed(s) && Extends(s, s') && s'.trace == s.trace
    requires s'.client == s.client && s'.store == s.store && s'.votes == s.votes && s'.timeouts == s.timeouts
    ensures Settles(s, s')
  {
    KeepsSame(s, s');
  }

  // ---------- Tallies ----------

  lemma VoteTallyKeeps(b: VoteBuckets, vote: Vote, n: nat)
    ensures var b' := TallyVote(b, vote, n).0;
            && (forall view, digest, id :: VoteCounted(b, view, digest, id) ==> VoteCounted(b', view, digest, id))
            && (vote.signature.Some? ==> VoteCounted(b', vote.view, VoteDigest(vote), vote.voter))
  {
    var b' := TallyVote(b, vote, n).0;
    var m, m' := QcMakerAt(b, vote.view, VoteDigest(vote)), QcMakerAt(b', vote.view, VoteDigest(vote));
    assert m' == AppendVote(m, vote, n).0;
    forall view, digest, id | VoteCounted(b, view, digest, id) ensures VoteCounted(b', view, digest, id) {
      var votes := QcMakerAt(b, view, digest).votes;
      var i :| 0 <= i < |votes| && votes[i].0 == id;
      assert QcMakerAt(b', view, digest).votes[i].0 == id;
    }
    if vote.signature.Some? && !HasVoted(m.votes, vote.voter) {
      assert m'.votes[|m.votes|].0 == vote.voter;
    }
  }

  lemma TimeoutTallyKeeps(b: TimeoutBuckets, t: Timeout, n: nat)
    ensures var b' := TallyTimeout(b, t, n).0;
            && (forall view, id :: TimeoutCounted(b, view, id) ==> TimeoutCounted(b', view, id))
            && (t.signature.Some? ==> TimeoutCounted(b', t.view, t.voter))
  {
    var b' := TallyTimeout(b, t, n).0;
    var m, m' := TcMakerAt(b, t.view), TcMakerAt(b', t.view);
    assert m' == AppendTimeout(m, t, n).0;
    forall view, id | TimeoutCounted(b, view, id) ensures TimeoutCounted(b', view, id) {
      var votes := TcMakerAt(b, view).votes;
      var i :| 0 <= i < |votes| && votes[i].0 == id;
      assert TcMakerAt(b', view).votes[i].0 == id;
    }
    if t.signature.Some? && !HasTimedOut(m.votes, t.voter) {
      assert m'.votes[|m.votes|].0 == t.voter;
    }
  }

  lemma VoteTallySettles(s: State, vote: Vote)
    requires WellFormed(s)
    ensures var s' := s.(votes := TallyVote(s.votes, vote, |s.authorities|).0);
            && Settles(s, s')
            && (vote.signature.Some? ==> VoteCounted(s'.votes, vote.view, VoteDigest(vote), vote.voter))
  {
    hide TallyVote, VoteCounted, TimeoutCounted;
    VoteTallyKeeps(s.votes, vote, |s.authorities|);
  }

  lemma TimeoutTallySettles(s: State, t: Timeout)
    requires WellFormed(s)
    ensures var s' := s.(timeouts := TallyTimeout(s.timeouts, t, |s.authorities|).0);
            && Settles(s, s')
            && (t.signature.Some? ==> TimeoutCounted(s'.timeouts, t.view, t.voter))
  {
    hide TallyTimeout, VoteCounted, TimeoutCounted;
    TimeoutTallyKeeps(s.timeouts, t, |s.authorities|);
  }

  // ---------- Proposals ----------

  /** A certificate of the current view or a higher one becomes the highest unless a higher one is known. */
  lemma HandleQcSettles(s: State, qc: QC)
    requires WellFormed(s)
    ensures Settles(s, HandleQc(s, qc))
    ensures qc.view <= HandleQc(s, qc).highQc.view || qc.view < HandleQc(s, qc).view
  {
    SettlesSame(s, HandleQc(s, qc));
  }

  lemma SaveSettles(s: State, p: Proposal)
    requires WellFormed(s) && Adopted(s, p)
    ensures Settles(s, Save(s, p)) && ProposalDigest(p) in Save(s, p).store
  {
    hide Called, VoteCounted, TimeoutCounted, Settled;
  }

  lemma TryFinalizeSettles(s: State, p: Proposal)
    requires WellFormed(s)
    ensures Settles(s, TryFinalize(s, p)) && TryFinalize(s, p).store == s.store
  {
    hide Extends, Ancestors, VoteCounted, TimeoutCounted;
    var s' := TryFinalize(s, p);
    if s'.trace == s.trace {
      assert s' == s;
      KeepsItself(s);
    } else {
      var e := s'.trace[|s.trace|];
      assert s'.trace == s.trace + [e];
      if s'.client != s.client {
        assert CalledAt(s'.trace, |s.trace|, s'.client.finalizedHash);
      }
      assert Settled(s', e) by { FinalizedSettled(s, p, e); }
    }
  }

  lemma KeepsItself(s: State)
    ensures Keeps(s, s)
  {
  }

  lemma FinalizedSettled(s: State, p: Proposal, e: Event)
    requires WellFormed(s) && TryFinalize(s, p).trace == s.trace + [e]
    ensures WellFormed(TryFinalize(s, p)) && Settled(TryFinalize(s, p), e)
  {
    hide Ancestors;
    assert (s.trace + [e])[|s.trace|] == e;
  }

  lemma AcceptSettles(s: State, p: Proposal)
    requires WellFormed(s)
    ensures Settles(s, Accept(s, p)) && ProposalDigest(p) in Accept(s, p).store
  {
    var s1 := HandleQc(s, p.qc);
    HandleQcSettles(s, p.qc);
    hide Settles, HandleQc, TryFinalize;
    SaveSettles(s1, p);
    var s2 := Save(s1, p);
    SettlesOn(s, s1, s2);
    TryFinalizeSettles(s2, p);
    SettlesOn(s, s2, TryFinalize(s2, p));
  }

  // ---------- Handlers ----------

  lemma AvailableStays(s: State, s': State, p: Proposal)
    requires WellFormed(s) && Keeps(s, s')
    ensures WellFormed(s') && (BlockAvailable(s', p) <==> BlockAvailable(s, p)) && (UnknownBlock(s', p) <==> UnknownBlock(s, p))
    ensures ProposalVerdict(s', p) == ProposalVerdict(s, p) && s.store.Keys <= s'.store.Keys
  {
    hide StoreFollows, TalliesKept, Called;
  }

  /** A proposal is stored, or its block asked for, whatever else its handling leads to. */
  lemma {:induction false} HandleProposalSettles(s: State, p: Proposal)
    requires WellFormed(s)
    ensures var s' := HandleProposal(s, p).state; Settles(s, s') && WellFormed(s') && Taken(s', p)
    decreases if IsLeader(s, p.view) then 0 else 2, 2
  {
    hide VoteOn, Accept, ProposalVerdict, Leader, Settles, Keeps;
    var s' := HandleProposal(s, p).state;
    if UnknownBlock(s, p) {
      var e := SyncRequested(p.payload);
      KeepsSame(s, s');
      SettlesSame(s', s');
      assert s'.trace[|s.trace|] == e;
      assert Settled(s', e);
      SettlesAfter(s, s', s', e);
    } else if !FailedBlock(s, p) && ProposalVerdict(s, p).Ok? {
      var s1 := Accept(s, p);
      AcceptSettles(s, p);
      SettlesMeans(s, s1);
      AvailableStays(s, s1, p);
      VoteOnSettles(s1, p);
      SettlesOn(s, s1, VoteOn(s1, p).state);
      SettlesMeans(s1, s');
      AvailableStays(s1, s', p);
    } else {
      SettlesSame(s, s');
    }
  }

  lemma SettlesMeans(s: State, s': State)
    requires Settles(s, s')
    ensures Keeps(s, s') && WellFormed(s') && Extends(s, s')
  {
    hide Settled, ClientFollows, StoreFollows, TalliesKept;
  }

  lemma {:induction false} VoteOnSettles(s: State, p: Proposal)
    requires WellFormed(s) && BlockAvailable(s, p) && ProposalVerdict(s, p).Ok? && ProposalDigest(p) in s.store
    ensures Settles(s, VoteOn(s, p).state)
    decreases if IsLeader(s, p.view) then 0 else 2, 1
  {
    hide PassOnVote, ProposalVerdict, Leader, Settles, Keeps, Settled;
    if p.view == s.view && MayVote(s, p) {
      var s1 := CastVote(s, p);
      var s2 := PassOnVote(s1, p).state;
      KeepsSame(s, s1);
      AvailableStays(s, s1, p);
      PassOnVoteSettles(s1, p);
      assert VoteOn(s, p).state == s2;
      SettlesAfter(s, s1, s2, Voted(s.view, p));
    } else {
      SettlesSame(s, s);
    }
  }

  lemma {:induction false} PassOnVoteSettles(s: State, p: Proposal)
    requires WellFormed(s) && s.me.Some? && s.view == p.view
    requires BlockAvailable(s, p) && ProposalVerdict(s, p).Ok? && ProposalDigest(p) in s.store
    ensures var s' := PassOnVote(s, p).state;
            Settles(s, s') && WellFormed(s') && Settled(s', Voted(p.view, p))
    decreases if IsLeader(s, p.view) then 0 else 2, 0
  {
    hide HandleVote, ProposalVerdict, Settles, Keeps, VoteCounted;
    var vote := VoteFor(s.me.value, p);
    var s' := PassOnVote(s, p).state;
    if IsLeader(s, s.view + 1) {
      ConsecutiveLeaders(s.authorities, s.view);
      assert s.me.value in s.authorities;
      HandleVoteSettles(s, vote);
    } else {
      var e := Sent(s.view, VoteMsg(vote));
      KeepsSame(s, s');
      SettlesSame(s', s');
      assert s'.trace[|s.trace|] == e;
      SettlesAfter(s, s', s', e);
    }
    SettlesMeans(s, s');
    AvailableStays(s, s', p);
  }

  /** A vote that passes verification is counted, whatever else its handling leads to. */
  lemma {:induction false} HandleVoteSettles(s: State, vote: Vote)
    requires WellFormed(s)
    ensures var s' := HandleVote(s, vote).state;
            && Settles(s, s')
            && (VoteVerdict(s, vote).Ok? ==> VoteCounted(s'.votes, vote.view, VoteDigest(vote), vote.voter))
    decreases 1, 1
  {
    hide ProposeOnQc, Leader, TallyVote, HandleQc, Settles, Keeps, VoteCounted;
    if VoteVerdict(s, vote).Ok? {
      var (votes, reply) := TallyVote(s.votes, vote, |s.authorities|);
      var s1 := s.(votes := votes);
      VoteTallySettles(s, vote);
      if reply.Ok? && reply.value.Some? {
        var s2 := HandleQc(s1, reply.value.value);
        HandleQcSettles(s1, reply.value.value);
        SettlesOn(s, s1, s2);
        ProposeOnQcSettles(s2);
        SettlesOn(s, s2, ProposeOnQc(s2).state);
        CountedStays(s2, ProposeOnQc(s2).state, vote);
      }
    } else {
      SettlesSame(s, s);
    }
  }

  lemma CountedStays(s: State, s': State, vote: Vote)
    requires Settles(s, s') && VoteCounted(s.votes, vote.view, VoteDigest(vote), vote.voter)
    ensures VoteCounted(s'.votes, vote.view, VoteDigest(vote), vote.voter)
  {
    hide Settled, ClientFollows, StoreFollows, Extends, VoteCounted;
  }

  /** A leader handles each proposal it sends. */
  lemma {:induction false} OwnProposalSettles(s: State, p: Proposal)
    requires WellFormed(s) && IsLeader(s, p.view)
    ensures Settles(s, HandleProposal(Log(s, Sent(s.view, Propose(p))), p).state)
    decreases 0, 3
  {
    hide HandleProposal, Settles, Keeps, Leader, Taken;
    var e := Sent(s.view, Propose(p));
    var s1 := Log(s, e);
    KeepsSame(s, s1);
    HandleProposalSettles(s1, p);
    SettlesAfter(s, s1, HandleProposal(s1, p).state, e);
  }

  lemma {:induction false} ProposeOnQcSettles(s: State)
    requires WellFormed(s)
    ensures Settles(s, ProposeOnQc(s).state)
    decreases 1, 0
  {
    hide HandleProposal, Leader, ProposalPayload, Settles, Keeps;
    var (s1, choice) := ProposalPayload(s);
    if IsLeader(s, s.view) && choice.Some? && !(choice.value.blockHash == EMPTY_PAYLOAD && TwoTrailingEmpty(s1.hashQueue)) {
      var kept := if |s1.hashQueue| > 3 then [] else s1.hashQueue;
      var s2 := s1.(hashQueue := kept + [choice.value.blockHash]);
      var p := MakeProposal(s2, choice.value, None).value;
      SettlesSame(s, s2);
      OwnProposalSettles(s2, p);
      SettlesOn(s, s2, HandleProposal(Log(s2, Sent(s2.view, Propose(p))), p).state);
    } else {
      SettlesSame(s, ProposeOnQc(s).state);
    }
  }

  lemma GenerateSettles(s: State, tc: Option<TC>)
    requires WellFormed(s) && IsLeader(s, s.view)
    ensures Settles(s, GenerateProposal(s, tc).state)
  {
    hide HandleProposal, Leader, ProposalPayload, Settles, Keeps;
    var (s1, choice) := ProposalPayload(s);
    SettlesSame(s, s1);
    if choice.Some? {
      var p := MakeProposal(s1, choice.value, tc).value;
      OwnProposalSettles(s1, p);
      SettlesOn(s, s1, HandleProposal(Log(s1, Sent(s1.view, Propose(p))), p).state);
    }
  }

  lemma UseOwnTcSettles(s: State, tc: TC)
    requires WellFormed(s)
    ensures Settles(s, UseOwnTc(s, tc)) && UseOwnTc(s, tc).timeouts == s.timeouts
  {
    hide Settles, Keeps;
    var s' := UseOwnTc(s, tc);
    var e := Sent(s'.view, TcMsg(tc));
    KeepsSame(s, s');
    SettlesSame(s', s');
    assert s'.trace == s.trace + [e];
    SettlesAfter(s, s', s', e);
  }

  /** A timeout that is not old and passes verification is counted, whatever else its handling leads to. */
  lemma HandleTimeoutSettles(s: State, t: Timeout)
    requires WellFormed(s)
    ensures var s' := HandleTimeout(s, t).state;
            && Settles(s, s')
            && (s.view <= t.view && CheckTimeout(t, s.authorities).Ok? ==> TimeoutCounted(s'.timeouts, t.view, t.voter))
  {
    hide GenerateProposal, Leader, TallyTimeout, HandleQc, Settles, Keeps, TimeoutCounted, UseOwnTc;
    if s.view <= t.view && CheckTimeout(t, s.authorities).Ok? {
      var s1 := HandleQc(s, t.highQc);
      HandleQcSettles(s, t.highQc);
      SettlesMeans(s, s1);
      var (timeouts, reply) := TallyTimeout(s1.timeouts, t, |s1.authorities|);
      var s2 := s1.(timeouts := timeouts);
      TimeoutTallySettles(s1, t);
      SettlesOn(s, s1, s2);
      if reply.Ok? && reply.value.Some? {
        CompletedTcSettles(s2, reply.value.value);
        var s3 := UseOwnTc(s2, reply.value.value);
        var s' := if IsLeader(s3, s3.view) then GenerateProposal(s3.(processing := None), Some(reply.value.value)).state else s3;
        SettlesOn(s, s2, s');
        TimeoutStaysCounted(s2, s', t);
      }
    } else {
      SettlesSame(s, s);
    }
  }

  lemma TimeoutStaysCounted(s: State, s': State, t: Timeout)
    requires Settles(s, s') && TimeoutCounted(s.timeouts, t.view, t.voter)
    ensures TimeoutCounted(s'.timeouts, t.view, t.voter)
  {
    hide Settled, ClientFollows, StoreFollows, Extends, TimeoutCounted;
  }

  lemma CompletedTcSettles(s: State, tc: TC)
    requires WellFormed(s)
    ensures var s1 := UseOwnTc(s, tc);
            && WellFormed(s1)
            && Settles(s, if IsLeader(s1, s1.view) then GenerateProposal(s1.(processing := None), Some(tc)).state else s1)
  {
    hide GenerateProposal, Leader, Settles, Keeps, UseOwnTc;
    var s1 := UseOwnTc(s, tc);
    UseOwnTcSettles(s, tc);
    SettlesMeans(s, s1);
    if IsLeader(s1, s1.view) {
      var s2 := s1.(processing := None);
      SettlesSame(s1, s2);
      SettlesOn(s, s1, s2);
      GenerateSettles(s2, Some(tc));
      SettlesOn(s, s2, GenerateProposal(s2, Some(tc)).state);
    }
  }

  /** Whatever the timer leads to is followed through: the replica counts its own timeout. */
  lemma HandleTimerSettles(s: State)
    requires WellFormed(s)
    ensures Settles(s, HandleLocalTimer(s).state)
  {
    hide HandleTimeout, Settles, Keeps, TimeoutCounted;
    var s1 := s.(lastVotedView := Max(s.lastVotedView, s.view));
    SettlesSame(s, s1);
    if MakeTimeout(s1).Ok? {
      var t := MakeTimeout(s1).value;
      var e := Sent(s1.view, TimeoutMsg(t));
      var s2 := Log(s1, e);
      KeepsSame(s1, s2);
      HandleTimeoutSettles(s2, t);
      var s' := HandleTimeout(s2, t).state;
      SettlesMeans(s2, s');
      SettlesAfter(s1, s2, s', e);
      SettlesOn(s, s1, s');
    }
  }

  lemma HandleTcSettles(s: State, tc: TC)
    requires WellFormed(s)
    ensures Settles(s, HandleTc(s, tc).state)
  {
    hide GenerateProposal, Leader, Settles, Keeps;
    SettlesSame(s, s);
    if TcVerdict(s, tc).Ok? {
      var s1 := AdvanceView(s, tc.view).(processing := None);
      SettlesSame(s, s1);
      if IsLeader(s1, s1.view) {
        GenerateSettles(s1, None);
        SettlesOn(s, s1, GenerateProposal(s1, None).state);
      }
    }
  }

  /** Whatever a message leads to is followed through, and nothing collected, stored or finalised is lost. */
  lemma HandleSettles(s: State, m: Message)
    requires WellFormed(s)
    ensures Settles(s, Handle(s, m).state)
  {
    hide HandleProposal, HandleVote, HandleTimeout, HandleTc, Settles;
    match m
    case Propose(p) => HandleProposalSettles(s, p);
    case VoteMsg(v) => HandleVoteSettles(s, v);
    case TimeoutMsg(t) => HandleTimeoutSettles(s, t);
    case TcMsg(tc) => HandleTcSettles(s, tc);
    case SyncRequest(_, _) => SettlesSame(s, s);
  }

  // ---------- Runs ----------

  /** What the replica stored was adopted, and what it voted for was stored and passed on. */
  ghost predicate FollowedThrough(s: State) {
    && WellFormed(s)
    && (forall d :: d in s.store ==> Adopted(s, s.store[d]))
    && (forall i :: 0 <= i < |s.trace| && s.trace[i].Voted? ==> VoteFollowed(s, s.trace[i].proposal))
  }

  ghost predicate VoteFollowed(s: State, p: Proposal)
    requires WellFormed(s)
  {
    s.me.Some? && ProposalVerdict(s, p).Ok? && ProposalDigest(p) in s.store && PassedOn(s, p)
  }

  lemma VoteFollowedStays(s: State, s': State, p: Proposal)
    requires WellFormed(s) && Keeps(s, s') && VoteFollowed(s, p)
    ensures WellFormed(s') && VoteFollowed(s', p)
  {
    hide ClientFollows, StoreFollows, VoteCounted, TimeoutCounted, CheckProposal;
  }

  lemma SettlesFollows(s: State, s': State)
    requires FollowedThrough(s) && Settles(s, s')
    ensures FollowedThrough(s')
  {
    SettlesMeans(s, s');
    assert forall d :: d in s'.store ==> Adopted(s', s'.store[d]) by { hide ClientFollows, TalliesKept, Settled, VoteFollowed; }
    hide Keeps, VoteFollowed;
    forall i | 0 <= i < |s'.trace| && s'.trace[i].Voted? ensures VoteFollowed(s', s'.trace[i].proposal) {
      if i < |s.trace| {
        assert s'.trace[i] == s.trace[i];
        VoteFollowedStays(s, s', s.trace[i].proposal);
      } else {
        SettledVote(s', s'.trace[i]);
      }
    }
  }

  lemma SettledVote(s: State, e: Event)
    requires WellFormed(s) && e.Voted? && Settled(s, e)
    ensures VoteFollowed(s, e.proposal)
  {
  }

  lemma LocalFollows(s: State, a: Action)
    requires FollowedThrough(s)
    ensures FollowedThrough(Local(s, a))
  {
    hide HandleLocalTimer, Handle, Settles, Keeps;
    match a
    case Timer(_) =>
      HandleTimerSettles(s);
      SettlesFollows(s, HandleLocalTimer(s).state);
    case Deliver(_, m) =>
      HandleSettles(s, m);
      SettlesFollows(s, Handle(s, m).state);
    case Chain(_, _, _) =>
  }

  lemma {:induction false} RunFollows(c: Config, init: System, run: seq<Action>, id: AuthorityId)
    requires CanRun(c, init, run) && id in After(c, init, run)
    ensures FollowedThrough(After(c, init, run)[id])
    decreases |run|
  {
    hide Local, Adopted, VoteFollowed;
    if run != [] {
      var k := |run| - 1;
      RunFollows(c, init, run[..k], id);
      if run[k].id == id {
        LocalFollows(After(c, init, run[..k])[id], run[k]);
      }
    }
  }

  /** In every reachable state, the certificate of each proposal a replica has stored is no higher than its highest
      one or of a view it has left; each proposal it voted for is stored, and the vote was counted if the replica
      leads the next view and sent otherwise. */
  lemma EverythingFollowed(c: Config, sys: System, id: AuthorityId)
    requires Reachable(c, sys) && id in sys
    ensures WellFormed(sys[id])
    ensures forall d :: d in sys[id].store ==>
              sys[id].store[d].qc.view <= sys[id].highQc.view || sys[id].store[d].qc.view < sys[id].view
    ensures forall at, p :: Voted(at, p) in sys[id].trace ==>
              && sys[id].me.Some? && ProposalDigest(p) in sys[id].store && PassedOn(sys[id], p)
  {
    hide CanRun, After, PassedOn, ProposalVerdict;
    var init, run :| CanRun(c, init, run) && After(c, init, run) == sys;
    RunFollows(c, init, run, id);
  }
}
