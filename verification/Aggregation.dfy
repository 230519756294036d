/** Collecting votes and timeouts until a certificate can be issued. */
module Aggregation {
  import opened Types
  import opened Certificates

  datatype QcMaker = QcMaker(weight: nat, votes: seq<(AuthorityId, Signature)>)
  datatype TcMaker = TcMaker(weight: nat, votes: seq<(AuthorityId, Signature, View)>)

  type VoteBuckets = map<View, map<Digest, QcMaker>>
  type TimeoutBuckets = map<View, TcMaker>

  function QcMakerAt(b: VoteBuckets, view: View, digest: Digest): QcMaker {
    if view in b && digest in b[view] then b[view][digest] else QcMaker(0, [])
  }

  function TcMakerAt(b: TimeoutBuckets, view: View): TcMaker {
    if view in b then b[view] else TcMaker(0, [])
  }

  predicate HasVoted(votes: seq<(AuthorityId, Signature)>, id: AuthorityId) {
    exists i :: 0 <= i < |votes| && votes[i].0 == id
  }

  predicate HasTimedOut(votes: seq<(AuthorityId, Signature, View)>, id: AuthorityId) {
    exists i :: 0 <= i < |votes| && votes[i].0 == id
  }

  // ---------- What one call does ----------

  function AppendVote(m: QcMaker, vote: Vote, n: nat): (QcMaker, Result<Option<QC>>) {
    if HasVoted(m.votes, vote.voter) then (m, Ok(None))
    else if vote.signature.None? then (m, Err(NullSignature))
    else
      var m' := QcMaker(m.weight + 1, m.votes + [(vote.voter, vote.signature.value)]);
      (m', Ok(if m'.weight < n * 2 / 3 + 1 then None else Some(QC(vote.proposalHash, vote.view, m'.votes))))
  }

  function TallyVote(b: VoteBuckets, vote: Vote, n: nat): (VoteBuckets, Result<Option<QC>>) {
    var (m, r) := AppendVote(QcMakerAt(b, vote.view, VoteDigest(vote)), vote, n);
    var inner := if vote.view in b then b[vote.view] else map[];
    (b[vote.view := inner[VoteDigest(vote) := m]], r)
  }

  function AppendTimeout(m: TcMaker, t: Timeout, n: nat): (TcMaker, Result<Option<TC>>) {
    if HasTimedOut(m.votes, t.voter) then (m, Ok(None))
    else if t.signature.None? then (m, Err(NullSignature))
    else
      var m' := TcMaker(m.weight + 1, m.votes + [(t.voter, t.signature.value, t.view)]);
      (m', Ok(if m'.weight < n * 2 / 3 + 1 then None else Some(TC(t.view, m'.votes))))
  }

  function TallyTimeout(b: TimeoutBuckets, t: Timeout, n: nat): (TimeoutBuckets, Result<Option<TC>>) {
    var (m, r) := AppendTimeout(TcMakerAt(b, t.view), t, n);
    (b[t.view := m], r)
  }

  class Aggregator {
    var votesAggregator: VoteBuckets
    var timeoutsAggregators: TimeoutBuckets

    constructor ()
      ensures votesAggregator == map[] && timeoutsAggregators == map[]
    {
      votesAggregator := map[];
      timeoutsAggregators := map[];
    }

    method AddVote(vote: Vote, authorities: seq<AuthorityId>) returns (r: Result<Option<QC>>)
      modifies this`votesAggregator
      ensures (votesAggregator, r) == TallyVote(old(votesAggregator), vote, |authorities|)
    {
      if vote.view !in votesAggregator {
        votesAggregator := votesAggregator[vote.view := map[]];
      }
      var inner := votesAggregator[vote.view];
      var key := VoteDigest(vote);
      if key !in inner {
        inner := inner[key := QcMaker(0, [])];
      }
      var maker := inner[key];
      r := Ok(None);
      if !HasVoted(maker.votes, vote.voter) {
        match vote.signature
        case None =>
          r := Err(NullSignature);
        case Some(signature) =>
          maker := maker.(votes := maker.votes + [(vote.voter, signature)]);
          maker := maker.(weight := maker.weight + 1);
          if maker.weight >= |authorities| * 2 / 3 + 1 {
            r := Ok(Some(QC(vote.proposalHash, vote.view, maker.votes)));
          }
      }
      votesAggregator := votesAggregator[vote.view := inner[key := maker]];
      ghost var expected := TallyVote(old(votesAggregator), vote, |authorities|).0;
      assert votesAggregator[vote.view] == expected[vote.view];
      assert votesAggregator == expected;
    }

    method AddTimeout(t: Timeout, authorities: seq<AuthorityId>) returns (r: Result<Option<TC>>)
      modifies this`timeoutsAggregators
      ensures (timeoutsAggregators, r) == TallyTimeout(old(timeoutsAggregators), t, |authorities|)
    {
      if t.view !in timeoutsAggregators {
        timeoutsAggregators := timeoutsAggregators[t.view := TcMaker(0, [])];
      }
      var maker := timeoutsAggregators[t.view];
      r := Ok(None);
      if !HasTimedOut(maker.votes, t.voter) {
        match t.signature
        case None =>
          r := Err(NullSignature);
        case Some(signature) =>
          maker := maker.(votes := maker.votes + [(t.voter, signature, t.view)]);
          maker := maker.(weight := maker.weight + 1);
          if maker.weight >= |authorities| * 2 / 3 + 1 {
            r := Ok(Some(TC(t.view, maker.votes)));
          }
      }
      timeoutsAggregators := timeoutsAggregators[t.view := maker];
      assert timeoutsAggregators == TallyTimeout(old(timeoutsAggregators), t, |authorities|).0;
    }
  }

  // ---------- Any sequence of calls ----------

  function VotesAfter(h: seq<Vote>, n: nat): VoteBuckets {
    if h == [] then map[] else TallyVote(VotesAfter(h[..|h| - 1], n), h[|h| - 1], n).0
  }

  function TimeoutsAfter(h: seq<Timeout>, n: nat): TimeoutBuckets {
    if h == [] then map[] else TallyTimeout(TimeoutsAfter(h[..|h| - 1], n), h[|h| - 1], n).0
  }

  /** A signed vote of the history with the given view and digest. */
  predicate SignedAt(h: seq<Vote>, i: int, view: View, digest: Digest) {
    0 <= i < |h| && h[i].view == view && VoteDigest(h[i]) == digest && h[i].signature.Some?
  }

  /** The first signed vote of its voter with the given view and digest. */
  predicate FirstAt(h: seq<Vote>, i: int, view: View, digest: Digest) {
    SignedAt(h, i, view, digest) &&
    forall j :: 0 <= j < i && SignedAt(h, j, view, digest) ==> h[j].voter != h[i].voter
  }

  /** The first-occurrence filter of the first `k` votes of the history. */
  function FirstVotes(h: seq<Vote>, k: nat, view: View, digest: Digest): seq<(AuthorityId, Signature)>
    requires k <= |h|
  {
    if k == 0 then []
    else FirstVotes(h, k - 1, view, digest) +
         if FirstAt(h, k - 1, view, digest) then [(h[k - 1].voter, h[k - 1].signature.value)] else []
  }

  lemma {:induction false} FirstVotesPrefix(h: seq<Vote>, h': seq<Vote>, k: nat, view: View, digest: Digest)
    requires k <= |h| <= |h'| && h == h'[..|h|]
    ensures FirstVotes(h, k, view, digest) == FirstVotes(h', k, view, digest)
  {
    if k > 0 {
      FirstVotesPrefix(h, h', k - 1, view, digest);
      assert h[k - 1] == h'[k - 1];
      assert forall j :: 0 <= j < k ==> (SignedAt(h, j, view, digest) <==> SignedAt(h', j, view, digest));
    }
  }

  lemma {:induction false} FirstVotesVoters(h: seq<Vote>, k: nat, view: View, digest: Digest, id: AuthorityId)
    requires k <= |h|
    ensures HasVoted(FirstVotes(h, k, view, digest), id) <==>
            exists j :: 0 <= j < k && SignedAt(h, j, view, digest) && h[j].voter == id
  {
    if k > 0 {
      var init := FirstVotes(h, k - 1, view, digest);
      FirstVotesVoters(h, k - 1, view, digest, id);
      var all := FirstVotes(h, k, view, digest);
      assert init == all[..|init|];
      assert HasVoted(all, id) <==> HasVoted(init, id) || (FirstAt(h, k - 1, view, digest) && h[k - 1].voter == id) by {
        if HasVoted(init, id) {
          var i :| 0 <= i < |init| && init[i].0 == id;
          assert all[i].0 == id;
        }
        if FirstAt(h, k - 1, view, digest) {
          assert all[|init|].0 == h[k - 1].voter;
        }
      }
    }
  }

  /** After any sequence of calls, a bucket holds the first signed vote of each voter, in order of
      arrival, and its weight is their number; unsigned votes leave no mark. */
  lemma {:induction false} BucketIsFirstVotes(h: seq<Vote>, n: nat, view: View, digest: Digest)
    ensures var votes := FirstVotes(h, |h|, view, digest);
            QcMakerAt(VotesAfter(h, n), view, digest) == QcMaker(|votes|, votes)
  {
    if h != [] {
      var k := |h| - 1;
      var last := h[k];
      BucketIsFirstVotes(h[..k], n, view, digest);
      FirstVotesPrefix(h[..k], h, k, view, digest);
      if last.view == view && VoteDigest(last) == digest {
        FirstVotesVoters(h, k, view, digest, last.voter);
      }
    }
  }

  /** The reply to the next call, in terms of the history alone: a certificate is returned on each
      new signed voter once the voters of the bucket number more than two thirds of `n`. */
  lemma {:induction false} AddVoteReply(h: seq<Vote>, vote: Vote, n: nat)
    ensures var digest := VoteDigest(vote);
            var votes := FirstVotes(h, |h|, vote.view, digest);
            TallyVote(VotesAfter(h, n), vote, n).1 ==
            if exists j :: SignedAt(h, j, vote.view, digest) && h[j].voter == vote.voter then Ok(None)
            else if vote.signature.None? then Err(NullSignature)
            else if |votes| + 1 <= n * 2 / 3 then Ok(None)
            else Ok(Some(QC(vote.proposalHash, vote.view, votes + [(vote.voter, vote.signature.value)])))
  {
    BucketIsFirstVotes(h, n, vote.view, VoteDigest(vote));
    FirstVotesVoters(h, |h|, vote.view, VoteDigest(vote), vote.voter);
  }

  lemma {:induction false} FirstVotesSound(h: seq<Vote>, k: nat, view: View, digest: Digest, authorities: seq<AuthorityId>)
    requires k <= |h|
    requires forall i :: 0 <= i < |h| ==> CheckVote(h[i], authorities).Ok?
    ensures var votes := FirstVotes(h, k, view, digest);
            && (forall i :: 0 <= i < |votes| ==> votes[i].0 in authorities && Verifies(votes[i].1, digest, votes[i].0))
            && (forall i, j :: 0 <= i < j < |votes| ==> votes[i].0 != votes[j].0)
  {
    if k > 0 {
      FirstVotesSound(h, k - 1, view, digest, authorities);
      FirstVotesVoters(h, k - 1, view, digest, h[k - 1].voter);
    }
  }

  /** Every certificate issued after any interleaving of verified votes passes certificate verification. */
  lemma {:induction false} QcRoundTrip(h: seq<Vote>, vote: Vote, authorities: seq<AuthorityId>, qc: QC)
    requires forall i :: 0 <= i < |h| ==> CheckVote(h[i], authorities).Ok?
    requires CheckVote(vote, authorities).Ok?
    requires TallyVote(VotesAfter(h, |authorities|), vote, |authorities|).1 == Ok(Some(qc))
    ensures CheckQc(qc, authorities).Ok?
    ensures forall i :: 0 <= i < |qc.votes| ==> qc.votes[i].0 in authorities
    ensures qc.proposalHash == vote.proposalHash && qc.view == vote.view
  {
    var digest := VoteDigest(vote);
    AddVoteReply(h, vote, |authorities|);
    FirstVotesSound(h, |h|, vote.view, digest, authorities);
    FirstVotesVoters(h, |h|, vote.view, digest, vote.voter);
    assert qc.votes == FirstVotes(h, |h|, vote.view, digest) + [(vote.voter, vote.signature.value)];
    var bs := QcBallots(qc);
    assert forall i :: 0 <= i < |bs| ==> bs[i].voter == qc.votes[i].0;
    assert forall i :: 0 <= i < |bs| ==> Valid(bs[i]);
    CheckMeaning(bs, |authorities|);
  }

  // ---------- Timeouts ----------

  predicate SignedTimeoutAt(h: seq<Timeout>, i: int, view: View) {
    0 <= i < |h| && h[i].view == view && h[i].signature.Some?
  }

  predicate FirstTimeoutAt(h: seq<Timeout>, i: int, view: View) {
    SignedTimeoutAt(h, i, view) &&
    forall j :: 0 <= j < i && SignedTimeoutAt(h, j, view) ==> h[j].voter != h[i].voter
  }

  function FirstTimeouts(h: seq<Timeout>, k: nat, view: View): seq<(AuthorityId, Signature, View)>
    requires k <= |h|
  {
    if k == 0 then []
    else FirstTimeouts(h, k - 1, view) +
         if FirstTimeoutAt(h, k - 1, view) then [(h[k - 1].voter, h[k - 1].signature.value, view)] else []
  }

  lemma {:induction false} FirstTimeoutsPrefix(h: seq<Timeout>, h': seq<Timeout>, k: nat, view: View)
    requires k <= |h| <= |h'| && h == h'[..|h|]
    ensures FirstTimeouts(h, k, view) == FirstTimeouts(h', k, view)
  {
    if k > 0 {
      FirstTimeoutsPrefix(h, h', k - 1, view);
      assert h[k - 1] == h'[k - 1];
      assert forall j :: 0 <= j < k ==> (SignedTimeoutAt(h, j, view) <==> SignedTimeoutAt(h', j, view));
    }
  }

  lemma {:induction false} FirstTimeoutsVoters(h: seq<Timeout>, k: nat, view: View, id: AuthorityId)
    requires k <= |h|
    ensures HasTimedOut(FirstTimeouts(h, k, view), id) <==>
            exists j :: 0 <= j < k && SignedTimeoutAt(h, j, view) && h[j].voter == id
  {
    if k > 0 {
      var init := FirstTimeouts(h, k - 1, view);
      FirstTimeoutsVoters(h, k - 1, view, id);
      var all := FirstTimeouts(h, k, view);
      assert init == all[..|init|];
      assert HasTimedOut(all, id) <==> HasTimedOut(init, id) || (FirstTimeoutAt(h, k - 1, view) && h[k - 1].voter == id) by {
        if HasTimedOut(init, id) {
          var i :| 0 <= i < |init| && init[i].0 == id;
          assert all[i].0 == id;
        }
        if FirstTimeoutAt(h, k - 1, view) {
          assert all[|init|].0 == h[k - 1].voter;
        }
      }
    }
  }

  lemma {:induction false} BucketIsFirstTimeouts(h: seq<Timeout>, n: nat, view: View)
    ensures var votes := FirstTimeouts(h, |h|, view);
            TcMakerAt(TimeoutsAfter(h, n), view) == TcMaker(|votes|, votes)
  {
    if h != [] {
      var k := |h| - 1;
      var last := h[k];
      BucketIsFirstTimeouts(h[..k], n, view);
      FirstTimeoutsPrefix(h[..k], h, k, view);
      if last.view == view {
        FirstTimeoutsVoters(h, k, view, last.voter);
      }
    }
  }

  lemma {:induction false} AddTimeoutReply(h: seq<Timeout>, t: Timeout, n: nat)
    ensures var votes := FirstTimeouts(h, |h|, t.view);
            TallyTimeout(TimeoutsAfter(h, n), t, n).1 ==
            if exists j :: SignedTimeoutAt(h, j, t.view) && h[j].voter == t.voter then Ok(None)
            else if t.signature.None? then Err(NullSignature)
            else if |votes| + 1 <= n * 2 / 3 then Ok(None)
            else Ok(Some(TC(t.view, votes + [(t.voter, t.signature.value, t.view)])))
  {
    BucketIsFirstTimeouts(h, n, t.view);
    FirstTimeoutsVoters(h, |h|, t.view, t.voter);
  }

  lemma {:induction false} FirstTimeoutsSound(h: seq<Timeout>, k: nat, view: View, authorities: seq<AuthorityId>)
    requires k <= |h|
    requires forall i :: 0 <= i < |h| ==> CheckTimeout(h[i], authorities).Ok?
    ensures var votes := FirstTimeouts(h, k, view);
            && (forall i :: 0 <= i < |votes| ==> votes[i].0 in authorities && votes[i].2 == view)
            && (forall i, j :: 0 <= i < j < |votes| ==> votes[i].0 != votes[j].0)
  {
    if k > 0 {
      FirstTimeoutsSound(h, k - 1, view, authorities);
      FirstTimeoutsVoters(h, k - 1, view, h[k - 1].voter);
    }
  }

  ghost predicate VerifiesIn(vote: (AuthorityId, Signature, View), view: View) {
    Verifies(vote.1, TimeoutHash(view, vote.2), vote.0)
  }

  /** A timeout's own view is recorded where the view of its highest certificate was signed, so its signature
      verifies exactly when the two are equal. */
  lemma {:induction false} FirstTimeoutsVerify(h: seq<Timeout>, k: nat, view: View, authorities: seq<AuthorityId>)
    requires k <= |h|
    requires forall i :: 0 <= i < |h| ==> CheckTimeout(h[i], authorities).Ok?
    ensures var votes := FirstTimeouts(h, k, view);
            (forall i :: 0 <= i < |votes| ==> VerifiesIn(votes[i], view)) <==>
            (forall i :: 0 <= i < k && FirstTimeoutAt(h, i, view) ==> h[i].highQc.view == view)
  {
    if k > 0 {
      FirstTimeoutsVerify(h, k - 1, view, authorities);
      var init, all := FirstTimeouts(h, k - 1, view), FirstTimeouts(h, k, view);
      assert forall i :: 0 <= i < |init| ==> all[i] == init[i];
      if FirstTimeoutAt(h, k - 1, view) {
        assert all[|init|] == (h[k - 1].voter, h[k - 1].signature.value, view);
        assert VerifiesIn(all[|init|], view) <==> h[k - 1].highQc.view == view;
      }
    }
  }

  /** A timeout certificate assembled from verified timeouts passes verification if and only if
      every timeout in it was signed by a replica whose highest certificate has the timeout's own view. */
  lemma {:induction false} TcRoundTrip(h: seq<Timeout>, t: Timeout, authorities: seq<AuthorityId>, tc: TC)
    requires forall i :: 0 <= i < |h| ==> CheckTimeout(h[i], authorities).Ok?
    requires CheckTimeout(t, authorities).Ok?
    requires TallyTimeout(TimeoutsAfter(h, |authorities|), t, |authorities|).1 == Ok(Some(tc))
    ensures CheckTc(tc, authorities).Ok? <==>
            t.highQc.view == t.view &&
            forall i :: FirstTimeoutAt(h, i, t.view) ==> h[i].highQc.view == h[i].view
    ensures tc.view == t.view
    ensures forall i :: 0 <= i < |tc.votes| ==> tc.votes[i].0 in authorities
  {
    hide FirstTimeouts, VerifiesIn, TallyTimeout, CheckTc, CheckTimeout;
    AddTimeoutReply(h, t, |authorities|);
    FirstTimeoutsSound(h, |h|, t.view, authorities);
    FirstTimeoutsVerify(h, |h|, t.view, authorities);
    FirstTimeoutsVoters(h, |h|, t.view, t.voter);
    var init, last := FirstTimeouts(h, |h|, t.view), (t.voter, t.signature.value, t.view);
    assert tc.votes == init + [last];
    TcCheckMeaning(tc, authorities);
    AppendVerified(init, last, t.view);
    TimeoutVerifies(t, authorities);
  }

  lemma TcCheckMeaning(tc: TC, authorities: seq<AuthorityId>)
    requires forall i, j :: 0 <= i < j < |tc.votes| ==> tc.votes[i].0 != tc.votes[j].0
    requires |tc.votes| > |authorities| * 2 / 3
    ensures CheckTc(tc, authorities).Ok? <==> forall i :: 0 <= i < |tc.votes| ==> VerifiesIn(tc.votes[i], tc.view)
  {
    var bs := TcBallots(tc);
    assert forall i :: 0 <= i < |bs| ==> bs[i].voter == tc.votes[i].0 && (Valid(bs[i]) <==> VerifiesIn(tc.votes[i], tc.view));
    CheckMeaning(bs, |authorities|);
  }

  lemma AppendVerified(init: seq<(AuthorityId, Signature, View)>, last: (AuthorityId, Signature, View), view: View)
    ensures (forall i :: 0 <= i < |init + [last]| ==> VerifiesIn((init + [last])[i], view)) <==>
            (forall i :: 0 <= i < |init| ==> VerifiesIn(init[i], view)) && VerifiesIn(last, view)
  {
    hide VerifiesIn;
    var all := init + [last];
    assert all[|init|] == last;
    assert forall i :: 0 <= i < |init| ==> init[i] == all[i];
  }

  lemma TimeoutVerifies(t: Timeout, authorities: seq<AuthorityId>)
    requires CheckTimeout(t, authorities).Ok?
    ensures t.voter in authorities && t.signature.Some?
    ensures VerifiesIn((t.voter, t.signature.value, t.view), t.view) <==> t.highQc.view == t.view
  {
  }

  /** The round trip is not unconditional: two authorities that time out of view 1 before any
      certificate exists assemble a certificate that fails verification. */
  lemma TcRoundTripFails() returns (authorities: seq<AuthorityId>, first: Timeout, second: Timeout, tc: TC)
    ensures authorities == [0, 1] && first.view == second.view == tc.view == 1
    ensures first.highQc == second.highQc == DEFAULT_QC
    ensures CheckTimeout(first, authorities).Ok? && CheckTimeout(second, authorities).Ok?
    ensures TallyTimeout(TimeoutsAfter([first], |authorities|), second, |authorities|).1 == Ok(Some(tc))
    ensures CheckTc(tc, authorities) == Err(InvalidSignature(0))
  {
    authorities := [0, 1];
    first := Timeout(DEFAULT_QC, 1, 0, Some(Sig(0, TimeoutHash(1, 0))));
    second := Timeout(DEFAULT_QC, 1, 1, Some(Sig(1, TimeoutHash(1, 0))));
    var h := [first];
    AddTimeoutReply(h, second, 2);
    assert FirstTimeoutAt(h, 0, 1);
    assert FirstTimeouts(h, 1, 1) == FirstTimeouts(h, 0, 1) + [(0, Sig(0, TimeoutHash(1, 0)), 1)];
    tc := TC(1, [(0, Sig(0, TimeoutHash(1, 0)), 1), (1, Sig(1, TimeoutHash(1, 0)), 1)]);
    assert tc.votes == FirstTimeouts(h, 1, 1) + [(second.voter, second.signature.value, 1)];
    var bs := TcBallots(tc);
    assert Distinct(bs) && InvalidAt(bs, 0) && bs[0].voter == 0;
    CheckMeaning(bs, 2);
  }
}
