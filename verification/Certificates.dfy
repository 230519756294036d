/** Verification of certificates and messages, and the arithmetic of quorums. */
module Certificates {
  import opened Types

  /** One entry of a certificate together with the digest its signature must cover. */
  datatype Ballot = Ballot(voter: AuthorityId, signature: Signature, digest: Digest)

  function Voters(bs: seq<Ballot>): set<AuthorityId> {
    set i | 0 <= i < |bs| :: bs[i].voter
  }

  ghost predicate Distinct(bs: seq<Ballot>) {
    forall i, j :: 0 <= i < j < |bs| ==> bs[i].voter != bs[j].voter
  }

  predicate Valid(b: Ballot) {
    Verifies(b.signature, b.digest, b.voter)
  }

  /** The first voter that had already appeared. */
  function FirstReuse(bs: seq<Ballot>): Option<AuthorityId> {
    if bs == [] then None
    else
      var init, last := bs[..|bs| - 1], bs[|bs| - 1];
      match FirstReuse(init)
      case Some(id) => Some(id)
      case None => if last.voter in Voters(init) then Some(last.voter) else None
  }

  /** The first voter whose signature does not verify. */
  function FirstInvalid(bs: seq<Ballot>): Option<AuthorityId> {
    if bs == [] then None
    else
      var init, last := bs[..|bs| - 1], bs[|bs| - 1];
      match FirstInvalid(init)
      case Some(id) => Some(id)
      case None => if Valid(last) then None else Some(last.voter)
  }

  /** The verdict on a certificate among `n` authorities: reuse is reported before a missing
      quorum, and a missing quorum before a bad signature. */
  function Check(bs: seq<Ballot>, n: nat): Result<()> {
    match FirstReuse(bs)
    case Some(id) => Err(AuthorityReuse(id))
    case None =>
      if |bs| <= n * 2 / 3 then Err(InsufficientQuorum)
      else
        match FirstInvalid(bs)
        case Some(id) => Err(InvalidSignature(id))
        case None => Ok(())
  }

  ghost predicate ReusedAt(bs: seq<Ballot>, i: int) {
    0 <= i < |bs| && Distinct(bs[..i]) && exists j :: 0 <= j < i && bs[j].voter == bs[i].voter
  }

  ghost predicate InvalidAt(bs: seq<Ballot>, i: int) {
    0 <= i < |bs| && !Valid(bs[i]) && forall j :: 0 <= j < i ==> Valid(bs[j])
  }

  lemma {:induction false} FirstReuseNone(bs: seq<Ballot>)
    ensures FirstReuse(bs).None? <==> Distinct(bs)
  {
    if bs != [] {
      var k := |bs| - 1;
      FirstReuseNone(bs[..k]);
      if FirstReuse(bs[..k]).None? && bs[k].voter in Voters(bs[..k]) {
        var i :| 0 <= i < k && bs[..k][i].voter == bs[k].voter;
        assert bs[i].voter == bs[k].voter;
      }
    }
  }

  lemma FirstReuseSome(bs: seq<Ballot>) returns (i: int)
    requires FirstReuse(bs).Some?
    ensures ReusedAt(bs, i) && FirstReuse(bs) == Some(bs[i].voter)
  {
    var k := |bs| - 1;
    var init := bs[..k];
    if FirstReuse(init).Some? {
      i := FirstReuseSome(init);
      assert init[..i] == bs[..i];
    } else {
      i := k;
      FirstReuseNone(init);
    }
  }

  lemma {:induction false} FirstReuseMeaning(bs: seq<Ballot>)
    ensures FirstReuse(bs).None? <==> Distinct(bs)
    ensures forall id :: FirstReuse(bs) == Some(id) <==> exists i :: ReusedAt(bs, i) && bs[i].voter == id
  {
    FirstReuseNone(bs);
    if FirstReuse(bs).Some? {
      var i := FirstReuseSome(bs);
      assert forall j :: ReusedAt(bs, j) ==> i == j;
    }
  }

  lemma {:induction false} FirstInvalidMeaning(bs: seq<Ballot>)
    ensures FirstInvalid(bs).None? <==> forall i :: 0 <= i < |bs| ==> Valid(bs[i])
    ensures forall id :: FirstInvalid(bs) == Some(id) <==> exists i :: InvalidAt(bs, i) && bs[i].voter == id
  {
    if bs != [] {
      var k := |bs| - 1;
      var init := bs[..k];
      FirstInvalidMeaning(init);
      assert forall i :: 0 <= i < k ==> (InvalidAt(init, i) <==> InvalidAt(bs, i));
      if FirstInvalid(init).Some? {
        var i :| InvalidAt(init, i) && init[i].voter == FirstInvalid(init).value;
        assert InvalidAt(bs, i);
      } else if !Valid(bs[k]) {
        assert InvalidAt(bs, k);
      }
    }
  }

  /** A certificate is accepted exactly when its voters are pairwise distinct, more than two
      thirds of `n` in number and all signatures verify; each rejection names its cause. */
  lemma CheckMeaning(bs: seq<Ballot>, n: nat)
    ensures Check(bs, n).Ok? <==>
            Distinct(bs) && |bs| > n * 2 / 3 && forall i :: 0 <= i < |bs| ==> Valid(bs[i])
    ensures forall id :: Check(bs, n) == Err(AuthorityReuse(id)) <==>
                         exists i :: ReusedAt(bs, i) && bs[i].voter == id
    ensures Check(bs, n) == Err(InsufficientQuorum) <==> Distinct(bs) && |bs| <= n * 2 / 3
    ensures forall id :: Check(bs, n) == Err(InvalidSignature(id)) <==>
                         Distinct(bs) && |bs| > n * 2 / 3 && exists i :: InvalidAt(bs, i) && bs[i].voter == id
  {
    FirstReuseMeaning(bs);
    FirstInvalidMeaning(bs);
  }

  // ---------- Certificates ----------

  function QcBallots(qc: QC): seq<Ballot> {
    seq(|qc.votes|, i requires 0 <= i < |qc.votes| => Ballot(qc.votes[i].0, qc.votes[i].1, QcDigest(qc)))
  }

  function TcBallots(tc: TC): seq<Ballot> {
    seq(|tc.votes|, i requires 0 <= i < |tc.votes| =>
      Ballot(tc.votes[i].0, tc.votes[i].1, TimeoutHash(tc.view, tc.votes[i].2)))
  }

  function CheckQc(qc: QC, authorities: seq<AuthorityId>): Result<()> {
    Check(QcBallots(qc), |authorities|)
  }

  function CheckTc(tc: TC, authorities: seq<AuthorityId>): Result<()> {
    Check(TcBallots(tc), |authorities|)
  }

  // ---------- Voters that are no authorities ----------

  function AboveAll(ids: seq<AuthorityId>): (m: AuthorityId)
    ensures forall i :: 0 <= i < |ids| ==> ids[i] < m
  {
    if ids == [] then 0 else Max(AboveAll(ids[..|ids| - 1]), ids[|ids| - 1] + 1)
  }

  /** Verification does not ask whether the voters are authorities: for any proposal hash and view there is a
      certificate that passes although every signature in it is an outsider's. */
  lemma OutsiderQc(authorities: seq<AuthorityId>, hash: Digest, view: View) returns (qc: QC)
    ensures qc.proposalHash == hash && qc.view == view && CheckQc(qc, authorities).Ok?
    ensures forall i :: 0 <= i < |qc.votes| ==>
              qc.votes[i].0 !in authorities && qc.votes[i].1 == Sig(qc.votes[i].0, QcDigest(qc))
  {
    var m, n := AboveAll(authorities), |authorities| + 1;
    qc := QC(hash, view, seq(n, i requires 0 <= i < n => (m + i, Sig(m + i, VoteHash(hash, view)))));
    CheckMeaning(QcBallots(qc), |authorities|);
  }

  /** The same holds of timeout certificates. */
  lemma OutsiderTc(authorities: seq<AuthorityId>, view: View) returns (tc: TC)
    ensures tc.view == view && CheckTc(tc, authorities).Ok?
    ensures forall i :: 0 <= i < |tc.votes| ==>
              tc.votes[i].0 !in authorities && tc.votes[i].1 == Sig(tc.votes[i].0, TimeoutHash(view, tc.votes[i].2))
  {
    var m, n := AboveAll(authorities), |authorities| + 1;
    tc := TC(view, seq(n, i requires 0 <= i < n => (m + i, Sig(m + i, TimeoutHash(view, view)), view)));
    CheckMeaning(TcBallots(tc), |authorities|);
  }

  lemma InitOfPrefix(bs: seq<Ballot>, i: nat)
    requires i < |bs|
    ensures bs[..i + 1][..i] == bs[..i]
    ensures bs[..i + 1][i] == bs[i]
  {
  }

  method VerifyQc(qc: QC, authorities: seq<AuthorityId>) returns (r: Result<()>)
    ensures r == CheckQc(qc, authorities)
  {
    ghost var bs := QcBallots(qc);
    assert bs[..|bs|] == bs;
    var used: set<AuthorityId> := {};
    var grantVotes := 0;
    for i := 0 to |qc.votes|
      invariant used == Voters(bs[..i])
      invariant grantVotes == i
      invariant FirstReuse(bs[..i]).None?
    {
      InitOfPrefix(bs, i);
      var id := qc.votes[i].0;
      if id in used {
        assert FirstReuse(bs[..i + 1]) == Some(id);
        FirstReuseStable(bs, i + 1);
        return Err(AuthorityReuse(id));
      }
      used := used + {id};
      grantVotes := grantVotes + 1;
    }
    if grantVotes <= |authorities| * 2 / 3 {
      return Err(InsufficientQuorum);
    }
    var digest := QcDigest(qc);
    for i := 0 to |qc.votes|
      invariant FirstInvalid(bs[..i]).None?
    {
      InitOfPrefix(bs, i);
      if !Verifies(qc.votes[i].1, digest, qc.votes[i].0) {
        assert FirstInvalid(bs[..i + 1]) == Some(qc.votes[i].0);
        FirstInvalidStable(bs, i + 1);
        return Err(InvalidSignature(qc.votes[i].0));
      }
    }
    return Ok(());
  }

  method VerifyTc(tc: TC, authorities: seq<AuthorityId>) returns (r: Result<()>)
    ensures r == CheckTc(tc, authorities)
  {
    ghost var bs := TcBallots(tc);
    assert bs[..|bs|] == bs;
    var used: set<AuthorityId> := {};
    var grantVotes := 0;
    for i := 0 to |tc.votes|
      invariant used == Voters(bs[..i])
      invariant grantVotes == i
      invariant FirstReuse(bs[..i]).None?
    {
      InitOfPrefix(bs, i);
      var id := tc.votes[i].0;
      if id in used {
        assert FirstReuse(bs[..i + 1]) == Some(id);
        FirstReuseStable(bs, i + 1);
        return Err(AuthorityReuse(id));
      }
      used := used + {id};
      grantVotes := grantVotes + 1;
    }
    if grantVotes <= |authorities| * 2 / 3 {
      return Err(InsufficientQuorum);
    }
    for i := 0 to |tc.votes|
      invariant FirstInvalid(bs[..i]).None?
    {
      InitOfPrefix(bs, i);
      var (voter, signature, view) := tc.votes[i];
      if !Verifies(signature, TimeoutHash(tc.view, view), voter) {
        assert FirstInvalid(bs[..i + 1]) == Some(voter);
        FirstInvalidStable(bs, i + 1);
        return Err(InvalidSignature(voter));
      }
    }
    return Ok(());
  }

  lemma {:induction false} FirstReuseStable(bs: seq<Ballot>, i: nat)
    requires i <= |bs| && FirstReuse(bs[..i]).Some?
    ensures FirstReuse(bs) == FirstReuse(bs[..i])
    decreases |bs|
  {
    if i < |bs| {
      assert bs[..|bs| - 1][..i] == bs[..i];
      FirstReuseStable(bs[..|bs| - 1], i);
    } else {
      assert bs[..i] == bs;
    }
  }

  lemma {:induction false} FirstInvalidStable(bs: seq<Ballot>, i: nat)
    requires i <= |bs| && FirstInvalid(bs[..i]).Some?
    ensures FirstInvalid(bs) == FirstInvalid(bs[..i])
    decreases |bs|
  {
    if i < |bs| {
      assert bs[..|bs| - 1][..i] == bs[..i];
      FirstInvalidStable(bs[..|bs| - 1], i);
    } else {
      assert bs[..i] == bs;
    }
  }

  // ---------- Messages ----------

  function CheckSigned(id: AuthorityId, signature: Option<Signature>, digest: Digest, authorities: seq<AuthorityId>)
    : Result<()>
  {
    if id !in authorities then Err(UnknownAuthority(id))
    else if signature.None? then Err(NullSignature)
    else if !Verifies(signature.value, digest, id) then Err(InvalidSignature(id))
    else Ok(())
  }

  /** Shared by proposals and timeouts: a certificate equal to the default one is not verified. */
  function CheckCarriedQc(qc: QC, authorities: seq<AuthorityId>): Result<()> {
    if EqualsDefault(qc) then Ok(()) else CheckQc(qc, authorities)
  }

  function CheckProposal(p: Proposal, authorities: seq<AuthorityId>): Result<()> {
    match CheckSigned(p.author, p.signature, ProposalDigest(p), authorities)
    case Err(e) => Err(e)
    case Ok(_) => CheckCarriedQc(p.qc, authorities)
  }

  function CheckVote(v: Vote, authorities: seq<AuthorityId>): Result<()> {
    CheckSigned(v.voter, v.signature, VoteDigest(v), authorities)
  }

  function CheckTimeout(t: Timeout, authorities: seq<AuthorityId>): Result<()> {
    match CheckSigned(t.voter, t.signature, TimeoutDigest(t), authorities)
    case Err(e) => Err(e)
    case Ok(_) => CheckCarriedQc(t.highQc, authorities)
  }

  // ---------- Quorums ----------

  ghost predicate NoDuplicates(ids: seq<AuthorityId>) {
    forall i, j :: 0 <= i < j < |ids| ==> ids[i] != ids[j]
  }

  function Members(ids: seq<AuthorityId>): set<AuthorityId> {
    set i | 0 <= i < |ids| :: ids[i]
  }

  lemma MembersCount(ids: seq<AuthorityId>)
    requires NoDuplicates(ids)
    ensures |Members(ids)| == |ids|
  {
    if ids != [] {
      var k := |ids| - 1;
      MembersCount(ids[..k]);
      assert Members(ids) == Members(ids[..k]) + {ids[k]};
    }
  }

  lemma VotersCount(bs: seq<Ballot>)
    requires Distinct(bs)
    ensures |Voters(bs)| == |bs|
  {
    if bs != [] {
      var k := |bs| - 1;
      VotersCount(bs[..k]);
      assert Voters(bs) == Voters(bs[..k]) + {bs[k].voter};
    }
  }

  lemma SubsetCount<T>(a: set<T>, b: set<T>)
    requires a <= b
    ensures |a| <= |b|
  {
    assert b == a + (b - a);
  }

  /** Two sets that each hold more than two thirds of the authorities share more than the number
      of faulty ones, so they share an honest authority. */
  lemma QuorumsIntersect(all: set<AuthorityId>, faulty: set<AuthorityId>, q1: set<AuthorityId>, q2: set<AuthorityId>)
    requires 3 * |faulty| < |all|
    requires q1 <= all && q2 <= all
    requires |q1| > |all| * 2 / 3 && |q2| > |all| * 2 / 3
    ensures |q1 * q2| > |faulty|
    ensures exists id :: id in q1 && id in q2 && id !in faulty
  {
    assert |q1 + q2| == |q1| + |q2| - |q1 * q2|;
    SubsetCount(q1 + q2, all);
    if forall id :: id in q1 && id in q2 ==> id in faulty {
      SubsetCount(q1 * q2, faulty);
    }
  }

  /** A quorum holds at least one more honest authority than there are faulty ones. */
  lemma QuorumHonest(all: set<AuthorityId>, faulty: set<AuthorityId>, q: set<AuthorityId>)
    requires 3 * |faulty| < |all|
    requires q <= all && |q| > |all| * 2 / 3
    ensures |q - faulty| > |faulty|
    ensures exists id :: id in q && id !in faulty
  {
    assert q == (q - faulty) + (q * faulty);
    SubsetCount(q * faulty, faulty);
    var id :| id in q - faulty;
  }
}
