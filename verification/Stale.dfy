/** A run in which a leader proposes a block below the finalised one.

    Authority 0 is faulty.  Replicas 2 and 3 time out of view 0, and the faulty authority completes their timeouts to
    a certificate.  It leaves replica 1, the leader of view 1, with no block in process while its queue has not yet
    received the notice of the finalised block. */
module Stale {
  import opened Types
  import opened Certificates
  import opened Replica
  import opened Trust
  import opened Invariant
  import opened Protocol
  import opened PendingQueue

  const AUTHORITIES: seq<AuthorityId> := [0, 1, 2, 3]
  const CONFIG := Config(AUTHORITIES, {0})
  const EARLY := TimeoutHash(0, 0)
  const CERTIFICATE := TC(0, [(0, Sig(0, EARLY), 0), (2, Sig(2, EARLY), 0), (3, Sig(3, EARLY), 0)])

  /** The client knows blocks 3 and 5. */
  function Chained(finalizedHash: Digest, finalizedNumber: BlockNumber): Client {
    Client(map[Atom(3) := 3, Atom(5) := 5], {}, finalizedHash, finalizedNumber)
  }

  function Start(id: AuthorityId): State {
    Init(Some(id), AUTHORITIES, Chained(Zero, 0), [])
  }

  /** Replica 1 once block 5 is finalised, with block 3 still queued. */
  function Behind(): State {
    Start(1).(client := Chained(Atom(5), 5), pending := [BlockInfo(Some(Atom(3)), 3)])
  }

  function Together(s1: State, s2: State, s3: State): System {
    map[1 := s1, 2 := s2, 3 := s3]
  }

  function EarlyTimeout(id: AuthorityId): Timeout {
    Timeout(DEFAULT_QC, 0, id, Some(Sig(id, EARLY)))
  }

  lemma ConfigIsValid()
    ensures ValidConfig(CONFIG) && Honest(CONFIG) == {1, 2, 3}
  {
    assert Members(AUTHORITIES) == {0, 1, 2, 3} by {
      assert AUTHORITIES[0] == 0 && AUTHORITIES[1] == 1 && AUTHORITIES[2] == 2 && AUTHORITIES[3] == 3;
    }
  }

  lemma CertificateChecks()
    ensures CheckTc(CERTIFICATE, AUTHORITIES).Ok?
  {
    var bs := TcBallots(CERTIFICATE);
    assert |bs| == 3 && bs[0].voter == 0 && bs[1].voter == 2 && bs[2].voter == 3;
    CheckMeaning(bs, 4);
  }

  /** Replicas 2 and 3 time out, and the chain moves on at replica 1. */
  lemma BehindReachable() returns (s2: State, s3: State)
    ensures Reachable(CONFIG, Together(Behind(), s2, s3))
    ensures Sent(0, TimeoutMsg(EarlyTimeout(2))) in s2.trace && Sent(0, TimeoutMsg(EarlyTimeout(3))) in s3.trace
  {
    hide Reachable, HandleTimeout;
    StartReachable();
    s2, s3 := HandleLocalTimer(Start(2)).state, HandleLocalTimer(Start(3)).state;
    TimesOut(2);
    TimesOut(3);
    ReachableStep(CONFIG, Together(Start(1), Start(2), Start(3)), Timer(2));
    assert Apply(CONFIG, Together(Start(1), Start(2), Start(3)), Timer(2)) == Together(Start(1), s2, Start(3));
    ReachableStep(CONFIG, Together(Start(1), s2, Start(3)), Timer(3));
    assert Apply(CONFIG, Together(Start(1), s2, Start(3)), Timer(3)) == Together(Start(1), s2, s3);
    var a := Chain(1, Chained(Atom(5), 5), [BlockInfo(Some(Atom(3)), 3)]);
    ReachableStep(CONFIG, Together(Start(1), s2, s3), a);
    assert Apply(CONFIG, Together(Start(1), s2, s3), a) == Together(Behind(), s2, s3);
  }

  lemma StartReachable()
    ensures Reachable(CONFIG, Together(Start(1), Start(2), Start(3)))
  {
    ConfigIsValid();
    var sys := Together(Start(1), Start(2), Start(3));
    assert sys.Keys == {1, 2, 3};
    assert CanRun(CONFIG, sys, []) && After(CONFIG, sys, []) == sys;
  }

  lemma TimesOut(id: AuthorityId)
    ensures Sent(0, TimeoutMsg(EarlyTimeout(id))) in HandleLocalTimer(Start(id)).state.trace
  {
    hide HandleTimeout;
    var t := EarlyTimeout(id);
    var s := Log(Start(id), Sent(0, TimeoutMsg(t)));
    assert s.trace[0] == Sent(0, TimeoutMsg(t));
    assert HandleLocalTimer(Start(id)) == HandleTimeout(s, t);
  }

  lemma CertificateAuthentic(s1: State, s2: State, s3: State)
    requires Sent(0, TimeoutMsg(EarlyTimeout(2))) in s2.trace && Sent(0, TimeoutMsg(EarlyTimeout(3))) in s3.trace
    ensures AuthenticMessage(CONFIG, Signed(Together(s1, s2, s3)), TcMsg(CERTIFICATE))
  {
    ConfigIsValid();
    var sys := Together(s1, s2, s3);
    MadeAt(2, s2.trace, Sig(2, EARLY));
    MadeAt(3, s3.trace, Sig(3, EARLY));
    assert sys[2] == s2 && sys[3] == s3;
    assert AUTHORITIES[0] == 0 && AUTHORITIES[2] == 2 && AUTHORITIES[3] == 3;
  }

  lemma LeaderProposes() returns (p: Proposal)
    ensures WellFormed(Behind()) && Sent(1, Propose(p)) in HandleTc(Behind(), CERTIFICATE).state.trace
    ensures p.payload == Payload(Atom(3), 3)
  {
    hide HandleProposal, CheckTc;
    CertificateChecks();
    var s1 := AdvanceView(Behind(), 0).(processing := None);
    assert Leader(s1.authorities, 1) == 1;
    var s2 := ProposalPayload(s1).0;
    p := MakeProposal(s2, Payload(Atom(3), 3), None).value;
    assert Log(s2, Sent(1, Propose(p))).trace[0] == Sent(1, Propose(p));
  }

  /** In some run the next event, the delivery of a timeout certificate, makes the leader of view 1 propose block 3
      although block 5 is finalised. */
  lemma StaleBlockProposed() returns (c: Config, sys: System, a: Action, p: Proposal)
    ensures Reachable(c, sys) && Enabled(c, sys, a) && a == Deliver(1, TcMsg(CERTIFICATE))
    ensures sys[1].client.finalizedNumber == 5 && Increasing(sys[1].pending) && sys[1].trace == []
    ensures Sent(1, Propose(p)) in Apply(c, sys, a)[1].trace && p.payload == Payload(Atom(3), 3)
  {
    hide Reachable, HandleTc, AuthenticMessage, Signed;
    var s2, s3 := BehindReachable();
    c, sys, a := CONFIG, Together(Behind(), s2, s3), Deliver(1, TcMsg(CERTIFICATE));
    CertificateAuthentic(Behind(), s2, s3);
    p := LeaderProposes();
  }
}
