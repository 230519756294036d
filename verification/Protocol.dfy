/** The replicas together: every interleaving of timers, chain events and deliveries of any message
    the network and the faulty authorities can put together. */
module Protocol {
  import opened Types
  import opened Certificates
  import opened Replica
  import opened Trust
  import opened Invariant

  /** The states of the honest replicas. */
  type System = map<AuthorityId, State>

  datatype Action =
    | Timer(id: AuthorityId)
    | Deliver(id: AuthorityId, message: Message)
    | Chain(id: AuthorityId, client: Client, pending: seq<BlockInfo>) // blocks imported or finalised

  ghost predicate Initial(c: Config, sys: System) {
    && ValidConfig(c)
    && sys.Keys == Honest(c)
    && forall id :: id in sys ==> sys[id] == Init(Some(id), c.authorities, sys[id].client, sys[id].pending)
  }

  /** Signatures made by the honest replicas. */
  function Signed(sys: System): set<Signature> {
    set id, signature | id in sys && signature in Made(id, sys[id].trace) :: signature
  }

  function SignedByOthers(sys: System, me: AuthorityId): set<Signature> {
    set id, signature | id in sys && id != me && signature in Made(id, sys[id].trace) :: signature
  }

  ghost predicate Enabled(c: Config, sys: System, a: Action) {
    && a.id in sys && WellFormed(sys[a.id])
    && (a.Deliver? ==> AuthenticMessage(c, Signed(sys), a.message))
  }

  ghost function Local(s: State, a: Action): State
    requires WellFormed(s)
  {
    match a
    case Timer(_) => HandleLocalTimer(s).state
    case Deliver(_, m) => Handle(s, m).state
    case Chain(_, client, pending) => s.(client := client, pending := pending)
  }

  ghost function Apply(c: Config, sys: System, a: Action): System
    requires Enabled(c, sys, a)
  {
    sys[a.id := Local(sys[a.id], a)]
  }

  /** The actions, one after another, from an initial state. */
  ghost predicate CanRun(c: Config, init: System, run: seq<Action>)
    decreases |run|, 0
  {
    if run == [] then Initial(c, init)
    else
      var k := |run| - 1;
      CanRun(c, init, run[..k]) && Enabled(c, After(c, init, run[..k]), run[k])
  }

  ghost function After(c: Config, init: System, run: seq<Action>): System
    requires CanRun(c, init, run)
    decreases |run|, 1
  {
    if run == [] then init
    else
      var k := |run| - 1;
      Apply(c, After(c, init, run[..k]), run[k])
  }

  ghost predicate Reachable(c: Config, sys: System) {
    exists init, run :: CanRun(c, init, run) && After(c, init, run) == sys
  }

  // ---------- Digests of proposals ----------

  /** The view of the proposal a digest stands for, 0 for any other digest. */
  function ViewOf(d: Digest): View {
    if d.ProposalHash? then d.view else 0
  }

  predicate VotedAt(trace: seq<Event>, i: int, d: Digest) {
    0 <= i < |trace| && trace[i].Voted? && ProposalDigest(trace[i].proposal) == d
  }

  ghost predicate HasVotedFor(trace: seq<Event>, d: Digest) {
    exists i :: VotedAt(trace, i, d)
  }

  predicate BoundAt(trace: seq<Event>, i: int, view: View) {
    0 <= i < |trace| && Binding(trace[i]) && BoundView(trace[i]) >= view
  }

  /** The replica can no longer vote in `view`. */
  ghost predicate BoundAbove(trace: seq<Event>, view: View) {
    exists i :: BoundAt(trace, i, view)
  }

  /** The honest members of `q` have passed the view of `d` without voting for it. */
  ghost predicate BlockedBy(c: Config, sys: System, d: Digest, q: set<AuthorityId>)
    requires d.ProposalHash?
  {
    && IsQuorum(c, q)
    && forall id :: id in q && id in sys ==> BoundAbove(sys[id].trace, d.view) && !HasVotedFor(sys[id].trace, d)
  }

  /** A proposal whose parent is not of a lower view, once voted for, can never be certified. */
  ghost predicate Descent(c: Config, sys: System) {
    forall id, d: Digest ::
      id in sys && d.ProposalHash? && ViewOf(d.parent) >= d.view && HasVotedFor(sys[id].trace, d) ==>
        exists q :: BlockedBy(c, sys, d, q)
  }

  ghost predicate SystemInv(c: Config, sys: System) {
    && ValidConfig(c)
    && sys.Keys == Honest(c)
    && (forall id :: id in sys ==> sys[id].me == Some(id) && Inv(c, SignedByOthers(sys, id), sys[id]))
    && Descent(c, sys)
  }

  // ---------- Preservation ----------

  lemma KnownIsSigned(c: Config, sys: System, id: AuthorityId)
    requires id in sys && sys[id].me == Some(id)
    ensures Known(SignedByOthers(sys, id), sys[id]) == Signed(sys)
  {
  }

  lemma LocalInv(c: Config, sys: System, a: Action)
    requires SystemInv(c, sys) && Enabled(c, sys, a)
    ensures Inv(c, SignedByOthers(sys, a.id), Local(sys[a.id], a))
    ensures Extends(sys[a.id], Local(sys[a.id], a))
  {
    hide Sound, Discipline, GoodTrace, Descent;
    var s, base := sys[a.id], SignedByOthers(sys, a.id);
    KnownIsSigned(c, sys, a.id);
    match a
    case Timer(_) => HandleLocalTimerInv(c, base, s);
    case Deliver(_, m) => HandleInv(c, base, s, m);
    case Chain(_, client, pending) => PayloadInv(c, base, s, Local(s, a));
  }

  lemma OthersGrow(c: Config, sys: System, sys': System, me: AuthorityId)
    requires sys.Keys == sys'.Keys
    requires forall id :: id in sys ==> sys[id].trace <= sys'[id].trace
    ensures SignedByOthers(sys, me) <= SignedByOthers(sys', me)
  {
    forall signature | signature in SignedByOthers(sys, me) ensures signature in SignedByOthers(sys', me) {
      var id :| id in sys && id != me && signature in Made(id, sys[id].trace);
      MadeGrows(id, sys[id].trace, sys'[id].trace);
    }
  }

  /** A vote signature in a trace is the signature of a vote event for a proposal of that view. */
  lemma VoteSignature(me: AuthorityId, trace: seq<Event>, d: Digest, view: View) returns (i: int)
    requires Sig(me, VoteHash(d, view)) in Made(me, trace)
    ensures VotedAt(trace, i, d) && trace[i].proposal.view == view
    ensures d.ProposalHash? && ViewOf(d) == view
  {
    MadeAt(me, trace, Sig(me, VoteHash(d, view)));
    i :| 0 <= i < |trace| && Sig(me, VoteHash(d, view)) in Signatures(me, trace[i]);
  }

  /** Once bound above a view, a replica casts no vote in it. */
  lemma BoundStays(c: Config, base: set<Signature>, s: State, s': State, d: Digest)
    requires Extends(s, s') && Inv(c, base, s')
    requires d.ProposalHash? && BoundAbove(s.trace, d.view) && !HasVotedFor(s.trace, d)
    ensures BoundAbove(s'.trace, d.view) && !HasVotedFor(s'.trace, d)
  {
    var i :| BoundAt(s.trace, i, d.view);
    assert BoundAt(s'.trace, i, d.view);
    forall j | 0 <= j < |s'.trace| ensures !VotedAt(s'.trace, j, d) {
      if j < |s.trace| {
        assert s'.trace[j] == s.trace[j];
        assert !VotedAt(s.trace, j, d);
      } else {
        assert s'.trace[j].Voted? ==> BoundView(s'.trace[i]) < s'.trace[j].proposal.view;
      }
    }
  }

  /** A replica's new state that keeps its invariant, the others being as they were. */
  ghost predicate LocalStep(c: Config, sys: System, me: AuthorityId, s': State) {
    me in sys && Extends(sys[me], s') && Inv(c, SignedByOthers(sys, me), s')
  }

  lemma BlockedStays(c: Config, sys: System, me: AuthorityId, s': State, d: Digest, q: set<AuthorityId>)
    requires SystemInv(c, sys) && LocalStep(c, sys, me, s')
    requires d.ProposalHash? && BlockedBy(c, sys, d, q)
    ensures BlockedBy(c, sys[me := s'], d, q)
  {
    hide Inv, Descent;
    if me in q {
      BoundStays(c, SignedByOthers(sys, me), sys[me], s', d);
    }
  }

  /** A vote was cast on a certificate that was backed before the vote was made. */
  lemma VoteCertificate(c: Config, base: set<Signature>, s: State, i: int)
    requires Inv(c, base, s) && 0 <= i < |s.trace| && s.trace[i].Voted?
    ensures GoodQc(c, base + Made(s.me.value, s.trace[..i]), s.trace[i].proposal.qc)
  {
    hide Sound, Discipline;
    assert GoodEvent(c, base + Made(s.me.value, s.trace[..i]), s.me.value, s.trace[i]);
  }

  /** A replica does not vote for a proposal whose parent it voted for in the same or a later view. */
  lemma NoVoteBelowParent(c: Config, base: set<Signature>, s: State, d: Digest, i: int, view: View)
    requires Inv(c, base, s)
    requires d.ProposalHash? && ViewOf(d.parent) >= d.view && VotedAt(s.trace, i, d)
    ensures Sig(s.me.value, VoteHash(d.parent, view)) !in Made(s.me.value, s.trace[..i])
  {
    hide Sound, GoodTrace;
    if Sig(s.me.value, VoteHash(d.parent, view)) in Made(s.me.value, s.trace[..i]) {
      var j := VoteSignature(s.me.value, s.trace[..i], d.parent, view);
      assert false;
    }
  }

  /** An honest replica that signed the parent's certificate is past the view of `d`. */
  lemma SignerBound(sys: System, me: AuthorityId, d: Digest, view: View, id: AuthorityId)
    requires d.ProposalHash? && ViewOf(d.parent) >= d.view
    requires Sig(id, VoteHash(d.parent, view)) in SignedByOthers(sys, me)
    ensures id in sys && id != me && BoundAbove(sys[id].trace, d.view)
  {
    var id' :| id' in sys && id' != me && Sig(id, VoteHash(d.parent, view)) in Made(id', sys[id'].trace);
    MadeSigner(id', sys[id'].trace);
    var j := VoteSignature(id, sys[id].trace, d.parent, view);
    assert BoundAt(sys[id].trace, j, d.view);
  }

  /** The first honest vote for `d` was cast on a certificate whose honest signers are all past its view. */
  lemma FirstVoteBlocks(c: Config, sys: System, me: AuthorityId, s': State, d: Digest, i: int)
      returns (q: set<AuthorityId>)
    requires SystemInv(c, sys) && LocalStep(c, sys, me, s')
    requires d.ProposalHash? && ViewOf(d.parent) >= d.view && VotedAt(s'.trace, i, d) && d.view >= 1
    requires forall id :: id in sys ==> !HasVotedFor(sys[id].trace, d)
    ensures BlockedBy(c, sys[me := s'], d, q)
  {
    hide Inv, Descent, QuorumQc;
    var base := SignedByOthers(sys, me);
    var known := base + Made(me, s'.trace[..i]);
    var qc := s'.trace[i].proposal.qc;
    VoteCertificate(c, base, s', i);
    QuorumQcVoters(c, known, qc);
    q := QcVoters(qc);
    forall id | id in q && id in sys
      ensures id != me && BoundAbove(sys[id].trace, d.view)
    {
      assert Backed(c, known, id, VoteHash(d.parent, qc.view));
      MadeSigner(me, s'.trace[..i]);
      NoVoteBelowParent(c, base, s', d, i, qc.view);
      SignerBound(sys, me, d, qc.view, id);
    }
  }

  lemma VotedViewPositive(c: Config, base: set<Signature>, s: State, i: int)
    requires Inv(c, base, s) && 0 <= i < |s.trace| && s.trace[i].Voted?
    ensures s.trace[i].proposal.view >= 1
  {
    hide Sound, GoodTrace;
  }

  lemma DescentStep(c: Config, sys: System, me: AuthorityId, s': State)
    requires SystemInv(c, sys) && LocalStep(c, sys, me, s')
    ensures Descent(c, sys[me := s'])
  {
    hide Inv;
    var sys' := sys[me := s'];
    forall id, d: Digest | id in sys' && d.ProposalHash? && ViewOf(d.parent) >= d.view && HasVotedFor(sys'[id].trace, d)
      ensures exists q :: BlockedBy(c, sys', d, q)
    {
      if exists id' :: id' in sys && HasVotedFor(sys[id'].trace, d) {
        var id' :| id' in sys && HasVotedFor(sys[id'].trace, d);
        var q :| BlockedBy(c, sys, d, q);
        BlockedStays(c, sys, me, s', d, q);
      } else {
        assert id == me;
        var i :| VotedAt(s'.trace, i, d);
        VotedViewPositive(c, SignedByOthers(sys, me), s', i);
        var q := FirstVoteBlocks(c, sys, me, s', d, i);
      }
    }
  }

  lemma LocalStepInv(c: Config, sys: System, me: AuthorityId, s': State)
    requires SystemInv(c, sys) && LocalStep(c, sys, me, s')
    ensures SystemInv(c, sys[me := s'])
  {
    hide Inv, Descent, Made;
    var sys' := sys[me := s'];
    DescentStep(c, sys, me, s');
    forall id | id in sys' ensures sys'[id].me == Some(id) && Inv(c, SignedByOthers(sys', id), sys'[id]) {
      OthersGrow(c, sys, sys', id);
      InvGrows(c, SignedByOthers(sys, id), SignedByOthers(sys', id), sys'[id]);
    }
  }

  lemma StepInv(c: Config, sys: System, a: Action)
    requires SystemInv(c, sys) && Enabled(c, sys, a)
    ensures SystemInv(c, Apply(c, sys, a))
  {
    LocalInv(c, sys, a);
    LocalStepInv(c, sys, a.id, Local(sys[a.id], a));
  }

  lemma {:induction false} RunInv(c: Config, init: System, run: seq<Action>)
    requires CanRun(c, init, run)
    ensures SystemInv(c, After(c, init, run))
  {
    hide Inv, Apply;
    if run == [] {
      forall id | id in init ensures init[id].me == Some(id) && Inv(c, SignedByOthers(init, id), init[id]) {
        InitInv(c, id, init[id].client, init[id].pending);
        InvGrows(c, {}, SignedByOthers(init, id), init[id]);
      }
    } else {
      var k := |run| - 1;
      RunInv(c, init, run[..k]);
      StepInv(c, After(c, init, run[..k]), run[k]);
    }
  }

  /** Every state of every run satisfies the invariant. */
  lemma ReachableInv(c: Config, sys: System)
    requires Reachable(c, sys)
    ensures SystemInv(c, sys)
  {
    var init, run :| CanRun(c, init, run) && After(c, init, run) == sys;
    RunInv(c, init, run);
  }

  lemma ReachableStep(c: Config, sys: System, a: Action)
    requires Reachable(c, sys) && Enabled(c, sys, a)
    ensures Reachable(c, Apply(c, sys, a))
  {
    hide Enabled, Apply;
    var init, run :| CanRun(c, init, run) && After(c, init, run) == sys;
    var run' := run + [a];
    assert run'[..|run|] == run;
    assert CanRun(c, init, run') && After(c, init, run') == Apply(c, sys, a);
  }
}
