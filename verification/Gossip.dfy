/** The gossip validator's filters on the view of a message, and why what they drop is never missed. */
module Gossip {
  import opened Types
  import opened Certificates
  import opened Replica
  import opened Trust
  import opened Invariant
  import opened Protocol
  import opened Runs

  /** The topic all consensus messages are gossiped under. */
  const TOPIC := Atom(1)

  datatype Verdict = Discard | ProcessAndKeep(topic: Digest)

  function MessageView(m: Message): View {
    match m
    case Propose(p) => p.view
    case VoteMsg(v) => v.view
    case TimeoutMsg(t) => t.view
    case TcMsg(tc) => tc.view
    case SyncRequest(_, _) => 0
  }

  /** Unsigned subtraction: undefined on 0. */
  function Previous(view: View): View
    requires view >= 1
  {
    view - 1
  }

  // Data that does not decode to a message is `None`.

  function Validate(current: View, data: Option<Message>): Verdict {
    match data
    case None => Discard
    case Some(m) =>
      if current > 1 && MessageView(m) < Previous(current) then Discard else ProcessAndKeep(TOPIC)
  }

  predicate MessageExpired(current: View, data: Option<Message>) {
    match data
    case None => true
    case Some(m) => current >= 1 && MessageView(m) < Previous(current)
  }

  predicate MessageAllowed(current: View, topic: Digest, data: Option<Message>) {
    topic == TOPIC &&
    match data
    case None => false
    case Some(m) => !(current >= 1 && MessageView(m) < Previous(current))
  }

  /** What does not decode, or is of a view that lies more than one back; a sync request counts as of view 0. */
  predicate TooOld(current: View, data: Option<Message>) {
    match data
    case None => true
    case Some(Propose(p)) => p.view + 1 < current
    case Some(VoteMsg(v)) => v.view + 1 < current
    case Some(TimeoutMsg(t)) => t.view + 1 < current
    case Some(TcMsg(tc)) => tc.view + 1 < current
    case Some(SyncRequest(_, _)) => 1 < current
  }

  /** The three filters give one verdict, although their guards differ: on the consensus topic they drop what is too
      old and keep everything else, and nothing is passed on under another topic. */
  lemma FiltersAgree(current: View, topic: Digest, data: Option<Message>)
    ensures Validate(current, data) == if TooOld(current, data) then Discard else ProcessAndKeep(TOPIC)
    ensures MessageExpired(current, data) <==> TooOld(current, data)
    ensures MessageAllowed(current, topic, data) <==> topic == TOPIC && !TooOld(current, data)
  {
  }

  /** A proposal, vote or timeout an honest replica sends is kept by every honest validator that is at most one view
      ahead of the sender's view at that time. */
  lemma SentIsKept(c: Config, sys: System, id: AuthorityId, at: View, m: Message, receiver: AuthorityId)
    requires Reachable(c, sys) && id in sys && receiver in sys && Sent(at, m) in sys[id].trace
    requires (m.Propose? || m.VoteMsg? || m.TimeoutMsg?) && sys[receiver].view <= at + 1
    ensures Validate(sys[receiver].gossipView, Some(m)) == ProcessAndKeep(TOPIC)
    ensures MessageAllowed(sys[receiver].gossipView, TOPIC, Some(m))
  {
    hide Reachable, Sound, Discipline, GoodTrace, Descent, CheckProposal, CheckVote, CheckTimeout, GoodHighQc;
    ReachableInv(c, sys);
    ValidatorFollows(c, sys, receiver);
    var i :| 0 <= i < |sys[id].trace| && sys[id].trace[i] == Sent(at, m);
    SentEvent(c, SignedByOthers(sys, id), sys[id], i);
  }

  /** In every run the validator's view is the view of its replica. */
  lemma ValidatorFollows(c: Config, sys: System, id: AuthorityId)
    requires Reachable(c, sys) && id in sys
    ensures sys[id].gossipView == sys[id].view
  {
    hide Reachable, Sound, Discipline, GoodTrace, Descent;
    ReachableInv(c, sys);
  }

  /** A vote, timeout or timeout certificate the filters drop at some point of a run has no effect on the
      replica at that point or at any later one: votes and certificates are refused, timeouts ignored. */
  lemma {:induction false} DroppedIsIgnored(c: Config, init: System, run: seq<Action>, k: nat, id: AuthorityId, m: Message)
    requires CanRun(c, init, run) && k <= |run| && id in init && CanRun(c, init, run[..k])
    requires id in After(c, init, run[..k]) && id in After(c, init, run)
    requires m.VoteMsg? || m.TimeoutMsg? || m.TcMsg?
    requires Validate(After(c, init, run[..k])[id].gossipView, Some(m)) == Discard
    ensures WellFormed(After(c, init, run)[id])
    ensures Handle(After(c, init, run)[id], m).state == After(c, init, run)[id]
    ensures m.VoteMsg? ==> Handle(After(c, init, run)[id], m).result == Err(ExpiredVote)
    ensures m.TimeoutMsg? ==> Handle(After(c, init, run)[id], m).result == Ok(())
    ensures m.TcMsg? ==> Handle(After(c, init, run)[id], m).result == Err(InvalidTC)
  {
    hide Reachable, After, CanRun, SystemInv;
    var before, now := After(c, init, run[..k]), After(c, init, run);
    assert Reachable(c, before) && Reachable(c, now) by {
      ReachesAfter(c, init, run[..k]);
      ReachesAfter(c, init, run);
    }
    ValidatorFollows(c, before, id);
    RunExtends(c, init, run, k, id);
    ReplicaWellFormed(c, now, id);
  }

  lemma {:induction false} ReachesAfter(c: Config, init: System, run: seq<Action>)
    requires CanRun(c, init, run)
    ensures Reachable(c, After(c, init, run))
  {
  }

  lemma ReplicaWellFormed(c: Config, sys: System, id: AuthorityId)
    requires Reachable(c, sys) && id in sys
    ensures WellFormed(sys[id])
  {
    hide Reachable, Sound, Discipline, GoodTrace, Descent;
    ReachableInv(c, sys);
  }
}
