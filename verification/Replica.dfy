/** The state of one replica and what each of its handlers does to it.

    The functions of this module are the specification that the worker object of module `Worker`
    is proved against, and the steps of the transition system of module `Protocol`. */
module Replica {
  import opened Types
  import opened Certificates
  import opened Aggregation

  datatype BlockInfo = BlockInfo(hash: Option<Digest>, number: BlockNumber)

  /** What a replica sees of the chain: the blocks it knows, the hashes whose lookup fails, and the
      finalised block. */
  datatype Client = Client(
    known: map<Digest, BlockNumber>,
    failing: set<Digest>,
    finalizedHash: Digest,
    finalizedNumber: BlockNumber)

  /** What a replica did, in order.  `at` is the view of the replica when it voted or sent. */
  datatype Event =
    | Voted(at: View, proposal: Proposal)
    | Sent(at: View, message: Message)
    | SyncRequested(payload: Payload)
    | FinalizeCalled(child: Proposal, parent: Proposal, grandpa: Proposal)

  datatype State = State(
    me: Option<AuthorityId>,
    authorities: seq<AuthorityId>,
    view: View,
    lastVotedView: View,
    highQc: QC,
    votes: VoteBuckets,
    timeouts: TimeoutBuckets,
    store: map<Digest, Proposal>,
    processing: Option<BlockInfo>,
    hashQueue: seq<Digest>,
    gossipView: View,
    pending: seq<BlockInfo>,
    client: Client,
    trace: seq<Event>)

  datatype Outcome = Outcome(state: State, result: Result<()>)

  function Init(me: Option<AuthorityId>, authorities: seq<AuthorityId>, client: Client, pending: seq<BlockInfo>): State {
    State(me, authorities, 0, 0, DEFAULT_QC, map[], map[], map[],
          if pending == [] then None else Some(pending[0]), [], 0, pending, client, [])
  }

  /** At least two authorities, all different. */
  ghost predicate WellFormed(s: State) {
    |s.authorities| >= 2 && NoDuplicates(s.authorities)
  }

  /** What every handler keeps: the identity is fixed, and the views, the highest certificate's view,
      the set of stored keys and the trace only grow; the gossip validator stays on the replica's view. */
  ghost predicate Extends(s: State, s': State) {
    && s'.me == s.me && s'.authorities == s.authorities
    && s.view <= s'.view
    && s.lastVotedView <= s'.lastVotedView
    && s.highQc.view <= s'.highQc.view
    && s.store.Keys <= s'.store.Keys
    && s.trace <= s'.trace
    && (s.gossipView == s.view ==> s'.gossipView == s'.view)
  }

  lemma ExtendsTransitive(a: State, b: State, c: State)
    requires Extends(a, b) && Extends(b, c)
    ensures Extends(a, c)
  {
  }

  // ---------- Consensus state ----------

  function Leader(authorities: seq<AuthorityId>, view: View): AuthorityId
    requires authorities != []
  {
    authorities[view % |authorities|]
  }

  predicate IsLeader(s: State, view: View)
    requires s.authorities != []
  {
    s.me == Some(Leader(s.authorities, view))
  }

  lemma SuccessorModulo(v: nat, n: nat)
    requires n >= 2
    ensures (v + 1) % n != v % n
  {
    var q, r := v / n, v % n;
    assert v == q * n + r;
    if r + 1 < n {
      assert (v + 1) % n == r + 1 by {
        assert v + 1 == q * n + (r + 1);
        ModuloUnique(v + 1, n, q, r + 1);
      }
    } else {
      assert v + 1 == (q + 1) * n;
      ModuloUnique(v + 1, n, q + 1, 0);
    }
  }

  lemma ModuloUnique(a: nat, n: nat, q: nat, r: nat)
    requires n > 0 && r < n && a == q * n + r
    ensures a % n == r
  {
    var q', r' := a / n, a % n;
    assert a == q' * n + r';
    assert q' < q ==> (q' + 1) * n <= q * n;
    assert q < q' ==> (q + 1) * n <= q' * n;
  }

  /** No replica leads two consecutive views. */
  lemma ConsecutiveLeaders(authorities: seq<AuthorityId>, view: View)
    requires |authorities| >= 2 && NoDuplicates(authorities)
    ensures Leader(authorities, view) != Leader(authorities, view + 1)
  {
    SuccessorModulo(view, |authorities|);
  }

  function Log(s: State, e: Event): State {
    s.(trace := s.trace + [e])
  }

  /** The guard compares in the direction the program does: a target above the view changes nothing. */
  function AdvanceView(s: State, target: View): State {
    var view := if s.view >= target then target + 1 else s.view;
    s.(view := view, gossipView := view)
  }

  function UpdateHighQc(s: State, qc: QC): State {
    if qc.view > s.highQc.view then s.(highQc := qc) else s
  }

  function HandleQc(s: State, qc: QC): (r: State)
    ensures Extends(s, r)
    ensures r == s.(view := r.view, gossipView := r.gossipView, highQc := r.highQc)
  {
    if qc.view >= s.view then UpdateHighQc(AdvanceView(s, qc.view), qc) else s
  }

  function VoteFor(id: AuthorityId, p: Proposal): Vote {
    var d := ProposalDigest(p);
    Vote(d, p.view, id, Some(Sig(id, VoteHash(d, p.view))))
  }

  function MakeTimeout(s: State): Result<Timeout> {
    match s.me
    case None => Err(NotAuthority)
    case Some(id) => Ok(Timeout(s.highQc, s.view, id, Some(Sig(id, TimeoutHash(s.view, s.highQc.view)))))
  }

  function MakeProposal(s: State, payload: Payload, tc: Option<TC>): Result<Proposal> {
    match s.me
    case None => Err(NotAuthority)
    case Some(id) =>
      var d := ProposalHash(id, payload, s.view, s.highQc.proposalHash);
      Ok(Proposal(s.highQc, tc, payload, s.view, id, Some(Sig(id, d))))
  }

  function ProposalVerdict(s: State, p: Proposal): Result<()>
    requires s.authorities != []
  {
    if p.author != Leader(s.authorities, p.view) then Err(WrongProposer) else CheckProposal(p, s.authorities)
  }

  function VoteVerdict(s: State, v: Vote): Result<()> {
    if v.view < s.view then Err(ExpiredVote) else CheckVote(v, s.authorities)
  }

  function TcVerdict(s: State, tc: TC): Result<()> {
    if tc.view < s.view then Err(InvalidTC) else CheckTc(tc, s.authorities)
  }

  // ---------- Proposal store and finalisation ----------

  ghost predicate KeyedByDigest(store: map<Digest, Proposal>) {
    forall d :: d in store ==> ProposalDigest(store[d]) == d
  }

  function Parent(store: map<Digest, Proposal>, p: Proposal): Result<Proposal> {
    if p.qc.proposalHash in store then Ok(store[p.qc.proposalHash]) else Err(ProposalNoParent)
  }

  function Ancestors(store: map<Digest, Proposal>, p: Proposal): Result<(Proposal, Proposal)> {
    match Parent(store, p)
    case Err(e) => Err(e)
    case Ok(parent) =>
      match Parent(store, parent)
      case Err(e) => Err(e)
      case Ok(grandpa) => Ok((parent, grandpa))
  }

  /** The client finalises a block it knows that lies above the finalised one, and refuses any other. */
  function FinalizeBlock(c: Client, hash: Digest): Client {
    if hash in c.known && c.known[hash] > c.finalizedNumber
    then c.(finalizedHash := hash, finalizedNumber := c.known[hash])
    else c
  }

  function TryFinalize(s: State, p: Proposal): (r: State)
    ensures Extends(s, r)
  {
    match Ancestors(s.store, p)
    case Err(_) => s
    case Ok((parent, grandpa)) =>
      var hash := grandpa.payload.blockHash;
      if parent.view == grandpa.view + 1 && hash != EMPTY_PAYLOAD && hash != s.client.finalizedHash
      then Log(s, FinalizeCalled(p, parent, grandpa)).(client := FinalizeBlock(s.client, hash))
      else s
  }

  // ---------- Handlers ----------

  /** What a verified proposal changes before the replica decides whether to vote. */
  function Accept(s: State, p: Proposal): (r: State)
    ensures Extends(s, r)
  {
    TryFinalize(Save(HandleQc(s, p.qc), p), p)
  }

  /** Follow the timeout certificate of a proposal and store the proposal under its digest. */
  function Save(s: State, p: Proposal): (r: State)
    ensures Extends(s, r)
  {
    var s1 := if p.tc.Some? && p.tc.value.view > s.view then AdvanceView(s, p.tc.value.view) else s;
    s1.(store := s1.store[ProposalDigest(p) := p])
  }

  predicate UnknownBlock(s: State, p: Proposal) {
    var hash := p.payload.blockHash;
    hash != EMPTY_PAYLOAD && hash !in s.client.failing && hash !in s.client.known
  }

  predicate FailedBlock(s: State, p: Proposal) {
    var hash := p.payload.blockHash;
    hash != EMPTY_PAYLOAD && hash in s.client.failing
  }

  predicate MayVote(s: State, p: Proposal) {
    s.me.Some? && p.view > s.lastVotedView
  }

  /** The replica after it has signed a vote for `p`, before the vote leaves it. */
  function CastVote(s: State, p: Proposal): (r: State)
    ensures Extends(s, r)
  {
    Log(s, Voted(s.view, p)).(
      lastVotedView := Max(s.lastVotedView, p.view),
      hashQueue := s.hashQueue + [p.payload.blockHash],
      processing := Some(BlockInfo(Some(p.payload.blockHash), p.payload.blockNumber)))
  }

  function HandleProposal(s: State, p: Proposal): (r: Outcome)
    requires WellFormed(s)
    ensures Extends(s, r.state)
    decreases if IsLeader(s, p.view) then 0 else 2, 2
  {
    if UnknownBlock(s, p) then Outcome(Log(s, SyncRequested(p.payload)), Ok(()))
    else if FailedBlock(s, p) then Outcome(s, Err(ClientError))
    else
      match ProposalVerdict(s, p)
      case Err(e) => Outcome(s, Err(e))
      case Ok(_) =>
        var s1 := Accept(s, p);
        ExtendsTransitive(s, s1, VoteOn(s1, p).state);
        VoteOn(s1, p)
  }

  /** Vote for an accepted proposal if it is for the current view and nothing was signed for that view
      yet.  The leader of the next view keeps its own vote, every other replica sends it. */
  function VoteOn(s: State, p: Proposal): (r: Outcome)
    requires WellFormed(s)
    ensures Extends(s, r.state)
    decreases if IsLeader(s, p.view) then 0 else 2, 1
  {
    if p.view != s.view || !MayVote(s, p) then Outcome(s, Ok(()))
    else
      var s1 := CastVote(s, p);
      ExtendsTransitive(s, s1, PassOnVote(s1, p).state);
      PassOnVote(s1, p)
  }

  function PassOnVote(s: State, p: Proposal): (r: Outcome)
    requires WellFormed(s) && s.me.Some? && s.view == p.view
    ensures Extends(s, r.state)
    decreases if IsLeader(s, p.view) then 0 else 2, 0
  {
    var vote := VoteFor(s.me.value, p);
    if IsLeader(s, s.view + 1) then
      ConsecutiveLeaders(s.authorities, s.view);
      HandleVote(s, vote)
    else Outcome(Log(s, Sent(s.view, VoteMsg(vote))), Ok(()))
  }

  /** The last two entries are empty payloads. */
  predicate TwoTrailingEmpty(q: seq<Digest>) {
    |q| >= 2 && q[|q| - 1] == EMPTY_PAYLOAD && q[|q| - 2] == EMPTY_PAYLOAD
  }

  function HandleVote(s: State, vote: Vote): (r: Outcome)
    requires WellFormed(s)
    ensures Extends(s, r.state)
    decreases 1, 1
  {
    match VoteVerdict(s, vote)
    case Err(e) => Outcome(s, Err(e))
    case Ok(_) =>
      var (votes, reply) := TallyVote(s.votes, vote, |s.authorities|);
      var s1 := s.(votes := votes);
      match reply
      case Err(e) => Outcome(s1, Err(e))
      case Ok(None) => Outcome(s1, Ok(()))
      case Ok(Some(qc)) => ProposeOnQc(HandleQc(s1, qc))
  }

  /** The leader's reaction to a certificate it has just assembled. */
  function ProposeOnQc(s: State): (r: Outcome)
    requires WellFormed(s)
    ensures Extends(s, r.state)
    decreases 1, 0
  {
    if !IsLeader(s, s.view) then Outcome(s, Ok(()))
    else
      var (s1, choice) := ProposalPayload(s);
      match choice
      case None => Outcome(s1, Ok(()))
      case Some(payload) =>
        if payload.blockHash == EMPTY_PAYLOAD && TwoTrailingEmpty(s1.hashQueue) then Outcome(s1, Ok(()))
        else
          var kept := if |s1.hashQueue| > 3 then [] else s1.hashQueue;
          var s2 := s1.(hashQueue := kept + [payload.blockHash]);
          match MakeProposal(s2, payload, None)
          case Err(e) => Outcome(s2, Err(e))
          case Ok(p) => HandleProposal(Log(s2, Sent(s2.view, Propose(p))), p)
  }

  function FirstAbove(q: seq<BlockInfo>, number: BlockNumber): Option<BlockInfo> {
    if q == [] then None
    else if q[0].number > number then Some(q[0])
    else FirstAbove(q[1..], number)
  }

  function PayloadOf(info: BlockInfo): Payload {
    Payload(if info.hash.Some? then info.hash.value else EMPTY_PAYLOAD, info.number)
  }

  /** The payload of the next proposal; choosing a pending block makes it the one in process. */
  function ProposalPayload(s: State): (r: (State, Option<Payload>))
    ensures r.0 == s.(processing := r.0.processing)
  {
    match s.processing
    case Some(processing) =>
      var finalized := s.client.finalizedNumber;
      if processing.number > finalized then (s, Some(Payload(EMPTY_PAYLOAD, processing.number)))
      else
        (match FirstAbove(s.pending, finalized)
         case Some(info) => (s.(processing := Some(info)), Some(PayloadOf(info)))
         case None => (s, Some(Payload(EMPTY_PAYLOAD, processing.number))))
    case None =>
      if s.pending == [] then (s, None)
      else (s.(processing := Some(s.pending[0])), Some(PayloadOf(s.pending[0])))
  }

  function GenerateProposal(s: State, tc: Option<TC>): (r: Outcome)
    requires WellFormed(s)
    ensures Extends(s, r.state)
  {
    var (s1, choice) := ProposalPayload(s);
    match choice
    case None => Outcome(s1, Ok(()))
    case Some(payload) =>
      match MakeProposal(s1, payload, tc)
      case Err(e) => Outcome(s1, Err(e))
      case Ok(p) => HandleProposal(Log(s1, Sent(s1.view, Propose(p))), p)
  }

  /** A certificate assembled from timeouts: enter the next view if it is for the current one, and
      pass it on. */
  function UseOwnTc(s: State, tc: TC): (r: State)
    ensures Extends(s, r)
  {
    var s1 := if tc.view >= s.view then AdvanceView(s, tc.view) else s;
    Log(s1, Sent(s1.view, TcMsg(tc)))
  }

  function HandleTimeout(s: State, t: Timeout): (r: Outcome)
    requires WellFormed(s)
    ensures Extends(s, r.state)
  {
    if s.view > t.view then Outcome(s, Ok(()))
    else
      match CheckTimeout(t, s.authorities)
      case Err(e) => Outcome(s, Err(e))
      case Ok(_) =>
        var s1 := HandleQc(s, t.highQc);
        var (timeouts, reply) := TallyTimeout(s1.timeouts, t, |s1.authorities|);
        var s2 := s1.(timeouts := timeouts);
        match reply
        case Err(e) => Outcome(s2, Err(e))
        case Ok(None) => Outcome(s2, Ok(()))
        case Ok(Some(tc)) =>
          var s3 := UseOwnTc(s2, tc);
          ExtendsTransitive(s, s2, s3);
          if IsLeader(s3, s3.view) then
            var s4 := s3.(processing := None);
            ExtendsTransitive(s, s4, GenerateProposal(s4, Some(tc)).state);
            GenerateProposal(s4, Some(tc))
          else Outcome(s3, Ok(()))
  }

  function HandleLocalTimer(s: State): (r: Outcome)
    requires WellFormed(s)
    ensures Extends(s, r.state)
  {
    var s1 := s.(lastVotedView := Max(s.lastVotedView, s.view));
    match MakeTimeout(s1)
    case Err(e) => Outcome(s1, Err(e))
    case Ok(t) => HandleTimeout(Log(s1, Sent(s1.view, TimeoutMsg(t))), t)
  }

  function HandleTc(s: State, tc: TC): (r: Outcome)
    requires WellFormed(s)
    ensures Extends(s, r.state)
  {
    match TcVerdict(s, tc)
    case Err(e) => Outcome(s, Err(e))
    case Ok(_) =>
      var s1 := AdvanceView(s, tc.view).(processing := None);
      if IsLeader(s1, s1.view) then GenerateProposal(s1, None) else Outcome(s1, Ok(()))
  }

  /** The worker's dispatch of one message. */
  function Handle(s: State, m: Message): (r: Outcome)
    requires WellFormed(s)
    ensures Extends(s, r.state)
  {
    match m
    case Propose(p) => HandleProposal(s, p)
    case VoteMsg(v) => HandleVote(s, v)
    case TimeoutMsg(t) => HandleTimeout(s, t)
    case TcMsg(tc) => HandleTc(s, tc)
    case SyncRequest(_, _) => Outcome(s, Ok(()))
  }
}
