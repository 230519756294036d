# A verified model of the two-chain HotStuff finality protocol

The project models the consensus core of the repository: the messages and their verification, the
aggregation of votes and timeouts into certificates, the handlers of one replica, and the protocol that
`n` replicas run together when fewer than a third of them are faulty. It proves what holds in every state of
every run, and shows by a concrete run what does not.

## Layers

- `Types`, `Encoding`: digests, signatures, messages; the byte strings that are hashed.
- `Certificates`: verification of certificates and messages, with its loops; quorum arithmetic.
- `Aggregation`: the aggregator object and what it holds after any sequence of calls.
- `Replica`: the state of one replica and each handler as a function on it. `Worker`: the object the program
  has, whose methods update its fields and are proved to do what those functions say.
- `Reaction`: how far one event can carry a replica (nesting of handlers, votes, proposals, views).
- `Trust`: the environment assumptions. `Invariant`: the invariant of one honest replica, kept by every
  handler. `Protocol`: the transition system, its runs, and the invariant of all replicas together.
- `Effects`: what each event does, case by case: what is refused, recorded, signed, sent and proposed. `Progress`:
  what every event follows through and nothing loses, through all nested calls and over all runs.
- `Safety`: certificates, chains and finalisation over all runs. `Runs`: voting, view changes and sent
  messages over all runs.
- `Blocks`: when finalised proposals carry the same block. `Clients`: what the clients have finalised, over all
  runs in which only the consensus finalises. `Steps`, `Fork`: two runs in which clients finalise competing blocks.
- `Gossip`: the gossip validator's filters. `PendingQueue`: the queue of blocks waiting to be finalised. `Stale`: a
  run in which a block below the finalised one is proposed.

## Environment assumptions

- The authority list is fixed, has at least two entries and no duplicates, and fewer than a third of its
  members are faulty (`Trust.ValidConfig`). Each replica has one key, found in its keystore, and does not
  restart: nothing of the consensus state is persisted.
- Signatures are ideal: a signature of an honest authority exists only if that authority made it earlier in
  the run (`Trust.Authentic`). Faulty authorities, and anyone outside the list, sign what they like.
- Digests are collision-free and never equal the default hash: a digest is the term it was computed from.
  `Encoding.TermsMatchBytes` shows that the bytes the program hashes separate the same terms.
- Every voter named in a certificate is an authority (`Trust.AuthenticQc`, `Trust.AuthenticTc`). Verification
  of votes and timeouts checks this, verification of certificates does not: `Certificates.OutsiderQc` is a
  certificate of outsiders that passes, `Trust.OutsiderProposal` a proposal that carries one, and
  `Safety.OutsiderCertificatesConflict` shows what then fails. So it is a hypothesis on what reaches a replica;
  `Trust.AcceptedQcMeaning`, `Trust.CheckedQcIsGood` and `Trust.CheckedTcIsQuorum` state that, given
  verification, it is exactly what makes a certificate mean what it says.
- The network delivers any message that can be put together from existing signatures, in any order, any number
  of times or never. Chain events (imported and finalised blocks) happen at any time. For `Clients.ClientsAgree`
  alone they import blocks only, under numbers on which all clients agree, and the clients start from the same
  finalised block (`Clients.BlockRun`).

## Where the code differs from its apparent intent

The model does what the code does.

- `advance_view_from_target` moves the view only for a certificate of exactly the current view; a timeout
  certificate inside a proposal never moves it (`Runs.OnlyExactCertificatesAdvance`,
  `Runs.CarriedCertificates`). A higher certificate does replace the highest known one without moving the view
  (`Effects.ProposalDelivered`, `Effects.TimeoutDelivered`).
- The aggregator records a timeout's own view where the view of its highest certificate was signed, so
  assembled timeout certificates rarely verify: `Aggregation.TcRoundTrip` gives the exact condition and
  `Aggregation.TcRoundTripFails` a failing case.
- `make_vote` has no locking rule, so finalised proposals need not lie on one branch: `Fork.CommitSafetyFails` is a
  run with four authorities, one of them faulty, in which they do not, and in which two honest clients finalise
  different blocks of the same number. `Safety.BranchCondition` states exactly when two finalised proposals lie on
  one branch, and `Safety.LockedSafety` and `Safety.LockedBranch` that a locking rule on votes suffices for that.
  Agreement in the same and in adjacent views needs no such rule (`Safety.FinalizationAgreement`).
- A locking rule does not suffice for the blocks. No handler relates the payload of a proposal to the payloads before
  it on its branch, or the number it claims to the number the client knows the block by, so a replica that misses a
  proposal may finalise a competing block further down the same branch: `Fork.BlockSafetyFails` is such a run, with
  all honest votes under the locking rule. `Blocks.BlockSafetyCondition`, `Blocks.FinalizedBlocksCondition` and
  `Blocks.LockedBlocksCondition` state exactly when blocks agree; with a rule on payloads beside the locking rule all
  finalised proposals (`Blocks.LockedBlocks`) and all clients (`Clients.ClientsAgree`) do. Neither rule suffices
  alone: each of the two runs obeys one of them.
- The message printed when empty proposals stop speaks of three, the loop stops at two trailing entries
  (`Worker.ConsensusWorker.TooManyEmpty`).
- A timeout certificate leaves no block in process, and then the front of the queue is proposed without a look at
  the finalised number (`Stale.StaleBlockProposed`, `PendingQueue.ProposedAboveFinalized`).
- At start-up the pending blocks are looked up and then dropped: the queue starts empty
  (`PendingQueue.PendingFinalizeBlockQueue.Create`).

## Model

| member | source | states |
|---|---|---|
| `Safety.FinalizationAgreement` | hotstuff/consensus/src/consensus.rs:444-468 | In every run, honest replicas that finalise in the same view finalise the same proposal and payload; if one finalises in the next view, its proposal is the child of the other's. No voting rule is assumed. |
| `Safety.FinalizedIsTwoChain` | hotstuff/consensus/src/consensus.rs:439-464 | Every finalise call in every run rests on a full two-chain: the finalised proposal and its child are of consecutive views and both certified by a quorum, through certificates whose views are those of the proposals. |
| `Safety.ViewsDescend` | hotstuff/consensus/src/consensus.rs:428-495 | In every run the parent of a certified proposal has a strictly lower view and is itself certified or the default, although no handler compares the two. |
| `Safety.StoredCopiesDescend` | hotstuff/consensus/src/synchronizer.rs:57-98 | The certificate in any stored copy of a certified proposal is of a lower view than the proposal. |
| `Safety.OneCertificatePerView` | hotstuff/consensus/src/message.rs:51-75 | Two certificates of one view that pass verification in a reachable state and name authorities only are for the same proposal, whose view is theirs. |
| `Safety.OutsiderCertificatesConflict` | hotstuff/consensus/src/message.rs:51-75 | Without the condition on the voters it fails: for any view and any two hashes there are two certificates that pass verification and need no authority's signature. |
| `Safety.CertificateView` | hotstuff/consensus/src/consensus.rs:135-159 | A quorum of votes of a view is for a proposal of that view, and the view is not 0. |
| `Safety.DefaultIsNotCertified` | hotstuff/consensus/src/message.rs:151-153 | In no reachable state does a certificate that names authorities only and equals the default one pass verification, so for such certificates skipping it loses nothing. |
| `Safety.SafetyCondition` | hotstuff/consensus/src/consensus.rs:135-159 | In every run, a certified proposal of the same or a later view descends from a finalised one if and only if every proposal on its branch after the finalised one's child was proposed on a certificate of at least the finalised one's view. |
| `Safety.BranchCondition` | hotstuff/consensus/src/consensus.rs:135-159 | Exact condition for one branch: two finalised proposals lie on one branch if and only if every proposal on the later one's branch after the earlier one's child was proposed on a certificate of at least the earlier one's view. |
| `Safety.LockedSafety` | hotstuff/consensus/src/consensus.rs:135-159 | If honest replicas vote only for proposals whose certificate is no lower than those they voted for before, every later certified proposal descends from any finalised one. |
| `Safety.LockedBranch` | hotstuff/consensus/src/consensus.rs:135-159 | Under the same rule all finalised proposals of all honest replicas lie on one branch. |
| `Blocks.BlockSafetyCondition` | hotstuff/consensus/src/consensus.rs:444-464 | In every run, a certified proposal descends from a finalised one and all proposals of that block's number on its branch carry that block, if and only if the branch carries high enough certificates and each proposal of that number repeats the block of the one before it. |
| `Blocks.AgreeIffRepeats` | hotstuff/consensus/src/consensus.rs:444-464 | All proposals of a set on a branch carry the same block if and only if each repeats the block of the nearest one before it. |
| `Blocks.InOrderBlocks` | hotstuff/consensus/src/consensus.rs:444-464 | Two finalised proposals that carry blocks of one number carry the same block if the later branch carries high enough certificates and each block on it is the one before it or of a higher number, by the clients' numbers. |
| `Blocks.FinalizedBlocksCondition` | hotstuff/consensus/src/consensus.rs:444-464 | When the finalised proposals lie on one branch, no two finalised blocks of one number differ if and only if each finalised proposal repeats the block of the finalised one of its number before it. |
| `Blocks.LockedBlocksCondition` | hotstuff/consensus/src/consensus.rs:135-159 | That condition is exact in every run whose honest votes obey the locking rule. |
| `Blocks.OrderedBlocks` | hotstuff/consensus/src/consensus.rs:135-159 | If honest replicas vote only for proposals that repeat the block of the last proposal of the same number before them, finalised proposals on one branch with blocks of one number carry the same block. |
| `Blocks.LockedBlocks` | hotstuff/consensus/src/consensus.rs:135-159 | Under that rule and the locking rule, in every run all finalised proposals with blocks of one number carry the same block. |
| `Clients.ClientsAgree` | hotstuff/consensus/src/consensus.rs:444-464 | Under both rules, no two honest clients ever have different finalised blocks of the same number, in any run in which only the consensus finalises. |
| `Clients.RunClientInv` | hotstuff/consensus/src/consensus.rs:444-464 | In every such run a client's finalised block is the common starting one or a higher one its replica asked for, under its true number. |
| `Fork.CommitSafetyFails` | hotstuff/consensus/src/consensus.rs:135-159 | Without such a rule there is a run in which two honest replicas finalise proposals neither of which descends from the other, and their clients end with different finalised blocks of the same number; the honest votes of that run break the locking rule and obey the rule on payloads. |
| `Fork.BlockSafetyFails` | hotstuff/consensus/src/consensus.rs:411-464 | For any claimed number there is a run whose honest votes obey the locking rule in which two honest replicas finalise proposals of one branch and their clients end with different finalised blocks of the same number; its votes break the rule on payloads. |
| `Fork.PlayRound` | hotstuff/consensus/src/consensus.rs:402-561 | A faulty leader can, from the default certificate or one of an earlier proposal, get a proposal voted for, certified, extended by the honest next leader and finalised by both honest replicas, whatever number its payload claims. |
| `Fork.SkipView` | hotstuff/consensus/src/consensus.rs:334-399 | Timers and one certificate of the resulting timeouts take both replicas to the next view, with their highest certificate unchanged. |
| `Fork.PlayObserved` | hotstuff/consensus/src/consensus.rs:402-464 | A replica that missed everything before finalises the competing block of a second round on its three proposals alone: that call is its whole history. |
| `Runs.VotingDiscipline` | hotstuff/consensus/src/consensus.rs:78-159 | In every run an honest replica votes in its current view, never in view 0, in strictly increasing views, and never in a view it has timed out of; the last voted view never exceeds the view. |
| `Runs.ViewLadder` | hotstuff/consensus/src/consensus.rs:204-214 | A replica past a view other than 0 got there on the word of a quorum whose honest members, more than the faulty ones in number, were in that view and signed a vote or timeout of it there. |
| `Runs.OnlyExactCertificatesAdvance` | hotstuff/consensus/src/consensus.rs:204-214 | No timer, message or chain event takes a replica out of its view unless a certificate of exactly that view is at hand: carried by the message, the replica's highest one, or completed by the event from votes or timeouts. |
| `Runs.CarriedCertificates` | hotstuff/consensus/src/consensus.rs:563-569 | A carried quorum certificate moves the view, by one, exactly when it is for the current view; from the current view on it raises the highest certificate's view to the maximum of both, also when the view does not move. The timeout certificate of a proposal never moves the view. |
| `Runs.CompletedQcAdvances` | hotstuff/consensus/src/consensus.rs:500-561 | A vote of the current view that completes a quorum certificate takes the replica past that view, with a highest certificate of at least that view. |
| `Runs.CompletedTcAdvances` | hotstuff/consensus/src/consensus.rs:352-399 | A timeout that completes a timeout certificate sends it, and takes the replica past the timed-out view unless the replica lags behind that view once the timeout's highest certificate is used. |
| `Runs.RunExtends` | hotstuff/consensus/src/consensus.rs:204-214 | Along a run no replica's view, last voted view or highest certificate goes back, and nothing leaves its store or its history. |
| `Runs.ViewsBounded` | hotstuff/consensus/src/consensus.rs:210-214 | After k events a view is at most 3k, so 64-bit views do not overflow in practice. |
| `Runs.EmissionComplete` | hotstuff/consensus/src/consensus.rs:82-208 | Every proposal, vote and timeout an honest replica sends can be delivered to every honest replica and passes its verification, including the leader rule. |
| `Runs.SentTcAccepted` | hotstuff/consensus/src/consensus.rs:366-386 | A timeout certificate an honest replica sends passes verification if and only if each timeout in it was signed over a highest certificate of the timed-out view. |
| `Progress.EverythingFollowed` | hotstuff/consensus/src/consensus.rs:402-498 | In every reachable state the certificate of each stored proposal is no higher than the replica's highest one or of a view it has left; each proposal voted for is stored, and the vote was counted by a replica that leads the next view and sent by any other. |
| `Progress.HandleSettles` | hotstuff/consensus/src/consensus.rs:295-332 | Whatever message is handled, through all nested calls: no counted vote or timeout is lost, each vote cast is passed on, each proposal sent is handled by its sender, each unknown block asked for, and the client's finalised block stays or rises to one the replica asked for, and does rise to it if known. |
| `Progress.HandleTimerSettles` | hotstuff/consensus/src/consensus.rs:334-350 | The same for the timer, whose own timeout is counted. |
| `Progress.HandleProposalSettles` | hotstuff/consensus/src/consensus.rs:402-498 | A proposal that passes verification is stored, or its block asked for if unknown, whatever else its handling leads to. |
| `Progress.HandleVoteSettles` | hotstuff/consensus/src/consensus.rs:500-561 | A vote that passes verification is counted, whatever else its handling leads to. |
| `Progress.HandleTimeoutSettles` | hotstuff/consensus/src/consensus.rs:352-399 | A timeout that is not old and passes verification is counted, whatever else its handling leads to. |
| `Effects.ProposalRefused` | hotstuff/consensus/src/consensus.rs:402-428 | A failing lookup of the block is an error, an unknown block is asked for and nothing else done, and a proposal that fails verification changes nothing. |
| `Effects.ProposalDelivered` | hotstuff/consensus/src/consensus.rs:428-442 | A proposal that passes verification is stored, its certificate, from the current view on, is no higher than the highest one afterwards, and if it is of the current view the replica leaves that view. |
| `Effects.VoteExact` | hotstuff/consensus/src/consensus.rs:466-498 | A proposal that passes verification is voted for if and only if the replica is an authority, the proposal is for the view its certificate leads to and nothing was signed for that view or a later one. |
| `Effects.FinalizeExact` | hotstuff/consensus/src/consensus.rs:444-464 | It leads to a finalise call if and only if its parent and grandparent are stored, of consecutive views, and the grandparent's block is neither empty nor the finalised one. |
| `Effects.VoteLeaves` | hotstuff/consensus/src/consensus.rs:466-498 | A vote that is sent on makes the proposal's block the one in process and lists its payload; without a vote neither changes. |
| `Effects.VoteDelivered` | hotstuff/consensus/src/consensus.rs:500-516 | A vote is refused without effect or counted; a certificate it completes is no higher than the highest one afterwards, and one of the current view takes the replica out of it. |
| `Effects.BlockProposedOnQc` | hotstuff/consensus/src/consensus.rs:516-555 | A vote that completes a certificate makes the leader of the view it leads to propose, on its highest certificate, the first pending block above the finalised one, once the block in process is finalised. |
| `Effects.EmptyProposedOnQc` | hotstuff/consensus/src/consensus.rs:516-555 | With no block to propose it proposes an empty payload, unless its last two listed payloads were empty. |
| `Effects.ProposeExact` | hotstuff/consensus/src/consensus.rs:516-555 | After a completed certificate a replica proposes if and only if it leads its view, there is a payload, and it is not empty after two empty ones; the payload is listed, in a list cleared when it holds more than three. |
| `Effects.GenerateExact` | hotstuff/consensus/src/consensus.rs:587-613 | After a timeout certificate a leader proposes if and only if there is a payload, on its highest certificate and with the timeout certificate it was given. |
| `Effects.TimerFires` | hotstuff/consensus/src/consensus.rs:334-350 | The timer gives up the vote of the view and sends a timeout of it with the highest certificate; without a key it fails. |
| `Effects.TimeoutDelivered` | hotstuff/consensus/src/consensus.rs:352-366 | An old timeout is ignored, one that fails verification refused; any other is counted, its certificate, from the current view on, is no higher than the highest one afterwards, and one of the current view takes the replica out of it whether or not a timeout certificate is completed. |
| `Effects.ProposedOnOwnTc` | hotstuff/consensus/src/consensus.rs:366-396 | A completed timeout certificate is sent; then the leader of the view it leads to drops its block in process and proposes the front of the queue with the certificate. |
| `Effects.TcDelivered` | hotstuff/consensus/src/consensus.rs:571-585 | A timeout certificate is refused without effect or leaves no block in process; one of the current view takes the replica out of it, and the leader of the view it leads to proposes the front of the queue. |
| `Effects.PayloadOfBlock` | hotstuff/consensus/src/consensus.rs:630-642 | The payload of a pending block is its hash and number; a block without a hash gives an empty payload. |
| `Effects.SyncRequestIgnored` | hotstuff/consensus/src/consensus.rs:326-328 | A sync request changes nothing. |
| `Effects.SignedExact` | hotstuff/consensus/src/message.rs:138-150 | An unknown signer is reported before a missing signature, that before a wrong one; accepted exactly with the signer's own signature. |
| `Effects.ProposalVerdictExact` | hotstuff/consensus/src/consensus.rs:169-176 | A wrong author is reported first, then the signature, then the certificate, which is not looked at if it equals the default one. |
| `Effects.TimeoutVerdictExact` | hotstuff/consensus/src/message.rs:214-231 | Signer and signature of a timeout are reported before its certificate, which is not looked at if it equals the default one. |
| `Effects.VoteVerdictExact` | hotstuff/consensus/src/consensus.rs:178-184 | An old vote is reported before its signer and signature. |
| `Effects.TcVerdictExact` | hotstuff/consensus/src/consensus.rs:186-192 | An old timeout certificate is reported before what its verification finds. |
| `Effects.LeadersTakeTurns` | hotstuff/consensus/src/consensus.rs:216-219 | Leaders take turns in the order of the list. |
| `Protocol.ReachableInv` | hotstuff/consensus/src/consensus.rs:295-332 | Every state of every run satisfies the invariant of all replicas. |
| `Protocol.StepInv` | hotstuff/consensus/src/consensus.rs:295-332 | Each timer, delivery or chain event at one replica keeps the invariant of all. |
| `Protocol.DescentStep` | hotstuff/consensus/src/consensus.rs:466-495 | A proposal whose parent is not of a lower view, once voted for, is blocked for good: a quorum's honest members have passed its view without voting for it. |
| `Protocol.FirstVoteBlocks` | hotstuff/consensus/src/consensus.rs:428-495 | The first honest vote for such a proposal is cast on a certificate whose honest signers can no longer vote for it. |
| `Invariant.HandleInv` | hotstuff/consensus/src/consensus.rs:295-332 | Every handler keeps a replica's invariant on any authentic message: verified highest certificate, sound buckets and store, witnessed views, voting discipline, sound history. |
| `Invariant.HandleLocalTimerInv` | hotstuff/consensus/src/consensus.rs:334-350 | So does the local timer. |
| `Invariant.HandleProposalInv` | hotstuff/consensus/src/consensus.rs:402-498 | So does a proposal whose certificate is sound if it verifies, through the nested handling of the own vote. |
| `Invariant.HandleVoteInv` | hotstuff/consensus/src/consensus.rs:500-561 | So does a vote, through the nested proposal of a new leader. |
| `Invariant.HandleTimeoutInv` | hotstuff/consensus/src/consensus.rs:352-399 | So does a timeout, through the certificate it may complete and the proposal that follows. |
| `Invariant.HandleTcInv` | hotstuff/consensus/src/consensus.rs:571-585 | So does a timeout certificate. |
| `Invariant.TallyVoteInv` | hotstuff/consensus/src/aggregator.rs:22-81 | A certificate assembled by an honest replica passes verification and is signed by a quorum of authorities. |
| `Invariant.TryFinalizeInv` | hotstuff/consensus/src/synchronizer.rs:57-98 | A finalise call happens only on stored proposals that sit under their digests and whose certificates were verified. |
| `Trust.CheckedQcIsGood` | hotstuff/consensus/src/message.rs:51-75 | A certificate that passes verification, or equals the default one, is the default or signed by authorities as it claims, if and only if it is the default or names authorities only. |
| `Trust.AcceptedQcMeaning` | hotstuff/consensus/src/message.rs:51-75 | The voters of a certificate that passes verification are a quorum, and voted as it says, if and only if they are all authorities. |
| `Trust.OutsiderProposal` | hotstuff/consensus/src/message.rs:138-158 | A faulty leader can put a certificate for any hash and view, signed by no authority, into a proposal that every replica accepts. |
| `Trust.OutsiderTcAdvances` | hotstuff/consensus/src/consensus.rs:571-585 | A timeout certificate signed by no authority takes any replica out of its view. |
| `Trust.CheckedTcIsQuorum` | hotstuff/consensus/src/message.rs:242-270 | A timeout certificate that passes verification carries timeouts of its view signed by a quorum if and only if it names authorities only. |
| `Trust.QuorumsMeet` | hotstuff/consensus/src/message.rs:49-65 | Any two quorums share an honest authority. |
| `Reaction.ProposalFrames` | hotstuff/consensus/src/consensus.rs:480-555 | At most two proposal handlers and one vote handler are nested, and none inside a leader's own proposal. |
| `Reaction.MessageFrames` | hotstuff/consensus/src/consensus.rs:295-332 | The same bound for every kind of message: votes, timeouts and timeout certificates open at most one proposal handler and no further vote handler. |
| `Reaction.CallsShow` | hotstuff/consensus/src/consensus.rs:295-332 | The counted calls are those the handlers make: beyond the handling of the message itself, the proposal handler is called once per proposal sent and the vote handler once per vote cast and not sent. |
| `Reaction.TimerCallsShow` | hotstuff/consensus/src/consensus.rs:334-350 | The same for the timer: the proposal handler is called once per proposal sent, the vote handler never. |
| `Reaction.OwnProposalReaction` | hotstuff/consensus/src/consensus.rs:541-555 | Handling its own proposal a leader collects no vote and proposes nothing further. |
| `Reaction.VoteReaction` | hotstuff/consensus/src/consensus.rs:500-561 | A vote leads to at most one proposal, one vote and two new views. |
| `Reaction.BoundedReaction` | hotstuff/consensus/src/consensus.rs:295-332 | Any message leads to at most two votes, one proposal and three new views. |
| `Replica.ConsecutiveLeaders` | hotstuff/consensus/src/consensus.rs:216-219 | No replica leads two consecutive views. |
| `Replica.HandleProposal` | hotstuff/consensus/src/consensus.rs:402-498 | Views, highest certificate, store and history only grow, and the gossip validator stays on the replica's view; terminates although it and the vote handler call each other. |
| `Replica.HandleVote` | hotstuff/consensus/src/consensus.rs:500-561 | Views, highest certificate, store and history only grow and the gossip validator stays on the replica's view when a vote is handled, including the nested proposal. |
| `Replica.HandleTimeout` | hotstuff/consensus/src/consensus.rs:352-399 | Views, highest certificate, store and history only grow and the gossip validator stays on the replica's view when a timeout is handled. |
| `Replica.HandleLocalTimer` | hotstuff/consensus/src/consensus.rs:334-350 | Views, highest certificate, store and history only grow and the gossip validator stays on the replica's view when the timer fires. |
| `Replica.HandleTc` | hotstuff/consensus/src/consensus.rs:571-585 | Views, highest certificate, store and history only grow and the gossip validator stays on the replica's view when a timeout certificate is handled. |
| `Replica.HandleQc` | hotstuff/consensus/src/consensus.rs:563-569 | Views, highest certificate, store and history only grow and the gossip validator stays on the replica's view when a quorum certificate is used; the last voted view and the history are untouched. |
| `Replica.GenerateProposal` | hotstuff/consensus/src/consensus.rs:587-613 | Views, highest certificate, store and history only grow and the gossip validator stays on the replica's view when a leader proposes. |
| `Replica.ProposalPayload` | hotstuff/consensus/src/consensus.rs:615-670 | Choosing a payload changes nothing but the block in process. |
| `Worker.ConsensusWorker.constructor` | hotstuff/consensus/src/consensus.rs:58-67 | A new worker is in the initial state, with the front of the pending queue in process. |
| `Worker.ConsensusWorker.HandleProposal` | hotstuff/consensus/src/consensus.rs:402-464 | In place, does to all fields what the handler function does to the state, with the same result or error. |
| `Worker.ConsensusWorker.VoteOn` | hotstuff/consensus/src/consensus.rs:466-498 | In place, does to all fields what the handler function does to the state, with the same result or error, for the voting half, including the call of the vote handler on the own vote. |
| `Worker.ConsensusWorker.HandleVote` | hotstuff/consensus/src/consensus.rs:500-561 | In place, does to all fields what the handler function does to the state, with the same result or error, for votes, including the call of the proposal handler on the own proposal. |
| `Worker.ConsensusWorker.HandleTimeout` | hotstuff/consensus/src/consensus.rs:352-399 | In place, does to all fields what the handler function does to the state, with the same result or error, for timeouts. |
| `Worker.ConsensusWorker.HandleLocalTimer` | hotstuff/consensus/src/consensus.rs:334-350 | In place, does to all fields what the handler function does to the state, with the same result or error, for the timer. |
| `Worker.ConsensusWorker.HandleTc` | hotstuff/consensus/src/consensus.rs:571-585 | In place, does to all fields what the handler function does to the state, with the same result or error, for timeout certificates. |
| `Worker.ConsensusWorker.HandleQc` | hotstuff/consensus/src/consensus.rs:563-569 | In place, does to all fields what the handler function does to the state, with the same result or error, for quorum certificates. |
| `Worker.ConsensusWorker.HandleMessage` | hotstuff/consensus/src/consensus.rs:299-329 | In place, does to all fields what the handler function does to the state, with the same result or error, for the dispatch of any message. |
| `Worker.ConsensusWorker.GenerateProposal` | hotstuff/consensus/src/consensus.rs:587-613 | In place, does to all fields what the handler function does to the state, with the same result or error, for a leader's proposal. |
| `Worker.ConsensusWorker.GetProposalPayload` | hotstuff/consensus/src/consensus.rs:615-670 | The search loop picks the first pending block above the finalised number, and the choice is that of the payload function. |
| `Worker.ConsensusWorker.TooManyEmpty` | hotstuff/consensus/src/consensus.rs:522-532 | The counting loop stops a proposal exactly when its payload and the last two queued payloads are empty. |
| `Worker.ConsensusWorker.MakeVote` | hotstuff/consensus/src/consensus.rs:135-159 | A vote is signed exactly when the replica is an authority and the proposal's view is above every view voted in or timed out of. |
| `Worker.ConsensusWorker.MakeTimeout` | hotstuff/consensus/src/consensus.rs:82-104 | The timeout passes verification if and only if the replica is an authority and its highest certificate would pass; without a key there is none. |
| `Worker.ConsensusWorker.MakeProposal` | hotstuff/consensus/src/consensus.rs:106-133 | The proposal passes verification, leader rule included, if and only if the replica leads its view and its highest certificate would pass. |
| `Worker.ConsensusWorker.AdvanceView` | hotstuff/consensus/src/consensus.rs:672-675 | The view grows, by one, if and only if the target is the current view, and falls if and only if the target is more than one below it; the gossip validator ends on the same view. |
| `Worker.ConsensusWorker.UpdateHighQc` | hotstuff/consensus/src/consensus.rs:204-208 | The highest certificate's view becomes the maximum of both; of two certificates of one view the earlier stays. |
| `Worker.ConsensusWorker.IncreaseLastVotedView` | hotstuff/consensus/src/consensus.rs:78-80 | Afterwards a proposal may be voted for if and only if it could be before and is of a later view than the current one. |
| `Worker.ConsensusWorker.VerifyProposal` | hotstuff/consensus/src/consensus.rs:169-176 | Leader rule first, then authority, signature and certificate, in the order of the errors. |
| `Worker.ConsensusWorker.VerifyTimeout` | hotstuff/consensus/src/message.rs:214-231 | Authority, signature, then certificate unless it equals the default one. |
| `Worker.ConsensusWorker.TryFinalize` | hotstuff/consensus/src/consensus.rs:444-464 | Calls the client exactly on two stored ancestors of consecutive views with a block that is neither empty nor the finalised one. |
| `Worker.ConsensusWorker.GetProposalAncestors` | hotstuff/consensus/src/synchronizer.rs:70-78 | In a store keyed by digest, the stored proposals whose digests the certificates of the proposal and of its parent name; an error exactly when there are no two such. |
| `Worker.ConsensusWorker.GetProposalParent` | hotstuff/consensus/src/synchronizer.rs:80-98 | In a store keyed by digest, the stored proposal whose digest the certificate names; an error exactly when no stored proposal has that digest. |
| `Certificates.VerifyQc` | hotstuff/consensus/src/message.rs:51-75 | The two loops return the verdict characterised by `CheckMeaning`. |
| `Certificates.VerifyTc` | hotstuff/consensus/src/message.rs:242-270 | The two loops return the verdict characterised by `CheckMeaning`, each entry under its own digest. |
| `Certificates.CheckMeaning` | hotstuff/consensus/src/message.rs:51-75 | Accepted exactly when voters are distinct, more than two thirds in number and all signatures verify; the first reuse is reported before a missing quorum, that before the first bad signature. |
| `Certificates.OutsiderQc` | hotstuff/consensus/src/message.rs:55-61 | For any authority list, hash and view there is a certificate that passes verification although every voter is outside the list. |
| `Certificates.OutsiderTc` | hotstuff/consensus/src/message.rs:246-252 | For any authority list and view there is a timeout certificate that passes verification although every voter is outside the list. |
| `Certificates.QuorumsIntersect` | hotstuff/consensus/src/message.rs:63-65 | Two sets of more than two thirds of the authorities share more members than there are faulty ones. |
| `Certificates.QuorumHonest` | hotstuff/consensus/src/message.rs:63-65 | Such a set has more honest members than there are faulty authorities. |
| `Aggregation.Aggregator.AddVote` | hotstuff/consensus/src/aggregator.rs:22-81 | Updates the nested buckets in place and replies as the tally function says. |
| `Aggregation.Aggregator.AddTimeout` | hotstuff/consensus/src/aggregator.rs:35-123 | Updates the nested timeout buckets in place and replies as the tally function says. |
| `Aggregation.BucketIsFirstVotes` | hotstuff/consensus/src/aggregator.rs:22-81 | After any calls a bucket holds each voter's first signed vote in order of arrival, with their number as weight; unsigned votes leave no mark. |
| `Aggregation.AddVoteReply` | hotstuff/consensus/src/aggregator.rs:58-81 | A certificate is returned exactly on a new signed voter once the voters number more than two thirds; the reply in terms of the history alone. |
| `Aggregation.QcRoundTrip` | hotstuff/consensus/src/aggregator.rs:22-81 | Every certificate issued after any interleaving of verified votes passes verification and names authorities only. |
| `Aggregation.BucketIsFirstTimeouts` | hotstuff/consensus/src/aggregator.rs:35-123 | The same characterisation of timeout buckets. |
| `Aggregation.AddTimeoutReply` | hotstuff/consensus/src/aggregator.rs:100-123 | The same characterisation of the replies to timeouts. |
| `Aggregation.TcRoundTrip` | hotstuff/consensus/src/aggregator.rs:100-123 | A timeout certificate assembled from verified timeouts passes verification if and only if each of them has a highest certificate of its own view. |
| `Aggregation.TcRoundTripFails` | hotstuff/consensus/src/aggregator.rs:100-123 | Two verified timeouts of view 1 on the default certificate, among two authorities, whose assembled certificate fails verification on its first signature. |
| `Encoding.PreimageInjective` | hotstuff/consensus/src/message.rs:129-212 | The hashed bytes, length prefix included, determine all fields, and votes, timeouts and proposals never share them. |
| `Encoding.DataLayout` | hotstuff/consensus/src/message.rs:129-212 | Where each field stands in the collected bytes, and that it reads back to its value. |
| `Encoding.CompactRoundTrip` | hotstuff/consensus/src/message.rs:36-41 | The length prefix reads back to the length, and its mode bits tell its own length. |
| `Encoding.TermsMatchBytes` | hotstuff/consensus/src/message.rs:36-212 | Two digest terms are equal exactly when the program hashes the same bytes for them. |
| `Encoding.QcSharesVotePreimage` | hotstuff/consensus/src/message.rs:36-41 | A certificate and a vote are signed over the same bytes exactly when they agree on proposal and view. |
| `Encoding.LittleEndianRoundTrip` | hotstuff/consensus/src/message.rs:36-41 | Decoding a fixed-width number gives the number back. |
| `Gossip.FiltersAgree` | hotstuff/consensus/src/network.rs:105-178 | The three filters give one verdict on the consensus topic despite different guards, by the message's own view: drop what does not decode or lies more than one view back, keep everything else; under another topic nothing is passed on. |
| `Gossip.SentIsKept` | hotstuff/consensus/src/network.rs:105-178 | In every run, a proposal, vote or timeout an honest replica sends is kept by every honest validator that is at most one view ahead of the sender's view at that time. |
| `Gossip.ValidatorFollows` | hotstuff/consensus/src/network.rs:81-89 | In every run the validator's view is its replica's view. |
| `Gossip.DroppedIsIgnored` | hotstuff/consensus/src/network.rs:105-178 | A vote, timeout or timeout certificate the filters drop has no effect on the replica then or at any later point of the run. |
| `PendingQueue.PendingFinalizeBlockQueue.Create` | hotstuff/consensus/src/import.rs:197-218 | Start-up fails exactly when a lookup between the finalised and the best block fails; the queue starts empty. |
| `PendingQueue.PendingFinalizeBlockQueue.Poll` | hotstuff/consensus/src/import.rs:230-273 | One poll receives all imports, then all finality notices: afterwards the front lies above the last notice, and if numbers increase the queue holds exactly the queued and newly imported best blocks above every notice. Every queued block has a hash. |
| `PendingQueue.PendingFinalizeBlockQueue.PopFinalized` | hotstuff/consensus/src/import.rs:258-265 | The pop loop removes the longest front part that is not above the finalised number. |
| `PendingQueue.PollExact` | hotstuff/consensus/src/import.rs:230-273 | What one poll leaves, by its imports and notices: the front lies above the last notice, and with increasing numbers exactly the queued and new best blocks above every notice remain. |
| `PendingQueue.QueueIsSuffix` | hotstuff/consensus/src/import.rs:230-273 | Whatever the order of notifications the queue is a suffix of the imported best blocks. |
| `PendingQueue.QueueExact` | hotstuff/consensus/src/import.rs:230-273 | If imports carry increasing numbers the queue is sorted and holds exactly the best blocks no later finality notice has reached. |
| `PendingQueue.DropExact` | hotstuff/consensus/src/import.rs:254-266 | In a sorted queue a finality notice removes exactly the blocks that are not above it. |
| `PendingQueue.FirstAboveIsLowest` | hotstuff/consensus/src/consensus.rs:630-641 | The search for the next payload finds the lowest pending block above the finalised number, or nothing when there is none. |
| `PendingQueue.PayloadChoice` | hotstuff/consensus/src/consensus.rs:615-670 | With increasing import numbers: no block while the one in process awaits finalisation; once it is finalised, the lowest pending block above the finalised one, which becomes the block in process, or an empty payload; with no block in process, the lowest pending block whatever its number, or nothing when none is pending. |
| `PendingQueue.PayloadExact` | hotstuff/consensus/src/consensus.rs:615-670 | Whatever the numbers in the queue: the first pending block above the finalised one in queue order once the block in process is finalised, the front if none is in process, an empty payload while one awaits finalisation or none is above, nothing if none is pending or in process. |
| `PendingQueue.ProposedAboveFinalized` | hotstuff/consensus/src/consensus.rs:615-670 | A proposed block lies above the finalised one if and only if a block was in process or the front of the queue lies above it. |
| `Stale.StaleBlockProposed` | hotstuff/consensus/src/consensus.rs:571-663 | In some run the delivery of a timeout certificate makes a leader propose block 3 although block 5 is finalised. |
| `PendingQueue.NoticedIsNotProposed` | hotstuff/consensus/src/consensus.rs:615-670 | After the notice of the finalised block and any imports since, a proposed block lies above the finalised one if and only if a block was in process, the notice left a block in the queue, or the first block imported since lies above it. |

## Left out

- The async runtime, channels, timers and the gossip engine: they appear as free choice of the next event and of the message delivered.
- Cryptography, the keystore and the codec: signatures and hashes are ideal, and only field order, widths and the length prefix of hashed data are modelled; signing never fails for a replica that found its key.
- A list with a single authority: there the two handlers call each other for as long as the client keeps finalising, and every model function asks for at least two authorities.
- 64-bit wrap-around: views and numbers are unbounded; `Runs.ViewsBounded` bounds the views replicas reach.
- Storage errors: saving and loading proposals always succeeds; the client's status lookup can fail, and its refusal to finalise is modelled as refusing blocks it does not know or that are not above the finalised one.
- `Safety.LockedSafety`: a locking rule is sufficient, not necessary; the exact condition is `Safety.BranchCondition`.
- `Gossip.DroppedIsIgnored`: says nothing about proposals, which the filters may drop although handling them would store them.
- Liveness: a lagging replica is not moved by a higher certificate, so catching up is not claimed.
- `Safety.DefaultIsNotCertified`: asks that the certificate names authorities only; `Certificates.OutsiderQc` for the default hash and view 0 passes verification.
- `Blocks.LockedBlocks`, `Clients.ClientsAgree`: the two rules are sufficient, not necessary; exact conditions are `Blocks.LockedBlocksCondition` and `Blocks.BlockSafetyCondition`.
- `Clients.ClientsAgree`: blocks are compared by number only; the parent relation between blocks is not part of this model.
- `Safety.OneCertificatePerView`: asks that the certificates name authorities only, which their verification does not check; it fails without that (`Safety.OutsiderCertificatesConflict`).
- Block import, client and configuration code, the pallet, the primitives and the node template are not modelled.
