/** Values exchanged by the replicas: digests, signatures, certificates and messages.

    Hashing is ideal.  A digest is the term it was computed from, so two digests are equal
    exactly when their preimages are, and no computed digest is the default hash.  The module
    `Encoding` shows that the byte preimages the program hashes separate the same terms. */
module Types {

  type AuthorityId = nat
  type View = nat
  type BlockNumber = nat

  datatype Option<+T> = None | Some(value: T)

  datatype Error =
    | AuthorityReuse(id: AuthorityId)
    | InsufficientQuorum
    | InvalidSignature(id: AuthorityId)
    | NullSignature
    | UnknownAuthority(id: AuthorityId)
    | NotAuthority
    | WrongProposer
    | ProposalNoParent
    | ExpiredVote
    | InvalidTC
    | ClientError

  datatype Result<+T> = Ok(value: T) | Err(error: Error)

  datatype Digest =
    | Zero                                   // the default hash
    | Atom(id: nat)                          // a hash the consensus code did not compute itself
    | VoteHash(proposal: Digest, view: View) // of a vote, and of a quorum certificate
    | TimeoutHash(view: View, qcView: View)
    | ProposalHash(author: AuthorityId, payload: Payload, view: View, parent: Digest)

  datatype Payload = Payload(blockHash: Digest, blockNumber: BlockNumber)

  /** The payload hash of a proposal that carries no block. */
  const EMPTY_PAYLOAD := Atom(0)

  /** A signature made by the key of `signer`, or bytes that verify under no key. */
  datatype Signature = Sig(signer: AuthorityId, digest: Digest) | Garbage

  predicate Verifies(signature: Signature, digest: Digest, id: AuthorityId) {
    signature == Sig(id, digest)
  }

  datatype QC = QC(proposalHash: Digest, view: View, votes: seq<(AuthorityId, Signature)>)

  const DEFAULT_QC := QC(Zero, 0, [])

  /** Certificates are compared on hash and view only. */
  predicate EqualsDefault(qc: QC) {
    qc.proposalHash == Zero && qc.view == 0
  }

  datatype TC = TC(view: View, votes: seq<(AuthorityId, Signature, View)>)

  datatype Proposal = Proposal(
    qc: QC, tc: Option<TC>, payload: Payload, view: View, author: AuthorityId, signature: Option<Signature>)

  datatype Vote = Vote(proposalHash: Digest, view: View, voter: AuthorityId, signature: Option<Signature>)

  datatype Timeout = Timeout(highQc: QC, view: View, voter: AuthorityId, signature: Option<Signature>)

  datatype Message =
    | Propose(proposal: Proposal)
    | VoteMsg(vote: Vote)
    | TimeoutMsg(timeout: Timeout)
    | TcMsg(tc: TC)
    | SyncRequest(hash: Digest, id: AuthorityId)

  function Max(a: nat, b: nat): nat {
    if a < b then b else a
  }

  function QcDigest(qc: QC): Digest {
    VoteHash(qc.proposalHash, qc.view)
  }

  function ProposalDigest(p: Proposal): Digest {
    ProposalHash(p.author, p.payload, p.view, p.qc.proposalHash)
  }

  function VoteDigest(v: Vote): Digest {
    VoteHash(v.proposalHash, v.view)
  }

  function TimeoutDigest(t: Timeout): Digest {
    TimeoutHash(t.view, t.highQc.view)
  }
}
