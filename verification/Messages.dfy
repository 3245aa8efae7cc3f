/** Blocks, proposals, votes, certificates and evidence as they travel between nodes.
    Hashing and signing are free constructors: equal digests have equal headers, and a
    signature verifies only for the signer and the payload it was made from. */
module Messages {

  datatype Option<T> = None | Some(value: T)

  type Command = string

  /** `Digest` is the hash a proposer computes, `HeaderBytes` the one recomputed for a
      block that arrives without a hash, `Invalid` the name a malicious voter makes up. */
  datatype Hash = EmptyHash | Digest(header: Header) | HeaderBytes(header: Header) | Invalid

  datatype Header = Header(extra: string, height: nat, parent: Hash)

  /** The header alone is hashed and signed; the transactions are not covered by it. */
  datatype Block = Block(header: Header, txs: seq<Command>, claimed: Hash)

  function BlockHash(b: Block): Hash {
    if b.claimed.EmptyHash? then HeaderBytes(b.header) else b.claimed
  }

  datatype Payload =
    | HeaderPayload(header: Header)
    | VotePayload(hash: Hash, view: nat, owner: nat)
    | EvidencePayload(target: nat, evidenceView: nat)
    | CertPayload(certHash: Hash, certView: nat)

  datatype Signature = NoSignature | Malformed | Signed(signer: nat, payload: Payload)

  /** The two results of a signature check: the verdict and the error. */
  datatype Verdict = Verdict(ok: bool, err: bool)

  function Verify(signer: nat, payload: Payload, sig: Signature): Verdict {
    Verdict(sig == Signed(signer, payload), !sig.Signed?)
  }

  datatype Vote = Vote(voter: nat, hash: Hash, view: nat, owner: nat, sig: Signature)

  /** A certificate in its communicated form. */
  datatype Certificate = Certificate(hash: Hash, view: nat, ids: seq<nat>, sigs: seq<Signature>)

  const GENESIS_CERT := Certificate(EmptyHash, 1, [], [])

  datatype Proposal = Proposal(
    miner: nat,
    forwardSender: nat,
    forwardSig: Signature,
    view: nat,
    block: Block,
    miningProof: Signature,
    evidence: Certificate)

  /** The signed part every evidence message shares. */
  datatype Accusation = Accusation(target: nat, view: nat, origin: nat, sig: Signature)

  datatype Msg =
    | PropMsg(p: Proposal)
    | VoteMsg(v: Vote)
    | EquivocationMsg(accusation: Accusation, e1: Proposal, e2: Proposal)
    | MaliciousProposalMsg(accusation: Accusation, e: Proposal)
    | MaliciousVoteMsg(accusation: Accusation, ev: Vote)

  /** `id`'s public key is known and verifies its signature under the block header. */
  predicate SignedHeader(n: nat, id: nat, b: Block, sig: Signature) {
    id < n && Verify(id, HeaderPayload(b.header), sig).ok
  }

  predicate SignedVote(n: nat, v: Vote) {
    v.voter < n && Verify(v.voter, VotePayload(v.hash, v.view, v.owner), v.sig).ok
  }

  predicate SignedAccusation(n: nat, a: Accusation) {
    a.origin < n && Verify(a.origin, EvidencePayload(a.target, a.view), a.sig).ok
  }

  function Accuse(origin: nat, target: nat, view: nat): Accusation {
    Accusation(target, view, origin, Signed(origin, EvidencePayload(target, view)))
  }
}
