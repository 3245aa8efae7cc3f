/** What proposing, forwarding and reporting put on the wire, field by field. */
module Proposals {
  import opened Messages
  import opened Weights
  import opened Tallies
  import opened Replicas
  import opened Rounds

  /** A proposal for the next height: by this node, on this certificate, with these commands, hashed and
      signed by the proposer, and not yet forwarded. */
  predicate IsProposalOf(p: Proposal, id: nat, leader: nat, height: nat, cert: Certificate, cmds: seq<Command>) {
    && p.miner == id && p.forwardSender == leader && p.forwardSig == NoSignature
    && p.view == cert.view && p.evidence == cert
    && p.block.header == Header("", height, cert.hash) && p.block.txs == cmds
    && p.block.claimed == Digest(p.block.header) && p.miningProof == Signed(id, HeaderPayload(p.block.header))
  }

  /** A node that proposes sends exactly one proposal, for the height after its head and on the head's
      certificate, has its block on top of its chain and is on record for it; without a certificate
      or without commands it does nothing. */
  lemma ProposeSends(r: Replica, cmds: Option<seq<Command>>)
    ensures if r.ledger.head !in r.ledger.certs || cmds.None? then Propose(r, cmds) == Outcome(r, {})
            else
              var o := Propose(r, cmds);
              exists p :: && o.out == {PropMsg(p)} && o.next.proposalByView == r.proposalByView[r.view := p]
                          && IsProposalOf(p, r.id, r.leader, r.ledger.head + 1, r.ledger.certs[r.ledger.head],
                                          cmds.value)
                          && o.next.ledger.head == r.ledger.head + 1 && o.next.ledger.certs == r.ledger.certs
                          && o.next.ledger.byHeight == r.ledger.byHeight[r.ledger.head + 1 := p.block]
                          && o.next.ledger.byHash == r.ledger.byHash[Digest(p.block.header) := p.block]
                          && Marked(o.next.log.proposals, r.view, r.leader)
  {
    if r.ledger.head in r.ledger.certs && cmds.Some? {
      hide MarkSole;
      var p := CandidateProposal(r.id, r.leader, cmds.value, r.ledger.certs[r.ledger.head], r.ledger.head + 1, "");
      assert Propose(r, cmds).out == {PropMsg(p)};
      assert IsProposalOf(p, r.id, r.leader, r.ledger.head + 1, r.ledger.certs[r.ledger.head], cmds.value);
    }
  }

  /** The very first one builds on the genesis certificate, of view 1 and without signers. */
  lemma FirstSends(n: nat, cmds: seq<Command>)
    ensures var header := Header("", 1, EmptyHash);
            Propose(Initial(0, n), Some(cmds)).out
            == {PropMsg(Proposal(0, 0, NoSignature, 1, Block(header, cmds, Digest(header)),
                                 Signed(0, HeaderPayload(header)), Certificate(EmptyHash, 1, [], [])))}
  {}

  /** A forward is the proposal itself with the forwarder's name and signature, and is sent if and only
      if the block has a hash, the leader has signed it and its certificate is accepted. */
  lemma ForwardSends(r: Replica, p: Proposal)
    ensures Forward(r, p).next == r
    ensures if && p.block.claimed != EmptyHash && r.leader < r.n
               && p.miningProof == Signed(r.leader, HeaderPayload(p.block.header))
               && IsCertValid(r.ledger.byHash, PreviousTable(r.reputation, r.view), p.evidence)
            then exists f :: && Forward(r, p).out == {PropMsg(f)} && f.miner == p.miner && f.view == p.view
                             && f.block == p.block && f.miningProof == p.miningProof && f.evidence == p.evidence
                             && f.forwardSender == r.id
                             && f.forwardSig == Signed(r.id, HeaderPayload(p.block.header))
            else Forward(r, p).out == {}
  {
    hide IsCertValid;
    var f := Forwarded(r.id, p);
    assert Acceptable(r, p) ==> Forward(r, p).out == {PropMsg(f)};
  }

  /** A proposal in its author's own name is reported, by signed accusation, if and only if the author has
      signed it and is not the leader; node 0 reports nobody. */
  lemma ReportSends(r: Replica, p: Proposal)
    ensures HandleMaliciousProposal(r, p)
         == if r.id != 0 && p.miner != r.leader && p.miner < r.n
               && p.miningProof == Signed(p.miner, HeaderPayload(p.block.header))
            then {MaliciousProposalMsg(Accusation(p.miner, r.view, r.id,
                                                  Signed(r.id, EvidencePayload(p.miner, r.view))), p)}
            else {}
  {}

  /** A vote that names another owner than the leader is reported and not counted. */
  lemma StrayVoteSends(r: Replica, v: Vote, ids: seq<nat>)
    requires v.owner != r.leader
    ensures HandleVote(r, v, ids).next == r
    ensures HandleVote(r, v, ids).out
         == {MaliciousVoteMsg(Accusation(v.voter, r.view, r.id, Signed(r.id, EvidencePayload(v.voter, r.view))), v)}
  {}
}
