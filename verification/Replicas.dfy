/** A node's protocol state and what each handler does to it, one message at a time.
    Map iteration order, which Go leaves open, is the `ids` argument of `HandleVote`;
    a reference that Go would find nil and crash on is treated as a rejected message. */
module Replicas {
  import opened Messages
  import opened Weights
  import opened Tallies
  import opened Reputation

  datatype Ledger = Ledger(
    head: nat,
    byHeight: map<nat, Block>,
    byHash: map<Hash, Block>,
    certs: map<nat, Certificate>)

  datatype Replica = Replica(
    id: nat,
    n: nat,
    view: nat,
    leader: nat,
    ledger: Ledger,
    log: Transcript,
    reputation: map<nat, Table>,
    proposalByView: map<nat, Proposal>,
    forwards: map<nat, map<nat, Proposal>>,
    ballots: map<nat, map<nat, Vote>>,
    certified: map<nat, bool>,
    equivocating: bool,
    withholding: bool,
    maliciousVote: bool)

  /** The state after a handler has run, and the messages it broadcasts (and handles itself). */
  datatype Outcome = Outcome(next: Replica, out: set<Msg>)

  function Row<T>(m: map<nat, map<nat, T>>, view: nat): map<nat, T> {
    if view in m then m[view] else map[]
  }

  function TableAt(reputation: map<nat, Table>, view: nat): Table {
    if view in reputation then reputation[view] else map[]
  }

  function PreviousTable(reputation: map<nat, Table>, view: nat): Table {
    if view == 0 then map[] else TableAt(reputation, view - 1)
  }

  function Initial(id: nat, n: nat): Replica {
    Replica(id, n, 1, 0, Ledger(0, map[], map[], map[0 := GENESIS_CERT]), EMPTY_TRANSCRIPT,
            map[1 := InitialTable(n)], map[], map[], map[], map[], false, false, false)
  }

  // Certificates

  /** The signature stored for an identity; of a repeated identity the last one. */
  function SignatureOf(ids: seq<nat>, sigs: seq<Signature>, id: nat): Signature
    requires |ids| <= |sigs|
  {
    if ids == [] then NoSignature
    else if ids[|ids| - 1] == id then sigs[|ids| - 1]
    else SignatureOf(ids[..|ids| - 1], sigs, id)
  }

  /** Only the error of the signature check is consulted, not its verdict. */
  predicate UsableSignatures(c: Certificate) {
    |c.ids| <= |c.sigs| && forall k :: 0 <= k < |c.ids| ==> SignatureOf(c.ids, c.sigs, c.ids[k]).Signed?
  }

  ghost predicate IsCertValid(byHash: map<Hash, Block>, previous: Table, c: Certificate) {
    || c.hash == EmptyHash
    || (c.hash in byHash
        && (|byHash[c.hash].header.extra| == 1
            || (UsableSignatures(c) && SeqSum(previous, c.ids) > Half(previous))))
  }

  ghost predicate IsOrdering(ids: seq<nat>, s: set<nat>) {
    Distinct(ids) && Elements(ids) == s
  }

  /** Some order to walk a set in. */
  ghost function OrderOf(s: set<nat>): (ids: seq<nat>)
    ensures IsOrdering(ids, s)
  {
    if s == {} then []
    else
      var j :| j in s;
      var front := OrderOf(s - {j});
      assert Elements(front + [j]) == Elements(front) + {j} by {
        assert (front + [j])[|front|] == j;
      }
      front + [j]
  }

  function NewCert(votes: map<nat, Vote>, hash: Hash, view: nat, ids: seq<nat>): Certificate {
    Certificate(hash, view, ids,
                seq(|ids|, k requires 0 <= k < |ids| => if ids[k] in votes then votes[ids[k]].sig else NoSignature))
  }

  // Proposing

  function CandidateProposal(id: nat, leader: nat, cmds: seq<Command>, cert: Certificate, height: nat,
                             extra: string): Proposal
  {
    var header := Header(extra, height, cert.hash);
    Proposal(id, leader, NoSignature, cert.view, Block(header, cmds, Digest(header)),
             Signed(id, HeaderPayload(header)), cert)
  }

  function AddBlock(l: Ledger, b: Block): Ledger {
    l.(head := l.head + 1, byHeight := l.byHeight[b.header.height := b], byHash := l.byHash[BlockHash(b) := b])
  }

  function Propose(r: Replica, cmds: Option<seq<Command>>): Outcome {
    if r.ledger.head !in r.ledger.certs || cmds.None? then Outcome(r, {})
    else
      var p := CandidateProposal(r.id, r.leader, cmds.value, r.ledger.certs[r.ledger.head], r.ledger.head + 1, "");
      Outcome(r.(ledger := AddBlock(r.ledger, p.block),
                 proposalByView := r.proposalByView[r.view := p],
                 log := r.log.(proposals := MarkSole(r.log.proposals, r.view, r.leader))),
              {PropMsg(p)})
  }

  // Forwarding and voting

  ghost predicate Acceptable(r: Replica, p: Proposal) {
    && p.block.claimed == BlockHash(p.block)
    && SignedHeader(r.n, r.leader, p.block, p.miningProof)
    && IsCertValid(r.ledger.byHash, PreviousTable(r.reputation, r.view), p.evidence)
  }

  function Forwarded(id: nat, p: Proposal): Proposal {
    p.(forwardSender := id, forwardSig := Signed(id, HeaderPayload(p.block.header)))
  }

  ghost function Forward(r: Replica, p: Proposal): Outcome {
    Outcome(r, if Acceptable(r, p) then {PropMsg(Forwarded(r.id, p))} else {})
  }

  function CastVote(id: nat, hash: Hash, view: nat, owner: nat): Vote {
    Vote(id, hash, view, owner, Signed(id, VotePayload(hash, view, owner)))
  }

  function VoteFor(r: Replica, hash: Hash, owner: nat): Outcome {
    Outcome(r.(log := r.log.(votes := Mark(r.log.votes, r.view, r.id))),
            {VoteMsg(CastVote(r.id, hash, r.view, owner))})
  }

  /** What a non-leader does with the leader's block once everybody has forwarded it. */
  function AcceptBlock(r: Replica, p: Proposal): Replica {
    r.(ledger := AddBlock(r.ledger, p.block),
       log := r.log.(proposals := MarkSole(r.log.proposals, r.view, r.leader)),
       proposalByView := r.proposalByView[r.view := p])
  }

  function CompleteForwards(r: Replica, p: Proposal): Outcome {
    if r.id == r.leader then VoteFor(r, BlockHash(p.block), p.miner)
    else
      var r' := AcceptBlock(r, p);
      if r.id % 2 != 0 && r.maliciousVote then VoteFor(r'.(maliciousVote := false), Invalid, r.id)
      else VoteFor(r', BlockHash(p.block), p.miner)
  }

  ghost predicate ValidForward(r: Replica, p: Proposal) {
    Acceptable(r, p) && SignedHeader(r.n, p.forwardSender, p.block, p.forwardSig)
  }

  /** All n-1 forwards of the current view are in. */
  predicate ForwardsComplete(r: Replica) {
    |Row(r.forwards, r.view)| + 1 >= r.n
  }

  /** The first proposal seen in a view is the one later ones are compared with. */
  function NoteFirst(r: Replica, p: Proposal): Replica {
    if r.view in r.proposalByView then r else r.(proposalByView := r.proposalByView[r.view := p])
  }

  function NoteForward(r: Replica, p: Proposal): Replica {
    r.(forwards := r.forwards[r.view := Row(r.forwards, r.view)[p.forwardSender := p]])
  }

  ghost function HandleForward(r: Replica, p: Proposal): Outcome {
    if ForwardsComplete(r) || r.equivocating || !ValidForward(r, p) then Outcome(r, {})
    else
      var r1 := NoteFirst(r, p);
      var first := r1.proposalByView[r.view];
      if BlockHash(first.block) != BlockHash(p.block) then
        Outcome(r1.(equivocating := true),
                if r.id == r.leader then {}
                else {EquivocationMsg(Accuse(r.id, r.leader, r.view), first, p)})
      else
        var r2 := NoteForward(r1, p);
        if ForwardsComplete(r2) then CompleteForwards(r2, p) else Outcome(r2, {})
  }

  // Counting votes

  predicate IsCertified(r: Replica) {
    r.view in r.certified && r.certified[r.view]
  }

  function OpenPoll(r: Replica): Replica {
    if r.view in r.ballots then r
    else r.(ballots := r.ballots[r.view := map[]], certified := r.certified[r.view := false])
  }

  ghost function HandleVote(r: Replica, v: Vote, ids: seq<nat>): Outcome {
    if v.owner != r.leader then
      Outcome(r, {MaliciousVoteMsg(Accuse(r.id, v.voter, r.view), v)})
    else
      var r0 := OpenPoll(r);
      if v.voter in r0.ballots[r0.view] || (v.voter != r.id && !SignedVote(r.n, v)) then Outcome(r0, {})
      else Outcome(CountVote(r0.(log := r0.log.(votes := Mark(r0.log.votes, r.view, v.voter))), v, ids), {})
  }

  ghost function CountVote(r: Replica, v: Vote, ids: seq<nat>): Replica
    requires r.view in r.ballots
  {
    if IsCertified(r) then r
    else
      var poll: map<nat, Vote> := r.ballots[r.view][v.voter := v];
      var r1 := r.(ballots := r.ballots[r.view := poll]);
      if !Outweighs(TableAt(r.reputation, r.view), poll.Keys) then r1
      else r1.(certified := r1.certified[r.view := true],
               ledger := r1.ledger.(certs := r1.ledger.certs[r.view := NewCert(poll, v.hash, v.view, ids)]))
  }

  // Misbehaviour

  function EmptyBlock(parent: Hash, height: nat): Block {
    Block(Header("E", height, parent), [], EmptyHash)
  }

  /** The empty block of a failed round, certified on the spot. */
  function AddEmptyBlock(l: Ledger, view: nat): Ledger
    requires l.head in l.certs
  {
    var b := EmptyBlock(l.certs[l.head].hash, l.head + 1);
    var l' := AddBlock(l, b);
    l'.(certs := l'.certs[view := Certificate(BlockHash(b), view, [], [])])
  }

  function HandleWithholding(r: Replica): Replica {
    if r.ledger.head !in r.ledger.certs then r
    else r.(ledger := AddEmptyBlock(r.ledger, r.view),
            log := r.log.(withheld := MarkSole(r.log.withheld, r.view, r.leader)))
  }

  predicate EquivocationValid(n: nat, leader: nat, view: nat, a: Accusation, e1: Proposal, e2: Proposal) {
    && a.target == leader && a.view == view && SignedAccusation(n, a)
    && SignedHeader(n, leader, e1.block, e1.miningProof)
    && SignedHeader(n, leader, e2.block, e2.miningProof)
  }

  function HandleEquivocation(r: Replica, a: Accusation, e1: Proposal, e2: Proposal): Replica {
    if Marked(r.log.equivocations, r.view, r.leader)
       || !EquivocationValid(r.n, r.leader, r.view, a, e1, e2)
       || r.ledger.head !in r.ledger.certs then r
    else r.(ledger := AddEmptyBlock(r.ledger, r.view),
            log := r.log.(equivocations := MarkSole(r.log.equivocations, r.view, r.leader)))
  }

  function HandleMaliciousProposal(r: Replica, p: Proposal): set<Msg> {
    if SignedHeader(r.n, p.miner, p.block, p.miningProof) && p.miner != r.leader && r.id != 0
    then {MaliciousProposalMsg(Accuse(r.id, p.miner, r.view), p)}
    else {}
  }

  predicate MaliciousProposalValid(n: nat, leader: nat, view: nat, a: Accusation, e: Proposal) {
    && a.target != leader && a.view == view && SignedAccusation(n, a)
    && SignedHeader(n, e.miner, e.block, e.miningProof)
  }

  /** Proposal evidence enters a set of offenders. */
  function HandleProposalEvidence(r: Replica, a: Accusation, e: Proposal): Replica {
    if !MaliciousProposalValid(r.n, r.leader, r.view, a, e)
       || a.target in Row(r.log.maliciousProposals, r.view) then r
    else r.(log := r.log.(maliciousProposals := Mark(r.log.maliciousProposals, r.view, e.miner)))
  }

  /** That the vote names another owner than the leader is logged but not required. */
  predicate MaliciousVoteValid(n: nat, view: nat, a: Accusation, e: Vote) {
    a.view == view && SignedAccusation(n, a) && SignedVote(n, e)
  }

  function HandleVoteEvidence(r: Replica, a: Accusation, e: Vote): Replica {
    if !MaliciousVoteValid(r.n, r.view, a, e) || a.target in Row(r.log.maliciousVotes, r.view) then r
    else r.(log := r.log.(maliciousVotes := Mark(r.log.maliciousVotes, r.view, e.voter)))
  }

  // Dispatching messages, starting and ending a round

  ghost function Dispatch(r: Replica, m: Msg, ids: seq<nat>): Outcome {
    match m
    case PropMsg(p) =>
      if p.forwardSender != r.leader then HandleForward(r, p)
      else if p.miner == r.leader then Forward(r, p)
      else Outcome(r, HandleMaliciousProposal(r, p))
    case VoteMsg(v) => HandleVote(r, v, ids)
    case EquivocationMsg(a, e1, e2) => Outcome(HandleEquivocation(r, a, e1, e2), {})
    case MaliciousProposalMsg(a, e) => Outcome(HandleProposalEvidence(r, a, e), {})
    case MaliciousVoteMsg(a, e) => Outcome(HandleVoteEvidence(r, a, e), {})
  }

  /** The start of a round: in a withheld one every node commits an empty block, otherwise
      the leader proposes. */
  function Start(r: Replica, withheld: bool, cmds: Option<seq<Command>>): Outcome {
    var r' := r.(withholding := withheld);
    if withheld then Outcome(HandleWithholding(r'), {})
    else if r.id == r.leader then Propose(r', cmds)
    else Outcome(r', {})
  }

  /** Every node's entry of the next view's table is written; a second round in the same view
      writes them again. */
  function AddReputation(f: real -> real, r: Replica): Replica {
    r.(reputation := r.reputation[r.view + 1 := TableAt(r.reputation, r.view + 1) + NewTable(f, r.n, r.log)])
  }

  function NextLeader(leader: nat, n: nat): nat
    requires n > 0
  {
    (leader + 1) % n
  }

  /** The timer callback at the end of a round. */
  function Callback(f: real -> real, r: Replica): Replica
    requires r.n > 0
  {
    var r' := AddReputation(f, r);
    if r.withholding then r'.(view := r.view + 1, leader := NextLeader(r.leader, r.n))
    else if r.equivocating then
      r'.(equivocating := false, view := r.view + 1, leader := NextLeader(r.leader, r.n))
    else if r.view !in r.ledger.certs then r'
    else r'.(view := r.view + 1, leader := NextLeader(r.leader, r.n))
  }
}
