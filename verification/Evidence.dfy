/** Evidence may arrive in any number and order: what it leaves behind is a set of offenders and
    at most one empty block. */
module Evidence {
  import opened Messages
  import opened Tallies
  import opened Replicas

  datatype Equivocation = Equivocation(a: Accusation, e1: Proposal, e2: Proposal)

  function Convicted(r: Replica, es: seq<Equivocation>): Replica {
    if es == [] then r
    else
      var e := es[|es| - 1];
      HandleEquivocation(Convicted(r, es[..|es| - 1]), e.a, e.e1, e.e2)
  }

  predicate Proves(r: Replica, e: Equivocation) {
    EquivocationValid(r.n, r.leader, r.view, e.a, e.e1, e.e2)
  }

  /** The one empty block, and the leader in the record. */
  function Emptied(r: Replica): Replica
    requires r.ledger.head in r.ledger.certs
  {
    r.(ledger := AddEmptyBlock(r.ledger, r.view),
       log := r.log.(equivocations := MarkSole(r.log.equivocations, r.view, r.leader)))
  }

  /** Evidence can have an effect: the head has a certificate, the leader is not yet on record. */
  predicate Undecided(r: Replica) {
    r.ledger.head in r.ledger.certs && !Marked(r.log.equivocations, r.view, r.leader)
  }

  ghost predicate SomeProof(r: Replica, es: seq<Equivocation>) {
    exists e :: e in es && Proves(r, e)
  }

  lemma SomeProofMore(r: Replica, es: seq<Equivocation>, e: Equivocation)
    ensures SomeProof(r, es + [e]) <==> SomeProof(r, es) || Proves(r, e)
  {}

  lemma ConvictsOne(r: Replica, e: Equivocation)
    ensures HandleEquivocation(r, e.a, e.e1, e.e2) == if Proves(r, e) && Undecided(r) then Emptied(r) else r
    ensures Undecided(r) ==> HandleEquivocation(Emptied(r), e.a, e.e1, e.e2) == Emptied(r)
    ensures Undecided(r) ==> Emptied(r).ledger.head == r.ledger.head + 1
  {}

  /** Any number of messages has the effect of one: a single empty block, added if and only if
      some message is valid, the head has a certificate and the leader is not yet on record. */
  lemma {:induction false} EquivocationOnce(r: Replica, es: seq<Equivocation>)
    ensures Convicted(r, es) == if SomeProof(r, es) && Undecided(r) then Emptied(r) else r
    ensures r.ledger.head <= Convicted(r, es).ledger.head <= r.ledger.head + 1
  {
    if es != [] {
      var front, e := es[..|es| - 1], es[|es| - 1];
      assert es == front + [e];
      EquivocationOnce(r, front);
      SomeProofMore(r, front, e);
      ConvictsOne(r, e);
    }
  }

  datatype Charge = Charge(a: Accusation, e: Vote)

  function Charged(r: Replica, cs: seq<Charge>): Replica {
    if cs == [] then r
    else HandleVoteEvidence(Charged(r, cs[..|cs| - 1]), cs[|cs| - 1].a, cs[|cs| - 1].e)
  }

  predicate Holds(r: Replica, c: Charge) {
    MaliciousVoteValid(r.n, r.view, c.a, c.e)
  }

  ghost function Offenders(r: Replica, cs: seq<Charge>): set<nat> {
    set c | c in cs && Holds(r, c) :: c.e.voter
  }

  lemma OffendersMore(r: Replica, cs: seq<Charge>, c: Charge)
    ensures Offenders(r, cs + [c]) == Offenders(r, cs) + (if Holds(r, c) then {c.e.voter} else {})
  {}

  /** Evidence built by the sending functions names the voter it is against. */
  ghost predicate Sent(cs: seq<Charge>) {
    forall c :: c in cs ==> c.a.target == c.e.voter
  }

  /** `t'` is `t` with these nodes entered for a view. */
  ghost predicate EnteredInto(t: Tally, t': Tally, view: nat, ids: set<nat>) {
    && Row(t', view).Keys == Row(t, view).Keys + ids
    && forall v :: v != view ==> Row(t', v) == Row(t, v)
  }

  lemma EntersOne(t: Tally, t': Tally, view: nat, ids: set<nat>, id: nat)
    requires EnteredInto(t, t', view, ids)
    ensures EnteredInto(t, Mark(t', view, id), view, ids + {id})
    ensures id in Row(t', view) ==> EnteredInto(t, t', view, ids + {id})
  {}

  /** `r'` is `r` with these offenders on record for its view. */
  ghost predicate OnRecord(r: Replica, r': Replica, offenders: set<nat>) {
    && r' == r.(log := r.log.(maliciousVotes := r'.log.maliciousVotes))
    && EnteredInto(r.log.maliciousVotes, r'.log.maliciousVotes, r.view, offenders)
  }

  lemma ChargesOne(r: Replica, r': Replica, offenders: set<nat>, c: Charge)
    requires OnRecord(r, r', offenders) && c.a.target == c.e.voter
    ensures OnRecord(r, HandleVoteEvidence(r', c.a, c.e), offenders + (if Holds(r, c) then {c.e.voter} else {}))
  {
    if Holds(r, c) {
      EntersOne(r.log.maliciousVotes, r'.log.maliciousVotes, r.view, offenders, c.e.voter);
    } else {
      assert offenders + {} == offenders;
    }
  }

  /** However the evidence against votes arrives, the offenders on record are those of the valid
      evidence and those already there; nothing else changes. */
  lemma {:induction false} ChargesAreASet(r: Replica, cs: seq<Charge>)
    requires Sent(cs)
    ensures OnRecord(r, Charged(r, cs), Offenders(r, cs))
  {
    if cs == [] {
      assert Offenders(r, cs) == {};
    } else {
      var front, c := cs[..|cs| - 1], cs[|cs| - 1];
      assert cs == front + [c];
      ChargesAreASet(r, front);
      OffendersMore(r, front, c);
      ChargesOne(r, Charged(r, front), Offenders(r, front), c);
    }
  }

  // The same for proposals

  datatype Indictment = Indictment(a: Accusation, e: Proposal)

  function Indicted(r: Replica, cs: seq<Indictment>): Replica {
    if cs == [] then r
    else HandleProposalEvidence(Indicted(r, cs[..|cs| - 1]), cs[|cs| - 1].a, cs[|cs| - 1].e)
  }

  predicate Stands(r: Replica, c: Indictment) {
    MaliciousProposalValid(r.n, r.leader, r.view, c.a, c.e)
  }

  ghost function Miners(r: Replica, cs: seq<Indictment>): set<nat> {
    set c | c in cs && Stands(r, c) :: c.e.miner
  }

  lemma MinersMore(r: Replica, cs: seq<Indictment>, c: Indictment)
    ensures Miners(r, cs + [c]) == Miners(r, cs) + (if Stands(r, c) then {c.e.miner} else {})
  {
    var s := Miners(r, cs + [c]);
    forall x | x in cs && Stands(r, x)
      ensures x.e.miner in s
    {
      assert x in cs + [c];
    }
    assert c in cs + [c];
  }

  /** `r'` is `r` with these proposers on record for its view. */
  ghost predicate MinersOnRecord(r: Replica, r': Replica, miners: set<nat>) {
    && r' == r.(log := r.log.(maliciousProposals := r'.log.maliciousProposals))
    && EnteredInto(r.log.maliciousProposals, r'.log.maliciousProposals, r.view, miners)
  }

  lemma IndictsOne(r: Replica, r': Replica, miners: set<nat>, c: Indictment)
    requires MinersOnRecord(r, r', miners) && c.a.target == c.e.miner
    ensures MinersOnRecord(r, HandleProposalEvidence(r', c.a, c.e), miners + (if Stands(r, c) then {c.e.miner} else {}))
  {
    if Stands(r, c) {
      EntersOne(r.log.maliciousProposals, r'.log.maliciousProposals, r.view, miners, c.e.miner);
    } else {
      assert miners + {} == miners;
    }
  }

  /** However the evidence against proposals arrives, the proposers on record are those of the
      valid evidence and those already there; nothing else changes. */
  lemma {:induction false} IndictmentsAreASet(r: Replica, cs: seq<Indictment>)
    requires forall c :: c in cs ==> c.a.target == c.e.miner
    ensures MinersOnRecord(r, Indicted(r, cs), Miners(r, cs))
  {
    if cs == [] {
      assert Miners(r, cs) == {};
    } else {
      var front, c := cs[..|cs| - 1], cs[|cs| - 1];
      assert cs == front + [c];
      IndictmentsAreASet(r, front);
      MinersMore(r, front, c);
      IndictsOne(r, Indicted(r, front), Miners(r, front), c);
    }
  }

  // The empty block

  /** A chain with one more block on top: without commands, marked with the letter E, built on the
      certified head and certified itself without signers. */
  ghost predicate OneEmptyMore(l: Ledger, view: nat, l': Ledger) {
    && l.head in l.certs && l'.head == l.head + 1 && l'.head in l'.byHeight && view in l'.certs
    && var k := l'.byHeight[l'.head];
       && k.txs == [] && k.header == Header("E", l'.head, l.certs[l.head].hash) && k.claimed == EmptyHash
       && l'.byHeight == l.byHeight[l'.head := k] && l'.byHash == l.byHash[HeaderBytes(k.header) := k]
       && l'.certs == l.certs[view := Certificate(HeaderBytes(k.header), view, [], [])]
  }

  /** A withheld round adds the empty block and records the leader, if the head is certified, and does
      nothing otherwise. */
  lemma WithholdingHandled(r: Replica)
    ensures var r' := HandleWithholding(r);
            if r.ledger.head !in r.ledger.certs then r' == r
            else
              && OneEmptyMore(r.ledger, r.view, r'.ledger) && Marked(r'.log.withheld, r.view, r.leader)
              && r' == r.(ledger := r'.ledger, log := r.log.(withheld := r'.log.withheld))
  {
    hide MarkSole;
  }

  /** So does evidence of equivocation, with its own record. */
  lemma EquivocationHandled(r: Replica, e: Equivocation)
    ensures var r' := HandleEquivocation(r, e.a, e.e1, e.e2);
            if !Proves(r, e) || !Undecided(r) then r' == r
            else
              && OneEmptyMore(r.ledger, r.view, r'.ledger) && Marked(r'.log.equivocations, r.view, r.leader)
              && r' == r.(ledger := r'.ledger, log := r.log.(equivocations := r'.log.equivocations))
  {
    hide MarkSole;
  }

  // What evidence must show

  /** The accusation is about the view and signed by the node it names as its origin. */
  predicate Accuses(r: Replica, a: Accusation) {
    a.view == r.view && a.origin < r.n && a.sig == Signed(a.origin, EvidencePayload(a.target, a.view))
  }

  predicate HeaderSigned(id: nat, n: nat, p: Proposal) {
    id < n && p.miningProof == Signed(id, HeaderPayload(p.block.header))
  }

  /** Equivocation evidence has an effect if and only if it is a signed accusation of the leader with
      two proposals it has signed, and comes while it can have one. */
  lemma EquivocationEffectIff(r: Replica, a: Accusation, e1: Proposal, e2: Proposal)
    ensures HandleEquivocation(r, a, e1, e2) != r
       <==> && Undecided(r) && Accuses(r, a) && a.target == r.leader
            && HeaderSigned(r.leader, r.n, e1) && HeaderSigned(r.leader, r.n, e2)
  {
    hide MarkSole;
    if Undecided(r) {
      assert AddEmptyBlock(r.ledger, r.view).head == r.ledger.head + 1;
    }
  }

  /** Evidence of a malicious proposal records the author of the proposal shown, and nobody else, if and
      only if it is a signed accusation of somebody who is not the leader and not in the record, with
      a proposal its author has signed. Nothing else changes. */
  lemma ProposalEvidenceEffectIff(r: Replica, a: Accusation, e: Proposal, v: nat, x: nat)
    ensures var r' := HandleProposalEvidence(r, a, e);
            && r' == r.(log := r.log.(maliciousProposals := r'.log.maliciousProposals))
            && (Marked(r'.log.maliciousProposals, v, x) <==>
                  || Marked(r.log.maliciousProposals, v, x)
                  || (v == r.view && x == e.miner && Accuses(r, a) && a.target != r.leader
                      && a.target !in Row(r.log.maliciousProposals, r.view) && HeaderSigned(e.miner, r.n, e)))
  {
    hide Mark;
    hide Row;
  }

  /** Likewise for a malicious vote, and whoever is accused. */
  lemma VoteEvidenceEffectIff(r: Replica, a: Accusation, e: Vote, v: nat, x: nat)
    ensures var r' := HandleVoteEvidence(r, a, e);
            && r' == r.(log := r.log.(maliciousVotes := r'.log.maliciousVotes))
            && (Marked(r'.log.maliciousVotes, v, x) <==>
                  || Marked(r.log.maliciousVotes, v, x)
                  || (v == r.view && x == e.voter && Accuses(r, a) && a.target !in Row(r.log.maliciousVotes, r.view)
                      && e.voter < r.n && e.sig == Signed(e.voter, VotePayload(e.hash, e.view, e.owner))))
  {
    hide Mark;
    hide Row;
  }

  /** An accusation that its origin has not signed, or of another view, changes nothing. */
  lemma ForgedChangesNothing(r: Replica, a: Accusation, e1: Proposal, e2: Proposal, v: Vote)
    requires !Accuses(r, a)
    ensures HandleEquivocation(r, a, e1, e2) == r && HandleProposalEvidence(r, a, e1) == r
    ensures HandleVoteEvidence(r, a, v) == r
  {}
}
