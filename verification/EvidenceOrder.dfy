/** Equivocation evidence and the forwards of a block, in either order, at one node. The evidence
    check does not ask that the two proposals shown differ, so evidence can be valid where
    there is only one block; then the order of delivery decides what the node ends up with. */
module EvidenceOrder {
  import opened Messages
  import opened Weights
  import opened Tallies
  import opened Replicas
  import opened Rounds
  import opened VoteAgreement
  import opened Evidence

  ghost function SendersOf(ps: seq<Proposal>): set<nat> {
    set p | p in ps :: p.forwardSender
  }

  /** Forwards the node accepts, all of one block and none by the leader. */
  ghost predicate OneBlock(r: Replica, ps: seq<Proposal>, h: Hash) {
    && (r.view in r.proposalByView ==> HashOf(r.proposalByView[r.view]) == h)
    && forall p :: p in ps ==> p.forwardSender != r.leader && ValidForward(r, p) && HashOf(p) == h
  }

  /** All forwards are in: the block is added, and neither certificates nor records of equivocation
      have changed. */
  ghost predicate Settles(r: Replica, r': Replica) {
    Whole(
      && SameNode(r, r') && ForwardsComplete(r') && r'.ledger.head == r.ledger.head + 1
      && r'.ledger.certs == r.ledger.certs && r'.log.equivocations == r.log.equivocations)
  }

  lemma AcceptSettles(r: Replica, p: Proposal)
    requires ForwardsComplete(r) && r.id != r.leader && !r.maliciousVote
    ensures Settles(r, CompleteForwards(r, p).next)
  {
    hide MarkSole;
    hide Mark;
  }

  lemma NotedSettles(r: Replica, r': Replica, h: Hash, s: set<nat>, r'': Replica)
    requires Waiting(r, r', h, s) && Settles(r', r'')
    ensures Settles(r, r'')
  {}

  lemma LastSettles(r: Replica, r': Replica, h: Hash, s: set<nat>, p: Proposal)
    requires Waiting(r, r', h, s) && !r.equivocating && !r.maliciousVote && |s| + 1 < r.n && r.id != r.leader
    requires ValidForward(r, p) && HashOf(p) == h && |s + {p.forwardSender}| + 1 >= r.n
    ensures Settles(r, HandleForward(r', p).next)
  {
    hide ValidForward;
    hide Settles;
    hide CompleteForwards;
    hide NoteForward;
    hide NoteFirst;
    hide HashOf;
    StillValid(r, r', h, s, p);
    WaitsNoted(r, r', h, s, p);
    var r2 := NoteForward(NoteFirst(r', p), p);
    CompleteWhen(r, r2, h, s + {p.forwardSender});
    AcceptSettles(r2, p);
    NotedSettles(r, r2, h, s + {p.forwardSender}, CompleteForwards(r2, p).next);
    LastHandled(r', h, p);
  }

  /** The forward that completes the collection. */
  lemma LastHandled(r: Replica, h: Hash, p: Proposal)
    requires !ForwardsComplete(r) && !r.equivocating && ValidForward(r, p) && HashOf(p) == h
    requires r.view in NoteFirst(r, p).proposalByView && HashOf(NoteFirst(r, p).proposalByView[r.view]) == h
    requires ForwardsComplete(NoteForward(NoteFirst(r, p), p))
    ensures HandleForward(r, p).next == CompleteForwards(NoteForward(NoteFirst(r, p), p), p).next
  {
    hide ValidForward;
    hide CompleteForwards;
    hide ForwardsComplete;
  }

  lemma StaysSettled(r: Replica, r': Replica, p: Proposal)
    requires Settles(r, r')
    ensures HandleForward(r', p).next == r'
  {}

  lemma SendersMore(ps: seq<Proposal>, p: Proposal)
    ensures SendersOf(ps + [p]) == SendersOf(ps) + {p.forwardSender}
  {}

  /** The forwards of one block, in any order and repetition: the node waits until the last
      non-leader's is in, then it has the block. */
  ghost predicate Awaited(r: Replica, r': Replica, h: Hash, s: set<nat>) {
    if |s| + 1 < r.n then Waiting(r, r', h, s) else Settles(r, r')
  }

  lemma AwaitsNone(r: Replica, h: Hash)
    requires Awaits(r) && r.n >= 2 && (r.view in r.proposalByView ==> HashOf(r.proposalByView[r.view]) == h)
    ensures Awaited(r, Handled(r, []).next, h, SendersOf([]))
  {
    assert SendersOf([]) == {};
  }

  lemma Grown(s: set<nat>, x: nat)
    ensures |s| <= |s + {x}|
  {
    SubsetSize(s, s + {x});
  }

  lemma AwaitsOne(r: Replica, r': Replica, h: Hash, s: set<nat>, p: Proposal)
    requires Awaits(r) && r.id != r.leader && Awaited(r, r', h, s) && ValidForward(r, p) && HashOf(p) == h
    ensures Awaited(r, HandleForward(r', p).next, h, s + {p.forwardSender})
  {
    hide ValidForward;
    hide HandleForward;
    hide HashOf;
    hide Settles;
    hide Waiting;
    Grown(s, p.forwardSender);
    if |s| + 1 >= r.n {
      StaysSettled(r, r', p);
    } else if |s + {p.forwardSender}| + 1 >= r.n {
      LastSettles(r, r', h, s, p);
    } else {
      WaitsOn(r, r', h, s, p);
    }
  }

  lemma {:induction false} HandlesBlock(r: Replica, ps: seq<Proposal>, h: Hash)
    requires Awaits(r) && r.id != r.leader && r.n >= 2 && OneBlock(r, ps, h)
    ensures Awaited(r, Handled(r, ps).next, h, SendersOf(ps))
  {
    hide Awaited;
    hide Handled;
    hide SendersOf;
    hide ValidForward;
    hide HashOf;
    if ps == [] {
      AwaitsNone(r, h);
    } else {
      var front, p := ps[..|ps| - 1], ps[|ps| - 1];
      assert ps == front + [p];
      HandlesBlock(r, front, h);
      AwaitsOne(r, Handled(r, front).next, h, SendersOf(front), p);
      HandledLast(r, front, p);
      SendersMore(front, p);
    }
  }

  ghost predicate FromEverybody(r: Replica, ps: seq<Proposal>) {
    forall id: nat :: id < r.n && id != r.leader ==> id in SendersOf(ps)
  }

  lemma EnoughSenders(r: Replica, ps: seq<Proposal>)
    requires FromEverybody(r, ps) && r.leader < r.n
    ensures |SendersOf(ps)| + 1 >= r.n
  {
    hide SendersOf;
    OthersBelow(r.leader, r.n);
    SubsetSize(Nodes(r.n) - {r.leader}, SendersOf(ps));
  }

  /** A non-leader with a certified head, about to get one block from every non-leader. */
  ghost predicate Expects(r: Replica, ps: seq<Proposal>, h: Hash) {
    && Awaits(r) && r.id != r.leader && r.n >= 2 && OneBlock(r, ps, h) && FromEverybody(r, ps)
    && r.ledger.head in r.ledger.certs && r.ledger.head + 1 !in r.ledger.certs
  }

  lemma ExpectedSettles(r: Replica, ps: seq<Proposal>, h: Hash)
    requires Awaits(r) && r.id != r.leader && r.n >= 2 && OneBlock(r, ps, h) && FromEverybody(r, ps)
    ensures Settles(r, Handled(r, ps).next)
  {
    hide Settles;
    hide Handled;
    HandlesBlock(r, ps, h);
    EnoughSenders(r, ps);
  }

  /** After the empty block the same forwards are still accepted. */
  lemma EmptiedAccepts(r: Replica, p: Proposal)
    requires r.ledger.head in r.ledger.certs && ValidForward(r, p)
    ensures ValidForward(Emptied(r), p)
  {
    hide MarkSole;
  }

  lemma EmptiedExpects(r: Replica, ps: seq<Proposal>, h: Hash)
    requires Expects(r, ps, h)
    ensures var r' := Emptied(r);
            Awaits(r') && r'.id != r'.leader && r'.n >= 2 && OneBlock(r', ps, h) && FromEverybody(r', ps)
  {
    hide ValidForward;
    hide AddEmptyBlock;
    hide MarkSole;
    forall p | p in ps
      ensures ValidForward(Emptied(r), p)
    {
      EmptiedAccepts(r, p);
    }
  }

  lemma EmptiedFields(r: Replica)
    requires r.ledger.head in r.ledger.certs
    ensures var r' := Emptied(r);
            && r'.ledger.head == r.ledger.head + 1 && r.view in r'.ledger.certs
            && Marked(r'.log.equivocations, r.view, r.leader) && r'.view == r.view && r'.leader == r.leader
  {}

  /** What the two orders lead to when valid evidence meets a single block. */
  ghost predicate OrdersDiffer(r: Replica, evidenceFirst: Replica, forwardsFirst: Replica) {
    && evidenceFirst.ledger.head == r.ledger.head + 2 && forwardsFirst.ledger.head == r.ledger.head + 1
    && r.view in evidenceFirst.ledger.certs && forwardsFirst.ledger.certs == r.ledger.certs
    && Marked(evidenceFirst.log.equivocations, r.view, r.leader)
    && !Marked(forwardsFirst.log.equivocations, r.view, r.leader)
  }

  lemma IgnoredEvidence(r: Replica, e: Equivocation)
    requires !Proves(r, e) || Marked(r.log.equivocations, r.view, r.leader) || r.ledger.head !in r.ledger.certs
    ensures HandleEquivocation(r, e.a, e.e1, e.e2) == r
  {}

  lemma SettledIgnores(r: Replica, r': Replica, e: Equivocation)
    requires Settles(r, r') && r.ledger.head + 1 !in r.ledger.certs
    ensures HandleEquivocation(r', e.a, e.e1, e.e2) == r'
  {}

  lemma SettledSame(r: Replica, r': Replica, e: Equivocation)
    requires Settles(r, r')
    ensures Proves(r', e) <==> Proves(r, e)
    ensures Marked(r'.log.equivocations, r'.view, r'.leader) <==> Marked(r.log.equivocations, r.view, r.leader)
  {}

  lemma ValidEvidenceSplits(r: Replica, ps: seq<Proposal>, h: Hash, e: Equivocation)
    requires Expects(r, ps, h) && Proves(r, e) && !Marked(r.log.equivocations, r.view, r.leader)
    ensures OrdersDiffer(r, Handled(HandleEquivocation(r, e.a, e.e1, e.e2), ps).next,
                         HandleEquivocation(Handled(r, ps).next, e.a, e.e1, e.e2))
  {
    hide Handled;
    hide Emptied;
    hide HandleEquivocation;
    hide Proves;
    ConvictsOne(r, e);
    ExpectedSettles(r, ps, h);
    SettledIgnores(r, Handled(r, ps).next, e);
    EmptiedFields(r);
    EmptiedExpects(r, ps, h);
    ExpectedSettles(Emptied(r), ps, h);
  }

  /** Evidence and the forwards of one block commute if and only if the evidence has no effect: it
      is not valid, or the leader is on record already. */
  lemma EvidenceCommutesIff(r: Replica, ps: seq<Proposal>, h: Hash, e: Equivocation)
    requires Expects(r, ps, h)
    ensures Handled(HandleEquivocation(r, e.a, e.e1, e.e2), ps).next
         == HandleEquivocation(Handled(r, ps).next, e.a, e.e1, e.e2)
       <==> !Proves(r, e) || Marked(r.log.equivocations, r.view, r.leader)
  {
    hide Handled;
    hide HandleEquivocation;
    hide Proves;
    hide Settles;
    if !Proves(r, e) || Marked(r.log.equivocations, r.view, r.leader) {
      ExpectedSettles(r, ps, h);
      SettledSame(r, Handled(r, ps).next, e);
      IgnoredEvidence(r, e);
      IgnoredEvidence(Handled(r, ps).next, e);
    } else {
      ValidEvidenceSplits(r, ps, h, e);
    }
  }

  // One proposal is enough

  /** A genuine proposal of the leader, shown twice, is valid evidence of equivocation. */
  lemma OneProposalConvicts(r: Replica, p: Proposal, j: nat)
    requires SignedHeader(r.n, r.leader, p.block, p.miningProof) && j < r.n
    ensures Proves(r, Equivocation(Accuse(j, r.leader, r.view), p, p))
    ensures Undecided(r) ==>
              Marked(HandleEquivocation(r, Accuse(j, r.leader, r.view), p, p).log.equivocations, r.view, r.leader)
  {
    ConvictsOne(r, Equivocation(Accuse(j, r.leader, r.view), p, p));
    if Undecided(r) {
      EmptiedFields(r);
    }
  }

  /** In the first view of three nodes, the leader's only proposal and two honest forwards: with the
      proposal shown twice, the order of delivery splits heads, certificates and records. */
  lemma OneProposalSplits()
    ensures var r, p := Initial(1, 3), Twin("");
            var a, ps := Accuse(2, 0, 1), [Forwarded(1, p), Forwarded(2, p)];
            OrdersDiffer(r, Handled(HandleEquivocation(r, a, p, p), ps).next,
                         HandleEquivocation(Handled(r, ps).next, a, p, p))
  {
    var r, p := Initial(1, 3), Twin("");
    var a, ps := Accuse(2, 0, 1), [Forwarded(1, p), Forwarded(2, p)];
    hide Handled;
    hide HandleEquivocation;
    hide OrdersDiffer;
    OneProposalConvicts(r, p, 2);
    FirstExpects(p);
    ValidEvidenceSplits(r, ps, HashOf(p), Equivocation(a, p, p));
  }

  lemma FirstExpects(p: Proposal)
    requires p == Twin("")
    ensures Expects(Initial(1, 3), [Forwarded(1, p), Forwarded(2, p)], HashOf(p))
  {
    var ps := [Forwarded(1, p), Forwarded(2, p)];
    assert ps[0].forwardSender == 1 && ps[1].forwardSender == 2;
    assert ps[0] in ps && ps[1] in ps;
    forall id: nat | id < 3 && id != 0
      ensures id in SendersOf(ps)
    {
      assert id == 1 || id == 2;
    }
  }
}
