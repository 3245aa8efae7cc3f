/** What a node sends while it collects forwards, for any node and any sequence of forwards: nothing
    while forwards of the first block are missing, one vote when the last is in, and, if another block
    comes before that, one report of equivocation - except that the leader does not report itself. */
module ForwardReplies {
  import opened Messages
  import opened Weights
  import opened Tallies
  import opened Replicas
  import opened Rounds
  import opened VoteAgreement
  import opened EvidenceOrder

  /** The node is about to collect the forwards of a view; it may be set to vote maliciously. */
  ghost predicate Collects(r: Replica) {
    r.n >= 2 && Row(r.forwards, r.view) == map[] && !r.equivocating
  }

  ghost predicate AllValid(r: Replica, ps: seq<Proposal>) {
    forall p :: p in ps ==> ValidForward(r, p)
  }

  /** What later forwards are compared with. */
  function FirstSeen(r: Replica, ps: seq<Proposal>): Proposal
    requires r.view in r.proposalByView || |ps| > 0
  {
    if r.view in r.proposalByView then r.proposalByView[r.view] else ps[0]
  }

  /** The first `m` forwards are of the first block. */
  ghost predicate Same(r: Replica, ps: seq<Proposal>, m: nat)
    requires m <= |ps| && |ps| > 0
  {
    forall j :: 0 <= j < m ==> HashOf(ps[j]) == HashOf(FirstSeen(r, ps))
  }

  ghost predicate Missing(r: Replica, ps: seq<Proposal>) {
    |SendersOf(ps)| + 1 < r.n
  }

  /** Forward `m` is the first one of another block, and comes before the collection is complete. */
  ghost predicate ConflictsAt(r: Replica, ps: seq<Proposal>, m: nat) {
    && m < |ps| && Same(r, ps, m) && Missing(r, ps[..m]) && HashOf(ps[m]) != HashOf(FirstSeen(r, ps))
  }

  /** Forward `m` completes the collection of the first block. */
  ghost predicate CompletesAt(r: Replica, ps: seq<Proposal>, m: nat) {
    && m < |ps| && Same(r, ps, m + 1) && Missing(r, ps[..m]) && !Missing(r, ps[..m + 1])
  }

  /** Neither has happened. */
  ghost predicate StillOpen(r: Replica, ps: seq<Proposal>) {
    |ps| > 0 && Same(r, ps, |ps|) && Missing(r, ps)
  }

  // While forwards are missing

  ghost predicate Quietly(r: Replica, o: Outcome, first: Option<Proposal>, s: set<nat>) {
    Whole(
      && o.out == {} && Lookup(o.next.proposalByView, r.view) == first
      && o.next == r.(forwards := o.next.forwards, proposalByView := o.next.proposalByView)
      && Row(o.next.forwards, r.view).Keys == s)
  }

  lemma QuietFields(r: Replica, o: Outcome, first: Option<Proposal>, s: set<nat>, p: Proposal)
    requires Quietly(r, o, first, s) && |s| + 1 < r.n && ValidForward(r, p) && !r.equivocating
    ensures var q := o.next;
            && ValidForward(q, p) && !ForwardsComplete(q) && !q.equivocating && q.view == r.view && q.id == r.id
            && q.leader == r.leader && q.n == r.n && q.maliciousVote == r.maliciousVote
            && Lookup(q.proposalByView, q.view) == first
  {}

  lemma NotedRow(q: Replica, p: Proposal, s: set<nat>)
    requires Row(q.forwards, q.view).Keys == s
    ensures var q' := NoteForward(NoteFirst(q, p), p);
            && Row(q'.forwards, q.view).Keys == s + {p.forwardSender}
            && (ForwardsComplete(q') <==> |s + {p.forwardSender}| + 1 >= q.n)
            && Lookup(q'.proposalByView, q.view) == Some(OrElse(Lookup(q.proposalByView, q.view), p))
  {
    NotedFields(q, p);
    RowKeys(Row(q.forwards, q.view), s, p);
    assert |Row(NoteForward(NoteFirst(q, p), p).forwards, q.view)| == |s + {p.forwardSender}|;
  }

  /** One more forward, seen from the handler's branches. */
  lemma HandlesOne(q: Replica, p: Proposal)
    requires !ForwardsComplete(q) && !q.equivocating && ValidForward(q, p)
    ensures var first := OrElse(Lookup(q.proposalByView, q.view), p);
            var q' := NoteForward(NoteFirst(q, p), p);
            HandleForward(q, p)
            == if HashOf(first) != HashOf(p) then
                 Outcome(NoteFirst(q, p).(equivocating := true),
                         if q.id == q.leader then {}
                         else {EquivocationMsg(Accuse(q.id, q.leader, q.view), first, p)})
               else if ForwardsComplete(q') then CompleteForwards(q', p) else Outcome(q', {})
  {
    hide ValidForward;
    hide ForwardsComplete;
    hide CompleteForwards;
  }

  lemma MoreMissing(r: Replica, o: Outcome, first: Option<Proposal>, s: set<nat>, p: Proposal)
    requires Quietly(r, o, first, s) && |s| + 1 < r.n && ValidForward(r, p) && !r.equivocating
    requires HashOf(OrElse(first, p)) == HashOf(p) && |s + {p.forwardSender}| + 1 < r.n
    ensures var o' := HandleForward(o.next, p);
            Quietly(r, Outcome(o'.next, o.out + o'.out), Some(OrElse(first, p)), s + {p.forwardSender})
  {
    hide ValidForward;
    hide HandleForward;
    hide HashOf;
    hide ForwardsComplete;
    QuietFields(r, o, first, s, p);
    HandlesOne(o.next, p);
    NotedOnly(o.next, p);
    NotedRow(o.next, p, s);
  }

  lemma HandledMore(r: Replica, ps: seq<Proposal>, k: nat)
    requires k < |ps|
    ensures var o := Handled(r, ps[..k]);
            var o' := HandleForward(o.next, ps[k]);
            Handled(r, ps[..k + 1]) == Outcome(o'.next, o.out + o'.out)
  {
    hide HandleForward;
    assert ps[..k + 1][..k] == ps[..k];
  }

  function FirstOf(r: Replica, ps: seq<Proposal>, m: nat): Option<Proposal>
    requires m <= |ps|
  {
    if r.view in r.proposalByView then Some(r.proposalByView[r.view]) else if m == 0 then None else Some(ps[0])
  }

  lemma PrefixSenders(ps: seq<Proposal>, k: nat)
    requires k < |ps|
    ensures SendersOf(ps[..k + 1]) == SendersOf(ps[..k]) + {ps[k].forwardSender}
    ensures |SendersOf(ps[..k])| <= |SendersOf(ps[..k + 1])|
  {
    assert ps[..k + 1] == ps[..k] + [ps[k]];
    SendersMore(ps[..k], ps[k]);
    SubsetSize(SendersOf(ps[..k]), SendersOf(ps[..k + 1]));
  }

  lemma QuietAtFirst(r: Replica, ps: seq<Proposal>)
    requires Collects(r)
    ensures Quietly(r, Handled(r, ps[..0]), FirstOf(r, ps, 0), SendersOf(ps[..0]))
  {
    assert ps[..0] == [] && SendersOf([]) == {};
  }

  lemma FirstMatches(r: Replica, ps: seq<Proposal>, m: nat)
    requires |ps| > 0 && 0 < m <= |ps| && Same(r, ps, m)
    ensures HashOf(OrElse(FirstOf(r, ps, m - 1), ps[m - 1])) == HashOf(ps[m - 1])
    ensures Some(OrElse(FirstOf(r, ps, m - 1), ps[m - 1])) == FirstOf(r, ps, m)
  {
    hide HashOf;
  }

  lemma {:induction false} QuietWhileMissing(r: Replica, ps: seq<Proposal>, m: nat)
    requires Collects(r) && AllValid(r, ps) && m <= |ps| && |ps| > 0 && Same(r, ps, m) && Missing(r, ps[..m])
    ensures Quietly(r, Handled(r, ps[..m]), FirstOf(r, ps, m), SendersOf(ps[..m]))
  {
    hide Handled;
    hide SendersOf;
    hide ValidForward;
    hide HandleForward;
    hide Quietly;
    hide HashOf;
    if m == 0 {
      QuietAtFirst(r, ps);
    } else {
      PrefixSenders(ps, m - 1);
      FirstMatches(r, ps, m);
      hide FirstOf;
      QuietWhileMissing(r, ps, m - 1);
      HandledMore(r, ps, m - 1);
      MoreMissing(r, Handled(r, ps[..m - 1]), FirstOf(r, ps, m - 1), SendersOf(ps[..m - 1]), ps[m - 1]);
    }
  }

  // Afterwards nothing more is sent

  ghost predicate Closed(q: Replica) {
    ForwardsComplete(q) || q.equivocating
  }

  lemma {:induction false} SilentAfter(r: Replica, ps: seq<Proposal>, m: nat)
    requires m <= |ps| && Closed(Handled(r, ps[..m]).next)
    ensures Handled(r, ps) == Handled(r, ps[..m])
    decreases |ps| - m
  {
    if m == |ps| {
      assert ps[..m] == ps;
    } else {
      HandledMore(r, ps, m);
      SilentAfter(r, ps, m + 1);
    }
  }

  // Another block

  lemma ConflictReply(r: Replica, o: Outcome, first: Option<Proposal>, s: set<nat>, p: Proposal)
    requires Quietly(r, o, first, s) && |s| + 1 < r.n && ValidForward(r, p) && !r.equivocating
    requires HashOf(OrElse(first, p)) != HashOf(p)
    ensures var o' := HandleForward(o.next, p);
            && o'.next.equivocating && o'.next.ledger == r.ledger
            && o.out + o'.out == if r.id == r.leader then {}
                                 else {EquivocationMsg(Accuse(r.id, r.leader, r.view), OrElse(first, p), p)}
  {
    hide ValidForward;
    hide HandleForward;
    hide HashOf;
    hide ForwardsComplete;
    QuietFields(r, o, first, s, p);
    HandlesOne(o.next, p);
  }

  // The vote

  /** A hash that no block has: neither one a proposer nor one a failed round computes. */
  predicate NoBlocksHash(h: Hash) {
    !h.Digest? && !h.HeaderBytes? && h != EmptyHash
  }

  /** A node set to vote maliciously, with an odd number and not the leader. */
  predicate Strays(r: Replica) {
    r.id != r.leader && r.id % 2 == 1 && r.maliciousVote
  }

  /** The vote of a node that has collected all forwards, the last of which is `p`. */
  predicate VotesAs(r: Replica, p: Proposal, v: Vote) {
    && v.voter == r.id && v.view == r.view && v.sig == Signed(r.id, VotePayload(v.hash, r.view, v.owner))
    && if Strays(r) then v.owner == r.id && NoBlocksHash(v.hash) else v.owner == p.miner && v.hash == HashOf(p)
  }

  /** A non-leader has the block at the end of its chain and credits the leader; the leader has it
      since it proposed. */
  ghost predicate TakesBlock(r: Replica, p: Proposal, r': Replica) {
    if r.id == r.leader then r'.ledger == r.ledger && r'.log.proposals == r.log.proposals
    else
      && r'.ledger.head == r.ledger.head + 1 && r'.ledger.certs == r.ledger.certs
      && r'.ledger.byHeight == r.ledger.byHeight[p.block.header.height := p.block]
      && r'.ledger.byHash == r.ledger.byHash[HashOf(p) := p.block]
      && Marked(r'.log.proposals, r.view, r.leader)
  }

  lemma Completion(q: Replica, p: Proposal)
    ensures CompleteForwards(q, p)
         == if q.id == q.leader then VoteFor(q, HashOf(p), p.miner)
            else if Strays(q) then VoteFor(AcceptBlock(q, p).(maliciousVote := false), Invalid, q.id)
            else VoteFor(AcceptBlock(q, p), HashOf(p), p.miner)
  {
    hide VoteFor;
    hide AcceptBlock;
  }

  lemma VoteFields(q: Replica, h: Hash, owner: nat)
    ensures var o := VoteFor(q, h, owner);
            && o.out == {VoteMsg(CastVote(q.id, h, q.view, owner))} && Marked(o.next.log.votes, q.view, q.id)
            && o.next == q.(log := o.next.log) && o.next.log.proposals == q.log.proposals
  {
    hide Mark;
    hide Marked;
    assert Marked(Mark(q.log.votes, q.view, q.id), q.view, q.id);
  }

  lemma AcceptTakes(q: Replica, p: Proposal, flag: bool)
    requires q.id != q.leader
    ensures var r := AcceptBlock(q, p).(maliciousVote := flag);
            && TakesBlock(q, p, r) && r.id == q.id && r.view == q.view && r.n == q.n && r.forwards == q.forwards
            && r.maliciousVote == flag
    ensures AcceptBlock(q, p).maliciousVote == q.maliciousVote
  {
    hide MarkSole;
    hide Marked;
    assert Marked(MarkSole(q.log.proposals, q.view, q.leader), q.view, q.leader);
  }

  /** The state the vote is cast in, and what it names. */
  lemma CompletionOf(q: Replica, p: Proposal) returns (a: Replica, h: Hash, owner: nat)
    ensures CompleteForwards(q, p) == VoteFor(a, h, owner) && TakesBlock(q, p, a)
    ensures a.id == q.id && a.view == q.view && a.n == q.n && a.forwards == q.forwards
    ensures a.maliciousVote == (q.maliciousVote && !Strays(q)) && VotesAs(q, p, CastVote(q.id, h, q.view, owner))
  {
    hide CompleteForwards;
    hide VoteFor;
    hide AcceptBlock;
    Completion(q, p);
    if q.id == q.leader {
      a, h, owner := q, HashOf(p), p.miner;
    } else if Strays(q) {
      AcceptTakes(q, p, false);
      a, h, owner := AcceptBlock(q, p).(maliciousVote := false), Invalid, q.id;
    } else {
      AcceptTakes(q, p, q.maliciousVote);
      a, h, owner := AcceptBlock(q, p), HashOf(p), p.miner;
    }
    hide TakesBlock;
  }

  lemma TakesOn(q: Replica, p: Proposal, a: Replica, r: Replica)
    requires TakesBlock(q, p, a) && r.ledger == a.ledger && r.log.proposals == a.log.proposals
    ensures TakesBlock(q, p, r)
  {
    hide HashOf;
  }

  lemma CompletionVote(q: Replica, p: Proposal)
    ensures var o := CompleteForwards(q, p);
            && o.next.view == q.view && o.next.forwards == q.forwards && o.next.n == q.n
            && o.next.maliciousVote == (q.maliciousVote && !Strays(q))
            && Marked(o.next.log.votes, q.view, q.id) && TakesBlock(q, p, o.next)
            && exists v :: o.out == {VoteMsg(v)} && VotesAs(q, p, v)
  {
    hide CompleteForwards;
    hide VoteFor;
    hide Marked;
    hide TakesBlock;
    hide VotesAs;
    hide Strays;
    var a, h, owner := CompletionOf(q, p);
    VoteFields(a, h, owner);
    TakesOn(q, p, a, CompleteForwards(q, p).next);
    assert CompleteForwards(q, p).out == {VoteMsg(CastVote(q.id, h, q.view, owner))};
  }

  lemma LastReply(r: Replica, o: Outcome, first: Option<Proposal>, s: set<nat>, p: Proposal)
    requires Quietly(r, o, first, s) && |s| + 1 < r.n && ValidForward(r, p) && !r.equivocating
    requires HashOf(OrElse(first, p)) == HashOf(p) && |s + {p.forwardSender}| + 1 >= r.n
    ensures var o' := HandleForward(o.next, p);
            && ForwardsComplete(o'.next) && o'.next.maliciousVote == (r.maliciousVote && !Strays(r))
            && TakesBlock(r, p, o'.next) && Marked(o'.next.log.votes, r.view, r.id)
            && exists v :: o.out + o'.out == {VoteMsg(v)} && VotesAs(r, p, v)
  {
    hide ValidForward;
    hide HandleForward;
    hide HashOf;
    hide CompleteForwards;
    QuietFields(r, o, first, s, p);
    HandlesOne(o.next, p);
    NotedOnly(o.next, p);
    NotedRow(o.next, p, s);
    var q := NoteForward(NoteFirst(o.next, p), p);
    CompletionVote(q, p);
    var v :| CompleteForwards(q, p).out == {VoteMsg(v)} && VotesAs(q, p, v);
    assert VotesAs(r, p, v);
    assert o.out + HandleForward(o.next, p).out == {VoteMsg(v)};
  }

  // All together

  /** As long as forwards of the first block are missing and no other block has come, the node sends
      nothing. */
  lemma NothingYet(r: Replica, ps: seq<Proposal>)
    requires Collects(r) && AllValid(r, ps) && StillOpen(r, ps)
    ensures Handled(r, ps).out == {} && !Handled(r, ps).next.equivocating && Handled(r, ps).next.ledger == r.ledger
  {
    assert ps[..|ps|] == ps;
    QuietWhileMissing(r, ps, |ps|);
  }

  /** If another block comes first, a non-leader sends one message, evidence that shows the first block
      and the other one, and the leader sends none; nothing is added to the ledger, and nothing is
      sent afterwards. */
  lemma ConflictReported(r: Replica, ps: seq<Proposal>, m: nat)
    requires Collects(r) && AllValid(r, ps) && ConflictsAt(r, ps, m)
    ensures var first := FirstSeen(r, ps);
            && Handled(r, ps).next.equivocating && Handled(r, ps).next.ledger == r.ledger
            && Handled(r, ps).out == (if r.id == r.leader then {}
                                      else {EquivocationMsg(Accuse(r.id, r.leader, r.view), first, ps[m])})
            && HashOf(first) != HashOf(ps[m])
  {
    hide HashOf;
    hide ValidForward;
    hide HandleForward;
    hide Handled;
    hide SendersOf;
    hide Quietly;
    QuietWhileMissing(r, ps, m);
    HandledMore(r, ps, m);
    ConflictReply(r, Handled(r, ps[..m]), FirstOf(r, ps, m), SendersOf(ps[..m]), ps[m]);
    SilentAfter(r, ps, m + 1);
  }

  /** If the collection is completed first, the node sends one vote: for the block, unless it is set to
      vote maliciously; then for a block that does not exist, in its own name, and it is not set any
      longer. Nothing is sent afterwards. */
  lemma CompletionVoted(r: Replica, ps: seq<Proposal>, m: nat) returns (v: Vote)
    requires Collects(r) && AllValid(r, ps) && CompletesAt(r, ps, m)
    ensures Handled(r, ps).out == {VoteMsg(v)} && VotesAs(r, ps[m], v)
    ensures Handled(r, ps).next.maliciousVote == (r.maliciousVote && !Strays(r))
    ensures TakesBlock(r, ps[m], Handled(r, ps).next) && Marked(Handled(r, ps).next.log.votes, r.view, r.id)
  {
    hide TakesBlock;
    hide Marked;
    hide HashOf;
    hide ValidForward;
    hide HandleForward;
    hide Handled;
    hide SendersOf;
    hide Quietly;
    hide VotesAs;
    PrefixSenders(ps, m);
    QuietWhileMissing(r, ps, m);
    HandledMore(r, ps, m);
    var o, s := Handled(r, ps[..m]), SendersOf(ps[..m]);
    LastReply(r, o, FirstOf(r, ps, m), s, ps[m]);
    v :| o.out + HandleForward(o.next, ps[m]).out == {VoteMsg(v)} && VotesAs(r, ps[m], v);
    SilentAfter(r, ps, m + 1);
  }

  /** There is no fourth case. */
  lemma {:induction false} OneOfThree(r: Replica, ps: seq<Proposal>, m: nat)
    requires r.n >= 2 && |ps| > 0 && m <= |ps| && Same(r, ps, m) && Missing(r, ps[..m])
    ensures StillOpen(r, ps) || (exists k :: ConflictsAt(r, ps, k)) || (exists k :: CompletesAt(r, ps, k))
    decreases |ps| - m
  {
    hide HashOf;
    hide SendersOf;
    if m == |ps| {
      assert ps[..m] == ps;
    } else if HashOf(ps[m]) != HashOf(FirstSeen(r, ps)) {
      assert ConflictsAt(r, ps, m);
    } else if !Missing(r, ps[..m + 1]) {
      assert CompletesAt(r, ps, m);
    } else {
      OneOfThree(r, ps, m + 1);
    }
  }

  /** For any node and any valid forwards: a node sends at most one message, the leader never sends
      evidence, any other node sends evidence exactly if another block comes before the collection
      of the first is complete, and a vote exactly if it does not and the collection is completed. */
  lemma RepliesDecided(r: Replica, ps: seq<Proposal>)
    requires Collects(r) && AllValid(r, ps) && |ps| > 0
    ensures forall x, y :: x in Handled(r, ps).out && y in Handled(r, ps).out ==> x == y
    ensures (exists x :: x in Handled(r, ps).out && x.EquivocationMsg?)
       <==> r.id != r.leader && exists m :: ConflictsAt(r, ps, m)
    ensures (exists x :: x in Handled(r, ps).out && x.VoteMsg?) <==> exists m :: CompletesAt(r, ps, m)
    ensures forall x :: x in Handled(r, ps).out ==> x.EquivocationMsg? || x.VoteMsg?
  {
    hide ConflictsAt;
    hide CompletesAt;
    hide StillOpen;
    hide Handled;
    StartsMissing(r, ps);
    OneOfThree(r, ps, 0);
    if StillOpen(r, ps) {
      NothingYet(r, ps);
    }
    if m :| ConflictsAt(r, ps, m) {
      ConflictReported(r, ps, m);
    }
    if m :| CompletesAt(r, ps, m) {
      var v := CompletionVoted(r, ps, m);
    }
    Exclusive(r, ps);
  }

  lemma StartsMissing(r: Replica, ps: seq<Proposal>)
    requires r.n >= 2 && |ps| > 0
    ensures Same(r, ps, 0) && Missing(r, ps[..0])
  {
    assert SendersOf(ps[..0]) == {};
  }

  lemma Exclusive(r: Replica, ps: seq<Proposal>)
    requires |ps| > 0
    ensures StillOpen(r, ps) ==> (forall m :: !ConflictsAt(r, ps, m)) && (forall m :: !CompletesAt(r, ps, m))
    ensures forall m, k :: ConflictsAt(r, ps, m) ==> !CompletesAt(r, ps, k)
  {
    hide HashOf;
    assert ps[..|ps|] == ps;
    forall m: nat | StillOpen(r, ps) && CompletesAt(r, ps, m)
      ensures false
    {
      SendersGrow(ps, m + 1, |ps|);
    }
    forall m: nat, k: nat | ConflictsAt(r, ps, m) && CompletesAt(r, ps, k)
      ensures false
    {
      if k < m {
        SendersGrow(ps, k + 1, m);
      }
    }
  }

  lemma SendersGrow(ps: seq<Proposal>, k: nat, m: nat)
    requires k <= m <= |ps|
    ensures |SendersOf(ps[..k])| <= |SendersOf(ps[..m])|
  {
    assert forall p :: p in ps[..k] ==> p in ps[..m];
    SubsetSize(SendersOf(ps[..k]), SendersOf(ps[..m]));
  }

  // Forwards that are not valid

  /** A forward with a hash, the leader's signature under its header and the forwarder's. */
  predicate Genuine(r: Replica, p: Proposal) {
    && p.block.claimed != EmptyHash && r.leader < r.n && p.forwardSender < r.n
    && p.miningProof == Signed(r.leader, HeaderPayload(p.block.header))
    && p.forwardSig == Signed(p.forwardSender, HeaderPayload(p.block.header))
  }

  lemma ValidIff(r: Replica, p: Proposal)
    ensures ValidForward(r, p)
       <==> Genuine(r, p) && IsCertValid(r.ledger.byHash, PreviousTable(r.reputation, r.view), p.evidence)
  {
    hide IsCertValid;
  }

  ghost function ValidOnes(r: Replica, ps: seq<Proposal>): seq<Proposal> {
    if ps == [] then []
    else ValidOnes(r, ps[..|ps| - 1]) + if ValidForward(r, ps[|ps| - 1]) then [ps[|ps| - 1]] else []
  }

  /** Nothing but the collection has changed. */
  ghost predicate OnlyCollected(r: Replica, q: Replica) {
    q == r.(forwards := q.forwards, proposalByView := q.proposalByView)
  }

  lemma StillJudges(r: Replica, q: Replica, p: Proposal)
    requires OnlyCollected(r, q)
    ensures ValidForward(q, p) <==> ValidForward(r, p)
  {}

  lemma CollectsOn(r: Replica, q: Replica, p: Proposal)
    requires OnlyCollected(r, q) || Closed(q)
    ensures OnlyCollected(r, HandleForward(q, p).next) || Closed(HandleForward(q, p).next)
    ensures !Closed(q) && !ValidForward(r, p) ==> HandleForward(q, p) == Outcome(q, {})
    ensures Closed(q) ==> HandleForward(q, p) == Outcome(q, {})
  {
    hide ValidForward;
    hide ForwardsComplete;
    if !Closed(q) {
      StillJudges(r, q, p);
      if ValidForward(q, p) {
        HandlesOne(q, p);
        NotedOnly(q, p);
        var q' := NoteForward(NoteFirst(q, p), p);
        if ForwardsComplete(q') {
          CompletionVote(q', p);
          SameForwards(q', CompleteForwards(q', p).next);
        }
      }
    }
  }

  lemma SameForwards(q: Replica, q': Replica)
    requires q'.forwards == q.forwards && q'.view == q.view && q'.n == q.n
    ensures ForwardsComplete(q') <==> ForwardsComplete(q)
  {}

  lemma {:induction false} OnlyValidCount(r: Replica, ps: seq<Proposal>)
    ensures Handled(r, ps) == Handled(r, ValidOnes(r, ps))
    ensures OnlyCollected(r, Handled(r, ps).next) || Closed(Handled(r, ps).next)
  {
    if ps != [] {
      hide ValidForward;
      hide HandleForward;
      var front, p := ps[..|ps| - 1], ps[|ps| - 1];
      OnlyValidCount(r, front);
      CollectsOn(r, Handled(r, front).next, p);
      if ValidForward(r, p) {
        assert (ValidOnes(r, front) + [p])[..|ValidOnes(r, front)|] == ValidOnes(r, front);
      } else {
        assert ValidOnes(r, front) + [] == ValidOnes(r, front);
        assert Handled(r, front).out + {} == Handled(r, front).out;
      }
    }
  }

  lemma {:induction false} ValidOnesValid(r: Replica, ps: seq<Proposal>)
    ensures AllValid(r, ValidOnes(r, ps))
  {
    if ps != [] {
      hide ValidForward;
      ValidOnesValid(r, ps[..|ps| - 1]);
    }
  }

  /** Whatever is sent to a node, its answers are decided by the valid forwards among it. */
  lemma AnyReplies(r: Replica, ps: seq<Proposal>)
    requires Collects(r)
    ensures var vs, out := ValidOnes(r, ps), Handled(r, ps).out;
            && (forall x, y :: x in out && y in out ==> x == y)
            && ((exists x :: x in out && x.EquivocationMsg?) <==> r.id != r.leader && exists m :: ConflictsAt(r, vs, m))
            && ((exists x :: x in out && x.VoteMsg?) <==> exists m :: CompletesAt(r, vs, m))
            && (forall x :: x in out ==> x.EquivocationMsg? || x.VoteMsg?)
  {
    hide ValidForward;
    hide HandleForward;
    hide ConflictsAt;
    hide CompletesAt;
    OnlyValidCount(r, ps);
    ValidOnesValid(r, ps);
    var vs := ValidOnes(r, ps);
    if |vs| > 0 {
      RepliesDecided(r, vs);
    } else {
      NoneAt(r, vs);
    }
  }

  lemma NoneAt(r: Replica, vs: seq<Proposal>)
    requires vs == []
    ensures Handled(r, vs).out == {} && forall m :: !ConflictsAt(r, vs, m) && !CompletesAt(r, vs, m)
  {}
}
