/** When a node votes, and when two nodes must vote alike, for arbitrary forwards in any order:
    a vote needs the block from every non-leader, so two votes in a view can differ only if
    every non-leader has forwarded two blocks. */
module VoteAgreement {
  import opened Messages
  import opened Weights
  import opened Replicas
  import opened Rounds

  /** A node handles forwards one after the other. */
  ghost function Handled(r: Replica, ps: seq<Proposal>): Outcome {
    if ps == [] then Outcome(r, {})
    else
      var o := Handled(r, ps[..|ps| - 1]);
      var o' := HandleForward(o.next, ps[|ps| - 1]);
      Outcome(o'.next, o.out + o'.out)
  }

  /** The node is about to collect the forwards of a view. */
  ghost predicate Awaits(r: Replica) {
    r.leader < r.n && Row(r.forwards, r.view) == map[] && !r.equivocating && !r.maliciousVote
  }

  ghost predicate NotFromLeader(r: Replica, ps: seq<Proposal>) {
    forall p :: p in ps ==> p.forwardSender != r.leader
  }

  ghost predicate ForwardedBy(n: nat, ps: seq<Proposal>, id: nat, h: Hash) {
    exists p :: p in ps && p.forwardSender == id && HashOf(p) == h && SignedHeader(n, id, p.block, p.forwardSig)
  }

  /** What a node holds is what it was sent: one signed forward per sender, all of the block it
      saw first. */
  ghost predicate Collected(n: nat, leader: nat, first: Option<Proposal>, row: map<nat, Proposal>, ps: seq<Proposal>) {
    Whole(
      && row.Keys <= Nodes(n) - {leader}
      && (forall j :: j in row ==>
            && row[j] in ps && row[j].forwardSender == j && SignedHeader(n, j, row[j].block, row[j].forwardSig)
            && first.Some? && HashOf(row[j]) == HashOf(first.value)))
  }

  ghost predicate Gathered(r: Replica, ps: seq<Proposal>) {
    Collected(r.n, r.leader, Lookup(r.proposalByView, r.view), Row(r.forwards, r.view), ps)
  }

  ghost predicate SameNode(r: Replica, r': Replica) {
    r'.id == r.id && r'.n == r.n && r'.view == r.view && r'.leader == r.leader && r'.maliciousVote == r.maliciousVote
  }

  lemma CollectedMore(n: nat, leader: nat, first: Option<Proposal>, row: map<nat, Proposal>, ps: seq<Proposal>,
                      p: Proposal)
    requires Collected(n, leader, first, row, ps)
    ensures Collected(n, leader, first, row, ps + [p])
    ensures first == None ==> Collected(n, leader, Some(p), row, ps + [p])
  {}

  lemma CollectedOne(n: nat, leader: nat, first: Option<Proposal>, row: map<nat, Proposal>, ps: seq<Proposal>,
                     p: Proposal)
    requires Collected(n, leader, first, row, ps) && first.Some? && HashOf(first.value) == HashOf(p) && p in ps
    requires p.forwardSender != leader && SignedHeader(n, p.forwardSender, p.block, p.forwardSig)
    ensures Collected(n, leader, first, row[p.forwardSender := p], ps)
  {}

  lemma CollectedSame(n: nat, leader: nat, first: Option<Proposal>, row: map<nat, Proposal>, ps: seq<Proposal>,
                      p: Proposal)
    requires Collected(n, leader, first, row, ps) && first.Some? && HashOf(first.value) == HashOf(p)
    ensures Collected(n, leader, Some(p), row, ps)
  {}

  lemma NotesForward(r: Replica, ps: seq<Proposal>, p: Proposal)
    requires Gathered(r, ps) && p.forwardSender != r.leader && SignedHeader(r.n, p.forwardSender, p.block, p.forwardSig)
    requires HashOf(OrElse(Lookup(r.proposalByView, r.view), p)) == HashOf(p)
    ensures var r' := NoteForward(NoteFirst(r, p), p);
            Gathered(r', ps + [p]) && r.view in r'.proposalByView && HashOf(r'.proposalByView[r.view]) == HashOf(p)
  {
    var first, row := Lookup(r.proposalByView, r.view), Row(r.forwards, r.view);
    CollectedMore(r.n, r.leader, first, row, ps, p);
    CollectedOne(r.n, r.leader, Some(OrElse(first, p)), row, ps + [p], p);
    NotedFields(r, p);
  }

  /** All senders are in, so every non-leader is among them. */
  lemma EveryoneForwarded(r: Replica, ps: seq<Proposal>)
    requires Gathered(r, ps) && ForwardsComplete(r) && r.leader < r.n && r.view in r.proposalByView
    ensures forall id: nat :: id < r.n && id != r.leader ==> ForwardedBy(r.n, ps, id, HashOf(r.proposalByView[r.view]))
  {
    var row := Row(r.forwards, r.view);
    var b := Base(r.n, r.view, r.leader, map[], map[], map[], r.log, map[]);
    assert |row.Keys| == |row|;
    Pigeonhole(b, row.Keys);
    forall id: nat | id < r.n && id != r.leader
      ensures ForwardedBy(r.n, ps, id, HashOf(r.proposalByView[r.view]))
    {
      assert id in row.Keys;
      assert row[id] in ps;
    }
  }

  ghost predicate VoteBacked(r: Replica, ps: seq<Proposal>, out: set<Msg>) {
    forall x :: x in out && x.VoteMsg? ==>
      && x.v.voter == r.id && x.v.view == r.view
      && forall id: nat :: id < r.n && id != r.leader ==> ForwardedBy(r.n, ps, id, x.v.hash)
  }

  lemma CompletedFields(r: Replica, p: Proposal)
    requires !r.maliciousVote
    ensures var r' := CompleteForwards(r, p).next;
            && SameNode(r, r') && r'.forwards == r.forwards
            && r'.proposalByView == if r.id == r.leader then r.proposalByView else r.proposalByView[r.view := p]
  {
  }

  lemma Completes(r: Replica, ps: seq<Proposal>, p: Proposal)
    requires Gathered(r, ps) && ForwardsComplete(r) && r.leader < r.n && !r.maliciousVote
    requires r.view in r.proposalByView && HashOf(r.proposalByView[r.view]) == HashOf(p)
    ensures var o := CompleteForwards(r, p);
            Gathered(o.next, ps) && SameNode(r, o.next) && VoteBacked(r, ps, o.out)
  {
    EveryoneForwarded(r, ps);
    CompleteReply(r, p);
    CompletedFields(r, p);
    CollectedSame(r.n, r.leader, Lookup(r.proposalByView, r.view), Row(r.forwards, r.view), ps, p);
  }

  lemma Flagged(r: Replica, ps: seq<Proposal>, p: Proposal)
    requires Gathered(r, ps)
    ensures Gathered(r, ps + [p]) && Gathered(NoteFirst(r, p), ps + [p])
  {}

  lemma HandlesMatching(r: Replica, ps: seq<Proposal>, p: Proposal)
    requires Gathered(r, ps) && r.leader < r.n && !r.maliciousVote && p.forwardSender != r.leader
    requires !ForwardsComplete(r) && !r.equivocating && ValidForward(r, p)
    requires HashOf(OrElse(Lookup(r.proposalByView, r.view), p)) == HashOf(p)
    ensures var o := HandleForward(r, p);
            Gathered(o.next, ps + [p]) && SameNode(r, o.next) && VoteBacked(r, ps + [p], o.out)
  {
    NotesForward(r, ps, p);
    NotedFields(r, p);
    var r2 := NoteForward(NoteFirst(r, p), p);
    if ForwardsComplete(r2) {
      Completes(r2, ps + [p], p);
    }
  }

  lemma HandlesOne(r: Replica, ps: seq<Proposal>, p: Proposal)
    requires Gathered(r, ps) && r.leader < r.n && !r.maliciousVote && p.forwardSender != r.leader
    ensures var o := HandleForward(r, p);
            Gathered(o.next, ps + [p]) && SameNode(r, o.next) && VoteBacked(r, ps + [p], o.out)
  {
    if !ForwardsComplete(r) && !r.equivocating && ValidForward(r, p)
       && HashOf(OrElse(Lookup(r.proposalByView, r.view), p)) == HashOf(p) {
      HandlesMatching(r, ps, p);
    } else {
      Flagged(r, ps, p);
    }
  }

  lemma ForwardedByMore(n: nat, ps: seq<Proposal>, p: Proposal, id: nat, h: Hash)
    requires ForwardedBy(n, ps, id, h)
    ensures ForwardedBy(n, ps + [p], id, h)
  {}

  lemma VoteBackedMore(r: Replica, ps: seq<Proposal>, p: Proposal, out: set<Msg>)
    requires VoteBacked(r, ps, out)
    ensures VoteBacked(r, ps + [p], out)
  {
    forall x | x in out && x.VoteMsg?
      ensures forall id: nat :: id < r.n && id != r.leader ==> ForwardedBy(r.n, ps + [p], id, x.v.hash)
    {
      forall id: nat | id < r.n && id != r.leader
        ensures ForwardedBy(r.n, ps + [p], id, x.v.hash)
      {
        ForwardedByMore(r.n, ps, p, id, x.v.hash);
      }
    }
  }

  ghost predicate Backed(r: Replica, ps: seq<Proposal>, o: Outcome) {
    Whole(Gathered(o.next, ps) && SameNode(r, o.next) && VoteBacked(r, ps, o.out))
  }

  lemma VotesBacked(r: Replica, ps: seq<Proposal>, r': Replica, out: set<Msg>, out': set<Msg>)
    requires SameNode(r, r') && VoteBacked(r, ps, out) && VoteBacked(r', ps, out')
    ensures VoteBacked(r, ps, out + out')
  {}

  lemma HandlesNext(r: Replica, ps: seq<Proposal>, o: Outcome, p: Proposal)
    requires Backed(r, ps, o) && r.leader < r.n && !r.maliciousVote && p.forwardSender != r.leader
    ensures var o' := HandleForward(o.next, p); Backed(r, ps + [p], Outcome(o'.next, o.out + o'.out))
  {
    HandlesOne(o.next, ps, p);
    VoteBackedMore(r, ps, p, o.out);
    VotesBacked(r, ps + [p], o.next, o.out, HandleForward(o.next, p).out);
  }

  lemma {:induction false} HandlesAll(r: Replica, ps: seq<Proposal>)
    requires Awaits(r) && NotFromLeader(r, ps)
    ensures Backed(r, ps, Handled(r, ps))
  {
    hide HandleForward;
    if ps != [] {
      var front, p := ps[..|ps| - 1], ps[|ps| - 1];
      assert front + [p] == ps;
      HandlesAll(r, front);
      HandlesNext(r, front, Handled(r, front), p);
    }
  }

  /** Whatever forwards a node is sent, it votes only for a block that every non-leader has
      signed a forward of. */
  lemma VoteNeedsEveryForward(r: Replica, ps: seq<Proposal>, x: Msg)
    requires Awaits(r) && NotFromLeader(r, ps) && x in Handled(r, ps).out && x.VoteMsg?
    ensures x.v.voter == r.id && x.v.view == r.view
    ensures forall id: nat :: id < r.n && id != r.leader ==> ForwardedBy(r.n, ps, id, x.v.hash)
  {
    HandlesAll(r, ps);
  }

  /** All the forwards a node has signed are of one block. */
  ghost predicate ForwardsOnce(n: nat, id: nat, ps: seq<Proposal>, qs: seq<Proposal>) {
    forall p, q :: p in ps && q in qs && p.forwardSender == id && q.forwardSender == id
                   && SignedHeader(n, id, p.block, p.forwardSig) && SignedHeader(n, id, q.block, q.forwardSig)
      ==> HashOf(p) == HashOf(q)
  }

  /** Two nodes that vote in the same view vote for the same block, whatever the leader and the
      others send, as soon as a single non-leader has forwarded only one block. */
  lemma VotesAgreeByForwarding(r: Replica, ps: seq<Proposal>, x: Msg, r': Replica, qs: seq<Proposal>, y: Msg, id: nat)
    requires Awaits(r) && NotFromLeader(r, ps) && x in Handled(r, ps).out && x.VoteMsg?
    requires Awaits(r') && NotFromLeader(r', qs) && y in Handled(r', qs).out && y.VoteMsg?
    requires r'.n == r.n && r'.leader == r.leader && id < r.n && id != r.leader
    requires ForwardsOnce(r.n, id, ps, qs)
    ensures x.v.hash == y.v.hash
  {
    VoteNeedsEveryForward(r, ps, x);
    VoteNeedsEveryForward(r', qs, y);
    assert ForwardedBy(r.n, ps, id, x.v.hash) && ForwardedBy(r.n, qs, id, y.v.hash);
  }

  // Which blocks a node can be made to vote for

  /** Every non-leader has forwarded the block. */
  ghost predicate Offered(n: nat, leader: nat, fs: set<Proposal>, h: Hash) {
    forall id: nat :: id < n && id != leader ==> OfferedBy(fs, id, h)
  }

  ghost predicate OfferedBy(fs: set<Proposal>, id: nat, h: Hash) {
    exists p :: p in fs && p.forwardSender == id && HashOf(p) == h
  }

  /** Some order of delivery makes the node vote for the block. */
  ghost predicate CanVote(r: Replica, fs: set<Proposal>, h: Hash) {
    exists ps :: (forall p :: p in ps ==> p in fs) && Votes(r, ps, h)
  }

  ghost predicate Votes(r: Replica, ps: seq<Proposal>, h: Hash) {
    exists x :: x in Handled(r, ps).out && x.VoteMsg? && x.v.hash == h
  }

  /** Forwards the node accepts, all by non-leaders. */
  ghost predicate Usable(r: Replica, fs: set<Proposal>) {
    forall p :: p in fs ==> p.forwardSender != r.leader && ValidForward(r, p)
  }

  /** How many of the first k nodes are not the leader. */
  function Others(leader: nat, k: nat): nat {
    if leader < k then k - 1 else k
  }

  lemma {:induction false} OthersBelow(leader: nat, k: nat)
    ensures |Nodes(k) - {leader}| == Others(leader, k)
  {
    if leader >= k {
      assert Nodes(k) - {leader} == Nodes(k);
    }
  }

  /** Part of the forwards are in, nothing else has happened. */
  ghost predicate Waiting(r: Replica, r': Replica, h: Hash, s: set<nat>) {
    Whole(
      && r' == r.(forwards := r'.forwards, proposalByView := r'.proposalByView)
      && Row(r'.forwards, r.view).Keys == s
      && (r.view in r'.proposalByView ==> HashOf(r'.proposalByView[r.view]) == h))
  }

  lemma StillValid(r: Replica, r': Replica, h: Hash, s: set<nat>, p: Proposal)
    requires Waiting(r, r', h, s) && |s| + 1 < r.n && ValidForward(r, p)
    ensures ValidForward(r', p) && !ForwardsComplete(r') && SameNode(r, r') && r'.equivocating == r.equivocating
  {}

  lemma RowKeys(row: map<nat, Proposal>, s: set<nat>, p: Proposal)
    requires row.Keys == s
    ensures row[p.forwardSender := p].Keys == s + {p.forwardSender}
    ensures |row[p.forwardSender := p]| == |s + {p.forwardSender}|
  {}

  lemma NotedOnly(r: Replica, p: Proposal)
    ensures var r' := NoteForward(NoteFirst(r, p), p);
            r' == r.(forwards := r'.forwards, proposalByView := r'.proposalByView)
  {
    hide Row;
  }

  lemma FirstNoted(r: Replica, h: Hash, p: Proposal)
    requires (r.view in r.proposalByView ==> HashOf(r.proposalByView[r.view]) == h) && HashOf(p) == h
    ensures r.view in NoteFirst(r, p).proposalByView && HashOf(NoteFirst(r, p).proposalByView[r.view]) == h
    ensures var r' := NoteForward(NoteFirst(r, p), p);
            r.view in r'.proposalByView && HashOf(r'.proposalByView[r.view]) == h
  {
    hide HashOf;
    hide Row;
  }

  lemma WaitsNoted(r: Replica, r': Replica, h: Hash, s: set<nat>, p: Proposal)
    requires Waiting(r, r', h, s) && HashOf(p) == h
    ensures var r2 := NoteForward(NoteFirst(r', p), p);
            && Waiting(r, r2, h, s + {p.forwardSender}) && r.view in NoteFirst(r', p).proposalByView
            && HashOf(NoteFirst(r', p).proposalByView[r.view]) == h
  {
    hide NoteForward;
    hide NoteFirst;
    hide HashOf;
    NotedOnly(r', p);
    NotedFields(r', p);
    FirstNoted(r', h, p);
    RowKeys(Row(r'.forwards, r.view), s, p);
  }

  lemma CompleteWhen(r: Replica, r': Replica, h: Hash, s: set<nat>)
    requires Waiting(r, r', h, s)
    ensures ForwardsComplete(r') <==> |s| + 1 >= r.n
  {}

  lemma WaitsOn(r: Replica, r': Replica, h: Hash, s: set<nat>, p: Proposal)
    requires Waiting(r, r', h, s) && !r.equivocating && !r.maliciousVote && |s| + 1 < r.n
    requires ValidForward(r, p) && HashOf(p) == h
    ensures |s + {p.forwardSender}| + 1 < r.n ==>
              Waiting(r, HandleForward(r', p).next, h, s + {p.forwardSender})
    ensures |s + {p.forwardSender}| + 1 >= r.n ==>
              VoteMsg(CastVote(r.id, h, r.view, p.miner)) in HandleForward(r', p).out
  {
    StillValid(r, r', h, s, p);
    WaitsNoted(r, r', h, s, p);
    CompleteWhen(r, NoteForward(NoteFirst(r', p), p), h, s + {p.forwardSender});
    CompleteReply(NoteForward(NoteFirst(r', p), p), p);
  }

  /** A node that may get a given block from everybody. */
  ghost predicate Courted(r: Replica, fs: set<Proposal>, h: Hash) {
    Whole(
      && Awaits(r) && Usable(r, fs) && (r.view in r.proposalByView ==> HashOf(r.proposalByView[r.view]) == h)
      && Offered(r.n, r.leader, fs, h))
  }

  lemma OthersStep(leader: nat, k: nat)
    requires k >= 1 && k - 1 != leader
    ensures Nodes(k - 1) - {leader} + {k - 1} == Nodes(k) - {leader}
    ensures |Nodes(k - 1) - {leader}| == Others(leader, k - 1) && |Nodes(k) - {leader}| == Others(leader, k)
  {
    OthersBelow(leader, k - 1);
    OthersBelow(leader, k);
  }

  lemma HandledLast(r: Replica, front: seq<Proposal>, p: Proposal)
    ensures var o := HandleForward(Handled(r, front).next, p);
            Handled(r, front + [p]).next == o.next && o.out <= Handled(r, front + [p]).out
  {}

  lemma PickFrom(r: Replica, fs: set<Proposal>, h: Hash, id: nat) returns (p: Proposal)
    requires Courted(r, fs, h) && id < r.n && id != r.leader
    ensures p in fs && p.forwardSender == id && HashOf(p) == h && ValidForward(r, p)
  {
    assert OfferedBy(fs, id, h);
    p :| p in fs && p.forwardSender == id && HashOf(p) == h;
  }

  /** The forward of node `k - 1` is handled after those of the nodes below. */
  lemma PickHandled(r: Replica, front: seq<Proposal>, h: Hash, k: nat, p: Proposal)
    requires Awaits(r) && 1 <= k <= r.n && k - 1 != r.leader && Others(r.leader, k - 1) + 1 < r.n
    requires Waiting(r, Handled(r, front).next, h, Nodes(k - 1) - {r.leader})
    requires p.forwardSender == k - 1 && HashOf(p) == h && ValidForward(r, p)
    ensures Others(r.leader, k) + 1 < r.n ==> Waiting(r, Handled(r, front + [p]).next, h, Nodes(k) - {r.leader})
    ensures Others(r.leader, k) + 1 >= r.n ==> Votes(r, front + [p], h)
  {
    OthersStep(r.leader, k);
    WaitsOn(r, Handled(r, front).next, h, Nodes(k - 1) - {r.leader}, p);
    HandledLast(r, front, p);
  }

  ghost predicate Picked(fs: set<Proposal>, ps: seq<Proposal>) {
    forall p :: p in ps ==> p in fs
  }

  lemma PickedMore(fs: set<Proposal>, ps: seq<Proposal>, p: Proposal)
    requires Picked(fs, ps) && p in fs
    ensures Picked(fs, ps + [p])
  {}

  lemma GatherNone(r: Replica, fs: set<Proposal>, h: Hash)
    requires Courted(r, fs, h)
    ensures Awaits(r) && Waiting(r, Handled(r, []).next, h, Nodes(0) - {r.leader}) && Picked(fs, [])
  {
    assert Nodes(0) - {r.leader} == {};
  }

  lemma LeaderSkipped(leader: nat)
    ensures Nodes(leader + 1) - {leader} == Nodes(leader) - {leader}
  {}

  lemma {:induction false} Gather(r: Replica, fs: set<Proposal>, h: Hash, k: nat) returns (ps: seq<Proposal>)
    requires Courted(r, fs, h) && k <= r.n && Others(r.leader, k) + 1 < r.n
    ensures Picked(fs, ps) && Waiting(r, Handled(r, ps).next, h, Nodes(k) - {r.leader})
  {
    hide Courted;
    hide Waiting;
    hide Awaits;
    hide Handled;
    hide ValidForward;
    hide HashOf;
    hide Picked;
    hide Nodes;
    GatherNone(r, fs, h);
    if k == 0 {
      ps := [];
    } else {
      ps := Gather(r, fs, h, k - 1);
      if k - 1 == r.leader {
        LeaderSkipped(r.leader);
      } else {
        var p := PickFrom(r, fs, h, k - 1);
        PickHandled(r, ps, h, k, p);
        PickedMore(fs, ps, p);
        ps := ps + [p];
      }
    }
  }

  lemma VotesAmong(r: Replica, fs: set<Proposal>, ps: seq<Proposal>, h: Hash)
    requires Votes(r, ps, h) && forall p :: p in ps ==> p in fs
    ensures CanVote(r, fs, h)
  {}

  /** Node `k - 1` is the last one that is not the leader. */
  lemma LastPickVotes(r: Replica, fs: set<Proposal>, h: Hash, k: nat)
    requires Courted(r, fs, h) && 1 <= k <= r.n && k - 1 != r.leader
    requires Others(r.leader, k - 1) + 1 < r.n && Others(r.leader, k) + 1 >= r.n
    ensures CanVote(r, fs, h)
  {
    var front := Gather(r, fs, h, k - 1);
    var p := PickFrom(r, fs, h, k - 1);
    PickHandled(r, front, h, k, p);
    VotesAmong(r, fs, front + [p], h);
  }

  /** If every non-leader has forwarded a block, delivering those forwards first makes the node vote for it. */
  lemma OfferedCanVote(r: Replica, fs: set<Proposal>, h: Hash)
    requires Courted(r, fs, h) && r.n >= 2
    ensures CanVote(r, fs, h)
  {
    LastPickVotes(r, fs, h, if r.leader == r.n - 1 then r.n - 1 else r.n);
  }

  lemma CanVoteOffered(r: Replica, fs: set<Proposal>, h: Hash)
    requires Awaits(r) && Usable(r, fs) && CanVote(r, fs, h)
    ensures Offered(r.n, r.leader, fs, h)
  {
    var ps :| (forall p :: p in ps ==> p in fs) && Votes(r, ps, h);
    var x :| x in Handled(r, ps).out && x.VoteMsg? && x.v.hash == h;
    VoteNeedsEveryForward(r, ps, x);
    forall id: nat | id < r.n && id != r.leader
      ensures OfferedBy(fs, id, h)
    {
      assert ForwardedBy(r.n, ps, id, h);
    }
  }

  /** Exactly the blocks that every non-leader has forwarded can get a node's vote. */
  lemma VotesExactlyOffered(r: Replica, fs: set<Proposal>, h: Hash)
    requires Awaits(r) && Usable(r, fs) && r.view !in r.proposalByView && r.n >= 2
    ensures CanVote(r, fs, h) <==> Offered(r.n, r.leader, fs, h)
  {
    if CanVote(r, fs, h) {
      CanVoteOffered(r, fs, h);
    }
    if Offered(r.n, r.leader, fs, h) {
      OfferedCanVote(r, fs, h);
    }
  }

  ghost predicate VotesUnique(r: Replica, r': Replica, fs: set<Proposal>) {
    forall h, h' :: CanVote(r, fs, h) && CanVote(r', fs, h') ==> h == h'
  }

  ghost predicate OfferUnique(n: nat, leader: nat, fs: set<Proposal>) {
    forall h, h' :: Offered(n, leader, fs, h) && Offered(n, leader, fs, h') ==> h == h'
  }

  /** Two nodes agree in every order of delivery if and only if no two blocks have both been
      forwarded by every non-leader. */
  lemma AgreementIff(r: Replica, r': Replica, fs: set<Proposal>)
    requires Awaits(r) && Usable(r, fs) && r.view !in r.proposalByView && r.n >= 2
    requires Awaits(r') && Usable(r', fs) && r'.view !in r'.proposalByView && r'.n == r.n && r'.leader == r.leader
    ensures VotesUnique(r, r', fs) <==> OfferUnique(r.n, r.leader, fs)
  {
    forall h
      ensures CanVote(r, fs, h) <==> Offered(r.n, r.leader, fs, h)
      ensures CanVote(r', fs, h) <==> Offered(r.n, r.leader, fs, h)
    {
      VotesExactlyOffered(r, fs, h);
      VotesExactlyOffered(r', fs, h);
    }
  }

  /** What the leader of the first view proposes; an equivocating one makes two, with different
      extra data. */
  function Twin(extra: string): Proposal {
    CandidateProposal(0, 0, [], GENESIS_CERT, 1, extra)
  }

  /** Both non-leaders of three nodes forward both blocks. */
  function TwinForwards(): set<Proposal> {
    {Forwarded(1, Twin("1")), Forwarded(2, Twin("1")), Forwarded(1, Twin("2")), Forwarded(2, Twin("2"))}
  }

  lemma TwinsUsable(r: Replica)
    requires r.n == 3 && r.leader == 0
    ensures Usable(r, TwinForwards())
  {}

  lemma TwinOffered(extra: string)
    requires extra == "1" || extra == "2"
    ensures Offered(3, 0, TwinForwards(), HashOf(Twin(extra)))
  {}

  /** Forwarding is not limited to one block per view by the node itself: when every non-leader
      forwards both blocks of an equivocating leader, two nodes can vote for different ones. */
  lemma DoubleForwardsSplitVotes()
    ensures CanVote(Initial(1, 3), TwinForwards(), HashOf(Twin("1")))
    ensures CanVote(Initial(2, 3), TwinForwards(), HashOf(Twin("2")))
    ensures HashOf(Twin("1")) != HashOf(Twin("2"))
  {
    TwinsUsable(Initial(1, 3));
    TwinsUsable(Initial(2, 3));
    TwinOffered("1");
    TwinOffered("2");
    VotesExactlyOffered(Initial(1, 3), TwinForwards(), HashOf(Twin("1")));
    VotesExactlyOffered(Initial(2, 3), TwinForwards(), HashOf(Twin("2")));
    assert Twin("1").block.header.extra[0] != Twin("2").block.header.extra[0];
  }
}
