/** One round at one correct node. Whatever order the round's messages arrive in, and
    however often, the node's state is tied to the set of messages it has handled. */
module Rounds {
  import opened Messages
  import opened Weights
  import opened Tallies
  import opened Reputation
  import opened Replicas

  /** What all correct nodes share when a view begins. */
  datatype Base = Base(
    n: nat,
    view: nat,
    leader: nat,
    byHeight: map<nat, Block>,
    byHash: map<Hash, Block>,
    certHash: map<nat, Hash>,
    log: Transcript,
    reputation: map<nat, Table>)

  /** The messages of a round that count, sorted by what they do. */
  datatype Heard = Heard(
    forwards: set<Msg>,
    votes: set<Msg>,
    equivocation: bool,
    maliciousProposers: set<nat>,
    maliciousVoters: set<nat>)

  /** A round as seen from outside: the state it started from, everything said in it so far,
      whether the leader withholds its proposal, and what a correct leader has proposed. */
  datatype Scene = Scene(
    base: Base,
    round: Heard,
    withheld: bool,
    correctLeader: bool,
    own: Option<Block>)

  function HashOf(p: Proposal): Hash {
    BlockHash(p.block)
  }

  function LeaderOf(view: nat, n: nat): nat
    requires n > 0
  {
    if view == 0 then 0 else (view - 1) % n
  }

  /** The hash the next block builds on: the one certified in the previous view. */
  function Parent(b: Base): Hash {
    if b.view >= 1 && b.view - 1 in b.certHash then b.certHash[b.view - 1] else EmptyHash
  }

  /** A long conjunction taken as one condition: written as an equation, it is checked as a
      whole and not clause by clause. */
  ghost predicate Whole(claim: bool) {
    claim == true
  }

  // What counts

  ghost predicate AcceptableAt(b: Base, p: Proposal) {
    && p.block.claimed == BlockHash(p.block)
    && SignedHeader(b.n, b.leader, p.block, p.miningProof)
    && IsCertValid(b.byHash, PreviousTable(b.reputation, b.view), p.evidence)
  }

  ghost predicate IsForward(b: Base, m: Msg) {
    && m.PropMsg? && m.p.forwardSender != b.leader
    && AcceptableAt(b, m.p) && SignedHeader(b.n, m.p.forwardSender, m.p.block, m.p.forwardSig)
  }

  predicate IsBallot(b: Base, m: Msg) {
    m.VoteMsg? && m.v.owner == b.leader && SignedVote(b.n, m.v)
  }

  predicate IsEquivocation(b: Base, m: Msg) {
    m.EquivocationMsg? && EquivocationValid(b.n, b.leader, b.view, m.accusation, m.e1, m.e2)
  }

  predicate IsProposalEvidence(b: Base, m: Msg) {
    m.MaliciousProposalMsg? && MaliciousProposalValid(b.n, b.leader, b.view, m.accusation, m.e)
  }

  predicate IsVoteEvidence(b: Base, m: Msg) {
    m.MaliciousVoteMsg? && MaliciousVoteValid(b.n, b.view, m.accusation, m.ev)
  }

  ghost function Hear(b: Base, s: set<Msg>): Heard {
    Heard(set m | m in s && IsForward(b, m),
          set m | m in s && IsBallot(b, m),
          exists m :: m in s && IsEquivocation(b, m),
          set m | m in s && IsProposalEvidence(b, m) :: m.e.miner,
          set m | m in s && IsVoteEvidence(b, m) :: m.ev.voter)
  }

  const NOTHING := Heard({}, {}, false, {}, {})

  ghost function Senders(fs: set<Msg>): set<nat> {
    set m | m in fs && m.PropMsg? :: m.p.forwardSender
  }

  ghost predicate Conflict(fs: set<Msg>) {
    exists x, y :: x in fs && y in fs && x.PropMsg? && y.PropMsg? && HashOf(x.p) != HashOf(y.p)
  }

  ghost predicate Full(n: nat, fs: set<Msg>) {
    fs != {} && !Conflict(fs) && |Senders(fs)| + 1 >= n
  }

  ghost predicate ForwardOf(fs: set<Msg>, id: nat, h: Hash) {
    exists m :: m in fs && m.PropMsg? && m.p.forwardSender == id && HashOf(m.p) == h
  }

  /** Every non-leader has forwarded the block with this hash. */
  ghost predicate FullyForwarded(b: Base, fs: set<Msg>, h: Hash) {
    b.n >= 2 && forall id: nat :: id < b.n && id != b.leader ==> ForwardOf(fs, id, h)
  }

  ghost function Voters(vs: set<Msg>): set<nat> {
    set m | m in vs && m.VoteMsg? :: m.v.voter
  }

  /** A proposal built on the certificate of the previous view, as every proposer builds it. */
  predicate WellBuilt(b: Base, p: Proposal) {
    && p.miner == b.leader
    && p.block.header.height == b.view
    && p.block.header.parent == Parent(b)
    && p.block.claimed == Digest(p.block.header)
    && p.evidence.hash == Parent(b)
  }

  // The shared state

  function HeightOf(h: Hash): nat {
    match h
    case Digest(header) => header.height
    case HeaderBytes(header) => header.height
    case _ => 0
  }

  predicate ProperBlock(k: Block) {
    k.claimed == EmptyHash || k.claimed == Digest(k.header)
  }

  /** The block at a height extends the certified block below and is itself the certified one. */
  ghost predicate Linked(b: Base, h: nat)
    requires h in b.byHeight
  {
    Whole(
      && ProperBlock(b.byHeight[h])
      && b.byHeight[h].header.height == h
      && h >= 1 && h - 1 in b.certHash && b.byHeight[h].header.parent == b.certHash[h - 1]
      && h in b.certHash && b.certHash[h] == BlockHash(b.byHeight[h])
      && b.certHash[h] in b.byHash && b.byHash[b.certHash[h]] == b.byHeight[h])
  }

  /** The blocks up to the previous view form a chain linked by the certified hashes. */
  ghost predicate Chained(b: Base) {
    && (forall h: nat :: h in b.certHash <==> h < b.view)
    && 0 in b.certHash && b.certHash[0] == EmptyHash
    && (forall h: nat :: h in b.byHeight <==> 1 <= h < b.view)
    && (forall h :: h in b.byHeight ==> Linked(b, h))
  }

  ghost predicate LeaderRows(t: Tally, n: nat)
    requires n > 0
  {
    forall v :: v in t ==> t[v] == Ones({LeaderOf(v, n)})
  }

  ghost predicate GoodTable(n: nat, w: Table) {
    w.Keys == Nodes(n) && forall id :: id in w ==> w[id] >= INITIAL_SCORE
  }

  /** There is a table for every view so far, over exactly the n nodes. */
  ghost predicate Tabulated(n: nat, view: nat, reputation: map<nat, Table>) {
    Whole(
      && (forall v: nat :: v in reputation <==> 1 <= v <= view)
      && (forall v :: v in reputation ==> GoodTable(n, reputation[v])))
  }

  ghost predicate BaseOk(b: Base) {
    Whole(
      && b.n >= 1 && b.view >= 1
      && b.leader == LeaderOf(b.view, b.n)
      && Chained(b)
      && WithinViews(b.log, b.view - 1)
      && LeaderRows(b.log.proposals, b.n)
      && LeaderRows(b.log.withheld, b.n)
      && LeaderRows(b.log.equivocations, b.n)
      && Tabulated(b.n, b.view, b.reputation))
  }

  // The node's state inside the round

  ghost predicate SameTables(b: Base, reputation: map<nat, Table>) {
    && (forall v :: v != b.view + 1 ==> (v in reputation <==> v in b.reputation))
    && (forall v :: v != b.view + 1 && v in b.reputation ==> reputation[v] == b.reputation[v])
    && (b.view + 1 in reputation ==> reputation[b.view + 1].Keys <= Nodes(b.n))
  }

  predicate UpToView<T>(m: map<nat, T>, view: nat) {
    forall v :: v in m ==> v <= view
  }

  ghost predicate MidMeta(b: Base, id: nat, r: Replica) {
    && r.id == id && r.n == b.n && r.view == b.view && r.leader == b.leader
    && !r.maliciousVote
    && SameTables(b, r.reputation)
    && UpToView(r.proposalByView, b.view) && UpToView(r.forwards, b.view)
    && UpToView(r.ballots, b.view) && r.certified.Keys == r.ballots.Keys
  }

  function Lookup<T>(m: map<nat, T>, view: nat): Option<T> {
    if view in m then Some(m[view]) else None
  }

  /** The forwards a node holds in this view. `leading` says whether it is the leader, `first`
      is the proposal it compares with, `own` the block a correct leader has proposed. */
  ghost predicate MidForwards(own: Option<Block>, leading: bool, first: Option<Proposal>, row: map<nat, Proposal>,
                              equivocating: bool, fs: set<Msg>)
  {
    Whole(
      && equivocating == Conflict(fs)
      && row.Keys <= Senders(fs)
      && (!Conflict(fs) ==> row.Keys == Senders(fs))
      && (forall j :: j in row ==>
            && PropMsg(row[j]) in fs && row[j].forwardSender == j
            && first.Some? && HashOf(row[j]) == HashOf(first.value))
      && (if leading then own == if first.Some? then Some(first.value.block) else None
          else (first.Some? <==> fs != {}) && (first.Some? ==> PropMsg(first.value) in fs)))
  }

  ghost predicate Accepted(n: nat, leading: bool, first: Option<Proposal>, fs: set<Msg>) {
    if leading then first.Some? else Full(n, fs)
  }

  ghost predicate Extended(b: Base, l: Ledger, k: Block) {
    && l.head == b.view
    && l.byHeight == b.byHeight[b.view := k]
    && l.byHash == b.byHash[BlockHash(k) := k]
  }

  function RoundEmptyBlock(b: Base): Block {
    EmptyBlock(Parent(b), b.view)
  }

  ghost predicate MidBlocks(b: Base, empty: bool, accepted: bool, first: Option<Proposal>, l: Ledger) {
    if empty then Extended(b, l, RoundEmptyBlock(b))
    else if accepted then first.Some? && WellBuilt(b, first.value) && Extended(b, l, first.value.block)
    else l.head == b.view - 1 && l.byHeight == b.byHeight && l.byHash == b.byHash
  }

  /** A certificate any correct node accepts in the next view. */
  ghost predicate VotedCert(b: Base, round: Heard, c: Certificate) {
    && FullyForwarded(b, round.forwards, c.hash)
    && UsableSignatures(c) && Distinct(c.ids) && Elements(c.ids) <= Nodes(b.n)
    && SeqSum(TableAt(b.reputation, b.view), c.ids) > Half(TableAt(b.reputation, b.view))
  }

  ghost predicate OldCerts(b: Base, certs: map<nat, Certificate>) {
    && UpToView(certs, b.view)
    && (forall v: nat :: v < b.view ==> v in certs && v in b.certHash && certs[v].hash == b.certHash[v])
    && b.view >= 1 && IsCertValid(b.byHash, PreviousTable(b.reputation, b.view), certs[b.view - 1])
  }

  ghost predicate MidCert(b: Base, round: Heard, empty: bool, cert: Option<Certificate>, voters: set<nat>) {
    && (cert.Some? <==> empty || Outweighs(TableAt(b.reputation, b.view), voters))
    && (cert.Some? ==> if empty then cert.value.hash == BlockHash(RoundEmptyBlock(b))
                       else VotedCert(b, round, cert.value))
  }

  ghost predicate MidBallots(b: Base, poll: map<nat, Vote>, certified: bool, vs: set<Msg>) {
    var table := TableAt(b.reputation, b.view);
    && poll.Keys <= Voters(vs)
    && (certified <==> Outweighs(table, Voters(vs)))
    && (!certified ==> poll.Keys == Voters(vs))
    && (certified ==> Outweighs(table, poll.Keys))
    && (forall j :: j in poll ==> VoteMsg(poll[j]) in vs && poll[j].voter == j)
  }

  ghost function Only(c: bool, id: nat): set<nat> {
    if c then {id} else {}
  }

  ghost predicate MidLog(b: Base, withheld: bool, accepted: bool, voted: set<nat>, log: Transcript, h: Heard) {
    && log.proposals == WithRow(b.log.proposals, b.view, Only(accepted, b.leader))
    && log.votes == WithRow(b.log.votes, b.view, voted)
    && log.withheld == WithRow(b.log.withheld, b.view, Only(withheld, b.leader))
    && log.equivocations == WithRow(b.log.equivocations, b.view, Only(h.equivocation, b.leader))
    && log.maliciousProposals == WithRow(b.log.maliciousProposals, b.view, h.maliciousProposers)
    && log.maliciousVotes == WithRow(b.log.maliciousVotes, b.view, h.maliciousVoters)
  }

  /** `h` is what this node has handled, `began` whether it has started its round, `accepted`
      whether it has the leader's block, `voted` whether it has voted for it. */
  ghost predicate Midway(c: Scene, began: bool, id: nat, r: Replica, h: Heard, accepted: bool, voted: bool) {
    var b, first := c.base, Lookup(r.proposalByView, c.base.view);
    var withheld := began && c.withheld;
    var empty := withheld || h.equivocation;
    Whole(
      && MidMeta(b, id, r) && (began ==> r.withholding == c.withheld)
      && MidForwards(c.own, id == b.leader, first, Row(r.forwards, b.view), r.equivocating, h.forwards)
      && MidBlocks(b, empty, accepted, first, r.ledger)
      && OldCerts(b, r.ledger.certs)
      && MidCert(b, c.round, empty, Lookup(r.ledger.certs, b.view), Voters(h.votes))
      && MidBallots(b, Row(r.ballots, b.view), IsCertified(r), h.votes)
      && MidLog(b, withheld, accepted, Voters(h.votes) + Only(voted, id), r.log, h))
  }

  ghost predicate Mid(c: Scene, began: bool, id: nat, r: Replica, h: Heard) {
    Midway(c, began, id, r, h,
           Accepted(c.base.n, id == c.base.leader, Lookup(r.proposalByView, c.base.view), h.forwards),
           Full(c.base.n, h.forwards))
  }

  ghost predicate Within(h: Heard, round: Heard) {
    && h.forwards <= round.forwards && h.votes <= round.votes
    && (h.equivocation ==> round.equivocation)
    && h.maliciousProposers <= round.maliciousProposers && h.maliciousVoters <= round.maliciousVoters
  }

  ghost predicate OnePerSender(fs: set<Msg>) {
    forall x, y :: x in fs && y in fs && x.PropMsg? && y.PropMsg? ==>
      x.p.forwardSender == y.p.forwardSender ==> x == y
  }

  ghost predicate HashFixesBlock(fs: set<Msg>) {
    forall x, y :: x in fs && y in fs && x.PropMsg? && y.PropMsg? ==>
      HashOf(x.p) == HashOf(y.p) ==> x.p.block == y.p.block
  }

  /** What synchronous broadcast and the injected misbehaviour guarantee about a round. */
  ghost predicate RoundOk(c: Scene) {
    Whole(
      && (forall m :: m in c.round.forwards ==> IsForward(c.base, m) && WellBuilt(c.base, m.p))
      && OnePerSender(c.round.forwards)
      && HashFixesBlock(c.round.forwards)
      && (forall m :: m in c.round.votes ==> IsBallot(c.base, m) && FullyForwarded(c.base, c.round.forwards, m.v.hash))
      && (c.round.equivocation ==> Conflict(c.round.forwards))
      && (c.withheld ==> c.round.forwards == {} && !c.correctLeader)
      && (c.correctLeader ==> forall m :: m in c.round.forwards ==> c.own == Some(m.p.block)))
  }

  /** What the handlers need to know about the state a round starts from. */
  ghost predicate Ready(b: Base) {
    Whole(
      && b.view >= 1 && b.view - 1 in b.certHash && b.leader < b.n
      && (Parent(b) == EmptyHash || HeightOf(Parent(b)) < b.view)
      && b.view !in b.log.proposals && b.view !in b.log.votes && b.view !in b.log.withheld
      && b.view !in b.log.equivocations && b.view !in b.log.maliciousProposals && b.view !in b.log.maliciousVotes
      && b.view in b.reputation && NonNegative(b.reputation[b.view]))
  }

  // Forwards

  lemma SendersBound(b: Base, fs: set<Msg>)
    requires forall m :: m in fs ==> IsForward(b, m)
    ensures Senders(fs) <= Nodes(b.n) - {b.leader}
  {}

  /** n-1 distinct forwarders are all the non-leaders. */
  lemma {:induction false} Pigeonhole(b: Base, s: set<nat>)
    requires b.leader < b.n && s <= Nodes(b.n) - {b.leader} && |s| + 1 >= b.n
    ensures s == Nodes(b.n) - {b.leader}
  {
    var others := Nodes(b.n) - {b.leader};
    assert |others| == b.n - 1;
    if s != others {
      var x :| x in others && x !in s;
      assert s <= others - {x};
      SubsetSize(s, others - {x});
      assert false;
    }
  }

  lemma {:induction false} SubsetSize(s: set<nat>, t: set<nat>)
    requires s <= t
    ensures |s| <= |t|
    decreases s
  {
    if s != {} {
      var x :| x in s;
      SubsetSize(s - {x}, t - {x});
    }
  }

  /** Once every non-leader has forwarded one block, no other forward can be around. */
  lemma FullyForwardedAgrees(b: Base, fs: set<Msg>, h: Hash, m: Msg)
    requires OnePerSender(fs) && FullyForwarded(b, fs, h)
    requires m in fs && IsForward(b, m)
    ensures HashOf(m.p) == h
  {
    assert ForwardOf(fs, m.p.forwardSender, h);
  }

  lemma FullyForwardedNoConflict(b: Base, fs: set<Msg>, h: Hash)
    requires OnePerSender(fs) && FullyForwarded(b, fs, h)
    requires forall m :: m in fs ==> IsForward(b, m)
    ensures !Conflict(fs)
  {
    forall m | m in fs
      ensures HashOf(m.p) == h
    {
      FullyForwardedAgrees(b, fs, h, m);
    }
  }

  lemma FullIsFullyForwarded(b: Base, fs: set<Msg>, m: Msg)
    requires b.leader < b.n && Full(b.n, fs) && m in fs && IsForward(b, m)
    requires forall x :: x in fs ==> IsForward(b, x)
    ensures FullyForwarded(b, fs, HashOf(m.p))
  {
    SendersBound(b, fs);
    Pigeonhole(b, Senders(fs));
    var h := HashOf(m.p);
    forall id: nat | id < b.n && id != b.leader
      ensures ForwardOf(fs, id, h)
    {
      assert id in Senders(fs);
      var x :| x in fs && x.PropMsg? && x.p.forwardSender == id;
      assert HashOf(x.p) == h;
    }
    assert m.p.forwardSender < b.n && m.p.forwardSender != b.leader;
  }

  lemma FullyForwardedIsFull(b: Base, fs: set<Msg>, h: Hash)
    requires OnePerSender(fs) && FullyForwarded(b, fs, h) && b.leader < b.n
    requires forall m :: m in fs ==> IsForward(b, m)
    ensures Full(b.n, fs)
  {
    FullyForwardedNoConflict(b, fs, h);
    var others := Nodes(b.n) - {b.leader};
    forall id | id in others
      ensures id in Senders(fs)
    {
      assert ForwardOf(fs, id, h);
    }
    SubsetSize(others, Senders(fs));
    var id :| id in others;
    assert ForwardOf(fs, id, h);
  }

  lemma FullyForwardedGrows(b: Base, fs: set<Msg>, gs: set<Msg>, h: Hash)
    requires FullyForwarded(b, fs, h) && fs <= gs
    ensures FullyForwarded(b, gs, h)
  {
    forall id: nat | id < b.n && id != b.leader
      ensures ForwardOf(gs, id, h)
    {
      assert ForwardOf(fs, id, h);
    }
  }

  // Handling a forward

  lemma ParentBelow(b: Base)
    requires Chained(b) && b.view >= 1
    ensures b.view - 1 in b.certHash && (Parent(b) == EmptyHash || HeightOf(Parent(b)) < b.view)
  {
    if b.view > 1 {
      assert Linked(b, b.view - 1);
    }
  }

  lemma FreshView(log: Transcript, view: nat)
    requires view >= 1 && WithinViews(log, view - 1)
    ensures view !in log.proposals && view !in log.votes && view !in log.withheld
    ensures view !in log.equivocations && view !in log.maliciousProposals && view !in log.maliciousVotes
  {}

  lemma LeaderInRange(view: nat, n: nat)
    requires n > 0
    ensures LeaderOf(view, n) < n
  {}

  lemma CurrentTable(b: Base)
    requires Tabulated(b.n, b.view, b.reputation) && b.view >= 1
    ensures b.view in b.reputation && NonNegative(b.reputation[b.view])
  {}

  lemma BaseIsReady(b: Base)
    requires BaseOk(b)
    ensures Ready(b)
  {
    ParentBelow(b);
    FreshView(b.log, b.view);
    LeaderInRange(b.view, b.n);
    CurrentTable(b);
  }

  /** The current block does not change which proposals of the view are acceptable. */
  lemma AcceptableSame(b: Base, id: nat, r: Replica, empty: bool, accepted: bool, p: Proposal)
    requires Ready(b) && MidMeta(b, id, r)
    requires MidBlocks(b, empty, accepted, Lookup(r.proposalByView, b.view), r.ledger)
    requires SignedHeader(b.n, b.leader, p.block, p.miningProof) ==> WellBuilt(b, p)
    ensures Acceptable(r, p) <==> AcceptableAt(b, p)
  {
    assert PreviousTable(r.reputation, r.view) == PreviousTable(b.reputation, b.view);
  }

  /** With all forwards in, a further one is a repetition. */
  lemma NothingNew(b: Base, gs: set<Msg>, fs: set<Msg>, row: map<nat, Proposal>, m: Msg)
    requires b.leader < b.n && fs <= gs && OnePerSender(gs)
    requires forall x :: x in gs ==> IsForward(b, x)
    requires forall j :: j in row ==> PropMsg(row[j]) in fs && row[j].forwardSender == j
    requires |row| + 1 >= b.n && m in gs
    ensures m in fs
  {
    assert IsForward(b, m);
    forall j | j in row
      ensures j in Nodes(b.n) - {b.leader}
    {
      assert IsForward(b, PropMsg(row[j]));
    }
    assert |row.Keys| == |row|;
    Pigeonhole(b, row.Keys);
    assert m.p.forwardSender in row;
  }

  function OrElse(first: Option<Proposal>, p: Proposal): Proposal {
    if first.Some? then first.value else p
  }

  /** The block a forward is compared with has the hash of all forwards so far. */
  lemma FirstBlock(c: Scene, leading: bool, first: Option<Proposal>, row: map<nat, Proposal>, fs: set<Msg>, m: Msg)
    requires RoundOk(c) && (leading ==> c.correctLeader)
    requires MidForwards(c.own, leading, first, row, false, fs) && fs <= c.round.forwards && m in c.round.forwards
    ensures m.PropMsg? && (leading ==> first.Some?)
    ensures forall x :: x in fs ==> x.PropMsg? && HashOf(x.p) == HashOf(OrElse(first, m.p))
    ensures Conflict(fs + {m}) <==> HashOf(OrElse(first, m.p)) != HashOf(m.p)
    ensures Conflict(fs + {m}) ==> !leading && first.Some? && PropMsg(first.value) in fs
  {
    assert IsForward(c.base, m);
    var p := OrElse(first, m.p);
    forall x | x in fs
      ensures x.PropMsg? && HashOf(x.p) == HashOf(p)
    {
      assert IsForward(c.base, x);
    }
    if HashOf(p) != HashOf(m.p) {
      if leading {
        assert false;
      } else {
        assert PropMsg(p) in fs + {m} && m in fs + {m};
      }
    }
  }

  lemma SendersAdd(fs: set<Msg>, m: Msg)
    requires m.PropMsg?
    ensures Senders(fs + {m}) == Senders(fs) + {m.p.forwardSender}
  {}

  lemma ForwardRecorded(own: Option<Block>, leading: bool, first: Option<Proposal>, row: map<nat, Proposal>,
                        fs: set<Msg>, m: Msg)
    requires MidForwards(own, leading, first, row, false, fs) && m.PropMsg? && !Conflict(fs + {m})
    requires (leading ==> first.Some?) && HashOf(OrElse(first, m.p)) == HashOf(m.p)
    requires forall x :: x in fs ==> x.PropMsg? && HashOf(x.p) == HashOf(m.p)
    ensures row[m.p.forwardSender := m.p].Keys == Senders(fs + {m})
    ensures MidForwards(own, leading, Some(OrElse(first, m.p)), row[m.p.forwardSender := m.p], false, fs + {m})
    ensures !leading ==> MidForwards(own, leading, Some(m.p), row[m.p.forwardSender := m.p], false, fs + {m})
  {
    SendersAdd(fs, m);
    var row' := row[m.p.forwardSender := m.p];
    assert row'.Keys == row.Keys + {m.p.forwardSender};
  }

  lemma ForwardConflict(c: Scene, leading: bool, first: Option<Proposal>, row: map<nat, Proposal>, fs: set<Msg>, m: Msg)
    requires RoundOk(c) && (leading ==> c.correctLeader)
    requires MidForwards(c.own, leading, first, row, false, fs) && fs <= c.round.forwards && m in c.round.forwards
    requires m.PropMsg? && HashOf(OrElse(first, m.p)) != HashOf(m.p)
    ensures MidForwards(c.own, leading, first, row, true, fs + {m})
    ensures Conflict(fs + {m}) && !leading && first.Some? && PropMsg(first.value) in fs
  {
    FirstBlock(c, leading, first, row, fs, m);
    SendersAdd(fs, m);
  }

  /** A correct node in the middle of a round it takes part in. */
  ghost predicate Handles(c: Scene, began: bool, id: nat, r: Replica, h: Heard) {
    Whole(
      && Ready(c.base) && RoundOk(c) && id < c.base.n && (id == c.base.leader ==> c.correctLeader)
      && Mid(c, began, id, r, h) && Within(h, c.round))
  }

  lemma NotYetFull(n: nat, own: Option<Block>, leading: bool, first: Option<Proposal>, row: map<nat, Proposal>,
                   fs: set<Msg>)
    requires MidForwards(own, leading, first, row, false, fs) && |row| + 1 < n
    ensures !Full(n, fs)
  {}

  lemma UpToViewWith<T>(m: map<nat, T>, view: nat, x: T)
    requires UpToView(m, view)
    ensures UpToView(m[view := x], view)
  {}

  lemma NotedMeta(b: Base, id: nat, r: Replica, p: Proposal)
    requires MidMeta(b, id, r)
    ensures MidMeta(b, id, NoteForward(NoteFirst(r, p), p))
  {
    hide SameTables;
    hide UpToView;
    hide Row;
    UpToViewWith(r.proposalByView, b.view, p);
    UpToViewWith(r.forwards, b.view, Row(r.forwards, b.view)[p.forwardSender := p]);
  }

  lemma AcceptedMeta(b: Base, id: nat, r: Replica, p: Proposal)
    requires MidMeta(b, id, r)
    ensures MidMeta(b, id, AcceptBlock(r, p))
    ensures Lookup(AcceptBlock(r, p).proposalByView, b.view) == Some(p)
  {}

  /** Counting votes keeps the rest of the state. */
  lemma PolledMeta(b: Base, id: nat, r: Replica, r': Replica)
    requires MidMeta(b, id, r)
    requires r' == r.(log := r'.log, ledger := r'.ledger, ballots := r'.ballots, certified := r'.certified)
    requires r'.ballots.Keys == r.ballots.Keys && r'.certified.Keys == r.certified.Keys
    ensures MidMeta(b, id, r')
  {}

  lemma NotedBlocks(b: Base, empty: bool, accepted: bool, first: Option<Proposal>, p: Proposal, l: Ledger)
    requires MidBlocks(b, empty, accepted, first, l) && (accepted ==> first.Some?)
    ensures MidBlocks(b, empty, accepted, Some(OrElse(first, p)), l)
  {}

  lemma NotedFields(r: Replica, p: Proposal)
    ensures var r' := NoteForward(NoteFirst(r, p), p);
            && Row(r'.forwards, r.view) == Row(r.forwards, r.view)[p.forwardSender := p]
            && Lookup(r'.proposalByView, r.view) == Some(OrElse(Lookup(r.proposalByView, r.view), p))
  {}

  /** Noting a forward touches nothing but the forwards. */
  lemma Notes(c: Scene, began: bool, id: nat, r: Replica, h: Heard, accepted: bool, voted: bool, p: Proposal,
              fs: set<Msg>)
    requires r.view == c.base.view
    requires var first := Lookup(r.proposalByView, r.view);
             && MidForwards(c.own, id == c.base.leader, Some(OrElse(first, p)),
                            Row(r.forwards, r.view)[p.forwardSender := p], r.equivocating, fs)
             && (accepted ==> first.Some?)
    ensures Midway(c, began, id, r, h, accepted, voted)
        ==> Midway(c, began, id, NoteForward(NoteFirst(r, p), p), h.(forwards := fs), accepted, voted)
  {
    hide MidForwards;
    hide OldCerts;
    hide MidCert;
    hide MidBallots;
    hide MidBlocks;
    NotedFields(r, p);
    if Midway(c, began, id, r, h, accepted, voted) {
      NotedMeta(c.base, id, r, p);
      NotedBlocks(c.base, (began && c.withheld) || h.equivocation, accepted, Lookup(r.proposalByView, r.view), p,
                  r.ledger);
    }
  }

  lemma Flags(c: Scene, began: bool, id: nat, r: Replica, h: Heard, accepted: bool, voted: bool, fs: set<Msg>)
    requires MidForwards(c.own, id == c.base.leader, Lookup(r.proposalByView, c.base.view), Row(r.forwards,
        c.base.view),
                         true, fs)
    ensures Midway(c, began, id, r, h, accepted, voted)
        ==> Midway(c, began, id, r.(equivocating := true), h.(forwards := fs), accepted, voted)
  {}

  lemma AcceptedLog(b: Base, withheld: bool, voted: set<nat>, log: Transcript, h: Heard)
    requires Ready(b) && MidLog(b, withheld, false, voted, log, h)
    ensures MidLog(b, withheld, true, voted, log.(proposals := MarkSole(log.proposals, b.view, b.leader)), h)
  {}

  lemma AcceptedBlocks(b: Base, first: Option<Proposal>, p: Proposal, l: Ledger)
    requires Ready(b) && MidBlocks(b, false, false, first, l) && WellBuilt(b, p)
    ensures MidBlocks(b, false, true, Some(p), AddBlock(l, p.block))
  {}

  lemma AcceptsBlock(c: Scene, began: bool, id: nat, r: Replica, h: Heard, voted: bool, p: Proposal)
    requires Ready(c.base) && WellBuilt(c.base, p) && !(began && c.withheld) && !h.equivocation
    requires MidForwards(c.own, id == c.base.leader, Some(p), Row(r.forwards, c.base.view), r.equivocating, h.forwards)
    ensures Midway(c, began, id, r, h, false, voted) ==> Midway(c, began, id, AcceptBlock(r, p), h, true, voted)
  {
    hide MidForwards;
    hide OldCerts;
    hide MidCert;
    hide MidBallots;
    hide MidBlocks;
    hide MidLog;
    if Midway(c, began, id, r, h, false, voted) {
      AcceptedLog(c.base, began && c.withheld, Voters(h.votes) + Only(voted, id), r.log, h);
      AcceptedBlocks(c.base, Lookup(r.proposalByView, c.base.view), p, r.ledger);
      AcceptedMeta(c.base, id, r, p);
    }
  }

  lemma VotedLog(b: Base, withheld: bool, accepted: bool, voters: set<nat>, log: Transcript, h: Heard, id: nat)
    requires Ready(b) && MidLog(b, withheld, accepted, voters + Only(false, id), log, h)
    ensures MidLog(b, withheld, accepted, voters + Only(true, id), log.(votes := Mark(log.votes, b.view, id)), h)
  {
    MarkRow(b.log.votes, b.view, voters, id);
    assert voters + Only(false, id) == voters;
  }

  lemma Votes(c: Scene, began: bool, id: nat, r: Replica, h: Heard, accepted: bool, hash: Hash, owner: nat)
    requires Ready(c.base)
    ensures Midway(c, began, id, r, h, accepted, false)
        ==> Midway(c, began, id, VoteFor(r, hash, owner).next, h, accepted, true)
  {
    if Midway(c, began, id, r, h, accepted, false) {
      VotedLog(c.base, began && c.withheld, accepted, Voters(h.votes), r.log, h, id);
    }
  }

  lemma AllForwarded(c: Scene, row: map<nat, Proposal>, fs: set<Msg>, m: Msg)
    requires c.base.leader < c.base.n && RoundOk(c) && m in fs && m.PropMsg?
    requires forall x :: x in fs ==> x in c.round.forwards
    requires row.Keys == Senders(fs) && |row| + 1 >= c.base.n && !Conflict(fs)
    ensures Full(c.base.n, fs) && FullyForwarded(c.base, fs, HashOf(m.p))
    ensures WellBuilt(c.base, m.p) && !c.withheld && !c.round.equivocation
  {
    assert |row.Keys| == |row|;
    assert IsForward(c.base, m);
    FullIsFullyForwarded(c.base, fs, m);
    FullyForwardedGrows(c.base, fs, c.round.forwards, HashOf(m.p));
    FullyForwardedNoConflict(c.base, c.round.forwards, HashOf(m.p));
  }

  /** What a node sends when it has handled a forward. */
  ghost predicate ForwardReply(b: Base, id: nat, fs: set<Msg>, x: Msg) {
    || (x.VoteMsg? && x.v == CastVote(id, x.v.hash, b.view, b.leader)
        && Full(b.n, fs) && FullyForwarded(b, fs, x.v.hash))
    || (IsEquivocation(b, x) && Conflict(fs) && id != b.leader)
  }

  lemma ForwardNoted(c: Scene, began: bool, id: nat, r: Replica, h: Heard, m: Msg)
    requires Handles(c, began, id, r, h) && m in c.round.forwards && m.PropMsg?
    requires !r.equivocating && !ForwardsComplete(r)
    requires HashOf(OrElse(Lookup(r.proposalByView, r.view), m.p)) == HashOf(m.p)
    ensures !Conflict(h.forwards + {m}) && !Full(c.base.n, h.forwards)
    ensures Row(r.forwards, r.view)[m.p.forwardSender := m.p].Keys == Senders(h.forwards + {m})
    ensures id == c.base.leader ==> Lookup(r.proposalByView, r.view).Some?
    ensures id != c.base.leader
            ==> MidForwards(c.own, false, Some(m.p), Row(r.forwards, r.view)[m.p.forwardSender := m.p],
                                                false, h.forwards + {m})
    ensures Midway(c, began, id, NoteForward(NoteFirst(r, m.p), m.p), h.(forwards := h.forwards + {m}),
                   id == c.base.leader, false)
  {
    var leading, first, row := id == c.base.leader, Lookup(r.proposalByView, r.view), Row(r.forwards, r.view);
    FirstBlock(c, leading, first, row, h.forwards, m);
    ForwardRecorded(c.own, leading, first, row, h.forwards, m);
    NotYetFull(c.base.n, c.own, leading, first, row, h.forwards);
    Notes(c, began, id, r, h, leading, false, m.p, h.forwards + {m});
  }

  lemma ConflictProven(b: Base, id: nat, x: Msg, y: Msg)
    requires b.leader < b.n && id < b.n && IsForward(b, x) && IsForward(b, y)
    ensures IsEquivocation(b, EquivocationMsg(Accuse(id, b.leader, b.view), x.p, y.p))
  {}

  lemma ForwardFlagged(c: Scene, began: bool, id: nat, r: Replica, h: Heard, m: Msg)
    requires Handles(c, began, id, r, h) && m in c.round.forwards && m.PropMsg?
    requires !r.equivocating && !ForwardsComplete(r)
    requires HashOf(OrElse(Lookup(r.proposalByView, r.view), m.p)) != HashOf(m.p)
    ensures Lookup(r.proposalByView, r.view).Some? && PropMsg(Lookup(r.proposalByView, r.view).value) in h.forwards
    ensures Mid(c, began, id, r.(equivocating := true), h.(forwards := h.forwards + {m}))
    ensures Conflict(h.forwards + {m}) && id != c.base.leader
  {
    var leading, first, row := id == c.base.leader, Lookup(r.proposalByView, r.view), Row(r.forwards, r.view);
    ForwardConflict(c, leading, first, row, h.forwards, m);
    NotYetFull(c.base.n, c.own, leading, first, row, h.forwards);
    Flags(c, began, id, r, h, false, false, h.forwards + {m});
  }

  lemma CompleteReply(r: Replica, p: Proposal)
    requires !r.maliciousVote
    ensures CompleteForwards(r, p).out == {VoteMsg(CastVote(r.id, HashOf(p), r.view, p.miner))}
  {}

  /** Once the forwards are complete the node votes, and a non-leader takes over the block. */
  lemma ForwardsAllIn(c: Scene, began: bool, id: nat, r: Replica, h: Heard, p: Proposal)
    requires Ready(c.base) && WellBuilt(c.base, p) && !(began && c.withheld) && !h.equivocation
    requires Full(c.base.n, h.forwards)
    requires id != c.base.leader
             ==> MidForwards(c.own, false, Some(p), Row(r.forwards, c.base.view), r.equivocating, h.forwards)
    requires id == c.base.leader ==> Lookup(r.proposalByView, c.base.view).Some?
    ensures Midway(c, began, id, r, h, id == c.base.leader, false)
            ==> Mid(c, began, id, CompleteForwards(r, p).next, h)
  {
    if id == c.base.leader {
      Votes(c, began, id, r, h, true, HashOf(p), p.miner);
    } else {
      AcceptsBlock(c, began, id, r, h, false, p);
      Votes(c, began, id, AcceptBlock(r, p), h, true, HashOf(p), p.miner);
    }
  }

  lemma AddedWithin(fs: set<Msg>, gs: set<Msg>, m: Msg)
    requires fs <= gs && m in gs
    ensures forall x :: x in fs + {m} ==> x in gs
  {}

  lemma ForwardAdded(c: Scene, began: bool, id: nat, r: Replica, h: Heard, m: Msg)
    requires Handles(c, began, id, r, h) && m in c.round.forwards && m.PropMsg?
    requires !r.equivocating && !ForwardsComplete(r)
    requires HashOf(OrElse(Lookup(r.proposalByView, r.view), m.p)) == HashOf(m.p)
    ensures var r', h' := NoteForward(NoteFirst(r, m.p), m.p), h.(forwards := h.forwards + {m});
            if ForwardsComplete(r') then
              && Mid(c, began, id, CompleteForwards(r', m.p).next, h')
              && CompleteForwards(r', m.p).out == {VoteMsg(CastVote(id, HashOf(m.p), c.base.view, c.base.leader))}
              && Full(c.base.n, h'.forwards) && FullyForwarded(c.base, h'.forwards, HashOf(m.p))
            else Mid(c, began, id, r', h') && !Full(c.base.n, h'.forwards)
  {
    var leading, first := id == c.base.leader, Lookup(r.proposalByView, r.view);
    var r', fs := NoteForward(NoteFirst(r, m.p), m.p), h.forwards + {m};
    ForwardNoted(c, began, id, r, h, m);
    NotedFields(r, m.p);
    var row := Row(r'.forwards, r.view);
    if ForwardsComplete(r') {
      AddedWithin(h.forwards, c.round.forwards, m);
      AllForwarded(c, row, fs, m);
      ForwardsAllIn(c, began, id, r', h.(forwards := fs), m.p);
      CompleteReply(r', m.p);
    } else {
      NotYetFull(c.base.n, c.own, leading, Some(OrElse(first, m.p)), row, fs);
    }
  }

  ghost function HeardForward(b: Base, h: Heard, m: Msg): Heard {
    if IsForward(b, m) then h.(forwards := h.forwards + {m}) else h
  }

  /** Every forward leaves the node in step with what it has handled. It votes exactly when it
      holds the same block from every non-leader, and raises the alarm exactly when it has
      seen two blocks. */
  ghost predicate ForwardHandled(c: Scene, began: bool, id: nat, h: Heard, h': Heard, o: Outcome) {
    Whole(
      && Mid(c, began, id, o.next, h')
      && (forall x :: x in o.out ==> ForwardReply(c.base, id, h'.forwards, x))
      && (Full(c.base.n, h'.forwards) && !Full(c.base.n, h.forwards) ==> exists x :: x in o.out && x.VoteMsg?)
      && (Conflict(h'.forwards) && !Conflict(h.forwards) && id != c.base.leader
          ==> exists x :: x in o.out && x.EquivocationMsg?))
  }

  lemma ForwardIgnored(c: Scene, began: bool, id: nat, r: Replica, h: Heard, m: Msg)
    requires Handles(c, began, id, r, h) && m in c.round.forwards && ForwardsComplete(r)
    ensures m in h.forwards
  {
    NothingNew(c.base, c.round.forwards, h.forwards, Row(r.forwards, r.view), m);
  }

  lemma ConflictGrows(own: Option<Block>, leading: bool, first: Option<Proposal>, row: map<nat, Proposal>, fs: set<Msg>,
                      m: Msg)
    requires MidForwards(own, leading, first, row, true, fs) && m.PropMsg?
    ensures MidForwards(own, leading, first, row, true, fs + {m}) && Conflict(fs) && Conflict(fs + {m})
  {}

  lemma ConflictStays(c: Scene, began: bool, id: nat, r: Replica, h: Heard, m: Msg)
    requires Handles(c, began, id, r, h) && r.equivocating && m.PropMsg?
    ensures Mid(c, began, id, r, h.(forwards := h.forwards + {m}))
    ensures Conflict(h.forwards + {m}) && Conflict(h.forwards)
  {
    var leading, first := id == c.base.leader, Lookup(r.proposalByView, c.base.view);
    ConflictGrows(c.own, leading, first, Row(r.forwards, c.base.view), h.forwards, m);
    Flags(c, began, id, r, h, Accepted(c.base.n, leading, first, h.forwards), false, h.forwards + {m});
    assert r.(equivocating := true) == r;
  }

  lemma NothingSent(c: Scene, began: bool, id: nat, r: Replica, h: Heard, h': Heard)
    requires Mid(c, began, id, r, h')
    requires Full(c.base.n, h'.forwards) ==> Full(c.base.n, h.forwards)
    requires Conflict(h'.forwards) ==> Conflict(h.forwards)
    ensures ForwardHandled(c, began, id, h, h', Outcome(r, {}))
  {}

  lemma VoteSent(c: Scene, began: bool, id: nat, r: Replica, h: Heard, h': Heard, hash: Hash)
    requires Mid(c, began, id, r, h')
    requires Full(c.base.n, h'.forwards) && FullyForwarded(c.base, h'.forwards, hash)
    ensures ForwardHandled(c, began, id, h, h', Outcome(r, {VoteMsg(CastVote(id, hash, c.base.view, c.base.leader))}))
  {
    var x := VoteMsg(CastVote(id, hash, c.base.view, c.base.leader));
    assert x in {x} && x.VoteMsg?;
  }

  lemma AlarmSent(c: Scene, began: bool, id: nat, r: Replica, h: Heard, h': Heard, x: Msg)
    requires Mid(c, began, id, r, h')
    requires IsEquivocation(c.base, x) && Conflict(h'.forwards) && id != c.base.leader
    ensures ForwardHandled(c, began, id, h, h', Outcome(r, {x}))
  {
    assert x in {x} && x.EquivocationMsg?;
  }

  lemma AddedAgain(fs: set<Msg>, m: Msg)
    requires m in fs
    ensures fs + {m} == fs
  {}

  /** The message is a forward addressed to this view and known to the round. */
  ghost predicate ForwardArrives(c: Scene, began: bool, id: nat, r: Replica, h: Heard, m: Msg) {
    Whole(
      && Handles(c, began, id, r, h) && m.PropMsg? && m in c.round.forwards
      && IsForward(c.base, m) && ValidForward(r, m.p))
  }

  lemma StepComplete(c: Scene, began: bool, id: nat, r: Replica, h: Heard, m: Msg)
    requires ForwardArrives(c, began, id, r, h, m) && ForwardsComplete(r)
    ensures ForwardHandled(c, began, id, h, h.(forwards := h.forwards + {m}), HandleForward(r, m.p))
  {
    ForwardIgnored(c, began, id, r, h, m);
    AddedAgain(h.forwards, m);
    NothingSent(c, began, id, r, h, h.(forwards := h.forwards + {m}));
  }

  lemma StepEquivocating(c: Scene, began: bool, id: nat, r: Replica, h: Heard, m: Msg)
    requires ForwardArrives(c, began, id, r, h, m) && !ForwardsComplete(r) && r.equivocating
    ensures ForwardHandled(c, began, id, h, h.(forwards := h.forwards + {m}), HandleForward(r, m.p))
  {
    ConflictStays(c, began, id, r, h, m);
    NothingSent(c, began, id, r, h, h.(forwards := h.forwards + {m}));
  }

  lemma StepAdded(c: Scene, began: bool, id: nat, r: Replica, h: Heard, m: Msg)
    requires ForwardArrives(c, began, id, r, h, m) && !ForwardsComplete(r) && !r.equivocating
    requires HashOf(OrElse(Lookup(r.proposalByView, r.view), m.p)) == HashOf(m.p)
    ensures ForwardHandled(c, began, id, h, h.(forwards := h.forwards + {m}), HandleForward(r, m.p))
  {
    var h', o := h.(forwards := h.forwards + {m}), HandleForward(r, m.p);
    ForwardAdded(c, began, id, r, h, m);
    if ForwardsComplete(NoteForward(NoteFirst(r, m.p), m.p)) {
      VoteSent(c, began, id, o.next, h, h', HashOf(m.p));
    } else {
      ForwardNoted(c, began, id, r, h, m);
      NothingSent(c, began, id, o.next, h, h');
    }
  }

  lemma StepFlagged(c: Scene, began: bool, id: nat, r: Replica, h: Heard, m: Msg)
    requires ForwardArrives(c, began, id, r, h, m) && !ForwardsComplete(r) && !r.equivocating
    requires HashOf(OrElse(Lookup(r.proposalByView, r.view), m.p)) != HashOf(m.p)
    ensures ForwardHandled(c, began, id, h, h.(forwards := h.forwards + {m}), HandleForward(r, m.p))
  {
    var h', o := h.(forwards := h.forwards + {m}), HandleForward(r, m.p);
    ForwardFlagged(c, began, id, r, h, m);
    var first := r.proposalByView[r.view];
    ConflictProven(c.base, id, PropMsg(first), m);
    AlarmSent(c, began, id, o.next, h, h', EquivocationMsg(Accuse(id, r.leader, r.view), first, m.p));
  }

  lemma ForwardStep(c: Scene, began: bool, id: nat, r: Replica, h: Heard, m: Msg)
    requires Handles(c, began, id, r, h) && m.PropMsg? && m.p.forwardSender != c.base.leader
    requires IsForward(c.base, m) ==> m in c.round.forwards
    requires ValidForward(r, m.p) <==> IsForward(c.base, m)
    ensures ForwardHandled(c, began, id, h, HeardForward(c.base, h, m), HandleForward(r, m.p))
  {
    if !IsForward(c.base, m) {
      NothingSent(c, began, id, r, h, h);
    } else if ForwardsComplete(r) {
      StepComplete(c, began, id, r, h, m);
    } else if r.equivocating {
      StepEquivocating(c, began, id, r, h, m);
    } else if HashOf(OrElse(Lookup(r.proposalByView, r.view), m.p)) == HashOf(m.p) {
      StepAdded(c, began, id, r, h, m);
    } else {
      StepFlagged(c, began, id, r, h, m);
    }
  }

  // Handling a vote

  lemma VotersAdd(vs: set<Msg>, m: Msg)
    requires m.VoteMsg?
    ensures Voters(vs + {m}) == Voters(vs) + {m.v.voter}
  {}

  lemma StillOutweighs(w: Table, s: set<nat>, j: nat)
    requires NonNegative(w) && Outweighs(w, s)
    ensures Outweighs(w, s + {j})
  {
    SumMonotone(w, s, s + {j});
  }

  lemma LoggedVote(b: Base, withheld: bool, accepted: bool, voters: set<nat>, only: set<nat>, log: Transcript, h: Heard,
                   j: nat, vs: set<Msg>)
    requires Ready(b) && MidLog(b, withheld, accepted, voters + only, log, h)
    ensures MidLog(b, withheld, accepted, (voters + {j}) + only, log.(votes := Mark(log.votes, b.view, j)),
                   h.(votes := vs))
  {
    MarkRow(b.log.votes, b.view, voters + only, j);
    assert (voters + {j}) + only == (voters + only) + {j};
  }

  /** A vote from a voter that is already in. */
  lemma BallotRepeated(b: Base, poll: map<nat, Vote>, certified: bool, vs: set<Msg>, m: Msg)
    requires MidBallots(b, poll, certified, vs) && m.VoteMsg? && m.v.voter in Voters(vs)
    ensures MidBallots(b, poll, certified, vs + {m}) && Voters(vs + {m}) == Voters(vs)
  {
    VotersAdd(vs, m);
    assert Voters(vs) + {m.v.voter} == Voters(vs);
  }

  lemma BallotLate(b: Base, poll: map<nat, Vote>, vs: set<Msg>, m: Msg)
    requires Ready(b) && MidBallots(b, poll, true, vs) && m.VoteMsg?
    ensures MidBallots(b, poll, true, vs + {m})
  {
    VotersAdd(vs, m);
    StillOutweighs(TableAt(b.reputation, b.view), Voters(vs), m.v.voter);
  }

  lemma BallotCounted(b: Base, poll: map<nat, Vote>, vs: set<Msg>, m: Msg)
    requires MidBallots(b, poll, false, vs) && m.VoteMsg?
    ensures var poll' := poll[m.v.voter := m.v];
            MidBallots(b, poll', Outweighs(TableAt(b.reputation, b.view), poll'.Keys), vs + {m})
    ensures poll[m.v.voter := m.v].Keys == Voters(vs + {m})
  {
    VotersAdd(vs, m);
    assert poll[m.v.voter := m.v].Keys == poll.Keys + {m.v.voter};
  }

  lemma {:induction false} SignatureAt(ids: seq<nat>, sigs: seq<Signature>, k: nat)
    requires |ids| <= |sigs| && Distinct(ids) && k < |ids|
    ensures SignatureOf(ids, sigs, ids[k]) == sigs[k]
  {
    if k < |ids| - 1 {
      SignatureAt(ids[..|ids| - 1], sigs, k);
    }
  }

  /** A certificate built from accepted votes has usable signatures and the votes' weight. */
  lemma {:induction false} CertFromVotes(w: Table, votes: map<nat, Vote>, hash: Hash, view: nat, ids: seq<nat>)
    requires IsOrdering(ids, votes.Keys) && Outweighs(w, votes.Keys)
    requires forall j :: j in votes ==> votes[j].sig.Signed?
    ensures var c := NewCert(votes, hash, view, ids);
            UsableSignatures(c) && SeqSum(w, c.ids) > Half(w)
  {
    var c := NewCert(votes, hash, view, ids);
    forall k | 0 <= k < |ids|
      ensures SignatureOf(ids, c.sigs, ids[k]).Signed?
    {
      SignatureAt(ids, c.sigs, k);
      assert ids[k] in Elements(ids);
    }
    SeqSumDistinct(w, ids);
  }

  lemma Opens(c: Scene, began: bool, id: nat, r: Replica, h: Heard, accepted: bool, voted: bool)
    ensures Midway(c, began, id, r, h, accepted, voted) ==> Midway(c, began, id, OpenPoll(r), h, accepted, voted)
  {
    OpenedPoll(r);
  }

  lemma OpenedPoll(r: Replica)
    ensures var r' := OpenPoll(r);
            && r.view in r'.ballots && Row(r'.ballots, r.view) == Row(r.ballots, r.view)
            && (r.certified.Keys == r.ballots.Keys ==> IsCertified(r') == IsCertified(r))
            && (r.certified.Keys == r.ballots.Keys ==> r'.certified.Keys == r'.ballots.Keys)
  {
    if r.view !in r.ballots {
      var r' := OpenPoll(r);
      assert r'.ballots.Keys == r.ballots.Keys + {r.view};
      assert r'.certified.Keys == r.certified.Keys + {r.view};
    }
  }

  lemma Repeats(c: Scene, began: bool, id: nat, r: Replica, h: Heard, accepted: bool, voted: bool, m: Msg)
    requires m.VoteMsg? && m.v.voter in Voters(h.votes)
    ensures Midway(c, began, id, r, h, accepted, voted)
        ==> Midway(c, began, id, r, h.(votes := h.votes + {m}), accepted, voted)
  {
    if Midway(c, began, id, r, h, accepted, voted) {
      BallotRepeated(c.base, Row(r.ballots, c.base.view), IsCertified(r), h.votes, m);
    }
  }

  function Logging(r: Replica, j: nat): Replica {
    r.(log := r.log.(votes := Mark(r.log.votes, r.view, j)))
  }

  lemma CertStands(b: Base, round: Heard, empty: bool, cert: Option<Certificate>, vs: set<Msg>, m: Msg)
    requires Ready(b) && MidCert(b, round, empty, cert, Voters(vs)) && m.VoteMsg?
    requires Outweighs(TableAt(b.reputation, b.view), Voters(vs))
    ensures MidCert(b, round, empty, cert, Voters(vs + {m}))
  {
    VotersAdd(vs, m);
    StillOutweighs(TableAt(b.reputation, b.view), Voters(vs), m.v.voter);
  }

  lemma ComesLate(c: Scene, began: bool, id: nat, r: Replica, h: Heard, accepted: bool, voted: bool, m: Msg)
    requires Ready(c.base) && m.VoteMsg? && IsCertified(r)
    ensures Midway(c, began, id, r, h, accepted, voted)
        ==> Midway(c, began, id, Logging(r, m.v.voter), h.(votes := h.votes + {m}), accepted, voted)
  {
    if Midway(c, began, id, r, h, accepted, voted) {
      var b, empty := c.base, (began && c.withheld) || h.equivocation;
      BallotLate(b, Row(r.ballots, b.view), h.votes, m);
      CertStands(b, c.round, empty, Lookup(r.ledger.certs, b.view), h.votes, m);
      VotersAdd(h.votes, m);
      LoggedVote(b, began && c.withheld, accepted, Voters(h.votes), Only(voted, id), r.log, h, m.v.voter,
                 h.votes + {m});
    }
  }

  function Polling(r: Replica, poll: map<nat, Vote>): Replica {
    r.(ballots := r.ballots[r.view := poll])
  }

  lemma PolledFields(r: Replica, poll: map<nat, Vote>)
    requires r.view in r.ballots
    ensures Row(Polling(r, poll).ballots, r.view) == poll && Polling(r, poll).ballots.Keys == r.ballots.Keys
  {}

  lemma Counts(c: Scene, began: bool, id: nat, r: Replica, h: Heard, accepted: bool, voted: bool, m: Msg)
    requires Ready(c.base) && m.VoteMsg? && !IsCertified(r) && r.view in r.ballots
    requires !Outweighs(TableAt(c.base.reputation, c.base.view), r.ballots[r.view][m.v.voter := m.v].Keys)
    ensures Midway(c, began, id, r, h, accepted, voted)
        ==> Midway(c, began, id, Polling(Logging(r, m.v.voter), r.ballots[r.view][m.v.voter := m.v]),
                   h.(votes := h.votes + {m}), accepted, voted)
  {
    if Midway(c, began, id, r, h, accepted, voted) {
      var b, poll := c.base, r.ballots[r.view];
      BallotCounted(b, poll, h.votes, m);
      PolledFields(r, poll[m.v.voter := m.v]);
      PolledMeta(b, id, r, Polling(Logging(r, m.v.voter), poll[m.v.voter := m.v]));
      VotersAdd(h.votes, m);
      LoggedVote(b, began && c.withheld, accepted, Voters(h.votes), Only(voted, id), r.log, h, m.v.voter,
                 h.votes + {m});
    }
  }

  function Certifying(r: Replica, cert: Certificate): Replica {
    r.(certified := r.certified[r.view := true], ledger := r.ledger.(certs := r.ledger.certs[r.view := cert]))
  }

  lemma CertifiedFields(r: Replica, cert: Certificate)
    requires r.view in r.certified
    ensures var r' := Certifying(r, cert);
            && IsCertified(r') && r'.certified.Keys == r.certified.Keys
            && Lookup(r'.ledger.certs, r.view) == Some(cert)
  {}

  lemma OldCertsStay(b: Base, certs: map<nat, Certificate>, cert: Certificate)
    requires OldCerts(b, certs)
    ensures OldCerts(b, certs[b.view := cert])
  {}

  lemma BlocksIgnoreCerts(b: Base, empty: bool, accepted: bool, first: Option<Proposal>, l: Ledger, certs: map<nat,
                          Certificate>)
    requires MidBlocks(b, empty, accepted, first, l)
    ensures MidBlocks(b, empty, accepted, first, l.(certs := certs))
  {}

  lemma CertMade(b: Base, round: Heard, cert: Certificate, voters: set<nat>)
    requires VotedCert(b, round, cert) && Outweighs(TableAt(b.reputation, b.view), voters)
    ensures MidCert(b, round, false, Some(cert), voters)
  {}

  lemma Certifies(c: Scene, began: bool, id: nat, r: Replica, h: Heard, accepted: bool, voted: bool, m: Msg,
                  cert: Certificate)
    requires Ready(c.base) && m.VoteMsg? && !IsCertified(r) && r.view in r.ballots
    requires !(began && c.withheld) && !h.equivocation && VotedCert(c.base, c.round, cert)
    requires Outweighs(TableAt(c.base.reputation, c.base.view), r.ballots[r.view][m.v.voter := m.v].Keys)
    ensures Midway(c, began, id, r, h, accepted, voted)
        ==> Midway(c, began, id,
                   Certifying(Polling(Logging(r, m.v.voter), r.ballots[r.view][m.v.voter := m.v]), cert),
                   h.(votes := h.votes + {m}), accepted, voted)
  {
    hide MidForwards;
    hide OldCerts;
    hide MidLog;
    if Midway(c, began, id, r, h, accepted, voted) {
      var b, poll := c.base, r.ballots[r.view];
      BallotCounted(b, poll, h.votes, m);
      PolledFields(r, poll[m.v.voter := m.v]);
      CertifiedFields(r, cert);
      PolledMeta(b, id, r, Certifying(Polling(Logging(r, m.v.voter), poll[m.v.voter := m.v]), cert));
      OldCertsStay(b, r.ledger.certs, cert);
      CertMade(b, c.round, cert, Voters(h.votes + {m}));
      BlocksIgnoreCerts(b, false, accepted, Lookup(r.proposalByView, b.view), r.ledger, r.ledger.certs[r.view := cert]);
      VotersAdd(h.votes, m);
      LoggedVote(b, began && c.withheld, accepted, Voters(h.votes), Only(voted, id), r.log, h, m.v.voter,
                 h.votes + {m});
    }
  }

  ghost function HeardVote(b: Base, h: Heard, m: Msg): Heard {
    if IsBallot(b, m) then h.(votes := h.votes + {m}) else h
  }

  /** A vote for the leader's block arrives at a node whose poll is open; `poll` is the poll
      with the vote, `ids` the order in which it is walked. */
  ghost predicate VoteArrives(c: Scene, began: bool, id: nat, r: Replica, h: Heard, m: Msg, poll: map<nat, Vote>,
                              ids: seq<nat>)
  {
    Whole(
      && Handles(c, began, id, r, h) && m.VoteMsg? && m in c.round.votes && IsBallot(c.base, m)
      && r.view in r.ballots && poll == r.ballots[r.view][m.v.voter := m.v] && IsOrdering(ids, poll.Keys))
  }

  lemma SameTable(b: Base, id: nat, r: Replica)
    requires Ready(b) && MidMeta(b, id, r)
    ensures TableAt(r.reputation, r.view) == TableAt(b.reputation, b.view)
  {}

  lemma NoVoteInEmptyRound(c: Scene, m: Msg)
    requires c.base.leader < c.base.n && RoundOk(c) && m in c.round.votes
    ensures !c.withheld && !c.round.equivocation && m.VoteMsg? && FullyForwarded(c.base, c.round.forwards, m.v.hash)
  {
    FullyForwardedIsFull(c.base, c.round.forwards, m.v.hash);
  }

  lemma VoteRepeated(c: Scene, began: bool, id: nat, r: Replica, h: Heard, m: Msg, poll: map<nat, Vote>, ids: seq<nat>)
    requires VoteArrives(c, began, id, r, h, m, poll, ids) && m.v.voter in r.ballots[r.view]
    ensures Mid(c, began, id, r, h.(votes := h.votes + {m}))
  {
    var accepted := Accepted(c.base.n, id == c.base.leader, Lookup(r.proposalByView, c.base.view), h.forwards);
    Repeats(c, began, id, r, h, accepted, Full(c.base.n, h.forwards), m);
  }

  lemma VoteLate(c: Scene, began: bool, id: nat, r: Replica, h: Heard, m: Msg, poll: map<nat, Vote>, ids: seq<nat>)
    requires VoteArrives(c, began, id, r, h, m, poll, ids) && IsCertified(r)
    ensures Mid(c, began, id, Logging(r, m.v.voter), h.(votes := h.votes + {m}))
  {
    var accepted := Accepted(c.base.n, id == c.base.leader, Lookup(r.proposalByView, c.base.view), h.forwards);
    ComesLate(c, began, id, r, h, accepted, Full(c.base.n, h.forwards), m);
  }

  lemma VoteAdded(c: Scene, began: bool, id: nat, r: Replica, h: Heard, m: Msg, poll: map<nat, Vote>, ids: seq<nat>)
    requires VoteArrives(c, began, id, r, h, m, poll, ids) && !IsCertified(r)
    requires !Outweighs(TableAt(r.reputation, r.view), poll.Keys)
    ensures Mid(c, began, id, Polling(Logging(r, m.v.voter), poll), h.(votes := h.votes + {m}))
  {
    var accepted := Accepted(c.base.n, id == c.base.leader, Lookup(r.proposalByView, c.base.view), h.forwards);
    SameTable(c.base, id, r);
    Counts(c, began, id, r, h, accepted, Full(c.base.n, h.forwards), m);
  }

  lemma PollSigned(c: Scene, before: map<nat, Vote>, certified: bool, vs: set<Msg>, m: Msg, poll: map<nat, Vote>)
    requires RoundOk(c) && MidBallots(c.base, before, certified, vs) && vs <= c.round.votes && IsBallot(c.base, m)
    requires poll == before[m.v.voter := m.v]
    ensures poll.Keys <= Nodes(c.base.n) && forall j :: j in poll ==> poll[j].sig.Signed?
  {}

  lemma VotedCertMade(c: Scene, before: map<nat, Vote>, vs: set<Msg>, m: Msg, poll: map<nat, Vote>, ids: seq<nat>)
    requires c.base.leader < c.base.n && RoundOk(c) && MidBallots(c.base, before, false, vs) && vs <= c.round.votes
    requires m in c.round.votes && IsBallot(c.base, m) && poll == before[m.v.voter := m.v] && IsOrdering(ids, poll.Keys)
    requires Outweighs(TableAt(c.base.reputation, c.base.view), poll.Keys)
    ensures VotedCert(c.base, c.round, NewCert(poll, m.v.hash, m.v.view, ids))
    ensures !c.withheld && !c.round.equivocation
  {
    NoVoteInEmptyRound(c, m);
    PollSigned(c, before, false, vs, m, poll);
    CertFromVotes(TableAt(c.base.reputation, c.base.view), poll, m.v.hash, m.v.view, ids);
  }

  lemma VoteCertifies(c: Scene, began: bool, id: nat, r: Replica, h: Heard, m: Msg, poll: map<nat, Vote>, ids: seq<nat>)
    requires VoteArrives(c, began, id, r, h, m, poll, ids) && !IsCertified(r)
    requires Outweighs(TableAt(r.reputation, r.view), poll.Keys)
    ensures Mid(c, began, id, Certifying(Polling(Logging(r, m.v.voter), poll), NewCert(poll, m.v.hash, m.v.view, ids)),
                h.(votes := h.votes + {m}))
  {
    var accepted := Accepted(c.base.n, id == c.base.leader, Lookup(r.proposalByView, c.base.view), h.forwards);
    SameTable(c.base, id, r);
    VotedCertMade(c, r.ballots[r.view], h.votes, m, poll, ids);
    Certifies(c, began, id, r, h, accepted, Full(c.base.n, h.forwards), m, NewCert(poll, m.v.hash, m.v.view, ids));
  }

  lemma OpenVoteStep(c: Scene, began: bool, id: nat, r: Replica, h: Heard, m: Msg, poll: map<nat, Vote>, ids: seq<nat>)
    requires VoteArrives(c, began, id, r, h, m, poll, ids)
    ensures Mid(c, began, id, HandleVote(r, m.v, ids).next, h.(votes := h.votes + {m}))
  {
    if m.v.voter in r.ballots[r.view] {
      VoteRepeated(c, began, id, r, h, m, poll, ids);
    } else if IsCertified(r) {
      VoteLate(c, began, id, r, h, m, poll, ids);
    } else if !Outweighs(TableAt(r.reputation, r.view), poll.Keys) {
      VoteAdded(c, began, id, r, h, m, poll, ids);
    } else {
      VoteCertifies(c, began, id, r, h, m, poll, ids);
    }
  }

  lemma OpenTwice(r: Replica, v: Vote, ids: seq<nat>)
    requires v.owner == r.leader
    ensures HandleVote(r, v, ids) == HandleVote(OpenPoll(r), v, ids)
    ensures v.voter !in Row(r.ballots, r.view) && v.voter != r.id && !SignedVote(r.n, v) ==>
              HandleVote(r, v, ids) == Outcome(OpenPoll(r), {})
    ensures v.voter in Row(r.ballots, r.view) ==> HandleVote(r, v, ids) == Outcome(OpenPoll(r), {})
    ensures HandleVote(r, v, ids).out == {}
  {}

  lemma OpensMid(c: Scene, began: bool, id: nat, r: Replica, h: Heard)
    ensures Mid(c, began, id, r, h) ==> Mid(c, began, id, OpenPoll(r), h)
  {
    Opens(c, began, id, r, h, Accepted(c.base.n, id == c.base.leader, Lookup(r.proposalByView, c.base.view),
                                       h.forwards),
          Full(c.base.n, h.forwards));
  }

  lemma OpensHandles(c: Scene, began: bool, id: nat, r: Replica, h: Heard)
    ensures Handles(c, began, id, r, h) ==> Handles(c, began, id, OpenPoll(r), h)
  {
    OpensMid(c, began, id, r, h);
  }

  /** Votes leave the node in step with the set of voters it has accepted, in every order. */
  lemma VoteStep(c: Scene, began: bool, id: nat, r: Replica, h: Heard, m: Msg, ids: seq<nat>)
    requires Handles(c, began, id, r, h) && m.VoteMsg? && m.v.owner == c.base.leader
    requires m.v.voter == id ==> SignedVote(c.base.n, m.v)
    requires IsBallot(c.base, m) ==> m in c.round.votes
    requires IsOrdering(ids, Row(r.ballots, r.view)[m.v.voter := m.v].Keys)
    ensures Mid(c, began, id, HandleVote(r, m.v, ids).next, HeardVote(c.base, h, m))
            && HandleVote(r, m.v, ids).out == {}
  {
    OpenTwice(r, m.v, ids);
    OpensHandles(c, began, id, r, h);
    OpenedPoll(r);
    if IsBallot(c.base, m) {
      OpenVoteStep(c, began, id, OpenPoll(r), h, m, OpenPoll(r).ballots[r.view][m.v.voter := m.v], ids);
    }
  }

  // Handling evidence

  lemma NotFullUnderConflict(c: Scene, fs: set<Msg>)
    requires c.base.leader < c.base.n && RoundOk(c) && Conflict(c.round.forwards) && fs <= c.round.forwards
    ensures !Full(c.base.n, fs) && !c.withheld && !c.correctLeader
  {
    if Full(c.base.n, fs) {
      var m :| m in fs;
      assert m in c.round.forwards;
      forall x | x in fs
        ensures IsForward(c.base, x)
      {
        assert x in c.round.forwards;
      }
      FullIsFullyForwarded(c.base, fs, m);
      FullyForwardedGrows(c.base, fs, c.round.forwards, HashOf(m.p));
      FullyForwardedNoConflict(c.base, c.round.forwards, HashOf(m.p));
    }
    var x, y :| x in c.round.forwards && y in c.round.forwards && x.PropMsg? && y.PropMsg?
                && HashOf(x.p) != HashOf(y.p);
  }

  lemma EmptyAdded(b: Base, first: Option<Proposal>, l: Ledger)
    requires Ready(b) && MidBlocks(b, false, false, first, l) && OldCerts(b, l.certs)
    ensures l.head in l.certs
    ensures var l' := AddEmptyBlock(l, b.view);
            && MidBlocks(b, true, false, first, l') && OldCerts(b, l'.certs)
            && Lookup(l'.certs, b.view).Some? && Lookup(l'.certs, b.view).value.hash == BlockHash(RoundEmptyBlock(b))
  {
    assert b.view - 1 in l.certs;
    assert l.certs[b.view - 1].hash == Parent(b);
    OldCertsStay(b, l.certs, Certificate(BlockHash(RoundEmptyBlock(b)), b.view, [], []));
  }

  lemma EquivocationLogged(b: Base, voted: set<nat>, log: Transcript, h: Heard)
    requires Ready(b) && MidLog(b, false, false, voted, log, h) && !h.equivocation
    ensures MidLog(b, false, false, voted, log.(equivocations := MarkSole(log.equivocations, b.view, b.leader)),
                   h.(equivocation := true))
  {}

  lemma AlreadyLogged(b: Base, withheld: bool, accepted: bool, voted: set<nat>, log: Transcript, h: Heard)
    requires Ready(b) && MidLog(b, withheld, accepted, voted, log, h)
    ensures Marked(log.equivocations, b.view, b.leader) <==> h.equivocation
  {}

  lemma Empties(c: Scene, began: bool, id: nat, r: Replica, h: Heard)
    requires Ready(c.base) && !(began && c.withheld) && !h.equivocation && r.ledger.head in r.ledger.certs
    ensures Midway(c, began, id, r, h, false, false)
        ==> Midway(c, began, id,
                   r.(ledger := AddEmptyBlock(r.ledger, r.view),
                      log := r.log.(equivocations := MarkSole(r.log.equivocations, r.view, r.leader))),
                   h.(equivocation := true), false, false)
  {
    if Midway(c, began, id, r, h, false, false) {
      EmptyAdded(c.base, Lookup(r.proposalByView, c.base.view), r.ledger);
      EquivocationLogged(c.base, Voters(h.votes) + Only(false, id), r.log, h);
    }
  }

  lemma HeadCertified(c: Scene, began: bool, id: nat, r: Replica, h: Heard, voted: bool)
    requires Ready(c.base) && !(began && c.withheld) && !h.equivocation
    ensures Midway(c, began, id, r, h, false, voted) ==> r.ledger.head in r.ledger.certs
  {}

  lemma FirstEquivocation(c: Scene, began: bool, id: nat, r: Replica, h: Heard)
    requires Handles(c, began, id, r, h) && c.round.equivocation && !h.equivocation
    ensures r.ledger.head in r.ledger.certs
    ensures Mid(c, began, id,
                r.(ledger := AddEmptyBlock(r.ledger, r.view),
                   log := r.log.(equivocations := MarkSole(r.log.equivocations, r.view, r.leader))),
                h.(equivocation := true))
  {
    NotFullUnderConflict(c, h.forwards);
    HeadCertified(c, began, id, r, h, false);
    Empties(c, began, id, r, h);
  }

  ghost function HeardEquivocation(b: Base, h: Heard, m: Msg): Heard {
    if IsEquivocation(b, m) then h.(equivocation := true) else h
  }

  lemma LoggedOnce(c: Scene, began: bool, id: nat, r: Replica, h: Heard)
    requires Handles(c, began, id, r, h)
    ensures Marked(r.log.equivocations, r.view, r.leader) <==> h.equivocation
  {
    var accepted := Accepted(c.base.n, id == c.base.leader, Lookup(r.proposalByView, c.base.view), h.forwards);
    AlreadyLogged(c.base, began && c.withheld, accepted, Voters(h.votes) + Only(Full(c.base.n, h.forwards), id),
                  r.log, h);
  }

  /** However many pieces of equivocation evidence arrive, the head moves once and one empty
      block is added. */
  lemma EquivocationStep(c: Scene, began: bool, id: nat, r: Replica, h: Heard, m: Msg)
    requires Handles(c, began, id, r, h) && m.EquivocationMsg?
    requires IsEquivocation(c.base, m) ==> c.round.equivocation
    ensures Mid(c, began, id, HandleEquivocation(r, m.accusation, m.e1, m.e2), HeardEquivocation(c.base, h, m))
  {
    LoggedOnce(c, began, id, r, h);
    if IsEquivocation(c.base, m) && !h.equivocation {
      FirstEquivocation(c, began, id, r, h);
    } else {
      assert HeardEquivocation(c.base, h, m) == h;
    }
  }

  lemma ProposerRow(b: Base, withheld: bool, accepted: bool, voted: set<nat>, log: Transcript, h: Heard, j: nat)
    requires Ready(b) && MidLog(b, withheld, accepted, voted, log, h)
    ensures Row(log.maliciousProposals, b.view).Keys == h.maliciousProposers
    ensures MidLog(b, withheld, accepted, voted, log.(maliciousProposals := Mark(log.maliciousProposals, b.view, j)),
                   h.(maliciousProposers := h.maliciousProposers + {j}))
  {
    MarkRow(b.log.maliciousProposals, b.view, h.maliciousProposers, j);
  }

  lemma VoterRow(b: Base, withheld: bool, accepted: bool, voted: set<nat>, log: Transcript, h: Heard, j: nat)
    requires Ready(b) && MidLog(b, withheld, accepted, voted, log, h)
    ensures Row(log.maliciousVotes, b.view).Keys == h.maliciousVoters
    ensures MidLog(b, withheld, accepted, voted, log.(maliciousVotes := Mark(log.maliciousVotes, b.view, j)),
                   h.(maliciousVoters := h.maliciousVoters + {j}))
  {
    MarkRow(b.log.maliciousVotes, b.view, h.maliciousVoters, j);
  }

  ghost function HeardProposer(b: Base, h: Heard, m: Msg): Heard {
    if IsProposalEvidence(b, m) then h.(maliciousProposers := h.maliciousProposers + {m.e.miner}) else h
  }

  ghost function HeardVoter(b: Base, h: Heard, m: Msg): Heard {
    if IsVoteEvidence(b, m) then h.(maliciousVoters := h.maliciousVoters + {m.ev.voter}) else h
  }

  lemma InsertAgain(s: set<nat>, j: nat)
    requires j in s
    ensures s + {j} == s
  {}

  /** One more record in the log keeps the rest of the state. */
  lemma Records(c: Scene, began: bool, id: nat, r: Replica, h: Heard, accepted: bool, voted: bool, log: Transcript,
                h': Heard)
    requires h' == h.(maliciousProposers := h'.maliciousProposers, maliciousVoters := h'.maliciousVoters)
    requires MidLog(c.base, began && c.withheld, accepted, Voters(h.votes) + Only(voted, id), log, h')
    ensures Midway(c, began, id, r, h, accepted, voted) ==> Midway(c, began, id, r.(log := log), h', accepted, voted)
  {}

  /** The scan over the offenders followed by an insertion is a plain set insertion. */
  lemma ProposalEvidenceStep(c: Scene, began: bool, id: nat, r: Replica, h: Heard, m: Msg)
    requires Handles(c, began, id, r, h) && m.MaliciousProposalMsg?
    requires IsProposalEvidence(c.base, m) ==> m.accusation.target == m.e.miner
    ensures Mid(c, began, id, HandleProposalEvidence(r, m.accusation, m.e), HeardProposer(c.base, h, m))
  {
    if IsProposalEvidence(c.base, m) {
      var b, accepted := c.base, Accepted(c.base.n, id == c.base.leader, Lookup(r.proposalByView, c.base.view),
                                          h.forwards);
      var log, h' := r.log.(maliciousProposals := Mark(r.log.maliciousProposals, b.view, m.e.miner)),
                     h.(maliciousProposers := h.maliciousProposers + {m.e.miner});
      ProposerRow(b, began && c.withheld, accepted, Voters(h.votes) + Only(Full(b.n, h.forwards), id), r.log, h,
                  m.e.miner);
      Records(c, began, id, r, h, accepted, Full(b.n, h.forwards), log, h');
      if m.e.miner in h.maliciousProposers {
        InsertAgain(h.maliciousProposers, m.e.miner);
      }
    }
  }

  lemma VoteEvidenceStep(c: Scene, began: bool, id: nat, r: Replica, h: Heard, m: Msg)
    requires Handles(c, began, id, r, h) && m.MaliciousVoteMsg?
    requires IsVoteEvidence(c.base, m) ==> m.accusation.target == m.ev.voter
    ensures Mid(c, began, id, HandleVoteEvidence(r, m.accusation, m.ev), HeardVoter(c.base, h, m))
  {
    if IsVoteEvidence(c.base, m) {
      var b, accepted := c.base, Accepted(c.base.n, id == c.base.leader, Lookup(r.proposalByView, c.base.view),
                                          h.forwards);
      var log, h' := r.log.(maliciousVotes := Mark(r.log.maliciousVotes, b.view, m.ev.voter)),
                     h.(maliciousVoters := h.maliciousVoters + {m.ev.voter});
      VoterRow(b, began && c.withheld, accepted, Voters(h.votes) + Only(Full(b.n, h.forwards), id), r.log, h,
               m.ev.voter);
      Records(c, began, id, r, h, accepted, Full(b.n, h.forwards), log, h');
      if m.ev.voter in h.maliciousVoters {
        InsertAgain(h.maliciousVoters, m.ev.voter);
      }
    }
  }

  // Starting a round

  lemma WithheldLogged(b: Base, voted: set<nat>, log: Transcript, h: Heard)
    requires Ready(b) && MidLog(b, false, false, voted, log, h)
    ensures MidLog(b, true, false, voted, log.(withheld := MarkSole(log.withheld, b.view, b.leader)), h)
  {}

  lemma StartsWithheld(c: Scene, id: nat, r: Replica, h: Heard, cmds: Option<seq<Command>>)
    requires Handles(c, false, id, r, h) && c.withheld
    ensures Mid(c, true, id, Start(r, true, cmds).next, h) && Start(r, true, cmds).out == {}
  {
    hide MidForwards;
    hide MidBallots;
    hide MidLog;
    assert !Conflict(c.round.forwards);
    HeadCertified(c, false, id, r, h, false);
    EmptyAdded(c.base, Lookup(r.proposalByView, c.base.view), r.ledger);
    WithheldLogged(c.base, Voters(h.votes) + Only(false, id), r.log, h);
  }

  lemma StartsFollowing(c: Scene, id: nat, r: Replica, h: Heard, cmds: Option<seq<Command>>)
    requires Handles(c, false, id, r, h) && !c.withheld && id != c.base.leader
    ensures Mid(c, true, id, Start(r, false, cmds).next, h) && Start(r, false, cmds).out == {}
  {}

  lemma LeaderRests(c: Scene, id: nat, r: Replica, h: Heard, cmds: Option<seq<Command>>)
    requires Handles(c, false, id, r, h) && !c.withheld && id == c.base.leader
    requires r.ledger.head !in r.ledger.certs || cmds.None?
    ensures Mid(c, true, id, Start(r, false, cmds).next, h) && Start(r, false, cmds).out == {}
  {}

  lemma NoForwardsYet(c: Scene, id: nat, r: Replica, h: Heard)
    requires Handles(c, false, id, r, h) && id == c.base.leader
    requires r.ledger.head in r.ledger.certs && c.base.view !in r.ledger.certs
    ensures Lookup(r.proposalByView, c.base.view) == None && c.own == None
    ensures c.round.forwards == {} && !h.equivocation && h.forwards == {}
    ensures r.ledger.head == c.base.view - 1
    ensures MidBlocks(c.base, false, false, None, r.ledger)
  {
    if c.round.equivocation {
      NotFullUnderConflict(c, h.forwards);
    }
    if m :| m in c.round.forwards {
      assert false;
    }
  }

  /** What the leader proposes is built on the previous view's certificate, and every correct
      node accepts that certificate. */
  lemma CandidateAcceptable(b: Base, l: Ledger, cmds: seq<Command>)
    requires Ready(b) && OldCerts(b, l.certs) && l.head == b.view - 1
    ensures l.head in l.certs
    ensures var p := CandidateProposal(b.leader, b.leader, cmds, l.certs[l.head], l.head + 1, "");
            WellBuilt(b, p) && AcceptableAt(b, p) && p.forwardSender == b.leader
  {}

  lemma OwnBlock(c: Scene, own: Option<Block>)
    requires RoundOk(c) && c.round.forwards == {}
    ensures RoundOk(c.(own := own))
  {}

  lemma NoForwards(own: Option<Block>, leading: bool, row: map<nat, Proposal>, equivocating: bool)
    requires MidForwards(own, leading, None, row, equivocating, {})
    ensures row == map[] && !equivocating
  {}

  lemma FirstProposal(p: Proposal)
    ensures MidForwards(Some(p.block), true, Some(p), map[], false, {})
  {}

  function Proposing(r: Replica, p: Proposal): Replica {
    r.(withholding := false, ledger := AddBlock(r.ledger, p.block),
       proposalByView := r.proposalByView[r.view := p],
       log := r.log.(proposals := MarkSole(r.log.proposals, r.view, r.leader)))
  }

  lemma ProposedMeta(b: Base, id: nat, r: Replica, p: Proposal)
    requires MidMeta(b, id, r)
    ensures MidMeta(b, id, Proposing(r, p)) && Lookup(Proposing(r, p).proposalByView, b.view) == Some(p)
  {
    hide SameTables;
  }

  lemma Proposes(c: Scene, id: nat, r: Replica, h: Heard, p: Proposal)
    requires Ready(c.base) && !c.withheld && !h.equivocation && h.forwards == {} && id == c.base.leader
    requires WellBuilt(c.base, p) && Lookup(r.proposalByView, c.base.view) == None
    ensures Midway(c, false, id, r, h, false, false)
        ==> Midway(c.(own := Some(p.block)), true, id, Proposing(r, p), h, true, false)
  {
    hide MidForwards;
    hide MidBlocks;
    hide OldCerts;
    hide MidCert;
    hide MidBallots;
    hide MidLog;
    hide Ready;
    if Midway(c, false, id, r, h, false, false) {
      NoForwards(c.own, true, Row(r.forwards, c.base.view), r.equivocating);
      FirstProposal(p);
      AcceptedBlocks(c.base, None, p, r.ledger);
      AcceptedLog(c.base, false, Voters(h.votes) + Only(false, id), r.log, h);
      ProposedMeta(c.base, id, r, p);
    }
  }

  lemma StartProposing(r: Replica, cmds: seq<Command>, p: Proposal)
    requires r.id == r.leader && r.ledger.head in r.ledger.certs
    requires p == CandidateProposal(r.id, r.leader, cmds, r.ledger.certs[r.ledger.head], r.ledger.head + 1, "")
    ensures Start(r, false, Some(cmds)) == Outcome(Proposing(r, p), {PropMsg(p)})
  {}

  lemma LeaderProposes(c: Scene, id: nat, r: Replica, h: Heard, cmds: seq<Command>, p: Proposal)
    requires Handles(c, false, id, r, h) && !c.withheld && id == c.base.leader
    requires r.ledger.head in r.ledger.certs && c.base.view !in r.ledger.certs
    requires p == CandidateProposal(id, c.base.leader, cmds, r.ledger.certs[r.ledger.head], r.ledger.head + 1, "")
    ensures c.round.forwards == {} && WellBuilt(c.base, p) && AcceptableAt(c.base, p)
            && p.forwardSender == c.base.leader
    ensures Start(r, false, Some(cmds)) == Outcome(Proposing(r, p), {PropMsg(p)})
    ensures RoundOk(c.(own := Some(p.block)))
    ensures Mid(c.(own := Some(p.block)), true, id, Proposing(r, p), h)
  {
    NoForwardsYet(c, id, r, h);
    CandidateAcceptable(c.base, r.ledger, cmds);
    OwnBlock(c, Some(p.block));
    Proposes(c, id, r, h, p);
    StartProposing(r, cmds, p);
    assert Lookup(Proposing(r, p).proposalByView, c.base.view) == Some(p);
  }

  // What others say or propose does not disturb a node that has not handled it yet

  lemma RoundGrows(c: Scene, round: Heard, began: bool, id: nat, r: Replica, h: Heard)
    requires c.round.forwards <= round.forwards
    ensures Mid(c, began, id, r, h) ==> Mid(c.(round := round), began, id, r, h)
  {
    if Mid(c, began, id, r, h) {
      var cert, empty := Lookup(r.ledger.certs, c.base.view), (began && c.withheld) || h.equivocation;
      if cert.Some? && !empty {
        FullyForwardedGrows(c.base, c.round.forwards, round.forwards, cert.value.hash);
      }
    }
  }

}
