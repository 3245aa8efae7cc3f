/** The end of a round: when every correct node has handled everything said in it, either all
    of them move to the next view with the same shared state, or none of them moves. */
module RoundEnds {
  import opened Messages
  import opened Weights
  import opened Tallies
  import opened Reputation
  import opened Replicas
  import opened Rounds

  function HashesOf(certs: map<nat, Certificate>): map<nat, Hash> {
    map v | v in certs :: certs[v].hash
  }

  /** The part of a node's state all correct nodes are to agree on. */
  function BaseOf(r: Replica): Base {
    Base(r.n, r.view, r.leader, r.ledger.byHeight, r.ledger.byHash,
         HashesOf(r.ledger.certs), r.log, r.reputation)
  }

  /** The round ends with a commit: an empty block after withholding or equivocation,
      otherwise the block that outweighs half of the reputation. */
  ghost predicate Commits(c: Scene) {
    c.withheld || Conflict(c.round.forwards) || Outweighs(TableAt(c.base.reputation, c.base.view),
                                                          Voters(c.round.votes))
  }

  ghost predicate EmptyRound(c: Scene) {
    c.withheld || c.round.equivocation
  }

  ghost function RoundBlock(c: Scene): Block {
    if EmptyRound(c) || c.round.forwards == {} then RoundEmptyBlock(c.base)
    else
      var m :| m in c.round.forwards;
      if m.PropMsg? then m.p.block else RoundEmptyBlock(c.base)
  }

  ghost function NextLog(c: Scene): Transcript {
    var b := c.base;
    Transcript(WithRow(b.log.proposals, b.view, Only(!EmptyRound(c), b.leader)),
               WithRow(b.log.votes, b.view, Voters(c.round.votes)),
               WithRow(b.log.withheld, b.view, Only(c.withheld, b.leader)),
               WithRow(b.log.equivocations, b.view, Only(c.round.equivocation, b.leader)),
               WithRow(b.log.maliciousProposals, b.view, c.round.maliciousProposers),
               WithRow(b.log.maliciousVotes, b.view, c.round.maliciousVoters))
  }

  ghost function NextReputation(f: real -> real, b: Base, log: Transcript): map<nat, Table> {
    b.reputation[b.view + 1 := NewTable(f, b.n, log)]
  }

  /** The shared state of the next view is a function of the old one and of what was said. */
  ghost function NextBase(f: real -> real, c: Scene): Base
    requires c.base.n > 0
  {
    var b, k := c.base, RoundBlock(c);
    Base(b.n, b.view + 1, NextLeader(b.leader, b.n), b.byHeight[b.view := k], b.byHash[BlockHash(k) := k],
         b.certHash[b.view := BlockHash(k)], NextLog(c), NextReputation(f, b, NextLog(c)))
  }

  /** Everything said has been handled, and what had to be said has been said. */
  ghost predicate Settled(c: Scene, id: nat, r: Replica) {
    Whole(
      && Handles(c, true, id, r, c.round)
      && (Conflict(c.round.forwards) ==> c.round.equivocation)
      && (Full(c.base.n, c.round.forwards) ==> id in Voters(c.round.votes)))
  }

  // The committed block

  /** A committed block with votes was forwarded by every non-leader. */
  lemma VotesMeanForwards(c: Scene)
    requires c.base.leader < c.base.n && RoundOk(c) && c.base.view in c.base.reputation
    requires NonNegative(c.base.reputation[c.base.view])
    requires Outweighs(TableAt(c.base.reputation, c.base.view), Voters(c.round.votes))
    ensures !EmptyRound(c) && Full(c.base.n, c.round.forwards)
  {
    var table := c.base.reputation[c.base.view];
    SumNonNegative(table, table.Keys);
    assert Sum(table, {}) == 0.0;
    var m :| m in c.round.votes;
    NoVoteInEmptyRound(c, m);
    FullyForwardedIsFull(c.base, c.round.forwards, m.v.hash);
  }

  lemma TheBlock(c: Scene, m: Msg)
    requires RoundOk(c) && m in c.round.forwards && m.PropMsg? && !Conflict(c.round.forwards) && !EmptyRound(c)
    ensures RoundBlock(c) == m.p.block
  {
    var x :| x in c.round.forwards && RoundBlock(c) == if x.PropMsg? then x.p.block else RoundEmptyBlock(c.base);
    assert IsForward(c.base, x);
    assert HashOf(x.p) == HashOf(m.p);
  }

  lemma CertNamesBlock(c: Scene, h: Hash)
    requires c.base.leader < c.base.n && RoundOk(c) && FullyForwarded(c.base, c.round.forwards, h) && !EmptyRound(c)
    ensures BlockHash(RoundBlock(c)) == h
  {
    FullyForwardedIsFull(c.base, c.round.forwards, h);
    var m :| m in c.round.forwards;
    assert IsForward(c.base, m);
    FullyForwardedAgrees(c.base, c.round.forwards, h, m);
    TheBlock(c, m);
  }

  ghost predicate Taken(c: Scene, id: nat, r: Replica) {
    Accepted(c.base.n, id == c.base.leader, Lookup(r.proposalByView, c.base.view), c.round.forwards)
  }

  lemma CommitKinds(c: Scene, id: nat, r: Replica)
    requires Settled(c, id, r) && Commits(c)
    ensures EmptyRound(c) ==> !Full(c.base.n, c.round.forwards) && id != c.base.leader
    ensures !EmptyRound(c) ==> Full(c.base.n, c.round.forwards)
  {
    if EmptyRound(c) {
      if c.round.equivocation {
        NotFullUnderConflict(c, c.round.forwards);
      }
    } else {
      VotesMeanForwards(c);
    }
  }

  lemma TakenOrEmpty(c: Scene, id: nat, r: Replica)
    requires Settled(c, id, r) && Commits(c)
    ensures Taken(c, id, r) <==> !EmptyRound(c)
  {
    CommitKinds(c, id, r);
    if !EmptyRound(c) {
      var m :| m in c.round.forwards;
    }
  }

  lemma FirstIsBlock(c: Scene, id: nat, first: Option<Proposal>, row: map<nat, Proposal>, equivocating: bool)
    requires RoundOk(c) && (id == c.base.leader ==> c.correctLeader)
    requires Full(c.base.n, c.round.forwards) && !EmptyRound(c)
    requires MidForwards(c.own, id == c.base.leader, first, row, equivocating, c.round.forwards)
    ensures first.Some? && first.value.block == RoundBlock(c)
  {
    hide FullyForwarded;
    hide AcceptableAt;
    hide IsBallot;
    hide SignedHeader;
    var m :| m in c.round.forwards;
    assert IsForward(c.base, m);
    TheBlock(c, m);
    if id != c.base.leader {
      TheBlock(c, PropMsg(first.value));
    }
  }

  lemma BlocksAgree(c: Scene, id: nat, r: Replica)
    requires Settled(c, id, r) && Commits(c)
    ensures Extended(c.base, r.ledger, RoundBlock(c))
  {
    TakenOrEmpty(c, id, r);
    CommitKinds(c, id, r);
    if !EmptyRound(c) {
      FirstIsBlock(c, id, Lookup(r.proposalByView, c.base.view), Row(r.forwards, c.base.view), r.equivocating);
    }
  }

  lemma CertAgrees(c: Scene, id: nat, r: Replica)
    requires Settled(c, id, r) && Commits(c)
    ensures c.base.view in r.ledger.certs && r.ledger.certs[c.base.view].hash == BlockHash(RoundBlock(c))
    ensures !EmptyRound(c) ==> VotedCert(c.base, c.round, r.ledger.certs[c.base.view])
  {
    CommitKinds(c, id, r);
    if !EmptyRound(c) {
      CertNamesBlock(c, r.ledger.certs[c.base.view].hash);
    }
  }

  lemma CertHashes(b: Base, certs: map<nat, Certificate>, h: Hash)
    requires Chained(b) && OldCerts(b, certs) && b.view in certs && certs[b.view].hash == h
    ensures HashesOf(certs) == b.certHash[b.view := h]
  {}

  lemma LogAgrees(c: Scene, id: nat, r: Replica)
    requires Settled(c, id, r) && Commits(c)
    ensures r.log == NextLog(c)
  {
    TakenOrEmpty(c, id, r);
    VotersComplete(c, id);
  }

  lemma VotersComplete(c: Scene, id: nat)
    requires Full(c.base.n, c.round.forwards) ==> id in Voters(c.round.votes)
    ensures Voters(c.round.votes) + Only(Full(c.base.n, c.round.forwards), id) == Voters(c.round.votes)
  {}

  lemma Overwritten(before: Table, t: Table)
    requires before.Keys <= t.Keys
    ensures before + t == t
  {}

  lemma SameUpdate(a: map<nat, Table>, b: map<nat, Table>, k: nat, t: Table)
    requires forall v :: v != k ==> (v in a <==> v in b)
    requires forall v :: v != k && v in b ==> a[v] == b[v]
    ensures a[k := t] == b[k := t]
  {}

  lemma TablesMerge(b: Base, reputation: map<nat, Table>, t: Table)
    requires SameTables(b, reputation) && t.Keys == Nodes(b.n)
    ensures reputation[b.view + 1 := TableAt(reputation, b.view + 1) + t] == b.reputation[b.view + 1 := t]
  {
    Overwritten(TableAt(reputation, b.view + 1), t);
    SameUpdate(reputation, b.reputation, b.view + 1, t);
  }

  lemma TablesAgree(f: real -> real, b: Base, r: Replica, log: Transcript)
    requires SameTables(b, r.reputation) && r.view == b.view && r.n == b.n && r.log == log
    ensures AddReputation(f, r).reputation == NextReputation(f, b, log)
  {
    TablesMerge(b, r.reputation, NewTable(f, r.n, r.log));
  }

  // The step to the next view

  function Moved(f: real -> real, r: Replica): Replica
    requires r.n > 0
  {
    AddReputation(f, r).(equivocating := false, view := r.view + 1, leader := NextLeader(r.leader, r.n))
  }

  lemma CallbackMoves(f: real -> real, r: Replica)
    requires r.n > 0 && !(r.withholding && r.equivocating)
    requires r.withholding || r.equivocating || r.view in r.ledger.certs
    ensures Callback(f, r) == Moved(f, r)
  {}

  lemma CallbackAdvances(f: real -> real, c: Scene, id: nat, r: Replica)
    requires Settled(c, id, r) && Commits(c)
    ensures r.n > 0 && Callback(f, r) == Moved(f, r)
  {
    CertAgrees(c, id, r);
    if c.withheld {
      assert !Conflict(c.round.forwards);
    }
    CallbackMoves(f, r);
  }

  lemma MovedBase(f: real -> real, c: Scene, r: Replica)
    requires r.n > 0 && r.n == c.base.n && r.view == c.base.view && r.leader == c.base.leader
    requires Extended(c.base, r.ledger, RoundBlock(c)) && r.log == NextLog(c)
    requires HashesOf(r.ledger.certs) == c.base.certHash[c.base.view := BlockHash(RoundBlock(c))]
    requires AddReputation(f, r).reputation == NextReputation(f, c.base, NextLog(c))
    ensures BaseOf(Moved(f, r)) == NextBase(f, c)
  {}

  /** Whatever the order of delivery was, a settled round takes every correct node to the
      same shared state. */
  lemma RoundAgreement(f: real -> real, c: Scene, id: nat, r: Replica)
    requires Chained(c.base) && Tabulated(c.base.n, c.base.view, c.base.reputation) && Settled(c, id, r) && Commits(c)
    ensures r.n > 0 && BaseOf(Callback(f, r)) == NextBase(f, c)
  {
    CallbackAdvances(f, c, id, r);
    BlocksAgree(c, id, r);
    CertAgrees(c, id, r);
    CertHashes(c.base, r.ledger.certs, BlockHash(RoundBlock(c)));
    LogAgrees(c, id, r);
    TablesAgree(f, c.base, r, NextLog(c));
    MovedBase(f, c, r);
  }

  /** Without a commit the callback leaves the node where it was. */
  lemma RoundStalls(f: real -> real, c: Scene, id: nat, r: Replica)
    requires Settled(c, id, r) && !Commits(c)
    ensures r.n > 0 && Mid(c, false, id, Callback(f, r), c.round)
    ensures c.base.view !in Callback(f, r).ledger.certs
  {
    assert !c.withheld && !Conflict(c.round.forwards);
    StalledTables(f, c, id, r);
    assert Callback(f, r) == AddReputation(f, r);
  }

  lemma StalledTables(f: real -> real, c: Scene, id: nat, r: Replica)
    requires SameTables(c.base, r.reputation) && r.view == c.base.view && r.n == c.base.n
    ensures SameTables(c.base, AddReputation(f, r).reputation)
  {}

  // The next shared state is as good as the old one

  lemma {:induction false} LeaderRotates(view: nat, n: nat)
    requires n > 0 && view >= 1
    ensures NextLeader(LeaderOf(view, n), n) == LeaderOf(view + 1, n)
  {
    var q, x := (view - 1) / n, (view - 1) % n;
    assert view - 1 == q * n + x;
    if x + 1 < n {
      ModUnique(view, n, q, x + 1);
    } else {
      assert q * n + n == (q + 1) * n;
      ModUnique(view, n, q + 1, 0);
    }
  }

  lemma MulBounds(d: int, n: nat)
    ensures d >= 1 ==> d * n >= n
    ensures d <= -1 ==> d * n <= -(n as int)
  {}

  lemma ModUnique(a: nat, n: nat, q: nat, x: nat)
    requires x < n && a == q * n + x
    ensures a % n == x
  {
    var d := a / n - q;
    assert a == (a / n) * n + a % n;
    assert d * n == x - a % n;
    MulBounds(d, n);
  }

  lemma BlockOfView(f: real -> real, c: Scene)
    requires Ready(c.base) && RoundOk(c)
    ensures var k := RoundBlock(c);
            ProperBlock(k) && k.header.height == c.base.view && k.header.parent == Parent(c.base)
            && HeightOf(BlockHash(k)) == c.base.view
  {
    if !EmptyRound(c) && c.round.forwards != {} {
      var x :| x in c.round.forwards && RoundBlock(c) == if x.PropMsg? then x.p.block else RoundEmptyBlock(c.base);
      assert IsForward(c.base, x) && WellBuilt(c.base, x.p);
    }
  }

  lemma LinkStays(b: Base, b': Base, k: Block, h: nat)
    requires h in b.byHeight && Linked(b, h) && h < b.view && HeightOf(BlockHash(k)) == b.view
    requires b'.byHeight == b.byHeight[b.view := k]
    requires b'.byHash == b.byHash[BlockHash(k) := k] && b'.certHash == b.certHash[b.view := BlockHash(k)]
    ensures Linked(b', h)
  {}

  lemma LinkAdded(b: Base, b': Base, k: Block)
    requires b.view >= 1 && b.view - 1 in b.certHash
    requires ProperBlock(k) && k.header.height == b.view && k.header.parent == Parent(b)
    requires b'.byHeight == b.byHeight[b.view := k]
    requires b'.byHash == b.byHash[BlockHash(k) := k] && b'.certHash == b.certHash[b.view := BlockHash(k)]
    ensures Linked(b', b.view)
  {}

  lemma ChainGrows(b: Base, b': Base, k: Block)
    requires Chained(b) && b.view >= 1 && HeightOf(BlockHash(k)) == b.view
    requires ProperBlock(k) && k.header.height == b.view && k.header.parent == Parent(b)
    requires b'.view == b.view + 1 && b'.byHeight == b.byHeight[b.view := k]
    requires b'.byHash == b.byHash[BlockHash(k) := k] && b'.certHash == b.certHash[b.view := BlockHash(k)]
    ensures Chained(b')
  {
    forall h | h in b'.byHeight
      ensures Linked(b', h)
    {
      if h < b.view {
        LinkStays(b, b', k, h);
      } else {
        LinkAdded(b, b', k);
      }
    }
  }

  lemma RowAdded(t: Tally, view: nat, s: set<nat>)
    requires view >= 1 && UpTo(t, view - 1)
    ensures UpTo(WithRow(t, view, s), view)
  {}

  lemma LogGrows(c: Scene)
    requires c.base.view >= 1 && WithinViews(c.base.log, c.base.view - 1)
    ensures WithinViews(NextLog(c), c.base.view)
  {
    var b := c.base;
    RowAdded(b.log.proposals, b.view, Only(!EmptyRound(c), b.leader));
    RowAdded(b.log.votes, b.view, Voters(c.round.votes));
    RowAdded(b.log.withheld, b.view, Only(c.withheld, b.leader));
    RowAdded(b.log.equivocations, b.view, Only(c.round.equivocation, b.leader));
    RowAdded(b.log.maliciousProposals, b.view, c.round.maliciousProposers);
    RowAdded(b.log.maliciousVotes, b.view, c.round.maliciousVoters);
  }

  lemma LeaderRowsGrow(t: Tally, view: nat, n: nat, on: bool)
    requires n > 0 && LeaderRows(t, n)
    ensures LeaderRows(WithRow(t, view, Only(on, LeaderOf(view, n))), n)
  {}

  lemma NextRows(f: real -> real, c: Scene)
    requires BaseOk(c.base)
    ensures var next := NextBase(f, c);
            && LeaderRows(next.log.proposals, next.n) && LeaderRows(next.log.withheld, next.n)
            && LeaderRows(next.log.equivocations, next.n) && next.leader == LeaderOf(next.view, next.n)
  {
    var b := c.base;
    LeaderRotates(b.view, b.n);
    LeaderRowsGrow(b.log.proposals, b.view, b.n, !EmptyRound(c));
    LeaderRowsGrow(b.log.withheld, b.view, b.n, c.withheld);
    LeaderRowsGrow(b.log.equivocations, b.view, b.n, c.round.equivocation);
  }

  lemma NextChain(f: real -> real, c: Scene)
    requires BaseOk(c.base) && RoundOk(c)
    ensures Chained(NextBase(f, c))
  {
    BaseIsReady(c.base);
    BlockOfView(f, c);
    ChainGrows(c.base, NextBase(f, c), RoundBlock(c));
  }

  lemma NewTableGood(f: real -> real, n: nat, log: Transcript)
    ensures GoodTable(n, NewTable(f, n, log))
  {}

  lemma TableAdded(n: nat, view: nat, reputation: map<nat, Table>, t: Table)
    requires Tabulated(n, view, reputation) && GoodTable(n, t)
    ensures Tabulated(n, view + 1, reputation[view + 1 := t])
  {}

  lemma NewTableAdded(f: real -> real, b: Base, log: Transcript)
    requires Tabulated(b.n, b.view, b.reputation)
    ensures Tabulated(b.n, b.view + 1, NextReputation(f, b, log))
  {
    hide NewTable;
    hide Tabulated;
    var t := NewTable(f, b.n, log);
    NewTableGood(f, b.n, log);
    TableAdded(b.n, b.view, b.reputation, t);
  }

  lemma NextTables(f: real -> real, c: Scene)
    requires c.base.n > 0 && Tabulated(c.base.n, c.base.view, c.base.reputation)
    ensures var next := NextBase(f, c); Tabulated(next.n, next.view, next.reputation)
  {
    NewTableAdded(f, c.base, NextLog(c));
  }

  lemma NextShape(f: real -> real, c: Scene)
    requires BaseOk(c.base)
    ensures var next := NextBase(f, c);
            next.n == c.base.n && next.view == c.base.view + 1 && WithinViews(next.log, next.view - 1)
  {
    LogGrows(c);
  }

  lemma BaseStaysOk(f: real -> real, c: Scene)
    requires BaseOk(c.base) && RoundOk(c)
    ensures BaseOk(NextBase(f, c))
  {
    NextChain(f, c);
    NextRows(f, c);
    NextTables(f, c);
    NextShape(f, c);
  }

  // A node that has just entered a view

  ghost predicate Entered(b: Base, id: nat, r: Replica) {
    Whole(
      && r.id == id && BaseOf(r) == b && r.ledger.head + 1 == b.view && !r.maliciousVote && !r.equivocating
      && UpToView(r.proposalByView, b.view - 1) && UpToView(r.forwards, b.view - 1)
      && UpToView(r.ballots, b.view - 1) && r.certified.Keys == r.ballots.Keys && UpToView(r.ledger.certs, b.view - 1)
      && r.ledger.head in r.ledger.certs
      && IsCertValid(b.byHash, PreviousTable(b.reputation, b.view), r.ledger.certs[r.ledger.head]))
  }

  lemma EnteredMeta(b: Base, id: nat, r: Replica)
    requires b.view >= 1 && Tabulated(b.n, b.view, b.reputation) && Entered(b, id, r)
    ensures MidMeta(b, id, r)
  {}

  lemma EnteredForwards(b: Base, id: nat, r: Replica)
    requires b.view >= 1 && Entered(b, id, r)
    ensures Lookup(r.proposalByView, b.view) == None && Row(r.forwards, b.view) == map[]
    ensures Row(r.ballots, b.view) == map[] && !IsCertified(r) && Lookup(r.ledger.certs, b.view) == None
  {}

  lemma NothingHeard(own: Option<Block>, leading: bool)
    requires own == None
    ensures MidForwards(own, leading, None, map[], false, {})
    ensures !Conflict({}) && Senders({}) == {} && Voters({}) == {}
  {}

  lemma NoWeight(w: Table)
    requires NonNegative(w)
    ensures !Outweighs(w, {})
  {
    SumNonNegative(w, w.Keys);
    assert Sum(w, {}) == 0.0;
  }

  lemma EnteredCerts(b: Base, id: nat, r: Replica)
    requires b.view >= 1 && Chained(b) && Entered(b, id, r)
    ensures OldCerts(b, r.ledger.certs)
  {
    forall v: nat | v < b.view
      ensures v in r.ledger.certs && v in b.certHash && r.ledger.certs[v].hash == b.certHash[v]
    {
      assert v in HashesOf(r.ledger.certs);
    }
  }

  lemma NoBallots(b: Base)
    requires Ready(b)
    ensures MidBallots(b, map[], false, {}) && MidCert(b, NOTHING, false, None, {})
  {
    NoWeight(b.reputation[b.view]);
    assert Voters({}) == {};
    var poll: map<nat, Vote> := map[];
    assert poll.Keys == {};
  }

  lemma EnteredRest(b: Base, id: nat, r: Replica)
    requires Entered(b, id, r)
    ensures MidBlocks(b, false, false, None, r.ledger)
    ensures MidLog(b, false, false, {}, r.log, NOTHING) && !r.equivocating && !Full(b.n, {})
  {}

  lemma BaseParts(b: Base)
    requires BaseOk(b)
    ensures b.view >= 1 && Chained(b) && Tabulated(b.n, b.view, b.reputation)
  {}

  lemma FreshMid(b: Base, withheld: bool, correctLeader: bool, id: nat, r: Replica)
    requires BaseOk(b) && Entered(b, id, r)
    ensures Mid(Scene(b, NOTHING, withheld, correctLeader, None), false, id, r, NOTHING)
  {
    hide BaseOk;
    hide Ready;
    hide Entered;
    hide Chained;
    hide Tabulated;
    hide MidMeta;
    hide MidForwards;
    hide MidBlocks;
    hide OldCerts;
    hide MidCert;
    hide MidBallots;
    hide MidLog;
    hide Full;
    BaseParts(b);
    BaseIsReady(b);
    EnteredMeta(b, id, r);
    EnteredForwards(b, id, r);
    NothingHeard(None, id == b.leader);
    EnteredCerts(b, id, r);
    NoBallots(b);
    EnteredRest(b, id, r);
    assert Voters({}) + {} == {};
  }

  /** The certificate of a round is accepted by every correct node in the next view. */
  lemma CertPortable(c: Scene, next: Base, cert: Certificate)
    requires next.byHash == c.base.byHash[BlockHash(RoundBlock(c)) := RoundBlock(c)]
    requires PreviousTable(next.reputation, next.view) == TableAt(c.base.reputation, c.base.view)
    requires cert.hash == BlockHash(RoundBlock(c))
    requires !EmptyRound(c) ==> VotedCert(c.base, c.round, cert)
    ensures IsCertValid(next.byHash, PreviousTable(next.reputation, next.view), cert)
  {}

  lemma NextPrevious(f: real -> real, c: Scene)
    requires Ready(c.base)
    ensures var next := NextBase(f, c);
            PreviousTable(next.reputation, next.view) == TableAt(c.base.reputation, c.base.view)
  {}

  lemma MovedFields(f: real -> real, r: Replica)
    requires r.n > 0
    ensures var r' := Moved(f, r);
            && r'.id == r.id && r'.ledger == r.ledger && r'.maliciousVote == r.maliciousVote && !r'.equivocating
            && r'.proposalByView == r.proposalByView && r'.forwards == r.forwards && r'.ballots == r.ballots
            && r'.certified == r.certified && r'.view == r.view + 1
  {}

  lemma MetaOf(c: Scene, id: nat, r: Replica)
    requires Settled(c, id, r)
    ensures MidMeta(c.base, id, r) && OldCerts(c.base, r.ledger.certs) && Ready(c.base)
  {}

  lemma Enters(b: Base, next: Base, id: nat, r: Replica, r': Replica)
    requires MidMeta(b, id, r) && OldCerts(b, r.ledger.certs) && BaseOf(r') == next && next.view == b.view + 1
    requires r.ledger.head == b.view && b.view in r.ledger.certs
    requires IsCertValid(next.byHash, PreviousTable(next.reputation, next.view), r.ledger.certs[b.view])
    requires r'.id == r.id && r'.ledger == r.ledger && r'.maliciousVote == r.maliciousVote && !r'.equivocating
    requires r'.proposalByView == r.proposalByView && r'.forwards == r.forwards && r'.ballots == r.ballots
    requires r'.certified == r.certified
    ensures Entered(next, id, r')
  {}

  lemma EntersNext(f: real -> real, c: Scene, id: nat, r: Replica)
    requires Chained(c.base) && Tabulated(c.base.n, c.base.view, c.base.reputation) && Settled(c, id, r) && Commits(c)
    ensures r.n > 0 && Entered(NextBase(f, c), id, Callback(f, r))
  {
    hide Settled;
    hide Chained;
    hide Tabulated;
    hide Commits;
    hide VotedCert;
    RoundAgreement(f, c, id, r);
    CallbackAdvances(f, c, id, r);
    BlocksAgree(c, id, r);
    CertAgrees(c, id, r);
    MetaOf(c, id, r);
    NextPrevious(f, c);
    CertPortable(c, NextBase(f, c), r.ledger.certs[c.base.view]);
    MovedFields(f, r);
    Enters(c.base, NextBase(f, c), id, r, Moved(f, r));
  }
}
