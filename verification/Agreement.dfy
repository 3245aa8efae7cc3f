/** The main results about runs, for any number of correct nodes, any sequence of normal,
    withheld, equivocated and disturbed rounds, and any order and repetition of deliveries. */
module Agreement {
  import opened Messages
  import opened Weights
  import opened Tallies
  import opened Reputation
  import opened Replicas
  import opened Rounds
  import opened RoundEnds
  import opened Runs
  import opened Safety
  import opened Accusations

  // What a node shares with the others

  /** A node's state contains the shared state of its view. */
  ghost predicate Follows(b: Base, r: Replica) {
    Whole(
      && r.n == b.n && r.view == b.view && r.leader == b.leader
      && (forall h :: h in b.byHeight ==> h in r.ledger.byHeight && r.ledger.byHeight[h] == b.byHeight[h])
      && (forall v :: v in b.certHash ==> v in r.ledger.certs && r.ledger.certs[v].hash == b.certHash[v])
      && (forall v :: v in b.reputation ==> v in r.reputation && r.reputation[v] == b.reputation[v])
      && LogBefore(r.log, b.view) == b.log)
  }

  /** The head is at the current view exactly when the node has a block of the view. */
  ghost predicate HeadTells(view: nat, l: Ledger) {
    view - 1 <= l.head <= view && (l.head == view <==> view in l.byHeight)
  }

  lemma BlocksFollow(b: Base, empty: bool, accepted: bool, first: Option<Proposal>, l: Ledger)
    requires b.view !in b.byHeight && MidBlocks(b, empty, accepted, first, l)
    ensures forall h :: h in b.byHeight ==> h in l.byHeight && l.byHeight[h] == b.byHeight[h]
    ensures HeadTells(b.view, l)
  {}

  lemma CertsFollow(b: Base, certs: map<nat, Certificate>)
    requires OldCerts(b, certs) && (forall h: nat :: h in b.certHash <==> h < b.view)
    ensures forall v :: v in b.certHash ==> v in certs && certs[v].hash == b.certHash[v]
  {}

  lemma RowsFollow(t: Tally, view: nat, s: set<nat>)
    requires Before(t, view) == t
    ensures Before(WithRow(t, view, s), view) == t
  {}

  lemma LogFollows(b: Base, withheld: bool, accepted: bool, voted: set<nat>, log: Transcript, h: Heard)
    requires MidLog(b, withheld, accepted, voted, log, h) && LogBefore(b.log, b.view) == b.log
    ensures LogBefore(log, b.view) == b.log
  {
    RowsFollow(b.log.proposals, b.view, Only(accepted, b.leader));
    RowsFollow(b.log.votes, b.view, voted);
    RowsFollow(b.log.withheld, b.view, Only(withheld, b.leader));
    RowsFollow(b.log.equivocations, b.view, Only(h.equivocation, b.leader));
    RowsFollow(b.log.maliciousProposals, b.view, h.maliciousProposers);
    RowsFollow(b.log.maliciousVotes, b.view, h.maliciousVoters);
  }

  lemma TablesFollow(b: Base, reputation: map<nat, Table>)
    requires SameTables(b, reputation) && b.view + 1 !in b.reputation
    ensures forall v :: v in b.reputation ==> v in reputation && reputation[v] == b.reputation[v]
  {}

  lemma CertViews(b: Base)
    requires BaseOk(b)
    ensures forall h: nat :: h in b.certHash <==> h < b.view
  {}

  lemma MidFollows(c: Scene, began: bool, id: nat, r: Replica, h: Heard)
    requires BaseOk(c.base) && Mid(c, began, id, r, h)
    ensures Follows(c.base, r) && HeadTells(c.base.view, r.ledger)
  {
    var b, first := c.base, Lookup(r.proposalByView, c.base.view);
    var accepted := Accepted(b.n, id == b.leader, first, h.forwards);
    ChainKept(b);
    CertViews(b);
    BlocksFollow(b, (began && c.withheld) || h.equivocation, accepted, first, r.ledger);
    CertsFollow(b, r.ledger.certs);
    TablesFollow(b, r.reputation);
    LogFollows(b, began && c.withheld, accepted, Voters(h.votes) + Only(Full(b.n, h.forwards), id), r.log, h);
  }

  lemma NodeFollows(cfg: Config, s: System, i: nat)
    requires Good(cfg, s) && i in cfg.correct
    ensures i in s.reps && Follows(s.base, s.reps[i]) && HeadTells(s.base.view, s.reps[i].ledger)
  {
    NodeHandles(cfg, s, i);
    MidFollows(SceneOf(cfg, s), i in s.started, i, s.reps[i], Hear(s.base, s.seen[i]));
  }

  // Agreement

  /** `q` holds everything `p` has settled: the blocks and certified hashes below `p`'s view,
      the reputation tables up to it and the behaviour recorded before it. */
  ghost predicate Agrees(p: Replica, q: Replica) {
    && p.view <= q.view && (p.view == q.view ==> p.leader == q.leader)
    && (forall h: nat :: 1 <= h < p.view ==>
          h in p.ledger.byHeight && h in q.ledger.byHeight && p.ledger.byHeight[h] == q.ledger.byHeight[h])
    && (forall v: nat :: v < p.view ==>
          v in p.ledger.certs && v in q.ledger.certs && p.ledger.certs[v].hash == q.ledger.certs[v].hash)
    && (forall v: nat :: 1 <= v <= p.view ==>
          v in p.reputation && v in q.reputation && p.reputation[v] == q.reputation[v])
    && LogBefore(p.log, p.view) == LogBefore(q.log, p.view)
  }

  /** The domains of the shared maps. */
  ghost predicate Covers(b: Base) {
    Whole(
      && b.n > 0 && b.view >= 1 && b.leader == LeaderOf(b.view, b.n)
      && 0 in b.certHash && b.certHash[0] == EmptyHash
      && (forall h: nat :: h in b.byHeight <==> 1 <= h < b.view)
      && (forall h: nat :: h in b.certHash <==> h < b.view)
      && (forall v: nat :: v in b.reputation <==> 1 <= v <= b.view))
  }

  lemma BaseCovers(b: Base)
    requires BaseOk(b)
    ensures Covers(b)
  {}

  ghost predicate Tied(b: Base, b': Base, p: Replica, q: Replica) {
    Whole(Covers(b) && Covers(b') && Extends(b, b') && Follows(b, p) && Follows(b', q))
  }

  lemma LogsAgree(b: Base, b': Base, p: Replica, q: Replica)
    requires Tied(b, b', p, q)
    ensures p.view <= q.view && (p.view == q.view ==> p.leader == q.leader)
    ensures LogBefore(p.log, p.view) == LogBefore(q.log, p.view)
  {
    LogBeforeTwice(q.log, b.view, b'.view);
  }

  lemma BlocksAgreeVia(b: Base, b': Base, p: Replica, q: Replica)
    requires Tied(b, b', p, q)
    ensures forall h: nat :: 1 <= h < p.view ==>
              h in p.ledger.byHeight && h in q.ledger.byHeight && p.ledger.byHeight[h] == q.ledger.byHeight[h]
  {
    assert forall h: nat :: 1 <= h < p.view ==> h in b.byHeight;
  }

  lemma CertsAgreeVia(b: Base, b': Base, p: Replica, q: Replica)
    requires Tied(b, b', p, q)
    ensures forall v: nat :: v < p.view ==>
              v in p.ledger.certs && v in q.ledger.certs && p.ledger.certs[v].hash == q.ledger.certs[v].hash
  {
    assert forall v: nat :: v < p.view ==> v in b.certHash;
  }

  lemma TablesAgreeVia(b: Base, b': Base, p: Replica, q: Replica)
    requires Tied(b, b', p, q)
    ensures forall v: nat :: 1 <= v <= p.view ==>
              v in p.reputation && v in q.reputation && p.reputation[v] == q.reputation[v]
  {}

  lemma AgreeVia(b: Base, b': Base, p: Replica, q: Replica)
    requires Tied(b, b', p, q)
    ensures Agrees(p, q)
  {
    LogsAgree(b, b', p, q);
    BlocksAgreeVia(b, b', p, q);
    CertsAgreeVia(b, b', p, q);
    TablesAgreeVia(b, b', p, q);
  }

  lemma GoodCovers(cfg: Config, s: System)
    requires Good(cfg, s)
    ensures Covers(s.base)
  {
    BaseCovers(s.base);
  }

  /** In a run, any two correct nodes agree at all times: what one of them has settled in some
      state, the other holds unchanged in that state and in every later one. */
  lemma LedgerAgreement(cfg: Config, states: seq<System>, actions: seq<Action>, k: nat, l: nat, i: nat, j: nat)
    requires IsRun(cfg, states, actions) && k <= l < |states| && i in cfg.correct && j in cfg.correct
    ensures i in states[k].reps && j in states[l].reps
    ensures Agrees(states[k].reps[i], states[l].reps[j])
    ensures k == l ==> states[k].reps[i].view == states[l].reps[j].view
  {
    var s, t := states[k], states[l];
    RunGood(cfg, states, actions, k);
    RunExtends(cfg, states, actions, k, l);
    NodesAgree(cfg, s, t, i, j);
  }

  lemma NodesAgree(cfg: Config, s: System, t: System, i: nat, j: nat)
    requires Good(cfg, s) && GoodFrom(cfg, s.base, t) && i in cfg.correct && j in cfg.correct
    ensures i in s.reps && j in t.reps && Agrees(s.reps[i], t.reps[j])
    ensures s.base == t.base ==> s.reps[i].view == t.reps[j].view
  {
    NodeFollows(cfg, s, i);
    NodeFollows(cfg, t, j);
    GoodCovers(cfg, s);
    GoodCovers(cfg, t);
    AgreeVia(s.base, t.base, s.reps[i], t.reps[j]);
  }

  // The chain

  /** The block at a height is the certified one of its view and built on the one below. */
  ghost predicate LinkedAt(l: Ledger, h: nat) {
    && h >= 1 && h in l.byHeight && h in l.certs && h - 1 in l.certs
    && l.byHeight[h].header.height == h
    && l.certs[h].hash == BlockHash(l.byHeight[h])
    && l.byHeight[h].header.parent == l.certs[h - 1].hash
  }

  ghost predicate ChainOf(r: Replica) {
    && r.n > 0 && r.view >= 1 && r.leader == (r.view - 1) % r.n
    && HeadTells(r.view, r.ledger)
    && 0 in r.ledger.certs && r.ledger.certs[0].hash == EmptyHash
    && (forall h: nat :: 1 <= h < r.view ==> LinkedAt(r.ledger, h))
  }

  lemma LinkVia(b: Base, r: Replica, h: nat)
    requires Covers(b) && Follows(b, r) && 1 <= h < b.view && h in b.byHeight && Linked(b, h)
    ensures LinkedAt(r.ledger, h)
  {}

  lemma GenesisVia(b: Base, r: Replica)
    requires Covers(b) && Follows(b, r)
    ensures r.n > 0 && r.view >= 1 && r.leader == (r.view - 1) % r.n
    ensures 0 in r.ledger.certs && r.ledger.certs[0].hash == EmptyHash
  {}

  lemma ChainVia(b: Base, r: Replica)
    requires BaseOk(b) && Follows(b, r) && HeadTells(b.view, r.ledger)
    ensures ChainOf(r)
  {
    BaseCovers(b);
    GenesisVia(b, r);
    forall h: nat | 1 <= h < b.view
      ensures LinkedAt(r.ledger, h)
    {
      LinkVia(b, r, h);
    }
  }

  lemma HashLinkedChain(cfg: Config, states: seq<System>, actions: seq<Action>, k: nat, i: nat)
    requires IsRun(cfg, states, actions) && k < |states| && i in cfg.correct
    ensures i in states[k].reps && ChainOf(states[k].reps[i])
  {
    RunGood(cfg, states, actions, k);
    NodeFollows(cfg, states[k], i);
    ChainVia(states[k].base, states[k].reps[i]);
  }

  /** The node has the leader's block of the view: the leader since it proposed, any other node
      since it has heard all the forwards. */
  ghost predicate HasBlock(c: Scene, id: nat, h: Heard) {
    if id == c.base.leader then c.own.Some? else Full(c.base.n, h.forwards)
  }

  lemma HeadBetween(c: Scene, id: nat, r: Replica, h: Heard)
    requires Handles(c, false, id, r, h) && c.base.view !in r.ledger.certs
    ensures r.view == c.base.view && (r.ledger.head + 1 == r.view <==> !HasBlock(c, id, h))
    ensures r.ledger.head == r.view <==> HasBlock(c, id, h)
  {}

  /** When a round starts at a correct node, its head is one behind its view unless an earlier
      round in the same view has already given it the leader's block; then it is at the view. */
  lemma LockstepHead(cfg: Config, states: seq<System>, actions: seq<Action>, k: nat, i: nat)
    requires IsRun(cfg, states, actions) && k < |states| && i in cfg.correct && i !in states[k].started
    ensures i in states[k].reps && i in states[k].seen
    ensures var s, r := states[k], states[k].reps[i];
            && (r.ledger.head + 1 == r.view <==> !HasBlock(SceneOf(cfg, s), i, Hear(s.base, s.seen[i])))
            && (r.ledger.head == r.view <==> HasBlock(SceneOf(cfg, s), i, Hear(s.base, s.seen[i])))
  {
    var s := states[k];
    RunGood(cfg, states, actions, k);
    NodeHandles(cfg, s, i);
    hide Handles;
    hide Inv;
    HeadBetween(SceneOf(cfg, s), i, s.reps[i], Hear(s.base, s.seen[i]));
  }

  // Behaviour records

  lemma RecordBounded(b: Base, withheld: bool, accepted: bool, voted: set<nat>, log: Transcript, h: Heard)
    requires b.view >= 1 && WithinViews(b.log, b.view - 1) && MidLog(b, withheld, accepted, voted, log, h)
    ensures WithinViews(log, b.view)
  {
    RowAdded(b.log.proposals, b.view, Only(accepted, b.leader));
    RowAdded(b.log.votes, b.view, voted);
    RowAdded(b.log.withheld, b.view, Only(withheld, b.leader));
    RowAdded(b.log.equivocations, b.view, Only(h.equivocation, b.leader));
    RowAdded(b.log.maliciousProposals, b.view, h.maliciousProposers);
    RowAdded(b.log.maliciousVotes, b.view, h.maliciousVoters);
  }

  lemma RecordOfLeaders(b: Base, withheld: bool, accepted: bool, voted: set<nat>, log: Transcript, h: Heard)
    requires BaseOk(b) && MidLog(b, withheld, accepted, voted, log, h)
    ensures b.n > 0 && LeaderRows(log.proposals, b.n) && LeaderRows(log.withheld, b.n)
            && LeaderRows(log.equivocations, b.n)
  {
    LeaderRowsGrow(b.log.proposals, b.view, b.n, accepted);
    LeaderRowsGrow(b.log.withheld, b.view, b.n, withheld);
    LeaderRowsGrow(b.log.equivocations, b.view, b.n, h.equivocation);
  }

  lemma NodeRecords(c: Scene, began: bool, id: nat, r: Replica, h: Heard)
    requires BaseOk(c.base) && Mid(c, began, id, r, h)
    ensures r.n > 0 && r.n == c.base.n && LeaderRows(r.log.proposals, r.n) && WithinViews(r.log, r.view)
  {
    var b, first := c.base, Lookup(r.proposalByView, c.base.view);
    var accepted := Accepted(b.n, id == b.leader, first, h.forwards);
    var voted := Voters(h.votes) + Only(Full(b.n, h.forwards), id);
    TablesBounded(b);
    RecordBounded(b, began && c.withheld, accepted, voted, r.log, h);
    RecordOfLeaders(b, began && c.withheld, accepted, voted, r.log, h);
  }

  lemma NodeRecorded(cfg: Config, s: System, i: nat)
    requires Good(cfg, s) && i in cfg.correct
    ensures i in s.reps && s.reps[i].n > 0 && s.reps[i].n == cfg.n
    ensures LeaderRows(s.reps[i].log.proposals, s.reps[i].n) && WithinViews(s.reps[i].log, s.reps[i].view)
  {
    NodeHandles(cfg, s, i);
    NodeRecords(SceneOf(cfg, s), i in s.started, i, s.reps[i], Hear(s.base, s.seen[i]));
  }

  function Leader(n: nat): nat -> nat {
    v => if n == 0 then 0 else LeaderOf(v, n)
  }

  lemma CreditOfLeaders(t: Tally, n: nat)
    requires n > 0 && LeaderRows(t, n)
    ensures TotalCount(t, n) == |t|
    ensures forall v, id :: Marked(t, v, id) ==> id == LeaderOf(v, n)
  {
    forall v | v in t
      ensures Leader(n)(v) < n && t[v] == Ones({Leader(n)(v)})
    {
      LeaderInRange(v, n);
    }
    CreditConserved(t, n, Leader(n));
  }

  /** The views up to this one that a node has led. */
  function ViewsLed(n: nat, view: nat, id: nat): set<nat>
    requires n > 0
  {
    set v: nat | 1 <= v <= view && LeaderOf(v, n) == id
  }

  lemma CreditAsLeader(t: Tally, n: nat, view: nat, id: nat)
    requires n > 0 && UpTo(t, view) && (forall v, j :: Marked(t, v, j) ==> j == LeaderOf(v, n))
    ensures Count(t, id) <= |ViewsLed(n, view, id)|
  {
    SubsetSize(Views(t, id), ViewsLed(n, view, id));
  }

  /** Every recorded proposal is credited to exactly one node, the leader of its view; no node has
      more than it has led views; and up to view 2^59 no penalty wraps around. */
  lemma CreditConservation(cfg: Config, states: seq<System>, actions: seq<Action>, k: nat, i: nat)
    requires IsRun(cfg, states, actions) && k < |states| && i in cfg.correct
    ensures i in states[k].reps && states[k].reps[i].n == cfg.n && cfg.n > 0
    ensures var log := states[k].reps[i].log;
            && TotalCount(log.proposals, cfg.n) == |log.proposals|
            && (forall v, id :: Marked(log.proposals, v, id) ==> id == LeaderOf(v, cfg.n))
            && WithinViews(log, states[k].reps[i].view)
            && (forall id: nat :: Count(log.proposals, id) <= |ViewsLed(cfg.n, states[k].reps[i].view, id)|)
    ensures states[k].reps[i].view <= 0x800_0000_0000_0000 ==>
              forall id: nat ::
                var log := states[k].reps[i].log;
                && ProposalPenalty(log, id) == Count(log.withheld, id) * 10 + Count(log.equivocations, id) * 10
                                               + Count(log.maliciousProposals, id) * 2
                && VotePenalty(log, id) == Count(log.maliciousVotes, id) * 2
  {
    RunGood(cfg, states, actions, k);
    NodeRecorded(cfg, states[k], i);
    var r := states[k].reps[i];
    CreditOfLeaders(r.log.proposals, cfg.n);
    forall id: nat
      ensures Count(r.log.proposals, id) <= |ViewsLed(cfg.n, r.view, id)|
    {
      CreditAsLeader(r.log.proposals, cfg.n, r.view, id);
    }
    if r.view <= 0x800_0000_0000_0000 {
      forall id: nat
        ensures ProposalPenalty(r.log, id) == Count(r.log.withheld, id) * 10 + Count(r.log.equivocations, id) * 10
                                              + Count(r.log.maliciousProposals, id) * 2
        ensures VotePenalty(r.log, id) == Count(r.log.maliciousVotes, id) * 2
      {
        PenaltyExact(r.log, r.view, id);
      }
    }
  }

  // Reputation

  lemma TableScores(f: real -> real, n: nat, reputation: map<nat, Table>, log: Transcript, v: nat, id: nat)
    requires TanhLike(f) && TablesFromLog(f, n, reputation, log) && v in reputation && v >= 1 && id < n
    ensures reputation[v].Keys == Nodes(n) && id in reputation[v]
    ensures INITIAL_SCORE <= reputation[v][id] < 1.0 + INITIAL_SCORE
  {
    assert id in Nodes(n);
    if v >= 2 {
      ScoreRange(f, LogBefore(log, v), id);
    }
  }

  lemma TableRises(f: real -> real, n: nat, reputation: map<nat, Table>, log: Transcript, v: nat, id: nat)
    requires TanhLike(f) && TablesFromLog(f, n, reputation, log) && id < n && Clean(log, v, id)
    requires v >= 1 && v in reputation && v + 1 in reputation && id in reputation[v] && id in reputation[v + 1]
    ensures reputation[v][id] <= reputation[v + 1][id]
  {
    if v >= 2 {
      CleanViewKeepsScore(f, log, v, id);
    }
  }

  lemma CleanBefore(log: Transcript, view: nat, v: nat, id: nat)
    requires v < view && Clean(log, v, id)
    ensures Clean(LogBefore(log, view), v, id)
  {}

  lemma SharedTable(b: Base, r: Replica, v: nat)
    requires Covers(b) && Follows(b, r) && 1 <= v <= b.view
    ensures r.n == b.n && r.view == b.view && v in b.reputation && v in r.reputation
            && r.reputation[v] == b.reputation[v]
    ensures LogBefore(r.log, b.view) == b.log
  {}

  /** A node's table for a view, seen from the shared state. */
  lemma NodeTable(f: real -> real, b: Base, r: Replica, v: nat, id: nat)
    requires TanhLike(f) && TablesFromLog(f, b.n, b.reputation, b.log)
    requires Covers(b) && Follows(b, r) && 1 <= v <= b.view && id < b.n
    ensures v in r.reputation && r.reputation[v].Keys == Nodes(b.n) && id in r.reputation[v]
    ensures INITIAL_SCORE <= r.reputation[v][id] < 1.0 + INITIAL_SCORE
  {
    SharedTable(b, r, v);
    TableScores(f, b.n, b.reputation, b.log, v, id);
  }

  lemma NodeTableRises(f: real -> real, b: Base, r: Replica, v: nat, id: nat)
    requires TanhLike(f) && TablesFromLog(f, b.n, b.reputation, b.log)
    requires Covers(b) && Follows(b, r) && 1 <= v < b.view && id < b.n && Clean(r.log, v, id)
    ensures v in r.reputation && v + 1 in r.reputation && id in r.reputation[v] && id in r.reputation[v + 1]
    ensures r.reputation[v][id] <= r.reputation[v + 1][id]
  {
    NodeTable(f, b, r, v, id);
    NodeTable(f, b, r, v + 1, id);
    SharedTable(b, r, v);
    SharedTable(b, r, v + 1);
    CleanBefore(r.log, b.view, v, id);
    TableRises(f, b.n, b.reputation, b.log, v, id);
  }

  lemma NodeTables(cfg: Config, s: System, i: nat)
    requires Good(cfg, s) && i in cfg.correct
    ensures TablesFromLog(cfg.f, s.base.n, s.base.reputation, s.base.log) && Covers(s.base)
    ensures i in s.reps && Follows(s.base, s.reps[i]) && s.base.n == cfg.n && cfg.correct <= Nodes(cfg.n)
  {
    GoodCovers(cfg, s);
    NodeFollows(cfg, s, i);
  }

  /** Every table a correct node holds rates exactly the n nodes, with scores between the initial
      one and one above it. A node without recorded misbehaviour in a view does not lose
      reputation by that view. */
  lemma ReputationDynamics(cfg: Config, states: seq<System>, actions: seq<Action>, k: nat, i: nat, v: nat, id: nat)
    requires IsRun(cfg, states, actions) && k < |states| && i in cfg.correct && TanhLike(cfg.f) && id < cfg.n
    requires i in states[k].reps && 1 <= v <= states[k].reps[i].view
    ensures var r := states[k].reps[i];
            && v in r.reputation && r.reputation[v].Keys == Nodes(cfg.n) && id in r.reputation[v]
            && INITIAL_SCORE <= r.reputation[v][id] < 1.0 + INITIAL_SCORE
            && (v < r.view && Clean(r.log, v, id) ==>
                  v + 1 in r.reputation && id in r.reputation[v + 1] && r.reputation[v][id] <= r.reputation[v + 1][id])
  {
    var s := states[k];
    RunGood(cfg, states, actions, k);
    NodeTables(cfg, s, i);
    NodeTable(cfg.f, s.base, s.reps[i], v, id);
    if v < s.reps[i].view && Clean(s.reps[i].log, v, id) {
      NodeTableRises(cfg.f, s.base, s.reps[i], v, id);
    }
  }

  /** As long as nobody reuses a correct node's signature against it, no correct node ever loses
      reputation. */
  lemma CorrectKeepsReputation(cfg: Config, states: seq<System>, actions: seq<Action>, k: nat, i: nat, v: nat, id: nat)
    requires IsRun(cfg, states, actions) && Unframed(cfg, states, actions) && k < |states| && TanhLike(cfg.f)
    requires i in cfg.correct && id in cfg.correct && id < cfg.n
    requires i in states[k].reps && 1 <= v < states[k].reps[i].view
    ensures var r := states[k].reps[i];
            && v in r.reputation && id in r.reputation[v] && v + 1 in r.reputation && id in r.reputation[v + 1]
            && r.reputation[v][id] <= r.reputation[v + 1][id]
  {
    CorrectNeverAccused(cfg, states, actions, k, i, v, id);
    ReputationDynamics(cfg, states, actions, k, i, v, id);
  }
}
