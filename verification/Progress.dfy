/** What a round achieves: one certified hash per view, and, under a correct leader that has
    proposed, a commit exactly when everybody has forwarded and the voters outweigh half of the
    reputation. */
module Progress {
  import opened Messages
  import opened Weights
  import opened Tallies
  import opened Reputation
  import opened Replicas
  import opened Rounds
  import opened RoundEnds
  import opened Runs
  import opened Safety
  import opened Agreement
  import opened Certification
  import opened Continuations

  // One hash per view

  lemma OneFullBlock(c: Scene, h: Hash, h': Hash)
    requires RoundOk(c) && c.base.leader < c.base.n
    requires FullyForwarded(c.base, c.round.forwards, h) && FullyForwarded(c.base, c.round.forwards, h')
    ensures h == h' && !c.withheld && !c.round.equivocation
  {
    FullyForwardedIsFull(c.base, c.round.forwards, h);
    FullyForwardedNoConflict(c.base, c.round.forwards, h);
    var m :| m in c.round.forwards;
    assert IsForward(c.base, m);
    FullyForwardedAgrees(c.base, c.round.forwards, h, m);
    FullyForwardedAgrees(c.base, c.round.forwards, h', m);
  }

  /** All votes for the leader's block that are around in a view name the same hash. */
  lemma VotesAgree(cfg: Config, states: seq<System>, actions: seq<Action>, k: nat, x: Msg, y: Msg)
    requires IsRun(cfg, states, actions) && k < |states|
    requires x in states[k].pool && IsBallot(states[k].base, x) && y in states[k].pool && IsBallot(states[k].base, y)
    ensures x.v.hash == y.v.hash
  {
    RunGood(cfg, states, actions, k);
    RoundVotesAgree(cfg, states[k], x, y);
  }

  lemma RoundVotesAgree(cfg: Config, s: System, x: Msg, y: Msg)
    requires Good(cfg, s) && x in s.pool && IsBallot(s.base, x) && y in s.pool && IsBallot(s.base, y)
    ensures x.v.hash == y.v.hash
  {
    hide Inv;
    hide History;
    hide BaseOk;
    var c := SceneOf(cfg, s);
    BaseHolds(cfg, s);
    BaseIsReady(s.base);
    assert x in c.round.votes && y in c.round.votes;
    OneFullBlock(c, x.v.hash, y.v.hash);
  }

  /** What a node's certificate for the current view is about. */
  ghost predicate CertKind(c: Scene, cert: Option<Certificate>) {
    Whole(cert.Some? ==>
      || (cert.value.hash == BlockHash(RoundEmptyBlock(c.base)) && (c.withheld || c.round.equivocation))
      || FullyForwarded(c.base, c.round.forwards, cert.value.hash))
  }

  lemma NodeCertKind(c: Scene, began: bool, id: nat, r: Replica, h: Heard)
    requires NodeOk(c, began, id, r, h)
    ensures CertKind(c, Lookup(r.ledger.certs, c.base.view))
  {}

  lemma CertKindsAgree(c: Scene, p: Option<Certificate>, q: Option<Certificate>)
    requires RoundOk(c) && c.base.leader < c.base.n && CertKind(c, p) && CertKind(c, q) && p.Some? && q.Some?
    ensures p.value.hash == q.value.hash
  {
    var h, h' := p.value.hash, q.value.hash;
    if FullyForwarded(c.base, c.round.forwards, h) {
      OneFullBlock(c, h, h);
    }
    if FullyForwarded(c.base, c.round.forwards, h') {
      OneFullBlock(c, h', h');
      if FullyForwarded(c.base, c.round.forwards, h) {
        OneFullBlock(c, h, h');
      }
    }
  }

  lemma NodesCertify(cfg: Config, s: System, i: nat, j: nat)
    requires Good(cfg, s) && i in cfg.correct && j in cfg.correct
    ensures i in s.reps && j in s.reps
    ensures s.base.view in s.reps[i].ledger.certs && s.base.view in s.reps[j].ledger.certs ==>
              s.reps[i].ledger.certs[s.base.view].hash == s.reps[j].ledger.certs[s.base.view].hash
  {
    hide Inv;
    hide History;
    hide BaseOk;
    hide NodeOk;
    hide Handles;
    hide RoundOk;
    hide CertKind;
    BaseHolds(cfg, s);
    BaseIsReady(s.base);
    NodeHandles(cfg, s, i);
    NodeHandles(cfg, s, j);
    var c, p, q := SceneOf(cfg, s), s.reps[i], s.reps[j];
    NodeCertKind(c, i in s.started, i, p, Hear(s.base, s.seen[i]));
    NodeCertKind(c, j in s.started, j, q, Hear(s.base, s.seen[j]));
    if s.base.view in p.ledger.certs && s.base.view in q.ledger.certs {
      CertKindsAgree(c, Lookup(p.ledger.certs, s.base.view), Lookup(q.ledger.certs, s.base.view));
    }
  }

  /** Two correct nodes that hold a certificate for the view they are in, at whatever moment they
      got it, hold it for the same block. */
  lemma CertificatesAgree(cfg: Config, states: seq<System>, actions: seq<Action>, k: nat, i: nat, j: nat)
    requires IsRun(cfg, states, actions) && k < |states| && i in cfg.correct && j in cfg.correct
    ensures i in states[k].reps && j in states[k].reps
    ensures var p, q := states[k].reps[i], states[k].reps[j];
            p.view in p.ledger.certs && q.view in q.ledger.certs ==>
              p.ledger.certs[p.view].hash == q.ledger.certs[q.view].hash
  {
    RunGood(cfg, states, actions, k);
    NodesCertify(cfg, states[k], i, j);
    NodeFollows(cfg, states[k], i);
    NodeFollows(cfg, states[k], j);
  }

  lemma TableOfView(b: Base)
    requires BaseOk(b)
    ensures var w := TableAt(b.reputation, b.view);
            w.Keys == Nodes(b.n) && NonNegative(w) && 0 in w && w[0] > 0.0
  {
    assert 0 in Nodes(b.n);
    assert b.view in b.reputation && GoodTable(b.n, b.reputation[b.view]);
  }

  lemma NodeCertMade(c: Scene, began: bool, id: nat, r: Replica, h: Heard)
    requires NodeOk(c, began, id, r, h) && c.base.view in r.ledger.certs
    requires r.ledger.certs[c.base.view].hash != BlockHash(RoundEmptyBlock(c.base))
    ensures MadeOfVotes(c.base.n, TableAt(c.base.reputation, c.base.view), r.ledger.certs[c.base.view])
  {}

  lemma NodesShareSigner(cfg: Config, s: System, i: nat, j: nat)
    requires Good(cfg, s) && i in cfg.correct && j in cfg.correct && i in s.reps && j in s.reps
    requires s.base.view in s.reps[i].ledger.certs && s.base.view in s.reps[j].ledger.certs
    requires s.reps[i].ledger.certs[s.base.view].hash != BlockHash(RoundEmptyBlock(s.base))
    ensures var w, c, c' := TableAt(s.base.reputation, s.base.view), s.reps[i].ledger.certs[s.base.view],
                            s.reps[j].ledger.certs[s.base.view];
            && (exists id :: id in c.ids && id in c'.ids)
            && (Sum(w, Nodes(s.base.n) - cfg.correct) <= Half(w) ==> exists id :: id in c.ids && id in cfg.correct)
  {
    hide Inv;
    hide History;
    hide BaseOk;
    hide NodeOk;
    hide Handles;
    hide MadeOfVotes;
    NodesCertify(cfg, s, i, j);
    NodeHandles(cfg, s, i);
    NodeHandles(cfg, s, j);
    NodeCertMade(SceneOf(cfg, s), i in s.started, i, s.reps[i], Hear(s.base, s.seen[i]));
    NodeCertMade(SceneOf(cfg, s), j in s.started, j, s.reps[j], Hear(s.base, s.seen[j]));
    BaseHolds(cfg, s);
    TableOfView(s.base);
    var w, c, c' := TableAt(s.base.reputation, s.base.view), s.reps[i].ledger.certs[s.base.view],
                    s.reps[j].ledger.certs[s.base.view];
    CertificatesShareSigner(s.base.n, w, c, c', Nodes(s.base.n) - cfg.correct);
    SignersKnown(s.base.n, w, c);
  }

  lemma SignersKnown(n: nat, w: Table, c: Certificate)
    requires MadeOfVotes(n, w, c)
    ensures forall id :: id in c.ids ==> id in Nodes(n)
  {
    assert forall id :: id in c.ids ==> id in Elements(c.ids);
  }

  /** Two correct nodes' certificates of the view they are in, unless they are for the empty block,
      share a signer; and if the faulty nodes hold at most half of the reputation, each is signed
      by a correct node. */
  lemma ViewCertificatesShareSigner(cfg: Config, states: seq<System>, actions: seq<Action>, k: nat, i: nat, j: nat)
    requires IsRun(cfg, states, actions) && k < |states| && i in cfg.correct && j in cfg.correct
    requires i in states[k].reps && j in states[k].reps
    requires states[k].reps[i].view in states[k].reps[i].ledger.certs
    requires states[k].reps[j].view in states[k].reps[j].ledger.certs
    ensures var p, q := states[k].reps[i], states[k].reps[j];
            var w, c, c' := TableAt(p.reputation, p.view), p.ledger.certs[p.view], q.ledger.certs[q.view];
            c.hash != BlockHash(RoundEmptyBlock(states[k].base)) ==>
              && (exists id :: id in c.ids && id in c'.ids)
              && (Sum(w, Nodes(p.n) - cfg.correct) <= Half(w) ==> exists id :: id in c.ids && id in cfg.correct)
  {
    hide Good;
    RunGood(cfg, states, actions, k);
    hide IsRun;
    NodeFollows(cfg, states[k], i);
    NodeFollows(cfg, states[k], j);
    SameTableNow(cfg, states[k], i);
    if states[k].reps[i].ledger.certs[states[k].reps[i].view].hash != BlockHash(RoundEmptyBlock(states[k].base)) {
      NodesShareSigner(cfg, states[k], i, j);
    }
  }

  lemma SameTableNow(cfg: Config, s: System, i: nat)
    requires Good(cfg, s) && i in cfg.correct
    ensures i in s.reps && TableAt(s.reps[i].reputation, s.base.view) == TableAt(s.base.reputation, s.base.view)
  {
    hide Inv;
    hide BaseOk;
    NodeFollows(cfg, s, i);
    BaseHolds(cfg, s);
    BaseCovers(s.base);
  }

  // What the end of a round brings

  lemma ClosedNode(cfg: Config, s: System, a: Action, s': System, j: nat)
    requires Steps(cfg, s, a, s') && a.Close? && j in cfg.correct
    ensures j in s.reps && j in s'.reps && s.reps[j].n > 0 && s'.reps[j] == Callback(cfg.f, s.reps[j])
  {}

  lemma CloseEnds(cfg: Config, s: System, a: Action, s': System)
    requires Good(cfg, s) && Steps(cfg, s, a, s') && a.Close?
    ensures Ends(cfg, s)
  {
    hide Inv;
    hide History;
    CloseEnabled(cfg, s, a.id, a.withheld);
  }

  /** The leader is credited exactly when its own block is committed, and charged exactly with
      what it did. */
  lemma RoundRecorded(c: Scene)
    requires Ready(c.base)
    ensures var b, log := c.base, NextLog(c);
            && (Marked(log.proposals, b.view, b.leader) <==> !EmptyRound(c))
            && (Marked(log.withheld, b.view, b.leader) <==> c.withheld)
            && (Marked(log.equivocations, b.view, b.leader) <==> c.round.equivocation)
  {}

  /** What a node has after a round that committed. */
  ghost predicate Committed(c: Scene, r: Replica) {
    var b := c.base;
    Whole(
      && r.view == b.view + 1 && b.view in r.ledger.byHeight && b.view in r.ledger.certs
      && r.ledger.byHeight[b.view] == RoundBlock(c) && r.ledger.certs[b.view].hash == BlockHash(RoundBlock(c))
      && (Marked(r.log.proposals, b.view, b.leader) <==> !EmptyRound(c))
      && (Marked(r.log.withheld, b.view, b.leader) <==> c.withheld)
      && (Marked(r.log.equivocations, b.view, b.leader) <==> c.round.equivocation))
  }

  lemma NextCommitted(f: real -> real, c: Scene, r: Replica)
    requires Ready(c.base) && BaseOf(r) == NextBase(f, c)
    ensures Committed(c, r)
  {
    RoundRecorded(c);
    assert c.base.view in HashesOf(r.ledger.certs);
  }

  lemma RoundCommits(cfg: Config, s: System, j: nat)
    requires Ends(cfg, s) && j in cfg.correct && Commits(SceneOf(cfg, s))
    ensures j in s.reps && s.reps[j].n > 0 && Committed(SceneOf(cfg, s), Callback(cfg.f, s.reps[j]))
  {
    BaseIsReady(s.base);
    NodeAdvances(cfg, s, j);
    NextCommitted(cfg.f, SceneOf(cfg, s), Callback(cfg.f, s.reps[j]));
  }

  /** The node has moved on with the round's block, or is still in the same view. */
  ghost predicate Closes(c: Scene, r: Replica) {
    Whole(if Commits(c) then Committed(c, r) else r.view == c.base.view)
  }

  lemma RoundCloses(cfg: Config, s: System, j: nat)
    requires Ends(cfg, s) && j in cfg.correct
    ensures j in s.reps && s.reps[j].n > 0 && Closes(SceneOf(cfg, s), Callback(cfg.f, s.reps[j]))
  {
    if Commits(SceneOf(cfg, s)) {
      RoundCommits(cfg, s, j);
    } else {
      NodeStalls(cfg, s, j);
    }
  }

  lemma RoundClosed(cfg: Config, s: System, a: Action, s': System, j: nat)
    requires Good(cfg, s) && Steps(cfg, s, a, s') && a.Close? && j in cfg.correct
    ensures j in s.reps && j in s'.reps && s.base.view == s.reps[j].view && s.base.leader == s.reps[j].leader
    ensures Closes(SceneOf(cfg, s), s'.reps[j])
  {
    CloseEnds(cfg, s, a, s');
    NodeFollows(cfg, s, j);
    ClosedNode(cfg, s, a, s', j);
    RoundCloses(cfg, s, j);
  }

  /** At the end of a round either every correct node stays in its view, or every one moves to
      the next with the same block: an empty one if the leader withheld or equivocated, else the
      one all non-leaders forwarded. */
  lemma RoundOutcome(cfg: Config, states: seq<System>, actions: seq<Action>, k: nat, j: nat)
    requires IsRun(cfg, states, actions) && k < |actions| && actions[k].Close? && j in cfg.correct
    ensures j in states[k].reps && j in states[k + 1].reps
    ensures var c, r, r' := SceneOf(cfg, states[k]), states[k].reps[j], states[k + 1].reps[j];
            c.base.view == r.view && c.base.leader == r.leader && Closes(c, r')
  {
    RunGood(cfg, states, actions, k);
    RoundClosed(cfg, states[k], actions[k], states[k + 1], j);
  }

  lemma BlockForwarded(c: Scene, id: nat, r: Replica)
    requires Settled(c, id, r) && Commits(c) && !EmptyRound(c)
    ensures FullyForwarded(c.base, c.round.forwards, BlockHash(RoundBlock(c)))
  {
    CommitKinds(c, id, r);
    var m :| m in c.round.forwards;
    assert IsForward(c.base, m);
    FullIsFullyForwarded(c.base, c.round.forwards, m);
    TheBlock(c, m);
  }

  lemma EndForwarded(cfg: Config, s: System, j: nat)
    requires Ends(cfg, s) && j in cfg.correct && Commits(SceneOf(cfg, s)) && !EmptyRound(SceneOf(cfg, s))
    ensures var c := SceneOf(cfg, s); FullyForwarded(c.base, c.round.forwards, BlockHash(RoundBlock(c)))
  {
    NodeSettled(cfg, s, j);
    BlockForwarded(SceneOf(cfg, s), j, s.reps[j]);
  }

  lemma StepForwarded(cfg: Config, s: System, a: Action, s': System, j: nat)
    requires Good(cfg, s) && Steps(cfg, s, a, s') && a.Close? && j in cfg.correct
    ensures var c := SceneOf(cfg, s);
            Commits(c) && !EmptyRound(c) ==> FullyForwarded(c.base, c.round.forwards, BlockHash(RoundBlock(c)))
  {
    CloseEnds(cfg, s, a, s');
    if Commits(SceneOf(cfg, s)) && !EmptyRound(SceneOf(cfg, s)) {
      EndForwarded(cfg, s, j);
    }
  }

  /** A block other than the empty one is committed only if every non-leader forwarded it. */
  lemma CommitNeedsForwards(cfg: Config, states: seq<System>, actions: seq<Action>, k: nat, j: nat)
    requires IsRun(cfg, states, actions) && k < |actions| && actions[k].Close? && j in cfg.correct
    ensures var c := SceneOf(cfg, states[k]);
            Commits(c) && !EmptyRound(c) ==> FullyForwarded(c.base, c.round.forwards, BlockHash(RoundBlock(c)))
  {
    RunGood(cfg, states, actions, k);
    StepForwarded(cfg, states[k], actions[k], states[k + 1], j);
  }

  // Progress

  /** Every faulty non-leader has forwarded something. */
  ghost predicate FaultyForward(cfg: Config, s: System) {
    forall id: nat :: id < s.base.n && id != s.base.leader && id !in cfg.correct
        ==> id in Senders(Hear(s.base, s.pool).forwards)
  }

  lemma ForwardFacts(cfg: Config, s: System, id: nat)
    requires Inv(cfg, s) && CorrectLeader(cfg, s) && s.own.Some? && s.pending == {}
    requires id in cfg.correct && id != s.base.leader
    ensures id in s.raw && id < s.base.n && s.own == Some(s.raw[id].block)
    ensures AcceptableAt(s.base, s.raw[id]) && PropMsg(Forwarded(id, s.raw[id])) in s.pool
  {
    hide RoundOk;
    hide PoolOk;
    hide NodesOk;
    hide RawFits;
    hide BaseOk;
    hide AcceptableAt;
    assert id in Nodes(cfg.n);
  }

  lemma CorrectForwards(cfg: Config, s: System, id: nat)
    requires Good(cfg, s) && CorrectLeader(cfg, s) && s.own.Some? && s.pending == {}
    requires id in cfg.correct && id != s.base.leader
    ensures ForwardOf(Hear(s.base, s.pool).forwards, id, BlockHash(s.own.value))
  {
    hide Inv;
    hide History;
    hide AcceptableAt;
    ForwardFacts(cfg, s, id);
    OwnForwardCounts(s.base, s.raw[id], id, s.pool);
  }

  lemma OwnForwardCounts(b: Base, p: Proposal, id: nat, pool: set<Msg>)
    requires AcceptableAt(b, p) && id < b.n && id != b.leader && PropMsg(Forwarded(id, p)) in pool
    ensures ForwardOf(Hear(b, pool).forwards, id, HashOf(p))
  {}

  lemma FaultyForwards(c: Scene, id: nat)
    requires RoundOk(c) && c.correctLeader && c.own.Some? && id in Senders(c.round.forwards)
    ensures ForwardOf(c.round.forwards, id, BlockHash(c.own.value))
  {}

  /** The leader's block has gone all the way round. */
  lemma AllForward(cfg: Config, s: System)
    requires Good(cfg, s) && CorrectLeader(cfg, s) && s.own.Some? && s.pending == {} && s.base.n >= 2
             && FaultyForward(cfg, s)
    ensures FullyForwarded(s.base, Hear(s.base, s.pool).forwards, BlockHash(s.own.value))
  {
    forall id: nat | id < s.base.n && id != s.base.leader
      ensures ForwardOf(Hear(s.base, s.pool).forwards, id, BlockHash(s.own.value))
    {
      if id in cfg.correct {
        CorrectForwards(cfg, s, id);
      } else {
        FaultyForwards(SceneOf(cfg, s), id);
      }
    }
  }

  lemma AllVote(cfg: Config, s: System)
    requires Ends(cfg, s) && Full(s.base.n, Hear(s.base, s.pool).forwards)
    ensures cfg.correct <= Voters(Hear(s.base, s.pool).votes)
  {
    forall i | i in cfg.correct
      ensures i in Voters(Hear(s.base, s.pool).votes)
    {
      NodeSettled(cfg, s, i);
    }
  }

  lemma OwnBlockCommitted(c: Scene)
    requires Ready(c.base) && RoundOk(c) && c.correctLeader && c.own.Some?
    requires FullyForwarded(c.base, c.round.forwards, BlockHash(c.own.value))
    ensures !EmptyRound(c) && RoundBlock(c) == c.own.value && Full(c.base.n, c.round.forwards)
  {
    NoConflictByCorrect(c);
    FullyForwardedIsFull(c.base, c.round.forwards, BlockHash(c.own.value));
    var m :| m in c.round.forwards;
    assert IsForward(c.base, m);
    TheBlock(c, m);
  }

  // What a correct leader has proposed

  lemma LeaderKnowsOwn(cfg: Config, s: System)
    requires Good(cfg, s) && CorrectLeader(cfg, s)
    ensures s.base.leader in s.reps
    ensures var first := Lookup(s.reps[s.base.leader].proposalByView, s.base.view);
            s.own == if first.Some? then Some(first.value.block) else None
  {
    NodeHandles(cfg, s, s.base.leader);
  }

  /** Before a round starts the leader is at an uncertified head exactly when it has proposed. */
  lemma LeaderHead(c: Scene, id: nat, r: Replica, h: Heard)
    requires Handles(c, false, id, r, h) && id == c.base.leader && c.base.view !in r.ledger.certs
    ensures c.own.Some? <==> r.ledger.head !in r.ledger.certs
  {
    NoConflictByCorrect(c);
  }

  lemma ProposesOwn(cfg: Config, s: System, i: nat, cmds: seq<Command>)
    requires i in s.reps && s.reps[i].id == i == s.reps[i].leader && !s.withheld
    requires s.reps[i].ledger.head in s.reps[i].ledger.certs
    ensures var own := Begun(cfg, s, i, Some(cmds)).own; own.Some? && own.value.txs == cmds
  {
    var r := s.reps[i];
    var p := CandidateProposal(i, r.leader, cmds, r.ledger.certs[r.ledger.head], r.ledger.head + 1, "");
    StartProposing(r, cmds, p);
    BegunProposing(cfg, s, i, Some(cmds), Proposing(r, p), p);
  }

  lemma BeginOwn(cfg: Config, s: System, i: nat, cmds: Option<seq<Command>>)
    requires Inv(cfg, s) && CorrectLeader(cfg, s) && i in cfg.correct && i in s.reps && i !in s.started
    ensures var own := Begun(cfg, s, i, cmds).own;
            if s.own.None? && i == s.base.leader && cmds.Some? then own.Some? && own.value.txs == cmds.value
            else own == s.own
  {
    NodeHandles(cfg, s, i);
    hide Inv;
    hide BaseOk;
    var c, r, h := SceneOf(cfg, s), s.reps[i], Hear(s.base, s.seen[i]);
    if i == s.base.leader {
      LeaderHead(c, i, r, h);
    }
    if s.own.None? && i == s.base.leader && cmds.Some? {
      ProposesOwn(cfg, s, i, cmds.value);
    } else {
      StartsQuietly(c, i, r, h, cmds);
    }
  }

  lemma OthersKeepOwn(cfg: Config, s: System, a: Action)
    requires Enabled(cfg, s, a) && !a.Begin? && !a.Close?
    ensures Apply(cfg, s, a).own == s.own
  {}

  lemma CloseKeepsOwn(cfg: Config, s: System, a: Action)
    requires Enabled(cfg, s, a) && a.Close?
    ensures var s' := Apply(cfg, s, a); s'.base.view == s.base.view ==> s'.base == s.base && s'.own == s.own
  {
    CloseEnabled(cfg, s, a.id, a.withheld);
  }

  lemma StepOwn(cfg: Config, s: System, a: Action, s': System)
    requires Good(cfg, s) && Steps(cfg, s, a, s') && CorrectLeader(cfg, s)
    ensures s'.base.view == s.base.view && s.own.Some? ==> s'.base == s.base && s'.own == s.own
    ensures a.Begin? && a.id == s.base.leader && a.cmds.Some? ==>
              && s'.base == s.base && s'.own.Some?
              && (s.own.None? ==> s'.own.value.txs == a.cmds.value)
  {
    hide Inv;
    hide History;
    if a.Begin? {
      BeginEnabled(cfg, s, a.id, a.cmds);
      BeginOwn(cfg, s, a.id, a.cmds);
      BaseUnchanged(cfg, s, a);
    } else if a.Close? {
      CloseKeepsOwn(cfg, s, a);
    } else {
      OthersKeepOwn(cfg, s, a);
      BaseUnchanged(cfg, s, a);
    }
  }

  /** While the view lasts, `k` is the block its correct leader has proposed. */
  ghost predicate Stands(cfg: Config, b: Base, k: Block, s: System) {
    Whole(
      && Good(cfg, s) && s.base.view >= b.view
      && (s.base.view == b.view ==> s.base == b && s.own == Some(k)))
  }

  lemma StepStands(cfg: Config, b: Base, k: Block, s: System, a: Action, s': System)
    requires Steps(cfg, s, a, s') && b.leader in cfg.correct
    ensures Stands(cfg, b, k, s) ==> Stands(cfg, b, k, s')
  {
    hide Good;
    hide Steps;
    if Stands(cfg, b, k, s) {
      StepKeepsGood(cfg, s, a, s');
      if s.base.view == b.view {
        StepOwn(cfg, s, a, s');
      }
    }
  }

  /** In the run's l-th step the leader of a view is started with commands, and the k-th state is
      still in that view. */
  ghost predicate HasProposed(states: seq<System>, actions: seq<Action>, l: nat, k: nat, cmds: seq<Command>) {
    && |states| == |actions| + 1 && l < k < |states| && states[l].base.view == states[k].base.view
    && actions[l] == Begin(states[l].base.leader, Some(cmds))
  }

  lemma ProposalMade(cfg: Config, states: seq<System>, actions: seq<Action>, l: nat, cmds: seq<Command>)
    returns (k: Block)
    requires IsRun(cfg, states, actions) && l < |actions|
    requires actions[l] == Begin(states[l].base.leader, Some(cmds))
    ensures Good(cfg, states[l]) && CorrectLeader(cfg, states[l])
    ensures Stands(cfg, states[l].base, k, states[l + 1]) && (states[l].own.None? ==> k.txs == cmds)
  {
    hide Good;
    RunGood(cfg, states, actions, l);
    assert Steps(cfg, states[l], actions[l], states[l + 1]);
    BeginEnabled(cfg, states[l], states[l].base.leader, Some(cmds));
    StepOwn(cfg, states[l], actions[l], states[l + 1]);
    StepKeepsGood(cfg, states[l], actions[l], states[l + 1]);
    k := states[l + 1].own.value;
  }

  lemma ProposalStands(cfg: Config, states: seq<System>, actions: seq<Action>, l: nat, k: nat, cmds: seq<Command>)
    requires IsRun(cfg, states, actions) && HasProposed(states, actions, l, k, cmds)
    ensures Good(cfg, states[l]) && CorrectLeader(cfg, states[l])
    ensures Good(cfg, states[k]) && states[k].base == states[l].base && states[k].own.Some?
    ensures states[l].own.None? ==> states[k].own.value.txs == cmds
  {
    hide Good;
    hide Steps;
    var b := states[l].base;
    var x := ProposalMade(cfg, states, actions, l, cmds);
    forall i | l + 1 < i < |states|
      ensures Stands(cfg, b, x, states[i - 1]) ==> Stands(cfg, b, x, states[i])
    {
      StepStands(cfg, b, x, states[i - 1], actions[i - 1], states[i]);
    }
    Along(states, s => Stands(cfg, b, x, s), l + 1, k);
  }

  // When a proposal is committed

  /** The others have carried a proposal: every faulty non-leader has forwarded, and the correct
      nodes together with whoever has voted hold more than half of the reputation. */
  ghost predicate Carried(cfg: Config, s: System) {
    && s.base.n >= 2 && FaultyForward(cfg, s)
    && Outweighs(TableAt(s.base.reputation, s.base.view), cfg.correct + Voters(Hear(s.base, s.pool).votes))
  }

  lemma CarriedForwarded(cfg: Config, s: System)
    requires Good(cfg, s) && Ends(cfg, s) && CorrectLeader(cfg, s) && s.own.Some? && Carried(cfg, s)
    ensures var c := SceneOf(cfg, s);
            !EmptyRound(c) && RoundBlock(c) == s.own.value && Full(c.base.n, c.round.forwards)
  {
    BaseIsReady(s.base);
    AllForward(cfg, s);
    OwnBlockCommitted(SceneOf(cfg, s));
  }

  lemma Absorbed(s: set<nat>, t: set<nat>)
    requires s <= t
    ensures s + t == t
  {}

  lemma CarriedCommits(cfg: Config, s: System)
    requires Good(cfg, s) && Ends(cfg, s) && CorrectLeader(cfg, s) && s.own.Some? && Carried(cfg, s)
    ensures var c := SceneOf(cfg, s); Commits(c) && !EmptyRound(c) && RoundBlock(c) == s.own.value
  {
    hide Good;
    hide Ends;
    CarriedForwarded(cfg, s);
    AllVote(cfg, s);
    Absorbed(cfg.correct, Voters(Hear(s.base, s.pool).votes));
  }

  lemma ForwardedByFaulty(cfg: Config, s: System, h: Hash)
    requires FullyForwarded(s.base, Hear(s.base, s.pool).forwards, h)
    ensures s.base.n >= 2 && FaultyForward(cfg, s)
  {
    forall id: nat | id < s.base.n && id != s.base.leader && id !in cfg.correct
      ensures id in Senders(Hear(s.base, s.pool).forwards)
    {
      assert ForwardOf(Hear(s.base, s.pool).forwards, id, h);
    }
  }

  lemma OwnRoundNotEmpty(cfg: Config, s: System)
    requires Inv(cfg, s) && CorrectLeader(cfg, s)
    ensures var c := SceneOf(cfg, s); !c.withheld && !Conflict(c.round.forwards) && !c.round.equivocation
  {
    NoConflictByCorrect(SceneOf(cfg, s));
  }

  lemma CommitIsCarried(cfg: Config, s: System)
    requires Ends(cfg, s) && CorrectLeader(cfg, s) && Commits(SceneOf(cfg, s))
    ensures Carried(cfg, s)
  {
    hide Inv;
    hide Quiet;
    var c, j := SceneOf(cfg, s), s.base.leader;
    OwnRoundNotEmpty(cfg, s);
    EndForwarded(cfg, s, j);
    ForwardedByFaulty(cfg, s, BlockHash(RoundBlock(c)));
    NodeSettled(cfg, s, j);
    CommitKinds(c, j, s.reps[j]);
    AllVote(cfg, s);
    Absorbed(cfg.correct, Voters(c.round.votes));
  }

  lemma CommitsIffCarried(cfg: Config, s: System)
    requires Good(cfg, s) && Ends(cfg, s) && CorrectLeader(cfg, s) && s.own.Some?
    ensures var c := SceneOf(cfg, s);
            && (Commits(c) <==> Carried(cfg, s))
            && (Commits(c) ==> !EmptyRound(c) && RoundBlock(c) == s.own.value)
  {
    hide Good;
    hide Ends;
    if Carried(cfg, s) {
      CarriedCommits(cfg, s);
    }
    if Commits(SceneOf(cfg, s)) {
      CommitIsCarried(cfg, s);
    }
  }

  /** What the round brought a node: the leader's block with a certificate for it and the leader's
      credit, or nothing. */
  ghost predicate Served(view: nat, leader: nat, k: Block, carried: bool, r: Replica) {
    if carried then
      && r.view == view + 1 && view in r.ledger.byHeight && view in r.ledger.certs
      && r.ledger.byHeight[view] == k && r.ledger.certs[view].hash == BlockHash(k)
      && Marked(r.log.proposals, view, leader)
    else r.view == view
  }

  lemma RoundServed(cfg: Config, s: System, a: Action, s': System, j: nat)
    requires Good(cfg, s) && Steps(cfg, s, a, s') && a.Close? && CorrectLeader(cfg, s) && s.own.Some?
    requires j in cfg.correct
    ensures j in s'.reps && Served(s.base.view, s.base.leader, s.own.value, Carried(cfg, s), s'.reps[j])
  {
    hide Good;
    hide Ends;
    hide Steps;
    CloseEnds(cfg, s, a, s');
    CommitsIffCarried(cfg, s);
    RoundClosed(cfg, s, a, s', j);
  }

  /** Round progress: once a correct leader has been started with commands, the end of a round in
      its view takes every correct node to the next view with the leader's block if every faulty
      non-leader has forwarded and the correct nodes together with the other voters hold more than
      half of the reputation, whatever the order of deliveries; and otherwise it takes none there.
      The block holds the commands of the first such start. */
  lemma RoundProgress(cfg: Config, states: seq<System>, actions: seq<Action>, l: nat, k: nat, cmds: seq<Command>,
                      j: nat)
    requires IsRun(cfg, states, actions) && HasProposed(states, actions, l, k, cmds)
    requires k < |actions| && actions[k].Close? && j in cfg.correct
    ensures var id, v := states[k].base.leader, states[k].base.view;
            && id in states[l].reps && id in states[k].reps && v in states[k].reps[id].proposalByView
            && (v !in states[l].reps[id].proposalByView ==> states[k].reps[id].proposalByView[v].block.txs == cmds)
            && j in states[k].reps && states[k].reps[j].view == v && states[k].reps[j].leader == id
            && j in states[k + 1].reps
            && Served(v, id, states[k].reps[id].proposalByView[v].block, Carried(cfg, states[k]), states[k + 1].reps[j])
  {
    hide Good;
    hide Steps;
    ProposalStands(cfg, states, actions, l, k, cmds);
    LeaderKnowsOwn(cfg, states[l]);
    LeaderKnowsOwn(cfg, states[k]);
    NodeFollows(cfg, states[k], j);
    RoundServed(cfg, states[k], actions[k], states[k + 1], j);
  }

  // Rounds in which everybody is correct

  lemma WholeOutweighs(w: Table, s: set<nat>, id: nat)
    requires NonNegative(w) && w.Keys <= s && id in w && w[id] > 0.0
    ensures Outweighs(w, s)
  {
    SumAt(w, w.Keys, id);
    SumNonNegative(w, w.Keys - {id});
    SumMonotone(w, w.Keys, s);
  }

  /** Without faulty nodes every round in which something was proposed commits it. */
  lemma AllCorrectCarry(cfg: Config, s: System)
    requires Good(cfg, s) && cfg.correct == Nodes(cfg.n) && cfg.n >= 2
    ensures Carried(cfg, s)
  {
    hide Inv;
    hide BaseOk;
    BaseHolds(cfg, s);
    TableOfView(s.base);
    WholeOutweighs(TableAt(s.base.reputation, s.base.view), cfg.correct + Voters(Hear(s.base, s.pool).votes), 0);
  }

  // A stalled view

  lemma HeavierStill(w: Table, s: set<nat>, t: set<nat>)
    requires NonNegative(w) && s <= t && Outweighs(w, s)
    ensures Outweighs(w, t)
  {
    SumMonotone(w, s, t);
  }

  lemma CarriedBack(cfg: Config, s: System, s': System)
    requires BaseOk(s.base) && Unaided(cfg, s, s') && Carried(cfg, s')
    ensures Carried(cfg, s)
  {
    hide BaseOk;
    TableOfView(s.base);
    HeavierStill(TableAt(s.base.reputation, s.base.view), cfg.correct + BallotVoters(s'),
                 cfg.correct + BallotVoters(s));
  }

  /** The view of `s` goes on without the faulty nodes' help. */
  ghost predicate Stuck(cfg: Config, s: System, k: Block, s': System) {
    Whole(Good(cfg, s') && Unaided(cfg, s, s') && s'.own == Some(k))
  }

  lemma StalledClose(cfg: Config, s: System, a: Action, s': System)
    requires Good(cfg, s) && Steps(cfg, s, a, s') && a.Close? && CorrectLeader(cfg, s) && s.own.Some?
    requires !Carried(cfg, s)
    ensures s'.base.view == s.base.view
  {
    hide Good;
    hide Steps;
    hide Carried;
    StepKeepsGood(cfg, s, a, s');
    RoundServed(cfg, s, a, s', s.base.leader);
    NodeFollows(cfg, s', s.base.leader);
  }

  lemma StuckStep(cfg: Config, s: System, k: Block, s': System, a: Action, s'': System)
    requires BaseOk(s.base) && CorrectLeader(cfg, s) && !Carried(cfg, s)
    requires Steps(cfg, s', a, s'') && Idle(s', a)
    ensures Stuck(cfg, s, k, s') ==> Stuck(cfg, s, k, s'')
  {
    hide Good;
    hide Steps;
    hide Carried;
    hide Idle;
    hide BaseOk;
    if Stuck(cfg, s, k, s') {
      if Carried(cfg, s') {
        CarriedBack(cfg, s, s');
      }
      StepKeepsGood(cfg, s', a, s'');
      if a.Close? {
        StalledClose(cfg, s', a, s'');
      } else {
        StepBase(cfg, s', a, s'');
      }
      StepOwn(cfg, s', a, s'');
      StepUnaided(cfg, s', a, s'');
      UnaidedOn(cfg, s, s', s'');
    }
  }

  lemma StepBase(cfg: Config, s: System, a: Action, s': System)
    requires Steps(cfg, s, a, s') && !a.Close?
    ensures s'.base == s.base
  {
    BaseUnchanged(cfg, s, a);
  }

  lemma StuckOn(cfg: Config, states: seq<System>, actions: seq<Action>, k: nat, x: nat)
    requires IsRun(cfg, states, actions) && k <= x < |states|
    requires CorrectLeader(cfg, states[k]) && states[k].own.Some? && !Carried(cfg, states[k])
    requires forall y :: k <= y < x ==> Idle(states[y], actions[y])
    ensures Stuck(cfg, states[k], states[k].own.value, states[x])
  {
    hide Good;
    hide Steps;
    hide Carried;
    hide Idle;
    hide Unaided;
    hide BaseOk;
    var s, b := states[k], states[k].own.value;
    RunGood(cfg, states, actions, k);
    GoodBase(cfg, s);
    PoolUnaidedSame(cfg, s, s);
    var upTo := states[..x + 1];
    forall i | k < i < |upTo|
      ensures Stuck(cfg, s, b, upTo[i - 1]) ==> Stuck(cfg, s, b, upTo[i])
    {
      StuckStep(cfg, s, b, states[i - 1], actions[i - 1], states[i]);
    }
    Along(upTo, s' => Stuck(cfg, s, b, s'), k, x);
  }

  lemma GoodBase(cfg: Config, s: System)
    requires Good(cfg, s)
    ensures BaseOk(s.base)
  {}

  /** A correct leader proposes once in a view. If the round then ends without a commit, nobody
      ever leaves the view, however many rounds are run in it, unless a faulty node still forwards
      or votes. */
  lemma StalledViewStays(cfg: Config, states: seq<System>, actions: seq<Action>, l: nat, k: nat, cmds: seq<Command>,
                         j: nat, x: nat)
    requires IsRun(cfg, states, actions) && HasProposed(states, actions, l, k, cmds)
    requires k < |actions| && actions[k].Close? && j in cfg.correct && k < x < |states|
    requires j in states[k].reps && j in states[k + 1].reps && states[k + 1].reps[j].view == states[k].reps[j].view
    requires forall y :: k <= y < x ==> Idle(states[y], actions[y])
    ensures states[x].base.view == states[k].base.view
    ensures forall i :: i in cfg.correct ==> i in states[x].reps && states[x].reps[i].view == states[k].reps[j].view
  {
    hide Good;
    hide Steps;
    hide Carried;
    hide Idle;
    RoundProgress(cfg, states, actions, l, k, cmds, j);
    ProposalStands(cfg, states, actions, l, k, cmds);
    StuckOn(cfg, states, actions, k, x);
    forall i | i in cfg.correct
      ensures i in states[x].reps && states[x].reps[i].view == states[x].base.view
    {
      NodeFollows(cfg, states[x], i);
    }
  }
}
