/** Where the blocks in a ledger come from. Every block below a correct node's view was either
    proposed in its view - by a correct leader, with exactly the commands it was started with, or by
    a faulty one, which sent it to the node under its signature - or it is the empty block of a view
    whose leader is on record for withholding or equivocation, and has no commands. */
module Provenance {
  import opened Messages
  import opened Weights
  import opened Tallies
  import opened Reputation
  import opened Replicas
  import opened Rounds
  import opened RoundEnds
  import opened Runs
  import opened Safety
  import opened Accusations
  import opened Agreement
  import opened Progress
  import opened Records

  // What a correct leader has proposed

  lemma OwnStep(cfg: Config, s: System, a: Action, s': System)
    requires Good(cfg, s) && Steps(cfg, s, a, s') && CorrectLeader(cfg, s') && s'.own.Some?
    ensures s'.base == s.base
    ensures s.own == s'.own || a == Begin(s.base.leader, Some(s'.own.value.txs))
  {
    hide Inv;
    hide History;
    hide Acted;
    if a.Begin? {
      BaseUnchanged(cfg, s, a);
      BeginEnabled(cfg, s, a.id, a.cmds);
      BeginOwn(cfg, s, a.id, a.cmds);
    } else if a.Close? {
      ClosedOwn(cfg, s, a);
    } else {
      BaseUnchanged(cfg, s, a);
      OthersKeepOwn(cfg, s, a);
    }
  }

  lemma ClosedOwn(cfg: Config, s: System, a: Action)
    requires Enabled(cfg, s, a) && a.Close?
    ensures var s' := Apply(cfg, s, a);
            (s'.base == s.base && s'.own == s.own && s'.raw == s.raw) || (s'.own == None && s'.raw == map[])
  {
    CloseEnabled(cfg, s, a.id, a.withheld);
  }

  /** The leader was started with these commands earlier in the view. */
  ghost predicate StartedWith(states: seq<System>, actions: seq<Action>, k: nat, cmds: seq<Command>)
    requires |states| == |actions| + 1 && k < |states|
  {
    exists l :: 0 <= l < k && states[l].base == states[k].base
                && actions[l] == Begin(states[k].base.leader, Some(cmds))
  }

  lemma StartedOn(states: seq<System>, actions: seq<Action>, k: nat, cmds: seq<Command>)
    requires |states| == |actions| + 1 && 0 < k < |states| && states[k - 1].base == states[k].base
    requires StartedWith(states, actions, k - 1, cmds)
             || actions[k - 1] == Begin(states[k - 1].base.leader, Some(cmds))
    ensures StartedWith(states, actions, k, cmds)
  {}

  lemma {:induction false} OwnOrigin(cfg: Config, states: seq<System>, actions: seq<Action>, k: nat)
    requires IsRun(cfg, states, actions) && k < |states| && CorrectLeader(cfg, states[k]) && states[k].own.Some?
    ensures StartedWith(states, actions, k, states[k].own.value.txs)
  {
    hide Steps;
    hide Good;
    hide StartedWith;
    if k > 0 {
      RunGood(cfg, states, actions, k - 1);
      OwnStep(cfg, states[k - 1], actions[k - 1], states[k]);
      if states[k - 1].own == states[k].own {
        OwnOrigin(cfg, states, actions, k - 1);
      }
      StartedOn(states, actions, k, states[k].own.value.txs);
    }
  }

  // What a faulty leader has sent

  lemma FollowerStart(r: Replica, withheld: bool, cmds: Option<seq<Command>>)
    requires r.id != r.leader
    ensures Start(r, withheld, cmds).out == {}
  {
    hide HandleWithholding;
  }

  lemma SilentBegun(cfg: Config, s: System, i: nat, cmds: Option<seq<Command>>)
    requires i in s.reps && Start(s.reps[i], s.withheld, cmds).out == {}
    ensures Begun(cfg, s, i, cmds).raw == s.raw
  {
    hide Start;
  }

  lemma FollowerSilent(cfg: Config, s: System, i: nat, cmds: Option<seq<Command>>)
    requires Inv(cfg, s) && i in cfg.correct && !CorrectLeader(cfg, s)
    ensures i in s.reps && Begun(cfg, s, i, cmds).raw == s.raw
  {
    hide Inv;
    hide Start;
    hide Begun;
    NodeOf(cfg, s, i);
    FollowerStart(s.reps[i], s.withheld, cmds);
    SilentBegun(cfg, s, i, cmds);
  }

  lemma StillRaw(cfg: Config, s: System, a: Action)
    requires Enabled(cfg, s, a) && (a.TakeProposal? || a.Deliver? || a.Inject?)
    ensures Apply(cfg, s, a).raw == s.raw
  {
    hide Dispatch;
  }

  lemma RawStep(cfg: Config, s: System, a: Action, s': System, i: nat)
    requires Good(cfg, s) && Steps(cfg, s, a, s') && !CorrectLeader(cfg, s') && i in s'.raw
    ensures s'.base == s.base
    ensures (i in s.raw && s.raw[i] == s'.raw[i]) || a == SendProposal(i, s'.raw[i])
  {
    hide Inv;
    hide History;
    hide Acted;
    if a.Close? {
      ClosedOwn(cfg, s, a);
    } else {
      BaseUnchanged(cfg, s, a);
      if a.Begin? {
        BeginEnabled(cfg, s, a.id, a.cmds);
        FollowerSilent(cfg, s, a.id, a.cmds);
      } else if a.SendProposal? {
        SendEnabled(cfg, s, a.id, a.p);
      } else {
        StillRaw(cfg, s, a);
      }
    }
  }

  ghost predicate SentTo(states: seq<System>, actions: seq<Action>, k: nat, i: nat, p: Proposal)
    requires |states| == |actions| + 1 && k < |states|
  {
    exists l :: 0 <= l < k && states[l].base == states[k].base && actions[l] == SendProposal(i, p)
  }

  lemma SentOn(states: seq<System>, actions: seq<Action>, k: nat, i: nat, p: Proposal)
    requires |states| == |actions| + 1 && 0 < k < |states| && states[k - 1].base == states[k].base
    requires SentTo(states, actions, k - 1, i, p) || actions[k - 1] == SendProposal(i, p)
    ensures SentTo(states, actions, k, i, p)
  {}

  lemma {:induction false} RawOrigin(cfg: Config, states: seq<System>, actions: seq<Action>, k: nat, i: nat)
    requires IsRun(cfg, states, actions) && k < |states| && !CorrectLeader(cfg, states[k]) && i in states[k].raw
    ensures SentTo(states, actions, k, i, states[k].raw[i])
  {
    hide Steps;
    hide Good;
    hide SentTo;
    if k > 0 {
      RunGood(cfg, states, actions, k - 1);
      RawStep(cfg, states[k - 1], actions[k - 1], states[k], i);
      if i in states[k - 1].raw && states[k - 1].raw[i] == states[k].raw[i] {
        RawOrigin(cfg, states, actions, k - 1, i);
      }
      SentOn(states, actions, k, i, states[k].raw[i]);
    }
  }

  // What a round commits

  /** A block of a failed round: no commands, the one-letter mark, no hash of its own. */
  predicate IsEmptyAt(k: Block, v: nat) {
    k.txs == [] && k.header.extra == "E" && k.header.height == v && k.claimed == EmptyHash
  }

  lemma EmptyRoundBlock(c: Scene)
    requires EmptyRound(c)
    ensures IsEmptyAt(RoundBlock(c), c.base.view)
  {}

  lemma OwnCommitted(c: Scene, h: Hash)
    requires RoundOk(c) && c.correctLeader && !EmptyRound(c) && c.base.leader < c.base.n
    requires FullyForwarded(c.base, c.round.forwards, h)
    ensures c.own == Some(RoundBlock(c))
  {
    NoConflictByCorrect(c);
    FullyForwardedIsFull(c.base, c.round.forwards, h);
    var m :| m in c.round.forwards;
    assert IsForward(c.base, m);
    TheBlock(c, m);
  }

  lemma SentCommitted(c: Scene, i: nat, h: Hash) returns (m: Msg)
    requires RoundOk(c) && !EmptyRound(c) && FullyForwarded(c.base, c.round.forwards, h)
    requires i < c.base.n && i != c.base.leader
    ensures m in c.round.forwards && IsForward(c.base, m) && m.p.forwardSender == i && m.p.block == RoundBlock(c)
  {
    hide AcceptableAt;
    assert ForwardOf(c.round.forwards, i, h);
    m :| m in c.round.forwards && m.PropMsg? && m.p.forwardSender == i && HashOf(m.p) == h;
    assert forall x :: x in c.round.forwards ==> IsForward(c.base, x);
    FullyForwardedNoConflict(c.base, c.round.forwards, h);
    TheBlock(c, m);
  }

  lemma OwnForwardSent(cfg: Config, s: System, m: Msg)
    requires Inv(cfg, s) && m in s.pool && IsForward(s.base, m) && m.p.forwardSender in cfg.correct
    ensures m.p.forwardSender in s.raw && s.raw[m.p.forwardSender].block == m.p.block
    ensures s.raw[m.p.forwardSender].miningProof == m.p.miningProof
            == Signed(s.base.leader, HeaderPayload(m.p.block.header))
  {
    assert Standing(cfg, s.base, s.raw, m);
  }

  /** In this action the leader of the view proposes the block: a correct one is started with the
      block's commands, a faulty one sends it to the node under its signature. */
  ghost predicate ProposedBy(cfg: Config, s: System, a: Action, i: nat, k: Block) {
    if CorrectLeader(cfg, s) then a == Begin(s.base.leader, Some(k.txs))
    else a.SendProposal? && a.id == i && a.p.block == k
         && a.p.miningProof == Signed(s.base.leader, HeaderPayload(k.header))
  }

  ghost predicate ProposedIn(cfg: Config, states: seq<System>, actions: seq<Action>, k: nat, v: nat, i: nat, b: Block)
    requires |states| == |actions| + 1 && k < |states|
  {
    exists l :: 0 <= l < k && states[l].base.view == v && ProposedBy(cfg, states[l], actions[l], i, b)
  }

  lemma OwnProposed(cfg: Config, states: seq<System>, actions: seq<Action>, k: nat, i: nat)
    requires IsRun(cfg, states, actions) && k < |states| && CorrectLeader(cfg, states[k]) && states[k].own.Some?
    ensures ProposedIn(cfg, states, actions, k, states[k].base.view, i, states[k].own.value)
  {
    hide Init;
    hide Steps;
    OwnOrigin(cfg, states, actions, k);
    var l :| 0 <= l < k && states[l].base == states[k].base
             && actions[l] == Begin(states[k].base.leader, Some(states[k].own.value.txs));
    assert ProposedBy(cfg, states[l], actions[l], i, states[k].own.value);
  }

  lemma SentProposed(cfg: Config, states: seq<System>, actions: seq<Action>, k: nat, i: nat)
    requires IsRun(cfg, states, actions) && k < |states| && !CorrectLeader(cfg, states[k]) && i in states[k].raw
    requires states[k].raw[i].miningProof
          == Signed(states[k].base.leader, HeaderPayload(states[k].raw[i].block.header))
    ensures ProposedIn(cfg, states, actions, k, states[k].base.view, i, states[k].raw[i].block)
  {
    hide Init;
    hide Steps;
    RawOrigin(cfg, states, actions, k, i);
    var l :| 0 <= l < k && states[l].base == states[k].base && actions[l] == SendProposal(i, states[k].raw[i]);
    assert ProposedBy(cfg, states[l], actions[l], i, states[k].raw[i].block);
  }

  /** A committed block that is not the empty one was proposed in the view. */
  lemma CommittedProposed(cfg: Config, states: seq<System>, actions: seq<Action>, k: nat, i: nat)
    requires IsRun(cfg, states, actions) && k < |actions| && actions[k].Close? && i in cfg.correct
    requires Commits(SceneOf(cfg, states[k])) && !EmptyRound(SceneOf(cfg, states[k]))
    ensures ProposedIn(cfg, states, actions, k, states[k].base.view, i, RoundBlock(SceneOf(cfg, states[k])))
  {
    hide Inv;
    hide History;
    hide Steps;
    hide Init;
    hide BaseOk;
    hide RoundOk;
    hide Commits;
    hide EmptyRound;
    hide FullyForwarded;
    hide IsForward;
    hide ProposedIn;
    hide Hear;
    var s, c := states[k], SceneOf(cfg, states[k]);
    RunGood(cfg, states, actions, k);
    BaseHolds(cfg, s);
    BaseIsReady(s.base);
    CorrectIsNode(cfg, s, i);
    CommitNeedsForwards(cfg, states, actions, k, i);
    if CorrectLeader(cfg, s) {
      OwnCommitted(c, BlockHash(RoundBlock(c)));
      OwnProposed(cfg, states, actions, k, i);
    } else {
      var m := SentCommitted(c, i, BlockHash(RoundBlock(c)));
      HeardPooled(s.base, s.pool, m);
      OwnForwardSent(cfg, s, m);
      SentProposed(cfg, states, actions, k, i);
    }
  }

  lemma HeardPooled(b: Base, pool: set<Msg>, m: Msg)
    requires m in Hear(b, pool).forwards
    ensures m in pool && IsForward(b, m)
  {
    hide IsForward;
  }

  // Ledgers

  /** The leader of the view is on record for withholding or equivocation in it. */
  ghost predicate FailedView(r: Replica, v: nat)
    requires r.n > 0
  {
    Marked(r.log.withheld, v, LeaderOf(v, r.n)) || Marked(r.log.equivocations, v, LeaderOf(v, r.n))
  }

  lemma FailedAgree(p: Replica, q: Replica, v: nat)
    requires p.n == q.n && p.n > 0 && LogBefore(p.log, p.view) == LogBefore(q.log, p.view) && v < p.view
    ensures FailedView(p, v) <==> FailedView(q, v)
  {
    hide Marked;
    hide Before;
    BeforeMarks(p.log.withheld, p.view, v, LeaderOf(v, p.n));
    BeforeMarks(q.log.withheld, p.view, v, LeaderOf(v, p.n));
    BeforeMarks(p.log.equivocations, p.view, v, LeaderOf(v, p.n));
    BeforeMarks(q.log.equivocations, p.view, v, LeaderOf(v, p.n));
  }

  lemma MovedOn(cfg: Config, states: seq<System>, actions: seq<Action>, c: nat, i: nat)
    requires IsRun(cfg, states, actions) && c < |actions| && actions[c].Close? && i in cfg.correct
    requires states[c + 1].base.view == states[c].base.view + 1
    ensures Commits(SceneOf(cfg, states[c])) && i in states[c + 1].reps
    ensures Committed(SceneOf(cfg, states[c]), states[c + 1].reps[i])
  {
    hide Good;
    hide Steps;
    hide Init;
    hide Commits;
    hide Committed;
    RoundOutcome(cfg, states, actions, c, i);
    RunGood(cfg, states, actions, c + 1);
    NodeFollows(cfg, states[c + 1], i);
  }

  /** Right after the view: the block is empty if the view has failed, and was proposed otherwise. */
  lemma FreshProvenance(cfg: Config, states: seq<System>, actions: seq<Action>, c: nat, i: nat)
    requires IsRun(cfg, states, actions) && c < |actions| && actions[c].Close? && i in cfg.correct
    requires states[c + 1].base.view == states[c].base.view + 1
    ensures var v := states[c].base.view;
            && i in states[c + 1].reps && states[c + 1].reps[i].n > 0 && states[c + 1].reps[i].view == v + 1
            && v in states[c + 1].reps[i].ledger.byHeight
            && var r := states[c + 1].reps[i];
               if FailedView(r, v) then IsEmptyAt(r.ledger.byHeight[v], v)
               else ProposedIn(cfg, states, actions, c, v, i, r.ledger.byHeight[v])
  {
    hide Good;
    hide Steps;
    hide Init;
    hide Commits;
    hide Marked;
    hide RoundBlock;
    hide ProposedIn;
    hide IsEmptyAt;
    MovedOn(cfg, states, actions, c, i);
    var sc := SceneOf(cfg, states[c]);
    RunGood(cfg, states, actions, c);
    LeaderThen(cfg, states, actions, c, i);
    if EmptyRound(sc) {
      EmptyRoundBlock(sc);
    } else {
      CommittedProposed(cfg, states, actions, c, i);
    }
  }

  lemma LeaderThen(cfg: Config, states: seq<System>, actions: seq<Action>, c: nat, i: nat)
    requires IsRun(cfg, states, actions) && c < |actions| && i in cfg.correct
    ensures i in states[c + 1].reps && states[c + 1].reps[i].n == states[c].base.n > 0
    ensures states[c].base.leader == LeaderOf(states[c].base.view, states[c].base.n)
  {
    hide Inv;
    hide History;
    hide Init;
    hide Steps;
    RunGood(cfg, states, actions, c);
    RunGood(cfg, states, actions, c + 1);
    NodeOf(cfg, states[c], i);
    NodeOf(cfg, states[c + 1], i);
    BaseHolds(cfg, states[c]);
    BaseHolds(cfg, states[c + 1]);
  }

  /** In every state of a run and for every height below a correct node's view: the block there was
      proposed by the leader of that view, and if the leader is correct has exactly the commands the
      leader was started with - unless the leader is on record for withholding or equivocation in
      that view; then it has no commands at all. */
  lemma LedgerProvenance(cfg: Config, states: seq<System>, actions: seq<Action>, k: nat, i: nat, v: nat)
    requires IsRun(cfg, states, actions) && k < |states| && i in cfg.correct && 1 <= v < states[k].base.view
    ensures i in states[k].reps && states[k].reps[i].n > 0 && v in states[k].reps[i].ledger.byHeight
    ensures var r := states[k].reps[i];
            if FailedView(r, v) then IsEmptyAt(r.ledger.byHeight[v], v)
            else ProposedIn(cfg, states, actions, k, v, i, r.ledger.byHeight[v])
  {
    hide Good;
    hide Steps;
    hide Init;
    hide FailedView;
    hide ProposedIn;
    hide IsEmptyAt;
    var c := Leaves(cfg, states, actions, k, v);
    FreshProvenance(cfg, states, actions, c, i);
    LedgerAgreement(cfg, states, actions, c + 1, k, i, i);
    SameSize(cfg, states, actions, c + 1, k, i);
    FailedAgree(states[c + 1].reps[i], states[k].reps[i], v);
    ProposedLater(cfg, states, actions, c, k, v, i, states[k].reps[i].ledger.byHeight[v]);
  }

  lemma SameSize(cfg: Config, states: seq<System>, actions: seq<Action>, l: nat, k: nat, i: nat)
    requires IsRun(cfg, states, actions) && l <= k < |states| && i in cfg.correct
    ensures i in states[l].reps && i in states[k].reps && states[l].reps[i].n == states[k].reps[i].n > 0
  {
    hide IsRun;
    hide Inv;
    hide History;
    RunGood(cfg, states, actions, l);
    RunGood(cfg, states, actions, k);
    NodeOf(cfg, states[l], i);
    NodeOf(cfg, states[k], i);
    BaseHolds(cfg, states[l]);
    BaseHolds(cfg, states[k]);
  }

  lemma ProposedLater(cfg: Config, states: seq<System>, actions: seq<Action>, c: nat, k: nat, v: nat, i: nat, b: Block)
    requires |states| == |actions| + 1 && c <= k < |states|
    ensures ProposedIn(cfg, states, actions, c, v, i, b) ==> ProposedIn(cfg, states, actions, k, v, i, b)
  {
    hide ProposedBy;
  }
}
