/** One run of each kind, for every system: a round that commits the leader's commands, one that
    stalls because a faulty node is silent, one whose leader equivocates, one whose leader
    withholds its proposal and one in which a correct node gets on record. */
module Scenarios {
  import opened Messages
  import opened Weights
  import opened Tallies
  import opened Reputation
  import opened Replicas
  import opened Rounds
  import opened RoundEnds
  import opened Runs
  import opened Safety
  import opened VoteAgreement
  import opened Accusations
  import opened Attacks
  import opened Agreement
  import opened Continuations
  import opened Progress

  /** The state in which everything is new. */
  ghost function First(cfg: Config, withheld: bool): System {
    System(InitialReps(cfg), {}, map[], {}, {}, Silence(cfg.correct), withheld, InitialBase(cfg.n), None, {})
  }

  lemma FirstIsInit(cfg: Config, withheld: bool)
    requires cfg.n >= 1 && cfg.correct <= Nodes(cfg.n) && (withheld ==> 0 !in cfg.correct)
    ensures IsRun(cfg, [First(cfg, withheld)], [])
  {}

  lemma FirstTracked(cfg: Config, withheld: bool)
    requires cfg.n >= 1
    ensures Tracked(cfg, First(cfg, withheld))
  {}

  /** The state at the end of the round, before the timers fire. */
  ghost function BeforeLast(states: seq<System>): System
    requires |states| > 1
  {
    states[|states| - 2]
  }

  lemma EndOf(cfg: Config, states: seq<System>, actions: seq<Action>, states': seq<System>, actions': seq<Action>)
    requires |states'| == |actions'| + 1 && |actions'| > 0
    requires GoesOn(cfg, states, actions, states'[..|actions'|], actions'[..|actions'| - 1])
    ensures |states| > 0 && Unaided(cfg, Last(states), BeforeLast(states'))
    ensures SameProposals(Last(states), BeforeLast(states'))
  {
    hide IsRun;
    hide Unaided;
    hide SameProposals;
    assert Last(states'[..|actions'|]) == BeforeLast(states');
  }

  // The leader proposes

  lemma FirstProposes(cfg: Config, cmds: seq<Command>) returns (states: seq<System>, actions: seq<Action>)
    requires cfg.n >= 1 && 0 in cfg.correct && cfg.correct <= Nodes(cfg.n)
    ensures IsRun(cfg, states, actions) && |states| == 2 && |actions| == 1
    ensures states[0] == First(cfg, false) && actions[0] == Begin(0, Some(cmds)) && states[1].base == InitialBase(cfg.n)
    ensures Forwarders(states[1]) == {}
  {
    hide Start;
    hide IsRun;
    var s, a := First(cfg, false), Begin(0, Some(cmds));
    FirstIsInit(cfg, false);
    FirstTracked(cfg, false);
    assert Enabled(cfg, s, a);
    var s' := Apply(cfg, s, a);
    assert Steps(cfg, s, a, s');
    hide Enabled;
    hide Acted;
    PoolKept(cfg, s, a);
    HearNothing(s.base);
    RunExtended(cfg, [s], [], a, s');
    states, actions := [s] + [s'], [] + [a];
  }

  /** The round of a correct leader that is started with commands, brought to its end. */
  lemma ProposedRun(cfg: Config, cmds: seq<Command>) returns (states: seq<System>, actions: seq<Action>)
    requires cfg.n >= 1 && 0 in cfg.correct && cfg.correct <= Nodes(cfg.n)
    ensures IsRun(cfg, states, actions) && |states| == |actions| + 1 && |actions| > 1
    ensures states[0] == First(cfg, false) && actions[|actions| - 1] == Close(0, false)
    ensures HasProposed(states, actions, 0, |actions| - 1, cmds)
    ensures BeforeLast(states).base == InitialBase(cfg.n) && Forwarders(BeforeLast(states)) <= cfg.correct
  {
    hide IsRun;
    hide GoesOn;
    var ss, steps := FirstProposes(cfg, cmds);
    states, actions := RoundCanEnd(cfg, ss, steps, 0);
    EndOf(cfg, ss, steps, states, actions);
  }

  ghost predicate HasCommitted(s: System, j: nat, cmds: seq<Command>) {
    && j in s.reps && s.reps[j].view == 2
    && 1 in s.reps[j].ledger.byHeight && s.reps[j].ledger.byHeight[1].txs == cmds
  }

  /** Without faulty nodes, the commands given to the leader are committed by everybody. */
  lemma CommittedRun(cfg: Config, cmds: seq<Command>) returns (states: seq<System>, actions: seq<Action>)
    requires cfg.n >= 2 && cfg.correct == Nodes(cfg.n)
    ensures IsRun(cfg, states, actions) && |states| > 1
    ensures forall j :: j in cfg.correct ==> HasCommitted(Last(states), j, cmds)
  {
    hide Good;
    hide IsRun;
    hide Carried;
    assert 0 in Nodes(cfg.n);
    states, actions := ProposedRun(cfg, cmds);
    var k := |actions| - 1;
    RunGood(cfg, states, actions, k);
    AllCorrectCarry(cfg, states[k]);
    forall j | j in cfg.correct
      ensures HasCommitted(Last(states), j, cmds)
    {
      RoundProgress(cfg, states, actions, 0, k, cmds, j);
    }
  }

  // A faulty node is silent

  lemma SilentNotFull(cfg: Config, s: System, id: nat)
    requires Forwarders(s) <= cfg.correct && id < s.base.n && id !in cfg.correct && id != s.base.leader
    ensures !FaultyForward(cfg, s)
  {}

  lemma SenderMissing(b: Base, fs: set<Msg>, id: nat)
    requires b.leader < b.n && (forall m :: m in fs ==> IsForward(b, m))
    requires id < b.n && id != b.leader && id !in Senders(fs)
    ensures !Full(b.n, fs)
  {
    hide IsForward;
    SendersBound(b, fs);
    if |Senders(fs)| + 1 >= b.n {
      Pigeonhole(b, Senders(fs));
    }
  }

  lemma FewerSenders(b: Base, seen: set<Msg>, pool: set<Msg>)
    requires seen <= pool
    ensures Senders(Hear(b, seen).forwards) <= Senders(Hear(b, pool).forwards)
  {}

  lemma NotFull(cfg: Config, s: System, seen: set<Msg>, id: nat)
    requires Inv(cfg, s) && seen <= s.pool && Forwarders(s) <= cfg.correct
    requires id < s.base.n && id !in cfg.correct && id != s.base.leader
    ensures !Full(s.base.n, Hear(s.base, seen).forwards)
  {
    hide Inv;
    hide BaseOk;
    BaseHolds(cfg, s);
    BaseIsReady(s.base);
    FewerSenders(s.base, seen, s.pool);
    SenderMissing(s.base, Hear(s.base, seen).forwards, id);
  }

  lemma CloseIdles(cfg: Config, s: System, i: nat, s': System)
    requires Steps(cfg, s, Close(i, false), s') && s'.base.view == s.base.view
    ensures s'.started == {} && s'.base == s.base && s'.pool == s.pool
  {
    CloseEnabled(cfg, s, i, false);
  }

  /** After the stalled round: the view is the same and the leader has proposed. */
  ghost predicate Halted(cfg: Config, s: System) {
    Whole(
      && Good(cfg, s) && s.base == InitialBase(cfg.n) && s.own.Some? && s.started == {}
      && Forwarders(s) <= cfg.correct)
  }

  ghost predicate Waits(s: System, j: nat) {
    j in s.reps && s.reps[j].view == 1 && s.reps[j].ledger.head == if j == 0 then 1 else 0
  }

  lemma HeadHalted(cfg: Config, states: seq<System>, actions: seq<Action>, k: nat, id: nat, j: nat)
    requires IsRun(cfg, states, actions) && k < |states| && Halted(cfg, states[k])
    requires id < cfg.n && id !in cfg.correct && j in cfg.correct && 0 in cfg.correct
    ensures Waits(states[k], j)
  {
    hide IsRun;
    hide Inv;
    hide History;
    LockstepHead(cfg, states, actions, k, j);
    NodeFollows(cfg, states[k], j);
    NodeIs(cfg, states[k], j);
    NotFull(cfg, states[k], states[k].seen[j], id);
  }

  lemma HaltedThere(cfg: Config, states: seq<System>, actions: seq<Action>, k: nat, cmds: seq<Command>, id: nat)
    requires IsRun(cfg, states, actions) && HasProposed(states, actions, 0, k, cmds)
    requires k < |actions| && actions[k] == Close(0, false) && id < cfg.n && id !in cfg.correct && 0 in cfg.correct
    requires states[k].base == InitialBase(cfg.n) && Forwarders(states[k]) <= cfg.correct
    ensures Halted(cfg, states[k + 1])
  {
    hide Good;
    hide Steps;
    hide Carried;
    SilentNotFull(cfg, states[k], id);
    NotCarried(cfg, states[k]);
    ProposalStands(cfg, states, actions, 0, k, cmds);
    StalledClose(cfg, states[k], actions[k], states[k + 1]);
    CloseIdles(cfg, states[k], 0, states[k + 1]);
    ProposalStands(cfg, states, actions, 0, k + 1, cmds);
  }

  lemma NotCarried(cfg: Config, s: System)
    requires !FaultyForward(cfg, s)
    ensures !Carried(cfg, s)
  {}

  /** One faulty node that stays silent stalls the round: everybody is still in the first view, and
      the next round starts with the leader's head at the view and all others' one behind. */
  lemma StalledRun(cfg: Config, cmds: seq<Command>, id: nat) returns (states: seq<System>, actions: seq<Action>)
    requires 0 in cfg.correct && cfg.correct <= Nodes(cfg.n) && id < cfg.n && id !in cfg.correct
    ensures IsRun(cfg, states, actions) && |states| > 1 && Last(states).started == {}
    ensures forall j :: j in cfg.correct ==> Waits(Last(states), j)
  {
    hide Good;
    hide IsRun;
    hide HasProposed;
    assert 0 in Nodes(cfg.n);
    states, actions := ProposedRun(cfg, cmds);
    var k := |actions| - 1;
    HaltedThere(cfg, states, actions, k, cmds, id);
    forall j | j in cfg.correct
      ensures Waits(Last(states), j)
    {
      HeadHalted(cfg, states, actions, k + 1, id, j);
    }
  }

  // The leader equivocates

  lemma TwinsBuilt(n: nat, extra: string)
    requires n >= 1
    ensures WellBuilt(InitialBase(n), Twin(extra)) && AcceptableAt(InitialBase(n), Twin(extra))
    ensures Twin(extra).forwardSender == 0
  {}

  /** A faulty first leader may send a node what it likes. */
  lemma MaySend(cfg: Config, s: System, i: nat, extra: string) returns (s': System)
    requires Tracked(cfg, s) && s.base == InitialBase(cfg.n) && s.pool == {} && !s.withheld && cfg.n >= 1
    requires 0 !in cfg.correct && i in cfg.correct && i !in s.raw
    requires forall j :: j in s.raw ==> HashOf(s.raw[j]) != HashOf(Twin(extra))
    ensures Steps(cfg, s, SendProposal(i, Twin(extra)), s')
    ensures s' == s.(raw := s.raw[i := Twin(extra)], pending := s.pending + {i})
  {
    TwinsBuilt(cfg.n, extra);
    assert Hear(s.base, {}).forwards == {};
    assert LawfulRaw(cfg, s, i, Twin(extra));
    assert Enabled(cfg, s, SendProposal(i, Twin(extra)));
    SendEnabled(cfg, s, i, Twin(extra));
    s' := Apply(cfg, s, SendProposal(i, Twin(extra)));
  }

  lemma TwinsSent(cfg: Config, i: nat, j: nat) returns (states: seq<System>, actions: seq<Action>)
    requires cfg.correct <= Nodes(cfg.n) && 0 !in cfg.correct && i in cfg.correct && j in cfg.correct && i != j
    ensures IsRun(cfg, states, actions) && |states| == 3 && states[2].base == InitialBase(cfg.n)
    ensures i in states[2].raw && states[2].raw[i] == Twin("a") && j in states[2].raw && states[2].raw[j] == Twin("b")
  {
    hide IsRun;
    hide Steps;
    assert i in Nodes(cfg.n);
    var s := First(cfg, false);
    FirstIsInit(cfg, false);
    FirstTracked(cfg, false);
    var s1 := MaySend(cfg, s, i, "a");
    RunExtended(cfg, [s], [], SendProposal(i, Twin("a")), s1);
    var s2 := MaySend(cfg, s1, j, "b");
    RunExtended(cfg, [s] + [s1], [] + [SendProposal(i, Twin("a"))], SendProposal(j, Twin("b")), s2);
    states := [s] + [s1] + [s2];
    actions := [] + [SendProposal(i, Twin("a"))] + [SendProposal(j, Twin("b"))];
  }

  lemma TwinsConflict(cfg: Config, s: System, i: nat, j: nat)
    requires Inv(cfg, s) && s.base == InitialBase(cfg.n) && s.pending == {} && i in cfg.correct && j in cfg.correct
    requires i in s.raw && s.raw[i] == Twin("a") && j in s.raw && s.raw[j] == Twin("b") && i != 0 && j != 0
    ensures Conflict(Hear(s.base, s.pool).forwards)
  {
    assert i in Nodes(cfg.n) && j in Nodes(cfg.n);
    TwinsBuilt(cfg.n, "a");
    TwinsBuilt(cfg.n, "b");
    assert RawDone(s.base, s.raw, s.pending, s.pool);
    hide Inv;
    OwnForwardCounts(s.base, s.raw[i], i, s.pool);
    OwnForwardCounts(s.base, s.raw[j], j, s.pool);
  }

  /** The node has committed the empty block and charged the leader. */
  ghost predicate EndsEmpty(s: System, j: nat, withheld: bool) {
    && j in s.reps && s.reps[j].view == 2 && 1 in s.reps[j].ledger.byHeight
    && s.reps[j].ledger.byHeight[1] == Block(Header("E", 1, EmptyHash), [], EmptyHash)
    && Marked(if withheld then s.reps[j].log.withheld else s.reps[j].log.equivocations, 1, 0)
  }

  lemma EmptyEnding(cfg: Config, states: seq<System>, actions: seq<Action>, k: nat, withheld: bool, j: nat)
    requires IsRun(cfg, states, actions) && k < |actions| && actions[k].Close? && j in cfg.correct
    requires states[k].base == InitialBase(cfg.n)
    requires Commits(SceneOf(cfg, states[k])) && EmptyRound(SceneOf(cfg, states[k]))
    requires if withheld then states[k].withheld else Hear(states[k].base, states[k].pool).equivocation
    ensures EndsEmpty(states[k + 1], j, withheld)
  {
    hide Steps;
    hide Init;
    RoundOutcome(cfg, states, actions, k, j);
  }

  lemma ConflictNoticed(cfg: Config, s: System, i: nat)
    requires Ends(cfg, s) && i in cfg.correct && i != s.base.leader && Conflict(Hear(s.base, s.pool).forwards)
    ensures Hear(s.base, s.pool).equivocation
  {
    NodeSettled(cfg, s, i);
  }

  lemma ClosesThere(cfg: Config, states: seq<System>, actions: seq<Action>, k: nat)
    requires IsRun(cfg, states, actions) && k < |actions| && actions[k].Close?
    ensures Good(cfg, states[k]) && Inv(cfg, states[k]) && Ends(cfg, states[k]) && states[k].pending == {}
  {
    RunGood(cfg, states, actions, k);
    hide Inv;
    hide History;
    CloseEnds(cfg, states[k], actions[k], states[k + 1]);
  }

  /** A leader that sends two nodes different blocks: everybody else commits the empty block and
      has the equivocation on record. */
  lemma EquivocatedRun(cfg: Config, i: nat, j: nat) returns (states: seq<System>, actions: seq<Action>)
    requires cfg.correct <= Nodes(cfg.n) && 0 !in cfg.correct && i in cfg.correct && j in cfg.correct && i != j
    ensures IsRun(cfg, states, actions) && |states| > 1
    ensures forall id :: id in cfg.correct ==> EndsEmpty(Last(states), id, false)
  {
    hide IsRun;
    hide Good;
    hide Inv;
    hide Ends;
    hide GoesOn;
    hide Forwarders;
    hide BallotVoters;
    hide Conflict;
    var ss, steps := TwinsSent(cfg, i, j);
    states, actions := RoundCanEnd(cfg, ss, steps, i);
    EndOf(cfg, ss, steps, states, actions);
    var k := |actions| - 1;
    ClosesThere(cfg, states, actions, k);
    TwinsConflict(cfg, states[k], i, j);
    ConflictNoticed(cfg, states[k], i);
    forall id | id in cfg.correct
      ensures EndsEmpty(Last(states), id, false)
    {
      EmptyEnding(cfg, states, actions, k, false, id);
    }
  }

  // The leader withholds its proposal

  /** A leader that keeps its proposal to itself: everybody else commits the empty block and has
      the withholding on record. */
  lemma WithheldRun(cfg: Config, i: nat) returns (states: seq<System>, actions: seq<Action>)
    requires cfg.correct <= Nodes(cfg.n) && 0 !in cfg.correct && i in cfg.correct
    ensures IsRun(cfg, states, actions) && |states| > 1
    ensures forall id :: id in cfg.correct ==> EndsEmpty(Last(states), id, true)
  {
    hide IsRun;
    hide Good;
    hide Steps;
    hide GoesOn;
    assert i in Nodes(cfg.n);
    FirstIsInit(cfg, true);
    states, actions := RoundCanEnd(cfg, [First(cfg, true)], [], i);
    EndOf(cfg, [First(cfg, true)], [], states, actions);
    forall id | id in cfg.correct
      ensures EndsEmpty(Last(states), id, true)
    {
      EmptyEnding(cfg, states, actions, |actions| - 1, true, id);
    }
  }

  // A correct node gets on record

  lemma ProposedTo(cfg: Config, s: System, i: nat)
    requires Inv(cfg, s) && CorrectLeader(cfg, s) && s.own.Some? && i in cfg.correct && i != s.base.leader
    ensures i in s.raw && AcceptableAt(s.base, s.raw[i])
  {
    hide RoundOk;
    hide PoolOk;
    hide NodesOk;
    hide RawFits;
    hide BaseOk;
    hide AcceptableAt;
  }

  /** The faulty node forwards like the others. */
  lemma FaultyJoins(cfg: Config, states: seq<System>, actions: seq<Action>, i: nat, j: nat)
    returns (states': seq<System>, actions': seq<Action>)
    requires IsRun(cfg, states, actions) && |states| > 0 && CorrectLeader(cfg, Last(states)) && Last(states).own.Some?
    requires i in cfg.correct && i != Last(states).base.leader && j < cfg.n && j !in cfg.correct
    requires Forwarders(Last(states)) == {}
    ensures IsRun(cfg, states', actions') && |states'| > 0 && Last(states').base == Last(states).base
    ensures Last(states').own == Last(states).own && j in Forwarders(Last(states'))
  {
    hide IsRun;
    hide Good;
    hide Inv;
    hide SignedOk;
    hide MaySay;
    hide Steps;
    var s := Last(states);
    RunSigned(cfg, states, actions, |states| - 1);
    GoodInv(cfg, s);
    ProposedTo(cfg, s, i);
    FaultyMayForwardCorrect(cfg, s, i, j);
    var m := PropMsg(Forwarded(j, s.raw[i]));
    var s' := Broadcasts(cfg, s, m);
    OwnForwardCounts(s.base, s.raw[i], j, s'.pool);
    RunExtended(cfg, states, actions, Inject(m), s');
    states', actions' := states + [s'], actions + [Inject(m)];
  }

  lemma GoodInv(cfg: Config, s: System)
    requires Good(cfg, s)
    ensures Inv(cfg, s) && Tracked(cfg, s) && s.base.n == cfg.n
  {
    hide Inv;
    InvTracked(cfg, s);
    BaseHolds(cfg, s);
  }

  lemma Broadcasts(cfg: Config, s: System, m: Msg) returns (s': System)
    requires Tracked(cfg, s) && MaySay(cfg, s, m)
    ensures Steps(cfg, s, Inject(m), s') && s' == s.(pool := s.pool + {m})
  {
    hide Lawful;
    hide Unforged;
    CanInject(cfg, s, m);
    InjectEnabled(cfg, s, m);
    s' := Apply(cfg, s, Inject(m));
  }

  lemma VoteOf(vs: set<Msg>, id: nat) returns (v: Vote)
    requires id in Voters(vs)
    ensures VoteMsg(v) in vs && v.voter == id
  {
    var m :| m in vs && m.VoteMsg? && m.v.voter == id;
    v := m.v;
  }

  lemma EndsStarted(cfg: Config, s: System)
    requires Ends(cfg, s)
    ensures s.started == cfg.correct && s.pending == {} && Tracked(cfg, s)
  {
    hide Inv;
  }

  lemma OnlyFaulty(cfg: Config, s: System, j: nat)
    requires cfg.correct + {j} == Nodes(cfg.n) && s.base.n == cfg.n && j in Forwarders(s)
    ensures FaultyForward(cfg, s)
  {
    forall id: nat | id < s.base.n && id !in cfg.correct
      ensures id == j
    {
      assert id in Nodes(cfg.n);
    }
  }

  /** At the end of a round that everybody has forwarded, every correct node's vote is around. */
  lemma VotedThere(cfg: Config, s: System, i: nat, j: nat) returns (v: Vote)
    requires Good(cfg, s) && Ends(cfg, s) && CorrectLeader(cfg, s) && s.own.Some? && i in cfg.correct
    requires cfg.correct + {j} == Nodes(cfg.n) && j in Forwarders(s) && s.base.n >= 2
    ensures VoteMsg(v) in s.pool && IsBallot(s.base, VoteMsg(v)) && v.voter == i
  {
    hide Good;
    hide Ends;
    hide Inv;
    hide BaseOk;
    hide RoundOk;
    hide FullyForwarded;
    hide FaultyForward;
    hide Full;
    GoodInv(cfg, s);
    EndsStarted(cfg, s);
    BaseHolds(cfg, s);
    BaseIsReady(s.base);
    OnlyFaulty(cfg, s, j);
    AllForward(cfg, s);
    OwnBlockCommitted(SceneOf(cfg, s));
    AllVote(cfg, s);
    v := VoteOf(Hear(s.base, s.pool).votes, i);
  }

  /** The faulty node shows a vote as evidence. */
  lemma ShowsVote(cfg: Config, states: seq<System>, actions: seq<Action>, id: nat, v: Vote, j: nat)
    returns (states': seq<System>, actions': seq<Action>)
    requires IsRun(cfg, states, actions) && |states| > 0 && Ends(cfg, Last(states)) && id in cfg.correct
    requires VoteMsg(v) in Last(states).pool && IsBallot(Last(states).base, VoteMsg(v)) && v.voter in cfg.correct
    requires j < Last(states).base.n && j !in cfg.correct
    ensures IsRun(cfg, states', actions') && |states'| > 0 && Last(states').base == Last(states).base
    ensures id in Last(states').reps
    ensures Marked(Last(states').reps[id].log.maliciousVotes, Last(states).base.view, v.voter)
  {
    hide IsRun;
    hide Ends;
    hide GoodSigned;
    hide Steps;
    hide IsBallot;
    hide Marked;
    var m := MaliciousVoteMsg(Accuse(j, v.voter, Last(states).base.view), v);
    RunSigned(cfg, states, actions, |states| - 1);
    EndsStarted(cfg, Last(states));
    var s1, s2 := FramedByOwnVote(cfg, Last(states), id, v, j);
    RunExtended(cfg, states, actions, Inject(m), s1);
    RunExtended(cfg, states + [s1], actions + [Inject(m)], Deliver(id, m, []), s2);
    states', actions' := states + [s1] + [s2], actions + [Inject(m)] + [Deliver(id, m, [])];
    StepBase(cfg, Last(states), Inject(m), s1);
    StepBase(cfg, s1, Deliver(id, m, []), s2);
  }

  lemma VotedRun(cfg: Config, cmds: seq<Command>, i: nat, j: nat)
    returns (states: seq<System>, actions: seq<Action>, v: Vote)
    requires cfg.correct + {j} == Nodes(cfg.n) && j !in cfg.correct && 0 in cfg.correct && i in cfg.correct && i != 0
    ensures IsRun(cfg, states, actions) && |states| > 0 && Ends(cfg, Last(states))
    ensures Last(states).base == InitialBase(cfg.n) && VoteMsg(v) in Last(states).pool
    ensures IsBallot(Last(states).base, VoteMsg(v)) && v.voter == i
  {
    hide IsRun;
    hide Good;
    hide Inv;
    hide Ends;
    hide GoesOn;
    hide Hear;
    hide IsBallot;
    assert 0 in Nodes(cfg.n) && i in Nodes(cfg.n) && j in Nodes(cfg.n);
    var ss, steps := FirstProposes(cfg, cmds);
    ProposalStands(cfg, ss, steps, 0, 1, cmds);
    ss, steps := FaultyJoins(cfg, ss, steps, i, j);
    var tt, more := RoundCanEnd(cfg, ss, steps, 0);
    EndOf(cfg, ss, steps, tt, more);
    states, actions := tt[..|more|], more[..|more| - 1];
    GoesOnRun(cfg, ss, steps, states, actions);
    ClosesThere(cfg, tt, more, |more| - 1);
    FewerSenders(Last(ss).base, Last(ss).pool, Last(states).pool);
    v := VotedThere(cfg, Last(states), i, j);
  }

  /** With one faulty node j: it forwards the first leader's block, everybody votes, and it shows
      the vote of i as evidence to the leader, which records i. */
  lemma FramedRun(cfg: Config, cmds: seq<Command>, i: nat, j: nat)
    returns (states: seq<System>, actions: seq<Action>)
    requires cfg.correct + {j} == Nodes(cfg.n) && j !in cfg.correct && 0 in cfg.correct && i in cfg.correct && i != 0
    ensures IsRun(cfg, states, actions) && |states| > 0 && 0 in Last(states).reps
    ensures Last(states).reps[0].view == 1 && Marked(Last(states).reps[0].log.maliciousVotes, 1, i)
  {
    hide IsRun;
    hide Good;
    hide Ends;
    hide IsBallot;
    hide Marked;
    assert j in Nodes(cfg.n);
    var ss, steps, v := VotedRun(cfg, cmds, i, j);
    states, actions := ShowsVote(cfg, ss, steps, 0, v, j);
    RunGood(cfg, states, actions, |states| - 1);
    NodeFollows(cfg, Last(states), 0);
  }
}
