/** What holds in every state of every run: the correct nodes agree on blocks, certificates,
    transcripts and reputation, what they have committed stays committed, and their
    reputation follows from the recorded behaviour. */
module Safety {
  import opened Messages
  import opened Weights
  import opened Tallies
  import opened Reputation
  import opened Replicas
  import opened Rounds
  import opened RoundEnds
  import opened Runs

  ghost predicate Steps(cfg: Config, s: System, a: Action, s': System) {
    Whole(Enabled(cfg, s, a) && s' == Apply(cfg, s, a))
  }

  ghost predicate IsRun(cfg: Config, states: seq<System>, actions: seq<Action>) {
    && |states| == |actions| + 1 && Init(cfg, states[0])
    && forall k :: 0 <= k < |actions| ==> Steps(cfg, states[k], actions[k], states[k + 1])
  }

  // What the shared state remembers

  /** Every table is computed from the behaviour recorded before its view. */
  ghost predicate TablesFromLog(f: real -> real, n: nat, reputation: map<nat, Table>, log: Transcript) {
    Whole(
      && 1 in reputation && reputation[1] == InitialTable(n)
      && forall v :: v in reputation && v >= 2 ==> reputation[v] == NewTable(f, n, LogBefore(log, v)))
  }

  ghost predicate History(cfg: Config, b: Base) {
    TablesFromLog(cfg.f, b.n, b.reputation, b.log)
  }

  lemma RowLater(t: Tally, view: nat, s: set<nat>, v: nat)
    requires v <= view
    ensures Before(WithRow(t, view, s), v) == Before(t, v)
  {}

  lemma LogLater(c: Scene, v: nat)
    requires v <= c.base.view
    ensures LogBefore(NextLog(c), v) == LogBefore(c.base.log, v)
  {
    var b := c.base;
    RowLater(b.log.proposals, b.view, Only(!EmptyRound(c), b.leader), v);
    RowLater(b.log.votes, b.view, Voters(c.round.votes), v);
    RowLater(b.log.withheld, b.view, Only(c.withheld, b.leader), v);
    RowLater(b.log.equivocations, b.view, Only(c.round.equivocation, b.leader), v);
    RowLater(b.log.maliciousProposals, b.view, c.round.maliciousProposers, v);
    RowLater(b.log.maliciousVotes, b.view, c.round.maliciousVoters, v);
  }

  lemma LogWhole(log: Transcript, view: nat)
    requires WithinViews(log, view)
    ensures LogBefore(log, view + 1) == log
  {}

  /** `log` adds a row for the view `b` is in. */
  ghost predicate LogExtends(b: Base, log: Transcript) {
    Whole(
      && (forall v: nat :: v <= b.view ==> LogBefore(log, v) == LogBefore(b.log, v))
      && LogBefore(log, b.view + 1) == log)
  }

  lemma NextLogExtends(c: Scene)
    requires c.base.view >= 1 && WithinViews(c.base.log, c.base.view - 1)
    ensures LogExtends(c.base, NextLog(c))
  {
    LogGrows(c);
    LogWhole(NextLog(c), c.base.view);
    forall v: nat | v <= c.base.view
      ensures LogBefore(NextLog(c), v) == LogBefore(c.base.log, v)
    {
      LogLater(c, v);
    }
  }

  lemma TableGrows(f: real -> real, b: Base, log: Transcript, v: nat)
    requires v in b.reputation ==> v <= b.view && b.reputation[v] == NewTable(f, b.n, LogBefore(b.log, v))
    requires LogExtends(b, log) && v in NextReputation(f, b, log)
    ensures NextReputation(f, b, log)[v] == NewTable(f, b.n, LogBefore(log, v))
  {}

  lemma TablesGrow(f: real -> real, b: Base, log: Transcript)
    requires TablesFromLog(f, b.n, b.reputation, b.log) && UpToView(b.reputation, b.view) && b.view >= 1
    requires LogExtends(b, log)
    ensures TablesFromLog(f, b.n, NextReputation(f, b, log), log)
  {
    forall v | v in NextReputation(f, b, log) && v >= 2
      ensures NextReputation(f, b, log)[v] == NewTable(f, b.n, LogBefore(log, v))
    {
      TableGrows(f, b, log, v);
    }
  }

  lemma TablesBounded(b: Base)
    requires BaseOk(b)
    ensures b.view >= 1 && WithinViews(b.log, b.view - 1) && UpToView(b.reputation, b.view)
  {}

  lemma HistoryFollows(cfg: Config, c: Scene)
    requires BaseOk(c.base) && History(cfg, c.base)
    ensures c.base.n > 0 && History(cfg, NextBase(cfg.f, c))
  {
    TablesBounded(c.base);
    NextLogExtends(c);
    TablesGrow(cfg.f, c.base, NextLog(c));
  }

  lemma HistoryGrows(cfg: Config, s: System)
    requires Inv(cfg, s) && History(cfg, s.base)
    ensures s.base.n > 0 && History(cfg, NextBase(cfg.f, SceneOf(cfg, s)))
  {
    HistoryFollows(cfg, SceneOf(cfg, s));
  }

  lemma InitialHistory(cfg: Config)
    ensures History(cfg, InitialBase(cfg.n))
  {}

  // How the shared state grows

  /** A later shared state keeps everything an earlier one had settled. */
  ghost predicate Extends(b: Base, b': Base) {
    Whole(
      && b.n == b'.n && b.view <= b'.view
      && (forall h :: h in b.byHeight ==> h in b'.byHeight && b'.byHeight[h] == b.byHeight[h])
      && (forall v :: v in b.certHash ==> v in b'.certHash && b'.certHash[v] == b.certHash[v])
      && (forall v :: v in b.reputation ==> v in b'.reputation && b'.reputation[v] == b.reputation[v])
      && LogBefore(b'.log, b.view) == b.log)
  }

  lemma ExtendsSelf(b: Base)
    requires BaseOk(b)
    ensures Extends(b, b)
  {
    ChainKept(b);
  }

  lemma BeforeTwice(t: Tally, v: nat, w: nat)
    requires v <= w
    ensures Before(Before(t, w), v) == Before(t, v)
  {}

  lemma LogBeforeTwice(log: Transcript, v: nat, w: nat)
    requires v <= w
    ensures LogBefore(LogBefore(log, w), v) == LogBefore(log, v)
  {
    BeforeTwice(log.proposals, v, w);
    BeforeTwice(log.votes, v, w);
    BeforeTwice(log.withheld, v, w);
    BeforeTwice(log.equivocations, v, w);
    BeforeTwice(log.maliciousProposals, v, w);
    BeforeTwice(log.maliciousVotes, v, w);
  }

  lemma ExtendsOn(b: Base, b': Base, b'': Base)
    requires Extends(b, b') && Extends(b', b'')
    ensures Extends(b, b'')
  {
    LogBeforeTwice(b''.log, b.view, b'.view);
  }

  lemma ChainKept(b: Base)
    requires BaseOk(b)
    ensures b.view !in b.byHeight && b.view !in b.certHash && b.view + 1 !in b.reputation
    ensures b.view >= 1 && LogBefore(b.log, b.view) == b.log
  {
    hide LeaderRows;
    hide Linked;
    hide GoodTable;
    LogWhole(b.log, b.view - 1);
  }

  ghost predicate KeepsTables(reputation: map<nat, Table>, next: map<nat, Table>) {
    forall v :: v in reputation ==> v in next && next[v] == reputation[v]
  }

  lemma NextKeepsTables(f: real -> real, b: Base, log: Transcript)
    requires b.view + 1 !in b.reputation
    ensures KeepsTables(b.reputation, NextReputation(f, b, log))
  {}

  lemma ExtendsBy(b: Base, next: Base, k: Block)
    requires next.n == b.n && next.view == b.view + 1 && LogBefore(next.log, b.view) == b.log
    requires b.view !in b.byHeight && b.view !in b.certHash && KeepsTables(b.reputation, next.reputation)
    requires next.byHeight == b.byHeight[b.view := k] && next.certHash == b.certHash[b.view := BlockHash(k)]
    ensures Extends(b, next)
  {}

  lemma NextExtends(f: real -> real, c: Scene)
    requires BaseOk(c.base)
    ensures c.base.n > 0 && Extends(c.base, NextBase(f, c))
  {
    ChainKept(c.base);
    LogLater(c, c.base.view);
    NextKeepsTables(f, c.base, NextLog(c));
    ExtendsBy(c.base, NextBase(f, c), RoundBlock(c));
  }

  // Runs

  ghost predicate Good(cfg: Config, s: System) {
    Whole(Inv(cfg, s) && History(cfg, s.base))
  }

  lemma BaseUnchanged(cfg: Config, s: System, a: Action)
    requires Enabled(cfg, s, a) && !a.Close?
    ensures Apply(cfg, s, a).base == s.base
  {}

  lemma BaseClosed(cfg: Config, s: System, a: Action)
    requires CanStep(cfg, s, a) && a.Close?
    ensures s.base.n > 0
    ensures var b := Apply(cfg, s, a).base; b == s.base || b == NextBase(cfg.f, SceneOf(cfg, s))
  {
    hide Inv;
    hide Enabled;
    hide Callback;
    hide NextLog;
    hide NextReputation;
    BaseHolds(cfg, s);
    CloseEnabled(cfg, s, a.id, a.withheld);
    if Commits(SceneOf(cfg, s)) {
      ClosesFresh(cfg, s, a.id, a.withheld);
    } else {
      NodeStalls(cfg, s, a.id);
    }
  }

  lemma BaseMoves(cfg: Config, s: System, a: Action)
    requires CanStep(cfg, s, a)
    ensures s.base.n > 0
    ensures var b := Apply(cfg, s, a).base; b == s.base || b == NextBase(cfg.f, SceneOf(cfg, s))
  {
    if a.Close? {
      BaseClosed(cfg, s, a);
    } else {
      BaseUnchanged(cfg, s, a);
    }
  }

  lemma BaseGrows(cfg: Config, s: System, a: Action)
    requires CanStep(cfg, s, a) && History(cfg, s.base)
    ensures Extends(s.base, Apply(cfg, s, a).base) && History(cfg, Apply(cfg, s, a).base)
  {
    BaseMoves(cfg, s, a);
    ExtendsSelf(s.base);
    NextExtends(cfg.f, SceneOf(cfg, s));
    HistoryGrows(cfg, s);
  }

  lemma StepKeepsGood(cfg: Config, s: System, a: Action, s': System)
    requires Good(cfg, s) && Steps(cfg, s, a, s')
    ensures Good(cfg, s') && Extends(s.base, s'.base)
  {
    StepKeepsInv(cfg, s, a);
    BaseGrows(cfg, s, a);
  }

  lemma InitGood(cfg: Config, s: System)
    requires Init(cfg, s)
    ensures Good(cfg, s)
  {
    InitKeeps(cfg, s);
    InitialHistory(cfg);
  }

  /** What holds in state k and is kept by every later step holds in every later state. */
  lemma {:induction false} Along<S>(states: seq<S>, good: S -> bool, k: nat, l: nat)
    requires k <= l < |states| && good(states[k])
    requires forall i :: k < i < |states| && good(states[i - 1]) ==> good(states[i])
    ensures good(states[l])
    decreases l
  {
    if l > k {
      Along(states, good, k, l - 1);
    }
  }

  ghost predicate GoodFrom(cfg: Config, b: Base, s: System) {
    Whole(Good(cfg, s) && Extends(b, s.base))
  }

  lemma FromOn(cfg: Config, b: Base, s: System, s': System)
    requires Good(cfg, s') && Extends(s.base, s'.base)
    ensures GoodFrom(cfg, b, s) ==> GoodFrom(cfg, b, s')
  {
    if Extends(b, s.base) {
      ExtendsOn(b, s.base, s'.base);
    }
  }

  lemma StepFrom(cfg: Config, b: Base, s: System, a: Action, s': System)
    requires Steps(cfg, s, a, s')
    ensures Good(cfg, s) ==> Good(cfg, s')
    ensures GoodFrom(cfg, b, s) ==> GoodFrom(cfg, b, s')
  {
    if Good(cfg, s) {
      StepKeepsGood(cfg, s, a, s');
      FromOn(cfg, b, s, s');
    }
  }

  lemma RunGood(cfg: Config, states: seq<System>, actions: seq<Action>, k: nat)
    requires IsRun(cfg, states, actions) && k < |states|
    ensures Good(cfg, states[k])
  {
    InitGood(cfg, states[0]);
    forall i | 1 <= i < |states|
      ensures Good(cfg, states[i - 1]) ==> Good(cfg, states[i])
    {
      StepFrom(cfg, states[0].base, states[i - 1], actions[i - 1], states[i]);
    }
    Along(states, s => Good(cfg, s), 0, k);
  }

  lemma GoodFromSelf(cfg: Config, s: System)
    requires Good(cfg, s)
    ensures GoodFrom(cfg, s.base, s)
  {
    ExtendsSelf(s.base);
  }

  /** What is settled in one state of a run stays settled in all later ones. */
  lemma RunExtends(cfg: Config, states: seq<System>, actions: seq<Action>, k: nat, l: nat)
    requires IsRun(cfg, states, actions) && k <= l < |states|
    ensures GoodFrom(cfg, states[k].base, states[l])
  {
    var b := states[k].base;
    RunGood(cfg, states, actions, k);
    GoodFromSelf(cfg, states[k]);
    forall i | k < i < |states|
      ensures GoodFrom(cfg, b, states[i - 1]) ==> GoodFrom(cfg, b, states[i])
    {
      StepFrom(cfg, b, states[i - 1], actions[i - 1], states[i]);
    }
    Along(states, s => GoodFrom(cfg, b, s), k, l);
  }
}
