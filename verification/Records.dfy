/** When a correct node gets on record, exactly: at the end of a round, and in every view that is
    over, it is on every correct node's record if and only if in that view somebody sent a message
    that reuses its signature against it. */
module Records {
  import opened Messages
  import opened Weights
  import opened Tallies
  import opened Reputation
  import opened Replicas
  import opened Rounds
  import opened RoundEnds
  import opened Runs
  import opened Safety
  import opened Accusations
  import opened Agreement
  import opened Progress

  // Everything stray is reported

  /** If the message is a stray vote or proposal, the report of the node that has handled it is
      around. Node 0 does not report proposals. */
  ghost predicate Reported(b: Base, i: nat, m: Msg, pool: set<Msg>) {
    match m
    case PropMsg(p) =>
      i != 0 && StrayProposal(b, p) ==> MaliciousProposalMsg(Accuse(i, p.miner, b.view), p) in pool
    case VoteMsg(v) => v.owner != b.leader ==> MaliciousVoteMsg(Accuse(i, v.voter, b.view), v) in pool
    case _ => true
  }

  ghost predicate AllReported(b: Base, seen: map<nat, set<Msg>>, pool: set<Msg>) {
    forall i, m :: i in seen && m in seen[i] ==> Reported(b, i, m, pool)
  }

  ghost predicate ReportedIn(s: System) {
    AllReported(s.base, s.seen, s.pool)
  }

  lemma ReportsStay(b: Base, seen: map<nat, set<Msg>>, pool: set<Msg>, more: set<Msg>)
    requires AllReported(b, seen, pool) && pool <= more
    ensures AllReported(b, seen, more)
  {
    forall i, m | i in seen && m in seen[i]
      ensures Reported(b, i, m, more)
    {
      assert Reported(b, i, m, pool);
    }
  }

  lemma ReportsOneMore(b: Base, seen: map<nat, set<Msg>>, pool: set<Msg>, i: nat, m: Msg)
    requires AllReported(b, seen, pool) && i in seen && Reported(b, i, m, pool)
    ensures AllReported(b, seen[i := seen[i] + {m}], pool)
  {
    hide Reported;
  }

  lemma DispatchReports(b: Base, r: Replica, m: Msg, ids: seq<nat>, pool: set<Msg>)
    requires r.n == b.n && r.view == b.view && r.leader == b.leader && Dispatch(r, m, ids).out <= pool
    ensures Reported(b, r.id, m, pool)
  {
    hide HandleForward;
  }

  lemma DeliverReports(cfg: Config, s: System, i: nat, m: Msg, ids: seq<nat>)
    requires CanStep(cfg, s, Deliver(i, m, ids)) && ReportedIn(s)
    ensures ReportedIn(Apply(cfg, s, Deliver(i, m, ids)))
  {
    hide Inv;
    hide Enabled;
    hide Dispatch;
    hide AllReported;
    hide Reported;
    DeliverEnabled(cfg, s, i, m, ids);
    NodeOf(cfg, s, i);
    var pool := s.pool + Dispatch(s.reps[i], m, ids).out;
    DispatchReports(s.base, s.reps[i], m, ids, pool);
    ReportsStay(s.base, s.seen, s.pool, pool);
    ReportsOneMore(s.base, s.seen, pool, i, m);
  }

  lemma NothingSeen(b: Base, ids: set<nat>, pool: set<Msg>)
    ensures AllReported(b, Silence(ids), pool)
  {}

  lemma CloseReports(cfg: Config, s: System, i: nat, withheld: bool)
    requires Enabled(cfg, s, Close(i, withheld)) && ReportedIn(s)
    ensures ReportedIn(Apply(cfg, s, Close(i, withheld)))
  {
    hide AllReported;
    CloseEnabled(cfg, s, i, withheld);
    hide Enabled;
    hide Callback;
    NothingSeen(Apply(cfg, s, Close(i, withheld)).base, cfg.correct, {});
  }

  lemma OthersSee(cfg: Config, s: System, a: Action)
    requires Enabled(cfg, s, a) && !a.Deliver? && !a.Close?
    ensures var s' := Apply(cfg, s, a); s'.base == s.base && s'.seen == s.seen && s.pool <= s'.pool
  {
    hide Start;
    hide Dispatch;
  }

  ghost predicate GoodReported(cfg: Config, s: System) {
    Whole(Good(cfg, s) && ReportedIn(s))
  }

  lemma StepReports(cfg: Config, s: System, a: Action, s': System)
    requires Steps(cfg, s, a, s')
    ensures GoodReported(cfg, s) ==> GoodReported(cfg, s')
  {
    hide Inv;
    hide History;
    hide Enabled;
    hide AllReported;
    hide Apply;
    if GoodReported(cfg, s) {
      StepKeepsGood(cfg, s, a, s');
      if a.Deliver? {
        DeliverReports(cfg, s, a.id, a.m, a.ids);
      } else if a.Close? {
        CloseReports(cfg, s, a.id, a.withheld);
      } else {
        OthersSee(cfg, s, a);
        ReportsStay(s.base, s.seen, s.pool, s'.pool);
      }
    }
  }

  lemma InitReported(cfg: Config, s: System)
    requires Init(cfg, s)
    ensures GoodReported(cfg, s)
  {
    hide Good;
    InitGood(cfg, s);
    NothingSeen(s.base, cfg.correct, s.pool);
  }

  lemma RunReported(cfg: Config, states: seq<System>, actions: seq<Action>, k: nat)
    requires IsRun(cfg, states, actions) && k < |states|
    ensures GoodReported(cfg, states[k])
  {
    hide GoodReported;
    hide Steps;
    InitReported(cfg, states[0]);
    forall i | 1 <= i < |states|
      ensures GoodReported(cfg, states[i - 1]) ==> GoodReported(cfg, states[i])
    {
      StepReports(cfg, states[i - 1], actions[i - 1], states[i]);
    }
    Along(states, s => GoodReported(cfg, s), 0, k);
  }

  // Where incriminating messages come from

  /** The stray vote or proposal that evidence shows. */
  function Shown(m: Msg): Msg {
    match m
    case MaliciousProposalMsg(_, e) => PropMsg(e)
    case MaliciousVoteMsg(_, ev) => VoteMsg(ev)
    case _ => m
  }

  /** A stray proposal is reported by correct nodes other than node 0. */
  ghost predicate Heeded(cfg: Config, m: Msg) {
    m.PropMsg? ==> exists j :: j in cfg.correct && j != 0
  }

  lemma StrayAnswered(b: Base, r: Replica, q: Msg, ids: seq<nat>, m: Msg)
    requires r.n == b.n && r.leader == b.leader && q.PropMsg? && StrayProposal(b, q.p) && m in Dispatch(r, q, ids).out
    ensures r.id != 0
  {}

  lemma AnswerOrigin(b: Base, q: Msg, m: Msg)
    requires FairAnswer(b, q, m) && Incriminates(b, m)
    ensures Shown(m) == q && Incriminates(b, q) && !q.MaliciousProposalMsg? && !q.MaliciousVoteMsg?
  {}

  lemma DeliverOrigin(cfg: Config, s: System, i: nat, q: Msg, ids: seq<nat>, m: Msg)
    requires Inv(cfg, s) && i in cfg.correct && i in s.reps && q in s.pool && m in Dispatch(s.reps[i], q, ids).out
    requires Incriminates(s.base, m)
    ensures Shown(m) == q && Incriminates(s.base, q) && Shown(q) == q && Heeded(cfg, q)
  {
    NodeOf(cfg, s, i);
    assert Standing(cfg, s.base, s.raw, q);
    hide Inv;
    hide Dispatch;
    DispatchAnswersFairly(cfg, s.base, s.reps[i], s.raw, q, ids, m);
    AnswerOrigin(s.base, q, m);
    if q.PropMsg? {
      StrayAnswered(s.base, s.reps[i], q, ids, m);
    }
  }

  lemma TakeOrigin(cfg: Config, s: System, i: nat, m: Msg)
    requires CanStep(cfg, s, TakeProposal(i)) && i in s.reps && i in s.raw
    requires m in Dispatch(s.reps[i], PropMsg(s.raw[i]), []).out
    ensures !Incriminates(s.base, m)
  {
    hide RoundOk;
    hide NodesOk;
    hide PoolOk;
    hide BaseOk;
    hide Dispatch;
    TakesProposal(cfg, s, i);
  }

  lemma TakePool(cfg: Config, s: System, i: nat)
    requires Enabled(cfg, s, TakeProposal(i))
    ensures i in s.reps && i in s.raw && Apply(cfg, s, TakeProposal(i)).base == s.base
    ensures Apply(cfg, s, TakeProposal(i)).pool == s.pool + Dispatch(s.reps[i], PropMsg(s.raw[i]), []).out
  {
    hide Dispatch;
  }

  lemma ClosePool(cfg: Config, s: System, a: Action)
    requires Enabled(cfg, s, a) && a.Close?
    ensures var s' := Apply(cfg, s, a);
            if s'.base.view == s.base.view then s'.base == s.base && s'.pool == s.pool else s'.pool == {}
  {
    CloseEnabled(cfg, s, a.id, a.withheld);
  }

  lemma StillPool(cfg: Config, s: System, a: Action)
    requires Enabled(cfg, s, a) && (a.Begin? || a.SendProposal?)
    ensures Apply(cfg, s, a).pool == s.pool && Apply(cfg, s, a).base == s.base
  {
    hide Start;
  }

  /** An incriminating message was around before, has just been injected, or reports one that was
      around before. */
  lemma StepOrigin(cfg: Config, s: System, a: Action, s': System, m: Msg)
    requires Good(cfg, s) && Steps(cfg, s, a, s') && m in s'.pool && Incriminates(s'.base, m)
    ensures s'.base == s.base
    ensures m in s.pool || a == Inject(m) || (Shown(m) in s.pool && Incriminates(s.base, Shown(m))
                                              && Shown(Shown(m)) == Shown(m) && Heeded(cfg, Shown(m)))
  {
    hide Inv;
    hide History;
    hide Enabled;
    hide Incriminates;
    hide Heeded;
    hide Dispatch;
    hide Acted;
    match a
    case Begin(_, _) => StillPool(cfg, s, a);
    case SendProposal(_, _) => StillPool(cfg, s, a);
    case Inject(x) => InjectEnabled(cfg, s, x);
    case Close(_, _) => ClosePool(cfg, s, a);
    case TakeProposal(i) =>
      TakePool(cfg, s, i);
      if m !in s.pool {
        TakeOrigin(cfg, s, i, m);
      }
    case Deliver(i, q, ids) =>
      DeliverEnabled(cfg, s, i, q, ids);
      if m !in s.pool {
        DeliverOrigin(cfg, s, i, q, ids, m);
      }
  }

  /** The message was injected earlier in the view of the k-th state. */
  ghost predicate Injected(states: seq<System>, actions: seq<Action>, k: nat, m: Msg)
    requires |states| == |actions| + 1 && k < |states|
  {
    exists l :: 0 <= l < k && actions[l] == Inject(m) && states[l].base == states[k].base
  }

  lemma InjectedBefore(states: seq<System>, actions: seq<Action>, k: nat, m: Msg)
    requires |states| == |actions| + 1 && 0 < k < |states| && states[k - 1].base == states[k].base
    requires Injected(states, actions, k - 1, m) || actions[k - 1] == Inject(m)
    ensures Injected(states, actions, k, m)
  {}

  lemma {:induction false} PoolOrigin(cfg: Config, states: seq<System>, actions: seq<Action>, k: nat, m: Msg)
    requires IsRun(cfg, states, actions) && k < |states| && m in states[k].pool && Incriminates(states[k].base, m)
    ensures Injected(states, actions, k, m) || (Injected(states, actions, k, Shown(m))
                                                && Incriminates(states[k].base, Shown(m)) && Heeded(cfg, Shown(m)))
    decreases k
  {
    hide Steps;
    hide Good;
    hide Incriminates;
    hide Shown;
    hide Heeded;
    hide Injected;
    if k > 0 {
      RunGood(cfg, states, actions, k - 1);
      StepOrigin(cfg, states[k - 1], actions[k - 1], states[k], m);
      if m in states[k - 1].pool {
        PoolOrigin(cfg, states, actions, k - 1, m);
        InjectedEarlier(states, actions, k, m);
      } else if actions[k - 1] == Inject(m) {
        InjectedBefore(states, actions, k, m);
      } else {
        PoolOrigin(cfg, states, actions, k - 1, Shown(m));
        InjectedBefore(states, actions, k, Shown(m));
      }
    }
  }

  lemma InjectedEarlier(states: seq<System>, actions: seq<Action>, k: nat, m: Msg)
    requires |states| == |actions| + 1 && 0 < k < |states| && states[k - 1].base == states[k].base
    requires Injected(states, actions, k - 1, m) || Injected(states, actions, k - 1, Shown(m))
    ensures Injected(states, actions, k - 1, m) ==> Injected(states, actions, k, m)
    ensures Injected(states, actions, k - 1, Shown(m)) ==> Injected(states, actions, k, Shown(m))
  {
    hide Shown;
  }

  // What is said stays said

  lemma StepPool(cfg: Config, s: System, a: Action, s': System)
    requires Good(cfg, s) && Steps(cfg, s, a, s')
    ensures s'.base.view >= s.base.view && (s'.base.view == s.base.view ==> s'.base == s.base && s.pool <= s'.pool)
    ensures s'.base.view <= s.base.view + 1 && (s'.base.view > s.base.view ==> a.Close?)
  {
    hide Inv;
    hide History;
    hide Enabled;
    hide Acted;
    hide Dispatch;
    StepKeepsGood(cfg, s, a, s');
    match a
    case Begin(_, _) => StillPool(cfg, s, a);
    case SendProposal(_, _) => StillPool(cfg, s, a);
    case Inject(x) => InjectEnabled(cfg, s, x);
    case TakeProposal(i) => TakePool(cfg, s, i);
    case Deliver(i, q, ids) => DeliverEnabled(cfg, s, i, q, ids);
    case Close(_, _) =>
      ClosePool(cfg, s, a);
      BaseMoves(cfg, s, a);
  }

  ghost predicate KeepsSaid(cfg: Config, b: Base, m: Msg, s: System) {
    Whole(Good(cfg, s) && s.base.view >= b.view && (s.base.view == b.view ==> s.base == b && m in s.pool))
  }

  lemma StepKeepsSaid(cfg: Config, b: Base, m: Msg, s: System, a: Action, s': System)
    requires Steps(cfg, s, a, s')
    ensures KeepsSaid(cfg, b, m, s) ==> KeepsSaid(cfg, b, m, s')
  {
    hide Good;
    hide Steps;
    if KeepsSaid(cfg, b, m, s) {
      StepKeepsGood(cfg, s, a, s');
      StepPool(cfg, s, a, s');
    }
  }

  lemma StaysSaid(cfg: Config, states: seq<System>, actions: seq<Action>, l: nat, k: nat, m: Msg)
    requires IsRun(cfg, states, actions) && l <= k < |states| && m in states[l].pool
    requires states[k].base.view == states[l].base.view
    ensures states[k].base == states[l].base && m in states[k].pool
  {
    hide Good;
    hide Steps;
    var b := states[l].base;
    RunGood(cfg, states, actions, l);
    forall i | l < i < |states|
      ensures KeepsSaid(cfg, b, m, states[i - 1]) ==> KeepsSaid(cfg, b, m, states[i])
    {
      StepKeepsSaid(cfg, b, m, states[i - 1], actions[i - 1], states[i]);
    }
    Along(states, s => KeepsSaid(cfg, b, m, s), l, k);
  }

  lemma ViewsGrow(cfg: Config, states: seq<System>, actions: seq<Action>, l: nat, k: nat)
    requires IsRun(cfg, states, actions) && l <= k < |states|
    ensures states[l].base.view <= states[k].base.view
  {
    hide IsRun;
    hide Good;
    RunExtends(cfg, states, actions, l, k);
  }

  // Framing messages

  datatype Offence = VotingOffence | ProposingOffence

  predicate Alleges(m: Msg, o: Offence) {
    if o.VotingOffence? then m.VoteMsg? || m.MaliciousVoteMsg? else m.PropMsg? || m.MaliciousProposalMsg?
  }

  function RecordFor(log: Transcript, o: Offence): Tally {
    if o.VotingOffence? then log.maliciousVotes else log.maliciousProposals
  }

  /** For what a correct node may say or be accused of, framing it is the same as incriminating it. */
  lemma FramesIff(cfg: Config, s: System, m: Msg)
    requires GoodSigned(cfg, s) && Enabled(cfg, s, Inject(m)) && Author(m) in cfg.correct
    ensures FramesIn(s, m) <==> Incriminates(s.base, m)
  {
    InjectEnabled(cfg, s, m);
    if !FramesIn(s, m) {
      hide GoodSigned;
      hide Enabled;
      hide Lawful;
      hide Unforged;
      InjectedInnocent(cfg, s, m);
    }
  }

  /** The l-th action, in view v, injects a message that frames `id`. */
  ghost predicate FramesAt(cfg: Config, states: seq<System>, actions: seq<Action>, l: nat, v: nat, id: nat, o: Offence)
    requires |states| == |actions| + 1 && l < |actions|
  {
    && states[l].base.view == v && actions[l].Inject?
    && Author(actions[l].m) == id && Alleges(actions[l].m, o) && Heeded(cfg, actions[l].m)
    && FramesIn(states[l], actions[l].m)
  }

  ghost predicate FramedBefore(cfg: Config, states: seq<System>, actions: seq<Action>, k: nat, v: nat, id: nat,
                               o: Offence)
    requires |states| == |actions| + 1 && k < |states|
  {
    exists l: nat :: l < k && FramesAt(cfg, states, actions, l, v, id, o)
  }

  // At the end of a round

  /** Evidence of the offence against `id`. */
  predicate Indicts(b: Base, m: Msg, id: nat, o: Offence) {
    && Author(m) == id
    && if o.VotingOffence? then IsVoteEvidence(b, m) else IsProposalEvidence(b, m)
  }

  ghost predicate Indicted(b: Base, pool: set<Msg>, id: nat, o: Offence) {
    exists m :: m in pool && Indicts(b, m, id, o)
  }

  lemma OnRecordIffIndicted(cfg: Config, s: System, i: nat, id: nat, o: Offence)
    requires GoodSigned(cfg, s) && Quiet(cfg, s) && i in cfg.correct
    ensures i in s.reps && s.reps[i].view == s.base.view
    ensures Marked(RecordFor(s.reps[i].log, o), s.base.view, id) <==> Indicted(s.base, s.pool, id, o)
  {
    hide GoodSigned;
    hide Marked;
    RecordedBy(cfg, s, i, id);
    assert s.seen[i] == s.pool;
    HeardIndicted(s.base, s.pool, id);
  }

  lemma HeardIndicted(b: Base, pool: set<Msg>, id: nat)
    ensures id in Hear(b, pool).maliciousVoters <==> Indicted(b, pool, id, VotingOffence)
    ensures id in Hear(b, pool).maliciousProposers <==> Indicted(b, pool, id, ProposingOffence)
  {
    hide MaliciousVoteValid;
    hide MaliciousProposalValid;
    if id in Hear(b, pool).maliciousVoters {
      var m :| m in pool && IsVoteEvidence(b, m) && m.ev.voter == id;
      assert Indicts(b, m, id, VotingOffence);
    }
    if Indicted(b, pool, id, VotingOffence) {
      var m :| m in pool && Indicts(b, m, id, VotingOffence);
    }
    if id in Hear(b, pool).maliciousProposers {
      var m :| m in pool && IsProposalEvidence(b, m) && m.e.miner == id;
      assert Indicts(b, m, id, ProposingOffence);
    }
    if Indicted(b, pool, id, ProposingOffence) {
      var m :| m in pool && Indicts(b, m, id, ProposingOffence);
    }
  }

  /** The framing message has come to somebody who reports it. */
  lemma FramerIndicts(cfg: Config, s: System, i: nat, m: Msg, o: Offence)
    requires GoodReported(cfg, s) && Quiet(cfg, s) && i in cfg.correct && m in s.pool
    requires Incriminates(s.base, m) && Alleges(m, o) && Heeded(cfg, m)
    ensures Indicted(s.base, s.pool, Author(m), o)
  {
    hide Good;
    if m.VoteMsg? {
      ReportIndicts(cfg, s, i, m, MaliciousVoteMsg(Accuse(i, m.v.voter, s.base.view), m.v));
    } else if m.PropMsg? {
      var j :| j in cfg.correct && j != 0;
      ReportIndicts(cfg, s, j, m, MaliciousProposalMsg(Accuse(j, m.p.miner, s.base.view), m.p));
    } else {
      assert Indicts(s.base, m, Author(m), o);
    }
  }

  lemma ReportIndicts(cfg: Config, s: System, i: nat, m: Msg, x: Msg)
    requires GoodReported(cfg, s) && Quiet(cfg, s) && i in cfg.correct && m in s.pool && Incriminates(s.base, m)
    requires (m.VoteMsg? && x == MaliciousVoteMsg(Accuse(i, m.v.voter, s.base.view), m.v))
             || (m.PropMsg? && i != 0 && x == MaliciousProposalMsg(Accuse(i, m.p.miner, s.base.view), m.p))
    ensures x in s.pool && Indicts(s.base, x, Author(m), if m.VoteMsg? then VotingOffence else ProposingOffence)
  {
    hide Inv;
    hide History;
    NodeOf(cfg, s, i);
    CorrectIsNode(cfg, s, i);
    SeenAll(cfg, s, i);
    assert Reported(s.base, i, m, s.pool);
  }

  lemma SeenAll(cfg: Config, s: System, i: nat)
    requires Inv(cfg, s) && Quiet(cfg, s) && i in cfg.correct
    ensures i in s.seen && s.seen[i] == s.pool
  {
    hide Inv;
    NodeHandles(cfg, s, i);
  }

  lemma StepAt(cfg: Config, states: seq<System>, actions: seq<Action>, l: nat)
    requires IsRun(cfg, states, actions) && l < |actions|
    ensures Steps(cfg, states[l], actions[l], states[l + 1]) && Enabled(cfg, states[l], actions[l])
  {
    hide Enabled;
  }

  /** An injected message that incriminates a correct node frames it. */
  lemma InjectedFrames(cfg: Config, states: seq<System>, actions: seq<Action>, k: nat, m: Msg, o: Offence)
    requires IsRun(cfg, states, actions) && k < |states| && Injected(states, actions, k, m)
    requires Incriminates(states[k].base, m) && Author(m) in cfg.correct && Alleges(m, o) && Heeded(cfg, m)
    ensures FramedBefore(cfg, states, actions, k, states[k].base.view, Author(m), o)
  {
    hide GoodSigned;
    hide Steps;
    hide Enabled;
    hide Incriminates;
    hide FramesIn;
    hide Heeded;
    hide Alleges;
    var l :| 0 <= l < k && actions[l] == Inject(m) && states[l].base == states[k].base;
    RunSigned(cfg, states, actions, l);
    StepAt(cfg, states, actions, l);
    FramesIff(cfg, states[l], m);
    assert FramesAt(cfg, states, actions, l, states[k].base.view, Author(m), o);
  }

  lemma IndictedFrames(cfg: Config, states: seq<System>, actions: seq<Action>, k: nat, m: Msg, o: Offence)
    requires IsRun(cfg, states, actions) && k < |states| && m in states[k].pool
    requires Author(m) in cfg.correct && Indicts(states[k].base, m, Author(m), o)
    ensures FramedBefore(cfg, states, actions, k, states[k].base.view, Author(m), o)
  {
    hide Init;
    hide Steps;
    hide Injected;
    PoolOrigin(cfg, states, actions, k, m);
    if Injected(states, actions, k, m) {
      InjectedFrames(cfg, states, actions, k, m, o);
    } else {
      InjectedFrames(cfg, states, actions, k, Shown(m), o);
    }
  }

  /** At the end of a round, a correct node is on a correct node's record for the view if and only if
      somebody has framed it in the view. */
  lemma QuietRecordIff(cfg: Config, states: seq<System>, actions: seq<Action>, k: nat, i: nat, id: nat, o: Offence)
    requires IsRun(cfg, states, actions) && k < |states| && Quiet(cfg, states[k])
    requires i in cfg.correct && id in cfg.correct
    ensures i in states[k].reps && states[k].reps[i].view == states[k].base.view
    ensures Marked(RecordFor(states[k].reps[i].log, o), states[k].base.view, id)
       <==> FramedBefore(cfg, states, actions, k, states[k].base.view, id, o)
  {
    hide Good;
    hide GoodSigned;
    hide Steps;
    hide Init;
    hide Marked;
    hide Quiet;
    hide FramedBefore;
    var s := states[k];
    RunSigned(cfg, states, actions, k);
    OnRecordIffIndicted(cfg, s, i, id, o);
    if Indicted(s.base, s.pool, id, o) {
      var m :| m in s.pool && Indicts(s.base, m, id, o);
      IndictedFrames(cfg, states, actions, k, m, o);
    }
    if FramedBefore(cfg, states, actions, k, s.base.view, id, o) {
      FramedIndicts(cfg, states, actions, k, i, id, o);
    }
  }

  lemma FramedIndicts(cfg: Config, states: seq<System>, actions: seq<Action>, k: nat, i: nat, id: nat, o: Offence)
    requires IsRun(cfg, states, actions) && k < |states| && Quiet(cfg, states[k])
    requires i in cfg.correct && id in cfg.correct
    requires FramedBefore(cfg, states, actions, k, states[k].base.view, id, o)
    ensures Indicted(states[k].base, states[k].pool, id, o)
  {
    hide GoodReported;
    hide Steps;
    hide Enabled;
    hide Init;
    hide Quiet;
    hide Heeded;
    hide Alleges;
    hide Incriminates;
    var l: nat :| l < k && FramesAt(cfg, states, actions, l, states[k].base.view, id, o);
    var m := actions[l].m;
    StepAt(cfg, states, actions, l);
    InjectEnabled(cfg, states[l], m);
    InjectStep(cfg, states[l], m, states[l + 1]);
    StaysSaid(cfg, states, actions, l + 1, k, m);
    FramesIncriminate(states[l], m);
    RunReported(cfg, states, actions, k);
    FramerIndicts(cfg, states[k], i, m, o);
  }

  lemma InjectStep(cfg: Config, s: System, m: Msg, s': System)
    requires Steps(cfg, s, Inject(m), s')
    ensures s'.base == s.base && m in s'.pool
  {
    hide Lawful;
    hide Unforged;
    InjectEnabled(cfg, s, m);
  }

  lemma FramesIncriminate(s: System, m: Msg)
    requires FramesIn(s, m)
    ensures Incriminates(s.base, m)
  {
    hide Incriminates;
  }

  // Views that are over

  lemma FirstView(cfg: Config, s: System)
    requires Init(cfg, s)
    ensures s.base.view == 1
  {}

  /** The step that leaves a view. */
  lemma {:induction false} Leaves(cfg: Config, states: seq<System>, actions: seq<Action>, k: nat, v: nat)
    returns (c: nat)
    requires IsRun(cfg, states, actions) && k < |states| && 1 <= v < states[k].base.view
    ensures c < k && states[c].base.view == v && states[c + 1].base.view == v + 1 && actions[c].Close?
  {
    hide Good;
    hide Steps;
    hide Init;
    FirstView(cfg, states[0]);
    RunGood(cfg, states, actions, k - 1);
    StepPool(cfg, states[k - 1], actions[k - 1], states[k]);
    if states[k - 1].base.view > v {
      c := Leaves(cfg, states, actions, k - 1, v);
    } else {
      c := k - 1;
    }
  }

  lemma BeforeMarks(t: Tally, w: nat, v: nat, id: nat)
    requires v < w
    ensures Marked(Before(t, w), v, id) <==> Marked(t, v, id)
  {}

  lemma LogMarks(log: Transcript, log': Transcript, w: nat, v: nat, id: nat, o: Offence)
    requires LogBefore(log, w) == LogBefore(log', w) && v < w
    ensures Marked(RecordFor(log, o), v, id) <==> Marked(RecordFor(log', o), v, id)
  {
    hide Marked;
    hide Before;
    BeforeMarks(RecordFor(log, o), w, v, id);
    BeforeMarks(RecordFor(log', o), w, v, id);
  }

  /** A view's framing messages are those sent before it was left. */
  lemma FramedUntil(cfg: Config, states: seq<System>, actions: seq<Action>, c: nat, k: nat, id: nat, o: Offence)
    requires IsRun(cfg, states, actions) && c < k < |states| && actions[c].Close?
    requires states[c + 1].base.view > states[c].base.view
    ensures FramedBefore(cfg, states, actions, c, states[c].base.view, id, o)
       <==> FramedBefore(cfg, states, actions, k, states[c].base.view, id, o)
  {
    hide Steps;
    hide Init;
    hide FramesIn;
    hide Heeded;
    var v := states[c].base.view;
    if FramedBefore(cfg, states, actions, k, v, id, o) {
      var l: nat :| l < k && FramesAt(cfg, states, actions, l, v, id, o);
      if l > c {
        ViewsGrow(cfg, states, actions, c + 1, l);
      }
      assert l < c;
    }
    if FramedBefore(cfg, states, actions, c, v, id, o) {
      var l: nat :| l < c && FramesAt(cfg, states, actions, l, v, id, o);
      assert l < k;
    }
  }

  lemma CallbackLog(f: real -> real, r: Replica)
    requires r.n > 0
    ensures Callback(f, r).log == r.log
  {}

  /** What a view's last round has recorded is what every later state has on record for it. */
  lemma RecordStays(cfg: Config, states: seq<System>, actions: seq<Action>, c: nat, k: nat, i: nat, id: nat,
                    o: Offence)
    requires IsRun(cfg, states, actions) && c < k < |states| && actions[c].Close? && i in cfg.correct
    requires states[c + 1].base.view == states[c].base.view + 1
    ensures i in states[c].reps && i in states[k].reps
    ensures Marked(RecordFor(states[c].reps[i].log, o), states[c].base.view, id)
       <==> Marked(RecordFor(states[k].reps[i].log, o), states[c].base.view, id)
  {
    hide Enabled;
    hide Good;
    hide Steps;
    hide Init;
    hide Marked;
    hide Callback;
    StepAt(cfg, states, actions, c);
    ClosedNode(cfg, states[c], actions[c], states[c + 1], i);
    CallbackLog(cfg.f, states[c].reps[i]);
    LedgerAgreement(cfg, states, actions, c + 1, k, i, i);
    RunGood(cfg, states, actions, c + 1);
    NodeFollows(cfg, states[c + 1], i);
    LogMarks(states[c + 1].reps[i].log, states[k].reps[i].log, states[c + 1].base.view, states[c].base.view, id, o);
  }

  /** In every state of a run, for every view that is over: a correct node is on a correct node's
      record for an offence in that view if and only if somebody framed it in that view. */
  lemma PastRecordIff(cfg: Config, states: seq<System>, actions: seq<Action>, k: nat, i: nat, v: nat, id: nat,
                      o: Offence)
    requires IsRun(cfg, states, actions) && k < |states| && i in cfg.correct && id in cfg.correct
    requires 1 <= v < states[k].base.view
    ensures i in states[k].reps && states[k].reps[i].view == states[k].base.view
    ensures Marked(RecordFor(states[k].reps[i].log, o), v, id) <==> FramedBefore(cfg, states, actions, k, v, id, o)
  {
    hide Good;
    hide Steps;
    hide Init;
    hide Marked;
    hide FramedBefore;
    var c := Leaves(cfg, states, actions, k, v);
    RunGood(cfg, states, actions, c);
    StepAt(cfg, states, actions, c);
    ClosedQuiet(cfg, states[c], actions[c]);
    QuietRecordIff(cfg, states, actions, c, i, id, o);
    RecordStays(cfg, states, actions, c, k, i, id, o);
    FramedUntil(cfg, states, actions, c, k, id, o);
    RunGood(cfg, states, actions, k);
    NodeFollows(cfg, states[k], i);
  }

  lemma ClosedQuiet(cfg: Config, s: System, a: Action)
    requires Enabled(cfg, s, a) && a.Close?
    ensures Quiet(cfg, s)
  {
    CloseEnabled(cfg, s, a.id, a.withheld);
  }
}
