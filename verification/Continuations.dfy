/** How runs go on by themselves: what the correct nodes alone can still bring about in a view, and
    that whatever has happened so far, they can bring its round to an end. */
module Continuations {
  import opened Messages
  import opened Weights
  import opened Tallies
  import opened Reputation
  import opened Replicas
  import opened Rounds
  import opened RoundEnds
  import opened Runs
  import opened Safety

  // What the correct nodes add

  ghost function Forwarders(s: System): set<nat> {
    Senders(Hear(s.base, s.pool).forwards)
  }

  ghost function BallotVoters(s: System): set<nat> {
    Voters(Hear(s.base, s.pool).votes)
  }

  /** Still in the same view, and whatever else was forwarded or voted since is the work of correct
      nodes. */
  ghost predicate Unaided(cfg: Config, s: System, s': System) {
    && s'.base == s.base
    && Forwarders(s') <= Forwarders(s) + cfg.correct && BallotVoters(s') <= BallotVoters(s) + cfg.correct
  }

  lemma UnaidedOn(cfg: Config, s: System, s': System, s'': System)
    requires Unaided(cfg, s, s') && Unaided(cfg, s', s'')
    ensures Unaided(cfg, s, s'')
  {}

  lemma ForwardAnswers(r: Replica, p: Proposal, x: Msg)
    requires x in HandleForward(r, p).out
    ensures !x.PropMsg? && (x.VoteMsg? ==> x.v.voter == r.id)
  {
    hide ValidForward;
    hide ForwardsComplete;
    hide AddBlock;
    hide MarkSole;
    hide Mark;
  }

  /** A node answers with a forward only to the leader's proposal, with a vote only to a proposal,
      and both in its own name; evidence it takes in silence. */
  lemma AnswerKinds(r: Replica, m: Msg, ids: seq<nat>, x: Msg)
    requires x in Dispatch(r, m, ids).out
    ensures m.PropMsg? || m.VoteMsg?
    ensures x.PropMsg? ==> m.PropMsg? && m.p.forwardSender == r.leader == m.p.miner && x.p.forwardSender == r.id
    ensures x.PropMsg? ==> SignedHeader(r.n, r.leader, m.p.block, m.p.miningProof)
    ensures x.VoteMsg? ==> m.PropMsg? && x.v.voter == r.id
  {
    hide HandleForward;
    if m.PropMsg? && m.p.forwardSender != r.leader {
      ForwardAnswers(r, m.p, x);
    }
  }

  ghost predicate OwnWords(out: set<Msg>, id: nat) {
    forall x :: x in out ==> (x.PropMsg? ==> x.p.forwardSender == id) && (x.VoteMsg? ==> x.v.voter == id)
  }

  lemma OwnAnswers(r: Replica, m: Msg, ids: seq<nat>)
    ensures OwnWords(Dispatch(r, m, ids).out, r.id)
  {
    forall x | x in Dispatch(r, m, ids).out
      ensures (x.PropMsg? ==> x.p.forwardSender == r.id) && (x.VoteMsg? ==> x.v.voter == r.id)
    {
      AnswerKinds(r, m, ids, x);
    }
  }

  lemma PoolUnaided(cfg: Config, s: System, s': System, out: set<Msg>, id: nat)
    requires s'.base == s.base && s'.pool == s.pool + out && OwnWords(out, id) && id in cfg.correct
    ensures Unaided(cfg, s, s')
  {}

  lemma NodeIs(cfg: Config, s: System, i: nat)
    requires Inv(cfg, s) && i in cfg.correct
    ensures i in s.reps && i in s.seen && s.reps[i].id == i && s.reps[i].leader == s.base.leader
    ensures s.reps[i].n == s.base.n > 0 && s.seen[i] <= s.pool
  {
    NodeHandles(cfg, s, i);
  }

  lemma InvTracked(cfg: Config, s: System)
    requires Inv(cfg, s)
    ensures Tracked(cfg, s)
  {
    forall i | i in s.reps
      ensures s.reps[i].n > 0
    {
      NodeIs(cfg, s, i);
    }
  }

  /** An injected message that does not count as a forward or as a vote for the leader's block. */
  ghost predicate Idle(s: System, a: Action) {
    a.Inject? ==> !IsForward(s.base, a.m) && !IsBallot(s.base, a.m)
  }

  lemma TakeUnaided(cfg: Config, s: System, i: nat)
    requires CanStep(cfg, s, TakeProposal(i))
    ensures Unaided(cfg, s, Apply(cfg, s, TakeProposal(i)))
  {
    NodeIs(cfg, s, i);
    hide Inv;
    OwnAnswers(s.reps[i], PropMsg(s.raw[i]), []);
    PoolUnaided(cfg, s, Apply(cfg, s, TakeProposal(i)), Dispatch(s.reps[i], PropMsg(s.raw[i]), []).out, i);
  }

  lemma DeliverUnaided(cfg: Config, s: System, i: nat, m: Msg, ids: seq<nat>)
    requires CanStep(cfg, s, Deliver(i, m, ids))
    ensures Unaided(cfg, s, Apply(cfg, s, Deliver(i, m, ids)))
  {
    DeliverEnabled(cfg, s, i, m, ids);
    NodeIs(cfg, s, i);
    hide Inv;
    hide Enabled;
    OwnAnswers(s.reps[i], m, ids);
    PoolUnaided(cfg, s, Apply(cfg, s, Deliver(i, m, ids)), Dispatch(s.reps[i], m, ids).out, i);
  }

  lemma InjectUnaided(cfg: Config, s: System, m: Msg)
    requires Enabled(cfg, s, Inject(m)) && Idle(s, Inject(m))
    ensures Unaided(cfg, s, Apply(cfg, s, Inject(m)))
  {
    InjectEnabled(cfg, s, m);
    HearForwards(s.base, s.pool, m);
  }

  lemma PoolKept(cfg: Config, s: System, a: Action)
    requires Enabled(cfg, s, a) && (a.Begin? || a.SendProposal?)
    ensures Apply(cfg, s, a).pool == s.pool && Apply(cfg, s, a).base == s.base
  {}

  lemma CloseUnaided(cfg: Config, s: System, i: nat, withheld: bool)
    requires Enabled(cfg, s, Close(i, withheld)) && Apply(cfg, s, Close(i, withheld)).base.view == s.base.view
    ensures Unaided(cfg, s, Apply(cfg, s, Close(i, withheld)))
  {
    CloseEnabled(cfg, s, i, withheld);
  }

  /** While no faulty node forwards or votes, what counts in a view grows by the correct nodes'
      own forwards and votes only. */
  lemma StepUnaided(cfg: Config, s: System, a: Action, s': System)
    requires Good(cfg, s) && Steps(cfg, s, a, s') && Idle(s, a) && s'.base.view == s.base.view
    ensures Unaided(cfg, s, s')
  {
    hide Inv;
    hide Enabled;
    hide Unaided;
    match a
    case Begin(_, _) => PoolKept(cfg, s, a);
      PoolUnaidedSame(cfg, s, s');
    case TakeProposal(i) => TakeUnaided(cfg, s, i);
    case Deliver(i, m, ids) => DeliverUnaided(cfg, s, i, m, ids);
    case Inject(m) => InjectUnaided(cfg, s, m);
    case SendProposal(_, _) => PoolKept(cfg, s, a);
      PoolUnaidedSame(cfg, s, s');
    case Close(i, withheld) => CloseUnaided(cfg, s, i, withheld);
  }

  lemma PoolUnaidedSame(cfg: Config, s: System, s': System)
    requires s'.base == s.base && s'.pool == s.pool
    ensures Unaided(cfg, s, s')
  {}

  // Bringing a round to its end

  ghost function Last(states: seq<System>): System
    requires |states| > 0
  {
    states[|states| - 1]
  }

  lemma RunExtended(cfg: Config, states: seq<System>, actions: seq<Action>, a: Action, s': System)
    requires IsRun(cfg, states, actions) && Steps(cfg, Last(states), a, s')
    ensures IsRun(cfg, states + [s'], actions + [a])
  {
    hide Steps;
    hide Init;
    var more, also := states + [s'], actions + [a];
    forall k | 0 <= k < |also|
      ensures Steps(cfg, more[k], also[k], more[k + 1])
    {
      if k < |actions| {
        assert Steps(cfg, states[k], actions[k], states[k + 1]);
      }
    }
  }

  /** Nothing new is proposed, and nothing said is lost. */
  ghost predicate SameProposals(s: System, s': System) {
    && s'.own == s.own && s'.raw == s.raw && s'.withheld == s.withheld
    && s.started <= s'.started && s'.pending <= s.pending && s.pool <= s'.pool
  }

  /** A run goes on without the faulty nodes, inside the view and with no new proposal. */
  ghost predicate GoesOn(cfg: Config, states: seq<System>, actions: seq<Action>, states': seq<System>,
                         actions': seq<Action>) {
    Whole(
      && IsRun(cfg, states', actions') && |states| > 0 && states <= states' && actions <= actions'
      && Unaided(cfg, Last(states), Last(states')) && SameProposals(Last(states), Last(states'))
      && (forall k :: |actions| <= k < |actions'| ==> !actions'[k].Inject? && !actions'[k].SendProposal?))
  }

  lemma GoesNowhere(cfg: Config, states: seq<System>, actions: seq<Action>)
    requires IsRun(cfg, states, actions)
    ensures |states| > 0 && GoesOn(cfg, states, actions, states, actions)
  {
    PoolUnaidedSame(cfg, Last(states), Last(states));
  }

  /** One more step of this kind. */
  ghost predicate StaysIdle(cfg: Config, s: System, a: Action, s': System) {
    Whole(
      && Steps(cfg, s, a, s') && !a.Inject? && !a.SendProposal?
      && Unaided(cfg, s, s') && SameProposals(s, s'))
  }

  lemma GoesOnRun(cfg: Config, states: seq<System>, actions: seq<Action>, states': seq<System>, actions': seq<Action>)
    requires GoesOn(cfg, states, actions, states', actions')
    ensures IsRun(cfg, states', actions') && |states'| == |actions'| + 1 && states <= states' && actions <= actions'
    ensures Inv(cfg, Last(states'))
  {
    hide Unaided;
    hide SameProposals;
    hide Steps;
    hide Init;
    hide Inv;
    hide History;
    RunGood(cfg, states', actions', |states'| - 1);
  }

  lemma GoesOneStep(cfg: Config, states: seq<System>, actions: seq<Action>, states': seq<System>,
                    actions': seq<Action>, a: Action, s': System)
    requires GoesOn(cfg, states, actions, states', actions') && |states'| > 0
    requires StaysIdle(cfg, Last(states'), a, s')
    ensures GoesOn(cfg, states, actions, states' + [s'], actions' + [a])
  {
    hide Steps;
    hide Init;
    RunExtended(cfg, states', actions', a, s');
    hide IsRun;
    UnaidedOn(cfg, Last(states), Last(states'), s');
    hide Unaided;
  }

  lemma IdleStart(r: Replica, withheld: bool)
    ensures Start(r, withheld, None).out == {}
  {}

  lemma IdleBegin(cfg: Config, s: System, i: nat) returns (s': System)
    requires Tracked(cfg, s) && i in cfg.correct && i !in s.started
    ensures Steps(cfg, s, Begin(i, None), s')
    ensures s' == s.(reps := s'.reps, started := s.started + {i})
  {
    hide Start;
    assert Enabled(cfg, s, Begin(i, None));
    IdleStart(s.reps[i], s.withheld);
    NothingSigned(s.base, s.signed);
    s' := Apply(cfg, s, Begin(i, None));
  }

  /** A node starts its round, without commands to propose. */
  lemma StartsIdly(cfg: Config, s: System, i: nat) returns (s': System)
    requires Inv(cfg, s) && i in cfg.correct && i !in s.started
    ensures StaysIdle(cfg, s, Begin(i, None), s') && s'.started == s.started + {i}
  {
    hide Inv;
    hide Steps;
    InvTracked(cfg, s);
    s' := IdleBegin(cfg, s, i);
    PoolUnaidedSame(cfg, s, s');
  }

  lemma AllStart(cfg: Config, states: seq<System>, actions: seq<Action>)
    returns (states': seq<System>, actions': seq<Action>)
    requires IsRun(cfg, states, actions)
    ensures |states'| > 0 && GoesOn(cfg, states, actions, states', actions')
    ensures cfg.correct <= Last(states').started
  {
    hide GoesOn;
    hide IsRun;
    hide Inv;
    hide StaysIdle;
    states', actions' := states, actions;
    GoesNowhere(cfg, states, actions);
    while !(cfg.correct <= Last(states').started)
      invariant |states'| > 0 && GoesOn(cfg, states, actions, states', actions')
      decreases cfg.correct - Last(states').started
    {
      var i :| i in cfg.correct && i !in Last(states').started;
      GoesOnRun(cfg, states, actions, states', actions');
      var s' := StartsIdly(cfg, Last(states'), i);
      GoesOneStep(cfg, states, actions, states', actions', Begin(i, None), s');
      states', actions' := states' + [s'], actions' + [Begin(i, None)];
    }
  }

  lemma CanTake(cfg: Config, s: System, i: nat) returns (s': System)
    requires Tracked(cfg, s) && i in cfg.correct && i in s.started && i in s.pending && i in s.raw
    ensures Steps(cfg, s, TakeProposal(i), s') && s.pool <= s'.pool
    ensures s' == s.(pool := s'.pool, pending := s.pending - {i}, signed := s'.signed)
  {
    hide Dispatch;
    assert Enabled(cfg, s, TakeProposal(i));
    s' := Apply(cfg, s, TakeProposal(i));
  }

  lemma PendingKnown(cfg: Config, s: System, i: nat)
    requires Inv(cfg, s) && i in s.pending
    ensures i in s.raw && i in cfg.correct
  {}

  /** A node handles the proposal it was sent. */
  lemma Takes(cfg: Config, s: System, i: nat) returns (s': System)
    requires Inv(cfg, s) && i in s.pending && cfg.correct <= s.started
    ensures StaysIdle(cfg, s, TakeProposal(i), s') && s'.pending == s.pending - {i}
  {
    hide Inv;
    hide Enabled;
    hide Unaided;
    hide Acted;
    PendingKnown(cfg, s, i);
    InvTracked(cfg, s);
    s' := CanTake(cfg, s, i);
    TakeUnaided(cfg, s, i);
  }

  ghost predicate AllStarted(cfg: Config, states: seq<System>) {
    |states| > 0 && cfg.correct <= Last(states).started
  }

  lemma StartedOn(cfg: Config, s: System, a: Action, s': System)
    requires StaysIdle(cfg, s, a, s') && cfg.correct <= s.started
    ensures cfg.correct <= s'.started && s'.pending <= s.pending
  {}

  lemma AllTake(cfg: Config, states: seq<System>, actions: seq<Action>, states0: seq<System>, actions0: seq<Action>)
    returns (states': seq<System>, actions': seq<Action>)
    requires GoesOn(cfg, states, actions, states0, actions0) && AllStarted(cfg, states0)
    ensures AllStarted(cfg, states') && GoesOn(cfg, states, actions, states', actions')
    ensures Last(states').pending == {}
  {
    hide GoesOn;
    hide IsRun;
    hide Inv;
    hide StaysIdle;
    states', actions' := states0, actions0;
    while Last(states').pending != {}
      invariant AllStarted(cfg, states') && GoesOn(cfg, states, actions, states', actions')
      decreases Last(states').pending
    {
      var i :| i in Last(states').pending;
      GoesOnRun(cfg, states, actions, states', actions');
      var s' := Takes(cfg, Last(states'), i);
      StartedOn(cfg, Last(states'), TakeProposal(i), s');
      GoesOneStep(cfg, states, actions, states', actions', TakeProposal(i), s');
      states', actions' := states' + [s'], actions' + [TakeProposal(i)];
    }
  }

  // Delivering everything

  /** Who has yet to handle which proposals, votes and evidence. */
  ghost function Undelivered(s: System): set<(nat, Msg)> {
    set i, m | i in s.seen.Keys && m in s.pool && m !in s.seen[i] :: (i, m)
  }

  ghost function UnseenProposals(s: System): set<(nat, Msg)> {
    set x | x in Undelivered(s) && x.1.PropMsg?
  }

  ghost function UnseenVotes(s: System): set<(nat, Msg)> {
    set x | x in Undelivered(s) && x.1.VoteMsg?
  }

  /** What an answer to a message of the pool is: a vote or evidence after a proposal, evidence
      after a vote, nothing after evidence. */
  ghost predicate Ranked(m: Msg, out: set<Msg>) {
    && (forall x :: x in out ==> !x.PropMsg? && (x.VoteMsg? ==> m.PropMsg?))
    && (!m.PropMsg? && !m.VoteMsg? ==> out == {})
  }

  lemma AnswerRanked(r: Replica, m: Msg, ids: seq<nat>)
    requires m.PropMsg? && m.p.forwardSender == r.leader == m.p.miner ==>
               !SignedHeader(r.n, r.leader, m.p.block, m.p.miningProof)
    ensures Ranked(m, Dispatch(r, m, ids).out)
  {
    forall x | x in Dispatch(r, m, ids).out
      ensures !x.PropMsg? && (x.VoteMsg? ==> m.PropMsg?) && (m.PropMsg? || m.VoteMsg?)
    {
      AnswerKinds(r, m, ids, x);
    }
  }

  lemma PoolRanked(cfg: Config, s: System, i: nat, m: Msg, ids: seq<nat>)
    requires Inv(cfg, s) && i in cfg.correct && m in s.pool
    ensures i in s.reps && Ranked(m, Dispatch(s.reps[i], m, ids).out)
  {
    NodeIs(cfg, s, i);
    assert Standing(cfg, s.base, s.raw, m);
    hide Inv;
    AnswerRanked(s.reps[i], m, ids);
  }

  lemma LessToDeliver(s: System, s': System, i: nat, m: Msg, out: set<Msg>)
    requires (i, m) in Undelivered(s) && i in s.seen && m in s.pool && Ranked(m, out)
    requires s'.pool == s.pool + out && s'.seen == s.seen[i := s.seen[i] + {m}]
    ensures m.PropMsg? ==> UnseenProposals(s') < UnseenProposals(s)
    ensures m.VoteMsg? ==> UnseenProposals(s') <= UnseenProposals(s) && UnseenVotes(s') < UnseenVotes(s)
    ensures !m.PropMsg? && !m.VoteMsg? ==>
              UnseenProposals(s') <= UnseenProposals(s) && UnseenVotes(s') <= UnseenVotes(s)
              && Undelivered(s') < Undelivered(s)
  {
    var x := (i, m);
    assert x !in Undelivered(s') && x in Undelivered(s);
    assert forall y :: y in Undelivered(s') ==> y in Undelivered(s) || y.1 in out;
    assert m.PropMsg? ==> x in UnseenProposals(s) && x !in UnseenProposals(s');
    assert m.VoteMsg? ==> x in UnseenVotes(s) && x !in UnseenVotes(s');
  }

  lemma CanDeliver(cfg: Config, s: System, i: nat, m: Msg) returns (ids: seq<nat>, s': System)
    requires Tracked(cfg, s) && i in cfg.correct && i in s.started && m in s.pool
    ensures Enabled(cfg, s, Deliver(i, m, ids)) && Steps(cfg, s, Deliver(i, m, ids), s')
    ensures s' == s.(reps := s'.reps, pool := s.pool + Dispatch(s.reps[i], m, ids).out,
                     seen := s.seen[i := s.seen[i] + {m}], signed := s'.signed)
  {
    hide Dispatch;
    ids := if m.VoteMsg? then OrderOf(Row(s.reps[i].ballots, s.reps[i].view)[m.v.voter := m.v].Keys) else [];
    assert Enabled(cfg, s, Deliver(i, m, ids));
    s' := Apply(cfg, s, Deliver(i, m, ids));
  }

  /** A node handles a message it has not handled yet. */
  lemma HandlesNext(cfg: Config, s: System, i: nat, m: Msg) returns (ids: seq<nat>, s': System)
    requires Inv(cfg, s) && (i, m) in Undelivered(s) && cfg.correct <= s.started
    ensures StaysIdle(cfg, s, Deliver(i, m, ids), s') && s'.pending == s.pending
    ensures m.PropMsg? ==> UnseenProposals(s') < UnseenProposals(s)
    ensures m.VoteMsg? ==> UnseenProposals(s') <= UnseenProposals(s) && UnseenVotes(s') < UnseenVotes(s)
    ensures !m.PropMsg? && !m.VoteMsg? ==>
              UnseenProposals(s') <= UnseenProposals(s) && UnseenVotes(s') <= UnseenVotes(s)
              && Undelivered(s') < Undelivered(s)
  {
    hide Inv;
    hide Enabled;
    hide Unaided;
    hide Acted;
    hide Dispatch;
    InvTracked(cfg, s);
    ids, s' := CanDeliver(cfg, s, i, m);
    DeliverUnaided(cfg, s, i, m, ids);
    PoolRanked(cfg, s, i, m, ids);
    LessToDeliver(s, s', i, m, Dispatch(s.reps[i], m, ids).out);
  }

  ghost predicate AllTaken(cfg: Config, states: seq<System>) {
    AllStarted(cfg, states) && Last(states).pending == {}
  }

  lemma AllDeliver(cfg: Config, states: seq<System>, actions: seq<Action>, states0: seq<System>, actions0: seq<Action>)
    returns (states': seq<System>, actions': seq<Action>)
    requires GoesOn(cfg, states, actions, states0, actions0) && AllTaken(cfg, states0)
    ensures AllTaken(cfg, states') && GoesOn(cfg, states, actions, states', actions')
    ensures Undelivered(Last(states')) == {}
  {
    hide GoesOn;
    hide IsRun;
    hide Inv;
    hide StaysIdle;
    hide Undelivered;
    hide UnseenProposals;
    hide UnseenVotes;
    states', actions' := states0, actions0;
    while Undelivered(Last(states')) != {}
      invariant AllTaken(cfg, states') && GoesOn(cfg, states, actions, states', actions')
      decreases UnseenProposals(Last(states')), UnseenVotes(Last(states')), Undelivered(Last(states'))
    {
      var x :| x in Undelivered(Last(states'));
      GoesOnRun(cfg, states, actions, states', actions');
      var ids, s' := HandlesNext(cfg, Last(states'), x.0, x.1);
      StartedOn(cfg, Last(states'), Deliver(x.0, x.1, ids), s');
      GoesOneStep(cfg, states, actions, states', actions', Deliver(x.0, x.1, ids), s');
      states', actions' := states' + [s'], actions' + [Deliver(x.0, x.1, ids)];
    }
  }

  lemma NothingUnseen(s: System, i: nat)
    requires Undelivered(s) == {} && i in s.seen && s.seen[i] <= s.pool
    ensures s.seen[i] == s.pool
  {
    forall m | m in s.pool
      ensures m in s.seen[i]
    {
      assert (i, m) !in Undelivered(s);
    }
  }

  lemma StartedCorrect(cfg: Config, s: System)
    requires Inv(cfg, s)
    ensures s.started <= cfg.correct && s.seen.Keys == cfg.correct
  {}

  lemma NothingLeft(cfg: Config, s: System)
    requires Inv(cfg, s) && cfg.correct <= s.started && s.pending == {} && Undelivered(s) == {}
    ensures Quiet(cfg, s) && Tracked(cfg, s)
  {
    hide Inv;
    hide Undelivered;
    hide Tracked;
    InvTracked(cfg, s);
    StartedCorrect(cfg, s);
    forall i | i in s.seen
      ensures s.seen[i] == s.pool
    {
      NodeIs(cfg, s, i);
      NothingUnseen(s, i);
    }
  }

  lemma CanClose(cfg: Config, s: System, i: nat) returns (s': System)
    requires Tracked(cfg, s) && Quiet(cfg, s) && i in cfg.correct
    ensures Steps(cfg, s, Close(i, false), s')
  {
    assert Enabled(cfg, s, Close(i, false));
    s' := Apply(cfg, s, Close(i, false));
  }

  /** From whatever state, the correct nodes can bring the round to its end without any help of
      the faulty ones: start, handle what was proposed, deliver what was said, and let the timers
      fire. */
  lemma RoundCanEnd(cfg: Config, states: seq<System>, actions: seq<Action>, i: nat)
    returns (states': seq<System>, actions': seq<Action>)
    requires IsRun(cfg, states, actions) && i in cfg.correct
    ensures IsRun(cfg, states', actions') && states < states' && actions < actions'
    ensures |states'| == |actions'| + 1 && actions'[|actions'| - 1] == Close(i, false)
    ensures GoesOn(cfg, states, actions, states'[..|actions'|], actions'[..|actions'| - 1])
  {
    hide Inv;
    hide IsRun;
    hide GoesOn;
    hide Steps;
    hide Undelivered;
    hide Quiet;
    hide Tracked;
    var ss, steps := AllStart(cfg, states, actions);
    ss, steps := AllTake(cfg, states, actions, ss, steps);
    ss, steps := AllDeliver(cfg, states, actions, ss, steps);
    GoesOnRun(cfg, states, actions, ss, steps);
    NothingLeft(cfg, Last(ss));
    var s' := CanClose(cfg, Last(ss), i);
    RunExtended(cfg, ss, steps, Close(i, false), s');
    states', actions' := ss + [s'], steps + [Close(i, false)];
    assert states'[..|actions'|] == ss && actions'[..|actions'| - 1] == steps;
  }
}
