/** What a correct leader signs: in its own view one header, that of its proposal. So no forward can
    carry another header in its name, and whatever passes as evidence of its equivocation does not
    show any. */
module LeaderSignatures {
  import opened Messages
  import opened Weights
  import opened Tallies
  import opened Reputation
  import opened Replicas
  import opened Rounds
  import opened RoundEnds
  import opened Runs
  import opened Safety
  import opened Accusations
  import opened Agreement

  // One header per view

  /** A signature of the leader under a header of its view. */
  predicate LeaderHeader(b: Base, sig: Signature) {
    && sig.Signed? && sig.signer == b.leader
    && sig.payload.HeaderPayload? && sig.payload.header.height == b.view
  }

  ghost predicate OwnSigned(correctLeader: bool, b: Base, own: Option<Block>, signed: set<Signature>) {
    correctLeader ==> forall sig :: sig in signed && LeaderHeader(b, sig) ==>
      own.Some? && own.value.header == sig.payload.header
  }

  ghost predicate OwnOk(cfg: Config, s: System) {
    OwnSigned(CorrectLeader(cfg, s), s.base, s.own, s.signed)
  }

  ghost predicate NoHeader(b: Base, sigs: set<Signature>) {
    forall sig :: sig in sigs ==> !LeaderHeader(b, sig)
  }

  lemma OwnMore(correctLeader: bool, b: Base, own: Option<Block>, signed: set<Signature>, made: set<Signature>)
    requires OwnSigned(correctLeader, b, own, signed) && NoHeader(b, made)
    ensures OwnSigned(correctLeader, b, own, signed + made)
  {}

  lemma OwnFirst(b: Base, own: Block, signed: set<Signature>, made: set<Signature>)
    requires OwnSigned(true, b, None, signed)
    requires forall sig :: sig in made && LeaderHeader(b, sig) ==> sig.payload.header == own.header
    ensures OwnSigned(true, b, Some(own), signed + made)
  {}

  lemma FairNoHeader(b: Base, m: Msg, x: Msg)
    requires FairAnswer(b, m, x)
    ensures !LeaderHeader(b, NewSignature(b, x))
  {}

  lemma DeliverMakesNoHeader(cfg: Config, s: System, i: nat, m: Msg, ids: seq<nat>)
    requires Inv(cfg, s) && i in cfg.correct && m in s.pool
    ensures i in s.reps && NoHeader(s.base, SignaturesMade(s.base, Dispatch(s.reps[i], m, ids).out))
  {
    NodeOf(cfg, s, i);
    assert Standing(cfg, s.base, s.raw, m);
    hide Inv;
    hide Dispatch;
    forall x | x in Dispatch(s.reps[i], m, ids).out
      ensures !LeaderHeader(s.base, NewSignature(s.base, x))
    {
      DispatchAnswersFairly(cfg, s.base, s.reps[i], s.raw, m, ids, x);
      FairNoHeader(s.base, m, x);
    }
  }

  lemma DeliverKeepsOwn(cfg: Config, s: System, i: nat, m: Msg, ids: seq<nat>)
    requires CanStep(cfg, s, Deliver(i, m, ids)) && OwnOk(cfg, s)
    ensures OwnOk(cfg, Apply(cfg, s, Deliver(i, m, ids)))
  {
    hide Inv;
    hide Enabled;
    hide Dispatch;
    hide OwnSigned;
    DeliverEnabled(cfg, s, i, m, ids);
    DeliverMakesNoHeader(cfg, s, i, m, ids);
    OwnMore(CorrectLeader(cfg, s), s.base, s.own, s.signed,
            SignaturesMade(s.base, Dispatch(s.reps[i], m, ids).out));
  }

  lemma ForwardNoHeader(b: Base, i: nat, p: Proposal, out: set<Msg>)
    requires i != b.leader && (out == {} || out == {PropMsg(Forwarded(i, p))})
    ensures NoHeader(b, SignaturesMade(b, out))
  {}

  lemma TakeMakes(cfg: Config, s: System, i: nat)
    requires CanStep(cfg, s, TakeProposal(i))
    ensures i in s.raw && i in s.reps && i != s.base.leader
    ensures Apply(cfg, s, TakeProposal(i)).own == s.own && Apply(cfg, s, TakeProposal(i)).base == s.base
    ensures Apply(cfg, s, TakeProposal(i)).signed
         == s.signed + SignaturesMade(s.base, Dispatch(s.reps[i], PropMsg(s.raw[i]), []).out)
  {
    hide RoundOk;
    hide NodesOk;
    hide PoolOk;
    hide BaseOk;
    hide Dispatch;
  }

  lemma TakeKeepsOwn(cfg: Config, s: System, i: nat)
    requires CanStep(cfg, s, TakeProposal(i)) && OwnOk(cfg, s)
    ensures OwnOk(cfg, Apply(cfg, s, TakeProposal(i)))
  {
    hide Inv;
    hide Dispatch;
    hide OwnSigned;
    hide Apply;
    TakesProposal(cfg, s, i);
    TakeMakes(cfg, s, i);
    var out := Dispatch(s.reps[i], PropMsg(s.raw[i]), []).out;
    ForwardNoHeader(s.base, i, s.raw[i], out);
    OwnMore(CorrectLeader(cfg, s), s.base, s.own, s.signed, SignaturesMade(s.base, out));
  }

  /** A proposal is the first of its view. */
  lemma StartOwn(c: Scene, id: nat, r: Replica, h: Heard, cmds: Option<seq<Command>>)
    requires Handles(c, false, id, r, h) && c.base.view !in r.ledger.certs && id == r.id && r.leader == c.base.leader
    ensures Start(r, c.withheld, cmds).out != {} ==> c.own == None
  {
    if !c.withheld && id == c.base.leader && r.ledger.head in r.ledger.certs {
      NoForwardsYet(c, id, r, h);
    }
  }

  lemma BegunOwn(cfg: Config, s: System, i: nat, cmds: Option<seq<Command>>, p: Proposal)
    requires i in s.reps
    requires var out := Start(s.reps[i], s.withheld, cmds).out; out == {} || out == {PropMsg(p)}
    ensures var s', out := Begun(cfg, s, i, cmds), Start(s.reps[i], s.withheld, cmds).out;
            && s'.base == s.base && s'.signed == s.signed
            && s'.own == if out == {} then s.own else Some(p.block)
  {
    hide Start;
  }

  lemma MadeHeader(b: Base, out: set<Msg>, p: Proposal)
    requires out == {PropMsg(p)} && p.forwardSender == b.leader
             && p.miningProof == Signed(b.leader, HeaderPayload(p.block.header))
    ensures forall sig :: sig in SignaturesMade(b, out) && LeaderHeader(b, sig) ==>
              sig.payload.header == p.block.header
  {}

  lemma BeginOwnSigned(cfg: Config, s: System, i: nat, cmds: Option<seq<Command>>)
    requires Inv(cfg, s) && OwnOk(cfg, s) && i in cfg.correct && i in s.reps && i !in s.started
    ensures var s' := Begun(cfg, s, i, cmds);
            && s'.base == s.base && s'.signed == s.signed
            && OwnSigned(CorrectLeader(cfg, s), s.base, s'.own,
                         s.signed + SignaturesMade(s.base, Start(s.reps[i], s.withheld, cmds).out))
  {
    hide Inv;
    hide Start;
    hide Begun;
    hide Handles;
    hide Midway;
    NodeOf(cfg, s, i);
    NodeHandles(cfg, s, i);
    var c, r, h := SceneOf(cfg, s), s.reps[i], Hear(s.base, s.seen[i]);
    var p := StartSigns(c, i, r, h, cmds);
    StartOwn(c, i, r, h, cmds);
    BegunOwn(cfg, s, i, cmds, p);
    var out := Start(r, s.withheld, cmds).out;
    if out == {} {
      NothingSigned(s.base, s.signed);
    } else {
      MadeHeader(s.base, out, p);
      OwnFirst(s.base, p.block, s.signed, SignaturesMade(s.base, out));
    }
  }

  lemma BeginKeepsOwn(cfg: Config, s: System, i: nat, cmds: Option<seq<Command>>)
    requires CanStep(cfg, s, Begin(i, cmds)) && OwnOk(cfg, s)
    ensures OwnOk(cfg, Apply(cfg, s, Begin(i, cmds)))
  {
    hide Inv;
    hide Enabled;
    hide Start;
    hide Begun;
    hide OwnSigned;
    BeginEnabled(cfg, s, i, cmds);
    BeginOwnSigned(cfg, s, i, cmds);
  }

  /** What is signed so far is of this view or an earlier one. */
  lemma HeadersPast(b: Base, fs: set<Msg>, signed: set<Signature>, b': Base, correctLeader: bool)
    requires AllAccounted(b, fs, signed) && b'.view > b.view
    ensures OwnSigned(correctLeader, b', None, signed)
  {
    forall sig | sig in signed
      ensures !LeaderHeader(b', sig)
    {
      assert Accounted(b, fs, sig);
    }
  }

  lemma CloseKeepsOwn(cfg: Config, s: System, i: nat, withheld: bool)
    requires CanStep(cfg, s, Close(i, withheld)) && SignedOk(cfg, s) && OwnOk(cfg, s)
    ensures OwnOk(cfg, Apply(cfg, s, Close(i, withheld)))
  {
    hide Inv;
    hide OwnSigned;
    hide AllAccounted;
    hide PoolUnforged;
    CloseEnabled(cfg, s, i, withheld);
    if Commits(SceneOf(cfg, s)) {
      ClosesFresh(cfg, s, i, withheld);
      var b := NextBase(cfg.f, SceneOf(cfg, s));
      HeadersPast(s.base, Hear(s.base, s.pool).forwards, s.signed, b, b.leader in cfg.correct);
    } else {
      NodeStalls(cfg, s, i);
    }
  }

  lemma InputKeepsOwn(cfg: Config, s: System, a: Action)
    requires Enabled(cfg, s, a) && (a.Inject? || a.SendProposal?) && OwnOk(cfg, s)
    ensures OwnOk(cfg, Apply(cfg, s, a))
  {
    hide Lawful;
    hide LawfulRaw;
    hide Unforged;
    NothingSigned(s.base, s.signed);
  }

  ghost predicate GoodOwn(cfg: Config, s: System) {
    Whole(GoodSigned(cfg, s) && OwnOk(cfg, s))
  }

  lemma StepKeepsOwn(cfg: Config, s: System, a: Action, s': System)
    requires Steps(cfg, s, a, s')
    ensures GoodOwn(cfg, s) ==> GoodOwn(cfg, s')
  {
    hide Inv;
    hide History;
    hide Enabled;
    hide SignedOk;
    hide OwnOk;
    if GoodOwn(cfg, s) {
      StepKeepsSigned(cfg, s, a, s');
      match a
      case Begin(i, cmds) => BeginKeepsOwn(cfg, s, i, cmds);
      case TakeProposal(i) => TakeKeepsOwn(cfg, s, i);
      case Deliver(i, m, ids) => DeliverKeepsOwn(cfg, s, i, m, ids);
      case Close(i, withheld) => CloseKeepsOwn(cfg, s, i, withheld);
      case Inject(_) => InputKeepsOwn(cfg, s, a);
      case SendProposal(_, _) => InputKeepsOwn(cfg, s, a);
    }
  }

  lemma InitOwn(cfg: Config, s: System)
    requires Init(cfg, s)
    ensures GoodOwn(cfg, s)
  {
    hide GoodSigned;
    InitSigned(cfg, s);
  }

  /** In every state of a run, the only header of its view that a correct leader has signed is that
      of its proposal. */
  lemma RunOwn(cfg: Config, states: seq<System>, actions: seq<Action>, k: nat)
    requires IsRun(cfg, states, actions) && k < |states|
    ensures GoodOwn(cfg, states[k])
  {
    hide GoodOwn;
    hide Steps;
    InitOwn(cfg, states[0]);
    forall i | 1 <= i < |states|
      ensures GoodOwn(cfg, states[i - 1]) ==> GoodOwn(cfg, states[i])
    {
      StepKeepsOwn(cfg, states[i - 1], actions[i - 1], states[i]);
    }
    Along(states, s => GoodOwn(cfg, s), 0, k);
  }

  // Forwards in the name of a correct leader

  /** Under the header of a correct leader's proposal no second body goes round; no signature
      covers the body. */
  ghost predicate OneBody(cfg: Config, s: System, m: Msg)
    requires m.PropMsg?
  {
    CorrectLeader(cfg, s) && s.own.Some? && m.p.block.header == s.own.value.header ==>
      m.p.block.txs == s.own.value.txs
  }

  /** What may be said without anything being assumed of the headers in a correct leader's name. */
  ghost predicate MaySayFreely(cfg: Config, s: System, m: Msg) {
    && Unforged(cfg.correct, s.signed, m)
    && if m.PropMsg? && m.p.forwardSender != s.base.leader then FreeForward(cfg, s, m) && OneBody(cfg, s, m)
       else Lawful(cfg, s, m)
  }

  lemma OwnBuilt(cfg: Config, s: System)
    requires Good(cfg, s) && CorrectLeader(cfg, s) && s.own.Some?
    ensures s.own.value.claimed == Digest(s.own.value.header)
  {
    hide Inv;
    hide History;
    BaseHolds(cfg, s);
    NoConflictByCorrect(SceneOf(cfg, s));
    NodeHandles(cfg, s, s.base.leader);
    LeaderBuilt(SceneOf(cfg, s), s.base.leader in s.started, s.base.leader, s.reps[s.base.leader],
                Hear(s.base, s.seen[s.base.leader]));
  }

  lemma LeaderBuilt(c: Scene, began: bool, id: nat, r: Replica, h: Heard)
    requires Handles(c, began, id, r, h) && id == c.base.leader && c.own.Some?
    ensures c.own.value.claimed == Digest(c.own.value.header)
  {
    NoConflictByCorrect(c);
  }

  /** A forward that everybody counts is of the leader's own block. */
  lemma HeaderIsOwn(cfg: Config, s: System, m: Msg)
    requires GoodOwn(cfg, s) && CorrectLeader(cfg, s) && m.PropMsg? && IsForward(s.base, m) && WellBuilt(s.base, m.p)
    requires Unforged(cfg.correct, s.signed, m)
    ensures s.own.Some? && s.own.value.header == m.p.block.header
  {
    hide Good;
    hide SignedOk;
    assert m.p.miningProof in Signatures(m);
    assert LeaderHeader(s.base, m.p.miningProof);
  }

  lemma FreeIsLawful(cfg: Config, s: System, m: Msg)
    requires GoodOwn(cfg, s) && MaySayFreely(cfg, s, m)
    ensures Lawful(cfg, s, m)
  {
    hide Good;
    hide SignedOk;
    hide OwnOk;
    hide Unforged;
    if m.PropMsg? && m.p.forwardSender != s.base.leader && IsForward(s.base, m) && CorrectLeader(cfg, s) {
      HeaderIsOwn(cfg, s, m);
      OwnBuilt(cfg, s);
    }
  }

  ghost predicate FreeSteps(cfg: Config, s: System, a: Action, s': System) {
    Whole(if a.Inject? then Tracked(cfg, s) && MaySayFreely(cfg, s, a.m) && s' == s.(pool := s.pool + {a.m})
          else Steps(cfg, s, a, s'))
  }

  ghost predicate IsFreeRun(cfg: Config, states: seq<System>, actions: seq<Action>) {
    && |states| == |actions| + 1 && Init(cfg, states[0])
    && forall k :: 0 <= k < |actions| ==> FreeSteps(cfg, states[k], actions[k], states[k + 1])
  }

  lemma FreeStepIsStep(cfg: Config, s: System, a: Action, s': System)
    requires FreeSteps(cfg, s, a, s') && GoodOwn(cfg, s)
    ensures Steps(cfg, s, a, s')
  {
    hide GoodOwn;
    hide MaySayFreely;
    if a.Inject? {
      FreeIsLawful(cfg, s, a.m);
      FreeUnforged(cfg, s, a.m);
      hide Lawful;
      hide Unforged;
      CanInject(cfg, s, a.m);
      InjectEnabled(cfg, s, a.m);
    }
  }

  lemma FreeUnforged(cfg: Config, s: System, m: Msg)
    requires MaySayFreely(cfg, s, m)
    ensures Unforged(cfg.correct, s.signed, m)
  {}

  lemma FreeStepKeeps(cfg: Config, s: System, a: Action, s': System)
    requires FreeSteps(cfg, s, a, s')
    ensures GoodOwn(cfg, s) ==> GoodOwn(cfg, s')
  {
    hide GoodOwn;
    hide FreeSteps;
    hide Steps;
    if GoodOwn(cfg, s) {
      FreeStepIsStep(cfg, s, a, s');
      StepKeepsOwn(cfg, s, a, s');
    }
  }

  /** That forwards in a correct leader's name are of the block it has proposed need not be assumed:
      it is enough that signatures are not forged and one header has one body. Every run under
      that assumption is a run, so all that is proved of runs holds of it. */
  lemma FreeRunIsRun(cfg: Config, states: seq<System>, actions: seq<Action>)
    requires IsFreeRun(cfg, states, actions)
    ensures IsRun(cfg, states, actions)
  {
    hide GoodOwn;
    hide FreeSteps;
    hide Steps;
    InitOwn(cfg, states[0]);
    forall i | 1 <= i < |states|
      ensures GoodOwn(cfg, states[i - 1]) ==> GoodOwn(cfg, states[i])
    {
      FreeStepKeeps(cfg, states[i - 1], actions[i - 1], states[i]);
    }
    forall k | 0 <= k < |actions|
      ensures Steps(cfg, states[k], actions[k], states[k + 1])
    {
      Along(states, s => GoodOwn(cfg, s), 0, k);
      FreeStepIsStep(cfg, states[k], actions[k], states[k + 1]);
    }
  }

  // Evidence against a correct leader

  /** The evidence passes the check and yet proves nothing: one header shown twice, or a header of
      another view. The code compares neither the headers nor their heights. */
  predicate FramesLeader(b: Base, a: Accusation, e1: Proposal, e2: Proposal) {
    && EquivocationValid(b.n, b.leader, b.view, a, e1, e2)
    && (e1.block.header == e2.block.header || e1.block.header.height != b.view || e2.block.header.height != b.view)
  }

  lemma OnlyFramedLeader(cfg: Config, s: System, a: Accusation, e1: Proposal, e2: Proposal)
    requires GoodOwn(cfg, s) && CorrectLeader(cfg, s) && Unforged(cfg.correct, s.signed, EquivocationMsg(a, e1, e2))
    ensures EquivocationValid(s.base.n, s.base.leader, s.base.view, a, e1, e2) <==> FramesLeader(s.base, a, e1, e2)
  {
    hide Good;
    hide SignedOk;
    var m := EquivocationMsg(a, e1, e2);
    assert e1.miningProof in Signatures(m) && e2.miningProof in Signatures(m);
  }

  lemma HeadCertifiedIff(c: Scene, began: bool, id: nat, r: Replica, h: Heard)
    requires Handles(c, began, id, r, h) && c.correctLeader
    ensures r.n == c.base.n && r.view == c.base.view && r.leader == c.base.leader
    ensures r.ledger.head in r.ledger.certs <==> !HasBlock(c, id, h) || r.view in r.ledger.certs
    ensures !Marked(r.log.equivocations, r.view, r.leader)
  {
    NoConflictByCorrect(c);
    MarkedNow(c.base.log.equivocations, c.base.view, Only(h.equivocation, c.base.leader), c.base.leader);
  }

  lemma EquivocationMarks(r: Replica, a: Accusation, e1: Proposal, e2: Proposal)
    requires !Marked(r.log.equivocations, r.view, r.leader)
    ensures Marked(HandleEquivocation(r, a, e1, e2).log.equivocations, r.view, r.leader)
       <==> EquivocationValid(r.n, r.leader, r.view, a, e1, e2) && r.ledger.head in r.ledger.certs
  {
    hide AddEmptyBlock;
    hide EquivocationValid;
  }

  lemma ProposalGenuine(cfg: Config, s: System, i: nat)
    requires GoodSigned(cfg, s) && CorrectLeader(cfg, s) && i in s.raw
    ensures s.raw[i].miningProof in s.signed && !Conflict(Hear(s.base, s.pool).forwards)
    ensures SignedHeader(s.base.n, s.base.leader, s.raw[i].block, s.raw[i].miningProof)
  {
    hide PoolOk;
    hide NodesOk;
    hide BaseOk;
    NoConflictByCorrect(SceneOf(cfg, s));
    assert RawSigned(true, s.raw, s.signed);
  }

  /** A correct leader's one proposal, shown twice by a faulty node, frames it; the injected attacks
      do not do this, so it is not among the actions of a run. */
  lemma FramedByOneProposal(cfg: Config, s: System, i: nat, j: nat)
    requires GoodSigned(cfg, s) && CorrectLeader(cfg, s) && i in s.raw && j < s.base.n && j !in cfg.correct
    ensures var a, e := Accuse(j, s.base.leader, s.base.view), s.raw[i].(forwardSig := NoSignature);
            && FramesLeader(s.base, a, e, e) && Unforged(cfg.correct, s.signed, EquivocationMsg(a, e, e))
            && !Lawful(cfg, s, EquivocationMsg(a, e, e))
  {
    hide GoodSigned;
    ProposalGenuine(cfg, s, i);
  }

  /** In every state of a run with a correct leader: whatever equivocation evidence is made of
      signatures that exist, a node that handles it has the leader on record if and only if the
      evidence frames it and the node has not yet taken the leader's block, or has its
      certificate. */
  lemma LeaderOnRecordIff(cfg: Config, states: seq<System>, actions: seq<Action>, k: nat, i: nat, a: Accusation,
                          e1: Proposal, e2: Proposal)
    requires IsRun(cfg, states, actions) && k < |states| && i in cfg.correct && CorrectLeader(cfg, states[k])
    requires Unforged(cfg.correct, states[k].signed, EquivocationMsg(a, e1, e2))
    ensures i in states[k].reps && i in states[k].seen
    ensures var s, r := states[k], states[k].reps[i];
            && r.leader == s.base.leader && !Marked(r.log.equivocations, r.view, r.leader)
            && (Marked(HandleEquivocation(r, a, e1, e2).log.equivocations, r.view, r.leader) <==>
                  && FramesLeader(s.base, a, e1, e2)
                  && (!HasBlock(SceneOf(cfg, s), i, Hear(s.base, s.seen[i])) || r.view in r.ledger.certs))
  {
    hide IsRun;
    hide Inv;
    hide History;
    hide SignedOk;
    hide OwnOk;
    hide Unforged;
    hide Handles;
    hide HasBlock;
    hide FramesLeader;
    hide EquivocationValid;
    hide HandleEquivocation;
    var s := states[k];
    RunOwn(cfg, states, actions, k);
    OnlyFramedLeader(cfg, s, a, e1, e2);
    NodeHandles(cfg, s, i);
    HeadCertifiedIff(SceneOf(cfg, s), i in s.started, i, s.reps[i], Hear(s.base, s.seen[i]));
    EquivocationMarks(s.reps[i], a, e1, e2);
  }
}
