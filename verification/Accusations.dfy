/** Who can get on record for misbehaviour. Signatures cannot be forged, but they can be reused:
    a correct node is recorded exactly when one of its own signatures is shown as evidence of
    something it was not made for, and never if nobody does that. */
module Accusations {
  import opened Messages
  import opened Weights
  import opened Tallies
  import opened Reputation
  import opened Replicas
  import opened Rounds
  import opened RoundEnds
  import opened Runs
  import opened Safety

  // What correct nodes sign

  /** The signature was made for forwarding in the current view. */
  ghost predicate ForwardSignature(fs: set<Msg>, sig: Signature) {
    exists m :: m in fs && m.PropMsg? && m.p.forwardSig == sig
  }

  /** What a correct node signs: headers of the view, as its leader or as a forwarder, votes for
      the leader of the view, and accusations. */
  ghost predicate Accounted(b: Base, fs: set<Msg>, sig: Signature) {
    && sig.Signed?
    && match sig.payload
       case HeaderPayload(header) =>
         && header.height <= b.view
         && (header.height == b.view ==> sig.signer == b.leader || ForwardSignature(fs, sig))
       case VotePayload(_, view, owner) => view <= b.view && b.n > 0 && owner == LeaderOf(view, b.n)
       case EvidencePayload(_, _) => true
       case CertPayload(_, _) => false
  }

  ghost predicate AllAccounted(b: Base, fs: set<Msg>, signed: set<Signature>) {
    forall sig :: sig in signed ==> Accounted(b, fs, sig)
  }

  /** The signature under what a message shows: the proposal, the vote, or the evidence of one. */
  function ShownSignature(m: Msg): Signature {
    match m
    case PropMsg(p) => p.miningProof
    case VoteMsg(v) => v.sig
    case EquivocationMsg(_, _, _) => NoSignature
    case MaliciousProposalMsg(_, e) => e.miningProof
    case MaliciousVoteMsg(_, ev) => ev.sig
  }

  ghost predicate ShownUnforged(correct: set<nat>, signed: set<Signature>, m: Msg) {
    var sig := ShownSignature(m);
    sig.Signed? && sig.signer in correct ==> sig in signed
  }

  ghost predicate PoolUnforged(correct: set<nat>, signed: set<Signature>, pool: set<Msg>) {
    forall m :: m in pool ==> ShownUnforged(correct, signed, m)
  }

  ghost predicate RawSigned(correctLeader: bool, raw: map<nat, Proposal>, signed: set<Signature>) {
    correctLeader ==> forall i :: i in raw ==> raw[i].miningProof in signed
  }

  ghost predicate SignedOk(cfg: Config, s: System) {
    Whole(
      && AllAccounted(s.base, Hear(s.base, s.pool).forwards, s.signed)
      && PoolUnforged(cfg.correct, s.signed, s.pool)
      && RawSigned(CorrectLeader(cfg, s), s.raw, s.signed))
  }

  lemma AccountedMore(b: Base, fs: set<Msg>, gs: set<Msg>, sig: Signature)
    requires Accounted(b, fs, sig) && fs <= gs
    ensures Accounted(b, gs, sig)
  {
    if ForwardSignature(fs, sig) {
      var m :| m in fs && m.PropMsg? && m.p.forwardSig == sig;
      assert m in gs;
    }
  }

  /** Messages are added to the pool and signatures to the record. */
  lemma SignedGrows(cfg: Config, s: System, said: set<Msg>, made: set<Signature>)
    requires SignedOk(cfg, s)
    requires AllAccounted(s.base, Hear(s.base, s.pool + said).forwards, made)
    requires PoolUnforged(cfg.correct, s.signed + made, said)
    ensures AllAccounted(s.base, Hear(s.base, s.pool + said).forwards, s.signed + made)
    ensures PoolUnforged(cfg.correct, s.signed + made, s.pool + said)
    ensures RawSigned(CorrectLeader(cfg, s), s.raw, s.signed + made)
  {
    var fs, gs := Hear(s.base, s.pool).forwards, Hear(s.base, s.pool + said).forwards;
    HeardWithin(s.base, s.pool, s.pool + said);
    forall sig | sig in s.signed
      ensures Accounted(s.base, gs, sig)
    {
      AccountedMore(s.base, fs, gs, sig);
    }
  }

  /** What a handler signs and shows. */
  ghost predicate FairAnswer(b: Base, m: Msg, x: Msg) {
    match x
    case PropMsg(_) => false
    case VoteMsg(v) => v.owner == b.leader && v.sig.Signed? && v.sig.payload == VotePayload(v.hash, b.view, b.leader)
    case EquivocationMsg(a, _, _) => a.sig.Signed? && a.sig.payload.EvidencePayload?
    case MaliciousProposalMsg(a, e) =>
      && a.sig.Signed? && a.sig.payload.EvidencePayload? && m == PropMsg(e)
      && e.forwardSender == b.leader && e.miner != b.leader && SignedHeader(b.n, e.miner, e.block, e.miningProof)
    case MaliciousVoteMsg(a, ev) =>
      a.sig.Signed? && a.sig.payload.EvidencePayload? && m == VoteMsg(ev) && ev.owner != b.leader
  }

  lemma ForwardAnswersFairly(cfg: Config, b: Base, r: Replica, raw: map<nat, Proposal>, m: Msg, x: Msg)
    requires r.n == b.n && r.view == b.view && r.leader == b.leader && !r.maliciousVote
    requires m.PropMsg? && m.p.forwardSender != b.leader && Standing(cfg, b, raw, m)
    requires x in HandleForward(r, m.p).out
    ensures FairAnswer(b, m, x)
  {
    CompleteReply(NoteForward(NoteFirst(r, m.p), m.p), m.p);
  }

  lemma DispatchAnswersFairly(cfg: Config, b: Base, r: Replica, raw: map<nat, Proposal>, m: Msg, ids: seq<nat>, x: Msg)
    requires r.n == b.n && r.view == b.view && r.leader == b.leader && !r.maliciousVote
    requires Standing(cfg, b, raw, m) && x in Dispatch(r, m, ids).out
    ensures FairAnswer(b, m, x)
  {
    if m.PropMsg? && m.p.forwardSender != b.leader {
      ForwardAnswersFairly(cfg, b, r, raw, m, x);
    }
  }

  lemma FairSignature(b: Base, fs: set<Msg>, m: Msg, x: Msg)
    requires FairAnswer(b, m, x) && b.n > 0 && b.leader == LeaderOf(b.view, b.n)
    ensures Accounted(b, fs, NewSignature(b, x))
  {}

  lemma FairlyShown(correct: set<nat>, b: Base, signed: set<Signature>, m: Msg, x: Msg)
    requires FairAnswer(b, m, x) && ShownUnforged(correct, signed, m) && NewSignature(b, x) in signed
    ensures ShownUnforged(correct, signed, x)
  {}

  // Every action keeps the record of signatures

  lemma NodeOf(cfg: Config, s: System, i: nat)
    requires Inv(cfg, s) && i in cfg.correct
    ensures i in s.reps && var r := s.reps[i];
            r.id == i && r.n == s.base.n && r.view == s.base.view && r.leader == s.base.leader && !r.maliciousVote
    ensures s.base.n > 0 && s.base.leader == LeaderOf(s.base.view, s.base.n)
  {
    NodeHandles(cfg, s, i);
  }

  lemma DeliverSigns(cfg: Config, s: System, i: nat, m: Msg, ids: seq<nat>)
    requires Inv(cfg, s) && SignedOk(cfg, s) && i in cfg.correct && i in s.reps && m in s.pool
    ensures var out := Dispatch(s.reps[i], m, ids).out;
            var made := SignaturesMade(s.base, out);
            && AllAccounted(s.base, Hear(s.base, s.pool + out).forwards, made)
            && PoolUnforged(cfg.correct, s.signed + made, out)
  {
    hide Dispatch;
    hide RoundOk;
    hide NodesOk;
    hide RawOk;
    hide RawFits;
    hide RawDone;
    hide BaseOk;
    NodeOf(cfg, s, i);
    var out := Dispatch(s.reps[i], m, ids).out;
    var made, fs := SignaturesMade(s.base, out), Hear(s.base, s.pool + out).forwards;
    assert Standing(cfg, s.base, s.raw, m);
    forall x | x in out
      ensures Accounted(s.base, fs, NewSignature(s.base, x)) && ShownUnforged(cfg.correct, s.signed + made, x)
    {
      DispatchAnswersFairly(cfg, s.base, s.reps[i], s.raw, m, ids, x);
      FairSignature(s.base, fs, m, x);
      FairlyShown(cfg.correct, s.base, s.signed + made, m, x);
    }
  }

  lemma ForwardSigns(cfg: Config, b: Base, raw: map<nat, Proposal>, signed: set<Signature>, pool: set<Msg>, i: nat)
    requires i in raw && i < b.n && i != b.leader && WellBuilt(b, raw[i]) && AcceptableAt(b, raw[i])
    requires RawSigned(b.leader in cfg.correct, raw, signed) && PropMsg(Forwarded(i, raw[i])) in pool
    ensures var x := PropMsg(Forwarded(i, raw[i]));
            Accounted(b, Hear(b, pool).forwards, NewSignature(b, x)) && ShownUnforged(cfg.correct, signed, x)
  {
    var x := PropMsg(Forwarded(i, raw[i]));
    assert IsForward(b, x);
    assert x in Hear(b, pool).forwards;
  }

  /** A node that sends at most one message makes at most one signature. */
  lemma OneSigned(correct: set<nat>, b: Base, fs: set<Msg>, signed: set<Signature>, out: set<Msg>, x: Msg)
    requires out == {} || out == {x}
    requires out == {x} ==> Accounted(b, fs, NewSignature(b, x)) && ShownUnforged(correct, signed, x)
    ensures AllAccounted(b, fs, SignaturesMade(b, out))
    ensures PoolUnforged(correct, signed + SignaturesMade(b, out), out)
  {}

  lemma TakeFacts(cfg: Config, s: System, i: nat)
    requires CanStep(cfg, s, TakeProposal(i)) && SignedOk(cfg, s)
    ensures i in s.raw && i in s.reps && i < s.base.n && i != s.base.leader && WellBuilt(s.base, s.raw[i])
    ensures RawSigned(s.base.leader in cfg.correct, s.raw, s.signed)
  {
    assert i in Nodes(cfg.n);
  }

  lemma TakeSigns(cfg: Config, s: System, i: nat)
    requires CanStep(cfg, s, TakeProposal(i)) && SignedOk(cfg, s)
    ensures var out := Dispatch(s.reps[i], PropMsg(s.raw[i]), []).out;
            var made := SignaturesMade(s.base, out);
            && AllAccounted(s.base, Hear(s.base, s.pool + out).forwards, made)
            && PoolUnforged(cfg.correct, s.signed + made, out)
  {
    hide Inv;
    hide AllAccounted;
    hide PoolUnforged;
    TakesProposal(cfg, s, i);
    TakeFacts(cfg, s, i);
    var out, x := Dispatch(s.reps[i], PropMsg(s.raw[i]), []).out, PropMsg(Forwarded(i, s.raw[i]));
    if out == {x} {
      ForwardSigns(cfg, s.base, s.raw, s.signed, s.pool + out, i);
    }
    OneSigned(cfg.correct, s.base, Hear(s.base, s.pool + out).forwards, s.signed, out, x);
  }

  /** A starting node signs nothing but the leader's proposal. */
  lemma StartSigns(c: Scene, id: nat, r: Replica, h: Heard, cmds: Option<seq<Command>>) returns (p: Proposal)
    requires Handles(c, false, id, r, h) && c.base.view !in r.ledger.certs
    ensures var out := Start(r, c.withheld, cmds).out;
            && (out == {} || out == {PropMsg(p)})
            && (out == {PropMsg(p)} ==> WellBuilt(c.base, p) && p.forwardSender == c.base.leader && id == c.base.leader
                                        && p.miningProof == Signed(id, HeaderPayload(p.block.header)))
  {
    p := CandidateProposal(id, c.base.leader, [], GENESIS_CERT, 0, "");
    if c.withheld || id != c.base.leader || r.ledger.head !in r.ledger.certs || cmds.None? {
      StartsQuietly(c, id, r, h, cmds);
    } else {
      p := CandidateProposal(id, c.base.leader, cmds.value, r.ledger.certs[r.ledger.head], r.ledger.head + 1, "");
      LeaderProposes(c, id, r, h, cmds.value, p);
    }
  }

  lemma ProposalSigned(b: Base, fs: set<Msg>, id: nat, p: Proposal)
    requires WellBuilt(b, p) && p.forwardSender == b.leader && id == b.leader
    requires p.miningProof == Signed(id, HeaderPayload(p.block.header))
    ensures Accounted(b, fs, NewSignature(b, PropMsg(p))) && NewSignature(b, PropMsg(p)) == p.miningProof
  {}

  lemma MadeOne(b: Base, fs: set<Msg>, out: set<Msg>, x: Msg)
    requires out == {} || out == {x}
    requires out == {x} ==> Accounted(b, fs, NewSignature(b, x))
    ensures AllAccounted(b, fs, SignaturesMade(b, out)) && (out == {x} ==> NewSignature(b, x) in SignaturesMade(b, out))
  {}

  /** The proposals on their way are the old ones or have just been signed. */
  ghost predicate RawStays(raw: map<nat, Proposal>, raw': map<nat, Proposal>, made: set<Signature>) {
    raw' == raw || RawSigned(true, raw', made)
  }

  lemma BegunRaw(cfg: Config, s: System, i: nat, cmds: Option<seq<Command>>, p: Proposal)
    requires i in s.reps
    requires var out := Start(s.reps[i], s.withheld, cmds).out; out == {} || out == {PropMsg(p)}
    ensures var s' := Begun(cfg, s, i, cmds);
            && s'.base == s.base && s'.pool == s.pool && s'.signed == s.signed
            && (s'.raw == s.raw || (Start(s.reps[i], s.withheld, cmds).out == {PropMsg(p)}
                                    && forall j :: j in s'.raw ==> s'.raw[j] == p))
  {}

  lemma BeginSigns(cfg: Config, s: System, i: nat, cmds: Option<seq<Command>>)
    requires Inv(cfg, s) && i in cfg.correct && i in s.reps && i !in s.started
    ensures var made := SignaturesMade(s.base, Start(s.reps[i], s.withheld, cmds).out);
            && AllAccounted(s.base, Hear(s.base, s.pool).forwards, made)
            && RawStays(s.raw, Begun(cfg, s, i, cmds).raw, made)
    ensures var s' := Begun(cfg, s, i, cmds); s'.base == s.base && s'.pool == s.pool && s'.signed == s.signed
  {
    NodeHandles(cfg, s, i);
    var out, fs := Start(s.reps[i], s.withheld, cmds).out, Hear(s.base, s.pool).forwards;
    var p := StartSigns(SceneOf(cfg, s), i, s.reps[i], Hear(s.base, s.seen[i]), cmds);
    if out == {PropMsg(p)} {
      ProposalSigned(s.base, fs, i, p);
    }
    MadeOne(s.base, fs, out, PropMsg(p));
    BegunRaw(cfg, s, i, cmds, p);
  }

  lemma SignedAfter(cfg: Config, s: System, s': System, said: set<Msg>, made: set<Signature>)
    requires SignedOk(cfg, s)
    requires s'.base == s.base && s'.pool == s.pool + said && s'.signed == s.signed + made
    requires RawStays(s.raw, s'.raw, made)
    requires AllAccounted(s.base, Hear(s.base, s.pool + said).forwards, made)
    requires PoolUnforged(cfg.correct, s.signed + made, said)
    ensures SignedOk(cfg, s')
  {
    SignedGrows(cfg, s, said, made);
  }

  lemma SignedSilently(cfg: Config, s: System, s': System, made: set<Signature>)
    requires SignedOk(cfg, s) && s'.base == s.base && s'.pool == s.pool && s'.signed == s.signed + made
    requires RawStays(s.raw, s'.raw, made) && AllAccounted(s.base, Hear(s.base, s.pool).forwards, made)
    ensures SignedOk(cfg, s')
  {
    assert s.pool + {} == s.pool;
    SignedAfter(cfg, s, s', {}, made);
  }

  lemma SignedSays(cfg: Config, s: System, m: Msg)
    requires SignedOk(cfg, s) && ShownUnforged(cfg.correct, s.signed, m)
    ensures SignedOk(cfg, s.(pool := s.pool + {m}))
  {
    assert s.signed + {} == s.signed;
    SignedAfter(cfg, s, s.(pool := s.pool + {m}), {m}, {});
  }

  lemma BeginKeepsSigned(cfg: Config, s: System, i: nat, cmds: Option<seq<Command>>)
    requires CanStep(cfg, s, Begin(i, cmds)) && SignedOk(cfg, s)
    ensures SignedOk(cfg, Apply(cfg, s, Begin(i, cmds)))
  {
    BeginEnabled(cfg, s, i, cmds);
    BeginSigns(cfg, s, i, cmds);
    SignedSilently(cfg, s, Apply(cfg, s, Begin(i, cmds)),
                   SignaturesMade(s.base, Start(s.reps[i], s.withheld, cmds).out));
  }

  lemma TakeKeepsSigned(cfg: Config, s: System, i: nat)
    requires CanStep(cfg, s, TakeProposal(i)) && SignedOk(cfg, s)
    ensures SignedOk(cfg, Apply(cfg, s, TakeProposal(i)))
  {
    hide Inv;
    TakeSigns(cfg, s, i);
    var out := Dispatch(s.reps[i], PropMsg(s.raw[i]), []).out;
    SignedAfter(cfg, s, Apply(cfg, s, TakeProposal(i)), out, SignaturesMade(s.base, out));
  }

  lemma DeliverKeepsSigned(cfg: Config, s: System, i: nat, m: Msg, ids: seq<nat>)
    requires CanStep(cfg, s, Deliver(i, m, ids)) && SignedOk(cfg, s)
    ensures SignedOk(cfg, Apply(cfg, s, Deliver(i, m, ids)))
  {
    hide Inv;
    hide Enabled;
    DeliverEnabled(cfg, s, i, m, ids);
    DeliverSigns(cfg, s, i, m, ids);
    var out := Dispatch(s.reps[i], m, ids).out;
    SignedAfter(cfg, s, Apply(cfg, s, Deliver(i, m, ids)), out, SignaturesMade(s.base, out));
  }

  lemma ShownCarried(correct: set<nat>, signed: set<Signature>, m: Msg)
    requires Unforged(correct, signed, m)
    ensures ShownUnforged(correct, signed, m)
  {
    assert m.EquivocationMsg? || ShownSignature(m) in Signatures(m);
  }

  lemma InjectKeepsSigned(cfg: Config, s: System, m: Msg)
    requires CanStep(cfg, s, Inject(m)) && SignedOk(cfg, s)
    ensures SignedOk(cfg, Apply(cfg, s, Inject(m)))
  {
    InjectEnabled(cfg, s, m);
    ShownCarried(cfg.correct, s.signed, m);
    SignedSays(cfg, s, m);
  }

  lemma SignedRaw(cfg: Config, s: System, raw: map<nat, Proposal>, pending: set<nat>)
    requires SignedOk(cfg, s) && !CorrectLeader(cfg, s)
    ensures SignedOk(cfg, s.(raw := raw, pending := pending))
  {}

  lemma SendKeepsSigned(cfg: Config, s: System, i: nat, p: Proposal)
    requires CanStep(cfg, s, SendProposal(i, p)) && SignedOk(cfg, s)
    ensures SignedOk(cfg, Apply(cfg, s, SendProposal(i, p)))
  {
    SendEnabled(cfg, s, i, p);
    SignedRaw(cfg, s, s.raw[i := p], s.pending + {i});
  }

  lemma AccountedLater(b: Base, b': Base, fs: set<Msg>, signed: set<Signature>)
    requires AllAccounted(b, fs, signed) && b'.n == b.n && b'.view == b.view + 1
    ensures AllAccounted(b', {}, signed)
  {
    forall sig | sig in signed
      ensures Accounted(b', {}, sig)
    {
      assert Accounted(b, fs, sig);
    }
  }

  lemma SignedFresh(cfg: Config, s: System, reps: map<nat, Replica>, withheld: bool, b: Base)
    requires SignedOk(cfg, s) && b.n == s.base.n && b.view == s.base.view + 1
    ensures SignedOk(cfg, Fresh(cfg, reps, withheld, b, s.signed))
  {
    AccountedLater(s.base, b, Hear(s.base, s.pool).forwards, s.signed);
    HearNothing(b);
  }

  lemma SignedStalled(cfg: Config, s: System, reps: map<nat, Replica>)
    requires SignedOk(cfg, s)
    ensures SignedOk(cfg, s.(reps := reps, started := {}))
  {}

  lemma CloseKeepsSigned(cfg: Config, s: System, i: nat, withheld: bool)
    requires CanStep(cfg, s, Close(i, withheld)) && SignedOk(cfg, s)
    ensures SignedOk(cfg, Apply(cfg, s, Close(i, withheld)))
  {
    hide Inv;
    hide SignedOk;
    CloseEnabled(cfg, s, i, withheld);
    if Commits(SceneOf(cfg, s)) {
      ClosesFresh(cfg, s, i, withheld);
      SignedFresh(cfg, s, AfterTimers(cfg, s.reps), withheld, NextBase(cfg.f, SceneOf(cfg, s)));
    } else {
      NodeStalls(cfg, s, i);
      SignedStalled(cfg, s, AfterTimers(cfg, s.reps));
    }
  }

  lemma NodeStepKeepsSigned(cfg: Config, s: System, a: Action)
    requires CanStep(cfg, s, a) && SignedOk(cfg, s)
    ensures a.Begin? || a.TakeProposal? || a.Deliver? ==> SignedOk(cfg, Apply(cfg, s, a))
  {
    hide Inv;
    hide Enabled;
    hide SignedOk;
    if a.Begin? {
      BeginKeepsSigned(cfg, s, a.id, a.cmds);
    } else if a.TakeProposal? {
      TakeKeepsSigned(cfg, s, a.id);
    } else if a.Deliver? {
      DeliverKeepsSigned(cfg, s, a.id, a.m, a.ids);
    }
  }

  lemma OtherStepKeepsSigned(cfg: Config, s: System, a: Action)
    requires CanStep(cfg, s, a) && SignedOk(cfg, s)
    ensures a.Inject? || a.SendProposal? || a.Close? ==> SignedOk(cfg, Apply(cfg, s, a))
  {
    hide Inv;
    hide Enabled;
    hide SignedOk;
    if a.Inject? {
      InjectKeepsSigned(cfg, s, a.m);
    } else if a.SendProposal? {
      SendKeepsSigned(cfg, s, a.id, a.p);
    } else if a.Close? {
      CloseKeepsSigned(cfg, s, a.id, a.withheld);
    }
  }

  ghost predicate GoodSigned(cfg: Config, s: System) {
    Whole(Good(cfg, s) && SignedOk(cfg, s))
  }

  lemma StepKeepsSigned(cfg: Config, s: System, a: Action, s': System)
    requires Steps(cfg, s, a, s')
    ensures GoodSigned(cfg, s) ==> GoodSigned(cfg, s')
  {
    hide Inv;
    hide History;
    hide Enabled;
    hide SignedOk;
    if GoodSigned(cfg, s) {
      StepKeepsGood(cfg, s, a, s');
      NodeStepKeepsSigned(cfg, s, a);
      OtherStepKeepsSigned(cfg, s, a);
    }
  }

  lemma InitSigned(cfg: Config, s: System)
    requires Init(cfg, s)
    ensures GoodSigned(cfg, s)
  {
    InitGood(cfg, s);
  }

  lemma RunSigned(cfg: Config, states: seq<System>, actions: seq<Action>, k: nat)
    requires IsRun(cfg, states, actions) && k < |states|
    ensures GoodSigned(cfg, states[k])
  {
    hide GoodSigned;
    hide Steps;
    InitSigned(cfg, states[0]);
    forall i | 1 <= i < |states|
      ensures GoodSigned(cfg, states[i - 1]) ==> GoodSigned(cfg, states[i])
    {
      StepKeepsSigned(cfg, states[i - 1], actions[i - 1], states[i]);
    }
    Along(states, s => GoodSigned(cfg, s), 0, k);
  }

  // Framing

  /** As evidence against its voter, a vote proves nothing if it names the leader or was cast in
      another view. The code checks neither. */
  predicate FramesVote(b: Base, v: Vote) {
    v.owner == b.leader || v.view != b.view
  }

  /** As evidence against its miner, a proposal proves nothing if it is for another view or if the
      mining proof is a signature made for forwarding, which is over the same header. */
  ghost predicate FramesProposal(b: Base, fs: set<Msg>, p: Proposal) {
    p.block.header.height != b.view || ForwardSignature(fs, p.miningProof)
  }

  /** A signed proposal by somebody who is not the leader, sent as the leader sends its own. */
  predicate StrayProposal(b: Base, p: Proposal) {
    p.forwardSender == b.leader && p.miner != b.leader && SignedHeader(b.n, p.miner, p.block, p.miningProof)
  }

  /** The message gets its author on record, by itself or through the reports of those who receive it:
      valid evidence, or a stray vote or proposal. */
  predicate Incriminates(b: Base, m: Msg) {
    match m
    case PropMsg(p) => StrayProposal(b, p)
    case VoteMsg(v) => v.owner != b.leader && SignedVote(b.n, v)
    case EquivocationMsg(_, _, _) => false
    case MaliciousProposalMsg(_, _) => IsProposalEvidence(b, m)
    case MaliciousVoteMsg(_, _) => IsVoteEvidence(b, m)
  }

  /** It does so although what it shows proves nothing. */
  ghost predicate Frames(b: Base, fs: set<Msg>, m: Msg) {
    && Incriminates(b, m)
    && match m
       case PropMsg(p) => FramesProposal(b, fs, p)
       case VoteMsg(v) => v.view != b.view
       case EquivocationMsg(_, _, _) => false
       case MaliciousProposalMsg(_, e) => FramesProposal(b, fs, e)
       case MaliciousVoteMsg(_, ev) => FramesVote(b, ev)
  }

  /** What a correct node has signed is a vote for the leader of its view. */
  lemma CorrectVote(b: Base, fs: set<Msg>, signed: set<Signature>, v: Vote)
    requires AllAccounted(b, fs, signed) && SignedVote(b.n, v) && v.sig in signed
    requires b.n > 0 && b.leader == LeaderOf(b.view, b.n)
    ensures FramesVote(b, v)
  {
    assert Accounted(b, fs, v.sig);
  }

  lemma CorrectHeader(b: Base, fs: set<Msg>, signed: set<Signature>, p: Proposal)
    requires AllAccounted(b, fs, signed) && p.miningProof in signed
    requires SignedHeader(b.n, p.miner, p.block, p.miningProof) && p.miner != b.leader
    ensures FramesProposal(b, fs, p)
  {
    assert Accounted(b, fs, p.miningProof);
  }

  /** Valid evidence against a correct node is always a frame-up. */
  lemma OnlyFramed(cfg: Config, s: System, m: Msg)
    requires GoodSigned(cfg, s) && m in s.pool
    ensures IsVoteEvidence(s.base, m) && m.ev.voter in cfg.correct ==> FramesVote(s.base, m.ev)
    ensures IsProposalEvidence(s.base, m) && m.e.miner in cfg.correct ==>
              FramesProposal(s.base, Hear(s.base, s.pool).forwards, m.e)
  {
    hide History;
    hide RawSigned;
    hide RoundOk;
    hide RawOk;
    hide RawFits;
    hide RawDone;
    hide NodesOk;
    hide Chained;
    hide Tabulated;
    var b, fs := s.base, Hear(s.base, s.pool).forwards;
    assert ShownUnforged(cfg.correct, s.signed, m) && Standing(cfg, b, s.raw, m);
    if IsVoteEvidence(b, m) && m.ev.voter in cfg.correct {
      CorrectVote(b, fs, s.signed, m.ev);
    }
    if IsProposalEvidence(b, m) && m.e.miner in cfg.correct {
      CorrectHeader(b, fs, s.signed, m.e);
    }
  }

  lemma MarkedNow(t: Tally, view: nat, s: set<nat>, id: nat)
    requires view !in t
    ensures Marked(WithRow(t, view, s), view, id) <==> id in s
  {}

  lemma RecordOf(c: Scene, began: bool, id: nat, r: Replica, h: Heard, other: nat)
    requires Ready(c.base) && Mid(c, began, id, r, h)
    ensures r.view == c.base.view
    ensures Marked(r.log.maliciousVotes, r.view, other) <==> other in h.maliciousVoters
    ensures Marked(r.log.maliciousProposals, r.view, other) <==> other in h.maliciousProposers
  {
    MarkedNow(c.base.log.maliciousVotes, c.base.view, h.maliciousVoters, other);
    MarkedNow(c.base.log.maliciousProposals, c.base.view, h.maliciousProposers, other);
  }

  lemma RecordedBy(cfg: Config, s: System, i: nat, id: nat)
    requires GoodSigned(cfg, s) && i in cfg.correct
    ensures i in s.reps && i in s.seen && s.seen[i] <= s.pool && s.reps[i].view == s.base.view
    ensures Marked(s.reps[i].log.maliciousVotes, s.base.view, id) <==> id in Hear(s.base, s.seen[i]).maliciousVoters
    ensures Marked(s.reps[i].log.maliciousProposals, s.base.view, id) <==>
              id in Hear(s.base, s.seen[i]).maliciousProposers
  {
    hide SignedOk;
    hide NodeOk;
    hide Handles;
    hide History;
    NodeHandles(cfg, s, i);
    BaseIsReady(s.base);
    RecordOf(SceneOf(cfg, s), i in s.started, i, s.reps[i], Hear(s.base, s.seen[i]), id);
  }

  ghost predicate FramedAsVoter(s: System, i: nat, id: nat)
    requires i in s.seen
  {
    exists m :: m in s.seen[i] && IsVoteEvidence(s.base, m) && m.ev.voter == id && FramesVote(s.base, m.ev)
  }

  ghost predicate FramedAsProposer(s: System, i: nat, id: nat)
    requires i in s.seen
  {
    exists m :: m in s.seen[i] && IsProposalEvidence(s.base, m) && m.e.miner == id
                && FramesProposal(s.base, Hear(s.base, s.pool).forwards, m.e)
  }

  lemma OnRecordState(cfg: Config, s: System, i: nat, id: nat)
    requires GoodSigned(cfg, s) && i in cfg.correct && id in cfg.correct
    ensures i in s.reps && i in s.seen && s.reps[i].view == s.base.view
    ensures Marked(s.reps[i].log.maliciousVotes, s.base.view, id) <==> FramedAsVoter(s, i, id)
    ensures Marked(s.reps[i].log.maliciousProposals, s.base.view, id) <==> FramedAsProposer(s, i, id)
  {
    hide GoodSigned;
    hide FramesVote;
    hide FramesProposal;
    RecordedBy(cfg, s, i, id);
    forall m | m in s.seen[i]
      ensures IsVoteEvidence(s.base, m) && m.ev.voter == id ==> FramesVote(s.base, m.ev)
      ensures IsProposalEvidence(s.base, m) && m.e.miner == id ==>
                FramesProposal(s.base, Hear(s.base, s.pool).forwards, m.e)
    {
      OnlyFramed(cfg, s, m);
    }
  }

  /** Neither withholding nor equivocation is on record of a correct leader or a non-leader. */
  lemma LeaderRecords(c: Scene, began: bool, id: nat, r: Replica, h: Heard, other: nat)
    requires Handles(c, began, id, r, h) && (other == c.base.leader ==> c.correctLeader)
    ensures !Marked(r.log.withheld, c.base.view, other) && !Marked(r.log.equivocations, c.base.view, other)
  {
    if other == c.base.leader {
      NoConflictByCorrect(c);
    }
    MarkedNow(c.base.log.withheld, c.base.view, Only(began && c.withheld, c.base.leader), other);
    MarkedNow(c.base.log.equivocations, c.base.view, Only(h.equivocation, c.base.leader), other);
  }

  lemma NoLeaderOffence(cfg: Config, s: System, i: nat, id: nat)
    requires GoodSigned(cfg, s) && i in cfg.correct && id in cfg.correct
    ensures i in s.reps
    ensures !Marked(s.reps[i].log.withheld, s.base.view, id) && !Marked(s.reps[i].log.equivocations, s.base.view, id)
  {
    hide SignedOk;
    hide History;
    hide Inv;
    hide Handles;
    hide Marked;
    NodeHandles(cfg, s, i);
    LeaderRecords(SceneOf(cfg, s), i in s.started, i, s.reps[i], Hear(s.base, s.seen[i]), id);
  }

  /** In every state of a run, a correct node is on a correct node's record for the current view if
      and only if that node has handled evidence that frames it; for withholding or equivocation it
      never is. */
  lemma CorrectOnRecordIff(cfg: Config, states: seq<System>, actions: seq<Action>, k: nat, i: nat, id: nat)
    requires IsRun(cfg, states, actions) && k < |states| && i in cfg.correct && id in cfg.correct
    ensures i in states[k].reps && i in states[k].seen
    ensures var r := states[k].reps[i];
            && (Marked(r.log.maliciousVotes, r.view, id) <==> FramedAsVoter(states[k], i, id))
            && (Marked(r.log.maliciousProposals, r.view, id) <==> FramedAsProposer(states[k], i, id))
            && !Marked(r.log.withheld, r.view, id) && !Marked(r.log.equivocations, r.view, id)
  {
    hide IsRun;
    hide GoodSigned;
    hide Marked;
    RunSigned(cfg, states, actions, k);
    OnRecordState(cfg, states[k], i, id);
    NoLeaderOffence(cfg, states[k], i, id);
  }

  // Without framing

  /** Nobody in the run reuses a correct node's signature as false evidence against it. */
  ghost predicate Unframed(cfg: Config, states: seq<System>, actions: seq<Action>) {
    forall k :: 0 <= k < |actions| && k < |states| && actions[k].Inject? ==>
      !FramesCorrect(cfg, states[k], actions[k].m)
  }

  ghost predicate FramesIn(s: System, m: Msg) {
    Frames(s.base, Hear(s.base, s.pool).forwards, m)
  }

  /** Whose vote or proposal a message shows. */
  function Author(m: Msg): nat {
    match m
    case PropMsg(p) => p.miner
    case VoteMsg(v) => v.voter
    case EquivocationMsg(a, _, _) => a.target
    case MaliciousProposalMsg(_, e) => e.miner
    case MaliciousVoteMsg(_, ev) => ev.voter
  }

  ghost predicate FramesCorrect(cfg: Config, s: System, m: Msg) {
    Author(m) in cfg.correct && FramesIn(s, m)
  }

  /** The message makes nobody record a correct node. */
  predicate Innocent(correct: set<nat>, b: Base, m: Msg) {
    Incriminates(b, m) ==> Author(m) !in correct
  }

  ghost predicate PoolInnocent(correct: set<nat>, b: Base, pool: set<Msg>) {
    forall m :: m in pool ==> Innocent(correct, b, m)
  }

  lemma UnframedInnocent(correct: set<nat>, b: Base, fs: set<Msg>, signed: set<Signature>, m: Msg)
    requires AllAccounted(b, fs, signed) && b.n > 0 && b.leader == LeaderOf(b.view, b.n)
    requires ShownUnforged(correct, signed, m) && (Author(m) in correct ==> !Frames(b, fs, m))
    requires m.MaliciousProposalMsg? ==> LawfulProposalEvidence(b, m)
    ensures Innocent(correct, b, m)
  {
    if !Innocent(correct, b, m) {
      match m
      case PropMsg(p) => CorrectHeader(b, fs, signed, p);
      case VoteMsg(v) => CorrectVote(b, fs, signed, v);
      case MaliciousProposalMsg(_, e) => CorrectHeader(b, fs, signed, e);
      case MaliciousVoteMsg(_, ev) => CorrectVote(b, fs, signed, ev);
    }
  }

  lemma InjectedInnocent(cfg: Config, s: System, m: Msg)
    requires GoodSigned(cfg, s) && Lawful(cfg, s, m) && Unforged(cfg.correct, s.signed, m) && !FramesCorrect(cfg, s, m)
    ensures Innocent(cfg.correct, s.base, m)
  {
    ShownCarried(cfg.correct, s.signed, m);
    UnframedInnocent(cfg.correct, s.base, Hear(s.base, s.pool).forwards, s.signed, m);
  }

  lemma AnswerInnocent(correct: set<nat>, b: Base, m: Msg, x: Msg)
    requires FairAnswer(b, m, x) && Innocent(correct, b, m)
    ensures Innocent(correct, b, x)
  {}

  lemma DeliverInnocent(cfg: Config, s: System, i: nat, m: Msg, ids: seq<nat>)
    requires Inv(cfg, s) && PoolInnocent(cfg.correct, s.base, s.pool) && i in cfg.correct && i in s.reps && m in s.pool
    ensures PoolInnocent(cfg.correct, s.base, Dispatch(s.reps[i], m, ids).out)
  {
    NodeOf(cfg, s, i);
    assert Standing(cfg, s.base, s.raw, m);
    forall x | x in Dispatch(s.reps[i], m, ids).out
      ensures Innocent(cfg.correct, s.base, x)
    {
      DispatchAnswersFairly(cfg, s.base, s.reps[i], s.raw, m, ids, x);
      AnswerInnocent(cfg.correct, s.base, m, x);
    }
  }

  ghost predicate NeverAccused(correct: set<nat>, log: Transcript) {
    forall v, id :: id in correct ==> Clean(log, v, id)
  }

  /** Whoever this round's evidence names, it is not a correct node. */
  ghost predicate NobodyFramed(correct: set<nat>, c: Scene) {
    Whole(
      && (c.withheld || c.round.equivocation ==> c.base.leader !in correct)
      && c.round.maliciousProposers !! correct && c.round.maliciousVoters !! correct)
  }

  lemma OffendersFaulty(correct: set<nat>, b: Base, pool: set<Msg>)
    requires PoolInnocent(correct, b, pool)
    ensures Hear(b, pool).maliciousProposers !! correct && Hear(b, pool).maliciousVoters !! correct
  {}

  /** A correct leader neither withholds nor equivocates. */
  lemma CorrectLeaderFair(cfg: Config, s: System)
    requires Inv(cfg, s) && CorrectLeader(cfg, s)
    ensures !s.withheld && !Hear(s.base, s.pool).equivocation
  {
    NoConflictByCorrect(SceneOf(cfg, s));
  }

  lemma RoundFramesNobody(cfg: Config, s: System)
    requires Inv(cfg, s) && PoolInnocent(cfg.correct, s.base, s.pool)
    ensures NobodyFramed(cfg.correct, SceneOf(cfg, s))
  {
    OffendersFaulty(cfg.correct, s.base, s.pool);
    if CorrectLeader(cfg, s) {
      CorrectLeaderFair(cfg, s);
    }
  }

  lemma StaysClean(correct: set<nat>, c: Scene, v: nat, id: nat)
    requires NobodyFramed(correct, c) && id in correct && Clean(c.base.log, v, id)
    ensures Clean(NextLog(c), v, id)
  {}

  lemma NextClean(correct: set<nat>, c: Scene)
    requires NobodyFramed(correct, c) && NeverAccused(correct, c.base.log)
    ensures NeverAccused(correct, NextLog(c))
  {
    forall v, id | id in correct
      ensures Clean(NextLog(c), v, id)
    {
      StaysClean(correct, c, v, id);
    }
  }

  ghost predicate Clear(cfg: Config, s: System) {
    Whole(PoolInnocent(cfg.correct, s.base, s.pool) && NeverAccused(cfg.correct, s.base.log))
  }

  lemma ClearMore(cfg: Config, s: System, s': System, out: set<Msg>)
    requires Clear(cfg, s) && s'.base == s.base && s'.pool == s.pool + out && PoolInnocent(cfg.correct, s.base, out)
    ensures Clear(cfg, s')
  {}

  lemma TakenInnocent(correct: set<nat>, b: Base, out: set<Msg>, i: nat, p: Proposal)
    requires i != b.leader && (out == {} || out == {PropMsg(Forwarded(i, p))})
    ensures PoolInnocent(correct, b, out)
  {}

  lemma CloseClear(cfg: Config, s: System, a: Action)
    requires CanStep(cfg, s, a) && a.Close? && Clear(cfg, s)
    ensures Clear(cfg, Apply(cfg, s, a))
  {
    hide Inv;
    CloseEnabled(cfg, s, a.id, a.withheld);
    if Commits(SceneOf(cfg, s)) {
      ClosesFresh(cfg, s, a.id, a.withheld);
      RoundFramesNobody(cfg, s);
      NextClean(cfg.correct, SceneOf(cfg, s));
    } else {
      NodeStalls(cfg, s, a.id);
    }
  }

  lemma BeginClear(cfg: Config, s: System, i: nat, cmds: Option<seq<Command>>)
    requires CanStep(cfg, s, Begin(i, cmds)) && Clear(cfg, s)
    ensures Clear(cfg, Apply(cfg, s, Begin(i, cmds)))
  {
    BeginEnabled(cfg, s, i, cmds);
    BeginSigns(cfg, s, i, cmds);
  }

  lemma TakeClear(cfg: Config, s: System, i: nat)
    requires CanStep(cfg, s, TakeProposal(i)) && SignedOk(cfg, s) && Clear(cfg, s)
    ensures Clear(cfg, Apply(cfg, s, TakeProposal(i)))
  {
    hide Inv;
    hide SignedOk;
    TakesProposal(cfg, s, i);
    TakeFacts(cfg, s, i);
    var out := Dispatch(s.reps[i], PropMsg(s.raw[i]), []).out;
    TakenInnocent(cfg.correct, s.base, out, i, s.raw[i]);
    ClearMore(cfg, s, Apply(cfg, s, TakeProposal(i)), out);
  }

  lemma DeliverClear(cfg: Config, s: System, i: nat, m: Msg, ids: seq<nat>)
    requires CanStep(cfg, s, Deliver(i, m, ids)) && Clear(cfg, s)
    ensures Clear(cfg, Apply(cfg, s, Deliver(i, m, ids)))
  {
    DeliverEnabled(cfg, s, i, m, ids);
    DeliverInnocent(cfg, s, i, m, ids);
    ClearMore(cfg, s, Apply(cfg, s, Deliver(i, m, ids)), Dispatch(s.reps[i], m, ids).out);
  }

  lemma InputClear(cfg: Config, s: System, a: Action)
    requires GoodSigned(cfg, s) && Enabled(cfg, s, a) && (a.Inject? || a.SendProposal?) && Clear(cfg, s)
    requires a.Inject? ==> !FramesCorrect(cfg, s, a.m)
    ensures Clear(cfg, Apply(cfg, s, a))
  {
    hide Good;
    hide SignedOk;
    if a.Inject? {
      InjectEnabled(cfg, s, a.m);
      InjectedInnocent(cfg, s, a.m);
      ClearMore(cfg, s, Apply(cfg, s, a), {a.m});
    } else {
      SendEnabled(cfg, s, a.id, a.p);
    }
  }

  lemma NodeStepClear(cfg: Config, s: System, a: Action)
    requires CanStep(cfg, s, a) && SignedOk(cfg, s) && Clear(cfg, s)
    ensures a.Begin? || a.TakeProposal? || a.Deliver? || a.Close? ==> Clear(cfg, Apply(cfg, s, a))
  {
    hide Inv;
    hide Enabled;
    hide Clear;
    hide SignedOk;
    if a.Begin? {
      BeginClear(cfg, s, a.id, a.cmds);
    } else if a.TakeProposal? {
      TakeClear(cfg, s, a.id);
    } else if a.Deliver? {
      DeliverClear(cfg, s, a.id, a.m, a.ids);
    } else if a.Close? {
      CloseClear(cfg, s, a);
    }
  }

  ghost predicate GoodClear(cfg: Config, s: System) {
    Whole(GoodSigned(cfg, s) && Clear(cfg, s))
  }

  lemma StepKeepsClear(cfg: Config, s: System, a: Action, s': System)
    requires Steps(cfg, s, a, s') && (a.Inject? ==> !FramesCorrect(cfg, s, a.m))
    ensures GoodClear(cfg, s) ==> GoodClear(cfg, s')
  {
    hide Inv;
    hide SignedOk;
    hide Clear;
    hide Enabled;
    hide FramesCorrect;
    hide Apply;
    if GoodClear(cfg, s) {
      StepKeepsSigned(cfg, s, a, s');
      if a.Inject? || a.SendProposal? {
        InputClear(cfg, s, a);
      } else {
        NodeStepClear(cfg, s, a);
      }
    }
  }

  lemma InitClear(cfg: Config, s: System)
    requires Init(cfg, s)
    ensures GoodClear(cfg, s)
  {
    hide GoodSigned;
    InitSigned(cfg, s);
  }

  lemma RunClear(cfg: Config, states: seq<System>, actions: seq<Action>, k: nat)
    requires IsRun(cfg, states, actions) && Unframed(cfg, states, actions) && k < |states|
    ensures GoodClear(cfg, states[k])
  {
    hide GoodClear;
    hide Steps;
    hide FramesCorrect;
    InitClear(cfg, states[0]);
    forall i | 1 <= i < |states|
      ensures GoodClear(cfg, states[i - 1]) ==> GoodClear(cfg, states[i])
    {
      StepKeepsClear(cfg, states[i - 1], actions[i - 1], states[i]);
    }
    Along(states, s => GoodClear(cfg, s), 0, k);
  }

  lemma RecordClean(correct: set<nat>, c: Scene, withheld: bool, accepted: bool, voted: set<nat>, log: Transcript,
                    h: Heard, v: nat, id: nat)
    requires NobodyFramed(correct, c) && Within(h, c.round) && MidLog(c.base, withheld, accepted, voted, log, h)
    requires (withheld ==> c.withheld) && id in correct && Clean(c.base.log, v, id)
    ensures Clean(log, v, id)
  {}

  lemma NodeClean(correct: set<nat>, c: Scene, began: bool, id: nat, r: Replica, h: Heard, v: nat, other: nat)
    requires Mid(c, began, id, r, h) && Within(h, c.round) && NobodyFramed(correct, c)
    requires NeverAccused(correct, c.base.log) && other in correct
    ensures Clean(r.log, v, other)
  {
    var b, first := c.base, Lookup(r.proposalByView, c.base.view);
    RecordClean(correct, c, began && c.withheld, Accepted(b.n, id == b.leader, first, h.forwards),
                Voters(h.votes) + Only(Full(b.n, h.forwards), id), r.log, h, v, other);
  }

  lemma StateClean(cfg: Config, s: System, i: nat, v: nat, id: nat)
    requires GoodClear(cfg, s) && i in cfg.correct && id in cfg.correct
    ensures i in s.reps && Clean(s.reps[i].log, v, id)
  {
    hide SignedOk;
    hide Inv;
    hide History;
    NodeHandles(cfg, s, i);
    RoundFramesNobody(cfg, s);
    NodeClean(cfg.correct, SceneOf(cfg, s), i in s.started, i, s.reps[i], Hear(s.base, s.seen[i]), v, id);
  }

  /** As long as nobody reuses a correct node's signature against it, no correct node ever records
      misbehaviour of a correct node, in any view. */
  lemma CorrectNeverAccused(cfg: Config, states: seq<System>, actions: seq<Action>, k: nat, i: nat, v: nat, id: nat)
    requires IsRun(cfg, states, actions) && Unframed(cfg, states, actions) && k < |states|
    requires i in cfg.correct && id in cfg.correct
    ensures i in states[k].reps && Clean(states[k].reps[i].log, v, id)
  {
    RunClear(cfg, states, actions, k);
    StateClean(cfg, states[k], i, v, id);
  }

  // The frame-ups

  lemma CanInject(cfg: Config, s: System, m: Msg)
    requires Tracked(cfg, s) && Lawful(cfg, s, m) && Unforged(cfg.correct, s.signed, m)
    ensures Enabled(cfg, s, Inject(m))
  {}

  lemma CanDeliver(cfg: Config, s: System, i: nat, m: Msg)
    requires Tracked(cfg, s) && i in cfg.correct && i in s.started && m in s.pool && !m.VoteMsg?
    ensures Enabled(cfg, s, Deliver(i, m, []))
  {}

  lemma InjectThenDeliver(cfg: Config, s: System, i: nat, m: Msg) returns (s1: System, s2: System)
    requires Tracked(cfg, s) && i in cfg.correct && i in s.started && !m.VoteMsg?
    requires Lawful(cfg, s, m) && Unforged(cfg.correct, s.signed, m)
    ensures Steps(cfg, s, Inject(m), s1) && Steps(cfg, s1, Deliver(i, m, []), s2)
    ensures s2.base == s.base && i in s2.seen && m in s2.seen[i]
  {
    CanInject(cfg, s, m);
    InjectEnabled(cfg, s, m);
    s1 := Apply(cfg, s, Inject(m));
    CanDeliver(cfg, s1, i, m);
    DeliverEnabled(cfg, s1, i, m, []);
    s2 := Apply(cfg, s1, Deliver(i, m, []));
  }

  lemma WrappedVote(cfg: Config, s: System, v: Vote, j: nat)
    requires GoodSigned(cfg, s) && j !in cfg.correct && j < s.base.n && VoteMsg(v) in s.pool
    requires IsBallot(s.base, VoteMsg(v))
    ensures var m := MaliciousVoteMsg(Accuse(j, v.voter, s.base.view), v);
            && Lawful(cfg, s, m) && Unforged(cfg.correct, s.signed, m) && FramesIn(s, m)
            && IsVoteEvidence(s.base, m)
  {
    hide Good;
    assert ShownUnforged(cfg.correct, s.signed, VoteMsg(v));
  }

  /** A faulty node wraps a correct node's vote for the leader as evidence: it passes every check,
      and a node that handles it has the voter on record. */
  lemma FramedByOwnVote(cfg: Config, s: System, i: nat, v: Vote, j: nat) returns (s1: System, s2: System)
    requires GoodSigned(cfg, s) && Tracked(cfg, s) && i in cfg.correct && i in s.started
    requires j !in cfg.correct && j < s.base.n
    requires VoteMsg(v) in s.pool && IsBallot(s.base, VoteMsg(v)) && v.voter in cfg.correct
    ensures var m := MaliciousVoteMsg(Accuse(j, v.voter, s.base.view), v);
            Steps(cfg, s, Inject(m), s1) && Steps(cfg, s1, Deliver(i, m, []), s2)
    ensures i in s2.reps && Marked(s2.reps[i].log.maliciousVotes, s.base.view, v.voter)
  {
    hide GoodSigned;
    hide Steps;
    hide Lawful;
    hide Unforged;
    var m := MaliciousVoteMsg(Accuse(j, v.voter, s.base.view), v);
    WrappedVote(cfg, s, v, j);
    s1, s2 := InjectThenDeliver(cfg, s, i, m);
    StepKeepsSigned(cfg, s, Inject(m), s1);
    StepKeepsSigned(cfg, s1, Deliver(i, m, []), s2);
    OnRecordState(cfg, s2, i, v.voter);
  }

  lemma DeliverNow(cfg: Config, s: System, i: nat, m: Msg, ids: seq<nat>) returns (s': System)
    requires Enabled(cfg, s, Deliver(i, m, ids)) && i in s.reps && i in s.seen
    ensures Steps(cfg, s, Deliver(i, m, ids), s') && s'.base == s.base && s'.started == s.started
    ensures i in s'.seen && m in s'.seen[i] && s'.pool == s.pool + Dispatch(s.reps[i], m, ids).out
    ensures Tracked(cfg, s) ==> s'.reps.Keys == cfg.correct && s'.seen.Keys == cfg.correct
  {
    hide Dispatch;
    DeliverEnabled(cfg, s, i, m, ids);
    s' := Apply(cfg, s, Deliver(i, m, ids));
  }

  lemma SignedTracked(cfg: Config, s: System)
    requires GoodSigned(cfg, s)
    ensures Tracked(cfg, s)
  {
    hide SignedOk;
    forall i | i in s.reps
      ensures s.reps[i].n > 0
    {
      NodeOf(cfg, s, i);
    }
  }

  /** Valid evidence that is around gets its target on the record of whoever handles it. */
  lemma EvidenceRecorded(cfg: Config, s: System, k: nat, x: Msg) returns (s': System)
    requires GoodSigned(cfg, s) && k in cfg.correct && k in s.started && x in s.pool
    requires IsVoteEvidence(s.base, x) || IsProposalEvidence(s.base, x)
    ensures Steps(cfg, s, Deliver(k, x, []), s') && k in s'.reps
    ensures IsVoteEvidence(s.base, x) ==> Marked(s'.reps[k].log.maliciousVotes, s.base.view, x.ev.voter)
    ensures IsProposalEvidence(s.base, x) ==> Marked(s'.reps[k].log.maliciousProposals, s.base.view, x.e.miner)
  {
    hide GoodSigned;
    hide Steps;
    hide Marked;
    SignedTracked(cfg, s);
    CanDeliver(cfg, s, k, x);
    hide Enabled;
    s' := DeliverNow(cfg, s, k, x, []);
    StepKeepsSigned(cfg, s, Deliver(k, x, []), s');
    RecordedBy(cfg, s', k, if x.MaliciousVoteMsg? then x.ev.voter else x.e.miner);
  }

  lemma CanDeliverVote(cfg: Config, s: System, i: nat, v: Vote) returns (ids: seq<nat>)
    requires Tracked(cfg, s) && i in cfg.correct && i in s.started && VoteMsg(v) in s.pool
    ensures Enabled(cfg, s, Deliver(i, VoteMsg(v), ids))
  {
    ids := OrderOf(Row(s.reps[i].ballots, s.reps[i].view)[v.voter := v].Keys);
  }

  lemma InjectNow(cfg: Config, s: System, m: Msg) returns (s': System)
    requires GoodSigned(cfg, s) && Lawful(cfg, s, m) && Unforged(cfg.correct, s.signed, m)
    ensures Steps(cfg, s, Inject(m), s') && s' == s.(pool := s.pool + {m}) && GoodSigned(cfg, s')
  {
    hide GoodSigned;
    hide Lawful;
    hide Unforged;
    SignedTracked(cfg, s);
    CanInject(cfg, s, m);
    InjectEnabled(cfg, s, m);
    s' := Apply(cfg, s, Inject(m));
    StepKeepsSigned(cfg, s, Inject(m), s');
  }

  lemma OldVote(cfg: Config, s: System, v: Vote)
    requires GoodSigned(cfg, s) && v.owner != s.base.leader && SignedVote(s.base.n, v) && v.sig in s.signed
    ensures Lawful(cfg, s, VoteMsg(v)) && Unforged(cfg.correct, s.signed, VoteMsg(v)) && FramesIn(s, VoteMsg(v))
  {
    hide Inv;
    hide History;
    hide AllAccounted;
    hide PoolUnforged;
    hide Chained;
    hide Tabulated;
    hide RoundOk;
    var fs := Hear(s.base, s.pool).forwards;
    BaseHolds(cfg, s);
    CorrectVote(s.base, fs, s.signed, v);
  }

  lemma CorrectIsNode(cfg: Config, s: System, i: nat)
    requires Inv(cfg, s) && i in cfg.correct
    ensures i < s.base.n
  {
    assert i in Nodes(cfg.n);
  }

  lemma StrayVoteReported(cfg: Config, s: System, i: nat, v: Vote, ids: seq<nat>)
    requires Good(cfg, s) && i in cfg.correct && v.owner != s.base.leader && SignedVote(s.base.n, v)
    ensures i in s.reps
    ensures var x := MaliciousVoteMsg(Accuse(i, v.voter, s.base.view), v);
            Dispatch(s.reps[i], VoteMsg(v), ids).out == {x} && IsVoteEvidence(s.base, x)
  {
    hide Inv;
    hide History;
    NodeOf(cfg, s, i);
    CorrectIsNode(cfg, s, i);
  }

  /** A vote cast for an earlier leader is sent again: whoever receives it reports the voter, and
      who handles the report has the voter on record. */
  lemma FramedByOldVote(cfg: Config, s: System, v: Vote, i: nat, k: nat)
    returns (s1: System, ids: seq<nat>, s2: System, s3: System)
    requires GoodSigned(cfg, s) && v.owner != s.base.leader && SignedVote(s.base.n, v) && v.sig in s.signed
    requires i in cfg.correct && i in s.started && k in cfg.correct && k in s.started
    ensures FramesIn(s, VoteMsg(v)) && Steps(cfg, s, Inject(VoteMsg(v)), s1)
    ensures Steps(cfg, s1, Deliver(i, VoteMsg(v), ids), s2)
    ensures Steps(cfg, s2, Deliver(k, MaliciousVoteMsg(Accuse(i, v.voter, s.base.view), v), []), s3)
    ensures k in s3.reps && Marked(s3.reps[k].log.maliciousVotes, s.base.view, v.voter)
  {
    hide GoodSigned;
    hide Steps;
    hide Marked;
    hide Lawful;
    hide Unforged;
    hide FramesIn;
    hide Dispatch;
    hide SignedVote;
    hide Good;
    OldVote(cfg, s, v);
    s1 := InjectNow(cfg, s, VoteMsg(v));
    SignedTracked(cfg, s1);
    ids := CanDeliverVote(cfg, s1, i, v);
    hide Enabled;
    s2 := DeliverNow(cfg, s1, i, VoteMsg(v), ids);
    SignedGood(cfg, s1);
    StrayVoteReported(cfg, s1, i, v, ids);
    StepKeepsSigned(cfg, s1, Deliver(i, VoteMsg(v), ids), s2);
    s3 := EvidenceRecorded(cfg, s2, k, MaliciousVoteMsg(Accuse(i, v.voter, s.base.view), v));
  }

  lemma SignedGood(cfg: Config, s: System)
    requires GoodSigned(cfg, s)
    ensures Good(cfg, s)
  {}

  /** A forward with the forwarding signature in place of the mining proof. */
  function Reproposed(b: Base, p: Proposal): Proposal {
    p.(miner := p.forwardSender, miningProof := p.forwardSig, forwardSender := b.leader)
  }

  lemma ForwardReproposed(cfg: Config, s: System, x: Msg)
    requires x in Hear(s.base, s.pool).forwards && x.PropMsg? && x.p.forwardSig in s.signed
    ensures var m := PropMsg(Reproposed(s.base, x.p));
            Lawful(cfg, s, m) && Unforged(cfg.correct, s.signed, m) && FramesIn(s, m)
  {
    assert IsForward(s.base, x);
  }

  lemma StrayProposalReported(cfg: Config, s: System, i: nat, p: Proposal)
    requires Good(cfg, s) && i in cfg.correct && i != 0
    requires p.forwardSender == s.base.leader && p.miner != s.base.leader
             && SignedHeader(s.base.n, p.miner, p.block, p.miningProof)
    ensures i in s.reps
    ensures var x := MaliciousProposalMsg(Accuse(i, p.miner, s.base.view), p);
            Dispatch(s.reps[i], PropMsg(p), []).out == {x} && IsProposalEvidence(s.base, x)
  {
    hide Inv;
    hide History;
    NodeOf(cfg, s, i);
    CorrectIsNode(cfg, s, i);
  }

  /** A correct node's forward is sent on as a proposal of its own: any recipient but node 0 reports
      the forwarder, and who handles the report has it on record. */
  lemma FramedByForward(cfg: Config, s: System, x: Msg, i: nat, k: nat)
    returns (s1: System, s2: System, s3: System)
    requires GoodSigned(cfg, s) && x in Hear(s.base, s.pool).forwards && x.PropMsg? && x.p.forwardSig in s.signed
    requires i in cfg.correct && i in s.started && i != 0 && k in cfg.correct && k in s.started
    ensures var p := Reproposed(s.base, x.p);
            && FramesIn(s, PropMsg(p)) && Steps(cfg, s, Inject(PropMsg(p)), s1)
            && Steps(cfg, s1, Deliver(i, PropMsg(p), []), s2)
            && Steps(cfg, s2, Deliver(k, MaliciousProposalMsg(Accuse(i, p.miner, s.base.view), p), []), s3)
    ensures k in s3.reps && Marked(s3.reps[k].log.maliciousProposals, s.base.view, x.p.forwardSender)
  {
    hide GoodSigned;
    hide Steps;
    hide Marked;
    hide Lawful;
    hide Unforged;
    hide FramesIn;
    hide Dispatch;
    hide Good;
    assert IsForward(s.base, x);
    var p := Reproposed(s.base, x.p);
    ForwardReproposed(cfg, s, x);
    s1 := InjectNow(cfg, s, PropMsg(p));
    SignedTracked(cfg, s1);
    CanDeliver(cfg, s1, i, PropMsg(p));
    hide Enabled;
    s2 := DeliverNow(cfg, s1, i, PropMsg(p), []);
    SignedGood(cfg, s1);
    StrayProposalReported(cfg, s1, i, p);
    StepKeepsSigned(cfg, s1, Deliver(i, PropMsg(p), []), s2);
    s3 := EvidenceRecorded(cfg, s2, k, MaliciousProposalMsg(Accuse(i, p.miner, s.base.view), p));
  }
}
