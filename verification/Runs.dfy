/** The whole system: the correct nodes, the messages broadcast in the current view, and
    the rest, whose messages are those the injected attacks make.
    Rounds are synchronous: a message of a view is handled while its recipient is in that
    view, between the start of a round and its timer. */
module Runs {
  import opened Messages
  import opened Weights
  import opened Tallies
  import opened Reputation
  import opened Replicas
  import opened Rounds
  import opened RoundEnds

  datatype Config = Config(n: nat, correct: set<nat>, f: real -> real)

  /** `raw` holds the leader's proposal as each correct node received it and `pending` the nodes
      that have yet to handle theirs; `pool` is what has been broadcast in this view and `seen`
      what each node has handled. `base`, `own` and `signed` only record history: the shared state
      the view began with, the block a correct leader has proposed, and all the signatures correct
      nodes have ever made. */
  datatype System = System(
    reps: map<nat, Replica>,
    started: set<nat>,
    raw: map<nat, Proposal>,
    pending: set<nat>,
    pool: set<Msg>,
    seen: map<nat, set<Msg>>,
    withheld: bool,
    base: Base,
    own: Option<Block>,
    signed: set<Signature>)

  // What one more message adds to what was heard

  ghost function Absorb(b: Base, h: Heard, m: Msg): Heard {
    match m
    case PropMsg(p) => HeardForward(b, h, m)
    case VoteMsg(v) => HeardVote(b, h, m)
    case EquivocationMsg(_, _, _) => HeardEquivocation(b, h, m)
    case MaliciousProposalMsg(_, _) => HeardProposer(b, h, m)
    case MaliciousVoteMsg(_, _) => HeardVoter(b, h, m)
  }

  lemma HearForwards(b: Base, s: set<Msg>, m: Msg)
    ensures Hear(b, s + {m}).forwards == Hear(b, s).forwards + (if IsForward(b, m) then {m} else {})
    ensures Hear(b, s + {m}).votes == Hear(b, s).votes + (if IsBallot(b, m) then {m} else {})
    ensures Hear(b, s + {m}).equivocation == (Hear(b, s).equivocation || IsEquivocation(b, m))
  {}

  lemma HearProposers(b: Base, s: set<Msg>, m: Msg)
    ensures Hear(b, s + {m}).maliciousProposers
         == Hear(b, s).maliciousProposers + (if IsProposalEvidence(b, m) then {m.e.miner} else {})
  {}

  lemma HearVoters(b: Base, s: set<Msg>, m: Msg)
    ensures Hear(b, s + {m}).maliciousVoters
         == Hear(b, s).maliciousVoters + (if IsVoteEvidence(b, m) then {m.ev.voter} else {})
  {}

  lemma HearMore(b: Base, s: set<Msg>, m: Msg)
    ensures Hear(b, s + {m}) == Absorb(b, Hear(b, s), m)
  {
    HearForwards(b, s, m);
    HearProposers(b, s, m);
    HearVoters(b, s, m);
  }

  lemma HearNothing(b: Base)
    ensures Hear(b, {}) == NOTHING
  {}

  // States

  ghost predicate CorrectLeader(cfg: Config, s: System) {
    s.base.leader in cfg.correct
  }

  ghost function SceneOf(cfg: Config, s: System): Scene {
    Scene(s.base, Hear(s.base, s.pool), s.withheld, CorrectLeader(cfg, s), s.own)
  }

  ghost function InitialBase(n: nat): Base {
    Base(n, 1, 0, map[], map[], map[0 := EmptyHash], EMPTY_TRANSCRIPT, map[1 := InitialTable(n)])
  }

  ghost function Silence(ids: set<nat>): map<nat, set<Msg>> {
    map i | i in ids :: {}
  }

  ghost function InitialReps(cfg: Config): map<nat, Replica> {
    map i | i in cfg.correct :: Initial(i, cfg.n)
  }

  ghost predicate Init(cfg: Config, s: System) {
    Whole(
      && cfg.n >= 1 && cfg.correct <= Nodes(cfg.n)
      && s == System(InitialReps(cfg), {}, map[], {}, {}, Silence(cfg.correct), s.withheld, InitialBase(cfg.n), None,
                     {})
      && (s.withheld ==> 0 !in cfg.correct))
  }

  // What may be said

  /** A forward of a block other than by a correct node's own hand is one the injected attacks
      produce: built like every proposal, one per node and view, and no two blocks under one hash. */
  ghost predicate FreeForward(cfg: Config, s: System, m: Msg)
    requires m.PropMsg?
  {
    var b, fs := s.base, Hear(s.base, s.pool).forwards;
    && (SignedHeader(b.n, b.leader, m.p.block, m.p.miningProof) ==> WellBuilt(b, m.p))
    && (IsForward(b, m) ==>
          && !s.withheld
          && (forall x :: x in fs && x.PropMsg? && x.p.forwardSender == m.p.forwardSender ==> x == m)
          && (forall x :: x in fs && x.PropMsg? && HashOf(x.p) == HashOf(m.p) ==> x.p.block == m.p.block)
          && (forall j :: j in s.raw && HashOf(s.raw[j]) == HashOf(m.p) ==> s.raw[j].block == m.p.block)
          && (m.p.forwardSender in cfg.correct ==>
                m.p.forwardSender in s.raw && m.p == Forwarded(m.p.forwardSender, s.raw[m.p.forwardSender])))
  }

  /** Nor is it in the name of a correct leader unless the leader did propose it. */
  ghost predicate LawfulForward(cfg: Config, s: System, m: Msg)
    requires m.PropMsg?
  {
    FreeForward(cfg, s, m) && (IsForward(s.base, m) && CorrectLeader(cfg, s) ==> s.own == Some(m.p.block))
  }

  /** The leader's own proposals do not travel through the pool. */
  ghost predicate LawfulProposal(b: Base, p: Proposal) {
    p.miner == b.leader ==> !SignedHeader(b.n, b.leader, p.block, p.miningProof)
  }

  /** Votes that name the leader are for a block that was fully forwarded, and nobody sends an
      unsigned one in a correct node's name. */
  ghost predicate LawfulVote(cfg: Config, s: System, m: Msg)
    requires m.VoteMsg?
  {
    && (IsBallot(s.base, m) ==> FullyForwarded(s.base, Hear(s.base, s.pool).forwards, m.v.hash))
    && (m.v.owner == s.base.leader && m.v.voter in cfg.correct ==> SignedVote(s.base.n, m.v))
  }

  /** Evidence has the form the sending functions give it: the accused is the author of what is
      shown. */
  predicate LawfulProposalEvidence(b: Base, m: Msg)
    requires m.MaliciousProposalMsg?
  {
    IsProposalEvidence(b, m) ==> m.accusation.target == m.e.miner
  }

  predicate LawfulVoteEvidence(b: Base, m: Msg)
    requires m.MaliciousVoteMsg?
  {
    IsVoteEvidence(b, m) ==> m.accusation.target == m.ev.voter
  }

  ghost predicate Lawful(cfg: Config, s: System, m: Msg) {
    Whole(
      match m
      case PropMsg(p) =>
        if p.forwardSender != s.base.leader then LawfulForward(cfg, s, m) else LawfulProposal(s.base, p)
      case VoteMsg(_) => LawfulVote(cfg, s, m)
      case EquivocationMsg(_, _, _) => IsEquivocation(s.base, m) ==> Conflict(Hear(s.base, s.pool).forwards)
      case MaliciousProposalMsg(_, _) => LawfulProposalEvidence(s.base, m)
      case MaliciousVoteMsg(_, _) => LawfulVoteEvidence(s.base, m))
  }

  /** The signatures a message carries, those inside a certificate aside. */
  function Signatures(m: Msg): set<Signature> {
    match m
    case PropMsg(p) => {p.miningProof, p.forwardSig}
    case VoteMsg(v) => {v.sig}
    case EquivocationMsg(a, e1, e2) => {a.sig, e1.miningProof, e1.forwardSig, e2.miningProof, e2.forwardSig}
    case MaliciousProposalMsg(a, e) => {a.sig, e.miningProof, e.forwardSig}
    case MaliciousVoteMsg(a, ev) => {a.sig, ev.sig}
  }

  /** A correct node's signature can be repeated, now or in a later view, but not made up. */
  ghost predicate Unforged(correct: set<nat>, signed: set<Signature>, m: Msg) {
    forall sig :: sig in Signatures(m) && sig.Signed? && sig.signer in correct ==> sig in signed
  }

  /** What a faulty leader may send a node: one well-built proposal, no two blocks under one hash. */
  ghost predicate LawfulRaw(cfg: Config, s: System, id: nat, p: Proposal) {
    && id in cfg.correct && id !in s.raw && !CorrectLeader(cfg, s) && !s.withheld
    && WellBuilt(s.base, p) && p.forwardSender == s.base.leader
    && (forall x :: x in Hear(s.base, s.pool).forwards && x.PropMsg? && HashOf(x.p) == HashOf(p) ==>
          x.p.block == p.block)
    && (forall j :: j in s.raw && HashOf(s.raw[j]) == HashOf(p) ==> s.raw[j].block == p.block)
  }

  // Actions

  datatype Action =
    | Begin(id: nat, cmds: Option<seq<Command>>)
    | TakeProposal(id: nat)
    | Deliver(id: nat, m: Msg, ids: seq<nat>)
    | Inject(m: Msg)
    | SendProposal(id: nat, p: Proposal)
    | Close(id: nat, withheld: bool)

  /** Everybody has started, everything sent has arrived. */
  ghost predicate Quiet(cfg: Config, s: System) {
    && s.started == cfg.correct && s.pending == {}
    && forall i :: i in s.seen ==> s.seen[i] == s.pool
  }

  ghost predicate WalksPoll(r: Replica, m: Msg, ids: seq<nat>) {
    m.VoteMsg? ==> IsOrdering(ids, Row(r.ballots, r.view)[m.v.voter := m.v].Keys)
  }

  ghost predicate Tracked(cfg: Config, s: System) {
    s.reps.Keys == cfg.correct && s.seen.Keys == cfg.correct && forall i :: i in s.reps ==> s.reps[i].n > 0
  }

  ghost predicate Enabled(cfg: Config, s: System, a: Action) {
    Whole(
      && Tracked(cfg, s)
      && match a
         case Begin(i, _) => i in cfg.correct && i !in s.started
         case TakeProposal(i) => i in cfg.correct && i in s.started && i in s.pending && i in s.raw
         case Deliver(i, m, ids) => i in cfg.correct && i in s.started && m in s.pool && WalksPoll(s.reps[i], m, ids)
         case Inject(m) => Lawful(cfg, s, m) && Unforged(cfg.correct, s.signed, m)
         case SendProposal(i, p) => LawfulRaw(cfg, s, i, p)
         case Close(i, withheld) =>
           i in cfg.correct && Quiet(cfg, s) && (withheld ==> Callback(cfg.f, s.reps[i]).leader !in cfg.correct))
  }

  ghost function Everyone(ids: set<nat>, p: Proposal): map<nat, Proposal> {
    map j | j in ids :: p
  }

  /** A round starts at a node; what a correct leader proposes goes to everybody else. */
  ghost function Begun(cfg: Config, s: System, i: nat, cmds: Option<seq<Command>>): System
    requires i in s.reps
  {
    var o := Start(s.reps[i], s.withheld, cmds);
    var s' := s.(reps := s.reps[i := o.next], started := s.started + {i});
    if o.out == {} then s'
    else
      var m :| m in o.out;
      if !m.PropMsg? then s'
      else s'.(raw := Everyone(cfg.correct - {i}, m.p), pending := cfg.correct - {i}, own := Some(m.p.block))
  }

  ghost function Delivered(s: System, i: nat, m: Msg, ids: seq<nat>): System
    requires i in s.reps && i in s.seen
  {
    var o := Dispatch(s.reps[i], m, ids);
    s.(reps := s.reps[i := o.next], seen := s.seen[i := s.seen[i] + {m}], pool := s.pool + o.out)
  }

  ghost function AfterTimers(cfg: Config, reps: map<nat, Replica>): (r: map<nat, Replica>)
    requires forall i :: i in reps ==> reps[i].n > 0
    ensures r.Keys == reps.Keys
  {
    map i | i in reps :: Callback(cfg.f, reps[i])
  }

  /** The timers fire. A round that got nowhere is run again in the same view. */
  ghost function Closed(cfg: Config, s: System, i: nat, withheld: bool): System
    requires i in s.reps && forall j :: j in s.reps ==> s.reps[j].n > 0
  {
    var reps := AfterTimers(cfg, s.reps);
    if reps[i].view == s.base.view then s.(reps := reps, started := {})
    else System(reps, {}, map[], {}, {}, Silence(cfg.correct), withheld, BaseOf(reps[i]), None, s.signed)
  }

  /** What an action does, but for the record of signatures. */
  ghost function Acted(cfg: Config, s: System, a: Action): System
    requires Enabled(cfg, s, a)
  {
    match a
    case Begin(i, cmds) => Begun(cfg, s, i, cmds)
    case TakeProposal(i) =>
      s.(pool := s.pool + Dispatch(s.reps[i], PropMsg(s.raw[i]), []).out, pending := s.pending - {i})
    case Deliver(i, m, ids) => Delivered(s, i, m, ids)
    case Inject(m) => s.(pool := s.pool + {m})
    case SendProposal(i, p) => s.(raw := s.raw[i := p], pending := s.pending + {i})
    case Close(i, withheld) => Closed(cfg, s, i, withheld)
  }

  /** The one signature a node makes for a message it sends. */
  function NewSignature(b: Base, m: Msg): Signature {
    match m
    case PropMsg(p) => if p.forwardSender == b.leader then p.miningProof else p.forwardSig
    case VoteMsg(v) => v.sig
    case EquivocationMsg(a, _, _) => a.sig
    case MaliciousProposalMsg(a, _) => a.sig
    case MaliciousVoteMsg(a, _) => a.sig
  }

  /** What the correct node that acts sends. */
  ghost function Sent(cfg: Config, s: System, a: Action): set<Msg>
    requires Enabled(cfg, s, a)
  {
    match a
    case Begin(i, cmds) => Start(s.reps[i], s.withheld, cmds).out
    case TakeProposal(i) => Dispatch(s.reps[i], PropMsg(s.raw[i]), []).out
    case Deliver(i, m, ids) => Dispatch(s.reps[i], m, ids).out
    case _ => {}
  }

  ghost function SignaturesMade(b: Base, out: set<Msg>): set<Signature> {
    set m | m in out :: NewSignature(b, m)
  }

  ghost function Apply(cfg: Config, s: System, a: Action): System
    requires Enabled(cfg, s, a)
  {
    Acted(cfg, s, a).(signed := s.signed + SignaturesMade(s.base, Sent(cfg, s, a)))
  }

  // The invariant

  ghost predicate Shape(cfg: Config, s: System) {
    Whole(
      && cfg.correct <= Nodes(cfg.n) && s.base.n == cfg.n
      && s.reps.Keys == cfg.correct && s.seen.Keys == cfg.correct
      && s.started <= cfg.correct && s.raw.Keys <= cfg.correct && s.pending <= s.raw.Keys
      && (s.withheld ==> !CorrectLeader(cfg, s))
      && (CorrectLeader(cfg, s) && s.own.Some? ==> s.raw.Keys == cfg.correct - {s.base.leader}))
  }

  /** What stays true of a message in the pool. */
  ghost predicate Standing(cfg: Config, b: Base, raw: map<nat, Proposal>, m: Msg) {
    match m
    case PropMsg(p) =>
      if p.forwardSender != b.leader then
        && (SignedHeader(b.n, b.leader, p.block, p.miningProof) ==> WellBuilt(b, p))
        && (IsForward(b, m) && p.forwardSender in cfg.correct ==>
              p.forwardSender in raw && p == Forwarded(p.forwardSender, raw[p.forwardSender]))
      else LawfulProposal(b, p)
    case VoteMsg(v) => v.owner == b.leader && v.voter in cfg.correct ==> SignedVote(b.n, v)
    case EquivocationMsg(_, _, _) => true
    case MaliciousProposalMsg(_, _) => LawfulProposalEvidence(b, m)
    case MaliciousVoteMsg(_, _) => LawfulVoteEvidence(b, m)
  }

  ghost predicate PoolOk(cfg: Config, b: Base, raw: map<nat, Proposal>, pool: set<Msg>) {
    forall m :: m in pool ==> Standing(cfg, b, raw, m)
  }

  ghost predicate RawOk(b: Base, withheld: bool, correctLeader: bool, own: Option<Block>, raw: map<nat, Proposal>) {
    Whole(
      && (withheld ==> raw == map[])
      && (correctLeader && own == None ==> raw == map[])
      && (forall i :: i in raw ==>
            && i != b.leader && WellBuilt(b, raw[i]) && raw[i].forwardSender == b.leader
            && (correctLeader ==> own == Some(raw[i].block) && AcceptableAt(b, raw[i])))
      && (forall i, j :: i in raw && j in raw && HashOf(raw[i]) == HashOf(raw[j]) ==> raw[i].block == raw[j].block))
  }

  /** No forward contradicts a proposal on its way. */
  ghost predicate RawFits(raw: map<nat, Proposal>, fs: set<Msg>) {
    forall i, x :: i in raw && x in fs && x.PropMsg? && HashOf(raw[i]) == HashOf(x.p) ==> raw[i].block == x.p.block
  }

  /** Everybody who has handled the leader's proposal has forwarded it. */
  ghost predicate RawDone(b: Base, raw: map<nat, Proposal>, pending: set<nat>, pool: set<Msg>) {
    forall i :: i in raw && i !in pending && AcceptableAt(b, raw[i]) ==> PropMsg(Forwarded(i, raw[i])) in pool
  }

  ghost predicate NodeOk(c: Scene, began: bool, id: nat, r: Replica, h: Heard) {
    Whole(
      && Mid(c, began, id, r, h) && Within(h, c.round)
      && (!began ==> c.base.view !in r.ledger.certs)
      && (Conflict(h.forwards) && id != c.base.leader ==> c.round.equivocation)
      && (Full(c.base.n, h.forwards) ==> id in Voters(c.round.votes)))
  }

  ghost predicate NodesOk(c: Scene, reps: map<nat, Replica>, started: set<nat>, seen: map<nat, set<Msg>>,
                          pool: set<Msg>) {
    forall i :: i in reps && i in seen ==>
      seen[i] <= pool && NodeOk(c, i in started, i, reps[i], Hear(c.base, seen[i]))
  }

  ghost predicate Inv(cfg: Config, s: System) {
    Whole(
      && Shape(cfg, s) && BaseOk(s.base)
      && RoundOk(SceneOf(cfg, s))
      && PoolOk(cfg, s.base, s.raw, s.pool)
      && RawOk(s.base, s.withheld, CorrectLeader(cfg, s), s.own, s.raw)
      && RawFits(s.raw, Hear(s.base, s.pool).forwards)
      && RawDone(s.base, s.raw, s.pending, s.pool)
      && NodesOk(SceneOf(cfg, s), s.reps, s.started, s.seen, s.pool))
  }

  ghost predicate CanStep(cfg: Config, s: System, a: Action) {
    Whole(Inv(cfg, s) && Enabled(cfg, s, a))
  }

  // What each action needs and does

  lemma NothingSigned(b: Base, signed: set<Signature>)
    ensures signed + SignaturesMade(b, {}) == signed
  {}

  lemma BeginEnabled(cfg: Config, s: System, i: nat, cmds: Option<seq<Command>>)
    requires Enabled(cfg, s, Begin(i, cmds))
    ensures i in cfg.correct && i !in s.started && i in s.reps
    ensures Acted(cfg, s, Begin(i, cmds)) == Begun(cfg, s, i, cmds)
    ensures Sent(cfg, s, Begin(i, cmds)) == Start(s.reps[i], s.withheld, cmds).out
  {}

  lemma InjectEnabled(cfg: Config, s: System, m: Msg)
    requires Enabled(cfg, s, Inject(m))
    ensures Lawful(cfg, s, m) && Unforged(cfg.correct, s.signed, m)
    ensures Acted(cfg, s, Inject(m)) == s.(pool := s.pool + {m}) == Apply(cfg, s, Inject(m))
  {
    NothingSigned(s.base, s.signed);
  }

  lemma SendEnabled(cfg: Config, s: System, i: nat, p: Proposal)
    requires Enabled(cfg, s, SendProposal(i, p))
    ensures LawfulRaw(cfg, s, i, p)
    ensures Acted(cfg, s, SendProposal(i, p)) == s.(raw := s.raw[i := p], pending := s.pending + {i})
    ensures Apply(cfg, s, SendProposal(i, p)) == Acted(cfg, s, SendProposal(i, p))
  {
    NothingSigned(s.base, s.signed);
  }

  lemma DeliverEnabled(cfg: Config, s: System, i: nat, m: Msg, ids: seq<nat>)
    requires Enabled(cfg, s, Deliver(i, m, ids))
    ensures i in cfg.correct && i in s.started && i in s.reps && i in s.seen && m in s.pool
    ensures Acted(cfg, s, Deliver(i, m, ids)) == Delivered(s, i, m, ids)
    ensures Sent(cfg, s, Deliver(i, m, ids)) == Dispatch(s.reps[i], m, ids).out
  {}

  lemma CloseEnabled(cfg: Config, s: System, i: nat, withheld: bool)
    requires Enabled(cfg, s, Close(i, withheld))
    ensures Tracked(cfg, s) && Quiet(cfg, s) && i in cfg.correct && i in s.reps
    ensures withheld ==> Callback(cfg.f, s.reps[i]).leader !in cfg.correct
    ensures Acted(cfg, s, Close(i, withheld)) == Closed(cfg, s, i, withheld) == Apply(cfg, s, Close(i, withheld))
  {
    NothingSigned(s.base, s.signed);
  }

  // One more message in the pool

  lemma SendersStayOne(fs: set<Msg>, m: Msg)
    requires OnePerSender(fs) && HashFixesBlock(fs) && m.PropMsg?
    requires forall x :: x in fs && x.PropMsg? && x.p.forwardSender == m.p.forwardSender ==> x == m
    requires forall x :: x in fs && x.PropMsg? && HashOf(x.p) == HashOf(m.p) ==> x.p.block == m.p.block
    ensures OnePerSender(fs + {m}) && HashFixesBlock(fs + {m})
  {}

  lemma ConflictStaysWith(fs: set<Msg>, m: Msg)
    ensures Conflict(fs) ==> Conflict(fs + {m})
  {}

  lemma RoundAddsForward(c: Scene, m: Msg)
    requires RoundOk(c) && IsForward(c.base, m) && WellBuilt(c.base, m.p) && !c.withheld
    requires forall x :: x in c.round.forwards && x.PropMsg? && x.p.forwardSender == m.p.forwardSender ==> x == m
    requires forall x :: x in c.round.forwards && x.PropMsg? && HashOf(x.p) == HashOf(m.p) ==> x.p.block == m.p.block
    requires c.correctLeader ==> c.own == Some(m.p.block)
    ensures RoundOk(c.(round := c.round.(forwards := c.round.forwards + {m})))
  {
    var fs := c.round.forwards + {m};
    SendersStayOne(c.round.forwards, m);
    ConflictStaysWith(c.round.forwards, m);
    forall x | x in c.round.votes
      ensures IsBallot(c.base, x) && FullyForwarded(c.base, fs, x.v.hash)
    {
      FullyForwardedGrows(c.base, c.round.forwards, fs, x.v.hash);
    }
  }

  lemma RoundAddsVote(c: Scene, m: Msg)
    requires RoundOk(c) && IsBallot(c.base, m) && FullyForwarded(c.base, c.round.forwards, m.v.hash)
    ensures RoundOk(c.(round := c.round.(votes := c.round.votes + {m})))
  {}

  lemma RoundAlarms(c: Scene, alarm: bool)
    requires RoundOk(c) && (alarm ==> Conflict(c.round.forwards))
    ensures RoundOk(c.(round := c.round.(equivocation := alarm)))
  {}

  ghost predicate Says(cfg: Config, s: System, m: Msg) {
    Whole(RoundOk(SceneOf(cfg, s)) && Lawful(cfg, s, m))
  }

  lemma RoundAddsProp(cfg: Config, s: System, m: Msg)
    requires Says(cfg, s, m)
    ensures m.PropMsg? ==> RoundOk(SceneOf(cfg, s.(pool := s.pool + {m})))
  {
    if m.PropMsg? {
      var c := SceneOf(cfg, s);
      HearMore(s.base, s.pool, m);
      if IsForward(s.base, m) {
        RoundAddsForward(c, m);
      }
    }
  }

  lemma RoundAddsBallot(cfg: Config, s: System, m: Msg)
    requires Says(cfg, s, m)
    ensures m.VoteMsg? ==> RoundOk(SceneOf(cfg, s.(pool := s.pool + {m})))
  {
    if m.VoteMsg? {
      var c := SceneOf(cfg, s);
      HearMore(s.base, s.pool, m);
      if IsBallot(s.base, m) {
        RoundAddsVote(c, m);
      }
    }
  }

  lemma ConflictAlarm(cfg: Config, s: System, m: Msg)
    requires Says(cfg, s, m) && m.EquivocationMsg?
    ensures HeardEquivocation(s.base, Hear(s.base, s.pool), m).equivocation ==> Conflict(Hear(s.base, s.pool).forwards)
  {}

  lemma RoundAddsAlarm(cfg: Config, s: System, m: Msg)
    requires Says(cfg, s, m)
    ensures m.EquivocationMsg? ==> RoundOk(SceneOf(cfg, s.(pool := s.pool + {m})))
  {
    hide RoundOk;
    if m.EquivocationMsg? {
      var c := SceneOf(cfg, s);
      HearMore(s.base, s.pool, m);
      ConflictAlarm(cfg, s, m);
      RoundAlarms(c, HeardEquivocation(s.base, c.round, m).equivocation);
    }
  }

  lemma RoundSame(c: Scene, d: Scene)
    requires d == c.(round := c.round.(maliciousProposers := d.round.maliciousProposers,
                                       maliciousVoters := d.round.maliciousVoters))
    ensures RoundOk(c) ==> RoundOk(d)
  {}

  lemma RoundAddsOffender(cfg: Config, s: System, m: Msg)
    requires Says(cfg, s, m)
    ensures m.MaliciousProposalMsg? || m.MaliciousVoteMsg? ==> RoundOk(SceneOf(cfg, s.(pool := s.pool + {m})))
  {
    hide RoundOk;
    if m.MaliciousProposalMsg? || m.MaliciousVoteMsg? {
      HearForwards(s.base, s.pool, m);
      RoundSame(SceneOf(cfg, s), SceneOf(cfg, s.(pool := s.pool + {m})));
    }
  }

  lemma RoundAdds(cfg: Config, s: System, m: Msg)
    requires Says(cfg, s, m)
    ensures RoundOk(SceneOf(cfg, s.(pool := s.pool + {m})))
  {
    RoundAddsProp(cfg, s, m);
    RoundAddsBallot(cfg, s, m);
    RoundAddsAlarm(cfg, s, m);
    RoundAddsOffender(cfg, s, m);
  }

  lemma HeardWithin(b: Base, s: set<Msg>, t: set<Msg>)
    requires s <= t
    ensures Within(Hear(b, s), Hear(b, t))
  {}

  lemma WithinMore(h: Heard, k: Heard, l: Heard)
    requires Within(h, k) && Within(k, l)
    ensures Within(h, l)
  {}

  lemma VotersGrow(vs: set<Msg>, ws: set<Msg>)
    requires vs <= ws
    ensures Voters(vs) <= Voters(ws)
  {}

  lemma NodeGrows(c: Scene, round: Heard, began: bool, id: nat, r: Replica, h: Heard)
    requires NodeOk(c, began, id, r, h) && Within(c.round, round)
    ensures NodeOk(c.(round := round), began, id, r, h)
  {
    RoundGrows(c, round, began, id, r, h);
    WithinMore(h, c.round, round);
    VotersGrow(c.round.votes, round.votes);
  }

  lemma NodesGrow(c: Scene, s: System, pool: set<Msg>)
    requires NodesOk(c, s.reps, s.started, s.seen, s.pool) && s.pool <= pool && c.round == Hear(c.base, s.pool)
    ensures NodesOk(c.(round := Hear(c.base, pool)), s.reps, s.started, s.seen, pool)
  {
    var round := Hear(c.base, pool);
    HeardWithin(c.base, s.pool, pool);
    forall i | i in s.reps && i in s.seen
      ensures NodeOk(c.(round := round), i in s.started, i, s.reps[i], Hear(c.base, s.seen[i]))
    {
      NodeGrows(c, round, i in s.started, i, s.reps[i], Hear(c.base, s.seen[i]));
    }
  }

  lemma PoolAdds(cfg: Config, s: System, m: Msg)
    requires PoolOk(cfg, s.base, s.raw, s.pool) && Lawful(cfg, s, m)
    ensures PoolOk(cfg, s.base, s.raw, s.pool + {m})
  {}

  lemma RawStillFits(cfg: Config, s: System, m: Msg)
    requires RawFits(s.raw, Hear(s.base, s.pool).forwards) && Lawful(cfg, s, m)
    ensures RawFits(s.raw, Hear(s.base, s.pool + {m}).forwards)
  {}

  lemma RawStillDone(b: Base, raw: map<nat, Proposal>, pending: set<nat>, pool: set<Msg>, m: Msg)
    requires RawDone(b, raw, pending, pool)
    ensures RawDone(b, raw, pending, pool + {m})
  {}

  lemma PoolGrows(cfg: Config, s: System, m: Msg)
    requires Inv(cfg, s) && Lawful(cfg, s, m)
    ensures Inv(cfg, s.(pool := s.pool + {m}))
  {
    RoundAdds(cfg, s, m);
    PoolAdds(cfg, s, m);
    RawStillFits(cfg, s, m);
    RawStillDone(s.base, s.raw, s.pending, s.pool, m);
    NodesGrow(SceneOf(cfg, s), s, s.pool + {m});
  }

  lemma InjectKeeps(cfg: Config, s: System, m: Msg)
    requires CanStep(cfg, s, Inject(m))
    ensures Inv(cfg, Acted(cfg, s, Inject(m)))
  {
    InjectEnabled(cfg, s, m);
    PoolGrows(cfg, s, m);
  }

  // A node handles a message

  lemma NodeHandles(cfg: Config, s: System, i: nat)
    requires Inv(cfg, s) && i in cfg.correct
    ensures i in s.reps && i in s.seen && s.seen[i] <= s.pool
    ensures NodeOk(SceneOf(cfg, s), i in s.started, i, s.reps[i], Hear(s.base, s.seen[i]))
    ensures Handles(SceneOf(cfg, s), i in s.started, i, s.reps[i], Hear(s.base, s.seen[i]))
  {
    BaseIsReady(s.base);
    assert i in Nodes(cfg.n);
  }

  /** A node's answer to a message: it stays in step, sends at most one lawful message, and
      speaks up when it has just seen two blocks or the last forward of one. */
  ghost predicate Answers(cfg: Config, s: System, id: nat, h: Heard, h': Heard, o: Outcome) {
    Whole(
      && Mid(SceneOf(cfg, s), true, id, o.next, h')
      && (forall x, y :: x in o.out && y in o.out ==> x == y)
      && (forall x :: x in o.out ==> Lawful(cfg, s, x))
      && (Conflict(h'.forwards) && id != s.base.leader ==>
            Conflict(h.forwards) || exists x :: x in o.out && IsEquivocation(s.base, x))
      && (Full(s.base.n, h'.forwards) ==>
            Full(s.base.n, h.forwards) || exists x :: x in o.out && IsBallot(s.base, x) && x.v.voter == id))
  }

  lemma QuietAnswer(cfg: Config, s: System, id: nat, o: Outcome, h: Heard, h': Heard)
    requires Mid(SceneOf(cfg, s), true, id, o.next, h') && o.out == {} && h'.forwards == h.forwards
    ensures Answers(cfg, s, id, h, h', o)
  {}

  lemma AccusingAnswer(cfg: Config, s: System, id: nat, r: Replica, h: Heard, x: Msg)
    requires Mid(SceneOf(cfg, s), true, id, r, h) && Lawful(cfg, s, x)
    ensures Answers(cfg, s, id, h, h, Outcome(r, {x}))
  {}

  lemma SoleReply(r: Replica, p: Proposal)
    ensures forall x, y :: x in HandleForward(r, p).out && y in HandleForward(r, p).out ==> x == y
  {
    hide ValidForward;
    hide ForwardsComplete;
    hide AddBlock;
    hide MarkSole;
    hide Mark;
  }

  lemma ConflictIn(fs: set<Msg>, gs: set<Msg>)
    requires Conflict(fs) && fs <= gs
    ensures Conflict(gs)
  {}

  lemma ReplyLawful(cfg: Config, s: System, id: nat, fs: set<Msg>, x: Msg)
    requires ForwardReply(s.base, id, fs, x) && fs <= Hear(s.base, s.pool).forwards && id < s.base.n
    ensures Lawful(cfg, s, x)
    ensures x.VoteMsg? ==> IsBallot(s.base, x) && x.v.voter == id
    ensures x.EquivocationMsg? ==> IsEquivocation(s.base, x)
  {
    var gs := Hear(s.base, s.pool).forwards;
    if x.VoteMsg? {
      FullyForwardedGrows(s.base, fs, gs, x.v.hash);
    } else {
      ConflictIn(fs, gs);
    }
  }

  lemma ReplyAnswers(cfg: Config, s: System, id: nat, h: Heard, h': Heard, o: Outcome)
    requires ForwardHandled(SceneOf(cfg, s), true, id, h, h', o)
    requires h'.forwards <= Hear(s.base, s.pool).forwards && id < s.base.n
    requires forall x, y :: x in o.out && y in o.out ==> x == y
    ensures Answers(cfg, s, id, h, h', o)
  {
    forall x | x in o.out
      ensures Lawful(cfg, s, x)
      ensures x.VoteMsg? ==> IsBallot(s.base, x) && x.v.voter == id
      ensures x.EquivocationMsg? ==> IsEquivocation(s.base, x)
    {
      ReplyLawful(cfg, s, id, h'.forwards, x);
    }
  }

  lemma ForwardsMatch(c: Scene, began: bool, id: nat, r: Replica, h: Heard, p: Proposal)
    requires Handles(c, began, id, r, h)
    requires SignedHeader(c.base.n, c.base.leader, p.block, p.miningProof) ==> WellBuilt(c.base, p)
    ensures Acceptable(r, p) <==> AcceptableAt(c.base, p)
    ensures p.forwardSender != c.base.leader ==> (ValidForward(r, p) <==> IsForward(c.base, PropMsg(p)))
  {
    var first := Lookup(r.proposalByView, c.base.view);
    AcceptableSame(c.base, id, r, (began && c.withheld) || h.equivocation,
                   Accepted(c.base.n, id == c.base.leader, first, h.forwards), p);
  }

  /** A message of the pool arrives at a correct node in a running round. */
  ghost predicate Arrives(cfg: Config, s: System, id: nat, r: Replica, h: Heard, m: Msg, ids: seq<nat>) {
    Whole(
      && Handles(SceneOf(cfg, s), true, id, r, h) && id in cfg.correct
      && m in s.pool && Standing(cfg, s.base, s.raw, m) && WalksPoll(r, m, ids))
  }

  lemma PooledForward(b: Base, pool: set<Msg>, fs: set<Msg>, m: Msg)
    requires m in pool && fs <= Hear(b, pool).forwards
    ensures IsForward(b, m) ==> m in Hear(b, pool).forwards && fs + {m} <= Hear(b, pool).forwards
  {}

  lemma AnswersForward(cfg: Config, s: System, id: nat, r: Replica, h: Heard, m: Msg, ids: seq<nat>)
    requires Arrives(cfg, s, id, r, h, m, ids) && m.PropMsg? && m.p.forwardSender != s.base.leader
    ensures Answers(cfg, s, id, h, Absorb(s.base, h, m), Dispatch(r, m, ids))
  {
    var c := SceneOf(cfg, s);
    ForwardsMatch(c, true, id, r, h, m.p);
    PooledForward(s.base, s.pool, h.forwards, m);
    ForwardStep(c, true, id, r, h, m);
    SoleReply(r, m.p);
    ReplyAnswers(cfg, s, id, h, HeardForward(s.base, h, m), HandleForward(r, m.p));
  }

  lemma ProposalAnswer(cfg: Config, s: System, id: nat, r: Replica, h: Heard, m: Msg, ids: seq<nat>)
    requires Arrives(cfg, s, id, r, h, m, ids) && m.PropMsg? && m.p.forwardSender == s.base.leader
    ensures Mid(SceneOf(cfg, s), true, id, r, h) && Absorb(s.base, h, m) == h
    ensures var x := MaliciousProposalMsg(Accuse(r.id, m.p.miner, r.view), m.p);
            && (Dispatch(r, m, ids) == Outcome(r, {}) || Dispatch(r, m, ids) == Outcome(r, {x}))
            && (Dispatch(r, m, ids) == Outcome(r, {x}) ==> Lawful(cfg, s, x))
  {}

  lemma AnswersProposal(cfg: Config, s: System, id: nat, r: Replica, h: Heard, m: Msg, ids: seq<nat>)
    requires Arrives(cfg, s, id, r, h, m, ids) && m.PropMsg? && m.p.forwardSender == s.base.leader
    ensures Answers(cfg, s, id, h, Absorb(s.base, h, m), Dispatch(r, m, ids))
  {
    ProposalAnswer(cfg, s, id, r, h, m, ids);
    var x := MaliciousProposalMsg(Accuse(r.id, m.p.miner, r.view), m.p);
    if Dispatch(r, m, ids) == Outcome(r, {x}) {
      AccusingAnswer(cfg, s, id, r, h, x);
    } else {
      QuietAnswer(cfg, s, id, Dispatch(r, m, ids), h, h);
    }
  }

  lemma BallotCounts(cfg: Config, s: System, id: nat, r: Replica, h: Heard, m: Msg, ids: seq<nat>)
    requires Arrives(cfg, s, id, r, h, m, ids) && m.VoteMsg? && m.v.owner == s.base.leader
    ensures Mid(SceneOf(cfg, s), true, id, HandleVote(r, m.v, ids).next, HeardVote(s.base, h, m))
    ensures HandleVote(r, m.v, ids).out == {}
  {
    VoteStep(SceneOf(cfg, s), true, id, r, h, m, ids);
  }

  lemma QuietVote(cfg: Config, s: System, id: nat, h: Heard, m: Msg, o: Outcome)
    requires m.VoteMsg? && Mid(SceneOf(cfg, s), true, id, o.next, HeardVote(s.base, h, m)) && o.out == {}
    ensures Answers(cfg, s, id, h, Absorb(s.base, h, m), o)
  {
    QuietAnswer(cfg, s, id, o, h, HeardVote(s.base, h, m));
  }

  lemma AnswersBallot(cfg: Config, s: System, id: nat, r: Replica, h: Heard, m: Msg, ids: seq<nat>)
    requires Arrives(cfg, s, id, r, h, m, ids) && m.VoteMsg? && m.v.owner == s.base.leader
    ensures Answers(cfg, s, id, h, Absorb(s.base, h, m), Dispatch(r, m, ids))
  {
    BallotCounts(cfg, s, id, r, h, m, ids);
    QuietVote(cfg, s, id, h, m, HandleVote(r, m.v, ids));
  }

  lemma AnswersStrayVote(cfg: Config, s: System, id: nat, r: Replica, h: Heard, m: Msg, ids: seq<nat>)
    requires Arrives(cfg, s, id, r, h, m, ids) && m.VoteMsg? && m.v.owner != s.base.leader
    ensures Answers(cfg, s, id, h, Absorb(s.base, h, m), Dispatch(r, m, ids))
  {
    AccusingAnswer(cfg, s, id, r, h, MaliciousVoteMsg(Accuse(r.id, m.v.voter, r.view), m.v));
  }

  lemma AnswersAlarm(cfg: Config, s: System, id: nat, r: Replica, h: Heard, m: Msg, ids: seq<nat>)
    requires Arrives(cfg, s, id, r, h, m, ids) && m.EquivocationMsg?
    ensures Answers(cfg, s, id, h, Absorb(s.base, h, m), Dispatch(r, m, ids))
  {
    EquivocationStep(SceneOf(cfg, s), true, id, r, h, m);
    QuietAnswer(cfg, s, id, Outcome(HandleEquivocation(r, m.accusation, m.e1, m.e2), {}), h,
                HeardEquivocation(s.base, h, m));
  }

  lemma AnswersProposer(cfg: Config, s: System, id: nat, r: Replica, h: Heard, m: Msg, ids: seq<nat>)
    requires Arrives(cfg, s, id, r, h, m, ids) && m.MaliciousProposalMsg?
    ensures Answers(cfg, s, id, h, Absorb(s.base, h, m), Dispatch(r, m, ids))
  {
    hide Handles;
    hide Midway;
    ProposalEvidenceStep(SceneOf(cfg, s), true, id, r, h, m);
    QuietAnswer(cfg, s, id, Outcome(HandleProposalEvidence(r, m.accusation, m.e), {}), h, HeardProposer(s.base, h, m));
  }

  lemma AnswersVoter(cfg: Config, s: System, id: nat, r: Replica, h: Heard, m: Msg, ids: seq<nat>)
    requires Arrives(cfg, s, id, r, h, m, ids) && m.MaliciousVoteMsg?
    ensures Answers(cfg, s, id, h, Absorb(s.base, h, m), Dispatch(r, m, ids))
  {
    hide Handles;
    hide Midway;
    VoteEvidenceStep(SceneOf(cfg, s), true, id, r, h, m);
    QuietAnswer(cfg, s, id, Outcome(HandleVoteEvidence(r, m.accusation, m.ev), {}), h, HeardVoter(s.base, h, m));
  }

  lemma NodeAnswers(cfg: Config, s: System, id: nat, r: Replica, h: Heard, m: Msg, ids: seq<nat>)
    requires Arrives(cfg, s, id, r, h, m, ids)
    ensures Answers(cfg, s, id, h, Absorb(s.base, h, m), Dispatch(r, m, ids))
  {
    match m
    case PropMsg(p) =>
      if p.forwardSender != s.base.leader {
        AnswersForward(cfg, s, id, r, h, m, ids);
      } else {
        AnswersProposal(cfg, s, id, r, h, m, ids);
      }
    case VoteMsg(v) =>
      if v.owner == s.base.leader {
        AnswersBallot(cfg, s, id, r, h, m, ids);
      } else {
        AnswersStrayVote(cfg, s, id, r, h, m, ids);
      }
    case EquivocationMsg(_, _, _) => AnswersAlarm(cfg, s, id, r, h, m, ids);
    case MaliciousProposalMsg(_, _) => AnswersProposer(cfg, s, id, r, h, m, ids);
    case MaliciousVoteMsg(_, _) => AnswersVoter(cfg, s, id, r, h, m, ids);
  }

  lemma PoolSame(s: System, out: set<Msg>)
    requires out == {}
    ensures s.(pool := s.pool + out) == s
  {}

  lemma PoolGrowsBy(cfg: Config, s: System, out: set<Msg>)
    requires Inv(cfg, s) && (forall x, y :: x in out && y in out ==> x == y)
    requires forall x :: x in out ==> Lawful(cfg, s, x)
    ensures Inv(cfg, s.(pool := s.pool + out))
  {
    if x :| x in out {
      assert out == {x};
      PoolGrows(cfg, s, x);
    } else {
      PoolSame(s, out);
    }
  }

  lemma AnswerHeard(b: Base, pool: set<Msg>, x: Msg)
    requires x in pool
    ensures IsEquivocation(b, x) ==> Hear(b, pool).equivocation
    ensures IsBallot(b, x) ==> x.v.voter in Voters(Hear(b, pool).votes)
  {}

  lemma AnswerRecorded(cfg: Config, s: System, id: nat, began: bool, r: Replica, h: Heard, h': Heard, o: Outcome)
    requires NodeOk(SceneOf(cfg, s), began, id, r, h) && Answers(cfg, s, id, h, h', o)
    requires Within(h', Hear(s.base, s.pool + o.out))
    ensures NodeOk(SceneOf(cfg, s.(pool := s.pool + o.out)), true, id, o.next, h')
  {
    var c, pool := SceneOf(cfg, s), s.pool + o.out;
    var round := Hear(s.base, pool);
    HeardWithin(s.base, s.pool, pool);
    RoundGrows(c, round, true, id, o.next, h');
    VotersGrow(c.round.votes, round.votes);
    forall x | x in o.out
      ensures IsEquivocation(s.base, x) ==> round.equivocation
      ensures IsBallot(s.base, x) ==> x.v.voter in Voters(round.votes)
    {
      AnswerHeard(s.base, pool, x);
    }
  }

  ghost function WithNode(s: System, i: nat, r: Replica, seen: set<Msg>): System {
    s.(reps := s.reps[i := r], seen := s.seen[i := seen], started := s.started + {i})
  }

  lemma NodesUpdated(c: Scene, s: System, i: nat, r: Replica, seen: set<Msg>)
    requires NodesOk(c, s.reps, s.started, s.seen, s.pool) && seen <= s.pool
             && NodeOk(c, true, i, r, Hear(c.base, seen))
    ensures var s' := WithNode(s, i, r, seen); NodesOk(c, s'.reps, s'.started, s'.seen, s'.pool)
  {
    var s' := WithNode(s, i, r, seen);
    forall j | j in s'.reps && j in s'.seen
      ensures s'.seen[j] <= s.pool && NodeOk(c, j in s'.started, j, s'.reps[j], Hear(c.base, s'.seen[j]))
    {
      if j != i {
        assert s'.reps[j] == s.reps[j] && s'.seen[j] == s.seen[j];
      }
    }
  }

  lemma ShapeUpdated(cfg: Config, s: System, i: nat, r: Replica, seen: set<Msg>)
    requires Shape(cfg, s) && i in cfg.correct
    ensures Shape(cfg, WithNode(s, i, r, seen))
  {}

  lemma NodeUpdated(cfg: Config, s: System, i: nat, r: Replica, seen: set<Msg>)
    requires Inv(cfg, s) && i in cfg.correct && seen <= s.pool
    requires NodeOk(SceneOf(cfg, s), true, i, r, Hear(s.base, seen))
    ensures Inv(cfg, WithNode(s, i, r, seen))
  {
    ShapeUpdated(cfg, s, i, r, seen);
    NodesUpdated(SceneOf(cfg, s), s, i, r, seen);
  }

  lemma SeenWithin(b: Base, seen: set<Msg>, pool: set<Msg>, out: set<Msg>, m: Msg)
    requires seen <= pool && m in pool
    ensures seen + {m} <= pool + out && Within(Hear(b, seen + {m}), Hear(b, pool + out))
  {}

  lemma AlreadyStarted(s: System, i: nat, r: Replica, seen: set<Msg>)
    requires i in s.started
    ensures WithNode(s, i, r, seen) == s.(reps := s.reps[i := r], seen := s.seen[i := seen])
  {}

  lemma DeliverAnswered(cfg: Config, s: System, i: nat, m: Msg, ids: seq<nat>)
    requires Inv(cfg, s) && Enabled(cfg, s, Deliver(i, m, ids))
    ensures var h := Hear(s.base, s.seen[i]);
            && NodeOk(SceneOf(cfg, s), true, i, s.reps[i], h) && s.seen[i] <= s.pool
            && Answers(cfg, s, i, h, Hear(s.base, s.seen[i] + {m}), Dispatch(s.reps[i], m, ids))
  {
    NodeHandles(cfg, s, i);
    HearMore(s.base, s.seen[i], m);
    NodeAnswers(cfg, s, i, s.reps[i], Hear(s.base, s.seen[i]), m, ids);
  }

  lemma NodeTakes(cfg: Config, s: System, i: nat, r: Replica, seen: set<Msg>)
    requires Inv(cfg, s) && i in cfg.correct && i in s.started && seen <= s.pool
    requires NodeOk(SceneOf(cfg, s), true, i, r, Hear(s.base, seen))
    ensures Inv(cfg, s.(reps := s.reps[i := r], seen := s.seen[i := seen]))
  {
    NodeUpdated(cfg, s, i, r, seen);
    AlreadyStarted(s, i, r, seen);
  }

  /** A node that has handled the messages `seen` takes its new state and its answer is broadcast. */
  lemma AnswerKeeps(cfg: Config, s: System, i: nat, h: Heard, seen: set<Msg>, o: Outcome)
    requires Inv(cfg, s) && i in cfg.correct && i in s.started && i in s.reps && seen <= s.pool + o.out
    requires NodeOk(SceneOf(cfg, s), true, i, s.reps[i], h) && Answers(cfg, s, i, h, Hear(s.base, seen), o)
    requires Within(Hear(s.base, seen), Hear(s.base, s.pool + o.out))
    ensures Inv(cfg, s.(reps := s.reps[i := o.next], seen := s.seen[i := seen], pool := s.pool + o.out))
  {
    hide NodeOk;
    hide Within;
    hide Lawful;
    PoolGrowsBy(cfg, s, o.out);
    AnswerRecorded(cfg, s, i, true, s.reps[i], h, Hear(s.base, seen), o);
    NodeTakes(cfg, s.(pool := s.pool + o.out), i, o.next, seen);
  }

  lemma DeliverKeeps(cfg: Config, s: System, i: nat, m: Msg, ids: seq<nat>)
    requires CanStep(cfg, s, Deliver(i, m, ids))
    ensures Inv(cfg, Acted(cfg, s, Deliver(i, m, ids)))
  {
    DeliverEnabled(cfg, s, i, m, ids);
    DeliverAnswered(cfg, s, i, m, ids);
    var o := Dispatch(s.reps[i], m, ids);
    SeenWithin(s.base, s.seen[i], s.pool, o.out, m);
    AnswerKeeps(cfg, s, i, Hear(s.base, s.seen[i]), s.seen[i] + {m}, o);
  }

  // The leader's proposal

  lemma OwnForwardOnce(cfg: Config, b: Base, raw: map<nat, Proposal>, pool: set<Msg>, i: nat, x: Msg)
    requires PoolOk(cfg, b, raw, pool) && i in cfg.correct
    requires x in Hear(b, pool).forwards && x.PropMsg? && x.p.forwardSender == i
    ensures i in raw && x == PropMsg(Forwarded(i, raw[i]))
  {}

  lemma OwnForwardLawful(cfg: Config, s: System, i: nat)
    requires PoolOk(cfg, s.base, s.raw, s.pool) && RawOk(s.base, s.withheld, CorrectLeader(cfg, s), s.own, s.raw)
    requires RawFits(s.raw, Hear(s.base, s.pool).forwards) && i in s.raw && i in cfg.correct
    ensures Lawful(cfg, s, PropMsg(Forwarded(i, s.raw[i])))
  {
    var p := Forwarded(i, s.raw[i]);
    forall x | x in Hear(s.base, s.pool).forwards && x.PropMsg? && x.p.forwardSender == i
      ensures x == PropMsg(p)
    {
      OwnForwardOnce(cfg, s.base, s.raw, s.pool, i, x);
    }
  }

  lemma TakesProposal(cfg: Config, s: System, i: nat)
    requires Inv(cfg, s) && Enabled(cfg, s, TakeProposal(i))
    ensures var p, out := s.raw[i], Dispatch(s.reps[i], PropMsg(s.raw[i]), []).out;
            && (out == {} || out == {PropMsg(Forwarded(i, p))})
            && (AcceptableAt(s.base, p) <==> PropMsg(Forwarded(i, p)) in out)
  {
    hide RoundOk;
    hide PoolOk;
    hide RawFits;
    hide RawDone;
    hide NodesOk;
    NodeHandles(cfg, s, i);
    var c, r, p := SceneOf(cfg, s), s.reps[i], s.raw[i];
    ForwardsMatch(c, true, i, r, Hear(s.base, s.seen[i]), p);
    assert r.leader == s.base.leader && r.id == i;
    assert p.forwardSender == r.leader && p.miner == r.leader;
  }

  lemma RawTaken(b: Base, raw: map<nat, Proposal>, pending: set<nat>, pool: set<Msg>, i: nat)
    requires RawDone(b, raw, pending, pool) && i in raw
    requires AcceptableAt(b, raw[i]) ==> PropMsg(Forwarded(i, raw[i])) in pool
    ensures RawDone(b, raw, pending - {i}, pool)
  {}

  lemma ShapeTaken(cfg: Config, s: System, i: nat)
    requires Shape(cfg, s)
    ensures Shape(cfg, s.(pending := s.pending - {i}))
  {}

  lemma LessPending(cfg: Config, s: System, i: nat)
    requires Inv(cfg, s) && RawDone(s.base, s.raw, s.pending - {i}, s.pool)
    ensures Inv(cfg, s.(pending := s.pending - {i}))
  {
    ShapeTaken(cfg, s, i);
  }

  lemma ForwardGrows(cfg: Config, s: System, i: nat, out: set<Msg>)
    requires Inv(cfg, s) && i in s.raw && (out == {} || out == {PropMsg(Forwarded(i, s.raw[i]))})
    ensures Inv(cfg, s.(pool := s.pool + out))
  {
    if out != {} {
      OwnForwardLawful(cfg, s, i);
      PoolGrows(cfg, s, PropMsg(Forwarded(i, s.raw[i])));
    } else {
      PoolSame(s, out);
    }
  }

  lemma TakeProposalKeeps(cfg: Config, s: System, i: nat)
    requires CanStep(cfg, s, TakeProposal(i))
    ensures Inv(cfg, Acted(cfg, s, TakeProposal(i)))
  {
    hide RoundOk;
    hide PoolOk;
    hide RawFits;
    hide NodesOk;
    hide RawOk;
    TakesProposal(cfg, s, i);
    var out := Dispatch(s.reps[i], PropMsg(s.raw[i]), []).out;
    ForwardGrows(cfg, s, i, out);
    var s' := s.(pool := s.pool + out);
    RawTaken(s.base, s.raw, s.pending, s'.pool, i);
    LessPending(cfg, s', i);
  }

  lemma PoolIgnoresRaw(cfg: Config, b: Base, raw: map<nat, Proposal>, pool: set<Msg>, i: nat, p: Proposal)
    requires PoolOk(cfg, b, raw, pool) && i !in raw
    ensures PoolOk(cfg, b, raw[i := p], pool)
  {}

  lemma RawSent(cfg: Config, s: System, i: nat, p: Proposal)
    requires RawOk(s.base, s.withheld, CorrectLeader(cfg, s), s.own, s.raw) && LawfulRaw(cfg, s, i, p)
    ensures RawOk(s.base, s.withheld, CorrectLeader(cfg, s), s.own, s.raw[i := p])
  {}

  lemma RawSentFits(cfg: Config, s: System, i: nat, p: Proposal)
    requires RawFits(s.raw, Hear(s.base, s.pool).forwards) && LawfulRaw(cfg, s, i, p)
    ensures RawFits(s.raw[i := p], Hear(s.base, s.pool).forwards)
  {}

  lemma RawSentPends(b: Base, raw: map<nat, Proposal>, pending: set<nat>, pool: set<Msg>, i: nat, p: Proposal)
    requires RawDone(b, raw, pending, pool)
    ensures RawDone(b, raw[i := p], pending + {i}, pool)
  {}

  lemma ShapeSent(cfg: Config, s: System, i: nat, p: Proposal)
    requires Shape(cfg, s) && i in cfg.correct && !CorrectLeader(cfg, s)
    ensures Shape(cfg, s.(raw := s.raw[i := p], pending := s.pending + {i}))
  {}

  lemma ProposalSent(cfg: Config, s: System, i: nat, p: Proposal)
    requires Inv(cfg, s) && LawfulRaw(cfg, s, i, p)
    ensures Inv(cfg, s.(raw := s.raw[i := p], pending := s.pending + {i}))
  {
    ShapeSent(cfg, s, i, p);
    PoolIgnoresRaw(cfg, s.base, s.raw, s.pool, i, p);
    RawSent(cfg, s, i, p);
    RawSentFits(cfg, s, i, p);
    RawSentPends(s.base, s.raw, s.pending, s.pool, i, p);
  }

  lemma SendProposalKeeps(cfg: Config, s: System, i: nat, p: Proposal)
    requires CanStep(cfg, s, SendProposal(i, p))
    ensures Inv(cfg, Acted(cfg, s, SendProposal(i, p)))
  {
    SendEnabled(cfg, s, i, p);
    ProposalSent(cfg, s, i, p);
  }

  // A round starts

  lemma NodeStarts(c: Scene, id: nat, r: Replica, r': Replica, h: Heard)
    requires NodeOk(c, false, id, r, h) && Mid(c, true, id, r', h)
    ensures NodeOk(c, true, id, r', h)
  {}

  lemma StartsQuietly(c: Scene, id: nat, r: Replica, h: Heard, cmds: Option<seq<Command>>)
    requires Handles(c, false, id, r, h)
    requires c.withheld || id != c.base.leader || r.ledger.head !in r.ledger.certs || cmds.None?
    ensures Mid(c, true, id, Start(r, c.withheld, cmds).next, h) && Start(r, c.withheld, cmds).out == {}
  {
    if c.withheld {
      StartsWithheld(c, id, r, h, cmds);
    } else if id != c.base.leader {
      StartsFollowing(c, id, r, h, cmds);
    } else {
      LeaderRests(c, id, r, h, cmds);
    }
  }

  lemma SameSeen(s: System, i: nat, r: Replica)
    requires i in s.seen
    ensures WithNode(s, i, r, s.seen[i]) == s.(reps := s.reps[i := r], started := s.started + {i})
  {}

  lemma BeginsQuietly(cfg: Config, s: System, i: nat, cmds: Option<seq<Command>>)
    requires Inv(cfg, s) && i in cfg.correct && i in s.reps && i !in s.started
    requires s.withheld || i != s.base.leader || s.reps[i].ledger.head !in s.reps[i].ledger.certs || cmds.None?
    ensures Inv(cfg, Begun(cfg, s, i, cmds))
  {
    NodeHandles(cfg, s, i);
    var c, r, h := SceneOf(cfg, s), s.reps[i], Hear(s.base, s.seen[i]);
    StartsQuietly(c, i, r, h, cmds);
    var r' := Start(r, s.withheld, cmds).next;
    NodeStarts(c, i, r, r', h);
    NodeUpdated(cfg, s, i, r', s.seen[i]);
    SameSeen(s, i, r');
  }

  lemma OthersUnmoved(c: Scene, own: Option<Block>, began: bool, id: nat, r: Replica, h: Heard)
    requires id != c.base.leader && NodeOk(c, began, id, r, h)
    ensures NodeOk(c.(own := own), began, id, r, h)
  {}

  lemma NodesPropose(c: Scene, own: Option<Block>, s: System, i: nat, r: Replica)
    requires NodesOk(c, s.reps, s.started, s.seen, s.pool) && i == c.base.leader && i in s.seen && s.seen[i] <= s.pool
    requires NodeOk(c.(own := own), true, i, r, Hear(c.base, s.seen[i]))
    ensures NodesOk(c.(own := own), s.reps[i := r], s.started + {i}, s.seen, s.pool)
  {
    var reps, started := s.reps[i := r], s.started + {i};
    forall j | j in reps && j in s.seen
      ensures s.seen[j] <= s.pool && NodeOk(c.(own := own), j in started, j, reps[j], Hear(c.base, s.seen[j]))
    {
      if j != i {
        OthersUnmoved(c, own, j in s.started, j, s.reps[j], Hear(c.base, s.seen[j]));
        assert reps[j] == s.reps[j] && (j in started <==> j in s.started);
      }
    }
  }

  lemma PoolBeforeProposal(cfg: Config, b: Base, raw: map<nat, Proposal>, raw': map<nat, Proposal>, pool: set<Msg>)
    requires PoolOk(cfg, b, raw, pool) && Hear(b, pool).forwards == {}
    ensures PoolOk(cfg, b, raw', pool)
  {
    forall m | m in pool
      ensures Standing(cfg, b, raw', m)
    {
      assert Standing(cfg, b, raw, m);
      assert m !in Hear(b, pool).forwards;
    }
  }

  lemma RawBroadcast(b: Base, ids: set<nat>, p: Proposal, pool: set<Msg>)
    requires WellBuilt(b, p) && AcceptableAt(b, p) && p.forwardSender == b.leader && b.leader !in ids
    ensures RawOk(b, false, true, Some(p.block), Everyone(ids, p))
    ensures RawFits(Everyone(ids, p), {}) && RawDone(b, Everyone(ids, p), ids, pool)
  {}

  ghost function Proposed(cfg: Config, s: System, i: nat, r: Replica, p: Proposal): System {
    s.(reps := s.reps[i := r], started := s.started + {i}, raw := Everyone(cfg.correct - {i}, p),
       pending := cfg.correct - {i}, own := Some(p.block))
  }

  lemma ShapeProposed(cfg: Config, s: System, i: nat, r: Replica, p: Proposal)
    requires Shape(cfg, s) && i in cfg.correct && i == s.base.leader
    ensures Shape(cfg, Proposed(cfg, s, i, r, p))
  {}

  lemma InvProposed(cfg: Config, s: System, i: nat, r: Replica, p: Proposal)
    requires Inv(cfg, s) && i in cfg.correct && i == s.base.leader && i in s.seen && s.seen[i] <= s.pool && !s.withheld
    requires WellBuilt(s.base, p) && AcceptableAt(s.base, p) && p.forwardSender == s.base.leader
    requires Hear(s.base, s.pool).forwards == {}
    requires RoundOk(SceneOf(cfg, s).(own := Some(p.block)))
    requires NodeOk(SceneOf(cfg, s).(own := Some(p.block)), true, i, r, Hear(s.base, s.seen[i]))
    ensures Inv(cfg, Proposed(cfg, s, i, r, p))
  {
    ShapeProposed(cfg, s, i, r, p);
    PoolBeforeProposal(cfg, s.base, s.raw, Everyone(cfg.correct - {i}, p), s.pool);
    RawBroadcast(s.base, cfg.correct - {i}, p, s.pool);
    NodesPropose(SceneOf(cfg, s), Some(p.block), s, i, r);
  }

  lemma BegunProposing(cfg: Config, s: System, i: nat, cmds: Option<seq<Command>>, r: Replica, p: Proposal)
    requires i in s.reps && Start(s.reps[i], s.withheld, cmds) == Outcome(r, {PropMsg(p)})
    ensures Begun(cfg, s, i, cmds) == Proposed(cfg, s, i, r, p)
  {}

  lemma LeaderNode(c: Scene, own: Option<Block>, id: nat, r: Replica, r': Replica, h: Heard)
    requires NodeOk(c, false, id, r, h) && Mid(c.(own := own), true, id, r', h)
    ensures NodeOk(c.(own := own), true, id, r', h)
  {}

  lemma BeginsProposing(cfg: Config, s: System, i: nat, cmds: seq<Command>)
    requires Inv(cfg, s) && i in cfg.correct && i in s.reps && i !in s.started
    requires !s.withheld && i == s.base.leader && s.reps[i].ledger.head in s.reps[i].ledger.certs
    ensures Inv(cfg, Begun(cfg, s, i, Some(cmds)))
  {
    NodeHandles(cfg, s, i);
    var c, r, h := SceneOf(cfg, s), s.reps[i], Hear(s.base, s.seen[i]);
    var p := CandidateProposal(i, c.base.leader, cmds, r.ledger.certs[r.ledger.head], r.ledger.head + 1, "");
    LeaderProposes(c, i, r, h, cmds, p);
    LeaderNode(c, Some(p.block), i, r, Proposing(r, p), h);
    InvProposed(cfg, s, i, Proposing(r, p), p);
    BegunProposing(cfg, s, i, Some(cmds), Proposing(r, p), p);
  }

  lemma BeginKeeps(cfg: Config, s: System, i: nat, cmds: Option<seq<Command>>)
    requires CanStep(cfg, s, Begin(i, cmds))
    ensures Inv(cfg, Acted(cfg, s, Begin(i, cmds)))
  {
    hide NodeOk;
    if s.withheld || i != s.base.leader || s.reps[i].ledger.head !in s.reps[i].ledger.certs || cmds.None? {
      BeginsQuietly(cfg, s, i, cmds);
    } else {
      BeginsProposing(cfg, s, i, cmds.value);
    }
  }

  // A round ends

  lemma NoConflictByCorrect(c: Scene)
    requires RoundOk(c) && c.correctLeader
    ensures !Conflict(c.round.forwards)
  {}

  ghost predicate Ends(cfg: Config, s: System) {
    Whole(Inv(cfg, s) && Tracked(cfg, s) && Quiet(cfg, s))
  }

  lemma NodeSettled(cfg: Config, s: System, i: nat)
    requires Ends(cfg, s) && i in cfg.correct
    ensures i in s.reps && Settled(SceneOf(cfg, s), i, s.reps[i])
  {
    NodeHandles(cfg, s, i);
    assert s.seen[i] == s.pool;
    var c := SceneOf(cfg, s);
    if c.correctLeader {
      NoConflictByCorrect(c);
    }
  }

  lemma FreshNode(b: Base, withheld: bool, correctLeader: bool, id: nat, r: Replica)
    requires BaseOk(b) && Entered(b, id, r)
    ensures NodeOk(Scene(b, NOTHING, withheld, correctLeader, None), false, id, r, NOTHING)
  {
    FreshMid(b, withheld, correctLeader, id, r);
    NothingHeard(None, true);
  }

  lemma FreshRound(b: Base, withheld: bool, correctLeader: bool)
    requires withheld ==> !correctLeader
    ensures RoundOk(Scene(b, NOTHING, withheld, correctLeader, None))
    ensures RawOk(b, withheld, correctLeader, None, map[]) && RawFits(map[], {}) && RawDone(b, map[], {}, {})
  {}

  ghost predicate AllEntered(b: Base, reps: map<nat, Replica>) {
    forall i :: i in reps ==> Entered(b, i, reps[i])
  }

  ghost function Fresh(cfg: Config, reps: map<nat, Replica>, withheld: bool, b: Base, signed: set<Signature>): System {
    System(reps, {}, map[], {}, {}, Silence(cfg.correct), withheld, b, None, signed)
  }

  lemma FreshNodes(cfg: Config, reps: map<nat, Replica>, withheld: bool, b: Base)
    requires BaseOk(b) && AllEntered(b, reps)
    ensures NodesOk(Scene(b, NOTHING, withheld, b.leader in cfg.correct, None), reps, {}, Silence(cfg.correct), {})
  {
    var c := Scene(b, NOTHING, withheld, b.leader in cfg.correct, None);
    HearNothing(b);
    forall i | i in reps && i in Silence(cfg.correct)
      ensures NodeOk(c, false, i, reps[i], Hear(b, Silence(cfg.correct)[i]))
    {
      FreshNode(b, withheld, c.correctLeader, i, reps[i]);
    }
  }

  lemma FreshShape(cfg: Config, reps: map<nat, Replica>, withheld: bool, b: Base, signed: set<Signature>)
    requires cfg.correct <= Nodes(cfg.n) && b.n == cfg.n && reps.Keys == cfg.correct
    requires withheld ==> b.leader !in cfg.correct
    ensures Shape(cfg, Fresh(cfg, reps, withheld, b, signed))
  {}

  lemma FreshScene(cfg: Config, reps: map<nat, Replica>, withheld: bool, b: Base, signed: set<Signature>)
    ensures SceneOf(cfg, Fresh(cfg, reps, withheld, b, signed))
         == Scene(b, NOTHING, withheld, b.leader in cfg.correct, None)
  {}

  lemma EmptyPool(cfg: Config, b: Base)
    ensures PoolOk(cfg, b, map[], {}) && Hear(b, {}).forwards == {}
  {}

  lemma InvParts(cfg: Config, s: System, c: Scene)
    requires Shape(cfg, s) && BaseOk(s.base) && c == SceneOf(cfg, s) && RoundOk(c)
    requires PoolOk(cfg, s.base, s.raw, s.pool)
    requires RawOk(s.base, s.withheld, CorrectLeader(cfg, s), s.own, s.raw)
    requires RawFits(s.raw, Hear(s.base, s.pool).forwards) && RawDone(s.base, s.raw, s.pending, s.pool)
    requires NodesOk(c, s.reps, s.started, s.seen, s.pool)
    ensures Inv(cfg, s)
  {}

  lemma FreshInv(cfg: Config, reps: map<nat, Replica>, withheld: bool, b: Base, signed: set<Signature>)
    requires cfg.correct <= Nodes(cfg.n) && b.n == cfg.n && reps.Keys == cfg.correct
    requires BaseOk(b) && AllEntered(b, reps) && (withheld ==> b.leader !in cfg.correct)
    ensures Inv(cfg, Fresh(cfg, reps, withheld, b, signed))
  {
    FreshShape(cfg, reps, withheld, b, signed);
    FreshScene(cfg, reps, withheld, b, signed);
    EmptyPool(cfg, b);
    FreshRound(b, withheld, b.leader in cfg.correct);
    FreshNodes(cfg, reps, withheld, b);
    InvParts(cfg, Fresh(cfg, reps, withheld, b, signed), Scene(b, NOTHING, withheld, b.leader in cfg.correct, None));
  }

  lemma NodeAdvances(cfg: Config, s: System, i: nat)
    requires Ends(cfg, s) && i in cfg.correct && Commits(SceneOf(cfg, s))
    ensures i in s.reps && s.reps[i].n > 0
    ensures var next := NextBase(cfg.f, SceneOf(cfg, s));
            Entered(next, i, Callback(cfg.f, s.reps[i])) && BaseOf(Callback(cfg.f, s.reps[i])) == next
  {
    NodeSettled(cfg, s, i);
    EntersNext(cfg.f, SceneOf(cfg, s), i, s.reps[i]);
  }

  lemma AllAdvance(cfg: Config, s: System)
    requires Ends(cfg, s) && Commits(SceneOf(cfg, s))
    ensures AllEntered(NextBase(cfg.f, SceneOf(cfg, s)), AfterTimers(cfg, s.reps))
  {
    forall i | i in s.reps
      ensures Entered(NextBase(cfg.f, SceneOf(cfg, s)), i, Callback(cfg.f, s.reps[i]))
    {
      NodeAdvances(cfg, s, i);
    }
  }

  lemma NextBaseOk(cfg: Config, s: System)
    requires Inv(cfg, s)
    ensures s.base.n > 0
    ensures var next := NextBase(cfg.f, SceneOf(cfg, s));
            BaseOk(next) && next.n == cfg.n && next.view == s.base.view + 1
  {
    BaseStaysOk(cfg.f, SceneOf(cfg, s));
  }

  lemma BaseHolds(cfg: Config, s: System)
    requires Inv(cfg, s)
    ensures BaseOk(s.base) && s.base.n == cfg.n && s.base.n > 0 && RoundOk(SceneOf(cfg, s))
  {}

  lemma ClosesFresh(cfg: Config, s: System, i: nat, withheld: bool)
    requires Inv(cfg, s) && Enabled(cfg, s, Close(i, withheld)) && Commits(SceneOf(cfg, s))
    ensures s.base.n > 0
    ensures Closed(cfg, s, i, withheld)
         == Fresh(cfg, AfterTimers(cfg, s.reps), withheld, NextBase(cfg.f, SceneOf(cfg, s)), s.signed)
    ensures withheld ==> NextBase(cfg.f, SceneOf(cfg, s)).leader !in cfg.correct
  {
    hide Inv;
    hide Enabled;
    hide Entered;
    hide Commits;
    hide Callback;
    hide NextLog;
    hide NextReputation;
    hide RoundBlock;
    BaseHolds(cfg, s);
    CloseEnabled(cfg, s, i, withheld);
    NodeAdvances(cfg, s, i);
  }

  lemma Restarts(cfg: Config, s: System, withheld: bool)
    requires Ends(cfg, s) && Commits(SceneOf(cfg, s)) && s.base.n > 0
    requires withheld ==> NextBase(cfg.f, SceneOf(cfg, s)).leader !in cfg.correct
    ensures Inv(cfg, Fresh(cfg, AfterTimers(cfg, s.reps), withheld, NextBase(cfg.f, SceneOf(cfg, s)), s.signed))
  {
    AllAdvance(cfg, s);
    NextBaseOk(cfg, s);
    FreshInv(cfg, AfterTimers(cfg, s.reps), withheld, NextBase(cfg.f, SceneOf(cfg, s)), s.signed);
  }

  lemma CloseCommits(cfg: Config, s: System, i: nat, withheld: bool)
    requires Inv(cfg, s) && Enabled(cfg, s, Close(i, withheld)) && Commits(SceneOf(cfg, s))
    ensures Inv(cfg, Closed(cfg, s, i, withheld))
  {
    ClosesFresh(cfg, s, i, withheld);
    Restarts(cfg, s, withheld);
  }

  lemma NodeStalls(cfg: Config, s: System, i: nat)
    requires Ends(cfg, s) && i in cfg.correct && !Commits(SceneOf(cfg, s))
    ensures i in s.reps && i in s.seen && s.reps[i].n > 0 && Callback(cfg.f, s.reps[i]).view == s.base.view
    ensures s.seen[i] == s.pool
    ensures NodeOk(SceneOf(cfg, s), false, i, Callback(cfg.f, s.reps[i]), Hear(s.base, s.seen[i]))
  {
    NodeSettled(cfg, s, i);
    RoundStalls(cfg.f, SceneOf(cfg, s), i, s.reps[i]);
  }

  lemma AllStall(cfg: Config, s: System)
    requires Ends(cfg, s) && !Commits(SceneOf(cfg, s))
    ensures NodesOk(SceneOf(cfg, s), AfterTimers(cfg, s.reps), {}, s.seen, s.pool)
  {
    var reps, c := AfterTimers(cfg, s.reps), SceneOf(cfg, s);
    forall i | i in reps && i in s.seen
      ensures s.seen[i] <= s.pool && NodeOk(c, i in {}, i, reps[i], Hear(c.base, s.seen[i]))
    {
      NodeStalls(cfg, s, i);
    }
  }

  lemma ShapeStalled(cfg: Config, s: System, reps: map<nat, Replica>)
    requires Shape(cfg, s) && reps.Keys == s.reps.Keys
    ensures Shape(cfg, s.(reps := reps, started := {}))
  {}

  lemma StalledInv(cfg: Config, s: System, reps: map<nat, Replica>)
    requires Inv(cfg, s) && reps.Keys == s.reps.Keys && NodesOk(SceneOf(cfg, s), reps, {}, s.seen, s.pool)
    ensures Inv(cfg, s.(reps := reps, started := {}))
  {
    ShapeStalled(cfg, s, reps);
  }

  lemma CloseStalls(cfg: Config, s: System, i: nat, withheld: bool)
    requires Inv(cfg, s) && Enabled(cfg, s, Close(i, withheld)) && !Commits(SceneOf(cfg, s))
    ensures Inv(cfg, Closed(cfg, s, i, withheld))
  {
    hide Inv;
    hide Enabled;
    hide Commits;
    hide NodeOk;
    hide NodesOk;
    CloseEnabled(cfg, s, i, withheld);
    NodeStalls(cfg, s, i);
    AllStall(cfg, s);
    StalledInv(cfg, s, AfterTimers(cfg, s.reps));
  }

  lemma CloseKeeps(cfg: Config, s: System, i: nat, withheld: bool)
    requires CanStep(cfg, s, Close(i, withheld))
    ensures Inv(cfg, Acted(cfg, s, Close(i, withheld)))
  {
    if Commits(SceneOf(cfg, s)) {
      CloseCommits(cfg, s, i, withheld);
    } else {
      CloseStalls(cfg, s, i, withheld);
    }
  }

  // Runs

  lemma StartStepKeeps(cfg: Config, s: System, a: Action)
    requires CanStep(cfg, s, a)
    ensures a.Begin? || a.TakeProposal? ==> Inv(cfg, Acted(cfg, s, a))
  {
    if a.Begin? {
      BeginKeeps(cfg, s, a.id, a.cmds);
    } else if a.TakeProposal? {
      TakeProposalKeeps(cfg, s, a.id);
    }
  }

  lemma MessageStepKeeps(cfg: Config, s: System, a: Action)
    requires CanStep(cfg, s, a)
    ensures a.Deliver? || a.Inject? ==> Inv(cfg, Acted(cfg, s, a))
  {
    hide Inv;
    hide Enabled;
    if a.Deliver? {
      DeliverKeeps(cfg, s, a.id, a.m, a.ids);
    } else if a.Inject? {
      InjectKeeps(cfg, s, a.m);
    }
  }

  lemma OtherStepKeeps(cfg: Config, s: System, a: Action)
    requires CanStep(cfg, s, a)
    ensures a.SendProposal? || a.Close? ==> Inv(cfg, Acted(cfg, s, a))
  {
    hide Inv;
    hide Enabled;
    if a.SendProposal? {
      SendProposalKeeps(cfg, s, a.id, a.p);
    } else if a.Close? {
      CloseKeeps(cfg, s, a.id, a.withheld);
    }
  }

  lemma ActionKeepsInv(cfg: Config, s: System, a: Action)
    requires CanStep(cfg, s, a)
    ensures Inv(cfg, Acted(cfg, s, a))
  {
    StartStepKeeps(cfg, s, a);
    MessageStepKeeps(cfg, s, a);
    OtherStepKeeps(cfg, s, a);
  }

  lemma InvIgnoresSigned(cfg: Config, s: System, signed: set<Signature>)
    requires Inv(cfg, s)
    ensures Inv(cfg, s.(signed := signed))
  {}

  lemma StepKeepsInv(cfg: Config, s: System, a: Action)
    requires CanStep(cfg, s, a)
    ensures Inv(cfg, Apply(cfg, s, a))
  {
    ActionKeepsInv(cfg, s, a);
    InvIgnoresSigned(cfg, Acted(cfg, s, a), s.signed + SignaturesMade(s.base, Sent(cfg, s, a)));
  }

  // The first state

  lemma InitialBaseOk(n: nat)
    requires n >= 1
    ensures BaseOk(InitialBase(n))
  {}

  lemma InitialEntered(id: nat, n: nat)
    ensures Entered(InitialBase(n), id, Initial(id, n))
  {}

  lemma InitKeeps(cfg: Config, s: System)
    requires Init(cfg, s)
    ensures Inv(cfg, s)
  {
    hide BaseOk;
    hide Inv;
    InitialBaseOk(cfg.n);
    forall i | i in cfg.correct
      ensures Entered(InitialBase(cfg.n), i, Initial(i, cfg.n))
    {
      InitialEntered(i, cfg.n);
    }
    FreshInv(cfg, InitialReps(cfg), s.withheld, InitialBase(cfg.n), {});
  }
}
