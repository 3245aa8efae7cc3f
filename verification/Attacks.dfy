/** The injected misbehaviours are among the actions of the system: what an equivocating leader,
    a malicious proposer and a malicious voter send is lawful. */
module Attacks {
  import opened Messages
  import opened Replicas
  import opened Rounds
  import opened Runs
  import opened Safety
  import opened Accusations

  /** A faulty node may broadcast the message. */
  ghost predicate MaySay(cfg: Config, s: System, m: Msg) {
    Lawful(cfg, s, m) && Unforged(cfg.correct, s.signed, m)
  }

  /** Everything on its way in this view stems from these proposals. */
  ghost predicate StemsFrom(s: System, ps: set<Proposal>) {
    && (forall i :: i in s.raw ==> exists p :: p in ps && s.raw[i].block == p.block)
    && (forall m :: m in Hear(s.base, s.pool).forwards && m.PropMsg? ==> exists p :: p in ps && m.p.block == p.block)
  }

  /** The proposal of a faulty leader for the current view. */
  function LeaderProposal(s: System, cmds: seq<Command>, cert: Certificate, extra: string): Proposal {
    CandidateProposal(s.base.leader, s.base.leader, cmds, cert, s.base.view, extra)
  }

  lemma OneBlockPerHash(p: Proposal, q: Proposal, ps: set<Proposal>)
    requires (forall x, y :: x in ps && y in ps && HashOf(x) == HashOf(y) ==> x.block == y.block) && p in ps
    requires exists x :: x in ps && q.block == x.block
    ensures HashOf(q) == HashOf(p) ==> q.block == p.block
  {}

  lemma TwinsDiffer(s: System, cmds: seq<Command>, cert: Certificate)
    ensures var p, q := LeaderProposal(s, cmds, cert, "1"), LeaderProposal(s, cmds, cert, "2"); HashOf(p) != HashOf(q)
  {}

  /** An equivocating leader may send either of two blocks to any correct node that has nothing
      from it yet. */
  lemma EquivocationAllowed(cfg: Config, s: System, cmds: seq<Command>, cert: Certificate, i: nat)
    requires !CorrectLeader(cfg, s) && !s.withheld && i in cfg.correct && i !in s.raw && cert.hash == Parent(s.base)
    requires StemsFrom(s, {LeaderProposal(s, cmds, cert, "1"), LeaderProposal(s, cmds, cert, "2")})
    ensures LawfulRaw(cfg, s, i, LeaderProposal(s, cmds, cert, "1"))
    ensures LawfulRaw(cfg, s, i, LeaderProposal(s, cmds, cert, "2"))
  {
    var p, q := LeaderProposal(s, cmds, cert, "1"), LeaderProposal(s, cmds, cert, "2");
    TwinsDiffer(s, cmds, cert);
    forall j | j in s.raw
      ensures HashOf(s.raw[j]) == HashOf(p) ==> s.raw[j].block == p.block
      ensures HashOf(s.raw[j]) == HashOf(q) ==> s.raw[j].block == q.block
    {
      OneBlockPerHash(p, s.raw[j], {p, q});
      OneBlockPerHash(q, s.raw[j], {p, q});
    }
    forall m | m in Hear(s.base, s.pool).forwards && m.PropMsg?
      ensures HashOf(m.p) == HashOf(p) ==> m.p.block == p.block
      ensures HashOf(m.p) == HashOf(q) ==> m.p.block == q.block
    {
      OneBlockPerHash(p, m.p, {p, q});
      OneBlockPerHash(q, m.p, {p, q});
    }
  }

  /** A non-leader may propose a block of its own. */
  lemma MaliciousProposalAllowed(cfg: Config, s: System, j: nat, cmds: seq<Command>, cert: Certificate, height: nat)
    requires j !in cfg.correct && j != s.base.leader
    ensures MaySay(cfg, s, PropMsg(CandidateProposal(j, s.base.leader, cmds, cert, height, "")))
  {}

  /** A non-leader may vote for a block that does not exist. */
  lemma MaliciousVoteAllowed(cfg: Config, s: System, j: nat)
    requires j !in cfg.correct && j != s.base.leader
    ensures MaySay(cfg, s, VoteMsg(CastVote(j, Invalid, s.base.view, j)))
  {}

  /** A faulty node may also do what a correct one does: forward the block it was sent, and vote
      for what everybody has forwarded. */
  lemma FaultyMayForward(cfg: Config, s: System, j: nat, cmds: seq<Command>, cert: Certificate, extra: string)
    requires j !in cfg.correct && j != s.base.leader && !CorrectLeader(cfg, s) && !s.withheld
             && cert.hash == Parent(s.base)
    requires StemsFrom(s, {LeaderProposal(s, cmds, cert, "1"), LeaderProposal(s, cmds, cert, "2")})
    requires j !in Senders(Hear(s.base, s.pool).forwards) && (extra == "1" || extra == "2")
    ensures MaySay(cfg, s, PropMsg(Forwarded(j, LeaderProposal(s, cmds, cert, extra))))
  {
    var p, q := LeaderProposal(s, cmds, cert, "1"), LeaderProposal(s, cmds, cert, "2");
    var f := Forwarded(j, LeaderProposal(s, cmds, cert, extra));
    TwinsDiffer(s, cmds, cert);
    assert exists x :: x in {p, q} && f.block == x.block by {
      assert LeaderProposal(s, cmds, cert, extra) in {p, q};
    }
    forall i | i in s.raw
      ensures HashOf(s.raw[i]) == HashOf(f) ==> s.raw[i].block == f.block
    {
      OneBlockPerHash(p, s.raw[i], {p, q});
      OneBlockPerHash(q, s.raw[i], {p, q});
    }
    forall m | m in Hear(s.base, s.pool).forwards && m.PropMsg?
      ensures m.p.forwardSender != j && (HashOf(m.p) == HashOf(f) ==> m.p.block == f.block)
    {
      OneBlockPerHash(p, m.p, {p, q});
      OneBlockPerHash(q, m.p, {p, q});
    }
  }

  lemma LeaderBlockLawful(cfg: Config, s: System, i: nat, j: nat)
    requires RoundOk(SceneOf(cfg, s)) && RawOk(s.base, s.withheld, true, s.own, s.raw) && !s.withheld
    requires CorrectLeader(cfg, s) && i in s.raw
    requires j !in cfg.correct && j != s.base.leader && j !in Senders(Hear(s.base, s.pool).forwards)
    ensures Lawful(cfg, s, PropMsg(Forwarded(j, s.raw[i])))
  {
    hide AcceptableAt;
    hide FullyForwarded;
    var fs := Hear(s.base, s.pool).forwards;
    forall m | m in fs
      ensures m.PropMsg? && m.p.forwardSender != j && s.own == Some(m.p.block)
    {
      assert IsForward(s.base, m);
    }
  }

  /** The block of a correct leader, too, may be forwarded by a faulty node, once. */
  lemma FaultyMayForwardCorrect(cfg: Config, s: System, i: nat, j: nat)
    requires GoodSigned(cfg, s) && CorrectLeader(cfg, s) && i in s.raw
    requires j !in cfg.correct && j != s.base.leader && j !in Senders(Hear(s.base, s.pool).forwards)
    ensures MaySay(cfg, s, PropMsg(Forwarded(j, s.raw[i])))
  {
    hide Good;
    hide RoundOk;
    hide RawOk;
    hide Lawful;
    hide AllAccounted;
    hide PoolUnforged;
    ProposalFacts(cfg, s);
    LeaderBlockLawful(cfg, s, i, j);
  }

  lemma ProposalFacts(cfg: Config, s: System)
    requires Good(cfg, s) && CorrectLeader(cfg, s)
    ensures RoundOk(SceneOf(cfg, s)) && RawOk(s.base, s.withheld, true, s.own, s.raw) && !s.withheld
  {}

  lemma FaultyMayVote(cfg: Config, s: System, j: nat, h: Hash)
    requires j !in cfg.correct && FullyForwarded(s.base, Hear(s.base, s.pool).forwards, h)
    ensures MaySay(cfg, s, VoteMsg(CastVote(j, h, s.base.view, s.base.leader)))
  {}
}
