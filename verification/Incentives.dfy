/** What behaviour earns and costs, exactly: a vote or a committed proposal counts one, a withheld or
    equivocated view takes back ten proposals, a malicious proposal two and a malicious vote two
    votes; and over whole runs a correct node's reputation is given by what it did. */
module Incentives {
  import opened Messages
  import opened Weights
  import opened Tallies
  import opened Reputation
  import opened Replicas
  import opened Rounds
  import opened RoundEnds
  import opened Runs
  import opened Safety
  import opened Accusations
  import opened Agreement
  import opened Progress

  // One node's score

  /** Some more views are recorded for a node. */
  ghost predicate Gains(a: Transcript, b: Transcript, id: nat, proposals: nat, votes: nat, withheld: nat,
                        equivocations: nat, maliciousProposals: nat, maliciousVotes: nat)
  {
    && Count(b.proposals, id) == Count(a.proposals, id) + proposals
    && Count(b.votes, id) == Count(a.votes, id) + votes
    && Count(b.withheld, id) == Count(a.withheld, id) + withheld
    && Count(b.equivocations, id) == Count(a.equivocations, id) + equivocations
    && Count(b.maliciousProposals, id) == Count(a.maliciousProposals, id) + maliciousProposals
    && Count(b.maliciousVotes, id) == Count(a.maliciousVotes, id) + maliciousVotes
  }

  /** The penalties fit into 64 bits. */
  ghost predicate NoWrap(log: Transcript, id: nat) {
    && 10 * Count(log.withheld, id) + 10 * Count(log.equivocations, id) + 2 * Count(log.maliciousProposals, id)
       < 0x1_0000_0000_0000_0000
    && 2 * Count(log.maliciousVotes, id) < 0x1_0000_0000_0000_0000
  }

  /** What is left of some credits after a penalty. */
  function Excess(credit: nat, penalty: nat): nat {
    if credit < penalty then 0 else credit - penalty
  }

  lemma Small(x: nat)
    requires x < 0x1_0000_0000_0000_0000
    ensures x % U64_SIZE == x
  {}

  lemma VotePart(log: Transcript, id: nat)
    requires NoWrap(log, id)
    ensures VoteScore(log, id) == Excess(Count(log.votes, id), 2 * Count(log.maliciousVotes, id)) as real
  {
    hide Count;
    Small(2 * Count(log.maliciousVotes, id));
  }

  lemma ProposalPart(log: Transcript, id: nat)
    requires NoWrap(log, id)
    ensures ProposalScore(log, id)
         == Excess(Count(log.proposals, id), 10 * Count(log.withheld, id) + 10 * Count(log.equivocations, id)
                                             + 2 * Count(log.maliciousProposals, id)) as real
  {
    hide Count;
    Small(10 * Count(log.withheld, id) + 10 * Count(log.equivocations, id) + 2 * Count(log.maliciousProposals, id));
  }

  lemma Parts(a: Transcript, b: Transcript, id: nat)
    requires NoWrap(a, id) && NoWrap(b, id)
    ensures VoteScore(a, id) == Excess(Count(a.votes, id), 2 * Count(a.maliciousVotes, id)) as real
    ensures VoteScore(b, id) == Excess(Count(b.votes, id), 2 * Count(b.maliciousVotes, id)) as real
    ensures ProposalScore(a, id)
         == Excess(Count(a.proposals, id), 10 * Count(a.withheld, id) + 10 * Count(a.equivocations, id)
                                           + 2 * Count(a.maliciousProposals, id)) as real
    ensures ProposalScore(b, id)
         == Excess(Count(b.proposals, id), 10 * Count(b.withheld, id) + 10 * Count(b.equivocations, id)
                                           + 2 * Count(b.maliciousProposals, id)) as real
  {
    VotePart(a, id);
    VotePart(b, id);
    ProposalPart(a, id);
    ProposalPart(b, id);
  }

  lemma SumDecides(f: real -> real, a: Transcript, b: Transcript, id: nat)
    requires VoteScore(a, id) + ProposalScore(a, id) == VoteScore(b, id) + ProposalScore(b, id)
    ensures Score(f, a, id) == Score(f, b, id)
  {
    hide VoteScore;
    hide ProposalScore;
  }

  lemma Unsquashed(log: Transcript, id: nat)
    ensures Score(x => x, log, id) == 0.0001 * (VoteScore(log, id) + ProposalScore(log, id)) + 0.000001
  {
    assert VoteScore(log, id) >= 0.0 && ProposalScore(log, id) >= 0.0;
    hide VoteScore;
    hide ProposalScore;
  }

  /** Before the squashing function is applied, one more vote is worth 0.0001. */
  lemma VoteEarns(a: Transcript, b: Transcript, id: nat)
    requires Gains(a, b, id, 0, 1, 0, 0, 0, 0) && Count(a.maliciousVotes, id) == 0
    ensures Score(x => x, b, id) == Score(x => x, a, id) + 0.0001
  {
    hide Count;
  }

  /** So is one more proposal of a node without penalties for proposals. */
  lemma ProposalEarns(a: Transcript, b: Transcript, id: nat)
    requires Gains(a, b, id, 1, 0, 0, 0, 0, 0)
    requires Count(a.withheld, id) == Count(a.equivocations, id) == Count(a.maliciousProposals, id) == 0
    ensures Score(x => x, b, id) == Score(x => x, a, id) + 0.0001
  {
    hide Count;
  }

  lemma SamePenalty(f: real -> real, a: Transcript, b: Transcript, id: nat)
    requires NoWrap(a, id) && NoWrap(b, id)
    requires Excess(Count(a.votes, id), 2 * Count(a.maliciousVotes, id))
          == Excess(Count(b.votes, id), 2 * Count(b.maliciousVotes, id))
    requires Excess(Count(a.proposals, id), 10 * Count(a.withheld, id) + 10 * Count(a.equivocations, id)
                                            + 2 * Count(a.maliciousProposals, id))
          == Excess(Count(b.proposals, id), 10 * Count(b.withheld, id) + 10 * Count(b.equivocations, id)
                                            + 2 * Count(b.maliciousProposals, id))
    ensures Score(f, a, id) == Score(f, b, id)
  {
    hide Count;
    hide Excess;
    hide NoWrap;
    hide Score;
    hide VoteScore;
    hide ProposalScore;
    Parts(a, b, id);
    SumDecides(f, a, b, id);
  }

  /** Misbehaviour takes back proposals or votes at fixed rates. */
  lemma OffenceCancels(f: real -> real, a: Transcript, b: Transcript, id: nat)
    requires NoWrap(a, id) && NoWrap(b, id)
    ensures Gains(a, b, id, 10, 0, 1, 0, 0, 0) ==> Score(f, b, id) == Score(f, a, id)
    ensures Gains(a, b, id, 10, 0, 0, 1, 0, 0) ==> Score(f, b, id) == Score(f, a, id)
    ensures Gains(a, b, id, 2, 0, 0, 0, 1, 0) ==> Score(f, b, id) == Score(f, a, id)
    ensures Gains(a, b, id, 0, 2, 0, 0, 0, 1) ==> Score(f, b, id) == Score(f, a, id)
  {
    hide Count;
    hide Score;
    hide NoWrap;
    if Gains(a, b, id, 10, 0, 1, 0, 0, 0) || Gains(a, b, id, 10, 0, 0, 1, 0, 0)
       || Gains(a, b, id, 2, 0, 0, 0, 1, 0) || Gains(a, b, id, 0, 2, 0, 0, 0, 1) {
      SamePenalty(f, a, b, id);
    }
  }

  /** What a score is before squashing, where a node has earned enough. */
  lemma EnoughEarned(log: Transcript, id: nat)
    requires NoWrap(log, id) && Count(log.votes, id) >= 2 * Count(log.maliciousVotes, id)
    requires Count(log.proposals, id) >= 10 * Count(log.withheld, id) + 10 * Count(log.equivocations, id)
                                         + 2 * Count(log.maliciousProposals, id)
    ensures Score(x => x, log, id)
         == 0.0001 * (Count(log.votes, id) + Count(log.proposals, id)) as real
            - 0.0002 * (Count(log.maliciousVotes, id) + Count(log.maliciousProposals, id)) as real
            - 0.001 * (Count(log.withheld, id) + Count(log.equivocations, id)) as real + 0.000001
  {
    hide Count;
    hide Score;
    hide NoWrap;
    hide VoteScore;
    hide ProposalScore;
    VotePart(log, id);
    ProposalPart(log, id);
    Unsquashed(log, id);
  }

  /** Where a node has earned enough, an offence costs its price and nothing else. */
  lemma OffenceCosts(a: Transcript, b: Transcript, id: nat)
    requires NoWrap(a, id) && NoWrap(b, id)
    requires Count(a.proposals, id) >= 10 * Count(b.withheld, id) + 10 * Count(b.equivocations, id)
                                       + 2 * Count(b.maliciousProposals, id)
    requires Count(a.votes, id) >= 2 * Count(b.maliciousVotes, id)
    ensures Gains(a, b, id, 0, 0, 1, 0, 0, 0) ==> Score(x => x, b, id) == Score(x => x, a, id) - 0.001
    ensures Gains(a, b, id, 0, 0, 0, 1, 0, 0) ==> Score(x => x, b, id) == Score(x => x, a, id) - 0.001
    ensures Gains(a, b, id, 0, 0, 0, 0, 1, 0) ==> Score(x => x, b, id) == Score(x => x, a, id) - 0.0002
    ensures Gains(a, b, id, 0, 0, 0, 0, 0, 1) ==> Score(x => x, b, id) == Score(x => x, a, id) - 0.0002
  {
    hide Count;
    hide Score;
    hide NoWrap;
    if Gains(a, b, id, 0, 0, 1, 0, 0, 0) || Gains(a, b, id, 0, 0, 0, 1, 0, 0)
       || Gains(a, b, id, 0, 0, 0, 0, 1, 0) || Gains(a, b, id, 0, 0, 0, 0, 0, 1) {
      EnoughEarned(a, id);
      EnoughEarned(b, id);
    }
  }

  ghost predicate Strict(f: real -> real) {
    TanhLike(f) && forall x, y :: 0.0 <= x < y ==> f(x) < f(y)
  }

  lemma CountsOne(t: Tally, view: nat, id: nat)
    ensures Count(Before(t, view + 1), id) == Count(Before(t, view), id) + if Marked(t, view, id) then 1 else 0
  {
    var a, b := Views(Before(t, view), id), Views(Before(t, view + 1), id);
    assert b == if Marked(t, view, id) then a + {view} else a;
    assert view !in a;
  }

  lemma CleanCounts(log: Transcript, view: nat, id: nat)
    requires Clean(log, view, id)
    ensures Gains(LogBefore(log, view), LogBefore(log, view + 1), id,
                  if Marked(log.proposals, view, id) then 1 else 0, if Marked(log.votes, view, id) then 1 else 0,
                  0, 0, 0, 0)
  {
    hide Count;
    hide Before;
    hide Marked;
    CountsOne(log.proposals, view, id);
    CountsOne(log.votes, view, id);
    CountsOne(log.withheld, view, id);
    CountsOne(log.equivocations, view, id);
    CountsOne(log.maliciousProposals, view, id);
    CountsOne(log.maliciousVotes, view, id);
  }

  lemma GainRaises(f: real -> real, a: Transcript, b: Transcript, id: nat, proposals: nat, votes: nat)
    requires Strict(f) && NoWrap(a, id) && NoWrap(b, id) && Gains(a, b, id, proposals, votes, 0, 0, 0, 0)
    ensures Score(f, a, id) < Score(f, b, id)
       <==> (votes > 0 && Count(b.votes, id) > 2 * Count(a.maliciousVotes, id))
            || (proposals > 0 && Count(b.proposals, id) > 10 * Count(a.withheld, id) + 10 * Count(a.equivocations, id)
                                                          + 2 * Count(a.maliciousProposals, id))
  {
    hide Count;
    hide VoteScore;
    hide ProposalScore;
    Parts(a, b, id);
    var x, y := VoteScore(a, id) + ProposalScore(a, id), VoteScore(b, id) + ProposalScore(b, id);
    assert 0.0 <= GAMMA * x <= GAMMA * y;
    if x < y {
      assert GAMMA * x < GAMMA * y;
    }
  }

  /** A view without misbehaviour raises a node's score if and only if it has voted or proposed in it
      and its votes or proposals are more than its penalties take back. */
  lemma CleanViewRaisesIff(f: real -> real, log: Transcript, view: nat, id: nat)
    requires Strict(f) && Clean(log, view, id) && NoWrap(LogBefore(log, view), id)
    ensures var a, b := LogBefore(log, view), LogBefore(log, view + 1);
            Score(f, a, id) < Score(f, b, id)
            <==> (Marked(log.votes, view, id) && Count(b.votes, id) > 2 * Count(a.maliciousVotes, id))
                 || (Marked(log.proposals, view, id)
                     && Count(b.proposals, id) > 10 * Count(a.withheld, id) + 10 * Count(a.equivocations, id)
                                                 + 2 * Count(a.maliciousProposals, id))
  {
    hide Count;
    hide Marked;
    hide Score;
    hide LogBefore;
    hide Strict;
    CleanCounts(log, view, id);
    assert NoWrap(LogBefore(log, view + 1), id);
    GainRaises(f, LogBefore(log, view), LogBefore(log, view + 1), id,
               if Marked(log.proposals, view, id) then 1 else 0, if Marked(log.votes, view, id) then 1 else 0);
  }

  // Runs

  lemma NothingRecorded(f: real -> real, log: Transcript, view: nat, id: nat)
    requires TanhLike(f) && WithinViews(log, view)
    ensures Score(f, LogBefore(log, 1), id) == INITIAL_SCORE
  {
    assert LogBefore(log, 1) == EMPTY_TRANSCRIPT;
    assert Views(map[], id) == {};
  }

  /** The tables a node holds are the scores of what it has on record. */
  lemma NodeScore(f: real -> real, b: Base, r: Replica, v: nat, id: nat)
    requires TanhLike(f) && TablesFromLog(f, b.n, b.reputation, b.log) && WithinViews(r.log, r.view)
    requires Covers(b) && Follows(b, r) && 1 <= v <= b.view && id < b.n
    ensures v in r.reputation && id in r.reputation[v] && r.reputation[v][id] == Score(f, LogBefore(r.log, v), id)
  {
    hide Score;
    hide WithinViews;
    hide LogBefore;
    SharedTable(b, r, v);
    LogBeforeTwice(r.log, v, b.view);
    assert id in Nodes(b.n);
    NothingRecorded(f, r.log, r.view, id);
  }

  lemma RunScore(cfg: Config, states: seq<System>, actions: seq<Action>, k: nat, i: nat, v: nat, id: nat)
    requires IsRun(cfg, states, actions) && k < |states| && i in cfg.correct && TanhLike(cfg.f) && id < cfg.n
    requires 1 <= v <= states[k].base.view
    ensures i in states[k].reps && states[k].reps[i].view == states[k].base.view
    ensures var r := states[k].reps[i];
            v in r.reputation && id in r.reputation[v] && r.reputation[v][id] == Score(cfg.f, LogBefore(r.log, v), id)
  {
    hide IsRun;
    hide Good;
    hide Score;
    hide LogBefore;
    hide TablesFromLog;
    hide WithinViews;
    hide TanhLike;
    RunGood(cfg, states, actions, k);
    NodeTables(cfg, states[k], i);
    NodeRecorded(cfg, states[k], i);
    NodeScore(cfg.f, states[k].base, states[k].reps[i], v, id);
  }

  /** The views before `v` in which a node is recorded. */
  ghost function ViewsBefore(t: Tally, v: nat, id: nat): set<nat> {
    set w | w in t && w < v && Marked(t, w, id)
  }

  lemma CountBefore(t: Tally, v: nat, id: nat)
    ensures Count(Before(t, v), id) == |ViewsBefore(t, v, id)|
  {
    assert Views(Before(t, v), id) == ViewsBefore(t, v, id);
  }

  lemma NeverMarked(t: Tally, v: nat, id: nat)
    requires forall w :: !Marked(t, w, id)
    ensures Count(Before(t, v), id) == 0
  {
    assert ViewsBefore(t, v, id) == {};
    CountBefore(t, v, id);
  }

  lemma CleanPenalties(log: Transcript, v: nat, id: nat)
    requires forall w :: Clean(log, w, id)
    ensures var a := LogBefore(log, v);
            Count(a.withheld, id) == Count(a.equivocations, id) == Count(a.maliciousProposals, id)
            == Count(a.maliciousVotes, id) == 0
  {
    forall w
      ensures !Marked(log.withheld, w, id) && !Marked(log.equivocations, w, id)
              && !Marked(log.maliciousProposals, w, id) && !Marked(log.maliciousVotes, w, id)
    {
      assert Clean(log, w, id);
    }
    NeverMarked(log.withheld, v, id);
    NeverMarked(log.equivocations, v, id);
    NeverMarked(log.maliciousProposals, v, id);
    NeverMarked(log.maliciousVotes, v, id);
  }

  lemma CleanScore(f: real -> real, log: Transcript, v: nat, id: nat)
    requires TanhLike(f) && forall w :: Clean(log, w, id)
    ensures Score(f, LogBefore(log, v), id)
         == f(0.0001 * (|ViewsBefore(log.votes, v, id)| + |ViewsBefore(log.proposals, v, id)|) as real) + 0.000001
  {
    CleanPenalties(log, v, id);
    hide Count;
    CountBefore(log.votes, v, id);
    CountBefore(log.proposals, v, id);
    var a := LogBefore(log, v);
    assert VoteScore(a, id) == |ViewsBefore(log.votes, v, id)| as real;
    assert ProposalScore(a, id) == |ViewsBefore(log.proposals, v, id)| as real;
  }

  lemma NeverAccused(cfg: Config, states: seq<System>, actions: seq<Action>, k: nat, i: nat, id: nat)
    requires IsRun(cfg, states, actions) && Unframed(cfg, states, actions) && k < |states|
    requires i in cfg.correct && id in cfg.correct
    ensures i in states[k].reps && forall w :: Clean(states[k].reps[i].log, w, id)
  {
    hide IsRun;
    hide Clean;
    CorrectNeverAccused(cfg, states, actions, k, i, 0, id);
    forall w: nat
      ensures Clean(states[k].reps[i].log, w, id)
    {
      CorrectNeverAccused(cfg, states, actions, k, i, w, id);
    }
  }

  /** As long as nobody reuses its signature against it, a correct node's reputation for a view is
      exactly what its votes and committed proposals of the views before have earned. */
  lemma CorrectReputationExact(cfg: Config, states: seq<System>, actions: seq<Action>, k: nat, i: nat, v: nat, id: nat)
    requires IsRun(cfg, states, actions) && Unframed(cfg, states, actions) && k < |states| && TanhLike(cfg.f)
    requires i in cfg.correct && id in cfg.correct && id < cfg.n && 1 <= v <= states[k].base.view
    ensures i in states[k].reps
    ensures var r := states[k].reps[i];
            && v in r.reputation && id in r.reputation[v]
            && r.reputation[v][id] == cfg.f(0.0001 * (|ViewsBefore(r.log.votes, v, id)|
                                                      + |ViewsBefore(r.log.proposals, v, id)|) as real) + 0.000001
  {
    hide IsRun;
    hide Score;
    hide TanhLike;
    hide Clean;
    NeverAccused(cfg, states, actions, k, i, id);
    RunScore(cfg, states, actions, k, i, v, id);
    CleanScore(cfg.f, states[k].reps[i].log, v, id);
  }

  lemma CleanRisesIff(f: real -> real, log: Transcript, v: nat, id: nat)
    requires Strict(f) && forall w :: Clean(log, w, id)
    ensures Score(f, LogBefore(log, v), id) < Score(f, LogBefore(log, v + 1), id)
       <==> Marked(log.votes, v, id) || Marked(log.proposals, v, id)
    ensures Score(f, LogBefore(log, v), id) <= Score(f, LogBefore(log, v + 1), id)
  {
    CleanPenalties(log, v, id);
    assert Clean(log, v, id);
    hide Clean;
    CleanViewKeepsScore(f, log, v, id);
    CleanViewRaisesIff(f, log, v, id);
    CleanCounts(log, v, id);
  }

  /** The node's reputation rises with the view exactly if `more`, and never falls. */
  ghost predicate Earns(r: Replica, v: nat, id: nat, more: bool) {
    && v in r.reputation && id in r.reputation[v] && v + 1 in r.reputation && id in r.reputation[v + 1]
    && if more then r.reputation[v][id] < r.reputation[v + 1][id] else r.reputation[v][id] == r.reputation[v + 1][id]
  }

  /** It rises with every view in which the node's vote or proposal is on record, and stays the same
      in all others. */
  lemma CorrectRisesIff(cfg: Config, states: seq<System>, actions: seq<Action>, k: nat, i: nat, v: nat, id: nat)
    requires IsRun(cfg, states, actions) && Unframed(cfg, states, actions) && k < |states| && Strict(cfg.f)
    requires i in cfg.correct && id in cfg.correct && id < cfg.n && 1 <= v < states[k].base.view
    ensures i in states[k].reps
    ensures var r := states[k].reps[i];
            Earns(r, v, id, Marked(r.log.votes, v, id) || Marked(r.log.proposals, v, id))
  {
    hide IsRun;
    hide Score;
    hide TanhLike;
    hide Clean;
    hide Marked;
    NeverAccused(cfg, states, actions, k, i, id);
    RunScore(cfg, states, actions, k, i, v, id);
    RunScore(cfg, states, actions, k, i, v + 1, id);
    CleanRisesIff(cfg.f, states[k].reps[i].log, v, id);
  }

  lemma CallbackTables(f: real -> real, r: Replica)
    requires r.n > 0
    ensures Callback(f, r).reputation
         == r.reputation[r.view + 1 := TableAt(r.reputation, r.view + 1) + NewTable(f, r.n, r.log)]
  {
    hide NewTable;
    hide TableAt;
  }

  lemma MergedEntry(t: Table, more: Table, id: nat)
    ensures id in more ==> id in t + more && (t + more)[id] == more[id]
    ensures id !in more ==> (id in t + more <==> id in t) && (id in t ==> (t + more)[id] == t[id])
  {}

  lemma ScoreEntry(f: real -> real, n: nat, log: Transcript, id: nat)
    ensures id in NewTable(f, n, log) <==> id < n
    ensures id < n ==> NewTable(f, n, log)[id] == Score(f, log, id)
  {
    hide Score;
  }

  /** Every end of a round, a stalled one too, writes all nodes' scores into the table of the next view
      and leaves all other entries alone. */
  lemma CallbackWrites(f: real -> real, r: Replica, v: nat, id: nat)
    requires r.n > 0
    ensures var t, t' := TableAt(r.reputation, v), TableAt(Callback(f, r).reputation, v);
            && (v == r.view + 1 && id < r.n ==> id in t' && t'[id] == Score(f, r.log, id))
            && (v != r.view + 1 || id >= r.n ==> (id in t' <==> id in t) && (id in t ==> t'[id] == t[id]))
  {
    hide Score;
    hide NewTable;
    hide Callback;
    CallbackTables(f, r);
    ScoreEntry(f, r.n, r.log, id);
    MergedEntry(TableAt(r.reputation, r.view + 1), NewTable(f, r.n, r.log), id);
  }

  // What a round earns

  lemma EmptyEarnsNothing(c: Scene)
    requires RoundOk(c) && c.base.leader < c.base.n && EmptyRound(c)
    ensures Voters(c.round.votes) == {}
  {
    forall m | m in c.round.votes
      ensures false
    {
      NoVoteInEmptyRound(c, m);
    }
  }

  lemma RoundVotesRecorded(c: Scene, r: Replica, id: nat)
    requires Ready(c.base) && r.log == NextLog(c)
    ensures Marked(r.log.votes, c.base.view, id) <==> id in Voters(c.round.votes)
    ensures Marked(r.log.proposals, c.base.view, id) <==> id == c.base.leader && !EmptyRound(c)
  {
    MarkedNow(c.base.log.votes, c.base.view, Voters(c.round.votes), id);
    MarkedNow(c.base.log.proposals, c.base.view, Only(!EmptyRound(c), c.base.leader), id);
  }

  /** At the end of a committing round every correct node is on record as a voter, unless the round
      was empty; then nobody is, and no proposal either. */
  lemma RoundEarns(cfg: Config, s: System, i: nat, id: nat)
    requires Ends(cfg, s) && i in cfg.correct && id in cfg.correct && Commits(SceneOf(cfg, s))
    ensures i in s.reps && s.reps[i].n > 0
    ensures var log := Callback(cfg.f, s.reps[i]).log;
            Marked(log.votes, s.base.view, id) || Marked(log.proposals, s.base.view, id)
            <==> !EmptyRound(SceneOf(cfg, s))
  {
    hide Inv;
    hide Callback;
    hide Marked;
    hide NextLog;
    hide Entered;
    hide Commits;
    var c := SceneOf(cfg, s);
    BaseHolds(cfg, s);
    BaseIsReady(s.base);
    NodeAdvances(cfg, s, i);
    RoundVotesRecorded(c, Callback(cfg.f, s.reps[i]), id);
    if EmptyRound(c) {
      EmptyEarnsNothing(c);
    } else {
      NodeSettled(cfg, s, i);
      CommitKinds(c, i, s.reps[i]);
      AllVote(cfg, s);
    }
  }

  /** In an unframed run, a round that commits raises the reputation of every correct node, at every
      correct node, if and only if its block is not the empty one; otherwise it leaves it as it is. */
  lemma CommitRaisesIff(cfg: Config, states: seq<System>, actions: seq<Action>, k: nat, i: nat, id: nat)
    requires IsRun(cfg, states, actions) && Unframed(cfg, states, actions) && Strict(cfg.f)
    requires k < |actions| && actions[k].Close? && Commits(SceneOf(cfg, states[k]))
    requires i in cfg.correct && id in cfg.correct && id < cfg.n
    ensures i in states[k + 1].reps
    ensures Earns(states[k + 1].reps[i], states[k].base.view, id, !EmptyRound(SceneOf(cfg, states[k])))
  {
    hide Good;
    hide Steps;
    hide Init;
    hide Ends;
    hide Marked;
    hide Commits;
    hide EmptyRound;
    hide Callback;
    hide Strict;
    hide Unframed;
    RunGood(cfg, states, actions, k);
    CloseEnds(cfg, states[k], actions[k], states[k + 1]);
    RoundEarns(cfg, states[k], i, id);
    ClosedNode(cfg, states[k], actions[k], states[k + 1], i);
    Advances(cfg, states, actions, k, i);
    CorrectRisesIff(cfg, states, actions, k + 1, i, states[k].base.view, id);
  }

  lemma Advances(cfg: Config, states: seq<System>, actions: seq<Action>, k: nat, i: nat)
    requires IsRun(cfg, states, actions) && k < |actions| && actions[k].Close? && Commits(SceneOf(cfg, states[k]))
    requires i in cfg.correct
    ensures 1 <= states[k].base.view && states[k + 1].base.view == states[k].base.view + 1
  {
    hide Good;
    hide Steps;
    hide Init;
    hide Commits;
    RoundOutcome(cfg, states, actions, k, i);
    RunGood(cfg, states, actions, k);
    RunGood(cfg, states, actions, k + 1);
    NodeFollows(cfg, states[k + 1], i);
    GoodBase(cfg, states[k]);
  }
}
