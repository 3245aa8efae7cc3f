/** How a node's reputation is computed from the behaviour recorded in its transcripts. */
module Reputation {
  import opened Tallies
  import opened Weights

  const U64_SIZE := 0x1_0000_0000_0000_0000
  const GAMMA := 0.0001
  const INITIAL_SCORE := 0.000001

  datatype Transcript = Transcript(
    proposals: Tally,
    votes: Tally,
    withheld: Tally,
    equivocations: Tally,
    maliciousProposals: Tally,
    maliciousVotes: Tally)

  const EMPTY_TRANSCRIPT := Transcript(map[], map[], map[], map[], map[], map[])

  /** What the score needs to know about the hyperbolic tangent. */
  ghost predicate TanhLike(f: real -> real) {
    && f(0.0) == 0.0
    && (forall x, y :: 0.0 <= x <= y ==> f(x) <= f(y))
    && (forall x :: 0.0 <= x ==> 0.0 <= f(x) < 1.0)
  }

  function AtLeast(floor: real, x: real): real {
    if x < floor then floor else x
  }

  /** The penalties are multiplied and added in 64-bit unsigned arithmetic. */
  function ProposalPenalty(log: Transcript, id: nat): nat {
    (Count(log.withheld, id) * 10 + Count(log.equivocations, id) * 10
     + Count(log.maliciousProposals, id) * 2) % U64_SIZE
  }

  function VotePenalty(log: Transcript, id: nat): nat {
    (Count(log.maliciousVotes, id) * 2) % U64_SIZE
  }

  function ProposalScore(log: Transcript, id: nat): real {
    AtLeast(0.0, Count(log.proposals, id) as real - ProposalPenalty(log, id) as real)
  }

  function VoteScore(log: Transcript, id: nat): real {
    AtLeast(0.0, Count(log.votes, id) as real - VotePenalty(log, id) as real)
  }

  function Score(f: real -> real, log: Transcript, id: nat): real {
    AtLeast(INITIAL_SCORE,
            f(GAMMA * (VoteScore(log, id) + ProposalScore(log, id))) + INITIAL_SCORE)
  }

  /** The table a node computes for the next view. */
  function NewTable(f: real -> real, n: nat, log: Transcript): Table {
    map id | id in Nodes(n) :: Score(f, log, id)
  }

  /** The table of the first view. */
  function InitialTable(n: nat): Table {
    map id | id in Nodes(n) :: INITIAL_SCORE
  }

  /** The counting loops followed by the score formula. */
  method ReputationCalculate(f: real -> real, log: Transcript, id: nat) returns (score: real)
    ensures score == Score(f, log, id)
    ensures score >= INITIAL_SCORE
  {
    var proposalNum := CountRecorded(log.proposals, id);
    var voteNum := CountRecorded(log.votes, id);
    var withheldNum := CountRecorded(log.withheld, id);
    var maliProposalNum := CountRecorded(log.maliciousProposals, id);
    var equivocationNum := CountRecorded(log.equivocations, id);
    var maliVoteNum := CountRecorded(log.maliciousVotes, id);
    var penalty := (withheldNum * 10 + equivocationNum * 10 + maliProposalNum * 2) % U64_SIZE;
    var proposalScore := AtLeast(0.0, proposalNum as real - penalty as real);
    var votePenalty := (maliVoteNum * 2) % U64_SIZE;
    var voteScore := AtLeast(0.0, voteNum as real - votePenalty as real);
    score := AtLeast(INITIAL_SCORE, f(GAMMA * (voteScore + proposalScore)) + INITIAL_SCORE);
  }

  // Ranges and dynamics of the score.

  lemma ScoreRange(f: real -> real, log: Transcript, id: nat)
    requires TanhLike(f)
    ensures INITIAL_SCORE <= Score(f, log, id) < 1.0 + INITIAL_SCORE
  {}

  lemma ScoreMonotone(f: real -> real, a: Transcript, b: Transcript, id: nat)
    requires TanhLike(f)
    requires VoteScore(a, id) <= VoteScore(b, id)
    requires ProposalScore(a, id) <= ProposalScore(b, id)
    ensures Score(f, a, id) <= Score(f, b, id)
  {}

  /** Penalties for proposals never cost a node what its votes alone have earned. */
  lemma VotesAloneFloor(f: real -> real, log: Transcript, id: nat)
    requires TanhLike(f)
    ensures var voteOnly := log.(proposals := map[], withheld := map[], equivocations := map[],
                                 maliciousProposals := map[]);
            Score(f, voteOnly, id) <= Score(f, log, id)
  {
    var voteOnly := log.(proposals := map[], withheld := map[], equivocations := map[],
                         maliciousProposals := map[]);
    assert Views(map[], id) == {};
    assert ProposalScore(voteOnly, id) == 0.0;
    ScoreMonotone(f, voteOnly, log, id);
  }

  /** The part of a record written before a view. */
  function Before(t: Tally, view: nat): Tally {
    map v | v in t && v < view :: t[v]
  }

  function LogBefore(log: Transcript, view: nat): Transcript {
    Transcript(Before(log.proposals, view), Before(log.votes, view), Before(log.withheld, view),
               Before(log.equivocations, view), Before(log.maliciousProposals, view),
               Before(log.maliciousVotes, view))
  }

  ghost predicate Clean(log: Transcript, view: nat, id: nat) {
    && !Marked(log.withheld, view, id)
    && !Marked(log.equivocations, view, id)
    && !Marked(log.maliciousProposals, view, id)
    && !Marked(log.maliciousVotes, view, id)
  }

  lemma CountGrows(t: Tally, view: nat, id: nat)
    ensures Count(Before(t, view), id) <= Count(Before(t, view + 1), id)
    ensures !Marked(t, view, id) ==> Count(Before(t, view), id) == Count(Before(t, view + 1), id)
  {
    var a, b := Views(Before(t, view), id), Views(Before(t, view + 1), id);
    assert a <= b;
    assert b <= a + {view};
    assert a == b - {view};
    if !Marked(t, view, id) {
      assert a == b;
    }
  }

  /** A node with no misbehaviour recorded in a view does not lose reputation by it. */
  lemma CleanViewKeepsScore(f: real -> real, log: Transcript, view: nat, id: nat)
    requires TanhLike(f) && Clean(log, view, id)
    ensures Score(f, LogBefore(log, view), id) <= Score(f, LogBefore(log, view + 1), id)
  {
    CountGrows(log.proposals, view, id);
    CountGrows(log.votes, view, id);
    CountGrows(log.withheld, view, id);
    CountGrows(log.equivocations, view, id);
    CountGrows(log.maliciousProposals, view, id);
    CountGrows(log.maliciousVotes, view, id);
    ScoreMonotone(f, LogBefore(log, view), LogBefore(log, view + 1), id);
  }

  ghost predicate UpTo(t: Tally, view: nat) {
    forall v :: v in t ==> 1 <= v <= view
  }

  ghost predicate WithinViews(log: Transcript, view: nat) {
    && UpTo(log.proposals, view) && UpTo(log.votes, view) && UpTo(log.withheld, view)
    && UpTo(log.equivocations, view) && UpTo(log.maliciousProposals, view)
    && UpTo(log.maliciousVotes, view)
  }

  /** Up to view 2^59 the penalties stay below 2^64, so nothing wraps around. */
  lemma {:induction false} PenaltyExact(log: Transcript, view: nat, id: nat)
    requires WithinViews(log, view) && view <= 0x800_0000_0000_0000
    ensures ProposalPenalty(log, id)
         == Count(log.withheld, id) * 10 + Count(log.equivocations, id) * 10
            + Count(log.maliciousProposals, id) * 2
    ensures VotePenalty(log, id) == Count(log.maliciousVotes, id) * 2
  {
    CountBound(log.withheld, id, view);
    CountBound(log.equivocations, id, view);
    CountBound(log.maliciousProposals, id, view);
    CountBound(log.maliciousVotes, id, view);
  }
}
