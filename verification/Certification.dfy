/** Counting the votes of a view, in any order and with any repetition. Whether a certificate
    results depends only on who voted; there is one at most, its signers are distinct, and it
    is made at the very vote that tips the scales. */
module Certification {
  import opened Messages
  import opened Weights
  import opened Reputation
  import opened Replicas
  import opened Rounds

  /** A node handles votes one after the other; `walks` are the orders in which it walks its poll. */
  ghost function Polled(r: Replica, vs: seq<Vote>, walks: seq<seq<nat>>): Replica
    requires |walks| == |vs|
  {
    if vs == [] then r
    else
      var k := |vs| - 1;
      HandleVote(Polled(r, vs[..k], walks[..k]), vs[k], walks[k]).next
  }

  /** Each walk is over the poll it is used for. */
  ghost predicate Walked(r: Replica, vs: seq<Vote>, walks: seq<seq<nat>>)
    requires |walks| == |vs|
  {
    if vs == [] then true
    else
      var k := |vs| - 1;
      var p := Polled(r, vs[..k], walks[..k]);
      Walked(r, vs[..k], walks[..k]) && IsOrdering(walks[k], Row(p.ballots, p.view)[vs[k].voter := vs[k]].Keys)
  }

  predicate Accepts(r: Replica, v: Vote) {
    v.owner == r.leader && (v.voter == r.id || SignedVote(r.n, v))
  }

  ghost function AcceptedVoters(r: Replica, vs: seq<Vote>): set<nat> {
    set v | v in vs && Accepts(r, v) :: v.voter
  }

  ghost function CurrentWeights(r: Replica): Table {
    TableAt(r.reputation, r.view)
  }

  /** No vote of the view has been counted yet. */
  ghost predicate Unpolled(r: Replica) {
    r.view !in r.ballots && r.view !in r.certified && r.view !in r.ledger.certs && NonNegative(CurrentWeights(r))
  }

  ghost predicate CertOf(w: Table, poll: map<nat, Vote>, c: Certificate) {
    Distinct(c.ids) && Elements(c.ids) == poll.Keys && SeqSum(w, c.ids) > Half(w)
  }

  /** What the poll, the flag and the certificate say when `voters` have had a vote accepted. */
  ghost predicate PollState(w: Table, poll: map<nat, Vote>, certified: bool, cert: Option<Certificate>,
                            voters: set<nat>) {
    Whole(
      && poll.Keys <= voters && (!certified ==> poll.Keys == voters)
      && (certified <==> Outweighs(w, poll.Keys))
      && (certified <==> cert.Some?) && (cert.Some? ==> CertOf(w, poll, cert.value)))
  }

  ghost predicate SamePollster(r: Replica, r': Replica) {
    r'.id == r.id && r'.n == r.n && r'.view == r.view && r'.leader == r.leader && r'.reputation == r.reputation
  }

  ghost predicate Tallied(r: Replica, r': Replica, voters: set<nat>) {
    Whole(
      && SamePollster(r, r') && r'.ballots.Keys == r'.certified.Keys
      && PollState(CurrentWeights(r), Row(r'.ballots, r.view), IsCertified(r'), Lookup(r'.ledger.certs, r.view),
                   voters))
  }

  lemma NobodyVoted(w: Table)
    requires NonNegative(w)
    ensures PollState(w, map[], false, None, {})
  {
    SumNonNegative(w, w.Keys);
    var poll: map<nat, Vote> := map[];
    assert poll.Keys == {} && Sum(w, {}) == 0.0;
  }

  lemma VoteAddedToPoll(w: Table, poll: map<nat, Vote>, voters: set<nat>, v: Vote)
    requires PollState(w, poll, false, None, voters) && !Outweighs(w, poll[v.voter := v].Keys)
    ensures PollState(w, poll[v.voter := v], false, None, voters + {v.voter})
  {}

  lemma VoteTipsScales(w: Table, poll: map<nat, Vote>, voters: set<nat>, v: Vote, hash: Hash, view: nat, ids: seq<nat>)
    requires PollState(w, poll, false, None, voters) && v.voter !in poll && Outweighs(w, poll[v.voter := v].Keys)
    requires IsOrdering(ids, poll[v.voter := v].Keys)
    ensures var poll' := poll[v.voter := v];
            PollState(w, poll', true, Some(NewCert(poll', hash, view, ids)), voters + {v.voter})
  {
    var poll' := poll[v.voter := v];
    assert poll'.Keys == poll.Keys + {v.voter};
    SeqSumDistinct(w, ids);
  }

  lemma OpensTallied(r: Replica, r': Replica, voters: set<nat>)
    requires Tallied(r, r', voters)
    ensures Tallied(r, OpenPoll(r'), voters) && r.view in OpenPoll(r').ballots && r.view in OpenPoll(r').certified
  {}

  lemma Relogged(r: Replica, r': Replica, voters: set<nat>, j: nat)
    requires Tallied(r, r', voters)
    ensures Tallied(r, Logging(r', j), voters)
  {}

  lemma CountsLate(r: Replica, r': Replica, voters: set<nat>, j: nat)
    requires Tallied(r, r', voters) && (j in Row(r'.ballots, r.view) || IsCertified(r'))
    ensures Tallied(r, r', voters + {j})
  {}

  lemma CountsInto(r: Replica, r': Replica, voters: set<nat>, v: Vote)
    requires Tallied(r, r', voters) && !IsCertified(r') && r.view in r'.ballots
    requires !Outweighs(CurrentWeights(r), r'.ballots[r.view][v.voter := v].Keys)
    ensures Tallied(r, Polling(r', r'.ballots[r.view][v.voter := v]), voters + {v.voter})
  {
    VoteAddedToPoll(CurrentWeights(r), Row(r'.ballots, r.view), voters, v);
    PolledFields(r', r'.ballots[r.view][v.voter := v]);
  }

  lemma CountsOver(r: Replica, r': Replica, voters: set<nat>, v: Vote, ids: seq<nat>)
    requires Tallied(r, r', voters) && !IsCertified(r') && r.view in r'.ballots && v.voter !in r'.ballots[r.view]
    requires Outweighs(CurrentWeights(r), r'.ballots[r.view][v.voter := v].Keys)
    requires IsOrdering(ids, r'.ballots[r.view][v.voter := v].Keys)
    ensures var poll := r'.ballots[r.view][v.voter := v];
            Tallied(r, Certifying(Polling(r', poll), NewCert(poll, v.hash, v.view, ids)), voters + {v.voter})
  {
    var poll := r'.ballots[r.view][v.voter := v];
    VoteTipsScales(CurrentWeights(r), Row(r'.ballots, r.view), voters, v, v.hash, v.view, ids);
    PolledFields(r', poll);
    CertifiedFields(Polling(r', poll), NewCert(poll, v.hash, v.view, ids));
  }

  ghost function OneVoter(r: Replica, v: Vote): set<nat> {
    if Accepts(r, v) then {v.voter} else {}
  }

  lemma CountsOne(r: Replica, r': Replica, voters: set<nat>, v: Vote, ids: seq<nat>)
    requires Tallied(r, r', voters) && r.view in r'.ballots && v.voter !in r'.ballots[r.view]
    requires IsOrdering(ids, r'.ballots[r.view][v.voter := v].Keys)
    ensures Tallied(r, CountVote(r', v, ids), voters + {v.voter})
  {
    if IsCertified(r') {
      CountsLate(r, r', voters, v.voter);
    } else if Outweighs(CurrentWeights(r), r'.ballots[r.view][v.voter := v].Keys) {
      CountsOver(r, r', voters, v, ids);
    } else {
      CountsInto(r, r', voters, v);
    }
  }

  lemma NobodyAdded(r: Replica, v: Vote, voters: set<nat>)
    requires !Accepts(r, v)
    ensures voters + OneVoter(r, v) == voters
  {}

  lemma OpenPolled(r: Replica, v: Vote, ids: seq<nat>)
    requires v.owner == r.leader
    ensures var r0 := OpenPoll(r);
            && r0.view == r.view && r.view in r0.ballots && r0.ballots[r.view] == Row(r.ballots, r.view)
            && HandleVote(r, v, ids).next
            == if v.voter in r0.ballots[r.view] || (v.voter != r.id && !SignedVote(r.n, v)) then r0
               else CountVote(Logging(r0, v.voter), v, ids)
  {
    hide CountVote;
    hide SignedVote;
  }

  /** One more vote. */
  lemma PollsOne(r: Replica, r': Replica, voters: set<nat>, v: Vote, ids: seq<nat>)
    requires Tallied(r, r', voters) && IsOrdering(ids, Row(r'.ballots, r'.view)[v.voter := v].Keys)
    ensures Tallied(r, HandleVote(r', v, ids).next, voters + OneVoter(r, v))
  {
    if v.owner == r.leader {
      OpenPolled(r', v, ids);
      OpensTallied(r, r', voters);
      var r0 := OpenPoll(r');
      if v.voter in r0.ballots[r.view] {
        CountsLate(r, r0, voters, v.voter);
      } else if Accepts(r, v) {
        Relogged(r, r0, voters, v.voter);
        CountsOne(r, Logging(r0, v.voter), voters, v, ids);
      }
    }
    if !Accepts(r, v) {
      NobodyAdded(r, v, voters);
    }
  }

  lemma VotersMore(r: Replica, vs: seq<Vote>, v: Vote)
    ensures AcceptedVoters(r, vs + [v]) == AcceptedVoters(r, vs) + OneVoter(r, v)
  {}

  lemma PollsNone(r: Replica)
    requires Unpolled(r) && r.ballots.Keys == r.certified.Keys
    ensures Tallied(r, r, {})
  {
    NobodyVoted(CurrentWeights(r));
  }

  /** The last vote of a sequence comes on top of what the others have brought. */
  lemma LastPolled(r: Replica, vs: seq<Vote>, walks: seq<seq<nat>>, k: nat)
    requires |walks| == |vs| == k + 1 && Walked(r, vs, walks)
    ensures var p := Polled(r, vs[..k], walks[..k]);
            && Walked(r, vs[..k], walks[..k]) && Polled(r, vs, walks) == HandleVote(p, vs[k], walks[k]).next
            && IsOrdering(walks[k], Row(p.ballots, p.view)[vs[k].voter := vs[k]].Keys)
            && AcceptedVoters(r, vs) == AcceptedVoters(r, vs[..k]) + OneVoter(r, vs[k])
  {
    hide HandleVote;
    hide IsOrdering;
    assert vs == vs[..k] + [vs[k]];
    VotersMore(r, vs[..k], vs[k]);
  }

  lemma {:induction false} PollsAll(r: Replica, vs: seq<Vote>, walks: seq<seq<nat>>)
    requires Unpolled(r) && r.ballots.Keys == r.certified.Keys && |walks| == |vs| && Walked(r, vs, walks)
    ensures Tallied(r, Polled(r, vs, walks), AcceptedVoters(r, vs))
  {
    hide HandleVote;
    hide Tallied;
    hide Unpolled;
    if vs == [] {
      PollsNone(r);
      assert AcceptedVoters(r, vs) == {};
    } else {
      hide Walked;
      hide Polled;
      hide AcceptedVoters;
      var k := |vs| - 1;
      LastPolled(r, vs, walks, k);
      PollsAll(r, vs[..k], walks[..k]);
      PollsOne(r, Polled(r, vs[..k], walks[..k]), AcceptedVoters(r, vs[..k]), vs[k], walks[k]);
    }
  }

  lemma FrozenByOne(r: Replica, v: Vote, ids: seq<nat>)
    requires IsCertified(r) && r.view in r.ballots
    ensures SamePoll(r, HandleVote(r, v, ids).next)
  {}

  ghost predicate SamePoll(r: Replica, r': Replica) {
    r'.ledger == r.ledger && r'.ballots == r.ballots && r'.certified == r.certified && r'.view == r.view
  }

  lemma {:induction false} FrozenFrom(r: Replica, p: Replica, vs: seq<Vote>, walks: seq<seq<nat>>, k: nat)
    requires |walks| == |vs| && k <= |vs| && p == Polled(r, vs[..k], walks[..k]) && IsCertified(p)
             && p.view in p.ballots
    ensures SamePoll(p, Polled(r, vs, walks))
    decreases |vs|
  {
    if k == |vs| {
      assert vs[..k] == vs && walks[..k] == walks;
    } else {
      var l := |vs| - 1;
      assert vs[..l][..k] == vs[..k] && walks[..l][..k] == walks[..k];
      FrozenFrom(r, p, vs[..l], walks[..l], k);
      FrozenByOne(Polled(r, vs[..l], walks[..l]), vs[l], walks[l]);
    }
  }

  /** At most one certificate: once the first k votes have produced it, the others change
      neither it nor the poll behind it. */
  lemma CertificateFrozen(r: Replica, vs: seq<Vote>, walks: seq<seq<nat>>, k: nat)
    requires |walks| == |vs| && k <= |vs|
    requires var r' := Polled(r, vs[..k], walks[..k]); IsCertified(r') && r'.view in r'.ballots
    ensures SamePoll(Polled(r, vs[..k], walks[..k]), Polled(r, vs, walks))
  {
    FrozenFrom(r, Polled(r, vs[..k], walks[..k]), vs, walks, k);
  }

  /** `v` is the last vote counted: the poll before it is not above half, the poll with it is, and
      the certificate is the one made at that moment, for the hash and the view the vote names. */
  ghost predicate Tips(r: Replica, before: Replica, after: Replica, v: Vote, ids: seq<nat>) {
    var poll := Row(before.ballots, r.view)[v.voter := v];
    && !IsCertified(before) && Accepts(r, v) && v.voter !in Row(before.ballots, r.view)
    && !Outweighs(CurrentWeights(r), Row(before.ballots, r.view).Keys) && Outweighs(CurrentWeights(r), poll.Keys)
    && Row(after.ballots, r.view) == poll
    && Lookup(after.ledger.certs, r.view).Some? && Certifies(Lookup(after.ledger.certs, r.view).value, poll, v, ids)
  }

  /** The certificate is for the hash and the view of the vote, and has the votes of the poll in the
      order in which it was walked. */
  ghost predicate Certifies(c: Certificate, poll: map<nat, Vote>, v: Vote, ids: seq<nat>) {
    && c.hash == v.hash && c.view == v.view && c.ids == ids && |c.sigs| == |ids|
    && forall k :: 0 <= k < |ids| && ids[k] in poll ==> c.sigs[k] == poll[ids[k]].sig
  }

  ghost predicate TippedBy(r: Replica, vs: seq<Vote>, walks: seq<seq<nat>>, k: nat)
    requires |walks| == |vs|
  {
    k < |vs| && Tips(r, Polled(r, vs[..k], walks[..k]), Polled(r, vs, walks), vs[k], walks[k])
  }

  lemma CountTips(p: Replica, v: Vote, ids: seq<nat>)
    requires !IsCertified(p) && p.view in p.ballots && IsCertified(CountVote(p, v, ids))
    ensures var poll, r' := Row(p.ballots, p.view)[v.voter := v], CountVote(p, v, ids);
            && Outweighs(TableAt(p.reputation, p.view), poll.Keys) && Row(r'.ballots, p.view) == poll
            && Lookup(r'.ledger.certs, p.view) == Some(NewCert(poll, v.hash, v.view, ids))
  {}

  lemma NotAbove(r: Replica, p: Replica, voters: set<nat>)
    requires Tallied(r, p, voters)
    ensures SamePollster(r, p) && (!IsCertified(p) ==> !Outweighs(CurrentWeights(r), Row(p.ballots, r.view).Keys))
  {}

  lemma StrayKeepsPoll(p: Replica, v: Vote, ids: seq<nat>)
    requires v.owner != p.leader
    ensures HandleVote(p, v, ids).next == p
  {}

  lemma TipsNow(r: Replica, p: Replica, voters: set<nat>, v: Vote, ids: seq<nat>)
    requires Tallied(r, p, voters) && !IsCertified(p) && IsCertified(HandleVote(p, v, ids).next)
    ensures Tips(r, p, HandleVote(p, v, ids).next, v, ids)
  {
    hide Tallied;
    hide HandleVote;
    hide CountVote;
    NotAbove(r, p, voters);
    if v.owner != p.leader {
      StrayKeepsPoll(p, v, ids);
    } else {
      OpenPolled(p, v, ids);
      CountTips(Logging(OpenPoll(p), v.voter), v, ids);
    }
  }

  lemma TippedEarlier(r: Replica, vs: seq<Vote>, walks: seq<seq<nat>>, k: nat)
    requires |walks| == |vs| > 0 && TippedBy(r, vs[..|vs| - 1], walks[..|vs| - 1], k)
    requires SamePoll(Polled(r, vs[..|vs| - 1], walks[..|vs| - 1]), Polled(r, vs, walks))
    ensures TippedBy(r, vs, walks, k)
  {
    hide Polled;
    hide Accepts;
    hide Outweighs;
    hide NewCert;
    var l := |vs| - 1;
    assert vs[..l][..k] == vs[..k] && walks[..l][..k] == walks[..k];
  }

  /** A certificate is made at the vote that tips the scales, and no vote is counted after it. */
  lemma {:induction false} LastVoteTips(r: Replica, vs: seq<Vote>, walks: seq<seq<nat>>) returns (k: nat)
    requires Unpolled(r) && r.ballots.Keys == r.certified.Keys && |walks| == |vs| && Walked(r, vs, walks)
    requires IsCertified(Polled(r, vs, walks))
    ensures TippedBy(r, vs, walks, k)
  {
    if vs != [] {
      var l := |vs| - 1;
      var p := Polled(r, vs[..l], walks[..l]);
      PollsAll(r, vs[..l], walks[..l]);
      if IsCertified(p) {
        k := LastVoteTips(r, vs[..l], walks[..l]);
        FrozenByOne(p, vs[l], walks[l]);
        TippedEarlier(r, vs, walks, k);
      } else {
        k := l;
        TipsNow(r, p, AcceptedVoters(r, vs[..l]), vs[l], walks[l]);
      }
    }
  }

  /** Confluence: whatever the order and repetition of the votes, the view is certified if and
      only if the nodes with an accepted vote outweigh half the reputation. The certificate then
      is over the votes counted until it was made: distinct signers, more than half, and not more
      than half before the last of them. */
  lemma CertificationConfluent(r: Replica, vs: seq<Vote>, walks: seq<seq<nat>>)
    requires Unpolled(r) && r.ballots.Keys == r.certified.Keys && |walks| == |vs| && Walked(r, vs, walks)
    ensures var r', w := Polled(r, vs, walks), CurrentWeights(r);
            var poll := Row(r'.ballots, r.view);
            && (IsCertified(r') <==> Outweighs(w, AcceptedVoters(r, vs)))
            && (IsCertified(r') <==> r.view in r'.ledger.certs)
            && (IsCertified(r') <==> Outweighs(w, poll.Keys))
            && (IsCertified(r') ==> CertOf(w, poll, r'.ledger.certs[r.view]))
            && (IsCertified(r') ==> exists k :: TippedBy(r, vs, walks, k))
  {
    PollsAll(r, vs, walks);
    var r', w := Polled(r, vs, walks), CurrentWeights(r);
    if IsCertified(r') {
      SumMonotone(w, Row(r'.ballots, r.view).Keys, AcceptedVoters(r, vs));
      var k := LastVoteTips(r, vs, walks);
    }
  }

  lemma VotersAreNodes(r: Replica, vs: seq<Vote>)
    requires r.id < r.n
    ensures AcceptedVoters(r, vs) <= Nodes(r.n)
  {}

  /** While all reputations are equal, the weighted rule is a plain majority of the voters. */
  lemma EqualWeightsMajority(r: Replica, vs: seq<Vote>, walks: seq<seq<nat>>, c: real)
    requires Unpolled(r) && r.ballots.Keys == r.certified.Keys && |walks| == |vs| && Walked(r, vs, walks)
    requires r.id < r.n && CurrentWeights(r).Keys == Nodes(r.n) && c > 0.0
    requires forall id :: id in CurrentWeights(r) ==> CurrentWeights(r)[id] == c
    ensures IsCertified(Polled(r, vs, walks)) <==> 2 * |AcceptedVoters(r, vs)| > r.n
  {
    CertificationConfluent(r, vs, walks);
    VotersAreNodes(r, vs);
    UniformIsMajority(CurrentWeights(r), AcceptedVoters(r, vs), c);
    assert |CurrentWeights(r)| == |CurrentWeights(r).Keys|;
  }

  /** In the first view that is the rule at every node. */
  lemma FirstViewMajority(id: nat, n: nat, vs: seq<Vote>, walks: seq<seq<nat>>)
    requires id < n && |walks| == |vs| && Walked(Initial(id, n), vs, walks)
    ensures IsCertified(Polled(Initial(id, n), vs, walks)) <==> 2 * |AcceptedVoters(Initial(id, n), vs)| > n
  {
    EqualWeightsMajority(Initial(id, n), vs, walks, INITIAL_SCORE);
  }

  /** A certificate made from votes: distinct signers, all of them nodes, with more than half of
      the view's reputation. */
  ghost predicate MadeOfVotes(n: nat, w: Table, c: Certificate) {
    Distinct(c.ids) && Elements(c.ids) <= Nodes(n) && SeqSum(w, c.ids) > Half(w)
  }

  /** Two certificates of a view made from the same table share a signer, and each has a signer
      outside any group that holds at most half the reputation. */
  lemma CertificatesShareSigner(n: nat, w: Table, c: Certificate, c': Certificate, bad: set<nat>)
    requires NonNegative(w) && w.Keys == Nodes(n) && MadeOfVotes(n, w, c) && MadeOfVotes(n, w, c')
    ensures exists id :: id in c.ids && id in c'.ids
    ensures Sum(w, bad) <= Half(w) ==> exists id :: id in c.ids && id !in bad
  {
    SeqSumDistinct(w, c.ids);
    SeqSumDistinct(w, c'.ids);
    QuorumsIntersect(w, Elements(c.ids), Elements(c'.ids));
    var id :| id in Elements(c.ids) && id in Elements(c'.ids);
    assert id in c.ids && id in c'.ids;
    if Sum(w, bad) <= Half(w) {
      QuorumLeaves(w, Elements(c.ids), bad);
      var good :| good in Elements(c.ids) && good !in bad;
      assert good in c.ids;
    }
  }
}
