/** Which hash gets certified when votes name different ones. The code takes a vote for any hash, and
    of any view, as long as it names the leader; the certificate is for the hash of the vote that
    tips the scales, and which vote does can depend on the order of delivery. */
module CertifiedHashes {
  import opened Messages
  import opened Weights
  import opened Reputation
  import opened Replicas
  import opened Rounds
  import opened Certification

  ghost predicate Opens(r: Replica) {
    Unpolled(r) && r.ballots.Keys == r.certified.Keys
  }

  /** All the votes are delivered, in some order and with any repetition. */
  ghost predicate Delivers(vs: seq<Vote>, votes: set<Vote>) {
    forall v :: v in vs <==> v in votes
  }

  ghost predicate IsOrder(r: Replica, votes: set<Vote>, vs: seq<Vote>, walks: seq<seq<nat>>) {
    |walks| == |vs| && Delivers(vs, votes) && Walked(r, vs, walks)
  }

  ghost predicate CertifiesHash(r: Replica, vs: seq<Vote>, walks: seq<seq<nat>>, h: Hash)
    requires |walks| == |vs|
  {
    var r' := Polled(r, vs, walks);
    IsCertified(r') && r.view in r'.ledger.certs && r'.ledger.certs[r.view].hash == h
  }

  /** Some order of delivery certifies the hash. */
  ghost predicate CanCertify(r: Replica, votes: set<Vote>, h: Hash) {
    exists vs, walks :: IsOrder(r, votes, vs, walks) && CertifiesHash(r, vs, walks, h)
  }

  ghost function VotersAmong(r: Replica, votes: set<Vote>): set<nat> {
    set v | v in votes && Accepts(r, v) :: v.voter
  }

  /** The voters `s` are not above half, and with this vote they are. */
  ghost predicate TipsAfter(r: Replica, votes: set<Vote>, v: Vote, s: set<nat>) {
    && v in votes && Accepts(r, v) && s <= VotersAmong(r, votes) && v.voter !in s
    && !Outweighs(CurrentWeights(r), s) && Outweighs(CurrentWeights(r), s + {v.voter})
  }

  ghost predicate CanTip(r: Replica, votes: set<Vote>, h: Hash) {
    exists v, s :: TipsAfter(r, votes, v, s) && v.hash == h
  }

  // An order that certifies has a tipping vote

  lemma {:induction false} WalkedPrefix(r: Replica, vs: seq<Vote>, walks: seq<seq<nat>>, k: nat)
    requires |walks| == |vs| && k <= |vs| && Walked(r, vs, walks)
    ensures Walked(r, vs[..k], walks[..k])
    decreases |vs|
  {
    if k == |vs| {
      assert vs[..k] == vs && walks[..k] == walks;
    } else {
      var l := |vs| - 1;
      assert vs[..l][..k] == vs[..k] && walks[..l][..k] == walks[..k];
      WalkedPrefix(r, vs[..l], walks[..l], k);
    }
  }

  lemma PrefixVoters(r: Replica, votes: set<Vote>, vs: seq<Vote>, k: nat)
    requires Delivers(vs, votes) && k <= |vs|
    ensures AcceptedVoters(r, vs[..k]) <= VotersAmong(r, votes)
  {
    hide Accepts;
    assert forall v :: v in vs[..k] ==> v in vs;
  }

  lemma TippingVote(r: Replica, votes: set<Vote>, vs: seq<Vote>, walks: seq<seq<nat>>, k: nat)
    requires Opens(r) && IsOrder(r, votes, vs, walks) && TippedBy(r, vs, walks, k)
    ensures TipsAfter(r, votes, vs[k], Row(Polled(r, vs[..k], walks[..k]).ballots, r.view).Keys)
    ensures r.view in Polled(r, vs, walks).ledger.certs
    ensures Polled(r, vs, walks).ledger.certs[r.view].hash == vs[k].hash
  {
    hide Polled;
    hide Walked;
    hide Outweighs;
    hide Accepts;
    var p := Polled(r, vs[..k], walks[..k]);
    WalkedPrefix(r, vs, walks, k);
    PollsAll(r, vs[..k], walks[..k]);
    PollWithin(r, p, AcceptedVoters(r, vs[..k]));
    PrefixVoters(r, votes, vs, k);
    var poll := Row(p.ballots, r.view);
    assert poll[vs[k].voter := vs[k]].Keys == poll.Keys + {vs[k].voter};
  }

  lemma PollWithin(r: Replica, p: Replica, voters: set<nat>)
    requires Tallied(r, p, voters)
    ensures Row(p.ballots, r.view).Keys <= voters
    ensures SamePollster(r, p) && (IsCertified(p) ==> p.view in p.ballots)
    ensures !IsCertified(p) ==> Row(p.ballots, r.view).Keys == voters
  {}

  lemma CertifierTips(r: Replica, votes: set<Vote>, h: Hash)
    requires Opens(r) && CanCertify(r, votes, h)
    ensures CanTip(r, votes, h)
  {
    hide Polled;
    hide Walked;
    hide TippedBy;
    hide TipsAfter;
    var vs, walks :| IsOrder(r, votes, vs, walks) && CertifiesHash(r, vs, walks, h);
    var k := LastVoteTips(r, vs, walks);
    TippingVote(r, votes, vs, walks, k);
    TippedIndex(r, vs, walks, k);
    var s := Row(Polled(r, vs[..k], walks[..k]).ballots, r.view).Keys;
    assert TipsAfter(r, votes, vs[k], s);
  }

  lemma TippedIndex(r: Replica, vs: seq<Vote>, walks: seq<seq<nat>>, k: nat)
    requires |walks| == |vs| && TippedBy(r, vs, walks, k)
    ensures k < |vs|
  {
    hide Tips;
  }

  // A tipping vote has an order that certifies its hash

  lemma {:induction false} Walkable(r: Replica, vs: seq<Vote>) returns (walks: seq<seq<nat>>)
    ensures |walks| == |vs| && Walked(r, vs, walks)
  {
    if vs == [] {
      walks := [];
    } else {
      var k := |vs| - 1;
      var front := Walkable(r, vs[..k]);
      var p := Polled(r, vs[..k], front);
      walks := front + [OrderOf(Row(p.ballots, p.view)[vs[k].voter := vs[k]].Keys)];
      assert walks[..k] == front;
    }
  }

  lemma {:induction false} Listing(votes: set<Vote>) returns (vs: seq<Vote>)
    ensures Delivers(vs, votes)
  {
    if votes == {} {
      vs := [];
    } else {
      var v :| v in votes;
      vs := Listing(votes - {v});
      vs := vs + [v];
    }
  }

  /** One accepted vote of each of the voters. */
  lemma {:induction false} BallotsOf(r: Replica, votes: set<Vote>, s: set<nat>) returns (vs: seq<Vote>)
    requires s <= VotersAmong(r, votes)
    ensures AcceptedVoters(r, vs) == s && forall v :: v in vs ==> v in votes
    decreases s
  {
    if s == {} {
      vs := [];
      assert AcceptedVoters(r, vs) == {};
    } else {
      var id :| id in s;
      var v :| v in votes && Accepts(r, v) && v.voter == id;
      vs := BallotsOf(r, votes, s - {id});
      VotersMore(r, vs, v);
      vs := vs + [v];
    }
  }

  /** After exactly these voters the vote comes and makes the certificate. */
  lemma TipsThere(r: Replica, vs: seq<Vote>, walks: seq<seq<nat>>, k: nat, s: set<nat>)
    requires Opens(r) && |walks| == |vs| && Walked(r, vs, walks) && k < |vs| && AcceptedVoters(r, vs[..k]) == s
    requires Accepts(r, vs[k]) && !Outweighs(CurrentWeights(r), s) && Outweighs(CurrentWeights(r), s + {vs[k].voter})
    ensures var p := Polled(r, vs[..k + 1], walks[..k + 1]);
            && IsCertified(p) && p.view == r.view && p.view in p.ballots
            && Lookup(p.ledger.certs, r.view).Some? && Lookup(p.ledger.certs, r.view).value.hash == vs[k].hash
  {
    hide Polled;
    hide Walked;
    hide Outweighs;
    hide Accepts;
    hide HandleVote;
    hide AcceptedVoters;
    var front, ws := vs[..k], walks[..k];
    var next, ws' := vs[..k + 1], walks[..k + 1];
    assert next[..k] == front && ws'[..k] == ws && next[k] == vs[k] && ws'[k] == walks[k];
    WalkedPrefix(r, vs, walks, k);
    WalkedPrefix(r, vs, walks, k + 1);
    LastPolled(r, next, ws', k);
    CertificationConfluent(r, front, ws);
    CertificationConfluent(r, next, ws');
    AcceptsOne(r, vs[k]);
    PollsAll(r, front, ws);
    PollsAll(r, next, ws');
    PollWithin(r, Polled(r, next, ws'), AcceptedVoters(r, next));
    TipsNow(r, Polled(r, front, ws), AcceptedVoters(r, front), vs[k], walks[k]);
  }

  lemma AcceptsOne(r: Replica, v: Vote)
    requires Accepts(r, v)
    ensures OneVoter(r, v) == {v.voter}
  {}

  lemma TipperCertifies(r: Replica, votes: set<Vote>, v: Vote, s: set<nat>)
    requires Opens(r) && TipsAfter(r, votes, v, s)
    ensures CanCertify(r, votes, v.hash)
  {
    hide Polled;
    hide Walked;
    hide Outweighs;
    hide Accepts;
    hide AcceptedVoters;
    hide VotersAmong;
    hide Opens;
    var front := BallotsOf(r, votes, s);
    var rest := Listing(votes);
    var vs, k := front + [v] + rest, |front|;
    var walks := Walkable(r, vs);
    assert vs[..k] == front && vs[k] == v;
    TipsThere(r, vs, walks, k, s);
    CertificateFrozen(r, vs, walks, k + 1);
    Everything(front, v, rest, votes);
    assert IsOrder(r, votes, vs, walks) && CertifiesHash(r, vs, walks, v.hash);
  }

  lemma Everything(front: seq<Vote>, v: Vote, rest: seq<Vote>, votes: set<Vote>)
    requires Delivers(rest, votes) && v in votes && forall x :: x in front ==> x in votes
    ensures Delivers(front + [v] + rest, votes)
  {}

  /** Some order of the votes certifies a hash if and only if an accepted vote naming it can be the one
      that tips the scales. */
  lemma CertifiableIff(r: Replica, votes: set<Vote>, h: Hash)
    requires Opens(r)
    ensures CanCertify(r, votes, h) <==> CanTip(r, votes, h)
  {
    hide CanCertify;
    hide TipsAfter;
    if CanCertify(r, votes, h) {
      CertifierTips(r, votes, h);
    }
    if CanTip(r, votes, h) {
      var v, s :| TipsAfter(r, votes, v, s) && v.hash == h;
      TipperCertifies(r, votes, v, s);
    }
  }

  /** Every order certifies the hash. */
  ghost predicate MustCertify(r: Replica, votes: set<Vote>, h: Hash) {
    forall vs, walks :: IsOrder(r, votes, vs, walks) ==> CertifiesHash(r, vs, walks, h)
  }

  lemma DeliveredVoters(r: Replica, votes: set<Vote>, vs: seq<Vote>)
    requires Delivers(vs, votes)
    ensures AcceptedVoters(r, vs) == VotersAmong(r, votes)
  {
    hide Accepts;
  }

  lemma CertifiedOrder(r: Replica, votes: set<Vote>, vs: seq<Vote>, walks: seq<seq<nat>>)
    requires Opens(r) && IsOrder(r, votes, vs, walks)
    ensures var r' := Polled(r, vs, walks);
            && (IsCertified(r') <==> Outweighs(CurrentWeights(r), VotersAmong(r, votes)))
            && (IsCertified(r') <==> r.view in r'.ledger.certs)
  {
    hide Polled;
    hide Walked;
    hide Outweighs;
    DeliveredVoters(r, votes, vs);
    CertificationConfluent(r, vs, walks);
  }

  lemma OnlyHash(r: Replica, votes: set<Vote>, h: Hash, vs: seq<Vote>, walks: seq<seq<nat>>)
    requires Opens(r) && IsOrder(r, votes, vs, walks) && Outweighs(CurrentWeights(r), VotersAmong(r, votes))
    requires forall h' :: CanTip(r, votes, h') ==> h' == h
    ensures CertifiesHash(r, vs, walks, h)
  {
    hide Polled;
    hide Walked;
    hide Delivers;
    hide Opens;
    hide CanTip;
    hide Outweighs;
    CertifiedOrder(r, votes, vs, walks);
    var h' := Polled(r, vs, walks).ledger.certs[r.view].hash;
    assert CertifiesHash(r, vs, walks, h');
    assert CanCertify(r, votes, h');
    CertifiableIff(r, votes, h');
  }

  /** All orders certify one hash if and only if the voters outweigh half and every vote that can tip
      the scales names it. */
  lemma CertainIff(r: Replica, votes: set<Vote>, h: Hash)
    requires Opens(r)
    ensures MustCertify(r, votes, h)
       <==> Outweighs(CurrentWeights(r), VotersAmong(r, votes)) && (forall h' :: CanTip(r, votes, h') ==> h' == h)
  {
    hide Opens;
    hide Walked;
    hide Delivers;
    hide Polled;
    hide CanTip;
    hide CertifiesHash;
    hide Outweighs;
    if MustCertify(r, votes, h) {
      var vs := Listing(votes);
      var walks := Walkable(r, vs);
      CertifiedOrder(r, votes, vs, walks);
      CertifiedThere(r, vs, walks, h);
      forall h' | CanTip(r, votes, h')
        ensures h' == h
      {
        CertifiableIff(r, votes, h');
        var vs', walks' :| IsOrder(r, votes, vs', walks') && CertifiesHash(r, vs', walks', h');
        OneCertificate(r, vs', walks', h, h');
      }
    }
    if Outweighs(CurrentWeights(r), VotersAmong(r, votes)) && forall h' :: CanTip(r, votes, h') ==> h' == h {
      forall vs, walks | IsOrder(r, votes, vs, walks)
        ensures CertifiesHash(r, vs, walks, h)
      {
        OnlyHash(r, votes, h, vs, walks);
      }
    }
  }

  lemma CertifiedThere(r: Replica, vs: seq<Vote>, walks: seq<seq<nat>>, h: Hash)
    requires |walks| == |vs| && CertifiesHash(r, vs, walks, h)
    ensures IsCertified(Polled(r, vs, walks))
  {
    hide Polled;
  }

  lemma OneCertificate(r: Replica, vs: seq<Vote>, walks: seq<seq<nat>>, h: Hash, h': Hash)
    requires |walks| == |vs| && CertifiesHash(r, vs, walks, h) && CertifiesHash(r, vs, walks, h')
    ensures h == h'
  {
    hide Polled;
  }

  // Two nodes

  /** The two nodes weigh and accept the votes alike. */
  ghost predicate SameView(r: Replica, r': Replica, votes: set<Vote>) {
    && CurrentWeights(r') == CurrentWeights(r)
    && forall v :: v in votes ==> (Accepts(r', v) <==> Accepts(r, v))
  }

  lemma SameTips(r: Replica, r': Replica, votes: set<Vote>, h: Hash)
    requires SameView(r, r', votes)
    ensures CanTip(r, votes, h) <==> CanTip(r', votes, h)
  {
    hide Outweighs;
    hide Accepts;
    assert VotersAmong(r, votes) == VotersAmong(r', votes);
    forall v, s
      ensures TipsAfter(r, votes, v, s) <==> TipsAfter(r', votes, v, s)
    {}
  }

  ghost predicate CertifyAlike(r: Replica, r': Replica, votes: set<Vote>) {
    forall h, h' :: CanCertify(r, votes, h) && CanCertify(r', votes, h') ==> h == h'
  }

  ghost predicate TipAlike(r: Replica, votes: set<Vote>) {
    forall h, h' :: CanTip(r, votes, h) && CanTip(r, votes, h') ==> h == h'
  }

  /** Two nodes that get the same votes certify the same hash in all orders of delivery if and only if
      all votes that can tip the scales name one hash. */
  lemma CertifyAlikeIff(r: Replica, r': Replica, votes: set<Vote>)
    requires Opens(r) && Opens(r') && SameView(r, r', votes)
    ensures CertifyAlike(r, r', votes) <==> TipAlike(r, votes)
  {
    hide Opens;
    hide SameView;
    hide CanCertify;
    hide CanTip;
    forall h
      ensures CanCertify(r, votes, h) <==> CanTip(r, votes, h)
      ensures CanCertify(r', votes, h) <==> CanTip(r, votes, h)
    {
      CertifiableIff(r, votes, h);
      CertifiableIff(r', votes, h);
      SameTips(r, r', votes, h);
    }
  }

  /** The hash of the first leader's block. */
  function FirstHash(): Hash {
    Digest(Header("", 1, EmptyHash))
  }

  /** Three votes in the first view, the last for another hash. */
  function MixedVotes(): set<Vote> {
    {CastVote(0, FirstHash(), 1, 0), CastVote(1, FirstHash(), 1, 0), CastVote(2, Invalid, 1, 0)}
  }

  lemma FirstMajority(id: nat, s: set<nat>)
    requires id < 3 && s <= Nodes(3)
    ensures Outweighs(CurrentWeights(Initial(id, 3)), s) <==> 2 * |s| > 3
  {
    var w := CurrentWeights(Initial(id, 3));
    assert w.Keys == Nodes(3);
    assert |w| == |w.Keys|;
    UniformIsMajority(w, s, INITIAL_SCORE);
  }

  lemma SecondTips(id: nat, v: Vote, first: nat)
    requires id < 3 && v in MixedVotes() && first < 3 && first != v.voter
    ensures TipsAfter(Initial(id, 3), MixedVotes(), v, {first})
  {
    hide Outweighs;
    var r := Initial(id, 3);
    assert first in Nodes(3) && v.voter in Nodes(3);
    FirstMajority(id, {first});
    FirstMajority(id, {first} + {v.voter});
    assert |{first} + {v.voter}| == 2;
    MixedVoters(r, first);
  }

  lemma MixedVoters(r: Replica, first: nat)
    requires first < 3 && r.leader == 0 && r.n == 3
    ensures first in VotersAmong(r, MixedVotes())
  {
    var a, b, c := CastVote(0, FirstHash(), 1, 0), CastVote(1, FirstHash(), 1, 0), CastVote(2, Invalid, 1, 0);
    assert a in MixedVotes() && b in MixedVotes() && c in MixedVotes();
    assert Accepts(r, a) && Accepts(r, b) && Accepts(r, c);
  }

  lemma FirstOpens(id: nat)
    ensures Opens(Initial(id, 3))
  {}

  /** A single vote for another hash lets two nodes with all three votes certify different hashes. */
  lemma MixedVotesSplit()
    ensures CanCertify(Initial(1, 3), MixedVotes(), FirstHash()) && CanCertify(Initial(2, 3), MixedVotes(), Invalid)
  {
    var v, w := CastVote(1, FirstHash(), 1, 0), CastVote(2, Invalid, 1, 0);
    FirstOpens(1);
    FirstOpens(2);
    hide Opens;
    hide CanCertify;
    SecondTips(1, v, 0);
    SecondTips(2, w, 0);
    hide TipsAfter;
    TipperCertifies(Initial(1, 3), MixedVotes(), v, {0});
    TipperCertifies(Initial(2, 3), MixedVotes(), w, {0});
  }
}
