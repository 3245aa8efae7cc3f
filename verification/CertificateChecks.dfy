/** What a certificate must show before anybody builds on it: for a block that is not an empty one,
    a well-formed signature of every signer, and signers with more than half of the previous view's
    reputation. */
module CertificateChecks {
  import opened Messages
  import opened Weights
  import opened Reputation
  import opened Replicas
  import opened Rounds
  import opened RoundEnds
  import opened Runs
  import opened Safety
  import opened Agreement

  /** A known block that is not an empty one. */
  predicate IsNormal(byHash: map<Hash, Block>, h: Hash) {
    h != EmptyHash && h in byHash && |byHash[h].header.extra| != 1
  }

  lemma {:induction false} SignatureAt(ids: seq<nat>, sigs: seq<Signature>, k: nat)
    requires Distinct(ids) && |ids| <= |sigs| && k < |ids|
    ensures SignatureOf(ids, sigs, ids[k]) == sigs[k]
  {
    if k < |ids| - 1 {
      SignatureAt(ids[..|ids| - 1], sigs, k);
    }
  }

  /** A certificate of distinct signers for a normal block is accepted if and only if it has a
      well-formed signature of each and they hold more than half of the reputation. */
  lemma CertValidIff(byHash: map<Hash, Block>, w: Table, c: Certificate)
    requires IsNormal(byHash, c.hash) && Distinct(c.ids)
    ensures IsCertValid(byHash, w, c)
       <==> && |c.ids| <= |c.sigs| && (forall k :: 0 <= k < |c.ids| ==> c.sigs[k].Signed?)
            && Sum(w, Elements(c.ids)) > Sum(w, w.Keys) / 2.0
  {
    SeqSumDistinct(w, c.ids);
    if |c.ids| <= |c.sigs| {
      forall k | 0 <= k < |c.ids|
        ensures SignatureOf(c.ids, c.sigs, c.ids[k]) == c.sigs[k]
      {
        SignatureAt(c.ids, c.sigs, k);
      }
    }
  }

  /** One for a block the node does not know is refused, and one for the genesis block or an empty
      block is accepted whatever it shows. */
  lemma OtherCertificates(byHash: map<Hash, Block>, w: Table, c: Certificate)
    ensures c.hash != EmptyHash && c.hash !in byHash ==> !IsCertValid(byHash, w, c)
    ensures c.hash == EmptyHash || (c.hash in byHash && |byHash[c.hash].header.extra| == 1) ==>
              IsCertValid(byHash, w, c)
  {}

  /** The source counts a repeated signer again: a quarter of the reputation, three times. */
  lemma RepeatedSignerAccepted(byHash: map<Hash, Block>, h: Hash, sig: Signature)
    requires IsNormal(byHash, h) && sig.Signed?
    ensures IsCertValid(byHash, InitialTable(4), Certificate(h, 1, [0, 0, 0], [sig, sig, sig]))
  {
    var w, ids := InitialTable(4), [0, 0, 0];
    assert w.Keys == Nodes(4);
    SumUniform(w, w.Keys, INITIAL_SCORE);
    assert ids[..2] == [0, 0] && ids[..2][..1] == [0] && ids[..2][..1][..0] == [];
    assert 0 in Nodes(4);
    assert SeqSum(w, [0]) == INITIAL_SCORE;
    assert SeqSum(w, [0, 0]) == 2.0 * INITIAL_SCORE;
    assert SeqSum(w, ids) == 3.0 * INITIAL_SCORE;
  }

  lemma {:induction false} SumInside(w: Table, s: set<nat>)
    ensures Sum(w, s) == Sum(w, s * w.Keys)
    decreases s
  {
    if s == {} {
      assert s * w.Keys == {};
    } else {
      var x :| x in s;
      SumAt(w, s, x);
      SumInside(w, s - {x});
      if x in w {
        SumAt(w, s * w.Keys, x);
        assert s * w.Keys - {x} == (s - {x}) * w.Keys;
      } else {
        assert s * w.Keys == (s - {x}) * w.Keys;
      }
    }
  }

  /** Two accepted certificates for normal blocks share a signer. */
  lemma AcceptedShareSigner(byHash: map<Hash, Block>, byHash': map<Hash, Block>, w: Table, c: Certificate,
                            c': Certificate)
    requires NonNegative(w) && IsNormal(byHash, c.hash) && IsNormal(byHash', c'.hash)
    requires Distinct(c.ids) && Distinct(c'.ids) && IsCertValid(byHash, w, c) && IsCertValid(byHash', w, c')
    ensures exists id :: id in c.ids && id in c'.ids
  {
    hide IsCertValid;
    CertValidIff(byHash, w, c);
    CertValidIff(byHash', w, c');
    var s, t := Elements(c.ids) * w.Keys, Elements(c'.ids) * w.Keys;
    SumInside(w, Elements(c.ids));
    SumInside(w, Elements(c'.ids));
    QuorumsIntersect(w, s, t);
    var id :| id in s && id in t;
    assert id in c.ids && id in c'.ids;
  }

  /** An accepted certificate for a normal block is not the work of a group that holds at most half of
      the reputation. */
  lemma AcceptedNotBy(byHash: map<Hash, Block>, w: Table, c: Certificate, bad: set<nat>)
    requires NonNegative(w) && IsNormal(byHash, c.hash) && Distinct(c.ids) && IsCertValid(byHash, w, c)
    requires Sum(w, bad) <= Sum(w, w.Keys) / 2.0
    ensures exists id :: id in c.ids && id !in bad
  {
    hide IsCertValid;
    CertValidIff(byHash, w, c);
    QuorumLeaves(w, Elements(c.ids), bad);
    var id :| id in Elements(c.ids) && id !in bad;
    assert id in c.ids;
  }

  // What a node forwards and collects

  /** The proposal builds on the genesis block, an empty block, or a block with signers outside any
      group that holds at most half of the table. */
  ghost predicate WellFounded(byHash: map<Hash, Block>, w: Table, p: Proposal) {
    || p.evidence.hash == EmptyHash
    || (p.evidence.hash in byHash && |byHash[p.evidence.hash].header.extra| == 1)
    || (p.evidence.hash in byHash && NotByLight(w, p.evidence))
  }

  ghost predicate NotByLight(w: Table, c: Certificate) {
    NonNegative(w) && Distinct(c.ids) ==>
      forall bad: set<nat> :: Sum(w, bad) <= Sum(w, w.Keys) / 2.0 ==> SignedOutside(c, bad)
  }

  ghost predicate SignedOutside(c: Certificate, bad: set<nat>) {
    exists id :: id in c.ids && id !in bad
  }

  lemma ValidIsFounded(byHash: map<Hash, Block>, w: Table, p: Proposal)
    requires IsCertValid(byHash, w, p.evidence)
    ensures WellFounded(byHash, w, p)
  {
    var c := p.evidence;
    if IsNormal(byHash, c.hash) && NonNegative(w) && Distinct(c.ids) {
      forall bad: set<nat> | Sum(w, bad) <= Sum(w, w.Keys) / 2.0
        ensures SignedOutside(c, bad)
      {
        AcceptedNotBy(byHash, w, c, bad);
      }
    } else {
      OtherCertificates(byHash, w, c);
    }
  }

  /** A node sends on, and collects forwards of, well-founded proposals only. */
  lemma ForwardsFounded(r: Replica, p: Proposal)
    ensures Forward(r, p).out != {} ==> WellFounded(r.ledger.byHash, PreviousTable(r.reputation, r.view), p)
    ensures HandleForward(r, p) != Outcome(r, {}) ==>
              WellFounded(r.ledger.byHash, PreviousTable(r.reputation, r.view), p)
  {
    hide WellFounded;
    hide IsCertValid;
    if IsCertValid(r.ledger.byHash, PreviousTable(r.reputation, r.view), p.evidence) {
      ValidIsFounded(r.ledger.byHash, PreviousTable(r.reputation, r.view), p);
    }
  }

  lemma ParentKnown(b: Base)
    requires BaseOk(b) && b.view > 1
    ensures b.view - 1 in b.byHeight && b.view - 1 in b.certHash && b.certHash[b.view - 1] in b.byHash
    ensures b.byHash[b.certHash[b.view - 1]] == b.byHeight[b.view - 1]
    ensures b.certHash[b.view - 1] == BlockHash(b.byHeight[b.view - 1]) != EmptyHash
    ensures Parent(b) == b.certHash[b.view - 1]
  {
    assert b.view - 1 in b.byHeight;
    assert Linked(b, b.view - 1);
  }

  /** The certificate of a forward that counts is for the block committed in the view before, and
      unless that is an empty one, it is not the work of a group with at most half of that view's
      reputation. */
  ghost predicate BuildsOnCommitted(b: Base, p: Proposal) {
    b.view > 1 ==>
      && b.view - 1 in b.byHeight && b.view - 1 in b.reputation && p.evidence.hash == BlockHash(b.byHeight[b.view - 1])
      && (|b.byHeight[b.view - 1].header.extra| == 1 || NotByLight(b.reputation[b.view - 1], p.evidence))
  }

  lemma ForwardBuilds(b: Base, p: Proposal)
    requires BaseOk(b) && WellBuilt(b, p) && AcceptableAt(b, p)
    ensures BuildsOnCommitted(b, p)
  {
    ValidIsFounded(b.byHash, PreviousTable(b.reputation, b.view), p);
    hide IsCertValid;
    hide NotByLight;
    if b.view > 1 {
      ParentKnown(b);
      assert b.view - 1 in b.reputation;
    }
  }

  /** In every state of a run all forwards that count build on the committed block. */
  lemma RunForwardsFounded(cfg: Config, states: seq<System>, actions: seq<Action>, k: nat, m: Msg)
    requires IsRun(cfg, states, actions) && k < |states| && m in states[k].pool && IsForward(states[k].base, m)
    ensures BuildsOnCommitted(states[k].base, m.p)
  {
    hide IsRun;
    hide Inv;
    hide History;
    hide BaseOk;
    hide AcceptableAt;
    hide BuildsOnCommitted;
    RunGood(cfg, states, actions, k);
    BaseHolds(cfg, states[k]);
    assert m in Hear(states[k].base, states[k].pool).forwards;
    ForwardBuilds(states[k].base, m.p);
  }
}
