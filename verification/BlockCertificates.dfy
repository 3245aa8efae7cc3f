/** The certificate object: votes are collected in slices and in a lookup map, and the
    communicated form is cached. The map and the cache never disagree with the slices. */
module BlockCertificates {
  import opened Messages
  import opened Weights
  import opened Replicas
  import opened Rounds

  /** The fields of a certificate object; `valid` is unset until the cache is first used. */
  datatype Fields = Fields(
    hash: Hash,
    view: nat,
    ids: seq<nat>,
    sigs: seq<Signature>,
    voteMap: map<nat, Signature>,
    proto: Option<Certificate>,
    valid: Option<bool>)

  const NEW_FIELDS := Fields(EmptyHash, 0, [], [], map[], None, None)

  /** The communicated form built from the current fields. */
  function Rebuilt(s: Fields): Certificate {
    Certificate(s.hash, s.view, s.ids, s.sigs)
  }

  function WithInfo(s: Fields, hash: Hash, view: nat): Fields {
    s.(hash := hash, view := view, valid := Some(false))
  }

  function WithVote(s: Fields, voter: nat, sig: Signature): Fields {
    s.(ids := s.ids + [voter], sigs := s.sigs + [sig], voteMap := s.voteMap[voter := sig], valid := Some(false))
  }

  /** The lookup map over the first k entries; of a repeated identity the last signature. */
  function LookupMap(ids: seq<nat>, sigs: seq<Signature>, k: nat): map<nat, Signature>
    requires k <= |ids| && k <= |sigs|
  {
    if k == 0 then map[] else LookupMap(ids, sigs, k - 1)[ids[k - 1] := sigs[k - 1]]
  }

  /** Loading keeps the validity flag as it was. */
  function Loaded(s: Fields, c: Certificate): Fields
    requires |c.ids| <= |c.sigs|
  {
    Fields(c.hash, c.view, c.ids, c.sigs, LookupMap(c.ids, c.sigs, |c.ids|), Some(c), s.valid)
  }

  predicate Cached(s: Fields) {
    s.valid == Some(true) && s.proto.Some? && |s.proto.value.ids| == |s.ids|
  }

  function Emitted(s: Fields): Certificate {
    if Cached(s) then s.proto.value else Rebuilt(s)
  }

  function AfterEmit(s: Fields): Fields {
    s.(proto := Some(Emitted(s)), valid := Some(true))
  }

  class BlockCertificate {
    var hash: Hash
    var view: nat
    var ids: seq<nat>
    var sigs: seq<Signature>
    var voteMap: map<nat, Signature>
    var proto: Option<Certificate>
    var valid: Option<bool>

    function State(): Fields
      reads this
    {
      Fields(hash, view, ids, sigs, voteMap, proto, valid)
    }

    constructor ()
      ensures State() == NEW_FIELDS
    {
      hash, view, ids, sigs, voteMap, proto, valid := EmptyHash, 0, [], [], map[], None, None;
    }

    method SetBlockInfo(hash: Hash, view: nat)
      modifies this
      ensures State() == WithInfo(old(State()), hash, view)
    {
      this.hash := hash;
      this.view := view;
      valid := Some(false);
    }

    method AddSignature(signer: nat, signature: Signature)
      modifies this
      ensures State() == WithVote(old(State()), signer, signature)
    {
      ids := ids + [signer];
      sigs := sigs + [signature];
      voteMap := voteMap[signer := signature];
      valid := Some(false);
    }

    method AddVote(v: Vote)
      modifies this
      ensures State() == WithVote(old(State()), v.voter, v.sig)
    {
      AddSignature(v.voter, v.sig);
      valid := Some(false);
    }

    /** A cache of the wrong size is flushed and the call repeated, once. */
    method ToProto() returns (c: Certificate)
      modifies this
      ensures c == Emitted(old(State())) && State() == AfterEmit(old(State()))
      decreases if valid == Some(true) then 1 else 0
    {
      var isValid := valid.Some? && valid.value;
      if proto.None? || !isValid {
        c := Certificate(hash, view, ids, sigs);
        proto := Some(c);
        valid := Some(true);
        return;
      }
      c := proto.value;
      if |c.ids| != |ids| {
        valid := Some(false);
        c := ToProto();
      }
    }

    /** The list of signatures must be at least as long as that of the signers. */
    method FromProto(data: Certificate)
      requires |data.ids| <= |data.sigs|
      modifies this
      ensures State() == Loaded(old(State()), data)
    {
      voteMap := map[];
      hash, view := data.hash, data.view;
      ids := data.ids;
      sigs := data.sigs;
      for idx := 0 to |data.ids|
        invariant hash == data.hash && view == data.view && ids == data.ids && sigs == data.sigs
        invariant proto == old(proto) && valid == old(valid)
        invariant voteMap == LookupMap(data.ids, data.sigs, idx)
      {
        voteMap := voteMap[data.ids[idx] := sigs[idx]];
      }
      proto := Some(data);
    }

    method GetSignatureFromID(id: nat) returns (sig: Option<Signature>)
      ensures sig == if id in voteMap then Some(voteMap[id]) else None
      ensures var s := State();
              Consistent(s) ==> sig == if id in s.ids then Some(SignatureOf(s.ids, s.sigs, id)) else None
    {
      assert id in Elements(State().ids) <==> id in State().ids;
      if id in voteMap {
        return Some(voteMap[id]);
      }
      return None;
    }
  }

  // What any use of the object keeps

  datatype Use =
    | SetInfo(hash: Hash, view: nat)
    | Ballot(voter: nat, sig: Signature)
    | Load(c: Certificate)
    | Emit

  predicate WellFormed(u: Use) {
    u.Load? ==> |u.c.ids| == |u.c.sigs|
  }

  function Used(s: Fields, u: Use): Fields
    requires WellFormed(u)
  {
    match u
    case SetInfo(hash, view) => WithInfo(s, hash, view)
    case Ballot(voter, sig) => WithVote(s, voter, sig)
    case Load(c) => Loaded(s, c)
    case Emit => AfterEmit(s)
  }

  function UsedAll(s: Fields, us: seq<Use>): Fields
    requires forall u :: u in us ==> WellFormed(u)
  {
    if us == [] then s else Used(UsedAll(s, us[..|us| - 1]), us[|us| - 1])
  }

  /** The map answers for exactly the signers, with their last signature, and a cache marked
      valid is what would be rebuilt. */
  ghost predicate Consistent(s: Fields) {
    && |s.ids| == |s.sigs| && s.voteMap.Keys == Elements(s.ids)
    && (forall id :: id in s.voteMap ==> s.voteMap[id] == SignatureOf(s.ids, s.sigs, id))
    && (s.valid == Some(true) && s.proto.Some? ==> s.proto.value == Rebuilt(s))
  }

  lemma {:induction false} SignatureOfMore(ids: seq<nat>, sigs: seq<Signature>, more: seq<Signature>, id: nat)
    requires |ids| <= |sigs|
    ensures SignatureOf(ids, sigs + more, id) == SignatureOf(ids, sigs, id)
  {
    if ids != [] {
      SignatureOfMore(ids[..|ids| - 1], sigs, more, id);
    }
  }

  lemma ElementsMore(ids: seq<nat>, id: nat)
    ensures Elements(ids + [id]) == Elements(ids) + {id}
  {}

  lemma VoteKeeps(s: Fields, voter: nat, sig: Signature)
    requires Consistent(s)
    ensures Consistent(WithVote(s, voter, sig))
  {
    var t := WithVote(s, voter, sig);
    ElementsMore(s.ids, voter);
    assert t.ids[..|t.ids| - 1] == s.ids;
    forall id | id in t.voteMap
      ensures t.voteMap[id] == SignatureOf(t.ids, t.sigs, id)
    {
      SignatureOfMore(s.ids, s.sigs, [sig], id);
    }
  }

  lemma {:induction false} LookupMapRight(ids: seq<nat>, sigs: seq<Signature>, k: nat)
    requires k <= |ids| && |ids| <= |sigs|
    ensures LookupMap(ids, sigs, k).Keys == Elements(ids[..k])
    ensures forall id :: id in LookupMap(ids, sigs, k) ==>
              LookupMap(ids, sigs, k)[id] == SignatureOf(ids[..k], sigs, id)
  {
    if k > 0 {
      LookupMapRight(ids, sigs, k - 1);
      assert ids[..k] == ids[..k - 1] + [ids[k - 1]];
      assert ids[..k][..k - 1] == ids[..k - 1];
      ElementsMore(ids[..k - 1], ids[k - 1]);
    }
  }

  lemma LoadKeeps(s: Fields, c: Certificate)
    requires |c.ids| == |c.sigs|
    ensures Consistent(Loaded(s, c))
  {
    LookupMapRight(c.ids, c.sigs, |c.ids|);
    assert c.ids[..|c.ids|] == c.ids;
  }

  lemma {:induction false} AlwaysConsistent(us: seq<Use>)
    requires forall u :: u in us ==> WellFormed(u)
    ensures Consistent(UsedAll(NEW_FIELDS, us))
  {
    if us != [] {
      var front, u := us[..|us| - 1], us[|us| - 1];
      AlwaysConsistent(front);
      var s := UsedAll(NEW_FIELDS, front);
      assert WellFormed(u);
      match u
      case SetInfo(_, _) =>
      case Ballot(voter, sig) => VoteKeeps(s, voter, sig);
      case Load(c) => LoadKeeps(s, c);
      case Emit =>
    }
  }

  /** Whatever was done to the object before, the communicated form is the one a fresh rebuild
      gives, emitting changes nothing it is built from, and the map holds a signature for
      exactly the signers. */
  lemma CacheCorrect(us: seq<Use>, id: nat)
    requires forall u :: u in us ==> WellFormed(u)
    ensures var s := UsedAll(NEW_FIELDS, us);
            && Emitted(s) == Rebuilt(s) && Rebuilt(AfterEmit(s)) == Rebuilt(s) && Emitted(AfterEmit(s)) == Emitted(s)
            && |s.ids| == |s.sigs| && (id in s.voteMap <==> id in s.ids)
            && (id in s.ids ==> s.voteMap[id] == SignatureOf(s.ids, s.sigs, id))
  {
    AlwaysConsistent(us);
    var s := UsedAll(NEW_FIELDS, us);
    assert id in Elements(s.ids) <==> id in s.ids;
  }

  // What was put in is what comes out

  /** The hash and view set last, by hand or by loading. */
  function LastInfo(us: seq<Use>): (Hash, nat) {
    if us == [] then (EmptyHash, 0)
    else
      match us[|us| - 1]
      case SetInfo(hash, view) => (hash, view)
      case Load(c) => (c.hash, c.view)
      case _ => LastInfo(us[..|us| - 1])
  }

  /** The votes since the last loading, on top of those loaded. */
  function VotesPut(us: seq<Use>): (seq<nat>, seq<Signature>) {
    if us == [] then ([], [])
    else
      var before := VotesPut(us[..|us| - 1]);
      match us[|us| - 1]
      case Ballot(voter, sig) => (before.0 + [voter], before.1 + [sig])
      case Load(c) => (c.ids, c.sigs)
      case _ => before
  }

  /** Whether the cache is marked valid: since it was emitted, nothing was set or added. */
  function MarkedValid(us: seq<Use>): bool {
    if us == [] then false
    else
      match us[|us| - 1]
      case Emit => true
      case Load(_) => MarkedValid(us[..|us| - 1])
      case _ => false
  }

  lemma {:induction false} FieldsPut(us: seq<Use>)
    requires forall u :: u in us ==> WellFormed(u)
    ensures var s := UsedAll(NEW_FIELDS, us);
            && (s.hash, s.view) == LastInfo(us) && (s.ids, s.sigs) == VotesPut(us)
            && (s.valid == Some(true) <==> MarkedValid(us))
  {
    if us != [] {
      FieldsPut(us[..|us| - 1]);
      assert WellFormed(us[|us| - 1]);
    }
  }

  /** Whatever the object was used for: what it communicates is the hash and view set last and the votes
      in the order they came, those of the last certificate loaded first. */
  lemma EmitsWhatWasPut(us: seq<Use>)
    requires forall u :: u in us ==> WellFormed(u)
    ensures Emitted(UsedAll(NEW_FIELDS, us))
         == Certificate(LastInfo(us).0, LastInfo(us).1, VotesPut(us).0, VotesPut(us).1)
  {
    FieldsPut(us);
    CacheCorrect(us, 0);
  }

  /** Sent and received, a certificate is the same on the other side, whatever either object was
      used for before. */
  lemma RoundTrip(us: seq<Use>, vs: seq<Use>)
    requires (forall u :: u in us ==> WellFormed(u)) && (forall v :: v in vs ==> WellFormed(v))
    ensures var s, t := UsedAll(NEW_FIELDS, us), UsedAll(NEW_FIELDS, vs);
            && |Emitted(s).ids| <= |Emitted(s).sigs|
            && var t' := Loaded(t, Emitted(s));
               Rebuilt(t') == Rebuilt(s) && Emitted(t') == Emitted(s) && t'.voteMap == s.voteMap
  {
    AlwaysConsistent(us);
    AlwaysConsistent(vs);
    var s := UsedAll(NEW_FIELDS, us);
    LoadKeeps(UsedAll(NEW_FIELDS, vs), Emitted(s));
  }

  // Building a certificate from a poll

  ghost function BuiltFrom(votes: map<nat, Vote>, walk: seq<nat>, hash: Hash, view: nat): Certificate
    requires forall k :: 0 <= k < |walk| ==> walk[k] in votes
  {
    Certificate(hash, view, seq(|walk|, k requires 0 <= k < |walk| => votes[walk[k]].voter),
                seq(|walk|, k requires 0 <= k < |walk| => votes[walk[k]].sig))
  }

  lemma BuiltMore(votes: map<nat, Vote>, walk: seq<nat>, j: nat, hash: Hash, view: nat)
    requires (forall k :: 0 <= k < |walk| ==> walk[k] in votes) && j in votes
    ensures var c, d := BuiltFrom(votes, walk, hash, view), BuiltFrom(votes, walk + [j], hash, view);
            d.ids == c.ids + [votes[j].voter] && d.sigs == c.sigs + [votes[j].sig]
  {}

  lemma BuiltIsNewCert(votes: map<nat, Vote>, walk: seq<nat>, hash: Hash, view: nat)
    requires forall k :: 0 <= k < |walk| ==> walk[k] in votes
    requires forall j :: j in votes ==> votes[j].voter == j
    ensures BuiltFrom(votes, walk, hash, view) == Replicas.NewCert(votes, hash, view, walk)
  {}

  lemma WalkedOn(walk: seq<nat>, rest: set<nat>, all: set<nat>, j: nat)
    requires Distinct(walk) && Elements(walk) == all - rest && j in rest && rest <= all
    ensures Distinct(walk + [j]) && Elements(walk + [j]) == all - (rest - {j})
  {
    assert j !in Elements(walk);
    ElementsMore(walk, j);
  }

  /** The votes are added in whatever order the map yields them; `walk` is that order. With the
      poll keyed by voter, the signers are distinct and the object carries the certificate. */
  method NewCert(votes: map<nat, Vote>, hash: Hash, view: nat) returns (bc: BlockCertificate, ghost walk: seq<nat>)
    ensures fresh(bc) && Consistent(bc.State())
    ensures IsOrdering(walk, votes.Keys)
    ensures forall k :: 0 <= k < |walk| ==> walk[k] in votes
    ensures Rebuilt(bc.State()) == BuiltFrom(votes, walk, hash, view)
    ensures (forall j :: j in votes ==> votes[j].voter == j) ==>
              Distinct(bc.ids) && Rebuilt(bc.State()) == Replicas.NewCert(votes, hash, view, walk)
  {
    bc := new BlockCertificate();
    bc.SetBlockInfo(hash, view);
    walk := [];
    var rest := votes.Keys;
    while rest != {}
      invariant fresh(bc) && Consistent(bc.State())
      invariant rest <= votes.Keys && Distinct(walk) && Elements(walk) == votes.Keys - rest
      invariant forall k :: 0 <= k < |walk| ==> walk[k] in votes
      invariant Rebuilt(bc.State()) == BuiltFrom(votes, walk, hash, view)
      decreases rest
    {
      var j :| j in rest;
      VoteKeeps(bc.State(), votes[j].voter, votes[j].sig);
      BuiltMore(votes, walk, j, hash, view);
      WalkedOn(walk, rest, votes.Keys, j);
      bc.AddVote(votes[j]);
      rest, walk := rest - {j}, walk + [j];
    }
    if forall j :: j in votes ==> votes[j].voter == j {
      BuiltIsNewCert(votes, walk, hash, view);
    }
  }

  /** One node's certificate reaches another node. */
  method Transmit(source: BlockCertificate, target: BlockCertificate)
    requires source != target && Consistent(source.State())
    modifies source, target
    ensures Rebuilt(source.State()) == old(Rebuilt(source.State()))
    ensures Rebuilt(target.State()) == old(Rebuilt(source.State())) && Consistent(target.State())
  {
    var c := source.ToProto();
    LoadKeeps(target.State(), c);
    target.FromProto(c);
  }

  /** A certificate made from signed votes that outweigh half is accepted, once received, by every
      node that has the block and the same table, whatever the receiving object held before. */
  lemma CertificatePortable(w: Table, poll: map<nat, Vote>, hash: Hash, view: nat, ids: seq<nat>, t: Fields,
                            byHash: map<Hash, Block>)
    requires IsOrdering(ids, poll.Keys) && Outweighs(w, poll.Keys) && hash in byHash
    requires forall j :: j in poll ==> poll[j].sig.Signed?
    ensures var c := Replicas.NewCert(poll, hash, view, ids);
            Distinct(c.ids) && |c.ids| <= |c.sigs| && IsCertValid(byHash, w, Rebuilt(Loaded(t, c)))
  {
    CertFromVotes(w, poll, hash, view, ids);
  }
}
