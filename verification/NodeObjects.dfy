/** A node as the object it is: maps and counters updated in place by the handlers, one message
    at a time. Every handler is proved to do to the fields what its counterpart on values does. */
module NodeObjects {
  import opened Messages
  import opened Weights
  import opened Tallies
  import opened Reputation
  import opened Replicas
  import opened BlockCertificates

  /** Adding up the entries of some nodes, in whatever order they come. */
  method SumOf(w: Table, keys: set<nat>) returns (total: real)
    ensures total == Sum(w, keys)
  {
    total := 0.0;
    var rest := keys;
    ghost var done: set<nat> := {};
    while rest != {}
      invariant done !! rest && done + rest == keys && total == Sum(w, done)
      decreases rest
    {
      var i :| i in rest;
      SumAdd(w, done, i);
      total := total + WeightOf(w, i);
      rest, done := rest - {i}, done + {i};
    }
    assert done == keys;
  }

  // Filling a view's table entry by entry

  function Filled(reputation: map<nat, Table>, view: nat, t: Table): map<nat, Table> {
    reputation[view := TableAt(reputation, view) + t]
  }

  function WithScore(reputation: map<nat, Table>, view: nat, i: nat, x: real): map<nat, Table> {
    var table: Table := TableAt(reputation, view)[i := x];
    reputation[view := table]
  }

  lemma FilledMore(reputation: map<nat, Table>, now: map<nat, Table>, view: nat, t: Table, i: nat, x: real)
    requires now == if t == map[] then reputation else Filled(reputation, view, t)
    ensures WithScore(now, view, i, x) == Filled(reputation, view, t[i := x])
  {
    assert (TableAt(reputation, view) + t)[i := x] == TableAt(reputation, view) + t[i := x];
    if t == map[] {
      assert TableAt(reputation, view) + t == TableAt(reputation, view);
    }
  }

  lemma InitialTableMore(i: nat)
    ensures InitialTable(i)[i := INITIAL_SCORE] == InitialTable(i + 1)
    ensures InitialTable(i) == map[] <==> i == 0
  {
    if i > 0 {
      assert 0 in InitialTable(i);
    }
  }

  lemma NewTableMore(f: real -> real, log: Transcript, i: nat)
    ensures NewTable(f, i, log)[i := Score(f, log, i)] == NewTable(f, i + 1, log)
  {
    hide Score;
    var a, b := NewTable(f, i, log)[i := Score(f, log, i)], NewTable(f, i + 1, log);
    assert forall id: nat :: id in a <==> id in b;
  }

  lemma NewTableEmpty(f: real -> real, log: Transcript, i: nat)
    ensures NewTable(f, i, log) == map[] <==> i == 0
  {
    if i > 0 {
      assert 0 in NewTable(f, i, log).Keys;
    } else {
      assert NewTable(f, i, log).Keys == {};
    }
  }

  /** The first i entries of the new table are in. */
  ghost predicate ScoredUpTo(f: real -> real, log: Transcript, before: map<nat, Table>, now: map<nat, Table>, view: nat,
                             i: nat)
  {
    now == if i == 0 then before else Filled(before, view, NewTable(f, i, log))
  }

  lemma ScoredMore(f: real -> real, log: Transcript, before: map<nat, Table>, now: map<nat, Table>, next: map<nat,
                   Table>,
                   view: nat, i: nat, x: real)
    requires ScoredUpTo(f, log, before, now, view, i) && x == Score(f, log, i) && next == WithScore(now, view, i, x)
    ensures ScoredUpTo(f, log, before, next, view, i + 1)
  {
    NewTableMore(f, log, i);
    NewTableEmpty(f, log, i);
    FilledMore(before, now, view, NewTable(f, i, log), i, x);
  }

  lemma FilledFirst(view: nat, t: Table)
    ensures Filled(map[], view, t) == map[view := t]
  {
    var empty: Table := map[];
    assert empty + t == t;
  }

  lemma SeqSumMore(w: Table, ids: seq<nat>, k: nat)
    requires k < |ids|
    ensures SeqSum(w, ids[..k + 1]) == SeqSum(w, ids[..k]) + WeightOf(w, ids[k])
  {
    assert ids[..k + 1][..k] == ids[..k];
  }

  lemma LookupComplete(c: Certificate)
    requires |c.ids| <= |c.sigs|
    ensures forall k :: 0 <= k < |c.ids| ==>
              && c.ids[k] in LookupMap(c.ids, c.sigs, |c.ids|)
              && LookupMap(c.ids, c.sigs, |c.ids|)[c.ids[k]] == SignatureOf(c.ids, c.sigs, c.ids[k])
  {
    LookupMapRight(c.ids, c.sigs, |c.ids|);
    assert c.ids[..|c.ids|] == c.ids;
    forall k | 0 <= k < |c.ids|
      ensures c.ids[k] in LookupMap(c.ids, c.sigs, |c.ids|)
    {
      assert c.ids[k] in Elements(c.ids);
    }
  }

  lemma MarkedInto(t: Tallies.Tally, view: nat, j: nat)
    ensures var row := if view in t then t[view] else map[];
            t[view := row + Ones({j})] == Mark(t, view, j)
    ensures var t' := if view in t then t else t[view := map[]];
            t'[view := t'[view] + Ones({j})] == Mark(t, view, j)
  {
    if view !in t {
      var empty: map<nat, nat> := map[];
      assert empty + Ones({j}) == Ones({j});
    }
  }

  lemma FiledInto(m: map<nat, map<nat, Proposal>>, view: nat, p: Proposal)
    ensures var m' := if view in m then m else m[view := map[]];
            m'[view := m'[view][p.forwardSender := p]] == m[view := Row(m, view)[p.forwardSender := p]]
  {}

  lemma DispatchVote(r: Replica, v: Vote, ids: seq<nat>)
    ensures Dispatch(r, VoteMsg(v), ids) == HandleVote(r, v, ids)
  {}

  class SyncHS {
    const id: nat
    const n: nat
    var view: nat
    var leader: nat
    var head: nat
    var blocksByHeight: map<nat, Block>
    var blocksByHash: map<Hash, Block>
    var certMap: map<nat, Certificate>
    var proposalMap: Tallies.Tally
    var voteMap: Tallies.Tally
    var withproposalMap: Tallies.Tally
    var equiproposalMap: Tallies.Tally
    var maliproposalMap: Tallies.Tally
    var voteMaliMap: Tallies.Tally
    var reputationMap: map<nat, Table>
    var proposalByviewMap: map<nat, Proposal>
    var fpropMap: map<nat, map<nat, Proposal>>
    var ballots: map<nat, map<nat, Vote>>
    var isCertified: map<nat, bool>
    var equivocatingProposalInject: bool
    var withholdingProposalInject: bool
    var maliciousVoteInject: bool
    var maliProposalExists: bool
    var maliVoteExists: bool

    function Chain(): Ledger
      reads this`head, this`blocksByHeight, this`blocksByHash, this`certMap
    {
      Ledger(head, blocksByHeight, blocksByHash, certMap)
    }

    function Log(): Transcript
      reads this`proposalMap, this`voteMap, this`withproposalMap, this`equiproposalMap, this`maliproposalMap,
          this`voteMaliMap
    {
      Transcript(proposalMap, voteMap, withproposalMap, equiproposalMap, maliproposalMap, voteMaliMap)
    }

    function State(): Replica
      reads this
    {
      Replica(id, n, view, leader, Chain(), Log(), reputationMap, proposalByviewMap, fpropMap, ballots, isCertified,
              equivocatingProposalInject, withholdingProposalInject, maliciousVoteInject)
    }

    /** Votes are filed under their voter, and the scan flags are down between messages. */
    ghost predicate Valid()
      reads this
    {
      && (forall v, j :: v in ballots && j in ballots[v] ==> ballots[v][j].voter == j)
      && !maliProposalExists && !maliVoteExists
    }

    constructor (id: nat, n: nat)
      requires n >= 1
      ensures Valid() && State() == Initial(id, n)
    {
      this.id, this.n, view, leader := id, n, 1, 0;
      head, blocksByHeight, blocksByHash, certMap := 0, map[], map[], map[0 := GENESIS_CERT];
      proposalMap, voteMap, withproposalMap := map[], map[], map[];
      equiproposalMap, maliproposalMap, voteMaliMap := map[], map[], map[];
      reputationMap, proposalByviewMap, fpropMap, ballots, isCertified := map[], map[], map[], map[], map[];
      equivocatingProposalInject, withholdingProposalInject, maliciousVoteInject := false, false, false;
      maliProposalExists, maliVoteExists := false, false;
      new;
      InitialReputationMap();
      FilledFirst(1, InitialTable(n));
    }

    method InitialReputationMap()
      requires n >= 1
      modifies this`reputationMap
      ensures reputationMap == Filled(old(reputationMap), view, InitialTable(n))
    {
      ghost var before := reputationMap;
      for i := 0 to n
        invariant reputationMap == if i == 0 then before else Filled(before, view, InitialTable(i))
      {
        InitialTableMore(i);
        FilledMore(before, reputationMap, view, InitialTable(i), i, INITIAL_SCORE);
        EnterScore(view, i, INITIAL_SCORE);
      }
    }

    // Recording behaviour

    method AddProposalToMap()
      modifies this`proposalMap
      ensures var r := old(State()); State() == r.(log := r.log.(proposals := MarkSole(r.log.proposals, r.view,
                                                                                       r.leader)))
    {
      if view in proposalMap && leader in proposalMap[view] && proposalMap[view][leader] == 1 {
        return;
      }
      proposalMap := proposalMap[view := Ones({leader})];
    }

    method AddEquiProposalToMap()
      modifies this`equiproposalMap
      ensures var r := old(State());
              State() == r.(log := r.log.(equivocations := MarkSole(r.log.equivocations, r.view, r.leader)))
    {
      if view in equiproposalMap && leader in equiproposalMap[view] && equiproposalMap[view][leader] == 1 {
        return;
      }
      equiproposalMap := equiproposalMap[view := Ones({leader})];
    }

    method AddWithholdProposalToMap()
      modifies this`withproposalMap
      ensures var r := old(State()); State() == r.(log := r.log.(withheld := MarkSole(r.log.withheld, r.view,
                                                                                      r.leader)))
    {
      if view in withproposalMap && leader in withproposalMap[view] && withproposalMap[view][leader] == 1 {
        return;
      }
      withproposalMap := withproposalMap[view := Ones({leader})];
    }

    method AddMaliProposalToMap(miner: nat)
      modifies this`maliproposalMap
      ensures var r := old(State());
              State() == r.(log := r.log.(maliciousProposals := Mark(r.log.maliciousProposals, r.view, miner)))
    {
      if view !in maliproposalMap {
        maliproposalMap := maliproposalMap[view := map[]];
      }
      maliproposalMap := maliproposalMap[view := maliproposalMap[view] + Ones({miner})];
      MarkedInto(old(maliproposalMap), view, miner);
    }

    method AddVoteToMap(voter: nat)
      modifies this`voteMap
      ensures var r := old(State()); State() == r.(log := r.log.(votes := Mark(r.log.votes, r.view, voter)))
    {
      if view !in voteMap {
        voteMap := voteMap[view := map[]];
      }
      voteMap := voteMap[view := voteMap[view] + Ones({voter})];
      MarkedInto(old(voteMap), view, voter);
    }

    method AddMaliVoteToMap(voter: nat)
      modifies this`voteMaliMap
      ensures var r := old(State());
              State() == r.(log := r.log.(maliciousVotes := Mark(r.log.maliciousVotes, r.view, voter)))
    {
      if view !in voteMaliMap {
        voteMaliMap := voteMaliMap[view := map[]];
      }
      voteMaliMap := voteMaliMap[view := voteMaliMap[view] + Ones({voter})];
      MarkedInto(old(voteMaliMap), view, voter);
    }

    // Certificates

    method GetCertBenchMark(viewNum: nat) returns (benchmark: real)
      ensures benchmark == Half(TableAt(reputationMap, viewNum))
    {
      var table := TableAt(reputationMap, viewNum);
      var total := SumOf(table, table.Keys);
      benchmark := total * 0.5;
    }

    /** The reputation behind a certificate, given up at the first signature that cannot be used. */
    method SignersWeight(c: Certificate, table: Table) returns (ok: bool, total: real)
      requires |c.ids| <= |c.sigs|
      ensures ok == UsableSignatures(c) && (ok ==> total == SeqSum(table, c.ids))
    {
      hide SignatureOf;
      var bc := new BlockCertificate();
      bc.FromProto(c);
      LookupComplete(c);
      total := 0.0;
      for k := 0 to |c.ids|
        invariant bc.voteMap == LookupMap(c.ids, c.sigs, |c.ids|)
        invariant total == SeqSum(table, c.ids[..k])
        invariant forall i :: 0 <= i < k ==> SignatureOf(c.ids, c.sigs, c.ids[i]).Signed?
      {
        var sig := bc.GetSignatureFromID(c.ids[k]);
        if sig.None? || sig.value.NoSignature? {
          return false, total;
        }
        if Verify(c.ids[k], CertPayload(c.hash, c.view), sig.value).err {
          return false, total;
        }
        total := total + WeightOf(table, c.ids[k]);
        SeqSumMore(table, c.ids, k);
      }
      ok := true;
      assert c.ids[..|c.ids|] == c.ids;
    }

    method IsCertValid(c: Certificate) returns (ok: bool)
      ensures ok == Replicas.IsCertValid(blocksByHash, PreviousTable(reputationMap, view), c)
    {
      if c.hash == EmptyHash {
        return true;
      }
      if c.hash !in blocksByHash {
        return false;
      }
      if |blocksByHash[c.hash].header.extra| == 1 {
        return true;
      }
      if |c.ids| > |c.sigs| {
        return false;
      }
      var benchmark := 0.0;
      if view > 0 {
        benchmark := GetCertBenchMark(view - 1);
      }
      var usable, total := SignersWeight(c, PreviousTable(reputationMap, view));
      return usable && total > benchmark;
    }

    // Proposing, forwarding, voting

    /** A block goes on top of the chain. */
    method ExtendChain(b: Block)
      modifies this`head, this`blocksByHeight, this`blocksByHash
      ensures var r := old(State()); State() == r.(ledger := AddBlock(r.ledger, b))
    {
      head := head + 1;
      blocksByHeight := blocksByHeight[b.header.height := b];
      blocksByHash := blocksByHash[BlockHash(b) := b];
    }

    method AddProposalToViewMap(p: Proposal)
      modifies this`proposalByviewMap
      ensures var r := old(State()); State() == r.(proposalByView := r.proposalByView[r.view := p])
    {
      proposalByviewMap := proposalByviewMap[view := p];
    }

    method ShipProposal(p: Proposal) returns (out: set<Msg>)
      modifies this`head, this`blocksByHeight, this`blocksByHash, this`proposalByviewMap, this`proposalMap
      ensures var r := old(State());
              State() == r.(ledger := AddBlock(r.ledger, p.block), proposalByView := r.proposalByView[r.view := p],
                            log := r.log.(proposals := MarkSole(r.log.proposals, r.view, r.leader)))
      ensures out == {PropMsg(p)}
    {
      ExtendChain(p.block);
      AddProposalToViewMap(p);
      AddProposalToMap();
      out := {PropMsg(p)};
    }

    method Propose(cmds: Option<seq<Command>>) returns (out: set<Msg>)
      modifies this`head, this`blocksByHeight, this`blocksByHash, this`proposalByviewMap, this`proposalMap
      ensures Outcome(State(), out) == Replicas.Propose(old(State()), cmds)
    {
      if head !in certMap {
        return {};
      }
      if cmds.None? {
        return {};
      }
      out := ShipProposal(CandidateProposal(id, leader, cmds.value, certMap[head], head + 1, ""));
    }

    method AcceptsProposal(p: Proposal) returns (ok: bool)
      ensures ok == Acceptable(State(), p)
    {
      if p.block.claimed != BlockHash(p.block) || !SignedHeader(n, leader, p.block, p.miningProof) {
        return false;
      }
      ok := IsCertValid(p.evidence);
    }

    method Forward(p: Proposal) returns (out: set<Msg>)
      ensures Outcome(State(), out) == Replicas.Forward(State(), p)
    {
      var ok := AcceptsProposal(p);
      if !ok {
        return {};
      }
      out := {PropMsg(p.(forwardSender := id, forwardSig := Signed(id, HeaderPayload(p.block.header))))};
    }

    method VoteForBlock(hash: Hash, owner: nat) returns (out: set<Msg>)
      modifies this`voteMap
      ensures Outcome(State(), out) == VoteFor(old(State()), hash, owner)
    {
      AddVoteToMap(id);
      out := {VoteMsg(CastVote(id, hash, view, owner))};
    }

    /** What a non-leader does with a block that everybody has forwarded. */
    method AcceptProposal(p: Proposal)
      modifies this`head, this`proposalMap, this`blocksByHeight, this`blocksByHash, this`proposalByviewMap
      ensures State() == AcceptBlock(old(State()), p)
    {
      ExtendChain(p.block);
      AddProposalToMap();
      AddProposalToViewMap(p);
    }

    /** All forwards of a block are in. */
    method FinishForwards(p: Proposal) returns (out: set<Msg>)
      modifies this`head, this`proposalMap, this`blocksByHeight, this`blocksByHash, this`proposalByviewMap,
          this`voteMap,
               this`maliciousVoteInject
      ensures Outcome(State(), out) == CompleteForwards(old(State()), p)
    {
      if id == leader {
        out := VoteForBlock(BlockHash(p.block), p.miner);
        return;
      }
      AcceptProposal(p);
      if id % 2 != 0 && maliciousVoteInject {
        maliciousVoteInject := false;
        out := VoteForBlock(Invalid, id);
      } else {
        out := VoteForBlock(BlockHash(p.block), p.miner);
      }
    }

    method NoteFirstProposal(p: Proposal)
      modifies this`proposalByviewMap
      ensures State() == NoteFirst(old(State()), p) && view in proposalByviewMap
    {
      if view !in proposalByviewMap {
        proposalByviewMap := proposalByviewMap[view := p];
      }
    }

    method FileForward(p: Proposal)
      modifies this`fpropMap
      ensures State() == NoteForward(old(State()), p)
    {
      if view !in fpropMap {
        fpropMap := fpropMap[view := map[]];
      }
      var row: map<nat, Proposal> := fpropMap[view][p.forwardSender := p];
      fpropMap := fpropMap[view := row];
      FiledInto(old(fpropMap), view, p);
    }

    /** A forward that passes the checks is compared with the first proposal seen and filed. */
    method CompareAndFile(p: Proposal) returns (out: set<Msg>)
      requires !ForwardsComplete(State()) && !equivocatingProposalInject && ValidForward(State(), p)
      modifies this`head, this`proposalMap, this`blocksByHeight, this`blocksByHash, this`proposalByviewMap,
          this`voteMap,
               this`maliciousVoteInject, this`fpropMap, this`equivocatingProposalInject
      ensures Outcome(State(), out) == HandleForward(old(State()), p)
    {
      NoteFirstProposal(p);
      var first := proposalByviewMap[view];
      equivocatingProposalInject := BlockHash(first.block) != BlockHash(p.block);
      if equivocatingProposalInject {
        out := if id != leader then {EquivocationMsg(Accuse(id, leader, view), first, p)} else {};
        return;
      }
      FileForward(p);
      if |Row(fpropMap, view)| + 1 < n {
        return {};
      }
      out := FinishForwards(p);
    }

    method ForwardProposalHandler(p: Proposal) returns (out: set<Msg>)
      modifies this`head, this`proposalMap, this`blocksByHeight, this`blocksByHash, this`proposalByviewMap,
          this`voteMap,
               this`maliciousVoteInject, this`fpropMap, this`equivocatingProposalInject
      ensures Outcome(State(), out) == HandleForward(old(State()), p)
    {
      if |Row(fpropMap, view)| + 1 >= n || equivocatingProposalInject {
        return {};
      }
      var ok := AcceptsProposal(p);
      if !ok || !SignedHeader(n, p.forwardSender, p.block, p.forwardSig) {
        return {};
      }
      out := CompareAndFile(p);
    }

    // Counting votes

    method OpenBallot()
      modifies this`ballots, this`isCertified
      ensures State() == OpenPoll(old(State())) && view in ballots
      ensures old(Valid()) ==> Valid()
    {
      if view !in ballots {
        ballots := ballots[view := map[]];
        isCertified := isCertified[view := false];
      }
    }

    /** The reputation behind a poll against half of the view's total. */
    method Outweighing(poll: map<nat, Vote>) returns (enough: bool)
      ensures enough == Outweighs(TableAt(reputationMap, view), poll.Keys)
    {
      var repSumInCert := SumOf(TableAt(reputationMap, view), poll.Keys);
      var benchmark := GetCertBenchMark(view);
      enough := repSumInCert > benchmark;
    }

    method FileBallot(v: Vote)
      requires Valid() && view in ballots
      modifies this`ballots
      ensures Valid() && view in ballots && ballots[view] == old(ballots)[view][v.voter := v]
      ensures var r := old(State());
              var poll: map<nat, Vote> := r.ballots[r.view][v.voter := v];
              State() == r.(ballots := r.ballots[r.view := poll])
    {
      var poll: map<nat, Vote> := ballots[view][v.voter := v];
      ballots := ballots[view := poll];
    }

    /** `ids` is the order in which the certificate is filled. */
    method BuildCert(poll: map<nat, Vote>, hash: Hash, view: nat) returns (c: Certificate, ghost ids: seq<nat>)
      requires forall j :: j in poll ==> poll[j].voter == j
      ensures IsOrdering(ids, poll.Keys) && c == Replicas.NewCert(poll, hash, view, ids)
    {
      var bc, walk := BlockCertificates.NewCert(poll, hash, view);
      c := bc.ToProto();
      ids := walk;
    }

    method Certify(c: Certificate)
      requires Valid()
      modifies this`isCertified, this`certMap
      ensures Valid()
      ensures var r := old(State());
              State() == r.(certified := r.certified[r.view := true],
                            ledger := r.ledger.(certs := r.ledger.certs[r.view := c]))
    {
      isCertified := isCertified[view := true];
      certMap := certMap[view := c];
    }

    method CountBallot(v: Vote) returns (ghost ids: seq<nat>)
      requires Valid() && view in ballots
      modifies this`ballots, this`isCertified, this`certMap
      ensures Valid() && State() == CountVote(old(State()), v, ids)
      ensures IsOrdering(ids, old(ballots)[view][v.voter := v].Keys)
    {
      ids := OrderOf(ballots[view][v.voter := v].Keys);
      if view in isCertified && isCertified[view] {
        return;
      }
      FileBallot(v);
      var enough := Outweighing(ballots[view]);
      if enough {
        var c;
        c, ids := BuildCert(ballots[view], v.hash, v.view);
        Certify(c);
      }
    }

    method VoteHandler(v: Vote) returns (out: set<Msg>, ghost ids: seq<nat>)
      requires Valid()
      modifies this`ballots, this`isCertified, this`certMap, this`voteMap
      ensures Valid() && Outcome(State(), out) == HandleVote(old(State()), v, ids)
      ensures IsOrdering(ids, Row(old(ballots), view)[v.voter := v].Keys)
    {
      hide CountVote;
      ids := OrderOf(Row(ballots, view)[v.voter := v].Keys);
      if v.owner != leader {
        out := {MaliciousVoteMsg(Accuse(id, v.voter, view), v)};
        return;
      }
      OpenBallot();
      out := {};
      if v.voter in ballots[view] {
        return;
      }
      if v.voter != id && !SignedVote(n, v) {
        return;
      }
      AddVoteToMap(v.voter);
      ids := CountBallot(v);
    }

    // Misbehaviour

    method AddEmpty()
      requires head in certMap
      modifies this`head, this`blocksByHeight, this`blocksByHash, this`certMap
      ensures var r := old(State());
              r.ledger.head in r.ledger.certs && State() == r.(ledger := AddEmptyBlock(r.ledger, r.view))
    {
      var b := EmptyBlock(certMap[head].hash, head + 1);
      ExtendChain(b);
      var c := Certificate(BlockHash(b), view, [], []);
      certMap := certMap[view := c];
    }

    method HandleWithholdingProposal()
      modifies this`head, this`blocksByHeight, this`blocksByHash, this`certMap, this`withproposalMap
      ensures State() == HandleWithholding(old(State()))
    {
      if head !in certMap {
        return;
      }
      AddEmpty();
      AddWithholdProposalToMap();
    }

    method EquivocationEvidenceHandler(a: Accusation, e1: Proposal, e2: Proposal)
      modifies this`head, this`blocksByHeight, this`blocksByHash, this`certMap, this`equiproposalMap
      ensures State() == HandleEquivocation(old(State()), a, e1, e2)
    {
      if view in equiproposalMap && leader in equiproposalMap[view] && equiproposalMap[view][leader] == 1 {
        return;
      }
      if !EquivocationValid(n, leader, view, a, e1, e2) {
        return;
      }
      if head !in certMap {
        return;
      }
      AddEmpty();
      AddEquiProposalToMap();
    }

    method MaliciousProposalHandler(p: Proposal) returns (out: set<Msg>)
      ensures out == HandleMaliciousProposal(State(), p)
    {
      if !SignedHeader(n, p.miner, p.block, p.miningProof) {
        return {};
      }
      if p.miner == leader {
        return {};
      }
      if id != 0 {
        return {MaliciousProposalMsg(Accuse(id, p.miner, view), p)};
      }
      return {};
    }

    /** The scan for the accused raises a flag that is taken down again before the next message. */
    method MaliciousProposalEvidenceHandler(a: Accusation, e: Proposal)
      requires !maliProposalExists
      modifies this`maliproposalMap, this`maliProposalExists
      ensures State() == HandleProposalEvidence(old(State()), a, e) && !maliProposalExists
    {
      if !MaliciousProposalValid(n, leader, view, a, e) {
        return;
      }
      if view in maliproposalMap {
        var rest := maliproposalMap[view].Keys;
        while rest != {}
          invariant maliproposalMap == old(maliproposalMap) && rest <= maliproposalMap[view].Keys
          invariant !maliProposalExists && (a.target in maliproposalMap[view] ==> a.target in rest)
          decreases rest
        {
          var i :| i in rest;
          if i == a.target {
            maliProposalExists := true;
            break;
          }
          rest := rest - {i};
        }
        if maliProposalExists {
          maliProposalExists := false;
          return;
        }
        AddMaliProposalToMap(e.miner);
        maliProposalExists := false;
        return;
      }
      AddMaliProposalToMap(e.miner);
    }

    method MaliciousVoteEvidenceHandler(a: Accusation, e: Vote)
      requires !maliVoteExists
      modifies this`voteMaliMap, this`maliVoteExists
      ensures State() == HandleVoteEvidence(old(State()), a, e) && !maliVoteExists
    {
      if !MaliciousVoteValid(n, view, a, e) {
        return;
      }
      if view in voteMaliMap {
        var rest := voteMaliMap[view].Keys;
        while rest != {}
          invariant voteMaliMap == old(voteMaliMap) && rest <= voteMaliMap[view].Keys
          invariant !maliVoteExists && (a.target in voteMaliMap[view] ==> a.target in rest)
          decreases rest
        {
          var i :| i in rest;
          if i == a.target {
            maliVoteExists := true;
            break;
          }
          rest := rest - {i};
        }
        if maliVoteExists {
          maliVoteExists := false;
          return;
        }
        AddMaliVoteToMap(e.voter);
        maliVoteExists := false;
        return;
      }
      AddMaliVoteToMap(e.voter);
    }

    // Dispatching messages, starting and ending a round

    method HandleProposal(p: Proposal) returns (out: set<Msg>)
      modifies this`head, this`proposalMap, this`blocksByHeight, this`blocksByHash, this`proposalByviewMap,
               this`voteMap, this`maliciousVoteInject, this`fpropMap, this`equivocatingProposalInject
      ensures Outcome(State(), out) == Dispatch(old(State()), PropMsg(p), [])
    {
      hide HandleForward;
      hide Replicas.Forward;
      hide HandleMaliciousProposal;
      if p.forwardSender == leader {
        if p.miner == leader {
          out := Forward(p);
        } else {
          out := MaliciousProposalHandler(p);
        }
      } else {
        out := ForwardProposalHandler(p);
      }
    }

    method HandleEvidence(m: Msg)
      requires Valid() && !m.PropMsg? && !m.VoteMsg?
      modifies this`head, this`blocksByHeight, this`blocksByHash, this`certMap, this`equiproposalMap,
               this`maliproposalMap, this`maliProposalExists, this`voteMaliMap, this`maliVoteExists
      ensures Valid() && Outcome(State(), {}) == Dispatch(old(State()), m, [])
    {
      hide HandleEquivocation;
      hide HandleProposalEvidence;
      hide HandleVoteEvidence;
      match m
      case EquivocationMsg(a, e1, e2) => EquivocationEvidenceHandler(a, e1, e2);
      case MaliciousProposalMsg(a, e) => MaliciousProposalEvidenceHandler(a, e);
      case MaliciousVoteMsg(a, e) => MaliciousVoteEvidenceHandler(a, e);
    }

    /** One message; `ids` is the order in which a certificate made from a vote is filled. */
    method Handle(m: Msg) returns (out: set<Msg>, ghost ids: seq<nat>)
      requires Valid()
      modifies this
      ensures Valid() && Outcome(State(), out) == Dispatch(old(State()), m, ids)
      ensures m.VoteMsg? ==> IsOrdering(ids, Row(old(ballots), old(view))[m.v.voter := m.v].Keys)
    {
      hide Dispatch;
      hide HandleVote;
      out, ids := {}, [];
      ghost var r := State();
      if m.PropMsg? {
        out := HandleProposal(m.p);
      } else if m.VoteMsg? {
        out, ids := VoteHandler(m.v);
        DispatchVote(r, m.v, ids);
      } else {
        HandleEvidence(m);
      }
    }

    method SetWithholding(withheld: bool)
      modifies this`withholdingProposalInject
      ensures State() == old(State()).(withholding := withheld)
    {
      withholdingProposalInject := withheld;
    }

    /** What a node does when its timer starts; the leader of a withheld round stays silent. */
    method StartRound(withheld: bool, cmds: Option<seq<Command>>) returns (out: set<Msg>)
      requires Valid()
      modifies this`head, this`blocksByHeight, this`blocksByHash, this`proposalByviewMap, this`proposalMap,
               this`certMap, this`withproposalMap, this`withholdingProposalInject
      ensures Valid() && Outcome(State(), out) == Start(old(State()), withheld, cmds)
    {
      hide HandleWithholding;
      hide Replicas.Propose;
      out := {};
      SetWithholding(withheld);
      if withheld {
        HandleWithholdingProposal();
      } else if id == leader {
        out := Propose(cmds);
      }
    }

    method EnterScore(viewNum: nat, i: nat, score: real)
      modifies this`reputationMap
      ensures reputationMap == WithScore(old(reputationMap), viewNum, i, score)
    {
      if viewNum !in reputationMap {
        reputationMap := reputationMap[viewNum := map[]];
      }
      var table: Table := reputationMap[viewNum][i := score];
      reputationMap := reputationMap[viewNum := table];
    }

    method AddScore(f: real -> real, i: nat, ghost before: map<nat, Table>)
      requires ScoredUpTo(f, Log(), before, reputationMap, view + 1, i)
      modifies this`reputationMap
      ensures ScoredUpTo(f, Log(), before, reputationMap, view + 1, i + 1)
    {
      ghost var now := reputationMap;
      var score := ReputationCalculate(f, Log(), i);
      EnterScore(view + 1, i, score);
      ScoredMore(f, Log(), before, now, reputationMap, view + 1, i, score);
    }

    method AddNewViewReputationToMap(f: real -> real)
      requires n >= 1
      modifies this`reputationMap
      ensures State() == AddReputation(f, old(State()))
    {
      ghost var before := reputationMap;
      for i := 0 to n
        invariant ScoredUpTo(f, Log(), before, reputationMap, view + 1, i)
      {
        AddScore(f, i, before);
      }
    }

    method ChangeLeader()
      requires n >= 1
      modifies this`leader
      ensures var r := old(State()); State() == r.(leader := NextLeader(r.leader, r.n))
    {
      leader := (leader + 1) % n;
    }

    method Advance()
      requires n >= 1
      modifies this`view, this`leader
      ensures var r := old(State()); State() == r.(view := r.view + 1, leader := NextLeader(r.leader, r.n))
    {
      view := view + 1;
      ChangeLeader();
    }

    /** The timer's callback, up to the token it returns. */
    method Callback(f: real -> real)
      requires Valid() && n >= 1
      modifies this`reputationMap, this`view, this`leader, this`equivocatingProposalInject
      ensures Valid() && State() == Replicas.Callback(f, old(State()))
    {
      if withholdingProposalInject {
        AddNewViewReputationToMap(f);
        Advance();
        return;
      }
      if equivocatingProposalInject {
        equivocatingProposalInject := false;
        AddNewViewReputationToMap(f);
        Advance();
        return;
      }
      AddNewViewReputationToMap(f);
      if view !in certMap {
        return;
      }
      Advance();
    }
  }
}
