# Reputation-weighted Sync HotStuff, verified

A Dafny 4.11 model of the consensus core of a reputation-weighted variant of Sync HotStuff (Go
packages `consensus` and `msg`), with proofs about single handlers, about one node under any order
of messages, and about whole runs of many nodes.

In every round (view) the leader proposes a block, every other node forwards it to everybody, a node
votes once it holds the same block from all non-leaders, a certificate is made when the voters hold
more than half of the view's reputation, and a timer callback computes the next reputation table,
rotates the leader and commits. A withheld or equivocated round commits an empty block instead.

`dafny verify dfyconfig.toml` checks everything.

## How the model is laid out

| file | content |
|---|---|
| `Messages`, `Weights`, `Tallies`, `Reputation` | blocks, votes, certificates; weighted sums and quorums; behaviour records; the score formula |
| `Replicas` | a node's state as a value and what each handler does to it |
| `NodeObjects` | the node as an object with in-place updates and loops, each handler proved to do what `Replicas` says |
| `BlockCertificates`, `Pacemakers` | the certificate object with its cache; the command pool and the timer token |
| `Proposals`, `ForwardReplies`, `VoteAgreement` | what a node sends when it proposes, forwards and reports, and while it collects forwards |
| `Certification`, `CertifiedHashes`, `CertificateChecks` | counting votes in any order; which certificates are accepted |
| `Evidence`, `EvidenceOrder` | one node under arbitrary sequences of evidence, and of forwards mixed with evidence |
| `Rounds`, `RoundEnds` | one round at one node among others: its state is a function of the set of messages handled |
| `Runs`, `Attacks`, `Safety` | the system of all correct nodes, its steps, its invariant, its runs |
| `Accusations`, `LeaderSignatures`, `Records` | what correct nodes sign, and exactly when one of them gets on record |
| `Continuations` | what correct nodes bring about on their own; every round can be brought to its end |
| `Agreement`, `Progress`, `Provenance`, `Incentives` | the results about runs: agreement, progress, where committed commands come from, what behaviour earns |
| `Scenarios` | a committing, a stalled, an equivocated, a withheld and a framing run of every system that can have one |

Hashes and signatures are free constructors: equal digests have equal headers, and a signature
verifies only for its signer and payload. The hyperbolic tangent is a function parameter, assumed
where needed to be monotone, zero at zero and in [0, 1) on non-negative arguments (`TanhLike`).
Go's map iteration order is left open: sums are proved independent of it, and the order in which a
certificate is filled is an argument (`ids`).

## What a run is

A configuration has n nodes, any set of correct ones, and the rest. A state (`Runs.System`) holds the
correct nodes, the leader's proposals on their way, and the pool of messages broadcast in the current
view. An action starts a round at a node, lets a node handle the leader's proposal or any message of
the pool (in any order, any number of times), lets a faulty node add a message, or fires the timers
once everything sent has been handled. The following is assumed, because the code relies on it:

- Rounds are synchronous: the messages of a view are handled between the start of a round and its
  timer, and all timers of a round fire before the next one starts.
- The misbehaviour handlers run (they are switched off by comments in `consensus/protocol.go:143-148`
  and `consensus/reactor.go:51-69`).
- Nobody can make up a correct node's signature, but everybody can repeat one, in the view it was
  made in or later, in whatever message (`Runs.Unforged`).
- Faulty nodes propose and forward as `consensus/attackInjection.go` does (`Runs.Lawful`,
  `Runs.LawfulRaw`): whatever is signed by the view's leader is built on the certified parent at the
  view's height, so a block the same leader signed in an earlier view of its own is not shown again;
  each node is sent one proposal and forwards one block per view, and no forward is sent again in an
  altered form; no two bodies are put under one header; the leader's proposal itself goes out once and is not broadcast again; a vote that
  names the leader as owner is for the block everybody has forwarded, so a vote from an earlier view
  of the same leader is not repeated; nobody sends an unsigned vote in a correct node's name
  (`consensus/vote.go:52-59` accepts one's own vote unchecked); evidence names as target the author of
  what it shows, as the sending functions build it; and equivocation evidence is sent only where two
  blocks were forwarded, again as the sending function builds it (`consensus/evidence.go:259-310` would
  accept more, see below).
  `Attacks` proves that the injected attacks are among these actions. Stray votes, stray proposals and
  evidence of malicious votes and proposals are free, against correct nodes too, as far as the
  signatures in them exist. That a forward in a correct leader's name is of the block it has proposed
  is not assumed but follows (`LeaderSignatures.FreeRunIsRun`).
- No bound on the number or the weight of faulty nodes is assumed for safety.
- A leader may withhold only if it is faulty, and all nodes know it at the start of the round, as in
  `consensus/attackInjection.go:21-49`; the withholding flag is set at every start.

A round that produces no certificate leaves every node in its view and is run again.

Some properties one might expect are false of the code:

- The head is not one behind the view at every start of a round (`Scenarios.StalledRun`);
  `Agreement.LockstepHead` gives the exact condition.
- A correct node can get on record for a malicious vote or proposal, because evidence is accepted
  without checking what the signature in it was made for (`Scenarios.FramedRun`,
  `Accusations.FramedByOldVote`, `Accusations.FramedByForward`). `Records.PastRecordIff` says exactly
  when. Agreement does not suffer from it: the correct nodes agree on these records too.
- Equivocation evidence need not show two blocks: one proposal of a correct leader, shown twice, is
  accepted. Where that is sent, the order of delivery splits ledger and records of correct nodes
  (`EvidenceOrder.OneProposalSplits`); evidence and forwards of one block commute if and only if the
  evidence is not valid or the leader is on record already (`EvidenceOrder.EvidenceCommutesIff`), and
  `LeaderSignatures.LeaderOnRecordIff` says when a correct leader gets on record. Agreement in runs is
  proved under the assumption above, that no such evidence is sent.
- A certificate that names a signer several times has its weight counted as often
  (`CertificateChecks.RepeatedSignerAccepted`). For distinct signers, which is what correct nodes produce,
  `CertificateChecks.CertValidIff` says exactly which certificates are accepted.
- Votes for the leader's block may name any hash. Where they do not all name one, the order of delivery
  can decide which hash a node certifies (`CertifiedHashes.MixedVotesSplit`);
  `CertifiedHashes.CertifyAlikeIff` gives the exact condition.

## Model

| member | source | states |
|---|---|---|
| Agreement.LedgerAgreement | consensus/client.go:99-175 | in every run, what a correct node has settled in some state (blocks below its view, certified hashes, reputation tables, recorded behaviour), every correct node holds unchanged in that state and all later ones; in one state all are in the same view with the same leader |
| Agreement.HashLinkedChain | consensus/proposalAndForward.go:353-419 | in every state of a run a correct node's ledger has one block per height below its view, each the one certified in its view and built on the hash certified below; leader = (view-1) mod n; the head is at the current view if and only if the node has a block of that view, otherwise at the one before |
| Provenance.LedgerProvenance | consensus/proposalAndForward.go:49-92 | in every state of a run, every block below a correct node's view was proposed in its view: by a correct leader that was started with exactly the block's commands, or by a faulty leader that sent it to the node under its signature; unless the leader is on record for withholding or equivocation in that view, and then the block has no commands and the extra data "E" |
| Provenance.CommittedProposed | consensus/proposalAndForward.go:202-234 | a round that commits and has not failed commits a block proposed in its view |
| Agreement.LockstepHead | consensus/client.go:99-175 | at every start of a round, after normal, empty and stalled rounds alike, a correct node's head is view-1 if and only if it does not have the leader's block of the view yet (the leader: has not proposed in it; another node: has not heard n-1 equal forwards), and it is at the view otherwise |
| Scenarios.StalledRun | consensus/client.go:153-159 | head = view-1 does not hold at every start of a round: in every system with a correct first leader and a faulty node, some run in which that node is silent ends its round in the first view, with the leader's head at the view and every other correct node's one behind |
| Scenarios.CommittedRun | consensus/proposalAndForward.go:49-92 | in every system of two or more nodes, all of them correct, some run ends with everybody in view 2 holding a block of exactly the commands the leader was given |
| Scenarios.EquivocatedRun | consensus/evidence.go:101-147 | with a faulty first leader and two correct nodes, some run in which it sends them different blocks ends with every correct node in view 2 with the empty block and the equivocation on record |
| Scenarios.WithheldRun | consensus/evidence.go:231-257 | with a faulty first leader, some run ends with every correct node in view 2 with the empty block and the withholding on record |
| Continuations.RoundCanEnd | consensus/client.go:99-175 | every run can be continued to a firing of the timers by steps of the correct nodes alone: the deliveries they cause always come to an end |
| Continuations.StepUnaided | consensus/proposalAndForward.go:139-238 | while a view lasts and no faulty node forwards or votes, the forwarders and voters that count grow by correct nodes only |
| Records.PastRecordIff | consensus/evidence.go:149-228 | in every state of a run and for every view that is over, a correct node is on a correct node's record for a malicious vote (proposal) in that view if and only if in that view somebody injected a message that reuses its signature against it: a stray vote of another view, a vote that names the leader or is of another view wrapped as evidence, or a proposal for another view or with a forwarding signature as mining proof, stray or wrapped; a stray proposal counts if a correct node other than node 0 exists |
| Records.QuietRecordIff | consensus/evidence.go:149-228 | the same for the current view, once everything sent has been handled |
| Records.RunReported | consensus/vote.go:32-36 | in every state of a run every stray vote a correct node has handled, and every stray proposal one other than node 0 has handled, has been reported by it |
| Records.PoolOrigin | consensus/vote.go:32-36 | whatever incriminates anybody was injected in the view, or reports a stray vote or proposal that was |
| Accusations.CorrectOnRecordIff | consensus/evidence.go:149-228 | at every moment of a run a correct node is on another's record for the current view if and only if that node has handled valid evidence that frames it (a vote that names the leader or is from another view; a proposal for another view or with a forwarding signature as mining proof), and never for withholding or equivocation |
| Accusations.CorrectNeverAccused | consensus/evidence.go:149-228 | in every run in which nobody reuses a correct node's signature against it, whatever is done with those of others, no correct node ever records withholding, equivocation, a malicious proposal or a malicious vote of a correct node |
| LeaderSignatures.LeaderOnRecordIff | consensus/evidence.go:259-310 | in every state of a run with a correct leader, whatever equivocation evidence is made of existing signatures: a correct node that handles it has the leader on record if and only if the evidence is valid and shows one header twice or one of another view, and the node has not yet taken the leader's block or has its certificate |
| LeaderSignatures.OnlyFramedLeader | consensus/evidence.go:259-310 | valid evidence against a correct leader never shows two headers of its view |
| LeaderSignatures.FramedByOneProposal | consensus/evidence.go:259-310 | a correct leader's proposal, shown twice by a faulty node, is such evidence |
| LeaderSignatures.RunOwn | consensus/proposalAndForward.go:49-92 | in every state of a run the only header of its view that a correct leader has signed is that of its proposal |
| LeaderSignatures.FreeRunIsRun | consensus/proposalAndForward.go:139-238 | a run in which forwards in a correct leader's name are only assumed not to be forged and not to put a second body under its header is a run, so they are of the leader's block and all results about runs apply |
| EvidenceOrder.EvidenceCommutesIff | consensus/evidence.go:101-147 | for a non-leader with a certified head and the forwards of one block by every non-leader, in any order and repetition, handling equivocation evidence before or after them gives the same state if and only if the evidence is not valid or the leader is already on record |
| EvidenceOrder.ValidEvidenceSplits | consensus/evidence.go:101-147 | otherwise the heads differ by one, only one of the two states has the leader on record, and only that one has a new certificate |
| EvidenceOrder.OneProposalSplits | consensus/evidence.go:259-310 | an instance: three nodes, the leader's only proposal shown twice, two honest forwards |
| EvidenceOrder.OneProposalConvicts | consensus/evidence.go:259-310 | any proposal signed by the leader, shown twice, is valid evidence and gets the leader on record |
| EvidenceOrder.HandlesBlock | consensus/proposalAndForward.go:139-238 | the forwards of one block, in any order and repetition, leave a non-leader waiting until the last non-leader's is in, and then with the block added once |
| Accusations.RunSigned | consensus/vote.go:121-161 | in every state of a run the signatures of correct nodes are those of headers of their view, as its leader or as forwarder, of votes for the leader of their view, and of accusations |
| Scenarios.FramedRun | consensus/evidence.go:190-228 | in every system with a single faulty node and a correct first leader, some run ends with the leader having a chosen other correct node on record for a malicious vote |
| Accusations.FramedByOwnVote | consensus/evidence.go:190-228 | a faulty node may wrap a correct node's vote for the leader as evidence, and the node that handles it has the voter on record |
| Accusations.FramedByOldVote | consensus/vote.go:32-36 | from every state of a run, a vote for an earlier leader may be repeated; whoever receives it reports the voter, and who handles the report has the voter on record |
| Accusations.FramedByForward | consensus/attackInjection.go:180-212 | from every state of a run, a forward with the forwarding signature in place of the mining proof may be sent; any recipient but node 0 reports the forwarder, and who handles the report has it on record |
| Agreement.CreditConservation | consensus/proposalAndForward.go:333-344 | the proposal counts of all nodes add up to the number of views with a recorded proposal, each credited to that view's leader only, so nobody has more than the views it has led; all records lie in past or current views; penalties are exact, without 64-bit wrap-around, up to view 2^59 |
| Agreement.ReputationDynamics | consensus/Reputation.go:183-196 | every table a correct node holds rates exactly nodes 0..n-1 with scores in [1e-6, 1+1e-6); a node without recorded misbehaviour in a view does not lose reputation by it |
| Agreement.CorrectKeepsReputation | consensus/Reputation.go:183-196 | in every run in which nobody reuses a correct node's signature against it, no correct node ever loses reputation, at any correct node |
| Incentives.CorrectReputationExact | consensus/Reputation.go:29-57 | in every run in which nobody reuses its signature against it, a correct node's reputation for a view is f(0.0001 * x) + 0.000001, where x is the number of earlier views in which its vote is on record plus the number in which its proposal is |
| Incentives.CorrectRisesIff | consensus/Reputation.go:183-196 | in such a run and for strictly increasing f it rises with a view if its vote or proposal of that view is on record and stays the same otherwise |
| Incentives.CommitRaisesIff | consensus/client.go:99-175 | in such a run a committing round raises the reputation of every correct node, at every correct node, if and only if its block is not the empty one, and leaves it unchanged otherwise |
| Incentives.CleanViewRaisesIff | consensus/Reputation.go:29-57 | a view without misbehaviour raises any node's score if and only if it has a vote (proposal) recorded in it and more votes than twice its malicious votes (more proposals than its proposal penalties) |
| Incentives.VoteEarns | consensus/Reputation.go:41-48 | with f the identity, one more vote of a node without malicious votes raises the score by exactly 0.0001 |
| Incentives.ProposalEarns | consensus/Reputation.go:37-48 | so does one more proposal of a node without proposal penalties |
| Incentives.OffenceCancels | consensus/Reputation.go:37-43 | for any f, one withheld or equivocated view takes back exactly ten proposals, a malicious proposal two, a malicious vote two votes |
| Incentives.EnoughEarned | consensus/Reputation.go:29-57 | with f the identity and enough credit, a score is exactly 0.0001 a vote and a proposal, less 0.0002 a malicious vote and a malicious proposal, less 0.001 a withheld and an equivocated view, plus 0.000001 |
| Incentives.OffenceCosts | consensus/Reputation.go:37-48 | with f the identity and enough credit, they lower the score by exactly 0.001, 0.001, 0.0002 and 0.0002 |
| Incentives.CallbackWrites | consensus/Reputation.go:183-196 | every end of a round, a stalled one too, writes the scores of nodes 0..n-1 into the next view's table and changes no other entry |
| Progress.VotesAgree | consensus/proposalAndForward.go:202-234 | in every state of a run all votes naming the leader as owner are for one hash |
| Progress.CertificatesAgree | consensus/vote.go:75-96 | two correct nodes holding a certificate for their current view hold it for the same hash, at every moment of the round |
| Progress.ViewCertificatesShareSigner | consensus/vote.go:69-88 | unless they are for the empty block, these two certificates share a signer, and have a correct one if the faulty nodes hold at most half of the reputation |
| Progress.RoundOutcome | consensus/client.go:99-175 | when the timers fire, either all correct nodes stay in their view or all advance by one with the same block and certified hash; it is the empty block exactly after withholding or equivocation; the leader is credited or charged accordingly |
| Progress.CommitNeedsForwards | consensus/proposalAndForward.go:202-210 | a block other than the empty one is committed only if every non-leader forwarded it |
| Progress.RoundProgress | consensus/proposalAndForward.go:49-92 | once a correct leader has been started with commands, a firing of the timers in its view takes every correct node to the next view with the leader's block, its certificate and the leader's credit if and only if n >= 2, every faulty non-leader has forwarded and the correct nodes together with the other voters hold more than half of the reputation, for every delivery order; otherwise all stay; the block holds the commands of the view's first start |
| Progress.StalledViewStays | consensus/proposalAndForward.go:55-61 | after a stalled round of a correct leader that has proposed, no correct node ever leaves the view unless a faulty node still forwards or votes |
| Progress.AllCorrectCarry | consensus/vote.go:69-88 | with two or more nodes, all of them correct, the condition of RoundProgress holds in every state of every run |
| Safety.RunGood | consensus/protocol.go:33-79 | the invariant of the system holds in every state of every run from the initial state |
| Runs.StepKeepsInv | consensus/reactor.go:24-83 | every action of the system keeps the invariant |
| RoundEnds.RoundAgreement | consensus/client.go:99-175 | the shared state after the callback is a function of the shared state before the round and of the set of messages said in it, for every node and order |
| RoundEnds.RoundStalls | consensus/client.go:153-159 | without a certificate the callback leaves the node in its view, still in step with what it has handled |
| RoundEnds.EntersNext | consensus/client.go:149-172 | after a committing round the node is in the next view with the shared state, nothing of the new view recorded yet, and a head certificate that every correct node accepts there |
| Rounds.ForwardStep | consensus/proposalAndForward.go:139-238 | handling any forward keeps the node's state determined by the set handled; it votes exactly when it holds one block from every non-leader and raises the alarm exactly when it has seen two |
| Rounds.VoteStep | consensus/vote.go:15-97 | the same for votes, including repeated, late, unsigned and certifying ones |
| Rounds.EquivocationStep | consensus/evidence.go:101-147 | the same for equivocation evidence: one empty block, certified on the spot |
| Rounds.ProposalEvidenceStep | consensus/evidence.go:149-188 | evidence of a malicious proposal amounts to inserting the offender into a set |
| Rounds.VoteEvidenceStep | consensus/evidence.go:190-228 | evidence of a malicious vote amounts to inserting the offender into a set |
| Rounds.LeaderProposes | consensus/proposalAndForward.go:49-92 | what a correct leader proposes is acceptable to every correct node and keeps it in step |
| Rounds.Pigeonhole | consensus/proposalAndForward.go:202-206 | n-1 distinct forwarders other than the leader are all the non-leaders |
| VoteAgreement.VoteNeedsEveryForward | consensus/proposalAndForward.go:139-238 | for any forwards in any order, a node votes only for a block of which every non-leader signed a forward |
| VoteAgreement.VotesAgreeByForwarding | consensus/proposalAndForward.go:139-238 | two nodes that vote in a view vote alike, whatever the leader and others send, as soon as one non-leader has forwarded only one block |
| VoteAgreement.VotesExactlyOffered | consensus/proposalAndForward.go:139-238 | some delivery order makes a node vote for a block if and only if every non-leader has forwarded it |
| VoteAgreement.AgreementIff | consensus/proposalAndForward.go:95-136 | votes agree in all delivery orders if and only if no two blocks were both forwarded by every non-leader |
| VoteAgreement.DoubleForwardsSplitVotes | consensus/proposalAndForward.go:95-136 | the forwarding step does not limit a node to one block per view: with three nodes and both non-leaders forwarding two blocks, two nodes can vote differently |
| ForwardReplies.AnyReplies | consensus/proposalAndForward.go:139-238 | for any node and any sequence of forwards: at most one message is sent; evidence if and only if the node is not the leader and among the valid forwards another block comes before the first block has one from every non-leader; a vote if and only if the first block is completed before that; nothing else ever |
| ForwardReplies.ConflictReported | consensus/proposalAndForward.go:182-199 | the evidence shows the first block seen and the first different one, whose hashes differ; the leader sends none; the ledger is left alone |
| ForwardReplies.CompletionVoted | consensus/proposalAndForward.go:202-234 | the vote is signed and names the block and its miner; a non-leader with an odd number that is set to vote maliciously names itself and a hash no block has, and is not set afterwards; a non-leader has the block on top of its chain and credits the leader |
| ForwardReplies.ValidIff | consensus/proposalAndForward.go:156-181 | a forward is valid if and only if the block has a hash, the leader and the forwarder have signed its header, and its certificate is accepted |
| Proposals.ProposeSends | consensus/proposalAndForward.go:49-92 | with a certified head and commands exactly one proposal is sent, with all its fields, and its block is on top of the chain and on record; otherwise nothing happens |
| Proposals.FirstSends | consensus/protocol.go:33-79 | the first leader's proposal builds on the genesis certificate |
| Proposals.ForwardSends | consensus/proposalAndForward.go:95-136 | the proposal is sent on, with all its fields and the forwarder's signature, if and only if it has a hash, the leader's signature and an accepted certificate |
| Proposals.ReportSends | consensus/attackInjection.go:180-212 | a proposal signed by somebody else than the leader is reported by signed accusation, except by node 0 |
| Proposals.StrayVoteSends | consensus/vote.go:32-36 | a vote naming another owner than the leader is reported by signed accusation and not counted |
| Certification.CertificationConfluent | consensus/vote.go:41-88 | after any sequence of votes the view is certified if and only if the accepted voters outweigh half the reputation; the certificate then has the poll's voters as signers, all distinct, and some one vote tipped the scales |
| Certification.LastVoteTips | consensus/vote.go:61-88 | names that vote: the poll before it is not above half, the final poll is that poll with it, and the certificate is made at it, with the hash and view it names |
| Certification.CertificateFrozen | consensus/vote.go:61-67 | once certified, no later vote changes certificate or poll |
| CertifiedHashes.CertifiableIff | consensus/vote.go:32-88 | for any set of votes, some order of delivering them all certifies a hash if and only if an accepted vote naming it can tip the scales: some accepted voters are not above half, and with it they are |
| CertifiedHashes.CertainIff | consensus/vote.go:32-88 | all orders certify one hash if and only if the accepted voters outweigh half and every vote that can tip the scales names it |
| CertifiedHashes.CertifyAlikeIff | consensus/vote.go:32-88 | two nodes with the same table that get the same votes certify alike in all orders if and only if all votes that can tip the scales name one hash |
| CertifiedHashes.MixedVotesSplit | consensus/vote.go:32-88 | with three votes of which one names another hash, two nodes that get all three can certify different hashes |
| Certification.CertificatesShareSigner | consensus/vote.go:69-88 | two certificates made of votes of nodes under one table share a signer, and each has a signer outside any group holding at most half |
| CertificateChecks.CertValidIff | consensus/cert.go:26-61 | for a known block whose extra data is not of length 1, a certificate of distinct signers is accepted if and only if it has a well-formed signature of each and they hold more than half of the table's total |
| CertificateChecks.OtherCertificates | consensus/cert.go:26-36 | one for an unknown block is refused, one for the genesis hash or a block with one letter of extra data accepted |
| CertificateChecks.RepeatedSignerAccepted | consensus/cert.go:42-59 | a quarter of the reputation, named three times, is accepted |
| CertificateChecks.AcceptedShareSigner | consensus/cert.go:55-59 | two accepted certificates of distinct signers for such blocks under one table share a signer |
| CertificateChecks.AcceptedNotBy | consensus/cert.go:55-59 | each has a signer outside any group holding at most half |
| CertificateChecks.ForwardsFounded | consensus/proposalAndForward.go:95-136 | a node sends on, and collects forwards of, only proposals on the genesis hash, a known block with one letter of extra data, or a known block whose certificate, if of distinct signers, has one outside any group holding at most half |
| CertificateChecks.RunForwardsFounded | consensus/proposalAndForward.go:139-178 | in every state of a run all forwards that count carry a certificate for the block committed in the view before, and unless that has one letter of extra data, one not made by a group holding at most half of that view's reputation |
| Certification.EqualWeightsMajority | consensus/vote.go:69-83 | while all reputations are equal and positive, certification means more than n/2 distinct voters |
| Certification.FirstViewMajority | consensus/client.go:177-190 | in view 1 that is the rule at every node |
| Weights.QuorumsIntersect | consensus/vote.go:188-196 | two sets of nodes that each outweigh half have a common member |
| Weights.UniformIsMajority | consensus/vote.go:188-196 | with equal weights, outweighing half is a strict majority |
| Evidence.EquivocationOnce | consensus/evidence.go:101-147 | any number of equivocation messages adds one empty block if and only if one is valid, the head is certified and the leader not yet on record, and nothing otherwise |
| Evidence.ChargesAreASet | consensus/evidence.go:190-228 | any sequence of evidence against votes leaves exactly the set of validly accused voters on record |
| Evidence.IndictmentsAreASet | consensus/evidence.go:149-188 | any sequence of evidence against proposals leaves exactly the set of validly accused proposers on record |
| Evidence.WithholdingHandled | consensus/evidence.go:231-257 | with a certified head a block without commands, marked "E", is added on top of it and certified without signers, and the leader is recorded; otherwise nothing happens |
| Evidence.EquivocationHandled | consensus/evidence.go:101-147 | the same for equivocation evidence, if it is valid and the leader not yet on record |
| Evidence.EquivocationEffectIff | consensus/evidence.go:259-310 | equivocation evidence has an effect if and only if it accuses the leader in this view, is signed by its origin, shows two proposals the leader has signed, the head is certified and the leader not on record |
| Evidence.ProposalEvidenceEffectIff | consensus/evidence.go:312-351 | evidence records the author of the proposal shown, and changes nothing else, if and only if it accuses in this view a non-leader not yet in the record, is signed by its origin and shows a proposal signed by its author |
| Evidence.VoteEvidenceEffectIff | consensus/evidence.go:353-391 | the same for a malicious vote, whoever is accused |
| Evidence.ForgedChangesNothing | consensus/evidence.go:279-284 | an accusation not signed by its origin, or of another view, changes nothing |
| Reputation.ReputationCalculate | consensus/Reputation.go:29-57 | the counting loops and the formula give the score, never below the initial one |
| Reputation.ScoreRange | consensus/Reputation.go:155-179 | scores lie in [1e-6, 1+1e-6) |
| Reputation.CleanViewKeepsScore | consensus/Reputation.go:29-57 | a view without recorded misbehaviour does not lower a node's score |
| Reputation.VotesAloneFloor | consensus/Reputation.go:37-44 | proposal penalties never take a score below what the votes alone earn |
| Reputation.PenaltyExact | consensus/Reputation.go:39-43 | the penalty sums do not wrap around while the view is at most 2^59 |
| Tallies.CountRecorded | consensus/Reputation.go:67-153 | the counters count, in any iteration order, the views in which a node is recorded |
| Tallies.SoleInRow | consensus/proposalAndForward.go:308-344 | recording a leader leaves it alone in the view's row, unless it was in it already, and changes no other row |
| Tallies.CreditConserved | consensus/proposalAndForward.go:333-344 | if every recorded view names exactly its owner, the counts of all nodes add up to the number of recorded views |
| BlockCertificates.CacheCorrect | msg/blockcert.go:43-100 | after any sequence of uses on well-formed data the communicated form equals a fresh rebuild, emitting it changes nothing it is built from, and the lookup map holds the last signature of exactly the signers |
| BlockCertificates.EmitsWhatWasPut | msg/blockcert.go:43-100 | after any sequence of uses the object communicates the hash and view set last and the votes in the order they came, on top of those loaded last |
| BlockCertificates.RoundTrip | msg/blockcert.go:43-85 | a certificate emitted by one object and loaded by another, both with any history, is the same on the other side |
| BlockCertificates.CertificatePortable | consensus/cert.go:15-61 | a certificate made from signed votes above half is accepted after transfer by every node with the block and the same table |
| BlockCertificates.NewCert | consensus/cert.go:15-23 | a new certificate holds each vote of the poll once, in whatever order the map yields them |
| BlockCertificates.BlockCertificate.ToProto | msg/blockcert.go:43-70 | the cached form when it is valid and of the right size, otherwise a rebuild, after at most one retry |
| BlockCertificates.BlockCertificate.FromProto | msg/blockcert.go:73-85 | all fields, the lookup map and the cache are taken over, the validity flag is left alone |
| BlockCertificates.BlockCertificate.AddVote | msg/blockcert.go:88-92 | signer, signature and lookup entry are added and the cache is invalidated |
| BlockCertificates.BlockCertificate.SetBlockInfo | msg/blockcert.go:95-100 | hash and view are set and the cache is invalidated |
| BlockCertificates.Transmit | msg/proposal.go:14-20 | sending a certificate object leaves the receiver with the same contents |
| Pacemakers.OneToken | consensus/command.go:10-30 | first-round flag, channel signals and running timers always add up to one, so rounds never overlap and the callback's send never blocks |
| Pacemakers.EnoughCommandsRun | consensus/command.go:3-30 | with a block's worth of commands a round is running after every new command |
| Pacemakers.RoundStartsIff | consensus/command.go:3-30 | a round starts if and only if a command comes, none is running and the pool then has a block's worth; it ends if and only if a timer fires |
| Pacemakers.FirstCommandStarts | consensus/protocol.go:33-40 | the pool starts with 1000 commands: the first new one starts a round if and only if the block size is at most 1001 |
| Pacemakers.CommandsConserved | consensus/command.go:38-52 | initial and added commands are at all times those pending and those in the batches handed out |
| Pacemakers.Batch | consensus/command.go:38-52 | none if and only if there are fewer than the block size; otherwise exactly the block size, and what remains in the pool followed by the batch is what was in it |
| Pacemakers.Pacemaker.AddCmdsAndStartTimerIfSufficientCommands | consensus/command.go:3-35 | the command is appended and a round started if the token allows |
| Pacemakers.Pacemaker.GetCmdsIfSufficient | consensus/command.go:38-52 | the newest commands are handed out and removed if there are enough, otherwise nothing changes |
| Pacemakers.Pacemaker.Callback | consensus/client.go:169-174 | the timer's token goes back into the channel, which has room for it |
| NodeObjects.SyncHS.VoteHandler | consensus/vote.go:15-97 | the object's fields change as `Replicas.HandleVote` says, for some order of filling the certificate |
| NodeObjects.SyncHS.GetCertBenchMark | consensus/vote.go:188-196 | the loop gives half of the view's total reputation |
| NodeObjects.SyncHS.VoteForBlock | consensus/vote.go:121-161 | the vote is recorded and broadcast |
| NodeObjects.SyncHS.ForwardProposalHandler | consensus/proposalAndForward.go:139-238 | the object's fields change as `Replicas.HandleForward` says |
| NodeObjects.SyncHS.Forward | consensus/proposalAndForward.go:95-136 | an acceptable proposal is signed and sent on, another is dropped |
| NodeObjects.SyncHS.Propose | consensus/proposalAndForward.go:49-92 | with a certified head and enough commands a block is added, recorded and broadcast, otherwise nothing happens |
| NodeObjects.SyncHS.IsCertValid | consensus/cert.go:26-61 | the loop with early exits decides `Replicas.IsCertValid` |
| NodeObjects.SyncHS.EquivocationEvidenceHandler | consensus/evidence.go:101-147 | the object's fields change as `Replicas.HandleEquivocation` says |
| NodeObjects.SyncHS.MaliciousProposalEvidenceHandler | consensus/evidence.go:149-188 | the flag-and-scan loop refines a set insertion and leaves the flag down |
| NodeObjects.SyncHS.MaliciousVoteEvidenceHandler | consensus/evidence.go:190-228 | the flag-and-scan loop refines a set insertion and leaves the flag down |
| NodeObjects.SyncHS.MaliciousProposalHandler | consensus/attackInjection.go:180-212 | a signed proposal by a non-leader is reported, except by node 0 |
| NodeObjects.SyncHS.HandleWithholdingProposal | consensus/evidence.go:231-257 | an empty certified block is added and the leader recorded, if the head is certified |
| NodeObjects.SyncHS.Handle | consensus/reactor.go:24-83 | a message is dispatched as `Replicas.Dispatch` says |
| NodeObjects.SyncHS.StartRound | consensus/attackInjection.go:21-49 | a withheld round adds the empty block, otherwise the leader proposes |
| NodeObjects.SyncHS.AddNewViewReputationToMap | consensus/Reputation.go:183-196 | the loop writes every node's score into the next view's table |
| NodeObjects.SyncHS.InitialReputationMap | consensus/client.go:177-194 | the loop writes the initial score of every node |
| RoundEnds.LeaderRotates | consensus/leader.go:8-10 | stepping the leader modulo n keeps it at (view-1) mod n |
| NodeObjects.SyncHS.Callback | consensus/client.go:99-175 | the object's fields change as `Replicas.Callback` says |
| NodeObjects.SyncHS.constructor | consensus/protocol.go:33-79 | view 1, leader 0, the genesis certificate and the initial table |
| NodeObjects.SumOf | consensus/vote.go:69-73 | adding entries in map order gives the order-free sum |
| Attacks.EquivocationAllowed | consensus/attackInjection.go:113-141 | the two proposals of an equivocating leader may be sent to any correct node |
| Attacks.MaliciousProposalAllowed | consensus/attackInjection.go:150-178 | a non-leader's own proposal may be broadcast |
| Attacks.FaultyMayForward | consensus/attackInjection.go:53-71 | a faulty non-leader may forward one of an equivocating leader's two blocks |
| Attacks.FaultyMayForwardCorrect | consensus/proposalAndForward.go:95-136 | a faulty non-leader may forward a correct leader's block as the correct ones do |
| Attacks.FaultyMayVote | consensus/attackInjection.go:94-110 | a faulty node may vote for a block that everybody has forwarded |
| Attacks.MaliciousVoteAllowed | consensus/attackInjection.go:215-257 | a vote for a block that does not exist may be broadcast |

## Left out

- Faulty nodes' own states: only the messages they send are modelled, so nothing is said about a malicious voter's own records, which credit it with a vote (`consensus/attackInjection.go:247`).
- Arbitrary Byzantine behaviour in runs: the messages of faulty nodes are restricted as described above. The code itself does not keep a node from forwarding two blocks, accepts any two blocks signed by the leader as equivocation evidence, and does not check that a vote for the leader names the leader's block or is of the current view.
- The body of a block is not covered by hash or signature (`consensus/proposalAndForward.go:365-370`); that one hash has one body is assumed of faulty leaders.
- A reference the code would find nil and crash on (a block missing from the hash map, a reputation entry of an unknown node, a certificate with fewer signatures than signers) is treated as a rejection or as weight zero.
- Certificate signatures: as in the code, only the error of the check is used, not its verdict, and the data signed by votes is not the data in a certificate; it is not claimed that signatures verify over certificate data.
- BlockCertificates.BlockCertificate.AddVote: the object starts with its lookup map made; adding a vote before `Init` would crash. The marshalled form of hash and view is modelled as the pair itself, so data that does not unmarshal is not covered.
- NodeObjects.SyncHS.StartRound: one method for the normal start and the withholding start; taking commands from the pool is a parameter here and modelled in `Pacemakers`.
- NodeObjects.SyncHS.Callback: the acknowledgement to clients and the token are not part of it; the token is `Pacemakers.Pacemaker.Callback`.
- Rounding of `big.Float` and `float64`: scores are real numbers.
- Goroutines, locks and data races: a handler's work on one message is one atomic step.
- The network, streams, marshalling, the client and its acknowledgements, block delivery waiting, logging: I/O or no effect on the state.
- `ethereum`, `config`, `node`, `p2p`, `state`, `tools`, generated protobuf code: wrappers, configuration or data.
