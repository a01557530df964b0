# A verified model of the Malachite consensus engine

Malachite is a Byzantine fault tolerant consensus engine in Rust. It implements the Tendermint
algorithm of "The latest gossip on BFT consensus" (arXiv:1807.04938, Algorithm 1, lines 11-67), with
value sync for nodes that fall behind, a write-ahead log, and a keeper that pairs proposals with the
values they propose. This project models those parts in Dafny and proves what they promise.
`dafny verify dfyconfig.toml` checks all of it.

## The engine

- `StateMachine.dfy`: the pure round state machine, `Apply(state, info, input)`.
- `Agreement.dfy`: a network of weighted validators, some of them faulty. Correct nodes take steps of
  `Apply`, a guarded input being available only when the votes sent say what the input claims. The
  invariant of every reachable state gives one vote per round, lock persistence, agreement and round
  legitimacy. One vote per round is derived from the steps a node goes through.
- `VoteKeeper.dfy`: the vote keeper as a class with running weights, proved to agree with a recount of
  the recorded votes (`Ledger`, `Record`). `VoteKeeperRuns.dfy`: the recount over sequences of votes.
- `Certificates.dfy`: the certificate verifiers. `CertificateBuilding.dfy` and `CertificateRuns.dfy`: when
  the verifiers accept the certificates a driver builds, in one state and over runs.
- `DriverModel.dfy`: the driver and its multiplexer as functions on values, with the loop of `process`.
  `Driver.dfy`: the driver as a class; its loops and what it decides on running weights are proved against
  that model.
  `DriverRuns.dfy` and `DriverBacking.dfy`: what holds of every sequence of driver calls. `DriverOutputs.dfy`:
  why a call outputs what it outputs. `DriverSettling.dfy` and `DriverCompleteness.dfy`: that nothing the
  stored proposals and votes call for is missed. `DriverAnswers.dfy`: when each message is acted upon.
  `MissedProposal.dfy`: a proposal the code does miss.
- `Engine.dfy`: correct nodes run drivers over the network. Every call is a chain of state machine steps,
  so agreement and round legitimacy carry over to the whole engine. `CertificateLookup.dfy`: what becomes of
  agreement when a certificate is found for the wrong value.

Around it: `Ranges.dfy` and `Sync.dfy` (value sync), `Wal.dfy` and `WalLog.dfy` (write-ahead log),
`FullProposal.dfy` and `FullProposalKeeper.dfy` (pairing), `Types.dfy` and `Quorum.dfy` (rounds, votes,
powers and thresholds).

## Conventions

- `Round::Nil` is `-1`; rounds and heights are unbounded. Voting powers are `u64` in the source: sums
  and products that the source checks are checked here (`CheckedAdd`, `CheckedMul`), and proved never to
  overflow when the thresholds fit (`ParamsFit`; for the default thresholds, when three times the total
  power fits).
- A validator set is a list; the power of a set of addresses is the sum over the validators of the list
  that are in it. `Unique` says that no address is listed twice.
- Signature checking is a predicate on votes and signatures, the checksum of the log a function on bytes.
  Random peer selection, failing writes, failing sends and the order of hash maps are arbitrary choices.
- A panic of the source is a precondition, shown to hold on runs where the source promises it cannot happen.
  The assertions of `prevote_previous` and `multiplex_proposal` are stated of the inputs fed instead:
  `DriverBacking.PrevoteAssertionsHold`, `DriverBacking.ProposalHeightsHold`.
- Values carry an id and a body. Only the pairing of proposals with values assumes that ids are injective
  (`AllKnown`), and `CollidingIdsSplit` shows what happens otherwise.

## Where the code does less than one might expect

- `multiplex_proposal` looks stored polka certificates up by round and not by value. A proposal that
  claims the round of another value's polka then breaks a lock: `CertificateLookup.LockIsBroken` is a run of
  one driver, and in `CertificateLookup.AgreementNeedsSoundLookups` two correct drivers decide differently.
  `Engine.DriversAgree` holds of every run in which no such lookup is misled, and
  `Engine.FedPolkaIsTrueIff` says exactly when one is.
- Precommit and polka certificates are built from all recorded votes, repetitions included, and a repeated
  vote makes the verifier reject them: `CertificateRuns.RepeatedVoteSpoilsCertificate` is a run, and
  `CertificateRuns.HeldCertificateIsJudged` and `CertificateRuns.BuiltPolkaIsJudged` give the exact condition
  over every run. Skip certificates drop repetitions and are accepted.
- The lookup of a stored proposal by value finds the first of the round. A second one for the same value,
  naming another POL round, is missed: `MissedProposal.SecondProposalIsMissed` is a run, and
  `DriverAnswers.PolkaIsUsedIff` the exact condition for using a polka that becomes known.
- A nil polka held on entering the prevote step is passed over when there is a quorum of precommits too:
  `DriverAnswers.NilPolkaIsUsedIff`. A vote of a later round that completes a commit quorum is reported as a
  skip only: `DriverAnswers.CommitIsUsedIff`. A proposal whose commit quorum is known is not decided when it
  comes before the first round start: `DriverAnswers.ProposalDecidesIff`.
- A round start of a driver that is in a round renumbers it and looks at nothing stored:
  `DriverAnswers.StartInRoundRenumbers`.
- The log accepts entries of any size but refuses to read one over 1 GiB: `WalLog.EntriesComeBack`.
- An append that succeeds after one that tore and could not be undone can be lost on reopening
  (`WalLog.AppendCanBeLost`). It comes back if and only if the file starts with its bytes at the tear:
  `Wal.LaterComeBackIff`, and `WalLog.AppendAfterTorn` on the log.
- A proposal that reuses a value through two POL rounds is paired only if the proposals arrive in that
  order: `FullProposals.ChainedPolDependsOnOrder`; `FullProposals.PairedIff` is the exact condition.

## Model

| member | source | states |
|---|---|---|
| Quorum.FittingTestNeverPanics | code/crates/core-types/src/threshold.rs:68-78 | the overflow check of the threshold test does not trip when numerator and denominator times the total fit in 64 bits |
| Quorum.DefaultParamsFit | code/crates/core-types/src/threshold.rs:33-57 | the default 2/3 and 1/3 thresholds fit exactly when three times the total does |
| Quorum.MetFromMinimum | code/crates/core-types/src/threshold.rs:68-87 | a weight meets the threshold exactly when it is at least the expected minimum |
| Quorum.QuorumsOverlap | code/crates/core-types/src/threshold.rs:33-57 | two sets with over 2/3 of the power share more than 1/3 |
| Quorum.HasCorrectMember | code/crates/core-types/src/threshold.rs:33-57 | a set with more power than the faulty validators contains a correct one |
| Quorum.QuorumsShareCorrect | code/crates/core-types/src/threshold.rs:33-57 | two quorums share a correct validator |
| StateMachine.ApplyKeepsLockDiscipline | code/crates/core-state-machine/src/state_machine.rs:71-250 | locked round at most valid round at most current round, a lock or a valid value of this round only after precommit, a decision only in the commit step: kept by every input but a round start that goes back |
| StateMachine.VoteComesFromStep | code/crates/core-state-machine/src/state_machine.rs:335-480 | a prevote is output only on leaving the propose step of that round, a precommit only on leaving its prevote step, under the node's own address |
| StateMachine.StepChangeHasOutput | code/crates/core-state-machine/src/state_machine.rs:71-250 | every step change carries an output; the step falls and the round changes only by the inputs that leave or start a round |
| StateMachine.OutputIff | code/crates/core-state-machine/src/state_machine.rs:71-250 | every output, by what yields it: a prevote for a proposal exactly when unlocked, locked on its value or locked no later than its POL round, nil votes, each kind of timeout, a valid value proposed again with the round it became valid in, a new value without one, requests for a value, round skips and decisions |
| StateMachine.ValidChangesByPolka | code/crates/core-state-machine/src/state_machine.rs:437-540 | the valid value becomes that of a proposal with a polka of the round, with that round, and changes in no other way |
| StateMachine.LockChangesByPrecommit | code/crates/core-state-machine/src/state_machine.rs:437-465 | a lock is taken exactly with a precommit for that value in that round, and no other transition precommits a value |
| StateMachine.DecisionHasInput | code/crates/core-state-machine/src/state_machine.rs:558-576 | a decision appears only from a proposal with a precommit quorum, for its value and round |
| StateMachine.RoundChangesByInput | code/crates/core-state-machine/src/state_machine.rs:223-238 | where the round can go, and that precommit timers are scheduled only on a precommit quorum of that round |
| StateMachine.DecisionIsFinal | code/crates/core-state-machine/src/state_machine.rs:216-245 | after a decision no input changes the state or outputs anything; a decision output is the first one and matches the state |
| Agreement.ReceiveKeepsVoting | code/crates/core-state-machine/src/state_machine.rs:71-250 | a correct node votes at most once per round and type, and its votes lie in its past: kept by every input that does not start an earlier round, even one that claims votes nobody sent |
| Agreement.StepKeepsInv | code/crates/core-state-machine/src/state_machine.rs:71-250 | every step of the network keeps: correct nodes vote once per round and type, precommits lock, locks and valid values have a polka, prevotes are justified, decisions have a precommit quorum |
| Agreement.RunKeepsInv | code/crates/core-state-machine/src/state_machine.rs:71-250 | the same in every reachable state |
| Agreement.OneQuorumPerRound | code/crates/core-state-machine/src/input.rs:32-62 | in one round no two values both have a quorum of the same vote type |
| Agreement.PrecommitQuorumHasPolka | code/crates/core-state-machine/src/state_machine.rs:437-465 | a precommit quorum for a value implies a prevote quorum for it in that round |
| Agreement.LockPersistence | code/crates/core-state-machine/src/state_machine.rs:335-412 | once 2/3 precommitted a value in a round, no other value gathers 2/3 prevotes in that or any later round |
| Agreement.LockPersistenceOnRuns | code/crates/core-state-machine/src/state_machine.rs:335-412 | the same when the precommits and the prevotes are seen at different moments of a run |
| Agreement.LocksStayOrdered | code/crates/core-state-machine/src/state_machine.rs:437-465 | on every run a correct node keeps locked round, valid round and round in order |
| Agreement.QuorumsAgree | code/crates/core-state-machine/src/state_machine.rs:558-576 | precommit quorums of any two rounds are for the same value |
| Agreement.DecisionPersists | code/crates/core-state-machine/src/state_machine.rs:558-576 | a correct node's decision stays on every run |
| Agreement.Agreement | code/crates/core-state-machine/src/state_machine.rs:71-250 | with faulty power below 1/3, any two decisions of correct nodes, at any moments and in any rounds, are for the same value |
| Agreement.SkippedToIsEarned | code/crates/core-votekeeper/src/keeper.rs:261-274 | votes of over 1/3 of the power in a round contain one of a correct node that was there before |
| Agreement.RoundLegitimacy | code/crates/core-state-machine/src/state_machine.rs:223-238 | when timers fire only if scheduled, a correct node in a round implies a precommit quorum in every earlier round |
| VoteKeeping.GetWeightIsRecount | code/crates/core-votekeeper/src/count.rs:46-48 | the weight kept for a value is the power of the validators whose recorded vote is for it, at most the total |
| VoteKeeping.AddToCount | code/crates/core-votekeeper/src/count.rs:34-43 | adding a vote keeps the weights equal to the recount, counts a validator once, and its checked addition does not overflow |
| VoteKeeping.SumValues | code/crates/core-votekeeper/src/value_weights.rs:42-50 | the sum over values is the power of all voters of that type, without overflow |
| VoteKeeping.SumWeights | code/crates/core-votekeeper/src/round_weights.rs:45-47 | the sum over addresses is the power of all distinct voters of the round, without wrapping |
| VoteKeeping.VoteKeeper.constructor | code/crates/core-votekeeper/src/keeper.rs:178-185 | a new keeper has recorded nothing |
| VoteKeeping.VoteKeeper.AddVote | code/crates/core-votekeeper/src/keeper.rs:93-119 | a vote is returned as a conflict exactly when it contradicts a recorded vote of that validator and type, and then nothing changes; otherwise the running weights follow the recount |
| VoteKeeping.VoteKeeper.Compute | code/crates/core-votekeeper/src/keeper.rs:321-350 | the threshold found from the running weights is the one the recount gives |
| VoteKeeping.VoteKeeper.EmitOutput | code/crates/core-votekeeper/src/keeper.rs:261-294 | skip and threshold outputs, each non-skip output once per round, as on the recount |
| VoteKeeping.VoteKeeper.ApplyVote | code/crates/core-votekeeper/src/keeper.rs:230-294 | refines the recount: state and output equal those of recording the vote in a plain list of votes |
| VoteKeeping.VoteKeeper.IsThresholdMet | code/crates/core-votekeeper/src/keeper.rs:297-311 | the test answers as the recount does |
| VoteKeeping.VoteKeeper.PruneVotes | code/crates/core-votekeeper/src/keeper.rs:314-316 | forgets exactly the rounds below the bound |
| VoteKeepingRuns.RunKeepsOk | code/crates/core-votekeeper/src/keeper.rs:230-294 | after any votes: one value per validator and type, every emitted output is met, all evidence is real |
| VoteKeepingRuns.ThresholdsStayMet | code/crates/core-votekeeper/src/keeper.rs:297-311 | a threshold once met stays met whatever votes follow |
| VoteKeepingRuns.EmittedOnce | code/crates/core-votekeeper/src/keeper.rs:275-294 | in a round no output but a skip is emitted twice |
| VoteKeepingRuns.QuorumIsUnique | code/crates/core-votekeeper/src/keeper.rs:321-350 | at most one of nil and the values has a quorum of one type in a round |
| VoteKeepingRuns.NoRivalOutputs | code/crates/core-votekeeper/src/keeper.rs:353-365 | PolkaNil, PolkaValue(v) and PolkaValue(w), or two precommit values, are never both emitted for a round |
| VoteKeepingRuns.EvidenceIsConflict | code/crates/core-votekeeper/src/evidence.rs:40-49 | each evidence pair is two different votes of one validator, of one type and round |
| VoteKeepingRuns.ConflictIsEvidence | code/crates/core-votekeeper/src/keeper.rs:243-259 | every vote of a known validator that contradicts a recorded one is kept as evidence with it, after any further votes |
| VoteKeepingRuns.EmittedIff | code/crates/core-votekeeper/src/keeper.rs:261-294 | after any votes an output other than a skip has been emitted for a round if and only if some vote of the round called for it by the votes recorded with it |
| VoteKeepingRuns.ReportedIff | code/crates/core-votekeeper/src/keeper.rs:261-365 | an output is given with the first vote of its round that calls for it, and only then |
| VoteKeepingRuns.SkipReportedIff | code/crates/core-votekeeper/src/keeper.rs:261-276 | a skip is given exactly for a countable vote of a later round with which the distinct voters of that round exceed the honest threshold |
| VoteKeepingRuns.CompletingVoteReports | code/crates/core-votekeeper/src/keeper.rs:321-365 | the vote that completes a quorum for a value, or a nil polka, reports exactly that unless it skips |
| VoteKeepingRuns.QuorumIsReported | code/crates/core-votekeeper/src/keeper.rs:321-365 | after any votes none of which was ahead of its round, there is a prevote or precommit quorum for a value, or a nil polka, if and only if it was reported |
| VoteKeepingRuns.PruneKeepsFrom | code/crates/core-votekeeper/src/keeper.rs:314-317 | after pruning the thresholds met are those of the rounds at or above the bound, and the evidence stays |
| VoteKeepingRuns.RecordsExactlyTheVotes | code/crates/core-votekeeper/src/keeper.rs:230-260 | without conflicts exactly the votes of known validators are recorded, each in its round |
| VoteKeepingRuns.OrderDoesNotMatter | code/crates/core-votekeeper/src/keeper.rs:297-311 | thresholds depend on the set of non-conflicting votes, not on order or repetition |
| Certificates.KeepFirstPerAddress | code/crates/core-driver/src/driver.rs:558-576 | the loop that drops repeated voters keeps the first vote of each |
| Certificates.VerifySignatures | code/crates/signing/src/ext.rs:343-401 | the common loop: accepts exactly when signers are distinct, known and of an allowed type and the verifying ones meet the threshold; otherwise reports the first fault, or the power found |
| Certificates.VerifyCommitCertificate | code/crates/signing/src/ext.rs:224-272 | accepts exactly the fault-free commit certificates whose verifying power meets the quorum |
| Certificates.VerifyPolkaCertificate | code/crates/signing/src/ext.rs:282-332 | the same for polka certificates |
| Certificates.VerifyRoundCertificate | code/crates/signing/src/ext.rs:343-401 | the same for round certificates, with the quorum for precommit and 1/3 for skip certificates |
| Certificates.RoundAcceptedIff | code/crates/signing/src/ext.rs:343-401 | a precommit certificate is accepted if and only if its signers are distinct and known, none signed a prevote, and those with verifying precommits of its height and round have a quorum; a skip certificate if and only if they are distinct and known and those with verifying votes of the round exceed one third |
| Certificates.PolkaAcceptedIff | code/crates/signing/src/ext.rs:282-332 | a polka certificate is accepted if and only if its signers are distinct and known and those with verifying prevotes for its value have a quorum |
| Certificates.CommitAcceptedIff | code/crates/signing/src/ext.rs:224-272 | the same for commit certificates and precommits |
| Certificates.AcceptedCommitIsQuorum | code/crates/signing/src/ext.rs:224-272 | an accepted commit certificate has distinct known signers, and those with verifying precommits have over 2/3 of the power |
| Certificates.ConflictingCommitsExposeSigners | code/crates/signing/src/ext.rs:224-272 | two accepted certificates of one height and round for different values: over 1/3 of the power signed both |
| CertificateBuilding.FirstPerAddressSpec | code/crates/core-driver/src/driver.rs:558-576 | dropping repetitions keeps the voters and leaves each once |
| CertificateBuilding.SkipCertificateAccepted | code/crates/core-driver/src/driver.rs:558-578 | a skip certificate built from authentic votes that meet the skip threshold is accepted |
| CertificateBuilding.PrecommitCertificateAcceptedIff | code/crates/core-driver/src/driver.rs:537-556 | a precommit round certificate built on a quorum is accepted if and only if no precommit was recorded twice |
| CertificateBuilding.PolkaCertificateAcceptedIff | code/crates/core-driver/src/driver.rs:504-523 | a polka certificate built on a quorum is accepted if and only if no prevote for the value was recorded twice |
| CertificateRuns.HeldCertificateIsJudged | code/crates/core-driver/src/driver.rs:481-493 | over every run on authentic votes: the round certificate held is accepted if it is a skip certificate, and a precommit certificate if and only if no precommit of its round was recorded twice when it was stored |
| CertificateRuns.BuiltPolkaIsJudged | code/crates/core-driver/src/driver.rs:481-484 | over every run on authentic votes: the polka certificate a vote completes is accepted if and only if no prevote for its value was recorded twice |
| CertificateRuns.CertificateIsStored | code/crates/core-driver/src/driver.rs:455-512 | a recorded vote stores a round certificate exactly when it reports a skip or a precommit quorum of the round the driver is in, for the round to enter and signed by all who voted so, and a polka certificate when it reports a polka |
| CertificateRuns.RepeatedVoteSpoilsCertificate | code/crates/core-votekeeper/src/keeper.rs:98-116 | a run in which one precommit is applied twice under two good signatures, and the certificate stored is rejected |
| DriverModel.StepInputsStay | code/crates/core-driver/src/mux.rs:363-413 | re-multiplexed inputs never leave or restart the round |
| DriverModel.RankRises | code/crates/core-state-machine/src/state_machine.rs:71-250 | inputs that stay in the round never lower the step |
| DriverModel.FeedAllRaises | code/crates/core-driver/src/driver.rs:285-296 | a pass over pending inputs leaves new ones only if the step rose |
| DriverModel.DrainStep | code/crates/core-driver/src/driver.rs:277-299 | each pass of the outer loop leaves fewer passes to go, so the loop ends |
| DriverModel.FeedOnePending | code/crates/core-driver/src/driver.rs:277-284 | when the first step has no output nothing is pending, so returning early loses nothing |
| DriverRuns.ProcessIsChain | code/crates/core-driver/src/driver.rs:277-299 | a call ends with nothing pending, and is a chain of state machine steps of which only the first may leave the round |
| DriverRuns.DriverNeverEquivocates | code/crates/core-driver/src/driver.rs:265-355 | within a height, for every sequence of calls with rounds going either way, votes of one type come in non-decreasing rounds and votes of one round are equal |
| DriverOutputs.BroadcastIff | code/crates/core-state-machine/src/state_machine.rs:260-331 | a call broadcasts a proposal if and only if it starts a round of which we are the proposer with a valid value held, proposed with the round it became valid in, or brings a new value in the propose step |
| DriverOutputs.ValueAskedIff | code/crates/core-state-machine/src/state_machine.rs:286-297 | a value is asked for if and only if a call starts a round of which we are the proposer and no value is valid |
| DriverOutputs.VoteOutputIff | code/crates/core-driver/src/driver.rs:321-355 | an input casts a vote if and only if the rules ask for it and our last vote of its type does not stand against it |
| DriverOutputs.VoteHasReason | code/crates/core-state-machine/src/state_machine.rs:335-480 | every vote a call casts is asked for by an input it feeds; a prevote for a value respects the lock |
| DriverOutputs.ValidValueHasOrigin | code/crates/core-state-machine/src/state_machine.rs:437-540 | on every run the valid value was brought by a call before, with a polka of its round |
| DriverSettling.AdvancingCallSettles | code/crates/core-driver/src/mux.rs:363-394 | a call that changes the step ends with everything called for in the step it ends in fed in that step |
| DriverSettling.SettledProposing | code/crates/core-driver/src/mux.rs:363-394 | then in the propose step no stored proposal of the round is without a POL round or has a polka in it |
| DriverSettling.SettledPrevoting | code/crates/core-driver/src/mux.rs:363-394 | and in the prevote step the first valid proposal for a value has no prevote quorum, and nil has one only beside a quorum of precommits |
| DriverCompleteness.CallKeepsComplete | code/crates/core-driver/src/mux.rs:81-394 | every call keeps this: proposals, votes, certificates and timeouts |
| DriverCompleteness.NothingIsMissed | code/crates/core-driver/src/mux.rs:81-394 | at every moment of every run: in the propose step no stored proposal of the round lacks a POL round, and no valid one has a known polka in an earlier POL round; in the prevote step none has a prevote quorum, and nil has one only beside a quorum of precommits |
| DriverAnswers.StartInRoundRenumbers | code/crates/core-driver/src/driver.rs:408-428 | a round start of a driver that is in a round changes its number and proposer, outputs nothing and looks at nothing stored |
| DriverAnswers.PolkaIsUsedIff | code/crates/core-driver/src/mux.rs:240-361 | an earlier polka that a vote or a certificate makes known ends the propose step if and only if the first stored proposal of the round for its value names its round, and is valid if the message is a certificate |
| DriverAnswers.NilPolkaIsUsedIff | code/crates/core-driver/src/mux.rs:363-413 | a nil polka held on entering the prevote step is acted upon in that call if and only if there is no quorum of precommits, for thresholds of at least half |
| DriverAnswers.CommitIsUsedIff | code/crates/core-driver/src/mux.rs:208-232 | a commit quorum that a vote or a certificate makes known for a stored valid proposal is decided in that call, unless the vote makes the driver skip |
| DriverAnswers.ProposalDecidesIff | code/crates/core-driver/src/mux.rs:81-150 | a valid proposal whose commit quorum is known is decided when it comes in, unless no round was started |
| DriverAnswers.PrecommitsStartTimer | code/crates/core-driver/src/mux.rs:290-360 | a precommit quorum reported for the round we are in starts the precommit timeout, unless it is for a stored valid proposal |
| DriverAnswers.PrevotesStartTimer | code/crates/core-driver/src/mux.rs:290-360 | a prevote quorum for no single value, reported in the prevote step, starts the prevote timeout |
| DriverAnswers.CertificateStartsTimer | code/crates/core-driver/src/mux.rs:240-285 | a polka certificate of the round for a value without a proposal does so too |
| DriverAnswers.AdvancingStartsTimer | code/crates/core-driver/src/mux.rs:363-413 | a call that changes the step starts the timeout that the votes held for the round call for |
| DriverAnswers.TimerForIff | code/crates/core-driver/src/mux.rs:363-413 | that is the precommit timeout with a quorum of precommits, and otherwise the prevote timeout in the prevote step with a quorum of prevotes that is not for nil |
| DriverAnswers.SkipMoves | code/crates/core-driver/src/mux.rs:290-360 | a reported skip moves the driver to the round skipped to, between rounds |
| DriverAnswers.TimeoutElapsesIff | code/crates/core-driver/src/driver.rs:580-595 | a timeout acts exactly in the step and round it is for: it ends the propose step with a prevote for nil, the prevote step with a precommit for nil, and the round; the vote is cast unless our last vote stands against it |
| DriverAnswers.LateProposalBecomesValid | code/crates/core-driver/src/mux.rs:81-189 | after our precommit a valid proposal of the round that comes in with its polka known, and its commit quorum not, becomes the valid value |
| DriverAnswers.LatePolkaBecomesValid | code/crates/core-driver/src/mux.rs:240-361 | so does the first stored one for a value when a vote or a certificate brings its polka, if its POL round is not its own round |
| MissedProposal.SecondProposalIsMissed | code/crates/core-driver/src/mux.rs:240-285 | a run that ends in the propose step with a valid proposal stored whose polka is known, because an earlier proposal for the same value names another POL round |
| DriverBacking.EveryFedInputIsBacked | code/crates/core-driver/src/mux.rs:81-413 | every commit input fed has a valid proposal and a commit certificate or precommit quorum; every polka input has a polka for that value in its round or POL round, with no hypothesis when the call brought a vote or a certificate, and otherwise unless the certificate found for the round is for another value; nil polkas, skips and the inputs for any prevotes or precommits have their weight |
| DriverBacking.PrevoteAssertionsHold | code/crates/core-state-machine/src/state_machine.rs:373-412 | the assertion on the POL round in `prevote_previous` holds of every input fed in any call |
| DriverBacking.ProposalHeightsHold | code/crates/core-driver/src/mux.rs:81-88 | on every run at one height with known proposers, whenever an input is fed the driver and all proposals it stores are of that height, so the assertion of `multiplex_proposal` holds |
| DriverBacking.DecisionsAreSound | code/crates/core-driver/src/mux.rs:127-144 | every Decide output of a run is for a proposal supplied as valid, with a commit certificate or a precommit quorum for its round and value held at that moment |
| DriverBacking.DecidesOnce | code/crates/core-state-machine/src/state_machine.rs:216-245 | a run outputs at most one Decide, and the state keeps that decision |
| DriverBacking.DecisionStays | code/crates/core-state-machine/src/state_machine.rs:558-576 | later calls do not change a decision |
| DriverObject.Driver.constructor | code/crates/core-driver/src/driver.rs:80-104 | a new driver is the model's new driver |
| DriverObject.Driver.MultiplexProposal | code/crates/core-driver/src/mux.rs:81-189 | chooses the model's input from the fields and the running weights |
| DriverObject.Driver.MultiplexStepChange | code/crates/core-driver/src/mux.rs:363-394 | the loop over stored proposals builds the model's list of inputs |
| DriverObject.Driver.ApplyInput | code/crates/core-driver/src/driver.rs:594-620 | state, pending inputs and result as the model says, the lost round state without a proposer included |
| DriverObject.Driver.StoreSkipCertificate | code/crates/core-driver/src/driver.rs:558-578 | sets the round certificate of the first vote of each voter |
| DriverObject.Driver.ApplyProposal | code/crates/core-driver/src/driver.rs:435-453 | stores and multiplexes a proposal, or rejects another height |
| DriverObject.Driver.ApplyVote | code/crates/core-driver/src/driver.rs:455-502 | records a vote, builds its certificate and multiplexes its threshold, or rejects another height or an unknown validator |
| DriverObject.Driver.FeedBatch | code/crates/core-driver/src/driver.rs:288-295 | the inner loop feeds a batch in order |
| DriverObject.Driver.Process | code/crates/core-driver/src/driver.rs:277-299 | terminates with no pending inputs, in the state and with the outputs of the model |
| DriverObject.Driver.PruneVotesAndCertificates | code/crates/core-driver/src/driver.rs:526-535 | forgets exactly the votes and polka certificates of lower rounds |
| Engine.BackedInputIsGuarded | code/crates/core-state-machine/src/input.rs:32-62 | a truthful input a driver feeds holds of the votes sent |
| Engine.BackedInputIsTimed | code/crates/core-driver/src/mux.rs:295-315 | a skip a driver feeds has over 1/3 of the power in that round, and a precommit-any input 2/3 of the precommits, among the votes sent |
| Engine.ChainKeeps | code/crates/core-driver/src/driver.rs:277-299 | the steps of a call keep the invariant behind agreement and that rounds are earned |
| Engine.StepKeepsEngineInv | code/crates/core-driver/src/driver.rs:277-299 | every call, pruning or faulty vote keeps the invariants of the engine |
| Engine.RunKeepsEngineInv | code/crates/core-driver/src/driver.rs:277-299 | the same in every reachable state of the engine |
| Engine.DriversAgree | code/crates/core-driver/src/driver.rs:188-193 | any two decisions of correct drivers, at any moments of a run and in any rounds, are for the same value, as long as no polka input fed rests on a certificate found for another value |
| Engine.DriverRoundsAreEarned | code/crates/core-driver/src/mux.rs:295-315 | when precommit timeouts fire only if scheduled, a correct driver in a round implies a precommit quorum in every earlier round, misled lookups or not |
| Engine.BroadcastHasPolka | code/crates/core-state-machine/src/state_machine.rs:270-285 | a proposal a correct driver broadcasts with a POL round is of a later round on every run, and its polka has been sent on every run with sound lookups |
| Engine.FedPolkaIsTrueIff | code/crates/core-driver/src/mux.rs:95-98 | at every moment of every engine run, with or without sound lookups before it, a polka input fed by a correct driver is true of the votes sent if and only if every certificate the driver holds for its round is for its value, or its own count meets it |
| CertificateLookup.LockIsBroken | code/crates/core-driver/src/mux.rs:95-108 | a run of a driver from the start, with a certificate the verifier accepts and a timeout that was scheduled, in which a driver locked on one value prevotes another that claims the POL round of its lock |
| CertificateLookup.AgreementNeedsSoundLookups | code/crates/core-driver/src/mux.rs:95-108 | a run with genuine messages, precommit timeouts only as scheduled and faulty power below 1/3 in which two correct drivers decide differently; a lookup in it is misled |
| Engine.AcceptedCertificatesAreGenuine | code/crates/signing/src/ext.rs:224-332 | certificates the verifiers accept stand for votes that were sent, when signatures cannot be forged |
| Ranges.ComputeFreeWindow | code/crates/sync/src/handle.rs:526-612 | for any ranges: none exactly when the size is 0 or every candidate is covered; otherwise starts at the least uncovered height, covers no range, and ends as late as cap, size and next range allow |
| Ranges.ExciseRemovesExactly | code/crates/sync/src/handle.rs:454-484 | removes exactly the height, keeps ranges disjoint, fails exactly when no range has it |
| Ranges.PruneKeepsExactlyAbove | code/crates/sync/src/state.rs:182-191 | leaves exactly the heights above the bound |
| Sync.CountHeights | code/crates/sync/src/handle.rs:499-507 | added range sizes are the number of heights of a request |
| Sync.CountRequests | code/crates/sync/src/handle.rs:488-510 | the count is the number of distinct heights in flight and pending |
| Sync.PeersFor | code/crates/sync/src/state.rs:88-120 | peers that have at least the start of the range, only those with all of it if there are any; empty exactly when no peer has it |
| Sync.FindPending | code/crates/sync/src/state.rs:152-169 | finds a pending request with the height exactly when there is one |
| Sync.ShrinkKeepsSlotsOk | code/crates/sync/src/handle.rs:149-157 | requests that lose heights stay disjoint and within the budget |
| Sync.AddKeepsSlotsOk | code/crates/sync/src/handle.rs:725-770 | a request for free heights keeps ranges disjoint and adds its size to the count |
| Sync.ExcisePendingExact | code/crates/sync/src/handle.rs:437-446 | one height leaves one request, which goes when it has no other |
| Sync.PrunePendingExact | code/crates/sync/src/state.rs:182-191 | every request keeps exactly its heights above the bound, none is left empty |
| Sync.SyncState.constructor | code/crates/sync/src/state.rs:51-71 | nothing in flight or pending |
| Sync.SyncState.CurrentNumberOfHeights | code/crates/sync/src/handle.rs:488-510 | the number of heights held |
| Sync.SyncState.HeldRanges | code/crates/sync/src/handle.rs:634-644 | the list covers exactly the heights held |
| Sync.SyncState.Send | code/crates/sync/src/handle.rs:753-767 | stores the request under a fresh id and uses up budget |
| Sync.SyncState.FindWindow | code/crates/sync/src/handle.rs:624-648 | the earliest window of free heights, as long as the target, the batch size and the heights held allow |
| Sync.SyncState.NextRequest | code/crates/sync/src/handle.rs:675-721 | no request is found if and only if every height up to the target is held, no peer has the least free one, or its window exceeds the budget; one found is for that window, from a peer that has all of it if there is one |
| Sync.SyncState.RequestOnce | code/crates/sync/src/handle.rs:675-722 | one turn of the loop: it finds a request exactly when there is one left, and a send shrinks the budget |
| Sync.SyncState.RequestAll | code/crates/sync/src/handle.rs:675-722 | the loop ends, and with no request left to make; requests in flight stay and only allowed ones are added |
| Sync.SyncState.RequestValues | code/crates/sync/src/handle.rs:650-723 | with the maximum of requests in flight nothing changes; otherwise no request is left to make at the end |
| Sync.SyncState.OnStatus | code/crates/sync/src/handle.rs:261-295 | records the status, asks only when started and behind, and then asks all it can unless enough requests are in flight |
| Sync.SyncState.MaxPeerTip | code/crates/sync/src/handle.rs:246-251 | the highest tip of a peer, or the own tip without peers |
| Sync.SyncState.OnTick | code/crates/sync/src/handle.rs:219-259 | asks up to the highest tip, only when behind, and then all it can unless enough requests are in flight |
| Sync.SyncState.TakeInflight | code/crates/sync/src/handle.rs:788-815 | removes and returns the request only for the peer asked |
| Sync.CheckResponse | code/crates/sync/src/handle.rs:99-134 | passes exactly a non-empty prefix of the range asked, with certificate heights in order |
| Sync.SyncState.OnValueResponse | code/crates/sync/src/handle.rs:76-170 | consensus is notified exactly for acceptable responses of the peer asked; the values received become pending, the rest of the request is dropped |
| Sync.SyncState.OnTimedOut | code/crates/sync/src/handle.rs:176-198 | drops the request of that peer |
| Sync.SyncState.OnInvalidValue | code/crates/sync/src/handle.rs:413-449 | removes exactly that height, from the requests of that peer only |
| Sync.SyncState.Prune | code/crates/sync/src/state.rs:182-191 | every pending request keeps exactly its heights above the bound |
| Sync.SyncState.OnStartedHeight | code/crates/sync/src/handle.rs:297-317 | starts, prunes up to the height, and sets the tip below it |
| Sync.SyncState.OnDecided | code/crates/sync/src/handle.rs:319-336 | sets the tip and prunes up to it |
| Sync.SyncState.Handle | code/crates/sync/src/handle.rs:63-216 | every input has its effect and keeps the run invariant: ranges held non-empty, disjoint and within batch size times parallel requests |
| Sync.SyncState.HandleAll | code/crates/sync/src/handle.rs:63-216 | over every input sequence the invariant holds, and consensus is notified at most once per request, by the peer asked, with a prefix of what was asked |
| Wal.DecodeEncode | code/crates/wal/src/ext.rs:16-37 | big-endian numbers are read back |
| Wal.EncodeDecode | code/crates/wal/src/ext.rs:16-37 | bytes are determined by the number they are read as |
| Wal.FrameRoundTrip | code/crates/wal/src/log.rs:17-26 | an entry on disk is read back, whatever follows it |
| Wal.FirstFrameIsPrefix | code/crates/wal/src/log.rs:61-74 | only the bytes of an entry are read as that entry |
| Wal.ScanAllBytes | code/crates/wal/src/log.rs:260-292 | scanning what was written finds exactly the entries written |
| Wal.ScanSplits | code/crates/wal/src/log.rs:260-296 | any bytes are those of the entries found, followed by no whole entry |
| Wal.WhollyBeforeSpec | code/crates/wal/src/log.rs:272-275 | the number of entries wholly before a cut, the next one reaching past it |
| Wal.TornFrame | code/crates/wal/src/log.rs:272-275 | a proper prefix of an entry is not taken for an entry |
| Wal.ScanCut | code/crates/wal/src/log.rs:260-296 | scanning a log cut at any byte finds exactly the entries wholly before the cut |
| Wal.ReopenedIsFile | code/crates/wal/src/log.rs:232-305 | a file that opens is left a well-formed log, and a prefix of what it was |
| Wal.ReopenIsIdempotent | code/crates/wal/src/log.rs:294-296 | opening again changes nothing, whatever bytes the file held at first |
| Wal.CrashRecovery | code/crates/wal/src/log.rs:232-305 | a log cut past its header reopens with exactly the entries wholly before the cut; cut within it, it does not open |
| Wal.TornAppendRecovers | code/crates/wal/src/log.rs:424-427 | an append that failed half way, and could not be truncated, is gone after reopening |
| Wal.ReopenAfterTorn | code/crates/wal/src/log.rs:253-296 | with entries written after a torn one, a reopen finds the entries before it and whatever the rest reads as, and fails exactly when that has an entry too long to seek over |
| Wal.ScanStartsWithIff | code/crates/wal/src/log.rs:253-292 | entries are found first if and only if their bytes come first |
| Wal.LaterComeBackIff | code/crates/wal/src/log.rs:253-296 | after any torn bytes: later entries are found first if and only if the bytes from the tear on start with theirs, and when the torn bytes hold no whole entry they are found nowhere else |
| Wal.OneComesBackIff | code/crates/wal/src/log.rs:253-296 | one entry written after a torn one is found if and only if the bytes from the tear on start with its own |
| Wal.TornSwallows | code/crates/wal/src/log.rs:260-292 | behind an entry torn past its length nothing is found if and only if the later entries are shorter than what it lacks; otherwise the first entry found takes its missing bytes from them, and reading goes on with the bytes left over |
| Wal.TornEndsAtFrame | code/crates/wal/src/log.rs:260-292 | when what the torn entry lacks ends with one of the later entries, exactly those after it come back |
| Wal.ScanFile | code/crates/wal/src/log.rs:253-292 | the scan loop finds the end and the number of the whole entries, and fails exactly when one is too long to seek over |
| Wal.Recover | code/crates/wal/src/log.rs:239-305 | a non-empty file opens exactly when its header is whole, its version known and its entries can be seeked over |
| Wal.ReadFromFrames | code/crates/wal/src/log.rs:588-600 | iterating a log returns the data of its entries up to the first that cannot be read |
| WalLog.Log.WriteFrame | code/crates/wal/src/log.rs:403-417 | the four writes put an entry at the end of the file, or the prefix of it that fitted |
| WalLog.Log.Append | code/crates/wal/src/log.rs:400-429 | success adds one entry after whatever the file holds, also after a torn append or a failed restart; failure with a successful truncation leaves the file unchanged, without one it leaves a prefix of the entry, after which later appends go; the count follows |
| WalLog.Log.Restart | code/crates/wal/src/log.rs:476-494 | success leaves an empty log with the new sequence number; failure leaves the entries on disk under the part of the new number written and the rest of the old one, in a log that still takes appends |
| WalLog.Log.ReadExact | code/crates/wal/src/ext.rs:4-8 | reads at the cursor, or fails at the end of the file |
| WalLog.Log.ReadToNext | code/crates/wal/src/log.rs:61-110 | the entry at the cursor, or an error for a missing, oversized, compressed or corrupt one; and whether more follow |
| Wal.ReadDataMatchChecksum | code/crates/wal/src/log.rs:60-98 | whatever the bytes are, data are returned only uncompressed, within the limit and with the checksum stored in front of them |
| Wal.ChangedDataAreRefused | code/crates/wal/src/log.rs:94-98 | where the data of an entry no longer have the checksum they were written with, reading stops with an error after the entries before it |
| WalLog.Log.Iterate | code/crates/wal/src/log.rs:588-600 | the iterator returns what the file holds from the cursor on, and stops at the first error |
| WalLog.Log.ReadAll | code/crates/wal/src/log.rs:459-463 | the entries of the log, in order, up to the first that cannot be read |
| WalLog.Open | code/crates/wal/src/log.rs:232-329 | fails exactly when the file does not open; otherwise a well-formed log with its whole entries, and the count agrees |
| WalLog.AppendAll | code/crates/wal/src/log.rs:344-352 | appended entries follow those already there |
| WalLog.EntriesComeBack | code/crates/wal/src/log.rs:66-71 | all entries appended come back in order if and only if none is over the size limit |
| WalLog.AppendAfterTorn | code/crates/wal/src/log.rs:400-429 | append that tears and cannot be undone, append that succeeds, reopen: what is found, when the log opens, and that the second entry comes back if and only if the bytes from the tear on start with its own |
| WalLog.AppendCanBeLost | code/crates/wal/src/log.rs:400-429 | an empty entry appended behind 9 bytes of an entry of 20 is not found |
| WalLog.SurvivesCrash | code/crates/wal/src/log.rs:232-329 | append, cut anywhere past the header, reopen, append again: iterating returns the entries before the cut and then the new ones |
| FullProposals.ValidityFound | code/crates/core-consensus/src/full_proposal.rs:191-215 | the value looked up is that of the one entry with its id |
| FullProposals.NewEntrySpec | code/crates/core-consensus/src/full_proposal.rs:220-240 | a new entry is full exactly when its POL round has the value, and then with its validity |
| FullProposals.SlotAfterProposal | code/crates/core-consensus/src/full_proposal.rs:242-294 | a proposal touches only the entry of its height, round and id: it completes a value, is dropped if another came first, and is added otherwise |
| FullProposals.SlotAfterValue | code/crates/core-consensus/src/full_proposal.rs:296-390 | a value is kept at its round and completes the proposals waiting there or with it as POL round |
| FullProposals.RunKeepsInv | code/crates/core-consensus/src/full_proposal.rs:242-390 | after any messages: one entry per id, exactly the first proposals kept, every value kept, no proposal waiting for a stored value, every value kept was stored |
| FullProposals.PairedInAnyOrder | code/crates/core-consensus/src/full_proposal.rs:242-390 | a first proposal is full whenever its value was stored at its round or POL round, before or after it, and is paired with a stored value and its validity |
| FullProposals.PairedIff | code/crates/core-consensus/src/full_proposal.rs:220-390 | after any messages a first proposal is full if and only if the messages say so: a value for its round came before it, one that fills it came after, or its POL round had the value when it came, stored or itself paired by then |
| FullProposals.ValueByThenIff | code/crates/core-consensus/src/full_proposal.rs:191-215 | a height, round and id have a value if and only if one was stored there or the first proposal there is paired |
| FullProposals.RunsKeepShape | code/crates/core-consensus/src/full_proposal.rs:191-390 | on every run each key has at most one entry per id, none is Empty, and a full entry pairs a proposal of that key with a value of its id |
| FullProposals.CollidingIdsSplit | code/crates/core-consensus/src/full_proposal.rs:266-275 | were two values to share an id, one key would hold two entries for it |
| FullProposals.ChainedPolDependsOnOrder | code/crates/core-consensus/src/full_proposal.rs:226-239 | reusing a value through two POL rounds is paired in one order of arrival and not in the other |
| FullProposalObject.FillEntries | code/crates/core-consensus/src/full_proposal.rs:376-388 | the inner loop completes exactly the waiting proposals the value is for |
| FullProposalObject.FullProposalKeeper.GetValue | code/crates/core-consensus/src/full_proposal.rs:191-215 | the loop returns the validity of the first entry with the value |
| FullProposalObject.FullProposalKeeper.StoreProposal | code/crates/core-consensus/src/full_proposal.rs:242-294 | the in-place loop does what the specification says |
| FullProposalObject.FullProposalKeeper.StoreValueAtValueRound | code/crates/core-consensus/src/full_proposal.rs:310-363 | the same for a value at its round |
| FullProposalObject.FullProposalKeeper.StoreValueAtPolRound | code/crates/core-consensus/src/full_proposal.rs:365-390 | the same for the rounds from its own on |
| FullProposalObject.FullProposalKeeper.StoreAll | code/crates/core-consensus/src/full_proposal.rs:242-390 | any messages are stored without the panic on an Empty entry, in the specified state |
| FullProposalObject.FullProposalKeeper.FullProposalAt | code/crates/core-consensus/src/full_proposal.rs:147-167 | returns the entry of that id exactly when it is full |

## Left out

- Engine.DriversAgree: assumes that no polka input fed rests on a certificate found for another value, because without it agreement is false of the code (`CertificateLookup.AgreementNeedsSoundLookups`); also that round starts do not go back and that the proposer is set and known.
- DriverRuns.DriverNeverEquivocates: leaves out moving to another height, which clears the last votes.
- DriverCompleteness.NothingIsMissed: speaks of the first stored proposal of a round for each value and not of one that names its own round as POL round, of prevotes counted by the driver and not of certificates in the prevote step, and of runs in which a round start does not renumber a round that was started; where the code misses something beyond that is stated by `DriverAnswers`.
- Agreement.RoundLegitimacy: a round start repeats the round the node is in, or is the first.
- Sync.SyncState.RequestValues: the number of failing sends is finite; with sends that fail forever the loop of the source does not end.
- Proposals of two validators in one round, on which the source panics, are excluded by a precondition of the driver; evidence of proposal equivocation is not kept.
- Liveness, durations of timeouts and real time: only the scheduling and firing of timers.
- Actors, channels, networking, discovery and the effect protocol around the cores.
- The handlers of core-consensus that call the driver; they justify preconditions only.
- Cryptography, the CRC algorithm and LZ4 compression; entries are written uncompressed.
- I/O errors of the log other than failing writes and truncations of an append or a restart.
- Peer scoring: which eligible peer is asked is an arbitrary choice.
- Serving values to other peers: requests are passed to the host and its answer is sent back as it is.
- Vote extensions, traces, metrics and configuration.
- Overflow of round, height and request counters.
