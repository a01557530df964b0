/**
  What the lookup of polka certificates by round can do. A faulty proposer claims a polka of an
  earlier round for a value that did not have it; a correct driver locked on the value that did
  finds the certificate of that round, votes against its lock, and two correct drivers decide
  differently.
*/
module CertificateLookup {
  import opened Types
  import opened Quorum
  import opened StateMachine
  import opened Certificates
  import opened DriverModel
  import opened DriverRuns
  import opened DriverBacking
  import opened Engine
  import A = Agreement
  import VK = VoteKeeping

  const ALICE: Address := 0
  const BOB: Address := 1
  const FAULTY: Address := 2

  /** Alice and the faulty validator together have more than two thirds, the faulty one less than one. */
  const VALIDATORS: ValidatorSet := [Validator(ALICE, 5), Validator(BOB, 2), Validator(FAULTY, 1)]

  const CONFIG := A.Config(VALIDATORS, {FAULTY}, 1)

  lemma PowerHere(s: set<Address>)
    ensures Power(VALIDATORS, s) ==
            (if ALICE in s then 5 else 0) + (if BOB in s then 2 else 0) + (if FAULTY in s then 1 else 0)
    ensures Total(VALIDATORS) == 8 && Members(VALIDATORS) == {ALICE, BOB, FAULTY}
  {
    var two, one := VALIDATORS[1..], VALIDATORS[2..];
    assert two == [Validator(BOB, 2), Validator(FAULTY, 1)] && two[1..] == one == [Validator(FAULTY, 1)];
    assert one[1..] == [];
    assert Power(one, s) == (if FAULTY in s then 1 else 0) + Power([], s);
    assert Power(two, s) == (if BOB in s then 2 else 0) + Power(one, s);
    assert Total(one) == 1 && Total(two) == 3;
    assert VALIDATORS[0] in VALIDATORS && VALIDATORS[1] in VALIDATORS && VALIDATORS[2] in VALIDATORS;
  }

  // ---- Calls in a round without votes ---------------------------------------

  lemma {:induction false} NoProposalInputs(d: Driver, round: Round, stored: seq<StoredProposal>)
    requires round !in d.votes.rounds && (d.roundState.step != Proposing || stored == [])
    ensures ProposalStepInputs(d, round, stored) == []
  {
    if stored != [] {
      NoProposalInputs(d, round, stored[..|stored| - 1]);
    }
  }

  /** A call a correct driver may receive. */
  predicate MayReceive(d: Driver, input: DriverInput) {
    d.pending == [] && OpOk(d, CONFIG.height, Call(input)) && StartsForward(d, input)
  }

  /** The message is stored, which gives `d1`, and this input is chosen for it. */
  predicate Chosen(d: Driver, input: DriverInput, d1: Driver, round: Round, i: Input) {
    MayReceive(d, input) && Dispatch(d, input) == (d1, Ok(Some((round, i))))
  }

  /** The state machine takes this step, and no proposal or vote at hand calls for another one. */
  predicate Steps(d1: Driver, round: Round, i: Input, s: State, output: Output) {
    var t := Apply(d1.roundState, Info(round, d1.address, FAULTY), i);
    && t.next == s && t.output == Some(output)
    && (|| s.step == d1.roundState.step || s.step == Unstarted
        || (round !in d1.votes.rounds && (s.step == Proposing ==> ProposalsAt(d1, round) == [])))
  }

  predicate Lifts(d1: Driver, s: State, output: Output, d': Driver, outputs: seq<DriverOutput>) {
    var d2 := d1.(roundState := s);
    VoteOfHeight(d2, output) && Lift(d2, output) == (d', outputs)
  }

  datatype Effect = Effect(stored: Driver, round: Round, input: Input, next: State, output: Output)

  /** What a call does: store the message, feed one input, and lift the output of the step. */
  predicate HasEffect(d: Driver, input: DriverInput, e: Effect, d': Driver, outputs: seq<DriverOutput>) {
    && Chosen(d, input, e.stored, e.round, e.input) && GetProposer(e.stored) == Ok(FAULTY)
    && Steps(e.stored, e.round, e.input, e.next, e.output) && Lifts(e.stored, e.next, e.output, d', outputs)
  }

  /** What a call does, when it feeds one input or none. */
  ghost predicate Does(d: Driver, input: DriverInput, d': Driver, outputs: seq<DriverOutput>) {
    || (MayReceive(d, input) && Dispatch(d, input) == (d', Ok(None)) && outputs == [])
    || exists e :: HasEffect(d, input, e, d', outputs)
  }

  lemma EffectOfCall(d: Driver, input: DriverInput, e: Effect, d': Driver, outputs: seq<DriverOutput>)
    requires HasEffect(d, input, e, d', outputs)
    ensures ProposerKnown(d, Call(input)) && Process(d, input).driver == d' && Process(d, input).result == Ok(outputs)
  {
    var d2 := e.stored.(roundState := e.next);
    if e.round !in d2.votes.rounds && (e.next.step == Proposing ==> ProposalsAt(d2, e.round) == []) {
      NoProposalInputs(d2, e.round, ProposalsAt(d2, e.round));
    }
    PlainCall(d, input, e.round, e.input);
  }

  lemma DoneByCall(d: Driver, input: DriverInput, d': Driver, outputs: seq<DriverOutput>)
    requires Does(d, input, d', outputs)
    ensures MayReceive(d, input) && ProposerKnown(d, Call(input))
    ensures Process(d, input).driver == d' && Process(d, input).result == Ok(outputs)
  {
    if e :| HasEffect(d, input, e, d', outputs) {
      EffectOfCall(d, input, e, d', outputs);
    }
  }

  // ---- The messages ---------------------------------------------------------

  const FIRST: Proposal := Proposal(1, 0, Value(1, 0), NIL_ROUND, FAULTY)

  /** The proposal of round 1 for value 2 claims a polka in round 0, where the polka is for value 1. */
  const SECOND: Proposal := Proposal(1, 1, Value(2, 0), 0, FAULTY)

  function VoteOf(voteType: VoteType, round: Round, id: ValueId, who: Address): Vote {
    Vote(voteType, 1, round, Val(id), who)
  }

  const TIMEOUT: Timeout := Timeout(0, PrecommitKind)

  const SIGNATURES: seq<VoteSignature> := [VoteSignature(ALICE, 0), VoteSignature(FAULTY, 0)]

  function Polka(round: Round, id: ValueId): PolkaCertificate {
    PolkaCertificate(1, round, id, SIGNATURES)
  }

  function Commit(round: Round, id: ValueId): CommitCertificate {
    CommitCertificate(1, round, id, SIGNATURES)
  }

  function Deliver(p: Proposal): DriverInput {
    ReceiveProposal(SignedProposal(p, 0), Validity.Valid)
  }

  // ---- Alice ----------------------------------------------------------------

  function Fresh(who: Address): Driver {
    NewDriver(1, VALIDATORS, who, DEFAULT_PARAMS)
  }

  /** After the start of round 0, with the proposal for value 1 stored, and with the vote for it cast. */
  function Started(who: Address): Driver {
    Fresh(who).(proposer := Some(FAULTY), roundState := State(1, 0, Proposing, None, None, None))
  }

  function Offered(who: Address): Driver {
    Started(who).(proposals := map[0 := [(SignedProposal(FIRST, 0), Validity.Valid)]])
  }

  function Prevoted(who: Address): Driver {
    Offered(who).(
      roundState := State(1, 0, Prevoting, None, None, None),
      lastPrevote := Some(VoteOf(VoteType.Prevote, 0, 1, who)))
  }

  const LOCK: Option<RoundValue> := Some(RoundValue(Value(1, 0), 0))

  /** After the certificate of the polka for value 1: locked on it. */
  function Locked(): Driver {
    Prevoted(ALICE).(
      polkaCertificates := [Polka(0, 1)],
      roundState := State(1, 0, Precommitting, LOCK, LOCK, None),
      lastPrecommit := Some(VoteOf(VoteType.Precommit, 0, 1, ALICE)))
  }

  /** Alice's precommit and one for nil: a quorum of precommits, but none for a value. */
  const PRECOMMITS: seq<SignedVote> := [
    SignedVote(VoteOf(VoteType.Precommit, 0, 1, ALICE), 0),
    SignedVote(Vote(VoteType.Precommit, 1, 0, Nil, FAULTY), 0)]

  function Counting(received: seq<SignedVote>, emitted: set<VK.VKOutput>): Driver {
    Locked().(votes := VK.Ledger(VALIDATORS, DEFAULT_PARAMS, map[0 := VK.Tally(received, emitted)], map[]))
  }

  /** After her own precommit, and after both, when she has scheduled the precommit timeout. */
  function OneCounted(): Driver {
    Counting([PRECOMMITS[0]], {})
  }

  function Scheduled(): Driver {
    var d := Counting(PRECOMMITS, {VK.PrecommitAny});
    d.(roundCertificate := Some(BuildPrecommitCertificate(d, 0)))
  }

  function TimedOut(): Driver {
    Scheduled().(roundState := State(1, 1, Unstarted, LOCK, LOCK, None))
  }

  function InRound1(): Driver {
    Scheduled().(roundState := State(1, 1, Proposing, LOCK, LOCK, None))
  }

  /** With the second proposal stored. */
  function Asked(): Driver {
    InRound1().(proposals := map[0 := [(SignedProposal(FIRST, 0), Validity.Valid)],
                                 1 := [(SignedProposal(SECOND, 0), Validity.Valid)]])
  }

  /** After the second proposal: she has prevoted value 2, although locked on value 1. */
  function Swayed(): Driver {
    Asked().(
      roundState := State(1, 1, Prevoting, LOCK, LOCK, None),
      lastPrevote := Some(VoteOf(VoteType.Prevote, 1, 2, ALICE)))
  }

  const SECOND_LOCK: Option<RoundValue> := Some(RoundValue(Value(2, 0), 1))

  function LockedAgain(): Driver {
    Swayed().(
      polkaCertificates := [Polka(0, 1), Polka(1, 2)],
      roundState := State(1, 1, Precommitting, SECOND_LOCK, SECOND_LOCK, None),
      lastPrecommit := Some(VoteOf(VoteType.Precommit, 1, 2, ALICE)))
  }

  function DecidedTwo(): Driver {
    LockedAgain().(
      commitCertificates := [Commit(1, 2)],
      roundState := State(1, 1, Committed, SECOND_LOCK, SECOND_LOCK, SECOND_LOCK))
  }

  function DecidedOne(): Driver {
    Prevoted(BOB).(
      commitCertificates := [Commit(0, 1)],
      roundState := State(1, 0, Committed, None, None, LOCK))
  }

  lemma KnownProposer(d: Driver)
    requires d.proposer == Some(FAULTY) && d.votes.validators == VALIDATORS
    ensures GetProposer(d) == Ok(FAULTY)
  {
    PowerHere({});
  }

  lemma StartDoes(who: Address)
    requires who != FAULTY
    ensures Does(Fresh(who), StartRound(1, 0, FAULTY), Started(who), [StartTimeout(Timeout(0, ProposeKind))])
  {
    var d1 := Fresh(who).(proposer := Some(FAULTY), roundState := NewState(1, 0));
    assert Chosen(Fresh(who), StartRound(1, 0, FAULTY), d1, 0, NewRound(0));
    KnownProposer(d1);
    var e := Effect(d1, 0, NewRound(0),
                    State(1, 0, Proposing, None, None, None), ScheduleTimeout(Timeout(0, ProposeKind)));
    assert HasEffect(Fresh(who), StartRound(1, 0, FAULTY), e, Started(who),
                     [StartTimeout(Timeout(0, ProposeKind))]);
  }

  lemma FirstProposalChosen(who: Address)
    ensures Chosen(Started(who), Deliver(FIRST), Offered(who), 0, ProposalInput(FIRST))
  {
    var stored := (SignedProposal(FIRST, 0), Validity.Valid);
    assert [] + [stored] == [stored];
    assert Started(who).proposals[0 := [stored]] == Offered(who).proposals;
    assert StoreProposal(Started(who), stored.0, Validity.Valid) == Offered(who);
  }

  lemma FirstProposalDoes(who: Address)
    requires who != FAULTY
    ensures Does(Started(who), Deliver(FIRST), Prevoted(who), [CastVote(VoteOf(VoteType.Prevote, 0, 1, who))])
  {
    FirstProposalChosen(who);
    KnownProposer(Offered(who));
    var e := Effect(Offered(who), 0, ProposalInput(FIRST),
                    State(1, 0, Prevoting, None, None, None), VoteOutput(VoteOf(VoteType.Prevote, 0, 1, who)));
    assert HasEffect(Started(who), Deliver(FIRST), e, Prevoted(who),
                     [CastVote(VoteOf(VoteType.Prevote, 0, 1, who))]);
  }

  lemma PolkaChosen()
    ensures Chosen(Prevoted(ALICE), ReceivePolka(Polka(0, 1)), Prevoted(ALICE).(polkaCertificates := [Polka(0, 1)]), 0,
                   ProposalAndPolkaCurrent(FIRST))
  {
    var d1 := Prevoted(ALICE).(polkaCertificates := [Polka(0, 1)]);
    assert StorePolkaCertificate(Prevoted(ALICE), Polka(0, 1)) == d1;
    assert ProposalFor(d1, 0, 1) == Some((SignedProposal(FIRST, 0), Validity.Valid));
  }

  lemma PolkaDoes()
    ensures Does(Prevoted(ALICE), ReceivePolka(Polka(0, 1)), Locked(),
                 [CastVote(VoteOf(VoteType.Precommit, 0, 1, ALICE))])
  {
    var d1 := Prevoted(ALICE).(polkaCertificates := [Polka(0, 1)]);
    PolkaChosen();
    KnownProposer(d1);
    var e := Effect(d1, 0, ProposalAndPolkaCurrent(FIRST),
                    State(1, 0, Precommitting, LOCK, LOCK, None), VoteOutput(VoteOf(VoteType.Precommit, 0, 1, ALICE)));
    assert HasEffect(Prevoted(ALICE), ReceivePolka(Polka(0, 1)), e, Locked(),
                     [CastVote(VoteOf(VoteType.Precommit, 0, 1, ALICE))]);
  }

  /** Alice's precommit alone reaches no threshold. */
  lemma FirstCounted()
    ensures VK.Record(Locked().votes, PRECOMMITS[0], 0) == (OneCounted().votes, None)
  {
    PowerHere({ALICE});
    var k, sv, t := Locked().votes, PRECOMMITS[0], VK.Tally([PRECOMMITS[0]], {});
    assert sv in t.received && [] + [sv] == t.received;
    assert VK.Voters(t.received, VoteType.Precommit, Val(1)) == {ALICE};
    assert VK.VotersOf(t.received, VoteType.Precommit) == {ALICE};
    assert VK.Emit(k, t, sv.vote, 0) == (t, None);
    assert VK.PutTally(k, 0, t).rounds == map[0 := t];
  }

  /** With the precommit for nil there is a quorum of precommits. */
  lemma SecondCounted()
    ensures VK.Record(OneCounted().votes, PRECOMMITS[1], 0)
         == (Counting(PRECOMMITS, {VK.PrecommitAny}).votes, Some(VK.PrecommitAny))
  {
    PowerHere({ALICE, FAULTY});
    PowerHere({FAULTY});
    var k, sv, t := OneCounted().votes, PRECOMMITS[1], VK.Tally(PRECOMMITS, {});
    assert PRECOMMITS == [PRECOMMITS[0]] + [sv];
    assert PRECOMMITS[0] in t.received && sv in t.received;
    assert VK.Voters(t.received, VoteType.Precommit, Nil) == {FAULTY};
    assert VK.VotersOf(t.received, VoteType.Precommit) == {ALICE, FAULTY};
    assert VK.ComputeThreshold(k, t, VoteType.Precommit, Nil) == VK.AnyThreshold;
    var t' := VK.Tally(PRECOMMITS, {VK.PrecommitAny});
    assert t.emitted + {VK.PrecommitAny} == t'.emitted;
    assert VK.Emit(k, t, sv.vote, 0) == (t', Some(VK.PrecommitAny));
    assert VK.PutTally(k, 0, t').rounds == map[0 := t'];
  }

  lemma FirstVoteDoes()
    ensures Does(Locked(), ReceiveVote(PRECOMMITS[0]), OneCounted(), [])
  {
    PowerHere({});
    FirstCounted();
  }

  lemma SecondVoteChosen()
    ensures Chosen(OneCounted(), ReceiveVote(PRECOMMITS[1]), Scheduled(), 0, PrecommitAny)
  {
    PowerHere({});
    SecondCounted();
  }

  lemma PrecommitAnySteps(d: Driver, s: State)
    requires d.roundState == s && s.round == 0 && s.step == Precommitting
    ensures Steps(d, 0, PrecommitAny, s, ScheduleTimeout(TIMEOUT))
    ensures Lifts(d, s, ScheduleTimeout(TIMEOUT), d, [StartTimeout(TIMEOUT)])
  {
  }

  lemma SecondVoteDoes()
    ensures Does(OneCounted(), ReceiveVote(PRECOMMITS[1]), Scheduled(), [StartTimeout(TIMEOUT)])
  {
    var s := Scheduled().roundState;
    var e := Effect(Scheduled(), 0, PrecommitAny, s, ScheduleTimeout(TIMEOUT));
    SecondVoteChosen();
    KnownProposer(Scheduled());
    PrecommitAnySteps(Scheduled(), s);
    assert HasEffect(OneCounted(), ReceiveVote(PRECOMMITS[1]), e, Scheduled(), [StartTimeout(TIMEOUT)]);
  }

  lemma TimeoutDoes()
    ensures Does(Scheduled(), TimeoutElapsed(TIMEOUT), TimedOut(), [MoveToRound(1, 1)])
  {
    assert Chosen(Scheduled(), TimeoutElapsed(TIMEOUT), Scheduled(), 0, TimeoutPrecommit);
    KnownProposer(Scheduled());
    var e := Effect(Scheduled(), 0, TimeoutPrecommit,
                    State(1, 1, Unstarted, LOCK, LOCK, None), NewRoundOutput(1));
    assert HasEffect(Scheduled(), TimeoutElapsed(TIMEOUT), e, TimedOut(),
                     [MoveToRound(1, 1)]);
  }

  lemma SecondStartDoes()
    ensures Does(TimedOut(), StartRound(1, 1, FAULTY), InRound1(), [StartTimeout(Timeout(1, ProposeKind))])
  {
    assert Chosen(TimedOut(), StartRound(1, 1, FAULTY), TimedOut(), 1, NewRound(1));
    KnownProposer(TimedOut());
    var e := Effect(TimedOut(), 1, NewRound(1),
                    State(1, 1, Proposing, LOCK, LOCK, None), ScheduleTimeout(Timeout(1, ProposeKind)));
    assert HasEffect(TimedOut(), StartRound(1, 1, FAULTY), e, InRound1(),
                     [StartTimeout(Timeout(1, ProposeKind))]);
  }

  lemma NoPrevotes()
    ensures !VotesMeet(InRound1(), 0, VoteType.Prevote, VK.ValueThreshold(2))
  {
    PowerHere({});
    assert VK.Voters(PRECOMMITS, VoteType.Prevote, Val(2)) == {};
  }

  lemma SecondProposalStored()
    ensures StoreProposal(InRound1(), SignedProposal(SECOND, 0), Validity.Valid) == Asked()
  {
    var stored := (SignedProposal(SECOND, 0), Validity.Valid);
    assert [] + [stored] == [stored];
    assert InRound1().proposals[1 := [stored]] == Asked().proposals;
  }

  /** The lookup finds the certificate of round 0, which is for value 1, and backs value 2 with it. */
  lemma SecondProposalMultiplexed()
    ensures MultiplexProposal(Asked(), SECOND, Validity.Valid) == Some(ProposalAndPolkaPrevious(SECOND))
    ensures Misled(Asked(), 0, 2)
  {
    NoPrevotes();
    assert Asked().polkaCertificates[0].round == 0;
  }

  lemma SecondProposalChosen()
    ensures Chosen(InRound1(), Deliver(SECOND), Asked(), 1, ProposalAndPolkaPrevious(SECOND))
  {
    SecondProposalStored();
    SecondProposalMultiplexed();
  }

  lemma SecondProposalDoes()
    ensures Does(InRound1(), Deliver(SECOND), Swayed(), [CastVote(VoteOf(VoteType.Prevote, 1, 2, ALICE))])
  {
    SecondProposalChosen();
    KnownProposer(Asked());
    var e := Effect(Asked(), 1, ProposalAndPolkaPrevious(SECOND),
                    State(1, 1, Prevoting, LOCK, LOCK, None), VoteOutput(VoteOf(VoteType.Prevote, 1, 2, ALICE)));
    assert HasEffect(InRound1(), Deliver(SECOND), e, Swayed(),
                     [CastVote(VoteOf(VoteType.Prevote, 1, 2, ALICE))]);
  }

  lemma SecondPolkaChosen()
    ensures Chosen(Swayed(), ReceivePolka(Polka(1, 2)), Swayed().(polkaCertificates := [Polka(0, 1), Polka(1, 2)]), 1,
                   ProposalAndPolkaCurrent(SECOND))
  {
    var d1 := Swayed().(polkaCertificates := [Polka(0, 1), Polka(1, 2)]);
    assert !HasPolkaCertificate(Swayed(), 1, 2);
    assert StorePolkaCertificate(Swayed(), Polka(1, 2)) == d1;
  }

  lemma SecondPolkaDoes()
    ensures Does(Swayed(), ReceivePolka(Polka(1, 2)), LockedAgain(),
                 [CastVote(VoteOf(VoteType.Precommit, 1, 2, ALICE))])
  {
    var d1 := Swayed().(polkaCertificates := [Polka(0, 1), Polka(1, 2)]);
    SecondPolkaChosen();
    KnownProposer(d1);
    var e := Effect(d1, 1, ProposalAndPolkaCurrent(SECOND),
                    State(1, 1, Precommitting, SECOND_LOCK, SECOND_LOCK, None),
                    VoteOutput(VoteOf(VoteType.Precommit, 1, 2, ALICE)));
    assert HasEffect(Swayed(), ReceivePolka(Polka(1, 2)), e, LockedAgain(),
                     [CastVote(VoteOf(VoteType.Precommit, 1, 2, ALICE))]);
  }

  lemma CommitTwoChosen()
    ensures Chosen(LockedAgain(), ReceiveCommit(Commit(1, 2)), LockedAgain().(commitCertificates := [Commit(1, 2)]), 1,
                   ProposalAndPrecommitValue(SECOND))
  {
    var d1 := LockedAgain().(commitCertificates := [Commit(1, 2)]);
    assert [] + [Commit(1, 2)] == d1.commitCertificates;
    assert ProposalFor(d1, 1, 2) == Some((SignedProposal(SECOND, 0), Validity.Valid));
  }

  lemma CommitTwoDoes()
    ensures Does(LockedAgain(), ReceiveCommit(Commit(1, 2)), DecidedTwo(), [Decide(1, SECOND)])
  {
    var d1 := LockedAgain().(commitCertificates := [Commit(1, 2)]);
    CommitTwoChosen();
    KnownProposer(d1);
    var e := Effect(d1, 1, ProposalAndPrecommitValue(SECOND),
                    State(1, 1, Committed, SECOND_LOCK, SECOND_LOCK, SECOND_LOCK), Decision(1, SECOND));
    assert HasEffect(LockedAgain(), ReceiveCommit(Commit(1, 2)), e, DecidedTwo(),
                     [Decide(1, SECOND)]);
  }

  lemma CommitOneChosen()
    ensures Chosen(Prevoted(BOB), ReceiveCommit(Commit(0, 1)), Prevoted(BOB).(commitCertificates := [Commit(0, 1)]), 0,
                   ProposalAndPrecommitValue(FIRST))
  {
    var d1 := Prevoted(BOB).(commitCertificates := [Commit(0, 1)]);
    assert [] + [Commit(0, 1)] == d1.commitCertificates;
    assert ProposalFor(d1, 0, 1) == Some((SignedProposal(FIRST, 0), Validity.Valid));
  }

  lemma CommitOneDoes()
    ensures Does(Prevoted(BOB), ReceiveCommit(Commit(0, 1)), DecidedOne(), [Decide(0, FIRST)])
  {
    var d1 := Prevoted(BOB).(commitCertificates := [Commit(0, 1)]);
    CommitOneChosen();
    KnownProposer(d1);
    var e := Effect(d1, 0, ProposalAndPrecommitValue(FIRST),
                    State(1, 0, Committed, None, None, LOCK), Decision(0, FIRST));
    assert HasEffect(Prevoted(BOB), ReceiveCommit(Commit(0, 1)), e, DecidedOne(),
                     [Decide(0, FIRST)]);
  }

  // ---- The lock is broken ---------------------------------------------------

  function Sent(voteType: VoteType, round: Round, id: ValueId): set<Vote> {
    {VoteOf(voteType, round, id, ALICE), VoteOf(voteType, round, id, FAULTY)}
  }

  /** A certificate signed by Alice and the faulty validator passes verification. */
  lemma PolkaIsAccepted(round: Round, id: ValueId, verify: Verifier)
    requires forall v :: v in Sent(VoteType.Prevote, round, id) ==> verify(v, 0)
    ensures PolkaAccepted(VALIDATORS, TWO_F_PLUS_ONE, Polka(round, id), verify)
  {
    PowerHere({ALICE, FAULTY});
    var signatures := AsRoundSignatures(SIGNATURES, VoteType.Prevote, id);
    assert signatures[0].address == ALICE && signatures[1].address == FAULTY;
    forall i | 0 <= i < |signatures| ensures FaultAt(VALIDATORS, signatures, false, i).None? {
    }
    var signers := Signers(1, round, signatures, verify);
    assert SignedFor(1, round, signatures[0]) == VoteOf(VoteType.Prevote, round, id, ALICE);
    assert SignedFor(1, round, signatures[1]) == VoteOf(VoteType.Prevote, round, id, FAULTY);
    assert signatures[0] in signatures && signatures[1] in signatures;
    assert ALICE in signers && FAULTY in signers;
    PowerMonotone(VALIDATORS, {ALICE, FAULTY}, signers);
  }

  /** A run of Alice's driver, ending in `d`. */
  ghost predicate RunsTo(ds: seq<Driver>, ops: seq<Op>, d: Driver) {
    IsRun(1, ds, ops) && ds[|ops|] == d
  }

  lemma CallOn(ds: seq<Driver>, ops: seq<Op>, d: Driver, input: DriverInput, d': Driver, outputs: seq<DriverOutput>)
    returns (ds': seq<Driver>, ops': seq<Op>)
    requires RunsTo(ds, ops, d) && Does(d, input, d', outputs)
    ensures RunsTo(ds', ops', d') && ds' == ds + [d'] && ops' == ops + [Call(input)]
  {
    DoneByCall(d, input, d', outputs);
    ExtendRun(1, ds, ops, Call(input), d');
    ds', ops' := ds + [d'], ops + [Call(input)];
  }

  lemma UntilLocked() returns (ds: seq<Driver>, ops: seq<Op>)
    ensures RunsTo(ds, ops, Locked()) && Call(ReceivePolka(Polka(0, 1))) in ops
  {
    ds, ops := [Fresh(ALICE)], [];
    StartDoes(ALICE);
    ds, ops := CallOn(ds, ops, Fresh(ALICE), StartRound(1, 0, FAULTY), Started(ALICE),
                      [StartTimeout(Timeout(0, ProposeKind))]);
    FirstProposalDoes(ALICE);
    ds, ops := CallOn(ds, ops, Started(ALICE), Deliver(FIRST), Prevoted(ALICE),
                      [CastVote(VoteOf(VoteType.Prevote, 0, 1, ALICE))]);
    PolkaDoes();
    ds, ops := CallOn(ds, ops, Prevoted(ALICE), ReceivePolka(Polka(0, 1)), Locked(),
                      [CastVote(VoteOf(VoteType.Precommit, 0, 1, ALICE))]);
  }

  /** At `n` a vote schedules the precommit timeout, which then elapses. */
  predicate ElapsesAt(ds: seq<Driver>, ops: seq<Op>, n: nat) {
    && n + 1 < |ops| && n < |ds|
    && ds[n] == OneCounted() && ops[n] == Call(ReceiveVote(PRECOMMITS[1]))
      && ops[n + 1] == Call(TimeoutElapsed(TIMEOUT))
  }

  lemma StillElapses(ds: seq<Driver>, ops: seq<Op>, n: nat, d: Driver, op: Op)
    requires ElapsesAt(ds, ops, n)
    ensures ElapsesAt(ds + [d], ops + [op], n)
  {
  }

  lemma Elapses(ds: seq<Driver>, ops: seq<Op>, d: Driver)
    requires |ds| == |ops| + 1 && ds[|ops|] == OneCounted()
    ensures ElapsesAt(ds + [Scheduled()] + [d],
                      ops + [Call(ReceiveVote(PRECOMMITS[1]))] + [Call(TimeoutElapsed(TIMEOUT))], |ops|)
  {
  }

  lemma UntilTimedOut() returns (ds: seq<Driver>, ops: seq<Op>, n: nat)
    ensures RunsTo(ds, ops, TimedOut()) && Call(ReceivePolka(Polka(0, 1))) in ops
    ensures ElapsesAt(ds, ops, n) && |ops| == n + 2
  {
    ds, ops := UntilLocked();
    FirstVoteDoes();
    ds, ops := CallOn(ds, ops, Locked(), ReceiveVote(PRECOMMITS[0]), OneCounted(), []);
    n := |ops|;
    Elapses(ds, ops, TimedOut());
    SecondVoteDoes();
    ds, ops := CallOn(ds, ops, OneCounted(), ReceiveVote(PRECOMMITS[1]), Scheduled(), [StartTimeout(TIMEOUT)]);
    TimeoutDoes();
    ds, ops := CallOn(ds, ops, Scheduled(), TimeoutElapsed(TIMEOUT), TimedOut(), [MoveToRound(1, 1)]);
  }

  lemma UntilInRound1() returns (ds: seq<Driver>, ops: seq<Op>, n: nat)
    ensures RunsTo(ds, ops, InRound1()) && Call(ReceivePolka(Polka(0, 1))) in ops
    ensures ElapsesAt(ds, ops, n) && |ops| == n + 3
  {
    ds, ops, n := UntilTimedOut();
    SecondStartDoes();
    StillElapses(ds, ops, n, InRound1(), Call(StartRound(1, 1, FAULTY)));
    ds, ops := CallOn(ds, ops, TimedOut(), StartRound(1, 1, FAULTY), InRound1(),
                      [StartTimeout(Timeout(1, ProposeKind))]);
  }

  lemma UntilSwayed() returns (ds: seq<Driver>, ops: seq<Op>, n: nat)
    ensures IsRun(1, ds, ops) && n + 3 < |ops| && Call(ReceivePolka(Polka(0, 1))) in ops
    ensures ElapsesAt(ds, ops, n) && ds[n + 3] == InRound1() && ops[n + 3] == Call(Deliver(SECOND))
  {
    ds, ops, n := UntilInRound1();
    SecondProposalDoes();
    StillElapses(ds, ops, n, Swayed(), Call(Deliver(SECOND)));
    ds, ops := CallOn(ds, ops, InRound1(), Deliver(SECOND), Swayed(),
                      [CastVote(VoteOf(VoteType.Prevote, 1, 2, ALICE))]);
  }

  lemma VoteSchedules()
    ensures Outputs(OneCounted(), Call(ReceiveVote(PRECOMMITS[1]))) == [StartTimeout(TIMEOUT)]
  {
    SecondVoteDoes();
    DoneByCall(OneCounted(), ReceiveVote(PRECOMMITS[1]), Scheduled(), [StartTimeout(TIMEOUT)]);
  }

  lemma ProposalSways()
    ensures Outputs(InRound1(), Call(Deliver(SECOND))) == [CastVote(VoteOf(VoteType.Prevote, 1, 2, ALICE))]
  {
    SecondProposalDoes();
    DoneByCall(InRound1(), Deliver(SECOND), Swayed(), [CastVote(VoteOf(VoteType.Prevote, 1, 2, ALICE))]);
  }

  /**
    A run of one driver from the start, with a polka certificate that passes verification and a
    timeout that was scheduled: locked on value 1 with its polka of round 0 at hand, the driver
    prevotes value 2 in round 1.
  */
  lemma LockIsBroken(verify: Verifier) returns (ds: seq<Driver>, ops: seq<Op>, n: nat)
    requires forall v :: v in Sent(VoteType.Prevote, 0, 1) ==> verify(v, 0)
    ensures IsRun(1, ds, ops) && n + 3 < |ops|
    ensures Call(ReceivePolka(Polka(0, 1))) in ops && PolkaAccepted(VALIDATORS, TWO_F_PLUS_ONE, Polka(0, 1), verify)
    ensures ElapsesAt(ds, ops, n) && Outputs(OneCounted(), Call(ReceiveVote(PRECOMMITS[1]))) == [StartTimeout(TIMEOUT)]
    ensures ds[n + 3] == InRound1() && InRound1().roundState.locked == LOCK
            && InRound1().polkaCertificates == [Polka(0, 1)]
    ensures ops[n + 3] == Call(Deliver(SECOND))
    ensures Outputs(InRound1(), Call(Deliver(SECOND))) == [CastVote(VoteOf(VoteType.Prevote, 1, 2, ALICE))]
  {
    PolkaIsAccepted(0, 1, verify);
    VoteSchedules();
    ProposalSways();
    ds, ops, n := UntilSwayed();
  }

  // ---- Agreement is broken --------------------------------------------------

  /** The run has reached these drivers, and at least these votes were sent. */
  ghost predicate Reached(run: seq<EngineState>, actions: seq<EngineAction>, drivers: map<Address, Driver>,
                          votes: set<Vote>) {
    && Engine.Run(CONFIG, run, actions) && TimedCalls(run, actions)
    && run[|run| - 1].drivers == drivers && votes <= run[|run| - 1].votes
  }

  lemma Extends(run: seq<EngineState>, actions: seq<EngineAction>, a: EngineAction)
    requires Engine.Run(CONFIG, run, actions) && Engine.Enabled(CONFIG, run[|run| - 1], a)
    ensures Engine.Run(CONFIG, run + [Engine.After(CONFIG, run[|run| - 1], a)], actions + [a])
  {
  }

  lemma ExtendsTimed(run: seq<EngineState>, actions: seq<EngineAction>, a: EngineAction, next: EngineState)
    requires |run| == |actions| + 1 && TimedCalls(run, actions) && TimedCall(run[|run| - 1], a)
    ensures TimedCalls(run + [next], actions + [a])
  {
    var run', actions' := run + [next], actions + [a];
    forall i | 0 <= i < |actions'| && i < |run'| ensures TimedCall(run'[i], actions'[i]) {
      assert i < |actions| ==> TimedCall(run[i], actions[i]);
    }
  }

  lemma GenuineGrows(votes: set<Vote>, votes': set<Vote>, input: DriverInput)
    requires votes <= votes' && Genuine(CONFIG, votes, input)
    ensures Genuine(CONFIG, votes', input)
  {
    A.QuorumGrows(CONFIG, votes, votes');
  }

  lemma CallExtends(run: seq<EngineState>, actions: seq<EngineAction>, drivers: map<Address, Driver>, votes: set<Vote>,
                    n: Address, input: DriverInput, d': Driver, outputs: seq<DriverOutput>)
    returns (run': seq<EngineState>, actions': seq<EngineAction>)
    requires Reached(run, actions, drivers, votes) && n in drivers && A.Correct(CONFIG, n)
    requires Does(drivers[n], input, d', outputs) && Genuine(CONFIG, votes, input)
    requires TimedCall(run[|run| - 1], EngineAction.Perform(n, Call(input)))
    ensures Reached(run', actions', drivers[n := d'], votes + CastIn(outputs))
    ensures TimersIn(n, outputs) <= run'[|run'| - 1].timers
  {
    var last, a := run[|run| - 1], EngineAction.Perform(n, Call(input));
    DoneByCall(drivers[n], input, d', outputs);
    GenuineGrows(votes, last.votes, input);
    Extends(run, actions, a);
    ExtendsTimed(run, actions, a, Engine.After(CONFIG, last, a));
    run', actions' := run + [Engine.After(CONFIG, last, a)], actions + [a];
  }

  lemma VoteExtends(run: seq<EngineState>, actions: seq<EngineAction>, drivers: map<Address, Driver>,
                    votes: set<Vote>, v: Vote)
    returns (run': seq<EngineState>, actions': seq<EngineAction>)
    requires Reached(run, actions, drivers, votes) && v.address == FAULTY
    ensures Reached(run', actions', drivers, votes + {v})
  {
    var a := EngineAction.FaultyVote(v);
    Extends(run, actions, a);
    ExtendsTimed(run, actions, a, Engine.After(CONFIG, run[|run| - 1], a));
    run', actions' := run + [Engine.After(CONFIG, run[|run| - 1], a)], actions + [a];
  }

  lemma QuorumSent(votes: set<Vote>, voteType: VoteType, round: Round, id: ValueId)
    requires Sent(voteType, round, id) <= votes
    ensures A.HasQuorum(CONFIG, votes, voteType, round, Val(id))
  {
    var voters := A.VotersFor(CONFIG, votes, voteType, round, Val(id));
    assert VoteOf(voteType, round, id, ALICE) in votes && VoteOf(voteType, round, id, FAULTY) in votes;
    PowerHere({ALICE, FAULTY});
    PowerMonotone(VALIDATORS, {ALICE, FAULTY}, voters);
  }

  lemma Correctness()
    ensures A.ConfigOk(CONFIG) && A.Correct(CONFIG, ALICE) && A.Correct(CONFIG, BOB) && !A.Correct(CONFIG, FAULTY)
    ensures forall n :: A.Correct(CONFIG, n) ==> n == ALICE || n == BOB
  {
    PowerHere({FAULTY});
  }

  // The drivers of Alice and Bob, and votes sent.

  ghost predicate At(run: seq<EngineState>, actions: seq<EngineAction>, a: Driver, b: Driver, votes: set<Vote>) {
    Reached(run, actions, map[ALICE := a, BOB := b], votes)
  }

  lemma AliceCalls(run: seq<EngineState>, actions: seq<EngineAction>, a: Driver, b: Driver, votes: set<Vote>,
                   input: DriverInput, a': Driver, outputs: seq<DriverOutput>)
    returns (run': seq<EngineState>, actions': seq<EngineAction>)
    requires At(run, actions, a, b, votes) && Does(a, input, a', outputs) && Genuine(CONFIG, votes, input)
    requires TimedCall(run[|run| - 1], EngineAction.Perform(ALICE, Call(input)))
    ensures At(run', actions', a', b, votes + CastIn(outputs))
    ensures TimersIn(ALICE, outputs) <= run'[|run'| - 1].timers
  {
    Correctness();
    var drivers := map[ALICE := a, BOB := b];
    run', actions' := CallExtends(run, actions, drivers, votes, ALICE, input, a', outputs);
    assert drivers[ALICE := a'] == map[ALICE := a', BOB := b];
  }

  lemma BobCalls(run: seq<EngineState>, actions: seq<EngineAction>, a: Driver, b: Driver, votes: set<Vote>,
                 input: DriverInput, b': Driver, outputs: seq<DriverOutput>)
    returns (run': seq<EngineState>, actions': seq<EngineAction>)
    requires At(run, actions, a, b, votes) && Does(b, input, b', outputs) && Genuine(CONFIG, votes, input)
    requires TimedCall(run[|run| - 1], EngineAction.Perform(BOB, Call(input)))
    ensures At(run', actions', a, b', votes)
  {
    Correctness();
    var drivers := map[ALICE := a, BOB := b];
    run', actions' := CallExtends(run, actions, drivers, votes, BOB, input, b', outputs);
    assert drivers[BOB := b'] == map[ALICE := a, BOB := b'];
  }

  /** Alice's vote and one of the faulty validator make a quorum. */
  lemma BothVote(run: seq<EngineState>, actions: seq<EngineAction>, a: Driver, b: Driver, votes: set<Vote>,
                 voteType: VoteType, round: Round, id: ValueId)
    returns (run': seq<EngineState>, actions': seq<EngineAction>)
    requires At(run, actions, a, b, votes + CastIn([CastVote(VoteOf(voteType, round, id, ALICE))]))
    ensures At(run', actions', a, b, votes + Sent(voteType, round, id))
    ensures A.HasQuorum(CONFIG, votes + Sent(voteType, round, id), voteType, round, Val(id))
  {
    Correctness();
    var v, output := VoteOf(voteType, round, id, ALICE), CastVote(VoteOf(voteType, round, id, ALICE));
    assert output in [output];
    assert v in CastIn([output]);
    run', actions' := VoteExtends(run, actions, map[ALICE := a, BOB := b], votes + CastIn([output]),
                                  VoteOf(voteType, round, id, FAULTY));
    QuorumSent(votes + Sent(voteType, round, id), voteType, round, id);
  }

  lemma Nothing() returns (run: seq<EngineState>, actions: seq<EngineAction>)
    ensures At(run, actions, Fresh(ALICE), Fresh(BOB), {})
  {
    Correctness();
    run, actions := [EngineState({}, map[ALICE := Fresh(ALICE), BOB := Fresh(BOB)], {})], [];
  }

  lemma Begin() returns (run: seq<EngineState>, actions: seq<EngineAction>)
    ensures At(run, actions, Started(ALICE), Fresh(BOB), {})
  {
    run, actions := Nothing();
    StartDoes(ALICE);
    run, actions := AliceCalls(run, actions, Fresh(ALICE), Fresh(BOB), {}, StartRound(1, 0, FAULTY), Started(ALICE),
                               [StartTimeout(Timeout(0, ProposeKind))]);
  }

  lemma AlicePrevotes() returns (run: seq<EngineState>, actions: seq<EngineAction>, votes: set<Vote>)
    ensures At(run, actions, Prevoted(ALICE), Fresh(BOB), votes) && A.HasPolka(CONFIG, votes, 0, 1)
  {
    run, actions := Begin();
    FirstProposalDoes(ALICE);
    run, actions := AliceCalls(run, actions, Started(ALICE), Fresh(BOB), {}, Deliver(FIRST), Prevoted(ALICE),
                               [CastVote(VoteOf(VoteType.Prevote, 0, 1, ALICE))]);
    run, actions := BothVote(run, actions, Prevoted(ALICE), Fresh(BOB), {}, VoteType.Prevote, 0, 1);
    votes := {} + Sent(VoteType.Prevote, 0, 1);
  }

  lemma AliceLocks() returns (run: seq<EngineState>, actions: seq<EngineAction>, votes: set<Vote>)
    ensures At(run, actions, Locked(), Fresh(BOB), votes) && A.HasQuorum(CONFIG, votes, VoteType.Precommit, 0, Val(1))
    ensures PRECOMMITS[0].vote in votes
  {
    run, actions, votes := AlicePrevotes();
    PolkaDoes();
    run, actions := AliceCalls(run, actions, Prevoted(ALICE), Fresh(BOB), votes, ReceivePolka(Polka(0, 1)), Locked(),
                               [CastVote(VoteOf(VoteType.Precommit, 0, 1, ALICE))]);
    run, actions := BothVote(run, actions, Locked(), Fresh(BOB), votes, VoteType.Precommit, 0, 1);
    votes := votes + Sent(VoteType.Precommit, 0, 1);
  }

  lemma BobDecides() returns (run: seq<EngineState>, actions: seq<EngineAction>, votes: set<Vote>)
    ensures At(run, actions, Locked(), DecidedOne(), votes) && PRECOMMITS[0].vote in votes
  {
    run, actions, votes := AliceLocks();
    StartDoes(BOB);
    run, actions := BobCalls(run, actions, Locked(), Fresh(BOB), votes, StartRound(1, 0, FAULTY), Started(BOB),
                             [StartTimeout(Timeout(0, ProposeKind))]);
    FirstProposalDoes(BOB);
    run, actions := BobCalls(run, actions, Locked(), Started(BOB), votes, Deliver(FIRST), Prevoted(BOB),
                             [CastVote(VoteOf(VoteType.Prevote, 0, 1, BOB))]);
    CommitOneDoes();
    run, actions := BobCalls(run, actions, Locked(), Prevoted(BOB), votes, ReceiveCommit(Commit(0, 1)), DecidedOne(),
                             [Decide(0, FIRST)]);
  }

  lemma AliceCounts() returns (run: seq<EngineState>, actions: seq<EngineAction>, votes: set<Vote>)
    ensures At(run, actions, OneCounted(), DecidedOne(), votes) && PRECOMMITS[1].vote in votes
  {
    run, actions, votes := BobDecides();
    Correctness();
    run, actions := VoteExtends(run, actions, map[ALICE := Locked(), BOB := DecidedOne()], votes, PRECOMMITS[1].vote);
    votes := votes + {PRECOMMITS[1].vote};
    FirstVoteDoes();
    run, actions := AliceCalls(run, actions, Locked(), DecidedOne(), votes, ReceiveVote(PRECOMMITS[0]), OneCounted(),
                               []);
    votes := votes + CastIn([]);
  }

  lemma AliceSchedules() returns (run: seq<EngineState>, actions: seq<EngineAction>, votes: set<Vote>)
    ensures At(run, actions, Scheduled(), DecidedOne(), votes) && (ALICE, TIMEOUT) in run[|run| - 1].timers
  {
    run, actions, votes := AliceCounts();
    SecondVoteDoes();
    var output := StartTimeout(TIMEOUT);
    run, actions := AliceCalls(run, actions, OneCounted(), DecidedOne(), votes, ReceiveVote(PRECOMMITS[1]), Scheduled(),
                               [output]);
    votes := votes + CastIn([output]);
    assert output in [output];
    assert (ALICE, TIMEOUT) in TimersIn(ALICE, [output]);
  }

  lemma AliceInRound1() returns (run: seq<EngineState>, actions: seq<EngineAction>, votes: set<Vote>)
    ensures At(run, actions, InRound1(), DecidedOne(), votes)
  {
    run, actions, votes := AliceSchedules();
    TimeoutDoes();
    run, actions := AliceCalls(run, actions, Scheduled(), DecidedOne(), votes, TimeoutElapsed(TIMEOUT), TimedOut(),
                               [MoveToRound(1, 1)]);
    votes := votes + CastIn([MoveToRound(1, 1)]);
    SecondStartDoes();
    run, actions := AliceCalls(run, actions, TimedOut(), DecidedOne(), votes, StartRound(1, 1, FAULTY), InRound1(),
                               [StartTimeout(Timeout(1, ProposeKind))]);
    votes := votes + CastIn([StartTimeout(Timeout(1, ProposeKind))]);
  }

  lemma AliceIsSwayed() returns (run: seq<EngineState>, actions: seq<EngineAction>, votes: set<Vote>)
    ensures At(run, actions, Swayed(), DecidedOne(), votes) && A.HasPolka(CONFIG, votes, 1, 2)
  {
    run, actions, votes := AliceInRound1();
    SecondProposalDoes();
    run, actions := AliceCalls(run, actions, InRound1(), DecidedOne(), votes, Deliver(SECOND), Swayed(),
                               [CastVote(VoteOf(VoteType.Prevote, 1, 2, ALICE))]);
    run, actions := BothVote(run, actions, Swayed(), DecidedOne(), votes, VoteType.Prevote, 1, 2);
    votes := votes + Sent(VoteType.Prevote, 1, 2);
  }

  lemma AliceDecides() returns (run: seq<EngineState>, actions: seq<EngineAction>, votes: set<Vote>)
    ensures At(run, actions, DecidedTwo(), DecidedOne(), votes)
  {
    run, actions, votes := AliceIsSwayed();
    SecondPolkaDoes();
    run, actions := AliceCalls(run, actions, Swayed(), DecidedOne(), votes, ReceivePolka(Polka(1, 2)), LockedAgain(),
                               [CastVote(VoteOf(VoteType.Precommit, 1, 2, ALICE))]);
    run, actions := BothVote(run, actions, LockedAgain(), DecidedOne(), votes, VoteType.Precommit, 1, 2);
    votes := votes + Sent(VoteType.Precommit, 1, 2);
    CommitTwoDoes();
    run, actions := AliceCalls(run, actions, LockedAgain(), DecidedOne(), votes, ReceiveCommit(Commit(1, 2)),
                               DecidedTwo(), [Decide(1, SECOND)]);
    votes := votes + CastIn([Decide(1, SECOND)]);
  }

  /**
    Without sound lookups agreement is false of the code: faulty power below one third, genuine
    messages only, timeouts only as scheduled, and two correct drivers decide different values.
  */
  lemma AgreementNeedsSoundLookups() returns (run: seq<EngineState>, actions: seq<EngineAction>)
    ensures A.ConfigOk(CONFIG) && Engine.Run(CONFIG, run, actions) && TimedCalls(run, actions)
    ensures !SoundLookups(run, actions)
    ensures A.Correct(CONFIG, ALICE) && A.Correct(CONFIG, BOB)
    ensures var drivers := run[|run| - 1].drivers;
            && ALICE in drivers && drivers[ALICE].roundState.decision == Some(RoundValue(Value(2, 0), 1))
            && BOB in drivers && drivers[BOB].roundState.decision == Some(RoundValue(Value(1, 0), 0))
  {
    Correctness();
    var votes;
    run, actions, votes := AliceDecides();
    if SoundLookups(run, actions) {
      DriversAgree(CONFIG, run, actions, |run| - 1, |run| - 1, ALICE, BOB);
    }
  }
}
