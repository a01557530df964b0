/**
  Every input the driver feeds to the state machine is backed by the votes, certificates
  and proposals it holds, and every decision by a commit quorum.
*/
module DriverBacking {
  import opened Types
  import opened Quorum
  import opened StateMachine
  import opened Certificates
  import opened DriverModel
  import opened DriverRuns
  import VK = VoteKeeping
  import VKR = VoteKeepingRuns

  /** More than two thirds prevoted the value: a certificate says so, or our own count does. */
  predicate PolkaKnown(d: Driver, round: Round, id: ValueId) {
    HasPolkaCertificate(d, round, id) || VotesMeet(d, round, Prevote, VK.ValueThreshold(id))
  }

  predicate CommitKnown(d: Driver, round: Round, id: ValueId) {
    HasCommitCertificate(d, round, id) || VotesMeet(d, round, Precommit, VK.ValueThreshold(id))
  }

  // ---- What the inputs claim ------------------------------------------------

  /** The polka an input claims: its round and its value. */
  function PolkaClaim(input: Input): Option<(Round, ValueId)> {
    match input
    case ProposalAndPolkaPrevious(p) => Some((p.polRound, p.value.id))
    case ProposalAndPolkaCurrent(p) => Some((p.round, p.value.id))
    case _ => None
  }

  function FirstAt(certificates: seq<PolkaCertificate>, round: Round): (c: Option<PolkaCertificate>)
    ensures c.None? <==> forall x :: x in certificates ==> x.round != round
    ensures c.Some? ==> c.value in certificates && c.value.round == round
  {
    if certificates == [] then None
    else if certificates[0].round == round then Some(certificates[0])
    else
      assert forall x :: x in certificates <==> x == certificates[0] || x in certificates[1..];
      FirstAt(certificates[1..], round)
  }

  /** The certificate `multiplex_proposal` finds for a round is for another value, and our count falls short. */
  predicate Misled(d: Driver, round: Round, id: ValueId) {
    var found := FirstAt(d.polkaCertificates, round);
    found.Some? && found.value.valueId != id && !VotesMeet(d, round, Prevote, VK.ValueThreshold(id))
  }

  /** The polka an input claims is known. */
  predicate Truthful(d: Driver, input: Input) {
    var claim := PolkaClaim(input);
    claim.Some? ==> PolkaKnown(d, claim.value.0, claim.value.1)
  }

  /**
    What an input rests on: a polka on certificates or votes held, unless the lookup by round was
    misled; a commit on a valid proposal with a certificate or a count; the others on our count.
  */
  predicate Backed(d: Driver, valid: set<Proposal>, round: Round, input: Input) {
    && (var claim := PolkaClaim(input);
        claim.Some? ==>
          round == input.proposal.round && (Truthful(d, input) || Misled(d, claim.value.0, claim.value.1)))
    && match input
       case ProposalAndPrecommitValue(p) => p in valid && CommitKnown(d, p.round, p.value.id)
       case NewRound(r) => round == r
       case PrecommitAny => VotesMeet(d, round, Precommit, VK.AnyThreshold)
       case PolkaNil => VotesMeet(d, round, Prevote, VK.NilThreshold)
       case PolkaAny => VotesMeet(d, round, Prevote, VK.AnyThreshold) || HasPolkaCertificateAt(d, round)
       case SkipRound(r) => VK.SkipMet(d.votes, VK.TallyAt(d.votes, r))
       case _ => true
  }

  /** Proposals are filed under their round, and those filed as valid were supplied as valid. */
  predicate ProposalsOk(d: Driver, valid: set<Proposal>) {
    forall r, x :: r in d.proposals && x in d.proposals[r] ==>
      x.0.message.round == r && (x.1 == Valid ==> x.0.message in valid)
  }

  lemma ProposalForIsFiled(d: Driver, valid: set<Proposal>, round: Round, id: ValueId)
    requires ProposalsOk(d, valid)
    ensures var found := ProposalFor(d, round, id);
            found.Some? ==>
              && found.value.0.message.round == round
              && found.value.0.message.value.id == id
              && (found.value.1 == Valid ==> found.value.0.message in valid)
  {
  }

  /** The inputs `multiplex_proposal` returns: only these may rest on a certificate for another value. */
  lemma MultiplexProposalBacked(d: Driver, valid: set<Proposal>, p: Proposal, validity: Validity)
    requires validity == Valid ==> p in valid
    ensures var input := MultiplexProposal(d, p, validity);
            input.Some? ==>
              && Backed(d, valid, p.round, input.value)
              && !input.value.NewRound?
              && (PolkaClaim(input.value).Some? ==> d.roundState.round == p.round)
  {
  }

  /** The inputs `multiplex_vote_threshold` returns for a threshold that is met are truthful. */
  lemma MultiplexVoteThresholdBacked(d: Driver, valid: set<Proposal>, o: VK.VKOutput, round: Round)
    requires ProposalsOk(d, valid) && OutputMet(d, o, round)
    ensures var (r, input) := MultiplexVoteThreshold(d, o, round);
            Backed(d, valid, r, input) && Truthful(d, input)
  {
    match o
    case PrecommitValue(id) => ValueQuorumIsAny(d, Precommit, id, round);
    case PolkaValue(id) => ValueQuorumIsAny(d, Prevote, id, round);
    case _ =>
  }

  /** A threshold reported for a round is met in the votes. */
  predicate OutputMet(d: Driver, o: VK.VKOutput, round: Round) {
    match o
    case PolkaValue(id) => VotesMeet(d, round, Prevote, VK.ValueThreshold(id))
    case PrecommitValue(id) => VotesMeet(d, round, Precommit, VK.ValueThreshold(id))
    case PrecommitAny => VotesMeet(d, round, Precommit, VK.AnyThreshold)
    case PolkaNil => VotesMeet(d, round, Prevote, VK.NilThreshold)
    case PolkaAny => VotesMeet(d, round, Prevote, VK.AnyThreshold)
    case SkipRound(r) => VK.SkipMet(d.votes, VK.TallyAt(d.votes, r))
  }

  lemma ValueQuorumIsAny(d: Driver, voteType: VoteType, id: ValueId, round: Round)
    requires VotesMeet(d, round, voteType, VK.ValueThreshold(id))
    ensures VotesMeet(d, round, voteType, VK.AnyThreshold)
  {
    var k, t := d.votes, d.votes.rounds[round];
    PowerMonotone(k.validators, VK.Voters(t.received, voteType, Val(id)), VK.VotersOf(t.received, voteType));
    VKR.MetGrows(k.params.quorum, VK.Weight(k, t, voteType, Val(id)), VK.WeightSum(k, t, voteType),
                 Total(k.validators));
  }

  // ---- After a step change --------------------------------------------------

  /** Inputs multiplexed after a step change; only on entering the propose step may a lookup have misled. */
  predicate AllBacked(d: Driver, valid: set<Proposal>, batch: seq<(Round, Input)>, entered: bool) {
    forall x :: x in batch ==> Backed(d, valid, x.0, x.1) && (!entered ==> Truthful(d, x.1))
  }

  lemma ProposalStepInputBacked(d: Driver, valid: set<Proposal>, round: Round, stored: StoredProposal)
    requires ProposalsOk(d, valid) && round in d.proposals && stored in d.proposals[round]
    ensures AllBacked(d, valid, ProposalStepInput(d, round, stored), d.roundState.step == Proposing)
  {
    var (sp, validity) := stored;
    MultiplexProposalBacked(d, valid, sp.message, validity);
    if VotesMeet(d, round, Prevote, VK.ValueThreshold(sp.message.value.id)) {
      MultiplexVoteThresholdBacked(d, valid, VK.PolkaValue(sp.message.value.id), round);
    }
  }

  lemma {:induction false} ProposalStepInputsBacked(d: Driver, valid: set<Proposal>, round: Round,
                                                    stored: seq<StoredProposal>)
    requires ProposalsOk(d, valid)
    requires forall x :: x in stored ==> round in d.proposals && x in d.proposals[round]
    ensures AllBacked(d, valid, ProposalStepInputs(d, round, stored), d.roundState.step == Proposing)
  {
    if stored != [] {
      var n := |stored| - 1;
      assert forall x :: x in stored[..n] ==> x in stored;
      ProposalStepInputsBacked(d, valid, round, stored[..n]);
      assert stored[n] in stored;
      ProposalStepInputBacked(d, valid, round, stored[n]);
    }
  }

  /** Everything multiplexed after a step change is backed. */
  lemma StepInputsBacked(d: Driver, valid: set<Proposal>, round: Round)
    requires ProposalsOk(d, valid)
    ensures AllBacked(d, valid, StepInputs(d, round), d.roundState.step == Proposing)
  {
    ProposalStepInputsBacked(d, valid, round, ProposalsAt(d, round));
    if NonValueThreshold(d, round).Some? {
      MultiplexVoteThresholdBacked(d, valid, NonValueThreshold(d, round).value, round);
    }
  }

  /** Backing looks only at what state machine steps leave alone. */
  lemma BackedFrame(d: Driver, d': Driver, valid: set<Proposal>)
    requires SameStores(d, d')
    ensures forall round, input :: Backed(d, valid, round, input) <==> Backed(d', valid, round, input)
    ensures forall input :: Truthful(d, input) <==> Truthful(d', input)
    ensures ProposalsOk(d, valid) <==> ProposalsOk(d', valid)
  {
  }

  /** The inputs fed: all backed, and truthful unless `entered` says that the propose step was entered. */
  predicate FedBacked(valid: set<Proposal>, fed: seq<Fed>, entered: bool) {
    forall f :: f in fed ==> Backed(f.driver, valid, f.round, f.input) && (!entered ==> Truthful(f.driver, f.input))
  }

  /** The propose step is entered by a round start only. */
  lemma ProposingIsEntered(s: State, info: Info, input: Input)
    ensures var s' := Apply(s, info, input).next; s'.step == Proposing && s.step != Proposing ==> input.NewRound?
  {
  }

  lemma FeedOneKeepsBacked(d: Driver, valid: set<Proposal>, round: Round, input: Input, outputs: seq<DriverOutput>,
                           entered: bool)
    requires ProposalsOk(d, valid) && AllBacked(d, valid, d.pending, entered) && (input.NewRound? ==> entered)
    ensures var d' := FeedOne(d, round, input, outputs).driver;
            && SameStores(d, d')
            && ProposalsOk(d', valid) && AllBacked(d', valid, d'.pending, entered)
  {
    FeedOneFacts(d, round, input, outputs);
    var d' := FeedOne(d, round, input, outputs).driver;
    BackedFrame(d, d', valid);
    if GetProposer(d).Ok? {
      var d1 := d.(roundState := d'.roundState);
      BackedFrame(d, d1, valid);
      StepInputsBacked(d1, valid, round);
      ProposingIsEntered(d.roundState, Info(round, d.address, GetProposer(d).value), input);
      FeedOnePendingIs(d, round, input, outputs);
    }
  }

  /** What is pending after one input: what was, or what the step change gave rise to. */
  lemma FeedOnePendingIs(d: Driver, round: Round, input: Input, outputs: seq<DriverOutput>)
    requires GetProposer(d).Ok?
    ensures var d' := FeedOne(d, round, input, outputs).driver;
            || d'.pending == d.pending
            || (d'.roundState.step != d.roundState.step
                && d'.pending == StepInputs(d.(roundState := d'.roundState), round))
  {
    var (d1, result) := ApplyInput(d, round, input);
    if result.value.Some? {
      LiftKeepsState(d1, result.value.value);
    }
  }

  lemma {:induction false} FeedAllBacked(d: Driver, valid: set<Proposal>, batch: seq<(Round, Input)>,
                                         outputs: seq<DriverOutput>, entered: bool)
    requires ProposalsOk(d, valid) && PendingOk(batch)
    requires AllBacked(d, valid, d.pending, entered) && AllBacked(d, valid, batch, entered)
    ensures var r := FeedAll(d, batch, outputs);
            && FedBacked(valid, r.fed, entered)
            && ProposalsOk(r.driver, valid)
            && AllBacked(r.driver, valid, r.driver.pending, entered)
    decreases |batch|
  {
    if batch != [] {
      var first := FeedOne(d, batch[0].0, batch[0].1, outputs);
      FeedOneFacts(d, batch[0].0, batch[0].1, outputs);
      FeedOneKeepsBacked(d, valid, batch[0].0, batch[0].1, outputs, entered);
      BackedFrame(d, first.driver, valid);
      if first.result.Ok? {
        FeedAllBacked(first.driver, valid, batch[1..], first.result.value, entered);
      }
    }
  }

  lemma {:induction false} DrainBacked(d: Driver, valid: set<Proposal>, outputs: seq<DriverOutput>, entered: bool)
    requires PendingOk(d.pending)
    requires ProposalsOk(d, valid) && AllBacked(d, valid, d.pending, entered)
    ensures FedBacked(valid, Drain(d, outputs).fed, entered)
    decreases StepsLeft(d)
  {
    if d.pending != [] {
      var d0 := d.(pending := []);
      BackedFrame(d, d0, valid);
      FeedAllBacked(d0, valid, d.pending, outputs, entered);
      DrainStep(d, outputs);
      var pass := FeedAll(d0, d.pending, outputs);
      if pass.result.Ok? {
        DrainBacked(pass.driver, valid, pass.result.value, entered);
      }
    }
  }

  // ---- Messages -------------------------------------------------------------

  /** A reported threshold is met in the votes just recorded. */
  lemma RecordedOutputIsMet(d: Driver, sv: SignedVote)
    ensures var (k, o) := VK.Record(d.votes, sv, d.roundState.round);
            o.Some? ==> OutputMet(d.(votes := k), o.value, sv.vote.round)
  {
    var t := VK.TallyAt(d.votes, sv.vote.round);
    VKR.OutputHolds(d.votes, t.(received := t.received + [sv]), sv.vote, d.roundState.round);
  }

  /** The proposals supplied as valid once the message is in. */
  function ValidAfter(valid: set<Proposal>, input: DriverInput): set<Proposal> {
    match input
    case ReceiveProposal(sp, Valid) => valid + {sp.message}
    case _ => valid
  }

  lemma StoreProposalFiles(d: Driver, valid: set<Proposal>, sp: SignedProposal, validity: Validity)
    requires ProposalsOk(d, valid)
    ensures ProposalsOk(StoreProposal(d, sp, validity), if validity == Valid then valid + {sp.message} else valid)
  {
  }

  /** The input chosen for a message is backed once the message is stored, and truthful unless it is a proposal. */
  predicate ChoiceBacked(d: Driver, valid: set<Proposal>, choice: Result<Option<(Round, Input)>>, truthful: bool) {
    choice.Ok? && choice.value.Some? ==>
      var (round, input) := choice.value.value;
      Backed(d, valid, round, input) && (truthful ==> Truthful(d, input))
  }

  lemma ProposalBacked(d: Driver, valid: set<Proposal>, sp: SignedProposal, validity: Validity)
    requires ProposalsOk(d, valid) && d.roundState.height == sp.message.height
    ensures var valid' := ValidAfter(valid, ReceiveProposal(sp, validity));
            var d' := StoreProposal(d, sp, validity);
            && ProposalsOk(d', valid')
            && var i := MultiplexProposal(d', sp.message, validity);
               i.Some? ==> Backed(d', valid', sp.message.round, i.value)
  {
    StoreProposalFiles(d, valid, sp, validity);
    MultiplexProposalBacked(StoreProposal(d, sp, validity), ValidAfter(valid, ReceiveProposal(sp, validity)),
                            sp.message, validity);
  }

  lemma CertificateBacked(d: Driver, valid: set<Proposal>, input: DriverInput)
    requires ProposalsOk(d, valid) && (input.ReceiveCommit? || input.ReceivePolka?)
    ensures var (d', choice) := Dispatch(d, input); ProposalsOk(d', valid) && ChoiceBacked(d', valid, choice, true)
  {
    var d' := Dispatch(d, input).0;
    match input
    case ReceiveCommit(c) =>
      if d.roundState.height == c.height {
        assert d'.commitCertificates[|d.commitCertificates|] == c;
        assert HasCommitCertificate(d', c.round, c.valueId);
        ProposalForIsFiled(d', valid, c.round, c.valueId);
      }
    case ReceivePolka(c) =>
      if d.roundState.height == c.height {
        PolkaCertificateIsHeld(d, c);
        ProposalForIsFiled(d', valid, d'.roundState.round, c.valueId);
      }
  }

  lemma VoteBacked(d: Driver, valid: set<Proposal>, sv: SignedVote)
    requires ProposalsOk(d, valid)
    ensures var (d', choice) := Dispatch(d, ReceiveVote(sv));
            ProposalsOk(d', valid) && ChoiceBacked(d', valid, choice, true)
  {
    if d.roundState.height == sv.vote.height && sv.vote.address in Members(d.votes.validators) {
      RecordedOutputIsMet(d, sv);
      var (votes, output) := VK.Record(d.votes, sv, d.roundState.round);
      if output.Some? {
        var d1 := d.(votes := votes);
        var d' := StoreThresholdCertificate(d1, output.value, sv.vote.round);
        assert OutputMet(d', output.value, sv.vote.round);
        MultiplexVoteThresholdBacked(d', valid, output.value, sv.vote.round);
      }
    }
  }

  lemma DispatchBacked(d: Driver, valid: set<Proposal>, input: DriverInput)
    requires ProposalsOk(d, valid)
    ensures var (d', choice) := Dispatch(d, input);
            var valid' := ValidAfter(valid, input);
            ProposalsOk(d', valid') && ChoiceBacked(d', valid', choice, !input.ReceiveProposal?)
  {
    match input
    case ReceiveProposal(sp, validity) =>
      if d.roundState.height == sp.message.height {
        ProposalBacked(d, valid, sp, validity);
      }
    case ReceiveVote(sv) => VoteBacked(d, valid, sv);
    case ReceiveCommit(_) => CertificateBacked(d, valid, input);
    case ReceivePolka(_) => CertificateBacked(d, valid, input);
    case _ =>
  }

  lemma PolkaCertificateIsHeld(d: Driver, c: PolkaCertificate)
    ensures HasPolkaCertificate(StorePolkaCertificate(d, c), c.round, c.valueId)
  {
  }

  /**
    Guard soundness: every input fed to the state machine during a call is backed by what the
    driver holds at that moment. A polka it claims is known, unless the call brought a proposal or
    started a round and the certificate found for the round is for another value.
  */
  lemma EveryFedInputIsBacked(d: Driver, valid: set<Proposal>, input: DriverInput)
    requires d.pending == [] && ProposalsOk(d, valid)
    ensures var r := Process(d, input);
            && FedBacked(ValidAfter(valid, input), r.fed, input.ReceiveProposal? || input.StartRound?)
            && (input.ReceiveProposal? && r.fed != [] ==> FedBacked(ValidAfter(valid, input), r.fed[1..], false))
            && ProposalsOk(r.driver, ValidAfter(valid, input))
  {
    var valid' := ValidAfter(valid, input);
    DispatchBacked(d, valid, input);
    DispatchFrame(d, input);
    ProcessIsChain(d, input);
    var (d1, choice) := Dispatch(d, input);
    if choice.Ok? && choice.value.Some? {
      var (round, i) := choice.value.value;
      OnlyStartRoundStarts(d, input);
      FedFromFirst(d1, valid', round, i, input.StartRound?);
      BackedFrame(d1, Process(d, input).driver, valid');
    }
  }

  /** The inputs fed once the first one is chosen. */
  lemma FedFromFirst(d: Driver, valid: set<Proposal>, round: Round, input: Input, started: bool)
    requires d.pending == [] && ProposalsOk(d, valid) && Backed(d, valid, round, input)
    requires input.NewRound? ==> started
    ensures var fed := FeedAndDrain(d, round, input).fed;
            fed != [] && fed[0] == Fed(d, round, input) && FedBacked(valid, fed[1..], started)
  {
    FeedOneFacts(d, round, input, []);
    FeedOneKeepsBacked(d, valid, round, input, [], started);
    FeedOnePending(d, round, input);
    var first := FeedOne(d, round, input, []);
    DrainBacked(first.driver, valid, if first.result.Ok? then first.result.value else [], started);
  }

  /** The assertion of `prevote_previous` holds of every input fed that reaches it. */
  lemma PrevoteAssertionsHold(d: Driver, valid: set<Proposal>, input: DriverInput, f: Fed)
    requires d.pending == [] && ProposalsOk(d, valid) && f in Process(d, input).fed
    requires f.driver.roundState.step == Proposing && f.driver.roundState.round == f.round
    requires f.input.ProposalAndPolkaPrevious? && IsValidPolRound(f.driver.roundState, f.input.proposal.polRound)
    ensures 0 <= f.input.proposal.polRound < f.input.proposal.round
  {
    EveryFedInputIsBacked(d, valid, input);
  }

  // ---- Heights --------------------------------------------------------------

  /** The driver is at this height, and so are the proposals it stores. */
  predicate HeightsOk(d: Driver, height: Height) {
    && d.roundState.height == height
    && forall r, x :: r in d.proposals && x in d.proposals[r] ==> x.0.message.height == height
  }

  predicate FedHeightsOk(fed: seq<Fed>, height: Height) {
    forall f :: f in fed ==> HeightsOk(f.driver, height)
  }

  lemma DispatchKeepsHeights(d: Driver, height: Height, input: DriverInput)
    requires HeightsOk(d, height) && OpOk(d, height, Call(input))
    ensures HeightsOk(Dispatch(d, input).0, height)
  {
    DispatchFrame(d, input);
  }

  lemma {:induction false} ChainKeepsHeights(d: Driver, outputs: seq<DriverOutput>, fed: seq<Fed>, d': Driver,
                                             outputs': seq<DriverOutput>, height: Height)
    requires Chain(d, outputs, fed, d', outputs') && HeightsOk(d, height)
    ensures FedHeightsOk(fed, height) && HeightsOk(d', height)
    decreases |fed|
  {
    if fed != [] {
      var f, first := FirstStep(d, outputs, fed, d', outputs');
      FeedOneFacts(f.driver, f.round, f.input, outputs);
      ChainKeepsHeights(first.driver, first.result.value, fed[1..], d', outputs', height);
      assert forall x :: x in fed ==> x == f || x in fed[1..];
    }
  }

  lemma PerformKeepsHeights(d: Driver, height: Height, op: Op)
    requires d.pending == [] && HeightsOk(d, height) && OpOk(d, height, op) && ProposerKnown(d, op)
    ensures FedHeightsOk(Perform(d, op).fed, height) && HeightsOk(Perform(d, op).driver, height)
  {
    if op.Call? {
      DispatchKeepsHeights(d, height, op.input);
      ProcessIsChain(d, op.input);
      var (d1, choice) := Dispatch(d, op.input);
      if choice.Ok? && choice.value.Some? {
        var r := Process(d, op.input);
        ChainKeepsHeights(d1, [], r.fed, r.driver, r.result.value, height);
      }
    }
  }

  /**
    The assertion of `multiplex_proposal`: on every run at one height, whenever an input is fed, all
    proposals the driver stores, and so all that a change of step multiplexes, are of its height.
  */
  lemma {:induction false} ProposalHeightsHold(height: Height, ds: seq<Driver>, ops: seq<Op>, n: nat)
    requires IsRun(height, ds, ops) && n < |ops|
    requires ProposersKnown(ds, ops)
    ensures HeightsOk(ds[n], height) && FedHeightsOk(Perform(ds[n], ops[n]).fed, height)
    ensures HeightsOk(ds[n + 1], height)
  {
    if n > 0 {
      ProposalHeightsHold(height, ds, ops, n - 1);
    }
    StepOf(height, ds, ops, n);
    PerformKeepsHeights(ds[n], height, ops[n]);
  }

  // ---- Decisions ------------------------------------------------------------

  /** The proposals supplied as valid in the first `n` calls. */
  function ValidSupplied(ops: seq<Op>, n: nat): set<Proposal>
    requires n <= |ops|
  {
    if n == 0 then {}
    else
      match ops[n - 1]
      case Call(input) => ValidAfter(ValidSupplied(ops, n - 1), input)
      case PruneBelow(_) => ValidSupplied(ops, n - 1)
  }

  /** The proposer of the round is known whenever the state machine is reached. */
  predicate ProposerKnown(d: Driver, op: Op) {
    op.Call? ==>
      var (d', choice) := Dispatch(d, op.input);
      choice.Ok? && choice.value.Some? ==> GetProposer(d').Ok?
  }

  predicate ProposersKnown(ds: seq<Driver>, ops: seq<Op>) {
    forall i {:trigger ops[i]} :: 0 <= i < |ops| && i < |ds| ==> ProposerKnown(ds[i], ops[i])
  }

  /** Some step of the call decides `p` while a commit quorum for it is known. */
  predicate DecidedWithCause(fed: seq<Fed>, valid: set<Proposal>, p: Proposal) {
    exists f :: f in fed && f.input == ProposalAndPrecommitValue(p) && p in valid
             && CommitKnown(f.driver, p.round, p.value.id)
  }

  /** At most one decision among the outputs, and then it is the one in the state. */
  predicate DecisionsOk(d: Driver, outputs: seq<DriverOutput>) {
    && LockDecides(d)
    && forall i :: 0 <= i < |outputs| && outputs[i].Decide? ==>
         && d.roundState.decision == Some(RoundValue(outputs[i].proposal.value, outputs[i].proposal.round))
         && forall j :: 0 <= j < |outputs| && outputs[j].Decide? ==> j == i
  }

  predicate LockDecides(d: Driver) {
    d.roundState.decision.Some? ==> d.roundState.step == Committed
  }

  /** What one state machine step does to the decision and its outputs. */
  /** A decision is lifted alone, from the commit input for its proposal. */
  lemma LiftedDecision(d: Driver, round: Round, input: Input)
    requires LockDecides(d) && GetProposer(d).Ok?
    ensures var t := Next(d, round, input);
            var lifted := if t.output.Some? then Lift(d.(roundState := t.next), t.output.value).1 else [];
            && LockDecides(d.(roundState := t.next))
            && (d.roundState.decision.Some? ==> t.next.decision == d.roundState.decision && lifted == [])
            && forall i :: 0 <= i < |lifted| && lifted[i].Decide? ==>
                 && |lifted| == 1 && input == ProposalAndPrecommitValue(lifted[i].proposal)
                 && t.next.decision == Some(RoundValue(lifted[i].proposal.value, lifted[i].proposal.round))
  {
    DecisionIsFinal(d.roundState, Info(round, d.address, GetProposer(d).value), input);
  }

  lemma FeedOneDecides(d: Driver, round: Round, input: Input, outputs: seq<DriverOutput>)
    requires LockDecides(d) && GetProposer(d).Ok?
    ensures var r := FeedOne(d, round, input, outputs);
            && LockDecides(r.driver)
            && outputs <= r.result.value
            && (d.roundState.decision.Some? ==>
                  r.driver.roundState.decision == d.roundState.decision && r.result.value == outputs)
            && (forall i :: |outputs| <= i < |r.result.value| && r.result.value[i].Decide? ==>
                  var p := r.result.value[i].proposal;
                  && |r.result.value| == |outputs| + 1
                  && input == ProposalAndPrecommitValue(p)
                  && r.driver.roundState.decision == Some(RoundValue(p.value, p.round)))
  {
    FeedOneFacts(d, round, input, outputs);
    LiftedDecision(d, round, input);
    DecisionHasInput(d.roundState, Info(round, d.address, GetProposer(d).value), input);
  }

  lemma {:induction false} ChainDecides(d: Driver, outputs: seq<DriverOutput>, fed: seq<Fed>, d': Driver,
                                        outputs': seq<DriverOutput>)
    requires Chain(d, outputs, fed, d', outputs') && DecisionsOk(d, outputs)
    ensures DecisionsOk(d', outputs')
    ensures d.roundState.decision.Some? ==> d'.roundState.decision == d.roundState.decision
    ensures outputs <= outputs'
    ensures forall i :: |outputs| <= i < |outputs'| && outputs'[i].Decide? ==>
              exists f :: f in fed && f.input == ProposalAndPrecommitValue(outputs'[i].proposal)
    decreases |fed|
  {
    if fed != [] {
      var f := fed[0];
      var first := FeedOne(f.driver, f.round, f.input, outputs);
      FeedOneFacts(f.driver, f.round, f.input, outputs);
      FeedOneDecides(f.driver, f.round, f.input, outputs);
      ChainDecides(first.driver, first.result.value, fed[1..], d', outputs');
      forall i | |outputs| <= i < |outputs'| && outputs'[i].Decide?
        ensures exists f :: f in fed && f.input == ProposalAndPrecommitValue(outputs'[i].proposal)
      {
        if i < |first.result.value| {
          assert outputs'[i] == first.result.value[i];
          assert f in fed;
        } else {
          var g :| g in fed[1..] && g.input == ProposalAndPrecommitValue(outputs'[i].proposal);
          assert g in fed;
        }
      }
    }
  }

  predicate DriverOk(d: Driver, height: Height, valid: set<Proposal>, outputs: seq<DriverOutput>) {
    && d.pending == []
    && d.roundState.height == height
    && ProposalsOk(d, valid)
    && DecisionsOk(d, outputs)
  }

  /** Every decision output from index `from` on has its cause among the inputs fed. */
  predicate NewDecisionsCaused(outputs: seq<DriverOutput>, from: nat, fed: seq<Fed>, valid: set<Proposal>) {
    forall i :: from <= i < |outputs| && outputs[i].Decide? ==> DecidedWithCause(fed, valid, outputs[i].proposal)
  }

  lemma {:induction false} ChainKeepsHeight(d: Driver, outputs: seq<DriverOutput>, fed: seq<Fed>, d': Driver,
                                            outputs': seq<DriverOutput>)
    requires Chain(d, outputs, fed, d', outputs')
    ensures d'.roundState.height == d.roundState.height
    decreases |fed|
  {
    if fed != [] {
      var f := fed[0];
      var first := FeedOne(f.driver, f.round, f.input, outputs);
      FeedOneFacts(f.driver, f.round, f.input, outputs);
      StepChangeHasOutput(f.driver.roundState, Info(f.round, f.driver.address, GetProposer(f.driver).value), f.input);
      ChainKeepsHeight(first.driver, first.result.value, fed[1..], d', outputs');
    }
  }

  /** The chain of a call, after what was output before it. */
  lemma ChainKeepsDecisions(d: Driver, valid: set<Proposal>, before: seq<DriverOutput>, fed: seq<Fed>, d': Driver,
                            outputs: seq<DriverOutput>)
    requires Chain(d, [], fed, d', outputs) && DecisionsOk(d, before) && FedBacked(valid, fed, true)
    ensures d'.roundState.height == d.roundState.height && DecisionsOk(d', before + outputs)
    ensures d.roundState.decision.Some? ==> d'.roundState.decision == d.roundState.decision
    ensures NewDecisionsCaused(before + outputs, |before|, fed, valid)
  {
    assert before + [] == before;
    ChainAfter(before, d, [], fed, d', outputs);
    ChainDecides(d, before, fed, d', before + outputs);
    ChainKeepsHeight(d, [], fed, d', outputs);
  }

  lemma CallKeepsDriverOk(d: Driver, height: Height, valid: set<Proposal>, before: seq<DriverOutput>,
                          input: DriverInput)
    requires DriverOk(d, height, valid, before)
    requires OpOk(d, height, Call(input)) && ProposerKnown(d, Call(input))
    ensures var d' := Process(d, input).driver;
            var outputs := before + Outputs(d, Call(input));
            && DriverOk(d', height, ValidAfter(valid, input), outputs)
            && (d.roundState.decision.Some? ==> d'.roundState.decision == d.roundState.decision)
            && NewDecisionsCaused(outputs, |before|, Process(d, input).fed, ValidAfter(valid, input))
  {
    var valid' := ValidAfter(valid, input);
    var r := Process(d, input);
    ProcessIsChain(d, input);
    EveryFedInputIsBacked(d, valid, input);
    DispatchFrame(d, input);
    var (d1, choice) := Dispatch(d, input);
    assert before + [] == before;
    assert DecisionsOk(d1, before);
    if choice.Ok? && choice.value.Some? {
      ChainKeepsDecisions(d1, valid', before, r.fed, r.driver, r.result.value);
    }
  }

  lemma PerformKeepsDriverOk(d: Driver, height: Height, valid: set<Proposal>, before: seq<DriverOutput>, op: Op)
    requires DriverOk(d, height, valid, before) && OpOk(d, height, op) && ProposerKnown(d, op)
    ensures var d' := Perform(d, op).driver;
            var valid' := if op.Call? then ValidAfter(valid, op.input) else valid;
            var outputs := before + Outputs(d, op);
            && DriverOk(d', height, valid', outputs)
            && (d.roundState.decision.Some? ==> d'.roundState.decision == d.roundState.decision)
            && NewDecisionsCaused(outputs, |before|, Perform(d, op).fed, valid')
  {
    if op.Call? {
      CallKeepsDriverOk(d, height, valid, before, op.input);
    } else {
      assert before + Outputs(d, op) == before;
    }
  }

  lemma StepKeepsDriverOk(d: Driver, height: Height, valid: set<Proposal>, before: seq<DriverOutput>, op: Op,
                          d': Driver)
    requires DriverOk(d, height, valid, before) && Leads(height, d, op, d') && ProposerKnown(d, op)
    ensures DriverOk(d', height, if op.Call? then ValidAfter(valid, op.input) else valid, before + Outputs(d, op))
    ensures d.roundState.decision.Some? ==> d'.roundState.decision == d.roundState.decision
  {
    PerformKeepsDriverOk(d, height, valid, before, op);
  }

  predicate DriverOkAt(height: Height, ds: seq<Driver>, ops: seq<Op>, n: nat)
    requires IsRun(height, ds, ops)
  {
    n <= |ops| && DriverOk(ds[n], height, ValidSupplied(ops, n), AllOutputs(height, ds, ops, n))
  }

  lemma DriverOkAtStart(height: Height, ds: seq<Driver>, ops: seq<Op>)
    requires IsRun(height, ds, ops)
    ensures DriverOkAt(height, ds, ops, 0)
  {
  }

  lemma NextKeepsDriverOk(height: Height, ds: seq<Driver>, ops: seq<Op>, n: nat)
    requires IsRun(height, ds, ops) && n < |ops| && ProposersKnown(ds, ops) && DriverOkAt(height, ds, ops, n)
    ensures DriverOkAt(height, ds, ops, n + 1)
  {
    var before := AllOutputs(height, ds, ops, n);
    StepOf(height, ds, ops, n);
    StepKeepsDriverOk(ds[n], height, ValidSupplied(ops, n), before, ops[n], ds[n + 1]);
  }

  lemma RunKeepsDriverOk(height: Height, ds: seq<Driver>, ops: seq<Op>, n: nat)
    requires IsRun(height, ds, ops) && n <= |ops| && ProposersKnown(ds, ops)
    ensures DriverOkAt(height, ds, ops, n)
  {
    DriverOkAtStart(height, ds, ops);
    for i := 0 to n
      invariant DriverOkAt(height, ds, ops, i)
    {
      NextKeepsDriverOk(height, ds, ops, i);
    }
  }

  lemma IndexAfter(before: seq<DriverOutput>, outputs: seq<DriverOutput>, i: nat)
    requires i < |outputs|
    ensures (before + outputs)[|before| + i] == outputs[i]
  {
  }

  /**
    Decision soundness: a decision output at any call of a run is for a proposal supplied as
    valid, fed while the driver held a commit certificate or a precommit quorum for exactly its
    round and value.
  */
  lemma DecisionsAreSound(height: Height, ds: seq<Driver>, ops: seq<Op>, n: nat, i: nat)
    requires IsRun(height, ds, ops) && n < |ops|
    requires ProposersKnown(ds, ops)
    requires i < |Outputs(ds[n], ops[n])| && Outputs(ds[n], ops[n])[i].Decide?
    ensures DecidedWithCause(Perform(ds[n], ops[n]).fed, ValidSupplied(ops, n + 1), Outputs(ds[n], ops[n])[i].proposal)
  {
    RunKeepsDriverOk(height, ds, ops, n);
    var before := AllOutputs(height, ds, ops, n);
    PerformKeepsDriverOk(ds[n], height, ValidSupplied(ops, n), before, ops[n]);
    IndexAfter(before, Outputs(ds[n], ops[n]), i);
  }

  /** At most one decision is output in a run, and it is the decision the state keeps. */
  lemma DecidesOnce(height: Height, ds: seq<Driver>, ops: seq<Op>, i: nat, j: nat)
    requires IsRun(height, ds, ops)
    requires ProposersKnown(ds, ops)
    requires var outputs := AllOutputs(height, ds, ops, |ops|);
             i < |outputs| && j < |outputs| && outputs[i].Decide? && outputs[j].Decide?
    ensures i == j
    ensures var p := AllOutputs(height, ds, ops, |ops|)[i].proposal;
            ds[|ops|].roundState.decision == Some(RoundValue(p.value, p.round))
  {
    RunKeepsDriverOk(height, ds, ops, |ops|);
  }

  lemma CallKeepsDecision(height: Height, ds: seq<Driver>, ops: seq<Op>, i: nat)
    requires IsRun(height, ds, ops) && i < |ops|
    requires ProposersKnown(ds, ops)
    ensures ds[i].roundState.decision.Some? ==> ds[i + 1].roundState.decision == ds[i].roundState.decision
  {
    var before := AllOutputs(height, ds, ops, i);
    RunKeepsDriverOk(height, ds, ops, i);
    StepOf(height, ds, ops, i);
    StepKeepsDriverOk(ds[i], height, ValidSupplied(ops, i), before, ops[i], ds[i + 1]);
  }

  /** A decision in the state is never changed by later calls. */
  lemma {:induction false} DecisionStays(height: Height, ds: seq<Driver>, ops: seq<Op>, i: nat, j: nat)
    requires IsRun(height, ds, ops) && i <= j <= |ops|
    requires ProposersKnown(ds, ops)
    requires ds[i].roundState.decision.Some?
    ensures ds[j].roundState.decision == ds[i].roundState.decision
    decreases j - i
  {
    if i < j {
      CallKeepsDecision(height, ds, ops, i);
      DecisionStays(height, ds, ops, i + 1, j);
    }
  }
}
