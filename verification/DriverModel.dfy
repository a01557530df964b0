/**
  The driver and its multiplexer, on values. `Process` says what one call of the driver
  does to its state, what it returns, and which inputs it fed to the state machine.
*/
module DriverModel {
  import opened Types
  import opened Quorum
  import opened StateMachine
  import opened Certificates
  import VK = VoteKeeping

  type StoredProposal = (SignedProposal, Validity)

  datatype Driver = Driver(
    address: Address,
    proposer: Option<Address>,
    proposals: map<Round, seq<StoredProposal>>,
    votes: VK.Ledger,
    commitCertificates: seq<CommitCertificate>,
    polkaCertificates: seq<PolkaCertificate>,
    roundState: State,
    pending: seq<(Round, Input)>,
    lastPrevote: Option<Vote>,
    lastPrecommit: Option<Vote>,
    roundCertificate: Option<EnterRoundCertificate>)

  datatype DriverInput =
    | StartRound(height: Height, round: Round, proposer: Address)
    | Propose(round: Round, value: Value)
    | ReceiveProposal(signedProposal: SignedProposal, validity: Validity)
    | ReceiveVote(signedVote: SignedVote)
    | ReceiveCommit(commit: CommitCertificate)
    | ReceivePolka(polka: PolkaCertificate)
    | TimeoutElapsed(timeout: Timeout)

  datatype DriverOutput =
    | MoveToRound(height: Height, round: Round)
    | BroadcastProposal(proposal: Proposal)
    | CastVote(vote: Vote)
    | Decide(round: Round, proposal: Proposal)
    | StartTimeout(timeout: Timeout)
    | GetValue(height: Height, round: Round, timeout: Timeout)

  datatype Error =
    | NoProposer
    | ProposerNotFound
    | ValidatorNotFound
    | InvalidProposalHeight
    | InvalidVoteHeight
    | InvalidCertificateHeight

  datatype Result<+T> = Ok(value: T) | Err(error: Error)

  function NewDriver(height: Height, vs: ValidatorSet, address: Address, params: ThresholdParams): Driver {
    Driver(address, None, map[], VK.Ledger(vs, params, map[], map[]), [], [], NewState(height, NIL_ROUND), [],
           None, None, None)
  }

  // ---- Lookups --------------------------------------------------------------

  function FirstWithValue(stored: seq<StoredProposal>, id: ValueId): (r: Option<StoredProposal>)
    ensures r.Some? ==> r.value in stored && r.value.0.message.value.id == id
  {
    if stored == [] then None
    else if stored[0].0.message.value.id == id then Some(stored[0])
    else FirstWithValue(stored[1..], id)
  }

  function ProposalsAt(d: Driver, round: Round): seq<StoredProposal> {
    if round in d.proposals then d.proposals[round] else []
  }

  /** `proposal_and_validity_for_round_and_value` */
  function ProposalFor(d: Driver, round: Round, id: ValueId): Option<StoredProposal> {
    FirstWithValue(ProposalsAt(d, round), id)
  }

  predicate HasCommitCertificate(d: Driver, round: Round, id: ValueId) {
    exists c :: c in d.commitCertificates && c.round == round && c.valueId == id
  }

  predicate HasPolkaCertificate(d: Driver, round: Round, id: ValueId) {
    exists c :: c in d.polkaCertificates && c.round == round && c.valueId == id
  }

  predicate HasPolkaCertificateAt(d: Driver, round: Round) {
    exists c :: c in d.polkaCertificates && c.round == round
  }

  predicate VotesMeet(d: Driver, round: Round, voteType: VoteType, threshold: VK.Threshold) {
    VK.ThresholdMet(d.votes, round, voteType, threshold)
  }

  // ---- Multiplexing ---------------------------------------------------------

  predicate PolkaPrevious(d: Driver, p: Proposal) {
    && p.polRound != NIL_ROUND
    && p.polRound < d.roundState.round
    && (HasPolkaCertificateAt(d, p.polRound) || VotesMeet(d, p.polRound, Prevote, VK.ValueThreshold(p.value.id)))
  }

  predicate PolkaForCurrent(d: Driver, p: Proposal) {
    HasPolkaCertificateAt(d, p.round) || VotesMeet(d, p.round, Prevote, VK.ValueThreshold(p.value.id))
  }

  /** `multiplex_proposal` */
  function MultiplexProposal(d: Driver, p: Proposal, validity: Validity): Option<Input> {
    if d.roundState.round == NIL_ROUND then None
    else if validity == Invalid then
      if d.roundState.step != Proposing then None
      else if p.polRound == NIL_ROUND then Some(InvalidProposal)
      else if PolkaPrevious(d, p) then Some(InvalidProposalAndPolkaPrevious(p))
      else None
    else if d.roundState.decision == None
            && (HasCommitCertificate(d, p.round, p.value.id)
                || VotesMeet(d, p.round, Precommit, VK.ValueThreshold(p.value.id))) then
      Some(ProposalAndPrecommitValue(p))
    else if d.roundState.round != p.round then None
    else if PolkaForCurrent(d, p) && d.roundState.step.Rank() >= Prevoting.Rank() then
      Some(ProposalAndPolkaCurrent(p))
    else if d.roundState.step == Proposing && PolkaPrevious(d, p) then
      Some(ProposalAndPolkaPrevious(p))
    else if p.polRound == NIL_ROUND then Some(ProposalInput(p))
    else None
  }

  /** `multiplex_vote_threshold` */
  function MultiplexVoteThreshold(d: Driver, threshold: VK.VKOutput, round: Round): (Round, Input) {
    match threshold
    case PolkaAny => (round, PolkaAny)
    case PolkaNil => (round, PolkaNil)
    case PrecommitAny => (round, PrecommitAny)
    case SkipRound(r) => (round, SkipRound(r))
    case PrecommitValue(id) =>
      (match ProposalFor(d, round, id)
       case Some((sp, Valid)) => (round, ProposalAndPrecommitValue(sp.message))
       case _ => (round, PrecommitAny))
    case PolkaValue(id) =>
      match ProposalFor(d, d.roundState.round, id)
      case Some((sp, validity)) =>
        var p := sp.message;
        if p.polRound != NIL_ROUND && p.polRound == round then
          if validity == Invalid then (p.round, InvalidProposalAndPolkaPrevious(p))
          else (p.round, ProposalAndPolkaPrevious(p))
        else if p.round == round && validity == Valid then (round, ProposalAndPolkaCurrent(p))
        else (round, PolkaAny)
      case None => (round, PolkaAny)
  }

  /** `find_non_value_threshold` */
  function NonValueThreshold(d: Driver, round: Round): Option<VK.VKOutput> {
    if VotesMeet(d, round, Precommit, VK.AnyThreshold) then Some(VK.PrecommitAny)
    else if VotesMeet(d, round, Prevote, VK.NilThreshold) then Some(VK.PolkaNil)
    else if VotesMeet(d, round, Prevote, VK.AnyThreshold) then Some(VK.PolkaAny)
    else None
  }

  /** The input one stored proposal gives rise to after a step change. */
  function ProposalStepInput(d: Driver, round: Round, stored: StoredProposal): seq<(Round, Input)> {
    var (sp, validity) := stored;
    if d.roundState.step == Proposing then
      match MultiplexProposal(d, sp.message, validity)
      case Some(input) => [(d.roundState.round, input)]
      case None => []
    else if d.roundState.step == Prevoting
            && VotesMeet(d, round, Prevote, VK.ValueThreshold(sp.message.value.id)) then
      [MultiplexVoteThreshold(d, VK.PolkaValue(sp.message.value.id), round)]
    else []
  }

  function ProposalStepInputs(d: Driver, round: Round, stored: seq<StoredProposal>): seq<(Round, Input)> {
    if stored == [] then []
    else
      ProposalStepInputs(d, round, stored[..|stored| - 1]) + ProposalStepInput(d, round, stored[|stored| - 1])
  }

  /** `multiplex_step_change` */
  function StepInputs(d: Driver, round: Round): seq<(Round, Input)> {
    ProposalStepInputs(d, round, ProposalsAt(d, round)) +
    match NonValueThreshold(d, round)
    case Some(threshold) => [MultiplexVoteThreshold(d, threshold, round)]
    case None => []
  }

  // ---- Storing --------------------------------------------------------------

  /** All proposals of a round come from one validator; the source panics otherwise. */
  predicate SameProposer(d: Driver, p: Proposal) {
    var stored := ProposalsAt(d, p.round);
    stored != [] ==> stored[0].0.message.address == p.address
  }

  /** `ProposalKeeper::store_proposal` */
  function StoreProposal(d: Driver, sp: SignedProposal, validity: Validity): Driver {
    var stored := ProposalsAt(d, sp.message.round);
    if exists x :: x in stored && x.0 == sp then d
    else d.(proposals := d.proposals[sp.message.round := stored + [(sp, validity)]])
  }

  function StorePolkaCertificate(d: Driver, c: PolkaCertificate): Driver {
    if HasPolkaCertificate(d, c.round, c.valueId) then d
    else d.(polkaCertificates := d.polkaCertificates + [c])
  }

  /** `store_polka_certificate`: the polka certificate built from our own votes. */
  function BuildPolkaCertificate(d: Driver, round: Round, id: ValueId): Driver {
    var votes := Matching(VK.TallyAt(d.votes, round).received, Prevote, Some(Val(id)));
    var c := PolkaCertificate(d.roundState.height, round, id,
      seq(|votes|, i requires 0 <= i < |votes| => VoteSignature(votes[i].vote.address, votes[i].signature)));
    d.(polkaCertificates := d.polkaCertificates + [c])
  }

  /** `store_precommit_any_round_certificate` */
  function BuildPrecommitCertificate(d: Driver, round: Round): EnterRoundCertificate
    requires round in d.votes.rounds
  {
    EnterRoundFromVotes(d.roundState.height, round + 1, round, PrecommitCertificate,
                        Matching(VK.TallyAt(d.votes, round).received, Precommit, None))
  }

  /** `store_skip_round_certificate` */
  function BuildSkipCertificate(d: Driver, round: Round): EnterRoundCertificate
    requires round in d.votes.rounds
  {
    EnterRoundFromVotes(d.roundState.height, round, round, SkipCertificate,
                        FirstPerAddress(VK.TallyAt(d.votes, round).received, {}))
  }

  /** The round whose votes make up the certificate is recorded; the source panics otherwise. */
  predicate RoundRecorded(d: Driver, output: VK.VKOutput, round: Round) {
    round in d.votes.rounds && (output.SkipRound? ==> output.round == round)
  }

  /** The certificate a threshold lets the driver build, after the vote is recorded. */
  function StoreThresholdCertificate(d: Driver, output: VK.VKOutput, round: Round): Driver
    requires RoundRecorded(d, output, round)
  {
    match output
    case PolkaValue(id) => BuildPolkaCertificate(d, round, id)
    case PrecommitAny =>
      if d.roundState.round == round then d.(roundCertificate := Some(BuildPrecommitCertificate(d, round))) else d
    case SkipRound(r) => d.(roundCertificate := Some(BuildSkipCertificate(d, r)))
    case _ => d
  }

  // ---- One input ------------------------------------------------------------

  /** The part of `apply` before the state machine: store the message and choose its input. */
  function Dispatch(d: Driver, input: DriverInput): (Driver, Result<Option<(Round, Input)>>) {
    match input
    case StartRound(height, round, proposer) =>
      var s := if d.roundState.height == height then d.roundState.(round := round) else NewState(height, round);
      (d.(roundState := s, proposer := Some(proposer)), Ok(Some((round, NewRound(round)))))
    case Propose(round, value) =>
      (d, Ok(Some((round, ProposeValue(value)))))
    case ReceiveProposal(sp, validity) =>
      if d.roundState.height != sp.message.height then (d, Err(InvalidProposalHeight))
      else
        var d' := StoreProposal(d, sp, validity);
        (d', Ok(match MultiplexProposal(d', sp.message, validity)
                case Some(i) => Some((sp.message.round, i))
                case None => None))
    case ReceiveVote(sv) =>
      if d.roundState.height != sv.vote.height then (d, Err(InvalidVoteHeight))
      else if sv.vote.address !in Members(d.votes.validators) then (d, Err(ValidatorNotFound))
      else
        var (votes, output) := VK.Record(d.votes, sv, d.roundState.round);
        var d1 := d.(votes := votes);
        (match output
         case None => (d1, Ok(None))
         case Some(o) =>
           var d' := StoreThresholdCertificate(d1, o, sv.vote.round);
           (d', Ok(Some(MultiplexVoteThreshold(d', o, sv.vote.round)))))
    case ReceiveCommit(c) =>
      if d.roundState.height != c.height then (d, Err(InvalidCertificateHeight))
      else
        var d' := d.(commitCertificates := d.commitCertificates + [c]);
        (d', Ok(match ProposalFor(d', c.round, c.valueId)
                case Some((sp, Valid)) => Some((c.round, ProposalAndPrecommitValue(sp.message)))
                case _ => None))
    case ReceivePolka(c) =>
      if d.roundState.height != c.height then (d, Err(InvalidCertificateHeight))
      else
        var d' := StorePolkaCertificate(d, c);
        (d', Ok(MultiplexPolkaCertificate(d', c.round, c.valueId)))
    case TimeoutElapsed(timeout) =>
      (d, Ok(match timeout.kind
             case ProposeKind => Some((timeout.round, TimeoutPropose))
             case PrevoteKind => Some((timeout.round, TimeoutPrevote))
             case PrecommitKind => Some((timeout.round, TimeoutPrecommit))
             case RebroadcastKind => None))
  }

  /** The tail of `store_and_multiplex_polka_certificate` */
  function MultiplexPolkaCertificate(d: Driver, round: Round, id: ValueId): Option<(Round, Input)> {
    match ProposalFor(d, d.roundState.round, id)
    case None => Some((round, PolkaAny))
    case Some((sp, validity)) =>
      var p := sp.message;
      if validity == Invalid then None
      else if p.polRound == round then Some((p.round, ProposalAndPolkaPrevious(p)))
      else if p.round == round then Some((p.round, ProposalAndPolkaCurrent(p)))
      else None
  }

  function GetProposer(d: Driver): Result<Address> {
    match d.proposer
    case None => Err(NoProposer)
    case Some(a) => if a in Members(d.votes.validators) then Ok(a) else Err(ProposerNotFound)
  }

  /** `apply_input`. Without a proposer the round state is lost, as it was taken out before the check. */
  function ApplyInput(d: Driver, round: Round, input: Input): (Driver, Result<Option<Output>>) {
    match GetProposer(d)
    case Err(e) => (d.(roundState := NewState(0, NIL_ROUND)), Err(e))
    case Ok(proposer) =>
      var t := Apply(d.roundState, Info(round, d.address, proposer), input);
      var d1 := d.(roundState := t.next);
      var d' := if t.next.step != d.roundState.step && t.next.step != Unstarted
                then d1.(pending := StepInputs(d1, round)) else d1;
      (d', Ok(t.output))
  }

  /** `apply`: store the message, then feed the input chosen for it, if any. */
  function ApplyMessage(d: Driver, input: DriverInput): (Driver, Result<Option<Output>>) {
    var (d1, choice) := Dispatch(d, input);
    match choice
    case Err(e) => (d1, Err(e))
    case Ok(None) => (d1, Ok(None))
    case Ok(Some(chosen)) => ApplyInput(d1, chosen.0, chosen.1)
  }

  // ---- Outputs --------------------------------------------------------------

  predicate MayFollow(last: Option<Vote>, vote: Vote) {
    last.Some? ==> last.value.height < vote.height || last.value.round < vote.round || last.value == vote
  }

  /** The test of `lift_vote_output`. */
  predicate CanVote(d: Driver, vote: Vote) {
    match vote.voteType
    case Prevote => MayFollow(d.lastPrevote, vote)
    case Precommit =>
      && MayFollow(d.lastPrecommit, vote)
      && (d.roundState.valid.Some? && vote.value.Val? ==> d.roundState.valid.value.value.id == vote.value.id)
  }

  /** `set_last_vote_cast` */
  function SetLastVote(d: Driver, vote: Vote): Driver
    requires vote.height == d.roundState.height
  {
    if vote.round != d.roundState.round then d
    else match vote.voteType
      case Prevote => d.(lastPrevote := Some(vote))
      case Precommit => d.(lastPrecommit := Some(vote))
  }

  /** A vote is of the height the driver is at; the source panics otherwise. */
  predicate VoteOfHeight(d: Driver, output: Output) {
    output.VoteOutput? ==> output.vote.height == d.roundState.height
  }

  /** `lift_output`: the driver afterwards, and the outputs to append. */
  function Lift(d: Driver, output: Output): (Driver, seq<DriverOutput>)
    requires VoteOfHeight(d, output)
  {
    match output
    case NewRoundOutput(round) => (d, [MoveToRound(d.roundState.height, round)])
    case ProposalOutput(p) => (d, [BroadcastProposal(p)])
    case VoteOutput(vote) =>
      if vote.address == d.address && CanVote(d, vote) then (SetLastVote(d, vote), [CastVote(vote)]) else (d, [])
    case ScheduleTimeout(timeout) => (d, [StartTimeout(timeout)])
    case GetValueAndScheduleTimeout(height, round, timeout) =>
      (d, [StartTimeout(timeout), GetValue(height, round, timeout)])
    case Decision(round, p) => (d, [Decide(round, p)])
  }

  // ---- The loop -------------------------------------------------------------

  /** An input fed to the state machine, and the driver it was fed by. */
  datatype Fed = Fed(driver: Driver, round: Round, input: Input)

  datatype Processed = Processed(driver: Driver, result: Result<seq<DriverOutput>>, fed: seq<Fed>)

  /** Feed one input and lift its output. */
  function FeedOne(d: Driver, round: Round, input: Input, outputs: seq<DriverOutput>): Processed {
    var (d1, result) := ApplyInput(d, round, input);
    var fed := [Fed(d, round, input)];
    match result
    case Err(e) => Processed(d1, Err(e), fed)
    case Ok(None) => Processed(d1, Ok(outputs), fed)
    case Ok(Some(output)) =>
      var (d2, lifted) := Lift(d1, output);
      Processed(d2, Ok(outputs + lifted), fed)
  }

  /** The inner loop of `process`: a batch of pending inputs, in order. */
  function FeedAll(d: Driver, batch: seq<(Round, Input)>, outputs: seq<DriverOutput>): Processed
    decreases |batch|
  {
    if batch == [] then Processed(d, Ok(outputs), [])
    else
      var first := FeedOne(d, batch[0].0, batch[0].1, outputs);
      if first.result.Err? then first
      else
        var rest := FeedAll(first.driver, batch[1..], first.result.value);
        rest.(fed := first.fed + rest.fed)
  }

  /** Inputs that neither leave nor restart the round. */
  predicate KeepsRound(input: Input) {
    !input.TimeoutPrecommit? && !input.SkipRound? && !input.NewRound?
  }

  /** Nor do these bring a new value to propose. */
  predicate StaysInRound(input: Input) {
    KeepsRound(input) && !input.ProposeValue?
  }

  predicate PendingOk(batch: seq<(Round, Input)>) {
    forall x :: x in batch ==> StaysInRound(x.1)
  }

  lemma {:induction false} ProposalStepInputsStay(d: Driver, round: Round, stored: seq<StoredProposal>)
    ensures PendingOk(ProposalStepInputs(d, round, stored))
  {
    if stored != [] {
      ProposalStepInputsStay(d, round, stored[..|stored| - 1]);
    }
  }

  /** Multiplexing a step change never asks to leave or restart the round, nor proposes. */
  lemma StepInputsStay(d: Driver, round: Round)
    ensures PendingOk(StepInputs(d, round))
  {
    ProposalStepInputsStay(d, round, ProposalsAt(d, round));
  }

  /** Within a round the step only rises. */
  lemma RankRises(s: State, info: Info, input: Input)
    requires KeepsRound(input)
    ensures var s' := Apply(s, info, input).next;
            s'.step.Rank() >= s.step.Rank() && (s'.step != s.step ==> s'.step.Rank() > s.step.Rank())
  {
  }

  /** The step is not lower, and higher when new inputs became pending. */
  predicate Raised(d: Driver, d': Driver) {
    && d'.roundState.step.Rank() >= d.roundState.step.Rank()
    && (|| d'.pending == d.pending
        || (PendingOk(d'.pending) && d'.roundState.step.Rank() > d.roundState.step.Rank()))
  }

  lemma ApplyInputRaises(d: Driver, round: Round, input: Input)
    requires KeepsRound(input) && GetProposer(d).Ok?
    ensures Raised(d, ApplyInput(d, round, input).0)
  {
    var info := Info(round, d.address, GetProposer(d).value);
    RankRises(d.roundState, info, input);
    StepInputsStay(d.(roundState := Apply(d.roundState, info, input).next), round);
  }

  lemma LiftKeepsState(d: Driver, output: Output)
    requires VoteOfHeight(d, output)
    ensures var d' := Lift(d, output).0; d'.roundState == d.roundState && d'.pending == d.pending
  {
  }

  lemma FeedOneRaises(d: Driver, round: Round, input: Input, outputs: seq<DriverOutput>)
    requires KeepsRound(input)
    ensures var r := FeedOne(d, round, input, outputs); r.result.Ok? ==> Raised(d, r.driver)
  {
    if GetProposer(d).Ok? {
      ApplyInputRaises(d, round, input);
      var (d1, result) := ApplyInput(d, round, input);
      if result.Ok? && result.value.Some? {
        LiftKeepsState(d1, result.value.value);
      }
    }
  }

  lemma {:induction false} FeedAllRaises(d: Driver, batch: seq<(Round, Input)>, outputs: seq<DriverOutput>)
    requires PendingOk(batch)
    ensures var r := FeedAll(d, batch, outputs);
            r.result.Ok? ==>
              && r.driver.roundState.step.Rank() >= d.roundState.step.Rank()
              && (|| r.driver.pending == d.pending
                  || (PendingOk(r.driver.pending)
                      && r.driver.roundState.step.Rank() > d.roundState.step.Rank()))
    decreases |batch|
  {
    if batch != [] {
      var first := FeedOne(d, batch[0].0, batch[0].1, outputs);
      FeedOneRaises(d, batch[0].0, batch[0].1, outputs);
      if first.result.Ok? {
        FeedAllRaises(first.driver, batch[1..], first.result.value);
      }
    }
  }

  /** How often the outer loop of `process` may still go round. */
  function StepsLeft(d: Driver): nat {
    if d.pending == [] then 0 else 5 - d.roundState.step.Rank()
  }

  /** The outer loop of `process`: it ends because each further pass starts from a higher step. */
  function Drain(d: Driver, outputs: seq<DriverOutput>): Processed
    requires PendingOk(d.pending)
    decreases StepsLeft(d)
  {
    if d.pending == [] then Processed(d, Ok(outputs), [])
    else
      var pass := FeedAll(d.(pending := []), d.pending, outputs);
      FeedAllRaises(d.(pending := []), d.pending, outputs);
      if pass.result.Err? then pass
      else
        var rest := Drain(pass.driver, pass.result.value);
        rest.(fed := pass.fed + rest.fed)
  }

  /** One pass of the outer loop. */
  lemma DrainStep(d: Driver, outputs: seq<DriverOutput>)
    requires PendingOk(d.pending) && d.pending != []
    ensures var pass := FeedAll(d.(pending := []), d.pending, outputs);
            && (pass.result.Err? ==> Drain(d, outputs) == pass)
            && (pass.result.Ok? ==>
                  && PendingOk(pass.driver.pending) && StepsLeft(pass.driver) < StepsLeft(d)
                  && Drain(d, outputs).driver == Drain(pass.driver, pass.result.value).driver
                  && Drain(d, outputs).result == Drain(pass.driver, pass.result.value).result)
  {
    FeedAllRaises(d.(pending := []), d.pending, outputs);
  }

  /** Storing a message leaves alone what only the loop and the outputs change. */
  lemma DispatchFrame(d: Driver, input: DriverInput)
    ensures var d' := Dispatch(d, input).0;
            && d'.pending == d.pending
            && d'.address == d.address
            && d'.lastPrevote == d.lastPrevote && d'.lastPrecommit == d.lastPrecommit
            && d'.votes.validators == d.votes.validators && d'.votes.params == d.votes.params
            && (!input.StartRound? ==> d'.roundState == d.roundState && d'.proposer == d.proposer)
  {
  }

  /** The state machine input chosen for a message, then everything that becomes pending. */
  function FeedAndDrain(d: Driver, round: Round, input: Input): Processed
    requires d.pending == []
  {
    FeedOnePending(d, round, input);
    var first := FeedOne(d, round, input, []);
    if first.result.Err? || ApplyInput(d, round, input).1 == Ok(None) then first
    else
      var rest := Drain(first.driver, first.result.value);
      rest.(fed := first.fed + rest.fed)
  }

  /** `process` */
  function Process(d: Driver, input: DriverInput): Processed
    requires d.pending == []
  {
    DispatchFrame(d, input);
    var (d1, choice) := Dispatch(d, input);
    match choice
    case Err(e) => Processed(d1, Err(e), [])
    case Ok(None) => Processed(d1, Ok([]), [])
    case Ok(Some(chosen)) => FeedAndDrain(d1, chosen.0, chosen.1)
  }

  /** `Process` in terms of `ApplyMessage`, as the source writes it. */
  lemma ProcessFromMessage(d: Driver, input: DriverInput)
    requires d.pending == []
    ensures var (d1, result) := ApplyMessage(d, input);
            var r := Process(d, input);
            match result
            case Err(e) => r.driver == d1 && r.result == Err(e)
            case Ok(None) => r.driver == d1 && r.result == Ok([])
            case Ok(Some(output)) =>
              var (d2, lifted) := Lift(d1, output);
              && PendingOk(d2.pending)
              && r.driver == Drain(d2, lifted).driver
              && r.result == Drain(d2, lifted).result
  {
    DispatchFrame(d, input);
    var (d1, choice) := Dispatch(d, input);
    if choice.Ok? && choice.value.Some? {
      FeedFromInput(d1, choice.value.value.0, choice.value.value.1);
    }
  }

  lemma FeedFromInput(d: Driver, round: Round, input: Input)
    requires d.pending == []
    ensures var (d1, result) := ApplyInput(d, round, input);
            var r := FeedAndDrain(d, round, input);
            match result
            case Err(e) => r.driver == d1 && r.result == Err(e)
            case Ok(None) => r.driver == d1 && r.result == Ok([])
            case Ok(Some(output)) =>
              var (d2, lifted) := Lift(d1, output);
              && PendingOk(d2.pending)
              && r.driver == Drain(d2, lifted).driver
              && r.result == Drain(d2, lifted).result
  {
    FeedOnePending(d, round, input);
    var (d1, result) := ApplyInput(d, round, input);
    if result.Ok? && result.value.Some? {
      var lifted := Lift(d1, result.value.value).1;
      assert [] + lifted == lifted;
    }
  }

  lemma FeedOnePending(d: Driver, round: Round, input: Input)
    requires d.pending == []
    ensures PendingOk(FeedOne(d, round, input, []).driver.pending)
    ensures FeedOne(d, round, input, []).result.Err? || ApplyInput(d, round, input).1 == Ok(None) ==>
              FeedOne(d, round, input, []).driver.pending == []
  {
    if GetProposer(d).Ok? {
      var info := Info(round, d.address, GetProposer(d).value);
      StepChangeHasOutput(d.roundState, info, input);
      StepInputsStay(d.(roundState := Apply(d.roundState, info, input).next), round);
    }
  }
}
