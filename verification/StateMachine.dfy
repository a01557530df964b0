/**
  The round state machine: Tendermint's rules for proposing, voting, locking and
  deciding, as one function from a state and an input to a transition.
*/
module StateMachine {
  import opened Types

  datatype RoundValue = RoundValue(value: Value, round: Round)

  datatype Step = Unstarted | Proposing | Prevoting | Precommitting | Committed {
    /** Position in the order of the steps of a round. */
    function Rank(): nat {
      match this
      case Unstarted => 0
      case Proposing => 1
      case Prevoting => 2
      case Precommitting => 3
      case Committed => 4
    }
  }

  datatype State = State(
    height: Height,
    round: Round,
    step: Step,
    locked: Option<RoundValue>,
    valid: Option<RoundValue>,
    decision: Option<RoundValue>)

  function NewState(height: Height, round: Round): State {
    State(height, round, Unstarted, None, None, None)
  }

  datatype Input =
    | NoInput
    | NewRound(newRound: Round)
    | ProposeValue(newValue: Value)
    | ProposalInput(proposal: Proposal)
    | InvalidProposal
    | ProposalAndPolkaPrevious(proposal: Proposal)
    | InvalidProposalAndPolkaPrevious(proposal: Proposal)
    | PolkaAny
    | PolkaNil
    | ProposalAndPolkaCurrent(proposal: Proposal)
    | PrecommitAny
    | ProposalAndPrecommitValue(proposal: Proposal)
    | SkipRound(skipTo: Round)
    | TimeoutPropose
    | TimeoutPrevote
    | TimeoutPrecommit

  datatype Output =
    | NewRoundOutput(round: Round)
    | ProposalOutput(proposal: Proposal)
    | VoteOutput(vote: Vote)
    | ScheduleTimeout(timeout: Timeout)
    | GetValueAndScheduleTimeout(height: Height, round: Round, timeout: Timeout)
    | Decision(round: Round, proposal: Proposal)

  /** The round the input is for, our address, and the proposer of the current round. */
  datatype Info = Info(inputRound: Round, address: Address, proposer: Address) {
    predicate IsProposer() {
      address == proposer
    }
  }

  datatype Transition = Transition(next: State, output: Option<Output>, valid: bool)

  function To(s: State): Transition {
    Transition(s, None, true)
  }

  function ToWith(s: State, output: Output): Transition {
    Transition(s, Some(output), true)
  }

  function InvalidTransition(s: State): Transition {
    Transition(s, None, false)
  }

  predicate IsValidPolRound(s: State, polRound: Round) {
    polRound != NIL_ROUND && polRound < s.round
  }

  /** `apply` */
  function Apply(s: State, info: Info, input: Input): (t: Transition)
    ensures t.next.height == s.height
    ensures t.output.Some? && t.output.value.VoteOutput? ==> t.output.value.vote.height == s.height
  {
    var thisRound := s.round == info.inputRound;
    if s.step == Unstarted && input.NewRound? then
      var s' := s.(round := input.newRound);
      if info.IsProposer() then ProposeValidOrGetValue(s', info.address)
      else ScheduleTimeoutPropose(s')
    else if s.step == Proposing && input.ProposeValue? && thisRound then
      ProposeNewValue(s, input.newValue, info.address)
    else if s.step == Proposing && input.ProposalInput? && thisRound && input.proposal.polRound == NIL_ROUND then
      PrevoteProposal(s, info.address, input.proposal)
    else if s.step == Proposing && input.InvalidProposal? && thisRound then
      PrevoteNil(s, info.address)
    else if s.step == Proposing && input.ProposalAndPolkaPrevious? && thisRound
            && IsValidPolRound(s, input.proposal.polRound) then
      PrevotePrevious(s, info.address, input.proposal)
    else if s.step == Proposing && input.InvalidProposalAndPolkaPrevious? && thisRound
            && IsValidPolRound(s, input.proposal.polRound) then
      PrevoteNil(s, info.address)
    else if s.step == Proposing && input.TimeoutPropose? && thisRound then
      PrevoteNil(s, info.address)
    else if s.step == Prevoting && input.PolkaAny? && thisRound then
      ToWith(s, ScheduleTimeout(Timeout(s.round, PrevoteKind)))
    else if s.step == Prevoting && input.PolkaNil? && thisRound then
      PrecommitNil(s, info.address)
    else if s.step == Prevoting && input.ProposalAndPolkaCurrent? && thisRound then
      PrecommitProposal(s, info.address, input.proposal)
    else if s.step == Prevoting && input.TimeoutPrevote? && thisRound then
      PrecommitNil(s, info.address)
    else if s.step == Precommitting && input.ProposalAndPolkaCurrent? && thisRound then
      SetValidValue(s, input.proposal)
    else if s.step == Committed then
      InvalidTransition(s)
    else if input.PrecommitAny? && thisRound then
      ToWith(s, ScheduleTimeout(Timeout(s.round, PrecommitKind)))
    else if input.TimeoutPrecommit? && thisRound then
      RoundSkip(s, info.inputRound + 1)
    else if input.SkipRound? && s.round < input.skipTo then
      RoundSkip(s, input.skipTo)
    else if input.ProposalAndPrecommitValue? then
      CommitProposal(s, s.round, input.proposal)
    else
      InvalidTransition(s)
  }

  /** `propose_valid_or_get_value` */
  function ProposeValidOrGetValue(s: State, address: Address): Transition {
    match s.valid
    case Some(rv) =>
      ToWith(s.(step := Proposing), ProposalOutput(Proposal(s.height, s.round, rv.value, rv.round, address)))
    case None =>
      ToWith(s.(step := Proposing),
             GetValueAndScheduleTimeout(s.height, s.round, Timeout(s.round, ProposeKind)))
  }

  /** `propose` */
  function ProposeNewValue(s: State, value: Value, address: Address): Transition {
    ToWith(s.(step := Proposing), ProposalOutput(Proposal(s.height, s.round, value, NIL_ROUND, address)))
  }

  /** `prevote` */
  function PrevoteProposal(s: State, address: Address, p: Proposal): Transition
    requires p.polRound == NIL_ROUND
  {
    var value := match s.locked
      case Some(locked) => if locked.value.id == p.value.id then Val(p.value.id) else Nil
      case None => Val(p.value.id);
    ToWith(s.(step := Prevoting), VoteOutput(Vote(VoteType.Prevote, s.height, s.round, value, address)))
  }

  /** `prevote_previous`. Its second assertion, `vr < proposal.round()`, is shown of the driver's inputs. */
  function PrevotePrevious(s: State, address: Address, p: Proposal): Transition
    requires 0 <= p.polRound
  {
    var value := match s.locked
      case Some(locked) =>
        if locked.round <= p.polRound then Val(p.value.id)
        else if locked.value.id == p.value.id then Val(p.value.id)
        else Nil
      case None => Val(p.value.id);
    ToWith(s.(step := Prevoting), VoteOutput(Vote(VoteType.Prevote, s.height, s.round, value, address)))
  }

  /** `prevote_nil` */
  function PrevoteNil(s: State, address: Address): Transition {
    ToWith(s.(step := Prevoting), VoteOutput(Vote(VoteType.Prevote, s.height, s.round, Nil, address)))
  }

  /** `precommit` */
  function PrecommitProposal(s: State, address: Address, p: Proposal): Transition {
    if s.step != Prevoting then To(s)
    else
      ToWith(s.(locked := Some(RoundValue(p.value, s.round)),
                valid := Some(RoundValue(p.value, s.round)),
                step := Precommitting),
             VoteOutput(Vote(VoteType.Precommit, s.height, s.round, Val(p.value.id), address)))
  }

  /** `precommit_nil` */
  function PrecommitNil(s: State, address: Address): Transition {
    ToWith(s.(step := Precommitting), VoteOutput(Vote(VoteType.Precommit, s.height, s.round, Nil, address)))
  }

  /** `schedule_timeout_propose` */
  function ScheduleTimeoutPropose(s: State): Transition {
    ToWith(s.(step := Proposing), ScheduleTimeout(Timeout(s.round, ProposeKind)))
  }

  /** `set_valid_value` */
  function SetValidValue(s: State, p: Proposal): Transition {
    To(s.(valid := Some(RoundValue(p.value, s.round))))
  }

  /** `round_skip` */
  function RoundSkip(s: State, round: Round): Transition {
    ToWith(s.(round := round, step := Unstarted), NewRoundOutput(round))
  }

  /** `commit` */
  function CommitProposal(s: State, round: Round, p: Proposal): Transition {
    match s.decision
    case Some(decision) => if decision.value.id == p.value.id then To(s) else InvalidTransition(s)
    case None =>
      ToWith(s.(decision := Some(RoundValue(p.value, p.round)), step := Committed), Decision(round, p))
  }

  /** The lock is never newer than the valid value, which is of this round only once we have precommitted. */
  predicate LockDiscipline(s: State) {
    && (s.locked.Some? ==> s.valid.Some? && s.locked.value.round <= s.valid.value.round)
    && (s.valid.Some? ==>
          && s.valid.value.round <= s.round
          && (s.valid.value.round == s.round ==> s.step.Rank() >= Precommitting.Rank()))
    && (s.decision.Some? ==> s.step == Committed)
  }

  /** Every input except a round start that goes back keeps the lock discipline. */
  lemma ApplyKeepsLockDiscipline(s: State, info: Info, input: Input)
    requires LockDiscipline(s)
    requires input.NewRound? ==> input.newRound >= s.round
    ensures LockDiscipline(Apply(s, info, input).next)
  {
  }

  // ---- Which transitions yield an output ------------------------------------

  /** The proposal an input puts to the vote. */
  function PutToVote(s: State, input: Input): Option<Proposal> {
    match input
    case ProposalInput(p) => if p.polRound == NIL_ROUND then Some(p) else None
    case ProposalAndPolkaPrevious(p) => if IsValidPolRound(s, p.polRound) then Some(p) else None
    case _ => None
  }

  /** Unlocked, locked on that value, or locked no later than the round of the proposal's polka. */
  predicate MayPrevote(locked: Option<RoundValue>, p: Proposal) {
    || locked.None?
    || locked.value.value.id == p.value.id
    || (p.polRound != NIL_ROUND && locked.value.round <= p.polRound)
  }

  /** The reasons to prevote or precommit nil or a value. */
  predicate YieldsVote(s: State, info: Info, input: Input, v: Vote) {
    && s.round == info.inputRound == v.round && v.height == s.height && v.address == info.address
    && match v.voteType
       case Prevote =>
         && s.step == Proposing
         && var p := PutToVote(s, input);
            if p.Some? then v.value == if MayPrevote(s.locked, p.value) then Val(p.value.value.id) else Nil
            else
              && v.value == Nil
              && (|| input.InvalidProposal? || input.TimeoutPropose?
                  || (input.InvalidProposalAndPolkaPrevious? && IsValidPolRound(s, input.proposal.polRound)))
       case Precommit =>
         && s.step == Prevoting
         && if input.ProposalAndPolkaCurrent? then v.value == Val(input.proposal.value.id)
            else v.value == Nil && (input.PolkaNil? || input.TimeoutPrevote?)
  }

  /** The reasons for a timeout of each kind. */
  predicate YieldsTimeout(s: State, info: Info, input: Input, t: Timeout) {
    match t.kind
    case ProposeKind => s.step == Unstarted && input == NewRound(t.round) && !info.IsProposer()
    case PrevoteKind => s.step == Prevoting && input.PolkaAny? && s.round == info.inputRound == t.round
    case PrecommitKind => s.step != Committed && input.PrecommitAny? && s.round == info.inputRound == t.round
    case RebroadcastKind => false
  }

  /** A valid value is proposed again with the round it became valid in; a new value without one. */
  predicate YieldsProposal(s: State, info: Info, input: Input, p: Proposal) {
    && p.height == s.height && p.address == info.address
    && if s.step == Unstarted then
         && info.IsProposer() && input == NewRound(p.round)
         && s.valid == Some(RoundValue(p.value, p.polRound))
       else
         && s.step == Proposing && input == ProposeValue(p.value) && s.round == info.inputRound == p.round
         && p.polRound == NIL_ROUND
  }

  predicate Yields(s: State, info: Info, input: Input, output: Output) {
    match output
    case VoteOutput(v) => YieldsVote(s, info, input, v)
    case ScheduleTimeout(t) => YieldsTimeout(s, info, input, t)
    case ProposalOutput(p) => YieldsProposal(s, info, input, p)
    case GetValueAndScheduleTimeout(height, round, t) =>
      && s.step == Unstarted && input == NewRound(round) && info.IsProposer() && s.valid.None?
      && height == s.height && t == Timeout(round, ProposeKind)
    case NewRoundOutput(r) =>
      && s.step != Committed
      && (|| (input.TimeoutPrecommit? && s.round == info.inputRound && r == s.round + 1)
          || (input == SkipRound(r) && s.round < r))
    case Decision(round, p) =>
      s.step != Committed && s.decision.None? && input == ProposalAndPrecommitValue(p) && round == s.round
  }

  /** Each output is given by exactly the states and inputs that the rules name for it. */
  lemma OutputIff(s: State, info: Info, input: Input, output: Output)
    ensures Apply(s, info, input).output == Some(output) <==> Yields(s, info, input, output)
  {
  }

  /** The valid value changes only with a polka of the round for a proposal, and is then of that round. */
  lemma ValidChangesByPolka(s: State, info: Info, input: Input)
    ensures Apply(s, info, input).next.valid ==
              if input.ProposalAndPolkaCurrent? && s.round == info.inputRound
                 && (s.step == Prevoting || s.step == Precommitting)
              then Some(RoundValue(input.proposal.value, s.round)) else s.valid
  {
  }

  /** What a vote output says about the transition it came from. */
  lemma VoteComesFromStep(s: State, info: Info, input: Input)
    requires Apply(s, info, input).output.Some? && Apply(s, info, input).output.value.VoteOutput?
    ensures var t := Apply(s, info, input);
            var v := t.output.value.vote;
            && info.inputRound == s.round == t.next.round == v.round
            && t.next.height == s.height == v.height
            && v.address == info.address
            && (v.voteType == VoteType.Prevote ==> s.step == Proposing && t.next.step == Prevoting)
            && (v.voteType == VoteType.Precommit ==> s.step == Prevoting && t.next.step == Precommitting)
  {
  }

  /** A change of step always carries an output, and only skipping the round lowers the step. */
  lemma StepChangeHasOutput(s: State, info: Info, input: Input)
    ensures var t := Apply(s, info, input);
            && (t.next.step != s.step ==> t.output.Some?)
            && (t.next.step.Rank() < s.step.Rank() ==> input.TimeoutPrecommit? || input.SkipRound?)
            && (t.next.round != s.round ==> input.TimeoutPrecommit? || input.SkipRound? || input.NewRound?)
            && t.next.height == s.height
  {
  }

  /** The lock changes only by the precommit rule L36, which casts a precommit for the new lock. */
  lemma LockChangesByPrecommit(s: State, info: Info, input: Input)
    ensures var t := Apply(s, info, input);
            if s.step == Prevoting && input.ProposalAndPolkaCurrent? && s.round == info.inputRound then
              && t.next.locked == Some(RoundValue(input.proposal.value, s.round))
              && t.output == Some(VoteOutput(
                   Vote(VoteType.Precommit, s.height, s.round, Val(input.proposal.value.id), info.address)))
            else
              && t.next.locked == s.locked
              && (t.output.Some? && t.output.value.VoteOutput? && t.output.value.vote.value.Val? ==>
                    t.output.value.vote.voteType == VoteType.Prevote)
  {
  }

  /** A new decision is for the proposal of a commit input, and an old one is kept. */
  lemma DecisionHasInput(s: State, info: Info, input: Input)
    ensures var t := Apply(s, info, input);
            || t.next.decision == s.decision
            || (input.ProposalAndPrecommitValue?
                && t.next.decision == Some(RoundValue(input.proposal.value, input.proposal.round)))
  {
  }

  /** Where the next round and a precommit timeout can come from. */
  lemma RoundChangesByInput(s: State, info: Info, input: Input)
    ensures var t := Apply(s, info, input);
            && (|| t.next.round == s.round
                || (input.NewRound? && t.next.round == input.newRound)
                || (input.TimeoutPrecommit? && s.round == info.inputRound && t.next.round == info.inputRound + 1)
                || (input.SkipRound? && t.next.round == input.skipTo))
            && (t.output.Some? && t.output.value.ScheduleTimeout? && t.output.value.timeout.kind == PrecommitKind ==>
                  input.PrecommitAny? && t.output.value.timeout.round == info.inputRound)
            && (t.output.Some? && t.output.value.GetValueAndScheduleTimeout? ==>
                  t.output.value.timeout.kind == ProposeKind)
  {
  }

  /** A decision, once taken, stays: the commit step has no way out. */
  lemma DecisionIsFinal(s: State, info: Info, input: Input)
    requires s.decision.Some? ==> s.step == Committed
    ensures var s' := Apply(s, info, input).next; s'.decision.Some? ==> s'.step == Committed
    ensures s.decision.Some? ==> Apply(s, info, input).next == s && Apply(s, info, input).output == None
    ensures var t := Apply(s, info, input);
            t.output.Some? && t.output.value.Decision? ==>
              && input.ProposalAndPrecommitValue?
              && t.output.value.proposal == input.proposal
              && s.decision == None
              && t.next.decision == Some(RoundValue(input.proposal.value, input.proposal.round))
  {
  }
}
