/**
  How the driver answers single messages: when a polka, a commit quorum or a nil polka that a message
  completes is acted upon, and what a round start does to a driver that is in a round.
*/
module DriverAnswers {
  import opened Types
  import opened Quorum
  import opened StateMachine
  import opened Certificates
  import opened DriverModel
  import opened DriverRuns
  import opened DriverBacking
  import opened DriverOutputs
  import opened DriverSettling
  import opened DriverCompleteness
  import VK = VoteKeeping
  import VKR = VoteKeepingRuns

  // ---- Round starts ---------------------------------------------------------

  function Renumbered(d: Driver, round: Round, proposer: Address): Driver {
    d.(roundState := d.roundState.(round := round), proposer := Some(proposer))
  }

  /**
    A round start of a driver that is in a round only renumbers it: nothing is output, and what is
    stored for the new round is not looked at. So proposals of that round are missed if and only if
    they would be by a driver that had been in it.
  */
  lemma StartInRoundRenumbers(d: Driver, round: Round, proposer: Address)
    requires d.pending == [] && d.roundState.step != Unstarted && proposer in Members(d.votes.validators)
    ensures var r := Process(d, StartRound(d.roundState.height, round, proposer));
            r.driver == Renumbered(d, round, proposer) && r.result == Ok([])
  {
    PlainCall(d, StartRound(d.roundState.height, round, proposer), round, NewRound(round));
  }

  // ---- Polkas ---------------------------------------------------------------

  /**
    A polka of an earlier round that a message makes known ends the propose step if and only if the
    first stored proposal of the round for its value names that round, and is valid if the message is
    a certificate. Another proposal for the value does not help.
  */
  lemma PolkaIsUsedIff(d: Driver, input: DriverInput, q: Round, id: ValueId)
    requires d.pending == [] && ProposerKnown(d, Call(input)) && Filed(d) && VKR.LedgerOk(d.votes)
    requires d.roundState.step == Proposing && NIL_ROUND < q < d.roundState.round
    requires (input.ReceiveVote? || input.ReceivePolka?) && !PolkaKnown(d, q, id)
             && PolkaKnown(Dispatch(d, input).0, q, id)
    ensures var first := ProposalFor(d, d.roundState.round, id);
            Process(d, input).driver.roundState.step != Proposing <==>
              first.Some? && first.value.0.message.polRound == q && (input.ReceivePolka? ==> first.value.1 == Valid)
  {
    PolkaChoiceLeads(d, input, q, id);
    LeavesStepIff(d, input);
  }

  lemma PolkaChoiceLeads(d: Driver, input: DriverInput, q: Round, id: ValueId)
    requires Filed(d) && VKR.LedgerOk(d.votes) && d.roundState.step == Proposing && NIL_ROUND < q < d.roundState.round
    requires (input.ReceiveVote? || input.ReceivePolka?) && !PolkaKnown(d, q, id)
             && PolkaKnown(Dispatch(d, input).0, q, id)
    ensures var (d1, choice) := Dispatch(d, input);
            var first := ProposalFor(d, d.roundState.round, id);
            && choice.Ok? && (choice.value.Some? ==> StaysInRound(choice.value.value.1))
            && d1.roundState == d.roundState
            && (choice.value.Some? && !Idle(d.roundState, choice.value.value) <==>
                  first.Some? && first.value.0.message.polRound == q
                    && (input.ReceivePolka? ==> first.value.1 == Valid))
  {
    PolkaChoice(d, input, q, id);
    PolkaAnyIsIdle(d.roundState, q);
    var first := ProposalFor(d, d.roundState.round, id);
    if first.Some? && first.value.0.message.polRound == q {
      PolkaPreviousLeads(d.roundState, first.value.0.message);
    }
  }

  lemma PolkaAnyIsIdle(s: State, q: Round)
    requires s.step == Proposing
    ensures Idle(s, (q, PolkaAny))
  {
  }

  lemma PolkaPreviousLeads(s: State, p: Proposal)
    requires s.step == Proposing
    ensures IsValidPolRound(s, p.polRound) ==>
              !Idle(s, (s.round, ProposalAndPolkaPrevious(p)))
                && !Idle(s, (s.round, InvalidProposalAndPolkaPrevious(p)))
  {
  }

  /** A call leaves the step it finds if and only if the input chosen for its message does. */
  lemma LeavesStepIff(d: Driver, input: DriverInput)
    requires d.pending == [] && ProposerKnown(d, Call(input))
    requires var (d1, choice) := Dispatch(d, input);
             choice.Ok? && (choice.value.Some? ==> StaysInRound(choice.value.value.1))
    ensures var (d1, choice) := Dispatch(d, input);
            Process(d, input).driver.roundState.step != d1.roundState.step <==>
              choice.value.Some? && !Idle(d1.roundState, choice.value.value)
  {
    var (d1, choice) := Dispatch(d, input);
    ProcessIsChain(d, input);
    if choice.value.Some? {
      var (round, i) := choice.value.value;
      var info := Info(round, d1.address, GetProposer(d1).value);
      StepAfterIs(d1.roundState, info, i);
      RankRises(d1.roundState, info, i);
      if Advances(d1, round, i) {
        StepsRise(d, input);
      } else {
        PlainUnlessAdvances(d, input);
      }
    }
  }

  /** The input chosen for such a message. */
  lemma PolkaChoice(d: Driver, input: DriverInput, q: Round, id: ValueId)
    requires Filed(d) && VKR.LedgerOk(d.votes) && NIL_ROUND < q < d.roundState.round
    requires (input.ReceiveVote? || input.ReceivePolka?) && !PolkaKnown(d, q, id)
             && PolkaKnown(Dispatch(d, input).0, q, id)
    ensures var (d1, choice) := Dispatch(d, input);
            var first := ProposalFor(d, d.roundState.round, id);
            && d1.roundState == d.roundState && choice.Ok?
            && if first.Some? && first.value.0.message.polRound == q
              && (input.ReceivePolka? ==> first.value.1 == Valid) then
                 && choice.value.Some?
                 && choice.value.value.0 == d.roundState.round
                 && (|| choice.value.value.1 == ProposalAndPolkaPrevious(first.value.0.message)
                     || choice.value.value.1 == InvalidProposalAndPolkaPrevious(first.value.0.message))
               else choice.value.Some? ==> choice.value.value == (q, PolkaAny)
  {
    match input
    case ReceivePolka(c) =>
      KnownByCertificate(d, c, q, id);
      assert ProposalFor(StorePolkaCertificate(d, c), d.roundState.round, id) == ProposalFor(d, d.roundState.round, id);
    case ReceiveVote(sv) =>
      KnownByVote(d, sv, q, id);
      var d1 := Dispatch(d, input).0;
      MeetsIff(d, q, id);
      MeetsIff(d1, q, id);
      NewQuorum(d, sv, q, VK.PolkaValue(id));
      assert ProposalFor(d1, d.roundState.round, id) == ProposalFor(d, d.roundState.round, id);
  }

  /** After the first input the step does not fall. */
  lemma StepsRise(d: Driver, input: DriverInput)
    requires d.pending == []
    requires var (d1, choice) := Dispatch(d, input);
             choice.Ok? && choice.value.Some? && GetProposer(d1).Ok? && StaysInRound(choice.value.value.1)
    ensures var (d1, choice) := Dispatch(d, input);
            Process(d, input).driver.roundState.step.Rank() >= StepAfter(d1.roundState, choice.value.value).Rank()
  {
    var (d1, choice) := Dispatch(d, input);
    var (round, i) := choice.value.value;
    DispatchFrame(d, input);
    FeedOneFacts(d1, round, i, []);
    FeedOnePending(d1, round, i);
    StepAfterIs(d1.roundState, Info(round, d1.address, GetProposer(d1).value), i);
    var first := FeedOne(d1, round, i, []);
    if ApplyInput(d1, round, i).1 != Ok(None) {
      DrainRises(first.driver, first.result.value);
    }
  }

  lemma {:induction false} DrainRises(d: Driver, outputs: seq<DriverOutput>)
    requires GetProposer(d).Ok? && PendingOk(d.pending)
    ensures Drain(d, outputs).driver.roundState.step.Rank() >= d.roundState.step.Rank()
    decreases StepsLeft(d)
  {
    if d.pending != [] {
      DrainStep(d, outputs);
      FeedAllRaises(d.(pending := []), d.pending, outputs);
      FeedAllIsChain(d.(pending := []), d.pending, outputs);
      var pass := FeedAll(d.(pending := []), d.pending, outputs);
      DrainRises(pass.driver, pass.result.value);
    }
  }

  // ---- Commits --------------------------------------------------------------

  lemma {:induction false} DecidedChainStays(d: Driver, outputs: seq<DriverOutput>, fed: seq<Fed>, d': Driver,
                                             outputs': seq<DriverOutput>)
    requires Chain(d, outputs, fed, d', outputs') && d.roundState.decision.Some? && d.roundState.step == Committed
    ensures d'.roundState == d.roundState
    decreases |fed|
  {
    if fed != [] {
      var f, first := FirstStep(d, outputs, fed, d', outputs');
      FeedOneFacts(f.driver, f.round, f.input, outputs);
      DecisionIsFinal(f.driver.roundState, Info(f.round, f.driver.address, GetProposer(f.driver).value), f.input);
      DecidedChainStays(first.driver, first.result.value, fed[1..], d', outputs');
    }
  }

  predicate Undecided(d: Driver) {
    d.roundState.decision.None? && d.roundState.step != Committed
  }

  /** The output of the first input of a call is among its outputs. */
  lemma FirstOutput(d: Driver, input: DriverInput, o: DriverOutput)
    requires d.pending == [] && ProposerKnown(d, Call(input))
    requires var (d1, choice) := Dispatch(d, input);
             && choice.Ok? && choice.value.Some?
             && o in OutputsOf(Fed(d1, choice.value.value.0, choice.value.value.1))
    ensures o in Outputs(d, Call(input))
  {
    ProcessIsChain(d, input);
    CallOutputs(d, input, o);
    assert Process(d, input).fed[0] in Process(d, input).fed;
  }

  lemma CommitChainDecides(d: Driver, fed: seq<Fed>, d': Driver, outputs: seq<DriverOutput>, round: Round, p: Proposal)
    requires Chain(d, [], fed, d', outputs) && Undecided(d)
    requires fed != [] && fed[0] == Fed(d, round, ProposalAndPrecommitValue(p))
    ensures d'.roundState.decision == Some(RoundValue(p.value, p.round))
  {
    var f, first := FirstStep(d, [], fed, d', outputs);
    FeedOneFacts(f.driver, f.round, f.input, []);
    DecidedChainStays(first.driver, first.result.value, fed[1..], d', outputs);
  }

  lemma CommitOutput(d: Driver, round: Round, p: Proposal)
    requires Undecided(d) && GetProposer(d).Ok?
    ensures Decide(d.roundState.round, p) in OutputsOf(Fed(d, round, ProposalAndPrecommitValue(p)))
  {
    assert OutputsOf(Fed(d, round, ProposalAndPrecommitValue(p)))[0] == Decide(d.roundState.round, p);
  }

  /** The commit input of an undecided driver decides. */
  lemma CommitInputDecides(d: Driver, input: DriverInput, round: Round, p: Proposal)
    requires d.pending == [] && ProposerKnown(d, Call(input))
    requires Dispatch(d, input).1 == Ok(Some((round, ProposalAndPrecommitValue(p)))) && Undecided(Dispatch(d, input).0)
    ensures Process(d, input).driver.roundState.decision == Some(RoundValue(p.value, p.round))
    ensures Decide(Dispatch(d, input).0.roundState.round, p) in Outputs(d, Call(input))
  {
    var d1, r := Dispatch(d, input).0, Process(d, input);
    ProcessIsChain(d, input);
    CommitChainDecides(d1, r.fed, r.driver, r.result.value, round, p);
    CommitOutput(d1, round, p);
    FirstOutput(d, input, Decide(d1.roundState.round, p));
  }

  /** The message is a vote of a later round with which more than the honest threshold has voted in that round. */
  predicate SkipsAhead(d: Driver, input: DriverInput) {
    && input.ReceiveVote? && input.signedVote.vote.round > d.roundState.round
    && VK.SkipMet(Dispatch(d, input).0.votes, VK.TallyAt(Dispatch(d, input).0.votes, input.signedVote.vote.round))
  }

  /** The input chosen for a message that makes a commit quorum known for a stored valid proposal. */
  lemma CommitChoice(d: Driver, input: DriverInput, q: Round, id: ValueId)
    requires VKR.LedgerOk(d.votes) && FirstValid(d, q, id)
    requires (input.ReceiveVote? || input.ReceiveCommit?) && !CommitKnown(d, q, id)
             && CommitKnown(Dispatch(d, input).0, q, id)
    ensures var (d1, choice) := Dispatch(d, input);
            && d1.roundState == d.roundState
            && choice == Ok(Some(if SkipsAhead(d, input) then (q, SkipRound(q))
                                 else (q, ProposalAndPrecommitValue(FirstFor(d, q, id)))))
            && (SkipsAhead(d, input) ==> q > d.roundState.round)
  {
    var d1 := Dispatch(d, input).0;
    match input
    case ReceiveCommit(c) => assert ProposalFor(d1, q, id) == ProposalFor(d, q, id);
    case ReceiveVote(sv) =>
      KnownByVote(d, sv, q, id);
      MeetsIff(d, q, id);
      MeetsIff(d1, q, id);
      assert HasCommitCertificate(d1, q, id) == HasCommitCertificate(d, q, id);
      VKR.QuorumNeedsVote(d.votes, sv, d.roundState.round, q, Precommit, Val(id));
      VKR.RecordReports(d.votes, sv, d.roundState.round, VK.SkipRound(q));
      if !SkipsAhead(d, input) {
        VKR.NewQuorumIsReported(d.votes, sv, d.roundState.round, q, VK.PrecommitValue(id));
      }
      assert ProposalFor(d1, q, id) == ProposalFor(d, q, id);
  }

  lemma SkipLeavesUndecided(d: Driver, input: DriverInput, q: Round)
    requires d.pending == [] && ProposerKnown(d, Call(input))
    requires var (d1, choice) := Dispatch(d, input);
             Undecided(d1) && choice == Ok(Some((q, SkipRound(q)))) && q > d1.roundState.round
    ensures Process(d, input).driver.roundState.decision.None?
  {
    PlainUnlessAdvances(d, input);
  }

  /**
    A commit quorum for a stored valid proposal that a vote or a certificate makes known is decided at
    once, if and only if the vote does not make the driver skip to its round.
  */
  lemma CommitIsUsedIff(d: Driver, input: DriverInput, q: Round, id: ValueId)
    requires d.pending == [] && ProposerKnown(d, Call(input)) && Filed(d) && VKR.LedgerOk(d.votes) && Undecided(d)
    requires FirstValid(d, q, id) && (input.ReceiveVote? || input.ReceiveCommit?) && !CommitKnown(d, q, id)
             && CommitKnown(Dispatch(d, input).0, q, id)
    ensures Process(d, input).driver.roundState.decision ==
              if SkipsAhead(d, input) then None else Some(RoundValue(FirstFor(d, q, id).value, q))
  {
    CommitChoice(d, input, q, id);
    if SkipsAhead(d, input) {
      SkipLeavesUndecided(d, input, q);
    } else {
      assert ProposalFor(d, q, id).value in ProposalsAt(d, q);
      CommitInputDecides(d, input, q, FirstFor(d, q, id));
    }
  }

  /**
    A valid proposal for which a commit quorum is known is decided when it comes in, unless no
    round was started yet.
  */
  lemma ProposalDecidesIff(d: Driver, sp: SignedProposal)
    requires d.pending == [] && ProposerKnown(d, Call(ReceiveProposal(sp, Valid))) && Undecided(d)
    requires sp.message.height == d.roundState.height && CommitKnown(d, sp.message.round, sp.message.value.id)
    ensures Process(d, ReceiveProposal(sp, Valid)).driver.roundState.decision ==
              if d.roundState.round == NIL_ROUND then None
              else Some(RoundValue(sp.message.value, sp.message.round))
  {
    var p, input := sp.message, ReceiveProposal(sp, Valid);
    var d1 := StoreProposal(d, sp, Valid);
    assert CommitKnown(d1, p.round, p.value.id);
    ProcessIsChain(d, input);
    if d.roundState.round != NIL_ROUND {
      CommitInputDecides(d, input, p.round, p);
    }
  }

  // ---- Reports and timers ---------------------------------------------------

  /** The vote is recorded, and this is reported. */
  predicate Reports(d: Driver, sv: SignedVote, o: VK.VKOutput) {
    && d.roundState.height == sv.vote.height && sv.vote.address in Members(d.votes.validators)
    && VK.Record(d.votes, sv, d.roundState.round).1 == Some(o)
  }

  /**
    A quorum of precommits reported for the round we are in starts the precommit timeout, unless it is
    for a stored valid proposal.
  */
  lemma PrecommitsStartTimer(d: Driver, sv: SignedVote, o: VK.VKOutput)
    requires d.pending == [] && ProposerKnown(d, Call(ReceiveVote(sv))) && d.roundState.step != Committed
    requires Reports(d, sv, o) && sv.vote.round == d.roundState.round
    requires o.PrecommitAny? || (o.PrecommitValue? && !FirstValid(d, sv.vote.round, o.id))
    ensures StartTimeout(Timeout(sv.vote.round, PrecommitKind)) in Outputs(d, Call(ReceiveVote(sv)))
  {
    var r, input := sv.vote.round, ReceiveVote(sv);
    KnownByVote(d, sv, 0, 0);
    var (d1, choice) := Dispatch(d, input);
    if o.PrecommitValue? {
      assert ProposalFor(d1, r, o.id) == ProposalFor(d, r, o.id);
    }
    assert choice == Ok(Some((r, PrecommitAny)));
    FirstOutput(d, input, StartTimeout(Timeout(r, PrecommitKind)));
  }

  /** A quorum of prevotes for no single value, reported in the prevote step, starts the prevote timeout. */
  lemma PrevotesStartTimer(d: Driver, sv: SignedVote)
    requires d.pending == [] && ProposerKnown(d, Call(ReceiveVote(sv))) && d.roundState.step == Prevoting
    requires Reports(d, sv, VK.PolkaAny) && sv.vote.round == d.roundState.round
    ensures StartTimeout(Timeout(sv.vote.round, PrevoteKind)) in Outputs(d, Call(ReceiveVote(sv)))
  {
    var r, input := sv.vote.round, ReceiveVote(sv);
    KnownByVote(d, sv, 0, 0);
    assert Dispatch(d, input).1 == Ok(Some((r, PolkaAny)));
    FirstOutput(d, input, StartTimeout(Timeout(r, PrevoteKind)));
  }

  /** A reported skip moves an undecided driver to the round skipped to, between rounds. */
  lemma SkipMoves(d: Driver, sv: SignedVote)
    requires d.pending == [] && ProposerKnown(d, Call(ReceiveVote(sv))) && d.roundState.step != Committed
    requires Reports(d, sv, VK.SkipRound(sv.vote.round)) && sv.vote.round > d.roundState.round
    ensures var r := Process(d, ReceiveVote(sv));
            && r.driver.roundState == d.roundState.(round := sv.vote.round, step := Unstarted)
            && MoveToRound(d.roundState.height, sv.vote.round) in Outputs(d, Call(ReceiveVote(sv)))
  {
    var r, input := sv.vote.round, ReceiveVote(sv);
    KnownByVote(d, sv, 0, 0);
    assert Dispatch(d, input).1 == Ok(Some((r, SkipRound(r))));
    PlainUnlessAdvances(d, input);
    FirstOutput(d, input, MoveToRound(d.roundState.height, r));
  }

  lemma FeedStartsTimer(f: Fed, s: State, r: Round)
    requires GetProposer(f.driver).Ok? && s.round == r
    ensures IsFeed(f, s, (r, PrecommitAny)) && s.step != Committed ==>
              StartTimeout(Timeout(r, PrecommitKind)) in OutputsOf(f)
    ensures IsFeed(f, s, (r, PolkaAny)) && s.step == Prevoting ==>
              StartTimeout(Timeout(r, PrevoteKind)) in OutputsOf(f)
  {
  }

  lemma FedOutput(d: Driver, input: DriverInput, f: Fed, o: DriverOutput)
    requires d.pending == [] && ProposerKnown(d, Call(input)) && f in Process(d, input).fed && o in OutputsOf(f)
    ensures o in Outputs(d, Call(input))
  {
    CallOutputs(d, input, o);
  }

  /** The timeout that the votes held for the round call for. */
  function TimerFor(d: Driver): Option<Timeout> {
    match NonValueThreshold(d, d.roundState.round)
    case Some(PrecommitAny) => Some(Timeout(d.roundState.round, PrecommitKind))
    case Some(PolkaAny) =>
      if d.roundState.step == Prevoting then Some(Timeout(d.roundState.round, PrevoteKind)) else None
    case _ => None
  }

  lemma TimerForIff(d: Driver)
    ensures var r := d.roundState.round;
            && (TimerFor(d) == Some(Timeout(r, PrecommitKind)) <==> VotesMeet(d, r, Precommit, VK.AnyThreshold))
            && (TimerFor(d) == Some(Timeout(r, PrevoteKind)) <==>
                  && d.roundState.step == Prevoting && VotesMeet(d, r, Prevote, VK.AnyThreshold)
                  && !VotesMeet(d, r, Precommit, VK.AnyThreshold) && !VotesMeet(d, r, Prevote, VK.NilThreshold))
  {
  }

  /** A call that advances into a step of a round starts the timeout that the votes held for the round call for. */
  lemma AdvancingStartsTimer(d: Driver, input: DriverInput)
    requires d.pending == [] && ProposerKnown(d, Call(input))
    requires var (d1, choice) := Dispatch(d, input);
             choice.Ok? && choice.value.Some? && Advances(d1, choice.value.value.0, choice.value.value.1)
    requires Underway(Process(d, input).driver) && TimerFor(Process(d, input).driver).Some?
    ensures StartTimeout(TimerFor(Process(d, input).driver).value) in Outputs(d, Call(input))
  {
    var d', fed := Process(d, input).driver, Process(d, input).fed;
    AdvancingCallSettles(d, input);
    var f := TimerWasFed(d', fed);
    TimerIsStarted(d, input, d', f);
  }

  lemma TimerIsStarted(d: Driver, input: DriverInput, d': Driver, f: Fed)
    requires d.pending == [] && ProposerKnown(d, Call(input)) && f in Process(d, input).fed
    requires Underway(d') && TimerFor(d').Some? && IsFeed(f, d'.roundState, TimerInput(d'))
    ensures StartTimeout(TimerFor(d').value) in Outputs(d, Call(input))
  {
    FedProposer(d, input, f);
    TimerIsGiven(d', f);
    FedOutput(d, input, f, StartTimeout(TimerFor(d').value));
  }

  lemma TimerIsGiven(d: Driver, f: Fed)
    requires GetProposer(f.driver).Ok? && Underway(d) && TimerFor(d).Some? && IsFeed(f, d.roundState, TimerInput(d))
    ensures StartTimeout(TimerFor(d).value) in OutputsOf(f)
  {
    FeedStartsTimer(f, d.roundState, d.roundState.round);
  }

  function TimerInput(d: Driver): (Round, Input)
    requires TimerFor(d).Some?
  {
    (d.roundState.round, if TimerFor(d).value.kind == PrecommitKind then PrecommitAny else PolkaAny)
  }

  lemma TimerWasFed(d: Driver, fed: seq<Fed>) returns (f: Fed)
    requires Settled(d, fed) && Underway(d) && TimerFor(d).Some?
    ensures f in fed && IsFeed(f, d.roundState, TimerInput(d))
  {
    NonValueIsDone(d, fed);
    var x := MultiplexVoteThreshold(d, NonValueThreshold(d, d.roundState.round).value, d.roundState.round);
    f :| f in fed && IsFeed(f, d.roundState, x);
  }

  lemma FedProposer(d: Driver, input: DriverInput, f: Fed)
    requires d.pending == [] && ProposerKnown(d, Call(input)) && f in Process(d, input).fed
    ensures GetProposer(f.driver).Ok?
  {
    ProcessIsChain(d, input);
    var (d1, choice) := Dispatch(d, input);
    var r := Process(d, input);
    ChainProposer(d1, [], r.fed, r.driver, r.result.value, f);
  }

  lemma {:induction false} ChainProposer(d: Driver, outputs: seq<DriverOutput>, fed: seq<Fed>, d': Driver,
                                         outputs': seq<DriverOutput>, f: Fed)
    requires Chain(d, outputs, fed, d', outputs') && f in fed
    ensures GetProposer(f.driver).Ok?
    decreases |fed|
  {
    var g, first := FirstStep(d, outputs, fed, d', outputs');
    FeedOneFacts(g.driver, g.round, g.input, outputs);
    if f != g {
      ChainProposer(first.driver, first.result.value, fed[1..], d', outputs', f);
    }
  }

  /**
    A polka certificate of the round, for a value without a proposal, starts the prevote timeout in
    the prevote step.
  */
  lemma CertificateStartsTimer(d: Driver, c: PolkaCertificate)
    requires d.pending == [] && ProposerKnown(d, Call(ReceivePolka(c))) && d.roundState.step == Prevoting
    requires c.height == d.roundState.height && c.round == d.roundState.round
    requires ProposalFor(d, c.round, c.valueId).None?
    ensures StartTimeout(Timeout(c.round, PrevoteKind)) in Outputs(d, Call(ReceivePolka(c)))
  {
    assert ProposalFor(StorePolkaCertificate(d, c), c.round, c.valueId).None?;
    assert Dispatch(d, ReceivePolka(c)).1 == Ok(Some((c.round, PolkaAny)));
    FirstOutput(d, ReceivePolka(c), StartTimeout(Timeout(c.round, PrevoteKind)));
  }

  /** The step and the round a timeout is for. */
  predicate IsFor(t: Timeout, s: State) {
    && t.round == s.round
    && match t.kind
       case ProposeKind => s.step == Proposing
       case PrevoteKind => s.step == Prevoting
       case PrecommitKind => s.step != Committed
       case RebroadcastKind => false
  }

  lemma TimeoutChoice(d: Driver, t: Timeout)
    ensures var (d1, choice) := Dispatch(d, TimeoutElapsed(t));
            && d1 == d && choice.Ok?
            && (choice.value.Some? ==> choice.value.value.0 == t.round)
            && (IsFor(t, d.roundState) ==> choice.value.Some?)
  {
  }

  /**
    A timeout that elapses in the step and round it is for ends them: the propose timeout with a prevote
    for nil, the prevote timeout with a precommit for nil, the precommit timeout with the next round.
    Elsewhere it changes nothing.
  */
  lemma TimeoutElapsesIff(d: Driver, t: Timeout)
    requires d.pending == [] && ProposerKnown(d, Call(TimeoutElapsed(t)))
    ensures var r, s := Process(d, TimeoutElapsed(t)), d.roundState;
            if !IsFor(t, s) then r.driver.roundState == s && Outputs(d, Call(TimeoutElapsed(t))) == []
            else if t.kind == PrecommitKind then
              && r.driver.roundState == s.(round := s.round + 1, step := Unstarted)
              && MoveToRound(s.height, s.round + 1) in Outputs(d, Call(TimeoutElapsed(t)))
            else
              var voteType := if t.kind == ProposeKind then VoteType.Prevote else VoteType.Precommit;
              && r.driver.roundState.step.Rank() > s.step.Rank()
              && (MayFollow(LastVote(d, voteType), NilVote(d, voteType)) ==>
                    CastVote(NilVote(d, voteType)) in Outputs(d, Call(TimeoutElapsed(t))))
  {
    TimeoutChoice(d, t);
    if !IsFor(t, d.roundState) {
      TimeoutElsewhere(d, t);
    } else if t.kind == PrecommitKind {
      PlainUnlessAdvances(d, TimeoutElapsed(t));
      FirstOutput(d, TimeoutElapsed(t), MoveToRound(d.roundState.height, d.roundState.round + 1));
    } else {
      StepsRise(d, TimeoutElapsed(t));
      TimeoutVotes(d, t);
    }
  }

  function NilVote(d: Driver, voteType: VoteType): Vote {
    Vote(voteType, d.roundState.height, d.roundState.round, Nil, d.address)
  }

  lemma TimeoutElsewhere(d: Driver, t: Timeout)
    requires d.pending == [] && ProposerKnown(d, Call(TimeoutElapsed(t))) && !IsFor(t, d.roundState)
    ensures Process(d, TimeoutElapsed(t)).driver.roundState == d.roundState
    ensures Outputs(d, Call(TimeoutElapsed(t))) == []
  {
    var (d1, choice) := Dispatch(d, TimeoutElapsed(t));
    if choice.value.Some? {
      PlainCall(d, TimeoutElapsed(t), choice.value.value.0, choice.value.value.1);
    }
  }

  lemma TimeoutVotes(d: Driver, t: Timeout)
    requires d.pending == [] && ProposerKnown(d, Call(TimeoutElapsed(t))) && IsFor(t, d.roundState)
    requires t.kind != PrecommitKind
    ensures var voteType := if t.kind == ProposeKind then VoteType.Prevote else VoteType.Precommit;
            MayFollow(LastVote(d, voteType), NilVote(d, voteType)) ==>
              CastVote(NilVote(d, voteType)) in Outputs(d, Call(TimeoutElapsed(t)))
  {
    var voteType := if t.kind == ProposeKind then VoteType.Prevote else VoteType.Precommit;
    var (d1, choice) := Dispatch(d, TimeoutElapsed(t));
    VoteOutputIff(Fed(d1, choice.value.value.0, choice.value.value.1), NilVote(d, voteType));
    if MayFollow(LastVote(d, voteType), NilVote(d, voteType)) {
      FirstOutput(d, TimeoutElapsed(t), CastVote(NilVote(d, voteType)));
    }
  }

  // ---- The valid value ------------------------------------------------------

  /** A polka of the round for a proposal, fed once we have precommitted, makes its value the valid one. */
  lemma PolkaMakesValid(d: Driver, input: DriverInput, p: Proposal)
    requires d.pending == [] && ProposerKnown(d, Call(input))
    requires var (d1, choice) := Dispatch(d, input);
             && d1.roundState.step == Precommitting
             && choice == Ok(Some((d1.roundState.round, ProposalAndPolkaCurrent(p))))
    ensures Process(d, input).driver.roundState.valid ==
              Some(RoundValue(p.value, Dispatch(d, input).0.roundState.round))
  {
    PlainUnlessAdvances(d, input);
  }

  /**
    After our precommit a valid proposal of the round with a polka becomes the valid value: when the
    proposal comes in with the polka known, and when a vote or a certificate makes the polka known.
  */
  lemma LateProposalBecomesValid(d: Driver, sp: SignedProposal)
    requires d.pending == [] && ProposerKnown(d, Call(ReceiveProposal(sp, Valid))) && d.roundState.step == Precommitting
    requires sp.message.height == d.roundState.height && sp.message.round == d.roundState.round != NIL_ROUND
    requires PolkaKnown(d, sp.message.round, sp.message.value.id)
    requires d.roundState.decision.Some? || !CommitKnown(d, sp.message.round, sp.message.value.id)
    ensures Process(d, ReceiveProposal(sp, Valid)).driver.roundState.valid ==
              Some(RoundValue(sp.message.value, sp.message.round))
  {
    var p, d1 := sp.message, StoreProposal(d, sp, Valid);
    assert PolkaForCurrent(d1, p) && CommitKnown(d1, p.round, p.value.id) == CommitKnown(d, p.round, p.value.id);
    assert MultiplexProposal(d1, p, Valid) == Some(ProposalAndPolkaCurrent(p));
    PolkaMakesValid(d, ReceiveProposal(sp, Valid), p);
  }

  lemma LatePolkaBecomesValid(d: Driver, input: DriverInput, id: ValueId)
    requires d.pending == [] && ProposerKnown(d, Call(input)) && d.roundState.step == Precommitting
    requires Filed(d) && FirstValid(d, d.roundState.round, id)
    requires FirstFor(d, d.roundState.round, id).polRound != d.roundState.round
    requires match input
             case ReceiveVote(sv) => Reports(d, sv, VK.PolkaValue(id)) && sv.vote.round == d.roundState.round
             case ReceivePolka(c) => c.height == d.roundState.height && c.round == d.roundState.round && c.valueId == id
             case _ => false
    ensures Process(d, input).driver.roundState.valid ==
              Some(RoundValue(FirstFor(d, d.roundState.round, id).value, d.roundState.round))
  {
    var r := d.roundState.round;
    var d1 := Dispatch(d, input).0;
    if input.ReceiveVote? {
      KnownByVote(d, input.signedVote, 0, 0);
    }
    assert ProposalFor(d1, r, id) == ProposalFor(d, r, id);
    assert ProposalFor(d, r, id).value in ProposalsAt(d, r);
    PolkaMakesValid(d, input, FirstFor(d, r, id));
  }

  // ---- Nil polkas -----------------------------------------------------------

  lemma {:induction false} NoValueInputs(d: Driver, round: Round, stored: seq<StoredProposal>)
    requires d.roundState.step == Prevoting && forall id :: !VotesMeet(d, round, Prevote, VK.ValueThreshold(id))
    ensures ProposalStepInputs(d, round, stored) == []
  {
    if stored != [] {
      NoValueInputs(d, round, stored[..|stored| - 1]);
      assert !VotesMeet(d, round, Prevote, VK.ValueThreshold(stored[|stored| - 1].0.message.value.id));
    }
  }

  lemma NilPolkaExcludesValues(d: Driver, r: Round, id: ValueId)
    requires VKR.LedgerOk(d.votes) && 2 * d.votes.params.quorum.numerator >= d.votes.params.quorum.denominator
    requires VotesMeet(d, r, Prevote, VK.NilThreshold)
    ensures !VotesMeet(d, r, Prevote, VK.ValueThreshold(id))
  {
    if VotesMeet(d, r, Prevote, VK.ValueThreshold(id)) {
      assert VKR.TallyOk(d.votes, r, d.votes.rounds[r]);
      VKR.QuorumIsUnique(d.votes, d.votes.rounds[r], Prevote, Nil, Val(id));
    }
  }

  /** With a quorum of precommits and a nil polka, only the former is called for in the prevote step. */
  lemma PrecommitsHideNil(d: Driver)
    requires d.roundState.step == Prevoting && VKR.LedgerOk(d.votes)
    requires 2 * d.votes.params.quorum.numerator >= d.votes.params.quorum.denominator
    requires VotesMeet(d, d.roundState.round, Prevote, VK.NilThreshold)
    requires VotesMeet(d, d.roundState.round, Precommit, VK.AnyThreshold)
    ensures CalledFor(d) == [(d.roundState.round, PrecommitAny)]
  {
    var r := d.roundState.round;
    forall id ensures !VotesMeet(d, r, Prevote, VK.ValueThreshold(id)) {
      NilPolkaExcludesValues(d, r, id);
    }
    NoValueInputs(d, r, ProposalsAt(d, r));
  }

  lemma DrainOneIdle(d: Driver, x: (Round, Input), outputs: seq<DriverOutput>)
    requires GetProposer(d).Ok? && d.pending == [x] && StaysInRound(x.1) && Idle(d.roundState, x)
    ensures PendingOk(d.pending) && Drain(d, outputs).driver.roundState.step == d.roundState.step
  {
    var cleared := d.(pending := []);
    FeedOneFacts(cleared, x.0, x.1, outputs);
    FeedOneRefills(cleared, x.0, x.1, outputs);
    StepAfterIs(cleared.roundState, Info(x.0, d.address, GetProposer(d).value), x.1);
    var first := FeedOne(cleared, x.0, x.1, outputs);
    assert d.pending[1..] == [];
    assert FeedAll(cleared, d.pending, outputs).driver == first.driver;
  }

  /**
    A nil polka held on entering the prevote step is acted upon if and only if there is no quorum of
    precommits for the round: the source reports one threshold only, and that one first.
  */
  lemma NilPolkaIsUsedIff(d: Driver, input: DriverInput)
    requires d.pending == [] && ProposerKnown(d, Call(input)) && VKR.LedgerOk(Dispatch(d, input).0.votes)
    requires var (d1, choice) := Dispatch(d, input);
             && 2 * d1.votes.params.quorum.numerator >= d1.votes.params.quorum.denominator
             && choice.Ok? && choice.value.Some? && d1.roundState.step == Proposing
             && StaysInRound(choice.value.value.1) && StepAfter(d1.roundState, choice.value.value) == Prevoting
             && VotesMeet(d1, d1.roundState.round, Prevote, VK.NilThreshold)
    ensures var d1 := Dispatch(d, input).0;
            Process(d, input).driver.roundState.step == Prevoting <==>
              VotesMeet(d1, d1.roundState.round, Precommit, VK.AnyThreshold)
  {
    var (d1, choice) := Dispatch(d, input);
    DispatchFrame(d, input);
    NilOnEntering(d1, choice.value.value.0, choice.value.value.1);
  }

  lemma NilOnEntering(d: Driver, round: Round, i: Input)
    requires d.pending == [] && GetProposer(d).Ok? && VKR.LedgerOk(d.votes) && d.roundState.step == Proposing
    requires 2 * d.votes.params.quorum.numerator >= d.votes.params.quorum.denominator
    requires StaysInRound(i) && StepAfter(d.roundState, (round, i)) == Prevoting
    requires VotesMeet(d, d.roundState.round, Prevote, VK.NilThreshold)
    ensures FeedAndDrain(d, round, i).driver.roundState.step == Prevoting <==>
              VotesMeet(d, d.roundState.round, Precommit, VK.AnyThreshold)
  {
    if VotesMeet(d, d.roundState.round, Precommit, VK.AnyThreshold) {
      EntersAndStays(d, round, i);
    } else {
      var r := FeedAndDrain(d, round, i);
      FirstThenDrain(d, round, i);
      EndsInRound(d, round, i);
      if r.driver.roundState.step == Prevoting {
        SettledPrevoting(r.driver, r.fed, 0);
      }
    }
  }

  lemma EntersAndStays(d: Driver, round: Round, i: Input)
    requires d.pending == [] && GetProposer(d).Ok? && VKR.LedgerOk(d.votes) && d.roundState.step == Proposing
    requires 2 * d.votes.params.quorum.numerator >= d.votes.params.quorum.denominator
    requires StaysInRound(i) && StepAfter(d.roundState, (round, i)) == Prevoting
    requires VotesMeet(d, d.roundState.round, Prevote, VK.NilThreshold)
    requires VotesMeet(d, d.roundState.round, Precommit, VK.AnyThreshold)
    ensures FeedAndDrain(d, round, i).driver.roundState.step == Prevoting
  {
    var info := Info(round, d.address, GetProposer(d).value);
    var first := FeedOne(d, round, i, []);
    FeedOneFacts(d, round, i, []);
    FeedOneMoves(d, round, i, []);
    StepAfterIs(d.roundState, info, i);
    StepKept(d.roundState, info, i);
    StepChangeHasOutput(d.roundState, info, i);
    FeedOnePending(d, round, i);
    PrecommitsHideNil(first.driver);
    DrainOneIdle(first.driver, (d.roundState.round, PrecommitAny), first.result.value);
  }

  /** What follows an input that stays in the round stays in it. */
  lemma EndsInRound(d: Driver, round: Round, i: Input)
    requires d.pending == [] && GetProposer(d).Ok? && StaysInRound(i)
    ensures var d' := FeedAndDrain(d, round, i).driver;
            d'.roundState.round == d.roundState.round && SameStores(d, d')
  {
    var first := FeedOne(d, round, i, []);
    FeedOneFacts(d, round, i, []);
    StepChangeHasOutput(d.roundState, Info(round, d.address, GetProposer(d).value), i);
    FeedOnePending(d, round, i);
    DrainIsChain(first.driver, first.result.value);
    var rest := Drain(first.driver, first.result.value);
    ChainStaysInRound(first.driver, first.result.value, rest.fed, rest.driver, rest.result.value);
  }

  lemma {:induction false} ChainStaysInRound(d: Driver, outputs: seq<DriverOutput>, fed: seq<Fed>, d': Driver,
                                             outputs': seq<DriverOutput>)
    requires Chain(d, outputs, fed, d', outputs') && AllStay(fed)
    ensures d'.roundState.round == d.roundState.round
    decreases |fed|
  {
    if fed != [] {
      var f, first := FirstStep(d, outputs, fed, d', outputs');
      FeedOneFacts(f.driver, f.round, f.input, outputs);
      StepChangeHasOutput(f.driver.roundState, Info(f.round, f.driver.address, GetProposer(f.driver).value), f.input);
      ChainStaysInRound(first.driver, first.result.value, fed[1..], d', outputs');
    }
  }
}
