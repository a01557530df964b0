/**
  A call does not end before the change of step it caused has been followed up: every input that the
  stored proposals and the votes call for in the step it ends in has been fed in that step.
*/
module DriverSettling {
  import opened Types
  import opened StateMachine
  import opened DriverModel
  import opened DriverRuns
  import opened DriverBacking
  import VK = VoteKeeping

  /** The step an input for a round leads to. It does not depend on who we are. */
  function StepAfter(s: State, x: (Round, Input)): Step {
    Apply(s, Info(x.0, 0, 0), x.1).next.step
  }

  predicate Idle(s: State, x: (Round, Input)) {
    StepAfter(s, x) == s.step
  }

  lemma StepAfterIs(s: State, info: Info, input: Input)
    ensures Apply(s, info, input).next.step == StepAfter(s, (info.inputRound, input))
  {
  }

  /** An input of the round that leaves the step leaves all but the valid value. */
  lemma StepKept(s: State, info: Info, input: Input)
    requires StaysInRound(input)
    ensures var s' := Apply(s, info, input).next;
            && (s'.step == s.step ==> s' == s.(valid := s'.valid))
            && (s'.step != s.step && s'.step != Committed ==> s'.round == s.round == info.inputRound)
  {
  }

  lemma IdleFrame(s: State, s': State, x: (Round, Input))
    requires s' == s.(valid := s'.valid)
    ensures Idle(s, x) <==> Idle(s', x)
  {
  }

  /** What is called for depends on the stores, the round, the step and whether we have decided. */
  predicate SameView(d: Driver, d': Driver) {
    && SameStores(d, d')
    && d.roundState.round == d'.roundState.round && d.roundState.step == d'.roundState.step
    && d.roundState.decision == d'.roundState.decision
  }

  lemma {:induction false} ProposalInputsFrame(d: Driver, d': Driver, round: Round, stored: seq<StoredProposal>)
    requires SameView(d, d')
    ensures ProposalStepInputs(d, round, stored) == ProposalStepInputs(d', round, stored)
  {
    if stored != [] {
      ProposalInputsFrame(d, d', round, stored[..|stored| - 1]);
      ProposalInputFrame(d, d', round, stored[|stored| - 1]);
    }
  }

  lemma ProposalInputFrame(d: Driver, d': Driver, round: Round, stored: StoredProposal)
    requires SameView(d, d')
    ensures ProposalStepInput(d, round, stored) == ProposalStepInput(d', round, stored)
  {
  }

  lemma StepInputsFrame(d: Driver, d': Driver, round: Round)
    requires SameView(d, d')
    ensures StepInputs(d, round) == StepInputs(d', round)
  {
    ProposalInputsFrame(d, d', round, ProposalsAt(d, round));
  }

  /** A step of a round in which inputs may still have an effect. */
  predicate Underway(d: Driver) {
    d.roundState.step != Unstarted && d.roundState.step != Committed
  }

  function CalledFor(d: Driver): seq<(Round, Input)> {
    StepInputs(d, d.roundState.round)
  }

  predicate IsFeed(f: Fed, s: State, x: (Round, Input)) {
    f.round == x.0 && f.input == x.1 && f.driver.roundState.step == s.step && f.driver.roundState.round == s.round
  }

  predicate WasFed(fed: seq<Fed>, s: State, x: (Round, Input)) {
    exists f :: f in fed && IsFeed(f, s, x)
  }

  /** Fed in the step we are in, without leaving it. */
  predicate Done(d: Driver, fed: seq<Fed>, x: (Round, Input)) {
    Idle(d.roundState, x) && WasFed(fed, d.roundState, x)
  }

  /** All that is called for is done, pending, or still to come in this batch. */
  predicate Tracked(d: Driver, fed: seq<Fed>, batch: seq<(Round, Input)>) {
    Underway(d) ==> forall x :: x in CalledFor(d) ==> x in d.pending || x in batch || Done(d, fed, x)
  }

  lemma FeedOneMoves(d: Driver, round: Round, input: Input, outputs: seq<DriverOutput>)
    requires GetProposer(d).Ok? && (StaysInRound(input) || input == NewRound(round))
    ensures var d' := FeedOne(d, round, input, outputs).driver;
            && SameStores(d, d') && d'.roundState.step == StepAfter(d.roundState, (round, input))
            && (d'.roundState.step != d.roundState.step && Underway(d') ==> d'.pending == CalledFor(d'))
  {
    FeedOneFacts(d, round, input, outputs);
    FeedOnePendingIs(d, round, input, outputs);
    var d', info := FeedOne(d, round, input, outputs).driver, Info(round, d.address, GetProposer(d).value);
    StepAfterIs(d.roundState, info, input);
    if StaysInRound(input) {
      StepKept(d.roundState, info, input);
    }
    if d'.roundState.step != d.roundState.step && Underway(d') {
      StepInputsFrame(d.(roundState := d'.roundState), d', round);
      FeedOneRefills(d, round, input, outputs);
    }
  }

  lemma FeedOneRefills(d: Driver, round: Round, input: Input, outputs: seq<DriverOutput>)
    requires GetProposer(d).Ok?
    ensures var d' := FeedOne(d, round, input, outputs).driver;
            if d'.roundState.step != d.roundState.step && d'.roundState.step != Unstarted
            then d'.pending == StepInputs(d.(roundState := d'.roundState), round) else d'.pending == d.pending
  {
    var (d1, result) := ApplyInput(d, round, input);
    if result.value.Some? {
      LiftKeepsState(d1, result.value.value);
    }
  }

  /** Feeding the next input of a batch keeps track of all that is called for. */
  lemma FeedOneTracks(d: Driver, fed: seq<Fed>, x: (Round, Input), rest: seq<(Round, Input)>,
                      outputs: seq<DriverOutput>)
    requires GetProposer(d).Ok? && StaysInRound(x.1) && Tracked(d, fed, [x] + rest)
    ensures var r := FeedOne(d, x.0, x.1, outputs); Tracked(r.driver, fed + r.fed, rest)
  {
    var r := FeedOne(d, x.0, x.1, outputs);
    var d', info := r.driver, Info(x.0, d.address, GetProposer(d).value);
    FeedOneFacts(d, x.0, x.1, outputs);
    FeedOneMoves(d, x.0, x.1, outputs);
    StepKept(d.roundState, info, x.1);
    if Underway(d') && d'.roundState.step == d.roundState.step {
      FeedOneRefills(d, x.0, x.1, outputs);
      StepInputsFrame(d, d', d.roundState.round);
      forall y | y in CalledFor(d') ensures y in d'.pending || y in rest || Done(d', fed + r.fed, y) {
        IdleFrame(d.roundState, d'.roundState, y);
        if y == x {
          assert r.fed[0] in fed + r.fed && IsFeed(r.fed[0], d'.roundState, y);
        } else if Done(d, fed, y) {
          var f :| f in fed && IsFeed(f, d.roundState, y);
          assert f in fed + r.fed && IsFeed(f, d'.roundState, y);
        }
      }
    }
  }

  lemma {:induction false} FeedAllTracks(d: Driver, fed: seq<Fed>, batch: seq<(Round, Input)>,
                                         outputs: seq<DriverOutput>)
    requires GetProposer(d).Ok? && PendingOk(batch) && Tracked(d, fed, batch)
    ensures var r := FeedAll(d, batch, outputs); GetProposer(r.driver).Ok? && Tracked(r.driver, fed + r.fed, [])
    decreases |batch|
  {
    if batch == [] {
      assert fed + [] == fed;
    } else {
      var x, rest := batch[0], batch[1..];
      assert batch == [x] + rest;
      FeedOneFacts(d, x.0, x.1, outputs);
      FeedOneTracks(d, fed, x, rest, outputs);
      var first := FeedOne(d, x.0, x.1, outputs);
      FeedAllTracks(first.driver, fed + first.fed, rest, first.result.value);
      Regroup(fed, first.fed, FeedAll(first.driver, rest, first.result.value).fed);
    }
  }

  lemma Regroup(a: seq<Fed>, b: seq<Fed>, c: seq<Fed>)
    ensures a + b + c == a + (b + c)
  {
  }

  lemma {:induction false} DrainTracks(d: Driver, fed: seq<Fed>, outputs: seq<DriverOutput>)
    requires GetProposer(d).Ok? && PendingOk(d.pending) && Tracked(d, fed, [])
    ensures var r := Drain(d, outputs); r.driver.pending == [] && Tracked(r.driver, fed + r.fed, [])
    decreases StepsLeft(d)
  {
    if d.pending == [] {
      assert fed + [] == fed;
    } else {
      var cleared := d.(pending := []);
      StepInputsFrame(d, cleared, d.roundState.round);
      assert Tracked(cleared, fed, d.pending);
      FeedAllRaises(cleared, d.pending, outputs);
      FeedAllTracks(cleared, fed, d.pending, outputs);
      var pass := FeedAll(cleared, d.pending, outputs);
      FeedAllIsChain(cleared, d.pending, outputs);
      DrainTracks(pass.driver, fed + pass.fed, pass.result.value);
      Regroup(fed, pass.fed, Drain(pass.driver, pass.result.value).fed);
    }
  }

  /** All that is called for in the step we are in was fed in this step, and did not lead out of it. */
  predicate Settled(d: Driver, fed: seq<Fed>) {
    Underway(d) ==> forall x :: x in CalledFor(d) ==> Done(d, fed, x)
  }

  /** The first input of a call changes the step to one that is followed up. */
  predicate Advances(d1: Driver, round: Round, i: Input) {
    var step := StepAfter(d1.roundState, (round, i));
    step != d1.roundState.step && step != Unstarted
  }

  /** A call that does not advance feeds one input, and what it changes is what that input changes. */
  lemma PlainUnlessAdvances(d: Driver, input: DriverInput)
    requires d.pending == []
    requires var (d1, choice) := Dispatch(d, input);
             && choice.Ok? && choice.value.Some? && GetProposer(d1).Ok?
             && !Advances(d1, choice.value.value.0, choice.value.value.1)
    ensures var (d1, choice) := Dispatch(d, input);
            var (round, i) := choice.value.value;
            var r := Process(d, input);
            && r.driver.roundState == Next(d1, round, i).next && SameStores(d1, r.driver)
            && r.fed == [Fed(d1, round, i)]
  {
    var (d1, choice) := Dispatch(d, input);
    var (round, i) := choice.value.value;
    var t := Next(d1, round, i);
    StepAfterIs(d1.roundState, Info(round, d1.address, GetProposer(d1).value), i);
    PlainCall(d, input, round, i);
    if t.output.Some? {
      var d2 := d1.(roundState := t.next);
      LiftFacts(d2, t.output.value, d2);
    }
  }

  lemma FirstThenDrain(d: Driver, round: Round, i: Input)
    requires d.pending == [] && GetProposer(d).Ok? && (StaysInRound(i) || i == NewRound(round)) && Advances(d, round, i)
    ensures var r := FeedAndDrain(d, round, i); Settled(r.driver, r.fed)
  {
    var first := FeedOne(d, round, i, []);
    FeedOneFacts(d, round, i, []);
    FeedOneMoves(d, round, i, []);
    FeedOnePending(d, round, i);
    StepChangeHasOutput(d.roundState, Info(round, d.address, GetProposer(d).value), i);
    StepAfterIs(d.roundState, Info(round, d.address, GetProposer(d).value), i);
    DrainTracks(first.driver, first.fed, first.result.value);
  }

  /** A call that advances ends settled. */
  lemma AdvancingCallSettles(d: Driver, input: DriverInput)
    requires d.pending == []
    requires var (d1, choice) := Dispatch(d, input);
             && choice.Ok? && choice.value.Some? && GetProposer(d1).Ok?
             && Advances(d1, choice.value.value.0, choice.value.value.1)
    ensures Settled(Process(d, input).driver, Process(d, input).fed)
  {
    DispatchFrame(d, input);
    OnlyStartRoundStarts(d, input);
    var (d1, choice) := Dispatch(d, input);
    FirstThenDrain(d1, choice.value.value.0, choice.value.value.1);
  }

  // ---- What settled means ---------------------------------------------------

  lemma {:induction false} InputOfStored(d: Driver, round: Round, stored: seq<StoredProposal>, s: StoredProposal,
                                         x: (Round, Input))
    requires s in stored && x in ProposalStepInput(d, round, s)
    ensures x in ProposalStepInputs(d, round, stored)
  {
    var n := |stored| - 1;
    if s != stored[n] {
      assert s in stored[..n];
      InputOfStored(d, round, stored[..n], s, x);
    }
  }

  /** Of what a stored proposal of the round calls for, nothing is left that would lead to another step. */
  lemma StoredIsIdle(d: Driver, fed: seq<Fed>, s: StoredProposal, x: (Round, Input))
    requires Settled(d, fed) && Underway(d) && s in ProposalsAt(d, d.roundState.round)
    requires x in ProposalStepInput(d, d.roundState.round, s)
    ensures Idle(d.roundState, x)
  {
    InputOfStored(d, d.roundState.round, ProposalsAt(d, d.roundState.round), s, x);
    assert x in CalledFor(d);
  }

  lemma NonValueIsDone(d: Driver, fed: seq<Fed>)
    requires Settled(d, fed) && Underway(d) && NonValueThreshold(d, d.roundState.round).Some?
    ensures Done(d, fed, MultiplexVoteThreshold(d, NonValueThreshold(d, d.roundState.round).value, d.roundState.round))
  {
    var x := MultiplexVoteThreshold(d, NonValueThreshold(d, d.roundState.round).value, d.roundState.round);
    assert x in [x];
    assert x in CalledFor(d);
  }

  /**
    Settled in the propose step: no stored proposal of the round is without a POL round, and none has
    a polka in its POL round.
  */
  lemma SettledProposing(d: Driver, fed: seq<Fed>, s: StoredProposal)
    requires Settled(d, fed) && d.roundState.step == Proposing && d.roundState.round != NIL_ROUND
    requires s in ProposalsAt(d, d.roundState.round) && s.0.message.round == d.roundState.round
    ensures s.0.message.polRound != NIL_ROUND && !PolkaPrevious(d, s.0.message)
  {
    var (sp, validity) := s;
    var input := MultiplexProposal(d, sp.message, validity);
    if input.Some? {
      var x := (d.roundState.round, input.value);
      assert ProposalStepInput(d, d.roundState.round, s) == [x];
      StoredIsIdle(d, fed, s, x);
    }
  }

  /**
    Settled in the prevote step: the first stored proposal of the round for a value, when valid, has no
    prevote quorum, and a nil polka only beside a quorum of precommits.
  */
  lemma SettledPrevoting(d: Driver, fed: seq<Fed>, id: ValueId)
    requires Settled(d, fed) && d.roundState.step == Prevoting
    ensures var r, first := d.roundState.round, ProposalFor(d, d.roundState.round, id);
            && (first.Some? && first.value.1 == Valid && first.value.0.message.round == r ==>
                  first.value.0.message.polRound == r || !VotesMeet(d, r, Prevote, VK.ValueThreshold(id)))
            && (VotesMeet(d, r, Prevote, VK.NilThreshold) ==> VotesMeet(d, r, Precommit, VK.AnyThreshold))
  {
    var r, first := d.roundState.round, ProposalFor(d, d.roundState.round, id);
    if first.Some? && VotesMeet(d, r, Prevote, VK.ValueThreshold(id)) {
      var x := MultiplexVoteThreshold(d, VK.PolkaValue(id), r);
      assert ProposalStepInput(d, r, first.value) == [x];
      StoredIsIdle(d, fed, first.value, x);
    }
    if NonValueThreshold(d, r).Some? {
      NonValueIsDone(d, fed);
    }
  }
}
