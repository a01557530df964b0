/**
  What a call of the driver outputs, input by input: proposals, requests for a value and votes,
  each with the state and the input that give rise to it.
*/
module DriverOutputs {
  import opened Types
  import opened StateMachine
  import opened DriverModel
  import opened DriverRuns
  import opened DriverBacking

  /** The outputs an input that was fed gives rise to. */
  function OutputsOf(f: Fed): seq<DriverOutput> {
    if GetProposer(f.driver).Err? then []
    else
      var t := Next(f.driver, f.round, f.input);
      if t.output.None? then [] else Lift(f.driver.(roundState := t.next), t.output.value).1
  }

  function InfoOf(f: Fed): Info
    requires GetProposer(f.driver).Ok?
  {
    Info(f.round, f.driver.address, GetProposer(f.driver).value)
  }

  /** An output of the state machine that is passed on as it is, and what it is passed on as. */
  predicate PassedOn(output: Output, o: DriverOutput) {
    match output
    case ProposalOutput(p) => o == BroadcastProposal(p)
    case GetValueAndScheduleTimeout(height, round, t) => o == GetValue(height, round, t) || o == StartTimeout(t)
    case ScheduleTimeout(t) => o == StartTimeout(t)
    case NewRoundOutput(r) => o.MoveToRound? && o.round == r
    case Decision(r, p) => o == Decide(r, p)
    case VoteOutput(v) => o == CastVote(v)
  }

  /** Every output comes from the state machine, by the rule for it. */
  lemma OutputHasReason(f: Fed, o: DriverOutput) returns (output: Output)
    requires o in OutputsOf(f)
    ensures GetProposer(f.driver).Ok? && PassedOn(output, o)
    ensures Yields(f.driver.roundState, InfoOf(f), f.input, output)
  {
    output := Next(f.driver, f.round, f.input).output.value;
    OutputIff(f.driver.roundState, InfoOf(f), f.input, output);
  }

  predicate GivenBy(fed: seq<Fed>, o: DriverOutput) {
    exists f :: f in fed && o in OutputsOf(f)
  }

  lemma {:induction false} ChainOutputs(d: Driver, outputs: seq<DriverOutput>, fed: seq<Fed>, d': Driver,
                                        outputs': seq<DriverOutput>, o: DriverOutput)
    requires Chain(d, outputs, fed, d', outputs')
    ensures o in outputs' <==> o in outputs || GivenBy(fed, o)
    decreases |fed|
  {
    if fed != [] {
      var f, first := FirstStep(d, outputs, fed, d', outputs');
      FeedOneFacts(f.driver, f.round, f.input, outputs);
      assert first.result.value == outputs + OutputsOf(f);
      ChainOutputs(first.driver, first.result.value, fed[1..], d', outputs', o);
      assert forall x :: x in fed <==> x == f || x in fed[1..];
    }
  }

  /** A call outputs what the inputs it feeds give rise to. */
  lemma CallOutputs(d: Driver, input: DriverInput, o: DriverOutput)
    requires d.pending == [] && ProposerKnown(d, Call(input))
    ensures o in Outputs(d, Call(input)) <==> GivenBy(Process(d, input).fed, o)
  {
    ProcessIsChain(d, input);
    var (d1, choice) := Dispatch(d, input);
    var r := Process(d, input);
    if choice.Ok? && choice.value.Some? {
      ChainOutputs(d1, [], r.fed, r.driver, r.result.value, o);
    }
  }

  /** What only a round start or a new value can cause comes from the first input fed. */
  lemma FromFirst(d: Driver, input: DriverInput, o: DriverOutput)
    requires d.pending == [] && ProposerKnown(d, Call(input)) && (o.BroadcastProposal? || o.GetValue?)
    ensures var (d1, choice) := Dispatch(d, input);
            o in Outputs(d, Call(input)) <==>
              choice.Ok? && choice.value.Some? && o in OutputsOf(Fed(d1, choice.value.value.0, choice.value.value.1))
  {
    CallOutputs(d, input, o);
    ProcessIsChain(d, input);
    if Process(d, input).fed != [] {
      OnlyFirstGives(Process(d, input).fed, o);
    }
  }

  lemma OnlyFirstGives(fed: seq<Fed>, o: DriverOutput)
    requires fed != [] && AllStay(fed[1..]) && (o.BroadcastProposal? || o.GetValue?)
    ensures GivenBy(fed, o) <==> o in OutputsOf(fed[0])
  {
    if GivenBy(fed, o) {
      var f :| f in fed && o in OutputsOf(f);
      assert f == fed[0] || f in fed[1..];
      NotFromStaying(f, o);
    }
    assert fed[0] in fed;
  }

  lemma NotFromStaying(f: Fed, o: DriverOutput)
    requires o in OutputsOf(f) && (o.BroadcastProposal? || o.GetValue?)
    ensures !StaysInRound(f.input)
  {
    var output := OutputHasReason(f, o);
  }

  lemma ProposalOutputIff(f: Fed, p: Proposal)
    requires GetProposer(f.driver).Ok?
    ensures BroadcastProposal(p) in OutputsOf(f) <==> YieldsProposal(f.driver.roundState, InfoOf(f), f.input, p)
  {
    OutputIff(f.driver.roundState, InfoOf(f), f.input, ProposalOutput(p));
    if BroadcastProposal(p) in OutputsOf(f) {
      var output := OutputHasReason(f, BroadcastProposal(p));
    }
  }

  /** Why a call broadcasts a proposal: a valid value proposed again at a round start, or a new value. */
  predicate Proposes(d: Driver, input: DriverInput, p: Proposal) {
    && p.height == d.roundState.height && p.address == d.address
    && match input
       case StartRound(height, round, proposer) =>
         && height == d.roundState.height && proposer == d.address && d.roundState.step == Unstarted
         && d.roundState.valid == Some(RoundValue(p.value, p.polRound)) && p.round == round
       case Propose(round, value) =>
         && d.roundState.step == Proposing && d.roundState.round == round == p.round
         && p.value == value && p.polRound == NIL_ROUND
       case _ => false
  }

  lemma OnlyProposeProposes(d: Driver, input: DriverInput)
    ensures var choice := Dispatch(d, input).1;
            choice.Ok? && choice.value.Some? && choice.value.value.1.ProposeValue? ==> input.Propose?
  {
  }

  /**
    A call broadcasts a proposal if and only if it starts a round of which we are the proposer and a
    valid value is held, which is then proposed with the round it became valid in, or it brings a new
    value for the propose step we are in.
  */
  lemma BroadcastIff(d: Driver, input: DriverInput, p: Proposal)
    requires d.pending == [] && ProposerKnown(d, Call(input))
    ensures BroadcastProposal(p) in Outputs(d, Call(input)) <==> Proposes(d, input, p)
  {
    FromFirst(d, input, BroadcastProposal(p));
    DispatchFrame(d, input);
    var (d1, choice) := Dispatch(d, input);
    if choice.Ok? && choice.value.Some? {
      var (round, i) := choice.value.value;
      ProposalOutputIff(Fed(d1, round, i), p);
      OnlyStartRoundStarts(d, input);
      OnlyProposeProposes(d, input);
    }
  }

  lemma GetValueOutputIff(f: Fed, height: Height, round: Round, t: Timeout)
    requires GetProposer(f.driver).Ok?
    ensures GetValue(height, round, t) in OutputsOf(f) <==>
              Yields(f.driver.roundState, InfoOf(f), f.input, GetValueAndScheduleTimeout(height, round, t))
  {
    var output, o := GetValueAndScheduleTimeout(height, round, t), GetValue(height, round, t);
    OutputIff(f.driver.roundState, InfoOf(f), f.input, output);
    if Next(f.driver, f.round, f.input).output == Some(output) {
      assert OutputsOf(f)[1] == o;
    }
    if o in OutputsOf(f) {
      var reason := OutputHasReason(f, o);
    }
  }

  /** A value is asked for if and only if a call starts a round of which we are the proposer and none is valid. */
  lemma ValueAskedIff(d: Driver, input: DriverInput, height: Height, round: Round, t: Timeout)
    requires d.pending == [] && ProposerKnown(d, Call(input))
    ensures GetValue(height, round, t) in Outputs(d, Call(input)) <==>
              && input == StartRound(height, round, d.address) && t == Timeout(round, ProposeKind)
              && (d.roundState.height == height ==> d.roundState.step == Unstarted && d.roundState.valid.None?)
  {
    FromFirst(d, input, GetValue(height, round, t));
    DispatchFrame(d, input);
    var (d1, choice) := Dispatch(d, input);
    if choice.Ok? && choice.value.Some? {
      GetValueOutputIff(Fed(d1, choice.value.value.0, choice.value.value.1), height, round, t);
      OnlyStartRoundStarts(d, input);
    }
  }

  /** A vote is cast if and only if the rules ask for it and our last vote of its type does not stand against it. */
  lemma VoteOutputIff(f: Fed, v: Vote)
    requires GetProposer(f.driver).Ok?
    ensures CastVote(v) in OutputsOf(f) <==>
              && YieldsVote(f.driver.roundState, InfoOf(f), f.input, v)
              && (var last := LastVote(f.driver, v.voteType);
                  last.Some? ==> last.value.height < v.height || last.value.round < v.round || last.value == v)
  {
    var s := f.driver.roundState;
    OutputIff(s, InfoOf(f), f.input, VoteOutput(v));
    ValidChangesByPolka(s, InfoOf(f), f.input);
    if CastVote(v) in OutputsOf(f) {
      var output := OutputHasReason(f, CastVote(v));
    } else if YieldsVote(s, InfoOf(f), f.input, v) {
      assert Next(f.driver, f.round, f.input).output == Some(VoteOutput(v));
    }
  }

  /**
    Every vote a call casts is the one the rules ask for on an input it feeds. A prevote for a value is
    for a proposal that was put to the vote while unlocked, locked on it, or locked no later than its
    polka.
  */
  lemma VoteHasReason(d: Driver, input: DriverInput, v: Vote) returns (f: Fed)
    requires d.pending == [] && ProposerKnown(d, Call(input)) && CastVote(v) in Outputs(d, Call(input))
    ensures f in Process(d, input).fed && GetProposer(f.driver).Ok?
    ensures YieldsVote(f.driver.roundState, InfoOf(f), f.input, v)
    ensures v.voteType == VoteType.Prevote && v.value.Val? ==>
              var s := f.driver.roundState;
              && PutToVote(s, f.input).Some? && PutToVote(s, f.input).value.value.id == v.value.id
              && MayPrevote(s.locked, PutToVote(s, f.input).value)
  {
    CallOutputs(d, input, CastVote(v));
    f :| f in Process(d, input).fed && CastVote(v) in OutputsOf(f);
    var output := OutputHasReason(f, CastVote(v));
  }

  // ---- Where a valid value comes from ---------------------------------------

  /** One of these inputs brought a polka of round `rv.round` for a proposal of that value. */
  predicate BroughtBy(fed: seq<Fed>, rv: RoundValue) {
    exists f :: f in fed && f.input.ProposalAndPolkaCurrent? && f.input.proposal.value == rv.value
      && f.round == rv.round
  }

  lemma {:induction false} ChainValid(d: Driver, outputs: seq<DriverOutput>, fed: seq<Fed>, d': Driver,
                                      outputs': seq<DriverOutput>)
    requires Chain(d, outputs, fed, d', outputs')
    ensures var valid := d'.roundState.valid;
            valid.Some? && valid != d.roundState.valid ==> BroughtBy(fed, valid.value)
    decreases |fed|
  {
    if fed != [] {
      var f, first := FirstStep(d, outputs, fed, d', outputs');
      FeedOneFacts(f.driver, f.round, f.input, outputs);
      ValidChangesByPolka(f.driver.roundState, InfoOf(f), f.input);
      ChainValid(first.driver, first.result.value, fed[1..], d', outputs');
      assert forall x :: x in fed <==> x == f || x in fed[1..];
    }
  }

  lemma CallValid(d: Driver, op: Op)
    requires d.pending == []
    ensures var r := Perform(d, op);
            r.driver.roundState.valid.Some? && r.driver.roundState.valid != d.roundState.valid ==>
              BroughtBy(r.fed, r.driver.roundState.valid.value)
  {
    if op.Call? {
      ProcessIsChain(d, op.input);
      DispatchFrame(d, op.input);
      var (d1, choice) := Dispatch(d, op.input);
      var r := Process(d, op.input);
      if choice.Ok? && choice.value.Some? && GetProposer(d1).Ok? {
        ChainValid(d1, [], r.fed, r.driver, r.result.value);
      }
    }
  }

  predicate BroughtAt(ds: seq<Driver>, ops: seq<Op>, i: nat, rv: RoundValue) {
    i < |ops| && i < |ds| && ds[i].pending == [] && BroughtBy(Perform(ds[i], ops[i]).fed, rv)
  }

  lemma ValidBroughtAt(height: Height, ds: seq<Driver>, ops: seq<Op>, i: nat)
    requires IsRun(height, ds, ops) && i < |ops|
    ensures var valid := ds[i + 1].roundState.valid;
            valid.Some? && valid != ds[i].roundState.valid ==> BroughtAt(ds, ops, i, valid.value)
  {
    StepOf(height, ds, ops, i);
    CallValid(ds[i], ops[i]);
  }

  /** On every run the valid value was brought with a polka of its round in some call before. */
  lemma {:induction false} ValidValueHasOrigin(height: Height, ds: seq<Driver>, ops: seq<Op>, n: nat) returns (i: nat)
    requires IsRun(height, ds, ops) && n <= |ops| && ds[n].roundState.valid.Some?
    ensures i < n && BroughtAt(ds, ops, i, ds[n].roundState.valid.value)
    decreases n
  {
    i := n - 1;
    ValidBroughtAt(height, ds, ops, i);
    if ds[n].roundState.valid == ds[i].roundState.valid {
      i := ValidValueHasOrigin(height, ds, ops, i);
    }
  }
}
