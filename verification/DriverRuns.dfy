/**
  What the driver guarantees for every call and for every sequence of calls.
*/
module DriverRuns {
  import opened Types
  import opened Quorum
  import opened StateMachine
  import opened Certificates
  import opened DriverModel
  import VK = VoteKeeping

  // ---- A call is a chain of state machine steps -----------------------------

  predicate SameButPending(d: Driver, d': Driver) {
    d.(pending := []) == d'.(pending := [])
  }

  /** `fed` leads from `d` to `d'`, appending outputs, one state machine step per input. */
  predicate Chain(d: Driver, outputs: seq<DriverOutput>, fed: seq<Fed>, d': Driver, outputs': seq<DriverOutput>)
    decreases |fed|
  {
    if fed == [] then SameButPending(d, d') && outputs' == outputs
    else
      var first := FeedOne(fed[0].driver, fed[0].round, fed[0].input, outputs);
      && SameButPending(d, fed[0].driver)
      && first.result.Ok?
      && Chain(first.driver, first.result.value, fed[1..], d', outputs')
  }

  lemma {:induction false} ChainJoins(d: Driver, outputs: seq<DriverOutput>, fed: seq<Fed>, m: Driver,
                                      middle: seq<DriverOutput>,
                                      fed': seq<Fed>, d': Driver, outputs': seq<DriverOutput>)
    requires Chain(d, outputs, fed, m, middle) && Chain(m, middle, fed', d', outputs')
    ensures Chain(d, outputs, fed + fed', d', outputs')
    decreases |fed|
  {
    if fed == [] {
      NothingFirst(fed, fed');
      ChainFromPending(m, d, middle, fed', d', outputs');
    } else {
      var f, first := FirstStep(d, outputs, fed, m, middle);
      ChainJoins(first.driver, first.result.value, fed[1..], m, middle, fed', d', outputs');
      StepThenChain(d, outputs, f, first, fed[1..] + fed', d', outputs');
      FirstOfJoin(fed, fed');
    }
  }

  lemma NothingFirst<T>(s: seq<T>, t: seq<T>)
    requires s == []
    ensures s + t == t
  {
  }

  lemma FirstOfJoin<T>(s: seq<T>, t: seq<T>)
    requires s != []
    ensures s + t == [s[0]] + (s[1..] + t)
  {
  }

  /** The first step of a chain, and what is left of it. */
  lemma FirstStep(d: Driver, outputs: seq<DriverOutput>, fed: seq<Fed>, d': Driver, outputs': seq<DriverOutput>)
    returns (f: Fed, first: Processed)
    requires fed != [] && Chain(d, outputs, fed, d', outputs')
    ensures f == fed[0] && SameButPending(d, f.driver) && IsStep(f, outputs, first)
    ensures Chain(first.driver, first.result.value, fed[1..], d', outputs')
  {
    f, first := fed[0], FeedOne(fed[0].driver, fed[0].round, fed[0].input, outputs);
  }

  lemma StepThenChain(d: Driver, outputs: seq<DriverOutput>, f: Fed, first: Processed, rest: seq<Fed>, d': Driver,
                      outputs': seq<DriverOutput>)
    requires SameButPending(d, f.driver) && IsStep(f, outputs, first)
    requires Chain(first.driver, first.result.value, rest, d', outputs')
    ensures Chain(d, outputs, [f] + rest, d', outputs')
  {
    assert ([f] + rest)[1..] == rest;
  }

  predicate IsStep(f: Fed, outputs: seq<DriverOutput>, first: Processed) {
    first == FeedOne(f.driver, f.round, f.input, outputs) && first.result.Ok?
  }

  /** The parts of the driver a state machine step does not touch. */
  predicate SameStores(d: Driver, d': Driver) {
    && d'.address == d.address
    && d'.proposer == d.proposer
    && d'.proposals == d.proposals
    && d'.votes == d.votes
    && d'.commitCertificates == d.commitCertificates
    && d'.polkaCertificates == d.polkaCertificates
    && d'.roundCertificate == d.roundCertificate
  }

  lemma ApplyInputFacts(d: Driver, round: Round, input: Input)
    ensures var (d1, result) := ApplyInput(d, round, input);
            && SameStores(d, d1) && d1.lastPrevote == d.lastPrevote && d1.lastPrecommit == d.lastPrecommit
            && (result.Ok? <==> GetProposer(d).Ok?)
            && (result.Ok? ==>
                  var t := Apply(d.roundState, Info(round, d.address, GetProposer(d).value), input);
                  d1.roundState == t.next && result.value == t.output)
  {
  }

  /** Lifting an output looks only at the state and the last votes, and changes only the last votes. */
  lemma LiftFacts(d: Driver, output: Output, other: Driver)
    requires VoteOfHeight(d, output)
    requires other.address == d.address && other.roundState == d.roundState
    requires other.lastPrevote == d.lastPrevote && other.lastPrecommit == d.lastPrecommit
    ensures var (d', outputs) := Lift(d, output);
            && SameStores(d, d') && d'.roundState == d.roundState && outputs == Lift(other, output).1
  {
  }

  /** With a proposer, feeding an input succeeds; without one it fails and loses the round state. */
  lemma FeedOneFacts(d: Driver, round: Round, input: Input, outputs: seq<DriverOutput>)
    ensures var r := FeedOne(d, round, input, outputs);
            && SameStores(d, r.driver)
            && r.fed == [Fed(d, round, input)]
            && (r.result.Ok? <==> GetProposer(d).Ok?)
            && (GetProposer(d).Ok? ==>
                  var t := Apply(d.roundState, Info(round, d.address, GetProposer(d).value), input);
                  && r.driver.roundState == t.next
                  && r.result.value ==
                       outputs + (if t.output.Some? then Lift(d.(roundState := t.next), t.output.value).1 else []))
  {
    ApplyInputFacts(d, round, input);
    var (d1, result) := ApplyInput(d, round, input);
    if result.Ok? && result.value.Some? {
      LiftFacts(d1, result.value.value, d.(roundState := d1.roundState));
    }
  }

  predicate AllStay(fed: seq<Fed>) {
    forall f :: f in fed ==> StaysInRound(f.input)
  }

  lemma {:induction false} FeedAllIsChain(d: Driver, batch: seq<(Round, Input)>, outputs: seq<DriverOutput>)
    requires GetProposer(d).Ok? && PendingOk(batch)
    ensures var r := FeedAll(d, batch, outputs);
            && r.result.Ok?
            && SameStores(d, r.driver)
            && AllStay(r.fed)
            && Chain(d, outputs, r.fed, r.driver, r.result.value)
    decreases |batch|
  {
    if batch != [] {
      FeedOneFacts(d, batch[0].0, batch[0].1, outputs);
      var first := FeedOne(d, batch[0].0, batch[0].1, outputs);
      FeedAllIsChain(first.driver, batch[1..], first.result.value);
      var r := FeedAll(d, batch, outputs);
      assert r.fed[0] == first.fed[0];
      assert r.fed[1..] == FeedAll(first.driver, batch[1..], first.result.value).fed;
    }
  }

  lemma {:induction false} DrainIsChain(d: Driver, outputs: seq<DriverOutput>)
    requires GetProposer(d).Ok? && PendingOk(d.pending)
    ensures var r := Drain(d, outputs);
            && r.result.Ok?
            && r.driver.pending == []
            && SameStores(d, r.driver)
            && AllStay(r.fed)
            && Chain(d, outputs, r.fed, r.driver, r.result.value)
    decreases if d.pending == [] then 0 else 5 - d.roundState.step.Rank()
  {
    if d.pending != [] {
      var d0 := d.(pending := []);
      FeedAllIsChain(d0, d.pending, outputs);
      FeedAllRaises(d0, d.pending, outputs);
      var pass := FeedAll(d0, d.pending, outputs);
      DrainIsChain(pass.driver, pass.result.value);
      var rest := Drain(pass.driver, pass.result.value);
      ChainFromPending(d0, d, outputs, pass.fed, pass.driver, pass.result.value);
      ChainJoins(d, outputs, pass.fed, pass.driver, pass.result.value, rest.fed, rest.driver, rest.result.value);
    }
  }

  lemma ChainFromPending(d0: Driver, d: Driver, outputs: seq<DriverOutput>, fed: seq<Fed>, d': Driver,
                         outputs': seq<DriverOutput>)
    requires SameButPending(d0, d) && Chain(d0, outputs, fed, d', outputs')
    ensures Chain(d, outputs, fed, d', outputs')
  {
  }

  /** A call either fails before or at the first state machine step, or is a chain of steps. */
  lemma ProcessIsChain(d: Driver, input: DriverInput)
    requires d.pending == []
    ensures var r := Process(d, input);
            var (d1, choice) := Dispatch(d, input);
            && r.driver.pending == []
            && match choice
               case Err(e) => r == Processed(d1, Err(e), [])
               case Ok(None) => r == Processed(d1, Ok([]), [])
               case Ok(Some(chosen)) =>
                 if GetProposer(d1).Err? then
                   && r.result.Err?
                   && r.driver == d1.(roundState := NewState(0, NIL_ROUND))
                 else
                   && r.result.Ok?
                   && SameStores(d1, r.driver)
                   && r.fed != []
                   && r.fed[0] == Fed(d1, chosen.0, chosen.1)
                   && AllStay(r.fed[1..])
                   && Chain(d1, [], r.fed, r.driver, r.result.value)
  {
    DispatchFrame(d, input);
    var (d1, choice) := Dispatch(d, input);
    if choice.Ok? && choice.value.Some? {
      var (round, i) := choice.value.value;
      FeedOneFacts(d1, round, i, []);
      FeedOnePending(d1, round, i);
      var first := FeedOne(d1, round, i, []);
      if GetProposer(d1).Ok? {
        assert Chain(d1, [], first.fed, first.driver, first.result.value);
        DrainIsChain(first.driver, first.result.value);
        var rest := Drain(first.driver, first.result.value);
        ChainJoins(d1, [], first.fed, first.driver, first.result.value, rest.fed, rest.driver, rest.result.value);
      }
    }
  }

  /** The transition an input causes. */
  function Next(d: Driver, round: Round, input: Input): Transition
    requires GetProposer(d).Ok?
  {
    Apply(d.roundState, Info(round, d.address, GetProposer(d).value), input)
  }

  /** The call feeds this input and nothing else. */
  predicate IsPlain(d: Driver, input: DriverInput, round: Round, i: Input)
    requires d.pending == [] && GetProposer(Dispatch(d, input).0).Ok?
  {
    var d1 := Dispatch(d, input).0;
    var t := Next(d1, round, i);
    var d2 := d1.(roundState := t.next);
    var r := Process(d, input);
    && r.fed == [Fed(d1, round, i)]
    && r.driver == (if t.output.Some? then Lift(d2, t.output.value).0 else d2)
    && r.result == Ok(if t.output.Some? then Lift(d2, t.output.value).1 else [])
  }

  /** A call whose step change, if any, gives rise to nothing. */
  lemma PlainCall(d: Driver, input: DriverInput, round: Round, i: Input)
    requires d.pending == []
    requires var (d1, choice) := Dispatch(d, input);
             && choice == Ok(Some((round, i))) && GetProposer(d1).Ok?
             && var s := Next(d1, round, i).next;
                s.step == d1.roundState.step || s.step == Unstarted || StepInputs(d1.(roundState := s), round) == []
    ensures IsPlain(d, input, round, i)
  {
    DispatchFrame(d, input);
    var d1 := Dispatch(d, input).0;
    var t := Next(d1, round, i);
    var d2 := d1.(roundState := t.next);
    assert ApplyInput(d1, round, i).0 == d2;
    FeedOnePending(d1, round, i);
    if t.output.Some? {
      LiftKeepsState(d2, t.output.value);
      NothingFirst([], Lift(d2, t.output.value).1);
    }
  }

  // ---- Sequences of calls ---------------------------------------------------

  datatype Op = Call(input: DriverInput) | PruneBelow(minRound: Round)

  function CertificatesFrom(certificates: seq<PolkaCertificate>, minRound: Round): (r: seq<PolkaCertificate>)
    ensures forall c :: c in r <==> c in certificates && c.round >= minRound
  {
    if certificates == [] then []
    else
      assert forall c :: c in certificates <==> c == certificates[0] || c in certificates[1..];
      var rest := CertificatesFrom(certificates[1..], minRound);
      if certificates[0].round >= minRound then [certificates[0]] + rest else rest
  }

  /** `prune_votes_and_certificates` */
  function PruneDriver(d: Driver, minRound: Round): Driver {
    d.(polkaCertificates := CertificatesFrom(d.polkaCertificates, minRound), votes := VK.Prune(d.votes, minRound))
  }

  function Perform(d: Driver, op: Op): Processed
    requires d.pending == []
  {
    match op
    case Call(input) => Process(d, input)
    case PruneBelow(r) => Processed(PruneDriver(d, r), Ok([]), [])
  }

  function Outputs(d: Driver, op: Op): seq<DriverOutput>
    requires d.pending == []
  {
    var r := Perform(d, op);
    if r.result.Ok? then r.result.value else []
  }

  /** Calls at one height, starting from a new driver. */
  predicate IsRun(height: Height, ds: seq<Driver>, ops: seq<Op>) {
    && |ds| == |ops| + 1
    && ds[0] == NewDriver(height, ds[0].votes.validators, ds[0].address, ds[0].votes.params)
    && forall i {:trigger ops[i]} :: 0 <= i < |ops| ==>
         && ds[i].pending == []
         && OpOk(ds[i], height, ops[i])
         && ds[i + 1] == Perform(ds[i], ops[i]).driver
  }

  predicate Leads(height: Height, d: Driver, op: Op, d': Driver) {
    d.pending == [] && OpOk(d, height, op) && d' == Perform(d, op).driver
  }

  lemma StepOf(height: Height, ds: seq<Driver>, ops: seq<Op>, i: nat)
    requires IsRun(height, ds, ops) && i < |ops|
    ensures Leads(height, ds[i], ops[i], ds[i + 1])
  {
  }

  lemma RunFromSteps(height: Height, ds: seq<Driver>, ops: seq<Op>)
    requires |ds| == |ops| + 1
    requires ds[0] == NewDriver(height, ds[0].votes.validators, ds[0].address, ds[0].votes.params)
    requires forall i {:trigger ops[i]} :: 0 <= i < |ops| ==> Leads(height, ds[i], ops[i], ds[i + 1])
    ensures IsRun(height, ds, ops)
  {
    forall i | 0 <= i < |ops|
      ensures ds[i].pending == [] && OpOk(ds[i], height, ops[i]) && ds[i + 1] == Perform(ds[i], ops[i]).driver
    {
      assert Leads(height, ds[i], ops[i], ds[i + 1]);
    }
  }

  lemma ExtendRun(height: Height, ds: seq<Driver>, ops: seq<Op>, op: Op, d': Driver)
    requires IsRun(height, ds, ops) && Leads(height, ds[|ops|], op, d')
    ensures IsRun(height, ds + [d'], ops + [op])
  {
    var ds', ops' := ds + [d'], ops + [op];
    forall i | 0 <= i < |ops'| ensures Leads(height, ds'[i], ops'[i], ds'[i + 1]) {
      if i < |ops| {
        StepOf(height, ds, ops, i);
        assert ds'[i] == ds[i] && ops'[i] == ops[i] && ds'[i + 1] == ds[i + 1];
      }
    }
    RunFromSteps(height, ds', ops');
  }

  /** Round starts are for this height; a round's proposals come from one validator. */
  predicate OpOk(d: Driver, height: Height, op: Op) {
    match op
    case Call(StartRound(h, _, _)) => h == height
    case Call(ReceiveProposal(sp, _)) => SameProposer(d, sp.message)
    case _ => true
  }

  /** Everything the driver has output in the first `n` calls. */
  function AllOutputs(height: Height, ds: seq<Driver>, ops: seq<Op>, n: nat): seq<DriverOutput>
    requires IsRun(height, ds, ops) && n <= |ops|
  {
    if n == 0 then [] else AllOutputs(height, ds, ops, n - 1) + Outputs(ds[n - 1], ops[n - 1])
  }

  // ---- Votes ----------------------------------------------------------------

  function LastVote(d: Driver, voteType: VoteType): Option<Vote> {
    if voteType == Prevote then d.lastPrevote else d.lastPrecommit
  }

  /** `earlier` may precede `later` in the output of a node that does not equivocate. */
  predicate Precedes(earlier: Vote, later: Vote) {
    earlier.voteType == later.voteType ==>
      && earlier.round <= later.round
      && (earlier.round == later.round ==> earlier == later)
  }

  predicate VotesOrdered(outputs: seq<DriverOutput>) {
    forall i, j :: 0 <= i < j < |outputs| && outputs[i].CastVote? && outputs[j].CastVote? ==>
      Precedes(outputs[i].vote, outputs[j].vote)
  }

  /** The last votes kept by the driver dominate all votes it has cast. */
  predicate Remembered(d: Driver, height: Height, outputs: seq<DriverOutput>) {
    forall i :: 0 <= i < |outputs| && outputs[i].CastVote? ==>
      var vote := outputs[i].vote;
      var last := LastVote(d, vote.voteType);
      && vote.height == height
      && last.Some? && last.value.voteType == vote.voteType && last.value.height == height
      && Precedes(vote, last.value)
  }

  /** Votes are cast at this height only. */
  predicate AtHeight(d: Driver, height: Height) {
    d.roundState.height == height || d.roundState.step == Unstarted || d.roundState.step == Committed
  }

  predicate LastAtHeight(d: Driver, height: Height) {
    && (d.lastPrevote.Some? ==> d.lastPrevote.value.height == height)
    && (d.lastPrecommit.Some? ==> d.lastPrecommit.value.height == height)
  }

  predicate NoEquivocation(d: Driver, height: Height, outputs: seq<DriverOutput>) {
    && AtHeight(d, height)
    && LastAtHeight(d, height)
    && Remembered(d, height, outputs)
    && VotesOrdered(outputs)
  }

  /** Lifting a vote for the round the driver is in. */
  lemma LiftKeepsOrder(d: Driver, height: Height, outputs: seq<DriverOutput>, output: Output)
    requires NoEquivocation(d, height, outputs) && VoteOfHeight(d, output)
    requires output.VoteOutput? ==> output.vote.round == d.roundState.round && output.vote.height == height
    ensures NoEquivocation(Lift(d, output).0, height, outputs + Lift(d, output).1)
  {
  }

  lemma FeedOneKeepsOrder(d: Driver, height: Height, round: Round, input: Input, outputs: seq<DriverOutput>)
    requires NoEquivocation(d, height, outputs)
    requires input.NewRound? ==> d.roundState.height == height
    requires FeedOne(d, round, input, outputs).result.Ok?
    ensures var r := FeedOne(d, round, input, outputs); NoEquivocation(r.driver, height, r.result.value)
  {
    var (d1, result) := ApplyInput(d, round, input);
    FeedOneFacts(d, round, input, outputs);
    var info := Info(round, d.address, GetProposer(d).value);
    StepChangeHasOutput(d.roundState, info, input);
    assert NoEquivocation(d1, height, outputs);
    if result.value.Some? {
      if result.value.value.VoteOutput? {
        VoteComesFromStep(d.roundState, info, input);
      }
      LiftKeepsOrder(d1, height, outputs, result.value.value);
    }
  }

  lemma {:induction false} ChainKeepsOrder(d: Driver, height: Height, outputs: seq<DriverOutput>, fed: seq<Fed>,
                                           d': Driver, outputs': seq<DriverOutput>)
    requires Chain(d, outputs, fed, d', outputs') && NoEquivocation(d, height, outputs)
    requires fed != [] ==> (fed[0].input.NewRound? ==> d.roundState.height == height) && AllStay(fed[1..])
    ensures NoEquivocation(d', height, outputs')
    decreases |fed|
  {
    if fed != [] {
      FeedOneKeepsOrder(fed[0].driver, height, fed[0].round, fed[0].input, outputs);
      var first := FeedOne(fed[0].driver, fed[0].round, fed[0].input, outputs);
      if |fed| > 1 {
        assert fed[1] in fed[1..] && fed[1..][0] == fed[1];
        assert forall f :: f in fed[1..][1..] ==> f in fed[1..];
      }
      ChainKeepsOrder(first.driver, height, first.result.value, fed[1..], d', outputs');
    }
  }

  /** Outputs already made do not influence a chain. */
  lemma {:induction false} ChainAfter(before: seq<DriverOutput>, d: Driver, outputs: seq<DriverOutput>, fed: seq<Fed>,
                                      d': Driver, outputs': seq<DriverOutput>)
    requires Chain(d, outputs, fed, d', outputs')
    ensures Chain(d, before + outputs, fed, d', before + outputs')
    decreases |fed|
  {
    if fed != [] {
      var first := FeedOne(fed[0].driver, fed[0].round, fed[0].input, outputs);
      var first' := FeedOne(fed[0].driver, fed[0].round, fed[0].input, before + outputs);
      FeedOneFacts(fed[0].driver, fed[0].round, fed[0].input, outputs);
      FeedOneFacts(fed[0].driver, fed[0].round, fed[0].input, before + outputs);
      assert first'.result.value == before + first.result.value;
      assert first'.driver == first.driver;
      ChainAfter(before, first.driver, first.result.value, fed[1..], d', outputs');
    }
  }

  lemma PerformKeepsOrder(d: Driver, height: Height, before: seq<DriverOutput>, op: Op, d': Driver)
    requires Leads(height, d, op, d') && NoEquivocation(d, height, before)
    ensures d'.pending == [] && NoEquivocation(d', height, before + Outputs(d, op))
  {
    var r := Perform(d, op);
    assert before + [] == before;
    if op.Call? {
      ProcessIsChain(d, op.input);
      DispatchFrame(d, op.input);
      var (d1, choice) := Dispatch(d, op.input);
      assert NoEquivocation(d1, height, before);
      if choice.Ok? && choice.value.Some? && GetProposer(d1).Ok? {
        ChainAfter(before, d1, [], r.fed, r.driver, r.result.value);
        if r.fed[0].input.NewRound? {
          OnlyStartRoundStarts(d, op.input);
        }
        ChainKeepsOrder(d1, height, before, r.fed, r.driver, before + r.result.value);
      }
    }
  }

  /** `NewRound` is fed only for a round start, which sets the height first. */
  lemma OnlyStartRoundStarts(d: Driver, input: DriverInput)
    ensures var (d1, choice) := Dispatch(d, input);
            choice.Ok? && choice.value.Some? && choice.value.value.1.NewRound? ==>
              && input.StartRound?
              && d1.roundState.height == input.height
              && choice.value.value == (input.round, NewRound(input.round))
  {
  }

  /** Nothing is pending after `n` calls, and the votes cast so far are in order. */
  predicate OrderedAt(height: Height, ds: seq<Driver>, ops: seq<Op>, n: nat)
    requires IsRun(height, ds, ops)
  {
    n <= |ops| && ds[n].pending == [] && NoEquivocation(ds[n], height, AllOutputs(height, ds, ops, n))
  }

  lemma OrderedAtStart(height: Height, ds: seq<Driver>, ops: seq<Op>)
    requires IsRun(height, ds, ops)
    ensures OrderedAt(height, ds, ops, 0)
  {
  }

  lemma NextKeepsOrder(height: Height, ds: seq<Driver>, ops: seq<Op>, n: nat)
    requires IsRun(height, ds, ops) && n < |ops| && OrderedAt(height, ds, ops, n)
    ensures OrderedAt(height, ds, ops, n + 1)
  {
    var before := AllOutputs(height, ds, ops, n);
    StepOf(height, ds, ops, n);
    PerformKeepsOrder(ds[n], height, before, ops[n], ds[n + 1]);
  }

  lemma {:induction false} RunKeepsOrder(height: Height, ds: seq<Driver>, ops: seq<Op>, n: nat)
    requires IsRun(height, ds, ops) && n <= |ops|
    ensures OrderedAt(height, ds, ops, n)
  {
    if n == 0 {
      OrderedAtStart(height, ds, ops);
    } else {
      RunKeepsOrder(height, ds, ops, n - 1);
      NextKeepsOrder(height, ds, ops, n - 1);
    }
  }

  /**
    No equivocation: whatever inputs a driver receives at a height, in whatever order and with
    rounds going back, the votes it casts of one type have rounds that never decrease, and two
    votes for one round are the same vote.
  */
  lemma DriverNeverEquivocates(height: Height, ds: seq<Driver>, ops: seq<Op>, i: nat, j: nat)
    requires IsRun(height, ds, ops)
    requires var outputs := AllOutputs(height, ds, ops, |ops|);
             i < j < |outputs| && outputs[i].CastVote? && outputs[j].CastVote?
    ensures var outputs := AllOutputs(height, ds, ops, |ops|);
            var v, v' := outputs[i].vote, outputs[j].vote;
            v.voteType == v'.voteType ==> v.round <= v'.round && (v.round == v'.round ==> v == v')
  {
    RunKeepsOrder(height, ds, ops, |ops|);
  }
}
