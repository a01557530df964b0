/**
  The whole engine: correct nodes run drivers over the network of votes. Each call of a
  driver is a chain of guarded state machine steps, so agreement carries over from the
  state machine to the drivers.
*/
module Engine {
  import opened Types
  import opened Quorum
  import opened StateMachine
  import opened Certificates
  import opened DriverModel
  import opened DriverRuns
  import opened DriverBacking
  import opened DriverOutputs
  import A = Agreement
  import VK = VoteKeeping

  datatype EngineState = EngineState(votes: set<Vote>, drivers: map<Address, Driver>, timers: set<(Address, Timeout)>)

  datatype EngineAction = Perform(node: Address, op: Op) | FaultyVote(vote: Vote)

  /**
    The messages a driver receives are genuine: votes were sent, and certificates that passed
    verification stand for votes that were sent.
  */
  predicate Genuine(c: A.Config, votes: set<Vote>, input: DriverInput) {
    match input
    case ReceiveVote(sv) => sv.vote in votes
    case ReceivePolka(p) => p.height == c.height ==> A.HasPolka(c, votes, p.round, p.valueId)
    case ReceiveCommit(m) => m.height == c.height ==> A.HasQuorum(c, votes, VoteType.Precommit, m.round, Val(m.valueId))
    case _ => true
  }

  predicate Enabled(c: A.Config, e: EngineState, a: EngineAction) {
    match a
    case Perform(n, op) =>
      && A.Correct(c, n) && n in e.drivers
      && e.drivers[n].pending == []
      && OpOk(e.drivers[n], c.height, op)
      && ProposerKnown(e.drivers[n], op)
      && (op.Call? ==> Genuine(c, e.votes, op.input) && StartsForward(e.drivers[n], op.input))
    case FaultyVote(v) => !A.Correct(c, v.address)
  }

  /** Round starts do not go back. */
  predicate StartsForward(d: Driver, input: DriverInput) {
    input.StartRound? ==> input.round >= d.roundState.round
  }

  /** The votes cast among outputs. */
  function CastIn(outputs: seq<DriverOutput>): set<Vote> {
    set o | o in outputs && o.CastVote? :: o.vote
  }

  /** The timeouts scheduled among outputs. */
  function TimersIn(n: Address, outputs: seq<DriverOutput>): set<(Address, Timeout)> {
    set o | o in outputs && o.StartTimeout? :: (n, o.timeout)
  }

  function After(c: A.Config, e: EngineState, a: EngineAction): EngineState
    requires Enabled(c, e, a)
  {
    match a
    case Perform(n, op) =>
      var outputs := Outputs(e.drivers[n], op);
      EngineState(e.votes + CastIn(outputs),
                  e.drivers[n := DriverRuns.Perform(e.drivers[n], op).driver],
                  e.timers + TimersIn(n, outputs))
    case FaultyVote(v) => e.(votes := e.votes + {v})
  }

  ghost predicate Init(c: A.Config, e: EngineState) {
    && e.votes == {} && e.timers == {}
    && forall n :: A.Correct(c, n) ==>
         n in e.drivers && e.drivers[n] == NewDriver(c.height, c.validators, n, DEFAULT_PARAMS)
  }

  ghost predicate Run(c: A.Config, run: seq<EngineState>, actions: seq<EngineAction>) {
    && |run| == |actions| + 1
    && Init(c, run[0])
    && forall i {:trigger actions[i]} :: 0 <= i < |actions| ==>
         Enabled(c, run[i], actions[i]) && run[i + 1] == After(c, run[i], actions[i])
  }

  /** No polka input fed in a call rests on a certificate found for another value. */
  predicate NotMisled(fed: seq<Fed>) {
    forall f :: f in fed ==>
      var claim := PolkaClaim(f.input);
      claim.Some? ==> !Misled(f.driver, claim.value.0, claim.value.1)
  }

  predicate SoundCall(e: EngineState, a: EngineAction) {
    a.Perform? && a.op.Call? && a.node in e.drivers && e.drivers[a.node].pending == [] ==>
      NotMisled(Process(e.drivers[a.node], a.op.input).fed)
  }

  ghost predicate SoundLookups(run: seq<EngineState>, actions: seq<EngineAction>) {
    forall i {:trigger actions[i]} :: 0 <= i < |actions| && i < |run| ==> SoundCall(run[i], actions[i])
  }

  /** Round starts echo the round the driver is in, and precommit timeouts fire only if scheduled. */
  predicate TimedCall(e: EngineState, a: EngineAction) {
    a.Perform? && a.op.Call? && a.node in e.drivers ==>
      match a.op.input
      case StartRound(_, r, _) => A.EchoesRound(e.drivers[a.node].roundState, r)
      case TimeoutElapsed(t) => t.kind == PrecommitKind ==> (a.node, t) in e.timers
      case _ => true
  }

  ghost predicate TimedCalls(run: seq<EngineState>, actions: seq<EngineAction>) {
    forall i {:trigger actions[i]} :: 0 <= i < |actions| && i < |run| ==> TimedCall(run[i], actions[i])
  }

  // ---- What a driver holds comes from the network ---------------------------

  /** The votes a driver has recorded were sent. */
  predicate VotesSent(c: A.Config, votes: set<Vote>, k: VK.Ledger) {
    && k.validators == c.validators
    && k.params == DEFAULT_PARAMS
    && forall r, sv :: r in k.rounds && sv in k.rounds[r].received ==>
         sv.vote in votes && sv.vote.round == r && sv.vote.height == c.height
  }

  predicate CertificatesSent(c: A.Config, votes: set<Vote>, d: Driver) {
    && (forall p :: p in d.polkaCertificates ==> A.HasPolka(c, votes, p.round, p.valueId))
    && (forall m :: m in d.commitCertificates ==>
          A.HasQuorum(c, votes, VoteType.Precommit, m.round, Val(m.valueId)))
  }

  ghost predicate Linked(c: A.Config, votes: set<Vote>, n: Address, d: Driver) {
    && d.address == n
    && d.pending == []
    && d.roundState.height == c.height
    && VotesSent(c, votes, d.votes)
    && CertificatesSent(c, votes, d)
    && exists valid :: ProposalsOk(d, valid)
  }

  lemma CountedQuorumIsSent(c: A.Config, votes: set<Vote>, k: VK.Ledger, r: Round, t: VoteType, id: ValueId)
    requires VotesSent(c, votes, k) && VK.ThresholdMet(k, r, t, VK.ValueThreshold(id))
    ensures A.HasQuorum(c, votes, t, r, Val(id))
  {
    PowerMonotone(c.validators, VK.Voters(k.rounds[r].received, t, Val(id)), A.VotersFor(c, votes, t, r, Val(id)));
  }

  lemma CountedAnyIsSent(c: A.Config, votes: set<Vote>, k: VK.Ledger, r: Round)
    requires VotesSent(c, votes, k) && VK.ThresholdMet(k, r, VoteType.Precommit, VK.AnyThreshold)
    ensures A.HasQuorumAny(c, votes, VoteType.Precommit, r)
  {
    PowerMonotone(c.validators, VK.VotersOf(k.rounds[r].received, VoteType.Precommit),
                  A.VotersIn(c, votes, VoteType.Precommit, r));
  }

  lemma CountedSkipIsSent(c: A.Config, votes: set<Vote>, k: VK.Ledger, r: Round)
    requires VotesSent(c, votes, k) && VK.SkipMet(k, VK.TallyAt(k, r))
    ensures IsHonestThreshold(c.validators, A.VotersAtRound(c, votes, r))
  {
    PowerMonotone(c.validators, VK.AllVoters(VK.TallyAt(k, r).received), A.VotersAtRound(c, votes, r));
  }

  lemma KnownPolkaIsSent(c: A.Config, votes: set<Vote>, d: Driver, r: Round, id: ValueId)
    requires VotesSent(c, votes, d.votes) && CertificatesSent(c, votes, d) && PolkaKnown(d, r, id)
    ensures A.HasPolka(c, votes, r, id)
  {
    if VotesMeet(d, r, VoteType.Prevote, VK.ValueThreshold(id)) {
      CountedQuorumIsSent(c, votes, d.votes, r, VoteType.Prevote, id);
    }
  }

  lemma KnownCommitIsSent(c: A.Config, votes: set<Vote>, d: Driver, r: Round, id: ValueId)
    requires VotesSent(c, votes, d.votes) && CertificatesSent(c, votes, d) && CommitKnown(d, r, id)
    ensures A.HasQuorum(c, votes, VoteType.Precommit, r, Val(id))
  {
    if VotesMeet(d, r, VoteType.Precommit, VK.ValueThreshold(id)) {
      CountedQuorumIsSent(c, votes, d.votes, r, VoteType.Precommit, id);
    }
  }

  lemma SentGrows(c: A.Config, votes: set<Vote>, votes': set<Vote>, d: Driver)
    requires votes <= votes' && VotesSent(c, votes, d.votes) && CertificatesSent(c, votes, d)
    ensures VotesSent(c, votes', d.votes) && CertificatesSent(c, votes', d)
  {
    A.QuorumGrows(c, votes, votes');
    forall p | p in d.polkaCertificates ensures A.HasPolka(c, votes', p.round, p.valueId) {
      assert A.HasPolka(c, votes, p.round, p.valueId);
    }
  }

  /** Recording a genuine vote records only votes sent. */
  lemma RecordKeepsSent(c: A.Config, votes: set<Vote>, k: VK.Ledger, sv: SignedVote, round: Round)
    requires VotesSent(c, votes, k) && sv.vote in votes && sv.vote.height == c.height
    ensures VotesSent(c, votes, VK.Record(k, sv, round).0)
  {
  }

  /** Storing a genuine message keeps the driver linked to the network. */
  lemma DispatchKeepsSent(c: A.Config, votes: set<Vote>, d: Driver, input: DriverInput)
    requires VotesSent(c, votes, d.votes) && CertificatesSent(c, votes, d)
    requires d.roundState.height == c.height && Genuine(c, votes, input)
    ensures var d' := Dispatch(d, input).0; VotesSent(c, votes, d'.votes) && CertificatesSent(c, votes, d')
  {
    if input.ReceiveVote? {
      var sv := input.signedVote;
      if sv.vote.height == c.height && sv.vote.address in Members(d.votes.validators) {
        RecordKeepsSent(c, votes, d.votes, sv, d.roundState.round);
        RecordedOutputIsMet(d, sv);
        var (k, o) := VK.Record(d.votes, sv, d.roundState.round);
        if o.Some? && o.value.PolkaValue? {
          CountedQuorumIsSent(c, votes, k, sv.vote.round, VoteType.Prevote, o.value.id);
        }
      }
    }
  }

  // ---- A call is a chain of steps of the network ----------------------------

  /** The system of state machines inside the drivers. */
  function Machines(e: EngineState): A.System {
    A.System(e.votes, map n | n in e.drivers :: e.drivers[n].roundState, e.timers)
  }

  /** What holds of the driver `d` of node `n` between two state machine steps of a call. */
  ghost predicate Stepping(c: A.Config, sys: A.System, n: Address, d: Driver) {
    && A.Correct(c, n)
    && n in sys.nodes && sys.nodes[n] == d.roundState
    && d.address == n
    && VotesSent(c, sys.votes, d.votes)
    && CertificatesSent(c, sys.votes, d)
  }

  /** What is kept: one vote per round, the invariant behind agreement, and that rounds are entered for a reason. */
  ghost predicate Kept(c: A.Config, sys: A.System, locking: bool, timed: bool) {
    && A.VotingInv(c, sys)
    && (locking ==> A.Inv(c, sys))
    && (timed ==> A.ConfigOk(c) && A.RoundsEarned(c, sys))
  }

  lemma BackedInputIsGuarded(c: A.Config, sys: A.System, n: Address, valid: set<Proposal>, d: Driver, round: Round,
                             input: Input)
    requires Stepping(c, sys, n, d) && Backed(d, valid, round, input) && Truthful(d, input)
    requires input.NewRound? ==> round >= d.roundState.round
    ensures A.Guard(c, sys.votes, d.roundState, round, input)
  {
    match input
    case ProposalAndPolkaPrevious(p) => KnownPolkaIsSent(c, sys.votes, d, p.polRound, p.value.id);
    case ProposalAndPolkaCurrent(p) => KnownPolkaIsSent(c, sys.votes, d, p.round, p.value.id);
    case ProposalAndPrecommitValue(p) => KnownCommitIsSent(c, sys.votes, d, p.round, p.value.id);
    case _ =>
  }

  lemma BackedInputIsTimed(c: A.Config, sys: A.System, n: Address, valid: set<Proposal>, d: Driver, round: Round,
                           input: Input)
    requires Stepping(c, sys, n, d) && Backed(d, valid, round, input)
    requires input.NewRound? ==> A.EchoesRound(d.roundState, input.newRound)
    requires input.TimeoutPrecommit? ==> (n, Timeout(round, PrecommitKind)) in sys.timers
    ensures A.TimedInput(c, sys, n, round, input)
  {
    match input
    case PrecommitAny => CountedAnyIsSent(c, sys.votes, d.votes, round);
    case SkipRound(r) => CountedSkipIsSent(c, sys.votes, d.votes, r);
    case _ =>
  }

  /** The system after node `n` moved to state `s` with these outputs. */
  function Moved(sys: A.System, n: Address, s: State, outputs: seq<DriverOutput>): A.System {
    A.System(sys.votes + CastIn(outputs), sys.nodes[n := s], sys.timers + TimersIn(n, outputs))
  }

  /** The outputs of one state machine step cast its vote or none, and schedule its timeouts. */
  lemma LiftedOutputs(d: Driver, output: Output)
    requires VoteOfHeight(d, output)
    ensures CastIn(Lift(d, output).1) == A.CastBy(Some(output)) || CastIn(Lift(d, output).1) == {}
    ensures TimersIn(d.address, Lift(d, output).1) == A.ScheduledBy(d.address, Some(output))
  {
    var outputs := Lift(d, output).1;
    match output
    case ScheduleTimeout(t) => assert outputs[0] == StartTimeout(t);
    case GetValueAndScheduleTimeout(_, _, t) => assert outputs[0] == StartTimeout(t);
    case _ =>
  }

  /** Feeding one input is one step of the network. */
  lemma FeedOneIsStep(c: A.Config, sys: A.System, n: Address, d: Driver, round: Round, input: Input,
                      outputs: seq<DriverOutput>)
    returns (withheld: bool)
    requires Stepping(c, sys, n, d) && GetProposer(d).Ok?
    ensures var r := FeedOne(d, round, input, outputs);
            && r.result.Ok? && outputs <= r.result.value
            && Moved(sys, n, r.driver.roundState, r.result.value[|outputs|..])
               == A.AfterApply(sys, n, Info(round, n, GetProposer(d).value), input, withheld)
            && Stepping(c, Moved(sys, n, r.driver.roundState, r.result.value[|outputs|..]), n, r.driver)
  {
    FeedOneFacts(d, round, input, outputs);
    var r := FeedOne(d, round, input, outputs);
    var t := Apply(d.roundState, Info(round, n, GetProposer(d).value), input);
    var lifted := if t.output.Some? then Lift(d.(roundState := t.next), t.output.value).1 else [];
    assert r.result.value[|outputs|..] == lifted;
    if t.output.Some? {
      LiftedOutputs(d.(roundState := t.next), t.output.value);
    }
    withheld := CastIn(lifted) == {};
    SentGrows(c, sys.votes, sys.votes + CastIn(lifted), d);
  }

  /** What the first input fed in a call must satisfy besides being backed. */
  ghost predicate FirstOk(sys: A.System, n: Address, d: Driver, fed: seq<Fed>, timed: bool) {
    fed != [] ==>
      && (fed[0].input.NewRound? ==> fed[0].round >= d.roundState.round)
      && AllStay(fed[1..])
      && (timed && fed[0].input.NewRound? ==> A.EchoesRound(d.roundState, fed[0].input.newRound))
      && (timed && fed[0].input.TimeoutPrecommit? ==> (n, Timeout(fed[0].round, PrecommitKind)) in sys.timers)
  }

  lemma FeedOneKeeps(c: A.Config, sys: A.System, n: Address, valid: set<Proposal>, f: Fed, outputs: seq<DriverOutput>,
                     locking: bool, timed: bool)
    requires Stepping(c, sys, n, f.driver) && Kept(c, sys, locking, timed) && GetProposer(f.driver).Ok?
    requires FedBacked(valid, [f], true) && FirstOk(sys, n, f.driver, [f], timed) && (locking ==> NotMisled([f]))
    ensures var r := FeedOne(f.driver, f.round, f.input, outputs);
            && r.result.Ok? && outputs <= r.result.value
            && Stepping(c, Moved(sys, n, r.driver.roundState, r.result.value[|outputs|..]), n, r.driver)
            && Kept(c, Moved(sys, n, r.driver.roundState, r.result.value[|outputs|..]), locking, timed)
  {
    var d, round, input := f.driver, f.round, f.input;
    assert f in [f];
    var withheld := FeedOneIsStep(c, sys, n, d, round, input, outputs);
    var info := Info(round, n, GetProposer(d).value);
    A.ReceiveKeepsVoting(c, sys, n, info, input, withheld);
    if locking {
      BackedInputIsGuarded(c, sys, n, valid, d, round, input);
      A.StepKeepsInv(c, sys, A.Receive(n, info, input, withheld));
    }
    if timed {
      BackedInputIsTimed(c, sys, n, valid, d, round, input);
      A.ReceiveKeepsRoundsEarned(c, sys, n, info, input, withheld);
    }
  }

  lemma SteppingFrame(c: A.Config, sys: A.System, n: Address, d: Driver, d': Driver)
    requires Stepping(c, sys, n, d) && SameButPending(d, d')
    ensures Stepping(c, sys, n, d')
  {
  }

  lemma TailIsFirstOk(sys: A.System, n: Address, d: Driver, fed: seq<Fed>, timed: bool)
    requires fed != [] && AllStay(fed[1..])
    ensures FirstOk(sys, n, d, fed[1..], timed)
  {
    if |fed| > 1 {
      assert fed[1..][0] in fed[1..];
    }
  }

  lemma MovedTwice(sys: A.System, n: Address, s: State, s': State, outputs: seq<DriverOutput>,
                   middle: seq<DriverOutput>,
                   outputs': seq<DriverOutput>)
    requires outputs <= middle <= outputs'
    ensures Moved(Moved(sys, n, s, middle[|outputs|..]), n, s', outputs'[|middle|..]) ==
              Moved(sys, n, s', outputs'[|outputs|..])
  {
    assert outputs'[|outputs|..] == middle[|outputs|..] + outputs'[|middle|..];
  }

  lemma {:induction false} ChainKeeps(c: A.Config, sys: A.System, n: Address, valid: set<Proposal>, d: Driver,
                                      outputs: seq<DriverOutput>, fed: seq<Fed>, d': Driver,
                                      outputs': seq<DriverOutput>,
                                      locking: bool, timed: bool)
    requires Chain(d, outputs, fed, d', outputs') && Stepping(c, sys, n, d) && Kept(c, sys, locking, timed)
    requires FedBacked(valid, fed, true) && FirstOk(sys, n, d, fed, timed) && (locking ==> NotMisled(fed))
    ensures outputs <= outputs'
    ensures Stepping(c, Moved(sys, n, d'.roundState, outputs'[|outputs|..]), n, d')
    ensures Kept(c, Moved(sys, n, d'.roundState, outputs'[|outputs|..]), locking, timed)
    decreases |fed|
  {
    if fed == [] {
      assert Moved(sys, n, d'.roundState, outputs'[|outputs|..]) == sys;
      SteppingFrame(c, sys, n, d, d');
    } else {
      var f, first := FirstStep(d, outputs, fed, d', outputs');
      var middle := first.result.value;
      SteppingFrame(c, sys, n, d, f.driver);
      FeedOneFacts(f.driver, f.round, f.input, outputs);
      FeedOneKeeps(c, sys, n, valid, f, outputs, locking, timed);
      var sys1 := Moved(sys, n, first.driver.roundState, middle[|outputs|..]);
      TailIsFirstOk(sys1, n, first.driver, fed, timed);
      assert forall x :: x in fed[1..] ==> x in fed;
      ChainKeeps(c, sys1, n, valid, first.driver, middle, fed[1..], d', outputs', locking, timed);
      MovedTwice(sys, n, first.driver.roundState, d'.roundState, outputs, middle, outputs');
    }
  }

  // ---- Runs -----------------------------------------------------------------

  ghost predicate AllLinked(c: A.Config, e: EngineState) {
    forall n :: A.Correct(c, n) ==> n in e.drivers && Linked(c, e.votes, n, e.drivers[n])
  }

  ghost predicate EngineInv(c: A.Config, e: EngineState, locking: bool, timed: bool) {
    AllLinked(c, e) && Kept(c, Machines(e), locking, timed)
  }

  /** Storing the message of a call is a step of the network, a round reset or none. */
  lemma DispatchIsStep(c: A.Config, e: EngineState, n: Address, input: DriverInput, locking: bool, timed: bool)
    requires EngineInv(c, e, locking, timed) && Enabled(c, e, Perform(n, Call(input)))
    requires timed ==> TimedCall(e, Perform(n, Call(input)))
    ensures var d1 := Dispatch(e.drivers[n], input).0;
            var sys := Moved(Machines(e), n, d1.roundState, []);
            Stepping(c, sys, n, d1) && Kept(c, sys, locking, timed)
  {
    var d, sys := e.drivers[n], Machines(e);
    var d1 := Dispatch(d, input).0;
    DispatchFrame(d, input);
    DispatchKeepsSent(c, e.votes, d, input);
    var sys1 := Moved(sys, n, d1.roundState, []);
    if input.StartRound? {
      var reset := A.ResetRound(n, input.round);
      assert A.After(c, sys, reset) == sys1;
      A.StepKeepsVoting(c, sys, reset);
      if locking {
        A.StepKeepsInv(c, sys, reset);
      }
      if timed {
        A.TimedStepKeepsRoundsEarned(c, sys, reset);
      }
    } else {
      assert sys1 == sys;
    }
  }

  lemma MovedAgain(sys: A.System, n: Address, s: State, s': State, outputs: seq<DriverOutput>)
    ensures Moved(Moved(sys, n, s, []), n, s', outputs[0..]) == Moved(sys, n, s', outputs)
  {
    assert outputs[0..] == outputs;
  }

  lemma ChainIsSteps(c: A.Config, sys: A.System, n: Address, valid: set<Proposal>, d: Driver, fed: seq<Fed>, d': Driver,
                     outputs: seq<DriverOutput>, locking: bool, timed: bool)
    requires var sys1 := Moved(sys, n, d.roundState, []);
             Stepping(c, sys1, n, d) && Kept(c, sys1, locking, timed) && FirstOk(sys1, n, d, fed, timed)
    requires Chain(d, [], fed, d', outputs) && FedBacked(valid, fed, true) && (locking ==> NotMisled(fed))
    ensures var sys' := Moved(sys, n, d'.roundState, outputs);
            Stepping(c, sys', n, d') && Kept(c, sys', locking, timed) && d'.roundState.height == d.roundState.height
  {
    var sys1 := Moved(sys, n, d.roundState, []);
    ChainKeeps(c, sys1, n, valid, d, [], fed, d', outputs, locking, timed);
    ChainKeepsHeight(d, [], fed, d', outputs);
    MovedAgain(sys, n, d.roundState, d'.roundState, outputs);
  }

  /** Timeouts are fed as they fired, and round starts as they were asked for. */
  lemma FirstIsOk(c: A.Config, e: EngineState, n: Address, input: DriverInput, timed: bool)
    requires Enabled(c, e, Perform(n, Call(input)))
    requires timed ==> TimedCall(e, Perform(n, Call(input)))
    ensures var (d1, choice) := Dispatch(e.drivers[n], input);
            choice.Ok? && choice.value.Some? ==>
              var (round, i) := choice.value.value;
              && (i.NewRound? ==> round >= d1.roundState.round && A.EchoesRound(d1.roundState, i.newRound))
              && (timed && i.TimeoutPrecommit? ==> (n, Timeout(round, PrecommitKind)) in e.timers)
  {
  }

  /** The state machine steps of a call, seen from the network. */
  lemma CallIsSteps(c: A.Config, e: EngineState, n: Address, input: DriverInput, valid: set<Proposal>, locking: bool,
                    timed: bool)
    requires EngineInv(c, e, locking, timed) && Enabled(c, e, Perform(n, Call(input)))
             && ProposalsOk(e.drivers[n], valid)
    requires locking ==> SoundCall(e, Perform(n, Call(input)))
    requires timed ==> TimedCall(e, Perform(n, Call(input)))
    ensures var d := e.drivers[n];
            var r := Process(d, input);
            var sys := Moved(Machines(e), n, r.driver.roundState, Outputs(d, Call(input)));
            Stepping(c, sys, n, r.driver) && Kept(c, sys, locking, timed) && r.driver.roundState.height == c.height
  {
    var d, sys := e.drivers[n], Machines(e);
    EveryFedInputIsBacked(d, valid, input);
    ProcessIsChain(d, input);
    DispatchIsStep(c, e, n, input, locking, timed);
    DispatchFrame(d, input);
    FirstIsOk(c, e, n, input, timed);
    var (d1, choice) := Dispatch(d, input);
    var r := Process(d, input);
    if choice.Ok? && choice.value.Some? {
      OnlyStartRoundStarts(d, input);
      ChainIsSteps(c, sys, n, ValidAfter(valid, input), d1, r.fed, r.driver, r.result.value, locking, timed);
    }
  }

  lemma MachinesMove(e: EngineState, n: Address, d: Driver, outputs: seq<DriverOutput>)
    ensures Machines(EngineState(e.votes + CastIn(outputs), e.drivers[n := d], e.timers + TimersIn(n, outputs)))
         == Moved(Machines(e), n, d.roundState, outputs)
  {
  }

  /** A call keeps what is kept, and the driver linked to the network. */
  lemma CallKeepsInv(c: A.Config, e: EngineState, n: Address, input: DriverInput, locking: bool, timed: bool)
    requires EngineInv(c, e, locking, timed) && Enabled(c, e, Perform(n, Call(input)))
    requires locking ==> SoundCall(e, Perform(n, Call(input)))
    requires timed ==> TimedCall(e, Perform(n, Call(input)))
    ensures var e' := After(c, e, Perform(n, Call(input)));
            Kept(c, Machines(e'), locking, timed) && Linked(c, e'.votes, n, e'.drivers[n])
  {
    var d := e.drivers[n];
    var valid :| ProposalsOk(d, valid);
    CallIsSteps(c, e, n, input, valid, locking, timed);
    MachinesMove(e, n, Process(d, input).driver, Outputs(d, Call(input)));
    EveryFedInputIsBacked(d, valid, input);
    ProcessIsChain(d, input);
  }

  lemma PruneKeepsInv(c: A.Config, e: EngineState, n: Address, minRound: Round, locking: bool, timed: bool)
    requires EngineInv(c, e, locking, timed) && Enabled(c, e, Perform(n, PruneBelow(minRound)))
    ensures var e' := After(c, e, Perform(n, PruneBelow(minRound)));
            Kept(c, Machines(e'), locking, timed) && Linked(c, e'.votes, n, e'.drivers[n])
  {
    var d := e.drivers[n];
    var d' := PruneDriver(d, minRound);
    MachinesMove(e, n, d', []);
    assert Moved(Machines(e), n, d'.roundState, []) == Machines(e);
    var valid :| ProposalsOk(d, valid);
    assert ProposalsOk(d', valid);
  }

  lemma FaultyVoteKeeps(c: A.Config, e: EngineState, v: Vote, locking: bool, timed: bool)
    requires EngineInv(c, e, locking, timed) && Enabled(c, e, FaultyVote(v))
    ensures Kept(c, Machines(After(c, e, FaultyVote(v))), locking, timed)
  {
    var sys, action := Machines(e), A.FaultyVote(v);
    assert Machines(After(c, e, FaultyVote(v))) == A.After(c, sys, action);
    A.StepKeepsVoting(c, sys, action);
    if locking {
      A.StepKeepsInv(c, sys, action);
    }
    if timed {
      A.TimedStepKeepsRoundsEarned(c, sys, action);
    }
  }

  lemma StepKeepsEngineInv(c: A.Config, e: EngineState, a: EngineAction, locking: bool, timed: bool)
    requires EngineInv(c, e, locking, timed) && Enabled(c, e, a)
    requires (locking ==> SoundCall(e, a)) && (timed ==> TimedCall(e, a))
    ensures EngineInv(c, After(c, e, a), locking, timed)
  {
    var e' := After(c, e, a);
    match a {
      case Perform(n, Call(input)) => CallKeepsInv(c, e, n, input, locking, timed);
      case Perform(n, PruneBelow(r)) => PruneKeepsInv(c, e, n, r, locking, timed);
      case FaultyVote(v) => FaultyVoteKeeps(c, e, v, locking, timed);
    }
    forall k | A.Correct(c, k) && k in e.drivers && e'.drivers[k] == e.drivers[k]
      ensures Linked(c, e'.votes, k, e'.drivers[k])
    {
      SentGrows(c, e.votes, e'.votes, e.drivers[k]);
    }
  }

  lemma InitialEngineInv(c: A.Config, e: EngineState, locking: bool, timed: bool)
    requires Init(c, e) && (timed ==> A.ConfigOk(c))
    ensures EngineInv(c, e, locking, timed)
  {
    forall n | A.Correct(c, n) ensures Linked(c, {}, n, e.drivers[n]) {
      assert ProposalsOk(e.drivers[n], {});
    }
  }

  lemma StepOfRun(c: A.Config, run: seq<EngineState>, actions: seq<EngineAction>, i: nat)
    requires Run(c, run, actions) && i < |actions|
    ensures Enabled(c, run[i], actions[i]) && run[i + 1] == After(c, run[i], actions[i])
    ensures SoundLookups(run, actions) ==> SoundCall(run[i], actions[i])
    ensures TimedCalls(run, actions) ==> TimedCall(run[i], actions[i])
  {
  }

  lemma NextKeepsEngineInv(c: A.Config, run: seq<EngineState>, actions: seq<EngineAction>, i: nat, locking: bool,
                           timed: bool)
    requires Run(c, run, actions) && i < |actions| && EngineInv(c, run[i], locking, timed)
    requires (locking ==> SoundLookups(run, actions)) && (timed ==> A.ConfigOk(c) && TimedCalls(run, actions))
    ensures EngineInv(c, run[i + 1], locking, timed)
  {
    StepOfRun(c, run, actions, i);
    StepKeepsEngineInv(c, run[i], actions[i], locking, timed);
  }

  lemma {:induction false} RunKeepsEngineInv(c: A.Config, run: seq<EngineState>, actions: seq<EngineAction>, i: nat,
                                             locking: bool, timed: bool)
    requires Run(c, run, actions) && i < |run|
    requires (locking ==> SoundLookups(run, actions)) && (timed ==> A.ConfigOk(c) && TimedCalls(run, actions))
    ensures EngineInv(c, run[i], locking, timed)
  {
    if i == 0 {
      InitialEngineInv(c, run[0], locking, timed);
    } else {
      RunKeepsEngineInv(c, run, actions, i - 1, locking, timed);
      NextKeepsEngineInv(c, run, actions, i - 1, locking, timed);
    }
  }

  lemma {:induction false} SentVotesGrow(c: A.Config, run: seq<EngineState>, actions: seq<EngineAction>, i: nat, j: nat)
    requires Run(c, run, actions) && i <= j < |run|
    ensures run[i].votes <= run[j].votes
    decreases j - i
  {
    if i < j {
      SentVotesGrow(c, run, actions, i, j - 1);
      assert run[j] == After(c, run[j - 1], actions[j - 1]);
    }
  }

  /** The precommit quorum behind a decision, seen at the end of the run. */
  lemma DecisionQuorumAtEnd(c: A.Config, run: seq<EngineState>, actions: seq<EngineAction>, i: nat, n: Address)
    requires Run(c, run, actions) && SoundLookups(run, actions) && i < |run|
    requires A.Correct(c, n) && n in run[i].drivers && run[i].drivers[n].roundState.decision.Some?
    ensures var d := run[i].drivers[n].roundState.decision.value;
            A.HasQuorum(c, run[|run| - 1].votes, VoteType.Precommit, d.round, Val(d.value.id))
  {
    RunKeepsEngineInv(c, run, actions, i, true, false);
    var sys := Machines(run[i]);
    assert sys.nodes[n].decision == run[i].drivers[n].roundState.decision;
    SentVotesGrow(c, run, actions, i, |run| - 1);
    A.QuorumGrows(c, run[i].votes, run[|run| - 1].votes);
  }

  /**
    Agreement for the whole engine: the decisions of any two correct drivers are for the same
    value, whatever moments of a run and whatever rounds they were taken in, as long as no polka
    input fed rests on a certificate found for another value.
  */
  lemma DriversAgree(c: A.Config, run: seq<EngineState>, actions: seq<EngineAction>, i: nat, j: nat, n: Address,
                     n': Address)
    requires A.ConfigOk(c) && Run(c, run, actions) && SoundLookups(run, actions) && i < |run| && j < |run|
    requires A.Correct(c, n) && n in run[i].drivers && run[i].drivers[n].roundState.decision.Some?
    requires A.Correct(c, n') && n' in run[j].drivers && run[j].drivers[n'].roundState.decision.Some?
    ensures run[i].drivers[n].roundState.decision.value.value.id ==
              run[j].drivers[n'].roundState.decision.value.value.id
  {
    DecisionQuorumAtEnd(c, run, actions, i, n);
    DecisionQuorumAtEnd(c, run, actions, j, n');
    RunKeepsEngineInv(c, run, actions, |run| - 1, true, false);
    var last := run[|run| - 1];
    var d, d' := run[i].drivers[n].roundState.decision.value, run[j].drivers[n'].roundState.decision.value;
    A.QuorumsAgree(c, Machines(last), d.round, d.value.id, d'.round, d'.value.id);
  }

  /**
    Round legitimacy for the whole engine: a correct driver in a round implies that more than two
    thirds of the power precommitted in every earlier round. Lookups may be misled.
  */
  lemma DriverRoundsAreEarned(c: A.Config, run: seq<EngineState>, actions: seq<EngineAction>, i: nat, n: Address,
                              q: Round)
    requires A.ConfigOk(c) && Run(c, run, actions) && TimedCalls(run, actions) && i < |run|
    requires A.Correct(c, n) && n in run[i].drivers && 0 <= q < run[i].drivers[n].roundState.round
    ensures A.HasQuorumAny(c, run[i].votes, VoteType.Precommit, q)
  {
    RunKeepsEngineInv(c, run, actions, i, false, true);
    var sys := Machines(run[i]);
    assert sys.nodes[n] == run[i].drivers[n].roundState;
    A.EarnedDownwards(c, sys, sys.nodes[n].round, q);
  }

  // ---- Proposals ------------------------------------------------------------

  lemma CallBroadcasts(c: A.Config, e: EngineState, n: Address, input: DriverInput, p: Proposal, locking: bool)
    requires EngineInv(c, e, locking, false) && Enabled(c, e, Perform(n, Call(input)))
    requires BroadcastProposal(p) in Outputs(e.drivers[n], Call(input)) && p.polRound >= 0
    ensures p.polRound < p.round && (locking ==> A.HasPolka(c, e.votes, p.polRound, p.value.id))
  {
    BroadcastIff(e.drivers[n], input, p);
    assert Machines(e).nodes[n] == e.drivers[n].roundState;
  }

  /** A proposal that names a polka is of a later round, and the polka it names is there. */
  lemma BroadcastHasPolka(c: A.Config, run: seq<EngineState>, actions: seq<EngineAction>, i: nat, p: Proposal)
    requires Run(c, run, actions) && i < |actions| && actions[i].Perform? && actions[i].op.Call?
    requires BroadcastProposal(p) in Outputs(run[i].drivers[actions[i].node], actions[i].op) && p.polRound >= 0
    ensures p.polRound < p.round
    ensures SoundLookups(run, actions) ==> A.HasPolka(c, run[i].votes, p.polRound, p.value.id)
  {
    StepOfRun(c, run, actions, i);
    if SoundLookups(run, actions) {
      RunKeepsEngineInv(c, run, actions, i, true, false);
      CallBroadcasts(c, run[i], actions[i].node, actions[i].op.input, p, true);
    } else {
      RunKeepsEngineInv(c, run, actions, i, false, false);
      CallBroadcasts(c, run[i], actions[i].node, actions[i].op.input, p, false);
    }
  }

  // ---- When a polka input is true -------------------------------------------

  /** Every certificate held for the round is for this value, or our own count meets it. */
  predicate LookupIsRight(d: Driver, round: Round, id: ValueId) {
    || VotesMeet(d, round, VoteType.Prevote, VK.ValueThreshold(id))
    || forall x :: x in d.polkaCertificates && x.round == round ==> x.valueId == id
  }

  /** The driver that feeds an input holds what the driver held when the call's message was stored. */
  lemma {:induction false} ChainStores(d: Driver, outputs: seq<DriverOutput>, fed: seq<Fed>, d': Driver,
                                       outputs': seq<DriverOutput>)
    requires Chain(d, outputs, fed, d', outputs')
    ensures forall f :: f in fed ==> SameStores(d, f.driver)
    decreases |fed|
  {
    if fed != [] {
      var f, first := FirstStep(d, outputs, fed, d', outputs');
      FeedOneFacts(f.driver, f.round, f.input, outputs);
      ChainStores(first.driver, first.result.value, fed[1..], d', outputs');
      assert forall x :: x in fed ==> x == f || x in fed[1..];
    }
  }

  lemma PolkaIsTrueIff(c: A.Config, sys: A.System, d: Driver, valid: set<Proposal>, round: Round, input: Input)
    requires A.ConfigOk(c) && A.VotingInv(c, sys) && VotesSent(c, sys.votes, d.votes)
             && CertificatesSent(c, sys.votes, d)
    requires Backed(d, valid, round, input) && PolkaClaim(input).Some?
    ensures var (r, id) := PolkaClaim(input).value;
            A.HasPolka(c, sys.votes, r, id) <==> LookupIsRight(d, r, id)
  {
    var (r, id) := PolkaClaim(input).value;
    if LookupIsRight(d, r, id) {
      KnownPolkaIsSent(c, sys.votes, d, r, id);
    } else {
      var x :| x in d.polkaCertificates && x.round == r && x.valueId != id;
      assert A.HasPolka(c, sys.votes, r, x.valueId);
      if A.HasPolka(c, sys.votes, r, id) {
        A.OneQuorumPerRound(c, sys.votes, VoteType.Prevote, r, Val(id), Val(x.valueId));
      }
    }
  }

  lemma CallPolkaIsTrueIff(c: A.Config, e: EngineState, n: Address, input: DriverInput, f: Fed)
    requires A.ConfigOk(c) && EngineInv(c, e, false, false) && Enabled(c, e, Perform(n, Call(input)))
    requires f in Process(e.drivers[n], input).fed && PolkaClaim(f.input).Some?
    ensures var (r, id) := PolkaClaim(f.input).value;
            A.HasPolka(c, e.votes, r, id) <==> LookupIsRight(f.driver, r, id)
  {
    var d := e.drivers[n];
    var valid :| ProposalsOk(d, valid);
    var valid' := ValidAfter(valid, input);
    EveryFedInputIsBacked(d, valid, input);
    ProcessIsChain(d, input);
    var (d1, choice) := Dispatch(d, input);
    var r := Process(d, input);
    ChainStores(d1, [], r.fed, r.driver, r.result.value);
    DispatchKeepsSent(c, e.votes, d, input);
    PolkaIsTrueIff(c, Machines(e), f.driver, valid', f.round, f.input);
  }

  /**
    The exact condition for the lookup by round, at any moment of any run: a polka input fed by a
    correct driver is true of the votes sent if and only if every certificate the driver holds for
    its round is for its value, or the driver's own count meets it.
  */
  lemma FedPolkaIsTrueIff(c: A.Config, run: seq<EngineState>, actions: seq<EngineAction>, i: nat, f: Fed)
    requires A.ConfigOk(c) && Run(c, run, actions) && i < |actions| && actions[i].Perform? && actions[i].op.Call?
    requires var e, n, input := run[i], actions[i].node, actions[i].op.input;
             f in Process(e.drivers[n], input).fed && PolkaClaim(f.input).Some?
    ensures var (r, id) := PolkaClaim(f.input).value;
            A.HasPolka(c, run[i].votes, r, id) <==> LookupIsRight(f.driver, r, id)
  {
    RunKeepsEngineInv(c, run, actions, i, false, false);
    CallPolkaIsTrueIff(c, run[i], actions[i].node, actions[i].op.input, f);
  }

  // ---- Verified certificates are genuine ------------------------------------

  /** Signatures cannot be forged: a signature verifies only for a vote that was sent. */
  ghost predicate Unforgeable(votes: set<Vote>, verify: Verifier) {
    forall v, s :: verify(v, s) ==> v in votes
  }

  lemma VerifiedSignersVoted(c: A.Config, votes: set<Vote>, verify: Verifier, round: Round, t: VoteType, id: ValueId,
                             signatures: seq<VoteSignature>)
    requires Unforgeable(votes, verify)
    requires TWO_F_PLUS_ONE.Met(
               Power(c.validators, Signers(c.height, round, AsRoundSignatures(signatures, t, id), verify)),
               Total(c.validators))
    ensures A.HasQuorum(c, votes, t, round, Val(id))
  {
    var all := AsRoundSignatures(signatures, t, id);
    var signers := Signers(c.height, round, all, verify);
    forall a | a in signers ensures a in A.VotersFor(c, votes, t, round, Val(id)) {
      var s :| s in all && verify(SignedFor(c.height, round, s), s.signature) && s.address == a;
      assert SignedFor(c.height, round, s) in votes;
    }
    PowerMonotone(c.validators, signers, A.VotersFor(c, votes, t, round, Val(id)));
  }

  /** What the verifiers accept may be handed to a driver. */
  lemma AcceptedCertificatesAreGenuine(c: A.Config, votes: set<Vote>, verify: Verifier, commit: CommitCertificate,
                                       polka: PolkaCertificate)
    requires Unforgeable(votes, verify)
    ensures CommitAccepted(c.validators, TWO_F_PLUS_ONE, commit, verify) ==> Genuine(c, votes, ReceiveCommit(commit))
    ensures PolkaAccepted(c.validators, TWO_F_PLUS_ONE, polka, verify) ==> Genuine(c, votes, ReceivePolka(polka))
  {
    if CommitAccepted(c.validators, TWO_F_PLUS_ONE, commit, verify) && commit.height == c.height {
      VerifiedSignersVoted(c, votes, verify, commit.round, VoteType.Precommit, commit.valueId, commit.signatures);
    }
    if PolkaAccepted(c.validators, TWO_F_PLUS_ONE, polka, verify) && polka.height == c.height {
      VerifiedSignersVoted(c, votes, verify, polka.round, VoteType.Prevote, polka.valueId, polka.signatures);
    }
  }
}
