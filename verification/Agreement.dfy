/**
  The state machine run by weighted validators over an asynchronous network. Votes sent
  are never lost to the model: the network is a set that only grows. Faulty validators
  hold less than one third of the power and send any vote; the others step by `Apply`
  on inputs that mean what their documentation says.
*/
module Agreement {
  import opened Types
  import opened Quorum
  import opened StateMachine

  datatype Config = Config(validators: ValidatorSet, faulty: set<Address>, height: Height)

  ghost predicate ConfigOk(c: Config) {
    3 * Power(c.validators, c.faulty) < Total(c.validators)
  }

  predicate Correct(c: Config, n: Address) {
    n in Members(c.validators) && n !in c.faulty
  }

  /** Votes sent so far, the state of each correct node, and the timeouts each has scheduled. */
  datatype System = System(
    votes: set<Vote>,
    nodes: map<Address, State>,
    timers: set<(Address, Timeout)>)

  function VotersFor(c: Config, votes: set<Vote>, voteType: VoteType, round: Round, value: NilOrVal): set<Address> {
    set m | m in votes && m.voteType == voteType && m.height == c.height && m.round == round && m.value == value
      :: m.address
  }

  function VotersIn(c: Config, votes: set<Vote>, voteType: VoteType, round: Round): set<Address> {
    set m | m in votes && m.voteType == voteType && m.height == c.height && m.round == round :: m.address
  }

  function VotersAtRound(c: Config, votes: set<Vote>, round: Round): set<Address> {
    set m | m in votes && m.height == c.height && m.round == round :: m.address
  }

  /** More than two thirds of the power voted `value` in `round`. */
  predicate HasQuorum(c: Config, votes: set<Vote>, voteType: VoteType, round: Round, value: NilOrVal) {
    IsQuorum(c.validators, VotersFor(c, votes, voteType, round, value))
  }

  /** More than two thirds of the power voted in `round`, for whatever values. */
  predicate HasQuorumAny(c: Config, votes: set<Vote>, voteType: VoteType, round: Round) {
    IsQuorum(c.validators, VotersIn(c, votes, voteType, round))
  }

  predicate HasPolka(c: Config, votes: set<Vote>, round: Round, id: ValueId) {
    HasQuorum(c, votes, VoteType.Prevote, round, Val(id))
  }

  /**
    What an input for `round` claims about the votes sent. Inputs not listed may arrive at
    any time. A round start never goes back.
  */
  predicate Guard(c: Config, votes: set<Vote>, s: State, round: Round, input: Input) {
    match input
    case NewRound(r) => r >= s.round
    case ProposalAndPolkaPrevious(p) => HasPolka(c, votes, p.polRound, p.value.id)
    case ProposalAndPolkaCurrent(p) => HasPolka(c, votes, round, p.value.id)
    case ProposalAndPrecommitValue(p) => HasQuorum(c, votes, VoteType.Precommit, p.round, Val(p.value.id))
    case _ => true
  }

  function ScheduledBy(n: Address, output: Option<Output>): set<(Address, Timeout)> {
    match output
    case Some(ScheduleTimeout(t)) => {(n, t)}
    case Some(GetValueAndScheduleTimeout(_, _, t)) => {(n, t)}
    case _ => {}
  }

  /** The vote an output asks to cast, if any. */
  function CastBy(output: Option<Output>): set<Vote> {
    match output
    case Some(VoteOutput(v)) => {v}
    case _ => {}
  }

  /**
    A correct node applies an input. `withheld` says that the vote the state machine asks
    for is not sent, as when the driver refuses to cast it.
  */
  function AfterApply(sys: System, n: Address, info: Info, input: Input, withheld: bool): System
    requires n in sys.nodes
  {
    var t := Apply(sys.nodes[n], info, input);
    System(
      if withheld then sys.votes else sys.votes + CastBy(t.output),
      sys.nodes[n := t.next],
      sys.timers + ScheduledBy(n, t.output))
  }

  datatype Action =
    | Receive(node: Address, info: Info, input: Input, withheld: bool)
    | ResetRound(node: Address, round: Round)
    | FaultyVote(vote: Vote)

  /** One step of the system. `ResetRound` is the driver moving a node to a later round. */
  predicate Enabled(c: Config, sys: System, a: Action) {
    match a
    case Receive(n, info, input, _) =>
      Correct(c, n) && n in sys.nodes && info.address == n && Guard(c, sys.votes, sys.nodes[n], info.inputRound, input)
    case ResetRound(n, r) => Correct(c, n) && n in sys.nodes && r >= sys.nodes[n].round
    case FaultyVote(v) => !Correct(c, v.address)
  }

  function After(c: Config, sys: System, a: Action): System
    requires Enabled(c, sys, a)
  {
    match a
    case Receive(n, info, input, withheld) => AfterApply(sys, n, info, input, withheld)
    case ResetRound(n, r) => sys.(nodes := sys.nodes[n := sys.nodes[n].(round := r)])
    case FaultyVote(v) => sys.(votes := sys.votes + {v})
  }

  ghost predicate Init(c: Config, sys: System) {
    && sys.votes == {}
    && sys.timers == {}
    && forall n :: Correct(c, n) ==> n in sys.nodes && sys.nodes[n] == NewState(c.height, NIL_ROUND)
  }

  ghost predicate Run(c: Config, run: seq<System>, actions: seq<Action>) {
    && |run| == |actions| + 1
    && Init(c, run[0])
    && forall i {:trigger actions[i]} :: 0 <= i < |actions| ==>
         Enabled(c, run[i], actions[i]) && run[i + 1] == After(c, run[i], actions[i])
  }

  // ---- What every step keeps ------------------------------------------------

  ghost predicate NodesOk(c: Config, sys: System) {
    forall n :: Correct(c, n) ==>
      n in sys.nodes && sys.nodes[n].height == c.height && LockDiscipline(sys.nodes[n])
  }

  /** A correct node has only voted in rounds and steps it has been through. */
  predicate VoteInPast(c: Config, s: State, m: Vote) {
    && m.height == c.height
    && m.round <= s.round
    && (m.round == s.round ==>
          s.step.Rank() >= (if m.voteType == VoteType.Prevote then Prevoting.Rank() else Precommitting.Rank()))
  }

  ghost predicate VotesInPast(c: Config, sys: System)
    requires NodesOk(c, sys)
  {
    forall m :: m in sys.votes && Correct(c, m.address) ==> VoteInPast(c, sys.nodes[m.address], m)
  }

  predicate SameBallot(m: Vote, m': Vote) {
    m.address == m'.address && m.voteType == m'.voteType && m.round == m'.round
  }

  ghost predicate OneVotePerRound(c: Config, votes: set<Vote>) {
    forall m, m' :: m in votes && m' in votes && Correct(c, m.address) && SameBallot(m, m') ==> m == m'
  }

  /** A precommit for a value follows a polka for it, and its sender stays locked since then. */
  predicate PrecommitLocks(c: Config, votes: set<Vote>, s: State, m: Vote) {
    m.voteType == VoteType.Precommit && m.value.Val? ==>
      && HasPolka(c, votes, m.round, m.value.id)
      && s.locked.Some?
      && m.round <= s.locked.value.round
      && (m.round == s.locked.value.round ==> m.value.id == s.locked.value.value.id)
  }

  ghost predicate PrecommitsLock(c: Config, sys: System)
    requires NodesOk(c, sys)
  {
    forall m :: m in sys.votes && Correct(c, m.address) ==>
      PrecommitLocks(c, sys.votes, sys.nodes[m.address], m)
  }

  ghost predicate LocksHavePolka(c: Config, sys: System)
    requires NodesOk(c, sys)
  {
    forall n :: Correct(c, n) && sys.nodes[n].locked.Some? ==>
      HasPolka(c, sys.votes, sys.nodes[n].locked.value.round, sys.nodes[n].locked.value.value.id)
  }

  ghost predicate ValidsHavePolka(c: Config, sys: System)
    requires NodesOk(c, sys)
  {
    forall n :: Correct(c, n) && sys.nodes[n].valid.Some? ==>
      HasPolka(c, sys.votes, sys.nodes[n].valid.value.round, sys.nodes[n].valid.value.value.id)
  }

  /** A later prevote for another value needs a polka for it in between. */
  ghost predicate Justified(c: Config, votes: set<Vote>, precommit: Vote, prevote: Vote) {
    precommit.voteType == VoteType.Precommit && precommit.value.Val? &&
    prevote.voteType == VoteType.Prevote && prevote.value.Val? &&
    precommit.address == prevote.address && precommit.round < prevote.round &&
    precommit.value != prevote.value ==>
      exists vr: Round :: precommit.round <= vr < prevote.round && HasPolka(c, votes, vr, prevote.value.id)
  }

  ghost predicate PrevotesJustified(c: Config, votes: set<Vote>) {
    forall m, m' :: m in votes && m' in votes && Correct(c, m.address) ==> Justified(c, votes, m, m')
  }

  ghost predicate DecisionsBacked(c: Config, sys: System)
    requires NodesOk(c, sys)
  {
    forall n :: Correct(c, n) && sys.nodes[n].decision.Some? ==>
      var d := sys.nodes[n].decision.value;
      HasQuorum(c, sys.votes, VoteType.Precommit, d.round, Val(d.value.id))
  }

  /** What holds whatever the polka and commit inputs claim: a correct node votes once per step. */
  ghost predicate VotingInv(c: Config, sys: System) {
    && NodesOk(c, sys)
    && VotesInPast(c, sys)
    && OneVotePerRound(c, sys.votes)
  }

  ghost predicate Inv(c: Config, sys: System) {
    && VotingInv(c, sys)
    && PrecommitsLock(c, sys)
    && LocksHavePolka(c, sys)
    && ValidsHavePolka(c, sys)
    && PrevotesJustified(c, sys.votes)
    && DecisionsBacked(c, sys)
  }

  lemma QuorumGrows(c: Config, votes: set<Vote>, votes': set<Vote>)
    requires votes <= votes'
    ensures forall t, r, v :: HasQuorum(c, votes, t, r, v) ==> HasQuorum(c, votes', t, r, v)
    ensures forall t, r :: HasQuorumAny(c, votes, t, r) ==> HasQuorumAny(c, votes', t, r)
  {
    forall t, r, v | HasQuorum(c, votes, t, r, v) ensures HasQuorum(c, votes', t, r, v) {
      PowerMonotone(c.validators, VotersFor(c, votes, t, r, v), VotersFor(c, votes', t, r, v));
    }
    forall t, r | HasQuorumAny(c, votes, t, r) ensures HasQuorumAny(c, votes', t, r) {
      PowerMonotone(c.validators, VotersIn(c, votes, t, r), VotersIn(c, votes', t, r));
    }
  }

  /** Growing the vote set keeps every justification. */
  lemma JustifiedGrows(c: Config, votes: set<Vote>, votes': set<Vote>, m: Vote, m': Vote)
    requires votes <= votes' && Justified(c, votes, m, m')
    ensures Justified(c, votes', m, m')
  {
    QuorumGrows(c, votes, votes');
    if m'.value.Val? {
      if vr: Round :| m.round <= vr < m'.round && HasPolka(c, votes, vr, m'.value.id) {
        assert HasPolka(c, votes', vr, m'.value.id);
      }
    }
  }

  /** The prevote rules L22 and L28 justify the vote they cast against every earlier precommit. */
  lemma PrevoteIsJustified(c: Config, sys: System, n: Address, info: Info, input: Input, m: Vote)
    requires Inv(c, sys) && Correct(c, n) && info.address == n
             && Guard(c, sys.votes, sys.nodes[n], info.inputRound, input)
    requires m in sys.votes && m.address == n
    requires Apply(sys.nodes[n], info, input).output.Some?
    requires Apply(sys.nodes[n], info, input).output.value.VoteOutput?
    ensures Justified(c, sys.votes, m, Apply(sys.nodes[n], info, input).output.value.vote)
  {
  }

  /** A vote just cast is the first of its kind in its round. */
  lemma CastVoteIsNew(c: Config, sys: System, n: Address, info: Info, input: Input, m: Vote)
    requires VotingInv(c, sys) && Correct(c, n) && info.address == n
    requires m in sys.votes
    requires Apply(sys.nodes[n], info, input).output.Some?
    requires Apply(sys.nodes[n], info, input).output.value.VoteOutput?
    ensures !SameBallot(m, Apply(sys.nodes[n], info, input).output.value.vote)
  {
  }

  lemma ReceiveKeepsOneVote(c: Config, sys: System, n: Address, info: Info, input: Input, withheld: bool)
    requires VotingInv(c, sys) && Correct(c, n) && info.address == n
    ensures OneVotePerRound(c, AfterApply(sys, n, info, input, withheld).votes)
  {
    var t := Apply(sys.nodes[n], info, input);
    var votes' := AfterApply(sys, n, info, input, withheld).votes;
    forall m, m' | m in votes' && m' in votes' && Correct(c, m.address) ensures SameBallot(m, m') ==> m == m' {
      if t.output.Some? && t.output.value.VoteOutput? {
        if m in sys.votes {
          CastVoteIsNew(c, sys, n, info, input, m);
        }
        if m' in sys.votes {
          CastVoteIsNew(c, sys, n, info, input, m');
        }
      }
    }
  }

  lemma ReceiveKeepsNodesOk(c: Config, sys: System, n: Address, info: Info, input: Input, withheld: bool)
    requires VotingInv(c, sys) && Correct(c, n) && info.address == n
    requires input.NewRound? ==> input.newRound >= sys.nodes[n].round
    ensures NodesOk(c, AfterApply(sys, n, info, input, withheld))
  {
    ApplyKeepsLockDiscipline(sys.nodes[n], info, input);
    StepChangeHasOutput(sys.nodes[n], info, input);
  }

  lemma ReceiveKeepsNodes(c: Config, sys: System, n: Address, info: Info, input: Input, withheld: bool)
    requires VotingInv(c, sys) && Correct(c, n) && info.address == n
    requires input.NewRound? ==> input.newRound >= sys.nodes[n].round
    ensures var sys' := AfterApply(sys, n, info, input, withheld);
            NodesOk(c, sys') && VotesInPast(c, sys')
  {
    ReceiveKeepsNodesOk(c, sys, n, info, input, withheld);
    StepChangeHasOutput(sys.nodes[n], info, input);
    var sys' := AfterApply(sys, n, info, input, withheld);
    forall m | m in sys'.votes && Correct(c, m.address)
      ensures VoteInPast(c, sys'.nodes[m.address], m)
    {
      if m in sys.votes {
        assert VoteInPast(c, sys.nodes[m.address], m);
      } else {
        VoteComesFromStep(sys.nodes[n], info, input);
      }
    }
  }

  /** Any input keeps one vote per round, even one that claims votes nobody sent. */
  lemma ReceiveKeepsVoting(c: Config, sys: System, n: Address, info: Info, input: Input, withheld: bool)
    requires VotingInv(c, sys) && Correct(c, n) && info.address == n
    requires input.NewRound? ==> input.newRound >= sys.nodes[n].round
    ensures VotingInv(c, AfterApply(sys, n, info, input, withheld))
  {
    ReceiveKeepsOneVote(c, sys, n, info, input, withheld);
    ReceiveKeepsNodes(c, sys, n, info, input, withheld);
  }

  lemma ReceiveKeepsJustified(c: Config, sys: System, n: Address, info: Info, input: Input, withheld: bool)
    requires Inv(c, sys) && Correct(c, n) && info.address == n
             && Guard(c, sys.votes, sys.nodes[n], info.inputRound, input)
    ensures PrevotesJustified(c, AfterApply(sys, n, info, input, withheld).votes)
  {
    var s := sys.nodes[n];
    var t := Apply(s, info, input);
    var votes' := AfterApply(sys, n, info, input, withheld).votes;
    forall m, m' | m in votes' && m' in votes' && Correct(c, m.address)
      ensures Justified(c, votes', m, m')
    {
      if t.output.Some? && t.output.value.VoteOutput? {
        VoteComesFromStep(s, info, input);
        if m in sys.votes && m' in sys.votes {
          JustifiedGrows(c, sys.votes, votes', m, m');
        } else if m in sys.votes && m.address == n {
          PrevoteIsJustified(c, sys, n, info, input, m);
          JustifiedGrows(c, sys.votes, votes', m, m');
        } else if m' in sys.votes && m'.address == n {
          assert VoteInPast(c, s, m');
        }
      } else {
        assert votes' == sys.votes;
      }
    }
  }

  lemma StepKeepsVoting(c: Config, sys: System, a: Action)
    requires VotingInv(c, sys) && Enabled(c, sys, a)
    ensures VotingInv(c, After(c, sys, a))
  {
    if a.Receive? {
      ReceiveKeepsVoting(c, sys, a.node, a.info, a.input, a.withheld);
    } else {
      assert NodesOk(c, After(c, sys, a));
    }
  }

  lemma ReceiveKeepsLock(c: Config, sys: System, n: Address, info: Info, input: Input, withheld: bool, m: Vote)
    requires Inv(c, sys) && Correct(c, n) && info.address == n
             && Guard(c, sys.votes, sys.nodes[n], info.inputRound, input)
    requires m in sys.votes && Correct(c, m.address)
    ensures var sys' := AfterApply(sys, n, info, input, withheld);
            PrecommitLocks(c, sys'.votes, sys'.nodes[m.address], m)
  {
    ReceiveKeepsNodesOk(c, sys, n, info, input, withheld);
    LockChangesByPrecommit(sys.nodes[n], info, input);
    QuorumGrows(c, sys.votes, AfterApply(sys, n, info, input, withheld).votes);
    assert PrecommitLocks(c, sys.votes, sys.nodes[m.address], m);
    assert VoteInPast(c, sys.nodes[m.address], m);
  }

  lemma ReceiveKeepsLocks(c: Config, sys: System, n: Address, info: Info, input: Input, withheld: bool)
    requires Inv(c, sys) && Correct(c, n) && info.address == n
             && Guard(c, sys.votes, sys.nodes[n], info.inputRound, input)
    ensures var sys' := AfterApply(sys, n, info, input, withheld);
            NodesOk(c, sys') && PrecommitsLock(c, sys')
  {
    ReceiveKeepsNodesOk(c, sys, n, info, input, withheld);
    LockChangesByPrecommit(sys.nodes[n], info, input);
    var sys' := AfterApply(sys, n, info, input, withheld);
    forall m | m in sys'.votes && Correct(c, m.address)
      ensures PrecommitLocks(c, sys'.votes, sys'.nodes[m.address], m)
    {
      if m in sys.votes {
        ReceiveKeepsLock(c, sys, n, info, input, withheld, m);
      } else {
        QuorumGrows(c, sys.votes, sys'.votes);
      }
    }
  }

  lemma ReceiveKeepsDecisions(c: Config, sys: System, n: Address, info: Info, input: Input, withheld: bool)
    requires Inv(c, sys) && Correct(c, n) && info.address == n
             && Guard(c, sys.votes, sys.nodes[n], info.inputRound, input)
    requires NodesOk(c, AfterApply(sys, n, info, input, withheld))
    ensures DecisionsBacked(c, AfterApply(sys, n, info, input, withheld))
  {
    var sys' := AfterApply(sys, n, info, input, withheld);
    QuorumGrows(c, sys.votes, sys'.votes);
    forall k | Correct(c, k) && sys'.nodes[k].decision.Some?
      ensures var d := sys'.nodes[k].decision.value;
              HasQuorum(c, sys'.votes, VoteType.Precommit, d.round, Val(d.value.id))
    {
      DecisionHasInput(sys.nodes[n], info, input);
    }
  }

  lemma ReceiveKeepsPolkas(c: Config, sys: System, n: Address, info: Info, input: Input, withheld: bool)
    requires Inv(c, sys) && Correct(c, n) && info.address == n
             && Guard(c, sys.votes, sys.nodes[n], info.inputRound, input)
    requires NodesOk(c, AfterApply(sys, n, info, input, withheld))
    ensures var sys' := AfterApply(sys, n, info, input, withheld);
            LocksHavePolka(c, sys') && ValidsHavePolka(c, sys')
  {
    LockChangesByPrecommit(sys.nodes[n], info, input);
    ValidChangesByPolka(sys.nodes[n], info, input);
    QuorumGrows(c, sys.votes, AfterApply(sys, n, info, input, withheld).votes);
  }

  lemma ReceiveKeepsBacking(c: Config, sys: System, n: Address, info: Info, input: Input, withheld: bool)
    requires Inv(c, sys) && Correct(c, n) && info.address == n
             && Guard(c, sys.votes, sys.nodes[n], info.inputRound, input)
    ensures var sys' := AfterApply(sys, n, info, input, withheld);
            NodesOk(c, sys') && LocksHavePolka(c, sys') && ValidsHavePolka(c, sys') && DecisionsBacked(c, sys')
  {
    ReceiveKeepsNodesOk(c, sys, n, info, input, withheld);
    ReceiveKeepsPolkas(c, sys, n, info, input, withheld);
    ReceiveKeepsDecisions(c, sys, n, info, input, withheld);
  }

  lemma StepKeepsInv(c: Config, sys: System, a: Action)
    requires Inv(c, sys) && Enabled(c, sys, a)
    ensures Inv(c, After(c, sys, a))
  {
    StepKeepsVoting(c, sys, a);
    var sys' := After(c, sys, a);
    match a
    case Receive(n, info, input, withheld) =>
      ReceiveKeepsJustified(c, sys, n, info, input, withheld);
      ReceiveKeepsLocks(c, sys, n, info, input, withheld);
      ReceiveKeepsBacking(c, sys, n, info, input, withheld);
    case ResetRound(n, r) =>
    case FaultyVote(v) =>
      QuorumGrows(c, sys.votes, sys'.votes);
      forall m, m' | m in sys'.votes && m' in sys'.votes && Correct(c, m.address)
        ensures Justified(c, sys'.votes, m, m')
      {
        if m' in sys.votes {
          JustifiedGrows(c, sys.votes, sys'.votes, m, m');
        }
      }
  }

  lemma {:induction false} RunKeepsInv(c: Config, run: seq<System>, actions: seq<Action>, i: nat)
    requires Run(c, run, actions) && i < |run|
    ensures Inv(c, run[i])
  {
    if i > 0 {
      RunKeepsInv(c, run, actions, i - 1);
      StepKeepsInv(c, run[i - 1], actions[i - 1]);
    }
  }

  // ---- Safety ---------------------------------------------------------------

  /** Two quorums for the same ballot in one round are for the same value. */
  lemma OneQuorumPerRound(c: Config, votes: set<Vote>, t: VoteType, r: Round, v: NilOrVal, w: NilOrVal)
    requires ConfigOk(c) && OneVotePerRound(c, votes)
    requires HasQuorum(c, votes, t, r, v) && HasQuorum(c, votes, t, r, w)
    ensures v == w
  {
    var n := QuorumsShareCorrect(c.validators, VotersFor(c, votes, t, r, v), VotersFor(c, votes, t, r, w), c.faulty);
    var m :| m in votes && m.address == n && m.voteType == t && m.round == r && m.value == v;
    var m' :| m' in votes && m'.address == n && m'.voteType == t && m'.round == r && m'.value == w;
    assert SameBallot(m, m');
  }

  /** A quorum of precommits for a value includes a correct sender, so there was a polka for it. */
  lemma PrecommitQuorumHasPolka(c: Config, sys: System, r: Round, id: ValueId)
    requires ConfigOk(c) && Inv(c, sys)
    requires HasQuorum(c, sys.votes, VoteType.Precommit, r, Val(id))
    ensures HasPolka(c, sys.votes, r, id)
  {
    var q := VotersFor(c, sys.votes, VoteType.Precommit, r, Val(id));
    var n := QuorumsShareCorrect(c.validators, q, q, c.faulty);
    var m :| m in sys.votes && m.address == n && m.voteType == VoteType.Precommit && m.round == r && m.value == Val(id);
    assert PrecommitLocks(c, sys.votes, sys.nodes[n], m);
  }

  /**
    Once more than two thirds of the power has precommitted a value, no other value ever
    gathers a polka in that round or a later one.
  */
  lemma {:induction false} LockPersistence(c: Config, sys: System, r: Round, id: ValueId, r': Round, other: ValueId)
    requires ConfigOk(c) && Inv(c, sys)
    requires HasQuorum(c, sys.votes, VoteType.Precommit, r, Val(id))
    requires r <= r' && HasPolka(c, sys.votes, r', other)
    ensures other == id
    decreases r' - r
  {
    if r' == r {
      PrecommitQuorumHasPolka(c, sys, r, id);
      OneQuorumPerRound(c, sys.votes, VoteType.Prevote, r, Val(id), Val(other));
    } else {
      var n := QuorumsShareCorrect(c.validators,
        VotersFor(c, sys.votes, VoteType.Precommit, r, Val(id)),
        VotersFor(c, sys.votes, VoteType.Prevote, r', Val(other)), c.faulty);
      var m :| m in sys.votes && m.address == n && m.voteType == VoteType.Precommit && m.round == r
        && m.value == Val(id);
      var m' :| m' in sys.votes && m'.address == n && m'.voteType == VoteType.Prevote && m'.round == r'
        && m'.value == Val(other);
      assert Justified(c, sys.votes, m, m');
      if other != id {
        var vr: Round :| r <= vr < r' && HasPolka(c, sys.votes, vr, other);
        LockPersistence(c, sys, r, id, vr, other);
      }
    }
  }

  lemma QuorumsAgree(c: Config, sys: System, r: Round, id: ValueId, r': Round, id': ValueId)
    requires ConfigOk(c) && Inv(c, sys)
    requires HasQuorum(c, sys.votes, VoteType.Precommit, r, Val(id))
    requires HasQuorum(c, sys.votes, VoteType.Precommit, r', Val(id'))
    ensures id == id'
  {
    PrecommitQuorumHasPolka(c, sys, r, id);
    PrecommitQuorumHasPolka(c, sys, r', id');
    if r <= r' {
      LockPersistence(c, sys, r, id, r', id');
    } else {
      LockPersistence(c, sys, r', id', r, id);
    }
  }

  lemma {:induction false} VotesGrow(c: Config, run: seq<System>, actions: seq<Action>, i: nat, j: nat)
    requires Run(c, run, actions) && i <= j < |run|
    ensures run[i].votes <= run[j].votes
    decreases j - i
  {
    if i < j {
      assert run[i + 1] == After(c, run[i], actions[i]);
      VotesGrow(c, run, actions, i + 1, j);
    }
  }

  /** A decision, once taken, stays for the rest of the run. */
  lemma {:induction false} DecisionPersists(c: Config, run: seq<System>, actions: seq<Action>, i: nat, j: nat,
                                            n: Address)
    requires Run(c, run, actions) && i <= j < |run| && Correct(c, n)
    ensures n in run[i].nodes && n in run[j].nodes
    ensures run[i].nodes[n].decision.Some? ==> run[j].nodes[n].decision == run[i].nodes[n].decision
    decreases j - i
  {
    RunKeepsInv(c, run, actions, i);
    if i < j {
      RunKeepsInv(c, run, actions, i + 1);
      var a := actions[i];
      assert run[i + 1] == After(c, run[i], a);
      if a.Receive? {
        DecisionIsFinal(run[i].nodes[a.node], a.info, a.input);
      }
      DecisionPersists(c, run, actions, i + 1, j, n);
    }
  }

  /**
    Agreement: whenever two correct nodes have decided, at whatever moments of a run and in
    whatever rounds, they have decided the same value.
  */
  lemma Agreement(c: Config, run: seq<System>, actions: seq<Action>, i: nat, j: nat, n: Address, n': Address)
    requires ConfigOk(c) && Run(c, run, actions) && i < |run| && j < |run|
    requires Correct(c, n) && n in run[i].nodes && run[i].nodes[n].decision.Some?
    requires Correct(c, n') && n' in run[j].nodes && run[j].nodes[n'].decision.Some?
    ensures run[i].nodes[n].decision.value.value.id == run[j].nodes[n'].decision.value.value.id
  {
    var last := |run| - 1;
    DecisionPersists(c, run, actions, i, last, n);
    DecisionPersists(c, run, actions, j, last, n');
    RunKeepsInv(c, run, actions, last);
    var d, d' := run[last].nodes[n].decision.value, run[last].nodes[n'].decision.value;
    QuorumsAgree(c, run[last], d.round, d.value.id, d'.round, d'.value.id);
  }

  /** Lock persistence across a run: the precommits may be seen first and the polka much later. */
  lemma LockPersistenceOnRuns(c: Config, run: seq<System>, actions: seq<Action>, i: nat, j: nat,
                              r: Round, id: ValueId, r': Round, other: ValueId)
    requires ConfigOk(c) && Run(c, run, actions) && i < |run| && j < |run|
    requires HasQuorum(c, run[i].votes, VoteType.Precommit, r, Val(id))
    requires r <= r' && HasPolka(c, run[j].votes, r', other)
    ensures other == id
  {
    var last := |run| - 1;
    VotesGrow(c, run, actions, i, last);
    VotesGrow(c, run, actions, j, last);
    QuorumGrows(c, run[i].votes, run[last].votes);
    QuorumGrows(c, run[j].votes, run[last].votes);
    RunKeepsInv(c, run, actions, last);
    assert HasPolka(c, run[last].votes, r', other);
    LockPersistence(c, run[last], r, id, r', other);
  }

  /** On every run each correct node keeps its lock at or below its valid value, and both in the past. */
  lemma LocksStayOrdered(c: Config, run: seq<System>, actions: seq<Action>, i: nat, n: Address)
    requires Run(c, run, actions) && i < |run| && Correct(c, n)
    ensures n in run[i].nodes
    ensures var s := run[i].nodes[n];
            s.locked.Some? ==> s.valid.Some? && s.locked.value.round <= s.valid.value.round <= s.round
  {
    RunKeepsInv(c, run, actions, i);
  }

  // ---- Rounds are entered for a reason --------------------------------------

  /**
    The remaining documented guards: round starts echo the round the node is in (the first
    one starts round 0), the precommit timeout fires only if scheduled, and the threshold
    inputs follow the votes.
  */
  predicate Timed(c: Config, sys: System, a: Action)
    requires Enabled(c, sys, a)
  {
    match a
    case Receive(n, info, input, _) => TimedInput(c, sys, n, info.inputRound, input)
    case ResetRound(n, r) => EchoesRound(sys.nodes[n], r)
    case FaultyVote(_) => true
  }

  predicate TimedInput(c: Config, sys: System, n: Address, round: Round, input: Input)
    requires n in sys.nodes
  {
    match input
    case NewRound(r) => EchoesRound(sys.nodes[n], r)
    case PrecommitAny => HasQuorumAny(c, sys.votes, VoteType.Precommit, round)
    case TimeoutPrecommit => (n, Timeout(round, PrecommitKind)) in sys.timers
    case SkipRound(r) => IsHonestThreshold(c.validators, VotersAtRound(c, sys.votes, r))
    case _ => true
  }

  predicate EchoesRound(s: State, r: Round) {
    r == s.round || (s.round == NIL_ROUND && r == 0)
  }

  ghost predicate TimedRun(c: Config, run: seq<System>, actions: seq<Action>) {
    && Run(c, run, actions)
    && forall i {:trigger actions[i]} :: 0 <= i < |actions| ==> Timed(c, run[i], actions[i])
  }

  /** Rounds from 1 on are reached only past a quorum of precommits in the round before. */
  predicate Earned(c: Config, votes: set<Vote>, r: Round) {
    r >= 1 ==> HasQuorumAny(c, votes, VoteType.Precommit, r - 1)
  }

  ghost predicate RoundsEarned(c: Config, sys: System) {
    && (forall n :: Correct(c, n) && n in sys.nodes ==> Earned(c, sys.votes, sys.nodes[n].round))
    && (forall m :: m in sys.votes && Correct(c, m.address) ==> Earned(c, sys.votes, m.round))
    && (forall n, t :: (n, t) in sys.timers && t.kind == PrecommitKind ==> Earned(c, sys.votes, t.round + 1))
  }

  /** More than a third of the power voting in a round includes a correct node that was there. */
  lemma SkippedToIsEarned(c: Config, sys: System, r: Round)
    requires ConfigOk(c) && RoundsEarned(c, sys)
    requires IsHonestThreshold(c.validators, VotersAtRound(c, sys.votes, r))
    ensures Earned(c, sys.votes, r)
  {
    var n := HasCorrectMember(c.validators, VotersAtRound(c, sys.votes, r), c.faulty);
    var m :| m in sys.votes && m.address == n && m.round == r;
  }

  lemma ReceivedRoundIsEarned(c: Config, sys: System, n: Address, info: Info, input: Input)
    requires ConfigOk(c) && RoundsEarned(c, sys)
    requires Correct(c, n) && n in sys.nodes && TimedInput(c, sys, n, info.inputRound, input)
    ensures Earned(c, sys.votes, Apply(sys.nodes[n], info, input).next.round)
    ensures forall x | x in ScheduledBy(n, Apply(sys.nodes[n], info, input).output) ::
              x.1.kind == PrecommitKind ==> Earned(c, sys.votes, x.1.round + 1)
  {
    if input.SkipRound? {
      SkippedToIsEarned(c, sys, input.skipTo);
    }
    RoundChangesByInput(sys.nodes[n], info, input);
  }

  /** Rounds stay earned whatever the polka inputs claim: only round changes and timers matter. */
  lemma ReceiveKeepsRoundsEarned(c: Config, sys: System, n: Address, info: Info, input: Input, withheld: bool)
    requires ConfigOk(c) && RoundsEarned(c, sys)
    requires Correct(c, n) && n in sys.nodes && TimedInput(c, sys, n, info.inputRound, input)
    ensures RoundsEarned(c, AfterApply(sys, n, info, input, withheld))
  {
    var sys' := AfterApply(sys, n, info, input, withheld);
    QuorumGrows(c, sys.votes, sys'.votes);
    assert forall r: Round :: Earned(c, sys.votes, r) ==> Earned(c, sys'.votes, r);
    ReceivedRoundIsEarned(c, sys, n, info, input);
    forall m | m in sys'.votes && m !in sys.votes ensures Earned(c, sys'.votes, m.round) {
      VoteComesFromStep(sys.nodes[n], info, input);
    }
  }

  lemma TimedStepKeepsRoundsEarned(c: Config, sys: System, a: Action)
    requires ConfigOk(c) && RoundsEarned(c, sys)
    requires Enabled(c, sys, a) && Timed(c, sys, a)
    ensures RoundsEarned(c, After(c, sys, a))
  {
    var sys' := After(c, sys, a);
    QuorumGrows(c, sys.votes, sys'.votes);
    assert forall r: Round :: Earned(c, sys.votes, r) ==> Earned(c, sys'.votes, r);
    if a.Receive? {
      ReceiveKeepsRoundsEarned(c, sys, a.node, a.info, a.input, a.withheld);
    }
  }

  lemma {:induction false} TimedRunKeepsRoundsEarned(c: Config, run: seq<System>, actions: seq<Action>, i: nat)
    requires ConfigOk(c) && TimedRun(c, run, actions) && i < |run|
    ensures RoundsEarned(c, run[i])
  {
    if i > 0 {
      TimedRunKeepsRoundsEarned(c, run, actions, i - 1);
      TimedStepKeepsRoundsEarned(c, run[i - 1], actions[i - 1]);
    }
  }

  lemma {:induction false} EarnedDownwards(c: Config, sys: System, r: Round, q: Round)
    requires ConfigOk(c) && RoundsEarned(c, sys) && Earned(c, sys.votes, r)
    requires 0 <= q < r
    ensures HasQuorumAny(c, sys.votes, VoteType.Precommit, q)
    decreases r
  {
    if q < r - 1 {
      var voters := VotersIn(c, sys.votes, VoteType.Precommit, r - 1);
      var n := HasCorrectMember(c.validators, voters, c.faulty);
      var m :| m in sys.votes && m.address == n && m.round == r - 1;
      EarnedDownwards(c, sys, r - 1, q);
    }
  }

  /**
    Round legitimacy: a correct node in a round implies that more than two thirds of the
    power has precommitted in every earlier round.
  */
  lemma RoundLegitimacy(c: Config, run: seq<System>, actions: seq<Action>, i: nat, n: Address, q: Round)
    requires ConfigOk(c) && TimedRun(c, run, actions) && i < |run|
    requires Correct(c, n) && n in run[i].nodes && 0 <= q < run[i].nodes[n].round
    ensures HasQuorumAny(c, run[i].votes, VoteType.Precommit, q)
  {
    TimedRunKeepsRoundsEarned(c, run, actions, i);
    EarnedDownwards(c, run[i], run[i].nodes[n].round, q);
  }
}
