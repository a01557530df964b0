/**
  The driver misses nothing: between calls, no stored proposal and no quorum calls for a step that
  was not taken. Where the code does miss something, what it misses is stated exactly.
*/
module DriverCompleteness {
  import opened Types
  import opened Quorum
  import opened StateMachine
  import opened Certificates
  import opened DriverModel
  import opened DriverRuns
  import opened DriverBacking
  import opened DriverSettling
  import VK = VoteKeeping
  import VKR = VoteKeepingRuns

  /** The first stored proposal of a round for a value, when it was filed as valid. */
  predicate FirstValid(d: Driver, round: Round, id: ValueId) {
    ProposalFor(d, round, id).Some? && ProposalFor(d, round, id).value.1 == Valid
  }

  function FirstFor(d: Driver, round: Round, id: ValueId): Proposal
    requires FirstValid(d, round, id)
  {
    ProposalFor(d, round, id).value.0.message
  }

  /** In the propose step there is no proposal without a POL round, and no valid one with a polka in its POL round. */
  ghost predicate ProposingComplete(d: Driver) {
    var r := d.roundState.round;
    d.roundState.step == Proposing && r != NIL_ROUND ==>
      && (forall x :: x in ProposalsAt(d, r) ==> x.0.message.polRound != NIL_ROUND)
      && forall id :: FirstValid(d, r, id) && FirstFor(d, r, id).polRound < r ==>
           !PolkaKnown(d, FirstFor(d, r, id).polRound, id)
  }

  /** In the prevote step no valid proposal has a prevote quorum, and nil has one only beside a precommit quorum. */
  ghost predicate PrevotingComplete(d: Driver) {
    var r := d.roundState.round;
    d.roundState.step == Prevoting && r != NIL_ROUND ==>
      && (forall id :: FirstValid(d, r, id) && FirstFor(d, r, id).polRound != r ==>
            !VotesMeet(d, r, Prevote, VK.ValueThreshold(id)))
      && (VotesMeet(d, r, Prevote, VK.NilThreshold) ==> VotesMeet(d, r, Precommit, VK.AnyThreshold))
  }

  ghost predicate Complete(d: Driver) {
    ProposingComplete(d) && PrevotingComplete(d)
  }

  predicate Filed(d: Driver) {
    forall r, x :: r in d.proposals && x in d.proposals[r] ==> x.0.message.round == r
  }

  lemma SettledIsComplete(d: Driver, fed: seq<Fed>)
    requires Settled(d, fed) && Filed(d)
    ensures Complete(d)
  {
    var r := d.roundState.round;
    if d.roundState.step == Proposing && r != NIL_ROUND {
      forall x | x in ProposalsAt(d, r) ensures x.0.message.polRound != NIL_ROUND && !PolkaPrevious(d, x.0.message) {
        SettledProposing(d, fed, x);
      }
      forall id | FirstValid(d, r, id) && FirstFor(d, r, id).polRound < r
        ensures !PolkaKnown(d, FirstFor(d, r, id).polRound, id)
      {
        assert ProposalFor(d, r, id).value in ProposalsAt(d, r);
      }
    }
    if d.roundState.step == Prevoting {
      forall id ensures FirstValid(d, r, id) && FirstFor(d, r, id).polRound != r ==>
                          !VotesMeet(d, r, Prevote, VK.ValueThreshold(id))
      {
        SettledPrevoting(d, fed, id);
      }
      SettledPrevoting(d, fed, 0);
    }
  }

  lemma CompleteFrame(d: Driver, d': Driver)
    requires Complete(d)
    requires d'.proposals == d.proposals && d'.votes == d.votes && d'.polkaCertificates == d.polkaCertificates
    requires d'.roundState.step == d.roundState.step && d'.roundState.round == d.roundState.round
    ensures Complete(d')
  {
    var r := d.roundState.round;
    assert ProposalsAt(d', r) == ProposalsAt(d, r);
    forall id ensures FirstValid(d', r, id) == FirstValid(d, r, id) {
    }
    forall q, id ensures PolkaKnown(d', q, id) == PolkaKnown(d, q, id) {
    }
  }

  // ---- Storing a message ----------------------------------------------------

  /** The input chosen for the message, if any, leads to no other step. */
  predicate ChoiceIdle(d1: Driver, choice: Result<Option<(Round, Input)>>) {
    choice.Ok? && choice.value.Some? ==> Idle(d1.roundState, choice.value.value)
  }

  lemma FirstWithValueAppend(stored: seq<StoredProposal>, x: StoredProposal, id: ValueId)
    ensures FirstWithValue(stored + [x], id) ==
              if FirstWithValue(stored, id).Some? then FirstWithValue(stored, id)
              else if x.0.message.value.id == id then Some(x) else None
  {
    if stored != [] {
      assert (stored + [x])[1..] == stored[1..] + [x];
      FirstWithValueAppend(stored[1..], x, id);
    }
  }

  /** What is stored for the round after a proposal came in. */
  lemma StoredAfter(d: Driver, sp: SignedProposal, validity: Validity, r: Round, id: ValueId)
    ensures var d' := StoreProposal(d, sp, validity);
            && (forall x :: x in ProposalsAt(d', r) ==>
                  x in ProposalsAt(d, r) || (x == (sp, validity) && sp.message.round == r))
            && (|| ProposalFor(d', r, id) == ProposalFor(d, r, id)
                || (ProposalFor(d', r, id) == Some((sp, validity)) && sp.message.round == r))
  {
    if sp.message.round == r {
      FirstWithValueAppend(ProposalsAt(d, r), (sp, validity), id);
    }
  }

  /** What it says of a proposal of the round that it leads to no other step. */
  lemma IdleProposal(d: Driver, p: Proposal, validity: Validity)
    requires p.round == d.roundState.round != NIL_ROUND
    requires MultiplexProposal(d, p, validity).Some? ==>
               Idle(d.roundState, (p.round, MultiplexProposal(d, p, validity).value))
    ensures d.roundState.step == Proposing ==>
              p.polRound != NIL_ROUND && (p.polRound < p.round ==> !PolkaPrevious(d, p))
    ensures d.roundState.step == Prevoting && validity == Valid ==>
              !VotesMeet(d, p.round, Prevote, VK.ValueThreshold(p.value.id))
  {
  }

  lemma ProposalKeepsComplete(d: Driver, sp: SignedProposal, validity: Validity)
    requires Complete(d) && d.roundState.height == sp.message.height
    requires var (d', choice) := Dispatch(d, ReceiveProposal(sp, validity)); ChoiceIdle(d', choice)
    ensures Complete(Dispatch(d, ReceiveProposal(sp, validity)).0)
  {
    var d', r, p := StoreProposal(d, sp, validity), d.roundState.round, sp.message;
    if p.round == r != NIL_ROUND {
      IdleProposal(d', p, validity);
    }
    StoredAfter(d, sp, validity, r, 0);
    forall id | FirstValid(d', r, id) && r != NIL_ROUND && d.roundState.step == Proposing
      ensures FirstFor(d', r, id).polRound < r ==> !PolkaKnown(d', FirstFor(d', r, id).polRound, id)
    {
      StoredAfter(d, sp, validity, r, id);
      var q := FirstFor(d', r, id).polRound;
      assert PolkaKnown(d', q, id) == PolkaKnown(d, q, id);
      if ProposalFor(d', r, id) == ProposalFor(d, r, id) {
        assert FirstValid(d, r, id);
      }
    }
    forall id | FirstValid(d', r, id) && r != NIL_ROUND && d.roundState.step == Prevoting
      ensures FirstFor(d', r, id).polRound != r ==> !VotesMeet(d', r, Prevote, VK.ValueThreshold(id))
    {
      StoredAfter(d, sp, validity, r, id);
      if ProposalFor(d', r, id) == ProposalFor(d, r, id) {
        assert FirstValid(d, r, id);
      }
    }
  }

  lemma KnownByCertificate(d: Driver, c: PolkaCertificate, q: Round, id: ValueId)
    ensures PolkaKnown(StorePolkaCertificate(d, c), q, id) <==>
              PolkaKnown(d, q, id) || (c.round == q && c.valueId == id)
  {
    var d' := StorePolkaCertificate(d, c);
    if !HasPolkaCertificate(d, c.round, c.valueId) {
      assert forall x :: x in d'.polkaCertificates <==> x in d.polkaCertificates || x == c;
    }
  }

  lemma PolkaKeepsComplete(d: Driver, c: PolkaCertificate)
    requires Complete(d) && Filed(d) && d.roundState.height == c.height
    requires var (d', choice) := Dispatch(d, ReceivePolka(c)); ChoiceIdle(d', choice)
    ensures Complete(Dispatch(d, ReceivePolka(c)).0)
  {
    var d', r := StorePolkaCertificate(d, c), d.roundState.round;
    assert ProposalsAt(d', r) == ProposalsAt(d, r);
    forall id ensures FirstValid(d', r, id) == FirstValid(d, r, id) {
    }
    if d.roundState.step == Proposing && r != NIL_ROUND {
      forall id | FirstValid(d', r, id) && FirstFor(d', r, id).polRound < r
        ensures !PolkaKnown(d', FirstFor(d', r, id).polRound, id)
      {
        assert ProposalFor(d', r, id).value in ProposalsAt(d', r);
        KnownByCertificate(d, c, FirstFor(d', r, id).polRound, id);
      }
    }
  }

  /** The same votes reach the thresholds the keeper reports and those the driver asks for. */
  lemma MeetsIff(d: Driver, r: Round, id: ValueId)
    ensures VotesMeet(d, r, Prevote, VK.ValueThreshold(id)) <==>
              VKR.Holds(d.votes, VK.TallyAt(d.votes, r), VK.PolkaValue(id))
    ensures VotesMeet(d, r, Precommit, VK.ValueThreshold(id)) <==>
              VKR.Holds(d.votes, VK.TallyAt(d.votes, r), VK.PrecommitValue(id))
    ensures VotesMeet(d, r, Prevote, VK.NilThreshold) <==> VKR.Holds(d.votes, VK.TallyAt(d.votes, r), VK.PolkaNil)
  {
    if r !in d.votes.rounds {
      PowerOfNone(d.votes.validators, {});
      assert VK.Voters([], Prevote, Val(id)) == {} && VK.Voters([], Prevote, Nil) == {};
      assert VK.Voters([], Precommit, Val(id)) == {};
    }
  }

  /** A quorum that a vote completes at or below the round we are in is reported with it. */
  lemma NewQuorum(d: Driver, sv: SignedVote, q: Round, output: VK.VKOutput)
    requires VKR.LedgerOk(d.votes) && VKR.QuorumOf(output).Some? && q <= d.roundState.round
    requires var k := VK.Record(d.votes, sv, d.roundState.round).0;
             !VKR.Holds(d.votes, VK.TallyAt(d.votes, q), output) && VKR.Holds(k, VK.TallyAt(k, q), output)
    ensures VK.Record(d.votes, sv, d.roundState.round).1 == Some(output) && sv.vote.round == q
  {
    var k := VK.Record(d.votes, sv, d.roundState.round).0;
    if VKR.Skips(k, VK.TallyAt(k, q), sv.vote, d.roundState.round) {
      VKR.QuorumNeedsVote(d.votes, sv, d.roundState.round, q, VKR.QuorumOf(output).value.0,
                          VKR.QuorumOf(output).value.1);
    }
    VKR.NewQuorumIsReported(d.votes, sv, d.roundState.round, q, output);
  }

  /** What a recorded vote makes known, besides what it reports. */
  lemma KnownByVote(d: Driver, sv: SignedVote, q: Round, id: ValueId)
    requires d.roundState.height == sv.vote.height && sv.vote.address in Members(d.votes.validators)
    ensures var d', k := Dispatch(d, ReceiveVote(sv)).0, VK.Record(d.votes, sv, d.roundState.round).0;
            && d'.votes == k && d'.proposals == d.proposals && d'.roundState == d.roundState
            && (PolkaKnown(d', q, id) ==> PolkaKnown(d, q, id) || VotesMeet(d', q, Prevote, VK.ValueThreshold(id)))
  {
    RecordedOutputIsMet(d, sv);
  }

  lemma VoteKeepsProposing(d: Driver, sv: SignedVote, id: ValueId)
    requires Complete(d) && Filed(d) && VKR.LedgerOk(d.votes)
    requires d.roundState.height == sv.vote.height && sv.vote.address in Members(d.votes.validators)
    requires var (d', choice) := Dispatch(d, ReceiveVote(sv)); ChoiceIdle(d', choice)
    requires d.roundState.step == Proposing && d.roundState.round != NIL_ROUND
    ensures var d', r := Dispatch(d, ReceiveVote(sv)).0, d.roundState.round;
            FirstValid(d', r, id) && FirstFor(d', r, id).polRound < r ==>
              !PolkaKnown(d', FirstFor(d', r, id).polRound, id)
  {
    var (d', choice) := Dispatch(d, ReceiveVote(sv));
    var r := d.roundState.round;
    KnownByVote(d, sv, 0, id);
    assert ProposalsAt(d', r) == ProposalsAt(d, r);
    if FirstValid(d', r, id) && FirstFor(d', r, id).polRound < r {
      assert FirstValid(d, r, id) && ProposalFor(d, r, id).value in ProposalsAt(d, r);
      var q := FirstFor(d', r, id).polRound;
      KnownByVote(d, sv, q, id);
      MeetsIff(d, q, id);
      MeetsIff(d', q, id);
      if VotesMeet(d', q, Prevote, VK.ValueThreshold(id)) {
        NewQuorum(d, sv, q, VK.PolkaValue(id));
      }
    }
  }

  lemma VoteKeepsPrevoting(d: Driver, sv: SignedVote)
    requires Complete(d) && Filed(d) && VKR.LedgerOk(d.votes)
    requires d.roundState.height == sv.vote.height && sv.vote.address in Members(d.votes.validators)
    requires var (d', choice) := Dispatch(d, ReceiveVote(sv)); ChoiceIdle(d', choice)
    ensures PrevotingComplete(Dispatch(d, ReceiveVote(sv)).0)
  {
    var (d', choice) := Dispatch(d, ReceiveVote(sv));
    var r := d.roundState.round;
    KnownByVote(d, sv, 0, 0);
    assert ProposalsAt(d', r) == ProposalsAt(d, r);
    if d.roundState.step == Prevoting && r != NIL_ROUND {
      forall id | FirstValid(d', r, id) && FirstFor(d', r, id).polRound != r
        ensures !VotesMeet(d', r, Prevote, VK.ValueThreshold(id))
      {
        assert FirstValid(d, r, id) && ProposalFor(d, r, id).value in ProposalsAt(d, r);
        MeetsIff(d, r, id);
        MeetsIff(d', r, id);
        if VotesMeet(d', r, Prevote, VK.ValueThreshold(id)) {
          NewQuorum(d, sv, r, VK.PolkaValue(id));
        }
      }
      MeetsIff(d, r, 0);
      MeetsIff(d', r, 0);
      if VotesMeet(d', r, Prevote, VK.NilThreshold) {
        if VotesMeet(d, r, Prevote, VK.NilThreshold) {
          PrecommitsStay(d, sv, r);
        } else {
          NewQuorum(d, sv, r, VK.PolkaNil);
        }
      }
    }
  }

  lemma PrecommitsStay(d: Driver, sv: SignedVote, r: Round)
    requires VotesMeet(d, r, Precommit, VK.AnyThreshold)
    ensures VK.ThresholdMet(VK.Record(d.votes, sv, d.roundState.round).0, r, Precommit, VK.AnyThreshold)
  {
    var k := VK.Record(d.votes, sv, d.roundState.round).0;
    VKR.RecordGrows(d.votes, sv, d.roundState.round, r);
    VKR.WeightsGrow(d.votes, VK.TallyAt(d.votes, r), VK.TallyAt(k, r));
    VKR.MetGrows(k.params.quorum, VK.WeightSum(d.votes, VK.TallyAt(d.votes, r), Precommit),
                 VK.WeightSum(k, VK.TallyAt(k, r), Precommit), Total(k.validators));
  }

  lemma VoteKeepsComplete(d: Driver, sv: SignedVote)
    requires Complete(d) && Filed(d) && VKR.LedgerOk(d.votes)
    requires d.roundState.height == sv.vote.height && sv.vote.address in Members(d.votes.validators)
    requires var (d', choice) := Dispatch(d, ReceiveVote(sv)); ChoiceIdle(d', choice)
    ensures Complete(Dispatch(d, ReceiveVote(sv)).0)
  {
    var d', r := Dispatch(d, ReceiveVote(sv)).0, d.roundState.round;
    KnownByVote(d, sv, 0, 0);
    assert ProposalsAt(d', r) == ProposalsAt(d, r);
    VoteKeepsPrevoting(d, sv);
    if d.roundState.step == Proposing && r != NIL_ROUND {
      forall id ensures FirstValid(d', r, id) && FirstFor(d', r, id).polRound < r ==>
                          !PolkaKnown(d', FirstFor(d', r, id).polRound, id)
      {
        VoteKeepsProposing(d, sv, id);
      }
    }
  }

  // ---- Calls ----------------------------------------------------------------

  /** A round start of this height moves the driver to another round only between rounds. */
  predicate StartsFresh(d: Driver, input: DriverInput) {
    input.StartRound? && input.height == d.roundState.height ==>
      d.roundState.step == Unstarted || input.round == d.roundState.round
  }

  lemma DispatchKeepsComplete(d: Driver, input: DriverInput)
    requires Complete(d) && Filed(d) && VKR.LedgerOk(d.votes) && StartsFresh(d, input)
    requires var (d1, choice) := Dispatch(d, input); ChoiceIdle(d1, choice)
    ensures Complete(Dispatch(d, input).0)
  {
    match input
    case ReceiveProposal(sp, validity) =>
      if d.roundState.height == sp.message.height {
        ProposalKeepsComplete(d, sp, validity);
      }
    case ReceiveVote(sv) =>
      if d.roundState.height == sv.vote.height && sv.vote.address in Members(d.votes.validators) {
        VoteKeepsComplete(d, sv);
      }
    case ReceivePolka(c) =>
      if d.roundState.height == c.height {
        PolkaKeepsComplete(d, c);
      }
    case ReceiveCommit(c) => CompleteFrame(d, Dispatch(d, input).0);
    case StartRound(_, _, _) =>
      if Dispatch(d, input).0.roundState.step != Unstarted {
        CompleteFrame(d, Dispatch(d, input).0);
      }
    case _ =>
  }

  lemma DispatchKeepsFiled(d: Driver, input: DriverInput)
    requires Filed(d) && VKR.LedgerOk(d.votes)
    ensures var d1 := Dispatch(d, input).0; Filed(d1) && VKR.LedgerOk(d1.votes)
  {
    match input
    case ReceiveVote(sv) =>
      if d.roundState.height == sv.vote.height && sv.vote.address in Members(d.votes.validators) {
        KnownByVote(d, sv, 0, 0);
        VKR.RecordKeepsOk(d.votes, sv, d.roundState.round);
      }
    case ReceiveProposal(sp, validity) => assert Filed(StoreProposal(d, sp, validity));
    case _ =>
  }

  lemma KeptStepKeepsRound(s: State, info: Info, input: Input)
    ensures var s' := Apply(s, info, input).next; s'.step == s.step != Unstarted ==> s'.round == s.round
  {
  }

  lemma CallKeepsComplete(d: Driver, input: DriverInput)
    requires d.pending == [] && Complete(d) && Filed(d) && VKR.LedgerOk(d.votes)
    requires ProposerKnown(d, Call(input)) && StartsFresh(d, input)
    ensures Complete(Process(d, input).driver)
  {
    var (d1, choice) := Dispatch(d, input);
    var d' := Process(d, input).driver;
    ProcessIsChain(d, input);
    DispatchKeepsFiled(d, input);
    if choice.Err? || choice.value.None? {
      DispatchKeepsComplete(d, input);
    } else {
      var (round, i) := choice.value.value;
      if Advances(d1, round, i) {
        AdvancingCallSettles(d, input);
        SettledIsComplete(d', Process(d, input).fed);
      } else {
        PlainUnlessAdvances(d, input);
        StepAfterIs(d1.roundState, Info(round, d1.address, GetProposer(d1).value), i);
        if d'.roundState.step != Unstarted {
          KeptStepKeepsRound(d1.roundState, Info(round, d1.address, GetProposer(d1).value), i);
          DispatchKeepsComplete(d, input);
          CompleteFrame(d1, d');
        }
      }
    }
  }

  lemma PruneKeepsComplete(d: Driver, minRound: Round)
    requires Complete(d) && Filed(d) && VKR.LedgerOk(d.votes)
    ensures var d' := PruneDriver(d, minRound); Complete(d') && Filed(d') && VKR.LedgerOk(d'.votes)
  {
    var d', r := PruneDriver(d, minRound), d.roundState.round;
    assert ProposalsAt(d', r) == ProposalsAt(d, r);
    forall id ensures FirstValid(d', r, id) == FirstValid(d, r, id) {
    }
    forall q, id ensures PolkaKnown(d', q, id) ==> PolkaKnown(d, q, id) {
    }
    forall q | q in d'.votes.rounds ensures VKR.TallyOk(d'.votes, q, d'.votes.rounds[q]) {
      VKR.TallyOkFrame(d.votes, d'.votes, q, d.votes.rounds[q]);
    }
  }

  // ---- Whole runs -----------------------------------------------------------

  ghost predicate Ready(d: Driver) {
    Complete(d) && Filed(d) && VKR.LedgerOk(d.votes)
  }

  predicate OrderlyOp(d: Driver, op: Op) {
    ProposerKnown(d, op) && (op.Call? ==> StartsFresh(d, op.input))
  }

  lemma StepKeepsReady(height: Height, d: Driver, op: Op, d': Driver)
    requires Leads(height, d, op, d') && OrderlyOp(d, op) && Ready(d)
    ensures Ready(d')
  {
    match op
    case Call(input) =>
      CallKeepsComplete(d, input);
      DispatchKeepsFiled(d, input);
      ProcessIsChain(d, input);
    case PruneBelow(minRound) => PruneKeepsComplete(d, minRound);
  }

  lemma NextIsReady(height: Height, ds: seq<Driver>, ops: seq<Op>, i: nat)
    requires IsRun(height, ds, ops) && i < |ops| && OrderlyOp(ds[i], ops[i]) && Ready(ds[i])
    ensures Ready(ds[i + 1])
  {
    StepOf(height, ds, ops, i);
    StepKeepsReady(height, ds[i], ops[i], ds[i + 1]);
  }

  /**
    Nothing is missed: at every moment of every run with known proposers, in which started rounds are
    not renumbered, no valid proposal in the propose step waits for its prevote although its POL is
    there, and none in the prevote step for its precommit although its prevotes are.
  */
  lemma {:induction false} NothingIsMissed(height: Height, ds: seq<Driver>, ops: seq<Op>, n: nat)
    requires IsRun(height, ds, ops) && n <= |ops|
    requires forall i {:trigger ops[i]} :: 0 <= i < |ops| ==> OrderlyOp(ds[i], ops[i])
    ensures Ready(ds[n])
  {
    if n > 0 {
      NothingIsMissed(height, ds, ops, n - 1);
      NextIsReady(height, ds, ops, n - 1);
    }
  }
}
