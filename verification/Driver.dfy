/**
  The driver as an object that updates itself. Its loops and the decisions it takes on the
  vote keeper's running weights are proved to do what the driver model says on the recount;
  the rest of the model it calls as it is.
*/
module DriverObject {
  import opened Types
  import opened Quorum
  import opened Certificates
  import SM = StateMachine
  import VK = VoteKeeping
  import M = DriverModel
  import R = DriverRuns

  class Driver {
    const address: Address
    const votes: VK.VoteKeeper
    var proposer: Option<Address>
    var proposals: map<Round, seq<M.StoredProposal>>
    var commitCertificates: seq<CommitCertificate>
    var polkaCertificates: seq<PolkaCertificate>
    var roundState: SM.State
    var pendingInputs: seq<(Round, SM.Input)>
    var lastPrevote: Option<Vote>
    var lastPrecommit: Option<Vote>
    var roundCertificate: Option<EnterRoundCertificate>

    ghost predicate Valid()
      reads this, votes
    {
      votes.Valid()
    }

    function Model(): M.Driver
      reads this, votes
    {
      M.Driver(address, proposer, proposals, votes.Model(), commitCertificates, polkaCertificates, roundState,
               pendingInputs, lastPrevote, lastPrecommit, roundCertificate)
    }

    constructor (height: Height, validators: ValidatorSet, address: Address, params: ThresholdParams)
      requires Unique(validators) && VK.ParamsFit(validators, params)
      ensures Valid() && fresh(votes)
      ensures Model() == M.NewDriver(height, validators, address, params)
    {
      this.address := address;
      this.votes := new VK.VoteKeeper(validators, params);
      proposer := None;
      proposals := map[];
      commitCertificates := [];
      polkaCertificates := [];
      roundState := SM.NewState(height, NIL_ROUND);
      pendingInputs := [];
      lastPrevote := None;
      lastPrecommit := None;
      roundCertificate := None;
    }

    /** Take over everything but the votes. */
    method Load(d: M.Driver)
      requires Valid() && d.address == address && d.votes == votes.Model()
      modifies this
      ensures Valid() && Model() == d
    {
      proposer, proposals := d.proposer, d.proposals;
      commitCertificates, polkaCertificates := d.commitCertificates, d.polkaCertificates;
      roundState, pendingInputs := d.roundState, d.pending;
      lastPrevote, lastPrecommit, roundCertificate := d.lastPrevote, d.lastPrecommit, d.roundCertificate;
    }

    // ---- Multiplexing: these only read --------------------------------------

    method MultiplexProposal(p: Proposal, validity: Validity) returns (input: Option<SM.Input>)
      requires Valid()
      ensures input == M.MultiplexProposal(Model(), p, validity)
    {
      if roundState.round == NIL_ROUND {
        return None;
      }
      var polkaVotes := votes.IsThresholdMet(p.polRound, Prevote, VK.ValueThreshold(p.value.id));
      var polkaPrevious := p.polRound != NIL_ROUND && p.polRound < roundState.round
                           && ((exists c :: c in polkaCertificates && c.round == p.polRound) || polkaVotes);
      if validity == Invalid {
        if roundState.step != SM.Proposing {
          return None;
        }
        return if p.polRound == NIL_ROUND then Some(SM.InvalidProposal)
               else if polkaPrevious then Some(SM.InvalidProposalAndPolkaPrevious(p)) else None;
      }
      if roundState.decision == None {
        if exists c :: c in commitCertificates && c.round == p.round && c.valueId == p.value.id {
          return Some(SM.ProposalAndPrecommitValue(p));
        }
        var committed := votes.IsThresholdMet(p.round, Precommit, VK.ValueThreshold(p.value.id));
        if committed {
          return Some(SM.ProposalAndPrecommitValue(p));
        }
      }
      if roundState.round != p.round {
        return None;
      }
      var currentVotes := votes.IsThresholdMet(p.round, Prevote, VK.ValueThreshold(p.value.id));
      var polkaForCurrent := (exists c :: c in polkaCertificates && c.round == p.round) || currentVotes;
      if polkaForCurrent && roundState.step.Rank() >= SM.Step.Prevoting.Rank() {
        return Some(SM.ProposalAndPolkaCurrent(p));
      }
      if roundState.step == SM.Proposing && polkaPrevious {
        return Some(SM.ProposalAndPolkaPrevious(p));
      }
      return if p.polRound == NIL_ROUND then Some(SM.ProposalInput(p)) else None;
    }

    method NonValueThreshold(round: Round) returns (threshold: Option<VK.VKOutput>)
      requires Valid()
      ensures threshold == M.NonValueThreshold(Model(), round)
    {
      var precommitAny := votes.IsThresholdMet(round, Precommit, VK.AnyThreshold);
      var polkaNil := votes.IsThresholdMet(round, Prevote, VK.NilThreshold);
      var polkaAny := votes.IsThresholdMet(round, Prevote, VK.AnyThreshold);
      return if precommitAny then Some(VK.PrecommitAny) else if polkaNil then Some(VK.PolkaNil)
             else if polkaAny then Some(VK.PolkaAny) else None;
    }

    method MultiplexStepChange(round: Round) returns (result: seq<(Round, SM.Input)>)
      requires Valid()
      ensures result == M.StepInputs(Model(), round)
    {
      result := [];
      var stored := M.ProposalsAt(Model(), round);
      for i := 0 to |stored|
        invariant result == M.ProposalStepInputs(Model(), round, stored[..i])
      {
        var (sp, validity) := stored[i];
        assert stored[..i + 1][..i] == stored[..i];
        if roundState.step == SM.Proposing {
          var input := MultiplexProposal(sp.message, validity);
          if input.Some? {
            result := result + [(roundState.round, input.value)];
          }
        } else if roundState.step == SM.Prevoting {
          var polka := votes.IsThresholdMet(round, Prevote, VK.ValueThreshold(sp.message.value.id));
          if polka {
            result := result + [M.MultiplexVoteThreshold(Model(), VK.PolkaValue(sp.message.value.id), round)];
          }
        }
      }
      assert stored[..|stored|] == stored;
      var threshold := NonValueThreshold(round);
      if threshold.Some? {
        result := result + [M.MultiplexVoteThreshold(Model(), threshold.value, round)];
      }
    }

    // ---- Applying -----------------------------------------------------------

    method ApplyInput(round: Round, input: SM.Input) returns (r: M.Result<Option<SM.Output>>)
      requires Valid()
      modifies this
      ensures Valid()
      ensures (Model(), r) == M.ApplyInput(old(Model()), round, input)
    {
      ghost var before := Model();
      var taken := roundState;
      roundState := SM.NewState(0, NIL_ROUND);
      var leader := M.GetProposer(Model());
      if leader.Err? {
        assert Model() == before.(roundState := SM.NewState(0, NIL_ROUND));
        return M.Err(leader.error);
      }
      var transition := SM.Apply(taken, SM.Info(round, address, leader.value), input);
      roundState := transition.next;
      assert Model() == before.(roundState := transition.next);
      if taken.step != roundState.step && roundState.step != SM.Unstarted {
        pendingInputs := MultiplexStepChange(round);
      }
      return M.Ok(transition.output);
    }

    method LiftOutput(output: SM.Output) returns (lifted: seq<M.DriverOutput>)
      requires Valid() && M.VoteOfHeight(Model(), output)
      modifies this
      ensures Valid() && (Model(), lifted) == M.Lift(old(Model()), output)
    {
      var (d, outputs) := M.Lift(Model(), output);
      Load(d);
      lifted := outputs;
    }

    // ---- Messages -----------------------------------------------------------

    /** `store_skip_round_certificate` */
    method StoreSkipCertificate(round: Round)
      requires Valid() && round in Model().votes.rounds
      modifies this`roundCertificate
      ensures Valid()
      ensures Model() == old(Model()).(roundCertificate := Some(M.BuildSkipCertificate(old(Model()), round)))
    {
      var kept := KeepFirstPerAddress(votes.ReceivedVotes(round));
      roundCertificate := Some(EnterRoundFromVotes(roundState.height, round, round, SkipCertificate, kept));
    }

    method StoreCertificate(output: VK.VKOutput, round: Round)
      requires Valid() && M.RoundRecorded(Model(), output, round)
      modifies this
      ensures Valid() && Model() == M.StoreThresholdCertificate(old(Model()), output, round)
    {
      if output.SkipRound? {
        StoreSkipCertificate(output.round);
      } else {
        Load(M.StoreThresholdCertificate(Model(), output, round));
      }
    }

    method ApplyProposal(sp: SignedProposal, validity: Validity) returns (choice: M.Result<Option<(Round, SM.Input)>>)
      requires Valid() && M.SameProposer(Model(), sp.message)
      modifies this
      ensures Valid()
      ensures (Model(), choice) == M.Dispatch(old(Model()), M.ReceiveProposal(sp, validity))
    {
      if roundState.height != sp.message.height {
        return M.Err(M.InvalidProposalHeight);
      }
      Load(M.StoreProposal(Model(), sp, validity));
      var input := MultiplexProposal(sp.message, validity);
      return M.Ok(if input.Some? then Some((sp.message.round, input.value)) else None);
    }

    method ApplyVote(sv: SignedVote) returns (choice: M.Result<Option<(Round, SM.Input)>>)
      requires Valid()
      modifies this, votes
      ensures Valid()
      ensures (Model(), choice) == M.Dispatch(old(Model()), M.ReceiveVote(sv))
    {
      if roundState.height != sv.vote.height {
        return M.Err(M.InvalidVoteHeight);
      }
      if GetByAddress(votes.validators, sv.vote.address).None? {
        return M.Err(M.ValidatorNotFound);
      }
      var output := votes.ApplyVote(sv, roundState.round);
      if output.None? {
        return M.Ok(None);
      }
      StoreCertificate(output.value, sv.vote.round);
      return M.Ok(Some(M.MultiplexVoteThreshold(Model(), output.value, sv.vote.round)));
    }

    /** The messages a driver accepts: a round's proposals come from one validator. */
    ghost predicate Accepts(input: M.DriverInput)
      reads this, votes
    {
      input.ReceiveProposal? ==> M.SameProposer(Model(), input.signedProposal.message)
    }

    /** `apply`: store the message, then feed the input chosen for it, if any. */
    method Apply(input: M.DriverInput) returns (r: M.Result<Option<SM.Output>>)
      requires Valid() && Accepts(input)
      modifies this, votes
      ensures Valid()
      ensures (Model(), r) == M.ApplyMessage(old(Model()), input)
    {
      var choice: M.Result<Option<(Round, SM.Input)>>;
      match input {
        case ReceiveProposal(sp, validity) => choice := ApplyProposal(sp, validity);
        case ReceiveVote(sv) => choice := ApplyVote(sv);
        case _ =>
          var (d, chosen) := M.Dispatch(Model(), input);
          Load(d);
          choice := chosen;
      }
      match choice
      case Err(e) => r := M.Err(e);
      case Ok(None) => r := M.Ok(None);
      case Ok(Some(chosen)) => r := ApplyInput(chosen.0, chosen.1);
    }

    // ---- The loop -----------------------------------------------------------

    /** The inner loop of `process`. */
    method FeedBatch(batch: seq<(Round, SM.Input)>, outputs: seq<M.DriverOutput>)
      returns (r: M.Result<seq<M.DriverOutput>>)
      requires Valid()
      modifies this
      ensures Valid()
      ensures var fed := M.FeedAll(old(Model()), batch, outputs); Model() == fed.driver && r == fed.result
    {
      ghost var goal := M.FeedAll(Model(), batch, outputs);
      var soFar := outputs;
      for i := 0 to |batch|
        invariant Valid()
        invariant M.FeedAll(Model(), batch[i..], soFar).driver == goal.driver
        invariant M.FeedAll(Model(), batch[i..], soFar).result == goal.result
      {
        assert batch[i..][0] == batch[i] && batch[i..][1..] == batch[i + 1..];
        var output := ApplyInput(batch[i].0, batch[i].1);
        if output.Err? {
          return M.Err(output.error);
        }
        if output.value.Some? {
          var lifted := LiftOutput(output.value.value);
          soFar := soFar + lifted;
        }
      }
      return M.Ok(soFar);
    }

    /** `process`: terminates, and leaves no pending inputs. */
    /** The outer loop of `process`. */
    method DrainPending(before: seq<M.DriverOutput>) returns (r: M.Result<seq<M.DriverOutput>>)
      requires Valid() && M.PendingOk(pendingInputs)
      modifies this
      ensures Valid()
      ensures var p := M.Drain(old(Model()), before); Model() == p.driver && r == p.result
    {
      ghost var goal := M.Drain(Model(), before);
      var outputs := before;
      while pendingInputs != []
        invariant Valid() && M.PendingOk(pendingInputs)
        invariant M.Drain(Model(), outputs).driver == goal.driver
        invariant M.Drain(Model(), outputs).result == goal.result
        decreases M.StepsLeft(Model())
      {
        var batch := pendingInputs;
        M.DrainStep(Model(), outputs);
        ghost var cleared := Model().(pending := []);
        pendingInputs := [];
        assert Model() == cleared;
        var pass := FeedBatch(batch, outputs);
        if pass.Err? {
          return pass;
        }
        outputs := pass.value;
      }
      return M.Ok(outputs);
    }

    method Process(input: M.DriverInput) returns (r: M.Result<seq<M.DriverOutput>>)
      requires Valid() && Accepts(input) && pendingInputs == []
      modifies this, votes
      ensures Valid() && pendingInputs == []
      ensures var p := M.Process(old(Model()), input); Model() == p.driver && r == p.result
    {
      M.ProcessFromMessage(Model(), input);
      R.ProcessIsChain(Model(), input);
      var first := Apply(input);
      if first.Err? {
        return M.Err(first.error);
      }
      if first.value.None? {
        return M.Ok([]);
      }
      var outputs := LiftOutput(first.value.value);
      r := DrainPending(outputs);
    }

    /** `prune_votes_and_certificates` */
    method PruneVotesAndCertificates(minRound: Round)
      requires Valid()
      modifies this, votes
      ensures Valid() && Model() == R.PruneDriver(old(Model()), minRound)
    {
      votes.PruneVotes(minRound);
      var kept: seq<PolkaCertificate> := [];
      for i := 0 to |polkaCertificates|
        invariant Valid() && Model() == old(Model()).(votes := VK.Prune(old(Model()).votes, minRound))
        invariant R.CertificatesFrom(polkaCertificates, minRound) ==
                    kept + R.CertificatesFrom(polkaCertificates[i..], minRound)
      {
        if polkaCertificates[i].round >= minRound {
          kept := kept + [polkaCertificates[i]];
        }
      }
      polkaCertificates := kept;
    }
  }
}
