/**
  Certificates: sets of signed votes that prove a commit, a polka or the right to enter
  a round, and their verification against a validator set.
*/
module Certificates {
  import opened Types
  import opened Quorum

  datatype VoteSignature = VoteSignature(address: Address, signature: Signature)

  datatype CommitCertificate = CommitCertificate(
    height: Height, round: Round, valueId: ValueId, signatures: seq<VoteSignature>)

  datatype PolkaCertificate = PolkaCertificate(
    height: Height, round: Round, valueId: ValueId, signatures: seq<VoteSignature>)

  datatype RoundSignature = RoundSignature(
    voteType: VoteType, value: NilOrVal, address: Address, signature: Signature)

  datatype RoundCertificateType = SkipCertificate | PrecommitCertificate

  datatype RoundCertificate = RoundCertificate(
    height: Height, round: Round, certType: RoundCertificateType, signatures: seq<RoundSignature>)

  /** A certificate and the round it lets the node enter. */
  datatype EnterRoundCertificate = EnterRoundCertificate(certificate: RoundCertificate, enterRound: Round)

  function ToRoundSignature(sv: SignedVote): RoundSignature {
    RoundSignature(sv.vote.voteType, sv.vote.value, sv.vote.address, sv.signature)
  }

  /** `EnterRoundCertificate::new_from_votes` */
  function EnterRoundFromVotes(height: Height, enterRound: Round, round: Round,
                               certType: RoundCertificateType, votes: seq<SignedVote>): EnterRoundCertificate {
    EnterRoundCertificate(
      RoundCertificate(height, round, certType,
                       seq(|votes|, i requires 0 <= i < |votes| => ToRoundSignature(votes[i]))),
      enterRound)
  }

  /** The votes of one type, in order; for prevotes only those for `value` when one is given. */
  function Matching(votes: seq<SignedVote>, voteType: VoteType, value: Option<NilOrVal>): (r: seq<SignedVote>)
    ensures forall sv :: sv in r <==>
              sv in votes && sv.vote.voteType == voteType && (value.Some? ==> sv.vote.value == value.value)
  {
    if votes == [] then []
    else
      assert forall sv :: sv in votes <==> sv == votes[0] || sv in votes[1..];
      var rest := Matching(votes[1..], voteType, value);
      if votes[0].vote.voteType == voteType && (value.Some? ==> votes[0].vote.value == value.value)
      then [votes[0]] + rest else rest
  }

  /** The first vote of each validator not in `seen`, whatever its type. */
  function FirstPerAddress(votes: seq<SignedVote>, seen: set<Address>): seq<SignedVote> {
    if votes == [] then []
    else if votes[0].vote.address in seen then FirstPerAddress(votes[1..], seen)
    else [votes[0]] + FirstPerAddress(votes[1..], seen + {votes[0].vote.address})
  }

  /** The filter of `store_skip_round_certificate`: keep a vote unless its address was seen. */
  method KeepFirstPerAddress(votes: seq<SignedVote>) returns (kept: seq<SignedVote>)
    ensures kept == FirstPerAddress(votes, {})
  {
    var seen: set<Address> := {};
    kept := [];
    for i := 0 to |votes|
      invariant kept + FirstPerAddress(votes[i..], seen) == FirstPerAddress(votes, {})
    {
      var a := votes[i].vote.address;
      assert votes[i..][1..] == votes[i + 1..];
      if a !in seen {
        ghost var rest := FirstPerAddress(votes[i + 1..], seen + {a});
        assert kept + ([votes[i]] + rest) == (kept + [votes[i]]) + rest;
        seen := seen + {a};
        kept := kept + [votes[i]];
      }
    }
  }

  // ---- Verification ---------------------------------------------------------

  /** Whether a signature is one of that validator on that vote. */
  type Verifier = (Vote, Signature) -> bool

  datatype CertificateError =
    | DuplicateVote(address: Address)
    | UnknownValidator(address: Address)
    | InvalidVoteType(address: Address)
    | NotEnoughVotingPower(signed: nat, total: nat, expected: nat)

  datatype Verdict = Accepted | Rejected(error: CertificateError)

  /** The vote a signature of a certificate must be on. */
  function SignedFor(height: Height, round: Round, s: RoundSignature): Vote {
    Vote(s.voteType, height, round, s.value, s.address)
  }

  /** The signers whose signature verifies. */
  function Signers(height: Height, round: Round, signatures: seq<RoundSignature>, verify: Verifier): set<Address> {
    set s | s in signatures && verify(SignedFor(height, round, s), s.signature) :: s.address
  }

  /** Why the `i`-th signature stops the verification, if it does. */
  function FaultAt(vs: ValidatorSet, signatures: seq<RoundSignature>, precommitsOnly: bool,
                   i: nat): Option<CertificateError>
    requires i < |signatures|
  {
    var s := signatures[i];
    if exists j :: 0 <= j < i && signatures[j].address == s.address then Some(DuplicateVote(s.address))
    else if s.address !in Members(vs) then Some(UnknownValidator(s.address))
    else if precommitsOnly && s.voteType == Prevote then Some(InvalidVoteType(s.address))
    else None
  }

  predicate FaultFree(vs: ValidatorSet, signatures: seq<RoundSignature>, precommitsOnly: bool) {
    forall i :: 0 <= i < |signatures| ==> FaultAt(vs, signatures, precommitsOnly, i).None?
  }

  predicate VerificationFits(vs: ValidatorSet, threshold: ThresholdParam) {
    Total(vs) <= U64_MAX && threshold.Fits(Total(vs)) && threshold.MinExpected(Total(vs)).Some?
  }

  /**
    The loop shared by the three verifiers: the first faulty signature decides, otherwise the
    power behind the signatures that verify does. No addition or multiplication overflows.
  */
  method VerifySignatures(vs: ValidatorSet, threshold: ThresholdParam, height: Height, round: Round,
                          signatures: seq<RoundSignature>, precommitsOnly: bool, verify: Verifier)
    returns (verdict: Verdict)
    requires Unique(vs) && VerificationFits(vs, threshold)
    ensures verdict.Accepted? <==>
              && FaultFree(vs, signatures, precommitsOnly)
              && threshold.Met(Power(vs, Signers(height, round, signatures, verify)), Total(vs))
    ensures verdict.Rejected? && !verdict.error.NotEnoughVotingPower? ==>
              exists i :: 0 <= i < |signatures|
                && FaultAt(vs, signatures, precommitsOnly, i) == Some(verdict.error)
                && forall j :: 0 <= j < i ==> FaultAt(vs, signatures, precommitsOnly, j).None?
    ensures verdict.Rejected? && verdict.error.NotEnoughVotingPower? ==>
              && FaultFree(vs, signatures, precommitsOnly)
              && verdict.error.signed == Power(vs, Signers(height, round, signatures, verify))
              && verdict.error.total == Total(vs)
              && verdict.error.signed < verdict.error.expected
  {
    var signed := 0;
    var seen: seq<Address> := [];
    PowerOfNone(vs, {});
    assert Signers(height, round, [], verify) == {};
    for i := 0 to |signatures|
      invariant forall j :: 0 <= j < i ==> FaultAt(vs, signatures, precommitsOnly, j).None?
      invariant |seen| == i && forall j :: 0 <= j < i ==> seen[j] == signatures[j].address
      invariant signed == Power(vs, Signers(height, round, signatures[..i], verify))
    {
      var s := signatures[i];
      if s.address in seen {
        assert FaultAt(vs, signatures, precommitsOnly, i) == Some(DuplicateVote(s.address));
        return Rejected(DuplicateVote(s.address));
      }
      assert forall j :: 0 <= j < i ==> seen[j] in seen;
      assert !exists j :: 0 <= j < i && signatures[j].address == s.address;
      seen := seen + [s.address];
      var validator := GetByAddress(vs, s.address);
      if validator.None? {
        assert FaultAt(vs, signatures, precommitsOnly, i) == Some(UnknownValidator(s.address));
        return Rejected(UnknownValidator(s.address));
      }
      if precommitsOnly && s.voteType == Prevote {
        assert FaultAt(vs, signatures, precommitsOnly, i) == Some(InvalidVoteType(s.address));
        return Rejected(InvalidVoteType(s.address));
      }
      SignersAfter(height, round, signatures, verify, i);
      if verify(SignedFor(height, round, s), s.signature) {
        PowerAdd(vs, Signers(height, round, signatures[..i], verify), s.address);
        PowerAtMostTotal(vs, Signers(height, round, signatures[..i + 1], verify));
        signed := CheckedAdd(signed, validator.value.power).value;
      }
    }
    assert signatures[..|signatures|] == signatures;
    PowerAtMostTotal(vs, Signers(height, round, signatures, verify));
    FittingTestNeverPanics(threshold, signed, Total(vs));
    MetFromMinimum(threshold, signed, Total(vs));
    if threshold.IsMet(signed, Total(vs)).value {
      return Accepted;
    }
    return Rejected(NotEnoughVotingPower(signed, Total(vs), threshold.MinExpected(Total(vs)).value));
  }

  /** A signer not seen before joins the signers if its signature verifies. */
  lemma SignersAfter(height: Height, round: Round, signatures: seq<RoundSignature>, verify: Verifier, i: nat)
    requires i < |signatures|
    requires forall j :: 0 <= j < i ==> signatures[j].address != signatures[i].address
    ensures signatures[i].address !in Signers(height, round, signatures[..i], verify)
    ensures Signers(height, round, signatures[..i + 1], verify) ==
              if verify(SignedFor(height, round, signatures[i]), signatures[i].signature)
              then Signers(height, round, signatures[..i], verify) + {signatures[i].address}
              else Signers(height, round, signatures[..i], verify)
  {
  }

  /** The signatures of a certificate for one value, as signatures on votes of one type. */
  function AsRoundSignatures(signatures: seq<VoteSignature>, voteType: VoteType,
                             id: ValueId): (r: seq<RoundSignature>) {
    seq(|signatures|, i requires 0 <= i < |signatures| =>
      RoundSignature(voteType, Val(id), signatures[i].address, signatures[i].signature))
  }

  /** The verdict of `verify_commit_certificate` is acceptance. */
  ghost predicate CommitAccepted(vs: ValidatorSet, quorum: ThresholdParam, c: CommitCertificate, verify: Verifier) {
    var signatures := AsRoundSignatures(c.signatures, Precommit, c.valueId);
    && FaultFree(vs, signatures, false)
    && quorum.Met(Power(vs, Signers(c.height, c.round, signatures, verify)), Total(vs))
  }

  ghost predicate PolkaAccepted(vs: ValidatorSet, quorum: ThresholdParam, c: PolkaCertificate, verify: Verifier) {
    var signatures := AsRoundSignatures(c.signatures, Prevote, c.valueId);
    && FaultFree(vs, signatures, false)
    && quorum.Met(Power(vs, Signers(c.height, c.round, signatures, verify)), Total(vs))
  }

  function RoundThreshold(params: ThresholdParams, certType: RoundCertificateType): ThresholdParam {
    if certType == PrecommitCertificate then params.quorum else params.honest
  }

  ghost predicate RoundAccepted(vs: ValidatorSet, params: ThresholdParams, c: RoundCertificate, verify: Verifier) {
    && FaultFree(vs, c.signatures, c.certType == PrecommitCertificate)
    && RoundThreshold(params, c.certType).Met(
         Power(vs, Signers(c.height, c.round, c.signatures, verify)), Total(vs))
  }

  method VerifyCommitCertificate(c: CommitCertificate, vs: ValidatorSet, params: ThresholdParams, verify: Verifier)
    returns (verdict: Verdict)
    requires Unique(vs) && VerificationFits(vs, params.quorum)
    ensures verdict.Accepted? <==> CommitAccepted(vs, params.quorum, c, verify)
  {
    verdict := VerifySignatures(vs, params.quorum, c.height, c.round,
                                AsRoundSignatures(c.signatures, Precommit, c.valueId), false, verify);
  }

  method VerifyPolkaCertificate(c: PolkaCertificate, vs: ValidatorSet, params: ThresholdParams, verify: Verifier)
    returns (verdict: Verdict)
    requires Unique(vs) && VerificationFits(vs, params.quorum)
    ensures verdict.Accepted? <==> PolkaAccepted(vs, params.quorum, c, verify)
  {
    verdict := VerifySignatures(vs, params.quorum, c.height, c.round,
                                AsRoundSignatures(c.signatures, Prevote, c.valueId), false, verify);
  }

  method VerifyRoundCertificate(c: RoundCertificate, vs: ValidatorSet, params: ThresholdParams, verify: Verifier)
    returns (verdict: Verdict)
    requires Unique(vs) && VerificationFits(vs, RoundThreshold(params, c.certType))
    ensures verdict.Accepted? <==> RoundAccepted(vs, params, c, verify)
  {
    verdict := VerifySignatures(vs, RoundThreshold(params, c.certType), c.height, c.round,
                                c.signatures, c.certType == PrecommitCertificate, verify);
  }

  // ---- What acceptance means ------------------------------------------------

  /** The signatures are of pairwise different validators of the set. */
  predicate DistinctKnown(vs: ValidatorSet, signatures: seq<RoundSignature>) {
    && (forall i, j :: 0 <= i < j < |signatures| ==> signatures[i].address != signatures[j].address)
    && (forall s :: s in signatures ==> s.address in Members(vs))
  }

  lemma FaultFreeMeans(vs: ValidatorSet, signatures: seq<RoundSignature>, precommitsOnly: bool)
    ensures FaultFree(vs, signatures, precommitsOnly) <==>
              && DistinctKnown(vs, signatures)
              && (precommitsOnly ==> forall s :: s in signatures ==> s.voteType == Precommit)
  {
    if FaultFree(vs, signatures, precommitsOnly) {
      forall i | 0 <= i < |signatures|
        ensures signatures[i].address in Members(vs) && (precommitsOnly ==> signatures[i].voteType == Precommit)
        ensures forall j :: 0 <= j < i ==> signatures[j].address != signatures[i].address
      {
        assert FaultAt(vs, signatures, precommitsOnly, i).None?;
      }
    } else {
      var i :| 0 <= i < |signatures| && FaultAt(vs, signatures, precommitsOnly, i).Some?;
      assert signatures[i] in signatures;
    }
  }

  /** The validators with a verifying precommit of the certificate's height and round in it. */
  function PrecommitSigners(c: RoundCertificate, verify: Verifier): set<Address> {
    set s | s in c.signatures && s.voteType == Precommit
         && verify(Vote(Precommit, c.height, c.round, s.value, s.address), s.signature) :: s.address
  }

  /** The validators with a verifying vote of the certificate's height and round in it, of either type. */
  function VoteSigners(c: RoundCertificate, verify: Verifier): set<Address> {
    set s | s in c.signatures
         && verify(Vote(s.voteType, c.height, c.round, s.value, s.address), s.signature) :: s.address
  }

  /**
    A precommit certificate of a round is accepted if and only if its signers are distinct and known,
    none of its signatures is for a prevote, and those with verifying precommits of the round hold
    more than two thirds of the power. For a skip certificate verifying votes of either type count,
    and one third is enough.
  */
  lemma RoundAcceptedIff(vs: ValidatorSet, c: RoundCertificate, verify: Verifier)
    ensures RoundAccepted(vs, DEFAULT_PARAMS, c, verify) <==>
              && DistinctKnown(vs, c.signatures)
              && if c.certType == PrecommitCertificate then
                   && (forall s :: s in c.signatures ==> s.voteType == Precommit)
                   && IsQuorum(vs, PrecommitSigners(c, verify))
                 else IsHonestThreshold(vs, VoteSigners(c, verify))
  {
    FaultFreeMeans(vs, c.signatures, c.certType == PrecommitCertificate);
    var signers := Signers(c.height, c.round, c.signatures, verify);
    assert signers == VoteSigners(c, verify);
    if forall s :: s in c.signatures ==> s.voteType == Precommit {
      assert signers == PrecommitSigners(c, verify);
    }
  }

  /** The validators with a verifying vote for the value in a certificate for one value. */
  function ValueSigners(voteType: VoteType, height: Height, round: Round, id: ValueId, signatures: seq<VoteSignature>,
                        verify: Verifier): set<Address> {
    set s | s in signatures && verify(Vote(voteType, height, round, Val(id), s.address), s.signature) :: s.address
  }

  predicate DistinctKnownSigners(vs: ValidatorSet, signatures: seq<VoteSignature>) {
    && (forall i, j :: 0 <= i < j < |signatures| ==> signatures[i].address != signatures[j].address)
    && (forall s :: s in signatures ==> s.address in Members(vs))
  }

  lemma SignaturesForValue(vs: ValidatorSet, voteType: VoteType, height: Height, round: Round, id: ValueId,
                           signatures: seq<VoteSignature>, verify: Verifier)
    ensures var rs := AsRoundSignatures(signatures, voteType, id);
            && (FaultFree(vs, rs, false) <==> DistinctKnownSigners(vs, signatures))
            && Signers(height, round, rs, verify) == ValueSigners(voteType, height, round, id, signatures, verify)
  {
    var rs := AsRoundSignatures(signatures, voteType, id);
    FaultFreeMeans(vs, rs, false);
    forall s | s in signatures ensures RoundSignature(voteType, Val(id), s.address, s.signature) in rs {
      var i :| 0 <= i < |signatures| && signatures[i] == s;
      assert rs[i] == RoundSignature(voteType, Val(id), s.address, s.signature);
    }
    forall x | x in rs ensures VoteSignature(x.address, x.signature) in signatures {
      var i :| 0 <= i < |rs| && rs[i] == x;
      assert signatures[i] == VoteSignature(x.address, x.signature);
    }
    assert forall i :: 0 <= i < |signatures| ==> rs[i].address == signatures[i].address;
  }

  /** A polka certificate is accepted if and only if distinct known signers with a quorum prevoted its value. */
  lemma PolkaAcceptedIff(vs: ValidatorSet, c: PolkaCertificate, verify: Verifier)
    ensures PolkaAccepted(vs, TWO_F_PLUS_ONE, c, verify) <==>
              && DistinctKnownSigners(vs, c.signatures)
              && IsQuorum(vs, ValueSigners(Prevote, c.height, c.round, c.valueId, c.signatures, verify))
  {
    SignaturesForValue(vs, Prevote, c.height, c.round, c.valueId, c.signatures, verify);
  }

  /** A commit certificate is accepted if and only if distinct known signers with a quorum precommitted its value. */
  lemma CommitAcceptedIff(vs: ValidatorSet, c: CommitCertificate, verify: Verifier)
    ensures CommitAccepted(vs, TWO_F_PLUS_ONE, c, verify) <==>
              && DistinctKnownSigners(vs, c.signatures)
              && IsQuorum(vs, ValueSigners(Precommit, c.height, c.round, c.valueId, c.signatures, verify))
  {
    SignaturesForValue(vs, Precommit, c.height, c.round, c.valueId, c.signatures, verify);
  }

  /** The validator signed, verifiably, a precommit for that value. */
  predicate SignedPrecommit(c: CommitCertificate, verify: Verifier, a: Address) {
    exists s :: s in c.signatures && s.address == a
             && verify(Vote(Precommit, c.height, c.round, Val(c.valueId), a), s.signature)
  }

  /**
    An accepted commit certificate has distinct, known signers, and those with verifying
    precommits for its value hold more than two thirds of the power.
  */
  lemma AcceptedCommitIsQuorum(vs: ValidatorSet, c: CommitCertificate, verify: Verifier) returns (signers: set<Address>)
    requires CommitAccepted(vs, TWO_F_PLUS_ONE, c, verify)
    ensures DistinctKnownSigners(vs, c.signatures)
    ensures forall a :: a in signers ==> SignedPrecommit(c, verify, a)
    ensures IsQuorum(vs, signers)
  {
    CommitAcceptedIff(vs, c, verify);
    signers := ValueSigners(Precommit, c.height, c.round, c.valueId, c.signatures, verify);
  }

  /**
    Accountability: two accepted commit certificates for one height and round but different
    values expose validators with more than one third of the power that signed both.
  */
  lemma ConflictingCommitsExposeSigners(vs: ValidatorSet, c: CommitCertificate, c': CommitCertificate, verify: Verifier)
    returns (culprits: set<Address>)
    requires CommitAccepted(vs, TWO_F_PLUS_ONE, c, verify) && CommitAccepted(vs, TWO_F_PLUS_ONE, c', verify)
    requires c.height == c'.height && c.round == c'.round && c.valueId != c'.valueId
    ensures IsHonestThreshold(vs, culprits)
    ensures forall a :: a in culprits ==> SignedPrecommit(c, verify, a) && SignedPrecommit(c', verify, a)
  {
    var signers := AcceptedCommitIsQuorum(vs, c, verify);
    var signers' := AcceptedCommitIsQuorum(vs, c', verify);
    QuorumsOverlap(vs, signers, signers');
    culprits := signers * signers';
  }
}
