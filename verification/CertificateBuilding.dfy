/**
  The certificates the driver builds from its own votes are accepted by the verifiers.
*/
module CertificateBuilding {
  import opened Types
  import opened Quorum
  import opened Certificates
  import opened DriverModel
  import VK = VoteKeeping
  import VKR = VoteKeepingRuns

  /** The recorded votes of a round carry signatures that verify, and are of this height. */
  predicate Authentic(height: Height, round: Round, received: seq<SignedVote>, verify: Verifier) {
    forall sv :: sv in received ==>
      sv.vote.height == height && sv.vote.round == round && verify(sv.vote, sv.signature)
  }

  predicate DistinctVoters(votes: seq<SignedVote>) {
    forall i, j :: 0 <= i < j < |votes| ==> votes[i].vote.address != votes[j].vote.address
  }

  function ToSignatures(votes: seq<SignedVote>): seq<RoundSignature> {
    seq(|votes|, i requires 0 <= i < |votes| => ToRoundSignature(votes[i]))
  }

  /** Signatures built from authentic votes verify for every voter. */
  lemma AllSign(height: Height, round: Round, votes: seq<SignedVote>, verify: Verifier)
    requires Authentic(height, round, votes, verify)
    ensures Signers(height, round, ToSignatures(votes), verify) == VK.AllVoters(votes)
  {
    var signatures := ToSignatures(votes);
    forall a | a in VK.AllVoters(votes) ensures a in Signers(height, round, signatures, verify) {
      var sv :| sv in votes && sv.vote.address == a;
      var i :| 0 <= i < |votes| && votes[i] == sv;
      assert signatures[i] in signatures;
      assert SignedFor(height, round, signatures[i]) == sv.vote;
    }
    forall a | a in Signers(height, round, signatures, verify) ensures a in VK.AllVoters(votes) {
      var s :| s in signatures && s.address == a;
      var i :| 0 <= i < |signatures| && signatures[i] == s;
      assert votes[i] in votes;
    }
  }

  /** Signatures built from votes are fault free exactly when no voter repeats. */
  lemma FaultFreeIff(vs: ValidatorSet, votes: seq<SignedVote>, precommitsOnly: bool)
    requires VK.Known(vs, votes)
    requires precommitsOnly ==> forall sv :: sv in votes ==> sv.vote.voteType == Precommit
    ensures FaultFree(vs, ToSignatures(votes), precommitsOnly) <==> DistinctVoters(votes)
  {
    var signatures := ToSignatures(votes);
    if DistinctVoters(votes) {
      forall i | 0 <= i < |signatures| ensures FaultAt(vs, signatures, precommitsOnly, i).None? {
        assert votes[i] in votes;
      }
    } else {
      var i, j :| 0 <= i < j < |votes| && votes[i].vote.address == votes[j].vote.address;
      assert signatures[i].address == signatures[j].address;
      assert FaultAt(vs, signatures, precommitsOnly, j).Some?;
    }
  }

  lemma DistinctCons(first: SignedVote, rest: seq<SignedVote>)
    ensures DistinctVoters([first] + rest) <==> DistinctVoters(rest) && first.vote.address !in VK.AllVoters(rest)
  {
    var all := [first] + rest;
    assert forall i :: 0 <= i < |rest| ==> rest[i] in rest && rest[i] == all[i + 1];
    if first.vote.address in VK.AllVoters(rest) {
      var sv :| sv in rest && sv.vote.address == first.vote.address;
      var k :| 0 <= k < |rest| && rest[k] == sv;
      assert all[0].vote.address == all[k + 1].vote.address;
    }
  }

  /** Keeping the first vote of each address keeps the voters and drops the repetitions. */
  lemma {:induction false} FirstPerAddressSpec(votes: seq<SignedVote>, seen: set<Address>)
    ensures var kept := FirstPerAddress(votes, seen);
            && DistinctVoters(kept)
            && (forall sv :: sv in kept ==> sv in votes)
            && VK.AllVoters(kept) == VK.AllVoters(votes) - seen
  {
    if votes != [] {
      var a := votes[0].vote.address;
      assert forall sv :: sv in votes <==> sv == votes[0] || sv in votes[1..];
      if a in seen {
        FirstPerAddressSpec(votes[1..], seen);
      } else {
        FirstPerAddressSpec(votes[1..], seen + {a});
        var rest := FirstPerAddress(votes[1..], seen + {a});
        var kept := FirstPerAddress(votes, seen);
        assert kept == [votes[0]] + rest;
        DistinctCons(votes[0], rest);
        assert forall sv :: sv in kept <==> sv == votes[0] || sv in rest;
        assert VK.AllVoters(kept) == {a} + VK.AllVoters(rest);
        assert VK.AllVoters(votes) == {a} + VK.AllVoters(votes[1..]);
      }
    }
  }

  /**
    A skip certificate is accepted whenever the weight that triggers a skip was reached: its
    deduplicated signers carry that weight.
  */
  lemma SkipCertificateAccepted(d: Driver, round: Round, verify: Verifier)
    requires round in d.votes.rounds
    requires VK.Known(d.votes.validators, VK.TallyAt(d.votes, round).received)
    requires Authentic(d.roundState.height, round, VK.TallyAt(d.votes, round).received, verify)
    requires VK.SkipMet(d.votes, VK.TallyAt(d.votes, round))
    ensures RoundAccepted(d.votes.validators, d.votes.params, BuildSkipCertificate(d, round).certificate, verify)
  {
    var received := VK.TallyAt(d.votes, round).received;
    FirstPerAddressSpec(received, {});
    assert VK.AllVoters(received) - {} == VK.AllVoters(received);
    var kept := FirstPerAddress(received, {});
    AllSign(d.roundState.height, round, kept, verify);
    FaultFreeIff(d.votes.validators, kept, false);
    assert BuildSkipCertificate(d, round).certificate.signatures == ToSignatures(kept);
  }

  /** Two votes of the type, and value if given, from one address. */
  predicate NoRepeats(votes: seq<SignedVote>, voteType: VoteType, value: Option<NilOrVal>) {
    forall i, j :: 0 <= i < j < |votes| && Matches(votes[i], voteType, value) && Matches(votes[j], voteType, value) ==>
      votes[i].vote.address != votes[j].vote.address
  }

  predicate Matches(sv: SignedVote, voteType: VoteType, value: Option<NilOrVal>) {
    sv.vote.voteType == voteType && (value.Some? ==> sv.vote.value == value.value)
  }

  /** The voters whose votes match. */
  function MatchingVoters(votes: seq<SignedVote>, voteType: VoteType, value: Option<NilOrVal>): set<Address> {
    set sv | sv in votes && Matches(sv, voteType, value) :: sv.vote.address
  }

  lemma NoRepeatsCons(first: SignedVote, rest: seq<SignedVote>, voteType: VoteType, value: Option<NilOrVal>)
    ensures NoRepeats([first] + rest, voteType, value) <==>
              && NoRepeats(rest, voteType, value)
              && (Matches(first, voteType, value) ==> first.vote.address !in MatchingVoters(rest, voteType, value))
  {
    var all := [first] + rest;
    if Matches(first, voteType, value) && first.vote.address in MatchingVoters(rest, voteType, value) {
      var sv :| sv in rest && Matches(sv, voteType, value) && sv.vote.address == first.vote.address;
      var k :| 0 <= k < |rest| && rest[k] == sv;
      assert all[0] == first && all[k + 1] == sv;
    } else if NoRepeats(all, voteType, value) {
      forall i, j | 0 <= i < j < |rest| && Matches(rest[i], voteType, value) && Matches(rest[j], voteType, value)
        ensures rest[i].vote.address != rest[j].vote.address
      {
        assert all[i + 1] == rest[i] && all[j + 1] == rest[j];
      }
    } else {
      var i, j :| 0 <= i < j < |all| && Matches(all[i], voteType, value) && Matches(all[j], voteType, value)
               && all[i].vote.address == all[j].vote.address;
      assert all[j] == rest[j - 1];
      assert i > 0 ==> all[i] == rest[i - 1];
    }
  }

  lemma VotersOfMatching(votes: seq<SignedVote>, voteType: VoteType, value: Option<NilOrVal>)
    ensures VK.AllVoters(Matching(votes, voteType, value)) == MatchingVoters(votes, voteType, value)
  {
  }

  lemma {:induction false} MatchingDistinct(votes: seq<SignedVote>, voteType: VoteType, value: Option<NilOrVal>)
    ensures DistinctVoters(Matching(votes, voteType, value)) <==> NoRepeats(votes, voteType, value)
  {
    if votes != [] {
      var rest := Matching(votes[1..], voteType, value);
      assert votes == [votes[0]] + votes[1..];
      MatchingDistinct(votes[1..], voteType, value);
      NoRepeatsCons(votes[0], votes[1..], voteType, value);
      DistinctCons(votes[0], rest);
      VotersOfMatching(votes[1..], voteType, value);
    }
  }

  /**
    A precommit round certificate for a round with a quorum of precommits is accepted exactly
    when no validator's precommit was recorded twice.
  */
  lemma PrecommitCertificateAcceptedIff(d: Driver, round: Round, verify: Verifier)
    requires round in d.votes.rounds
    requires VK.Known(d.votes.validators, VK.TallyAt(d.votes, round).received)
    requires Authentic(d.roundState.height, round, VK.TallyAt(d.votes, round).received, verify)
    requires VK.QuorumMet(d.votes, VK.WeightSum(d.votes, VK.TallyAt(d.votes, round), Precommit))
    ensures RoundAccepted(d.votes.validators, d.votes.params, BuildPrecommitCertificate(d, round).certificate, verify)
            <==> NoRepeats(VK.TallyAt(d.votes, round).received, Precommit, None)
  {
    var received := VK.TallyAt(d.votes, round).received;
    var precommits := Matching(received, Precommit, None);
    AllSign(d.roundState.height, round, precommits, verify);
    FaultFreeIff(d.votes.validators, precommits, true);
    MatchingDistinct(received, Precommit, None);
    assert VK.AllVoters(precommits) == VK.VotersOf(received, Precommit);
    assert BuildPrecommitCertificate(d, round).certificate.signatures == ToSignatures(precommits);
  }

  /** A polka certificate built from a polka is accepted exactly when no such prevote was recorded twice. */
  lemma PolkaCertificateAcceptedIff(d: Driver, round: Round, id: ValueId, verify: Verifier)
    requires VK.Known(d.votes.validators, VK.TallyAt(d.votes, round).received)
    requires Authentic(d.roundState.height, round, VK.TallyAt(d.votes, round).received, verify)
    requires VK.QuorumMet(d.votes, VK.Weight(d.votes, VK.TallyAt(d.votes, round), Prevote, Val(id)))
    ensures var built := BuildPolkaCertificate(d, round, id).polkaCertificates;
            PolkaAccepted(d.votes.validators, d.votes.params.quorum, built[|built| - 1], verify)
            <==> NoRepeats(VK.TallyAt(d.votes, round).received, Prevote, Some(Val(id)))
  {
    var received := VK.TallyAt(d.votes, round).received;
    var prevotes := Matching(received, Prevote, Some(Val(id)));
    AllSign(d.roundState.height, round, prevotes, verify);
    FaultFreeIff(d.votes.validators, prevotes, false);
    MatchingDistinct(received, Prevote, Some(Val(id)));
    assert VK.AllVoters(prevotes) == VK.Voters(received, Prevote, Val(id));
    var built := BuildPolkaCertificate(d, round, id).polkaCertificates;
    assert AsRoundSignatures(built[|built| - 1].signatures, Prevote, id) == ToSignatures(prevotes);
  }

  /** The votes recorded in every round are authentic. */
  predicate LedgerAuthentic(height: Height, k: VK.Ledger, verify: Verifier) {
    && VKR.LedgerOk(k)
    && forall r :: r in k.rounds ==> Authentic(height, r, k.rounds[r].received, verify)
  }

  lemma RecordKeepsAuthentic(height: Height, k: VK.Ledger, sv: SignedVote, round: Round, verify: Verifier)
    requires LedgerAuthentic(height, k, verify)
    requires sv.vote.height == height && verify(sv.vote, sv.signature)
    ensures LedgerAuthentic(height, VK.Record(k, sv, round).0, verify)
  {
    VKR.RecordKeepsOk(k, sv, round);
    var t := VK.TallyAt(k, sv.vote.round);
    VKR.OutputHolds(k, t.(received := t.received + [sv]), sv.vote, round);
  }
}
