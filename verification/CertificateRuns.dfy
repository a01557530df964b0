/**
  The certificates drivers build, over whole runs: every skip certificate stored is accepted, and
  the others exactly when no vote they are built from was recorded twice.
*/
module CertificateRuns {
  import opened Types
  import opened Quorum
  import opened StateMachine
  import opened Certificates
  import opened CertificateBuilding
  import opened DriverModel
  import opened DriverRuns
  import opened DriverBacking
  import VK = VoteKeeping
  import VKR = VoteKeepingRuns

  /** Votes come with signatures that verify. */
  predicate Signed(op: Op, verify: Verifier) {
    op.Call? && op.input.ReceiveVote? ==> verify(op.input.signedVote.vote, op.input.signedVote.signature)
  }

  /** A run on authentic votes, with the proposer known. */
  ghost predicate SignedRun(height: Height, ds: seq<Driver>, ops: seq<Op>, verify: Verifier) {
    IsRun(height, ds, ops) && AllProper(ds, ops, verify)
  }

  predicate AllProper(ds: seq<Driver>, ops: seq<Op>, verify: Verifier) {
    |ops| <= |ds| && forall i {:trigger ops[i]} :: 0 <= i < |ops| ==> Proper(ds[i], ops[i], verify)
  }

  predicate Proper(d: Driver, op: Op, verify: Verifier) {
    ProposerKnown(d, op) && Signed(op, verify)
  }

  lemma StepOfRun(height: Height, ds: seq<Driver>, ops: seq<Op>, verify: Verifier, i: nat)
    requires SignedRun(height, ds, ops, verify) && i < |ops|
    ensures Leads(height, ds[i], ops[i], ds[i + 1]) && Proper(ds[i], ops[i], verify)
  {
  }

  /** Only a vote of a known validator at this height is recorded. */
  predicate Counted(d: Driver, input: DriverInput) {
    && input.ReceiveVote? && input.signedVote.vote.height == d.roundState.height
    && input.signedVote.vote.address in Members(d.votes.validators)
  }

  /** What a call does to the votes and the certificates is done when its message is stored. */
  lemma CallStores(d: Driver, input: DriverInput)
    requires d.pending == []
    ensures var d1, d' := Dispatch(d, input).0, Process(d, input).driver;
            && d'.votes == d1.votes && d'.roundCertificate == d1.roundCertificate
            && d'.polkaCertificates == d1.polkaCertificates
            && d1.votes == (if Counted(d, input) then VK.Record(d.votes, input.signedVote, d.roundState.round).0
                            else d.votes)
            && (!Counted(d, input) ==> d1.roundCertificate == d.roundCertificate)
  {
    ProcessIsChain(d, input);
    DispatchStores(d, input);
  }

  lemma DispatchStores(d: Driver, input: DriverInput)
    ensures var d1 := Dispatch(d, input).0;
            && d1.votes == (if Counted(d, input) then VK.Record(d.votes, input.signedVote, d.roundState.round).0
                            else d.votes)
            && (!Counted(d, input) ==> d1.roundCertificate == d.roundCertificate)
  {
  }

  lemma PruneKeepsAuthentic(height: Height, k: VK.Ledger, minRound: Round, verify: Verifier)
    requires LedgerAuthentic(height, k, verify)
    ensures LedgerAuthentic(height, VK.Prune(k, minRound), verify)
  {
  }

  lemma RunIsProper(height: Height, ds: seq<Driver>, ops: seq<Op>, verify: Verifier)
    requires SignedRun(height, ds, ops, verify)
    ensures ProposersKnown(ds, ops)
  {
    forall i | 0 <= i < |ops| ensures ProposerKnown(ds[i], ops[i]) {
      assert Proper(ds[i], ops[i], verify);
    }
  }

  lemma {:induction false} RunKeepsAuthentic(height: Height, ds: seq<Driver>, ops: seq<Op>, verify: Verifier, n: nat)
    requires SignedRun(height, ds, ops, verify) && n <= |ops|
    ensures LedgerAuthentic(height, ds[n].votes, verify) && ds[n].roundState.height == height
  {
    RunIsProper(height, ds, ops, verify);
    RunKeepsDriverOk(height, ds, ops, n);
    if n > 0 {
      RunKeepsAuthentic(height, ds, ops, verify, n - 1);
      NextKeepsAuthentic(height, ds, ops, verify, n - 1);
    }
  }

  lemma StepKeepsAuthentic(height: Height, d: Driver, op: Op, d': Driver, verify: Verifier)
    requires Leads(height, d, op, d') && Proper(d, op, verify)
    requires LedgerAuthentic(height, d.votes, verify) && d.roundState.height == height
    ensures LedgerAuthentic(height, d'.votes, verify)
  {
    match op
    case Call(input) =>
      CallStores(d, input);
      if Counted(d, input) {
        RecordKeepsAuthentic(height, d.votes, input.signedVote, d.roundState.round, verify);
      }
    case PruneBelow(r) => PruneKeepsAuthentic(height, d.votes, r, verify);
  }

  lemma NextKeepsAuthentic(height: Height, ds: seq<Driver>, ops: seq<Op>, verify: Verifier, n: nat)
    requires SignedRun(height, ds, ops, verify) && n < |ops|
    requires LedgerAuthentic(height, ds[n].votes, verify) && ds[n].roundState.height == height
    ensures LedgerAuthentic(height, ds[n + 1].votes, verify)
  {
    StepOfRun(height, ds, ops, verify, n);
    StepKeepsAuthentic(height, ds[n], ops[n], ds[n + 1], verify);
  }

  /**
    Which round the certificate lets the node enter, and what the verifier says of it, given the
    votes it was built from.
  */
  ghost predicate Judged(d: Driver, held: EnterRoundCertificate, verify: Verifier) {
    var c := held.certificate;
    var accepted := RoundAccepted(d.votes.validators, d.votes.params, c, verify);
    if c.certType == SkipCertificate then held.enterRound == c.round && accepted
    else
      && held.enterRound == c.round + 1
      && (accepted <==> NoRepeats(VK.TallyAt(d.votes, c.round).received, Precommit, None))
  }

  lemma TallyIsAuthentic(height: Height, k: VK.Ledger, round: Round, verify: Verifier)
    requires LedgerAuthentic(height, k, verify)
    ensures VK.Known(k.validators, VK.TallyAt(k, round).received)
    ensures Authentic(height, round, VK.TallyAt(k, round).received, verify)
  {
    if round in k.rounds {
      assert VKR.TallyOk(k, round, k.rounds[round]);
    }
  }

  /** A vote that stores a round certificate stores one the verifier judges so. */
  lemma StoredIsJudged(height: Height, d: Driver, sv: SignedVote, verify: Verifier)
    requires LedgerAuthentic(height, d.votes, verify) && d.roundState.height == height
    requires Counted(d, ReceiveVote(sv)) && verify(sv.vote, sv.signature)
    ensures var d1 := Dispatch(d, ReceiveVote(sv)).0;
            d1.roundCertificate != d.roundCertificate ==>
              d1.roundCertificate.Some? && Judged(d1, d1.roundCertificate.value, verify)
  {
    RecordKeepsAuthentic(height, d.votes, sv, d.roundState.round, verify);
    RecordedOutputIsMet(d, sv);
    var (k, o) := VK.Record(d.votes, sv, d.roundState.round);
    var d0 := d.(votes := k);
    TallyIsAuthentic(height, k, sv.vote.round, verify);
    SkipIsForItsRound(d.votes, sv, d.roundState.round);
    if o.Some? {
      match o.value
      case SkipRound(r) => SkipCertificateAccepted(d0, r, verify);
      case PrecommitAny => PrecommitCertificateAcceptedIff(d0, sv.vote.round, verify);
      case _ =>
    }
  }

  lemma SkipIsForItsRound(k: VK.Ledger, sv: SignedVote, round: Round)
    ensures var o := VK.Record(k, sv, round).1; o.Some? && o.value.SkipRound? ==> o.value.round == sv.vote.round
  {
  }

  /**
    Producer and verifier agree over every run: the round certificate held was stored by some earlier
    call, and the verifier accepts it if it is a skip certificate; a precommit certificate it accepts if
    and only if no precommit of the round had been recorded twice by then.
  */
  lemma {:induction false} HeldCertificateIsJudged(height: Height, ds: seq<Driver>, ops: seq<Op>, verify: Verifier,
                                                   n: nat)
    returns (m: nat)
    requires SignedRun(height, ds, ops, verify) && n <= |ops| && ds[n].roundCertificate.Some?
    ensures m < n && ds[m + 1].roundCertificate == ds[n].roundCertificate
    ensures Judged(ds[m + 1], ds[n].roundCertificate.value, verify)
  {
    m := n - 1;
    NextIsJudged(height, ds, ops, verify, m);
    if ds[m].roundCertificate == ds[n].roundCertificate {
      m := HeldCertificateIsJudged(height, ds, ops, verify, m);
    }
  }

  lemma NextIsJudged(height: Height, ds: seq<Driver>, ops: seq<Op>, verify: Verifier, n: nat)
    requires SignedRun(height, ds, ops, verify) && n < |ops|
    ensures var d' := ds[n + 1];
            d'.roundCertificate != ds[n].roundCertificate ==>
              d'.roundCertificate.Some? && Judged(d', d'.roundCertificate.value, verify)
  {
    RunKeepsAuthentic(height, ds, ops, verify, n);
    StepOfRun(height, ds, ops, verify, n);
    NewCertificateIsJudged(height, ds[n], ops[n], ds[n + 1], verify);
  }

  lemma NewCertificateIsJudged(height: Height, d: Driver, op: Op, d': Driver, verify: Verifier)
    requires Leads(height, d, op, d') && Signed(op, verify)
    requires LedgerAuthentic(height, d.votes, verify) && d.roundState.height == height
    ensures d'.roundCertificate != d.roundCertificate ==>
              d'.roundCertificate.Some? && Judged(d', d'.roundCertificate.value, verify)
  {
    if op.Call? {
      CallStores(d, op.input);
      if Counted(d, op.input) {
        StoredIsJudged(height, d, op.input.signedVote, verify);
      }
    }
  }

  /** The same for the polka certificate a vote completes. */
  lemma BuiltPolkaIsJudged(height: Height, ds: seq<Driver>, ops: seq<Op>, verify: Verifier, n: nat, id: ValueId)
    requires SignedRun(height, ds, ops, verify) && n < |ops| && ops[n].Call? && Counted(ds[n], ops[n].input)
    requires VK.Record(ds[n].votes, ops[n].input.signedVote, ds[n].roundState.round).1 == Some(VK.PolkaValue(id))
    ensures var d, round := ds[n + 1], ops[n].input.signedVote.vote.round;
            && d.polkaCertificates != []
            && (PolkaAccepted(d.votes.validators, d.votes.params.quorum, d.polkaCertificates[|d.polkaCertificates| - 1],
                              verify)
                <==> NoRepeats(VK.TallyAt(d.votes, round).received, Prevote, Some(Val(id))))
  {
    var d, sv := ds[n], ops[n].input.signedVote;
    RunKeepsAuthentic(height, ds, ops, verify, n);
    StepOfRun(height, ds, ops, verify, n);
    CallStores(d, ops[n].input);
    RecordKeepsAuthentic(height, d.votes, sv, d.roundState.round, verify);
    RecordedOutputIsMet(d, sv);
    var k := VK.Record(d.votes, sv, d.roundState.round).0;
    TallyIsAuthentic(height, k, sv.vote.round, verify);
    PolkaCertificateAcceptedIff(d.(votes := k), sv.vote.round, id, verify);
  }

  // ---- When a certificate is stored -----------------------------------------

  function SignersOf(c: RoundCertificate): set<Address> {
    set s | s in c.signatures :: s.address
  }

  /** A round certificate of this type, to enter `enter`, signed by exactly these. */
  predicate IsCertificate(held: Option<EnterRoundCertificate>, certType: RoundCertificateType, round: Round,
                          enter: Round, signers: set<Address>) {
    && held.Some? && held.value.enterRound == enter
    && held.value.certificate.certType == certType && held.value.certificate.round == round
    && SignersOf(held.value.certificate) == signers
  }

  lemma SignersOfVotes(height: Height, enter: Round, round: Round, certType: RoundCertificateType,
                       votes: seq<SignedVote>)
    ensures IsCertificate(Some(EnterRoundFromVotes(height, enter, round, certType, votes)), certType, round, enter,
                          VK.AllVoters(votes))
  {
    var c := EnterRoundFromVotes(height, enter, round, certType, votes).certificate;
    forall sv | sv in votes ensures sv.vote.address in SignersOf(c) {
      var i :| 0 <= i < |votes| && votes[i] == sv;
      assert c.signatures[i] == ToRoundSignature(sv);
    }
  }

  /**
    A recorded vote stores a certificate if and only if it reports something that calls for one: a skip,
    a quorum of precommits for the round the driver is in, or a polka. The certificate is signed by all
    who voted so.
  */
  lemma CertificateIsStored(d: Driver, sv: SignedVote)
    requires d.pending == [] && Counted(d, ReceiveVote(sv))
    ensures var (k, o) := VK.Record(d.votes, sv, d.roundState.round);
            var d', r := Process(d, ReceiveVote(sv)).driver, sv.vote.round;
            var received := VK.TallyAt(k, r).received;
            match o
            case Some(SkipRound(_)) =>
              IsCertificate(d'.roundCertificate, SkipCertificate, r, r, VK.AllVoters(received))
            case Some(PrecommitAny) =>
              if r == d.roundState.round
              then IsCertificate(d'.roundCertificate, PrecommitCertificate, r, r + 1, VK.VotersOf(received, Precommit))
              else d'.roundCertificate == d.roundCertificate
            case Some(PolkaValue(id)) =>
              HasPolkaCertificate(d', r, id) && d'.roundCertificate == d.roundCertificate
            case _ => d'.roundCertificate == d.roundCertificate && d'.polkaCertificates == d.polkaCertificates
  {
    CallStores(d, ReceiveVote(sv));
    var (k, o) := VK.Record(d.votes, sv, d.roundState.round);
    var r, received := sv.vote.round, VK.TallyAt(k, sv.vote.round).received;
    SkipIsForItsRound(d.votes, sv, d.roundState.round);
    match o
    case Some(SkipRound(_)) =>
      FirstPerAddressSpec(received, {});
      assert VK.AllVoters(received) - {} == VK.AllVoters(received);
      SignersOfVotes(d.roundState.height, r, r, SkipCertificate, FirstPerAddress(received, {}));
    case Some(PrecommitAny) =>
      var precommits := Matching(received, Precommit, None);
      assert VK.AllVoters(precommits) == VK.VotersOf(received, Precommit);
      SignersOfVotes(d.roundState.height, r + 1, r, PrecommitCertificate, precommits);
    case Some(PolkaValue(id)) =>
      var d1 := Dispatch(d, ReceiveVote(sv)).0;
      assert d1.polkaCertificates[|d1.polkaCertificates| - 1].round == r;
    case _ =>
  }

  // ---- A vote recorded twice ------------------------------------------------

  const PAIR: ValidatorSet := [Validator(0, 1), Validator(1, 2)]

  lemma PowerOfPair(s: set<Address>)
    ensures Power(PAIR, s) == (if 0 in s then 1 else 0) + (if 1 in s then 2 else 0)
    ensures Total(PAIR) == 3 && Members(PAIR) == {0, 1}
  {
    var one := PAIR[1..];
    assert one == [Validator(1, 2)] && one[1..] == [];
    assert Power(one, s) == (if 1 in s then 2 else 0) + Power([], s);
    assert Total(one) == 2;
    assert PAIR[0] in PAIR && PAIR[1] in PAIR;
  }

  function NilFrom(who: Address, signature: Signature): SignedVote {
    SignedVote(Vote(Precommit, 1, 0, Nil, who), signature)
  }

  /** The driver in round 0, with these precommits recorded. */
  function With(received: seq<SignedVote>): Driver {
    var d := NewDriver(1, PAIR, 0, DEFAULT_PARAMS).(
      proposer := Some(1), roundState := State(1, 0, Proposing, None, None, None));
    if received == [] then d else d.(votes := d.votes.(rounds := map[0 := VK.Tally(received, {})]))
  }

  const TWICE := [NilFrom(0, 0), NilFrom(0, 1)]

  predicate Moves(d: Driver, input: DriverInput, d': Driver) {
    Leads(1, d, Call(input), d') && ProposerKnown(d, Call(input))
  }

  /** After the round start and the first `n` of these votes. */
  function Recorded(n: nat): Driver
    requires n <= 2
  {
    With(TWICE[..n])
  }

  lemma StartsWithNone()
    ensures Moves(NewDriver(1, PAIR, 0, DEFAULT_PARAMS), StartRound(1, 0, 1), Recorded(0))
  {
    PowerOfPair({});
    var d := NewDriver(1, PAIR, 0, DEFAULT_PARAMS);
    var d1 := Dispatch(d, StartRound(1, 0, 1)).0;
    assert StepInputs(d1.(roundState := Next(d1, 0, NewRound(0)).next), 0) == [];
    PlainCall(d, StartRound(1, 0, 1), 0, NewRound(0));
  }

  /** Precommits of validator 0 alone reach no threshold. */
  lemma FirstRecord(n: nat)
    requires n < 2
    ensures VK.Record(Recorded(n).votes, TWICE[n], 0) == (Recorded(n + 1).votes, None)
  {
    PowerOfPair({0});
    var k, sv, t := Recorded(n).votes, TWICE[n], VK.Tally(TWICE[..n + 1], {});
    assert t.received == TWICE[..n] + [sv];
    assert sv in t.received && forall x :: x in t.received ==> x.vote == sv.vote;
    assert VK.Voters(t.received, Precommit, Nil) == {0} && VK.VotersOf(t.received, Precommit) == {0};
    assert VK.TallyAt(k, 0) == VK.Tally(TWICE[..n], {});
    assert VK.Record(k, sv, 0) == (VK.PutTally(k, 0, t), None);
    assert VK.PutTally(k, 0, t).rounds == map[0 := t];
  }

  lemma FirstVotes(n: nat)
    requires n < 2
    ensures Moves(Recorded(n), ReceiveVote(TWICE[n]), Recorded(n + 1))
  {
    PowerOfPair({0});
    FirstRecord(n);
  }

  /** The precommit of validator 1 makes a quorum. */
  lemma LastRecord()
    ensures var (k, o) := VK.Record(Recorded(2).votes, NilFrom(1, 0), 0);
            o == Some(VK.PrecommitAny) && VK.TallyAt(k, 0).received == TWICE + [NilFrom(1, 0)]
  {
    PowerOfPair({0, 1});
    var k, sv, t := Recorded(2).votes, NilFrom(1, 0), VK.Tally(TWICE + [NilFrom(1, 0)], {});
    assert TWICE[..2] == TWICE;
    assert t.received[0].vote.address == 0 && t.received[2] == sv && t.received[0] in t.received && sv in t.received;
    assert VK.Voters(t.received, Precommit, Nil) == {0, 1};
    assert VK.Emit(k, t, sv.vote, 0).1 == Some(VK.PrecommitAny);
    assert VK.Record(k, sv, 0).1 == Some(VK.PrecommitAny);
    VKR.RecordReceives(k, sv, 0, 0);
  }

  function Last(): Driver {
    Process(Recorded(2), ReceiveVote(NilFrom(1, 0))).driver
  }

  /** The certificate is stored. */
  lemma LastVote()
    ensures Moves(Recorded(2), ReceiveVote(NilFrom(1, 0)), Last())
    ensures VK.TallyAt(Last().votes, 0).received == TWICE + [NilFrom(1, 0)]
    ensures Last().roundCertificate.Some?
    ensures var c := Last().roundCertificate.value.certificate; c.certType == PrecommitCertificate && c.round == 0
  {
    PowerOfPair({0, 1});
    LastRecord();
    CallStores(Recorded(2), ReceiveVote(NilFrom(1, 0)));
  }

  ghost predicate EndsIn(ds: seq<Driver>, ops: seq<Op>, verify: Verifier, d: Driver) {
    SignedRun(1, ds, ops, verify) && ds[|ops|] == d
  }

  lemma ExtendProper(ds: seq<Driver>, ops: seq<Op>, verify: Verifier, op: Op, d': Driver)
    requires |ds| == |ops| + 1 && AllProper(ds, ops, verify) && Proper(ds[|ops|], op, verify)
    ensures AllProper(ds + [d'], ops + [op], verify)
  {
    var ds', ops' := ds + [d'], ops + [op];
    forall i | 0 <= i < |ops'| ensures Proper(ds'[i], ops'[i], verify) {
      if i < |ops| {
        assert ds'[i] == ds[i] && ops'[i] == ops[i];
      } else {
        assert ds'[i] == ds[|ops|] && ops'[i] == op;
      }
    }
  }

  lemma ExtendSigned(ds: seq<Driver>, ops: seq<Op>, verify: Verifier, d: Driver, input: DriverInput, d': Driver)
    returns (ds': seq<Driver>, ops': seq<Op>)
    requires EndsIn(ds, ops, verify, d) && Moves(d, input, d') && Signed(Call(input), verify)
    ensures EndsIn(ds', ops', verify, d') && ops' == ops + [Call(input)]
  {
    ExtendRun(1, ds, ops, Call(input), d');
    ExtendProper(ds, ops, verify, Call(input), d');
    ds', ops' := ds + [d'], ops + [Call(input)];
  }

  lemma UntilStarted(verify: Verifier) returns (ds: seq<Driver>, ops: seq<Op>)
    ensures EndsIn(ds, ops, verify, Recorded(0))
  {
    StartsWithNone();
    var d := NewDriver(1, PAIR, 0, DEFAULT_PARAMS);
    ds, ops := ExtendSigned([d], [], verify, d, StartRound(1, 0, 1), Recorded(0));
  }

  lemma OneVoteMore(verify: Verifier, ds: seq<Driver>, ops: seq<Op>, n: nat) returns (ds': seq<Driver>, ops': seq<Op>)
    requires n < 2 && EndsIn(ds, ops, verify, Recorded(n)) && Signed(Call(ReceiveVote(TWICE[n])), verify)
    ensures EndsIn(ds', ops', verify, Recorded(n + 1)) && ops' == ops + [Call(ReceiveVote(TWICE[n]))]
  {
    FirstVotes(n);
    ds', ops' := ExtendSigned(ds, ops, verify, Recorded(n), ReceiveVote(TWICE[n]), Recorded(n + 1));
  }

  lemma UntilTwice(verify: Verifier) returns (ds: seq<Driver>, ops: seq<Op>)
    requires Signed(Call(ReceiveVote(TWICE[0])), verify) && Signed(Call(ReceiveVote(TWICE[1])), verify)
    ensures EndsIn(ds, ops, verify, Recorded(2)) && Call(ReceiveVote(TWICE[0])) in ops
            && Call(ReceiveVote(TWICE[1])) in ops
  {
    ds, ops := UntilStarted(verify);
    ds, ops := OneVoteMore(verify, ds, ops, 0);
    ds, ops := OneVoteMore(verify, ds, ops, 1);
  }

  lemma RepeatsHere()
    ensures !NoRepeats(TWICE + [NilFrom(1, 0)], Precommit, None)
  {
    var received := TWICE + [NilFrom(1, 0)];
    assert received[0] == NilFrom(0, 0) && received[1] == NilFrom(0, 1);
  }

  /** Any run that ends with the vote recorded twice goes on to store a certificate that is rejected. */
  lemma LastVoteIsRejected(verify: Verifier, ds: seq<Driver>, ops: seq<Op>)
    requires EndsIn(ds, ops, verify, Recorded(2)) && verify(NilFrom(1, 0).vote, 0)
    ensures var d := Last();
            && d.roundCertificate.Some?
            && !RoundAccepted(d.votes.validators, d.votes.params, d.roundCertificate.value.certificate, verify)
  {
    LastVote();
    RepeatsHere();
    RunKeepsAuthentic(1, ds, ops, verify, |ops|);
    NewCertificateIsJudged(1, Recorded(2), Call(ReceiveVote(NilFrom(1, 0))), Last(), verify);
  }

  /**
    A run in which one precommit is applied twice, under two signatures that both verify: the
    certificate the driver then stores is rejected.
  */
  lemma RepeatedVoteSpoilsCertificate(verify: Verifier) returns (ds: seq<Driver>, ops: seq<Op>)
    requires verify(NilFrom(0, 0).vote, 0) && verify(NilFrom(0, 0).vote, 1) && verify(NilFrom(1, 0).vote, 0)
    ensures SignedRun(1, ds, ops, verify)
    ensures Call(ReceiveVote(NilFrom(0, 0))) in ops && Call(ReceiveVote(NilFrom(0, 1))) in ops
    ensures var d := ds[|ops|];
            && d.roundCertificate.Some?
            && !RoundAccepted(d.votes.validators, d.votes.params, d.roundCertificate.value.certificate, verify)
  {
    ds, ops := UntilTwice(verify);
    LastVoteIsRejected(verify, ds, ops);
    LastVote();
    ds, ops := ExtendSigned(ds, ops, verify, Recorded(2), ReceiveVote(NilFrom(1, 0)), Last());
  }
}
