/**
  What holds of the vote keeper after any sequence of votes.
*/
module VoteKeepingRuns {
  import opened Types
  import opened Quorum
  import opened VoteKeeping

  /** A vote applied while the node is in `round`. */
  datatype Ballot = Ballot(vote: SignedVote, round: Round)

  function After(k: Ledger, ballots: seq<Ballot>): Ledger {
    if ballots == [] then k
    else
      var last := ballots[|ballots| - 1];
      Record(After(k, ballots[..|ballots| - 1]), last.vote, last.round).0
  }

  /** The output of the `i`-th vote. */
  function OutputAt(k: Ledger, ballots: seq<Ballot>, i: nat): Option<VKOutput>
    requires i < |ballots|
  {
    Record(After(k, ballots[..i]), ballots[i].vote, ballots[i].round).1
  }

  function Fresh(vs: ValidatorSet, params: ThresholdParams): Ledger {
    Ledger(vs, params, map[], map[])
  }

  /** An emitted output still describes the recorded votes. */
  predicate Holds(k: Ledger, t: Tally, output: VKOutput) {
    match output
    case PolkaAny => QuorumMet(k, WeightSum(k, t, Prevote))
    case PolkaNil => QuorumMet(k, Weight(k, t, Prevote, Nil))
    case PolkaValue(id) => QuorumMet(k, Weight(k, t, Prevote, Val(id)))
    case PrecommitAny => QuorumMet(k, WeightSum(k, t, Precommit))
    case PrecommitValue(id) => QuorumMet(k, Weight(k, t, Precommit, Val(id)))
    case SkipRound(_) => SkipMet(k, t)
  }

  predicate TallyOk(k: Ledger, round: Round, t: Tally) {
    && Consistent(t.received)
    && Known(k.validators, t.received)
    && (forall sv | sv in t.received :: sv.vote.round == round)
    && (forall output | output in t.emitted :: Holds(k, t, output))
  }

  /** Same validator, same type, same round, different values. */
  predicate Conflict(existing: Vote, conflicting: Vote) {
    && existing.address == conflicting.address
    && existing.voteType == conflicting.voteType
    && existing.round == conflicting.round
    && existing.value != conflicting.value
  }

  predicate EvidenceOk(evidence: Evidence) {
    forall a | a in evidence :: forall e | e in evidence[a] :: e.1.vote.address == a && Conflict(e.0.vote, e.1.vote)
  }

  predicate LedgerOk(k: Ledger) {
    && (forall r | r in k.rounds :: TallyOk(k, r, k.rounds[r]))
    && EvidenceOk(k.evidence)
  }

  // ---- One vote -------------------------------------------------------------

  /** More recorded votes never weigh less. */
  lemma WeightsGrow(k: Ledger, t: Tally, t': Tally)
    requires forall sv :: sv in t.received ==> sv in t'.received
    ensures forall voteType, value :: Weight(k, t, voteType, value) <= Weight(k, t', voteType, value)
    ensures forall voteType :: WeightSum(k, t, voteType) <= WeightSum(k, t', voteType)
    ensures forall output :: Holds(k, t, output) ==> Holds(k, t', output)
  {
    forall voteType, value ensures Weight(k, t, voteType, value) <= Weight(k, t', voteType, value) {
      PowerMonotone(k.validators, Voters(t.received, voteType, value), Voters(t'.received, voteType, value));
    }
    forall voteType ensures WeightSum(k, t, voteType) <= WeightSum(k, t', voteType) {
      PowerMonotone(k.validators, VotersOf(t.received, voteType), VotersOf(t'.received, voteType));
    }
    PowerMonotone(k.validators, AllVoters(t.received), AllVoters(t'.received));
    forall output | Holds(k, t, output) ensures Holds(k, t', output) {
      MetGrows(k.params.quorum, WeightSum(k, t, Prevote), WeightSum(k, t', Prevote), Total(k.validators));
      MetGrows(k.params.quorum, WeightSum(k, t, Precommit), WeightSum(k, t', Precommit), Total(k.validators));
      MetGrows(k.params.quorum, Weight(k, t, Prevote, Nil), Weight(k, t', Prevote, Nil), Total(k.validators));
      MetGrows(k.params.honest, Power(k.validators, AllVoters(t.received)),
               Power(k.validators, AllVoters(t'.received)), Total(k.validators));
      if output.PolkaValue? || output.PrecommitValue? {
        var voteType := if output.PolkaValue? then Prevote else Precommit;
        MetGrows(k.params.quorum, Weight(k, t, voteType, Val(output.id)), Weight(k, t', voteType, Val(output.id)),
                 Total(k.validators));
      }
    }
  }

  lemma MetGrows(p: ThresholdParam, weight: nat, weight': nat, total: nat)
    requires weight <= weight'
    ensures p.Met(weight, total) ==> p.Met(weight', total)
  {
  }

  /** A quorum for nil is a quorum for anything. */
  lemma OutputHolds(k: Ledger, t: Tally, vote: Vote, round: Round)
    ensures var (t', output) := Emit(k, t, vote, round);
            && t'.received == t.received
            && t.emitted <= t'.emitted <= t.emitted + (if output.Some? then {output.value} else {})
            && (output.Some? ==>
                  && Holds(k, t, output.value)
                  && output.value in t'.emitted
                  && (output.value.SkipRound? || output.value !in t.emitted))
  {
    PowerMonotone(k.validators, Voters(t.received, Precommit, Nil), VotersOf(t.received, Precommit));
    MetGrows(k.params.quorum, Weight(k, t, Precommit, Nil), WeightSum(k, t, Precommit), Total(k.validators));
  }

  /** The new tally of the round of an accepted vote. */
  lemma AcceptKeepsTallyOk(k: Ledger, t: Tally, sv: SignedVote, round: Round)
    requires TallyOk(k, sv.vote.round, t)
    requires sv.vote.address in Members(k.validators) && ConflictWith(t, sv).None?
    ensures TallyOk(k, sv.vote.round, Emit(k, t.(received := t.received + [sv]), sv.vote, round).0)
  {
    var t1 := t.(received := t.received + [sv]);
    assert forall x :: x in t1.received <==> x in t.received || x == sv;
    ConflictIsInconsistent(t.received, sv);
    WeightsGrow(k, t, t1);
    OutputHolds(k, t1, sv.vote, round);
    var t' := Emit(k, t1, sv.vote, round).0;
    WeightsGrow(k, t1, t');
  }

  /** The judgement on a tally needs only the validators and the thresholds. */
  lemma TallyOkFrame(k: Ledger, k': Ledger, r: Round, t: Tally)
    requires k.validators == k'.validators && k.params == k'.params
    ensures TallyOk(k, r, t) <==> TallyOk(k', r, t)
  {
  }

  lemma RecordKeepsOk(k: Ledger, sv: SignedVote, round: Round)
    requires LedgerOk(k)
    ensures LedgerOk(Record(k, sv, round).0)
  {
    var k', t := Record(k, sv, round).0, TallyAt(k, sv.vote.round);
    assert TallyOk(k, sv.vote.round, t);
    forall r | r in k'.rounds ensures TallyOk(k', r, k'.rounds[r]) {
      if sv.vote.address in Members(k.validators) && ConflictWith(t, sv).None? {
        AcceptKeepsTallyOk(k, t, sv, round);
      }
      TallyOkFrame(k, k', r, k'.rounds[r]);
    }
    EvidenceStaysOk(k, t, sv);
  }

  lemma EvidenceStaysOk(k: Ledger, t: Tally, sv: SignedVote)
    requires EvidenceOk(k.evidence) && TallyOk(k, sv.vote.round, t)
    ensures ConflictWith(t, sv).Some? ==> EvidenceOk(AddEvidence(k.evidence, ConflictWith(t, sv).value, sv))
  {
  }

  /** Only the votes and outputs of the vote's own round change, and they only grow. */
  lemma RecordGrows(k: Ledger, sv: SignedVote, round: Round, r: Round)
    ensures var k' := Record(k, sv, round).0;
            && k'.validators == k.validators && k'.params == k.params
            && (forall x :: x in TallyAt(k, r).received ==> x in TallyAt(k', r).received)
            && TallyAt(k, r).emitted <= TallyAt(k', r).emitted
            && (r in k.rounds ==> r in k'.rounds)
  {
  }

  // ---- Whole runs -----------------------------------------------------------

  lemma {:induction false} RunKeepsOk(k: Ledger, ballots: seq<Ballot>)
    requires LedgerOk(k)
    ensures LedgerOk(After(k, ballots))
  {
    if ballots != [] {
      var n := |ballots| - 1;
      RunKeepsOk(k, ballots[..n]);
      RecordKeepsOk(After(k, ballots[..n]), ballots[n].vote, ballots[n].round);
    }
  }

  lemma {:induction false} RunGrows(k: Ledger, ballots: seq<Ballot>, i: nat, r: Round)
    requires i <= |ballots|
    ensures var k0, k' := After(k, ballots[..i]), After(k, ballots);
            && k'.validators == k0.validators && k'.params == k0.params
            && (forall x :: x in TallyAt(k0, r).received ==> x in TallyAt(k', r).received)
            && TallyAt(k0, r).emitted <= TallyAt(k', r).emitted
            && (r in k0.rounds ==> r in k'.rounds)
  {
    if i == |ballots| {
      assert ballots[..i] == ballots;
    } else {
      var n := |ballots| - 1;
      assert ballots[..n][..i] == ballots[..i];
      RunGrows(k, ballots[..n], i, r);
      RecordGrows(After(k, ballots[..n]), ballots[n].vote, ballots[n].round, r);
    }
  }

  /** A met threshold stays met. */
  lemma ThresholdsStayMet(k: Ledger, ballots: seq<Ballot>, i: nat, r: Round, voteType: VoteType, threshold: Threshold)
    requires i <= |ballots|
    requires ThresholdMet(After(k, ballots[..i]), r, voteType, threshold)
    ensures ThresholdMet(After(k, ballots), r, voteType, threshold)
  {
    RunGrows(k, ballots, i, r);
    var k0, k' := After(k, ballots[..i]), After(k, ballots);
    var t, t' := TallyAt(k0, r), TallyAt(k', r);
    WeightsGrow(k0, t, t');
    match threshold
    case ValueThreshold(id) =>
      MetGrows(k0.params.quorum, Weight(k0, t, voteType, Val(id)), Weight(k0, t', voteType, Val(id)),
               Total(k0.validators));
    case NilThreshold =>
      MetGrows(k0.params.quorum, Weight(k0, t, voteType, Nil), Weight(k0, t', voteType, Nil), Total(k0.validators));
    case AnyThreshold =>
      MetGrows(k0.params.quorum, WeightSum(k0, t, voteType), WeightSum(k0, t', voteType), Total(k0.validators));
  }

  /** An output of the `i`-th vote is in the emitted outputs of its round from then on. */
  lemma OutputIsEmitted(k: Ledger, ballots: seq<Ballot>, i: nat)
    requires i < |ballots| && OutputAt(k, ballots, i).Some?
    ensures var r, output := ballots[i].vote.vote.round, OutputAt(k, ballots, i).value;
            && output in TallyAt(After(k, ballots), r).emitted
            && (output.SkipRound? || output !in TallyAt(After(k, ballots[..i]), r).emitted)
  {
    var k0, b := After(k, ballots[..i]), ballots[i];
    var r := b.vote.vote.round;
    var t := TallyAt(k0, r);
    OutputHolds(k0, t.(received := t.received + [b.vote]), b.vote.vote, b.round);
    assert ballots[..i + 1][..i] == ballots[..i];
    assert After(k, ballots[..i + 1]) == Record(k0, b.vote, b.round).0;
    RunGrows(k, ballots, i + 1, r);
  }

  /** Except for `SkipRound`, no output is emitted twice for the same round. */
  lemma EmittedOnce(k: Ledger, ballots: seq<Ballot>, i: nat, j: nat)
    requires i < j < |ballots|
    requires ballots[i].vote.vote.round == ballots[j].vote.vote.round
    requires OutputAt(k, ballots, i).Some? && !OutputAt(k, ballots, i).value.SkipRound?
    ensures OutputAt(k, ballots, i) != OutputAt(k, ballots, j)
  {
    assert ballots[..j][..i] == ballots[..i];
    OutputIsEmitted(k, ballots[..j], i);
    if OutputAt(k, ballots, j).Some? {
      OutputIsEmitted(k, ballots, j);
    }
  }

  /** Two weights that fit into the total together cannot both pass half of it. */
  lemma NotBothMet(p: ThresholdParam, v: nat, w: nat, total: nat)
    requires 2 * p.numerator >= p.denominator && v + w <= total
    ensures !(p.Met(v, total) && p.Met(w, total))
  {
  }

  /** With a quorum of at least one half, at most one value (or nil) has a quorum of a type in a round. */
  lemma QuorumIsUnique(k: Ledger, t: Tally, voteType: VoteType, v: NilOrVal, w: NilOrVal)
    requires Consistent(t.received)
    requires 2 * k.params.quorum.numerator >= k.params.quorum.denominator
    requires QuorumMet(k, Weight(k, t, voteType, v)) && QuorumMet(k, Weight(k, t, voteType, w))
    ensures v == w
  {
    if v != w {
      var forV, forW := Voters(t.received, voteType, v), Voters(t.received, voteType, w);
      assert forV * forW == {};
      Overlap(k.validators, forV, forW);
      PowerOfNone(k.validators, {});
      NotBothMet(k.params.quorum, Power(k.validators, forV), Power(k.validators, forW), Total(k.validators));
    }
  }

  /** The ballot an output reports a quorum for, if it names one. */
  function QuorumOf(output: VKOutput): Option<(VoteType, NilOrVal)> {
    match output
    case PolkaNil => Some((Prevote, Nil))
    case PolkaValue(id) => Some((Prevote, Val(id)))
    case PrecommitValue(id) => Some((Precommit, Val(id)))
    case _ => None
  }

  /** Rival quorums of one type are never both reported for one round of a run. */
  lemma NoRivalOutputs(vs: ValidatorSet, params: ThresholdParams, ballots: seq<Ballot>, i: nat, j: nat)
    requires 2 * params.quorum.numerator >= params.quorum.denominator
    requires i < |ballots| && j < |ballots| && ballots[i].vote.vote.round == ballots[j].vote.vote.round
    requires var o, o' := OutputAt(Fresh(vs, params), ballots, i), OutputAt(Fresh(vs, params), ballots, j);
             && o.Some? && QuorumOf(o.value).Some?
             && o'.Some? && QuorumOf(o'.value).Some?
             && QuorumOf(o.value).value.0 == QuorumOf(o'.value).value.0
    ensures OutputAt(Fresh(vs, params), ballots, i) == OutputAt(Fresh(vs, params), ballots, j)
  {
    var k := Fresh(vs, params);
    var o, o' := OutputAt(k, ballots, i).value, OutputAt(k, ballots, j).value;
    OutputIsEmitted(k, ballots, i);
    OutputIsEmitted(k, ballots, j);
    RunKeepsOk(k, ballots);
    RunGrows(k, ballots, 0, 0);
    var k' := After(k, ballots);
    var t := TallyAt(k', ballots[i].vote.vote.round);
    assert Holds(k', t, o) && Holds(k', t, o');
    var (voteType, v) := QuorumOf(o).value;
    QuorumIsUnique(k', t, voteType, v, QuorumOf(o').value.1);
  }

  // ---- What is reported -----------------------------------------------------

  /** A vote of a known validator that contradicts none recorded. */
  predicate Countable(k: Ledger, t: Tally, sv: SignedVote) {
    sv.vote.address in Members(k.validators) && forall x :: x in t.received ==> !Conflict(x.vote, sv.vote)
  }

  /**
    What a vote calls for, given the votes recorded with it: a quorum for its value, or else one for
    anything. There is no report of its own for a precommit quorum for nil.
  */
  predicate CalledFor(k: Ledger, t: Tally, vote: Vote, output: VKOutput) {
    match output
    case PolkaValue(id) =>
      vote.voteType == Prevote && vote.value == Val(id) && QuorumMet(k, Weight(k, t, Prevote, Val(id)))
    case PolkaNil => vote.voteType == Prevote && vote.value == Nil && QuorumMet(k, Weight(k, t, Prevote, Nil))
    case PolkaAny =>
      && vote.voteType == Prevote && QuorumMet(k, WeightSum(k, t, Prevote))
      && !QuorumMet(k, Weight(k, t, Prevote, vote.value))
    case PrecommitValue(id) =>
      vote.voteType == Precommit && vote.value == Val(id) && QuorumMet(k, Weight(k, t, Precommit, Val(id)))
    case PrecommitAny =>
      && vote.voteType == Precommit && QuorumMet(k, WeightSum(k, t, Precommit))
      && (vote.value.Val? ==> !QuorumMet(k, Weight(k, t, Precommit, vote.value)))
    case SkipRound(_) => false
  }

  /** A countable vote of a later round, in which more than the honest threshold has voted with it. */
  predicate Skips(k: Ledger, t: Tally, vote: Vote, round: Round) {
    vote.round > round && k.params.honest.Met(Power(k.validators, AllVoters(t.received)), Total(k.validators))
  }

  lemma CountableIff(k: Ledger, t: Tally, sv: SignedVote)
    requires Consistent(t.received) && forall x :: x in t.received ==> x.vote.round == sv.vote.round
    ensures Countable(k, t, sv) <==> sv.vote.address in Members(k.validators) && ConflictWith(t, sv).None?
  {
    ConflictIsInconsistent(t.received, sv);
    var all := t.received + [sv];
    assert forall x :: x in all <==> x in t.received || x == sv;
    if Consistent(all) {
      assert forall x :: x in t.received ==> !Conflict(x.vote, sv.vote);
    }
  }

  lemma EmitIff(k: Ledger, t: Tally, vote: Vote, round: Round, output: VKOutput)
    ensures var (t', o) := Emit(k, t, vote, round);
            if output.SkipRound? then o == Some(output) <==> Skips(k, t, vote, round) && output.round == vote.round
            else
              && (o == Some(output) <==>
                    !Skips(k, t, vote, round) && CalledFor(k, t, vote, output) && output !in t.emitted)
              && (output in t'.emitted <==>
                    output in t.emitted || (!Skips(k, t, vote, round) && CalledFor(k, t, vote, output)))
  {
    PowerMonotone(k.validators, Voters(t.received, Precommit, Nil), VotersOf(t.received, Precommit));
    MetGrows(k.params.quorum, Weight(k, t, Precommit, Nil), WeightSum(k, t, Precommit), Total(k.validators));
  }

  /** What one vote makes the keeper report. */
  lemma RecordReports(k: Ledger, sv: SignedVote, round: Round, output: VKOutput)
    requires LedgerOk(k)
    ensures var r, (k', o) := sv.vote.round, Record(k, sv, round);
            var t, t' := TallyAt(k, r), TallyAt(k', r);
            var called := Countable(k, t, sv) && !Skips(k', t', sv.vote, round) && CalledFor(k', t', sv.vote, output);
            if output.SkipRound? then
              o == Some(output) <==> Countable(k, t, sv) && Skips(k', t', sv.vote, round) && output.round == r
            else
              && (o == Some(output) <==> called && output !in t.emitted)
              && (output in t'.emitted <==> output in t.emitted || called)
  {
    var t := TallyAt(k, sv.vote.round);
    assert TallyOk(k, sv.vote.round, t);
    CountableIff(k, t, sv);
    var t1 := t.(received := t.received + [sv]);
    OutputHolds(k, t1, sv.vote, round);
    EmitIff(k, t1, sv.vote, round, output);
  }

  /** The `i`-th vote of a run calls for this output. */
  predicate Called(k: Ledger, ballots: seq<Ballot>, i: nat, output: VKOutput)
    requires i < |ballots|
  {
    var sv, k', r := ballots[i].vote, After(k, ballots[..i + 1]), ballots[i].vote.vote.round;
    && Countable(k, TallyAt(After(k, ballots[..i]), r), sv)
    && !Skips(k', TallyAt(k', r), sv.vote, ballots[i].round)
    && CalledFor(k', TallyAt(k', r), sv.vote, output)
  }

  predicate CalledAt(k: Ledger, ballots: seq<Ballot>, i: nat, r: Round, output: VKOutput) {
    i < |ballots| && ballots[i].vote.vote.round == r && Called(k, ballots, i, output)
  }

  ghost predicate CalledIn(k: Ledger, ballots: seq<Ballot>, r: Round, output: VKOutput) {
    exists i: nat :: CalledAt(k, ballots, i, r, output)
  }

  lemma CalledPrefix(k: Ledger, ballots: seq<Ballot>, n: nat, i: nat, r: Round, output: VKOutput)
    requires i < n <= |ballots|
    ensures CalledAt(k, ballots[..n], i, r, output) <==> CalledAt(k, ballots, i, r, output)
  {
    assert ballots[..n][..i] == ballots[..i] && ballots[..n][..i + 1] == ballots[..i + 1];
  }

  lemma CalledStays(k: Ledger, ballots: seq<Ballot>, n: nat, r: Round, output: VKOutput)
    requires n <= |ballots| && CalledIn(k, ballots[..n], r, output)
    ensures CalledIn(k, ballots, r, output)
  {
    var i: nat :| CalledAt(k, ballots[..n], i, r, output);
    CalledPrefix(k, ballots, n, i, r, output);
  }

  lemma CalledLastOrBefore(k: Ledger, ballots: seq<Ballot>, r: Round, output: VKOutput)
    requires ballots != [] && CalledIn(k, ballots, r, output) && !CalledAt(k, ballots, |ballots| - 1, r, output)
    ensures CalledIn(k, ballots[..|ballots| - 1], r, output)
  {
    var i: nat :| CalledAt(k, ballots, i, r, output);
    CalledPrefix(k, ballots, |ballots| - 1, i, r, output);
  }

  /** The last vote of a run adds what it calls for. */
  lemma LastReports(k: Ledger, ballots: seq<Ballot>, r: Round, output: VKOutput)
    requires ballots != [] && !output.SkipRound?
    requires var k0 := After(k, ballots[..|ballots| - 1]);
             LedgerOk(k0) && k0.validators == k.validators && k0.params == k.params
    ensures var k0, n := After(k, ballots[..|ballots| - 1]), |ballots| - 1;
            output in TallyAt(After(k, ballots), r).emitted <==>
              output in TallyAt(k0, r).emitted || CalledAt(k, ballots, n, r, output)
  {
    var n := |ballots| - 1;
    var k0, b := After(k, ballots[..n]), ballots[n];
    assert ballots[..n + 1] == ballots;
    RecordReports(k0, b.vote, b.round, output);
    assert Countable(k, TallyAt(k0, b.vote.vote.round), b.vote) <==>
      Countable(k0, TallyAt(k0, b.vote.vote.round), b.vote);
  }

  /** A run from the start has reported an output for a round if and only if some vote called for it. */
  lemma {:induction false} EmittedIff(vs: ValidatorSet, params: ThresholdParams, ballots: seq<Ballot>, r: Round,
                                      output: VKOutput)
    requires !output.SkipRound?
    ensures output in TallyAt(After(Fresh(vs, params), ballots), r).emitted <==>
              CalledIn(Fresh(vs, params), ballots, r, output)
  {
    var k := Fresh(vs, params);
    if ballots != [] {
      var n := |ballots| - 1;
      EmittedIff(vs, params, ballots[..n], r, output);
      RunKeepsOk(k, ballots[..n]);
      RunGrows(k, ballots[..n], 0, r);
      LastReports(k, ballots, r, output);
      if CalledIn(k, ballots[..n], r, output) {
        CalledStays(k, ballots, n, r, output);
      } else if CalledIn(k, ballots, r, output) && !CalledAt(k, ballots, n, r, output) {
        CalledLastOrBefore(k, ballots, r, output);
      }
    }
  }

  /** An output is given at the first vote of its round that calls for it, and only there. */
  lemma ReportedIff(vs: ValidatorSet, params: ThresholdParams, ballots: seq<Ballot>, i: nat, output: VKOutput)
    requires i < |ballots| && !output.SkipRound?
    ensures OutputAt(Fresh(vs, params), ballots, i) == Some(output) <==>
              && Called(Fresh(vs, params), ballots, i, output)
              && !CalledIn(Fresh(vs, params), ballots[..i], ballots[i].vote.vote.round, output)
  {
    var k, b := Fresh(vs, params), ballots[i];
    EmittedIff(vs, params, ballots[..i], b.vote.vote.round, output);
    RunKeepsOk(k, ballots[..i]);
    RunGrows(k, ballots[..i], 0, 0);
    assert ballots[..i + 1][..i] == ballots[..i];
    RecordReports(After(k, ballots[..i]), b.vote, b.round, output);
  }

  /**
    Skipping is reported for exactly the votes of a later round with which the distinct voters of
    that round exceed the honest threshold.
  */
  lemma SkipReportedIff(vs: ValidatorSet, params: ThresholdParams, ballots: seq<Ballot>, i: nat, r: Round)
    requires i < |ballots|
    ensures var k, b := Fresh(vs, params), ballots[i];
            var t := TallyAt(After(k, ballots[..i + 1]), b.vote.vote.round);
            OutputAt(k, ballots, i) == Some(SkipRound(r)) <==>
              && r == b.vote.vote.round > b.round && Countable(k, TallyAt(After(k, ballots[..i]), r), b.vote)
              && params.honest.Met(Power(vs, AllVoters(t.received)), Total(vs))
  {
    var k, b := Fresh(vs, params), ballots[i];
    RunKeepsOk(k, ballots[..i]);
    RunGrows(k, ballots[..i], 0, 0);
    RunGrows(k, ballots[..i + 1], 0, 0);
    assert ballots[..i + 1][..i] == ballots[..i];
    RecordReports(After(k, ballots[..i]), b.vote, b.round, SkipRound(r));
  }

  lemma VotersWith(received: seq<SignedVote>, sv: SignedVote, voteType: VoteType, value: NilOrVal)
    ensures sv.vote.voteType != voteType || sv.vote.value != value ==>
              Voters(received + [sv], voteType, value) == Voters(received, voteType, value)
  {
  }

  /** A quorum for a value or nil appears only with a vote for it. */
  lemma QuorumNeedsVote(k: Ledger, sv: SignedVote, round: Round, r: Round, voteType: VoteType, value: NilOrVal)
    requires LedgerOk(k)
    requires var k' := Record(k, sv, round).0;
             && QuorumMet(k', Weight(k', TallyAt(k', r), voteType, value))
             && !QuorumMet(k, Weight(k, TallyAt(k, r), voteType, value))
    ensures r == sv.vote.round && sv.vote.voteType == voteType && sv.vote.value == value
    ensures Countable(k, TallyAt(k, r), sv)
  {
    var k', t := Record(k, sv, round).0, TallyAt(k, r);
    RecordReceives(k, sv, round, r);
    if r == sv.vote.round {
      assert TallyOk(k, r, t);
      CountableIff(k, t, sv);
    }
    VotersWith(t.received, sv, voteType, value);
  }

  /** The vote that completes a quorum for a value or a nil polka is of that round and reports it, unless it skips. */
  lemma NewQuorumIsReported(k: Ledger, sv: SignedVote, round: Round, r: Round, output: VKOutput)
    requires LedgerOk(k) && QuorumOf(output).Some?
    requires var k' := Record(k, sv, round).0;
             && !Holds(k, TallyAt(k, r), output) && Holds(k', TallyAt(k', r), output)
             && !Skips(k', TallyAt(k', r), sv.vote, round)
    ensures Record(k, sv, round).1 == Some(output) && sv.vote.round == r
  {
    var (voteType, value) := QuorumOf(output).value;
    QuorumNeedsVote(k, sv, round, r, voteType, value);
    RecordReports(k, sv, round, output);
    assert TallyOk(k, r, TallyAt(k, r));
  }

  /** The same for the votes of a run from the start. */
  lemma CompletingVoteReports(vs: ValidatorSet, params: ThresholdParams, ballots: seq<Ballot>, i: nat, output: VKOutput)
    requires i < |ballots| && QuorumOf(output).Some?
    requires var r, k, k' := ballots[i].vote.vote.round, After(Fresh(vs, params), ballots[..i]),
                             After(Fresh(vs, params), ballots[..i + 1]);
             && !Holds(k, TallyAt(k, r), output) && Holds(k', TallyAt(k', r), output)
             && !Skips(k', TallyAt(k', r), ballots[i].vote.vote, ballots[i].round)
    ensures OutputAt(Fresh(vs, params), ballots, i) == Some(output)
  {
    RunKeepsOk(Fresh(vs, params), ballots[..i]);
    assert ballots[..i + 1][..i] == ballots[..i];
    NewQuorumIsReported(After(Fresh(vs, params), ballots[..i]), ballots[i].vote, ballots[i].round,
                        ballots[i].vote.vote.round, output);
  }

  /**
    After any votes none of which was ahead of its node's round: there is a quorum for a value, or a
    nil polka, if and only if it was reported.
  */
  lemma {:induction false} QuorumIsReported(vs: ValidatorSet, params: ThresholdParams, ballots: seq<Ballot>, r: Round,
                                            output: VKOutput)
    requires QuorumOf(output).Some?
    requires forall b :: b in ballots && b.vote.vote.round == r ==> b.round >= r
    ensures var k := After(Fresh(vs, params), ballots);
            Holds(k, TallyAt(k, r), output) <==> output in TallyAt(k, r).emitted
  {
    var k := Fresh(vs, params);
    RunKeepsOk(k, ballots);
    if ballots == [] {
      PowerOfNone(vs, {});
      var (voteType, value) := QuorumOf(output).value;
      assert Voters([], voteType, value) == {};
    } else {
      var n := |ballots| - 1;
      var k0, b := After(k, ballots[..n]), ballots[n];
      QuorumIsReported(vs, params, ballots[..n], r, output);
      RunKeepsOk(k, ballots[..n]);
      RecordGrows(k0, b.vote, b.round, r);
      var (voteType, value) := QuorumOf(output).value;
      if Holds(After(k, ballots), TallyAt(After(k, ballots), r), output) && !Holds(k0, TallyAt(k0, r), output) {
        QuorumNeedsVote(k0, b.vote, b.round, r, voteType, value);
        RecordReports(k0, b.vote, b.round, output);
      }
    }
    assert r in After(k, ballots).rounds ==> TallyOk(After(k, ballots), r, TallyAt(After(k, ballots), r));
  }

  /** Every piece of evidence gathered by a run is a real conflict. */
  lemma EvidenceIsConflict(vs: ValidatorSet, params: ThresholdParams, ballots: seq<Ballot>,
                           a: Address, e: (SignedVote, SignedVote))
    requires var evidence := After(Fresh(vs, params), ballots).evidence; a in evidence && e in evidence[a]
    ensures e.0.vote.address == e.1.vote.address == a && Conflict(e.0.vote, e.1.vote)
  {
    RunKeepsOk(Fresh(vs, params), ballots);
  }

  predicate HasEvidence(evidence: Evidence, sv: SignedVote, t: Tally) {
    && sv.vote.address in evidence
    && exists e :: e in evidence[sv.vote.address] && e.1 == sv && e.0 in t.received && Conflict(e.0.vote, sv.vote)
  }

  lemma ConflictIsRecorded(k: Ledger, sv: SignedVote, round: Round)
    requires LedgerOk(k) && sv.vote.address in Members(k.validators) && !Countable(k, TallyAt(k, sv.vote.round), sv)
    ensures HasEvidence(Record(k, sv, round).0.evidence, sv, TallyAt(k, sv.vote.round))
  {
    var t := TallyAt(k, sv.vote.round);
    assert TallyOk(k, sv.vote.round, t);
    CountableIff(k, t, sv);
    var e := (ConflictWith(t, sv).value, sv);
    var list := Record(k, sv, round).0.evidence[sv.vote.address];
    assert list[|list| - 1] == e;
  }

  lemma EvidenceGrows(k: Ledger, sv: SignedVote, round: Round, a: Address)
    ensures var before, after := k.evidence, Record(k, sv, round).0.evidence;
            a in before ==> a in after && before[a] <= after[a]
  {
  }

  lemma {:induction false} EvidenceStays(k: Ledger, ballots: seq<Ballot>, i: nat, a: Address)
    requires i <= |ballots|
    ensures var before, after := After(k, ballots[..i]).evidence, After(k, ballots).evidence;
            a in before ==> a in after && before[a] <= after[a]
  {
    if i == |ballots| {
      assert ballots[..i] == ballots;
    } else {
      var n := |ballots| - 1;
      assert ballots[..n][..i] == ballots[..i];
      EvidenceStays(k, ballots[..n], i, a);
      EvidenceGrows(After(k, ballots[..n]), ballots[n].vote, ballots[n].round, a);
    }
  }

  /** Every vote of a run that contradicts a recorded vote of its sender is kept as evidence with that vote. */
  lemma ConflictIsEvidence(vs: ValidatorSet, params: ThresholdParams, ballots: seq<Ballot>, i: nat)
    requires i < |ballots| && ballots[i].vote.vote.address in Members(vs)
    requires var k := After(Fresh(vs, params), ballots[..i]);
             !Countable(k, TallyAt(k, ballots[i].vote.vote.round), ballots[i].vote)
    ensures var k := After(Fresh(vs, params), ballots[..i]);
            HasEvidence(After(Fresh(vs, params), ballots).evidence, ballots[i].vote,
                        TallyAt(k, ballots[i].vote.vote.round))
  {
    var k, sv := Fresh(vs, params), ballots[i].vote;
    var k0, k1 := After(k, ballots[..i]), After(k, ballots[..i + 1]);
    RunKeepsOk(k, ballots[..i]);
    RunGrows(k, ballots[..i], 0, 0);
    LastRecorded(k, ballots, i);
    ConflictIsRecorded(k0, sv, ballots[i].round);
    EvidenceStays(k, ballots, i + 1, sv.vote.address);
    EvidenceIsFound(k1.evidence, After(k, ballots).evidence, sv, TallyAt(k0, sv.vote.round));
  }

  lemma LastRecorded(k: Ledger, ballots: seq<Ballot>, i: nat)
    requires i < |ballots|
    ensures After(k, ballots[..i + 1]) == Record(After(k, ballots[..i]), ballots[i].vote, ballots[i].round).0
  {
    assert ballots[..i + 1][..i] == ballots[..i];
  }

  lemma EvidenceIsFound(before: Evidence, after: Evidence, sv: SignedVote, t: Tally)
    requires HasEvidence(before, sv, t) && sv.vote.address in after && before[sv.vote.address] <= after[sv.vote.address]
    ensures HasEvidence(after, sv, t)
  {
    var e :| e in before[sv.vote.address] && e.1 == sv && e.0 in t.received && Conflict(e.0.vote, sv.vote);
    assert e in after[sv.vote.address];
  }

  /** Pruning drops what is below the bound and nothing else. */
  lemma PruneKeepsFrom(k: Ledger, minRound: Round, r: Round, voteType: VoteType, threshold: Threshold)
    ensures ThresholdMet(Prune(k, minRound), r, voteType, threshold) <==>
              r >= minRound && ThresholdMet(k, r, voteType, threshold)
    ensures Prune(k, minRound).evidence == k.evidence
  {
  }

  // ---- Order and repetition -------------------------------------------------

  function VotesOf(ballots: seq<Ballot>): set<SignedVote> {
    set b | b in ballots :: b.vote
  }

  predicate NoConflicts(votes: set<SignedVote>) {
    forall sv, sv' | sv in votes && sv' in votes :: !Conflict(sv.vote, sv'.vote)
  }

  /** What recording a vote does to the votes received. */
  lemma RecordReceives(k: Ledger, sv: SignedVote, round: Round, r: Round)
    ensures var k' := Record(k, sv, round).0;
            && k'.validators == k.validators && k'.params == k.params
            && (r in k'.rounds <==> r in k.rounds || r == sv.vote.round)
            && TallyAt(k', r).received ==
                 if r == sv.vote.round && sv.vote.address in Members(k.validators)
                   && ConflictWith(TallyAt(k, r), sv).None?
                 then TallyAt(k, r).received + [sv] else TallyAt(k, r).received
  {
  }

  lemma NoneContradicted(votes: set<SignedVote>, t: Tally, sv: SignedVote)
    requires NoConflicts(votes) && sv in votes
    requires forall x :: x in t.received ==> x in votes && x.vote.round == sv.vote.round
    ensures ConflictWith(t, sv).None?
  {
    assert forall x :: x in t.received ==> !Conflict(x.vote, sv.vote);
  }

  /** Without conflicts every vote from a known validator is recorded, and nothing else is. */
  lemma {:induction false} RecordsExactlyTheVotes(vs: ValidatorSet, params: ThresholdParams, ballots: seq<Ballot>,
                                                  r: Round)
    requires NoConflicts(VotesOf(ballots))
    ensures var k := After(Fresh(vs, params), ballots);
            && k.validators == vs && k.params == params
            && (r in k.rounds <==> exists sv :: sv in VotesOf(ballots) && sv.vote.round == r)
            && forall sv :: sv in TallyAt(k, r).received <==>
                 sv in VotesOf(ballots) && sv.vote.round == r && sv.vote.address in Members(vs)
  {
    if ballots != [] {
      var n := |ballots| - 1;
      var last := ballots[n];
      assert ballots == ballots[..n] + [last];
      assert VotesOf(ballots) == VotesOf(ballots[..n]) + {last.vote};
      RecordsExactlyTheVotes(vs, params, ballots[..n], r);
      var k0 := After(Fresh(vs, params), ballots[..n]);
      var t := TallyAt(k0, r);
      if r == last.vote.vote.round {
        NoneContradicted(VotesOf(ballots), t, last.vote);
      }
      RecordReceives(k0, last.vote, last.round, r);
    }
  }

  /**
    Thresholds depend on which votes arrived, not on their order, their repetition or the
    rounds the node was in.
  */
  lemma OrderDoesNotMatter(vs: ValidatorSet, params: ThresholdParams, ballots: seq<Ballot>, ballots': seq<Ballot>,
                           r: Round, voteType: VoteType, threshold: Threshold)
    requires VotesOf(ballots) == VotesOf(ballots') && NoConflicts(VotesOf(ballots))
    ensures ThresholdMet(After(Fresh(vs, params), ballots), r, voteType, threshold) <==>
            ThresholdMet(After(Fresh(vs, params), ballots'), r, voteType, threshold)
  {
    RecordsExactlyTheVotes(vs, params, ballots, r);
    RecordsExactlyTheVotes(vs, params, ballots', r);
    var k, k' := After(Fresh(vs, params), ballots), After(Fresh(vs, params), ballots');
    var t, t' := TallyAt(k, r), TallyAt(k', r);
    assert forall x, y :: Voters(t.received, x, y) == Voters(t'.received, x, y);
    assert forall x :: VotersOf(t.received, x) == VotersOf(t'.received, x);
  }
}
