/**
  Tallying votes. `VoteKeeper` keeps running weights as the source does; `Tally` and
  `Record` say the same thing by recounting the recorded votes. The class is proved
  to follow the recount, and the properties are proved of the recount.
*/
module VoteKeeping {
  import opened Types
  import opened Quorum

  datatype VKOutput =
    | PolkaAny
    | PolkaNil
    | PolkaValue(id: ValueId)
    | PrecommitAny
    | PrecommitValue(id: ValueId)
    | SkipRound(round: Round)

  datatype Threshold = Unreached | AnyThreshold | NilThreshold | ValueThreshold(id: ValueId)

  type Evidence = map<Address, seq<(SignedVote, SignedVote)>>

  // ---- The recount ----------------------------------------------------------

  /** The votes recorded for a round, in order of arrival, and the outputs emitted for it. */
  datatype Tally = Tally(received: seq<SignedVote>, emitted: set<VKOutput>)

  const EMPTY_TALLY := Tally([], {})

  datatype Ledger = Ledger(
    validators: ValidatorSet,
    params: ThresholdParams,
    rounds: map<Round, Tally>,
    evidence: Evidence)

  function TallyAt(k: Ledger, round: Round): Tally {
    if round in k.rounds then k.rounds[round] else EMPTY_TALLY
  }

  /** The validators with a recorded vote of that type for that value. */
  function Voters(received: seq<SignedVote>, voteType: VoteType, value: NilOrVal): set<Address> {
    set sv | sv in received && sv.vote.voteType == voteType && sv.vote.value == value :: sv.vote.address
  }

  /** The validators with a recorded vote of that type. */
  function VotersOf(received: seq<SignedVote>, voteType: VoteType): set<Address> {
    set sv | sv in received && sv.vote.voteType == voteType :: sv.vote.address
  }

  /** The validators with any recorded vote. */
  function AllVoters(received: seq<SignedVote>): set<Address> {
    set sv | sv in received :: sv.vote.address
  }

  function Weight(k: Ledger, t: Tally, voteType: VoteType, value: NilOrVal): nat {
    Power(k.validators, Voters(t.received, voteType, value))
  }

  function WeightSum(k: Ledger, t: Tally, voteType: VoteType): nat {
    Power(k.validators, VotersOf(t.received, voteType))
  }

  predicate QuorumMet(k: Ledger, weight: nat) {
    k.params.quorum.Met(weight, Total(k.validators))
  }

  /** `is_threshold_met` */
  predicate ThresholdMet(k: Ledger, round: Round, voteType: VoteType, threshold: Threshold) {
    && round in k.rounds
    && match threshold
       case ValueThreshold(id) => QuorumMet(k, Weight(k, k.rounds[round], voteType, Val(id)))
       case NilThreshold => QuorumMet(k, Weight(k, k.rounds[round], voteType, Nil))
       case AnyThreshold => QuorumMet(k, WeightSum(k, k.rounds[round], voteType))
       case Unreached => false
  }

  /** `get_vote`: the first recorded vote of that type from that validator. */
  function GetVote(received: seq<SignedVote>, voteType: VoteType, address: Address): (r: Option<SignedVote>)
    ensures r.None? ==> address !in VotersOf(received, voteType)
    ensures r.Some? ==> r.value in received && r.value.vote.voteType == voteType && r.value.vote.address == address
  {
    if received == [] then None
    else if received[0].vote.voteType == voteType && received[0].vote.address == address then Some(received[0])
    else
      assert forall sv :: sv in received <==> sv == received[0] || sv in received[1..];
      GetVote(received[1..], voteType, address)
  }

  function AddEvidence(evidence: Evidence, existing: SignedVote, conflicting: SignedVote): Evidence {
    var a := conflicting.vote.address;
    evidence[a := (if a in evidence then evidence[a] else []) + [(existing, conflicting)]]
  }

  /** `compute_threshold` */
  function ComputeThreshold(k: Ledger, t: Tally, voteType: VoteType, value: NilOrVal): Threshold {
    if QuorumMet(k, Weight(k, t, voteType, value)) then
      (match value
       case Val(id) => ValueThreshold(id)
       case Nil => NilThreshold)
    else if QuorumMet(k, WeightSum(k, t, voteType)) then AnyThreshold
    else Unreached
  }

  /** `threshold_to_output` */
  function ThresholdToOutput(voteType: VoteType, threshold: Threshold): Option<VKOutput> {
    match (voteType, threshold)
    case (_, Unreached) => None
    case (Prevote, AnyThreshold) => Some(PolkaAny)
    case (Prevote, NilThreshold) => Some(PolkaNil)
    case (Prevote, ValueThreshold(id)) => Some(PolkaValue(id))
    case (Precommit, AnyThreshold) => Some(PrecommitAny)
    case (Precommit, NilThreshold) => Some(PrecommitAny)
    case (Precommit, ValueThreshold(id)) => Some(PrecommitValue(id))
  }

  predicate SkipMet(k: Ledger, t: Tally) {
    k.params.honest.Met(Power(k.validators, AllVoters(t.received)), Total(k.validators))
  }

  /** The output for a vote just recorded in `t`, and the outputs emitted with it. */
  function Emit(k: Ledger, t: Tally, vote: Vote, round: Round): (Tally, Option<VKOutput>) {
    if vote.round > round && SkipMet(k, t) then
      (t.(emitted := t.emitted + {SkipRound(vote.round)}), Some(SkipRound(vote.round)))
    else
      match ThresholdToOutput(vote.voteType, ComputeThreshold(k, t, vote.voteType, vote.value))
      case Some(output) =>
        if output in t.emitted then (t, None) else (t.(emitted := t.emitted + {output}), Some(output))
      case None => (t, None)
  }

  /** The recorded vote that `sv` contradicts, if any. */
  function ConflictWith(t: Tally, sv: SignedVote): Option<SignedVote> {
    match GetVote(t.received, sv.vote.voteType, sv.vote.address)
    case Some(existing) => if existing.vote.value != sv.vote.value then Some(existing) else None
    case None => None
  }

  function PutTally(k: Ledger, round: Round, t: Tally): Ledger {
    k.(rounds := k.rounds[round := t])
  }

  /** `apply_vote` while in `round`. */
  function Record(k: Ledger, sv: SignedVote, round: Round): (r: (Ledger, Option<VKOutput>))
    ensures sv.vote.round in r.0.rounds
    ensures r.1.Some? && r.1.value.SkipRound? ==> r.1.value.round == sv.vote.round
  {
    var t := TallyAt(k, sv.vote.round);
    if sv.vote.address !in Members(k.validators) then
      (PutTally(k, sv.vote.round, t), None)
    else if ConflictWith(t, sv).Some? then
      var evidence := AddEvidence(k.evidence, ConflictWith(t, sv).value, sv);
      (PutTally(k, sv.vote.round, t).(evidence := evidence), None)
    else
      var (t', output) := Emit(k, t.(received := t.received + [sv]), sv.vote, round);
      (PutTally(k, sv.vote.round, t'), output)
  }

  /** `prune_votes` */
  function Prune(k: Ledger, minRound: Round): Ledger {
    k.(rounds := map r | r in k.rounds && r >= minRound :: k.rounds[r])
  }

  /** One validator's votes of one type all name one value: a conflicting vote is never recorded. */
  predicate Consistent(received: seq<SignedVote>) {
    forall sv, sv' | sv in received && sv' in received
      && sv.vote.voteType == sv'.vote.voteType && sv.vote.address == sv'.vote.address ::
      sv.vote.value == sv'.vote.value
  }

  predicate Known(vs: ValidatorSet, received: seq<SignedVote>) {
    forall sv | sv in received :: sv.vote.address in Members(vs)
  }

  // ---- The running weights --------------------------------------------------

  /** Weights per value, and who has voted. */
  datatype VoteCount = VoteCount(valuesWeights: map<NilOrVal, nat>, addresses: set<Address>)

  datatype PerRound = PerRound(
    prevotes: VoteCount,
    precommits: VoteCount,
    addressesWeights: map<Address, nat>,
    receivedVotes: seq<SignedVote>,
    emittedOutputs: set<VKOutput>)
  {
    function Count(voteType: VoteType): VoteCount {
      if voteType == Prevote then prevotes else precommits
    }
  }

  const EMPTY_COUNT := VoteCount(map[], {})
  const EMPTY_ROUND := PerRound(EMPTY_COUNT, EMPTY_COUNT, map[], [], {})

  /** The running weights of one vote type agree with the recount. */
  predicate CountOk(vs: ValidatorSet, received: seq<SignedVote>, voteType: VoteType, c: VoteCount) {
    && c.addresses == VotersOf(received, voteType)
    && (forall sv | sv in received && sv.vote.voteType == voteType :: sv.vote.value in c.valuesWeights)
    && (forall value | value in c.valuesWeights ::
          c.valuesWeights[value] == Power(vs, Voters(received, voteType, value)))
  }

  predicate WeightsOk(vs: ValidatorSet, received: seq<SignedVote>, weights: map<Address, nat>) {
    && weights.Keys == AllVoters(received)
    && forall a | a in weights :: a in Members(vs) && weights[a] == GetByAddress(vs, a).value.power
  }

  predicate PerRoundOk(vs: ValidatorSet, r: PerRound) {
    && Consistent(r.receivedVotes)
    && Known(vs, r.receivedVotes)
    && CountOk(vs, r.receivedVotes, Prevote, r.prevotes)
    && CountOk(vs, r.receivedVotes, Precommit, r.precommits)
    && WeightsOk(vs, r.receivedVotes, r.addressesWeights)
  }

  function Abstract(r: PerRound): Tally {
    Tally(r.receivedVotes, r.emittedOutputs)
  }

  function Tallies(perRound: map<Round, PerRound>): map<Round, Tally> {
    map r | r in perRound :: Abstract(perRound[r])
  }

  /** Three times the total fits in 64 bits, for the default parameters. */
  predicate ParamsFit(vs: ValidatorSet, params: ThresholdParams) {
    && Total(vs) <= U64_MAX
    && params.quorum.Fits(Total(vs))
    && params.honest.Fits(Total(vs))
  }

  /** Recording one more vote changes the voters of its own type and value only. */
  lemma VotersAfter(received: seq<SignedVote>, sv: SignedVote)
    ensures forall t, v :: Voters(received + [sv], t, v) ==
              if sv.vote.voteType == t && sv.vote.value == v then Voters(received, t, v) + {sv.vote.address}
              else Voters(received, t, v)
    ensures forall t :: VotersOf(received + [sv], t) ==
              if sv.vote.voteType == t then VotersOf(received, t) + {sv.vote.address} else VotersOf(received, t)
    ensures AllVoters(received + [sv]) == AllVoters(received) + {sv.vote.address}
  {
  }

  /** `VoteCount::get` */
  function GetWeight(c: VoteCount, value: NilOrVal): nat {
    if value in c.valuesWeights then c.valuesWeights[value] else 0
  }

  lemma GetWeightIsRecount(vs: ValidatorSet, received: seq<SignedVote>, voteType: VoteType, c: VoteCount,
                           value: NilOrVal)
    requires CountOk(vs, received, voteType, c)
    ensures GetWeight(c, value) == Power(vs, Voters(received, voteType, value)) <= Total(vs)
  {
    PowerAtMostTotal(vs, Voters(received, voteType, value));
    if value !in c.valuesWeights {
      assert Voters(received, voteType, value) == {};
      PowerOfNone(vs, {});
    }
  }

  /** A second vote of a validator, necessarily for the same value, changes no weight. */
  lemma RepeatKeepsCount(vs: ValidatorSet, c: VoteCount, sv: SignedVote, received: seq<SignedVote>)
    requires CountOk(vs, received, sv.vote.voteType, c) && sv.vote.address in c.addresses && Consistent(received + [sv])
    ensures CountOk(vs, received + [sv], sv.vote.voteType, c)
  {
    var a, t, value := sv.vote.address, sv.vote.voteType, sv.vote.value;
    VotersAfter(received, sv);
    var prior :| prior in received && prior.vote.voteType == t && prior.vote.address == a;
    assert prior in received + [sv] && sv in received + [sv];
    assert Voters(received + [sv], t, value) == Voters(received, t, value);
  }

  /** `VoteCount::add`: a validator counts once; the checked addition does not overflow. */
  method AddToCount(vs: ValidatorSet, c: VoteCount, sv: SignedVote, weight: nat, ghost received: seq<SignedVote>)
    returns (c': VoteCount)
    requires Unique(vs) && Total(vs) <= U64_MAX
    requires CountOk(vs, received, sv.vote.voteType, c)
    requires sv.vote.address in Members(vs) && weight == GetByAddress(vs, sv.vote.address).value.power
    requires Consistent(received + [sv])
    ensures CountOk(vs, received + [sv], sv.vote.voteType, c')
  {
    var a, t, value := sv.vote.address, sv.vote.voteType, sv.vote.value;
    if a in c.addresses {
      RepeatKeepsCount(vs, c, sv, received);
      c' := c;
    } else {
      VotersAfter(received, sv);
      GetWeightIsRecount(vs, received, t, c, value);
      PowerAdd(vs, Voters(received, t, value), a);
      PowerAtMostTotal(vs, Voters(received + [sv], t, value));
      var sum := CheckedAdd(GetWeight(c, value), weight).value;
      c' := VoteCount(c.valuesWeights[value := sum], c.addresses + {a});
    }
  }

  /** Voters of one type whose value is among `values`. */
  ghost function VotersAmong(received: seq<SignedVote>, voteType: VoteType, values: set<NilOrVal>): set<Address> {
    set sv | sv in received && sv.vote.voteType == voteType && sv.vote.value in values :: sv.vote.address
  }

  /** `ValuesWeights::sum`: the checked additions do not overflow, and the sum counts each voter once. */
  method SumValues(vs: ValidatorSet, c: VoteCount, ghost received: seq<SignedVote>, ghost voteType: VoteType)
    returns (sum: nat)
    requires Total(vs) <= U64_MAX && Consistent(received)
    requires CountOk(vs, received, voteType, c)
    ensures sum == Power(vs, VotersOf(received, voteType)) <= Total(vs)
  {
    var todo := c.valuesWeights.Keys;
    ghost var done := {};
    sum := 0;
    assert VotersAmong(received, voteType, {}) == {};
    PowerOfNone(vs, {});
    while todo != {}
      invariant todo + done == c.valuesWeights.Keys && todo !! done
      invariant sum == Power(vs, VotersAmong(received, voteType, done))
    {
      var value :| value in todo;
      var before, more := VotersAmong(received, voteType, done), Voters(received, voteType, value);
      assert VotersAmong(received, voteType, done + {value}) == before + more;
      assert before * more == {};
      PowerUnion(vs, before, more);
      PowerAtMostTotal(vs, before + more);
      sum := CheckedAdd(sum, c.valuesWeights[value]).value;
      todo, done := todo - {value}, done + {value};
    }
    assert VotersAmong(received, voteType, done) == VotersOf(received, voteType);
    PowerAtMostTotal(vs, VotersOf(received, voteType));
  }

  lemma NoWrap(n: nat)
    requires n <= U64_MAX
    ensures n % (U64_MAX + 1) == n
  {
  }

  /** `RoundWeights::sum`, an unchecked sum: it does not wrap. */
  method SumWeights(vs: ValidatorSet, weights: map<Address, nat>, ghost received: seq<SignedVote>)
    returns (sum: nat)
    requires Unique(vs) && Total(vs) <= U64_MAX
    requires WeightsOk(vs, received, weights)
    ensures sum == Power(vs, AllVoters(received)) <= Total(vs)
  {
    var todo := weights.Keys;
    ghost var done: set<Address> := {};
    sum := 0;
    PowerOfNone(vs, {});
    while todo != {}
      invariant todo + done == weights.Keys && todo !! done
      invariant sum == Power(vs, done)
    {
      var a :| a in todo;
      PowerAdd(vs, done, a);
      PowerAtMostTotal(vs, done + {a});
      var raw := sum + weights[a];
      NoWrap(raw);
      sum := raw % (U64_MAX + 1);
      todo, done := todo - {a}, done + {a};
    }
    assert done == AllVoters(received);
    PowerAtMostTotal(vs, done);
  }

  /** What becomes of the vote's round, what is output and which vote is contradicted. */
  predicate Counted(k: Ledger, sv: SignedVote, round: Round, t': Tally, output: Option<VKOutput>,
                    conflict: Option<SignedVote>) {
    var t := TallyAt(k, sv.vote.round);
    if sv.vote.address !in Members(k.validators) then t' == t && output.None? && conflict.None?
    else
      && conflict == ConflictWith(t, sv)
      && (t', output) == if conflict.Some? then (t, None)
                         else Emit(k, t.(received := t.received + [sv]), sv.vote, round)
  }

  lemma RecordIs(k: Ledger, sv: SignedVote, round: Round, t': Tally, output: Option<VKOutput>,
                 conflict: Option<SignedVote>)
    requires Counted(k, sv, round, t', output, conflict)
    ensures var evidence := if conflict.Some? then AddEvidence(k.evidence, conflict.value, sv) else k.evidence;
            Record(k, sv, round) == (PutTally(k.(evidence := evidence), sv.vote.round, t'), output)
  {
  }

  ghost predicate RoundsOk(validators: ValidatorSet, perRound: map<Round, PerRound>) {
    forall r | r in perRound :: PerRoundOk(validators, perRound[r])
  }

  /** `VoteKeeper`, with the running weights of every round. */
  class VoteKeeper {
    const validators: ValidatorSet
    const params: ThresholdParams
    var perRound: map<Round, PerRound>
    var evidence: Evidence

    ghost predicate Valid()
      reads this
    {
      && Unique(validators)
      && ParamsFit(validators, params)
      && RoundsOk(validators, perRound)
    }

    function Model(): Ledger
      reads this
    {
      Ledger(validators, params, Tallies(perRound), evidence)
    }

    constructor (validators: ValidatorSet, params: ThresholdParams)
      requires Unique(validators) && ParamsFit(validators, params)
      ensures Valid() && Model() == Ledger(validators, params, map[], map[])
    {
      this.validators := validators;
      this.params := params;
      perRound := map[];
      evidence := map[];
    }

    /** `PerRound::add`: a vote that contradicts an earlier one is returned with it and changes nothing. */
    method AddVote(r: PerRound, sv: SignedVote, weight: nat) returns (r': PerRound, conflict: Option<SignedVote>)
      requires Valid() && PerRoundOk(validators, r)
      requires sv.vote.address in Members(validators)
      requires weight == GetByAddress(validators, sv.vote.address).value.power
      ensures PerRoundOk(validators, r')
      ensures conflict.None? <==> Consistent(r.receivedVotes + [sv])
      ensures conflict == ConflictWith(Abstract(r), sv)
      ensures if conflict.Some? then r' == r else Abstract(r') == Abstract(r).(received := r.receivedVotes + [sv])
    {
      ConflictIsInconsistent(r.receivedVotes, sv);
      conflict := ConflictWith(Abstract(r), sv);
      if conflict.Some? {
        return r, conflict;
      }
      ghost var other := if sv.vote.voteType == Prevote then Precommit else Prevote;
      OtherCountKept(validators, r.receivedVotes, sv, other, r.Count(other));
      WeightsKept(validators, r.receivedVotes, sv, r.addressesWeights);
      assert forall x :: x in r.receivedVotes + [sv] <==> x in r.receivedVotes || x == sv;
      var count := AddToCount(validators, r.Count(sv.vote.voteType), sv, weight, r.receivedVotes);
      r' := if sv.vote.voteType == Prevote then r.(prevotes := count) else r.(precommits := count);
      var a := sv.vote.address;
      if a !in r'.addressesWeights {
        r' := r'.(addressesWeights := r'.addressesWeights[a := weight]);
      }
      r' := r'.(receivedVotes := r'.receivedVotes + [sv]);
    }

    /** `compute_threshold`, on the running weights. */
    method Compute(r: PerRound, voteType: VoteType, value: NilOrVal) returns (threshold: Threshold)
      requires Valid() && PerRoundOk(validators, r)
      ensures threshold == ComputeThreshold(Model(), Abstract(r), voteType, value)
    {
      var total := Total(validators);
      var weight := GetWeight(r.Count(voteType), value);
      GetWeightIsRecount(validators, r.receivedVotes, voteType, r.Count(voteType), value);
      FittingTestNeverPanics(params.quorum, weight, total);
      if params.quorum.IsMet(weight, total).value {
        return if value.Nil? then NilThreshold else ValueThreshold(value.id);
      }
      var sum := SumValues(validators, r.Count(voteType), r.receivedVotes, voteType);
      FittingTestNeverPanics(params.quorum, sum, total);
      return if params.quorum.IsMet(sum, total).value then AnyThreshold else Unreached;
    }

    /** The tail of `apply_vote`: skip to the vote's round, or report the threshold it reached. */
    method EmitOutput(r: PerRound, vote: Vote, round: Round) returns (r': PerRound, output: Option<VKOutput>)
      requires Valid() && PerRoundOk(validators, r)
      ensures PerRoundOk(validators, r')
      ensures (Abstract(r'), output) == Emit(Model(), Abstract(r), vote, round)
    {
      if vote.round > round {
        var combined := SumWeights(validators, r.addressesWeights, r.receivedVotes);
        FittingTestNeverPanics(params.honest, combined, Total(validators));
        if params.honest.IsMet(combined, Total(validators)).value {
          return r.(emittedOutputs := r.emittedOutputs + {SkipRound(vote.round)}), Some(SkipRound(vote.round));
        }
      }
      var threshold := Compute(r, vote.voteType, vote.value);
      output := ThresholdToOutput(vote.voteType, threshold);
      r' := r;
      if output.Some? && output.value !in r.emittedOutputs {
        r' := r.(emittedOutputs := r.emittedOutputs + {output.value});
      } else {
        output := None;
      }
    }

    method PutRound(round: Round, r: PerRound, evidence': Evidence)
      requires Valid() && PerRoundOk(validators, r)
      modifies this
      ensures Valid() && Model() == PutTally(old(Model()).(evidence := evidence'), round, Abstract(r))
    {
      TalliesWith(perRound, round, r);
      perRound, evidence := perRound[round := r], evidence';
    }

    /** The part of `apply_vote` that works on the entry of the vote's round. */
    method CountVote(sv: SignedVote, round: Round)
      returns (r: PerRound, output: Option<VKOutput>, conflict: Option<SignedVote>)
      requires Valid()
      ensures PerRoundOk(validators, r) && Counted(Model(), sv, round, Abstract(r), output, conflict)
    {
      var vote := sv.vote;
      r := if vote.round in perRound then perRound[vote.round] else EMPTY_ROUND;
      EmptyRoundOk(validators);
      var validator := GetByAddress(validators, vote.address);
      output, conflict := None, None;
      if validator.Some? {
        r, conflict := AddVote(r, sv, validator.value.power);
        if conflict.None? {
          r, output := EmitOutput(r, vote, round);
        }
      }
    }

    method ApplyVote(sv: SignedVote, round: Round) returns (output: Option<VKOutput>)
      requires Valid()
      modifies this
      ensures Valid()
      ensures (Model(), output) == Record(old(Model()), sv, round)
    {
      var r, conflict;
      r, output, conflict := CountVote(sv, round);
      RecordIs(Model(), sv, round, Abstract(r), output, conflict);
      var evidence' := if conflict.Some? then AddEvidence(evidence, conflict.value, sv) else evidence;
      PutRound(sv.vote.round, r, evidence');
    }

    /** `per_round(round).received_votes()` */
    function ReceivedVotes(round: Round): (received: seq<SignedVote>)
      reads this
      ensures received == TallyAt(Model(), round).received
    {
      if round in perRound then perRound[round].receivedVotes else []
    }

    method IsThresholdMet(round: Round, voteType: VoteType, threshold: Threshold) returns (met: bool)
      requires Valid()
      ensures met == ThresholdMet(Model(), round, voteType, threshold)
    {
      if round !in perRound {
        return false;
      }
      var r, total := perRound[round], Total(validators);
      var weight := 0;
      match threshold {
        case Unreached => return false;
        case ValueThreshold(id) =>
          weight := GetWeight(r.Count(voteType), Val(id));
          GetWeightIsRecount(validators, r.receivedVotes, voteType, r.Count(voteType), Val(id));
        case NilThreshold =>
          weight := GetWeight(r.Count(voteType), Nil);
          GetWeightIsRecount(validators, r.receivedVotes, voteType, r.Count(voteType), Nil);
        case AnyThreshold =>
          weight := SumValues(validators, r.Count(voteType), r.receivedVotes, voteType);
      }
      FittingTestNeverPanics(params.quorum, weight, total);
      return params.quorum.IsMet(weight, total).value;
    }

    method PruneVotes(minRound: Round)
      requires Valid()
      modifies this
      ensures Valid() && Model() == Prune(old(Model()), minRound)
    {
      PrunedTallies(perRound, minRound);
      perRound := map r | r in perRound && r >= minRound :: perRound[r];
    }
  }

  lemma OtherCountKept(vs: ValidatorSet, received: seq<SignedVote>, sv: SignedVote, t: VoteType, c: VoteCount)
    requires CountOk(vs, received, t, c) && t != sv.vote.voteType
    ensures CountOk(vs, received + [sv], t, c)
  {
    VotersAfter(received, sv);
  }

  /** `RoundWeights::set_once` */
  lemma WeightsKept(vs: ValidatorSet, received: seq<SignedVote>, sv: SignedVote, weights: map<Address, nat>)
    requires WeightsOk(vs, received, weights) && sv.vote.address in Members(vs)
    ensures var a := sv.vote.address;
            WeightsOk(vs, received + [sv],
              if a in weights then weights else weights[a := GetByAddress(vs, a).value.power])
  {
  }

  lemma EmptyRoundOk(vs: ValidatorSet)
    ensures PerRoundOk(vs, EMPTY_ROUND)
  {
  }

  /** A vote contradicts the first recorded one of its kind exactly when it contradicts any of them. */
  lemma ConflictIsInconsistent(received: seq<SignedVote>, sv: SignedVote)
    requires Consistent(received)
    ensures ConflictWith(Tally(received, {}), sv).None? <==> Consistent(received + [sv])
  {
    var existing := GetVote(received, sv.vote.voteType, sv.vote.address);
    if existing.Some? {
      assert existing.value in received + [sv] && sv in received + [sv];
    }
  }

  lemma TalliesWith(perRound: map<Round, PerRound>, round: Round, r: PerRound)
    ensures Tallies(perRound[round := r]) == Tallies(perRound)[round := Abstract(r)]
  {
  }

  /** Pruning the running weights prunes the recount. */
  lemma PrunedTallies(perRound: map<Round, PerRound>, minRound: Round)
    ensures Tallies(map r | r in perRound && r >= minRound :: perRound[r])
         == map r | r in Tallies(perRound) && r >= minRound :: Tallies(perRound)[r]
  {
  }
}
