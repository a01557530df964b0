/**
  Voting power and quorum thresholds: the power of a set of validators, the checked
  64-bit threshold test, and how sets above a threshold must overlap.
*/
module Quorum {
  import opened Types

  datatype Validator = Validator(address: Address, power: nat)

  type ValidatorSet = seq<Validator>

  /** Addresses of the validators of a set. */
  function Members(vs: ValidatorSet): set<Address> {
    set v | v in vs :: v.address
  }

  /** No address occurs twice, as the documentation of `ValidatorSet` demands. */
  predicate Unique(vs: ValidatorSet) {
    forall i, j :: 0 <= i < j < |vs| ==> vs[i].address != vs[j].address
  }

  /** `get_by_address`: the first validator with that address. */
  function GetByAddress(vs: ValidatorSet, a: Address): (r: Option<Validator>)
    ensures r.Some? <==> a in Members(vs)
    ensures r.Some? ==> r.value in vs && r.value.address == a
  {
    if vs == [] then None
    else if vs[0].address == a then Some(vs[0])
    else
      assert forall v :: v in vs <==> v == vs[0] || v in vs[1..];
      GetByAddress(vs[1..], a)
  }

  /** Power held by the validators whose address is in `s`. */
  function Power(vs: ValidatorSet, s: set<Address>): nat {
    if vs == [] then 0
    else (if vs[0].address in s then vs[0].power else 0) + Power(vs[1..], s)
  }

  /** `total_voting_power` */
  function Total(vs: ValidatorSet): nat {
    if vs == [] then 0 else vs[0].power + Total(vs[1..])
  }

  lemma {:induction false} PowerOfMembers(vs: ValidatorSet, s: set<Address>)
    requires Members(vs) <= s
    ensures Power(vs, s) == Total(vs)
  {
    if vs != [] {
      assert vs[0] in vs;
      assert forall v :: v in vs[1..] ==> v in vs;
      PowerOfMembers(vs[1..], s);
    }
  }

  lemma {:induction false} PowerOfNone(vs: ValidatorSet, s: set<Address>)
    requires Members(vs) !! s
    ensures Power(vs, s) == 0
  {
    if vs != [] {
      assert vs[0] in vs;
      assert forall v :: v in vs[1..] ==> v in vs;
      PowerOfNone(vs[1..], s);
    }
  }

  lemma {:induction false} PowerMonotone(vs: ValidatorSet, s: set<Address>, t: set<Address>)
    requires s <= t
    ensures Power(vs, s) <= Power(vs, t)
  {
    if vs != [] {
      PowerMonotone(vs[1..], s, t);
    }
  }

  lemma {:induction false} PowerAtMostTotal(vs: ValidatorSet, s: set<Address>)
    ensures Power(vs, s) <= Total(vs)
  {
    if vs != [] {
      PowerAtMostTotal(vs[1..], s);
    }
  }

  /** Inclusion and exclusion for voting power. */
  lemma {:induction false} PowerUnion(vs: ValidatorSet, s: set<Address>, t: set<Address>)
    ensures Power(vs, s + t) + Power(vs, s * t) == Power(vs, s) + Power(vs, t)
  {
    if vs != [] {
      PowerUnion(vs[1..], s, t);
    }
  }

  /** A single member contributes exactly the power recorded for it. */
  lemma {:induction false} PowerOfOne(vs: ValidatorSet, a: Address)
    requires Unique(vs) && a in Members(vs)
    ensures Power(vs, {a}) == GetByAddress(vs, a).value.power
  {
    assert forall v :: v in vs <==> v == vs[0] || v in vs[1..];
    if vs[0].address == a {
      assert forall v :: v in vs[1..] ==> v.address != a;
      PowerOfNone(vs[1..], {a});
    } else {
      PowerOfOne(vs[1..], a);
    }
  }

  /** Adding a member that was not counted adds its power. */
  lemma PowerAdd(vs: ValidatorSet, s: set<Address>, a: Address)
    requires Unique(vs) && a in Members(vs) && a !in s
    ensures Power(vs, s + {a}) == Power(vs, s) + GetByAddress(vs, a).value.power
  {
    PowerUnion(vs, s, {a});
    assert s * {a} == {};
    PowerOfNone(vs, {});
    PowerOfOne(vs, a);
  }

  const U64_MAX: nat := 0xFFFF_FFFF_FFFF_FFFF

  /** `None` is the panic of a failed overflow check. */
  function CheckedAdd(a: nat, b: nat): Option<nat> {
    if a + b <= U64_MAX then Some(a + b) else None
  }

  function CheckedMul(a: nat, b: nat): Option<nat> {
    if a * b <= U64_MAX then Some(a * b) else None
  }

  datatype ThresholdParam = ThresholdParam(numerator: nat, denominator: nat) {
    /** The fraction test on unbounded numbers. */
    predicate Met(weight: nat, total: nat) {
      weight * denominator > total * numerator
    }

    /** `is_met`: `None` when one of the two multiplications overflows. */
    function IsMet(weight: nat, total: nat): Option<bool> {
      match (CheckedMul(weight, denominator), CheckedMul(total, numerator))
      case (Some(lhs), Some(rhs)) => Some(lhs > rhs)
      case _ => None
    }

    /** `min_expected`: `None` when it overflows or divides by zero. */
    function MinExpected(total: nat): Option<nat> {
      match CheckedMul(total, numerator)
      case Some(product) =>
        if denominator == 0 then None else CheckedAdd(1, product / denominator)
      case None => None
    }

    /** No weight up to `total` can trip an overflow check. */
    predicate Fits(total: nat) {
      total * denominator <= U64_MAX && total * numerator <= U64_MAX
    }
  }

  datatype ThresholdParams = ThresholdParams(quorum: ThresholdParam, honest: ThresholdParam)

  const TWO_F_PLUS_ONE := ThresholdParam(2, 3)
  const F_PLUS_ONE := ThresholdParam(1, 3)
  const DEFAULT_PARAMS := ThresholdParams(TWO_F_PLUS_ONE, F_PLUS_ONE)

  /** When the parameter fits, the checked test answers, and answers the fraction test. */
  lemma FittingTestNeverPanics(p: ThresholdParam, weight: nat, total: nat)
    requires p.Fits(total) && weight <= total
    ensures p.IsMet(weight, total) == Some(p.Met(weight, total))
  {
  }

  /** The default parameters fit exactly when three times the total fits in 64 bits. */
  lemma DefaultParamsFit(total: nat)
    ensures 3 * total <= U64_MAX <==> TWO_F_PLUS_ONE.Fits(total) && F_PLUS_ONE.Fits(total)
  {
  }

  /** The threshold is met exactly from the minimum expected weight on. */
  lemma MetFromMinimum(p: ThresholdParam, weight: nat, total: nat)
    requires p.MinExpected(total).Some?
    ensures p.Met(weight, total) <==> weight >= p.MinExpected(total).value
  {
  }

  /** More than two thirds of the power. */
  predicate IsQuorum(vs: ValidatorSet, s: set<Address>) {
    3 * Power(vs, s) > 2 * Total(vs)
  }

  /** More than one third of the power. */
  predicate IsHonestThreshold(vs: ValidatorSet, s: set<Address>) {
    3 * Power(vs, s) > Total(vs)
  }

  /** Two sets above a threshold overlap in the excess over the total. */
  lemma Overlap(vs: ValidatorSet, s: set<Address>, t: set<Address>)
    ensures Power(vs, s * t) + Total(vs) >= Power(vs, s) + Power(vs, t)
  {
  }

  /** Two quorums share more than one third of the power. */
  lemma QuorumsOverlap(vs: ValidatorSet, s: set<Address>, t: set<Address>)
    requires IsQuorum(vs, s) && IsQuorum(vs, t)
    ensures IsHonestThreshold(vs, s * t)
  {
    Overlap(vs, s, t);
  }

  /** A set with more power than the faulty validators has a correct member. */
  lemma HasCorrectMember(vs: ValidatorSet, s: set<Address>, faulty: set<Address>)
    returns (a: Address)
    requires Power(vs, s) > Power(vs, faulty)
    ensures a in s && a in Members(vs) && a !in faulty
  {
    if forall x :: x in s && x in Members(vs) ==> x in faulty {
      PowerUnion(vs, s, faulty);
      OutsidersDoNotCount(vs, s, faulty);
      assert false;
    }
    a :| a in s && a in Members(vs) && a !in faulty;
  }

  lemma {:induction false} OutsidersDoNotCount(vs: ValidatorSet, s: set<Address>, t: set<Address>)
    requires forall x :: x in s && x in Members(vs) ==> x in t
    ensures Power(vs, s) <= Power(vs, t)
  {
    if vs != [] {
      assert vs[0] in vs && vs[0].address in Members(vs);
      assert forall v :: v in vs[1..] ==> v in vs;
      OutsidersDoNotCount(vs[1..], s, t);
    }
  }

  /** Two quorums share a validator outside any set of less than one third of the power. */
  lemma QuorumsShareCorrect(vs: ValidatorSet, s: set<Address>, t: set<Address>, faulty: set<Address>)
    returns (a: Address)
    requires IsQuorum(vs, s) && IsQuorum(vs, t)
    requires 3 * Power(vs, faulty) < Total(vs)
    ensures a in s && a in t && a in Members(vs) && a !in faulty
  {
    QuorumsOverlap(vs, s, t);
    a := HasCorrectMember(vs, s * t, faulty);
  }
}
