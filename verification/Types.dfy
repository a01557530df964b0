/**
  The values the consensus engine passes around: rounds, votes, proposals and
  timeouts. Identifiers the engine only compares (addresses, value ids, signatures)
  are natural numbers.
*/
module Types {
  datatype Option<+T> = None | Some(value: T)

  /** `Round::Nil` is `-1`, `Round::Some(r)` is `r`; the order is that of the integers. */
  type Round = r: int | -1 <= r witness -1

  const NIL_ROUND: Round := -1

  type Height = nat
  type Address = nat
  type ValueId = nat
  type Signature = nat

  /** A proposed value. Two values may share an id; nothing here assumes otherwise. */
  datatype Value = Value(id: ValueId, body: nat)

  datatype NilOrVal = Nil | Val(id: ValueId)

  datatype VoteType = Prevote | Precommit

  datatype Vote = Vote(
    voteType: VoteType,
    height: Height,
    round: Round,
    value: NilOrVal,
    address: Address)

  datatype SignedVote = SignedVote(vote: Vote, signature: Signature)

  datatype Proposal = Proposal(
    height: Height,
    round: Round,
    value: Value,
    polRound: Round,
    address: Address)

  datatype SignedProposal = SignedProposal(message: Proposal, signature: Signature)

  datatype Validity = Valid | Invalid

  datatype TimeoutKind = ProposeKind | PrevoteKind | PrecommitKind | RebroadcastKind

  datatype Timeout = Timeout(round: Round, kind: TimeoutKind)
}
