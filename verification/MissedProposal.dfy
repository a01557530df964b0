/**
  A proposal the driver misses: the second one of a round for the same value. The lookup by value finds
  the first, which names another POL round, and the polka of the second one's POL round goes unused.
*/
module MissedProposal {
  import opened Types
  import opened StateMachine
  import opened DriverModel
  import opened DriverRuns
  import opened DriverBacking
  import opened CertificateLookup

  /** Two proposals of one proposer for round 1 and value 1; only the second names a round before it. */
  const ODD: Proposal := Proposal(1, 1, Value(1, 0), 1, FAULTY)
  const EVEN: Proposal := Proposal(1, 1, Value(1, 0), 0, FAULTY)

  function Left(): Driver {
    Started(ALICE).(roundState := State(1, 1, Unstarted, None, None, None))
  }

  function Waiting(stored: seq<StoredProposal>): Driver {
    Left().(roundState := State(1, 1, Proposing, None, None, None),
            proposals := if stored == [] then map[] else map[1 := stored])
  }

  const BOTH: seq<StoredProposal> :=
    [(SignedProposal(ODD, 0), Validity.Valid), (SignedProposal(EVEN, 0), Validity.Valid)]

  function Missing(): Driver {
    Waiting(BOTH).(polkaCertificates := [Polka(0, 1)])
  }

  lemma LeavesDoes()
    ensures Does(Started(ALICE), TimeoutElapsed(TIMEOUT), Left(), [MoveToRound(1, 1)])
  {
    var e := Effect(Started(ALICE), 0, TimeoutPrecommit, State(1, 1, Unstarted, None, None, None), NewRoundOutput(1));
    KnownProposer(Started(ALICE));
    assert HasEffect(Started(ALICE), TimeoutElapsed(TIMEOUT), e, Left(), [MoveToRound(1, 1)]);
  }

  lemma StartsDoes()
    ensures Does(Left(), StartRound(1, 1, FAULTY), Waiting([]), [StartTimeout(Timeout(1, ProposeKind))])
  {
    var e := Effect(Left(), 1, NewRound(1), State(1, 1, Proposing, None, None, None),
                    ScheduleTimeout(Timeout(1, ProposeKind)));
    KnownProposer(Left());
    assert HasEffect(Left(), StartRound(1, 1, FAULTY), e, Waiting([]), [StartTimeout(Timeout(1, ProposeKind))]);
  }

  lemma OddDoes()
    ensures Does(Waiting([]), Deliver(ODD), Waiting([BOTH[0]]), [])
  {
    assert [] + [BOTH[0]] == [BOTH[0]];
    assert StoreProposal(Waiting([]), SignedProposal(ODD, 0), Validity.Valid) == Waiting([BOTH[0]]);
  }

  lemma EvenDoes()
    ensures Does(Waiting([BOTH[0]]), Deliver(EVEN), Waiting(BOTH), [])
  {
    assert [BOTH[0]] + [BOTH[1]] == BOTH;
    assert StoreProposal(Waiting([BOTH[0]]), SignedProposal(EVEN, 0), Validity.Valid) == Waiting(BOTH);
  }

  lemma PolkaIsIgnored()
    ensures Does(Waiting(BOTH), ReceivePolka(Polka(0, 1)), Missing(), [])
  {
    assert StorePolkaCertificate(Waiting(BOTH), Polka(0, 1)) == Missing();
    assert ProposalFor(Missing(), 1, 1) == Some(BOTH[0]);
  }

  lemma UntilWaiting() returns (ds: seq<Driver>, ops: seq<Op>)
    ensures RunsTo(ds, ops, Waiting([]))
  {
    ds, ops := [Fresh(ALICE)], [];
    StartDoes(ALICE);
    ds, ops := CallOn(ds, ops, Fresh(ALICE), StartRound(1, 0, FAULTY), Started(ALICE),
                      [StartTimeout(Timeout(0, ProposeKind))]);
    LeavesDoes();
    ds, ops := CallOn(ds, ops, Started(ALICE), TimeoutElapsed(TIMEOUT), Left(), [MoveToRound(1, 1)]);
    StartsDoes();
    ds, ops := CallOn(ds, ops, Left(), StartRound(1, 1, FAULTY), Waiting([]), [StartTimeout(Timeout(1, ProposeKind))]);
  }

  /**
    A run at whose end the driver is in the propose step with a valid proposal stored whose POL round is
    earlier and whose polka is known, without having prevoted it.
  */
  lemma SecondProposalIsMissed() returns (ds: seq<Driver>, ops: seq<Op>)
    ensures IsRun(1, ds, ops)
    ensures var d := ds[|ops|];
            && d.roundState.step == Proposing && d.roundState.round == 1
            && (SignedProposal(EVEN, 0), Validity.Valid) in ProposalsAt(d, 1)
            && EVEN.polRound < EVEN.round && PolkaKnown(d, EVEN.polRound, EVEN.value.id)
  {
    ds, ops := UntilWaiting();
    OddDoes();
    ds, ops := CallOn(ds, ops, Waiting([]), Deliver(ODD), Waiting([BOTH[0]]), []);
    EvenDoes();
    ds, ops := CallOn(ds, ops, Waiting([BOTH[0]]), Deliver(EVEN), Waiting(BOTH), []);
    PolkaIsIgnored();
    ds, ops := CallOn(ds, ops, Waiting(BOTH), ReceivePolka(Polka(0, 1)), Missing(), []);
    assert BOTH[1] in BOTH;
    assert Missing().polkaCertificates[0] == Polka(0, 1);
  }
}
