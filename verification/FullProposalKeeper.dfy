/** The keeper object: entries are rewritten in place as proposals and values come in. */
module FullProposalObject {
  import opened Types
  import opened FullProposals

  lemma {:induction false} StopsAt(es: seq<Entry>, p: SignedProposal, added: Entry, i: nat)
    requires i < |es| && Stops(es[i], p) && forall j :: 0 <= j < i ==> !Stops(es[j], p)
    ensures AddProposal(es, p, added) == es[i := WithProposal(es[i], p)]
  {
    if i > 0 {
      StopsAt(es[1..], p, added, i - 1);
    }
  }

  lemma {:induction false} NeverStops(es: seq<Entry>, p: SignedProposal, added: Entry)
    requires forall j :: 0 <= j < |es| ==> !Stops(es[j], p)
    ensures AddProposal(es, p, added) == es + [added]
  {
    if es != [] {
      NeverStops(es[1..], p, added);
    }
  }

  lemma {:induction false} ValueAt(es: seq<Entry>, v: ProposedValue, i: nat)
    requires i < |es| && HasId(es[i], v.value.id) && forall j :: 0 <= j < i ==> !HasId(es[j], v.value.id)
    ensures AddValue(es, v) == es[i := WithValue(es[i], v)]
  {
    if i > 0 {
      ValueAt(es[1..], v, i - 1);
    }
  }

  lemma {:induction false} ValueNowhere(es: seq<Entry>, v: ProposedValue)
    requires forall j :: 0 <= j < |es| ==> !HasId(es[j], v.value.id)
    ensures AddValue(es, v) == es + [ValueOnly(v.value, v.validity)]
  {
    if es != [] {
      ValueNowhere(es[1..], v);
    }
  }

  lemma {:induction false} ValidityAt(es: seq<Entry>, id: ValueId, i: nat)
    requires i <= |es| && forall j :: 0 <= j < i ==> es[j].ProposalOnly? || es[j].Empty? || !HasId(es[j], id)
    ensures ValidityOf(es, id) == ValidityOf(es[i..], id)
  {
    if i > 0 {
      ValidityAt(es[1..], id, i - 1);
      assert es[1..][i - 1..] == es[i..];
    } else {
      assert es[0..] == es;
    }
  }

  /** The in-place loop over the entries of one key. */
  method FillEntries(entries: seq<Entry>, v: ProposedValue) returns (es: seq<Entry>)
    ensures es == Fill(entries, v)
  {
    es := entries;
    for i := 0 to |es|
      invariant |es| == |entries|
      invariant forall j :: 0 <= j < |es| ==> es[j] == if j < i then FillOne(entries[j], v) else entries[j]
    {
      var entry := es[i];
      if entry.ProposalOnly? {
        var p := entry.proposal;
        if IdOf(p) == v.value.id && (p.message.round == v.round || p.message.polRound == v.round) {
          es := es[i := Full(v.value, v.validity, p)];
        }
      }
    }
  }

  class FullProposalKeeper {
    var keeper: Keeper

    /** The `Empty` placeholder, on which storing panics, is nowhere. */
    predicate NoneEmpty()
      reads this
    {
      forall k :: k in keeper ==> forall e :: e in keeper[k] ==> !e.Empty?
    }

    constructor ()
      ensures keeper == map[]
    {
      keeper := map[];
    }

    method GetValue(height: Height, round: Round, value: Value) returns (r: Option<(Value, Validity)>)
      ensures match ValidityOf(Entries(keeper, (height, round)), value.id)
        case None => r == None
        case Some(validity) => r == Some((value, validity))
    {
      var k := (height, round);
      if k !in keeper || keeper[k] == [] {
        return None;
      }
      var es := keeper[k];
      for i := 0 to |es|
        invariant forall j :: 0 <= j < i ==> es[j].ProposalOnly? || es[j].Empty? || !HasId(es[j], value.id)
      {
        ValidityAt(es, value.id, i);
        match es[i] {
          case Full(_, validity, p) =>
            if IdOf(p) == value.id {
              return Some((value, validity));
            }
          case ValueOnly(v, validity) =>
            if v.id == value.id {
              return Some((value, validity));
            }
          case _ =>
        }
      }
      ValidityAt(es, value.id, |es|);
      return None;
    }

    method EntryFor(p: SignedProposal) returns (e: Entry)
      ensures e == NewEntry(keeper, p)
    {
      if p.message.polRound == NIL_ROUND {
        return ProposalOnly(p);
      }
      var found := GetValue(p.message.height, p.message.polRound, p.message.value);
      e := if found.None? then ProposalOnly(p) else Full(found.value.0, found.value.1, p);
    }

    method StoreProposal(p: SignedProposal)
      requires NoneEmpty()
      modifies this
      ensures keeper == AfterProposal(old(keeper), p)
    {
      var k := KeyOf(p);
      if k !in keeper {
        var e := EntryFor(p);
        keeper := keeper[k := [e]];
        return;
      }
      var es := keeper[k];
      for i := 0 to |es|
        invariant keeper == old(keeper)
        invariant forall j :: 0 <= j < i ==> !Stops(es[j], p)
      {
        if Stops(es[i], p) {
          StopsAt(es, p, NewEntry(keeper, p), i);
          assert es[i := es[i]] == es && keeper[k := es] == keeper;
        }
        match es[i] {
          case Full(_, _, q) =>
            if IdOf(q) == IdOf(p) {
              return;
            }
          case ValueOnly(value, validity) =>
            if value == p.message.value {
              keeper := keeper[k := es[i := Full(value, validity, p)]];
              return;
            }
          case ProposalOnly(q) =>
            if IdOf(q) == IdOf(p) {
              return;
            }
          case Empty =>
            assert false;
        }
      }
      NeverStops(es, p, NewEntry(keeper, p));
      var e := EntryFor(p);
      keeper := keeper[k := es + [e]];
    }

    method StoreValueAtValueRound(v: ProposedValue)
      requires NoneEmpty()
      modifies this
      ensures keeper == AtValueRound(old(keeper), v)
    {
      var k := KeyOfValue(v);
      if k !in keeper {
        keeper := keeper[k := [ValueOnly(v.value, v.validity)]];
        return;
      }
      var es := keeper[k];
      for i := 0 to |es|
        invariant keeper == old(keeper)
        invariant forall j :: 0 <= j < i ==> !HasId(es[j], v.value.id)
      {
        if HasId(es[i], v.value.id) {
          ValueAt(es, v, i);
          assert es[i := es[i]] == es && keeper[k := es] == keeper;
        }
        match es[i] {
          case ProposalOnly(p) =>
            if IdOf(p) == v.value.id {
              keeper := keeper[k := es[i := Full(v.value, v.validity, p)]];
              return;
            }
          case ValueOnly(value, _) =>
            if value.id == v.value.id {
              return;
            }
          case Full(_, _, p) =>
            if IdOf(p) == v.value.id {
              return;
            }
          case Empty =>
            assert false;
        }
      }
      ValueNowhere(es, v);
      keeper := keeper[k := es + [ValueOnly(v.value, v.validity)]];
    }

    method StoreValueAtPolRound(v: ProposedValue)
      modifies this
      ensures keeper == AtPolRound(old(keeper), v)
    {
      var first := KeyOfValue(v);
      var todo := set k | k in keeper && AtOrAfter(k, first);
      while todo != {}
        invariant keeper.Keys == old(keeper).Keys && todo <= keeper.Keys
        invariant forall k :: k in todo ==> AtOrAfter(k, first)
        invariant forall k :: k in keeper ==>
          keeper[k] == if AtOrAfter(k, first) && k !in todo then Fill(old(keeper)[k], v) else old(keeper)[k]
      {
        var k :| k in todo;
        var es := FillEntries(keeper[k], v);
        keeper := keeper[k := es];
        todo := todo - {k};
      }
    }

    method StoreValue(v: ProposedValue)
      requires NoneEmpty()
      modifies this
      ensures keeper == AfterValue(old(keeper), v)
    {
      StoreValueAtValueRound(v);
      StoreValueAtPolRound(v);
    }

    /** Any run of messages, from an empty keeper: storing never panics. */
    method StoreAll(messages: seq<Message>, ghost bodies: ValueId -> nat)
      requires keeper == map[] && AllKnown(bodies, messages)
      modifies this
      ensures keeper == After(messages)
    {
      for i := 0 to |messages|
        invariant keeper == After(messages[..i])
      {
        RunKeepsInv(bodies, messages[..i]);
        assert NoneEmpty() by {
          forall k, e | k in keeper && e in keeper[k] ensures !e.Empty? {
            assert EntryOk(bodies, k, e);
          }
        }
        assert messages[..i + 1][..i] == messages[..i];
        match messages[i] {
          case GotProposal(p) => StoreProposal(p);
          case GotValue(v) => StoreValue(v);
        }
      }
      assert messages[..|messages|] == messages;
    }

    /** `full_proposal_at_round_and_value` */
    method FullProposalAt(height: Height, round: Round, id: ValueId, ghost bodies: ValueId -> nat)
      returns (r: Option<Entry>)
      requires Shape(bodies, keeper)
      ensures var e := Slot(keeper, (height, round), id);
        r == if e.Some? && e.value.Full? then e else None
    {
      var k := (height, round);
      if k !in keeper || keeper[k] == [] {
        return None;
      }
      var es := keeper[k];
      FoundIsStored(es, id);
      for i := 0 to |es|
        invariant forall j :: 0 <= j < i ==> !(es[j].Full? && EntryId(es[j]) == Some(id))
      {
        assert EntryOk(bodies, k, es[i]);
        if es[i].Full? && IdOf(es[i].proposal) == id {
          assert EntryId(Find(es, id).value) == EntryId(es[i]);
          return Some(es[i]);
        }
      }
      return None;
    }
  }
}
