/**
  Pairing proposals with the values they propose. Values are built or received apart from the
  proposals that carry their ids, in any order; a proposal that reuses a value from an earlier
  round (its POL round) is paired with the value received for that round.
*/
module FullProposals {
  import opened Types

  type Key = (Height, Round)

  datatype ProposedValue = ProposedValue(height: Height, round: Round, value: Value, validity: Validity)

  datatype Entry =
    | Full(value: Value, validity: Validity, proposal: SignedProposal)
    | ProposalOnly(proposal: SignedProposal)
    | ValueOnly(value: Value, validity: Validity)
    | Empty

  type Keeper = map<Key, seq<Entry>>

  function KeyOf(p: SignedProposal): Key {
    (p.message.height, p.message.round)
  }

  function KeyOfValue(v: ProposedValue): Key {
    (v.height, v.round)
  }

  function IdOf(p: SignedProposal): ValueId {
    p.message.value.id
  }

  /** The order of the keys: by height, then by round. */
  predicate AtOrAfter(k: Key, first: Key) {
    k.0 > first.0 || (k.0 == first.0 && k.1 >= first.1)
  }

  function EntryId(e: Entry): Option<ValueId> {
    match e
    case Full(v, _, _) => Some(v.id)
    case ProposalOnly(p) => Some(IdOf(p))
    case ValueOnly(v, _) => Some(v.id)
    case Empty => None
  }

  function Entries(keeper: Keeper, k: Key): seq<Entry> {
    if k in keeper then keeper[k] else []
  }

  // ---- What the operations compute ------------------------------------------

  /** The validity of the value with this id, if an entry has the value. */
  function ValidityOf(es: seq<Entry>, id: ValueId): Option<Validity> {
    if es == [] then None
    else match es[0]
      case Full(_, validity, p) => if IdOf(p) == id then Some(validity) else ValidityOf(es[1..], id)
      case ValueOnly(v, validity) => if v.id == id then Some(validity) else ValidityOf(es[1..], id)
      case _ => ValidityOf(es[1..], id)
  }

  /** `new_entry`: a proposal with a POL round is full at once if its value came in that round. */
  function NewEntry(keeper: Keeper, p: SignedProposal): Entry {
    if p.message.polRound == NIL_ROUND then ProposalOnly(p)
    else
      match ValidityOf(Entries(keeper, (p.message.height, p.message.polRound)), IdOf(p))
      case None => ProposalOnly(p)
      case Some(validity) => Full(p.message.value, validity, p)
  }

  /** Whether this entry settles where the proposal goes. */
  predicate Stops(e: Entry, p: SignedProposal) {
    match e
    case Full(_, _, q) => IdOf(q) == IdOf(p)
    case ProposalOnly(q) => IdOf(q) == IdOf(p)
    case ValueOnly(v, _) => v == p.message.value
    case Empty => false
  }

  function WithProposal(e: Entry, p: SignedProposal): Entry {
    if e.ValueOnly? then Full(e.value, e.validity, p) else e
  }

  function AddProposal(es: seq<Entry>, p: SignedProposal, added: Entry): seq<Entry> {
    if es == [] then [added]
    else if Stops(es[0], p) then [WithProposal(es[0], p)] + es[1..]
    else [es[0]] + AddProposal(es[1..], p, added)
  }

  function WithValue(e: Entry, v: ProposedValue): Entry {
    if e.ProposalOnly? then Full(v.value, v.validity, e.proposal) else e
  }

  predicate HasId(e: Entry, id: ValueId) {
    match e
    case Full(_, _, p) => IdOf(p) == id
    case ProposalOnly(p) => IdOf(p) == id
    case ValueOnly(v, _) => v.id == id
    case Empty => false
  }

  function AddValue(es: seq<Entry>, v: ProposedValue): seq<Entry> {
    if es == [] then [ValueOnly(v.value, v.validity)]
    else if HasId(es[0], v.value.id) then [WithValue(es[0], v)] + es[1..]
    else [es[0]] + AddValue(es[1..], v)
  }

  /** The proposals still waiting that this value completes, at its own round or as a POL round. */
  function FillOne(e: Entry, v: ProposedValue): Entry {
    if && e.ProposalOnly? && IdOf(e.proposal) == v.value.id
       && (e.proposal.message.round == v.round || e.proposal.message.polRound == v.round)
    then Full(v.value, v.validity, e.proposal)
    else e
  }

  function Fill(es: seq<Entry>, v: ProposedValue): seq<Entry> {
    seq(|es|, i requires 0 <= i < |es| => FillOne(es[i], v))
  }

  function AfterProposal(keeper: Keeper, p: SignedProposal): Keeper {
    keeper[KeyOf(p) := AddProposal(Entries(keeper, KeyOf(p)), p, NewEntry(keeper, p))]
  }

  function AtValueRound(keeper: Keeper, v: ProposedValue): Keeper {
    keeper[KeyOfValue(v) := AddValue(Entries(keeper, KeyOfValue(v)), v)]
  }

  function AtPolRound(keeper: Keeper, v: ProposedValue): Keeper {
    map k | k in keeper :: if AtOrAfter(k, KeyOfValue(v)) then Fill(keeper[k], v) else keeper[k]
  }

  function AfterValue(keeper: Keeper, v: ProposedValue): Keeper {
    AtPolRound(AtValueRound(keeper, v), v)
  }

  // ---- Entries looked up by id ----------------------------------------------

  /** What is kept for this id. */
  function Find(es: seq<Entry>, id: ValueId): Option<Entry> {
    if es == [] then None
    else if EntryId(es[0]) == Some(id) then Some(es[0])
    else Find(es[1..], id)
  }

  function Slot(keeper: Keeper, k: Key, id: ValueId): Option<Entry> {
    Find(Entries(keeper, k), id)
  }

  /** Value ids are injective: `bodies` gives the value behind each id. */
  predicate Known(bodies: ValueId -> nat, v: Value) {
    v.body == bodies(v.id)
  }

  /** A stored entry: not `Empty`, a proposal of this height and round, and the value the proposal is for. */
  predicate EntryOk(bodies: ValueId -> nat, k: Key, e: Entry) {
    match e
    case Full(v, _, p) => KeyOf(p) == k && v == p.message.value && Known(bodies, v)
    case ProposalOnly(p) => KeyOf(p) == k && Known(bodies, p.message.value)
    case ValueOnly(v, _) => Known(bodies, v)
    case Empty => false
  }

  predicate EntriesOk(bodies: ValueId -> nat, k: Key, es: seq<Entry>) {
    forall e :: e in es ==> EntryOk(bodies, k, e)
  }

  /** At most one entry per value id. */
  predicate Distinct(es: seq<Entry>) {
    forall i, j :: 0 <= i < j < |es| ==> EntryId(es[i]) != EntryId(es[j])
  }

  lemma {:induction false} FoundIsStored(es: seq<Entry>, id: ValueId)
    ensures Find(es, id).Some? ==> Find(es, id).value in es && EntryId(Find(es, id).value) == Some(id)
    ensures Find(es, id).None? <==> forall e :: e in es ==> EntryId(e) != Some(id)
  {
    if es != [] {
      FoundIsStored(es[1..], id);
      assert es == [es[0]] + es[1..];
    }
  }

  /** With one entry per id, the value looked up is that of the entry found. */
  lemma {:induction false} ValidityFound(bodies: ValueId -> nat, k: Key, es: seq<Entry>, id: ValueId)
    requires EntriesOk(bodies, k, es) && Distinct(es)
    ensures match Find(es, id)
      case None => ValidityOf(es, id) == None
      case Some(e) => ValidityOf(es, id) == if e.Full? || e.ValueOnly? then Some(e.validity) else None
  {
    if es != [] {
      assert EntryOk(bodies, k, es[0]);
      assert EntriesOk(bodies, k, es[1..]) && Distinct(es[1..]);
      ValidityFound(bodies, k, es[1..], id);
      if EntryId(es[0]) == Some(id) {
        FoundIsStored(es[1..], id);
      }
    }
  }

  /** What a proposal does to the entry kept for its id. */
  function ProposalSlot(e: Option<Entry>, p: SignedProposal, added: Entry): Entry {
    if e.None? then added else WithProposal(e.value, p)
  }

  lemma {:induction false} AddProposalSpec(bodies: ValueId -> nat, k: Key, es: seq<Entry>, p: SignedProposal,
                                           added: Entry)
    requires EntriesOk(bodies, k, es) && Distinct(es)
    requires KeyOf(p) == k && Known(bodies, p.message.value) && EntryOk(bodies, k, added)
             && EntryId(added) == Some(IdOf(p))
    ensures var es' := AddProposal(es, p, added);
      && EntriesOk(bodies, k, es') && Distinct(es')
      && (forall id :: Find(es', id) == if id == IdOf(p) then Some(ProposalSlot(Find(es, id), p, added))
                                         else Find(es, id))
  {
    if es != [] {
      var es' := AddProposal(es, p, added);
      assert EntryOk(bodies, k, es[0]);
      assert EntriesOk(bodies, k, es[1..]) && Distinct(es[1..]);
      if Stops(es[0], p) {
        assert es'[1..] == es[1..];
      } else {
        AddProposalSpec(bodies, k, es[1..], p, added);
        assert es'[1..] == AddProposal(es[1..], p, added);
        HeadStaysApart(es, AddProposal(es[1..], p, added), IdOf(p));
      }
    }
  }

  lemma HeadStaysApart(es: seq<Entry>, tail: seq<Entry>, id: ValueId)
    requires es != [] && Distinct(es) && Distinct(tail) && EntryId(es[0]).Some? && EntryId(es[0]) != Some(id)
    requires forall other :: other != id ==> Find(tail, other) == Find(es[1..], other)
    ensures Distinct([es[0]] + tail)
  {
    FoundIsStored(es[1..], EntryId(es[0]).value);
    FoundIsStored(tail, EntryId(es[0]).value);
  }

  function ValueSlot(e: Option<Entry>, v: ProposedValue): Entry {
    if e.None? then ValueOnly(v.value, v.validity) else WithValue(e.value, v)
  }

  lemma {:induction false} AddValueSpec(bodies: ValueId -> nat, k: Key, es: seq<Entry>, v: ProposedValue)
    requires EntriesOk(bodies, k, es) && Distinct(es) && Known(bodies, v.value)
    ensures var es' := AddValue(es, v);
      && EntriesOk(bodies, k, es') && Distinct(es')
      && (forall id :: Find(es', id) == if id == v.value.id then Some(ValueSlot(Find(es, id), v)) else Find(es, id))
  {
    if es != [] {
      var es' := AddValue(es, v);
      assert EntryOk(bodies, k, es[0]);
      assert EntriesOk(bodies, k, es[1..]) && Distinct(es[1..]);
      if HasId(es[0], v.value.id) {
        assert es'[1..] == es[1..];
      } else {
        AddValueSpec(bodies, k, es[1..], v);
        assert es'[1..] == AddValue(es[1..], v);
        HeadStaysApart(es, AddValue(es[1..], v), v.value.id);
      }
    }
  }

  lemma {:induction false} FillSpec(bodies: ValueId -> nat, k: Key, es: seq<Entry>, v: ProposedValue)
    requires EntriesOk(bodies, k, es) && Distinct(es) && Known(bodies, v.value)
    ensures EntriesOk(bodies, k, Fill(es, v)) && Distinct(Fill(es, v))
    ensures forall id :: Find(Fill(es, v), id) ==
              if Find(es, id).None? then None else Some(FillOne(Find(es, id).value, v))
  {
    assert forall i :: 0 <= i < |es| ==> EntryId(Fill(es, v)[i]) == EntryId(es[i]) by {
      forall i | 0 <= i < |es| ensures EntryId(FillOne(es[i], v)) == EntryId(es[i]) {
        assert EntryOk(bodies, k, es[i]);
      }
    }
    if es != [] {
      assert EntryOk(bodies, k, es[0]);
      assert EntriesOk(bodies, k, es[1..]) && Distinct(es[1..]);
      FillSpec(bodies, k, es[1..], v);
      assert Fill(es, v)[1..] == Fill(es[1..], v);
      assert Fill(es, v) == [FillOne(es[0], v)] + Fill(es[1..], v);
    }
  }

  // ---- Runs -----------------------------------------------------------------

  datatype Message = GotProposal(proposal: SignedProposal) | GotValue(value: ProposedValue)

  function Step(keeper: Keeper, m: Message): Keeper {
    match m
    case GotProposal(p) => AfterProposal(keeper, p)
    case GotValue(v) => AfterValue(keeper, v)
  }

  /** The keeper after these messages, in this order. */
  function After(messages: seq<Message>): Keeper {
    if messages == [] then map[] else Step(After(messages[..|messages| - 1]), messages[|messages| - 1])
  }

  /** The first proposal seen for this height, round and value. */
  function First(messages: seq<Message>, k: Key, id: ValueId): Option<SignedProposal> {
    if messages == [] then None
    else
      var m := messages[|messages| - 1];
      var earlier := First(messages[..|messages| - 1], k, id);
      if earlier.None? && m.GotProposal? && KeyOf(m.proposal) == k && IdOf(m.proposal) == id then Some(m.proposal)
      else earlier
  }

  predicate AllKnown(bodies: ValueId -> nat, messages: seq<Message>) {
    forall m :: m in messages ==> Known(bodies, if m.GotProposal? then m.proposal.message.value else m.value.value)
  }

  /** A value stored at the round of the proposal, or at its POL round. */
  predicate Completes(v: ProposedValue, p: SignedProposal) {
    && v.height == p.message.height && v.value.id == IdOf(p)
    && (v.round == p.message.round || (v.round == p.message.polRound && 0 <= p.message.polRound < p.message.round))
  }

  function ProposalIn(e: Option<Entry>): Option<SignedProposal> {
    if e.Some? && (e.value.Full? || e.value.ProposalOnly?) then Some(e.value.proposal) else None
  }

  predicate HasValue(e: Option<Entry>) {
    e.Some? && (e.value.Full? || e.value.ValueOnly?)
  }

  /** No key without entries, one entry per id, none of them `Empty`, each of its key. */
  predicate Shape(bodies: ValueId -> nat, keeper: Keeper) {
    forall k :: k in keeper ==> keeper[k] != [] && EntriesOk(bodies, k, keeper[k]) && Distinct(keeper[k])
  }

  /** Every value stored is kept at its round. */
  ghost predicate ValuesKept(messages: seq<Message>, keeper: Keeper) {
    forall v :: GotValue(v) in messages ==> HasValue(Slot(keeper, KeyOfValue(v), v.value.id))
  }

  /** Exactly the first proposals are kept. */
  ghost predicate FirstsKept(messages: seq<Message>, keeper: Keeper) {
    forall k: Key, id: ValueId :: ProposalIn(Slot(keeper, k, id)) == First(messages, k, id)
  }

  /** No proposal waits for a value that was stored. */
  ghost predicate NoneWaits(messages: seq<Message>, keeper: Keeper) {
    forall k: Key, v :: GotValue(v) in messages ==> !Waits(Slot(keeper, k, v.value.id), v)
  }

  predicate Waits(e: Option<Entry>, v: ProposedValue) {
    e.Some? && e.value.ProposalOnly? && Completes(v, e.value.proposal)
  }

  /** Every value kept was stored, with that validity. */
  ghost predicate Sourced(messages: seq<Message>, keeper: Keeper) {
    forall k: Key, id: ValueId :: HasSource(messages, k, Slot(keeper, k, id))
  }

  ghost predicate HasSource(messages: seq<Message>, k: Key, e: Option<Entry>) {
    && (HasValue(e) ==>
          exists v :: GotValue(v) in messages && v.value == e.value.value && v.validity == e.value.validity)
    && (e.Some? && e.value.ValueOnly? ==>
          GotValue(ProposedValue(k.0, k.1, e.value.value, e.value.validity)) in messages)
  }

  ghost predicate Inv(bodies: ValueId -> nat, messages: seq<Message>, keeper: Keeper) {
    && Shape(bodies, keeper)
    && ValuesKept(messages, keeper)
    && FirstsKept(messages, keeper)
    && NoneWaits(messages, keeper)
    && Sourced(messages, keeper)
  }

  lemma SlotOk(bodies: ValueId -> nat, keeper: Keeper, k: Key, id: ValueId)
    requires Shape(bodies, keeper)
    ensures Slot(keeper, k, id).Some? ==>
              EntryOk(bodies, k, Slot(keeper, k, id).value) && EntryId(Slot(keeper, k, id).value) == Some(id)
  {
    FoundIsStored(Entries(keeper, k), id);
  }

  // ---- One proposal more ----------------------------------------------------

  lemma NewEntrySpec(bodies: ValueId -> nat, keeper: Keeper, p: SignedProposal)
    requires Shape(bodies, keeper) && Known(bodies, p.message.value)
    ensures var e := NewEntry(keeper, p);
      && EntryOk(bodies, KeyOf(p), e) && EntryId(e) == Some(IdOf(p)) && ProposalIn(Some(e)) == Some(p)
      && (e.Full? <==>
            p.message.polRound != NIL_ROUND && HasValue(Slot(keeper, (p.message.height, p.message.polRound), IdOf(p))))
      && (e.Full? ==> e.validity == Slot(keeper, (p.message.height, p.message.polRound), IdOf(p)).value.validity)
  {
    var k := (p.message.height, p.message.polRound);
    ValidityFound(bodies, k, Entries(keeper, k), IdOf(p));
  }

  lemma SlotAfterProposal(bodies: ValueId -> nat, keeper: Keeper, p: SignedProposal)
    requires Shape(bodies, keeper) && Known(bodies, p.message.value)
    ensures Shape(bodies, AfterProposal(keeper, p))
    ensures forall k, id :: Slot(AfterProposal(keeper, p), k, id) ==
              if k == KeyOf(p) && id == IdOf(p) then Some(ProposalSlot(Slot(keeper, k, id), p, NewEntry(keeper, p)))
              else Slot(keeper, k, id)
  {
    NewEntrySpec(bodies, keeper, p);
    AddProposalSpec(bodies, KeyOf(p), Entries(keeper, KeyOf(p)), p, NewEntry(keeper, p));
  }

  /** What a proposal does to one slot: it is taken in if it is the first of its kind, and nothing is lost. */
  lemma ProposalAtSlot(bodies: ValueId -> nat, keeper: Keeper, p: SignedProposal, k: Key, id: ValueId)
    requires Shape(bodies, keeper) && Known(bodies, p.message.value)
    ensures var e, e' := Slot(keeper, k, id), Slot(AfterProposal(keeper, p), k, id);
      var pol := Slot(keeper, (p.message.height, p.message.polRound), IdOf(p));
      && (k != KeyOf(p) || id != IdOf(p) ==> e' == e)
      && (k == KeyOf(p) && id == IdOf(p) ==>
            && ProposalIn(e') == (if ProposalIn(e).Some? then ProposalIn(e) else Some(p))
            && (HasValue(e) ==>
                  HasValue(e') && e'.value.value == e.value.value && e'.value.validity == e.value.validity)
            && (e.None? && p.message.polRound != NIL_ROUND && HasValue(pol) ==> HasValue(e'))
            && (HasValue(e') && !HasValue(e) ==>
                  HasValue(pol) && e'.value.value == pol.value.value && e'.value.validity == pol.value.validity)
            && (e.Some? && e.value.ProposalOnly? ==> e' == e))
  {
    SlotAfterProposal(bodies, keeper, p);
    NewEntrySpec(bodies, keeper, p);
    SlotOk(bodies, keeper, k, id);
    SlotOk(bodies, keeper, (p.message.height, p.message.polRound), IdOf(p));
  }

  lemma ProposalLeavesNoneWaiting(bodies: ValueId -> nat, messages: seq<Message>, keeper: Keeper, p: SignedProposal,
                                  k: Key, v: ProposedValue)
    requires Inv(bodies, messages, keeper) && Known(bodies, p.message.value) && GotValue(v) in messages
    ensures !Waits(Slot(AfterProposal(keeper, p), k, v.value.id), v)
  {
    var e, e' := Slot(keeper, k, v.value.id), Slot(AfterProposal(keeper, p), k, v.value.id);
    ProposalAtSlot(bodies, keeper, p, k, v.value.id);
    SlotOk(bodies, keeper, k, v.value.id);
    assert !Waits(e, v);
    assert HasValue(Slot(keeper, KeyOfValue(v), v.value.id));
    if k == KeyOf(p) && v.value.id == IdOf(p) && e.None? {
      assert ProposalIn(e') == Some(p);
      assert Completes(v, p) ==> KeyOfValue(v) == k || KeyOfValue(v) == (p.message.height, p.message.polRound);
      assert Completes(v, p) ==> HasValue(e');
    }
  }

  lemma ProposalKeepsInv(bodies: ValueId -> nat, messages: seq<Message>, keeper: Keeper, p: SignedProposal)
    requires Inv(bodies, messages, keeper) && Known(bodies, p.message.value)
    ensures Inv(bodies, messages + [GotProposal(p)], AfterProposal(keeper, p))
  {
    var messages', keeper' := messages + [GotProposal(p)], AfterProposal(keeper, p);
    assert messages'[..|messages|] == messages;
    assert forall v :: GotValue(v) in messages' <==> GotValue(v) in messages;
    assert Shape(bodies, keeper') by {
      SlotAfterProposal(bodies, keeper, p);
    }
    forall v | GotValue(v) in messages' ensures HasValue(Slot(keeper', KeyOfValue(v), v.value.id)) {
      ProposalAtSlot(bodies, keeper, p, KeyOfValue(v), v.value.id);
    }
    forall k: Key, id: ValueId ensures ProposalIn(Slot(keeper', k, id)) == First(messages', k, id) {
      ProposalAtSlot(bodies, keeper, p, k, id);
    }
    forall k: Key, v | GotValue(v) in messages' ensures !Waits(Slot(keeper', k, v.value.id), v) {
      ProposalLeavesNoneWaiting(bodies, messages, keeper, p, k, v);
    }
    forall k: Key, id: ValueId ensures HasSource(messages', k, Slot(keeper', k, id)) {
      ProposalKeepsSource(bodies, messages, keeper, p, k, id);
      SourceGrows(messages, messages', k, Slot(keeper', k, id));
    }
  }

  lemma SourceGrows(messages: seq<Message>, messages': seq<Message>, k: Key, e: Option<Entry>)
    requires messages <= messages' && HasSource(messages, k, e)
    ensures HasSource(messages', k, e)
  {
  }

  lemma ProposalKeepsSource(bodies: ValueId -> nat, messages: seq<Message>, keeper: Keeper, p: SignedProposal, k: Key,
                            id: ValueId)
    requires Inv(bodies, messages, keeper) && Known(bodies, p.message.value)
    ensures HasSource(messages, k, Slot(AfterProposal(keeper, p), k, id))
  {
    var polKey := (p.message.height, p.message.polRound);
    ProposalAtSlot(bodies, keeper, p, k, id);
    assert HasSource(messages, k, Slot(keeper, k, id));
    assert HasSource(messages, polKey, Slot(keeper, polKey, IdOf(p)));
  }

  /**
    A value that completes a proposal already waiting: of its id, at its round or its POL round,
    and not at a later key.
  */
  predicate Fills(v: ProposedValue, p: SignedProposal) {
    && v.value.id == IdOf(p) && AtOrAfter(KeyOf(p), KeyOfValue(v))
    && (v.round == p.message.round || v.round == p.message.polRound)
  }

  // ---- One value more -------------------------------------------------------

  function SlotWithValue(k: Key, id: ValueId, e: Option<Entry>, v: ProposedValue): Option<Entry> {
    var e' := if k == KeyOfValue(v) && id == v.value.id then Some(ValueSlot(e, v)) else e;
    if e'.Some? && AtOrAfter(k, KeyOfValue(v)) then Some(FillOne(e'.value, v)) else e'
  }

  lemma SlotAfterValue(bodies: ValueId -> nat, keeper: Keeper, v: ProposedValue)
    requires Shape(bodies, keeper) && Known(bodies, v.value)
    ensures Shape(bodies, AfterValue(keeper, v))
    ensures forall k, id :: Slot(AfterValue(keeper, v), k, id) == SlotWithValue(k, id, Slot(keeper, k, id), v)
  {
    var middle := AtValueRound(keeper, v);
    AddValueSpec(bodies, KeyOfValue(v), Entries(keeper, KeyOfValue(v)), v);
    forall k | k in middle ensures
      && EntriesOk(bodies, k, Fill(middle[k], v)) && Distinct(Fill(middle[k], v))
      && forall id :: Find(Fill(middle[k], v), id) ==
           if Find(middle[k], id).None? then None else Some(FillOne(Find(middle[k], id).value, v))
    {
      FillSpec(bodies, k, middle[k], v);
    }
  }

  /** What a value does to one slot: it takes nothing away, and completes the proposal that waits for it. */
  lemma ValueAtSlot(bodies: ValueId -> nat, k: Key, id: ValueId, e: Option<Entry>, v: ProposedValue)
    requires e.Some? ==> EntryOk(bodies, k, e.value) && EntryId(e.value) == Some(id)
    ensures var e' := SlotWithValue(k, id, e, v);
      && ProposalIn(e') == ProposalIn(e)
      && (HasValue(e) ==> e' == e)
      && (k == KeyOfValue(v) && id == v.value.id ==> HasValue(e'))
      && !Waits(e', v)
      && (e'.Some? && e'.value.ProposalOnly? ==> e' == e)
      && (HasValue(e') ==> e' == e || (e'.value.value == v.value && e'.value.validity == v.validity))
      && (e'.Some? && e'.value.ValueOnly? ==> e' == e || k == KeyOfValue(v))
      && (e.Some? && e.value.ProposalOnly? ==> (e'.value.Full? <==> Fills(v, e.value.proposal)))
  {
  }

  lemma ValueAtEverySlot(bodies: ValueId -> nat, keeper: Keeper, v: ProposedValue, k: Key, id: ValueId)
    requires Shape(bodies, keeper) && Known(bodies, v.value)
    ensures var e, e' := Slot(keeper, k, id), Slot(AfterValue(keeper, v), k, id);
      && ProposalIn(e') == ProposalIn(e)
      && (HasValue(e) ==> e' == e)
      && (k == KeyOfValue(v) && id == v.value.id ==> HasValue(e'))
      && !Waits(e', v)
      && (e'.Some? && e'.value.ProposalOnly? ==> e' == e)
      && (HasValue(e') ==> e' == e || (e'.value.value == v.value && e'.value.validity == v.validity))
      && (e'.Some? && e'.value.ValueOnly? ==> e' == e || k == KeyOfValue(v))
      && (e.Some? && e.value.ProposalOnly? ==> (e'.value.Full? <==> Fills(v, e.value.proposal)))
  {
    SlotAfterValue(bodies, keeper, v);
    SlotOk(bodies, keeper, k, id);
    ValueAtSlot(bodies, k, id, Slot(keeper, k, id), v);
  }

  lemma ValueKeepsInv(bodies: ValueId -> nat, messages: seq<Message>, keeper: Keeper, v: ProposedValue)
    requires Inv(bodies, messages, keeper) && Known(bodies, v.value)
    ensures Inv(bodies, messages + [GotValue(v)], AfterValue(keeper, v))
  {
    var messages', keeper' := messages + [GotValue(v)], AfterValue(keeper, v);
    assert messages'[..|messages|] == messages;
    assert forall w :: GotValue(w) in messages' <==> GotValue(w) in messages || w == v;
    assert Shape(bodies, keeper') by {
      SlotAfterValue(bodies, keeper, v);
    }
    forall w | GotValue(w) in messages' ensures HasValue(Slot(keeper', KeyOfValue(w), w.value.id)) {
      ValueAtEverySlot(bodies, keeper, v, KeyOfValue(w), w.value.id);
    }
    forall k: Key, id: ValueId
      ensures ProposalIn(Slot(keeper', k, id)) == First(messages', k, id)
    {
      ValueAtEverySlot(bodies, keeper, v, k, id);
    }
    forall k: Key, w | GotValue(w) in messages' ensures !Waits(Slot(keeper', k, w.value.id), w) {
      ValueAtEverySlot(bodies, keeper, v, k, w.value.id);
      assert w != v ==> !Waits(Slot(keeper, k, w.value.id), w);
    }
    forall k: Key, id: ValueId ensures HasSource(messages', k, Slot(keeper', k, id)) {
      ValueAtEverySlot(bodies, keeper, v, k, id);
      assert HasSource(messages, k, Slot(keeper, k, id));
      assert GotValue(v) in messages';
    }
  }

  lemma {:induction false} RunKeepsInv(bodies: ValueId -> nat, messages: seq<Message>)
    requires AllKnown(bodies, messages)
    ensures Inv(bodies, messages, After(messages))
  {
    if messages != [] {
      var earlier, m := messages[..|messages| - 1], messages[|messages| - 1];
      RunKeepsInv(bodies, earlier);
      assert messages == earlier + [m];
      match m {
        case GotProposal(p) => ProposalKeepsInv(bodies, earlier, After(earlier), p);
        case GotValue(v) => ValueKeepsInv(bodies, earlier, After(earlier), v);
      }
    }
  }

  // ---- When a proposal is paired --------------------------------------------

  /** `messages[n]` is the first proposal for this height, round and value. */
  predicate IsFirst(messages: seq<Message>, n: nat, k: Key, id: ValueId)
    requires n < |messages|
  {
    && messages[n].GotProposal? && KeyOf(messages[n].proposal) == k && IdOf(messages[n].proposal) == id
    && First(messages[..n], k, id) == None
  }

  predicate Stores(m: Message, k: Key, id: ValueId) {
    m.GotValue? && KeyOfValue(m.value) == k && m.value.value.id == id
  }

  ghost predicate StoredIn(messages: seq<Message>, k: Key, id: ValueId) {
    exists i :: 0 <= i < |messages| && Stores(messages[i], k, id)
  }

  function PolKey(p: SignedProposal): Key {
    (p.message.height, p.message.polRound)
  }

  /**
    When the first proposal of its kind is paired with its value, told from the messages alone: a value
    came before it for its own round; or one that fills it came after; or, when it came, its POL round
    had the value, stored there or paired with the proposal of that round by then.
  */
  ghost predicate Paired(messages: seq<Message>, n: nat)
    requires n < |messages| && messages[n].GotProposal?
    decreases |messages|, 0
  {
    var p, earlier := messages[n].proposal, messages[..n];
    || StoredIn(earlier, KeyOf(p), IdOf(p))
    || FilledSince(messages, n, p)
    || (p.message.polRound != NIL_ROUND && HasValueByThen(earlier, PolKey(p), IdOf(p)))
  }

  /** A value for this key and id was stored, or the first proposal for it is paired. */
  ghost predicate HasValueByThen(messages: seq<Message>, k: Key, id: ValueId)
    decreases |messages|, 1
  {
    || StoredIn(messages, k, id)
    || exists m :: 0 <= m < |messages| && IsFirst(messages, m, k, id) && Paired(messages, m)
  }

  lemma {:induction false} FirstIsFirst(messages: seq<Message>, n: nat, k: Key, id: ValueId)
    requires n < |messages| && IsFirst(messages, n, k, id)
    ensures First(messages, k, id) == Some(messages[n].proposal)
    decreases |messages|
  {
    var last := |messages| - 1;
    if n < last {
      assert messages[..last][..n] == messages[..n];
      FirstIsFirst(messages[..last], n, k, id);
    }
  }

  lemma {:induction false} FirstHasIndex(messages: seq<Message>, k: Key, id: ValueId) returns (n: nat)
    requires First(messages, k, id).Some?
    ensures n < |messages| && IsFirst(messages, n, k, id)
  {
    var last := |messages| - 1;
    if First(messages[..last], k, id).Some? {
      n := FirstHasIndex(messages[..last], k, id);
      assert messages[..last][..n] == messages[..n];
    } else {
      n := last;
    }
  }

  lemma KnownPrefix(bodies: ValueId -> nat, messages: seq<Message>, n: nat)
    requires AllKnown(bodies, messages) && n <= |messages|
    ensures AllKnown(bodies, messages[..n])
  {
  }

  /** Without a proposal, a slot has a value exactly when one was stored at its key. */
  lemma ValueSlotIff(bodies: ValueId -> nat, messages: seq<Message>, k: Key, id: ValueId)
    requires AllKnown(bodies, messages)
    ensures var e := Slot(After(messages), k, id);
      && (StoredIn(messages, k, id) ==> HasValue(e))
      && (e.Some? && e.value.ValueOnly? ==> StoredIn(messages, k, id))
      && (First(messages, k, id) == None ==> e.None? || e.value.ValueOnly?)
  {
    RunKeepsInv(bodies, messages);
    var e := Slot(After(messages), k, id);
    SlotOk(bodies, After(messages), k, id);
    assert ProposalIn(e) == First(messages, k, id);
    if i :| 0 <= i < |messages| && Stores(messages[i], k, id) {
      assert messages[i] in messages && messages[i] == GotValue(messages[i].value);
    }
    if e.Some? && e.value.ValueOnly? {
      assert HasSource(messages, k, e);
      var m := GotValue(ProposedValue(k.0, k.1, e.value.value, e.value.validity));
      var i :| 0 <= i < |messages| && messages[i] == m;
      assert Stores(messages[i], k, id);
    }
  }

  /** What one more message does to the slot of a proposal that is there. */
  lemma SlotStep(bodies: ValueId -> nat, keeper: Keeper, m: Message, p: SignedProposal)
    requires Shape(bodies, keeper) && Known(bodies, if m.GotProposal? then m.proposal.message.value else m.value.value)
    requires Keeps(keeper, p)
    ensures Keeps(Step(keeper, m), p) && (IsFull(Step(keeper, m), p) <==> IsFull(keeper, p) || FillsBy(m, p))
  {
    SlotOk(bodies, keeper, KeyOf(p), IdOf(p));
    match m
    case GotProposal(q) => ProposalAtSlot(bodies, keeper, q, KeyOf(p), IdOf(p));
    case GotValue(v) => ValueAtEverySlot(bodies, keeper, v, KeyOf(p), IdOf(p));
  }

  /** The slot of a first proposal when it comes. */
  lemma SlotOnArrival(bodies: ValueId -> nat, messages: seq<Message>, p: SignedProposal)
    requires AllKnown(bodies, messages) && Known(bodies, p.message.value) && First(messages, KeyOf(p), IdOf(p)) == None
    ensures Keeps(AfterProposal(After(messages), p), p)
    ensures IsFull(AfterProposal(After(messages), p), p) <==>
            || StoredIn(messages, KeyOf(p), IdOf(p))
            || (p.message.polRound != NIL_ROUND && HasValue(Slot(After(messages), PolKey(p), IdOf(p))))
  {
    RunKeepsInv(bodies, messages);
    ValueSlotIff(bodies, messages, KeyOf(p), IdOf(p));
    SlotAfterProposal(bodies, After(messages), p);
    NewEntrySpec(bodies, After(messages), p);
  }

  /** From its arrival on, a proposal becomes full exactly by the values that fill it. */
  lemma {:induction false} SlotSinceArrival(bodies: ValueId -> nat, messages: seq<Message>, n: nat, p: SignedProposal)
    requires AllKnown(bodies, messages) && n < |messages| && messages[n] == GotProposal(p)
    requires First(messages[..n], KeyOf(p), IdOf(p)) == None
    ensures Keeps(After(messages), p)
    ensures IsFull(After(messages), p) <==> IsFull(After(messages[..n + 1]), p) || FilledSince(messages, n, p)
    decreases |messages|
  {
    var last := |messages| - 1;
    if n == last {
      assert messages[..n + 1] == messages;
      KnownPrefix(bodies, messages, n);
      assert messages[n] in messages;
      SlotOnArrival(bodies, messages[..n], p);
    } else {
      var earlier := messages[..last];
      KnownPrefix(bodies, messages, last);
      assert earlier[..n] == messages[..n] && earlier[..n + 1] == messages[..n + 1];
      SlotSinceArrival(bodies, earlier, n, p);
      RunKeepsInv(bodies, earlier);
      assert messages[last] in messages;
      SlotStep(bodies, After(earlier), messages[last], p);
      FilledSinceStep(messages, n, p);
    }
  }

  predicate Keeps(keeper: Keeper, p: SignedProposal) {
    ProposalIn(Slot(keeper, KeyOf(p), IdOf(p))) == Some(p)
  }

  predicate IsFull(keeper: Keeper, p: SignedProposal) {
    var e := Slot(keeper, KeyOf(p), IdOf(p));
    e.Some? && e.value.Full?
  }

  /** A value after the `n`-th message fills the proposal. */
  ghost predicate FilledSince(messages: seq<Message>, n: nat, p: SignedProposal) {
    exists i :: n < i < |messages| && FillsBy(messages[i], p)
  }

  predicate FillsBy(m: Message, p: SignedProposal) {
    m.GotValue? && Fills(m.value, p)
  }

  lemma FilledSinceStep(messages: seq<Message>, n: nat, p: SignedProposal)
    requires n < |messages| - 1
    ensures var last := |messages| - 1;
      FilledSince(messages, n, p) <==> FilledSince(messages[..last], n, p) || FillsBy(messages[last], p)
  {
    var last := |messages| - 1;
    if i :| n < i < last && FillsBy(messages[..last][i], p) {
      assert FillsBy(messages[i], p);
    }
    if i :| n < i < |messages| && FillsBy(messages[i], p) {
      assert i < last ==> FillsBy(messages[..last][i], p);
    }
  }

  /**
    Pairing, exactly: after any messages, in any order, the first proposal for its height, round and
    value is kept, and it is full if and only if `Paired` says so of the messages.
  */
  lemma {:induction false} PairedIff(bodies: ValueId -> nat, messages: seq<Message>, n: nat)
    requires AllKnown(bodies, messages) && n < |messages| && messages[n].GotProposal?
    requires var p := messages[n].proposal; IsFirst(messages, n, KeyOf(p), IdOf(p))
    ensures Keeps(After(messages), messages[n].proposal)
    ensures IsFull(After(messages), messages[n].proposal) <==> Paired(messages, n)
    decreases |messages|, 0
  {
    var p, earlier := messages[n].proposal, messages[..n];
    KnownPrefix(bodies, messages, n);
    assert messages[n] in messages;
    SlotSinceArrival(bodies, messages, n, p);
    assert messages[..n + 1][..n] == earlier;
    SlotOnArrival(bodies, earlier, p);
    ValueByThenIff(bodies, earlier, PolKey(p), IdOf(p));
  }

  /** A slot has a value exactly when the messages say so. */
  lemma {:induction false} ValueByThenIff(bodies: ValueId -> nat, messages: seq<Message>, k: Key, id: ValueId)
    requires AllKnown(bodies, messages)
    ensures HasValue(Slot(After(messages), k, id)) <==> HasValueByThen(messages, k, id)
    decreases |messages|, 1
  {
    ValueSlotIff(bodies, messages, k, id);
    RunKeepsInv(bodies, messages);
    var e := Slot(After(messages), k, id);
    assert ProposalIn(e) == First(messages, k, id);
    forall m | 0 <= m < |messages| && IsFirst(messages, m, k, id) ensures HasValue(e) <==> Paired(messages, m) {
      FirstIsFirst(messages, m, k, id);
      PairedIff(bodies, messages, m);
    }
    if e.Some? && e.value.Full? {
      var m := FirstHasIndex(messages, k, id);
    }
  }

  /**
    The order of arrival does not matter for values of the proposal's own round or POL round: whichever
    came first, the proposal is full. The value and validity it is paired with were stored.
  */
  lemma PairedInAnyOrder(bodies: ValueId -> nat, messages: seq<Message>, p: SignedProposal)
    requires AllKnown(bodies, messages) && First(messages, KeyOf(p), IdOf(p)) == Some(p)
    ensures var e := Slot(After(messages), KeyOf(p), IdOf(p));
      && ProposalIn(e) == Some(p)
      && ((exists v :: GotValue(v) in messages && Completes(v, p)) ==> e.value.Full?)
      && (e.value.Full? ==>
            exists v :: GotValue(v) in messages && v.value == p.message.value && v.validity == e.value.validity)
  {
    RunKeepsInv(bodies, messages);
    var keeper, k, id := After(messages), KeyOf(p), IdOf(p);
    var e := Slot(keeper, k, id);
    assert ProposalIn(e) == First(messages, k, id);
    SlotOk(bodies, keeper, k, id);
    if v :| GotValue(v) in messages && Completes(v, p) {
      assert !Waits(Slot(keeper, k, v.value.id), v);
    }
    assert HasSource(messages, k, e);
  }

  /** Over every run: one entry per height, round and value id, never `Empty`, and pairs of equal ids of that round. */
  lemma RunsKeepShape(bodies: ValueId -> nat, messages: seq<Message>, k: Key)
    requires AllKnown(bodies, messages) && k in After(messages)
    ensures var es := After(messages)[k];
      && Distinct(es)
      && forall e :: e in es ==> !e.Empty? && (e.Full? ==> KeyOf(e.proposal) == k && e.value.id == IdOf(e.proposal))
  {
    RunKeepsInv(bodies, messages);
    assert forall e :: e in After(messages)[k] ==> EntryOk(bodies, k, e);
  }

  // ---- Where the promise ends -----------------------------------------------

  lemma AfterOneMore(messages: seq<Message>, m: Message)
    ensures After(messages + [m]) == Step(After(messages), m)
  {
  }

  /** After one value there is one entry. */
  lemma AfterOneValue(v: ProposedValue)
    ensures After([GotValue(v)]) == map[KeyOfValue(v) := [ValueOnly(v.value, v.validity)]]
  {
    AfterOneMore([], GotValue(v));
    assert [] + [GotValue(v)] == [GotValue(v)];
    var first := [ValueOnly(v.value, v.validity)];
    assert AddValue([], v) == first;
    assert Fill(first, v) == first;
    assert AtPolRound(map[KeyOfValue(v) := first], v) == map[KeyOfValue(v) := first];
  }

  /** Were two values to share an id, a proposal for the one would not be paired with the other, and both are kept. */
  lemma CollidingIdsSplit(v: ProposedValue, p: SignedProposal)
    requires KeyOf(p) == KeyOfValue(v) && IdOf(p) == v.value.id && p.message.value != v.value
    ensures !Distinct(Entries(After([GotValue(v), GotProposal(p)]), KeyOf(p)))
  {
    AfterOneValue(v);
    AfterOneMore([GotValue(v)], GotProposal(p));
    assert [GotValue(v)] + [GotProposal(p)] == [GotValue(v), GotProposal(p)];
    var keeper, first := After([GotValue(v)]), ValueOnly(v.value, v.validity);
    assert [first][1..] == [] && !Stops(first, p);
    var es := AddProposal([first], p, NewEntry(keeper, p));
    assert AddProposal([], p, NewEntry(keeper, p)) == [NewEntry(keeper, p)];
    assert es == [first] + [NewEntry(keeper, p)];
    assert EntryId(es[0]) == EntryId(es[1]);
  }

  predicate Chained(v: ProposedValue, q: SignedProposal, p: SignedProposal) {
    && v.height == q.message.height == p.message.height && q.message.value == v.value == p.message.value
    && 0 <= v.round == q.message.polRound < q.message.round == p.message.polRound < p.message.round
  }

  /**
    Looking one POL round further back does depend on the order. With the value stored in a round,
    a proposal `q` that reuses it and a proposal `p` that reuses the value of `q`: `p` is full when it
    comes after `q`, and waits when it comes first.
  */
  lemma ChainedPolDependsOnOrder(v: ProposedValue, q: SignedProposal, p: SignedProposal)
    requires Chained(v, q, p)
    ensures Entries(After([GotValue(v), GotProposal(q), GotProposal(p)]), KeyOf(p)) ==
              [Full(p.message.value, v.validity, p)]
    ensures Entries(After([GotProposal(p), GotValue(v), GotProposal(q)]), KeyOf(p)) == [ProposalOnly(p)]
  {
    ChainInOrder(v, q, p);
    ChainReversed(v, q, p);
  }

  lemma ChainInOrder(v: ProposedValue, q: SignedProposal, p: SignedProposal)
    requires Chained(v, q, p)
    ensures Entries(After([GotValue(v), GotProposal(q), GotProposal(p)]), KeyOf(p)) ==
              [Full(p.message.value, v.validity, p)]
  {
    AfterOneValue(v);
    AfterOneMore([GotValue(v)], GotProposal(q));
    assert [GotValue(v)] + [GotProposal(q)] == [GotValue(v), GotProposal(q)];
    AfterOneMore([GotValue(v), GotProposal(q)], GotProposal(p));
    assert [GotValue(v), GotProposal(q)] + [GotProposal(p)] == [GotValue(v), GotProposal(q), GotProposal(p)];
    var keeper := After([GotValue(v), GotProposal(q)]);
    assert Entries(keeper, KeyOf(q)) == [Full(q.message.value, v.validity, q)];
    assert Entries(keeper, KeyOf(p)) == [];
  }

  lemma ChainReversed(v: ProposedValue, q: SignedProposal, p: SignedProposal)
    requires Chained(v, q, p)
    ensures Entries(After([GotProposal(p), GotValue(v), GotProposal(q)]), KeyOf(p)) == [ProposalOnly(p)]
  {
    AfterOneMore([], GotProposal(p));
    assert [] + [GotProposal(p)] == [GotProposal(p)];
    AfterOneMore([GotProposal(p)], GotValue(v));
    assert [GotProposal(p)] + [GotValue(v)] == [GotProposal(p), GotValue(v)];
    AfterOneMore([GotProposal(p), GotValue(v)], GotProposal(q));
    assert [GotProposal(p), GotValue(v)] + [GotProposal(q)] == [GotProposal(p), GotValue(v), GotProposal(q)];
    assert Fill([ProposalOnly(p)], v) == [ProposalOnly(p)];
  }
}
