/**
  Value sync: which heights are asked from which peers, and what happens to them when
  responses, timeouts, decisions and invalid values come in.
*/
module Sync {
  import opened Types
  import opened Ranges

  type RequestId = nat
  type Peer = nat

  /** Requests sent, and requests answered whose values consensus has yet to verify. */
  type Inflight = map<RequestId, (HeightRange, Peer)>
  type Pending = map<RequestId, (seq<HeightRange>, Peer)>

  datatype Status = Status(tip: Height, historyMin: Height)

  // ---- Heights held by requests ---------------------------------------------

  function HeightsOf(r: HeightRange): set<Height> {
    set h: Height | r.start <= h <= r.end && Contains(r, h)
  }

  function Heights(rs: seq<HeightRange>): set<Height> {
    set r, h | r in rs && h in HeightsOf(r) :: h
  }

  /** The ranges each request holds. */
  type Slots = map<RequestId, seq<HeightRange>>

  function SlotHeights(slots: Slots, ids: set<RequestId>): set<Height> {
    set id, h | id in ids && id in slots && h in Heights(slots[id]) :: h
  }

  function AllHeights(slots: Slots): set<Height> {
    SlotHeights(slots, slots.Keys)
  }

  predicate NoneShared(rs: seq<HeightRange>, qs: seq<HeightRange>) {
    Heights(rs) !! Heights(qs)
  }

  /** Non-empty ranges, disjoint within a request and between requests. */
  predicate SlotsOk(slots: Slots) {
    && (forall id :: id in slots ==> slots[id] != [] && WellFormed(slots[id]))
    && (forall id, id' :: id in slots && id' in slots && id != id' ==> NoneShared(slots[id], slots[id']))
  }

  lemma HeightsAreCovered(rs: seq<HeightRange>)
    ensures forall h: Height :: h in Heights(rs) <==> Covered(rs, h)
  {
    forall h: Height | Covered(rs, h) ensures h in Heights(rs) {
      var r :| r in rs && Contains(r, h);
      assert h in HeightsOf(r);
    }
  }

  lemma {:induction false} RangeSize(r: HeightRange)
    requires r.start <= r.end
    ensures |HeightsOf(r)| == r.end - r.start + 1
    decreases r.end - r.start
  {
    if r.start == r.end {
      assert HeightsOf(r) == {r.start};
    } else {
      RangeSize(HeightRange(r.start, r.end - 1));
      assert HeightsOf(r) == HeightsOf(HeightRange(r.start, r.end - 1)) + {r.end};
    }
  }

  lemma SetSizes<T>(a: set<T>, b: set<T>)
    requires a !! b
    ensures |a + b| == |a| + |b|
  {
  }

  lemma SubsetSize<T>(a: set<T>, b: set<T>)
    requires a <= b
    ensures |a| <= |b|
  {
    assert b == a + (b - a);
    SetSizes(a, b - a);
  }

  /** Requests that lose heights, or are dropped, stay in order and hold no more than before. */
  lemma ShrinkKeepsSlotsOk(slots: Slots, slots': Slots)
    requires SlotsOk(slots)
    requires slots'.Keys <= slots.Keys
    requires forall id :: id in slots' ==>
               slots'[id] != [] && WellFormed(slots'[id]) && Heights(slots'[id]) <= Heights(slots[id])
    ensures SlotsOk(slots') && |AllHeights(slots')| <= |AllHeights(slots)|
  {
    forall id, id' | id in slots' && id' in slots' && id != id' ensures NoneShared(slots'[id], slots'[id']) {
      assert NoneShared(slots[id], slots[id']);
    }
    assert AllHeights(slots') <= AllHeights(slots);
    SubsetSize(AllHeights(slots'), AllHeights(slots));
  }

  /** A new request adds its heights. */
  lemma AllHeightsAfterAdd(slots: Slots, id: RequestId, rs: seq<HeightRange>)
    requires id !in slots
    ensures AllHeights(slots[id := rs]) == AllHeights(slots) + Heights(rs)
  {
    var slots' := slots[id := rs];
    forall h | h in AllHeights(slots) ensures h in AllHeights(slots') {
      var k :| k in slots && h in Heights(slots[k]);
      assert h in Heights(slots'[k]);
    }
    forall h | h in Heights(rs) ensures h in AllHeights(slots') {
      assert h in Heights(slots'[id]);
    }
  }

  lemma AddKeepsDisjoint(slots: Slots, id: RequestId, r: HeightRange)
    requires SlotsOk(slots) && id !in slots && r.start <= r.end
    requires HeightsOf(r) !! AllHeights(slots)
    ensures SlotsOk(slots[id := [r]])
  {
  }

  /** A request for heights nobody holds. */
  lemma AddKeepsSlotsOk(slots: Slots, id: RequestId, r: HeightRange)
    requires SlotsOk(slots) && id !in slots && r.start <= r.end
    requires HeightsOf(r) !! AllHeights(slots)
    ensures SlotsOk(slots[id := [r]])
    ensures |AllHeights(slots[id := [r]])| == |AllHeights(slots)| + (r.end - r.start + 1)
  {
    AddKeepsDisjoint(slots, id, r);
    SingleRange(r);
    AllHeightsAfterAdd(slots, id, [r]);
    SetSizes(AllHeights(slots), HeightsOf(r));
    RangeSize(r);
  }

  lemma SingleRange(r: HeightRange)
    requires r.start <= r.end
    ensures WellFormed([r]) && Heights([r]) == HeightsOf(r)
  {
  }

  lemma HeightsPrefix(rs: seq<HeightRange>, i: nat)
    requires WellFormed(rs) && i < |rs|
    ensures Heights(rs[..i + 1]) == Heights(rs[..i]) + HeightsOf(rs[i])
    ensures Heights(rs[..i]) !! HeightsOf(rs[i])
  {
  }

  /** The sizes of the ranges of one request, added up. */
  method CountHeights(rs: seq<HeightRange>) returns (n: nat)
    requires WellFormed(rs)
    ensures n == |Heights(rs)|
  {
    n := 0;
    assert Heights([]) == {};
    for i := 0 to |rs|
      invariant n == |Heights(rs[..i])|
    {
      var r := rs[i];
      HeightsPrefix(rs, i);
      SetSizes(Heights(rs[..i]), HeightsOf(r));
      RangeSize(r);
      n := n + (r.end - r.start + 1);
    }
    assert rs[..|rs|] == rs;
  }

  // ---- Peers ----------------------------------------------------------------

  predicate HasWhole(s: Status, r: HeightRange) {
    s.historyMin <= r.start <= r.end <= s.tip
  }

  predicate HasPrefix(s: Status, r: HeightRange) {
    s.historyMin <= r.start <= s.tip
  }

  /** Some peer has the start of the range. */
  predicate Offered(peers: map<Peer, Status>, r: HeightRange) {
    exists p :: p in peers && HasPrefix(peers[p], r)
  }

  predicate OfferedWhole(peers: map<Peer, Status>, r: HeightRange) {
    exists p :: p in peers && HasWhole(peers[p], r)
  }

  /** `filter_peers_by_range`: peers with the whole range, or else with a prefix of it. */
  function PeersFor(peers: map<Peer, Status>, r: HeightRange): (found: map<Peer, HeightRange>)
    requires r.start <= r.end
    ensures forall p :: p in found ==>
              && p in peers && HasPrefix(peers[p], r)
              && found[p].start == r.start <= found[p].end <= r.end
              && found[p].end <= peers[p].tip
    ensures found == map[] <==> !Offered(peers, r)
    ensures OfferedWhole(peers, r) ==> forall p :: p in found ==> HasWhole(peers[p], r)
  {
    var whole := map p | p in peers && HasWhole(peers[p], r) :: r;
    if whole != map[] then whole
    else
      assert forall p :: p in peers ==> p !in whole;
      var found := map p | p in peers && HasPrefix(peers[p], r) :: HeightRange(r.start, peers[p].tip);
      assert found == map[] ==> forall p :: p in peers ==> p !in found;
      found
  }

  predicate IsMaxTip(peers: map<Peer, Status>, top: Height) {
    && (forall p :: p in peers ==> peers[p].tip <= top)
    && exists p :: p in peers && peers[p].tip == top
  }

  // ---- The state ------------------------------------------------------------

  /** Consensus is told to process `count` values from `start`, received from `peer` for request `id`. */
  datatype Notification = Notification(id: RequestId, peer: Peer, start: Height, count: nat)

  /** A response: the height of the first value, and the certificate height of each value. */
  datatype ValueResponse = ValueResponse(start: Height, certificateHeights: seq<Height>)

  datatype SyncInput =
    | Tick
    | GotStatus(peer: Peer, status: Status)
    | StartedHeight(height: Height)
    | Decided(height: Height)
    | GotResponse(id: RequestId, peer: Peer, response: Option<ValueResponse>)
    | TimedOut(id: RequestId, peer: Peer)
    | InvalidValue(peer: Peer, height: Height)
    | ProcessingError(peer: Peer, height: Height)

  /** The heights of a response: non-empty, and a prefix of the range asked for. */
  predicate IsPrefix(start: Height, count: nat, asked: HeightRange) {
    start == asked.start && 1 <= count && start + count - 1 <= asked.end
  }

  /** Consensus is notified at most once per request, by the peer asked, with a prefix of what was asked. */
  predicate NotifiedOk(notified: seq<Notification>, issued: Inflight) {
    && (forall n :: n in notified ==>
          n.id in issued && n.peer == issued[n.id].1 && IsPrefix(n.start, n.count, issued[n.id].0))
    && (forall i, j :: 0 <= i < j < |notified| ==> notified[i].id != notified[j].id)
  }

  /** A request that may be made: above the tip, within the target and the batch size, to a peer that has its start. */
  predicate CanAsk(tip: Height, batchSize: nat, peers: map<Peer, Status>, upTo: Height, request: (HeightRange, Peer)) {
    var (r, peer) := request;
    && tip < r.start <= r.end <= upTo
    && r.end - r.start + 1 <= batchSize
    && peer in peers && HasPrefix(peers[peer], r)
  }

  /**
    The earliest window above the tip of heights nobody holds: it ends where the target, the batch
    size or the next height held ends it.
  */
  predicate IsWindow(tip: Height, upTo: Height, batchSize: nat, held: set<Height>, r: HeightRange) {
    && tip < r.start <= r.end <= upTo && r.end - r.start + 1 <= batchSize
    && (forall h: Height :: tip < h < r.start ==> h in held)
    && (forall h: Height :: r.start <= h <= r.end ==> h !in held)
    && (r.end == upTo || r.end - r.start + 1 == batchSize || r.end + 1 in held)
  }

  lemma OneWindow(tip: Height, upTo: Height, batchSize: nat, held: set<Height>, r: HeightRange, r': HeightRange)
    requires IsWindow(tip, upTo, batchSize, held, r) && IsWindow(tip, upTo, batchSize, held, r')
    ensures r == r'
  {
    assert r.start !in held && r'.start !in held;
    assert r.end < r'.end ==> r.end + 1 !in held;
    assert r'.end < r.end ==> r'.end + 1 !in held;
  }

  /**
    No request is left to make: every height up to the target is held, or no peer has the least
    that is not, or the window that starts with it exceeds the budget.
  */
  ghost predicate NothingLeft(tip: Height, upTo: Height, batchSize: nat, peers: map<Peer, Status>, held: set<Height>,
                              budget: nat) {
    || batchSize == 0
    || (forall h: Height :: tip < h <= upTo ==> h in held)
    || exists r :: IsWindow(tip, upTo, batchSize, held, r)
                && (!Offered(peers, r) || |held| + (r.end - r.start + 1) > budget)
  }

  lemma NothingLeftAt(tip: Height, upTo: Height, batchSize: nat, peers: map<Peer, Status>, held: set<Height>,
                      budget: nat, r: HeightRange)
    requires IsWindow(tip, upTo, batchSize, held, r)
    ensures NothingLeft(tip, upTo, batchSize, peers, held, budget) <==>
              !Offered(peers, r) || |held| + (r.end - r.start + 1) > budget
  {
    assert r.start !in held;
    if r' :| IsWindow(tip, upTo, batchSize, held, r')
             && (!Offered(peers, r') || |held| + (r'.end - r'.start + 1) > budget) {
      OneWindow(tip, upTo, batchSize, held, r, r');
    }
  }

  /** The requests in flight stay, and each new one may be made. */
  predicate Extends(tip: Height, batchSize: nat, peers: map<Peer, Status>, upTo: Height,
                    before: Inflight, after: Inflight) {
    && (forall id :: id in before ==> id in after && after[id] == before[id])
    && (forall id :: id in after && id !in before ==> CanAsk(tip, batchSize, peers, upTo, after[id]))
  }

  lemma ExtendsTwice(tip: Height, batchSize: nat, peers: map<Peer, Status>, upTo: Height,
                     a: Inflight, b: Inflight,
                     c: Inflight)
    requires Extends(tip, batchSize, peers, upTo, a, b) && Extends(tip, batchSize, peers, upTo, b, c)
    ensures Extends(tip, batchSize, peers, upTo, a, c)
  {
  }

  function NotificationFor(id: RequestId, peer: Peer, response: ValueResponse): Notification {
    Notification(id, peer, response.start, |response.certificateHeights|)
  }

  predicate HeightsInOrder(response: ValueResponse) {
    forall i :: 0 <= i < |response.certificateHeights| ==> response.certificateHeights[i] == response.start + i
  }

  /** A response to a request for `asked`: a non-empty prefix of it, with the certificates in order. */
  predicate Answers(response: ValueResponse, asked: HeightRange) {
    IsPrefix(response.start, |response.certificateHeights|, asked) && HeightsInOrder(response)
  }

  /** The sanity checks on a response to a request for `asked`. */
  method CheckResponse(response: ValueResponse, asked: HeightRange) returns (ok: bool)
    ensures ok <==> Answers(response, asked)
  {
    var start, count := response.start, |response.certificateHeights|;
    var end := if count == 0 then start else start + count - 1;
    var rangeLen := end - start + 1;
    var current := start;
    for i := 0 to count
      invariant current == start + i
      invariant forall k :: 0 <= k < i ==> response.certificateHeights[k] == start + k
    {
      if response.certificateHeights[i] != current {
        return false;
      }
      current := current + 1;
    }
    return start == asked.start && start <= end && end <= asked.end && count == rangeLen;
  }

  function Emitted(notify: Option<Notification>): seq<Notification> {
    if notify.Some? then [notify.value] else []
  }

  lemma PrefixShrinks(r: HeightRange, asked: HeightRange)
    requires asked.start == r.start <= r.end <= asked.end
    ensures WellFormed([r]) && Heights([r]) <= Heights([asked])
  {
    SingleRange(r);
    SingleRange(asked);
  }

  // ---- Requests pending in consensus ----------------------------------------

  function PendingHeights(pending: Pending, id: RequestId): set<Height> {
    if id in pending then Heights(pending[id].0) else {}
  }

  predicate SamePeers(before: Pending, after: Pending) {
    forall id :: id in after ==> id in before && after[id].1 == before[id].1
  }

  /** `get_pending_consensus_request_id_by` */
  method FindPending(pending: Pending, height: Height) returns (found: Option<RequestId>)
    ensures found.Some? ==> found.value in pending && height in PendingHeights(pending, found.value)
    ensures found.None? ==> forall id :: height !in PendingHeights(pending, id)
  {
    var todo := pending.Keys;
    while todo != {}
      invariant todo <= pending.Keys
      invariant forall id :: id in pending && id !in todo ==> height !in PendingHeights(pending, id)
    {
      var id :| id in todo;
      HeightsAreCovered(pending[id].0);
      if Covered(pending[id].0, height) {
        return Some(id);
      }
      todo := todo - {id};
    }
    return None;
  }

  lemma ExciseSlot(rs: seq<HeightRange>, height: Height)
    requires WellFormed(rs) && height in Heights(rs)
    ensures Excise(rs, height).Some?
    ensures WellFormed(Excise(rs, height).value) && Heights(Excise(rs, height).value) == Heights(rs) - {height}
  {
    HeightsAreCovered(rs);
    ExciseRemovesExactly(rs, height);
    HeightsAreCovered(Excise(rs, height).value);
  }

  /** The pending requests once consensus has been notified: the values received wait to be verified. */
  function Received(pending: Pending, n: Notification): Pending {
    if n.count == 0 then pending
    else pending[n.id := ([HeightRange(n.start, n.start + n.count - 1)], n.peer)]
  }

  /** The pending requests once a height of one of them is excised. */
  function ExcisePending(pending: Pending, id: RequestId, height: Height): Pending
    requires id in pending
  {
    var cut := Excise(pending[id].0, height);
    if cut.None? then pending
    else if cut.value == [] then pending - {id}
    else pending[id := (cut.value, pending[id].1)]
  }

  lemma ExcisePendingExact(pending: Pending, id: RequestId, height: Height)
    requires forall id :: id in pending ==> pending[id].0 != [] && WellFormed(pending[id].0)
    requires id in pending && height in PendingHeights(pending, id)
    ensures var after := ExcisePending(pending, id, height);
      && SamePeers(pending, after)
      && (forall k :: k in after ==> after[k].0 != [] && WellFormed(after[k].0))
      && forall k :: PendingHeights(after, k) ==
           if k == id then PendingHeights(pending, id) - {height} else PendingHeights(pending, k)
  {
    ExciseSlot(pending[id].0, height);
  }

  /** Removing a height from the one request that has it removes it from every request of that peer. */
  lemma GivenUp(before: Pending, after: Pending, height: Height, peer: Peer, found: Option<RequestId>)
    requires forall id, id' :: id in before && id' in before && id != id' ==> NoneShared(before[id].0, before[id'].0)
    requires found.Some? ==> found.value in before && height in PendingHeights(before, found.value)
    requires found.None? ==> forall id :: height !in PendingHeights(before, id)
    requires if found.None? || before[found.value].1 != peer then after == before
             else forall id :: PendingHeights(after, id) ==
                    if id == found.value then PendingHeights(before, id) - {height} else PendingHeights(before, id)
    ensures forall id :: PendingHeights(after, id) ==
              if id in before && before[id].1 == peer then PendingHeights(before, id) - {height}
              else PendingHeights(before, id)
  {
  }

  function PrunePending(pending: Pending, upTo: Height): Pending {
    map id | id in pending && PruneRanges(pending[id].0, upTo) != [] ::
      (PruneRanges(pending[id].0, upTo), pending[id].1)
  }

  lemma PruneSlot(rs: seq<HeightRange>, upTo: Height)
    requires WellFormed(rs)
    ensures WellFormed(PruneRanges(rs, upTo))
    ensures Heights(PruneRanges(rs, upTo)) == set h | h in Heights(rs) && h > upTo
  {
    PruneKeepsExactlyAbove(rs, upTo);
    HeightsAreCovered(rs);
    HeightsAreCovered(PruneRanges(rs, upTo));
  }

  /** Pruning leaves every request exactly its heights above `upTo`, and drops the requests left with none. */
  lemma PrunePendingExact(pending: Pending, upTo: Height)
    requires forall id :: id in pending ==> WellFormed(pending[id].0)
    ensures forall id :: PendingHeights(PrunePending(pending, upTo), id) ==
              set h | h in PendingHeights(pending, id) && h > upTo
    ensures forall id :: id in PrunePending(pending, upTo) ==> WellFormed(PrunePending(pending, upTo)[id].0)
  {
    forall id
      ensures PendingHeights(PrunePending(pending, upTo), id) == set h | h in PendingHeights(pending, id) && h > upTo
      ensures id in PrunePending(pending, upTo) ==> WellFormed(PrunePending(pending, upTo)[id].0)
    {
      if id in pending {
        PruneSlot(pending[id].0, upTo);
      }
    }
  }

  lemma SlotHeightsGrow(slots: Slots, done: set<RequestId>, id: RequestId)
    requires id in slots
    ensures SlotHeights(slots, done + {id}) == SlotHeights(slots, done) + Heights(slots[id])
  {
  }

  lemma SlotIsDisjoint(slots: Slots, done: set<RequestId>, id: RequestId)
    requires SlotsOk(slots) && done <= slots.Keys && id in slots && id !in done
    ensures SlotHeights(slots, done) !! Heights(slots[id])
  {
  }

  /** Counting one more request adds the number of its heights. */
  lemma SlotCountAdd(slots: Slots, done: set<RequestId>, id: RequestId)
    requires SlotsOk(slots) && done <= slots.Keys && id in slots && id !in done
    ensures |SlotHeights(slots, done + {id})| == |SlotHeights(slots, done)| + |Heights(slots[id])|
  {
    SlotHeightsGrow(slots, done, id);
    SlotIsDisjoint(slots, done, id);
    SetSizes(SlotHeights(slots, done), Heights(slots[id]));
  }

  // ---- The run invariant ----------------------------------------------------

  ghost function SlotsOf(inflight: Inflight, pending: Pending): Slots {
    map id | id in inflight.Keys + pending.Keys :: if id in inflight then [inflight[id].0] else pending[id].0
  }

  /** The ranges held are non-empty and pairwise disjoint and stay within the budget. */
  ghost predicate HoldsOk(inflight: Inflight, pending: Pending, budget: nat) {
    && inflight.Keys !! pending.Keys
    && SlotsOk(SlotsOf(inflight, pending))
    && |AllHeights(SlotsOf(inflight, pending))| <= budget
  }

  /** Request ids are fresh, the books agree with the requests held, and consensus was notified as it should be. */
  ghost predicate BooksOk(inflight: Inflight, pending: Pending, issued: Inflight, notified: seq<Notification>,
                          nextId: RequestId) {
    && (forall id :: id in issued ==> id < nextId)
    && inflight.Keys + pending.Keys <= issued.Keys
    && (forall id :: id in inflight ==> issued[id] == inflight[id])
    && NotifiedOk(notified, issued)
    && (forall n :: n in notified ==> n.id !in inflight)
  }

  lemma SendKeepsHolds(inflight: Inflight, pending: Pending, budget: nat, id: RequestId, request: (HeightRange, Peer))
    requires HoldsOk(inflight, pending, budget) && id !in inflight && id !in pending
    requires request.0.start <= request.0.end && HeightsOf(request.0) !! AllHeights(SlotsOf(inflight, pending))
    requires |AllHeights(SlotsOf(inflight, pending))| + (request.0.end - request.0.start + 1) <= budget
    ensures HoldsOk(inflight[id := request], pending, budget)
    ensures |AllHeights(SlotsOf(inflight[id := request], pending))| > |AllHeights(SlotsOf(inflight, pending))|
  {
    var slots := SlotsOf(inflight, pending);
    AddKeepsSlotsOk(slots, id, request.0);
    assert SlotsOf(inflight[id := request], pending) == slots[id := [request.0]];
  }

  lemma SendKeepsBooks(inflight: Inflight, pending: Pending, issued: Inflight, notified: seq<Notification>,
                       nextId: RequestId, request: (HeightRange, Peer))
    requires BooksOk(inflight, pending, issued, notified, nextId)
    ensures nextId !in inflight && nextId !in pending
    ensures BooksOk(inflight[nextId := request], pending, issued[nextId := request], notified, nextId + 1)
  {
  }

  lemma ReceiveKeepsBooks(inflight: Inflight, pending: Pending, issued: Inflight, notified: seq<Notification>,
                          nextId: RequestId, n: Notification, entry: (seq<HeightRange>, Peer))
    requires BooksOk(inflight, pending, issued, notified, nextId)
    requires n.id in inflight && n.peer == inflight[n.id].1 && IsPrefix(n.start, n.count, inflight[n.id].0)
    ensures BooksOk(inflight - {n.id}, pending[n.id := entry], issued, notified + [n], nextId)
  {
  }

  lemma TakeKeepsHolds(inflight: Inflight, pending: Pending, budget: nat, id: RequestId)
    requires HoldsOk(inflight, pending, budget)
    ensures HoldsOk(inflight - {id}, pending, budget)
  {
    ShrinkKeepsSlotsOk(SlotsOf(inflight, pending), SlotsOf(inflight - {id}, pending));
  }

  /** A response moves a request from in flight to pending, with a prefix of its heights. */
  lemma ReceiveKeepsHolds(inflight: Inflight, pending: Pending, budget: nat, id: RequestId, received: HeightRange,
                          peer: Peer)
    requires HoldsOk(inflight, pending, budget) && id in inflight
    requires inflight[id].0.start == received.start <= received.end <= inflight[id].0.end
    ensures HoldsOk(inflight - {id}, pending[id := ([received], peer)], budget)
  {
    PrefixShrinks(received, inflight[id].0);
    ShrinkKeepsSlotsOk(SlotsOf(inflight, pending), SlotsOf(inflight - {id}, pending[id := ([received], peer)]));
  }

  lemma PendingShrinkKeepsHolds(inflight: Inflight, pending: Pending, pending': Pending, budget: nat)
    requires HoldsOk(inflight, pending, budget) && pending'.Keys <= pending.Keys
    requires forall id :: id in pending' ==>
               pending'[id].0 != [] && WellFormed(pending'[id].0)
                 && PendingHeights(pending', id) <= PendingHeights(pending, id)
    ensures HoldsOk(inflight, pending', budget)
  {
    var slots, slots' := SlotsOf(inflight, pending), SlotsOf(inflight, pending');
    forall id | id in slots'
      ensures slots'[id] != [] && WellFormed(slots'[id]) && Heights(slots'[id]) <= Heights(slots[id])
    {
      if id in pending' {
        assert Heights(slots'[id]) == PendingHeights(pending', id);
      }
    }
    ShrinkKeepsSlotsOk(slots, slots');
  }

  lemma PendingApart(inflight: Inflight, pending: Pending, budget: nat)
    requires HoldsOk(inflight, pending, budget)
    ensures forall id :: id in pending ==> pending[id].0 != [] && WellFormed(pending[id].0)
    ensures forall id, id' :: id in pending && id' in pending && id != id' ==> NoneShared(pending[id].0, pending[id'].0)
  {
    var slots := SlotsOf(inflight, pending);
    assert forall id :: id in pending ==> id in slots && slots[id] == pending[id].0;
  }

  lemma ExciseFound(inflight: Inflight, pending: Pending, budget: nat, id: RequestId, height: Height)
    requires HoldsOk(inflight, pending, budget) && id in pending && height in PendingHeights(pending, id)
    ensures var after := ExcisePending(pending, id, height);
      && HoldsOk(inflight, after, budget) && SamePeers(pending, after) && after.Keys <= pending.Keys
      && forall k :: PendingHeights(after, k) ==
           if k in pending && pending[k].1 == pending[id].1 then PendingHeights(pending, k) - {height}
           else PendingHeights(pending, k)
  {
    PendingApart(inflight, pending, budget);
    ExcisePendingExact(pending, id, height);
    var after := ExcisePending(pending, id, height);
    PendingShrinkKeepsHolds(inflight, pending, after, budget);
    GivenUp(pending, after, height, pending[id].1, Some(id));
  }

  lemma NotFoundFromPeer(inflight: Inflight, pending: Pending, budget: nat, found: Option<RequestId>, height: Height,
                         peer: Peer)
    requires HoldsOk(inflight, pending, budget)
    requires found.Some? ==> found.value in pending && height in PendingHeights(pending, found.value)
    requires found.None? ==> forall id :: height !in PendingHeights(pending, id)
    requires found.None? || pending[found.value].1 != peer
    ensures forall id :: id in pending && pending[id].1 == peer ==> height !in PendingHeights(pending, id)
  {
    PendingApart(inflight, pending, budget);
    GivenUp(pending, pending, height, peer, found);
  }

  class SyncState {
    const batchSize: nat
    const parallelRequests: nat
    var started: bool
    var tip: Height
    var inflight: Inflight
    var pending: Pending
    var peers: map<Peer, Status>
    /** The network hands out request ids in order, so each is fresh. */
    var nextId: RequestId
    ghost var issued: Inflight
    ghost var notified: seq<Notification>

    ghost function Slots(): Slots
      reads this
    {
      SlotsOf(inflight, pending)
    }

    /** The run invariant. */
    ghost predicate Valid()
      reads this
    {
      && HoldsOk(inflight, pending, batchSize * parallelRequests)
      && BooksOk(inflight, pending, issued, notified, nextId)
    }

    constructor (batchSize: nat, parallelRequests: nat)
      ensures Valid()
      ensures this.batchSize == batchSize && this.parallelRequests == parallelRequests
      ensures inflight == map[] && pending == map[] && !started && notified == []
    {
      this.batchSize := batchSize;
      this.parallelRequests := parallelRequests;
      started, tip, nextId := false, 0, 0;
      inflight, pending, peers := map[], map[], map[];
      issued, notified := map[], [];
      new;
      assert AllHeights(Slots()) == {};
    }

    /** `current_number_of_heights` */
    method CurrentNumberOfHeights() returns (n: nat)
      requires Valid()
      ensures n == |AllHeights(Slots())|
    {
      n := CountRequests(inflight, pending, Slots());
    }

    /** The ranges in flight and pending, in one list. */
    method HeldRanges() returns (rs: seq<HeightRange>)
      requires Valid()
      ensures forall h: Height :: Covered(rs, h) <==> h in AllHeights(Slots())
      ensures forall r :: r in rs ==> r.start <= r.end
    {
      rs := CollectRanges(inflight, pending, Slots());
    }

    // ---- Requesting ---------------------------------------------------------

    /** A successful `SendValueRequest` for heights nobody holds. */
    method Send(request: (HeightRange, Peer))
      requires Valid() && request.0.start <= request.0.end && Fits(request.0)
      modifies this`inflight, this`nextId, this`issued
      ensures Valid()
      ensures inflight == old(inflight)[old(nextId) := request] && nextId == old(nextId) + 1
      ensures issued == old(issued)[old(nextId) := request]
      ensures |AllHeights(Slots())| > old(|AllHeights(Slots())|)
    {
      SendKeepsBooks(inflight, pending, issued, notified, nextId, request);
      SendKeepsHolds(inflight, pending, batchSize * parallelRequests, nextId, request);
      inflight := inflight[nextId := request];
      issued := issued[nextId := request];
      nextId := nextId + 1;
    }

    predicate Askable(request: (HeightRange, Peer), upTo: Height)
      reads this
    {
      CanAsk(tip, batchSize, peers, upTo, request)
    }

    ghost predicate Fits(r: HeightRange)
      reads this
    {
      && HeightsOf(r) !! AllHeights(Slots())
      && |AllHeights(Slots())| + (r.end - r.start + 1) <= batchSize * parallelRequests
    }

    ghost predicate IsNext(upTo: Height, r: HeightRange)
      reads this
    {
      IsWindow(tip, upTo, batchSize, AllHeights(Slots()), r)
    }

    ghost predicate NothingToAsk(upTo: Height)
      reads this
    {
      NothingLeft(tip, upTo, batchSize, peers, AllHeights(Slots()), batchSize * parallelRequests)
    }

    /** `find_range_of_heights_to_request` */
    method FindWindow(upTo: Height) returns (window: Option<HeightRange>)
      requires Valid()
      ensures window.None? ==> batchSize == 0 || forall h: Height :: tip < h <= upTo ==> h in AllHeights(Slots())
      ensures window.Some? ==> IsNext(upTo, window.value)
    {
      var held := HeldRanges();
      window := ComputeFreeWindow(tip, upTo, batchSize, held);
      if window.Some? {
        WindowIsNext(tip, upTo, batchSize, held, AllHeights(Slots()), window.value);
      }
    }

    /** The next request to make, if the heights, the peers and the budget allow one. */
    method NextRequest(upTo: Height) returns (request: Option<(HeightRange, Peer)>)
      requires Valid()
      ensures request.None? <==> NothingToAsk(upTo)
      ensures request.Some? ==>
                && Askable(request.value, upTo) && Fits(request.value.0) && IsNext(upTo, request.value.0)
                && (OfferedWhole(peers, request.value.0) ==> HasWhole(peers[request.value.1], request.value.0))
    {
      var window := FindWindow(upTo);
      if window.None? {
        return None;
      }
      var r := window.value;
      NothingLeftAt(tip, upTo, batchSize, peers, AllHeights(Slots()), batchSize * parallelRequests, r);
      var candidates := PeersFor(peers, r);
      if candidates == map[] {
        return None;
      }
      var peer :| peer in candidates;
      var current := CurrentNumberOfHeights();
      if current + (r.end - r.start + 1) > batchSize * parallelRequests {
        return None;
      }
      assert TrimValidated(r) == r;
      return Some((TrimValidated(r), peer));
    }

    /** The number of heights that may still be asked for. */
    ghost function Budget(): int
      reads this
    {
      batchSize * parallelRequests - |AllHeights(Slots())|
    }

    /** One turn of the loop of `request_values`: a request is found, and sent unless sending fails. */
    method RequestOnce(upTo: Height, fails: bool) returns (found: bool)
      requires Valid()
      modifies this`inflight, this`nextId, this`issued
      ensures Valid() && tip == old(tip) && peers == old(peers)
      ensures Extends(tip, batchSize, peers, upTo, old(inflight), inflight)
      ensures found <==> old(!NothingToAsk(upTo))
      ensures !found ==> inflight == old(inflight)
      ensures if found && !fails then 0 <= Budget() < old(Budget()) else Budget() == old(Budget())
    {
      var request := NextRequest(upTo);
      found := request.Some?;
      if found && !fails {
        Send(request.value);
      }
    }

    /** `max_parallel_requests` */
    function MaxParallel(): nat {
      if parallelRequests > 1 then parallelRequests else 1
    }

    /**
      The loop of `request_values`. Sending may fail, but not forever: `failures` bounds how often.
      The loop ends because every send shrinks the budget that is left, and not before nothing is
      left to ask.
    */
    method RequestAll(upTo: Height, failures: nat)
      requires Valid()
      modifies this`inflight, this`nextId, this`issued
      ensures Valid() && NothingToAsk(upTo)
      ensures Extends(tip, batchSize, peers, upTo, old(inflight), inflight)
    {
      var left := failures;
      var more := true;
      while more
        invariant Valid() && (more || NothingToAsk(upTo))
        invariant Extends(tip, batchSize, peers, upTo, old(inflight), inflight)
        decreases Budget(), left, more
      {
        ghost var before := inflight;
        var fails := *;
        fails := fails && left > 0;
        more := RequestOnce(upTo, fails);
        left := if fails then left - 1 else left;
        ExtendsTwice(tip, batchSize, peers, upTo, old(inflight), before, inflight);
      }
    }

    /** `request_values`: nothing while enough requests are in flight, otherwise all that can be asked. */
    method RequestValues(upTo: Height, failures: nat)
      requires Valid()
      modifies this`inflight, this`nextId, this`issued
      ensures Valid()
      ensures Extends(tip, batchSize, peers, upTo, old(inflight), inflight)
      ensures if |old(inflight)| >= MaxParallel() then inflight == old(inflight) else NothingToAsk(upTo)
    {
      if |inflight| < MaxParallel() {
        RequestAll(upTo, failures);
      }
    }

    /** `trim_validated_heights` */
    function TrimValidated(r: HeightRange): HeightRange
      reads this
    {
      HeightRange(if tip + 1 > r.start then tip + 1 else r.start, r.end)
    }

    method OnStatus(peer: Peer, status: Status, failures: nat)
      requires Valid()
      modifies this`peers, this`inflight, this`nextId, this`issued
      ensures Valid() && peers == old(peers)[peer := status]
      ensures !started || status.tip <= tip ==> inflight == old(inflight)
      ensures Extends(tip, batchSize, peers, status.tip, old(inflight), inflight)
      ensures started && status.tip > tip ==>
                if |old(inflight)| >= MaxParallel() then inflight == old(inflight) else NothingToAsk(status.tip)
    {
      peers := peers[peer := status];
      if started && status.tip > tip {
        RequestValues(status.tip, failures);
      }
    }

    /** The highest tip seen, on which a tick falls back when no status arrives. */
    method MaxPeerTip() returns (top: Height)
      ensures if peers == map[] then top == tip else IsMaxTip(peers, top)
    {
      var todo := peers.Keys;
      var best: Option<Peer> := None;
      while todo != {}
        invariant todo <= peers.Keys
        invariant best.Some? ==> best.value in peers
        invariant best.None? ==> todo == peers.Keys
        invariant forall p :: p in peers && p !in todo ==> best.Some? && peers[p].tip <= peers[best.value].tip
      {
        var p :| p in todo;
        if best.None? || peers[p].tip > peers[best.value].tip {
          best := Some(p);
        }
        todo := todo - {p};
      }
      top := if best.Some? then peers[best.value].tip else tip;
    }

    method OnTick(failures: nat) returns (ghost top: Height)
      requires Valid()
      modifies this`inflight, this`nextId, this`issued
      ensures Valid() && if peers == map[] then top == tip else IsMaxTip(peers, top)
      ensures top <= tip ==> inflight == old(inflight)
      ensures Extends(tip, batchSize, peers, top, old(inflight), inflight)
      ensures top > tip ==>
                if |old(inflight)| >= MaxParallel() then inflight == old(inflight) else NothingToAsk(top)
    {
      var highest := MaxPeerTip();
      top := highest;
      if tip < highest {
        RequestValues(highest, failures);
      }
    }

    // ---- Responses ----------------------------------------------------------

    /** `take_inflight_if_peer_matches` */
    method TakeInflight(id: RequestId, peer: Peer) returns (taken: Option<HeightRange>)
      requires Valid()
      modifies this`inflight
      ensures Valid()
      ensures if id in old(inflight) && old(inflight)[id].1 == peer
              then taken == Some(old(inflight)[id].0) && inflight == old(inflight) - {id}
              else taken == None && inflight == old(inflight)
    {
      if id !in inflight || inflight[id].1 != peer {
        return None;
      }
      taken := Some(inflight[id].0);
      TakeKeepsHolds(inflight, pending, batchSize * parallelRequests, id);
      inflight := inflight - {id};
    }

    /** Whether this response is passed on: asked from this peer, non-empty and a prefix of what was asked. */
    predicate Acceptable(id: RequestId, peer: Peer, response: Option<ValueResponse>)
      reads this
    {
      && id in inflight && inflight[id].1 == peer
      && response.Some?
      && Answers(response.value, inflight[id].0)
    }

    /** The `ValueResponse` input. */
    method OnValueResponse(id: RequestId, peer: Peer, response: Option<ValueResponse>)
      returns (notify: Option<Notification>)
      requires Valid()
      modifies this`inflight, this`pending, this`notified
      ensures Valid()
      ensures inflight == if id in old(inflight) && old(inflight)[id].1 == peer then old(inflight) - {id}
                           else old(inflight)
      ensures notify == if old(Acceptable(id, peer, response)) then Some(NotificationFor(id, peer, response.value))
                         else None
      ensures notified == old(notified) + Emitted(notify)
      ensures pending == if notify.None? then old(pending) else Received(old(pending), notify.value)
    {
      var taken := TakeInflight(id, peer);
      if taken.None? || response.None? {
        return None;
      }
      var ok := CheckResponse(response.value, taken.value);
      if !ok {
        return None;
      }
      var n := NotificationFor(id, peer, response.value);
      NotifyConsensus(n, taken.value, old(inflight));
      notify := Some(n);
    }

    /** The last part of handling a response: consensus is notified and the values become pending. */
    method NotifyConsensus(n: Notification, asked: HeightRange, ghost before: Inflight)
      requires n.id in before && before[n.id] == (asked, n.peer) && inflight == before - {n.id}
      requires HoldsOk(before, pending, batchSize * parallelRequests)
               && BooksOk(before, pending, issued, notified, nextId)
      requires IsPrefix(n.start, n.count, asked)
      modifies this`pending, this`notified
      ensures Valid() && notified == old(notified) + [n]
      ensures pending == Received(old(pending), n)
    {
      var actualEnd := asked.start + n.count - 1;
      var received := HeightRange(n.start, actualEnd);
      ghost var entry := ([received], n.peer);
      assert Received(pending, n) == pending[n.id := entry];
      ReceiveKeepsBooks(before, pending, issued, notified, nextId, n, entry);
      ReceiveKeepsHolds(before, pending, batchSize * parallelRequests, n.id, received, n.peer);
      notified := notified + [n];
      pending := pending[n.id := ([received], n.peer)];
    }

    /** The `SyncRequestTimedOut` input. */
    method OnTimedOut(id: RequestId, peer: Peer)
      requires Valid()
      modifies this`inflight
      ensures Valid()
      ensures inflight == if id in old(inflight) && old(inflight)[id].1 == peer then old(inflight) - {id}
                           else old(inflight)
    {
      var taken := TakeInflight(id, peer);
    }

    // ---- Verdicts and decisions ---------------------------------------------

    /** `on_invalid_value`: the height is given up, unless another peer sent its value. */
    method OnInvalidValue(peer: Peer, height: Height)
      requires Valid()
      modifies this`pending
      ensures Valid() && SamePeers(old(pending), pending)
      ensures forall id :: PendingHeights(pending, id) ==
                if id in old(pending) && old(pending)[id].1 == peer then PendingHeights(old(pending), id) - {height}
                else PendingHeights(old(pending), id)
    {
      var found := FindPending(pending, height);
      if found.None? || pending[found.value].1 != peer {
        NotFoundFromPeer(inflight, pending, batchSize * parallelRequests, found, height, peer);
        return;
      }
      ExciseFound(inflight, pending, batchSize * parallelRequests, found.value, height);
      pending := ExcisePending(pending, found.value, height);
    }

    /** `prune_pending_consensus_requests` */
    method Prune(upTo: Height)
      requires Valid()
      modifies this`pending
      ensures Valid() && SamePeers(old(pending), pending)
      ensures forall id :: PendingHeights(pending, id) == set h | h in PendingHeights(old(pending), id) && h > upTo
    {
      ghost var before := pending;
      PendingApart(inflight, pending, batchSize * parallelRequests);
      pending := PrunePending(pending, upTo);
      PrunePendingExact(before, upTo);
      PendingShrinkKeepsHolds(inflight, before, pending, batchSize * parallelRequests);
    }

    method OnStartedHeight(height: Height)
      requires Valid()
      modifies this`started, this`tip, this`pending
      ensures Valid() && started && tip == (if height == 0 then 0 else height - 1)
      ensures SamePeers(old(pending), pending)
      ensures forall id :: PendingHeights(pending, id) == set h | h in PendingHeights(old(pending), id) && h > height
    {
      started := true;
      Prune(height);
      tip := if height == 0 then 0 else height - 1;
    }

    method OnDecided(height: Height)
      requires Valid()
      modifies this`tip, this`pending
      ensures Valid() && tip == height
      ensures SamePeers(old(pending), pending)
      ensures forall id :: PendingHeights(pending, id) == set h | h in PendingHeights(old(pending), id) && h > height
    {
      tip := height;
      Prune(height);
    }

    // ---- Whole runs ---------------------------------------------------------

    /** `top` is the highest tip seen, and nothing up to it is left to ask. */
    ghost predicate CaughtUpWith(top: Height)
      reads this
    {
      && (if peers == map[] then top == tip else IsMaxTip(peers, top))
      && (top > tip ==> NothingToAsk(top))
    }

    ghost predicate TickIsDone()
      reads this
    {
      exists top :: CaughtUpWith(top)
    }

    method Handle(input: SyncInput, failures: nat) returns (notify: Option<Notification>)
      requires Valid()
      modifies this
      ensures Valid() && notified == old(notified) + Emitted(notify)
      ensures notify.Some? <==> input.GotResponse? && old(Acceptable(input.id, input.peer, input.response))
      ensures input.Tick? && |old(inflight)| < MaxParallel() ==> TickIsDone()
      ensures input.GotStatus? ==>
                && peers == old(peers)[input.peer := input.status]
                && (started && input.status.tip > tip && |old(inflight)| < MaxParallel() ==>
                      NothingToAsk(input.status.tip))
      ensures input.StartedHeight? ==> started && tip == (if input.height == 0 then 0 else input.height - 1)
      ensures input.Decided? ==> tip == input.height
      ensures input.StartedHeight? || input.Decided? ==>
                forall id :: PendingHeights(pending, id) == set h | h in PendingHeights(old(pending), id)
                  && h > input.height
      ensures input.GotResponse? || input.TimedOut? ==>
                inflight == if input.id in old(inflight) && old(inflight)[input.id].1 == input.peer
                            then old(inflight) - {input.id} else old(inflight)
      ensures input.InvalidValue? || input.ProcessingError? ==>
                forall id :: PendingHeights(pending, id) ==
                  if id in old(pending) && old(pending)[id].1 == input.peer
                  then PendingHeights(old(pending), id) - {input.height} else PendingHeights(old(pending), id)
    {
      notify := None;
      match input {
        case Tick =>
          ghost var top := OnTick(failures);
          assert |old(inflight)| < MaxParallel() ==> CaughtUpWith(top);
        case GotStatus(peer, status) => OnStatus(peer, status, failures);
        case StartedHeight(height) => OnStartedHeight(height);
        case Decided(height) => OnDecided(height);
        case GotResponse(id, peer, response) => notify := OnValueResponse(id, peer, response);
        case TimedOut(id, peer) => OnTimedOut(id, peer);
        case InvalidValue(peer, height) => OnInvalidValue(peer, height);
        case ProcessingError(peer, height) => OnInvalidValue(peer, height);
      }
    }

    /** Every sequence of inputs keeps the run invariant, and consensus hears of each request at most once. */
    method HandleAll(inputs: seq<SyncInput>, failures: nat) returns (notifications: seq<Notification>)
      requires Valid() && notified == []
      modifies this
      ensures Valid() && notifications == notified && NotifiedOk(notifications, issued)
    {
      notifications := [];
      for i := 0 to |inputs|
        invariant Valid() && notifications == notified
      {
        var notify := Handle(inputs[i], failures);
        notifications := notifications + Emitted(notify);
      }
    }
  }

  /** The window found among ranges is the earliest free one of the heights they cover. */
  lemma WindowIsNext(tip: Height, upTo: Height, batchSize: nat, ranges: seq<HeightRange>, held: set<Height>,
                     r: HeightRange)
    requires forall h: Height :: Covered(ranges, h) <==> h in held
    requires forall q :: q in ranges ==> q.start <= q.end
    requires tip < r.start <= r.end <= upTo && r.end - r.start + 1 <= batchSize
    requires forall h: Height :: tip < h < r.start ==> Covered(ranges, h)
    requires forall h: Height :: r.start <= h <= r.end ==> !Covered(ranges, h)
    requires r.end == upTo || r.end - r.start + 1 == batchSize
             || exists q :: q in ranges && r.start <= q.start <= r.end + 1
    ensures IsWindow(tip, upTo, batchSize, held, r)
  {
    if q :| q in ranges && r.start <= q.start <= r.end + 1 {
      assert Contains(q, q.start);
      assert Covered(ranges, q.start);
    }
  }

  /** The slots are those of the requests in flight and pending. */
  ghost predicate AreSlots(inflight: Inflight, pending: Pending,
                           slots: Slots) {
    && inflight.Keys !! pending.Keys
    && slots.Keys == inflight.Keys + pending.Keys
    && (forall id :: id in inflight ==> slots[id] == [inflight[id].0])
    && (forall id :: id in pending ==> slots[id] == pending[id].0)
  }

  method CountRequests(inflight: Inflight, pending: Pending, ghost slots: Slots) returns (n: nat)
    requires SlotsOk(slots) && AreSlots(inflight, pending, slots)
    ensures n == |AllHeights(slots)|
  {
    var asked := CountInflight(inflight, slots);
    var received := CountPending(pending, slots);
    KeysApart(slots, inflight.Keys, pending.Keys);
    n := asked + received;
  }

  /** One request fewer to count is one more counted. */
  lemma CountOne(slots: Slots, keys: set<RequestId>, todo: set<RequestId>, id: RequestId)
    requires SlotsOk(slots) && keys <= slots.Keys && todo <= keys && id in todo
    ensures |SlotHeights(slots, keys - (todo - {id}))| == |SlotHeights(slots, keys - todo)| + |Heights(slots[id])|
  {
    assert keys - (todo - {id}) == (keys - todo) + {id};
    SlotCountAdd(slots, keys - todo, id);
  }

  method CountInflight(inflight: Inflight, ghost slots: Slots) returns (n: nat)
    requires SlotsOk(slots) && inflight.Keys <= slots.Keys
    requires forall id :: id in inflight ==> slots[id] == [inflight[id].0]
    ensures n == |SlotHeights(slots, inflight.Keys)|
  {
    n := 0;
    var todo := inflight.Keys;
    assert SlotHeights(slots, inflight.Keys - todo) == {};
    while todo != {}
      invariant todo <= inflight.Keys
      invariant n == |SlotHeights(slots, inflight.Keys - todo)|
    {
      var id :| id in todo;
      var r := inflight[id].0;
      assert r in slots[id];
      CountOne(slots, inflight.Keys, todo, id);
      SingleRangeSize(r);
      n := n + (r.end - r.start + 1);
      todo := todo - {id};
    }
    assert inflight.Keys - todo == inflight.Keys;
  }

  method CountPending(pending: Pending, ghost slots: Slots) returns (n: nat)
    requires SlotsOk(slots) && pending.Keys <= slots.Keys
    requires forall id :: id in pending ==> slots[id] == pending[id].0
    ensures n == |SlotHeights(slots, pending.Keys)|
  {
    n := 0;
    var todo := pending.Keys;
    assert SlotHeights(slots, pending.Keys - todo) == {};
    while todo != {}
      invariant todo <= pending.Keys
      invariant n == |SlotHeights(slots, pending.Keys - todo)|
    {
      var id :| id in todo;
      CountOne(slots, pending.Keys, todo, id);
      var more := CountHeights(pending[id].0);
      n := n + more;
      todo := todo - {id};
    }
    assert pending.Keys - todo == pending.Keys;
  }

  lemma KeysApart(slots: Slots, ids: set<RequestId>, ids': set<RequestId>)
    requires SlotsOk(slots) && ids !! ids' && ids + ids' == slots.Keys
    ensures |AllHeights(slots)| == |SlotHeights(slots, ids)| + |SlotHeights(slots, ids')|
  {
    var a, b := SlotHeights(slots, ids), SlotHeights(slots, ids');
    assert a !! b by {
      forall h | h in a ensures h !in b {
        var k :| k in ids && h in Heights(slots[k]);
        SlotIsDisjoint(slots, ids', k);
      }
    }
    assert AllHeights(slots) == a + b;
    SetSizes(a, b);
  }

  method CollectRanges(inflight: Inflight, pending: Pending,
                       ghost slots: Slots) returns (rs: seq<HeightRange>)
    requires SlotsOk(slots) && AreSlots(inflight, pending, slots)
    ensures forall h: Height :: Covered(rs, h) <==> h in AllHeights(slots)
    ensures forall r :: r in rs ==> r.start <= r.end
  {
    rs := [];
    var todo := inflight.Keys + pending.Keys;
    ghost var done: set<RequestId> := {};
    while todo != {}
      invariant todo <= slots.Keys && done == slots.Keys - todo
      invariant Heights(rs) == SlotHeights(slots, done)
      invariant forall r :: r in rs ==> r.start <= r.end
    {
      var id :| id in todo;
      assert slots[id] != [] && WellFormed(slots[id]);
      var more := if id in inflight then [inflight[id].0] else pending[id].0;
      SlotHeightsGrow(slots, done, id);
      HeightsJoin(rs, more);
      rs := rs + more;
      todo, done := todo - {id}, done + {id};
    }
    assert done == slots.Keys;
    HeightsAreCovered(rs);
  }

  lemma SingleRangeSize(r: HeightRange)
    requires r.start <= r.end
    ensures |Heights([r])| == r.end - r.start + 1
  {
    SingleRange(r);
    RangeSize(r);
  }

  lemma HeightsJoin(rs: seq<HeightRange>, qs: seq<HeightRange>)
    ensures Heights(rs + qs) == Heights(rs) + Heights(qs)
  {
  }
}
