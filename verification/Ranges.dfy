/**
  Inclusive ranges of heights: searching for a free window among ranges, and cutting
  heights out of them.
*/
module Ranges {
  import opened Types

  /** `start..=end`; empty when `end < start`. */
  datatype HeightRange = HeightRange(start: Height, end: Height)

  predicate Contains(r: HeightRange, h: Height) {
    r.start <= h <= r.end
  }

  predicate Covered(rs: seq<HeightRange>, h: Height) {
    exists r :: r in rs && Contains(r, h)
  }

  // ---- The free window ------------------------------------------------------

  /** The order ranges are sorted by: first start, then end. */
  predicate Before(r: HeightRange, q: HeightRange) {
    r.start < q.start || (r.start == q.start && r.end <= q.end)
  }

  predicate Sorted(rs: seq<HeightRange>) {
    forall i, j :: 0 <= i < j < |rs| ==> Before(rs[i], rs[j])
  }

  function Insert(r: HeightRange, rs: seq<HeightRange>): (s: seq<HeightRange>)
    requires Sorted(rs)
    ensures Sorted(s)
    ensures forall x :: x in s <==> x == r || x in rs
  {
    if rs == [] then [r]
    else if Before(r, rs[0]) then [r] + rs
    else
      assert rs == [rs[0]] + rs[1..];
      var rest := Insert(r, rs[1..]);
      assert forall x :: x in rs[1..] ==> Before(rs[0], x);
      assert forall i :: 0 <= i < |rest| ==> rest[i] in rest && Before(rs[0], rest[i]);
      [rs[0]] + rest
  }

  function Sort(rs: seq<HeightRange>): (s: seq<HeightRange>)
    ensures Sorted(s)
    ensures forall x :: x in s <==> x in rs
  {
    if rs == [] then []
    else
      assert rs == [rs[0]] + rs[1..];
      Insert(rs[0], Sort(rs[1..]))
  }

  /** The start of the first range at or after `a`, in a sorted list. */
  function NextStart(rs: seq<HeightRange>, a: Height): (s: Option<Height>)
    requires Sorted(rs)
    ensures s.None? ==> forall r :: r in rs ==> r.start < a
    ensures s.Some? ==> a <= s.value && (exists r :: r in rs && r.start == s.value)
                        && forall r :: r in rs ==> r.start < a || s.value <= r.start
  {
    if rs == [] then None
    else if rs[0].start >= a then Some(rs[0].start)
    else NextStart(rs[1..], a)
  }

  /**
    `compute_free_window`: the window starts at the least uncovered height after
    `exclusiveStart`, meets no range, and ends as late as the cap, the size and the next
    range allow. There is none exactly when the size is zero or every candidate is covered.
  */
  method ComputeFreeWindow(exclusiveStart: Height, cap: Height, size: nat, ranges: seq<HeightRange>)
    returns (window: Option<HeightRange>)
    ensures window.None? <==> size == 0 || forall h: Height :: exclusiveStart < h <= cap ==> Covered(ranges, h)
    ensures window.Some? ==>
              var a, b := window.value.start, window.value.end;
              && exclusiveStart < a <= b <= cap
              && (forall h: Height :: exclusiveStart < h < a ==> Covered(ranges, h))
              && (forall h: Height :: a <= h <= b ==> !Covered(ranges, h))
              && b - a + 1 <= size
              && (b == cap || b - a + 1 == size || exists r :: r in ranges && a <= r.start <= b + 1)
  {
    if size == 0 {
      return None;
    }
    var remaining := size - 1;
    var sorted := Sort(ranges);
    var a := exclusiveStart + 1;
    if a > cap {
      return None;
    }
    var i := 0;
    while i < |sorted|
      invariant 0 <= i <= |sorted|
      invariant exclusiveStart < a <= cap
      invariant forall h: Height :: exclusiveStart < h < a ==> Covered(ranges, h)
      invariant forall j :: 0 <= j < i ==> sorted[j].end < a
    {
      var r := sorted[i];
      assert r in sorted;
      if a < r.start {
        break;
      } else if a <= r.end {
        assert forall h: Height :: a <= h <= r.end ==> Contains(r, h);
        a := r.end + 1;
        if a > cap {
          return None;
        }
      }
      i := i + 1;
    }
    FreeAfterScan(sorted, i, a);
    var next := NextStart(sorted, a);
    var b := a;
    while remaining > 0
      invariant a <= b <= cap && remaining >= 0 && b - a + 1 + remaining == size
      invariant b > a ==> next.Some? ==> b < next.value
    {
      if b + 1 > cap || (next.Some? && b + 1 >= next.value) {
        break;
      }
      b, remaining := b + 1, remaining - 1;
    }
    forall h: Height | a <= h <= b ensures !Covered(ranges, h) {
      assert forall r :: r in ranges ==> r in sorted;
    }
    assert !Covered(ranges, a);
    return Some(HeightRange(a, b));
  }

  /** Where the scan stops, no range that starts at or before `a` reaches it. */
  lemma FreeAfterScan(sorted: seq<HeightRange>, i: nat, a: Height)
    requires Sorted(sorted) && i <= |sorted|
    requires forall j :: 0 <= j < i ==> sorted[j].end < a
    requires i < |sorted| ==> a < sorted[i].start
    ensures forall r :: r in sorted && r.start <= a ==> r.end < a
  {
  }

  // ---- Cutting --------------------------------------------------------------

  predicate Apart(r: HeightRange, q: HeightRange) {
    r.end < q.start || q.end < r.start
  }

  /** Non-empty ranges, pairwise disjoint. */
  predicate WellFormed(rs: seq<HeightRange>) {
    && (forall r :: r in rs ==> r.start <= r.end)
    && (forall i, j :: 0 <= i < j < |rs| ==> Apart(rs[i], rs[j]))
  }

  function FindRange(rs: seq<HeightRange>, h: Height): (i: Option<nat>)
    ensures i.None? <==> !Covered(rs, h)
    ensures i.Some? ==> i.value < |rs| && Contains(rs[i.value], h)
  {
    if rs == [] then None
    else if Contains(rs[0], h) then Some(0)
    else
      assert forall r :: r in rs <==> r == rs[0] || r in rs[1..];
      match FindRange(rs[1..], h)
      case Some(i) => Some(i + 1)
      case None => None
  }

  /** What is left of a range once a height in it is taken out. */
  function Pieces(r: HeightRange, h: Height): seq<HeightRange>
    requires Contains(r, h)
  {
    if r.start == r.end then []
    else if r.start == h then [HeightRange(r.start + 1, r.end)]
    else if r.end == h then [HeightRange(r.start, r.end - 1)]
    else [HeightRange(r.start, h - 1), HeightRange(h + 1, r.end)]
  }

  /** `excise_height`: `None` is the error, which leaves the ranges alone. */
  function Excise(rs: seq<HeightRange>, h: Height): Option<seq<HeightRange>> {
    match FindRange(rs, h)
    case None => None
    case Some(i) => Some(rs[..i] + rs[i + 1..] + Pieces(rs[i], h))
  }

  lemma PiecesSpec(r: HeightRange, h: Height)
    requires Contains(r, h)
    ensures WellFormed(Pieces(r, h))
    ensures forall q :: q in Pieces(r, h) ==> r.start <= q.start && q.end <= r.end
    ensures forall x: Height :: Covered(Pieces(r, h), x) <==> Contains(r, x) && x != h
  {
    forall x: Height | Contains(r, x) && x != h ensures Covered(Pieces(r, h), x) {
      if x < h {
        assert Contains(Pieces(r, h)[0], x);
      } else {
        assert Contains(Pieces(r, h)[|Pieces(r, h)| - 1], x);
      }
    }
  }

  lemma CoveredJoins(rs: seq<HeightRange>, qs: seq<HeightRange>, h: Height)
    ensures Covered(rs + qs, h) <==> Covered(rs, h) || Covered(qs, h)
  {
  }

  /** Joining two well formed lists with no height in common. */
  lemma WellFormedJoins(rs: seq<HeightRange>, qs: seq<HeightRange>)
    requires WellFormed(rs) && WellFormed(qs)
    requires forall r, q :: r in rs && q in qs ==> Apart(r, q)
    ensures WellFormed(rs + qs)
  {
  }

  lemma WellFormedWithout(rs: seq<HeightRange>, i: nat)
    requires WellFormed(rs) && i < |rs|
    ensures WellFormed(rs[..i] + rs[i + 1..])
    ensures forall r :: r in rs[..i] + rs[i + 1..] ==> Apart(r, rs[i])
  {
  }

  /**
    Cutting a height out of well formed ranges removes exactly that height and keeps them well
    formed; it fails exactly when no range has the height.
  */
  lemma ExciseRemovesExactly(rs: seq<HeightRange>, h: Height)
    requires WellFormed(rs)
    ensures Excise(rs, h).None? <==> !Covered(rs, h)
    ensures Excise(rs, h).Some? ==>
              && WellFormed(Excise(rs, h).value)
              && forall x: Height :: Covered(Excise(rs, h).value, x) <==> Covered(rs, x) && x != h
  {
    if Covered(rs, h) {
      var i := FindRange(rs, h).value;
      var rest, pieces := rs[..i] + rs[i + 1..], Pieces(rs[i], h);
      PiecesSpec(rs[i], h);
      WellFormedWithout(rs, i);
      WellFormedJoins(rest, pieces);
      assert rs == rs[..i] + [rs[i]] + rs[i + 1..];
      assert forall r :: r in rs <==> r in rest || r == rs[i];
      forall x: Height ensures Covered(rest + pieces, x) <==> Covered(rs, x) && x != h {
        CoveredJoins(rest, pieces, x);
        if Covered(rest, x) {
          var r :| r in rest && Contains(r, x);
          assert Apart(r, rs[i]);
        }
      }
    }
  }

  /** The ranges that reach beyond `h`. */
  function EndingAfter(rs: seq<HeightRange>, h: Height): (s: seq<HeightRange>)
    ensures forall r :: r in s <==> r in rs && r.end > h
  {
    if rs == [] then []
    else
      assert forall r :: r in rs <==> r == rs[0] || r in rs[1..];
      if rs[0].end > h then [rs[0]] + EndingAfter(rs[1..], h) else EndingAfter(rs[1..], h)
  }

  lemma {:induction false} EndingAfterWellFormed(rs: seq<HeightRange>, h: Height)
    requires WellFormed(rs)
    ensures WellFormed(EndingAfter(rs, h))
  {
    if rs != [] {
      assert forall i :: 0 <= i < |rs[1..]| ==> rs[1..][i] == rs[i + 1];
      EndingAfterWellFormed(rs[1..], h);
      forall q | q in rs[1..] ensures Apart(rs[0], q) {
        var j :| 0 <= j < |rs[1..]| && rs[1..][j] == q;
      }
      WellFormedJoins([rs[0]], EndingAfter(rs[1..], h));
    }
  }

  /** The heights one pending request keeps when everything up to `h` is pruned. */
  function PruneRanges(rs: seq<HeightRange>, h: Height): seq<HeightRange> {
    var cut := Excise(rs, h);
    EndingAfter(if cut.Some? then cut.value else rs, h)
  }

  /** Pruning up to `h` leaves exactly the heights above `h`. */
  lemma PruneKeepsExactlyAbove(rs: seq<HeightRange>, h: Height)
    requires WellFormed(rs)
    ensures WellFormed(PruneRanges(rs, h))
    ensures forall x: Height :: Covered(PruneRanges(rs, h), x) <==> Covered(rs, x) && x > h
  {
    ExciseRemovesExactly(rs, h);
    var cut := if Excise(rs, h).Some? then Excise(rs, h).value else rs;
    assert !Covered(cut, h);
    EndingAfterWellFormed(cut, h);
    forall x: Height ensures Covered(EndingAfter(cut, h), x) <==> Covered(cut, x) && x > h {
      if r :| r in EndingAfter(cut, h) && Contains(r, x) {
        assert !Contains(r, h);
        assert Covered(cut, x);
      }
      if x > h && Covered(cut, x) {
        var r :| r in cut && Contains(r, x);
        assert r in EndingAfter(cut, h);
      }
    }
  }
}
