/**
  The write-ahead log: a header and a sequence of framed entries in one file. Frames are written
  at the end, read back one by one, and a torn frame at the end is cut off when the log is opened.
*/
module Wal {
  import opened Types

  type Byte = b: int | 0 <= b < 256
  type Bytes = seq<Byte>
  type U32 = n: int | 0 <= n < 0x1_0000_0000
  type U64 = n: int | 0 <= n <= U64_MAX

  const U64_MAX := 0xFFFF_FFFF_FFFF_FFFF
  const I64_MAX := 0x7FFF_FFFF_FFFF_FFFF
  const MAX_ENTRY_SIZE := 1024 * 1024 * 1024
  const HEADER_SIZE := 12
  const VERSION := 1

  // ---- Big-endian numbers ---------------------------------------------------

  function Power(width: nat): (p: nat)
    ensures p >= 1
  {
    if width == 0 then 1 else 256 * Power(width - 1)
  }

  function Encode(n: nat, width: nat): (s: Bytes)
    ensures |s| == width
  {
    if width == 0 then [] else Encode(n / 256, width - 1) + [n % 256]
  }

  function Decode(s: Bytes): (n: nat)
    ensures n < Power(|s|)
  {
    if s == [] then 0 else Decode(s[..|s| - 1]) * 256 + s[|s| - 1]
  }

  lemma {:induction false} DecodeEncode(n: nat, width: nat)
    requires n < Power(width)
    ensures Decode(Encode(n, width)) == n
  {
    if width > 0 {
      DecodeEncode(n / 256, width - 1);
      assert Encode(n, width)[..width - 1] == Encode(n / 256, width - 1);
    }
  }

  lemma {:induction false} EncodeDecode(s: Bytes)
    ensures Encode(Decode(s), |s|) == s
  {
    if s != [] {
      EncodeDecode(s[..|s| - 1]);
      assert s == s[..|s| - 1] + [s[|s| - 1]];
    }
  }

  lemma Powers()
    ensures Power(4) == 0x1_0000_0000 && Power(8) == U64_MAX + 1
  {
  }

  // ---- Frames ---------------------------------------------------------------

  /** What is on disk for one entry: compression flag, length, checksum and data. */
  datatype Frame = Frame(flag: Byte, crc: U32, data: Bytes) {
    function Size(): nat {
      13 + |data|
    }

    function Bytes(): (s: Bytes)
      ensures |s| == Size()
    {
      [flag] + Encode(|data|, 8) + Encode(crc, 4) + data
    }
  }

  function AllBytes(frames: seq<Frame>): Bytes {
    if frames == [] then [] else frames[0].Bytes() + AllBytes(frames[1..])
  }

  /** The complete frame at the start of `s`, if there is one. */
  function FirstFrame(s: Bytes): (f: Option<Frame>)
    ensures f.Some? ==> f.value.Size() <= |s|
  {
    if |s| < 9 then None
    else
      var length := Decode(s[1..9]);
      if |s| < length + 13 then None
      else
        Powers();
        Some(Frame(s[0], Decode(s[9..13]), s[13..13 + length]))
  }

  /** The complete frames at the start of `s`, one after the other. */
  function Scan(s: Bytes): seq<Frame>
    decreases |s|
  {
    var f := FirstFrame(s);
    if f.None? then [] else [f.value] + Scan(s[f.value.Size()..])
  }

  /** A frame is read back whatever follows it. */
  lemma FrameRoundTrip(f: Frame, rest: Bytes)
    requires |f.data| <= U64_MAX
    ensures FirstFrame(f.Bytes() + rest) == Some(f)
  {
    Powers();
    var s := f.Bytes() + rest;
    assert s[1..9] == Encode(|f.data|, 8);
    assert s[9..13] == Encode(f.crc, 4);
    assert s[13..13 + |f.data|] == f.data;
    DecodeEncode(|f.data|, 8);
    DecodeEncode(f.crc, 4);
  }

  /** Only the bytes of a frame are read as that frame. */
  lemma FirstFrameIsPrefix(s: Bytes)
    requires FirstFrame(s).Some?
    ensures var f := FirstFrame(s).value; f.Bytes() == s[..f.Size()] && |f.data| <= U64_MAX
  {
    Powers();
    var f := FirstFrame(s).value;
    EncodeDecode(s[1..9]);
    EncodeDecode(s[9..13]);
    assert s[..f.Size()] == [s[0]] + s[1..9] + s[9..13] + s[13..f.Size()];
  }

  lemma ScanStep(s: Bytes)
    requires FirstFrame(s).Some?
    ensures Scan(s) == [FirstFrame(s).value] + Scan(s[FirstFrame(s).value.Size()..])
  {
  }

  lemma ScanFirst(f: Frame, rest: Bytes)
    requires |f.data| <= U64_MAX
    ensures Scan(f.Bytes() + rest) == [f] + Scan(rest)
  {
    FrameRoundTrip(f, rest);
    assert (f.Bytes() + rest)[f.Size()..] == rest;
  }

  /** Scanning undoes writing, and goes on with what follows. */
  lemma {:induction false} ScanThrough(frames: seq<Frame>, rest: Bytes)
    requires forall f :: f in frames ==> |f.data| <= U64_MAX
    ensures Scan(AllBytes(frames) + rest) == frames + Scan(rest)
  {
    if frames == [] {
      assert AllBytes(frames) + rest == rest;
    } else {
      var tail := AllBytes(frames[1..]) + rest;
      assert AllBytes(frames) + rest == frames[0].Bytes() + tail;
      ScanFirst(frames[0], tail);
      ScanThrough(frames[1..], rest);
      FirstAndRest(frames, Scan(rest));
    }
  }

  lemma FirstAndRest(a: seq<Frame>, b: seq<Frame>)
    requires a != []
    ensures [a[0]] + (a[1..] + b) == a + b
  {
  }

  /** What follows the last frame does not matter unless it is a frame. */
  lemma ScanAllBytes(frames: seq<Frame>, rest: Bytes)
    requires forall f :: f in frames ==> |f.data| <= U64_MAX
    requires FirstFrame(rest).None?
    ensures Scan(AllBytes(frames) + rest) == frames
  {
    ScanThrough(frames, rest);
  }

  /** Every byte string is the bytes of its frames, followed by something that does not start with one. */
  lemma {:induction false} ScanSplits(s: Bytes)
    returns (rest: Bytes)
    ensures s == AllBytes(Scan(s)) + rest && FirstFrame(rest).None?
    ensures forall f :: f in Scan(s) ==> |f.data| <= U64_MAX
    decreases |s|
  {
    var first := FirstFrame(s);
    if first.None? {
      rest := s;
    } else {
      var f := first.value;
      var tail := s[f.Size()..];
      FirstFrameIsPrefix(s);
      rest := ScanSplits(tail);
      assert Scan(s) == [f] + Scan(tail);
      AllBytesCons(f, Scan(tail));
      assert s == f.Bytes() + tail;
      Associative(f.Bytes(), AllBytes(Scan(tail)), rest);
    }
  }

  lemma AllBytesCons(f: Frame, frames: seq<Frame>)
    ensures AllBytes([f] + frames) == f.Bytes() + AllBytes(frames)
  {
  }

  lemma {:induction false} AllBytesJoin(a: seq<Frame>, b: seq<Frame>)
    ensures AllBytes(a + b) == AllBytes(a) + AllBytes(b)
  {
    if a == [] {
      assert a + b == b;
    } else {
      AllBytesJoin(a[1..], b);
      assert a + b == [a[0]] + (a[1..] + b);
      AllBytesCons(a[0], a[1..] + b);
      Associative(a[0].Bytes(), AllBytes(a[1..]), AllBytes(b));
    }
  }

  lemma Associative(x: Bytes, y: Bytes, z: Bytes)
    ensures x + (y + z) == x + y + z
  {
  }

  lemma TakeOfJoin(x: Bytes, y: Bytes, n: nat)
    requires n <= |x| + |y|
    ensures (x + y)[..n] == if n <= |x| then x[..n] else x + y[..n - |x|]
  {
  }

  lemma DropOfJoin(x: Bytes, y: Bytes, n: nat)
    requires |x| <= n <= |x| + |y|
    ensures (x + y)[n..] == y[n - |x|..]
  {
  }

  // ---- Cutting --------------------------------------------------------------

  /** How many frames lie wholly within the first `cut` bytes. */
  function WhollyBefore(frames: seq<Frame>, cut: nat): (m: nat)
    ensures m <= |frames|
  {
    if frames == [] || cut < frames[0].Size() then 0
    else 1 + WhollyBefore(frames[1..], cut - frames[0].Size())
  }

  lemma {:induction false} WhollyBeforeSpec(frames: seq<Frame>, cut: nat)
    ensures var m := WhollyBefore(frames, cut);
      |AllBytes(frames[..m])| <= cut && (m < |frames| ==> cut < |AllBytes(frames[..m + 1])|)
  {
    if frames != [] {
      var m := WhollyBefore(frames, cut);
      var f := frames[0];
      if cut < f.Size() {
        assert frames[..1] == [f];
        assert AllBytes([f]) == f.Bytes() + AllBytes([]);
      } else {
        WhollyBeforeSpec(frames[1..], cut - f.Size());
        assert frames[..m][1..] == frames[1..][..m - 1];
        if m < |frames| {
          assert frames[..m + 1][1..] == frames[1..][..m];
        }
      }
    }
  }

  /** A proper prefix of a frame does not start with a frame. */
  lemma TornFrame(f: Frame, n: nat)
    requires |f.data| <= U64_MAX && n < f.Size()
    ensures FirstFrame(f.Bytes()[..n]).None?
  {
    if n >= 9 {
      Powers();
      assert f.Bytes()[..n][1..9] == Encode(|f.data|, 8);
      DecodeEncode(|f.data|, 8);
    }
  }

  /** Cutting the frames anywhere leaves exactly the frames wholly before the cut. */
  lemma {:induction false} ScanCut(frames: seq<Frame>, cut: nat)
    requires forall f :: f in frames ==> |f.data| <= U64_MAX
    requires cut <= |AllBytes(frames)|
    ensures Scan(AllBytes(frames)[..cut]) == frames[..WhollyBefore(frames, cut)]
  {
    if frames != [] {
      var f, tail := frames[0], AllBytes(frames[1..]);
      if cut < f.Size() {
        TakeOfJoin(f.Bytes(), tail, cut);
        TornFrame(f, cut);
      } else {
        var rest := tail[..cut - f.Size()];
        TakeOfJoin(f.Bytes(), tail, cut);
        assert cut == f.Size() ==> f.Bytes()[..cut] == f.Bytes() + rest;
        assert AllBytes(frames)[..cut] == f.Bytes() + rest;
        ScanFirst(f, rest);
        ScanCut(frames[1..], cut - f.Size());
        assert frames[..WhollyBefore(frames, cut)] == [f] + frames[1..][..WhollyBefore(frames, cut) - 1];
      }
    }
  }

  // ---- Opening --------------------------------------------------------------

  function Header(sequence: U64): (s: Bytes)
    ensures |s| == HEADER_SIZE
  {
    Encode(VERSION, 4) + Encode(sequence, 8)
  }

  /** The file of a log with this sequence number and these frames. */
  function File(sequence: U64, frames: seq<Frame>): Bytes {
    Header(sequence) + AllBytes(frames)
  }

  predicate Seekable(frames: seq<Frame>) {
    forall f :: f in frames ==> |f.data| + 4 <= I64_MAX
  }

  /** A file opens when its header is whole, its version is known and no frame is too long to seek over. */
  predicate Opens(file: Bytes) {
    |file| >= HEADER_SIZE && Decode(file[..4]) == VERSION && Seekable(Scan(file[HEADER_SIZE..]))
  }

  /** The file after opening it: a new one if it was empty, and cut after its last whole frame otherwise. */
  function Reopened(file: Bytes): Option<Bytes> {
    if file == [] then Some(Header(0))
    else if Opens(file) then Some(file[..HEADER_SIZE] + AllBytes(Scan(file[HEADER_SIZE..])))
    else None
  }

  lemma HeaderRoundTrip(sequence: U64, rest: Bytes)
    ensures var file := Header(sequence) + rest;
      && Decode(file[..4]) == VERSION && Decode(file[4..12]) == sequence
      && file[..HEADER_SIZE] == Header(sequence) && file[HEADER_SIZE..] == rest
  {
    Powers();
    var file := Header(sequence) + rest;
    assert file[..4] == Encode(VERSION, 4) && file[4..12] == Encode(sequence, 8);
    DecodeEncode(VERSION, 4);
    DecodeEncode(sequence, 8);
  }

  /** A file that opens is the file of some log, followed by what opening cuts off. */
  lemma ReopenedIsFile(file: Bytes)
    requires file != [] && Opens(file)
    ensures Decode(file[4..12]) <= U64_MAX
    ensures Reopened(file) == Some(File(Decode(file[4..12]), Scan(file[HEADER_SIZE..])))
    ensures Reopened(file).value <= file
  {
    Powers();
    EncodeDecode(file[..4]);
    EncodeDecode(file[4..12]);
    assert file[..HEADER_SIZE] == file[..4] + file[4..12];
    var rest := ScanSplits(file[HEADER_SIZE..]);
    assert file == file[..HEADER_SIZE] + file[HEADER_SIZE..];
  }

  lemma FileAppend(sequence: U64, frames: seq<Frame>, f: Frame)
    ensures File(sequence, frames) + f.Bytes() == File(sequence, frames + [f])
  {
    AllBytesJoin(frames, [f]);
    AllBytesCons(f, []);
    assert AllBytes([f]) == f.Bytes();
  }

  /** A log with a torn end reopens without it. */
  lemma ReopenTorn(sequence: U64, frames: seq<Frame>, rest: Bytes)
    requires Seekable(frames) && FirstFrame(rest).None?
    ensures Reopened(File(sequence, frames) + rest) == Some(File(sequence, frames))
  {
    var body := AllBytes(frames) + rest;
    assert File(sequence, frames) + rest == Header(sequence) + body;
    HeaderRoundTrip(sequence, body);
    ScanAllBytes(frames, rest);
  }

  /** Opening a file that was just opened changes nothing, whatever bytes it held at first. */
  lemma ReopenIsIdempotent(file: Bytes)
    requires Reopened(file).Some?
    ensures Reopened(Reopened(file).value) == Reopened(file)
  {
    if file == [] {
      assert Header(0) == File(0, []) + [];
      ReopenTorn(0, [], []);
    } else {
      ReopenedIsFile(file);
      var sequence, frames := Decode(file[4..12]), Scan(file[HEADER_SIZE..]);
      ReopenTorn(sequence, frames, []);
      assert File(sequence, frames) + [] == File(sequence, frames);
    }
  }

  /**
    Crash recovery: a log cut at any byte past its header reopens with exactly the frames wholly
    before the cut; cut within the header it does not open.
  */
  lemma CrashRecovery(sequence: U64, frames: seq<Frame>, cut: nat)
    requires Seekable(frames) && 0 < cut <= |File(sequence, frames)|
    ensures Reopened(File(sequence, frames)[..cut]) ==
            if cut < HEADER_SIZE then None
            else Some(File(sequence, frames[..WhollyBefore(frames, cut - HEADER_SIZE)]))
    ensures cut >= HEADER_SIZE ==>
              Scan(File(sequence, frames)[..cut][HEADER_SIZE..]) == frames[..WhollyBefore(frames, cut - HEADER_SIZE)]
  {
    if cut >= HEADER_SIZE {
      var body := AllBytes(frames)[..cut - HEADER_SIZE];
      assert File(sequence, frames)[..cut] == Header(sequence) + body;
      HeaderRoundTrip(sequence, body);
      ScanCut(frames, cut - HEADER_SIZE);
    }
  }

  /** An append that fails half way leaves nothing behind once the log is reopened, even if truncating failed too. */
  lemma TornAppendRecovers(sequence: U64, frames: seq<Frame>, f: Frame, written: nat)
    requires Seekable(frames) && |f.data| <= U64_MAX && written < f.Size()
    ensures Reopened(File(sequence, frames) + f.Bytes()[..written]) == Some(File(sequence, frames))
  {
    TornFrame(f, written);
    ReopenTorn(sequence, frames, f.Bytes()[..written]);
  }

  /**
    What a reopen finds when entries were written after a torn one: the frames before it, and
    whatever the rest reads as.
  */
  lemma ReopenAfterTorn(sequence: U64, frames: seq<Frame>, rest: Bytes)
    requires Seekable(frames)
    ensures Reopened(File(sequence, frames) + rest) ==
            if Seekable(Scan(rest)) then Some(File(sequence, frames + Scan(rest))) else None
    ensures Scan((File(sequence, frames) + rest)[HEADER_SIZE..]) == frames + Scan(rest)
  {
    var body := AllBytes(frames) + rest;
    assert File(sequence, frames) + rest == Header(sequence) + body;
    HeaderRoundTrip(sequence, body);
    ScanThrough(frames, rest);
    assert !Seekable(Scan(rest)) ==> !Seekable(frames + Scan(rest));
  }

  lemma BytesFirst(frames: seq<Frame>, s: Bytes)
    requires forall f :: f in frames ==> |f.data| <= U64_MAX
    requires AllBytes(frames) <= s
    ensures frames <= Scan(s)
  {
    var rest := s[|AllBytes(frames)|..];
    assert s == AllBytes(frames) + rest;
    ScanThrough(frames, rest);
  }

  lemma FramesFirst(frames: seq<Frame>, s: Bytes)
    requires frames <= Scan(s)
    ensures AllBytes(frames) <= s
  {
    var rest := ScanSplits(s);
    var found := Scan(s);
    assert found == frames + found[|frames|..];
    AllBytesJoin(frames, found[|frames|..]);
  }

  /** Scanning finds these frames first if and only if their bytes come first. */
  lemma ScanStartsWithIff(frames: seq<Frame>, s: Bytes)
    requires forall f :: f in frames ==> |f.data| <= U64_MAX
    ensures frames <= Scan(s) <==> AllBytes(frames) <= s
  {
    if AllBytes(frames) <= s {
      BytesFirst(frames, s);
    } else if frames <= Scan(s) {
      FramesFirst(frames, s);
    }
  }

  /** `frames` are found one after the other, from index `i` on. */
  predicate FoundAt(found: seq<Frame>, frames: seq<Frame>, i: nat) {
    i + |frames| <= |found| && found[i..i + |frames|] == frames
  }

  lemma FirstOutgrowsTorn(torn: Bytes, later: Bytes)
    requires FirstFrame(torn).None? && FirstFrame(torn + later).Some?
    ensures FirstFrame(torn + later).value.Size() > |torn|
  {
    if |torn| >= 9 {
      assert (torn + later)[1..9] == torn[1..9];
    }
  }

  lemma FoundTakes(found: seq<Frame>, frames: seq<Frame>, i: nat)
    requires FoundAt(found, frames, i)
    ensures |AllBytes(found)| >= |AllBytes(found[..i])| + |AllBytes(frames)|
    ensures i > 0 ==> |AllBytes(found[..i])| >= found[0].Size()
  {
    var before, after := found[..i], found[i + |frames|..];
    assert found == before + frames + after;
    AllBytesJoin(before + frames, after);
    AllBytesJoin(before, frames);
  }

  /** There is no room for a frame before the later ones: it would have to be longer than the torn bytes. */
  lemma FoundFirst(torn: Bytes, later: seq<Frame>, i: nat)
    requires FirstFrame(torn).None? && later != [] && FoundAt(Scan(torn + AllBytes(later)), later, i)
    ensures i == 0
  {
    var s := torn + AllBytes(later);
    var rest := ScanSplits(s);
    FoundTakes(Scan(s), later, i);
    if i > 0 {
      FirstOutgrowsTorn(torn, AllBytes(later));
    }
  }

  /**
    Entries written after torn bytes come back on reopening if and only if the file then starts,
    at the tear, with exactly their bytes. Torn bytes that hold no whole frame leave no other place
    for them.
  */
  lemma LaterComeBackIff(torn: Bytes, later: seq<Frame>)
    requires forall g :: g in later ==> |g.data| <= U64_MAX
    ensures var rest := torn + AllBytes(later);
      && (later <= Scan(rest) <==> AllBytes(later) <= rest)
      && (FirstFrame(torn).None? ==>
            ((exists i: nat :: FoundAt(Scan(rest), later, i)) <==> AllBytes(later) <= rest))
  {
    var rest := torn + AllBytes(later);
    ScanStartsWithIff(later, rest);
    if later <= Scan(rest) {
      assert FoundAt(Scan(rest), later, 0);
    }
    if FirstFrame(torn).None? && later != [] {
      forall i: nat | FoundAt(Scan(rest), later, i) ensures i == 0 {
        FoundFirst(torn, later, i);
      }
    }
  }

  /** One entry written after a torn one. */
  lemma OneComesBackIff(torn: Bytes, g: Frame)
    requires FirstFrame(torn).None? && |g.data| <= U64_MAX
    ensures g in Scan(torn + g.Bytes()) <==> g.Bytes() <= torn + g.Bytes()
  {
    AllBytesCons(g, []);
    assert [g] + [] == [g] && AllBytes([g]) == g.Bytes();
    LaterComeBackIff(torn, [g]);
    var found := Scan(torn + g.Bytes());
    if g in found {
      var i :| 0 <= i < |found| && found[i] == g;
      assert FoundAt(found, [g], i);
    }
  }

  lemma LengthBytes(f: Frame)
    ensures f.Bytes()[0] == f.flag && f.Bytes()[1..9] == Encode(|f.data|, 8)
  {
  }

  lemma SliceOfJoin(x: Bytes, n: nat, y: Bytes)
    requires 9 <= n <= |x|
    ensures (x[..n] + y)[0] == x[0] && (x[..n] + y)[1..9] == x[1..9]
  {
  }

  /** The length on disk is believed. */
  lemma LengthIsRead(f: Frame, n: nat, later: Bytes)
    requires |f.data| <= U64_MAX && 9 <= n < f.Size()
    ensures var first := FirstFrame(f.Bytes()[..n] + later);
      && (first.Some? <==> |later| >= f.Size() - n)
      && (first.Some? ==> first.value.Size() == f.Size() && first.value.flag == f.flag)
  {
    Powers();
    LengthBytes(f);
    SliceOfJoin(f.Bytes(), n, later);
    DecodeEncode(|f.data|, 8);
  }

  lemma FirstSpans(torn: Bytes, later: Bytes)
    requires FirstFrame(torn + later).Some? && FirstFrame(torn + later).value.Size() > |torn|
    ensures var first := FirstFrame(torn + later).value;
      && first.Bytes() == torn + later[..first.Size() - |torn|]
      && Scan(torn + later) == [first] + Scan(later[first.Size() - |torn|..])
  {
    var s, size := torn + later, FirstFrame(torn + later).value.Size();
    FirstFrameIsPrefix(s);
    ScanStep(s);
    TakeOfJoin(torn, later, size);
    DropOfJoin(torn, later, size);
  }

  /** A torn frame is completed with the bytes that follow it. */
  lemma TornTakes(f: Frame, n: nat, later: Bytes) returns (first: Frame)
    requires |f.data| <= U64_MAX && 9 <= n < f.Size() && f.Size() - n <= |later|
    ensures first.Size() == f.Size() && first.flag == f.flag
    ensures first.Bytes() == f.Bytes()[..n] + later[..f.Size() - n]
    ensures Scan(f.Bytes()[..n] + later) == [first] + Scan(later[f.Size() - n..])
  {
    LengthIsRead(f, n, later);
    first := FirstFrame(f.Bytes()[..n] + later).value;
    FirstSpans(f.Bytes()[..n], later);
  }

  /**
    A torn frame whose length is on disk swallows what is written after it: of the later frames a
    reopen finds nothing at all if and only if they are shorter than what the torn one lacks.
    Otherwise the first frame found is of the torn one's length and takes its missing bytes from
    them, and scanning goes on with the bytes it left over.
  */
  lemma TornSwallows(f: Frame, n: nat, later: seq<Frame>)
    requires |f.data| <= U64_MAX && 9 <= n < f.Size()
    ensures var rest := f.Bytes()[..n] + AllBytes(later);
      && (Scan(rest) == [] <==> |AllBytes(later)| < f.Size() - n)
      && (Scan(rest) != [] ==>
            && Scan(rest)[0].Size() == f.Size() && Scan(rest)[0].flag == f.flag
            && Scan(rest)[0].Bytes() == f.Bytes()[..n] + AllBytes(later)[..f.Size() - n]
            && Scan(rest)[1..] == Scan(AllBytes(later)[f.Size() - n..]))
  {
    var bytes := AllBytes(later);
    if |bytes| < f.Size() - n {
      LengthIsRead(f, n, bytes);
    } else {
      var first := TornTakes(f, n, bytes);
    }
  }

  /** What the torn frame lacks ends with the `k`-th later frame: those after it come back. */
  lemma TornEndsAtFrame(f: Frame, n: nat, later: seq<Frame>, k: nat)
    requires |f.data| <= U64_MAX && 9 <= n < f.Size() && forall g :: g in later ==> |g.data| <= U64_MAX
    requires k <= |later| && |AllBytes(later[..k])| == f.Size() - n
    ensures var found := Scan(f.Bytes()[..n] + AllBytes(later));
      found != [] && found[1..] == later[k..]
  {
    assert later == later[..k] + later[k..];
    AllBytesJoin(later[..k], later[k..]);
    assert AllBytes(later)[f.Size() - n..] == AllBytes(later[k..]) + [];
    TornSwallows(f, n, later);
    ScanAllBytes(later[k..], []);
  }

  /** The frames before `pos` are `done`, and none of them is too long to seek over. */
  ghost predicate ScannedTo(file: Bytes, pos: nat, done: seq<Frame>) {
    && HEADER_SIZE <= pos <= |file| && pos == HEADER_SIZE + |AllBytes(done)|
    && Scan(file[HEADER_SIZE..]) == done + Scan(file[pos..])
    && Seekable(done)
  }

  lemma NothingScanned(file: Bytes)
    requires |file| >= HEADER_SIZE
    ensures ScannedTo(file, HEADER_SIZE, [])
  {
  }

  /** No whole frame starts here: the length is missing, or more bytes are. */
  predicate NoFrameAt(file: Bytes, pos: nat) {
    pos <= |file| && (|file| - pos < 9 || |file| - pos < Decode(file[pos + 1..pos + 9]) + 13)
  }

  lemma NoFrameSpec(file: Bytes, pos: nat)
    requires pos <= |file|
    ensures NoFrameAt(file, pos) <==> FirstFrame(file[pos..]).None?
    ensures !NoFrameAt(file, pos) ==> FirstFrame(file[pos..]).value.Size() == Decode(file[pos + 1..pos + 9]) + 13
  {
    if |file| - pos >= 9 {
      assert file[pos..][1..9] == file[pos + 1..pos + 9];
    }
  }

  /** The next frame: it can be seeked over, or the file does not open. */
  lemma ScannedOneMore(file: Bytes, pos: nat, done: seq<Frame>) returns (f: Frame)
    requires ScannedTo(file, pos, done) && !NoFrameAt(file, pos)
    ensures var length := Decode(file[pos + 1..pos + 9]);
      if length + 4 <= I64_MAX then ScannedTo(file, pos + 13 + length, done + [f])
      else !Seekable(Scan(file[HEADER_SIZE..]))
  {
    NoFrameSpec(file, pos);
    f := FirstFrame(file[pos..]).value;
    var rest := Scan(file[pos + f.Size()..]);
    assert file[pos..][f.Size()..] == file[pos + f.Size()..];
    assert done + ([f] + rest) == done + [f] + rest;
    if |f.data| + 4 <= I64_MAX {
      AllBytesJoin(done, [f]);
      AllBytesCons(f, []);
    } else {
      assert f in done + [f] + rest;
    }
  }

  lemma AllScanned(file: Bytes, pos: nat, done: seq<Frame>)
    requires ScannedTo(file, pos, done) && NoFrameAt(file, pos)
    ensures Scan(file[HEADER_SIZE..]) == done
  {
    NoFrameSpec(file, pos);
    assert done + [] == done;
  }

  /** The scan of `open_with`: where the last whole frame ends, and how many there are. */
  method ScanFile(file: Bytes) returns (ok: bool, pos: nat, len: nat)
    requires HEADER_SIZE <= |file| <= U64_MAX
    ensures ok <==> Seekable(Scan(file[HEADER_SIZE..]))
    ensures ok ==> pos == HEADER_SIZE + |AllBytes(Scan(file[HEADER_SIZE..]))| && len == |Scan(file[HEADER_SIZE..])|
  {
    ok, pos, len := true, HEADER_SIZE, 0;
    ghost var done: seq<Frame> := [];
    NothingScanned(file);
    while |file| - pos >= 9
      invariant ScannedTo(file, pos, done) && len == |done|
    {
      var length := Decode(file[pos + 1..pos + 9]);
      if length + 13 > U64_MAX || |file| - pos < length + 13 {
        break;
      }
      ghost var f := ScannedOneMore(file, pos, done);
      if length + 4 > I64_MAX {
        return false, pos, len;
      }
      done := done + [f];
      pos := pos + 13 + length;
      len := len + 1;
    }
    AllScanned(file, pos, done);
  }

  /** Reading a file that is not empty: its sequence number, where it is to be cut, and how many entries it has. */
  method Recover(file: Bytes) returns (r: Option<(U64, nat, nat)>)
    requires 0 < |file| <= U64_MAX
    ensures r.Some? <==> Opens(file)
    ensures r.Some? ==>
              var frames := Scan(file[HEADER_SIZE..]);
              r.value == (Decode(file[4..12]), HEADER_SIZE + |AllBytes(frames)|, |frames|)
  {
    if |file| < 4 || Decode(file[..4]) != VERSION {
      return None;
    }
    if |file| < HEADER_SIZE {
      return None;
    }
    Powers();
    var sequence: U64 := Decode(file[4..12]);
    var ok, pos, len := ScanFile(file);
    if !ok {
      return None;
    }
    return Some((sequence, pos, len));
  }

  // ---- Reading --------------------------------------------------------------

  datatype ReadResult = Ok(data: Bytes) | Err

  predicate Readable(crc: Bytes -> U32, f: Frame) {
    |f.data| <= MAX_ENTRY_SIZE && f.flag == 0 && f.crc == crc(f.data)
  }

  function ReadOne(crc: Bytes -> U32, s: Bytes): ReadResult {
    var f := FirstFrame(s);
    if f.Some? && Readable(crc, f.value) then Ok(f.value.data) else Err
  }

  /** What iterating from the start of `s` returns. The first error ends the iteration. */
  function ReadFrom(crc: Bytes -> U32, s: Bytes): seq<ReadResult>
    decreases |s|
  {
    var r := ReadOne(crc, s);
    if r.Err? then [Err]
    else
      var size := FirstFrame(s).value.Size();
      if size < |s| then [r] + ReadFrom(crc, s[size..]) else [r]
  }

  lemma ReadFromStep(crc: Bytes -> U32, s: Bytes)
    ensures ReadOne(crc, s).Err? ==> ReadFrom(crc, s) == [Err]
    ensures ReadOne(crc, s).Ok? ==>
              var size := FirstFrame(s).value.Size();
              ReadFrom(crc, s) == [ReadOne(crc, s)] + (if size < |s| then ReadFrom(crc, s[size..]) else [])
  {
  }

  /** Whatever the bytes are, data are returned only uncompressed, within the limit and with the checksum stored. */
  lemma ReadDataMatchChecksum(crc: Bytes -> U32, s: Bytes)
    ensures ReadOne(crc, s).Ok? ==>
              && |s| >= 13 + |ReadOne(crc, s).data| && |ReadOne(crc, s).data| <= MAX_ENTRY_SIZE && s[0] == 0
              && s[13..13 + |ReadOne(crc, s).data|] == ReadOne(crc, s).data
              && crc(ReadOne(crc, s).data) == Decode(s[9..13])
  {
  }

  /** The entries of the frames, up to the first that cannot be read. */
  function Readout(crc: Bytes -> U32, frames: seq<Frame>): seq<ReadResult> {
    if frames == [] then []
    else if Readable(crc, frames[0]) then [Ok(frames[0].data)] + Readout(crc, frames[1..])
    else [Err]
  }

  /** The frame `write_entry` writes. */
  function EntryFrame(crc: Bytes -> U32, data: Bytes): Frame {
    Frame(0, crc(data), data)
  }

  function EntryFrames(crc: Bytes -> U32, entries: seq<Bytes>): seq<Frame> {
    seq(|entries|, i requires 0 <= i < |entries| => EntryFrame(crc, entries[i]))
  }

  lemma EntryFramesJoin(crc: Bytes -> U32, a: seq<Bytes>, b: seq<Bytes>)
    ensures EntryFrames(crc, a + b) == EntryFrames(crc, a) + EntryFrames(crc, b)
  {
  }

  lemma EntryFramesTake(crc: Bytes -> U32, entries: seq<Bytes>, n: nat)
    requires n <= |entries|
    ensures EntryFrames(crc, entries[..n]) == EntryFrames(crc, entries)[..n]
  {
  }

  lemma {:induction false} ReadFromFrames(crc: Bytes -> U32, frames: seq<Frame>)
    requires frames != [] && forall f :: f in frames ==> |f.data| <= U64_MAX
    ensures ReadFrom(crc, AllBytes(frames)) == Readout(crc, frames)
  {
    var f, tail := frames[0], AllBytes(frames[1..]);
    FrameRoundTrip(f, tail);
    assert AllBytes(frames)[f.Size()..] == tail;
    if frames[1..] != [] {
      assert |tail| >= frames[1].Size();
      ReadFromFrames(crc, frames[1..]);
    }
  }

  /**
    Data that changed on disk are not returned: where the data of an entry no longer have the
    checksum they were written with, reading stops with an error, after the entries before it.
  */
  lemma ChangedDataAreRefused(crc: Bytes -> U32, entries: seq<Bytes>, i: nat, data: Bytes)
    requires i < |entries| && |data| <= U64_MAX && forall e :: e in entries ==> |e| <= MAX_ENTRY_SIZE
    requires crc(data) != crc(entries[i])
    ensures var frames := EntryFrames(crc, entries)[i := Frame(0, crc(entries[i]), data)];
            ReadFrom(crc, AllBytes(frames)) == seq(i, k requires 0 <= k < i => Ok(entries[k])) + [Err]
  {
    var frames := EntryFrames(crc, entries)[i := Frame(0, crc(entries[i]), data)];
    ReadFromFrames(crc, frames);
    ReadoutOfChanged(crc, entries, i, data);
  }

  lemma {:induction false} ReadoutOfChanged(crc: Bytes -> U32, entries: seq<Bytes>, i: nat, data: Bytes)
    requires i < |entries| && crc(data) != crc(entries[i]) && forall e :: e in entries ==> |e| <= MAX_ENTRY_SIZE
    ensures var frames := EntryFrames(crc, entries)[i := Frame(0, crc(entries[i]), data)];
            Readout(crc, frames) == seq(i, k requires 0 <= k < i => Ok(entries[k])) + [Err]
    decreases i
  {
    var frames := EntryFrames(crc, entries)[i := Frame(0, crc(entries[i]), data)];
    if i > 0 {
      var rest := entries[1..];
      assert frames[1..] == EntryFrames(crc, rest)[i - 1 := Frame(0, crc(rest[i - 1]), data)];
      ReadoutOfChanged(crc, rest, i - 1, data);
    }
  }
}
