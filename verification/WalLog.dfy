/**
  The log object: its file, its cursor and its counters, with appends that may fail half way.
*/
module WalLog {
  import opened Types
  import opened Wal

  class Log {
    const crc: Bytes -> U32
    var file: Bytes
    var cursor: nat
    var sequence: U64
    var len: nat
    /** The sequence number in the file: not `sequence` after a restart that failed to write it. */
    ghost var onDisk: U64
    ghost var frames: seq<Frame>
    /** What an append that could not be undone left at the end, and everything written after it. */
    ghost var torn: Bytes

    ghost predicate Valid()
      reads this
    {
      && file == File(onDisk, frames) + torn
      && forall f :: f in frames ==> |f.data| <= U64_MAX
    }

    /** The file holds exactly the frames, and they are counted. */
    ghost predicate Whole()
      reads this
    {
      Valid() && onDisk == sequence && torn == [] && file == File(sequence, frames) && len == |frames|
    }

    /** The log `open_with` returns for a file that opens. */
    constructor Opened(crc: Bytes -> U32, file: Bytes, sequence: U64, len: nat, ghost frames: seq<Frame>)
      requires file == File(sequence, frames) && len == |frames|
      requires forall f :: f in frames ==> |f.data| <= U64_MAX
      ensures Whole() && this.crc == crc && this.file == file && this.frames == frames && this.sequence == sequence
    {
      this.crc, this.file, this.sequence, this.len, this.frames := crc, file, sequence, len, frames;
      cursor, onDisk, torn := 0, sequence, [];
    }

    // ---- Writing ------------------------------------------------------------

    /** `write_all` at the end of the file, on storage that takes only `room` more bytes. */
    method WriteAll(chunk: Bytes, room: Option<nat>) returns (ok: bool, left: Option<nat>)
      modifies this`file
      ensures ok <==> room.None? || |chunk| <= room.value
      ensures ok ==> file == old(file) + chunk && left == (if room.None? then None else Some(room.value - |chunk|))
      ensures !ok ==> file == old(file) + chunk[..room.value]
    {
      if room.Some? && room.value < |chunk| {
        file := file + chunk[..room.value];
        return false, Some(0);
      }
      file := file + chunk;
      return true, if room.None? then None else Some(room.value - |chunk|);
    }

    /** Writing the next part of `all`, of which the first `at` bytes are written. */
    method WritePart(ghost base: Bytes, ghost all: Bytes, ghost at: nat, part: Bytes, room: Option<nat>)
      returns (ok: bool, left: Option<nat>)
      requires at + |part| <= |all| && part == all[at..at + |part|] && file == base + all[..at]
      modifies this`file
      ensures ok <==> room.None? || |part| <= room.value
      ensures ok ==> file == base + all[..at + |part|]
      ensures ok ==> left == (if room.None? then None else Some(room.value - |part|))
      ensures !ok ==> file == base + all[..at + room.value]
    {
      ok, left := WriteAll(part, room);
      if ok {
        assert all[..at + |part|] == all[..at] + part;
      } else {
        assert all[..at + room.value] == all[..at] + part[..room.value];
      }
    }

    /** The four writes of an entry; they stop at the first that fails. */
    method WriteFrame(data: Bytes, room: Option<nat>) returns (ok: bool)
      requires |data| <= I64_MAX
      modifies this`file
      ensures ok <==> room.None? || EntryFrame(crc, data).Size() <= room.value
      ensures file == old(file)
              + (if ok then EntryFrame(crc, data).Bytes() else EntryFrame(crc, data).Bytes()[..room.value])
    {
      ghost var base, all := file, EntryFrame(crc, data).Bytes();
      FrameParts(EntryFrame(crc, data));
      var left := room;
      ok, left := WritePart(base, all, 0, [0], left);
      if ok {
        ok, left := WritePart(base, all, 1, Encode(|data|, 8), left);
      }
      if ok {
        ok, left := WritePart(base, all, 9, Encode(crc(data), 4), left);
      }
      if ok {
        ok, left := WritePart(base, all, 13, data, left);
      }
    }

    /**
      `append`. Storage takes `room` more bytes, or any number; truncating after a failed write may
      fail as well.
    */
    method Append(data: Bytes, room: Option<nat>, truncates: bool) returns (ok: bool)
      requires Valid() && |data| <= I64_MAX
      modifies this
      ensures Valid() && sequence == old(sequence) && onDisk == old(onDisk)
      ensures ok <==> room.None? || EntryFrame(crc, data).Size() <= room.value
      ensures len == old(len) + (if ok then 1 else 0)
      ensures var bytes := EntryFrame(crc, data).Bytes();
        if ok && old(torn) == [] then frames == old(frames) + [EntryFrame(crc, data)] && torn == []
        else
          && frames == old(frames)
          && torn == old(torn) + (if ok then bytes else if truncates then [] else bytes[..room.value])
    {
      var pos := |file|;
      cursor := pos;
      ok := WriteFrame(data, room);
      if ok {
        len := len + 1;
        cursor := |file|;
        AppendedFile(onDisk, frames, torn, EntryFrame(crc, data));
        if torn == [] {
          frames := frames + [EntryFrame(crc, data)];
        } else {
          torn := torn + EntryFrame(crc, data).Bytes();
        }
      } else if truncates {
        file := file[..pos];
      } else {
        Associative(File(onDisk, frames), torn, EntryFrame(crc, data).Bytes()[..room.value]);
        torn := torn + EntryFrame(crc, data).Bytes()[..room.value];
      }
    }

    /**
      `restart`. On failure the entries are still on disk, although the count says there are none,
      under the bytes of the new sequence number that were written and the rest of the old one.
    */
    method Restart(sequence: U64, room: nat, truncates: bool) returns (ok: bool)
      requires Valid()
      modifies this
      ensures Valid() && this.sequence == sequence && len == 0
      ensures ok <==> room >= 8 && truncates
      ensures ok ==> Whole() && frames == []
      ensures !ok ==> frames == old(frames) && torn == old(torn)
      ensures onDisk == Mixed(old(onDisk), sequence, if room < 8 then room else 8)
      ensures room >= 8 ==> onDisk == sequence
    {
      ghost var before := onDisk;
      this.sequence := sequence;
      len := 0;
      cursor := 4;
      var number := Encode(sequence, 8);
      var written := if room < 8 then room else 8;
      MixedWhole(before, sequence);
      OverwriteSequence(file, before, sequence, frames, torn, written);
      onDisk := Mixed(before, sequence, written);
      file := file[..4] + number[..written] + file[4 + written..];
      if room >= 8 && truncates {
        file := file[..HEADER_SIZE];
        frames, torn := [], [];
        assert file == File(sequence, []) + [];
        return true;
      }
      return false;
    }

    // ---- Reading ------------------------------------------------------------

    /** `read_exact` at the cursor. */
    method ReadExact(n: nat) returns (s: Option<Bytes>)
      modifies this`cursor
      ensures s.Some? <==> old(cursor) + n <= |file|
      ensures s.Some? ==> s.value == file[old(cursor)..old(cursor) + n] && cursor == old(cursor) + n
    {
      if cursor + n > |file| {
        return None;
      }
      s := Some(file[cursor..cursor + n]);
      cursor := cursor + n;
    }

    /** `read_to_next`: the entry at the cursor, and whether another follows. */
    method ReadToNext() returns (r: ReadResult, more: bool)
      requires cursor <= |file|
      modifies this`cursor
      ensures r == ReadOne(crc, file[old(cursor)..])
      ensures r.Ok? ==> cursor == old(cursor) + FirstFrame(file[old(cursor)..]).value.Size() <= |file|
      ensures more <==> r.Ok? && cursor < |file|
    {
      ghost var s := file[cursor..];
      var flag := ReadExact(1);
      if flag.None? {
        return Err, false;
      }
      var lengthBytes := ReadExact(8);
      if lengthBytes.None? {
        return Err, false;
      }
      assert lengthBytes.value == s[1..9];
      var crcBytes := ReadExact(4);
      if crcBytes.None? {
        return Err, false;
      }
      assert crcBytes.value == s[9..13];
      var length := Decode(lengthBytes.value);
      if length > MAX_ENTRY_SIZE {
        return Err, false;
      }
      var data := ReadExact(length);
      if data.None? || flag.value[0] != 0 {
        return Err, false;
      }
      assert data.value == s[13..13 + length];
      if Decode(crcBytes.value) != crc(data.value) {
        return Err, false;
      }
      return Ok(data.value), cursor < |file|;
    }

    /** `first_entry`: an error on an empty file, and otherwise whether there is an entry to read. */
    method FirstEntry() returns (r: Option<bool>)
      modifies this`cursor
      ensures r == if file == [] then None else Some(len > 0)
      ensures r == Some(true) ==> cursor == HEADER_SIZE
    {
      if |file| == 0 {
        return None;
      }
      if len == 0 {
        return Some(false);
      }
      cursor := HEADER_SIZE;
      return Some(true);
    }

    /** `LogIter.next` until it returns nothing. */
    method Iterate() returns (results: seq<ReadResult>)
      requires cursor <= |file|
      modifies this`cursor
      ensures results == ReadFrom(crc, file[old(cursor)..])
    {
      results := [];
      var more := true;
      ghost var all := ReadFrom(crc, file[cursor..]);
      while more
        invariant more ==> cursor <= |file| && all == results + ReadFrom(crc, file[cursor..])
        invariant !more ==> all == results
        decreases if more then |file| - cursor + 1 else 0
      {
        ghost var from, before := cursor, results;
        var r;
        r, more := ReadToNext();
        results := results + [r];
        ReadFromNext(crc, file, from, r, cursor, more);
        OneMore(before, r, if more then ReadFrom(crc, file[cursor..]) else []);
      }
    }

    /** Everything `iter` goes through. */
    method ReadAll() returns (results: seq<ReadResult>)
      requires Whole()
      modifies this`cursor
      ensures results == Readout(crc, frames)
    {
      var first := FirstEntry();
      if first != Some(true) {
        return [];
      }
      results := Iterate();
      assert file[HEADER_SIZE..] == AllBytes(frames);
      ReadFromFrames(crc, frames);
    }
  }

  /** What iterating returns, once the entry at `from` is read and the cursor is at `next`. */
  lemma ReadFromNext(crc: Bytes -> U32, file: Bytes, from: nat, r: ReadResult, next: nat, more: bool)
    requires from <= |file| && r == ReadOne(crc, file[from..])
    requires r.Ok? ==> next == from + FirstFrame(file[from..]).value.Size() <= |file|
    requires more <==> r.Ok? && next < |file|
    ensures ReadFrom(crc, file[from..]) == [r] + (if more then ReadFrom(crc, file[next..]) else [])
  {
    ReadFromStep(crc, file[from..]);
    if r.Ok? {
      assert file[from..][next - from..] == file[next..];
    }
  }

  lemma OneMore(before: seq<ReadResult>, r: ReadResult, rest: seq<ReadResult>)
    ensures before + ([r] + rest) == before + [r] + rest
  {
  }

  lemma AppendedFile(sequence: U64, frames: seq<Frame>, torn: Bytes, f: Frame)
    ensures File(sequence, frames) + torn + f.Bytes() ==
            if torn == [] then File(sequence, frames + [f]) + [] else File(sequence, frames) + (torn + f.Bytes())
  {
    if torn == [] {
      FileAppend(sequence, frames, f);
      assert File(sequence, frames) + [] == File(sequence, frames);
    } else {
      Associative(File(sequence, frames), torn, f.Bytes());
    }
  }

  lemma FrameParts(f: Frame)
    ensures var all := f.Bytes();
      && all[..0] == [] && all[0..1] == [f.flag] && all[1..9] == Encode(|f.data|, 8)
      && all[9..13] == Encode(f.crc, 4) && all[13..] == f.data && all[13..13 + |f.data|] == f.data
      && all[..f.Size()] == all
  {
  }

  /** The first `n` bytes of the new number, and the rest of the old one. */
  function Mixed(before: U64, after: U64, n: nat): U64
    requires n <= 8
  {
    Powers();
    Decode(Encode(after, 8)[..n] + Encode(before, 8)[n..])
  }

  lemma MixedWhole(before: U64, after: U64)
    ensures Mixed(before, after, 0) == before && Mixed(before, after, 8) == after
  {
    Powers();
    assert Encode(after, 8)[..0] + Encode(before, 8)[0..] == Encode(before, 8);
    assert Encode(after, 8)[..8] + Encode(before, 8)[8..] == Encode(after, 8);
    DecodeEncode(before, 8);
    DecodeEncode(after, 8);
  }

  lemma OverwriteMiddle(a: Bytes, b: Bytes, c: Bytes, n: Bytes)
    requires |n| <= |b|
    ensures (a + b + c)[..|a|] + n + (a + b + c)[|a| + |n|..] == a + (n + b[|n|..]) + c
  {
  }

  lemma OverwriteSequence(file: Bytes, before: U64, after: U64, frames: seq<Frame>, torn: Bytes, n: nat)
    requires file == File(before, frames) + torn && n <= 8
    ensures file[..4] + Encode(after, 8)[..n] + file[4 + n..] == File(Mixed(before, after, n), frames) + torn
  {
    Powers();
    var mixed := Encode(after, 8)[..n] + Encode(before, 8)[n..];
    var tail := AllBytes(frames) + torn;
    EncodeDecode(mixed);
    Associative(Header(before), AllBytes(frames), torn);
    Associative(Header(Mixed(before, after, n)), AllBytes(frames), torn);
    assert Header(Mixed(before, after, n)) == Encode(VERSION, 4) + mixed;
    OverwriteMiddle(Encode(VERSION, 4), Encode(before, 8), tail, Encode(after, 8)[..n]);
  }

  /** `open_with`, on the bytes in the file. */
  method Open(crc: Bytes -> U32, file: Bytes) returns (log: Log?)
    requires |file| <= U64_MAX
    ensures log == null <==> Reopened(file).None?
    ensures log != null ==>
              && fresh(log) && log.Whole() && log.crc == crc
              && log.file == Reopened(file).value
              && log.frames == (if file == [] then [] else Scan(file[HEADER_SIZE..]))
  {
    if |file| > 0 {
      var found := Recover(file);
      if found.None? {
        return null;
      }
      var (sequence, pos, len) := found.value;
      ReopenedIsFile(file);
      ghost var rest := ScanSplits(file[HEADER_SIZE..]);
      log := new Log.Opened(crc, file[..pos], sequence, len, Scan(file[HEADER_SIZE..]));
    } else {
      log := new Log.Opened(crc, Header(0), 0, 0, []);
    }
  }

  /** A new log with these entries appended. */
  method Write(crc: Bytes -> U32, entries: seq<Bytes>) returns (log: Log)
    requires forall e :: e in entries ==> |e| <= I64_MAX
    ensures fresh(log) && log.Whole() && log.crc == crc && log.frames == EntryFrames(crc, entries)
  {
    log := new Log.Opened(crc, Header(0), 0, 0, []);
    AppendAll(log, entries);
  }

  lemma EntryFramesNext(frames: seq<Frame>, crc: Bytes -> U32, entries: seq<Bytes>, i: nat)
    requires i < |entries|
    ensures frames + EntryFrames(crc, entries[..i + 1]) ==
              frames + EntryFrames(crc, entries[..i]) + [EntryFrame(crc, entries[i])]
  {
    assert entries[..i + 1] == entries[..i] + [entries[i]];
    EntryFramesJoin(crc, entries[..i], [entries[i]]);
  }

  method AppendAll(log: Log, entries: seq<Bytes>)
    requires log.Whole() && forall e :: e in entries ==> |e| <= I64_MAX
    modifies log
    ensures log.Whole() && log.frames == old(log.frames) + EntryFrames(log.crc, entries)
    ensures log.sequence == old(log.sequence)
  {
    for i := 0 to |entries|
      invariant log.Whole() && log.sequence == old(log.sequence)
      invariant log.frames == old(log.frames) + EntryFrames(log.crc, entries[..i])
    {
      EntryFramesNext(old(log.frames), log.crc, entries, i);
      var ok := log.Append(entries[i], None, true);
    }
    assert entries[..|entries|] == entries;
  }

  function AllOk(entries: seq<Bytes>): seq<ReadResult> {
    seq(|entries|, i requires 0 <= i < |entries| => Ok(entries[i]))
  }

  /** Appending takes entries of any size, but they all come back exactly when none is over the limit. */
  lemma {:induction false} EntriesComeBack(crc: Bytes -> U32, entries: seq<Bytes>)
    ensures Readout(crc, EntryFrames(crc, entries)) == AllOk(entries) <==>
              forall e :: e in entries ==> |e| <= MAX_ENTRY_SIZE
  {
    if entries != [] {
      var frames := EntryFrames(crc, entries);
      assert frames[1..] == EntryFrames(crc, entries[1..]);
      assert AllOk(entries) == [Ok(entries[0])] + AllOk(entries[1..]);
      EntriesComeBack(crc, entries[1..]);
      if Readable(crc, frames[0]) {
        assert Readout(crc, frames)[1..] == Readout(crc, frames[1..]);
        assert forall e :: e in entries <==> e == entries[0] || e in entries[1..];
      } else {
        assert Readout(crc, frames)[0] != AllOk(entries)[0];
      }
    }
  }

  lemma TwoAppends(sequence: U64, frames: seq<Frame>, torn: Bytes, g: Frame)
    ensures File(sequence, frames) + (torn + g.Bytes()) ==
            if torn == [] then File(sequence, frames + [g]) + [] else File(sequence, frames) + (torn + g.Bytes())
  {
    Associative(File(sequence, frames), torn, g.Bytes());
    AppendedFile(sequence, frames, torn, g);
  }

  /**
    An append fails after `room` bytes and cannot be undone, the next one succeeds, and the log is
    reopened. The log opens unless what is read across the tear is too long to seek over, and the
    entry that was appended comes back if and only if the file starts with its bytes at the tear.
  */
  method AppendAfterTorn(log: Log, data: Bytes, room: nat, more: Bytes) returns (reopened: Log?)
    requires log.Whole() && Seekable(log.frames) && |data| <= I64_MAX && |more| <= I64_MAX
    requires room < EntryFrame(log.crc, data).Size()
    requires |log.file| + |data| + |more| + 26 <= U64_MAX
    modifies log
    ensures var rest := EntryFrame(log.crc, data).Bytes()[..room] + EntryFrame(log.crc, more).Bytes();
      && (reopened == null <==> !Seekable(Scan(rest)))
      && (reopened != null ==> reopened.Whole() && reopened.frames == old(log.frames) + Scan(rest))
      && (EntryFrame(log.crc, more) in Scan(rest) <==> EntryFrame(log.crc, more).Bytes() <= rest)
  {
    ghost var frames, f, g := log.frames, EntryFrame(log.crc, data), EntryFrame(log.crc, more);
    ghost var torn := f.Bytes()[..room];
    var ok := log.Append(data, Some(room), false);
    assert [] + torn == torn;
    ok := log.Append(more, None, true);
    TwoAppends(log.sequence, frames, torn, g);
    ReopenAfterTorn(log.sequence, frames, torn + g.Bytes());
    TornFrame(f, room);
    OneComesBackIff(torn, g);
    reopened := Open(log.crc, log.file);
  }

  /** An append that succeeds can be lost: behind 9 bytes of an entry of 20 nothing shorter is found. */
  lemma AppendCanBeLost(crc: Bytes -> U32)
    ensures var f, g := EntryFrame(crc, seq(20, _ => 0)), EntryFrame(crc, []);
      g !in Scan(f.Bytes()[..9] + g.Bytes())
  {
    var f, g := EntryFrame(crc, seq(20, _ => 0)), EntryFrame(crc, []);
    AllBytesCons(g, []);
    assert [g] + [] == [g] && AllBytes([g]) == g.Bytes();
    TornSwallows(f, 9, [g]);
  }

  /**
    Append, crash anywhere past the header, reopen, append again: iterating returns the entries
    wholly before the cut and then the new ones.
  */
  method SurvivesCrash(crc: Bytes -> U32, entries: seq<Bytes>, cut: nat, more: seq<Bytes>)
    returns (results: seq<ReadResult>)
    requires forall e :: e in entries + more ==> |e| <= MAX_ENTRY_SIZE
    requires HEADER_SIZE <= cut <= |File(0, EntryFrames(crc, entries))| <= U64_MAX
    ensures var kept := WhollyBefore(EntryFrames(crc, entries), cut - HEADER_SIZE);
      kept <= |entries| && results == AllOk(entries[..kept] + more)
  {
    assert forall e :: e in entries ==> e in entries + more;
    assert forall e :: e in more ==> e in entries + more;
    ghost var frames := EntryFrames(crc, entries);
    var log := Write(crc, entries);
    CrashRecovery(log.sequence, frames, cut);
    var reopened := Open(crc, log.file[..cut]);
    ghost var kept := WhollyBefore(frames, cut - HEADER_SIZE);
    AppendAll(reopened, more);
    results := reopened.ReadAll();
    EntryFramesTake(crc, entries, kept);
    EntryFramesJoin(crc, entries[..kept], more);
    EntriesComeBack(crc, entries[..kept] + more);
  }
}
