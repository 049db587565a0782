/** The in-memory twin of the log file, and when the two agree. */
module MemoryLogs {
  import opened RaftTypes
  import opened Frames
  import opened Storage
  import opened Framing
  import opened LogStores

  /** The cursor scan: where the buffer is cut, its end when the index is not found. A header torn between
      index and length is a panic, None; a torn payload is skipped like a whole one. */
  function CutAt(b: Bytes, start: nat): (pos: Option<nat>)
    ensures pos.Some? ==> pos.value <= |b|
    decreases |b|
  {
    if |b| < INDEX_BYTES then Some(|b|)
    else if DecodeBE(b[..INDEX_BYTES]) == start then Some(0)
    else if |b| < HEADER_BYTES then None
    else match FirstFrame(b)
         case None => Some(|b|)
         case Some(f) => match CutAt(b[Size(f)..], start)
                         case None => None
                         case Some(pos) => Some(Size(f) + pos)
  }

  /** What follows the whole frames. */
  function Leftover(b: Bytes): (tail: Bytes)
    decreases |b|
  {
    match FirstFrame(b)
    case None => b
    case Some(f) => Leftover(b[Size(f)..])
  }

  function MemStore(b: Bytes, start: nat, payloads: seq<Bytes>): Option<Bytes> {
    match CutAt(b, start)
    case None => None
    case Some(pos) => Some(b[..pos] + EncodeAll(Framed(start, payloads)))
  }

  /** The two scans cut at the same place exactly when the index is found or nothing is torn. */
  lemma {:induction false} ScansAgree(b: Bytes, start: nat)
    ensures CutAt(b, start) == Some(ScanEnd(b, start))
            <==> || Position(Parse(b), start) < |Parse(b)|
                 || Leftover(b) == []
                 || (|Leftover(b)| >= INDEX_BYTES && DecodeBE(Leftover(b)[..INDEX_BYTES]) == start)
    decreases |b|
  {
    match FirstFrame(b) {
      case None =>
      case Some(f) =>
        ScansAgree(b[Size(f)..], start);
        assert |b| >= HEADER_BYTES && f.index == DecodeBE(b[..INDEX_BYTES]);
        ScansStep(b, f, b[Size(f)..], start);
    }
  }

  lemma ScansStep(b: Bytes, f: Raw, rest: Bytes, start: nat)
    requires |b| >= HEADER_BYTES && FirstFrame(b) == Some(f) && Size(f) <= |b| && rest == b[Size(f)..]
    requires f.index == DecodeBE(b[..INDEX_BYTES])
    ensures Leftover(b) == Leftover(rest)
    ensures Position(Parse(b), start) < |Parse(b)| <==> f.index == start || Position(Parse(rest), start) < |Parse(rest)|
    ensures CutAt(b, start) == Some(ScanEnd(b, start))
            <==> f.index == start || CutAt(rest, start) == Some(ScanEnd(rest, start))
  {
    hide FirstFrame, DecodeBE;
    assert Parse(b) == [f] + Parse(rest);
    assert Parse(b)[1..] == Parse(rest);
  }

  lemma {:induction false} NothingLeft(fs: seq<Raw>)
    requires AllFit(fs)
    ensures Leftover(EncodeAll(fs)) == []
  {
    if fs != [] {
      ReadsBack(fs[0], EncodeAll(fs[1..]));
      NothingLeft(fs[1..]);
      assert EncodeAll(fs)[Size(fs[0])..] == EncodeAll(fs[1..]);
    }
  }

  // ----- Any sequence of calls, from empty -----

  datatype Call = Store(start: nat, entries: seq<LogEntry>) | Truncate

  ghost predicate CallsFit(c: Codec, calls: seq<Call>) {
    forall k :: 0 <= k < |calls| && calls[k].Store? ==> AllFit(Framed(calls[k].start, Payloads(c, calls[k].entries)))
  }

  function FileAfter(c: Codec, calls: seq<Call>): Option<Bytes> {
    if calls == [] then None
    else
      var file := FileAfter(c, calls[..|calls| - 1]);
      match calls[|calls| - 1]
      case Store(start, entries) => Some(StoreBytes(file.GetOr([]), start, Payloads(c, entries)))
      case Truncate => if file.None? then None else Some([])
  }

  /** None once a call has panicked. */
  function BufferAfter(c: Codec, calls: seq<Call>): Option<Bytes> {
    if calls == [] then Some([])
    else
      match BufferAfter(c, calls[..|calls| - 1])
      case None => None
      case Some(buf) => match calls[|calls| - 1]
                        case Store(start, entries) => MemStore(buf, start, Payloads(c, entries))
                        case Truncate => Some([])
  }

  /** The frames both stores hold after the calls. */
  function FramesAfter(calls: seq<Call>): seq<LogFrame> {
    if calls == [] then []
    else match calls[|calls| - 1]
         case Store(start, entries) => StoreFrames(FramesAfter(calls[..|calls| - 1]), start, entries)
         case Truncate => []
  }

  lemma {:induction false} FileWhole(c: Codec, calls: seq<Call>)
    requires CallsFit(c, calls)
    ensures var b := FileAfter(c, calls).GetOr([]);
            Represents(c, b, FramesAfter(calls)) && b == EncodeAll(Parse(b))
  {
    if calls == [] {
      assert Raws(c, []) == [];
    } else {
      var before, last := calls[..|calls| - 1], calls[|calls| - 1];
      assert forall k :: 0 <= k < |before| ==> before[k] == calls[k];
      FileWhole(c, before);
      match last {
        case Truncate => assert Raws(c, []) == [];
        case Store(start, entries) =>
          StoreRefines(c, FileAfter(c, before).GetOr([]), FramesAfter(before), start, entries);
          StoreParse(FileAfter(c, before).GetOr([]), start, Payloads(c, entries));
      }
    }
  }

  /** The two stores agree: from empty, any calls leave the same bytes in the file and in the buffer, and no
      call panics. */
  lemma {:induction false} StoresAgree(c: Codec, calls: seq<Call>)
    requires CallsFit(c, calls)
    ensures BufferAfter(c, calls) == Some(FileAfter(c, calls).GetOr([]))
  {
    if calls != [] {
      var before := calls[..|calls| - 1];
      assert forall k :: 0 <= k < |before| ==> before[k] == calls[k];
      StoresAgree(c, before);
      FileWhole(c, before);
      var b := FileAfter(c, before).GetOr([]);
      if calls[|calls| - 1].Store? {
        ParseFits(b);
        NothingLeft(Parse(b));
        ScansAgree(b, calls[|calls| - 1].start);
      }
    }
  }

  function BufferReadBack(c: Codec, buf: Bytes): Restored {
    ReadBack(c, if buf == [] then None else Some(buf))
  }

  /** And they restore the same entries, those of the frames written, except that an empty buffer answers that
      there is no log where an emptied file answers no entries. */
  lemma RestoresAgree(c: Codec, calls: seq<Call>)
    requires CallsFit(c, calls) && Faithful(c)
    ensures var file, buf := FileAfter(c, calls), BufferAfter(c, calls).GetOr([]);
            && (file.Some? ==> ReadBack(c, file) == Restored.Restored(Entries(FramesAfter(calls))))
            && BufferReadBack(c, buf) == (if FramesAfter(calls) == [] then Missing else ReadBack(c, file))
  {
    StoresAgree(c, calls);
    FileWhole(c, calls);
    RestoreRefines(c, FramesAfter(calls));
    var b := FileAfter(c, calls).GetOr([]);
    assert b == [] <==> Parse(b) == [];
  }

  lemma ConcatAssoc(a: Bytes, b: Bytes, c: Bytes)
    ensures a + (b + c) == a + b + c
  {
  }

  /** Any bytes are their whole frames and what follows them. */
  lemma {:induction false} WholeAndTorn(b: Bytes)
    ensures b == EncodeAll(Parse(b)) + Leftover(b)
    decreases |b|
  {
    hide EncodeFrame;
    if FirstFrame(b).Some? {
      var f := FirstFrame(b).value;
      FirstFrameIs(b);
      var rest := b[Size(f)..];
      WholeAndTorn(rest);
      EncodeFirst(f, Parse(rest));
      assert Parse(b) == [f] + Parse(rest);
      TakeDrop(b, Size(f));
      ConcatAssoc(EncodeFrame(f), EncodeAll(Parse(rest)), Leftover(rest));
    }
  }

  lemma ParseExtended(b: Bytes, added: Bytes)
    ensures Parse(b + added) == Parse(b) + Parse(Leftover(b) + added)
  {
    hide Parse, EncodeAll, Leftover;
    WholeAndTorn(b);
    ParseFits(b);
    assert b + added == EncodeAll(Parse(b)) + (Leftover(b) + added);
    ParseConcat(Parse(b), Leftover(b) + added);
  }

  /** The bytes after the whole frames hold a whole header, of another index, and less payload than it claims. */
  ghost predicate TornPayload(tail: Bytes, start: nat) {
    |tail| >= HEADER_BYTES && FirstFrame(tail).None? && DecodeBE(tail[..INDEX_BYTES]) != start
  }

  /** The scan panics exactly on a header torn between index and length, when the index sought is not before it. */
  lemma {:induction false} CutPanics(b: Bytes, start: nat)
    ensures CutAt(b, start).None?
            <==> && Position(Parse(b), start) == |Parse(b)|
                 && INDEX_BYTES <= |Leftover(b)| < HEADER_BYTES && DecodeBE(Leftover(b)[..INDEX_BYTES]) != start
    ensures Position(Parse(b), start) == |Parse(b)| && TornPayload(Leftover(b), start) ==> CutAt(b, start) == Some(|b|)
    decreases |b|
  {
    if FirstFrame(b).Some? {
      var f := FirstFrame(b).value;
      CutPanics(b[Size(f)..], start);
      assert |b| >= HEADER_BYTES && f.index == DecodeBE(b[..INDEX_BYTES]);
      CutStep(b, f, b[Size(f)..], start);
    }
  }

  lemma CutStep(b: Bytes, f: Raw, rest: Bytes, start: nat)
    requires |b| >= HEADER_BYTES && FirstFrame(b) == Some(f) && Size(f) <= |b| && rest == b[Size(f)..]
    requires f.index == DecodeBE(b[..INDEX_BYTES])
    ensures Leftover(b) == Leftover(rest)
    ensures Position(Parse(b), start) == |Parse(b)|
            <==> f.index != start && Position(Parse(rest), start) == |Parse(rest)|
    ensures CutAt(b, start).None? <==> f.index != start && CutAt(rest, start).None?
    ensures f.index != start ==> (CutAt(b, start) == Some(|b|) <==> CutAt(rest, start) == Some(|rest|))
  {
    hide FirstFrame, DecodeBE;
    assert Parse(b) == [f] + Parse(rest);
    assert Parse(b)[1..] == Parse(rest);
  }

  /** A torn payload is where they part. The file cuts it off. The buffer keeps it, and then everything stored after
      it is lost to restore if and only if the torn frame still claims more bytes than follow it. */
  lemma TornBufferHides(b: Bytes, start: nat, payloads: seq<Bytes>)
    requires AllFit(Framed(start, payloads))
    requires Position(Parse(b), start) == |Parse(b)| && TornPayload(Leftover(b), start)
    ensures Parse(StoreBytes(b, start, payloads)) == Parse(b) + Framed(start, payloads)
    ensures MemStore(b, start, payloads).Some?
    ensures var tail, added := Leftover(b), EncodeAll(Framed(start, payloads));
            Parse(MemStore(b, start, payloads).value) == Parse(b)
            <==> |tail| + |added| < HEADER_BYTES + DecodeBE(tail[INDEX_BYTES..HEADER_BYTES])
  {
    hide Parse, EncodeAll, Leftover, DecodeBE, StoreBytes, Framed;
    var tail, added := Leftover(b), EncodeAll(Framed(start, payloads));
    StoreParse(b, start, payloads);
    assert Parse(b)[..|Parse(b)|] == Parse(b);
    CutPanics(b, start);
    assert b[..|b|] == b;
    ParseExtended(b, added);
    TornStays(tail, added);
    if Parse(tail + added) == [] {
      assert Parse(b) + [] == Parse(b);
    }
  }

  lemma TornStays(tail: Bytes, added: Bytes)
    requires |tail| >= HEADER_BYTES
    ensures Parse(tail + added) == []
            <==> |tail| + |added| < HEADER_BYTES + DecodeBE(tail[INDEX_BYTES..HEADER_BYTES])
  {
    hide DecodeBE;
    assert (tail + added)[INDEX_BYTES..HEADER_BYTES] == tail[INDEX_BYTES..HEADER_BYTES];
  }

  // ----- The buffer -----

  lemma CutGoesOn(b: Bytes, pos: nat, start: nat, length: nat)
    requires pos + HEADER_BYTES + length <= |b|
    requires DecodeBE(b[pos..pos + INDEX_BYTES]) != start
    requires DecodeBE(b[pos + INDEX_BYTES..pos + HEADER_BYTES]) == length
    ensures var rest := CutAt(b[pos + HEADER_BYTES + length..], start);
            CutAt(b[pos..], start) == if rest.None? then None else Some(HEADER_BYTES + length + rest.value)
  {
    DropSlice(b, pos, 0, INDEX_BYTES);
    DropSlice(b, pos, INDEX_BYTES, HEADER_BYTES);
    DropDrop(b, pos, HEADER_BYTES + length);
  }

  lemma CutStops(b: Bytes, pos: nat, start: nat)
    requires pos <= |b|
    ensures |b| - pos < INDEX_BYTES ==> CutAt(b[pos..], start) == Some(|b| - pos)
    ensures |b| - pos >= INDEX_BYTES && DecodeBE(b[pos..pos + INDEX_BYTES]) == start ==>
              CutAt(b[pos..], start) == Some(0)
    ensures INDEX_BYTES <= |b| - pos < HEADER_BYTES && DecodeBE(b[pos..pos + INDEX_BYTES]) != start ==>
              CutAt(b[pos..], start) == None
    ensures |b| - pos >= HEADER_BYTES && DecodeBE(b[pos..pos + INDEX_BYTES]) != start
            && |b| - pos < HEADER_BYTES + DecodeBE(b[pos + INDEX_BYTES..pos + HEADER_BYTES]) ==>
              CutAt(b[pos..], start) == Some(|b| - pos)
  {
    if |b| - pos >= INDEX_BYTES {
      DropSlice(b, pos, 0, INDEX_BYTES);
    }
    if |b| - pos >= HEADER_BYTES {
      DropSlice(b, pos, INDEX_BYTES, HEADER_BYTES);
    }
  }

  /** The scan so far, with the cursor at pos, possibly past the end. */
  function CutFrom(b: Bytes, pos: nat, start: nat): Option<nat> {
    if pos > |b| then Some(|b|)
    else match CutAt(b[pos..], start)
         case None => None
         case Some(k) => Some(pos + k)
  }

  class MemoryLog {
    const codec: Codec
    var buf: Bytes

    constructor (codec: Codec)
      ensures this.codec == codec && buf == []
    {
      this.codec := codec;
      buf := [];
    }

    /** None is a panic. */
    method FindStart(start: nat) returns (cut: Option<nat>)
      ensures cut == CutAt(buf, start)
    {
      hide CutAt;
      var pos := 0;
      assert buf[0..] == buf;
      while true
        invariant CutFrom(buf, pos, start) == CutAt(buf, start)
        decreases |buf| - pos
      {
        if pos > |buf| { return Some(|buf|); }
        CutStops(buf, pos, start);
        if |buf| - pos < INDEX_BYTES { return Some(|buf|); }
        if DecodeBE(buf[pos..pos + INDEX_BYTES]) == start { return Some(pos); }
        if |buf| - pos < HEADER_BYTES { return None; }
        var length := DecodeBE(buf[pos + INDEX_BYTES..pos + HEADER_BYTES]);
        if pos + HEADER_BYTES + length <= |buf| {
          CutGoesOn(buf, pos, start, length);
        }
        pos := pos + HEADER_BYTES + length;
      }
    }

    /** Serialise, find where to cut, cut there, append frame by frame; false is a panic. */
    method StoreLogEntries(start: nat, entries: seq<LogEntry>) returns (ok: bool)
      modifies this
      ensures ok == MemStore(old(buf), start, Payloads(codec, entries)).Some?
      ensures buf == MemStore(old(buf), start, Payloads(codec, entries)).GetOr(old(buf))
    {
      var written := WriteFrames(codec, start, entries);
      var cut := FindStart(start);
      if cut.None? { return false; }
      buf := buf[..cut.value] + written;
      return true;
    }

    method RestoreLogEntries() returns (r: Restored)
      ensures r == BufferReadBack(codec, buf)
    {
      if buf == [] { return Missing; }
      var entries := ReadFrames(codec, buf);
      return if entries.None? then Corrupt else Restored.Restored(entries.value);
    }

    method TruncateLog()
      modifies this
      ensures buf == []
    {
      buf := [];
    }
  }
}
