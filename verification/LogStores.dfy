/** The log file: frames on bytes, crash tolerant. */
module LogStores {
  import opened RaftTypes
  import opened Frames
  import opened Storage
  import opened Framing

  /** Serialisation of entries is external; only its round trip is assumed, where a lemma says so. */
  datatype Codec = Codec(encode: LogEntry -> Bytes, decode: Bytes -> Option<LogEntry>)

  ghost predicate Faithful(c: Codec) {
    forall e :: c.decode(c.encode(e)) == Some(e)
  }

  function Payloads(c: Codec, entries: seq<LogEntry>): (r: seq<Bytes>)
    ensures |r| == |entries|
  {
    seq(|entries|, k requires 0 <= k < |entries| => c.encode(entries[k]))
  }

  /** Decoding stops with an error, None, at the first payload that does not decode. */
  function DecodeAll(c: Codec, fs: seq<Raw>): Option<seq<LogEntry>> {
    if fs == [] then Some([])
    else match c.decode(fs[0].body)
         case None => None
         case Some(e) => match DecodeAll(c, fs[1..])
                         case None => None
                         case Some(es) => Some([e] + es)
  }

  /** What reading the log back gives; None is a decoding error. */
  function RestoreBytes(c: Codec, b: Bytes): Option<seq<LogEntry>> {
    DecodeAll(c, Parse(b))
  }

  // ----- The log file as a sequence of frames -----

  function Raws(c: Codec, frames: seq<LogFrame>): (r: seq<Raw>)
    ensures |r| == |frames|
  {
    seq(|frames|, k requires 0 <= k < |frames| => Frame(frames[k].index, c.encode(frames[k].body)))
  }

  /** The whole frames of file b are `frames`; a torn tail may follow. */
  ghost predicate Represents(c: Codec, b: Bytes, frames: seq<LogFrame>) {
    Parse(b) == Raws(c, frames)
  }

  lemma {:induction false} SamePosition(c: Codec, frames: seq<LogFrame>, index: nat)
    ensures Position(Raws(c, frames), index) == Position(frames, index)
  {
    if frames != [] && frames[0].index != index {
      assert Raws(c, frames)[1..] == Raws(c, frames[1..]);
      SamePosition(c, frames[1..], index);
    }
  }

  lemma RawsConcat(c: Codec, frames: seq<LogFrame>, k: nat, start: nat, entries: seq<LogEntry>)
    requires k <= |frames|
    ensures Raws(c, frames[..k] + Framed(start, entries))
         == Raws(c, frames)[..k] + Framed(start, Payloads(c, entries))
  {
  }

  /** Storing bytes refines storing frames. */
  lemma StoreRefines(c: Codec, b: Bytes, frames: seq<LogFrame>, start: nat, entries: seq<LogEntry>)
    requires Represents(c, b, frames) && AllFit(Framed(start, Payloads(c, entries)))
    ensures Represents(c, StoreBytes(b, start, Payloads(c, entries)), StoreFrames(frames, start, entries))
  {
    hide Parse, Raws, Framed, Payloads, Framed, StoreBytes;
    StoreParse(b, start, Payloads(c, entries));
    SamePosition(c, frames, start);
    RawsConcat(c, frames, Position(frames, start), start, entries);
  }

  /** Restoring bytes refines reading the frames' entries. */
  lemma {:induction false} RestoreRefines(c: Codec, frames: seq<LogFrame>)
    requires Faithful(c)
    ensures DecodeAll(c, Raws(c, frames)) == Some(Entries(frames))
  {
    if frames == [] {
      assert Entries(frames) == [];
    } else {
      assert Raws(c, frames)[1..] == Raws(c, frames[1..]);
      RestoreRefines(c, frames[1..]);
      assert Entries(frames) == [frames[0].body] + Entries(frames[1..]);
    }
  }

  /** A crash that tears the file anywhere loses only whole frames from the end. */
  lemma TornRestore(c: Codec, b: Bytes, frames: seq<LogFrame>, k: nat) returns (j: nat)
    requires Faithful(c) && Represents(c, b, frames) && k <= |b|
    ensures j <= |frames| && Represents(c, b[..k], frames[..j])
    ensures RestoreBytes(c, b[..k]) == Some(Entries(frames[..j]))
  {
    TornParse(b, k);
    j := |Parse(b[..k])|;
    assert Raws(c, frames[..j]) == Raws(c, frames)[..j];
    RestoreRefines(c, frames[..j]);
  }

  /** How many of the entries from `base` on a store at `start` keeps: all before it, or all when the frames do not
      reach it. */
  function Kept(base: nat, count: nat, start: nat): nat {
    if base <= start <= base + count then start - base else count
  }

  lemma StoreAnywhere(base: nat, entries: seq<LogEntry>, start: nat, added: seq<LogEntry>)
    ensures Entries(StoreFrames(Framed(base, entries), start, added)) == entries[..Kept(base, |entries|, start)] + added
  {
    var frames := Framed(base, entries);
    if base <= start < base + |entries| {
      assert frames[start - base].index == start;
    }
    assert Position(frames, start) == Kept(base, |entries|, start);
  }

  /** Storing on a torn file of contiguous frames: restore gives the surviving old entries before `start`, then the
      new ones. */
  lemma TornStore(c: Codec, b: Bytes, base: nat, entries: seq<LogEntry>, k: nat, start: nat, added: seq<LogEntry>)
    returns (j: nat)
    requires Faithful(c) && Represents(c, b, Framed(base, entries)) && k <= |b|
    requires AllFit(Framed(start, Payloads(c, added)))
    ensures j <= |entries| && Represents(c, b[..k], Framed(base, entries[..j]))
    ensures RestoreBytes(c, StoreBytes(b[..k], start, Payloads(c, added)))
            == Some(entries[..Kept(base, j, start)] + added)
  {
    j := TornRestore(c, b, Framed(base, entries), k);
    hide Parse, Framed, Payloads, StoreBytes, StoreFrames, AllFit;
    assert Framed(base, entries)[..j] == Framed(base, entries[..j]);
    StoreRefines(c, b[..k], Framed(base, entries[..j]), start, added);
    StoreAnywhere(base, entries[..j], start, added);
    RestoreRefines(c, StoreFrames(Framed(base, entries[..j]), start, added));
    assert entries[..j][..Kept(base, j, start)] == entries[..Kept(base, j, start)];
  }

  // ----- One step of the loops over the file -----

  /** The scan goes on past a whole frame with another index. */
  lemma ScanGoesOn(b: Bytes, pos: nat, start: nat, length: nat)
    requires pos + HEADER_BYTES + length <= |b|
    requires DecodeBE(b[pos..pos + INDEX_BYTES]) != start
    requires DecodeBE(b[pos + INDEX_BYTES..pos + HEADER_BYTES]) == length
    ensures ScanEnd(b[pos..], start)
         == HEADER_BYTES + length + ScanEnd(b[pos + HEADER_BYTES + length..], start)
  {
    DropSlice(b, pos, 0, INDEX_BYTES);
    DropSlice(b, pos, INDEX_BYTES, HEADER_BYTES);
    DropDrop(b, pos, HEADER_BYTES + length);
  }

  /** The scan stops at the index sought and at a torn frame. */
  lemma ScanStops(b: Bytes, pos: nat, start: nat)
    requires pos <= |b|
    requires || |b| - pos < INDEX_BYTES
             || DecodeBE(b[pos..pos + INDEX_BYTES]) == start
             || |b| - pos < HEADER_BYTES
             || |b| - pos < HEADER_BYTES + DecodeBE(b[pos + INDEX_BYTES..pos + HEADER_BYTES])
    ensures ScanEnd(b[pos..], start) == 0
  {
    if |b| - pos >= INDEX_BYTES {
      DropSlice(b, pos, 0, INDEX_BYTES);
    }
    if |b| - pos >= HEADER_BYTES {
      DropSlice(b, pos, INDEX_BYTES, HEADER_BYTES);
    }
  }

  /** Reading one whole frame during restore. */
  lemma ParseGoesOn(b: Bytes, pos: nat, length: nat)
    requires pos + HEADER_BYTES + length <= |b|
    requires DecodeBE(b[pos + INDEX_BYTES..pos + HEADER_BYTES]) == length
    ensures var next := pos + HEADER_BYTES + length;
            Parse(b[pos..])
            == [Frame(DecodeBE(b[pos..pos + INDEX_BYTES]), b[pos + HEADER_BYTES..next])] + Parse(b[next..])
  {
    DropSlice(b, pos, 0, INDEX_BYTES);
    DropSlice(b, pos, INDEX_BYTES, HEADER_BYTES);
    DropSlice(b, pos, HEADER_BYTES, HEADER_BYTES + length);
    DropDrop(b, pos, HEADER_BYTES + length);
  }

  lemma ParseStops(b: Bytes, pos: nat)
    requires pos <= |b|
    requires |b| - pos < HEADER_BYTES
             || |b| - pos < HEADER_BYTES + DecodeBE(b[pos + INDEX_BYTES..pos + HEADER_BYTES])
    ensures Parse(b[pos..]) == []
  {
    if |b| - pos >= HEADER_BYTES {
      DropSlice(b, pos, INDEX_BYTES, HEADER_BYTES);
    }
  }

  /** Writing one more frame. */
  lemma WriteGoesOn(c: Codec, start: nat, entries: seq<LogEntry>, k: nat)
    requires k < |entries|
    ensures var all := Framed(start, Payloads(c, entries)); var payload := c.encode(entries[k]);
            EncodeAll(all[..k + 1])
            == EncodeAll(all[..k]) + (EncodeBE(start + k, INDEX_BYTES) + EncodeBE(|payload|, LENGTH_BYTES) + payload)
  {
    hide EncodeBE, EncodeAll;
    var all := Framed(start, Payloads(c, entries));
    EncodeConcat(all[..k], [all[k]]);
    assert all[..k + 1] == all[..k] + [all[k]];
    EncodeOne(all[k]);
  }

  lemma EncodeOne(f: Raw)
    ensures EncodeAll([f]) == EncodeFrame(f)
  {
    hide EncodeFrame;
    assert EncodeAll([f]) == EncodeFrame(f) + EncodeAll([f][1..]);
  }

  /** The frames of new entries, written one after another. */
  method WriteFrames(c: Codec, start: nat, entries: seq<LogEntry>) returns (written: Bytes)
    ensures written == EncodeAll(Framed(start, Payloads(c, entries)))
  {
    hide EncodeBE, Framed, Payloads;
    written := [];
    var index := start;
    for k := 0 to |entries|
      invariant index == start + k
      invariant written == EncodeAll(Framed(start, Payloads(c, entries))[..k])
    {
      WriteGoesOn(c, start, entries, k);
      var serialized := c.encode(entries[k]);
      written := written + (EncodeBE(index, INDEX_BYTES) + EncodeBE(|serialized|, LENGTH_BYTES) + serialized);
      index := index + 1;
    }
    assert Framed(start, Payloads(c, entries))[..|entries|] == Framed(start, Payloads(c, entries));
  }

  // ----- The log file -----

  /** Entries read so far, followed by what the rest of the file gives. */
  function After(entries: seq<LogEntry>, rest: Option<seq<LogEntry>>): Option<seq<LogEntry>> {
    match rest
    case None => None
    case Some(es) => Some(entries + es)
  }

  lemma RestSofar(c: Codec, b: Bytes, entries: seq<LogEntry>)
    requires entries == []
    ensures RestoreBytes(c, b) == After(entries, RestoreBytes(c, b))
  {
    hide Parse, DecodeAll;
    if RestoreBytes(c, b).Some? {
      assert entries + RestoreBytes(c, b).value == RestoreBytes(c, b).value;
    }
  }

  lemma DecodeStep(c: Codec, f: Raw, rest: seq<Raw>, entries: seq<LogEntry>)
    ensures After(entries, DecodeAll(c, [f] + rest))
         == match c.decode(f.body)
            case None => None
            case Some(e) => After(entries + [e], DecodeAll(c, rest))
  {
    assert ([f] + rest)[1..] == rest;
    if c.decode(f.body).Some? && DecodeAll(c, rest).Some? {
      var e, es := c.decode(f.body).value, DecodeAll(c, rest).value;
      assert entries + ([e] + es) == entries + [e] + es;
    }
  }

  datatype Restored = Missing | Corrupt | Restored(entries: seq<LogEntry>)

  /** What a store answers for its log: no log at all, an error, or entries. */
  function ReadBack(c: Codec, log: Option<Bytes>): Restored {
    match log
    case None => Missing
    case Some(b) => match RestoreBytes(c, b)
                    case None => Corrupt
                    case Some(es) => Restored.Restored(es)
  }

  /** Read frames until one is missing or torn; None is a decoding error. */
  method ReadFrames(c: Codec, bytes: Bytes) returns (r: Option<seq<LogEntry>>)
    ensures r == RestoreBytes(c, bytes)
  {
    hide Parse;
    var pos := 0;
    var entries: seq<LogEntry> := [];
    assert bytes[0..] == bytes;
    RestSofar(c, bytes, entries);
    while true
      invariant pos <= |bytes|
      invariant RestoreBytes(c, bytes) == After(entries, RestoreBytes(c, bytes[pos..]))
      decreases |bytes| - pos
    {
      if |bytes| - pos < HEADER_BYTES {
        break;
      }
      var length := DecodeBE(bytes[pos + INDEX_BYTES..pos + HEADER_BYTES]);
      if |bytes| - pos < HEADER_BYTES + length {
        break;
      }
      ParseGoesOn(bytes, pos, length);
      var next := pos + HEADER_BYTES + length;
      var buf := bytes[pos + HEADER_BYTES..next];
      DecodeStep(c, Frame(DecodeBE(bytes[pos..pos + INDEX_BYTES]), buf), Parse(bytes[next..]), entries);
      match c.decode(buf) {
        case None => return None;
        case Some(e) => entries := entries + [e];
      }
      pos := next;
    }
    ParseStops(bytes, pos);
    assert entries + [] == entries;
    return Some(entries);
  }

  class FileLog {
    const codec: Codec
    /** None while the file does not exist. */
    var file: Option<Bytes>

    constructor (codec: Codec)
      ensures this.codec == codec && file == None
    {
      this.codec := codec;
      file := None;
    }

    /** Scan the frames for the one to overwrite; a torn frame ends the scan. */
    method FindStart(start: nat) returns (pos: nat)
      ensures pos == ScanEnd(file.GetOr([]), start)
    {
      hide ScanEnd;
      var bytes := file.GetOr([]);
      pos := 0;
      assert bytes[0..] == bytes;
      while true
        invariant pos <= |bytes|
        invariant pos + ScanEnd(bytes[pos..], start) == ScanEnd(bytes, start)
        decreases |bytes| - pos
      {
        if |bytes| - pos < INDEX_BYTES
           || DecodeBE(bytes[pos..pos + INDEX_BYTES]) == start
           || |bytes| - pos < HEADER_BYTES {
          break;
        }
        var length := DecodeBE(bytes[pos + INDEX_BYTES..pos + HEADER_BYTES]);
        if |bytes| - pos < HEADER_BYTES + length {
          break;
        }
        ScanGoesOn(bytes, pos, start, length);
        pos := pos + HEADER_BYTES + length;
      }
      ScanStops(bytes, pos, start);
    }

    /** Find where to write, cut the file there, write frame by frame. */
    method StoreLogEntries(start: nat, entries: seq<LogEntry>)
      modifies this
      ensures file == Some(StoreBytes(old(file).GetOr([]), start, Payloads(codec, entries)))
    {
      var truncateAt := FindStart(start);
      var kept := file.GetOr([])[..truncateAt];
      var written := WriteFrames(codec, start, entries);
      file := Some(kept + written);
    }

    method RestoreLogEntries() returns (r: Restored)
      ensures r == ReadBack(codec, file)
    {
      if file.None? { return Missing; }
      var entries := ReadFrames(codec, file.value);
      return if entries.None? then Corrupt else Restored.Restored(entries.value);
    }

    /** Emptying the log; an error when the file does not exist. */
    method TruncateLog() returns (ok: bool)
      modifies this
      ensures ok == old(file).Some?
      ensures file == if ok then Some([]) else None
    {
      if file.None? { return false; }
      file := Some([]);
      return true;
    }
  }
}
