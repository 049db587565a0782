/** The byte framing of the log: an index of eight bytes, a length of four, both big-endian, and a payload. */
module Framing {
  import opened RaftTypes
  import opened Frames

  // ----- Fixed-width big-endian numbers -----

  function Pow256(w: nat): (r: nat)
    ensures r > 0
  {
    if w == 0 then 1 else 256 * Pow256(w - 1)
  }

  /** The low `w` bytes of n, most significant first. */
  function EncodeBE(n: nat, w: nat): (r: Bytes)
    ensures |r| == w
    decreases w
  {
    if w == 0 then [] else EncodeBE(n / 256, w - 1) + [(n % 256) as byte]
  }

  function DecodeBE(b: Bytes): nat {
    if b == [] then 0 else DecodeBE(b[..|b| - 1]) * 256 + b[|b| - 1] as nat
  }

  lemma {:induction false} DecodeBound(b: Bytes)
    ensures DecodeBE(b) < Pow256(|b|)
  {
    if b != [] {
      DecodeBound(b[..|b| - 1]);
    }
  }

  lemma {:induction false} DecodeEncode(n: nat, w: nat)
    requires n < Pow256(w)
    ensures DecodeBE(EncodeBE(n, w)) == n
    decreases w
  {
    if w > 0 {
      DecodeEncode(n / 256, w - 1);
      var b := EncodeBE(n, w);
      assert b[..w - 1] == EncodeBE(n / 256, w - 1);
    }
  }

  lemma {:induction false} EncodeDecode(b: Bytes)
    ensures EncodeBE(DecodeBE(b), |b|) == b
  {
    if b != [] {
      EncodeDecode(b[..|b| - 1]);
      assert b == b[..|b| - 1] + [b[|b| - 1]];
    }
  }

  const INDEX_BYTES: nat := 8
  const LENGTH_BYTES: nat := 4
  const HEADER_BYTES: nat := 12

  // ----- Frames -----

  type Raw = Frame<Bytes>

  ghost predicate Fits(f: Raw) {
    f.index < Pow256(INDEX_BYTES) && |f.body| < Pow256(LENGTH_BYTES)
  }

  ghost predicate AllFit(fs: seq<Raw>) {
    forall k :: 0 <= k < |fs| ==> Fits(fs[k])
  }

  function Size(f: Raw): nat {
    HEADER_BYTES + |f.body|
  }

  function EncodeFrame(f: Raw): (r: Bytes)
    ensures |r| == Size(f)
  {
    EncodeBE(f.index, INDEX_BYTES) + EncodeBE(|f.body|, LENGTH_BYTES) + f.body
  }

  function EncodeAll(fs: seq<Raw>): Bytes {
    if fs == [] then [] else EncodeFrame(fs[0]) + EncodeAll(fs[1..])
  }

  /** The frame at the front of b, if it is whole. */
  function FirstFrame(b: Bytes): Option<Raw> {
    if |b| < HEADER_BYTES then None
    else
      var length := DecodeBE(b[INDEX_BYTES..HEADER_BYTES]);
      if |b| < HEADER_BYTES + length then None
      else Some(Frame(DecodeBE(b[..INDEX_BYTES]), b[HEADER_BYTES..HEADER_BYTES + length]))
  }

  /** The whole frames at the front of b, up to the first torn one. */
  function Parse(b: Bytes): seq<Raw>
    decreases |b|
  {
    match FirstFrame(b)
    case None => []
    case Some(f) => [f] + Parse(b[Size(f)..])
  }

  /** A whole frame is the encoding of what is read from it. */
  lemma FirstFrameIs(b: Bytes)
    requires FirstFrame(b).Some?
    ensures var f := FirstFrame(b).value; Fits(f) && Size(f) <= |b| && b[..Size(f)] == EncodeFrame(f)
  {
    var f := FirstFrame(b).value;
    DecodeBound(b[..INDEX_BYTES]);
    DecodeBound(b[INDEX_BYTES..HEADER_BYTES]);
    EncodeDecode(b[..INDEX_BYTES]);
    EncodeDecode(b[INDEX_BYTES..HEADER_BYTES]);
    var i, l, p := b[..INDEX_BYTES], b[INDEX_BYTES..HEADER_BYTES], b[HEADER_BYTES..Size(f)];
    assert b[..Size(f)] == i + l + p;
  }

  /** An encoded frame is read back whatever follows it. */
  lemma ReadsBack(f: Raw, rest: Bytes)
    requires Fits(f)
    ensures FirstFrame(EncodeFrame(f) + rest) == Some(f)
  {
    var b := EncodeFrame(f) + rest;
    var i, l := EncodeBE(f.index, INDEX_BYTES), EncodeBE(|f.body|, LENGTH_BYTES);
    assert b[..INDEX_BYTES] == i;
    assert b[INDEX_BYTES..HEADER_BYTES] == l;
    assert b[HEADER_BYTES..Size(f)] == f.body;
    DecodeEncode(f.index, INDEX_BYTES);
    DecodeEncode(|f.body|, LENGTH_BYTES);
  }

  lemma ParseCons(f: Raw, rest: Bytes)
    requires Fits(f)
    ensures Parse(EncodeFrame(f) + rest) == [f] + Parse(rest)
  {
    ReadsBack(f, rest);
    hide FirstFrame, EncodeFrame, EncodeBE;
    assert (EncodeFrame(f) + rest)[Size(f)..] == rest;
  }

  lemma {:induction false} ParseConcat(fs: seq<Raw>, rest: Bytes)
    requires AllFit(fs)
    ensures Parse(EncodeAll(fs) + rest) == fs + Parse(rest)
  {
    hide Parse, EncodeFrame;
    if fs == [] {
      assert EncodeAll(fs) + rest == rest;
      assert fs + Parse(rest) == Parse(rest);
    } else {
      var tail := EncodeAll(fs[1..]) + rest;
      assert EncodeAll(fs) + rest == EncodeFrame(fs[0]) + tail;
      ParseCons(fs[0], tail);
      ParseConcat(fs[1..], rest);
      assert fs + Parse(rest) == [fs[0]] + (fs[1..] + Parse(rest));
    }
  }

  /** Round trip: a written file parses to exactly its frames. */
  lemma ParseEncodeAll(fs: seq<Raw>)
    requires AllFit(fs)
    ensures Parse(EncodeAll(fs)) == fs
  {
    ParseConcat(fs, []);
    assert EncodeAll(fs) + [] == EncodeAll(fs);
  }

  lemma {:induction false} EncodeConcat(a: seq<Raw>, b: seq<Raw>)
    ensures EncodeAll(a + b) == EncodeAll(a) + EncodeAll(b)
  {
    if a == [] {
      assert a + b == b;
    } else {
      assert (a + b)[1..] == a[1..] + b;
      EncodeConcat(a[1..], b);
    }
  }

  lemma {:induction false} ParseFits(b: Bytes)
    ensures AllFit(Parse(b))
    decreases |b|
  {
    if FirstFrame(b).Some? {
      FirstFrameIs(b);
      ParseFits(b[Size(FirstFrame(b).value)..]);
    }
  }

  /** Torn files: cutting any file anywhere, as a crash may, leaves a prefix of its frames. */
  lemma {:induction false} TornParse(b: Bytes, k: nat)
    requires k <= |b|
    ensures Parse(b[..k]) <= Parse(b)
    decreases |b|
  {
    var cut := b[..k];
    if FirstFrame(cut).Some? {
      var f := FirstFrame(cut).value;
      assert cut[..INDEX_BYTES] == b[..INDEX_BYTES];
      assert cut[INDEX_BYTES..HEADER_BYTES] == b[INDEX_BYTES..HEADER_BYTES];
      assert cut[HEADER_BYTES..Size(f)] == b[HEADER_BYTES..Size(f)];
      assert FirstFrame(b) == Some(f);
      assert cut[Size(f)..] == b[Size(f)..][..k - Size(f)];
      TornParse(b[Size(f)..], k - Size(f));
    }
  }

  /** And exactly the frames that lie wholly before the cut survive. */
  lemma TornKeepsWhole(fs: seq<Raw>, j: nat, k: nat)
    requires AllFit(fs) && j <= |fs| && |EncodeAll(fs[..j])| <= k <= |EncodeAll(fs)|
    ensures fs[..j] <= Parse(EncodeAll(fs)[..k]) <= fs
  {
    hide EncodeAll, Parse;
    var b := EncodeAll(fs);
    EncodeConcat(fs[..j], fs[j..]);
    assert fs[..j] + fs[j..] == fs;
    var head := EncodeAll(fs[..j]);
    assert b[..k] == head + b[..k][|head|..];
    ParseConcat(fs[..j], b[..k][|head|..]);
    ParseEncodeAll(fs);
    TornParse(b, k);
  }

  // ----- Finding where to write -----

  /** The scan of the log file: stop at the frame to overwrite, at a torn frame, or at the end. */
  function ScanEnd(b: Bytes, index: nat): (pos: nat)
    ensures pos <= |b|
    decreases |b|
  {
    if |b| < INDEX_BYTES || DecodeBE(b[..INDEX_BYTES]) == index then 0
    else match FirstFrame(b)
         case None => 0
         case Some(f) => Size(f) + ScanEnd(b[Size(f)..], index)
  }

  /** What lies before the scan's end is exactly the whole frames before the index sought. */
  lemma {:induction false} ScanEndIs(b: Bytes, index: nat)
    ensures b[..ScanEnd(b, index)] == EncodeAll(Parse(b)[..Position(Parse(b), index)])
    decreases |b|
  {
    if |b| >= INDEX_BYTES && DecodeBE(b[..INDEX_BYTES]) != index && FirstFrame(b).Some? {
      var f := FirstFrame(b).value;
      FirstFrameIs(b);
      var rest := b[Size(f)..];
      ScanEndIs(rest, index);
      ScanEndStep(b, f, rest, index);
    }
  }

  lemma ScanEndStep(b: Bytes, f: Raw, rest: Bytes, index: nat)
    requires FirstFrame(b) == Some(f) && Size(f) <= |b| && b[..Size(f)] == EncodeFrame(f) && rest == b[Size(f)..]
    requires |b| >= INDEX_BYTES && DecodeBE(b[..INDEX_BYTES]) != index && f.index != index
    requires rest[..ScanEnd(rest, index)] == EncodeAll(Parse(rest)[..Position(Parse(rest), index)])
    ensures b[..ScanEnd(b, index)] == EncodeAll(Parse(b)[..Position(Parse(b), index)])
  {
    hide FirstFrame, EncodeFrame, DecodeBE;
    var pos, k := ScanEnd(rest, index), Position(Parse(rest), index);
    PositionLater(f, Parse(rest), index);
    TakeFurther(b, Size(f), pos);
    EncodeFirst(f, Parse(rest)[..k]);
    TakeOneMore(f, Parse(rest), k);
  }

  lemma PositionLater(f: Raw, fs: seq<Raw>, index: nat)
    requires f.index != index
    ensures Position([f] + fs, index) == Position(fs, index) + 1
  {
    assert ([f] + fs)[1..] == fs;
  }

  lemma TakeFurther(b: Bytes, i: nat, j: nat)
    requires i + j <= |b|
    ensures b[..i + j] == b[..i] + b[i..][..j]
  {
  }

  lemma TakeOneMore(f: Raw, fs: seq<Raw>, k: nat)
    requires k <= |fs|
    ensures ([f] + fs)[..k + 1] == [f] + fs[..k]
  {
  }

  lemma EncodeFirst(f: Raw, fs: seq<Raw>)
    ensures EncodeAll([f] + fs) == EncodeFrame(f) + EncodeAll(fs)
  {
    hide EncodeFrame;
    assert ([f] + fs)[1..] == fs;
  }

  /** The file after storing payloads from index `start` on. */
  function StoreBytes(b: Bytes, start: nat, payloads: seq<Bytes>): Bytes {
    b[..ScanEnd(b, start)] + EncodeAll(Framed(start, payloads))
  }

  /** Storing on any file, torn or not: the whole frames before `start`, then the new ones, and nothing else. */
  lemma StoreParse(b: Bytes, start: nat, payloads: seq<Bytes>)
    requires AllFit(Framed(start, payloads))
    ensures var kept := Parse(b)[..Position(Parse(b), start)];
            && StoreBytes(b, start, payloads) == EncodeAll(kept + Framed(start, payloads))
            && Parse(StoreBytes(b, start, payloads)) == kept + Framed(start, payloads)
  {
    var kept := Parse(b)[..Position(Parse(b), start)];
    ScanEndIs(b, start);
    ParseFits(b);
    EncodeConcat(kept, Framed(start, payloads));
    ParseEncodeAll(kept + Framed(start, payloads));
  }
}
