/** Framing of log and snapshot files (dlq/wal_codec.go): little-endian integers, the
    32-byte file header and checksummed frames. The checksum is a parameter: nothing
    proved here depends on which function it is. */
module Frames {
  import opened Records
  import opened Chunks

  type Checksum = Bytes -> nat

  // ---- little-endian integers ----

  function Pow256(n: nat): nat {
    if n == 0 then 1 else 256 * Pow256(n - 1)
  }

  function PutLE(v: nat, n: nat): (b: Bytes)
    ensures |b| == n
    decreases n
  {
    if n == 0 then [] else [v % 256] + PutLE(v / 256, n - 1)
  }

  function GetLE(b: Bytes): nat {
    if b == [] then 0 else b[0] + 256 * GetLE(b[1..])
  }

  lemma {:induction false} LERoundTrip(v: nat, n: nat)
    requires v < Pow256(n)
    ensures GetLE(PutLE(v, n)) == v
    decreases n
  {
    if n > 0 {
      LERoundTrip(v / 256, n - 1);
    }
  }

  lemma PowersOf256()
    ensures Pow256(4) == TWO_32 && Pow256(8) == TWO_64
  {
    assert Pow256(2) == 0x1_0000;
    assert Pow256(4) == TWO_32;
    assert Pow256(6) == 0x1_0000_0000_0000;
  }

  /** A checksum stored in four bytes. */
  function Sum32(crc: Checksum, b: Bytes): (c: nat)
    ensures c < TWO_32
  {
    crc(b) % TWO_32
  }

  // ---- frames ----

  const FRAME_OVERHEAD := 8 // length and checksum
  const FRAME_META := 9     // LSN and type

  datatype Frame = Frame(lsn: nat, typ: byte, body: Bytes)

  function Payload(f: Frame): Bytes {
    PutLE(f.lsn, 8) + [f.typ] + f.body
  }

  function PutFrame(crc: Checksum, f: Frame): (b: Bytes)
    ensures |b| == FRAME_OVERHEAD + FRAME_META + |f.body|
  {
    var len := PutLE(FRAME_META + |f.body|, 4);
    len + PutLE(Sum32(crc, len + Payload(f)), 4) + Payload(f)
  }

  /** readFrame: the next frame of what is left of a file. */
  function GetFrame(crc: Checksum, b: Bytes, maxEntry: nat): (r: ReadResult<Frame>)
    ensures r.Read? ==> FRAME_OVERHEAD + FRAME_META <= r.size <= |b|
  {
    if b == [] then EndOfFile
    else if |b| < FRAME_OVERHEAD then Torn
    else
      var length := GetLE(b[..4]);
      if length < FRAME_META || length > maxEntry + FRAME_META then Damaged
      else if length > |b| - FRAME_OVERHEAD then Torn
      else
        var payload := b[8..8 + length];
        if Sum32(crc, b[..4] + payload) != GetLE(b[4..8]) then Damaged
        else Read(Frame(GetLE(payload[..8]), payload[8], payload[9..]), FRAME_OVERHEAD + length)
  }

  predicate FrameOk(f: Frame, maxEntry: nat) {
    f.lsn < TWO_64 && |f.body| <= maxEntry && maxEntry + FRAME_META < TWO_32
  }

  lemma FrameRoundTrip(crc: Checksum, f: Frame, rest: Bytes, maxEntry: nat)
    requires FrameOk(f, maxEntry)
    ensures GetFrame(crc, PutFrame(crc, f) + rest, maxEntry) == Read(f, |PutFrame(crc, f)|)
  {
    var b := PutFrame(crc, f) + rest;
    var len, pay := PutLE(FRAME_META + |f.body|, 4), Payload(f);
    var sum := PutLE(Sum32(crc, len + pay), 4);
    PowersOf256();
    LERoundTrip(FRAME_META + |f.body|, 4);
    LERoundTrip(Sum32(crc, len + pay), 4);
    LERoundTrip(f.lsn, 8);
    assert b[..4] == len && b[4..8] == sum && b[8..8 + |pay|] == pay;
    assert pay[..8] == PutLE(f.lsn, 8) && pay[9..] == f.body;
  }

  /** A frame cut anywhere inside reads as torn, never as something else. */
  lemma FrameCutIsTorn(crc: Checksum, f: Frame, k: nat, maxEntry: nat)
    requires FrameOk(f, maxEntry) && 0 < k < |PutFrame(crc, f)|
    ensures GetFrame(crc, PutFrame(crc, f)[..k], maxEntry) == Torn
  {
    if k >= FRAME_OVERHEAD {
      PowersOf256();
      LERoundTrip(FRAME_META + |f.body|, 4);
      assert PutFrame(crc, f)[..k][..4] == PutLE(FRAME_META + |f.body|, 4);
    }
  }

  // ---- runs of frames ----

  function Encoded(crc: Checksum, fs: seq<Frame>): (bs: seq<Bytes>)
    ensures |bs| == |fs|
    ensures forall i :: 0 <= i < |fs| ==> bs[i] == PutFrame(crc, fs[i])
  {
    seq(|fs|, i requires 0 <= i < |fs| => PutFrame(crc, fs[i]))
  }

  function PutFrames(crc: Checksum, fs: seq<Frame>): Bytes {
    Join(Encoded(crc, fs))
  }

  function Reader(crc: Checksum, maxEntry: nat): (read: Bytes -> ReadResult<Frame>)
    ensures forall b :: read(b) == GetFrame(crc, b, maxEntry)
  {
    b => GetFrame(crc, b, maxEntry)
  }

  /** Every frame of a file up to the first that does not read. */
  function GetFrames(crc: Checksum, b: Bytes, maxEntry: nat): Scan<Frame> {
    ScanWith(Reader(crc, maxEntry), b)
  }

  predicate FramesOk(fs: seq<Frame>, maxEntry: nat) { forall f <- fs :: FrameOk(f, maxEntry) }

  /** How many of the frames lie wholly in the first cut bytes. */
  function WholeFrames(crc: Checksum, fs: seq<Frame>, cut: nat): (n: nat)
    ensures n <= |fs|
  {
    Whole(Encoded(crc, fs), cut)
  }

  lemma FramesRead(crc: Checksum, fs: seq<Frame>, maxEntry: nat)
    requires FramesOk(fs, maxEntry)
    ensures var bs, read := Encoded(crc, fs), Reader(crc, maxEntry);
            && (forall i :: 0 <= i < |fs| ==> Reads(read, bs[i], fs[i]))
            && read([]) == EndOfFile
            && (forall i, k :: 0 <= i < |fs| && 0 < k < |bs[i]| ==> read(bs[i][..k]) == Torn)
  {
    var bs, read := Encoded(crc, fs), Reader(crc, maxEntry);
    forall i | 0 <= i < |fs| ensures Reads(read, bs[i], fs[i]) {
      forall rest: Bytes ensures read(bs[i] + rest) == Read(fs[i], |bs[i]|) {
        FrameRoundTrip(crc, fs[i], rest, maxEntry);
      }
    }
    forall i, k | 0 <= i < |fs| && 0 < k < |bs[i]| ensures read(bs[i][..k]) == Torn {
      FrameCutIsTorn(crc, fs[i], k, maxEntry);
    }
  }

  lemma EncodedTake(crc: Checksum, fs: seq<Frame>, n: nat)
    requires n <= |fs|
    ensures Encoded(crc, fs[..n]) == Encoded(crc, fs)[..n]
  {
  }

  /** Reading a run of frames cut at any byte yields exactly the whole frames before
      the cut, then the end of the file at a frame boundary and a torn frame elsewhere. */
  lemma CutFramesRead(crc: Checksum, fs: seq<Frame>, cut: nat, maxEntry: nat)
    requires FramesOk(fs, maxEntry) && cut <= |PutFrames(crc, fs)|
    ensures var n := WholeFrames(crc, fs, cut);
            |PutFrames(crc, fs[..n])| <= cut &&
            GetFrames(crc, PutFrames(crc, fs)[..cut], maxEntry) ==
            Scan(fs[..n], if cut == |PutFrames(crc, fs[..n])| then EndOfFile else Torn)
  {
    FramesRead(crc, fs, maxEntry);
    EncodedTake(crc, fs, WholeFrames(crc, fs, cut));
    CutScan(Reader(crc, maxEntry), Encoded(crc, fs), fs, cut);
  }

  // ---- file headers ----

  const HEADER_SIZE := 32
  const FORMAT_VERSION := 1
  const WAL_MAGIC: Bytes := [71, 71, 85, 65, 82, 68, 87, 76]
  const SNAP_MAGIC: Bytes := [71, 71, 85, 65, 82, 68, 83, 78]

  function HeaderPrefix(magic: Bytes, lsn: nat): (b: Bytes)
    requires |magic| == 8
    ensures |b| == 24
  {
    magic + PutLE(FORMAT_VERSION, 4) + PutLE(0, 4) + PutLE(lsn, 8)
  }

  function PutHeader(crc: Checksum, magic: Bytes, lsn: nat): (b: Bytes)
    requires |magic| == 8
    ensures |b| == HEADER_SIZE
  {
    var p := HeaderPrefix(magic, lsn);
    p + PutLE(Sum32(crc, p), 4) + PutLE(0, 4)
  }

  /** The LSN a header names, or nothing if it is short, foreign or damaged. Unsigned
      files only: any flag is unknown. */
  function GetHeader(crc: Checksum, h: Bytes, magic: Bytes): Option<nat> {
    if |h| < HEADER_SIZE || h[..8] != magic || GetLE(h[24..28]) != Sum32(crc, h[..24]) ||
       GetLE(h[8..12]) != FORMAT_VERSION || GetLE(h[12..16]) != 0
    then None
    else Some(GetLE(h[16..24]))
  }

  lemma HeaderParts(magic: Bytes, lsn: nat)
    requires |magic| == 8
    ensures var p := HeaderPrefix(magic, lsn);
            && p[..8] == magic && p[8..12] == PutLE(FORMAT_VERSION, 4) && p[12..16] == PutLE(0, 4)
            && p[16..24] == PutLE(lsn, 8)
  {
    hide PutLE;
  }

  lemma HeaderNumbers(lsn: nat, sum: nat)
    requires lsn < TWO_64 && sum < TWO_32
    ensures GetLE(PutLE(FORMAT_VERSION, 4)) == FORMAT_VERSION && GetLE(PutLE(0, 4)) == 0
    ensures GetLE(PutLE(lsn, 8)) == lsn && GetLE(PutLE(sum, 4)) == sum
  {
    PowersOf256();
    LERoundTrip(FORMAT_VERSION, 4);
    LERoundTrip(0, 4);
    LERoundTrip(lsn, 8);
    LERoundTrip(sum, 4);
  }

  lemma SlicePrefix(p: Bytes, b: Bytes, i: nat, j: nat)
    requires i <= j <= |p|
    ensures (p + b)[i..j] == p[i..j]
  {
  }

  lemma HeaderRoundTrip(crc: Checksum, magic: Bytes, lsn: nat, rest: Bytes)
    requires |magic| == 8 && lsn < TWO_64
    ensures GetHeader(crc, PutHeader(crc, magic, lsn) + rest, magic) == Some(lsn)
  {
    var p := HeaderPrefix(magic, lsn);
    var sum := PutLE(Sum32(crc, p), 4);
    var b := sum + (PutLE(0, 4) + rest);
    HeaderNumbers(lsn, Sum32(crc, p));
    HeaderParts(magic, lsn);
    hide PutLE, GetLE, HeaderPrefix, Sum32;
    assert PutHeader(crc, magic, lsn) + rest == p + b;
    assert (p + b)[..24] == p && (p + b)[24..28] == sum;
    SlicePrefix(p, b, 0, 8);
    SlicePrefix(p, b, 8, 12);
    SlicePrefix(p, b, 12, 16);
    SlicePrefix(p, b, 16, 24);
  }
}
