/** The bytes of the log (dlq/wal_codec.go), said without the code that writes or reads them:
    base-128 varints, little-endian integers, where the parts of a frame and of a file header
    lie. A frame or header reads exactly if those bytes are the ones that would be written. */
module Formats {
  import opened Records
  import opened Codec
  import opened Chunks
  import opened Frames

  // ---- integers ----

  /** The value of groups of seven bits, the lowest first. */
  function Base128(b: Bytes): nat {
    if b == [] then 0 else b[0] % 128 + 128 * Base128(b[1..])
  }

  /** A varint: the value in base 128, every byte but the last marked, and no longer than
      needed. */
  lemma {:induction false} UvarintIs(v: nat)
    ensures var b := PutUvarint(v);
            && Base128(b) == v && b[|b| - 1] < 128 && (forall i :: 0 <= i < |b| - 1 ==> b[i] >= 128)
            && (|b| > 1 ==> b[|b| - 1] != 0)
  {
    if v >= 128 {
      var b, rest := PutUvarint(v), PutUvarint(v / 128);
      UvarintIs(v / 128);
      assert b == [v % 128 + 128] + rest && b[1..] == rest;
      assert rest[|rest| - 1] != 0 by {
        if |rest| == 1 { assert rest == [v / 128]; }
      }
      forall i | 0 <= i < |b| - 1 ensures b[i] >= 128 {
        if i > 0 { assert b[i] == rest[i - 1]; }
      }
    } else {
      assert PutUvarint(v)[1..] == [];
    }
  }

  /** Shifted right by i bytes. */
  function Shifted(v: nat, i: nat): nat {
    if i == 0 then v else Shifted(v, i - 1) / 256
  }

  /** Byte number i of a little-endian integer. */
  lemma {:induction false} LittleEndian(v: nat, n: nat, i: nat)
    requires i < n
    ensures PutLE(v, n)[i] == Shifted(v, i) % 256
    decreases n
  {
    if i > 0 {
      LittleEndian(v / 256, n - 1, i - 1);
      ShiftedFirst(v, i);
    }
  }

  lemma {:induction false} ShiftedFirst(v: nat, i: nat)
    requires i > 0
    ensures Shifted(v, i) == Shifted(v / 256, i - 1)
  {
    if i > 1 {
      ShiftedFirst(v, i - 1);
    }
  }

  lemma {:induction false} LEUnique(b: Bytes)
    ensures GetLE(b) < Pow256(|b|) && PutLE(GetLE(b), |b|) == b
  {
    if b != [] {
      LEUnique(b[1..]);
      assert GetLE(b) % 256 == b[0] && GetLE(b) / 256 == GetLE(b[1..]);
    }
  }

  // ---- frames ----

  /** Where the parts of a frame lie: length, checksum of length and payload, number, type
      and body. */
  lemma FrameLayout(crc: Checksum, f: Frame)
    ensures var b := PutFrame(crc, f);
            && b[0..4] == PutLE(9 + |f.body|, 4) && b[4..8] == PutLE(crc(b[0..4] + b[8..]) % TWO_32, 4)
            && b[8..16] == PutLE(f.lsn, 8) && b[16] == f.typ && b[17..] == f.body && |b| == 17 + |f.body|
  {
    hide PutLE;
    var b, len, pay := PutFrame(crc, f), PutLE(FRAME_META + |f.body|, 4), Payload(f);
    assert b[0..4] == len && b[8..] == pay;
  }

  /** A frame reads exactly if its bytes are what writing it gives, and it keeps the entry
      limit: nothing else is ever taken for a frame. */
  lemma FrameReadsIff(crc: Checksum, b: Bytes, maxEntry: nat, f: Frame, size: nat)
    requires maxEntry + FRAME_META < TWO_32
    ensures GetFrame(crc, b, maxEntry) == Read(f, size) <==>
              && f.lsn < TWO_64 && |f.body| <= maxEntry
              && size == |PutFrame(crc, f)| <= |b| && b[..size] == PutFrame(crc, f)
  {
    if GetFrame(crc, b, maxEntry) == Read(f, size) {
      ReadWritten(crc, b, maxEntry);
    }
    if f.lsn < TWO_64 && |f.body| <= maxEntry && size == |PutFrame(crc, f)| <= |b| && b[..size] == PutFrame(crc, f) {
      hide GetFrame, PutFrame;
      assert b == PutFrame(crc, f) + b[size..];
      FrameRoundTrip(crc, f, b[size..], maxEntry);
    }
  }

  lemma ReadWritten(crc: Checksum, b: Bytes, maxEntry: nat)
    requires maxEntry + FRAME_META < TWO_32 && GetFrame(crc, b, maxEntry).Read?
    ensures var r := GetFrame(crc, b, maxEntry);
            && r.item.lsn < TWO_64 && |r.item.body| <= maxEntry
            && r.size == |PutFrame(crc, r.item)| && b[..r.size] == PutFrame(crc, r.item)
  {
    var r := GetFrame(crc, b, maxEntry);
    var f, length := r.item, GetLE(b[..4]);
    var payload := b[8..8 + length];
    PowersOf256();
    LEUnique(b[..4]);
    LEUnique(b[4..8]);
    LEUnique(payload[..8]);
    hide PutLE, GetLE;
    assert Payload(f) == payload;
    assert b[..r.size] == b[..4] + b[4..8] + payload;
  }

  // ---- file headers ----

  /** A file header names an LSN exactly if all of it up to the reserved bytes is what would
      be written for that LSN. */
  lemma HeaderReadsIff(crc: Checksum, magic: Bytes, h: Bytes, lsn: nat)
    requires |magic| == 8
    ensures GetHeader(crc, h, magic) == Some(lsn) <==>
              lsn < TWO_64 && |h| >= HEADER_SIZE && h[..28] == PutHeader(crc, magic, lsn)[..28]
  {
    hide GetHeader, PutLE, GetLE, Sum32, HeaderPrefix;
    var p := HeaderPrefix(magic, lsn);
    assert PutHeader(crc, magic, lsn)[..28] == p + PutLE(Sum32(crc, p), 4);
    if GetHeader(crc, h, magic) == Some(lsn) {
      HeaderWritten(crc, magic, h);
    }
    if lsn < TWO_64 && |h| >= HEADER_SIZE && h[..28] == p + PutLE(Sum32(crc, p), 4) {
      WrittenHeader(crc, magic, h, lsn, p);
    }
  }

  lemma WrittenHeader(crc: Checksum, magic: Bytes, h: Bytes, lsn: nat, p: Bytes)
    requires |magic| == 8 && lsn < TWO_64 && |h| >= HEADER_SIZE
    requires p == HeaderPrefix(magic, lsn) && h[..28] == p + PutLE(Sum32(crc, p), 4)
    ensures GetHeader(crc, h, magic) == Some(lsn)
  {
    HeaderNumbers(lsn, Sum32(crc, p));
    HeaderParts(magic, lsn);
    hide PutLE, GetLE, HeaderPrefix, Sum32;
    assert h[..24] == h[..28][..24] == p && h[24..28] == h[..28][24..28];
    SameParts(h, p);
  }

  lemma SameParts(h: Bytes, p: Bytes)
    requires |h| >= 24 && |p| == 24 && h[..24] == p
    ensures h[..8] == p[..8] && h[8..12] == p[8..12] && h[12..16] == p[12..16] && h[16..24] == p[16..24]
  {
    assert h[8..12] == h[..24][8..12] && h[12..16] == h[..24][12..16] && h[16..24] == h[..24][16..24];
  }

  lemma HeaderWritten(crc: Checksum, magic: Bytes, h: Bytes)
    requires |magic| == 8 && GetHeader(crc, h, magic).Some?
    ensures |h| >= HEADER_SIZE
    ensures var p := HeaderPrefix(magic, GetHeader(crc, h, magic).value);
            GetHeader(crc, h, magic).value < TWO_64 && h[..28] == p + PutLE(Sum32(crc, p), 4)
  {
    HeaderFacts(crc, magic, h);
    PowersOf256();
    LEUnique(h[8..12]);
    LEUnique(h[12..16]);
    LEUnique(h[16..24]);
    LEUnique(h[24..28]);
    hide PutLE, GetLE, Sum32, GetHeader;
    HeaderSplits(h);
  }

  lemma HeaderFacts(crc: Checksum, magic: Bytes, h: Bytes)
    requires GetHeader(crc, h, magic).Some?
    ensures |h| >= HEADER_SIZE && h[..8] == magic && GetLE(h[24..28]) == Sum32(crc, h[..24])
    ensures GetLE(h[8..12]) == FORMAT_VERSION && GetLE(h[12..16]) == 0 && GetHeader(crc, h, magic) == Some(GetLE(h[16..24]))
  {
    hide GetLE;
  }

  lemma HeaderSplits(h: Bytes)
    requires |h| >= 28
    ensures h[..24] == h[..8] + h[8..12] + h[12..16] + h[16..24] && h[..28] == h[..24] + h[24..28]
  {
  }

  /** Where the parts of a file header lie: magic, version, flags, LSN and the checksum of
      all that. */
  lemma HeaderLayout(crc: Checksum, magic: Bytes, lsn: nat)
    requires |magic| == 8
    ensures var b := PutHeader(crc, magic, lsn);
            && |b| == 32 && b[..8] == magic && b[8..12] == [1, 0, 0, 0] && b[12..16] == [0, 0, 0, 0]
            && b[16..24] == PutLE(lsn, 8) && b[24..28] == PutLE(crc(b[..24]) % TWO_32, 4) && b[28..] == [0, 0, 0, 0]
  {
    var p := HeaderPrefix(magic, lsn);
    var b := PutHeader(crc, magic, lsn);
    HeaderParts(magic, lsn);
    SmallLE();
    hide PutLE, HeaderPrefix;
    assert b[..24] == p;
    assert b[..8] == p[..8] && b[8..12] == p[8..12] && b[12..16] == p[12..16] && b[16..24] == p[16..24];
  }

  lemma SmallLE()
    ensures PutLE(1, 4) == [1, 0, 0, 0] && PutLE(0, 4) == [0, 0, 0, 0]
  {
    assert PutLE(0, 1) == [0];
    assert PutLE(0, 2) == [0, 0];
    assert PutLE(0, 3) == [0, 0, 0];
    assert PutLE(0, 4) == [0, 0, 0, 0];
  }
}
