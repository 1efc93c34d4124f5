/** Which snapshot files are refused (loadSnapshot in dlq/wal_snapshot.go). A snapshot is
    written whole and renamed into place, so anything missing, added or repeated is damage:
    a file cut anywhere, one with bytes after its footer, one whose footer counts wrong and one
    with a record twice. */
module SnapshotDamage {
  import opened Records
  import opened RecordCodec
  import opened Entries
  import opened Chunks
  import opened Frames
  import opened Queues
  import opened SnapshotCodec
  import opened Recovery
  import opened DurableQueue

  function FileOf(o: Options, lsn: nat, recs: seq<Record>, seqNo: nat): Bytes { SnapshotBytes(o.crc, lsn, recs, seqNo) }

  lemma {:induction false} FooterLast(fs: seq<Frame>, q: Queue, count: nat)
    requires LoadFrames(fs, q, count).Some?
    ensures fs != [] && fs[|fs| - 1].typ == SNAP_END && forall i :: 0 <= i < |fs| - 1 ==> fs[i].typ == SNAP_RECORD
    decreases |fs|
  {
    hide GetWholeRecord, GetFooter, Insert;
    if fs[0].typ == SNAP_RECORD {
      var rec := GetWholeRecord(fs[0].body).value;
      FooterLast(fs[1..], Insert(q, rec), count + 1);
    }
  }

  lemma OpensTo(o: Options, b: Bytes, lsn: nat)
    requires HEADER_SIZE <= |b| && GetHeader(o.crc, b, SNAP_MAGIC) == Some(lsn)
    ensures LoadSnapshot(LogFormat(o), File(lsn, b)) ==
              var s := GetFrames(o.crc, b[HEADER_SIZE..], o.maxEntry);
              if s.end.EndOfFile? then LoadFrames(s.items, EMPTY, 0) else None
  {
    hide GetHeader, GetFrames, LoadFrames;
  }

  lemma ShortHeader(o: Options, b: Bytes, lsn: nat)
    requires |b| < HEADER_SIZE
    ensures LoadSnapshot(LogFormat(o), File(lsn, b)) == None
  {
  }

  lemma FooterOnlyLast(recs: seq<Record>, seqNo: nat, n: nat)
    requires n < |SnapshotFrames(recs, seqNo)|
    ensures LoadFrames(SnapshotFrames(recs, seqNo)[..n], EMPTY, 0) == None
  {
    hide LoadFrames, Footer;
    var fs := SnapshotFrames(recs, seqNo);
    forall i | 0 <= i < n ensures fs[..n][i].typ == SNAP_RECORD {
      assert fs[i] == RecordFrame(recs[i]);
    }
    if LoadFrames(fs[..n], EMPTY, 0).Some? {
      FooterLast(fs[..n], EMPTY, 0);
    }
  }

  lemma CutFramesRefused(crc: Checksum, recs: seq<Record>, seqNo: nat, k: nat, maxEntry: nat)
    requires FramesOk(SnapshotFrames(recs, seqNo), maxEntry) && k < |PutFrames(crc, SnapshotFrames(recs, seqNo))|
    ensures var s := GetFrames(crc, PutFrames(crc, SnapshotFrames(recs, seqNo))[..k], maxEntry);
            !s.end.EndOfFile? || LoadFrames(s.items, EMPTY, 0) == None
  {
    hide GetFrames, LoadFrames, SnapshotFrames, FramesOk;
    var fs := SnapshotFrames(recs, seqNo);
    CutFramesRead(crc, fs, k, maxEntry);
    var n := WholeFrames(crc, fs, k);
    WholeShort(Encoded(crc, fs), k);
    FooterOnlyLast(recs, seqNo, n);
  }

  /** No strict prefix of a snapshot loads. */
  lemma CutRefused(o: Options, lsn: nat, recs: seq<Record>, seqNo: nat, cut: nat)
    requires OptionsOk(o) && lsn < TWO_64 && Storable(recs, seqNo, o.maxEntry) && cut < |FileOf(o, lsn, recs, seqNo)|
    ensures LoadSnapshot(LogFormat(o), File(lsn, FileOf(o, lsn, recs, seqNo)[..cut])) == None
  {
    hide GetHeader, PutHeader, GetFrames, LoadFrames, LoadSnapshot, Storable, PutFrames, SnapshotFrames;
    var fs := SnapshotFrames(recs, seqNo);
    var h, body := PutHeader(o.crc, SNAP_MAGIC, lsn), PutFrames(o.crc, fs);
    var b := (h + body)[..cut];
    if cut < HEADER_SIZE {
      ShortHeader(o, b, lsn);
    } else {
      var k := cut - HEADER_SIZE;
      assert b == h + body[..k] && b[HEADER_SIZE..] == body[..k];
      HeaderRoundTrip(o.crc, SNAP_MAGIC, lsn, body[..k]);
      OpensTo(o, b, lsn);
      SnapshotFramesOk(recs, seqNo, o.maxEntry);
      CutFramesRefused(o.crc, recs, seqNo, k, o.maxEntry);
    }
  }

  lemma MoreFrames(crc: Checksum, fs: seq<Frame>, junk: Bytes, maxEntry: nat)
    requires FramesOk(fs, maxEntry)
    ensures var s := GetFrames(crc, junk, maxEntry);
            GetFrames(crc, PutFrames(crc, fs) + junk, maxEntry) == Scan(fs + s.items, s.end)
  {
    FramesRead(crc, fs, maxEntry);
    ScanWhole(Reader(crc, maxEntry), Encoded(crc, fs), fs, junk);
  }

  lemma SomethingReads(crc: Checksum, junk: Bytes, maxEntry: nat)
    requires junk != [] && GetFrames(crc, junk, maxEntry).end.EndOfFile?
    ensures GetFrames(crc, junk, maxEntry).items != []
  {
    hide GetLE;
  }

  /** Nothing may follow the footer. */
  lemma JunkRefused(o: Options, lsn: nat, recs: seq<Record>, seqNo: nat, junk: Bytes)
    requires OptionsOk(o) && lsn < TWO_64 && Storable(recs, seqNo, o.maxEntry) && junk != []
    ensures LoadSnapshot(LogFormat(o), File(lsn, FileOf(o, lsn, recs, seqNo) + junk)) == None
  {
    hide GetHeader, PutHeader, GetFrames, LoadFrames, LoadSnapshot, Storable, PutFrames;
    var fs := SnapshotFrames(recs, seqNo);
    var h, body := PutHeader(o.crc, SNAP_MAGIC, lsn), PutFrames(o.crc, fs);
    var b := h + body + junk;
    assert b == h + (body + junk) && b[HEADER_SIZE..] == body + junk;
    HeaderRoundTrip(o.crc, SNAP_MAGIC, lsn, body + junk);
    OpensTo(o, b, lsn);
    SnapshotFramesOk(recs, seqNo, o.maxEntry);
    MoreFrames(o.crc, fs, junk, o.maxEntry);
    var s := GetFrames(o.crc, junk, o.maxEntry);
    if s.end.EndOfFile? && LoadFrames(fs + s.items, EMPTY, 0).Some? {
      SomethingReads(o.crc, junk, o.maxEntry);
      FooterLast(fs + s.items, EMPTY, 0);
      FooterInside(fs, s.items, recs, seqNo);
    }
  }

  lemma FooterInside(fs: seq<Frame>, more: seq<Frame>, recs: seq<Record>, seqNo: nat)
    requires fs == SnapshotFrames(recs, seqNo) && more != []
    ensures (fs + more)[|fs| - 1].typ == SNAP_END
  {
  }

  lemma LoadsRecord(r: Record, rest: seq<Frame>, q: Queue, count: nat)
    requires RecordOk(r)
    ensures LoadFrames([RecordFrame(r)] + rest, q, count) ==
              if r.id in q.items then None else LoadFrames(rest, Insert(q, NormRecord(r)), count + 1)
  {
    hide PutRecord, GetWholeRecord, RecordOk;
    WholeRecordRoundTrip(r);
    NormKeepsId(r);
    var all := [RecordFrame(r)] + rest;
    assert all[0] == RecordFrame(r) && all[1..] == rest;
  }

  /** Frames of records and a footer load exactly if no record is there twice and the footer
      counts them right. */
  lemma {:induction false} LoadsIff(recs: seq<Record>, n: nat, seqNo: nat, q: Queue, count: nat)
    requires (forall r <- recs :: RecordOk(r)) && n < TWO_64 && seqNo < TWO_64
    ensures LoadFrames(RecordFrames(recs) + [Footer(n, seqNo)], q, count).Some? <==> DistinctIds(q, recs) && n == count + |recs|
    decreases |recs|
  {
    hide RecordOk, PutRecord, NormRecord;
    if recs == [] {
      FooterRoundTrip(n, seqNo);
      hide GetFooter, PutFooter;
      var fs := [Footer(n, seqNo)];
      assert RecordFrames(recs) + fs == fs && fs[0] == Footer(n, seqNo);
    } else {
      var r, rest := recs[0], RecordFrames(recs[1..]) + [Footer(n, seqNo)];
      assert RecordFrames(recs) + [Footer(n, seqNo)] == [RecordFrame(r)] + rest;
      hide LoadFrames, Footer, RecordFrame;
      LoadsRecord(r, rest, q, count);
      LoadsIff(recs[1..], n, seqNo, Insert(q, NormRecord(r)), count + 1);
      DistinctCons(q, recs);
    }
  }

  lemma DistinctCons(q: Queue, recs: seq<Record>)
    requires recs != []
    ensures DistinctIds(q, recs) <==> recs[0].id !in q.items && DistinctIds(Insert(q, NormRecord(recs[0])), recs[1..])
  {
    hide NormRecord;
    NormKeepsId(recs[0]);
    var q', rest := Insert(q, NormRecord(recs[0])), recs[1..];
    if recs[0].id !in q.items && DistinctIds(q', rest) {
      forall i, j | 0 <= i < j < |recs| ensures recs[i].id != recs[j].id {
        assert recs[j] == rest[j - 1] && rest[j - 1] in rest;
        if i > 0 { assert recs[i] == rest[i - 1]; }
      }
    }
    if DistinctIds(q, recs) {
      forall r <- rest ensures r.id !in q'.items {
        var k :| 0 <= k < |rest| && rest[k] == r;
        assert recs[k + 1] == r && recs[0].id != recs[k + 1].id && r in recs;
      }
    }
  }
}
