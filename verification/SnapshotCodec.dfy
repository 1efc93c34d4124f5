/** Snapshot files (dlq/wal_snapshot.go): the whole queue at one LSN, one frame a record
    in arrival order, then a footer that counts them. */
module SnapshotCodec {
  import opened Records
  import opened Codec
  import opened RecordCodec
  import opened Entries
  import opened Chunks
  import opened Frames
  import opened Folds
  import opened Queues

  const SNAP_RECORD: byte := 64
  const SNAP_END: byte := 65

  // ---- reading ----

  /** loadSnapshot's loop: records until the footer, which must be the last frame and
      count them right. A record that is there twice is damage. */
  function LoadFrames(fs: seq<Frame>, q: Queue, count: nat): Option<Queue> {
    if fs == [] then None
    else if fs[0].typ == SNAP_RECORD then
      var rec :- GetWholeRecord(fs[0].body);
      if rec.id in q.items then None else LoadFrames(fs[1..], Insert(q, rec), count + 1)
    else if fs[0].typ == SNAP_END then
      var (n, seqNo) :- GetFooter(fs[0].body);
      if n != count || |fs| != 1 then None else Some(if seqNo > q.seqNo then q.(seqNo := seqNo) else q)
    else None
  }

  function GetFooter(b: Bytes): Option<(nat, nat)> {
    var f :- GetAll([KUint, KUint], b);
    assert KindOf(f[0]) == KUint && KindOf(f[1]) == KUint;
    Some((f[0].n, f[1].n))
  }

  // ---- writing ----

  /** A record as a snapshot stores it: a lease does not survive a restart. */
  function Stored(r: Record): Record { if r.state == Leased then r.(state := Pending) else r }

  function RecordFrame(r: Record): Frame { Frame(0, SNAP_RECORD, PutRecord(r)) }

  function PutFooter(n: nat, seqNo: nat): Bytes { PutFields([FUint(n), FUint(seqNo)]) }

  function Footer(n: nat, seqNo: nat): Frame { Frame(0, SNAP_END, PutFooter(n, seqNo)) }

  function RecordFrames(recs: seq<Record>): (fs: seq<Frame>)
    ensures |fs| == |recs| && forall i :: 0 <= i < |recs| ==> fs[i] == RecordFrame(recs[i])
  {
    if recs == [] then [] else [RecordFrame(recs[0])] + RecordFrames(recs[1..])
  }

  function SnapshotFrames(recs: seq<Record>, seqNo: nat): seq<Frame> {
    RecordFrames(recs) + [Footer(|recs|, seqNo)]
  }

  /** writeSnapshot: what goes to the file. */
  function SnapshotBytes(crc: Checksum, lsn: nat, recs: seq<Record>, seqNo: nat): Bytes {
    PutHeader(crc, SNAP_MAGIC, lsn) + PutFrames(crc, SnapshotFrames(recs, seqNo))
  }

  /** recs is the queue's records as stored, oldest first. */
  ghost predicate Lists(q: Queue, recs: seq<Record>) {
    && (forall i, j :: 0 <= i < j < |recs| ==> recs[i].seqNo < recs[j].seqNo)
    && (forall r <- recs :: r.id in q.items && r == Stored(q.items[r.id].rec))
    && (forall id <- q.items :: Stored(q.items[id].rec) in recs)
  }

  /** What has to fit for a snapshot to be readable again. */
  ghost predicate Storable(recs: seq<Record>, seqNo: nat, maxEntry: nat) {
    && |recs| < TWO_64 && seqNo < TWO_64
    && (forall r <- recs :: RecordOk(r) && |PutRecord(r)| <= maxEntry)
  }

  // ---- round trip ----

  lemma {:induction false} UvarintLength(v: nat, i: nat)
    requires i < 10 && v < Room(i)
    ensures |PutUvarint(v)| <= 10 - i
  {
    if v >= 128 {
      UvarintLength(v / 128, i + 1);
    }
  }

  lemma FooterRoundTrip(n: nat, seqNo: nat)
    requires n < TWO_64 && seqNo < TWO_64
    ensures GetFooter(PutFooter(n, seqNo)) == Some((n, seqNo)) && |PutFooter(n, seqNo)| <= 20
  {
    var fs := [FUint(n), FUint(seqNo)];
    assert Kinds(fs) == [KUint, KUint];
    AllRoundTrip(fs, [KUint, KUint]);
    RoomIsSixtyFourBits();
    UvarintLength(n, 0);
    UvarintLength(seqNo, 0);
    var last := [FUint(seqNo)];
    assert fs[1..] == last && last[1..] == [];
    assert PutFields(last) == PutUvarint(seqNo) + [];
    assert PutFields(fs) == PutUvarint(n) + PutFields(last);
  }

  lemma SnapshotFramesOk(recs: seq<Record>, seqNo: nat, maxEntry: nat)
    requires Storable(recs, seqNo, maxEntry) && 20 <= maxEntry && maxEntry + FRAME_META < TWO_32
    ensures FramesOk(SnapshotFrames(recs, seqNo), maxEntry)
  {
    hide RecordOk, PutRecord, PutFooter;
    FooterRoundTrip(|recs|, seqNo);
    var fs := SnapshotFrames(recs, seqNo);
    forall f <- fs ensures FrameOk(f, maxEntry) {
      var i :| 0 <= i < |fs| && fs[i] == f;
      if i < |recs| {
        assert f == RecordFrame(recs[i]);
      } else {
        assert f == Footer(|recs|, seqNo);
      }
    }
  }

  function LoadAll(q: Queue, recs: seq<Record>): Queue
    decreases |recs|
  {
    if recs == [] then q else LoadAll(Insert(q, NormRecord(recs[0])), recs[1..])
  }

  ghost predicate DistinctIds(q: Queue, recs: seq<Record>) {
    && (forall i, j :: 0 <= i < j < |recs| ==> recs[i].id != recs[j].id)
    && (forall r <- recs :: r.id !in q.items)
  }

  lemma LoadStep(r: Record, fs: seq<Frame>, q: Queue, count: nat)
    requires RecordOk(r) && r.id !in q.items
    ensures LoadFrames([RecordFrame(r)] + fs, q, count) == LoadFrames(fs, Insert(q, NormRecord(r)), count + 1)
  {
    hide RecordOk, PutRecord, GetWholeRecord, Insert;
    WholeRecordRoundTrip(r);
    var all := [RecordFrame(r)] + fs;
    assert all[0] == RecordFrame(r) && all[1..] == fs;
  }

  lemma LoadFooter(q: Queue, count: nat, seqNo: nat)
    requires count < TWO_64 && seqNo < TWO_64
    ensures LoadFrames([Footer(count, seqNo)], q, count) == Some(if seqNo > q.seqNo then q.(seqNo := seqNo) else q)
  {
    hide PutFooter, GetFooter;
    FooterRoundTrip(count, seqNo);
  }

  lemma DistinctRest(q: Queue, recs: seq<Record>)
    requires DistinctIds(q, recs) && recs != []
    ensures DistinctIds(Insert(q, NormRecord(recs[0])), recs[1..])
  {
    hide NormRecord;
    NormKeepsId(recs[0]);
    var rest := recs[1..];
    forall i | 0 <= i < |rest| ensures rest[i].id != recs[0].id && rest[i].id !in q.items {
      assert rest[i] == recs[i + 1];
    }
  }

  lemma {:induction false} LoadRest(recs: seq<Record>, q: Queue, count: nat, seqNo: nat)
    requires DistinctIds(q, recs) && (forall r <- recs :: RecordOk(r))
    requires count + |recs| < TWO_64 && seqNo < TWO_64
    ensures var l := LoadAll(q, recs);
            LoadFrames(RecordFrames(recs) + [Footer(count + |recs|, seqNo)], q, count)
            == Some(if seqNo > l.seqNo then l.(seqNo := seqNo) else l)
    decreases |recs|
  {
    hide RecordOk, RecordFrame, NormRecord, Footer, LoadFrames, Insert;
    var foot := [Footer(count + |recs|, seqNo)];
    if recs == [] {
      LoadFooter(q, count, seqNo);
      assert RecordFrames(recs) + foot == foot;
    } else {
      var r, rest := recs[0], recs[1..];
      assert RecordFrames(recs) + foot == [RecordFrame(r)] + (RecordFrames(rest) + foot);
      LoadStep(r, RecordFrames(rest) + foot, q, count);
      DistinctRest(q, recs);
      LoadRest(rest, Insert(q, NormRecord(r)), count + 1, seqNo);
    }
  }

  lemma NormKeepsId(r: Record)
    ensures NormRecord(r).id == r.id && NormRecord(r).seqNo == r.seqNo
  {
  }

  /** What a snapshot of a queue loads as: the queue as a restart sees it. */
  ghost predicate Holds(q: Queue, recs: seq<Record>, l: Queue) {
    && (forall r <- recs :: r.id in l.items && l.items[r.id] == Item(NormRecord(r), None, ZERO_TIME))
    && (forall id <- l.items :: exists r :: r in recs && r.id == id)
    && l.seqNo <= q.seqNo
  }

  lemma InsertHolds(q: Queue, init: seq<Record>, r: Record, l: Queue)
    requires Holds(q, init, l) && r.id !in l.items && r.seqNo <= q.seqNo
    ensures Holds(q, init + [r], Insert(l, NormRecord(r)))
  {
    hide NormRecord;
    NormKeepsId(r);
    var recs, l' := init + [r], Insert(l, NormRecord(r));
    forall id <- l'.items ensures exists x :: x in recs && x.id == id {
      if id in l.items {
        var x :| x in init && x.id == id;
        assert x in recs;
      } else {
        assert r in recs && r.id == id;
      }
    }
  }

  lemma {:induction false} LoadAllHolds(q: Queue, pre: seq<Record>, recs: seq<Record>, l: Queue)
    requires Holds(q, pre, l) && DistinctIds(l, recs) && (forall r <- recs :: r.seqNo <= q.seqNo)
    ensures Holds(q, pre + recs, LoadAll(l, recs))
    decreases |recs|
  {
    hide NormRecord, Insert;
    if recs == [] {
      assert pre + recs == pre;
    } else {
      var r, rest := recs[0], recs[1..];
      assert pre + recs == (pre + [r]) + rest;
      InsertHolds(q, pre, r, l);
      DistinctRest(l, recs);
      LoadAllHolds(q, pre + [r], rest, Insert(l, NormRecord(r)));
    }
  }

  lemma ListsDistinct(q: Queue, recs: seq<Record>)
    requires Wf(q) && Lists(q, recs)
    ensures DistinctIds(EMPTY, recs) && forall r <- recs :: r.seqNo <= q.seqNo
  {
    forall i, j | 0 <= i < j < |recs| ensures recs[i].id != recs[j].id {
      assert recs[i] == Stored(q.items[recs[i].id].rec) && recs[j] == Stored(q.items[recs[j].id].rec);
    }
  }

  lemma StoredView(it: Item)
    ensures ViewItem(true, it) == Item(NormRecord(Stored(it.rec)), None, ZERO_TIME)
  {
  }

  lemma LoadedItem(q: Queue, recs: seq<Record>, l: Queue, id: Text)
    requires Wf(q) && Lists(q, recs) && Holds(q, recs, l) && id in q.items
    ensures id in l.items && l.items[id] == ViewItem(true, q.items[id])
  {
    hide NormRecord, ViewItem;
    var r := Stored(q.items[id].rec);
    assert r in recs && r.id == id;
    StoredView(q.items[id]);
  }

  lemma LoadedKeys(q: Queue, recs: seq<Record>, l: Queue)
    requires Lists(q, recs) && Holds(q, recs, l)
    ensures l.items.Keys <= q.items.Keys
  {
    hide NormRecord;
  }

  lemma LoadsView(q: Queue, recs: seq<Record>, l: Queue)
    requires Wf(q) && Lists(q, recs) && Holds(q, recs, l)
    ensures l.(seqNo := q.seqNo) == View(true, q)
  {
    hide NormRecord, ViewItem, Stored, Wf, Lists, Holds;
    LoadedKeys(q, recs, l);
    var v := View(true, q);
    forall id <- q.items ensures id in l.items && l.items[id] == v.items[id] {
      LoadedItem(q, recs, l, id);
    }
    assert l.items.Keys == v.items.Keys;
    SameMaps(l.items, v.items);
  }

  /** Reading a snapshot's frames gives the queue it was taken of, as a restart sees it. */
  lemma SnapshotLoads(q: Queue, recs: seq<Record>, maxEntry: nat)
    requires Wf(q) && Lists(q, recs) && Storable(recs, q.seqNo, maxEntry)
    ensures LoadFrames(SnapshotFrames(recs, q.seqNo), EMPTY, 0) == Some(View(true, q))
  {
    hide RecordOk, PutRecord, NormRecord, RecordFrame, LoadAll, Insert, LoadFrames, View, Wf, Lists;
    ListsDistinct(q, recs);
    LoadRest(recs, EMPTY, 0, q.seqNo);
    LoadAllHolds(q, [], recs, EMPTY);
    assert [] + recs == recs;
    LoadsView(q, recs, LoadAll(EMPTY, recs));
  }

  /** The whole file, bytes included. */
  lemma SnapshotRoundTrip(crc: Checksum, lsn: nat, q: Queue, recs: seq<Record>, maxEntry: nat)
    requires Wf(q) && Lists(q, recs) && Storable(recs, q.seqNo, maxEntry) && lsn < TWO_64
    requires 20 <= maxEntry && maxEntry + FRAME_META < TWO_32
    ensures var b := SnapshotBytes(crc, lsn, recs, q.seqNo);
            && HEADER_SIZE <= |b| && GetHeader(crc, b, SNAP_MAGIC) == Some(lsn)
            && GetFrames(crc, b[HEADER_SIZE..], maxEntry) == Scan(SnapshotFrames(recs, q.seqNo), EndOfFile)
            && LoadFrames(SnapshotFrames(recs, q.seqNo), EMPTY, 0) == Some(View(true, q))
  {
    hide GetHeader, PutHeader, GetFrames, LoadFrames, View, SnapshotFrames, Lists, Storable;
    var fs := SnapshotFrames(recs, q.seqNo);
    var h, body := PutHeader(crc, SNAP_MAGIC, lsn), PutFrames(crc, fs);
    HeaderRoundTrip(crc, SNAP_MAGIC, lsn, body);
    SnapshotFramesOk(recs, q.seqNo, maxEntry);
    WholeFramesRead(crc, fs, maxEntry);
    assert (h + body)[HEADER_SIZE..] == body;
    SnapshotLoads(q, recs, maxEntry);
  }

  lemma WholeFramesRead(crc: Checksum, fs: seq<Frame>, maxEntry: nat)
    requires FramesOk(fs, maxEntry)
    ensures GetFrames(crc, PutFrames(crc, fs), maxEntry) == Scan(fs, EndOfFile)
  {
    var b := PutFrames(crc, fs);
    var n := WholeFrames(crc, fs, |b|);
    CutFramesRead(crc, fs, |b|, maxEntry);
    var bs := Encoded(crc, fs);
    assert bs[..|bs|] == bs;
    WholeKeeps(bs, |b|, |bs|);
    assert b[..|b|] == b && fs[..n] == fs;
  }
}
