/** Opening a store step by step (recover, replaySegment, repairTail, validFrameAfter in
    dlq/wal_store.go and loadSnapshot in dlq/wal_snapshot.go), proved to compute the
    functions of Recovery. */
module Opening {
  import opened Records
  import opened RecordCodec
  import opened Entries
  import opened Chunks
  import opened Frames
  import opened Queues
  import opened SnapshotCodec
  import opened Recovery
  import opened DurableQueue

  /** How replaying one segment file ended. */
  datatype Ended =
    | Failed                     // the log is refused
    | Discarded                  // the file held no entries and is gone
    | Ended(end: nat, next: nat) // where the last good entry ends, and the number after it

  /** validFrameAfter: tries every byte after the damage. */
  method SearchFrame(crc: Checksum, tail: Bytes, maxEntry: nat, next: nat) returns (found: bool)
    ensures found <==> ValidFrameAfter(crc, tail, maxEntry, next)
  {
    var buf := Window(tail);
    var p := 1;
    while p + FRAME_OVERHEAD + FRAME_META <= |buf|
      invariant 1 <= p
      invariant forall i :: 1 <= i < p && i < |buf| ==> !LooksValid(crc, buf[i..], maxEntry, next)
    {
      ghost var at := buf[p..];
      assert at[..4] == buf[p..p + 4] && at[4..8] == buf[p + 4..p + 8];
      var length := GetLE(buf[p..p + 4]);
      if FRAME_META <= length <= maxEntry + FRAME_META && p + FRAME_OVERHEAD + length <= |buf| {
        var payload := buf[p + FRAME_OVERHEAD..p + FRAME_OVERHEAD + length];
        assert at[8..8 + length] == payload;
        if Sum32(crc, buf[p..p + 4] + payload) == GetLE(buf[p + 4..p + 8]) {
          if GetLE(payload[..8]) >= next && 1 <= payload[8] <= 9 {
            assert LooksValid(crc, at, maxEntry, next);
            return true;
          }
        }
      }
      assert !LooksValid(crc, at, maxEntry, next);
      p := p + 1;
    }
    return false;
  }

  /** One more frame of a scan. */
  lemma ScanStep(crc: Checksum, b: Bytes, maxEntry: nat)
    ensures var r := GetFrame(crc, b, maxEntry);
            var s := GetFrames(crc, b, maxEntry);
            if r.Read? then
              var t := GetFrames(crc, b[r.size..], maxEntry);
              s == Scan([r.item] + t.items, t.end) && GoodEnd(crc, b, maxEntry) == r.size + GoodEnd(crc, b[r.size..], maxEntry)
            else s == Scan([], r) && GoodEnd(crc, b, maxEntry) == 0
  {
    hide GetFrame;
  }

  lemma LeftOver(crc: Checksum, b: Bytes, maxEntry: nat)
    ensures var s := GetFrames(crc, b, maxEntry);
            b == [] <==> s == Scan([], EndOfFile)
  {
    ScanStep(crc, b, maxEntry);
  }

  /** The rest of a file's frames: what they hold and how they end. */
  ghost function Rest(o: Options, b: Bytes): Scan<Frame> { GetFrames(o.crc, b, o.maxEntry) }

  /** What replaying does with the next frame. */
  lemma ApplyNext(o: Options, fr: Frame, fs: seq<Frame>, next: nat, q: Queue, snapLSN: nat)
    ensures var r := ApplyFrames(Parts(o), [fr] + fs, next, q, snapLSN);
            var e := GetEntry(fr.typ, fr.body);
            if fr.lsn <= snapLSN then r == ApplyFrames(Parts(o), fs, next, q, snapLSN)
            else if fr.lsn != next || e.None? then r == None
            else r == ApplyFrames(Parts(o), fs, next + 1, Replay(q, e.value), snapLSN)
  {
    hide GetEntry, Replay;
    var all := [fr] + fs;
    assert all[0] == fr && all[1..] == fs;
  }

  lemma ApplyNothing(o: Options, next: nat, q: Queue, snapLSN: nat)
    ensures ApplyFrames(Parts(o), [], next, q, snapLSN) == Some((q, next))
  {
  }

  class Opener {
    const o: Options
    var q: Queue        // the machine being filled
    var snapLSN: nat
    var nextLSN: nat
    var segments: seq<nat>
    var lastGoodEnd: nat

    constructor (o: Options)
      ensures this.o == o && q == EMPTY && snapLSN == 0
    {
      this.o := o;
      q, snapLSN, nextLSN, segments, lastGoodEnd := EMPTY, 0, 1, [], 0;
    }

    /** repairTail: may what follows the last good entry be cut off? */
    method RepairTail(body: Bytes, off: nat, next: nat) returns (ok: bool)
      requires off == GoodEnd(o.crc, body, o.maxEntry)
      ensures ok <==> MayRepair(o.crc, o.maxEntry, o.failOnTruncation, body, next)
    {
      if o.failOnTruncation {
        return false;
      }
      var found := SearchFrame(o.crc, body[off..], o.maxEntry, next);
      ok := !found;
    }

    /** The loop of replaySegment, after the header. */
    method ReplayEntries(body: Bytes, expected: nat, isLast: bool) returns (r: Ended)
      modifies this`q
      ensures match ReplayBody(Parts(o), body, expected, isLast, old(q), snapLSN)
              case Replayed(q', next) => q == q' && r == Ended(HEADER_SIZE + GoodEnd(o.crc, body, o.maxEntry), next)
              case _ => r == Failed
    {
      hide GetFrame, GoodEnd, MayRepair, Replay, ApplyFrames, GetEntry, GetFrames;
      var off, next := 0, expected;
      ghost var f := Parts(o);
      ghost var goal := ApplyFrames(f, Rest(o, body).items, expected, q, snapLSN);
      while true
        invariant off <= |body|
        invariant Rest(o, body).end == Rest(o, body[off..]).end
        invariant goal == ApplyFrames(f, Rest(o, body[off..]).items, next, q, snapLSN)
        invariant GoodEnd(o.crc, body, o.maxEntry) == off + GoodEnd(o.crc, body[off..], o.maxEntry)
        decreases |body| - off
      {
        ghost var rest := body[off..];
        var fr := GetFrame(o.crc, body[off..], o.maxEntry);
        ScanStep(o.crc, rest, o.maxEntry);
        ApplyNothing(o, next, q, snapLSN);
        if fr.EndOfFile? {
          return Ended(HEADER_SIZE + off, next);
        }
        if !fr.Read? {
          if !isLast {
            return Failed;
          }
          var ok := RepairTail(body, off, next);
          if ok {
            return Ended(HEADER_SIZE + off, next);
          }
          return Failed;
        }
        ApplyNext(o, fr.item, Rest(o, rest[fr.size..]).items, next, q, snapLSN);
        if fr.item.lsn <= snapLSN {
        } else if fr.item.lsn == next {
          var e := GetEntry(fr.item.typ, fr.item.body);
          if e.None? {
            return Failed;
          }
          q := Replay(q, e.value);
          next := next + 1;
        } else {
          return Failed;
        }
        assert rest[fr.size..] == body[off + fr.size..];
        off := off + fr.size;
      }
    }

    /** The good part of a segment file ends at byte end. */
    ghost predicate EndsAt(file: File, end: nat) {
      |file.bytes| >= HEADER_SIZE && end == HEADER_SIZE + GoodEnd(o.crc, file.bytes[HEADER_SIZE..], o.maxEntry)
    }

    /** The segments in use are the files left, but for a last one that was set aside;
        appending goes on after the last good entry. */
    ghost predicate Keeps(files: seq<File>, kept: seq<nat>, end: nat) {
      && |files| - 1 <= |kept| <= |files| && (forall k :: 0 <= k < |kept| ==> kept[k] == files[k].start)
      && (kept != [] ==> EndsAt(files[|kept| - 1], end))
    }

    /** replaySegment. */
    method ReplayFile(file: File, expected: nat, isLast: bool) returns (r: Ended)
      modifies this`q
      ensures match ReplaySegment(Parts(o), file, expected, isLast, old(q), snapLSN)
              case Refused => r == Failed
              case SetAside => r == Discarded && q == old(q)
              case Replayed(q', next) => q == q' && r.Ended? && r.next == next && EndsAt(file, r.end)
    {
      hide ReplayBody, GoodEnd;
      var lsn := GetHeader(o.crc, file.bytes, WAL_MAGIC);
      if lsn.None? {
        if isLast && file.start >= expected {
          return Discarded;
        }
        return Failed;
      }
      if lsn.value != file.start || file.start > expected {
        return Failed;
      }
      r := ReplayEntries(file.bytes[HEADER_SIZE..], expected, isLast);
    }

    /** loadSnapshot. */
    method LoadFile(file: File) returns (ok: bool)
      requires q == EMPTY
      modifies this`q
      ensures match LoadSnapshot(Parts(o), file)
              case None => !ok
              case Some(v) => ok && q == v
    {
      hide GetFrame, Insert, GetWholeRecord, GetFooter;
      var lsn := GetHeader(o.crc, file.bytes, SNAP_MAGIC);
      if lsn.None? || lsn.value != file.start {
        return false;
      }
      var body := file.bytes[HEADER_SIZE..];
      var off, count := 0, 0;
      ghost var all := Rest(o, body);
      ghost var goal := LoadFrames(all.items, q, 0);
      while true
        invariant off <= |body|
        invariant all.end == Rest(o, body[off..]).end
        invariant goal == LoadFrames(Rest(o, body[off..]).items, q, count)
        decreases |body| - off
      {
        ghost var rest := body[off..];
        var fr := GetFrame(o.crc, body[off..], o.maxEntry);
        ScanStep(o.crc, rest, o.maxEntry);
        if !fr.Read? {
          return false;
        }
        ghost var items := Rest(o, rest).items;
        assert items[0] == fr.item && items[1..] == Rest(o, rest[fr.size..]).items;
        off := off + fr.size;
        assert rest[fr.size..] == body[off..];
        if fr.item.typ == SNAP_RECORD {
          var rec := GetWholeRecord(fr.item.body);
          if rec.None? || rec.value.id in q.items {
            return false;
          }
          q := Insert(q, rec.value);
          count := count + 1;
        } else if fr.item.typ == SNAP_END {
          var foot := GetFooter(fr.item.body);
          if foot.None? || foot.value.0 != count {
            return false;
          }
          LeftOver(o.crc, body[off..], o.maxEntry);
          if off != |body| {
            return false;
          }
          if foot.value.1 > q.seqNo {
            q := q.(seqNo := foot.value.1);
          }
          return true;
        } else {
          return false;
        }
      }
    }

    /** The loop of recover over the segment files. */
    method ReplayFiles(segs: seq<File>) returns (ok: bool)
      modifies this`q, this`nextLSN, this`segments, this`lastGoodEnd
      ensures match ReplaySegments(LogFormat(o), segs, snapLSN + 1, old(q), snapLSN)
              case None => !ok
              case Some((q', next)) => ok && q == q' && nextLSN == next && Keeps(segs, segments, lastGoodEnd)
    {
      hide ReplaySegment, EndsAt;
      ghost var f := LogFormat(o);
      var expected: nat := snapLSN + 1;
      ghost var goal := ReplaySegments(f, segs, expected, q, snapLSN);
      var i, kept := 0, [];
      while i < |segs|
        invariant i <= |segs| && i == |kept| && (forall k :: 0 <= k < i ==> kept[k] == segs[k].start)
        invariant i > 0 ==> EndsAt(segs[i - 1], lastGoodEnd)
        invariant goal == ReplaySegments(f, segs[i..], expected, q, snapLSN)
      {
        var file := segs[i];
        ghost var rest := segs[i..];
        assert rest[0] == file && rest[1..] == segs[i + 1..];
        SameSegment(o, file, expected, i == |segs| - 1, q, snapLSN);
        var r := ReplayFile(file, expected, i == |segs| - 1);
        if r.Failed? {
          return false;
        }
        if r.Discarded? {
          break;
        }
        kept := kept + [file.start];
        expected, lastGoodEnd := r.next, r.end;
        i := i + 1;
      }
      nextLSN, segments := expected, kept;
      return true;
    }

    /** recover, after the directory has been listed. */
    method Open(d: Disk) returns (ok: bool)
      requires q == EMPTY && snapLSN == 0
      modifies this
      ensures match Recover(LogFormat(o), d)
              case None => !ok
              case Some((q', next)) =>
                ok && q == q' && nextLSN == next && snapLSN == SnapLSN(d) &&
                Keeps(DropCovered(d.segs, snapLSN + 1), segments, lastGoodEnd)
    {
      hide ReplaySegments, EndReplay, LoadFrames, Keeps;
      if d.snaps != [] {
        var newest := d.snaps[|d.snaps| - 1];
        ok := LoadFile(newest);
        if !ok {
          return;
        }
        snapLSN := newest.start;
      }
      var segs := d.segs;
      while |segs| > 1 && segs[1].start <= snapLSN + 1
        invariant DropCovered(segs, snapLSN + 1) == DropCovered(d.segs, snapLSN + 1)
        decreases |segs|
      {
        segs := segs[1..];
      }
      ok := ReplayFiles(segs);
      if ok {
        q := EndReplay(q);
      }
    }
  }
}
