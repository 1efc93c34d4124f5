/** When a torn log opens (repairTail and validFrameAfter in dlq/wal_store.go). A crash in
    the middle of a write leaves part of an entry at the end of the last segment. The store
    cuts it off and opens, unless that is forbidden or a frame that could be a later entry
    reads at some byte of what is torn: then the damage is no interrupted write. */
module TornTail {
  import opened Records
  import opened Chunks
  import opened Entries
  import opened Frames
  import opened Queues
  import opened Recovery
  import opened Wal
  import opened WalCrash
  import opened DurableQueue
  import DurableStore

  /** What is searched: the byte where the damage begins, and 8 MiB after it. */
  function Searched(tail: Bytes): Bytes {
    if |tail| <= 0x80_0001 then tail else tail[..0x80_0001]
  }

  predicate FrameAt(o: Options, b: Bytes, p: nat, fr: Frame, size: nat) {
    p <= |b| && GetFrame(o.crc, b[p..], o.maxEntry) == Read(fr, size)
  }

  /** Some byte after the first starts a whole frame that checks out, has the type of an
      entry and a number that has not been read. */
  ghost predicate EntryFollows(o: Options, tail: Bytes, next: nat) {
    exists p: nat, fr, size :: 1 <= p && FrameAt(o, Searched(tail), p, fr, size) && next <= fr.lsn && 1 <= fr.typ <= 9
  }

  // ---- where reading stops ----

  lemma GoodEndCons(crc: Checksum, fr: Frame, rest: Bytes, maxEntry: nat)
    requires FrameOk(fr, maxEntry)
    ensures GoodEnd(crc, PutFrame(crc, fr) + rest, maxEntry) == |PutFrame(crc, fr)| + GoodEnd(crc, rest, maxEntry)
  {
    hide PutFrame, GetFrame;
    FrameRoundTrip(crc, fr, rest, maxEntry);
    assert (PutFrame(crc, fr) + rest)[|PutFrame(crc, fr)|..] == rest;
  }

  lemma PutFramesCons(crc: Checksum, fs: seq<Frame>)
    requires fs != []
    ensures PutFrames(crc, fs) == PutFrame(crc, fs[0]) + PutFrames(crc, fs[1..])
  {
    hide PutFrame;
    assert Encoded(crc, fs)[1..] == Encoded(crc, fs[1..]);
  }

  lemma {:induction false} GoodEndWhole(crc: Checksum, fs: seq<Frame>, rest: Bytes, maxEntry: nat)
    requires FramesOk(fs, maxEntry) && !GetFrame(crc, rest, maxEntry).Read?
    ensures GoodEnd(crc, PutFrames(crc, fs) + rest, maxEntry) == |PutFrames(crc, fs)|
    decreases |fs|
  {
    hide GetFrame, PutFrame;
    if fs == [] {
      assert PutFrames(crc, fs) + rest == rest;
    } else {
      hide PutFrames, GoodEnd;
      var first, more := PutFrame(crc, fs[0]), PutFrames(crc, fs[1..]);
      PutFramesCons(crc, fs);
      assert first + more + rest == first + (more + rest);
      GoodEndCons(crc, fs[0], more + rest, maxEntry);
      GoodEndWhole(crc, fs[1..], rest, maxEntry);
    }
  }

  /** Reading a cut run of frames stops at the end of the last whole one. */
  lemma CutGoodEnd(crc: Checksum, fs: seq<Frame>, k: nat, maxEntry: nat)
    requires FramesOk(fs, maxEntry) && k <= |PutFrames(crc, fs)|
    ensures GoodEnd(crc, PutFrames(crc, fs)[..k], maxEntry) == |PutFrames(crc, fs[..WholeFrames(crc, fs, k)])|
  {
    var bs, n := Encoded(crc, fs), WholeFrames(crc, fs, k);
    CutJoin(bs, k);
    EncodedTake(crc, fs, n);
    var whole := PutFrames(crc, fs[..n]);
    var rest := if n < |fs| then bs[n][..k - |whole|] else [];
    assert PutFrames(crc, fs)[..k] == whole + rest;
    if rest != [] {
      FrameCutIsTorn(crc, fs[n], |rest|, maxEntry);
    }
    hide PutFrames, GetFrame;
    GoodEndWhole(crc, fs[..n], rest, maxEntry);
  }

  lemma SearchMeans(o: Options, tail: Bytes, next: nat)
    ensures ValidFrameAfter(o.crc, tail, o.maxEntry, next) <==> EntryFollows(o, tail, next)
  {
    hide GetFrame;
    var w := Window(tail);
    assert w == Searched(tail);
    if ValidFrameAfter(o.crc, tail, o.maxEntry, next) {
      var p :| 1 <= p < |w| && LooksValid(o.crc, w[p..], o.maxEntry, next);
      var r := GetFrame(o.crc, w[p..], o.maxEntry);
      assert FrameAt(o, w, p, r.item, r.size);
    }
    if EntryFollows(o, tail, next) {
      var p: nat, fr, size :| 1 <= p && FrameAt(o, w, p, fr, size) && next <= fr.lsn && 1 <= fr.typ <= 9;
      assert p < |w| && LooksValid(o.crc, w[p..], o.maxEntry, next);
    }
  }

  lemma CutGoodEntries(o: Options, start: nat, es: seq<Entry>, k: nat)
    requires OptionsOk(o) && Readable(LogFormat(o), start, es) && k <= |Join(Sealed(LogFormat(o), start, es))|
    ensures var f := LogFormat(o);
            GoodEnd(o.crc, Join(Sealed(f, start, es))[..k], o.maxEntry) == |Join(Sealed(f, start, es[..Whole(Sealed(f, start, es), k)]))|
  {
    hide LogFormat, Decodes;
    var f := LogFormat(o);
    FormatDecodes(o);
    FormatParts(o);
    var fs := FramesOf(f, start, es);
    SealedIsEncoded(f, start, es);
    WrittenFramesOk(f, start, es);
    CutGoodEnd(o.crc, fs, k, o.maxEntry);
    var n := WholeFrames(o.crc, fs, k);
    FramesOfTake(f, start, es, n);
    SealedIsEncoded(f, start, es[..n]);
  }

  lemma FormatParts(o: Options)
    ensures LogFormat(o).crc == o.crc && LogFormat(o).maxEntry == o.maxEntry
    ensures forall b: Bytes, next: nat :: LogFormat(o).repair(b, next) == MayRepair(o.crc, o.maxEntry, o.failOnTruncation, b, next)
  {
  }

  /** What repairTail decides about a segment cut at any byte after its header. */
  lemma RepairMeans(o: Options, start: nat, es: seq<Entry>, cut: nat, next: nat)
    requires OptionsOk(o) && Readable(LogFormat(o), start, es) && HEADER_SIZE <= cut <= |SegmentBytes(LogFormat(o), start, es)|
    ensures var f := LogFormat(o);
            var end := |SegmentBytes(f, start, es[..WholeEntries(f, start, es, cut)])|;
            && end <= cut
            && (f.repair(SegmentBytes(f, start, es)[HEADER_SIZE..cut], next) <==>
                  !o.failOnTruncation && !EntryFollows(o, SegmentBytes(f, start, es)[end..cut], next))
  {
    hide LogFormat, Decodes, MayRepair, EntryFollows, ValidFrameAfter;
    var f := LogFormat(o);
    FormatDecodes(o);
    FormatParts(o);
    HeadSize(f, start);
    var frames, k := Join(Sealed(f, start, es)), cut - HEADER_SIZE;
    var body, n := frames[..k], WholeEntries(f, start, es, cut);
    assert SegmentBytes(f, start, es)[HEADER_SIZE..cut] == body;
    CutGoodEntries(o, start, es, k);
    var good := GoodEnd(o.crc, body, o.maxEntry);
    assert |SegmentBytes(f, start, es[..n])| == HEADER_SIZE + good;
    assert SegmentBytes(f, start, es)[HEADER_SIZE + good..cut] == body[good..];
    SearchMeans(o, body[good..], next);
    MayRepairParts(o, body, next);
  }

  lemma MayRepairParts(o: Options, body: Bytes, next: nat)
    ensures MayRepair(o.crc, o.maxEntry, o.failOnTruncation, body, next) <==>
              !o.failOnTruncation && !ValidFrameAfter(o.crc, body[GoodEnd(o.crc, body, o.maxEntry)..], o.maxEntry, next)
  {
  }

  /** Exactly when a segment cut at any byte after its header is refused, where replay has
      come to it: inside an entry, if it is not the last one, or cutting is forbidden, or an
      entry that was not read follows the last whole one. */
  lemma TornRefusedIff(o: Options, start: nat, es: seq<Entry>, cut: nat, next: nat, isLast: bool, q: Queue, snapLSN: nat)
    requires OptionsOk(o) && Readable(LogFormat(o), start, es) && Meets(start, next, snapLSN)
    requires HEADER_SIZE <= cut <= |SegmentBytes(LogFormat(o), start, es)|
    ensures var f := LogFormat(o);
            var n := WholeEntries(f, start, es, cut);
            var end, after := |SegmentBytes(f, start, es[..n])|, Max(next, start + n);
            && end <= cut
            && (f.segment(File(start, SegmentBytes(f, start, es)[..cut]), next, isLast, q, snapLSN) == Refused <==>
                  && end < cut
                  && (!isLast || o.failOnTruncation || EntryFollows(o, SegmentBytes(f, start, es)[end..cut], after)))
  {
    hide LogFormat, Decodes, EntryFollows, ReplaysTo, SegmentBytes, WholeEntries;
    var f := LogFormat(o);
    FormatDecodes(o);
    var n := WholeEntries(f, start, es, cut);
    CutSegmentReplays(f, start, es, cut, next, isLast, q, snapLSN);
    RepairMeans(o, start, es, cut, next + |Skip(es[..n], next - start)|);
  }

  // ---- whole directories ----

  /** The entries of a segment with the one that was being written. */
  function Written<E>(x: Seg<E>): seq<E> { if x.half.Some? then x.es + [x.half.value.0] else x.es }

  lemma WrittenReadable<Q, E>(f: Format<Q, E>, x: Seg<E>, log: seq<E>)
    requires Holds(log, x) && |log| + 1 < TWO_64 && (forall e <- log :: Fits(f, e))
    requires x.half.Some? ==> HalfOk(f, x.start - 1 + |x.es|, x.half.value.0, x.half.value.1)
    ensures Readable(f, x.start, Written(x))
  {
    HeldReadable(f, log, x);
  }

  /** The last segment a crash leaves keeps the log from opening exactly if it was cut inside
      an entry and that may not be cut off. */
  lemma LastOpens(o: Options, x: Seg<Entry>, log: seq<Entry>, cut: nat, next: nat)
    requires OptionsOk(o) && Holds(log, x) && |log| + 1 < TWO_64 && (forall e <- log :: Fits(LogFormat(o), e))
    requires LastIntact(LogFormat(o), x, cut, [])
    ensures var f := LogFormat(o);
            var end := EntryEnd(f, x, WholeEntries(f, x.start, x.es, cut));
            && end <= cut <= |FileBytes(f, x)|
            && (Clean(f, x, cut) || Repairs(f, x, cut, next) <==>
                  end < cut ==> !o.failOnTruncation && !EntryFollows(o, FileBytes(f, x)[end..cut], next))
  {
    hide LogFormat, Decodes, EntryFollows, WholeEntries, Fits, HalfOk;
    var f, es := LogFormat(o), Written(x);
    FormatDecodes(o);
    WrittenReadable(f, x, log);
    HalfIsCut(f, x, es, cut);
    var n := WholeEntries(f, x.start, es, cut);
    WholeAtMost(f, x, es, cut, n);
    SameWhole(f, x, es, cut);
    assert es[..n] == x.es[..n];
    RepairMeans(o, x.start, es, cut, next);
    var end, a, b := EntryEnd(f, x, n), FileBytes(f, x), SegmentBytes(f, x.start, es);
    assert a[end..cut] == a[..cut][end..] && b[end..cut] == b[..cut][end..];
    assert a[HEADER_SIZE..cut] == a[..cut][HEADER_SIZE..] && b[HEADER_SIZE..cut] == b[..cut][HEADER_SIZE..];
  }

  /** Exactly when the store opens after a crash of any run: no entry is missing between the
      snapshot it loads and the last one left; no header names a segment that begins after
      that; and if the last segment was cut inside an entry, cutting that off is allowed and
      no frame that could be a later entry reads in it. k is the first file replayed. */
  lemma RunOpensIff(o: Options, ns: seq<DurableStore.Node>, mvs: seq<DurableStore.Move>, i: nat, w: Wreck<Entry>, k: nat)
    requires OptionsOk(o) && DurableStore.Run(o, ns, mvs) && i < |ns| && WreckOk(LogFormat(o), ns[i].s, w)
    requires Starts(LogFormat(o), w, k)
    ensures var f, n := LogFormat(o), Reach(LogFormat(o), w);
            && k <= |w.segs|
            && (Recover(f, DiskAfter(f, w)).Some? <==>
                  && Joined(Rest(w, k), Loaded(w) + 1)
                  && (w.tail != [] && |w.tail[0].bytes| >= HEADER_SIZE ==> w.tail[0].start == n + 1)
                  && (Rest(w, k) != [] && w.tail == [] ==> TornTailGoes(o, Last(w.segs), w.cut, n + 1)))
  {
    hide DurableStore.Run, WreckOk, Starts, Recover, DiskAfter, Reach, Joined, LogFormat, Lawful, TornTailGoes, Clean, Repairs;
    DurableStore.RunKeeps(o, ns, mvs, i);
    StoreLawful(o);
    OpensIff(StoreModel(o), ns[i].s, w, k);
    if Rest(w, k) != [] && w.tail == [] {
      assert Last(Rest(w, k)) == Last(w.segs);
      LastGoes(o, ns[i].s, w);
    }
  }

  /** Nothing torn at the end of a segment, or it is cut off. */
  ghost predicate TornTailGoes(o: Options, x: Seg<Entry>, cut: nat, next: nat) {
    var f := LogFormat(o);
    var end := EntryEnd(f, x, WholeEntries(f, x.start, x.es, cut));
    end < cut <= |FileBytes(f, x)| ==> !o.failOnTruncation && !EntryFollows(o, FileBytes(f, x)[end..cut], next)
  }

  lemma LastGoes(o: Options, s: Wal<Queue, Entry>, w: Wreck<Entry>)
    requires OptionsOk(o) && Inv(StoreModel(o), s) && WreckOk(LogFormat(o), s, w) && w.segs != [] && w.tail == []
    ensures var x, n := Last(w.segs), Reach(LogFormat(o), w) + 1;
            Clean(LogFormat(o), x, w.cut) || Repairs(LogFormat(o), x, w.cut, n) <==> TornTailGoes(o, x, w.cut, n)
  {
    hide WreckOk, LogFormat, Decodes, Reach, Chained, Synced, Counters, Loose, Snapshots, Removed, Placed, Clean, Repairs;
    FormatDecodes(o);
    WreckIntact(StoreModel(o), s, w);
    assert Last(w.segs) in w.segs;
    LastOpens(o, Last(w.segs), s.log, w.cut, Reach(LogFormat(o), w) + 1);
  }
}
