/** Opening a log (recover, replaySegment, repairTail and validFrameAfter in
    dlq/wal_store.go): a directory of snapshot and segment files, as bytes, becomes a
    queue and the next log sequence number, or is refused. What an entry is and does is
    a parameter here; DurableQueue supplies the store's own. */
module Recovery {
  import opened Records
  import opened Chunks
  import opened Frames
  import opened Folds

  datatype File = File(start: nat, bytes: Bytes)

  datatype Segment<Q> =
    | Refused
    | SetAside                 // an unusable header in the last file
    | Replayed(q: Q, next: nat)

  /** A kind of log: how entries become bytes and back, and what they do. The readers
      are members too, tied to their definitions by Decodes below, so that a proof about
      a whole directory need not look inside the reading of one file. */
  datatype Format<!Q, !E> = Format(
    crc: Checksum,
    maxEntry: nat,
    head: nat -> Bytes,                   // the header of a segment file
    seal: Frame -> Bytes,                 // a frame as written
    getHead: Bytes -> Option<nat>,        // reading a segment header
    scan: Bytes -> Scan<Frame>,           // reading frames
    repair: (Bytes, nat) -> bool,         // may a damaged tail be cut off
    segment: (File, nat, bool, Q, nat) -> Segment<Q>, // replaying one segment file
    typ: E -> byte,
    body: E -> Bytes,
    ok: E -> bool,                        // what the writer's types guarantee
    dec: Frame -> Option<E>,
    norm: E -> E,                         // what a written entry reads back as
    step: (Q, E) -> Q,
    init: Q,
    load: (nat, seq<Frame>) -> Option<Q>, // the content of a snapshot file
    finish: Q -> Q)                       // what is done after the last entry

  /** Both lists are sorted by the number in the file name, oldest first. */
  datatype Disk = Disk(segs: seq<File>, snaps: seq<File>)

  const RESYNC_WINDOW := 8 * 1024 * 1024

  // ---- damage ----

  predicate LooksValid(crc: Checksum, b: Bytes, maxEntry: nat, next: nat) {
    var r := GetFrame(crc, b, maxEntry);
    r.Read? && r.item.lsn >= next && 1 <= r.item.typ <= 9
  }

  function Window(tail: Bytes): Bytes {
    if |tail| > RESYNC_WINDOW + 1 then tail[..RESYNC_WINDOW + 1] else tail
  }

  /** A frame that checks out at some byte after damage, with a number not yet seen:
      real entries follow, so the damage is not an interrupted write. */
  predicate ValidFrameAfter(crc: Checksum, tail: Bytes, maxEntry: nat, next: nat) {
    exists p :: 1 <= p < |Window(tail)| && LooksValid(crc, Window(tail)[p..], maxEntry, next)
  }

  /** Where the last frame that reads ends. */
  function GoodEnd(crc: Checksum, b: Bytes, maxEntry: nat): (n: nat)
    ensures n <= |b|
    decreases |b|
  {
    var r := GetFrame(crc, b, maxEntry);
    if !r.Read? then 0 else r.size + GoodEnd(crc, b[r.size..], maxEntry)
  }

  /** repairTail: a damaged tail is cut unless that is forbidden or entries follow it. */
  predicate MayRepair(crc: Checksum, maxEntry: nat, failOnTruncation: bool, body: Bytes, next: nat) {
    !failOnTruncation && !ValidFrameAfter(crc, body[GoodEnd(crc, body, maxEntry)..], maxEntry, next)
  }

  // ---- segments ----

  /** Frames a snapshot covers are skipped; the others must carry consecutive numbers
      and decode. */
  function ApplyFrames<Q, E>(f: Format<Q, E>, fs: seq<Frame>, next: nat, q: Q, snapLSN: nat): Option<(Q, nat)> {
    if fs == [] then Some((q, next))
    else if fs[0].lsn <= snapLSN then ApplyFrames(f, fs[1..], next, q, snapLSN)
    else if fs[0].lsn != next then None
    else
      var e :- f.dec(fs[0]);
      ApplyFrames(f, fs[1..], next + 1, f.step(q, e), snapLSN)
  }

  /** The entries of a segment applied in order, once its header is known good. Damage
      is only accepted at the end of the last segment. */
  function ReplayBody<Q, E>(f: Format<Q, E>, body: Bytes, expected: nat, isLast: bool, q: Q,
      snapLSN: nat): (r: Segment<Q>)
    ensures !r.SetAside?
  {
    var s := f.scan(body);
    match ApplyFrames(f, s.items, expected, q, snapLSN)
    case None => Refused
    case Some((q', next)) =>
      if s.end.EndOfFile? || (isLast && f.repair(body, next)) then Replayed(q', next) else Refused
  }

  /** replaySegment as a whole. */
  function ReplaySegment<Q, E>(f: Format<Q, E>, file: File, expected: nat, isLast: bool, q: Q,
      snapLSN: nat): (r: Segment<Q>)
    ensures r.SetAside? ==> isLast && file.start >= expected
  {
    match f.getHead(file.bytes)
    case None => if isLast && file.start >= expected then SetAside else Refused
    case Some(lsn) =>
      if lsn != file.start || file.start > expected || |file.bytes| < HEADER_SIZE then Refused
      else ReplayBody(f, file.bytes[HEADER_SIZE..], expected, isLast, q, snapLSN)
  }

  /** Segments wholly covered by the snapshot are leftovers. */
  function DropCovered(segs: seq<File>, expected: nat): seq<File> {
    if |segs| > 1 && segs[1].start <= expected then DropCovered(segs[1..], expected) else segs
  }

  function ReplaySegments<Q, E>(f: Format<Q, E>, segs: seq<File>, expected: nat, q: Q, snapLSN: nat): Option<(Q, nat)> {
    if segs == [] then Some((q, expected))
    else
      match f.segment(segs[0], expected, |segs| == 1, q, snapLSN)
      case Refused => None
      case SetAside => Some((q, expected))
      case Replayed(q', next) => ReplaySegments(f, segs[1..], next, q', snapLSN)
  }

  /** loadSnapshot: any defect is fatal. */
  function LoadSnapshot<Q, E>(f: Format<Q, E>, file: File): Option<Q> {
    match GetHeader(f.crc, file.bytes, SNAP_MAGIC)
    case None => None
    case Some(lsn) =>
      if lsn != file.start then None
      else
        var s := GetFrames(f.crc, file.bytes[HEADER_SIZE..], f.maxEntry);
        if s.end.EndOfFile? then f.load(lsn, s.items) else None
  }

  function SnapLSN(d: Disk): nat {
    if d.snaps == [] then 0 else d.snaps[|d.snaps| - 1].start
  }

  /** recover: the newest snapshot, then every later entry, then leases are handed back. */
  function Recover<Q, E>(f: Format<Q, E>, d: Disk): Option<(Q, nat)> {
    var snapLSN := SnapLSN(d);
    var q :- if d.snaps == [] then Some(f.init) else LoadSnapshot(f, d.snaps[|d.snaps| - 1]);
    var (q', next) :- ReplaySegments(f, DropCovered(d.segs, snapLSN + 1), snapLSN + 1, q, snapLSN);
    Some((f.finish(q'), next))
  }

  // ---- what the store writes ----

  function FrameOf<Q, E>(f: Format<Q, E>, lsn: nat, e: E): Frame { Frame(lsn, f.typ(e), f.body(e)) }

  /** logLocked accepts the entry. */
  predicate Fits<Q, E>(f: Format<Q, E>, e: E) { f.ok(e) && |f.body(e)| <= f.maxEntry }

  function FramesOf<Q, E>(f: Format<Q, E>, start: nat, es: seq<E>): (fs: seq<Frame>)
    ensures |fs| == |es|
    ensures forall i :: 0 <= i < |es| ==> fs[i] == FrameOf(f, start + i, es[i])
  {
    seq(|es|, i requires 0 <= i < |es| => FrameOf(f, start + i, es[i]))
  }

  function Sealed<Q, E>(f: Format<Q, E>, start: nat, es: seq<E>): (bs: seq<Bytes>)
    ensures |bs| == |es|
    ensures forall i :: 0 <= i < |es| ==> bs[i] == f.seal(FrameOf(f, start + i, es[i]))
  {
    MapSeq(f.seal, FramesOf(f, start, es))
  }

  function SegmentBytes<Q, E>(f: Format<Q, E>, start: nat, es: seq<E>): Bytes {
    f.head(start) + Join(Sealed(f, start, es))
  }

  /** What recovery relies on: files carry the store's headers and frames, and entries
      that fit read back as their norm. */
  ghost predicate Decodes<Q(!new), E(!new)>(f: Format<Q, E>) {
    && 1024 <= f.maxEntry && f.maxEntry + FRAME_META < TWO_32
    && (forall n: nat :: HeadOk(f, n))
    && (forall x: Frame :: SealOk(f, x))
    && (forall b: Bytes :: ReaderOk(f, b))
    && (forall x: File, n: nat, last: bool, q: Q, lsn: nat :: SegmentOk(f, x, n, last, q, lsn))
    && (forall e: E, lsn: nat :: ReadsBack(f, e, lsn))
  }

  ghost predicate HeadOk<Q, E>(f: Format<Q, E>, n: nat) { f.head(n) == PutHeader(f.crc, WAL_MAGIC, n) }

  ghost predicate SealOk<Q, E>(f: Format<Q, E>, x: Frame) { f.seal(x) == PutFrame(f.crc, x) }

  ghost predicate ReaderOk<Q, E>(f: Format<Q, E>, b: Bytes) {
    f.getHead(b) == GetHeader(f.crc, b, WAL_MAGIC) && f.scan(b) == GetFrames(f.crc, b, f.maxEntry)
  }

  ghost predicate SegmentOk<Q, E>(f: Format<Q, E>, x: File, n: nat, last: bool, q: Q, lsn: nat) {
    f.segment(x, n, last, q, lsn) == ReplaySegment(f, x, n, last, q, lsn)
  }

  ghost predicate ReadsBack<Q, E>(f: Format<Q, E>, e: E, lsn: nat) {
    Fits(f, e) ==> f.dec(FrameOf(f, lsn, e)) == Some(f.norm(e))
  }

  lemma HeadSize<Q(!new), E(!new)>(f: Format<Q, E>, n: nat)
    requires Decodes(f)
    ensures |f.head(n)| == HEADER_SIZE
  {
    assert HeadOk(f, n);
  }

  lemma SealedIsEncoded<Q(!new), E(!new)>(f: Format<Q, E>, start: nat, es: seq<E>)
    requires Decodes(f)
    ensures Sealed(f, start, es) == Encoded(f.crc, FramesOf(f, start, es))
  {
    forall i | 0 <= i < |es| ensures f.seal(FramesOf(f, start, es)[i]) == PutFrame(f.crc, FramesOf(f, start, es)[i]) {
      assert SealOk(f, FramesOf(f, start, es)[i]);
    }
  }

  /** Entries whose frames can be read back, numbered from start. */
  ghost predicate Readable<Q, E>(f: Format<Q, E>, start: nat, es: seq<E>) {
    start + |es| < TWO_64 && forall e <- es :: Fits(f, e)
  }

  /** Frames numbered from start that decode to ns do what ns does. */
  lemma {:induction false} ApplyDecoded<Q, E>(f: Format<Q, E>, fs: seq<Frame>, ns: seq<E>, start: nat, q: Q,
      snapLSN: nat)
    requires |fs| == |ns| && snapLSN < start
    requires forall i :: 0 <= i < |fs| ==> fs[i].lsn == start + i
    requires forall i :: 0 <= i < |fs| ==> f.dec(fs[i]) == Some(ns[i])
    ensures ApplyFrames(f, fs, start, q, snapLSN) == Some((Fold(f.step, q, ns), start + |ns|))
    decreases |fs|
  {
    if fs != [] {
      var fs', ns' := fs[1..], ns[1..];
      assert fs[0].lsn == start + 0 && f.dec(fs[0]) == Some(ns[0]);
      forall i | 0 <= i < |fs'| ensures fs'[i].lsn == start + 1 + i {
        assert fs'[i] == fs[i + 1];
      }
      ApplyDecoded(f, fs', ns', start + 1, f.step(q, ns[0]), snapLSN);
      FoldCons(f.step, q, ns);
    }
  }

  lemma ApplyWritten<Q(!new), E(!new)>(f: Format<Q, E>, start: nat, es: seq<E>, q: Q, snapLSN: nat)
    requires Decodes(f) && Readable(f, start, es) && snapLSN < start
    ensures ApplyFrames(f, FramesOf(f, start, es), start, q, snapLSN)
            == Some((Fold(f.step, q, MapSeq(f.norm, es)), start + |es|))
  {
    var fs := FramesOf(f, start, es);
    forall i | 0 <= i < |fs| ensures fs[i].lsn == start + i && f.dec(fs[i]) == Some(MapSeq(f.norm, es)[i]) {
      assert ReadsBack(f, es[i], start + i) && Fits(f, es[i]);
    }
    ApplyDecoded(f, fs, MapSeq(f.norm, es), start, q, snapLSN);
  }

  function Skip<E>(es: seq<E>, k: nat): seq<E> { if k <= |es| then es[k..] else [] }

  /** A segment that begins before the snapshot ends, or right where replay stands. */
  predicate Meets(start: nat, next: nat, snapLSN: nat) {
    start <= next && snapLSN < next && (start == next || next == snapLSN + 1)
  }

  lemma {:induction false} CoveredSkipped<Q, E>(f: Format<Q, E>, fs: seq<Frame>, k: nat, next: nat, q: Q, snapLSN: nat)
    requires k <= |fs| && forall i :: 0 <= i < k ==> fs[i].lsn <= snapLSN
    ensures ApplyFrames(f, fs, next, q, snapLSN) == ApplyFrames(f, fs[k..], next, q, snapLSN)
    decreases k
  {
    if k > 0 {
      CoveredSkipped(f, fs[1..], k - 1, next, q, snapLSN);
      assert fs[1..][k - 1..] == fs[k..];
    }
  }

  lemma ApplyFrom<Q(!new), E(!new)>(f: Format<Q, E>, start: nat, es: seq<E>, next: nat, q: Q, snapLSN: nat)
    requires Decodes(f) && Readable(f, start, es) && Meets(start, next, snapLSN)
    ensures var rest := Skip(es, next - start);
            ApplyFrames(f, FramesOf(f, start, es), next, q, snapLSN)
            == Some((Fold(f.step, q, MapSeq(f.norm, rest)), next + |rest|))
  {
    hide Decodes, Fold, MapSeq, ApplyFrames;
    var fs, k := FramesOf(f, start, es), if next - start <= |es| then next - start else |es|;
    var rest := Skip(es, next - start);
    CoveredSkipped(f, fs, k, next, q, snapLSN);
    assert fs[k..] == FramesOf(f, next, rest);
    if rest == [] {
      NothingLeft(f, q, next, snapLSN);
    } else {
      ApplyWritten(f, next, rest, q, snapLSN);
    }
  }

  lemma NothingLeft<Q, E>(f: Format<Q, E>, q: Q, next: nat, snapLSN: nat)
    ensures ApplyFrames(f, [], next, q, snapLSN) == Some((q, next)) && Fold(f.step, q, MapSeq(f.norm, [])) == q
  {
  }

  lemma WrittenFramesOk<Q(!new), E(!new)>(f: Format<Q, E>, start: nat, es: seq<E>)
    requires Decodes(f) && Readable(f, start, es)
    ensures FramesOk(FramesOf(f, start, es), f.maxEntry)
  {
    var fs := FramesOf(f, start, es);
    forall x <- fs ensures FrameOk(x, f.maxEntry) {
      var i :| 0 <= i < |fs| && fs[i] == x;
      assert Fits(f, es[i]);
    }
  }

  lemma FramesOfTake<Q, E>(f: Format<Q, E>, start: nat, es: seq<E>, n: nat)
    requires n <= |es|
    ensures FramesOf(f, start, es)[..n] == FramesOf(f, start, es[..n])
  {
  }

  /** How many entries lie wholly in the first cut bytes of a segment file. */
  function WholeEntries<Q, E>(f: Format<Q, E>, start: nat, es: seq<E>, cut: nat): (n: nat)
    ensures n <= |es|
  {
    if cut < HEADER_SIZE then 0 else Whole(Sealed(f, start, es), cut - HEADER_SIZE)
  }

  ghost predicate ReplaysTo<Q, E>(f: Format<Q, E>, r: Segment<Q>, start: nat, es: seq<E>, q: Q) {
    r.Replayed? && r.q == Fold(f.step, q, MapSeq(f.norm, es)) && r.next == start + |es|
  }

  /** What scanning a cut run of frames gives. */
  lemma CutBodyScan<Q(!new), E(!new)>(f: Format<Q, E>, start: nat, es: seq<E>, k: nat)
    requires Decodes(f) && Readable(f, start, es) && k <= |Join(Sealed(f, start, es))|
    ensures var n := Whole(Sealed(f, start, es), k);
            f.scan(Join(Sealed(f, start, es))[..k])
            == Scan(FramesOf(f, start, es[..n]), if k == |Join(Sealed(f, start, es[..n]))| then EndOfFile else Torn)
  {
    var fs := FramesOf(f, start, es);
    SealedIsEncoded(f, start, es);
    var n := WholeFrames(f.crc, fs, k);
    SealedIsEncoded(f, start, es[..n]);
    WrittenFramesOk(f, start, es);
    CutFramesRead(f.crc, fs, k, f.maxEntry);
    assert ReaderOk(f, Join(Sealed(f, start, es))[..k]);
    FramesOfTake(f, start, es, n);
  }

  lemma CutBodyReplays<Q(!new), E(!new)>(
    f: Format<Q, E>, start: nat, es: seq<E>, k: nat, next: nat, isLast: bool, q: Q, snapLSN: nat)
    requires Decodes(f) && Readable(f, start, es) && Meets(start, next, snapLSN) && k <= |Join(Sealed(f, start, es))|
    ensures var n := Whole(Sealed(f, start, es), k);
            var r := ReplayBody(f, Join(Sealed(f, start, es))[..k], next, isLast, q, snapLSN);
            && (r == Refused || ReplaysTo(f, r, next, Skip(es[..n], next - start), q))
            && (r != Refused <==>
                  || k == |Join(Sealed(f, start, es[..n]))|
                  || (isLast && f.repair(Join(Sealed(f, start, es))[..k], next + |Skip(es[..n], next - start)|)))
  {
    hide Skip, Decodes, Join, Sealed, Whole, ApplyFrames, Fold, MapSeq;
    var n := Whole(Sealed(f, start, es), k);
    CutBodyScan(f, start, es, k);
    ReadablePart(f, start, es, n);
    ApplyFrom(f, start, es[..n], next, q, snapLSN);
  }

  lemma ReadablePart<Q, E>(f: Format<Q, E>, start: nat, es: seq<E>, n: nat)
    requires Readable(f, start, es) && n <= |es|
    ensures Readable(f, start, es[..n])
  {
  }

  lemma CutAfterHeader(header: Bytes, rest: Bytes, cut: nat)
    requires |header| <= cut <= |header + rest|
    ensures (header + rest)[..cut] == header + rest[..cut - |header|]
    ensures (header + rest)[..cut][|header|..] == rest[..cut - |header|]
  {
  }

  lemma AfterHeader<Q(!new), E(!new)>(
    f: Format<Q, E>, start: nat, body: Bytes, next: nat, isLast: bool, q: Q, snapLSN: nat)
    requires Decodes(f) && start < TWO_64
    ensures f.segment(File(start, f.head(start) + body), next, isLast, q, snapLSN)
            == if start <= next then ReplayBody(f, body, next, isLast, q, snapLSN) else Refused
  {
    assert HeadOk(f, start);
    HeadSize(f, start);
    HeaderRoundTrip(f.crc, WAL_MAGIC, start, body);
    assert ReaderOk(f, f.head(start) + body);
    assert (f.head(start) + body)[HEADER_SIZE..] == body;
    assert SegmentOk(f, File(start, f.head(start) + body), next, isLast, q, snapLSN);
  }

  /** A segment cut anywhere after its header: refused, or exactly its whole entries from
      the next one on. It is refused exactly if the cut is inside an entry, unless it is
      the last segment and its tail may be cut off. A segment that begins later always is:
      entries are missing. */
  lemma CutSegmentReplays<Q(!new), E(!new)>(
    f: Format<Q, E>, start: nat, es: seq<E>, cut: nat, next: nat, isLast: bool, q: Q, snapLSN: nat)
    requires Decodes(f) && Readable(f, start, es) && HEADER_SIZE <= cut <= |SegmentBytes(f, start, es)|
    ensures var r := f.segment(File(start, SegmentBytes(f, start, es)[..cut]), next, isLast, q, snapLSN);
            var n := WholeEntries(f, start, es, cut);
            && (next < start ==> r == Refused)
            && (Meets(start, next, snapLSN) ==>
                 && (r == Refused || ReplaysTo(f, r, next, Skip(es[..n], next - start), q))
                 && (r != Refused <==>
                       || cut == |SegmentBytes(f, start, es[..n])|
                       || (isLast && f.repair(SegmentBytes(f, start, es)[HEADER_SIZE..cut], next + |Skip(es[..n], next - start)|))))
  {
    hide Decodes, ReplaysTo, Skip;
    var frames := Join(Sealed(f, start, es));
    HeadSize(f, start);
    CutAfterHeader(f.head(start), frames, cut);
    AfterHeader(f, start, frames[..cut - HEADER_SIZE], next, isLast, q, snapLSN);
    if Meets(start, next, snapLSN) {
      assert SegmentBytes(f, start, es)[HEADER_SIZE..cut] == frames[..cut - HEADER_SIZE];
      HeadSize(f, start);
      CutBodyReplays(f, start, es, cut - HEADER_SIZE, next, isLast, q, snapLSN);
    }
  }
}
