/** Crashes. Whatever the log protocol was doing, a crash keeps every fsynced byte and any
    prefix of the rest, in every file whose directory entry is synced and in any of the
    others. Recovery of what is left, if it opens, is the queue the store had at some length
    of its log. If the segment being written is among it, that length includes everything
    the store promised. */
module WalCrash {
  import opened Records
  import opened Chunks
  import opened Frames
  import opened Folds
  import opened Recovery
  import opened Wal
  import opened WalSafety

  /** What a crash leaves. */
  datatype Wreck<E> = Wreck(
    segs: seq<Seg<E>>,  // the segments that are there, oldest first
    cut: nat,           // how much of the last of them
    tail: seq<File>,    // a segment file without entries, cut inside its header or after it
    snaps: seq<File>)   // the snapshots that are there, oldest first

  /** A crash keeps every file whose directory entry is synced. Others may be there or
      not: removed ones, the newest segments, a snapshot just renamed. */
  ghost predicate WreckOk<Q, E>(f: Format<Q, E>, s: Wal<Q, E>, w: Wreck<E>) {
    SegsOk(f, s.d, w.segs, w.cut) && SnapsOk(s.d, w.snaps) && TailOk(f, s.d, |s.log|, w)
  }

  /** Fsynced bytes stay, and any prefix of the rest. */
  ghost predicate SegsOk<Q, E>(f: Format<Q, E>, d: Files<E>, segs: seq<Seg<E>>, cut: nat) {
    && (forall i, j :: 0 <= i < j < |segs| ==> segs[i].start < segs[j].start)
    && (forall x <- segs :: MayBe(d, x))
    && (forall i :: 0 <= i < |Live(d)| - d.adrift ==> Live(d)[i] in segs)
    && (segs != [] ==> Last(segs).synced <= cut <= |FileBytes(f, Last(segs))|)
  }

  ghost predicate MayBe<E>(d: Files<E>, x: Seg<E>) { x in d.staleSegs || x in Live(d) }

  ghost predicate SnapsOk<E>(d: Files<E>, snaps: seq<File>) {
    && Ascending(snaps)
    && (forall x <- snaps :: x in d.staleSnaps || d.snap == Some(x) || Visible(d, x))
    && (d.snap.Some? && !d.snapAdrift ==> d.snap.value in snaps)
    && (d.newer.Some? && d.newer.value.vis == Durable ==> d.newer.value.snap in snaps)
  }

  predicate Visible<E>(d: Files<E>, x: File) { d.newer.Some? && d.newer.value.vis != Hidden && d.newer.value.snap == x }

  ghost predicate Ascending(files: seq<File>) {
    forall i, j :: 0 <= i < j < |files| ==> files[i].start < files[j].start
  }

  /** The segment being created; or the active one, gone but for part of its header. */
  ghost predicate TailOk<Q, E>(f: Format<Q, E>, d: Files<E>, n: nat, w: Wreck<E>) {
    w.tail != [] ==>
      || (d.creating.Some? && Unborn(f, n + 1, w.tail) && |w.tail[0].bytes| <= d.creating.value)
      || (d.active !in w.segs && Unborn(f, d.active.start, w.tail) && |w.tail[0].bytes| < HEADER_SIZE)
  }

  /** Nothing, or a segment file cut inside its header or right after it. */
  predicate Unborn<Q, E>(f: Format<Q, E>, start: nat, tail: seq<File>) {
    tail == [] || (|tail| == 1 && tail[0].start == start && tail[0].bytes <= f.head(start))
  }

  function Last<E>(segs: seq<Seg<E>>): Seg<E>
    requires segs != []
  {
    segs[|segs| - 1]
  }

  function LiveFiles<Q, E>(f: Format<Q, E>, segs: seq<Seg<E>>, cut: nat): (fs: seq<File>)
    ensures |fs| == |segs|
    ensures forall i :: 0 <= i < |segs| ==> fs[i].start == segs[i].start
  {
    seq(|segs|, i requires 0 <= i < |segs| =>
      var b := FileBytes(f, segs[i]);
      File(segs[i].start, if i == |segs| - 1 && cut <= |b| then b[..cut] else b))
  }

  function DiskAfter<Q, E>(f: Format<Q, E>, w: Wreck<E>): Disk {
    Disk(LiveFiles(f, w.segs, w.cut) + w.tail, w.snaps)
  }

  /** The number of the snapshot recovery loads. */
  function Loaded<E>(w: Wreck<E>): nat { if w.snaps == [] then 0 else w.snaps[|w.snaps| - 1].start }

  /** The last entry that is left. */
  function Reach<Q, E>(f: Format<Q, E>, w: Wreck<E>): nat { Upto(f, w.segs, w.cut, Loaded(w)) }

  function Upto<Q, E>(f: Format<Q, E>, segs: seq<Seg<E>>, cut: nat, from: nat): nat {
    if segs == [] then from else Max(from, Survived(f, Last(segs), cut))
  }

  // ---- one segment ----

  /** The last entry of a segment that a cut leaves whole. */
  function Survived<Q, E>(f: Format<Q, E>, x: Seg<E>, cut: nat): nat {
    Max(1, x.start) - 1 + WholeEntries(f, x.start, x.es, cut)
  }

  /** An entry survives a cut exactly when it ends before it. */
  lemma SurvivesIffEnds<Q(!new), E(!new)>(f: Format<Q, E>, x: Seg<E>, cut: nat, l: nat)
    requires Decodes(f) && HEADER_SIZE <= cut && 1 <= x.start && l < x.start + |x.es|
    ensures l <= Survived(f, x, cut) <==> EndsBy(f, x, l, cut)
  {
    if x.start <= l {
      var k, n := l - x.start + 1, WholeEntries(f, x.start, x.es, cut);
      HeadSize(f, x.start);
      if k <= n {
        SealedTake(f, x.start, x.es, n);
        WholeWithin(Sealed(f, x.start, x.es), cut - HEADER_SIZE);
        EndMonotone(f, x, k, n);
      }
      if EntryEnd(f, x, k) <= cut {
        WholeAtLeast(f, x, x.es, cut, k);
      }
    }
  }

  /** The cut is between entries. */
  predicate Clean<Q, E>(f: Format<Q, E>, x: Seg<E>, cut: nat) {
    cut == EntryEnd(f, x, WholeEntries(f, x.start, x.es, cut))
  }

  /** What is torn at the end may be cut off. */
  predicate Repairs<Q, E>(f: Format<Q, E>, x: Seg<E>, cut: nat, next: nat) {
    HEADER_SIZE <= cut <= |FileBytes(f, x)| && f.repair(FileBytes(f, x)[HEADER_SIZE..cut], next)
  }

  /** Reading back a segment cut at any byte: refused, or exactly the entries that survive,
      from the next one on. It is refused exactly if the cut is inside an entry, unless it is
      the last one and its tail may be cut off; a segment that begins after the next entry
      always is. */
  lemma CutFileReplays<Q(!new), E(!new)>(f: Format<Q, E>, x: Seg<E>, cut: nat, next: nat, isLast: bool, q: Q, snapNo: nat)
    requires Decodes(f) && Readable(f, x.start, x.es) && 1 <= x.start
    requires x.half.Some? ==> HalfOk(f, x.start - 1 + |x.es|, x.half.value.0, x.half.value.1)
    requires HEADER_SIZE <= cut <= |FileBytes(f, x)|
    ensures var r := f.segment(File(x.start, FileBytes(f, x)[..cut]), next, isLast, q, snapNo);
            var n := WholeEntries(f, x.start, x.es, cut);
            && (next < x.start ==> r == Refused)
            && (Meets(x.start, next, snapNo) ==>
                 && (r == Refused || ReplaysTo(f, r, next, Skip(x.es[..n], next - x.start), q))
                 && (r != Refused <==>
                       Clean(f, x, cut) || (isLast && Repairs(f, x, cut, next + |Skip(x.es[..n], next - x.start)|))))
  {
    hide Decodes, ReplaysTo, Skip;
    var es := if x.half.Some? then x.es + [x.half.value.0] else x.es;
    HalfIsCut(f, x, es, cut);
    var n := WholeEntries(f, x.start, es, cut);
    CutSegmentReplays(f, x.start, es, cut, next, isLast, q, snapNo);
    WholeAtMost(f, x, es, cut, n);
    SameWhole(f, x, es, cut);
    assert es[..n] == x.es[..n];
    assert FileBytes(f, x)[HEADER_SIZE..cut] == FileBytes(f, x)[..cut][HEADER_SIZE..];
    assert SegmentBytes(f, x.start, es)[HEADER_SIZE..cut] == SegmentBytes(f, x.start, es)[..cut][HEADER_SIZE..];
  }

  lemma SameWhole<Q(!new), E(!new)>(f: Format<Q, E>, x: Seg<E>, es: seq<E>, cut: nat)
    requires Decodes(f) && HEADER_SIZE <= cut && x.es <= es && WholeEntries(f, x.start, es, cut) <= |x.es|
    ensures WholeEntries(f, x.start, es, cut) == WholeEntries(f, x.start, x.es, cut)
  {
    var n, k := WholeEntries(f, x.start, es, cut), WholeEntries(f, x.start, x.es, cut);
    HeadSize(f, x.start);
    var bs, cs := Sealed(f, x.start, es), Sealed(f, x.start, x.es);
    WholeWithin(bs, cut - HEADER_SIZE);
    WholeWithin(cs, cut - HEADER_SIZE);
    assert bs[..n] == cs[..n] && bs[..k] == cs[..k];
    WholeKeeps(cs, cut - HEADER_SIZE, n);
    WholeKeeps(bs, cut - HEADER_SIZE, k);
  }

  lemma WholeFileSurvives<Q(!new), E(!new)>(f: Format<Q, E>, x: Seg<E>)
    requires Decodes(f)
    ensures WholeEntries(f, x.start, x.es, |FileBytes(f, x)|) == |x.es|
  {
    HeadSize(f, x.start);
    assert x.es[..|x.es|] == x.es;
    WholeAtLeast(f, x, x.es, |FileBytes(f, x)|, |x.es|);
  }

  lemma WholeClean<Q(!new), E(!new)>(f: Format<Q, E>, x: Seg<E>)
    requires Decodes(f) && x.half.None?
    ensures WholeEntries(f, x.start, x.es, |FileBytes(f, x)|) == |x.es| && Clean(f, x, |FileBytes(f, x)|)
  {
    hide Decodes, WholeEntries;
    WholeFileSurvives(f, x);
    assert x.es[..|x.es|] == x.es;
  }

  lemma HalfIsCut<Q, E>(f: Format<Q, E>, x: Seg<E>, es: seq<E>, cut: nat)
    requires cut <= |FileBytes(f, x)|
    requires es == if x.half.Some? then x.es + [x.half.value.0] else x.es
    ensures cut <= |SegmentBytes(f, x.start, es)|
    ensures FileBytes(f, x)[..cut] == SegmentBytes(f, x.start, es)[..cut]
  {
    if x.half.Some? {
      AppendBytes(f, x.start, x.es, x.half.value.0);
      var frame := f.seal(FrameOf(f, x.start + |x.es|, x.half.value.0));
      var bytes := SegmentBytes(f, x.start, x.es);
      hide SegmentBytes;
      assert HalfFrame(f, x) <= frame;
      CutInside(bytes, HalfFrame(f, x), frame, cut);
    }
  }

  lemma CutInside(a: Bytes, b: Bytes, c: Bytes, cut: nat)
    requires b <= c && cut <= |a + b|
    ensures cut <= |a + c| && (a + b)[..cut] == (a + c)[..cut]
  {
  }

  lemma WholeAtLeast<Q(!new), E(!new)>(f: Format<Q, E>, x: Seg<E>, es: seq<E>, cut: nat, k: nat)
    requires Decodes(f) && HEADER_SIZE <= cut && x.es <= es && k <= |x.es| && EntryEnd(f, x, k) <= cut
    ensures k <= WholeEntries(f, x.start, es, cut)
  {
    HeadSize(f, x.start);
    assert es[..k] == x.es[..k];
    SealedTake(f, x.start, es, k);
    WholeKeeps(Sealed(f, x.start, es), cut - HEADER_SIZE, k);
  }

  lemma WholeAtMost<Q(!new), E(!new)>(f: Format<Q, E>, x: Seg<E>, es: seq<E>, cut: nat, n: nat)
    requires Decodes(f) && HEADER_SIZE <= cut <= |FileBytes(f, x)| && 1 <= x.start
    requires es == if x.half.Some? then x.es + [x.half.value.0] else x.es
    requires x.half.Some? ==> HalfOk(f, x.start - 1 + |x.es|, x.half.value.0, x.half.value.1)
    requires n == WholeEntries(f, x.start, es, cut)
    ensures n <= |x.es|
  {
    hide Decodes, Fits;
    if x.half.Some? {
      HeadSize(f, x.start);
      var bs := Sealed(f, x.start, es);
      AppendBytes(f, x.start, x.es, x.half.value.0);
      WholeShort(bs, cut - HEADER_SIZE);
    }
  }

  // ---- the segments that are left ----

  /** A segment file without entries: refused, or nothing to replay. It is refused exactly if
      its header is whole and it begins after the next entry. */
  lemma TailReplays<Q(!new), E(!new)>(f: Format<Q, E>, tail: seq<File>, next: nat, q: Q, snapNo: nat)
    requires Decodes(f) && (tail != [] ==> Unborn(f, tail[0].start, tail) && next <= tail[0].start < TWO_64)
    ensures var r := ReplaySegments(f, tail, next, q, snapNo);
            && (r == None || r == Some((q, next)))
            && (r.Some? <==> tail == [] || |tail[0].bytes| < HEADER_SIZE || tail[0].start == next)
  {
    if tail != [] {
      var b, start := tail[0].bytes, tail[0].start;
      HeadSize(f, start);
      assert tail[1..] == [];
      assert ReaderOk(f, b) && ReaderOk(f, []) && SegmentOk(f, tail[0], next, true, q, snapNo);
      if |b| == HEADER_SIZE {
        assert tail[0] == File(start, f.head(start) + []);
        AfterHeader(f, start, [], next, true, q, snapNo);
      }
    }
  }

  lemma LiveFilesCons<Q, E>(f: Format<Q, E>, segs: seq<Seg<E>>, cut: nat, tail: seq<File>)
    requires |segs| > 1
    ensures [File(segs[0].start, FileBytes(f, segs[0]))] + (LiveFiles(f, segs[1..], cut) + tail) == LiveFiles(f, segs, cut) + tail
  {
    hide FileBytes;
    var all, rest := LiveFiles(f, segs, cut), LiveFiles(f, segs[1..], cut);
    assert all[0] == File(segs[0].start, FileBytes(f, segs[0]));
    forall i | 0 < i < |segs| ensures all[i] == rest[i - 1] {
      assert segs[1..][i - 1] == segs[i];
    }
    assert all == [all[0]] + rest;
  }

  ghost predicate Before<E>(x: Seg<E>, y: Seg<E>) { x.half.None? && x.es != [] && x.start + |x.es| <= y.start }

  /** What holds of the segments a crash leaves, whichever they are. */
  ghost predicate Intact<Q, E>(f: Format<Q, E>, segs: seq<Seg<E>>, log: seq<E>, cut: nat, tail: seq<File>) {
    && |log| + 1 < TWO_64 && (forall e <- log :: Fits(f, e))
    && (forall x <- segs :: Holds(log, x))
    && (forall i, j :: 0 <= i < j < |segs| ==> Before(segs[i], segs[j]))
    && (segs != [] ==> LastIntact(f, Last(segs), cut, tail))
    && (tail != [] ==> Unborn(f, tail[0].start, tail) && tail[0].start < TWO_64)
  }

  ghost predicate LastIntact<Q, E>(f: Format<Q, E>, x: Seg<E>, cut: nat, tail: seq<File>) {
    && HEADER_SIZE <= cut <= |FileBytes(f, x)| && 1 <= x.start
    && (x.half.Some? ==> HalfOk(f, x.start - 1 + |x.es|, x.half.value.0, x.half.value.1))
    && (tail != [] ==> x.half.None? && cut == |FileBytes(f, x)| && x.start + |x.es| <= tail[0].start)
  }

  function Slice<E>(log: seq<E>, i: nat, j: nat): seq<E>
    requires i <= j <= |log|
  {
    log[i..j]
  }

  lemma SliceConcat<E>(log: seq<E>, i: nat, j: nat, k: nat)
    requires i <= j <= k <= |log|
    ensures Slice(log, i, j) + Slice(log, j, k) == Slice(log, i, k)
  {
  }

  lemma HeldReadable<Q, E>(f: Format<Q, E>, log: seq<E>, x: Seg<E>)
    requires Holds(log, x) && |log| + 1 < TWO_64 && (forall e <- log :: Fits(f, e))
    ensures Readable(f, x.start, x.es)
  {
    forall e <- x.es ensures Fits(f, e) {
      assert e in log;
    }
  }

  lemma ContinueReplay<Q, E>(f: Format<Q, E>, all: seq<File>, expected: nat, q: Q, snapNo: nat, r: Segment<Q>)
    requires all != [] && r == f.segment(all[0], expected, |all| == 1, q, snapNo)
    ensures r.Refused? ==> ReplaySegments(f, all, expected, q, snapNo) == None
    ensures r.Replayed? ==> ReplaySegments(f, all, expected, q, snapNo) == ReplaySegments(f, all[1..], r.next, r.q, snapNo)
  {
  }

  lemma HeldSkip<E>(log: seq<E>, x: Seg<E>, n: nat, next: nat)
    requires Holds(log, x) && n <= |x.es| && x.start <= next <= |log| + 1
    ensures var end := Max(next - 1, x.start - 1 + n);
            end <= |log| && Skip(x.es[..n], next - x.start) == Slice(log, next - 1, end)
  {
    if next - x.start <= n {
      assert x.es[..n] == log[x.start - 1..x.start - 1 + n];
    }
  }

  /** The files are refused, or replay to exactly these entries numbered from start. */
  ghost predicate Yields<Q, E>(f: Format<Q, E>, files: seq<File>, start: nat, q: Q, snapNo: nat, es: seq<E>) {
    var r := ReplaySegments(f, files, start, q, snapNo);
    r == None || r == Some((Fold(f.step, q, MapSeq(f.norm, es)), start + |es|))
  }

  /** One segment that is there, cut anywhere: refused, or the entries from the next one on
      that it holds; refused for certain if it begins later. */
  lemma ReplayOne<Q(!new), E(!new)>(f: Format<Q, E>, x: Seg<E>, log: seq<E>, cut: nat, next: nat, isLast: bool, q: Q,
      snapNo: nat) returns (r: Segment<Q>)
    requires Decodes(f) && Holds(log, x) && |log| + 1 < TWO_64 && (forall e <- log :: Fits(f, e))
    requires x.half.Some? ==> HalfOk(f, x.start - 1 + |x.es|, x.half.value.0, x.half.value.1)
    requires HEADER_SIZE <= cut <= |FileBytes(f, x)| && next <= |log| + 1
    requires x.start <= next ==> Meets(x.start, next, snapNo)
    ensures r == f.segment(File(x.start, FileBytes(f, x)[..cut]), next, isLast, q, snapNo)
    ensures Survived(f, x, cut) <= |log| && (next < x.start ==> r == Refused)
    ensures x.start <= next ==>
              r == Refused || ReplaysTo(f, r, next, Slice(log, next - 1, Max(next - 1, Survived(f, x, cut))), q)
    ensures x.start <= next ==>
              (r != Refused <==> Clean(f, x, cut) || (isLast && Repairs(f, x, cut, Max(next - 1, Survived(f, x, cut)) + 1)))
  {
    hide Decodes, ReplaysTo, FileBytes, WholeEntries, Slice, Clean, Repairs;
    HeldReadable(f, log, x);
    CutFileReplays(f, x, cut, next, isLast, q, snapNo);
    r := f.segment(File(x.start, FileBytes(f, x)[..cut]), next, isLast, q, snapNo);
    if x.start <= next {
      var n := Max(next - 1, Survived(f, x, cut));
      HeldSkip(log, x, WholeEntries(f, x.start, x.es, cut), next);
      SliceSize(log, next - 1, n);
    }
  }

  lemma ReplayWhole<Q(!new), E(!new)>(f: Format<Q, E>, x: Seg<E>, log: seq<E>, next: nat, isLast: bool, q: Q, snapNo: nat)
    returns (r: Segment<Q>)
    requires Decodes(f) && Holds(log, x) && |log| + 1 < TWO_64 && (forall e <- log :: Fits(f, e))
    requires x.half.None? && next <= |log| + 1 && (x.start <= next ==> Meets(x.start, next, snapNo))
    ensures r == f.segment(File(x.start, FileBytes(f, x)), next, isLast, q, snapNo)
    ensures next < x.start ==> r == Refused
    ensures x.start <= next ==> ReplaysTo(f, r, next, Slice(log, next - 1, Max(next - 1, x.start - 1 + |x.es|)), q)
  {
    hide Decodes, ReplaysTo, Fits, Slice, WholeEntries, ReplaySegment;
    HeadSize(f, x.start);
    var b := FileBytes(f, x);
    assert b[..|b|] == b;
    WholeFileSurvives(f, x);
    assert x.es[..|x.es|] == x.es;
    r := ReplayOne(f, x, log, |b|, next, isLast, q, snapNo);
  }

  /** No entry is missing between the segments, nor before the first. */
  ghost predicate Joined<E>(segs: seq<Seg<E>>, next: nat) {
    && (segs != [] ==> segs[0].start <= next)
    && (forall i, j :: 0 <= i && j == i + 1 < |segs| ==> Follows(segs[i], segs[j]))
  }

  /** Nothing at the end keeps the log from opening: a torn last entry may be cut off, and no
      header says that its segment begins after an entry that is missing. n is the last
      entry left. */
  ghost predicate EndsWell<Q, E>(f: Format<Q, E>, segs: seq<Seg<E>>, cut: nat, tail: seq<File>, n: nat) {
    && (segs != [] && tail == [] ==> Clean(f, Last(segs), cut) || Repairs(f, Last(segs), cut, n + 1))
    && (tail != [] && |tail[0].bytes| >= HEADER_SIZE ==> tail[0].start == n + 1)
  }

  /** What a replay of these files comes to. */
  ghost predicate Gives<Q, E>(f: Format<Q, E>, segs: seq<Seg<E>>, log: seq<E>, cut: nat, tail: seq<File>, q: Q, snapNo: nat,
      next: nat)
    requires 1 <= next
  {
    var files, n := LiveFiles(f, segs, cut) + tail, Upto(f, segs, cut, next - 1);
    && next - 1 <= n <= |log| && Yields(f, files, next, q, snapNo, Slice(log, next - 1, n))
    && (ReplaySegments(f, files, next, q, snapNo).Some? <==> Joined(segs, next) && EndsWell(f, segs, cut, tail, n))
  }

  lemma ConsYields<Q, E>(f: Format<Q, E>, file: File, rest: seq<File>, q: Q, snapNo: nat, next: nat, r: Segment<Q>,
      a: seq<E>, b: seq<E>)
    requires r == f.segment(file, next, rest == [], q, snapNo)
    requires r == Refused || (ReplaysTo(f, r, next, a, q) && Yields(f, rest, next + |a|, r.q, snapNo, b))
    ensures Yields(f, [file] + rest, next, q, snapNo, a + b)
    ensures ReplaySegments(f, [file] + rest, next, q, snapNo).Some? <==>
              r.Replayed? && ReplaySegments(f, rest, next + |a|, r.q, snapNo).Some?
  {
    hide ReplaySegments, Fold, MapSeq;
    var all := [file] + rest;
    assert all[0] == file && all[1..] == rest && (|all| == 1 <==> rest == []);
    ContinueReplay(f, all, next, q, snapNo, r);
    if r != Refused {
      FoldBoth(f, q, a, b);
    }
  }

  lemma FoldBoth<Q, E>(f: Format<Q, E>, q: Q, a: seq<E>, b: seq<E>)
    ensures Fold(f.step, Fold(f.step, q, MapSeq(f.norm, a)), MapSeq(f.norm, b)) == Fold(f.step, q, MapSeq(f.norm, a + b))
  {
    MapSeqConcat(f.norm, a, b);
    FoldConcat(f.step, q, MapSeq(f.norm, a), MapSeq(f.norm, b));
  }

  lemma TailYields<Q(!new), E(!new)>(f: Format<Q, E>, tail: seq<File>, next: nat, q: Q, snapNo: nat)
    requires Decodes(f) && 1 <= next && (tail != [] ==> Unborn(f, tail[0].start, tail) && next <= tail[0].start < TWO_64)
    ensures Yields<Q, E>(f, tail, next, q, snapNo, [])
    ensures ReplaySegments(f, tail, next, q, snapNo).Some? <==> EndsWell<Q, E>(f, [], 0, tail, next - 1)
  {
    TailReplays(f, tail, next, q, snapNo);
  }

  /** The last segment, cut, then whatever segment file without entries. */
  lemma ReplayLast<Q(!new), E(!new)>(f: Format<Q, E>, x: Seg<E>, log: seq<E>, cut: nat, tail: seq<File>, q: Q, snapNo: nat,
      next: nat)
    requires Decodes(f) && Intact(f, [x], log, cut, tail) && 1 <= next <= |log| + 1
    requires (x.start <= next ==> Meets(x.start, next, snapNo)) && (tail != [] ==> next <= tail[0].start)
    ensures Gives(f, [x], log, cut, tail, q, snapNo, next)
  {
    hide Decodes, Yields, FileBytes, Slice, WholeEntries, Unborn, ReplaysTo, Fits, ReplaySegments;
    var segs := [x];
    assert x in segs && Last(segs) == x;
    var r := ReplayOne(f, x, log, cut, next, tail == [], q, snapNo);
    var file, n := File(x.start, FileBytes(f, x)[..cut]), Upto(f, segs, cut, next - 1);
    assert LiveFiles(f, segs, cut) == [file];
    var a := Slice(log, next - 1, n);
    assert a + [] == a;
    hide Clean, Repairs;
    if tail != [] {
      WholeClean(f, x);
    }
    if r != Refused {
      SliceSize(log, next - 1, n);
      ReplayedQ(f, r, next, a, q);
      TailYields<Q, E>(f, tail, n + 1, r.q, snapNo);
    }
    ConsYields(f, file, tail, q, snapNo, next, r, a, []);
  }

  lemma SliceSize<E>(log: seq<E>, i: nat, j: nat)
    requires i <= j <= |log|
    ensures |Slice(log, i, j)| == j - i
  {
  }

  lemma ReplayedQ<Q, E>(f: Format<Q, E>, r: Segment<Q>, next: nat, es: seq<E>, q: Q)
    requires ReplaysTo(f, r, next, es, q)
    ensures r.Replayed?
  {
  }

  lemma IntactRest<Q, E>(f: Format<Q, E>, segs: seq<Seg<E>>, log: seq<E>, cut: nat, tail: seq<File>, k: nat)
    requires Intact(f, segs, log, cut, tail) && k <= |segs|
    ensures Intact(f, segs[k..], log, cut, tail)
  {
  }

  /** Where replay stands after the first segment, and why the rest meets it there. */
  lemma NextMeets<Q, E>(f: Format<Q, E>, segs: seq<Seg<E>>, log: seq<E>, cut: nat, tail: seq<File>, snapNo: nat, next: nat)
    requires Intact(f, segs, log, cut, tail) && |segs| > 1 && snapNo < next && segs[0].start <= next
    requires (segs[0].start < next ==> next == snapNo + 1) && segs[1].start > snapNo + 1
    ensures var end := Max(next - 1, segs[0].start - 1 + |segs[0].es|);
            && 1 <= segs[0].start && Before(segs[0], segs[1]) && Holds(log, segs[0])
            && snapNo < end + 1 <= segs[1].start && (segs[1].start == end + 1 ==> Follows(segs[0], segs[1]))
            && (|segs| > 2 ==> segs[2].start > snapNo + 1)
            && Upto(f, segs, cut, next - 1) == Upto(f, segs[1..], cut, end)
  {
    hide WholeEntries, FileBytes, Fits;
    assert segs[0] in segs && segs[1] in segs;
    assert Before(segs[0], segs[1]);
    if |segs| > 2 { assert Before(segs[1], segs[2]); }
    assert Before(segs[0], Last(segs)) && Last(segs[1..]) == Last(segs);
  }

  lemma FirstSealed<Q, E>(f: Format<Q, E>, segs: seq<Seg<E>>, log: seq<E>, cut: nat, tail: seq<File>)
    requires Intact(f, segs, log, cut, tail) && |segs| > 1
    ensures Holds(log, segs[0]) && segs[0].half.None? && |log| + 1 < TWO_64 && (forall e <- log :: Fits(f, e))
    ensures segs[1].start <= Last(segs).start && (tail != [] ==> Last(segs).start + |Last(segs).es| <= tail[0].start)
    ensures segs[0].start - 1 + |segs[0].es| <= |log|
  {
    assert Before(segs[0], segs[1]) && segs[0] in segs;
    if |segs| > 2 { assert Before(segs[1], Last(segs)); }
  }

  lemma LastHeld<Q, E>(f: Format<Q, E>, segs: seq<Seg<E>>, log: seq<E>, cut: nat, tail: seq<File>)
    requires Intact(f, segs, log, cut, tail) && segs != []
    ensures Survived(f, Last(segs), cut) <= |log| && 1 <= Last(segs).start
  {
    assert Last(segs) in segs;
  }

  lemma ReplayNone<Q(!new), E(!new)>(f: Format<Q, E>, log: seq<E>, cut: nat, tail: seq<File>, q: Q, snapNo: nat, next: nat)
    requires Decodes(f) && Intact(f, [], log, cut, tail) && 1 <= next <= |log| + 1 && (tail != [] ==> next <= tail[0].start)
    ensures Gives(f, [], log, cut, tail, q, snapNo, next)
  {
    hide Decodes, ReplaySegments;
    TailYields<Q, E>(f, tail, next, q, snapNo);
    assert Slice(log, next - 1, next - 1) == [];
    assert LiveFiles(f, [], cut) + tail == tail;
  }

  /** The first segment begins after the next entry: that entry is missing. */
  lemma ReplayGap<Q(!new), E(!new)>(
    f: Format<Q, E>, segs: seq<Seg<E>>, log: seq<E>, cut: nat, tail: seq<File>, q: Q, snapNo: nat, next: nat)
    requires Decodes(f) && Intact(f, segs, log, cut, tail) && |segs| > 1 && 1 <= next < segs[0].start && next <= |log| + 1
    ensures Gives(f, segs, log, cut, tail, q, snapNo, next)
  {
    hide Decodes, FileBytes, Slice, WholeEntries, Intact, ReplaysTo, Fold, MapSeq;
    FirstSealed(f, segs, log, cut, tail);
    LastHeld(f, segs, log, cut, tail);
    var r := ReplayWhole(f, segs[0], log, next, false, q, snapNo);
    LiveFilesCons(f, segs, cut, tail);
    var file, rest := File(segs[0].start, FileBytes(f, segs[0])), LiveFiles(f, segs[1..], cut) + tail;
    var all := [file] + rest;
    assert all[0] == file && |all| > 1;
    ContinueReplay(f, all, next, q, snapNo, r);
  }

  lemma ReplayMore<Q, E>(f: Format<Q, E>, segs: seq<Seg<E>>, log: seq<E>, cut: nat, tail: seq<File>, q: Q, snapNo: nat,
      next: nat, r: Segment<Q>, end: nat)
    requires |segs| > 1 && 1 <= next <= end + 1 <= segs[1].start && end <= |log| && segs[0].start <= next
    requires segs[0].start + |segs[0].es| <= end + 1 && (segs[1].start == end + 1 ==> Follows(segs[0], segs[1]))
    requires r == f.segment(File(segs[0].start, FileBytes(f, segs[0])), next, false, q, snapNo)
    requires ReplaysTo(f, r, next, Slice(log, next - 1, end), q) && Gives(f, segs[1..], log, cut, tail, r.q, snapNo, end + 1)
    requires Upto(f, segs, cut, next - 1) == Upto(f, segs[1..], cut, end)
    ensures Gives(f, segs, log, cut, tail, q, snapNo, next)
  {
    hide Yields, FileBytes, Fold, MapSeq, ReplaySegments, ReplaysTo, Slice, Survived, Joined, Clean, Repairs;
    ReplayedQ(f, r, next, Slice(log, next - 1, end), q);
    var file, rest := File(segs[0].start, FileBytes(f, segs[0])), LiveFiles(f, segs[1..], cut) + tail;
    var n := Upto(f, segs, cut, next - 1);
    SliceSize(log, next - 1, end);
    ConsYields(f, file, rest, q, snapNo, next, r, Slice(log, next - 1, end), Slice(log, end, n));
    SliceConcat(log, next - 1, end, n);
    LiveFilesCons(f, segs, cut, tail);
    JoinedMore(segs, next, end);
    assert Last(segs[1..]) == Last(segs);
  }

  lemma JoinedMore<E>(segs: seq<Seg<E>>, next: nat, end: nat)
    requires |segs| > 1 && segs[0].start <= next && segs[0].start + |segs[0].es| <= end + 1 <= segs[1].start
    requires segs[1].start == end + 1 ==> Follows(segs[0], segs[1])
    ensures Joined(segs, next) <==> Joined(segs[1..], end + 1)
  {
    var rest := segs[1..];
    if Joined(rest, end + 1) {
      forall i, j | 0 <= i && j == i + 1 < |segs| ensures Follows(segs[i], segs[j]) {
        if i > 0 {
          assert Follows(rest[i - 1], rest[j - 1]);
        }
      }
    }
    if Joined(segs, next) {
      assert Follows(segs[0], segs[1]);
      forall i, j | 0 <= i && j == i + 1 < |rest| ensures Follows(rest[i], rest[j]) {
        assert Follows(segs[i + 1], segs[j + 1]);
      }
    }
  }

  /** Whatever segments are there, from the snapshot on: they are refused, or no entry is
      missing between them and they give every entry up to the last that is left. */
  lemma {:induction false} ReplayLeft<Q(!new), E(!new)>(
    f: Format<Q, E>, segs: seq<Seg<E>>, log: seq<E>, cut: nat, tail: seq<File>, q: Q, snapNo: nat, next: nat)
    requires Decodes(f) && Intact(f, segs, log, cut, tail) && snapNo < next <= |log| + 1
    requires (segs != [] && segs[0].start < next ==> next == snapNo + 1) && (|segs| > 1 ==> segs[1].start > snapNo + 1)
    requires tail != [] ==> next <= tail[0].start
    ensures Gives(f, segs, log, cut, tail, q, snapNo, next)
    decreases |segs|
  {
    hide Decodes, Yields, FileBytes, Slice, WholeEntries, Intact, ReplaySegments, ReplaysTo;
    if segs == [] {
      ReplayNone(f, log, cut, tail, q, snapNo, next);
    } else if |segs| == 1 {
      assert segs == [segs[0]];
      ReplayLast(f, segs[0], log, cut, tail, q, snapNo, next);
    } else {
      if next < segs[0].start {
        ReplayGap(f, segs, log, cut, tail, q, snapNo, next);
      } else {
        NextMeets(f, segs, log, cut, tail, snapNo, next);
        IntactRest(f, segs, log, cut, tail, 1);
        var end := Max(next - 1, segs[0].start - 1 + |segs[0].es|);
        FirstSealed(f, segs, log, cut, tail);
        var r := ReplayWhole(f, segs[0], log, next, false, q, snapNo);
        ReplayedQ(f, r, next, Slice(log, next - 1, end), q);
        ReplayLeft(f, segs[1..], log, cut, tail, r.q, snapNo, end + 1);
        ReplayMore(f, segs, log, cut, tail, q, snapNo, next, r, end);
      }
    }
  }

  // ---- the whole directory ----

  /** How many files the snapshot covers. */
  lemma {:induction false} DropIs(files: seq<File>, expected: nat) returns (k: nat)
    ensures k <= |files| && (k == 0 || k < |files|) && DropCovered(files, expected) == files[k..]
    ensures (k + 1 < |files| ==> files[k + 1].start > expected) && (k > 0 ==> files[k].start <= expected)
  {
    if |files| > 1 && files[1].start <= expected {
      var n := DropIs(files[1..], expected);
      k := n + 1;
      assert files[1..][n..] == files[k..];
      if n > 0 { assert files[1..][n] == files[k]; }
      if n + 1 < |files[1..]| { assert files[1..][n + 1] == files[k + 1]; }
    } else {
      k := 0;
    }
  }

  lemma LiveFilesSplit<Q, E>(f: Format<Q, E>, segs: seq<Seg<E>>, cut: nat, k: nat)
    requires k <= |segs|
    ensures LiveFiles(f, segs, cut)[k..] == LiveFiles(f, segs[k..], cut)
  {
  }

  /** What recovery replays of the files that are left: those from the kth on. */
  ghost predicate Starts<Q, E>(f: Format<Q, E>, w: Wreck<E>, k: nat) {
    var files := DiskAfter(f, w).segs;
    k <= |files| && DropCovered(files, Loaded(w) + 1) == files[k..]
  }

  function Rest<E>(w: Wreck<E>, k: nat): seq<Seg<E>> { if k <= |w.segs| then w.segs[k..] else [] }

  lemma RestFiles<Q, E>(f: Format<Q, E>, w: Wreck<E>, k: nat)
    requires k <= |w.segs|
    ensures DiskAfter(f, w).segs[k..] == LiveFiles(f, Rest(w, k), w.cut) + w.tail
  {
    hide FileBytes;
    LiveFilesSplit(f, w.segs, w.cut, k);
    var fs := LiveFiles(f, w.segs, w.cut);
    assert (fs + w.tail)[k..] == fs[k..] + w.tail;
  }

  /** The segments recovery starts at: the first reaches past the snapshot, or all are
      covered but for a file without entries. */
  lemma RestMeets<Q, E>(f: Format<Q, E>, w: Wreck<E>, log: seq<E>, k: nat)
    requires Intact(f, w.segs, log, w.cut, w.tail) && Starts(f, w, k) && |w.tail| <= 1
    requires w.tail != [] ==> Loaded(w) < w.tail[0].start
    ensures k <= |w.segs| && (|Rest(w, k)| > 1 ==> Rest(w, k)[1].start > Loaded(w) + 1)
    ensures Upto(f, Rest(w, k), w.cut, Loaded(w)) == Reach(f, w)
  {
    hide FileBytes, WholeEntries, Fits;
    var files, l := DiskAfter(f, w).segs, Loaded(w);
    var n := DropIs(files, l + 1);
    assert |files[n..]| == |files| - n && |files[k..]| == |files| - k;
    var rest := Rest(w, k);
    if |rest| > 1 {
      assert files[k + 1].start == w.segs[k + 1].start;
    }
    if k < |w.segs| {
      assert Last(rest) == Last(w.segs);
    } else if w.segs != [] {
      assert files[k] == w.tail[0] && Last(w.segs) in w.segs;
    }
  }

  lemma {:induction false} HistoryReplays<Q(!new), E(!new)>(m: Model<Q, E>, log: seq<E>, hist: seq<Q>, q: Q, i: nat, n: nat)
    requires Lawful(m) && History(m, log, hist) && i <= n <= |log|
    requires m.view(q) == m.view(hist[i]) && m.good(q)
    ensures m.f.finish(Fold(m.f.step, q, MapSeq(m.f.norm, Slice(log, i, n)))) == m.view(hist[n])
    ensures m.view(Fold(m.f.step, q, MapSeq(m.f.norm, Slice(log, i, n)))) == m.view(hist[n])
    ensures m.good(Fold(m.f.step, q, MapSeq(m.f.norm, Slice(log, i, n))))
    decreases n
  {
    var es := MapSeq(m.f.norm, Slice(log, i, n));
    if i < n {
      HistoryReplays(m, log, hist, q, i, n - 1);
      var init := MapSeq(m.f.norm, Slice(log, i, n - 1));
      assert es[..|es| - 1] == init && es[|es| - 1] == m.f.norm(log[n - 1]);
      var a := Fold(m.f.step, q, init);
      assert SameAfter(m, hist[n - 1], a, log[n - 1]) && GoodAfter(m, a, log[n - 1]);
    } else {
      assert es == [];
    }
  }

  /** Recovery loads a good snapshot, or starts empty. */
  lemma LoadedSnapshot<Q(!new), E(!new)>(m: Model<Q, E>, s: Wal<Q, E>, w: Wreck<E>) returns (q: Q)
    requires Lawful(m) && Inv(m, s) && WreckOk(m.f, s, w)
    ensures var d := DiskAfter(m.f, w);
            && Some(q) == (if d.snaps == [] then Some(m.f.init) else LoadSnapshot(m.f, d.snaps[|d.snaps| - 1]))
            && SnapLSN(d) == Loaded(w) <= |s.log| && m.good(q) && m.view(q) == m.view(s.hist[Loaded(w)])
  {
    hide Chained, Synced, Counters, Loose, Removed, Placed, Decodes, LoadSnapshot, LiveFiles, SegsOk, TailOk;
    if w.snaps == [] {
      q := m.f.init;
    } else {
      var x := w.snaps[|w.snaps| - 1];
      assert x in w.snaps;
      assert SnapGood(m, s.hist, x);
      q := LoadSnapshot(m.f, x).value;
    }
  }

  // ---- what the protocol's state says of what is left ----

  /** Files that may be there do not overlap, and all but the active one are whole. */
  lemma Apart<Q, E>(m: Model<Q, E>, s: Wal<Q, E>, x: Seg<E>, y: Seg<E>)
    requires Inv(m, s) && MayBe(s.d, x) && MayBe(s.d, y) && x.start < y.start
    ensures Before(x, y) && Settled(m.f, x)
  {
    hide Counters, Loose, History, Snapshots, Placed, FileBytes, Holds;
    var ls := Live(s.d);
    if y in ls {
      var j :| 0 <= j < |ls| && ls[j] == y;
      if x in ls {
        var i :| 0 <= i < |ls| && ls[i] == x;
        if j < i {
          StartsIncrease(ls, s.log, j, i);
        } else {
          EndsBeforeNext(ls, s.log, i, j);
          assert Follows(ls[i], ls[i + 1]) && x in s.d.closed;
        }
      } else if j > 0 {
        StartsIncrease(ls, s.log, 0, j);
      }
    } else if x in ls {
      var i :| 0 <= i < |ls| && ls[i] == x;
      if i > 0 {
        StartsIncrease(ls, s.log, 0, i);
      }
    }
  }

  lemma MayBeHeld<Q(!new), E(!new)>(m: Model<Q, E>, s: Wal<Q, E>, x: Seg<E>)
    requires Decodes(m.f) && Inv(m, s) && MayBe(s.d, x)
    ensures Holds(s.log, x) && HEADER_SIZE <= x.synced && (x == s.d.active || Settled(m.f, x))
    ensures x.start + |x.es| <= s.d.active.start || x == s.d.active
    ensures x.half.Some? ==> HalfOk(m.f, x.start - 1 + |x.es|, x.half.value.0, x.half.value.1)
  {
    hide Decodes, Counters, Loose, History, Snapshots, Placed, HalfOk;
    HeadSize(m.f, x.start);
    ActiveEnd(m, s);
    var ls := Live(s.d);
    if x in ls {
      var i :| 0 <= i < |ls| && ls[i] == x;
      if i < |s.d.closed| {
        EndsBeforeNext(ls, s.log, i, |s.d.closed|);
        assert x in s.d.closed;
      }
    } else if s.d.closed != [] {
      StartsIncrease(ls, s.log, 0, |s.d.closed|);
    }
  }

  lemma TailNumber<Q, E>(m: Model<Q, E>, s: Wal<Q, E>, w: Wreck<E>)
    requires Inv(m, s) && WreckOk(m.f, s, w) && w.tail != []
    ensures Unborn(m.f, w.tail[0].start, w.tail) && s.d.active.start <= w.tail[0].start <= |s.log| + 1
    ensures s.d.active in w.segs ==> w.tail[0].start == |s.log| + 1 && s.d.creating.Some?
  {
    hide Chained, Synced, Counters, Loose, History, Snapshots, Placed, Removed, SegsOk, SnapsOk;
    ActiveEnd(m, s);
  }

  lemma WreckIntact<Q(!new), E(!new)>(m: Model<Q, E>, s: Wal<Q, E>, w: Wreck<E>)
    requires Decodes(m.f) && Inv(m, s) && WreckOk(m.f, s, w)
    ensures Intact(m.f, w.segs, s.log, w.cut, w.tail)
  {
    hide Decodes, Chained, Counters, Loose, Snapshots, Placed, Removed, SnapsOk, TailOk, Unborn, Before, Holds, HalfOk;
    forall x <- w.segs ensures Holds(s.log, x) {
      MayBeHeld(m, s, x);
    }
    forall i, j | 0 <= i < j < |w.segs| ensures Before(w.segs[i], w.segs[j]) {
      assert w.segs[i] in w.segs && w.segs[j] in w.segs;
      Apart(m, s, w.segs[i], w.segs[j]);
    }
    if w.tail != [] {
      TailNumber(m, s, w);
    }
    if w.segs != [] {
      LastLeft(m, s, w);
    }
  }

  lemma LastLeft<Q(!new), E(!new)>(m: Model<Q, E>, s: Wal<Q, E>, w: Wreck<E>)
    requires Decodes(m.f) && Inv(m, s) && WreckOk(m.f, s, w) && w.segs != []
    ensures LastIntact(m.f, Last(w.segs), w.cut, w.tail)
  {
    hide Decodes, Chained, Counters, Loose, History, Snapshots, Placed, Removed, SnapsOk, TailOk, Unborn, HalfOk;
    var x := Last(w.segs);
    assert x in w.segs;
    MayBeHeld(m, s, x);
    if w.tail != [] {
      TailNumber(m, s, w);
      ActiveEnd(m, s);
    }
  }

  /** The active segment is there: then it is the last. */
  lemma StaysLast<Q(!new), E(!new)>(m: Model<Q, E>, s: Wal<Q, E>, w: Wreck<E>)
    requires Decodes(m.f) && Inv(m, s) && WreckOk(m.f, s, w) && s.d.active in w.segs
    ensures Last(w.segs) == s.d.active
  {
    hide Decodes, Inv, SnapsOk, TailOk, FileBytes;
    var i :| 0 <= i < |w.segs| && w.segs[i] == s.d.active;
    var x := Last(w.segs);
    if i < |w.segs| - 1 {
      assert x in w.segs && s.d.active.start < x.start;
      MayBeHeld(m, s, x);
    }
  }

  /** Every snapshot ends before the active segment begins, or inside its fsynced part. */
  lemma LoadedEnds<Q, E>(m: Model<Q, E>, s: Wal<Q, E>, w: Wreck<E>)
    requires Inv(m, s) && WreckOk(m.f, s, w)
    ensures EndsBy(m.f, s.d.active, Loaded(w), s.d.active.synced)
    ensures s.d.active !in w.segs ==> s.d.adrift > 0 && Loaded(w) < s.d.active.start
  {
    hide Chained, Synced, Counters, Loose, History, Removed, TailOk, SnapGood, FileBytes, EntryEnd;
    if s.d.adrift == 0 {
      assert Live(s.d)[|s.d.closed|] in w.segs;
    }
    if w.snaps != [] {
      var x := w.snaps[|w.snaps| - 1];
      assert x in w.snaps;
      if Visible(s.d, x) {
        NewerBefore(m, s);
      } else {
        assert x.start <= SnapNo(s.d);
        EndsBefore(m.f, s.d.active, SnapNo(s.d), x.start, s.d.active.synced);
      }
    } else {
      EndsBefore(m.f, s.d.active, SnapNo(s.d), 0, s.d.active.synced);
    }
  }

  lemma EndsBefore<Q, E>(f: Format<Q, E>, x: Seg<E>, k: nat, l: nat, upto: nat)
    requires EndsBy(f, x, k, upto) && l <= k
    ensures EndsBy(f, x, l, upto)
  {
    if x.start <= l {
      EndMonotone(f, x, l - x.start + 1, k - x.start + 1);
    }
  }

  lemma NewerBefore<Q, E>(m: Model<Q, E>, s: Wal<Q, E>)
    requires Inv(m, s) && s.d.newer.Some?
    ensures s.d.newer.value.snap.start < s.d.active.start
  {
    hide Synced, Counters, Loose, History, Removed, SnapGood, Holds;
    var k :| 0 <= k <= |s.d.closed| && Live(s.d)[k].start == s.d.newer.value.snap.start + 1;
    if k < |s.d.closed| {
      StartsIncrease(Live(s.d), s.log, k, |s.d.closed|);
    }
  }

  lemma LoadedBeforeTail<Q, E>(m: Model<Q, E>, s: Wal<Q, E>, w: Wreck<E>)
    requires Inv(m, s) && WreckOk(m.f, s, w) && w.tail != []
    ensures Loaded(w) < w.tail[0].start
  {
    hide Chained, Synced, Counters, Loose, History, Removed, SegsOk, SnapGood;
    TailNumber(m, s, w);
    LoadedEnds(m, s, w);
    ActiveEnd(m, s);
  }

  /** Everything promised survives, unless the active segment goes with its directory entry. */
  lemma PromiseKept<Q(!new), E(!new)>(m: Model<Q, E>, s: Wal<Q, E>, w: Wreck<E>)
    requires Decodes(m.f) && Inv(m, s) && WreckOk(m.f, s, w) && s.d.active in w.segs
    ensures Reach(m.f, w) == Survived(m.f, s.d.active, w.cut) && Promised(s.c) <= Reach(m.f, w)
  {
    hide Decodes, Chained, Synced, Loose, History, Snapshots, Removed, Placed, SnapsOk, TailOk, WholeEntries, FileBytes;
    StaysLast(m, s, w);
    ActiveEnd(m, s);
    MayBeHeld(m, s, s.d.active);
    LoadedEnds(m, s, w);
    var a := s.d.active;
    EndsSurvives(m.f, a, w.cut, Promised(s.c));
    EndsSurvives(m.f, a, w.cut, Loaded(w));
  }

  lemma EndsSurvives<Q(!new), E(!new)>(f: Format<Q, E>, x: Seg<E>, cut: nat, l: nat)
    requires Decodes(f) && HEADER_SIZE <= x.synced <= cut && 1 <= x.start && EndsBy(f, x, l, x.synced)
    ensures l <= Survived(f, x, cut)
  {
    hide Decodes, WholeEntries;
    EndsByGrown(f, x, x, l, x.synced, cut);
    SurvivesIffEnds(f, x, cut, l);
  }

  /** The disk is refused, or holds a snapshot of q and these entries after it. */
  ghost predicate RecoversTo<Q, E>(f: Format<Q, E>, d: Disk, q: Q, es: seq<E>) {
    var r := Recover(f, d);
    r == None || r == Some((f.finish(Fold(f.step, q, MapSeq(f.norm, es))), SnapLSN(d) + 1 + |es|))
  }

  lemma RecoverYields<Q, E>(f: Format<Q, E>, d: Disk, q: Q, files: seq<File>, es: seq<E>)
    requires Some(q) == if d.snaps == [] then Some(f.init) else LoadSnapshot(f, d.snaps[|d.snaps| - 1])
    requires DropCovered(d.segs, SnapLSN(d) + 1) == files
    requires Yields(f, files, SnapLSN(d) + 1, q, SnapLSN(d), es)
    ensures RecoversTo(f, d, q, es)
    ensures Recover(f, d).Some? <==> ReplaySegments(f, files, SnapLSN(d) + 1, q, SnapLSN(d)).Some?
  {
  }

  lemma LeftGives<Q(!new), E(!new)>(m: Model<Q, E>, s: Wal<Q, E>, w: Wreck<E>, q: Q, k: nat)
    requires Decodes(m.f) && Inv(m, s) && WreckOk(m.f, s, w) && Starts(m.f, w, k) && Loaded(w) <= |s.log|
    ensures k <= |w.segs| && Gives(m.f, Rest(w, k), s.log, w.cut, w.tail, q, Loaded(w), Loaded(w) + 1)
    ensures Upto(m.f, Rest(w, k), w.cut, Loaded(w)) == Reach(m.f, w)
  {
    hide Decodes, Inv, WreckOk, Starts, Gives, Rest, Intact, Upto, Reach;
    WreckIntact(m, s, w);
    if w.tail != [] {
      LoadedBeforeTail(m, s, w);
      TailNumber(m, s, w);
    }
    RestMeets(m.f, w, s.log, k);
    IntactFrom(m.f, w, s.log, k);
    ReplayLeft(m.f, Rest(w, k), s.log, w.cut, w.tail, q, Loaded(w), Loaded(w) + 1);
  }

  lemma IntactFrom<Q, E>(f: Format<Q, E>, w: Wreck<E>, log: seq<E>, k: nat)
    requires Intact(f, w.segs, log, w.cut, w.tail) && k <= |w.segs|
    ensures Intact(f, Rest(w, k), log, w.cut, w.tail)
  {
    IntactRest(f, w.segs, log, w.cut, w.tail, k);
  }

  /** Recovery of what is left: refused, or every entry up to the last one, and then none
      is missing after the snapshot. */
  lemma CrashReplays<Q(!new), E(!new)>(m: Model<Q, E>, s: Wal<Q, E>, w: Wreck<E>, q: Q, k: nat)
    requires Decodes(m.f) && Inv(m, s) && WreckOk(m.f, s, w) && Starts(m.f, w, k) && Loaded(w) <= |s.log|
    requires var d := DiskAfter(m.f, w);
             && SnapLSN(d) == Loaded(w)
             && Some(q) == if d.snaps == [] then Some(m.f.init) else LoadSnapshot(m.f, d.snaps[|d.snaps| - 1])
    ensures k <= |w.segs| && Loaded(w) <= Reach(m.f, w) <= |s.log|
    ensures RecoversTo(m.f, DiskAfter(m.f, w), q, Slice(s.log, Loaded(w), Reach(m.f, w)))
    ensures Recover(m.f, DiskAfter(m.f, w)).Some? <==>
              Joined(Rest(w, k), Loaded(w) + 1) && EndsWell(m.f, Rest(w, k), w.cut, w.tail, Reach(m.f, w))
  {
    hide Decodes, Inv, WreckOk, EndsWell, Yields, Slice, RecoversTo, LoadSnapshot, ReplaySegments, Recover, LiveFiles, Upto, Reach, Rest;
    hide Joined, SnapLSN;
    LeftGives(m, s, w, q, k);
    RestFiles(m.f, w, k);
    RecoverYields(m.f, DiskAfter(m.f, w), q, LiveFiles(m.f, Rest(w, k), w.cut) + w.tail, Slice(s.log, Loaded(w), Reach(m.f, w)));
  }

  lemma StartsAt<Q, E>(f: Format<Q, E>, w: Wreck<E>) returns (k: nat)
    ensures Starts(f, w, k)
  {
    k := DropIs(DiskAfter(f, w).segs, Loaded(w) + 1);
  }

  /** Crash safety: after any crash, recovery refuses the log or gives the queue the
      store had after the last entry that is left. If the active segment is there, that
      includes everything promised. */
  lemma CrashSafe<Q(!new), E(!new)>(m: Model<Q, E>, s: Wal<Q, E>, w: Wreck<E>)
    requires Lawful(m) && Inv(m, s) && WreckOk(m.f, s, w)
    ensures var n := Reach(m.f, w);
            var r := Recover(m.f, DiskAfter(m.f, w));
            && Loaded(w) <= n <= |s.log| && n < |s.hist|
            && (s.d.active in w.segs ==> Promised(s.c) <= n)
            && (r == None || r == Some((m.view(s.hist[n]), n + 1)))
  {
    hide WreckOk, DiskAfter, Recover, LoadSnapshot, SnapLSN, Decodes, Fold, MapSeq, Reach, Chained, Synced;
    hide Counters, Snapshots, Loose, Removed, Placed, Promised, Starts;
    var q := LoadedSnapshot(m, s, w);
    var k := StartsAt(m.f, w);
    CrashReplays(m, s, w, q, k);
    if s.d.active in w.segs {
      PromiseKept(m, s, w);
    }
    HistoryReplays(m, s.log, s.hist, q, Loaded(w), Reach(m.f, w));
    SliceSize(s.log, Loaded(w), Reach(m.f, w));
  }

  /** Exactly when a log opens: of the files that are left, those the snapshot does not cover
      hold every entry after it, without a gap, and nothing at the end forbids it. */
  lemma OpensIff<Q(!new), E(!new)>(m: Model<Q, E>, s: Wal<Q, E>, w: Wreck<E>, k: nat)
    requires Lawful(m) && Inv(m, s) && WreckOk(m.f, s, w) && Starts(m.f, w, k)
    ensures k <= |w.segs|
    ensures Recover(m.f, DiskAfter(m.f, w)).Some? <==>
              Joined(Rest(w, k), Loaded(w) + 1) && EndsWell(m.f, Rest(w, k), w.cut, w.tail, Reach(m.f, w))
  {
    hide WreckOk, DiskAfter, Recover, LoadSnapshot, SnapLSN, Decodes, Reach, Inv, Starts, Joined, EndsWell;
    var q := LoadedSnapshot(m, s, w);
    CrashReplays(m, s, w, q, k);
  }
}
