/** Opening a log again after a crash (recover and repairTail in dlq/wal_store.go), and
    what therefore holds over a store's whole life: any number of sessions, each ended
    by a crash at any point. */
module WalReopen {
  import opened Records
  import opened Frames
  import opened Recovery
  import opened Wal
  import opened WalSafety
  import opened WalCrash

  /** How a session ended. After a power failure everything that is still there is on
      stable storage; when only the process dies, all it wrote is still there, on
      stable storage or not. k is the first file recovery replays. */
  datatype Ending<E> = Ending(w: Wreck<E>, power: bool, k: nat)

  ghost predicate EndingOk<Q, E>(f: Format<Q, E>, s: Wal<Q, E>, x: Ending<E>) {
    && WreckOk(f, s, x.w) && Starts(f, x.w, x.k) && (!x.power ==> Untouched(f, s.d, x.w))
    && (x.w.segs != [] ==> Loaded(x.w) <= Survived(f, Last(x.w.segs), x.w.cut))
  }

  ghost predicate Untouched<Q, E>(f: Format<Q, E>, d: Files<E>, w: Wreck<E>) {
    && (forall y <- Live(d) :: y in w.segs) && w.cut == |FileBytes(f, d.active)|
    && (d.snap.Some? ==> d.snap.value in w.snaps)
    && (d.newer.Some? && d.newer.value.vis != Hidden ==> d.newer.value.snap in w.snaps)
    && (d.creating.Some? && d.creating.value > 0 ==> w.tail != [] && |w.tail[0].bytes| == d.creating.value)
  }

  /** A segment whose creation got as far as a whole header. */
  predicate Born(tail: seq<File>) { |tail| == 1 && |tail[0].bytes| == HEADER_SIZE }

  /** What a cut leaves of a segment, without a torn entry at its end. */
  function WholePart<Q, E>(f: Format<Q, E>, x: Seg<E>, cut: nat): seq<E> { x.es[..WholeEntries(f, x.start, x.es, cut)] }

  function WholeEnd<Q, E>(f: Format<Q, E>, x: Seg<E>, cut: nat): nat { |SegmentBytes(f, x.start, WholePart(f, x, cut))| }

  /** The last segment after repairTail: a torn tail is cut off and the cut fsynced; a
      clean tail is left as it is. */
  function Repaired<Q, E>(f: Format<Q, E>, x: Seg<E>, cut: nat, power: bool): Seg<E> {
    var end := WholeEnd(f, x, cut);
    Seg(x.start, WholePart(f, x, cut), None, if power || cut != end then end else Min(x.synced, end))
  }

  /** The segments of the process that opens the log: those not covered by the snapshot,
      and an empty one if its creation got far enough, or none is left. */
  function LiveAfter<Q, E>(f: Format<Q, E>, x: Ending<E>, n: nat): (r: seq<Seg<E>>)
    ensures r != []
  {
    var rest, empty := Rest(x.w, x.k), Seg(n + 1, [], None, HEADER_SIZE);
    if rest == [] then [empty]
    else rest[..|rest| - 1] + [Repaired(f, Last(rest), x.w.cut, x.power)] + if Born(x.w.tail) then [empty] else []
  }

  /** Whether opening the log leaves every file in the directory for good: there was a power
      failure, or it set something aside, or it created a segment. */
  predicate Settles<Q, E>(f: Format<Q, E>, x: Ending<E>) {
    var rest := Rest(x.w, x.k);
    || x.power || (x.w.tail != [] && 0 < |x.w.tail[0].bytes| < HEADER_SIZE)
    || (!Born(x.w.tail) && (rest == [] || x.w.cut != WholeEnd(f, Last(rest), x.w.cut)))
  }

  ghost function FilesAfter<Q, E>(f: Format<Q, E>, d: Files<E>, x: Ending<E>, n: nat): Files<E> {
    var live, w := LiveAfter(f, x, n), x.w;
    var k := |live| - 1;
    Files(live[..k], live[k], None, if w.snaps == [] then None else Some(w.snaps[|w.snaps| - 1]), None,
          (if x.power then [] else d.staleSegs) + if x.k <= |w.segs| then w.segs[..x.k] else w.segs,
          (if x.power then {} else d.staleSnaps) + set y | y in w.snaps && y.start < Loaded(w),
          if Settles(f, x) then 0 else Min(d.adrift + (if Born(w.tail) then 1 else 0), |live|),
          !Settles(f, x) && w.snaps != [] && SnapAdrift(d, w.snaps[|w.snaps| - 1]))
  }

  predicate SnapAdrift<E>(d: Files<E>, loaded: File) {
    if Visible(d, loaded) then d.newer.value.vis == Renamed else d.snapAdrift
  }

  /** The store opens again: its queue and next number are what recovery returns. */
  ghost predicate Reopens<Q, E>(m: Model<Q, E>, s: Wal<Q, E>, x: Ending<E>, t: Wal<Q, E>) {
    && EndingOk(m.f, s, x)
    && var r := Recover(m.f, DiskAfter(m.f, x.w));
    && r.Some? && 1 <= r.value.1 <= |s.log| + 1 && |s.hist| == |s.log| + 1
    && var n := r.value.1 - 1;
    && !t.failed && t.log == s.log[..n] && t.hist == s.hist[..n] + [r.value.0]
    && t.d == FilesAfter(m.f, s.d, x, n)
    && t.c == Commit(n, Survived(m.f, t.d.active, t.d.active.synced), false, 0, 0, true, None, {}, {})
  }

  // ---- what the opening process finds ----

  /** The log opened on this crash, with n entries. */
  ghost predicate Opened<Q, E>(m: Model<Q, E>, s: Wal<Q, E>, x: Ending<E>, n: nat) {
    && Inv(m, s) && EndingOk(m.f, s, x) && x.k <= |x.w.segs| && n == Reach(m.f, x.w) <= |s.log|
    && Joined(Rest(x.w, x.k), Loaded(x.w) + 1)
  }

  lemma Opens<Q(!new), E(!new)>(m: Model<Q, E>, s: Wal<Q, E>, x: Ending<E>, t: Wal<Q, E>)
    requires Lawful(m) && Inv(m, s) && Reopens(m, s, x, t)
    ensures Opened(m, s, x, |t.log|) && m.view(t.hist[|t.log|]) == m.view(s.hist[|t.log|])
  {
    hide Inv, WreckOk, Starts, Joined, Reach, Recover, DiskAfter, FilesAfter, Survived, Decodes, Untouched;
    CrashSafe(m, s, x.w);
    OpensIff(m, s, x.w, x.k);
  }

  /** The last segment that is left ends at entry n; with none left to replay, so does the
      snapshot. */
  lemma OpenedAt<Q(!new), E(!new)>(m: Model<Q, E>, s: Wal<Q, E>, x: Ending<E>, n: nat)
    requires Decodes(m.f) && Opened(m, s, x, n)
    ensures Loaded(x.w) <= n && Intact(m.f, x.w.segs, s.log, x.w.cut, x.w.tail)
    ensures x.w.segs != [] ==> n == Survived(m.f, Last(x.w.segs), x.w.cut)
    ensures var rest := Rest(x.w, x.k);
            && Intact(m.f, rest, s.log, x.w.cut, x.w.tail)
            && if rest == [] then n == Loaded(x.w) else Last(rest) == Last(x.w.segs)
  {
    hide Decodes, Inv, Joined, WholeEntries, Starts, Intact, Untouched;
    WreckIntact(m, s, x.w);
    if x.w.tail != [] {
      LoadedBeforeTail(m, s, x.w);
      TailNumber(m, s, x.w);
    }
    RestMeets(m.f, x.w, s.log, x.k);
    IntactRest(m.f, x.w.segs, s.log, x.w.cut, x.w.tail, x.k);
  }

  lemma RepairedFits<Q(!new), E(!new)>(f: Format<Q, E>, x: Seg<E>, cut: nat, power: bool)
    requires Decodes(f) && HEADER_SIZE <= x.synced && 1 <= x.start
    ensures var y := Repaired(f, x, cut, power);
            && y.half.None? && HEADER_SIZE <= y.synced <= |FileBytes(f, y)| == WholeEnd(f, x, cut)
            && y.start + |y.es| == Survived(f, x, cut) + 1
            && (power || cut != WholeEnd(f, x, cut) ==> y.synced == |FileBytes(f, y)|)
  {
    hide Decodes, WholeEntries;
    HeadSize(f, x.start);
    var y := Repaired(f, x, cut, power);
    assert FileBytes(f, y) == SegmentBytes(f, y.start, y.es);
  }

  /** A whole file has nothing to repair. */
  lemma RepairedWhole<Q(!new), E(!new)>(f: Format<Q, E>, x: Seg<E>, power: bool)
    requires Decodes(f) && x.half.None?
    ensures var cut := |FileBytes(f, x)|;
            && WholePart(f, x, cut) == x.es && WholeEnd(f, x, cut) == cut
            && (Settled(f, x) ==> Repaired(f, x, cut, power) == x)
  {
    hide Decodes, WholeEntries;
    WholeFileSurvives(f, x);
    assert x.es[..|x.es|] == x.es && FileBytes(f, x) == SegmentBytes(f, x.start, x.es);
  }

  // ---- the invariant of the session that follows ----

  lemma CutHolds<E>(log: seq<E>, z: Seg<E>, n: nat)
    requires Holds(log, z) && z.start + |z.es| <= n + 1 <= |log| + 1
    ensures Holds(log[..n], z)
  {
  }

  lemma CutLast<E>(log: seq<E>, x: Seg<E>, y: Seg<E>, n: nat)
    requires Holds(log, x) && y.start == x.start && y.es <= x.es && y.start + |y.es| == n + 1
    ensures n <= |log| && Holds(log[..n], y)
  {
    assert y.es == x.es[..|y.es|];
  }

  /** Segments without a gap, the last cut to end at entry n. */
  lemma CutChain<Q, E>(f: Format<Q, E>, segs: seq<Seg<E>>, log: seq<E>, cut: nat, tail: seq<File>, next: nat, n: nat, y: Seg<E>)
    requires segs != [] && Joined(segs, next) && Intact(f, segs, log, cut, tail)
    requires y.start == Last(segs).start && y.es <= Last(segs).es && y.start + |y.es| == n + 1
    ensures n <= |log| && Chained(segs[..|segs| - 1] + [y], log[..n])
  {
    hide Before, FileBytes, Fits;
    var k := |segs| - 1;
    var segs' := segs[..k] + [y];
    assert Last(segs) in segs;
    CutLast(log, Last(segs), y, n);
    forall i, j | 0 <= i && j == i + 1 < |segs'| ensures Follows(segs'[i], segs'[j]) {
      assert Follows(segs[i], segs[j]);
    }
    forall z <- segs' ensures Holds(log[..n], z) {
      var i :| 0 <= i < |segs'| && segs'[i] == z;
      if i < k {
        assert segs[i] in segs;
        BeforeEnds(segs[i], Last(segs)) by { assert Before(segs[i], segs[k]); }
        CutHolds(log, z, n);
      }
    }
  }

  lemma BeforeEnds<E>(x: Seg<E>, y: Seg<E>)
    requires Before(x, y)
    ensures x.start + |x.es| <= y.start
  {
  }

  /** A segment was being created and its header is whole: the one before holds entries, all
      of them fsynced. */
  lemma BornWhole<Q(!new), E(!new)>(m: Model<Q, E>, s: Wal<Q, E>, x: Ending<E>, n: nat)
    requires Decodes(m.f) && Opened(m, s, x, n) && Born(x.w.tail) && Rest(x.w, x.k) != []
    ensures var y := Last(Rest(x.w, x.k)); y.es != [] && Settled(m.f, y) && x.w.cut == |FileBytes(m.f, y)|
  {
    hide Decodes, Joined, Counters, Loose, History, Snapshots, Placed, Removed, WholeEntries, SnapsOk, Starts, Holds, HalfOk;
    OpenedAt(m, s, x, n);
    var y := Last(x.w.segs);
    assert y in x.w.segs;
    MayBeHeld(m, s, y);
    if y == s.d.active {
      TailNumber(m, s, x.w);
    } else {
      NotActive(m, s, y);
    }
  }

  lemma NotActive<Q, E>(m: Model<Q, E>, s: Wal<Q, E>, y: Seg<E>)
    requires Inv(m, s) && MayBe(s.d, y) && y != s.d.active
    ensures y.es != []
  {
    hide Counters, Loose, History, Snapshots, Placed, FileBytes, Holds, Synced;
    if y in Live(s.d) {
      var i :| 0 <= i < |Live(s.d)| && Live(s.d)[i] == y;
      assert Follows(Live(s.d)[i], Live(s.d)[i + 1]);
    }
  }

  lemma ChainAfter<Q(!new), E(!new)>(m: Model<Q, E>, s: Wal<Q, E>, x: Ending<E>, n: nat)
    requires Decodes(m.f) && Opened(m, s, x, n)
    ensures Chained(LiveAfter(m.f, x, n), s.log[..n])
  {
    hide Decodes, Inv, EndingOk, Intact, Joined, FileBytes, Reach, Survived;
    OpenedAt(m, s, x, n);
    var rest, empty := Rest(x.w, x.k), Seg(n + 1, [], None, HEADER_SIZE);
    if rest == [] {
      assert Holds(s.log[..n], empty);
    } else {
      var y := Repaired(m.f, Last(rest), x.w.cut, x.power);
      LastSynced(m, s, x, n);
      RepairedFits(m.f, Last(rest), x.w.cut, x.power);
      CutChain(m.f, rest, s.log, x.w.cut, x.w.tail, Loaded(x.w) + 1, n, y);
      var segs := rest[..|rest| - 1] + [y];
      if Born(x.w.tail) {
        BornWhole(m, s, x, n);
        RepairedWhole(m.f, Last(rest), x.power);
        CreateDoneKeepsChain(segs, s.log[..n], empty);
      } else {
        assert LiveAfter(m.f, x, n) == segs;
      }
    }
  }

  lemma LastSynced<Q(!new), E(!new)>(m: Model<Q, E>, s: Wal<Q, E>, x: Ending<E>, n: nat)
    requires Decodes(m.f) && Opened(m, s, x, n) && Rest(x.w, x.k) != []
    ensures var y := Last(Rest(x.w, x.k)); HEADER_SIZE <= y.synced && 1 <= y.start && MayBe(s.d, y)
  {
    hide Decodes, Inv, Joined, FileBytes, Settled, Reach, Survived, SnapsOk, TailOk, Starts, Untouched;
    OpenedAt(m, s, x, n);
    var y := Last(x.w.segs);
    assert y in x.w.segs;
    MayBeHeld(m, s, y);
  }

  lemma RestSettled<Q(!new), E(!new)>(m: Model<Q, E>, s: Wal<Q, E>, x: Ending<E>, n: nat, z: Seg<E>)
    requires Decodes(m.f) && Opened(m, s, x, n) && Rest(x.w, x.k) != []
    requires var rest := Rest(x.w, x.k); z in rest[..|rest| - 1]
    ensures Settled(m.f, z)
  {
    hide Decodes, Inv, Joined, FileBytes, Settled, Reach, Survived, SnapsOk, TailOk, Starts, Untouched;
    var rest := Rest(x.w, x.k);
    var i :| 0 <= i < |rest| - 1 && rest[i] == z;
    assert x.w.segs[x.k + i] == z && Last(rest) == x.w.segs[|x.w.segs| - 1] && z in x.w.segs && Last(rest) in x.w.segs;
    Apart(m, s, z, Last(rest));
  }

  lemma SyncedAfter<Q(!new), E(!new)>(m: Model<Q, E>, s: Wal<Q, E>, x: Ending<E>, n: nat)
    requires Decodes(m.f) && Opened(m, s, x, n)
    ensures Synced(m.f, FilesAfter(m.f, s.d, x, n), n)
  {
    hide Decodes, Inv, EndingOk, Joined, FileBytes, Reach, Survived, Settles, HalfOk, WholeEnd, WholePart, Repaired;
    var rest, live, empty := Rest(x.w, x.k), LiveAfter(m.f, x, n), Seg(n + 1, [], None, HEADER_SIZE);
    FreshBytes(m.f, n + 1);
    if rest != [] {
      LastSynced(m, s, x, n);
      RepairedFits(m.f, Last(rest), x.w.cut, x.power);
      var y := Repaired(m.f, Last(rest), x.w.cut, x.power);
      if Born(x.w.tail) {
        BornWhole(m, s, x, n);
        RepairedWhole(m.f, Last(rest), x.power);
        assert live == rest[..|rest| - 1] + [y] + [empty];
      } else {
        assert live == rest[..|rest| - 1] + [y];
      }
      forall z <- live[..|live| - 1] ensures Settled(m.f, z) {
        if z in rest[..|rest| - 1] {
          RestSettled(m, s, x, n, z);
        } else {
          assert z == y;
        }
      }
    }
  }

  lemma FreshBytes<Q(!new), E(!new)>(f: Format<Q, E>, start: nat)
    requires Decodes(f)
    ensures |FileBytes(f, Seg(start, [], None, HEADER_SIZE))| == HEADER_SIZE
  {
    HeadSize(f, start);
  }

  lemma SnapsAfter<Q(!new), E(!new)>(m: Model<Q, E>, s: Wal<Q, E>, x: Ending<E>, n: nat, q: Q)
    requires Decodes(m.f) && Opened(m, s, x, n) && m.view(q) == m.view(s.hist[n])
    ensures Snapshots(m, FilesAfter(m.f, s.d, x, n), s.hist[..n] + [q])
  {
    hide Decodes, Chained, Synced, Counters, Loose, Removed, Placed, Joined, SegsOk, TailOk, Starts, LiveAfter, Settles;
    hide SnapGood, Survived, FileBytes;
    OpenedAt(m, s, x, n);
    var d, hist := FilesAfter(m.f, s.d, x, n), s.hist[..n] + [q];
    if !x.power {
      SnapKept(s.d, x.w);
    }
    forall y <- d.staleSnaps ensures y.start < Loaded(x.w) && SnapGood(m, hist, y) {
      assert SnapGood(m, s.hist, y);
      SnapGoodCut(m, s.hist, n, q, y);
    }
    if x.w.snaps != [] {
      var y := x.w.snaps[|x.w.snaps| - 1];
      assert y in x.w.snaps && SnapGood(m, s.hist, y);
      SnapGoodCut(m, s.hist, n, q, y);
    }
  }

  lemma SnapGoodCut<Q, E>(m: Model<Q, E>, hist: seq<Q>, n: nat, q: Q, y: File)
    requires SnapGood(m, hist, y) && y.start <= n < |hist| && m.view(q) == m.view(hist[n])
    ensures SnapGood(m, hist[..n] + [q], y)
  {
    hide LoadSnapshot;
  }

  lemma SnapKept<E>(d: Files<E>, w: Wreck<E>)
    requires SnapsOk(d, w.snaps) && (d.snap.Some? ==> d.snap.value in w.snaps)
    ensures SnapNo(d) <= Loaded(w)
  {
  }

  /** Recovery passes over every file before one that begins right after the snapshot or
      earlier. */
  lemma PassesOver<Q, E>(f: Format<Q, E>, w: Wreck<E>, log: seq<E>, k: nat, i: nat)
    requires Intact(f, w.segs, log, w.cut, w.tail) && Starts(f, w, k) && i < |w.segs| && w.segs[i].start <= Loaded(w) + 1
    ensures i <= k
  {
    hide FileBytes, Fits, Holds, LastIntact;
    var files := DiskAfter(f, w).segs;
    forall j | 0 <= j <= i ensures files[j].start <= Loaded(w) + 1 {
      if j < i { assert Before(w.segs[j], w.segs[i]); }
    }
    var n := DropIs(files, Loaded(w) + 1);
    assert |files[n..]| == |files| - n && |files[k..]| == |files| - k;
  }

  /** After a process death, the log is as long as it was and no live segment begins
      earlier. */
  lemma UntouchedAt<Q(!new), E(!new)>(m: Model<Q, E>, s: Wal<Q, E>, x: Ending<E>, n: nat)
    requires Decodes(m.f) && Opened(m, s, x, n) && !x.power
    ensures n == |s.log| && s.d.active in x.w.segs && Last(x.w.segs) == s.d.active && x.w.cut == |FileBytes(m.f, s.d.active)|
    ensures Live(s.d)[0].start <= LiveAfter(m.f, x, n)[0].start
  {
    hide Decodes, Chained, Synced, Counters, Loose, History, Snapshots, Removed, Joined, SnapsOk, TailOk, FileBytes, WholeEntries;
    hide Starts, Intact;
    OpenedAt(m, s, x, n);
    assert s.d.active in Live(s.d);
    StaysLast(m, s, x.w);
    ActiveEnd(m, s);
    WholeFileSurvives(m.f, s.d.active);
    FirstStays(m, s, x, n);
  }

  lemma FirstStays<Q(!new), E(!new)>(m: Model<Q, E>, s: Wal<Q, E>, x: Ending<E>, n: nat)
    requires Decodes(m.f) && Opened(m, s, x, n) && !x.power && n == |s.log|
    ensures Live(s.d)[0].start <= LiveAfter(m.f, x, n)[0].start
  {
    hide Decodes, Synced, Counters, Loose, History, Removed, Joined, TailOk, FileBytes, WholeEntries, Starts, SnapGood, Holds;
    OpenedAt(m, s, x, n);
    var first, w, rest := Live(s.d)[0], x.w, Rest(x.w, x.k);
    assert first in Live(s.d);
    var i :| 0 <= i < |w.segs| && w.segs[i] == first;
    assert SnapNo(s.d) <= Loaded(w) by { SnapKept(s.d, w); }
    PassesOver(m.f, w, s.log, x.k, i);
    FirstInLog(m, s);
    if rest != [] {
      assert rest[0] == w.segs[x.k] && LiveAfter(m.f, x, n)[0].start == rest[0].start;
    }
  }

  lemma FirstInLog<Q, E>(m: Model<Q, E>, s: Wal<Q, E>)
    requires Inv(m, s)
    ensures Live(s.d)[0].start <= |s.log| + 1
  {
    hide Synced, Counters, Loose, History, Snapshots, Removed, Placed;
    assert Live(s.d)[0] in Live(s.d);
    assert Holds(s.log, Live(s.d)[0]);
  }

  lemma DroppedWhole<Q(!new), E(!new)>(m: Model<Q, E>, s: Wal<Q, E>, x: Ending<E>, n: nat, z: Seg<E>)
    requires Decodes(m.f) && Opened(m, s, x, n) && z in x.w.segs[..x.k]
    ensures Holds(s.log, z) && Settled(m.f, z) && z.es != [] && z.start + |z.es| <= LiveAfter(m.f, x, n)[0].start <= n + 1
  {
    hide Decodes, Inv, Joined, FileBytes, Starts, Untouched, SnapsOk, TailOk, WholeEntries, Holds, Settles;
    OpenedAt(m, s, x, n);
    var w, rest, live := x.w, Rest(x.w, x.k), LiveAfter(m.f, x, n);
    var i :| 0 <= i < x.k && w.segs[i] == z;
    assert z in w.segs;
    MayBeHeld(m, s, z);
    var last := Last(w.segs);
    assert last in w.segs;
    if rest != [] {
      assert rest[0] == w.segs[x.k] && live[0].start == rest[0].start && rest[0] in w.segs;
      Apart(m, s, z, rest[0]);
      if x.k < |w.segs| - 1 { Apart(m, s, rest[0], last); }
    } else {
      assert live[0].start == n + 1;
      AllDropped(m, s, x, n);
      if z != last { Apart(m, s, z, last); }
    }
  }

  /** Every segment is covered: the last is whole too, and ends by the snapshot. */
  lemma AllDropped<Q(!new), E(!new)>(m: Model<Q, E>, s: Wal<Q, E>, x: Ending<E>, n: nat)
    requires Decodes(m.f) && Opened(m, s, x, n) && x.w.segs != [] && Rest(x.w, x.k) == []
    ensures var y := Last(x.w.segs); Settled(m.f, y) && y.es != [] && y.start + |y.es| == n + 1
  {
    hide Decodes, Joined, Counters, Loose, History, Snapshots, Placed, Removed, SnapsOk, WholeEntries, Holds, HalfOk;
    hide Chained, Untouched;
    var y := Last(x.w.segs);
    assert y in x.w.segs;
    OpenedAt(m, s, x, n);
    MayBeHeld(m, s, y);
    TailThere(m.f, x.w, x.k);
    WholeFileSurvives(m.f, y);
    if y == s.d.active {
      TailNumber(m, s, x.w);
    } else {
      NotActive(m, s, y);
    }
  }

  lemma TailThere<Q, E>(f: Format<Q, E>, w: Wreck<E>, k: nat)
    requires Starts(f, w, k) && w.segs != [] && k == |w.segs|
    ensures w.tail != []
  {
    hide FileBytes;
    var files := DiskAfter(f, w).segs;
    var n := DropIs(files, Loaded(w) + 1);
    assert |files[n..]| == |files| - n && |files[k..]| == |files| - k;
  }

  lemma RemovedAfter<Q(!new), E(!new)>(m: Model<Q, E>, s: Wal<Q, E>, x: Ending<E>, n: nat)
    requires Decodes(m.f) && Opened(m, s, x, n)
    ensures Removed(m.f, FilesAfter(m.f, s.d, x, n), s.log[..n])
  {
    hide Decodes, Chained, Synced, Counters, Loose, History, Snapshots, Placed, Joined, FileBytes, Reach, Survived, Settles;
    hide Holds, Settled, Starts, Untouched, SnapsOk, TailOk;
    var d := FilesAfter(m.f, s.d, x, n);
    assert Live(d) == LiveAfter(m.f, x, n);
    if !x.power {
      UntouchedAt(m, s, x, n);
      assert s.log[..n] == s.log;
    }
    forall y <- d.staleSegs
      ensures MayBe(s.d, y) && Holds(s.log[..n], y) && Settled(m.f, y) && y.es != [] && y.start + |y.es| <= Live(d)[0].start
    {
      if y in x.w.segs[..x.k] {
        DroppedWhole(m, s, x, n, y);
        CutHolds(s.log, y, n);
      }
    }
    forall y <- d.staleSegs, z <- d.staleSegs | y.start < z.start ensures y.start + |y.es| <= z.start {
      Apart(m, s, y, z);
    }
  }

  lemma PlacedAfter<Q(!new), E(!new)>(m: Model<Q, E>, s: Wal<Q, E>, x: Ending<E>, n: nat)
    requires Decodes(m.f) && Opened(m, s, x, n)
    ensures Placed(m.f, FilesAfter(m.f, s.d, x, n), n)
  {
    hide Decodes, Inv, FileBytes, Reach, Survived, Settles, EndingOk, EndsBy, Repaired, Intact;
    var d, rest, l := FilesAfter(m.f, s.d, x, n), Rest(x.w, x.k), Loaded(x.w);
    assert Live(d) == LiveAfter(m.f, x, n);
    OpenedAt(m, s, x, n);
    EndsAfter(m, s, x, n);
    if d.adrift > 0 {
      AdriftAfter(m, s, x, n);
    }
    if rest != [] {
      RepairedStart(m.f, Last(rest), x.w.cut, x.power);
    }
  }

  lemma RepairedStart<Q, E>(f: Format<Q, E>, x: Seg<E>, cut: nat, power: bool)
    ensures Repaired(f, x, cut, power).start == x.start
  {
  }

  lemma EndsAfter<Q(!new), E(!new)>(m: Model<Q, E>, s: Wal<Q, E>, x: Ending<E>, n: nat)
    requires Decodes(m.f) && Opened(m, s, x, n)
    ensures var y := FilesAfter(m.f, s.d, x, n).active; EndsBy(m.f, y, Loaded(x.w), y.synced)
  {
    hide Decodes, Inv, FileBytes, Reach, Settles, Joined, Intact, WreckOk, Starts, Untouched, WholeEntries, WholeEnd, SegmentBytes;
    OpenedAt(m, s, x, n);
    var rest, l := Rest(x.w, x.k), Loaded(x.w);
    if rest != [] && !Born(x.w.tail) {
      var z := Last(rest);
      var y := Repaired(m.f, z, x.w.cut, x.power);
      assert FilesAfter(m.f, s.d, x, n).active == y;
      LastSynced(m, s, x, n);
      RepairedFits(m.f, z, x.w.cut, x.power);
      if x.power || x.w.cut != WholeEnd(m.f, z, x.w.cut) {
        EndsByHere(m.f, y, l);
      } else {
        UntouchedAt(m, s, x, n);
        LoadedEnds(m, s, x.w);
        RepairedEnds(m.f, z, x.w.cut, y, l);
      }
    }
  }

  /** A clean last segment keeps its entries, and as much of them on stable storage. */
  lemma RepairedEnds<Q(!new), E(!new)>(f: Format<Q, E>, x: Seg<E>, cut: nat, y: Seg<E>, l: nat)
    requires Decodes(f) && EndsBy(f, x, l, x.synced) && cut == WholeEnd(f, x, cut) && y == Repaired(f, x, cut, false)
    requires cut == |FileBytes(f, x)|
    ensures EndsBy(f, y, l, y.synced)
  {
    hide Decodes, WholeEntries;
    WholeFileSurvives(f, x);
    assert y.es == x.es;
    EndsByGrown(f, x, y, l, x.synced, y.synced);
  }

  lemma AdriftAfter<Q(!new), E(!new)>(m: Model<Q, E>, s: Wal<Q, E>, x: Ending<E>, n: nat)
    requires Decodes(m.f) && Opened(m, s, x, n) && !Settles(m.f, x) && (Born(x.w.tail) || s.d.adrift > 0)
    ensures var y := FilesAfter(m.f, s.d, x, n).active; Loaded(x.w) < y.start <= n + 1
  {
    hide Decodes, Chained, Synced, Counters, Loose, History, Removed, FileBytes, Joined, Intact, SegsOk, TailOk, Starts;
    hide WholeEntries, WholeEnd, SnapGood, EndsBy;
    OpenedAt(m, s, x, n);
    var rest := Rest(x.w, x.k);
    if rest != [] && !Born(x.w.tail) {
      UntouchedAt(m, s, x, n);
      ActiveEnd(m, s);
      LoadedBeforeActive(m, s, x.w);
    }
  }

  /** With the active segment's directory entry unsynced, every snapshot ends before it. */
  lemma LoadedBeforeActive<Q, E>(m: Model<Q, E>, s: Wal<Q, E>, w: Wreck<E>)
    requires Inv(m, s) && WreckOk(m.f, s, w) && s.d.adrift > 0
    ensures Loaded(w) < s.d.active.start
  {
    hide Chained, Synced, Counters, Loose, History, Removed, FileBytes, SegsOk, TailOk, SnapGood, EndsBy;
    if w.snaps != [] {
      var y := w.snaps[|w.snaps| - 1];
      assert y in w.snaps;
      if Visible(s.d, y) { NewerBefore(m, s); }
    }
  }

  lemma CutHistory<Q, E>(m: Model<Q, E>, log: seq<E>, hist: seq<Q>, n: nat, q: Q)
    requires History(m, log, hist) && n <= |log| && m.view(q) == m.view(hist[n])
    ensures History(m, log[..n], hist[..n] + [q])
  {
    var log', hist' := log[..n], hist[..n] + [q];
    forall i | 0 <= i < |log'| ensures m.view(hist'[i + 1]) == m.view(m.f.step(hist'[i], log'[i])) {
      assert m.view(hist[i + 1]) == m.view(m.f.step(hist[i], log[i]));
    }
  }

  lemma FreshCounters<Q(!new), E(!new)>(f: Format<Q, E>, d: Files<E>, c: Commit, n: nat)
    requires Decodes(f) && 1 <= d.active.start && d.active.start + |d.active.es| == n + 1 && HEADER_SIZE <= d.active.synced
    requires c == Commit(n, Survived(f, d.active, d.active.synced), false, 0, 0, true, None, {}, {}) && d.creating.None?
    ensures Counters(f, d, c, n) && Loose(f, d, c, n)
  {
    hide Decodes;
    SurvivesIffEnds(f, d.active, d.active.synced, c.firm);
    if c.firm < n {
      SurvivesIffEnds(f, d.active, d.active.synced, c.firm + 1);
    }
  }

  /** Recovery leaves the log in a state the protocol can run on from: whatever a crash
      did, the next session starts with the invariant. */
  lemma ReopenKeeps<Q(!new), E(!new)>(m: Model<Q, E>, s: Wal<Q, E>, x: Ending<E>, t: Wal<Q, E>)
    requires Lawful(m) && Inv(m, s) && Reopens(m, s, x, t)
    ensures Inv(m, t)
  {
    hide Decodes, Survived, Recover, EndingOk, Opened, SameAfter, GoodAfter;
    var n := |t.log|;
    Opens(m, s, x, t);
    LogBound(m, s, x, n);
    ChainAfter(m, s, x, n);
    assert Live(t.d) == LiveAfter(m.f, x, n);
    SyncedAfter(m, s, x, n);
    SnapsAfter(m, s, x, n, t.hist[n]);
    RemovedAfter(m, s, x, n);
    PlacedAfter(m, s, x, n);
    hide Chained, Synced, Counters, Loose, Snapshots, Removed, Placed, LiveAfter, Settles;
    CutHistory(m, s.log, s.hist, n, t.hist[n]);
    SyncedActive(m.f, t.d, t.log, n);
    FreshCounters(m.f, t.d, t.c, n);
  }

  lemma LogBound<Q, E>(m: Model<Q, E>, s: Wal<Q, E>, x: Ending<E>, n: nat)
    requires Opened(m, s, x, n)
    ensures n <= |s.log|
  {
  }

  lemma SyncedActive<Q, E>(f: Format<Q, E>, d: Files<E>, log: seq<E>, n: nat)
    requires Synced(f, d, n) && Chained(Live(d), log) && n == |log|
    ensures HEADER_SIZE <= d.active.synced && 1 <= d.active.start && d.active.start + |d.active.es| == n + 1
  {
    assert Holds(log, Live(d)[|d.closed|]);
  }

  // ---- whole lives ----

  /** A directory that was just created. */
  ghost function Fresh<Q, E>(m: Model<Q, E>): Wal<Q, E> {
    Wal(Files([], Seg(1, [], None, HEADER_SIZE), None, None, None, [], {}, 0, false),
        Commit(0, 0, false, 0, 0, true, None, {}, {}), false, [], [m.f.init])
  }

  lemma FreshKeeps<Q(!new), E(!new)>(m: Model<Q, E>)
    requires Lawful(m)
    ensures Inv(m, Fresh(m))
  {
    FreshBytes(m.f, 1);
  }

  datatype Event<Q, E> = Did(a: Act<Q, E>) | Crashed(x: Ending<E>)

  ghost predicate Next<Q, E>(m: Model<Q, E>, s: Wal<Q, E>, e: Event<Q, E>, t: Wal<Q, E>) {
    match e
    case Did(a) => Step(m, s, a, t)
    case Crashed(x) => Reopens(m, s, x, t)
  }

  ghost predicate Life<Q, E>(m: Model<Q, E>, ss: seq<Wal<Q, E>>, es: seq<Event<Q, E>>) {
    && |ss| == |es| + 1 && ss[0] == Fresh(m)
    && forall i, j :: 0 <= i && j == i + 1 <= |es| ==> Next(m, ss[i], es[i], ss[j])
  }

  lemma {:induction false} LifeKeeps<Q(!new), E(!new)>(m: Model<Q, E>, ss: seq<Wal<Q, E>>, es: seq<Event<Q, E>>, i: nat)
    requires Lawful(m) && Life(m, ss, es) && i < |ss|
    ensures Inv(m, ss[i])
  {
    hide Inv, Step, Reopens, Fresh;
    if i == 0 {
      FreshKeeps(m);
    } else {
      LifeKeeps(m, ss, es, i - 1);
      assert Next(m, ss[i - 1], es[i - 1], ss[i]);
      match es[i - 1]
      case Did(a) => StepKeeps(m, ss[i - 1], a, ss[i]);
      case Crashed(x) => ReopenKeeps(m, ss[i - 1], x, ss[i]);
    }
  }

  /** An fsync covers only what was written when it began: while it is in flight, the bytes
      it will make durable are bytes the file held at its start. */
  lemma {:induction false} SyncCovers<Q(!new), E(!new)>(
    m: Model<Q, E>, ss: seq<Wal<Q, E>>, es: seq<Event<Q, E>>, i: nat, j: nat)
    requires Lawful(m) && Life(m, ss, es) && i < j < |ss| && es[i] == Did(SyncBegin)
    requires forall k :: i < k < j ==> es[k].Did? && !es[k].a.SyncEnd?
    ensures ss[j].c.sync.Some? && Covers(m.f, ss[j], FileBytes(m.f, ss[i].d.active))
  {
    hide Inv, Covers, Step, Lawful;
    assert Next(m, ss[j - 1], es[j - 1], ss[j]);
    if i < j - 1 {
      SyncCovers(m, ss, es, i, j - 1);
      LifeKeeps(m, ss, es, j - 1);
      StepCovers(m, ss[j - 1], es[j - 1].a, ss[j], FileBytes(m.f, ss[i].d.active));
    } else {
      BeginCovers(m, ss[i], ss[j]);
    }
  }

  lemma BeginCovers<Q, E>(m: Model<Q, E>, s: Wal<Q, E>, t: Wal<Q, E>)
    requires Step(m, s, SyncBegin, t)
    ensures t.c.sync.Some? && Covers(m.f, t, FileBytes(m.f, s.d.active))
  {
  }

  /** What s has promised is in t, and t promises it too. */
  ghost predicate Honours<Q, E>(s: Wal<Q, E>, t: Wal<Q, E>) {
    && Promised(s.c) <= Promised(t.c) && Promised(s.c) <= |s.log| && Promised(s.c) <= |t.log|
    && s.log[..Promised(s.c)] == t.log[..Promised(s.c)]
  }

  lemma PromisedInLog<Q, E>(m: Model<Q, E>, s: Wal<Q, E>)
    requires Inv(m, s)
    ensures Promised(s.c) <= |s.log|
  {
  }

  lemma StepHonours<Q, E>(m: Model<Q, E>, s: Wal<Q, E>, a: Act<Q, E>, t: Wal<Q, E>)
    requires Inv(m, s) && Step(m, s, a, t)
    ensures Honours(s, t)
  {
    hide Chained, History, Snapshots, Synced, FileBytes, EndsBy;
    PromisedInLog(m, s);
  }

  lemma ReopenHonours<Q(!new), E(!new)>(m: Model<Q, E>, s: Wal<Q, E>, x: Ending<E>, t: Wal<Q, E>)
    requires Lawful(m) && Inv(m, s) && Reopens(m, s, x, t) && s.d.active in x.w.segs
    ensures Honours(s, t)
  {
    hide Inv, Recover, FilesAfter, DiskAfter, Survived, Reach, EndingOk, Decodes, SameAfter, GoodAfter, Promised;
    Opens(m, s, x, t);
    PromisedInLog(m, s);
    FirmAfter(m, s, x, |t.log|);
    FirstPromise(t.c);
  }

  lemma FirstPromise(c: Commit)
    requires c.durable == 0 && !c.rotated
    ensures Promised(c) == c.firm
  {
  }

  /** What is on stable storage when the store opens again includes every promise. */
  lemma FirmAfter<Q(!new), E(!new)>(m: Model<Q, E>, s: Wal<Q, E>, x: Ending<E>, n: nat)
    requires Decodes(m.f) && Opened(m, s, x, n) && s.d.active in x.w.segs
    ensures var y := FilesAfter(m.f, s.d, x, n).active;
            Promised(s.c) <= n && Promised(s.c) <= Survived(m.f, y, y.synced)
  {
    hide Decodes, FileBytes, WholeEntries, Starts, Untouched, Joined, Intact, SegsOk, SnapsOk, TailOk, Settles, WholeEnd, EndsBy;
    hide Chained, Synced, Loose, History, Snapshots, Removed, Placed;
    OpenedAt(m, s, x, n);
    PromiseKept(m, s, x.w);
    var rest, p := Rest(x.w, x.k), Promised(s.c);
    if rest != [] && !Born(x.w.tail) {
      var z := Last(rest);
      var y := Repaired(m.f, z, x.w.cut, x.power);
      assert FilesAfter(m.f, s.d, x, n).active == y;
      StaysLast(m, s, x.w);
      LastSynced(m, s, x, n);
      RepairedFits(m.f, z, x.w.cut, x.power);
      if x.power || x.w.cut != WholeEnd(m.f, z, x.w.cut) {
        EndsByHere(m.f, y, p);
      } else {
        UntouchedAt(m, s, x, n);
        RepairedEnds(m.f, z, x.w.cut, y, p);
      }
      EndsSurvives(m.f, y, y.synced, p);
    }
  }

  /** A crash spares the log if the active segment is there after it. */
  ghost predicate Spares<Q, E>(s: Wal<Q, E>, e: Event<Q, E>) { e.Crashed? ==> s.d.active in e.x.w.segs }

  /** No crash from moment i to moment j took the segment being written. */
  ghost predicate NoneTaken<Q, E>(ss: seq<Wal<Q, E>>, es: seq<Event<Q, E>>, i: nat, j: nat)
    requires j < |ss| <= |es| + 1
  {
    forall k :: i <= k < j ==> Spares(ss[k], es[k])
  }

  /** The death of the process alone never takes it, nor does a power failure once a
      directory sync has followed its creation. */
  lemma Spared<Q, E>(m: Model<Q, E>, s: Wal<Q, E>, x: Ending<E>)
    requires EndingOk(m.f, s, x) && (!x.power || s.d.adrift == 0)
    ensures Spares<Q, E>(s, Crashed(x))
  {
    hide Starts, FileBytes, SnapsOk, TailOk;
    assert Live(s.d)[|s.d.closed|] == s.d.active && s.d.active in Live(s.d);
  }

  /** Every promise outlives every crash that does not take the segment being written: what
      was promised at moment i is in the log, unchanged, at every later moment j. */
  lemma {:induction false} PromisesKept<Q(!new), E(!new)>(
    m: Model<Q, E>, ss: seq<Wal<Q, E>>, es: seq<Event<Q, E>>, i: nat, j: nat)
    requires Lawful(m) && Life(m, ss, es) && i <= j < |ss| && NoneTaken(ss, es, i, j)
    ensures Honours(ss[i], ss[j])
    decreases j - i
  {
    hide Inv, Step, Reopens, Promised;
    if i == j {
      LifeKeeps(m, ss, es, i);
      PromisedInLog(m, ss[i]);
    } else {
      PromisesKept(m, ss, es, i, j - 1);
      LifeKeeps(m, ss, es, j - 1);
      assert Next(m, ss[j - 1], es[j - 1], ss[j]) && Spares(ss[j - 1], es[j - 1]);
      match es[j - 1]
      case Did(a) => StepHonours(m, ss[j - 1], a, ss[j]);
      case Crashed(x) => ReopenHonours(m, ss[j - 1], x, ss[j]);
    }
  }
}
