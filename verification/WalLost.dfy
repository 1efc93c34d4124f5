/** Two lives in which nil was returned and the entry is lost (Append and createSegment in
    dlq/wal_write.go, recover in dlq/wal_store.go): the inputs behind the two conditions of
    WalAck.LostIff. */
module WalLost {
  import opened Records
  import opened Frames
  import opened Folds
  import opened Recovery
  import opened Wal
  import opened WalCrash
  import opened WalReopen

  // ---- directories with one segment ----

  /** A directory with one segment, cut between entries, always opens. */
  lemma OneSegmentOpens<Q(!new), E(!new)>(f: Format<Q, E>, x: Seg<E>, n: nat)
    requires Decodes(f) && x.start == 1 && x.half.None? && Readable(f, 1, x.es) && n <= |x.es|
    requires WholeEntries(f, 1, x.es, EntryEnd(f, x, n)) == n
    ensures var b := FileBytes(f, x);
            && HEADER_SIZE <= EntryEnd(f, x, n) <= |b|
            && Recover(f, Disk([File(1, b[..EntryEnd(f, x, n)])], []))
               == Some((f.finish(Fold(f.step, f.init, MapSeq(f.norm, x.es[..n]))), n + 1))
  {
    hide Decodes, WholeEntries, Readable, Fold, MapSeq;
    HeadSize(f, 1);
    EndMonotone(f, x, n, |x.es|);
    var file := File(1, FileBytes(f, x)[..EntryEnd(f, x, n)]);
    CutFileReplays(f, x, EntryEnd(f, x, n), 1, true, f.init, 0);
    assert Skip(x.es[..n], 0) == x.es[..n];
    var all: seq<File> := [file];
    assert all[1..] == [];
    assert DropCovered(all, 1) == all;
    ContinueReplay(f, all, 1, f.init, 0, f.segment(file, 1, true, f.init, 0));
  }

  function OneEntry<E>(e: E, synced: nat): Seg<E> { Seg(1, [e], None, synced) }

  /** Neither the whole file nor its bare header holds half an entry. */
  lemma OneEntryEnds<Q(!new), E(!new)>(f: Format<Q, E>, e: E, synced: nat)
    requires Decodes(f)
    ensures var x := OneEntry(e, synced);
            && EntryEnd(f, x, 0) == HEADER_SIZE && EntryEnd(f, x, 1) == |FileBytes(f, x)| >= HEADER_SIZE
            && WholeEntries(f, 1, [e], HEADER_SIZE) == 0 && WholeEntries(f, 1, [e], |FileBytes(f, x)|) == 1
  {
    hide Decodes, WholeEntries;
    var x := OneEntry(e, synced);
    HeadSize(f, 1);
    assert x.es[..1] == [e] && x.es[..0] == [];
    WholeFileSurvives(f, x);
    NoneWhole(f, e);
  }

  lemma NoneWhole<Q(!new), E(!new)>(f: Format<Q, E>, e: E)
    requires Decodes(f)
    ensures WholeEntries(f, 1, [e], HEADER_SIZE) == 0
  {
    assert SealOk(f, FrameOf(f, 1, e));
  }

  /** What the queue is when only this entry is left. */
  function Alone<Q, E>(f: Format<Q, E>, e: E): Q { f.finish(f.step(f.init, f.norm(e))) }

  lemma OneFold<Q, E>(f: Format<Q, E>, e: E)
    ensures Fold(f.step, f.init, MapSeq(f.norm, [e][..1])) == f.step(f.init, f.norm(e))
    ensures Fold(f.step, f.init, MapSeq(f.norm, [e][..0])) == f.init
  {
    var ns := MapSeq(f.norm, [e][..1]);
    assert ns[..0] == [] && Fold(f.step, f.init, ns[..0]) == f.init;
  }

  lemma OneEntryOpens<Q(!new), E(!new)>(f: Format<Q, E>, e: E, synced: nat)
    requires Decodes(f) && Fits(f, e)
    ensures var x := OneEntry(e, synced);
            && Recover(f, DiskAfter(f, Wreck([x], |FileBytes(f, x)|, [], []))) == Some((Alone(f, e), 2))
            && Recover(f, DiskAfter(f, Wreck([x], HEADER_SIZE, [], []))) == Some((f.finish(f.init), 1))
  {
    hide Decodes, WholeEntries, Fits, Recover, FileBytes, Fold, MapSeq;
    var x := OneEntry(e, synced);
    OneEntryEnds(f, e, synced);
    OneFold(f, e);
    OneSegmentOpens(f, x, 0);
    OneSegmentOpens(f, x, 1);
    var b := FileBytes(f, x);
    assert LiveFiles(f, [x], |b|) + [] == [File(1, b[..|b|])];
    assert LiveFiles(f, [x], HEADER_SIZE) + [] == [File(1, b[..HEADER_SIZE])];
  }

  /** The same directory with one more segment, of which there is only the header. */
  lemma HeaderOpens<Q(!new), E(!new)>(f: Format<Q, E>, e: E, synced: nat)
    requires Decodes(f) && Fits(f, e)
    ensures var x := OneEntry(e, synced);
            Recover(f, DiskAfter(f, Wreck([x], |FileBytes(f, x)|, [File(2, f.head(2))], []))) == Some((Alone(f, e), 2))
  {
    hide Decodes, WholeEntries, Fits, FileBytes, Fold, MapSeq, ReplaySegments;
    var x, log := OneEntry(e, synced), [e];
    var b, tail := FileBytes(f, x), [File(2, f.head(2))];
    assert Holds(log, x) && b[..|b|] == b;
    var r := ReplayWhole(f, x, log, 1, false, f.init, 0);
    OneFold(f, e);
    assert Slice(log, 0, 1) == [e][..1];
    assert Unborn(f, 2, tail);
    TailReplays(f, tail, 2, r.q, 0);
    var all := DiskAfter(f, Wreck([x], |b|, tail, [])).segs;
    assert all == [File(1, b)] + tail && all[1..] == tail;
    assert DropCovered(all, 1) == all;
    ContinueReplay(f, all, 1, f.init, 0, r);
  }

  // ---- a duplicate Append ----

  /** One entry is written, the process dies before the fsync, the store opens again and
      a duplicate Append of that entry returns nil. */
  ghost function Unsynced<Q, E>(m: Model<Q, E>, e: E): (r: (seq<Wal<Q, E>>, seq<Event<Q, E>>)) {
    var s0 := Fresh(m);
    var q := m.f.step(m.f.init, e);
    var s1 := s0.(d := s0.d.(active := OneEntry(e, HEADER_SIZE)), c := s0.c.(counted := false),
                  log := [e], hist := [m.f.init, q]);
    var s2 := s1.(c := s1.c.(written := 1, counted := true, waits := {Wait(1, 1)}));
    var x := Ending(Wreck([s2.d.active], |FileBytes(m.f, s2.d.active)|, [], []), false, 0);
    var s3 := s2.(c := Commit(1, 0, false, 0, 0, true, None, {}, {}), hist := [m.f.init, Alone(m.f, e)]);
    var s4 := s3.(c := s3.c.(waits := {Wait(0, 1)}));
    var s5 := s4.(c := s4.c.(acked := {1}));
    ([s0, s1, s2, s3, s4, s5], [Did(LogEntry(e, q)), Did(Count), Crashed(x), Did(Vouch(1)), Did(Return(Wait(0, 1)))])
  }

  lemma UnsyncedReopens<Q(!new), E(!new)>(m: Model<Q, E>, e: E)
    requires Lawful(m) && Fits(m.f, e)
    ensures var (ss, es) := Unsynced(m, e);
            Reopens(m, ss[2], es[2].x, ss[3])
  {
    hide Decodes, WholeEntries, Fits, Recover, FileBytes, SegmentBytes;
    var (ss, es) := Unsynced(m, e);
    var s, x, t := ss[2], es[2].x, ss[3];
    OneEntryEnds(m.f, e, HEADER_SIZE);
    OneEntryOpens(m.f, e, HEADER_SIZE);
    UnsyncedEnding(m, e);
    UnsyncedFiles(m, e);
    assert t.hist == s.hist[..1] + [Alone(m.f, e)];
    assert Survived(m.f, t.d.active, t.d.active.synced) == 0;
  }

  lemma UnsyncedEnding<Q(!new), E(!new)>(m: Model<Q, E>, e: E)
    requires Decodes(m.f)
    ensures var (ss, es) := Unsynced(m, e);
            EndingOk(m.f, ss[2], es[2].x)
  {
    hide Decodes, WholeEntries, FileBytes;
    var (ss, es) := Unsynced(m, e);
    var w := es[2].x.w;
    OneEntryEnds(m.f, e, HEADER_SIZE);
    assert Live(ss[2].d) == w.segs;
    assert |DiskAfter(m.f, w).segs| == 1;
  }

  lemma UnsyncedFiles<Q(!new), E(!new)>(m: Model<Q, E>, e: E)
    requires Decodes(m.f)
    ensures var (ss, es) := Unsynced(m, e);
            ss[3].d == FilesAfter(m.f, ss[2].d, es[2].x, 1)
  {
    hide Decodes, WholeEntries;
    var (ss, es) := Unsynced(m, e);
    var d, x := ss[2].d, es[2].x;
    var a := d.active;
    HeadSize(m.f, 1);
    RepairedWhole(m.f, a, false);
    assert Rest(x.w, 0) == [a];
    assert LiveAfter(m.f, x, 1) == [a];
    var d' := FilesAfter(m.f, d, x, 1);
    assert d'.closed == [] && d'.staleSegs == [] && d'.staleSnaps == {};
  }

  lemma UnsyncedSteps<Q(!new), E(!new)>(m: Model<Q, E>, e: E)
    requires Lawful(m) && Fits(m.f, e)
    ensures var (ss, es) := Unsynced(m, e);
            forall i :: 0 <= i < 5 && i != 2 ==> Step(m, ss[i], es[i].a, ss[i + 1])
  {
    hide Fits, FileBytes;
    var (ss, es) := Unsynced(m, e);
    assert Step(m, ss[0], es[0].a, ss[1]);
    assert Step(m, ss[1], es[1].a, ss[2]);
    assert Step(m, ss[3], es[3].a, ss[4]);
    assert Step(m, ss[4], es[4].a, ss[5]);
  }

  /** The first gap: with nothing fsynced in this session and the entry not on stable storage,
      the duplicate Append's nil is worth nothing. A power failure then loses the entry,
      and the store opens without it. */
  lemma DuplicateAppendLost<Q(!new), E(!new)>(m: Model<Q, E>, e: E)
    requires Lawful(m) && Fits(m.f, e)
    ensures var (ss, es) := Unsynced(m, e);
            var s := ss[5];
            var w := Wreck([s.d.active], HEADER_SIZE, [], []);
            && Life(m, ss, es) && 1 in s.c.acked && s.log == [e]
            && WreckOk(m.f, s, w) && Recover(m.f, DiskAfter(m.f, w)) == Some((m.f.finish(m.f.init), 1))
  {
    hide Decodes, WholeEntries, Fits, Recover, FileBytes, Step, Reopens;
    var (ss, es) := Unsynced(m, e);
    var s := ss[5];
    UnsyncedSteps(m, e);
    UnsyncedReopens(m, e);
    OneEntryEnds(m.f, e, HEADER_SIZE);
    OneEntryOpens(m.f, e, HEADER_SIZE);
    assert Live(s.d) == [s.d.active];
    forall i, j | 0 <= i && j == i + 1 <= |es| ensures Next(m, ss[i], es[i], ss[j]) {
    }
  }

  // ---- an ordinary Append ----

  /** One entry is written, a rotation fsyncs it and writes the next segment's header, and
      the process dies before the directory is synced. The store opens again on that
      segment; a second entry is written and fsynced, and its call returns nil. */
  ghost function Unlisted<Q, E>(m: Model<Q, E>, e: E): (r: (seq<Wal<Q, E>>, seq<Event<Q, E>>)) {
    var s0 := Fresh(m);
    var q := m.f.step(m.f.init, e);
    var size := |FileBytes(m.f, OneEntry(e, 0))|;
    var s1 := s0.(d := s0.d.(active := OneEntry(e, HEADER_SIZE)), c := s0.c.(counted := false),
                  log := [e], hist := [m.f.init, q]);
    var s2 := s1.(c := s1.c.(written := 1, counted := true, waits := {Wait(1, 1)}));
    var s3 := s2.(d := s2.d.(active := OneEntry(e, size), creating := Some(0)), c := s2.c.(durable := 1, rotated := true));
    var s4 := s3.(d := s3.d.(creating := Some(HEADER_SIZE)));
    var x := Ending(Wreck([OneEntry(e, size)], size, [File(2, m.f.head(2))], []), false, 0);
    var s5 := Wal(Files([OneEntry(e, size)], Seg(2, [], None, HEADER_SIZE), None, None, None, [], {}, 1, false),
                  Commit(1, 1, false, 0, 0, true, None, {}, {}), false, [e], [m.f.init, Alone(m.f, e)]);
    var q' := m.f.step(Alone(m.f, e), e);
    var s6 := s5.(d := s5.d.(active := Seg(2, [e], None, HEADER_SIZE)), c := s5.c.(counted := false),
                  log := [e, e], hist := [m.f.init, Alone(m.f, e), q']);
    var s7 := s6.(c := s6.c.(written := 1, counted := true, waits := {Wait(1, 2)}));
    var size' := |FileBytes(m.f, s7.d.active)|;
    var s8 := s7.(c := s7.c.(sync := Some(SyncJob(1, size'))));
    var s9 := s8.(c := s8.c.(sync := None, durable := 1), d := s8.d.(active := Seg(2, [e], None, size')));
    var s10 := s9.(c := s9.c.(acked := {2}));
    ([s0, s1, s2, s3, s4, s5, s6, s7, s8, s9, s10],
     [Did(LogEntry(e, q)), Did(Count), Did(RotateSync(true)), Did(CreateHeader(HEADER_SIZE)), Crashed(x),
      Did(LogEntry(e, q')), Did(Count), Did(SyncBegin), Did(SyncEnd(true)), Did(Return(Wait(1, 2)))])
  }

  lemma SameSize<Q, E>(f: Format<Q, E>, start: nat, es: seq<E>, a: nat, b: nat)
    ensures FileBytes(f, Seg(start, es, None, a)) == FileBytes(f, Seg(start, es, None, b))
  {
  }

  lemma UnlistedBefore<Q(!new), E(!new)>(m: Model<Q, E>, e: E)
    requires Lawful(m) && Fits(m.f, e)
    ensures var (ss, es) := Unlisted(m, e);
            forall i :: 0 <= i < 4 ==> Step(m, ss[i], es[i].a, ss[i + 1])
  {
    hide Fits, FileBytes, Decodes, SameAfter, GoodAfter;
    var (ss, es) := Unlisted(m, e);
    SameSize(m.f, 1, [e], 0, HEADER_SIZE);
    assert Step(m, ss[0], es[0].a, ss[1]);
    assert Step(m, ss[1], es[1].a, ss[2]);
    assert Step(m, ss[2], es[2].a, ss[3]);
    assert Step(m, ss[3], es[3].a, ss[4]);
  }

  lemma UnlistedAfter<Q(!new), E(!new)>(m: Model<Q, E>, e: E)
    requires Lawful(m) && Fits(m.f, e)
    ensures var (ss, es) := Unlisted(m, e);
            forall i :: 5 <= i < 10 ==> Step(m, ss[i], es[i].a, ss[i + 1])
  {
    hide Fits, FileBytes, Decodes, SameAfter, GoodAfter;
    var (ss, es) := Unlisted(m, e);
    SecondSize(m.f, e);
    assert Step(m, ss[5], es[5].a, ss[6]);
    assert Step(m, ss[6], es[6].a, ss[7]);
    assert Step(m, ss[7], es[7].a, ss[8]);
    assert Step(m, ss[8], es[8].a, ss[9]);
    assert Step(m, ss[9], es[9].a, ss[10]);
  }

  lemma SecondSize<Q(!new), E(!new)>(f: Format<Q, E>, e: E)
    requires Decodes(f)
    ensures |FileBytes(f, Seg(2, [e], None, HEADER_SIZE))| >= HEADER_SIZE
  {
    hide Decodes;
    HeadSize(f, 2);
  }

  lemma UnlistedEnding<Q(!new), E(!new)>(m: Model<Q, E>, e: E)
    requires Decodes(m.f)
    ensures var (ss, es) := Unlisted(m, e);
            EndingOk(m.f, ss[4], es[4].x)
  {
    hide Decodes, WholeEntries, FileBytes;
    var (ss, es) := Unlisted(m, e);
    var s, w := ss[4], es[4].x.w;
    var a := s.d.active;
    OneEntryEnds(m.f, e, a.synced);
    SameSize(m.f, 1, [e], 0, a.synced);
    HeadSize(m.f, 2);
    assert Live(s.d) == w.segs == [a];
    assert Unborn(m.f, 2, w.tail);
    var files := DiskAfter(m.f, w).segs;
    assert |files| == 2 && files[1].start == 2;
    assert DropCovered(files, 1) == files[0..];
  }

  lemma UnlistedFiles<Q(!new), E(!new)>(m: Model<Q, E>, e: E)
    requires Decodes(m.f)
    ensures var (ss, es) := Unlisted(m, e);
            ss[5].d == FilesAfter(m.f, ss[4].d, es[4].x, 1)
  {
    hide Decodes, WholeEntries, FileBytes, WholeEnd, WholePart;
    var (ss, es) := Unlisted(m, e);
    var d, x := ss[4].d, es[4].x;
    var a := d.active;
    var empty: Seg<E> := Seg(2, [], None, HEADER_SIZE);
    HeadSize(m.f, 2);
    SameSize(m.f, 1, [e], 0, a.synced);
    RepairedWhole(m.f, a, false);
    assert Rest(x.w, 0) == [a] && Born(x.w.tail);
    assert LiveAfter(m.f, x, 1) == [a] + [empty];
    var d' := FilesAfter(m.f, d, x, 1);
    assert d'.closed == [a] && d'.staleSegs == [] && d'.staleSnaps == {};
  }

  lemma UnlistedReopens<Q(!new), E(!new)>(m: Model<Q, E>, e: E)
    requires Lawful(m) && Fits(m.f, e)
    ensures var (ss, es) := Unlisted(m, e);
            Reopens(m, ss[4], es[4].x, ss[5])
  {
    hide Decodes, Fits, Recover, FileBytes, FilesAfter, EndingOk;
    var (ss, es) := Unlisted(m, e);
    var s, x, t := ss[4], es[4].x, ss[5];
    SameSize(m.f, 1, [e], 0, s.d.active.synced);
    HeaderOpens(m.f, e, s.d.active.synced);
    UnlistedEnding(m, e);
    UnlistedFiles(m, e);
    assert t.log == s.log[..1] && t.hist == s.hist[..1] + [Alone(m.f, e)];
    assert Survived(m.f, t.d.active, t.d.active.synced) == 1;
  }

  /** The second gap: the entry is fsynced and its call waited for that, but no directory sync
      has followed the creation of its file. A power failure takes the file, and the store
      opens without the entry. */
  lemma OrdinaryAppendLost<Q(!new), E(!new)>(m: Model<Q, E>, e: E)
    requires Lawful(m) && Fits(m.f, e)
    ensures var (ss, es) := Unlisted(m, e);
            var s := ss[10];
            var w := Wreck(s.d.closed, |FileBytes(m.f, s.d.closed[0])|, [], []);
            && Life(m, ss, es) && es[9] == Did(Return(Wait(1, 2))) && 2 in s.c.acked && s.log == [e, e]
            && WreckOk(m.f, s, w) && Recover(m.f, DiskAfter(m.f, w)) == Some((Alone(m.f, e), 2))
  {
    hide Decodes, Fits, Recover, FileBytes, Step, Reopens, Fresh;
    var (ss, es) := Unlisted(m, e);
    var s := ss[10];
    UnlistedBefore(m, e);
    UnlistedReopens(m, e);
    UnlistedAfter(m, e);
    SameSize(m.f, 1, [e], 0, s.d.closed[0].synced);
    OneEntryOpens(m.f, e, s.d.closed[0].synced);
    assert Live(s.d)[0] == s.d.closed[0];
    forall i, j | 0 <= i && j == i + 1 <= |es| ensures Next(m, ss[i], es[i], ss[j]) {
    }
  }
}
