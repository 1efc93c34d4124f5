/** What every action of the log protocol keeps: group commit never counts an entry
    durable before it is, sealed segments are whole, and the log is the history of the
    live queue. */
module WalSafety {
  import opened Records
  import opened Frames
  import opened Recovery
  import opened Wal

  lemma LogKeepsChain<E>(segs: seq<Seg<E>>, log: seq<E>, e: E)
    requires Chained(segs, log)
    ensures var n := |segs| - 1;
            Chained(segs[n := segs[n].(es := segs[n].es + [e])], log + [e])
  {
    var n := |segs| - 1;
    var segs' := segs[n := segs[n].(es := segs[n].es + [e])];
    forall i, j | 0 <= i && j == i + 1 < |segs| ensures Follows(segs'[i], segs'[j]) {
      assert Follows(segs[i], segs[j]);
    }
    forall z <- segs' ensures Holds(log + [e], z) {
      var i :| 0 <= i < |segs| && segs'[i] == z;
      assert Holds(log, segs[i]);
    }
  }

  lemma LogKeepsCounters<Q, E>(f: Format<Q, E>, d: Files<E>, c: Commit, n: nat, e: E)
    requires Counters(f, d, c, n) && c.counted && d.creating.None? && d.active.half.None?
    ensures Counters(f, d.(active := d.active.(es := d.active.es + [e])), c.(counted := false), n + 1)
  {
    var x := d.active;
    var y := x.(es := x.es + [e]);
    EndsByGrown(f, x, y, Promised(c), x.synced, x.synced);
    if c.sync.Some? {
      EndsByGrown(f, x, y, c.base + c.sync.value.target, c.sync.value.upto, c.sync.value.upto);
    }
  }

  lemma LogKeepsHistory<Q, E>(m: Model<Q, E>, log: seq<E>, hist: seq<Q>, e: E, q: Q)
    requires History(m, log, hist) && Fits(m.f, e) && |log| + 2 < TWO_64
    requires m.view(q) == m.view(m.f.step(hist[|log|], e))
    ensures History(m, log + [e], hist + [q])
  {
    var log', hist' := log + [e], hist + [q];
    forall i | 0 <= i < |log'| ensures m.view(hist'[i + 1]) == m.view(m.f.step(hist'[i], log'[i])) {
      if i < |log| {
        assert hist'[i + 1] == hist[i + 1] && hist'[i] == hist[i];
      }
    }
  }

  lemma LogKeepsSynced<Q, E>(f: Format<Q, E>, d: Files<E>, n: nat, e: E)
    requires Synced(f, d, n) && d.creating.None? && d.active.half.None?
    ensures Synced(f, d.(active := d.active.(es := d.active.es + [e])), n + 1)
  {
    AppendBytes(f, d.active.start, d.active.es, e);
  }

  /** A new entry ends after every byte that was there. */
  lemma NewEntryEnds<Q(!new), E(!new)>(f: Format<Q, E>, x: Seg<E>, e: E)
    requires Decodes(f) && x.half.None? && x.synced <= |FileBytes(f, x)|
    ensures var y := x.(es := x.es + [e]); EntryEnd(f, y, |y.es|) > x.synced
  {
    var y := x.(es := x.es + [e]);
    AppendBytes(f, x.start, x.es, e);
    assert SealOk(f, FrameOf(f, x.start + |x.es|, e));
    assert y.es[..|y.es|] == y.es;
  }

  lemma LogKeepsLoose<Q(!new), E(!new)>(f: Format<Q, E>, d: Files<E>, c: Commit, n: nat, e: E)
    requires Decodes(f) && Synced(f, d, n) && Loose(f, d, c, n) && d.active.half.None?
    requires 1 <= d.active.start && d.active.start + |d.active.es| == n + 1 && c.firm <= n
    ensures Loose(f, d.(active := d.active.(es := d.active.es + [e])), c.(counted := false), n + 1)
  {
    hide Decodes, FileBytes, SegmentBytes;
    var x := d.active;
    var y := x.(es := x.es + [e]);
    NewEntryEnds(f, x, e);
    if c.firm < n && x.start <= c.firm + 1 {
      assert x.es[..c.firm + 2 - x.start] == y.es[..c.firm + 2 - x.start];
    }
  }

  lemma LogKeeps<Q(!new), E(!new)>(m: Model<Q, E>, s: Wal<Q, E>, e: E, q: Q, t: Wal<Q, E>)
    requires Decodes(m.f) && Inv(m, s) && DoLog(m, s, e, q, t)
    ensures Inv(m, t)
  {
    hide Chained, History, Snapshots, Synced, Counters, Loose, Decodes;
    ActiveEnd(m, s);
    FirmInLog(m, s);
    LogKeepsLoose(m.f, s.d, s.c, |s.log|, e);
    LogKeepsChain(Live(s.d), s.log, e);
    assert Live(t.d) == Live(s.d)[|s.d.closed| := t.d.active];
    LogKeepsSynced(m.f, s.d, |s.log|, e);
    LogKeepsCounters(m.f, s.d, s.c, |s.log|, e);
    LogKeepsHistory(m, s.log, s.hist, e, q);
    SnapshotsKept(m, s.d, t.d, s.hist, t.hist);
    RemovedKept(m.f, s.d, s.log, t.d, t.log);
    PlacedKept(m.f, s.d, s.c.base, t.d, t.c.base);
  }

  lemma RemovedKept<Q, E>(f: Format<Q, E>, d: Files<E>, log: seq<E>, d': Files<E>, log': seq<E>)
    requires Removed(f, d, log) && log <= log' && d'.staleSegs == d.staleSegs && Live(d')[0].start == Live(d)[0].start
    ensures Removed(f, d', log')
  {
    hide Settled;
    forall x <- d'.staleSegs ensures Holds(log', x) {
      assert Holds(log, x);
    }
  }

  /** Nothing moves, and no byte below the end of the entries leaves stable storage. */
  lemma PlacedKept<Q, E>(f: Format<Q, E>, d: Files<E>, base: nat, d': Files<E>, base': nat)
    requires Placed(f, d, base) && base' == base && d'.closed == d.closed && d'.snap == d.snap
    requires d'.newer == d.newer || (d'.newer.Some? ==> d'.newer.value.vis != Durable)
    requires d'.adrift == d.adrift && d'.snapAdrift == d.snapAdrift
    requires d'.active.start == d.active.start && d.active.es <= d'.active.es
    requires d.active.synced <= d'.active.synced || |SegmentBytes(f, d.active.start, d.active.es)| <= d'.active.synced
    ensures Placed(f, d', base')
  {
    hide EndsBy;
    EndsByGrown(f, d.active, d'.active, SnapNo(d), d.active.synced, d'.active.synced);
  }

  // ---- the active file, without new entries ----

  /** The active segment's tail or synced length changes; its entries do not. */
  lemma TailKeepsChain<E>(d: Files<E>, d': Files<E>, log: seq<E>)
    requires Chained(Live(d), log)
    requires d'.closed == d.closed
    requires d'.active.start == d.active.start && d'.active.es == d.active.es
    ensures Chained(Live(d'), log)
  {
    var ls, ls' := Live(d), Live(d');
    forall i, j | 0 <= i && j == i + 1 < |ls'| ensures Follows(ls'[i], ls'[j]) {
      assert Follows(ls[i], ls[j]);
    }
    forall z <- ls' ensures Holds(log, z) {
      var i :| 0 <= i < |ls'| && ls'[i] == z;
      assert Holds(log, ls[i]);
    }
  }

  lemma TailKeeps<Q, E>(m: Model<Q, E>, s: Wal<Q, E>, t: Wal<Q, E>)
    requires Inv(m, s) && t.log == s.log && t.hist == s.hist
    requires t.d == s.d.(active := t.d.active, creating := t.d.creating) && t.c.base == s.c.base
    requires t.d.active.start == s.d.active.start && t.d.active.es == s.d.active.es
    requires s.d.active.synced <= t.d.active.synced || |SegmentBytes(m.f, s.d.active.start, s.d.active.es)| <= t.d.active.synced
    requires Synced(m.f, t.d, |t.log|) && Counters(m.f, t.d, t.c, |t.log|) && Loose(m.f, t.d, t.c, |t.log|)
    ensures Inv(m, t)
  {
    hide Synced, Counters, Loose, Chained, History, Snapshots, Placed, Removed, SegmentBytes;
    TailKeepsChain(s.d, t.d, s.log);
    SnapshotsKept(m, s.d, t.d, s.hist, t.hist);
    RemovedKept(m.f, s.d, s.log, t.d, t.log);
    PlacedKept(m.f, s.d, s.c.base, t.d, t.c.base);
  }

  lemma ShortWriteKeeps<Q, E>(m: Model<Q, E>, s: Wal<Q, E>, e: E, k: nat, t: Wal<Q, E>)
    requires Inv(m, s) && DoShortWrite(m, s, e, k, t)
    ensures Inv(m, t)
  {
    hide Chained, History, Snapshots, Counters;
    HalfCounters(m.f, s.d, s.c, |s.log|, t.d.active);
    LooseStays(m.f, s.d, s.c, |s.log|, t.d, t.c);
    TailKeeps(m, s, t);
  }

  lemma HalfCounters<Q, E>(f: Format<Q, E>, d: Files<E>, c: Commit, n: nat, y: Seg<E>)
    requires Counters(f, d, c, n) && c.counted && y == d.active.(half := y.half)
    ensures Counters(f, d.(active := y), c, n)
  {
    hide EndsBy;
    EndsByGrown(f, d.active, y, Promised(c), d.active.synced, y.synced);
    if c.sync.Some? {
      EndsByGrown(f, d.active, y, c.base + c.sync.value.target, c.sync.value.upto, c.sync.value.upto);
    }
  }

  lemma RollBackCounters<Q, E>(f: Format<Q, E>, d: Files<E>, c: Commit, n: nat, y: Seg<E>)
    requires Counters(f, d, c, n)
    requires y.start == d.active.start && y.es == d.active.es && y.half.None?
    requires y.synced == Min(d.active.synced, |SegmentBytes(f, y.start, y.es)|)
    ensures Counters(f, d.(active := y), Capped(c, |SegmentBytes(f, y.start, y.es)|), n)
  {
    hide EndsBy;
    var end := |SegmentBytes(f, y.start, y.es)|;
    EndsByGrown(f, d.active, y, Promised(c), d.active.synced, y.synced);
    if c.sync.Some? {
      EndsByGrown(f, d.active, y, c.base + c.sync.value.target, c.sync.value.upto, Min(c.sync.value.upto, end));
    }
  }

  /** Nothing new is on stable storage, and the entries are the same. */
  lemma LooseStays<Q, E>(f: Format<Q, E>, d: Files<E>, c: Commit, n: nat, d': Files<E>, c': Commit)
    requires Loose(f, d, c, n) && d'.active.start == d.active.start && d'.active.es == d.active.es
    requires d'.active.synced <= d.active.synced && c'.rotated == c.rotated && c'.durable == c.durable && c'.firm == c.firm
    ensures Loose(f, d', c', n)
  {
  }

  lemma RollBackKeeps<Q(!new), E(!new)>(m: Model<Q, E>, s: Wal<Q, E>, ok: bool, t: Wal<Q, E>)
    requires Decodes(m.f) && Inv(m, s) && DoRollBack(m, s, ok, t)
    ensures Inv(m, t)
  {
    if ok {
      assert |m.f.head(s.d.active.start)| == HEADER_SIZE by {
        HeadSize(m.f, s.d.active.start);
      }
      RollBackCounters(m.f, s.d, s.c, |s.log|, t.d.active);
      LooseStays(m.f, s.d, s.c, |s.log|, t.d, t.c);
      TailKeeps(m, s, t);
    }
  }

  lemma EndsByHere<Q, E>(f: Format<Q, E>, x: Seg<E>, lsn: nat)
    requires lsn < x.start + |x.es|
    ensures EndsBy(f, x, lsn, |FileBytes(f, x)|)
  {
    if x.start <= lsn {
      EndMonotone(f, x, lsn - x.start + 1, |x.es|);
    }
  }

  lemma FirmInLog<Q, E>(m: Model<Q, E>, s: Wal<Q, E>)
    requires Inv(m, s)
    ensures s.c.firm <= s.c.base <= |s.log|
  {
  }

  lemma ActiveEnd<Q, E>(m: Model<Q, E>, s: Wal<Q, E>)
    requires Inv(m, s)
    ensures 1 <= s.d.active.start && s.d.active.start + |s.d.active.es| == |s.log| + 1
  {
    assert Live(s.d)[|s.d.closed|] == s.d.active;
    assert Holds(s.log, s.d.active);
  }

  lemma SyncBeginKeeps<Q, E>(m: Model<Q, E>, s: Wal<Q, E>, t: Wal<Q, E>)
    requires Inv(m, s) && DoSyncBegin(m, s, t)
    ensures Inv(m, t)
  {
    hide Chained, History, Snapshots, Synced, EndsBy;
    ActiveEnd(m, s);
    EndsByHere(m.f, s.d.active, s.c.base + s.c.written);
  }

  lemma SyncEndCounters<Q, E>(f: Format<Q, E>, d: Files<E>, c: Commit, n: nat, y: Seg<E>)
    requires Counters(f, d, c, n) && c.sync.Some? && n < d.active.start + |d.active.es|
    requires y == d.active.(synced := Max(d.active.synced, Min(c.sync.value.upto, |FileBytes(f, d.active)|)))
    ensures Counters(f, d.(active := y), c.(sync := None, durable := Max(c.durable, c.sync.value.target)), n)
  {
    hide EndsBy, FileBytes;
    var x, l := d.active, c.base + c.sync.value.target;
    EndsByHere(f, x, l);
    EndsByGrown(f, x, y, l, Min(c.sync.value.upto, |FileBytes(f, x)|), y.synced);
    EndsByGrown(f, x, y, Promised(c), x.synced, y.synced);
  }

  lemma SyncEndSynced<Q, E>(f: Format<Q, E>, d: Files<E>, n: nat, upto: nat)
    requires Synced(f, d, n) && d.creating.None?
    ensures Synced(f, d.(active := d.active.(synced := Max(d.active.synced, Min(upto, |FileBytes(f, d.active)|)))), n)
  {
  }

  lemma SyncEndKeeps<Q, E>(m: Model<Q, E>, s: Wal<Q, E>, ok: bool, t: Wal<Q, E>)
    requires Inv(m, s) && DoSyncEnd(m, s, ok, t)
    ensures Inv(m, t)
  {
    hide Counters, Synced, FileBytes, Chained, History, Snapshots, EndsBy;
    if ok {
      ActiveEnd(m, s);
      SyncEndCounters(m.f, s.d, s.c, |s.log|, t.d.active);
      SyncEndDurable(m.f, s.d, s.c, |s.log|);
      SyncEndSynced(m.f, s.d, |s.log|, s.c.sync.value.upto);
      TailKeeps(m, s, t);
    } else {
      SyncFailed(m.f, s.d, s.c, |s.log|);
      LooseStays(m.f, s.d, s.c, |s.log|, t.d, t.c);
    }
  }

  lemma SyncFailed<Q, E>(f: Format<Q, E>, d: Files<E>, c: Commit, n: nat)
    requires Counters(f, d, c, n)
    ensures Counters(f, d, c.(sync := None), n)
  {
    hide EndsBy;
  }

  lemma SyncEndDurable<Q, E>(f: Format<Q, E>, d: Files<E>, c: Commit, n: nat)
    requires Counters(f, d, c, n) && c.sync.Some?
    ensures Max(c.durable, c.sync.value.target) > 0 && d.creating.None?
  {
  }

  /** The fsync in flight, if any, covers a prefix of b and nothing else. */
  ghost predicate Covers<Q, E>(f: Format<Q, E>, s: Wal<Q, E>, b: Bytes) {
    s.c.sync.Some? ==>
      var upto, now := s.c.sync.value.upto, FileBytes(f, s.d.active);
      upto <= |now| && upto <= |b| && now[..upto] == b[..upto]
  }

  lemma StepCovers<Q, E>(m: Model<Q, E>, s: Wal<Q, E>, a: Act<Q, E>, t: Wal<Q, E>, b: Bytes)
    requires Inv(m, s) && Step(m, s, a, t) && Covers(m.f, s, b) && s.c.sync.Some? && !a.SyncEnd?
    ensures Covers(m.f, t, b) && t.c.sync.Some?
  {
    if a.LogEntry? || a.ShortWrite? || a.RollBack? {
      hide Inv, Fits, HalfOk;
      TailCovers(m, s, a, t, b);
    } else {
      hide FileBytes, Inv, Step;
      SameBytes(m, s, a, t);
    }
  }

  lemma TailCovers<Q, E>(m: Model<Q, E>, s: Wal<Q, E>, a: Act<Q, E>, t: Wal<Q, E>, b: Bytes)
    requires Step(m, s, a, t) && Covers(m.f, s, b) && s.c.sync.Some? && (a.LogEntry? || a.ShortWrite? || a.RollBack?)
    ensures Covers(m.f, t, b) && t.c.sync.Some?
  {
    hide Fits, HalfOk, SegmentBytes;
    var x, y := s.d.active, t.d.active;
    var now, later := FileBytes(m.f, x), FileBytes(m.f, y);
    if a.LogEntry? {
      AppendBytes(m.f, x.start, x.es, a.e);
      assert now <= later;
    } else if a.ShortWrite? {
      assert now <= later;
    } else {
      assert later <= now;
    }
    hide FileBytes, Step;
    StepSyncs(m, s, a, t);
    PrefixCovers(now, later, b, s.c.sync.value.upto, t.c.sync.value.upto);
  }

  lemma StepSyncs<Q, E>(m: Model<Q, E>, s: Wal<Q, E>, a: Act<Q, E>, t: Wal<Q, E>)
    requires Step(m, s, a, t) && s.c.sync.Some? && s.c.sync.value.upto <= |FileBytes(m.f, s.d.active)|
    requires (a.LogEntry? || a.ShortWrite? || a.RollBack?) && (a.RollBack? || FileBytes(m.f, s.d.active) <= FileBytes(m.f, t.d.active))
    ensures t.c.sync.Some? && t.c.sync.value.upto <= s.c.sync.value.upto
    ensures t.c.sync.value.upto <= |FileBytes(m.f, t.d.active)|
  {
    hide Fits, HalfOk, SegmentBytes;
  }

  lemma PrefixCovers(now: Bytes, later: Bytes, b: Bytes, upto: nat, upto': nat)
    requires upto <= |now| && upto <= |b| && now[..upto] == b[..upto] && (now <= later || later <= now)
    requires upto' <= upto && upto' <= |later|
    ensures later[..upto'] == b[..upto']
  {
    assert later[..upto'] == now[..upto'] == now[..upto][..upto'];
    assert b[..upto'] == b[..upto][..upto'];
  }

  lemma SameBytes<Q, E>(m: Model<Q, E>, s: Wal<Q, E>, a: Act<Q, E>, t: Wal<Q, E>)
    requires Inv(m, s) && Step(m, s, a, t) && s.c.sync.Some?
    requires !a.SyncEnd? && !a.LogEntry? && !a.ShortWrite? && !a.RollBack?
    ensures FileBytes(m.f, t.d.active) == FileBytes(m.f, s.d.active) && t.c.sync == s.c.sync
  {
    hide Chained, History, Snapshots, Synced, Loose, EndsBy, SegmentBytes, SnapGood, Removed, Placed;
  }

  lemma RotateSyncKeeps<Q, E>(m: Model<Q, E>, s: Wal<Q, E>, ok: bool, t: Wal<Q, E>)
    requires Inv(m, s) && DoRotateSync(m, s, ok, t)
    ensures Inv(m, t)
  {
    if ok {
      var x, y := s.d.active, t.d.active;
      ActiveEnd(m, s);
      EndsByHere(m.f, x, s.c.base + s.c.written);
      EndsByGrown(m.f, x, y, s.c.base + s.c.written, y.synced, y.synced);
      EndsByGrown(m.f, x, y, Promised(s.c), x.synced, y.synced);
      TailKeeps(m, s, t);
    }
  }

  lemma CreateStepKeeps<Q, E>(m: Model<Q, E>, s: Wal<Q, E>, k: nat, cleaned: bool, t: Wal<Q, E>)
    requires Inv(m, s) && (DoCreateHeader(s, k, t) || DoCreateFails(s, cleaned, t))
    ensures Inv(m, t)
  {
    if t.failed == s.failed {
      TailKeeps(m, s, t);
    }
  }

  /** Steps that only lengthen the log, or leave it, keep the snapshots good. */
  lemma SnapshotsKept<Q, E>(m: Model<Q, E>, d: Files<E>, d': Files<E>, hist: seq<Q>, hist': seq<Q>)
    requires Snapshots(m, d, hist) && hist <= hist'
    requires d'.snap == d.snap && d'.staleSnaps == d.staleSnaps
    requires d'.newer.Some? ==> d.newer.Some? && d'.newer.value.snap == d.newer.value.snap
    requires |d.closed| <= |d'.closed| && forall i :: 0 <= i <= |d.closed| ==> Live(d')[i].start == Live(d)[i].start
    ensures Snapshots(m, d', hist')
  {
    if d'.newer.Some? {
      var lsn := d.newer.value.snap.start;
      var k :| 0 <= k <= |d.closed| && Live(d)[k].start == lsn + 1;
      assert Live(d')[k].start == lsn + 1;
    }
  }

  // ---- callers ----

  lemma CallerKeeps<Q, E>(m: Model<Q, E>, s: Wal<Q, E>, t: Wal<Q, E>)
    requires Inv(m, s) && t == s.(c := t.c) && Counters(m.f, s.d, t.c, |s.log|)
    requires t.c.rotated == s.c.rotated && t.c.durable == s.c.durable && t.c.firm == s.c.firm && t.c.base == s.c.base
    ensures Inv(m, t)
  {
    hide Chained, Synced, Counters, History, Snapshots, Removed, Placed;
  }

  lemma CountKeeps<Q, E>(m: Model<Q, E>, s: Wal<Q, E>, t: Wal<Q, E>)
    requires Inv(m, s) && DoCount(s, t)
    ensures Inv(m, t)
  {
    hide Chained, History, Snapshots, Synced, EndsBy;
    CallerKeeps(m, s, t);
  }

  lemma VouchKeeps<Q, E>(m: Model<Q, E>, s: Wal<Q, E>, lsn: nat, t: Wal<Q, E>)
    requires Inv(m, s) && DoVouch(s, lsn, t)
    ensures Inv(m, t)
  {
    hide Chained, History, Snapshots, Synced, EndsBy;
    CallerKeeps(m, s, t);
  }

  lemma ReturnKeeps<Q, E>(m: Model<Q, E>, s: Wal<Q, E>, w: Wait, t: Wal<Q, E>)
    requires Inv(m, s) && DoReturn(s, w, t)
    ensures Inv(m, t)
  {
    hide Chained, History, Snapshots, Synced, EndsBy;
    CallerKeeps(m, s, t);
  }

  // ---- new segments ----

  lemma CreateDoneKeepsChain<E>(segs: seq<Seg<E>>, log: seq<E>, x: Seg<E>)
    requires Chained(segs, log) && segs[|segs| - 1].es != [] && x.start == |log| + 1 && x.es == []
    ensures Chained(segs + [x], log)
  {
    var segs' := segs + [x];
    forall i, j | 0 <= i && j == i + 1 < |segs'| ensures Follows(segs'[i], segs'[j]) {
      if j < |segs| {
        assert Follows(segs[i], segs[j]);
      }
    }
    assert Holds(log, x);
  }

  lemma CreateDoneSynced<Q(!new), E(!new)>(f: Format<Q, E>, d: Files<E>, n: nat, d': Files<E>)
    requires Decodes(f) && Synced(f, d, n) && d.creating.Some?
    requires d'.closed == d.closed + [d.active] && d'.active == Seg(n + 1, [], None, HEADER_SIZE) && d'.creating.None?
    ensures Synced(f, d', n)
  {
    HeadSize(f, n + 1);
    assert |FileBytes(f, d'.active)| == HEADER_SIZE;
  }

  lemma SnapInLog<Q, E>(m: Model<Q, E>, s: Wal<Q, E>)
    requires Inv(m, s)
    ensures SnapNo(s.d) <= |s.log| && (s.d.newer.Some? ==> s.d.newer.value.snap.start <= |s.log|)
  {
    hide Chained, Synced, Counters, Loose, LoadSnapshot;
  }

  lemma CreateDoneKeeps<Q(!new), E(!new)>(m: Model<Q, E>, s: Wal<Q, E>, t: Wal<Q, E>)
    requires Decodes(m.f) && Inv(m, s) && DoCreateDone(s, t)
    ensures Inv(m, t)
  {
    var x := t.d.active;
    ActiveEnd(m, s);
    CreateDoneKeepsChain(Live(s.d), s.log, x);
    assert Live(t.d) == Live(s.d) + [x];
    CreateDoneSynced(m.f, s.d, |s.log|, t.d);
    SnapshotsKept(m, s.d, t.d, s.hist, t.hist);
    RemovedKept(m.f, s.d, s.log, t.d, t.log);
    assert SnapNo(s.d) < x.start by {
      SnapInLog(m, s);
    }
  }

  // ---- compaction ----

  lemma CaptureKeeps<Q, E>(m: Model<Q, E>, s: Wal<Q, E>, snap: File, t: Wal<Q, E>)
    requires Inv(m, s) && DoCapture(m, s, snap, t)
    ensures Inv(m, t)
  {
    hide Chained, Counters, Loose, Synced, History, SnapGood, Placed;
    ActiveEnd(m, s);
    assert Live(t.d)[|t.d.closed|].start == snap.start + 1;
    assert Boundary(t.d, snap.start);
    SameCounters(m.f, s.d, t.d, s.c, |s.log|);
    SameFiles(m.f, s.d, t.d, s.c, |s.log|);
    PlacedKept(m.f, s.d, s.c.base, t.d, t.c.base);
  }

  lemma SameFiles<Q, E>(f: Format<Q, E>, d: Files<E>, d': Files<E>, c: Commit, n: nat)
    requires Synced(f, d, n) && Loose(f, d, c, n)
    requires d'.active == d.active && d'.closed == d.closed && d'.creating == d.creating
    ensures Synced(f, d', n) && Loose(f, d', c, n)
  {
  }

  lemma PublishKeeps<Q, E>(m: Model<Q, E>, s: Wal<Q, E>, from: Visibility, to: Option<Visibility>, t: Wal<Q, E>)
    requires Inv(m, s) && DoPublish(s, from, to, t)
    ensures Inv(m, t)
  {
    hide Chained, Counters, Loose, Synced, History, Snapshots;
    SnapshotsKept(m, s.d, t.d, s.hist, t.hist);
    SameCounters(m.f, s.d, t.d, s.c, |s.log|);
    SameFiles(m.f, s.d, t.d, s.c, |s.log|);
  }

  lemma {:induction false} StartsIncrease<E>(segs: seq<Seg<E>>, log: seq<E>, i: nat, j: nat)
    requires Chained(segs, log) && i < j < |segs|
    ensures segs[i].start < segs[j].start
  {
    assert Follows(segs[j - 1], segs[j]);
    if i < j - 1 {
      StartsIncrease(segs, log, i, j - 1);
    }
  }

  lemma SuffixChained<E>(segs: seq<Seg<E>>, log: seq<E>, k: nat)
    requires Chained(segs, log) && k < |segs|
    ensures Chained(segs[k..], log)
  {
    var ls := segs[k..];
    forall i, j | 0 <= i && j == i + 1 < |ls| ensures Follows(ls[i], ls[j]) {
      assert Follows(segs[k + i], segs[k + j]);
    }
  }

  lemma {:induction false} EndsBeforeNext<E>(segs: seq<Seg<E>>, log: seq<E>, i: nat, j: nat)
    requires Chained(segs, log) && i < j < |segs|
    ensures segs[i].start + |segs[i].es| <= segs[j].start
  {
    assert Follows(segs[j - 1], segs[j]);
    if i < j - 1 {
      EndsBeforeNext(segs, log, i, j - 1);
    }
  }

  /** Every live segment but the last holds entries, and ends before the next begins. */
  lemma LiveApart<Q, E>(m: Model<Q, E>, s: Wal<Q, E>, x: Seg<E>, k: nat)
    requires Inv(m, s) && k <= |s.d.closed| && x in s.d.closed[..k]
    ensures Holds(s.log, x) && Settled(m.f, x) && x.es != [] && Live(s.d)[0].start <= x.start
    ensures x.start + |x.es| <= Live(s.d)[k].start
  {
    hide Counters, Loose, History, Snapshots, Placed, Removed, FileBytes;
    var ls := Live(s.d);
    var i :| 0 <= i < k && s.d.closed[..k][i] == x;
    assert ls[i] == x && Follows(ls[i], ls[i + 1]) && x in s.d.closed;
    EndsBeforeNext(ls, s.log, i, k);
    if i > 0 {
      StartsIncrease(ls, s.log, 0, i);
    }
  }

  lemma SwapRemoved<Q, E>(m: Model<Q, E>, s: Wal<Q, E>, k: nat, t: Wal<Q, E>)
    requires Inv(m, s) && DoSwap(s, k, t)
    ensures Removed(m.f, t.d, t.log)
  {
    hide Chained, Counters, Loose, Synced, History, Snapshots, Placed, Settled;
    var first := Live(s.d)[0].start;
    assert Live(t.d) == Live(s.d)[k..];
    assert first <= Live(t.d)[0].start by {
      if k > 0 { StartsIncrease(Live(s.d), s.log, 0, k); }
    }
    forall x <- t.d.staleSegs
      ensures Holds(t.log, x) && Settled(m.f, x) && x.es != [] && x.start + |x.es| <= Live(t.d)[0].start
    {
      if x in s.d.closed[..k] { LiveApart(m, s, x, k); }
    }
    forall x <- t.d.staleSegs, y <- t.d.staleSegs | x.start < y.start ensures x.start + |x.es| <= y.start {
      if y in s.d.closed[..k] {
        LiveApart(m, s, y, k);
        if x in s.d.closed[..k] { ClosedApart(m, s, x, y, k); }
      } else if x in s.d.closed[..k] {
        LiveApart(m, s, x, k);
      }
    }
  }

  lemma ClosedApart<Q, E>(m: Model<Q, E>, s: Wal<Q, E>, x: Seg<E>, y: Seg<E>, k: nat)
    requires Inv(m, s) && k <= |s.d.closed| && x in s.d.closed[..k] && y in s.d.closed[..k] && x.start < y.start
    ensures x.start + |x.es| <= y.start
  {
    hide Counters, Loose, History, Snapshots, Placed, Removed, Synced;
    var ls := Live(s.d);
    var i :| 0 <= i < k && s.d.closed[..k][i] == x;
    var j :| 0 <= j < k && s.d.closed[..k][j] == y;
    assert ls[i] == x && ls[j] == y;
    if i < j {
      EndsBeforeNext(ls, s.log, i, j);
    } else if j < i {
      StartsIncrease(ls, s.log, j, i);
    }
  }

  lemma SwapSnapshots<Q, E>(m: Model<Q, E>, s: Wal<Q, E>, k: nat, t: Wal<Q, E>)
    requires Inv(m, s) && DoSwap(s, k, t)
    ensures Snapshots(m, t.d, t.hist) && Placed(m.f, t.d, t.c.base)
  {
    hide Counters, History, Synced, FileBytes, Loose, SnapGood, Removed;
    assert Live(t.d) == Live(s.d)[k..];
    if k < |s.d.closed| {
      StartsIncrease(Live(s.d), s.log, k, |s.d.closed|);
    }
  }

  lemma SameCounters<Q, E>(f: Format<Q, E>, d: Files<E>, d': Files<E>, c: Commit, n: nat)
    requires Counters(f, d, c, n) && d'.active == d.active && d'.creating == d.creating
    ensures Counters(f, d', c, n)
  {
    hide EndsBy;
  }

  lemma SwapKeeps<Q, E>(m: Model<Q, E>, s: Wal<Q, E>, k: nat, t: Wal<Q, E>)
    requires Inv(m, s) && DoSwap(s, k, t)
    ensures Inv(m, t)
  {
    hide History, Snapshots, Chained, Counters, Removed, Placed;
    SuffixChained(Live(s.d), s.log, k);
    assert Live(t.d) == Live(s.d)[k..];
    SwapSnapshots(m, s, k, t);
    SwapRemoved(m, s, k, t);
    SameCounters(m.f, s.d, t.d, s.c, |s.log|);
  }

  /** Every action of every interleaving keeps the invariant. */
  lemma StepKeeps<Q(!new), E(!new)>(m: Model<Q, E>, s: Wal<Q, E>, a: Act<Q, E>, t: Wal<Q, E>)
    requires Decodes(m.f) && Inv(m, s) && Step(m, s, a, t)
    ensures Inv(m, t)
  {
    hide Chained, Counters, History, Snapshots, Synced, Decodes, Removed, Placed;
    match a
    case LogEntry(e, q) => LogKeeps(m, s, e, q, t);
    case Count => CountKeeps(m, s, t);
    case ShortWrite(e, k) => ShortWriteKeeps(m, s, e, k, t);
    case RollBack(ok) => RollBackKeeps(m, s, ok, t);
    case SyncBegin => SyncBeginKeeps(m, s, t);
    case SyncEnd(ok) => SyncEndKeeps(m, s, ok, t);
    case RotateSync(ok) => RotateSyncKeeps(m, s, ok, t);
    case CreateHeader(k) => CreateStepKeeps(m, s, k, false, t);
    case CreateDone => CreateDoneKeeps(m, s, t);
    case CreateFails(cleaned) => CreateStepKeeps(m, s, 0, cleaned, t);
    case Vouch(lsn) => VouchKeeps(m, s, lsn, t);
    case Return(w) => ReturnKeeps(m, s, w, t);
    case Capture(snap) => CaptureKeeps(m, s, snap, t);
    case Publish(from, to) => PublishKeeps(m, s, from, to, t);
    case Swap(k) => SwapKeeps(m, s, k, t);
    case Fail =>
  }
}
