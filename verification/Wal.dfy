/** The write-ahead log as a protocol (dlq/wal_write.go, dlq/wal_snapshot.go): one
    mutex for writers, a syncer that fsyncs without it, rotation, and compaction that
    swaps in a snapshot. Each action is one atomic step, so every interleaving is a
    sequence of actions, and a crash may come after any of them. */
module Wal {
  import opened Records
  import opened Chunks
  import opened Frames
  import opened Recovery

  /** A log format, how much of a queue survives a restart (view), and which queues
      recovery can produce (good). */
  datatype Model<!Q, !E> = Model(f: Format<Q, E>, view: Q -> Q, good: Q -> bool)

  ghost predicate Lawful<Q(!new), E(!new)>(m: Model<Q, E>) {
    && Decodes(m.f)
    && (forall a: Q, b: Q, e: E :: SameAfter(m, a, b, e))
    && m.good(m.f.init)
    && (forall q: Q, e: E :: GoodAfter(m, q, e))
    && (forall q: Q :: m.good(q) ==> m.f.finish(q) == m.view(q))
    && (forall q: Q :: m.view(m.view(q)) == m.view(q))
  }

  /** Replaying what an entry reads back as does what the entry did. */
  ghost predicate SameAfter<Q, E>(m: Model<Q, E>, a: Q, b: Q, e: E) {
    m.view(a) == m.view(b) ==> m.view(m.f.step(a, e)) == m.view(m.f.step(b, m.f.norm(e)))
  }

  ghost predicate GoodAfter<Q, E>(m: Model<Q, E>, q: Q, e: E) {
    m.good(q) ==> m.good(m.f.step(q, m.f.norm(e)))
  }

  /** A segment file: whole frames for es, then possibly the first bytes of one more
      frame that did not fit the disk. The first synced bytes are on stable storage. */
  datatype Seg<E> = Seg(start: nat, es: seq<E>, half: Option<(E, nat)>, synced: nat)

  function FileBytes<Q, E>(f: Format<Q, E>, s: Seg<E>): Bytes {
    SegmentBytes(f, s.start, s.es) + HalfFrame(f, s)
  }

  function HalfFrame<Q, E>(f: Format<Q, E>, s: Seg<E>): Bytes {
    if s.half.None? then []
    else
      var (e, k) := s.half.value;
      var frame := f.seal(FrameOf(f, s.start + |s.es|, e));
      if k <= |frame| then frame[..k] else frame
  }

  /** Where the first k entries of a segment end. */
  function EntryEnd<Q, E>(f: Format<Q, E>, s: Seg<E>, k: nat): nat
    requires k <= |s.es|
  {
    |SegmentBytes(f, s.start, s.es[..k])|
  }

  datatype Visibility = Hidden | Renamed | Durable
  datatype Newer = Newer(snap: File, vis: Visibility)
  datatype SyncJob = SyncJob(target: nat, upto: nat)
  /** A caller waiting for position seq of the commit sequence on behalf of entry lsn. */
  datatype Wait = Wait(seqNo: nat, lsn: nat)

  datatype Files<E> = Files(
    closed: seq<Seg<E>>,   // sealed segments, oldest first
    active: Seg<E>,
    creating: Option<nat>, // a segment being created: header bytes written so far
    snap: Option<File>,    // the snapshot in use
    newer: Option<Newer>,  // the snapshot a compaction is writing
    staleSegs: seq<Seg<E>>, // removed, but a crash may bring them back
    staleSnaps: set<File>,
    adrift: nat,           // live segments, the last ones, whose directory entry is not synced
    snapAdrift: bool)      // nor is that of the snapshot in use

  datatype Commit = Commit(
    base: nat,             // entries in the log when this process opened it
    firm: nat,             // of those, how many were on stable storage then
    rotated: bool,         // a rotation has fsynced all of those since
    written: nat,          // entries counted since
    durable: nat,          // of those, how many are fsynced
    counted: bool,         // no frame is written but not yet counted
    sync: Option<SyncJob>, // an fsync in flight
    waits: set<Wait>,
    acked: set<nat>)       // LSNs some call has vouched for by returning nil

  datatype Wal<Q, E> = Wal(
    d: Files<E>,
    c: Commit,
    failed: bool,
    log: seq<E>,           // every entry; entry i has LSN i + 1
    hist: seq<Q>)          // the live queue at every length of the log

  function SnapNo<E>(d: Files<E>): nat { if d.snap.Some? then d.snap.value.start else 0 }

  function Live<E>(d: Files<E>): seq<Seg<E>> { d.closed + [d.active] }

  /** No writer is between taking the lock and releasing it. */
  predicate MutexFree<Q, E>(s: Wal<Q, E>) {
    s.c.counted && s.d.creating.None? && s.d.active.half.None?
  }

  function Min(a: nat, b: nat): nat { if a < b then a else b }
  function Max(a: nat, b: nat): nat { if a < b then b else a }

  // ---- actions ----

  /** logLocked wrote the frame, and the change is applied; q is the queue after it. */
  ghost predicate DoLog<Q, E>(m: Model<Q, E>, s: Wal<Q, E>, e: E, q: Q, t: Wal<Q, E>) {
    && MutexFree(s) && !s.failed && Fits(m.f, e) && |s.log| + 2 < TWO_64 && |s.hist| == |s.log| + 1
    && m.view(q) == m.view(m.f.step(s.hist[|s.log|], e))
    && t == s.(d := s.d.(active := s.d.active.(es := s.d.active.es + [e])), c := s.c.(counted := false),
               log := s.log + [e], hist := s.hist + [q])
  }

  /** written++ under the sync lock; the caller now waits for that position. */
  ghost predicate DoCount<Q, E>(s: Wal<Q, E>, t: Wal<Q, E>) {
    && !s.c.counted
    && t == s.(c := s.c.(written := s.c.written + 1, counted := true,
                         waits := s.c.waits + {Wait(s.c.written + 1, |s.log|)}))
  }

  /** Only part of a frame reached the file. */
  ghost predicate DoShortWrite<Q, E>(m: Model<Q, E>, s: Wal<Q, E>, e: E, k: nat, t: Wal<Q, E>) {
    && MutexFree(s) && !s.failed && HalfOk(m.f, |s.log|, e, k)
    && t == s.(d := s.d.(active := s.d.active.(half := Some((e, k)))))
  }

  ghost predicate HalfOk<Q, E>(f: Format<Q, E>, n: nat, e: E, k: nat) {
    Fits(f, e) && n + 2 < TWO_64 && k < |f.seal(FrameOf(f, n + 1, e))|
  }

  /** ... and is cut off again, or the store fails. */
  ghost predicate DoRollBack<Q, E>(m: Model<Q, E>, s: Wal<Q, E>, ok: bool, t: Wal<Q, E>) {
    var x := s.d.active;
    && x.half.Some? && !s.failed
    && t == if !ok then s.(failed := true)
            else
              var end := |SegmentBytes(m.f, x.start, x.es)|;
              s.(d := s.d.(active := x.(half := None, synced := Min(x.synced, end))), c := Capped(s.c, end))
  }

  /** An fsync in flight covers nothing past end any more. */
  function Capped(c: Commit, end: nat): Commit {
    if c.sync.None? then c else c.(sync := Some(c.sync.value.(upto := Min(c.sync.value.upto, end))))
  }

  /** The syncer starts an fsync when something is written that is not durable. */
  ghost predicate DoSyncBegin<Q, E>(m: Model<Q, E>, s: Wal<Q, E>, t: Wal<Q, E>) {
    && s.c.sync.None? && s.d.creating.None? && !s.failed && s.c.written != s.c.durable
    && t == s.(c := s.c.(sync := Some(SyncJob(s.c.written, |FileBytes(m.f, s.d.active)|))))
  }

  ghost predicate DoSyncEnd<Q, E>(m: Model<Q, E>, s: Wal<Q, E>, ok: bool, t: Wal<Q, E>) {
    var x := s.d.active;
    && s.c.sync.Some?
    && t == if !ok then s.(c := s.c.(sync := None), failed := true)
            else s.(c := s.c.(sync := None, durable := Max(s.c.durable, s.c.sync.value.target)),
                    d := s.d.(active := x.(synced := Max(x.synced, Min(s.c.sync.value.upto, |FileBytes(m.f, x)|)))))
  }

  /** rotateLocked waits for the syncer, then fsyncs the segment it is about to seal. */
  ghost predicate DoRotateSync<Q, E>(m: Model<Q, E>, s: Wal<Q, E>, ok: bool, t: Wal<Q, E>) {
    && MutexFree(s) && s.c.sync.None? && !s.failed && s.d.active.es != []
    && t == if !ok then s.(failed := true)
            else s.(d := s.d.(active := s.d.active.(synced := |FileBytes(m.f, s.d.active)|), creating := Some(0)),
                    c := s.c.(durable := s.c.written, rotated := true))
  }

  ghost predicate DoCreateHeader<Q, E>(s: Wal<Q, E>, k: nat, t: Wal<Q, E>) {
    && s.d.creating.Some? && s.d.creating.value <= k <= HEADER_SIZE
    && t == s.(d := s.d.(creating := Some(k)))
  }

  /** The directory is fsynced: every file now in it stays there. */
  function DirSynced<E>(d: Files<E>): Files<E> { d.(adrift := 0, snapAdrift := false) }

  /** The new segment's header and directory entry are durable: it becomes the active one. */
  ghost predicate DoCreateDone<Q, E>(s: Wal<Q, E>, t: Wal<Q, E>) {
    && s.d.creating == Some(HEADER_SIZE)
    && t == s.(d := DirSynced(s.d.(creating := None, closed := s.d.closed + [s.d.active],
                                   active := Seg(|s.log| + 1, [], None, HEADER_SIZE))))
  }

  ghost predicate DoCreateFails<Q, E>(s: Wal<Q, E>, cleaned: bool, t: Wal<Q, E>) {
    && s.d.creating.Some?
    && t == if cleaned then s.(d := s.d.(creating := None)) else s.(failed := true)
  }

  /** A duplicate Append: it vouches for an entry already in the log by waiting for
      everything written so far. */
  ghost predicate DoVouch<Q, E>(s: Wal<Q, E>, lsn: nat, t: Wal<Q, E>) {
    && MutexFree(s) && !s.failed && 1 <= lsn <= |s.log|
    && t == s.(c := s.c.(waits := s.c.waits + {Wait(s.c.written, lsn)}))
  }

  /** waitDurable returns nil. */
  ghost predicate DoReturn<Q, E>(s: Wal<Q, E>, w: Wait, t: Wal<Q, E>) {
    && w in s.c.waits && w.seqNo <= s.c.durable
    && t == s.(c := s.c.(acked := s.c.acked + {w.lsn}))
  }

  /** The file loads to the queue the store had at the LSN in its name. */
  ghost predicate SnapGood<Q, E>(m: Model<Q, E>, hist: seq<Q>, snap: File) {
    && 1 <= snap.start < |hist|
    && LoadSnapshot(m.f, snap).Some?
    && m.good(LoadSnapshot(m.f, snap).value)
    && m.view(LoadSnapshot(m.f, snap).value) == m.view(hist[snap.start])
  }

  /** A compaction fixes what its snapshot will hold: the queue at the current LSN. */
  ghost predicate DoCapture<Q, E>(m: Model<Q, E>, s: Wal<Q, E>, snap: File, t: Wal<Q, E>) {
    && MutexFree(s) && !s.failed && s.d.newer.None? && s.d.active.es == []
    && SnapNo(s.d) < |s.log| && snap.start == |s.log| && SnapGood(m, s.hist, snap)
    && t == s.(d := s.d.(newer := Some(Newer(snap, Hidden))))
  }

  /** The temporary file is renamed, made durable, or given up. */
  ghost predicate DoPublish<Q, E>(s: Wal<Q, E>, from: Visibility, to: Option<Visibility>, t: Wal<Q, E>) {
    && s.d.newer.Some? && s.d.newer.value.vis == from
    && (if from == Hidden then to in {None, Some(Renamed)} else from == Renamed && to == Some(Durable))
    && var d := s.d.(newer := if to.None? then None else Some(s.d.newer.value.(vis := to.value)));
    && t == s.(d := if to == Some(Durable) then DirSynced(d) else d)
  }

  ghost predicate DoFail<Q, E>(s: Wal<Q, E>, t: Wal<Q, E>) { t == s.(failed := true) }

  /** The durable snapshot replaces everything before it. */
  ghost predicate DoSwap<Q, E>(s: Wal<Q, E>, k: nat, t: Wal<Q, E>) {
    && MutexFree(s) && !s.failed && s.d.newer.Some? && s.d.newer.value.vis == Durable
    && k <= |s.d.closed| && Live(s.d)[k].start == s.d.newer.value.snap.start + 1
    && t == s.(d := s.d.(
         closed := s.d.closed[k..], snap := Some(s.d.newer.value.snap), newer := None,
         staleSegs := s.d.staleSegs + s.d.closed[..k],
         staleSnaps := s.d.staleSnaps + if s.d.snap.Some? then {s.d.snap.value} else {}))
  }

  datatype Act<Q, E> =
    | LogEntry(e: E, q: Q)
    | Count
    | ShortWrite(e: E, k: nat)
    | RollBack(ok: bool)
    | SyncBegin
    | SyncEnd(ok: bool)
    | RotateSync(ok: bool)
    | CreateHeader(k: nat)
    | CreateDone
    | CreateFails(cleaned: bool)
    | Vouch(lsn: nat)
    | Return(w: Wait)
    | Capture(snap: File)
    | Publish(from: Visibility, to: Option<Visibility>)
    | Swap(k: nat)
    | Fail                       // a sync timeout, or a directory that cannot be synced

  ghost predicate Step<Q, E>(m: Model<Q, E>, s: Wal<Q, E>, a: Act<Q, E>, t: Wal<Q, E>) {
    match a
    case LogEntry(e, q) => DoLog(m, s, e, q, t)
    case Count => DoCount(s, t)
    case ShortWrite(e, k) => DoShortWrite(m, s, e, k, t)
    case RollBack(ok) => DoRollBack(m, s, ok, t)
    case SyncBegin => DoSyncBegin(m, s, t)
    case SyncEnd(ok) => DoSyncEnd(m, s, ok, t)
    case RotateSync(ok) => DoRotateSync(m, s, ok, t)
    case CreateHeader(k) => DoCreateHeader(s, k, t)
    case CreateDone => DoCreateDone(s, t)
    case CreateFails(cleaned) => DoCreateFails(s, cleaned, t)
    case Vouch(lsn) => DoVouch(s, lsn, t)
    case Return(w) => DoReturn(s, w, t)
    case Capture(snap) => DoCapture(m, s, snap, t)
    case Publish(from, to) => DoPublish(s, from, to, t)
    case Swap(k) => DoSwap(s, k, t)
    case Fail => DoFail(s, t)
  }

  // ---- what every step keeps ----

  /** A segment holds exactly the log entries its name says. */
  ghost predicate Holds<E>(log: seq<E>, x: Seg<E>) {
    && 1 <= x.start && x.start - 1 + |x.es| <= |log|
    && x.es == log[x.start - 1..x.start - 1 + |x.es|]
  }

  /** The segments cover the log to its end without gaps; only the last may be empty. */
  ghost predicate Chained<E>(segs: seq<Seg<E>>, log: seq<E>) {
    && segs != []
    && (forall i, j :: 0 <= i && j == i + 1 < |segs| ==> Follows(segs[i], segs[j]))
    && (forall x <- segs :: Holds(log, x))
    && segs[|segs| - 1].start + |segs[|segs| - 1].es| == |log| + 1
  }

  predicate Follows<E>(x: Seg<E>, y: Seg<E>) { x.es != [] && x.start + |x.es| == y.start }

  /** Whole entries only, and all of them on stable storage. */
  ghost predicate Settled<Q, E>(f: Format<Q, E>, x: Seg<E>) { x.half.None? && x.synced == |FileBytes(f, x)| }

  /** No sealed segment holds an unsynced byte, and a segment is only created when the
      active one is whole and synced. */
  ghost predicate Synced<Q, E>(f: Format<Q, E>, d: Files<E>, n: nat) {
    && (forall x <- d.closed :: Settled(f, x))
    && HEADER_SIZE <= d.active.synced <= |FileBytes(f, d.active)|
    && (d.active.half.Some? ==> HalfOk(f, n, d.active.half.value.0, d.active.half.value.1))
    && (d.creating.Some? ==> d.active.half.None? && d.active.es != [] && d.active.synced == |FileBytes(f, d.active)| &&
                             d.creating.value <= HEADER_SIZE)
  }

  /** Entry lsn, if it is in this segment, and every entry before it end by byte upto. */
  ghost predicate EndsBy<Q, E>(f: Format<Q, E>, x: Seg<E>, lsn: nat, upto: nat) {
    lsn < x.start || (lsn - x.start + 1 <= |x.es| && EntryEnd(f, x, lsn - x.start + 1) <= upto)
  }

  /** What the store has promised to keep, whatever happens. */
  function Promised(c: Commit): nat {
    if c.durable > 0 || c.rotated then c.base + c.durable else c.firm
  }

  /** Group commit: what is counted durable lies in fsynced bytes of its own segment. */
  ghost predicate Counters<Q, E>(f: Format<Q, E>, d: Files<E>, c: Commit, n: nat) {
    && c.base + c.written + (if c.counted then 0 else 1) == n
    && c.durable <= c.written && c.firm <= c.base
    && EndsBy(f, d.active, Promised(c), d.active.synced)
    && (c.sync.Some? ==> 0 < c.sync.value.target <= c.written && d.creating.None?)
    && (c.sync.Some? ==> EndsBy(f, d.active, c.base + c.sync.value.target, c.sync.value.upto))
    && (d.creating.Some? ==> c.counted && c.rotated)
    && (d.active.half.Some? ==> c.counted)
    && (forall w <- c.waits :: w.seqNo <= c.written && w.lsn <= c.base + w.seqNo)
    && (forall l <- c.acked :: l <= c.base + c.durable)
  }

  /** Until this process fsyncs anything, only the firm entries are on stable storage. */
  ghost predicate Loose<Q, E>(f: Format<Q, E>, d: Files<E>, c: Commit, n: nat) {
    !c.rotated && c.durable == 0 && c.firm < n ==> !EndsBy(f, d.active, c.firm + 1, d.active.synced)
  }

  /** Every logged entry can be read back, and the log is how the live queue came to be. */
  ghost predicate History<Q, E>(m: Model<Q, E>, log: seq<E>, hist: seq<Q>) {
    && |hist| == |log| + 1 && |log| + 1 < TWO_64
    && m.view(hist[0]) == m.view(m.f.init)
    && (forall i :: 0 <= i < |log| ==> m.view(hist[i + 1]) == m.view(m.f.step(hist[i], log[i])))
    && (forall e <- log :: Fits(m.f, e))
  }

  ghost predicate Boundary<E>(d: Files<E>, lsn: nat) {
    exists k :: 0 <= k <= |d.closed| && Live(d)[k].start == lsn + 1
  }

  ghost predicate Snapshots<Q, E>(m: Model<Q, E>, d: Files<E>, hist: seq<Q>) {
    && (d.snap.Some? ==> SnapGood(m, hist, d.snap.value))
    && (d.newer.Some? ==> SnapGood(m, hist, d.newer.value.snap))
    && (d.newer.Some? ==> SnapNo(d) < d.newer.value.snap.start && Boundary(d, d.newer.value.snap.start))
    && (forall x <- d.staleSnaps :: x.start < SnapNo(d) && SnapGood(m, hist, x))
  }

  /** A removed segment still holds what the log holds; none reaches into the live ones
      or into the next. */
  ghost predicate Removed<Q, E>(f: Format<Q, E>, d: Files<E>, log: seq<E>) {
    && (forall x <- d.staleSegs :: Holds(log, x) && Settled(f, x) && x.es != [] && x.start + |x.es| <= Live(d)[0].start)
    && (forall x <- d.staleSegs, y <- d.staleSegs :: x.start < y.start ==> x.start + |x.es| <= y.start)
  }

  /** The live segments go on where the snapshot ends, what it covers is not only in
      unsynced bytes, and no entry is missing from a directory that was synced. */
  ghost predicate Placed<Q, E>(f: Format<Q, E>, d: Files<E>, base: nat) {
    && Live(d)[0].start <= SnapNo(d) + 1 && EndsBy(f, d.active, SnapNo(d), d.active.synced)
    && d.adrift <= |Live(d)| && (d.adrift > 0 ==> SnapNo(d) < d.active.start <= base + 1)
    && (d.snapAdrift ==> d.snap.Some?)
    && (d.newer.Some? && d.newer.value.vis == Durable ==> d.adrift == 0 && !d.snapAdrift)
  }

  ghost predicate Inv<Q, E>(m: Model<Q, E>, s: Wal<Q, E>) {
    && Chained(Live(s.d), s.log) && Synced(m.f, s.d, |s.log|) && Counters(m.f, s.d, s.c, |s.log|)
    && Loose(m.f, s.d, s.c, |s.log|) && History(m, s.log, s.hist) && Snapshots(m, s.d, s.hist)
    && Removed(m.f, s.d, s.log) && Placed(m.f, s.d, s.c.base)
  }

  // ---- byte positions ----

  lemma SealedTake<Q, E>(f: Format<Q, E>, start: nat, es: seq<E>, k: nat)
    requires k <= |es|
    ensures Sealed(f, start, es[..k]) == Sealed(f, start, es)[..k]
  {
  }

  lemma EndMonotone<Q, E>(f: Format<Q, E>, x: Seg<E>, i: nat, j: nat)
    requires i <= j <= |x.es|
    ensures EntryEnd(f, x, i) <= EntryEnd(f, x, j) <= |FileBytes(f, x)|
  {
    var bs := Sealed(f, x.start, x.es);
    SealedTake(f, x.start, x.es, i);
    SealedTake(f, x.start, x.es, j);
    JoinMonotone(bs, i, j);
    JoinMonotone(bs, j, |x.es|);
    assert bs[..|x.es|] == bs;
  }

  lemma AppendBytes<Q, E>(f: Format<Q, E>, start: nat, es: seq<E>, e: E)
    ensures SegmentBytes(f, start, es + [e]) == SegmentBytes(f, start, es) + f.seal(FrameOf(f, start + |es|, e))
  {
    var n, bs := |es|, Sealed(f, start, es + [e]);
    assert (es + [e])[..n] == es;
    SealedTake(f, start, es + [e], n);
    JoinSnoc(bs, n);
    assert bs[..n + 1] == bs;
  }

  /** Growing a segment does not move the entries already in it. */
  lemma EndsByGrown<Q, E>(f: Format<Q, E>, x: Seg<E>, y: Seg<E>, l: nat, upto: nat, upto': nat)
    requires EndsBy(f, x, l, upto) && x.start == y.start && x.es <= y.es
    requires upto <= upto' || |SegmentBytes(f, x.start, x.es)| <= upto'
    ensures EndsBy(f, y, l, upto')
  {
    if x.start <= l {
      var k := l - x.start + 1;
      assert x.es[..k] == y.es[..k];
      EndMonotone(f, x.(half := None), k, |x.es|);
      assert x.es[..|x.es|] == x.es;
    }
  }
}
