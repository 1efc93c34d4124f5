/** What returning nil is worth (waitDurable and Append in dlq/wal_write.go). Two things can
    make a nil worthless. A duplicate Append with nothing written since opening waits for
    position 0, that is, not at all, so its entry may not be fsynced. And a process may have
    opened on a segment whose creation was cut short between its header and the directory
    sync: until some directory sync, a power failure can take that file with all its
    fsynced entries. */
module WalAck {
  import opened Records
  import opened Frames
  import opened Recovery
  import opened Wal
  import opened WalSafety
  import opened WalCrash
  import opened WalReopen

  /** Returning nil after waiting for a position past 0 is a promise: the entry, and all
      before it, begin the log at every later moment until a crash takes the segment being
      written. */
  lemma NilKept<Q(!new), E(!new)>(
    m: Model<Q, E>, ss: seq<Wal<Q, E>>, es: seq<Event<Q, E>>, i: nat, j: nat, w: Wait)
    requires Lawful(m) && Life(m, ss, es) && i < j < |ss| && es[i] == Did(Return(w)) && w.seqNo > 0
    requires NoneTaken(ss, es, i, j)
    ensures w.lsn <= |ss[i].log| && w.lsn <= |ss[j].log| && ss[j].log[..w.lsn] == ss[i].log[..w.lsn]
  {
    hide Lawful, Chained, Synced, History, Snapshots, Removed, Placed, Spares;
    assert Next(m, ss[i], es[i], ss[i + 1]);
    LifeKeeps(m, ss, es, i);
    PromisesKept(m, ss, es, i + 1, j);
    var p := Promised(ss[i + 1].c);
    assert ss[i].log[..w.lsn] == ss[i + 1].log[..p][..w.lsn] == ss[j].log[..p][..w.lsn];
  }

  /** So is any nil once a rotation has fsynced what the process found, and any nil about an
      entry that was on stable storage already. */
  lemma AckedKept<Q(!new), E(!new)>(
    m: Model<Q, E>, ss: seq<Wal<Q, E>>, es: seq<Event<Q, E>>, i: nat, j: nat, l: nat)
    requires Lawful(m) && Life(m, ss, es) && i <= j < |ss| && l in ss[i].c.acked && NoneTaken(ss, es, i, j)
    requires ss[i].c.durable > 0 || ss[i].c.rotated || l <= ss[i].c.firm
    ensures l <= |ss[i].log| && l <= |ss[j].log| && ss[j].log[..l] == ss[i].log[..l]
  {
    hide Lawful, Chained, Synced, History, Snapshots, Removed, Placed, Spares;
    LifeKeeps(m, ss, es, i);
    PromisesKept(m, ss, es, i, j);
    var p := Promised(ss[i].c);
    assert ss[i].log[..p][..l] == ss[j].log[..p][..l];
  }

  // ---- what a crash can lose ----

  /** The crash w loses entry l: nothing that is left reaches as far. */
  ghost predicate Loses<Q, E>(f: Format<Q, E>, s: Wal<Q, E>, w: Wreck<E>, l: nat) {
    WreckOk(f, s, w) && Reach(f, w) < l
  }

  ghost predicate MayLose<Q, E(!new)>(f: Format<Q, E>, s: Wal<Q, E>, l: nat) { exists w: Wreck<E> :: Loses(f, s, w, l) }

  /** How far the files reach whose directory entries are synced. */
  function Anchor<E>(d: Files<E>): nat {
    Max(if d.snapAdrift then 0 else SnapNo(d),
        if 0 < d.adrift < |Live(d)| then Max(1, Live(d)[|Live(d)| - d.adrift].start) - 1 else 0)
  }

  /** The snapshots every crash leaves. */
  function SyncedSnaps<E>(d: Files<E>): seq<File> {
    (if d.snap.Some? && !d.snapAdrift then [d.snap.value] else []) +
    if d.newer.Some? && d.newer.value.vis == Durable then [d.newer.value.snap] else []
  }

  lemma SyncedSnapsOk<Q, E>(m: Model<Q, E>, s: Wal<Q, E>)
    requires Inv(m, s)
    ensures SnapsOk(s.d, SyncedSnaps(s.d))
  {
    hide Chained, Synced, Counters, Loose, History, Removed, Placed, SnapGood;
  }

  /** The crash that keeps every file and no more bytes than are fsynced. */
  ghost function Unwritten<Q, E>(s: Wal<Q, E>): Wreck<E> { Wreck(Live(s.d), s.d.active.synced, [], SyncedSnaps(s.d)) }

  lemma UnwrittenOk<Q, E>(m: Model<Q, E>, s: Wal<Q, E>)
    requires Inv(m, s)
    ensures WreckOk(m.f, s, Unwritten(s)) && s.d.active in Unwritten(s).segs
  {
    hide Chained, Counters, Loose, History, Removed, Placed, Snapshots, SnapsOk, FileBytes;
    var ls := Live(s.d);
    SyncedSnapsOk(m, s);
    LiveAscends(m, s);
    assert ls[|s.d.closed|] == s.d.active == Last(ls);
  }

  /** The crash that keeps only files whose directory entries are synced. */
  ghost function Unlinked<Q, E>(f: Format<Q, E>, s: Wal<Q, E>): Wreck<E>
    requires s.d.adrift <= |Live(s.d)|
  {
    var segs := Live(s.d)[..|Live(s.d)| - s.d.adrift];
    Wreck(segs, if segs == [] then 0 else |FileBytes(f, Last(segs))|, [], SyncedSnaps(s.d))
  }

  lemma UnlinkedOk<Q(!new), E(!new)>(m: Model<Q, E>, s: Wal<Q, E>)
    requires Decodes(m.f) && Inv(m, s) && s.d.adrift > 0
    ensures WreckOk(m.f, s, Unlinked(m.f, s)) && Reach(m.f, Unlinked(m.f, s)) == Anchor(s.d)
  {
    hide Decodes, Chained, Synced, Counters, Loose, History, Removed, Snapshots, SnapsOk, EndsBy, FileBytes, SegsOk;
    var w := Unlinked(m.f, s);
    SyncedSnapsOk(m, s);
    UnlinkedSegs(m, s);
    if w.segs != [] {
      LinkedEnd(m, s, |w.segs| - 1);
    }
  }

  lemma UnlinkedSegs<Q(!new), E(!new)>(m: Model<Q, E>, s: Wal<Q, E>)
    requires Decodes(m.f) && Inv(m, s) && s.d.adrift > 0
    ensures s.d.adrift <= |Live(s.d)|
    ensures var w := Unlinked(m.f, s); SegsOk(m.f, s.d, w.segs, w.cut)
  {
    hide Decodes, Chained, Synced, Counters, Loose, History, Removed, Snapshots, EndsBy, FileBytes, Survived, SyncedSnaps;
    var w := Unlinked(m.f, s);
    LiveAscends(m, s);
    if w.segs != [] {
      LinkedEnd(m, s, |w.segs| - 1);
    }
  }

  lemma LiveAscends<Q, E>(m: Model<Q, E>, s: Wal<Q, E>)
    requires Inv(m, s)
    ensures forall i, j :: 0 <= i < j < |Live(s.d)| ==> Live(s.d)[i].start < Live(s.d)[j].start
  {
    hide Synced, Counters, Loose, History, Removed, Snapshots, Placed, Holds;
    var ls := Live(s.d);
    forall i, j | 0 <= i < j < |ls| ensures ls[i].start < ls[j].start {
      StartsIncrease(ls, s.log, i, j);
    }
  }

  /** A sealed segment, all of it there, ends where the next begins. */
  lemma LinkedEnd<Q(!new), E(!new)>(m: Model<Q, E>, s: Wal<Q, E>, k: nat)
    requires Decodes(m.f) && Inv(m, s) && k < |s.d.closed|
    ensures var x := Live(s.d)[k];
            && x.synced == |FileBytes(m.f, x)| && 1 <= x.start < Live(s.d)[k + 1].start
            && Survived(m.f, x, |FileBytes(m.f, x)|) == Live(s.d)[k + 1].start - 1
  {
    hide Decodes, Counters, Loose, History, Removed, Snapshots, Placed, WholeEntries;
    var ls := Live(s.d);
    assert ls[k] == s.d.closed[k] && Follows(ls[k], ls[k + 1]) && Holds(s.log, ls[k]);
    assert Settled(m.f, s.d.closed[k]);
    WholeFileSurvives(m.f, ls[k]);
  }

  /** A crash that takes the active segment still leaves what is anchored. */
  lemma AnchorStays<Q(!new), E(!new)>(m: Model<Q, E>, s: Wal<Q, E>, w: Wreck<E>)
    requires Decodes(m.f) && Inv(m, s) && WreckOk(m.f, s, w) && s.d.active !in w.segs
    ensures s.d.adrift > 0 && Anchor(s.d) <= Reach(m.f, w)
  {
    hide Decodes, Counters, Loose, History, Removed, Snapshots, EndsBy, WholeEntries, TailOk, Synced;
    LoadedEnds(m, s, w);
    if !s.d.snapAdrift {
      SnapKept(s.d, w);
    }
    var ls := Live(s.d);
    if s.d.adrift < |ls| {
      var k := |ls| - s.d.adrift - 1;
      var x, y := ls[k], Last(w.segs);
      assert x in w.segs && y in w.segs && x in s.d.closed && Follows(ls[k], ls[k + 1]);
      MayBeHeld(m, s, x);
      MayBeHeld(m, s, y);
      if x == y {
        WholeFileSurvives(m.f, x);
      } else {
        LastIsLatest(w.segs, x);
        Apart(m, s, x, y);
      }
    }
  }

  lemma LastIsLatest<E>(segs: seq<Seg<E>>, x: Seg<E>)
    requires x in segs && x != Last(segs) && forall i, j :: 0 <= i < j < |segs| ==> segs[i].start < segs[j].start
    ensures x.start < Last(segs).start
  {
    var i :| 0 <= i < |segs| && segs[i] == x;
  }

  /** This process has fsynced nothing, and the entry was not on stable storage when it
      opened the log. */
  predicate Unfsynced(c: Commit, l: nat) { c.durable == 0 && !c.rotated && c.firm < l }

  /** The entry lies past every file whose directory entry is synced. */
  predicate Adrift<E>(d: Files<E>, l: nat) { d.adrift > 0 && Anchor(d) < l }

  /** Exactly when a crash can lose what a call may vouch for: its bytes are not fsynced, or
      its file is not. */
  lemma LostIff<Q(!new), E(!new)>(m: Model<Q, E>, s: Wal<Q, E>, l: nat)
    requires Decodes(m.f) && Inv(m, s) && l <= s.c.base + s.c.durable
    ensures MayLose(m.f, s, l) <==> Unfsynced(s.c, l) || Adrift(s.d, l)
  {
    hide Decodes, Reach, WreckOk, Chained, Synced, Snapshots, History, EndsBy, Removed, Placed;
    if Unfsynced(s.c, l) {
      UnfsyncedLost(m, s, l);
      assert Loses(m.f, s, Unwritten(s), l);
    }
    if Adrift(s.d, l) {
      AdriftInLive(m, s);
      UnlinkedOk(m, s);
      assert Loses(m.f, s, Unlinked(m.f, s), l);
    }
    forall w: Wreck<E> | Loses(m.f, s, w, l) ensures Unfsynced(s.c, l) || Adrift(s.d, l) {
      if s.d.active in w.segs {
        PromiseKept(m, s, w);
      } else {
        AnchorStays(m, s, w);
      }
    }
  }

  lemma AdriftInLive<Q, E>(m: Model<Q, E>, s: Wal<Q, E>)
    requires Inv(m, s)
    ensures s.d.adrift <= |Live(s.d)| && (s.d.adrift > 0 ==> SnapNo(s.d) < s.d.active.start <= s.c.base + 1)
  {
  }

  lemma UnfsyncedLost<Q(!new), E(!new)>(m: Model<Q, E>, s: Wal<Q, E>, l: nat)
    requires Decodes(m.f) && Inv(m, s) && l <= s.c.base + s.c.durable && Unfsynced(s.c, l)
    ensures Loses(m.f, s, Unwritten(s), l)
  {
    hide Decodes, WreckOk, Chained, Synced, Snapshots, History, EndsBy, Removed, Placed, Survived;
    var w, a := Unwritten(s), s.d.active;
    UnwrittenOk(m, s);
    ActiveEnd(m, s);
    MayBeHeld(m, s, a);
    PromiseKept(m, s, w);
    NotEndsLater(m.f, a, s.c.firm + 1, l, a.synced);
    SurvivesIffEnds(m.f, a, a.synced, l);
  }

  lemma NotEndsLater<Q, E>(f: Format<Q, E>, x: Seg<E>, k: nat, l: nat, upto: nat)
    requires !EndsBy(f, x, k, upto) && k <= l < x.start + |x.es|
    ensures !EndsBy(f, x, l, upto)
  {
    if x.start <= k {
      EndMonotone(f, x, k - x.start + 1, l - x.start + 1);
    }
  }

  /** And then the entry is gone: the log is refused, or opens without it. */
  lemma LostIsGone<Q(!new), E(!new)>(m: Model<Q, E>, s: Wal<Q, E>, w: Wreck<E>, l: nat)
    requires Lawful(m) && Inv(m, s) && Loses(m.f, s, w, l)
    ensures var r := Recover(m.f, DiskAfter(m.f, w)); r == None || r.value.1 <= l
  {
    hide Lawful, Inv, Recover, DiskAfter, Reach, WreckOk;
    CrashSafe(m, s, w);
  }

  /** In terms of bytes and files: an entry outlives every crash exactly when it lies in
      fsynced bytes, and in files whose directory entries are. */
  lemma SurvivesIffSynced<Q(!new), E(!new)>(m: Model<Q, E>, s: Wal<Q, E>, l: nat)
    requires Decodes(m.f) && Inv(m, s) && l <= |s.log|
    ensures (forall w: Wreck<E> :: WreckOk(m.f, s, w) ==> l <= Reach(m.f, w))
            <==> EndsBy(m.f, s.d.active, l, s.d.active.synced) && !Adrift(s.d, l)
  {
    hide Decodes, Inv, Survived, Reach, WreckOk, EndsBy, Anchor;
    var a := s.d.active;
    ActiveEnd(m, s);
    MayBeHeld(m, s, a);
    forall w: Wreck<E> | WreckOk(m.f, s, w) && EndsBy(m.f, a, l, a.synced) && !Adrift(s.d, l) ensures l <= Reach(m.f, w) {
      if a in w.segs {
        SyncedStays(m, s, w, l);
      } else {
        AnchorStays(m, s, w);
      }
    }
    UnwrittenOk(m, s);
    PromiseKept(m, s, Unwritten(s));
    SurvivesIffEnds(m.f, a, a.synced, l);
    if Adrift(s.d, l) {
      AdriftInLive(m, s);
      UnlinkedOk(m, s);
    }
  }

  lemma SyncedStays<Q(!new), E(!new)>(m: Model<Q, E>, s: Wal<Q, E>, w: Wreck<E>, l: nat)
    requires Decodes(m.f) && Inv(m, s) && WreckOk(m.f, s, w) && s.d.active in w.segs
    requires EndsBy(m.f, s.d.active, l, s.d.active.synced)
    ensures l <= Reach(m.f, w)
  {
    hide Decodes, Inv, Survived, Reach, EndsBy, SnapsOk, TailOk, FileBytes;
    PromiseKept(m, s, w);
    StaysLast(m, s, w);
    MayBeHeld(m, s, s.d.active);
    EndsSurvives(m.f, s.d.active, w.cut, l);
  }

  // ---- a snapshot that was taken ----

  predicate Has<E>(x: Seg<E>, l: nat) { x.start <= l < x.start + |x.es| }

  /** Entry l lies between the loaded snapshot and the last entry left, in no file. */
  ghost predicate Missing<Q, E>(f: Format<Q, E>, w: Wreck<E>, l: nat) {
    Loaded(w) < l <= Reach(f, w) && forall x <- w.segs :: !Has(x, l)
  }

  lemma {:induction false} JoinedHas<E>(segs: seq<Seg<E>>, next: nat, l: nat) returns (x: Seg<E>)
    requires segs != [] && Joined(segs, next) && segs[0].start <= l < Last(segs).start + |Last(segs).es|
    ensures x in segs && Has(x, l)
    decreases |segs|
  {
    if Has(segs[0], l) {
      x := segs[0];
    } else {
      var rest := segs[1..];
      assert Follows(segs[0], segs[1]) && Last(rest) == Last(segs);
      forall i, j | 0 <= i && j == i + 1 < |rest| ensures Follows(rest[i], rest[j]) {
        assert Follows(segs[i + 1], segs[j + 1]);
      }
      x := JoinedHas(rest, rest[0].start, l);
    }
  }

  /** A log with an entry missing is refused: recovery never skips over a hole. */
  lemma MissingRefused<Q(!new), E(!new)>(m: Model<Q, E>, s: Wal<Q, E>, w: Wreck<E>, l: nat)
    requires Lawful(m) && Inv(m, s) && WreckOk(m.f, s, w) && Missing(m.f, w, l)
    ensures Recover(m.f, DiskAfter(m.f, w)) == None
  {
    hide Inv, WreckOk, Recover, DiskAfter, Decodes, SameAfter, GoodAfter, Starts, Joined, Has, WholeEntries;
    if Recover(m.f, DiskAfter(m.f, w)).Some? {
      var k := StartsAt(m.f, w);
      OpensIff(m, s, w, k);
      NoneMissing(m, s, w, k, l);
    }
  }

  lemma NoneMissing<Q(!new), E(!new)>(m: Model<Q, E>, s: Wal<Q, E>, w: Wreck<E>, k: nat, l: nat)
    requires Decodes(m.f) && Inv(m, s) && WreckOk(m.f, s, w) && Starts(m.f, w, k) && k <= |w.segs|
    requires Joined(Rest(w, k), Loaded(w) + 1) && Loaded(w) < l <= Reach(m.f, w)
    ensures exists x :: x in w.segs && Has(x, l)
  {
    hide Inv, WreckOk, Decodes, Starts, Has, WholeEntries, Intact;
    WreckIntact(m, s, w);
    if w.tail != [] {
      LoadedBeforeTail(m, s, w);
      TailNumber(m, s, w);
    }
    RestMeets(m.f, w, s.log, k);
    IntactFrom(m.f, w, s.log, k);
    LastHeld(m.f, Rest(w, k), s.log, w.cut, w.tail);
    var x := JoinedHas(Rest(w, k), Loaded(w) + 1, l);
    assert x in w.segs;
  }

  /** Whether a crash that leaves every live segment can leave the log with a hole. */
  ghost predicate MayBreak<Q, E(!new)>(f: Format<Q, E>, s: Wal<Q, E>) { exists w: Wreck<E> :: Breaks(f, s, w) }

  ghost predicate Breaks<Q, E>(f: Format<Q, E>, s: Wal<Q, E>, w: Wreck<E>) {
    WreckOk(f, s, w) && (forall x <- Live(s.d) :: x in w.segs) && exists l :: Missing(f, w, l)
  }

  /** Exactly when it can: the process loaded a snapshot whose directory entry is not synced,
      and the segments before it have been removed. */
  lemma BreaksIff<Q(!new), E(!new)>(m: Model<Q, E>, s: Wal<Q, E>)
    requires Decodes(m.f) && Inv(m, s)
    ensures MayBreak(m.f, s) <==> s.d.snapAdrift && 1 < Live(s.d)[0].start
  {
    hide Decodes, Inv, WreckOk, Missing;
    if s.d.snapAdrift && 1 < Live(s.d)[0].start {
      SnapshotTaken(m, s);
      assert Breaks(m.f, s, Unwritten(s));
    }
    forall w: Wreck<E> | Breaks(m.f, s, w) ensures s.d.snapAdrift && 1 < Live(s.d)[0].start {
      var l :| Missing(m.f, w, l);
      HoleBefore(m, s, w, l);
    }
  }

  lemma SnapshotTaken<Q(!new), E(!new)>(m: Model<Q, E>, s: Wal<Q, E>)
    requires Decodes(m.f) && Inv(m, s) && s.d.snapAdrift && 1 < Live(s.d)[0].start
    ensures WreckOk(m.f, s, Unwritten(s)) && Missing(m.f, Unwritten(s), 1)
  {
    hide Decodes, Synced, Counters, Loose, History, Snapshots, Removed, WreckOk, EndsBy, Holds, Reach;
    var ls, w := Live(s.d), Unwritten(s);
    UnwrittenOk(m, s);
    PromiseKept(m, s, w);
    forall x <- ls ensures !Has(x, 1) {
      var i :| 0 <= i < |ls| && ls[i] == x;
      if i > 0 { StartsIncrease(ls, s.log, 0, i); }
    }
    if s.d.closed != [] { StartsIncrease(ls, s.log, 0, |s.d.closed|); }
  }

  lemma HoleBefore<Q(!new), E(!new)>(m: Model<Q, E>, s: Wal<Q, E>, w: Wreck<E>, l: nat)
    requires Decodes(m.f) && Inv(m, s) && WreckOk(m.f, s, w) && Missing(m.f, w, l) && forall x <- Live(s.d) :: x in w.segs
    ensures s.d.snapAdrift && 1 < Live(s.d)[0].start
  {
    hide Decodes, Synced, Counters, Loose, History, Snapshots, Removed, EndsBy, Holds, SegsOk, TailOk, Has, FileBytes, WholeEntries;
    var ls := Live(s.d);
    assert s.d.active in ls && Last(ls) == s.d.active;
    PromiseKept(m, s, w);
    ActiveEnd(m, s);
    if !s.d.snapAdrift { SnapKept(s.d, w); }
    if ls[0].start <= l {
      var x := JoinedHas(ls, ls[0].start, l);
      assert false;
    }
  }

  // ---- when that is, in terms of what happened ----

  /** A duplicate Append that finds nothing written since the log was opened returns at
      once. Its nil can be lost to a power failure if and only if the entry was not on
      stable storage when the log was opened and no rotation has come between, or its file
      is still adrift. */
  lemma DuplicateLostIff<Q(!new), E(!new)>(
    m: Model<Q, E>, ss: seq<Wal<Q, E>>, es: seq<Event<Q, E>>, i: nat, l: nat)
    requires Lawful(m) && Life(m, ss, es) && i < |es| && es[i] == Did(Vouch(l)) && ss[i].c.written == 0
    ensures DoReturn(ss[i + 1], Wait(0, l), ss[i + 1].(c := ss[i + 1].c.(acked := ss[i + 1].c.acked + {l})))
    ensures MayLose(m.f, ss[i + 1], l) <==>
              || (ss[i].c.firm < l && !(exists k :: RotatedAt(es, k, i)))
              || ((exists k :: AdriftSince(m.f, es, k, i)) && Anchor(ss[i].d) < l)
  {
    hide Inv, MayLose, Decodes, SameAfter, GoodAfter, RotatedAt, AdriftSince, Anchor;
    assert Next(m, ss[i], es[i], ss[i + 1]);
    LifeKeeps(m, ss, es, i + 1);
    VouchedInBase(m, ss[i + 1], l);
    LostIff(m, ss[i + 1], l);
    RotatedMeans(m, ss, es, i);
    AdriftMeans(m, ss, es, i);
  }

  lemma VouchedInBase<Q, E>(m: Model<Q, E>, s: Wal<Q, E>, l: nat)
    requires Inv(m, s) && s.c.written == 0 && s.c.counted && l <= |s.log|
    ensures s.c.durable == 0 && l <= s.c.base
  {
  }

  /** A rotation at moment k fsynced the active segment, in the process that runs at i. */
  ghost predicate RotatedAt<Q, E>(es: seq<Event<Q, E>>, k: int, i: nat) {
    0 <= k < i <= |es| && es[k] == Did(RotateSync(true)) && forall n :: k < n < i ==> es[n].Did?
  }

  lemma {:induction false} RotatedMeans<Q(!new), E(!new)>(
    m: Model<Q, E>, ss: seq<Wal<Q, E>>, es: seq<Event<Q, E>>, i: nat)
    requires Life(m, ss, es) && i < |ss|
    ensures ss[i].c.rotated <==> exists k :: RotatedAt(es, k, i)
  {
    if i > 0 {
      var n := i - 1;
      RotatedMeans(m, ss, es, n);
      RotatedStep(m, ss[n], es[n], ss[i]);
      hide Next;
      if es[n].Did? {
        if ss[n].c.rotated {
          var k :| RotatedAt(es, k, n);
          assert RotatedAt(es, k, i);
        }
        if es[n] == Did(RotateSync(true)) {
          assert RotatedAt(es, n, i);
        }
      }
      if k :| RotatedAt(es, k, i) {
        assert k == n || RotatedAt(es, k, n);
      }
    }
  }

  lemma RotatedStep<Q, E>(m: Model<Q, E>, s: Wal<Q, E>, e: Event<Q, E>, t: Wal<Q, E>)
    requires Next(m, s, e, t)
    ensures t.c.rotated <==> e.Did? && (s.c.rotated || e.a == RotateSync(true))
  {
    hide Recover, FilesAfter, Survived, FileBytes, SnapGood, EndingOk;
  }

  /** Whether an event syncs the directory: a rotation that ends, a snapshot made durable, or
      an opening that sets something aside, creates a segment or follows a power failure. */
  predicate SyncsDir<Q, E>(f: Format<Q, E>, e: Event<Q, E>) {
    match e
    case Did(a) => a.CreateDone? || (a.Publish? && a.to == Some(Durable))
    case Crashed(x) => Settles(f, x)
  }

  /** The process that opened at moment k found a segment whose creation had stopped between
      its header and the directory sync, and none has come since. */
  ghost predicate AdriftSince<Q, E>(f: Format<Q, E>, es: seq<Event<Q, E>>, k: int, i: nat) {
    && 0 <= k < i <= |es| && es[k].Crashed? && Born(es[k].x.w.tail)
    && forall n :: k <= n < i ==> !SyncsDir(f, es[n])
  }

  /** Still adrift one moment later: no directory sync, and adrift before or from now on. */
  lemma AdriftLater<Q, E>(f: Format<Q, E>, es: seq<Event<Q, E>>, n: nat, i: nat)
    requires i == n + 1 <= |es|
    ensures (exists k :: AdriftSince(f, es, k, i)) <==>
              !SyncsDir(f, es[n]) && ((exists k :: AdriftSince(f, es, k, n)) || (es[n].Crashed? && Born(es[n].x.w.tail)))
  {
    hide SyncsDir, Born;
    if !SyncsDir(f, es[n]) {
      if k :| AdriftSince(f, es, k, n) {
        assert AdriftSince(f, es, k, i);
      }
      if es[n].Crashed? && Born(es[n].x.w.tail) {
        assert AdriftSince(f, es, n, i);
      }
    }
    if k :| AdriftSince(f, es, k, i) {
      assert k == n || AdriftSince(f, es, k, n);
    }
  }

  lemma {:induction false} AdriftMeans<Q(!new), E(!new)>(
    m: Model<Q, E>, ss: seq<Wal<Q, E>>, es: seq<Event<Q, E>>, i: nat)
    requires Life(m, ss, es) && i < |ss|
    ensures ss[i].d.adrift > 0 <==> exists k :: AdriftSince(m.f, es, k, i)
  {
    hide Next, SyncsDir, Born;
    if i > 0 {
      AdriftMeans(m, ss, es, i - 1);
      AdriftStep(m, ss[i - 1], es[i - 1], ss[i]);
      AdriftLater(m.f, es, i - 1, i);
    }
  }

  lemma AdriftStep<Q, E>(m: Model<Q, E>, s: Wal<Q, E>, e: Event<Q, E>, t: Wal<Q, E>)
    requires Next(m, s, e, t)
    ensures t.d.adrift > 0 <==> !SyncsDir(m.f, e) && (s.d.adrift > 0 || (e.Crashed? && Born(e.x.w.tail)))
  {
    hide Recover, Survived, FileBytes, SnapGood, EndingOk, LiveAfter, Settles, Visible;
  }

  /** A nil past position 0, exactly: a crash can lose the entry if and only if its file is
      adrift. For an entry of the same process that is so if and only if a process opened on
      a segment whose creation had stopped between its header and the directory sync, and
      no directory sync has come since. */
  lemma NilLostIff<Q(!new), E(!new)>(
    m: Model<Q, E>, ss: seq<Wal<Q, E>>, es: seq<Event<Q, E>>, i: nat, w: Wait)
    requires Lawful(m) && Life(m, ss, es) && i < |es| && es[i] == Did(Return(w)) && w.seqNo > 0
    ensures MayLose(m.f, ss[i + 1], w.lsn) <==> (exists k :: AdriftSince(m.f, es, k, i)) && Anchor(ss[i].d) < w.lsn
    ensures ss[i].c.base < w.lsn && (exists k :: AdriftSince(m.f, es, k, i)) ==> Anchor(ss[i].d) < w.lsn
  {
    hide Inv, MayLose, Decodes, SameAfter, GoodAfter, AdriftSince, Anchor;
    assert Next(m, ss[i], es[i], ss[i + 1]);
    LifeKeeps(m, ss, es, i);
    LifeKeeps(m, ss, es, i + 1);
    Waited(m, ss[i], w);
    LostIff(m, ss[i + 1], w.lsn);
    AdriftMeans(m, ss, es, i);
    if ss[i].d.adrift > 0 {
      AnchorInBase(m, ss[i]);
    }
  }

  lemma Waited<Q, E>(m: Model<Q, E>, s: Wal<Q, E>, w: Wait)
    requires Inv(m, s) && w in s.c.waits && 0 < w.seqNo <= s.c.durable
    ensures w.lsn <= s.c.base + s.c.durable
  {
  }

  lemma AnchorInBase<Q, E>(m: Model<Q, E>, s: Wal<Q, E>)
    requires Inv(m, s) && s.d.adrift > 0
    ensures Anchor(s.d) <= s.c.base
  {
    hide Synced, Counters, Loose, History, Snapshots, Removed, EndsBy, Holds;
    var ls := Live(s.d);
    var k := |ls| - s.d.adrift;
    if 0 < k < |s.d.closed| {
      StartsIncrease(ls, s.log, k, |s.d.closed|);
    }
  }

  // ---- what an fsync releases ----

  /** Nothing between moments i and j ends the fsync, the process or the store. */
  ghost predicate Uninterrupted<Q, E>(es: seq<Event<Q, E>>, i: nat, j: nat) {
    j <= |es| && forall k :: i <= k < j ==> es[k].Did? && !es[k].a.SyncEnd?
  }

  /** An fsync in flight keeps its target. */
  lemma {:induction false} TargetStays<Q(!new), E(!new)>(
    m: Model<Q, E>, ss: seq<Wal<Q, E>>, es: seq<Event<Q, E>>, i: nat, j: nat)
    requires Lawful(m) && Life(m, ss, es) && i < j < |ss| && es[i] == Did(SyncBegin) && Uninterrupted(es, i + 1, j)
    ensures ss[j].c.sync.Some? && ss[j].c.sync.value.target == ss[i].c.written && ss[i].c.waits <= ss[j].c.waits
    decreases j
  {
    hide Lawful, Inv;
    assert Next(m, ss[j - 1], es[j - 1], ss[j]);
    if i < j - 1 {
      TargetStays(m, ss, es, i, j - 1);
      LifeKeeps(m, ss, es, j - 1);
      TargetKept(m, ss[j - 1], es[j - 1].a, ss[j]);
    }
  }

  lemma TargetKept<Q, E>(m: Model<Q, E>, s: Wal<Q, E>, a: Act<Q, E>, t: Wal<Q, E>)
    requires Inv(m, s) && Step(m, s, a, t) && s.c.sync.Some? && !a.SyncEnd?
    ensures t.c.sync.Some? && t.c.sync.value.target == s.c.sync.value.target && s.c.waits <= t.c.waits
  {
    hide Chained, History, Snapshots, Synced, Loose, EndsBy, FileBytes, SegmentBytes, SnapGood, Removed, Placed, Fits;
  }

  /** Group commit: one fsync that succeeds releases every call that was waiting when it
      began, and all of them may return nil. */
  lemma SyncReleases<Q(!new), E(!new)>(
    m: Model<Q, E>, ss: seq<Wal<Q, E>>, es: seq<Event<Q, E>>, i: nat, j: nat, w: Wait)
    requires Lawful(m) && Life(m, ss, es) && i < j < |es| && es[i] == Did(SyncBegin) && es[j] == Did(SyncEnd(true))
    requires Uninterrupted(es, i + 1, j) && w in ss[i].c.waits
    ensures var s := ss[j + 1];
            w in s.c.waits && w.seqNo <= s.c.durable && DoReturn(s, w, s.(c := s.c.(acked := s.c.acked + {w.lsn})))
  {
    hide Lawful, Chained, History, Snapshots, Synced, Loose, EndsBy, FileBytes, Removed, Placed;
    TargetStays(m, ss, es, i, j);
    LifeKeeps(m, ss, es, i);
    assert Next(m, ss[j], es[j], ss[j + 1]);
  }

  /** So does a rotation, for every call that waits. */
  lemma RotationReleases<Q(!new), E(!new)>(
    m: Model<Q, E>, ss: seq<Wal<Q, E>>, es: seq<Event<Q, E>>, i: nat, w: Wait)
    requires Lawful(m) && Life(m, ss, es) && i < |es| && es[i] == Did(RotateSync(true)) && w in ss[i].c.waits
    ensures var s := ss[i + 1];
            w in s.c.waits && w.seqNo <= s.c.durable && DoReturn(s, w, s.(c := s.c.(acked := s.c.acked + {w.lsn})))
  {
    hide Lawful, Chained, History, Snapshots, Synced, Loose, EndsBy, FileBytes, Removed, Placed;
    LifeKeeps(m, ss, es, i);
    assert Next(m, ss[i], es[i], ss[i + 1]);
  }
}
