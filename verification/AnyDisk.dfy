/** What opening promises whatever is on disk (recover, replaySegment and applyEntry in
    dlq/wal_store.go): files written by anything, damaged anywhere. A log that opens is a
    gapless replay of frames that read, from files that are what their names say; everything
    else is refused. */
module AnyDisk {
  import opened Records
  import opened Chunks
  import opened Frames
  import opened Folds
  import opened Recovery

  /** The frames of a segment file, if its header can be read. */
  function FramesIn<Q, E>(f: Format<Q, E>, file: File): seq<Frame> {
    if f.getHead(file.bytes).None? || |file.bytes| < HEADER_SIZE then [] else f.scan(file.bytes[HEADER_SIZE..]).items
  }

  /** Those the snapshot does not cover. */
  function Past(fs: seq<Frame>, snapLSN: nat): seq<Frame> {
    if fs == [] then []
    else if fs[0].lsn <= snapLSN then Past(fs[1..], snapLSN)
    else [fs[0]] + Past(fs[1..], snapLSN)
  }

  /** Numbered without a gap, and every one an entry. */
  ghost predicate InOrder<Q, E>(f: Format<Q, E>, fs: seq<Frame>, next: nat) {
    forall i :: 0 <= i < |fs| ==> fs[i].lsn == next + i && f.dec(fs[i]).Some?
  }

  /** What the frames do to the queue, one after the other. */
  function Played<Q, E>(f: Format<Q, E>, fs: seq<Frame>, q: Q): Q {
    if fs == [] then q
    else Played(f, fs[1..], if f.dec(fs[0]).Some? then f.step(q, f.dec(fs[0]).value) else q)
  }

  /** The frames of a file apply exactly if those past the snapshot are entries numbered
      without a gap from the next one on. */
  lemma {:induction false} AppliesIff<Q, E>(f: Format<Q, E>, fs: seq<Frame>, next: nat, q: Q, snapLSN: nat)
    ensures var ks := Past(fs, snapLSN);
            ApplyFrames(f, fs, next, q, snapLSN) == if InOrder(f, ks, next) then Some((Played(f, ks, q), next + |ks|)) else None
    decreases |fs|
  {
    if fs != [] {
      var ks, rest := Past(fs, snapLSN), Past(fs[1..], snapLSN);
      if fs[0].lsn <= snapLSN {
        AppliesIff(f, fs[1..], next, q, snapLSN);
      } else {
        assert ks == [fs[0]] + rest && ks[1..] == rest;
        OrderCons(f, ks, next);
        if fs[0].lsn == next && f.dec(fs[0]).Some? {
          AppliesIff(f, fs[1..], next + 1, f.step(q, f.dec(fs[0]).value), snapLSN);
        }
      }
    }
  }

  lemma OrderCons<Q, E>(f: Format<Q, E>, ks: seq<Frame>, next: nat)
    requires ks != []
    ensures InOrder(f, ks, next) <==> ks[0].lsn == next && f.dec(ks[0]).Some? && InOrder(f, ks[1..], next + 1)
  {
    if ks[0].lsn == next && f.dec(ks[0]).Some? && InOrder(f, ks[1..], next + 1) {
      forall i | 0 <= i < |ks| ensures ks[i].lsn == next + i && f.dec(ks[i]).Some? {
        if i > 0 { assert ks[i] == ks[1..][i - 1]; }
      }
    }
    if InOrder(f, ks, next) {
      forall i | 0 <= i < |ks[1..]| ensures ks[1..][i].lsn == next + 1 + i && f.dec(ks[1..][i]).Some? {
        assert ks[1..][i] == ks[i + 1];
      }
    }
  }

  /** The file is the segment its name says, begins no later than the next entry, and is whole;
      or it is the last one and what is torn at its end may be cut off. */
  ghost predicate Usable<Q, E>(f: Format<Q, E>, file: File, next: nat, after: nat, isLast: bool) {
    && f.getHead(file.bytes) == Some(file.start) && file.start <= next && HEADER_SIZE <= |file.bytes|
    && var body := file.bytes[HEADER_SIZE..];
       f.scan(body).end.EndOfFile? || (isLast && f.repair(body, after))
  }

  /** Exactly what becomes of one segment file, whatever it holds. */
  lemma SegmentIff<Q(!new), E(!new)>(f: Format<Q, E>, file: File, next: nat, isLast: bool, q: Q, snapLSN: nat)
    requires Decodes(f)
    ensures var ks := Past(FramesIn(f, file), snapLSN);
            var r := f.segment(file, next, isLast, q, snapLSN);
            && (r == SetAside <==> f.getHead(file.bytes).None? && isLast && next <= file.start)
            && (r.Replayed? <==> InOrder(f, ks, next) && Usable(f, file, next, next + |ks|, isLast))
            && (r.Replayed? ==> r == Replayed(Played(f, ks, q), next + |ks|))
  {
    assert SegmentOk(f, file, next, isLast, q, snapLSN);
    hide Decodes, ApplyFrames, Past, Played, InOrder;
    AppliesIff(f, FramesIn(f, file), next, q, snapLSN);
  }

  /** All frames past the snapshot, file by file. */
  function AllPast<Q, E>(f: Format<Q, E>, files: seq<File>, snapLSN: nat): seq<Frame> {
    if files == [] then [] else Past(FramesIn(f, files[0]), snapLSN) + AllPast(f, files[1..], snapLSN)
  }

  lemma {:induction false} PlayedConcat<Q, E>(f: Format<Q, E>, a: seq<Frame>, b: seq<Frame>, q: Q)
    ensures Played(f, a + b, q) == Played(f, b, Played(f, a, q))
    decreases |a|
  {
    if a == [] {
      assert a + b == b;
    } else {
      assert (a + b)[1..] == a[1..] + b;
      PlayedConcat(f, a[1..], b, if f.dec(a[0]).Some? then f.step(q, f.dec(a[0]).value) else q);
    }
  }

  lemma OrderConcat<Q, E>(f: Format<Q, E>, a: seq<Frame>, b: seq<Frame>, next: nat)
    requires InOrder(f, a, next) && InOrder(f, b, next + |a|)
    ensures InOrder(f, a + b, next)
  {
    forall i | 0 <= i < |a + b| ensures (a + b)[i].lsn == next + i && f.dec((a + b)[i]).Some? {
      if i >= |a| { assert (a + b)[i] == b[i - |a|]; }
    }
  }

  /** Every file but a last one whose header is unreadable is the segment its name says, and
      only the last may be torn. */
  ghost predicate AllNamed<Q, E>(f: Format<Q, E>, files: seq<File>) {
    forall i :: 0 <= i < |files| ==>
      || (i == |files| - 1 && f.getHead(files[i].bytes).None?)
      || (&& f.getHead(files[i].bytes) == Some(files[i].start) && HEADER_SIZE <= |files[i].bytes|
          && (i == |files| - 1 || f.scan(files[i].bytes[HEADER_SIZE..]).end.EndOfFile?))
  }

  /** The frames of all files are in order and make (q1, next1) of (q, next). */
  ghost predicate AllPlayed<Q, E>(f: Format<Q, E>, files: seq<File>, next: nat, q: Q, snapLSN: nat, q1: Q, next1: nat) {
    var ks := AllPast(f, files, snapLSN);
    InOrder(f, ks, next) && q1 == Played(f, ks, q) && next1 == next + |ks|
  }

  lemma PlayedCons<Q, E>(f: Format<Q, E>, files: seq<File>, next: nat, q: Q, snapLSN: nat, q1: Q, next1: nat)
    requires files != []
    requires var a := Past(FramesIn(f, files[0]), snapLSN);
             InOrder(f, a, next) && AllPlayed(f, files[1..], next + |a|, Played(f, a, q), snapLSN, q1, next1)
    ensures AllPlayed(f, files, next, q, snapLSN, q1, next1)
  {
    hide Past, FramesIn, InOrder;
    var a, b := Past(FramesIn(f, files[0]), snapLSN), AllPast(f, files[1..], snapLSN);
    OrderConcat(f, a, b, next);
    PlayedConcat(f, a, b, q);
  }

  lemma {:induction false} ReplayedMeans<Q(!new), E(!new)>(f: Format<Q, E>, files: seq<File>, next: nat, q: Q, snapLSN: nat)
    requires Decodes(f) && ReplaySegments(f, files, next, q, snapLSN).Some?
    ensures AllNamed(f, files)
    ensures var r := ReplaySegments(f, files, next, q, snapLSN).value;
            AllPlayed(f, files, next, q, snapLSN, r.0, r.1)
    decreases |files|
  {
    if files != [] {
      hide Decodes, Past, InOrder, AllNamed, Played, AllPast, FramesIn, AllPlayed, Usable;
      var r := f.segment(files[0], next, |files| == 1, q, snapLSN);
      SegmentIff(f, files[0], next, |files| == 1, q, snapLSN);
      if r.Replayed? {
        ReplayedMeans(f, files[1..], r.next, r.q, snapLSN);
        var last := ReplaySegments(f, files[1..], r.next, r.q, snapLSN).value;
        PlayedCons(f, files, next, q, snapLSN, last.0, last.1);
        NamedCons(f, files, next, r.next);
      } else {
        OneSetAside(f, files, next, q, snapLSN);
      }
    }
  }

  lemma OneSetAside<Q, E>(f: Format<Q, E>, files: seq<File>, next: nat, q: Q, snapLSN: nat)
    requires |files| == 1 && f.getHead(files[0].bytes).None?
    ensures AllNamed(f, files) && AllPlayed(f, files, next, q, snapLSN, q, next)
  {
    assert AllPast(f, files, snapLSN) == [];
  }

  lemma NamedCons<Q, E>(f: Format<Q, E>, files: seq<File>, next: nat, after: nat)
    requires files != [] && AllNamed(f, files[1..]) && Usable(f, files[0], next, after, |files| == 1)
    ensures AllNamed(f, files)
  {
    var rest := files[1..];
    forall i | 0 <= i < |files|
      ensures || (i == |files| - 1 && f.getHead(files[i].bytes).None?)
              || (&& f.getHead(files[i].bytes) == Some(files[i].start) && HEADER_SIZE <= |files[i].bytes|
                  && (i == |files| - 1 || f.scan(files[i].bytes[HEADER_SIZE..]).end.EndOfFile?))
    {
      if i > 0 { assert files[i] == rest[i - 1]; }
    }
  }

  /** Whatever is on disk: if it opens, the newest snapshot is what its name says, loads, and
      is followed by entries numbered without a gap from there on, read from files that are
      what their names say; the queue is that snapshot with those entries applied in order. */
  lemma OpenedMeans<Q(!new), E(!new)>(f: Format<Q, E>, d: Disk)
    requires Decodes(f) && Recover(f, d).Some?
    ensures var snap, files := SnapLSN(d), DropCovered(d.segs, SnapLSN(d) + 1);
            var ks := AllPast(f, files, snap);
            var q := if d.snaps == [] then Some(f.init) else LoadSnapshot(f, d.snaps[|d.snaps| - 1]);
            && (d.snaps != [] ==> GetHeader(f.crc, d.snaps[|d.snaps| - 1].bytes, SNAP_MAGIC) == Some(snap))
            && q.Some? && InOrder(f, ks, snap + 1) && AllNamed(f, files)
            && Recover(f, d) == Some((f.finish(Played(f, ks, q.value)), snap + 1 + |ks|))
  {
    hide Decodes, DropCovered, InOrder, AllNamed, AllPast, Played, GetHeader, GetFrames;
    var snap := SnapLSN(d);
    var q := if d.snaps == [] then Some(f.init) else LoadSnapshot(f, d.snaps[|d.snaps| - 1]);
    ReplayedMeans(f, DropCovered(d.segs, snap + 1), snap + 1, q.value, snap);
  }
}
