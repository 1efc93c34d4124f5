/** Compaction of a store whose payloads live on disk (compactOffload and
    writeSnapshotOffload in dlq/wal_snapshot.go): capture under the lock, copy without it
    while anything may happen to the queue, then swap. Every step is atomic, so every
    interleaving is a sequence of steps. */
module Compaction {
  import opened Records
  import opened Blobs

  /** A record in the store: what it is, where its payload lives, and a version that
      changes with its state or checkpoint. Memory holds only Meta(full). */
  datatype Stored = Stored(full: Record, refs: Refs, ver: nat)

  datatype Captured = Captured(full: Record, refs: Refs)

  datatype Copying = Copying(
    last: nat,                    // the snapshot's LSN
    entries: map<Text, Captured>, // every record at capture
    stale: set<FileKey>,          // the files the snapshot replaces
    out: seq<Record>,             // the snapshot's frames so far
    copied: map<Text, nat>,       // which of them holds a record
    published: bool)              // the snapshot has its final name

  datatype Storage = Storage(
    items: map<Text, Stored>,
    seqNo: nat,
    frames: Frames,
    live: set<FileKey>,           // files that exist
    active: FileKey,
    size: nat,                    // where the next frame goes
    snapNo: nat,
    comp: Option<Copying>)

  datatype Step =
    | Append(rec: Record)
    | SetCheckpoint(id: Text, cp: Option<Bytes>, to: Record) // a checkpoint, or a requeue that replaces it
    | Change(id: Text, to: Record)                           // lease, nack, release, park or requeue
    | Remove(id: Text)
    | Rotate(start: nat)
    | Capture(last: nat)
    | CopyOne(id: Text)
    | Abort
    | Publish
    | Swap

  /** Everything about a record but its payload may change. */
  predicate SameRecord(x: Record, y: Record) { x.id == y.id && x.seqNo == y.seqNo && x.orderKey == y.orderKey }

  function Next(s: Storage): Ref { Ref(s.active, s.size) }

  function Logged(s: Storage, b: Blob): Storage {
    s.(frames := s.frames[Next(s) := b], size := s.size + 1)
  }

  function SnapKey(c: Copying): FileKey { FileKey(true, c.last) }

  function SnapRef(c: Copying, id: Text): Ref
    requires id in c.copied
  {
    Ref(SnapKey(c), c.copied[id])
  }

  /** The copies, as frames of the snapshot file. */
  ghost function SnapFrames(c: Copying): Frames {
    map i | 0 <= i < |c.out| :: Ref(SnapKey(c), i) := Whole(c.out[i])
  }

  /** What has not changed since the capture is re-pointed at the snapshot. */
  function Repointed(st: Stored, e: Captured, to: Ref): Stored {
    st.(refs := Refs(
      if st.refs.body == e.refs.body then Some(to) else st.refs.body,
      if e.refs.ckpt.Some? && st.refs.ckpt == e.refs.ckpt then Some(to) else st.refs.ckpt))
  }

  ghost predicate DoAppend(s: Storage, rec: Record, t: Storage) {
    && rec.id !in s.items && rec.seqNo == s.seqNo + 1
    && t == Logged(s, Whole(rec)).(
         items := s.items[rec.id := Stored(rec, Refs(Some(Next(s)), if rec.checkpoint.Some? then Some(Next(s)) else None), 0)],
         seqNo := rec.seqNo)
  }

  ghost predicate DoSetCheckpoint(s: Storage, id: Text, cp: Option<Bytes>, to: Record, t: Storage) {
    && id in s.items && SameRecord(s.items[id].full, to)
    && var x := s.items[id];
       t == Logged(s, Progress(id, cp)).(items := s.items[id := Stored(
         WithBody(Meta(to), x.full).(checkpoint := cp),
         x.refs.(ckpt := if cp.Some? then Some(Next(s)) else None), x.ver + 1)])
  }

  ghost predicate DoChange(s: Storage, id: Text, to: Record, t: Storage) {
    && id in s.items && SameRecord(s.items[id].full, to)
    && var x := s.items[id];
       t == s.(items := s.items[id := x.(full := WithPayload(Meta(to), x.full), ver := x.ver + 1)])
  }

  ghost predicate DoRotate(s: Storage, start: nat, t: Storage) {
    && s.active.id < start
    && t == s.(active := FileKey(false, start), live := s.live + {FileKey(false, start)}, size := 0)
  }

  ghost predicate DoCapture(s: Storage, last: nat, t: Storage) {
    && s.comp.None? && s.snapNo < last
    && t == s.(comp := Some(Copying(
         last, map id | id in s.items :: Captured(s.items[id].full, s.items[id].refs), s.live - {s.active}, [], map[], false)))
  }

  /** Reading a captured record's payload, with the lock released. */
  ghost predicate DoCopy(s: Storage, id: Text, t: Storage) {
    && s.comp.Some? && !s.comp.value.published && id in s.comp.value.entries && id !in s.comp.value.copied
    && var c := s.comp.value;
       var r := Hydrate(s.frames, Meta(c.entries[id].full), c.entries[id].refs);
       r.Some? && t == s.(comp := Some(c.(out := c.out + [r.value], copied := c.copied[id := |c.out|])))
  }

  /** A copy that fails gives the compaction up. */
  ghost predicate DoAbort(s: Storage, t: Storage) {
    s.comp.Some? && !s.comp.value.published && t == s.(comp := None)
  }

  ghost predicate DoPublish(s: Storage, t: Storage) {
    && s.comp.Some? && !s.comp.value.published && s.comp.value.copied.Keys == s.comp.value.entries.Keys
    && var c := s.comp.value;
       t == s.(frames := s.frames + SnapFrames(c), live := s.live + {SnapKey(c)}, snapNo := c.last,
               comp := Some(c.(published := true)))
  }

  ghost predicate DoSwap(s: Storage, t: Storage) {
    && s.comp.Some? && s.comp.value.published && s.comp.value.copied.Keys == s.comp.value.entries.Keys
    && var c := s.comp.value;
       t == s.(comp := None, live := s.live - c.stale,
               items := map id | id in s.items ::
                 if id in c.entries then Repointed(s.items[id], c.entries[id], SnapRef(c, id)) else s.items[id])
  }

  ghost predicate Does(s: Storage, a: Step, t: Storage) {
    match a
    case Append(rec) => DoAppend(s, rec, t)
    case SetCheckpoint(id, cp, to) => DoSetCheckpoint(s, id, cp, to, t)
    case Change(id, to) => DoChange(s, id, to, t)
    case Remove(id) => id in s.items && t == s.(items := s.items - {id})
    case Rotate(start) => DoRotate(s, start, t)
    case Capture(last) => DoCapture(s, last, t)
    case CopyOne(id) => DoCopy(s, id, t)
    case Abort => DoAbort(s, t)
    case Publish => DoPublish(s, t)
    case Swap => DoSwap(s, t)
  }

  // ---- what every step keeps ----

  ghost predicate Exist(refs: Refs, live: set<FileKey>) {
    (refs.body.Some? ==> refs.body.value.key in live) && (refs.ckpt.Some? ==> refs.ckpt.value.key in live)
  }

  /** The record's references lead to its payload, in files that exist. */
  ghost predicate ItemOk(st: Stored, id: Text, seqNo: nat, frames: Frames, live: set<FileKey>) {
    st.full.id == id && st.full.seqNo <= seqNo && Resolves(frames, st.refs, st.full) && Exist(st.refs, live)
  }

  /** Frames lie in files the store has named so far, and the active file ends at size. */
  ghost predicate Written(frames: Frames, active: FileKey, size: nat, snapNo: nat) {
    && !active.snap
    && (forall r <- frames :: if r.key.snap then r.key.id <= snapNo else r.key.id <= active.id)
    && (forall r <- frames :: r.key == active ==> r.off < size)
  }

  /** A reference into an old file is one the capture saw. */
  ghost predicate Seen(st: Stored, id: Text, c: Copying) {
    && (st.refs.body.Some? && st.refs.body.value.key in c.stale ==> id in c.entries && c.entries[id].refs.body == st.refs.body)
    && (st.refs.ckpt.Some? && st.refs.ckpt.value.key in c.stale ==> id in c.entries && c.entries[id].refs.ckpt == st.refs.ckpt)
  }

  ghost predicate Copied(c: Copying, id: Text, frames: Frames) {
    && id in c.entries && id in c.copied && c.copied[id] < |c.out|
    && var r := c.out[c.copied[id]];
    && r.id == id && r == WithPayload(r, c.entries[id].full)
    && (c.published ==> SnapRef(c, id) in frames && frames[SnapRef(c, id)] == Whole(r))
  }

  /** Files the store has named so far. */
  ghost predicate Named(keys: set<FileKey>, active: FileKey, snapNo: nat) {
    forall k <- keys :: if k.snap then k.id <= snapNo else k.id <= active.id
  }

  ghost predicate CopyingOk(c: Copying, items: map<Text, Stored>, frames: Frames, live: set<FileKey>, active: FileKey,
      snapNo: nat) {
    && (forall id <- c.entries :: c.entries[id].full.id == id && Resolves(frames, c.entries[id].refs, c.entries[id].full))
    && (forall id <- items :: Seen(items[id], id, c))
    && (forall id <- c.copied :: Copied(c, id, frames))
    && active !in c.stale && SnapKey(c) !in c.stale && Named(c.stale, active, snapNo)
    && (if c.published then SnapKey(c) in live && c.last <= snapNo else snapNo < c.last)
  }

  ghost predicate Inv(s: Storage) {
    && s.active in s.live && Written(s.frames, s.active, s.size, s.snapNo)
    && Named(s.live, s.active, s.snapNo)
    && (forall id <- s.items :: ItemOk(s.items[id], id, s.seqNo, s.frames, s.live))
    && (s.comp.Some? ==> CopyingOk(s.comp.value, s.items, s.frames, s.live, s.active, s.snapNo))
  }

  ghost predicate Extends(fs: Frames, fs': Frames) { forall r <- fs :: r in fs' && fs'[r] == fs[r] }

  lemma ItemLater(st: Stored, id: Text, seqNo: nat, seqNo': nat, fs: Frames, fs': Frames, live: set<FileKey>,
      live': set<FileKey>)
    requires ItemOk(st, id, seqNo, fs, live) && Extends(fs, fs') && live <= live' && seqNo <= seqNo'
    ensures ItemOk(st, id, seqNo', fs', live')
  {
    ResolvesLater(fs, fs', st.refs, st.full);
  }

  lemma LoggedExtends(s: Storage, b: Blob)
    requires Inv(s)
    ensures Next(s) !in s.frames && Extends(s.frames, Logged(s, b).frames)
    ensures Written(Logged(s, b).frames, s.active, s.size + 1, s.snapNo)
  {
  }

  lemma CopyingLater(c: Copying, items: map<Text, Stored>, items': map<Text, Stored>, fs: Frames, fs': Frames,
      live: set<FileKey>, active: FileKey, snapNo: nat)
    requires CopyingOk(c, items, fs, live, active, snapNo) && Extends(fs, fs')
    requires forall id <- items' :: Seen(items'[id], id, c)
    ensures CopyingOk(c, items', fs', live, active, snapNo)
  {
    forall id <- c.entries ensures Resolves(fs', c.entries[id].refs, c.entries[id].full) {
      ResolvesLater(fs, fs', c.entries[id].refs, c.entries[id].full);
    }
    forall id <- c.copied ensures Copied(c, id, fs') {
      assert Copied(c, id, fs);
    }
  }

  /** One record changes; a new reference of it leads to the active file. */
  lemma PutKeeps(s: Storage, id: Text, st: Stored, t: Storage)
    requires Inv(s) && Extends(s.frames, t.frames) && Written(t.frames, s.active, t.size, s.snapNo) && s.seqNo <= t.seqNo
    requires t == s.(items := s.items[id := st], frames := t.frames, size := t.size, seqNo := t.seqNo)
    requires ItemOk(st, id, t.seqNo, t.frames, s.live)
    requires st.refs.body == Some(Next(s)) || (id in s.items && st.refs.body == s.items[id].refs.body)
    requires st.refs.ckpt in {Some(Next(s)), None} || (id in s.items && st.refs.ckpt == s.items[id].refs.ckpt)
    ensures Inv(t)
  {
    hide Written, Resolves, Copied;
    forall x <- t.items ensures ItemOk(t.items[x], x, t.seqNo, t.frames, t.live) {
      if x != id {
        ItemLater(s.items[x], x, s.seqNo, t.seqNo, s.frames, t.frames, s.live, t.live);
      }
    }
    if s.comp.Some? {
      var c := s.comp.value;
      forall x <- t.items ensures Seen(t.items[x], x, c) {
        assert x in s.items ==> Seen(s.items[x], x, c);
      }
      CopyingLater(c, s.items, t.items, s.frames, t.frames, s.live, s.active, s.snapNo);
    }
  }

  lemma RemoveKeeps(s: Storage, id: Text, t: Storage)
    requires Inv(s) && t == s.(items := s.items - {id})
    ensures Inv(t)
  {
    hide Written, Resolves, Copied;
    if s.comp.Some? {
      CopyingLater(s.comp.value, s.items, t.items, s.frames, t.frames, s.live, s.active, s.snapNo);
    }
  }

  lemma AppendKeeps(s: Storage, rec: Record, t: Storage)
    requires Inv(s) && DoAppend(s, rec, t)
    ensures Inv(t)
  {
    LoggedExtends(s, Whole(rec));
    PutKeeps(s, rec.id, t.items[rec.id], t);
  }

  lemma SetCheckpointKeeps(s: Storage, id: Text, cp: Option<Bytes>, to: Record, t: Storage)
    requires Inv(s) && DoSetCheckpoint(s, id, cp, to, t)
    ensures Inv(t)
  {
    LoggedExtends(s, Progress(id, cp));
    assert ItemOk(s.items[id], id, s.seqNo, s.frames, s.live);
    PutKeeps(s, id, t.items[id], t);
  }

  lemma ChangeKeeps(s: Storage, id: Text, to: Record, t: Storage)
    requires Inv(s) && DoChange(s, id, to, t)
    ensures Inv(t)
  {
    assert ItemOk(s.items[id], id, s.seqNo, s.frames, s.live);
    PutKeeps(s, id, t.items[id], t);
  }

  lemma RotateKeeps(s: Storage, start: nat, t: Storage)
    requires Inv(s) && DoRotate(s, start, t)
    ensures Inv(t)
  {
    forall id <- t.items ensures ItemOk(t.items[id], id, t.seqNo, t.frames, t.live) {
      ItemLater(s.items[id], id, s.seqNo, t.seqNo, s.frames, t.frames, s.live, t.live);
    }
  }

  lemma CaptureKeeps(s: Storage, last: nat, t: Storage)
    requires Inv(s) && DoCapture(s, last, t)
    ensures Inv(t)
  {
    hide Resolves;
    var c := t.comp.value;
    forall id <- s.items ensures Seen(s.items[id], id, c) && ItemOk(s.items[id], id, s.seqNo, s.frames, s.live) {
    }
  }

  lemma CopyKeeps(s: Storage, id: Text, t: Storage)
    requires Inv(s) && DoCopy(s, id, t)
    ensures Inv(t)
  {
    var c, c' := s.comp.value, t.comp.value;
    var e := c.entries[id];
    ResolvedHydrates(s.frames, e.refs, e.full, Meta(e.full));
    hide Resolves, Hydrate, ItemOk, Written, Meta;
    forall x <- c'.copied ensures Copied(c', x, t.frames) {
      assert x != id ==> Copied(c, x, s.frames);
    }
    forall x <- t.items ensures Seen(t.items[x], x, c') {
      assert Seen(s.items[x], x, c);
    }
  }

  /** A failed copy changes nothing but that there is no compaction. */
  lemma AbortKeeps(s: Storage, t: Storage)
    requires Inv(s) && DoAbort(s, t)
    ensures Inv(t) && t.items == s.items && t.frames == s.frames && t.live == s.live
  {
  }

  lemma PublishKeeps(s: Storage, t: Storage)
    requires Inv(s) && DoPublish(s, t)
    ensures Inv(t)
  {
    var c := s.comp.value;
    assert Extends(s.frames, t.frames) by {
      forall r <- s.frames ensures r !in SnapFrames(c) {
      }
    }
    hide Resolves;
    forall id <- t.items ensures ItemOk(t.items[id], id, t.seqNo, t.frames, t.live) {
      ItemLater(s.items[id], id, s.seqNo, t.seqNo, s.frames, t.frames, s.live, t.live);
    }
    PublishCopying(c, s, t);
  }

  lemma PublishCopying(c: Copying, s: Storage, t: Storage)
    requires Inv(s) && DoPublish(s, t) && c == s.comp.value && Extends(s.frames, t.frames)
    ensures CopyingOk(t.comp.value, t.items, t.frames, t.live, t.active, t.snapNo)
  {
    hide Resolves, ItemOk, Written;
    var c' := t.comp.value;
    forall id <- c.entries ensures Resolves(t.frames, c.entries[id].refs, c.entries[id].full) {
      ResolvesLater(s.frames, t.frames, c.entries[id].refs, c.entries[id].full);
    }
    forall id <- c.copied ensures Copied(c', id, t.frames) {
      assert Copied(c, id, s.frames);
      assert SnapRef(c, id) in SnapFrames(c);
    }
    forall x <- t.items ensures Seen(t.items[x], x, c') {
      assert Seen(s.items[x], x, c);
    }
  }

  /** A re-pointed record still resolves, in files that stay. */
  lemma RepointedOk(st: Stored, e: Captured, id: Text, c: Copying, seqNo: nat, frames: Frames, live: set<FileKey>)
    requires ItemOk(st, id, seqNo, frames, live) && Seen(st, id, c) && id in c.entries && e == c.entries[id]
    requires e.full.id == id && Resolves(frames, e.refs, e.full) && id in c.copied && Copied(c, id, frames) && c.published
    requires SnapKey(c) in live && SnapKey(c) !in c.stale
    ensures ItemOk(Repointed(st, e, SnapRef(c, id)), id, seqNo, frames, live - c.stale)
  {
  }

  lemma SwapKeeps(s: Storage, t: Storage)
    requires Inv(s) && DoSwap(s, t)
    ensures Inv(t)
  {
    hide Resolves, Repointed, Exist;
    var c := s.comp.value;
    forall id <- t.items ensures ItemOk(t.items[id], id, t.seqNo, t.frames, t.live) {
      assert ItemOk(s.items[id], id, s.seqNo, s.frames, s.live) && Seen(s.items[id], id, c);
      if id in c.entries {
        assert id in c.copied && Copied(c, id, s.frames);
        RepointedOk(s.items[id], c.entries[id], id, c, s.seqNo, s.frames, s.live);
      } else {
        Unseen(s.items[id], id, c, s.live);
      }
    }
  }

  lemma Unseen(st: Stored, id: Text, c: Copying, live: set<FileKey>)
    requires Seen(st, id, c) && Exist(st.refs, live) && id !in c.entries
    ensures Exist(st.refs, live - c.stale)
  {
  }

  /** Every step of every interleaving keeps each record's payload within reach. */
  lemma StepKeeps(s: Storage, a: Step, t: Storage)
    requires Inv(s) && Does(s, a, t)
    ensures Inv(t)
  {
    hide Inv, DoAppend, DoSetCheckpoint, DoChange, DoRotate, DoCapture, DoCopy, DoPublish, DoSwap, DoAbort;
    match a
    case Append(rec) => AppendKeeps(s, rec, t);
    case SetCheckpoint(id, cp, to) => SetCheckpointKeeps(s, id, cp, to, t);
    case Change(id, to) => ChangeKeeps(s, id, to, t);
    case Remove(id) => RemoveKeeps(s, id, t);
    case Rotate(start) => RotateKeeps(s, start, t);
    case Capture(last) => CaptureKeeps(s, last, t);
    case CopyOne(id) => CopyKeeps(s, id, t);
    case Abort => AbortKeeps(s, t);
    case Publish => PublishKeeps(s, t);
    case Swap => SwapKeeps(s, t);
  }

  /** After a swap nothing refers to a deleted file. */
  lemma SwapLeavesNothing(s: Storage, t: Storage, id: Text)
    requires Inv(s) && DoSwap(s, t) && id in t.items
    ensures forall r :: r in {t.items[id].refs.body, t.items[id].refs.ckpt} && r.Some? ==>
              r.value.key !in s.comp.value.stale && r.value.key in t.live
  {
    SwapKeeps(s, t);
    assert ItemOk(t.items[id], id, t.seqNo, t.frames, t.live);
  }

  // ---- whole runs ----

  const START := Storage(map[], 0, map[], {FileKey(false, 1)}, FileKey(false, 1), 0, 0, None)

  ghost predicate Run(ss: seq<Storage>, steps: seq<Step>) {
    && |ss| == |steps| + 1 && ss[0] == START
    && forall i, j :: 0 <= i && j == i + 1 <= |steps| ==> Does(ss[i], steps[i], ss[j])
  }

  lemma {:induction false} RunKeeps(ss: seq<Storage>, steps: seq<Step>, i: nat)
    requires Run(ss, steps) && i < |ss|
    ensures Inv(ss[i])
  {
    hide Does;
    if i > 0 {
      RunKeeps(ss, steps, i - 1);
      StepKeeps(ss[i - 1], steps[i - 1], ss[i]);
    }
  }

  /** From its capture on, until it is given up or swapped in, a compaction is the one in
      progress, and replaces the files of that moment. */
  lemma {:induction false} CopyingOn(ss: seq<Storage>, steps: seq<Step>, i: nat, j: nat)
    requires Run(ss, steps) && i < j <= |steps| && steps[i].Capture? && forall k :: i < k < j ==> !steps[k].Abort? && !steps[k].Swap?
    ensures ss[j].comp.Some? && ss[j].comp.value.stale == ss[i].live - {ss[i].active} && ss[j].comp.value.last == steps[i].last
    ensures forall key <- ss[j].live :: key in ss[i].live || !key.snap || key == FileKey(true, steps[i].last)
    decreases j
  {
    hide SnapFrames, Repointed, Hydrate;
    if i < j - 1 {
      CopyingOn(ss, steps, i, j - 1);
    }
    assert Does(ss[j - 1], steps[j - 1], ss[j]);
  }

  /** A compaction that is swapped in frees what it replaces: of the files there were when it
      was captured only the active one is left, and its snapshot is the only one. */
  lemma SwapFrees(ss: seq<Storage>, steps: seq<Step>, i: nat, j: nat)
    requires Run(ss, steps) && i < j < |steps| && steps[i].Capture? && steps[j].Swap?
    requires forall k :: i < k < j ==> !steps[k].Abort? && !steps[k].Swap?
    ensures forall key <- ss[i].live :: key in ss[j + 1].live ==> key == ss[i].active
    ensures forall key <- ss[j + 1].live :: key.snap ==> key == FileKey(true, steps[i].last)
    ensures FileKey(true, steps[i].last) in ss[j + 1].live
  {
    RunKeeps(ss, steps, i);
    RunKeeps(ss, steps, j);
    CopyingOn(ss, steps, i, j);
    assert Does(ss[j], steps[j], ss[j + 1]);
    assert !ss[i].active.snap;
    hide Repointed, Run;
  }

  /** Compaction without the lock: in every reachable state, reading any live record back
      from the files that exist gives exactly that record. */
  lemma RunHydrates(ss: seq<Storage>, steps: seq<Step>, i: nat, id: Text)
    requires Run(ss, steps) && i < |ss| && id in ss[i].items
    ensures var s, st := ss[i], ss[i].items[id];
            Exist(st.refs, s.live) && Hydrate(s.frames, Meta(st.full), st.refs) == Some(st.full)
  {
    hide Run, Hydrate;
    RunKeeps(ss, steps, i);
    var st := ss[i].items[id];
    assert ItemOk(st, id, ss[i].seqNo, ss[i].frames, ss[i].live);
    ResolvedHydrates(ss[i].frames, st.refs, st.full, Meta(st.full));
  }
}
