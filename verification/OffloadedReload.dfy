/** Recovery with payloads on disk (insertRecord, setCheckpointAt, replayCheckpoint and
    replayRequeue in dlq/wal_store.go): memory gets every record without its payload, and
    references that lead to it. */
module OffloadedReload {
  import opened Records
  import opened RecordCodec
  import opened Entries
  import opened Folds
  import opened Queues
  import opened SnapshotCodec
  import opened MachineIndex
  import opened Machine
  import opened Blobs
  import opened Reload
  import Recovery
  import WalCrash
  import DurableQueue
  import DurableStore

  function BareItem(it: Item): Item { it.(rec := Meta(it.rec)) }

  /** The queue without payloads. */
  function Bare(q: Queue): Queue { MapItems(BareItem, q) }

  // ---- replay commutes with leaving payloads out ----

  lemma BareSet(q: Queue, id: Text, it: Item)
    ensures Bare(Set(q, id, it)) == Set(Bare(q), id, BareItem(it))
  {
    hide BareItem;
    SameMaps(Bare(Set(q, id, it)).items, Bare(q).items[id := BareItem(it)]);
  }

  lemma BareRemove(q: Queue, id: Text)
    ensures Bare(Remove(q, id)) == Remove(Bare(q), id)
  {
    hide BareItem;
    SameMaps(Bare(Remove(q, id)).items, Bare(q).items - {id});
  }

  lemma BareInsert(q: Queue, rec: Record)
    ensures Bare(Insert(q, rec)) == Insert(Bare(q), Meta(rec))
  {
    if rec.id !in q.items {
      var it := Item(rec, None, ZERO_TIME);
      hide Bare, Meta;
      BareSet(q, rec.id, it);
    }
  }

  lemma {:induction false} BareLeases(q: Queue, ids: seq<Text>)
    ensures Bare(ReplayLeases(q, ids)) == ReplayLeases(Bare(q), ids)
  {
    if ids != [] {
      var q', id := ReplayLeases(q, ids[..|ids| - 1]), ids[|ids| - 1];
      BareLeases(q, ids[..|ids| - 1]);
      if id in q'.items {
        BareSet(q', id, Leasing(q'.items[id]));
      }
    }
  }

  lemma BareStepped(it: Item, e: Entry)
    ensures BareItem(Stepped(it, e)) == Stepped(BareItem(it), MetaEntry(e))
  {
  }

  lemma BareOne(q: Queue, id: Text, e: Entry)
    ensures Bare(ReplayOne(q, id, e)) == ReplayOne(Bare(q), id, MetaEntry(e))
  {
    hide Stepped;
    if id in q.items {
      var it := q.items[id];
      BareStepped(it, e);
      assert Bare(q).items[id] == BareItem(it) && BareItem(it).rec.state == it.rec.state;
      hide Bare, BareItem;
      BareSet(q, id, Stepped(it, e));
      BareRemove(q, id);
    }
  }

  lemma BareReplay(q: Queue, e: Entry)
    ensures Bare(Replay(q, e)) == Replay(Bare(q), MetaEntry(e))
  {
    hide Bare, ReplayOne, Insert, ReplayLeases;
    match e
    case Append(rec) => BareInsert(q, rec);
    case Lease(ids) => BareLeases(q, ids);
    case _ => BareOne(q, e.id, e);
  }

  lemma BareEndReplay(q: Queue)
    ensures Bare(EndReplay(q)) == EndReplay(Bare(q))
  {
    SameMaps(Bare(EndReplay(q)).items, EndReplay(Bare(q)).items);
  }

  /** loadSnapshot's loop. */
  method Refill(m: Machine, recs: seq<Record>)
    requires Listed(recs) && m.Valid() && m.offload && m.Abs() == EMPTY
    modifies m
    ensures m.Valid() && m.Abs() == Bare(Fold(Insert, EMPTY, recs))
  {
    hide Bare, Insert;
    BareEmpty();
    assert recs[..0] == [];
    for i := 0 to |recs|
      invariant m.Valid() && m.Abs() == Bare(Fold(Insert, EMPTY, recs[..i]))
    {
      ghost var q := Fold(Insert, EMPTY, recs[..i]);
      LoadedUpTo(recs, i);
      assert recs[..i + 1][..i] == recs[..i] && recs[i] in recs;
      assert i > 0 ==> recs[i - 1].seqNo < recs[i].seqNo;
      BareNumber(q);
      BareInsert(q, recs[i]);
      m.InsertOffloaded(recs[i]);
    }
    assert recs[..|recs|] == recs;
  }

  /** The entries after the snapshot. */
  method Redo(m: Machine, ghost q: Queue, es: seq<Entry>)
    requires Rising(q, es) && m.Valid() && m.offload && m.Abs() == Bare(q)
    modifies m
    ensures m.Valid() && m.Abs() == Bare(ReplayAll(q, es))
  {
    hide Bare, Replay;
    assert es[..0] == [];
    for i := 0 to |es|
      invariant m.Valid() && m.Abs() == Bare(ReplayAll(q, es[..i]))
    {
      assert es[..i + 1][..i] == es[..i];
      BareNumber(ReplayAll(q, es[..i]));
      BareReplay(ReplayAll(q, es[..i]), es[i]);
      m.ApplyOffloaded(es[i]);
    }
    assert es[..|es|] == es;
  }

  /** What opening a log does to the machine when payloads stay on disk: the queue that
      Reload.Restore holds but for its payloads, with an exact index. */
  method Restore(lim: Limits, recs: seq<Record>, top: nat, es: seq<Entry>) returns (m: Machine)
    requires Listed(recs) && Rising(Loaded(recs, top), es)
    ensures fresh(m) && m.Valid() && m.offload && m.Abs() == Bare(EndReplay(ReplayAll(Loaded(recs, top), es)))
  {
    hide Bare, EndReplay, Replay, Insert, ReplayAll, Rising, Listed, Fold;
    m := new Machine(lim, true);
    Refill(m, recs);
    BareNumber(Fold(Insert, EMPTY, recs));
    BareRaised(Fold(Insert, EMPTY, recs), top);
    m.Raise(top);
    Redo(m, Loaded(recs, top), es);
    BareEndReplay(ReplayAll(Loaded(recs, top), es));
    m.EndReplay();
  }

  lemma BareEmpty()
    ensures Bare(EMPTY) == EMPTY
  {
    SameMaps(Bare(EMPTY).items, EMPTY.items);
  }

  lemma BareNumber(q: Queue)
    ensures Bare(q).seqNo == q.seqNo && Bare(q).items.Keys == q.items.Keys
  {
  }

  lemma BareRaised(q: Queue, top: nat)
    ensures Bare(q.(seqNo := top)) == Bare(q).(seqNo := top)
  {
  }

  /** Opening after any crash of any run, with payloads on disk, leaves a machine with an exact
      index that holds the recovered queue but for its payloads. */
  method Reopen(lim: Limits, read: seq<Record>, top: nat, es: seq<Entry>, ghost o: DurableQueue.Options,
      ghost ns: seq<DurableStore.Node>, ghost mvs: seq<DurableStore.Move>, ghost i: nat, ghost w: WalCrash.Wreck<Entry>,
      ghost k: nat, ghost recs: seq<Record>) returns (m: Machine)
    requires DurableQueue.OptionsOk(o) && DurableStore.Run(o, ns, mvs) && i < |ns|
    requires WalCrash.WreckOk(DurableQueue.LogFormat(o), ns[i].s, w)
    requires var n := WalCrash.Reach(DurableQueue.LogFormat(o), w);
             && k <= n <= |ns[i].s.log| && k < |ns[i].s.hist| && Lists(ns[i].s.hist[k], recs)
             && read == MapSeq(NormRecord, recs) && top == ns[i].s.hist[k].seqNo && es == Reads(ns[i].s.log, k, n)
    ensures var f := DurableQueue.LogFormat(o);
            var r := Recovery.Recover(f, WalCrash.DiskAfter(f, w));
            fresh(m) && m.Valid() && m.offload && (r.Some? ==> m.Abs() == Bare(r.value.0))
  {
    hide DurableStore.Run, WalCrash.WreckOk, WalCrash.Reach, WalCrash.DiskAfter, Recovery.Recover, View, Loaded, Listed;
    hide Rising, EndReplay, Lists, Reads, Bare;
    DurableStore.RunCrashSafe(o, ns, mvs, i, w);
    RunReloads(o, ns, mvs, i, k, recs, WalCrash.Reach(DurableQueue.LogFormat(o), w));
    m := Restore(lim, read, top, es);
  }

  // ---- the references ----

  /** What the frame of an entry, or of a snapshot's record, holds. */
  function BlobOf(e: Entry): Option<Blob> {
    match e
    case Append(rec) => Some(Whole(rec))
    case Checkpoint(id, cp) => Some(Progress(id, cp))
    case Requeue(id, Some(cp)) => Some(Progress(id, cp))
    case _ => None
  }

  function CheckpointRef(cp: Option<Bytes>, at: Ref): Option<Ref> { if cp.Some? then Some(at) else None }

  /** The references after an entry whose frame is at this place. */
  function Point(q: Queue, refs: map<Text, Refs>, e: Entry, at: Ref): map<Text, Refs> {
    match e
    case Append(rec) =>
      if rec.id in q.items then refs else refs[rec.id := Refs(Some(at), CheckpointRef(rec.checkpoint, at))]
    case Checkpoint(id, cp) =>
      if id in q.items && id in refs then refs[id := refs[id].(ckpt := CheckpointRef(cp, at))] else refs
    case Requeue(id, Some(cp)) =>
      if id in q.items && id in refs && q.items[id].rec.state == Parked
      then refs[id := refs[id].(ckpt := CheckpointRef(cp, at))] else refs
    case _ => refs
  }

  /** The references after all of them. */
  function PointAll(q: Queue, refs: map<Text, Refs>, es: seq<Entry>, ats: seq<Ref>): map<Text, Refs>
    requires |es| == |ats|
  {
    if es == [] then refs
    else
      var n := |es| - 1;
      Point(ReplayAll(q, es[..n]), PointAll(q, refs, es[..n], ats[..n]), es[n], ats[n])
  }

  /** Every stored record's references lead to its payload. */
  ghost predicate AllResolve(fs: Blobs.Frames, q: Queue, refs: map<Text, Refs>) {
    forall id <- q.items :: id in refs && q.items[id].rec.id == id && Resolves(fs, refs[id], q.items[id].rec)
  }

  ghost predicate Framed(fs: Blobs.Frames, es: seq<Entry>, ats: seq<Ref>) {
    |es| == |ats| && forall i :: 0 <= i < |es| && BlobOf(es[i]).Some? ==> ats[i] in fs && fs[ats[i]] == BlobOf(es[i]).value
  }

  lemma {:induction false} LeasesResolve(fs: Blobs.Frames, q: Queue, refs: map<Text, Refs>, ids: seq<Text>)
    requires AllResolve(fs, q, refs)
    ensures AllResolve(fs, ReplayLeases(q, ids), refs)
  {
    if ids != [] {
      LeasesResolve(fs, q, refs, ids[..|ids| - 1]);
    }
  }

  lemma SteppedResolves(fs: Blobs.Frames, refs: Refs, it: Item, e: Entry, at: Ref)
    requires Resolves(fs, refs, it.rec) && !e.Append? && !e.Lease? && e.id == it.rec.id
    requires BlobOf(e).Some? ==> at in fs && fs[at] == BlobOf(e).value
    ensures var cp := if e.Checkpoint? then Some(e.cp) else if e.Requeue? then e.replace else None;
            Resolves(fs, if cp.Some? then refs.(ckpt := CheckpointRef(cp.value, at)) else refs, Stepped(it, e).rec)
  {
  }

  lemma SteppedId(it: Item, e: Entry)
    ensures Stepped(it, e).rec.id == it.rec.id
  {
  }

  /** Replaying an entry keeps every reference leading to its payload. */
  lemma ReplayResolves(fs: Blobs.Frames, q: Queue, refs: map<Text, Refs>, e: Entry, at: Ref)
    requires AllResolve(fs, q, refs) && (BlobOf(e).Some? ==> at in fs && fs[at] == BlobOf(e).value)
    ensures AllResolve(fs, Replay(q, e), Point(q, refs, e, at))
  {
    match e
    case Append(rec) =>
    case Lease(ids) => LeasesResolve(fs, q, refs, ids);
    case _ =>
      if e.id in q.items {
        SteppedResolves(fs, refs[e.id], q.items[e.id], e, at);
        hide Resolves, Stepped, CheckpointRef;
        assert Stepped(q.items[e.id], e).rec.id == e.id by {
          SteppedId(q.items[e.id], e);
        }
      }
  }

  lemma {:induction false} ReplayAllResolves(
    fs: Blobs.Frames, q: Queue, refs: map<Text, Refs>, es: seq<Entry>, ats: seq<Ref>)
    requires AllResolve(fs, q, refs) && Framed(fs, es, ats)
    ensures AllResolve(fs, ReplayAll(q, es), PointAll(q, refs, es, ats))
    decreases |es|
  {
    hide AllResolve, Point, Replay, BlobOf;
    if es != [] {
      var n := |es| - 1;
      ReplayAllResolves(fs, q, refs, es[..n], ats[..n]);
      ReplayResolves(fs, ReplayAll(q, es[..n]), PointAll(q, refs, es[..n], ats[..n]), es[n], ats[n]);
    }
  }

  function Appended(rec: Record): Entry { Append(rec) }

  /** Loading a snapshot's records is appending them. */
  lemma {:induction false} LoadAppends(q: Queue, recs: seq<Record>)
    ensures Fold(Insert, q, recs) == ReplayAll(q, MapSeq(Appended, recs))
    decreases |recs|
  {
    hide Insert;
    if recs != [] {
      var n, es := |recs| - 1, MapSeq(Appended, recs);
      LoadAppends(q, recs[..n]);
      assert es[..n] == MapSeq(Appended, recs[..n]) && es[n] == Append(recs[n]);
    }
  }

  /** The references recovery builds: a snapshot's records at these places, then entries. */
  function Rebuilt(recs: seq<Record>, ats: seq<Ref>, top: nat, es: seq<Entry>, bts: seq<Ref>): map<Text, Refs>
    requires |recs| == |ats| && |es| == |bts|
  {
    PointAll(Loaded(recs, top), PointAll(EMPTY, map[], MapSeq(Appended, recs), ats), es, bts)
  }

  lemma SettledResolves(fs: Blobs.Frames, q: Queue, refs: map<Text, Refs>)
    requires AllResolve(fs, q, refs)
    ensures AllResolve(fs, EndReplay(q), refs)
  {
  }

  /** Recovery rebuilds references that resolve: whatever snapshot and entries it reads, each
      record in the recovered queue hydrates, from its metadata and references, to itself. */
  lemma RecoveryHydrates(fs: Blobs.Frames, recs: seq<Record>, ats: seq<Ref>, top: nat, es: seq<Entry>, bts: seq<Ref>, id: Text)
    requires Framed(fs, MapSeq(Appended, recs), ats) && Framed(fs, es, bts)
    requires id in EndReplay(ReplayAll(Loaded(recs, top), es)).items
    ensures var full, refs := EndReplay(ReplayAll(Loaded(recs, top), es)).items[id].rec, Rebuilt(recs, ats, top, es, bts);
            id in refs && Hydrate(fs, Meta(full), refs[id]) == Some(full)
  {
    hide EndReplay, ReplayAll, Resolves, Hydrate, PointAll, BlobOf;
    var q, refs := Loaded(recs, top), PointAll(EMPTY, map[], MapSeq(Appended, recs), ats);
    ReplayAllResolves(fs, EMPTY, map[], MapSeq(Appended, recs), ats);
    LoadAppends(EMPTY, recs);
    assert AllResolve(fs, q, refs);
    ReplayAllResolves(fs, q, refs, es, bts);
    SettledResolves(fs, ReplayAll(q, es), Rebuilt(recs, ats, top, es, bts));
    var full := EndReplay(ReplayAll(q, es)).items[id].rec;
    ResolvedHydrates(fs, Rebuilt(recs, ats, top, es, bts)[id], full, Meta(full));
  }
}
