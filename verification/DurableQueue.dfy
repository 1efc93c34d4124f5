/** The durable store: the queue of Store, logged and recovered by Wal. Every call is one
    log entry; every run of calls, fsyncs, rotations and compactions, cut short by any
    crash, recovers to the queue as it was after some entry, no earlier than what was
    vouched for. */
module DurableQueue {
  import opened Records
  import opened RecordCodec
  import opened Entries
  import opened Frames
  import opened Queues
  import SnapshotCodec
  import opened Recovery
  import opened Wal

  datatype Options = Options(crc: Checksum, maxEntry: nat, failOnTruncation: bool)

  predicate OptionsOk(o: Options) { 1024 <= o.maxEntry && o.maxEntry + FRAME_META < TWO_32 }

  // ---- the store's log format ----

  function Parts(o: Options): Format<Queue, Entry> {
    Format(
      o.crc, o.maxEntry,
      n => PutHeader(o.crc, WAL_MAGIC, n),
      x => PutFrame(o.crc, x),
      b => GetHeader(o.crc, b, WAL_MAGIC),
      b => GetFrames(o.crc, b, o.maxEntry),
      (b: Bytes, next: nat) => MayRepair(o.crc, o.maxEntry, o.failOnTruncation, b, next),
      (x, n, last, q, lsn) => Refused,
      TypeOf, PutEntry, EntryOk,
      (x: Frame) => GetEntry(x.typ, x.body),
      NormEntry, Replay, EMPTY,
      (lsn, fs) => SnapshotCodec.LoadFrames(fs, EMPTY, 0),
      EndReplay)
  }

  function LogFormat(o: Options): Format<Queue, Entry> {
    Parts(o).(segment := (x: File, n: nat, last: bool, q: Queue, lsn: nat) => ReplaySegment(Parts(o), x, n, last, q, lsn))
  }

  /** Queues that recovery can produce. */
  predicate Recovered(q: Queue) {
    forall id <- q.items :: RecoveredItem(q.items[id])
  }

  predicate RecoveredItem(it: Item) {
    NormItem(it) == it && (it.rec.state != Leased ==> Free(it) == it)
  }

  function StoreModel(o: Options): Model<Queue, Entry> {
    Model(LogFormat(o), q => View(true, q), q => Recovered(q))
  }

  // ---- it meets what the protocol asks of a format ----

  lemma {:induction false} SameFrames(o: Options, fs: seq<Frame>, next: nat, q: Queue, lsn: nat)
    ensures ApplyFrames(Parts(o), fs, next, q, lsn) == ApplyFrames(LogFormat(o), fs, next, q, lsn)
    decreases |fs|
  {
    if fs != [] {
      SameFrames(o, fs[1..], next, q, lsn);
      var e := LogFormat(o).dec(fs[0]);
      if e.Some? {
        SameFrames(o, fs[1..], next + 1, LogFormat(o).step(q, e.value), lsn);
      }
    }
  }

  lemma SameSegment(o: Options, x: File, n: nat, last: bool, q: Queue, lsn: nat)
    ensures SegmentOk(LogFormat(o), x, n, last, q, lsn)
  {
    if |x.bytes| >= HEADER_SIZE {
      var body := x.bytes[HEADER_SIZE..];
      SameFrames(o, GetFrames(o.crc, body, o.maxEntry).items, n, q, lsn);
    }
  }

  lemma FormatDecodes(o: Options)
    requires OptionsOk(o)
    ensures Decodes(LogFormat(o))
  {
    var f := LogFormat(o);
    forall e: Entry, lsn: nat ensures ReadsBack(f, e, lsn) {
      if Fits(f, e) {
        EntryRoundTrip(e);
      }
    }
    forall x: File, n: nat, last: bool, q: Queue, lsn: nat ensures SegmentOk(f, x, n, last, q, lsn) {
      SameSegment(o, x, n, last, q, lsn);
    }
  }

  lemma ViewTwice(q: Queue)
    ensures View(true, View(true, q)) == View(true, q)
  {
    var v := View(true, q);
    forall id <- q.items ensures ViewItem(true, v.items[id]) == v.items[id] {
      ViewItemTwice(q.items[id]);
    }
    assert View(true, v).items == v.items;
  }

  lemma ViewItemTwice(it: Item)
    ensures ViewItem(true, ViewItem(true, it)) == ViewItem(true, it) && RecoveredItem(ViewItem(true, it))
  {
  }

  lemma ViewRecovered(q: Queue)
    ensures Recovered(View(true, q))
  {
    forall id <- q.items ensures RecoveredItem(View(true, q).items[id]) {
      ViewItemTwice(q.items[id]);
    }
  }

  lemma RecoveredEnds(q: Queue)
    requires Recovered(q)
    ensures EndReplay(q) == View(true, q)
  {
    forall id <- q.items ensures EndReplay(q).items[id] == View(true, q).items[id] {
      assert RecoveredItem(q.items[id]);
    }
    assert EndReplay(q).items == View(true, q).items;
  }

  // ---- replaying keeps queues recoverable ----

  lemma SetRecovered(q: Queue, id: Text, it: Item)
    requires Recovered(q) && RecoveredItem(it)
    ensures Recovered(Set(q, id, it))
  {
    hide RecoveredItem;
  }

  lemma SteppedRecovered(it: Item, e: Entry)
    requires RecoveredItem(it) && !e.Append? && !e.Lease? && (e.Requeue? ==> it.rec.state != Leased)
    ensures RecoveredItem(Stepped(it, NormEntry(e)))
  {
  }

  lemma {:induction false} LeasesRecovered(q: Queue, ids: seq<Text>)
    requires Recovered(q)
    ensures Recovered(ReplayLeases(q, ids))
  {
    if ids != [] {
      var n := |ids| - 1;
      LeasesRecovered(q, ids[..n]);
      var r := ReplayLeases(q, ids[..n]);
      if ids[n] in r.items {
        SetRecovered(r, ids[n], Leasing(r.items[ids[n]]));
      }
    }
  }

  lemma ReplayRecovered(q: Queue, e: Entry)
    requires Recovered(q)
    ensures Recovered(Replay(q, NormEntry(e)))
  {
    match e
    case Append(rec) => SetRecovered(q, rec.id, Item(NormRecord(rec), None, ZERO_TIME));
    case Lease(ids) => LeasesRecovered(q, ids);
    case _ =>
      if e.id in q.items {
        var it := q.items[e.id];
        if !e.Requeue? || it.rec.state == Parked {
          SteppedRecovered(it, e);
          SetRecovered(q, e.id, Stepped(it, NormEntry(e)));
        }
      }
  }

  /** The store's format is one the protocol's theorems apply to. */
  lemma StoreLawful(o: Options)
    requires OptionsOk(o)
    ensures Lawful(StoreModel(o))
  {
    hide Decodes, View, Recovered, Replay, NormEntry, EndReplay;
    var m := StoreModel(o);
    FormatDecodes(o);
    forall a: Queue, b: Queue, e: Entry ensures SameAfter(m, a, b, e) {
      if m.view(a) == m.view(b) {
        ReplayView(true, a, b, e, NormEntry(e));
      }
    }
    forall q: Queue, e: Entry ensures GoodAfter(m, q, e) {
      if m.good(q) {
        ReplayRecovered(q, e);
      }
    }
    forall q: Queue ensures m.good(q) ==> m.f.finish(q) == m.view(q) {
      if m.good(q) {
        RecoveredEnds(q);
      }
    }
    forall q: Queue ensures m.view(m.view(q)) == m.view(q) {
      ViewTwice(q);
    }
    EmptyRecovered();
  }

  lemma EmptyRecovered()
    ensures Recovered(EMPTY)
  {
  }
}
