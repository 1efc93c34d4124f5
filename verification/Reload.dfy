/** Recovery into the indexed machine (loadSnapshot, applyEntry and endReplay on the machine
    of dlq/machine.go). A log numbers its records upwards, so the machine's lists stay in
    arrival order while they are refilled; what comes out is the recovered queue with an
    exact index, and the index is determined by the queue. */
module Reload {
  import opened Records
  import opened RecordCodec
  import opened Entries
  import opened Folds
  import opened Queues
  import Store
  import opened SnapshotCodec
  import opened MachineIndex
  import opened Machine
  import Recovery
  import Wal
  import WalCrash
  import WalReopen
  import DurableQueue
  import DurableStore

  /** The records of a snapshot as read: oldest first, numbered from 1 on, each once. */
  ghost predicate Listed(recs: seq<Record>) {
    && (forall r <- recs :: 0 < r.seqNo)
    && (forall i, j :: 0 <= i < j < |recs| ==> recs[i].seqNo < recs[j].seqNo && recs[i].id != recs[j].id)
  }

  /** Every appended record has a higher number than all before it. */
  ghost predicate Rising(q: Queue, es: seq<Entry>) {
    forall k :: 0 <= k < |es| && es[k].Append? ==> ReplayAll(q, es[..k]).seqNo < es[k].rec.seqNo
  }

  /** loadSnapshot, on the queue. */
  function Loaded(recs: seq<Record>, top: nat): Queue {
    var q := Fold(Insert, EMPTY, recs);
    if top > q.seqNo then q.(seqNo := top) else q
  }

  lemma {:induction false} LoadedUpTo(recs: seq<Record>, i: nat)
    requires Listed(recs) && i <= |recs|
    ensures var q := Fold(Insert, EMPTY, recs[..i]);
            && q.seqNo == (if i == 0 then 0 else recs[i - 1].seqNo)
            && (forall id <- q.items :: exists k :: 0 <= k < i && recs[k].id == id)
  {
    if i > 0 {
      LoadedUpTo(recs, i - 1);
      assert recs[..i][..i - 1] == recs[..i - 1];
      var q, r := Fold(Insert, EMPTY, recs[..i - 1]), recs[i - 1];
      assert Fold(Insert, EMPTY, recs[..i]) == Insert(q, r);
      assert r in recs && r.id !in q.items;
      assert i > 1 ==> recs[i - 2].seqNo < r.seqNo;
    }
  }

  /** What opening a log does to the machine: the snapshot's records, the entries after it,
      and leases handed back. */
  method Restore(lim: Limits, recs: seq<Record>, top: nat, es: seq<Entry>) returns (m: Machine)
    requires Listed(recs) && Rising(Loaded(recs, top), es)
    ensures fresh(m) && m.Valid() && !m.offload && m.Abs() == EndReplay(ReplayAll(Loaded(recs, top), es))
  {
    m := new Machine(lim, false);
    assert recs[..0] == [];
    for i := 0 to |recs|
      invariant m.Valid() && m.Abs() == Fold(Insert, EMPTY, recs[..i])
    {
      LoadedUpTo(recs, i);
      assert recs[..i + 1][..i] == recs[..i];
      assert i > 0 ==> recs[i - 1].seqNo < recs[i].seqNo;
      assert recs[i] in recs;
      m.Insert(recs[i]);
    }
    assert recs[..|recs|] == recs && es[..0] == [];
    m.Raise(top);
    for i := 0 to |es|
      invariant m.Valid() && m.Abs() == ReplayAll(Loaded(recs, top), es[..i])
    {
      assert es[..i + 1][..i] == es[..i];
      m.ApplyEntry(es[i]);
    }
    assert es[..|es|] == es;
    m.EndReplay();
  }

  // ---- a log numbers its records ----

  ghost predicate Numbered(q: Queue) { forall id <- q.items :: 0 < q.items[id].rec.seqNo }

  ghost predicate Counted(log: seq<Entry>, hist: seq<Queue>) {
    && |hist| == |log| + 1 && (forall q <- hist :: Numbered(q))
    && (forall k :: 0 <= k < |log| && log[k].Append? ==> log[k].rec.seqNo == hist[k].seqNo + 1)
  }

  lemma CallNumbers(w: Store.World, c: Store.Call, w': Store.World)
    requires Store.Step(w, c, w') && Numbered(w.q)
    ensures Numbered(w'.q)
  {
    hide Store.Step;
    forall id <- w'.q.items ensures 0 < w'.q.items[id].rec.seqNo {
      Store.StepRecords(w, c, w', id);
    }
  }

  lemma CallCounts(o: DurableQueue.Options, n: DurableStore.Node, c: Store.Call, n': DurableStore.Node)
    requires DurableStore.NodeInv(o, n) && Counted(n.s.log, n.s.hist) && Store.Step(n.w, c, n'.w)
    requires DurableStore.Logs(DurableQueue.LogFormat(o), n.s, Store.EntryOf(c), n'.w.q, n'.s)
    ensures Counted(n'.s.log, n'.s.hist)
  {
    hide Wal.Inv, Store.Perform, Store.Sound, Numbered;
    var log := n.s.log;
    assert n.s.hist[|log|] == n.w.q && n.w.q in n.s.hist;
    CallNumbers(n.w, c, n'.w);
    forall k | 0 <= k < |n'.s.log| && n'.s.log[k].Append? ensures n'.s.log[k].rec.seqNo == n'.s.hist[k].seqNo + 1 {
      if k == |log| {
        assert c.AppendCall?;
      }
    }
  }

  lemma CutCounts(log: seq<Entry>, hist: seq<Queue>, n: nat)
    requires Counted(log, hist) && n <= |log|
    ensures Counted(log[..n], hist[..n] + [View(true, hist[n])])
  {
    assert Numbered(hist[n]);
  }

  lemma CrashCounts(o: DurableQueue.Options, n: DurableStore.Node, x: WalReopen.Ending<Entry>, n': DurableStore.Node)
    requires DurableQueue.OptionsOk(o) && DurableStore.NodeInv(o, n) && Counted(n.s.log, n.s.hist)
    requires DurableStore.Crash(o, n, x, n')
    ensures Counted(n'.s.log, n'.s.hist)
  {
    hide Wal.Inv, Store.Sound, Counted, WalCrash.Reach, WalCrash.DiskAfter, WalReopen.EndingOk, View, DurableQueue.LogFormat;
    hide Recovery.Recover, DurableStore.Faithful;
    var m, k := DurableQueue.StoreModel(o), |n'.s.log|;
    DurableQueue.StoreLawful(o);
    DurableStore.EndingWreck(m.f, n.s, x);
    WalCrash.CrashSafe(m, n.s, x.w);
    assert n'.s.log == n.s.log[..k] && n'.s.hist == n.s.hist[..k] + [View(true, n.s.hist[k])];
    CutCounts(n.s.log, n.s.hist, k);
  }

  lemma NextCounts(o: DurableQueue.Options, n: DurableStore.Node, mv: DurableStore.Move, n': DurableStore.Node)
    requires DurableQueue.OptionsOk(o) && DurableStore.NodeInv(o, n) && Counted(n.s.log, n.s.hist)
    requires DurableStore.Next(o, n, mv, n')
    ensures Counted(n'.s.log, n'.s.hist)
  {
    hide DurableStore.NodeInv, Counted, DurableStore.Capture, DurableStore.Crash, Wal.Step, Store.Step, Store.Check;
    hide DurableStore.Logs;
    match mv
    case Called(c, original) =>
      match Store.Check(n.w.q, c) {
        case Done => CallCounts(o, n, c, n');
        case Duplicate => DurableStore.VouchSame(n.s, original, n'.s);
        case _ =>
      }
    case Captured(recs) => DurableStore.CaptureSame(o, n, recs, n');
    case Worked(a) => DurableStore.WorkSame(DurableQueue.StoreModel(o), n.s, a, n'.s);
    case Crashed(x) => CrashCounts(o, n, x, n');
  }

  lemma {:induction false} RunCounts(o: DurableQueue.Options, ns: seq<DurableStore.Node>, mvs: seq<DurableStore.Move>, i: nat)
    requires DurableQueue.OptionsOk(o) && DurableStore.Run(o, ns, mvs) && i < |ns|
    ensures Counted(ns[i].s.log, ns[i].s.hist)
  {
    hide DurableStore.Next, DurableStore.NodeInv;
    if i > 0 {
      hide Counted;
      DurableStore.RunKeeps(o, ns, mvs, i - 1);
      RunCounts(o, ns, mvs, i - 1);
      NextCounts(o, ns[i - 1], mvs[i - 1], ns[i]);
    }
  }

  /** What the log holds from entry k to entry j, as it is read. */
  ghost function Reads(log: seq<Entry>, k: nat, j: nat): seq<Entry>
    requires k <= j <= |log|
  {
    MapSeq(NormEntry, WalCrash.Slice(log, k, j))
  }

  /** The entries after a snapshot bring the machine from there to the live queue. */
  lemma ReadsReplay(o: DurableQueue.Options, s: Wal.Wal<Queue, Entry>, k: nat, j: nat, q: Queue)
    requires DurableQueue.OptionsOk(o) && Wal.Inv(DurableQueue.StoreModel(o), s) && k <= j <= |s.log|
    requires View(true, q) == View(true, s.hist[k]) && DurableQueue.Recovered(q)
    ensures EndReplay(ReplayAll(q, Reads(s.log, k, j))) == View(true, s.hist[j])
    ensures View(true, ReplayAll(q, Reads(s.log, k, j))) == View(true, s.hist[j])
  {
    hide View, EndReplay, Replay, DurableQueue.Recovered, Wal.Chained, Wal.Synced, Wal.Counters, Wal.Snapshots, Wal.Loose;
    DurableQueue.StoreLawful(o);
    hide Wal.Lawful;
    WalCrash.HistoryReplays(DurableQueue.StoreModel(o), s.log, s.hist, q, k, j);
  }

  lemma ReadsRise(o: DurableQueue.Options, s: Wal.Wal<Queue, Entry>, k: nat, j: nat, q: Queue)
    requires DurableQueue.OptionsOk(o) && Wal.Inv(DurableQueue.StoreModel(o), s) && k <= j <= |s.log|
    requires View(true, q) == View(true, s.hist[k]) && DurableQueue.Recovered(q) && Counted(s.log, s.hist)
    ensures Rising(q, Reads(s.log, k, j))
  {
    hide View, Replay, DurableQueue.Recovered, Wal.Inv, Fold;
    var es := Reads(s.log, k, j);
    forall x | 0 <= x < |es| && es[x].Append? ensures ReplayAll(q, es[..x]).seqNo < es[x].rec.seqNo {
      assert es[..x] == Reads(s.log, k, k + x);
      ReadsReplay(o, s, k, k + x, q);
      SameNumber(ReplayAll(q, es[..x]), s.hist[k + x]);
      NormNumber(s.log[k + x]);
    }
  }

  lemma SameNumber(a: Queue, b: Queue)
    requires View(true, a) == View(true, b)
    ensures a.seqNo == b.seqNo
  {
  }

  lemma NormNumber(e: Entry)
    ensures NormEntry(e).Append? <==> e.Append?
    ensures e.Append? ==> NormEntry(e).rec.seqNo == e.rec.seqNo
  {
  }

  // ---- snapshots ----

  lemma {:induction false} LoadAllFolds(q: Queue, recs: seq<Record>)
    ensures LoadAll(q, recs) == Fold(Insert, q, MapSeq(NormRecord, recs))
    decreases |recs|
  {
    hide Insert, NormRecord;
    if recs != [] {
      var rs := MapSeq(NormRecord, recs);
      LoadAllFolds(Insert(q, NormRecord(recs[0])), recs[1..]);
      assert rs[1..] == MapSeq(NormRecord, recs[1..]);
      FoldCons(Insert, q, rs);
    }
  }

  lemma ListedRead(q: Queue, recs: seq<Record>)
    requires Numbered(q) && Lists(q, recs) && DistinctIds(EMPTY, recs)
    ensures Listed(MapSeq(NormRecord, recs))
  {
    hide NormRecord;
    var read := MapSeq(NormRecord, recs);
    forall i | 0 <= i < |recs| ensures read[i].id == recs[i].id && read[i].seqNo == recs[i].seqNo && 0 < recs[i].seqNo {
      NormKeepsId(recs[i]);
      assert recs[i] in recs;
    }
  }

  /** A snapshot's records load to the queue they were taken of. */
  lemma SnapshotReady(q: Queue, recs: seq<Record>)
    requires Wf(q) && Numbered(q) && Lists(q, recs)
    ensures Listed(MapSeq(NormRecord, recs)) && Loaded(MapSeq(NormRecord, recs), q.seqNo) == View(true, q)
  {
    hide NormRecord, View, Insert, Wf, LoadAll, Listed, Lists, DistinctIds, Numbered;
    ListsDistinct(q, recs);
    ListedRead(q, recs);
    LoadAllFolds(EMPTY, recs);
    LoadAllHolds(q, [], recs, EMPTY);
    assert [] + recs == recs;
    LoadsView(q, recs, LoadAll(EMPTY, recs));
  }

  /** Over every run: whatever snapshot of the history and however many entries after it are
      read, they are numbered as the machine needs, and lead to the queue of that moment. */
  lemma RunReloads(o: DurableQueue.Options, ns: seq<DurableStore.Node>, mvs: seq<DurableStore.Move>, i: nat,
      k: nat, recs: seq<Record>, j: nat)
    requires DurableQueue.OptionsOk(o) && DurableStore.Run(o, ns, mvs) && i < |ns|
    requires k <= j <= |ns[i].s.log| && k < |ns[i].s.hist| && j < |ns[i].s.hist| && Lists(ns[i].s.hist[k], recs)
    ensures var hist, read, es := ns[i].s.hist, MapSeq(NormRecord, recs), Reads(ns[i].s.log, k, j);
            && Listed(read) && Rising(Loaded(read, hist[k].seqNo), es)
            && EndReplay(ReplayAll(Loaded(read, hist[k].seqNo), es)) == View(true, hist[j])
  {
    hide DurableStore.Run, Wal.Inv, View, Loaded, Listed, Rising, EndReplay, Lists, Store.HeadOfLine, Numbered;
    DurableStore.RunKeeps(o, ns, mvs, i);
    RunCounts(o, ns, mvs, i);
    var s := ns[i].s;
    var q := s.hist[k];
    assert q in s.hist;
    assert Store.Sound(q);
    SnapshotReady(q, recs);
    DurableQueue.ViewTwice(q);
    DurableQueue.ViewRecovered(q);
    ReadsRise(o, s, k, j, View(true, q));
    ReadsReplay(o, s, k, j, View(true, q));
  }

  /** Opening after any crash of any run leaves a machine with an exact index that holds
      the recovered queue: read and es are the snapshot's records and the entries after it
      that are still there. */
  method Reopen(lim: Limits, read: seq<Record>, top: nat, es: seq<Entry>, ghost o: DurableQueue.Options,
      ghost ns: seq<DurableStore.Node>, ghost mvs: seq<DurableStore.Move>, ghost i: nat, ghost w: WalCrash.Wreck<Entry>,
      ghost k: nat, ghost recs: seq<Record>) returns (m: Machine)
    requires DurableQueue.OptionsOk(o) && DurableStore.Run(o, ns, mvs) && i < |ns|
    requires WalCrash.WreckOk(DurableQueue.LogFormat(o), ns[i].s, w)
    requires var n := WalCrash.Reach(DurableQueue.LogFormat(o), w);
             && k <= n <= |ns[i].s.log| && k < |ns[i].s.hist| && Lists(ns[i].s.hist[k], recs)
             && read == MapSeq(NormRecord, recs) && top == ns[i].s.hist[k].seqNo && es == Reads(ns[i].s.log, k, n)
    ensures var f := DurableQueue.LogFormat(o);
            var r := Recovery.Recover(f, WalCrash.DiskAfter(f, w));
            fresh(m) && m.Valid() && (r.Some? ==> r.value.0 == m.Abs())
  {
    hide DurableStore.Run, WalCrash.WreckOk, WalCrash.Reach, WalCrash.DiskAfter, Recovery.Recover, View, Loaded, Listed;
    hide Rising, EndReplay, Lists, Reads;
    DurableStore.RunCrashSafe(o, ns, mvs, i, w);
    RunReloads(o, ns, mvs, i, k, recs, WalCrash.Reach(DurableQueue.LogFormat(o), w));
    m := Restore(lim, read, top, es);
  }

  // ---- the queue determines the index ----

  ghost predicate AboutItems(p: Slot -> bool) { forall s: Slot, s': Slot :: s.it == s'.it ==> p(s) == p(s') }

  lemma SameList(m: Slots, m': Slots, l: seq<Text>, l': seq<Text>, p: Slot -> bool)
    requires ItemsOf(m) == ItemsOf(m') && AboutItems(p) && Exactly(m, l, p) && Exactly(m', l', p)
    ensures l == l'
  {
    forall id ensures id in m <==> id in m' {
      assert id in ItemsOf(m) <==> id in ItemsOf(m');
    }
    forall id <- m ensures m[id].it == m'[id].it {
      assert ItemsOf(m)[id] == ItemsOf(m')[id];
    }
    assert Ascending(m, l');
    OnlyOne(m, l, l');
  }

  lemma SameKeys(m: Slots, m': Slots, byKey: map<Text, seq<Text>>, byKey': map<Text, seq<Text>>)
    requires ItemsOf(m) == ItemsOf(m') && KeysOk(m, byKey) && KeysOk(m', byKey')
    ensures byKey == byKey'
  {
    forall k <- byKey ensures k in byKey' && byKey[k] == byKey'[k] {
      KeyListed(m, m', byKey, byKey', k);
      SameList(m, m', byKey[k], byKey'[k], WithKey(k));
    }
    forall k <- byKey' ensures k in byKey {
      KeyListed(m', m, byKey', byKey, k);
    }
    SameMaps(byKey, byKey');
  }

  lemma KeyListed(m: Slots, m': Slots, byKey: map<Text, seq<Text>>, byKey': map<Text, seq<Text>>, k: Text)
    requires ItemsOf(m) == ItemsOf(m') && KeysOk(m, byKey) && KeysOk(m', byKey') && k in byKey
    ensures k in byKey'
  {
    var id := byKey[k][0];
    assert id in byKey[k] && id in m && m[id].it.rec.orderKey == k;
    assert id in ItemsOf(m) && ItemsOf(m)[id] == ItemsOf(m')[id];
  }

  lemma SameGroups(m: Slots, m': Slots, groups: map<Text, Group>, groups': map<Text, Group>)
    requires ItemsOf(m) == ItemsOf(m') && GroupsOk(m, groups) && GroupsOk(m', groups')
    ensures groups.Keys == groups'.Keys && forall d <- groups :: groups[d].items == groups'[d].items
  {
    forall d <- groups ensures d in groups' && groups[d].items == groups'[d].items {
      GroupListed(m, m', groups, groups', d);
      assert GroupOk(m, d, groups[d]) && GroupOk(m', d, groups'[d]);
      SameList(m, m', groups[d].items, groups'[d].items, WaitsOn(d));
    }
    forall d <- groups' ensures d in groups {
      GroupListed(m', m, groups', groups, d);
    }
  }

  lemma GroupListed(m: Slots, m': Slots, groups: map<Text, Group>, groups': map<Text, Group>, d: Text)
    requires ItemsOf(m) == ItemsOf(m') && GroupsOk(m, groups) && GroupsOk(m', groups') && d in groups
    ensures d in groups'
  {
    assert GroupOk(m, d, groups[d]);
    var id := groups[d].items[0];
    assert id in groups[d].items && id in m && Waits(m[id], d);
    assert id in ItemsOf(m) && ItemsOf(m)[id] == ItemsOf(m')[id];
  }

  lemma SameCounts(m: Slots, m': Slots, counts: map<State, int>, counts': map<State, int>)
    requires ItemsOf(m) == ItemsOf(m') && CountsOk(m, counts) && CountsOk(m', counts')
    ensures counts == counts'
  {
    forall st: State ensures Of(m, st) == Of(m', st) {
      forall id ensures id in Of(m, st) <==> id in Of(m', st) {
        assert id in ItemsOf(m) <==> id in ItemsOf(m');
        assert id in m ==> ItemsOf(m)[id] == ItemsOf(m')[id];
      }
    }
    SameMaps(counts, counts');
  }

  lemma SameBytes(m: Slots, m': Slots, order: seq<Text>, seqNo: nat)
    requires ItemsOf(m) == ItemsOf(m') && OrderOk(m, order, seqNo) && SizesOk(m, false) && SizesOk(m', false)
    ensures Total(m, order) == Total(m', order)
  {
    forall id <- order ensures id in m && id in m' && m[id].size == m'[id].size {
      assert id in ItemsOf(m) && ItemsOf(m)[id] == ItemsOf(m')[id];
    }
    TotalElsewhere(m, m', order);
  }

  /** Machines that hold the same queue have the same index: arrival order, per-key lists,
      groups, parked list and counts, and the same byte total when payloads are in memory.
      So a machine refilled from a snapshot and what follows is the one refilled from the
      whole log. */
  lemma SameIndex(a: Machine, b: Machine)
    requires a.Valid() && b.Valid() && a.Abs() == b.Abs()
    ensures a.order == b.order && a.byKey == b.byKey && a.parked == b.parked && a.counts == b.counts
    ensures a.groups.Keys == b.groups.Keys && forall d <- a.groups :: a.groups[d].items == b.groups[d].items
    ensures !a.offload && !b.offload ==> a.bytes == b.bytes
  {
    hide Exactly, KeysOk, GroupsOk, CountsOk, WakesOk, SizesOk, Total, ItemsOf;
    SameList(a.items, b.items, a.order, b.order, Any());
    SameKeys(a.items, b.items, a.byKey, b.byKey);
    SameList(a.items, b.items, a.parked, b.parked, InState(Parked));
    SameCounts(a.items, b.items, a.counts, b.counts);
    SameGroups(a.items, b.items, a.groups, b.groups);
    if !a.offload && !b.offload {
      SameBytes(a.items, b.items, a.order, a.seqNo);
    }
  }
}
