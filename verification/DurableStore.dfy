/** Whole runs of the durable store: calls, background work, crashes and reopenings in
    any order. */
module DurableStore {
  import opened Records
  import opened Entries
  import opened Frames
  import opened Folds
  import opened Queues
  import Store
  import Effects
  import SnapshotCodec
  import opened Recovery
  import opened Wal
  import opened WalSafety
  import opened WalCrash
  import opened WalReopen
  import WalAck
  import opened DurableQueue

  datatype Node = Node(w: Store.World, s: Wal<Queue, Entry>)

  datatype Move =
    | Called(c: Store.Call, original: nat) // original: the entry a duplicate Append refers to
    | Captured(recs: seq<Record>)          // a compaction writes these records out
    | Worked(a: Act<Queue, Entry>)         // everything else the log does
    | Crashed(x: Ending<Entry>)

  /** The call's entry is written and the change applied, under one lock. */
  ghost predicate Logs(f: Format<Queue, Entry>, s: Wal<Queue, Entry>, e: Entry, q: Queue, t: Wal<Queue, Entry>) {
    && MutexFree(s) && !s.failed && Fits(f, e) && |s.log| + 2 < TWO_64
    && t == s.(d := s.d.(active := s.d.active.(es := s.d.active.es + [e])), c := s.c.(counted := false),
               log := s.log + [e], hist := s.hist + [q])
  }

  ghost predicate Call(o: Options, n: Node, c: Store.Call, original: nat, n': Node) {
    && Store.Step(n.w, c, n'.w)
    && match Store.Check(n.w.q, c)
       case Done => Logs(LogFormat(o), n.s, Store.EntryOf(c), n'.w.q, n'.s)
       case Duplicate => AppendedAs(n.s.log, c, original) && DoVouch(n.s, original, n'.s)
       case _ => n'.s == n.s
  }

  ghost predicate AppendedAs(log: seq<Entry>, c: Store.Call, lsn: nat) {
    c.AppendCall? && 1 <= lsn <= |log| && log[lsn - 1].Append? && log[lsn - 1].rec.id == c.rec.id
  }

  function SnapshotFile(o: Options, lsn: nat, recs: seq<Record>, seqNo: nat): File {
    File(lsn, SnapshotCodec.SnapshotBytes(o.crc, lsn, recs, seqNo))
  }

  ghost predicate Capture(o: Options, n: Node, recs: seq<Record>, n': Node) {
    && MutexFree(n.s) && !n.s.failed && n.s.d.newer.None? && n.s.d.active.es == [] && SnapNo(n.s.d) < |n.s.log|
    && SnapshotCodec.Lists(n.w.q, recs) && SnapshotCodec.Storable(recs, n.w.q.seqNo, o.maxEntry)
    && n' == n.(s := n.s.(d := n.s.d.(
         newer := Some(Newer(SnapshotFile(o, |n.s.log|, recs, n.w.q.seqNo), Hidden)))))
  }

  /** The store opens after a crash, with no lease left and no old token reissued. */
  ghost predicate Crash(o: Options, n: Node, x: Ending<Entry>, n': Node) {
    && Reopens(StoreModel(o), n.s, x, n'.s)
    && n'.w == Store.World(n'.s.hist[|n'.s.log|], n.w.issued)
  }

  ghost predicate Next(o: Options, n: Node, mv: Move, n': Node) {
    match mv
    case Called(c, original) => Call(o, n, c, original, n')
    case Captured(recs) => Capture(o, n, recs, n')
    case Worked(a) => !a.LogEntry? && !a.Vouch? && !a.Capture? && n'.w == n.w && Step(StoreModel(o), n.s, a, n'.s)
    case Crashed(x) => Crash(o, n, x, n')
  }

  ghost predicate Run(o: Options, ns: seq<Node>, mvs: seq<Move>) {
    && |ns| == |mvs| + 1 && ns[0] == Node(Store.World(EMPTY, {}), Fresh(StoreModel(o)))
    && forall i, j :: 0 <= i && j == i + 1 <= |mvs| ==> Next(o, ns[i], mvs[i], ns[j])
  }

  // ---- what every run keeps ----

  /** The log's history ends in the live queue, and only ever held sound ones. */
  ghost predicate Faithful(w: Store.World, log: seq<Entry>, hist: seq<Queue>) {
    |hist| == |log| + 1 && hist[|log|] == w.q && forall q <- hist :: Store.Sound(q)
  }

  ghost predicate NodeInv(o: Options, n: Node) {
    Inv(StoreModel(o), n.s) && Faithful(n.w, n.s.log, n.s.hist)
  }

  lemma SameSeen(a: Queue, b: Queue)
    requires View(false, a) == View(false, b)
    ensures View(true, a) == View(true, b)
  {
    forall id: Text ensures id in a.items <==> id in b.items
      ensures id in a.items ==> ViewItem(true, a.items[id]) == ViewItem(true, b.items[id])
    {
      SameMap(Viewer(false), a, b, id);
      if id in a.items {
        SameItem(a.items[id], b.items[id]);
      }
    }
    assert View(true, a).items.Keys == View(true, b).items.Keys;
    hide ViewItem;
    SameMaps(View(true, a).items, View(true, b).items);
  }

  lemma SameItem(x: Item, y: Item)
    requires ViewItem(false, x) == ViewItem(false, y)
    ensures ViewItem(true, x) == ViewItem(true, y)
  {
  }

  /** A successful call is a step of the log protocol: applying it live is what
      replaying its entry does. */
  lemma CallLogs(o: Options, n: Node, c: Store.Call, n': Node)
    requires NodeInv(o, n) && Store.Step(n.w, c, n'.w) && Store.Check(n.w.q, c) == Store.Done
    requires Logs(LogFormat(o), n.s, Store.EntryOf(c), n'.w.q, n'.s)
    ensures DoLog(StoreModel(o), n.s, Store.EntryOf(c), n'.w.q, n'.s)
  {
    hide Inv, View, Replay, Store.Perform, Store.EntryOf, Store.Check, Fits, Store.Sound;
    Store.PerformIsReplay(n.w.q, c);
    StepPerforms(n.w, c, n'.w);
    SameSeen(n'.w.q, Replay(n.w.q, Store.EntryOf(c)));
  }

  lemma StepPerforms(w: Store.World, c: Store.Call, w': Store.World)
    requires Store.Step(w, c, w')
    ensures (c.LeaseCall? ==> |c.ids| == |c.tokens|) && w'.q == Store.Perform(w.q, c)
  {
  }

  lemma CallKeeps(o: Options, n: Node, c: Store.Call, original: nat, n': Node)
    requires OptionsOk(o) && NodeInv(o, n) && Call(o, n, c, original, n')
    ensures NodeInv(o, n')
  {
    hide Inv, DoVouch, Store.Sound, Store.Perform, DoLog, Decodes;
    var m := StoreModel(o);
    Store.StepSound(n.w, c, n'.w);
    FormatDecodes(o);
    match Store.Check(n.w.q, c)
    case Done =>
      CallLogs(o, n, c, n');
      LogKeeps(m, n.s, Store.EntryOf(c), n'.w.q, n'.s);
    case Duplicate =>
      VouchKeeps(m, n.s, original, n'.s);
      VouchSame(n.s, original, n'.s);
      RefusedSame(n.w, c, n'.w);
    case _ =>
      RefusedSame(n.w, c, n'.w);
  }

  lemma VouchSame<Q, E>(s: Wal<Q, E>, lsn: nat, t: Wal<Q, E>)
    requires DoVouch(s, lsn, t)
    ensures t.log == s.log && t.hist == s.hist
  {
  }

  lemma RefusedSame(w: Store.World, c: Store.Call, w': Store.World)
    requires Store.Step(w, c, w') && Store.Check(w.q, c) != Store.Done
    ensures w'.q == w.q
  {
  }

  /** The snapshot a compaction writes is good: it loads to the queue it was taken of. */
  lemma CaptureGood(o: Options, n: Node, recs: seq<Record>)
    requires OptionsOk(o) && NodeInv(o, n) && 1 <= |n.s.log|
    requires SnapshotCodec.Lists(n.w.q, recs) && SnapshotCodec.Storable(recs, n.w.q.seqNo, o.maxEntry)
    ensures SnapGood(StoreModel(o), n.s.hist, SnapshotFile(o, |n.s.log|, recs, n.w.q.seqNo))
  {
    hide SnapshotCodec.LoadFrames, View, Recovered, GetHeader, GetFrames, SnapshotCodec.SnapshotBytes, Chained, Synced, Counters,
      SnapshotCodec.Lists, SnapshotCodec.Storable;
    var q, lsn := n.w.q, |n.s.log|;
    assert q in n.s.hist;
    assert Wf(q);
    SnapshotCodec.SnapshotRoundTrip(o.crc, lsn, q, recs, o.maxEntry);
    ViewTwice(q);
    ViewRecovered(q);
  }

  lemma CaptureKeepsNode(o: Options, n: Node, recs: seq<Record>, n': Node)
    requires OptionsOk(o) && NodeInv(o, n) && Capture(o, n, recs, n')
    ensures NodeInv(o, n')
  {
    hide Inv, SnapGood, Store.Sound;
    CaptureGood(o, n, recs);
    CaptureKeeps(StoreModel(o), n.s, SnapshotFile(o, |n.s.log|, recs, n.w.q.seqNo), n'.s);
  }

  lemma WorkSame<Q, E>(m: Model<Q, E>, s: Wal<Q, E>, a: Act<Q, E>, t: Wal<Q, E>)
    requires Step(m, s, a, t) && !a.LogEntry?
    ensures t.log == s.log && t.hist == s.hist
  {
  }

  lemma ViewSound(q: Queue)
    requires Store.Sound(q)
    ensures Store.Sound(View(true, q)) && forall id <- q.items :: View(true, q).items[id].token == None
  {
    Store.ChangedSound(q, View(true, q));
  }

  lemma CrashKeeps(o: Options, n: Node, x: Ending<Entry>, n': Node)
    requires OptionsOk(o) && NodeInv(o, n) && Crash(o, n, x, n')
    ensures NodeInv(o, n') && Store.Restart(n.w, n'.w)
  {
    hide Inv, Recover, Survived, Reach, DiskAfter, EndingOk, View, Store.Sound, Decodes, FilesAfter;
    var m := StoreModel(o);
    StoreLawful(o);
    ReopenKeeps(m, n.s, x, n'.s);
    EndingWreck(m.f, n.s, x);
    CrashSafe(m, n.s, x.w);
    var k := |n'.s.log|;
    assert Store.Sound(n.s.hist[k]);
    ViewSound(n.s.hist[k]);
    RestartsSound(n.w, n'.w, n.s.hist[k]);
  }

  lemma EndingWreck<Q, E>(f: Format<Q, E>, s: Wal<Q, E>, x: Ending<E>)
    requires EndingOk(f, s, x)
    ensures WreckOk(f, s, x.w)
  {
  }

  lemma RestartsSound(w: Store.World, w': Store.World, q: Queue)
    requires w'.issued == w.issued && w'.q == View(true, q) && Store.Sound(View(true, q))
    requires forall id <- q.items :: View(true, q).items[id].token == None
    ensures Store.Restart(w, w')
  {
  }

  lemma NextKeeps(o: Options, n: Node, mv: Move, n': Node)
    requires OptionsOk(o) && NodeInv(o, n) && Next(o, n, mv, n')
    ensures NodeInv(o, n')
  {
    hide Inv, Store.Sound, Step, Decodes, Call, Capture, Crash;
    match mv
    case Called(c, original) => CallKeeps(o, n, c, original, n');
    case Captured(recs) => CaptureKeepsNode(o, n, recs, n');
    case Worked(a) =>
      FormatDecodes(o);
      StepKeeps(StoreModel(o), n.s, a, n'.s);
      WorkSame(StoreModel(o), n.s, a, n'.s);
    case Crashed(x) => CrashKeeps(o, n, x, n');
  }

  /** Every reachable state satisfies the invariant of the log protocol and of the queue. */
  lemma {:induction false} RunKeeps(o: Options, ns: seq<Node>, mvs: seq<Move>, i: nat)
    requires OptionsOk(o) && Run(o, ns, mvs) && i < |ns|
    ensures NodeInv(o, ns[i])
  {
    hide Inv, Store.Sound, Next;
    if i == 0 {
      StoreLawful(o);
      FreshKeeps(StoreModel(o));
      FreshFaithful(o);
    } else {
      RunKeeps(o, ns, mvs, i - 1);
      NextKeeps(o, ns[i - 1], mvs[i - 1], ns[i]);
    }
  }

  lemma FreshFaithful(o: Options)
    ensures Faithful(Store.World(EMPTY, {}), Fresh(StoreModel(o)).log, Fresh(StoreModel(o)).hist)
  {
  }

  /** Crash safety of the store: in every reachable state, whatever a crash leaves of the
      unsynced bytes and files, opening the log fails or gives exactly the live queue after
      some entry n, with leases handed back. Unless the crash takes the segment being
      written, everything promised is at or before n. */
  lemma RunCrashSafe(o: Options, ns: seq<Node>, mvs: seq<Move>, i: nat, w: Wreck<Entry>)
    requires OptionsOk(o) && Run(o, ns, mvs) && i < |ns| && WreckOk(LogFormat(o), ns[i].s, w)
    ensures var s := ns[i].s;
            var n := Reach(LogFormat(o), w);
            var r := Recover(LogFormat(o), DiskAfter(LogFormat(o), w));
            && n <= |s.log| && n < |s.hist| && (s.d.active in w.segs ==> Promised(s.c) <= n)
            && (r == None || r == Some((View(true, s.hist[n]), n + 1)))
  {
    hide Inv, Store.Sound, Next, Recover, Reach, DiskAfter, WreckOk, View, Lawful;
    RunKeeps(o, ns, mvs, i);
    StoreLawful(o);
    CrashSafe(StoreModel(o), ns[i].s, w);
  }

  // ---- promises and tokens over whole runs ----

  /** No crash from moment i to moment j took the segment being written. */
  ghost predicate NoneTaken(ns: seq<Node>, mvs: seq<Move>, i: nat, j: nat)
    requires j < |ns| <= |mvs| + 1
  {
    forall k :: i <= k < j ==> Spared(ns[k], mvs[k])
  }

  ghost predicate Spared(n: Node, mv: Move) { mv.Crashed? ==> n.s.d.active in mv.x.w.segs }

  lemma NextHonours(o: Options, n: Node, mv: Move, n': Node)
    requires OptionsOk(o) && NodeInv(o, n) && Next(o, n, mv, n') && Spared(n, mv)
    ensures Honours(n.s, n'.s)
  {
    hide Inv, Store.Sound, Step, Decodes, Capture, Reopens;
    var m := StoreModel(o);
    StoreLawful(o);
    match mv
    case Called(c, original) =>
      PromisedInLog(m, n.s);
      assert n'.s.c.durable == n.s.c.durable && n'.s.c.base == n.s.c.base && n'.s.c.firm == n.s.c.firm;
    case Captured(recs) =>
      PromisedInLog(m, n.s);
      CaptureSame(o, n, recs, n');
    case Worked(a) => StepHonours(m, n.s, a, n'.s);
    case Crashed(x) => ReopenHonours(m, n.s, x, n'.s);
  }

  lemma CaptureSame(o: Options, n: Node, recs: seq<Record>, n': Node)
    requires Capture(o, n, recs, n')
    ensures n'.s.log == n.s.log && n'.s.hist == n.s.hist && n'.s.c == n.s.c && n'.w == n.w
  {
  }

  /** Whatever was promised at moment i is in the log, unchanged, at every later moment
      j, however many crashes lie between, if none took the segment being written. */
  lemma {:induction false} RunHonours(o: Options, ns: seq<Node>, mvs: seq<Move>, i: nat, j: nat)
    requires OptionsOk(o) && Run(o, ns, mvs) && i <= j < |ns| && NoneTaken(ns, mvs, i, j)
    ensures Honours(ns[i].s, ns[j].s)
    decreases j - i
  {
    hide Inv, Store.Sound, Next, Promised, Spared;
    if i == j {
      RunKeeps(o, ns, mvs, i);
      PromisedInLog(StoreModel(o), ns[i].s);
    } else {
      RunHonours(o, ns, mvs, i, j - 1);
      RunKeeps(o, ns, mvs, j - 1);
      assert Spared(ns[j - 1], mvs[j - 1]);
      NextHonours(o, ns[j - 1], mvs[j - 1], ns[j]);
    }
  }

  // ---- calls that returned ----

  predicate Appends(log: seq<Entry>, l: nat) { 1 <= l <= |log| && log[l - 1].Append? }

  /** Only a duplicate Append ever waits for position 0 of the commit sequence. */
  ghost predicate Vouched(log: seq<Entry>, c: Commit) {
    && (forall w <- c.waits :: w.seqNo > 0 || Appends(log, w.lsn))
    && (forall l <- c.acked :: c.durable > 0 || Appends(log, l))
  }

  lemma VouchedLater(log: seq<Entry>, log': seq<Entry>, c: Commit, c': Commit)
    requires Vouched(log, c) && log <= log' && c'.waits == c.waits && c'.acked == c.acked && c'.durable >= c.durable
    ensures Vouched(log', c')
  {
  }

  lemma WorkVouched(o: Options, s: Wal<Queue, Entry>, a: Act<Queue, Entry>, t: Wal<Queue, Entry>)
    requires Inv(StoreModel(o), s) && Vouched(s.log, s.c) && Step(StoreModel(o), s, a, t)
    requires !a.LogEntry? && !a.Vouch? && !a.Capture?
    ensures Vouched(t.log, t.c)
  {
    hide Chained, Synced, History, Snapshots, Loose, EndsBy, FileBytes, SegmentBytes, Removed, Placed, Appends;
    if !a.Count? && !a.Return? {
      VouchedLater(s.log, t.log, s.c, t.c);
    }
  }

  lemma NextVouched(o: Options, n: Node, mv: Move, n': Node)
    requires OptionsOk(o) && NodeInv(o, n) && Vouched(n.s.log, n.s.c) && Next(o, n, mv, n')
    ensures Vouched(n'.s.log, n'.s.c)
  {
    hide Inv, Store.Sound, Step, Decodes, Capture, Store.Step, Store.Check, Fits, Survived, FilesAfter, Recover;
    hide EndingOk, DiskAfter, Faithful;
    match mv
    case Called(c, original) => if Store.Check(n.w.q, c) == Store.Done { VouchedLater(n.s.log, n'.s.log, n.s.c, n'.s.c); }
    case Captured(recs) => CaptureSame(o, n, recs, n');
    case Worked(a) => WorkVouched(o, n.s, a, n'.s);
    case Crashed(x) =>
  }

  lemma {:induction false} RunVouched(o: Options, ns: seq<Node>, mvs: seq<Move>, i: nat)
    requires OptionsOk(o) && Run(o, ns, mvs) && i < |ns|
    ensures Vouched(ns[i].s.log, ns[i].s.c)
  {
    hide NodeInv, Next;
    if i > 0 {
      hide Vouched;
      RunKeeps(o, ns, mvs, i - 1);
      RunVouched(o, ns, mvs, i - 1);
      NextVouched(o, ns[i - 1], mvs[i - 1], ns[i]);
    }
  }

  /** A call that returned nil stays done: its entry, and all before it, begin every later
      log. There are two exceptions: a duplicate Append that waited for position 0, and a
      crash that takes the segment being written. */
  lemma AckedStays(o: Options, ns: seq<Node>, mvs: seq<Move>, i: nat, j: nat, w: Wait)
    requires OptionsOk(o) && Run(o, ns, mvs) && i < j < |ns| && mvs[i] == Worked(Return(w)) && NoneTaken(ns, mvs, i, j)
    requires !(w.seqNo == 0 && Appends(ns[i].s.log, w.lsn))
    ensures w.lsn <= |ns[i].s.log| && w.lsn <= |ns[j].s.log| && ns[j].s.log[..w.lsn] == ns[i].s.log[..w.lsn]
  {
    hide Inv, NodeInv, Run, OptionsOk;
    RunVouched(o, ns, mvs, i);
    RunMoves(o, ns, mvs, i);
    var s, t := ns[i].s, ns[i + 1].s;
    assert w.lsn in t.c.acked && t.c.durable > 0 && t.log == s.log;
    PromiseStays(o, ns, mvs, i + 1, j, w.lsn);
  }

  lemma RunMoves(o: Options, ns: seq<Node>, mvs: seq<Move>, i: nat)
    requires Run(o, ns, mvs)
    ensures |ns| == |mvs| + 1 && (i < |mvs| ==> Next(o, ns[i], mvs[i], ns[i + 1]))
  {
  }

  lemma PromiseStays(o: Options, ns: seq<Node>, mvs: seq<Move>, i: nat, j: nat, l: nat)
    requires OptionsOk(o) && Run(o, ns, mvs) && i <= j < |ns| && l in ns[i].s.c.acked && ns[i].s.c.durable > 0
    requires NoneTaken(ns, mvs, i, j)
    ensures l <= |ns[i].s.log| && l <= |ns[j].s.log| && ns[j].s.log[..l] == ns[i].s.log[..l]
  {
    hide Store.Sound, Next, Chained, Synced, History, Run;
    RunKeeps(o, ns, mvs, i);
    RunHonours(o, ns, mvs, i, j);
    var p := Promised(ns[i].s.c);
    assert ns[i].s.log[..p][..l] == ns[j].s.log[..p][..l];
  }

  /** The first exception, exactly: a duplicate Append with nothing written since the process
      opened the log vouches for an entry that a power failure can lose if and only if the
      entry was not on stable storage then and no rotation has fsynced it since, or its
      file is still adrift. */
  lemma DuplicateLostIff(o: Options, ns: seq<Node>, mvs: seq<Move>, i: nat)
    requires OptionsOk(o) && Run(o, ns, mvs) && i < |mvs| && mvs[i].Called? && ns[i].s.c.written == 0
    requires Store.Check(ns[i].w.q, mvs[i].c) == Store.Duplicate
    ensures var s, l := ns[i + 1].s, mvs[i].original;
            && Wait(0, l) in s.c.waits
            && (WalAck.MayLose(LogFormat(o), s, l) <==> (s.c.firm < l && !s.c.rotated) || WalAck.Adrift(s.d, l))
  {
    hide Inv, Run, OptionsOk, WalAck.MayLose, Decodes, Store.Step, Store.Check, WalAck.Adrift;
    RunMoves(o, ns, mvs, i);
    RunKeeps(o, ns, mvs, i + 1);
    FormatDecodes(o);
    WalAck.VouchedInBase(StoreModel(o), ns[i + 1].s, mvs[i].original);
    WalAck.LostIff(StoreModel(o), ns[i + 1].s, mvs[i].original);
  }

  predicate SyncsDir(o: Options, mv: Move) {
    match mv
    case Worked(a) => WalAck.SyncsDir(LogFormat(o), Did(a))
    case Crashed(x) => Settles(LogFormat(o), x)
    case _ => false
  }

  /** The process that opened at moment k found a segment whose creation had stopped between
      its header and the directory sync, and none has come since. */
  ghost predicate AdriftSince(o: Options, mvs: seq<Move>, k: int, i: nat) {
    && 0 <= k < i <= |mvs| && mvs[k].Crashed? && Born(mvs[k].x.w.tail)
    && forall n :: k <= n < i ==> !SyncsDir(o, mvs[n])
  }

  lemma NextAdrift(o: Options, n: Node, mv: Move, n': Node)
    requires Next(o, n, mv, n')
    ensures n'.s.d.adrift > 0 <==> !SyncsDir(o, mv) && (n.s.d.adrift > 0 || (mv.Crashed? && Born(mv.x.w.tail)))
  {
    hide Store.Step, Store.Check, Step, Reopens, Settles, Born, Fits, SnapshotFile;
    match mv
    case Worked(a) => WalAck.AdriftStep(StoreModel(o), n.s, Did(a), n'.s);
    case Crashed(x) => WalAck.AdriftStep(StoreModel(o), n.s, WalReopen.Crashed(x), n'.s);
    case _ =>
  }

  lemma AdriftLater(o: Options, mvs: seq<Move>, n: nat, i: nat)
    requires i == n + 1 <= |mvs|
    ensures (exists k :: AdriftSince(o, mvs, k, i)) <==>
              !SyncsDir(o, mvs[n]) && ((exists k :: AdriftSince(o, mvs, k, n)) || (mvs[n].Crashed? && Born(mvs[n].x.w.tail)))
  {
    hide SyncsDir, Born;
    if !SyncsDir(o, mvs[n]) {
      if k :| AdriftSince(o, mvs, k, n) {
        assert AdriftSince(o, mvs, k, i);
      }
      if mvs[n].Crashed? && Born(mvs[n].x.w.tail) {
        assert AdriftSince(o, mvs, n, i);
      }
    }
    if k :| AdriftSince(o, mvs, k, i) {
      assert k == n || AdriftSince(o, mvs, k, n);
    }
  }

  lemma {:induction false} AdriftMeans(o: Options, ns: seq<Node>, mvs: seq<Move>, i: nat)
    requires Run(o, ns, mvs) && i < |ns|
    ensures ns[i].s.d.adrift > 0 <==> exists k :: AdriftSince(o, mvs, k, i)
  {
    hide Next, SyncsDir, Born;
    if i > 0 {
      AdriftMeans(o, ns, mvs, i - 1);
      NextAdrift(o, ns[i - 1], mvs[i - 1], ns[i]);
      AdriftLater(o, mvs, i - 1, i);
    }
  }

  /** The second exception, exactly: an entry written and acknowledged in this process can be
      lost if and only if some process opened on a segment whose creation had stopped between
      its header and the directory sync, and no directory sync has come since. */
  lemma AckedLostIff(o: Options, ns: seq<Node>, mvs: seq<Move>, i: nat, w: Wait)
    requires OptionsOk(o) && Run(o, ns, mvs) && i < |mvs| && mvs[i] == Worked(Return(w)) && ns[i].s.c.base < w.lsn
    ensures WalAck.MayLose(LogFormat(o), ns[i + 1].s, w.lsn) <==> exists k :: AdriftSince(o, mvs, k, i)
  {
    hide Inv, Run, OptionsOk, WalAck.MayLose, Decodes, AdriftSince, WalAck.Anchor;
    RunMoves(o, ns, mvs, i);
    RunKeeps(o, ns, mvs, i);
    RunKeeps(o, ns, mvs, i + 1);
    FormatDecodes(o);
    var s := ns[i].s;
    NewNil(StoreModel(o), s, w);
    WalAck.LostIff(StoreModel(o), ns[i + 1].s, w.lsn);
    AdriftMeans(o, ns, mvs, i);
    if s.d.adrift > 0 {
      WalAck.AnchorInBase(StoreModel(o), s);
    }
  }

  /** A nil about an entry of this process waited for an fsync. */
  lemma NewNil<Q, E>(m: Model<Q, E>, s: Wal<Q, E>, w: Wait)
    requires Inv(m, s) && w in s.c.waits && w.seqNo <= s.c.durable && s.c.base < w.lsn
    ensures s.c.durable > 0 && w.lsn <= s.c.base + s.c.durable
  {
  }

  /** On the queue a run of the durable store is a run of Store: crashes are restarts. */
  lemma NextIsStoreStep(o: Options, n: Node, mv: Move, n': Node)
    requires OptionsOk(o) && NodeInv(o, n) && Next(o, n, mv, n')
    ensures match mv
            case Called(c, _) => Store.Step(n.w, c, n'.w)
            case Crashed(_) => Store.Restart(n.w, n'.w)
            case _ => n'.w == n.w
  {
    hide Inv, Store.Sound, Step, Decodes, Capture, Crash;
    match mv
    case Captured(recs) => CaptureSame(o, n, recs, n');
    case Crashed(x) => CrashKeeps(o, n, x, n');
    case _ =>
  }

  predicate BothLeased(q: Queue, key: Text, a: Text, b: Text) {
    && a in q.items && q.items[a].rec.state == Leased && q.items[a].rec.orderKey == key
    && b in q.items && q.items[b].rec.state == Leased && q.items[b].rec.orderKey == key
  }

  /** Head of line in every reachable state, crashes included: a leased record with an order
      key is the oldest of that key, and no two of a key are leased. */
  lemma HeadOfLineAlways(o: Options, ns: seq<Node>, mvs: seq<Move>, i: nat, key: Text, a: Text, b: Text)
    requires OptionsOk(o) && Run(o, ns, mvs) && i < |ns|
    ensures Store.Sound(ns[i].w.q) && (key != [] && BothLeased(ns[i].w.q, key, a, b) ==> a == b)
  {
    hide Inv, Run, Store.Sound;
    RunKeeps(o, ns, mvs, i);
    var q := ns[i].w.q;
    assert q in ns[i].s.hist;
    if key != [] && BothLeased(q, key, a, b) {
      Store.OneLeasePerKey(q, a, b);
    }
  }

  /** Fencing survives crashes: a token that was superseded at moment i is refused at
      every later moment j and changes nothing there, in this process or the next. */
  lemma {:induction false} FencedAcrossCrashes(o: Options, ns: seq<Node>, mvs: seq<Move>, i: nat, j: nat, id: Text,
      token: Token)
    requires OptionsOk(o) && Run(o, ns, mvs) && i <= j < |ns| && Store.Superseded(ns[i].w, id, token)
    ensures Store.Superseded(ns[j].w, id, token)
    ensures j < |mvs| && mvs[j].Called? && Store.TokenOf(mvs[j].c) == Some((id, token)) ==> ns[j + 1].w.q == ns[j].w.q
    decreases j - i
  {
    hide NodeInv, Store.Sound, Next, Store.Step, Store.Superseded;
    if i < j {
      FencedAcrossCrashes(o, ns, mvs, i, j - 1, id, token);
      RunKeeps(o, ns, mvs, j - 1);
      NextIsStoreStep(o, ns[j - 1], mvs[j - 1], ns[j]);
      match mvs[j - 1]
      case Called(c, _) => Store.SupersededStays(ns[j - 1].w, c, ns[j].w, id, token);
      case Crashed(_) => RestartSupersedes(ns[j - 1].w, ns[j].w, id, token);
      case _ =>
    }
    if j < |mvs| && mvs[j].Called? {
      RunKeeps(o, ns, mvs, j);
      NextIsStoreStep(o, ns[j], mvs[j], ns[j + 1]);
      Store.SupersededStays(ns[j].w, mvs[j].c, ns[j + 1].w, id, token);
    }
  }

  lemma RestartSupersedes(w: Store.World, w': Store.World, id: Text, token: Token)
    requires Store.Restart(w, w') && Store.Superseded(w, id, token)
    ensures Store.Superseded(w', id, token)
  {
  }

  /** A lease lasts as long as it says, in every run: a record handed out at moment i under a
      token that is still its lease at moment j is taken by no call before the time it was
      leased until; from then on it may be leased again, if it is the first of its key. */
  lemma {:induction false} LeaseLasts(o: Options, ns: seq<Node>, mvs: seq<Move>, i: nat, j: nat, n: nat)
    requires OptionsOk(o) && Run(o, ns, mvs) && i < j < |ns| && mvs[i].Called? && mvs[i].c.LeaseCall?
    requires n < |mvs[i].c.ids| && n < |mvs[i].c.tokens| && Store.Held(ns[j].w.q, mvs[i].c.ids[n], mvs[i].c.tokens[n])
    ensures var id, until := mvs[i].c.ids[n], mvs[i].c.until;
            && Effects.FreeFrom(ns[j].w.q, id, until)
            && (j < |mvs| && mvs[j].Called? && Effects.Takes(mvs[j].c, id) ==> until <= Effects.TakenAt(mvs[j].c))
    ensures ns[j].w.q.items[mvs[i].c.ids[n]].until == mvs[i].c.until
    decreases j
  {
    hide NodeInv, Store.Sound, Next, Store.Step, Effects.FreeFrom, Run;
    var k := j - 1;
    RunMoves(o, ns, mvs, k);
    var id, token := mvs[i].c.ids[n], mvs[i].c.tokens[n];
    RunKeeps(o, ns, mvs, k);
    NextIsStoreStep(o, ns[k], mvs[k], ns[j]);
    if i == k {
      Effects.LeaseDoes(ns[i].w, mvs[i].c, ns[j].w, n);
    } else {
      IssuedLater(o, ns, mvs, i, k, n);
      match mvs[k]
      case Called(c, _) =>
        Effects.HeldStep(ns[k].w, c, ns[j].w, id, token);
        LeaseLasts(o, ns, mvs, i, k, n);
      case Crashed(_) =>
      case _ => LeaseLasts(o, ns, mvs, i, k, n);
    }
    Effects.HeldUntil(ns[j].w.q, id, token);
    if j < |mvs| && mvs[j].Called? && Effects.Takes(mvs[j].c, id) {
      RunMoves(o, ns, mvs, j);
      RunKeeps(o, ns, mvs, j);
      NextIsStoreStep(o, ns[j], mvs[j], ns[j + 1]);
      TakenFree(ns[j].w, mvs[j].c, ns[j + 1].w, id, ns[j].w.q.items[id].until);
    }
  }

  lemma TakenFree(w: Store.World, c: Store.Call, w': Store.World, id: Text, from: Time)
    requires Store.Step(w, c, w') && Effects.Takes(c, id) && Effects.FreeFrom(w.q, id, from)
    ensures from <= Effects.TakenAt(c)
  {
    assert Store.Eligible(w.q, id, Effects.TakenAt(c));
  }

  lemma {:induction false} IssuedLater(o: Options, ns: seq<Node>, mvs: seq<Move>, i: nat, j: nat, n: nat)
    requires OptionsOk(o) && Run(o, ns, mvs) && i < j < |ns| && mvs[i].Called? && mvs[i].c.LeaseCall? && n < |mvs[i].c.tokens|
    ensures mvs[i].c.tokens[n] in ns[j].w.issued
    decreases j
  {
    hide NodeInv, Store.Sound, Next, Run, Store.Allowed, Store.Perform;
    RunMoves(o, ns, mvs, j - 1);
    RunKeeps(o, ns, mvs, j - 1);
    NextIsStoreStep(o, ns[j - 1], mvs[j - 1], ns[j]);
    if i < j - 1 {
      IssuedLater(o, ns, mvs, i, j - 1, n);
    }
  }
}
