/** The queue as a value: what dlq/machine.go keeps, without its indexes. Records are
    found by id; arrival order is the order of their sequence numbers. Every transition
    is a function, used both for what a live store does and for what replaying a log
    does. */
module Queues {
  import opened Records
  import opened RecordCodec
  import opened Entries
  import opened Folds

  type Token = nat

  datatype Item = Item(rec: Record, token: Option<Token>, until: Time)

  datatype Queue = Queue(items: map<Text, Item>, seqNo: nat)

  const EMPTY := Queue(map[], 0)

  /** Ids name their records, and no two stored records share a sequence number. */
  ghost predicate Wf(q: Queue) {
    && (forall id <- q.items :: q.items[id].rec.id == id && q.items[id].rec.seqNo <= q.seqNo)
    && (forall a <- q.items, b <- q.items :: q.items[a].rec.seqNo == q.items[b].rec.seqNo ==> a == b)
    && (forall id <- q.items :: q.items[id].rec.state != Leased ==> q.items[id].token == None)
  }

  // ---- transitions of one record ----

  function Free(it: Item): Item { it.(token := None, until := ZERO_TIME) }

  function Leasing(it: Item): Item {
    it.(rec := it.rec.(state := Leased, attempts := it.rec.attempts + 1))
  }

  function Refunded(attempts: int): int {
    if attempts > 0 then attempts - 1 else attempts
  }

  function Nacked(it: Item, at: Time, next: Time, text: Text, blockedOn: Text, refund: bool): Item {
    Free(it.(rec := it.rec.(
      state := Pending,
      blockedOn := if blockedOn != [] then blockedOn else it.rec.blockedOn,
      attempts := if refund then Refunded(it.rec.attempts) else it.rec.attempts,
      lastFailed := at, nextAttempt := next, lastError := text)))
  }

  function Released(it: Item): Item {
    Free(it.(rec := it.rec.(state := Pending, attempts := Refunded(it.rec.attempts))))
  }

  function ParkedItem(it: Item, at: Time, reason: Text): Item {
    Free(it.(rec := it.rec.(state := Parked, lastFailed := at, lastError := reason)))
  }

  function WithCheckpoint(it: Item, cp: Option<Bytes>): Item {
    it.(rec := it.rec.(checkpoint := cp))
  }

  function Requeued(it: Item, replace: Option<Option<Bytes>>): Item {
    var r := it.rec.(state := Pending, attempts := 0, nextAttempt := ZERO_TIME);
    it.(rec := if replace.Some? then r.(checkpoint := replace.value) else r)
  }

  // ---- transitions of the queue ----

  function Set(q: Queue, id: Text, it: Item): Queue { q.(items := q.items[id := it]) }

  function Remove(q: Queue, id: Text): Queue { q.(items := q.items - {id}) }

  function Insert(q: Queue, rec: Record): Queue {
    if rec.id in q.items then q
    else Queue(q.items[rec.id := Item(rec, None, ZERO_TIME)], if rec.seqNo > q.seqNo then rec.seqNo else q.seqNo)
  }

  function ReplayLease(q: Queue, id: Text): Queue {
    if id in q.items then Set(q, id, Leasing(q.items[id])) else q
  }

  function ReplayLeases(q: Queue, ids: seq<Text>): Queue {
    if ids == [] then q
    else ReplayLease(ReplayLeases(q, ids[..|ids| - 1]), ids[|ids| - 1])
  }

  /** What an entry about one record makes of it. */
  function Stepped(it: Item, e: Entry): Item {
    match e
    case Checkpoint(_, cp) => WithCheckpoint(it, cp)
    case Nack(_, at, next, text, blockedOn, refund) => Nacked(it, at, next, text, blockedOn, refund)
    case Release(_) => Released(it)
    case Park(_, at, reason) => ParkedItem(it, at, reason)
    case Requeue(_, replace) => Requeued(it, replace)
    case _ => it
  }

  /** applyEntry: what a log entry does to the queue. Entries about records that are
      no longer there do nothing, and only parked records are requeued or discarded. */
  function Replay(q: Queue, e: Entry): Queue {
    match e
    case Append(rec) => Insert(q, rec)
    case Lease(ids) => ReplayLeases(q, ids)
    case _ => ReplayOne(q, e.id, e)
  }

  function ReplayOne(q: Queue, id: Text, e: Entry): Queue {
    if id !in q.items || ((e.Requeue? || e.Discard?) && q.items[id].rec.state != Parked) then q
    else if e.Ack? || e.Discard? then Remove(q, id)
    else Set(q, id, Stepped(q.items[id], e))
  }

  function ReplayAll(q: Queue, es: seq<Entry>): Queue {
    Fold(Replay, q, es)
  }

  // ---- leases belong to a process ----

  function SettledItem(it: Item): Item {
    Free(if it.rec.state == Leased then it.(rec := it.rec.(state := Pending)) else it)
  }

  function MapItems(v: Item -> Item, q: Queue): (r: Queue)
    ensures r.seqNo == q.seqNo && r.items.Keys == q.items.Keys
    ensures forall id <- q.items :: r.items[id] == v(q.items[id])
  {
    q.(items := map id | id in q.items :: v(q.items[id]))
  }

  /** The queue with every lease handed back: what a snapshot stores. */
  function Settled(q: Queue): Queue {
    MapItems(SettledItem, q)
  }

  /** endReplay: leases held by a process that no longer exists become pending. */
  function EndReplay(q: Queue): Queue {
    q.(items := map id | id in q.items ::
      if q.items[id].rec.state == Leased then SettledItem(q.items[id]) else q.items[id])
  }

  ghost predicate NoLooseTokens(q: Queue) {
    forall id <- q.items :: q.items[id].rec.state != Leased ==> q.items[id] == Free(q.items[id])
  }

  lemma EndReplayIsSettled(q: Queue)
    requires NoLooseTokens(q)
    ensures EndReplay(q) == Settled(q)
  {
  }

  // ---- what survives a restart ----

  function NormItem(it: Item): Item { it.(rec := NormRecord(it.rec)) }

  /** An item as a restart sees it: no lease and, when norm is set, as the log stores
      times at the epoch and empty header lists. */
  function ViewItem(norm: bool, it: Item): Item {
    SettledItem(if norm then NormItem(it) else it)
  }

  function Viewer(norm: bool): (v: Item -> Item)
    ensures forall it :: v(it) == ViewItem(norm, it)
  {
    it => ViewItem(norm, it)
  }

  function View(norm: bool, q: Queue): Queue {
    MapItems(Viewer(norm), q)
  }

  /** What an entry written as e may read back as. */
  predicate ReadsAs(norm: bool, e: Entry, f: Entry) {
    f == e || (norm && f == NormEntry(e))
  }

  lemma SameMap(v: Item -> Item, a: Queue, b: Queue, id: Text)
    requires MapItems(v, a) == MapItems(v, b)
    ensures id in a.items <==> id in b.items
    ensures id in a.items ==> v(a.items[id]) == v(b.items[id])
  {
    assert id in MapItems(v, a).items <==> id in MapItems(v, b).items;
    if id in a.items {
      assert MapItems(v, a).items[id] == MapItems(v, b).items[id];
    }
  }

  lemma SetMap(v: Item -> Item, a: Queue, b: Queue, id: Text, x: Item, y: Item)
    requires MapItems(v, a) == MapItems(v, b) && v(x) == v(y)
    ensures MapItems(v, Set(a, id, x)) == MapItems(v, Set(b, id, y))
  {
    assert MapItems(v, Set(a, id, x)).items == MapItems(v, a).items[id := v(x)];
    assert MapItems(v, Set(b, id, y)).items == MapItems(v, b).items[id := v(y)];
  }

  lemma RemoveMap(v: Item -> Item, a: Queue, b: Queue, id: Text)
    requires MapItems(v, a) == MapItems(v, b)
    ensures MapItems(v, Remove(a, id)) == MapItems(v, Remove(b, id))
  {
    assert MapItems(v, Remove(a, id)).items == MapItems(v, a).items - {id};
    assert MapItems(v, Remove(b, id)).items == MapItems(v, b).items - {id};
  }

  lemma LeasingView(norm: bool, x: Item, y: Item)
    requires ViewItem(norm, x) == ViewItem(norm, y)
    ensures ViewItem(norm, Leasing(x)) == ViewItem(norm, Leasing(y))
  {
  }

  lemma {:induction false} ReplayLeasesView(norm: bool, a: Queue, b: Queue, ids: seq<Text>)
    requires View(norm, a) == View(norm, b)
    ensures View(norm, ReplayLeases(a, ids)) == View(norm, ReplayLeases(b, ids))
  {
    if ids != [] {
      var init, id := ids[..|ids| - 1], ids[|ids| - 1];
      ReplayLeasesView(norm, a, b, init);
      var a1, b1 := ReplayLeases(a, init), ReplayLeases(b, init);
      SameMap(Viewer(norm), a1, b1, id);
      if id in a1.items {
        LeasingView(norm, a1.items[id], b1.items[id]);
        SetMap(Viewer(norm), a1, b1, id, Leasing(a1.items[id]), Leasing(b1.items[id]));
      }
    }
  }

  lemma InsertView(norm: bool, a: Queue, b: Queue, r: Record, s: Record)
    requires View(norm, a) == View(norm, b) && ReadsAs(norm, Append(r), Append(s))
    ensures View(norm, Insert(a, r)) == View(norm, Insert(b, s))
  {
    SameMap(Viewer(norm), a, b, r.id);
    if r.id !in a.items {
      var x, y := Item(r, None, ZERO_TIME), Item(s, None, ZERO_TIME);
      assert ViewItem(norm, x) == ViewItem(norm, y);
      SetMap(Viewer(norm), a, b, r.id, x, y);
      assert Insert(a, r).items == Set(a, r.id, x).items;
      assert Insert(b, s).items == Set(b, r.id, y).items;
    }
  }

  lemma NackedView(norm: bool, x: Item, y: Item, e: Entry, f: Entry)
    requires ViewItem(norm, x) == ViewItem(norm, y) && ReadsAs(norm, e, f) && e.Nack?
    ensures ViewItem(norm, Nacked(x, e.at, e.next, e.text, e.blockedOn, e.refund))
         == ViewItem(norm, Nacked(y, f.at, f.next, f.text, f.blockedOn, f.refund))
  {
  }

  lemma ParkedView(norm: bool, x: Item, y: Item, e: Entry, f: Entry)
    requires ViewItem(norm, x) == ViewItem(norm, y) && ReadsAs(norm, e, f) && e.Park?
    ensures ViewItem(norm, ParkedItem(x, e.at, e.reason)) == ViewItem(norm, ParkedItem(y, f.at, f.reason))
  {
  }

  lemma ReleasedView(norm: bool, x: Item, y: Item)
    requires ViewItem(norm, x) == ViewItem(norm, y)
    ensures ViewItem(norm, Released(x)) == ViewItem(norm, Released(y))
  {
  }

  lemma RequeuedView(norm: bool, x: Item, y: Item, replace: Option<Option<Bytes>>)
    requires ViewItem(norm, x) == ViewItem(norm, y)
    ensures ViewItem(norm, Requeued(x, replace)) == ViewItem(norm, Requeued(y, replace))
  {
  }

  lemma SteppedView(norm: bool, x: Item, y: Item, e: Entry, f: Entry)
    requires ViewItem(norm, x) == ViewItem(norm, y) && ReadsAs(norm, e, f)
    ensures x.rec.state == Parked <==> y.rec.state == Parked
    ensures ViewItem(norm, Stepped(x, e)) == ViewItem(norm, Stepped(y, f))
  {
    match e
    case Nack(_, _, _, _, _, _) => NackedView(norm, x, y, e, f);
    case Release(_) => ReleasedView(norm, x, y);
    case Park(_, _, _) => ParkedView(norm, x, y, e, f);
    case Requeue(_, replace) => RequeuedView(norm, x, y, replace);
    case _ =>
  }

  /** Replaying an entry, or what it reads back as, keeps queues that a restart cannot
      tell apart indistinguishable. */
  lemma ReplayView(norm: bool, a: Queue, b: Queue, e: Entry, f: Entry)
    requires View(norm, a) == View(norm, b) && ReadsAs(norm, e, f)
    ensures View(norm, Replay(a, e)) == View(norm, Replay(b, f))
  {
    match e
    case Append(rec) => InsertView(norm, a, b, rec, f.rec);
    case Lease(ids) => ReplayLeasesView(norm, a, b, ids);
    case _ => ReplayOneView(norm, a, b, e, f);
  }

  lemma ReplayOneView(norm: bool, a: Queue, b: Queue, e: Entry, f: Entry)
    requires !e.Append? && !e.Lease? && View(norm, a) == View(norm, b) && ReadsAs(norm, e, f)
    ensures View(norm, ReplayOne(a, e.id, e)) == View(norm, ReplayOne(b, f.id, f))
  {
    hide Stepped, ViewItem, MapItems, Set, Remove, Viewer;
    var v, id := Viewer(norm), e.id;
    SameMap(v, a, b, id);
    if id in a.items {
      var x, y := a.items[id], b.items[id];
      SteppedView(norm, x, y, e, f);
      var x1, y1 := Stepped(x, e), Stepped(y, f);
      assert v(x1) == v(y1);
      RemoveMap(v, a, b, id);
      SetMap(v, a, b, id, x1, y1);
    }
  }

  lemma {:induction false} ReplayAllView(norm: bool, a: Queue, b: Queue, es: seq<Entry>, fs: seq<Entry>)
    requires View(norm, a) == View(norm, b)
    requires |es| == |fs| && forall i :: 0 <= i < |es| ==> ReadsAs(norm, es[i], fs[i])
    ensures View(norm, ReplayAll(a, es)) == View(norm, ReplayAll(b, fs))
  {
    if es != [] {
      var n := |es| - 1;
      ReplayAllView(norm, a, b, es[..n], fs[..n]);
      ReplayView(norm, ReplayAll(a, es[..n]), ReplayAll(b, fs[..n]), es[n], fs[n]);
    }
  }

  lemma SettledView(q: Queue)
    ensures View(false, q) == Settled(q)
  {
    assert View(false, q).items == Settled(q).items;
  }

  lemma SettledTwice(q: Queue)
    ensures Settled(Settled(q)) == Settled(q)
  {
    assert forall it :: SettledItem(SettledItem(it)) == SettledItem(it);
    assert Settled(Settled(q)).items == Settled(q).items;
  }

  /** The snapshot cut: replaying only the entries after a snapshot on top of it gives
      what replaying the whole log gives. The snapshot may store leased records as
      pending, because every entry treats the two alike. */
  lemma SnapshotCut(q: Queue, before: seq<Entry>, after: seq<Entry>)
    ensures Settled(ReplayAll(Settled(ReplayAll(q, before)), after)) == Settled(ReplayAll(q, before + after))
  {
    FoldConcat(Replay, q, before, after);
    var live := ReplayAll(q, before);
    SettledTwice(live);
    SettledView(live);
    SettledView(Settled(live));
    ReplayAllView(false, Settled(live), live, after, after);
    SettledView(ReplayAll(Settled(live), after));
    SettledView(ReplayAll(live, after));
  }
}
