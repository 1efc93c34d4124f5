/** The queue's state machine with its index (dlq/machine.go). Every operation keeps the
    index exact and does to the queue what the functions of Queues say. */
module Machine {
  import opened Records
  import opened Entries
  import opened Folds
  import opened Queues
  import opened MachineIndex
  import opened Selection
  import Blobs
  import Store

  datatype Limits = Limits(maxRecords: int, maxBytes: int, maxRecordBytes: int)

  // ---- lists in arrival order ----

  lemma AscendingConcat(m: Slots, a: seq<Text>, b: seq<Text>)
    requires Ascending(m, a) && Ascending(m, b) && forall x <- a, y <- b :: SeqOf(m, x) < SeqOf(m, y)
    ensures Ascending(m, a + b)
  {
    var l := a + b;
    forall i, j | 0 <= i < j < |l| ensures SeqOf(m, l[i]) < SeqOf(m, l[j]) {
      if i < |a| <= j {
        assert l[i] in a && l[j] in b;
      } else if j < |a| {
        assert SeqOf(m, a[i]) < SeqOf(m, a[j]);
      } else {
        assert SeqOf(m, b[i - |a|]) < SeqOf(m, b[j - |a|]);
      }
    }
  }

  lemma AscendingSplit(m: Slots, l: seq<Text>, k: nat)
    requires Ascending(m, l) && k <= |l|
    ensures Ascending(m, l[..k]) && Ascending(m, l[k..])
    ensures forall x <- l[..k], y <- l[k..] :: SeqOf(m, x) < SeqOf(m, y)
    ensures k > 0 ==> forall x <- l[..k] :: SeqOf(m, x) <= SeqOf(m, l[k - 1])
    ensures k < |l| ==> forall y <- l[k..] :: SeqOf(m, l[k]) <= SeqOf(m, y)
  {
    var b := l[k..];
    forall i, j | 0 <= i < j < |b| ensures SeqOf(m, b[i]) < SeqOf(m, b[j]) {
      assert SeqOf(m, l[k + i]) < SeqOf(m, l[k + j]);
    }
  }

  function InsertAt(l: seq<Text>, id: Text, k: nat): seq<Text>
    requires k <= |l|
  {
    l[..k] + [id] + l[k..]
  }

  lemma InsertedMembers(l: seq<Text>, id: Text, k: nat)
    requires k <= |l|
    ensures forall x :: x in l[..k] + [id] + l[k..] <==> x in l || x == id
  {
    var a, b := l[..k], l[k..];
    assert l == a + b;
    forall x ensures x in a + [id] + b <==> x in l || x == id {
      assert x in a + [id] + b <==> x in a + [id] || x in b;
      assert x in l <==> x in a || x in b;
    }
  }

  lemma PlacedAt(m: Slots, l: seq<Text>, id: Text, k: nat)
    requires id in m && Ascending(m, l) && k <= |l|
    requires k > 0 ==> SeqOf(m, l[k - 1]) < SeqOf(m, id)
    requires k < |l| ==> SeqOf(m, id) < SeqOf(m, l[k])
    ensures Placed(m, l, id, InsertAt(l, id, k))
  {
    var a, b, one := l[..k], l[k..], [id];
    AscendingSplit(m, l, k);
    assert Ascending(m, one);
    hide Ascending;
    forall x <- a ensures SeqOf(m, x) < SeqOf(m, id) {
    }
    AscendingConcat(m, a, one);
    forall x <- a + one, y <- b ensures SeqOf(m, x) < SeqOf(m, y) {
      assert x in a || x == id;
    }
    AscendingConcat(m, a + one, b);
    InsertedMembers(l, id, k);
  }

  function IndexOf(l: seq<Text>, id: Text): (i: nat)
    requires id in l
    ensures i < |l| && l[i] == id
  {
    if l[0] == id then 0 else 1 + IndexOf(l[1..], id)
  }

  /** insertOrdered: next to the hint if that fits, else searching from the back. */
  method InsertOrdered(m: Slots, l: seq<Text>, id: Text, hint: Option<Text>) returns (r: seq<Text>)
    requires id in m && Ascending(m, l) && HintOk(l, hint) && forall x <- l :: SeqOf(m, x) != SeqOf(m, id)
    ensures Placed(m, l, id, r)
  {
    hide Placed, InsertAt;
    var n := SeqOf(m, id);
    if hint.Some? {
      var i := IndexOf(l, hint.value);
      if SeqOf(m, l[i]) < n && (i + 1 == |l| || SeqOf(m, l[i + 1]) > n) {
        PlacedAt(m, l, id, i + 1);
        return InsertAt(l, id, i + 1);
      }
    }
    if l == [] || SeqOf(m, l[0]) > n {
      PlacedAt(m, l, id, 0);
      return InsertAt(l, id, 0);
    }
    var k: nat := |l|;
    while k > 0 && SeqOf(m, l[k - 1]) > n
      invariant k <= |l| && (k < |l| ==> l[k] in m && SeqOf(m, l[k]) > n)
    {
      k := k - 1;
    }
    PlacedAt(m, l, id, k);
    return InsertAt(l, id, k);
  }

  datatype Prepared = Invalid | Duplicate | Full | Accepted(rec: Record)

  /** A record as it will be stored: numbered, and with what its writer left out. */
  function Completed(r: Record, seqNo: nat, now: Time): Record {
    var first := if r.firstFailed == ZERO_TIME then now else r.firstFailed;
    r.(seqNo := seqNo, firstFailed := first, lastFailed := if r.lastFailed == ZERO_TIME then first else r.lastFailed,
       schemaVersion := if r.schemaVersion == 0 then CURRENT_SCHEMA else r.schemaVersion)
  }

  /** Everything the caller said is what is stored. */
  predicate TheCallers(r: Record, s: Record) {
    && s.id == r.id && s.state == r.state && s.source == r.source && s.orderKey == r.orderKey && s.blockedOn == r.blockedOn
    && s.key == r.key && s.value == r.value && s.headers == r.headers && s.checkpoint == r.checkpoint
    && s.attempts == r.attempts && s.nextAttempt == r.nextAttempt && s.lastError == r.lastError
  }

  /** What a lease gives its worker. */
  datatype HandedOut = HandedOut(rec: Record, token: Token, until: Time)

  /** The slot was leased: state, attempts, token and end of the lease, and nothing else of
      the record. The worker gets exactly that. */
  predicate HandsOut(was: Slot, now: Slot, token: Token, until: Time, out: HandedOut) {
    && now.it.token == Some(token) && now.it.until == until
    && now.it.rec == was.it.rec.(state := Leased, attempts := was.it.rec.attempts + 1)
    && now.bodyN == was.bodyN && now.ckptN == was.ckptN && now.size == was.size
    && out == HandedOut(now.it.rec, token, until)
  }

  /** The first i of these records are handed out, and no other slot has changed. */
  ghost predicate HandedOutSoFar(was: Slots, now: Slots, ids: seq<Text>, tokens: seq<Token>, until: Time,
      out: seq<HandedOut>, i: nat)
  {
    && i == |out| <= |ids| == |tokens| && now.Keys == was.Keys && (forall id <- ids :: id in was)
    && (forall id <- now :: id !in ids[..i] ==> now[id] == was[id])
    && (forall k :: 0 <= k < i ==> HandsOut(was[ids[k]], now[ids[k]], tokens[k], until, out[k]))
  }

  lemma NextToHand(was: Slots, now: Slots, ids: seq<Text>, tokens: seq<Token>, until: Time, out: seq<HandedOut>, i: nat)
    requires HandedOutSoFar(was, now, ids, tokens, until, out, i) && i < |ids| && Store.Distinct(ids)
    ensures ids[i] in was && ids[i] in now && now[ids[i]] == was[ids[i]]
  {
    assert ids[i] in ids && ids[i] !in ids[..i];
  }

  lemma MoreHandedOut(was: Slots, now: Slots, now': Slots, ids: seq<Text>, tokens: seq<Token>, until: Time,
      out: seq<HandedOut>, i: nat)
    requires HandedOutSoFar(was, now, ids, tokens, until, out, i) && i < |ids| && Store.Distinct(ids)
    requires now'.Keys == now.Keys && ids[i] in now && forall id <- now' :: id != ids[i] ==> now'[id] == now[id]
    requires HandsOut(now[ids[i]], now'[ids[i]], tokens[i], until, HandedOut(now'[ids[i]].it.rec, tokens[i], until))
    ensures HandedOutSoFar(was, now', ids, tokens, until, out + [HandedOut(now'[ids[i]].it.rec, tokens[i], until)], i + 1)
  {
    hide HandsOut;
    NextToHand(was, now, ids, tokens, until, out, i);
    assert ids[..i + 1] == ids[..i] + [ids[i]];
  }

  class Machine {
    const lim: Limits
    const offload: bool // payloads live on disk
    var items: Slots
    var order: seq<Text>
    var byKey: map<Text, seq<Text>>
    var seqNo: nat
    var bytes: int
    var groups: map<Text, Group>
    var parked: seq<Text>
    var parkedHint: Option<Text>
    var counts: map<State, int>

    constructor (lim: Limits, offload: bool)
      ensures Valid() && Abs() == EMPTY && this.lim == lim && this.offload == offload
    {
      this.lim, this.offload := lim, offload;
      items, order, byKey, seqNo, bytes := map[], [], map[], 0, 0;
      groups, parked, parkedHint := map[], [], None;
      counts := map[Pending := 0, Leased := 0, Parked := 0];
      new;
      NoneCounted();
    }

    /** The groups, the parked list and the counts are about exactly the records of m. */
    ghost predicate Indexed(m: Slots)
      reads this
    {
      GroupsOk(m, groups) && ParkedOk(m, parked, parkedHint) && CountsOk(m, counts)
    }

    /** Everything but the sizes of records that are being changed. */
    ghost predicate Sound()
      reads this
    {
      && OrderOk(items, order, seqNo) && KeysOk(items, byKey) && bytes == Total(items, order)
      && Indexed(items) && WakesOk(items, byKey, groups)
    }

    ghost predicate Valid()
      reads this
    {
      Sound() && SizesOk(items, offload)
    }

    ghost function Abs(): Queue
      reads this
    {
      Queue(ItemsOf(items), seqNo)
    }

    // ---- the index ----

    /** link: a record joins the index. */
    method Link(id: Text)
      requires id in items && DistinctSeqs(items) && Indexed(items - {id}) && WakesOk(items - {id}, byKey, groups)
      modifies this`groups, this`parked, this`parkedHint, this`counts
      ensures Indexed(items) && WakesOk(items, byKey, groups) && Awake(items[id], groups)
    {
      hide GroupsOk, ParkedOk, CountsOk, WakesOk, DistinctSeqs;
      var r, d := items[id].it.rec, items[id].it.rec.blockedOn;
      LinkCounts(items, id, counts);
      assert r.state in counts by {
        CountsCover(items - {id}, counts, r.state);
      }
      counts := counts[r.state := counts[r.state] + 1];
      if r.state == Parked {
        ParkedList(items - {id}, parked, parkedHint);
        Known(items, parked, id);
        var l := InsertOrdered(items, parked, id, parkedHint);
        LinkParkedGroups(items, id, groups);
        LinkParked(items, id, parked, parkedHint, l);
        LinkWakes(items, id, byKey, groups, Group([], None, ZERO_TIME));
        parked, parkedHint := l, Some(id);
      } else {
        GroupList(items - {id}, groups, d);
        GroupHint(items - {id}, groups, d);
        Known(items, GroupItems(groups, d), id);
        var l := InsertOrdered(items, GroupItems(groups, d), id, if d in groups then groups[d].hint else None);
        var g := Group(l, Some(id), ZERO_TIME);
        LinkGroups(items, id, groups, g);
        LinkWakes(items, id, byKey, groups, g);
        LinkParked(items, id, parked, parkedHint, parked);
        groups := groups[d := g];
      }
    }

    /** unlink: a record leaves the index. */
    method Unlink(id: Text)
      requires id in items && Indexed(items) && WakesOk(items, byKey, groups)
      modifies this`groups, this`parked, this`parkedHint, this`counts
      ensures Indexed(items - {id}) && WakesOk(items - {id}, byKey, groups)
    {
      hide GroupsOk, ParkedOk, CountsOk, WakesOk, UnlinkGroup;
      var r, d := items[id].it.rec, items[id].it.rec.blockedOn;
      CountsCover(items, counts, r.state);
      UnlinkCounts(items, id, counts);
      UnlinkGroups(items, id, groups);
      UnlinkWakes(items, id, byKey, groups);
      UnlinkParked(items, id, parked, parkedHint);
      counts := counts[r.state := counts[r.state] - 1];
      if r.state == Parked {
        parkedHint := if parkedHint == Some(id) then None else parkedHint;
        parked := Without(parked, id);
      } else {
        groups := UnlinkGroup(groups, d, id);
      }
    }

    /** move: a record changes its state and what it waits on. Its group, if it has one
        now, will be scanned afresh. */
    method Move(id: Text, state: State, dep: Text)
      requires Sound() && id in items
      modifies this`items, this`groups, this`parked, this`parkedHint, this`counts
      ensures Sound() && Awake(items[id], groups)
      ensures items == old(items)[id := Moved(old(items[id]), state, dep)]
    {
      hide OrderOk, KeysOk, GroupsOk, ParkedOk, CountsOk, WakesOk;
      var s := items[id];
      var s' := Moved(s, state, dep);
      ReshapedLists(items, id, s', order, byKey, seqNo);
      InOrder(items, order, seqNo, id);
      TotalSet(items, order, id, s');
      if s.it.rec.state != Parked && state != Parked && s.it.rec.blockedOn == dep {
        RestatedCounts(items, id, s', counts);
        RestatedGroups(items, id, s', groups);
        RestatedParked(items, id, s', parked, parkedHint);
        WokenOk(items, byKey, groups, dep);
        RestatedWakes(items, id, s', byKey, Woken(groups, dep));
        GroupsWoken(items, id, s', groups);
        counts := counts[s.it.rec.state := counts[s.it.rec.state] - 1];
        counts := counts[state := counts[state] + 1];
        items := items[id := s'];
        groups := Woken(groups, dep);
      } else {
        Unlink(id);
        ghost var rest := items - {id};
        items := items[id := s'];
        assert items - {id} == rest;
        AscendingDistinct(items, order, seqNo);
        Link(id);
      }
    }

    /** Fields that say nothing about where a record belongs are assigned directly. The
        record must not become available earlier behind a cached wake time. */
    method Assign(id: Text, s: Slot)
      requires Sound() && id in items && SameShape(items[id].it, s.it) && s.size == items[id].size
      requires s.it.rec.state == items[id].it.rec.state && s.it.rec.blockedOn == items[id].it.rec.blockedOn
      requires Awake(items[id], groups) || Quiet(items[id], s)
      modifies this`items
      ensures Sound() && items == old(items)[id := s]
    {
      hide OrderOk, KeysOk, GroupsOk, ParkedOk, CountsOk, WakesOk;
      Restated(items, id, s, order, byKey, seqNo, counts);
      RestatedGroups(items, id, s, groups);
      RestatedParked(items, id, s, parked, parkedHint);
      if Awake(items[id], groups) {
        RestatedWakes(items, id, s, byKey, groups);
      } else {
        QuietWakes(items, id, s, byKey, groups);
      }
      items := items[id := s];
    }

    /** resize: the record is charged for what it holds now. */
    method Resize(id: Text)
      requires Sound() && id in items && (forall x <- items :: x != id ==> items[x].size == Weight(items[x]))
      requires !offload ==> forall x <- items :: items[x].bodyN == 0 && items[x].ckptN == 0
      modifies this`items, this`bytes
      ensures Valid() && items == old(items)[id := old(items[id]).(size := Weight(old(items[id])))]
    {
      hide OrderOk, KeysOk, GroupsOk, ParkedOk, CountsOk, WakesOk, Size;
      var n := Weight(items[id]);
      var s := items[id].(size := n);
      Restated(items, id, items[id], order, byKey, seqNo, counts);
      ReshapedLists(items, id, s, order, byKey, seqNo);
      InOrder(items, order, seqNo, id);
      TotalSet(items, order, id, s);
      RestatedGroups(items, id, s, groups);
      RestatedParked(items, id, s, parked, parkedHint);
      ResizedIndex(items, id, s, byKey, groups, counts);
      bytes := bytes + (n - items[id].size);
      items := items[id := s];
    }

    /** A snapshot's footer may know of a higher number than its records. */
    method Raise(top: nat)
      requires Valid()
      modifies this`seqNo
      ensures Valid() && Abs() == if top > old(seqNo) then old(Abs()).(seqNo := top) else old(Abs())
    {
      hide Exactly, KeysOk, GroupsOk, ParkedOk, CountsOk, WakesOk, SizesOk;
      if top > seqNo {
        seqNo := top;
      }
    }

    /** insert: stores a prepared record whose payload stays in memory. A record that is
        already there is left alone. */
    method Insert(rec: Record)
      requires Valid() && (rec.id !in items ==> seqNo < rec.seqNo)
      modifies this
      ensures Valid() && Abs() == Queues.Insert(old(Abs()), rec)
    {
      if rec.id in items {
        return;
      }
      Add(rec.id, Slot(Item(rec, None, ZERO_TIME), 0, 0, Size(rec), false, 0));
      ItemsSet(old(items), rec.id, items[rec.id]);
    }

    /** insertOffloaded: the payload lives on disk; only its size is kept. */
    method InsertOffloaded(rec: Record)
      requires Valid() && offload && (rec.id !in items ==> seqNo < rec.seqNo)
      modifies this
      ensures Valid() && Abs() == Queues.Insert(old(Abs()), Blobs.Meta(rec))
      ensures rec.id !in old(items) ==> bytes == old(bytes) + Size(rec)
    {
      if rec.id in items {
        return;
      }
      MetaSize(rec);
      Add(rec.id, Slot(Item(Blobs.Meta(rec), None, ZERO_TIME), BodySize(rec), BlobLen(rec.checkpoint), Size(rec), false, 0));
      ItemsSet(old(items), rec.id, items[rec.id]);
    }

    /** What insert and insertOffloaded share. */
    method Add(id: Text, s: Slot)
      requires Valid() && id !in items && s.it.rec.id == id && seqNo < s.it.rec.seqNo && s.size == Weight(s)
      requires !offload ==> s.bodyN == 0 && s.ckptN == 0
      modifies this
      ensures Valid() && items == old(items)[id := s] && seqNo == s.it.rec.seqNo && bytes == old(bytes) + s.size
    {
      hide OrderOk, KeysOk, GroupsOk, ParkedOk, CountsOk, WakesOk, Weight;
      ghost var m := items;
      items := items[id := s];
      assert items - {id} == m;
      AddedOrder(items, id, order, seqNo);
      TotalAppended(m, order, seqNo, id, s);
      Link(id);
      BoundedSeqs(m, order, seqNo);
      AddedKeys(items, id, byKey, seqNo);
      AddedWakes(items, id, byKey, groups);
      order := order + [id];
      byKey := AddKey(byKey, s.it.rec.orderKey, id);
      bytes := bytes + s.size;
      seqNo := s.it.rec.seqNo;
    }

    /** remove: the record leaves the store, which may let the next of its key go. */
    method Remove(id: Text)
      requires Valid() && id in items
      modifies this
      ensures Valid() && items == old(items) - {id} && seqNo == old(seqNo)
    {
      hide OrderOk, KeysOk, GroupsOk, ParkedOk, CountsOk, WakesOk, Weight, DropKey, Total, Woken, NextHead, SizesOk;
      SizesWithout(items, offload, id);
      var s, k := items[id], items[id].it.rec.orderKey;
      Unlink(id);
      DroppedOrder(items, id, order, seqNo);
      DroppedKeys(items, id, byKey);
      var next := NextHead(byKey, k, id);
      ghost var m := items;
      if next.Some? {
        NextStored(m, id, byKey);
        WokenAwake(items[next.value], groups);
        if items[next.value].it.rec.state != Parked {
          WokenOk(m - {id}, byKey, groups, items[next.value].it.rec.blockedOn);
          groups := Woken(groups, items[next.value].it.rec.blockedOn);
        }
      }
      DroppedWakes(m, id, byKey, groups);
      order := Without(order, id);
      items := items - {id};
      bytes := bytes - s.size;
      byKey := DropKey(byKey, k, id);
    }

    /** prepare: an invalid record is refused before a duplicate is noticed, and a
        duplicate before lack of room. */
    method Prepare(r: Record, now: Time) returns (p: Prepared)
      requires Valid()
      ensures p.Invalid? <==>
                || r.id == [] || |r.id| > 256 || r.attempts < 0 || r.state == Leased
                || (lim.maxRecordBytes > 0 && Size(r) > lim.maxRecordBytes)
      ensures p.Duplicate? <==> !p.Invalid? && r.id in items
      ensures p.Full? <==>
                && !p.Invalid? && !p.Duplicate?
                && ((lim.maxRecords > 0 && |items| >= lim.maxRecords) || (lim.maxBytes > 0 && bytes + Size(r) > lim.maxBytes))
      ensures p.Accepted? ==> p.rec == Completed(r, seqNo + 1, now) && Size(p.rec) == Size(r) && TheCallers(r, p.rec)
      ensures p.Accepted? ==>
                && p.rec.seqNo == seqNo + 1
                && p.rec.firstFailed == (if r.firstFailed == ZERO_TIME then now else r.firstFailed)
                && p.rec.lastFailed == (if r.lastFailed == ZERO_TIME then p.rec.firstFailed else r.lastFailed)
                && p.rec.schemaVersion == (if r.schemaVersion == 0 then 1 else r.schemaVersion)
    {
      if !ValidRecord(r) {
        return Invalid;
      }
      var size := Size(r);
      if lim.maxRecordBytes > 0 && size > lim.maxRecordBytes {
        return Invalid;
      }
      if r.id in items {
        return Duplicate;
      }
      if lim.maxRecords > 0 && |items| >= lim.maxRecords {
        return Full;
      }
      if lim.maxBytes > 0 && bytes + size > lim.maxBytes {
        return Full;
      }
      return Accepted(Completed(r, seqNo + 1, now));
    }

    /** Appending to a store that keeps payloads in memory: what is accepted fits. */
    method Append(r: Record, now: Time) returns (p: Prepared)
      requires Valid()
      modifies this
      ensures Valid() && Abs() == if p.Accepted? then Queues.Insert(old(Abs()), p.rec) else old(Abs())
      ensures p.Accepted? ==> p.rec == Completed(r, old(seqNo) + 1, now) && r.id !in old(items)
      ensures p.Accepted? && lim.maxRecords > 0 ==> |items| <= lim.maxRecords
      ensures p.Accepted? && lim.maxBytes > 0 ==> bytes <= lim.maxBytes
    {
      hide Sound, Size;
      p := Prepare(r, now);
      if p.Accepted? {
        var rec := p.rec;
        SizeWeighs(rec);
        Add(rec.id, Slot(Item(rec, None, ZERO_TIME), 0, 0, Size(rec), false, 0));
        ItemsSet(old(items), rec.id, items[rec.id]);
      }
    }

    // ---- what happens to one record ----

    /** applyNack. */
    method ApplyNack(id: Text, at: Time, next: Time, text: Text, blockedOn: Text, refund: bool)
      requires Valid() && id in items
      modifies this
      ensures Valid() && Abs() == Set(old(Abs()), id, Nacked(old(items[id].it), at, next, text, blockedOn, refund))
    {
      hide Sound, Size;
      var it := items[id].it;
      Move(id, Pending, if blockedOn != [] then blockedOn else it.rec.blockedOn);
      Assign(id, items[id].(it := Nacked(it, at, next, text, blockedOn, refund)));
      Resize(id);
      ItemsSet(old(items), id, items[id]);
    }

    /** applyRelease. */
    method ApplyRelease(id: Text)
      requires Valid() && id in items
      modifies this
      ensures Valid() && Abs() == Set(old(Abs()), id, Released(old(items[id].it)))
    {
      hide Sound, SizesOk;
      var it := items[id].it;
      Move(id, Pending, it.rec.blockedOn);
      Assign(id, items[id].(it := Released(it)));
      assert items == old(items)[id := items[id]];
      SizesSame(old(items), offload, id, items[id]);
      ItemsSet(old(items), id, items[id]);
    }

    /** applyPark. */
    method ApplyPark(id: Text, at: Time, reason: Text)
      requires Valid() && id in items
      modifies this
      ensures Valid() && Abs() == Set(old(Abs()), id, ParkedItem(old(items[id].it), at, reason))
    {
      hide Sound, Size;
      var it := items[id].it;
      Move(id, Parked, it.rec.blockedOn);
      Assign(id, items[id].(it := ParkedItem(it, at, reason)));
      Resize(id);
      ItemsSet(old(items), id, items[id]);
    }

    /** setCheckpoint: the checkpoint is kept in memory. */
    method SetCheckpoint(id: Text, cp: Option<Bytes>)
      requires Valid() && id in items
      modifies this`items, this`bytes
      ensures Valid() && Abs() == Set(old(Abs()), id, WithCheckpoint(old(items[id].it), cp))
    {
      hide Sound, Size;
      var s := items[id];
      Assign(id, s.(it := WithCheckpoint(s.it, cp), ckptN := 0, ver := s.ver + 1));
      Resize(id);
      ItemsSet(old(items), id, items[id]);
    }

    /** setCheckpointRef: the checkpoint, n bytes, lives on disk. */
    method SetCheckpointRef(id: Text, n: nat)
      requires Valid() && id in items && offload
      modifies this`items, this`bytes
      ensures Valid() && Abs() == Set(old(Abs()), id, WithCheckpoint(old(items[id].it), None))
      ensures items[id].ckptN == n && items[id].bodyN == old(items[id].bodyN)
    {
      hide Sound, Size;
      var s := items[id];
      Assign(id, s.(it := WithCheckpoint(s.it, None), ckptN := n, ver := s.ver + 1));
      Resize(id);
      ItemsSet(old(items), id, items[id]);
    }

    /** applyRequeue. */
    method ApplyRequeue(id: Text, replace: Option<Option<Bytes>>)
      requires Valid() && id in items
      modifies this
      ensures Valid() && Abs() == Set(old(Abs()), id, Requeued(old(items[id].it), replace))
    {
      hide Sound, SizesOk;
      var it := items[id].it;
      Move(id, Pending, it.rec.blockedOn);
      Assign(id, items[id].(it := Requeued(it, None)));
      assert items == old(items)[id := items[id]];
      SizesSame(old(items), offload, id, items[id]);
      ItemsSet(old(items), id, items[id]);
      if replace.Some? {
        SetCheckpoint(id, replace.value);
      }
    }

    /** replayLease: the attempt counts, but the lease itself is gone. */
    method ReplayLease(id: Text)
      requires Valid()
      modifies this
      ensures Valid() && Abs() == Queues.ReplayLease(old(Abs()), id)
    {
      hide Sound, SizesOk;
      if id in items {
        var it := items[id].it;
        Move(id, Leased, it.rec.blockedOn);
        Assign(id, items[id].(it := Leasing(it)));
        assert items == old(items)[id := items[id]];
        SizesSame(old(items), offload, id, items[id]);
        ItemsSet(old(items), id, items[id]);
      }
    }

    // ---- leasing ----

    /** reserve: other leases pass the record over while its payload is read. */
    method Reserve(id: Text)
      requires Valid() && id in items
      modifies this`items
      ensures Valid() && Abs() == old(Abs()) && items == old(items)[id := old(items[id]).(reserved := true)]
    {
      hide Sound, SizesOk;
      Assign(id, items[id].(reserved := true));
      SizesSame(old(items), offload, id, items[id]);
      ItemsSet(old(items), id, items[id]);
    }

    /** unreserve: the next scan sees the record at once. */
    method Unreserve(id: Text)
      requires Valid() && id in items
      modifies this`items, this`groups
      ensures Valid() && Abs() == old(Abs()) && items == old(items)[id := old(items[id]).(reserved := false)]
    {
      hide OrderOk, KeysOk, GroupsOk, ParkedOk, CountsOk, WakesOk, SizesOk;
      if items[id].reserved {
        var d := items[id].it.rec.blockedOn;
        WokenOk(items, byKey, groups, d);
        WokenAwake(items[id], groups);
        groups := Woken(groups, d);
        Assign(id, items[id].(reserved := false));
        SizesSame(old(items), offload, id, items[id]);
        ItemsSet(old(items), id, items[id]);
      }
    }

    /** One turn of grant's loop. */
    method GrantOne(id: Text, token: Token, until: Time)
      requires Valid() && id in items
      modifies this`items, this`groups, this`parked, this`parkedHint, this`counts
      ensures Valid() && Abs() == Set(old(Abs()), id, Store.Granted(old(items[id].it), token, until))
      ensures items.Keys == old(items).Keys && forall x <- items :: x != id ==> items[x] == old(items)[x]
      ensures HandsOut(old(items)[id], items[id], token, until, HandedOut(items[id].it.rec, token, until))
    {
      hide Sound, SizesOk;
      var it := items[id].it;
      Move(id, Leased, it.rec.blockedOn);
      Assign(id, items[id].(it := Store.Granted(it, token, until)));
      assert items == old(items)[id := items[id]];
      SizesSame(old(items), offload, id, items[id]);
      ItemsSet(old(items), id, items[id]);
    }

    /** grant: each selected record is leased under its own fresh token until the time given,
        counts one more attempt, and is handed out as it now stands. */
    method Grant(ids: seq<Text>, tokens: seq<Token>, until: Time) returns (out: seq<HandedOut>)
      requires Valid() && |ids| == |tokens| && Store.Distinct(ids) && forall id <- ids :: id in items
      modifies this`items, this`groups, this`parked, this`parkedHint, this`counts
      ensures Valid() && Abs() == Store.Grant(old(Abs()), ids, tokens, until)
      ensures items.Keys == old(items).Keys && forall id <- items :: id !in ids ==> items[id] == old(items)[id]
      ensures |out| == |ids| && forall i :: 0 <= i < |ids| ==> HandsOut(old(items)[ids[i]], items[ids[i]], tokens[i], until, out[i])
    {
      hide Valid, Store.Granted, Store.Grant, HandsOut;
      GrantNone(Abs(), ids, tokens, until);
      out := [];
      for i := 0 to |ids|
        invariant Valid() && HandedOutSoFar(old(items), items, ids, tokens, until, out, i)
        invariant Abs() == Store.Grant(old(Abs()), ids[..i], tokens[..i], until)
      {
        hide HandedOutSoFar;
        NextToHand(old(items), items, ids, tokens, until, out, i);
        GrantNext(old(Abs()), ids, tokens, until, i);
        ghost var was := items;
        GrantOne(ids[i], tokens[i], until);
        MoreHandedOut(old(items), was, items, ids, tokens, until, out, i);
        out := out + [HandedOut(items[ids[i]].it.rec, tokens[i], until)];
      }
      assert ids[..|ids|] == ids && tokens[..|ids|] == tokens;
    }

    /** scanGroup's loop: the first max records that may be leased, and, when there are
        none, when that could change. */
    method Scan(l: seq<Text>, now: Time, max: nat) returns (out: seq<Text>, next: Time)
      requires 0 <= now && 1 <= max && forall id <- l :: id in items && items[id].it.rec.state != Parked
      ensures out == FirstFit(l, Ready(items, byKey, now), max)
      ensures next == ZERO_TIME || now < next
      ensures out == [] ==> forall id <- l :: Later(items[id], id, byKey, now, next)
    {
      hide Eligible, Due, FirstFit, Later;
      ghost var ok := Ready(items, byKey, now);
      assert l[0..] == l;
      out, next := [], ZERO_TIME;
      var i := 0;
      while i < |l|
        invariant i <= |l| && |out| < max && FirstFit(l, ok, max) == out + FirstFit(l[i..], ok, max - |out|)
        invariant next == ZERO_TIME || now < next
        invariant out == [] ==> forall k :: 0 <= k < i ==> Later(items[l[k]], l[k], byKey, now, next)
      {
        var s := items[l[i]];
        FirstFitStep(l, i, ok, max - |out|);
        if Eligible(s, l[i], byKey, now) {
          out := out + [l[i]];
          if |out| == max {
            FirstFitNone(l[i + 1..], ok);
            return;
          }
        } else {
          ghost var was := next;
          if Due(s) > now && (next == ZERO_TIME || Due(s) < next) {
            next := Due(s);
          }
          NotYet(s, l[i], byKey, now, next);
          forall k | 0 <= k < i && out == [] ensures Later(items[l[k]], l[k], byKey, now, next) {
            EarlierStill(items[l[k]], l[k], byKey, now, was, next);
          }
        }
        i := i + 1;
      }
      FirstFitNone(l[i..], ok);
      assert l[i..] == [];
    }

    /** scanGroup: the first max records of a group that may be leased. A scan that finds
        nothing notes when the group could next have something. */
    method ScanGroup(d: Text, now: Time, max: nat) returns (out: seq<Text>)
      requires Valid() && d in groups && 0 <= now && 1 <= max
      modifies this`groups
      ensures Valid() && SameButWake(old(groups), groups)
      ensures out == FirstFit(groups[d].items, Ready(items, byKey, now), max)
    {
      hide OrderOk, KeysOk, GroupsOk, ParkedOk, CountsOk, WakesOk, SizesOk, Eligible, Due, FirstFit;
      GroupMembers(items, groups, d);
      var next;
      out, next := Scan(groups[d].items, now, max);
      if out == [] {
        ghost var found := next;
        var limit := now + MAX_WAKE_SKEW;
        if next == ZERO_TIME || next > limit {
          next := limit;
        }
        forall id <- groups[d].items ensures Asleep(items[id], id, byKey, next) {
          assert Later(items[id], id, byKey, now, found);
        }
        SleepOk(items, byKey, groups, d, now, next);
        groups := groups[d := groups[d].(wake := next)];
      }
    }

    /** The first half of selectLease: the oldest of every group that is not skipped and
        not known to have nothing due. Groups come in any order. */
    method Collect(now: Time, req: Request) returns (lists: seq<seq<Text>>, ghost sets: seq<set<Text>>)
      requires Valid() && 0 <= now && 1 <= req.max
      modifies this`groups
      ensures Valid() && SameButWake(old(groups), groups)
      ensures Mergeable(items, lists) && UnionSets(sets) == Wanted(items, byKey, now, req)
      ensures |lists| == |sets| && forall i :: 0 <= i < |lists| ==> Oldest(items, lists[i], sets[i], req.max)
    {
      hide OrderOk, KeysOk, GroupsOk, ParkedOk, CountsOk, WakesOk, SizesOk, WantedIn, Wanted, FirstFit, Fitting;
      hide Oldest, Union, UnionSets;
      lists, sets := [], [];
      ghost var done: seq<Text> := [];
      var deps := if req.blockedOn != [] then groups.Keys * {req.blockedOn} else groups.Keys;
      StartGathering(items, byKey, now, req, groups, deps);
      while deps != {}
        invariant Valid() && SameButWake(old(groups), groups) && deps <= groups.Keys
        invariant Gathered(items, byKey, now, req, lists, sets, done, deps)
        decreases |deps|
      {
        var d :| d in deps;
        deps := deps - {d};
        if d in req.skip || (groups[d].wake != ZERO_TIME && now < groups[d].wake) {
          NothingWanted(items, byKey, now, req, groups, d);
          SkipGroup(items, byKey, now, req, lists, sets, done, deps, d);
        } else {
          var l := ScanGroup(d, now, req.max);
          ScanOldest(items, byKey, now, groups, d, req.max);
          TakeGroup(items, byKey, now, req, lists, sets, done, deps, d, l);
          if l != [] {
            lists, sets, done := lists + [l], sets + [WantedIn(items, byKey, now, d)], done + [d];
          }
        }
      }
      AllGathered(items, byKey, now, req, lists, sets, done);
    }

    /** selectLease: exactly the first max records, in arrival order, that a lease may
        take. Only cached wake times change. */
    method Select(now: Time, req: Request) returns (out: seq<Text>)
      requires Valid() && 0 <= now && 1 <= req.max
      modifies this`groups
      ensures Valid() && Abs() == old(Abs())
      ensures out == FirstFit(order, Takes(items, byKey, now, req), req.max)
    {
      hide KeysOk, GroupsOk, ParkedOk, CountsOk, WakesOk, SizesOk, FirstFit, Oldest, Union, UnionSets, Wanted, Total;
      ghost var sets;
      var lists;
      lists, sets := Collect(now, req);
      AscendingDistinct(items, order, seqNo);
      out := Merge(items, lists, req.max);
      OldestOfOldest(items, lists, sets, out, req.max);
      FirstFitOldest(items, order, Takes(items, byKey, now, req), req.max);
      TakesWanted(items, order, seqNo, byKey, now, req);
      OldestUnique(items, out, FirstFit(order, Takes(items, byKey, now, req), req.max), Wanted(items, byKey, now, req), req.max);
    }

    // ---- replaying a log ----

    method ReplayLeases(ids: seq<Text>)
      requires Valid()
      modifies this
      ensures Valid() && Abs() == Queues.ReplayLeases(old(Abs()), ids)
    {
      hide Valid;
      for i := 0 to |ids|
        invariant Valid() && Abs() == Queues.ReplayLeases(old(Abs()), ids[..i])
      {
        assert ids[..i + 1][..i] == ids[..i];
        ReplayLease(ids[i]);
      }
      assert ids[..|ids|] == ids;
    }

    /** applyEntry, after decoding: what a log entry does. */
    method ApplyEntry(e: Entry)
      requires Valid() && (e.Append? && e.rec.id !in items ==> seqNo < e.rec.seqNo)
      modifies this
      ensures Valid() && Abs() == Replay(old(Abs()), e)
    {
      hide Valid, Nacked, Released, ParkedItem, Requeued, WithCheckpoint;
      match e
      case Append(rec) => Insert(rec);
      case Lease(ids) => ReplayLeases(ids);
      case Checkpoint(id, cp) => if id in items { SetCheckpoint(id, cp); }
      case Ack(id) => if id in items { Remove(id); ItemsRemove(old(items), id); }
      case Nack(id, at, next, text, blockedOn, refund) =>
        if id in items { ApplyNack(id, at, next, text, blockedOn, refund); }
      case Release(id) => if id in items { ApplyRelease(id); }
      case Park(id, at, reason) => if id in items { ApplyPark(id, at, reason); }
      case Requeue(id, replace) => if id in items && items[id].it.rec.state == Parked { ApplyRequeue(id, replace); }
      case Discard(id) =>
        if id in items && items[id].it.rec.state == Parked { Remove(id); ItemsRemove(old(items), id); }
    }

    /** applyEntry with payloads on disk: what it carries is left there, and counted. */
    method ApplyOffloaded(e: Entry)
      requires Valid() && offload && (e.Append? && e.rec.id !in items ==> seqNo < e.rec.seqNo)
      modifies this
      ensures Valid() && Abs() == Replay(old(Abs()), Blobs.MetaEntry(e))
    {
      hide Valid, Nacked, Released, ParkedItem, Requeued, WithCheckpoint, Queues.Insert, Blobs.Meta;
      match e
      case Append(rec) => InsertOffloaded(rec);
      case Checkpoint(id, cp) => if id in items { SetCheckpointRef(id, BlobLen(cp)); }
      case Requeue(id, replace) => if id in items && items[id].it.rec.state == Parked { RequeueOffloaded(id, replace); }
      case _ => ApplyEntry(e);
    }

    /** replayRequeue: a checkpoint that is replaced lives on disk. */
    method RequeueOffloaded(id: Text, replace: Option<Option<Bytes>>)
      requires Valid() && offload && id in items
      modifies this
      ensures Valid() && Abs() == Set(old(Abs()), id, Requeued(old(items[id].it), if replace.Some? then Some(None) else None))
    {
      hide Valid;
      ApplyRequeue(id, None);
      assert id in Abs().items;
      if replace.Some? {
        SetCheckpointRef(id, BlobLen(replace.value));
        RequeuedTwice(old(Abs()), id, old(items[id].it));
      }
    }

    /** One turn of endReplay's loop. */
    method Settle(id: Text)
      requires Valid() && id in items
      modifies this`items, this`groups, this`parked, this`parkedHint, this`counts
      ensures Valid() && items.Keys == old(items).Keys && items[id].it == Unleased(old(items[id].it))
      ensures forall x <- items :: x != id ==> items[x].it == old(items)[x].it
    {
      hide Sound, SizesOk;
      var it := items[id].it;
      if it.rec.state == Leased {
        Move(id, Pending, it.rec.blockedOn);
        Assign(id, items[id].(it := Unleased(it)));
        assert items == old(items)[id := items[id]];
        SizesSame(old(items), offload, id, items[id]);
      }
    }

    /** endReplay: leases of a process that is gone become pending again. */
    method EndReplay()
      requires Valid()
      modifies this`items, this`groups, this`parked, this`parkedHint, this`counts
      ensures Valid() && Abs() == Queues.EndReplay(old(Abs()))
    {
      hide Valid, Unleased;
      assert (forall id <- items :: id in order) && OrderedOnce(order) by {
        AllOrdered();
      }
      var i := 0;
      while i < |order|
        invariant i <= |order| && Valid() && items.Keys == old(items).Keys
        invariant forall id <- items :: items[id].it == if id in order[..i] then Unleased(old(items)[id].it) else old(items)[id].it
      {
        var id := order[i];
        assert order[..i + 1] == order[..i] + [id];
        OnlyOrdered(id);
        Settle(id);
        i := i + 1;
      }
      assert order[..|order|] == order;
      UnleasedAll(old(items), items, seqNo);
    }

    lemma AllOrdered()
      requires Valid()
      ensures (forall id <- items :: id in order) && OrderedOnce(order)
    {
      forall i, j | 0 <= i < j < |order| ensures order[i] != order[j] {
        assert SeqOf(items, order[i]) < SeqOf(items, order[j]);
      }
    }

    lemma OnlyOrdered(id: Text)
      requires Valid() && id in order
      ensures id in items
    {
    }
  }

  ghost predicate OrderedOnce(order: seq<Text>) { forall i, j :: 0 <= i < j < |order| ==> order[i] != order[j] }

  function Unleased(it: Item): Item { if it.rec.state == Leased then SettledItem(it) else it }

  lemma UnleasedAll(m: Slots, m': Slots, seqNo: nat)
    requires m'.Keys == m.Keys && forall id <- m' :: m'[id].it == Unleased(m[id].it)
    ensures Queue(ItemsOf(m'), seqNo) == Queues.EndReplay(Queue(ItemsOf(m), seqNo))
  {
    hide SettledItem;
    SameMaps(ItemsOf(m'), Queues.EndReplay(Queue(ItemsOf(m), seqNo)).items);
  }

  const MAX_WAKE_SKEW: Time := 1000000000

  datatype Request = Request(blockedOn: Text, skip: seq<Text>, max: nat)

  predicate Considers(req: Request, dep: Text) { (req.blockedOn == [] || dep == req.blockedOn) && dep !in req.skip }

  function Ready(m: Slots, byKey: map<Text, seq<Text>>, now: Time): (ok: Text -> bool)
    ensures forall id :: ok(id) <==> id in m && Eligible(m[id], id, byKey, now)
  {
    id => id in m && Eligible(m[id], id, byKey, now)
  }

  /** What a lease may take, record by record: the specification of selectLease. */
  function Takes(m: Slots, byKey: map<Text, seq<Text>>, now: Time, req: Request): (ok: Text -> bool)
    ensures forall id :: ok(id) <==> id in m && Eligible(m[id], id, byKey, now) && Considers(req, m[id].it.rec.blockedOn)
  {
    id => id in m && Eligible(m[id], id, byKey, now) && Considers(req, m[id].it.rec.blockedOn)
  }

  ghost function Wanted(m: Slots, byKey: map<Text, seq<Text>>, now: Time, req: Request): set<Text> {
    set id | id in m && Eligible(m[id], id, byKey, now) && Considers(req, m[id].it.rec.blockedOn)
  }

  ghost function WantedIn(m: Slots, byKey: map<Text, seq<Text>>, now: Time, d: Text): set<Text> {
    set id | id in m && Eligible(m[id], id, byKey, now) && m[id].it.rec.blockedOn == d
  }

  lemma HeadsOldest(m: Slots, byKey: map<Text, seq<Text>>, id: Text, q: Queue)
    requires KeysOk(m, byKey) && id in m && q.items == ItemsOf(m) && m[id].it.rec.orderKey != []
    ensures Heads(m[id], id, byKey) <==> Store.IsHead(q, id)
  {
    var k := m[id].it.rec.orderKey;
    var l := byKey[k];
    HeadFirst(m, l);
    if l[0] != id {
      assert id in l[1..] && m[l[0]].it.rec.orderKey == k;
      assert l[0] in q.items && q.items[l[0]].rec.seqNo < q.items[id].rec.seqNo;
    } else {
      forall o <- q.items | q.items[o].rec.orderKey == k ensures q.items[id].rec.seqNo <= q.items[o].rec.seqNo {
        assert o in l;
      }
    }
  }

  /** The machine's own test of eligibility, which looks only at the first record of a
      key's list, is the queue's: nothing older shares the key. */
  lemma EligibleMeans(m: Slots, byKey: map<Text, seq<Text>>, id: Text, now: Time, q: Queue)
    requires KeysOk(m, byKey) && id in m && q.items == ItemsOf(m)
    ensures Eligible(m[id], id, byKey, now) <==> !m[id].reserved && Store.Eligible(q, id, now)
  {
    if m[id].it.rec.orderKey != [] {
      HeadsOldest(m, byKey, id, q);
    }
  }

  /** What a lease may take: stored, not reserved, due and first of its key, of the dependency
      asked for if one is, and of none that is to be skipped. */
  lemma TakesMeans(m: Slots, byKey: map<Text, seq<Text>>, now: Time, req: Request, id: Text, q: Queue)
    requires KeysOk(m, byKey) && q.items == ItemsOf(m)
    ensures Takes(m, byKey, now, req)(id) <==>
              && id in m && !m[id].reserved && Store.Eligible(q, id, now)
              && (req.blockedOn == [] || m[id].it.rec.blockedOn == req.blockedOn)
              && forall d <- req.skip :: m[id].it.rec.blockedOn != d
  {
    if id in m {
      hide Eligible, Store.Eligible, KeysOk;
      EligibleMeans(m, byKey, id, now, q);
    }
  }

  /** What selectLease returns may be handed out as it is: at most as many as asked, each
      once, each eligible, of what the caller asked for. */
  lemma SelectionAllowed(m: Slots, order: seq<Text>, seqNo: nat, byKey: map<Text, seq<Text>>, now: Time, req: Request, q: Queue)
    requires OrderOk(m, order, seqNo) && KeysOk(m, byKey) && q.items == ItemsOf(m)
    ensures var out := FirstFit(order, Takes(m, byKey, now, req), req.max);
            && |out| <= req.max && Store.Distinct(out)
            && forall id <- out ::
                 && id in m && !m[id].reserved && Store.Eligible(q, id, now)
                 && (req.blockedOn == [] || m[id].it.rec.blockedOn == req.blockedOn) && m[id].it.rec.blockedOn !in req.skip
  {
    hide KeysOk, Store.Eligible, Takes, FirstFit;
    var ok := Takes(m, byKey, now, req);
    var out := FirstFit(order, ok, req.max);
    AscendingDistinct(m, order, seqNo);
    FirstFitPicks(order, ok, req.max);
    forall id <- out
      ensures && id in m && !m[id].reserved && Store.Eligible(q, id, now)
              && (req.blockedOn == [] || m[id].it.rec.blockedOn == req.blockedOn) && m[id].it.rec.blockedOn !in req.skip
    {
      TakesMeans(m, byKey, now, req, id, q);
    }
  }

  lemma {:induction false} FirstFitPicks(l: seq<Text>, ok: Text -> bool, max: nat)
    requires OrderedOnce(l)
    ensures var out := FirstFit(l, ok, max);
            |out| <= max && Store.Distinct(out) && forall id <- out :: id in l && ok(id)
  {
    if l != [] && max > 0 {
      var rest := l[1..];
      assert forall i :: 0 <= i < |rest| ==> rest[i] == l[i + 1];
      FirstFitPicks(rest, ok, max);
      FirstFitPicks(rest, ok, max - 1);
      assert l[0] !in rest;
    }
  }

  lemma TakesWanted(m: Slots, order: seq<Text>, seqNo: nat, byKey: map<Text, seq<Text>>, now: Time, req: Request)
    requires OrderOk(m, order, seqNo)
    ensures Fitting(order, Takes(m, byKey, now, req)) == Wanted(m, byKey, now, req)
  {
  }

  lemma ScanOldest(m: Slots, byKey: map<Text, seq<Text>>, now: Time, groups: map<Text, Group>, d: Text, max: nat)
    requires GroupsOk(m, groups) && d in groups
    ensures Oldest(m, FirstFit(groups[d].items, Ready(m, byKey, now), max), WantedIn(m, byKey, now, d), max)
  {
    var l, ok := groups[d].items, Ready(m, byKey, now);
    assert GroupOk(m, d, groups[d]);
    FirstFitOldest(m, l, ok, max);
    hide Oldest, FirstFit;
    assert Fitting(l, ok) == WantedIn(m, byKey, now, d);
  }

  lemma NothingWanted(m: Slots, byKey: map<Text, seq<Text>>, now: Time, req: Request, groups: map<Text, Group>, d: Text)
    requires WakesOk(m, byKey, groups) && d in groups
    requires d in req.skip || (groups[d].wake != ZERO_TIME && now < groups[d].wake)
    ensures forall id <- Wanted(m, byKey, now, req) :: m[id].it.rec.blockedOn != d
  {
  }

  /** The groups already looked at have given all they have to give. */
  ghost predicate Gathered(m: Slots, byKey: map<Text, seq<Text>>, now: Time, req: Request,
                           lists: seq<seq<Text>>, sets: seq<set<Text>>, done: seq<Text>, deps: set<Text>) {
    && |lists| == |sets| == |done|
    && (forall i :: 0 <= i < |lists| ==> Oldest(m, lists[i], sets[i], req.max) && sets[i] == WantedIn(m, byKey, now, done[i]))
    && (forall i :: 0 <= i < |done| ==> done[i] !in deps && Considers(req, done[i]))
    && (forall i, j :: 0 <= i < j < |done| ==> done[i] != done[j])
    && (forall d <- deps :: req.blockedOn == [] || d == req.blockedOn)
    && (forall id <- Wanted(m, byKey, now, req) :: m[id].it.rec.blockedOn in deps || m[id].it.rec.blockedOn in done)
  }

  lemma StartGathering(m: Slots, byKey: map<Text, seq<Text>>, now: Time, req: Request, groups: map<Text, Group>,
      deps: set<Text>)
    requires GroupsOk(m, groups) && deps == if req.blockedOn != [] then groups.Keys * {req.blockedOn} else groups.Keys
    ensures Gathered(m, byKey, now, req, [], [], [], deps)
  {
    hide Oldest;
  }

  lemma SkipGroup(m: Slots, byKey: map<Text, seq<Text>>, now: Time, req: Request,
                  lists: seq<seq<Text>>, sets: seq<set<Text>>, done: seq<Text>, deps: set<Text>, d: Text)
    requires Gathered(m, byKey, now, req, lists, sets, done, deps + {d})
    requires forall id <- Wanted(m, byKey, now, req) :: m[id].it.rec.blockedOn != d
    ensures Gathered(m, byKey, now, req, lists, sets, done, deps)
  {
    hide Oldest, WantedIn, Wanted;
  }

  lemma TakeGroup(m: Slots, byKey: map<Text, seq<Text>>, now: Time, req: Request,
                  lists: seq<seq<Text>>, sets: seq<set<Text>>, done: seq<Text>, deps: set<Text>, d: Text, l: seq<Text>)
    requires Gathered(m, byKey, now, req, lists, sets, done, deps + {d}) && d !in deps && d !in req.skip && 1 <= req.max
    requires Oldest(m, l, WantedIn(m, byKey, now, d), req.max)
    ensures l == [] ==> Gathered(m, byKey, now, req, lists, sets, done, deps)
    ensures Gathered(m, byKey, now, req, lists + [l], sets + [WantedIn(m, byKey, now, d)], done + [d], deps)
  {
    if l == [] {
      forall id <- Wanted(m, byKey, now, req) ensures m[id].it.rec.blockedOn != d {
        assert id !in WantedIn(m, byKey, now, d);
      }
      SkipGroup(m, byKey, now, req, lists, sets, done, deps, d);
    }
    hide Oldest, WantedIn, Wanted;
    assert d in deps + {d};
  }

  lemma AllGathered(m: Slots, byKey: map<Text, seq<Text>>, now: Time, req: Request,
                    lists: seq<seq<Text>>, sets: seq<set<Text>>, done: seq<Text>)
    requires Gathered(m, byKey, now, req, lists, sets, done, {})
    ensures Mergeable(m, lists) && UnionSets(sets) == Wanted(m, byKey, now, req)
  {
    forall l <- lists ensures Ascending(m, l) {
      var i :| 0 <= i < |lists| && lists[i] == l;
    }
    forall i, j, x | 0 <= i < j < |lists| && x in lists[i] ensures x !in lists[j] {
      assert x in sets[i] && done[i] != done[j];
    }
    forall x ensures x in UnionSets(sets) <==> x in Wanted(m, byKey, now, req) {
      if x in UnionSets(sets) {
        var t :| t in sets && x in t;
        var i :| 0 <= i < |sets| && sets[i] == t;
        assert Considers(req, done[i]);
      }
      if x in Wanted(m, byKey, now, req) {
        var i :| 0 <= i < |done| && done[i] == m[x].it.rec.blockedOn;
        assert x in sets[i] && sets[i] in sets;
      }
    }
  }

  ghost predicate SameButWake(a: map<Text, Group>, b: map<Text, Group>) {
    a.Keys == b.Keys && forall d <- a :: b[d] == a[d].(wake := b[d].wake)
  }

  /** Not to be had now, nor before next unless nothing is known about next. */
  ghost predicate Later(s: Slot, id: Text, byKey: map<Text, seq<Text>>, now: Time, next: Time) {
    s.reserved || !Heads(s, id, byKey) || (now < Due(s) && next != ZERO_TIME && next <= Due(s))
  }

  lemma GrantNone(q: Queue, ids: seq<Text>, tokens: seq<Token>, until: Time)
    requires |ids| == |tokens|
    ensures Store.Grant(q, ids[..0], tokens[..0], until) == q
  {
  }

  /** One more record is granted. */
  lemma GrantNext(q: Queue, ids: seq<Text>, tokens: seq<Token>, until: Time, i: nat)
    requires |ids| == |tokens| && i < |ids|
    ensures var g := Store.Grant(q, ids[..i], tokens[..i], until);
            Store.Grant(q, ids[..i + 1], tokens[..i + 1], until) ==
            if ids[i] in g.items then Set(g, ids[i], Store.Granted(g.items[ids[i]], tokens[i], until)) else g
  {
    assert ids[..i + 1][..i] == ids[..i] && tokens[..i + 1][..i] == tokens[..i];
  }

  lemma FirstFitNone(l: seq<Text>, ok: Text -> bool)
    ensures FirstFit(l, ok, 0) == [] && forall max: nat :: FirstFit([], ok, max) == []
  {
  }

  lemma FirstFitStep(l: seq<Text>, i: nat, ok: Text -> bool, max: nat)
    requires i < |l| && 0 < max
    ensures FirstFit(l[i..], ok, max) ==
            if ok(l[i]) then [l[i]] + FirstFit(l[i + 1..], ok, max - 1) else FirstFit(l[i + 1..], ok, max)
  {
    assert l[i..][1..] == l[i + 1..];
  }

  lemma GroupMembers(m: Slots, groups: map<Text, Group>, d: Text)
    requires GroupsOk(m, groups) && d in groups
    ensures forall id <- groups[d].items :: id in m && m[id].it.rec.state != Parked
  {
    assert GroupOk(m, d, groups[d]);
  }

  lemma NotYet(s: Slot, id: Text, byKey: map<Text, seq<Text>>, now: Time, next: Time)
    requires !Eligible(s, id, byKey, now) && s.it.rec.state != Parked && 0 <= now
    requires Due(s) > now ==> next != ZERO_TIME && next <= Due(s)
    ensures Later(s, id, byKey, now, next)
  {
  }

  lemma EarlierStill(s: Slot, id: Text, byKey: map<Text, seq<Text>>, now: Time, was: Time, next: Time)
    requires Later(s, id, byKey, now, was) && (was != ZERO_TIME ==> next != ZERO_TIME && next <= was)
    ensures Later(s, id, byKey, now, next)
  {
  }

  lemma SleepOk(m: Slots, byKey: map<Text, seq<Text>>, groups: map<Text, Group>, d: Text, now: Time, wake: Time)
    requires GroupsOk(m, groups) && WakesOk(m, byKey, groups) && d in groups
    requires forall id <- groups[d].items :: id in m && Asleep(m[id], id, byKey, wake)
    ensures GroupsOk(m, groups[d := groups[d].(wake := wake)]) && WakesOk(m, byKey, groups[d := groups[d].(wake := wake)])
  {
    var groups' := groups[d := groups[d].(wake := wake)];
    forall e <- groups' ensures GroupOk(m, e, groups'[e]) {
      assert GroupOk(m, e, groups[e]);
    }
    assert GroupOk(m, d, groups[d]);
  }

  lemma RequeuedTwice(q: Queue, id: Text, it: Item)
    ensures Set(Set(q, id, Requeued(it, None)), id, WithCheckpoint(Requeued(it, None), None)) == Set(q, id, Requeued(it, Some(None)))
  {
  }

  lemma MetaSize(r: Record)
    ensures Size(Blobs.Meta(r)) + BodySize(r) + BlobLen(r.checkpoint) == Size(r)
  {
  }

  lemma SizeWeighs(r: Record)
    ensures Weight(Slot(Item(r, None, ZERO_TIME), 0, 0, Size(r), false, 0)) == Size(r)
  {
  }

  lemma TotalAppended(m: Slots, order: seq<Text>, seqNo: nat, id: Text, s: Slot)
    requires OrderOk(m, order, seqNo) && id !in m
    ensures Total(m[id := s], order + [id]) == Total(m, order) + s.size
  {
    TotalAppend(m[id := s], order, id);
    TotalElsewhere(m, m[id := s], order);
  }

  lemma BoundedSeqs(m: Slots, order: seq<Text>, seqNo: nat)
    requires OrderOk(m, order, seqNo)
    ensures forall x <- m :: SeqOf(m, x) <= seqNo
  {
  }

  lemma SizesWithout(m: Slots, offload: bool, id: Text)
    requires SizesOk(m, offload)
    ensures SizesOk(m - {id}, offload)
  {
  }

  lemma SizesSame(m: Slots, offload: bool, id: Text, s: Slot)
    requires SizesOk(m, offload) && id in m && s.size == m[id].size && Weight(s) == Weight(m[id])
    requires s.bodyN == m[id].bodyN && s.ckptN == m[id].ckptN
    ensures SizesOk(m[id := s], offload)
  {
  }

  lemma WokenAwake(s: Slot, groups: map<Text, Group>)
    ensures Awake(s, Woken(groups, s.it.rec.blockedOn))
  {
  }

  lemma NextStored(m: Slots, id: Text, byKey: map<Text, seq<Text>>)
    requires id in m && KeysOk(m, byKey)
    ensures var n := NextHead(byKey, m[id].it.rec.orderKey, id);
            n.Some? ==> n.value in m && n.value != id
  {
    var k := m[id].it.rec.orderKey;
    if k in byKey && byKey[k] != [] {
      TailAscending(m, byKey[k]);
    }
  }

  function Moved(s: Slot, state: State, dep: Text): Slot {
    s.(it := s.it.(rec := s.it.rec.(state := state, blockedOn := dep)), ver := s.ver + 1)
  }

  lemma InOrder(m: Slots, order: seq<Text>, seqNo: nat, id: Text)
    requires OrderOk(m, order, seqNo) && id in m
    ensures id in order && Ascending(m, order)
  {
  }

  lemma GroupsWoken(m: Slots, id: Text, s: Slot, groups: map<Text, Group>)
    requires id in m && SameShape(m[id].it, s.it) && GroupsOk(m, groups)
    requires s.it.rec.blockedOn == m[id].it.rec.blockedOn && s.it.rec.state != Parked && m[id].it.rec.state != Parked
    ensures GroupsOk(m[id := s], Woken(groups, s.it.rec.blockedOn)) && Awake(s, Woken(groups, s.it.rec.blockedOn))
  {
    RestatedGroups(m, id, s, groups);
    var d := s.it.rec.blockedOn;
    var groups' := Woken(groups, d);
    forall e <- groups' ensures GroupOk(m[id := s], e, groups'[e]) {
      assert GroupOk(m[id := s], e, groups[e]);
    }
  }

  /** The record is not to be had any earlier. */
  predicate Quiet(s: Slot, s': Slot) { (s.reserved ==> s'.reserved) && Due(s) <= Due(s') }

  lemma QuietWakes(m: Slots, id: Text, s: Slot, byKey: map<Text, seq<Text>>, groups: map<Text, Group>)
    requires id in m && WakesOk(m, byKey, groups) && Quiet(m[id], s) && SameShape(m[id].it, s.it)
    requires s.it.rec.state == m[id].it.rec.state && s.it.rec.blockedOn == m[id].it.rec.blockedOn
    ensures WakesOk(m[id := s], byKey, groups)
  {
  }

  /** A change that leaves state and size alone keeps the lists, counts and bytes. */
  lemma Restated(m: Slots, id: Text, s: Slot, order: seq<Text>, byKey: map<Text, seq<Text>>, seqNo: nat,
      counts: map<State, int>)
    requires id in m && SameShape(m[id].it, s.it) && OrderOk(m, order, seqNo) && KeysOk(m, byKey) && CountsOk(m, counts)
    requires s.it.rec.state == m[id].it.rec.state && s.size == m[id].size
    ensures OrderOk(m[id := s], order, seqNo) && KeysOk(m[id := s], byKey) && CountsOk(m[id := s], counts)
    ensures Total(m[id := s], order) == Total(m, order)
  {
    ReshapedLists(m, id, s, order, byKey, seqNo);
    InOrder(m, order, seqNo, id);
    TotalSet(m, order, id, s);
    forall st: State ensures Of(m[id := s], st) == Of(m, st) {
    }
  }

  lemma ResizedIndex(m: Slots, id: Text, s: Slot, byKey: map<Text, seq<Text>>, groups: map<Text, Group>,
      counts: map<State, int>)
    requires id in m && s == m[id].(size := s.size) && WakesOk(m, byKey, groups) && CountsOk(m, counts)
    ensures WakesOk(m[id := s], byKey, groups) && CountsOk(m[id := s], counts)
  {
    forall st: State ensures Of(m[id := s], st) == Of(m, st) {
    }
  }
}
