/** Leasing when payloads live on disk (Lease, commitLease and parkUnreadableLocked in
    dlq/wal_write.go): pick and reserve under the lock, read payloads without it, then
    take the lock again and hand out what did not change. Any number of leases,
    compactions and calls by other workers interleave. */
module ThreeStepLease {
  import opened Records
  import opened Blobs
  import opened Compaction
  import Queues
  import Store

  datatype Reading =
    | Unread
    | Payload(rec: Record)
    | Failed // the file moved, is damaged, or the read itself failed

  /** A record a lease has picked. full is what it was then. */
  datatype Cand = Cand(full: Record, refs: Refs, ver: nat, read: Reading)

  datatype System = System(
    c: Storage,
    reserved: set<nat>,           // sequence numbers
    until: map<nat, Time>,        // when the latest lease of a record ends
    flights: map<nat, seq<Cand>>, // leases between their first and last step
    damaged: set<Ref>)            // frames that can no longer be read

  function Until(s: System, seqNo: nat): Time { if seqNo in s.until then s.until[seqNo] else ZERO_TIME }

  ghost predicate Oldest(items: map<Text, Stored>, r: Record) {
    forall o <- items :: items[o].full.orderKey == r.orderKey ==> r.seqNo <= items[o].full.seqNo
  }

  /** May be leased at now, as the queue judges it, with these reservations. */
  ghost predicate Eligible(s: System, reserved: set<nat>, id: Text, now: Time) {
    && id in s.c.items
    && var r := s.c.items[id].full;
    && r.seqNo !in reserved
    && (match r.state
        case Parked => false
        case Pending => r.nextAttempt <= now
        case Leased => Until(s, r.seqNo) <= now)
    && (r.orderKey != [] ==> Oldest(s.c.items, r))
  }

  ghost function Numbers(cs: seq<Cand>): set<nat> { set k | k in cs :: k.full.seqNo }

  // ---- the three steps ----

  function Picks(items: map<Text, Stored>, ids: seq<Text>): (cs: seq<Cand>)
    requires forall id <- ids :: id in items
    ensures |cs| == |ids| && forall i :: 0 <= i < |ids| ==> cs[i] == Cand(items[ids[i]].full, items[ids[i]].refs, items[ids[i]].ver, Unread)
  {
    seq(|ids|, i requires 0 <= i < |ids| => Cand(items[ids[i]].full, items[ids[i]].refs, items[ids[i]].ver, Unread))
  }

  ghost predicate Distinct(ids: seq<Text>) { forall i, j :: 0 <= i < j < |ids| ==> ids[i] != ids[j] }

  /** Step one, under the lock: reserve what selectLease picked. */
  ghost predicate DoSelect(s: System, l: nat, ids: seq<Text>, now: Time, t: System) {
    && l !in s.flights && Distinct(ids) && (forall id <- ids :: Eligible(s, s.reserved, id, now))
    && var cs := Picks(s.c.items, ids);
       t == s.(flights := s.flights[l := cs], reserved := s.reserved + Numbers(cs))
  }

  /** Step two, without it: a read gives what the frames hold, or fails. */
  ghost predicate DoRead(s: System, l: nat, i: nat, ok: bool, t: System) {
    && l in s.flights && i < |s.flights[l]|
    && var k := s.flights[l][i];
       var r := Hydrate(s.c.frames, Meta(k.full), k.refs);
    && (ok ==> r.Some?)
    && t == s.(flights := s.flights[l := s.flights[l][i := k.(read := if ok then Payload(r.value) else Failed)]])
  }

  /** A candidate that nobody has touched since it was picked and that may still be leased. */
  ghost predicate Unchanged(s: System, reserved: set<nat>, k: Cand, now: Time) {
    && Eligible(s, reserved, k.full.id, now)
    && s.c.items[k.full.id].full.seqNo == k.full.seqNo && s.c.items[k.full.id].ver == k.ver
  }

  /** A read under the lock finds the references damaged. */
  ghost predicate Damaged(s: System, id: Text)
    requires id in s.c.items
  {
    var refs := s.c.items[id].refs;
    (refs.body.Some? && refs.body.value in s.damaged) || (refs.ckpt.Some? && refs.ckpt.value in s.damaged)
  }

  /** What commitLease makes of one candidate. */
  datatype Verdict =
    | Drop              // changed, or the read under the lock failed in passing
    | Unreadable        // its payload is gone: set aside
    | Good(rec: Record) // its payload

  ghost predicate Judged(s: System, reserved: set<nat>, k: Cand, now: Time, v: Verdict) {
    if !Unchanged(s, reserved, k, now) then v == Drop
    else if k.read.Payload? then v == Good(k.read.rec)
    else
      var st := s.c.items[k.full.id];
      match v
      case Drop => true
      case Unreadable => Damaged(s, k.full.id) || !Exist(st.refs, s.c.live) || Hydrate(s.c.frames, Meta(st.full), st.refs).None?
      case Good(rec) => Hydrate(s.c.frames, Meta(st.full), st.refs) == Some(rec)
  }

  function LeasedRecord(r: Record): Record { r.(state := Leased, attempts := r.attempts + 1) }

  function ParkedRecord(r: Record, now: Time, reason: Text): Record {
    r.(state := Parked, lastFailed := now, lastError := reason)
  }

  /** What becomes of a stored record. */
  function Settled(st: Stored, v: Verdict, now: Time, reason: Text): Stored {
    match v
    case Drop => st
    case Unreadable => st.(full := ParkedRecord(st.full, now, reason), ver := st.ver + 1)
    case Good(_) => st.(full := LeasedRecord(st.full), ver := st.ver + 1)
  }

  /** The verdict on a stored record, if it was a candidate. */
  ghost function VerdictOn(cs: seq<Cand>, vs: seq<Verdict>, id: Text): Verdict
    requires |cs| == |vs|
  {
    if exists i :: 0 <= i < |cs| && cs[i].full.id == id then
      var i :| 0 <= i < |cs| && cs[i].full.id == id;
      vs[i]
    else Drop
  }

  /** The log takes every entry, or fails before the lease is written: then nothing is
      leased, and only some of the unreadable records have been set aside. */
  predicate Takes(logged: bool, judged: Verdict, v: Verdict) {
    v == judged || (!logged && v == Drop)
  }

  /** A commit: what it made of each candidate, what took effect, and when. */
  datatype Landing = Landing(judged: seq<Verdict>, vs: seq<Verdict>, logged: bool, now: Time, until: Time, reason: Text)

  /** Step three, under the lock again: every reservation is released, every candidate
      judged, and the good ones leased until the given time. */
  ghost predicate DoCommit(s: System, l: nat, x: Landing, t: System) {
    && l in s.flights && |x.judged| == |x.vs| == |s.flights[l]|
    && var cs := s.flights[l];
       var reserved := s.reserved - Numbers(cs);
    && (forall i :: 0 <= i < |cs| ==> Judged(s, reserved, cs[i], x.now, x.judged[i]) && Takes(x.logged, x.judged[i], x.vs[i]))
    && (!x.logged ==> forall v <- x.vs :: !v.Good?)
    && t == s.(
         c := s.c.(items := map id | id in s.c.items :: Settled(s.c.items[id], VerdictOn(cs, x.vs, id), x.now, x.reason)),
         reserved := reserved, flights := s.flights - {l},
         until := map n | n in s.until.Keys + Numbers(cs) :: if Granted(cs, x.vs, n) then x.until else Until(s, n))
  }

  ghost predicate Granted(cs: seq<Cand>, vs: seq<Verdict>, n: nat)
    requires |cs| == |vs|
  {
    exists i :: 0 <= i < |cs| && cs[i].full.seqNo == n && vs[i].Good?
  }

  /** commitLease gives up (the store failed, or the caller's context ended): the
      reservations are released all the same. */
  ghost predicate DoGiveUp(s: System, l: nat, t: System) {
    l in s.flights && t == s.(reserved := s.reserved - Numbers(s.flights[l]), flights := s.flights - {l})
  }

  /** Anything else that happens to the queue or its files. Only a lease leases. */
  ghost predicate DoOther(s: System, a: Step, t: System) {
    && Does(s.c, a, t.c) && t == s.(c := t.c)
    && (a.Change? ==> a.to.state != Leased)
    && (a.SetCheckpoint? && a.id in s.c.items ==> a.to.state == s.c.items[a.id].full.state || a.to.state == Pending)
    && (a.Append? ==> a.rec.state != Leased)
  }

  /** What a lease hands out: the metadata as granted, the payload as read. */
  function Handed(st: Stored, v: Verdict): Record
    requires v.Good?
  {
    WithPayload(Meta(LeasedRecord(st.full)), v.rec)
  }

  // ---- as the queue sees it ----

  /** The same records in a queue, with the ends of their leases. */
  ghost predicate SameQueue(s: System, q: Queues.Queue) {
    && q.items.Keys == s.c.items.Keys
    && forall id <- q.items :: q.items[id].rec == s.c.items[id].full && q.items[id].until == Until(s, s.c.items[id].full.seqNo)
  }

  /** A record may be picked exactly if the queue would lease it and nobody has reserved it. */
  lemma EligibleAsQueue(s: System, reserved: set<nat>, id: Text, now: Time, q: Queues.Queue)
    requires SameQueue(s, q)
    ensures Eligible(s, reserved, id, now) <==> Store.Eligible(q, id, now) && s.c.items[id].full.seqNo !in reserved
  {
  }

  /** Leasing and setting aside do to the record what they do in the queue. */
  lemma SettledAsQueue(st: Stored, it: Queues.Item, v: Verdict, now: Time, reason: Text, token: Queues.Token, until: Time)
    requires it.rec == st.full
    ensures Settled(st, v, now, reason).full ==
              match v
              case Drop => it.rec
              case Unreadable => Queues.ParkedItem(it, now, reason).rec
              case Good(_) => Store.Granted(it, token, until).rec
  {
  }

  // ---- what every step keeps ----

  /** A candidate still resolves to what it was, and if the record still has the version
      it had, the record still is what it was. */
  ghost predicate CandOk(s: System, k: Cand) {
    && k.full.seqNo <= s.c.seqNo && Resolves(s.c.frames, k.refs, k.full)
    && (k.read.Payload? ==> k.read.rec == k.full)
    && (k.full.id in s.c.items && s.c.items[k.full.id].full.seqNo == k.full.seqNo ==>
          var st := s.c.items[k.full.id]; k.ver <= st.ver && (k.ver == st.ver ==> st.full == k.full))
  }

  /** One lease's candidates are different records. */
  ghost predicate Different(cs: seq<Cand>) {
    forall i, j :: 0 <= i < j < |cs| ==> cs[i].full.id != cs[j].full.id
  }

  /** No two leases have picked the same record. */
  ghost predicate Disjoint(flights: map<nat, seq<Cand>>) {
    && (forall a <- flights :: Different(flights[a]))
    && (forall a <- flights, b <- flights :: a != b ==> Numbers(flights[a]) !! Numbers(flights[b]))
  }

  ghost predicate OneEach(items: map<Text, Stored>) {
    forall a <- items, b <- items :: items[a].full.seqNo == items[b].full.seqNo ==> a == b
  }

  /** Every candidate is sound and reserved ... */
  ghost predicate FlightsOk(s: System) {
    forall l <- s.flights :: forall k <- s.flights[l] :: CandOk(s, k) && k.full.seqNo in s.reserved
  }

  /** ... and every reservation is some lease's. */
  ghost predicate Owned(flights: map<nat, seq<Cand>>, reserved: set<nat>) {
    forall n <- reserved :: exists l :: l in flights && n in Numbers(flights[l])
  }

  ghost predicate Inv(s: System) {
    Compaction.Inv(s.c) && OneEach(s.c.items) && FlightsOk(s) && Owned(s.flights, s.reserved) && Disjoint(s.flights)
  }

  /** How stored records may have evolved: untouched, or under a later version, or new. */
  ghost predicate Evolves(a: map<Text, Stored>, seqNo: nat, b: map<Text, Stored>) {
    forall id <- b ::
      || b[id].full.seqNo > seqNo
      || (id in a && b[id].full.seqNo == a[id].full.seqNo && (b[id].ver > a[id].ver || (b[id].ver == a[id].ver && b[id].full == a[id].full)))
  }

  lemma CandLater(s: System, t: System, k: Cand)
    requires CandOk(s, k) && Extends(s.c.frames, t.c.frames) && s.c.seqNo <= t.c.seqNo && Evolves(s.c.items, s.c.seqNo, t.c.items)
    ensures CandOk(t, k)
  {
    ResolvesLater(s.c.frames, t.c.frames, k.refs, k.full);
    hide Resolves;
  }

  /** Whatever else happens, frames only get added and records only move forward. */
  lemma StepEvolves(c: Storage, a: Step, c': Storage)
    requires Compaction.Inv(c) && OneEach(c.items) && Does(c, a, c')
    ensures Extends(c.frames, c'.frames) && c.seqNo <= c'.seqNo && Evolves(c.items, c.seqNo, c'.items) && OneEach(c'.items)
  {
    hide Compaction.Inv;
    match a
    case Append(rec) =>
      hide Evolves, OneEach, Extends, Logged;
      AppendEvolves(c, rec, c');
    case SetCheckpoint(id, cp, to) =>
      hide Evolves, OneEach, Extends, Logged;
      CheckpointEvolves(c, id, cp, to, c');
    case Publish =>
      hide SnapFrames;
      PublishExtends(c, c');
    case _ =>
  }

  lemma AppendEvolves(c: Storage, rec: Record, c': Storage)
    requires Compaction.Inv(c) && OneEach(c.items) && DoAppend(c, rec, c')
    ensures Extends(c.frames, c'.frames) && c.seqNo <= c'.seqNo && Evolves(c.items, c.seqNo, c'.items) && OneEach(c'.items)
  {
    hide Resolves, Copied, Seen;
    LoggedExtends(c, Whole(rec));
    forall id <- c.items ensures c.items[id].full.seqNo <= c.seqNo {
      assert ItemOk(c.items[id], id, c.seqNo, c.frames, c.live);
    }
  }

  lemma CheckpointEvolves(c: Storage, id: Text, cp: Option<Bytes>, to: Record, c': Storage)
    requires Compaction.Inv(c) && OneEach(c.items) && DoSetCheckpoint(c, id, cp, to, c')
    ensures Extends(c.frames, c'.frames) && c.seqNo <= c'.seqNo && Evolves(c.items, c.seqNo, c'.items) && OneEach(c'.items)
  {
    LoggedExtends(c, Progress(id, cp));
    hide Compaction.Inv, Extends;
  }

  lemma PublishExtends(c: Storage, c': Storage)
    requires Compaction.Inv(c) && DoPublish(c, c')
    ensures Extends(c.frames, c'.frames)
  {
    forall r <- c.frames ensures r !in SnapFrames(c.comp.value) {
    }
  }

  lemma FlightsLater(s: System, t: System)
    requires FlightsOk(s) && Extends(s.c.frames, t.c.frames) && s.c.seqNo <= t.c.seqNo && Evolves(s.c.items, s.c.seqNo, t.c.items)
    requires t.flights == s.flights && t.reserved == s.reserved
    ensures FlightsOk(t)
  {
    hide CandOk, Evolves, Extends;
    forall l <- t.flights ensures forall k <- t.flights[l] :: CandOk(t, k) && k.full.seqNo in t.reserved {
      forall k <- t.flights[l] ensures CandOk(t, k) && k.full.seqNo in t.reserved {
        CandLater(s, t, k);
      }
    }
  }

  lemma OtherKeeps(s: System, a: Step, t: System)
    requires Inv(s) && DoOther(s, a, t)
    ensures Inv(t)
  {
    hide Does, Evolves, Extends, Compaction.Inv, FlightsOk, Owned, OneEach, Disjoint;
    Compaction.StepKeeps(s.c, a, t.c);
    StepEvolves(s.c, a, t.c);
    FlightsLater(s, t);
  }

  lemma SelectKeeps(s: System, l: nat, ids: seq<Text>, now: Time, t: System)
    requires Inv(s) && DoSelect(s, l, ids, now, t)
    ensures Inv(t)
  {
    var cs := Picks(s.c.items, ids);
    SelectedOk(s, ids, now, t);
    hide CandOk, Compaction.Inv, Eligible;
    forall x <- t.flights ensures forall k <- t.flights[x] :: CandOk(t, k) && k.full.seqNo in t.reserved {
      forall k <- t.flights[x] ensures CandOk(t, k) && k.full.seqNo in t.reserved {
        if x == l {
          assert k.full.seqNo in Numbers(cs);
        } else {
          SameItems(s, t, k);
        }
      }
    }
    forall n <- t.reserved ensures exists x :: x in t.flights && n in Numbers(t.flights[x]) {
      if n in Numbers(cs) {
        assert t.flights[l] == cs;
      } else {
        var x :| x in s.flights && n in Numbers(s.flights[x]);
        assert x in t.flights && t.flights[x] == s.flights[x];
      }
    }
    SelectDisjoint(s, l, ids, now, t);
  }

  lemma SameItems(s: System, t: System, k: Cand)
    requires CandOk(s, k) && t.c == s.c
    ensures CandOk(t, k)
  {
  }

  lemma SelectedOk(s: System, ids: seq<Text>, now: Time, t: System)
    requires Inv(s) && t.c == s.c && (forall id <- ids :: Eligible(s, s.reserved, id, now)) && forall id <- ids :: id in s.c.items
    ensures forall k <- Picks(s.c.items, ids) :: CandOk(t, k) && k.full.seqNo !in s.reserved
  {
    var cs := Picks(s.c.items, ids);
    forall k <- cs ensures CandOk(t, k) && k.full.seqNo !in s.reserved {
      var i :| 0 <= i < |cs| && cs[i] == k;
      assert ItemOk(s.c.items[ids[i]], ids[i], s.c.seqNo, s.c.frames, s.c.live);
      assert Eligible(s, s.reserved, ids[i], now);
    }
  }

  lemma SelectDisjoint(s: System, l: nat, ids: seq<Text>, now: Time, t: System)
    requires Inv(s) && DoSelect(s, l, ids, now, t)
    ensures Disjoint(t.flights)
  {
    var cs := Picks(s.c.items, ids);
    SelectedOk(s, ids, now, t);
    hide CandOk, Eligible;
    forall i, j | 0 <= i < j < |cs| ensures cs[i].full.id != cs[j].full.id {
      assert ItemOk(s.c.items[ids[i]], ids[i], s.c.seqNo, s.c.frames, s.c.live);
      assert ItemOk(s.c.items[ids[j]], ids[j], s.c.seqNo, s.c.frames, s.c.live);
    }
    forall a <- s.flights ensures Numbers(s.flights[a]) !! Numbers(cs) {
      forall n <- Numbers(s.flights[a]) ensures n !in Numbers(cs) {
        var k :| k in s.flights[a] && k.full.seqNo == n;
      }
    }
  }

  lemma ReadCand(s: System, k: Cand, ok: bool, t: System)
    requires CandOk(s, k) && t.c == s.c
    requires ok ==> Hydrate(s.c.frames, Meta(k.full), k.refs).Some?
    ensures var r := Hydrate(s.c.frames, Meta(k.full), k.refs);
            CandOk(t, k.(read := if ok then Payload(r.value) else Failed))
  {
    ResolvedHydrates(s.c.frames, k.refs, k.full, Meta(k.full));
  }

  lemma ReadFlights(s: System, l: nat, i: nat, ok: bool, t: System)
    requires FlightsOk(s) && DoRead(s, l, i, ok, t)
    ensures FlightsOk(t)
  {
    var k, k' := s.flights[l][i], t.flights[l][i];
    assert k in s.flights[l];
    ReadCand(s, k, ok, t);
    hide CandOk, Hydrate;
    forall x <- t.flights ensures forall z <- t.flights[x] :: CandOk(t, z) && z.full.seqNo in t.reserved {
      forall z <- t.flights[x] ensures CandOk(t, z) && z.full.seqNo in t.reserved {
        if z in s.flights[x] {
          SameItems(s, t, z);
        } else {
          assert z == k';
        }
      }
    }
  }

  lemma ReadKeeps(s: System, l: nat, i: nat, ok: bool, t: System)
    requires Inv(s) && DoRead(s, l, i, ok, t)
    ensures Inv(t)
  {
    ReadFlights(s, l, i, ok, t);
    hide FlightsOk, Compaction.Inv, Hydrate, OneEach;
    forall x <- t.flights ensures Numbers(t.flights[x]) == Numbers(s.flights[x]) && Different(t.flights[x]) {
      ReadNumbers(s.flights[x], if x == l then i else |s.flights[x]|, t.flights[x]);
    }
    hide Numbers, Different;
    SameOwners(s.flights, t.flights, s.reserved);
  }

  lemma SameOwners(a: map<nat, seq<Cand>>, b: map<nat, seq<Cand>>, reserved: set<nat>)
    requires a.Keys == b.Keys && (forall x <- a :: Numbers(b[x]) == Numbers(a[x]) && Different(b[x]))
    requires Owned(a, reserved) && Disjoint(a)
    ensures Owned(b, reserved) && Disjoint(b)
  {
    hide Numbers, Different;
    forall n <- reserved ensures exists x :: x in b && n in Numbers(b[x]) {
      var x :| x in a && n in Numbers(a[x]);
      assert x in b && n in Numbers(b[x]);
    }
  }

  lemma ReadNumbers(cs: seq<Cand>, i: nat, cs': seq<Cand>)
    requires Different(cs) && |cs'| == |cs| && (i >= |cs| ==> cs' == cs)
    requires i < |cs| ==> cs' == cs[i := cs'[i]] && cs'[i].full == cs[i].full
    ensures Numbers(cs') == Numbers(cs) && Different(cs')
  {
    forall n ensures n in Numbers(cs') <==> n in Numbers(cs) {
      if n in Numbers(cs') {
        var k :| k in cs' && k.full.seqNo == n;
        var j :| 0 <= j < |cs'| && cs'[j] == k;
        assert cs[j] in cs && cs[j].full.seqNo == n;
      }
      if n in Numbers(cs) {
        var k :| k in cs && k.full.seqNo == n;
        var j :| 0 <= j < |cs| && cs[j] == k;
        assert cs'[j] in cs' && cs'[j].full.seqNo == n;
      }
    }
  }

  // ---- the last step ----

  predicate SamePayload(x: Record, y: Record) {
    && x.id == y.id && x.seqNo == y.seqNo && x.key == y.key && x.value == y.value && x.headers == y.headers
    && x.checkpoint == y.checkpoint
  }

  lemma SettledSame(st: Stored, v: Verdict, now: Time, reason: Text)
    ensures var st' := Settled(st, v, now, reason);
            && st'.refs == st.refs && SamePayload(st'.full, st.full)
            && (st'.ver > st.ver || st' == st)
  {
  }

  lemma PayloadKept(c: Storage, items: map<Text, Stored>)
    requires Compaction.Inv(c) && items.Keys == c.items.Keys
    requires forall id <- items :: items[id].refs == c.items[id].refs && SamePayload(items[id].full, c.items[id].full)
    ensures Compaction.Inv(c.(items := items))
  {
    hide Written, Copied, ItemOk, Seen, SamePayload;
    forall id <- items ensures ItemOk(items[id], id, c.seqNo, c.frames, c.live) {
      ItemKept(items[id], c.items[id], id, c.seqNo, c.frames, c.live);
    }
    if c.comp.Some? {
      forall id <- items ensures Seen(items[id], id, c.comp.value) {
        SeenKept(items[id], c.items[id], id, c.comp.value);
      }
    }
  }

  lemma ItemKept(x: Stored, y: Stored, id: Text, seqNo: nat, frames: Frames, live: set<FileKey>)
    requires ItemOk(y, id, seqNo, frames, live) && x.refs == y.refs && SamePayload(x.full, y.full)
    ensures ItemOk(x, id, seqNo, frames, live)
  {
  }

  lemma SeenKept(x: Stored, y: Stored, id: Text, c: Copying)
    requires Seen(y, id, c) && x.refs == y.refs && SamePayload(x.full, y.full)
    ensures Seen(x, id, c)
  {
  }

  lemma LandedFlights(s: System, l: nat, t: System)
    requires FlightsOk(s) && Disjoint(s.flights) && Owned(s.flights, s.reserved) && l in s.flights
    requires t.c.frames == s.c.frames && t.c.seqNo == s.c.seqNo && Evolves(s.c.items, s.c.seqNo, t.c.items)
    requires t.flights == s.flights - {l} && t.reserved == s.reserved - Numbers(s.flights[l])
    ensures FlightsOk(t) && Disjoint(t.flights) && Owned(t.flights, t.reserved)
  {
    hide CandOk, Evolves, Extends;
    assert Extends(s.c.frames, t.c.frames) by {
      SelfExtends(s.c.frames);
    }
    forall x <- t.flights ensures forall k <- t.flights[x] :: CandOk(t, k) && k.full.seqNo in t.reserved {
      forall k <- t.flights[x] ensures CandOk(t, k) && k.full.seqNo in t.reserved {
        CandLater(s, t, k);
        assert k.full.seqNo in Numbers(s.flights[x]);
      }
    }
    forall n <- t.reserved ensures exists x :: x in t.flights && n in Numbers(t.flights[x]) {
      var x :| x in s.flights && n in Numbers(s.flights[x]);
      assert x in t.flights && n in Numbers(t.flights[x]);
    }
  }

  lemma SelfExtends(fs: Frames)
    ensures Extends(fs, fs)
  {
  }

  lemma CommitKeeps(s: System, l: nat, x: Landing, t: System)
    requires Inv(s) && DoCommit(s, l, x, t)
    ensures Inv(t)
  {
    hide Judged, Settled, VerdictOn, Granted, FlightsOk, Disjoint, Owned, Numbers, Compaction.Inv, SamePayload;
    forall id <- s.c.items
      ensures t.c.items[id].refs == s.c.items[id].refs && SamePayload(t.c.items[id].full, s.c.items[id].full)
      ensures t.c.items[id].full.seqNo == s.c.items[id].full.seqNo
      ensures t.c.items[id].ver > s.c.items[id].ver || t.c.items[id] == s.c.items[id]
    {
      SettledSame(s.c.items[id], VerdictOn(s.flights[l], x.vs, id), x.now, x.reason);
      SameNumber(t.c.items[id].full, s.c.items[id].full);
    }
    PayloadKept(s.c, t.c.items);
    LandedFlights(s, l, t);
  }

  lemma SameNumber(x: Record, y: Record)
    requires SamePayload(x, y)
    ensures x.seqNo == y.seqNo
  {
  }

  lemma GiveUpKeeps(s: System, l: nat, t: System)
    requires Inv(s) && DoGiveUp(s, l, t)
    ensures Inv(t)
  {
    hide FlightsOk, Disjoint, Owned, Numbers, Compaction.Inv;
    LandedFlights(s, l, t);
  }

  lemma VerdictAt(cs: seq<Cand>, vs: seq<Verdict>, i: nat)
    requires Different(cs) && |vs| == |cs| && i < |cs|
    ensures VerdictOn(cs, vs, cs[i].full.id) == vs[i]
  {
    var id := cs[i].full.id;
    assert exists j :: 0 <= j < |cs| && cs[j].full.id == id;
    forall j | 0 <= j < |cs| && j != i ensures cs[j].full.id != id {
      if j < i {
        assert cs[j].full.id != cs[i].full.id;
      } else {
        assert cs[i].full.id != cs[j].full.id;
      }
    }
  }

  /** A stored record can be read, whatever compactions did. */
  lemma StoredReads(c: Storage, id: Text)
    requires Compaction.Inv(c) && id in c.items
    ensures var st := c.items[id];
            st.full.id == id && Exist(st.refs, c.live) && Hydrate(c.frames, Meta(st.full), st.refs) == Some(st.full)
  {
    var st := c.items[id];
    assert ItemOk(st, id, c.seqNo, c.frames, c.live);
    ResolvedHydrates(c.frames, st.refs, st.full, Meta(st.full));
  }

  lemma JudgedGood(s: System, reserved: set<nat>, k: Cand, now: Time, v: Verdict)
    requires Compaction.Inv(s.c) && CandOk(s, k) && Judged(s, reserved, k, now, v) && !v.Drop?
    ensures var id := k.full.id;
            && Eligible(s, reserved, id, now) && s.c.items[id].full == k.full && s.c.items[id].ver == k.ver
            && (v.Good? ==> v.rec == k.full) && (v.Unreadable? ==> Damaged(s, id))
  {
    hide Compaction.Inv, Hydrate, Resolves, Eligible;
    assert Unchanged(s, reserved, k, now);
    EligibleStored(s, reserved, k.full.id, now);
    StoredReads(s.c, k.full.id);
  }

  lemma EligibleStored(s: System, reserved: set<nat>, id: Text, now: Time)
    requires Eligible(s, reserved, id, now)
    ensures id in s.c.items
  {
  }

  /** What a lease hands out: exactly the stored record as it stands after the commit,
      leased until the given time, with its attempt counted; nobody else held it. */
  lemma CommitHandsOut(s: System, l: nat, x: Landing, t: System, i: nat)
    requires Inv(s) && DoCommit(s, l, x, t) && i < |x.vs| && x.vs[i].Good?
    ensures var k := s.flights[l][i];
            var id := k.full.id;
            && id in s.c.items && id in t.c.items && s.c.items[id].full == k.full && Eligible(s, t.reserved, id, x.now)
            && Handed(s.c.items[id], x.vs[i]) == t.c.items[id].full == LeasedRecord(k.full)
            && t.c.items[id].ver > k.ver && Until(t, k.full.seqNo) == x.until
  {
    hide Compaction.Inv, Judged, CandOk, VerdictOn, Eligible;
    var cs := s.flights[l];
    var k := cs[i];
    assert k in cs && CandOk(s, k) && Different(cs);
    VerdictAt(cs, x.vs, i);
    JudgedGood(s, t.reserved, k, x.now, x.judged[i]);
    EligibleStored(s, t.reserved, k.full.id, x.now);
    assert Granted(cs, x.vs, k.full.seqNo) && k.full.seqNo in Numbers(cs);
  }

  /** A lease that is committed lasts: what it granted counts one more attempt and may not be
      picked again before its end. */
  lemma CommitLasts(s: System, l: nat, x: Landing, t: System, i: nat, reserved: set<nat>, now: Time)
    requires Inv(s) && DoCommit(s, l, x, t) && i < |x.vs| && x.vs[i].Good?
    ensures var k := s.flights[l][i].full;
            && k.id in t.c.items && t.c.items[k.id].full == k.(state := Leased, attempts := k.attempts + 1)
            && (Eligible(t, reserved, k.id, now) ==> x.until <= now)
  {
    hide Inv, DoCommit, Handed;
    CommitHandsOut(s, l, x, t, i);
  }

  /** A candidate that was read is leased exactly if the lease is logged and nobody has
      touched the record since it was picked; otherwise the record stays as it is. */
  lemma ReadIsLeased(s: System, l: nat, x: Landing, t: System, i: nat)
    requires Inv(s) && DoCommit(s, l, x, t) && i < |x.vs| && s.flights[l][i].read.Payload?
    ensures var k := s.flights[l][i];
            var id := k.full.id;
            if x.logged && Unchanged(s, t.reserved, k, x.now)
            then id in t.c.items && t.c.items[id].full == LeasedRecord(k.full) && Until(t, k.full.seqNo) == x.until
            else id in s.c.items ==> id in t.c.items && t.c.items[id] == s.c.items[id]
  {
    hide Compaction.Inv, CandOk, VerdictOn, Eligible;
    if x.vs[i].Good? {
      CommitHandsOut(s, l, x, t, i);
    } else {
      VerdictAt(s.flights[l], x.vs, i);
    }
  }

  /** No readable record is parked as unreadable. */
  lemma OnlyDamagedParked(s: System, l: nat, x: Landing, t: System, i: nat)
    requires Inv(s) && DoCommit(s, l, x, t) && i < |x.vs| && x.vs[i].Unreadable?
    ensures var id := s.flights[l][i].full.id;
            id in s.c.items && Damaged(s, id)
  {
    hide Compaction.Inv, Judged, CandOk, VerdictOn, Eligible;
    var k := s.flights[l][i];
    assert k in s.flights[l] && CandOk(s, k);
    JudgedGood(s, t.reserved, k, x.now, x.judged[i]);
    EligibleStored(s, t.reserved, k.full.id, x.now);
  }

  /** A record is never in two leases' hands: what one picked no other has. */
  lemma PickedOnce(s: System, a: nat, b: nat, i: nat, j: nat)
    requires Inv(s) && a in s.flights && b in s.flights && i < |s.flights[a]| && j < |s.flights[b]|
    requires s.flights[a][i].full.seqNo == s.flights[b][j].full.seqNo
    ensures a == b
  {
    assert s.flights[a][i] in s.flights[a] && s.flights[b][j] in s.flights[b];
    assert s.flights[a][i].full.seqNo in Numbers(s.flights[a]) && s.flights[b][j].full.seqNo in Numbers(s.flights[b]);
  }

  /** Every reservation is released: none outlives the leases in flight. */
  lemma NothingStaysReserved(s: System)
    requires Inv(s) && s.flights == map[]
    ensures s.reserved == {}
  {
  }

  // ---- whole runs ----

  datatype Move =
    | Select(l: nat, ids: seq<Text>, now: Time)
    | Read(l: nat, i: nat, ok: bool)
    | Commit(l: nat, x: Landing)
    | GiveUp(l: nat)
    | Other(a: Step)
    | Decay(refs: set<Ref>) // frames become unreadable

  ghost predicate Moves(s: System, m: Move, t: System) {
    match m
    case Select(l, ids, now) => DoSelect(s, l, ids, now, t)
    case Read(l, i, ok) => DoRead(s, l, i, ok, t)
    case Commit(l, x) => DoCommit(s, l, x, t)
    case GiveUp(l) => DoGiveUp(s, l, t)
    case Other(a) => DoOther(s, a, t)
    case Decay(refs) => t == s.(damaged := s.damaged + refs)
  }

  lemma DecayKeeps(s: System, refs: set<Ref>, t: System)
    requires Inv(s) && t == s.(damaged := s.damaged + refs)
    ensures Inv(t)
  {
    hide Compaction.Inv, OneEach, Disjoint, Owned, CandOk;
    forall l <- t.flights ensures forall k <- t.flights[l] :: CandOk(t, k) && k.full.seqNo in t.reserved {
      forall k <- t.flights[l] ensures CandOk(t, k) && k.full.seqNo in t.reserved {
        SameItems(s, t, k);
      }
    }
  }

  lemma MoveKeeps(s: System, m: Move, t: System)
    requires Inv(s) && Moves(s, m, t)
    ensures Inv(t)
  {
    hide Inv, DoSelect, DoRead, DoCommit, DoGiveUp, DoOther;
    match m
    case Select(l, ids, now) => SelectKeeps(s, l, ids, now, t);
    case Read(l, i, ok) => ReadKeeps(s, l, i, ok, t);
    case Commit(l, x) => CommitKeeps(s, l, x, t);
    case GiveUp(l) => GiveUpKeeps(s, l, t);
    case Other(a) => OtherKeeps(s, a, t);
    case Decay(refs) => DecayKeeps(s, refs, t);
  }

  ghost predicate Run(ss: seq<System>, ms: seq<Move>) {
    && |ss| == |ms| + 1 && ss[0] == System(START, {}, map[], map[], {})
    && forall i, j :: 0 <= i && j == i + 1 <= |ms| ==> Moves(ss[i], ms[i], ss[j])
  }

  /** Every reachable state of every interleaving. */
  lemma {:induction false} RunKeeps(ss: seq<System>, ms: seq<Move>, i: nat)
    requires Run(ss, ms) && i < |ss|
    ensures Inv(ss[i])
  {
    hide Moves;
    if i > 0 {
      RunKeeps(ss, ms, i - 1);
      MoveKeeps(ss[i - 1], ms[i - 1], ss[i]);
    }
  }

  /** The three-step lease over whole runs: whenever a lease commits, what it hands out is
      the stored record, taken from nobody; what it sets aside is damaged; and it leaves
      nothing reserved. */
  lemma LeaseSafe(ss: seq<System>, ms: seq<Move>, i: nat, k: nat)
    requires Run(ss, ms) && i < |ms| && ms[i].Commit? && k < |ms[i].x.vs|
    ensures var s, l, x, t := ss[i], ms[i].l, ms[i].x, ss[i + 1];
            && l in s.flights && k < |s.flights[l]| && t.reserved !! Numbers(s.flights[l])
            && var id := s.flights[l][k].full.id;
            && (x.vs[k].Good? ==>
                  && id in s.c.items && id in t.c.items && Eligible(s, t.reserved, id, x.now)
                  && Handed(s.c.items[id], x.vs[k]) == t.c.items[id].full)
            && (x.vs[k].Unreadable? ==> id in s.c.items && Damaged(s, id))
  {
    RunKeeps(ss, ms, i);
    assert Moves(ss[i], ms[i], ss[i + 1]);
    hide Inv, Run, Judged, VerdictOn, Eligible;
    if ms[i].x.vs[k].Good? {
      CommitHandsOut(ss[i], ms[i].l, ms[i].x, ss[i + 1], k);
    } else if ms[i].x.vs[k].Unreadable? {
      OnlyDamagedParked(ss[i], ms[i].l, ms[i].x, ss[i + 1], k);
    }
  }
}
