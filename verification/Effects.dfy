/** What each call leaves behind, field by field, and what that means for the next lease
    (grant, applyNack, applyRelease, applyPark, applyRequeue, setCheckpoint and eligible in
    dlq/machine.go): how long a lease lasts, that a failed record waits out its backoff, and
    that a parked one stays put until someone asks for it. */
module Effects {
  import opened Records
  import opened RecordCodec
  import opened Entries
  import opened Queues
  import opened Store

  /** Nothing but this record changed. */
  ghost predicate OnlyTouches(q: Queue, q': Queue, id: Text) {
    && q'.seqNo == q.seqNo && q'.items.Keys == q.items.Keys
    && forall o <- q.items :: o != id ==> q'.items[o] == q.items[o]
  }

  /** No stored record of the same order key has a smaller number, or there is no key. */
  ghost predicate FirstOfKey(q: Queue, id: Text)
    requires id in q.items
  {
    var r := q.items[id].rec;
    r.orderKey == [] || forall o <- q.items :: q.items[o].rec.orderKey == r.orderKey ==> !(q.items[o].rec.seqNo < r.seqNo)
  }

  /** The record may be leased from this time on, and not before. */
  ghost predicate FreeFrom(q: Queue, id: Text, from: Time) {
    id in q.items && forall now: Time :: Eligible(q, id, now) <==> from <= now && FirstOfKey(q, id)
  }

  ghost predicate NeverFree(q: Queue, id: Text) { forall now: Time :: !Eligible(q, id, now) }

  /** The token is presented and it is the record's lease. */
  predicate Presents(q: Queue, id: Text, token: Token) {
    id in q.items && q.items[id].rec.state == Leased && q.items[id].token == Some(token)
  }

  // ---- which calls succeed ----

  /** What a call that needs the lease answers. */
  predicate Fences(q: Queue, id: Text, token: Token, answer: Outcome) {
    if id !in q.items then answer == NotFound else if Presents(q, id, token) then answer == Done else answer == LeaseLost
  }

  /** What a call that needs a parked record answers. */
  predicate NeedsParked(q: Queue, id: Text, answer: Outcome) {
    if id !in q.items then answer == NotFound else if q.items[id].rec.state == Parked then answer == Done else answer == NotParked
  }

  /** What each call answers; one that is not done changes nothing. */
  lemma Outcomes(w: World, c: Call, w': World)
    requires Step(w, c, w')
    ensures var q, answer := w.q, Check(w.q, c);
            && (answer != Done ==> w'.q == q)
            && match c
               case AppendCall(rec) => answer == if rec.id in q.items then Duplicate else Done
               case LeaseCall(_, _, _, _) => answer == Done
               case SetAside(id, _, _) => answer == if id in q.items then Done else NotFound
               case RequeueCall(id, _) => NeedsParked(q, id, answer)
               case DiscardCall(id) => NeedsParked(q, id, answer)
               case CheckpointCall(id, token, _) => Fences(q, id, token, answer)
               case AckCall(id, token) => Fences(q, id, token, answer)
               case NackCall(id, token, _, _, _, _, _) => Fences(q, id, token, answer)
               case ReleaseCall(id, token) => Fences(q, id, token, answer)
               case ParkCall(id, token, _, _) => Fences(q, id, token, answer)
  {
  }

  // ---- what they do ----

  /** Append stores the record as it was prepared, without a lease. */
  lemma AppendDoes(w: World, c: Call, w': World)
    requires Step(w, c, w') && c.AppendCall? && Check(w.q, c) == Done
    ensures var id := c.rec.id;
            && w'.q.items == w.q.items[id := Item(c.rec, None, ZERO_TIME)] && w'.q.seqNo == w.q.seqNo + 1 == c.rec.seqNo
            && (if c.rec.state == Parked then NeverFree(w'.q, id) else FreeFrom(w'.q, id, c.rec.nextAttempt))
  {
  }

  /** Lease: each record is leased under its own token until the time given, counts one more
      attempt and is otherwise the same; no other record is touched. */
  lemma LeaseDoes(w: World, c: Call, w': World, i: nat)
    requires Step(w, c, w') && c.LeaseCall? && i < |c.ids|
    ensures w'.q.seqNo == w.q.seqNo && w'.q.items.Keys == w.q.items.Keys
    ensures forall o <- w.q.items :: o !in c.ids ==> w'.q.items[o] == w.q.items[o]
    ensures var id := c.ids[i];
            && id in w.q.items
            && var r := w.q.items[id].rec;
               && w'.q.items[id] == Item(r.(state := Leased, attempts := r.attempts + 1), Some(c.tokens[i]), c.until)
               && FreeFrom(w'.q, id, c.until)
  {
    hide Fresh;
    GrantItems(w.q, c.ids, c.tokens, c.until);
    assert Eligible(w.q, c.ids[i], c.now);
    SameOrder(w, c, w', c.ids[i]);
  }

  /** A lease moves nothing in its key. */
  lemma SameOrder(w: World, c: Call, w': World, id: Text)
    requires Step(w, c, w') && c.LeaseCall? && id in w'.q.items && id in w.q.items
    ensures FirstOfKey(w'.q, id) <==> FirstOfKey(w.q, id)
  {
    hide Fresh, Eligible;
    GrantItems(w.q, c.ids, c.tokens, c.until);
    forall o <- w.q.items ensures SameRecord(w.q.items[o], w'.q.items[o]) {
      StepRecords(w, c, w', o);
    }
  }

  /** Nack: the record is pending and waits for next; when and why it failed is recorded, and
      what it is blocked on if that is said. */
  lemma NackDoes(w: World, c: Call, w': World)
    requires Step(w, c, w') && c.NackCall? && Check(w.q, c) == Done
    ensures OnlyTouches(w.q, w'.q, c.id) && FreeFrom(w'.q, c.id, c.next)
    ensures var r, it := w.q.items[c.id].rec, w'.q.items[c.id];
            && it.token == None && it.until == ZERO_TIME
            && it.rec == r.(state := Pending, lastFailed := c.at, nextAttempt := c.next, lastError := c.text,
                            blockedOn := if c.blockedOn == [] then r.blockedOn else c.blockedOn,
                            attempts := if c.refund && r.attempts >= 1 then r.attempts - 1 else r.attempts)
  {
  }

  /** Release: the record is pending as it was before the lease, which does not count. */
  lemma ReleaseDoes(w: World, c: Call, w': World)
    requires Step(w, c, w') && c.ReleaseCall? && Check(w.q, c) == Done
    ensures OnlyTouches(w.q, w'.q, c.id) && FreeFrom(w'.q, c.id, w.q.items[c.id].rec.nextAttempt)
    ensures var r, it := w.q.items[c.id].rec, w'.q.items[c.id];
            && it.token == None && it.until == ZERO_TIME
            && it.rec == r.(state := Pending, attempts := if r.attempts >= 1 then r.attempts - 1 else r.attempts)
  {
  }

  /** Park, asked for or because the payload cannot be read: the record is set aside with the
      time and the reason, and no lease takes it. */
  lemma ParkDoes(w: World, c: Call, w': World)
    requires Step(w, c, w') && (c.ParkCall? || c.SetAside?) && Check(w.q, c) == Done
    ensures OnlyTouches(w.q, w'.q, c.id) && NeverFree(w'.q, c.id)
    ensures var r, it := w.q.items[c.id].rec, w'.q.items[c.id];
            && it.token == None && it.until == ZERO_TIME
            && it.rec == r.(state := Parked, lastFailed := c.at, lastError := c.reason)
  {
  }

  /** Requeue: a parked record starts over, at once; its checkpoint is replaced exactly if
      that is asked. */
  lemma RequeueDoes(w: World, c: Call, w': World)
    requires Step(w, c, w') && c.RequeueCall? && Check(w.q, c) == Done
    ensures OnlyTouches(w.q, w'.q, c.id) && FreeFrom(w'.q, c.id, ZERO_TIME)
    ensures var r, it := w.q.items[c.id].rec, w'.q.items[c.id];
            && it.token == w.q.items[c.id].token && it.until == w.q.items[c.id].until
            && it.rec == r.(state := Pending, attempts := 0, nextAttempt := ZERO_TIME,
                            checkpoint := if c.replace.Some? then c.replace.value else r.checkpoint)
  {
  }

  /** Checkpoint: nothing but the checkpoint changes, and the lease goes on. */
  lemma CheckpointDoes(w: World, c: Call, w': World)
    requires Step(w, c, w') && c.CheckpointCall? && Check(w.q, c) == Done
    ensures OnlyTouches(w.q, w'.q, c.id) && Presents(w'.q, c.id, c.token) && FreeFrom(w'.q, c.id, w.q.items[c.id].until)
    ensures w'.q.items[c.id] == w.q.items[c.id].(rec := w.q.items[c.id].rec.(checkpoint := c.cp))
  {
  }

  /** Ack and Discard: the record is gone, and nothing else changes. */
  lemma RemoveDoes(w: World, c: Call, w': World)
    requires Step(w, c, w') && (c.AckCall? || c.DiscardCall?) && Check(w.q, c) == Done
    ensures w'.q.seqNo == w.q.seqNo && w'.q.items == w.q.items - {c.id} && NeverFree(w'.q, c.id)
  {
  }

  // ---- what a restart does ----

  /** Replay tolerates entries about records that are gone, and a record that is there
      already; a requeue or a discard is only good for a parked one. The next Seq only rises. */
  lemma ReplayTolerates(q: Queue, e: Entry)
    requires !e.Lease?
    ensures var id, q' := if e.Append? then e.rec.id else e.id, Replay(q, e);
            && (forall o <- q.items :: o != id ==> o in q'.items && q'.items[o] == q.items[o])
            && (forall o <- q'.items :: o in q.items || (o == id && e.Append?))
            && q.seqNo <= q'.seqNo && (q.seqNo < q'.seqNo ==> e.Append? && id !in q.items && q'.seqNo == e.rec.seqNo)
            && (e.Append? && id !in q.items ==> e.rec.seqNo <= q'.seqNo)
            && (e.Append? && id in q.items ==> q' == q)
            && (!e.Append? && id !in q.items ==> q' == q)
            && ((e.Requeue? || e.Discard?) && id in q.items && q.items[id].rec.state != Parked ==> q' == q)
            && (id in q.items ==> (id !in q'.items <==> e.Ack? || (e.Discard? && q.items[id].rec.state == Parked)))
  {
  }

  /** A record whose lease is gone: pending if it was leased, and otherwise the same. */
  predicate HandedBack(was: Item, now: Item) {
    && now.token == None && now.until == ZERO_TIME
    && now.rec == if was.rec.state == Leased then was.rec.(state := Pending) else was.rec
  }

  /** endReplay hands every lease back and changes nothing else: attempts, backoff, errors,
      checkpoints and order are what they were. */
  lemma EndReplayDoes(q: Queue)
    requires NoLooseTokens(q)
    ensures var q' := EndReplay(q);
            q'.seqNo == q.seqNo && q'.items.Keys == q.items.Keys && forall id <- q.items :: HandedBack(q.items[id], q'.items[id])
  {
  }

  /** What a restart sees of a queue is that, with every record as it reads back from the
      log. */
  lemma RestartSees(q: Queue)
    ensures var q' := View(true, q);
            && q'.seqNo == q.seqNo && q'.items.Keys == q.items.Keys
            && forall id <- q.items :: HandedBack(q.items[id].(rec := NormRecord(q.items[id].rec)), q'.items[id])
  {
  }

  // ---- over runs ----

  /** The calls that take a record out of the queue's hands at a time of their own. */
  predicate Takes(c: Call, id: Text) { (c.LeaseCall? && id in c.ids) || (c.SetAside? && c.id == id) }

  function TakenAt(c: Call): Time
    requires c.LeaseCall? || c.SetAside?
  {
    if c.LeaseCall? then c.now else c.at
  }

  /** While a lease is held its end does not move. */
  lemma HeldStep(w: World, c: Call, w': World, id: Text, token: Token)
    requires Step(w, c, w') && token in w.issued && Held(w'.q, id, token)
    ensures token in w'.issued && Held(w.q, id, token) && w'.q.items[id].until == w.q.items[id].until
  {
    if !Held(w.q, id, token) {
      SupersededStays(w, c, w', id, token);
    }
    if c.LeaseCall? {
      GrantItems(w.q, c.ids, c.tokens, c.until);
    }
  }

  /** A lease lasts as long as it says. In every run, a record handed out at moment i under a
      token that is still its lease at moment j is taken by no call before the time it was
      leased until; from then on it may be leased again, if it is the first of its key. */
  lemma {:induction false} LeaseLasts(ws: seq<World>, es: seq<Event>, i: nat, j: nat, n: nat)
    requires Run(ws, es) && i < j < |ws| && es[i].Called? && es[i].c.LeaseCall? && n < |es[i].c.ids|
    requires n < |es[i].c.tokens| && Held(ws[j].q, es[i].c.ids[n], es[i].c.tokens[n])
    ensures var id, until := es[i].c.ids[n], es[i].c.until;
            && FreeFrom(ws[j].q, id, until)
            && (j < |es| && es[j].Called? && Takes(es[j].c, id) ==> until <= TakenAt(es[j].c))
    ensures es[i].c.tokens[n] in ws[j].issued && ws[j].q.items[es[i].c.ids[n]].until == es[i].c.until
    decreases j
  {
    var id, token := es[i].c.ids[n], es[i].c.tokens[n];
    assert Next(ws[j - 1], es[j - 1], ws[j]);
    if i == j - 1 {
      LeaseDoes(ws[i], es[i].c, ws[j], n);
    } else {
      hide Step, Run, FreeFrom;
      IssuedLater(ws, es, i, j - 1, n);
      if es[j - 1].Called? {
        HeldStep(ws[j - 1], es[j - 1].c, ws[j], id, token);
        LeaseLasts(ws, es, i, j - 1, n);
      }
    }
    HeldUntil(ws[j].q, id, token);
    if j < |es| && es[j].Called? && Takes(es[j].c, id) {
      TakenWhenFree(ws, es, j, id);
    }
  }

  lemma HeldUntil(q: Queue, id: Text, token: Token)
    requires Held(q, id, token)
    ensures FreeFrom(q, id, q.items[id].until)
  {
  }

  /** A call takes a record only when it may be leased. */
  lemma TakenWhenFree(ws: seq<World>, es: seq<Event>, j: nat, id: Text)
    requires Run(ws, es) && j < |es| && es[j].Called? && Takes(es[j].c, id)
    ensures Eligible(ws[j].q, id, TakenAt(es[j].c))
  {
    assert Next(ws[j], es[j], ws[j + 1]);
  }

  lemma {:induction false} IssuedLater(ws: seq<World>, es: seq<Event>, i: nat, j: nat, n: nat)
    requires Run(ws, es) && i < j < |ws| && es[i].Called? && es[i].c.LeaseCall? && n < |es[i].c.tokens|
    ensures es[i].c.tokens[n] in ws[j].issued
    decreases j
  {
    assert Next(ws[j - 1], es[j - 1], ws[j]);
    if i < j - 1 {
      IssuedLater(ws, es, i, j - 1, n);
    }
  }

  /** From moment i to moment j there is no restart and no call takes or requeues the record. */
  ghost predicate LeftAlone(es: seq<Event>, i: nat, j: nat, id: Text) {
    j <= |es| && forall k :: i <= k < j ==> es[k].Called? && !Takes(es[k].c, id) && !Revives(es[k].c, id)
  }

  predicate Revives(c: Call, id: Text) { (c.RequeueCall? || c.DiscardCall?) && c.id == id }

  lemma AloneStep(w: World, c: Call, w': World, id: Text)
    requires Step(w, c, w') && !Takes(c, id) && !Revives(c, id) && id in w.q.items && w.q.items[id].rec.state != Leased
    ensures id in w'.q.items && w'.q.items[id] == w.q.items[id]
  {
    if c.LeaseCall? {
      GrantItems(w.q, c.ids, c.tokens, c.until);
    }
  }

  lemma {:induction false} AloneStays(ws: seq<World>, es: seq<Event>, i: nat, j: nat, id: Text)
    requires Run(ws, es) && i <= j < |ws| && LeftAlone(es, i, j, id) && id in ws[i].q.items
    requires ws[i].q.items[id].rec.state != Leased
    ensures id in ws[j].q.items && ws[j].q.items[id] == ws[i].q.items[id]
    decreases j - i
  {
    if i < j {
      AloneStays(ws, es, i, j - 1, id);
      assert Next(ws[j - 1], es[j - 1], ws[j]);
      AloneStep(ws[j - 1], es[j - 1].c, ws[j], id);
    }
  }

  /** A failed record waits out its backoff: in every run, the first call to take a record
      after a Nack does so at the time the Nack named or later, and from that time on the
      record may be leased if it is the first of its key. */
  lemma BackoffHolds(ws: seq<World>, es: seq<Event>, i: nat, j: nat)
    requires Run(ws, es) && i < j < |ws| && es[i].Called? && es[i].c.NackCall? && Check(ws[i].q, es[i].c) == Done
    requires LeftAlone(es, i + 1, j, es[i].c.id)
    ensures var id, next := es[i].c.id, es[i].c.next;
            && FreeFrom(ws[j].q, id, next)
            && (j < |es| && es[j].Called? && Takes(es[j].c, id) ==> next <= TakenAt(es[j].c))
  {
    var id := es[i].c.id;
    assert Next(ws[i], es[i], ws[i + 1]);
    NackDoes(ws[i], es[i].c, ws[i + 1]);
    AloneStays(ws, es, i + 1, j, id);
    hide Run, LeftAlone;
    PendingFree(ws[j].q, id);
    if j < |es| && es[j].Called? && Takes(es[j].c, id) {
      TakenWhenFree(ws, es, j, id);
    }
  }

  lemma PendingFree(q: Queue, id: Text)
    requires id in q.items && q.items[id].rec.state == Pending
    ensures FreeFrom(q, id, q.items[id].rec.nextAttempt)
  {
  }

  /** A parked record stays put: in every run, after a Park nothing takes it until it is
      requeued or discarded. */
  lemma ParkedStays(ws: seq<World>, es: seq<Event>, i: nat, j: nat)
    requires Run(ws, es) && i < j < |ws| && es[i].Called? && es[i].c.ParkCall? && Check(ws[i].q, es[i].c) == Done
    requires forall k :: i < k < j ==> es[k].Called? && !Revives(es[k].c, es[i].c.id)
    ensures var id := es[i].c.id;
            && id in ws[j].q.items && ws[j].q.items[id] == ws[i + 1].q.items[id]
            && NeverFree(ws[j].q, id) && (j < |es| && es[j].Called? ==> !Takes(es[j].c, id))
    decreases j
  {
    var id := es[i].c.id;
    assert Next(ws[i], es[i], ws[i + 1]);
    ParkDoes(ws[i], es[i].c, ws[i + 1]);
    if i + 1 < j {
      ParkedStays(ws, es, i, j - 1);
      assert Next(ws[j - 1], es[j - 1], ws[j]);
      AloneStep(ws[j - 1], es[j - 1].c, ws[j], id);
    }
    if j < |es| && es[j].Called? && Takes(es[j].c, id) {
      TakenWhenFree(ws, es, j, id);
      assert false;
    }
  }
}
