/** Calls on a live store (dlq/wal_write.go, dlq/store.go): each is checked, logged and
    applied under one lock, so each is one step of a run. Leases are fenced by tokens
    that are never issued twice, and records sharing an order key leave strictly in
    arrival order. */
module Store {
  import opened Records
  import opened Entries
  import opened Queues

  datatype Call =
    | AppendCall(rec: Record)                                          // as prepare() completed it
    | LeaseCall(ids: seq<Text>, tokens: seq<Token>, now: Time, until: Time) // the commit step of Lease
    | CheckpointCall(id: Text, token: Token, cp: Option<Bytes>)
    | AckCall(id: Text, token: Token)
    | NackCall(id: Text, token: Token, at: Time, next: Time, text: Text, blockedOn: Text, refund: bool)
    | ReleaseCall(id: Text, token: Token)
    | ParkCall(id: Text, token: Token, at: Time, reason: Text)
    | SetAside(id: Text, at: Time, reason: Text)                       // Lease found the payload unreadable
    | RequeueCall(id: Text, replace: Option<Option<Bytes>>)
    | DiscardCall(id: Text)

  datatype Outcome = Done | Duplicate | NotFound | LeaseLost | NotParked

  /** held: the record is leased and token is that lease. */
  predicate Held(q: Queue, id: Text, token: Token) {
    id in q.items && q.items[id].rec.state == Leased && q.items[id].token == Some(token)
  }

  /** No stored record with the same order key arrived earlier. */
  ghost predicate IsHead(q: Queue, id: Text)
    requires id in q.items
  {
    forall o <- q.items :: q.items[o].rec.orderKey == q.items[id].rec.orderKey ==>
      q.items[id].rec.seqNo <= q.items[o].rec.seqNo
  }

  /** eligible: may be leased at now. */
  ghost predicate Eligible(q: Queue, id: Text, now: Time) {
    && id in q.items
    && (match q.items[id].rec.state
        case Parked => false
        case Pending => q.items[id].rec.nextAttempt <= now
        case Leased => q.items[id].until <= now)
    && (q.items[id].rec.orderKey != [] ==> IsHead(q, id))
  }

  function Granted(it: Item, token: Token, until: Time): Item {
    Leasing(it).(token := Some(token), until := until)
  }

  function Grant(q: Queue, ids: seq<Text>, tokens: seq<Token>, until: Time): Queue
    requires |ids| == |tokens|
  {
    if ids == [] then q
    else
      var n := |ids| - 1;
      var g := Grant(q, ids[..n], tokens[..n], until);
      if ids[n] in g.items then Set(g, ids[n], Granted(g.items[ids[n]], tokens[n], until)) else g
  }

  /** What the call's log entry says. */
  function EntryOf(c: Call): Entry {
    match c
    case AppendCall(rec) => Append(rec)
    case LeaseCall(ids, _, _, _) => Lease(ids)
    case CheckpointCall(id, _, cp) => Checkpoint(id, cp)
    case AckCall(id, _) => Ack(id)
    case NackCall(id, _, at, next, text, blockedOn, refund) => Nack(id, at, next, text, blockedOn, refund)
    case ReleaseCall(id, _) => Release(id)
    case ParkCall(id, _, at, reason) => Park(id, at, reason)
    case SetAside(id, at, reason) => Park(id, at, reason)
    case RequeueCall(id, replace) => Requeue(id, replace)
    case DiscardCall(id) => Discard(id)
  }

  /** The token a lease-fenced call presents. */
  function TokenOf(c: Call): Option<(Text, Token)> {
    match c
    case CheckpointCall(id, t, _) => Some((id, t))
    case AckCall(id, t) => Some((id, t))
    case NackCall(id, t, _, _, _, _, _) => Some((id, t))
    case ReleaseCall(id, t) => Some((id, t))
    case ParkCall(id, t, _, _) => Some((id, t))
    case _ => None
  }

  function Fence(q: Queue, id: Text, token: Token): Outcome {
    if id !in q.items then NotFound else if !Held(q, id, token) then LeaseLost else Done
  }

  function Check(q: Queue, c: Call): Outcome {
    match c
    case AppendCall(rec) => if rec.id in q.items then Duplicate else Done
    case LeaseCall(_, _, _, _) => Done
    case SetAside(id, _, _) => if id in q.items then Done else NotFound
    case RequeueCall(id, _) =>
      if id !in q.items then NotFound else if q.items[id].rec.state != Parked then NotParked else Done
    case DiscardCall(id) =>
      if id !in q.items then NotFound else if q.items[id].rec.state != Parked then NotParked else Done
    case _ => Fence(q, TokenOf(c).value.0, TokenOf(c).value.1)
  }

  function Perform(q: Queue, c: Call): Queue
    requires c.LeaseCall? ==> |c.ids| == |c.tokens|
  {
    if Check(q, c) != Done then q
    else if c.LeaseCall? then Grant(q, c.ids, c.tokens, c.until)
    else Replay(q, EntryOf(c))
  }

  // ---- runs ----

  datatype World = World(q: Queue, issued: set<Token>)

  ghost predicate Fresh(w: World, tokens: seq<Token>) {
    && (forall t <- tokens :: t !in w.issued)
    && (forall i, j :: 0 <= i < j < |tokens| ==> tokens[i] != tokens[j])
  }

  ghost predicate Distinct(ids: seq<Text>) {
    forall i, j :: 0 <= i < j < |ids| ==> ids[i] != ids[j]
  }

  /** What callers and prepare() guarantee of a call before it reaches the queue. */
  ghost predicate Allowed(w: World, c: Call) {
    match c
    case AppendCall(rec) => rec.seqNo == w.q.seqNo + 1 && rec.state != Leased
    case LeaseCall(ids, tokens, now, until) =>
      && |ids| == |tokens| && Fresh(w, tokens) && Distinct(ids)
      && (forall id <- ids :: Eligible(w.q, id, now))
    case SetAside(id, at, _) => Eligible(w.q, id, at)
    case _ => true
  }

  ghost predicate Step(w: World, c: Call, w': World) {
    && Allowed(w, c)
    && w'.q == Perform(w.q, c)
    && w'.issued == w.issued + if c.LeaseCall? then set t | t in c.tokens else {}
  }

  /** A restart: nothing is leased any more, and no earlier token will be issued again. */
  ghost predicate Restart(w: World, w': World) {
    w'.issued == w.issued && Wf(w'.q) && Sound(w'.q) && forall id <- w'.q.items :: w'.q.items[id].token == None
  }

  /** Every leased record with an order key is the oldest stored record of that key. */
  ghost predicate HeadOfLine(q: Queue) {
    forall id <- q.items :: q.items[id].rec.state == Leased && q.items[id].rec.orderKey != [] ==> IsHead(q, id)
  }

  ghost predicate Sound(q: Queue) { Wf(q) && HeadOfLine(q) }

  predicate SameRecord(x: Item, y: Item) {
    x.rec.id == y.rec.id && x.rec.seqNo == y.rec.seqNo && x.rec.orderKey == y.rec.orderKey
  }

  /** Changing records in place keeps the queue sound as long as only heads become leased. */
  lemma ChangedSound(q: Queue, g: Queue)
    requires Sound(q) && g.seqNo == q.seqNo && g.items.Keys == q.items.Keys
    requires forall o <- q.items :: SameRecord(q.items[o], g.items[o])
    requires forall o <- g.items :: g.items[o].rec.state != Leased ==> g.items[o].token == None
    requires forall o <- g.items :: g.items[o].rec.state == Leased && g.items[o].rec.orderKey != [] ==> IsHead(q, o)
    ensures Sound(g)
  {
    forall a <- g.items, b <- g.items | g.items[a].rec.seqNo == g.items[b].rec.seqNo ensures a == b {
      assert SameRecord(q.items[a], g.items[a]) && SameRecord(q.items[b], g.items[b]);
    }
    forall o <- g.items | g.items[o].rec.state == Leased && g.items[o].rec.orderKey != [] ensures IsHead(g, o) {
      assert IsHead(q, o) && SameRecord(q.items[o], g.items[o]);
      forall p <- g.items ensures SameRecord(q.items[p], g.items[p]) {
      }
    }
  }

  lemma SetSound(q: Queue, id: Text, it: Item)
    requires Sound(q) && id in q.items && SameRecord(q.items[id], it)
    requires it.rec.state != Leased ==> it.token == None
    requires it.rec.state == Leased && it.rec.orderKey != [] ==> IsHead(q, id)
    ensures Sound(Set(q, id, it))
  {
    ChangedSound(q, Set(q, id, it));
  }

  lemma RemoveSound(q: Queue, id: Text)
    requires Sound(q)
    ensures Sound(Remove(q, id))
  {
    var q' := Remove(q, id);
    forall o <- q'.items | q'.items[o].rec.state == Leased && q'.items[o].rec.orderKey != []
      ensures IsHead(q', o)
    {
      assert IsHead(q, o);
    }
  }

  lemma InsertSound(q: Queue, rec: Record)
    requires Sound(q) && rec.seqNo == q.seqNo + 1 && rec.state != Leased
    ensures Sound(Insert(q, rec))
  {
    var q' := Insert(q, rec);
    forall o <- q'.items | q'.items[o].rec.state == Leased && q'.items[o].rec.orderKey != []
      ensures IsHead(q', o)
    {
      assert IsHead(q, o);
    }
  }

  lemma {:induction false} GrantItems(q: Queue, ids: seq<Text>, tokens: seq<Token>, until: Time)
    requires |ids| == |tokens| && Distinct(ids)
    ensures var g := Grant(q, ids, tokens, until);
            && g.seqNo == q.seqNo && g.items.Keys == q.items.Keys
            && (forall o <- q.items :: o !in ids ==> g.items[o] == q.items[o])
            && (forall i :: 0 <= i < |ids| && ids[i] in q.items ==>
                 g.items[ids[i]] == Granted(q.items[ids[i]], tokens[i], until))
  {
    hide Granted;
    if ids != [] {
      var n := |ids| - 1;
      GrantItems(q, ids[..n], tokens[..n], until);
      assert ids[n] !in ids[..n];
    }
  }

  lemma GrantSound(q: Queue, ids: seq<Text>, tokens: seq<Token>, until: Time, now: Time)
    requires Sound(q) && |ids| == |tokens| && Distinct(ids)
    requires forall id <- ids :: Eligible(q, id, now)
    ensures Sound(Grant(q, ids, tokens, until))
  {
    GrantItems(q, ids, tokens, until);
    var g := Grant(q, ids, tokens, until);
    forall o <- q.items
      ensures SameRecord(q.items[o], g.items[o])
      ensures g.items[o].rec.state != Leased ==> g.items[o].token == None
      ensures g.items[o].rec.state == Leased && g.items[o].rec.orderKey != [] ==> IsHead(q, o)
    {
      if o in ids {
        var i :| 0 <= i < |ids| && ids[i] == o;
        assert Eligible(q, o, now);
      }
    }
    ChangedSound(q, g);
  }

  lemma SteppedSound(q: Queue, id: Text, e: Entry)
    requires Sound(q) && !e.Append? && !e.Lease?
    requires e.Requeue? && id in q.items ==> q.items[id].rec.state == Parked
    ensures Sound(ReplayOne(q, id, e))
  {
    RemoveSound(q, id);
    if id in q.items {
      SteppedKeeps(q.items[id], e);
      SetSound(q, id, Stepped(q.items[id], e));
    }
  }

  /** Head of line: every step of every run keeps a leased record the oldest of its key. */
  lemma StepSound(w: World, c: Call, w': World)
    requires Sound(w.q) && Step(w, c, w')
    ensures Sound(w'.q)
  {
    if Check(w.q, c) == Done {
      match c
      case AppendCall(rec) => InsertSound(w.q, rec);
      case LeaseCall(ids, tokens, now, until) => GrantSound(w.q, ids, tokens, until, now);
      case _ => SteppedSound(w.q, EntryOf(c).id, EntryOf(c));
    }
  }

  lemma SteppedKeeps(it: Item, e: Entry)
    ensures var s := Stepped(it, e);
            && SameRecord(it, s)
            && (s.rec.state == Leased ==> it.rec.state == Leased)
            && (s.token == None || s.token == it.token)
            && (s.rec.state != Leased && !e.Requeue? ==> s.token == None || it.rec.state != Leased)
  {
  }

  /** A call keeps the records it does not remove, and only an append adds one. */
  lemma StepRecords(w: World, call: Call, w': World, id: Text)
    requires Step(w, call, w') && id in w'.q.items
    ensures if id in w.q.items then SameRecord(w.q.items[id], w'.q.items[id])
            else call.AppendCall? && call.rec.id == id && w'.q.items[id].rec == call.rec && call.rec.seqNo == w.q.seqNo + 1
  {
    if Check(w.q, call) == Done {
      match call
      case AppendCall(_) =>
      case LeaseCall(ids, tokens, _, until) =>
        hide Eligible, Fresh;
        GrantItems(w.q, ids, tokens, until);
        if id in ids {
          var i :| 0 <= i < |ids| && ids[i] == id;
        }
      case _ =>
        if id in w.q.items {
          SteppedKeeps(w.q.items[id], EntryOf(call));
        }
    }
  }

  lemma OneLeasePerKey(q: Queue, a: Text, b: Text)
    requires Sound(q) && a in q.items && b in q.items
    requires q.items[a].rec.state == Leased && q.items[b].rec.state == Leased
    requires q.items[a].rec.orderKey == q.items[b].rec.orderKey != []
    ensures a == b
  {
    assert IsHead(q, a) && IsHead(q, b);
  }

  // ---- fencing ----

  /** The token was issued and is not the current lease of the record. */
  ghost predicate Superseded(w: World, id: Text, token: Token) {
    token in w.issued && !Held(w.q, id, token)
  }

  lemma {:induction false} GrantTokens(q: Queue, ids: seq<Text>, tokens: seq<Token>, until: Time, id: Text,
      token: Token)
    requires |ids| == |tokens| && token !in tokens && !Held(q, id, token)
    ensures !Held(Grant(q, ids, tokens, until), id, token)
  {
    if ids != [] {
      GrantTokens(q, ids[..|ids| - 1], tokens[..|ids| - 1], until, id, token);
    }
  }

  /** Fencing, one step: a superseded token stays superseded whatever happens next, and
      a call that presents it is refused and changes nothing. */
  lemma SupersededStays(w: World, c: Call, w': World, id: Text, token: Token)
    requires Step(w, c, w') && Superseded(w, id, token)
    ensures Superseded(w', id, token)
    ensures TokenOf(c) == Some((id, token)) ==> w'.q == w.q && Check(w.q, c) in {NotFound, LeaseLost}
  {
    if Check(w.q, c) == Done {
      match c
      case AppendCall(_) =>
      case LeaseCall(ids, tokens, _, until) => GrantTokens(w.q, ids, tokens, until, id, token);
      case _ => if EntryOf(c).id in w.q.items { SteppedKeeps(w.q.items[EntryOf(c).id], EntryOf(c)); }
    }
  }

  /** What ends a lease: finishing, failing, giving back or parking the record,
      removing it, and leasing it again. */
  predicate EndsLease(c: Call, id: Text) {
    match c
    case AckCall(i, _) => i == id
    case NackCall(i, _, _, _, _, _, _) => i == id
    case ReleaseCall(i, _) => i == id
    case ParkCall(i, _, _, _) => i == id
    case SetAside(i, _, _) => i == id
    case LeaseCall(ids, _, _, _) => id in ids
    case _ => false
  }

  lemma LeaseEnds(w: World, c: Call, w': World, id: Text, token: Token)
    requires Sound(w.q) && Step(w, c, w') && token in w.issued
    requires Held(w.q, id, token) && EndsLease(c, id) && Check(w.q, c) == Done
    ensures Superseded(w', id, token)
  {
    if c.LeaseCall? {
      GrantItems(w.q, c.ids, c.tokens, c.until);
      var i :| 0 <= i < |c.ids| && c.ids[i] == id;
      assert c.tokens[i] != token;
    }
  }

  datatype Event = Called(c: Call) | Restarted

  ghost predicate Next(w: World, e: Event, w': World) {
    match e
    case Called(c) => Step(w, c, w')
    case Restarted => Restart(w, w')
  }

  ghost predicate Run(ws: seq<World>, es: seq<Event>) {
    |ws| == |es| + 1 && forall i :: 0 <= i < |es| ==> Next(ws[i], es[i], ws[i + 1])
  }

  /** Fencing over whole runs: once superseded at moment i, a token is refused at every
      later moment j and changes nothing there. */
  lemma {:induction false} FencedForever(ws: seq<World>, es: seq<Event>, i: nat, j: nat, id: Text, token: Token)
    requires Run(ws, es) && i <= j < |ws| && Superseded(ws[i], id, token)
    ensures Superseded(ws[j], id, token)
    ensures j < |es| && es[j].Called? && TokenOf(es[j].c) == Some((id, token)) ==> ws[j + 1].q == ws[j].q
    decreases j - i
  {
    if i < j {
      assert Next(ws[i], es[i], ws[i + 1]);
      if es[i].Called? {
        SupersededStays(ws[i], es[i].c, ws[i + 1], id, token);
      }
      FencedForever(ws, es, i + 1, j, id, token);
    } else if j < |es| && es[j].Called? {
      assert Next(ws[j], es[j], ws[j + 1]);
      SupersededStays(ws[j], es[j].c, ws[j + 1], id, token);
    }
  }

  /** Head of line over whole runs. */
  lemma {:induction false} AlwaysHeadOfLine(ws: seq<World>, es: seq<Event>, i: nat)
    requires Run(ws, es) && i < |ws| && Sound(ws[0].q)
    ensures Sound(ws[i].q)
  {
    if i > 0 {
      AlwaysHeadOfLine(ws, es, i - 1);
      assert Next(ws[i - 1], es[i - 1], ws[i]);
      if es[i - 1].Called? {
        StepSound(ws[i - 1], es[i - 1].c, ws[i]);
      }
    }
  }

  // ---- a live store and its log ----

  lemma {:induction false} GrantReplays(q: Queue, ids: seq<Text>, tokens: seq<Token>, until: Time)
    requires |ids| == |tokens|
    ensures View(false, Grant(q, ids, tokens, until)) == View(false, ReplayLeases(q, ids))
  {
    if ids != [] {
      var n := |ids| - 1;
      GrantReplays(q, ids[..n], tokens[..n], until);
      var g, r := Grant(q, ids[..n], tokens[..n], until), ReplayLeases(q, ids[..n]);
      SameMap(Viewer(false), g, r, ids[n]);
      if ids[n] in g.items {
        var x, y := Granted(g.items[ids[n]], tokens[n], until), Leasing(r.items[ids[n]]);
        LeasingView(false, g.items[ids[n]], r.items[ids[n]]);
        assert ViewItem(false, x) == ViewItem(false, y);
        SetMap(Viewer(false), g, r, ids[n], x, y);
      }
    }
  }

  /** A call that succeeds does to the live queue what replaying its entry does, up to
      the lease the process holds. */
  lemma PerformIsReplay(q: Queue, c: Call)
    requires c.LeaseCall? ==> |c.ids| == |c.tokens|
    requires Check(q, c) == Done
    ensures View(false, Perform(q, c)) == View(false, Replay(q, EntryOf(c)))
  {
    if c.LeaseCall? {
      GrantReplays(q, c.ids, c.tokens, c.until);
    }
  }
}
