/** The attempt budget (process and settle in dlq/redrive.go, the attempt counts of
    dlq/machine.go). Handing a record out is logged, with the attempt, before a handler
    sees it, so a record that keeps killing its worker is started a bounded number of
    times however often the process crashes. */
module PoisonPill {
  import opened Records
  import opened Entries
  import opened Queues
  import Recovery
  import opened Wal
  import WalCrash
  import WalReopen
  import Store
  import DurableQueue
  import opened DurableStore

  /** What a log entry means for the attempts of one record. */
  datatype Event =
    | Handed        // leased once more
    | Returned      // the lease is refunded or released
    | Ended         // the lease ends in another way
    | Reset(a: int) // the record starts over: it arrives, leaves or is requeued
    | Other

  function EventOf(e: Entry, id: Text): Event {
    match e
    case Append(rec) => if rec.id == id then Reset(rec.attempts) else Other
    case Lease(ids) => if id in ids then Handed else Other
    case Nack(i, _, _, _, _, refund) => if i != id then Other else if refund then Returned else Ended
    case Release(i) => if i == id then Returned else Other
    case Park(i, _, _) => if i == id then Ended else Other
    case Checkpoint(_, _) => Other
    case _ => if e.id == id then Reset(0) else Other
  }

  function Events(log: seq<Entry>, id: Text): (r: seq<Event>)
    ensures |r| == |log| && forall i :: 0 <= i < |log| ==> r[i] == EventOf(log[i], id)
  {
    seq(|log|, i requires 0 <= i < |log| => EventOf(log[i], id))
  }

  /** The attempts these events count. */
  function Attempts(es: seq<Event>): int {
    if es == [] then 0
    else
      var n := Attempts(es[..|es| - 1]);
      match es[|es| - 1]
      case Handed => n + 1
      case Returned => Refunded(n)
      case Reset(a) => a
      case _ => n
  }

  /** The leases since the record last started over that were not given back, by their
      place in the log. */
  function Kept(es: seq<Event>): (s: seq<nat>)
    ensures forall i :: 0 <= i < |s| ==> s[i] < |es| && es[s[i]].Handed?
  {
    if es == [] then []
    else
      var n := |es| - 1;
      var s := Kept(es[..n]);
      match es[n]
      case Handed => s + [n]
      case Returned => if s == [] then s else s[..|s| - 1]
      case Reset(_) => []
      case _ => s
  }

  /** A lease is out. */
  predicate Open(es: seq<Event>) {
    es != [] && (es[|es| - 1].Handed? || (es[|es| - 1].Other? && Open(es[..|es| - 1])))
  }

  /** Only the latest lease is ever given back, once, and counts start at zero or more. */
  ghost predicate Fenced(es: seq<Event>) {
    forall k :: 0 <= k < |es| ==>
      && (es[k].Returned? ==> Open(es[..k]))
      && (es[k].Reset? ==> 0 <= es[k].a)
  }

  // ---- the bound, on one record's events ----

  lemma {:induction false} OpenKept(es: seq<Event>)
    requires Open(es)
    ensures Kept(es) != []
  {
    if es[|es| - 1].Other? {
      OpenKept(es[..|es| - 1]);
    }
  }

  lemma FencedPrefix(es: seq<Event>, n: nat)
    requires Fenced(es) && n <= |es|
    ensures Fenced(es[..n])
  {
    forall k | 0 <= k < n
      ensures es[..n][k].Returned? ==> Open(es[..n][..k])
    {
      assert es[..n][..k] == es[..k];
    }
  }

  /** The count covers every lease that was not given back. */
  lemma {:induction false} AttemptsCover(es: seq<Event>)
    requires Fenced(es)
    ensures |Kept(es)| <= Attempts(es)
  {
    if es != [] {
      var n := |es| - 1;
      FencedPrefix(es, n);
      AttemptsCover(es[..n]);
      if es[n].Returned? {
        OpenKept(es[..n]);
      }
    }
  }

  /** The kept leases are a stack: below one lies what was kept when it was handed out. */
  lemma {:induction false} KeptStack(es: seq<Event>, p: nat)
    requires p < |Kept(es)|
    ensures Kept(es[..Kept(es)[p] + 1]) == Kept(es)[..p + 1]
  {
    var n, s := |es| - 1, Kept(es);
    var before := Kept(es[..n]);
    if s[p] == n {
      assert es[..n + 1] == es;
      assert p == |s| - 1;
      assert s[..p + 1] == s;
    } else {
      assert p < |before| && before[p] == s[p];
      KeptStack(es[..n], p);
      assert es[..n][..s[p] + 1] == es[..s[p] + 1];
      assert s[..p + 1] == before[..p + 1];
    }
  }

  /** Of the first p kept leases, those handed out within the limit. */
  function Startable(es: seq<Event>, max: nat, p: nat): (r: seq<nat>)
    requires p <= |Kept(es)|
    ensures forall i :: 0 <= i < p && Attempts(es[..Kept(es)[i] + 1]) <= max ==> Kept(es)[i] in r
  {
    if p == 0 then []
    else
      var k, r := Kept(es)[p - 1], Startable(es, max, p - 1);
      if Attempts(es[..k + 1]) <= max then r + [k] else r
  }

  lemma {:induction false} StartableShort(es: seq<Event>, max: nat, p: nat)
    requires p <= |Kept(es)|
    ensures |Startable(es, max, p)| <= p
  {
    if p > 0 {
      StartableShort(es, max, p - 1);
    }
  }

  lemma {:induction false} StartableBound(es: seq<Event>, max: nat, p: nat)
    requires Fenced(es) && p <= |Kept(es)|
    ensures |Startable(es, max, p)| <= max
  {
    if p > 0 {
      var k := Kept(es)[p - 1];
      if Attempts(es[..k + 1]) <= max {
        KeptStack(es, p - 1);
        FencedPrefix(es, k + 1);
        AttemptsCover(es[..k + 1]);
        StartableShort(es, max, p);
      } else {
        StartableBound(es, max, p - 1);
      }
    }
  }

  // ---- what a call does to the count ----

  ghost predicate Counted(q: Queue, log: seq<Entry>) {
    forall id <- q.items :: q.items[id].rec.attempts == Attempts(Events(log, id))
  }

  /** A token is only out while the log shows the lease open. */
  ghost predicate HeldOpen(q: Queue, log: seq<Entry>) {
    forall id <- q.items :: q.items[id].token.Some? ==> Open(Events(log, id))
  }

  ghost predicate AllFenced(log: seq<Entry>) {
    forall id: Text :: Fenced(Events(log, id))
  }

  ghost predicate Moves(x: Item, e: Event, y: Item) {
    match e
    case Handed => y.rec.attempts == x.rec.attempts + 1
    case Returned => y.rec.attempts == Refunded(x.rec.attempts) && y.token.None? && x.token.Some?
    case Ended => y.rec.attempts == x.rec.attempts && y.token.None?
    case Reset(a) => y.rec.attempts == a && y.token.None?
    case Other => y.rec.attempts == x.rec.attempts && y.token == x.token
  }

  lemma LeaseMoves(w: Store.World, c: Store.Call, w': Store.World, id: Text)
    requires c.LeaseCall? && Store.Step(w, c, w') && id in w'.q.items
    ensures id in w.q.items && Moves(w.q.items[id], EventOf(Store.EntryOf(c), id), w'.q.items[id])
  {
    hide Store.Grant, Store.Fresh, Store.Eligible;
    Store.GrantItems(w.q, c.ids, c.tokens, c.until);
    if id in c.ids {
      var i :| 0 <= i < |c.ids| && c.ids[i] == id;
    }
  }

  lemma EntryMoves(q: Queue, e: Entry, id: Text)
    requires !e.Lease? && !e.Append? && Wf(q) && id in Replay(q, e).items
    requires e.id in q.items && (e.Nack? || e.Release? ==> q.items[e.id].token.Some?)
    requires e.Requeue? || e.Discard? ==> q.items[e.id].rec.state == Parked
    ensures id in q.items && Moves(q.items[id], EventOf(e, id), Replay(q, e).items[id])
  {
  }

  /** What a successful call, other than one that leases or appends, found. */
  lemma CallFound(q: Queue, c: Store.Call)
    requires !c.LeaseCall? && !c.AppendCall? && Store.Check(q, c) == Store.Done
    ensures var e := Store.EntryOf(c);
            && !e.Lease? && !e.Append? && e.id in q.items && (e.Nack? || e.Release? ==> q.items[e.id].token.Some?)
            && (e.Requeue? || e.Discard? ==> q.items[e.id].rec.state == Parked)
  {
  }

  /** A successful call moves every record as its log entry says. */
  lemma CallMoves(w: Store.World, c: Store.Call, w': Store.World, id: Text)
    requires Store.Step(w, c, w') && Store.Check(w.q, c) == Store.Done && Wf(w.q) && id in w'.q.items
    ensures var e := EventOf(Store.EntryOf(c), id);
            if id in w.q.items then Moves(w.q.items[id], e, w'.q.items[id])
            else e.Reset? && e.a == w'.q.items[id].rec.attempts && w'.q.items[id].token.None?
  {
    if c.LeaseCall? {
      hide Store.Step, Moves;
      LeaseMoves(w, c, w', id);
    } else if !c.AppendCall? {
      hide EventOf, Moves, Store.EntryOf, Store.Allowed, Replay;
      CallFound(w.q, c);
      EntryMoves(w.q, Store.EntryOf(c), id);
    }
  }

  lemma ReturnHeld(w: Store.World, c: Store.Call, id: Text)
    requires Store.Check(w.q, c) == Store.Done && EventOf(Store.EntryOf(c), id).Returned?
    ensures id in w.q.items && w.q.items[id].token.Some?
  {
  }

  lemma Snoc(log: seq<Entry>, e: Entry, id: Text)
    ensures Events(log + [e], id)[..|log|] == Events(log, id)
    ensures Events(log + [e], id)[|log|] == EventOf(e, id)
  {
  }

  lemma CallCounts(w: Store.World, c: Store.Call, w': Store.World, log: seq<Entry>)
    requires Store.Step(w, c, w') && Store.Check(w.q, c) == Store.Done && Wf(w.q)
    requires Counted(w.q, log) && HeldOpen(w.q, log)
    ensures Counted(w'.q, log + [Store.EntryOf(c)]) && HeldOpen(w'.q, log + [Store.EntryOf(c)])
  {
    hide Store.Step, Store.Check, Store.EntryOf, EventOf, Wf;
    forall id <- w'.q.items
      ensures w'.q.items[id].rec.attempts == Attempts(Events(log + [Store.EntryOf(c)], id))
      ensures w'.q.items[id].token.Some? ==> Open(Events(log + [Store.EntryOf(c)], id))
    {
      Snoc(log, Store.EntryOf(c), id);
      CallMoves(w, c, w', id);
    }
  }

  lemma FencedSnoc(log: seq<Entry>, e: Entry, id: Text)
    requires Fenced(Events(log, id))
    requires EventOf(e, id).Returned? ==> Open(Events(log, id))
    requires EventOf(e, id).Reset? ==> 0 <= EventOf(e, id).a
    ensures Fenced(Events(log + [e], id))
  {
    hide EventOf;
    var es := Events(log + [e], id);
    Snoc(log, e, id);
    forall k | 0 <= k < |es|
      ensures es[k].Returned? ==> Open(es[..k])
      ensures es[k].Reset? ==> 0 <= es[k].a
    {
      if k < |log| {
        assert es[..k] == Events(log, id)[..k];
      }
    }
  }

  lemma CallFenced(w: Store.World, c: Store.Call, log: seq<Entry>)
    requires Store.Check(w.q, c) == Store.Done && HeldOpen(w.q, log) && AllFenced(log) && EntryOk(Store.EntryOf(c))
    ensures AllFenced(log + [Store.EntryOf(c)])
  {
    hide Store.Check, Open;
    var e := Store.EntryOf(c);
    forall id: Text ensures Fenced(Events(log + [e], id)) {
      assert Fenced(Events(log, id));
      if EventOf(e, id).Returned? {
        ReturnHeld(w, c, id);
      }
      FencedSnoc(log, e, id);
    }
  }

  // ---- over runs of the durable store ----

  /** Every queue the log went through counts what the log up to it counts. */
  ghost predicate Tracked(n: Node) {
    && |n.s.hist| == |n.s.log| + 1
    && (forall k :: 0 <= k <= |n.s.log| ==> Counted(n.s.hist[k], n.s.log[..k]))
    && HeldOpen(n.w.q, n.s.log) && AllFenced(n.s.log)
  }

  lemma CallTracked(o: DurableQueue.Options, n: Node, c: Store.Call, n': Node)
    requires NodeInv(o, n) && Tracked(n) && Store.Step(n.w, c, n'.w) && Store.Check(n.w.q, c) == Store.Done
    requires Logs(DurableQueue.LogFormat(o), n.s, Store.EntryOf(c), n'.w.q, n'.s)
    ensures Tracked(n')
  {
    hide Store.Step, Store.Check, Store.EntryOf, Counted, HeldOpen, AllFenced, Inv;
    var log, e := n.s.log, Store.EntryOf(c);
    assert log[..|log|] == log;
    assert Store.Sound(n.w.q);
    CallCounts(n.w, c, n'.w, log);
    CallFenced(n.w, c, log);
    Counting(n.s.hist, log, n'.w.q, e);
  }

  lemma Counting(hist: seq<Queue>, log: seq<Entry>, q: Queue, e: Entry)
    requires |hist| == |log| + 1 && Counted(q, log + [e])
    requires forall k :: 0 <= k <= |log| ==> Counted(hist[k], log[..k])
    ensures forall k :: 0 <= k <= |log| + 1 ==> Counted((hist + [q])[k], (log + [e])[..k])
  {
    hide Counted;
    forall k | 0 <= k <= |log| + 1 ensures Counted((hist + [q])[k], (log + [e])[..k]) {
      if k <= |log| {
        assert (log + [e])[..k] == log[..k];
      } else {
        assert (log + [e])[..k] == log + [e];
      }
    }
  }

  lemma SameTracked(n: Node, n': Node)
    requires Tracked(n) && n'.w.q == n.w.q && n'.s.log == n.s.log && n'.s.hist == n.s.hist
    ensures Tracked(n')
  {
  }

  /** A crash cuts the log and hands every lease back; the counts are those of what is left. */
  lemma CrashTracked(o: DurableQueue.Options, n: Node, x: WalReopen.Ending<Entry>, n': Node)
    requires DurableQueue.OptionsOk(o) && NodeInv(o, n) && Tracked(n) && Crash(o, n, x, n')
    ensures Tracked(n')
  {
    hide Inv, Store.Sound, HeldOpen, AllFenced, Counted, Recovery.Recover, WalCrash.Reach, WalCrash.DiskAfter;
    hide WalReopen.EndingOk, WalReopen.FilesAfter, WalCrash.Survived, View, DurableQueue.LogFormat;
    var m, log, k := DurableQueue.StoreModel(o), n.s.log, |n'.s.log|;
    DurableQueue.StoreLawful(o);
    EndingWreck(m.f, n.s, x);
    WalCrash.CrashSafe(m, n.s, x.w);
    assert n'.s.log == log[..k] && n'.s.hist == n.s.hist[..k] + [View(true, n.s.hist[k])];
    ViewCounted(n.s.hist[k], log[..k]);
    PrefixFenced(log, k);
    CrashKeeps(o, n, x, n');
    NoTokens(n'.w.q, n'.s.log);
    forall j | 0 <= j <= k ensures Counted(n'.s.hist[j], n'.s.log[..j]) {
      assert log[..k][..j] == log[..j];
    }
  }

  lemma NoTokens(q: Queue, log: seq<Entry>)
    requires forall id <- q.items :: q.items[id].token == None
    ensures HeldOpen(q, log)
  {
  }

  lemma ViewCounted(q: Queue, log: seq<Entry>)
    requires Counted(q, log)
    ensures Counted(View(true, q), log)
  {
  }

  lemma PrefixFenced(log: seq<Entry>, k: nat)
    requires AllFenced(log) && k <= |log|
    ensures AllFenced(log[..k])
  {
    forall id: Text ensures Fenced(Events(log[..k], id)) {
      FencedPrefix(Events(log, id), k);
      assert Events(log[..k], id) == Events(log, id)[..k];
    }
  }

  lemma NextTracked(o: DurableQueue.Options, n: Node, mv: Move, n': Node)
    requires DurableQueue.OptionsOk(o) && NodeInv(o, n) && Tracked(n) && Next(o, n, mv, n')
    ensures Tracked(n')
  {
    hide NodeInv, Tracked, DurableStore.Capture, Crash, Step, Store.Step, Store.Check, Logs;
    match mv
    case Called(c, original) =>
      match Store.Check(n.w.q, c) {
        case Done => CallTracked(o, n, c, n');
        case Duplicate =>
          VouchSame(n.s, original, n'.s);
          RefusedSame(n.w, c, n'.w);
          SameTracked(n, n');
        case _ =>
          RefusedSame(n.w, c, n'.w);
          SameTracked(n, n');
      }
    case Captured(recs) =>
      CaptureSame(o, n, recs, n');
      SameTracked(n, n');
    case Worked(a) =>
      WorkSame(DurableQueue.StoreModel(o), n.s, a, n'.s);
      SameTracked(n, n');
    case Crashed(x) => CrashTracked(o, n, x, n');
  }

  lemma {:induction false} RunTracked(o: DurableQueue.Options, ns: seq<Node>, mvs: seq<Move>, i: nat)
    requires DurableQueue.OptionsOk(o) && Run(o, ns, mvs) && i < |ns|
    ensures Tracked(ns[i])
  {
    hide Next, NodeInv;
    if i > 0 {
      hide Tracked;
      RunKeeps(o, ns, mvs, i - 1);
      RunTracked(o, ns, mvs, i - 1);
      NextTracked(o, ns[i - 1], mvs[i - 1], ns[i]);
    }
  }

  /** process: a handler is started on the lease at place l of the log. The lease was
      returned, so its entry is acknowledged, and it counts no more than max attempts. */
  ghost predicate Starts(s: Wal<Queue, Entry>, l: nat, id: Text, max: nat) {
    && 1 <= l <= |s.log| < |s.hist| && l in s.c.acked
    && EventOf(s.log[l - 1], id).Handed? && id in s.hist[l].items && s.hist[l].items[id].rec.attempts <= max
  }

  /** A start leaves its mark in every later log, until a crash takes the segment being
      written. */
  lemma StartStays(o: DurableQueue.Options, ns: seq<Node>, mvs: seq<Move>, i: nat, j: nat, l: nat, id: Text, max: nat)
    requires DurableQueue.OptionsOk(o) && Run(o, ns, mvs) && i <= j < |ns| && Starts(ns[i].s, l, id, max)
    requires NoneTaken(ns, mvs, i, j)
    ensures l <= |ns[j].s.log| && Attempts(Events(ns[j].s.log, id)[..l]) <= max
  {
    hide DurableQueue.OptionsOk, Run, HeldOpen, AllFenced, NoneTaken;
    RunTracked(o, ns, mvs, i);
    RunVouched(o, ns, mvs, i);
    assert !Appends(ns[i].s.log, l);
    PromiseStays(o, ns, mvs, i, j, l);
    var a, b := ns[i].s.log, ns[j].s.log;
    assert Counted(ns[i].s.hist[l], a[..l]);
    assert Events(b, id)[..l] == Events(b[..l], id);
  }

  /** The poison-pill bound: in every run, through leases, expiries, lost leases, refunds,
      releases and crashes, the handler starts at most max times on leases of one record
      that were not refunded or released since the record arrived or was last requeued.
      Starts before a crash that took the segment being written do not count. */
  lemma AtMostMaxStarts(o: DurableQueue.Options, ns: seq<Node>, mvs: seq<Move>, j: nat, id: Text, max: nat,
      starts: set<nat>)
    requires DurableQueue.OptionsOk(o) && Run(o, ns, mvs) && j < |ns|
    requires forall l <- starts :: exists i :: 0 <= i <= j && Starts(ns[i].s, l, id, max) && NoneTaken(ns, mvs, i, j)
    ensures var kept := Kept(Events(ns[j].s.log, id));
            |set l | l in starts && l > 0 && l - 1 in kept| <= max
  {
    hide Run, Starts, NoneTaken, DurableQueue.OptionsOk, Attempts, Kept, Fenced;
    RunTracked(o, ns, mvs, j);
    RunMoves(o, ns, mvs, j);
    var es := Events(ns[j].s.log, id);
    forall l <- starts ensures l <= |es| && Attempts(es[..l]) <= max {
      var i :| 0 <= i <= j && Starts(ns[i].s, l, id, max) && NoneTaken(ns, mvs, i, j);
      StartStays(o, ns, mvs, i, j, l, id, max);
    }
    KeptStarts(es, max, starts);
  }

  /** Starts within the limit, on leases that were kept, are no more than the limit. */
  lemma KeptStarts(es: seq<Event>, max: nat, starts: set<nat>)
    requires Fenced(es) && forall l <- starts :: l <= |es| && Attempts(es[..l]) <= max
    ensures |set l | l in starts && l > 0 && l - 1 in Kept(es)| <= max
  {
    hide Attempts, Kept, Fenced;
    var kept := Kept(es);
    var r := Startable(es, max, |kept|);
    StartableBound(es, max, |kept|);
    var counted := set l | l in starts && l > 0 && l - 1 in kept;
    forall l <- counted ensures l > 0 && l - 1 in r {
      var p :| 0 <= p < |kept| && kept[p] == l - 1;
    }
    NoMore(counted, r);
  }

  lemma {:induction false} NoMore(a: set<nat>, r: seq<nat>)
    requires forall l <- a :: l > 0 && l - 1 in r
    ensures |a| <= |r|
  {
    if r == [] {
      assert a == {};
    } else {
      var n := |r| - 1;
      var rest := a - {r[n] + 1};
      NoMore(rest, r[..n]);
      assert a <= rest + {r[n] + 1};
      assert |a| <= |rest| + 1 by {
        if r[n] + 1 in a { assert a == rest + {r[n] + 1}; } else { assert a == rest; }
      }
    }
  }

  // ---- what the redriver does with a lease ----

  /** How a handler ended. */
  datatype Result = Succeeded | Blocked(refund: bool) | CircuitOpen | Permanent | Failed

  /** Facts about one lease: shutting down before the handler starts or by its end, and
      the times and texts the call to the store carries. */
  datatype Shift = Shift(id: Text, token: Token, stopping: bool, stopped: bool, at: Time, next: Time, text: Text, dep: Text)

  function Retried(x: Shift, attempts: int, max: int, refund: bool, dep: Text): Store.Call {
    if !refund && attempts >= max then Store.ParkCall(x.id, x.token, x.at, x.text)
    else Store.NackCall(x.id, x.token, x.at, x.next, x.text, dep, refund)
  }

  /** process, settle and block: the call that ends a lease. */
  function Processed(x: Shift, attempts: int, max: int, r: Result): Store.Call {
    if x.stopping then Store.ReleaseCall(x.id, x.token)
    else if attempts > max then Store.ParkCall(x.id, x.token, x.at, x.text)
    else
      match r
      case Succeeded => Store.AckCall(x.id, x.token)
      case Blocked(refund) => Retried(x, attempts, max, refund, x.dep)
      case CircuitOpen => Retried(x, attempts, max, true, x.dep)
      case Permanent => Store.ParkCall(x.id, x.token, x.at, x.text)
      case Failed =>
        if x.stopped then Store.ReleaseCall(x.id, x.token)
        else Retried(x, attempts, max, false, [])
  }

  /** Which call ends a lease: acknowledged only when the handler succeeded; parked when it
      failed for good or the budget is used up; handed back uncounted when the process is
      stopping; otherwise returned to wait, for the dependency it was blocked on if any,
      and without counting if it was refused. */
  lemma EndsWith(x: Shift, attempts: int, max: int, r: Result)
    ensures var c := Processed(x, attempts, max, r);
            var ran, spent := !x.stopping && attempts <= max, attempts >= max;
            && (c.AckCall? <==> ran && r.Succeeded?)
            && (c.ReleaseCall? <==> x.stopping || (ran && r.Failed? && x.stopped))
            && (c.ParkCall? <==>
                  || (!x.stopping && attempts > max)
                  || (ran && (r.Permanent? || (spent && (r == Blocked(false) || (r.Failed? && !x.stopped))))))
            && (c.NackCall? <==>
                  ran && (r.CircuitOpen? || r == Blocked(true) || (!spent && (r.Blocked? || (r.Failed? && !x.stopped)))))
            && (c.AckCall? || c.ReleaseCall? || c.ParkCall? || c.NackCall? ==> c.id == x.id && c.token == x.token)
            && (c.ParkCall? ==> c.at == x.at && c.reason == x.text)
            && (c.NackCall? ==>
                  && c.at == x.at && c.next == x.next && c.text == x.text
                  && c.refund == (r.CircuitOpen? || r == Blocked(true)) && c.blockedOn == if r.Failed? then [] else x.dep)
  {
  }

  /** However the handler ends, a record that is not being shut down on goes back to the
      queue only with budget left for another start, and its lease is over. */
  lemma BackWithBudget(q: Queue, x: Shift, max: int, r: Result)
    requires Store.Held(q, x.id, x.token) && 1 <= q.items[x.id].rec.attempts && !x.stopping
    ensures var c := Processed(x, q.items[x.id].rec.attempts, max, r);
            var q' := Store.Perform(q, c);
            && Store.Check(q, c) == Store.Done && !Store.Held(q', x.id, x.token)
            && (x.id in q'.items && q'.items[x.id].rec.state == Pending ==> q'.items[x.id].rec.attempts < max)
  {
    var c := Processed(x, q.items[x.id].rec.attempts, max, r);
    assert c.AckCall? || c.ParkCall? || c.NackCall? || c.ReleaseCall?;
  }
}
